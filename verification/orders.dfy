/** Orders (src/models/Order.ts) and order placement
    (src/app/api/orders/route.ts): every submitted item is checked against
    the catalogue in order — product exists, then exact price match, then
    in stock — and only when all pass is a `pending` order stored. The
    monetary fields are copied from the request, never computed. */
module Orders {
  import opened Common
  import Products

  datatype PaymentMethod = CashOnDelivery | Bkash | Card

  function PaymentName(m: PaymentMethod): string {
    match m
    case CashOnDelivery => "Cash on Delivery"
    case Bkash => "Bkash"
    case Card => "Card or Debit Card"
  }

  /** The enumeration check Mongoose runs on `paymentMethod`. */
  function ParsePayment(s: string): (r: Option<PaymentMethod>)
    ensures r.Some? ==> PaymentName(r.value) == s
    ensures r.None? ==> forall m: PaymentMethod :: PaymentName(m) != s
  {
    if s == "Cash on Delivery" then Some(CashOnDelivery)
    else if s == "Bkash" then Some(Bkash)
    else if s == "Card or Debit Card" then Some(Card)
    else None
  }

  datatype DeliveryMethod = Saver | Standard | Priority

  function DeliveryName(m: DeliveryMethod): string {
    match m
    case Saver => "Saver"
    case Standard => "Standard"
    case Priority => "Priority"
  }

  /** The enumeration check Mongoose runs on `deliveryMethod`. */
  function ParseDelivery(s: string): (r: Option<DeliveryMethod>)
    ensures r.Some? ==> DeliveryName(r.value) == s
    ensures r.None? ==> forall m: DeliveryMethod :: DeliveryName(m) != s
  {
    if s == "Saver" then Some(Saver)
    else if s == "Standard" then Some(Standard)
    else if s == "Priority" then Some(Priority)
    else None
  }

  /** The `status` enumeration; a new order is `Pending`. */
  datatype OrderStatus = Pending | Processing | OutForDelivery | Delivered | Cancelled

  function StatusName(s: OrderStatus): string {
    match s
    case Pending => "pending"
    case Processing => "processing"
    case OutForDelivery => "out_for_delivery"
    case Delivered => "delivered"
    case Cancelled => "cancelled"
  }

  /** A line item: a snapshot of the product at ordering time. */
  datatype OrderItem = OrderItem(product: Id, name: string, quantity: real, image: string, price: real)

  datatype ShippingAddress = ShippingAddress(
    address: string, city: string, postalCode: string, area: string, details: Option<string>)

  /** A stored order. */
  datatype Order = Order(
    id: Id,
    user: Id,
    orderItems: seq<OrderItem>,
    shippingAddress: ShippingAddress,
    paymentMethod: PaymentMethod,
    deliveryMethod: DeliveryMethod,
    itemsPrice: real,
    taxPrice: real,
    shippingPrice: real,
    tipAmount: real,
    totalPrice: real,
    isPaid: bool,
    paidAt: Option<Time>,
    isDelivered: bool,
    deliveredAt: Option<Time>,
    status: OrderStatus,
    rider: Option<Id>,
    createdAt: Time)

  // Schema defaults of the monetary fields.
  const DEFAULT_ITEMS_PRICE: real := 0.0
  const DEFAULT_TAX_PRICE: real := 0.0
  const DEFAULT_SHIPPING_PRICE: real := 45.0
  const DEFAULT_TIP_AMOUNT: real := 0.0
  const DEFAULT_TOTAL_PRICE: real := 0.0

  /** The schema's required strings hold something (Mongoose's `required`
      rejects the empty string). */
  predicate ItemValid(it: OrderItem) {
    it.name != "" && it.image != ""
  }

  predicate AddressValid(a: ShippingAddress) {
    a.address != "" && a.city != "" && a.postalCode != "" && a.area != ""
  }

  /** Each flag goes with its timestamp: paid exactly when a paid-at time is
      recorded, delivered exactly when a delivery time is. */
  predicate PaymentConsistent(o: Order) {
    (o.isPaid <==> o.paidAt.Some?) && (o.isDelivered <==> o.deliveredAt.Some?)
  }

  /** One submitted line item; every field may be absent. */
  datatype ItemRequest = ItemRequest(
    product: Option<Id>, name: Option<string>, quantity: Option<real>, image: Option<string>, price: Option<real>)

  datatype AddressRequest = AddressRequest(
    address: Option<string>, city: Option<string>, postalCode: Option<string>, area: Option<string>,
    details: Option<string>)

  /** The JSON body of POST /api/orders. */
  datatype OrderRequest = OrderRequest(
    orderItems: Option<seq<ItemRequest>>,
    shippingAddress: Option<AddressRequest>,
    paymentMethod: Option<string>,
    deliveryMethod: Option<string>,
    itemsPrice: Option<real>,
    shippingPrice: Option<real>,
    tipAmount: Option<real>,
    totalPrice: Option<real>)

  /** Why an order was refused. */
  datatype OrderError =
    | NotAuthenticated
    | NoItems
    | ProductNotFound(product: Option<Id>)
    | PriceMismatch(productName: string)
    | OutOfStock(productName: string)
    | InvalidOrder

  /** `Product.findById(id)`. */
  function FindProduct(products: seq<Products.Product>, id: Id): Option<nat> {
    FindFirst(products, (p: Products.Product) => p.id == id)
  }

  /** The three checks on one item, in the route's order; `None` when it passes. */
  function CheckItem(products: seq<Products.Product>, item: ItemRequest): (r: Option<OrderError>)
    ensures r.None? <==>
      item.product.Some? && FindProduct(products, item.product.value).Some?
      && var p := products[FindProduct(products, item.product.value).value];
      item.price == Some(p.price) && p.inStock
    ensures item.product.None? ==> r == Some(ProductNotFound(None))
    ensures item.product.Some? && FindProduct(products, item.product.value).None? ==>
      r == Some(ProductNotFound(item.product))
    ensures item.product.Some? && FindProduct(products, item.product.value).Some? ==>
      var p := products[FindProduct(products, item.product.value).value];
      && (item.price != Some(p.price) ==> r == Some(PriceMismatch(p.name)))
      && (item.price == Some(p.price) && !p.inStock ==> r == Some(OutOfStock(p.name)))
  {
    if item.product.None? then Some(ProductNotFound(None))
    else
      match FindProduct(products, item.product.value)
      case None => Some(ProductNotFound(item.product))
      case Some(k) =>
        var p := products[k];
        if item.price != Some(p.price) then Some(PriceMismatch(p.name))
        else if !p.inStock then Some(OutOfStock(p.name))
        else None
  }

  /** The verdict of the item loop: the error of the first failing item. */
  function FirstItemError(products: seq<Products.Product>, items: seq<ItemRequest>): Option<OrderError> {
    if items == [] then None
    else if CheckItem(products, items[0]).Some? then CheckItem(products, items[0])
    else FirstItemError(products, items[1..])
  }

  /** The first failing item decides: the verdict is an error exactly when
      some item fails, and then it is the error of the earliest one. */
  lemma {:induction false} FirstItemErrorIsEarliest(products: seq<Products.Product>, items: seq<ItemRequest>)
    ensures FirstItemError(products, items).None? <==>
      forall i :: 0 <= i < |items| ==> CheckItem(products, items[i]).None?
    ensures FirstItemError(products, items).Some? ==>
      exists i :: 0 <= i < |items| && CheckItem(products, items[i]) == FirstItemError(products, items)
        && forall j :: 0 <= j < i ==> CheckItem(products, items[j]).None?
  {
    if items != [] {
      FirstItemErrorIsEarliest(products, items[1..]);
      if CheckItem(products, items[0]).None? {
        assert forall i :: 1 <= i < |items| ==> items[i] == items[1..][i - 1];
        if FirstItemError(products, items).Some? {
          var k :| 0 <= k < |items[1..]| && CheckItem(products, items[1..][k]) == FirstItemError(products, items[1..])
            && forall j :: 0 <= j < k ==> CheckItem(products, items[1..][j]).None?;
          assert CheckItem(products, items[k + 1]) == FirstItemError(products, items);
          forall j | 0 <= j < k + 1 ensures CheckItem(products, items[j]).None? {
            if j > 0 { assert items[j] == items[1..][j - 1]; }
          }
        }
      } else {
        assert CheckItem(products, items[0]) == FirstItemError(products, items);
      }
    }
  }

  /** The route's `for (const item of orderItems)` loop, returning at the
      first failing item. */
  method VerifyItems(products: seq<Products.Product>, items: seq<ItemRequest>) returns (err: Option<OrderError>)
    ensures err == FirstItemError(products, items)
    ensures err.None? <==> forall i :: 0 <= i < |items| ==> CheckItem(products, items[i]).None?
  {
    FirstItemErrorIsEarliest(products, items);
    var k := 0;
    while k < |items|
      invariant 0 <= k <= |items|
      invariant forall j :: 0 <= j < k ==> CheckItem(products, items[j]).None?
      invariant FirstItemError(products, items) == FirstItemError(products, items[k..])
    {
      assert items[k..][1..] == items[k + 1..];
      var e := CheckItem(products, items[k]);
      if e.Some? {
        return e;
      }
      k := k + 1;
    }
    return None;
  }

  /** A submitted item that the schema accepts: every required field is
      present and the strings are non-empty. */
  predicate ItemComplete(item: ItemRequest) {
    item.product.Some? && Truthy(item.name) && item.quantity.Some? && Truthy(item.image) && item.price.Some?
  }

  /** The stored snapshot of a submitted item, or `None` when a required
      field is absent or empty. */
  function BuildItem(item: ItemRequest): (r: Option<OrderItem>)
    ensures r.Some? <==>
      item.product.Some? && Truthy(item.name) && item.quantity.Some? && Truthy(item.image) && item.price.Some?
    ensures r.Some? ==> ItemValid(r.value)
    ensures r.Some? ==> Some(r.value.price) == item.price && Some(r.value.product) == item.product
    ensures r.Some? ==>
      Some(r.value.name) == item.name && Some(r.value.quantity) == item.quantity && Some(r.value.image) == item.image
  {
    if ItemComplete(item)
    then Some(OrderItem(item.product.value, item.name.value, item.quantity.value, item.image.value, item.price.value))
    else None
  }

  function BuildItems(items: seq<ItemRequest>): (r: Option<seq<OrderItem>>)
    ensures r.Some? ==> |r.value| == |items|
    ensures r.Some? ==> forall i :: 0 <= i < |items| ==> BuildItem(items[i]) == Some(r.value[i])
    ensures r.None? ==> exists i :: 0 <= i < |items| && BuildItem(items[i]).None?
  {
    if items == [] then Some([])
    else
      match (BuildItem(items[0]), BuildItems(items[1..]))
      case (Some(it), Some(rest)) =>
        assert forall i :: 1 <= i < |items| ==> items[i] == items[1..][i - 1];
        Some([it] + rest)
      case (None, _) => None
      case (_, None) =>
        var k :| 0 <= k < |items[1..]| && BuildItem(items[1..][k]).None?;
        assert items[k + 1] == items[1..][k];
        None
  }

  /** The stored shipping address, or `None` when one of the four required
      parts is absent or empty; `details` is optional and copied as sent. */
  function BuildAddress(a: Option<AddressRequest>): (r: Option<ShippingAddress>)
    ensures r.Some? <==>
      a.Some? && Truthy(a.value.address) && Truthy(a.value.city) && Truthy(a.value.postalCode) && Truthy(a.value.area)
    ensures r.Some? ==> AddressValid(r.value)
    ensures r.Some? ==>
      && Some(r.value.address) == a.value.address && Some(r.value.city) == a.value.city
      && Some(r.value.postalCode) == a.value.postalCode && Some(r.value.area) == a.value.area
      && r.value.details == a.value.details
  {
    if a.Some? && Truthy(a.value.address) && Truthy(a.value.city) && Truthy(a.value.postalCode) && Truthy(a.value.area)
    then Some(ShippingAddress(a.value.address.value, a.value.city.value, a.value.postalCode.value,
                              a.value.area.value, a.value.details))
    else None
  }

  /** `isPaid: paymentMethod !== 'Cash on Delivery'`, on the submitted string. */
  predicate PaidOnPlacement(req: OrderRequest) {
    req.paymentMethod != Some("Cash on Delivery")
  }

  /** `Order.create({...})` after the checks: the document the route builds,
      validated by the schema; `None` is a validation error (500). */
  function BuildOrder(req: OrderRequest, items: seq<ItemRequest>, user: Id, id: Id, now: Time): (r: Option<Order>)
    ensures r.Some? ==> r.value.status == Pending && r.value.taxPrice == DEFAULT_TAX_PRICE
    ensures r.Some? ==> r.value.user == user && r.value.id == id && r.value.createdAt == now
    ensures r.Some? ==> !r.value.isDelivered && r.value.deliveredAt.None? && r.value.rider.None?
    ensures r.Some? ==> PaymentConsistent(r.value)
    ensures r.Some? ==> BuildItems(items) == Some(r.value.orderItems)
    ensures r.Some? ==> PaymentName(r.value.paymentMethod) == req.paymentMethod.GetOr("")
    ensures r.Some? <==>
      && BuildItems(items).Some? && BuildAddress(req.shippingAddress).Some?
      && req.paymentMethod.Some? && ParsePayment(req.paymentMethod.value).Some?
      && req.deliveryMethod.Some? && ParseDelivery(req.deliveryMethod.value).Some?
    ensures r.Some? ==>
      && Some(r.value.shippingAddress) == BuildAddress(req.shippingAddress)
      && DeliveryName(r.value.deliveryMethod) == req.deliveryMethod.GetOr("")
  {
    var its := BuildItems(items);
    var addr := BuildAddress(req.shippingAddress);
    var pm := if req.paymentMethod.Some? then ParsePayment(req.paymentMethod.value) else None;
    var dm := if req.deliveryMethod.Some? then ParseDelivery(req.deliveryMethod.value) else None;
    if its.None? || addr.None? || pm.None? || dm.None? then None
    else
      var paid := PaidOnPlacement(req);
      Some(Order(
        id, user, its.value, addr.value, pm.value, dm.value,
        req.itemsPrice.GetOr(DEFAULT_ITEMS_PRICE), DEFAULT_TAX_PRICE,
        req.shippingPrice.GetOr(DEFAULT_SHIPPING_PRICE), req.tipAmount.GetOr(DEFAULT_TIP_AMOUNT),
        req.totalPrice.GetOr(DEFAULT_TOTAL_PRICE),
        paid, if paid then Some(now) else None,
        false, None, Pending, None, now))
  }

  /** The identifier of a stored order. */
  function OrderId(x: Order): Id {
    x.id
  }

  /** POST /api/orders. The catalogue is only read; the order collection
      either gains exactly the new order or is left as it was. */
  method PlaceOrder(session: Option<Session>, req: OrderRequest, products: seq<Products.Product>,
                    orders: seq<Order>, now: Time)
    returns (h: Handled<Order, OrderError, seq<Order>>)
    ensures h.reply.Err? ==> h.store == orders
    ensures h.reply.Ok? ==> h.reply.code == CREATED && h.store == orders + [h.reply.body]
    ensures session.None? || session.value.user.None? ==> h.reply == Err(UNAUTHORIZED, NotAuthenticated)
    ensures session.Some? && session.value.user.Some? && (req.orderItems.None? || req.orderItems.value == []) ==>
      h.reply == Err(BAD_REQUEST, NoItems)
    ensures h.reply.Ok? ==>
      && session.Some? && session.value.user.Some?
      && req.orderItems.Some? && req.orderItems.value != []
      && (forall i :: 0 <= i < |req.orderItems.value| ==> CheckItem(products, req.orderItems.value[i]).None?)
      && BuildOrder(req, req.orderItems.value, session.value.user.value.id, FreshId(orders, OrderId), now) == Some(h.reply.body)
    ensures h.reply.Err? && h.reply.code == BAD_REQUEST && h.reply.error != NoItems ==>
      req.orderItems.Some? && FirstItemError(products, req.orderItems.value) == Some(h.reply.error)
    ensures (session.Some? && session.value.user.Some? && req.orderItems.Some? && req.orderItems.value != []
             && FirstItemError(products, req.orderItems.value).Some?) ==>
      h == Handled(Err(BAD_REQUEST, FirstItemError(products, req.orderItems.value).value), orders)
    ensures (session.Some? && session.value.user.Some? && req.orderItems.Some? && req.orderItems.value != []
             && FirstItemError(products, req.orderItems.value).None?) ==>
      var built := BuildOrder(req, req.orderItems.value, session.value.user.value.id, FreshId(orders, OrderId), now);
      && (built.Some? ==> h == Handled(Ok(CREATED, built.value), orders + [built.value]))
      && (built.None? ==> h == Handled(Err(SERVER_ERROR, InvalidOrder), orders))
  {
    if session.None? || session.value.user.None? {
      return Handled(Err(UNAUTHORIZED, NotAuthenticated), orders);
    }
    if req.orderItems.None? || req.orderItems.value == [] {
      return Handled(Err(BAD_REQUEST, NoItems), orders);
    }
    var items := req.orderItems.value;
    var err := VerifyItems(products, items);
    if err.Some? {
      return Handled(Err(BAD_REQUEST, err.value), orders);
    }
    var built := BuildOrder(req, items, session.value.user.value.id, FreshId(orders, OrderId), now);
    if built.None? {
      return Handled(Err(SERVER_ERROR, InvalidOrder), orders);
    }
    return Handled(Ok(CREATED, built.value), orders + [built.value]);
  }

  /** A placed order is paid exactly when the method is not cash on
      delivery, and then it was paid at the moment of placement. */
  lemma PaidIffNotCashOnDelivery(req: OrderRequest, items: seq<ItemRequest>, user: Id, id: Id, now: Time)
    requires BuildOrder(req, items, user, id, now).Some?
    ensures var o := BuildOrder(req, items, user, id, now).value;
      (o.isPaid <==> o.paymentMethod != CashOnDelivery)
      && (o.paidAt.Some? <==> o.isPaid)
      && (o.isPaid ==> o.paidAt == Some(now))
  {
  }

  /** The monetary fields are stored as submitted (schema defaults for the
      absent ones, 45 for shipping), the tax is 0, and nothing is derived
      from the line items: the same request with other prices on its items
      stores the same amounts. */
  lemma AmountsAreCopiedNotComputed(req: OrderRequest, items: seq<ItemRequest>, items': seq<ItemRequest>,
                                    user: Id, id: Id, now: Time)
    requires BuildOrder(req, items, user, id, now).Some?
    requires BuildOrder(req, items', user, id, now).Some?
    ensures var o := BuildOrder(req, items, user, id, now).value;
      && o.itemsPrice == req.itemsPrice.GetOr(0.0)
      && o.shippingPrice == req.shippingPrice.GetOr(45.0)
      && o.tipAmount == req.tipAmount.GetOr(0.0)
      && o.totalPrice == req.totalPrice.GetOr(0.0)
      && o.taxPrice == 0.0
    ensures var o := BuildOrder(req, items, user, id, now).value;
      var o' := BuildOrder(req, items', user, id, now).value;
      o.itemsPrice == o'.itemsPrice && o.totalPrice == o'.totalPrice
      && o.shippingPrice == o'.shippingPrice && o.tipAmount == o'.tipAmount
  {
  }

  /** A stored line item carries exactly the price the catalogue had when
      the order was placed. */
  lemma StoredPricesMatchCatalogue(products: seq<Products.Product>, req: OrderRequest,
                                   items: seq<ItemRequest>, user: Id, id: Id, now: Time, i: nat)
    requires forall j :: 0 <= j < |items| ==> CheckItem(products, items[j]).None?
    requires BuildOrder(req, items, user, id, now).Some?
    requires i < |items|
    ensures i < |BuildOrder(req, items, user, id, now).value.orderItems|
    ensures var o := BuildOrder(req, items, user, id, now).value;
      var k := FindProduct(products, o.orderItems[i].product);
      k.Some? && products[k.value].price == o.orderItems[i].price && products[k.value].inStock
  {
    var its := BuildItems(items).value;
    assert BuildItem(items[i]) == Some(its[i]);
    assert CheckItem(products, items[i]).None?;
  }

  /** Placing an order, whatever the handler answers, keeps every stored
      order's payment and delivery flags consistent with their timestamps. */
  method PlacementKeepsFlagsConsistent(session: Option<Session>, req: OrderRequest,
                                       products: seq<Products.Product>, orders: seq<Order>, now: Time)
    returns (h: Handled<Order, OrderError, seq<Order>>)
    requires forall i :: 0 <= i < |orders| ==> PaymentConsistent(orders[i])
    ensures forall i :: 0 <= i < |h.store| ==> PaymentConsistent(h.store[i])
    ensures h.reply.Ok? ==> h.reply.body.isPaid == PaidOnPlacement(req)
  {
    h := PlaceOrder(session, req, products, orders, now);
    if h.reply.Ok? {
      assert h.store[|orders|] == h.reply.body;
      assert forall i :: 0 <= i < |orders| ==> h.store[i] == orders[i];
    }
  }

  /** The success path is reachable: a signed-in user's request whose items
      all pass the catalogue checks and carry every required field, with a
      complete address and known payment and delivery methods, is placed
      with 201 and stored as the built order. */
  method CompleteOrderIsPlaced(session: Option<Session>, req: OrderRequest, products: seq<Products.Product>,
                               orders: seq<Order>, now: Time)
    returns (h: Handled<Order, OrderError, seq<Order>>)
    requires session.Some? && session.value.user.Some?
    requires req.orderItems.Some? && req.orderItems.value != []
    requires forall i :: 0 <= i < |req.orderItems.value| ==>
      CheckItem(products, req.orderItems.value[i]).None? && ItemComplete(req.orderItems.value[i])
    requires req.shippingAddress.Some?
    requires Truthy(req.shippingAddress.value.address) && Truthy(req.shippingAddress.value.city)
    requires Truthy(req.shippingAddress.value.postalCode) && Truthy(req.shippingAddress.value.area)
    requires req.paymentMethod.Some? && ParsePayment(req.paymentMethod.value).Some?
    requires req.deliveryMethod.Some? && ParseDelivery(req.deliveryMethod.value).Some?
    ensures h.reply.Ok? && h.reply.code == CREATED && h.store == orders + [h.reply.body]
    ensures h.reply.body.user == session.value.user.value.id && h.reply.body.status == Pending
    ensures |h.reply.body.orderItems| == |req.orderItems.value|
  {
    var items := req.orderItems.value;
    FirstItemErrorIsEarliest(products, items);
    assert forall i :: 0 <= i < |items| ==> BuildItem(items[i]).Some?;
    h := PlaceOrder(session, req, products, orders, now);
  }
}
