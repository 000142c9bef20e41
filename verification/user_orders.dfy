/** The signed-in user's order history (src/app/api/user/orders/route.ts):
    the caller's own orders, newest first, one page at a time, with the
    count of all of them and the number of pages. */
module UserOrders {
  import opened Common
  import Listing
  import Orders

  datatype HistoryError = NotAuthenticated | Failed

  /** The reply body: the page, the requested page number, the page count
      (`null` for a zero limit) and the number of all the caller's orders. */
  datatype OrderPage = OrderPage(orders: seq<Orders.Order>, page: int, pages: Option<int>, totalOrders: nat)

  const DEFAULT_PAGE: int := 1
  const DEFAULT_LIMIT: int := 10

  /** The caller's orders, newest first (`Order.find({ user })` sorted by
      creation time, descending). */
  function Mine(orders: seq<Orders.Order>, user: Id): (r: seq<Orders.Order>)
    ensures forall o :: o in r <==> o in orders && o.user == user
    ensures |r| == Listing.Count(orders, (o: Orders.Order) => o.user == user)
  {
    Listing.NewestFirst(orders, (o: Orders.Order) => o.user == user)
  }

  /** GET /api/user/orders. `page` and `limit` are `None` when the
      parameter is absent or empty, otherwise its `parseInt`. */
  function History(session: Option<Session>, orders: seq<Orders.Order>, page: Option<int>, limit: Option<int>)
    : (r: Reply<OrderPage, HistoryError>)
    ensures (session.None? || session.value.user.None?) <==> r == Err(UNAUTHORIZED, NotAuthenticated)
    ensures r.Ok? ==>
      && session.Some? && session.value.user.Some?
      && var user := session.value.user.value.id;
      && var p := page.GetOr(DEFAULT_PAGE);
      && var l := limit.GetOr(DEFAULT_LIMIT);
      && var mine := Mine(orders, user);
      && (p - 1) * l >= 0
      && r.code == OK && r.body.page == p
      && r.body.totalOrders == |mine|
      && r.body.pages == Listing.PageCount(|mine|, l)
      && Listing.Page(mine, p, l) == Some(r.body.orders)
      && (forall o :: o in r.body.orders ==> o in orders && o.user == user)
    ensures r.Err? && session.Some? && session.value.user.Some? ==>
      r == Err(SERVER_ERROR, Failed) && (page.GetOr(DEFAULT_PAGE) - 1) * limit.GetOr(DEFAULT_LIMIT) < 0
  {
    if session.None? || session.value.user.None? then Err(UNAUTHORIZED, NotAuthenticated)
    else
      var mine := Mine(orders, session.value.user.value.id);
      var p := page.GetOr(DEFAULT_PAGE);
      var l := limit.GetOr(DEFAULT_LIMIT);
      match Listing.Page(mine, p, l)
      case None => Err(SERVER_ERROR, Failed)
      case Some(slice) =>
        assert forall i :: 0 <= i < |slice| ==> slice[i] in mine;
        Ok(OK, OrderPage(slice, p, Listing.PageCount(|mine|, l), |mine|))
  }

  /** Another account's order is never listed. */
  lemma OthersOrdersNeverListed(session: Option<Session>, orders: seq<Orders.Order>, page: Option<int>,
                                limit: Option<int>, o: Orders.Order)
    requires session.Some? && session.value.user.Some? && o.user != session.value.user.value.id
    ensures History(session, orders, page, limit).Ok? ==> o !in History(session, orders, page, limit).body.orders
  {
  }

  /** A signed-in user without orders gets an empty first page, a count of
      0 and 0 pages, not an error. */
  lemma NoOrdersIsEmptyHistory(session: Option<Session>, orders: seq<Orders.Order>)
    requires session.Some? && session.value.user.Some?
    requires forall i :: 0 <= i < |orders| ==> orders[i].user != session.value.user.value.id
    ensures History(session, orders, None, None) == Ok(OK, OrderPage([], 1, Some(0), 0))
  {
    assert |Mine(orders, session.value.user.value.id)| == 0;
  }

  /** The caller's newest order heads the default first page, and the count
      covers the whole history. */
  lemma NewestOrderHeadsHistory(session: Option<Session>, orders: seq<Orders.Order>, o: Orders.Order)
    requires session.Some? && session.value.user.Some? && o.user == session.value.user.value.id
    ensures var r := History(session, orders + [o], None, None);
      && r.Ok? && |r.body.orders| >= 1 && r.body.orders[0] == o
      && r.body.totalOrders == Listing.Count(orders, (x: Orders.Order) => x.user == o.user) + 1
  {
    var keep := (x: Orders.Order) => x.user == o.user;
    var s := orders + [o];
    Listing.CountAppend(orders, o, keep);
    Listing.FilterAppend(orders, o, keep);
    var f := Listing.Filter(s, keep);
    assert f[|f| - 1] == o;
    assert Mine(s, o.user) == Listing.Reverse(f);
  }
}
