/** The product catalogue (src/models/Product.ts) and the products route
    (src/app/api/products/route.ts): the schema a stored product satisfies,
    admin-only creation, and the filter the listing builds from its query
    parameters. */
module Products {
  import opened Common
  import Listing

  /** The `category` enumeration. */
  datatype Category = Burger | Pizza | Pasta | Dessert | Drink | Other

  function CategoryName(c: Category): string {
    match c
    case Burger => "burger"
    case Pizza => "pizza"
    case Pasta => "pasta"
    case Dessert => "dessert"
    case Drink => "drink"
    case Other => "other"
  }

  /** The enumeration check Mongoose runs on `category`. */
  function ParseCategory(s: string): (r: Option<Category>)
    ensures r.Some? ==> CategoryName(r.value) == s
    ensures r.None? ==> forall c: Category :: CategoryName(c) != s
  {
    if s == "burger" then Some(Burger)
    else if s == "pizza" then Some(Pizza)
    else if s == "pasta" then Some(Pasta)
    else if s == "dessert" then Some(Dessert)
    else if s == "drink" then Some(Drink)
    else if s == "other" then Some(Other)
    else None
  }

  /** A stored product. Prices and ratings are JSON numbers, modelled as
      reals that are only compared, never rounded. */
  datatype Product = Product(
    id: Id,
    name: string,
    description: string,
    price: real,
    category: Category,
    image: string,
    rating: real,
    numReviews: real,
    inStock: bool,
    featured: bool,
    createdAt: Time)

  /** The product schema's validators: the required strings are non-empty
      (the name after trimming), the price is not negative and the rating
      lies in [0, 5]. */
  predicate Valid(p: Product) {
    && p.name != "" && p.name == Trim(p.name)
    && p.description != ""
    && p.price >= 0.0
    && p.image != ""
    && 0.0 <= p.rating <= 5.0
  }

  /** The JSON body of a product creation, each field possibly absent. */
  datatype ProductInput = ProductInput(
    name: Option<string>,
    description: Option<string>,
    price: Option<real>,
    category: Option<string>,
    image: Option<string>,
    rating: Option<real>,
    numReviews: Option<real>,
    inStock: Option<bool>,
    featured: Option<bool>)

  const DEFAULT_RATING: real := 0.0
  const DEFAULT_NUM_REVIEWS: real := 0.0
  const DEFAULT_IN_STOCK: bool := true
  const DEFAULT_FEATURED: bool := false

  /** `Product.create(input)`: defaults fill the absent optional fields, the
      name is trimmed, and the validators decide; `None` is a validation
      error. */
  function Build(input: ProductInput, id: Id, now: Time): (r: Option<Product>)
    ensures r.Some? ==> Valid(r.value)
    ensures r.Some? ==> r.value.id == id && r.value.createdAt == now
    ensures r.Some? ==> input.rating.None? ==> r.value.rating == DEFAULT_RATING
    ensures r.Some? ==> r.value.inStock == input.inStock.GetOr(DEFAULT_IN_STOCK)
    ensures r.Some? ==> r.value.featured == input.featured.GetOr(DEFAULT_FEATURED)
    ensures r.Some? <==>
      && input.name.Some? && Trim(input.name.value) != ""
      && Truthy(input.description)
      && input.price.Some? && input.price.value >= 0.0
      && input.category.Some? && ParseCategory(input.category.value).Some?
      && Truthy(input.image)
      && 0.0 <= input.rating.GetOr(DEFAULT_RATING) <= 5.0
    ensures r.Some? ==>
      && r.value.name == Trim(input.name.value)
      && input.description == Some(r.value.description)
      && input.price == Some(r.value.price)
      && input.category == Some(CategoryName(r.value.category))
      && input.image == Some(r.value.image)
      && r.value.rating == input.rating.GetOr(DEFAULT_RATING)
      && r.value.numReviews == input.numReviews.GetOr(DEFAULT_NUM_REVIEWS)
  {
    if && input.name.Some? && Trim(input.name.value) != ""
       && Truthy(input.description)
       && input.price.Some? && input.price.value >= 0.0
       && input.category.Some? && ParseCategory(input.category.value).Some?
       && Truthy(input.image)
       && 0.0 <= input.rating.GetOr(DEFAULT_RATING) <= 5.0
    then
      TrimIdempotent(input.name.value);
      Some(Product(
        id, Trim(input.name.value), input.description.value, input.price.value,
        ParseCategory(input.category.value).value, input.image.value,
        input.rating.GetOr(DEFAULT_RATING), input.numReviews.GetOr(DEFAULT_NUM_REVIEWS),
        input.inStock.GetOr(DEFAULT_IN_STOCK), input.featured.GetOr(DEFAULT_FEATURED), now))
    else None
  }

  /** The identifier of a stored product. */
  function ProductId(x: Product): Id {
    x.id
  }

  datatype ProductError = NotAdmin | InvalidProduct

  /** POST /api/products: only an admin session may create, then the schema
      decides. A session without a user makes the role test throw (500). */
  function Create(session: Option<Session>, products: seq<Product>, input: ProductInput, now: Time)
    : (h: Handled<Product, ProductError, seq<Product>>)
    ensures h.reply.Err? ==> h.store == products
    ensures h.reply.Ok? ==> h.reply.code == CREATED && h.store == products + [h.reply.body]
    ensures h.reply.Ok? ==> Valid(h.reply.body)
    ensures h.reply.Ok? ==> IsAdminSession(session)
    ensures !IsAdminSession(session) && !(session.Some? && session.value.user.None?) ==>
      h.reply == Err(UNAUTHORIZED, NotAdmin)
    ensures h.reply.Ok? ==> Some(h.reply.body) == Build(input, FreshId(products, ProductId), now)
    ensures IsAdminSession(session) ==>
      (h.reply.Ok? <==> Build(input, FreshId(products, ProductId), now).Some?)
    ensures IsAdminSession(session) && h.reply.Err? ==> h.reply == Err(SERVER_ERROR, InvalidProduct)
  {
    if session.None? then Handled(Err(UNAUTHORIZED, NotAdmin), products)
    else if session.value.user.None? then Handled(Err(SERVER_ERROR, InvalidProduct), products)
    else if session.value.user.value.role != Some("admin") then Handled(Err(UNAUTHORIZED, NotAdmin), products)
    else
      match Build(input, FreshId(products, ProductId), now)
      case None => Handled(Err(SERVER_ERROR, InvalidProduct), products)
      case Some(p) => Handled(Ok(CREATED, p), products + [p])
  }

  /** The query string of GET /api/products. A parameter is present when it
      is a non-empty string; the numeric ones carry `parseFloat` of it. */
  datatype ProductQuery = ProductQuery(
    category: Option<string>,
    featured: Option<string>,
    minPrice: Option<real>,
    maxPrice: Option<real>,
    minRating: Option<real>)

  /** The filter document the route builds, as a predicate on products. */
  predicate Matches(q: ProductQuery, p: Product) {
    && (Truthy(q.category) ==> CategoryName(p.category) == q.category.value)
    && (q.featured == Some("true") ==> p.featured)
    && (q.minPrice.Some? ==> p.price >= q.minPrice.value)
    && (q.maxPrice.Some? ==> p.price <= q.maxPrice.value)
    && (q.minRating.Some? ==> p.rating >= q.minRating.value)
  }

  /** GET /api/products: the matching products, newest first, all of them. */
  function List(products: seq<Product>, q: ProductQuery): (r: seq<Product>)
    ensures forall p :: p in r <==> p in products && Matches(q, p)
    ensures |r| <= |products|
  {
    Listing.NewestFirst(products, p => Matches(q, p))
  }

  /** With no parameters every product is listed, newest first. */
  lemma NoFilterListsEverything(products: seq<Product>)
    ensures List(products, ProductQuery(None, None, None, None, None)) == Listing.Reverse(products)
  {
    var q := ProductQuery(None, None, None, None, None);
    Listing.FilterAll(products, p => Matches(q, p));
  }

  /** Only the exact string "true" filters on `featured`; "false" (or any
      other value) keeps non-featured products. */
  lemma FeaturedFilterOnlyForTrue(q: ProductQuery, p: Product)
    requires q.featured != Some("true")
    ensures Matches(q, p) == Matches(q.(featured := None), p)
  {
  }

  /** The two price bounds combine into one inclusive range. */
  lemma PriceRangeIsInclusive(q: ProductQuery, p: Product)
    requires q.minPrice.Some? && q.maxPrice.Some?
    requires Matches(q.(minPrice := None, maxPrice := None), p)
    ensures Matches(q, p) <==> q.minPrice.value <= p.price <= q.maxPrice.value
  {
  }

  /** A product created through the route is listed by a query it matches. */
  lemma CreatedProductIsListed(session: Option<Session>, products: seq<Product>, input: ProductInput,
                               now: Time, q: ProductQuery)
    requires Create(session, products, input, now).reply.Ok?
    requires Matches(q, Create(session, products, input, now).reply.body)
    ensures Create(session, products, input, now).reply.body in List(Create(session, products, input, now).store, q)
  {
  }
}
