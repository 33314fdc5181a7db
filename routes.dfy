/**
 * The decision rules of the HTTP routes, over the database store the server
 * uses: which query the product list runs, when a route answers 404, how a
 * review request's product id is chosen, the image list a new product gets,
 * and the analytics rollup. Request parsing and the transport are not part
 * of this model; a reply is its status and body.
 */
module Routes {
  import opened Wrappers
  import opened Schema
  import opened Seqs
  import opened Text
  import opened Tables
  import Currency
  import DatabaseStorage

  /** A route's reply: 200 with a body, 201 with a body, or 404 with a message. */
  datatype Reply<T> = Ok(body: T) | Created(body: T) | NotFound(message: string)
  {
    function Status(): int
    {
      match this
      case Ok(_) => 200
      case Created(_) => 201
      case NotFound(_) => 404
    }
  }

  /** `if (search)`: a search parameter that is present and not empty. */
  predicate SearchGiven(search: Option<string>)
  {
    search.Some? && search.value != ""
  }

  /** `GET /api/products`: a search when one is given, the category listing otherwise. */
  function ProductList(rows: seq<Product>, category: Option<string>, search: Option<string>): seq<Product>
  {
    if SearchGiven(search) then DbSearch(rows, search.value) else DbProducts(rows, category)
  }

  /** With a search the category is ignored; without one the listing honours it. */
  lemma ProductListDispatch(rows: seq<Product>, category: Option<string>, other: Option<string>, search: Option<string>)
    ensures SearchGiven(search) ==>
      ProductList(rows, category, search) == ProductList(rows, other, search) == DbSearch(rows, search.value)
    ensures !SearchGiven(search) ==> ProductList(rows, category, search) == DbProducts(rows, category)
    ensures ProductList(rows, category, Some("")) == DbProducts(rows, category)
  {
  }

  /** The 404 mapping of a lookup or update: a missing record is "not found". */
  function Found<T>(r: Option<T>, message: string): (reply: Reply<T>)
    ensures reply.Status() == 404 <==> r.None?
    ensures r.Some? ==> reply == Ok(r.value)
    ensures r.None? ==> reply == NotFound(message)
  {
    match r
    case None => NotFound(message)
    case Some(v) => Ok(v)
  }

  /** `GET /api/products/:id`: the product, or 404 exactly when no row has that id. */
  function GetProduct(rows: seq<Product>, id: Id): (reply: Reply<Product>)
    ensures reply.Status() == 404 <==> forall i :: 0 <= i < |rows| ==> rows[i].id != id
    ensures reply.Ok? ==> reply.body in rows && reply.body.id == id
  {
    Found(match ProductIndex(rows, id) case None => None case Some(k) => Some(rows[k]), "Product not found")
  }

  /** `PUT /api/products/:id`: the updated product, or 404 exactly when the id is unknown. */
  method UpdateProduct(store: DatabaseStorage.Store, id: Id, patch: ProductPatch, now: Time)
    returns (reply: Reply<Product>)
    requires store.Valid()
    modifies store
    ensures store.Valid()
    ensures reply.Status() == 404 <==> old(ProductIndex(store.products, id)).None?
    ensures reply.Ok? ==>
      var k := old(ProductIndex(store.products, id)).value;
      reply.body == PatchProduct(old(store.products)[k], patch, now) && store.products == old(store.products)[k := reply.body]
    ensures reply.NotFound? ==> store.products == old(store.products)
    ensures store.orders == old(store.orders) && store.customers == old(store.customers) && store.logs == old(store.logs)
    ensures store.carts == old(store.carts) && store.cartItems == old(store.cartItems) && store.nextId == old(store.nextId)
  {
    var r := store.UpdateProduct(id, patch, now);
    reply := Found(r, "Product not found");
  }

  /** `DELETE /api/products/:id`: a confirmation, or 404 exactly when the id is unknown. */
  method DeleteProduct(store: DatabaseStorage.Store, id: Id) returns (reply: Reply<string>)
    requires store.Valid()
    modifies store
    ensures store.Valid()
    ensures reply.Status() == 404 <==> old(ProductIndex(store.products, id)).None?
    ensures reply.Ok? ==> reply.body == "Product deleted successfully"
    ensures reply.Ok? ==> store.products == RemoveAt(old(store.products), old(ProductIndex(store.products, id)).value)
    ensures reply.NotFound? ==> store.products == old(store.products)
    ensures forall i :: 0 <= i < |store.products| ==> store.products[i].id != id
    ensures store.orders == old(store.orders) && store.customers == old(store.customers) && store.logs == old(store.logs)
    ensures store.carts == old(store.carts) && store.cartItems == old(store.cartItems) && store.nextId == old(store.nextId)
  {
    var deleted := store.DeleteProduct(id);
    reply := if deleted then Ok("Product deleted successfully") else NotFound("Product not found");
  }

  /** `PUT /api/orders/:id/status`: the updated order, or 404 exactly when the id is unknown. */
  method UpdateOrderStatus(store: DatabaseStorage.Store, id: Id, status: string, now: Time)
    returns (reply: Reply<Order>)
    requires store.Valid()
    modifies store
    ensures store.Valid()
    ensures reply.Status() == 404 <==> old(OrderIndex(store.orders, id)).None?
    ensures reply.Ok? ==>
      var k := old(OrderIndex(store.orders, id)).value;
      reply.body == old(store.orders)[k].(status := status, updatedAt := Some(now))
      && store.orders == old(store.orders)[k := reply.body]
    ensures reply.Ok? ==> reply.body.status == status && reply.body.id == id
    ensures reply.NotFound? ==> store.orders == old(store.orders)
    ensures store.products == old(store.products) && store.customers == old(store.customers) && store.logs == old(store.logs)
    ensures store.carts == old(store.carts) && store.cartItems == old(store.cartItems) && store.nextId == old(store.nextId)
  {
    var r := store.UpdateOrderStatus(id, status, now);
    reply := Found(r, "Order not found");
  }

  /** A review request body; it may carry a product id of its own. */
  datatype ReviewBody = ReviewBody(
    productId: Option<Id>, userName: string, rating: int, comment: string, isVerified: Option<bool>)

  /** `{...req.body, productId: req.params.id}`: the path's id always wins. */
  function ReviewFromRequest(body: ReviewBody, pathId: Id): (r: NewReview)
    ensures r.productId == pathId
    ensures r.userName == body.userName && r.rating == body.rating
    ensures r.comment == body.comment && r.isVerified == body.isVerified
  {
    NewReview(pathId, body.userName, body.rating, body.comment, body.isVerified)
  }

  /** Two bodies that differ only in their product id produce the same review. */
  lemma ReviewIgnoresBodyProductId(a: ReviewBody, b: ReviewBody, pathId: Id)
    requires a.(productId := None) == b.(productId := None)
    ensures ReviewFromRequest(a, pathId) == ReviewFromRequest(b, pathId)
  {
  }

  /** The image stored for a product created without uploads. */
  const DefaultImage := "https://images.unsplash.com/photo-1558618666-fcd25c85cd64?w=400&h=300"

  /** `/uploads/${Date.now()}-${index}-${file.originalname}`. */
  function UploadPath(stamp: Time, index: nat, name: string): string
  {
    "/uploads/" + IntToString(stamp) + "-" + NatToString(index) + "-" + name
  }

  /**
   * The `forEach` that builds the image list: one path per uploaded file, in
   * upload order; `stamps[i]` is the clock reading taken for file i.
   */
  method ImageUrls(files: seq<string>, stamps: seq<Time>) returns (urls: seq<string>)
    requires |stamps| == |files|
    ensures |urls| == |files|
    ensures forall i :: 0 <= i < |files| ==> urls[i] == UploadPath(stamps[i], i, files[i])
  {
    urls := [];
    for i := 0 to |files|
      invariant |urls| == i
      invariant forall j :: 0 <= j < i ==> urls[j] == UploadPath(stamps[j], j, files[j])
    {
      urls := urls + [UploadPath(stamps[i], i, files[i])];
    }
  }

  /** `imageUrls.length > 0 ? imageUrls : [default]`. */
  function ImagesOrDefault(urls: seq<string>): (images: seq<string>)
    ensures urls != [] ==> images == urls
    ensures urls == [] ==> images == [DefaultImage]
    ensures |images| >= 1
  {
    if |urls| > 0 then urls else [DefaultImage]
  }

  /** `POST /api/products`: the product is stored with the uploaded images, or with the default one. */
  method CreateProduct(store: DatabaseStorage.Store, body: NewProduct, files: seq<string>, stamps: seq<Time>,
                       draw: real, now: Time) returns (reply: Reply<Product>)
    requires store.Valid() && |stamps| == |files| && 0.0 <= draw < 1.0
    modifies store
    ensures store.Valid()
    ensures reply.Created? && reply.Status() == 201
    ensures files == [] ==> reply.body.images == [DefaultImage]
    ensures |files| > 0 ==> |reply.body.images| == |files|
    ensures |files| > 0 ==> forall i :: 0 <= i < |files| ==> reply.body.images[i] == UploadPath(stamps[i], i, files[i])
    ensures reply.body == ProductFromInsert(old(store.nextId), body.(images := Some(reply.body.images)),
                                            DatabaseStorage.DbBarcode(draw), now)
    ensures store.products == old(store.products) + [reply.body] && store.nextId == old(store.nextId) + 1
    ensures store.orders == old(store.orders) && store.customers == old(store.customers) && store.logs == old(store.logs)
    ensures store.carts == old(store.carts) && store.cartItems == old(store.cartItems)
  {
    var urls := ImageUrls(files, stamps);
    var p := store.CreateProduct(body.(images := Some(ImagesOrDefault(urls))), draw, now);
    reply := Created(p);
  }

  // ------------------------------------------------------------ analytics

  /** An order's day: its timestamp divided by the milliseconds of one day. */
  function DayOf(t: Time): int
  {
    t / DayMillis
  }

  /** `o.createdAt ? new Date(o.createdAt) : new Date()` compared by date: undated orders count as today. */
  function PlacedOn(now: Time): Order -> bool
  {
    (o: Order) => o.createdAt.None? || DayOf(o.createdAt.value) == DayOf(now)
  }

  function StrictlyLow(p: Product): bool
  {
    p.stock < 10
  }

  function Amount(o: Order): int
  {
    o.totalAmount
  }

  datatype Stats = Stats(totalProducts: nat, lowStockProducts: nat, todayOrders: nat, totalRevenue: string)

  /**
   * `GET /api/analytics/stats`: over the listed (active) products and all
   * orders, the product count, the count with stock strictly below 10, the
   * orders placed today, and the revenue with two decimals.
   */
  function AnalyticsStats(rows: seq<Product>, orders: seq<Order>, now: Time): (s: Stats)
    ensures s.lowStockProducts <= s.totalProducts
    ensures s.todayOrders <= |orders|
    ensures s.totalProducts <= |rows|
  {
    var listed := DbProducts(rows, None);
    Stats(|listed|, |Filter(listed, StrictlyLow)|, |Filter(orders, PlacedOn(now))|,
          Revenue(orders))
  }

  /** `totalRevenue.toFixed(2)` over the order totals. */
  function Revenue(orders: seq<Order>): string
  {
    Currency.FormatFixed2(Sum(orders, Amount))
  }

  /** An active product with stock strictly below 10. */
  function ActiveBelowTen(p: Product): bool
  {
    p.isActive && p.stock < 10
  }

  /**
   * Counted over the whole table, `totalProducts` is the number of active
   * products and `lowStockProducts` the number of active products with stock
   * strictly below 10.
   */
  lemma StatsCountActiveProducts(rows: seq<Product>, orders: seq<Order>, now: Time)
    ensures AnalyticsStats(rows, orders, now).totalProducts == |Filter(rows, ListedIn(None))|
    ensures AnalyticsStats(rows, orders, now).lowStockProducts == |Filter(rows, ActiveBelowTen)|
    ensures AnalyticsStats(rows, orders, now).todayOrders == |Filter(orders, PlacedOn(now))|
  {
    var active := Filter(rows, ListedIn(None));
    FilterReverseCount(active, StrictlyLow);
    FilterBoth(rows, ListedIn(None), StrictlyLow, ActiveBelowTen);
  }

  /** The revenue text reads back as the sum of the order totals. */
  lemma RevenueReadsBack(rows: seq<Product>, orders: seq<Order>, now: Time, total: int)
    requires total == Sum(orders, Amount)
    ensures ParseFloatPrefix(AnalyticsStats(rows, orders, now).totalRevenue) == Some(total as real / 100.0)
  {
    Currency.FormatFixed2Parses(total);
  }

  /**
   * An order is among those `todayOrders` counts exactly when it is undated or
   * was created on the same (UTC) day as `now`.
   */
  lemma PlacedTodayIff(orders: seq<Order>, now: Time, o: Order)
    ensures o in Filter(orders, PlacedOn(now)) <==>
      o in orders && (o.createdAt.None? || o.createdAt.value / DayMillis == now / DayMillis)
  {
    FilterSelects(orders, PlacedOn(now));
  }

  /** An order without a creation date is counted among today's orders, whatever the day. */
  lemma UndatedOrderCountsToday(orders: seq<Order>, i: nat, now: Time)
    requires i < |orders| && orders[i].createdAt.None?
    ensures orders[i] in Filter(orders, PlacedOn(now))
  {
    FilterMembership(orders, PlacedOn(now));
  }

  /**
   * The stats count a stock of exactly 10 as healthy, while the store's
   * low-stock query (inclusive, threshold 10) reports it.
   */
  lemma LowStockThresholdsDiffer(p: Product, now: Time)
    requires p.isActive && p.stock == 10
    ensures AnalyticsStats([p], [], now).lowStockProducts == 0
    ensures LowStock([p], None) == [p]
  {
    var listed := DbProducts([p], None);
    assert Filter([p], ListedIn(None)) == [p];
    assert listed == [p];
    assert Filter(listed, StrictlyLow) == [];
    var low := LowStock([p], None);
    assert p in low;
    assert |low| == 1 by {
      assert multiset(low) == multiset(Filter([p], AtMost(10)));
      assert Filter([p], AtMost(10)) == [p];
    }
  }
}
