/**
 * The read queries of the storefront's store, as functions of the table
 * contents: lookups by key, the product listings and searches, the low-stock
 * query, the inventory-log listing, the cart view with its total, and the
 * ownership check that guards cart-item changes.
 *
 * Rows are kept in insertion order. `orderBy(desc(createdAt))` is the
 * reverse of that order (timestamps are taken from a clock that does not run
 * backwards), and a Map's `values()` is that order itself.
 */
module Tables {
  import opened Wrappers
  import opened Schema
  import opened Seqs
  import opened Text

  // ------------------------------------------------------------------- keys

  function ProductKey(p: Product): Id { p.id }
  function OrderKey(o: Order): Id { o.id }
  function CustomerKey(c: Customer): Id { c.id }
  function CustomerEmail(c: Customer): string { c.email }
  function LogKey(l: InventoryLog): Id { l.id }
  function CartKey(c: Cart): Id { c.id }
  function CartUser(c: Cart): Id { c.userId }
  function ItemKey(it: CartItem): Id { it.id }
  function ItemSlot(it: CartItem): (Id, Id) { (it.cartId, it.productId) }

  // ---------------------------------------------------------------- lookups

  /** The row of product `id` (`where(eq(products.id, id))`, first row). */
  function ProductIndex(rows: seq<Product>, id: Id): (r: Option<nat>)
    ensures r.Some? ==> r.value < |rows| && rows[r.value].id == id
    ensures r.None? <==> forall i :: 0 <= i < |rows| ==> rows[i].id != id
  {
    FirstIndex(rows, (p: Product) => p.id == id)
  }

  function OrderIndex(rows: seq<Order>, id: Id): (r: Option<nat>)
    ensures r.Some? ==> r.value < |rows| && rows[r.value].id == id
    ensures r.None? <==> forall i :: 0 <= i < |rows| ==> rows[i].id != id
  {
    FirstIndex(rows, (o: Order) => o.id == id)
  }

  function CustomerIndexByEmail(rows: seq<Customer>, email: string): (r: Option<nat>)
    ensures r.Some? ==> r.value < |rows| && rows[r.value].email == email
    ensures r.None? <==> forall i :: 0 <= i < |rows| ==> rows[i].email != email
  {
    FirstIndex(rows, (c: Customer) => c.email == email)
  }

  /** The cart of a user (`where(eq(carts.userId, userId))`, first row). */
  function CartIndexOf(carts: seq<Cart>, userId: Id): (r: Option<nat>)
    ensures r.Some? ==> r.value < |carts| && carts[r.value].userId == userId
    ensures r.None? <==> forall i :: 0 <= i < |carts| ==> carts[i].userId != userId
  {
    FirstIndex(carts, (c: Cart) => c.userId == userId)
  }

  /** The line of product `productId` in cart `cartId`, if there is one. */
  function ItemIndexFor(items: seq<CartItem>, cartId: Id, productId: Id): (r: Option<nat>)
    ensures r.Some? ==> r.value < |items| && items[r.value].cartId == cartId
                        && items[r.value].productId == productId
    ensures r.None? <==>
      forall i :: 0 <= i < |items| ==> !(items[i].cartId == cartId && items[i].productId == productId)
  {
    FirstIndex(items, (it: CartItem) => it.cartId == cartId && it.productId == productId)
  }

  // --------------------------------------------------------------- listings

  /** `if (categoryId)`: an absent or empty category means no category filter. */
  function CategoryFilter(category: Option<string>): Option<string>
  {
    if category.Some? && category.value != "" then category else None
  }

  /** A product the listing shows: active, and in the category when one is given. */
  function ListedIn(category: Option<string>): Product -> bool
  {
    (p: Product) => p.isActive && (CategoryFilter(category).None? || p.categoryId == CategoryFilter(category).value)
  }

  /** `DatabaseStorage.getProducts`: the listed products, newest first. */
  function DbProducts(rows: seq<Product>, category: Option<string>): (r: seq<Product>)
    ensures Selects(r, rows, ListedIn(category))
    ensures IsSubsequence(Reverse(r), rows)
    ensures |r| <= |rows|
  {
    FilterSelects(rows, ListedIn(category));
    FilterIsSubsequence(rows, ListedIn(category));
    ReverseReverse(Filter(rows, ListedIn(category)));
    ReverseSelects(Filter(rows, ListedIn(category)), rows, ListedIn(category));
    Reverse(Filter(rows, ListedIn(category)))
  }

  /** `MemStorage.getProducts`: the listed products, in insertion order. */
  function MemProducts(rows: seq<Product>, category: Option<string>): (r: seq<Product>)
    ensures Selects(r, rows, ListedIn(category))
    ensures IsSubsequence(r, rows)
  {
    FilterSelects(rows, ListedIn(category));
    FilterIsSubsequence(rows, ListedIn(category));
    Filter(rows, ListedIn(category))
  }

  /** Both stores list the same products, the database newest first and the Map oldest first. */
  lemma ListingsAgree(rows: seq<Product>, category: Option<string>, p: Product)
    ensures p in DbProducts(rows, category) <==> p in MemProducts(rows, category)
    ensures DbProducts(rows, category) == Reverse(MemProducts(rows, category))
  {
  }

  /** `ilike(name, '%q%')`: the name contains the query, ignoring case. */
  function NameMatches(query: string): Product -> bool
  {
    (p: Product) => p.isActive && ContainsIgnoreCase(p.name, query)
  }

  /** The in-memory search: the name or the description contains the query. */
  function NameOrDescriptionMatches(query: string): Product -> bool
  {
    (p: Product) => p.isActive && (ContainsIgnoreCase(p.name, query) || ContainsIgnoreCase(p.description, query))
  }

  /** `DatabaseStorage.searchProducts`: active products whose name matches, newest first. */
  function DbSearch(rows: seq<Product>, query: string): (r: seq<Product>)
    ensures Selects(r, rows, NameMatches(query))
    ensures IsSubsequence(Reverse(r), rows)
  {
    FilterSelects(rows, NameMatches(query));
    FilterIsSubsequence(rows, NameMatches(query));
    ReverseReverse(Filter(rows, NameMatches(query)));
    ReverseSelects(Filter(rows, NameMatches(query)), rows, NameMatches(query));
    Reverse(Filter(rows, NameMatches(query)))
  }

  /** `MemStorage.searchProducts`: active products whose name or description matches. */
  function MemSearch(rows: seq<Product>, query: string): (r: seq<Product>)
    ensures Selects(r, rows, NameOrDescriptionMatches(query))
    ensures IsSubsequence(r, rows)
  {
    FilterSelects(rows, NameOrDescriptionMatches(query));
    FilterIsSubsequence(rows, NameOrDescriptionMatches(query));
    Filter(rows, NameOrDescriptionMatches(query))
  }

  /** Whatever the database search finds, the in-memory search finds too. */
  lemma DbSearchWithinMemSearch(rows: seq<Product>, query: string)
    ensures forall p :: p in DbSearch(rows, query) ==> p in MemSearch(rows, query)
  {
  }

  /** A product whose description alone matches is found only by the in-memory search. */
  lemma SearchesDiverge(rows: seq<Product>, p: Product, query: string)
    requires p in rows && p.isActive
    requires !ContainsIgnoreCase(p.name, query) && ContainsIgnoreCase(p.description, query)
    ensures p in MemSearch(rows, query) && p !in DbSearch(rows, query)
  {
  }

  // -------------------------------------------------------------- low stock

  function AtMost(threshold: int): Product -> bool
  {
    (p: Product) => p.isActive && p.stock <= threshold
  }

  function Stock(p: Product): int
  {
    p.stock
  }

  /**
   * `getLowStockProducts(threshold = 10)`: the active products with stock at
   * most the threshold (inclusive), in ascending order of stock.
   */
  function LowStock(rows: seq<Product>, threshold: Option<int>): (r: seq<Product>)
    ensures Selects(r, rows, AtMost(threshold.GetOr(10)))
    ensures multiset(r) == multiset(Filter(rows, AtMost(threshold.GetOr(10))))
    ensures SortedBy(r, Stock)
  {
    var t := threshold.GetOr(10);
    FilterSelects(rows, AtMost(t));
    var r := SortBy(Filter(rows, AtMost(t)), Stock);
    assert forall x :: x in r <==> x in Filter(rows, AtMost(t)) by {
      forall x ensures x in r <==> x in Filter(rows, AtMost(t)) {
        assert x in r <==> x in multiset(r);
      }
    }
    r
  }

  /** The default threshold includes a stock of exactly 10. */
  lemma LowStockIncludesTen(rows: seq<Product>, p: Product)
    requires p in rows && p.isActive && p.stock == 10
    ensures p in LowStock(rows, None)
  {
  }

  // ---------------------------------------------------------- inventory log

  function LogOf(productId: Id): InventoryLog -> bool
  {
    (l: InventoryLog) => l.productId == productId
  }

  /**
   * `getInventoryLogs(productId?)`: with a product, all of its entries; without
   * one, the 100 newest entries. Either way newest first.
   */
  function InventoryLogs(logs: seq<InventoryLog>, productId: Option<Id>): (r: seq<InventoryLog>)
    ensures productId.Some? ==> Selects(r, logs, LogOf(productId.value))
    ensures productId.Some? ==> IsSubsequence(Reverse(r), logs)
    ensures productId.None? ==> |r| == (if |logs| < 100 then |logs| else 100)
    ensures productId.None? ==> forall i :: 0 <= i < |r| ==> r[i] == logs[|logs| - 1 - i]
  {
    match productId
    case Some(id) =>
      FilterSelects(logs, LogOf(id));
      FilterIsSubsequence(logs, LogOf(id));
      ReverseReverse(Filter(logs, LogOf(id)));
      ReverseSelects(Filter(logs, LogOf(id)), logs, LogOf(id));
      Reverse(Filter(logs, LogOf(id)))
    case None => Take(Reverse(logs), 100)
  }

  // -------------------------------------------------------------- cart view

  /** A row of the cart view: the item joined with its product. */
  datatype CartLine = CartLine(
    id: Id,
    cartId: Id,
    productId: Id,
    quantity: int,
    priceAtTime: Cents,
    productName: string,
    productImage: Option<string>,
    currentPrice: Cents,
    stock: int)

  /** `images->0`: the first image, or null for an empty list. */
  function FirstImage(images: seq<string>): Option<string>
  {
    if images == [] then None else Some(images[0])
  }

  /** The join of one item with its product, when the product exists. */
  function JoinLine(item: CartItem, products: seq<Product>): (r: Option<CartLine>)
    ensures r.Some? <==> ProductIndex(products, item.productId).Some?
    ensures r.Some? ==> (r.value.id == item.id && r.value.cartId == item.cartId
      && r.value.productId == item.productId && r.value.quantity == item.quantity
      && r.value.priceAtTime == item.priceAtTime)
    ensures r.Some? ==>
      var p := products[ProductIndex(products, item.productId).value];
      r.value.productName == p.name && r.value.productImage == FirstImage(p.images)
      && r.value.currentPrice == p.price && r.value.stock == p.stock
  {
    match ProductIndex(products, item.productId)
    case None => None
    case Some(k) =>
      var p := products[k];
      Some(CartLine(item.id, item.cartId, item.productId, item.quantity, item.priceAtTime,
                    p.name, FirstImage(p.images), p.price, p.stock))
  }

  /** `cartItems innerJoin products where cartId`: lines of the cart whose product exists. */
  function CartLines(items: seq<CartItem>, products: seq<Product>, cartId: Id): (r: seq<CartLine>)
    ensures |r| <= |items|
    ensures forall i :: 0 <= i < |r| ==>
      r[i].cartId == cartId && ProductIndex(products, r[i].productId).Some?
  {
    if items == [] then [] else LineOf(items[0], products, cartId) + CartLines(items[1..], products, cartId)
  }

  /** The view row one item contributes: none when it is in another cart or its product is gone. */
  function LineOf(item: CartItem, products: seq<Product>, cartId: Id): (r: seq<CartLine>)
    ensures |r| <= 1
    ensures r != [] ==> r[0].cartId == cartId && ProductIndex(products, r[0].productId).Some?
  {
    var line := JoinLine(item, products);
    if item.cartId == cartId && line.Some? then [line.value] else []
  }

  lemma {:induction false} CartLinesAppend(a: seq<CartItem>, b: seq<CartItem>, products: seq<Product>, cartId: Id)
    ensures CartLines(a + b, products, cartId) == CartLines(a, products, cartId) + CartLines(b, products, cartId)
  {
    if a == [] {
      assert a + b == b;
    } else {
      var head := LineOf(a[0], products, cartId);
      assert (a + b)[0] == a[0];
      assert (a + b)[1..] == a[1..] + b;
      CartLinesAppend(a[1..], b, products, cartId);
      assert CartLines(a + b, products, cartId) == head + CartLines(a[1..] + b, products, cartId);
    }
  }

  function LineAmount(l: CartLine): int
  {
    l.priceAtTime * l.quantity
  }

  /** `items.reduce((sum, item) => sum + priceAtTime * quantity, 0)`, in cents. */
  function CartTotal(lines: seq<CartLine>): Cents
  {
    Sum(lines, LineAmount)
  }

  /** What one stored item contributes to its cart's total: nothing once its product is gone. */
  function ItemAmount(products: seq<Product>, cartId: Id): CartItem -> int
  {
    (it: CartItem) =>
      if it.cartId == cartId && ProductIndex(products, it.productId).Some?
      then it.priceAtTime * it.quantity else 0
  }

  /** The total of the view is Σ priceAtTime × quantity over the cart's items whose product exists. */
  lemma {:induction false} CartTotalOfItems(items: seq<CartItem>, products: seq<Product>, cartId: Id)
    ensures CartTotal(CartLines(items, products, cartId)) == Sum(items, ItemAmount(products, cartId))
  {
    if items != [] {
      CartTotalOfItems(items[1..], products, cartId);
      SumAppend(LineOf(items[0], products, cartId), CartLines(items[1..], products, cartId), LineAmount);
    }
  }

  /** An item whose product has been deleted is not in the view. */
  lemma DeletedProductDropsOut(items: seq<CartItem>, products: seq<Product>, cartId: Id, productId: Id)
    requires forall i :: 0 <= i < |products| ==> products[i].id != productId
    ensures forall i :: 0 <= i < |CartLines(items, products, cartId)| ==>
      CartLines(items, products, cartId)[i].productId != productId
  {
  }

  /** Each item of the cart whose product exists appears in the view. */
  lemma {:induction false} LiveItemsShown(items: seq<CartItem>, products: seq<Product>, cartId: Id, i: nat)
    requires i < |items| && items[i].cartId == cartId
    requires ProductIndex(products, items[i].productId).Some?
    ensures JoinLine(items[i], products).value in CartLines(items, products, cartId)
  {
    if i > 0 {
      LiveItemsShown(items[1..], products, cartId, i - 1);
    }
  }

  // -------------------------------------------------------------- ownership

  /** The row of cart `cartId` when it belongs to user `userId` (the join with carts). */
  function CartOwnedBy(carts: seq<Cart>, cartId: Id, userId: Id): (r: Option<nat>)
    ensures r.Some? ==> r.value < |carts| && carts[r.value].id == cartId && carts[r.value].userId == userId
    ensures r.None? <==> forall j :: 0 <= j < |carts| && carts[j].id == cartId ==> carts[j].userId != userId
  {
    FirstIndex(carts, (c: Cart) => c.id == cartId && c.userId == userId)
  }

  function OwnedBy(carts: seq<Cart>, itemId: Id, userId: Id): CartItem -> bool
  {
    (it: CartItem) => it.id == itemId && CartOwnedBy(carts, it.cartId, userId).Some?
  }

  /**
   * The item `itemId` when it lies in a cart of user `userId`:
   * `cartItems innerJoin carts where id = itemId and userId = userId`.
   */
  function OwnedItemIndex(items: seq<CartItem>, carts: seq<Cart>, itemId: Id, userId: Id): (r: Option<nat>)
    ensures r.Some? ==> (r.value < |items| && items[r.value].id == itemId
      && CartOwnedBy(carts, items[r.value].cartId, userId).Some?)
    ensures r.None? <==> (forall i, j :: (0 <= i < |items| && 0 <= j < |carts| && items[i].id == itemId
      && carts[j].id == items[i].cartId) ==> carts[j].userId != userId)
  {
    var r := FirstIndex(items, OwnedBy(carts, itemId, userId));
    assert r.None? ==> forall i :: 0 <= i < |items| && items[i].id == itemId ==>
      CartOwnedBy(carts, items[i].cartId, userId).None?;
    assert (forall i :: 0 <= i < |items| && items[i].id == itemId ==>
      CartOwnedBy(carts, items[i].cartId, userId).None?) ==> r.None?;
    r
  }

  /** With one cart per user, an item passes the check exactly when it is in that user's cart. */
  lemma OwnedIffInUsersCart(items: seq<CartItem>, carts: seq<Cart>, itemId: Id, userId: Id, k: nat)
    requires k < |carts| && carts[k].userId == userId
    requires UniqueKeys(carts, (c: Cart) => c.id) && UniqueKeys(carts, (c: Cart) => c.userId)
    requires UniqueKeys(items, (it: CartItem) => it.id)
    ensures OwnedItemIndex(items, carts, itemId, userId).Some? <==>
      exists i :: 0 <= i < |items| && items[i].id == itemId && items[i].cartId == carts[k].id
  {
    if OwnedItemIndex(items, carts, itemId, userId).Some? {
      var i := OwnedItemIndex(items, carts, itemId, userId).value;
      var j := CartOwnedBy(carts, items[i].cartId, userId).value;
      assert j == k;
    }
  }
}
