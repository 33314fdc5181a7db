/**
 * The database-backed store. Each table is a sequence of rows held by the
 * store; an insert appends a row with a fresh id, an update replaces rows in
 * place and a delete removes them. The cart operations live here because
 * they work on the database's cart and cart-item tables.
 *
 * Ids come from one counter: every id in every table is below `nextId`, so a
 * newly drawn id is fresh. Timestamps are passed in as `now`; the random
 * draw behind a product's barcode is passed in as `draw`.
 */
module DatabaseStorage {
  import opened Wrappers
  import opened Schema
  import opened Seqs
  import opened Tables
  import Barcode

  function Abs(n: int): nat
  {
    if n < 0 then -n else n
  }

  /** The action tag of a stock change: its sign decides add, remove or adjustment. */
  function StockAction(delta: int): (a: Action)
    ensures a == Add <==> delta > 0
    ensures a == Remove <==> delta < 0
    ensures a == Adjustment <==> delta == 0
    ensures a != Sale
  {
    if delta > 0 then Add else if delta < 0 then Remove else Adjustment
  }

  /** `reason || `Stock ${action}``: an absent or empty reason falls back to the default. */
  function LogReason(reason: Option<string>, action: Action): (r: string)
    ensures reason.Some? && reason.value != "" ==> r == reason.value
    ensures reason.None? || reason.value == "" ==> r == "Stock " + ActionName(action)
  {
    if reason.Some? && reason.value != "" then reason.value else "Stock " + ActionName(action)
  }

  /** A log entry records a change from `previousStock` to `newStock` faithfully. */
  ghost predicate RecordsChange(l: InventoryLog)
  {
    l.quantity == Abs(l.newStock - l.previousStock) && l.action == StockAction(l.newStock - l.previousStock)
  }

  /** The entry `updateProductStock` writes for a change of product `productId`. */
  function StockLog(id: Id, productId: Id, previous: int, newStock: int, reason: Option<string>, now: Time)
    : (l: InventoryLog)
    ensures RecordsChange(l)
    ensures l.id == id && l.productId == productId && l.createdAt == now
    ensures l.previousStock == previous && l.newStock == newStock
    ensures l.quantity == Abs(newStock - previous)
    ensures l.reason == Some(LogReason(reason, l.action))
  {
    var action := StockAction(newStock - previous);
    InventoryLog(id, productId, action, Abs(newStock - previous), previous, newStock,
                 Some(LogReason(reason, action)), now)
  }

  /** The quantity logged together with the previous stock determines the new stock. */
  lemma LogDeterminesNewStock(l: InventoryLog)
    requires RecordsChange(l)
    ensures l.action == Add ==> l.newStock == l.previousStock + l.quantity
    ensures l.action == Remove ==> l.newStock == l.previousStock - l.quantity
    ensures l.action == Adjustment ==> l.newStock == l.previousStock && l.quantity == 0
  {
  }

  /**
   * The order row `createOrder` inserts: only the customer's name and email,
   * the total and the items are copied; status is forced to pending and the
   * other columns take their defaults.
   */
  function DbOrderFromInsert(id: Id, input: NewOrder, now: Time): (o: Order)
    ensures o.id == id && o.customerName == input.customerName && o.customerEmail == input.customerEmail
    ensures o.totalAmount == input.totalAmount && o.items == input.items
    ensures o.status == Pending && o.paymentStatus == Some(Pending)
    ensures o.customerPhone.None? && o.shippingAddress.None? && o.trackingNumber.None?
    ensures o.createdAt == Some(now) && o.updatedAt == Some(now)
  {
    Order(id, input.customerName, input.customerEmail, None, None, input.totalAmount,
          Pending, Some(Pending), None, input.items, Some(now), Some(now))
  }

  /** The supplied status, payment status, phone, address and tracking number make no difference. */
  lemma DbOrderIgnoresExtraFields(id: Id, a: NewOrder, b: NewOrder, now: Time)
    requires a.customerName == b.customerName && a.customerEmail == b.customerEmail
    requires a.totalAmount == b.totalAmount && a.items == b.items
    ensures DbOrderFromInsert(id, a, now) == DbOrderFromInsert(id, b, now)
  {
  }

  /** The pattern the database store's generator picks with a draw of `Math.random()`. */
  function DbBarcode(draw: real): (b: string)
    requires 0.0 <= draw < 1.0
    ensures b in Barcode.DatabasePatterns && Barcode.ValidateBarcode(b)
  {
    Barcode.PatternsValid();
    Barcode.DatabasePatterns[Barcode.PickIndex(draw, |Barcode.DatabasePatterns|)]
  }

  /** The result of `getCartByUserId`: the joined lines and their total. */
  datatype CartView = CartView(items: seq<CartLine>, total: Cents)

  function OutsideCart(cartId: Id): CartItem -> bool
  {
    (it: CartItem) => it.cartId != cartId
  }

  /**
   * `after` is `before` with `quantity` units of product `productId` added to
   * cart `cartId`: the existing line's quantity grows and keeps its price, or
   * a new line with a fresh id and the supplied price is appended.
   */
  ghost predicate Merged(before: seq<CartItem>, after: seq<CartItem>, item: CartItem,
                         cartId: Id, productId: Id, quantity: int, priceAtTime: Cents)
  {
    match ItemIndexFor(before, cartId, productId)
    case Some(k) =>
      item == before[k].(quantity := before[k].quantity + quantity) && after == before[k := item]
    case None =>
      && item == CartItem(item.id, cartId, productId, quantity, priceAtTime)
      && (forall i :: 0 <= i < |before| ==> before[i].id != item.id)
      && after == before + [item]
  }

  /** Adding to a cart raises its total by the line's price times the added quantity. */
  lemma MergedTotal(before: seq<CartItem>, after: seq<CartItem>, item: CartItem,
                    cartId: Id, productId: Id, quantity: int, priceAtTime: Cents, products: seq<Product>)
    requires Merged(before, after, item, cartId, productId, quantity, priceAtTime)
    ensures Sum(after, ItemAmount(products, cartId)) == Sum(before, ItemAmount(products, cartId))
      + (if ProductIndex(products, productId).Some? then item.priceAtTime * quantity else 0)
  {
    var f := ItemAmount(products, cartId);
    match ItemIndexFor(before, cartId, productId)
    case Some(k) =>
      SumUpdate(before, k, item, f);
      assert item.priceAtTime * (before[k].quantity + quantity)
        == item.priceAtTime * before[k].quantity + item.priceAtTime * quantity;
    case None =>
      SumAppend(before, [item], f);
  }

  /** After clearing, the user's cart view is empty. */
  lemma {:induction false} ClearedCartIsEmpty(items: seq<CartItem>, products: seq<Product>, cartId: Id)
    ensures CartLines(Filter(items, OutsideCart(cartId)), products, cartId) == []
  {
    if items != [] {
      ClearedCartIsEmpty(items[1..], products, cartId);
      var head := if OutsideCart(cartId)(items[0]) then [items[0]] else [];
      CartLinesAppend(head, Filter(items[1..], OutsideCart(cartId)), products, cartId);
    }
  }

  /** Clearing one cart leaves the view of every other cart as it was. */
  lemma {:induction false} ClearKeepsOtherCarts(items: seq<CartItem>, products: seq<Product>, cartId: Id, other: Id)
    requires other != cartId
    ensures CartLines(Filter(items, OutsideCart(cartId)), products, other) == CartLines(items, products, other)
  {
    if items != [] {
      ClearKeepsOtherCarts(items[1..], products, cartId, other);
      var head := if OutsideCart(cartId)(items[0]) then [items[0]] else [];
      CartLinesAppend(head, Filter(items[1..], OutsideCart(cartId)), products, other);
      CartLinesAppend([items[0]], items[1..], products, other);
      assert [items[0]] + items[1..] == items;
    }
  }

  class Store {
    var products: seq<Product>
    var orders: seq<Order>
    var customers: seq<Customer>
    var logs: seq<InventoryLog>
    var carts: seq<Cart>
    var cartItems: seq<CartItem>
    var nextId: nat

    /**
     * Ids are unique and below `nextId`; customer emails are unique; a user
     * has at most one cart and a cart at most one line per product; every
     * barcode comes from the pattern list; every log entry records its change.
     */
    ghost predicate Valid()
      reads this
    {
      && KeysBelow(products, ProductKey, nextId) && UniqueKeys(products, ProductKey)
      && KeysBelow(orders, OrderKey, nextId) && UniqueKeys(orders, OrderKey)
      && KeysBelow(customers, CustomerKey, nextId) && UniqueKeys(customers, CustomerKey)
      && UniqueKeys(customers, CustomerEmail)
      && KeysBelow(logs, LogKey, nextId) && UniqueKeys(logs, LogKey)
      && KeysBelow(carts, CartKey, nextId) && UniqueKeys(carts, CartKey) && UniqueKeys(carts, CartUser)
      && KeysBelow(cartItems, ItemKey, nextId) && UniqueKeys(cartItems, ItemKey)
      && UniqueKeys(cartItems, ItemSlot)
      && (forall i :: 0 <= i < |products| ==> products[i].barcode in Barcode.DatabasePatterns)
      && (forall i :: 0 <= i < |logs| ==> RecordsChange(logs[i]))
    }

    constructor()
      ensures Valid()
      ensures products == [] && orders == [] && customers == [] && logs == []
      ensures carts == [] && cartItems == [] && nextId == 0
    {
      products, orders, customers, logs := [], [], [], [];
      carts, cartItems, nextId := [], [], 0;
    }

    // ------------------------------------------------------------ products

    /** `createProduct`: a new row with a fresh id, the input's values, their defaults and a generated barcode. */
    method CreateProduct(input: NewProduct, draw: real, now: Time) returns (p: Product)
      requires Valid() && 0.0 <= draw < 1.0
      modifies this
      ensures Valid()
      ensures p == ProductFromInsert(old(nextId), input, DbBarcode(draw), now)
      ensures forall i :: 0 <= i < |old(products)| ==> old(products)[i].id != p.id
      ensures products == old(products) + [p] && nextId == old(nextId) + 1
      ensures orders == old(orders) && customers == old(customers) && logs == old(logs)
      ensures carts == old(carts) && cartItems == old(cartItems)
    {
      p := ProductFromInsert(nextId, input, DbBarcode(draw), now);
      AppendUnique(products, p, ProductKey);
      AppendBelow(products, p, ProductKey, nextId);
      products := products + [p];
      nextId := nextId + 1;
    }

    /** `updateProduct`: the patched row, or nothing for an unknown id. */
    method UpdateProduct(id: Id, patch: ProductPatch, now: Time) returns (r: Option<Product>)
      requires Valid()
      modifies this
      ensures Valid()
      ensures old(ProductIndex(products, id)).None? ==> r.None? && products == old(products)
      ensures old(ProductIndex(products, id)).Some? ==>
        var k := old(ProductIndex(products, id)).value;
        r == Some(PatchProduct(old(products)[k], patch, now)) && products == old(products)[k := r.value]
      ensures orders == old(orders) && customers == old(customers) && logs == old(logs)
      ensures carts == old(carts) && cartItems == old(cartItems) && nextId == old(nextId)
    {
      match ProductIndex(products, id)
      case None => r := None;
      case Some(k) =>
        var q := PatchProduct(products[k], patch, now);
        ReplaceUnique(products, k, q, ProductKey);
        ReplaceBelow(products, k, q, ProductKey, nextId);
        products := products[k := q];
        r := Some(q);
    }

    /** Stores `q` in place of row `k`, which has the same id. */
    method ReplaceProduct(k: nat, q: Product)
      requires Valid() && k < |products| && q.id == products[k].id && q.barcode in Barcode.DatabasePatterns
      modifies this
      ensures Valid()
      ensures products == old(products)[k := q]
      ensures orders == old(orders) && customers == old(customers) && logs == old(logs)
      ensures carts == old(carts) && cartItems == old(cartItems) && nextId == old(nextId)
    {
      ReplaceUnique(products, k, q, ProductKey);
      ReplaceBelow(products, k, q, ProductKey, nextId);
      products := products[k := q];
    }

    /** Appends a log entry that takes the next id. */
    method AppendLog(entry: InventoryLog)
      requires Valid() && entry.id == nextId && RecordsChange(entry)
      modifies this
      ensures Valid()
      ensures logs == old(logs) + [entry] && nextId == old(nextId) + 1
      ensures products == old(products) && orders == old(orders) && customers == old(customers)
      ensures carts == old(carts) && cartItems == old(cartItems)
    {
      AppendUnique(logs, entry, LogKey);
      AppendBelow(logs, entry, LogKey, nextId);
      RaiseBelow(products, ProductKey, nextId, nextId + 1);
      RaiseBelow(orders, OrderKey, nextId, nextId + 1);
      RaiseBelow(customers, CustomerKey, nextId, nextId + 1);
      RaiseBelow(carts, CartKey, nextId, nextId + 1);
      RaiseBelow(cartItems, ItemKey, nextId, nextId + 1);
      logs := logs + [entry];
      nextId := nextId + 1;
    }

    /** `deleteProduct`: whether a row was deleted; afterwards no row has that id. */
    method DeleteProduct(id: Id) returns (deleted: bool)
      requires Valid()
      modifies this
      ensures Valid()
      ensures deleted <==> old(ProductIndex(products, id)).Some?
      ensures deleted ==> products == RemoveAt(old(products), old(ProductIndex(products, id)).value)
      ensures !deleted ==> products == old(products)
      ensures forall i :: 0 <= i < |products| ==> products[i].id != id
      ensures orders == old(orders) && customers == old(customers) && logs == old(logs)
      ensures carts == old(carts) && cartItems == old(cartItems) && nextId == old(nextId)
    {
      match ProductIndex(products, id)
      case None => deleted := false;
      case Some(k) =>
        RemoveUnique(products, k, ProductKey);
        RemoveBelow(products, k, ProductKey, nextId);
        ghost var before := products;
        products := RemoveAt(products, k);
        forall i | 0 <= i < |products| ensures products[i].id != id {
          var j := if i < k then i else i + 1;
          assert products[i] == before[j] && j != k;
          assert ProductKey(before[j]) != ProductKey(before[k]);
        }
        deleted := true;
    }

    /**
     * `updateProductStock`: for a known product, sets its stock and appends
     * one log entry recording the change; for an unknown one, changes nothing.
     */
    method UpdateProductStock(id: Id, newStock: int, reason: Option<string>, now: Time) returns (ok: bool)
      requires Valid()
      modifies this
      ensures Valid()
      ensures ok <==> old(ProductIndex(products, id)).Some?
      ensures !ok ==> products == old(products) && logs == old(logs) && nextId == old(nextId)
      ensures ok ==>
        var k := old(ProductIndex(products, id)).value;
        var previous := old(products)[k].stock;
        && products == old(products)[k := old(products)[k].(stock := newStock, updatedAt := now)]
        && logs == old(logs) + [StockLog(old(nextId), id, previous, newStock, reason, now)]
        && nextId == old(nextId) + 1
      ensures orders == old(orders) && customers == old(customers)
      ensures carts == old(carts) && cartItems == old(cartItems)
    {
      match ProductIndex(products, id)
      case None => ok := false;
      case Some(k) =>
        var previous := products[k].stock;
        ReplaceProduct(k, products[k].(stock := newStock, updatedAt := now));
        AppendLog(StockLog(nextId, id, previous, newStock, reason, now));
        ok := true;
    }

    // -------------------------------------------------------------- orders

    /** `createOrder`: a new pending order with a fresh id, keeping only the four copied fields. */
    method CreateOrder(input: NewOrder, now: Time) returns (o: Order)
      requires Valid()
      modifies this
      ensures Valid()
      ensures o == DbOrderFromInsert(old(nextId), input, now)
      ensures orders == old(orders) + [o] && nextId == old(nextId) + 1
      ensures products == old(products) && customers == old(customers) && logs == old(logs)
      ensures carts == old(carts) && cartItems == old(cartItems)
    {
      o := DbOrderFromInsert(nextId, input, now);
      AppendUnique(orders, o, OrderKey);
      AppendBelow(orders, o, OrderKey, nextId);
      orders := orders + [o];
      nextId := nextId + 1;
    }

    /** Replaces order row `k` by `o`, which keeps its id. */
    method ReplaceOrder(k: nat, o: Order)
      requires Valid() && k < |orders| && o.id == orders[k].id
      modifies this
      ensures Valid()
      ensures orders == old(orders)[k := o]
      ensures products == old(products) && customers == old(customers) && logs == old(logs)
      ensures carts == old(carts) && cartItems == old(cartItems) && nextId == old(nextId)
    {
      ReplaceUnique(orders, k, o, OrderKey);
      ReplaceBelow(orders, k, o, OrderKey, nextId);
      orders := orders[k := o];
    }

    /** `updateOrderStatus`: sets the status and updatedAt of a known order. */
    method UpdateOrderStatus(id: Id, status: string, now: Time) returns (r: Option<Order>)
      requires Valid()
      modifies this
      ensures Valid()
      ensures old(OrderIndex(orders, id)).None? ==> r.None? && orders == old(orders)
      ensures old(OrderIndex(orders, id)).Some? ==>
        var k := old(OrderIndex(orders, id)).value;
        r == Some(old(orders)[k].(status := status, updatedAt := Some(now)))
        && orders == old(orders)[k := r.value]
      ensures products == old(products) && customers == old(customers) && logs == old(logs)
      ensures carts == old(carts) && cartItems == old(cartItems) && nextId == old(nextId)
    {
      match OrderIndex(orders, id)
      case None => r := None;
      case Some(k) =>
        var o := orders[k].(status := status, updatedAt := Some(now));
        ReplaceOrder(k, o);
        r := Some(o);
    }

    /** `updateOrderPaymentStatus`: sets the payment status and updatedAt of a known order. */
    method UpdateOrderPaymentStatus(id: Id, paymentStatus: string, now: Time) returns (r: Option<Order>)
      requires Valid()
      modifies this
      ensures Valid()
      ensures old(OrderIndex(orders, id)).None? ==> r.None? && orders == old(orders)
      ensures old(OrderIndex(orders, id)).Some? ==>
        var k := old(OrderIndex(orders, id)).value;
        r == Some(old(orders)[k].(paymentStatus := Some(paymentStatus), updatedAt := Some(now)))
        && orders == old(orders)[k := r.value]
      ensures products == old(products) && customers == old(customers) && logs == old(logs)
      ensures carts == old(carts) && cartItems == old(cartItems) && nextId == old(nextId)
    {
      match OrderIndex(orders, id)
      case None => r := None;
      case Some(k) =>
        var o := orders[k].(paymentStatus := Some(paymentStatus), updatedAt := Some(now));
        ReplaceOrder(k, o);
        r := Some(o);
    }

    /** `updateOrderTracking`: sets the tracking number and updatedAt of a known order. */
    method UpdateOrderTracking(id: Id, trackingNumber: string, now: Time) returns (r: Option<Order>)
      requires Valid()
      modifies this
      ensures Valid()
      ensures old(OrderIndex(orders, id)).None? ==> r.None? && orders == old(orders)
      ensures old(OrderIndex(orders, id)).Some? ==>
        var k := old(OrderIndex(orders, id)).value;
        r == Some(old(orders)[k].(trackingNumber := Some(trackingNumber), updatedAt := Some(now)))
        && orders == old(orders)[k := r.value]
      ensures products == old(products) && customers == old(customers) && logs == old(logs)
      ensures carts == old(carts) && cartItems == old(cartItems) && nextId == old(nextId)
    {
      match OrderIndex(orders, id)
      case None => r := None;
      case Some(k) =>
        var o := orders[k].(trackingNumber := Some(trackingNumber), updatedAt := Some(now));
        ReplaceOrder(k, o);
        r := Some(o);
    }

    // ----------------------------------------------------------- customers

    /** `createCustomer`: a new row, or a refused insert when the email is already taken. */
    method CreateCustomer(input: NewCustomer, now: Time) returns (r: Option<Customer>)
      requires Valid()
      modifies this
      ensures Valid()
      ensures old(CustomerIndexByEmail(customers, input.email)).Some? ==>
        r.None? && customers == old(customers) && nextId == old(nextId)
      ensures old(CustomerIndexByEmail(customers, input.email)).None? ==>
        r == Some(CustomerFromInsert(old(nextId), input, now))
        && customers == old(customers) + [r.value] && nextId == old(nextId) + 1
      ensures products == old(products) && orders == old(orders) && logs == old(logs)
      ensures carts == old(carts) && cartItems == old(cartItems)
    {
      if CustomerIndexByEmail(customers, input.email).Some? {
        r := None;
      } else {
        var c := CustomerFromInsert(nextId, input, now);
        AppendUnique(customers, c, CustomerKey);
        AppendUnique(customers, c, CustomerEmail);
        AppendBelow(customers, c, CustomerKey, nextId);
        customers := customers + [c];
        nextId := nextId + 1;
        r := Some(c);
      }
    }

    // ---------------------------------------------------------------- cart

    /** The get-or-create step: the user's cart, inserted first when there is none. */
    method CartOf(userId: Id) returns (cartId: Id)
      requires Valid()
      modifies this
      ensures Valid()
      ensures old(CartIndexOf(carts, userId)).Some? ==>
        cartId == old(carts)[old(CartIndexOf(carts, userId)).value].id
        && carts == old(carts) && nextId == old(nextId)
      ensures old(CartIndexOf(carts, userId)).None? ==>
        cartId == old(nextId) && carts == old(carts) + [Cart(cartId, userId)] && nextId == old(nextId) + 1
      ensures CartIndexOf(carts, userId).Some? && carts[CartIndexOf(carts, userId).value].id == cartId
      ensures products == old(products) && orders == old(orders) && customers == old(customers)
      ensures logs == old(logs) && cartItems == old(cartItems)
    {
      match CartIndexOf(carts, userId)
      case Some(k) =>
        cartId := carts[k].id;
      case None =>
        var c := Cart(nextId, userId);
        AppendUnique(carts, c, CartKey);
        AppendUnique(carts, c, CartUser);
        AppendBelow(carts, c, CartKey, nextId);
        FirstIndexAppend(carts, c, (c: Cart) => c.userId == userId);
        carts := carts + [c];
        cartId := nextId;
        nextId := nextId + 1;
    }

    /**
     * `getCartByUserId`: the user's cart (created when absent) joined with the
     * products that still exist, and the total of those lines.
     */
    method GetCartByUserId(userId: Id) returns (view: CartView)
      requires Valid()
      modifies this
      ensures Valid()
      ensures CartIndexOf(carts, userId).Some?
      ensures var cartId := carts[CartIndexOf(carts, userId).value].id;
        && view.items == CartLines(cartItems, products, cartId)
        && view.total == Sum(cartItems, ItemAmount(products, cartId))
      ensures old(CartIndexOf(carts, userId)).Some? ==> carts == old(carts) && nextId == old(nextId)
      ensures old(CartIndexOf(carts, userId)).None? ==>
        carts == old(carts) + [Cart(old(nextId), userId)] && nextId == old(nextId) + 1
      ensures products == old(products) && orders == old(orders) && customers == old(customers)
      ensures logs == old(logs) && cartItems == old(cartItems)
    {
      var cartId := CartOf(userId);
      var lines := CartLines(cartItems, products, cartId);
      CartTotalOfItems(cartItems, products, cartId);
      view := CartView(lines, CartTotal(lines));
    }

    /** The merge step of `addToCart`, once the cart is known. */
    method AddLine(cartId: Id, productId: Id, quantity: int, priceAtTime: Cents) returns (item: CartItem)
      requires Valid()
      modifies this
      ensures Valid()
      ensures Merged(old(cartItems), cartItems, item, cartId, productId, quantity, priceAtTime)
      ensures nextId >= old(nextId)
      ensures products == old(products) && orders == old(orders) && customers == old(customers)
      ensures logs == old(logs) && carts == old(carts)
    {
      match ItemIndexFor(cartItems, cartId, productId)
      case Some(k) =>
        item := cartItems[k].(quantity := cartItems[k].quantity + quantity);
        ReplaceUnique(cartItems, k, item, ItemKey);
        ReplaceUnique(cartItems, k, item, ItemSlot);
        ReplaceBelow(cartItems, k, item, ItemKey, nextId);
        cartItems := cartItems[k := item];
      case None =>
        item := CartItem(nextId, cartId, productId, quantity, priceAtTime);
        AppendUnique(cartItems, item, ItemKey);
        AppendUnique(cartItems, item, ItemSlot);
        AppendBelow(cartItems, item, ItemKey, nextId);
        cartItems := cartItems + [item];
        nextId := nextId + 1;
    }

    /**
     * `addToCart`: the user's cart is created when absent; a repeat add raises
     * the existing line's quantity and keeps its price, otherwise one new line
     * with the supplied price is inserted. The cart's total grows by the
     * line's price times the added quantity.
     */
    method AddToCart(userId: Id, productId: Id, quantity: int, priceAtTime: Cents) returns (item: CartItem)
      requires Valid()
      modifies this
      ensures Valid()
      ensures CartIndexOf(carts, userId).Some?
      ensures item.cartId == carts[CartIndexOf(carts, userId).value].id
      ensures old(CartIndexOf(carts, userId)).Some? ==> carts == old(carts)
      ensures old(CartIndexOf(carts, userId)).None? ==> carts == old(carts) + [Cart(old(nextId), userId)]
      ensures Merged(old(cartItems), cartItems, item, item.cartId, productId, quantity, priceAtTime)
      ensures Sum(cartItems, ItemAmount(products, item.cartId)) ==
        Sum(old(cartItems), ItemAmount(products, item.cartId))
        + (if ProductIndex(products, productId).Some? then item.priceAtTime * quantity else 0)
      ensures products == old(products) && orders == old(orders) && customers == old(customers)
      ensures logs == old(logs)
    {
      var cartId := CartOf(userId);
      item := AddLine(cartId, productId, quantity, priceAtTime);
      MergedTotal(old(cartItems), cartItems, item, cartId, productId, quantity, priceAtTime, products);
    }

    /** `updateCartItem`: sets the quantity of an item of the user's cart; refuses any other item. */
    method UpdateCartItem(itemId: Id, quantity: int, userId: Id) returns (r: Option<CartItem>)
      requires Valid()
      modifies this
      ensures Valid()
      ensures old(OwnedItemIndex(cartItems, carts, itemId, userId)).None? ==>
        r.None? && cartItems == old(cartItems)
      ensures old(OwnedItemIndex(cartItems, carts, itemId, userId)).Some? ==>
        var k := old(OwnedItemIndex(cartItems, carts, itemId, userId)).value;
        r == Some(old(cartItems)[k].(quantity := quantity)) && cartItems == old(cartItems)[k := r.value]
      ensures products == old(products) && orders == old(orders) && customers == old(customers)
      ensures logs == old(logs) && carts == old(carts) && nextId == old(nextId)
    {
      match OwnedItemIndex(cartItems, carts, itemId, userId)
      case None => r := None;
      case Some(k) =>
        var it := cartItems[k].(quantity := quantity);
        ReplaceUnique(cartItems, k, it, ItemKey);
        ReplaceUnique(cartItems, k, it, ItemSlot);
        ReplaceBelow(cartItems, k, it, ItemKey, nextId);
        cartItems := cartItems[k := it];
        r := Some(it);
    }

    /** `removeFromCart`: deletes an item of the user's cart; refuses any other item. */
    method RemoveFromCart(itemId: Id, userId: Id) returns (removed: bool)
      requires Valid()
      modifies this
      ensures Valid()
      ensures removed <==> old(OwnedItemIndex(cartItems, carts, itemId, userId)).Some?
      ensures !removed ==> cartItems == old(cartItems)
      ensures removed ==>
        cartItems == RemoveAt(old(cartItems), old(OwnedItemIndex(cartItems, carts, itemId, userId)).value)
      ensures products == old(products) && orders == old(orders) && customers == old(customers)
      ensures logs == old(logs) && carts == old(carts) && nextId == old(nextId)
    {
      match OwnedItemIndex(cartItems, carts, itemId, userId)
      case None => removed := false;
      case Some(k) =>
        RemoveUnique(cartItems, k, ItemKey);
        RemoveUnique(cartItems, k, ItemSlot);
        RemoveBelow(cartItems, k, ItemKey, nextId);
        cartItems := RemoveAt(cartItems, k);
        removed := true;
    }

    /**
     * `clearCart`: deletes every item of the user's cart and keeps every other
     * cart's items; always reports success and never creates a cart.
     */
    method ClearCart(userId: Id) returns (ok: bool)
      requires Valid()
      modifies this
      ensures Valid()
      ensures ok
      ensures old(CartIndexOf(carts, userId)).None? ==> cartItems == old(cartItems)
      ensures old(CartIndexOf(carts, userId)).Some? ==>
        var cartId := old(carts)[old(CartIndexOf(carts, userId)).value].id;
        && cartItems == Filter(old(cartItems), OutsideCart(cartId))
        && Selects(cartItems, old(cartItems), OutsideCart(cartId))
      ensures products == old(products) && orders == old(orders) && customers == old(customers)
      ensures logs == old(logs) && carts == old(carts) && nextId == old(nextId)
    {
      ok := true;
      match CartIndexOf(carts, userId)
      case None =>
      case Some(k) =>
        var cartId := carts[k].id;
        FilterUnique(cartItems, OutsideCart(cartId), ItemKey);
        FilterUnique(cartItems, OutsideCart(cartId), ItemSlot);
        FilterBelow(cartItems, OutsideCart(cartId), ItemKey, nextId);
        FilterSelects(cartItems, OutsideCart(cartId));
        cartItems := Filter(cartItems, OutsideCart(cartId));
    }
  }
}
