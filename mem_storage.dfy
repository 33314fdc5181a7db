/**
 * The in-memory store: products and orders kept in Maps keyed by id. A Map
 * keeps its keys in insertion order, and `set` on an existing key keeps the
 * key's place, so each Map is a sequence of rows in insertion order whose
 * `set` on a known id replaces the row in place. Fresh ids stand for
 * `randomUUID()`.
 */
module MemStorage {
  import opened Wrappers
  import opened Schema
  import opened Seqs
  import opened Tables
  import Barcode
  import DatabaseStorage

  /** The pattern the in-memory store's generator picks (its list has five entries). */
  function MemBarcode(draw: real): (b: string)
    requires 0.0 <= draw < 1.0
    ensures b in Barcode.MemoryPatterns && Barcode.ValidateBarcode(b)
  {
    Barcode.PatternsValid();
    Barcode.MemoryPatterns[Barcode.PickIndex(draw, |Barcode.MemoryPatterns|)]
  }

  /** `insertOrder.status || "pending"`: a missing or empty status becomes pending. */
  function StatusOr(status: Option<string>): (r: string)
    ensures status.Some? && status.value != "" ==> r == status.value
    ensures status.None? || status.value == "" ==> r == Pending
  {
    if status.Some? && status.value != "" then status.value else Pending
  }

  /**
   * The order `createOrder` stores: every supplied field, a fresh id, the
   * status defaulting to pending and the creation time; no default applies to
   * the payment status and no update time is set.
   */
  function MemOrderFromInsert(id: Id, input: NewOrder, now: Time): (o: Order)
    ensures o.id == id && o.customerName == input.customerName && o.customerEmail == input.customerEmail
    ensures o.customerPhone == input.customerPhone && o.shippingAddress == input.shippingAddress
    ensures o.totalAmount == input.totalAmount && o.items == input.items
    ensures o.status == StatusOr(input.status)
    ensures o.paymentStatus == input.paymentStatus && o.trackingNumber == input.trackingNumber
    ensures o.createdAt == Some(now) && o.updatedAt.None?
  {
    Order(id, input.customerName, input.customerEmail, input.customerPhone, input.shippingAddress,
          input.totalAmount, StatusOr(input.status), input.paymentStatus, input.trackingNumber,
          input.items, Some(now), None)
  }

  /** The two stores disagree on a supplied status: memory keeps it, the database forces pending. */
  lemma CreateOrderStatusDiverges(id: Id, input: NewOrder, now: Time)
    requires input.status == Some("shipped")
    ensures MemOrderFromInsert(id, input, now).status == "shipped"
    ensures DatabaseStorage.DbOrderFromInsert(id, input, now).status == Pending
  {
  }

  /** Without a status both stores create a pending order. */
  lemma CreateOrderDefaultAgrees(id: Id, input: NewOrder, now: Time)
    requires input.status.None?
    ensures MemOrderFromInsert(id, input, now).status == DatabaseStorage.DbOrderFromInsert(id, input, now).status
  {
  }

  /** The specification sheet of a sample product. */
  function Sheet(material: string, width: string, weight: string, care: string): map<string, string>
  {
    map["material" := material, "width" := width, "weight" := weight, "care" := care]
  }

  /**
   * The products `initializeData` loads, in their insertion order: BL001,
   * CT002, WL003 and PL004, which take the ids 0 to 3 here. All are active,
   * carry the first four patterns of the store's list, and are stamped with
   * the construction time. Their long texts are written in ten-character
   * pieces, which keeps the proofs that look at the sample data small.
   */
  function SeedProducts(now: Time): (r: seq<Product>)
    ensures |r| == 4
  {
    [BlueSilk(now), RedCotton(now), GreenWool(now), PatternedPolyester(now)]
  }

  /** Sample product BL001. */
  function BlueSilk(now: Time): (p: Product)
    ensures p.id == 0 && p.isActive && p.stock == 156 && p.barcode == Barcode.MemoryPatterns[0]
  {
    Product(0, "Premium Bl" + "ue Silk",
      "Luxurious " + "blue silk " + "fabric per" + "fect for f" + "ormal wear" + " and speci" +
        "al occasio" + "ns. Made f" + "rom 100% n" + "atural sil" + "k with exc" + "eptional d" +
        "rape and s" + "heen.",
      4500, "silk", 156,
      [ "https://pi" + "xabay.com/" + "get/gb4a5c" + "d721e57314" + "c48e6762a9" + "4258cc04b1" +
        "8b5df85aa7" + "ee72626b9e" + "34707e27e7" + "37aa8ae03c" + "48bc637cce" + "f16e953c1e" +
        "7e8bd6ce76" + "346437b009" + "ad4b4e6d51" + "b84_1280.j" + "pg",
        "https://im" + "ages.unspl" + "ash.com/ph" + "oto-157101" + "9613454-1c" + "b2f99b2d8b" +
        "?ixlib=rb-" + "4.0.3&ixid" + "=MnwxMjA3f" + "DB8MHxwaG9" + "0by1wYWdlf" + "Hx8fGVufDB" +
        "8fHx8&auto" + "=format&fi" + "t=crop&w=8" + "00&h=800",
        "https://pi" + "xabay.com/" + "get/g007f7" + "1724ebc99f" + "8a00038e29" + "dc4380250f" +
        "b2f84ebf66" + "d7cc425c19" + "088fe3d22c" + "e5d1605619" + "ef53e05777" + "cb6608486e" +
        "ae410303ed" + "a0b8f31b63" + "af68dce64c" + "4ae_1280.j" + "pg" ],
      Sheet("100% Natur" + "al Silk", "150cm", "120 GSM", "Dry Clean Only"),
      "||||| |||| ||||", true, now, now)
  }

  /** Sample product CT002. */
  function RedCotton(now: Time): (p: Product)
    ensures p.id == 1 && p.isActive && p.stock == 8 && p.barcode == Barcode.MemoryPatterns[1]
  {
    Product(1, "Organic Re" + "d Cotton",
      "Premium or" + "ganic cott" + "on fabric " + "in rich re" + "d color. P" + "erfect for" +
        " casual we" + "ar and hom" + "e textiles" + ".",
      3200, "cotton", 8,
      [ "https://pi" + "xabay.com/" + "get/gfb069" + "abbcd86e57" + "751251522b" + "7ce8e7b6c0" +
        "2c71d7e5c5" + "efd06583ad" + "38fe585eff" + "18e908c974" + "bef38971da" + "3b67fe2792" +
        "4a9309881e" + "9b483f0696" + "fc80c56f4e" + "479_1280.j" + "pg" ],
      Sheet("100% Organ" + "ic Cotton", "140cm", "200 GSM", "Machine Wa" + "sh Cold"),
      "|||| ||| |||||", true, now, now)
  }

  /** Sample product WL003. */
  function GreenWool(now: Time): (p: Product)
    ensures p.id == 2 && p.isActive && p.stock == 43 && p.barcode == Barcode.MemoryPatterns[2]
  {
    Product(2, "Merino Gre" + "en Wool",
      "Premium me" + "rino wool " + "fabric in " + "forest gre" + "en. Excell" + "ent for wi" +
        "nter cloth" + "ing and ac" + "cessories.",
      5800, "wool", 43,
      [ "https://pi" + "xabay.com/" + "get/g0434b" + "8087bcb5db" + "4eb1227e16" + "1e6b1338a5" +
        "483715f749" + "7aa185dca8" + "0c9e547502" + "d2b1889133" + "2ff79cae26" + "c8dab6dcba" +
        "7e5f75d98f" + "c07053c3be" + "65806ea214" + "6dc_1280.j" + "pg" ],
      Sheet("100% Merino Wool", "150cm", "300 GSM", "Hand Wash Only"),
      "||| |||| ||||||", true, now, now)
  }

  /** Sample product PL004. */
  function PatternedPolyester(now: Time): (p: Product)
    ensures p.id == 3 && p.isActive && p.stock == 67 && p.barcode == Barcode.MemoryPatterns[3]
  {
    Product(3, "Patterned " + "Polyester",
      "Modern pat" + "terned pol" + "yester fab" + "ric with g" + "eometric d" + "esigns. Gr" +
        "eat for co" + "ntemporary" + " fashion.",
      2800, "synthetic", 67,
      [ "https://pi" + "xabay.com/" + "get/g8644e" + "058f79d646" + "7cb7d5a0be" + "4a94f21586" +
        "5f5d81034d" + "004598f36e" + "aa06619066" + "01e7fd1f2d" + "2d1c55c748" + "c4b6313fd4" +
        "7edd1bc4b1" + "9ed76ff0cd" + "421dfdc862" + "494_1280.j" + "pg" ],
      Sheet("100% Polyester", "145cm", "150 GSM", "Machine Wa" + "sh Warm"),
      "|||| ||| |||| ||", true, now, now)
  }

  /** A fresh store lists all four sample products, in their insertion order. */
  lemma SeedAllListed(now: Time)
    ensures MemProducts(SeedProducts(now), None) == SeedProducts(now)
  {
    FilterAll(SeedProducts(now), ListedIn(None));
  }

  /** The low-stock query of a fresh store reports only the cotton, whose stock is 8. */
  lemma SeedLowStock(now: Time)
    ensures LowStock(SeedProducts(now), None) == [RedCotton(now)]
  {
    OnlySecondLow(BlueSilk(now), RedCotton(now), GreenWool(now), PatternedPolyester(now));
  }

  /** Among four active products, only the second at or below 10: the query reports it alone. */
  lemma OnlySecondLow(a: Product, b: Product, c: Product, d: Product)
    requires a.isActive && b.isActive && c.isActive && d.isActive
    requires a.stock > 10 && b.stock <= 10 && c.stock > 10 && d.stock > 10
    ensures LowStock([a, b, c, d], None) == [b]
  {
    OnlySecondSelected(a, b, c, d);
    var r := LowStock([a, b, c, d], None);
    assert multiset(r) == multiset{b};
    assert |r| == 1;
    assert r[0] in multiset(r);
  }

  lemma OnlySecondSelected(a: Product, b: Product, c: Product, d: Product)
    requires a.isActive && b.isActive && c.isActive && d.isActive
    requires a.stock > 10 && b.stock <= 10 && c.stock > 10 && d.stock > 10
    ensures Filter([a, b, c, d], AtMost(10)) == [b]
  {
    assert [a, b, c, d] == [a] + [b] + [c] + [d];
    FilterAppend([a] + [b] + [c], [d], AtMost(10));
    FilterAppend([a] + [b], [c], AtMost(10));
    FilterAppend([a], [b], AtMost(10));
  }

  class Store {
    var products: seq<Product>
    var orders: seq<Order>
    var nextId: nat

    /** Ids are unique and below `nextId`; every barcode comes from the store's pattern list. */
    ghost predicate Valid()
      reads this
    {
      && KeysBelow(products, ProductKey, nextId) && UniqueKeys(products, ProductKey)
      && KeysBelow(orders, OrderKey, nextId) && UniqueKeys(orders, OrderKey)
      && (forall i :: 0 <= i < |products| ==> products[i].barcode in Barcode.MemoryPatterns)
    }

    /** `initializeData`: the store starts with the four sample products and no orders. */
    constructor(now: Time)
      ensures Valid() && products == SeedProducts(now) && orders == [] && nextId == |SeedProducts(now)|
    {
      products, orders, nextId := SeedProducts(now), [], |SeedProducts(now)|;
    }

    /** `createProduct`: the input spread over its defaults, with a fresh id and a generated barcode. */
    method CreateProduct(input: NewProduct, draw: real, now: Time) returns (p: Product)
      requires Valid() && 0.0 <= draw < 1.0
      modifies this
      ensures Valid()
      ensures p == ProductFromInsert(old(nextId), input, MemBarcode(draw), now)
      ensures forall i :: 0 <= i < |old(products)| ==> old(products)[i].id != p.id
      ensures products == old(products) + [p] && orders == old(orders) && nextId == old(nextId) + 1
    {
      p := ProductFromInsert(nextId, input, MemBarcode(draw), now);
      AppendUnique(products, p, ProductKey);
      AppendBelow(products, p, ProductKey, nextId);
      products := products + [p];
      nextId := nextId + 1;
    }

    /** `updateProduct`: `{...existing, ...updateData}` stored in place, or nothing for an unknown id. */
    method UpdateProduct(id: Id, patch: ProductPatch, now: Time) returns (r: Option<Product>)
      requires Valid()
      modifies this
      ensures Valid()
      ensures old(ProductIndex(products, id)).None? ==> r.None? && products == old(products)
      ensures old(ProductIndex(products, id)).Some? ==>
        var k := old(ProductIndex(products, id)).value;
        r == Some(PatchProduct(old(products)[k], patch, now)) && products == old(products)[k := r.value]
      ensures orders == old(orders) && nextId == old(nextId)
    {
      match ProductIndex(products, id)
      case None => r := None;
      case Some(k) =>
        var q := PatchProduct(products[k], patch, now);
        ReplaceUnique(products, k, q, ProductKey);
        ReplaceBelow(products, k, q, ProductKey, nextId);
        products := products[k := q];
        r := Some(q);
    }

    /** `deleteProduct`: `Map.delete`, true exactly when the id was present. */
    method DeleteProduct(id: Id) returns (deleted: bool)
      requires Valid()
      modifies this
      ensures Valid()
      ensures deleted <==> old(ProductIndex(products, id)).Some?
      ensures deleted ==> products == RemoveAt(old(products), old(ProductIndex(products, id)).value)
      ensures !deleted ==> products == old(products)
      ensures orders == old(orders) && nextId == old(nextId)
    {
      match ProductIndex(products, id)
      case None => deleted := false;
      case Some(k) =>
        RemoveUnique(products, k, ProductKey);
        RemoveBelow(products, k, ProductKey, nextId);
        products := RemoveAt(products, k);
        deleted := true;
    }

    /** `createOrder`: every supplied field, a fresh id, and a status defaulting to pending. */
    method CreateOrder(input: NewOrder, now: Time) returns (o: Order)
      requires Valid()
      modifies this
      ensures Valid()
      ensures o == MemOrderFromInsert(old(nextId), input, now)
      ensures orders == old(orders) + [o] && products == old(products) && nextId == old(nextId) + 1
    {
      o := MemOrderFromInsert(nextId, input, now);
      AppendUnique(orders, o, OrderKey);
      AppendBelow(orders, o, OrderKey, nextId);
      orders := orders + [o];
      nextId := nextId + 1;
    }

    /** `updateOrderStatus`: `{...existing, status}`; unlike the database store, updatedAt is left alone. */
    method UpdateOrderStatus(id: Id, status: string) returns (r: Option<Order>)
      requires Valid()
      modifies this
      ensures Valid()
      ensures old(OrderIndex(orders, id)).None? ==> r.None? && orders == old(orders)
      ensures old(OrderIndex(orders, id)).Some? ==>
        var k := old(OrderIndex(orders, id)).value;
        r == Some(old(orders)[k].(status := status)) && orders == old(orders)[k := r.value]
      ensures products == old(products) && nextId == old(nextId)
    {
      match OrderIndex(orders, id)
      case None => r := None;
      case Some(k) =>
        var o := orders[k].(status := status);
        ReplaceUnique(orders, k, o, OrderKey);
        ReplaceBelow(orders, k, o, OrderKey, nextId);
        orders := orders[k := o];
        r := Some(o);
    }
  }
}
