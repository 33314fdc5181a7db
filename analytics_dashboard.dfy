/**
 * The admin analytics dashboard, computed from the product listing: the
 * inventory value, the average price, the products per category and the
 * three largest categories, the first five stock levels and the three stock
 * buckets. Prices are integer cents; the average is an exact real in dirhams.
 * While the listing is loading every figure is that of an empty listing.
 */
module AnalyticsDashboard {
  import opened Wrappers
  import opened Schema
  import opened Seqs
  import Tallies
  import Tables
  import Routes
  import ReviewSection

  /** One product's stock value: `price * stock`, in cents. */
  function StockValue(p: Product): int
  {
    p.price * p.stock
  }

  /** `totalValue`: the value of all stock, in cents. */
  function TotalValue(products: seq<Product>): int
  {
    Sum(products, StockValue)
  }

  /** Setting one product's stock moves the total value by its price times the change. */
  lemma RestockMovesValue(products: seq<Product>, i: nat, stock: int)
    requires i < |products|
    ensures TotalValue(products[i := products[i].(stock := stock)])
      == TotalValue(products) + products[i].price * (stock - products[i].stock)
  {
    var q := products[i].(stock := stock);
    SumUpdate(products, i, q, StockValue);
    assert StockValue(q) - StockValue(products[i]) == products[i].price * (stock - products[i].stock);
  }

  /** The value of two listings together is the sum of their values. */
  lemma TotalValueAppend(a: seq<Product>, b: seq<Product>)
    ensures TotalValue(a + b) == TotalValue(a) + TotalValue(b)
  {
    SumAppend(a, b, StockValue);
  }

  function Price(p: Product): int
  {
    p.price
  }

  /** `averagePrice`: the mean price in dirhams, 0 for an empty listing. */
  function AveragePrice(products: seq<Product>): (avg: real)
    ensures products == [] ==> avg == 0.0
    ensures products != [] ==> avg * |products| as real == Sum(products, Price) as real / 100.0
  {
    if |products| > 0 then (Sum(products, Price) as real / 100.0) / |products| as real else 0.0
  }

  /** The average price lies between the lowest and the highest price. */
  lemma AveragePriceWithin(products: seq<Product>, lo: Cents, hi: Cents)
    requires products != []
    requires forall i :: 0 <= i < |products| ==> lo <= products[i].price <= hi
    ensures lo as real / 100.0 <= AveragePrice(products) <= hi as real / 100.0
  {
    var total := Sum(products, Price);
    var n := |products|;
    SumWithin(products, Price, lo, hi);
    assert n as real * lo as real <= total as real <= n as real * hi as real;
    assert n as real * (lo as real / 100.0) <= total as real / 100.0 <= n as real * (hi as real / 100.0);
    MeanWithin(n, total as real / 100.0, AveragePrice(products), lo as real / 100.0, hi as real / 100.0);
  }

  function CategoryOf(p: Product): string
  {
    p.categoryId
  }

  /**
   * `categoryDistribution`: the number of products in each category, the
   * categories in the order the reduce first inserted them; the counts add
   * up to the number of products.
   */
  method CategoryDistribution(products: seq<Product>) returns (counts: map<string, nat>, order: seq<string>)
    ensures order == Tallies.KeysInOrder(products, CategoryOf)
    ensures forall c :: c in counts <==> Tallies.Occurrences(products, CategoryOf, c) > 0
    ensures forall c :: Tallies.CountOr(counts, c) == Tallies.Occurrences(products, CategoryOf, c)
    ensures Sum(order, Tallies.CountIn(products, CategoryOf)) == |products|
  {
    counts, order := Tallies.Tally(products, CategoryOf);
    Tallies.KeysInOrderExact(products, CategoryOf);
    Tallies.TallyTotal(products, CategoryOf);
  }

  /** `Object.entries`: each category paired with its count, in key order. */
  function Entries(counts: map<string, nat>, order: seq<string>): (r: seq<(string, nat)>)
    ensures |r| == |order|
    ensures forall i :: 0 <= i < |r| ==> r[i] == (order[i], Tallies.CountOr(counts, order[i]))
  {
    seq(|order|, i requires 0 <= i < |order| => (order[i], Tallies.CountOr(counts, order[i])))
  }

  /** The sort key of `sort(([, a], [, b]) => b - a)`: larger counts first. */
  function Descending(e: (string, nat)): int
  {
    -(e.1 as int)
  }

  /**
   * `sort(...).slice(0, 3)`: at most three entries, largest count first, each
   * one of the given entries, and no entry left out has a larger count than
   * an entry kept.
   */
  function TopThree(entries: seq<(string, nat)>): (top: seq<(string, nat)>)
    ensures |top| == if |entries| < 3 then |entries| else 3
    ensures forall i, j :: 0 <= i < j < |top| ==> top[i].1 >= top[j].1
    ensures forall i :: 0 <= i < |top| ==> top[i] in entries
    ensures forall e :: e in entries && e !in top ==> forall i :: 0 <= i < |top| ==> e.1 <= top[i].1
  {
    var sorted := SortBy(entries, Descending);
    assert |sorted| == |multiset(sorted)| == |entries|;
    var top := Take(sorted, 3);
    forall i | 0 <= i < |top| ensures top[i] in entries {
      assert top[i] == sorted[i] && sorted[i] in multiset(sorted);
    }
    forall e | e in entries && e !in top ensures forall i :: 0 <= i < |top| ==> e.1 <= top[i].1 {
      assert e in multiset(sorted);
      var k :| 0 <= k < |sorted| && sorted[k] == e;
      assert k >= |top|;
      forall i | 0 <= i < |top| ensures e.1 <= top[i].1 {
        assert top[i] == sorted[i];
      }
    }
    top
  }

  /** The entries of a distribution pair exactly the occurring categories with their counts. */
  lemma EntriesCounted(products: seq<Product>, counts: map<string, nat>, order: seq<string>)
    requires forall c :: c in order <==> Tallies.Occurrences(products, CategoryOf, c) > 0
    requires forall c :: Tallies.CountOr(counts, c) == Tallies.Occurrences(products, CategoryOf, c)
    ensures forall e :: e in Entries(counts, order) ==>
      e.1 == Tallies.Occurrences(products, CategoryOf, e.0) > 0
    ensures forall c :: Tallies.Occurrences(products, CategoryOf, c) > 0 ==>
      (c, Tallies.Occurrences(products, CategoryOf, c)) in Entries(counts, order)
  {
    var entries := Entries(counts, order);
    forall e | e in entries ensures e.1 == Tallies.Occurrences(products, CategoryOf, e.0) > 0 {
      var k :| 0 <= k < |entries| && entries[k] == e;
      assert order[k] in order;
    }
    forall c | Tallies.Occurrences(products, CategoryOf, c) > 0
      ensures (c, Tallies.Occurrences(products, CategoryOf, c)) in entries
    {
      var k :| 0 <= k < |order| && order[k] == c;
      assert entries[k] == (c, Tallies.Occurrences(products, CategoryOf, c));
    }
  }

  /**
   * `topSellingCategories`: three categories with their counts (all of them
   * when there are fewer), largest first; every category not shown has no
   * more products than each one shown.
   */
  method TopSellingCategories(products: seq<Product>) returns (top: seq<(string, nat)>)
    ensures |top| == if |Tallies.KeysInOrder(products, CategoryOf)| < 3 then |Tallies.KeysInOrder(products, CategoryOf)| else 3
    ensures forall i :: 0 <= i < |top| ==>
      top[i].1 == Tallies.Occurrences(products, CategoryOf, top[i].0) > 0
    ensures forall i, j :: 0 <= i < j < |top| ==> top[i].1 >= top[j].1
    ensures forall c :: Tallies.Occurrences(products, CategoryOf, c) > 0 ==>
      (c, Tallies.Occurrences(products, CategoryOf, c)) in top
      || forall i :: 0 <= i < |top| ==> Tallies.Occurrences(products, CategoryOf, c) <= top[i].1
  {
    var counts, order := CategoryDistribution(products);
    Tallies.KeysInOrderExact(products, CategoryOf);
    EntriesCounted(products, counts, order);
    top := TopThree(Entries(counts, order));
  }

  /** A category's bar width: its share of all products, between 0 and 100 percent. */
  lemma CategoryShareBounded(products: seq<Product>, c: string)
    ensures 0.0 <= ReviewSection.Percentage(Tallies.Occurrences(products, CategoryOf, c), |products|) <= 100.0
  {
    ReviewSection.PercentageBounded(Tallies.Occurrences(products, CategoryOf, c), |products|);
  }

  /** One row of the stock levels card. */
  datatype StockLevel = StockLevel(id: Id, name: string, stock: int, lowStock: bool)

  /** `products.slice(0, 5)`: the first five products, flagged "Low Stock" below 10. */
  function StockLevels(products: seq<Product>): (r: seq<StockLevel>)
    ensures |r| == if |products| < 5 then |products| else 5
    ensures forall i :: 0 <= i < |r| ==>
      r[i].id == products[i].id && r[i].name == products[i].name && r[i].stock == products[i].stock
    ensures forall i :: 0 <= i < |r| ==> (r[i].lowStock <==> products[i].stock < 10)
  {
    var first := Take(products, 5);
    seq(|first|, i requires 0 <= i < |first| =>
      StockLevel(first[i].id, first[i].name, first[i].stock, Routes.StrictlyLow(first[i])))
  }

  /**
   * A listed product flagged "Low Stock" here is also in the inventory page's
   * low-stock alert (whose bound, 10, is inclusive).
   */
  lemma FlaggedIsAlerted(rows: seq<Product>, i: nat)
    requires i < |StockLevels(Routes.ProductList(rows, None, None))|
    requires StockLevels(Routes.ProductList(rows, None, None))[i].lowStock
    ensures Routes.ProductList(rows, None, None)[i] in Tables.LowStock(rows, None)
  {
    var listed := Routes.ProductList(rows, None, None);
    assert listed[i] in listed;
  }

  /** The three buckets of the inventory health card. */
  function WellStocked(p: Product): bool
  {
    p.stock >= 50
  }

  function MediumStock(p: Product): bool
  {
    10 <= p.stock < 50
  }

  /** Every product is counted in exactly one of the three buckets. */
  lemma {:induction false} StockBucketsPartition(products: seq<Product>)
    ensures |Filter(products, WellStocked)| + |Filter(products, MediumStock)|
      + |Filter(products, Routes.StrictlyLow)| == |products|
  {
    if products != [] {
      StockBucketsPartition(products[1..]);
    }
  }

  /**
   * The listing the dashboard fetches has as many products needing restock
   * as the server's statistics report as low on stock.
   */
  lemma RestockMatchesStats(rows: seq<Product>, orders: seq<Order>, now: Time)
    ensures |Filter(Routes.ProductList(rows, None, None), Routes.StrictlyLow)|
      == Routes.AnalyticsStats(rows, orders, now).lowStockProducts
  {
    Routes.ProductListDispatch(rows, None, None, None);
  }
}
