/**
 * The customers page: the search filter, a customer's orders, the spending
 * tier, the last-order date text, the active count and the average order
 * value. Amounts are cents; the average is an exact real in dirhams.
 */
module CustomersPage {
  import opened Wrappers
  import opened Schema
  import opened Seqs
  import opened Text

  /** The name or the email contains the term, ignoring (ASCII) case. */
  function CustomerMatches(term: string): Customer -> bool
  {
    (c: Customer) => ContainsIgnoreCase(c.name, term) || ContainsIgnoreCase(c.email, term)
  }

  /** `filteredCustomers`: the customers that match, in their original order. */
  function FilteredCustomers(customers: seq<Customer>, term: string): (r: seq<Customer>)
    ensures Selects(r, customers, CustomerMatches(term))
    ensures IsSubsequence(r, customers)
  {
    FilterSelects(customers, CustomerMatches(term));
    FilterIsSubsequence(customers, CustomerMatches(term));
    Filter(customers, CustomerMatches(term))
  }

  /** Every string contains the empty string. */
  lemma ContainsEmpty(s: string)
    ensures Contains(s, "")
  {
    assert StartsWith(s, "");
  }

  /** An empty search term keeps every customer. */
  lemma EmptyTermKeepsAll(customers: seq<Customer>)
    ensures FilteredCustomers(customers, "") == customers
  {
    forall i | 0 <= i < |customers| ensures CustomerMatches("")(customers[i]) {
      ContainsEmpty(Lower(customers[i].name));
      assert Lower("") == "";
    }
    FilterAll(customers, CustomerMatches(""));
  }

  function HasId(id: Id): Customer -> bool
  {
    (c: Customer) => c.id == id
  }

  function EmailIs(email: string): Order -> bool
  {
    (o: Order) => o.customerEmail == email
  }

  /**
   * `getCustomerOrders`: the orders placed with the email of the customer
   * with that id; none when no customer has the id (`undefined` equals no email).
   */
  function CustomerOrders(customers: seq<Customer>, orders: seq<Order>, customerId: Id): (r: seq<Order>)
    ensures FirstIndex(customers, HasId(customerId)).None? ==> r == []
    ensures FirstIndex(customers, HasId(customerId)).Some? ==>
      Selects(r, orders, EmailIs(customers[FirstIndex(customers, HasId(customerId)).value].email))
    ensures IsSubsequence(r, orders)
  {
    match FirstIndex(customers, HasId(customerId))
    case None => []
    case Some(k) =>
      FilterSelects(orders, EmailIs(customers[k].email));
      FilterIsSubsequence(orders, EmailIs(customers[k].email));
      Filter(orders, EmailIs(customers[k].email))
  }

  /** The spending tier. */
  datatype Tier = Bronze | Silver | Gold | Vip

  /** `getCustomerTier`: from 1000.00 VIP, from 500.00 Gold, from 200.00 Silver, else Bronze. */
  function TierFor(totalSpent: Cents): (t: Tier)
    ensures t == Vip <==> totalSpent >= 100000
    ensures t == Gold <==> 50000 <= totalSpent < 100000
    ensures t == Silver <==> 20000 <= totalSpent < 50000
    ensures t == Bronze <==> totalSpent < 20000
  {
    if totalSpent >= 100000 then Vip
    else if totalSpent >= 50000 then Gold
    else if totalSpent >= 20000 then Silver
    else Bronze
  }

  function TierRank(t: Tier): nat
  {
    match t
    case Bronze => 0
    case Silver => 1
    case Gold => 2
    case Vip => 3
  }

  /** Spending more never lowers the tier. */
  lemma TierMonotone(a: Cents, b: Cents)
    requires a <= b
    ensures TierRank(TierFor(a)) <= TierRank(TierFor(b))
  {
  }

  /** `formatDate`: "Never" without a date, otherwise the locale rendering it is given. */
  function FormatDate(date: Option<Time>, render: Time -> string): (r: string)
    ensures date.None? ==> r == "Never"
    ensures date.Some? ==> r == render(date.value)
  {
    match date
    case None => "Never"
    case Some(t) => render(t)
  }

  /** Ninety days in milliseconds. */
  const ActiveWindow := 90 * DayMillis

  function ActiveSince(now: Time): Customer -> bool
  {
    (c: Customer) => c.lastOrderAt.Some? && c.lastOrderAt.value > now - ActiveWindow
  }

  /** `activeCustomers`: customers whose last order is within the last 90 days. */
  function ActiveCustomers(customers: seq<Customer>, now: Time): (n: nat)
    ensures n <= |customers|
  {
    |Filter(customers, ActiveSince(now))|
  }

  /** A customer who never ordered is not active. */
  lemma NeverOrderedIsInactive(customers: seq<Customer>, now: Time, c: Customer)
    requires c.lastOrderAt.None?
    ensures c !in Filter(customers, ActiveSince(now))
  {
    FilterSelects(customers, ActiveSince(now));
  }

  /** One customer's average order, in dirhams; 0 without orders. */
  function PerCustomerAverage(c: Customer): real
  {
    if c.totalOrders > 0 then (c.totalSpent as real / 100.0) / c.totalOrders as real else 0.0
  }

  /** `avgOrderValue`: the mean of the per-customer averages, 0 without customers. */
  function AvgOrderValue(customers: seq<Customer>): (r: real)
    ensures customers == [] ==> r == 0.0
    ensures customers != [] ==> r * |customers| as real == SumReal(customers, PerCustomerAverage)
  {
    if |customers| > 0 then SumReal(customers, PerCustomerAverage) / |customers| as real else 0.0
  }

  /**
   * A customer without orders adds nothing to the sum but still counts in the
   * divisor: adding one scales the average by n / (n + 1).
   */
  lemma IdleCustomerDilutes(customers: seq<Customer>, idle: Customer)
    requires idle.totalOrders <= 0
    ensures AvgOrderValue(customers + [idle]) * (|customers| + 1) as real
      == AvgOrderValue(customers) * |customers| as real
  {
    SumRealAppend(customers, [idle], PerCustomerAverage);
    assert SumReal([idle], PerCustomerAverage) == 0.0;
    var n := |customers| as real;
    var total := SumReal(customers, PerCustomerAverage);
    assert SumReal(customers + [idle], PerCustomerAverage) == total;
    if |customers| > 0 {
      assert AvgOrderValue(customers) * n == total;
    }
  }
}
