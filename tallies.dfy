/**
 * Counting by key, as `reduce((acc, x) => { acc[k] = (acc[k] || 0) + 1; return acc }, {})`
 * does it: a map from each key seen to its number of occurrences, together
 * with the keys in the order they were first inserted (the order in which a
 * JavaScript object lists its string keys).
 */
module Tallies {
  import opened Seqs

  /** How many elements of `s` have key `k`. */
  function Occurrences<T, K(==)>(s: seq<T>, key: T -> K, k: K): (n: nat)
    ensures n <= |s|
  {
    if s == [] then 0
    else Occurrences(s[..|s| - 1], key, k) + (if key(s[|s| - 1]) == k then 1 else 0)
  }

  /** The distinct keys of `s`, each at the place of its first occurrence. */
  function KeysInOrder<T, K(==)>(s: seq<T>, key: T -> K): seq<K>
  {
    if s == [] then []
    else
      var d := KeysInOrder(s[..|s| - 1], key);
      if key(s[|s| - 1]) in d then d else d + [key(s[|s| - 1])]
  }

  ghost predicate Distinct<K>(d: seq<K>)
  {
    forall i, j :: 0 <= i < j < |d| ==> d[i] != d[j]
  }

  /** The listed keys are exactly those that occur, each once. */
  lemma {:induction false} KeysInOrderExact<T, K>(s: seq<T>, key: T -> K)
    ensures forall k :: k in KeysInOrder(s, key) <==> Occurrences(s, key, k) > 0
    ensures Distinct(KeysInOrder(s, key))
  {
    if s != [] {
      KeysInOrderExact(s[..|s| - 1], key);
    }
  }

  /** `acc[k] || 0`: a missing key counts 0. */
  function CountOr<K>(counts: map<K, nat>, k: K): nat
  {
    if k in counts then counts[k] else 0
  }

  /** The reduce over `s`: one pass that bumps the count of each element's key. */
  method Tally<T, K(==)>(s: seq<T>, key: T -> K) returns (counts: map<K, nat>, order: seq<K>)
    ensures order == KeysInOrder(s, key)
    ensures forall k :: k in counts <==> k in order
    ensures forall k :: CountOr(counts, k) == Occurrences(s, key, k)
  {
    counts, order := map[], [];
    for i := 0 to |s|
      invariant order == KeysInOrder(s[..i], key)
      invariant forall k :: k in counts <==> k in order
      invariant forall k :: CountOr(counts, k) == Occurrences(s[..i], key, k)
    {
      var k := key(s[i]);
      assert s[..i + 1][..i] == s[..i];
      if k in counts {
        counts := counts[k := counts[k] + 1];
      } else {
        KeysInOrderExact(s[..i], key);
        counts := counts[k := 1];
        order := order + [k];
      }
    }
    assert s[..|s|] == s;
  }

  /** Count of each key, as a function to sum over. */
  function CountIn<T, K(==)>(s: seq<T>, key: T -> K): K -> int
  {
    (k: K) => Occurrences(s, key, k)
  }

  /** Two summands that agree on every listed key give the same sum. */
  lemma {:induction false} SumAgrees<K>(d: seq<K>, f: K -> int, g: K -> int)
    requires forall i :: 0 <= i < |d| ==> f(d[i]) == g(d[i])
    ensures Sum(d, f) == Sum(d, g)
  {
    if d != [] {
      SumAgrees(d[1..], f, g);
    }
  }

  /** Raising the summand by one at a key listed exactly once raises the sum by one. */
  lemma {:induction false} SumBump<K>(d: seq<K>, f: K -> int, g: K -> int, x: K)
    requires Distinct(d) && x in d
    requires forall k :: g(k) == f(k) + (if k == x then 1 else 0)
    ensures Sum(d, g) == Sum(d, f) + 1
  {
    if d[0] == x {
      forall i | 0 <= i < |d[1..]| ensures f(d[1..][i]) == g(d[1..][i]) {
        assert d[1..][i] == d[i + 1] != d[0];
      }
      SumAgrees(d[1..], f, g);
    } else {
      assert Distinct(d[1..]) by {
        forall i, j | 0 <= i < j < |d[1..]| ensures d[1..][i] != d[1..][j] {
          assert d[1..][i] == d[i + 1] && d[1..][j] == d[j + 1];
        }
      }
      SumBump(d[1..], f, g, x);
    }
  }

  /** The counts over the listed keys add up to the number of elements. */
  lemma {:induction false} TallyTotal<T, K>(s: seq<T>, key: T -> K)
    ensures Sum(KeysInOrder(s, key), CountIn(s, key)) == |s|
  {
    if s != [] {
      var p := s[..|s| - 1];
      var x := key(s[|s| - 1]);
      var d := KeysInOrder(p, key);
      TallyTotal(p, key);
      KeysInOrderExact(p, key);
      var f := CountIn(p, key);
      var g := CountIn(s, key);
      assert forall k :: g(k) == f(k) + (if k == x then 1 else 0);
      if x in d {
        SumBump(d, f, g, x);
      } else {
        forall i | 0 <= i < |d| ensures f(d[i]) == g(d[i]) {
          assert d[i] in d;
        }
        SumAgrees(d, f, g);
        SumAppend(d, [x], g);
        assert KeysInOrder(s, key) == d + [x];
        assert Sum([x], g) == g(x) == 1;
      }
    }
  }
}
