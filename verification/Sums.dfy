/** Sums over finite maps keyed by naturals, and ascending listings of finite sets. Both walk the
    numbers below a bound, so nothing here removes elements one at a time. */
module Sums {
  lemma {:induction false} HasGreatest(ids: set<nat>)
    requires ids != {}
    ensures exists m :: m in ids && forall x :: x in ids ==> x <= m
  {
    var k :| k in ids;
    var rest := ids - {k};
    assert ids == rest + {k};
    if rest == {} {
      assert forall x :: x in ids ==> x <= k;
    } else {
      HasGreatest(rest);
      var m :| m in rest && forall x :: x in rest ==> x <= m;
      var g := if k < m then m else k;
      assert g in ids && forall x :: x in ids ==> x <= g;
    }
  }

  /** A number above every element. */
  function Bound(ids: set<nat>): (n: nat)
    ensures forall x :: x in ids ==> x < n
  {
    if ids == {} then 0
    else
      HasGreatest(ids);
      var m :| m in ids && forall x :: x in ids ==> x <= m;
      m + 1
  }

  // ---------------------------------------------------------------- totals

  ghost function SumBelow(m: map<nat, int>, n: nat): int {
    if n == 0 then 0 else SumBelow(m, n - 1) + if n - 1 in m then m[n - 1] else 0
  }

  ghost function Total(m: map<nat, int>): int {
    SumBelow(m, Bound(m.Keys))
  }

  lemma {:induction false} SumBelowStable(m: map<nat, int>, n: nat, k: nat)
    requires n <= k && forall x :: x in m ==> x < n
    ensures SumBelow(m, k) == SumBelow(m, n)
  {
    if n < k {
      SumBelowStable(m, n, k - 1);
    }
  }

  lemma TotalIs(m: map<nat, int>, n: nat)
    requires forall x :: x in m ==> x < n
    ensures Total(m) == SumBelow(m, n)
  {
    var b := Bound(m.Keys);
    SumBelowStable(m, b, b + n);
    SumBelowStable(m, n, b + n);
  }

  lemma {:induction false} SumBelowUpdate(m: map<nat, int>, k: nat, v: int, n: nat)
    ensures SumBelow(m[k := v], n) == SumBelow(m, n) + if k < n then v - (if k in m then m[k] else 0) else 0
  {
    if n > 0 {
      SumBelowUpdate(m, k, v, n - 1);
    }
  }

  lemma TotalUpdate(m: map<nat, int>, k: nat, v: int)
    ensures Total(m[k := v]) == Total(m) + v - (if k in m then m[k] else 0)
  {
    var n := Bound(m.Keys) + k + 1;
    TotalIs(m, n);
    TotalIs(m[k := v], n);
    SumBelowUpdate(m, k, v, n);
  }

  lemma {:induction false} SumBelowMonotone(small: map<nat, int>, large: map<nat, int>, n: nat)
    requires forall k :: k in small ==> k in large && small[k] <= large[k]
    requires forall k :: k in large && k !in small ==> 0 <= large[k]
    ensures SumBelow(small, n) <= SumBelow(large, n)
  {
    if n > 0 {
      SumBelowMonotone(small, large, n - 1);
    }
  }

  lemma TotalMonotone(small: map<nat, int>, large: map<nat, int>)
    requires forall k :: k in small ==> k in large && small[k] <= large[k]
    requires forall k :: k in large && k !in small ==> 0 <= large[k]
    ensures Total(small) <= Total(large)
  {
    var n := Bound(large.Keys);
    TotalIs(small, n);
    SumBelowMonotone(small, large, n);
  }

  lemma {:induction false} SumBelowSame(m: map<nat, int>, m': map<nat, int>, n: nat)
    requires forall k :: k in m && k in m' ==> m[k] == m'[k]
    requires forall k :: k in m && k !in m' ==> m[k] == 0
    requires forall k :: k in m' && k !in m ==> m'[k] == 0
    ensures SumBelow(m, n) == SumBelow(m', n)
  {
    if n > 0 {
      SumBelowSame(m, m', n - 1);
    }
  }

  /** Zero summands do not matter. */
  lemma TotalSame(m: map<nat, int>, m': map<nat, int>)
    requires forall k :: k in m && k in m' ==> m[k] == m'[k]
    requires forall k :: k in m && k !in m' ==> m[k] == 0
    requires forall k :: k in m' && k !in m ==> m'[k] == 0
    ensures Total(m) == Total(m')
  {
    var n := Bound(m.Keys) + Bound(m'.Keys);
    TotalIs(m, n);
    TotalIs(m', n);
    SumBelowSame(m, m', n);
  }

  lemma TotalEmpty()
    ensures Total(map[]) == 0
  {
    TotalIs(map[], 0);
  }

  /** Every summand of a sum of non-negative numbers is at most the sum. */
  lemma TotalAtLeast(m: map<nat, int>, k: nat)
    requires forall x :: x in m ==> 0 <= m[x]
    requires k in m
    ensures m[k] <= Total(m)
  {
    TotalMonotone(map[k := m[k]], m);
    TotalUpdate(map[], k, m[k]);
    TotalEmpty();
    assert map[][k := m[k]] == map[k := m[k]];
  }

  lemma TotalNonNegative(m: map<nat, int>)
    requires forall k :: k in m ==> 0 <= m[k]
    ensures 0 <= Total(m)
  {
    TotalMonotone(map[], m);
    TotalEmpty();
  }

  // ---------------------------------------------------------------- ascending listings

  predicate Ascending(ids: seq<nat>) {
    forall i, j :: 0 <= i < j < |ids| ==> ids[i] < ids[j]
  }

  function Listing(ids: set<nat>, n: nat): seq<nat> {
    if n == 0 then [] else Listing(ids, n - 1) + if n - 1 in ids then [n - 1] else []
  }

  function Sorted(ids: set<nat>): seq<nat> {
    Listing(ids, Bound(ids))
  }

  lemma {:induction false} ListingExact(ids: set<nat>, n: nat)
    ensures Ascending(Listing(ids, n))
    ensures forall x :: x in Listing(ids, n) <==> x in ids && x < n
  {
    if n > 0 {
      ListingExact(ids, n - 1);
      var before := Listing(ids, n - 1);
      forall i, j | 0 <= i < j < |Listing(ids, n)| ensures Listing(ids, n)[i] < Listing(ids, n)[j] {
        assert before[i] in before;
      }
    }
  }

  lemma SortedExact(ids: set<nat>)
    ensures Ascending(Sorted(ids))
    ensures forall x :: x in Sorted(ids) <==> x in ids
  {
    ListingExact(ids, Bound(ids));
  }
}
