/** Ordering candidates by cost, as the design step does with Python's
    `sorted(..., key=cost)`: ascending cost, and candidates of equal cost keep
    the order in which they were added (the sort is stable). */
module CostOrder {
  import opened Cables

  ghost predicate SortedByCost(s: seq<Candidate>)
  {
    forall i, j :: 0 <= i < j < |s| ==> s[i].cost <= s[j].cost
  }

  /** The candidates of `s` whose cost is exactly `k`, in their order in `s`. */
  function WithCost(s: seq<Candidate>, k: real): seq<Candidate>
  {
    if s == [] then []
    else (if s[0].cost == k then [s[0]] else []) + WithCost(s[1..], k)
  }

  /** A candidate no dearer than the head of a sorted list can go in front. */
  lemma ConsSorted(y: Candidate, s: seq<Candidate>)
    requires SortedByCost(s) && (s == [] || y.cost <= s[0].cost)
    ensures SortedByCost([y] + s)
  {
    forall i, j | 0 <= i < j < |[y] + s| ensures ([y] + s)[i].cost <= ([y] + s)[j].cost {
      if i == 0 && j > 1 {
        assert s[0].cost <= s[j - 1].cost;
      }
    }
  }

  /** Inserts `x` before the first candidate that costs at least as much. */
  function Insert(x: Candidate, s: seq<Candidate>): (r: seq<Candidate>)
    requires SortedByCost(s)
    ensures SortedByCost(r)
    ensures multiset(r) == multiset(s) + multiset{x}
    ensures |r| == |s| + 1 && (r[0] == x || (s != [] && r[0] == s[0]))
  {
    if s == [] || x.cost <= s[0].cost then
      ConsSorted(x, s);
      [x] + s
    else
      var rest := Insert(x, s[1..]);
      ConsSorted(s[0], rest);
      ConsMultiset(s, rest, x);
      [s[0]] + rest
  }

  /** Putting the head of `s` back in front of a list that holds the rest of
      `s` and `x` gives a list that holds all of `s` and `x`. */
  lemma ConsMultiset(s: seq<Candidate>, rest: seq<Candidate>, x: Candidate)
    requires s != [] && multiset(rest) == multiset(s[1..]) + multiset{x}
    ensures multiset([s[0]] + rest) == multiset(s) + multiset{x}
  {
    assert s == [s[0]] + s[1..];
  }

  /** Candidates in ascending cost; ties stay in input order. */
  function SortByCost(s: seq<Candidate>): (r: seq<Candidate>)
    ensures SortedByCost(r)
    ensures multiset(r) == multiset(s)
  {
    if s == [] then []
    else
      assert s == [s[0]] + s[1..];
      Insert(s[0], SortByCost(s[1..]))
  }

  /** The candidates of cost `k` in a one-element list. */
  lemma WithCostSingle(x: Candidate, k: real)
    ensures WithCost([x], k) == if x.cost == k then [x] else []
  {
    assert [x][1..] == [];
  }

  lemma WithCostCons(x: Candidate, s: seq<Candidate>, k: real)
    ensures WithCost([x] + s, k) == WithCost([x], k) + WithCost(s, k)
  {
    assert ([x] + s)[1..] == s;
    WithCostSingle(x, k);
  }

  lemma {:induction false} InsertKeepsTies(x: Candidate, s: seq<Candidate>, k: real)
    requires SortedByCost(s)
    ensures WithCost(Insert(x, s), k) == WithCost([x], k) + WithCost(s, k)
    decreases |s|
  {
    if s == [] || x.cost <= s[0].cost {
      WithCostCons(x, s, k);
    } else {
      var rest := Insert(x, s[1..]);
      assert Insert(x, s) == [s[0]] + rest;
      InsertKeepsTies(x, s[1..], k);
      WithCostCons(s[0], rest, k);
      assert s == [s[0]] + s[1..];
      WithCostCons(s[0], s[1..], k);
      WithCostSingle(x, k);
      WithCostSingle(s[0], k);
      SwapPastEmpty(WithCost([s[0]], k), WithCost([x], k), WithCost(s[1..], k));
    }
  }

  /** Two lists of which one is empty can trade places in front of a third. */
  lemma SwapPastEmpty(a: seq<Candidate>, b: seq<Candidate>, c: seq<Candidate>)
    requires a == [] || b == []
    ensures a + (b + c) == b + (a + c)
  {
    if a == [] {
      assert a + (b + c) == b + c == b + (a + c);
    } else {
      assert a + (b + c) == a + c == b + (a + c);
    }
  }

  /** The sort is stable: among candidates of any one cost, the sorted list
      keeps exactly the input order. */
  lemma {:induction false} SortByCostIsStable(s: seq<Candidate>, k: real)
    ensures WithCost(SortByCost(s), k) == WithCost(s, k)
  {
    if s != [] {
      var tail := SortByCost(s[1..]);
      SortByCostIsStable(s[1..], k);
      InsertKeepsTies(s[0], tail, k);
      assert SortByCost(s) == Insert(s[0], tail);
      WithCostCons(s[0], s[1..], k);
      assert s == [s[0]] + s[1..];
    }
  }
}
