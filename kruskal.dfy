/** The budget-constrained Kruskal scan as a specification: a left fold over
    the cost-sorted candidates that accepts a candidate exactly when its two
    ends lie in different sets and the running total plus its cost stays
    within the budget. The scan never stops early. Connectivity is tracked as
    an abstract partition (see module Partition), so this definition is
    independent of the disjoint-set forest that the design method uses. */
module Kruskal {
  import opened Cables
  import opened Partition
  import opened CostOrder
  import opened DesignStats

  /** Every candidate's two ends are among `keys`. */
  ghost predicate Endpoints(cands: seq<Candidate>, keys: set<Name>)
  {
    forall i :: 0 <= i < |cands| ==> cands[i].loc1 in keys && cands[i].loc2 in keys
  }

  /** The state of the scan: links accepted so far, the partition of the
      locations, and the running total cost. */
  datatype Scan = Scan(accepted: seq<Candidate>, comp: map<Name, Name>, spent: real)

  ghost predicate Accepts(s: Scan, c: Candidate, budget: real)
    requires c.loc1 in s.comp && c.loc2 in s.comp
  {
    s.comp[c.loc1] != s.comp[c.loc2] && s.spent + c.cost <= budget
  }

  /** One iteration of the scan: a candidate is appended, paid for and its
      ends joined exactly when its ends are apart and it fits in what is
      left of the budget; otherwise nothing changes. */
  ghost function Step(s: Scan, c: Candidate, budget: real): (r: Scan)
    requires c.loc1 in s.comp && c.loc2 in s.comp
    ensures r.comp.Keys == s.comp.Keys
    ensures r.accepted == s.accepted + [c] || r == s
    ensures r.accepted != s.accepted <==> s.comp[c.loc1] != s.comp[c.loc2] && s.spent + c.cost <= budget
    ensures r.accepted != s.accepted ==> r.spent == s.spent + c.cost && r.comp[c.loc1] == r.comp[c.loc2]
  {
    if Accepts(s, c, budget) then Scan(s.accepted + [c], Merge(s.comp, c.loc1, c.loc2), s.spent + c.cost)
    else s
  }

  /** The scan over all of `cands`, starting from partition `comp0`. */
  ghost function Scanned(cands: seq<Candidate>, budget: real, comp0: map<Name, Name>): (r: Scan)
    requires Endpoints(cands, comp0.Keys)
    ensures r.comp.Keys == comp0.Keys
    ensures |r.accepted| <= |cands|
    decreases |cands|
  {
    if cands == [] then Scan([], comp0, 0.0)
    else
      var prev := Scanned(cands[..|cands| - 1], budget, comp0);
      Step(prev, cands[|cands| - 1], budget)
  }

  /** One more candidate extends the scan by one step. */
  lemma ScannedSnoc(cands: seq<Candidate>, i: nat, j: nat, budget: real, comp0: map<Name, Name>)
    requires Endpoints(cands, comp0.Keys) && j == i + 1 && j <= |cands|
    ensures Endpoints(cands[..i], comp0.Keys) && Endpoints(cands[..j], comp0.Keys)
    ensures Scanned(cands[..j], budget, comp0) == Step(Scanned(cands[..i], budget, comp0), cands[i], budget)
  {
    assert cands[..j][..i] == cands[..i];
  }

  /** Reordering the candidates keeps their ends among `keys` and keeps them
      priced. */
  lemma PermutationKeepsEndpoints(s: seq<Candidate>, t: seq<Candidate>, keys: set<Name>)
    requires multiset(s) == multiset(t) && Endpoints(s, keys)
    requires forall i :: 0 <= i < |s| ==> Priced(s[i])
    ensures Endpoints(t, keys)
    ensures forall i :: 0 <= i < |t| ==> Priced(t[i])
  {
    forall i | 0 <= i < |t| ensures t[i].loc1 in keys && t[i].loc2 in keys && Priced(t[i]) {
      assert t[i] in multiset(s);
      var j :| 0 <= j < |s| && s[j] == t[i];
    }
  }

  /** The partition after joining the ends of every edge, in order. */
  ghost function MergeAll(comp: map<Name, Name>, edges: seq<Candidate>): (r: map<Name, Name>)
    requires Endpoints(edges, comp.Keys)
    ensures r.Keys == comp.Keys
    decreases |edges|
  {
    if edges == [] then comp
    else
      var e := edges[|edges| - 1];
      Merge(MergeAll(comp, edges[..|edges| - 1]), e.loc1, e.loc2)
  }

  /** Each edge joins two locations that the edges before it (over the
      starting partition `comp`) had not yet connected: the edges form a
      forest over the sets of `comp`. */
  ghost predicate ForestOver(comp: map<Name, Name>, edges: seq<Candidate>)
    requires Endpoints(edges, comp.Keys)
    decreases |edges|
  {
    edges == [] ||
    (var init, e := edges[..|edges| - 1], edges[|edges| - 1];
     ForestOver(comp, init) && MergeAll(comp, init)[e.loc1] != MergeAll(comp, init)[e.loc2])
  }

  /** `xs` is `ys` with some elements left out. */
  ghost predicate Subseq(xs: seq<Candidate>, ys: seq<Candidate>)
    decreases |ys|
  {
    if ys == [] then xs == []
    else
      Subseq(xs, ys[..|ys| - 1])
      || (xs != [] && xs[|xs| - 1] == ys[|ys| - 1] && Subseq(xs[..|xs| - 1], ys[..|ys| - 1]))
  }

  /** The final partition is the starting one with the ends of every
      accepted link joined, in order of acceptance. */
  lemma {:induction false} ScannedMerges(cands: seq<Candidate>, budget: real, comp0: map<Name, Name>)
    requires Endpoints(cands, comp0.Keys)
    ensures var r := Scanned(cands, budget, comp0);
            Endpoints(r.accepted, comp0.Keys) && r.comp == MergeAll(comp0, r.accepted)
    decreases |cands|
  {
    if cands != [] {
      var init, c := cands[..|cands| - 1], cands[|cands| - 1];
      ScannedMerges(init, budget, comp0);
      var prev := Scanned(init, budget, comp0);
      if Accepts(prev, c, budget) {
        var acc := prev.accepted + [c];
        assert acc[..|acc| - 1] == prev.accepted;
      }
    }
  }

  /** The accepted links form a forest over the starting partition: each
      joined two locations that were in different sets just before it was
      accepted. */
  lemma {:induction false} ScannedIsForest(cands: seq<Candidate>, budget: real, comp0: map<Name, Name>)
    requires Endpoints(cands, comp0.Keys)
    ensures var r := Scanned(cands, budget, comp0);
            Endpoints(r.accepted, comp0.Keys) && ForestOver(comp0, r.accepted)
    decreases |cands|
  {
    ScannedMerges(cands, budget, comp0);
    if cands != [] {
      var init, c := cands[..|cands| - 1], cands[|cands| - 1];
      ScannedIsForest(init, budget, comp0);
      ScannedMerges(init, budget, comp0);
      var prev := Scanned(init, budget, comp0);
      if Accepts(prev, c, budget) {
        var acc := prev.accepted + [c];
        assert acc[..|acc| - 1] == prev.accepted;
      }
    }
  }

  /** Every edge of a forest removes exactly one set. */
  lemma {:induction false} ForestEdgeCount(comp: map<Name, Name>, edges: seq<Candidate>)
    requires Endpoints(edges, comp.Keys) && ForestOver(comp, edges)
    ensures |edges| + |Labels(MergeAll(comp, edges))| == |Labels(comp)|
    decreases |edges|
  {
    if edges != [] {
      var init, e := edges[..|edges| - 1], edges[|edges| - 1];
      ForestEdgeCount(comp, init);
      MergeDropsOneLabel(MergeAll(comp, init), e.loc1, e.loc2);
    }
  }

  /** Each accepted link joins two sets, so the accepted links number the
      sets lost; in particular there are fewer of them than locations. */
  lemma ScannedEdgeCount(cands: seq<Candidate>, budget: real, comp0: map<Name, Name>)
    requires Endpoints(cands, comp0.Keys)
    ensures var r := Scanned(cands, budget, comp0);
            && |r.accepted| + |Labels(r.comp)| == |Labels(comp0)|
            && (r.accepted != [] ==> |r.accepted| <= |comp0| - 1)
  {
    var r := Scanned(cands, budget, comp0);
    ScannedMerges(cands, budget, comp0);
    ScannedIsForest(cands, budget, comp0);
    ForestEdgeCount(comp0, r.accepted);
    LabelsBound(comp0);
    LabelsBound(r.comp);
    if r.accepted != [] {
      assert r.accepted[0].loc1 in r.comp;
    }
  }

  /** When every location already lies in one set, as after an earlier run
      that connected everything, the scan accepts nothing. */
  lemma ScannedOnConnectedAcceptsNothing(cands: seq<Candidate>, budget: real, comp0: map<Name, Name>)
    requires Endpoints(cands, comp0.Keys)
    requires |Labels(comp0)| <= 1
    ensures Scanned(cands, budget, comp0).accepted == []
  {
    var r := Scanned(cands, budget, comp0);
    ScannedEdgeCount(cands, budget, comp0);
    ScannedMerges(cands, budget, comp0);
    if r.accepted != [] {
      assert r.accepted[0].loc1 in r.comp;
      LabelsBound(r.comp);
    }
  }

  /** The running total is the sum of the accepted costs, and once anything
      is accepted it never exceeds the budget. */
  lemma {:induction false} ScannedWithinBudget(cands: seq<Candidate>, budget: real, comp0: map<Name, Name>)
    requires Endpoints(cands, comp0.Keys)
    ensures var r := Scanned(cands, budget, comp0);
            && r.spent == SumCost(r.accepted)
            && (r.spent <= budget || r.accepted == [])
    decreases |cands|
  {
    if cands != [] {
      var init, c := cands[..|cands| - 1], cands[|cands| - 1];
      ScannedWithinBudget(init, budget, comp0);
      var prev := Scanned(init, budget, comp0);
      if Accepts(prev, c, budget) {
        var acc := prev.accepted + [c];
        assert acc[..|acc| - 1] == prev.accepted;
      }
    }
  }

  /** When no candidate has a negative cost, the scan never spends a
      negative amount. */
  lemma {:induction false} ScannedSpendingNonNegative(cands: seq<Candidate>, budget: real, comp0: map<Name, Name>)
    requires Endpoints(cands, comp0.Keys)
    requires forall i :: 0 <= i < |cands| ==> cands[i].cost >= 0.0
    ensures Scanned(cands, budget, comp0).spent >= 0.0
    decreases |cands|
  {
    if cands != [] {
      var init := cands[..|cands| - 1];
      assert forall i :: 0 <= i < |init| ==> init[i] == cands[i];
      ScannedSpendingNonNegative(init, budget, comp0);
    }
  }

  /** When every candidate alone costs more than the budget, nothing is
      accepted and nothing is spent. */
  lemma {:induction false} ScannedOverBudgetAcceptsNothing(cands: seq<Candidate>, budget: real, comp0: map<Name, Name>)
    requires Endpoints(cands, comp0.Keys)
    requires forall i :: 0 <= i < |cands| ==> cands[i].cost > budget
    ensures Scanned(cands, budget, comp0).accepted == []
    ensures Scanned(cands, budget, comp0).spent == 0.0
    decreases |cands|
  {
    if cands != [] {
      ScannedOverBudgetAcceptsNothing(cands[..|cands| - 1], budget, comp0);
    }
  }

  /** The accepted links appear in the order of the candidate list. */
  lemma {:induction false} ScannedIsSubsequence(cands: seq<Candidate>, budget: real, comp0: map<Name, Name>)
    requires Endpoints(cands, comp0.Keys)
    ensures Subseq(Scanned(cands, budget, comp0).accepted, cands)
    decreases |cands|
  {
    if cands != [] {
      var init, c := cands[..|cands| - 1], cands[|cands| - 1];
      ScannedIsSubsequence(init, budget, comp0);
      var prev := Scanned(init, budget, comp0);
      if Accepts(prev, c, budget) {
        var acc := prev.accepted + [c];
        assert acc[..|acc| - 1] == prev.accepted;
      }
    }
  }

  lemma {:induction false} SubseqMembers(xs: seq<Candidate>, ys: seq<Candidate>, i: nat)
    requires Subseq(xs, ys) && i < |xs|
    ensures exists j :: 0 <= j < |ys| && ys[j] == xs[i]
    decreases |ys|
  {
    var ys' := ys[..|ys| - 1];
    if Subseq(xs, ys') {
      SubseqMembers(xs, ys', i);
      var j :| 0 <= j < |ys'| && ys'[j] == xs[i];
      assert ys[j] == xs[i];
    } else if i < |xs| - 1 {
      SubseqMembers(xs[..|xs| - 1], ys', i);
      var j :| 0 <= j < |ys'| && ys'[j] == xs[i];
      assert ys[j] == xs[i];
    } else {
      assert ys[|ys| - 1] == xs[i];
    }
  }

  /** A subsequence of a cost-sorted list is cost-sorted. */
  lemma {:induction false} SubseqOfSorted(xs: seq<Candidate>, ys: seq<Candidate>)
    requires Subseq(xs, ys) && SortedByCost(ys)
    ensures SortedByCost(xs)
    decreases |ys|
  {
    if ys != [] {
      var ys' := ys[..|ys| - 1];
      if Subseq(xs, ys') {
        SubseqOfSorted(xs, ys');
      } else {
        var xs' := xs[..|xs| - 1];
        SubseqOfSorted(xs', ys');
        forall i | 0 <= i < |xs'| ensures xs[i].cost <= xs[|xs| - 1].cost {
          SubseqMembers(xs', ys', i);
        }
      }
    }
  }

  /** Over a cost-sorted candidate list, links are accepted in non-decreasing
      cost order. */
  lemma ScannedInCostOrder(cands: seq<Candidate>, budget: real, comp0: map<Name, Name>)
    requires Endpoints(cands, comp0.Keys) && SortedByCost(cands)
    ensures SortedByCost(Scanned(cands, budget, comp0).accepted)
  {
    ScannedIsSubsequence(cands, budget, comp0);
    SubseqOfSorted(Scanned(cands, budget, comp0).accepted, cands);
  }
}
