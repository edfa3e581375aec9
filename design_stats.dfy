/** The aggregate figures a design reports over its accepted links. */
module DesignStats {
  import opened Cables

  /** The total cost of the links: links of non-negative cost have a
      non-negative total. */
  function SumCost(s: seq<Candidate>): (r: real)
    ensures (forall i :: 0 <= i < |s| ==> s[i].cost >= 0.0) ==> r >= 0.0
  {
    if s == [] then 0.0 else SumCost(s[..|s| - 1]) + s[|s| - 1].cost
  }

  /** The total cable length: links of non-negative length have a
      non-negative total. */
  function SumDistance(s: seq<Candidate>): (r: real)
    ensures (forall i :: 0 <= i < |s| ==> s[i].distance >= 0.0) ==> r >= 0.0
  {
    if s == [] then 0.0 else SumDistance(s[..|s| - 1]) + s[|s| - 1].distance
  }

  /** Links counted as fiber: cable type "fiber". */
  function CountFiber(s: seq<Candidate>): (r: nat)
    ensures r <= |s|
  {
    if s == [] then 0 else CountFiber(s[..|s| - 1]) + (if s[|s| - 1].cableType == "fiber" then 1 else 0)
  }

  /** Links counted as copper: every link whose cable type is not "fiber". */
  function CountCopper(s: seq<Candidate>): (r: nat)
    ensures r <= |s|
  {
    if s == [] then 0 else CountCopper(s[..|s| - 1]) + (if s[|s| - 1].cableType == "fiber" then 0 else 1)
  }

  /** Appending a link adds its cost, its length and one to its cable's count. */
  lemma FiguresSnoc(s: seq<Candidate>, c: Candidate)
    ensures SumCost(s + [c]) == SumCost(s) + c.cost
    ensures SumDistance(s + [c]) == SumDistance(s) + c.distance
    ensures CountFiber(s + [c]) == CountFiber(s) + (if c.cableType == "fiber" then 1 else 0)
    ensures CountCopper(s + [c]) == CountCopper(s) + (if c.cableType == "fiber" then 0 else 1)
  {
    assert (s + [c])[..|s|] == s;
  }

  /** Every accepted link is counted once, as fiber or as copper. */
  lemma {:induction false} FiberCopperSplit(s: seq<Candidate>)
    ensures CountFiber(s) + CountCopper(s) == |s|
  {
    if s != [] {
      FiberCopperSplit(s[..|s| - 1]);
    }
  }
}
