/** The network designer itself: the registry of locations and candidate
    links, the disjoint-set forest over location names (`parent`, `rank`),
    and the budget-constrained Kruskal design step. */
module Network {
  import opened Wrappers
  import opened Cables
  import opened Partition
  import opened DisjointSet
  import opened ForestPartition
  import opened CostOrder
  import opened DesignStats
  import opened Kruskal

  /** A registered location, as the record stored in `locations`. */
  datatype Location = Location(
    name: Name,
    locationType: string,
    devices: int,
    coordinates: (real, real),
    connections: seq<Candidate>,
    bandwidthRequirement: int)

  /** The summary the design step returns. */
  datatype Design = Design(
    optimalConnections: seq<Candidate>,
    totalCost: real,
    totalCableLength: real,
    fiberConnections: nat,
    copperConnections: nat,
    remainingBudget: real)

  /** The copies of link `c` that an end `n` lists: one per end of `c`
      that is `n`, first end first. */
  function Ends(c: Candidate, n: Name): (r: seq<Candidate>)
    ensures |r| == (if c.loc1 == n then 1 else 0) + (if c.loc2 == n then 1 else 0)
    ensures forall i :: 0 <= i < |r| ==> r[i] == c
  {
    (if c.loc1 == n then [c] else []) + (if c.loc2 == n then [c] else [])
  }

  /** The links of `edges` at location `n`, in order: a link is listed once
      for each of its ends that is `n`. */
  function Incident(edges: seq<Candidate>, n: Name): seq<Candidate>
  {
    if edges == [] then []
    else Incident(edges[..|edges| - 1], n) + Ends(edges[|edges| - 1], n)
  }

  lemma IncidentSnoc(edges: seq<Candidate>, e: Candidate, n: Name)
    ensures Incident(edges + [e], n) == Incident(edges, n) + Ends(e, n)
  {
    assert (edges + [e])[..|edges|] == edges;
  }

  /** Union by rank's choice between two roots, as (loser, winner): the root
      of lower rank goes under the other, and on a tie the second goes under
      the first. */
  function LinkOrder(rank: map<Name, nat>, root1: Name, root2: Name): (r: (Name, Name))
    requires root1 in rank && root2 in rank
    ensures (r.0 == root1 && r.1 == root2) || (r.0 == root2 && r.1 == root1)
    ensures rank[r.0] <= rank[r.1]
    ensures r.1 == root1 <==> rank[root2] <= rank[root1]
  {
    if rank[root1] < rank[root2] then (root1, root2) else (root2, root1)
  }

  /** The ranks after union by rank links `root1` and `root2`: only a tie
      raises a rank, that of the first root. */
  function RanksAfterLink(rank: map<Name, nat>, root1: Name, root2: Name): (r: map<Name, nat>)
    requires root1 in rank && root2 in rank
    ensures r.Keys == rank.Keys
    ensures forall y {:trigger r[y]} :: y in rank && y != root1 ==> r[y] == rank[y]
    ensures r[root1] == if rank[root1] == rank[root2] then rank[root1] + 1 else rank[root1]
  {
    if rank[root1] == rank[root2] then rank[root1 := rank[root1] + 1] else rank
  }

  /** Union by rank leaves the new root strictly above the old one's rank,
      so the rank invariant survives the link. */
  lemma LinkOrderRaisesWinner(rank: map<Name, nat>, root1: Name, root2: Name)
    requires root1 in rank && root2 in rank
    ensures var (loser, winner) := LinkOrder(rank, root1, root2);
            var rank' := RanksAfterLink(rank, root1, root2);
            && (rank' == rank || rank' == rank[winner := rank[winner] + 1])
            && rank[loser] < rank'[winner]
  {
  }

  /** What the design step computes from the candidates, the budget and the
      forest it starts from: the greedy scan over the candidates sorted by
      cost, starting from the forest's partition. */
  ghost function PlannedScan(cands: seq<Candidate>, budget: real, parent: map<Name, Name>, level: map<Name, nat>): Scan
    requires Leveled(parent, level) && Endpoints(cands, parent.Keys)
    requires forall i :: 0 <= i < |cands| ==> Priced(cands[i])
  {
    var sorted := SortByCost(cands);
    PermutationKeepsEndpoints(cands, sorted, parent.Keys);
    Scanned(sorted, budget, RootsOver(parent, level, parent.Keys))
  }

  /** What the plan of a design run guarantees: the accepted links come in
      non-decreasing cost and in the order of the stably sorted candidates,
      the spending is their total cost and stays within the budget once
      anything is accepted, every accepted link joined two sets that were
      still apart (a forest), so there are fewer of them than locations, and
      each of them is counted once as fiber or as copper. */
  lemma PlanGuarantees(cands: seq<Candidate>, budget: real, parent: map<Name, Name>, level: map<Name, nat>)
    requires Leveled(parent, level) && Endpoints(cands, parent.Keys)
    requires forall i :: 0 <= i < |cands| ==> Priced(cands[i])
    ensures var s := PlannedScan(cands, budget, parent, level);
            && SortedByCost(s.accepted)
            && Subseq(s.accepted, SortByCost(cands))
            && s.spent == SumCost(s.accepted) && (s.spent <= budget || s.accepted == [])
            && 0.0 <= s.spent
            && Endpoints(s.accepted, parent.Keys)
            && ForestOver(RootsOver(parent, level, parent.Keys), s.accepted)
            && (s.accepted != [] ==> |s.accepted| <= |parent| - 1)
            && CountFiber(s.accepted) + CountCopper(s.accepted) == |s.accepted|
  {
    var sorted := SortByCost(cands);
    PermutationKeepsEndpoints(cands, sorted, parent.Keys);
    var comp0 := RootsOver(parent, level, parent.Keys);
    ScannedInCostOrder(sorted, budget, comp0);
    ScannedIsSubsequence(sorted, budget, comp0);
    ScannedWithinBudget(sorted, budget, comp0);
    ScannedIsForest(sorted, budget, comp0);
    ScannedEdgeCount(sorted, budget, comp0);
    FiberCopperSplit(Scanned(sorted, budget, comp0).accepted);
    forall i | 0 <= i < |sorted| ensures sorted[i].cost >= 0.0 {
      assert Priced(sorted[i]);
    }
    ScannedSpendingNonNegative(sorted, budget, comp0);
    assert |comp0| == |comp0.Keys| == |parent.Keys| == |parent|;
  }

  /** The union-find part of the invariant: every parent chain is finite
      and every location of the forest has a rank. */
  ghost predicate Forested(parent: map<Name, Name>, rank: map<Name, nat>, level: map<Name, nat>)
  {
    Leveled(parent, level) && rank.Keys == parent.Keys
  }

  /** The designer's invariant: the forest is finite and covers exactly the
      registered names, every record is filed under its own name, and every
      candidate joins registered locations and is priced by the table. */
  ghost predicate Consistent(locations: map<Name, Location>, cands: seq<Candidate>,
                             parent: map<Name, Name>, rank: map<Name, nat>, level: map<Name, nat>)
  {
    && Forested(parent, rank, level)
    && parent.Keys == locations.Keys
    && (forall n {:trigger locations[n]} :: n in locations ==> locations[n].name == n)
    && Endpoints(cands, locations.Keys)
    && (forall i :: 0 <= i < |cands| ==> Priced(cands[i]))
  }

  /** Registering a location keeps the invariant and makes its name a root. */
  lemma RegisterConsistent(locations: map<Name, Location>, cands: seq<Candidate>,
                           parent: map<Name, Name>, rank: map<Name, nat>, level: map<Name, nat>, loc: Location)
    requires Consistent(locations, cands, parent, rank, level)
    ensures Consistent(locations[loc.name := loc], cands, parent[loc.name := loc.name], rank[loc.name := 0],
                       RegisterLevel(parent, level, loc.name))
    ensures Root(parent[loc.name := loc.name], RegisterLevel(parent, level, loc.name), loc.name) == loc.name
    ensures loc.name !in parent && RankOrdered(parent, rank) ==> RankOrdered(parent[loc.name := loc.name], rank[loc.name := 0])
  {
    RegisterRoot(parent, level, rank, loc.name);
  }

  /** One path-compression step: pointing `x` at the root `top` found above
      it keeps the forest finite and every location's root. */
  lemma CompressForest(before: map<Name, Name>, mid: map<Name, Name>, rank: map<Name, nat>, level: map<Name, nat>,
                       x: Name, top: Name)
    requires Forested(before, rank, level) && Forested(mid, rank, level)
    requires x in before && ParentOf(before, x) != x
    requires top == Root(before, level, before[x])
    requires forall y {:trigger Root(mid, level, y)} :: y in mid ==> Root(mid, level, y) == Root(before, level, y)
    requires mid.Keys == before.Keys
    ensures Forested(mid[x := top], rank, level) && mid[x := top].Keys == before.Keys
    ensures top == Root(before, level, x)
    ensures forall y {:trigger Root(mid[x := top], level, y)} :: y in mid ==> Root(mid[x := top], level, y) == Root(before, level, y)
    ensures RankOrdered(mid, rank) ==> RankOrdered(mid[x := top], rank)
  {
    assert Root(mid, level, x) == top;
    CompressKeepsRoots(mid, level, x, top);
    if RankOrdered(mid, rank) {
      CompressRankOrdered(mid, level, rank, x, top);
    }
    forall y {:trigger Root(mid[x := top], level, y)} | y in mid
      ensures Root(mid[x := top], level, y) == Root(before, level, y)
    {
      assert Root(mid[x := top], level, y) == Root(mid, level, y);
    }
  }

  /** Union by rank's link of two roots keeps the forest finite, moves
      exactly the loser's set under the winner, and keeps the rank invariant. */
  lemma LinkForest(parent: map<Name, Name>, rank: map<Name, nat>, level: map<Name, nat>, root1: Name, root2: Name)
    requires Forested(parent, rank, level)
    requires root1 in parent && root2 in parent && parent[root1] == root1 && parent[root2] == root2
    ensures var (loser, winner) := LinkOrder(rank, root1, root2);
            var parent', level' := parent[loser := winner], Raise(level, winner, loser);
            && Forested(parent', RanksAfterLink(rank, root1, root2), level') && parent'.Keys == parent.Keys
            && (forall y {:trigger Root(parent', level', y)} :: y in parent ==>
                  Root(parent', level', y) == if Root(parent, level, y) == loser then winner else Root(parent, level, y))
            && (RankOrdered(parent, rank) ==> RankOrdered(parent', RanksAfterLink(rank, root1, root2)))
  {
    var (loser, winner) := LinkOrder(rank, root1, root2);
    LinkRoots(parent, level, loser, winner, Raise(level, winner, loser));
    if RankOrdered(parent, rank) {
      LinkOrderRaisesWinner(rank, root1, root2);
      LinkRankOrdered(parent, rank, loser, winner, RanksAfterLink(rank, root1, root2));
    }
  }

  /** `parent`, `rank`, `level` is what union by rank makes of `parent0`,
      `rank0`, `level0` when asked to join `loc1` and `loc2`: with `root1`
      and `root2` their roots before, the forest is still finite over the
      same locations, exactly the set of the loser of `LinkOrder` now hangs
      under the winner, only a tie raises a rank (that of `root1`), the two
      locations share a root, and the rank invariant is kept. */
  ghost predicate Unioned(parent0: map<Name, Name>, rank0: map<Name, nat>, level0: map<Name, nat>, loc1: Name, loc2: Name,
                          parent: map<Name, Name>, rank: map<Name, nat>, level: map<Name, nat>)
  {
    && Forested(parent0, rank0, level0) && loc1 in parent0 && loc2 in parent0
    && var root1, root2 := Root(parent0, level0, loc1), Root(parent0, level0, loc2);
       var (loser, winner) := LinkOrder(rank0, root1, root2);
       && Forested(parent, rank, level) && parent.Keys == parent0.Keys
       && rank == RanksAfterLink(rank0, root1, root2)
       && (forall y {:trigger Root(parent, level, y)} :: y in parent ==>
             Root(parent, level, y) == if Root(parent0, level0, y) == loser then winner else Root(parent0, level0, y))
       && Root(parent, level, loc1) == Root(parent, level, loc2)
       && (RankOrdered(parent0, rank0) ==> RankOrdered(parent, rank))
  }

  /** The effect of `union_locations` on the forest, from the two finds to the
      link: the set of `loc1` and the set of `loc2` become one, by rank. */
  lemma {:induction false} UnionEffect(start: map<Name, Name>, mid1: map<Name, Name>, mid: map<Name, Name>,
                    rank: map<Name, nat>, level: map<Name, nat>, loc1: Name, loc2: Name, root1: Name, root2: Name)
    requires Forested(start, rank, level) && Forested(mid1, rank, level) && Forested(mid, rank, level)
    requires mid1.Keys == start.Keys && mid.Keys == start.Keys && loc1 in start && loc2 in start
    requires root1 == Root(start, level, loc1)
    requires forall y {:trigger Root(mid1, level, y)} :: y in mid1 ==> Root(mid1, level, y) == Root(start, level, y)
    requires root2 == Root(mid1, level, loc2)
    requires forall y {:trigger Root(mid, level, y)} :: y in mid ==> Root(mid, level, y) == Root(mid1, level, y)
    requires RankOrdered(start, rank) ==> RankOrdered(mid, rank)
    ensures root1 in mid && root2 in mid
    ensures var (loser, winner) := LinkOrder(rank, root1, root2);
            Unioned(start, rank, level, loc1, loc2, mid[loser := winner], RanksAfterLink(rank, root1, root2),
                    Raise(level, winner, loser))
  {
    assert Root(mid, level, loc1) == root1 && Root(mid, level, loc2) == root2;
    LinkForest(mid, rank, level, root1, root2);
  }

  /** Changing only the forest, over the same locations, keeps the invariant. */
  lemma ReforestConsistent(locations: map<Name, Location>, cands: seq<Candidate>,
                           parent: map<Name, Name>, rank: map<Name, nat>, level: map<Name, nat>,
                           parent': map<Name, Name>, rank': map<Name, nat>, level': map<Name, nat>)
    requires Consistent(locations, cands, parent, rank, level)
    requires Forested(parent', rank', level') && parent'.Keys == parent.Keys
    ensures Consistent(locations, cands, parent', rank', level')
  {
  }

  /** The records after an accepted link is appended to the connections of
      its first and then its second end. */
  function Attach(locations: map<Name, Location>, c: Candidate): (r: map<Name, Location>)
    requires c.loc1 in locations && c.loc2 in locations
    ensures r.Keys == locations.Keys
    ensures forall n {:trigger r[n]} :: n in r ==> r[n].name == locations[n].name
  {
    var first := locations[c.loc1 := locations[c.loc1].(connections := locations[c.loc1].connections + [c])];
    first[c.loc2 := first[c.loc2].(connections := first[c.loc2].connections + [c])]
  }

  /** Attaching a link extends each record's connections by the link's
      copies at that location and changes nothing else. */
  lemma AttachAt(locations: map<Name, Location>, c: Candidate, n: Name)
    requires c.loc1 in locations && c.loc2 in locations && n in locations
    ensures Attach(locations, c)[n] == locations[n].(connections := locations[n].connections + Ends(c, n))
  {
    var loc := locations[n];
    if n == c.loc1 && n == c.loc2 {
      assert loc.connections + [c] + [c] == loc.connections + Ends(c, n);
    } else if n == c.loc1 || n == c.loc2 {
      assert loc.connections + [c] == loc.connections + Ends(c, n);
    } else {
      assert loc.connections == loc.connections + Ends(c, n);
    }
  }

  lemma AttachConsistent(locations: map<Name, Location>, cands: seq<Candidate>,
                         parent: map<Name, Name>, rank: map<Name, nat>, level: map<Name, nat>, c: Candidate)
    requires Consistent(locations, cands, parent, rank, level)
    requires c.loc1 in locations && c.loc2 in locations
    ensures Consistent(Attach(locations, c), cands, parent, rank, level)
  {
    var r := Attach(locations, c);
    forall n {:trigger r[n]} | n in r ensures r[n].name == n {
      assert locations[n].name == n;
    }
  }

  /** The records after each link of `edges`, in order, is attached. */
  function AttachAll(locations: map<Name, Location>, edges: seq<Candidate>): (r: map<Name, Location>)
    requires Endpoints(edges, locations.Keys)
    ensures r.Keys == locations.Keys
    decreases |edges|
  {
    if edges == [] then locations
    else Attach(AttachAll(locations, edges[..|edges| - 1]), edges[|edges| - 1])
  }

  lemma AttachAllSnoc(locations: map<Name, Location>, edges: seq<Candidate>, c: Candidate)
    requires Endpoints(edges, locations.Keys) && c.loc1 in locations && c.loc2 in locations
    ensures Endpoints(edges + [c], locations.Keys)
    ensures AttachAll(locations, edges + [c]) == Attach(AttachAll(locations, edges), c)
  {
    assert (edges + [c])[..|edges|] == edges;
  }

  /** `locs` is `locs0` with each record's connections extended by the links
      of `edges` at that location, in order. */
  ghost predicate Recorded(locs0: map<Name, Location>, locs: map<Name, Location>, edges: seq<Candidate>)
  {
    && locs.Keys == locs0.Keys
    && forall n {:trigger locs[n]} :: n in locs ==>
         locs[n] == locs0[n].(connections := locs0[n].connections + Incident(edges, n))
  }

  lemma AppendAssoc(a: seq<Candidate>, b: seq<Candidate>, c: seq<Candidate>)
    ensures a + b + c == a + (b + c)
  {
  }

  lemma AppendEmpty(a: seq<Candidate>)
    ensures a + [] == a
  {
  }

  lemma TakeAll(s: seq<Candidate>)
    ensures s[..|s|] == s
  {
  }

  lemma SplitLast(s: seq<Candidate>)
    requires s != []
    ensures s == s[..|s| - 1] + [s[|s| - 1]]
  {
  }

  lemma RecordedSnoc(locs0: map<Name, Location>, locs: map<Name, Location>, edges: seq<Candidate>, c: Candidate)
    requires Recorded(locs0, locs, edges) && c.loc1 in locs && c.loc2 in locs
    ensures Recorded(locs0, Attach(locs, c), edges + [c])
  {
    var r := Attach(locs, c);
    forall n {:trigger r[n]} | n in r
      ensures r[n] == locs0[n].(connections := locs0[n].connections + Incident(edges + [c], n))
    {
      AttachAt(locs, c, n);
      IncidentSnoc(edges, c, n);
      AppendAssoc(locs0[n].connections, Incident(edges, n), Ends(c, n));
    }
  }

  /** Attaching the links one by one lists, at every location, exactly the
      links incident to it, in order, and changes nothing else. */
  lemma {:induction false} AttachAllRecorded(locations: map<Name, Location>, edges: seq<Candidate>)
    requires Endpoints(edges, locations.Keys)
    ensures Recorded(locations, AttachAll(locations, edges), edges)
    decreases |edges|
  {
    if edges == [] {
      forall n {:trigger locations[n]} | n in locations
        ensures locations[n] == locations[n].(connections := locations[n].connections + Incident(edges, n))
      {
        AppendEmpty(locations[n].connections);
      }
    } else {
      var prefix := edges[..|edges| - 1];
      SplitLast(edges);
      AttachAllRecorded(locations, prefix);
      RecordedSnoc(locations, AttachAll(locations, prefix), prefix, edges[|edges| - 1]);
    }
  }

  /** The running figures of the design loop agree with the scan so far:
      the accepted links, their cost, their length and their cable counts. */
  ghost predicate Tallied(s: Scan, optimal: seq<Candidate>, totalCost: real, totalLength: real, fiber: nat, copper: nat)
  {
    && optimal == s.accepted && totalCost == s.spent
    && totalLength == SumDistance(optimal)
    && fiber == CountFiber(optimal) && copper == CountCopper(optimal)
  }

  /** Adds a link the scan accepts to the running figures: appends it,
      adds its cost and length, and counts it as fiber or else as copper.
      A refused link changes nothing. */
  method Tally(c: Candidate, joined: bool, ghost s: Scan, budget: real,
               optimal: seq<Candidate>, totalCost: real, totalLength: real, fiber: nat, copper: nat)
    returns (optimal': seq<Candidate>, totalCost': real, totalLength': real, fiber': nat, copper': nat)
    requires c.loc1 in s.comp && c.loc2 in s.comp && joined == Accepts(s, c, budget)
    requires Tallied(s, optimal, totalCost, totalLength, fiber, copper)
    ensures Tallied(Step(s, c, budget), optimal', totalCost', totalLength', fiber', copper')
  {
    optimal', totalCost', totalLength', fiber', copper' := optimal, totalCost, totalLength, fiber, copper;
    if joined {
      FiguresSnoc(optimal, c);
      optimal' := optimal + [c];
      totalCost' := totalCost + c.cost;
      totalLength' := totalLength + c.distance;
      if c.cableType == "fiber" {
        fiber' := fiber + 1;
      } else {
        copper' := copper + 1;
      }
    }
  }

  class NetworkDesignSystem {
    var locations: map<Name, Location>
    var possibleConnections: seq<Candidate>
    var parent: map<Name, Name>
    var rank: map<Name, nat>
    /** Fixed when the designer is made; nothing updates it. */
    const totalBudget: real
    /** Witness that every parent chain is finite (see module DisjointSet). */
    ghost var level: map<Name, nat>

    ghost predicate Valid()
      reads this
    {
      Consistent(locations, possibleConnections, parent, rank, level)
    }

    /** The part of `Valid` that the union-find operations rely on. */
    ghost predicate ForestValid()
      reads this
    {
      Forested(parent, rank, level)
    }

    constructor(budget: real := 500000.0)
      ensures Valid()
      ensures locations == map[] && possibleConnections == []
      ensures parent == map[] && rank == map[] && totalBudget == budget
    {
      locations := map[];
      possibleConnections := [];
      parent := map[];
      rank := map[];
      totalBudget := budget;
      level := map[];
    }

    /** Registers a location as a set of its own. Registering a name again
        replaces its record and makes it a root of rank 0 again. */
    method AddLocation(name: Name, locationType: string, devicesCount: int, coordinates: (real, real))
      requires Valid()
      modifies this`locations, this`parent, this`rank, this`level
      ensures Valid()
      ensures locations == old(locations)[name := Location(name, locationType, devicesCount, coordinates, [], devicesCount * 100)]
      ensures parent == old(parent)[name := name] && rank == old(rank)[name := 0]
      ensures possibleConnections == old(possibleConnections)
      ensures level == RegisterLevel(old(parent), old(level), name)
      ensures Root(parent, level, name) == name
      ensures name !in old(parent) && old(RankOrdered(parent, rank)) ==> RankOrdered(parent, rank)
    {
      var loc := Location(name, locationType, devicesCount, coordinates, [], devicesCount * 100);
      RegisterConsistent(locations, possibleConnections, parent, rank, level, loc);
      level := RegisterLevel(parent, level, name);
      locations, parent, rank := locations[name := loc], parent[name := name], rank[name := 0];
    }

    /** Prices a candidate link between two registered locations and adds it
        to the candidates. `distance` is the straight-line distance between
        the two locations' coordinates. */
    method AddPossibleConnection(loc1: Name, loc2: Name, cableType: string, distance: real) returns (o: Outcome<ConnectionError>)
      requires Valid()
      requires loc1 in locations && loc2 in locations ==>
                 IsDistance(locations[loc1].coordinates, locations[loc2].coordinates, distance)
      modifies this`possibleConnections
      ensures Valid()
      ensures locations == old(locations) && parent == old(parent) && rank == old(rank) && level == old(level)
      ensures loc1 !in locations ==> o == Fail(UnknownLocation(loc1))
      ensures loc1 in locations && loc2 !in locations ==> o == Fail(UnknownLocation(loc2))
      ensures loc1 in locations && loc2 in locations ==>
                match PriceLink(loc1, loc2, distance, cableType)
                case Ok(c) => o == Pass && possibleConnections == old(possibleConnections) + [c]
                case Err(e) => o == Fail(e)
      ensures o.Fail? ==> possibleConnections == old(possibleConnections)
    {
      if loc1 !in locations {
        return Fail(UnknownLocation(loc1));
      }
      if loc2 !in locations {
        return Fail(UnknownLocation(loc2));
      }
      var priced := PriceLink(loc1, loc2, distance, cableType);
      match priced
      case Err(e) =>
        o := Fail(e);
      case Ok(c) =>
        possibleConnections := possibleConnections + [c];
        o := Pass;
    }

    /** Finds the root of `x`, re-pointing every location on the way straight
        at it (path compression). */
    method FindParent(x: Name) returns (r: Name)
      requires ForestValid() && x in parent
      modifies this`parent
      decreases Height(level, x)
      ensures ForestValid() && parent.Keys == old(parent).Keys
      ensures r == Root(old(parent), level, x) && parent[x] == r
      ensures forall y :: y in parent ==> parent[y] == if OnPath(old(parent), level, x, y) then r else old(parent)[y]
      ensures forall y {:trigger Root(parent, level, y)} :: y in parent ==> Root(parent, level, y) == Root(old(parent), level, y)
      ensures old(RankOrdered(parent, rank)) ==> RankOrdered(parent, rank)
    {
      var p := parent[x];
      assert ParentOf(parent, x) == p;
      if p != x {
        AboveShrinks(level, x, p);
        ghost var before := parent;
        var top := FindParent(p);
        CompressForest(before, parent, rank, level, x, top);
        ghost var mid := parent;
        parent := parent[x := top];
        forall y | y in parent
          ensures parent[y] == if OnPath(before, level, x, y) then top else before[y]
        {
          if y != x {
            assert parent[y] == mid[y];
          }
        }
      }
      r := parent[x];
    }

    /** Joins the sets of `loc1` and `loc2` by rank. As written, the two
        roots are not compared first: when they are the same root, its rank
        still grows by one. */
    method UnionLocations(loc1: Name, loc2: Name)
      requires ForestValid() && loc1 in parent && loc2 in parent
      modifies this`parent, this`rank, this`level
      ensures Unioned(old(parent), old(rank), old(level), loc1, loc2, parent, rank, level)
    {
      ghost var start := parent;
      var root1 := FindParent(loc1);
      ghost var mid1 := parent;
      var root2 := FindParent(loc2);
      UnionEffect(start, mid1, parent, rank, level, loc1, loc2, root1, root2);
      var (loser, winner) := LinkOrder(rank, root1, root2);
      level := Raise(level, winner, loser);
      parent, rank := parent[loser := winner], RanksAfterLink(rank, root1, root2);
    }

    /** One candidate of the design step: finds the roots of its two ends
        and, when they differ and the candidate's cost fits in what is left
        of the budget after `spent`, joins the two sets. `comp` is the
        partition the forest stands for. */
    method TryJoin(c: Candidate, spent: real, ghost comp: map<Name, Name>) returns (joined: bool)
      requires ForestValid() && c.loc1 in parent && c.loc2 in parent
      requires Describes(parent, level, comp)
      modifies this`parent, this`rank, this`level
      ensures ForestValid() && parent.Keys == old(parent).Keys
      ensures joined <==> comp[c.loc1] != comp[c.loc2] && spent + c.cost <= totalBudget
      ensures Describes(parent, level, if joined then Merge(comp, c.loc1, c.loc2) else comp)
      ensures rank == if joined
                      then RanksAfterLink(old(rank), Root(old(parent), old(level), c.loc1), Root(old(parent), old(level), c.loc2))
                      else old(rank)
      ensures old(RankOrdered(parent, rank)) ==> RankOrdered(parent, rank)
    {
      ghost var start := parent;
      var root1 := FindParent(c.loc1);
      var root2 := FindParent(c.loc2);
      DescribesSameRoots(start, level, parent, level, comp);
      joined := root1 != root2 && spent + c.cost <= totalBudget;
      if joined {
        ghost var linked, linkedLevel := parent, level;
        ghost var (loser, winner) := LinkOrder(rank, root1, root2);
        UnionLocations(c.loc1, c.loc2);
        DescribesAfterLink(linked, linkedLevel, parent, level, comp, c.loc1, c.loc2, loser, winner);
      }
    }

    /** Appends an accepted link to the connections of its first and then
        of its second end. */
    method RecordConnection(c: Candidate, ghost locs0: map<Name, Location>, ghost links: seq<Candidate>)
      requires Valid() && c.loc1 in locations && c.loc2 in locations
      requires Endpoints(links, locs0.Keys) && locations == AttachAll(locs0, links)
      modifies this`locations
      ensures Valid() && Endpoints(links + [c], locs0.Keys)
      ensures locations == AttachAll(locs0, links + [c])
    {
      AttachAllSnoc(locs0, links, c);
      AttachConsistent(locations, possibleConnections, parent, rank, level, c);
      locations := locations[c.loc1 := locations[c.loc1].(connections := locations[c.loc1].connections + [c])];
      locations := locations[c.loc2 := locations[c.loc2].(connections := locations[c.loc2].connections + [c])];
    }

    /** The body of the design loop for one candidate: joins its ends when
        the scan so far accepts it (`TryJoin`) and then records it at both
        ends (`RecordConnection`). `scan` is the scan so far, `spent` its
        cost, and `locs0` the locations before the loop. */
    method Consider(c: Candidate, spent: real, ghost scan: Scan, ghost locs0: map<Name, Location>) returns (joined: bool)
      requires Valid() && c.loc1 in parent && c.loc2 in parent
      requires spent == scan.spent && Describes(parent, level, scan.comp)
      requires Endpoints(scan.accepted, locs0.Keys) && locations == AttachAll(locs0, scan.accepted)
      modifies this`locations, this`parent, this`rank, this`level
      ensures Valid() && parent.Keys == old(parent).Keys
      ensures joined == Accepts(scan, c, totalBudget)
      ensures rank == if joined
                      then RanksAfterLink(old(rank), Root(old(parent), old(level), c.loc1), Root(old(parent), old(level), c.loc2))
                      else old(rank)
      ensures old(RankOrdered(parent, rank)) ==> RankOrdered(parent, rank)
      ensures var next := Step(scan, c, totalBudget);
              && Describes(parent, level, next.comp)
              && Endpoints(next.accepted, locs0.Keys)
              && locations == AttachAll(locs0, next.accepted)
    {
      ghost var start, startRank, startLevel := parent, rank, level;
      joined := TryJoin(c, spent, scan.comp);
      ReforestConsistent(locations, possibleConnections, start, startRank, startLevel, parent, rank, level);
      if joined {
        RecordConnection(c, locs0, scan.accepted);
      }
    }

    /** Sorts the candidates by cost, keeping the order of equal costs, and
        scans them (see `ScanSorted`). */
    method DesignOptimalNetwork() returns (d: Design)
      requires Valid()
      modifies this`locations, this`parent, this`rank, this`level
      ensures Valid()
      ensures var s := PlannedScan(old(possibleConnections), totalBudget, old(parent), old(level));
              && d.optimalConnections == s.accepted
              && d.totalCost == s.spent
              && Describes(parent, level, s.comp)
      ensures d.totalCableLength == SumDistance(d.optimalConnections)
      ensures d.fiberConnections == CountFiber(d.optimalConnections)
      ensures d.copperConnections == CountCopper(d.optimalConnections)
      ensures d.remainingBudget == totalBudget - d.totalCost
      ensures Recorded(old(locations), locations, d.optimalConnections)
      ensures old(RankOrdered(parent, rank)) ==> RankOrdered(parent, rank)
    {
      var sorted := SortByCost(possibleConnections);
      PermutationKeepsEndpoints(possibleConnections, sorted, locations.Keys);
      ghost var comp0 := RootsOver(parent, level, parent.Keys);
      RootsDescribe(parent, level);
      ghost var locs0 := locations;
      d := ScanSorted(sorted, comp0);
      AttachAllRecorded(locs0, d.optimalConnections);
    }

    /** Scans candidates already in ascending cost, accepting a link when
        its ends are in different sets and its cost fits in what is left of
        the budget, and records each accepted link at both of its ends.
        `comp0` is the partition the forest stands for at the start. */
    method ScanSorted(sorted: seq<Candidate>, ghost comp0: map<Name, Name>) returns (d: Design)
      requires Valid()
      requires Endpoints(sorted, comp0.Keys) && Describes(parent, level, comp0)
      modifies this`locations, this`parent, this`rank, this`level
      ensures Valid()
      ensures var s := Scanned(sorted, totalBudget, comp0);
              && d.optimalConnections == s.accepted
              && d.totalCost == s.spent
              && Describes(parent, level, s.comp)
      ensures d.totalCableLength == SumDistance(d.optimalConnections)
      ensures d.fiberConnections == CountFiber(d.optimalConnections)
      ensures d.copperConnections == CountCopper(d.optimalConnections)
      ensures d.remainingBudget == totalBudget - d.totalCost
      ensures Endpoints(d.optimalConnections, old(locations).Keys)
      ensures locations == AttachAll(old(locations), d.optimalConnections)
      ensures old(RankOrdered(parent, rank)) ==> RankOrdered(parent, rank)
    {
      ghost var locs0 := locations;
      var optimal: seq<Candidate> := [];
      var totalCost := 0.0;
      var totalLength := 0.0;
      var fiber := 0;
      var copper := 0;
      var i := 0;
      ghost var scan := Scanned([], totalBudget, comp0);
      ghost var ordered := RankOrdered(parent, rank);
      while i < |sorted|
        invariant 0 <= i <= |sorted|
        invariant Valid()
        invariant comp0.Keys == parent.Keys && Endpoints(sorted[..i], comp0.Keys)
        invariant scan == Scanned(sorted[..i], totalBudget, comp0)
        invariant Tallied(scan, optimal, totalCost, totalLength, fiber, copper)
        invariant Describes(parent, level, scan.comp)
        invariant Endpoints(optimal, locs0.Keys) && locations == AttachAll(locs0, optimal)
        invariant ordered ==> RankOrdered(parent, rank)
      {
        var c := sorted[i];
        var joined := Consider(c, totalCost, scan, locs0);
        optimal, totalCost, totalLength, fiber, copper := Tally(c, joined, scan, totalBudget, optimal, totalCost, totalLength, fiber, copper);
        scan := Step(scan, c, totalBudget);
        ghost var k := i;
        i := i + 1;
        ScannedSnoc(sorted, k, i, totalBudget, comp0);
      }
      TakeAll(sorted);
      d := Design(optimal, totalCost, totalLength, fiber, copper, totalBudget - totalCost);
    }
  }
}
