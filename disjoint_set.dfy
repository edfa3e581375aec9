/** The disjoint-set forest kept in the `parent` map: what the root of a
    location is, and how path compression and linking two roots change the
    roots of every location.

    `level` is a ghost companion of `parent`: a non-root's parent always has a
    strictly higher level, which makes every parent chain finite. It plays the
    part of `rank` in the termination argument; it is kept apart from `rank`
    because re-registering a location resets its rank but not its level. */
module DisjointSet {
  import opened Cables
  import opened Partition

  /** One step up the forest. The forest invariants below are triggered on
      this term rather than on `parent[x]`, so that learning `parent[x] in
      parent` does not by itself unfold them again one step higher. */
  ghost function ParentOf(parent: map<Name, Name>, x: Name): Name
    requires x in parent
  {
    parent[x]
  }

  ghost predicate Leveled(parent: map<Name, Name>, level: map<Name, nat>)
  {
    && parent.Keys <= level.Keys
    && forall x {:trigger ParentOf(parent, x)} :: x in parent ==>
         && parent[x] in parent
         && (parent[x] != x ==> level[x] < level[parent[x]])
  }

  /** The invariant union by rank keeps: a non-root's parent has a strictly
      higher rank. */
  ghost predicate RankOrdered(parent: map<Name, Name>, rank: map<Name, nat>)
  {
    && parent.Keys <= rank.Keys
    && forall x {:trigger ParentOf(parent, x)} :: x in parent ==>
         && parent[x] in parent
         && (parent[x] != x ==> rank[x] < rank[parent[x]])
  }

  ghost function Above(level: map<Name, nat>, k: int): set<Name>
  {
    set y | y in level && level[y] > k
  }

  /** Termination measure: the number of locations ranked above `x`. */
  ghost function Height(level: map<Name, nat>, x: Name): nat
    requires x in level
  {
    |Above(level, level[x])|
  }

  lemma AboveShrinks(level: map<Name, nat>, x: Name, p: Name)
    requires x in level && p in level && level[x] < level[p]
    ensures Height(level, p) < Height(level, x)
  {
    var a, b := Above(level, level[p]), Above(level, level[x]);
    assert a <= b;
    assert p in b - a;
    assert b == a + (b - a);
  }

  /** The root reached by following parents from `x`. */
  ghost function Root(parent: map<Name, Name>, level: map<Name, nat>, x: Name): (r: Name)
    requires Leveled(parent, level) && x in parent
    ensures r in parent && parent[r] == r
    ensures r == x || level[x] < level[r]
    decreases Height(level, x)
  {
    var p := ParentOf(parent, x);
    if p == x then x
    else
      AboveShrinks(level, x, p);
      Root(parent, level, p)
  }

  /** `y` lies on the path that find walks up from `x` and re-points: `x`
      itself or a location above it, short of the root. A root's path is
      empty. */
  ghost predicate OnPath(parent: map<Name, Name>, level: map<Name, nat>, x: Name, y: Name)
    requires Leveled(parent, level) && x in parent
    decreases Height(level, x)
  {
    var p := ParentOf(parent, x);
    p != x && (y == x || (AboveShrinks(level, x, p); OnPath(parent, level, p, y)))
  }

  /** A root's rank is at least that of anything below it, strictly for a
      non-root. */
  lemma {:induction false} RootOutranks(parent: map<Name, Name>, level: map<Name, nat>, rank: map<Name, nat>, x: Name)
    requires Leveled(parent, level) && RankOrdered(parent, rank) && x in parent
    ensures Root(parent, level, x) != x ==> rank[x] < rank[Root(parent, level, x)]
    decreases Height(level, x)
  {
    var p := ParentOf(parent, x);
    if p != x {
      AboveShrinks(level, x, p);
      RootOutranks(parent, level, rank, p);
    }
  }

  /** Roots do not depend on which level map witnesses termination. */
  lemma {:induction false} RootLevelFree(parent: map<Name, Name>, l1: map<Name, nat>, l2: map<Name, nat>, x: Name)
    requires Leveled(parent, l1) && Leveled(parent, l2) && x in parent
    ensures Root(parent, l1, x) == Root(parent, l2, x)
    decreases Height(l1, x)
  {
    var p := ParentOf(parent, x);
    if p != x {
      AboveShrinks(l1, x, p);
      RootLevelFree(parent, l1, l2, p);
    }
  }

  /** Re-pointing `x` straight at its root keeps the forest well founded. */
  lemma CompressLeveled(parent: map<Name, Name>, level: map<Name, nat>, x: Name)
    requires Leveled(parent, level) && x in parent
    ensures Leveled(parent[x := Root(parent, level, x)], level)
  {
    var parent' := parent[x := Root(parent, level, x)];
    forall z {:trigger parent'[z]} | z in parent'
      ensures parent'[z] in parent'
      ensures parent'[z] != z ==> level[z] < level[parent'[z]]
    {
      assert ParentOf(parent, z) == parent[z];
    }
  }

  lemma {:induction false} CompressKeepsRoot(parent: map<Name, Name>, level: map<Name, nat>, x: Name, y: Name)
    requires Leveled(parent, level) && x in parent && y in parent
    requires Leveled(parent[x := Root(parent, level, x)], level)
    ensures Root(parent[x := Root(parent, level, x)], level, y) == Root(parent, level, y)
    decreases Height(level, y)
  {
    var r := Root(parent, level, x);
    if y == x {
      if r != x {
        AboveShrinks(level, x, r);
        CompressKeepsRoot(parent, level, x, r);
      }
    } else {
      var p := ParentOf(parent, y);
      if p != y {
        AboveShrinks(level, y, p);
        CompressKeepsRoot(parent, level, x, p);
      }
    }
  }

  /** Path compression at `x`, re-pointing it straight at its root `r`,
      leaves the root of every location unchanged. */
  lemma CompressKeepsRoots(parent: map<Name, Name>, level: map<Name, nat>, x: Name, r: Name)
    requires Leveled(parent, level) && x in parent && r == Root(parent, level, x)
    ensures Leveled(parent[x := r], level)
    ensures forall y {:trigger Root(parent[x := r], level, y)} :: y in parent ==> Root(parent[x := r], level, y) == Root(parent, level, y)
  {
    CompressLeveled(parent, level, x);
    forall y {:trigger Root(parent[x := r], level, y)} | y in parent ensures Root(parent[x := r], level, y) == Root(parent, level, y) {
      CompressKeepsRoot(parent, level, x, y);
    }
  }

  /** The level map after `loser` goes under `winner`: the winner rises above
      the loser if it was not already. */
  ghost function Raise(level: map<Name, nat>, winner: Name, loser: Name): map<Name, nat>
    requires winner in level && loser in level
  {
    level[winner := if level[winner] > level[loser] then level[winner] else level[loser] + 1]
  }

  lemma {:induction false} LinkKeepsOthers(parent: map<Name, Name>, level: map<Name, nat>, loser: Name, winner: Name, y: Name)
    requires Leveled(parent, level) && Leveled(parent[loser := winner], level)
    requires loser in parent && winner in parent && parent[loser] == loser && parent[winner] == winner
    requires y in parent
    ensures Root(parent[loser := winner], level, y)
            == if Root(parent, level, y) == loser then winner else Root(parent, level, y)
    decreases Height(level, y)
  {
    if y != loser {
      var p := ParentOf(parent, y);
      if p != y {
        AboveShrinks(level, y, p);
        LinkKeepsOthers(parent, level, loser, winner, p);
      }
    }
  }

  /** Raising the level of a root keeps the forest well founded. */
  lemma RaiseLeveled(parent: map<Name, Name>, level: map<Name, nat>, loser: Name, winner: Name)
    requires Leveled(parent, level)
    requires loser in parent && winner in parent && parent[winner] == winner
    ensures Leveled(parent, Raise(level, winner, loser))
  {
    var level' := Raise(level, winner, loser);
    forall z {:trigger parent[z]} | z in parent
      ensures parent[z] in parent
      ensures parent[z] != z ==> level'[z] < level'[parent[z]]
    {
      assert ParentOf(parent, z) == parent[z];
    }
  }

  /** Putting a root under a root of higher level keeps the forest well founded. */
  lemma LinkLeveled(parent: map<Name, Name>, level: map<Name, nat>, loser: Name, winner: Name)
    requires Leveled(parent, level)
    requires loser in parent && winner in parent && parent[loser] == loser && parent[winner] == winner
    requires loser != winner ==> level[loser] < level[winner]
    ensures Leveled(parent[loser := winner], level)
  {
    var parent' := parent[loser := winner];
    forall z {:trigger parent'[z]} | z in parent'
      ensures parent'[z] in parent'
      ensures parent'[z] != z ==> level[z] < level[parent'[z]]
    {
      assert ParentOf(parent, z) == parent[z];
    }
  }

  /** Putting root `loser` under root `winner` moves exactly the loser's set
      into the winner's set. */
  lemma LinkRoots(parent: map<Name, Name>, level: map<Name, nat>, loser: Name, winner: Name, level': map<Name, nat>)
    requires Leveled(parent, level)
    requires loser in parent && winner in parent && parent[loser] == loser && parent[winner] == winner
    requires level' == Raise(level, winner, loser)
    ensures Leveled(parent[loser := winner], level')
    ensures forall y {:trigger Root(parent[loser := winner], level', y)} :: y in parent ==>
              Root(parent[loser := winner], level', y)
              == if Root(parent, level, y) == loser then winner else Root(parent, level, y)
  {
    RaiseLeveled(parent, level, loser, winner);
    LinkLeveled(parent, level', loser, winner);
    LinkMovesLoserSet(parent, level, loser, winner, level');
  }

  lemma LinkMovesOne(parent: map<Name, Name>, level: map<Name, nat>, loser: Name, winner: Name, level': map<Name, nat>, y: Name)
    requires Leveled(parent, level) && Leveled(parent, level') && Leveled(parent[loser := winner], level')
    requires loser in parent && winner in parent && parent[loser] == loser && parent[winner] == winner
    requires y in parent
    ensures Root(parent[loser := winner], level', y)
            == if Root(parent, level, y) == loser then winner else Root(parent, level, y)
  {
    RootLevelFree(parent, level, level', y);
    LinkKeepsOthers(parent, level', loser, winner, y);
  }

  lemma LinkMovesLoserSet(parent: map<Name, Name>, level: map<Name, nat>, loser: Name, winner: Name, level': map<Name, nat>)
    requires Leveled(parent, level) && Leveled(parent, level') && Leveled(parent[loser := winner], level')
    requires loser in parent && winner in parent && parent[loser] == loser && parent[winner] == winner
    ensures forall y {:trigger Root(parent[loser := winner], level', y)} :: y in parent ==>
              Root(parent[loser := winner], level', y)
              == if Root(parent, level, y) == loser then winner else Root(parent, level, y)
  {
    forall y {:trigger Root(parent[loser := winner], level', y)} | y in parent
      ensures Root(parent[loser := winner], level', y)
              == if Root(parent, level, y) == loser then winner else Root(parent, level, y)
    {
      LinkMovesOne(parent, level, loser, winner, level', y);
    }
  }

  lemma FreshLeveled(parent: map<Name, Name>, level: map<Name, nat>, name: Name)
    requires Leveled(parent, level) && name !in parent
    ensures Leveled(parent[name := name], level[name := 0])
  {
    var parent', level' := parent[name := name], level[name := 0];
    forall z {:trigger parent'[z]} | z in parent'
      ensures parent'[z] in parent'
      ensures parent'[z] != z ==> level'[z] < level'[parent'[z]]
    {
      if z != name { assert ParentOf(parent, z) == parent[z]; }
    }
  }

  /** Making any location a root of its own keeps the forest well founded. */
  lemma DetachLeveled(parent: map<Name, Name>, level: map<Name, nat>, x: Name)
    requires Leveled(parent, level) && x in parent
    ensures Leveled(parent[x := x], level)
  {
    var parent' := parent[x := x];
    forall z {:trigger parent'[z]} | z in parent'
      ensures parent'[z] in parent'
      ensures parent'[z] != z ==> level[z] < level[parent'[z]]
    {
      if z != x { assert ParentOf(parent, z) == parent[z]; }
    }
  }

  /** Path compression keeps union by rank's invariant: the root outranks
      every location below it. */
  lemma CompressRankOrdered(parent: map<Name, Name>, level: map<Name, nat>, rank: map<Name, nat>, x: Name, r: Name)
    requires Leveled(parent, level) && RankOrdered(parent, rank) && x in parent
    requires r == Root(parent, level, x)
    ensures RankOrdered(parent[x := r], rank)
  {
    RootOutranks(parent, level, rank, x);
    var parent' := parent[x := r];
    forall z {:trigger parent'[z]} | z in parent'
      ensures parent'[z] in parent'
      ensures parent'[z] != z ==> rank[z] < rank[parent'[z]]
    {
      if z != x { assert ParentOf(parent, z) == parent[z]; }
    }
  }

  /** Putting a root under a root whose rank ends up strictly higher keeps
      union by rank's invariant, whether or not the winner's rank grows. */
  lemma LinkRankOrdered(parent: map<Name, Name>, rank: map<Name, nat>, loser: Name, winner: Name, rank': map<Name, nat>)
    requires RankOrdered(parent, rank)
    requires loser in parent && winner in parent && parent[loser] == loser && parent[winner] == winner
    requires rank' == rank || rank' == rank[winner := rank[winner] + 1]
    requires rank[loser] < rank'[winner]
    ensures RankOrdered(parent[loser := winner], rank')
  {
    var parent' := parent[loser := winner];
    forall z {:trigger parent'[z]} | z in parent'
      ensures parent'[z] in parent'
      ensures parent'[z] != z ==> rank'[z] < rank'[parent'[z]]
    {
      if z != loser { assert ParentOf(parent, z) == parent[z]; }
    }
  }

  /** A newly registered location of rank 0 keeps union by rank's invariant. */
  lemma FreshRankOrdered(parent: map<Name, Name>, rank: map<Name, nat>, name: Name)
    requires RankOrdered(parent, rank) && name !in parent
    ensures RankOrdered(parent[name := name], rank[name := 0])
  {
    var parent', rank' := parent[name := name], rank[name := 0];
    forall z {:trigger parent'[z]} | z in parent'
      ensures parent'[z] in parent'
      ensures parent'[z] != z ==> rank'[z] < rank'[parent'[z]]
    {
      if z != name { assert ParentOf(parent, z) == parent[z]; }
    }
  }

  /** The termination witness once `name` is registered as a root: a new
      name enters at level 0, a known one keeps its level. */
  ghost function RegisterLevel(parent: map<Name, Name>, level: map<Name, nat>, name: Name): map<Name, nat>
  {
    if name in parent then level else level[name := 0]
  }

  /** Registering `name` (pointing it at itself) keeps the forest finite and
      makes `name` a root; for a new name the rank invariant survives too. */
  lemma RegisterRoot(parent: map<Name, Name>, level: map<Name, nat>, rank: map<Name, nat>, name: Name)
    requires Leveled(parent, level)
    ensures Leveled(parent[name := name], RegisterLevel(parent, level, name))
    ensures Root(parent[name := name], RegisterLevel(parent, level, name), name) == name
    ensures name !in parent && RankOrdered(parent, rank) ==> RankOrdered(parent[name := name], rank[name := 0])
  {
    var parent' := parent[name := name];
    if name in parent {
      DetachLeveled(parent, level, name);
    } else {
      FreshLeveled(parent, level, name);
      if RankOrdered(parent, rank) {
        FreshRankOrdered(parent, rank, name);
      }
    }
    assert ParentOf(parent', name) == name;
  }
}
