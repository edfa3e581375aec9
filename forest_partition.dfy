/** The partition a disjoint-set forest stands for: two locations are in the
    same set exactly when they have the same root. Path compression keeps
    the partition, and linking two roots merges their sets. */
module ForestPartition {
  import opened Cables
  import opened Partition
  import opened DisjointSet

  /** `comp` labels the forest's partition: two locations carry the same
      label exactly when they have the same root. */
  ghost predicate Describes(parent: map<Name, Name>, level: map<Name, nat>, comp: map<Name, Name>)
  {
    && Leveled(parent, level)
    && comp.Keys == parent.Keys
    && forall x, y {:trigger Root(parent, level, x), Root(parent, level, y)} :: x in parent && y in parent ==>
         (Root(parent, level, x) == Root(parent, level, y) <==> comp[x] == comp[y])
  }

  /** The locations of `ks` labelled by their roots. Built one location at
      a time, so that the labels are only unfolded where a proof asks. */
  ghost function RootsOver(parent: map<Name, Name>, level: map<Name, nat>, ks: set<Name>): (c: map<Name, Name>)
    requires Leveled(parent, level) && ks <= parent.Keys
    ensures c.Keys == ks
    ensures forall y {:trigger Root(parent, level, y)} :: y in ks ==> c[y] == Root(parent, level, y)
    decreases ks
  {
    if ks == {} then map[]
    else
      var k :| k in ks;
      RootsOver(parent, level, ks - {k})[k := Root(parent, level, k)]
  }

  /** The forest's own partition, each location labelled by its root. */
  lemma RootsDescribe(parent: map<Name, Name>, level: map<Name, nat>)
    requires Leveled(parent, level)
    ensures Describes(parent, level, RootsOver(parent, level, parent.Keys))
  {
    var c := RootsOver(parent, level, parent.Keys);
    forall x, y {:trigger Root(parent, level, x), Root(parent, level, y)} | x in parent && y in parent
      ensures Root(parent, level, x) == Root(parent, level, y) <==> c[x] == c[y]
    {
    }
  }

  /** A forest whose locations keep their roots describes the same partition. */
  lemma DescribesSameRoots(parent: map<Name, Name>, level: map<Name, nat>, parent': map<Name, Name>, level': map<Name, nat>, comp: map<Name, Name>)
    requires Describes(parent, level, comp) && Leveled(parent', level') && parent'.Keys == parent.Keys
    requires forall y {:trigger Root(parent', level', y)} :: y in parent ==> Root(parent', level', y) == Root(parent, level, y)
    ensures Describes(parent', level', comp)
  {
    forall x, y {:trigger Root(parent', level', x), Root(parent', level', y)} | x in parent' && y in parent'
      ensures Root(parent', level', x) == Root(parent', level', y) <==> comp[x] == comp[y]
    {
      assert Root(parent, level, x) == Root(parent, level, y) <==> comp[x] == comp[y];
    }
  }

  /** After the root of one of `a`, `b` is put under the root of the other,
      the forest describes the partition with the sets of `a` and `b` merged. */
  lemma DescribesAfterLink(parent: map<Name, Name>, level: map<Name, nat>, parent': map<Name, Name>, level': map<Name, nat>,
                           comp: map<Name, Name>, a: Name, b: Name, loser: Name, winner: Name)
    requires Describes(parent, level, comp) && Leveled(parent', level') && parent'.Keys == parent.Keys
    requires a in parent && b in parent
    requires (loser == Root(parent, level, a) && winner == Root(parent, level, b))
          || (loser == Root(parent, level, b) && winner == Root(parent, level, a))
    requires forall y {:trigger Root(parent', level', y)} :: y in parent ==>
               Root(parent', level', y) == if Root(parent, level, y) == loser then winner else Root(parent, level, y)
    ensures Describes(parent', level', Merge(comp, a, b))
  {
    var m := Merge(comp, a, b);
    forall x, y {:trigger Root(parent', level', x), Root(parent', level', y)} | x in parent' && y in parent'
      ensures Root(parent', level', x) == Root(parent', level', y) <==> m[x] == m[y]
    {
      var rx, ry, ra, rb := Root(parent, level, x), Root(parent, level, y), Root(parent, level, a), Root(parent, level, b);
      assert rx == ra <==> comp[x] == comp[a];
      assert rx == rb <==> comp[x] == comp[b];
      assert ry == ra <==> comp[y] == comp[a];
      assert ry == rb <==> comp[y] == comp[b];
      assert rx == ry <==> comp[x] == comp[y];
    }
  }
}
