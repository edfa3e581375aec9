/** Partitions of the registered locations, each location mapped to a label
    naming its set. This is the abstract view of the disjoint-set forest:
    two locations are connected exactly when they carry the same label. */
module Partition {
  import opened Cables

  /** Every location whose label is `from` gets the label `to`. */
  function Relabel(c: map<Name, Name>, from: Name, to: Name): (r: map<Name, Name>)
    ensures r.Keys == c.Keys
  {
    map y | y in c :: if c[y] == from then to else c[y]
  }

  /** Joins the set of `b` into the set of `a`. */
  function Merge(c: map<Name, Name>, a: Name, b: Name): (r: map<Name, Name>)
    requires a in c && b in c
    ensures r.Keys == c.Keys
  {
    Relabel(c, c[b], c[a])
  }

  /** The labels in use: one per set of the partition. */
  ghost function Labels(c: map<Name, Name>): set<Name>
  {
    set x | x in c :: c[x]
  }

  /** Merging two different sets removes exactly one label. */
  lemma {:induction false} MergeDropsOneLabel(c: map<Name, Name>, a: Name, b: Name)
    requires a in c && b in c && c[a] != c[b]
    ensures Labels(Merge(c, a, b)) == Labels(c) - {c[b]}
    ensures |Labels(Merge(c, a, b))| == |Labels(c)| - 1
  {
    var m := Merge(c, a, b);
    forall l | l in Labels(c) - {c[b]} ensures l in Labels(m) {
      var x :| x in c && c[x] == l;
      assert m[x] == l;
    }
    forall l | l in Labels(m) ensures l in Labels(c) - {c[b]} {
      var x :| x in m && m[x] == l;
      if c[x] == c[b] { assert m[x] == c[a]; assert c[a] in Labels(c); }
    }
    assert c[b] in Labels(c);
  }

  /** There are never more sets than locations, and at least one when there
      is a location. */
  lemma {:induction false} LabelsBound(c: map<Name, Name>)
    ensures |Labels(c)| <= |c|
    ensures |c| > 0 ==> |Labels(c)| > 0
    decreases |c|
  {
    if |c| > 0 {
      var k :| k in c;
      assert c[k] in Labels(c);
      var rest := map y | y in c && y != k :: c[y];
      assert rest.Keys == c.Keys - {k};
      LabelsBound(rest);
      assert Labels(c) <= Labels(rest) + {c[k]} by {
        forall l | l in Labels(c) ensures l in Labels(rest) + {c[k]} {
          var x :| x in c && c[x] == l;
          if x != k { assert rest[x] == l; }
        }
      }
      var u := Labels(rest) + {c[k]};
      assert |u| <= |Labels(rest)| + 1;
      assert u == Labels(c) + (u - Labels(c));
      assert |c.Keys| == |rest.Keys| + 1 by { assert c.Keys == rest.Keys + {k}; }
    }
  }
}
