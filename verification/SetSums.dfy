/** Sums of a real-valued map over finite sets of names, and which sets of a given size have the largest sum. */
module SetSums {
  import opened Common
  import opened Names

  ghost function Total(s: set<Name>, f: map<Name, real>): real
    requires s <= f.Keys
  {
    if s == {} then 0.0
    else
      var x :| x in s;
      Total(s - {x}, f) + f[x]
  }

  /** Any member may be taken out first. */
  lemma {:induction false} TotalRemove(s: set<Name>, y: Name, f: map<Name, real>)
    requires s <= f.Keys && y in s
    ensures Total(s, f) == Total(s - {y}, f) + f[y]
    decreases |s|
  {
    var x :| x in s && Total(s, f) == Total(s - {x}, f) + f[x];
    if x != y {
      TotalRemove(s - {x}, y, f);
      TotalRemove(s - {y}, x, f);
      assert s - {x} - {y} == s - {y} - {x};
    }
  }

  lemma {:induction false} TotalAdd(s: set<Name>, y: Name, f: map<Name, real>)
    requires s <= f.Keys && y in f && y !in s
    ensures Total(s + {y}, f) == Total(s, f) + f[y]
  {
    TotalRemove(s + {y}, y, f);
    assert s + {y} - {y} == s;
  }

  lemma {:induction false} TotalUnion(s: set<Name>, t: set<Name>, f: map<Name, real>)
    requires s <= f.Keys && t <= f.Keys && s !! t
    ensures Total(s + t, f) == Total(s, f) + Total(t, f)
    decreases |t|
  {
    if t == {} {
      assert s + t == s;
    } else {
      var y :| y in t;
      TotalRemove(t, y, f);
      TotalRemove(s + t, y, f);
      assert s + t - {y} == s + (t - {y});
      TotalUnion(s, t - {y}, f);
    }
  }

  /** Every member of g weighs at least as much as every other name. */
  ghost predicate Dominates(g: set<Name>, f: map<Name, real>) {
    g <= f.Keys && forall x, y :: x in g && y in f.Keys && y !in g ==> f[x] >= f[y]
  }

  /** A dominating set has the largest sum among all sets of its size. */
  lemma {:induction false} DominatingIsLargest(g: set<Name>, s: set<Name>, f: map<Name, real>)
    requires Dominates(g, f) && s <= f.Keys && |s| == |g|
    ensures Total(s, f) <= Total(g, f)
    decreases |s - g|
  {
    if s == g {
    } else {
      if s <= g { ProperSubsetIsSmaller(s, g); }
      if g <= s { ProperSubsetIsSmaller(g, s); }
      assert !(s <= g) && !(g <= s);
      var x :| x in s && x !in g;
      var y :| y in g && y !in s;
      var t := s - {x} + {y};
      TotalRemove(s, x, f);
      TotalAdd(s - {x}, y, f);
      assert t - g == (s - g) - {x};
      DominatingIsLargest(g, t, f);
    }
  }

  lemma {:induction false} ProperSubsetIsSmaller(a: set<Name>, b: set<Name>)
    requires a <= b && a != b
    ensures |a| < |b|
  {
    assert !(b <= a);
    var x :| x in b && x !in a;
    SubsetSize(a, b - {x});
  }
}
