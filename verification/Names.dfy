/** Candidate names ordered as the source orders strings and sorted tuples of strings. */
module Names {

  type Name = string

  /** Code-point order: the first difference decides, and a proper prefix comes first. */
  predicate Less(a: Name, b: Name) {
    if b == [] then false
    else if a == [] then true
    else a[0] < b[0] || (a[0] == b[0] && Less(a[1..], b[1..]))
  }

  /** One name comes before another when it is a proper prefix, or smaller where they first differ. */
  lemma {:induction false} LessMeans(a: Name, b: Name, n: nat)
    requires n <= |a| && n <= |b| && a[..n] == b[..n]
    requires n < |a| && n < |b| ==> a[n] != b[n]
    ensures Less(a, b) <==> (n == |a| && n < |b|) || (n < |a| && n < |b| && a[n] < b[n])
  {
    if n > 0 {
      assert a[0] == a[..n][0] == b[..n][0] == b[0];
      assert a[1..][..n - 1] == a[..n][1..] == b[..n][1..] == b[1..][..n - 1];
      LessMeans(a[1..], b[1..], n - 1);
    }
  }

  lemma {:induction false} LessIsStrict(a: Name)
    ensures !Less(a, a)
  {
    if a != [] { LessIsStrict(a[1..]); }
  }

  lemma {:induction false} LessIsTransitive(a: Name, b: Name, c: Name)
    requires Less(a, b) && Less(b, c)
    ensures Less(a, c)
  {
    if a != [] && a[0] == b[0] && b[0] == c[0] {
      LessIsTransitive(a[1..], b[1..], c[1..]);
    }
  }

  lemma {:induction false} LessIsAsymmetric(a: Name, b: Name)
    requires Less(a, b)
    ensures !Less(b, a)
  {
    if a != [] && a[0] == b[0] { LessIsAsymmetric(a[1..], b[1..]); }
  }

  lemma {:induction false} LessIsTotal(a: Name, b: Name)
    ensures a == b || Less(a, b) || Less(b, a)
  {
    if a != [] && b != [] && a[0] == b[0] {
      LessIsTotal(a[1..], b[1..]);
      assert a == [a[0]] + a[1..] && b == [b[0]] + b[1..];
    }
  }

  // ---------- Sorted sequences of names ----------

  /** Strictly increasing, so also without repetition. */
  predicate Ascending(s: seq<Name>) {
    forall i, j :: 0 <= i < j < |s| ==> Less(s[i], s[j])
  }

  function Members(s: seq<Name>): set<Name> { set x | x in s }

  lemma {:induction false} AscendingSize(s: seq<Name>)
    requires Ascending(s)
    ensures |Members(s)| == |s|
  {
    if s != [] {
      var rest := s[1..];
      AscendingSize(rest);
      LessIsStrict(s[0]);
      assert s[0] !in rest;
      assert Members(s) == Members(rest) + {s[0]};
    }
  }

  lemma {:induction false} AscendingIsUnique(s: seq<Name>, t: seq<Name>)
    requires Ascending(s) && Ascending(t) && Members(s) == Members(t)
    ensures s == t
  {
    AscendingSize(s);
    AscendingSize(t);
    if s != [] {
      assert s[0] in Members(t) && t[0] in Members(s);
      var i :| 0 <= i < |t| && t[i] == s[0];
      var j :| 0 <= j < |s| && s[j] == t[0];
      if i > 0 && j > 0 { LessIsAsymmetric(t[0], s[0]); }
      LessIsStrict(s[0]);
      assert s[0] == t[0];
      assert Members(s[1..]) == Members(s) - {s[0]} by {
        forall x | x in s[1..] ensures x != s[0] { }
      }
      assert Members(t[1..]) == Members(t) - {t[0]} by {
        forall x | x in t[1..] ensures x != t[0] { }
      }
      AscendingIsUnique(s[1..], t[1..]);
    }
  }

  /** name placed into an ascending sequence that does not have it. */
  function Insert(name: Name, s: seq<Name>): seq<Name> {
    if s == [] || Less(name, s[0]) then [name] + s else [s[0]] + Insert(name, s[1..])
  }

  lemma {:induction false} InsertKeepsOrder(name: Name, s: seq<Name>)
    requires Ascending(s) && name !in s
    ensures Ascending(Insert(name, s)) && Members(Insert(name, s)) == Members(s) + {name}
    ensures |Insert(name, s)| == |s| + 1
  {
    if s == [] {
    } else if Less(name, s[0]) {
      forall j | 0 < j < |s| ensures Less(name, s[j]) { LessIsTransitive(name, s[0], s[j]); }
    } else {
      LessIsTotal(name, s[0]);
      InsertKeepsOrder(name, s[1..]);
      var tail := Insert(name, s[1..]);
      forall j | 0 <= j < |tail| ensures Less(s[0], tail[j]) {
        assert tail[j] in Members(tail);
      }
      assert Members(s) == Members(s[1..]) + {s[0]};
      assert Members([s[0]] + tail) == Members(tail) + {s[0]};
    }
  }

  /** The names in ascending order. */
  function Sorted(s: seq<Name>): seq<Name> {
    if s == [] then [] else Insert(s[0], Sorted(s[1..]))
  }

  predicate Distinct(s: seq<Name>) {
    forall i, j :: 0 <= i < j < |s| ==> s[i] != s[j]
  }

  lemma {:induction false} SortedIsAscending(s: seq<Name>)
    requires Distinct(s)
    ensures Ascending(Sorted(s)) && Members(Sorted(s)) == Members(s) && |Sorted(s)| == |s|
  {
    if s != [] {
      SortedIsAscending(s[1..]);
      assert s[0] !in s[1..];
      assert s[0] !in Members(Sorted(s[1..]));
      InsertKeepsOrder(s[0], Sorted(s[1..]));
      assert Members(s) == Members(s[1..]) + {s[0]};
    }
  }

  // ---------- Tuple order ----------

  /** Tuple comparison: the first differing component decides, and a proper prefix comes first. */
  predicate TupleLess(s: seq<Name>, t: seq<Name>) {
    if t == [] then false
    else if s == [] then true
    else Less(s[0], t[0]) || (s[0] == t[0] && TupleLess(s[1..], t[1..]))
  }

  /** x separates a from b: it belongs to a only, and below it the two sets agree. */
  ghost predicate Separates(x: Name, a: set<Name>, b: set<Name>) {
    x in a && x !in b && forall y :: y in a + b && Less(y, x) ==> y in a && y in b
  }

  /** The smallest name on which two sets differ belongs to a. */
  ghost predicate SetLess(a: set<Name>, b: set<Name>) {
    exists x :: x in a && Separates(x, a, b)
  }

  ghost predicate SetLeq(a: set<Name>, b: set<Name>) { a == b || SetLess(a, b) }

  lemma {:induction false} SetLeqIsTransitive(a: set<Name>, b: set<Name>, c: set<Name>)
    requires SetLeq(a, b) && SetLeq(b, c)
    ensures SetLeq(a, c)
  {
    if a != b && b != c {
      var x :| x in a && Separates(x, a, b);
      var y :| y in b && Separates(y, b, c);
      LessIsTotal(x, y);
      if Less(x, y) {
        forall z | z in a + c && Less(z, x) ensures z in a && z in c { LessIsTransitive(z, x, y); }
        assert Separates(x, a, c);
      } else {
        assert x != y;
        forall z | z in a + c && Less(z, y) ensures z in a && z in c { LessIsTransitive(z, y, x); }
        assert Separates(y, a, c);
      }
    }
  }

  /** Smaller parts over disjoint universes make a smaller union. */
  lemma {:induction false} SetLeqOfUnion(a: set<Name>, b: set<Name>, a': set<Name>, b': set<Name>, u: set<Name>, v: set<Name>)
    requires SetLeq(a, a') && SetLeq(b, b')
    requires a <= u && a' <= u && b <= v && b' <= v && u !! v
    ensures SetLeq(a + b, a' + b')
  {
    if a == a' && b != b' {
      var y :| y in b && Separates(y, b, b');
      assert Separates(y, a + b, a' + b');
    } else if a != a' {
      var x :| x in a && Separates(x, a, a');
      if b == b' {
        assert Separates(x, a + b, a' + b');
      } else {
        var y :| y in b && Separates(y, b, b');
        LessIsTotal(x, y);
        if Less(x, y) {
          forall z | z in a + b + (a' + b') && Less(z, x) ensures z in a + b && z in a' + b' { LessIsTransitive(z, x, y); }
          assert Separates(x, a + b, a' + b');
        } else {
          assert x != y;
          forall z | z in a + b + (a' + b') && Less(z, y) ensures z in a + b && z in a' + b' { LessIsTransitive(z, y, x); }
          assert Separates(y, a + b, a' + b');
        }
      }
    }
  }

  /** On ascending tuples of the same length, tuple order is the order of the sets. */
  lemma {:induction false} TupleOrderIsSetOrder(s: seq<Name>, t: seq<Name>)
    requires Ascending(s) && Ascending(t) && |s| == |t|
    ensures TupleLess(s, t) ==> SetLess(Members(s), Members(t))
    ensures !TupleLess(s, t) ==> SetLeq(Members(t), Members(s))
  {
    if s != [] {
      var a, b := Members(s), Members(t);
      if s[0] == t[0] {
        var s', t' := s[1..], t[1..];
        TupleOrderIsSetOrder(s', t');
        LessIsStrict(s[0]);
        assert a == {s[0]} + Members(s') && b == {s[0]} + Members(t');
        forall x | x in s' || x in t' ensures Less(s[0], x) && x != s[0] { }
        if TupleLess(s, t) {
          var x :| x in Members(s') && Separates(x, Members(s'), Members(t'));
          assert Separates(x, a, b);
        } else if Members(s') != Members(t') {
          var x :| x in Members(t') && Separates(x, Members(t'), Members(s'));
          assert Separates(x, b, a);
        }
      } else {
        LessIsTotal(s[0], t[0]);
        if Less(s[0], t[0]) {
          HeadSeparates(s, t);
        } else {
          HeadSeparates(t, s);
          LessIsAsymmetric(t[0], s[0]);
        }
      }
    }
  }

  lemma {:induction false} HeadSeparates(s: seq<Name>, t: seq<Name>)
    requires Ascending(s) && Ascending(t) && s != [] && t != [] && Less(s[0], t[0])
    ensures SetLess(Members(s), Members(t))
  {
    LessIsStrict(s[0]);
    forall i | 0 <= i < |t| ensures Less(s[0], t[i]) {
      if i > 0 { LessIsTransitive(s[0], t[0], t[i]); }
    }
    forall y | y in s + t && Less(y, s[0]) ensures false {
      if y == s[0] {
      } else {
        assert Less(s[0], y);
        LessIsTransitive(y, s[0], y);
        LessIsStrict(y);
      }
    }
    assert Separates(s[0], Members(s), Members(t));
  }
}
