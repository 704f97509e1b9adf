/**
 merge of bench/spec_architecture_screen.py. A table keeps, per size, one
 selection; merging two tables over disjoint parts of the tree keeps the best
 selection of every size, although each step compares only two candidates.
 */
module FrontierTables {
  import opened Names
  import opened SetSums

  /** A selection as an ascending tuple, with its total reach. */
  datatype Entry = Entry(value: real, selected: seq<Name>)

  type Table = map<nat, Entry>

  /** The selections a table is about. */
  type Family = iset<set<Name>>

  ghost predicate EntryOk(e: Entry, reach: map<Name, real>) {
    Ascending(e.selected) && Members(e.selected) <= reach.Keys && e.value == Total(Members(e.selected), reach)
  }

  /** e has more total reach than s, or the same and a selection no later in tuple order. */
  ghost predicate Beats(e: Entry, s: set<Name>, reach: map<Name, real>) {
    s <= reach.Keys &&
    (e.value > Total(s, reach) || (e.value == Total(s, reach) && SetLeq(Members(e.selected), s)))
  }

  lemma {:induction false} BeatsIsTransitive(e: Entry, d: Entry, s: set<Name>, reach: map<Name, real>)
    requires EntryOk(d, reach) && Beats(e, Members(d.selected), reach) && Beats(d, s, reach)
    ensures Beats(e, s, reach)
  {
    if e.value == Total(s, reach) {
      SetLeqIsTransitive(Members(e.selected), Members(d.selected), s);
    }
  }

  /** Each stored entry is a family member of its size; each small enough member is matched or beaten. */
  ghost predicate BestTable(t: Table, f: Family, reach: map<Name, real>, limit: nat) {
    && (forall k :: k in t ==> k <= limit && Holds(t[k], k, f, reach))
    && (forall s :: s in f && |s| <= limit ==> |s| in t && Beats(t[|s|], s, reach))
  }

  ghost predicate Holds(e: Entry, k: nat, f: Family, reach: map<Name, real>) {
    EntryOk(e, reach) && |e.selected| == k && Members(e.selected) in f
  }

  /** Unions of one member of each family. */
  ghost function Sum(f: Family, g: Family): Family {
    iset s, s' | s in f && s' in g :: s + s'
  }

  ghost predicate Over(f: Family, u: set<Name>) {
    forall s :: s in f ==> s <= u
  }

  function Joined(a: Entry, b: Entry): Entry {
    Entry(a.value + b.value, Sorted(a.selected + b.selected))
  }

  lemma {:induction false} JoinedHolds(a: Entry, b: Entry, j: nat, k: nat, f: Family, g: Family, u: set<Name>, v: set<Name>, reach: map<Name, real>)
    requires Over(f, u) && Over(g, v) && u !! v
    requires Holds(a, j, f, reach) && Holds(b, k, g, reach)
    ensures Holds(Joined(a, b), j + k, Sum(f, g), reach)
    ensures Members(Joined(a, b).selected) == Members(a.selected) + Members(b.selected)
  {
    var s := a.selected + b.selected;
    forall i, i' | 0 <= i < i' < |s| ensures s[i] != s[i'] {
      if i' < |a.selected| {
        LessIsStrict(s[i]);
      } else if i >= |a.selected| {
        LessIsStrict(s[i]);
      } else {
        assert s[i] in Members(a.selected) && s[i'] in Members(b.selected);
      }
    }
    SortedIsAscending(s);
    assert Members(s) == Members(a.selected) + Members(b.selected);
    TotalUnion(Members(a.selected), Members(b.selected), reach);
  }

  /** A joined pair of winners beats every union of two members they beat. */
  lemma {:induction false} JoinedBeats(a: Entry, b: Entry, s: set<Name>, s': set<Name>, u: set<Name>, v: set<Name>, reach: map<Name, real>)
    requires EntryOk(a, reach) && EntryOk(b, reach) && u !! v
    requires Members(a.selected) <= u && Members(b.selected) <= v && s <= u && s' <= v
    requires Beats(a, s, reach) && Beats(b, s', reach)
    requires Members(Joined(a, b).selected) == Members(a.selected) + Members(b.selected)
    ensures Beats(Joined(a, b), s + s', reach)
  {
    TotalUnion(s, s', reach);
    if a.value == Total(s, reach) && b.value == Total(s', reach) {
      SetLeqOfUnion(Members(a.selected), Members(b.selected), s, s', u, v);
    }
  }

  /** Stores the candidate for size k if it improves on what is there. */
  method Offer(t: Table, k: nat, candidate: Entry, ghost f: Family, ghost reach: map<Name, real>) returns (t': Table)
    requires Holds(candidate, k, f, reach)
    requires k in t ==> Holds(t[k], k, f, reach)
    ensures t'.Keys == t.Keys + {k}
    ensures forall i :: i in t && i != k ==> t'[i] == t[i]
    ensures Holds(t'[k], k, f, reach)
    ensures Beats(t'[k], Members(candidate.selected), reach)
    ensures k in t ==> Beats(t'[k], Members(t[k].selected), reach)
  {
    if k in t {
      var old' := t[k];
      TupleOrderIsSetOrder(candidate.selected, old'.selected);
      if candidate.value > old'.value || (candidate.value == old'.value && TupleLess(candidate.selected, old'.selected)) {
        return t[k := candidate];
      }
      return t;
    }
    return t[k := candidate];
  }

  /** Everything that pair (a, b) contributes is beaten by the entry of its size. */
  ghost predicate PairDone(t: Table, a: nat, b: nat, left: Table, right: Table, reach: map<Name, real>, limit: nat)
    requires a in left && b in right
  {
    a + b <= limit ==>
      a + b in t && Beats(t[a + b], Members(left[a].selected) + Members(right[b].selected), reach)
  }

  ghost predicate Partial(t: Table, h: Family, reach: map<Name, real>, limit: nat) {
    forall k :: k in t ==> k <= limit && Holds(t[k], k, h, reach)
  }

  method MergePair(t: Table, a: nat, b: nat, left: Table, right: Table, limit: nat,
                   ghost f: Family, ghost g: Family, ghost u: set<Name>, ghost v: set<Name>, ghost reach: map<Name, real>)
    returns (t': Table)
    requires a in left && b in right && u !! v && Over(f, u) && Over(g, v)
    requires Holds(left[a], a, f, reach) && Holds(right[b], b, g, reach)
    requires Partial(t, Sum(f, g), reach, limit)
    ensures Partial(t', Sum(f, g), reach, limit)
    ensures PairDone(t', a, b, left, right, reach, limit)
    ensures forall c, d :: c in left && d in right && PairDone(t, c, d, left, right, reach, limit) ==>
      PairDone(t', c, d, left, right, reach, limit)
  {
    if a + b > limit { return t; }
    JoinedHolds(left[a], right[b], a, b, f, g, u, v, reach);
    t' := Offer(t, a + b, Joined(left[a], right[b]), Sum(f, g), reach);
    forall c, d | c in left && d in right && PairDone(t, c, d, left, right, reach, limit)
      ensures PairDone(t', c, d, left, right, reach, limit)
    {
      if c + d == a + b {
        BeatsIsTransitive(t'[a + b], t[a + b], Members(left[c].selected) + Members(right[d].selected), reach);
      }
    }
  }

  /** The inner loop of merge: one left size against every right size. */
  method MergeRow(t: Table, a: nat, left: Table, right: Table, limit: nat,
                  ghost f: Family, ghost g: Family, ghost u: set<Name>, ghost v: set<Name>, ghost reach: map<Name, real>)
    returns (t': Table)
    requires a in left && u !! v && Over(f, u) && Over(g, v)
    requires Holds(left[a], a, f, reach) && Partial(right, g, reach, limit)
    requires Partial(t, Sum(f, g), reach, limit)
    ensures Partial(t', Sum(f, g), reach, limit)
    ensures forall d :: d in right ==> PairDone(t', a, d, left, right, reach, limit)
    ensures forall c, d :: c in left && d in right && PairDone(t, c, d, left, right, reach, limit) ==>
      PairDone(t', c, d, left, right, reach, limit)
  {
    t' := t;
    var bs := right.Keys;
    while bs != {}
      invariant bs <= right.Keys
      invariant Partial(t', Sum(f, g), reach, limit)
      invariant forall c, d :: c in left && d in right && PairDone(t, c, d, left, right, reach, limit) ==>
        PairDone(t', c, d, left, right, reach, limit)
      invariant forall d :: d in right && d !in bs ==> PairDone(t', a, d, left, right, reach, limit)
    {
      var b :| b in bs;
      t' := MergePair(t', a, b, left, right, limit, f, g, u, v, reach);
      bs := bs - {b};
    }
  }

  method Merge(left: Table, right: Table, limit: nat,
               ghost f: Family, ghost g: Family, ghost u: set<Name>, ghost v: set<Name>, ghost reach: map<Name, real>)
    returns (t: Table)
    requires u !! v && Over(f, u) && Over(g, v)
    requires BestTable(left, f, reach, limit) && BestTable(right, g, reach, limit)
    ensures BestTable(t, Sum(f, g), reach, limit)
  {
    t := map[];
    var as' := left.Keys;
    while as' != {}
      invariant as' <= left.Keys
      invariant Partial(t, Sum(f, g), reach, limit)
      invariant forall c, d :: c in left && c !in as' && d in right ==> PairDone(t, c, d, left, right, reach, limit)
    {
      var a :| a in as';
      t := MergeRow(t, a, left, right, limit, f, g, u, v, reach);
      as' := as' - {a};
    }
    AllPairsAreBest(t, left, right, f, g, u, v, reach, limit);
  }

  /** An entry that beats the union of two winners beats the union of what they beat. */
  lemma {:induction false} BeatsUnion(e: Entry, a: Entry, b: Entry, x: set<Name>, y: set<Name>,
                                      f: Family, g: Family, u: set<Name>, v: set<Name>, reach: map<Name, real>)
    requires u !! v && Over(f, u) && Over(g, v) && x in f && y in g
    requires Holds(a, |x|, f, reach) && Beats(a, x, reach) && Holds(b, |y|, g, reach) && Beats(b, y, reach)
    requires Beats(e, Members(a.selected) + Members(b.selected), reach)
    ensures Beats(e, x + y, reach)
  {
    JoinedHolds(a, b, |x|, |y|, f, g, u, v, reach);
    JoinedBeats(a, b, x, y, u, v, reach);
    BeatsIsTransitive(e, Joined(a, b), x + y, reach);
  }

  lemma {:induction false} UnionIsBeaten(t: Table, left: Table, right: Table, x: set<Name>, y: set<Name>,
                                         f: Family, g: Family, u: set<Name>, v: set<Name>, reach: map<Name, real>, limit: nat)
    requires u !! v && Over(f, u) && Over(g, v) && x in f && y in g && |x| + |y| <= limit
    requires BestTable(left, f, reach, limit) && BestTable(right, g, reach, limit)
    requires |x| in left && |y| in right && PairDone(t, |x|, |y|, left, right, reach, limit)
    ensures |x| + |y| in t && Beats(t[|x| + |y|], x + y, reach)
  {
    BeatsUnion(t[|x| + |y|], left[|x|], right[|y|], x, y, f, g, u, v, reach);
  }

  lemma {:induction false} UnionSize(x: set<Name>, y: set<Name>, u: set<Name>, v: set<Name>)
    requires x <= u && y <= v && u !! v
    ensures |x + y| == |x| + |y|
  {
    assert x !! y;
  }

  lemma {:induction false} AllPairsAreBest(t: Table, left: Table, right: Table, f: Family, g: Family, u: set<Name>, v: set<Name>, reach: map<Name, real>, limit: nat)
    requires u !! v && Over(f, u) && Over(g, v)
    requires BestTable(left, f, reach, limit) && BestTable(right, g, reach, limit)
    requires Partial(t, Sum(f, g), reach, limit)
    requires forall c, d :: c in left && d in right ==> PairDone(t, c, d, left, right, reach, limit)
    ensures BestTable(t, Sum(f, g), reach, limit)
  {
    forall s | s in Sum(f, g) && |s| <= limit ensures |s| in t && Beats(t[|s|], s, reach) {
      var x, y :| x in f && y in g && s == x + y;
      UnionSize(x, y, u, v);
      assert |x| in left && |y| in right;
      UnionIsBeaten(t, left, right, x, y, f, g, u, v, reach, limit);
    }
  }
}
