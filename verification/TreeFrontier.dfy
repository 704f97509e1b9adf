/**
 tree_frontier of bench/spec_architecture_screen.py: for every size the
 ancestor-closed selection of greatest total reach, ties broken towards the
 earlier tuple of names.
 */
module TreeFrontier {
  import opened Common
  import opened Names
  import opened SetSums
  import opened CandidateTree
  import opened FrontierTables

  // ---------- Descendants ----------

  /** z is n or lies below it. */
  ghost predicate Under(t: map<Name, Node>, rank: map<Name, nat>, z: Name, n: Name)
    requires Ranked(t, rank) && ParentsKnown(t) && z in t
    decreases rank[z]
  {
    z == n || (t[z].parent.Some? && Under(t, rank, t[z].parent.value, n))
  }

  ghost function Below(t: map<Name, Node>, rank: map<Name, nat>, n: Name): set<Name>
    requires Ranked(t, rank) && ParentsKnown(t)
  {
    set z | z in t && Under(t, rank, z, n)
  }

  lemma {:induction false} UnderRanksHigher(t: map<Name, Node>, rank: map<Name, nat>, z: Name, n: Name)
    requires Ranked(t, rank) && ParentsKnown(t) && z in t && n in t && Under(t, rank, z, n)
    ensures rank[n] <= rank[z]
    decreases rank[z]
  {
    if z != n { UnderRanksHigher(t, rank, t[z].parent.value, n); }
  }

  /** Subtrees of different siblings share nothing. */
  lemma {:induction false} SiblingsAreDisjoint(t: map<Name, Node>, rank: map<Name, nat>, c: Name, d: Name, z: Name)
    requires Ranked(t, rank) && ParentsKnown(t) && c in t && d in t && z in t
    requires c != d && t[c].parent == t[d].parent
    requires Under(t, rank, z, c)
    ensures !Under(t, rank, z, d)
    decreases rank[z]
  {
    if z == c {
      if Under(t, rank, c, d) {
        UnderRanksHigher(t, rank, t[c].parent.value, d);
      }
    } else if z == d {
      UnderRanksHigher(t, rank, t[d].parent.value, c);
    } else {
      SiblingsAreDisjoint(t, rank, c, d, t[z].parent.value);
    }
  }

  /** Whatever lies below n, other than n itself, lies below a child of n. */
  lemma {:induction false} BelowAChild(t: map<Name, Node>, rank: map<Name, nat>, n: Name, z: Name) returns (c: Name)
    requires Ranked(t, rank) && ParentsKnown(t) && z in t && z != n && Under(t, rank, z, n)
    ensures c in t && t[c].parent == Some(n) && Under(t, rank, z, c)
    decreases rank[z]
  {
    if t[z].parent.value == n {
      c := z;
    } else {
      c := BelowAChild(t, rank, n, t[z].parent.value);
    }
  }

  /** Every node lies below a root. */
  lemma {:induction false} BelowARoot(t: map<Name, Node>, rank: map<Name, nat>, z: Name) returns (c: Name)
    requires Ranked(t, rank) && ParentsKnown(t) && z in t
    ensures c in t && t[c].parent == None && Under(t, rank, z, c)
    decreases rank[z]
  {
    if t[z].parent == None {
      c := z;
    } else {
      c := BelowARoot(t, rank, t[z].parent.value);
    }
  }

  // ---------- Ancestor-closed selections ----------

  /** Every selected node other than top is a root or has its parent selected; top itself is selected. */
  ghost predicate Closed(t: map<Name, Node>, top: Option<Name>, s: set<Name>)
    requires s <= t.Keys
  {
    && (top.Some? ==> top.value in s)
    && forall z :: z in s ==> Some(z) == top || t[z].parent == None || t[z].parent.value in s
  }

  /** Ancestor-closed selections inside u, anchored at top (at the virtual root when None). */
  ghost function Selections(t: map<Name, Node>, top: Option<Name>, u: set<Name>): Family {
    iset s | s <= u && u <= t.Keys && Closed(t, top, s)
  }

  /** Those of a whole subtree, or nothing from it. */
  ghost function OptionalSelections(t: map<Name, Node>, c: Name, u: set<Name>): Family {
    iset s | s == {} || s in Selections(t, Some(c), u)
  }

  /** u contains top and, with any node but top and roots, its parent. */
  ghost predicate UpClosed(t: map<Name, Node>, top: Option<Name>, u: set<Name>) {
    u <= t.Keys && Closed(t, top, u)
  }

  /** A selection with any node of c's subtree has c itself. */
  lemma {:induction false} ClimbsToTop(t: map<Name, Node>, rank: map<Name, nat>, top: Option<Name>, c: Name, s: set<Name>, z: Name)
    requires Ranked(t, rank) && ParentsKnown(t) && s <= t.Keys && c in t
    requires Closed(t, top, s) && z in s && Under(t, rank, z, c)
    requires top.Some? ==> !Under(t, rank, top.value, c)
    ensures c in s
    decreases rank[z]
  {
    if z != c {
      ClimbsToTop(t, rank, top, c, s, t[z].parent.value);
    }
  }

  /** Splitting a selection at a child's subtree. */
  lemma {:induction false} SplitSelection(t: map<Name, Node>, rank: map<Name, nat>, top: Option<Name>, u: set<Name>, c: Name, s: set<Name>)
    requires Ranked(t, rank) && ParentsKnown(t) && c in t && t[c].parent == top
    requires UpClosed(t, top, u) && u !! Below(t, rank, c)
    requires s in Selections(t, top, u + Below(t, rank, c))
    ensures s * u in Selections(t, top, u)
    ensures s * Below(t, rank, c) in OptionalSelections(t, c, Below(t, rank, c))
    ensures s == s * u + s * Below(t, rank, c)
  {
    var d := Below(t, rank, c);
    var y := s * d;
    if y != {} {
      var z :| z in y;
      ClimbsToTop(t, rank, top, c, s, z);
      forall w | w in y ensures Some(w) == Some(c) || t[w].parent == None || t[w].parent.value in y {
        if w != c {
          assert Under(t, rank, t[w].parent.value, c);
        }
      }
      assert y in Selections(t, Some(c), d);
    }
  }

  lemma {:induction false} JoinSelection(t: map<Name, Node>, rank: map<Name, nat>, top: Option<Name>, u: set<Name>, c: Name, x: set<Name>, y: set<Name>)
    requires Ranked(t, rank) && ParentsKnown(t) && c in t && t[c].parent == top
    requires UpClosed(t, top, u)
    requires x in Selections(t, top, u) && y in OptionalSelections(t, c, Below(t, rank, c))
    ensures x + y in Selections(t, top, u + Below(t, rank, c))
  {
    forall z | z in x + y ensures Some(z) == top || t[z].parent == None || t[z].parent.value in x + y {
      if z == c && top.Some? { assert top.value in x; }
    }
  }

  lemma {:induction false} GrowsUpClosed(t: map<Name, Node>, rank: map<Name, nat>, top: Option<Name>, u: set<Name>, c: Name)
    requires Ranked(t, rank) && ParentsKnown(t) && c in t && t[c].parent == top
    requires UpClosed(t, top, u)
    ensures UpClosed(t, top, u + Below(t, rank, c))
  {
    var d := Below(t, rank, c);
    forall z | z in u + d ensures Some(z) == top || t[z].parent == None || t[z].parent.value in u + d {
      if z in d && z != c {
        assert Under(t, rank, t[z].parent.value, c);
      }
    }
  }

  /** Merging in one child's subtree extends the family by exactly that subtree. */
  lemma {:induction false} SelectionsGrow(t: map<Name, Node>, rank: map<Name, nat>, top: Option<Name>, u: set<Name>, c: Name)
    requires Ranked(t, rank) && ParentsKnown(t) && c in t && t[c].parent == top
    requires UpClosed(t, top, u) && u !! Below(t, rank, c)
    ensures Sum(Selections(t, top, u), OptionalSelections(t, c, Below(t, rank, c)))
         == Selections(t, top, u + Below(t, rank, c))
    ensures UpClosed(t, top, u + Below(t, rank, c))
  {
    var d := Below(t, rank, c);
    var f, g, h := Selections(t, top, u), OptionalSelections(t, c, d), Selections(t, top, u + d);
    forall s ensures s in Sum(f, g) <==> s in h {
      if s in h {
        SplitSelection(t, rank, top, u, c, s);
        assert s * u in f && s * d in g && s == s * u + s * d;
      }
      if s in Sum(f, g) {
        var x, y :| x in f && y in g && s == x + y;
        JoinSelection(t, rank, top, u, c, x, y);
      }
    }
    GrowsUpClosed(t, rank, top, u, c);
  }

  // ---------- The recursion over children ----------

  /** Union of the subtrees of the first i names. */
  ghost function BelowFirst(t: map<Name, Node>, rank: map<Name, nat>, list: seq<Name>, i: nat): set<Name>
    requires Ranked(t, rank) && ParentsKnown(t) && i <= |list|
  {
    if i == 0 then {} else BelowFirst(t, rank, list, i - 1) + Below(t, rank, list[i - 1])
  }

  lemma {:induction false} InBelowFirst(t: map<Name, Node>, rank: map<Name, nat>, list: seq<Name>, i: nat, z: Name)
    requires Ranked(t, rank) && ParentsKnown(t) && i <= |list|
    ensures z in BelowFirst(t, rank, list, i) <==> exists j :: 0 <= j < i && z in Below(t, rank, list[j])
  {
    if i > 0 { InBelowFirst(t, rank, list, i - 1, z); }
  }

  /** The next child's subtree is new. */
  lemma {:induction false} NextChildIsNew(t: map<Name, Node>, rank: map<Name, nat>, top: Option<Name>, list: seq<Name>, i: nat)
    requires Ranked(t, rank) && ParentsKnown(t) && i < |list| && Distinct(list)
    requires forall c :: c in list ==> c in t && t[c].parent == top
    requires top.Some? ==> top.value in t
    ensures BelowFirst(t, rank, list, i) !! Below(t, rank, list[i])
    ensures top.Some? ==> top.value !in Below(t, rank, list[i])
  {
    forall z | z in BelowFirst(t, rank, list, i) ensures z !in Below(t, rank, list[i]) {
      InBelowFirst(t, rank, list, i, z);
      var j :| 0 <= j < i && z in Below(t, rank, list[j]);
      SiblingsAreDisjoint(t, rank, list[j], list[i], z);
    }
    if top.Some? && Under(t, rank, top.value, list[i]) {
      UnderRanksHigher(t, rank, top.value, list[i]);
    }
  }

  /** The children's subtrees and the node itself make up its subtree. */
  lemma {:induction false} ChildrenCover(t: map<Name, Node>, rank: map<Name, nat>, n: Name, list: seq<Name>)
    requires Ranked(t, rank) && ParentsKnown(t) && n in t && Members(list) == Siblings(t, Some(n))
    ensures {n} + BelowFirst(t, rank, list, |list|) == Below(t, rank, n)
  {
    forall z ensures z in {n} + BelowFirst(t, rank, list, |list|) <==> z in Below(t, rank, n) {
      InBelowFirst(t, rank, list, |list|, z);
      if z in Below(t, rank, n) && z != n {
        var c := BelowAChild(t, rank, n, z);
        assert c in Members(list);
        var j :| 0 <= j < |list| && list[j] == c;
      }
      if z in BelowFirst(t, rank, list, |list|) {
        var j :| 0 <= j < |list| && z in Below(t, rank, list[j]);
        assert list[j] in Members(list);
        UnderParent(t, rank, z, list[j], n);
      }
    }
  }

  lemma {:induction false} UnderParent(t: map<Name, Node>, rank: map<Name, nat>, z: Name, c: Name, n: Name)
    requires Ranked(t, rank) && ParentsKnown(t) && z in t && c in t && t[c].parent == Some(n)
    requires Under(t, rank, z, c)
    ensures Under(t, rank, z, n)
    decreases rank[z]
  {
    if z == c {
      assert Under(t, rank, n, n);
    } else {
      UnderParent(t, rank, t[z].parent.value, c, n);
    }
  }

  lemma {:induction false} RootsCover(t: map<Name, Node>, rank: map<Name, nat>, list: seq<Name>)
    requires Ranked(t, rank) && ParentsKnown(t) && Members(list) == Siblings(t, None)
    ensures BelowFirst(t, rank, list, |list|) == t.Keys
  {
    forall z ensures z in BelowFirst(t, rank, list, |list|) <==> z in t {
      InBelowFirst(t, rank, list, |list|, z);
      if z in t {
        var c := BelowARoot(t, rank, z);
        assert c in Members(list);
        var j :| 0 <= j < |list| && list[j] == c;
      }
    }
  }

  /** A child's subtree is strictly smaller than its parent's. */
  lemma {:induction false} ChildIsSmaller(t: map<Name, Node>, rank: map<Name, nat>, n: Name, c: Name)
    requires Ranked(t, rank) && ParentsKnown(t) && n in t && c in t && t[c].parent == Some(n)
    ensures |Below(t, rank, c)| < |Below(t, rank, n)|
  {
    forall z | z in Below(t, rank, c) ensures z in Below(t, rank, n) { UnderParent(t, rank, z, c, n); }
    if Under(t, rank, n, c) { UnderRanksHigher(t, rank, n, c); }
    assert n in Below(t, rank, n) && n !in Below(t, rank, c);
    ProperSubsetIsSmaller(Below(t, rank, c), Below(t, rank, n));
  }

  /** What the recursions rely on: a ranked forest with complete lists of children. */
  ghost predicate Linked(tree: Tree, rank: map<Name, nat>) {
    && Ranked(tree.byName, rank) && ParentsKnown(tree.byName) && tree.reach.Keys == tree.byName.Keys
    && forall p: Option<Name> :: (p == None || p.value in tree.byName) ==>
      p in tree.children && Distinct(tree.children[p]) && Members(tree.children[p]) == Siblings(tree.byName, p)
  }

  lemma {:induction false} TreeIsLinked(tree: Tree, rank: map<Name, nat>)
    requires TreeOk(tree) && Ranked(tree.byName, rank)
    ensures Linked(tree, rank)
  {
    forall p: Option<Name> | p == None || p.value in tree.byName
      ensures p in tree.children && Distinct(tree.children[p]) && Members(tree.children[p]) == Siblings(tree.byName, p)
    {
      AscendingIsDistinct(tree.children[p]);
    }
  }

  const Nothing := Entry(0.0, [])

  /** Allowing the empty selection beside a subtree's own. */
  lemma {:induction false} OptionalTable(t: map<Name, Node>, c: Name, u: set<Name>, table: Table, reach: map<Name, real>, limit: nat)
    requires BestTable(table, Selections(t, Some(c), u), reach, limit)
    ensures BestTable(map[0 := Nothing] + table, OptionalSelections(t, c, u), reach, limit)
  {
    assert Members(Nothing.selected) == {};
    forall s | s in OptionalSelections(t, c, u) && |s| <= limit
      ensures |s| in map[0 := Nothing] + table && Beats((map[0 := Nothing] + table)[|s|], s, reach)
    {
      if s != {} && |s| in table { assert s in Selections(t, Some(c), u); }
    }
  }

  method MergeOptional(table: Table, sub: Table, limit: nat, ghost t: map<Name, Node>, ghost top: Option<Name>,
                       ghost child: Name, ghost before: set<Name>, ghost d: set<Name>, ghost reach: map<Name, real>)
    returns (table': Table)
    requires before !! d
    requires BestTable(table, Selections(t, top, before), reach, limit)
    requires BestTable(map[0 := Nothing] + sub, OptionalSelections(t, child, d), reach, limit)
    ensures BestTable(table', Sum(Selections(t, top, before), OptionalSelections(t, child, d)), reach, limit)
  {
    table' := Merge(table, map[0 := Nothing] + sub, limit,
                    Selections(t, top, before), OptionalSelections(t, child, d), before, d, reach);
  }

  /** One step of the loop over children: the child's table, or nothing from it, merged in. */
  method MergeChild(tree: Tree, top: Option<Name>, child: Name, table: Table, limit: nat,
                    ghost rank: map<Name, nat>, ghost before: set<Name>, ghost fuel: nat)
    returns (table': Table)
    requires Linked(tree, rank) && child in tree.byName && tree.byName[child].parent == top
    requires |Below(tree.byName, rank, child)| < fuel
    requires before !! Below(tree.byName, rank, child) && UpClosed(tree.byName, top, before)
    requires BestTable(table, Selections(tree.byName, top, before), tree.reach, limit)
    ensures BestTable(table', Selections(tree.byName, top, before + Below(tree.byName, rank, child)), tree.reach, limit)
    decreases fuel, 0
  {
    ghost var t, d := tree.byName, Below(tree.byName, rank, child);
    var sub := Subtree(tree, child, limit, rank);
    OptionalTable(t, child, d, sub, tree.reach, limit);
    SelectionsGrow(t, rank, top, before, child);
    table' := MergeOptional(table, sub, limit, t, top, child, before, d, tree.reach);
  }

  /** The loop over children, shared by the subtrees and the virtual root. */
  method MergeChildren(tree: Tree, top: Option<Name>, list: seq<Name>, start: Table, limit: nat,
                       ghost rank: map<Name, nat>, ghost u: set<Name>, ghost fuel: nat)
    returns (table: Table)
    requires Linked(tree, rank)
    requires Distinct(list) && Members(list) == Siblings(tree.byName, top)
    requires u == (if top.Some? then {top.value} else {}) && u <= tree.byName.Keys
    requires forall c :: c in Siblings(tree.byName, top) ==> |Below(tree.byName, rank, c)| < fuel
    requires BestTable(start, Selections(tree.byName, top, u), tree.reach, limit)
    ensures BestTable(table, Selections(tree.byName, top, u + BelowFirst(tree.byName, rank, list, |list|)), tree.reach, limit)
    decreases fuel, 1
  {
    ghost var t := tree.byName;
    ghost var before := u;
    table := start;
    for i := 0 to |list|
      invariant before == u + BelowFirst(t, rank, list, i) && UpClosed(t, top, before)
      invariant BestTable(table, Selections(t, top, before), tree.reach, limit)
    {
      NextChild(t, rank, top, list, i, u, before, fuel);
      table := MergeChild(tree, top, list[i], table, limit, rank, before, fuel);
      before := before + Below(t, rank, list[i]);
    }
  }

  /** Everything a step of the loop needs to know about the next child. */
  lemma {:induction false} NextChild(t: map<Name, Node>, rank: map<Name, nat>, top: Option<Name>, list: seq<Name>, i: nat,
                                     u: set<Name>, before: set<Name>, fuel: nat)
    requires Ranked(t, rank) && ParentsKnown(t) && i < |list| && Distinct(list)
    requires Members(list) == Siblings(t, top) && u == (if top.Some? then {top.value} else {}) && u <= t.Keys
    requires forall c :: c in Siblings(t, top) ==> |Below(t, rank, c)| < fuel
    requires before == u + BelowFirst(t, rank, list, i) && UpClosed(t, top, before)
    ensures list[i] in t && t[list[i]].parent == top && |Below(t, rank, list[i])| < fuel
    ensures before !! Below(t, rank, list[i]) && UpClosed(t, top, before + Below(t, rank, list[i]))
    ensures before + Below(t, rank, list[i]) == u + BelowFirst(t, rank, list, i + 1)
  {
    assert list[i] in Siblings(t, top) by { assert list[i] in Members(list); }
    ChildFits(t, rank, top, list, i, u);
    GrowsUpClosed(t, rank, top, before, list[i]);
  }

  lemma {:induction false} ChildFits(t: map<Name, Node>, rank: map<Name, nat>, top: Option<Name>, list: seq<Name>, i: nat, u: set<Name>)
    requires Ranked(t, rank) && ParentsKnown(t) && i < |list| && Distinct(list)
    requires Members(list) == Siblings(t, top) && u == (if top.Some? then {top.value} else {}) && u <= t.Keys
    ensures u + BelowFirst(t, rank, list, i) !! Below(t, rank, list[i])
    ensures u + BelowFirst(t, rank, list, i) + Below(t, rank, list[i]) == u + BelowFirst(t, rank, list, i + 1)
  {
    forall c | c in list ensures c in t && t[c].parent == top { assert c in Members(list); }
    NextChildIsNew(t, rank, top, list, i);
  }

  /** The children of a node: distinct, with smaller subtrees, and with the node all of its own. */
  lemma {:induction false} ChildFacts(tree: Tree, rank: map<Name, nat>, name: Name)
    requires Linked(tree, rank) && name in tree.byName
    ensures var t, list := tree.byName, tree.children[Some(name)];
      && Distinct(list) && {name} + BelowFirst(t, rank, list, |list|) == Below(t, rank, name)
      && forall c :: c in Siblings(t, Some(name)) ==> |Below(t, rank, c)| < |Below(t, rank, name)|
  {
    var t := tree.byName;
    ChildrenCover(t, rank, name, tree.children[Some(name)]);
    forall c | c in Siblings(t, Some(name)) ensures |Below(t, rank, c)| < |Below(t, rank, name)| {
      ChildIsSmaller(t, rank, name, c);
    }
  }

  method Subtree(tree: Tree, name: Name, limit: nat, ghost rank: map<Name, nat>) returns (table: Table)
    requires Linked(tree, rank) && name in tree.byName
    ensures BestTable(table, Selections(tree.byName, Some(name), Below(tree.byName, rank, name)), tree.reach, limit)
    decreases |Below(tree.byName, rank, name)|, 2
  {
    ghost var t := tree.byName;
    table := LeafOf(name, tree.reach[name], limit);
    LeafTable(t, name, tree.reach, limit);
    ChildFacts(tree, rank, name);
    table := MergeChildren(tree, Some(name), tree.children[Some(name)], table, limit, rank, {name}, |Below(t, rank, name)|);
  }

  function LeafOf(name: Name, reach: real, limit: nat): Table {
    if limit != 0 then map[1 := Entry(reach, [name])] else map[]
  }

  lemma {:induction false} AloneHolds(name: Name, reach: map<Name, real>)
    requires name in reach
    ensures EntryOk(Entry(reach[name], [name]), reach) && Beats(Entry(reach[name], [name]), {name}, reach)
    ensures Members([name]) == {name}
  {
    assert {} + {name} == {name} == Members([name]);
    TotalAdd({}, name, reach);
  }

  /** Before any child is merged, the node alone is the only selection. */
  lemma {:induction false} LeafTable(t: map<Name, Node>, name: Name, reach: map<Name, real>, limit: nat)
    requires name in t && name in reach
    ensures BestTable(LeafOf(name, reach[name], limit), Selections(t, Some(name), {name}), reach, limit)
  {
    AloneHolds(name, reach);
    forall s ensures s in Selections(t, Some(name), {name}) <==> s == {name} { }
  }
}
