/**
 preorder and shape_key of bench/spec_architecture_screen.py: the order in which
 a tree is walked, and the parent indices that name a selection's topology.
 */
module Shapes {
  import opened Common
  import opened Names
  import opened CandidateTree
  import opened FrontierTables
  import opened TreeFrontier

  // ---------- The walk ----------

  /** x comes before position i. */
  predicate Earlier(list: seq<Name>, i: nat, x: Name)
    requires i <= |list|
  {
    x in list[..i]
  }

  /** list has every name of u once, and each after its parent, or with top as its parent. */
  ghost predicate Visits(t: map<Name, Node>, top: Option<Name>, u: set<Name>, list: seq<Name>) {
    && Distinct(list) && Members(list) == u && u <= t.Keys
    && forall i :: 0 <= i < |list| ==>
      t[list[i]].parent == top || (t[list[i]].parent.Some? && Earlier(list, i, t[list[i]].parent.value))
  }

  lemma {:induction false} DistinctJoin(a: seq<Name>, b: seq<Name>)
    requires Distinct(a) && Distinct(b) && Members(a) !! Members(b)
    ensures Distinct(a + b) && Members(a + b) == Members(a) + Members(b)
  {
    forall i, j | 0 <= i < j < |a + b| ensures (a + b)[i] != (a + b)[j] {
      if i < |a| && j >= |a| { assert a[i] in Members(a) && b[j - |a|] in Members(b); }
    }
  }

  /** A walk of the children so far, the next child, and a walk below it. */
  lemma {:induction false} WalkOn(t: map<Name, Node>, top: Option<Name>, u: set<Name>, a: seq<Name>, c: Name, d: set<Name>, b: seq<Name>)
    requires Visits(t, top, u, a) && c in t && t[c].parent == top && c in d && u !! d
    requires Visits(t, Some(c), d - {c}, b)
    ensures Visits(t, top, u + d, a + [c] + b)
  {
    var list := a + [c] + b;
    assert Members([c]) == {c};
    DistinctJoin(a, [c]);
    DistinctJoin(a + [c], b);
    forall i | 0 <= i < |list|
      ensures t[list[i]].parent == top || (t[list[i]].parent.Some? && Earlier(list, i, t[list[i]].parent.value))
    {
      if i < |a| {
        assert list[i] == a[i] && list[..i] == a[..i];
      } else if i > |a| {
        var k := i - |a| - 1;
        assert list[i] == b[k];
        assert list[..i] == a + [c] + b[..k];
        if t[b[k]].parent == Some(c) { assert c in list[..i]; }
      }
    }
  }

  /** The names of list in order, each followed by what hangs from it, to a depth of fuel. */
  ghost function WalkFrom(children: map<Option<Name>, seq<Name>>, list: seq<Name>, fuel: nat): seq<Name>
    decreases fuel, |list|
  {
    if list == [] then []
    else WalkFrom(children, list[..|list| - 1], fuel) + WalkNode(children, list[|list| - 1], fuel)
  }

  ghost function WalkNode(children: map<Option<Name>, seq<Name>>, x: Name, fuel: nat): seq<Name>
    decreases fuel, 0
  {
    [x] + if fuel == 0 || Some(x) !in children then [] else WalkFrom(children, children[Some(x)], fuel - 1)
  }

  /** order is the preorder of the forest, siblings in ascending order. */
  ghost predicate SortedWalk(t: map<Name, Node>, order: seq<Name>) {
    && Visits(t, None, t.Keys, order)
    && exists children :: ChildrenOk(t, children) && order == WalkFrom(children, children[None], |t.Keys|)
  }

  /** A node comes first, then what is below it; and an earlier sibling, with all below it, comes before a later one. */
  lemma {:induction false} WalkOrders(children: map<Option<Name>, seq<Name>>, list: seq<Name>, fuel: nat, i: nat, j: nat)
    returns (before: seq<Name>, between: seq<Name>, after: seq<Name>)
    requires i < j < |list|
    ensures WalkFrom(children, list, fuel)
      == before + WalkNode(children, list[i], fuel) + between + WalkNode(children, list[j], fuel) + after
    ensures WalkNode(children, list[i], fuel)[0] == list[i] && WalkNode(children, list[j], fuel)[0] == list[j]
    decreases |list|
  {
    var last := |list| - 1;
    if j < last {
      before, between, after := WalkOrders(children, list[..last], fuel, i, j);
      after := after + WalkNode(children, list[last], fuel);
    } else {
      before, between := WalkFinds(children, list[..last], fuel, i);
      after := [];
    }
  }

  lemma {:induction false} WalkFinds(children: map<Option<Name>, seq<Name>>, list: seq<Name>, fuel: nat, i: nat)
    returns (before: seq<Name>, after: seq<Name>)
    requires i < |list|
    ensures WalkFrom(children, list, fuel) == before + WalkNode(children, list[i], fuel) + after
    decreases |list|
  {
    var last := |list| - 1;
    if i < last {
      before, after := WalkFinds(children, list[..last], fuel, i);
      after := after + WalkNode(children, list[last], fuel);
    } else {
      before, after := WalkFrom(children, list[..last], fuel), [];
    }
  }

  lemma {:induction false} SameWalk(t: map<Name, Node>, a: map<Option<Name>, seq<Name>>, b: map<Option<Name>, seq<Name>>, list: seq<Name>, fuel: nat)
    requires ChildrenOk(t, a) && ChildrenOk(t, b) && forall x :: x in list ==> x in t
    ensures WalkFrom(a, list, fuel) == WalkFrom(b, list, fuel)
    decreases fuel, |list|
  {
    if list != [] {
      SameWalk(t, a, b, list[..|list| - 1], fuel);
      SameNode(t, a, b, list[|list| - 1], fuel);
    }
  }

  lemma {:induction false} SameNode(t: map<Name, Node>, a: map<Option<Name>, seq<Name>>, b: map<Option<Name>, seq<Name>>, x: Name, fuel: nat)
    requires ChildrenOk(t, a) && ChildrenOk(t, b) && x in t
    ensures WalkNode(a, x, fuel) == WalkNode(b, x, fuel)
    decreases fuel, 0
  {
    if fuel > 0 {
      SameChildren(t, a, b, Some(x));
      SameWalk(t, a, b, a[Some(x)], fuel - 1);
    }
  }

  lemma {:induction false} SameChildren(t: map<Name, Node>, a: map<Option<Name>, seq<Name>>, b: map<Option<Name>, seq<Name>>, p: Option<Name>)
    requires ChildrenOk(t, a) && ChildrenOk(t, b) && (p == None || p.value in t)
    ensures p in a && p in b && a[p] == b[p] && forall x :: x in a[p] ==> x in t
  {
    AscendingIsUnique(a[p], b[p]);
    forall x | x in a[p] ensures x in t { assert x in Members(a[p]); }
  }

  /** A forest has one preorder. */
  lemma {:induction false} WalkIsUnique(t: map<Name, Node>, order: seq<Name>, other: seq<Name>)
    requires SortedWalk(t, order) && SortedWalk(t, other)
    ensures order == other
  {
    var a :| ChildrenOk(t, a) && order == WalkFrom(a, a[None], |t.Keys|);
    var b :| ChildrenOk(t, b) && other == WalkFrom(b, b[None], |t.Keys|);
    SameChildren(t, a, b, None);
    SameWalk(t, a, b, a[None], |t.Keys|);
  }

  /** preorder: the children in order, each followed by everything below it. */
  method Preorder(tree: Tree, top: Option<Name>, ghost rank: map<Name, nat>, ghost fuel: nat) returns (order: seq<Name>)
    requires Linked(tree, rank) && (top.Some? ==> top.value in tree.byName) && Deep(tree, top, rank, fuel)
    ensures Walked(tree, top, rank, fuel, |tree.children[top]|, order)
    decreases fuel, 1
  {
    order := [];
    WalkBegins(tree, top, rank, fuel);
    for i := 0 to |tree.children[top]|
      invariant Walked(tree, top, rank, fuel, i, order)
    {
      order := PreorderNext(tree, top, rank, fuel, i, order);
    }
  }

  /** The loop body: the i-th child and everything below it. */
  method PreorderNext(tree: Tree, top: Option<Name>, ghost rank: map<Name, nat>, ghost fuel: nat, i: nat, order: seq<Name>)
    returns (next: seq<Name>)
    requires Linked(tree, rank) && (top.Some? ==> top.value in tree.byName) && Deep(tree, top, rank, fuel)
    requires i < |tree.children[top]| && Walked(tree, top, rank, fuel, i, order)
    ensures Walked(tree, top, rank, fuel, i + 1, next)
    decreases fuel, 0
  {
    var c := tree.children[top][i];
    ChildOfTop(tree, top, rank, i);
    var below := PreorderBelow(tree, c, rank, fuel - 1);
    next := order + [c] + below;
    NextVisited(tree, top, rank, fuel, i, order, below, next);
  }

  /** Every child of top has at most fuel names below it. */
  ghost predicate Deep(tree: Tree, top: Option<Name>, rank: map<Name, nat>, fuel: nat)
    requires Linked(tree, rank)
  {
    forall c :: c in Siblings(tree.byName, top) ==> |Below(tree.byName, rank, c)| <= fuel
  }

  /** The first i children of top, and everything below them, have been listed. */
  ghost predicate Walked(tree: Tree, top: Option<Name>, rank: map<Name, nat>, fuel: nat, i: nat, order: seq<Name>)
    requires Linked(tree, rank) && (top.Some? ==> top.value in tree.byName)
  {
    && i <= |tree.children[top]|
    && Visits(tree.byName, top, BelowFirst(tree.byName, rank, tree.children[top], i), order)
    && order == WalkFrom(tree.children, tree.children[top][..i], fuel)
  }

  /** Everything below c, apart from c, has been listed. */
  ghost predicate WalkedBelow(tree: Tree, c: Name, rank: map<Name, nat>, fuel: nat, below: seq<Name>)
    requires Linked(tree, rank) && c in tree.byName
  {
    && c in Below(tree.byName, rank, c) && Visits(tree.byName, Some(c), Below(tree.byName, rank, c) - {c}, below)
    && below == WalkFrom(tree.children, tree.children[Some(c)], fuel)
  }

  lemma {:induction false} WalkBegins(tree: Tree, top: Option<Name>, rank: map<Name, nat>, fuel: nat)
    requires Linked(tree, rank) && (top.Some? ==> top.value in tree.byName)
    ensures Walked(tree, top, rank, fuel, 0, [])
  {
  }

  lemma {:induction false} WalkEnds(tree: Tree, top: Option<Name>, rank: map<Name, nat>, fuel: nat, order: seq<Name>)
    requires Linked(tree, rank) && (top.Some? ==> top.value in tree.byName)
    requires Walked(tree, top, rank, fuel, |tree.children[top]|, order)
    ensures Visits(tree.byName, top, BelowFirst(tree.byName, rank, tree.children[top], |tree.children[top]|), order)
    ensures order == WalkFrom(tree.children, tree.children[top], fuel)
  {
    assert tree.children[top][..|tree.children[top]|] == tree.children[top];
  }

  lemma {:induction false} ChildOfTop(tree: Tree, top: Option<Name>, rank: map<Name, nat>, i: nat)
    requires Linked(tree, rank) && (top.Some? ==> top.value in tree.byName) && i < |tree.children[top]|
    ensures var c := tree.children[top][i];
      && c in Siblings(tree.byName, top) && c in tree.byName && c in Below(tree.byName, rank, c)
      && |Below(tree.byName, rank, c)| >= 1
  {
    var c := tree.children[top][i];
    assert c in Members(tree.children[top]);
    assert Below(tree.byName, rank, c) != {} by { assert c in Below(tree.byName, rank, c); }
  }

  lemma {:induction false} WalkExtends(children: map<Option<Name>, seq<Name>>, list: seq<Name>, i: nat, fuel: nat, order: seq<Name>, below: seq<Name>)
    requires i < |list| && fuel > 0 && Some(list[i]) in children
    requires order == WalkFrom(children, list[..i], fuel) && below == WalkFrom(children, children[Some(list[i])], fuel - 1)
    ensures order + [list[i]] + below == WalkFrom(children, list[..i + 1], fuel)
  {
    assert list[..i + 1][..i] == list[..i];
    assert WalkNode(children, list[i], fuel) == [list[i]] + below;
    assert order + [list[i]] + below == order + ([list[i]] + below);
  }

  /** The i-th child and everything below it have been appended. */
  lemma {:induction false} NextVisited(tree: Tree, top: Option<Name>, rank: map<Name, nat>, fuel: nat, i: nat,
                                       order: seq<Name>, below: seq<Name>, next: seq<Name>)
    requires Linked(tree, rank) && (top.Some? ==> top.value in tree.byName)
    requires fuel > 0 && i < |tree.children[top]| && tree.children[top][i] in Siblings(tree.byName, top)
    requires Walked(tree, top, rank, fuel, i, order)
    requires WalkedBelow(tree, tree.children[top][i], rank, fuel - 1, below)
    requires next == order + [tree.children[top][i]] + below
    ensures Walked(tree, top, rank, fuel, i + 1, next)
  {
    var t, list := tree.byName, tree.children[top];
    NextIsFresh(t, rank, top, list, i);
    WalkOn(t, top, BelowFirst(t, rank, list, i), order, list[i], Below(t, rank, list[i]), below);
    WalkExtends(tree.children, list, i, fuel, order, below);
  }

  method PreorderBelow(tree: Tree, c: Name, ghost rank: map<Name, nat>, ghost fuel: nat) returns (below: seq<Name>)
    requires Linked(tree, rank) && c in tree.byName && |Below(tree.byName, rank, c)| <= fuel + 1
    ensures WalkedBelow(tree, c, rank, fuel, below)
    decreases fuel, 2
  {
    ghost var t, d := tree.byName, Below(tree.byName, rank, c);
    forall x | x in Siblings(t, Some(c)) ensures |Below(t, rank, x)| <= fuel { ChildIsSmaller(t, rank, c, x); }
    below := Preorder(tree, Some(c), rank, fuel);
    WalkEnds(tree, Some(c), rank, fuel, below);
    BelowIsChildren(t, rank, c, tree.children[Some(c)]);
  }

  lemma {:induction false} NextIsFresh(t: map<Name, Node>, rank: map<Name, nat>, top: Option<Name>, list: seq<Name>, i: nat)
    requires Ranked(t, rank) && ParentsKnown(t) && i < |list| && Distinct(list)
    requires Members(list) == Siblings(t, top) && (top.Some? ==> top.value in t)
    ensures BelowFirst(t, rank, list, i) !! Below(t, rank, list[i])
  {
    forall x | x in list ensures x in t && t[x].parent == top { assert x in Members(list); }
    NextChildIsNew(t, rank, top, list, i);
  }

  /** Below a node, apart from itself: what lies below its children. */
  lemma {:induction false} BelowIsChildren(t: map<Name, Node>, rank: map<Name, nat>, n: Name, list: seq<Name>)
    requires Ranked(t, rank) && ParentsKnown(t) && n in t && Members(list) == Siblings(t, Some(n))
    ensures n in Below(t, rank, n) && Below(t, rank, n) - {n} == BelowFirst(t, rank, list, |list|)
  {
    ChildrenCover(t, rank, n, list);
    InBelowFirst(t, rank, list, |list|, n);
    forall j | 0 <= j < |list| ensures n !in Below(t, rank, list[j]) {
      assert list[j] in Members(list);
      if Under(t, rank, n, list[j]) { UnderRanksHigher(t, rank, n, list[j]); }
    }
  }

  /** The whole tree: parents before children, siblings in ascending order. */
  method Walk(tree: Tree) returns (order: seq<Name>)
    requires TreeOk(tree)
    ensures SortedWalk(tree.byName, order)
  {
    ghost var t := tree.byName;
    ghost var rank :| Ranked(t, rank);
    TreeIsLinked(tree, rank);
    forall c | c in Siblings(t, None) ensures |Below(t, rank, c)| <= |t.Keys| { SubsetSize(Below(t, rank, c), t.Keys); }
    order := Preorder(tree, None, rank, |t.Keys|);
    WalkEnds(tree, None, rank, |t.Keys|, order);
    RootsCover(t, rank, tree.children[None]);
    assert ChildrenOk(t, tree.children);
  }

  // ---------- Shapes ----------

  /** The chosen names, in the given order. */
  function Chosen(order: seq<Name>, chosen: set<Name>): (s: seq<Name>)
    ensures forall x :: x in s <==> x in order && x in chosen
  {
    if order == [] then []
    else
      var before := Chosen(order[..|order| - 1], chosen);
      var x := order[|order| - 1];
      assert order == order[..|order| - 1] + [x];
      if x in chosen then before + [x] else before
  }

  function IndexOf(list: seq<Name>, x: Name): (i: nat)
    ensures i <= |list| && (i < |list| <==> x in list) && (i < |list| ==> list[i] == x)
    ensures forall j :: 0 <= j < i ==> list[j] != x
  {
    if list == [] || list[0] == x then 0
    else
      assert list == [list[0]] + list[1..];
      1 + IndexOf(list[1..], x)
  }

  /** One plus the place of the parent, and zero for the virtual root. */
  function ParentIndex(t: map<Name, Node>, list: seq<Name>, x: Name): nat
    requires x in t
  {
    match t[x].parent
    case None => 0
    case Some(p) => if p in list then IndexOf(list, p) + 1 else 0
  }

  /** shape lists, for the chosen names in walking order, where each one's parent stands; always before it. */
  ghost predicate Shaped(shape: seq<nat>, list: seq<Name>, t: map<Name, Node>) {
    && |shape| == |list| && (forall x :: x in list ==> x in t)
    && forall i :: 0 <= i < |list| ==>
      if t[list[i]].parent.None? then shape[i] == 0
      else 1 <= shape[i] <= i && list[shape[i] - 1] == t[list[i]].parent.value
  }

  predicate ClosedNames(t: map<Name, Node>, selected: seq<Name>) {
    forall x :: x in selected ==> x in t && (t[x].parent.None? || t[x].parent.value in selected)
  }

  lemma {:induction false} ChosenBefore(order: seq<Name>, chosen: set<Name>, i: nat) returns (k: nat)
    requires Distinct(order) && i < |Chosen(order, chosen)|
    ensures k < |order| && order[k] == Chosen(order, chosen)[i]
    ensures forall x :: x in order[..k] && x in chosen ==> x in Chosen(order, chosen)[..i]
    decreases |order|
  {
    var before := order[..|order| - 1];
    if i < |Chosen(before, chosen)| {
      k := ChosenBefore(before, chosen, i);
      assert order[..k] == before[..k] && Chosen(order, chosen)[..i] == Chosen(before, chosen)[..i];
    } else {
      k := |order| - 1;
      assert Chosen(order, chosen)[..i] == Chosen(before, chosen);
    }
  }

  lemma {:induction false} FirstPlace(list: seq<Name>, x: Name, i: nat)
    requires i <= |list| && x in list[..i]
    ensures IndexOf(list, x) < i
  {
    var j :| 0 <= j < i && list[j] == x;
  }

  lemma {:induction false} ParentStandsBefore(t: map<Name, Node>, order: seq<Name>, selected: seq<Name>, i: nat)
    requires Visits(t, None, t.Keys, order) && ClosedNames(t, selected)
    requires i < |Chosen(order, Members(selected))|
    ensures var list := Chosen(order, Members(selected));
      list[i] in t && (t[list[i]].parent.Some? ==> t[list[i]].parent.value in list[..i])
  {
    var list := Chosen(order, Members(selected));
    assert list[i] in list;
    var k := ChosenBefore(order, Members(selected), i);
    if t[list[i]].parent.Some? {
      assert Earlier(order, k, t[list[i]].parent.value);
    }
  }

  /** Every name of list comes after its parent. */
  ghost predicate ParentsFirst(t: map<Name, Node>, list: seq<Name>) {
    forall i :: 0 <= i < |list| ==>
      list[i] in t && (t[list[i]].parent.Some? ==> Earlier(list, i, t[list[i]].parent.value))
  }

  lemma {:induction false} ChosenParentsFirst(t: map<Name, Node>, order: seq<Name>, selected: seq<Name>)
    requires Visits(t, None, t.Keys, order) && ClosedNames(t, selected)
    ensures ParentsFirst(t, Chosen(order, Members(selected)))
  {
    var list := Chosen(order, Members(selected));
    forall i | 0 <= i < |list|
      ensures list[i] in t && (t[list[i]].parent.Some? ==> Earlier(list, i, t[list[i]].parent.value))
    {
      ParentStandsBefore(t, order, selected, i);
    }
  }

  /** The parent indices of the first names of list. */
  ghost predicate Indexed(t: map<Name, Node>, list: seq<Name>, indices: seq<nat>) {
    |indices| <= |list| && forall j :: 0 <= j < |indices| ==> list[j] in t && indices[j] == ParentIndex(t, list, list[j])
  }

  method Indices(t: map<Name, Node>, list: seq<Name>) returns (indices: seq<nat>)
    requires ParentsFirst(t, list)
    ensures |indices| == |list| && Indexed(t, list, indices)
  {
    indices := [];
    for i := 0 to |list|
      invariant |indices| == i && Indexed(t, list, indices)
    {
      indices := indices + [ParentIndex(t, list, list[i])];
    }
  }

  lemma {:induction false} AllChosen(t: map<Name, Node>, order: seq<Name>, selected: seq<Name>)
    requires Visits(t, None, t.Keys, order) && ClosedNames(t, selected)
    ensures Members(Chosen(order, Members(selected))) == Members(selected)
  {
    forall x | x in selected ensures x in order { assert x in Members(order); }
  }

  /** shape_key: raises unless the selection is ancestor-closed; any parents-first order will do. */
  method ShapeKey(selected: seq<Name>, t: map<Name, Node>, order: seq<Name>) returns (shape: Option<seq<nat>>)
    requires Visits(t, None, t.Keys, order)
    ensures shape.Some? <==> ClosedNames(t, selected)
    ensures shape.Some? ==> Shaped(shape.value, Chosen(order, Members(selected)), t)
    ensures shape.Some? ==> Members(Chosen(order, Members(selected))) == Members(selected)
  {
    if !ClosedNames(t, selected) { return None; }
    ChosenParentsFirst(t, order, selected);
    var list := Chosen(order, Members(selected));
    var indices := Indices(t, list);
    IndicesShape(t, list, indices);
    AllChosen(t, order, selected);
    return Some(indices);
  }

  lemma {:induction false} IndicesShape(t: map<Name, Node>, list: seq<Name>, indices: seq<nat>)
    requires ParentsFirst(t, list) && |indices| == |list| && Indexed(t, list, indices)
    ensures Shaped(indices, list, t)
  {
    forall i | 0 <= i < |list|
      ensures if t[list[i]].parent.None? then indices[i] == 0
              else 1 <= indices[i] <= i && list[indices[i] - 1] == t[list[i]].parent.value
    {
      if t[list[i]].parent.Some? { FirstPlace(list, t[list[i]].parent.value, i); }
    }
  }
}
