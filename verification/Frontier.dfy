/**
 tree_frontier of bench/spec_architecture_screen.py, whole: the plans returned
 for a node list and a budget, and what the search over ancestor-closed
 selections comes to because reach never grows from parent to child.
 */
module Frontier {
  import opened Common
  import opened Names
  import opened SetSums
  import opened CandidateTree
  import opened FrontierTables
  import opened TreeFrontier
  import opened Shapes

  datatype FrontierError = BudgetOutOfRange | InvalidTree(error: CandidateTree.Error)

  datatype Plan = Plan(nodes: nat, selected: seq<Name>, expected: real, shape: seq<nat>)

  /** Everything selected is a root or hangs from something selected. */
  ghost predicate AncestorClosed(t: map<Name, Node>, s: set<Name>) {
    s <= t.Keys && forall z :: z in s && t[z].parent.Some? ==> t[z].parent.value in s
  }

  /** The path probabilities of the whole tree. */
  ghost predicate IsReach(t: map<Name, Node>, reach: map<Name, real>) {
    reach.Keys == t.Keys && ReachOk(t, reach)
  }

  /** An ancestor-closed selection of k nodes that no other one of that size beats, on reach and then on names. */
  ghost predicate BestPlan(plan: Plan, k: nat, t: map<Name, Node>, reach: map<Name, real>)
    requires reach.Keys == t.Keys
  {
    && plan.nodes == k == |plan.selected|
    && Ascending(plan.selected)
    && AncestorClosed(t, Members(plan.selected))
    && plan.expected == 1.0 + Total(Members(plan.selected), reach)
    && forall s :: AncestorClosed(t, s) && |s| == k ==>
      1.0 + Total(s, reach) < plan.expected ||
      (1.0 + Total(s, reach) == plan.expected && SetLeq(Members(plan.selected), s))
  }

  // ---------- Reach ----------

  lemma {:induction false} ReachIsUnique(t: map<Name, Node>, rank: map<Name, nat>, reach: map<Name, real>, other: map<Name, real>, n: Name)
    requires Ranked(t, rank) && ParentsKnown(t) && IsReach(t, reach) && IsReach(t, other) && n in t
    ensures reach[n] == other[n]
    decreases rank[n]
  {
    if t[n].parent.Some? { ReachIsUnique(t, rank, reach, other, t[n].parent.value); }
  }

  ghost predicate Probabilities(t: map<Name, Node>) {
    forall n :: n in t ==> 0.0 <= t[n].conditional <= 1.0
  }

  lemma {:induction false} Scaled(x: real, p: real)
    requires x >= 0.0 && 0.0 <= p <= 1.0
    ensures 0.0 <= x * p <= x
  {
    assert x * p <= x * 1.0;
  }

  lemma {:induction false} ReachStep(t: map<Name, Node>, reach: map<Name, real>, n: Name)
    requires n in t && t[n].parent.Some? ==> t[n].parent.value in reach
    requires n in t && n in reach && 0.0 <= t[n].conditional <= 1.0
    requires t[n].parent.Some? ==> reach[t[n].parent.value] >= 0.0
    requires reach[n] == ReachOf(t, reach, n)
    ensures reach[n] >= 0.0 && (t[n].parent.Some? ==> reach[n] <= reach[t[n].parent.value])
  {
    Scaled(if t[n].parent.Some? then reach[t[n].parent.value] else 1.0, t[n].conditional);
  }

  /** Reach is never negative, and a child is reached no more often than its parent. */
  lemma {:induction false} ReachShrinks(t: map<Name, Node>, rank: map<Name, nat>, reach: map<Name, real>, n: Name)
    requires Probabilities(t) && ParentsKnown(t) && Ranked(t, rank) && IsReach(t, reach) && n in t
    ensures reach[n] >= 0.0 && (t[n].parent.Some? ==> reach[n] <= reach[t[n].parent.value])
    decreases rank[n]
  {
    if t[n].parent.Some? { ReachShrinks(t, rank, reach, t[n].parent.value); }
    ReachStep(t, reach, n);
  }

  // ---------- The greedy selection ----------

  /** Outside s: greatest reach first, then lowest rank. */
  ghost predicate Next(f: map<Name, real>, rank: map<Name, nat>, s: set<Name>, x: Name)
    requires f.Keys == rank.Keys
  {
    x in f && x !in s &&
    forall y :: y in f && y !in s ==> f[y] < f[x] || (f[y] == f[x] && rank[x] <= rank[y])
  }

  lemma {:induction false} SomeNext(f: map<Name, real>, rank: map<Name, nat>, rest: set<Name>) returns (x: Name)
    requires f.Keys == rank.Keys && rest <= f.Keys && rest != {}
    ensures x in rest && forall y :: y in rest ==> f[y] < f[x] || (f[y] == f[x] && rank[x] <= rank[y])
    decreases |rest|
  {
    x :| x in rest;
    if rest != {x} {
      var less := rest - {x};
      assert rest == less + {x};
      var y := SomeNext(f, rank, less);
      if f[x] < f[y] || (f[x] == f[y] && rank[y] <= rank[x]) { x := y; }
    }
  }

  lemma {:induction false} OneMore(t: map<Name, Node>, rank: map<Name, nat>, reach: map<Name, real>, s: set<Name>, x: Name)
    requires Probabilities(t) && ParentsKnown(t) && Ranked(t, rank) && IsReach(t, reach)
    requires AncestorClosed(t, s) && Dominates(s, reach) && Next(reach, rank, s, x)
    ensures AncestorClosed(t, s + {x}) && Dominates(s + {x}, reach) && |s + {x}| == |s| + 1
  {
    ReachShrinks(t, rank, reach, x);
  }

  /** Taking nodes by falling reach never leaves a parent behind. */
  lemma {:induction false} Greedy(t: map<Name, Node>, rank: map<Name, nat>, reach: map<Name, real>, k: nat) returns (g: set<Name>)
    requires Probabilities(t) && ParentsKnown(t) && Ranked(t, rank) && IsReach(t, reach) && k <= |t.Keys|
    ensures |g| == k && AncestorClosed(t, g) && Dominates(g, reach)
  {
    if k == 0 {
      g := {};
    } else {
      var s := Greedy(t, rank, reach, k - 1);
      assert !(t.Keys <= s) by { if t.Keys <= s { SubsetSize(t.Keys, s); } }
      var y :| y in t.Keys && y !in s;
      assert y in t.Keys - s;
      var x := SomeNext(reach, rank, t.Keys - s);
      OneMore(t, rank, reach, s, x);
      g := s + {x};
    }
  }

  /** The best ancestor-closed selection of a size has the largest total of all selections of that size. */
  lemma {:induction false} BestIsLargest(plan: Plan, k: nat, t: map<Name, Node>, reach: map<Name, real>, s: set<Name>)
    requires ForestOk(t) && IsReach(t, reach) && BestPlan(plan, k, t, reach)
    requires s <= t.Keys && |s| == k
    ensures 1.0 + Total(s, reach) <= plan.expected
  {
    SubsetSize(s, t.Keys);
    var g := GreedyOf(t, reach, k);
    DominatingIsLargest(g, s, reach);
  }

  /** Each further node adds no more than the one before it. */
  lemma {:induction false} GainsFall(a: Plan, b: Plan, c: Plan, k: nat, t: map<Name, Node>, reach: map<Name, real>)
    requires ForestOk(t) && IsReach(t, reach)
    requires BestPlan(a, k, t, reach) && BestPlan(b, k + 1, t, reach) && BestPlan(c, k + 2, t, reach)
    ensures c.expected - b.expected <= b.expected - a.expected
  {
    var low, high := Members(a.selected), Members(c.selected);
    AscendingSize(a.selected);
    AscendingSize(c.selected);
    if high <= low { SubsetSize(high, low); }
    var x :| x in high && x !in low;
    TotalRemove(high, x, reach);
    TotalAdd(low, x, reach);
    BestIsLargest(b, k + 1, t, reach, high - {x});
    BestIsLargest(b, k + 1, t, reach, low + {x});
  }

  /** Two plans that are both best for a size select the same nodes. */
  lemma {:induction false} BestPlanIsUnique(a: Plan, b: Plan, k: nat, t: map<Name, Node>, reach: map<Name, real>)
    requires reach.Keys == t.Keys && BestPlan(a, k, t, reach) && BestPlan(b, k, t, reach)
    ensures a.selected == b.selected && a.expected == b.expected
  {
    var s, s' := Members(a.selected), Members(b.selected);
    AscendingSize(a.selected);
    AscendingSize(b.selected);
    SetLeqIsAntisymmetric(s, s');
    AscendingIsUnique(a.selected, b.selected);
  }

  lemma {:induction false} SetLeqIsAntisymmetric(a: set<Name>, b: set<Name>)
    requires SetLeq(a, b) && SetLeq(b, a)
    ensures a == b
  {
    if a != b {
      var x :| x in a && Separates(x, a, b);
      var y :| y in b && Separates(y, b, a);
      LessIsTotal(x, y);
    }
  }

  lemma {:induction false} OnlyReach(t: map<Name, Node>, reach: map<Name, real>)
    requires ForestOk(t) && IsReach(t, reach)
    ensures forall other :: IsReach(t, other) ==> other == reach
  {
    var rank :| Ranked(t, rank);
    forall other | IsReach(t, other) ensures other == reach {
      forall n | n in t ensures other[n] == reach[n] { ReachIsUnique(t, rank, other, reach, n); }
    }
  }

  // ---------- The method ----------

  lemma {:induction false} ClosedIsAncestorClosed(t: map<Name, Node>, s: set<Name>)
    ensures s in Selections(t, None, t.Keys) <==> AncestorClosed(t, s)
  {
  }

  /** The start table of the virtual root: only the empty selection. */
  lemma {:induction false} RootTable(t: map<Name, Node>, reach: map<Name, real>, limit: nat)
    ensures BestTable(map[0 := Nothing], Selections(t, None, {}), reach, limit)
  {
    assert Members(Nothing.selected) == {};
    forall s ensures s in Selections(t, None, {}) <==> s == {} { }
  }

  lemma {:induction false} BestEntryIsBestPlan(e: Entry, k: nat, shape: seq<nat>, t: map<Name, Node>, reach: map<Name, real>)
    requires reach.Keys == t.Keys && Holds(e, k, Selections(t, None, t.Keys), reach)
    requires forall s :: s in Selections(t, None, t.Keys) && |s| == k ==> Beats(e, s, reach)
    ensures BestPlan(Plan(k, e.selected, 1.0 + e.value, shape), k, t, reach)
  {
    ClosedIsAncestorClosed(t, Members(e.selected));
    forall s | AncestorClosed(t, s) && |s| == k ensures Beats(e, s, reach) {
      ClosedIsAncestorClosed(t, s);
    }
  }

  lemma {:induction false} TableHasAllSizes(table: Table, shape: seq<nat>, t: map<Name, Node>, reach: map<Name, real>, limit: nat, k: nat)
    requires ForestOk(t) && IsReach(t, reach) && limit <= |t.Keys| && k <= limit
    requires BestTable(table, Selections(t, None, t.Keys), reach, limit)
    ensures k in table && BestPlan(Plan(k, table[k].selected, 1.0 + table[k].value, shape), k, t, reach)
  {
    var g := GreedyOf(t, reach, k);
    ClosedIsAncestorClosed(t, g);
    BestEntryIsBestPlan(table[k], k, shape, t, reach);
  }

  lemma {:induction false} GreedyOf(t: map<Name, Node>, reach: map<Name, real>, k: nat) returns (g: set<Name>)
    requires ForestOk(t) && IsReach(t, reach) && k <= |t.Keys|
    ensures |g| == k && AncestorClosed(t, g) && Dominates(g, reach)
  {
    var rank :| Ranked(t, rank);
    g := Greedy(t, rank, reach, k);
  }

  lemma {:induction false} ByNameSize(nodes: seq<Node>, count: nat)
    requires count <= |nodes| && NamesDiffer(nodes, count)
    ensures |ByNameOf(nodes, count).Keys| == count
  {
    if count > 0 {
      ByNameSize(nodes, count - 1);
      ByNameHolds(nodes, count - 1);
      var before := ByNameOf(nodes, count - 1);
      assert nodes[count - 1].name !in before;
      assert ByNameOf(nodes, count).Keys == before.Keys + {nodes[count - 1].name};
    }
  }

  /** The roots: distinct, each with a subtree no larger than the forest, and together the whole of it. */
  lemma {:induction false} RootFacts(tree: Tree, rank: map<Name, nat>)
    requires Linked(tree, rank)
    ensures var t, roots := tree.byName, tree.children[None];
      && Distinct(roots) && BelowFirst(t, rank, roots, |roots|) == t.Keys
      && forall c :: c in Siblings(t, None) ==> |Below(t, rank, c)| < |t.Keys| + 1
  {
    var t := tree.byName;
    RootsCover(t, rank, tree.children[None]);
    forall c | c in Siblings(t, None) ensures |Below(t, rank, c)| < |t.Keys| + 1 {
      SubsetSize(Below(t, rank, c), t.Keys);
    }
  }

  /** The loop over the roots. */
  method MergeRoots(tree: Tree, limit: nat, ghost rank: map<Name, nat>) returns (table: Table)
    requires Linked(tree, rank)
    ensures BestTable(table, Selections(tree.byName, None, tree.byName.Keys), tree.reach, limit)
  {
    ghost var t := tree.byName;
    RootFacts(tree, rank);
    RootTable(t, tree.reach, limit);
    table := MergeChildren(tree, None, tree.children[None], map[0 := Nothing], limit, rank, {}, |t.Keys| + 1);
    assert {} + t.Keys == t.Keys;
  }

  /** The table over the whole forest. */
  method RootFrontier(tree: Tree, limit: nat) returns (table: Table)
    requires TreeOk(tree)
    ensures BestTable(table, Selections(tree.byName, None, tree.byName.Keys), tree.reach, limit)
  {
    ghost var rank :| Ranked(tree.byName, rank);
    TreeIsLinked(tree, rank);
    table := MergeRoots(tree, limit, rank);
  }

  /** The shape of a plan names its parents by their places in the walk. */
  ghost predicate ShapedPlan(plan: Plan, order: seq<Name>, t: map<Name, Node>) {
    var list := Chosen(order, Members(plan.selected));
    Members(list) == Members(plan.selected) && Shaped(plan.shape, list, t)
  }

  lemma {:induction false} ClosedSelection(t: map<Name, Node>, selected: seq<Name>)
    requires AncestorClosed(t, Members(selected))
    ensures ClosedNames(t, selected)
  {
    forall x | x in selected ensures x in t && (t[x].parent.None? || t[x].parent.value in selected) {
      assert x in Members(selected);
      if t[x].parent.Some? { assert t[x].parent.value in Members(selected); }
    }
  }

  /** One plan: the shape is always defined. */
  method PlanOf(table: Table, size: nat, order: seq<Name>, t: map<Name, Node>, ghost reach: map<Name, real>, ghost limit: nat)
    returns (plan: Plan)
    requires ForestOk(t) && IsReach(t, reach) && size <= limit <= |t.Keys| && SortedWalk(t, order)
    requires BestTable(table, Selections(t, None, t.Keys), reach, limit)
    ensures BestPlan(plan, size, t, reach) && ShapedPlan(plan, order, t)
  {
    TableHasAllSizes(table, [], t, reach, limit, size);
    var entry := table[size];
    ClosedSelection(t, entry.selected);
    var shape := ShapeKey(entry.selected, t, order);
    TableHasAllSizes(table, shape.value, t, reach, limit, size);
    return Plan(size, entry.selected, 1.0 + entry.value, shape.value);
  }

  ghost predicate GoodPlan(plan: Plan, k: nat, order: seq<Name>, t: map<Name, Node>, reach: map<Name, real>) {
    reach.Keys == t.Keys && BestPlan(plan, k, t, reach) && ShapedPlan(plan, order, t)
  }

  ghost predicate GoodPlans(plans: seq<Plan>, order: seq<Name>, t: map<Name, Node>, reach: map<Name, real>) {
    forall k :: 0 <= k < |plans| ==> GoodPlan(plans[k], k, order, t, reach)
  }

  lemma {:induction false} OneMorePlan(plans: seq<Plan>, plan: Plan, order: seq<Name>, t: map<Name, Node>, reach: map<Name, real>)
    requires GoodPlans(plans, order, t, reach) && GoodPlan(plan, |plans|, order, t, reach)
    ensures GoodPlans(plans + [plan], order, t, reach)
  {
    forall k | 0 <= k < |plans| + 1 ensures GoodPlan((plans + [plan])[k], k, order, t, reach) {
      if k < |plans| { assert GoodPlan(plans[k], k, order, t, reach); }
    }
  }

  /** One plan per size, in order of size. */
  method Plans(table: Table, limit: nat, order: seq<Name>, t: map<Name, Node>, ghost reach: map<Name, real>) returns (plans: seq<Plan>)
    requires ForestOk(t) && IsReach(t, reach) && limit <= |t.Keys| && SortedWalk(t, order)
    requires BestTable(table, Selections(t, None, t.Keys), reach, limit)
    ensures |plans| == limit + 1 && GoodPlans(plans, order, t, reach)
  {
    plans := [];
    for size := 0 to limit + 1
      invariant |plans| == size && GoodPlans(plans, order, t, reach)
    {
      var plan := PlanOf(table, size, order, t, reach, limit);
      OneMorePlan(plans, plan, order, t, reach);
      plans := plans + [plan];
    }
  }

  lemma {:induction false} GoodPlansAreFrontier(plans: seq<Plan>, order: seq<Name>, t: map<Name, Node>, reach: map<Name, real>, limit: int)
    requires GoodPlans(plans, order, t, reach) && |plans| == limit + 1 && ForestOk(t) && IsReach(t, reach)
    requires SortedWalk(t, order)
    ensures IsFrontier(plans, t, limit)
  {
    OnlyReach(t, reach);
    forall other, k | IsReach(t, other) && 0 <= k < |plans| ensures BestPlan(plans[k], k, t, other) {
      assert GoodPlan(plans[k], k, order, t, reach);
    }
    forall k | 0 <= k < |plans| ensures ShapedPlan(plans[k], order, t) {
      assert GoodPlan(plans[k], k, order, t, reach);
    }
  }

  /** What the frontier of a tree is: one best plan per size, with shapes read off the sorted preorder. */
  ghost predicate IsFrontier(plans: seq<Plan>, t: map<Name, Node>, limit: int) {
    && |plans| == limit + 1
    && (exists reach :: IsReach(t, reach))
    && (forall reach, k :: IsReach(t, reach) && 0 <= k < |plans| ==> BestPlan(plans[k], k, t, reach))
    && exists order :: SortedWalk(t, order) && forall k :: 0 <= k < |plans| ==> ShapedPlan(plans[k], order, t)
  }

  /**
   For a valid list and budget, one plan per size up to the smaller of budget
   and node count, and each is the best ancestor-closed selection of its size
   under the path probabilities of the tree.
   */
  method FrontierOf(nodes: seq<Node>, budget: int) returns (r: Result<seq<Plan>, FrontierError>)
    ensures r.Ok? <==> 0 <= budget <= 128 && ValidNodes(nodes)
    ensures r == Err(BudgetOutOfRange) <==> !(0 <= budget <= 128)
    ensures r.Ok? ==> IsFrontier(r.value, ByName(nodes), Min(budget, |nodes|))
  {
    if !(0 <= budget <= 128) { return Err(BudgetOutOfRange); }
    var tree := ValidateTree(nodes);
    if tree.Err? { return Err(InvalidTree(tree.error)); }
    var limit := Min(budget, |nodes|);
    ByNameSize(nodes, |nodes|);
    var t := tree.value.byName;
    ghost var reach := tree.value.reach;
    var order := Walk(tree.value);
    var table := RootFrontier(tree.value, limit);
    var plans := Plans(table, limit, order, t, reach);
    GoodPlansAreFrontier(plans, order, t, reach, limit);
    return Ok(plans);
  }
}
