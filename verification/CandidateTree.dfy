/** validate_tree of bench/spec_architecture_screen.py: which node lists are accepted, and what it computes for them. */
module CandidateTree {
  import opened Common
  import opened Names
  import opened SetSums

  datatype Node = Node(name: Name, parent: Option<Name>, token: int, conditional: real)

  datatype Error =
    | TooManyNodes
    | InvalidNode
    | UnknownParent
    | SiblingTokensClash
    | SiblingProbabilityOverOne
    | CycleInTree

  /** Nodes by name, children lists (of None for the roots), and reach probabilities. */
  datatype Tree = Tree(
    byName: map<Name, Node>,
    children: map<Option<Name>, seq<Name>>,
    reach: map<Name, real>)

  predicate NodeOk(n: Node) {
    n.name != "" && n.token >= 0 && 0.0 <= n.conditional <= 1.0
  }

  /** by_name after the first loop has seen count nodes. */
  function ByNameOf(nodes: seq<Node>, count: nat): map<Name, Node>
    requires count <= |nodes|
  {
    if count == 0 then map[]
    else ByNameOf(nodes, count - 1)[nodes[count - 1].name := nodes[count - 1]]
  }

  function ByName(nodes: seq<Node>): map<Name, Node> { ByNameOf(nodes, |nodes|) }

  ghost predicate NamesDiffer(nodes: seq<Node>, count: nat)
    requires count <= |nodes|
  {
    forall i, j :: 0 <= i < j < count ==> nodes[i].name != nodes[j].name
  }

  function Siblings(t: map<Name, Node>, p: Option<Name>): set<Name> {
    set n | n in t && t[n].parent == p
  }

  function Conditionals(t: map<Name, Node>): map<Name, real> {
    map n | n in t :: t[n].conditional
  }

  /** A rank that grows from parent to child; it exists exactly when no parent chain cycles. */
  ghost predicate Ranked(t: map<Name, Node>, rank: map<Name, nat>) {
    rank.Keys == t.Keys &&
    forall n :: n in t && t[n].parent.Some? && t[n].parent.value in t ==> rank[t[n].parent.value] < rank[n]
  }

  ghost predicate Acyclic(t: map<Name, Node>) {
    exists rank :: Ranked(t, rank)
  }

  ghost predicate ParentsKnown(t: map<Name, Node>) {
    forall n :: n in t && t[n].parent.Some? ==> t[n].parent.value in t
  }

  ghost predicate MassAtMostOne(t: map<Name, Node>, p: Option<Name>) {
    Total(Siblings(t, p), Conditionals(t)) <= 1.0
  }

  /** The siblings under p are exclusive outcomes of total probability at most one. */
  ghost predicate GroupOk(t: map<Name, Node>, p: Option<Name>) {
    && (forall a, b :: a in Siblings(t, p) && b in Siblings(t, p) && a != b ==> t[a].token != t[b].token)
    && MassAtMostOne(t, p)
  }

  ghost predicate GroupsOk(t: map<Name, Node>) {
    forall p: Option<Name> :: (p == None || p.value in t) ==> GroupOk(t, p)
  }

  /** Exclusive sibling outcomes hanging from known parents, without cycles. */
  ghost predicate ForestOk(t: map<Name, Node>) {
    && (forall n :: n in t ==> NodeOk(t[n]) && t[n].name == n)
    && ParentsKnown(t)
    && GroupsOk(t)
    && Acyclic(t)
  }

  ghost predicate ValidNodes(nodes: seq<Node>) {
    && |nodes| <= 128
    && NamesDiffer(nodes, |nodes|)
    && (forall i :: 0 <= i < |nodes| ==> NodeOk(nodes[i]))
    && ForestOk(ByName(nodes))
  }

  /** Probability of reaching name: its conditional times its parent's reach. */
  function ReachOf(t: map<Name, Node>, reach: map<Name, real>, name: Name): real
    requires name in t && (t[name].parent.Some? ==> t[name].parent.value in reach)
  {
    (if t[name].parent.Some? then reach[t[name].parent.value] else 1.0) * t[name].conditional
  }

  /** reach is the product of conditionals along the parent chain, for the names it covers. */
  ghost predicate ReachOk(t: map<Name, Node>, reach: map<Name, real>) {
    forall n :: n in reach ==>
      n in t && (t[n].parent.Some? ==> t[n].parent.value in reach) && reach[n] == ReachOf(t, reach, n)
  }

  ghost predicate ChildrenOk(t: map<Name, Node>, children: map<Option<Name>, seq<Name>>) {
    forall p: Option<Name> :: (p == None || p.value in t) ==>
      p in children && Ascending(children[p]) && Members(children[p]) == Siblings(t, p)
  }

  ghost predicate TreeOk(tree: Tree) {
    ForestOk(tree.byName) && ChildrenOk(tree.byName, tree.children) &&
    ReachOk(tree.byName, tree.reach) && tree.reach.Keys == tree.byName.Keys
  }

  // ---------- Building by_name ----------

  lemma {:induction false} ByNameHolds(nodes: seq<Node>, count: nat)
    requires count <= |nodes| && NamesDiffer(nodes, count)
    ensures forall i :: 0 <= i < count ==> nodes[i].name in ByNameOf(nodes, count) && ByNameOf(nodes, count)[nodes[i].name] == nodes[i]
    ensures forall n :: n in ByNameOf(nodes, count) ==> exists i :: 0 <= i < count && nodes[i].name == n
  {
    if count > 0 {
      ByNameHolds(nodes, count - 1);
      forall n | n in ByNameOf(nodes, count) ensures exists i :: 0 <= i < count && nodes[i].name == n {
        if n == nodes[count - 1].name {
          assert 0 <= count - 1 < count && nodes[count - 1].name == n;
        } else {
          assert n in ByNameOf(nodes, count - 1);
          var i :| 0 <= i < count - 1 && nodes[i].name == n;
        }
      }
    }
  }

  method Index(nodes: seq<Node>) returns (r: Result<map<Name, Node>, Error>)
    ensures r.Ok? <==> NamesDiffer(nodes, |nodes|) && forall i :: 0 <= i < |nodes| ==> NodeOk(nodes[i])
    ensures r.Ok? ==> r.value == ByName(nodes)
  {
    var byName: map<Name, Node> := map[];
    for i := 0 to |nodes|
      invariant byName == ByNameOf(nodes, i)
      invariant NamesDiffer(nodes, i)
      invariant forall j :: 0 <= j < i ==> NodeOk(nodes[j])
    {
      ByNameHolds(nodes, i);
      if !NodeOk(nodes[i]) || nodes[i].name in byName {
        return Err(InvalidNode);
      }
      byName := byName[nodes[i].name := nodes[i]];
    }
    return Ok(byName);
  }

  // ---------- Children lists ----------

  /** One of the first count nodes is called n and hangs from p. */
  ghost predicate Listed(nodes: seq<Node>, count: nat, p: Option<Name>, n: Name)
    requires count <= |nodes|
  {
    exists j :: 0 <= j < count && nodes[j].name == n && nodes[j].parent == p
  }

  /** The list of one parent once the first count nodes have been seen. */
  ghost predicate ListOk(nodes: seq<Node>, count: nat, p: Option<Name>, list: seq<Name>)
    requires count <= |nodes|
  {
    Distinct(list) && forall n :: n in list <==> Listed(nodes, count, p, n)
  }

  lemma {:induction false} ListSkips(nodes: seq<Node>, count: nat, p: Option<Name>, list: seq<Name>)
    requires count < |nodes| && ListOk(nodes, count, p, list) && nodes[count].parent != p
    ensures ListOk(nodes, count + 1, p, list)
  {
    forall n ensures n in list <==> Listed(nodes, count + 1, p, n) {
      if Listed(nodes, count, p, n) {
        var j :| 0 <= j < count && nodes[j].name == n && nodes[j].parent == p;
        assert Listed(nodes, count + 1, p, n);
      }
    }
  }

  lemma {:induction false} ListGrows(nodes: seq<Node>, count: nat, p: Option<Name>, list: seq<Name>)
    requires count < |nodes| && NamesDiffer(nodes, |nodes|)
    requires ListOk(nodes, count, p, list) && nodes[count].parent == p
    ensures ListOk(nodes, count + 1, p, list + [nodes[count].name])
  {
    var name := nodes[count].name;
    assert name !in list by {
      assert !Listed(nodes, count, p, name);
    }
    forall n ensures n in list + [name] <==> Listed(nodes, count + 1, p, n) {
      if n == name {
        assert nodes[count].name == n;
      } else if Listed(nodes, count, p, n) {
        var j :| 0 <= j < count && nodes[j].name == n && nodes[j].parent == p;
        assert 0 <= j < count + 1;
      }
    }
  }

  ghost predicate ListsOk(nodes: seq<Node>, count: nat, t: map<Name, Node>, children: map<Option<Name>, seq<Name>>)
    requires count <= |nodes|
  {
    && (forall p: Option<Name> :: p in children <==> p == None || p.value in t)
    && (forall p :: p in children ==> ListOk(nodes, count, p, children[p]))
  }

  lemma {:induction false} AppendKeepsLists(nodes: seq<Node>, i: nat, t: map<Name, Node>, children: map<Option<Name>, seq<Name>>)
    requires i < |nodes| && NamesDiffer(nodes, |nodes|)
    requires ListsOk(nodes, i, t, children) && nodes[i].parent in children
    ensures var p := nodes[i].parent;
      ListsOk(nodes, i + 1, t, children[p := children[p] + [nodes[i].name]])
  {
    var p := nodes[i].parent;
    ListGrows(nodes, i, p, children[p]);
    forall q | q in children && q != p ensures ListOk(nodes, i + 1, q, children[q]) {
      ListSkips(nodes, i, q, children[q]);
    }
  }

  lemma {:induction false} ListsAreSiblings(nodes: seq<Node>, t: map<Name, Node>, children: map<Option<Name>, seq<Name>>)
    requires NamesDiffer(nodes, |nodes|) && t == ByName(nodes)
    requires ListsOk(nodes, |nodes|, t, children)
    requires forall i :: 0 <= i < |nodes| ==> nodes[i].parent in children
    ensures ParentsKnown(t)
    ensures forall p :: p in children ==> Distinct(children[p]) && Members(children[p]) == Siblings(t, p)
  {
    ByNameHolds(nodes, |nodes|);
    forall p | p in children ensures Members(children[p]) == Siblings(t, p) {
      ListIsSiblings(nodes, t, p, children[p]);
    }
    forall n | n in t && t[n].parent.Some? ensures t[n].parent.value in t {
      var i :| 0 <= i < |nodes| && nodes[i].name == n;
      assert nodes[i].parent in children;
    }
  }

  method Attach(nodes: seq<Node>, t: map<Name, Node>) returns (r: Result<map<Option<Name>, seq<Name>>, Error>)
    requires NamesDiffer(nodes, |nodes|) && t == ByName(nodes)
    ensures r.Ok? <==> ParentsKnown(t)
    ensures r.Ok? ==> forall p: Option<Name> :: p in r.value <==> p == None || p.value in t
    ensures r.Ok? ==> forall p :: p in r.value ==> Distinct(r.value[p]) && Members(r.value[p]) == Siblings(t, p)
  {
    var children: map<Option<Name>, seq<Name>> := map n | n in t :: Some(n) := [];
    children := children[None := []];
    for i := 0 to |nodes|
      invariant ListsOk(nodes, i, t, children)
      invariant forall j :: 0 <= j < i ==> nodes[j].parent in children
    {
      var p := nodes[i].parent;
      if p !in children {
        ByNameHolds(nodes, |nodes|);
        assert nodes[i].name in t && t[nodes[i].name] == nodes[i];
        return Err(UnknownParent);
      }
      AppendKeepsLists(nodes, i, t, children);
      children := children[p := children[p] + [nodes[i].name]];
    }
    ListsAreSiblings(nodes, t, children);
    return Ok(children);
  }

  lemma {:induction false} ListIsSiblings(nodes: seq<Node>, t: map<Name, Node>, p: Option<Name>, list: seq<Name>)
    requires NamesDiffer(nodes, |nodes|) && t == ByName(nodes) && ListOk(nodes, |nodes|, p, list)
    ensures Members(list) == Siblings(t, p)
  {
    ByNameHolds(nodes, |nodes|);
    forall n ensures n in Members(list) <==> n in Siblings(t, p) {
      if n in t {
        var i :| 0 <= i < |nodes| && nodes[i].name == n;
        assert t[n] == nodes[i];
        if t[n].parent == p { assert Listed(nodes, |nodes|, p, n); }
      }
    }
  }

  function SumOf(names: seq<Name>, f: map<Name, real>): real
    requires Members(names) <= f.Keys
  {
    if names == [] then 0.0
    else
      var last := |names| - 1;
      assert names[last] in Members(names);
      assert Members(names[..last]) <= Members(names);
      SumOf(names[..last], f) + f[names[last]]
  }

  lemma {:induction false} SumOfIsTotal(names: seq<Name>, f: map<Name, real>)
    requires Members(names) <= f.Keys && Distinct(names)
    ensures SumOf(names, f) == Total(Members(names), f)
  {
    if names != [] {
      var last := |names| - 1;
      SumOfIsTotal(names[..last], f);
      assert names[last] in Members(names);
      assert Members(names) == Members(names[..last]) + {names[last]};
      TotalAdd(Members(names[..last]), names[last], f);
    }
  }

  // ---------- Sibling checks ----------

  method CheckGroup(t: map<Name, Node>, p: Option<Name>, list: seq<Name>) returns (r: Result<seq<Name>, Error>)
    requires Distinct(list) && Members(list) == Siblings(t, p)
    ensures r.Ok? <==> GroupOk(t, p)
    ensures r.Ok? ==> Ascending(r.value) && Members(r.value) == Siblings(t, p)
  {
    var siblings := Sorted(list);
    SortedIsAscending(list);
    AscendingIsDistinct(siblings);
    assert forall i :: 0 <= i < |siblings| ==> siblings[i] in Members(siblings);
    if exists i, j :: 0 <= i < j < |siblings| && t[siblings[i]].token == t[siblings[j]].token {
      return Err(SiblingTokensClash);
    }
    forall a, b | a in Siblings(t, p) && b in Siblings(t, p) && a != b ensures t[a].token != t[b].token {
      assert a in Members(siblings) && b in Members(siblings);
      var i :| 0 <= i < |siblings| && siblings[i] == a;
      var j :| 0 <= j < |siblings| && siblings[j] == b;
    }
    SumOfIsTotal(siblings, Conditionals(t));
    if SumOf(siblings, Conditionals(t)) > 1.0 {
      return Err(SiblingProbabilityOverOne);
    }
    return Ok(siblings);
  }

  lemma {:induction false} AscendingIsDistinct(s: seq<Name>)
    requires Ascending(s)
    ensures Distinct(s)
  {
    forall i, j | 0 <= i < j < |s| ensures s[i] != s[j] { LessIsStrict(s[i]); }
  }

  method SortAndCheck(t: map<Name, Node>, lists: map<Option<Name>, seq<Name>>)
    returns (r: Result<map<Option<Name>, seq<Name>>, Error>)
    requires forall p: Option<Name> :: p in lists <==> p == None || p.value in t
    requires forall p :: p in lists ==> Distinct(lists[p]) && Members(lists[p]) == Siblings(t, p)
    ensures r.Ok? <==> GroupsOk(t)
    ensures r.Ok? ==> ChildrenOk(t, r.value)
  {
    var children := lists;
    var todo := lists.Keys;
    while todo != {}
      invariant todo <= lists.Keys == children.Keys
      invariant forall p :: p in todo ==> children[p] == lists[p]
      invariant forall p :: p in lists && p !in todo ==>
        Ascending(children[p]) && Members(children[p]) == Siblings(t, p) && GroupOk(t, p)
    {
      var p :| p in todo;
      var sorted := CheckGroup(t, p, lists[p]);
      if sorted.Err? { return Err(sorted.error); }
      children := children[p := sorted.value];
      todo := todo - {p};
    }
    return Ok(children);
  }

  // ---------- Reach probabilities and cycles ----------

  /** If the tree has a rank at all, name ranks below everything being visited. */
  ghost predicate BelowAll(t: map<Name, Node>, rank: Option<map<Name, nat>>, name: Name, visiting: set<Name>) {
    rank.Some? ==>
      Ranked(t, rank.value) && name in t && visiting <= t.Keys &&
      forall v :: v in visiting ==> rank.value[name] < rank.value[v]
  }

  /** reach is right where it is defined, and depth ranks exactly those names. */
  ghost predicate Visited(t: map<Name, Node>, reach: map<Name, real>, depth: map<Name, nat>) {
    && ReachOk(t, reach)
    && depth.Keys == reach.Keys
    && forall n :: n in reach && t[n].parent.Some? ==> t[n].parent.value in depth && depth[t[n].parent.value] < depth[n]
  }

  lemma {:induction false} AddVisited(t: map<Name, Node>, reach: map<Name, real>, depth: map<Name, nat>, name: Name)
    returns (depth': map<Name, nat>)
    requires Visited(t, reach, depth) && name in t && name !in reach
    requires t[name].parent.Some? ==> t[name].parent.value in reach
    ensures Visited(t, reach[name := ReachOf(t, reach, name)], depth')
  {
    depth' := depth[name := if t[name].parent.Some? then depth[t[name].parent.value] + 1 else 0];
  }

  method Visit(t: map<Name, Node>, name: Name, visiting: set<Name>, reach: map<Name, real>,
               ghost depth: map<Name, nat>, ghost rank: Option<map<Name, nat>>)
    returns (r: Option<map<Name, real>>, ghost depth': map<Name, nat>)
    requires ParentsKnown(t) && name in t && visiting <= t.Keys
    requires BelowAll(t, rank, name, visiting) && Visited(t, reach, depth)
    ensures r.None? ==> rank.None?
    ensures r.Some? ==> Visited(t, r.value, depth') && name in r.value && reach.Keys <= r.value.Keys
    ensures r.Some? ==> forall n :: n in r.value && n !in reach ==> n !in visiting
    decreases |t| - |visiting|
  {
    depth' := depth;
    if name in visiting { return None, depth; }
    if name in reach { return Some(reach), depth; }
    var node := t[name];
    var reach' := reach;
    if node.parent.Some? {
      SubsetSize(visiting + {name}, t.Keys);
      r, depth' := Visit(t, node.parent.value, visiting + {name}, reach, depth, rank);
      if r.None? { return; }
      reach' := r.value;
    }
    assert name !in reach';
    depth' := AddVisited(t, reach', depth', name);
    r := Some(reach'[name := ReachOf(t, reach', name)]);
  }

  method VisitAll(nodes: seq<Node>, t: map<Name, Node>) returns (r: Option<map<Name, real>>)
    requires ParentsKnown(t)
    requires forall i :: 0 <= i < |nodes| ==> nodes[i].name in t
    requires forall n :: n in t ==> exists i :: 0 <= i < |nodes| && nodes[i].name == n
    ensures r.Some? <==> Acyclic(t)
    ensures r.Some? ==> ReachOk(t, r.value) && r.value.Keys == t.Keys
  {
    var reach: map<Name, real> := map[];
    ghost var depth: map<Name, nat> := map[];
    ghost var rank := None;
    if Acyclic(t) {
      ghost var some :| Ranked(t, some);
      rank := Some(some);
    }
    for i := 0 to |nodes|
      invariant Visited(t, reach, depth)
      invariant forall j :: 0 <= j < i ==> nodes[j].name in reach
    {
      var visited;
      visited, depth := Visit(t, nodes[i].name, {}, reach, depth, rank);
      if visited.None? { return None; }
      reach := visited.value;
    }
    assert Ranked(t, depth);
    return Some(reach);
  }

  /** Exactly the valid node lists are accepted, with sorted children lists and path probabilities. */
  method ValidateTree(nodes: seq<Node>) returns (r: Result<Tree, Error>)
    ensures r.Ok? <==> ValidNodes(nodes)
    ensures r.Ok? ==> TreeOk(r.value) && r.value.byName == ByName(nodes)
  {
    if |nodes| > 128 { return Err(TooManyNodes); }
    var index := Index(nodes);
    if index.Err? { return Err(index.error); }
    var t := index.value;
    var lists := Attach(nodes, t);
    if lists.Err? { return Err(lists.error); }
    var children := SortAndCheck(t, lists.value);
    if children.Err? { return Err(children.error); }
    ByNameHolds(nodes, |nodes|);
    var reach := VisitAll(nodes, t);
    if reach.None? { return Err(CycleInTree); }
    AllIsOk(nodes, Tree(t, children.value, reach.value));
    return Ok(Tree(t, children.value, reach.value));
  }

  lemma {:induction false} AllIsOk(nodes: seq<Node>, tree: Tree)
    requires |nodes| <= 128 && NamesDiffer(nodes, |nodes|) && forall i :: 0 <= i < |nodes| ==> NodeOk(nodes[i])
    requires tree.byName == ByName(nodes) && ParentsKnown(tree.byName) && GroupsOk(tree.byName) && Acyclic(tree.byName)
    requires ChildrenOk(tree.byName, tree.children) && ReachOk(tree.byName, tree.reach) && tree.reach.Keys == tree.byName.Keys
    ensures ValidNodes(nodes) && TreeOk(tree)
  {
    ByNameIsNamed(nodes);
  }

  lemma {:induction false} ByNameIsNamed(nodes: seq<Node>)
    requires NamesDiffer(nodes, |nodes|) && forall i :: 0 <= i < |nodes| ==> NodeOk(nodes[i])
    ensures forall n :: n in ByName(nodes) ==> NodeOk(ByName(nodes)[n]) && ByName(nodes)[n].name == n
  {
    ByNameHolds(nodes, |nodes|);
    forall n | n in ByName(nodes) ensures NodeOk(ByName(nodes)[n]) && ByName(nodes)[n].name == n {
      var i :| 0 <= i < |nodes| && nodes[i].name == n;
    }
  }

  // ---------- What is accepted, and what reach means ----------

  /** A chain of names, each the parent of the next, that begins at a root. */
  ghost predicate Chain(t: map<Name, Node>, path: seq<Name>) {
    && path != [] && (forall i :: 0 <= i < |path| ==> path[i] in t)
    && t[path[0]].parent == None && forall i :: 0 < i < |path| ==> t[path[i]].parent == Some(path[i - 1])
  }

  function ProductOf(factors: seq<real>): real {
    if factors == [] then 1.0 else ProductOf(factors[..|factors| - 1]) * factors[|factors| - 1]
  }

  /** Reach is the product of the conditionals from the root down. */
  lemma {:induction false} ReachIsProduct(t: map<Name, Node>, reach: map<Name, real>, path: seq<Name>, factors: seq<real>)
    requires ReachOk(t, reach) && reach.Keys == t.Keys && Chain(t, path)
    requires |factors| == |path| && forall i :: 0 <= i < |path| ==> factors[i] == t[path[i]].conditional
    ensures reach[path[|path| - 1]] == ProductOf(factors)
  {
    var last := |path| - 1;
    if last == 0 {
      assert factors[..0] == [];
    } else {
      ReachIsProduct(t, reach, path[..last], factors[..last]);
      assert path[..last][last - 1] == path[last - 1];
    }
  }

  /** Every node hangs at the end of one such chain. */
  lemma {:induction false} ChainTo(t: map<Name, Node>, rank: map<Name, nat>, name: Name) returns (path: seq<Name>)
    requires Ranked(t, rank) && ParentsKnown(t) && name in t
    ensures Chain(t, path) && path[|path| - 1] == name
    decreases rank[name]
  {
    if t[name].parent.None? {
      path := [name];
    } else {
      var above := ChainTo(t, rank, t[name].parent.value);
      path := above + [name];
    }
  }

  /** The nodes' own properties: a name, a token and a probability. */
  ghost predicate EachOk(nodes: seq<Node>) {
    forall i :: 0 <= i < |nodes| ==>
      nodes[i].name != "" && nodes[i].token >= 0 && 0.0 <= nodes[i].conditional && nodes[i].conditional <= 1.0
  }

  /** Every parent is one of the nodes. */
  ghost predicate EachHangs(nodes: seq<Node>) {
    forall i :: 0 <= i < |nodes| && nodes[i].parent.Some? ==> exists j :: 0 <= j < |nodes| && nodes[j].name == nodes[i].parent.value
  }

  /** Nodes under the same parent stand for different tokens. */
  ghost predicate TokensDiffer(nodes: seq<Node>) {
    forall i, j :: 0 <= i < j < |nodes| && nodes[i].parent == nodes[j].parent ==> nodes[i].token != nodes[j].token
  }

  lemma {:induction false} NodesOfMap(nodes: seq<Node>, n: Name) returns (i: nat)
    requires NamesDiffer(nodes, |nodes|) && n in ByName(nodes)
    ensures i < |nodes| && nodes[i].name == n && ByName(nodes)[n] == nodes[i]
  {
    ByNameHolds(nodes, |nodes|);
    i :| 0 <= i < |nodes| && nodes[i].name == n;
  }

  lemma {:induction false} HangsIff(nodes: seq<Node>)
    requires NamesDiffer(nodes, |nodes|)
    ensures EachHangs(nodes) <==> ParentsKnown(ByName(nodes))
  {
    ByNameHolds(nodes, |nodes|);
    var t := ByName(nodes);
    if EachHangs(nodes) {
      forall n | n in t && t[n].parent.Some? ensures t[n].parent.value in t {
        var i := NodesOfMap(nodes, n);
        var j :| 0 <= j < |nodes| && nodes[j].name == nodes[i].parent.value;
      }
    }
    if ParentsKnown(t) {
      forall i | 0 <= i < |nodes| && nodes[i].parent.Some?
        ensures exists j :: 0 <= j < |nodes| && nodes[j].name == nodes[i].parent.value
      {
        assert t[nodes[i].name].parent.value in t;
        var j := NodesOfMap(nodes, nodes[i].parent.value);
      }
    }
  }

  ghost predicate SiblingsDiffer(t: map<Name, Node>) {
    forall p: Option<Name>, a, b :: a in Siblings(t, p) && b in Siblings(t, p) && a != b ==> t[a].token != t[b].token
  }

  ghost predicate MassesOk(t: map<Name, Node>) {
    forall p: Option<Name> :: (p == None || p.value in t) ==> MassAtMostOne(t, p)
  }

  lemma {:induction false} TokensIff(nodes: seq<Node>)
    requires NamesDiffer(nodes, |nodes|)
    ensures TokensDiffer(nodes) <==> SiblingsDiffer(ByName(nodes))
  {
    ByNameHolds(nodes, |nodes|);
    var t := ByName(nodes);
    if TokensDiffer(nodes) {
      forall p: Option<Name>, a, b | a in Siblings(t, p) && b in Siblings(t, p) && a != b ensures t[a].token != t[b].token {
        var i := NodesOfMap(nodes, a);
        var j := NodesOfMap(nodes, b);
      }
    }
    if SiblingsDiffer(t) {
      forall i, j | 0 <= i < j < |nodes| && nodes[i].parent == nodes[j].parent ensures nodes[i].token != nodes[j].token {
        assert nodes[i].name in Siblings(t, nodes[i].parent) && nodes[j].name in Siblings(t, nodes[i].parent);
      }
    }
  }

  /** No parent outside the tree has children in it. */
  lemma {:induction false} GroupsIff(t: map<Name, Node>)
    requires ParentsKnown(t)
    ensures GroupsOk(t) <==> SiblingsDiffer(t) && MassesOk(t)
  {
    if GroupsOk(t) {
      forall p: Option<Name>, a, b | a in Siblings(t, p) && b in Siblings(t, p) && a != b ensures t[a].token != t[b].token {
        assert GroupOk(t, p);
      }
      forall p: Option<Name> | p == None || p.value in t ensures MassAtMostOne(t, p) { assert GroupOk(t, p); }
    }
    if SiblingsDiffer(t) && MassesOk(t) {
      forall p: Option<Name> | p == None || p.value in t ensures GroupOk(t, p) { assert MassAtMostOne(t, p); }
    }
  }

  lemma {:induction false} NodesIff(nodes: seq<Node>)
    ensures EachOk(nodes) <==> forall i :: 0 <= i < |nodes| ==> NodeOk(nodes[i])
  {
  }

  /** What makes a node list acceptable, said of the list itself. */
  lemma {:induction false} ValidIff(nodes: seq<Node>)
    ensures ValidNodes(nodes) <==>
      && |nodes| <= 128 && EachOk(nodes) && NamesDiffer(nodes, |nodes|) && EachHangs(nodes) && TokensDiffer(nodes)
      && MassesOk(ByName(nodes)) && Acyclic(ByName(nodes))
  {
    NodesIff(nodes);
    if EachOk(nodes) && NamesDiffer(nodes, |nodes|) {
      HangsIff(nodes);
      TokensIff(nodes);
      ByNameIsNamed(nodes);
      if EachHangs(nodes) { GroupsIff(ByName(nodes)); }
    }
  }
}
