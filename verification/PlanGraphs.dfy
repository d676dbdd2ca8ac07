/**
 The graph part of the portfolio plan validator: duplicate ids, dangling
 references and cycles of the edge graph and of the decomposition graph.
 */
module PlanGraphs {
  import opened Wrappers
  import opened CycleSearch

  datatype Edge = Edge(id: string, source: Node, target: Node)

  datatype Decomposition = Decomposition(id: Node, dependencies: seq<Node>, parent: Option<Node>) {
    /** The dependencies in order, then the immediate parent when there is one. */
    function References(): seq<Node> {
      dependencies + (if parent.Some? then [parent.value] else [])
    }
  }

  datatype Plan = Plan(items: seq<Node>, edges: seq<Edge>, decompositions: seq<Decomposition>)

  datatype Violation =
    | DupId(id: string)
    | EdgeFrom(edge: string, node: Node)
    | EdgeTo(edge: string, node: Node)
    | EdgeCycle(closing: BackEdge)
    | DecompDep(id: Node, node: Node)
    | DecompParent(id: Node, node: Node)
    | DecompCycle(closing: BackEdge)

  // ------------------------------------------------------------------------
  // What a clean plan promises, read off the plan itself
  // ------------------------------------------------------------------------

  ghost predicate NoDuplicates(ids: seq<string>) {
    forall i, j :: 0 <= i < j < |ids| ==> ids[i] != ids[j]
  }

  ghost function EdgeDeclared(plan: Plan): (Node, Node) -> bool {
    (u, w) => exists e :: e in plan.edges && e.source == u && e.target == w
  }

  /** `w` is a declared dependency or the parent of decomposition `u`, and a decomposition itself. */
  ghost function DependencyDeclared(plan: Plan): (Node, Node) -> bool {
    (u, w) => w in Ids(plan) && exists x :: x in plan.decompositions && x.id == u && w in x.References()
  }

  ghost predicate ClosedWalk(related: (Node, Node) -> bool, p: seq<Node>) {
    |p| > 1 && p[0] == p[|p| - 1] && forall i :: 0 <= i < |p| - 1 ==> related(p[i], p[i + 1])
  }

  ghost predicate NoClosedWalk(related: (Node, Node) -> bool) {
    forall p :: !ClosedWalk(related, p)
  }

  ghost predicate IdsUnique(plan: Plan) {
    && NoDuplicates(plan.items)
    && NoDuplicates(seq(|plan.edges|, i requires 0 <= i < |plan.edges| => plan.edges[i].id))
    && NoDuplicates(Ids(plan))
  }

  ghost predicate ReferencesResolve(plan: Plan) {
    EdgesResolve(plan) && forall x :: x in plan.decompositions ==> DecompositionResolves(plan, x)
  }

  ghost predicate GraphsAcyclic(plan: Plan) {
    NoClosedWalk(EdgeDeclared(plan)) && NoClosedWalk(DependencyDeclared(plan))
  }

  function Ids(plan: Plan): seq<Node> {
    seq(|plan.decompositions|, i requires 0 <= i < |plan.decompositions| => plan.decompositions[i].id)
  }

  lemma IdOf(plan: Plan, x: Decomposition)
    requires x in plan.decompositions
    ensures x.id in Ids(plan)
  {
    var i :| 0 <= i < |plan.decompositions| && plan.decompositions[i] == x;
    assert Ids(plan)[i] == x.id;
  }

  // ------------------------------------------------------------------------
  // The checks, in the order the validator makes them
  // ------------------------------------------------------------------------

  method CheckIds(ids: seq<string>) returns (v: seq<Violation>)
    ensures v == [] <==> NoDuplicates(ids)
  {
    v := [];
    var seen: set<string> := {};
    for k := 0 to |ids|
      invariant seen == set i | 0 <= i < k :: ids[i]
      invariant v == [] <==> NoDuplicates(ids[..k])
    {
      if ids[k] in seen {
        v := v + [DupId(ids[k])];
        var i :| 0 <= i < k && ids[i] == ids[k];
        assert ids[..k + 1][i] == ids[..k + 1][k];
      } else {
        assert forall i :: 0 <= i < k ==> ids[i] in seen;
      }
      seen := seen + {ids[k]};
      assert NoDuplicates(ids[..k + 1]) ==> NoDuplicates(ids[..k]) by {
        assert forall i :: 0 <= i < k ==> ids[..k][i] == ids[..k + 1][i];
      }
      assert forall i :: 0 <= i < k ==> ids[..k][i] == ids[..k + 1][i];
    }
    assert ids[..|ids|] == ids;
  }

  ghost predicate EdgesResolve(plan: Plan) {
    forall e :: e in plan.edges ==> e.source in plan.items && e.target in plan.items
  }

  ghost predicate DecompositionResolves(plan: Plan, x: Decomposition) {
    && (forall d :: d in x.dependencies ==> d in Ids(plan) || d in plan.items)
    && (x.parent.Some? ==> x.parent.value in Ids(plan))
  }

  /** `g` holds exactly the first `k` edges. */
  ghost predicate EdgesInto(plan: Plan, k: nat, g: GraphData)
    requires k <= |plan.edges|
  {
    && (forall u, w :: w in g.Successors(u)
          <==> exists j :: 0 <= j < k && plan.edges[j] == Edge(plan.edges[j].id, u, w))
    && g.Closed()
    && (forall n :: n in plan.items ==> n in g.nodes)
  }

  method CheckEdges(plan: Plan) returns (v: seq<Violation>)
    ensures v == [] <==> EdgesResolve(plan) && NoClosedWalk(EdgeDeclared(plan))
  {
    v := [];
    var adjacent: map<Node, seq<Node>> := map[];
    var nodes := set n | n in plan.items;
    for k := 0 to |plan.edges|
      invariant EdgesInto(plan, k, GraphData(adjacent, nodes))
      invariant v == [] <==> forall j :: 0 <= j < k ==>
        plan.edges[j].source in plan.items && plan.edges[j].target in plan.items
    {
      var e := plan.edges[k];
      if e.source !in plan.items { v := v + [EdgeFrom(e.id, e.source)]; }
      if e.target !in plan.items { v := v + [EdgeTo(e.id, e.target)]; }
      ghost var g := GraphData(adjacent, nodes);
      adjacent := adjacent[e.source := (if e.source in adjacent then adjacent[e.source] else []) + [e.target]];
      nodes := nodes + {e.source, e.target};
      forall u, w
        ensures w in GraphData(adjacent, nodes).Successors(u)
           <==> w in g.Successors(u) || (u == e.source && w == e.target) {}
    }
    var graph: Graph := GraphData(adjacent, nodes);
    var search := new RecursiveSearch(graph);
    search.Run(plan.items);
    if v == [] {
      forall u | u in graph.adjacent && graph.adjacent[u] != [] ensures u in plan.items {
        assert graph.adjacent[u][0] in graph.Successors(u);
      }
      SilentIffAcyclic(graph, plan.items);
      SameWalks(graph, EdgeDeclared(plan));
    }
    v := v + seq(|search.backEdges|, i requires 0 <= i < |search.backEdges| reads search =>
      EdgeCycle(search.backEdges[i]));
  }

  /** Dependencies that are decompositions; the others are only checked for existence. */
  function Known(ids: seq<Node>, refs: seq<Node>): (r: seq<Node>)
    ensures forall w :: w in r <==> w in refs && w in ids
  {
    if refs == [] then []
    else (if refs[0] in ids then [refs[0]] else []) + Known(ids, refs[1..])
  }

  method CheckReferences(plan: Plan, x: Decomposition) returns (v: seq<Violation>)
    ensures v == [] <==> DecompositionResolves(plan, x)
  {
    v := [];
    for k := 0 to |x.dependencies|
      invariant v == [] <==> forall j :: 0 <= j < k ==>
        x.dependencies[j] in Ids(plan) || x.dependencies[j] in plan.items
    {
      var d := x.dependencies[k];
      if d !in Ids(plan) && d !in plan.items { v := v + [DecompDep(x.id, d)]; }
    }
    if x.parent.Some? && x.parent.value !in Ids(plan) {
      v := v + [DecompParent(x.id, x.parent.value)];
    }
  }

  method CheckDecompositions(plan: Plan) returns (v: seq<Violation>)
    ensures v == [] ==> forall x :: x in plan.decompositions ==> DecompositionResolves(plan, x)
    ensures NoDuplicates(Ids(plan)) ==> (v == [] <==>
      && (forall x :: x in plan.decompositions ==> DecompositionResolves(plan, x))
      && NoClosedWalk(DependencyDeclared(plan)))
  {
    v := [];
    for k := 0 to |plan.decompositions|
      invariant v == [] <==> forall j :: 0 <= j < k ==> DecompositionResolves(plan, plan.decompositions[j])
    {
      var violations := CheckReferences(plan, plan.decompositions[k]);
      v := v + violations;
    }
    var graph := DecompositionGraph(plan);
    var search := new StackSearch(graph);
    search.Run(Ids(plan));
    if NoDuplicates(Ids(plan)) {
      forall u | u in graph.adjacent ensures u in Ids(plan) {}
      SilentIffAcyclic(graph, Ids(plan));
      SameWalks(graph, DependencyDeclared(plan));
    }
    v := v + seq(|search.backEdges|, i requires 0 <= i < |search.backEdges| reads search =>
      DecompCycle(search.backEdges[i]));
  }

  ghost predicate FromDeclaration(plan: Plan, k: nat, u: Node, targets: seq<Node>)
    requires k <= |plan.decompositions|
  {
    exists j :: 0 <= j < k && plan.decompositions[j].id == u
      && targets == Known(Ids(plan), plan.decompositions[j].References())
  }

  /** A later declaration of the same id replaces the earlier adjacency entry. */
  method DecompositionGraph(plan: Plan) returns (g: Graph)
    ensures g.adjacent.Keys == g.nodes == set n | n in Ids(plan)
    ensures NoDuplicates(Ids(plan)) ==>
      forall u, w :: w in g.Successors(u) <==> DependencyDeclared(plan)(u, w)
  {
    var adjacent: map<Node, seq<Node>> := map[];
    for k := 0 to |plan.decompositions|
      invariant adjacent.Keys == set j | 0 <= j < k :: plan.decompositions[j].id
      invariant forall u :: u in adjacent ==> FromDeclaration(plan, k, u, adjacent[u])
    {
      var x := plan.decompositions[k];
      adjacent := adjacent[x.id := Known(Ids(plan), x.References())];
      forall u | u in adjacent
        ensures FromDeclaration(plan, k + 1, u, adjacent[u])
      {
        if u == x.id {
          assert plan.decompositions[k].id == u;
        } else {
          assert FromDeclaration(plan, k, u, adjacent[u]);
        }
      }
    }
    forall n ensures n in adjacent <==> n in Ids(plan) {
      if n in adjacent {
        var j :| 0 <= j < |plan.decompositions| && plan.decompositions[j].id == n;
        assert Ids(plan)[j] == n;
      }
      if n in Ids(plan) {
        var i :| 0 <= i < |Ids(plan)| && Ids(plan)[i] == n;
        assert plan.decompositions[i].id == n;
      }
    }
    g := GraphData(adjacent, set n | n in Ids(plan));
    if NoDuplicates(Ids(plan)) {
      forall u, w ensures w in g.Successors(u) <==> DependencyDeclared(plan)(u, w) {
        LastIsOnly(plan, adjacent, u, w);
      }
    }
  }

  lemma OnlyDeclaration(plan: Plan, x: Decomposition, j: nat)
    requires NoDuplicates(Ids(plan)) && j < |plan.decompositions|
    requires x in plan.decompositions && x.id == plan.decompositions[j].id
    ensures x == plan.decompositions[j]
  {
    var i :| 0 <= i < |plan.decompositions| && plan.decompositions[i] == x;
    assert Ids(plan)[i] == Ids(plan)[j];
  }

  lemma LastIsOnly(plan: Plan, adjacent: map<Node, seq<Node>>, u: Node, w: Node)
    requires NoDuplicates(Ids(plan))
    requires forall n :: n in adjacent <==> n in Ids(plan)
    requires u in adjacent ==> FromDeclaration(plan, |plan.decompositions|, u, adjacent[u])
    ensures (u in adjacent && w in adjacent[u]) <==> DependencyDeclared(plan)(u, w)
  {
    if u in adjacent {
      var j :| 0 <= j < |plan.decompositions|
        && plan.decompositions[j].id == u && adjacent[u] == Known(Ids(plan), plan.decompositions[j].References());
      forall x | x in plan.decompositions && x.id == u ensures x == plan.decompositions[j] {
        OnlyDeclaration(plan, x, j);
      }
      assert plan.decompositions[j] in plan.decompositions;
    } else {
      forall x | x in plan.decompositions ensures x.id != u { IdOf(plan, x); }
    }
  }

  /** No violation is reported exactly when ids are unique, references resolve and both graphs are acyclic. */
  method ValidateGraphs(plan: Plan) returns (v: seq<Violation>)
    ensures v == [] <==> IdsUnique(plan) && ReferencesResolve(plan) && GraphsAcyclic(plan)
  {
    var a := CheckIds(plan.items);
    var b := CheckIds(seq(|plan.edges|, i requires 0 <= i < |plan.edges| => plan.edges[i].id));
    var c := CheckIds(Ids(plan));
    var e := CheckEdges(plan);
    var d := CheckDecompositions(plan);
    v := a + b + c + e + d;
  }

  /** When successor lists realise a relation, cycles of the graph are closed walks of it. */
  lemma SameWalks(g: Graph, related: (Node, Node) -> bool)
    requires forall u, w :: w in g.Successors(u) <==> related(u, w)
    ensures Acyclic(g) <==> NoClosedWalk(related)
  {
    forall p ensures IsCycle(g, p) <==> ClosedWalk(related, p) {}
  }
}
