/**
 The two depth-first cycle searches of the portfolio plan validator: the nested
 recursive search over the edge graph and the explicit-stack search over the
 decomposition graph.  Both are proved to compute `ExploreAll`, hence to emit
 the same back edges in the same order, and `ExploreAll` is proved to emit one
 exactly when a cycle is reachable from the start nodes.
 */
module CycleSearch {
  import opened Wrappers

  type Node = string

  /** Successor lists, with the finite set of nodes they mention. */
  datatype GraphData = GraphData(adjacent: map<Node, seq<Node>>, nodes: set<Node>) {
    /** A node without an entry has no successors, as in a `defaultdict(list)`. */
    function Successors(u: Node): seq<Node> {
      if u in adjacent then adjacent[u] else []
    }

    ghost predicate Closed() {
      forall u :: u in adjacent ==> forall w :: w in adjacent[u] ==> w in nodes
    }
  }

  type Graph = g: GraphData | g.Closed() witness GraphData(map[], {})

  /** A node is absent from the colour map until it is discovered. */
  datatype Color = Active | Finished

  datatype BackEdge = BackEdge(source: Node, target: Node)

  datatype Search = Search(color: map<Node, Color>, backEdges: seq<BackEdge>) {
    predicate IsActive(w: Node) { w in color && color[w] == Active }
    ghost function ActiveSet(): set<Node> { set w | w in color && color[w] == Active }
    ghost function FinishedSet(): set<Node> { set w | w in color && color[w] == Finished }
    function Discover(w: Node): Search { this.(color := color[w := Active]) }
    function Finish(w: Node): Search { this.(color := color[w := Finished]) }
    function Emit(u: Node, w: Node): Search { this.(backEdges := backEdges + [BackEdge(u, w)]) }
  }

  const INITIAL := Search(map[], [])

  // ------------------------------------------------------------------------
  // Paths and cycles
  // ------------------------------------------------------------------------

  ghost predicate IsPath(g: Graph, p: seq<Node>) {
    p != [] && forall i :: 0 <= i < |p| - 1 ==> p[i + 1] in g.Successors(p[i])
  }

  ghost predicate IsCycle(g: Graph, p: seq<Node>) {
    IsPath(g, p) && |p| > 1 && p[0] == p[|p| - 1]
  }

  ghost predicate Acyclic(g: Graph) {
    forall p :: !IsCycle(g, p)
  }

  /** `p` leads from a start node to the source of `edge`, whose target already lies on `p`. */
  ghost predicate ClosesCycle(g: Graph, starts: seq<Node>, p: seq<Node>, edge: BackEdge) {
    && IsPath(g, p)
    && p[0] in starts
    && p[|p| - 1] == edge.source
    && edge.target in p
    && edge.target in g.Successors(edge.source)
  }

  ghost predicate OnReachableCycle(g: Graph, starts: seq<Node>, edge: BackEdge) {
    exists p :: ClosesCycle(g, starts, p, edge)
  }

  ghost predicate CycleReachable(g: Graph, starts: seq<Node>) {
    exists edge :: OnReachableCycle(g, starts, edge)
  }

  // ------------------------------------------------------------------------
  // What both searches compute
  // ------------------------------------------------------------------------

  ghost function Remaining(g: Graph, color: map<Node, Color>): nat {
    |g.nodes - color.Keys|
  }

  lemma RemainingNeverGrows(g: Graph, a: map<Node, Color>, b: map<Node, Color>)
    requires a.Keys <= b.Keys
    ensures Remaining(g, b) <= Remaining(g, a)
  {
    var x, y := g.nodes - a.Keys, g.nodes - b.Keys;
    assert x == y + (x - y);
  }

  lemma RemainingShrinks(g: Graph, a: map<Node, Color>, b: map<Node, Color>, w: Node)
    requires a.Keys <= b.Keys && w in g.nodes && w !in a && w in b
    ensures Remaining(g, b) < Remaining(g, a)
  {
    var x, y := g.nodes - a.Keys, g.nodes - b.Keys;
    assert x == y + (x - y) && w in x - y;
  }

  /** Continues the visit of the active node `u` from its `i`-th successor. */
  ghost function Explore(g: Graph, s: Search, u: Node, i: nat): (r: Search)
    requires i <= |g.Successors(u)|
    ensures s.color.Keys <= r.color.Keys
    decreases Remaining(g, s.color), |g.Successors(u)| - i
  {
    if i == |g.Successors(u)| then
      s.Finish(u)
    else
      var after := Meet(g, s, u, g.Successors(u)[i]);
      RemainingNeverGrows(g, s.color, after.color);
      Explore(g, after, u, i + 1)
  }

  /** The visit of `u` meets its successor `w`: an active one closes a cycle, a new one is visited. */
  ghost function Meet(g: Graph, s: Search, u: Node, w: Node): (r: Search)
    requires w in g.nodes
    ensures s.color.Keys <= r.color.Keys
    decreases Remaining(g, s.color), 0
  {
    if s.IsActive(w) then
      s.Emit(u, w)
    else if w in s.color then
      s
    else
      RemainingShrinks(g, s.color, s.Discover(w).color, w);
      Explore(g, s.Discover(w), w, 0)
  }

  /** The whole search: start nodes are tried in order and discovered ones are skipped. */
  ghost function ExploreAll(g: Graph, s: Search, starts: seq<Node>): Search
    decreases |starts|
  {
    if starts == [] then s
    else if starts[0] in s.color then ExploreAll(g, s, starts[1..])
    else ExploreAll(g, Explore(g, s.Discover(starts[0]), starts[0], 0), starts[1..])
  }

  // ------------------------------------------------------------------------
  // The recursive search
  // ------------------------------------------------------------------------

  class RecursiveSearch {
    const graph: Graph
    var color: map<Node, Color>
    var backEdges: seq<BackEdge>

    ghost function State(): Search reads this { Search(color, backEdges) }

    constructor (graph: Graph)
      ensures this.graph == graph && State() == INITIAL
    {
      this.graph := graph;
      color := map[];
      backEdges := [];
    }

    /** The nested `dfs`: marks `u`, visits its successors in order, finishes `u`. */
    method Visit(u: Node)
      requires u !in color && u in graph.nodes
      modifies this
      ensures State() == Explore(graph, old(State()).Discover(u), u, 0)
      ensures old(color.Keys) <= color.Keys
      decreases Remaining(graph, color)
    {
      color := color[u := Active];
      var i := 0;
      while i < |graph.Successors(u)|
        invariant i <= |graph.Successors(u)|
        invariant old(color.Keys) <= color.Keys && u in color
        invariant Explore(graph, State(), u, i) == Explore(graph, old(State()).Discover(u), u, 0)
      {
        var w := graph.Successors(u)[i];
        if w in color && color[w] == Active {
          backEdges := backEdges + [BackEdge(u, w)];
        } else if w !in color {
          RemainingShrinks(graph, old(color), color, u);
          Visit(w);
        }
        i := i + 1;
      }
      color := color[u := Finished];
    }

    method Run(starts: seq<Node>)
      requires forall n :: n in starts ==> n in graph.nodes
      modifies this
      ensures State() == ExploreAll(graph, old(State()), starts)
    {
      var k := 0;
      while k < |starts|
        invariant k <= |starts|
        invariant ExploreAll(graph, State(), starts[k..]) == ExploreAll(graph, old(State()), starts)
      {
        if starts[k] !in color {
          Visit(starts[k]);
        }
        k := k + 1;
      }
    }
  }

  // ------------------------------------------------------------------------
  // The explicit-stack search
  // ------------------------------------------------------------------------

  /** A suspended visit: `node`, and the index of the next successor to look at. */
  datatype Frame = Frame(node: Node, next: nat)

  ghost predicate ValidStack(g: Graph, stack: seq<Frame>) {
    forall f :: f in stack ==> f.next <= |g.Successors(f.node)|
  }

  /** Resuming every suspended visit, innermost (last) first. */
  ghost function Drain(g: Graph, s: Search, stack: seq<Frame>): Search
    requires ValidStack(g, stack)
    decreases |stack|
  {
    if stack == [] then s else
      var top := stack[|stack| - 1];
      Drain(g, Explore(g, s, top.node, top.next), stack[..|stack| - 1])
  }

  ghost function PendingWork(g: Graph, stack: seq<Frame>): nat
    requires ValidStack(g, stack)
    decreases |stack|
  {
    if stack == [] then 0 else
      var top := stack[|stack| - 1];
      1 + |g.Successors(top.node)| - top.next + PendingWork(g, stack[..|stack| - 1])
  }

  lemma PushedFrame(g: Graph, s: Search, rest: seq<Frame>, f: Frame)
    requires ValidStack(g, rest) && f.next <= |g.Successors(f.node)|
    ensures ValidStack(g, rest + [f])
    ensures Drain(g, s, rest + [f]) == Drain(g, Explore(g, s, f.node, f.next), rest)
    ensures PendingWork(g, rest + [f])
         == 1 + |g.Successors(f.node)| - f.next + PendingWork(g, rest)
  {
    assert (rest + [f])[..|rest|] == rest;
  }

  /** The stack without its top, and with its top moved past one successor. */
  function Popped(stack: seq<Frame>): seq<Frame>
    requires stack != []
  {
    stack[..|stack| - 1]
  }

  function Advanced(stack: seq<Frame>): seq<Frame>
    requires stack != []
  {
    Popped(stack) + [Frame(stack[|stack| - 1].node, stack[|stack| - 1].next + 1)]
  }

  ghost predicate NextIs(g: Graph, stack: seq<Frame>, w: Node) {
    && ValidStack(g, stack) && stack != []
    && stack[|stack| - 1].next < |g.Successors(stack[|stack| - 1].node)|
    && w == g.Successors(stack[|stack| - 1].node)[stack[|stack| - 1].next]
  }

  /** One step has been taken: the same result is still to come, and less work is left. */
  ghost predicate Progressed(g: Graph, s: Search, stack: seq<Frame>, s': Search, stack': seq<Frame>) {
    && ValidStack(g, stack) && ValidStack(g, stack')
    && Drain(g, s', stack') == Drain(g, s, stack)
    && LessWork(g, s, stack, s', stack')
  }

  ghost predicate LessWork(g: Graph, s: Search, stack: seq<Frame>, s': Search, stack': seq<Frame>)
    requires ValidStack(g, stack) && ValidStack(g, stack')
  {
    || Remaining(g, s'.color) < Remaining(g, s.color)
    || (Remaining(g, s'.color) == Remaining(g, s.color) && PendingWork(g, stack') < PendingWork(g, stack))
  }

  lemma FinishStep(g: Graph, s: Search, stack: seq<Frame>)
    requires ValidStack(g, stack) && stack != []
    requires stack[|stack| - 1].next == |g.Successors(stack[|stack| - 1].node)|
    ensures Progressed(g, s, stack, s.Finish(stack[|stack| - 1].node), Popped(stack))
  {
    RemainingNeverGrows(g, s.color, s.Finish(stack[|stack| - 1].node).color);
  }

  /** The top visit goes on from its next successor to the same result as from this one. */
  lemma AdvanceDrains(g: Graph, s: Search, stack: seq<Frame>, w: Node)
    requires NextIs(g, stack, w)
    ensures ValidStack(g, Advanced(stack))
    ensures Drain(g, Meet(g, s, stack[|stack| - 1].node, w), Advanced(stack)) == Drain(g, s, stack)
  {
    var u, i := stack[|stack| - 1].node, stack[|stack| - 1].next;
    PushedFrame(g, Meet(g, s, u, w), Popped(stack), Frame(u, i + 1));
  }

  lemma AdvanceWork(g: Graph, stack: seq<Frame>, w: Node)
    requires NextIs(g, stack, w)
    ensures ValidStack(g, Advanced(stack)) && PendingWork(g, Advanced(stack)) < PendingWork(g, stack)
  {
    PushedFrame(g, INITIAL, Popped(stack), Frame(stack[|stack| - 1].node, stack[|stack| - 1].next + 1));
  }

  /** A discovered successor is passed over, with a back edge if it is active. */
  lemma PassStep(g: Graph, s: Search, stack: seq<Frame>, w: Node)
    requires NextIs(g, stack, w) && w in s.color
    ensures Progressed(g, s, stack, Meet(g, s, stack[|stack| - 1].node, w), Advanced(stack))
  {
    AdvanceDrains(g, s, stack, w);
    AdvanceWork(g, stack, w);
  }

  /** A new successor is visited before its parent goes on: the same result is still to come. */
  lemma PushDrains(g: Graph, s: Search, rest: seq<Frame>, w: Node)
    requires ValidStack(g, rest) && w in g.nodes && w !in s.color
    ensures ValidStack(g, rest + [Frame(w, 0)])
    ensures forall u :: Drain(g, s.Discover(w), rest + [Frame(w, 0)]) == Drain(g, Meet(g, s, u, w), rest)
  {
    PushedFrame(g, s.Discover(w), rest, Frame(w, 0));
  }

  lemma PushStep(g: Graph, s: Search, stack: seq<Frame>, w: Node)
    requires NextIs(g, stack, w) && w !in s.color
    ensures Progressed(g, s, stack, s.Discover(w), Advanced(stack) + [Frame(w, 0)])
  {
    AdvanceDrains(g, s, stack, w);
    PushDrains(g, s, Advanced(stack), w);
    RemainingShrinks(g, s.color, s.Discover(w).color, w);
  }

  class StackSearch {
    const graph: Graph
    var color: map<Node, Color>
    var backEdges: seq<BackEdge>

    ghost function State(): Search reads this { Search(color, backEdges) }

    constructor (graph: Graph)
      ensures this.graph == graph && State() == INITIAL
    {
      this.graph := graph;
      color := map[];
      backEdges := [];
    }

    /** Pops until the stack is empty; a discovered successor is pushed above its parent. */
    method Visit(start: Node)
      requires start !in color && start in graph.nodes
      modifies this
      ensures State() == Explore(graph, old(State()).Discover(start), start, 0)
    {
      color := color[start := Active];
      ghost var goal := Explore(graph, State(), start, 0);
      var stack := [Frame(start, 0)];
      PushedFrame(graph, State(), [], Frame(start, 0));
      assert [] + [Frame(start, 0)] == stack;
      while stack != []
        invariant ValidStack(graph, stack)
        invariant Drain(graph, State(), stack) == goal
        decreases Remaining(graph, color), PendingWork(graph, stack)
      {
        stack := Step(stack);
      }
    }

    /** Finishes the top node, or moves it past its next successor and pushes that one if it is new. */
    method Step(stack: seq<Frame>) returns (stack': seq<Frame>)
      requires ValidStack(graph, stack) && stack != []
      modifies this
      ensures Progressed(graph, old(State()), stack, State(), stack')
    {
      ghost var before := State();
      var u, i := stack[|stack| - 1].node, stack[|stack| - 1].next;
      if i >= |graph.Successors(u)| {
        FinishStep(graph, before, stack);
        color := color[u := Finished];
        return stack[..|stack| - 1];
      }
      stack' := stack[..|stack| - 1] + [Frame(u, i + 1)];
      var w := graph.Successors(u)[i];
      if w !in color {
        PushStep(graph, before, stack, w);
        color := color[w := Active];
        stack' := stack' + [Frame(w, 0)];
        assert State() == before.Discover(w);
      } else {
        PassStep(graph, before, stack, w);
        if color[w] == Active { backEdges := backEdges + [BackEdge(u, w)]; }
      }
    }

    method Run(starts: seq<Node>)
      requires forall n :: n in starts ==> n in graph.nodes
      modifies this
      ensures State() == ExploreAll(graph, old(State()), starts)
    {
      var k := 0;
      while k < |starts|
        invariant k <= |starts|
        invariant ExploreAll(graph, State(), starts[k..]) == ExploreAll(graph, old(State()), starts)
      {
        if starts[k] !in color {
          Visit(starts[k]);
        }
        k := k + 1;
      }
    }
  }

  /** Run on the same graph and start order, the two searches end in the same state. */
  method SearchesAgree(graph: Graph, starts: seq<Node>)
    returns (recursive: seq<BackEdge>, iterative: seq<BackEdge>)
    requires forall n :: n in starts ==> n in graph.nodes
    ensures recursive == iterative == ExploreAll(graph, INITIAL, starts).backEdges
    ensures recursive != [] <==> CycleReachable(graph, starts)
    ensures forall e :: e in recursive ==> OnReachableCycle(graph, starts, e)
  {
    var a := new RecursiveSearch(graph);
    a.Run(starts);
    var b := new StackSearch(graph);
    b.Run(starts);
    recursive, iterative := a.backEdges, b.backEdges;
    EmitsOnlyReachableCycles(graph, starts);
    EmitsIffCycleReachable(graph, starts);
  }

  // ------------------------------------------------------------------------
  // Soundness: an emitted edge closes a reachable cycle
  // ------------------------------------------------------------------------

  ghost predicate AllOnCycles(g: Graph, starts: seq<Node>, edges: seq<BackEdge>) {
    forall e :: e in edges ==> OnReachableCycle(g, starts, e)
  }

  /** The active nodes are the nodes of one path from a start node. */
  ghost predicate ActivePath(g: Graph, s: Search, starts: seq<Node>, p: seq<Node>) {
    IsPath(g, p) && p[0] in starts && s.ActiveSet() == Elements(p)
  }

  lemma Recolored(s: Search, u: Node)
    ensures s.Finish(u).ActiveSet() == s.ActiveSet() - {u}
    ensures s.Finish(u).FinishedSet() == s.FinishedSet() + {u}
    ensures u !in s.color ==> s.Discover(u).ActiveSet() == s.ActiveSet() + {u}
    ensures u !in s.color ==> s.Discover(u).FinishedSet() == s.FinishedSet()
  {
  }

  /** Whatever a visit discovers it also finishes: only the enclosing path stays active. */
  lemma {:induction false} NoStrayActive(g: Graph, s: Search, u: Node, i: nat)
    requires i <= |g.Successors(u)|
    ensures Explore(g, s, u, i).ActiveSet() == s.ActiveSet() - {u}
    decreases Remaining(g, s.color), |g.Successors(u)| - i
  {
    if i == |g.Successors(u)| {
      Recolored(s, u);
    } else {
      var after := Meet(g, s, u, g.Successors(u)[i]);
      RemainingNeverGrows(g, s.color, after.color);
      MeetKeepsActive(g, s, u, g.Successors(u)[i]);
      NoStrayActive(g, after, u, i + 1);
    }
  }

  lemma {:induction false} MeetKeepsActive(g: Graph, s: Search, u: Node, w: Node)
    requires w in g.nodes
    ensures Meet(g, s, u, w).ActiveSet() == s.ActiveSet()
    decreases Remaining(g, s.color), 0
  {
    if w !in s.color {
      RemainingShrinks(g, s.color, s.Discover(w).color, w);
      NoStrayActive(g, s.Discover(w), w, 0);
      Recolored(s, w);
      assert w !in s.ActiveSet();
    }
  }

  lemma ActivePathCloses(g: Graph, s: Search, starts: seq<Node>, p: seq<Node>, w: Node)
    requires ActivePath(g, s, starts, p) && w in g.Successors(p[|p| - 1]) && s.IsActive(w)
    requires AllOnCycles(g, starts, s.backEdges)
    ensures ActivePath(g, s.Emit(p[|p| - 1], w), starts, p)
    ensures AllOnCycles(g, starts, s.Emit(p[|p| - 1], w).backEdges)
  {
    assert w in s.ActiveSet();
    assert ClosesCycle(g, starts, p, BackEdge(p[|p| - 1], w));
    assert s.Emit(p[|p| - 1], w).ActiveSet() == s.ActiveSet();
  }

  lemma ActivePathExtends(g: Graph, s: Search, starts: seq<Node>, p: seq<Node>, w: Node)
    requires ActivePath(g, s, starts, p) && w in g.Successors(p[|p| - 1]) && w !in s.color
    ensures ActivePath(g, s.Discover(w), starts, p + [w])
  {
    Recolored(s, w);
    assert Elements(p + [w]) == Elements(p) + {w};
  }

  lemma {:induction false} ExploreIsSound(
    g: Graph, s: Search, u: Node, i: nat, starts: seq<Node>, p: seq<Node>)
    requires i <= |g.Successors(u)|
    requires ActivePath(g, s, starts, p) && p[|p| - 1] == u
    requires AllOnCycles(g, starts, s.backEdges)
    ensures AllOnCycles(g, starts, Explore(g, s, u, i).backEdges)
    decreases Remaining(g, s.color), |g.Successors(u)| - i
  {
    if i < |g.Successors(u)| {
      var after := Meet(g, s, u, g.Successors(u)[i]);
      RemainingNeverGrows(g, s.color, after.color);
      MeetIsSound(g, s, g.Successors(u)[i], starts, p);
      ExploreIsSound(g, after, u, i + 1, starts, p);
    }
  }

  lemma {:induction false} MeetIsSound(g: Graph, s: Search, w: Node, starts: seq<Node>, p: seq<Node>)
    requires w in g.nodes && ActivePath(g, s, starts, p) && w in g.Successors(p[|p| - 1])
    requires AllOnCycles(g, starts, s.backEdges)
    ensures ActivePath(g, Meet(g, s, p[|p| - 1], w), starts, p)
    ensures AllOnCycles(g, starts, Meet(g, s, p[|p| - 1], w).backEdges)
    decreases Remaining(g, s.color), 0
  {
    if s.IsActive(w) {
      ActivePathCloses(g, s, starts, p, w);
    } else if w !in s.color {
      RemainingShrinks(g, s.color, s.Discover(w).color, w);
      ActivePathExtends(g, s, starts, p, w);
      ExploreIsSound(g, s.Discover(w), w, 0, starts, p + [w]);
      MeetKeepsActive(g, s, p[|p| - 1], w);
    }
  }

  lemma {:induction false} ExploreAllIsSound(g: Graph, s: Search, todo: seq<Node>, starts: seq<Node>)
    requires forall n :: n in todo ==> n in starts
    requires s.ActiveSet() == {}
    requires AllOnCycles(g, starts, s.backEdges)
    ensures AllOnCycles(g, starts, ExploreAll(g, s, todo).backEdges)
    decreases |todo|
  {
    if todo == [] {
    } else if todo[0] in s.color {
      ExploreAllIsSound(g, s, todo[1..], starts);
    } else {
      var s1 := s.Discover(todo[0]);
      Recolored(s, todo[0]);
      assert Elements([todo[0]]) == {todo[0]};
      ExploreIsSound(g, s1, todo[0], 0, starts, [todo[0]]);
      NoStrayActive(g, s1, todo[0], 0);
      ExploreAllIsSound(g, Explore(g, s1, todo[0], 0), todo[1..], starts);
    }
  }

  lemma EmitsOnlyReachableCycles(g: Graph, starts: seq<Node>)
    ensures forall e :: e in ExploreAll(g, INITIAL, starts).backEdges ==> OnReachableCycle(g, starts, e)
  {
    ExploreAllIsSound(g, INITIAL, starts, starts);
  }

  // ------------------------------------------------------------------------
  // Completeness: a silent search leaves an acyclic, successor-closed set
  // ------------------------------------------------------------------------

  /** `done` is closed under successors and none of its nodes lies on a cycle. */
  ghost predicate Settled(g: Graph, done: set<Node>) {
    && (forall u, w :: u in done && w in g.Successors(u) ==> w in done)
    && (forall p :: IsCycle(g, p) ==> p[0] !in done)
  }

  lemma RotateCycle(g: Graph, p: seq<Node>)
    requires IsCycle(g, p)
    ensures p[1] in g.Successors(p[0])
    ensures IsCycle(g, p[1..] + [p[1]]) && (p[1..] + [p[1]])[0] == p[1]
  {
    assert p[0 + 1] in g.Successors(p[0]);
  }

  lemma SettleNode(g: Graph, done: set<Node>, u: Node)
    requires Settled(g, done) && u !in done
    requires forall w :: w in g.Successors(u) ==> w in done
    ensures Settled(g, done + {u})
  {
    forall p | IsCycle(g, p) ensures p[0] !in done + {u} {
      if p[0] == u {
        RotateCycle(g, p);
      }
    }
  }

  lemma FinishSettles(g: Graph, s: Search, u: Node)
    requires Settled(g, s.FinishedSet()) && s.IsActive(u)
    requires forall j :: 0 <= j < |g.Successors(u)| ==> g.Successors(u)[j] in s.FinishedSet()
    ensures Settled(g, s.Finish(u).FinishedSet())
    ensures s.FinishedSet() + {u} <= s.Finish(u).FinishedSet()
  {
    SettleNode(g, s.FinishedSet(), u);
    Recolored(s, u);
  }

  lemma {:induction false} BackEdgesOnlyGrow(g: Graph, s: Search, u: Node, i: nat)
    requires i <= |g.Successors(u)|
    ensures |s.backEdges| <= |Explore(g, s, u, i).backEdges|
    decreases Remaining(g, s.color), |g.Successors(u)| - i
  {
    if i < |g.Successors(u)| {
      var after := Meet(g, s, u, g.Successors(u)[i]);
      RemainingNeverGrows(g, s.color, after.color);
      MeetOnlyAddsEdges(g, s, u, g.Successors(u)[i]);
      BackEdgesOnlyGrow(g, after, u, i + 1);
    }
  }

  lemma {:induction false} MeetOnlyAddsEdges(g: Graph, s: Search, u: Node, w: Node)
    requires w in g.nodes
    ensures |s.backEdges| <= |Meet(g, s, u, w).backEdges|
    decreases Remaining(g, s.color), 0
  {
    if w !in s.color {
      RemainingShrinks(g, s.color, s.Discover(w).color, w);
      BackEdgesOnlyGrow(g, s.Discover(w), w, 0);
    }
  }

  lemma {:induction false} AllBackEdgesOnlyGrow(g: Graph, s: Search, starts: seq<Node>)
    ensures |s.backEdges| <= |ExploreAll(g, s, starts).backEdges|
    decreases |starts|
  {
    if starts == [] {
    } else if starts[0] in s.color {
      AllBackEdgesOnlyGrow(g, s, starts[1..]);
    } else {
      BackEdgesOnlyGrow(g, s.Discover(starts[0]), starts[0], 0);
      AllBackEdgesOnlyGrow(g, Explore(g, s.Discover(starts[0]), starts[0], 0), starts[1..]);
    }
  }

  lemma StillExploring(g: Graph, s: Search, s2: Search, u: Node, i: nat)
    requires i < |g.Successors(u)| && s.IsActive(u) && s2.ActiveSet() == s.ActiveSet()
    requires s.FinishedSet() + {g.Successors(u)[i]} <= s2.FinishedSet()
    requires forall j :: 0 <= j < i ==> g.Successors(u)[j] in s.FinishedSet()
    ensures s2.IsActive(u) && s.FinishedSet() <= s2.FinishedSet()
    ensures forall j :: 0 <= j < i + 1 ==> g.Successors(u)[j] in s2.FinishedSet()
  {
    assert u in s.ActiveSet();
    assert u in s2.ActiveSet();
  }

  lemma {:induction false} ExploreIsComplete(g: Graph, s: Search, u: Node, i: nat)
    requires i <= |g.Successors(u)|
    requires s.IsActive(u) && Settled(g, s.FinishedSet())
    requires Explore(g, s, u, i).backEdges == []
    requires forall j :: 0 <= j < i ==> g.Successors(u)[j] in s.FinishedSet()
    ensures Settled(g, Explore(g, s, u, i).FinishedSet())
    ensures s.FinishedSet() + {u} <= Explore(g, s, u, i).FinishedSet()
    decreases Remaining(g, s.color), |g.Successors(u)| - i
  {
    if i == |g.Successors(u)| {
      FinishSettles(g, s, u);
    } else {
      var after := Meet(g, s, u, g.Successors(u)[i]);
      RemainingNeverGrows(g, s.color, after.color);
      BackEdgesOnlyGrow(g, after, u, i + 1);
      MeetIsComplete(g, s, u, g.Successors(u)[i]);
      MeetKeepsActive(g, s, u, g.Successors(u)[i]);
      StillExploring(g, s, after, u, i);
      ExploreIsComplete(g, after, u, i + 1);
    }
  }

  lemma {:induction false} MeetIsComplete(g: Graph, s: Search, u: Node, w: Node)
    requires w in g.nodes && Settled(g, s.FinishedSet())
    requires Meet(g, s, u, w).backEdges == []
    ensures Settled(g, Meet(g, s, u, w).FinishedSet())
    ensures s.FinishedSet() + {w} <= Meet(g, s, u, w).FinishedSet()
    decreases Remaining(g, s.color), 0
  {
    if w !in s.color {
      RemainingShrinks(g, s.color, s.Discover(w).color, w);
      Recolored(s, w);
      ExploreIsComplete(g, s.Discover(w), w, 0);
    }
  }

  lemma {:induction false} ExploreAllIsComplete(g: Graph, s: Search, starts: seq<Node>)
    requires Settled(g, s.FinishedSet()) && s.ActiveSet() == {}
    requires ExploreAll(g, s, starts).backEdges == []
    ensures Settled(g, ExploreAll(g, s, starts).FinishedSet())
    ensures s.FinishedSet() + Elements(starts) <= ExploreAll(g, s, starts).FinishedSet()
    decreases |starts|
  {
    if starts == [] {
    } else {
      assert Elements(starts) == {starts[0]} + Elements(starts[1..]);
      if starts[0] in s.color {
        assert starts[0] in s.ActiveSet() + s.FinishedSet();
        ExploreAllIsComplete(g, s, starts[1..]);
      } else {
        var s1 := s.Discover(starts[0]);
        var s2 := Explore(g, s1, starts[0], 0);
        Recolored(s, starts[0]);
        AllBackEdgesOnlyGrow(g, s2, starts[1..]);
        ExploreIsComplete(g, s1, starts[0], 0);
        NoStrayActive(g, s1, starts[0], 0);
        ExploreAllIsComplete(g, s2, starts[1..]);
      }
    }
  }

  lemma {:induction false} SettledAlongPath(g: Graph, done: set<Node>, p: seq<Node>, k: nat)
    requires Settled(g, done) && IsPath(g, p) && p[0] in done && k < |p|
    ensures p[k] in done
  {
    if k > 0 {
      SettledAlongPath(g, done, p, k - 1);
      assert p[k - 1 + 1] in g.Successors(p[k - 1]);
    }
  }

  lemma CycleFromClosingEdge(g: Graph, starts: seq<Node>, p: seq<Node>, edge: BackEdge)
    returns (k: nat)
    requires ClosesCycle(g, starts, p, edge)
    ensures k < |p| && p[k] == edge.target && IsCycle(g, p[k..] + [p[k]])
  {
    k :| 0 <= k < |p| && p[k] == edge.target;
    var q := p[k..] + [p[k]];
    forall i | 0 <= i < |q| - 1 ensures q[i + 1] in g.Successors(q[i]) {
      if i < |q| - 2 { assert p[k + i + 1] in g.Successors(p[k + i]); }
    }
  }

  /** A back edge is emitted exactly when some cycle can be reached from the start nodes. */
  lemma EmitsIffCycleReachable(g: Graph, starts: seq<Node>)
    ensures ExploreAll(g, INITIAL, starts).backEdges != [] <==> CycleReachable(g, starts)
  {
    var r := ExploreAll(g, INITIAL, starts);
    EmitsOnlyReachableCycles(g, starts);
    if r.backEdges != [] {
      assert r.backEdges[0] in r.backEdges;
      assert OnReachableCycle(g, starts, r.backEdges[0]);
    } else {
      ExploreAllIsComplete(g, INITIAL, starts);
      forall edge, p | ClosesCycle(g, starts, p, edge) ensures false {
        var k := CycleFromClosingEdge(g, starts, p, edge);
        assert p[0] in Elements(starts);
        SettledAlongPath(g, r.FinishedSet(), p, k);
      }
    }
  }

  /** Started from every node that has successors, a silent search proves the graph acyclic. */
  lemma SilentIffAcyclic(g: Graph, starts: seq<Node>)
    requires forall u :: u in g.adjacent && g.adjacent[u] != [] ==> u in starts
    ensures ExploreAll(g, INITIAL, starts).backEdges == [] <==> Acyclic(g)
  {
    var r := ExploreAll(g, INITIAL, starts);
    if r.backEdges == [] {
      ExploreAllIsComplete(g, INITIAL, starts);
      assert forall u :: u in g.adjacent && g.adjacent[u] != [] ==> u in Elements(starts);
      forall p ensures !IsCycle(g, p) {
        if IsCycle(g, p) { RotateCycle(g, p); }
      }
    } else {
      EmitsOnlyReachableCycles(g, starts);
      var edge := r.backEdges[0];
      assert edge in r.backEdges;
      var p :| ClosesCycle(g, starts, p, edge);
      var k := CycleFromClosingEdge(g, starts, p, edge);
    }
  }
}
