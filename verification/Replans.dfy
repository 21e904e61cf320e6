/** Planning a graph for the first time or again: `create` (work/store.py) checks nothing but the graph itself.  When a
    creation keeps what the runs rely on, exactly, and what happens when it does not. */
module Replans {
  import opened Common
  import opened Projections
  import opened Compiler
  import opened Governance
  import opened GovernedRuns
  import opened Orderings

  /** The live tables hold nothing of the graph: it was never planned, or every plan of it was lost. */
  predicate NewToLive(t: WorkTables, g: GraphSpec) {
    g.id !in t.graphs && Ids(g.nodes) !! t.nodes.Keys
  }

  /** Every edge the log holds of the graph, or at one of its nodes, is in the plan again. */
  predicate NothingElseLogged(fullEdges: set<EdgeRow>, g: GraphSpec) {
    forall e :: e in fullEdges && (e.graphId == g.id || e.src in Ids(g.nodes) || e.dst in Ids(g.nodes)) ==>
      e in EdgeRows(g.id, g.edges)
  }

  lemma NewIsKnown(m: Machine, g: GraphSpec)
    requires Rules(m) && Stored(m) && NewToLive(m.live.work, g)
    ensures Known(m.live.work.nodes, g) && Ids(g.nodes) !! m.cycle.ready
    ensures forall e :: e in m.live.work.edges ==> e.graphId != g.id
  {
    hide Cyclic, InOrder, Guarded, WithinBudget, AttemptsKept;
  }

  /** A compiled graph that is new, or whose earlier plans were lost and held no other edges, can be planned: the
      retry of a plan that died is in order, however often it dies. */
  lemma RetryIsPlannable(m: Machine, g: GraphSpec, dies: bool)
    requires Rules(m) && Stored(m) && WellFormedGraph(g) && !HasCycle(g.edges)
    requires NewToLive(m.live.work, g) && NothingElseLogged(m.full.work.edges, g)
    ensures Plannable(m, g, dies)
  {
    hide Rules, Stored, Cyclic, PutNodes, HasCycle, WellFormedGraph, Known;
    NewIsKnown(m, g);
    var edges := m.full.work.edges;
    assert EdgePairs(m.full.work, g.id) + EdgesOf(g) == EdgesOf(g);
    CyclicIff(g.edges, EdgesOf(g));
    PutNodesPlants(m.live.work.nodes, g);
    PutNodesPlants(m.full.work.nodes, g);
    if !dies {
      var live, liveEdges := PutNodes(m.live.work.nodes, g.nodes, g.id), m.live.work.edges + EdgeRows(g.id, g.edges);
      var full := PutNodes(m.full.work.nodes, g.nodes, g.id);
      forall e | (e in edges + EdgeRows(g.id, g.edges) && e.dst in Ids(g.nodes)
                  && OfKindTask(full, e.src) && OfKindTask(live, e.dst))
        ensures Implied(live, liveEdges, e)
      {
        PlannedIsImplied(m.live.work.nodes, live, liveEdges, m.full.work.nodes, full, g, e);
      }
    }
  }

  /** An edge of the plan between tasks is there once the plan is stored. */
  lemma PlannedIsImplied(live: Nodes, live': Nodes, liveEdges: set<EdgeRow>, full: Nodes, full': Nodes, g: GraphSpec,
                         e: EdgeRow)
    requires WellFormedGraph(g) && Planted(live, live', g) && Planted(full, full', g)
    requires e in EdgeRows(g.id, g.edges) && EdgeRows(g.id, g.edges) <= liveEdges
    requires OfKindTask(full', e.src) && OfKindTask(live', e.dst)
    ensures Implied(live', liveEdges, e)
  {
    hide Implied;
    assert e.src in Ids(g.nodes);
    EdgeImpliesItself(live', liveEdges, e);
  }

  // ----- each condition is exact

  /** A replay rebuilds only edges between nodes of their own graph exactly when the plan owns every edge at its
      nodes. */
  lemma OwnsIff(m: Machine, g: GraphSpec, at: string, dies: bool)
    requires Rules(m) && WellFormedGraph(g)
    ensures Whole(Do(m, Writing(CreateGraph(g), at, dies)).full.work) <==> Owns(m.full.work.edges, g)
  {
    hide Rules, PutNodes, WellFormedGraph, Do;
    RulesMakeWhole(m);
    PutNodesPlants(m.full.work.nodes, g);
    LoggedPlan(m, g, at, dies);
    var before, after := m.full.work, Do(m, Writing(CreateGraph(g), at, dies)).full.work;
    hide Planted;
    PlannedIdsAgree(before.nodes, after.nodes, g);
    if Owns(before.edges, g) {
      forall e | e in after.edges ensures Within(after.nodes, e) {
        NewWithin(before.nodes, before.edges, after.nodes, g, e);
      }
    }
    if Whole(after) {
      forall e | e in before.edges && (e.src in Ids(g.nodes) || e.dst in Ids(g.nodes)) ensures e.graphId == g.id {
        assert Within(after.nodes, e);
      }
    }
  }

  lemma LoggedPlan(m: Machine, g: GraphSpec, at: string, dies: bool)
    ensures var after := Do(m, Writing(CreateGraph(g), at, dies)).full.work;
      && after.nodes == PutNodes(m.full.work.nodes, g.nodes, g.id)
      && after.edges == m.full.work.edges + EdgeRows(g.id, g.edges)
  {
    hide PutNodes;
  }

  lemma PlannedIdsAgree(before: Nodes, after: Nodes, g: GraphSpec)
    requires Planted(before, after, g) && WellFormedGraph(g) && forall n :: n in before ==> before[n].node.id == n
    ensures forall n :: n in after ==> after[n].node.id == n
    ensures forall n :: n in Ids(g.nodes) ==> n in after && after[n].node.graphId == g.id
  {
  }

  /** And the graph it rebuilds is orderable exactly when what the log holds of it and the plan have no cycle
      together. */
  lemma UntangledIff(m: Machine, g: GraphSpec, at: string, dies: bool)
    requires Rules(m) && WellFormedGraph(g) && Owns(m.full.work.edges, g)
    ensures Orderable(Do(m, Writing(CreateGraph(g), at, dies)).full.work, g.id) <==> Untangled(m.full.work, g)
  {
    OwnsIff(m, g, at, dies);
    PlannedEdges(m.full.work, g, at, g.id);
    hide Rules, Cyclic, Orderable, EdgePairs, Owns, Whole;
    OrderableIff(Do(m, Writing(CreateGraph(g), at, dies)).full.work, g.id);
  }

  // ----- an edge left loose breaks the order

  /** A graph of nodes that complete as soon as they are ready. */
  predicate Plain(g: GraphSpec) {
    forall n :: n in g.nodes ==>
      !n.kind.Approval? && !n.approvalRequired && !n.independentReview && n.needs == []
  }

  /** An edge between tasks left by a lost plan that the new plan does not imply. */
  ghost predicate Loose(m: Machine, g: GraphSpec, e: EdgeRow) {
    && e in m.full.work.edges && e.dst in Ids(g.nodes)
    && OfKindTask(PutNodes(m.full.work.nodes, g.nodes, g.id), e.src)
    && !Implied(PutNodes(m.live.work.nodes, g.nodes, g.id), m.live.work.edges + EdgeRows(g.id, g.edges), e)
  }

  /** No further graph is planned. */
  predicate Calm(acts: seq<Act>) {
    forall a :: a in acts ==> !(a.Writing? && a.write.CreateGraph?)
  }

  ghost predicate Ordered(t: WorkTables) {
    forall e :: e in t.edges && Binds(t.nodes, e) ==> SettledIn(t.nodes, e.src)
  }

  /** Going on like that the run completes some task before its predecessor. */
  ghost predicate Breaks(acts: seq<Act>, more: seq<Act>) {
    Calm(more) && Legal(acts + more) && !Ordered(After(acts + more).live.work)
  }

  /** Planned, and then only the tasks of `done` completed, live and in the log alike. */
  ghost predicate Progressed(m: Machine, start: Machine, done: set<string>) {
    && m.live.work.edges == start.live.work.edges && m.full.work.edges == start.full.work.edges
    && Advanced(m.live.work.nodes, start.live.work.nodes, done)
    && Advanced(m.full.work.nodes, start.full.work.nodes, done)
  }

  ghost predicate Advanced(nodes: Nodes, start: Nodes, done: set<string>) {
    && nodes.Keys == start.Keys
    && forall n :: n in nodes ==>
        && nodes[n].node == start[n].node
        && nodes[n].status == if n in done then NodeStatus.Completed else start[n].status
  }

  /** A graph just planned: all its nodes pending, plain and under its id, its live edges those of the plan. */
  ghost predicate JustPlanned(m: Machine, g: GraphSpec) {
    && (forall n :: n in Ids(g.nodes) ==> n in m.live.work.nodes && n in m.full.work.nodes)
    && (forall n :: n in Ids(g.nodes) ==> PlainRow(m.live.work.nodes[n], g.id))
    && (forall e :: e in m.live.work.edges && e.graphId == g.id ==> (e.src, e.dst) in g.edges)
  }

  predicate PlainRow(row: NodeRow, graphId: string) {
    && row.status.Pending? && row.node.graphId == graphId && !row.node.kind.Approval?
    && !row.node.approvalRequired && !row.node.independentReview && row.node.needs == []
  }

  /** Tasks that may all be completed: their predecessors are among them. */
  predicate DownClosed(g: GraphSpec, free: set<string>) {
    && free <= Ids(g.nodes)
    && forall e :: e in g.edges && e.1 in free ==> e.0 in free
  }

  function Done(order: seq<string>, k: nat, free: set<string>): set<string>
    requires k <= |order|
  {
    set n | n in order[k..] && n in free
  }

  /** One task of a just planned graph whose predecessors are done can be completed. */
  lemma CompleteOne(acts: seq<Act>, start: Machine, g: GraphSpec, done: set<string>, n: string, at: string)
    returns (more: seq<Act>)
    requires Legal(acts) && JustPlanned(start, g) && Progressed(After(acts), start, done)
    requires n in Ids(g.nodes) && n !in done
    requires forall e :: e in g.edges && e.1 == n ==> e.0 in done && e.0 in Ids(g.nodes)
    ensures Calm(more) && Legal(acts + more) && Progressed(After(acts + more), start, done + {n})
  {
    var m := After(acts);
    hide *;
    OneIsReady(m, start, g, done, n);
    AnyReadiness(m, g.id);
    Extend(acts, CalculateReady(g.id));
    var m1 := Do(m, CalculateReady(g.id));
    OneIsCompleted(m1, start, g, done, n, at);
    Extend(acts + [CalculateReady(g.id)], Writing(Complete(n), at, false));
    more := [CalculateReady(g.id), Writing(Complete(n), at, false)];
    CompletingIsCalm(g.id, n, at);
    assert acts + more == acts + [CalculateReady(g.id)] + [Writing(Complete(n), at, false)];
  }

  lemma CompletingIsCalm(graphId: string, n: string, at: string)
    ensures Calm([CalculateReady(graphId), Writing(Complete(n), at, false)])
  {
  }

  lemma AnyReadiness(m: Machine, graphId: string)
    ensures Enabled(m, CalculateReady(graphId))
  {
  }

  lemma OneIsReady(m: Machine, start: Machine, g: GraphSpec, done: set<string>, n: string)
    requires JustPlanned(start, g) && Progressed(m, start, done)
    requires n in Ids(g.nodes) && n !in done
    requires forall e :: e in g.edges && e.1 == n ==> e.0 in done && e.0 in Ids(g.nodes)
    ensures n in ReadySet(m.live.work, g.id)
    ensures var m1 := Do(m, CalculateReady(g.id)); Progressed(m1, start, done) && n in m1.cycle.ready
  {
    forall e | e in m.live.work.edges && e.graphId == g.id && e.dst == n ensures SettledIn(m.live.work.nodes, e.src) {
      assert (e.src, e.dst) in g.edges;
    }
  }

  lemma OneIsCompleted(m: Machine, start: Machine, g: GraphSpec, done: set<string>, n: string, at: string)
    requires JustPlanned(start, g) && Progressed(m, start, done)
    requires n in Ids(g.nodes) && n !in done && n in m.cycle.ready
    ensures var c := Writing(Complete(n), at, false); Enabled(m, c) && Progressed(Do(m, c), start, done + {n})
  {
    CompleteEffect(m, n, at);
    var p := Do(m, Writing(Complete(n), at, false));
    hide Do, Advanced, Enabled, MoveNode;
    OneIsDispatched(m, start, g, done, n);
    InBoth(m, start, g, done, n);
    MoveNodeEffect(m.live.work, n, Some(NodeStatus.Completed), None);
    MoveNodeEffect(m.full.work, n, Some(NodeStatus.Completed), None);
    AdvanceOne(m.live.work.nodes, p.live.work.nodes, start.live.work.nodes, done, n);
    AdvanceOne(m.full.work.nodes, p.full.work.nodes, start.full.work.nodes, done, n);
    assert WriteEnabled(m, Complete(n));
    WriteIsAct(m, Complete(n), at);
  }

  lemma WriteIsAct(m: Machine, w: Write, at: string)
    requires WriteEnabled(m, w)
    ensures Enabled(m, Writing(w, at, false))
  {
    hide WriteEnabled;
  }

  lemma InBoth(m: Machine, start: Machine, g: GraphSpec, done: set<string>, n: string)
    requires JustPlanned(start, g) && Progressed(m, start, done) && n in Ids(g.nodes)
    ensures n in m.live.work.nodes && n in m.full.work.nodes
  {
  }

  lemma OneIsDispatched(m: Machine, start: Machine, g: GraphSpec, done: set<string>, n: string)
    requires JustPlanned(start, g) && Progressed(m, start, done)
    requires n in Ids(g.nodes) && n !in done && n in m.cycle.ready
    ensures WriteEnabled(m, Complete(n))
  {
  }

  lemma CompleteEffect(m: Machine, n: string, at: string)
    ensures var p := Do(m, Writing(Complete(n), at, false));
      && p.live.work == MoveNode(m.live.work, n, Some(NodeStatus.Completed), None)
      && p.full.work == MoveNode(m.full.work, n, Some(NodeStatus.Completed), None)
  {
    hide MoveNode;
  }

  lemma AdvanceOne(nodes: Nodes, after: Nodes, start: Nodes, done: set<string>, n: string)
    requires Advanced(nodes, start, done) && Restatused(nodes, after, n, NodeStatus.Completed)
    ensures Advanced(after, start, done + {n})
  {
  }

  /** All of them can be completed one after the other. */
  lemma {:induction false} CompleteAll(acts: seq<Act>, g: GraphSpec, free: set<string>, order: seq<string>, k: nat,
                                       at: string) returns (more: seq<Act>)
    requires Legal(acts) && JustPlanned(After(acts), g) && DownClosed(g, free) && k <= |order|
    requires FinishOrder(Ids(g.nodes), g.edges, order)
    ensures Calm(more) && Legal(acts + more) && Progressed(After(acts + more), After(acts), Done(order, k, free))
    decreases |order| - k
  {
    hide Legal, After, JustPlanned, Progressed;
    if k == |order| {
      more := [];
      assert acts + [] == acts && Done(order, k, free) == {};
      NothingDone(After(acts));
    } else {
      more := CompleteAll(acts, g, free, order, k + 1, at);
      var n := order[k];
      assert order[k..] == [n] + order[k + 1..];
      if n in free {
        forall e | e in g.edges && e.1 == n ensures e.0 in Done(order, k + 1, free) && e.0 in Ids(g.nodes) {
          SourceIsLater(g, order, k, e);
        }
        var step := CompleteOne(acts + more, After(acts), g, Done(order, k + 1, free), n, at);
        assert acts + more + step == acts + (more + step);
        assert Done(order, k, free) == Done(order, k + 1, free) + {n};
        more := more + step;
      } else {
        assert Done(order, k, free) == Done(order, k + 1, free);
      }
    }
  }

  lemma NothingDone(m: Machine)
    ensures Progressed(m, m, {})
  {
  }

  lemma SourceIsLater(g: GraphSpec, order: seq<string>, k: nat, e: Edge)
    requires FinishOrder(Ids(g.nodes), g.edges, order) && k < |order| && e in g.edges && e.1 == order[k]
    requires e.0 in Ids(g.nodes)
    ensures e.0 in order[k + 1..]
  {
    var j :| 0 <= j < |order| && order[j] == e.0;
    assert TargetsFirst(g.edges, order, j);
    var i :| 0 <= i < j && order[..j][i] == e.1;
    assert order[i] == order[k];
  }

  /** The node is where the loose edge starts, or the plan leads there from it. */
  ghost predicate Reached(nodes: Nodes, edges: set<EdgeRow>, graphId: string, src: string, n: string) {
    n == src || Implied(nodes, edges, EdgeRow(graphId, src, n))
  }

  lemma ImpliedExtends(nodes: Nodes, edges: set<EdgeRow>, graphId: string, src: string, u: string, n: string)
    requires Reached(nodes, edges, graphId, src, u) && EdgeRow(graphId, u, n) in edges
    requires OfKindTask(nodes, u) && OfKindTask(nodes, n)
    ensures Implied(nodes, edges, EdgeRow(graphId, src, n))
  {
    if u == src {
      EdgeImpliesItself(nodes, edges, EdgeRow(graphId, u, n));
    } else {
      var p :| |p| >= 2 && p[0] == src && p[|p| - 1] == u && TaskPath(nodes, edges, graphId, p);
      var q := p + [n];
      forall i | 0 <= i < |q| - 1 ensures Hop(edges, graphId, q, i) {
        if i < |p| - 1 { assert Hop(edges, graphId, p, i); }
      }
      assert TaskPath(nodes, edges, graphId, q);
    }
  }

  /** The tasks of a plan that do not follow from `src`. */
  ghost function Free(nodes: Nodes, edges: set<EdgeRow>, g: GraphSpec, src: string): set<string> {
    set n | n in Ids(g.nodes) && !Reached(nodes, edges, g.id, src, n)
  }

  lemma FreeIsDownClosed(nodes: Nodes, edges: set<EdgeRow>, g: GraphSpec, src: string)
    requires WellFormedGraph(g) && EdgeRows(g.id, g.edges) <= edges
    requires forall n :: n in Ids(g.nodes) ==> OfKindTask(nodes, n)
    ensures DownClosed(g, Free(nodes, edges, g, src))
  {
    forall e | e in g.edges && e.1 in Free(nodes, edges, g, src) ensures e.0 in Free(nodes, edges, g, src) {
      assert EdgeRow(g.id, e.0, e.1) in EdgeRows(g.id, g.edges);
      if Reached(nodes, edges, g.id, src, e.0) { ImpliedExtends(nodes, edges, g.id, src, e.0, e.1); }
    }
  }

  /** The tables after a new plain graph has been planned. */
  lemma NewIsJustPlanned(m: Machine, g: GraphSpec, at: string)
    requires Rules(m) && Stored(m) && WellFormedGraph(g) && Plain(g) && NewToLive(m.live.work, g)
    ensures var p := Do(m, Writing(CreateGraph(g), at, false));
      && JustPlanned(p, g)
      && p.live.work.nodes == PutNodes(m.live.work.nodes, g.nodes, g.id)
      && p.full.work.nodes == PutNodes(m.full.work.nodes, g.nodes, g.id)
      && p.live.work.edges == m.live.work.edges + EdgeRows(g.id, g.edges)
      && p.full.work.edges == m.full.work.edges + EdgeRows(g.id, g.edges)
      && (forall n :: n in Ids(g.nodes) ==> OfKindTask(p.live.work.nodes, n) && OfKindTask(p.full.work.nodes, n)
                                             && p.full.work.nodes[n].status.Pending?)
  {
    hide Rules, Stored, PutNodes, Do, Planted, PlainRow, Plain, WellFormedGraph, NewToLive, Known;
    NewIsKnown(m, g);
    PlanEffect(m, g, at);
    PutNodesPlants(m.live.work.nodes, g);
    PutNodesPlants(m.full.work.nodes, g);
    PlantedIsPlain(m.live.work.nodes, PutNodes(m.live.work.nodes, g.nodes, g.id), g);
    PlantedIsPlain(m.full.work.nodes, PutNodes(m.full.work.nodes, g.nodes, g.id), g);
    OnlyPlanned(m.live.work.edges, g);
  }

  lemma OnlyPlanned(edges: set<EdgeRow>, g: GraphSpec)
    requires forall e :: e in edges ==> e.graphId != g.id
    ensures forall e :: e in edges + EdgeRows(g.id, g.edges) && e.graphId == g.id ==> (e.src, e.dst) in g.edges
  {
  }

  lemma PlanEffect(m: Machine, g: GraphSpec, at: string)
    ensures var p := Do(m, Writing(CreateGraph(g), at, false));
      && p.live.work.nodes == PutNodes(m.live.work.nodes, g.nodes, g.id)
      && p.full.work.nodes == PutNodes(m.full.work.nodes, g.nodes, g.id)
      && p.live.work.edges == m.live.work.edges + EdgeRows(g.id, g.edges)
      && p.full.work.edges == m.full.work.edges + EdgeRows(g.id, g.edges)
  {
    hide PutNodes;
  }

  lemma PlantedIsPlain(before: Nodes, after: Nodes, g: GraphSpec)
    requires Planted(before, after, g) && Plain(g) && WellFormedGraph(g)
    ensures forall n :: n in Ids(g.nodes) ==>
      n in after && PlainRow(after[n], g.id) && OfKindTask(after, n) && after[n].status.Pending?
  {
  }

  lemma SelfLoopIsCyclic(edges: set<Edge>, n: string)
    requires (n, n) in edges
    ensures Cyclic(edges)
  {
    var p := [n, n];
    assert LinkAt(edges, p, 0);
    assert Linked(edges, p);
  }

  /** The source of a loose edge is pending in the log, whether the plan holds it or not. */
  lemma LooseSourceIsPending(m: Machine, g: GraphSpec, e: EdgeRow)
    requires Rules(m) && Stored(m) && WellFormedGraph(g) && NewToLive(m.live.work, g) && Owns(m.full.work.edges, g)
    requires Loose(m, g, e)
    ensures e.graphId == g.id && e.src != e.dst
    ensures var nodes := PutNodes(m.full.work.nodes, g.nodes, g.id); e.src in nodes && nodes[e.src].status.Pending?
  {
    NewIsKnown(m, g);
    PutNodesPlants(m.full.work.nodes, g);
    assert Within(m.full.work.nodes, e);
    if e.src == e.dst { SelfLoopIsCyclic(EdgePairs(m.full.work, g.id), e.src); }
    hide Implied, PutNodes, Cyclic, InOrder, ReadySound, Guarded, WithinBudget, AttemptsKept;
  }

  /** The loose edge's target can be completed, and a replay then brings the edge in. */
  lemma LooseBreaks(acts: seq<Act>, g: GraphSpec, at: string, e: EdgeRow) returns (more: seq<Act>)
    requires Legal(acts) && Tidied(acts) && SortableRun(acts)
    requires WellFormedGraph(g) && Plain(g) && !HasCycle(g.edges)
    requires NewToLive(After(acts).live.work, g) && Owns(After(acts).full.work.edges, g) && Loose(After(acts), g, e)
    ensures Breaks(acts + [Writing(CreateGraph(g), at, false)], more)
  {
    var m, c := After(acts), Writing(CreateGraph(g), at, false);
    CanPlan(acts, g, at);
    hide *;
    var free, order := LooseStart(m, g, at, e);
    more := CompleteThenReplay(acts + [c], g, free, order, at, e);
  }

  lemma CanPlan(acts: seq<Act>, g: GraphSpec, at: string)
    requires Legal(acts) && Tidied(acts) && SortableRun(acts) && WellFormedGraph(g)
    ensures Rules(After(acts)) && Stored(After(acts))
    ensures var c := Writing(CreateGraph(g), at, false);
      Enabled(After(acts), c) && Legal(acts + [c]) && After(acts + [c]) == Do(After(acts), c)
  {
    hide Rules, Stored, Folded, Legal, After, Tidied, SortableRun, WellFormedGraph, Do;
    RunKeepsInv(acts);
    RunsKeepOrder(acts);
    Extend(acts, Writing(CreateGraph(g), at, false));
  }

  /** What may be completed before the source of the loose edge, and in which order. */
  lemma LooseStart(m: Machine, g: GraphSpec, at: string, e: EdgeRow) returns (free: set<string>, order: seq<string>)
    requires Rules(m) && Stored(m) && WellFormedGraph(g) && Plain(g) && !HasCycle(g.edges)
    requires NewToLive(m.live.work, g) && Owns(m.full.work.edges, g) && Loose(m, g, e)
    ensures var p := Do(m, Writing(CreateGraph(g), at, false));
      && JustPlanned(p, g) && DownClosed(g, free) && FinishOrder(Ids(g.nodes), g.edges, order)
      && ShowsIn(p, free, e)
  {
    hide *;
    NewIsJustPlanned(m, g, at);
    LooseSourceIsPending(m, g, e);
    var nodes, edges := PutNodes(m.live.work.nodes, g.nodes, g.id), m.live.work.edges + EdgeRows(g.id, g.edges);
    free := Free(nodes, edges, g, e.src);
    FreeIsDownClosed(nodes, edges, g, e.src);
    LooseTargetIsFree(m, g, e);
    EdgesAreOwn(g);
    order := AcyclicHasOrder(Ids(g.nodes), g.edges);
    ShowsHere(Do(m, Writing(CreateGraph(g), at, false)), free, e);
  }

  /** The log holds the edge; its target may be completed, and its source is pending. */
  ghost predicate ShowsIn(p: Machine, free: set<string>, e: EdgeRow) {
    && e in p.full.work.edges && e.dst in free && e.src !in free
    && OfKindTask(p.full.work.nodes, e.src) && OfKindTask(p.full.work.nodes, e.dst)
    && p.full.work.nodes[e.src].status.Pending?
  }

  lemma ShowsHere(p: Machine, free: set<string>, e: EdgeRow)
    requires e in p.full.work.edges && e.dst in free && e.src !in free
    requires OfKindTask(p.full.work.nodes, e.src) && OfKindTask(p.full.work.nodes, e.dst)
    requires e.src in p.full.work.nodes && p.full.work.nodes[e.src].status.Pending?
    ensures ShowsIn(p, free, e)
  {
  }

  lemma CompleteThenReplay(acts: seq<Act>, g: GraphSpec, free: set<string>, order: seq<string>, at: string, e: EdgeRow)
    returns (more: seq<Act>)
    requires Legal(acts) && JustPlanned(After(acts), g) && DownClosed(g, free)
    requires FinishOrder(Ids(g.nodes), g.edges, order) && ShowsIn(After(acts), free, e)
    ensures Breaks(acts, more)
  {
    AllDone(g, order, free);
    hide Legal, After, JustPlanned, Progressed, DownClosed, FinishOrder, ShowsIn, Ordered, Do, Done;
    var done := CompleteAll(acts, g, free, order, 0, at);
    var q := After(acts + done);
    AnyReplay(q);
    Extend(acts + done, Act.Replay);
    more := done + [Act.Replay];
    assert acts + more == acts + done + [Act.Replay];
    ReplayShowsIt(After(acts), q, free, e);
  }

  lemma AllDone(g: GraphSpec, order: seq<string>, free: set<string>)
    requires FinishOrder(Ids(g.nodes), g.edges, order) && DownClosed(g, free)
    ensures Done(order, 0, free) == free
  {
    assert order[0..] == order;
  }

  lemma InvHasRules(m: Machine)
    requires Inv(m)
    ensures Rules(m)
  {
    hide Rules, Folded;
  }

  lemma AnyReplay(m: Machine)
    ensures Enabled(m, Act.Replay)
  {
  }

  lemma EdgesAreOwn(g: GraphSpec)
    requires WellFormedGraph(g)
    ensures forall e :: e in g.edges ==> e.0 in Ids(g.nodes) && e.1 in Ids(g.nodes)
  {
  }

  lemma LooseTargetIsFree(m: Machine, g: GraphSpec, e: EdgeRow)
    requires Loose(m, g, e) && e.graphId == g.id && e.src != e.dst
    ensures e in m.full.work.edges && e.dst in Ids(g.nodes)
    ensures OfKindTask(PutNodes(m.full.work.nodes, g.nodes, g.id), e.src)
    ensures
      var nodes, edges := PutNodes(m.live.work.nodes, g.nodes, g.id), m.live.work.edges + EdgeRows(g.id, g.edges);
      e.dst in Free(nodes, edges, g, e.src) && e.src !in Free(nodes, edges, g, e.src)
  {
    hide Implied, PutNodes;
    assert e == EdgeRow(g.id, e.src, e.dst);
  }

  lemma ReplayShowsIt(p: Machine, q: Machine, free: set<string>, e: EdgeRow)
    requires Progressed(q, p, free) && ShowsIn(p, free, e)
    ensures !Ordered(Do(q, Act.Replay).live.work)
  {
    var t := Do(q, Act.Replay).live.work;
    assert t == q.full.work;
    assert Binds(t.nodes, e) && !SettledIn(t.nodes, e.src);
  }

  lemma RulesOrdered(m: Machine)
    requires Rules(m)
    ensures Ordered(m.live.work)
  {
    hide Guarded, ReadySound, WithinBudget, AttemptsKept;
    forall e | e in m.live.work.edges && Binds(m.live.work.nodes, e) ensures SettledIn(m.live.work.nodes, e.src) {
      assert SettledIn(m.live.work.nodes, e.dst);
      assert Binds(m.full.work.nodes, e);
    }
  }

  lemma {:induction false} CalmKeepsInv(acts: seq<Act>, more: seq<Act>)
    requires Legal(acts) && Inv(After(acts)) && Calm(more) && Legal(acts + more)
    ensures Inv(After(acts + more))
    decreases |more|
  {
    hide Legal, After, Inv, Tidied, Enabled;
    if more == [] {
      assert acts + more == acts;
    } else {
      var init, a := more[..|more| - 1], more[|more| - 1];
      assert (acts + more)[..|acts + more| - 1] == acts + init;
      LastAct(acts + more);
      CalmKeepsInv(acts, init);
      assert a in more;
      OneMoreAct(After(acts + init), a);
    }
  }

  lemma NotLooseIsOrderly(m: Machine, g: GraphSpec)
    requires Rules(m) && Stored(m) && WellFormedGraph(g) && NewToLive(m.live.work, g) && Owns(m.full.work.edges, g)
    requires forall e :: !Loose(m, g, e)
    ensures Orderly(m, g, false)
  {
    NewIsKnown(m, g);
    PutNodesPlants(m.live.work.nodes, g);
    PutNodesPlants(m.full.work.nodes, g);
    hide Rules, Stored, PutNodes, Owns, Known, Implied;
    var live, liveEdges := PutNodes(m.live.work.nodes, g.nodes, g.id), m.live.work.edges + EdgeRows(g.id, g.edges);
    var full := PutNodes(m.full.work.nodes, g.nodes, g.id);
    forall e | (e in m.full.work.edges + EdgeRows(g.id, g.edges) && e.dst in Ids(g.nodes)
                && OfKindTask(full, e.src) && OfKindTask(live, e.dst))
      ensures Implied(live, liveEdges, e)
    {
      assert !Loose(m, g, e);
      if e in EdgeRows(g.id, g.edges) {
        PlannedIsImplied(m.live.work.nodes, live, liveEdges, m.full.work.nodes, full, g, e);
      }
    }
  }

  /** Planning a plain graph that is new to the live tables keeps every continuation in order exactly when no lost plan
      has left an edge between tasks that the new one does not imply. */
  lemma OrderSurvivesIff(acts: seq<Act>, g: GraphSpec, at: string)
    requires Legal(acts) && Tidied(acts) && SortableRun(acts)
    requires WellFormedGraph(g) && Plain(g) && !HasCycle(g.edges)
    requires NewToLive(After(acts).live.work, g) && Owns(After(acts).full.work.edges, g)
    ensures (exists e :: Loose(After(acts), g, e)) <==>
      exists more :: Breaks(acts + [Writing(CreateGraph(g), at, false)], more)
  {
    var m, c := After(acts), Writing(CreateGraph(g), at, false);
    if e :| Loose(m, g, e) {
      var more := LooseBreaks(acts, g, at, e);
    } else {
      CanPlan(acts, g, at);
      RunKeepsInv(acts);
      hide Legal, After, Inv, Rules, Stored, Plain, HasCycle, Loose, NewToLive, WellFormedGraph, Owns, Do, Tidied;
      hide SortableRun, Ordered, Orderly;
      NotLooseIsOrderly(m, g);
      OneMoreAct(m, c);
      forall more | Calm(more) && Legal(acts + [c] + more) ensures !Breaks(acts + [c], more) {
        CalmKeepsInv(acts + [c], more);
        InvHasRules(After(acts + [c] + more));
        RulesOrdered(After(acts + [c] + more));
      }
    }
  }

  // ----- what goes wrong otherwise

  function PlainNode(id: string, graphId: string): WorkNode {
    WorkNode(id, graphId, NodeKind.Task, [], false, false, false, [], 1, false, None, "", "")
  }

  /** A graph of two plain tasks. */
  function TwoTasks(id: string, edges: seq<Edge>): GraphSpec {
    GraphSpec(id, "", GraphStatus.Draft, 1, [PlainNode("a", id), PlainNode("b", id)], edges, None)
  }

  lemma TwoTasksAreWellFormed(id: string, edges: seq<Edge>)
    requires forall e :: e in edges ==> e.0 in {"a", "b"} && e.1 in {"a", "b"}
    ensures WellFormedGraph(TwoTasks(id, edges)) && Plain(TwoTasks(id, edges))
    ensures Ids(TwoTasks(id, edges).nodes) == {"a", "b"}
  {
    var g := TwoTasks(id, edges);
    assert g.nodes[0].id == "a" && g.nodes[1].id == "b";
    assert PlainNode("a", id) in g.nodes && PlainNode("b", id) in g.nodes;
  }

  lemma OneEdgeNoCycle()
    ensures !HasCycle([("a", "b")]) && !HasCycle([])
  {
    FinishOrderMeansNoCycle({"a", "b"}, [("a", "b")], ["b", "a"]) by {
      assert TargetsFirst([("a", "b")], ["b", "a"], 1) by { assert ["b", "a"][..1] == ["b"]; }
      assert TargetsFirst([("a", "b")], ["b", "a"], 0);
    }
    FinishOrderMeansNoCycle({}, [], []);
  }

  /** A plan that was lost and is retried without its edge: the second task completes, a replay brings the edge back,
      and the first one is still pending. */
  lemma LostPlanRetriedWithLess(id: string, at: string) returns (more: seq<Act>)
    ensures var first, second := TwoTasks(id, [("a", "b")]), TwoTasks(id, []);
      var acts := [Writing(CreateGraph(first), at, true), Writing(CreateGraph(second), at, false)];
      Legal(acts) && Breaks(acts, more)
  {
    var first, second := TwoTasks(id, [("a", "b")]), TwoTasks(id, []);
    assert first.edges == [("a", "b")] && second.edges == [];
    hide *;
    TwoTasksAreWellFormed(id, [("a", "b")]);
    TwoTasksAreWellFormed(id, []);
    OneEdgeNoCycle();
    LostEdgeIsLoose(id, at);
    more := LostThenPlanned(first, second, at, EdgeRow(id, "a", "b"));
  }

  /** So it is for any first plan that was lost and left an edge the second one does not imply. */
  lemma LostThenPlanned(first: GraphSpec, second: GraphSpec, at: string, e: EdgeRow) returns (more: seq<Act>)
    requires WellFormedGraph(first) && !HasCycle(first.edges)
    requires WellFormedGraph(second) && Plain(second) && !HasCycle(second.edges)
    requires var m := Do(INITIAL, Writing(CreateGraph(first), at, true));
      NewToLive(m.live.work, second) && Owns(m.full.work.edges, second) && Loose(m, second, e)
    ensures var acts := [Writing(CreateGraph(first), at, true), Writing(CreateGraph(second), at, false)];
      Legal(acts) && Breaks(acts, more)
  {
    hide *;
    FirstPlan(first, at);
    var lost, c := [Writing(CreateGraph(first), at, true)], Writing(CreateGraph(second), at, false);
    more := LooseBreaks(lost, second, at, e);
    CanPlan(lost, second, at);
    assert lost + [c] == [Writing(CreateGraph(first), at, true), c];
  }

  lemma FirstPlan(g: GraphSpec, at: string)
    requires WellFormedGraph(g) && !HasCycle(g.edges)
    ensures var acts := [Writing(CreateGraph(g), at, true)];
      Legal(acts) && Tidied(acts) && SortableRun(acts) && After(acts) == Do(INITIAL, acts[0])
  {
    var c := Writing(CreateGraph(g), at, true);
    InvInitial();
    NothingStored();
    RetryIsPlannable(INITIAL, g, true);
    hide Cyclic, HasCycle, WellFormedGraph, Orderly, Untangled, Do;
    assert Legal([]) && After([]) == INITIAL && Tidied([]) && SortableRun([]);
    assert [] + [c] == [c];
    Extend([], c);
    TidyExtends([], c);
    SortableExtends([], c);
  }

  lemma LostEdgeIsLoose(id: string, at: string)
    ensures var m, second := Do(INITIAL, Writing(CreateGraph(TwoTasks(id, [("a", "b")])), at, true)), TwoTasks(id, []);
      NewToLive(m.live.work, second) && Owns(m.full.work.edges, second) && Loose(m, second, EdgeRow(id, "a", "b"))
  {
    var first, second := TwoTasks(id, [("a", "b")]), TwoTasks(id, []);
    TwoTasksAreWellFormed(id, [("a", "b")]);
    TwoTasksAreWellFormed(id, []);
    LoggedPlan(INITIAL, first, at, true);
    var m, e := Do(INITIAL, Writing(CreateGraph(first), at, true)), EdgeRow(id, "a", "b");
    assert m.live == EMPTY;
    PutNodesPlants(m.full.work.nodes, second);
    hide PutNodes, WellFormedGraph;
    assert ("a", "b") in first.edges;
    assert e in EdgeRows(id, first.edges);
    assert m.live.work.edges + EdgeRows(id, second.edges) == {};
    var nodes := PutNodes(m.live.work.nodes, second.nodes, id);
    forall p | |p| >= 2 ensures !TaskPath(nodes, {}, id, p) {
      assert !Hop({}, id, p, 0);
    }
    assert PlainNode("a", id) in second.nodes;
  }

  /** A graph planned again the other way round: both plans are kept, nothing is ready and nothing is stuck. */
  lemma ReplannedBackwards(id: string, at: string)
    ensures var acts := [Writing(CreateGraph(TwoTasks(id, [("a", "b")])), at, false),
                         Writing(CreateGraph(TwoTasks(id, [("b", "a")])), at, false)];
      Legal(acts) &&
      var t := After(acts).live.work;
      && ReadySet(t, id) == {} && NodeIds(t, id) == {"a", "b"} && !Orderable(t, id)
      && forall n :: n in NodeIds(t, id) ==> t.nodes[n].status.Pending?
  {
    var first, second := TwoTasks(id, [("a", "b")]), TwoTasks(id, [("b", "a")]);
    TwoTasksAreWellFormed(id, [("a", "b")]);
    TwoTasksAreWellFormed(id, [("b", "a")]);
    var c, d := Writing(CreateGraph(first), at, false), Writing(CreateGraph(second), at, false);
    assert Legal([]) && After([]) == INITIAL;
    hide Do, WellFormedGraph, PutNodes, Orderable, ReadySet, NodeIds, Legal, After, TwoTasks;
    Extend([], c);
    assert [] + [c] == [c];
    Extend([c], d);
    assert [c] + [d] == [c, d];
    BackwardsTables(id, at);
  }

  lemma BackwardsTables(id: string, at: string)
    ensures var first, second := TwoTasks(id, [("a", "b")]), TwoTasks(id, [("b", "a")]);
      var planned := Do(INITIAL, Writing(CreateGraph(first), at, false));
      var t := Do(planned, Writing(CreateGraph(second), at, false)).live.work;
      && ReadySet(t, id) == {} && NodeIds(t, id) == {"a", "b"} && !Orderable(t, id)
      && forall n :: n in NodeIds(t, id) ==> t.nodes[n].status.Pending?
  {
    var first, second := TwoTasks(id, [("a", "b")]), TwoTasks(id, [("b", "a")]);
    TwoTasksAreWellFormed(id, [("a", "b")]);
    TwoTasksAreWellFormed(id, [("b", "a")]);
    assert first.edges == [("a", "b")];
    hide Do, WellFormedGraph, PutNodes, TwoTasks, ReadySet, NodeIds, Orderable;
    var m := Do(INITIAL, Writing(CreateGraph(first), at, false));
    PlanEffect(INITIAL, first, at);
    PlanEffect(m, second, at);
    PutNodesPlants(INITIAL.live.work.nodes, first);
    PutNodesPlants(m.live.work.nodes, second);
    var t := Do(m, Writing(CreateGraph(second), at, false)).live.work;
    BothWays(t, first, second, id);
  }

  /** Two pending tasks that wait for each other. */
  lemma BothWays(t: WorkTables, first: GraphSpec, second: GraphSpec, id: string)
    requires first.edges == [("a", "b")] && second == TwoTasks(id, [("b", "a")])
    requires t.edges == EdgeRows(id, first.edges) + EdgeRows(id, second.edges)
    requires t.nodes.Keys == {"a", "b"} && forall n :: n in second.nodes ==>
      n.id in t.nodes && t.nodes[n.id].node == n && t.nodes[n.id].status.Pending?
    ensures ReadySet(t, id) == {} && NodeIds(t, id) == {"a", "b"} && !Orderable(t, id)
    ensures forall n :: n in NodeIds(t, id) ==> t.nodes[n].status.Pending?
  {
    assert PlainNode("a", id) in second.nodes && PlainNode("b", id) in second.nodes;
    assert ("a", "b") in first.edges && ("b", "a") in second.edges;
    assert EdgeRow(id, "a", "b") in t.edges && EdgeRow(id, "b", "a") in t.edges;
    assert !SettledIn(t.nodes, "a") && !SettledIn(t.nodes, "b");
    var edges, p := EdgePairs(t, id), ["a", "b", "a"];
    assert ("a", "b") in edges && ("b", "a") in edges;
    forall i | 0 <= i < |p| - 1 ensures LinkAt(edges, p, i) { }
    assert Linked(edges, p);
    assert Cyclic(edges);
    assert Whole(t);
    OrderableIff(t, id);
  }

  /** Planning a task again that has completed, without a completed task it came before, breaks the order at once. */
  lemma ReplannedWhileDone(m: Machine, g: GraphSpec, at: string, e: EdgeRow)
    requires WellFormedGraph(g) && e in m.live.work.edges && Binds(m.live.work.nodes, e)
    requires e.dst !in Ids(g.nodes) && exists n :: n in g.nodes && n.id == e.src && !n.kind.Approval?
    ensures Enabled(m, Writing(CreateGraph(g), at, false))
    ensures !Ordered(Do(m, Writing(CreateGraph(g), at, false)).live.work)
  {
    PlanEffect(m, g, at);
    PutNodesPlants(m.live.work.nodes, g);
    hide PutNodes;
    var t := Do(m, Writing(CreateGraph(g), at, false)).live.work;
    assert Binds(t.nodes, e) && !SettledIn(t.nodes, e.src);
  }
}
