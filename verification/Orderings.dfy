/** Stored graphs stay what the compiler accepted: in every run whose graphs are planned in order, each graph of the
    live tables, and of those a replay would rebuild, has an order in which every edge's target comes first. */
module Orderings {
  import opened Common
  import opened Projections
  import opened Compiler
  import opened Governance
  import opened GovernedRuns

  function NodeIds(t: WorkTables, graphId: string): set<string> {
    set n | n in t.nodes && t.nodes[n].node.graphId == graphId
  }

  function EdgePairs(t: WorkTables, graphId: string): set<Edge> {
    set e | e in t.edges && e.graphId == graphId :: (e.src, e.dst)
  }

  /** A finish order of stored nodes and edges. */
  ghost predicate OrderedBy(ids: set<string>, edges: set<Edge>, order: seq<string>) {
    exists listed: seq<Edge> :: (forall e :: e in listed <==> e in edges) && FinishOrder(ids, listed, order)
  }

  /** The graph could have come from the compiler. */
  ghost predicate Orderable(t: WorkTables, graphId: string) {
    exists order :: OrderedBy(NodeIds(t, graphId), EdgePairs(t, graphId), order)
  }

  ghost predicate AllOrderable(t: WorkTables) {
    forall graphId :: graphId in t.graphs ==> Orderable(t, graphId)
  }

  /** Rows name their own node, and edges join nodes of their own graph. */
  ghost predicate Whole(t: WorkTables) {
    && (forall n :: n in t.nodes ==> t.nodes[n].node.id == n)
    && (forall e :: e in t.edges ==> Within(t.nodes, e))
  }

  predicate LinkAt(edges: set<Edge>, p: seq<string>, i: nat)
    requires i < |p| - 1
  {
    (p[i], p[i + 1]) in edges
  }

  ghost predicate Linked(edges: set<Edge>, p: seq<string>) {
    forall i :: 0 <= i < |p| - 1 ==> LinkAt(edges, p, i)
  }

  ghost predicate Cyclic(edges: set<Edge>) {
    exists p :: |p| >= 2 && p[0] == p[|p| - 1] && Linked(edges, p)
  }

  lemma SamePaths(listed: seq<Edge>, edges: set<Edge>, p: seq<string>)
    requires forall e :: e in listed <==> e in edges
    ensures Path(listed, p) <==> Linked(edges, p)
  {
    if Path(listed, p) {
      forall i | 0 <= i < |p| - 1 ensures LinkAt(edges, p, i) { assert StepAt(listed, p, i); }
    }
    if Linked(edges, p) {
      forall i | 0 <= i < |p| - 1 ensures StepAt(listed, p, i) { assert LinkAt(edges, p, i); }
    }
  }

  lemma CyclicIff(listed: seq<Edge>, edges: set<Edge>)
    requires forall e :: e in listed <==> e in edges
    ensures HasCycle(listed) <==> Cyclic(edges)
  {
    forall p: seq<string> | |p| >= 2 ensures Path(listed, p) <==> Linked(edges, p) {
      SamePaths(listed, edges, p);
    }
  }

  lemma {:induction false} ListOf(edges: set<Edge>) returns (listed: seq<Edge>)
    ensures forall e :: e in listed <==> e in edges
  {
    if edges == {} {
      listed := [];
    } else {
      var e :| e in edges;
      var rest := ListOf(edges - {e});
      listed := [e] + rest;
    }
  }

  /** A stored graph whose edges join its own nodes is orderable exactly when it has no directed cycle. */
  lemma OrderableIff(t: WorkTables, graphId: string)
    requires Whole(t)
    ensures Orderable(t, graphId) <==> !Cyclic(EdgePairs(t, graphId))
  {
    var ids, edges := NodeIds(t, graphId), EdgePairs(t, graphId);
    forall e | e in edges ensures e.0 in ids && e.1 in ids {
      assert Within(t.nodes, EdgeRow(graphId, e.0, e.1));
    }
    hide Whole, NodeIds, EdgePairs, FinishOrder, Cyclic;
    if Orderable(t, graphId) {
      var order :| OrderedBy(ids, edges, order);
      var listed :| (forall e :: e in listed <==> e in edges) && FinishOrder(ids, listed, order);
      FinishOrderMeansNoCycle(ids, listed, order);
      CyclicIff(listed, edges);
    }
    if !Cyclic(edges) {
      var listed := ListOf(edges);
      CyclicIff(listed, edges);
      var order := AcyclicHasOrder(ids, listed);
      assert OrderedBy(ids, edges, order);
    }
  }

  lemma NoEdgesNoCycle()
    ensures !Cyclic({})
  {
    forall p: seq<string> | |p| >= 2 ensures !Linked({}, p) {
      assert !LinkAt({}, p, 0);
    }
  }

  lemma FewerEdgesLessCyclic(fewer: set<Edge>, edges: set<Edge>)
    requires fewer <= edges && Cyclic(fewer)
    ensures Cyclic(edges)
  {
    var p :| |p| >= 2 && p[0] == p[|p| - 1] && Linked(fewer, p);
    forall i | 0 <= i < |p| - 1 ensures LinkAt(edges, p, i) { assert LinkAt(fewer, p, i); }
    assert Linked(edges, p);
  }

  // ----- one event

  /** Nodes and edges belong to graphs of the same tables, and no graph has a cycle. */
  ghost predicate Filed(t: WorkTables) {
    && (forall n :: n in t.nodes ==> t.nodes[n].node.graphId in t.graphs)
    && (forall e :: e in t.edges ==> e.graphId in t.graphs)
    && (forall g: string :: !Cyclic(EdgePairs(t, g)))
  }

  function EdgesOf(g: GraphSpec): set<Edge> {
    set e | e in g.edges
  }

  /** What the tables hold of the graph and what the plan adds have no cycle together. */
  ghost predicate Untangled(t: WorkTables, g: GraphSpec) {
    !Cyclic(EdgePairs(t, g.id) + EdgesOf(g))
  }

  lemma PlannedEdges(t: WorkTables, g: GraphSpec, at: string, other: string)
    ensures EdgePairs(PutGraph(t, g, at), other) ==
      EdgePairs(t, other) + if other == g.id then EdgesOf(g) else {}
  {
    var u := PutGraph(t, g, at);
    forall e | e in g.edges ensures EdgeRow(g.id, e.0, e.1) in u.edges {
      assert EdgeRow(g.id, e.0, e.1) in EdgeRows(g.id, g.edges);
    }
    assert forall e :: e in EdgesOf(g) ==> EdgeRow(g.id, e.0, e.1) in u.edges;
  }

  lemma PlanIsFiled(t: WorkTables, g: GraphSpec, at: string)
    requires Filed(t) && WellFormedGraph(g) && Untangled(t, g)
    ensures Filed(PutGraph(t, g, at))
  {
    var u := PutGraph(t, g, at);
    PutNodesPlants(t.nodes, g);
    forall other: string ensures !Cyclic(EdgePairs(u, other)) {
      PlannedEdges(t, g, at, other);
      assert EdgePairs(t, other) + {} == EdgePairs(t, other);
    }
    hide Cyclic, PutNodes, EdgePairs;
    forall n | n in u.nodes ensures u.nodes[n].node.graphId in u.graphs {
      if n in Ids(g.nodes) { assert u.nodes[n].node.graphId == g.id; }
    }
  }

  lemma SameShape(t: WorkTables, u: WorkTables)
    requires Filed(t) && u.edges == t.edges && u.graphs.Keys == t.graphs.Keys && u.nodes.Keys == t.nodes.Keys
    requires forall n :: n in t.nodes ==> u.nodes[n].node == t.nodes[n].node
    ensures Filed(u)
  {
    hide Cyclic;
    forall g: string ensures !Cyclic(EdgePairs(u, g)) {
      assert EdgePairs(u, g) == EdgePairs(t, g);
    }
  }

  lemma EventIsFiled(t: WorkTables, e: WorkEvent, at: string)
    requires Filed(t)
    requires e.RunCreated? && e.graph.Some? ==> WellFormedGraph(e.graph.value) && Untangled(t, e.graph.value)
    ensures Filed(ApplyWork(t, e, at))
  {
    hide Filed, Untangled, WellFormedGraph;
    if e.RunCreated? && e.graph.Some? {
      PlanIsFiled(t, e.graph.value, at);
    } else {
      SameShape(t, ApplyWork(t, e, at));
    }
  }

  // ----- every run

  ghost predicate Stored(m: Machine) {
    Filed(m.live.work) && Filed(m.full.work)
  }

  /** Whatever the act plans has no cycle with what the log holds of the graph. */
  ghost predicate Sortable(m: Machine, a: Act) {
    a.Writing? && a.write.CreateGraph? ==> Untangled(m.full.work, a.write.graph)
  }

  /** The condition under which a creation keeps the rules and leaves every graph acyclic. */
  ghost predicate Plannable(m: Machine, g: GraphSpec, dies: bool) {
    Orderly(m, g, dies) && Untangled(m.full.work, g)
  }

  ghost predicate SortableRun(acts: seq<Act>)
    requires Legal(acts)
    decreases |acts|
  {
    acts == [] || (SortableRun(acts[..|acts| - 1]) && Sortable(After(acts[..|acts| - 1]), acts[|acts| - 1]))
  }

  lemma SortableExtends(acts: seq<Act>, a: Act)
    requires Legal(acts) && Enabled(After(acts), a) && SortableRun(acts) && Sortable(After(acts), a)
    ensures Legal(acts + [a]) && SortableRun(acts + [a])
  {
    Extend(acts, a);
    hide Sortable, Enabled, After;
    assert (acts + [a])[..|acts|] == acts;
  }

  lemma OnlyCreationsCreate(t: Tables, w: Write)
    ensures var e := WorkEventOf(t, w);
      && (w.CreateGraph? ==> e == Some(RunCreated(Some(w.graph))))
      && (!w.CreateGraph? && e.Some? ==> !e.value.RunCreated?)
  {
  }

  lemma UntangledLive(m: Machine, g: GraphSpec)
    requires Rules(m) && Untangled(m.full.work, g)
    ensures Untangled(m.live.work, g)
  {
    if Cyclic(EdgePairs(m.live.work, g.id) + EdgesOf(g)) {
      hide Cyclic, InOrder, ReadySound, WithinBudget, AttemptsKept, Guarded;
      assert EdgePairs(m.live.work, g.id) <= EdgePairs(m.full.work, g.id);
      FewerEdgesLessCyclic(EdgePairs(m.live.work, g.id) + EdgesOf(g), EdgePairs(m.full.work, g.id) + EdgesOf(g));
    }
  }

  lemma WriteIsFiled(m: Machine, w: Write, at: string, dies: bool)
    requires WriteEnabled(m, w) && Stored(m)
    requires w.CreateGraph? ==> Untangled(m.live.work, w.graph) && Untangled(m.full.work, w.graph)
    ensures Stored(Emit(m, Event(at, ContentOf(m.live, w)), dies))
  {
    OnlyCreationsCreate(m.live, w);
    hide Filed, Untangled, ApplyWork, ApplyApproval, WorkEventOf, ApprovalEventOf;
    var e := WorkEventOf(m.live, w);
    if e.Some? {
      EventIsFiled(m.live.work, e.value, at);
      EventIsFiled(m.full.work, e.value, at);
    }
  }

  /** Every act, creations and replays included, keeps each graph acyclic and each node and edge in a stored graph. */
  lemma ActKeepsOrder(m: Machine, a: Act)
    requires Rules(m) && Enabled(m, a) && Stored(m) && Sortable(m, a)
    ensures Stored(Do(m, a))
  {
    if a.Writing? {
      if a.write.CreateGraph? { UntangledLive(m, a.write.graph); }
      hide Rules, Filed, Untangled, Emit, ContentOf, WriteEnabled;
      WriteIsFiled(m, a.write, a.timestamp, a.dies);
    } else {
      hide Rules, Enabled, Filed;
    }
  }

  lemma {:induction false} RunsKeepOrder(acts: seq<Act>)
    requires Legal(acts) && Tidied(acts) && SortableRun(acts)
    ensures Stored(After(acts))
    decreases |acts|
  {
    if acts == [] {
      NothingStored();
    } else {
      LastAct(acts);
      hide Rules, Stored, Sortable, InPlace, Do, Enabled, Folded, After;
      var init, a := acts[..|acts| - 1], acts[|acts| - 1];
      RunsKeepOrder(init);
      RunKeepsInv(init);
      ActKeepsOrder(After(init), a);
    }
  }

  lemma NothingStored()
    ensures Stored(INITIAL)
  {
    assert forall g: string :: EdgePairs(EMPTY.work, g) == {};
    NoEdgesNoCycle();
  }

  lemma RulesMakeWhole(m: Machine)
    requires Rules(m)
    ensures Whole(m.live.work) && Whole(m.full.work)
  {
    forall e | e in m.live.work.edges ensures Within(m.live.work.nodes, e) {
      assert Within(m.full.work.nodes, e);
    }
  }

  lemma FiledIsOrderable(t: WorkTables)
    requires Whole(t) && Filed(t)
    ensures AllOrderable(t)
  {
    hide Whole, Orderable, Cyclic;
    forall g | g in t.graphs ensures Orderable(t, g) {
      OrderableIff(t, g);
    }
  }

  /** In every such run every stored graph is orderable: in the live tables, and in those a replay would rebuild,
      whatever was lost on the way. */
  lemma StoredGraphsAreOrderable(acts: seq<Act>)
    requires Legal(acts) && Tidied(acts) && SortableRun(acts)
    ensures AllOrderable(After(acts).live.work) && AllOrderable(After(acts).full.work)
  {
    RunsKeepOrder(acts);
    RunKeepsInv(acts);
    RulesMakeWhole(After(acts));
    hide Rules, Folded, Filed, Whole, After, Legal;
    FiledIsOrderable(After(acts).live.work);
    FiledIsOrderable(After(acts).full.work);
  }
}
