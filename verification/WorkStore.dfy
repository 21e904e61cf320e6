/** The Work Graph store (work/store.py) and the approval lookups it shares with the
    approval service: every mutation appends an event and folds it.

    The ghost machine records that each of its writes is one the rules of `Governance`
    allow, so that a store is always in a state some legal run reaches. */
module WorkStores {
  import opened Common
  import opened Projections
  import opened Compiler
  import opened Readiness
  import opened Governance
  import opened GovernedRuns
  import opened Orderings
  import opened L = Ledger

  /** How a call ended: `Raised` for the exceptions the run loop catches, `Dead` when the process or the run is gone. */
  datatype Outcome = Done | Raised | Dead

  function StatusesOf(t: WorkTables, graphId: string): Statuses {
    map n | n in t.nodes && t.nodes[n].node.graphId == graphId :: t.nodes[n].status
  }

  lemma EdgeOrderIsTotal()
    ensures TotalOrder(EdgeLeq)
  {
    OrdersAreTotal();
    forall a: Edge, b: Edge | EdgeLeq(a, b) && EdgeLeq(b, a) ensures a == b {
      if a.0 == b.0 { TextLeqAntisymmetric(a.1, b.1); } else { TextLeqAntisymmetric(a.0, b.0); }
    }
  }

  function SortedEdges(edges: set<Edge>): (r: seq<Edge>)
    ensures forall e :: e in r <==> e in edges
  {
    EdgeOrderIsTotal();
    SortedSet(EdgeLeq, edges)
  }

  function NodesOf(t: WorkTables, ids: seq<string>): (r: seq<WorkNode>)
    requires forall id :: id in ids ==> id in t.nodes
    ensures forall n :: n in r <==> exists id :: id in ids && t.nodes[id].node == n
  {
    var nodes := seq(|ids|, i requires 0 <= i < |ids| => assert ids[i] in ids; t.nodes[ids[i]].node);
    assert forall i :: 0 <= i < |ids| ==> ids[i] in ids && nodes[i] == t.nodes[ids[i]].node;
    assert forall id :: id in ids ==> t.nodes[id].node in nodes;
    nodes
  }

  /** `WorkStore.get`: the graph of the stored rows, nodes and edges in order. */
  function GraphOf(t: WorkTables, graphId: string): (g: Graph)
    ensures forall e :: e in g.edges <==> EdgeRow(graphId, e.0, e.1) in t.edges
    ensures forall n :: n in g.nodes <==> exists id :: id in NodeIds(t, graphId) && t.nodes[id].node == n
  {
    Graph(NodesOf(t, SortedTexts(NodeIds(t, graphId))), SortedEdges(EdgePairs(t, graphId)))
  }

  lemma GraphOfIsWhole(t: WorkTables, graphId: string)
    requires Whole(t)
    ensures var g := GraphOf(t, graphId);
      && Ids(g.nodes) == NodeIds(t, graphId) && EdgesWithin(g)
      && StatusesOf(t, graphId).Keys == Ids(g.nodes)
      && (forall n :: n in NodeIds(t, graphId) ==>
            (IsReady(g.edges, StatusesOf(t, graphId), n) <==> n in ReadySet(t, graphId)))
  {
    var g := GraphOf(t, graphId);
    forall n ensures n in Ids(g.nodes) <==> n in NodeIds(t, graphId) {
      if n in NodeIds(t, graphId) {
        assert t.nodes[n].node in g.nodes;
      }
    }
    forall e | e in g.edges ensures e.0 in NodeIds(t, graphId) && e.1 in NodeIds(t, graphId) {
      assert Within(t.nodes, EdgeRow(graphId, e.0, e.1));
    }
    var statuses := StatusesOf(t, graphId);
    forall n | n in NodeIds(t, graphId) ensures IsReady(g.edges, statuses, n) <==> n in ReadySet(t, graphId) {
      if PredecessorsSettled(g.edges, statuses, n) {
        forall e | e in t.edges && e.graphId == graphId && e.dst == n ensures SettledIn(t.nodes, e.src) {
          assert e == EdgeRow(graphId, e.src, e.dst);
          assert (e.src, e.dst) in g.edges;
        }
      }
      if n in ReadySet(t, graphId) {
        forall e | e in g.edges && e.1 == n ensures e.0 in statuses && Settled(statuses[e.0]) {
          assert SettledIn(t.nodes, EdgeRow(graphId, e.0, e.1).src);
        }
      }
    }
  }

  lemma CreatedNodes(t: WorkTables, g: GraphSpec, at: string)
    requires WellFormedGraph(g)
    ensures var before, after := t.nodes, PutGraph(t, g, at).nodes;
      && (forall n :: n in g.nodes ==> n.id in after && after[n.id] == NodeRow(n, NodeStatus.Pending, None, 0))
      && (forall n :: n in before && n !in Ids(g.nodes) ==> n in after && after[n] == before[n])
      && after.Keys == before.Keys + Ids(g.nodes)
  {
    PutNodesEffect(t.nodes, g.nodes, g.id);
    hide PutNodes;
  }

  /** What the compiler returns is a well-formed graph. */
  lemma CompiledIsWellFormed(spec: Spec, g: Graph, id: string)
    requires WellFormed(spec) && DistinctIds(g.nodes)
    requires multiset(g.nodes) == multiset(Values(spec.nodes)) && multiset(g.edges) == multiset(Values(spec.edges))
    requires forall n :: n in spec.nodes && n.Some? ==> n.value.graphId == id
    ensures forall n :: n in g.nodes ==> n.graphId == id
    ensures forall e :: e in g.edges ==> e.0 in Ids(g.nodes) && e.1 in Ids(g.nodes)
  {
    var nodes, edges := Values(spec.nodes), Values(spec.edges);
    forall n ensures n in g.nodes <==> n in nodes { assert n in multiset(g.nodes) <==> n in multiset(nodes); }
    forall n | n in nodes ensures n.graphId == id {
      var i :| 0 <= i < |nodes| && nodes[i] == n;
      assert spec.nodes[i] in spec.nodes;
    }
    forall e | e in g.edges ensures e.0 in Ids(g.nodes) && e.1 in Ids(g.nodes) {
      assert e in multiset(g.edges);
      assert e in edges;
      assert e.0 in Ids(nodes) && e.1 in Ids(nodes);
    }
  }

  /** A fresh identifier: what uuid4 is relied on for. */
  method FreshId(used: set<string>) returns (id: string)
    ensures id !in used
  {
    id := "wa_";
    var tried := {};
    while id in used
      invariant tried <= used
      invariant forall x :: x in tried ==> |x| < |id|
      decreases used - tried
    {
      tried := tried + {id};
      id := id + "0";
    }
  }

  method AnyFate() returns (fate: Fate) {
    fate := *;
  }

  class WorkStore {
    const ledger: L.Ledger
    ghost var m: Machine
    ghost var acts: seq<Act>

    constructor ()
      ensures Valid() && fresh(ledger) && m == INITIAL
    {
      ledger := new L.Ledger();
      m, acts := INITIAL, [];
    }

    /** The store is in a state some legal run reaches. */
    ghost predicate Sane()
      reads this, ledger
    {
      && ledger.Valid()
      && Legal(acts) && After(acts) == m
      && m.log == ledger.log && m.live == ledger.live && m.lost == ledger.lost
    }

    /** And every graph of that run was planned in order. */
    ghost predicate Valid()
      reads this, ledger
    {
      Sane() && Tidied(acts) && SortableRun(acts)
    }

    function Work(): WorkTables
      reads ledger
    {
      ledger.live.work
    }

    /** Appends the event of one write and folds it, unless the lock times out or the writer dies. */
    method Write(w: Governance.Write, at: string, fate: Fate)
      requires Sane() && (!fate.TimesOut? ==> WriteEnabled(m, w))
      modifies this, ledger
      ensures Sane()
      ensures old(Valid()) && (w.CreateGraph? ==> Plannable(old(m), w.graph, fate.Dies?)) ==> Valid()
      ensures acts == if fate.TimesOut? then old(acts) else old(acts) + [Writing(w, at, fate.Dies?)]
      ensures fate.TimesOut? ==> m == old(m) && ledger.live == old(ledger.live)
      ensures !fate.TimesOut? ==> m == Do(old(m), Writing(w, at, fate.Dies?))
      ensures fate.Dies? ==> ledger.live == old(ledger.live)
      ensures fate.Applies? ==> ledger.live == Apply(old(ledger.live), Event(at, ContentOf(old(ledger.live), w)))
    {
      hide Legal, After, Fold, FoldExcept, LogOf, LiveOf, Tidied, SortableRun, WriteEnabled, Orderly, Untangled;
      ledger.Record(Event(at, ContentOf(ledger.live, w)), fate);
      if !fate.TimesOut? {
        Grows(Writing(w, at, fate.Dies?));
        acts := acts + [Writing(w, at, fate.Dies?)];
        m := Do(m, Writing(w, at, fate.Dies?));
      }
    }

    /** One more act of the run. */
    lemma Grows(a: Act)
      requires Legal(acts) && After(acts) == m && Enabled(m, a)
      ensures Legal(acts + [a]) && After(acts + [a]) == Do(m, a)
      ensures Tidied(acts) && InPlace(m, a) ==> Tidied(acts + [a])
      ensures SortableRun(acts) && Sortable(m, a) ==> SortableRun(acts + [a])
    {
      hide *;
      Extend(acts, a);
      if Tidied(acts) && InPlace(m, a) { TidyExtends(acts, a); }
      if SortableRun(acts) && Sortable(m, a) { SortableExtends(acts, a); }
    }

    /** `create`: the graph, its nodes, all pending, and its edges, in one event, whatever is stored already. */
    method Create(g: GraphSpec, at: string, fate: Fate) returns (created: bool)
      requires Sane() && WellFormedGraph(g)
      modifies this, ledger
      ensures Sane() && m.cycle == old(m.cycle)
      ensures old(Valid()) && Plannable(old(m), g, fate.Dies?) ==> Valid()
      ensures created <==> fate.Applies?
      ensures Work() == if created then PutGraph(old(Work()), g, at) else old(Work())
      ensures created ==> forall n :: n in g.nodes ==>
        n.id in Work().nodes && Work().nodes[n.id] == NodeRow(n, NodeStatus.Pending, None, 0)
      ensures created ==> forall n :: n in old(Work().nodes) && n !in Ids(g.nodes) ==>
        n in Work().nodes && Work().nodes[n] == old(Work().nodes[n])
    {
      hide Legal, After, Fold, FoldExcept, LogOf, LiveOf, TextLeq, PutGraph, Tidied, SortableRun, Plannable,
        WellFormedGraph;
      CreatedNodes(Work(), g, at);
      Write(CreateGraph(g), at, fate);
      created := fate.Applies?;
    }

    /** Compiling a specification and storing the graph.  If the log left by earlier plans of the graph lets it, the
        graph is orderable from here on. */
    method CompileAndCreate(spec: Spec, details: string, at: string, fate: Fate)
      returns (r: Result<bool, CompileError>, ghost g: GraphSpec)
      requires Sane()
      requires forall n :: n in spec.nodes && n.Some? ==> n.value.graphId == spec.header.id
      modifies this, ledger
      ensures Sane()
      ensures r.Success? <==> WellFormed(spec) && !HasCycle(Values(spec.edges)) && HeaderAccepted(spec.header)
      ensures r.Success? ==> (r.value <==> fate.Applies?)
      ensures r.Success? ==> g.id == spec.header.id && WellFormedGraph(g)
      ensures r.Success? ==>
        multiset(g.nodes) == multiset(Values(spec.nodes)) && multiset(g.edges) == multiset(Values(spec.edges))
      ensures r == Success(true) ==> Work() == PutGraph(old(Work()), g, at)
      ensures r != Success(true) ==> Work() == old(Work())
      ensures old(Valid()) && (r.Success? ==> Plannable(old(m), g, fate.Dies?)) ==>
        Valid() && (r == Success(true) ==> Orderable(Work(), g.id))
    {
      hide Legal, After, Fold, FoldExcept, LogOf, LiveOf, TextLeq, WellFormed, HasCycle, Tidied, SortableRun, Plannable;
      var compiled, order := CompileWorkGraph(spec);
      g := GraphSpec("", "", GraphStatus.Draft, 1, [], [], None);
      if compiled.Failure? { return Failure(compiled.error), g; }
      var h := spec.header;
      var planned := GraphSpec(h.id, details, h.status.value, h.version.value,
        compiled.value.nodes, compiled.value.edges, None);
      g := planned;
      CompiledIsWellFormed(spec, compiled.value, h.id);
      var created := Create(planned, at, fate);
      if Valid() { Governed(); }
      r := Success(created);
    }

    /** Records an act that writes nothing. */
    ghost method Take(a: Act)
      requires Valid() && !a.Writing? && !a.Replay? && Enabled(m, a)
      modifies this
      ensures Valid() && m == Do(old(m), a) && acts == old(acts) + [a]
    {
      hide Legal, After, Fold, FoldExcept, LogOf, LiveOf, Tidied, SortableRun, Orderly, Untangled;
      Grows(a);
      acts := acts + [a];
      m := Do(m, a);
    }

    /** Rebuilding the tables from the log. */
    method Replay()
      requires Sane()
      modifies this, ledger
      ensures Sane() && (old(Valid()) ==> Valid())
      ensures m == Do(old(m), Act.Replay) && acts == old(acts) + [Act.Replay]
      ensures ledger.live == Fold(old(ledger.log))
    {
      hide Legal, After, Fold, FoldExcept, LogOf, LiveOf, Tidied, SortableRun;
      RunKeepsFold(acts);
      Grows(Act.Replay);
      ledger.Rebuild();
      acts := acts + [Act.Replay];
      m := Do(m, Act.Replay);
    }

    /** What a replay would rebuild is the fold of the log. */
    lemma FullIsFold()
      requires Valid()
      ensures m.full == Fold(ledger.log)
      ensures ledger.live.work.attempts.Keys <= m.full.work.attempts.Keys
    {
      hide Legal, After, Fold, FoldExcept, LogOf, LiveOf, Tidied, SortableRun;
      RunKeepsInv(acts);
    }

    lemma Governed()
      requires Valid()
      ensures Rules(m) && Whole(Work()) && AllOrderable(Work())
    {
      RunKeepsInv(acts);
      RulesMakeWhole(m);
      StoredGraphsAreOrderable(acts);
    }
  }
}
