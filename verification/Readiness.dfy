/** Which nodes may run next (work/readiness.py and `WorkStore.ready_node_ids` of
    work/store.py), and why an acyclic graph never runs out of them. */
module Readiness {
  import opened Common
  import opened Projections
  import opened Compiler

  type Statuses = map<string, NodeStatus>

  predicate Settled(s: NodeStatus) {
    s == NodeStatus.Completed || s == NodeStatus.Skipped
  }

  function StatusOf(statuses: Statuses, id: string): NodeStatus {
    if id in statuses then statuses[id] else NodeStatus.Pending
  }

  predicate PredecessorsSettled(edges: seq<Edge>, statuses: Statuses, id: string) {
    forall e :: e in edges && e.1 == id ==> e.0 in statuses && Settled(statuses[e.0])
  }

  predicate IsReady(edges: seq<Edge>, statuses: Statuses, id: string) {
    StatusOf(statuses, id).Pending? && PredecessorsSettled(edges, statuses, id)
  }

  ghost predicate EdgesWithin(graph: Graph) {
    forall e :: e in graph.edges ==> e.0 in Ids(graph.nodes) && e.1 in Ids(graph.nodes)
  }

  method Predecessors(graph: Graph) returns (before: map<string, set<string>>)
    requires EdgesWithin(graph)
    ensures before.Keys == Ids(graph.nodes)
    ensures forall id, p :: id in before ==> (p in before[id] <==> (p, id) in graph.edges)
  {
    before := map id | id in Ids(graph.nodes) :: {};
    var i := 0;
    while i < |graph.edges|
      invariant 0 <= i <= |graph.edges|
      invariant before.Keys == Ids(graph.nodes)
      invariant forall id, p :: id in before ==> (p in before[id] <==> (p, id) in graph.edges[..i])
    {
      var (src, dst) := graph.edges[i];
      assert graph.edges[i] in graph.edges;
      assert graph.edges[..i + 1] == graph.edges[..i] + [graph.edges[i]];
      before := before[dst := before[dst] + {src}];
      i := i + 1;
    }
    assert graph.edges[..|graph.edges|] == graph.edges;
  }

  predicate AllSettled(before: set<string>, statuses: Statuses) {
    forall p :: p in before ==> p in statuses && Settled(statuses[p])
  }

  lemma AllSettledMeans(graph: Graph, before: map<string, set<string>>, statuses: Statuses, id: string)
    requires id in before
    requires forall p :: p in before[id] <==> (p, id) in graph.edges
    ensures AllSettled(before[id], statuses) <==> PredecessorsSettled(graph.edges, statuses, id)
  {
    if PredecessorsSettled(graph.edges, statuses, id) {
      forall p | p in before[id] ensures p in statuses && Settled(statuses[p]) {
        assert (p, id) in graph.edges;
      }
    }
    if AllSettled(before[id], statuses) {
      forall e | e in graph.edges && e.1 == id ensures e.0 in statuses && Settled(statuses[e.0]) {
        assert e == (e.0, id);
      }
    }
  }

  /** The pending nodes, of approval kind or not, whose predecessors are all completed or skipped. */
  method ReadyOfKind(graph: Graph, statuses: Statuses, approvals: bool) returns (ready: set<string>)
    requires EdgesWithin(graph)
    ensures forall id :: id in ready <==>
      exists n :: n in graph.nodes && n.id == id && n.kind.Approval? == approvals && IsReady(graph.edges, statuses, id)
  {
    var before := Predecessors(graph);
    ready := {};
    var i := 0;
    while i < |graph.nodes|
      invariant 0 <= i <= |graph.nodes|
      invariant forall id :: id in ready <==>
        exists k :: 0 <= k < i && graph.nodes[k].id == id && graph.nodes[k].kind.Approval? == approvals
                    && IsReady(graph.edges, statuses, id)
    {
      var node := graph.nodes[i];
      assert node.id in Ids(graph.nodes);
      AllSettledMeans(graph, before, statuses, node.id);
      if node.kind.Approval? == approvals
        && StatusOf(statuses, node.id).Pending? && AllSettled(before[node.id], statuses)
      {
        ready := ready + {node.id};
      }
      i := i + 1;
    }
  }

  /** `WorkStore.ready_node_ids`: the calculation of readiness.py plus the approval-kind nodes. */
  method ReadyNodeIds(graph: Graph, statuses: Statuses) returns (ready: seq<string>)
    requires EdgesWithin(graph)
    ensures forall id :: id in ready <==> id in Ids(graph.nodes) && IsReady(graph.edges, statuses, id)
    ensures Ascending(ready)
  {
    var tasks := ReadyOfKind(graph, statuses, false);
    var approvals := ReadyOfKind(graph, statuses, true);
    ready := SortedTexts(tasks + approvals);
  }

  /** On an acyclic graph whose nodes are all pending, completed or skipped, with one pending at least,
      some node is ready: the pending node finished last by the compiler's search. */
  lemma AcyclicMakesProgress(graph: Graph, statuses: Statuses, order: seq<string>)
    requires FinishOrder(Ids(graph.nodes), graph.edges, order) && EdgesWithin(graph)
    requires statuses.Keys == Ids(graph.nodes)
    requires forall id :: id in statuses ==> statuses[id].Pending? || Settled(statuses[id])
    requires exists id :: id in statuses && statuses[id].Pending?
    ensures exists id :: id in Ids(graph.nodes) && IsReady(graph.edges, statuses, id)
  {
    var some :| some in statuses && statuses[some].Pending?;
    var start :| 0 <= start < |order| && order[start] == some;
    var k := LastPending(order, statuses, start);
    forall e | e in graph.edges && e.1 == order[k] ensures e.0 in statuses && Settled(statuses[e.0]) {
      var j :| 0 <= j < |order| && order[j] == e.0;
      assert TargetsFirst(graph.edges, order, j) && (order[j], e.1) in graph.edges;
      assert order[k] in order[..j];
      assert k < j;
    }
    assert order[k] in order;
    assert IsReady(graph.edges, statuses, order[k]);
  }

  lemma {:induction false} LastPending(order: seq<string>, statuses: Statuses, start: nat) returns (k: nat)
    requires start < |order| && (forall id :: id in order ==> id in statuses) && statuses[order[start]].Pending?
    ensures start <= k < |order| && statuses[order[k]].Pending?
    ensures forall j :: k < j < |order| ==> !statuses[order[j]].Pending?
    decreases |order| - start
  {
    if j :| start < j < |order| && statuses[order[j]].Pending? {
      k := LastPending(order, statuses, j);
    } else {
      k := start;
    }
  }
}
