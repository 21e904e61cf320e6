/** The run-time rules of a project as a state machine: what the supervisor
    (execution/supervisor.py), the work store (work/store.py), the approval service
    (policy/approval_service.py), a crash and a replay may each do next.

    Every act that writes appends an event; an act that `dies` appended it but never
    folded it.  `full` is what a replay of the log would rebuild; `live` is what the
    tables hold. */
module Governance {
  import opened Common
  import opened Projections
  import opened Readiness
  import Compiler
  import Ledger

  /** What one pass of the run loop knows: volatile, lost with the process. */
  datatype Cycle = Cycle(
    ready: set<string>,       // the latest readiness calculation
    cleared: set<string>,     // approval_required nodes whose approval was checked
    reviewed: set<string>,    // nodes an independent review passed
    called: set<string>,      // nodes whose adapter was called
    delivered: set<string>,   // nodes whose call returned the outputs and evidence they declare
    armed: Option<string>)    // the node whose attempt row was just written

  const NO_CYCLE := Cycle({}, {}, {}, {}, {}, None)

  datatype Machine = Machine(
    log: seq<Event>, lost: set<nat>, live: Tables, full: Tables, cycle: Cycle, calls: map<string, nat>)

  const INITIAL := Machine([], {}, EMPTY, EMPTY, NO_CYCLE, map[])

  datatype Write =
    | CreateGraph(graph: GraphSpec)
    | SetGraphStatus(graphId: string, graphStatus: GraphStatus)
    | Unblock(n: string)
    | Project(n: string, approvalId: string)       // an approval decision onto its approval-kind node
    | Block(n: string)
    | Complete(n: string)
    | Fail(n: string)
    | StartAttempt(attempt: AttemptRecord)
    | FinishAttempt(attempt: AttemptRecord)
    | RecordOutput(n: string, output: string)
    | Request(request: ApprovalRequest)
    | DecideHuman(decision: ApprovalDecision)
    | MakeStale(approvalId: string, current: Scope)

  datatype Act =
    | Writing(write: Write, timestamp: string, dies: bool)
    | CalculateReady(graphId: string)
    | ClearTask(n: string, approvalId: string)
    | PassReview(n: string)
    | Call(n: string)
    | Deliver(n: string, outputs: set<string>, evidence: bool)
    | Abort    // an exception leaves the run, the run returns, or the process is killed
    | Replay   // the tables are rebuilt from the log

  // ----- vocabulary

  function NodeStatusFor(s: ApprovalStatus): NodeStatus {
    match s
    case Approved => NodeStatus.Completed
    case Pending => NodeStatus.Pending
    case Deferred => NodeStatus.Pending
    case Stale => NodeStatus.Pending
    case Rejected => NodeStatus.Failed
    case Revise => NodeStatus.Blocked
  }

  function Budget(node: WorkNode): nat {
    if node.maxAttempts < 1 then 1 else node.maxAttempts
  }

  type Nodes = map<string, NodeRow>
  type Attempts = map<string, AttemptRow>

  function AttemptsOf(attempts: Attempts, n: string): set<string> {
    set a | a in attempts && attempts[a].nodeId == n
  }

  function Rows(attempts: Attempts, n: string): nat {
    |AttemptsOf(attempts, n)|
  }

  function CallsOf(calls: map<string, nat>, n: string): nat {
    if n in calls then calls[n] else 0
  }

  predicate Governs(t: Tables, node: WorkNode, approvalId: string) {
    approvalId in t.approvals
    && t.approvals[approvalId].graphId == Some(node.graphId) && t.approvals[approvalId].nodeId == Some(node.id)
  }

  /** A row of maximal request time among those of the node. */
  predicate Latest(t: Tables, node: WorkNode, approvalId: string) {
    Governs(t, node, approvalId) &&
    forall other :: other in t.approvals && Governs(t, node, other)
      ==> TextLeq(t.approvals[other].requestedAt, t.approvals[approvalId].requestedAt)
  }

  predicate OfKindTask(nodes: Nodes, n: string) {
    n in nodes && !nodes[n].node.kind.Approval?
  }

  predicate SettledIn(nodes: Nodes, n: string) {
    n in nodes && Settled(nodes[n].status)
  }

  predicate ReadyIn(t: WorkTables, graphId: string, n: string) {
    n in t.nodes && t.nodes[n].node.graphId == graphId && t.nodes[n].status.Pending?
    && forall e :: e in t.edges && e.graphId == graphId && e.dst == n ==> SettledIn(t.nodes, e.src)
  }

  function ReadySet(t: WorkTables, graphId: string): set<string> {
    set n | n in t.nodes && ReadyIn(t, graphId, n)
  }

  /** Found ready by the latest calculation, and not completed or skipped since. */
  predicate Dispatched(m: Machine, n: string) {
    n in m.cycle.ready && n in m.live.work.nodes && !SettledIn(m.live.work.nodes, n)
  }

  /** What the compiler's checks leave of a graph: distinct nodes of the graph's own, and edges between them. */
  predicate WellFormedGraph(g: GraphSpec) {
    && (forall i, j :: 0 <= i < j < |g.nodes| ==> g.nodes[i].id != g.nodes[j].id)
    && (forall n :: n in g.nodes ==> n.graphId == g.id)
    && (forall e :: e in g.edges ==> e.0 in Compiler.Ids(g.nodes) && e.1 in Compiler.Ids(g.nodes))
  }

  // ----- what may happen next

  ghost predicate WriteEnabled(m: Machine, w: Write) {
    var t := m.live;
    match w
    case CreateGraph(g) => WellFormedGraph(g)
    case SetGraphStatus(id, _) => id in t.work.graphs
    case Unblock(n) => OfKindTask(t.work.nodes, n) && t.work.nodes[n].status.Blocked?
    case Project(n, a) =>
      && n in t.work.nodes && t.work.nodes[n].node.kind.Approval? && Latest(t, t.work.nodes[n].node, a)
      && (t.approvals[a].scope == t.work.nodes[n].node.scope || t.approvals[a].status.Stale?)
    case Block(n) => Dispatched(m, n)
    case Complete(n) =>
      && Dispatched(m, n) && OfKindTask(t.work.nodes, n)
      && (t.work.nodes[n].node.approvalRequired ==> n in m.cycle.cleared)
      && (t.work.nodes[n].node.independentReview ==> n in m.cycle.reviewed)
      && (t.work.nodes[n].node.needs != [] ==> n in m.cycle.delivered)
    case Fail(n) => Dispatched(m, n) && OfKindTask(t.work.nodes, n)
    case StartAttempt(a) =>
      && Dispatched(m, a.nodeId) && OfKindTask(t.work.nodes, a.nodeId)
      && a.id !in m.full.work.attempts && a.state == "running"
      && Rows(t.work.attempts, a.nodeId) < Budget(t.work.nodes[a.nodeId].node)
    case FinishAttempt(a) => a.id in t.work.attempts && a.nodeId == t.work.attempts[a.id].nodeId
    case RecordOutput(n, _) => n in t.work.nodes
    case Request(r) => r.row.status.Pending?
    case DecideHuman(d) =>
      d.id in t.approvals && d.actor == "human" && !d.decision.Pending? && !d.decision.Stale?
    case MakeStale(a, current) => a in t.approvals && t.approvals[a].scope != current
  }

  ghost predicate Enabled(m: Machine, a: Act) {
    match a
    case Writing(w, _, _) => WriteEnabled(m, w)
    case CalculateReady(_) => true
    case ClearTask(n, id) =>
      && OfKindTask(m.live.work.nodes, n) && Latest(m.live, m.live.work.nodes[n].node, id)
      && m.live.approvals[id].scope == m.live.work.nodes[n].node.scope && m.live.approvals[id].status.Approved?
    case PassReview(n) =>
      n in m.live.work.nodes &&
      var node := m.live.work.nodes[n].node;
      node.needs != [] && node.reviewer.Some? && node.reviewer.value != node.needs[0]
    case Call(n) => m.cycle.armed == Some(n)
    case Deliver(n, outputs, evidence) =>
      n in m.cycle.called && n in m.live.work.nodes &&
      var node := m.live.work.nodes[n].node;
      (forall o :: o in node.expectedOutputs ==> o in outputs) && (node.evidenceRequired ==> evidence)
    case Abort => true
    case Replay => true
  }

  /** What a write does to the work tables; nothing when it concerns an approval. */
  function WorkEventOf(t: Tables, w: Write): Option<WorkEvent> {
    match w
    case CreateGraph(g) => Some(RunCreated(Some(g)))
    case SetGraphStatus(id, s) => Some(RunMoved(Some(id), Some(s), None))
    case Unblock(n) => Some(StepMoved(Some(n), Some(NodeStatus.Pending), None))
    case Project(n, a) =>
      Some(StepMoved(Some(n), if a in t.approvals then Some(NodeStatusFor(t.approvals[a].status)) else None, None))
    case Block(n) => Some(StepMoved(Some(n), Some(NodeStatus.Blocked), None))
    case Complete(n) => Some(StepMoved(Some(n), Some(NodeStatus.Completed), None))
    case Fail(n) => Some(StepMoved(Some(n), Some(NodeStatus.Failed), None))
    case StartAttempt(a) => Some(AttemptMoved(Some(a)))
    case FinishAttempt(a) => Some(AttemptMoved(Some(a)))
    case RecordOutput(n, o) => Some(StepMoved(Some(n), None, Some(o)))
    case _ => None
  }

  function ApprovalEventOf(w: Write): ApprovalEvent {
    match w
    case Request(r) => Requested(Some(r))
    case DecideHuman(d) => Decided(Some(d))
    case MakeStale(a, _) => Staled(Some(a))
    case _ => Staled(None)
  }

  function ContentOf(t: Tables, w: Write): Content {
    var work := WorkEventOf(t, w);
    if work.Some? then OfWork(work.value) else OfApproval(ApprovalEventOf(w))
  }

  function Emit(m: Machine, e: Event, dies: bool): Machine {
    m.(log := m.log + [e], full := Apply(m.full, e),
       live := if dies then m.live else Apply(m.live, e),
       lost := if dies then m.lost + {|m.log|} else m.lost)
  }

  function Do(m: Machine, a: Act): Machine {
    match a
    case Writing(w, at, dies) =>
      var written := Emit(m, Event(at, ContentOf(m.live, w)), dies);
      if w.StartAttempt? && !dies then written.(cycle := m.cycle.(armed := Some(w.attempt.nodeId)))
      else written
    case CalculateReady(g) => m.(cycle := NO_CYCLE.(ready := ReadySet(m.live.work, g)))
    case ClearTask(n, _) => m.(cycle := m.cycle.(cleared := m.cycle.cleared + {n}))
    case PassReview(n) => m.(cycle := m.cycle.(reviewed := m.cycle.reviewed + {n}))
    case Call(n) =>
      m.(cycle := m.cycle.(armed := None, called := m.cycle.called + {n}),
        calls := m.calls[n := CallsOf(m.calls, n) + 1])
    case Deliver(n, _, _) => m.(cycle := m.cycle.(delivered := m.cycle.delivered + {n}))
    case Abort => m.(cycle := NO_CYCLE)
    case Replay => m.(live := m.full, lost := {}, cycle := NO_CYCLE)
  }

  // ----- what every reachable state satisfies

  ghost predicate Folded(m: Machine) {
    && (forall i :: i in m.lost ==> i < |m.log|)
    && m.live == FoldExcept(m.log, m.lost) && m.full == Fold(m.log)
  }

  /** The live graphs are parts of those a replay would rebuild.  An edge between tasks that a replay would bring in
      changes nothing for a live target: its source is settled, or the live edges lead to the target anyway. */
  ghost predicate Shape(live: Nodes, liveEdges: set<EdgeRow>, full: Nodes, fullEdges: set<EdgeRow>) {
    && Covers(full, live)
    && liveEdges <= fullEdges
    && (forall e :: e in liveEdges ==> e.src in live && e.dst in live)
    && (forall e :: e in fullEdges ==> Within(full, e))
    && (forall e :: e in fullEdges && OfKindTask(full, e.src) && OfKindTask(live, e.dst) ==>
          Guarded(live, liveEdges, e))
  }

  /** Every live node is in the log as it is, and those a replay would bring in are pending. */
  ghost predicate Covers(full: Nodes, live: Nodes) {
    && (forall n :: n in live ==> n in full && full[n].node == live[n].node)
    && (forall n :: n in full ==> full[n].node.id == n)
    && (forall n :: n in full && n !in live ==> full[n].status.Pending?)
  }

  /** A path of tasks along the edges of one graph. */
  ghost predicate TaskPath(nodes: Nodes, edges: set<EdgeRow>, graphId: string, p: seq<string>) {
    && (forall i :: 0 <= i < |p| ==> OfKindTask(nodes, p[i]))
    && (forall i :: 0 <= i < |p| - 1 ==> Hop(edges, graphId, p, i))
  }

  predicate Hop(edges: set<EdgeRow>, graphId: string, p: seq<string>, i: nat)
    requires i < |p| - 1
  {
    EdgeRow(graphId, p[i], p[i + 1]) in edges
  }

  /** The edges lead from the edge's source to its target through tasks alone. */
  ghost predicate Implied(nodes: Nodes, edges: set<EdgeRow>, e: EdgeRow) {
    exists p :: |p| >= 2 && p[0] == e.src && p[|p| - 1] == e.dst && TaskPath(nodes, edges, e.graphId, p)
  }

  ghost predicate Guarded(nodes: Nodes, edges: set<EdgeRow>, e: EdgeRow) {
    SettledIn(nodes, e.src) || Implied(nodes, edges, e)
  }

  predicate Within(nodes: Nodes, e: EdgeRow) {
    e.src in nodes && e.dst in nodes && nodes[e.src].node.graphId == e.graphId && nodes[e.dst].node.graphId == e.graphId
  }

  /** Order, for the live nodes and for those a replay would rebuild. */
  ghost predicate InOrder(live: Nodes, full: Nodes, fullEdges: set<EdgeRow>) {
    && (forall e :: e in fullEdges && Binds(full, e) ==> SettledIn(live, e.src))
    && SettledAlike(live, full)
  }

  /** A settled task is completed, in the log as well if it is live. */
  ghost predicate SettledAlike(live: Nodes, full: Nodes) {
    && (forall n :: OfKindTask(live, n) && SettledIn(live, n) ==> n in full && full[n].status == live[n].status)
    && (forall n :: OfKindTask(full, n) && SettledIn(full, n) ==> full[n].status.Completed?)
  }

  /** An edge between non-approval nodes whose target is completed. */
  predicate Binds(nodes: Nodes, e: EdgeRow) {
    OfKindTask(nodes, e.src) && OfKindTask(nodes, e.dst) && nodes[e.dst].status.Completed?
  }

  ghost predicate ReadySound(live: Nodes, liveEdges: set<EdgeRow>, ready: set<string>) {
    && ready <= live.Keys
    && (forall e :: e in liveEdges && e.dst in ready && OfKindTask(live, e.src) ==> SettledIn(live, e.src))
  }

  ghost predicate AttemptsKept(live: Attempts, full: Attempts) {
    forall a :: a in live ==> a in full && full[a].nodeId == live[a].nodeId
  }

  ghost predicate WithinBudget(nodes: Nodes, attempts: Attempts, calls: map<string, nat>, armed: Option<string>) {
    && (forall n :: n in calls ==> n in nodes && calls[n] <= Rows(attempts, n) && calls[n] <= Budget(nodes[n].node))
    && (armed.Some? ==>
          var n := armed.value;
          n in nodes && CallsOf(calls, n) < Rows(attempts, n) <= Budget(nodes[n].node))
  }

  ghost predicate Board(live: Nodes, liveEdges: set<EdgeRow>, full: Nodes, fullEdges: set<EdgeRow>,
                        ready: set<string>)
  {
    && Shape(live, liveEdges, full, fullEdges)
    && InOrder(live, full, fullEdges)
    && ReadySound(live, liveEdges, ready)
  }

  ghost predicate Inv(m: Machine) {
    Folded(m) && Rules(m)
  }

  ghost predicate Rules(m: Machine) {
    && Board(m.live.work.nodes, m.live.work.edges, m.full.work.nodes, m.full.work.edges, m.cycle.ready)
    && AttemptsKept(m.live.work.attempts, m.full.work.attempts)
    && WithinBudget(m.live.work.nodes, m.live.work.attempts, m.calls, m.cycle.armed)
  }

  lemma InvInitial()
    ensures Inv(INITIAL)
  {
  }

  lemma EmitFolds(m: Machine, e: Event, dies: bool)
    requires Folded(m)
    ensures Folded(Emit(m, e, dies))
  {
    Ledger.LedgerStep(m.log, m.lost, e, dies);
    assert (m.log + [e])[..|m.log|] == m.log;
    if !dies { assert m.lost + {} == m.lost; }
  }

  /** Writes that leave nodes, edges and attempts alone. */
  lemma AsideKeepsRules(m: Machine, e: Event, dies: bool)
    requires Rules(m)
    requires e.content.OfApproval? || (e.content.OfWork? && e.content.work.RunMoved?)
    ensures Rules(Emit(m, e, dies))
  {
    hide Board, WithinBudget, AttemptsKept, ApplyApproval;
    var after := Emit(m, e, dies);
    assert after.live.work.nodes == m.live.work.nodes && after.live.work.edges == m.live.work.edges
      && after.live.work.attempts == m.live.work.attempts;
    assert after.full.work.nodes == m.full.work.nodes && after.full.work.edges == m.full.work.edges
      && after.full.work.attempts == m.full.work.attempts;
  }

  /** `b` is `a` but for the status, output and version of node `n`. */
  ghost predicate Restatused(a: Nodes, b: Nodes, n: string, status: NodeStatus) {
    && n in a && a.Keys == b.Keys
    && (forall k :: k in a && k != n ==> b[k] == a[k])
    && b[n].node == a[n].node && b[n].status == status
  }

  /** A node event: `to` absent when only an output is recorded. */
  lemma StepKeepsRules(m: Machine, n: string, to: Option<NodeStatus>, output: Option<string>, at: string, dies: bool)
    requires Rules(m) && n in m.live.work.nodes
    requires to.Some? && OfKindTask(m.live.work.nodes, n) ==>
      !SettledIn(m.live.work.nodes, n) && (Settled(to.value) ==> to.value.Completed? && n in m.cycle.ready)
    ensures Rules(Emit(m, Event(at, OfWork(StepMoved(Some(n), to, output))), dies))
  {
    hide Board, WithinBudget, AttemptsKept, OfKindTask, SettledIn, MoveNode;
    var after := Emit(m, Event(at, OfWork(StepMoved(Some(n), to, output))), dies);
    LiveInFull(m, n);
    MoveNodeEffect(m.full.work, n, to, output);
    MoveNodeEffect(m.live.work, n, to, output);
    assert after.full.work == MoveNode(m.full.work, n, to, output);
    assert after.live.work == if dies then m.live.work else MoveNode(m.live.work, n, to, output);
    assert dies ==> Restatused(m.live.work.nodes, after.live.work.nodes, n, m.live.work.nodes[n].status);
    assert forall k :: k in m.live.work.nodes ==> after.live.work.nodes[k].node == m.live.work.nodes[k].node;
    StepKeepsBoard(m.live.work.nodes, m.live.work.edges, m.full.work.nodes, m.full.work.edges, m.cycle.ready,
                   after.live.work.nodes, after.full.work.nodes, n, to);
    BudgetStays(m.live.work.nodes, after.live.work.nodes, m.live.work.attempts, m.calls, m.cycle.armed);
  }

  lemma LiveInFull(m: Machine, n: string)
    requires Rules(m) && n in m.live.work.nodes
    ensures n in m.full.work.nodes
  {
  }

  lemma MoveNodeEffect(t: WorkTables, n: string, to: Option<NodeStatus>, output: Option<string>)
    requires n in t.nodes
    ensures var u := MoveNode(t, n, to, output);
      u.edges == t.edges && u.attempts == t.attempts && Restatused(t.nodes, u.nodes, n, Or(to, t.nodes[n].status))
  {
  }

  lemma BudgetStays(a: Nodes, b: Nodes, attempts: Attempts, calls: map<string, nat>, armed: Option<string>)
    requires forall k :: k in a ==> k in b && b[k].node == a[k].node
    requires WithinBudget(a, attempts, calls, armed)
    ensures WithinBudget(b, attempts, calls, armed)
  {
  }

  lemma StepKeepsBoard(live: Nodes, liveEdges: set<EdgeRow>, full: Nodes, fullEdges: set<EdgeRow>, ready: set<string>,
                       live': Nodes, full': Nodes, n: string, to: Option<NodeStatus>)
    requires Board(live, liveEdges, full, fullEdges, ready) && n in live
    requires to.Some? && OfKindTask(live, n) ==>
      !SettledIn(live, n) && (Settled(to.value) ==> to.value.Completed? && n in ready)
    requires n in full && Restatused(full, full', n, Or(to, full[n].status))
    requires Restatused(live, live', n, live[n].status) || Restatused(live, live', n, Or(to, live[n].status))
    ensures Board(live', liveEdges, full', fullEdges, ready)
  {
    StepKeepsShape(live, liveEdges, full, fullEdges, live', full', n);
    hide Shape, Guarded;
    StepKeepsOrder(live, liveEdges, full, fullEdges, ready, live', full', n, to);
    hide InOrder;
    forall e | e in liveEdges && e.dst in ready && OfKindTask(live', e.src) ensures SettledIn(live', e.src) {
      assert SettledIn(live, e.src);
    }
  }

  lemma StepKeepsShape(live: Nodes, liveEdges: set<EdgeRow>, full: Nodes, fullEdges: set<EdgeRow>,
                       live': Nodes, full': Nodes, n: string)
    requires Shape(live, liveEdges, full, fullEdges) && n in live && n in full
    requires exists s :: Restatused(full, full', n, s)
    requires exists s :: Restatused(live, live', n, s)
    requires OfKindTask(live, n) && SettledIn(live, n) ==> live'[n].status == live[n].status
    ensures Shape(live', liveEdges, full', fullEdges)
  {
    forall e | e in fullEdges ensures Within(full', e) {
      assert Within(full, e);
    }
    forall e | e in fullEdges && OfKindTask(full', e.src) && OfKindTask(live', e.dst)
      ensures Guarded(live', liveEdges, e)
    {
      assert Guarded(live, liveEdges, e);
      if Implied(live, liveEdges, e) { ImpliedGrows(live, liveEdges, live', liveEdges, e); }
    }
  }

  lemma ImpliedGrows(a: Nodes, edges: set<EdgeRow>, b: Nodes, more: set<EdgeRow>, e: EdgeRow)
    requires Implied(a, edges, e) && edges <= more
    requires forall n :: OfKindTask(a, n) ==> OfKindTask(b, n)
    ensures Implied(b, more, e)
  {
    var p :| |p| >= 2 && p[0] == e.src && p[|p| - 1] == e.dst && TaskPath(a, edges, e.graphId, p);
    assert forall i :: 0 <= i < |p| - 1 ==> Hop(edges, e.graphId, p, i) && Hop(more, e.graphId, p, i);
    assert TaskPath(b, more, e.graphId, p);
  }

  lemma StepKeepsOrder(live: Nodes, liveEdges: set<EdgeRow>, full: Nodes, fullEdges: set<EdgeRow>, ready: set<string>,
                       live': Nodes, full': Nodes, n: string, to: Option<NodeStatus>)
    requires Board(live, liveEdges, full, fullEdges, ready) && n in live && n in full
    requires to.Some? && OfKindTask(live, n) ==>
      !SettledIn(live, n) && (Settled(to.value) ==> to.value.Completed? && n in ready)
    requires Restatused(full, full', n, Or(to, full[n].status))
    requires Restatused(live, live', n, live[n].status) || Restatused(live, live', n, Or(to, live[n].status))
    ensures InOrder(live', full', fullEdges)
  {
    forall e | e in fullEdges && Binds(full', e) ensures SettledIn(live', e.src) {
      if e.dst == n && to.Some? {
        ReadyTargetSettles(live, liveEdges, full, fullEdges, ready, e);
      } else {
        assert Binds(full, e);
      }
      assert SettledIn(live, e.src);
    }
  }

  /** Whatever the live edges imply of a node found ready is settled. */
  lemma ReadyTargetSettles(live: Nodes, liveEdges: set<EdgeRow>, full: Nodes, fullEdges: set<EdgeRow>,
                           ready: set<string>, e: EdgeRow)
    requires Board(live, liveEdges, full, fullEdges, ready) && e in fullEdges
    requires OfKindTask(full, e.src) && OfKindTask(live, e.dst) && e.dst in ready
    ensures SettledIn(live, e.src)
  {
    assert Guarded(live, liveEdges, e);
    if Implied(live, liveEdges, e) {
      var p :| |p| >= 2 && p[0] == e.src && p[|p| - 1] == e.dst && TaskPath(live, liveEdges, e.graphId, p);
      assert Hop(liveEdges, e.graphId, p, |p| - 2);
      PathSettles(live, liveEdges, full, fullEdges, e.graphId, p, |p| - 2);
    }
  }

  /** Along a live path of tasks everything before a settled one is settled. */
  lemma {:induction false} PathSettles(live: Nodes, liveEdges: set<EdgeRow>, full: Nodes, fullEdges: set<EdgeRow>,
                                       graphId: string, p: seq<string>, k: nat)
    requires Shape(live, liveEdges, full, fullEdges) && InOrder(live, full, fullEdges)
    requires k < |p| && TaskPath(live, liveEdges, graphId, p) && SettledIn(live, p[k])
    ensures SettledIn(live, p[0])
    decreases k
  {
    if k > 0 {
      assert Hop(liveEdges, graphId, p, k - 1) && OfKindTask(live, p[k - 1]) && OfKindTask(live, p[k]);
      assert Binds(full, EdgeRow(graphId, p[k - 1], p[k]));
      PathSettles(live, liveEdges, full, fullEdges, graphId, p, k - 1);
    }
  }

  lemma {:induction false} PutNodesEffect(m: Nodes, nodes: seq<WorkNode>, graphId: string)
    requires forall i, j :: 0 <= i < j < |nodes| ==> nodes[i].id != nodes[j].id
    requires forall n :: n in nodes ==> n.graphId == graphId
    ensures var r := PutNodes(m, nodes, graphId);
      && r.Keys == m.Keys + Compiler.Ids(nodes)
      && (forall n :: n in nodes ==> n.id in r && r[n.id] == NodeRow(n, NodeStatus.Pending, None, 0))
      && (forall k :: k in m && k !in Compiler.Ids(nodes) ==> r[k] == m[k])
    decreases |nodes|
  {
    if nodes != [] {
      var first, rest := nodes[0], nodes[1..];
      var m' := m[first.id := NodeRow(first, NodeStatus.Pending, None, 0)];
      assert first.(graphId := graphId) == first;
      PutNodesEffect(m', rest, graphId);
      FirstId(nodes);
    }
  }

  lemma FirstId(nodes: seq<WorkNode>)
    requires nodes != [] && forall i, j :: 0 <= i < j < |nodes| ==> nodes[i].id != nodes[j].id
    ensures Compiler.Ids(nodes) == {nodes[0].id} + Compiler.Ids(nodes[1..]) && nodes[0].id !in Compiler.Ids(nodes[1..])
    ensures forall n :: n in nodes <==> n == nodes[0] || n in nodes[1..]
  {
    assert nodes == [nodes[0]] + nodes[1..];
  }

  // ----- planning a graph, for the first time or again

  /** `b` is `a` with the nodes of a graph, new ones and known ones, all pending. */
  ghost predicate Planted(a: Nodes, b: Nodes, g: GraphSpec) {
    && b.Keys == a.Keys + Compiler.Ids(g.nodes)
    && (forall k :: k in a && k !in Compiler.Ids(g.nodes) ==> b[k] == a[k])
    && (forall n :: n in g.nodes ==> n.id in b && b[n.id].node == n && b[n.id].status.Pending?)
  }

  lemma PutNodesPlants(nodes: Nodes, g: GraphSpec)
    requires WellFormedGraph(g)
    ensures Planted(nodes, PutNodes(nodes, g.nodes, g.id), g)
  {
    PutNodesEffect(nodes, g.nodes, g.id);
  }

  /** What the live tables hold of the graph already is in the plan, unchanged, and has not begun. */
  ghost predicate Known(live: Nodes, g: GraphSpec) {
    forall n :: n in live && (n in Compiler.Ids(g.nodes) || live[n].node.graphId == g.id) ==>
      live[n].node in g.nodes && live[n].status.Pending?
  }

  /** Every edge in the log at a node of the graph is one of the graph's. */
  predicate Owns(fullEdges: set<EdgeRow>, g: GraphSpec) {
    forall e :: e in fullEdges && (e.src in Compiler.Ids(g.nodes) || e.dst in Compiler.Ids(g.nodes)) ==>
      e.graphId == g.id
  }

  /** Every edge between tasks that the log holds into the plan, or will hold once it is planned, follows from the
      edges that will be live. */
  ghost predicate NoneLoose(live: Nodes, liveEdges: set<EdgeRow>, full: Nodes, fullEdges: set<EdgeRow>, g: GraphSpec) {
    forall e :: e in fullEdges && e.dst in Compiler.Ids(g.nodes) && OfKindTask(full, e.src) && OfKindTask(live, e.dst)
      ==> Implied(live, liveEdges, e)
  }

  /** The condition under which planning `g` keeps the rules. */
  ghost predicate Orderly(m: Machine, g: GraphSpec, dies: bool) {
    var rows := EdgeRows(g.id, g.edges);
    && Known(m.live.work.nodes, g) && Owns(m.full.work.edges, g) && Compiler.Ids(g.nodes) !! m.cycle.ready
    && NoneLoose(if dies then m.live.work.nodes else PutNodes(m.live.work.nodes, g.nodes, g.id),
                 if dies then m.live.work.edges else m.live.work.edges + rows,
                 PutNodes(m.full.work.nodes, g.nodes, g.id), m.full.work.edges + rows, g)
  }

  lemma CreateKeepsRules(m: Machine, g: GraphSpec, at: string, dies: bool)
    requires Rules(m) && WellFormedGraph(g) && Orderly(m, g, dies)
    ensures Rules(Emit(m, Event(at, OfWork(RunCreated(Some(g)))), dies))
  {
    var e := Event(at, OfWork(RunCreated(Some(g))));
    var after := Emit(m, e, dies);
    CreationPlans(m, g, at, dies);
    hide Rules, Emit, Plans, NoneLoose, Known, Owns;
    RulesPlanned(m, after, g);
  }

  /** Creating the graph plans it, in the log and unless the writer dies in the live tables. */
  lemma CreationPlans(m: Machine, g: GraphSpec, at: string, dies: bool)
    requires WellFormedGraph(g) && Orderly(m, g, dies)
    ensures var after := Emit(m, Event(at, OfWork(RunCreated(Some(g)))), dies);
      && Plans(m.live.work.nodes, m.live.work.edges, m.full.work.nodes, m.full.work.edges, after.live.work.nodes,
               after.live.work.edges, after.full.work.nodes, after.full.work.edges, g)
      && after.live.work.attempts == m.live.work.attempts && after.full.work.attempts == m.full.work.attempts
      && after.calls == m.calls && after.cycle == m.cycle
  {
    hide PutNodes, WellFormedGraph, NoneLoose, Owns, Known, Planted;
    PutNodesPlants(m.live.work.nodes, g);
    PutNodesPlants(m.full.work.nodes, g);
  }

  lemma RulesPlanned(m: Machine, after: Machine, g: GraphSpec)
    requires Rules(m) && Compiler.Ids(g.nodes) !! m.cycle.ready
    requires Plans(m.live.work.nodes, m.live.work.edges, m.full.work.nodes, m.full.work.edges, after.live.work.nodes,
                   after.live.work.edges, after.full.work.nodes, after.full.work.edges, g)
    requires after.live.work.attempts == m.live.work.attempts && after.full.work.attempts == m.full.work.attempts
    requires after.calls == m.calls && after.cycle == m.cycle
    ensures Rules(after)
  {
    PlantedLive(m, after, g);
    hide Board, WithinBudget, AttemptsKept, Plans;
    CreateKeepsBoard(m.live.work.nodes, m.live.work.edges, m.full.work.nodes, m.full.work.edges, m.cycle.ready,
                     after.live.work.nodes, after.live.work.edges, after.full.work.nodes, after.full.work.edges, g);
    BudgetStays(m.live.work.nodes, after.live.work.nodes, m.live.work.attempts, m.calls, m.cycle.armed);
  }

  lemma PlantedLive(m: Machine, after: Machine, g: GraphSpec)
    requires Rules(m)
    requires Plans(m.live.work.nodes, m.live.work.edges, m.full.work.nodes, m.full.work.edges, after.live.work.nodes,
                   after.live.work.edges, after.full.work.nodes, after.full.work.edges, g)
    ensures forall k :: k in m.live.work.nodes ==>
      k in after.live.work.nodes && after.live.work.nodes[k].node == m.live.work.nodes[k].node
  {
    hide InOrder, ReadySound, NoneLoose, WithinBudget, AttemptsKept;
    PlantedKeepsKnown(m.live.work.nodes, after.live.work.nodes, g);
  }

  /** A node the plan knew is in the plan as it was. */
  lemma PlantedKeepsKnown(live: Nodes, live': Nodes, g: GraphSpec)
    requires Known(live, g) && (live' == live || Planted(live, live', g))
    requires forall n :: n in live ==> live[n].node.id == n
    ensures forall k :: k in live ==> k in live' && live'[k].node == live[k].node && live'[k].status == live[k].status
  {
  }

  /** What planning does to the node rows and edges, live and in the log. */
  ghost predicate Plans(live: Nodes, liveEdges: set<EdgeRow>, full: Nodes, fullEdges: set<EdgeRow>,
                        live': Nodes, liveEdges': set<EdgeRow>, full': Nodes, fullEdges': set<EdgeRow>, g: GraphSpec)
  {
    && WellFormedGraph(g) && Known(live, g) && Owns(fullEdges, g)
    && Planted(full, full', g) && fullEdges' == fullEdges + EdgeRows(g.id, g.edges)
    && ((live' == live && liveEdges' == liveEdges)
        || (Planted(live, live', g) && liveEdges' == liveEdges + EdgeRows(g.id, g.edges)))
    && NoneLoose(live', liveEdges', full', fullEdges', g)
  }

  lemma CreateKeepsBoard(live: Nodes, liveEdges: set<EdgeRow>, full: Nodes, fullEdges: set<EdgeRow>, ready: set<string>,
                         live': Nodes, liveEdges': set<EdgeRow>, full': Nodes, fullEdges': set<EdgeRow>, g: GraphSpec)
    requires Board(live, liveEdges, full, fullEdges, ready) && Compiler.Ids(g.nodes) !! ready
    requires Plans(live, liveEdges, full, fullEdges, live', liveEdges', full', fullEdges', g)
    ensures Board(live', liveEdges', full', fullEdges', ready)
  {
    CreateKeepsShape(live, liveEdges, full, fullEdges, live', liveEdges', full', fullEdges', g);
    CreateKeepsOrder(live, liveEdges, full, fullEdges, live', liveEdges', full', fullEdges', g);
    CreateKeepsReady(live, liveEdges, full, fullEdges, ready, live', liveEdges', full', fullEdges', g);
    hide *;
    BoardIs(live', liveEdges', full', fullEdges', ready);
  }

  lemma BoardIs(live: Nodes, liveEdges: set<EdgeRow>, full: Nodes, fullEdges: set<EdgeRow>, ready: set<string>)
    requires Shape(live, liveEdges, full, fullEdges) && InOrder(live, full, fullEdges)
    requires ReadySound(live, liveEdges, ready)
    ensures Board(live, liveEdges, full, fullEdges, ready)
  {
    hide Shape, InOrder, ReadySound;
  }

  lemma CreateKeepsReady(live: Nodes, liveEdges: set<EdgeRow>, full: Nodes, fullEdges: set<EdgeRow>, ready: set<string>,
                         live': Nodes, liveEdges': set<EdgeRow>, full': Nodes, fullEdges': set<EdgeRow>, g: GraphSpec)
    requires Board(live, liveEdges, full, fullEdges, ready) && Compiler.Ids(g.nodes) !! ready
    requires Plans(live, liveEdges, full, fullEdges, live', liveEdges', full', fullEdges', g)
    ensures ReadySound(live', liveEdges', ready)
  {
    PlantedKeepsKnown(live, live', g);
    hide InOrder, Guarded, NoneLoose;
  }

  lemma CreateKeepsShape(live: Nodes, liveEdges: set<EdgeRow>, full: Nodes, fullEdges: set<EdgeRow>,
                         live': Nodes, liveEdges': set<EdgeRow>, full': Nodes, fullEdges': set<EdgeRow>, g: GraphSpec)
    requires Shape(live, liveEdges, full, fullEdges)
    requires Plans(live, liveEdges, full, fullEdges, live', liveEdges', full', fullEdges', g)
    ensures Shape(live', liveEdges', full', fullEdges')
  {
    hide Guarded, NoneLoose, Known, Owns, Covers, Within, Planted, OfKindTask;
    CreateKeepsCovers(live, full, live', full', g);
    forall e | e in fullEdges' ensures Within(full', e) {
      NewWithin(full, fullEdges, full', g, e);
    }
    forall e | e in fullEdges' && OfKindTask(full', e.src) && OfKindTask(live', e.dst)
      ensures Guarded(live', liveEdges', e)
    {
      NewGuard(live, liveEdges, full, fullEdges, live', liveEdges', full', fullEdges', g, e);
    }
    forall e | e in liveEdges' ensures e.src in live' && e.dst in live' {
      NewEnds(live, liveEdges, live', liveEdges', g, e);
    }
  }

  lemma CreateKeepsCovers(live: Nodes, full: Nodes, live': Nodes, full': Nodes, g: GraphSpec)
    requires Covers(full, live) && Known(live, g) && Planted(full, full', g)
    requires live' == live || Planted(live, live', g)
    ensures Covers(full', live')
  {
    PlantedKeepsKnown(live, live', g);
  }

  lemma NewWithin(full: Nodes, fullEdges: set<EdgeRow>, full': Nodes, g: GraphSpec, e: EdgeRow)
    requires WellFormedGraph(g) && Planted(full, full', g) && Owns(fullEdges, g)
    requires e in fullEdges + EdgeRows(g.id, g.edges) && (e in fullEdges ==> Within(full, e))
    ensures Within(full', e)
  {
  }

  lemma NewEnds(live: Nodes, liveEdges: set<EdgeRow>, live': Nodes, liveEdges': set<EdgeRow>, g: GraphSpec, e: EdgeRow)
    requires WellFormedGraph(g) && e in liveEdges' && (e in liveEdges ==> e.src in live && e.dst in live)
    requires (live' == live && liveEdges' == liveEdges)
          || (Planted(live, live', g) && liveEdges' == liveEdges + EdgeRows(g.id, g.edges))
    ensures e.src in live' && e.dst in live'
  {
  }

  lemma NewGuard(live: Nodes, liveEdges: set<EdgeRow>, full: Nodes, fullEdges: set<EdgeRow>,
                 live': Nodes, liveEdges': set<EdgeRow>, full': Nodes, fullEdges': set<EdgeRow>, g: GraphSpec,
                 e: EdgeRow)
    requires Shape(live, liveEdges, full, fullEdges)
    requires Plans(live, liveEdges, full, fullEdges, live', liveEdges', full', fullEdges', g)
    requires e in fullEdges' && OfKindTask(full', e.src) && OfKindTask(live', e.dst)
    ensures Guarded(live', liveEdges', e)
  {
    hide Implied;
    if e.dst !in Compiler.Ids(g.nodes) {
      OutsideStays(live, full, fullEdges, full', g, e);
      PlantedKeepsKnown(live, live', g);
      assert Guarded(live, liveEdges, e);
      if Implied(live, liveEdges, e) { ImpliedGrows(live, liveEdges, live', liveEdges', e); }
    }
  }

  lemma CreateKeepsOrder(live: Nodes, liveEdges: set<EdgeRow>, full: Nodes, fullEdges: set<EdgeRow>,
                         live': Nodes, liveEdges': set<EdgeRow>, full': Nodes, fullEdges': set<EdgeRow>, g: GraphSpec)
    requires Shape(live, liveEdges, full, fullEdges) && InOrder(live, full, fullEdges)
    requires Plans(live, liveEdges, full, fullEdges, live', liveEdges', full', fullEdges', g)
    ensures InOrder(live', full', fullEdges')
  {
    forall e | e in fullEdges' && Binds(full', e) ensures SettledIn(live', e.src) {
      NewlyBound(live, liveEdges, full, fullEdges, live', liveEdges', full', fullEdges', g, e);
    }
    hide Known, Planted, Owns, Within, Binds, NoneLoose, Guarded, Covers, SettledAlike, WellFormedGraph, SettledIn;
    CreateKeepsSettled(live, full, live', full', g);
  }

  lemma CreateKeepsSettled(live: Nodes, full: Nodes, live': Nodes, full': Nodes, g: GraphSpec)
    requires Covers(full, live) && SettledAlike(live, full) && Known(live, g) && Planted(full, full', g)
    requires live' == live || Planted(live, live', g)
    ensures SettledAlike(live', full')
  {
    PlantedKeepsKnown(live, live', g);
    forall n | OfKindTask(live', n) && SettledIn(live', n) ensures n in full' && full'[n].status == live'[n].status {
      assert n !in Compiler.Ids(g.nodes);
      assert OfKindTask(live, n) && SettledIn(live, n);
    }
    forall n | OfKindTask(full', n) && SettledIn(full', n) ensures full'[n].status.Completed? {
      assert n !in Compiler.Ids(g.nodes);
      assert OfKindTask(full, n) && SettledIn(full, n);
    }
    hide Known, Planted, Covers;
  }

  lemma NewlyBound(live: Nodes, liveEdges: set<EdgeRow>, full: Nodes, fullEdges: set<EdgeRow>, live': Nodes,
                   liveEdges': set<EdgeRow>, full': Nodes, fullEdges': set<EdgeRow>, g: GraphSpec, e: EdgeRow)
    requires Shape(live, liveEdges, full, fullEdges) && InOrder(live, full, fullEdges)
    requires Plans(live, liveEdges, full, fullEdges, live', liveEdges', full', fullEdges', g)
    requires e in fullEdges' && Binds(full', e)
    ensures SettledIn(live', e.src)
  {
    hide NoneLoose, Guarded;
    PlantedKeepsKnown(live, live', g);
    OutsideStays(live, full, fullEdges, full', g, e);
    assert Binds(full, e);
  }

  /** An edge whose live or completed target is not in the plan has its source outside too. */
  lemma OutsideStays(live: Nodes, full: Nodes, fullEdges: set<EdgeRow>, full': Nodes, g: GraphSpec, e: EdgeRow)
    requires e in fullEdges && Within(full, e) && e.dst !in Compiler.Ids(g.nodes)
    requires e.dst in live && full[e.dst].node == live[e.dst].node && live[e.dst].node.id == e.dst
    requires Known(live, g) && Owns(fullEdges, g) && Planted(full, full', g)
    ensures e.src !in Compiler.Ids(g.nodes) && full'[e.src] == full[e.src] && full'[e.dst] == full[e.dst]
  {
  }

  lemma AttemptKeepsRules(m: Machine, a: AttemptRecord, at: string, dies: bool)
    requires Rules(m)
    requires (a.id in m.live.work.attempts && a.nodeId == m.live.work.attempts[a.id].nodeId)
          || (a.id !in m.full.work.attempts && a.nodeId in m.live.work.nodes
              && Rows(m.live.work.attempts, a.nodeId) < Budget(m.live.work.nodes[a.nodeId].node))
    ensures Rules(Emit(m, Event(at, OfWork(AttemptMoved(Some(a)))), dies))
    ensures a.id !in m.full.work.attempts && !dies ==>
      Rows(PutAttempt(m.live.work, a, at).attempts, a.nodeId) == Rows(m.live.work.attempts, a.nodeId) + 1
  {
    AttemptRows(m, a, at);
    hide Board, WithinBudget, AttemptsKept, Rows, PutAttempt, OneRow;
    var e := Event(at, OfWork(AttemptMoved(Some(a))));
    var after := Emit(m, e, dies);
    var grown := PutAttempt(m.live.work, a, at);
    assert Apply(m.live, e).work == grown && after.full.work == PutAttempt(m.full.work, a, at);
    AttemptKeepsBudget(m.live.work.nodes, m.live.work.attempts, grown.attempts, m.full.work.attempts,
                       after.full.work.attempts, m.calls, m.cycle.armed, a.id, a.nodeId);
  }

  lemma AttemptRows(m: Machine, a: AttemptRecord, at: string)
    requires Rules(m)
    requires a.id in m.live.work.attempts ==> a.nodeId == m.live.work.attempts[a.id].nodeId
    requires a.id !in m.live.work.attempts ==> a.id !in m.full.work.attempts
    ensures OneRow(m.live.work.attempts, PutAttempt(m.live.work, a, at).attempts, a.id, a.nodeId)
    ensures OneRow(m.full.work.attempts, PutAttempt(m.full.work, a, at).attempts, a.id, a.nodeId)
    ensures PutAttempt(m.live.work, a, at).nodes == m.live.work.nodes
    ensures PutAttempt(m.live.work, a, at).edges == m.live.work.edges
    ensures PutAttempt(m.full.work, a, at).nodes == m.full.work.nodes
    ensures PutAttempt(m.full.work, a, at).edges == m.full.work.edges
    ensures a.id !in m.full.work.attempts ==> a.id !in m.live.work.attempts
  {
    hide Board, WithinBudget;
  }

  lemma ReplayKeepsRules(m: Machine)
    requires Rules(m)
    ensures Rules(Do(m, Replay))
  {
    forall n | n in m.calls ensures m.calls[n] <= Rows(m.full.work.attempts, n) {
      SubsetSize(AttemptsOf(m.live.work.attempts, n), AttemptsOf(m.full.work.attempts, n));
    }
    forall e | e in m.full.work.edges
      ensures Within(m.full.work.nodes, e) && (Binds(m.full.work.nodes, e) ==> SettledIn(m.full.work.nodes, e.src))
    {
      if Binds(m.full.work.nodes, e) {
        assert SettledIn(m.live.work.nodes, e.src);
        assert OfKindTask(m.live.work.nodes, e.src);
      }
    }
    hide Rows;
    forall e | e in m.full.work.edges && OfKindTask(m.full.work.nodes, e.src) && OfKindTask(m.full.work.nodes, e.dst)
      ensures Guarded(m.full.work.nodes, m.full.work.edges, e)
    {
      EdgeImpliesItself(m.full.work.nodes, m.full.work.edges, e);
    }
  }

  lemma EdgeImpliesItself(nodes: Nodes, edges: set<EdgeRow>, e: EdgeRow)
    requires e in edges && OfKindTask(nodes, e.src) && OfKindTask(nodes, e.dst)
    ensures Implied(nodes, edges, e)
  {
    var p := [e.src, e.dst];
    assert Hop(edges, e.graphId, p, 0);
    assert TaskPath(nodes, edges, e.graphId, p);
  }

  lemma AttemptKeepsBudget(nodes: Nodes, live: Attempts, live': Attempts, full: Attempts, full': Attempts,
                           calls: map<string, nat>, armed: Option<string>, id: string, n: string)
    requires AttemptsKept(live, full) && WithinBudget(nodes, live, calls, armed)
    requires id !in live ==> id !in full && n in nodes && Rows(live, n) < Budget(nodes[n].node)
    requires OneRow(live, live', id, n) && OneRow(full, full', id, n)
    ensures AttemptsKept(live, full') && AttemptsKept(live', full')
    ensures WithinBudget(nodes, live', calls, armed)
    ensures id !in live ==> Rows(live', n) == Rows(live, n) + 1
  {
    hide Rows;
    RowsGrow(live, live', id, n, n);
    forall k | k in calls ensures Rows(live', k) >= Rows(live, k) { RowsGrow(live, live', id, n, k); }
    if armed.Some? { RowsGrow(live, live', id, n, armed.value); }
  }

  /** One attempt row added, or rewritten for the same node. */
  ghost predicate OneRow(a: Attempts, b: Attempts, id: string, n: string) {
    && b.Keys == a.Keys + {id} && b[id].nodeId == n && (id in a ==> a[id].nodeId == n)
    && (forall k :: k in a && k != id ==> b[k] == a[k])
  }

  lemma RowsGrow(a: Attempts, b: Attempts, id: string, n: string, k: string)
    requires OneRow(a, b, id, n)
    ensures Rows(b, k) == Rows(a, k) + if k == n && id !in a then 1 else 0
  {
    var more := if k == n then {id} else {};
    var before, after := AttemptsOf(a, k), AttemptsOf(b, k);
    forall x ensures x in after <==> x in before || x in more {
      assert x in b <==> x in a || x == id;
    }
    assert after == before + more;
    if k == n && id !in a {
      assert id !in before;
    } else {
      assert after == before;
    }
  }

  // ----- every act keeps the rules

  /** The row just written lets the node be called once more. */
  lemma StartKeepsRules(m: Machine, a: AttemptRecord, at: string, dies: bool)
    requires Rules(m) && WriteEnabled(m, StartAttempt(a))
    ensures Rules(Do(m, Writing(StartAttempt(a), at, dies)))
  {
    hide Board, AttemptsKept, Rows, PutAttempt;
    var e, n := Event(at, OfWork(AttemptMoved(Some(a)))), a.nodeId;
    var after := Emit(m, e, dies);
    AttemptKeepsRules(m, a, at, dies);
    if !dies {
      PutAttemptNodes(m.live.work, a, at);
      assert CallsOf(m.calls, n) <= Rows(m.live.work.attempts, n) by { CallsWithinRows(m, n); }
      hide WithinBudget;
      var armed := after.(cycle := m.cycle.(armed := Some(n)));
      ArmNode(m.live.work.nodes, after.live.work.attempts, m.calls, m.cycle.armed, n);
      assert armed == Do(m, Writing(StartAttempt(a), at, dies));
    }
  }

  lemma PutAttemptNodes(t: WorkTables, a: AttemptRecord, at: string)
    ensures PutAttempt(t, a, at).nodes == t.nodes
  {
  }

  lemma CallsWithinRows(m: Machine, n: string)
    requires Rules(m)
    ensures CallsOf(m.calls, n) <= Rows(m.live.work.attempts, n)
  {
    hide Board, AttemptsKept, Rows;
  }

  lemma ArmNode(nodes: Nodes, attempts: Attempts, calls: map<string, nat>, armed: Option<string>, n: string)
    requires WithinBudget(nodes, attempts, calls, armed)
    requires n in nodes && CallsOf(calls, n) < Rows(attempts, n) <= Budget(nodes[n].node)
    ensures WithinBudget(nodes, attempts, calls, Some(n))
  {
    hide Rows;
  }

  predicate MovesNode(w: Write) {
    w.Unblock? || w.Project? || w.Block? || w.Complete? || w.Fail? || w.RecordOutput?
  }

  lemma NodeWriteKeepsRules(m: Machine, w: Write, at: string, dies: bool)
    requires Rules(m) && WriteEnabled(m, w) && MovesNode(w)
    ensures Rules(Do(m, Writing(w, at, dies)))
  {
    var c := WorkEventOf(m.live, w).value;
    assert c == StepMoved(Some(w.n), c.to, c.output);
    StepKeepsRules(m, w.n, c.to, c.output, at, dies);
  }

  lemma WriteKeepsRules(m: Machine, w: Write, at: string, dies: bool)
    requires Rules(m) && WriteEnabled(m, w)
    requires w.CreateGraph? ==> Orderly(m, w.graph, dies)
    ensures Rules(Do(m, Writing(w, at, dies)))
  {
    if MovesNode(w) {
      NodeWriteKeepsRules(m, w, at, dies);
    } else if w.CreateGraph? {
      CreateKeepsRules(m, w.graph, at, dies);
    } else if w.StartAttempt? {
      StartKeepsRules(m, w.attempt, at, dies);
    } else if w.FinishAttempt? {
      AttemptKeepsRules(m, w.attempt, at, dies);
    } else {
      AsideKeepsRules(m, Event(at, ContentOf(m.live, w)), dies);
    }
  }

  /** Whatever the act plans, it plans in order. */
  ghost predicate InPlace(m: Machine, a: Act) {
    a.Writing? && a.write.CreateGraph? ==> Orderly(m, a.write.graph, a.dies)
  }

  lemma ActKeepsRules(m: Machine, a: Act)
    requires Rules(m) && Enabled(m, a) && InPlace(m, a)
    ensures Rules(Do(m, a))
  {
    match a
    case Writing(w, at, dies) => WriteKeepsRules(m, w, at, dies);
    case CalculateReady(g) =>
      forall e | e in m.live.work.edges && e.dst in ReadySet(m.live.work, g)
        ensures SettledIn(m.live.work.nodes, e.src)
      {
        assert ReadyIn(m.live.work, g, e.dst);
        assert Within(m.full.work.nodes, e);
      }
    case ClearTask(_, _) =>
    case PassReview(_) =>
    case Call(n) =>
    case Deliver(_, _, _) =>
    case Abort =>
    case Replay => ReplayKeepsRules(m);
  }

  lemma ActKeepsFold(m: Machine, a: Act)
    requires Folded(m)
    ensures Folded(Do(m, a))
    ensures m.log <= Do(m, a).log
  {
    match a
    case Writing(w, at, dies) => EmitFolds(m, Event(at, ContentOf(m.live, w)), dies);
    case Replay => FoldExceptNothing(m.log, {});
    case _ =>
  }
}
