/** The current-state tables and the one reducer that folds an event into them
    (storage/projections.py and the memory reducer of storage/records.py).

    A payload is modelled by its fields.  `None` stands for an absent or null
    field; a payload that lacks one of the fields its reducer requires is the
    `None` of the whole record. */
module Projections {
  import opened Common

  datatype Lifecycle =
    | Discovered | Quarantined | Inspected | Approved | Benchmarked
    | Active | Stale | Revoked | Compromised

  datatype ApprovalStatus = Pending | Approved | Rejected | Revise | Deferred | Stale

  datatype ApprovalType = Action | Strategic | Exception | Capability

  datatype NodeKind = Task | Decision | Approval | Review

  datatype NodeStatus = Pending | Ready | Running | Blocked | Completed | Failed | Skipped

  datatype GraphStatus = Draft | Ready | Running | Paused | Completed | Failed | Cancelled

  /** Canonical JSON of an approval scope; equal texts have equal digests. */
  type Scope = string

  // ----- rows

  datatype MemoryRow = MemoryRow(body: string, status: string, archived: bool, updatedAt: string)
  datatype SourceRow = SourceRow(memoryId: string, reference: string)

  datatype CapabilityRow = CapabilityRow(
    name: string, kind: string, lifecycle: Lifecycle, digest: string, createdAt: string, updatedAt: string)
  datatype VersionRow = VersionRow(
    capabilityId: string, digest: string, manifest: string, location: string, lifecycle: Lifecycle, createdAt: string)
  datatype PermissionRow = PermissionRow(capabilityId: string, grants: string)

  datatype ApprovalRow = ApprovalRow(
    graphId: Option<string>, nodeId: Option<string>, approvalType: ApprovalType, actionKind: Option<string>,
    requestedAction: string, scope: Scope, reason: string, risk: string, status: ApprovalStatus,
    requestedAt: string, decidedAt: Option<string>, decidedBy: Option<string>, decisionReason: Option<string>)

  datatype GraphRow = GraphRow(
    details: string, status: GraphStatus, version: int, createdAt: string, updatedAt: string)

  datatype WorkNode = WorkNode(
    id: string, graphId: string, kind: NodeKind, needs: seq<string>,
    approvalRequired: bool, independentReview: bool, evidenceRequired: bool,
    expectedOutputs: seq<string>, maxAttempts: int, onWorker: bool,
    reviewer: Option<string>, scope: Scope, details: string)
  datatype NodeRow = NodeRow(node: WorkNode, status: NodeStatus, output: Option<string>, version: nat)
  datatype EdgeRow = EdgeRow(graphId: string, src: string, dst: string)
  datatype AttemptRow = AttemptRow(
    graphId: string, nodeId: string, attempt: int, capabilityId: Option<string>, state: string,
    error: Option<string>, usage: string, startedAt: string, endedAt: Option<string>)

  datatype MemoryTables = MemoryTables(records: map<string, MemoryRow>, sources: map<string, SourceRow>)
  datatype CapabilityTables = CapabilityTables(
    rows: map<string, CapabilityRow>, versions: map<string, VersionRow>, permissions: map<string, PermissionRow>)
  datatype WorkTables = WorkTables(
    graphs: map<string, GraphRow>, nodes: map<string, NodeRow>, edges: set<EdgeRow>, attempts: map<string, AttemptRow>)

  datatype Tables = Tables(
    memory: MemoryTables, capabilities: CapabilityTables, approvals: map<string, ApprovalRow>, work: WorkTables)

  const EMPTY: Tables :=
    Tables(MemoryTables(map[], map[]), CapabilityTables(map[], map[], map[]),
      map[], WorkTables(map[], map[], {}, map[]))

  // ----- events

  datatype MemoryRecord = MemoryRecord(id: string, row: MemoryRow, sources: seq<(string, SourceRow)>)
  datatype CapabilitySnapshot = CapabilitySnapshot(
    id: string, name: string, kind: string, digest: string, lifecycle: Option<Lifecycle>,
    versionId: string, manifest: string, location: string,
    permission: Option<(string, PermissionRow)>, eventTime: Option<string>)
  datatype ApprovalRequest = ApprovalRequest(id: string, row: ApprovalRow)
  datatype ApprovalDecision = ApprovalDecision(
    id: string, decision: ApprovalStatus, actor: string, reason: string, decidedAt: string)
  datatype GraphSpec = GraphSpec(
    id: string, details: string, status: GraphStatus, version: int,
    nodes: seq<WorkNode>, edges: seq<(string, string)>, eventTime: Option<string>)
  datatype AttemptRecord = AttemptRecord(
    id: string, graphId: string, nodeId: string, attempt: int, capabilityId: Option<string>,
    state: string, error: Option<string>, usage: string, eventTime: Option<string>)

  datatype Domain = Memory | Capabilities | Approvals | WorkProjection

  datatype MemoryEvent =
    | Written(record: Option<MemoryRecord>)
    | Superseded(id: Option<string>, changedAt: Option<string>)
    | Archived(id: Option<string>, changedAt: Option<string>)

  datatype CapabilityEvent =
    | Found(snapshot: Option<CapabilitySnapshot>)
    | Drifted(id: Option<string>, digest: Option<string>, state: Option<Lifecycle>, eventTime: Option<string>)
    | Moved(stage: Lifecycle, id: Option<string>, to: Option<Lifecycle>, eventTime: Option<string>)

  datatype ApprovalEvent =
    | Requested(request: Option<ApprovalRequest>)
    | Decided(decision: Option<ApprovalDecision>)
    | Staled(id: Option<string>)

  datatype WorkEvent =
    | RunCreated(graph: Option<GraphSpec>)
    | RunMoved(id: Option<string>, graphStatus: Option<GraphStatus>, eventTime: Option<string>)
    | StepMoved(nodeId: Option<string>, to: Option<NodeStatus>, output: Option<string>)
    | AttemptMoved(attempt: Option<AttemptRecord>)

  /** Event type and payload together.  `Unfolded` covers every whitelisted type
      that no reducer interprets; `Unlisted` a type outside the whitelist. */
  datatype Content =
    | OfMemory(memory: MemoryEvent)
    | OfCapability(capability: CapabilityEvent)
    | OfApproval(approval: ApprovalEvent)
    | OfWork(work: WorkEvent)
    | Unfolded(domain: Option<Domain>, name: string)
    | Unlisted(name: string)

  datatype Event = Event(timestamp: string, content: Content)

  predicate Whitelisted(c: Content) {
    !c.Unlisted? && (c.OfCapability? && c.capability.Moved? ==> !c.capability.stage.Discovered?)
  }

  /** The domain an event type claims by its prefix. */
  function DomainOf(c: Content): Option<Domain> {
    match c
    case OfMemory(_) => Some(Memory)
    case OfCapability(_) => Some(Capabilities)
    case OfApproval(_) => Some(Approvals)
    case OfWork(_) => Some(WorkProjection)
    case Unfolded(d, _) => d
    case Unlisted(_) => None
  }

  function Or<T>(preferred: Option<T>, fallback: T): T {
    if preferred.Some? then preferred.value else fallback
  }

  // ----- reducers, one per event type

  function PutSources(m: map<string, SourceRow>, rows: seq<(string, SourceRow)>): map<string, SourceRow>
    decreases |rows|
  {
    if rows == [] then m else PutSources(m[rows[0].0 := rows[0].1], rows[1..])
  }

  function SetMemoryStatus(t: MemoryTables, id: Option<string>, status: string, archived: bool, at: string)
    : MemoryTables
  {
    if id.Some? && id.value in t.records
    then t.(records := t.records[
      id.value := t.records[id.value].(status := status, archived := archived, updatedAt := at)])
    else t
  }

  function ApplyMemory(t: MemoryTables, e: MemoryEvent, timestamp: string): MemoryTables {
    match e
    case Written(Some(r)) => MemoryTables(t.records[r.id := r.row], PutSources(t.sources, r.sources))
    case Superseded(id, at) => SetMemoryStatus(t, id, "superseded", false, Or(at, timestamp))
    case Archived(id, at) => SetMemoryStatus(t, id, "archived", true, Or(at, timestamp))
    case Written(None) => t
  }

  function PutCapability(t: CapabilityTables, s: CapabilitySnapshot, timestamp: string): CapabilityTables {
    var at := Or(s.eventTime, timestamp);
    var lifecycle := Or(s.lifecycle, Lifecycle.Quarantined);
    CapabilityTables(
      t.rows[s.id := CapabilityRow(s.name, s.kind, lifecycle, s.digest, at, at)],
      t.versions[s.versionId := VersionRow(s.id, s.digest, s.manifest, s.location, lifecycle, at)],
      if s.permission.Some? then t.permissions[s.permission.value.0 := s.permission.value.1] else t.permissions)
  }

  function MoveCapability(t: CapabilityTables, id: string, lifecycle: Lifecycle, digest: Option<string>, at: string)
    : CapabilityTables
  {
    if id !in t.rows then t
    else
      var row := t.rows[id];
      t.(rows := t.rows[id := row.(lifecycle := lifecycle, digest := Or(digest, row.digest), updatedAt := at)])
  }

  function ApplyCapability(t: CapabilityTables, e: CapabilityEvent, timestamp: string): CapabilityTables {
    match e
    case Found(Some(s)) => PutCapability(t, s, timestamp)
    case Drifted(Some(id), Some(digest), Some(state), at) =>
      MoveCapability(t, id, state, Some(digest), Or(at, timestamp))
    case Moved(stage, Some(id), to, at) => MoveCapability(t, id, Or(to, stage), None, Or(at, timestamp))
    case _ => t
  }

  function ApplyApproval(t: map<string, ApprovalRow>, e: ApprovalEvent): map<string, ApprovalRow> {
    match e
    case Requested(Some(r)) => t[r.id := r.row.(decidedAt := None, decidedBy := None, decisionReason := None)]
    case Decided(Some(d)) =>
      if d.id !in t then t
      else t[d.id := t[d.id].(status := d.decision, decidedAt := Some(d.decidedAt), decidedBy := Some(d.actor),
                              decisionReason := Some(d.reason))]
    case Staled(Some(id)) => if id !in t then t else t[id := t[id].(status := ApprovalStatus.Stale)]
    case _ => t
  }

  function PutNodes(m: map<string, NodeRow>, nodes: seq<WorkNode>, graphId: string): map<string, NodeRow>
    decreases |nodes|
  {
    if nodes == [] then m
    else PutNodes(m[nodes[0].id := NodeRow(nodes[0].(graphId := graphId), NodeStatus.Pending, None, 0)],
      nodes[1..], graphId)
  }

  function EdgeRows(graphId: string, edges: seq<(string, string)>): set<EdgeRow> {
    set e | e in edges :: EdgeRow(graphId, e.0, e.1)
  }

  function PutGraph(t: WorkTables, g: GraphSpec, timestamp: string): WorkTables {
    var at := Or(g.eventTime, timestamp);
    t.(graphs := t.graphs[g.id := GraphRow(g.details, g.status, g.version, at, at)],
       nodes := PutNodes(t.nodes, g.nodes, g.id),
       edges := t.edges + EdgeRows(g.id, g.edges))
  }

  function MoveGraph(t: WorkTables, id: string, status: GraphStatus, at: string): WorkTables {
    if id !in t.graphs then t
    else t.(graphs := t.graphs[id := t.graphs[id].(status := status, updatedAt := at)])
  }

  function MoveNode(t: WorkTables, id: string, status: Option<NodeStatus>, output: Option<string>): WorkTables {
    if id !in t.nodes then t
    else
      var row := t.nodes[id];
      t.(nodes := t.nodes[id := row.(status := Or(status, row.status),
                                     output := if output.Some? then output else row.output,
                                     version := row.version + 1)])
  }

  function PutAttempt(t: WorkTables, a: AttemptRecord, timestamp: string): WorkTables {
    var at := Or(a.eventTime, timestamp);
    var ended := if a.state != "running" then Some(at) else None;
    var row :=
      if a.id in t.attempts then
        var prior := t.attempts[a.id];
        prior.(state := a.state, error := a.error, usage := a.usage,
               endedAt := if ended.Some? then ended else prior.endedAt)
      else
        AttemptRow(a.graphId, a.nodeId, a.attempt, a.capabilityId, a.state, a.error, a.usage, at, ended);
    t.(attempts := t.attempts[a.id := row])
  }

  function ApplyWork(t: WorkTables, e: WorkEvent, timestamp: string): WorkTables {
    match e
    case RunCreated(Some(g)) => PutGraph(t, g, timestamp)
    case RunMoved(Some(id), Some(status), at) => MoveGraph(t, id, status, Or(at, timestamp))
    case StepMoved(Some(id), status, output) => MoveNode(t, id, status, output)
    case AttemptMoved(Some(a)) => PutAttempt(t, a, timestamp)
    case _ => t
  }

  /** The tables after one event; the only interpreter of events. */
  function Apply(t: Tables, e: Event): Tables {
    match e.content
    case OfMemory(m) => t.(memory := ApplyMemory(t.memory, m, e.timestamp))
    case OfCapability(c) => t.(capabilities := ApplyCapability(t.capabilities, c, e.timestamp))
    case OfApproval(a) => t.(approvals := ApplyApproval(t.approvals, a))
    case OfWork(w) => t.(work := ApplyWork(t.work, w, e.timestamp))
    case Unfolded(_, _) | Unlisted(_) => t
  }

  /** Whether the reducer reports the event as applied. */
  predicate Applied(t: Tables, e: Event) {
    match e.content
    case OfMemory(m) => !(m.Written? && m.record.None?)
    case OfCapability(c) =>
      (match c
       case Found(s) => s.Some?
       case Drifted(id, digest, state, _) =>
         id.Some? && digest.Some? && state.Some? && id.value in t.capabilities.rows
       case Moved(_, id, _, _) => id.Some? && id.value in t.capabilities.rows)
    case OfApproval(a) =>
      (match a
       case Requested(r) => r.Some?
       case Decided(d) => d.Some?
       case Staled(id) => id.Some?)
    case OfWork(w) =>
      (match w
       case RunCreated(g) => g.Some?
       case RunMoved(id, status, _) => id.Some? && status.Some?
       case StepMoved(id, _, _) => id.Some?
       case AttemptMoved(a) => a.Some?)
    case Unfolded(_, _) | Unlisted(_) => false
  }

  /** The tables a whole log describes. */
  function Fold(log: seq<Event>): Tables {
    if log == [] then EMPTY else Apply(Fold(log[..|log| - 1]), log[|log| - 1])
  }

  /** The tables left when the events at the positions in `lost` were logged but never applied. */
  function FoldExcept(log: seq<Event>, lost: set<nat>): Tables {
    if log == [] then EMPTY
    else
      var before := FoldExcept(log[..|log| - 1], lost);
      if |log| - 1 in lost then before else Apply(before, log[|log| - 1])
  }

  lemma {:induction false} FoldExceptNothing(log: seq<Event>, lost: set<nat>)
    requires forall i :: 0 <= i < |log| ==> i !in lost
    ensures FoldExcept(log, lost) == Fold(log)
  {
    if log != [] {
      FoldExceptNothing(log[..|log| - 1], lost);
    }
  }

  /** Positions beyond the log are irrelevant. */
  lemma {:induction false} FoldExceptLocal(log: seq<Event>, lost: set<nat>, more: set<nat>)
    requires forall i :: 0 <= i < |log| ==> (i in lost <==> i in more)
    ensures FoldExcept(log, lost) == FoldExcept(log, more)
  {
    if log != [] {
      FoldExceptLocal(log[..|log| - 1], lost, more);
    }
  }

  /** An event no reducer interprets, or one whose payload lacks a required field, changes nothing;
      hence a writer that appends without folding leaves the tables equal to the fold. */
  lemma UnappliedIsNoOp(t: Tables, e: Event)
    requires !Applied(t, e)
    ensures Apply(t, e) == t
  {
  }
}
