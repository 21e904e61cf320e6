/** The bounded sequential supervisor (execution/supervisor.py).

    Adapters, gates, policy verdicts, budgets, reviewers, people and failures are
    choices of the environment, made anew at every step.  Whatever they are, the run
    loop only ever takes steps the rules of `Governance` allow, it terminates, and its
    summary is true of the tables it leaves. */
module Supervisors {
  import opened Common
  import opened Projections
  import opened L = Ledger
  import opened Compiler
  import opened Readiness
  import opened Governance
  import opened GovernedRuns
  import opened Orderings
  import opened WorkStores

  datatype Verdict = Allow | Deny | RequireApproval

  datatype AdapterResult =
    | Delivered(outputs: set<string>, evidence: bool, text: string)
    | NotOk
    | Raises    // an exception the retry loop catches
    | Escapes   // any other

  datatype Reason = ApprovalNode | ApprovalNeeded | Review | SpendingCap | Policy

  /** `blocked` is the run's own list: every node it blocked, whatever became of it since. */
  datatype Summary =
    | Finished(completed: seq<string>, blocked: seq<string>)
    | Deadlocked(completed: seq<string>, blocked: seq<string>)
    | Paused(completed: seq<string>, blocked: seq<string>, on: string, reason: Reason)
    | FailedAt(completed: seq<string>, blocked: seq<string>, failed: string)
    | Aborted

  /** How the dispatch of one ready node ended. */
  datatype Dispatch = NodeCompleted | NodeBlocked(reason: Reason) | NodeFailed | RunLost

  /** How one try at a node with capabilities ended; `TryCaught` is retried while the budget lasts. */
  datatype Try = TryCompleted | TryPaused(reason: Reason) | TryCaught | TryLost

  datatype Called = CallDelivered(text: string) | CallPaused | CallCaught | CallLost

  // ----- what a step leaves alone

  ghost predicate SameGraphs(t: WorkTables, u: WorkTables) {
    && u.edges == t.edges && u.nodes.Keys == t.nodes.Keys
    && (forall n :: n in t.nodes ==> u.nodes[n].node == t.nodes[n].node)
    && u.graphs.Keys == t.graphs.Keys
  }

  /** The non-approval nodes have the statuses they had. */
  ghost predicate SameTasks(t: WorkTables, u: WorkTables) {
    && SameGraphs(t, u)
    && (forall n :: OfKindTask(t.nodes, n) ==> u.nodes[n].status == t.nodes[n].status)
  }

  /** All nodes but perhaps those of `except` have the statuses they had. */
  ghost predicate SameOthers(t: WorkTables, u: WorkTables, except: seq<string>) {
    && SameGraphs(t, u)
    && (forall n :: n in t.nodes && n !in except ==> u.nodes[n].status == t.nodes[n].status)
  }

  /** Nothing the pass has established is withdrawn. */
  ghost predicate CycleGrew(a: Cycle, b: Cycle) {
    && b.ready == a.ready && a.cleared <= b.cleared && a.reviewed <= b.reviewed && a.delivered <= b.delivered
  }

  lemma Unmoved(t: WorkTables, c: Cycle, n: string)
    ensures SameOthers(t, t, [n]) && CycleGrew(c, c)
  {
  }

  lemma OthersChain(t: WorkTables, u: WorkTables, v: WorkTables, n: string, a: Cycle, b: Cycle, c: Cycle)
    requires SameOthers(t, u, [n]) && SameOthers(u, v, [n]) && CycleGrew(a, b) && CycleGrew(b, c)
    ensures SameOthers(t, v, [n]) && CycleGrew(a, c)
  {
  }

  lemma OthersThen(t: WorkTables, u: WorkTables, v: WorkTables, n: string)
    requires SameOthers(t, u, [n]) && SameOthers(u, v, [n])
    ensures SameOthers(t, v, [n])
  {
  }

  /** One node's status or output moved, and nothing else. */
  lemma OneMoved(t: WorkTables, u: WorkTables, n: string, to: Option<NodeStatus>, output: Option<string>)
    requires n in t.nodes && u == MoveNode(t, n, to, output)
    ensures SameOthers(t, u, [n]) && u.attempts == t.attempts && u.graphs == t.graphs
    ensures n in u.nodes && u.nodes[n].node == t.nodes[n].node && u.nodes[n].status == Or(to, t.nodes[n].status)
  {
  }

  lemma CycleKeeps(a: Cycle, b: Cycle, n: string)
    requires CycleGrew(a, b)
    ensures b.ready == a.ready && (n in a.cleared ==> n in b.cleared) && (n in a.delivered ==> n in b.delivered)
  {
  }

  /** What a node keeps while the pass works on it. */
  lemma StillThere(t: WorkTables, u: WorkTables, n: string, graphId: string, a: Cycle, b: Cycle)
    requires n in t.nodes && graphId in t.graphs && SameOthers(t, u, [n]) && CycleGrew(a, b)
    ensures n in u.nodes && u.nodes[n].node == t.nodes[n].node && graphId in u.graphs
    ensures b.ready == a.ready && a.cleared <= b.cleared
  {
  }

  lemma AttemptRowAdded(t: WorkTables, a: AttemptRecord, at: string)
    requires a.id in t.attempts ==> t.attempts[a.id].nodeId == a.nodeId
    ensures var u := PutAttempt(t, a, at);
      && u.nodes == t.nodes && u.edges == t.edges && u.graphs == t.graphs
      && a.id in u.attempts && u.attempts[a.id].nodeId == a.nodeId
      && Rows(u.attempts, a.nodeId) == Rows(t.attempts, a.nodeId) + if a.id in t.attempts then 0 else 1
  {
    RowsGrow(t.attempts, PutAttempt(t, a, at).attempts, a.id, a.nodeId, a.nodeId);
  }

  function NewAttempt(id: string, graphId: string, n: string, attempt: int): AttemptRecord {
    AttemptRecord(id, graphId, n, attempt, None, "running", None, "", None)
  }

  /** The row of a new attempt, and nothing else. */
  lemma NewRow(t: WorkTables, a: AttemptRecord)
    requires a.id !in t.attempts
    ensures var u := PutAttempt(t, a, "");
      && u.(attempts := t.attempts) == t && a.id in u.attempts
      && u.attempts[a.id].nodeId == a.nodeId && u.attempts[a.id].state == a.state
      && Rows(u.attempts, a.nodeId) == Rows(t.attempts, a.nodeId) + 1
  {
    AttemptRowAdded(t, a, "");
    hide Rows;
  }

  lemma AttemptAllowed(m: Machine, a: AttemptRecord)
    requires Dispatched(m, a.nodeId) && OfKindTask(m.live.work.nodes, a.nodeId)
    requires a.id !in m.full.work.attempts && a.state == "running"
    requires Rows(m.live.work.attempts, a.nodeId) < Budget(m.live.work.nodes[a.nodeId].node)
    ensures WriteEnabled(m, Write.StartAttempt(a))
  {
    hide Rows;
  }

  predicate StatusIs(t: WorkTables, n: string, status: NodeStatus) {
    n in t.nodes && t.nodes[n].status == status
  }

  function PendingTasks(t: WorkTables, graphId: string): set<string> {
    set n | n in t.nodes && t.nodes[n].node.graphId == graphId && OfKindTask(t.nodes, n) && t.nodes[n].status.Pending?
  }

  /** A node's status once every blocked task of the graph outside `rest` is pending again. */
  function UnblockedStatus(t: WorkTables, graphId: string, rest: set<string>, n: string): NodeStatus
    requires n in t.nodes
  {
    if n in NodeIds(t, graphId) && n !in rest && OfKindTask(t.nodes, n) && t.nodes[n].status.Blocked?
    then NodeStatus.Pending else t.nodes[n].status
  }

  /** Part-way through: every blocked task of the graph outside `rest` is pending again, and nothing else moved. */
  ghost predicate Unblocking(was: WorkTables, now: WorkTables, graphId: string, rest: set<string>) {
    SameGraphs(was, now) &&
    forall n :: n in was.nodes ==> now.nodes[n].status == UnblockedStatus(was, graphId, rest, n)
  }

  lemma UnblockBegins(t: WorkTables, graphId: string)
    ensures Unblocking(t, t, graphId, NodeIds(t, graphId))
  {
  }

  /** A node that needs no unblocking is done as it is. */
  lemma UnblockNext(was: WorkTables, now: WorkTables, graphId: string, rest: set<string>, n: string)
    requires Unblocking(was, now, graphId, rest) && n in rest && n in NodeIds(was, graphId)
    ensures n in now.nodes && now.nodes[n].status == was.nodes[n].status && now.nodes[n].node == was.nodes[n].node
    ensures !(OfKindTask(now.nodes, n) && now.nodes[n].status.Blocked?) ==>
      Unblocking(was, now, graphId, rest - {n})
  {
  }

  lemma UnblockStep(was: WorkTables, before: WorkTables, now: WorkTables, graphId: string, rest: set<string>, n: string)
    requires Unblocking(was, before, graphId, rest) && n in rest && n in NodeIds(was, graphId)
    requires OfKindTask(before.nodes, n) && before.nodes[n].status.Blocked?
    requires now == MoveNode(before, n, Some(NodeStatus.Pending), None)
    ensures Unblocking(was, now, graphId, rest - {n})
  {
  }

  lemma UnblockEnds(was: WorkTables, now: WorkTables, graphId: string, rest: set<string>)
    requires Unblocking(was, now, graphId, rest)
    ensures SameGraphs(was, now)
    ensures rest == {} ==> forall n :: n in now.nodes ==> now.nodes[n].status == UnblockedStatus(was, graphId, {}, n)
  {
  }

  // ----- approvals as the tables show them

  /** At most the one request went stale. */
  predicate OnlyStaled(t: Tables, u: Tables, id: string) {
    u.approvals == t.approvals ||
    (id in t.approvals && u.approvals == t.approvals[id := t.approvals[id].(status := ApprovalStatus.Stale)])
  }

  predicate Ungoverned(t: Tables, n: string)
    requires n in t.work.nodes
  {
    forall a :: a in t.approvals ==> !Governs(t, t.work.nodes[n].node, a)
  }

  /** A latest request of the node is approved for its present scope, or is not. */
  predicate LatestIs(t: Tables, n: string, approved: bool)
    requires n in t.work.nodes
  {
    var node := t.work.nodes[n].node;
    exists a :: a in t.approvals && Latest(t, node, a) && t.approvals[a].status.Approved? == approved
                && (approved ==> t.approvals[a].scope == node.scope)
  }

  /** An approval node has the status its latest decision gives it, or, without a request, the one it had. */
  ghost predicate Refreshed(was: WorkTables, now: Tables, n: string) {
    n in was.nodes && n in now.work.nodes &&
    var node := now.work.nodes[n].node;
    if Ungoverned(now, n) then now.work.nodes[n].status == was.nodes[n].status
    else exists a ::
      a in now.approvals && Latest(now, node, a) && now.work.nodes[n].status == NodeStatusFor(now.approvals[a].status)
  }

  /** The requests of all other nodes are as they were. */
  ghost predicate OthersGoverned(t: Tables, u: Tables, n: string) {
    && u.approvals.Keys == t.approvals.Keys
    && (forall a :: a in t.approvals && u.approvals[a] != t.approvals[a] ==>
          t.approvals[a].nodeId == Some(n) && u.approvals[a] == t.approvals[a].(status := ApprovalStatus.Stale))
  }

  /** Part-way through a refresh of the nodes `ids`: those in `rest` are still to be looked at. */
  ghost predicate Refreshing(was: WorkTables, now: Tables, ids: set<string>, rest: set<string>) {
    && SameTasks(was, now.work)
    && (forall n :: n in rest && n in was.nodes ==> now.work.nodes[n].status == was.nodes[n].status)
    && (forall n :: n in ids - rest && n in was.nodes && was.nodes[n].node.kind.Approval? ==> Refreshed(was, now, n))
  }

  lemma RefreshBegins(now: Tables, ids: set<string>)
    ensures Refreshing(now.work, now, ids, ids)
  {
  }

  lemma RefreshNext(was: WorkTables, now: Tables, ids: set<string>, rest: set<string>, n: string)
    requires Refreshing(was, now, ids, rest) && Whole(was) && n in rest && n in was.nodes
    ensures n in now.work.nodes && now.work.nodes[n].node == was.nodes[n].node && was.nodes[n].node.id == n
    ensures Whole(now.work)
    ensures !was.nodes[n].node.kind.Approval? ==> Refreshing(was, now, ids, rest - {n})
  {
    forall e | e in now.work.edges ensures Within(now.work.nodes, e) { assert Within(was.nodes, e); }
  }

  lemma RefreshStops(was: WorkTables, before: Tables, now: Tables, ids: set<string>, rest: set<string>, n: string)
    requires Refreshing(was, before, ids, rest) && n in was.nodes && was.nodes[n].node.kind.Approval?
    requires SameOthers(before.work, now.work, [n])
    ensures SameTasks(was, now.work)
  {
    hide Refreshed;
  }

  lemma RefreshStep(was: WorkTables, before: Tables, now: Tables, ids: set<string>, rest: set<string>, n: string)
    requires Refreshing(was, before, ids, rest) && Whole(before.work) && n in rest && n in was.nodes
    requires was.nodes[n].node.kind.Approval?
    requires SameOthers(before.work, now.work, [n]) && OthersGoverned(before, now, n) && Refreshed(before.work, now, n)
    ensures Refreshing(was, now, ids, rest - {n})
  {
    hide Refreshed, OthersGoverned, Whole;
    RefreshStops(was, before, now, ids, rest, n);
    forall k | k in ids - (rest - {n}) && k in was.nodes && was.nodes[k].node.kind.Approval?
      ensures Refreshed(was, now, k)
    {
      if k == n {
        SameBefore(was, before.work, now, n);
      } else {
        OneStillRefreshed(was, before, now, n, k);
      }
    }
  }

  lemma SameBefore(was: WorkTables, before: WorkTables, now: Tables, n: string)
    requires n in was.nodes && n in before.nodes && before.nodes[n].status == was.nodes[n].status
    requires Refreshed(before, now, n)
    ensures Refreshed(was, now, n)
  {
    hide Latest, Ungoverned;
  }

  lemma RefreshEnds(was: WorkTables, now: Tables, graphId: string)
    requires Refreshing(was, now, NodeIds(was, graphId), {})
    ensures SameTasks(was, now.work)
    ensures forall n :: n in NodeIds(now.work, graphId) && now.work.nodes[n].node.kind.Approval? ==>
      Refreshed(was, now, n)
  {
    hide Refreshed;
  }

  lemma NoDecision(was: WorkTables, now: Tables, n: string)
    requires n in was.nodes && now.work == was
    requires forall a :: a in now.approvals ==> !Governs(now, was.nodes[n].node, a)
    ensures Refreshed(was, now, n)
  {
  }

  lemma HasDecision(was: WorkTables, asked: Tables, now: Tables, n: string, id: string)
    requires n in was.nodes && n in now.work.nodes && now.work.nodes[n].node == was.nodes[n].node
    requires now.approvals == asked.approvals && Latest(asked, was.nodes[n].node, id)
    requires now.work.nodes[n].status == NodeStatusFor(now.approvals[id].status)
    ensures Refreshed(was, now, n)
  {
    hide TextLeq;
    assert Latest(now, was.nodes[n].node, id);
  }

  lemma OneStillRefreshed(was: WorkTables, before: Tables, now: Tables, n: string, k: string)
    requires Whole(before.work) && SameOthers(before.work, now.work, [n]) && OthersGoverned(before, now, n)
    requires k != n && Refreshed(was, before, k)
    ensures Refreshed(was, now, k)
  {
    hide TextLeq;
    var node := before.work.nodes[k].node;
    assert forall a :: a in now.approvals ==> (Governs(now, node, a) <==> Governs(before, node, a));
    assert forall a :: a in now.approvals && Governs(now, node, a) ==> now.approvals[a] == before.approvals[a];
    var status := before.work.nodes[k].status;
    if a :| a in before.approvals && Latest(before, node, a) && status == NodeStatusFor(before.approvals[a].status) {
      assert Latest(now, node, a);
    }
  }

  // ----- which nodes a run blocked, and whether it paused on them

  predicate IsBlock(a: Act) {
    a.Writing? && !a.dies && a.write.Block?
  }

  predicate IsPause(a: Act) {
    a.Writing? && a.write.SetGraphStatus? && a.write.graphStatus.Paused?
  }

  /** The write that pauses the graph went through. */
  predicate Pauses(a: Act, graphId: string) {
    a.Writing? && !a.dies && a.write == Write.SetGraphStatus(graphId, GraphStatus.Paused)
  }

  /** The nodes of the block writes that went through, in order. */
  function Blocks(acts: seq<Act>): seq<string> {
    if acts == [] then []
    else
      var a := acts[|acts| - 1];
      Blocks(acts[..|acts| - 1]) + if IsBlock(a) then [a.write.n] else []
  }

  /** Those of them not followed at once by the write that pauses the graph. */
  function Unpaused(acts: seq<Act>, graphId: string): seq<string> {
    if acts == [] then []
    else
      var init, a := acts[..|acts| - 1], acts[|acts| - 1];
      if IsBlock(a) then Unpaused(init, graphId) + [a.write.n]
      else if Pauses(a, graphId) && init != [] && IsBlock(init[|init| - 1]) then Unpaused(init[..|init| - 1], graphId)
      else Unpaused(init, graphId)
  }

  /** Act `i` blocked `n`, and the next one did not pause the graph. */
  predicate LeftUnpaused(acts: seq<Act>, graphId: string, n: string, i: nat) {
    i < |acts| && IsBlock(acts[i]) && acts[i].write.n == n && !(i + 1 < |acts| && Pauses(acts[i + 1], graphId))
  }

  lemma {:induction false} UnpausedAre(acts: seq<Act>, graphId: string, n: string)
    ensures n in Unpaused(acts, graphId) <==> exists i :: 0 <= i < |acts| && LeftUnpaused(acts, graphId, n, i)
    decreases |acts|
  {
    if acts != [] {
      var init, a := acts[..|acts| - 1], acts[|acts| - 1];
      var rest :=
        if !IsBlock(a) && Pauses(a, graphId) && init != [] && IsBlock(init[|init| - 1]) then init[..|init| - 1]
        else init;
      UnpausedAre(rest, graphId, n);
      forall i | 0 <= i < |rest| ensures LeftUnpaused(acts, graphId, n, i) <==> LeftUnpaused(rest, graphId, n, i) {
        assert acts[i] == rest[i];
      }
      assert forall i :: |rest| <= i < |acts| && LeftUnpaused(acts, graphId, n, i) ==> i == |acts| - 1;
      if IsBlock(a) && a.write.n == n { assert LeftUnpaused(acts, graphId, n, |acts| - 1); }
    }
  }

  lemma {:induction false} BlocksJoin(a: seq<Act>, b: seq<Act>)
    ensures Blocks(a + b) == Blocks(a) + Blocks(b)
    decreases |b|
  {
    if b == [] {
      assert a + b == a;
    } else {
      assert (a + b)[..|a + b| - 1] == a + b[..|b| - 1];
      BlocksJoin(a, b[..|b| - 1]);
    }
  }

  lemma UnpausedStep(acts: seq<Act>, a: Act, graphId: string)
    ensures Unpaused(acts + [a], graphId) ==
      if IsBlock(a) then Unpaused(acts, graphId) + [a.write.n]
      else if Pauses(a, graphId) && acts != [] && IsBlock(acts[|acts| - 1]) then Unpaused(acts[..|acts| - 1], graphId)
      else Unpaused(acts, graphId)
  {
    assert (acts + [a])[..|acts|] == acts;
  }

  lemma {:induction false} UnpausedJoin(a: seq<Act>, b: seq<Act>, graphId: string)
    requires b == [] || !IsPause(b[0])
    ensures Unpaused(a + b, graphId) == Unpaused(a, graphId) + Unpaused(b, graphId)
    decreases |b|
  {
    if b == [] {
      assert a + b == a;
    } else {
      var init, last := b[..|b| - 1], b[|b| - 1];
      assert init == [] ==> !Pauses(last, graphId);
      hide Unpaused, IsBlock, Pauses, IsPause;
      assert init + [last] == b && (a + init) + [last] == a + b;
      UnpausedStep(init, last, graphId);
      UnpausedStep(a + init, last, graphId);
      UnpausedJoin(a, init, graphId);
      if init != [] {
        var before := init[..|init| - 1];
        assert (a + init)[..|a + init| - 1] == a + before;
        UnpausedJoin(a, before, graphId);
      }
    }
  }

  /** From `before` to `after` the run blocked these nodes, and did not pause the graph on those. */
  ghost predicate Ran(before: seq<Act>, after: seq<Act>, graphId: string, listed: seq<string>, caught: seq<string>) {
    before <= after &&
    var acts := after[|before|..];
    Blocks(acts) == listed && Unpaused(acts, graphId) == caught && (acts == [] || !IsPause(acts[0]))
  }

  lemma RanThen(a: seq<Act>, b: seq<Act>, c: seq<Act>, graphId: string, listed: seq<string>, caught: seq<string>,
                moreListed: seq<string>, moreCaught: seq<string>)
    requires Ran(a, b, graphId, listed, caught) && Ran(b, c, graphId, moreListed, moreCaught)
    ensures Ran(a, c, graphId, listed + moreListed, caught + moreCaught)
  {
    assert c[|a|..] == b[|a|..] + c[|b|..];
    BlocksJoin(b[|a|..], c[|b|..]);
    UnpausedJoin(b[|a|..], c[|b|..], graphId);
  }

  /** Nothing was blocked, and no graph paused. */
  ghost predicate Quiet(before: seq<Act>, after: seq<Act>) {
    before <= after && forall i :: |before| <= i < |after| ==> !IsBlock(after[i]) && !IsPause(after[i])
  }

  lemma {:induction false} QuietActs(acts: seq<Act>, graphId: string)
    requires forall a :: a in acts ==> !IsBlock(a) && !IsPause(a)
    ensures Blocks(acts) == [] && Unpaused(acts, graphId) == []
  {
    if acts != [] {
      assert acts[|acts| - 1] in acts;
      QuietActs(acts[..|acts| - 1], graphId);
    }
  }

  lemma QuietRan(a: seq<Act>, b: seq<Act>, graphId: string)
    requires Quiet(a, b)
    ensures Ran(a, b, graphId, [], [])
  {
    QuietActs(b[|a|..], graphId);
  }

  lemma QuietThen(a: seq<Act>, b: seq<Act>, c: seq<Act>)
    requires Quiet(a, b) && Quiet(b, c)
    ensures Quiet(a, c)
  {
    hide IsBlock, IsPause;
    forall i | |a| <= i < |c| ensures !IsBlock(c[i]) && !IsPause(c[i]) {
      if i < |b| { assert c[i] == b[i]; }
    }
  }

  lemma RanQuietly(a: seq<Act>, b: seq<Act>, c: seq<Act>, graphId: string, listed: seq<string>, caught: seq<string>)
    requires Ran(a, b, graphId, listed, caught) && Quiet(b, c)
    ensures Ran(a, c, graphId, listed, caught)
  {
    QuietRan(b, c, graphId);
    RanThen(a, b, c, graphId, listed, caught, [], []);
    assert listed + [] == listed && caught + [] == caught;
  }

  lemma QuietlyRan(a: seq<Act>, b: seq<Act>, c: seq<Act>, graphId: string, listed: seq<string>, caught: seq<string>)
    requires Quiet(a, b) && Ran(b, c, graphId, listed, caught)
    ensures Ran(a, c, graphId, listed, caught)
  {
    QuietRan(a, b, graphId);
    RanThen(a, b, c, graphId, [], [], listed, caught);
    assert [] + listed == listed && [] + caught == caught;
  }

  /** A block write, and then the write that pauses the graph, or none that went through. */
  lemma BlockRan(a: seq<Act>, n: string, graphId: string, b: seq<Act>, paused: bool)
    requires var block, pause := Writing(Block(n), "", false), Write.SetGraphStatus(graphId, GraphStatus.Paused);
      if paused then b == a + [block] + [Writing(pause, "", false)]
      else b == a + [block] || b == a + [block] + [Writing(pause, "", true)]
    ensures Ran(a, b, graphId, [n], if paused then [] else [n])
  {
    var block := Writing(Block(n), "", false);
    assert [block][..0] == [] && Blocks([block]) == [n] && Unpaused([block], graphId) == [n];
    if b == a + [block] {
      assert b[|a|..] == [block];
    } else {
      var last := b[|b| - 1];
      assert b[|a|..] == [block, last] && [block, last][..1] == [block];
    }
  }

  lemma OneQuietAct(a: seq<Act>, b: seq<Act>, x: Act)
    requires b == a + [x] && !IsBlock(x) && !IsPause(x)
    ensures Quiet(a, b)
  {
  }

  lemma LostBlockRan(a: seq<Act>, n: string, graphId: string, b: seq<Act>)
    requires b == a || b == a + [Writing(Block(n), "", true)]
    ensures Ran(a, b, graphId, [], [])
  {
    QuietRan(a, b, graphId);
  }

  /** One write that blocks nothing and pauses no graph, or none. */
  lemma OneQuietWrite(a: seq<Act>, b: seq<Act>, w: Write)
    requires !w.Block? && !(w.SetGraphStatus? && w.graphStatus.Paused?)
    requires b == a || b == a + [Writing(w, "", false)] || b == a + [Writing(w, "", true)]
    ensures Quiet(a, b)
  {
  }

  predicate MovesStatus(w: Write) {
    w.Block? || w.Complete? || w.Fail? || w.Unblock?
  }

  function Target(w: Write): NodeStatus
    requires MovesStatus(w)
  {
    match w
    case Block(_) => NodeStatus.Blocked
    case Complete(_) => NodeStatus.Completed
    case Fail(_) => NodeStatus.Failed
    case Unblock(_) => NodeStatus.Pending
  }

  class Supervisor {
    const store: WorkStore

    constructor (store: WorkStore)
      ensures this.store == store
    {
      this.store := store;
    }

    // ----- single writes

    /** `set_node_status`: refused when the version is stale, else one event. */
    method MoveStatus(w: Write, version: nat) returns (o: Outcome)
      requires store.Valid() && MovesStatus(w) && WriteEnabled(store.m, w)
      modifies store, store.ledger
      ensures o.Done? ==> store.acts == old(store.acts) + [Writing(w, "", false)]
      ensures !o.Done? ==> store.acts == old(store.acts) || store.acts == old(store.acts) + [Writing(w, "", true)]
      ensures store.Valid() && store.m.cycle == old(store.m.cycle)
      ensures o.Done? ==> store.Work() == MoveNode(old(store.Work()), w.n, Some(Target(w)), None)
      ensures o.Done? ==> store.Work().nodes[w.n].version == version + 1
      ensures !o.Done? ==> store.Work() == old(store.Work())
      ensures store.ledger.live.approvals == old(store.ledger.live.approvals)
    {
      hide Legal, After, Fold, FoldExcept, LogOf, LiveOf, Tidied, SortableRun, TextLeq;
      if store.Work().nodes[w.n].version != version { return Raised; }
      var fate := AnyFate();
      store.Write(w, "", fate);
      o := if fate.Applies? then Done else if fate.TimesOut? then Raised else Dead;
    }

    method SetGraphStatus(graphId: string, status: GraphStatus) returns (o: Outcome)
      requires store.Valid() && graphId in store.Work().graphs
      modifies store, store.ledger
      ensures var w := Write.SetGraphStatus(graphId, status);
        if o.Done? then store.acts == old(store.acts) + [Writing(w, "", false)]
        else store.acts == old(store.acts) || store.acts == old(store.acts) + [Writing(w, "", true)]
      ensures store.Valid() && store.m.cycle == old(store.m.cycle)
      ensures SameTasks(old(store.Work()), store.Work()) && store.Work().nodes == old(store.Work().nodes)
      ensures store.Work().edges == old(store.Work().edges) && graphId in store.Work().graphs
      ensures store.Work().attempts == old(store.Work().attempts)
      ensures o.Done? ==> store.Work().graphs[graphId].status == status
    {
      hide Legal, After, Fold, FoldExcept, LogOf, LiveOf, Tidied, SortableRun, TextLeq;
      var fate := AnyFate();
      store.Write(Write.SetGraphStatus(graphId, status), "", fate);
      o := if fate.Applies? then Done else if fate.TimesOut? then Raised else Dead;
    }

    /** `record_output`. */
    method RecordOutput(n: string, output: string, version: nat) returns (o: Outcome)
      requires store.Valid() && n in store.Work().nodes
      modifies store, store.ledger
      ensures Quiet(old(store.acts), store.acts)
      ensures store.Valid() && store.m.cycle == old(store.m.cycle)
      ensures o.Done? ==> store.Work() == MoveNode(old(store.Work()), n, None, Some(output))
      ensures !o.Done? ==> store.Work() == old(store.Work())
    {
      hide Legal, After, Fold, FoldExcept, LogOf, LiveOf, Tidied, SortableRun, TextLeq, Quiet;
      QuietAtOnce(store.acts);
      if store.Work().nodes[n].version != version { return Raised; }
      var fate := AnyFate();
      store.Write(Write.RecordOutput(n, output), "", fate);
      OneQuietWrite(old(store.acts), store.acts, Write.RecordOutput(n, output));
      o := if fate.Applies? then Done else if fate.TimesOut? then Raised else Dead;
    }

    /** People decide, other callers request, scopes go stale: any number of times, at any moment. */
    method OutsideWorld()
      requires store.Valid()
      modifies store, store.ledger
      ensures Quiet(old(store.acts), store.acts)
      ensures store.Valid() && store.m.cycle == old(store.m.cycle) && store.Work() == old(store.Work())
    {
      hide Legal, After, Fold, FoldExcept, LogOf, LiveOf, Tidied, SortableRun, TextLeq;
      var rounds: nat :| 0 <= rounds;
      while rounds > 0
        invariant store.Valid() && store.m.cycle == old(store.m.cycle) && store.Work() == old(store.Work())
        invariant Quiet(old(store.acts), store.acts)
      {
        var w: Write := *;
        if Possible(w) {
          ghost var before := store.acts;
          var fate := AnyFate();
          store.Write(w, "", fate);
          QuietThen(old(store.acts), before, store.acts);
        }
        rounds := rounds - 1;
      }
    }

    predicate Possible(w: Write)
      reads store, store.ledger
    {
      match w
      case Request(r) => r.row.status.Pending?
      case DecideHuman(d) =>
        d.id in store.ledger.live.approvals && d.actor == "human" && !d.decision.Pending? && !d.decision.Stale?
      case MakeStale(a, current) =>
        a in store.ledger.live.approvals && store.ledger.live.approvals[a].scope != current
      case _ => false
    }

    // ----- approvals

    /** The request that governs a node: a latest one, if any. */
    method LatestApproval(node: WorkNode) returns (id: Option<string>)
      ensures id.Some? ==> Latest(store.ledger.live, node, id.value) && Governs(store.ledger.live, node, id.value)
      ensures id.None? ==> forall a :: a in store.ledger.live.approvals ==> !Governs(store.ledger.live, node, a)
    {
      hide TextLeq;
      var t := store.ledger.live;
      var rest := t.approvals.Keys;
      id := None;
      while rest != {}
        invariant rest <= t.approvals.Keys
        invariant id.Some? ==> Governs(t, node, id.value)
        invariant forall a :: a in t.approvals && a !in rest && Governs(t, node, a) ==>
          id.Some? && TextLeq(t.approvals[a].requestedAt, t.approvals[id.value].requestedAt)
      {
        var a :| a in rest;
        rest := rest - {a};
        if Governs(t, node, a) {
          if id.None? {
            TextLeqTotal(t.approvals[a].requestedAt, t.approvals[a].requestedAt);
            id := Some(a);
          } else {
            var best, at := t.approvals[id.value].requestedAt, t.approvals[a].requestedAt;
            TextLeqTotal(best, at);
            TextLeqTotal(at, at);
            if !TextLeq(at, best) {
              forall b | b in t.approvals && b !in rest && b != a && Governs(t, node, b)
                ensures TextLeq(t.approvals[b].requestedAt, at)
              {
                TextLeqTransitive(t.approvals[b].requestedAt, best, at);
              }
              id := Some(a);
            }
          }
        }
      }
    }

    /** `assert_current`: a request whose scope no longer matches goes stale. */
    method AssertCurrent(node: WorkNode, id: string) returns (o: Outcome)
      requires store.Valid() && Latest(store.ledger.live, node, id)
      modifies store, store.ledger
      ensures Quiet(old(store.acts), store.acts)
      ensures store.Valid() && store.m.cycle == old(store.m.cycle) && store.Work() == old(store.Work())
      ensures o.Done? ==> Latest(store.ledger.live, node, id) && id in store.ledger.live.approvals
      ensures o.Done? ==>
        var row := store.ledger.live.approvals[id];
        row.scope == node.scope || row.status.Stale?
      ensures OnlyStaled(old(store.ledger.live), store.ledger.live, id)
    {
      hide Legal, After, Fold, FoldExcept, LogOf, LiveOf, Tidied, SortableRun, TextLeq;
      var row := store.ledger.live.approvals[id];
      if row.scope == node.scope { return Done; }
      var fate := AnyFate();
      store.Write(MakeStale(id, node.scope), "", fate);
      o := if fate.Applies? then Done else if fate.TimesOut? then Raised else Dead;
    }

    /** `_ensure_approval_request`: reuse the governing request, or mint one. */
    method EnsureApprovalRequest(node: WorkNode) returns (o: Outcome)
      requires store.Valid()
      modifies store, store.ledger
      ensures Quiet(old(store.acts), store.acts)
      ensures store.Valid() && store.m.cycle == old(store.m.cycle) && store.Work() == old(store.Work())
      ensures o.Done? ==> exists a :: Governs(store.ledger.live, node, a)
    {
      hide Legal, After, Fold, FoldExcept, LogOf, LiveOf, Tidied, SortableRun, TextLeq, Latest;
      var existing := LatestApproval(node);
      if existing.Some? { return Done; }
      var id := FreshId(store.ledger.live.approvals.Keys);
      var row := ApprovalRow(Some(node.graphId), Some(node.id), ApprovalType.Action, None, node.id, node.scope,
                             "", "", ApprovalStatus.Pending, "", None, None, None);
      var fate := AnyFate();
      store.Write(Request(ApprovalRequest(id, row)), "", fate);
      assert fate.Applies? ==> Governs(store.ledger.live, node, id);
      o := if fate.Applies? then Done else if fate.TimesOut? then Raised else Dead;
    }

    /** `_task_approval_current`. */
    method TaskApprovalCurrent(n: string) returns (o: Outcome, current: bool)
      requires store.Valid() && OfKindTask(store.Work().nodes, n)
      modifies store, store.ledger
      ensures Quiet(old(store.acts), store.acts)
      ensures store.Valid() && store.Work() == old(store.Work())
      ensures store.m.cycle == old(store.m.cycle).(
        cleared := old(store.m.cycle.cleared) + if o.Done? && current then {n} else {})
      ensures o.Done? && !current ==> Ungoverned(store.ledger.live, n) || LatestIs(store.ledger.live, n, false)
      ensures o.Done? && current ==> LatestIs(store.ledger.live, n, true)
    {
      hide Legal, After, Fold, FoldExcept, LogOf, LiveOf, Tidied, SortableRun, TextLeq;
      var node := store.Work().nodes[n].node;
      var id := LatestApproval(node);
      if id.None? { return Done, false; }
      o := AssertCurrent(node, id.value);
      if !o.Done? { return o, false; }
      current := store.ledger.live.approvals[id.value].status.Approved?;
      assert Latest(store.ledger.live, node, id.value);
      if current { store.Take(ClearTask(n, id.value)); }
    }

    /** The status an approval's decision gives its node. */
    method ProjectDecision(n: string, id: string) returns (o: Outcome)
      requires store.Valid() && n in store.Work().nodes && store.Work().nodes[n].node.kind.Approval?
      requires Latest(store.ledger.live, store.Work().nodes[n].node, id) && id in store.ledger.live.approvals
      requires var row := store.ledger.live.approvals[id];
        row.scope == store.Work().nodes[n].node.scope || row.status.Stale?
      modifies store, store.ledger
      ensures Quiet(old(store.acts), store.acts)
      ensures store.Valid() && store.m.cycle == old(store.m.cycle)
      ensures store.ledger.live.approvals == old(store.ledger.live.approvals)
      ensures store.Work() == if o.Done?
        then MoveNode(old(store.Work()), n, Some(NodeStatusFor(old(store.ledger.live.approvals[id].status))), None)
        else old(store.Work())
    {
      hide Legal, After, Fold, FoldExcept, LogOf, LiveOf, Tidied, SortableRun, TextLeq, Latest;
      var fate := AnyFate();
      store.Write(Project(n, id), "", fate);
      o := if fate.Applies? then Done else if fate.TimesOut? then Raised else Dead;
    }

    /** One approval-kind node of `refresh_readiness`: its latest decision becomes its status. */
    method RefreshNode(n: string) returns (o: Outcome)
      requires store.Valid() && n in store.Work().nodes && store.Work().nodes[n].node.kind.Approval?
      requires store.Work().nodes[n].node.id == n
      modifies store, store.ledger
      ensures Quiet(old(store.acts), store.acts)
      ensures store.Valid() && store.m.cycle == old(store.m.cycle)
      ensures SameOthers(old(store.Work()), store.Work(), [n])
      ensures o.Done? ==> Refreshed(old(store.Work()), store.ledger.live, n)
      ensures OthersGoverned(old(store.ledger.live), store.ledger.live, n)
    {
      hide Legal, After, Fold, FoldExcept, LogOf, LiveOf, Tidied, SortableRun, TextLeq, Latest, Refreshed, Ungoverned;
      ghost var was := store.Work();
      var node := store.Work().nodes[n].node;
      var id := LatestApproval(node);
      if id.None? {
        NoDecision(was, store.ledger.live, n);
        return Done;
      }
      o := AssertCurrent(node, id.value);
      if !o.Done? { return; }
      ghost var asked := store.ledger.live;
      var status := NodeStatusFor(store.ledger.live.approvals[id.value].status);
      if status == store.Work().nodes[n].status {
        HasDecision(was, asked, asked, n, id.value);
        return Done;
      }
      o := ProjectDecision(n, id.value);
      if o.Done? { HasDecision(was, asked, store.ledger.live, n, id.value); }
    }

    method RefreshReadiness(graphId: string) returns (o: Outcome)
      requires store.Valid()
      modifies store, store.ledger
      ensures Quiet(old(store.acts), store.acts)
      ensures store.Valid() && store.m.cycle == old(store.m.cycle)
      ensures SameTasks(old(store.Work()), store.Work())
      ensures o.Done? ==>
        forall n :: n in NodeIds(store.Work(), graphId) && store.Work().nodes[n].node.kind.Approval? ==>
        Refreshed(old(store.Work()), store.ledger.live, n)
    {
      hide Legal, After, Fold, FoldExcept, LogOf, LiveOf, Tidied, SortableRun, TextLeq, Rules, Refreshed,
        OthersGoverned, SameOthers, Whole, Refreshing, SameTasks, IsBlock, IsPause;
      store.Governed();
      ghost var was := store.Work();
      ghost var ids := NodeIds(was, graphId);
      var rest := NodeIds(store.Work(), graphId);
      RefreshBegins(store.ledger.live, ids);
      while rest != {}
        invariant store.Valid() && store.m.cycle == old(store.m.cycle) && Quiet(old(store.acts), store.acts)
        invariant rest <= ids && Whole(was) && Refreshing(was, store.ledger.live, ids, rest)
      {
        var n :| n in rest;
        ghost var before, left, sofar := store.ledger.live, rest, store.acts;
        RefreshNext(was, before, ids, rest, n);
        rest := rest - {n};
        if store.Work().nodes[n].node.kind.Approval? {
          o := RefreshNode(n);
          QuietThen(old(store.acts), sofar, store.acts);
          if !o.Done? {
            RefreshStops(was, before, store.ledger.live, ids, left, n);
            return;
          }
          RefreshStep(was, before, store.ledger.live, ids, left, n);
        }
      }
      RefreshEnds(was, store.ledger.live, graphId);
      return Done;
    }

    /** `_unblock_task_nodes`: blocked non-approval nodes go back to pending, and no other status moves. */
    method UnblockTasks(graphId: string) returns (o: Outcome)
      requires store.Valid()
      modifies store, store.ledger
      ensures Quiet(old(store.acts), store.acts)
      ensures store.Valid()
      ensures SameGraphs(old(store.Work()), store.Work())
      ensures o.Done? ==> forall n :: n in store.Work().nodes ==>
        store.Work().nodes[n].status == UnblockedStatus(old(store.Work()), graphId, {}, n)
    {
      hide Legal, After, Fold, FoldExcept, LogOf, LiveOf, Tidied, SortableRun, TextLeq, Quiet, Unblocking, MoveNode;
      ghost var was := store.Work();
      var rest := NodeIds(store.Work(), graphId);
      QuietAtOnce(store.acts);
      UnblockBegins(was, graphId);
      while rest != {}
        invariant store.Valid() && Quiet(old(store.acts), store.acts)
        invariant rest <= NodeIds(was, graphId) && Unblocking(was, store.Work(), graphId, rest)
      {
        var n :| n in rest;
        ghost var before, sofar, left := store.Work(), store.acts, rest;
        UnblockNext(was, before, graphId, left, n);
        rest := rest - {n};
        var row := store.Work().nodes[n];
        if !row.node.kind.Approval? && row.status.Blocked? {
          o := MoveStatus(Unblock(n), row.version);
          OneQuietWrite(sofar, store.acts, Unblock(n));
          QuietThen(old(store.acts), sofar, store.acts);
          if !o.Done? {
            UnblockEnds(was, store.Work(), graphId, left);
            return;
          }
          UnblockStep(was, before, store.Work(), graphId, left, n);
        }
      }
      UnblockEnds(was, store.Work(), graphId, rest);
      return Done;
    }

    /** `ready_node_ids` over the stored graph. */
    method CalculateReadyNodes(graphId: string) returns (ready: seq<string>)
      requires store.Valid()
      modifies store
      ensures Quiet(old(store.acts), store.acts)
      ensures store.Valid() && store.Work() == old(store.Work())
      ensures store.m.cycle == NO_CYCLE.(ready := ReadySet(store.Work(), graphId))
      ensures forall n :: n in ready <==> n in ReadySet(store.Work(), graphId)
      ensures Ascending(ready)
    {
      hide Legal, After, Fold, FoldExcept, LogOf, LiveOf, Tidied, SortableRun, TextLeq, Rules, Whole, AllOrderable,
        Quiet, ReadySet;
      store.Governed();
      GraphOfIsWhole(store.Work(), graphId);
      ReadyAreNodes(store.Work(), graphId);
      ready := ReadyNodeIds(GraphOf(store.Work(), graphId), StatusesOf(store.Work(), graphId));
      store.Take(CalculateReady(graphId));
      OneQuietAct(old(store.acts), store.acts, CalculateReady(graphId));
    }

    /** The node is blocked and put on the run's list, then the graph paused; a failure may fall between the two. */
    method BlockAndPause(graphId: string, n: string, version: nat) returns (o: Outcome, listed: bool)
      requires store.Valid() && Dispatched(store.m, n) && graphId in store.Work().graphs
      modifies store, store.ledger
      ensures store.Valid() && store.m.cycle == old(store.m.cycle)
      ensures SameOthers(old(store.Work()), store.Work(), [n])
      ensures store.Work().attempts == old(store.Work().attempts)
      ensures StatusIs(store.Work(), n, if listed then NodeStatus.Blocked else old(store.Work().nodes[n].status))
      ensures o.Done? ==> listed && store.Work().graphs[graphId].status == GraphStatus.Paused
      ensures Ran(old(store.acts), store.acts, graphId, if listed then [n] else [],
                  if listed && !o.Done? then [n] else [])
    {
      hide Legal, After, Fold, FoldExcept, LogOf, LiveOf, Tidied, SortableRun, TextLeq, Ran;
      o := MoveStatus(Block(n), version);
      listed := o.Done?;
      if o.Done? {
        o := SetGraphStatus(graphId, GraphStatus.Paused);
        BlockRan(old(store.acts), n, graphId, store.acts, o.Done?);
      } else {
        LostBlockRan(old(store.acts), n, graphId, store.acts);
      }
    }

    /** `_independent_review_passes`. */
    method IndependentReviewPasses(n: string) returns (o: Outcome, passes: bool)
      requires store.Valid() && n in store.Work().nodes
      modifies store
      ensures Quiet(old(store.acts), store.acts)
      ensures store.Valid() && store.Work() == old(store.Work())
      ensures store.m.cycle == old(store.m.cycle).(
        reviewed := old(store.m.cycle.reviewed) + if o.Done? && passes then {n} else {})
    {
      hide Legal, After, Fold, FoldExcept, LogOf, LiveOf, Tidied, SortableRun, TextLeq;
      var node := store.Work().nodes[n].node;
      if node.reviewer.None? || node.needs == [] || node.reviewer.value == node.needs[0] { return Done, false; }
      o, passes := *, *;
      if o.Done? && passes { store.Take(PassReview(n)); }
    }

    // ----- calling a capability

    /** `_record_attempt`: the row is durable before the adapter is called. */
    method StartAttempt(graphId: string, n: string) returns (o: Outcome, id: string)
      requires store.Valid() && Dispatched(store.m, n) && OfKindTask(store.Work().nodes, n)
      requires Rows(store.Work().attempts, n) < Budget(store.Work().nodes[n].node)
      modifies store, store.ledger
      ensures Quiet(old(store.acts), store.acts)
      ensures store.Valid()
      ensures store.Work().(attempts := old(store.Work().attempts)) == old(store.Work())
      ensures o.Done? ==> store.m.cycle == old(store.m.cycle).(armed := Some(n))
      ensures o.Done? ==> id in store.Work().attempts && store.Work().attempts[id].nodeId == n
      ensures o.Done? ==> store.Work().attempts[id].state == "running"
      ensures o.Done? ==> Rows(store.Work().attempts, n) == old(Rows(store.Work().attempts, n)) + 1
      ensures !o.Done? ==> store.Work() == old(store.Work()) && store.m.cycle == old(store.m.cycle)
    {
      hide Legal, After, Fold, FoldExcept, LogOf, LiveOf, Tidied, SortableRun, TextLeq, PutAttempt, Rows, Quiet;
      store.FullIsFold();
      id := FreshId(Fold(store.ledger.log).work.attempts.Keys);
      var a := NewAttempt(id, graphId, n, Rows(store.Work().attempts, n) + 1);
      NewRow(store.Work(), a);
      AttemptAllowed(store.m, a);
      var fate := AnyFate();
      store.Write(Write.StartAttempt(a), "", fate);
      OneQuietWrite(old(store.acts), store.acts, Write.StartAttempt(a));
      o := if fate.Applies? then Done else if fate.TimesOut? then Raised else Dead;
    }

    /** `_finish_attempt`. */
    method FinishAttempt(graphId: string, n: string, id: string, state: string) returns (o: Outcome)
      requires store.Valid() && id in store.Work().attempts && store.Work().attempts[id].nodeId == n
      modifies store, store.ledger
      ensures Quiet(old(store.acts), store.acts)
      ensures store.Valid() && store.m.cycle == old(store.m.cycle)
      ensures store.Work().(attempts := old(store.Work().attempts)) == old(store.Work())
      ensures Rows(store.Work().attempts, n) == old(Rows(store.Work().attempts, n))
      ensures o.Done? ==> id in store.Work().attempts && store.Work().attempts[id].state == state
    {
      hide Legal, After, Fold, FoldExcept, LogOf, LiveOf, Tidied, SortableRun, TextLeq;
      var a := AttemptRecord(id, graphId, n, store.Work().attempts[id].attempt, None, state, None, "", None);
      AttemptRowAdded(store.Work(), a, "");
      var fate := AnyFate();
      store.Write(Write.FinishAttempt(a), "", fate);
      OneQuietWrite(old(store.acts), store.acts, Write.FinishAttempt(a));
      o := if fate.Applies? then Done else if fate.TimesOut? then Raised else Dead;
    }

    /** Gate, authorize, record the attempt, call the adapter, check what it delivered. */
    method CallAdapter(graphId: string, n: string, version: nat) returns (r: Called, listed: bool)
      requires store.Valid() && Dispatched(store.m, n) && OfKindTask(store.Work().nodes, n)
      requires Rows(store.Work().attempts, n) < Budget(store.Work().nodes[n].node)
      requires graphId in store.Work().graphs
      modifies store, store.ledger
      ensures store.Valid() && CycleGrew(old(store.m.cycle), store.m.cycle)
      ensures SameOthers(old(store.Work()), store.Work(), [n])
      ensures Rows(store.Work().attempts, n) <= old(Rows(store.Work().attempts, n)) + 1
      ensures !SettledIn(store.Work().nodes, n)
      ensures r.CallDelivered? ==> n in store.m.cycle.delivered
      ensures r.CallPaused? ==> listed
      ensures r.CallDelivered? ==> !listed
      ensures !r.CallLost? ==> Ran(old(store.acts), store.acts, graphId, if listed then [n] else [],
                                   if listed && !r.CallPaused? then [n] else [])
      ensures r.CallPaused? ==>
        StatusIs(store.Work(), n, NodeStatus.Blocked) && store.Work().graphs[graphId].status == GraphStatus.Paused
    {
      hide Legal, After, Fold, FoldExcept, LogOf, LiveOf, Tidied, SortableRun, TextLeq, Ran, Quiet;
      var node := store.Work().nodes[n].node;
      var gatesPass: bool := *;
      listed := false;
      QuietAtOnce(store.acts);
      QuietRan(store.acts, store.acts, graphId);
      if !gatesPass { return CallCaught, false; }
      OutsideWorld();
      QuietRan(old(store.acts), store.acts, graphId);
      ghost var asked := store.acts;
      var verdict: Verdict := *;
      var o: Outcome;
      if verdict.RequireApproval? {
        o, listed := BlockAndPause(graphId, n, version);
        QuietlyRan(old(store.acts), asked, store.acts, graphId, if listed then [n] else [],
                   if listed && !o.Done? then [n] else []);
        return if o.Done? then CallPaused else if o.Raised? then CallCaught else CallLost, listed;
      }
      if verdict.Deny? { return CallCaught, false; }
      r := RunAttempt(graphId, n);
      RanQuietly(old(store.acts), asked, store.acts, graphId, [], []);
    }

    /** One attempt: its row, the call, and the checks on what came back. */
    method RunAttempt(graphId: string, n: string) returns (r: Called)
      requires store.Valid() && Dispatched(store.m, n) && OfKindTask(store.Work().nodes, n)
      requires Rows(store.Work().attempts, n) < Budget(store.Work().nodes[n].node)
      modifies store, store.ledger
      ensures Quiet(old(store.acts), store.acts)
      ensures store.Valid() && CycleGrew(old(store.m.cycle), store.m.cycle)
      ensures store.Work().(attempts := old(store.Work().attempts)) == old(store.Work())
      ensures Rows(store.Work().attempts, n) <= old(Rows(store.Work().attempts, n)) + 1
      ensures r.CallDelivered? ==> n in store.m.cycle.delivered
      ensures !r.CallPaused?
    {
      hide Legal, After, Fold, FoldExcept, LogOf, LiveOf, Tidied, SortableRun, TextLeq, Rows, Quiet, SameOthers;
      var node := store.Work().nodes[n].node;
      var o, id := StartAttempt(graphId, n);
      if !o.Done? { return if o.Raised? then CallCaught else CallLost; }
      ghost var started := store.acts;
      store.Take(Call(n));
      OneQuietAct(started, store.acts, Call(n));
      QuietThen(old(store.acts), started, store.acts);
      ghost var called := store.acts;
      OutsideWorld();
      QuietThen(old(store.acts), called, store.acts);
      ghost var answered := store.acts;
      var result: AdapterResult := *;
      match result
      case Escapes => return CallLost;
      case Raises => return CallCaught;
      case NotOk =>
        o := FinishAttempt(graphId, n, id, "failed");
        QuietThen(old(store.acts), answered, store.acts);
        return if o.Dead? then CallLost else CallCaught;
      case Delivered(outputs, evidence, text) =>
        var complete :=
          (forall x :: x in node.expectedOutputs ==> x in outputs) && (node.evidenceRequired ==> evidence);
        o := FinishAttempt(graphId, n, id, if complete then "completed" else "failed");
        QuietThen(old(store.acts), answered, store.acts);
        ghost var finished := store.acts;
        if !o.Done? || !complete { return if o.Dead? then CallLost else CallCaught; }
        store.Take(Deliver(n, outputs, evidence));
        OneQuietAct(finished, store.acts, Deliver(n, outputs, evidence));
        QuietThen(old(store.acts), finished, store.acts);
        return CallDelivered(text);
    }

    /** The independent review; the node is blocked and the graph paused if it does not pass. */
    method ReviewOrPause(graphId: string, n: string, version: nat) returns (r: Option<Try>, listed: bool)
      requires store.Valid() && Dispatched(store.m, n) && graphId in store.Work().graphs
      modifies store, store.ledger
      ensures store.Valid() && CycleGrew(old(store.m.cycle), store.m.cycle)
      ensures SameOthers(old(store.Work()), store.Work(), [n])
      ensures store.Work().attempts == old(store.Work().attempts)
      ensures !SettledIn(store.Work().nodes, n) && r != Some(TryCompleted)
      ensures r.None? ==> store.Work() == old(store.Work()) && n in store.m.cycle.reviewed && !listed
      ensures r.Some? && r.value.TryPaused? ==> listed
      ensures !(r.Some? && r.value.TryLost?) ==>
        Ran(old(store.acts), store.acts, graphId, if listed then [n] else [],
            if listed && !(r.Some? && r.value.TryPaused?) then [n] else [])
      ensures r.Some? && r.value.TryPaused? ==>
        StatusIs(store.Work(), n, NodeStatus.Blocked) && store.Work().graphs[graphId].status == GraphStatus.Paused
    {
      hide Legal, After, Fold, FoldExcept, LogOf, LiveOf, Tidied, SortableRun, TextLeq, Ran, Quiet;
      var o, passes := IndependentReviewPasses(n);
      QuietRan(old(store.acts), store.acts, graphId);
      if !o.Done? { return Some(if o.Raised? then TryCaught else TryLost), false; }
      if passes { return None, false; }
      ghost var reviewed := store.acts;
      o, listed := BlockAndPause(graphId, n, version);
      QuietlyRan(old(store.acts), reviewed, store.acts, graphId, if listed then [n] else [],
                 if listed && !o.Done? then [n] else []);
      return Some(if o.Done? then TryPaused(Reason.Review) else if o.Raised? then TryCaught else TryLost), listed;
    }

    /** Record the output, get it reviewed if the node asks for that, complete the node. */
    method FinishNode(graphId: string, n: string, text: string) returns (r: Try, listed: bool)
      requires store.Valid() && Dispatched(store.m, n) && OfKindTask(store.Work().nodes, n)
      requires graphId in store.Work().graphs
      requires n in store.m.cycle.delivered
      requires store.Work().nodes[n].node.approvalRequired ==> n in store.m.cycle.cleared
      modifies store, store.ledger
      ensures store.Valid() && CycleGrew(old(store.m.cycle), store.m.cycle)
      ensures SameOthers(old(store.Work()), store.Work(), [n])
      ensures store.Work().attempts == old(store.Work().attempts)
      ensures r.TryCompleted? <==> StatusIs(store.Work(), n, NodeStatus.Completed)
      ensures !r.TryCompleted? ==> !SettledIn(store.Work().nodes, n)
      ensures r.TryPaused? ==> listed
      ensures r.TryCompleted? ==> !listed
      ensures !r.TryLost? ==> Ran(old(store.acts), store.acts, graphId, if listed then [n] else [],
                                  if listed && !r.TryPaused? then [n] else [])
      ensures r.TryPaused? ==>
        StatusIs(store.Work(), n, NodeStatus.Blocked) && store.Work().graphs[graphId].status == GraphStatus.Paused
    {
      hide Legal, After, Fold, FoldExcept, LogOf, LiveOf, Tidied, SortableRun, TextLeq, Ran, Quiet, MoveNode,
        SameOthers, CycleGrew;
      listed := false;
      ghost var was, cycle := store.Work(), store.m.cycle;
      Unmoved(was, cycle, n);
      var version := store.Work().nodes[n].version;
      var o := RecordOutput(n, text, version);
      QuietRan(old(store.acts), store.acts, graphId);
      if !o.Done? { return if o.Raised? then TryCaught else TryLost, false; }
      ghost var recorded, sofar := store.Work(), store.acts;
      OneMoved(was, recorded, n, None, Some(text));
      if store.Work().nodes[n].node.independentReview {
        var refused;
        refused, listed := ReviewOrPause(graphId, n, version + 1);
        OthersChain(was, recorded, store.Work(), n, cycle, cycle, store.m.cycle);
        if !(refused.Some? && refused.value.TryLost?) {
          QuietlyRan(old(store.acts), sofar, store.acts, graphId, if listed then [n] else [],
                     if listed && !(refused.Some? && refused.value.TryPaused?) then [n] else []);
        }
        if refused.Some? { return refused.value, listed; }
        CycleKeeps(cycle, store.m.cycle, n);
      }
      ghost var settled := store.acts;
      o := MoveStatus(Complete(n), version + 1);
      OneQuietWrite(settled, store.acts, Complete(n));
      RanQuietly(old(store.acts), settled, store.acts, graphId, [], []);
      if o.Done? {
        OneMoved(recorded, store.Work(), n, Some(NodeStatus.Completed), None);
        OthersThen(was, recorded, store.Work(), n);
      }
      return if o.Done? then TryCompleted else if o.Raised? then TryCaught else TryLost, false;
    }

    /** The bounded retry loop: attempts already on record count against the budget.  The node goes on the list once for
        the pause that ends the loop, if one does, and once for each pause write that failed and was caught, `caught`
        times in all; after such a one the loop simply tries again. */
    method InvokeWithRetry(graphId: string, n: string, version: nat, earlier: seq<string>)
      returns (r: Try, blocked: seq<string>, ghost caught: nat)
      requires store.Valid() && Dispatched(store.m, n) && OfKindTask(store.Work().nodes, n)
      requires graphId in store.Work().graphs
      requires store.Work().nodes[n].node.approvalRequired ==> n in store.m.cycle.cleared
      modifies store, store.ledger
      ensures store.Valid() && CycleGrew(old(store.m.cycle), store.m.cycle)
      ensures SameOthers(old(store.Work()), store.Work(), [n])
      ensures r.TryCompleted? <==> StatusIs(store.Work(), n, NodeStatus.Completed)
      ensures !r.TryCompleted? ==> !SettledIn(store.Work().nodes, n)
      ensures r.TryPaused? ==>
        StatusIs(store.Work(), n, NodeStatus.Blocked) && store.Work().graphs[graphId].status == GraphStatus.Paused
      ensures !r.TryLost? ==> blocked == earlier + Copies(n, caught + if r.TryPaused? then 1 else 0)
      ensures !r.TryLost? ==> Ran(old(store.acts), store.acts, graphId,
                                  Copies(n, caught + if r.TryPaused? then 1 else 0), Copies(n, caught))
    {
      hide Legal, After, Fold, FoldExcept, LogOf, LiveOf, Tidied, SortableRun, TextLeq, Rows, Budget, SameOthers,
        CycleGrew, Copies, Ran;
      ghost var was, cycle := store.Work(), store.m.cycle;
      Unmoved(was, cycle, n);
      blocked, caught := earlier, 0;
      NoCopies(earlier, n);
      QuietRan(store.acts, store.acts, graphId);
      assert Copies(n, 0) == [] by { NoCopies([], n); }
      var budget := Budget(store.Work().nodes[n].node);
      var done := Rows(store.Work().attempts, n);
      while done < budget
        invariant store.Valid() && CycleGrew(cycle, store.m.cycle)
        invariant SameOthers(was, store.Work(), [n])
        invariant !SettledIn(store.Work().nodes, n)
        invariant Rows(store.Work().attempts, n) <= done
        invariant blocked == earlier + Copies(n, caught)
        invariant Ran(old(store.acts), store.acts, graphId, Copies(n, caught), Copies(n, caught))
      {
        done := done + 1;
        OneMoreCopy(earlier, n, caught);
        ghost var before, during, sofar := store.Work(), store.m.cycle, store.acts;
        StillThere(was, before, n, graphId, cycle, during);
        var called, listed := CallAdapter(graphId, n, version);
        if !called.CallLost? {
          CopyRan(old(store.acts), sofar, store.acts, graphId, n, caught, listed, called.CallPaused?);
        }
        OthersChain(was, before, store.Work(), n, cycle, during, store.m.cycle);
        if listed { blocked := blocked + [n]; }
        match called
        case CallPaused => return TryPaused(Policy), blocked, caught;
        case CallLost => return TryLost, blocked, caught;
        case CallCaught =>
          if listed { caught := caught + 1; }
        case CallDelivered(text) =>
          before, during, sofar := store.Work(), store.m.cycle, store.acts;
          StillThere(was, before, n, graphId, cycle, during);
          r, listed := FinishNode(graphId, n, text);
          if !r.TryLost? { CopyRan(old(store.acts), sofar, store.acts, graphId, n, caught, listed, r.TryPaused?); }
          OthersChain(was, before, store.Work(), n, cycle, during, store.m.cycle);
          if listed { blocked := blocked + [n]; }
          if !r.TryCaught? { return; }
          if listed { caught := caught + 1; }
      }
      return TryCaught, blocked, caught;
    }

    // ----- the run loop

    /** Outside the retry loop a failed pause write ends the run. */
    method PauseOn(graphId: string, n: string, version: nat, reason: Reason, earlier: seq<string>)
      returns (d: Dispatch, blocked: seq<string>)
      requires store.Valid() && Dispatched(store.m, n) && graphId in store.Work().graphs
      modifies store, store.ledger
      ensures store.Valid() && store.m.cycle == old(store.m.cycle)
      ensures SameOthers(old(store.Work()), store.Work(), [n])
      ensures d == NodeBlocked(reason) || d.RunLost?
      ensures d.NodeBlocked? ==> blocked == earlier + Copies(n, 1)
      ensures d.NodeBlocked? ==> Ran(old(store.acts), store.acts, graphId, Copies(n, 1), [])
      ensures d.NodeBlocked? ==>
        StatusIs(store.Work(), n, NodeStatus.Blocked) && store.Work().graphs[graphId].status == GraphStatus.Paused
    {
      hide Legal, After, Fold, FoldExcept, LogOf, LiveOf, Tidied, SortableRun, TextLeq, SameOthers, Ran;
      var o, listed := BlockAndPause(graphId, n, version);
      blocked := if listed then earlier + [n] else earlier;
      assert Copies(n, 1) == [n];
      d := if o.Done? then NodeBlocked(reason) else RunLost;
    }

    /** A request exists before the run pauses for its decision. */
    method AskAndPause(graphId: string, n: string, version: nat, reason: Reason, earlier: seq<string>)
      returns (d: Dispatch, blocked: seq<string>)
      requires store.Valid() && Dispatched(store.m, n) && graphId in store.Work().graphs
      modifies store, store.ledger
      ensures store.Valid() && store.m.cycle == old(store.m.cycle)
      ensures SameOthers(old(store.Work()), store.Work(), [n])
      ensures d == NodeBlocked(reason) || d.RunLost?
      ensures d.NodeBlocked? ==> blocked == earlier + Copies(n, 1)
      ensures d.NodeBlocked? ==> Ran(old(store.acts), store.acts, graphId, Copies(n, 1), [])
      ensures d.NodeBlocked? ==>
        StatusIs(store.Work(), n, NodeStatus.Blocked) && store.Work().graphs[graphId].status == GraphStatus.Paused
    {
      hide Legal, After, Fold, FoldExcept, LogOf, LiveOf, Tidied, SortableRun, TextLeq, Copies, Ran, Quiet;
      var o := EnsureApprovalRequest(store.Work().nodes[n].node);
      if !o.Done? { return RunLost, earlier; }
      ghost var asked := store.acts;
      d, blocked := PauseOn(graphId, n, version, reason, earlier);
      if d.NodeBlocked? { QuietlyRan(old(store.acts), asked, store.acts, graphId, Copies(n, 1), []); }
    }

    /** One ready node, from its gates to its end. */
    method DispatchNode(graphId: string, n: string, earlier: seq<string>)
      returns (d: Dispatch, blocked: seq<string>, ghost caught: nat)
      requires store.Valid() && Dispatched(store.m, n) && graphId in store.Work().graphs
      modifies store, store.ledger
      ensures store.Valid() && store.m.cycle.ready == old(store.m.cycle.ready)
      ensures SameOthers(old(store.Work()), store.Work(), [n])
      ensures d.NodeCompleted? ==> OfKindTask(store.Work().nodes, n) && StatusIs(store.Work(), n, NodeStatus.Completed)
      ensures d.NodeBlocked? ==>
        StatusIs(store.Work(), n, NodeStatus.Blocked) && store.Work().graphs[graphId].status == GraphStatus.Paused
      ensures d.NodeFailed? ==>
        StatusIs(store.Work(), n, NodeStatus.Failed) && store.Work().graphs[graphId].status == GraphStatus.Failed
      ensures !d.RunLost? ==> blocked == earlier + Copies(n, caught + if d.NodeBlocked? then 1 else 0)
      ensures !d.RunLost? ==> Ran(old(store.acts), store.acts, graphId,
                                  Copies(n, caught + if d.NodeBlocked? then 1 else 0), Copies(n, caught))
    {
      hide Legal, After, Fold, FoldExcept, LogOf, LiveOf, Tidied, SortableRun, TextLeq, Copies, Ran, Quiet;
      NoCopies([], n);
      QuietAtOnce(store.acts);
      var node, version := store.Work().nodes[n].node, store.Work().nodes[n].version;
      var gated, current := node.kind.Approval?, true;
      var o := Done;
      blocked, caught := earlier, 0;
      if !gated && node.approvalRequired {
        o, current := TaskApprovalCurrent(n);
        QuietThen(old(store.acts), old(store.acts), store.acts);
        if !o.Done? { return RunLost, blocked, 0; }
      }
      if gated || !current {
        ghost var checked := store.acts;
        d, blocked := AskAndPause(graphId, n, version, if gated then ApprovalNode else ApprovalNeeded, earlier);
        if d.NodeBlocked? { QuietlyRan(old(store.acts), checked, store.acts, graphId, Copies(n, 1), []); }
        return d, blocked, 0;
      }
      ghost var cleared := store.acts;
      d, blocked, caught := ExecuteTask(graphId, n, version, earlier);
      if !d.RunLost? {
        QuietlyRan(old(store.acts), cleared, store.acts, graphId, Copies(n, caught + if d.NodeBlocked? then 1 else 0),
                   Copies(n, caught));
      }
    }

    /** A node that needs no capability and no review is complete as it stands. */
    method CompleteOutright(graphId: string, n: string, version: nat) returns (d: Dispatch)
      requires store.Valid() && Dispatched(store.m, n) && OfKindTask(store.Work().nodes, n)
      requires var node := store.Work().nodes[n].node;
        node.needs == [] && !node.independentReview && (node.approvalRequired ==> n in store.m.cycle.cleared)
      modifies store, store.ledger
      ensures Quiet(old(store.acts), store.acts)
      ensures store.Valid() && store.m.cycle == old(store.m.cycle)
      ensures SameOthers(old(store.Work()), store.Work(), [n])
      ensures d.NodeCompleted? || d.RunLost?
      ensures d.NodeCompleted? ==> StatusIs(store.Work(), n, NodeStatus.Completed)
    {
      hide Legal, After, Fold, FoldExcept, LogOf, LiveOf, Tidied, SortableRun, TextLeq;
      var o := MoveStatus(Complete(n), version);
      d := if o.Done? then NodeCompleted else RunLost;
    }

    /** A node whose approval, if it needs one, is current. */
    method ExecuteTask(graphId: string, n: string, version: nat, earlier: seq<string>)
      returns (d: Dispatch, blocked: seq<string>, ghost caught: nat)
      requires store.Valid() && Dispatched(store.m, n) && OfKindTask(store.Work().nodes, n)
      requires graphId in store.Work().graphs
      requires store.Work().nodes[n].node.approvalRequired ==> n in store.m.cycle.cleared
      modifies store, store.ledger
      ensures store.Valid() && store.m.cycle.ready == old(store.m.cycle.ready)
      ensures SameOthers(old(store.Work()), store.Work(), [n])
      ensures d.NodeCompleted? ==> StatusIs(store.Work(), n, NodeStatus.Completed)
      ensures d.NodeBlocked? ==>
        StatusIs(store.Work(), n, NodeStatus.Blocked) && store.Work().graphs[graphId].status == GraphStatus.Paused
      ensures d.NodeFailed? ==>
        StatusIs(store.Work(), n, NodeStatus.Failed) && store.Work().graphs[graphId].status == GraphStatus.Failed
      ensures !d.RunLost? ==> blocked == earlier + Copies(n, caught + if d.NodeBlocked? then 1 else 0)
      ensures !d.RunLost? ==> Ran(old(store.acts), store.acts, graphId,
                                  Copies(n, caught + if d.NodeBlocked? then 1 else 0), Copies(n, caught))
    {
      hide Legal, After, Fold, FoldExcept, LogOf, LiveOf, Tidied, SortableRun, TextLeq, Copies, SameOthers,
        WriteEnabled, Ran, Quiet;
      var node := store.Work().nodes[n].node;
      blocked, caught := earlier, 0;
      NoCopies(earlier, n);
      NoCopies([], n);
      if node.needs == [] {
        if node.independentReview {
          d, blocked := PauseOn(graphId, n, version, Reason.Review, earlier);
          return d, blocked, 0;
        }
        d := CompleteOutright(graphId, n, version);
        QuietRan(old(store.acts), store.acts, graphId);
        return d, blocked, 0;
      }
      var overBudget: bool := *;
      if overBudget {
        d, blocked := PauseOn(graphId, n, version, SpendingCap, earlier);
        return d, blocked, 0;
      }
      ghost var was, cycle := store.Work(), store.m.cycle;
      var t;
      t, blocked, caught := InvokeWithRetry(graphId, n, version, earlier);
      ghost var tried, sofar := store.Work(), store.acts;
      StillThere(was, tried, n, graphId, cycle, store.m.cycle);
      match t
      case TryCompleted => d := NodeCompleted;
      case TryPaused(reason) => d := NodeBlocked(reason);
      case TryLost => d := RunLost;
      case TryCaught =>
        d := FailNode(graphId, n);
        OthersThen(was, tried, store.Work(), n);
        RanQuietly(old(store.acts), sofar, store.acts, graphId, Copies(n, caught), Copies(n, caught));
    }

    /** The budget is spent: the node fails, and the graph with it. */
    method FailNode(graphId: string, n: string) returns (d: Dispatch)
      requires store.Valid() && Dispatched(store.m, n) && OfKindTask(store.Work().nodes, n)
      requires graphId in store.Work().graphs
      modifies store, store.ledger
      ensures Quiet(old(store.acts), store.acts)
      ensures store.Valid() && store.m.cycle.ready == old(store.m.cycle.ready)
      ensures SameOthers(old(store.Work()), store.Work(), [n])
      ensures d.NodeFailed? || d.RunLost?
      ensures d.NodeFailed? ==>
        StatusIs(store.Work(), n, NodeStatus.Failed) && store.Work().graphs[graphId].status == GraphStatus.Failed
    {
      hide Legal, After, Fold, FoldExcept, LogOf, LiveOf, Tidied, SortableRun, TextLeq, Quiet;
      var o: Outcome;
      QuietAtOnce(store.acts);
      if !store.Work().nodes[n].status.Failed? {
        o := MoveStatus(Fail(n), store.Work().nodes[n].version);
        OneQuietWrite(old(store.acts), store.acts, Fail(n));
        if !o.Done? { return RunLost; }
      }
      ghost var sofar := store.acts;
      o := SetGraphStatus(graphId, GraphStatus.Failed);
      OneQuietWrite(sofar, store.acts, Write.SetGraphStatus(graphId, GraphStatus.Failed));
      QuietThen(old(store.acts), sofar, store.acts);
      return if o.Done? then NodeFailed else RunLost;
    }

    /** Dispatches the ready nodes in order until one of them ends the run.  While the run goes on, its list of blocked
        nodes holds only nodes that completed after all. */
    method DispatchReady(graphId: string, ready: seq<string>, earlier: seq<string>, earlierBlocked: seq<string>)
      returns (completed: seq<string>, stop: Option<Summary>, blocked: seq<string>, ghost caught: seq<string>)
      requires store.Valid() && graphId in store.Work().graphs
      requires Listed(store.Work(), earlier) && Listed(store.Work(), earlierBlocked)
      requires Ascending(ready) && forall n :: n in ready ==>
        n in store.m.cycle.ready && n in store.Work().nodes && store.Work().nodes[n].status.Pending?
      modifies store, store.ledger
      ensures store.Valid()
      ensures SameOthers(old(store.Work()), store.Work(), ready)
      ensures earlier <= completed && (forall n :: n in completed[|earlier|..] ==> n in ready)
      ensures Listed(store.Work(), completed)
      ensures stop.None? ==> Listed(store.Work(), blocked) && forall n :: n in ready ==>
        OfKindTask(store.Work().nodes, n) && StatusIs(store.Work(), n, NodeStatus.Completed)
      ensures stop.Some? ==> !stop.value.Finished? && !stop.value.Deadlocked?
      ensures stop.Some? ==> SummaryOf(store.Work(), graphId, stop.value, caught)
      ensures stop.None? ==> caught == blocked
      ensures stop.Some? && !stop.value.Aborted? ==> stop.value.blocked == blocked
      ensures stop != Some(Aborted) ==> Continues(old(store.acts), store.acts, graphId, earlierBlocked, blocked, caught)
    {
      hide Legal, After, Fold, FoldExcept, LogOf, LiveOf, Tidied, SortableRun, TextLeq, Orderable,
        GraphOf, SameOthers, OfKindTask, StatusIs, Listed, Copies,
        TrueBlocked, Ran, Continues;
      ghost var before := store.Work();
      completed, stop, blocked, caught := earlier, None, earlierBlocked, earlierBlocked;
      var i := 0;
      NothingDispatched(before, ready);
      ContinuesHere(store.acts, graphId, earlierBlocked);
      assert earlier + ready[..0] == earlier;
      while i < |ready|
        invariant 0 <= i <= |ready| && store.Valid() && graphId in store.Work().graphs
        invariant store.m.cycle.ready == old(store.m.cycle.ready)
        invariant DispatchedUpTo(before, store.Work(), ready, i)
        invariant completed == earlier + ready[..i] && Listed(store.Work(), completed)
        invariant caught == blocked && Listed(store.Work(), blocked)
        invariant Continues(old(store.acts), store.acts, graphId, earlierBlocked, blocked, blocked)
      {
        var n := ready[i];
        ghost var mid, so, sofar := store.Work(), blocked, store.acts;
        NextIsPending(before, mid, ready, i);
        var d;
        ghost var times;
        d, blocked, times := DispatchNode(graphId, n, blocked);
        OneMoreDispatched(before, mid, store.Work(), ready, i);
        StillListed(before, store.Work(), earlier, ready, i);
        ListedSkips(mid, store.Work(), so, n);
        caught := so + Copies(n, times);
        if !d.RunLost? {
          ContinuesOn(old(store.acts), sofar, store.acts, graphId, earlierBlocked, so,
                      Copies(n, times + if d.NodeBlocked? then 1 else 0), Copies(n, times));
        }
        match d
        case NodeCompleted =>
          OneMoreListed(store.Work(), completed, n);
          CopiesListed(store.Work(), so, n, times);
          completed := completed + [n];
          assert ready[..i + 1] == ready[..i] + [n];
          i := i + 1;
        case NodeBlocked(reason) =>
          BlockedListIs(store.Work(), completed, so, n, reason, times);
          return completed, Some(Summary.Paused(completed, blocked, n, reason)), blocked, caught;
        case NodeFailed =>
          FailedListIs(store.Work(), completed, so, n, times);
          return completed, Some(FailedAt(completed, blocked, n)), blocked, caught;
        case RunLost =>
          return completed, Some(Aborted), blocked, caught;
      }
      NoneLeft(before, store.Work(), ready);
    }

    /** Whether every node of the graph is completed or skipped. */
    method AllDone(graphId: string) returns (all: bool)
      ensures all <==> AllSettledIn(store.Work(), graphId)
    {
      var t := store.Work();
      all := forall n :: n in NodeIds(t, graphId) ==> SettledIn(t.nodes, n);
    }

    /** `run`, and `resume`, which is the same.  It terminates whatever the environment does: each turn of the
        loop that does not return completes at least one pending non-approval node, and none becomes pending. */
    method Run(graphId: string) returns (s: Summary)
      requires store.Valid()
      modifies store, store.ledger
      ensures store.Valid() && SameGraphs(old(store.Work()), store.Work())
      ensures graphId !in old(store.Work().graphs) ==> s.Aborted?
      ensures !s.Aborted? ==> old(store.acts) <= store.acts
      ensures !s.Aborted? ==> TrueSummary(store.Work(), graphId, s, store.acts[|old(store.acts)|..])
      ensures store.m.cycle == NO_CYCLE
    {
      hide Legal, After, Fold, FoldExcept, LogOf, LiveOf, Tidied, SortableRun, TextLeq;
      s := RunLoop(graphId);
      ghost var done := store.acts;
      store.Take(Abort);
      if !s.Aborted? { AbortIsQuiet(old(store.acts), done, store.acts, store.Work(), graphId, s); }
    }

    method RunLoop(graphId: string) returns (s: Summary)
      requires store.Valid()
      modifies store, store.ledger
      ensures store.Valid() && SameGraphs(old(store.Work()), store.Work())
      ensures graphId !in old(store.Work().graphs) ==> s.Aborted?
      ensures !s.Aborted? ==> old(store.acts) <= store.acts
      ensures !s.Aborted? ==> TrueSummary(store.Work(), graphId, s, store.acts[|old(store.acts)|..])
    {
      hide Legal, After, Fold, FoldExcept, LogOf, LiveOf, Tidied, SortableRun, TextLeq, Orderable, GraphOf,
        ReadySet, Ran, Quiet, Continues;
      if graphId !in store.Work().graphs { return Aborted; }
      var o := UnblockTasks(graphId);
      if !o.Done? { return Aborted; }
      ghost var unblocked := store.acts;
      o := SetGraphStatus(graphId, GraphStatus.Running);
      if !o.Done? { return Aborted; }
      OneQuietWrite(unblocked, store.acts, Write.SetGraphStatus(graphId, GraphStatus.Running));
      QuietThen(old(store.acts), unblocked, store.acts);
      QuietRan(old(store.acts), store.acts, graphId);
      var completed, blocked := [], [];
      while true
        invariant store.Valid() && SameGraphs(old(store.Work()), store.Work())
        invariant Listed(store.Work(), completed) && Listed(store.Work(), blocked)
        invariant Ran(old(store.acts), store.acts, graphId, blocked, blocked)
        decreases PendingTasks(store.Work(), graphId)
      {
        ghost var turn, sofar, was := store.Work(), store.acts, blocked;
        OutsideWorld();
        ghost var outside := store.acts;
        o := RefreshReadiness(graphId);
        QuietThen(sofar, outside, store.acts);
        ghost var refreshed := store.acts;
        if !o.Done? { return Aborted; }
        ListedKept(turn, store.Work(), completed);
        ListedKept(turn, store.Work(), blocked);
        var ready := CalculateReadyNodes(graphId);
        QuietThen(sofar, refreshed, store.acts);
        RanQuietly(old(store.acts), sofar, store.acts, graphId, blocked, blocked);
        ghost var calculated := store.acts;
        if ready == [] {
          s := Conclude(graphId, completed, blocked);
          RanQuietly(old(store.acts), calculated, store.acts, graphId, blocked, blocked);
          SummaryIs(store.Work(), graphId, s, old(store.acts), store.acts, blocked, blocked);
          return s;
        }
        ghost var before := store.Work();
        ReadyArePending(before, graphId, ready);
        var stop;
        ghost var caught;
        completed, stop, blocked, caught := DispatchReady(graphId, ready, completed, blocked);
        if stop == Some(Aborted) { return Aborted; }
        ContinuesRan(old(store.acts), calculated, store.acts, graphId, was, blocked, caught);
        if stop.Some? {
          SummaryIs(store.Work(), graphId, stop.value, old(store.acts), store.acts, blocked, caught);
          return stop.value;
        }
        TurnShrinks(turn, before, store.Work(), graphId, ready);
      }
    }

    /** Nothing is ready: the graph is completed, or the run failed. */
    method Conclude(graphId: string, completed: seq<string>, blocked: seq<string>) returns (s: Summary)
      requires store.Valid() && graphId in store.Work().graphs
      requires ReadySet(store.Work(), graphId) == {}
      requires Listed(store.Work(), completed) && Listed(store.Work(), blocked)
      modifies store, store.ledger
      ensures Quiet(old(store.acts), store.acts)
      ensures store.Valid() && SameTasks(old(store.Work()), store.Work())
      ensures SummaryOf(store.Work(), graphId, s, blocked)
      ensures !s.Aborted? ==> s.blocked == blocked
    {
      hide Legal, After, Fold, FoldExcept, LogOf, LiveOf, Tidied, SortableRun, TextLeq, GraphOf, Rules,
        Orderable, AllSettledIn, SomeStuck, ReadySet, Whole, SameTasks,
        Listed, TrueBlocked;
      store.Governed();
      ghost var t := store.Work();
      var o;
      var all := AllDone(graphId);
      if all {
        o := SetGraphStatus(graphId, GraphStatus.Completed);
        SameNodesSameGraph(t, store.Work(), graphId);
        EndedListIs(store.Work(), completed, blocked);
        return if o.Done? then Finished(completed, blocked) else Aborted;
      }
      StuckNodesExist(t, graphId);
      o := SetGraphStatus(graphId, GraphStatus.Failed);
      SameNodesSameGraph(t, store.Work(), graphId);
      EndedListIs(store.Work(), completed, blocked);
      return if o.Done? then Deadlocked(completed, blocked) else Aborted;
    }
  }

  lemma ReadyAreNodes(t: WorkTables, graphId: string)
    ensures forall n :: n in ReadySet(t, graphId) ==> n in NodeIds(t, graphId)
  {
  }

  lemma ReadyArePending(t: WorkTables, graphId: string, ready: seq<string>)
    requires forall n :: n in ready <==> n in ReadySet(t, graphId)
    ensures forall n :: n in ready ==> n in ReadySet(t, graphId) && n in t.nodes && t.nodes[n].status.Pending?
    ensures forall n :: n in ready ==> t.nodes[n].node.graphId == graphId
  {
  }

  /** A full turn strictly shrinks the set of pending non-approval nodes. */
  lemma TurnShrinks(turn: WorkTables, before: WorkTables, now: WorkTables, graphId: string, ready: seq<string>)
    requires SameTasks(turn, before) && SameOthers(before, now, ready) && ready != []
    requires forall n :: n in ready ==>
      n in before.nodes && before.nodes[n].status.Pending? && before.nodes[n].node.graphId == graphId
    requires forall n :: n in ready ==> OfKindTask(now.nodes, n) && StatusIs(now, n, NodeStatus.Completed)
    ensures PendingTasks(now, graphId) < PendingTasks(turn, graphId)
  {
    assert ready[0] in PendingTasks(turn, graphId) && ready[0] !in PendingTasks(now, graphId);
    forall n | n in PendingTasks(now, graphId) ensures n in PendingTasks(turn, graphId) {
      assert n !in ready;
    }
  }

  lemma SameNodesSameGraph(t: WorkTables, u: WorkTables, graphId: string)
    requires u.nodes == t.nodes && u.edges == t.edges
    ensures GraphOf(u, graphId) == GraphOf(t, graphId) && NodeIds(u, graphId) == NodeIds(t, graphId)
    ensures Orderable(u, graphId) == Orderable(t, graphId)
    ensures forall ns :: Listed(t, ns) ==> Listed(u, ns)
    ensures AllSettledIn(u, graphId) == AllSettledIn(t, graphId) && SomeStuck(u, graphId) == SomeStuck(t, graphId)
  {
  }

  /** On an acyclic graph the run can only be stuck on a node that is neither pending, completed nor skipped. */
  lemma StuckNodesExist(t: WorkTables, graphId: string)
    requires Whole(t) && Orderable(t, graphId) && ReadySet(t, graphId) == {} && !AllSettledIn(t, graphId)
    ensures SomeStuck(t, graphId)
  {
    hide TextLeq;
    GraphOfIsWhole(t, graphId);
    var g, statuses := GraphOf(t, graphId), StatusesOf(t, graphId);
    if forall n :: n in NodeIds(t, graphId) ==> t.nodes[n].status.Pending? || SettledIn(t.nodes, n) {
      var order := OrderOfGraph(t, graphId);
      var n :| n in NodeIds(t, graphId) && !SettledIn(t.nodes, n);
      assert statuses[n].Pending?;
      AcyclicMakesProgress(g, statuses, order);
    }
  }

  /** An order of the stored rows is one of the graph read from them. */
  lemma OrderOfGraph(t: WorkTables, graphId: string) returns (order: seq<string>)
    requires Whole(t) && Orderable(t, graphId)
    ensures FinishOrder(Ids(GraphOf(t, graphId).nodes), GraphOf(t, graphId).edges, order)
  {
    hide FinishOrder, TextLeq;
    GraphOfIsWhole(t, graphId);
    var g := GraphOf(t, graphId);
    order :| OrderedBy(NodeIds(t, graphId), EdgePairs(t, graphId), order);
    var listed: seq<Edge> :| (forall e :: e in listed <==> e in EdgePairs(t, graphId))
      && FinishOrder(Ids(g.nodes), listed, order);
    forall e ensures e in g.edges <==> e in listed {
      assert e in listed <==> e in EdgePairs(t, graphId);
      assert EdgeRow(graphId, e.0, e.1) in t.edges ==> e in EdgePairs(t, graphId);
    }
    SameEdgesSameOrder(Ids(g.nodes), listed, g.edges, order);
  }

  lemma SameEdgesSameOrder(ids: set<string>, a: seq<Edge>, b: seq<Edge>, order: seq<string>)
    requires FinishOrder(ids, a, order) && forall e :: e in a <==> e in b
    ensures FinishOrder(ids, b, order)
  {
    forall j | 0 <= j < |order| ensures TargetsFirst(b, order, j) {
      assert TargetsFirst(a, order, j);
    }
  }

  /** Part-way through the ready list: the first `i` nodes are completed tasks, the others untouched. */
  ghost predicate DispatchedUpTo(before: WorkTables, now: WorkTables, ready: seq<string>, i: nat) {
    && SameOthers(before, now, ready[..if i <= |ready| then i else |ready|])
    && (forall k :: 0 <= k < i && k < |ready| ==>
      OfKindTask(now.nodes, ready[k]) && StatusIs(now, ready[k], NodeStatus.Completed))
  }

  lemma NothingDispatched(before: WorkTables, ready: seq<string>)
    ensures DispatchedUpTo(before, before, ready, 0)
  {
  }

  lemma NextIsPending(before: WorkTables, now: WorkTables, ready: seq<string>, i: nat)
    requires DispatchedUpTo(before, now, ready, i) && i < |ready|
    requires forall j, k :: 0 <= j < k < |ready| ==> ready[j] != ready[k]
    requires ready[i] in before.nodes && before.nodes[ready[i]].status.Pending?
    ensures ready[i] in now.nodes && now.nodes[ready[i]].status.Pending? && !SettledIn(now.nodes, ready[i])
    ensures now.graphs.Keys == before.graphs.Keys
  {
    assert ready[i] !in ready[..i];
  }

  lemma OneMoreDispatched(before: WorkTables, mid: WorkTables, now: WorkTables, ready: seq<string>, i: nat)
    requires DispatchedUpTo(before, mid, ready, i) && i < |ready| && SameOthers(mid, now, [ready[i]])
    requires forall j, k :: 0 <= j < k < |ready| ==> ready[j] != ready[k]
    ensures SameOthers(before, now, ready) && now.graphs.Keys == before.graphs.Keys
    ensures forall n :: n in ready[..i] ==>
      n in ready && OfKindTask(now.nodes, n) && StatusIs(now, n, NodeStatus.Completed)
    ensures OfKindTask(now.nodes, ready[i]) && StatusIs(now, ready[i], NodeStatus.Completed) ==>
      DispatchedUpTo(before, now, ready, i + 1)
  {
    assert ready[..i + 1] == ready[..i] + [ready[i]];
    forall n | n in before.nodes && n !in ready[..i + 1] ensures now.nodes[n].status == before.nodes[n].status {
      assert n !in [ready[i]];
    }
    forall k | 0 <= k < i
      ensures OfKindTask(now.nodes, ready[k]) && StatusIs(now, ready[k], NodeStatus.Completed)
    {
      assert ready[k] !in [ready[i]];
    }
  }

  /** What was listed as completed stays so while pending nodes are dispatched. */
  lemma StillListed(before: WorkTables, now: WorkTables, earlier: seq<string>, ready: seq<string>, i: nat)
    requires Listed(before, earlier) && SameOthers(before, now, ready) && i <= |ready|
    requires forall n :: n in ready ==> n in before.nodes && before.nodes[n].status.Pending?
    requires forall n :: n in ready[..i] ==> OfKindTask(now.nodes, n) && StatusIs(now, n, NodeStatus.Completed)
    ensures Listed(now, earlier + ready[..i])
  {
  }

  lemma OneMoreListed(t: WorkTables, completed: seq<string>, n: string)
    requires Listed(t, completed) && OfKindTask(t.nodes, n) && StatusIs(t, n, NodeStatus.Completed)
    ensures Listed(t, completed + [n])
  {
  }

  lemma ListedKept(t: WorkTables, u: WorkTables, completed: seq<string>)
    requires Listed(t, completed) && SameTasks(t, u)
    ensures Listed(u, completed)
  {
  }

  lemma NoneLeft(before: WorkTables, now: WorkTables, ready: seq<string>)
    requires DispatchedUpTo(before, now, ready, |ready|)
    ensures SameOthers(before, now, ready)
    ensures forall n :: n in ready ==> OfKindTask(now.nodes, n) && StatusIs(now, n, NodeStatus.Completed)
  {
    assert ready[..|ready|] == ready;
  }

  /** Non-approval nodes, all completed. */
  predicate Listed(t: WorkTables, completed: seq<string>) {
    forall n :: n in completed ==> OfKindTask(t.nodes, n) && StatusIs(t, n, NodeStatus.Completed)
  }

  predicate AllSettledIn(t: WorkTables, graphId: string) {
    forall n :: n in NodeIds(t, graphId) ==> SettledIn(t.nodes, n)
  }

  /** Some node is neither pending, completed nor skipped. */
  predicate SomeStuck(t: WorkTables, graphId: string) {
    exists n :: n in NodeIds(t, graphId) && !t.nodes[n].status.Pending? && !SettledIn(t.nodes, n)
  }

  // ----- the run's list of blocked nodes

  function Copies(n: string, times: nat): seq<string> {
    seq(times, _ => n)
  }

  lemma NoCopies(earlier: seq<string>, n: string)
    ensures earlier + Copies(n, 0) == earlier
  {
  }

  lemma OneMoreCopy(earlier: seq<string>, n: string, times: nat)
    ensures earlier + Copies(n, times) + [n] == earlier + Copies(n, times + 1)
  {
  }

  /** One more try at a node blocked `times` times so far without a pause. */
  lemma CopyRan(a: seq<Act>, b: seq<Act>, c: seq<Act>, graphId: string, n: string, times: nat, listed: bool,
                paused: bool)
    requires Ran(a, b, graphId, Copies(n, times), Copies(n, times))
    requires Ran(b, c, graphId, if listed then [n] else [], if listed && !paused then [n] else [])
    ensures Ran(a, c, graphId, Copies(n, times + if listed then 1 else 0),
                Copies(n, times + if listed && !paused then 1 else 0))
  {
    hide Ran;
    RanThen(a, b, c, graphId, Copies(n, times), Copies(n, times), if listed then [n] else [],
            if listed && !paused then [n] else []);
    assert Copies(n, times) + [n] == Copies(n, times + 1) && Copies(n, times) + [] == Copies(n, times);
  }

  lemma ListedSkips(t: WorkTables, u: WorkTables, ns: seq<string>, n: string)
    requires Listed(t, ns) && SameOthers(t, u, [n]) && n in t.nodes && t.nodes[n].status.Pending?
    ensures Listed(u, ns)
  {
  }

  lemma CopiesListed(t: WorkTables, ns: seq<string>, n: string, times: nat)
    requires Listed(t, ns) && OfKindTask(t.nodes, n) && StatusIs(t, n, NodeStatus.Completed)
    ensures Listed(t, ns + Copies(n, times))
  {
  }

  lemma BlockedListIs(t: WorkTables, completed: seq<string>, ns: seq<string>, n: string, reason: Reason, times: nat)
    requires Listed(t, ns) && StatusIs(t, n, NodeStatus.Blocked)
    ensures TrueBlocked(t, Summary.Paused(completed, ns + Copies(n, times + 1), n, reason), ns + Copies(n, times))
  {
    OneMoreCopy(ns, n, times);
  }

  lemma FailedListIs(t: WorkTables, completed: seq<string>, ns: seq<string>, n: string, times: nat)
    requires Listed(t, ns) && StatusIs(t, n, NodeStatus.Failed)
    ensures TrueBlocked(t, FailedAt(completed, ns + Copies(n, times), n), ns + Copies(n, times))
  {
  }

  lemma EndedListIs(t: WorkTables, completed: seq<string>, blocked: seq<string>)
    requires Listed(t, blocked)
    ensures TrueBlocked(t, Finished(completed, blocked), blocked)
    ensures TrueBlocked(t, Deadlocked(completed, blocked), blocked)
  {
  }

  /** The list holds the nodes of `caught` and the node the run paused on; only that last one is blocked. */
  ghost predicate TrueBlocked(t: WorkTables, s: Summary, caught: seq<string>)
    requires !s.Aborted?
  {
    && s.blocked == caught + (if s.Paused? then [s.on] else [])
    && forall n :: n in s.blocked ==> (StatusIs(t, n, NodeStatus.Blocked) <==> s.Paused? && n == s.on)
  }

  /** What the summary of a run that took `acts` says: of the tables, and of the nodes it blocked on the way. */
  ghost predicate TrueSummary(t: WorkTables, graphId: string, s: Summary, acts: seq<Act>) {
    SummaryOf(t, graphId, s, Unpaused(acts, graphId)) && (!s.Aborted? ==> s.blocked == Blocks(acts))
  }

  predicate AllBlocked(t: WorkTables, ns: seq<string>) {
    forall n :: n in ns ==> StatusIs(t, n, NodeStatus.Blocked)
  }

  /** The run paused, and on nothing else. */
  predicate PausedOnThese(s: Summary, ns: seq<string>) {
    forall n :: n in ns ==> s.Paused? && n == s.on
  }

  /** So every node a run lists as blocked is blocked exactly when each block write that the graph was not paused after
      concerned the node the run paused on in the end; in particular when there was none. */
  lemma ListedAreBlockedIff(t: WorkTables, graphId: string, s: Summary, acts: seq<Act>)
    requires TrueSummary(t, graphId, s, acts) && !s.Aborted?
    ensures s.blocked == Blocks(acts)
    ensures AllBlocked(t, s.blocked) <==> PausedOnThese(s, Unpaused(acts, graphId))
  {
    hide Listed;
    CaughtDecides(t, s, Unpaused(acts, graphId));
  }

  lemma CaughtDecides(t: WorkTables, s: Summary, caught: seq<string>)
    requires !s.Aborted? && TrueBlocked(t, s, caught)
    ensures AllBlocked(t, s.blocked) <==> PausedOnThese(s, caught)
  {
    assert forall n :: n in caught ==> n in s.blocked;
  }

  lemma SummaryIs(t: WorkTables, graphId: string, s: Summary, before: seq<Act>, after: seq<Act>, blocked: seq<string>,
                  caught: seq<string>)
    requires SummaryOf(t, graphId, s, caught) && (!s.Aborted? ==> s.blocked == blocked)
    requires Ran(before, after, graphId, blocked, caught)
    ensures before <= after && TrueSummary(t, graphId, s, after[|before|..])
  {
    hide SummaryOf;
  }

  lemma AbortIsQuiet(before: seq<Act>, done: seq<Act>, after: seq<Act>, t: WorkTables, graphId: string, s: Summary)
    requires before <= done && after == done + [Abort]
    ensures before <= after
    ensures TrueSummary(t, graphId, s, done[|before|..]) ==> TrueSummary(t, graphId, s, after[|before|..])
  {
    var acts := done[|before|..];
    assert after[|before|..] == acts + [Abort] && (acts + [Abort])[..|acts|] == acts;
  }

  /** The run went on: it blocked the nodes the list gained, and of those it did not pause on the ones `caught`
      gained. */
  ghost predicate Continues(before: seq<Act>, after: seq<Act>, graphId: string, earlier: seq<string>,
                            blocked: seq<string>, caught: seq<string>)
  {
    earlier <= blocked && earlier <= caught && Ran(before, after, graphId, blocked[|earlier|..], caught[|earlier|..])
  }

  lemma ContinuesHere(acts: seq<Act>, graphId: string, earlier: seq<string>)
    ensures Continues(acts, acts, graphId, earlier, earlier, earlier)
  {
    QuietRan(acts, acts, graphId);
    assert earlier[|earlier|..] == [];
  }

  lemma ContinuesOn(a: seq<Act>, b: seq<Act>, c: seq<Act>, graphId: string, earlier: seq<string>, blocked: seq<string>,
                    listed: seq<string>, caught: seq<string>)
    requires Continues(a, b, graphId, earlier, blocked, blocked) && Ran(b, c, graphId, listed, caught)
    ensures Continues(a, c, graphId, earlier, blocked + listed, blocked + caught)
  {
    hide Ran;
    var now := blocked[|earlier|..];
    RanThen(a, b, c, graphId, now, now, listed, caught);
    assert (blocked + listed)[|earlier|..] == now + listed && (blocked + caught)[|earlier|..] == now + caught;
  }

  lemma ContinuesRan(a: seq<Act>, b: seq<Act>, c: seq<Act>, graphId: string, earlier: seq<string>, blocked: seq<string>,
                     caught: seq<string>)
    requires Ran(a, b, graphId, earlier, earlier) && Continues(b, c, graphId, earlier, blocked, caught)
    ensures Ran(a, c, graphId, blocked, caught)
  {
    hide Ran;
    RanThen(a, b, c, graphId, earlier, earlier, blocked[|earlier|..], caught[|earlier|..]);
    assert earlier + blocked[|earlier|..] == blocked && earlier + caught[|earlier|..] == caught;
  }

  lemma QuietAtOnce(acts: seq<Act>)
    ensures Quiet(acts, acts)
  {
  }

  /** Such a pass: the node is blocked, the write that should pause the graph is refused, and the retry goes through.
      Any run that has dispatched a plain node can go on like that; the node is then listed as blocked and completed. */
  lemma BlockedThenCompleted(acts: seq<Act>, n: string, a: AttemptRecord, at: string) returns (more: seq<Act>)
    requires Legal(acts) && WriteEnabled(After(acts), Write.StartAttempt(a)) && a.nodeId == n
    requires var node := After(acts).live.work.nodes[n].node;
      !node.approvalRequired && !node.independentReview && node.needs != []
    ensures more == acts + RetriedActs(After(acts), n, a, at)
    ensures Legal(more) && StatusIs(After(more).live.work, n, NodeStatus.Completed)
  {
    var m := After(acts);
    var outputs := OutputsOf(m, n);
    hide *;
    PlainBlocks(m, a, at);
    more := Grow(acts, Writing(Block(n), at, false));
    PlainStarts(After(more), a, at, outputs);
    more := Grow(more, Writing(Write.StartAttempt(a), at, false));
    PlainCalls(After(more), n, outputs);
    more := Grow(more, Call(n));
    PlainDelivers(After(more), n, outputs);
    more := Grow(more, Deliver(n, outputs, true));
    PlainCompletes(After(more), n, outputs, at);
    more := Grow(more, Writing(Complete(n), at, false));
    RetriedIs(acts, m, n, a, at);
  }

  function OutputsOf(m: Machine, n: string): set<string>
    requires n in m.live.work.nodes
  {
    set o | o in m.live.work.nodes[n].node.expectedOutputs
  }

  /** Block, then without a pause the next attempt, its call, its delivery and the completion. */
  function RetriedActs(m: Machine, n: string, a: AttemptRecord, at: string): seq<Act>
    requires n in m.live.work.nodes
  {
    [Writing(Block(n), at, false), Writing(Write.StartAttempt(a), at, false),
      Call(n), Deliver(n, OutputsOf(m, n), true),
     Writing(Complete(n), at, false)]
  }

  lemma RetriedIs(acts: seq<Act>, m: Machine, n: string, a: AttemptRecord, at: string)
    requires n in m.live.work.nodes
    ensures acts + RetriedActs(m, n, a, at) ==
      acts + [Writing(Block(n), at, false)] + [Writing(Write.StartAttempt(a), at, false)] + [Call(n)] +
      [Deliver(n, OutputsOf(m, n), true)] + [Writing(Complete(n), at, false)]
  {
  }

  /** A dispatched node of kind task, with a capability, that needs neither approval nor review. */
  ghost predicate PlainTask(m: Machine, n: string, outputs: set<string>) {
    && Dispatched(m, n) && OfKindTask(m.live.work.nodes, n)
    && var node := m.live.work.nodes[n].node;
      && !node.approvalRequired && !node.independentReview && node.needs != []
      && (forall o :: o in node.expectedOutputs ==> o in outputs)
  }

  lemma PlainBlocks(m: Machine, a: AttemptRecord, at: string)
    requires WriteEnabled(m, Write.StartAttempt(a))
    requires var node := m.live.work.nodes[a.nodeId].node;
      !node.approvalRequired && !node.independentReview && node.needs != []
    ensures a.nodeId in m.live.work.nodes
    ensures var block := Writing(Block(a.nodeId), at, false);
      && Enabled(m, block) && WriteEnabled(Do(m, block), Write.StartAttempt(a))
      && PlainTask(Do(m, block), a.nodeId, OutputsOf(m, a.nodeId))
  {
    hide Rows;
  }

  lemma PlainStarts(m: Machine, a: AttemptRecord, at: string, outputs: set<string>)
    requires WriteEnabled(m, Write.StartAttempt(a)) && PlainTask(m, a.nodeId, outputs)
    ensures var start := Writing(Write.StartAttempt(a), at, false);
      Enabled(m, start) && Do(m, start).cycle.armed == Some(a.nodeId) && PlainTask(Do(m, start), a.nodeId, outputs)
  {
    hide Rows;
    PutAttemptNodes(m.live.work, a, at);
    hide PutAttempt;
  }

  lemma PlainCalls(m: Machine, n: string, outputs: set<string>)
    requires m.cycle.armed == Some(n) && PlainTask(m, n, outputs)
    ensures Enabled(m, Call(n)) && n in Do(m, Call(n)).cycle.called && PlainTask(Do(m, Call(n)), n, outputs)
  {
  }

  lemma PlainDelivers(m: Machine, n: string, outputs: set<string>)
    requires n in m.cycle.called && PlainTask(m, n, outputs)
    ensures Enabled(m, Deliver(n, outputs, true))
    ensures var next := Do(m, Deliver(n, outputs, true)); n in next.cycle.delivered && PlainTask(next, n, outputs)
  {
  }

  lemma PlainCompletes(m: Machine, n: string, outputs: set<string>, at: string)
    requires n in m.cycle.delivered && PlainTask(m, n, outputs)
    ensures Enabled(m, Writing(Complete(n), at, false))
    ensures StatusIs(Do(m, Writing(Complete(n), at, false)).live.work, n, NodeStatus.Completed)
  {
  }

  lemma Grow(acts: seq<Act>, a: Act) returns (more: seq<Act>)
    requires Legal(acts) && Enabled(After(acts), a)
    ensures more == acts + [a] && Legal(more) && After(more) == Do(After(acts), a)
  {
    more := acts + [a];
    Extend(acts, a);
  }

  /** What a summary says of the tables. */
  ghost predicate SummaryOf(t: WorkTables, graphId: string, s: Summary, caught: seq<string>) {
    graphId in t.graphs && (s.Aborted? || (Listed(t, s.completed) && TrueBlocked(t, s, caught))) &&
    match s
    case Finished(_, _) =>
      t.graphs[graphId].status == GraphStatus.Completed && AllSettledIn(t, graphId)
    case Deadlocked(_, _) =>
      t.graphs[graphId].status == GraphStatus.Failed && SomeStuck(t, graphId)
    case Paused(_, _, n, _) => t.graphs[graphId].status == GraphStatus.Paused && StatusIs(t, n, NodeStatus.Blocked)
    case FailedAt(_, _, n) => t.graphs[graphId].status == GraphStatus.Failed && StatusIs(t, n, NodeStatus.Failed)
    case Aborted => true
  }
}
