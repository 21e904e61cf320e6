/** Safety of every run: what holds after any sequence of supervisor passes, resumes,
    crashes, replays and human decisions. */
module GovernedRuns {
  import opened Common
  import opened Projections
  import opened Readiness
  import opened Governance
  import Compiler

  /** `acts` can be taken one after the other from the empty project. */
  ghost predicate Legal(acts: seq<Act>)
    decreases |acts|, 0
  {
    acts == [] || (Legal(acts[..|acts| - 1]) && Enabled(After(acts[..|acts| - 1]), acts[|acts| - 1]))
  }

  ghost function After(acts: seq<Act>): Machine
    requires Legal(acts)
    decreases |acts|, 1
  {
    if acts == [] then INITIAL else Do(After(acts[..|acts| - 1]), acts[|acts| - 1])
  }

  lemma Extend(acts: seq<Act>, a: Act)
    requires Legal(acts) && Enabled(After(acts), a)
    ensures Legal(acts + [a]) && After(acts + [a]) == Do(After(acts), a)
  {
    assert (acts + [a])[..|acts|] == acts;
  }

  /** Every graph of the run was planned in order. */
  ghost predicate Tidied(acts: seq<Act>)
    requires Legal(acts)
    decreases |acts|
  {
    acts == [] || (Tidied(acts[..|acts| - 1]) && InPlace(After(acts[..|acts| - 1]), acts[|acts| - 1]))
  }

  lemma TidyExtends(acts: seq<Act>, a: Act)
    requires Legal(acts) && Enabled(After(acts), a) && Tidied(acts) && InPlace(After(acts), a)
    ensures Legal(acts + [a]) && Tidied(acts + [a])
  {
    Extend(acts, a);
    hide InPlace, Enabled, After;
    assert (acts + [a])[..|acts|] == acts;
  }

  lemma LastAct(acts: seq<Act>)
    requires Legal(acts) && acts != []
    ensures var init, a := acts[..|acts| - 1], acts[|acts| - 1];
      && Legal(init) && Enabled(After(init), a) && After(acts) == Do(After(init), a)
      && (Tidied(acts) <==> Tidied(init) && InPlace(After(init), a))
  {
    hide Enabled, Do, InPlace;
  }

  lemma {:induction false} RunKeepsFold(acts: seq<Act>)
    requires Legal(acts)
    ensures Folded(After(acts))
    decreases |acts|
  {
    if acts == [] {
      InvInitial();
    } else {
      var before, a := acts[..|acts| - 1], acts[|acts| - 1];
      RunKeepsFold(before);
      ActKeepsFold(After(before), a);
    }
  }

  lemma {:induction false} RunKeepsInv(acts: seq<Act>)
    requires Legal(acts) && Tidied(acts)
    ensures Inv(After(acts))
    decreases |acts|
  {
    if acts == [] {
      InvInitial();
    } else {
      hide *;
      LastAct(acts);
      var before, a := acts[..|acts| - 1], acts[|acts| - 1];
      RunKeepsInv(before);
      OneMoreAct(After(before), a);
    }
  }

  lemma OneMoreAct(m: Machine, a: Act)
    requires Inv(m) && Enabled(m, a) && InPlace(m, a)
    ensures Inv(Do(m, a))
  {
    hide Folded, Rules, Enabled, InPlace, Do;
    ActKeepsRules(m, a);
    ActKeepsFold(m, a);
  }

  /** For every edge between two non-approval nodes a completed target has a completed or skipped source,
      in the live tables and in those a replay would rebuild. */
  lemma CompletionFollowsOrder(acts: seq<Act>, e: EdgeRow)
    requires Legal(acts) && Tidied(acts)
    ensures var m := After(acts);
      e in m.live.work.edges && Binds(m.live.work.nodes, e) ==> SettledIn(m.live.work.nodes, e.src)
    ensures var m := After(acts);
      e in m.full.work.edges && Binds(m.full.work.nodes, e) ==> SettledIn(m.full.work.nodes, e.src)
  {
    RunKeepsInv(acts);
    var m := After(acts);
    if e in m.live.work.edges && Binds(m.live.work.nodes, e) {
      assert SettledIn(m.live.work.nodes, e.dst);
      assert Binds(m.full.work.nodes, e);
    }
    if e in m.full.work.edges && Binds(m.full.work.nodes, e) {
      assert SettledIn(m.live.work.nodes, e.src) && OfKindTask(m.live.work.nodes, e.src);
    }
  }

  /** Across any number of runs, resumes, crashes and replays a node's capability is called at most
      max(1, max_attempts) times. */
  lemma CallsAreBounded(acts: seq<Act>, n: string)
    requires Legal(acts) && Tidied(acts)
    ensures var m := After(acts);
      CallsOf(m.calls, n) > 0 ==> n in m.live.work.nodes && CallsOf(m.calls, n) <= Budget(m.live.work.nodes[n].node)
  {
    RunKeepsInv(acts);
  }

  // ----- approvals

  predicate About(e: Event, id: string) {
    match e.content
    case OfApproval(Requested(Some(r))) => r.id == id
    case OfApproval(Decided(Some(d))) => d.id == id
    case OfApproval(Staled(Some(a))) => a == id
    case _ => false
  }

  predicate HumanApproval(e: Event, id: string) {
    match e.content
    case OfApproval(Decided(Some(d))) => d.id == id && d.actor == "human" && d.decision.Approved?
    case _ => false
  }

  /** The last applied event about the approval is a human's approving decision. */
  ghost predicate ApprovedByHuman(log: seq<Event>, lost: set<nat>, id: string) {
    exists i :: 0 <= i < |log| && i !in lost && HumanApproval(log[i], id) && NothingLater(log, lost, id, i)
  }

  ghost predicate NothingLater(log: seq<Event>, lost: set<nat>, id: string, i: nat) {
    forall k :: i < k < |log| && k !in lost ==> !About(log[k], id)
  }

  /** What the approval service ever appends. */
  predicate ServiceMade(e: Event) {
    match e.content
    case OfApproval(Requested(Some(r))) => r.row.status.Pending?
    case OfApproval(Decided(Some(d))) => d.actor == "human"
    case _ => true
  }

  lemma {:induction false} RunsAreServiceMade(acts: seq<Act>)
    requires Legal(acts)
    ensures forall e :: e in After(acts).log ==> ServiceMade(e)
    decreases |acts|
  {
    if acts != [] { RunsAreServiceMade(acts[..|acts| - 1]); }
  }

  function StatusOfApproval(t: Tables, id: string): Option<ApprovalStatus> {
    if id in t.approvals then Some(t.approvals[id].status) else None
  }

  lemma UnrelatedEvent(t: Tables, e: Event, id: string)
    requires !About(e, id)
    ensures StatusOfApproval(Apply(t, e), id) == StatusOfApproval(t, id)
  {
  }

  lemma {:induction false} ApprovedMeansHuman(log: seq<Event>, lost: set<nat>, id: string)
    requires forall e :: e in log ==> ServiceMade(e)
    requires StatusOfApproval(FoldExcept(log, lost), id) == Some(ApprovalStatus.Approved)
    ensures ApprovedByHuman(log, lost, id)
    decreases |log|
  {
    var n := |log| - 1;
    var init, e := log[..n], log[n];
    if n !in lost && About(e, id) {
      assert e in log;
      assert HumanApproval(e, id) && NothingLater(log, lost, id, n);
    } else {
      if n !in lost { UnrelatedEvent(FoldExcept(init, lost), e, id); }
      ApprovedMeansHuman(init, lost, id);
      var i :| 0 <= i < |init| && i !in lost && HumanApproval(init[i], id) && NothingLater(init, lost, id, i);
      assert log[i] == init[i];
      assert NothingLater(log, lost, id, i);
    }
  }

  /** Every approved row traces to a human decision that no later applied decision, request or stale
      event overrode. */
  lemma ApprovalsAreHuman(acts: seq<Act>, id: string)
    requires Legal(acts)
    requires StatusOfApproval(After(acts).live, id) == Some(ApprovalStatus.Approved)
    ensures ApprovedByHuman(After(acts).log, After(acts).lost, id)
  {
    RunKeepsFold(acts);
    RunsAreServiceMade(acts);
    ApprovedMeansHuman(After(acts).log, After(acts).lost, id);
  }

  // ----- why a node completed

  /** Nothing after position `j` ended the pass that act `j` belongs to. */
  ghost predicate SamePassSince(acts: seq<Act>, j: nat) {
    forall k :: j < k < |acts| ==> !(acts[k].CalculateReady? || acts[k].Abort? || acts[k].Replay?)
  }

  /** The state in which act `j` was taken. */
  ghost function StateAt(acts: seq<Act>, j: nat): Machine
    requires Legal(acts) && j <= |acts|
    decreases |acts|
  {
    if j == |acts| then After(acts) else StateAt(acts[..|acts| - 1], j)
  }

  ghost predicate FoundReadyAt(acts: seq<Act>, j: nat, n: string)
    requires Legal(acts)
  {
    j < |acts| && acts[j].CalculateReady? && SamePassSince(acts, j)
    && n in ReadySet(StateAt(acts, j).live.work, acts[j].graphId)
  }

  ghost predicate ClearedAt(acts: seq<Act>, j: nat, n: string)
    requires Legal(acts)
  {
    j < |acts| && acts[j].ClearTask? && acts[j].n == n && SamePassSince(acts, j) && Enabled(StateAt(acts, j), acts[j])
  }

  lemma LastStep(acts: seq<Act>)
    requires Legal(acts) && acts != []
    ensures var before, a := acts[..|acts| - 1], acts[|acts| - 1];
      && Legal(before) && Enabled(After(before), a)
      && After(acts).cycle.ready == (if a.CalculateReady? then ReadySet(After(before).live.work, a.graphId)
                                     else if a.Abort? || a.Replay? then {} else After(before).cycle.ready)
      && After(acts).cycle.cleared == (if a.CalculateReady? || a.Abort? || a.Replay? then {}
                                       else After(before).cycle.cleared + if a.ClearTask? then {a.n} else {})
  {
  }

  lemma SamePassExtends(acts: seq<Act>, j: nat)
    requires acts != [] && j < |acts| - 1 && SamePassSince(acts[..|acts| - 1], j)
    requires var a := acts[|acts| - 1]; !a.CalculateReady? && !a.Abort? && !a.Replay?
    ensures SamePassSince(acts, j)
  {
    var before := acts[..|acts| - 1];
    forall k | j < k < |acts| ensures !(acts[k].CalculateReady? || acts[k].Abort? || acts[k].Replay?) {
      if k < |acts| - 1 { assert acts[k] == before[k]; }
    }
  }

  lemma {:induction false} ReadyHasReason(acts: seq<Act>, n: string) returns (j: nat)
    requires Legal(acts) && n in After(acts).cycle.ready
    ensures FoundReadyAt(acts, j, n)
    decreases |acts|
  {
    var last := |acts| - 1;
    LastStep(acts);
    if acts[last].CalculateReady? {
      j := last;
    } else {
      j := ReadyHasReason(acts[..last], n);
      SamePassExtends(acts, j);
    }
  }

  lemma {:induction false} ClearanceHasReason(acts: seq<Act>, n: string) returns (j: nat)
    requires Legal(acts) && n in After(acts).cycle.cleared
    ensures ClearedAt(acts, j, n)
    decreases |acts|
  {
    var last := |acts| - 1;
    LastStep(acts);
    if acts[last].ClearTask? && acts[last].n == n {
      j := last;
    } else {
      j := ClearanceHasReason(acts[..last], n);
      SamePassExtends(acts, j);
    }
  }

  /** The approval that act `j` checks was a human's when it was checked. */
  ghost predicate HumanAt(acts: seq<Act>, j: nat)
    requires Legal(acts) && j < |acts| && acts[j].ClearTask?
  {
    ApprovedByHuman(StateAt(acts, j).log, StateAt(acts, j).lost, acts[j].approvalId)
  }

  lemma {:induction false} ClearanceWasHuman(acts: seq<Act>, j: nat)
    requires Legal(acts) && j < |acts| && acts[j].ClearTask? && Enabled(StateAt(acts, j), acts[j])
    ensures HumanAt(acts, j)
    decreases |acts|
  {
    var before := acts[..|acts| - 1];
    if j == |acts| - 1 {
      assert StateAt(acts, j) == After(before);
      ApprovalsAreHuman(before, acts[j].approvalId);
    } else {
      ClearanceWasHuman(before, j);
    }
  }

  /** Act `j` logged the completion of `n`, then the node `node`, and was allowed to. */
  ghost predicate CompletesAt(acts: seq<Act>, j: nat, n: string, node: WorkNode) {
    j < |acts| && Legal(acts[..j]) && acts[j].Writing? &&
    var m, w := After(acts[..j]), acts[j].write;
    WriteEnabled(m, w) && Completes(m.live, w, n) && n in m.live.work.nodes && m.live.work.nodes[n].node == node
  }

  /** The two writes that log a completion. */
  predicate Completes(t: Tables, w: Write, n: string) {
    w == Complete(n) || (w.Project? && w.n == n && WorkEventOf(t, w).value.to == Some(NodeStatus.Completed))
  }

  /** What a write does to the node rows of the live tables, or of those a replay would rebuild. */
  lemma WriteNodes(source: Tables, t: Tables, w: Write, at: string)
    ensures var after := Apply(t, Event(at, ContentOf(source, w))).work.nodes;
      && (w.CreateGraph? ==> after == PutNodes(t.work.nodes, w.graph.nodes, w.graph.id))
      && (MovesNode(w) && w.n in t.work.nodes ==>
            Restatused(t.work.nodes, after, w.n, Or(WorkEventOf(source, w).value.to, t.work.nodes[w.n].status)))
      && (!w.CreateGraph? && !MovesNode(w) ==> after == t.work.nodes)
  {
    hide PutNodes, TextLeq;
  }

  /** The events that set the status of a node. */
  predicate Turns(e: Event, n: string) {
    match e.content
    case OfWork(StepMoved(Some(id), Some(_), _)) => id == n
    case OfWork(RunCreated(Some(g))) => n in Compiler.Ids(g.nodes)
    case _ => false
  }

  /** The last of them that was applied. */
  ghost predicate LastTurn(log: seq<Event>, lost: set<nat>, n: string, i: nat) {
    i < |log| && i !in lost && Turns(log[i], n) && forall k :: i < k < |log| && k !in lost ==> !Turns(log[k], n)
  }

  /** A node completed after a write was completed by it, or its status was not set by it. */
  lemma CompletingWrite(m: Machine, t: Tables, w: Write, at: string, n: string)
    requires Rules(m) && WriteEnabled(m, w) && (t == m.live || t == m.full)
    requires var after := Apply(t, Event(at, ContentOf(m.live, w))).work.nodes; n in after && after[n].status.Completed?
    ensures var e := Event(at, ContentOf(m.live, w));
      var before, after := t.work.nodes, Apply(t, e).work.nodes;
      if Turns(e, n)
      then Completes(m.live, w, n) && n in m.live.work.nodes && m.live.work.nodes[n].node == after[n].node
      else n in before && before[n].status.Completed? && before[n].node == after[n].node
  {
    hide Rules, Apply, ContentOf, WriteEnabled, Turns, PutNodes, Completes, Restatused;
    WriteNodes(m.live, t, w, at);
    WriteTurns(m.live, w, at, n);
    var before, after := t.work.nodes, Apply(t, Event(at, ContentOf(m.live, w))).work.nodes;
    if w.CreateGraph? {
      CreationCompletesNone(before, m, w.graph, n);
    } else if MovesNode(w) {
      MovesLiveNode(m, w);
      MoveCompletes(before, after, w.n, WorkEventOf(m.live, w).value.to, n);
    }
  }

  lemma CreationCompletesNone(nodes: Nodes, m: Machine, g: GraphSpec, n: string)
    requires WriteEnabled(m, CreateGraph(g))
    ensures var after := PutNodes(nodes, g.nodes, g.id);
      n in after && after[n].status.Completed? ==> n !in Compiler.Ids(g.nodes) && n in nodes && nodes[n] == after[n]
  {
    PutNodesEffect(nodes, g.nodes, g.id);
    hide PutNodes;
  }

  lemma MoveCompletes(before: Nodes, after: Nodes, k: string, to: Option<NodeStatus>, n: string)
    requires k in before && Restatused(before, after, k, Or(to, before[k].status))
    requires n in after && after[n].status.Completed?
    ensures n in before && before[n].node == after[n].node
    ensures if k == n && to.Some? then to == Some(NodeStatus.Completed) else before[n].status.Completed?
  {
  }

  lemma WriteTurns(t: Tables, w: Write, at: string, n: string)
    ensures Turns(Event(at, ContentOf(t, w)), n) <==>
      (w.CreateGraph? && n in Compiler.Ids(w.graph.nodes))
      || (MovesNode(w) && w.n == n && WorkEventOf(t, w).value.to.Some?)
  {
  }

  /** One act completes a live node only so: the write is applied, or a replay brings in what was logged. */
  lemma OnlyTheseComplete(m: Machine, a: Act, n: string)
    requires Rules(m) && Enabled(m, a)
    requires n in m.live.work.nodes ==> !m.live.work.nodes[n].status.Completed?
    requires n in Do(m, a).live.work.nodes && Do(m, a).live.work.nodes[n].status.Completed?
    ensures || (a.Writing? && !a.dies && Completes(m.live, a.write, n))
            || (a.Replay? && n in m.full.work.nodes && m.full.work.nodes[n].status.Completed?)
  {
    if a.Writing? && !a.dies { CompletingWrite(m, m.live, a.write, a.timestamp, n); }
  }

  lemma MovesLiveNode(m: Machine, w: Write)
    requires Rules(m) && WriteEnabled(m, w) && MovesNode(w)
    ensures w.n in m.live.work.nodes && w.n in m.full.work.nodes
    ensures m.full.work.nodes[w.n].node == m.live.work.nodes[w.n].node
    ensures WorkEventOf(m.live, w).value.to == Some(NodeStatus.Completed) ==> Completes(m.live, w, w.n)
  {
  }

  /** Act `j` completed the node, and nothing applied has set its status since. */
  ghost predicate CauseIs(acts: seq<Act>, log: seq<Event>, lost: set<nat>, n: string, node: WorkNode, j: nat) {
    CompletesAt(acts, j, n, node) && LastTurn(log, lost, n, |After(acts[..j]).log|)
  }

  ghost predicate HasCause(acts: seq<Act>, log: seq<Event>, lost: set<nat>, nodes: Nodes, n: string) {
    n in nodes && nodes[n].status.Completed? ==> exists j: nat :: CauseIs(acts, log, lost, n, nodes[n].node, j)
  }

  /** In every reachable state each completed node has the status it has, live or in what a replay would rebuild, from
      an act that logged its completion and was allowed to: no later applied event set it.  Replays that resurrect a
      lost completion are included. */
  lemma {:induction false} CompletedHasCause(acts: seq<Act>, n: string)
    requires Legal(acts) && Tidied(acts)
    ensures var m := After(acts);
      HasCause(acts, m.log, {}, m.full.work.nodes, n) && HasCause(acts, m.log, m.lost, m.live.work.nodes, n)
    decreases |acts|
  {
    if acts != [] {
      hide *;
      LastAct(acts);
      var init, a := acts[..|acts| - 1], acts[|acts| - 1];
      CompletedHasCause(init, n);
      RunKeepsInv(init);
      RulesOf(After(init));
      var m := After(init);
      CauseLifts(acts, m.log, {}, m.full.work.nodes, n);
      CauseLifts(acts, m.log, m.lost, m.live.work.nodes, n);
      if a.Writing? {
        WriteHasCause(acts, m.full, {}, n);
        WriteHasCause(acts, m.live, m.lost, n);
        LostHasNoEffect(acts, m, Event(a.timestamp, ContentOf(m.live, a.write)), n);
      }
      ActHasCause(acts, m, a, n);
    }
  }

  lemma RulesOf(m: Machine)
    requires Inv(m)
    ensures Rules(m) && forall i :: i in m.lost ==> i < |m.log|
  {
    hide Rules, Fold, FoldExcept;
  }

  /** What an act leaves is what was there, or what its write made of it. */
  lemma ActHasCause(acts: seq<Act>, m: Machine, a: Act, n: string)
    requires HasCause(acts, m.log, {}, m.full.work.nodes, n) && HasCause(acts, m.log, m.lost, m.live.work.nodes, n)
    requires a.Writing? ==>
      var e := Event(a.timestamp, ContentOf(m.live, a.write));
      && HasCause(acts, m.log + [e], {}, Apply(m.full, e).work.nodes, n)
      && HasCause(acts, m.log + [e], m.lost, Apply(m.live, e).work.nodes, n)
      && HasCause(acts, m.log + [e], m.lost + {|m.log|}, m.live.work.nodes, n)
    ensures var m' := Do(m, a);
      HasCause(acts, m'.log, {}, m'.full.work.nodes, n) && HasCause(acts, m'.log, m'.lost, m'.live.work.nodes, n)
  {
    hide HasCause, Apply, ContentOf, ReadySet;
  }

  lemma CauseLifts(acts: seq<Act>, log: seq<Event>, lost: set<nat>, nodes: Nodes, n: string)
    requires acts != [] && HasCause(acts[..|acts| - 1], log, lost, nodes, n)
    ensures HasCause(acts, log, lost, nodes, n)
  {
    hide Legal, After, WriteEnabled, Completes, LastTurn;
    var init := acts[..|acts| - 1];
    if n in nodes && nodes[n].status.Completed? {
      var j: nat :| CauseIs(init, log, lost, n, nodes[n].node, j);
      assert acts[..j] == init[..j] && acts[j] == init[j];
      assert CauseIs(acts, log, lost, n, nodes[n].node, j);
    }
  }

  /** An event that is lost, or does not set the node's status, leaves the cause what it was. */
  lemma CauseStays(acts: seq<Act>, log: seq<Event>, lost: set<nat>, more: set<nat>, e: Event, n: string,
                   node: WorkNode, j: nat)
    requires CauseIs(acts, log, lost, n, node, j) && (|log| in more || !Turns(e, n))
    requires forall i :: 0 <= i < |log| ==> (i in more <==> i in lost)
    ensures CauseIs(acts, log + [e], more, n, node, j)
  {
    hide Turns, After, LastTurn, WriteEnabled, Completes;
    TurnStays(log, lost, more, e, n, |After(acts[..j]).log|);
  }

  lemma TurnStays(log: seq<Event>, lost: set<nat>, more: set<nat>, e: Event, n: string, i: nat)
    requires LastTurn(log, lost, n, i) && (|log| in more || !Turns(e, n))
    requires forall i :: 0 <= i < |log| ==> (i in more <==> i in lost)
    ensures LastTurn(log + [e], more, n, i)
  {
    hide Turns;
    forall k | i < k < |log + [e]| && k !in more ensures !Turns((log + [e])[k], n) {
      if k < |log| { assert (log + [e])[k] == log[k]; }
    }
  }

  lemma LostHasNoEffect(acts: seq<Act>, m: Machine, e: Event, n: string)
    requires HasCause(acts, m.log, m.lost, m.live.work.nodes, n)
    ensures HasCause(acts, m.log + [e], m.lost + {|m.log|}, m.live.work.nodes, n)
  {
    hide CauseIs;
    var nodes := m.live.work.nodes;
    if n in nodes && nodes[n].status.Completed? {
      var j: nat :| CauseIs(acts, m.log, m.lost, n, nodes[n].node, j);
      CauseStays(acts, m.log, m.lost, m.lost + {|m.log|}, e, n, nodes[n].node, j);
    }
  }

  lemma WriteHasCause(acts: seq<Act>, t: Tables, lost: set<nat>, n: string)
    requires Legal(acts) && acts != [] && acts[|acts| - 1].Writing?
    requires var m := After(acts[..|acts| - 1]);
      && Rules(m) && (t == m.live || t == m.full) && (forall i :: i in lost ==> i < |m.log|)
      && HasCause(acts, m.log, lost, t.work.nodes, n)
    ensures var m, a := After(acts[..|acts| - 1]), acts[|acts| - 1];
      var e := Event(a.timestamp, ContentOf(m.live, a.write));
      HasCause(acts, m.log + [e], lost, Apply(t, e).work.nodes, n)
  {
    var last := |acts| - 1;
    var m, a := After(acts[..last]), acts[last];
    var e := Event(a.timestamp, ContentOf(m.live, a.write));
    var before, after := t.work.nodes, Apply(t, e).work.nodes;
    if n in after && after[n].status.Completed? {
      CompletingWrite(m, t, a.write, a.timestamp, n);
      hide Apply, ContentOf, Rules, Completes, After, WriteEnabled, Turns;
      if Turns(e, n) {
        assert CompletesAt(acts, last, n, after[n].node) && LastTurn(m.log + [e], lost, n, |m.log|);
        assert CauseIs(acts, m.log + [e], lost, n, after[n].node, last);
      } else {
        var j: nat :| CauseIs(acts, m.log, lost, n, before[n].node, j);
        CauseStays(acts, m.log, lost, lost, e, n, before[n].node, j);
      }
    }
  }

  /** The rows of a node, live or as a replay would rebuild it. */
  ghost predicate RowOf(m: Machine, n: string, row: NodeRow) {
    (n in m.live.work.nodes && row == m.live.work.nodes[n]) || (n in m.full.work.nodes && row == m.full.work.nodes[n])
  }

  /** Act `j` gave the row its status, live or as a replay would rebuild it. */
  ghost predicate CauseOfRow(acts: seq<Act>, n: string, row: NodeRow, j: nat)
    requires Legal(acts)
  {
    var m := After(acts);
    || (n in m.live.work.nodes && row == m.live.work.nodes[n] && CauseIs(acts, m.log, m.lost, n, row.node, j))
    || (n in m.full.work.nodes && row == m.full.work.nodes[n] && CauseIs(acts, m.log, {}, n, row.node, j))
  }

  lemma CauseOf(acts: seq<Act>, n: string, row: NodeRow) returns (j: nat)
    requires Legal(acts) && Tidied(acts) && RowOf(After(acts), n, row) && row.status.Completed?
    ensures CauseOfRow(acts, n, row, j) && CompletesAt(acts, j, n, row.node)
    ensures if row.node.kind.Approval? then acts[j].write.Project? else acts[j].write == Complete(n)
  {
    CompletedHasCause(acts, n);
    hide Legal, After, LastTurn;
    var m := After(acts);
    if n in m.live.work.nodes && row == m.live.work.nodes[n] {
      j :| CauseIs(acts, m.log, m.lost, n, row.node, j);
    } else {
      j :| CauseIs(acts, m.log, {}, n, row.node, j);
    }
  }

  /** In every reachable state, for every completed non-approval node, live or rebuilt, every predecessor of any kind
      was completed or skipped at the readiness calculation of the pass that gave it that status. */
  lemma CompletedNodesWereReady(acts: seq<Act>, n: string, row: NodeRow) returns (j: nat, i: nat)
    requires Legal(acts) && Tidied(acts) && RowOf(After(acts), n, row)
    requires row.status.Completed? && !row.node.kind.Approval?
    ensures CauseOfRow(acts, n, row, j) && CompletesAt(acts, j, n, row.node) && acts[j].write == Complete(n)
    ensures FoundReadyAt(acts[..j], i, n)
  {
    j := CauseOf(acts, n, row);
    i := ReadyHasReason(acts[..j], n);
  }

  /** In every reachable state, for every completed approval_required node that is not itself an approval: in the pass
      that gave it that status its latest approval was approved for exactly the node's scope, by a human decision
      nothing applied had overridden. */
  lemma CompletedTasksWereApproved(acts: seq<Act>, n: string, row: NodeRow) returns (j: nat, i: nat)
    requires Legal(acts) && Tidied(acts) && RowOf(After(acts), n, row)
    requires row.status.Completed? && !row.node.kind.Approval? && row.node.approvalRequired
    ensures CauseOfRow(acts, n, row, j) && CompletesAt(acts, j, n, row.node) && acts[j].write == Complete(n)
    ensures ClearedAt(acts[..j], i, n) && HumanAt(acts[..j], i)
  {
    j := CauseOf(acts, n, row);
    i := ClearanceHasReason(acts[..j], n);
    ClearanceWasHuman(acts[..j], i);
  }

  /** And for every completed approval node: when it was given that status its latest approval had its scope and was
      approved by such a decision. */
  lemma CompletedApprovalsWereHuman(acts: seq<Act>, n: string, row: NodeRow) returns (j: nat)
    requires Legal(acts) && Tidied(acts) && RowOf(After(acts), n, row)
    requires row.status.Completed? && row.node.kind.Approval?
    ensures CauseOfRow(acts, n, row, j) && CompletesAt(acts, j, n, row.node) && acts[j].write.Project?
    ensures var m, id := After(acts[..j]), acts[j].write.approvalId;
      Latest(m.live, row.node, id) && m.live.approvals[id].scope == row.node.scope && ApprovedByHuman(m.log, m.lost, id)
  {
    j := CauseOf(acts, n, row);
    ApprovalsAreHuman(acts[..j], acts[j].write.approvalId);
  }
}
