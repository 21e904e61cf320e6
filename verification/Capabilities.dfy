/** The capability registry: lifecycle table (capabilities/lifecycle.py), store
    (capabilities/store.py) and execution gate (capabilities/gate.py). */
module Capabilities {
  import opened Common
  import opened Projections
  import opened L = Ledger

  // ----- lifecycle.py

  function Transitions(s: Lifecycle): set<Lifecycle> {
    match s
    case Discovered => {Lifecycle.Quarantined}
    case Quarantined => {Inspected, Revoked}
    case Inspected => {Lifecycle.Approved, Revoked, Lifecycle.Quarantined}
    case Approved => {Benchmarked, Active, Lifecycle.Stale, Revoked, Compromised, Lifecycle.Quarantined}
    case Benchmarked => {Active, Lifecycle.Stale, Revoked, Compromised, Lifecycle.Quarantined}
    case Active => {Lifecycle.Stale, Revoked, Compromised, Lifecycle.Quarantined}
    case Stale => {Active, Revoked, Lifecycle.Quarantined}
    case Revoked => {}
    case Compromised => {Revoked, Lifecycle.Quarantined}
  }

  predicate CanTransition(from: Lifecycle, to: Lifecycle) {
    to in Transitions(from)
  }

  predicate IsExecutable(s: Lifecycle) {
    s.Approved? || s.Benchmarked? || s.Active?
  }

  function NextStateForDigestChange(s: Lifecycle): Lifecycle {
    if s.Revoked? then s else Lifecycle.Quarantined
  }

  // ----- logs the store can write

  /** An event the store appends in the state it reads. */
  predicate Lawful(t: CapabilityTables, e: CapabilityEvent) {
    match e
    case Found(Some(s)) => s.id !in t.rows && s.lifecycle == Some(Lifecycle.Quarantined)
    case Drifted(Some(id), Some(digest), Some(state), _) =>
      id in t.rows && digest != t.rows[id].digest && state == NextStateForDigestChange(t.rows[id].lifecycle)
    case Moved(stage, Some(id), to, _) =>
      id in t.rows &&
      (CanTransition(t.rows[id].lifecycle, Or(to, stage))
       || (Or(to, stage).Quarantined? && t.rows[id].lifecycle.Quarantined?))
    case _ => true
  }

  /** Every capability event was lawful in the live tables of its moment, whether or not it was applied to them. */
  ghost predicate LawfulRun(run: seq<Step>) {
    run == [] ||
    var init, step := run[..|run| - 1], run[|run| - 1];
    LawfulRun(init)
    && (step.Logged? && step.event.content.OfCapability? ==>
          Lawful(LiveOf(init).capabilities, step.event.content.capability))
  }

  lemma LawfulRunGrows(run: seq<Step>, step: Step)
    requires LawfulRun(run)
    requires step.Logged? && step.event.content.OfCapability? ==>
      Lawful(LiveOf(run).capabilities, step.event.content.capability)
    ensures LawfulRun(run + [step])
  {
    hide Lawful, LiveOf;
    assert (run + [step])[..|run|] == run;
  }

  // ----- one capability

  /** State and digest of one capability, where it is known. */
  datatype Seen = Seen(state: Lifecycle, digest: string)

  function View(t: Tables, id: string): Option<Seen> {
    if id !in t.capabilities.rows then None
    else Some(Seen(t.capabilities.rows[id].lifecycle, t.capabilities.rows[id].digest))
  }

  /** The live capability, and the one a replay of the whole log would rebuild. */
  function Live(run: seq<Step>, id: string): Option<Seen> {
    View(LiveOf(run), id)
  }

  function Replayed(run: seq<Step>, id: string): Option<Seen> {
    View(Fold(LogOf(run)), id)
  }

  predicate Finds(e: Event, id: string) {
    match e.content
    case OfCapability(Found(Some(s))) => s.id == id
    case _ => false
  }

  predicate Drifts(e: Event, id: string) {
    match e.content
    case OfCapability(Drifted(known, Some(_), Some(_), _)) => known == Some(id)
    case _ => false
  }

  predicate Moves(e: Event, id: string) {
    match e.content
    case OfCapability(Moved(_, known, _, _)) => known == Some(id)
    case _ => false
  }

  predicate About(e: Event, id: string) {
    Finds(e, id) || Drifts(e, id) || Moves(e, id)
  }

  predicate Speaks(e: Event) {
    match e.content
    case OfCapability(Found(s)) => s.Some?
    case OfCapability(Drifted(_, digest, state, _)) => digest.Some? && state.Some?
    case OfCapability(Moved(_, _, _, _)) => true
    case _ => false
  }

  /** The state an event puts its capability in. */
  function Says(e: Event): Lifecycle
    requires Speaks(e)
  {
    match e.content.capability
    case Found(s) => Or(s.value.lifecycle, Lifecycle.Quarantined)
    case Drifted(_, _, state, _) => state.value
    case Moved(stage, _, to, _) => Or(to, stage)
  }

  predicate Approves(e: Event, id: string) {
    Moves(e, id) && Says(e).Approved?
  }

  function StepSeen(v: Option<Seen>, e: Event, id: string): Option<Seen> {
    if Finds(e, id) then Some(Seen(Says(e), e.content.capability.snapshot.value.digest))
    else if v.None? then None
    else if Drifts(e, id) then Some(Seen(Says(e), e.content.capability.digest.value))
    else if Moves(e, id) then Some(Seen(Says(e), v.value.digest))
    else v
  }

  predicate LawfulSeen(v: Option<Seen>, e: Event, id: string) {
    && (Finds(e, id) ==> v.None? && Says(e).Quarantined?)
    && (Drifts(e, id) ==>
          v.Some? && e.content.capability.digest.value != v.value.digest
            && Says(e) == NextStateForDigestChange(v.value.state))
    && (Moves(e, id) ==>
          v.Some? && (CanTransition(v.value.state, Says(e)) || (Says(e).Quarantined? && v.value.state.Quarantined?)))
  }

  lemma StepIsSeen(t: Tables, e: Event, id: string)
    ensures View(Apply(t, e), id) == StepSeen(View(t, id), e, id)
    ensures e.content.OfCapability? && Lawful(t.capabilities, e.content.capability) ==> LawfulSeen(View(t, id), e, id)
    ensures !e.content.OfCapability? ==> LawfulSeen(View(t, id), e, id)
  {
  }

  // ----- what was approved, and what was lost

  /** The live digest at the last transition to `approved`. */
  function ApprovedDigest(run: seq<Step>, id: string): Option<string> {
    if run == [] then None
    else
      var init, step := run[..|run| - 1], run[|run| - 1];
      if step.Logged? && Approves(step.event, id) && Live(init, id).Some? then Some(Live(init, id).value.digest)
      else ApprovedDigest(init, id)
  }

  /** The last digest logged, as long as it is that of a drift the live tables never saw. */
  function LostDrift(run: seq<Step>, id: string): Option<string> {
    if run == [] then None
    else
      var init := run[..|run| - 1];
      match run[|run| - 1]
      case Rebuilt => None
      case Logged(e, applied) =>
        if Drifts(e, id) then if applied then None else Some(e.content.capability.digest.value)
        else if Finds(e, id) && applied then None
        else LostDrift(init, id)
  }

  /** The digest of the last lost drift a replay has brought in since the last transition to `approved`. */
  function BroughtIn(run: seq<Step>, id: string): Option<string> {
    if run == [] then None
    else
      var init := run[..|run| - 1];
      match run[|run| - 1]
      case Rebuilt => if LostDrift(init, id).Some? then LostDrift(init, id) else BroughtIn(init, id)
      case Logged(e, _) => if Approves(e, id) then None else BroughtIn(init, id)
  }

  /** A lost drift was waiting for a replay when the capability was last approved. */
  predicate ApprovedOverLostDrift(run: seq<Step>, id: string) {
    run != [] &&
    var init, step := run[..|run| - 1], run[|run| - 1];
    if step.Logged? && Approves(step.event, id) then LostDrift(init, id).Some? else ApprovedOverLostDrift(init, id)
  }

  /** A drift was logged after the last transition to `approved`. */
  predicate DriftedSinceApproval(run: seq<Step>, id: string) {
    run != [] &&
    var init, step := run[..|run| - 1], run[|run| - 1];
    if step.Rebuilt? then DriftedSinceApproval(init, id)
    else !Approves(step.event, id) && (Drifts(step.event, id) || DriftedSinceApproval(init, id))
  }

  /** Executable, or `stale`, which may return to `active` without a new approval. */
  predicate Warm(v: Option<Seen>) {
    v.Some? && (IsExecutable(v.value.state) || v.value.state.Stale?)
  }

  /** How the live capability, the replayed one and what the run approved and lost hang together. */
  predicate Coherent(live: Option<Seen>, replayed: Option<Seen>, approved: Option<string>, lost: Option<string>,
                     brought: Option<string>, tainted: bool)
  {
    && (live.Some? ==>
          && replayed.Some? && replayed.value.digest == Or(lost, live.value.digest)
          && lost != Some(live.value.digest))
    && (Warm(live) || Warm(replayed) ==>
          && live.Some? && approved.Some? && live.value.digest == Or(brought, approved.value)
          && (lost.Some? || brought.Some? <==> tainted))
    && (live.Some? && live.value.state.Revoked? ==> replayed.value.state.Revoked?)
  }

  ghost predicate Related(run: seq<Step>, id: string) {
    Coherent(Live(run, id), Replayed(run, id), ApprovedDigest(run, id), LostDrift(run, id), BroughtIn(run, id),
             ApprovedOverLostDrift(run, id) || DriftedSinceApproval(run, id))
  }

  lemma EventKeepsCoherent(live: Option<Seen>, replayed: Option<Seen>, approved: Option<string>, lost: Option<string>,
                           brought: Option<string>, over: bool, since: bool, e: Event, applied: bool, id: string)
    requires Coherent(live, replayed, approved, lost, brought, over || since) && LawfulSeen(live, e, id)
    ensures Coherent(
      if applied then StepSeen(live, e, id) else live,
      StepSeen(replayed, e, id),
      if Approves(e, id) && live.Some? then Some(live.value.digest) else approved,
      if Drifts(e, id) then if applied then None else Some(e.content.capability.digest.value)
      else if Finds(e, id) && applied then None
      else lost,
      if Approves(e, id) then None else brought,
      (if Approves(e, id) then lost.Some? else over) || (!Approves(e, id) && (Drifts(e, id) || since)))
  {
  }

  lemma RebuildKeepsCoherent(live: Option<Seen>, replayed: Option<Seen>, approved: Option<string>,
                             lost: Option<string>, brought: Option<string>, tainted: bool)
    requires Coherent(live, replayed, approved, lost, brought, tainted)
    ensures Coherent(replayed, replayed, approved, None, if lost.Some? then lost else brought, tainted)
  {
  }

  lemma {:induction false} AlwaysRelated(run: seq<Step>, id: string)
    requires LawfulRun(run)
    ensures Related(run, id)
  {
    if run != [] {
      hide Live, Replayed, Coherent, StepSeen, LawfulSeen;
      var init, step := run[..|run| - 1], run[|run| - 1];
      AlwaysRelated(init, id);
      StepOfRun(run, id);
      if step.Logged? {
        EventKeepsCoherent(Live(init, id), Replayed(init, id), ApprovedDigest(init, id), LostDrift(init, id),
                           BroughtIn(init, id), ApprovedOverLostDrift(init, id), DriftedSinceApproval(init, id),
                           step.event, step.applied, id);
      } else {
        RebuildKeepsCoherent(Live(init, id), Replayed(init, id), ApprovedDigest(init, id), LostDrift(init, id),
                             BroughtIn(init, id), ApprovedOverLostDrift(init, id) || DriftedSinceApproval(init, id));
      }
    }
  }

  /** What the last step of a run did to one capability. */
  lemma StepOfRun(run: seq<Step>, id: string)
    requires LawfulRun(run) && run != []
    ensures var init, step := run[..|run| - 1], run[|run| - 1];
      && Live(run, id) == (if step.Rebuilt? then Replayed(init, id)
                           else if step.applied then StepSeen(Live(init, id), step.event, id)
                           else Live(init, id))
      && Replayed(run, id) == (if step.Rebuilt? then Replayed(init, id)
                               else StepSeen(Replayed(init, id), step.event, id))
      && (step.Logged? ==> LawfulSeen(Live(init, id), step.event, id))
  {
    var init, step := run[..|run| - 1], run[|run| - 1];
    if step.Logged? {
      StepIsSeen(LiveOf(init), step.event, id);
      StepIsSeen(Fold(LogOf(init)), step.event, id);
      FoldGrows(LogOf(init), step.event);
    }
    hide View, Lawful, Apply, StepSeen, LawfulSeen, Fold;
  }

  // ----- runs, with losses and replays

  /** After any run the digest of an executable capability is the one it was approved with, or that of a lost drift
      which a replay has brought in since. */
  lemma ExecutableMeansApprovedDigest(run: seq<Step>, id: string)
    requires LawfulRun(run) && Live(run, id).Some? && IsExecutable(Live(run, id).value.state)
    ensures ApprovedDigest(run, id).Some?
    ensures Live(run, id).value.digest == Or(BroughtIn(run, id), ApprovedDigest(run, id).value)
  {
    AlwaysRelated(run, id);
  }

  /** `stale` may return to `active` without a new approval: it is bound in the same way. */
  lemma StaleKeepsApproval(run: seq<Step>, id: string)
    requires LawfulRun(run) && Live(run, id).Some? && Live(run, id).value.state.Stale?
    ensures ApprovedDigest(run, id).Some?
    ensures Live(run, id).value.digest == Or(BroughtIn(run, id), ApprovedDigest(run, id).value)
  {
    AlwaysRelated(run, id);
  }

  lemma RevokedSeen(v: Option<Seen>, e: Event, id: string)
    requires LawfulSeen(v, e, id) && v.Some? && v.value.state.Revoked?
    ensures StepSeen(v, e, id).Some? && StepSeen(v, e, id).value.state.Revoked?
  {
  }

  lemma RevokedStep(run: seq<Step>, id: string)
    requires LawfulRun(run) && run != []
    requires Live(run[..|run| - 1], id).Some? && Live(run[..|run| - 1], id).value.state.Revoked?
    ensures Live(run, id).Some? && Live(run, id).value.state.Revoked?
  {
    hide Live, Replayed, StepSeen, LawfulSeen, ApprovedDigest, LostDrift, BroughtIn, ApprovedOverLostDrift,
      DriftedSinceApproval;
    var init, step := run[..|run| - 1], run[|run| - 1];
    AlwaysRelated(init, id);
    StepOfRun(run, id);
    if step.Logged? { RevokedSeen(Live(init, id), step.event, id); }
  }

  /** `revoked` is absorbing: in every continuation, replays included. */
  lemma {:induction false} RevokedIsAbsorbing(run: seq<Step>, k: nat, id: string)
    requires LawfulRun(run) && k <= |run|
    requires Live(run[..k], id).Some? && Live(run[..k], id).value.state.Revoked?
    ensures Live(run, id).Some? && Live(run, id).value.state.Revoked?
    decreases |run|
  {
    if k == |run| {
      assert run[..k] == run;
    } else {
      var init := run[..|run| - 1];
      assert init[..k] == run[..k];
      RevokedIsAbsorbing(init, k, id);
      RevokedStep(run, id);
    }
  }

  /** What the next replay makes of a capability.  An executable one it rebuilds was approved.  If no earlier replay
      brought in a drift since, it carries the approved digest exactly when no lost drift is waiting; and if none was
      waiting at the approval either, exactly when no drift was logged since. */
  lemma ReplayKeepsApprovalIff(run: seq<Step>, id: string)
    requires LawfulRun(run) && Replayed(run, id).Some? && IsExecutable(Replayed(run, id).value.state)
    ensures ApprovedDigest(run, id).Some?
    ensures Replayed(run, id).value.digest ==
      Or(LostDrift(run, id), Or(BroughtIn(run, id), ApprovedDigest(run, id).value))
    ensures BroughtIn(run, id).None? ==>
      (ApprovedDigest(run, id) == Some(Replayed(run, id).value.digest) <==> LostDrift(run, id).None?)
    ensures BroughtIn(run, id).None? && !ApprovedOverLostDrift(run, id) ==>
      (ApprovedDigest(run, id) == Some(Replayed(run, id).value.digest) <==> !DriftedSinceApproval(run, id))
    ensures !ApprovedOverLostDrift(run, id) && !DriftedSinceApproval(run, id) ==>
      ApprovedDigest(run, id) == Some(Replayed(run, id).value.digest)
  {
    AlwaysRelated(run, id);
  }

  ghost predicate LastAbout(log: seq<Event>, id: string, j: nat) {
    j < |log| && About(log[j], id) && forall i :: j < i < |log| ==> !About(log[i], id)
  }

  /** A revocation that was only logged holds after a replay exactly when the last event logged about the capability
      says `revoked`; so it is for every state. */
  lemma {:induction false} ReplayedStateIsLastSaid(log: seq<Event>, id: string) returns (j: nat)
    requires View(Fold(log), id).Some?
    ensures LastAbout(log, id, j) && View(Fold(log), id).value.state == Says(log[j])
    decreases |log|
  {
    var init, e := log[..|log| - 1], log[|log| - 1];
    StepIsSeen(Fold(init), e, id);
    if About(e, id) {
      j := |log| - 1;
    } else {
      j := ReplayedStateIsLastSaid(init, id);
      assert log[j] == init[j];
      assert forall i :: 0 <= i < |init| ==> log[i] == init[i];
    }
  }

  function Move(id: string, to: Lifecycle, at: string): Event {
    Event(at, OfCapability(Moved(to, Some(id), Some(to), None)))
  }

  /** One more event about `id`, as seen by that capability. */
  lemma Continue(run: seq<Step>, e: Event, applied: bool, id: string) returns (more: seq<Step>)
    requires LawfulRun(run) && e.content.OfCapability? && Lawful(LiveOf(run).capabilities, e.content.capability)
    ensures more == run + [Logged(e, applied)] && LawfulRun(more) && more[..|run|] == run
    ensures Live(more, id) == if applied then StepSeen(Live(run, id), e, id) else Live(run, id)
    ensures Replayed(more, id) == StepSeen(Replayed(run, id), e, id)
    ensures !Approves(e, id) ==> ApprovedDigest(more, id) == ApprovedDigest(run, id)
  {
    hide Lawful, Live, Replayed, LiveOf, LogOf, StepSeen;
    more := run + [Logged(e, applied)];
    LawfulRunGrows(run, Logged(e, applied));
    assert more[..|run|] == run;
    StepOfRun(more, id);
  }

  lemma Rebuild(run: seq<Step>, id: string) returns (more: seq<Step>)
    requires LawfulRun(run)
    ensures more == run + [Rebuilt] && LawfulRun(more) && more[..|run|] == run
    ensures Live(more, id) == Replayed(run, id) == Replayed(more, id)
    ensures ApprovedDigest(more, id) == ApprovedDigest(run, id)
  {
    hide Lawful, Live, Replayed, LiveOf, LogOf, StepSeen;
    more := run + [Rebuilt];
    LawfulRunGrows(run, Rebuilt);
    assert more[..|run|] == run;
    StepOfRun(more, id);
  }

  lemma MoveIsLawful(run: seq<Step>, id: string, to: Lifecycle, at: string)
    requires Live(run, id).Some? && CanTransition(Live(run, id).value.state, to)
    ensures Lawful(LiveOf(run).capabilities, Move(id, to, at).content.capability)
  {
  }

  /** A source found and approved. */
  lemma FoundAndApproved(s: CapabilitySnapshot, at: string) returns (run: seq<Step>)
    requires s.lifecycle == Some(Lifecycle.Quarantined)
    ensures LawfulRun(run) && |run| == 3 && run[2] == Logged(Move(s.id, Lifecycle.Approved, at), true)
    ensures Live(run, s.id) == Some(Seen(Lifecycle.Approved, s.digest)) == Replayed(run, s.id)
    ensures ApprovedDigest(run, s.id) == Some(s.digest)
  {
    var found := Event(at, OfCapability(Found(Some(s))));
    assert LawfulRun([]) && Live([], s.id) == None == Replayed([], s.id) && LiveOf([]) == EMPTY;
    hide LawfulRun, LiveOf, LogOf, Live, Replayed;
    run := Continue([], found, true, s.id);
    MoveIsLawful(run, s.id, Inspected, at);
    run := Continue(run, Move(s.id, Inspected, at), true, s.id);
    MoveIsLawful(run, s.id, Lifecycle.Approved, at);
    var init := run;
    run := Continue(run, Move(s.id, Lifecycle.Approved, at), true, s.id);
  }

  /** A revocation that was logged but not applied is overwritten when a later live transition follows it in the
      replayed log: the capability comes back, as `stale`. */
  lemma LostRevocationIsForgotten(s: CapabilitySnapshot, at: string) returns (run: seq<Step>)
    requires s.lifecycle == Some(Lifecycle.Quarantined)
    ensures LawfulRun(run) && |run| == 6 && run[3] == Logged(Move(s.id, Revoked, at), false) && run[5] == Rebuilt
    ensures Live(run, s.id) == Some(Seen(Lifecycle.Stale, s.digest))
  {
    hide LawfulRun, LiveOf, LogOf, Live, Replayed, ApprovedDigest;
    run := FoundAndApproved(s, at);
    MoveIsLawful(run, s.id, Revoked, at);
    run := Continue(run, Move(s.id, Revoked, at), false, s.id);
    MoveIsLawful(run, s.id, Lifecycle.Stale, at);
    run := Continue(run, Move(s.id, Lifecycle.Stale, at), true, s.id);
    run := Rebuild(run, s.id);
  }

  /** A drift that was logged but not applied is undone the same way, but for its digest: the capability comes back
      executable with a digest nobody approved. */
  lemma LostDriftIsExecutable(s: CapabilitySnapshot, other: string, at: string) returns (run: seq<Step>)
    requires s.lifecycle == Some(Lifecycle.Quarantined) && other != s.digest
    ensures LawfulRun(run) && |run| == 6 && run[3].Logged? && !run[3].applied && Drifts(run[3].event, s.id)
    ensures run[5] == Rebuilt
    ensures Live(run, s.id) == Some(Seen(Active, other)) && ApprovedDigest(run, s.id) == Some(s.digest)
  {
    hide LawfulRun, LiveOf, LogOf, Live, Replayed, ApprovedDigest;
    run := FoundAndApproved(s, at);
    var drift := Event(at, OfCapability(Drifted(Some(s.id), Some(other), Some(Lifecycle.Quarantined), None)));
    DriftIsLawful(run, s.id, other, at);
    run := Continue(run, drift, false, s.id);
    MoveIsLawful(run, s.id, Active, at);
    run := Continue(run, Move(s.id, Active, at), true, s.id);
    run := Rebuild(run, s.id);
  }

  lemma DriftIsLawful(run: seq<Step>, id: string, digest: string, at: string)
    requires Live(run, id).Some? && Live(run, id).value.digest != digest && !Live(run, id).value.state.Revoked?
    ensures Lawful(LiveOf(run).capabilities, Drifted(Some(id), Some(digest), Some(Lifecycle.Quarantined), None))
  {
  }

  datatype CapabilityError =
    | Unknown | InvalidTransition | WriteFailed | NotExecutable | SourceMissing | DriftFound | AdapterUnfit

  /** The log grew, if at all, by capability events. */
  predicate OnlyCapabilityEvents(before: seq<Event>, after: seq<Event>) {
    before <= after && forall k :: |before| <= k < |after| ==> after[k].content.OfCapability?
  }

  /** No other capability is touched. */
  ghost predicate OnlyChanged(before: map<string, CapabilityRow>, after: map<string, CapabilityRow>, id: string) {
    forall k :: k != id ==> (k in after <==> k in before) && (k in before ==> after[k] == before[k])
  }

  class CapabilityStore {
    const ledger: L.Ledger

    constructor ()
      ensures Valid() && fresh(ledger) && ledger.log == []
    {
      ledger := new L.Ledger();
    }

    ghost predicate Valid()
      reads this, ledger
    {
      ledger.Valid() && LawfulRun(ledger.run)
    }

    function Rows(): map<string, CapabilityRow>
      reads ledger
    {
      ledger.live.capabilities.rows
    }

    /** One capability event, over a row the writer may already have updated in the same transaction. */
    method Emit(e: CapabilityEvent, at: string, fate: Fate, draft: CapabilityTables)
      requires Valid() && Lawful(ledger.live.capabilities, e)
      requires ApplyCapability(draft, e, at) == ApplyCapability(ledger.live.capabilities, e, at)
      modifies ledger
      ensures Valid()
      ensures ledger.live.capabilities ==
        if fate.Applies? then ApplyCapability(old(ledger.live.capabilities), e, at) else old(ledger.live.capabilities)
      ensures ledger.live.approvals == old(ledger.live.approvals)
      ensures OnlyCapabilityEvents(old(ledger.log), ledger.log)
    {
      LawfulRunGrows(ledger.run, Logged(Event(at, OfCapability(e)), fate.Applies?));
      ledger.RecordOver(Event(at, OfCapability(e)), fate, ledger.live.(capabilities := draft));
    }

    method SetLifecycle(id: string, target: Lifecycle, now: string, at: string, fate: Fate)
      returns (r: Result<(), CapabilityError>)
      requires Valid()
      modifies ledger
      ensures Valid()
      ensures r.Success? <==> id in old(Rows()) && CanTransition(old(Rows())[id].lifecycle, target) && fate.Applies?
      ensures r.Success? ==> Rows() == old(Rows())[id := old(Rows())[id].(lifecycle := target, updatedAt := at)]
      ensures r.Failure? ==> Rows() == old(Rows())
      ensures ledger.live.approvals == old(ledger.live.approvals)
      ensures OnlyCapabilityEvents(old(ledger.log), ledger.log)
    {
      if id !in Rows() { return Failure(Unknown); }
      if !CanTransition(Rows()[id].lifecycle, target) { return Failure(InvalidTransition); }
      var e := Moved(target, Some(id), Some(target), None);
      var t := ledger.live.capabilities;
      LifecycleUpdateAbsorbed(t, id, target, now, e, at);
      Emit(e, at, fate, MoveCapability(t, id, target, None, now));
      return if fate.Applies? then Success(()) else Failure(WriteFailed);
    }

    /** Drift snaps the capability back to quarantine, unless it is revoked. */
    method RefreshDigest(id: string, digest: string, now: string, at: string, fate: Fate)
      returns (r: Result<Lifecycle, CapabilityError>)
      requires Valid()
      modifies ledger
      ensures Valid()
      ensures id !in old(Rows()) ==> r == Failure(Unknown)
      ensures id in old(Rows()) && old(Rows())[id].digest == digest ==>
        r == Success(old(Rows())[id].lifecycle) && Rows() == old(Rows())
      ensures id in old(Rows()) && old(Rows())[id].digest != digest && fate.Applies? ==>
        var state := NextStateForDigestChange(old(Rows())[id].lifecycle);
        && r == Success(state)
        && Rows() == old(Rows())[id := old(Rows())[id].(lifecycle := state, digest := digest, updatedAt := at)]
      ensures r.Failure? ==> Rows() == old(Rows())
      ensures id in old(Rows()) && old(Rows())[id].digest != digest && !fate.Applies? ==> r == Failure(WriteFailed)
    {
      if id !in Rows() { return Failure(Unknown); }
      var row := Rows()[id];
      if row.digest == digest { return Success(row.lifecycle); }
      var state := NextStateForDigestChange(row.lifecycle);
      var e := Drifted(Some(id), Some(digest), Some(state), None);
      var t := ledger.live.capabilities;
      DriftUpdateAbsorbed(t, id, digest, state, now, e, at);
      Emit(e, at, fate, MoveCapability(t, id, state, Some(digest), now));
      return if fate.Applies? then Success(state) else Failure(WriteFailed);
    }

    /** A new source lands in quarantine; a known one has its digest refreshed. */
    method RegisterDiscovery(s: CapabilitySnapshot, now: string, at: string, first: Fate, second: Fate)
      returns (r: Result<(), CapabilityError>)
      requires Valid() && s.lifecycle == Some(Lifecycle.Quarantined)
      modifies ledger
      ensures Valid()
      ensures OnlyChanged(old(Rows()), Rows(), s.id)
      ensures s.id !in old(Rows()) && first.Applies? ==>
        s.id in Rows() && Rows()[s.id].lifecycle.Quarantined? && Rows()[s.id].digest == s.digest
      ensures (s.id in old(Rows()) && r.Success? && old(Rows())[s.id].digest != s.digest
               && !old(Rows())[s.id].lifecycle.Revoked?) ==>
        s.id in Rows() && Rows()[s.id].lifecycle.Quarantined? && Rows()[s.id].digest == s.digest
      ensures s.id in old(Rows()) && old(Rows())[s.id].digest == s.digest ==> Rows() == old(Rows())
    {
      if s.id in Rows() {
        var refreshed := RefreshDigest(s.id, s.digest, now, at, first);
        return if refreshed.Success? then Success(()) else Failure(WriteFailed);
      }
      Emit(Found(Some(s)), at, first, ledger.live.capabilities);
      if !first.Applies? { return Failure(WriteFailed); }
      Emit(Moved(Lifecycle.Quarantined, Some(s.id), None, None), at, second, ledger.live.capabilities);
      return if second.Applies? then Success(()) else Failure(WriteFailed);
    }

    /** `approve`: from quarantine through inspection, as far as the table allows. */
    method Approve(id: string, at: string, first: Fate, second: Fate) returns (r: Result<(), CapabilityError>)
      requires Valid()
      modifies ledger
      ensures Valid()
      ensures OnlyChanged(old(Rows()), Rows(), id)
      ensures id !in old(Rows()) ==> r == Failure(Unknown)
      ensures r.Success? && (old(Rows())[id].lifecycle.Quarantined? || old(Rows())[id].lifecycle.Inspected?) ==>
        id in Rows() && Rows()[id].lifecycle.Approved? && Rows()[id].digest == old(Rows())[id].digest
      ensures r.Success? && !(old(Rows())[id].lifecycle.Quarantined? || old(Rows())[id].lifecycle.Inspected?) ==>
        Rows() == old(Rows())
    {
      if id !in Rows() { return Failure(Unknown); }
      if Rows()[id].lifecycle.Quarantined? {
        r := SetLifecycle(id, Inspected, at, at, first);
        if r.Failure? { return; }
      }
      if Rows()[id].lifecycle.Inspected? {
        r := SetLifecycle(id, Lifecycle.Approved, at, at, second);
        return;
      }
      return Success(());
    }

    /** `revoke`: a known capability ends revoked, bouncing through quarantine where the table asks for it. */
    method Revoke(id: string, at: string, first: Fate, second: Fate) returns (r: Result<(), CapabilityError>)
      requires Valid()
      modifies ledger
      ensures Valid()
      ensures OnlyChanged(old(Rows()), Rows(), id)
      ensures id !in old(Rows()) ==> r == Failure(Unknown)
      ensures r.Success? ==> id in Rows() && Rows()[id].lifecycle.Revoked?
      ensures id in old(Rows()) && first.Applies? && second.Applies? ==> r.Success?
    {
      if id !in Rows() { return Failure(Unknown); }
      r := Success(());
      if !CanTransition(Rows()[id].lifecycle, Revoked) && CanTransition(Rows()[id].lifecycle, Lifecycle.Quarantined) {
        r := SetLifecycle(id, Lifecycle.Quarantined, at, at, first);
        if r.Failure? { return; }
      }
      if CanTransition(Rows()[id].lifecycle, Revoked) {
        r := SetLifecycle(id, Revoked, at, at, second);
      }
    }

    /** Rebuilding the tables from the log. */
    method Replay()
      requires Valid()
      modifies ledger
      ensures Valid() && ledger.log == old(ledger.log)
      ensures forall id :: View(ledger.live, id) == Replayed(old(ledger.run), id)
      ensures forall id :: id in Rows() && IsExecutable(Rows()[id].lifecycle) ==>
        && ApprovedDigest(ledger.run, id).Some?
        && Rows()[id].digest == Or(BroughtIn(ledger.run, id), ApprovedDigest(ledger.run, id).value)
      ensures forall id :: id in old(Rows()) && old(Rows())[id].lifecycle.Revoked? ==>
        id in Rows() && Rows()[id].lifecycle.Revoked?
    {
      ghost var run := ledger.run;
      LawfulRunGrows(run, Rebuilt);
      ledger.Rebuild();
      assert ledger.run[..|run|] == run;
      forall id | id in Rows() && IsExecutable(Rows()[id].lifecycle)
        ensures ApprovedDigest(ledger.run, id).Some?
        ensures Rows()[id].digest == Or(BroughtIn(ledger.run, id), ApprovedDigest(ledger.run, id).value)
      {
        ExecutableMeansApprovedDigest(ledger.run, id);
      }
      forall id | id in old(Rows()) && old(Rows())[id].lifecycle.Revoked?
        ensures id in Rows() && Rows()[id].lifecycle.Revoked?
      {
        RevokedIsAbsorbing(ledger.run, |run|, id);
      }
    }

    // ----- gate.py

    /** `assert_executable`.  `source` is the digest of what is on disk now, if it is still there.  A normal return
        means the capability is executable and the digest on disk is the recorded one: the approved one, unless a
        replay has brought in a lost drift since.  Drift is recorded before the refusal, so the next call refuses as
        well. */
    method AssertExecutable(id: string, source: Option<string>, adapterFit: bool, now: string, at: string, fate: Fate)
      returns (r: Result<(), CapabilityError>)
      requires Valid()
      modifies ledger
      ensures Valid()
      ensures OnlyChanged(old(Rows()), Rows(), id)
      ensures r.Success? <==>
        && id in old(Rows()) && IsExecutable(old(Rows())[id].lifecycle)
        && source == Some(old(Rows())[id].digest) && adapterFit
      ensures r.Success? ==> Rows() == old(Rows()) && ApprovedDigest(ledger.run, id).Some?
      ensures r.Success? ==> source == Some(Or(BroughtIn(ledger.run, id), ApprovedDigest(ledger.run, id).value))
      ensures id in old(Rows()) && IsExecutable(old(Rows())[id].lifecycle)
              && source.Some? && source.value != old(Rows())[id].digest && fate.Applies? ==>
        r == Failure(DriftFound) && id in Rows()
          && Rows()[id].lifecycle.Quarantined? && Rows()[id].digest == source.value
    {
      if id !in Rows() { return Failure(Unknown); }
      if !IsExecutable(Rows()[id].lifecycle) { return Failure(NotExecutable); }
      if source.None? { return Failure(SourceMissing); }
      if source.value != Rows()[id].digest {
        var refreshed := RefreshDigest(id, source.value, now, at, fate);
        if refreshed.Failure? { return Failure(WriteFailed); }
      }
      if !IsExecutable(Rows()[id].lifecycle) { return Failure(DriftFound); }
      if !adapterFit { return Failure(AdapterUnfit); }
      ExecutableMeansApprovedDigest(ledger.run, id);
      return Success(());
    }
  }
}
