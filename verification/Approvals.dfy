/** The human-only approval service (policy/approval_service.py) over the ledger it shares with the capability store. */
module ApprovalServices {
  import opened Common
  import opened Projections
  import opened L = Ledger
  import opened GovernedRuns
  import C = Capabilities

  datatype ApprovalError =
    | Unauthorized | NotADecision | UnknownRequest | WriteFailed | Chained(error: C.CapabilityError)

  class ApprovalService {
    const capabilities: C.CapabilityStore
    const ledger: L.Ledger

    constructor (store: C.CapabilityStore)
      requires store.Valid() && forall e :: e in store.ledger.log ==> ServiceMade(e)
      ensures capabilities == store && ledger == store.ledger && Valid()
    {
      capabilities, ledger := store, store.ledger;
    }

    /** Every approval event in the log is one this service writes. */
    ghost predicate Valid()
      reads this, capabilities, ledger, capabilities.ledger
    {
      ledger == capabilities.ledger && capabilities.Valid() && forall e :: e in ledger.log ==> ServiceMade(e)
    }

    function Rows(): map<string, ApprovalRow>
      reads ledger
    {
      ledger.live.approvals
    }

    /** An approved row traces to a human's decision that nothing applied later overrides. */
    lemma ApprovedRowsAreHuman(id: string)
      requires Valid() && id in Rows() && Rows()[id].status.Approved?
      ensures ApprovedByHuman(ledger.log, ledger.lost, id)
    {
      ApprovedMeansHuman(ledger.log, ledger.lost, id);
    }

    /** Append, fold, commit. */
    method Emit(e: ApprovalEvent, at: string, fate: Fate)
      requires Valid() && ServiceMade(Event(at, OfApproval(e)))
      modifies ledger
      ensures Valid() && capabilities.Rows() == old(capabilities.Rows())
      ensures ledger.log == if fate.TimesOut? then old(ledger.log) else old(ledger.log) + [Event(at, OfApproval(e))]
      ensures Rows() == if fate.Applies? then ApplyApproval(old(Rows()), e) else old(Rows())
    {
      C.LawfulRunGrows(ledger.run, Logged(Event(at, OfApproval(e)), fate.Applies?));
      ledger.Record(Event(at, OfApproval(e)), fate);
    }

    /** `request`: a pending row under a new id. */
    method Request(id: string, row: ApprovalRow, at: string, fate: Fate) returns (r: Result<ApprovalRow, ApprovalError>)
      requires Valid() && row.status.Pending? && row.decidedAt.None? && row.decidedBy.None? && row.decisionReason.None?
      modifies ledger
      ensures Valid()
      ensures if fate.Applies? then r == Success(row) && Rows() == old(Rows())[id := row]
              else r == Failure(WriteFailed) && Rows() == old(Rows())
    {
      Emit(Requested(Some(ApprovalRequest(id, row))), at, fate);
      return if fate.Applies? then Success(row) else Failure(WriteFailed);
    }

    /** `decide_human`.  Nobody but a human decides, and a refused call leaves no event behind.  Approving a
        capability request moves that capability to `approved`; if the lifecycle refuses, the decision stands. */
    method DecideHuman(id: string, decision: ApprovalStatus, actor: string, actorKind: Option<string>, reason: string,
                       subject: Scope -> Option<string>, now: string, at: string, fate: Fate, chained: Fate)
      returns (r: Result<ApprovalRow, ApprovalError>)
      requires Valid()
      modifies ledger
      ensures Valid()
      ensures var refused := actor != "human" || (actorKind.Some? && actorKind != Some("human"))
                || decision.Pending? || decision.Stale? || id !in old(Rows());
        && (refused ==> r.Failure? && ledger.log == old(ledger.log) && Rows() == old(Rows()))
        && (!refused && !fate.Applies? ==> r == Failure(WriteFailed) && Rows() == old(Rows()))
        && (!refused && fate.Applies? ==> Rows() == old(Rows())[id := old(Rows())[id].(
              status := decision, decidedAt := Some(now), decidedBy := Some("human"), decisionReason := Some(reason))])
      ensures r.Success? ==> id in Rows() && r.value == Rows()[id] && r.value.status == decision
      ensures r.Success? && decision.Approved? && r.value.approvalType.Capability? && subject(r.value.scope).Some? ==>
        var c := subject(r.value.scope).value;
        c in old(capabilities.Rows()) && c in capabilities.Rows() && capabilities.Rows()[c].lifecycle.Approved? &&
        capabilities.Rows()[c].digest == old(capabilities.Rows())[c].digest
      ensures !(decision.Approved? && id in Rows() && Rows()[id].approvalType.Capability?) ==>
        capabilities.Rows() == old(capabilities.Rows())
    {
      if actor != "human" || (actorKind.Some? && actorKind != Some("human")) { return Failure(Unauthorized); }
      if decision.Pending? || decision.Stale? { return Failure(NotADecision); }
      if id !in Rows() { return Failure(UnknownRequest); }
      Emit(Decided(Some(ApprovalDecision(id, decision, actor, reason, now))), at, fate);
      if !fate.Applies? { return Failure(WriteFailed); }
      var row := Rows()[id];
      if row.approvalType.Capability? && decision.Approved? {
        var c := subject(row.scope);
        if c.Some? {
          var moved := capabilities.SetLifecycle(c.value, Lifecycle.Approved, now, at, chained);
          if moved.Failure? { return Failure(Chained(moved.error)); }
        }
      }
      return Success(row);
    }

    /** `assert_current`: a request whose scope has changed goes stale; otherwise nothing is written. */
    method AssertCurrent(id: string, current: Scope, at: string, fate: Fate)
      returns (r: Result<ApprovalRow, ApprovalError>)
      requires Valid()
      modifies ledger
      ensures Valid()
      ensures id !in old(Rows()) ==> r == Failure(UnknownRequest) && ledger.log == old(ledger.log)
      ensures id in old(Rows()) && old(Rows())[id].scope == current ==>
        r == Success(old(Rows())[id]) && ledger.log == old(ledger.log) && Rows() == old(Rows())
      ensures id in old(Rows()) && old(Rows())[id].scope != current ==>
        if fate.Applies?
        then Rows() == old(Rows())[id := old(Rows())[id].(status := ApprovalStatus.Stale)] && r == Success(Rows()[id])
        else r == Failure(WriteFailed) && Rows() == old(Rows())
      ensures r.Success? && r.value.status.Approved? ==>
        r.value.scope == current && ApprovedByHuman(ledger.log, ledger.lost, id)
    {
      if id !in Rows() { return Failure(UnknownRequest); }
      if Rows()[id].scope != current {
        Emit(Staled(Some(id)), at, fate);
        if !fate.Applies? { return Failure(WriteFailed); }
      }
      if Rows()[id].status.Approved? { ApprovedRowsAreHuman(id); }
      return Success(Rows()[id]);
    }
  }
}
