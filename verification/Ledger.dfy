/** One project's event log together with its live tables: what the append-then-fold
    writers of storage/records.py, work/store.py, policy/approval_service.py and
    capabilities/store.py share.  A writer may die after its append is durable and
    before the fold commits; such an event is "lost" to the live tables until a replay. */
module Ledger {
  import opened Common
  import opened Projections

  /** What becomes of one append-then-fold call. */
  datatype Fate =
    | Applies           // appended, folded, committed
    | TimesOut          // the lock could not be taken: nothing happened, LockError raised
    | Dies              // appended, then the writer died before its commit

  /** What happened to a ledger: an event was logged, and applied or lost, or the tables were rebuilt. */
  datatype Step = Logged(event: Event, applied: bool) | Rebuilt

  function LogOf(run: seq<Step>): seq<Event> {
    if run == [] then []
    else
      var before := LogOf(run[..|run| - 1]);
      match run[|run| - 1]
      case Logged(e, _) => before + [e]
      case Rebuilt => before
  }

  function LiveOf(run: seq<Step>): Tables {
    if run == [] then EMPTY
    else
      var init := run[..|run| - 1];
      match run[|run| - 1]
      case Logged(e, applied) => if applied then Apply(LiveOf(init), e) else LiveOf(init)
      case Rebuilt => Fold(LogOf(init))
  }

  lemma RunGrows(run: seq<Step>, step: Step)
    ensures LogOf(run + [step]) == if step.Logged? then LogOf(run) + [step.event] else LogOf(run)
    ensures LiveOf(run + [step]) ==
      if step.Rebuilt? then Fold(LogOf(run))
      else if step.applied then Apply(LiveOf(run), step.event)
      else LiveOf(run)
  {
    hide Apply, Fold;
    assert (run + [step])[..|run|] == run;
  }

  class Ledger {
    var log: seq<Event>
    var live: Tables
    ghost var lost: set<nat>
    ghost var run: seq<Step>

    constructor ()
      ensures Valid() && log == [] && live == EMPTY && lost == {} && run == []
    {
      log, live, lost, run := [], EMPTY, {}, [];
    }

    /** The live tables are the fold of the log minus exactly the lost events. */
    ghost predicate Valid()
      reads this
    {
      && (forall i :: i in lost ==> i < |log|)
      && live == FoldExcept(log, lost)
      && log == LogOf(run) && live == LiveOf(run)
    }

    method Record(e: Event, fate: Fate)
      requires Valid()
      modifies this
      ensures Valid()
      ensures fate.TimesOut? ==> log == old(log) && live == old(live) && lost == old(lost)
      ensures !fate.TimesOut? ==> log == old(log) + [e]
      ensures fate.Applies? ==> live == Apply(old(live), e) && lost == old(lost)
      ensures fate.Dies? ==> live == old(live) && lost == old(lost) + {|old(log)|}
      ensures run == if fate.TimesOut? then old(run) else old(run) + [Logged(e, fate.Applies?)]
    {
      RecordOver(e, fate, live);
    }

    /** `Record` for the writers that also update a row directly, in the same transaction,
        before folding: `draft` is the table state after that update.  It must be absorbed,
        that is, overwritten by the reducer. */
    method RecordOver(e: Event, fate: Fate, draft: Tables)
      requires Valid()
      requires Apply(draft, e) == Apply(live, e)
      modifies this
      ensures Valid()
      ensures fate.TimesOut? ==> log == old(log) && live == old(live) && lost == old(lost)
      ensures !fate.TimesOut? ==> log == old(log) + [e]
      ensures fate.Applies? ==> live == Apply(old(live), e) && lost == old(lost)
      ensures fate.Dies? ==> live == old(live) && lost == old(lost) + {|old(log)|}
      ensures run == if fate.TimesOut? then old(run) else old(run) + [Logged(e, fate.Applies?)]
    {
      hide Apply, FoldExcept, LogOf, LiveOf;
      if !fate.TimesOut? { RunGrows(run, Logged(e, fate.Applies?)); }
      match fate
      case TimesOut =>
      case Applies =>
        LedgerStep(log, lost, e, false);
        assert lost + {} == lost;
        log, live, run := log + [e], Apply(draft, e), run + [Logged(e, true)];
      case Dies =>
        LedgerStep(log, lost, e, true);
        lost := lost + {|log|};
        log, run := log + [e], run + [Logged(e, false)];
    }

    /** The writers that append and never fold: leases, policy and the other event types no reducer interprets.  The
        tables stay what the log says, with nothing lost. */
    method Note(e: Event, fate: Fate)
      requires Valid() && e.content.Unfolded?
      modifies this
      ensures Valid() && live == old(live) && lost == old(lost)
      ensures log == if fate.TimesOut? then old(log) else old(log) + [e]
      ensures Fold(log) == Fold(old(log))
    {
      if fate.TimesOut? { return; }
      NotedIsNoOp(live, e);
      NotedIsNoOp(Fold(log), e);
      hide *;
      RunGrows(run, Logged(e, true));
      LedgerStep(log, lost, e, false);
      FoldGrows(log, e);
      assert lost + {} == lost;
      log, run := log + [e], run + [Logged(e, true)];
    }

    /** Replaying the log into emptied tables. */
    method Rebuild()
      requires Valid()
      modifies this
      ensures Valid() && lost == {} && log == old(log)
      ensures live == Fold(log) && run == old(run) + [Rebuilt]
    {
      live, lost := EMPTY, {};
      var i := 0;
      while i < |log|
        invariant 0 <= i <= |log| && lost == {} && log == old(log) && run == old(run)
        invariant live == Fold(log[..i])
      {
        assert log[..i + 1][..i] == log[..i];
        live := Apply(live, log[i]);
        i := i + 1;
      }
      assert log[..|log|] == log;
      FoldExceptNothing(log, {});
      RunGrows(run, Rebuilt);
      run := run + [Rebuilt];
    }
  }

  lemma NotedIsNoOp(t: Tables, e: Event)
    requires e.content.Unfolded?
    ensures Apply(t, e) == t
  {
    UnappliedIsNoOp(t, e);
  }

  lemma FoldGrows(log: seq<Event>, e: Event)
    ensures Fold(log + [e]) == Apply(Fold(log), e)
  {
    hide Apply;
    assert (log + [e])[..|log|] == log;
  }

  /** Appending one event extends the fold by that event, or by nothing when it is lost. */
  lemma LedgerStep(log: seq<Event>, lost: set<nat>, e: Event, dies: bool)
    requires forall i :: i in lost ==> i < |log|
    ensures FoldExcept(log + [e], lost + if dies then {|log|} else {})
         == if dies then FoldExcept(log, lost) else Apply(FoldExcept(log, lost), e)
  {
    var more := lost + if dies then {|log|} else {};
    assert (log + [e])[..|log|] == log;
    FoldExceptLocal(log, lost, more);
  }

  /** The direct UPDATE of a lifecycle transition is absorbed by the reducer, whatever time it stamped. */
  lemma LifecycleUpdateAbsorbed(t: CapabilityTables, id: string, target: Lifecycle, now: string,
                                e: CapabilityEvent, timestamp: string)
    requires id in t.rows && e.Moved? && e.id == Some(id)
    ensures ApplyCapability(MoveCapability(t, id, target, None, now), e, timestamp) == ApplyCapability(t, e, timestamp)
  {
    var draft := MoveCapability(t, id, target, None, now);
    var row := t.rows[id].(lifecycle := Or(e.to, e.stage), updatedAt := Or(e.eventTime, timestamp));
    assert draft.rows[id := row] == t.rows[id := row];
  }

  /** So is the direct UPDATE of a digest refresh. */
  lemma DriftUpdateAbsorbed(t: CapabilityTables, id: string, digest: string, state: Lifecycle, now: string,
                            e: CapabilityEvent, timestamp: string)
    requires id in t.rows && e.Drifted? && e.id == Some(id) && e.digest.Some? && e.state.Some?
    ensures ApplyCapability(MoveCapability(t, id, state, Some(digest), now), e, timestamp) ==
      ApplyCapability(t, e, timestamp)
  {
    var draft := MoveCapability(t, id, state, Some(digest), now);
    var row := t.rows[id].(
      lifecycle := e.state.value, digest := e.digest.value, updatedAt := Or(e.eventTime, timestamp));
    assert draft.rows[id := row] == t.rows[id := row];
  }
}
