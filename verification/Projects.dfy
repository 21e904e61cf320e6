/** A project on disk: the event log's files together with the tables folded from them. */
module Projects {
  import opened Common
  import opened Projections
  import opened Events
  import opened L = Ledger

  class Project {
    const events: EventLog
    const ledger: L.Ledger

    constructor (sha: Sha, scrub: Content -> Content)
      ensures Valid() && fresh(events) && fresh(events.disk) && fresh(ledger)
      ensures events.disk.Log() == [] && ledger.live == EMPTY
    {
      var disk := new Disk();
      events := new EventLog(disk, sha, scrub);
      ledger := new L.Ledger();
    }

    /** The ledger's events are the log's, in the order they are read back. */
    ghost predicate Valid()
      reads this, events, events.disk, ledger
    {
      && events as object != events.disk as object
      && events.disk.Valid() && ledger.Valid() && ledger.log == EventsOf(events.disk.Log())
    }

    /** With nothing lost the live tables are what a replay of the files would rebuild. */
    lemma LiveEqualsReplay()
      requires Valid() && ledger.lost == {}
      ensures ledger.live == Fold(EventsOf(events.disk.Log()))
    {
      FoldExceptNothing(ledger.log, {});
    }

    /** Append, then fold, unless the log refuses or the writer dies in between. */
    method Record(draft: Draft, dies: bool) returns (r: Result<Envelope, LogError>)
      requires Valid()
      modifies events, events.disk, ledger
      ensures ledger.Valid()
      ensures r.Failure? ==> Valid() && ledger.log == old(ledger.log) && ledger.live == old(ledger.live)
      ensures r.Success? ==> events.disk.Valid() && ledger.log == old(ledger.log) + [EventOf(Sealed(r.value))]
      ensures r.Success? ==>
        ledger.live == if dies then old(ledger.live) else Apply(old(ledger.live), EventOf(Sealed(r.value)))
      ensures InOrder(Later(old(events.disk.files), MonthOf(draft.timestamp))) == [] ==> Valid()
    {
      ghost var files := events.disk.files;
      r := events.Append(draft);
      if r.Failure? { return; }
      var line := Sealed(r.value);
      DepositSplits(files, MonthOf(draft.timestamp), line);
      OneMoreEvent(InOrder(files), line);
      ledger.Record(EventOf(line), if dies then Dies else Applies);
    }

    /** `replay_into`: refused as verification is refused, and then nothing changes. */
    method Replay() returns (r: Result<(), LogError>)
      requires Valid()
      modifies ledger
      ensures Valid() && ledger.log == old(ledger.log)
      ensures r.Success? <==> Verifies(events.sha, events.disk.Log(), events.disk.head)
      ensures r.Success? ==> ledger.live == Fold(EventsOf(events.disk.Log())) && ledger.lost == {}
      ensures r.Failure? ==> ledger.live == old(ledger.live) && ledger.lost == old(ledger.lost)
    {
      r := events.VerifyChain();
      if r.Success? { ledger.Rebuild(); }
    }
  }

  lemma OneMoreEvent(log: seq<Line>, line: Line)
    ensures EventsOf(log + [line]) == EventsOf(log) + [EventOf(line)]
  {
  }
}
