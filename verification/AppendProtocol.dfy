/** Any number of writers stepping through `EventLog.append` (storage/events.py) under the
    lockfile of lock.py, with a crash possible between any two steps.

    The disk is a log, a head marker and a lockfile.  The log is the monthly files read in
    order; timestamps are taken not to go back across a month, so a new line is read last. */
module AppendProtocol {
  import opened Common
  import opened Projections
  import opened Events

  /** Where a writer stands inside `append`. */
  datatype Phase =
    | Idle
    | Locked                    // lockfile created
    | Loaded(previous: string)  // head read, after recovery if it was due
    | Prepared(env: Envelope)   // sealed and validated
    | Written(env: Envelope)    // line appended and synced
    | Marked(env: Envelope)     // head.json replaced

  /** One process's `EventLog` instance. */
  datatype Writer = Writer(phase: Phase, recovered: bool)

  datatype Holder = Free | HeldBy(writer: nat) | Orphaned

  datatype State = State(
    log: seq<Line>, head: Option<Head>, lock: Holder, writers: map<nat, Writer>, acknowledged: seq<Envelope>)

  const INITIAL := State([], None, Free, map[], [])

  datatype Act =
    | Open(w: nat)               // a fresh instance
    | Acquire(w: nat)
    | RecoverHead(w: nat)        // validate the log, reconcile the marker
    | RefuseHead(w: nat)         // recovery raises; the lock is released
    | ReadHead(w: nat)
    | SealOver(w: nat, draft: Draft)
    | Reject(w: nat, draft: Draft)  // schema validation raises; the lock is released
    | AppendLine(w: nat)
    | ReplaceHead(w: nat)
    | Release(w: nat)            // lockfile removed, envelope returned to the caller
    | Crash(w: nat)              // the process dies; its lockfile stays
    | Restart                    // every process is gone and the lockfile is cleared by hand

  predicate At(s: State, w: nat) {
    w in s.writers && s.lock == HeldBy(w)
  }

  predicate Enabled(sha: Sha, s: State, a: Act) {
    match a
    case Open(w) => w !in s.writers && s.lock != HeldBy(w)
    case Acquire(w) => w in s.writers && s.writers[w].phase.Idle? && s.lock.Free?
    case RecoverHead(w) =>
      At(s, w) && s.writers[w].phase.Locked? && !s.writers[w].recovered && Recover(sha, s.log, s.head).Success?
    case RefuseHead(w) =>
      At(s, w) && s.writers[w].phase.Locked? && !s.writers[w].recovered && Recover(sha, s.log, s.head).Failure?
    case ReadHead(w) => At(s, w) && s.writers[w].phase.Locked? && s.writers[w].recovered
    case SealOver(w, d) =>
      At(s, w) && s.writers[w].phase.Loaded? && Publishable(Seal(sha, d, s.writers[w].phase.previous))
    case Reject(w, d) =>
      At(s, w) && s.writers[w].phase.Loaded? && !Publishable(Seal(sha, d, s.writers[w].phase.previous))
    case AppendLine(w) => At(s, w) && s.writers[w].phase.Prepared?
    case ReplaceHead(w) => At(s, w) && s.writers[w].phase.Written?
    case Release(w) => At(s, w) && s.writers[w].phase.Marked?
    case Crash(w) => w in s.writers
    case Restart => true
  }

  function To(s: State, w: nat, phase: Phase): State
    requires w in s.writers
  {
    s.(writers := s.writers[w := s.writers[w].(phase := phase)])
  }

  function Do(sha: Sha, s: State, a: Act): State
    requires Enabled(sha, s, a)
  {
    match a
    case Open(w) => s.(writers := s.writers[w := Writer(Idle, false)])
    case Acquire(w) => To(s, w, Locked).(lock := HeldBy(w))
    case RecoverHead(w) =>
      s.(head := Recover(sha, s.log, s.head).value, writers := s.writers[w := Writer(Locked, true)])
    case RefuseHead(w) => To(s, w, Idle).(lock := Free)
    case ReadHead(w) => To(s, w, Loaded(HeadHash(s.head)))
    case SealOver(w, d) => To(s, w, Prepared(Seal(sha, d, s.writers[w].phase.previous)))
    case Reject(w, _) => To(s, w, Idle).(lock := Free)
    case AppendLine(w) =>
      To(s, w, Phase.Written(s.writers[w].phase.env)).(log := s.log + [Sealed(s.writers[w].phase.env)])
    case ReplaceHead(w) =>
      var env := s.writers[w].phase.env;
      To(s, w, Marked(env)).(head := Some(Head(env.hash, env.body.eventId)))
    case Release(w) => To(s, w, Idle).(lock := Free, acknowledged := s.acknowledged + [s.writers[w].phase.env])
    case Crash(w) => s.(writers := s.writers - {w}, lock := if s.lock == HeldBy(w) then Orphaned else s.lock)
    case Restart => s.(writers := map[], lock := Free)
  }

  // ----- what every reachable state satisfies

  /** Recovery would accept the marker. */
  predicate Recoverable(log: seq<Line>, head: Option<Head>) {
    head.None? || head.value.hash == GENESIS || head.value.hash in Hashes(log)
  }

  ghost predicate SomeRecovered(s: State) {
    exists w :: w in s.writers && s.writers[w].recovered
  }

  /** The marker is current, or nobody has relied on it yet and the next instance will recover it. */
  ghost predicate Settled(s: State) {
    SomeRecovered(s) ==> HeadCurrent(s.log, s.head)
  }

  ghost predicate HolderSound(sha: Sha, s: State, writer: Writer) {
    match writer.phase
    case Idle => false
    case Locked => Settled(s)
    case Loaded(previous) => writer.recovered && HeadCurrent(s.log, s.head) && previous == TailHash(s.log)
    case Prepared(env) =>
      writer.recovered && HeadCurrent(s.log, s.head) && Links(sha, TailHash(s.log), Sealed(env))
    case Written(env) => writer.recovered && s.log != [] && s.log[|s.log| - 1] == Sealed(env)
    case Marked(env) =>
      writer.recovered && HeadCurrent(s.log, s.head) && s.log != [] && s.log[|s.log| - 1] == Sealed(env)
  }

  ghost predicate Inv(sha: Sha, s: State) {
    && ValidChain(sha, s.log)
    && Recoverable(s.log, s.head)
    && (forall w :: w in s.writers && s.lock != HeldBy(w) ==> s.writers[w].phase.Idle?)
    && (forall e :: e in s.acknowledged ==> Sealed(e) in s.log)
    && match s.lock
       case Free => Settled(s)
       case HeldBy(w) => w in s.writers && HolderSound(sha, s, s.writers[w])
       case Orphaned => true
  }

  lemma InvInitial(sha: Sha)
    ensures Inv(sha, INITIAL)
  {
  }

  /** Every step keeps the invariant, and the log only ever grows at its end. */
  lemma StepKeepsInv(sha: Sha, s: State, a: Act)
    requires Collisionless(sha) && Inv(sha, s) && Enabled(sha, s, a)
    ensures Inv(sha, Do(sha, s, a))
    ensures s.log <= Do(sha, s, a).log && s.acknowledged <= Do(sha, s, a).acknowledged
    ensures !a.RefuseHead?
  {
    RecoverySucceedsIff(sha, s.log, s.head);
    var t := Do(sha, s, a);
    match a
    case Open(w) => QuietStep(sha, s, t, w);
    case Acquire(w) =>
      assert s.writers.Keys == t.writers.Keys;
      assert forall v :: v in s.writers ==> t.writers[v].recovered == s.writers[v].recovered;
      assert SomeRecovered(t) ==> SomeRecovered(s);
    case RecoverHead(w) =>
      RecoveredMarker(sha, s.log, s.head);
    case RefuseHead(w) =>
    case ReadHead(w) =>
      assert s.writers[w].recovered;
    case SealOver(w, d) =>
    case Reject(w, _) =>
    case AppendLine(w) =>
      var env := s.writers[w].phase.env;
      ExtendValid(sha, s.log, Sealed(env));
      HashesExtend(s.log, Sealed(env));
    case ReplaceHead(w) =>
      var env := s.writers[w].phase.env;
      assert s.log[|s.log| - 1].env.hash in Hashes(s.log);
    case Release(w) =>
    case Crash(w) => QuietStep(sha, s, t, w);
    case Restart =>
  }

  /** Opening and losing an instance that is not the holder: the disk is untouched. */
  lemma QuietStep(sha: Sha, s: State, t: State, w: nat)
    requires Inv(sha, s)
    requires t == s.(writers := t.writers, lock := t.lock)
    requires (w !in s.writers && s.lock != HeldBy(w) && t == s.(writers := s.writers[w := Writer(Idle, false)]))
          || (w in s.writers
              && t == s.(writers := s.writers - {w}, lock := if s.lock == HeldBy(w) then Orphaned else s.lock))
    ensures Inv(sha, t)
  {
    assert SomeRecovered(t) ==> SomeRecovered(s);
  }

  lemma RecoveredMarker(sha: Sha, log: seq<Line>, head: Option<Head>)
    requires Collisionless(sha) && ValidChain(sha, log) && Recoverable(log, head)
    ensures Recover(sha, log, head).Success?
    ensures Recoverable(log, Recover(sha, log, head).value) && HeadCurrent(log, Recover(sha, log, head).value)
  {
    RecoverySucceedsIff(sha, log, head);
    if log != [] {
      LastLink(sha, log);
      assert log[|log| - 1].env.hash in Hashes(log);
    }
  }

  // ----- runs

  /** `acts` can be taken one after the other from the initial state. */
  ghost predicate Legal(sha: Sha, acts: seq<Act>)
    decreases |acts|, 0
  {
    acts == [] || (Legal(sha, acts[..|acts| - 1]) && Enabled(sha, After(sha, acts[..|acts| - 1]), acts[|acts| - 1]))
  }

  ghost function After(sha: Sha, acts: seq<Act>): State
    requires Legal(sha, acts)
    decreases |acts|, 1
  {
    if acts == [] then INITIAL else Do(sha, After(sha, acts[..|acts| - 1]), acts[|acts| - 1])
  }

  lemma {:induction false} RunKeepsInv(sha: Sha, acts: seq<Act>)
    requires Collisionless(sha) && Legal(sha, acts)
    ensures Inv(sha, After(sha, acts))
  {
    if acts == [] {
      InvInitial(sha);
    } else {
      RunKeepsInv(sha, acts[..|acts| - 1]);
      StepKeepsInv(sha, After(sha, acts[..|acts| - 1]), acts[|acts| - 1]);
    }
  }

  /** The last of the run's line writes, marker writes and recoveries was a line write. */
  predicate Unmarked(acts: seq<Act>) {
    acts != [] &&
    match acts[|acts| - 1]
    case AppendLine(_) => true
    case ReplaceHead(_) => false
    case RecoverHead(_) => false
    case _ => Unmarked(acts[..|acts| - 1])
  }

  /** In every reachable state the marker names the tail exactly when the run is not `Unmarked`. */
  lemma {:induction false} HeadCurrentIff(sha: Sha, acts: seq<Act>)
    requires Collisionless(sha) && Legal(sha, acts)
    ensures HeadCurrent(After(sha, acts).log, After(sha, acts).head) <==> !Unmarked(acts)
    decreases |acts|
  {
    if acts != [] {
      var init, a := acts[..|acts| - 1], acts[|acts| - 1];
      HeadCurrentIff(sha, init);
      RunKeepsInv(sha, init);
      if a.AppendLine? { WrittenMeansLagging(sha, acts, a.w); }
      if a.RecoverHead? { RecoveredMarker(sha, After(sha, init).log, After(sha, init).head); }
    }
  }

  /** After any run the log is one valid unforked chain holding every envelope ever returned to a caller.  The marker
      names the tail exactly when the run is not `Unmarked`; with the lock free it can be so only while no live
      instance has recovered it, and the next one will succeed in doing so. */
  lemma AnyRunIsOneChain(sha: Sha, acts: seq<Act>)
    requires Collisionless(sha) && Legal(sha, acts)
    ensures var s := After(sha, acts);
      && ValidChain(sha, s.log)
      && (forall e :: e in s.acknowledged ==> Sealed(e) in s.log)
      && Recover(sha, s.log, s.head).Success?
      && (HeadCurrent(s.log, s.head) <==> !Unmarked(acts))
      && (s.lock.Free? && Unmarked(acts) ==> !SomeRecovered(s))
  {
    RunKeepsInv(sha, acts);
    HeadCurrentIff(sha, acts);
    RecoveredMarker(sha, After(sha, acts).log, After(sha, acts).head);
  }

  /** And replay accepts the log exactly when the run is not `Unmarked` or no marker has been written yet. */
  lemma ReachableReplayIff(sha: Sha, acts: seq<Act>)
    requires Collisionless(sha) && Legal(sha, acts)
    ensures Verifies(sha, After(sha, acts).log, After(sha, acts).head) <==>
      After(sha, acts).head.None? || !Unmarked(acts)
  {
    AnyRunIsOneChain(sha, acts);
    ReplayAcceptedIff(sha, After(sha, acts).log, After(sha, acts).head);
  }

  /** Nothing once logged is ever rewritten or reordered by the rest of the run. */
  lemma {:induction false} LogOnlyGrows(sha: Sha, acts: seq<Act>, k: nat)
    requires Collisionless(sha) && Legal(sha, acts) && k <= |acts|
    ensures Legal(sha, acts[..k])
    ensures After(sha, acts[..k]).log <= After(sha, acts).log
  {
    if k == |acts| {
      assert acts[..k] == acts;
    } else {
      var init := acts[..|acts| - 1];
      assert init[..k] == acts[..k];
      LogOnlyGrows(sha, init, k);
      RunKeepsInv(sha, init);
      StepKeepsInv(sha, After(sha, init), acts[|acts| - 1]);
    }
  }

  // ----- the boundary: a head write that fails without killing the process

  /** `_write_head` raises: the exception leaves `append`, so the lock is released; the caller drops the instance. */
  function FailHeadWrite(s: State, w: nat): State
    requires At(s, w) && s.writers[w].phase.Written?
  {
    s.(writers := s.writers - {w}, lock := Free)
  }

  ghost predicate OthersRecovered(s: State, w: nat) {
    exists v :: v in s.writers && v != w && s.writers[v].recovered
  }

  /** While the holder is between its line and its marker, the marker lags the log. */
  lemma WrittenMeansLagging(sha: Sha, acts: seq<Act>, w: nat)
    requires Collisionless(sha) && Legal(sha, acts)
    requires At(After(sha, acts), w) && After(sha, acts).writers[w].phase.Written?
    ensures !HeadCurrent(After(sha, acts).log, After(sha, acts).head)
    decreases |acts|
  {
    var s := After(sha, acts);
    var init, a := acts[..|acts| - 1], acts[|acts| - 1];
    var before := After(sha, init);
    RunKeepsInv(sha, init);
    if a.AppendLine? && a.w == w {
      var env := before.writers[w].phase.env;
      ExtendValid(sha, before.log, Sealed(env));
      HashesDistinct(sha, s.log);
      assert s.log[|before.log|] == Sealed(env);
      if before.log != [] {
        assert s.log[|before.log| - 1] == before.log[|before.log| - 1];
        LastLink(sha, before.log);
      }
    } else {
      assert At(before, w) && before.writers[w].phase.Written? && before.log == s.log && before.head == s.head;
      WrittenMeansLagging(sha, init, w);
    }
  }

  /** A failed head write is harmless exactly when no other live instance has recovered its head:
      such an instance would append over the stale marker. */
  lemma FailedHeadWriteSafeIff(sha: Sha, acts: seq<Act>, w: nat)
    requires Collisionless(sha) && Legal(sha, acts)
    requires At(After(sha, acts), w) && After(sha, acts).writers[w].phase.Written?
    ensures Inv(sha, FailHeadWrite(After(sha, acts), w)) <==> !OthersRecovered(After(sha, acts), w)
  {
    var s := After(sha, acts);
    RunKeepsInv(sha, acts);
    WrittenMeansLagging(sha, acts, w);
    var t := FailHeadWrite(s, w);
    assert SomeRecovered(t) <==> OthersRecovered(s, w) by {
      if SomeRecovered(t) {
        var v :| v in t.writers && t.writers[v].recovered;
        assert v in s.writers && v != w && s.writers[v].recovered;
      }
      if OthersRecovered(s, w) {
        var v :| v in s.writers && v != w && s.writers[v].recovered;
        assert v in t.writers && t.writers[v].recovered;
      }
    }
  }

  /** The instance's next append goes through and leaves a log that is no chain. */
  ghost predicate ForksNext(sha: Sha, s: State, v: nat, d: Draft) {
    Enabled(sha, s, Acquire(v)) &&
    var s1 := Do(sha, s, Acquire(v));
    Enabled(sha, s1, ReadHead(v)) &&
    var s2 := Do(sha, s1, ReadHead(v));
    Enabled(sha, s2, SealOver(v, d)) &&
    var s3 := Do(sha, s2, SealOver(v, d));
    Enabled(sha, s3, AppendLine(v)) &&
    !ValidChain(sha, Do(sha, s3, AppendLine(v)).log)
  }

  /** An instance that trusts a stale marker forks the chain. */
  lemma StaleMarkerForks(sha: Sha, s: State, v: nat, d: Draft)
    requires Collisionless(sha) && ValidChain(sha, s.log) && !HeadCurrent(s.log, s.head)
    requires v in s.writers && s.writers[v] == Writer(Idle, true) && s.lock.Free?
    requires Publishable(Seal(sha, d, HeadHash(s.head)))
    ensures ForksNext(sha, s, v, d)
  {
    ExtendValid(sha, s.log, Sealed(Seal(sha, d, HeadHash(s.head))));
  }

  /** When another instance has recovered, its very next append after the failed head write forks the chain. */
  lemma FailedHeadWriteForks(sha: Sha, acts: seq<Act>, w: nat, v: nat, d: Draft)
    requires Collisionless(sha) && Legal(sha, acts)
    requires At(After(sha, acts), w) && After(sha, acts).writers[w].phase.Written?
    requires v in After(sha, acts).writers && v != w && After(sha, acts).writers[v].recovered
    requires Publishable(Seal(sha, d, HeadHash(After(sha, acts).head)))
    ensures ForksNext(sha, FailHeadWrite(After(sha, acts), w), v, d)
  {
    RunKeepsInv(sha, acts);
    WrittenMeansLagging(sha, acts, w);
    StaleMarkerForks(sha, FailHeadWrite(After(sha, acts), w), v, d);
  }

  // ----- the boundary: a lockfile cleared beside live instances

  function ClearLock(s: State): State {
    s.(lock := Free)
  }

  /** Clearing the lockfile of a dead holder is harmless exactly when no live instance has recovered its head, or the
      holder did not die between line and marker. */
  lemma ClearedLockSafeIff(sha: Sha, acts: seq<Act>)
    requires Collisionless(sha) && Legal(sha, acts) && After(sha, acts).lock.Orphaned?
    ensures Inv(sha, ClearLock(After(sha, acts))) <==> !SomeRecovered(After(sha, acts)) || !Unmarked(acts)
  {
    var s := After(sha, acts);
    RunKeepsInv(sha, acts);
    HeadCurrentIff(sha, acts);
    assert SomeRecovered(ClearLock(s)) <==> SomeRecovered(s);
  }

  /** Otherwise such an instance's very next append forks the chain. */
  lemma ClearedLockForks(sha: Sha, acts: seq<Act>, v: nat, d: Draft)
    requires Collisionless(sha) && Legal(sha, acts) && After(sha, acts).lock.Orphaned? && Unmarked(acts)
    requires v in After(sha, acts).writers && After(sha, acts).writers[v].recovered
    requires Publishable(Seal(sha, d, HeadHash(After(sha, acts).head)))
    ensures ForksNext(sha, ClearLock(After(sha, acts)), v, d)
  {
    RunKeepsInv(sha, acts);
    HeadCurrentIff(sha, acts);
    StaleMarkerForks(sha, ClearLock(After(sha, acts)), v, d);
  }

  /** The marker can lag while the lock is free: a crash after the line, then a restart.  In a fresh project there is
      then no marker at all, and replay accepts the log. */
  lemma HeadMayLagAfterRestart(sha: Sha, d: Draft)
    requires Collisionless(sha) && Publishable(Seal(sha, d, GENESIS))
    ensures var acts :=
      [Open(0), Acquire(0), RecoverHead(0), ReadHead(0), SealOver(0, d), AppendLine(0), Crash(0), Restart];
      Legal(sha, acts) && After(sha, acts).lock.Free? && !HeadCurrent(After(sha, acts).log, After(sha, acts).head)
      && Verifies(sha, After(sha, acts).log, After(sha, acts).head)
  {
    hide Legal, After, Seal;
    var written := FirstLineWritten(sha, d);
    var crashed := Then(sha, written, Crash(0));
    var restarted := Then(sha, crashed, Restart);
    assert restarted ==
      [Open(0), Acquire(0), RecoverHead(0), ReadHead(0), SealOver(0, d), AppendLine(0), Crash(0), Restart];
    OneLineUnmarked(sha, d);
  }

  lemma OneLineUnmarked(sha: Sha, d: Draft)
    requires Collisionless(sha) && Publishable(Seal(sha, d, GENESIS))
    ensures var log := [Sealed(Seal(sha, d, GENESIS))]; !HeadCurrent(log, None) && Verifies(sha, log, None)
  {
    ExtendValid(sha, [], Sealed(Seal(sha, d, GENESIS)));
    assert [] + [Sealed(Seal(sha, d, GENESIS))] == [Sealed(Seal(sha, d, GENESIS))];
  }

  /** The first append of a fresh project, up to its line. */
  lemma FirstLineWritten(sha: Sha, d: Draft) returns (acts: seq<Act>)
    requires Collisionless(sha) && Publishable(Seal(sha, d, GENESIS))
    ensures acts == [Open(0), Acquire(0), RecoverHead(0), ReadHead(0), SealOver(0, d), AppendLine(0)]
    ensures Legal(sha, acts)
    ensures After(sha, acts).log == [Sealed(Seal(sha, d, GENESIS))] && After(sha, acts).head == None
    ensures 0 in After(sha, acts).writers
  {
    hide Legal, After, Recover, Seal, Publishable;
    NoActs(sha);
    acts := Then(sha, [], Open(0));
    acts := Then(sha, acts, Acquire(0));
    acts := Then(sha, acts, RecoverHead(0));
    acts := Then(sha, acts, ReadHead(0));
    acts := Then(sha, acts, SealOver(0, d));
    acts := Then(sha, acts, AppendLine(0));
  }

  lemma NoActs(sha: Sha)
    ensures Legal(sha, []) && After(sha, []) == INITIAL && Recover(sha, [], None) == Success(None)
  {
  }

  lemma Then(sha: Sha, acts: seq<Act>, a: Act) returns (more: seq<Act>)
    requires Legal(sha, acts) && Enabled(sha, After(sha, acts), a)
    ensures more == acts + [a] && Legal(sha, more) && After(sha, more) == Do(sha, After(sha, acts), a)
  {
    more := acts + [a];
    assert more[..|more| - 1] == acts;
  }

  // ----- a writer left alone does what `EventLog.Append` does

  /** The acts can be taken from `s`, and lead to `t`. */
  ghost predicate Runs(sha: Sha, s: State, acts: seq<Act>, t: State)
    decreases |acts|
  {
    if acts == [] then s == t else Enabled(sha, s, acts[0]) && Runs(sha, Do(sha, s, acts[0]), acts[1..], t)
  }

  lemma RunsFrom(sha: Sha, s: State, a: Act, acts: seq<Act>, t: State)
    requires Enabled(sha, s, a) && Runs(sha, Do(sha, s, a), acts, t)
    ensures Runs(sha, s, [a] + acts, t)
  {
    assert ([a] + acts)[1..] == acts;
  }

  lemma RunsNowhere(sha: Sha, s: State)
    ensures Runs(sha, s, [], s)
  {
  }

  lemma SealKeepsId(sha: Sha, d: Draft, previous: string)
    ensures Seal(sha, d, previous).body.eventId == d.eventId
  {
  }

  /** From the head it read to the release of the lock. */
  lemma SealedRun(sha: Sha, s: State, w: nat, d: Draft) returns (t: State)
    requires At(s, w) && s.writers[w].phase.Loaded? && Publishable(Seal(sha, d, s.writers[w].phase.previous))
    ensures Runs(sha, s, [SealOver(w, d), AppendLine(w), ReplaceHead(w), Release(w)], t)
    ensures var env := Seal(sha, d, s.writers[w].phase.previous);
      && t.log == s.log + [Sealed(env)] && t.head == Some(Head(env.hash, d.eventId)) && t.lock.Free?
      && t.acknowledged == s.acknowledged + [env] && t.writers == s.writers[w := Writer(Idle, s.writers[w].recovered)]
  {
    hide Runs, Seal, Publishable, Recover;
    var s1 := Do(sha, s, SealOver(w, d));
    var s2 := Do(sha, s1, AppendLine(w));
    var s3 := Do(sha, s2, ReplaceHead(w));
    t := Do(sha, s3, Release(w));
    RunsNowhere(sha, t);
    var last := [Release(w)];
    assert last + [] == last;
    RunsFrom(sha, s3, Release(w), [], t);
    RunsFrom(sha, s2, ReplaceHead(w), last, t);
    RunsFrom(sha, s1, AppendLine(w), [ReplaceHead(w)] + last, t);
    RunsFrom(sha, s, SealOver(w, d), [AppendLine(w)] + ([ReplaceHead(w)] + last), t);
    assert [SealOver(w, d)] + ([AppendLine(w)] + ([ReplaceHead(w)] + last))
        == [SealOver(w, d), AppendLine(w), ReplaceHead(w), Release(w)];
    SealKeepsId(sha, d, s.writers[w].phase.previous);
  }

  /** Locking, recovering if that is due, and reading the head. */
  function OpeningActs(w: nat, recovered: bool): seq<Act> {
    if recovered then [Acquire(w), ReadHead(w)] else [Acquire(w), RecoverHead(w), ReadHead(w)]
  }

  /** The head has been read, after recovery if that was due. */
  function Opened(sha: Sha, s: State, w: nat): State
    requires w in s.writers && Load(sha, s.log, s.head, s.writers[w].recovered).Success?
  {
    var (hash, head) := Load(sha, s.log, s.head, s.writers[w].recovered).value;
    s.(head := head, lock := HeldBy(w), writers := s.writers[w := Writer(Loaded(hash), true)])
  }

  lemma OpeningRuns(sha: Sha, s: State, w: nat, rest: seq<Act>, t: State)
    requires w in s.writers && s.lock.Free? && s.writers[w].phase.Idle?
    requires Load(sha, s.log, s.head, s.writers[w].recovered).Success? && Runs(sha, Opened(sha, s, w), rest, t)
    ensures Runs(sha, s, OpeningActs(w, s.writers[w].recovered) + rest, t)
  {
    hide Runs, Recover;
    var s1 := Do(sha, s, Acquire(w));
    if s.writers[w].recovered {
      assert Do(sha, s1, ReadHead(w)) == Opened(sha, s, w);
      RunsFrom(sha, s1, ReadHead(w), rest, t);
      RunsFrom(sha, s, Acquire(w), [ReadHead(w)] + rest, t);
      assert [Acquire(w)] + ([ReadHead(w)] + rest) == OpeningActs(w, true) + rest;
    } else {
      var s2 := Do(sha, s1, RecoverHead(w));
      assert Do(sha, s2, ReadHead(w)) == Opened(sha, s, w);
      RunsFrom(sha, s2, ReadHead(w), rest, t);
      RunsFrom(sha, s1, RecoverHead(w), [ReadHead(w)] + rest, t);
      RunsFrom(sha, s, Acquire(w), [RecoverHead(w)] + ([ReadHead(w)] + rest), t);
      assert [Acquire(w)] + ([RecoverHead(w)] + ([ReadHead(w)] + rest)) == OpeningActs(w, false) + rest;
    }
  }

  /** The head loaded with the lock free is the tail. */
  lemma LoadsTail(sha: Sha, s: State, w: nat)
    requires Collisionless(sha) && Inv(sha, s) && w in s.writers && s.lock.Free?
    ensures s.writers[w].phase.Idle?
    ensures var r := Load(sha, s.log, s.head, s.writers[w].recovered); r.Success? && r.value.0 == TailHash(s.log)
  {
    RecoveredMarker(sha, s.log, s.head);
    assert s.writers[w].recovered ==> SomeRecovered(s);
  }

  /** The uninterrupted steps of one append amount to the state change `EventLog.Append` guarantees. */
  lemma SoloRunIsAppend(sha: Sha, s: State, w: nat, d: Draft) returns (t: State)
    requires Collisionless(sha) && Inv(sha, s) && w in s.writers && s.lock.Free?
    requires Publishable(Seal(sha, d, TailHash(s.log)))
    ensures Runs(sha, s,
      OpeningActs(w, s.writers[w].recovered) + [SealOver(w, d), AppendLine(w), ReplaceHead(w), Release(w)], t)
    ensures var env := Seal(sha, d, TailHash(s.log));
      t == State(s.log + [Sealed(env)], Some(Head(env.hash, d.eventId)), Free, s.writers[w := Writer(Idle, true)],
                 s.acknowledged + [env])
  {
    LoadsTail(sha, s, w);
    hide Runs, Publishable, Load, Inv, Seal;
    t := SealedRun(sha, Opened(sha, s, w), w, d);
    OpeningRuns(sha, s, w, [SealOver(w, d), AppendLine(w), ReplaceHead(w), Release(w)], t);
  }

  /** An uninterrupted append whose envelope is refused writes no line and gives the lock back; all it may leave is
      the recovered marker. */
  lemma SoloRefusal(sha: Sha, s: State, w: nat, d: Draft) returns (t: State)
    requires Collisionless(sha) && Inv(sha, s) && w in s.writers && s.lock.Free?
    requires !Publishable(Seal(sha, d, TailHash(s.log)))
    ensures Load(sha, s.log, s.head, s.writers[w].recovered).Success?
    ensures Runs(sha, s, OpeningActs(w, s.writers[w].recovered) + [Reject(w, d)], t)
    ensures t == s.(head := Load(sha, s.log, s.head, s.writers[w].recovered).value.1,
                    writers := s.writers[w := Writer(Idle, true)])
  {
    LoadsTail(sha, s, w);
    hide Runs, Publishable, Load, Inv, Seal;
    var ready := Opened(sha, s, w);
    t := Do(sha, ready, Reject(w, d));
    RunsNowhere(sha, t);
    RunsFrom(sha, ready, Reject(w, d), [], t);
    assert [Reject(w, d)] + [] == [Reject(w, d)];
    OpeningRuns(sha, s, w, [Reject(w, d)], t);
  }
}
