/** The hash-chained event log (storage/events.py): sealing, validation, head
    recovery, monthly files and replay.

    SHA-256 over canonical JSON is a function `sha` from envelope bodies to digest
    texts.  Nothing is known of it but `Collisionless`. */
module Events {
  import opened Common
  import opened Projections

  const SCHEMA_ID := "shiroe.event/v2"
  const GENESIS := "sha256:0"

  datatype Body = Body(
    schema: string, eventId: string, timestamp: string, content: Content, runId: Option<string>,
    actor: string, target: Option<string>, privacyClass: string, previousHash: string)
  datatype Envelope = Envelope(body: Body, hash: string)

  /** One non-blank line of a log file; `Unreadable` is a line that is not JSON or lacks a required field. */
  datatype Line = Sealed(env: Envelope) | Unreadable

  type Sha = Body -> string

  ghost predicate Collisionless(sha: Sha) {
    && (forall b, c :: sha(b) == sha(c) ==> b == c)
    && (forall b :: sha(b) != GENESIS)
  }

  predicate Acceptable(env: Envelope) {
    env.body.schema == SCHEMA_ID && env.body.privacyClass in {"public", "internal", "confidential", "restricted"}
  }

  // ----- the chain

  predicate Links(sha: Sha, previous: string, line: Line) {
    line.Sealed? && Acceptable(line.env) && line.env.body.previousHash == previous
      && line.env.hash == sha(line.env.body)
  }

  function TailHash(log: seq<Line>): string {
    if log != [] && log[|log| - 1].Sealed? then log[|log| - 1].env.hash else GENESIS
  }

  function TailId(log: seq<Line>): string {
    if log != [] && log[|log| - 1].Sealed? then log[|log| - 1].env.body.eventId else ""
  }

  predicate LinkAt(sha: Sha, log: seq<Line>, i: nat)
    requires i < |log|
  {
    Links(sha, TailHash(log[..i]), log[i])
  }

  predicate ValidChain(sha: Sha, log: seq<Line>) {
    forall i :: 0 <= i < |log| ==> LinkAt(sha, log, i)
  }

  function Hashes(log: seq<Line>): set<string> {
    set i | 0 <= i < |log| && log[i].Sealed? :: log[i].env.hash
  }

  lemma PrefixValid(sha: Sha, log: seq<Line>, k: nat)
    requires k <= |log|
    ensures ValidChain(sha, log) ==> ValidChain(sha, log[..k])
  {
    forall i | 0 <= i < k ensures LinkAt(sha, log[..k], i) == LinkAt(sha, log, i) {
      assert log[..k][..i] == log[..i];
    }
  }

  lemma ExtendValid(sha: Sha, log: seq<Line>, line: Line)
    requires ValidChain(sha, log)
    ensures ValidChain(sha, log + [line]) <==> Links(sha, TailHash(log), line)
  {
    var longer := log + [line];
    forall i | 0 <= i < |log| ensures LinkAt(sha, longer, i) == LinkAt(sha, log, i) {
      assert longer[..i] == log[..i];
    }
    assert longer[..|log|] == log;
    assert LinkAt(sha, longer, |log|) == Links(sha, TailHash(log), line);
  }

  /** The last line of a non-empty chain. */
  lemma LastLink(sha: Sha, log: seq<Line>)
    requires ValidChain(sha, log) && log != []
    ensures var init, last := log[..|log| - 1], log[|log| - 1];
      log == init + [last] && ValidChain(sha, init) && Links(sha, TailHash(init), last)
      && TailHash(log) == last.env.hash
  {
    PrefixValid(sha, log, |log| - 1);
    assert LinkAt(sha, log, |log| - 1);
  }

  /** The tail hash commits to the whole history. */
  lemma {:induction false} TailCommits(sha: Sha, a: seq<Line>, b: seq<Line>)
    requires Collisionless(sha) && ValidChain(sha, a) && ValidChain(sha, b)
    requires TailHash(a) == TailHash(b)
    ensures a == b
    decreases |a|
  {
    if a != [] { LastLink(sha, a); }
    if b != [] { LastLink(sha, b); }
    if a != [] && b != [] {
      var x, y := a[|a| - 1].env, b[|b| - 1].env;
      assert sha(x.body) == sha(y.body);
      assert x == y;
      TailCommits(sha, a[..|a| - 1], b[..|b| - 1]);
    }
  }

  /** Within one valid log no two events share a hash and none carries the genesis sentinel. */
  lemma HashesDistinct(sha: Sha, log: seq<Line>)
    requires Collisionless(sha) && ValidChain(sha, log)
    ensures forall i :: 0 <= i < |log| ==> log[i].Sealed? && log[i].env.hash != GENESIS
    ensures forall i, j :: 0 <= i < j < |log| ==> log[i].env.hash != log[j].env.hash
  {
    forall i | 0 <= i < |log| ensures log[i].Sealed? && log[i].env.hash != GENESIS {
      assert LinkAt(sha, log, i);
    }
    forall i, j | 0 <= i < j < |log| ensures log[i].env.hash != log[j].env.hash {
      DistinctAt(sha, log, i, j);
    }
  }

  lemma DistinctAt(sha: Sha, log: seq<Line>, i: nat, j: nat)
    requires Collisionless(sha) && ValidChain(sha, log) && i < j < |log|
    ensures LinkAt(sha, log, i) && LinkAt(sha, log, j) && log[i].env.hash != log[j].env.hash
  {
    var a, b := log[..i + 1], log[..j + 1];
    PrefixValid(sha, log, i + 1);
    PrefixValid(sha, log, j + 1);
    assert LinkAt(sha, log, i) && LinkAt(sha, log, j);
    assert TailHash(a) == log[i].env.hash && TailHash(b) == log[j].env.hash;
    assert |a| != |b|;
    if TailHash(a) == TailHash(b) { TailCommits(sha, a, b); }
  }

  // ----- the head marker

  datatype Head = Head(hash: string, eventId: string)

  datatype LogError = LockTimeout | Corrupt | HeadUnknown | HeadMismatch | Refused

  function HeadHash(head: Option<Head>): string {
    if head.Some? then head.value.hash else GENESIS
  }

  /** head.json names the tail; it may be missing only for an empty log. */
  predicate HeadCurrent(log: seq<Line>, head: Option<Head>) {
    HeadHash(head) == TailHash(log)
  }

  /** What recovery makes of a log and a marker: the new marker, or the error it raises. */
  function Recover(sha: Sha, log: seq<Line>, head: Option<Head>): Result<Option<Head>, LogError> {
    if !ValidChain(sha, log) then Failure(Corrupt)
    else if head.None? then
      Success(if TailHash(log) != GENESIS then Some(Head(TailHash(log), TailId(log))) else None)
    else if head.value.hash == TailHash(log) then Success(head)
    else if head.value.hash == GENESIS || head.value.hash in Hashes(log) then
      Success(Some(Head(TailHash(log), TailId(log))))
    else Failure(HeadUnknown)
  }

  /** On a valid log recovery succeeds exactly when the marker is missing, genesis or the hash of a
      logged event, and then the marker names the tail. */
  lemma RecoverySucceedsIff(sha: Sha, log: seq<Line>, head: Option<Head>)
    requires Collisionless(sha) && ValidChain(sha, log)
    ensures Recover(sha, log, head).Success?
       <==> head.None? || head.value.hash == GENESIS || head.value.hash in Hashes(log)
    ensures var r := Recover(sha, log, head);
      r.Success? ==> HeadCurrent(log, r.value) && (r.value.None? ==> log == [])
  {
    if log != [] {
      LastLink(sha, log);
      assert log[|log| - 1].env.hash in Hashes(log);
    }
  }

  /** What `verify_chain` accepts. */
  predicate Verifies(sha: Sha, log: seq<Line>, head: Option<Head>) {
    ValidChain(sha, log) && (log == [] || head.None? || head.value.hash == TailHash(log))
  }

  /** Dropping a non-empty suffix of a log whose marker was current: recovery refuses the cut log exactly when the
      marker is still there, verification exactly when it is and the cut left something. */
  lemma TruncationRefused(sha: Sha, log: seq<Line>, head: Option<Head>, k: nat)
    requires Collisionless(sha) && ValidChain(sha, log) && k < |log|
    requires head.Some? ==> HeadCurrent(log, head)
    ensures Recover(sha, log[..k], head) == Failure(HeadUnknown) <==> head.Some?
    ensures head.None? ==> Recover(sha, log[..k], head).Success?
    ensures !Verifies(sha, log[..k], head) <==> head.Some? && k > 0
  {
    HashesDistinct(sha, log);
    PrefixValid(sha, log, k);
    var cut := log[..k];
    assert forall i :: 0 <= i < k ==> cut[i] == log[i];
    assert head.Some? ==> TailHash(cut) != head.value.hash by {
      if k > 0 { assert cut[k - 1] == log[k - 1]; }
    }
  }

  /** While the marker of a log stays in place, the only other log that verifies against it is the empty one: edits,
      deletions, reorderings and insertions are all detected.  Once the marker is deleted every valid chain verifies,
      the prefixes of the log among them. */
  lemma TamperEvident(sha: Sha, log: seq<Line>, head: Option<Head>, altered: seq<Line>)
    requires Collisionless(sha) && ValidChain(sha, log)
    requires head.Some? ==> HeadCurrent(log, head)
    ensures Verifies(sha, altered, head) <==>
      if head.Some? then altered == log || altered == [] else ValidChain(sha, altered)
    ensures forall k :: 0 <= k <= |log| ==> Verifies(sha, log[..k], None)
  {
    forall k | 0 <= k <= |log| ensures Verifies(sha, log[..k], None) { PrefixValid(sha, log, k); }
    if head.Some? && Verifies(sha, altered, head) && altered != [] {
      TailCommits(sha, log, altered);
    }
  }

  /** A valid log whose marker can be recovered is accepted by verification, hence by replay, exactly when it is empty
      or its marker is missing or current; once recovered it is always accepted. */
  lemma ReplayAcceptedIff(sha: Sha, log: seq<Line>, head: Option<Head>)
    requires Collisionless(sha) && Recover(sha, log, head).Success?
    ensures Verifies(sha, log, head) <==> log == [] || head.None? || HeadCurrent(log, head)
    ensures Verifies(sha, log, Recover(sha, log, head).value)
  {
    RecoverySucceedsIff(sha, log, head);
  }

  // ----- sealing and appending

  datatype Draft = Draft(
    content: Content, runId: Option<string>, actor: string, target: Option<string>, privacyClass: string,
    eventId: string, timestamp: string)

  function Seal(sha: Sha, d: Draft, previous: string): Envelope {
    var body := Body(SCHEMA_ID, d.eventId, d.timestamp, d.content,
      d.runId, d.actor, d.target, d.privacyClass, previous);
    Envelope(body, sha(body))
  }

  predicate Publishable(env: Envelope) {
    Acceptable(env) && Whitelisted(env.body.content)
  }

  // ----- monthly files

  type Month = (string, string)

  function Slice(s: string, i: nat, j: nat): string
    requires i <= j
  {
    if |s| <= i then "" else if |s| <= j then s[i..] else s[i..j]
  }

  function MonthOf(timestamp: string): Month {
    (Slice(timestamp, 0, 4), Slice(timestamp, 5, 7))
  }

  predicate MonthLeq(a: Month, b: Month) {
    if a.0 == b.0 then TextLeq(a.1, b.1) else TextLeq(a.0, b.0)
  }

  predicate MonthLess(a: Month, b: Month) {
    a != b && MonthLeq(a, b)
  }

  lemma MonthTotal(a: Month, b: Month)
    ensures MonthLeq(a, b) || MonthLeq(b, a)
  {
    TextLeqTotal(a.0, b.0);
    TextLeqTotal(a.1, b.1);
  }

  lemma MonthAntisymmetric(a: Month, b: Month)
    requires MonthLeq(a, b) && MonthLeq(b, a)
    ensures a == b
  {
    if a.0 == b.0 { TextLeqAntisymmetric(a.1, b.1); } else { TextLeqAntisymmetric(a.0, b.0); }
  }

  lemma MonthTransitive(a: Month, b: Month, c: Month)
    requires MonthLeq(a, b) && MonthLeq(b, c)
    ensures MonthLeq(a, c)
  {
    if a.0 == b.0 == c.0 {
      TextLeqTransitive(a.1, b.1, c.1);
    } else if a.0 != b.0 && b.0 != c.0 {
      TextLeqTransitive(a.0, b.0, c.0);
      if a.0 == c.0 { TextLeqAntisymmetric(a.0, b.0); }
    }
  }

  datatype MonthFile = MonthFile(month: Month, lines: seq<Line>)

  /** The event files in sorted path order. */
  type Listing = seq<MonthFile>

  ghost predicate Ordered(files: Listing) {
    forall i, j :: 0 <= i < j < |files| ==> MonthLess(files[i].month, files[j].month)
  }

  /** The log as a reader sees it: file after file. */
  function InOrder(files: Listing): seq<Line> {
    if files == [] then [] else files[0].lines + InOrder(files[1..])
  }

  /** Appending a line to its month's file, created if it does not exist. */
  function Deposit(files: Listing, month: Month, line: Line): Listing {
    if files == [] then [MonthFile(month, [line])]
    else if files[0].month == month then [MonthFile(month, files[0].lines + [line])] + files[1..]
    else if MonthLess(month, files[0].month) then [MonthFile(month, [line])] + files
    else [files[0]] + Deposit(files[1..], month, line)
  }

  /** The files after the month. */
  function Later(files: Listing, month: Month): Listing {
    if files == [] || MonthLess(month, files[0].month) then files else Later(files[1..], month)
  }

  function UpTo(files: Listing, month: Month): Listing {
    if files == [] || MonthLess(month, files[0].month) then [] else [files[0]] + UpTo(files[1..], month)
  }

  lemma {:induction false} DepositOrdered(files: Listing, month: Month, line: Line)
    requires Ordered(files)
    ensures Ordered(Deposit(files, month, line))
    ensures forall f :: f in Deposit(files, month, line) ==>
      f.month == month || exists g :: g in files && g.month == f.month
  {
    if files != [] && files[0].month != month {
      MonthTotal(files[0].month, month);
      if MonthLess(month, files[0].month) {
        forall j | 0 <= j < |files| ensures MonthLess(month, files[j].month) {
          if j > 0 {
            MonthTransitive(month, files[0].month, files[j].month);
            if month == files[j].month { MonthAntisymmetric(month, files[0].month); }
          }
        }
      } else {
        DepositOrdered(files[1..], month, line);
        var rest := Deposit(files[1..], month, line);
        forall j | 0 <= j < |rest| ensures MonthLess(files[0].month, rest[j].month) {
          assert rest[j] in rest;
        }
      }
    }
  }

  lemma NothingDeposited()
    ensures Ordered([]) && InOrder([]) == []
  {
  }

  lemma ReadFrom(f: MonthFile, rest: Listing)
    ensures InOrder([f] + rest) == f.lines + InOrder(rest)
  {
    assert ([f] + rest)[1..] == rest;
  }

  /** Where a line goes: before all files, at the end of the first one, or among the others. */
  lemma DepositCases(files: Listing, month: Month, line: Line)
    requires Ordered(files)
    ensures var fresh_ := MonthFile(month, [line]);
      if files == [] || MonthLess(month, files[0].month)
      then UpTo(files, month) == [] && Later(files, month) == files && Deposit(files, month, line) == [fresh_] + files
      else
        && UpTo(files, month) == [files[0]] + UpTo(files[1..], month)
        && Later(files, month) == Later(files[1..], month)
        && (if files[0].month == month
            then UpTo(files[1..], month) == []
              && Deposit(files, month, line) == [MonthFile(month, files[0].lines + [line])] + files[1..]
            else Deposit(files, month, line) == [files[0]] + Deposit(files[1..], month, line))
  {
    hide TextLeq;
    if |files| > 1 { assert files[1..][0] == files[1]; }
  }

  /** A reader sees the new line after every line of its own and earlier months, before all later ones. */
  lemma {:induction false} DepositSplits(files: Listing, month: Month, line: Line)
    requires Ordered(files)
    ensures InOrder(files) == InOrder(UpTo(files, month)) + InOrder(Later(files, month))
    ensures InOrder(Deposit(files, month, line))
         == InOrder(UpTo(files, month)) + [line] + InOrder(Later(files, month))
  {
    NothingDeposited();
    hide MonthLess, TextLeq, InOrder, UpTo, Later, Deposit;
    DepositCases(files, month, line);
    if files == [] || MonthLess(month, files[0].month) {
      ReadFrom(MonthFile(month, [line]), files);
    } else {
      var rest, first := files[1..], files[0].lines;
      var a, b := InOrder(UpTo(rest, month)), InOrder(Later(rest, month));
      DepositSplits(rest, month, line);
      assert files == [files[0]] + rest;
      ReadFrom(files[0], rest);
      ReadFrom(files[0], UpTo(rest, month));
      assert first + (a + b) == (first + a) + b;
      if files[0].month == month {
        ReadFrom(MonthFile(month, first + [line]), rest);
      } else {
        ReadFrom(files[0], Deposit(rest, month, line));
        assert first + (a + [line] + b) == (first + a) + [line] + b;
      }
    }
  }

  /** Reading order stays append order exactly when no later month holds a line already. */
  lemma ReadOrderIsAppendOrderIff(files: Listing, month: Month, line: Line)
    requires Ordered(files) && line !in InOrder(files)
    ensures InOrder(Deposit(files, month, line)) == InOrder(files) + [line] <==> InOrder(Later(files, month)) == []
  {
    DepositSplits(files, month, line);
    var a, b := InOrder(UpTo(files, month)), InOrder(Later(files, month));
    if b == [] {
      assert a + b + [line] == a + [line] + b;
    } else {
      assert (a + [line] + b)[|a|] == line;
      assert (a + b + [line])[|a|] == b[0] && b[0] in a + b;
    }
  }

  function DepositAll(files: Listing, lines: seq<(Month, Line)>): Listing {
    if lines == [] then files
    else Deposit(DepositAll(files, lines[..|lines| - 1]), lines[|lines| - 1].0, lines[|lines| - 1].1)
  }

  function LinesOf(lines: seq<(Month, Line)>): seq<Line> {
    seq(|lines|, i requires 0 <= i < |lines| => lines[i].1)
  }

  lemma {:induction false} LaterEmpty(files: Listing, month: Month)
    requires forall f :: f in files ==> MonthLeq(f.month, month)
    ensures Later(files, month) == []
  {
    if files != [] {
      if MonthLess(month, files[0].month) { MonthAntisymmetric(month, files[0].month); }
      LaterEmpty(files[1..], month);
    }
  }

  /** Any append sequence whose months never decrease is read back in append order. */
  lemma {:induction false} MonthsReadInAppendOrder(lines: seq<(Month, Line)>)
    requires forall i, j :: 0 <= i < j < |lines| ==> MonthLeq(lines[i].0, lines[j].0)
    ensures Ordered(DepositAll([], lines))
    ensures InOrder(DepositAll([], lines)) == LinesOf(lines)
    ensures forall f :: f in DepositAll([], lines) ==> exists i :: 0 <= i < |lines| && lines[i].0 == f.month
  {
    hide MonthLeq, MonthLess, Ordered, Deposit, InOrder, Later, UpTo;
    NothingDeposited();
    if lines != [] {
      var last := |lines| - 1;
      var before := DepositAll([], lines[..last]);
      MonthsReadInAppendOrder(lines[..last]);
      DepositOrdered(before, lines[last].0, lines[last].1);
      DepositSplits(before, lines[last].0, lines[last].1);
      LaterEmpty(before, lines[last].0);
      assert LinesOf(lines) == LinesOf(lines[..last]) + [lines[last].1];
    }
  }

  /** An append leaves the log, as read back, a valid chain exactly when it was sealed over the tail and no
      later month holds a line: a stale head or a clock set back across a month breaks the chain. */
  lemma AppendKeepsChainIff(sha: Sha, files: Listing, d: Draft, previous: string)
    requires Collisionless(sha) && Ordered(files) && ValidChain(sha, InOrder(files))
    requires Acceptable(Seal(sha, d, previous))
    ensures var month := MonthOf(d.timestamp);
      ValidChain(sha, InOrder(Deposit(files, month, Sealed(Seal(sha, d, previous)))))
      <==> previous == TailHash(InOrder(files)) && InOrder(Later(files, month)) == []
  {
    hide Deposit, Later, UpTo, Ordered, MonthOf;
    var month, line := MonthOf(d.timestamp), Sealed(Seal(sha, d, previous));
    var log := InOrder(files);
    var a, b := InOrder(UpTo(files, month)), InOrder(Later(files, month));
    var longer := a + [line] + b;
    DepositSplits(files, month, line);
    if b == [] {
      assert longer == log + [line] && log == a;
      ExtendValid(sha, log, line);
    } else if ValidChain(sha, longer) {
      SpliceRepeatsHash(sha, a, line, b);
      assert a != [] ==> longer[|a| - 1] == a[|a| - 1];
      assert longer[|a|] == line;
      HashesDistinct(sha, longer);
    }
  }

  /** A line spliced before another in a chain must repeat the hash of the line before it. */
  lemma SpliceRepeatsHash(sha: Sha, a: seq<Line>, line: Line, b: seq<Line>)
    requires ValidChain(sha, a + b) && ValidChain(sha, a + [line] + b) && b != []
    ensures line.Sealed? && line.env.hash == TailHash(a)
  {
    var k, log, longer := |a|, a + b, a + [line] + b;
    assert LinkAt(sha, longer, k) && longer[k] == line;
    assert LinkAt(sha, longer, k + 1);
    assert longer[..k + 1] == a + [line] && longer[k + 1] == b[0];
    assert LinkAt(sha, log, k);
    assert log[..k] == a && log[k] == b[0];
  }

  // ----- the log on disk

  function EventOf(line: Line): Event {
    match line
    case Sealed(env) => Event(env.body.timestamp, env.body.content)
    case Unreadable => Event("", Unlisted(""))
  }

  function EventsOf(log: seq<Line>): seq<Event> {
    seq(|log|, i requires 0 <= i < |log| => EventOf(log[i]))
  }

  class Disk {
    var files: Listing
    var head: Option<Head>
    var locked: bool

    constructor ()
      ensures Valid() && Log() == [] && head == None && !locked
    {
      files, head, locked := [], None, false;
    }

    ghost predicate Valid()
      reads this
    {
      Ordered(files)
    }

    ghost function Log(): seq<Line>
      reads this
    {
      InOrder(files)
    }
  }

  class StateDb {
    var tables: Tables
  }

  datatype Tail = Tail(hash: string, eventId: string, hashes: set<string>)
  datatype Report = Report(replayed: nat, seen: set<Domain>, incomplete: set<Domain>)

  /** The head an instance reads, and the marker it leaves: recovery runs once per instance. */
  function Load(sha: Sha, log: seq<Line>, head: Option<Head>, recovered: bool)
    : Result<(string, Option<Head>), LogError>
  {
    if recovered then Success((HeadHash(head), head))
    else
      match Recover(sha, log, head)
      case Success(h) => Success((HeadHash(h), h))
      case Failure(e) => Failure(e)
  }

  /** Whatever instance appends, the log stays a valid chain exactly when that instance has yet to recover the
      head or the marker is current, and no later month holds a line. */
  lemma InstanceAppendsSafelyIff(sha: Sha, files: Listing, head: Option<Head>, recovered: bool, d: Draft)
    requires Collisionless(sha) && Ordered(files) && ValidChain(sha, InOrder(files))
    requires Load(sha, InOrder(files), head, recovered).Success?
    requires Acceptable(Seal(sha, d, Load(sha, InOrder(files), head, recovered).value.0))
    ensures
      var env := Seal(sha, d, Load(sha, InOrder(files), head, recovered).value.0);
      var month := MonthOf(d.timestamp);
      ValidChain(sha, InOrder(Deposit(files, month, Sealed(env))))
      <==> (!recovered || HeadCurrent(InOrder(files), head)) && InOrder(Later(files, month)) == []
  {
    RecoverySucceedsIff(sha, InOrder(files), head);
    AppendKeepsChainIff(sha, files, d, Load(sha, InOrder(files), head, recovered).value.0);
  }

  class EventLog {
    const disk: Disk
    const sha: Sha
    const scrub: Content -> Content
    var recovered: bool

    constructor (disk: Disk, sha: Sha, scrub: Content -> Content)
      ensures this.disk == disk && this.sha == sha && this.scrub == scrub && !recovered
    {
      this.disk, this.sha, this.scrub, recovered := disk, sha, scrub, false;
    }

    method IterEvents() returns (lines: seq<Line>)
      ensures lines == disk.Log()
    {
      lines := [];
      var i := 0;
      while i < |disk.files|
        invariant 0 <= i <= |disk.files|
        invariant disk.Log() == lines + InOrder(disk.files[i..])
      {
        lines := lines + disk.files[i].lines;
        i := i + 1;
      }
    }

    /** Walks the log, failing at the first line that does not continue the chain. */
    method ValidatedTail() returns (r: Result<Tail, LogError>)
      ensures r.Success? <==> ValidChain(sha, disk.Log())
      ensures r.Failure? ==> r.error == Corrupt
      ensures r.Success? ==> r.value == Tail(TailHash(disk.Log()), TailId(disk.Log()), Hashes(disk.Log()))
    {
      var lines := IterEvents();
      var previous, lastId, hashes := GENESIS, "", {};
      var i := 0;
      while i < |lines|
        invariant 0 <= i <= |lines|
        invariant ValidChain(sha, lines[..i])
        invariant previous == TailHash(lines[..i]) && lastId == TailId(lines[..i]) && hashes == Hashes(lines[..i])
      {
        var line := lines[i];
        ExtendValid(sha, lines[..i], line);
        assert lines[..i + 1] == lines[..i] + [line];
        if !Links(sha, previous, line) {
          PrefixValid(sha, lines, i + 1);
          return Failure(Corrupt);
        }
        HashesExtend(lines[..i], line);
        previous, lastId, hashes := line.env.hash, line.env.body.eventId, hashes + {line.env.hash};
        i := i + 1;
      }
      assert lines[..|lines|] == lines;
      return Success(Tail(previous, lastId, hashes));
    }

    /** Reconciles head.json with the tail; on failure nothing changes. */
    method RecoverHead() returns (r: Result<(), LogError>)
      modifies disk`head
      ensures match Recover(sha, disk.Log(), old(disk.head))
              case Success(h) => r.Success? && disk.head == h
              case Failure(e) => r == Failure(e) && disk.head == old(disk.head)
    {
      var t := ValidatedTail();
      if t.Failure? { return Failure(Corrupt); }
      var tail := t.value;
      if disk.head.None? {
        if tail.hash != GENESIS { disk.head := Some(Head(tail.hash, tail.eventId)); }
        return Success(());
      }
      var stored := disk.head.value.hash;
      if stored == tail.hash { return Success(()); }
      if stored == GENESIS || stored in tail.hashes {
        disk.head := Some(Head(tail.hash, tail.eventId));
        return Success(());
      }
      return Failure(HeadUnknown);
    }

    method LoadHead() returns (r: Result<string, LogError>)
      requires this as object != disk as object
      modifies this, disk`head
      ensures match Load(sha, disk.Log(), old(disk.head), old(recovered))
              case Success(p) => r == Success(p.0) && disk.head == p.1 && recovered
              case Failure(e) => r == Failure(e) && disk.head == old(disk.head) && !recovered
    {
      if !recovered {
        var done := RecoverHead();
        if done.Failure? { return Failure(done.error); }
        recovered := true;
      }
      return Success(HeadHash(disk.head));
    }

    /** Scrub, seal over the head, append the line, replace the marker; all under the lock. */
    method Append(draft: Draft) returns (r: Result<Envelope, LogError>)
      requires disk.Valid() && this as object != disk as object
      modifies this, disk
      ensures disk.Valid()
      ensures old(disk.locked) ==>
        r == Failure(LockTimeout) && disk.locked && disk.files == old(disk.files) && disk.head == old(disk.head)
        && recovered == old(recovered)
      ensures !old(disk.locked) ==> !disk.locked
      ensures !old(disk.locked) ==>
        match Load(sha, old(disk.Log()), old(disk.head), old(recovered))
        case Failure(e) =>
          r == Failure(e) && disk.files == old(disk.files) && disk.head == old(disk.head) && !recovered
        case Success(p) =>
          var env := Seal(sha, draft.(content := scrub(draft.content)), p.0);
          recovered &&
          if Publishable(env) then
            && r == Success(env)
            && disk.files == Deposit(old(disk.files), MonthOf(draft.timestamp), Sealed(env))
            && disk.head == Some(Head(env.hash, draft.eventId))
          else
            r == Failure(Refused) && disk.files == old(disk.files) && disk.head == p.1
    {
      if disk.locked { return Failure(LockTimeout); }
      disk.locked := true;
      var loaded := LoadHead();
      if loaded.Failure? {
        disk.locked := false;
        return Failure(loaded.error);
      }
      var env := Seal(sha, draft.(content := scrub(draft.content)), loaded.value);
      if !Publishable(env) {
        disk.locked := false;
        return Failure(Refused);
      }
      DepositOrdered(disk.files, MonthOf(draft.timestamp), Sealed(env));
      disk.files := Deposit(disk.files, MonthOf(draft.timestamp), Sealed(env));
      disk.head := Some(Head(env.hash, env.body.eventId));
      disk.locked := false;
      return Success(env);
    }

    method VerifyChain() returns (r: Result<(), LogError>)
      ensures r.Success? <==> Verifies(sha, disk.Log(), disk.head)
    {
      var t := ValidatedTail();
      if t.Failure? { return Failure(Corrupt); }
      var lines := IterEvents();
      if lines != [] && disk.head.Some? && disk.head.value.hash != t.value.hash { return Failure(HeadMismatch); }
      return Success(());
    }

    /** Rebuilds every current-state table from the log, and reports per domain whether each of its
        events was applied. */
    method ReplayInto(db: StateDb) returns (r: Result<Report, LogError>)
      modifies db
      ensures r.Success? <==> Verifies(sha, disk.Log(), disk.head)
      ensures r.Failure? ==> db.tables == old(db.tables)
      ensures r.Success? ==>
        && db.tables == Fold(EventsOf(disk.Log()))
        && r.value.replayed == |disk.Log()|
        && (forall d :: d in r.value.seen <==> Claimed(d, EventsOf(disk.Log())))
        && (forall d :: d in r.value.incomplete <==> Unapplied(d, EventsOf(disk.Log())))
    {
      hide Verifies, Claimed, Unapplied, Apply, Applied;
      var ok := VerifyChain();
      if ok.Failure? { return Failure(ok.error); }
      var lines := IterEvents();
      NothingReported();
      ghost var events := EventsOf(lines);
      db.tables := EMPTY;
      var seen, incomplete: set<Domain> := {}, {};
      var i := 0;
      assert events[..0] == [];
      while i < |lines|
        invariant 0 <= i <= |lines|
        invariant db.tables == Fold(events[..i])
        invariant forall d :: d in seen <==> Claimed(d, events[..i])
        invariant forall d :: d in incomplete <==> Unapplied(d, events[..i])
      {
        var e := EventOf(lines[i]);
        assert events[..i + 1] == events[..i] + [e];
        ReportStep(events[..i], e);
        var d := DomainOf(e.content);
        if d.Some? {
          seen := seen + {d.value};
          if !Applied(db.tables, e) { incomplete := incomplete + {d.value}; }
        }
        db.tables := Apply(db.tables, e);
        i := i + 1;
      }
      assert events[..|lines|] == events;
      return Success(Report(|lines|, seen, incomplete));
    }
  }

  ghost predicate Claimed(d: Domain, events: seq<Event>) {
    exists i :: 0 <= i < |events| && DomainOf(events[i].content) == Some(d)
  }

  /** Some event of the domain was not applied when its turn came. */
  ghost predicate Unapplied(d: Domain, events: seq<Event>) {
    exists i :: 0 <= i < |events| && DomainOf(events[i].content) == Some(d) && !Applied(Fold(events[..i]), events[i])
  }

  lemma NothingReported()
    ensures forall d :: !Claimed(d, []) && !Unapplied(d, [])
  {
  }

  lemma ReportStep(events: seq<Event>, e: Event)
    ensures forall d :: Claimed(d, events + [e]) <==> Claimed(d, events) || DomainOf(e.content) == Some(d)
    ensures forall d ::
      (Unapplied(d, events + [e]) <==>
        Unapplied(d, events) || (DomainOf(e.content) == Some(d) && !Applied(Fold(events), e)))
    ensures Fold(events + [e]) == Apply(Fold(events), e)
  {
    var longer := events + [e];
    assert longer[|events|] == e && longer[..|events|] == events;
    assert forall i :: 0 <= i < |events| ==> longer[i] == events[i] && longer[..i] == events[..i];
  }

  lemma HashesExtend(log: seq<Line>, line: Line)
    ensures Hashes(log + [line]) == Hashes(log) + if line.Sealed? then {line.env.hash} else {}
  {
    var longer := log + [line];
    assert forall i :: 0 <= i < |log| ==> longer[i] == log[i];
    if line.Sealed? {
      assert longer[|log|].env.hash in Hashes(longer);
    }
    forall h | h in Hashes(log) ensures h in Hashes(longer) {
      var i :| 0 <= i < |log| && log[i].Sealed? && log[i].env.hash == h;
      assert longer[i].env.hash == h;
    }
  }
}
