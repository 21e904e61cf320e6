/** The nested-archive scan of privacy.py: a recursive walk over zip and tar members with a budget shared by the
    whole tree.  An archive may list itself: the depth ceiling alone ends the walk. */
module Archive {
  import opened Common

  const MAX_DEPTH: nat := 3
  const MAX_MEMBER_BYTES: nat := 2 * 1024 * 1024
  const MAX_TOTAL_BYTES: nat := 32 * 1024 * 1024
  const MAX_MEMBERS: nat := 4096
  const TEXTUAL_EXTS: set<string> :=
    {".md", ".py", ".json", ".yml", ".yaml", ".toml", ".jsonl", ".txt", ".cfg", ".ini", ".env"}

  datatype Kind = Zip | Tar

  /** Reading one member: its bytes, nothing to read, or an error the loop survives. */
  datatype Reading = Data(bytes: Bytes) | Nothing | Fails

  datatype Entry = Entry(name: string, isFile: bool, declared: nat, data: Reading)

  /** What a parser hands out before the archive ends or, if `broken`, before it raises. */
  datatype Listing = Listing(entries: seq<Entry>, broken: bool)

  /** One entry of the scrubber's audit trail. */
  datatype Finding = Finding(class_: string, count: nat)

  /** The library and scrubber calls. */
  datatype Library = Library(
    parse: (Bytes, Kind) -> Listing,
    lower: string -> string,
    suffix: string -> string,
    decode: Bytes -> Option<string>,
    scrub: string -> seq<Finding>)

  predicate EndsWith(s: string, tail: string) {
    |tail| <= |s| && s[|s| - |tail|..] == tail
  }

  /** `_archive_kind`. */
  function ArchiveKind(lib: Library, name: string): Option<Kind> {
    var n := lib.lower(name);
    if EndsWith(n, ".zip") then Some(Zip)
    else if EndsWith(n, ".tar") || EndsWith(n, ".tar.gz")
         || EndsWith(n, ".tgz") || EndsWith(n, ".tar.bz2") || EndsWith(n, ".tbz2")
    then Some(Tar)
    else None
  }

  // ----- what is in an archive

  datatype Leaf = Leaf(size: nat, text: string)

  /** What the members call for: their charges in order, the texts to scrub, whether an archive lies too deep, and
      whether anything could not be parsed. */
  datatype Outcome = Outcome(charges: seq<nat>, leaves: seq<Leaf>, buried: bool, damaged: bool) {
    function Then(o: Outcome): Outcome {
      Outcome(charges + o.charges, leaves + o.leaves, buried || o.buried, damaged || o.damaged)
    }
  }

  const CLEAN := Outcome([], [], false, false)

  function Room(depth: nat): nat {
    if depth < MAX_DEPTH then MAX_DEPTH - depth else 0
  }

  function OfArchive(lib: Library, raw: Bytes, kind: Kind, depth: nat): Outcome
    decreases Room(depth), 3, 0
  {
    var listing := lib.parse(raw, kind);
    OfEntries(lib, listing.entries, depth).Then(CLEAN.(damaged := listing.broken))
  }

  function OfEntries(lib: Library, entries: seq<Entry>, depth: nat): Outcome
    decreases Room(depth), 2, |entries|
  {
    if entries == [] then CLEAN
    else OfEntries(lib, entries[..|entries| - 1], depth).Then(OfEntry(lib, entries[|entries| - 1], depth))
  }

  function OfEntry(lib: Library, e: Entry, depth: nat): Outcome
    decreases Room(depth), 1, 0
  {
    if !e.isFile || e.declared > MAX_MEMBER_BYTES || e.data.Nothing? then CLEAN
    else if e.data.Fails? then CLEAN.(damaged := true)
    else OfMember(lib, e.name, e.data.bytes, depth)
  }

  function OfMember(lib: Library, name: string, data: Bytes, depth: nat): Outcome
    decreases Room(depth), 0, 1
  {
    if |data| > MAX_MEMBER_BYTES then CLEAN
    else CLEAN.(charges := [|data|]).Then(Inside(lib, name, data, depth))
  }

  function Inside(lib: Library, name: string, data: Bytes, depth: nat): Outcome
    decreases Room(depth), 0, 0
  {
    match ArchiveKind(lib, name)
    case Some(kind) => if depth + 1 >= MAX_DEPTH then CLEAN.(buried := true) else OfArchive(lib, data, kind, depth + 1)
    case None => CLEAN.(leaves := Leaves(lib, name, data))
  }

  /** A member is text if its suffix says so, or if it has none, and it decodes. */
  function Leaves(lib: Library, name: string, data: Bytes): seq<Leaf> {
    var suffix := lib.lower(lib.suffix(name));
    if (suffix != "" && suffix !in TEXTUAL_EXTS) || lib.decode(data).None? then []
    else [Leaf(|data|, lib.decode(data).value)]
  }

  // ----- the same tree without a depth ceiling

  /** Every eligible leaf within `levels` archives of the outermost one. */
  function TreeLeaves(lib: Library, raw: Bytes, kind: Kind, levels: nat): seq<Leaf>
    decreases levels, 1, 0
  {
    if levels == 0 then [] else EntryLeaves(lib, lib.parse(raw, kind).entries, levels)
  }

  function EntryLeaves(lib: Library, entries: seq<Entry>, levels: nat): seq<Leaf>
    requires levels > 0
    decreases levels, 0, |entries|
  {
    if entries == [] then []
    else EntryLeaves(lib, entries[..|entries| - 1], levels) + LeavesAt(lib, entries[|entries| - 1], levels)
  }

  function LeavesAt(lib: Library, e: Entry, levels: nat): seq<Leaf>
    requires levels > 0
    decreases levels, 0, 0
  {
    if !e.isFile || e.declared > MAX_MEMBER_BYTES || !e.data.Data? || |e.data.bytes| > MAX_MEMBER_BYTES then []
    else match ArchiveKind(lib, e.name)
      case Some(kind) => TreeLeaves(lib, e.data.bytes, kind, levels - 1)
      case None => Leaves(lib, e.name, e.data.bytes)
  }

  /** When no archive lies too deep, the ceiling hides nothing: however many more levels are looked at, the eligible
      leaves are those the scan calls for. */
  lemma {:induction false} CeilingHidesNothing(lib: Library, raw: Bytes, kind: Kind, depth: nat, levels: nat)
    requires depth < MAX_DEPTH && levels >= Room(depth)
    requires !OfArchive(lib, raw, kind, depth).buried
    ensures TreeLeaves(lib, raw, kind, levels) == OfArchive(lib, raw, kind, depth).leaves
    decreases Room(depth), 1, 0
  {
    CeilingHidesNoEntry(lib, lib.parse(raw, kind).entries, depth, levels);
  }

  lemma {:induction false} CeilingHidesNoEntry(lib: Library, entries: seq<Entry>, depth: nat, levels: nat)
    requires depth < MAX_DEPTH && levels >= Room(depth)
    requires !OfEntries(lib, entries, depth).buried
    ensures EntryLeaves(lib, entries, levels) == OfEntries(lib, entries, depth).leaves
    decreases Room(depth), 0, |entries| + 1
  {
    hide OfEntry, LeavesAt;
    if entries != [] {
      OneMoreEntry(lib, entries, |entries|, depth);
      assert entries[..|entries|] == entries;
      CeilingHidesNoEntry(lib, entries[..|entries| - 1], depth, levels);
      CeilingHidesNoLeaf(lib, entries[|entries| - 1], depth, levels);
    }
  }

  lemma {:induction false} CeilingHidesNoLeaf(lib: Library, e: Entry, depth: nat, levels: nat)
    requires depth < MAX_DEPTH && levels >= Room(depth)
    requires !OfEntry(lib, e, depth).buried
    ensures LeavesAt(lib, e, levels) == OfEntry(lib, e, depth).leaves
    decreases Room(depth), 0, 0
  {
    if e.isFile && e.declared <= MAX_MEMBER_BYTES && e.data.Data? && |e.data.bytes| <= MAX_MEMBER_BYTES {
      var kind := ArchiveKind(lib, e.name);
      assert OfEntry(lib, e, depth) == OfMember(lib, e.name, e.data.bytes, depth);
      assert OfMember(lib, e.name, e.data.bytes, depth).leaves == Inside(lib, e.name, e.data.bytes, depth).leaves;
      if kind.Some? {
        assert depth + 1 < MAX_DEPTH;
        CeilingHidesNothing(lib, e.data.bytes, kind.value, depth + 1, levels - 1);
      }
    }
  }

  // ----- the budget

  datatype Purse = Purse(bytes: nat, members: nat)

  function Sum(charges: seq<nat>): nat {
    if charges == [] then 0 else Sum(charges[..|charges| - 1]) + charges[|charges| - 1]
  }

  lemma {:induction false} SumAppend(a: seq<nat>, b: seq<nat>)
    ensures Sum(a + b) == Sum(a) + Sum(b)
    decreases |b|
  {
    if b == [] {
      assert a + b == a;
    } else {
      SumAppend(a, b[..|b| - 1]);
      assert (a + b)[..|a + b| - 1] == a + b[..|b| - 1];
    }
  }

  function Charge(p: Purse, charges: seq<nat>): Purse {
    Purse(p.bytes + Sum(charges), p.members + |charges|)
  }

  predicate WithinCaps(p: Purse) {
    p.members <= MAX_MEMBERS && p.bytes <= MAX_TOTAL_BYTES
  }

  /** Whether all the charges are met. */
  predicate Fits(p: Purse, charges: seq<nat>) {
    charges == [] || WithinCaps(Charge(p, charges))
  }

  /** A walk starting with the purse `p` did what `o` calls for; or it ran out of budget, and says so. */
  predicate Agrees(p: Purse, o: Outcome, q: Purse, scrubbed: seq<Leaf>, exceeded: bool, malformed: bool) {
    if Fits(p, o.charges)
    then q == Charge(p, o.charges) && scrubbed == o.leaves && exceeded == o.buried && malformed == o.damaged
    else malformed
  }

  lemma AgreesThen(p: Purse, o: Outcome, q: Purse, s: seq<Leaf>, e: bool, m: bool,
                   o': Outcome, q': Purse, s': seq<Leaf>, e': bool, m': bool)
    requires Agrees(p, o, q, s, e, m) && Agrees(q, o', q', s', e', m')
    ensures Agrees(p, o.Then(o'), q', s + s', e || e', m || m')
  {
    SumAppend(o.charges, o'.charges);
    assert Fits(p, o.charges) ==> (Fits(p, o.charges + o'.charges) <==> Fits(q, o'.charges));
  }

  // ----- counting findings

  datatype Tally = Tally(hits: nat, classes: seq<string>) {
    function Plus(t: Tally): Tally { Tally(hits + t.hits, classes + t.classes) }
  }

  const CREDENTIALS := "credentials"

  function Count(trail: seq<Finding>): Tally {
    if trail == [] then Tally(0, [])
    else
      var before, last := Count(trail[..|trail| - 1]), trail[|trail| - 1];
      if CREDENTIALS <= last.class_ then before.Plus(Tally(last.count, [last.class_])) else before
  }

  function Total(lib: Library, leaves: seq<Leaf>): Tally {
    if leaves == [] then Tally(0, [])
    else Total(lib, leaves[..|leaves| - 1]).Plus(Count(lib.scrub(leaves[|leaves| - 1].text)))
  }

  lemma TallySums(a: Tally, b: Tally, c: Tally)
    ensures a.Plus(b).Plus(c) == a.Plus(b.Plus(c))
  {
    assert (a.classes + b.classes) + c.classes == a.classes + (b.classes + c.classes);
  }

  lemma NoLeaves(lib: Library, t: Tally)
    ensures Total(lib, []) == Tally(0, []) && t.Plus(Tally(0, [])) == t == Tally(0, []).Plus(t)
  {
    assert t.classes + [] == t.classes && [] + t.classes == t.classes;
  }

  lemma {:induction false} TotalAppend(lib: Library, a: seq<Leaf>, b: seq<Leaf>)
    ensures Total(lib, a + b) == Total(lib, a).Plus(Total(lib, b))
    decreases |b|
  {
    hide Count, Total;
    if b == [] {
      NoLeaves(lib, Total(lib, a));
      assert a + b == a;
    } else {
      var init, last := b[..|b| - 1], b[|b| - 1];
      TotalAppend(lib, a, init);
      TallySums(Total(lib, a), Total(lib, init), Count(lib.scrub(last.text)));
      assert a + b == (a + init) + [last];
      OneMoreLeaf(lib, a + init, last);
      OneMoreLeaf(lib, init, last);
      assert init + [last] == b;
    }
  }

  lemma OneMoreLeaf(lib: Library, leaves: seq<Leaf>, last: Leaf)
    ensures Total(lib, leaves + [last]) == Total(lib, leaves).Plus(Count(lib.scrub(last.text)))
  {
    hide Count;
    assert (leaves + [last])[..|leaves|] == leaves;
  }

  function Size(leaves: seq<Leaf>): nat {
    if leaves == [] then 0 else Size(leaves[..|leaves| - 1]) + leaves[|leaves| - 1].size
  }

  // ----- the scan

  /** The dict shared by the whole tree, with the texts scrubbed so far. */
  class Budget {
    var bytes: nat
    var members: nat
    ghost var scrubbed: seq<Leaf>

    constructor ()
      ensures bytes == 0 && members == 0 && scrubbed == [] && Valid()
    {
      bytes, members, scrubbed := 0, 0, [];
    }

    function Now(): Purse
      reads this
    {
      Purse(bytes, members)
    }

    /** Never more than 4096 members or 32 MiB are scrubbed over the whole tree. */
    ghost predicate Valid()
      reads this
    {
      && |scrubbed| <= members && |scrubbed| <= MAX_MEMBERS
      && Size(scrubbed) <= bytes && Size(scrubbed) <= MAX_TOTAL_BYTES
    }

    /** `_budget_ok`. */
    method Ok(length: nat) returns (ok: bool)
      modifies this
      ensures Now() == Charge(old(Now()), [length])
      ensures scrubbed == old(scrubbed)
      ensures ok <==> Fits(old(Now()), [length])
    {
      members := members + 1;
      bytes := bytes + length;
      assert Sum([length]) == length by { assert [length][..0] == []; }
      return members <= MAX_MEMBERS && bytes <= MAX_TOTAL_BYTES;
    }
  }

  /** `_observe`. */
  method Observe(lib: Library, text: string) returns (tally: Tally)
    ensures tally == Count(lib.scrub(text))
  {
    var trail := lib.scrub(text);
    tally := Tally(0, []);
    for k := 0 to |trail|
      invariant tally == Count(trail[..k])
    {
      assert trail[..k + 1][..k] == trail[..k];
      if CREDENTIALS <= trail[k].class_ {
        tally := Tally(tally.hits + trail[k].count, tally.classes + [trail[k].class_]);
      }
    }
    assert trail[..|trail|] == trail;
  }

  lemma ScanStarts(lib: Library, p: Purse, depth: nat)
    ensures Agrees(p, OfEntries(lib, [], depth), p, [], false, false) && Total(lib, []) == Tally(0, [])
  {
  }

  lemma NothingCharged(p: Purse)
    ensures forall damaged :: Agrees(p, CLEAN.(damaged := damaged), p, [], false, damaged)
  {
  }

  lemma TooDeep(p: Purse)
    ensures Agrees(p, CLEAN.(buried := true), p, [], true, false)
  {
  }

  lemma LeavesFound(p: Purse, leaves: seq<Leaf>)
    ensures Agrees(p, CLEAN.(leaves := leaves), p, leaves, false, false)
  {
  }

  lemma OneCharge(p: Purse, length: nat)
    requires Fits(p, [length])
    ensures Agrees(p, CLEAN.(charges := [length]), Charge(p, [length]), [], false, false)
  {
  }

  lemma Overdrawn(p: Purse, length: nat, o: Outcome)
    ensures forall q, s, e :: !Fits(p, [length]) ==> Agrees(p, CLEAN.(charges := [length]).Then(o), q, s, e, true)
  {
    SumAppend([length], o.charges);
  }

  lemma OneLeaf(lib: Library, scrubbed: seq<Leaf>, leaf: Leaf)
    ensures Total(lib, [leaf]) == Count(lib.scrub(leaf.text))
    ensures Size(scrubbed + [leaf]) == Size(scrubbed) + leaf.size
  {
    hide Count;
    OneMoreLeaf(lib, [], leaf);
    assert [] + [leaf] == [leaf];
    NoLeaves(lib, Count(lib.scrub(leaf.text)));
    assert (scrubbed + [leaf])[..|scrubbed|] == scrubbed;
  }

  /** `_handle_member`. */
  method HandleMember(lib: Library, name: string, data: Bytes, depth: nat, budget: Budget)
    returns (tally: Tally, exceeded: bool, malformed: bool, ghost fresh_: seq<Leaf>)
    requires budget.Valid()
    modifies budget
    ensures budget.Valid()
    ensures budget.scrubbed == old(budget.scrubbed) + fresh_ && tally == Total(lib, fresh_)
    ensures Agrees(old(budget.Now()), OfMember(lib, name, data, depth), budget.Now(), fresh_, exceeded, malformed)
    decreases Room(depth), 0
  {
    hide OfArchive, Total, Count, Size, Agrees;
    tally, exceeded, malformed, fresh_ := Tally(0, []), false, false, [];
    ScanStarts(lib, budget.Now(), depth);
    NothingCharged(budget.Now());
    if |data| > MAX_MEMBER_BYTES { return; }
    ghost var start := budget.Now();
    var ok := budget.Ok(|data|);
    ghost var inside := Inside(lib, name, data, depth);
    Overdrawn(start, |data|, inside);
    if !ok {
      malformed := true;
      return;
    }
    ghost var charged := budget.Now();
    ghost var charge := CLEAN.(charges := [|data|]);
    OneCharge(start, |data|);
    NothingCharged(charged);
    var kind := ArchiveKind(lib, name);
    if kind.Some? {
      if depth + 1 >= MAX_DEPTH {
        exceeded := true;
        TooDeep(charged);
      } else {
        tally, exceeded, malformed, fresh_ := ScanArchive(lib, data, kind.value, depth + 1, budget);
      }
    } else {
      var suffix := lib.lower(lib.suffix(name));
      var text := lib.decode(data);
      if !(suffix != "" && suffix !in TEXTUAL_EXTS) && text.Some? {
        fresh_ := [Leaf(|data|, text.value)];
        tally := Observe(lib, text.value);
        OneLeaf(lib, budget.scrubbed, fresh_[0]);
        budget.scrubbed := budget.scrubbed + fresh_;
      }
      LeavesFound(charged, fresh_);
    }
    assert [] + fresh_ == fresh_;
    AgreesThen(start, charge, charged, [], false, false, inside, budget.Now(), fresh_, exceeded, malformed);
  }

  lemma OneMoreEntry(lib: Library, entries: seq<Entry>, k: nat, depth: nat)
    requires 0 < k <= |entries|
    ensures OfEntries(lib, entries[..k], depth) ==
      OfEntries(lib, entries[..k - 1], depth).Then(OfEntry(lib, entries[k - 1], depth))
  {
    assert entries[..k][..k - 1] == entries[..k - 1];
  }

  lemma EntryCases(lib: Library, e: Entry, depth: nat)
    ensures OfEntry(lib, e, depth) ==
      if !e.isFile || e.declared > MAX_MEMBER_BYTES || e.data.Nothing? then CLEAN
      else if e.data.Fails? then CLEAN.(damaged := true)
      else OfMember(lib, e.name, e.data.bytes, depth)
  {
  }

  lemma ArchiveIs(lib: Library, raw: Bytes, kind: Kind, depth: nat)
    ensures OfArchive(lib, raw, kind, depth) ==
      OfEntries(lib, lib.parse(raw, kind).entries, depth).Then(CLEAN.(damaged := lib.parse(raw, kind).broken))
  {
  }

  /** `_scan_archive_bytes`.  Within the budget, both flags say exactly what they are for and the texts scrubbed are
      exactly those called for; beyond it, the flag goes up.  The hits are always those of the texts scrubbed. */
  method ScanArchive(lib: Library, raw: Bytes, kind: Kind, depth: nat, budget: Budget)
    returns (tally: Tally, exceeded: bool, malformed: bool, ghost fresh_: seq<Leaf>)
    requires budget.Valid()
    modifies budget
    ensures budget.Valid()
    ensures budget.scrubbed == old(budget.scrubbed) + fresh_ && tally == Total(lib, fresh_)
    ensures Agrees(old(budget.Now()), OfArchive(lib, raw, kind, depth), budget.Now(), fresh_, exceeded, malformed)
    decreases Room(depth), 1
  {
    hide Total, OfEntries, OfEntry, OfArchive, OfMember, Agrees, Size;
    tally, exceeded, malformed, fresh_ := Tally(0, []), false, false, [];
    ScanStarts(lib, budget.Now(), depth);
    var listing := lib.parse(raw, kind);
    var entries := listing.entries;
    ghost var start := budget.Now();
    var k := 0;
    while k < |entries|
      invariant 0 <= k <= |entries|
      invariant budget.Valid()
      invariant budget.scrubbed == old(budget.scrubbed) + fresh_ && tally == Total(lib, fresh_)
      invariant Agrees(start, OfEntries(lib, entries[..k], depth), budget.Now(), fresh_, exceeded, malformed)
    {
      var e := entries[k];
      k := k + 1;
      ghost var sofar, now, done := OfEntries(lib, entries[..k - 1], depth), budget.Now(), fresh_;
      OneMoreEntry(lib, entries, k, depth);
      NothingCharged(now);
      EntryCases(lib, e, depth);
      if !e.isFile || e.declared > MAX_MEMBER_BYTES || e.data.Nothing? {
        AgreesThen(start, sofar, now, done, exceeded, malformed, CLEAN, now, [], false, false);
        assert done + [] == done;
        continue;
      }
      if e.data.Fails? {
        AgreesThen(start, sofar, now, done, exceeded, malformed, CLEAN.(damaged := true), now, [], false, true);
        assert done + [] == done;
        malformed := true;
        continue;
      }
      var t, x, m, more := HandleMember(lib, e.name, e.data.bytes, depth, budget);
      AgreesThen(start, sofar, now, done, exceeded, malformed, OfEntry(lib, e, depth), budget.Now(), more, x, m);
      TotalAppend(lib, done, more);
      tally, exceeded, malformed, fresh_ := tally.Plus(t), exceeded || x, malformed || m, done + more;
    }
    assert entries[..k] == entries && fresh_ + [] == fresh_;
    NothingCharged(budget.Now());
    ArchiveIs(lib, raw, kind, depth);
    AgreesThen(start, OfEntries(lib, entries, depth), budget.Now(), fresh_, exceeded, malformed,
               CLEAN.(damaged := listing.broken), budget.Now(), [], false, listing.broken);
    malformed := malformed || listing.broken;
  }

  /** A whole scan, from a fresh budget.  It scrubs at most 4096 members and 32 MiB; both flags stay down exactly when
      nothing is damaged or buried and everything fits; and then the hits are those of every eligible leaf of the
      tree, at any depth. */
  method ScanWhole(lib: Library, raw: Bytes, kind: Kind)
    returns (tally: Tally, exceeded: bool, malformed: bool, ghost scrubbed: seq<Leaf>)
    ensures |scrubbed| <= MAX_MEMBERS && Size(scrubbed) <= MAX_TOTAL_BYTES && tally == Total(lib, scrubbed)
    ensures var o := OfArchive(lib, raw, kind, 0);
      !exceeded && !malformed <==> !o.buried && !o.damaged && Fits(Purse(0, 0), o.charges)
    ensures !exceeded && !malformed ==>
      forall levels: nat :: levels >= MAX_DEPTH ==> tally == Total(lib, TreeLeaves(lib, raw, kind, levels))
  {
    var budget := new Budget();
    hide Total, OfArchive, TreeLeaves;
    tally, exceeded, malformed, scrubbed := ScanArchive(lib, raw, kind, 0, budget);
    assert budget.scrubbed == scrubbed;
    if !exceeded && !malformed {
      forall levels: nat | levels >= MAX_DEPTH
        ensures TreeLeaves(lib, raw, kind, levels) == scrubbed
      {
        CeilingHidesNothing(lib, raw, kind, 0, levels);
      }
    }
  }
}
