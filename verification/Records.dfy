/** Event-sourced writes to memory records (storage/records.py). */
module Records {
  import opened Common
  import opened Projections
  import opened L = Ledger

  // ----- what the log says about one record

  predicate Writes(e: Event, id: string) {
    e.content.OfMemory? && e.content.memory.Written?
      && e.content.memory.record.Some? && e.content.memory.record.value.id == id
  }

  /** Supersedes or archives the record, if it is there. */
  predicate Marks(e: Event, id: string) {
    e.content.OfMemory? && !e.content.memory.Written? && e.content.memory.id == Some(id)
  }

  /** The row under the mark. */
  function Marked(row: MemoryRow, e: Event): MemoryRow
    requires e.content.OfMemory? && !e.content.memory.Written?
  {
    var at := Or(e.content.memory.changedAt, e.timestamp);
    if e.content.memory.Superseded? then row.(status := "superseded", archived := false, updatedAt := at)
    else row.(status := "archived", archived := true, updatedAt := at)
  }

  ghost predicate LastWrite(log: seq<Event>, lost: set<nat>, id: string, i: nat) {
    i < |log| && i !in lost && Writes(log[i], id) && forall k :: i < k < |log| && k !in lost ==> !Writes(log[k], id)
  }

  ghost predicate LastMark(log: seq<Event>, lost: set<nat>, id: string, since: nat, i: nat) {
    since < i < |log| && i !in lost && Marks(log[i], id) &&
    forall k :: i < k < |log| && k !in lost ==> !Marks(log[k], id)
  }

  ghost predicate NoMark(log: seq<Event>, lost: set<nat>, id: string, since: nat) {
    forall k :: since < k < |log| && k !in lost ==> !Marks(log[k], id)
  }

  /** A record is the last applied write of it, under the last mark applied since. */
  ghost predicate Explained(log: seq<Event>, lost: set<nat>, id: string, row: MemoryRow, w: nat) {
    && LastWrite(log, lost, id, w)
    && var written := log[w].content.memory.record.value.row;
      if NoMark(log, lost, id, w) then row == written
      else exists m: nat :: LastMark(log, lost, id, w, m) && row == Marked(written, log[m])
  }

  lemma UnrelatedEvent(t: Tables, e: Event, id: string)
    requires !Writes(e, id) && !Marks(e, id)
    ensures id in Apply(t, e).memory.records <==> id in t.memory.records
    ensures id in t.memory.records ==> Apply(t, e).memory.records[id] == t.memory.records[id]
  {
  }

  lemma {:induction false} PresentIffWritten(log: seq<Event>, lost: set<nat>, id: string)
    ensures id in FoldExcept(log, lost).memory.records <==>
      exists i :: 0 <= i < |log| && i !in lost && Writes(log[i], id)
    decreases |log|
  {
    if log != [] {
      var init := log[..|log| - 1];
      PresentIffWritten(init, lost, id);
      if i :| 0 <= i < |log| && i !in lost && Writes(log[i], id) {
        assert i < |init| ==> init[i] == log[i];
      }
      if i :| 0 <= i < |init| && i !in lost && Writes(init[i], id) {
        assert log[i] == init[i];
      }
    }
  }

  /** Replay or live, crashes or not: the row of a record is explained by its own events alone. */
  lemma {:induction false} RowIsExplained(log: seq<Event>, lost: set<nat>, id: string) returns (w: nat)
    requires id in FoldExcept(log, lost).memory.records
    ensures Explained(log, lost, id, FoldExcept(log, lost).memory.records[id], w)
    decreases |log|
  {
    var n := |log| - 1;
    var init, e := log[..n], log[n];
    var before := FoldExcept(init, lost);
    if n in lost || (!Writes(e, id) && !Marks(e, id)) {
      if n !in lost { UnrelatedEvent(before, e, id); }
      w := RowIsExplained(init, lost, id);
      Carries(log, lost, id, before.memory.records[id], w);
    } else if Writes(e, id) {
      w := n;
      assert NoMark(log, lost, id, n);
    } else {
      w := RowIsExplained(init, lost, id);
      assert LastWrite(log, lost, id, w);
      assert LastMark(log, lost, id, w, n);
    }
  }

  lemma Carries(log: seq<Event>, lost: set<nat>, id: string, row: MemoryRow, w: nat)
    requires log != [] && Explained(log[..|log| - 1], lost, id, row, w)
    requires var n := |log| - 1; n in lost || (!Writes(log[n], id) && !Marks(log[n], id))
    ensures Explained(log, lost, id, row, w)
  {
    var init := log[..|log| - 1];
    assert forall k :: 0 <= k < |init| ==> init[k] == log[k];
    assert LastWrite(log, lost, id, w);
    if NoMark(init, lost, id, w) {
      assert NoMark(log, lost, id, w);
    } else {
      var m: nat :| LastMark(init, lost, id, w, m) && row == Marked(init[w].content.memory.record.value.row, init[m]);
      assert LastMark(log, lost, id, w, m);
    }
  }

  // ----- the writers

  class RecordStore {
    const ledger: L.Ledger

    constructor ()
      ensures fresh(ledger) && ledger.Valid() && ledger.log == []
    {
      ledger := new L.Ledger();
    }

    /** `write_record`: an unknown field is refused before anything is appended. */
    method WriteRecord(record: MemoryRecord, unknownFields: bool, at: string, fate: Fate) returns (ok: bool)
      requires ledger.Valid()
      modifies ledger
      ensures ledger.Valid()
      ensures ok <==> !unknownFields && fate.Applies?
      ensures unknownFields ==> ledger.log == old(ledger.log)
      ensures ok ==> ledger.live.memory.records == old(ledger.live).memory.records[record.id := record.row]
      ensures ok ==> ledger.live.memory.sources == PutSources(old(ledger.live).memory.sources, record.sources)
      ensures ok ==> ledger.live == old(ledger.live).(memory := ledger.live.memory)
      ensures !ok ==> ledger.live == old(ledger.live)
      ensures ok ==> ledger.log != [] && LastWrite(ledger.log, ledger.lost, record.id, |ledger.log| - 1)
    {
      if unknownFields { return false; }
      ledger.Record(Event(at, OfMemory(Written(Some(record)))), fate);
      return fate.Applies?;
    }

    /** `supersede_record` and `archive_record`: the row stays, only its mark and time move; for a record that is not
        there the event is logged all the same. */
    method MarkRecord(id: string, archive: bool, stamp: string, at: string, fate: Fate) returns (ok: bool)
      requires ledger.Valid()
      modifies ledger
      ensures ledger.Valid()
      ensures ok <==> fate.Applies?
      ensures !ok ==> ledger.live == old(ledger.live)
      ensures ok ==> ledger.live.memory.sources == old(ledger.live).memory.sources
      ensures ok ==> |ledger.log| == |old(ledger.log)| + 1
      ensures ok ==> var was := old(ledger.live).memory.records;
        ledger.live.memory.records ==
          if id in was
          then was[
            id := was[id].(
              status := if archive then "archived" else "superseded", archived := archive, updatedAt := stamp)]
          else was
    {
      var mark := if archive then Archived(Some(id), Some(stamp)) else Superseded(Some(id), Some(stamp));
      ledger.Record(Event(at, OfMemory(mark)), fate);
      return fate.Applies?;
    }
  }
}
