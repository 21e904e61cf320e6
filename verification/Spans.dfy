/** Text spans (privacy.py): merging them, cutting them out of a text, and mapping matches found in a
    whitespace-collapsed view back to the text they came from. */
module Spans {
  import opened Common

  /** Positions `start` up to, not including, `end`. */
  datatype Span = Span(start: int, end: int)

  predicate Covers(spans: seq<Span>, i: int) {
    exists s :: s in spans && s.start <= i < s.end
  }

  predicate SpanLeq(a: Span, b: Span) {
    a.start < b.start || (a.start == b.start && a.end <= b.end)
  }

  /** A gap of at least one position between each span and the next, and starts in order. */
  predicate Separated(spans: seq<Span>) {
    forall i :: 0 < i < |spans| ==> spans[i - 1].end < spans[i].start && spans[i - 1].start <= spans[i].start
  }

  predicate Proper(s: Span) { s.start < s.end }

  predicate StartsHere(spans: seq<Span>, i: int) {
    exists s :: s in spans && s.start == i
  }

  predicate EndsHere(spans: seq<Span>, i: int) {
    exists s :: s in spans && s.end == i
  }

  /** Every bound of a merged span is a bound of one of the spans it came from. */
  predicate BoundsFrom(merged: seq<Span>, spans: seq<Span>) {
    forall m :: m in merged ==> StartsHere(spans, m.start) && EndsHere(spans, m.end)
  }

  predicate AtLeast(spans: seq<Span>, width: int) {
    forall s :: s in spans ==> s.start + width <= s.end
  }

  // ----- merging

  lemma SpanLeqIsTotalPreorder()
    ensures TotalPreorder(SpanLeq)
  {
  }

  /** `sorted(spans)`. */
  function SortSpans(spans: seq<Span>): (r: seq<Span>)
    ensures |r| == |spans| && forall i :: 0 < i < |r| ==> SpanLeq(r[i - 1], r[i])
    ensures forall s :: s in r <==> s in spans
  {
    SpanLeqIsTotalPreorder();
    SortElements(SpanLeq, spans);
    Sort(SpanLeq, spans)
  }

  lemma MergingStarts(s: Span)
    ensures Merging([s], [s])
  {
    assert s in [s];
  }

  /** `_merge_spans`. */
  method MergeSpans(spans: seq<Span>) returns (merged: seq<Span>)
    ensures Separated(merged)
    ensures forall i :: Covers(merged, i) <==> Covers(spans, i)
    ensures BoundsFrom(merged, spans)
    ensures forall width :: AtLeast(spans, width) ==> AtLeast(merged, width)
  {
    hide Merging, SortSpans, Separated, Covers, BoundsFrom, AtLeast;
    if spans == [] {
      NothingMerged();
      return [];
    }
    var ordered := SortSpans(spans);
    merged := [ordered[0]];
    assert ordered[..1] == merged;
    MergingStarts(ordered[0]);
    var k := 1;
    while k < |ordered|
      invariant 1 <= k <= |ordered|
      invariant Merging(ordered[..k], merged)
    {
      var next, last := ordered[k], merged[|merged| - 1];
      assert SpanLeq(ordered[k - 1], next);
      assert ordered[..k + 1] == ordered[..k] + [next];
      MergeStep(ordered[..k], next, merged);
      if next.start <= last.end {
        merged := merged[..|merged| - 1] + [Span(last.start, if last.end < next.end then next.end else last.end)];
      } else {
        merged := merged + [next];
      }
      k := k + 1;
    }
    assert ordered[..k] == ordered;
    MergingEnds(ordered, spans, merged);
  }

  lemma NothingMerged()
    ensures Separated([]) && BoundsFrom([], []) && forall width :: AtLeast([], width)
  {
  }

  lemma MergingEnds(ordered: seq<Span>, spans: seq<Span>, merged: seq<Span>)
    requires Merging(ordered, merged) && forall s :: s in ordered <==> s in spans
    ensures Separated(merged)
    ensures forall i :: Covers(merged, i) <==> Covers(spans, i)
    ensures BoundsFrom(merged, spans)
    ensures forall width :: AtLeast(spans, width) ==> AtLeast(merged, width)
  {
    SameElements(ordered, spans);
    hide Covers, StartsHere, EndsHere, AtLeast;
  }

  lemma SameElements(a: seq<Span>, b: seq<Span>)
    requires forall s :: s in a <==> s in b
    ensures forall i :: Covers(a, i) <==> Covers(b, i)
    ensures forall i :: StartsHere(a, i) <==> StartsHere(b, i)
    ensures forall i :: EndsHere(a, i) <==> EndsHere(b, i)
    ensures forall w :: AtLeast(a, w) <==> AtLeast(b, w)
  {
  }

  /** The loop's account of the spans seen so far. */
  ghost predicate Merging(seen: seq<Span>, merged: seq<Span>)
    ensures Merging(seen, merged) ==> merged != []
  {
    && seen != [] && merged != []
    && Separated(merged)
    && merged[|merged| - 1].start <= seen[|seen| - 1].start
    && (forall i :: Covers(merged, i) <==> Covers(seen, i))
    && BoundsFrom(merged, seen)
    && (forall width :: AtLeast(seen, width) ==> AtLeast(merged, width))
  }

  function Merge(merged: seq<Span>, next: Span): seq<Span>
    requires merged != []
  {
    var last := merged[|merged| - 1];
    if next.start <= last.end
    then merged[..|merged| - 1] + [Span(last.start, if last.end < next.end then next.end else last.end)]
    else merged + [next]
  }

  lemma MergeStep(seen: seq<Span>, next: Span, before: seq<Span>)
    requires Merging(seen, before) && seen[|seen| - 1].start <= next.start
    ensures Merging(seen + [next], Merge(before, next))
  {
    hide Covers, AtLeast, BoundsFrom, Separated, Merge;
    MergeSeparated(before, next);
    forall i ensures Covers(Merge(before, next), i) <==> Covers(seen + [next], i) {
      MergeCovers(before, next, i);
      CoversOneMore(seen, next, i);
    }
    MergeBounds(seen, before, next);
    forall width | AtLeast(seen + [next], width) ensures AtLeast(Merge(before, next), width) {
      MergeWidth(seen, before, next, width);
    }
  }

  lemma MergeSeparated(before: seq<Span>, next: Span)
    requires before != [] && Separated(before) && before[|before| - 1].start <= next.start
    ensures Separated(Merge(before, next))
    ensures Merge(before, next) != [] && Merge(before, next)[|Merge(before, next)| - 1].start <= next.start
  {
  }

  lemma MergeCovers(before: seq<Span>, next: Span, i: int)
    requires before != [] && before[|before| - 1].start <= next.start
    ensures Covers(Merge(before, next), i) <==> Covers(before, i) || next.start <= i < next.end
  {
    hide Covers;
    var merged, n := Merge(before, next), |before| - 1;
    assert before == before[..n] + [before[n]];
    CoversOneMore(before[..n], before[n], i);
    if next.start <= before[n].end {
      CoversOneMore(before[..n], merged[n], i);
    } else {
      CoversOneMore(before, next, i);
    }
  }

  lemma MergeBounds(seen: seq<Span>, before: seq<Span>, next: Span)
    requires before != [] && BoundsFrom(before, seen)
    ensures BoundsFrom(Merge(before, next), seen + [next])
  {
    var merged, now, last := Merge(before, next), seen + [next], before[|before| - 1];
    assert next in now && last in before;
    forall m | m in before ensures StartsHere(now, m.start) && EndsHere(now, m.end) {
      assert forall s :: s in seen ==> s in now;
    }
    assert forall m :: m in before[..|before| - 1] ==> m in before;
    assert StartsHere(now, next.start) && EndsHere(now, next.end);
  }

  lemma MergeWidth(seen: seq<Span>, before: seq<Span>, next: Span, width: int)
    requires before != [] && AtLeast(seen + [next], width) && (AtLeast(seen, width) ==> AtLeast(before, width))
    ensures AtLeast(Merge(before, next), width)
  {
    assert next in seen + [next] && before[|before| - 1] in before;
    assert forall s :: s in seen ==> s in seen + [next];
  }

  lemma CoversOneMore(spans: seq<Span>, s: Span, i: int)
    ensures Covers(spans + [s], i) <==> Covers(spans, i) || s.start <= i < s.end
  {
    if Covers(spans, i) {
      var t :| t in spans && t.start <= i < t.end;
      assert t in spans + [s];
    }
    if s.start <= i < s.end { assert s in spans + [s]; }
  }

  // ----- a merged list is a normal form

  /** Of proper spans there is only one separated list over any set of positions, so merging is idempotent and
      two lists merge alike exactly when they cover alike. */
  lemma {:induction false} SeparatedCoverIsUnique(a: seq<Span>, b: seq<Span>)
    requires Separated(a) && Separated(b)
    requires forall s :: s in a || s in b ==> Proper(s)
    requires forall i :: Covers(a, i) <==> Covers(b, i)
    ensures a == b
    decreases |a|
  {
    hide Covers;
    NothingCovered();
    if a == [] {
      if b != [] { CoversFirst(b); }
    } else {
      CoversFirst(a);
      assert b != [];
      CoversFirst(b);
      assert a[0].start == b[0].start;
      SameGap(a, b);
      forall i ensures Covers(a[1..], i) <==> Covers(b[1..], i) {
        CoversRest(a, i);
        CoversRest(b, i);
      }
      assert forall s :: s in a[1..] || s in b[1..] ==> s in a || s in b;
      SeparatedCoverIsUnique(a[1..], b[1..]);
      assert a == [a[0]] + a[1..] && b == [b[0]] + b[1..];
    }
  }

  lemma NothingCovered()
    ensures forall i :: !Covers([], i)
  {
  }

  lemma SameGap(a: seq<Span>, b: seq<Span>)
    requires a != [] && b != [] && Separated(a) && Separated(b)
    requires forall s :: s in a || s in b ==> Proper(s)
    requires forall i :: Covers(a, i) <==> Covers(b, i)
    requires a[0].start == b[0].start
    ensures a[0].end == b[0].end
  {
    hide Covers;
    CoversGap(a);
    CoversGap(b);
    assert a[0] in a && b[0] in b;
    assert !Covers(b, a[0].end) && !Covers(a, b[0].end);
  }

  lemma {:induction false} StartsFollow(a: seq<Span>, k: nat)
    requires Separated(a) && 0 < k < |a| && forall s :: s in a ==> Proper(s)
    ensures a[0].end < a[k].start
  {
    if k > 1 {
      StartsFollow(a, k - 1);
      assert a[k - 1] in a;
    }
  }

  lemma CoversFirst(a: seq<Span>)
    requires a != [] && Separated(a) && forall s :: s in a ==> Proper(s)
    ensures Covers(a, a[0].start)
    ensures forall i :: Covers(a, i) ==> a[0].start <= i
  {
    assert a[0] in a;
    forall i | Covers(a, i) ensures a[0].start <= i {
      var s :| s in a && s.start <= i < s.end;
      var k :| 0 <= k < |a| && a[k] == s;
      if k > 0 { StartsFollow(a, k); }
    }
  }

  /** The first span's end is the first position after its start that is not covered. */
  lemma CoversGap(a: seq<Span>)
    requires a != [] && Separated(a) && forall s :: s in a ==> Proper(s)
    ensures !Covers(a, a[0].end)
    ensures forall i :: a[0].start <= i < a[0].end ==> Covers(a, i)
  {
    assert a[0] in a;
    if Covers(a, a[0].end) {
      var s :| s in a && s.start <= a[0].end < s.end;
      var k :| 0 <= k < |a| && a[k] == s;
      if k > 0 { StartsFollow(a, k); }
      assert false;
    }
  }

  lemma CoversRest(a: seq<Span>, i: int)
    requires a != [] && Separated(a) && forall s :: s in a ==> Proper(s)
    ensures Covers(a[1..], i) <==> Covers(a, i) && a[0].end < i
  {
    assert a == [a[0]] + a[1..];
    CoversHead(a[0], a[1..], i);
    if Covers(a[1..], i) {
      var s :| s in a[1..] && s.start <= i < s.end;
      var k :| 0 <= k < |a[1..]| && a[1..][k] == s;
      StartsFollow(a, k + 1);
    }
    assert a[0] in a;
  }

  // ----- redacting

  predicate Within(spans: seq<Span>, text: string) {
    forall s :: s in spans ==> 0 <= s.start <= s.end <= |text|
  }

  /** All spans replaced at once, position by position from `i`: the replacement where a span starts, and the
      characters no span covers. */
  function Redacted(text: string, spans: seq<Span>, replacement: string, i: nat): string
    requires i <= |text|
    decreases |text| - i
  {
    (if StartsHere(spans, i) then replacement else "") +
    if i == |text| then "" else (if Covers(spans, i) then "" else [text[i]]) + Redacted(text, spans, replacement, i + 1)
  }

  /** `_redact_spans`: spans are cut out one by one, the last first, so that earlier positions stay where they are. */
  method RedactSpans(text: string, spans: seq<Span>, replacement: string) returns (r: string)
    requires Within(spans, text) && Separated(spans)
    ensures r == Redacted(text, spans, replacement, 0)
  {
    hide Redacted, Separated, Within;
    r := text;
    var j := |spans|;
    Untouched(text, [], replacement, 0, |text|);
    NothingLeft(text, replacement);
    assert spans[j..] == [] && text[0..|text|] == text;
    while j > 0
      invariant 0 <= j <= |spans|
      invariant r == Redacted(text, spans[j..], replacement, 0)
    {
      j := j - 1;
      var s := spans[j];
      Suffix(spans, text, j);
      RedactOne(text, s, spans[j + 1..], replacement);
      r := r[..s.start] + replacement + r[s.end..];
    }
    assert spans[0..] == spans;
  }

  lemma NothingLeft(text: string, replacement: string)
    ensures Redacted(text, [], replacement, |text|) == ""
  {
  }

  lemma Suffix(spans: seq<Span>, text: string, j: nat)
    requires j < |spans| && Within(spans, text) && Separated(spans)
    ensures [spans[j]] + spans[j + 1..] == spans[j..]
    ensures Within(spans[j..], text) && Separated(spans[j..])
    ensures 0 <= spans[j].start <= spans[j].end <= |text|
  {
    assert spans[j] in spans;
  }

  lemma RedactOne(text: string, s: Span, rest: seq<Span>, replacement: string)
    requires Within([s] + rest, text) && Separated([s] + rest)
    ensures var u := Redacted(text, rest, replacement, 0);
      && s.end <= |u|
      && Redacted(text, [s] + rest, replacement, 0) == u[..s.start] + replacement + u[s.end..]
  {
    hide Covers, StartsHere, Redacted;
    var all := [s] + rest;
    RestAfter(s, rest, text);
    forall i | 0 <= i < s.start ensures !StartsHere(all, i) && !Covers(all, i) {
      CoversHead(s, rest, i);
      StartsHead(s, rest, i);
    }
    Untouched(text, rest, replacement, 0, s.end);
    Untouched(text, all, replacement, 0, s.start);
    SpanItself(text, s, rest, replacement);
    var u, tail := Redacted(text, rest, replacement, 0), Redacted(text, rest, replacement, s.end);
    assert u == text[0..s.end] + tail;
    assert u[..s.start] == text[0..s.start] && u[s.end..] == tail;
    assert text[0..s.start] + (replacement + tail) == text[0..s.start] + replacement + tail;
  }

  lemma SpanItself(text: string, s: Span, rest: seq<Span>, replacement: string)
    requires 0 <= s.start <= s.end <= |text|
    requires forall i :: StartsHere(rest, i) || Covers(rest, i) ==> s.end < i
    ensures Redacted(text, [s] + rest, replacement, s.start) == replacement + Redacted(text, rest, replacement, s.end)
  {
    hide Covers, StartsHere;
    var all := [s] + rest;
    forall i ensures Covers(all, i) <==> s.start <= i < s.end || Covers(rest, i) { CoversHead(s, rest, i); }
    forall i ensures StartsHere(all, i) <==> i == s.start || StartsHere(rest, i) { StartsHead(s, rest, i); }
    if s.start < s.end {
      Swallowed(text, all, replacement, s.start + 1, s.end);
      SameFrom(text, s, rest, replacement, s.end);
    } else {
      SameFrom(text, s, rest, replacement, s.start + 1);
    }
  }

  /** Every later span begins after the first one ends. */
  lemma {:induction false} RestAfter(s: Span, rest: seq<Span>, text: string)
    requires Within([s] + rest, text) && Separated([s] + rest)
    ensures forall i :: StartsHere(rest, i) || Covers(rest, i) ==> s.end < i
    decreases |rest|
  {
    var all := [s] + rest;
    hide Covers, StartsHere;
    NothingRemains();
    if rest != [] {
      assert all[0].end < all[1].start;
      assert [rest[0]] + rest[1..] == rest;
      assert forall t :: t in rest ==> t in all;
      forall i | 0 < i < |rest| ensures rest[i - 1].end < rest[i].start && rest[i - 1].start <= rest[i].start {
        assert all[i + 1] == rest[i] && all[i] == rest[i - 1];
      }
      assert rest[0] in rest;
      RestAfter(rest[0], rest[1..], text);
      forall i | StartsHere(rest, i) || Covers(rest, i) ensures s.end < i {
        CoversHead(rest[0], rest[1..], i);
        StartsHead(rest[0], rest[1..], i);
      }
    }
  }

  lemma NothingRemains()
    ensures forall i :: !StartsHere([], i) && !Covers([], i)
  {
  }

  lemma CoversHead(s: Span, rest: seq<Span>, i: int)
    ensures Covers([s] + rest, i) <==> s.start <= i < s.end || Covers(rest, i)
  {
    var all := [s] + rest;
    assert forall t :: t in all <==> t == s || t in rest;
  }

  lemma StartsHead(s: Span, rest: seq<Span>, i: int)
    ensures StartsHere([s] + rest, i) <==> s.start == i || StartsHere(rest, i)
  {
    var all := [s] + rest;
    assert forall t :: t in all <==> t == s || t in rest;
  }

  lemma Plain(text: string, spans: seq<Span>, replacement: string, i: nat)
    requires i < |text| && !StartsHere(spans, i) && !Covers(spans, i)
    ensures Redacted(text, spans, replacement, i) == [text[i]] + Redacted(text, spans, replacement, i + 1)
  {
  }

  lemma {:induction false} Untouched(text: string, spans: seq<Span>, replacement: string, i: nat, k: nat)
    requires i <= k <= |text|
    requires forall j :: i <= j < k ==> !StartsHere(spans, j) && !Covers(spans, j)
    ensures Redacted(text, spans, replacement, i) == text[i..k] + Redacted(text, spans, replacement, k)
    decreases k - i
  {
    hide Covers, StartsHere, Redacted;
    if i == k {
      assert text[i..k] == "";
    } else {
      Plain(text, spans, replacement, i);
      Untouched(text, spans, replacement, i + 1, k);
      assert text[i..k] == [text[i]] + text[i + 1..k];
    }
  }

  lemma {:induction false} Swallowed(text: string, spans: seq<Span>, replacement: string, i: nat, k: nat)
    requires i <= k <= |text|
    requires forall j :: i <= j < k ==> !StartsHere(spans, j) && Covers(spans, j)
    ensures Redacted(text, spans, replacement, i) == Redacted(text, spans, replacement, k)
    decreases k - i
  {
    if i < k { Swallowed(text, spans, replacement, i + 1, k); }
  }

  /** Past its end, a span makes no difference. */
  lemma {:induction false} SameFrom(text: string, s: Span, rest: seq<Span>, replacement: string, i: nat)
    requires s.start < i && s.end <= i
    ensures i <= |text| ==> Redacted(text, [s] + rest, replacement, i) == Redacted(text, rest, replacement, i)
    decreases |text| - i
  {
    if i <= |text| {
      CoversHead(s, rest, i);
      StartsHead(s, rest, i);
      SameFrom(text, s, rest, replacement, i + 1);
    }
  }

  /** The characters outside every span, in order. */
  function Survivors(text: string, spans: seq<Span>, i: nat): string
    requires i <= |text|
    decreases |text| - i
  {
    if i == |text| then "" else (if Covers(spans, i) then "" else [text[i]]) + Survivors(text, spans, i + 1)
  }

  // The same substitution with every character marked: `true` for those of a replacement.

  function Mark(s: string, put: bool): seq<(char, bool)> {
    seq(|s|, i requires 0 <= i < |s| => (s[i], put))
  }

  function PutAt(spans: seq<Span>, replacement: string, i: nat): seq<(char, bool)> {
    if StartsHere(spans, i) then Mark(replacement, true) else []
  }

  function KeptAt(text: string, spans: seq<Span>, i: nat): seq<(char, bool)>
    requires i < |text|
  {
    if Covers(spans, i) then [] else [(text[i], false)]
  }

  function MarkedRedaction(text: string, spans: seq<Span>, replacement: string, i: nat): seq<(char, bool)>
    requires i <= |text|
    decreases |text| - i
  {
    PutAt(spans, replacement, i) +
    if i == |text| then [] else KeptAt(text, spans, i) + MarkedRedaction(text, spans, replacement, i + 1)
  }

  function Unmarked(marked: seq<(char, bool)>): string {
    seq(|marked|, i requires 0 <= i < |marked| => marked[i].0)
  }

  /** The characters with the one mark, in order. */
  function Picked(marked: seq<(char, bool)>, put: bool): string {
    if marked == [] then ""
    else PickedFirst(marked[0], put) + Picked(marked[1..], put)
  }

  function PickedFirst(m: (char, bool), put: bool): string {
    if m.1 == put then [m.0] else ""
  }

  lemma PickedStep(marked: seq<(char, bool)>, put: bool)
    requires marked != []
    ensures Picked(marked, put) == PickedFirst(marked[0], put) + Picked(marked[1..], put)
  {
  }

  lemma {:induction false} PickedAppend(a: seq<(char, bool)>, b: seq<(char, bool)>, put: bool)
    ensures Picked(a + b, put) == Picked(a, put) + Picked(b, put)
    decreases |a|
  {
    if a == [] {
      assert a + b == b;
    } else {
      var head, rest := PickedFirst(a[0], put), a[1..];
      PickedAppend(rest, b, put);
      PickedStep(a, put);
      PickedStep(a + b, put);
      hide Picked;
      assert (a + b)[1..] == rest + b;
      assert head + (Picked(rest, put) + Picked(b, put)) == head + Picked(rest, put) + Picked(b, put);
    }
  }

  lemma {:induction false} PickedMark(s: string, mark: bool, put: bool)
    ensures Picked(Mark(s, mark), put) == if mark == put then s else ""
    decreases |s|
  {
    if s != "" {
      assert Mark(s, mark)[1..] == Mark(s[1..], mark);
      PickedMark(s[1..], mark, put);
      assert s == [s[0]] + s[1..];
    }
  }

  /** The replacement once for each position from `i` where a span starts. */
  function Replacements(text: string, spans: seq<Span>, replacement: string, i: nat): string
    requires i <= |text|
    decreases |text| - i
  {
    (if StartsHere(spans, i) then replacement else "") +
    if i == |text| then "" else Replacements(text, spans, replacement, i + 1)
  }

  /** Nothing else is lost, added or reordered, whatever the replacement: of the characters of the result, those that
      come from the text are the uncovered ones, in order, and the others spell the replacement once per span start. */
  lemma {:induction false} UncoveredTextSurvives(text: string, spans: seq<Span>, replacement: string, i: nat)
    requires i <= |text|
    ensures var marked := MarkedRedaction(text, spans, replacement, i);
      && Unmarked(marked) == Redacted(text, spans, replacement, i)
      && Picked(marked, false) == Survivors(text, spans, i)
      && Picked(marked, true) == Replacements(text, spans, replacement, i)
    decreases |text| - i
  {
    hide StartsHere, Covers, Picked, PutAt, KeptAt;
    PutAtIs(spans, replacement, i);
    if i < |text| {
      var rest := MarkedRedaction(text, spans, replacement, i + 1);
      UncoveredTextSurvives(text, spans, replacement, i + 1);
      KeptAtIs(text, spans, i);
      PickedThree(PutAt(spans, replacement, i), KeptAt(text, spans, i), rest, false);
      PickedThree(PutAt(spans, replacement, i), KeptAt(text, spans, i), rest, true);
      UnmarkedThree(PutAt(spans, replacement, i), KeptAt(text, spans, i), rest);
      hide Unmarked;
    }
  }

  lemma PutAtIs(spans: seq<Span>, replacement: string, i: nat)
    ensures var put, shown := PutAt(spans, replacement, i), if StartsHere(spans, i) then replacement else "";
      Unmarked(put) == shown && Picked(put, true) == shown && Picked(put, false) == ""
    ensures PutAt(spans, replacement, i) + [] == PutAt(spans, replacement, i)
  {
    hide StartsHere;
    PickedMark(replacement, true, false);
    PickedMark(replacement, true, true);
    assert Unmarked(Mark(replacement, true)) == replacement;
  }

  lemma KeptAtIs(text: string, spans: seq<Span>, i: nat)
    requires i < |text|
    ensures var kept, shown := KeptAt(text, spans, i), if Covers(spans, i) then "" else [text[i]];
      Unmarked(kept) == shown && Picked(kept, false) == shown && Picked(kept, true) == ""
  {
    hide Covers;
    assert [(text[i], false)][1..] == [];
  }

  lemma UnmarkedThree(a: seq<(char, bool)>, b: seq<(char, bool)>, c: seq<(char, bool)>)
    ensures Unmarked(a + (b + c)) == Unmarked(a) + (Unmarked(b) + Unmarked(c))
  {
  }

  lemma PickedThree(a: seq<(char, bool)>, b: seq<(char, bool)>, c: seq<(char, bool)>, put: bool)
    ensures Picked(a + (b + c), put) == Picked(a, put) + (Picked(b, put) + Picked(c, put))
  {
    PickedAppend(b, c, put);
    PickedAppend(a, b + c, put);
  }

  // ----- matches in a collapsed view

  /** How the text is read: which characters are whitespace, and which of those are dropped. */
  datatype View = View(isSpace: char -> bool, collapse: (string, nat) -> bool)

  predicate Kept(v: View, text: string, i: nat)
    requires i < |text|
  {
    !(v.isSpace(text[i]) && v.collapse(text, i))
  }

  /** The positions from `lo` up to `hi` that stay. */
  function KeptIn(v: View, text: string, lo: nat, hi: nat): (r: seq<nat>)
    requires hi <= |text|
    ensures forall k :: 0 <= k < |r| ==> lo <= r[k] < hi && Kept(v, text, r[k])
    decreases hi
  {
    if hi <= lo then []
    else KeptIn(v, text, lo, hi - 1) + (if Kept(v, text, hi - 1) then [hi - 1] else [])
  }

  function Letters(text: string, positions: seq<nat>): (r: string)
    requires forall k :: 0 <= k < |positions| ==> positions[k] < |text|
    ensures |r| == |positions| && forall k :: 0 <= k < |r| ==> r[k] == text[positions[k]]
    decreases |positions|
  {
    if positions == [] then "" else Letters(text, positions[..|positions| - 1]) + [text[positions[|positions| - 1]]]
  }

  /** A stretch of text with its dropped whitespace removed. */
  function Spelled(v: View, text: string, s: Span): (r: string)
    requires 0 <= s.start && 0 <= s.end <= |text|
    ensures |r| == |KeptIn(v, text, s.start, s.end)|
  {
    Letters(text, KeptIn(v, text, s.start, s.end))
  }

  function Collapsed(v: View, text: string): (r: string)
    ensures |r| == |KeptIn(v, text, 0, |text|)|
  {
    Spelled(v, text, Span(0, |text|))
  }

  /** Where a match in the collapsed view lies in the text. */
  function Original(v: View, text: string, match_: Span): Span
    requires 0 <= match_.start < match_.end <= |KeptIn(v, text, 0, |text|)|
  {
    var index := KeptIn(v, text, 0, |text|);
    Span(index[match_.start], index[match_.end - 1] + 1)
  }

  lemma {:induction false} KeptSplits(v: View, text: string, lo: nat, mid: nat, hi: nat)
    requires lo <= mid <= hi <= |text|
    ensures KeptIn(v, text, lo, hi) == KeptIn(v, text, lo, mid) + KeptIn(v, text, mid, hi)
    decreases hi
  {
    if mid < hi { KeptSplits(v, text, lo, mid, hi - 1); }
  }

  /** Exactly `k` kept positions lie before the one with number `k`. */
  lemma {:induction false} KeptBefore(v: View, text: string, hi: nat, k: nat)
    requires hi <= |text| && k < |KeptIn(v, text, 0, hi)|
    ensures var at := KeptIn(v, text, 0, hi)[k];
      KeptIn(v, text, 0, at) == KeptIn(v, text, 0, hi)[..k]
      && KeptIn(v, text, 0, at + 1) == KeptIn(v, text, 0, hi)[..k + 1]
    decreases hi
  {
    var before, now := KeptIn(v, text, 0, hi - 1), KeptIn(v, text, 0, hi);
    KeptOneMore(v, text, hi);
    hide KeptIn, Kept;
    if k < |before| {
      KeptBefore(v, text, hi - 1, k);
      assert now[..k] == before[..k] && now[..k + 1] == before[..k + 1];
    } else {
      assert now[..k] == before && now[..k + 1] == now;
    }
  }

  lemma KeptOneMore(v: View, text: string, hi: nat)
    requires 0 < hi <= |text|
    ensures KeptIn(v, text, 0, hi) == KeptIn(v, text, 0, hi - 1) + (if Kept(v, text, hi - 1) then [hi - 1] else [])
  {
  }

  /** A match mapped back to the text spells the match: only dropped whitespace lies in between, and the stretch
      begins and ends with characters that stay. */
  lemma MappedMatchSpells(v: View, text: string, match_: Span)
    requires 0 <= match_.start < match_.end <= |Collapsed(v, text)|
    ensures var s := Original(v, text, match_);
      && 0 <= s.start < s.end <= |text|
      && Spelled(v, text, s) == Collapsed(v, text)[match_.start..match_.end]
      && Kept(v, text, s.start) && Kept(v, text, s.end - 1)
  {
    hide Letters;
    var s := Original(v, text, match_);
    MatchPositions(v, text, match_);
    SliceOfLetters(text, KeptIn(v, text, 0, |text|), match_.start, match_.end);
  }

  lemma MatchPositions(v: View, text: string, match_: Span)
    requires 0 <= match_.start < match_.end <= |KeptIn(v, text, 0, |text|)|
    ensures var s := Original(v, text, match_);
      && s.start < s.end
      && KeptIn(v, text, s.start, s.end) == KeptIn(v, text, 0, |text|)[match_.start..match_.end]
  {
    hide KeptIn;
    var index := KeptIn(v, text, 0, |text|);
    var s := Original(v, text, match_);
    KeptBefore(v, text, |text|, match_.start);
    KeptBefore(v, text, |text|, match_.end - 1);
    Increasing(v, text, match_.start, match_.end - 1);
    KeptSplits(v, text, 0, s.start, s.end);
    assert index[..match_.end] == index[..match_.start] + index[match_.start..match_.end];
  }

  lemma SliceOfLetters(text: string, positions: seq<nat>, j: nat, k: nat)
    requires j <= k <= |positions| && forall i :: 0 <= i < |positions| ==> positions[i] < |text|
    ensures Letters(text, positions[j..k]) == Letters(text, positions)[j..k]
  {
  }

  lemma Increasing(v: View, text: string, j: nat, k: nat)
    requires j <= k < |KeptIn(v, text, 0, |text|)|
    ensures KeptIn(v, text, 0, |text|)[j] <= KeptIn(v, text, 0, |text|)[k]
  {
    if j < k {
      KeptBefore(v, text, |text|, k);
      assert KeptIn(v, text, 0, |text|)[..k][j] == KeptIn(v, text, 0, |text|)[j];
    }
  }

  predicate HasSpace(v: View, text: string, s: Span) {
    exists j :: s.start <= j < s.end && 0 <= j < |text| && v.isSpace(text[j])
  }

  /** `pattern.finditer`: the spans of the matches of one pattern. */
  type Finder = string -> seq<Span>

  ghost predicate StaysInside(find: Finder) {
    forall t, m :: m in find(t) ==> 0 <= m.start <= m.end <= |t|
  }

  ghost predicate Inside(v: View, text: string, matches: seq<Span>) {
    forall k :: 0 <= k < |matches| ==> 0 <= matches[k].start <= matches[k].end <= |Collapsed(v, text)|
  }

  /** What becomes of one match: an empty one, or one whose stretch of text holds no whitespace, is left out. */
  function Image(v: View, text: string, m: Span): seq<Span>
    requires 0 <= m.start <= m.end <= |Collapsed(v, text)|
  {
    if m.start < m.end && HasSpace(v, text, Original(v, text, m)) then [Original(v, text, m)] else []
  }

  ghost function Mapped(v: View, text: string, matches: seq<Span>): seq<Span>
    requires Inside(v, text, matches)
    decreases |matches|
  {
    if matches == [] then []
    else Mapped(v, text, matches[..|matches| - 1]) + Image(v, text, matches[|matches| - 1])
  }

  /** Exactly the non-empty matches whose stretch of text holds whitespace are reported. */
  lemma {:induction false} MappedExactly(v: View, text: string, matches: seq<Span>, s: Span)
    requires Inside(v, text, matches)
    ensures s in Mapped(v, text, matches) <==> exists k :: 0 <= k < |matches| && Reported(v, text, matches[k], s)
    decreases |matches|
  {
    hide Reported, Image, Collapsed;
    if matches != [] {
      var n := |matches| - 1;
      MappedExactly(v, text, matches[..n], s);
      ImageIs(v, text, matches[n], s);
      assert forall k :: 0 <= k < n ==> matches[..n][k] == matches[k];
    }
  }

  lemma ImageIs(v: View, text: string, m: Span, s: Span)
    requires 0 <= m.start <= m.end <= |Collapsed(v, text)|
    ensures s in Image(v, text, m) <==> Reported(v, text, m, s)
  {
    hide KeptIn, HasSpace;
  }

  ghost predicate Reported(v: View, text: string, match_: Span, s: Span) {
    && 0 <= match_.start < match_.end <= |Collapsed(v, text)|
    && s == Original(v, text, match_)
    && HasSpace(v, text, s)
  }

  /** All matches, pattern by pattern. */
  function Found(patterns: seq<Finder>, t: string): seq<Span>
    decreases |patterns|
  {
    if patterns == [] then [] else Found(patterns[..|patterns| - 1], t) + patterns[|patterns| - 1](t)
  }

  lemma {:induction false} FoundInside(patterns: seq<Finder>, t: string)
    requires forall k :: 0 <= k < |patterns| ==> StaysInside(patterns[k])
    ensures forall m :: m in Found(patterns, t) ==> 0 <= m.start <= m.end <= |t|
    decreases |patterns|
  {
    if patterns != [] { FoundInside(patterns[..|patterns| - 1], t); }
  }

  lemma MappedAppend(v: View, text: string, a: seq<Span>, b: seq<Span>, k: nat)
    requires k < |b| && Inside(v, text, a + b[..k]) && 0 <= b[k].start <= b[k].end <= |Collapsed(v, text)|
    ensures Inside(v, text, a + b[..k + 1])
    ensures Mapped(v, text, a + b[..k + 1]) == Mapped(v, text, a + b[..k]) + Image(v, text, b[k])
  {
    hide Image, Collapsed;
    var more := a + b[..k + 1];
    assert more == (a + b[..k]) + [b[k]];
    assert more[..|more| - 1] == a + b[..k];
  }

  /** `_collapsed_pattern_spans`. */
  method CollapsedPatternSpans(text: string, patterns: seq<Finder>, v: View) returns (merged: seq<Span>)
    requires forall k :: 0 <= k < |patterns| ==> StaysInside(patterns[k])
    ensures var matches := Found(patterns, Collapsed(v, text));
      && Inside(v, text, matches)
      && Separated(merged)
      && (forall i :: Covers(merged, i) <==> Covers(Mapped(v, text, matches), i))
      && BoundsFrom(merged, Mapped(v, text, matches))
  {
    hide KeptIn, Letters, Mapped, Separated, Covers, BoundsFrom;
    var collapsed, indexMap := Collapse(text, v);
    var spans: seq<Span> := [];
    NothingMapped(v, text);
    for p := 0 to |patterns|
      invariant Inside(v, text, Found(patterns[..p], collapsed))
      invariant spans == Mapped(v, text, Found(patterns[..p], collapsed))
    {
      assert patterns[..p + 1][..p] == patterns[..p];
      var matches := patterns[p](collapsed);
      assert forall m :: m in matches ==> 0 <= m.start <= m.end <= |collapsed|;
      var more := MapMatches(text, v, collapsed, indexMap, matches, Found(patterns[..p], collapsed), spans);
      spans := more;
    }
    assert patterns[..|patterns|] == patterns;
    merged := MergeSpans(spans);
  }

  lemma NothingMapped(v: View, text: string)
    ensures Inside(v, text, []) && Mapped(v, text, []) == []
  {
  }

  /** Its first loop: the collapsed view, and where each of its characters comes from. */
  method Collapse(text: string, v: View) returns (collapsed: string, indexMap: seq<nat>)
    ensures indexMap == KeptIn(v, text, 0, |text|)
    ensures collapsed == Collapsed(v, text)
  {
    collapsed, indexMap := "", [];
    var position := 0;
    while position < |text|
      invariant 0 <= position <= |text|
      invariant indexMap == KeptIn(v, text, 0, position)
      invariant collapsed == Letters(text, indexMap)
    {
      if v.isSpace(text[position]) && v.collapse(text, position) {
      } else {
        assert (indexMap + [position])[..|indexMap|] == indexMap;
        collapsed := collapsed + [text[position]];
        indexMap := indexMap + [position];
      }
      position := position + 1;
    }
  }

  /** Its inner loop: the matches of one pattern, after those of the patterns before it. */
  method MapMatches(text: string, v: View, collapsed: string, indexMap: seq<nat>, matches: seq<Span>,
                    ghost earlier: seq<Span>, spans: seq<Span>) returns (more: seq<Span>)
    requires collapsed == Collapsed(v, text) && indexMap == KeptIn(v, text, 0, |text|)
    requires Inside(v, text, earlier) && spans == Mapped(v, text, earlier)
    requires forall m :: m in matches ==> 0 <= m.start <= m.end <= |collapsed|
    ensures Inside(v, text, earlier + matches) && more == Mapped(v, text, earlier + matches)
  {
    hide KeptIn, Letters, Mapped;
    more := spans;
    assert earlier + matches[..0] == earlier;
    for k := 0 to |matches|
      invariant Inside(v, text, earlier + matches[..k])
      invariant more == Mapped(v, text, earlier + matches[..k])
    {
      var m := matches[k];
      assert m in matches;
      MappedAppend(v, text, earlier, matches, k);
      if m.end > m.start {
        var s := Span(indexMap[m.start], indexMap[m.end - 1] + 1);
        var spaced := AnySpace(v, text, s);
        if spaced { more := more + [s]; }
      }
    }
    assert matches[..|matches|] == matches;
  }

  method AnySpace(v: View, text: string, s: Span) returns (found: bool)
    requires 0 <= s.start && s.end <= |text|
    ensures found <==> HasSpace(v, text, s)
  {
    var j := s.start;
    while j < s.end
      invariant s.start <= j
      invariant forall i :: s.start <= i < j && i < s.end ==> !v.isSpace(text[i])
    {
      if v.isSpace(text[j]) { return true; }
      j := j + 1;
    }
    found := false;
  }
}
