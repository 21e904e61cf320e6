/** The glob translator of scripts/check-canon-consistency.py: a loop that turns a path glob into a regular
    expression.  The expression's textbook meaning is proved to be a direct reading of the glob. */
module Glob {

  // ----- regular expressions, as far as the translator uses them

  datatype Regex =
    | Empty
    | Chr(c: char)
    | NotSlash            // [^/]
    | Dot                 // .  : anything but a newline
    | Cat(first: Regex, second: Regex)
    | Star(body: Regex)

  /** The strings an expression matches from end to end. */
  ghost predicate Accepts(r: Regex, s: string)
    decreases r, |s|
  {
    match r
    case Empty => s == ""
    case Chr(c) => s == [c]
    case NotSlash => |s| == 1 && s[0] != '/'
    case Dot => |s| == 1 && s[0] != '\n'
    case Cat(a, b) => exists k :: 0 <= k <= |s| && Accepts(a, s[..k]) && Accepts(b, s[k..])
    case Star(a) => s == "" || exists k :: 0 < k <= |s| && Accepts(a, s[..k]) && Accepts(r, s[k..])
  }

  function Plus(r: Regex): Regex {
    Cat(r, Star(r))
  }

  const DIR := Cat(Plus(NotSlash), Chr('/'))
  const DIRS := Star(DIR)           // (?:[^/]+/)*
  const ANYTHING := Star(Dot)       // .*
  const NAME := Star(NotSlash)      // [^/]*

  function Join(out: seq<Regex>): Regex {
    if out == [] then Empty else Cat(out[0], Join(out[1..]))
  }

  // ----- the translator

  /** `glob.startswith(text, i)`. */
  predicate StartsAt(glob: string, i: nat, text: string)
    requires i <= |glob|
  {
    text <= glob[i..]
  }

  /** The fragment at the head of a non-empty glob, and how many characters it stands for. */
  function Fragment(glob: string): (r: (Regex, nat))
    requires glob != ""
    ensures 0 < r.1 <= |glob|
  {
    if "**/" <= glob then (DIRS, 3)
    else if "**" <= glob then (ANYTHING, 2)
    else if glob[0] == '*' then (NAME, 1)
    else if glob[0] == '?' then (NotSlash, 1)
    else (Chr(glob[0]), 1)
  }

  function Fragments(glob: string): seq<Regex>
    decreases |glob|
  {
    if glob == "" then [] else [Fragment(glob).0] + Fragments(glob[Fragment(glob).1..])
  }

  lemma NextFragment(done: seq<Regex>, rest: string)
    requires rest != ""
    ensures done + Fragments(rest) == done + [Fragment(rest).0] + Fragments(rest[Fragment(rest).1..])
  {
  }

  /** `_glob_re`. */
  method GlobRe(glob: string) returns (r: Regex)
    ensures r == Join(Fragments(glob))
  {
    var out: seq<Regex> := [];
    var i := 0;
    while i < |glob|
      invariant 0 <= i <= |glob|
      invariant out + Fragments(glob[i..]) == Fragments(glob)
    {
      hide Fragments, Join;
      ghost var rest, n := glob[i..], Fragment(glob[i..]).1;
      NextFragment(out, rest);
      assert rest[n..] == glob[i + n..];
      if StartsAt(glob, i, "**/") {
        out := out + [DIRS];
        i := i + 3;
      } else if StartsAt(glob, i, "**") {
        out := out + [ANYTHING];
        i := i + 2;
      } else if glob[i] == '*' {
        out := out + [NAME];
        i := i + 1;
      } else if glob[i] == '?' {
        out := out + [NotSlash];
        i := i + 1;
      } else {
        out := out + [Chr(glob[i])];
        i := i + 1;
      }
    }
    assert out + [] == out;
    r := Join(out);
  }

  /** `_matches`: `match` starts at the first character and `\Z` stops at the last. */
  ghost predicate Matches(glob: string, path: string) {
    Accepts(Join(Fragments(glob)), path)
  }

  // ----- what a glob means, read directly

  function FirstSlash(p: string): (k: nat)
    ensures k <= |p|
    ensures forall i :: 0 <= i < k ==> p[i] != '/'
    ensures k < |p| ==> p[k] == '/'
  {
    if p == "" || p[0] == '/' then 0 else 1 + FirstSlash(p[1..])
  }

  /** Whether the path begins with a named directory. */
  predicate BeginsWithDir(p: string) {
    0 < FirstSlash(p) < |p|
  }

  /** The star forms each take one more directory, character or name character, or nothing more. */
  predicate Means(glob: string, p: string)
    decreases |glob|, |p|
  {
    if glob == "" then p == ""
    else if "**/" <= glob then Means(glob[3..], p) || (BeginsWithDir(p) && Means(glob, p[FirstSlash(p) + 1..]))
    else if "**" <= glob then Means(glob[2..], p) || (p != "" && Means(glob, p[1..]))
    else if glob[0] == '*' then Means(glob[1..], p) || (p != "" && p[0] != '/' && Means(glob, p[1..]))
    else p != "" && (if glob[0] == '?' then p[0] != '/' else p[0] == glob[0]) && Means(glob[1..], p[1..])
  }

  /** Whether the glob has a `**` that is not a `**` + `/`. */
  predicate SpansAnything(glob: string)
    decreases |glob|
  {
    glob != "" && (Fragment(glob).0 == ANYTHING || SpansAnything(glob[Fragment(glob).1..]))
  }

  // ----- taking expressions apart and putting them together

  lemma SplitCat(a: Regex, b: Regex, s: string) returns (k: nat)
    requires Accepts(Cat(a, b), s)
    ensures k <= |s| && Accepts(a, s[..k]) && Accepts(b, s[k..])
  {
    k :| 0 <= k <= |s| && Accepts(a, s[..k]) && Accepts(b, s[k..]);
  }

  lemma SplitStar(a: Regex, s: string) returns (k: nat)
    requires Accepts(Star(a), s) && s != ""
    ensures 0 < k <= |s| && Accepts(a, s[..k]) && Accepts(Star(a), s[k..])
  {
    k :| 0 < k <= |s| && Accepts(a, s[..k]) && Accepts(Star(a), s[k..]);
  }

  lemma MakeCat(a: Regex, b: Regex, u: string, v: string)
    requires Accepts(a, u) && Accepts(b, v)
    ensures Accepts(Cat(a, b), u + v)
  {
    assert (u + v)[..|u|] == u && (u + v)[|u|..] == v;
  }

  lemma MakeStar(a: Regex, u: string, v: string)
    requires u != "" && Accepts(a, u) && Accepts(Star(a), v)
    ensures Accepts(Star(a), u + v)
  {
    assert (u + v)[..|u|] == u && (u + v)[|u|..] == v;
  }

  ghost predicate TakesFirst(x: Regex, r: Regex, p: string, k: nat) {
    0 < k <= |p| && Accepts(x, p[..k]) && Accepts(Cat(Star(x), r), p[k..])
  }

  /** A star takes one more body, or nothing more. */
  lemma StarUnrolls(x: Regex, r: Regex, p: string)
    ensures Accepts(Cat(Star(x), r), p) <==> Accepts(r, p) || exists k: nat :: TakesFirst(x, r, p, k)
  {
    hide Accepts;
    if Accepts(Cat(Star(x), r), p) { FirstOfStar(x, r, p); }
    if Accepts(r, p) {
      NothingStarred(x);
      MakeCat(Star(x), r, "", p);
      assert "" + p == p;
    }
    if k: nat :| TakesFirst(x, r, p, k) {
      var q := p[k..];
      var j := SplitCat(Star(x), r, q);
      MakeStar(x, p[..k], q[..j]);
      MakeCat(Star(x), r, p[..k] + q[..j], q[j..]);
      assert p[..k] + q[..j] + q[j..] == p;
    }
  }

  lemma CutTwice(p: string, j: nat, k: nat)
    requires j <= k <= |p|
    ensures p[..k][..j] == p[..j] && p[..k][j..] + p[k..] == p[j..]
  {
  }

  lemma FirstOfStar(x: Regex, r: Regex, p: string)
    requires Accepts(Cat(Star(x), r), p)
    ensures Accepts(r, p) || exists k: nat :: TakesFirst(x, r, p, k)
  {
    hide Accepts;
    var k := SplitCat(Star(x), r, p);
    if k == 0 {
      assert p[0..] == p;
    } else {
      var s := p[..k];
      var j := SplitStar(x, s);
      MakeCat(Star(x), r, s[j..], p[k..]);
      CutTwice(p, j, k);
      assert TakesFirst(x, r, p, j);
    }
  }

  lemma NothingStarred(x: Regex)
    ensures Accepts(Star(x), "")
  {
  }

  lemma {:induction false} NameAccepts(s: string)
    ensures Accepts(NAME, s) <==> '/' !in s
    decreases |s|
  {
    if s != "" {
      NameAccepts(s[1..]);
      assert s == [s[0]] + s[1..];
      if Accepts(NAME, s) {
        var k := SplitStar(NotSlash, s);
        assert k == 1;
      }
      if '/' !in s {
        MakeStar(NotSlash, [s[0]], s[1..]);
      }
    }
  }

  predicate IsDir(s: string) {
    |s| >= 2 && s[|s| - 1] == '/' && '/' !in s[..|s| - 1]
  }

  lemma DirIs(s: string)
    requires Accepts(DIR, s)
    ensures IsDir(s)
  {
    var k := SplitCat(Plus(NotSlash), Chr('/'), s);
    var name := s[..k];
    assert s[k..] == "/";
    hide Accepts;
    var j := SplitCat(NotSlash, NAME, name);
    OneNotSlash(name[..j]);
    NameAccepts(name[j..]);
    assert name == name[..j] + name[j..];
    assert s[..|s| - 1] == name && s[|s| - 1] == s[k..][0];
  }

  lemma OneNotSlash(s: string)
    ensures Accepts(NotSlash, s) <==> |s| == 1 && s[0] != '/'
  {
  }

  lemma OneSlash()
    ensures Accepts(Chr('/'), "/")
  {
  }

  lemma IsDirAccepts(s: string)
    requires IsDir(s)
    ensures Accepts(DIR, s)
  {
    hide Accepts;
    var name := s[..|s| - 1];
    assert name == name[..1] + name[1..] && name[..1][0] in name && s == name + "/";
    OneNotSlash(name[..1]);
    NameAccepts(name[1..]);
    MakeCat(NotSlash, NAME, name[..1], name[1..]);
    OneSlash();
    MakeCat(Plus(NotSlash), Chr('/'), name, "/");
  }

  lemma DirsUnroll(r: Regex, p: string)
    ensures Accepts(Cat(DIRS, r), p) <==>
      Accepts(r, p) || (BeginsWithDir(p) && Accepts(Cat(DIRS, r), p[FirstSlash(p) + 1..]))
  {
    hide Accepts;
    StarUnrolls(DIR, r, p);
    var f := FirstSlash(p);
    if k: nat :| TakesFirst(DIR, r, p, k) {
      var s := p[..k];
      DirIs(s);
      assert s[|s| - 1] == p[k - 1] && forall i :: 0 <= i < k - 1 ==> p[i] == s[..|s| - 1][i];
      assert k == f + 1;
    }
    if BeginsWithDir(p) && Accepts(Cat(DIRS, r), p[f + 1..]) {
      assert p[..f + 1][..f] == p[..f];
      IsDirAccepts(p[..f + 1]);
      assert TakesFirst(DIR, r, p, f + 1);
    }
  }

  lemma NameUnrolls(r: Regex, p: string)
    ensures Accepts(Cat(NAME, r), p) <==>
      Accepts(r, p) || (p != "" && p[0] != '/' && Accepts(Cat(NAME, r), p[1..]))
  {
    CharStarUnrolls(NotSlash, r, p);
  }

  lemma AnythingUnrolls(r: Regex, p: string)
    ensures Accepts(Cat(ANYTHING, r), p) <==>
      Accepts(r, p) || (p != "" && p[0] != '\n' && Accepts(Cat(ANYTHING, r), p[1..]))
  {
    CharStarUnrolls(Dot, r, p);
  }

  predicate Takes(x: Regex, c: char)
    requires x.NotSlash? || x.Dot? || x.Chr?
  {
    match x
    case NotSlash => c != '/'
    case Dot => c != '\n'
    case Chr(d) => c == d
  }

  lemma OneChar(x: Regex, s: string)
    requires x.NotSlash? || x.Dot? || x.Chr?
    ensures Accepts(x, s) <==> |s| == 1 && Takes(x, s[0])
  {
  }

  lemma CharStarUnrolls(x: Regex, r: Regex, p: string)
    requires x.NotSlash? || x.Dot?
    ensures Accepts(Cat(Star(x), r), p) <==>
      Accepts(r, p) || (p != "" && Takes(x, p[0]) && Accepts(Cat(Star(x), r), p[1..]))
  {
    hide Accepts;
    StarUnrolls(x, r, p);
    if k: nat :| TakesFirst(x, r, p, k) {
      OneChar(x, p[..k]);
    }
    if p != "" && Takes(x, p[0]) && Accepts(Cat(Star(x), r), p[1..]) {
      OneChar(x, p[..1]);
      assert TakesFirst(x, r, p, 1);
    }
  }

  lemma OneMore(x: Regex, r: Regex, p: string)
    requires x.NotSlash? || x.Chr?
    ensures Accepts(Cat(x, r), p) <==> p != "" && Takes(x, p[0]) && Accepts(r, p[1..])
  {
    hide Accepts;
    if Accepts(Cat(x, r), p) {
      var k := SplitCat(x, r, p);
      OneChar(x, p[..k]);
    }
    if p != "" && Takes(x, p[0]) && Accepts(r, p[1..]) {
      OneChar(x, p[..1]);
      MakeCat(x, r, p[..1], p[1..]);
      assert p[..1] + p[1..] == p;
    }
  }

  // ----- the two meanings agree

  /** The compiled expression means what the glob says, on every path without a newline, and on every path at all
      unless the glob has a bare `**`. */
  lemma {:induction false} TranslationIsFaithful(glob: string, p: string)
    requires '\n' !in p || !SpansAnything(glob)
    ensures Matches(glob, p) <==> Means(glob, p)
    decreases |glob|, |p|
  {
    hide Accepts;
    if glob == "" {
      NoFragments(p);
    } else {
      var (x, n) := Fragment(glob);
      var rest := glob[n..];
      var r := Join(Fragments(rest));
      assert Fragments(glob)[1..] == Fragments(rest);
      assert Join(Fragments(glob)) == Cat(x, r);
      if "**/" <= glob {
        TranslationIsFaithful(rest, p);
        DirsUnroll(r, p);
        if BeginsWithDir(p) { TranslationIsFaithful(glob, p[FirstSlash(p) + 1..]); }
      } else if "**" <= glob {
        TranslationIsFaithful(rest, p);
        AnythingUnrolls(r, p);
        if p != "" {
          assert p[0] in p;
          TranslationIsFaithful(glob, p[1..]);
        }
      } else if glob[0] == '*' {
        TranslationIsFaithful(rest, p);
        NameUnrolls(r, p);
        if p != "" { TranslationIsFaithful(glob, p[1..]); }
      } else {
        OneMore(x, r, p);
        if p != "" { TranslationIsFaithful(rest, p[1..]); }
      }
    }
  }

  // ----- exactly which globs are translated faithfully

  /** A newline, then an empty directory name: no single fragment can take it in. */
  const KNOT := "\n//"

  function Knots(n: nat): (s: string)
    ensures |s| == 3 * n
  {
    if n == 0 then "" else KNOT + Knots(n - 1)
  }

  /** Dots and names take no knot: the one stops at the newline, the other at the slash. */
  lemma {:induction false} RunTakesOnly(x: Regex, s: string, at: nat)
    requires x.NotSlash? || x.Dot?
    requires Accepts(Star(x), s) && at < |s|
    ensures Takes(x, s[at])
    decreases |s|
  {
    hide Accepts;
    var k := SplitStar(x, s);
    OneChar(x, s[..k]);
    if at > 0 { RunTakesOnly(x, s[1..], at - 1); }
  }

  /** Nor do directories, whose names are never empty. */
  lemma {:induction false} DirsHaveNames(s: string, at: nat)
    requires Accepts(DIRS, s) && at < |s|
    ensures s[0] != '/'
    ensures at + 1 < |s| ==> !(s[at] == '/' && s[at + 1] == '/')
    decreases |s|
  {
    hide Accepts;
    var k := SplitStar(DIR, s);
    var dir, t := s[..k], s[k..];
    DirIs(dir);
    assert forall i :: 0 <= i < k - 1 ==> s[i] == dir[..k - 1][i];
    if t != "" { DirsHaveNames(t, if at >= k then at - k else 0); }
  }

  /** So a path that the expression accepts has at most one knot per fragment. */
  lemma {:induction false} KnotsAreBounded(glob: string, p: string, at: nat, n: nat)
    requires Matches(glob, p)
    requires at + 3 * n <= |p| && p[at..at + 3 * n] == Knots(n)
    ensures n <= |glob|
    decreases |glob|
  {
    hide Accepts, Fragments;
    if n > 0 {
      assert p[at..at + 3 * n][..3] == KNOT;
      assert p[at..at + 3] == KNOT;
      assert glob != "" by { if glob == "" { NoFragments(p); } }
      var w, rest := Fragment(glob).1, glob[Fragment(glob).1..];
      var k := SplitGlob(glob, p);
      assert k < at + 3 by {
        if at + 3 <= k {
          assert p[..k][at..at + 3] == p[at..at + 3];
          FragmentTakesNoKnot(Fragment(glob).0, p[..k], at);
        }
      }
      assert p[k..][at + 3 - k..at + 3 * n - k] == p[at..at + 3 * n][3..] == Knots(n - 1);
      KnotsAreBounded(rest, p[k..], at + 3 - k, n - 1);
    }
  }

  lemma SplitGlob(glob: string, p: string) returns (k: nat)
    requires glob != "" && Matches(glob, p)
    ensures k <= |p| && Accepts(Fragment(glob).0, p[..k]) && Matches(glob[Fragment(glob).1..], p[k..])
  {
    hide Accepts;
    var (x, w) := Fragment(glob);
    assert Fragments(glob)[1..] == Fragments(glob[w..]);
    k := SplitCat(x, Join(Fragments(glob[w..])), p);
  }

  lemma FragmentTakesNoKnot(x: Regex, s: string, at: nat)
    requires x == DIRS || x == ANYTHING || x == NAME || x == NotSlash || x.Chr?
    requires Accepts(x, s) && at + 3 <= |s|
    ensures s[at..at + 3] != KNOT
  {
    hide Accepts;
    var knot := s[at..at + 3];
    assert knot[0] == s[at] && knot[1] == s[at + 1] && knot[2] == s[at + 2];
    if x == DIRS { DirsHaveNames(s, at + 1); }
    if x == ANYTHING { RunTakesOnly(Dot, s, at); }
    if x == NAME { RunTakesOnly(NotSlash, s, at + 1); }
    if x == NotSlash || x.Chr? { OneChar(x, s); }
  }

  lemma NoFragments(p: string)
    ensures Matches("", p) <==> p == ""
  {
    assert Fragments("") == [];
  }

  /** A path the glob means, with any chosen text where its first bare `**` stands. */
  function Sample(glob: string, text: string): string
    decreases |glob|
  {
    if glob == "" then ""
    else
      var (x, n) := Fragment(glob);
      if x == ANYTHING then text + Sample(glob[n..], "")
      else if x == DIRS || x == NAME then Sample(glob[n..], text)
      else if x == NotSlash then "a" + Sample(glob[n..], text)
      else [glob[0]] + Sample(glob[n..], text)
  }

  lemma {:induction false} AnythingAbsorbs(glob: string, text: string, p: string)
    requires !("**/" <= glob) && "**" <= glob && Means(glob, p)
    ensures Means(glob, text + p)
    decreases |text|
  {
    if text == "" {
      assert text + p == p;
    } else {
      AnythingAbsorbs(glob, text[1..], p);
      assert (text + p)[1..] == text[1..] + p;
    }
  }

  lemma {:induction false} SampleIsMeant(glob: string, text: string)
    ensures Means(glob, Sample(glob, text))
    decreases |glob|
  {
    if glob != "" {
      var (x, n) := Fragment(glob);
      if x == ANYTHING {
        SampleIsMeant(glob[n..], "");
        AnythingAbsorbs(glob, text, Sample(glob[n..], ""));
      } else {
        SampleIsMeant(glob[n..], text);
        var p := Sample(glob, text);
        if x != DIRS && x != NAME { assert p[1..] == Sample(glob[n..], text); }
      }
    }
  }

  lemma {:induction false} SampleHolds(glob: string, text: string) returns (at: nat)
    requires SpansAnything(glob)
    ensures at + |text| <= |Sample(glob, text)| && Sample(glob, text)[at..at + |text|] == text
    decreases |glob|
  {
    var (x, n) := Fragment(glob);
    if x == ANYTHING {
      at := 0;
    } else {
      at := SampleHolds(glob[n..], text);
      if x != DIRS && x != NAME {
        var p := Sample(glob, text);
        assert p[1..] == Sample(glob[n..], text);
        assert p[at + 1..at + 1 + |text|] == p[1..][at..at + |text|];
        at := at + 1;
      }
    }
  }

  ghost predicate FaithfulOn(glob: string, p: string) {
    Matches(glob, p) <==> Means(glob, p)
  }

  /** With newlines admitted, a glob is translated faithfully exactly when it has no bare `**`. */
  lemma FaithfulEverywhereIff(glob: string)
    ensures (forall p :: FaithfulOn(glob, p)) <==> !SpansAnything(glob)
  {
    if SpansAnything(glob) {
      var n := |glob| + 1;
      var p := Sample(glob, Knots(n));
      SampleIsMeant(glob, Knots(n));
      var at := SampleHolds(glob, Knots(n));
      if Matches(glob, p) { KnotsAreBounded(glob, p, at, n); }
      assert !FaithfulOn(glob, p);
    } else {
      forall p ensures FaithfulOn(glob, p) { TranslationIsFaithful(glob, p); }
    }
  }

  /** The smallest case: `**` should span a lone newline, and does not. */
  lemma BareStarsMissNewline()
    ensures Means("**", "\n") && !Matches("**", "\n")
  {
    assert Means("**", "");
    assert Fragments("**") == [ANYTHING] + Fragments("");
    assert Fragments("**")[1..] == [];
    AnythingUnrolls(Empty, "\n");
  }

  // ----- consequences

  function Slashes(s: string): nat {
    if s == "" then 0 else (if s[0] == '/' then 1 else 0) + Slashes(s[1..])
  }

  /** Whether two stars stand side by side. */
  predicate Recursive(glob: string) {
    glob != "" && ("**" <= glob || Recursive(glob[1..]))
  }

  lemma {:induction false} MeansFixesSlashes(glob: string, p: string)
    requires !Recursive(glob) && Means(glob, p)
    ensures Slashes(p) == Slashes(glob)
    decreases |glob|, |p|
  {
    if glob != "" {
      var rest := glob[1..];
      if glob[0] == '*' {
        if Means(rest, p) { MeansFixesSlashes(rest, p); } else { MeansFixesSlashes(glob, p[1..]); }
      } else {
        MeansFixesSlashes(rest, p[1..]);
      }
    }
  }

  lemma {:induction false} PlainGlobsSpanNothing(glob: string)
    requires !Recursive(glob)
    ensures !SpansAnything(glob)
    decreases |glob|
  {
    if glob != "" {
      var rest := glob[1..];
      PlainGlobsSpanNothing(rest);
    }
  }

  /** A glob without `**` matches only at its own depth: a star never reaches into a subdirectory. */
  lemma PlainGlobFixesDepth(glob: string, p: string)
    requires !Recursive(glob) && Matches(glob, p)
    ensures Slashes(p) == Slashes(glob)
  {
    PlainGlobsSpanNothing(glob);
    TranslationIsFaithful(glob, p);
    MeansFixesSlashes(glob, p);
  }

  predicate Literal(d: string) {
    '*' !in d && '?' !in d
  }

  lemma {:induction false} StarsMeanAnything(p: string)
    ensures Means("**", p)
    decreases |p|
  {
    if p == "" {
      assert Means("**"[2..], p);
    } else {
      StarsMeanAnything(p[1..]);
    }
  }

  lemma {:induction false} LiteralPrefix(d: string, glob: string, p: string)
    requires Literal(d)
    ensures Means(d + glob, p) <==> d <= p && Means(glob, p[|d|..])
    decreases |d|
  {
    if d == "" {
      assert d + glob == glob && p[0..] == p;
    } else {
      var g := d + glob;
      assert g[0] == d[0] && d[0] in d && g[1..] == d[1..] + glob;
      assert !("**" <= g);
      assert forall c :: c in d[1..] ==> c in d;
      if p != "" {
        LiteralPrefix(d[1..], glob, p[1..]);
        if p[0] == d[0] {
          assert d[1..] <= p[1..] <==> d <= p by {
            if d[1..] <= p[1..] { assert d == [d[0]] + d[1..] && p == [p[0]] + p[1..]; }
            if d <= p { assert p[1..][..|d| - 1] == p[..|d|][1..]; }
          }
          if d <= p { assert p[1..][|d| - 1..] == p[|d|..]; }
        }
      }
    }
  }

  /** `d/` followed by `**` matches exactly the paths below `d`. */
  lemma SubtreeGlob(d: string, p: string)
    requires Literal(d) && '\n' !in p
    ensures Matches(d + "/**", p) <==> d + "/" <= p
  {
    var dir := d + "/";
    assert dir + "**" == d + "/**";
    TranslationIsFaithful(dir + "**", p);
    LiteralPrefix(dir, "**", p);
    if dir <= p { StarsMeanAnything(p[|dir|..]); }
  }
}
