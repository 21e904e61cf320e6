/** Relative POSIX paths, as far as bundles need them: splitting into parts, joining, the order Python gives to
    paths, and the bundle's path check. */
module Paths {
  import opened Common

  function Split(s: string): (parts: seq<string>)
    ensures parts != []
  {
    if s == "" then [""]
    else if s[0] == '/' then [""] + Split(s[1..])
    else
      var rest := Split(s[1..]);
      [[s[0]] + rest[0]] + rest[1..]
  }

  function Join(parts: seq<string>): string {
    if parts == [] then "" else if |parts| == 1 then parts[0] else parts[0] + "/" + Join(parts[1..])
  }

  /** The parts that name something: empty ones and dots are dropped. */
  function Named(parts: seq<string>): seq<string> {
    if parts == [] then []
    else (if parts[0] == "" || parts[0] == "." then [] else [parts[0]]) + Named(parts[1..])
  }

  /** `Path(path).parts` of a relative path. */
  function Parts(path: string): seq<string> {
    Named(Split(path))
  }

  predicate ProperName(name: string) {
    name != "" && name != "." && name != ".." && '/' !in name
  }

  /** A path that stays below its root. */
  predicate ProperPath(parts: seq<string>) {
    parts != [] && forall i :: 0 <= i < |parts| ==> ProperName(parts[i])
  }

  /** `_validate_relative_path`. */
  function Validate(path: string): Option<string> {
    if path == "" || path[0] == '/' || ".." in Parts(path) || Parts(path) == [] then None
    else Some(Join(Parts(path)))
  }

  lemma {:induction false} SplitPlain(s: string)
    requires '/' !in s
    ensures Split(s) == [s]
    decreases |s|
  {
    if s != "" {
      assert s[0] in s;
      SplitPlain(s[1..]);
      assert s == [s[0]] + s[1..];
    }
  }

  lemma {:induction false} SplitFirst(name: string, rest: string)
    requires '/' !in name
    ensures Split(name + "/" + rest) == [name] + Split(rest)
    decreases |name|
  {
    var s := name + "/" + rest;
    if name == "" {
      assert s == "/" + rest && s[1..] == rest;
    } else {
      assert name[0] in name && s[1..] == name[1..] + "/" + rest;
      SplitFirst(name[1..], rest);
      assert [s[0]] + name[1..] == name;
    }
  }

  /** Joining and splitting are inverse on the paths a directory walk can produce. */
  lemma {:induction false} SplitOfJoin(parts: seq<string>)
    requires ProperPath(parts)
    ensures Split(Join(parts)) == parts
    decreases |parts|
  {
    if |parts| == 1 {
      SplitPlain(parts[0]);
    } else {
      assert ProperPath(parts[1..]);
      SplitOfJoin(parts[1..]);
      SplitFirst(parts[0], Join(parts[1..]));
      assert parts == [parts[0]] + parts[1..];
    }
  }

  lemma JoinIsInjective(p: seq<string>, q: seq<string>)
    requires ProperPath(p) && ProperPath(q) && Join(p) == Join(q)
    ensures p == q
  {
    SplitOfJoin(p);
    SplitOfJoin(q);
  }

  /** The second path lies below the first. */
  predicate Below(path: string, other: string) {
    path + "/" <= other
  }

  lemma {:induction false} SplitTwo(a: string, b: string)
    ensures Split(a + "/" + b) == Split(a) + Split(b)
    decreases |a|
  {
    var s := a + "/" + b;
    if a == "" {
      assert s == "/" + b && s[1..] == b;
    } else {
      assert s[1..] == a[1..] + "/" + b && s[0] == a[0];
      SplitTwo(a[1..], b);
    }
  }

  /** One joined path lies below another exactly when its names go on where the other's end. */
  lemma BelowIff(p: seq<string>, q: seq<string>)
    requires ProperPath(p) && ProperPath(q)
    ensures Below(Join(p), Join(q)) <==> p < q
  {
    SplitOfJoin(p);
    SplitOfJoin(q);
    if Below(Join(p), Join(q)) {
      var rest := Join(q)[|Join(p)| + 1..];
      assert Join(q) == Join(p) + "/" + rest;
      SplitTwo(Join(p), rest);
    }
    if p < q {
      JoinTwo(p, q[|p|..]);
      assert q == p + q[|p|..];
    }
  }

  lemma {:induction false} JoinTwo(p: seq<string>, q: seq<string>)
    requires p != [] && q != []
    ensures Join(p + q) == Join(p) + "/" + Join(q)
    decreases |p|
  {
    if |p| == 1 {
      assert (p + q)[1..] == q;
    } else {
      assert (p + q)[1..] == p[1..] + q;
      JoinTwo(p[1..], q);
    }
  }

  lemma {:induction false} NamedKeepsNames(parts: seq<string>)
    requires forall i :: 0 <= i < |parts| ==> ProperName(parts[i])
    ensures Named(parts) == parts
    decreases |parts|
  {
    if parts != [] {
      NamedKeepsNames(parts[1..]);
      assert parts == [parts[0]] + parts[1..];
    }
  }

  lemma {:induction false} SplitHasNoSlash(s: string)
    ensures forall i :: 0 <= i < |Split(s)| ==> '/' !in Split(s)[i]
    decreases |s|
  {
    if s != "" {
      SplitHasNoSlash(s[1..]);
      var rest := Split(s[1..]);
      if s[0] != '/' {
        var parts := [[s[0]] + rest[0]] + rest[1..];
        forall i | 0 <= i < |parts| ensures '/' !in parts[i] {
          if i > 0 { assert parts[i] == rest[i]; }
        }
      } else {
        var parts := [""] + rest;
        forall i | 0 <= i < |parts| ensures '/' !in parts[i] {
          if i > 0 { assert parts[i] == rest[i - 1]; }
        }
      }
    }
  }

  lemma {:induction false} NamedElements(parts: seq<string>)
    ensures forall x :: x in Named(parts) <==> x in parts && x != "" && x != "."
    decreases |parts|
  {
    if parts != [] {
      NamedElements(parts[1..]);
      assert parts == [parts[0]] + parts[1..];
    }
  }

  /** A path that passes the check comes out in the one form every such path has: proper names joined by slashes. */
  lemma ValidatedStaysBelow(path: string)
    requires Validate(path).Some?
    ensures ProperPath(Parts(path)) && Validate(path).value == Join(Parts(path))
  {
    var parts := Split(path);
    SplitHasNoSlash(path);
    NamedElements(parts);
    forall i | 0 <= i < |Parts(path)| ensures ProperName(Parts(path)[i]) {
      assert Parts(path)[i] in Named(parts);
      var k :| 0 <= k < |parts| && parts[k] == Parts(path)[i];
    }
  }

  /** And such a path passes it unchanged. */
  lemma ProperPathIsValid(parts: seq<string>)
    requires ProperPath(parts)
    ensures Validate(Join(parts)) == Some(Join(parts)) && Parts(Join(parts)) == parts
  {
    SplitOfJoin(parts);
    NamedKeepsNames(parts);
    var path := Join(parts);
    assert ProperName(parts[0]);
    assert Split(path)[0] != "";
  }

  lemma ValidateTwice(path: string)
    requires Validate(path).Some?
    ensures Validate(Validate(path).value) == Validate(path)
  {
    ValidatedStaysBelow(path);
    ProperPathIsValid(Parts(path));
  }

  /** Python's `<=` on paths: part by part. */
  predicate PathLeq(p: seq<string>, q: seq<string>) {
    p == [] || (q != [] && (if p[0] == q[0] then PathLeq(p[1..], q[1..]) else TextLeq(p[0], q[0])))
  }

  lemma {:induction false} PathLeqTotal(p: seq<string>, q: seq<string>)
    ensures PathLeq(p, q) || PathLeq(q, p)
    decreases |p|
  {
    if p != [] && q != [] {
      if p[0] == q[0] { PathLeqTotal(p[1..], q[1..]); } else { TextLeqTotal(p[0], q[0]); }
    }
  }

  lemma {:induction false} PathLeqAntisymmetric(p: seq<string>, q: seq<string>)
    requires PathLeq(p, q) && PathLeq(q, p)
    ensures p == q
    decreases |p|
  {
    if p != [] {
      if p[0] == q[0] {
        PathLeqAntisymmetric(p[1..], q[1..]);
        assert p == [p[0]] + p[1..] && q == [q[0]] + q[1..];
      } else {
        TextLeqAntisymmetric(p[0], q[0]);
        assert false;
      }
    }
  }

  lemma {:induction false} PathLeqTransitive(p: seq<string>, q: seq<string>, r: seq<string>)
    requires PathLeq(p, q) && PathLeq(q, r)
    ensures PathLeq(p, r)
    decreases |p|
  {
    if p != [] {
      if p[0] == q[0] && q[0] == r[0] {
        PathLeqTransitive(p[1..], q[1..], r[1..]);
      } else if p[0] == r[0] {
        TextLeqAntisymmetric(p[0], q[0]);
        assert false;
      } else {
        TextLeqTotal(p[0], p[0]);
        TextLeqTotal(r[0], r[0]);
        TextLeqTransitive(p[0], q[0], r[0]);
      }
    }
  }

  lemma PathLeqIsTotalOrder()
    ensures TotalOrder(PathLeq)
  {
    forall p, q ensures PathLeq(p, q) || PathLeq(q, p) { PathLeqTotal(p, q); }
    forall p, q | PathLeq(p, q) && PathLeq(q, p) ensures p == q { PathLeqAntisymmetric(p, q); }
    forall p, q, r | PathLeq(p, q) && PathLeq(q, r) ensures PathLeq(p, r) { PathLeqTransitive(p, q, r); }
  }

  /** `sorted` of a set of paths. */
  function SortedPaths(s: set<seq<string>>): (r: seq<seq<string>>)
    ensures forall p :: p in r <==> p in s
    ensures forall i, j :: 0 <= i < j < |r| ==> r[i] != r[j]
  {
    PathLeqIsTotalOrder();
    SortedSet(PathLeq, s)
  }
}
