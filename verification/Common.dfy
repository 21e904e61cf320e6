/** Vocabulary shared by every module: optional values, results, the order
    Python gives to strings, and the library call `sorted`. */
module Common {

  datatype Option<+T> = None | Some(value: T)

  datatype Result<+T, +E> = Success(value: T) | Failure(error: E)

  type Bytes = seq<bv8>

  /** Python's `<=` on strings: lexicographic by code point. */
  predicate TextLeq(a: string, b: string) {
    a == "" || (b != "" && (a[0] < b[0] || (a[0] == b[0] && TextLeq(a[1..], b[1..]))))
  }

  lemma {:induction false} TextLeqTotal(a: string, b: string)
    ensures TextLeq(a, b) || TextLeq(b, a)
  {
    if a != "" && b != "" && a[0] == b[0] {
      TextLeqTotal(a[1..], b[1..]);
    }
  }

  lemma {:induction false} TextLeqAntisymmetric(a: string, b: string)
    requires TextLeq(a, b) && TextLeq(b, a)
    ensures a == b
  {
    if a != "" {
      TextLeqAntisymmetric(a[1..], b[1..]);
      assert a == [a[0]] + a[1..] && b == [b[0]] + b[1..];
    }
  }

  lemma {:induction false} TextLeqTransitive(a: string, b: string, c: string)
    requires TextLeq(a, b) && TextLeq(b, c)
    ensures TextLeq(a, c)
  {
    if a != "" && a[0] == b[0] && b[0] == c[0] {
      TextLeqTransitive(a[1..], b[1..], c[1..]);
    }
  }

  ghost predicate TotalPreorder<T(!new)>(leq: (T, T) -> bool) {
    && (forall x, y :: leq(x, y) || leq(y, x))
    && (forall x, y, z :: leq(x, y) && leq(y, z) ==> leq(x, z))
  }

  ghost predicate SortedBy<T(!new)>(leq: (T, T) -> bool, xs: seq<T>) {
    forall i, j :: 0 <= i < j < |xs| ==> leq(xs[i], xs[j])
  }

  /** The library call `sorted`: same elements, in order. */
  function Sort<T(!new)>(leq: (T, T) -> bool, xs: seq<T>): (r: seq<T>)
    requires TotalPreorder(leq)
    ensures SortedBy(leq, r)
    ensures multiset(r) == multiset(xs)
    ensures |r| == |xs|
  {
    if xs == [] then []
    else
      assert xs == [xs[0]] + xs[1..];
      Insert(leq, xs[0], Sort(leq, xs[1..]))
  }

  function Insert<T(!new)>(leq: (T, T) -> bool, x: T, xs: seq<T>): (r: seq<T>)
    requires TotalPreorder(leq) && SortedBy(leq, xs)
    ensures SortedBy(leq, r)
    ensures multiset(r) == multiset(xs) + multiset{x}
    ensures |r| == |xs| + 1
  {
    if xs == [] then [x]
    else if leq(x, xs[0]) then
      assert multiset([x] + xs) == multiset{x} + multiset(xs);
      [x] + xs
    else
      assert xs == [xs[0]] + xs[1..];
      var rest := Insert(leq, x, xs[1..]);
      PrependSorted(leq, x, xs, rest);
      [xs[0]] + rest
  }

  lemma PrependSorted<T(!new)>(leq: (T, T) -> bool, x: T, xs: seq<T>, rest: seq<T>)
    requires xs != [] && SortedBy(leq, xs) && SortedBy(leq, rest)
    requires leq(xs[0], x)
    requires multiset(rest) == multiset(xs[1..]) + multiset{x}
    ensures SortedBy(leq, [xs[0]] + rest)
  {
    forall j | 0 <= j < |rest| ensures leq(xs[0], rest[j]) {
      assert rest[j] in multiset(rest);
      if rest[j] != x {
        assert rest[j] in multiset(xs[1..]);
        assert rest[j] in xs[1..];
      }
    }
  }

  /** Sorting adds and loses no element. */
  lemma SortElements<T(!new)>(leq: (T, T) -> bool, xs: seq<T>)
    requires TotalPreorder(leq)
    ensures forall x :: x in Sort(leq, xs) <==> x in xs
  {
    var r := Sort(leq, xs);
    assert forall x :: x in r <==> x in multiset(r);
    assert forall x :: x in xs <==> x in multiset(xs);
  }

  lemma TextLeqIsTotalPreorder()
    ensures TotalPreorder(TextLeq)
  {
    forall x, y ensures TextLeq(x, y) || TextLeq(y, x) { TextLeqTotal(x, y); }
    forall x, y, z | TextLeq(x, y) && TextLeq(y, z) ensures TextLeq(x, z) { TextLeqTransitive(x, y, z); }
  }

  ghost predicate TotalOrder<T(!new)>(leq: (T, T) -> bool) {
    TotalPreorder(leq) && forall x, y :: leq(x, y) && leq(y, x) ==> x == y
  }

  lemma TextLeqIsTotalOrder()
    ensures TotalOrder(TextLeq)
  {
    TextLeqIsTotalPreorder();
    forall x, y | TextLeq(x, y) && TextLeq(y, x) ensures x == y { TextLeqAntisymmetric(x, y); }
  }

  ghost predicate Least<T(!new)>(leq: (T, T) -> bool, s: set<T>, m: T) {
    m in s && forall x :: x in s ==> leq(m, x)
  }

  lemma {:induction false} LeastExists<T(!new)>(leq: (T, T) -> bool, s: set<T>)
    requires TotalPreorder(leq) && s != {}
    ensures exists m :: Least(leq, s, m)
  {
    var a :| a in s;
    var rest := s - {a};
    assert leq(a, a);
    if rest == {} {
      assert s == {a};
      assert Least(leq, s, a);
    } else {
      LeastExists(leq, rest);
      var m :| Least(leq, rest, m);
      if leq(a, m) {
        forall x | x in s ensures leq(a, x) { assert x == a || x in rest; }
        assert Least(leq, s, a);
      } else {
        assert Least(leq, s, m);
      }
    }
  }

  /** `sorted` of a set. */
  function SortedSet<T(!new)>(leq: (T, T) -> bool, s: set<T>): (r: seq<T>)
    requires TotalOrder(leq)
    ensures forall x :: x in r <==> x in s
    ensures SortedBy(leq, r)
    ensures forall i, j :: 0 <= i < j < |r| ==> r[i] != r[j]
  {
    if s == {} then []
    else
      LeastExists(leq, s);
      var m :| m in s && forall x :: x in s ==> leq(m, x);
      var rest := SortedSet(leq, s - {m});
      assert forall k :: 0 <= k < |rest| ==> rest[k] in rest;
      [m] + rest
  }

  ghost predicate Ascending(xs: seq<string>) {
    SortedBy(TextLeq, xs) && forall i, j :: 0 <= i < j < |xs| ==> xs[i] != xs[j]
  }

  /** `sorted` of a set of strings. */
  function SortedTexts(s: set<string>): (r: seq<string>)
    ensures forall x :: x in r <==> x in s
    ensures Ascending(r)
  {
    TextLeqIsTotalOrder();
    SortedSet(TextLeq, s)
  }

  /** A set included in another is no larger. */
  lemma {:induction false} SubsetSize<T>(a: set<T>, b: set<T>)
    requires a <= b
    ensures |a| <= |b|
  {
    if a != {} {
      var x :| x in a;
      SubsetSize(a - {x}, b - {x});
    }
  }
}
