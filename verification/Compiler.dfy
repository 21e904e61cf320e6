/** The Work Graph compiler (work/compiler.py): an iterative depth-first cycle
    rejecter and the checks around it. */
module Compiler {
  import opened Common
  import opened Projections

  type Edge = (string, string)

  // ----- cycles and finish orders

  predicate StepAt(edges: seq<Edge>, p: seq<string>, i: nat)
    requires i < |p| - 1
  {
    (p[i], p[i + 1]) in edges
  }

  ghost predicate Path(edges: seq<Edge>, p: seq<string>) {
    forall i :: 0 <= i < |p| - 1 ==> StepAt(edges, p, i)
  }

  ghost predicate HasCycle(edges: seq<Edge>) {
    exists p :: |p| >= 2 && p[0] == p[|p| - 1] && Path(edges, p)
  }

  /** The targets of the edges of node `j` of the order come before it. */
  ghost predicate TargetsFirst(edges: seq<Edge>, order: seq<string>, j: nat)
    requires j < |order|
  {
    forall b :: (order[j], b) in edges ==> b in order[..j]
  }

  /** Every node once, and the target of every edge before its source. */
  ghost predicate FinishOrder(ids: set<string>, edges: seq<Edge>, order: seq<string>) {
    && (forall i, j :: 0 <= i < j < |order| ==> order[i] != order[j])
    && (forall id :: id in order <==> id in ids)
    && (forall j :: 0 <= j < |order| ==> TargetsFirst(edges, order, j))
  }

  /** A finish order rules cycles out: along any path positions strictly fall. */
  lemma FinishOrderMeansNoCycle(ids: set<string>, edges: seq<Edge>, order: seq<string>)
    requires FinishOrder(ids, edges, order)
    requires forall e :: e in edges ==> e.0 in ids
    ensures !HasCycle(edges)
  {
    if p :| |p| >= 2 && p[0] == p[|p| - 1] && Path(edges, p) {
      PathDoesNotReturn(ids, edges, order, p);
    }
  }

  lemma PathDoesNotReturn(ids: set<string>, edges: seq<Edge>, order: seq<string>, p: seq<string>)
    requires FinishOrder(ids, edges, order) && |p| >= 2 && Path(edges, p)
    requires forall e :: e in edges ==> e.0 in ids
    ensures p[0] != p[|p| - 1]
  {
    assert StepAt(edges, p, 0);
    assert p[0] in order;
    var start :| 0 <= start < |order| && order[start] == p[0];
    var last := PositionsFall(edges, order, p, start, |p| - 1);
    assert order[last] != order[start];
  }

  lemma {:induction false} PositionsFall(edges: seq<Edge>, order: seq<string>, p: seq<string>, start: nat, k: nat)
    returns (position: nat)
    requires forall j :: 0 <= j < |order| ==> TargetsFirst(edges, order, j)
    requires Path(edges, p) && k < |p| && start < |order| && order[start] == p[0]
    ensures position < |order| && order[position] == p[k]
    ensures position <= start && (k > 0 ==> position < start)
  {
    if k == 0 {
      position := start;
    } else {
      var before := PositionsFall(edges, order, p, start, k - 1);
      assert StepAt(edges, p, k - 1) && TargetsFirst(edges, order, before);
      position :| 0 <= position < before && order[..before][position] == p[k];
    }
  }

  // ----- every acyclic graph has a finish order

  lemma {:induction false} AcyclicHasOrder(ids: set<string>, edges: seq<Edge>) returns (order: seq<string>)
    requires (forall e :: e in edges ==> e.0 in ids && e.1 in ids) && !HasCycle(edges)
    ensures FinishOrder(ids, edges, order)
    decreases |ids|
  {
    if ids == {} {
      order := [];
    } else {
      var s := SomeSource(ids, edges);
      var rest := Without(edges, s);
      FewerEdgesNoCycle(rest, edges);
      var before := AcyclicHasOrder(ids - {s}, rest);
      order := before + [s];
      forall j | 0 <= j < |order| ensures TargetsFirst(edges, order, j) {
        if j < |before| {
          assert TargetsFirst(rest, before, j);
          assert order[..j] == before[..j];
          assert before[j] in before;
        } else {
          assert order[..j] == before;
        }
      }
    }
  }

  function Without(edges: seq<Edge>, s: string): (r: seq<Edge>)
    ensures forall e :: e in r <==> e in edges && e.0 != s && e.1 != s
  {
    if edges == [] then []
    else (if edges[0].0 != s && edges[0].1 != s then [edges[0]] else []) + Without(edges[1..], s)
  }

  lemma FewerEdgesNoCycle(fewer: seq<Edge>, edges: seq<Edge>)
    requires (forall e :: e in fewer ==> e in edges) && !HasCycle(edges)
    ensures !HasCycle(fewer)
  {
    if p :| |p| >= 2 && p[0] == p[|p| - 1] && Path(fewer, p) {
      PathWidens(fewer, edges, p);
    }
  }

  lemma PathWidens(fewer: seq<Edge>, edges: seq<Edge>, p: seq<string>)
    requires (forall e :: e in fewer ==> e in edges) && Path(fewer, p)
    ensures Path(edges, p)
  {
    forall i | 0 <= i < |p| - 1 ensures StepAt(edges, p, i) {
      assert StepAt(fewer, p, i);
    }
  }

  lemma Segment(edges: seq<Edge>, p: seq<string>, i: nat, j: nat)
    requires i < j < |p| && p[i] == p[j] && Path(edges, p)
    ensures HasCycle(edges)
  {
    hide *;
    SegmentPath(edges, p, i, j);
    LoopIsCycle(edges, p[i..j + 1]);
  }

  lemma LoopIsCycle(edges: seq<Edge>, q: seq<string>)
    requires |q| >= 2 && q[0] == q[|q| - 1] && Path(edges, q)
    ensures HasCycle(edges)
  {
    hide Path;
  }

  lemma SegmentPath(edges: seq<Edge>, p: seq<string>, i: nat, j: nat)
    requires i < j < |p| && Path(edges, p)
    ensures Path(edges, p[i..j + 1])
  {
    hide StepAt;
    var q := p[i..j + 1];
    forall k | 0 <= k < |q| - 1 ensures StepAt(edges, q, k) {
      StepShifts(edges, p, i, j, k);
    }
  }

  lemma StepShifts(edges: seq<Edge>, p: seq<string>, i: nat, j: nat, k: nat)
    requires i + k < j < |p| && StepAt(edges, p, i + k)
    ensures StepAt(edges, p[i..j + 1], k)
  {
    var q := p[i..j + 1];
    assert q[k] == p[i + k] && q[k + 1] == p[i + k + 1];
  }

  predicate IsTarget(edges: seq<Edge>, n: string) {
    exists e :: e in edges && e.1 == n
  }

  /** Walking edges backwards for long enough would close a cycle. */
  lemma SomeSource(ids: set<string>, edges: seq<Edge>) returns (s: string)
    requires ids != {} && (forall e :: e in edges ==> e.0 in ids && e.1 in ids) && !HasCycle(edges)
    ensures s in ids && !IsTarget(edges, s)
  {
    if forall n :: n in ids ==> IsTarget(edges, n) {
      var p := BackwardWalk(ids, edges, |ids|);
      var i, j := SomeRepeat(ids, p);
      Segment(edges, p, i, j);
    }
    s :| s in ids && !IsTarget(edges, s);
  }

  lemma {:induction false} BackwardWalk(ids: set<string>, edges: seq<Edge>, k: nat) returns (p: seq<string>)
    requires ids != {} && forall e :: e in edges ==> e.0 in ids
    requires forall n :: n in ids ==> IsTarget(edges, n)
    ensures |p| == k + 1 && Path(edges, p) && forall x :: x in p ==> x in ids
  {
    if k == 0 {
      var n :| n in ids;
      p := [n];
    } else {
      var rest := BackwardWalk(ids, edges, k - 1);
      assert rest[0] in rest;
      var e :| e in edges && e.1 == rest[0];
      p := [e.0] + rest;
      forall i | 0 <= i < |p| - 1 ensures StepAt(edges, p, i) {
        if i > 0 { assert StepAt(edges, rest, i - 1); }
      }
    }
  }

  /** A sequence longer than the set it is drawn from repeats an element. */
  lemma {:induction false} SomeRepeat(ids: set<string>, p: seq<string>) returns (i: nat, j: nat)
    requires |p| > |ids| && forall x :: x in p ==> x in ids
    ensures i < j < |p| && p[i] == p[j]
    decreases |p|
  {
    var rest := p[1..];
    if p[0] in rest {
      i := 0;
      var k :| 0 <= k < |rest| && rest[k] == p[0];
      j := k + 1;
    } else {
      assert p[0] in ids;
      var a, b := SomeRepeat(ids - {p[0]}, rest);
      i, j := a + 1, b + 1;
    }
  }

  // ----- the search

  /** A node being visited and how many of its children the iterator has produced. */
  datatype Frame = Frame(node: string, next: nat)

  type Adjacency = map<string, seq<string>>

  ghost predicate Closed(out: Adjacency) {
    forall a, c :: a in out && 0 <= c < |out[a]| ==> out[a][c] in out
  }

  ghost predicate Follows(out: Adjacency, edges: seq<Edge>) {
    && (forall e :: e in edges ==> e.0 in out && e.1 in out)
    && (forall a, b :: a in out ==> (b in out[a] <==> (a, b) in edges))
  }

  predicate FrameOk(out: Adjacency, f: Frame) {
    f.node in out && f.next <= |out[f.node]|
  }

  /** The child last produced by frame `k` is the node of the frame above it. */
  predicate LinkedAt(out: Adjacency, stack: seq<Frame>, k: nat)
    requires k < |stack| - 1 && FrameOk(out, stack[k])
  {
    0 < stack[k].next && out[stack[k].node][stack[k].next - 1] == stack[k + 1].node
  }

  ghost predicate Visits(stack: seq<Frame>, id: string) {
    exists k :: 0 <= k < |stack| && stack[k].node == id
  }

  ghost predicate OnStack(out: Adjacency, stack: seq<Frame>, visiting: set<string>) {
    && (forall k :: 0 <= k < |stack| ==> FrameOk(out, stack[k]))
    && (forall j, k :: 0 <= j < k < |stack| ==> stack[j].node != stack[k].node)
    && (forall id :: id in visiting <==> Visits(stack, id))
    && (forall k :: 0 <= k < |stack| - 1 ==> LinkedAt(out, stack, k))
  }

  ghost predicate ChildrenFirst(out: Adjacency, order: seq<string>, j: nat)
    requires j < |order|
  {
    order[j] in out && forall c :: c in out[order[j]] ==> c in order[..j]
  }

  ghost predicate Finished(out: Adjacency, visited: set<string>, order: seq<string>) {
    && visited <= out.Keys
    && (forall id :: id in visited <==> id in order)
    && (forall i, j :: 0 <= i < j < |order| ==> order[i] != order[j])
    && (forall j :: 0 <= j < |order| ==> ChildrenFirst(out, order, j))
  }

  /** Children already produced, other than the one now being visited, are finished. */
  ghost predicate ExploredAt(out: Adjacency, stack: seq<Frame>, visited: set<string>, k: nat)
    requires k < |stack| && FrameOk(out, stack[k])
  {
    forall c :: 0 <= c < stack[k].next && (k < |stack| - 1 ==> c != stack[k].next - 1) ==>
      out[stack[k].node][c] in visited
  }

  ghost predicate Explored(out: Adjacency, stack: seq<Frame>, visited: set<string>)
    requires forall k :: 0 <= k < |stack| ==> FrameOk(out, stack[k])
  {
    forall k :: 0 <= k < |stack| ==> ExploredAt(out, stack, visited, k)
  }

  ghost predicate Search(out: Adjacency, stack: seq<Frame>, visiting: set<string>, visited: set<string>,
                         order: seq<string>)
  {
    && OnStack(out, stack, visiting) && Finished(out, visited, order)
    && visited !! visiting && Explored(out, stack, visited)
  }

  lemma StartStep(out: Adjacency, root: string, visited: set<string>, order: seq<string>)
    requires Finished(out, visited, order) && root in out && root !in visited
    ensures Search(out, [Frame(root, 0)], {root}, visited, order)
  {
    var stack := [Frame(root, 0)];
    assert forall id :: Visits(stack, id) <==> stack[0].node == id;
    assert ExploredAt(out, stack, visited, 0);
  }

  lemma PopStep(out: Adjacency, stack: seq<Frame>, visiting: set<string>, visited: set<string>, order: seq<string>)
    requires Search(out, stack, visiting, visited, order) && stack != []
    requires var top := stack[|stack| - 1]; top.next == |out[top.node]|
    ensures var id := stack[|stack| - 1].node;
      Search(out, stack[..|stack| - 1], visiting - {id}, visited + {id}, order + [id])
  {
    var n := |stack| - 1;
    var id := stack[n].node;
    var longer, rest := order + [id], stack[..n];
    assert Visits(stack, id) && ExploredAt(out, stack, visited, n);
    PoppedNodes(stack);
    forall j | 0 <= j < |longer| ensures ChildrenFirst(out, longer, j) {
      assert longer[..j] == order[..j];
      if j < |order| { assert ChildrenFirst(out, order, j); }
    }
    forall k | 0 <= k < n - 1 ensures LinkedAt(out, rest, k) {
      assert LinkedAt(out, stack, k);
    }
    forall k | 0 <= k < n ensures ExploredAt(out, rest, visited + {id}, k) {
      assert ExploredAt(out, stack, visited, k) && LinkedAt(out, stack, k);
    }
  }

  lemma PoppedNodes(stack: seq<Frame>)
    requires stack != []
    requires forall j, k :: 0 <= j < k < |stack| ==> stack[j].node != stack[k].node
    ensures forall id :: Visits(stack[..|stack| - 1], id) <==> Visits(stack, id) && id != stack[|stack| - 1].node
  {
    var rest := stack[..|stack| - 1];
    forall id | Visits(stack, id) && id != stack[|stack| - 1].node ensures Visits(rest, id) {
      var k :| 0 <= k < |stack| && stack[k].node == id;
      assert rest[k].node == id;
    }
  }

  lemma SkipStep(out: Adjacency, stack: seq<Frame>, visiting: set<string>, visited: set<string>, order: seq<string>)
    requires Search(out, stack, visiting, visited, order) && stack != []
    requires var top := stack[|stack| - 1]; top.next < |out[top.node]| && out[top.node][top.next] in visited
    ensures var top := stack[|stack| - 1];
      Search(out, stack[|stack| - 1 := Frame(top.node, top.next + 1)], visiting, visited, order)
  {
    var n := |stack| - 1;
    var after := stack[n := Frame(stack[n].node, stack[n].next + 1)];
    SameNodes(stack, after);
    forall k | 0 <= k < n ensures LinkedAt(out, after, k) {
      assert LinkedAt(out, stack, k);
    }
    forall k | 0 <= k <= n ensures ExploredAt(out, after, visited, k) {
      assert ExploredAt(out, stack, visited, k);
    }
  }

  lemma SameNodes(a: seq<Frame>, b: seq<Frame>)
    requires |a| == |b| && forall k :: 0 <= k < |a| ==> a[k].node == b[k].node
    ensures forall id :: Visits(a, id) <==> Visits(b, id)
  {
  }

  lemma PushStep(out: Adjacency, stack: seq<Frame>, visiting: set<string>, visited: set<string>, order: seq<string>)
    requires Closed(out) && Search(out, stack, visiting, visited, order) && stack != []
    requires var top := stack[|stack| - 1];
      top.next < |out[top.node]| && out[top.node][top.next] !in visited + visiting
    ensures var top := stack[|stack| - 1];
      var child := out[top.node][top.next];
      Search(out, stack[|stack| - 1 := Frame(top.node, top.next + 1)] + [Frame(child, 0)],
        visiting + {child}, visited, order)
  {
    var n := |stack| - 1;
    var child := out[stack[n].node][stack[n].next];
    var after := stack[n := Frame(stack[n].node, stack[n].next + 1)] + [Frame(child, 0)];
    assert stack[n].node in out && child in out;
    PushedNodes(stack, after, child);
    forall k | 0 <= k <= n ensures LinkedAt(out, after, k) {
      if k < n { assert LinkedAt(out, stack, k); }
    }
    forall k | 0 <= k <= n + 1 ensures ExploredAt(out, after, visited, k) {
      if k <= n { assert ExploredAt(out, stack, visited, k); }
    }
  }

  lemma PushedNodes(a: seq<Frame>, b: seq<Frame>, child: string)
    requires |b| == |a| + 1 && b[|a|].node == child && forall k :: 0 <= k < |a| ==> a[k].node == b[k].node
    ensures forall id :: Visits(b, id) <==> Visits(a, id) || id == child
  {
    forall id | Visits(a, id) ensures Visits(b, id) {
      var k :| 0 <= k < |a| && a[k].node == id;
      assert b[k].node == id;
    }
  }

  /** The stack from frame `k` up is a path. */
  lemma {:induction false} StackIsPath(out: Adjacency, edges: seq<Edge>, stack: seq<Frame>,
                                       visiting: set<string>, k: nat)
    returns (p: seq<string>)
    requires Follows(out, edges) && OnStack(out, stack, visiting) && k < |stack|
    ensures |p| == |stack| - k && p[0] == stack[k].node && p[|p| - 1] == stack[|stack| - 1].node
    ensures Path(edges, p)
    decreases |stack| - k
  {
    if k == |stack| - 1 {
      p := [stack[k].node];
    } else {
      var rest := StackIsPath(out, edges, stack, visiting, k + 1);
      p := [stack[k].node] + rest;
      assert LinkedAt(out, stack, k);
      assert out[stack[k].node][stack[k].next - 1] in out[stack[k].node];
      forall i | 0 <= i < |p| - 1 ensures StepAt(edges, p, i) {
        if i > 0 { assert StepAt(edges, rest, i - 1); }
      }
    }
  }

  /** Meeting a node on the stack closes a cycle through the stack. */
  lemma HitIsCycle(out: Adjacency, edges: seq<Edge>, stack: seq<Frame>, visiting: set<string>, child: string)
    requires Follows(out, edges) && OnStack(out, stack, visiting) && stack != []
    requires child in visiting && child in out[stack[|stack| - 1].node]
    ensures HasCycle(edges)
  {
    assert Visits(stack, child);
    var k :| 0 <= k < |stack| && stack[k].node == child;
    var up := StackIsPath(out, edges, stack, visiting, k);
    var p := up + [child];
    forall i | 0 <= i < |p| - 1 ensures StepAt(edges, p, i) {
      if i < |up| - 1 { assert StepAt(edges, up, i); }
    }
    assert Path(edges, p);
  }

  method Outgoing(ids: set<string>, edges: seq<Edge>) returns (out: Adjacency)
    requires forall e :: e in edges ==> e.0 in ids && e.1 in ids
    ensures out.Keys == ids && Follows(out, edges) && Closed(out)
  {
    out := map id | id in ids :: [];
    var i := 0;
    while i < |edges|
      invariant 0 <= i <= |edges|
      invariant out.Keys == ids
      invariant forall a, b :: a in out ==> (b in out[a] <==> (a, b) in edges[..i])
    {
      var (src, dst) := edges[i];
      assert edges[i] in edges;
      assert edges[..i + 1] == edges[..i] + [edges[i]];
      out := out[src := out[src] + [dst]];
      i := i + 1;
    }
    assert edges[..|edges|] == edges;
    forall a, c | a in out && 0 <= c < |out[a]| ensures out[a][c] in out {
      assert out[a][c] in out[a];
      assert (a, out[a][c]) in edges;
    }
  }

  /** Raises exactly when the edge relation has a directed cycle; otherwise the nodes were finished in an
      order in which every edge's target came first.  Roots may be taken in any order. */
  method RejectCycles(ids: set<string>, edges: seq<Edge>) returns (cyclic: bool, ghost order: seq<string>)
    requires forall e :: e in edges ==> e.0 in ids && e.1 in ids
    ensures cyclic <==> HasCycle(edges)
    ensures !cyclic ==> FinishOrder(ids, edges, order)
  {
    var out := Outgoing(ids, edges);
    var visited := {};
    order := [];
    var roots := ids;
    while roots != {}
      invariant roots <= ids && ids - roots <= visited
      invariant Finished(out, visited, order)
    {
      var root :| root in roots;
      roots := roots - {root};
      if root !in visited {
        var hit;
        hit, visited, order := VisitFrom(out, edges, root, visited, order);
        if hit { return true, order; }
      }
    }
    forall j | 0 <= j < |order| ensures TargetsFirst(edges, order, j) {
      assert ChildrenFirst(out, order, j);
    }
    FinishOrderMeansNoCycle(ids, edges, order);
    return false, order;
  }

  /** The inner loop: one depth-first search with an explicit stack. */
  method VisitFrom(out: Adjacency, ghost edges: seq<Edge>, root: string, seen: set<string>, ghost done: seq<string>)
    returns (hit: bool, visited: set<string>, ghost order: seq<string>)
    requires Follows(out, edges) && Closed(out) && Finished(out, seen, done)
    requires root in out && root !in seen
    ensures hit ==> HasCycle(edges)
    ensures !hit ==> Finished(out, visited, order) && seen <= visited && root in visited
  {
    hide ExploredAt, ChildrenFirst, LinkedAt;
    visited, order := seen, done;
    var stack := [Frame(root, 0)];
    var visiting := {root};
    StartStep(out, root, visited, order);
    while stack != []
      invariant Search(out, stack, visiting, visited, order)
      invariant seen <= visited && root in visited + visiting
      decreases out.Keys - visited - visiting, |stack|,
        if stack != [] then |out[stack[|stack| - 1].node]| - stack[|stack| - 1].next else 0
    {
      var n := |stack| - 1;
      var top := stack[n];
      if top.next == |out[top.node]| {
        PopStep(out, stack, visiting, visited, order);
        assert Visits(stack, top.node);
        assert out.Keys - (visited + {top.node}) - (visiting - {top.node}) == out.Keys - visited - visiting;
        visiting, visited, order := visiting - {top.node}, visited + {top.node}, order + [top.node];
        stack := stack[..n];
      } else {
        var child := out[top.node][top.next];
        if child in visiting {
          HitIsCycle(out, edges, stack, visiting, child);
          return true, visited, order;
        }
        if child in visited {
          SkipStep(out, stack, visiting, visited, order);
          stack := stack[n := Frame(top.node, top.next + 1)];
        } else {
          PushStep(out, stack, visiting, visited, order);
          assert child in out.Keys - visited - visiting;
          assert out.Keys - visited - (visiting + {child}) < out.Keys - visited - visiting;
          visiting := visiting + {child};
          stack := stack[n := Frame(top.node, top.next + 1)] + [Frame(child, 0)];
        }
      }
    }
    return false, visited, order;
  }

  // ----- compiling a spec

  datatype CompileError = NoNodes | BadNode | DuplicateNode | BadEdge | UnknownEndpoint | CyclicGraph | BadGraph

  /** A raw node or edge that its constructor rejects is `None`. */
  datatype Spec = Spec(header: Header, nodes: seq<Option<WorkNode>>, edges: seq<Option<Edge>>)

  /** The graph's own fields; an unknown status or a version that is no number is `None`. */
  datatype Header = Header(id: string, objective: string, status: Option<GraphStatus>, version: Option<int>)

  /** What Python's `strip` takes away. */
  predicate Whitespace(c: char) {
    || '\t' <= c <= '\r' || '\U{1c}' <= c <= ' ' || c == '\U{85}' || c == '\U{a0}' || c == '\U{1680}'
    || '\U{2000}' <= c <= '\U{200a}' || c == '\U{2028}' || c == '\U{2029}' || c == '\U{202f}' || c == '\U{205f}'
    || c == '\U{3000}'
  }

  predicate Blank(text: string) {
    forall c :: c in text ==> Whitespace(c)
  }

  /** What the graph's constructor asks of its own fields. */
  predicate HeaderAccepted(h: Header) {
    !Blank(h.id) && !Blank(h.objective) && h.status.Some? && h.version.Some? && h.version.value >= 1
  }

  datatype Graph = Graph(nodes: seq<WorkNode>, edges: seq<Edge>)

  predicate NodeAccepted(n: Option<WorkNode>) {
    n.Some? && (n.value.kind.Approval? ==> n.value.approvalRequired)
  }

  predicate EdgeAccepted(e: Option<Edge>) {
    e.Some? && e.value.0 != e.value.1
  }

  function Ids(nodes: seq<WorkNode>): set<string> {
    set n | n in nodes :: n.id
  }

  ghost predicate DistinctIds(nodes: seq<WorkNode>) {
    forall i, j :: 0 <= i < j < |nodes| ==> nodes[i].id != nodes[j].id
  }

  function Values<T>(xs: seq<Option<T>>): seq<T>
    requires forall x :: x in xs ==> x.Some?
  {
    seq(|xs|, i requires 0 <= i < |xs| => assert xs[i] in xs; xs[i].value)
  }

  /** Everything the compiler checks before it looks for cycles. */
  ghost predicate WellFormed(spec: Spec) {
    && spec.nodes != []
    && (forall n :: n in spec.nodes ==> NodeAccepted(n))
    && DistinctIds(Values(spec.nodes))
    && (forall e :: e in spec.edges ==> EdgeAccepted(e))
    && (forall e :: e in Values(spec.edges) ==> e.0 in Ids(Values(spec.nodes)) && e.1 in Ids(Values(spec.nodes)))
  }

  predicate ById(a: WorkNode, b: WorkNode) {
    TextLeq(a.id, b.id)
  }

  predicate EdgeLeq(a: Edge, b: Edge) {
    if a.0 == b.0 then TextLeq(a.1, b.1) else TextLeq(a.0, b.0)
  }

  lemma OrdersAreTotal()
    ensures TotalPreorder(ById) && TotalPreorder(EdgeLeq)
  {
    TextLeqIsTotalPreorder();
    forall a: WorkNode, b, c | ById(a, b) && ById(b, c) ensures ById(a, c) {
      TextLeqTransitive(a.id, b.id, c.id);
    }
    forall a: WorkNode, b ensures ById(a, b) || ById(b, a) {
      TextLeqTotal(a.id, b.id);
    }
    forall a: Edge, b ensures EdgeLeq(a, b) || EdgeLeq(b, a) {
      TextLeqTotal(a.0, b.0);
      TextLeqTotal(a.1, b.1);
    }
    forall a: Edge, b: Edge, c | EdgeLeq(a, b) && EdgeLeq(b, c) ensures EdgeLeq(a, c) {
      if a.0 == b.0 == c.0 {
        TextLeqTransitive(a.1, b.1, c.1);
      } else if a.0 != b.0 && b.0 != c.0 {
        TextLeqTransitive(a.0, b.0, c.0);
        if a.0 == c.0 { TextLeqAntisymmetric(a.0, b.0); }
      }
    }
  }

  /** Nodes keyed by id in the order given, or the first complaint. */
  method CollectNodes(raw: seq<Option<WorkNode>>) returns (r: Result<seq<WorkNode>, CompileError>)
    ensures r.Success? <==> (forall n :: n in raw ==> NodeAccepted(n)) && DistinctIds(Values(raw))
    ensures r.Success? ==> r.value == Values(raw)
    ensures r.Failure? ==> r.error != CyclicGraph && r.error != BadGraph
  {
    var nodes, ids := [], {};
    var i := 0;
    while i < |raw|
      invariant 0 <= i <= |raw|
      invariant forall k :: 0 <= k < i ==> NodeAccepted(raw[k])
      invariant |nodes| == i && forall k :: 0 <= k < i ==> nodes[k] == raw[k].value
      invariant DistinctIds(nodes) && ids == Ids(nodes)
    {
      if !NodeAccepted(raw[i]) { return Failure(BadNode); }
      if raw[i].value.id in ids {
        DuplicateFound(raw, nodes, i);
        return Failure(DuplicateNode);
      }
      nodes, ids := nodes + [raw[i].value], ids + {raw[i].value.id};
      i := i + 1;
    }
    assert forall n :: n in raw ==> NodeAccepted(n);
    assert nodes == Values(raw);
    return Success(nodes);
  }

  method CollectEdges(raw: seq<Option<Edge>>) returns (r: Result<seq<Edge>, CompileError>)
    ensures r.Success? <==> forall e :: e in raw ==> EdgeAccepted(e)
    ensures r.Success? ==> r.value == Values(raw)
    ensures r.Failure? ==> r.error != CyclicGraph && r.error != BadGraph
  {
    var edges := [];
    var i := 0;
    while i < |raw|
      invariant 0 <= i <= |raw|
      invariant forall k :: 0 <= k < i ==> EdgeAccepted(raw[k])
      invariant |edges| == i && forall k :: 0 <= k < i ==> edges[k] == raw[k].value
    {
      if !EdgeAccepted(raw[i]) { return Failure(BadEdge); }
      edges := edges + [raw[i].value];
      i := i + 1;
    }
    assert forall e :: e in raw ==> EdgeAccepted(e);
    assert edges == Values(raw);
    return Success(edges);
  }

  method EndpointsKnown(edges: seq<Edge>, ids: set<string>) returns (known: bool)
    ensures known <==> forall e :: e in edges ==> e.0 in ids && e.1 in ids
  {
    var i := 0;
    while i < |edges|
      invariant 0 <= i <= |edges|
      invariant forall k :: 0 <= k < i ==> edges[k].0 in ids && edges[k].1 in ids
    {
      if edges[i].0 !in ids || edges[i].1 !in ids {
        assert edges[i] in edges;
        return false;
      }
      i := i + 1;
    }
    return true;
  }

  function SortNodes(nodes: seq<WorkNode>): (r: seq<WorkNode>)
    requires DistinctIds(nodes)
    ensures multiset(r) == multiset(nodes) && SortedBy(ById, r) && DistinctIds(r) && Ids(r) == Ids(nodes)
  {
    OrdersAreTotal();
    SortElements(ById, nodes);
    SortedIdsDistinct(nodes, Sort(ById, nodes));
    Sort(ById, nodes)
  }

  function SortEdges(edges: seq<Edge>): (r: seq<Edge>)
    ensures multiset(r) == multiset(edges) && SortedBy(EdgeLeq, r)
    ensures (forall e :: e in r <==> e in edges) && (HasCycle(r) <==> HasCycle(edges))
  {
    OrdersAreTotal();
    SortElements(EdgeLeq, edges);
    SameEdgesSameCycles(edges, Sort(EdgeLeq, edges));
    Sort(EdgeLeq, edges)
  }

  /** Every check but the one for cycles; edges come back sorted. */
  method CheckSpec(spec: Spec) returns (r: Result<(seq<WorkNode>, seq<Edge>), CompileError>)
    ensures r.Success? <==> WellFormed(spec)
    ensures r.Failure? ==> r.error != CyclicGraph && r.error != BadGraph
    ensures r.Success? ==> r.value == (Values(spec.nodes), SortEdges(Values(spec.edges)))
  {
    if spec.nodes == [] { return Failure(NoNodes); }
    var nodes := CollectNodes(spec.nodes);
    if nodes.Failure? { return Failure(nodes.error); }
    var edges := CollectEdges(spec.edges);
    if edges.Failure? { return Failure(edges.error); }
    var sorted := SortEdges(edges.value);
    var known := EndpointsKnown(sorted, Ids(nodes.value));
    if !known { return Failure(UnknownEndpoint); }
    assert forall e :: e in edges.value ==> e in sorted;
    return Success((nodes.value, sorted));
  }

  method CompileWorkGraph(spec: Spec) returns (r: Result<Graph, CompileError>, ghost order: seq<string>)
    ensures r.Success? <==> WellFormed(spec) && !HasCycle(Values(spec.edges)) && HeaderAccepted(spec.header)
    ensures r == Failure(BadGraph) <==>
      WellFormed(spec) && !HasCycle(Values(spec.edges)) && !HeaderAccepted(spec.header)
    ensures r == Failure(CyclicGraph) <==> WellFormed(spec) && HasCycle(Values(spec.edges))
    ensures r.Success? ==>
      && multiset(r.value.nodes) == multiset(Values(spec.nodes)) && SortedBy(ById, r.value.nodes)
      && multiset(r.value.edges) == multiset(Values(spec.edges)) && SortedBy(EdgeLeq, r.value.edges)
      && DistinctIds(r.value.nodes)
      && FinishOrder(Ids(r.value.nodes), r.value.edges, order)
  {
    order := [];
    var checked := CheckSpec(spec);
    if checked.Failure? { return Failure(checked.error), order; }
    var (nodes, edges) := checked.value;
    var cyclic;
    cyclic, order := RejectCycles(Ids(nodes), edges);
    if cyclic { return Failure(CyclicGraph), order; }
    if !HeaderAccepted(spec.header) { return Failure(BadGraph), order; }
    return Success(Graph(SortNodes(nodes), edges)), order;
  }

  lemma DuplicateFound(raw: seq<Option<WorkNode>>, nodes: seq<WorkNode>, i: nat)
    requires i < |raw| && |nodes| == i && raw[i].Some?
    requires forall k :: 0 <= k < i ==> raw[k].Some? && nodes[k] == raw[k].value
    requires raw[i].value.id in Ids(nodes)
    ensures (forall n :: n in raw ==> NodeAccepted(n)) ==> !DistinctIds(Values(raw))
  {
    var n :| n in nodes && n.id == raw[i].value.id;
    var k :| 0 <= k < i && nodes[k] == n;
    if forall m :: m in raw ==> NodeAccepted(m) {
      var values := Values(raw);
      assert values[k].id == values[i].id;
    }
  }

  lemma SameEdgesSameCycles(a: seq<Edge>, b: seq<Edge>)
    requires forall e :: e in a <==> e in b
    ensures HasCycle(a) <==> HasCycle(b)
  {
    forall p ensures Path(a, p) <==> Path(b, p) {
      assert forall i :: 0 <= i < |p| - 1 ==> StepAt(a, p, i) == StepAt(b, p, i);
    }
  }

  /** Sorting keeps ids distinct. */
  lemma SortedIdsDistinct(nodes: seq<WorkNode>, sorted: seq<WorkNode>)
    requires DistinctIds(nodes) && multiset(sorted) == multiset(nodes)
    ensures DistinctIds(sorted)
  {
    forall i, j | 0 <= i < j < |sorted| ensures sorted[i].id != sorted[j].id {
      if sorted[i].id == sorted[j].id {
        var n := sorted[i];
        assert n in multiset(nodes) && sorted[j] in multiset(nodes);
        assert n in nodes && sorted[j] in nodes;
        assert sorted[j] == n;
        assert sorted == sorted[..i] + [n] + sorted[i + 1..j] + [n] + sorted[j + 1..];
        assert multiset(sorted)[n] >= 2;
        OccursTwice(nodes, n);
      }
    }
  }

  lemma {:induction false} OccursTwice(nodes: seq<WorkNode>, n: WorkNode)
    requires multiset(nodes)[n] >= 2
    ensures !DistinctIds(nodes)
  {
    assert nodes == [nodes[0]] + nodes[1..];
    if nodes[0] == n {
      assert n in multiset(nodes[1..]);
      var k :| 0 <= k < |nodes[1..]| && nodes[1..][k] == n;
      assert nodes[k + 1].id == nodes[0].id;
    } else {
      OccursTwice(nodes[1..], n);
      var i, j :| 0 <= i < j < |nodes[1..]| && nodes[1..][i].id == nodes[1..][j].id;
      assert nodes[i + 1].id == nodes[j + 1].id;
    }
  }
}
