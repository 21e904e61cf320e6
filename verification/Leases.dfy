/** The node registry's lease table (nodes/store.py) and the dispatcher that takes and
    closes leases (nodes/dispatcher.py).

    Times are whole seconds; the ISO texts stored compare as these numbers do. */
module Leases {
  import opened Common

  datatype LeaseState = Active | Completed | Failed | Released | Expired

  datatype Lease = Lease(
    graphId: string, workNode: string, worker: string, state: LeaseState,
    acquiredAt: nat, expiresAt: int, releasedAt: Option<nat>)

  datatype Node = Node(isWorker: bool, trusted: bool, capabilityDigest: Option<string>)

  type Table = map<string, Lease>

  // ----- what one statement does to the table

  /** UPDATE: every active lease whose time is up. */
  function ExpireAt(t: Table, now: nat): Table {
    map id | id in t :: if t[id].state.Active? && t[id].expiresAt <= now
                        then t[id].(state := Expired, releasedAt := Some(now)) else t[id]
  }

  /** INSERT is refused for a key already used, or for a work node that has an active lease (the unique
      index on active leases). */
  predicate Insertable(t: Table, id: string, workNode: string) {
    id !in t && forall other :: other in t && t[other].workNode == workNode ==> !t[other].state.Active?
  }

  function Close(t: Table, id: string, target: LeaseState, now: nat): Table
    requires id in t
  {
    t[id := t[id].(state := target, releasedAt := Some(now))]
  }

  datatype Step =
    | Expire(now: nat)
    | Insert(id: string, lease: Lease)
    | Terminate(id: string, target: LeaseState, now: nat)

  predicate Terminal(s: LeaseState) {
    s.Completed? || s.Failed? || s.Released?
  }

  /** The closing UPDATE names the lease alone: it does not look at the state the lease is in by then. */
  predicate Allowed(t: Table, s: Step) {
    match s
    case Expire(_) => true
    case Insert(id, l) => Insertable(t, id, l.workNode) && l.state.Active? && l.releasedAt.None?
    case Terminate(id, target, _) => id in t && Terminal(target)
  }

  function After(t: Table, s: Step): Table
    requires Allowed(t, s)
  {
    match s
    case Expire(now) => ExpireAt(t, now)
    case Insert(id, l) => t[id := l]
    case Terminate(id, target, now) => Close(t, id, target, now)
  }

  // ----- what every run of statements keeps

  ghost predicate Sound(t: Table) {
    && (forall a, b ::
          a in t && b in t && t[a].state.Active? && t[b].state.Active? && t[a].workNode == t[b].workNode ==> a == b)
    && (forall id :: id in t ==> (t[id].releasedAt.Some? <==> !t[id].state.Active?))
  }

  /** Rows persist, a lease that has left `active` never returns to it, and nothing but state and release time moves. */
  ghost predicate Persists(t: Table, u: Table) {
    forall id :: id in t ==>
      && id in u
      && (u[id] == t[id]
          || (!u[id].state.Active? && u[id] == t[id].(state := u[id].state, releasedAt := u[id].releasedAt)))
  }

  /** And a lease that has left `active` does not change again. */
  ghost predicate Evolves(t: Table, u: Table) {
    Persists(t, u) && forall id :: id in t && !t[id].state.Active? ==> u[id] == t[id]
  }

  /** A closing that finds its lease closed already, and changes its row. */
  predicate Rewrites(t: Table, s: Step)
    requires Allowed(t, s)
  {
    s.Terminate? && !t[s.id].state.Active? && After(t, s) != t
  }

  lemma StepSound(t: Table, s: Step)
    requires Sound(t) && Allowed(t, s)
    ensures Sound(After(t, s)) && Persists(t, After(t, s))
    ensures Evolves(t, After(t, s)) <==> !Rewrites(t, s)
  {
    if s.Terminate? && !t[s.id].state.Active? {
      assert After(t, s)[s.id] == t[s.id] ==> After(t, s) == t;
    }
  }

  lemma PersistsTransitive(t: Table, u: Table, v: Table)
    requires Persists(t, u) && Persists(u, v)
    ensures Persists(t, v)
  {
  }

  lemma PersistsReflexive(t: Table)
    ensures Persists(t, t)
  {
  }

  lemma StillHeld(t: Table, u: Table, id: string)
    requires Persists(t, u) && id in t
    ensures id in u && u[id].workNode == t[id].workNode
  {
  }

  ghost predicate Legal(t: Table, steps: seq<Step>)
    decreases |steps|
  {
    steps == [] || (Allowed(t, steps[0]) && Legal(After(t, steps[0]), steps[1..]))
  }

  ghost function Final(t: Table, steps: seq<Step>): Table
    requires Legal(t, steps)
    decreases |steps|
  {
    if steps == [] then t else Final(After(t, steps[0]), steps[1..])
  }

  /** At no step does a lease that has left `active` change. */
  ghost predicate Steady(t: Table, steps: seq<Step>)
    requires Legal(t, steps)
    decreases |steps|
  {
    steps == [] || (Evolves(t, After(t, steps[0])) && Steady(After(t, steps[0]), steps[1..]))
  }

  /** Some closing of the run comes too late. */
  ghost predicate SomeRewrites(t: Table, steps: seq<Step>)
    requires Legal(t, steps)
    decreases |steps|
  {
    steps != [] && (Rewrites(t, steps[0]) || SomeRewrites(After(t, steps[0]), steps[1..]))
  }

  /** Over any interleaving of statements a work node never has two active leases, every closed lease carries its
      release time and no open one does, and a lease leaves `active` at most once.  It keeps the state it left it for
      exactly when no closing finds its lease closed already. */
  lemma {:induction false} RunSound(t: Table, steps: seq<Step>)
    requires Sound(t) && Legal(t, steps)
    ensures Sound(Final(t, steps)) && Persists(t, Final(t, steps))
    ensures Steady(t, steps) <==> !SomeRewrites(t, steps)
    decreases |steps|
  {
    if steps != [] {
      StepSound(t, steps[0]);
      RunSound(After(t, steps[0]), steps[1..]);
      PersistsTransitive(t, After(t, steps[0]), Final(t, steps));
    }
  }

  /** Such a run: a lease expires between another process's check and its closing, and ends up completed. */
  lemma LateClosingRewrites(id: string, l: Lease, now: nat, later: nat)
    requires l.state.Active? && l.releasedAt.None? && l.expiresAt <= now
    ensures var t, steps := map[id := l], [Expire(now), Terminate(id, Completed, later)];
      && Sound(t) && Legal(t, steps) && !Steady(t, steps)
      && id in Final(t, steps) && Final(t, steps)[id].state.Completed?
  {
    var t, steps := map[id := l], [Expire(now), Terminate(id, Completed, later)];
    var u := ExpireAt(t, now);
    assert steps[1..] == [Terminate(id, Completed, later)] && steps[1..][1..] == [];
    assert Rewrites(u, steps[1]) by { assert Close(u, id, Completed, later)[id] != u[id]; }
    assert SomeRewrites(u, steps[1..]);
    assert Final(u, steps[1..]) == Final(Close(u, id, Completed, later), []);
    RunSound(t, steps);
  }

  lemma {:induction false} RunContinues(t: Table, first: seq<Step>, s: Step)
    requires Legal(t, first) && Allowed(Final(t, first), s)
    ensures Legal(t, first + [s]) && Final(t, first + [s]) == After(Final(t, first), s)
    decreases |first|
  {
    if first == [] {
      assert [s][1..] == [];
    } else {
      RunContinues(After(t, first[0]), first[1..], s);
      assert (first + [s])[1..] == first[1..] + [s];
    }
  }

  /** After the leases that ran out are expired, an INSERT goes through exactly when the id is new and the work node has
      no unexpired active lease. */
  lemma InsertableAfterExpiry(t: Table, now: nat, id: string, workNode: string)
    ensures Insertable(ExpireAt(t, now), id, workNode) <==>
      id !in t && forall l :: l in t && t[l].workNode == workNode ==> !t[l].state.Active? || t[l].expiresAt <= now
  {
    var u := ExpireAt(t, now);
    assert forall l :: l in t ==> l in u && u[l].workNode == t[l].workNode;
    assert forall l :: l in t ==> (u[l].state.Active? <==> t[l].state.Active? && t[l].expiresAt > now);
  }

  // ----- the store

  datatype LeaseError = UnknownNode | NotTrusted | LeaseHeld | UnknownLease | NotActive | EventLost | StoreFailed

  class NodeStore {
    var nodes: map<string, Node>
    var leases: Table
    var clock: nat
    ghost var steps: seq<Step>

    constructor ()
      ensures Valid() && leases == map[] && nodes == map[]
    {
      nodes, leases, clock, steps := map[], map[], 0, [];
    }

    /** The table is what a run of statements makes of the empty one. */
    ghost predicate Valid()
      reads this
    {
      Legal(map[], steps) && leases == Final(map[], steps)
    }

    /** Reading the clock: it never goes back. */
    method Now() returns (now: nat)
      modifies this`clock
      ensures old(clock) <= now == clock
    {
      var elapsed: nat :| 0 <= elapsed;
      clock := clock + elapsed;
      now := clock;
    }

    /** One statement, by this process or another. */
    method Execute(s: Step)
      requires Valid() && Allowed(leases, s)
      modifies this`leases, this`steps
      ensures Valid() && leases == After(old(leases), s)
      ensures Sound(leases) && Persists(old(leases), leases)
      ensures Evolves(old(leases), leases) <==> !Rewrites(old(leases), s)
    {
      RunSound(map[], steps);
      StepSound(leases, s);
      RunContinues(map[], steps, s);
      steps := steps + [s];
      leases := After(leases, s);
    }

    /** Other processes: any statements of theirs, at any time. */
    method Others()
      requires Valid()
      modifies this`leases, this`steps, this`clock
      ensures Valid() && old(clock) <= clock && Persists(old(leases), leases)
    {
      var rounds: nat :| 0 <= rounds;
      while rounds > 0
        invariant Valid() && old(clock) <= clock && Persists(old(leases), leases)
      {
        var passed := Now();
        ghost var before := leases;
        var s: Step := *;
        if Allowed(leases, s) {
          Execute(s);
          PersistsTransitive(old(leases), before, leases);
        }
        rounds := rounds - 1;
      }
    }

    /** `trust_node`. */
    method TrustNode(id: string, trusted: bool) returns (ok: bool)
      modifies this`nodes
      ensures ok <==> id in old(nodes)
      ensures nodes == if ok then old(nodes)[id := old(nodes)[id].(trusted := trusted)] else old(nodes)
    {
      ok := id in nodes;
      if ok { nodes := nodes[id := nodes[id].(trusted := trusted)]; }
    }

    /** `expire_active_leases`. */
    method ExpireActiveLeases() returns (now: nat)
      requires Valid()
      modifies this`leases, this`steps, this`clock
      ensures Valid() && old(clock) <= now == clock
      ensures leases == ExpireAt(old(leases), now) && Evolves(old(leases), leases)
    {
      now := Now();
      Execute(Expire(now));
    }

    /** Acquires a lease on a trusted worker: the leases that ran out by now are expired, and the INSERT goes through
        exactly when by then, in the table `at`, the id is new and the work node has no active lease.  The announcing
        event may still fail to be written; the lease then stays, although the caller sees an error. */
    method AcquireLease(graphId: string, workNode: string, worker: string, ttl: int, id: string)
      returns (r: Result<Lease, LeaseError>, ghost now: nat, ghost at: Table)
      requires Valid()
      modifies this`leases, this`steps, this`clock
      ensures Valid() && old(clock) <= now <= clock && Persists(old(leases), leases)
      ensures worker !in nodes ==> r == Failure(UnknownNode) && leases == old(leases)
      ensures worker in nodes && !(nodes[worker].isWorker && nodes[worker].trusted) ==>
        r == Failure(NotTrusted) && leases == old(leases)
      ensures worker in nodes && nodes[worker].isWorker && nodes[worker].trusted ==>
        && Persists(ExpireAt(old(leases), now), at)
        && (r.Success? || r.error.EventLost? <==> Insertable(at, id, workNode))
        && (!(r.Success? || r.error.EventLost?) ==> r == Failure(LeaseHeld) && leases == at)
      ensures worker in nodes && nodes[worker].isWorker && nodes[worker].trusted && at == ExpireAt(old(leases), now) ==>
        (r.Success? || r.error.EventLost? <==>
          id !in old(leases) && forall l :: l in old(leases) && old(leases)[l].workNode == workNode ==>
            !old(leases)[l].state.Active? || old(leases)[l].expiresAt <= now)
      ensures r.Success? || r.error.EventLost? ==> id !in old(leases)
      ensures r.Success? || r.error.EventLost? ==>
        && id in leases && leases == at[id := leases[id]] && leases[id].state.Active?
        && leases[id].workNode == workNode && leases[id].worker == worker && leases[id].graphId == graphId
        && now <= leases[id].acquiredAt && leases[id].acquiredAt + ttl <= leases[id].expiresAt
      ensures r.Success? ==> r.value == leases[id]
    {
      now, at := clock, leases;
      if worker !in nodes { return Failure(UnknownNode), now, at; }
      if !nodes[worker].isWorker || !nodes[worker].trusted { return Failure(NotTrusted), now, at; }
      ghost var before := leases;
      now := ExpireActiveLeases();
      ghost var expired := leases;
      InsertableAfterExpiry(before, now, id, workNode);
      Others();
      at := leases;
      PersistsTransitive(before, expired, at);
      var acquired := Now();
      var expiryBase := Now();
      var lease := Lease(graphId, workNode, worker, Active, acquired, expiryBase + ttl, None);
      if !Insertable(leases, id, workNode) { return Failure(LeaseHeld), now, at; }
      Execute(Insert(id, lease));
      PersistsTransitive(before, at, leases);
      var logged: bool := *;
      return if logged then Success(lease) else Failure(EventLost), now, at;
    }

    /** `_terminal_lease`: idempotent on its own target, refused on a lease it reads as closed otherwise.  Its UPDATE
        comes after that read, over the table `at` that other processes have left by then; it leaves `updated`, and
        keeps an earlier closing exactly when there is none in `at`, or it is the same.  The UPDATE itself may fail. */
    method TerminalLease(id: string, target: LeaseState)
      returns (r: Result<Lease, LeaseError>, ghost at: Table, ghost updated: Table)
      requires Valid() && Terminal(target)
      modifies this`leases, this`steps, this`clock
      ensures Valid() && old(clock) <= clock && Persists(old(leases), leases)
      ensures id !in old(leases) ==> r == Failure(UnknownLease) && leases == old(leases)
      ensures id in old(leases) && old(leases)[id].state == target ==>
        r == Success(old(leases)[id]) && leases == old(leases)
      ensures id in old(leases) && !old(leases)[id].state.Active? && old(leases)[id].state != target ==>
        r == Failure(NotActive) && leases == old(leases)
      ensures id in old(leases) && old(leases)[id].state.Active? && r != Failure(StoreFailed) ==>
        && Persists(old(leases), at) && id in at
        && (exists now: nat :: old(clock) <= now <= clock && updated == Close(at, id, target, now))
        && (Evolves(at, updated) <==> at[id].state.Active? || updated == at)
        && Persists(updated, leases)
      ensures id in old(leases) && r != Failure(StoreFailed) ==> id in leases && !leases[id].state.Active?
      ensures r.Success? ==> id in leases && r.value == leases[id]
      ensures r.Success? ==> id in updated && updated[id].state == target && Persists(updated, leases)
    {
      at, updated := leases, leases;
      if id !in leases { return Failure(UnknownLease), at, updated; }
      if leases[id].state == target { return Success(leases[id]), at, updated; }
      if !leases[id].state.Active? { return Failure(NotActive), at, updated; }
      ghost var before := leases;
      Others();
      at := leases;
      var now := Now();
      var failed: bool := *;
      if failed { return Failure(StoreFailed), at, updated; }
      Execute(Terminate(id, target, now));
      updated := leases;
      PersistsTransitive(before, at, updated);
      Others();
      PersistsTransitive(before, updated, leases);
      var logged: bool := *;
      return if logged then Success(leases[id]) else Failure(EventLost), at, updated;
    }
  }

  // ----- the dispatcher

  /** `Interrupts` is an exception that is no `Exception`, such as a keyboard interrupt. */
  datatype Remote = ResultOk | ResultNotOk | Raises | Interrupts

  datatype Invocation =
    | Refused                    // before any lease was taken
    | LeaseRefused(error: LeaseError)
    | PackageFailed              // the package could not be built
    | Returned(ok: bool)
    | Raised
    | Interrupted
    | ClosingFailed              // the UPDATE of the last closing failed

  class NodeDispatcher {
    const store: NodeStore

    constructor (store: NodeStore)
      ensures this.store == store
    {
      this.store := store;
    }

    /** Lease, package, remote call, close.  Once its package is built the lease is closed at every exit but two,
        whatever other processes do meanwhile: an exception the handler does not catch, and a last closing whose own
        UPDATE fails.  If the package cannot be built, or the acquisition could not be announced, the lease stays
        active until it expires. */
    method Invoke(worker: Option<string>, graphId: string, workNode: string, digest: Option<string>, ttl: int,
                  leaseId: string)
      returns (r: Invocation, ghost closing: Table)
      requires store.Valid()
      modifies store`leases, store`steps, store`clock
      ensures store.Valid() && Persists(old(store.leases), store.leases)
      ensures r.Refused? ==> store.leases == old(store.leases)
      ensures r.Returned? || r.Raised? ==>
        && leaseId !in old(store.leases) && leaseId in store.leases && !store.leases[leaseId].state.Active?
        && store.leases[leaseId].workNode == workNode
      ensures r.Returned? ==>
        && leaseId in closing && Persists(closing, store.leases)
        && closing[leaseId].state == (if r.ok then Completed else Failed)
      ensures r.PackageFailed? || r == LeaseRefused(EventLost) ==>
        leaseId in store.leases && store.leases[leaseId].state.Active?
    {
      hide Persists, Evolves, Legal, Final, Insertable, ExpireAt, Close, Sound;
      closing := store.leases;
      PersistsReflexive(closing);
      if worker.None? || worker.value !in store.nodes { return Refused, closing; }
      if digest.None? || store.nodes[worker.value].capabilityDigest != digest { return Refused, closing; }
      ghost var first := store.leases;
      var acquired, now, at := store.AcquireLease(graphId, workNode, worker.value, ttl, leaseId);
      if acquired.Failure? { return LeaseRefused(acquired.error), closing; }
      var built: bool := *;
      if !built { return PackageFailed, closing; }
      ghost var held := store.leases;
      store.Others();
      PersistsTransitive(first, held, store.leases);
      ghost var called := store.leases;
      StillHeld(held, called, leaseId);
      var remote: Remote := *;
      if remote.Interrupts? { return Interrupted, closing; }
      var closed := Failure(NotActive);
      ghost var updated := called;
      if remote.Raises? {
        PersistsReflexive(called);
      } else {
        closed, at, updated := store.TerminalLease(leaseId, if remote.ResultOk? then Completed else Failed);
      }
      ghost var left := store.leases;
      StillHeld(called, left, leaseId);
      PersistsTransitive(first, called, left);
      if closed.Success? { return Returned(remote.ResultOk?), updated; }
      closed, at, updated := store.TerminalLease(leaseId, Failed);
      PersistsTransitive(first, left, store.leases);
      StillHeld(left, store.leases, leaseId);
      return if closed == Failure(StoreFailed) then ClosingFailed else Raised, closing;
    }
  }
}
