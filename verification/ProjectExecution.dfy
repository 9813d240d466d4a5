/** The bracket around a Project turn: it takes the lease before the workspace is touched, and
    gives it back on every way out.

    Between any two steps of the turn the others may do what they like with the store, except
    to the leases of this run; `WriterProtocol.OthersKeepRunLeases` says that they do not. */
module ProjectExecution {
  import opened Wrappers
  import opened Leases
  import opened Store
  import opened LeaseCoordinator

  /** What the others make of the database at a moment of the turn. */
  type World = (nat, Database) -> Database

  ghost predicate Lawful(world: World, r: Id) {
    forall n: nat, db: Database :: KeepsRunLeases(db, world(n, db), r)
  }

  /** The answers a turn gets: of the policy before and inside the acquire, of the store at each
      write, and of everything between the grant and the end of its beginning. The acquire may
      be tried `tries` times more before its deadline. */
  datatype Script = Script(
    world: World, authorized: bool, tries: nat, allowed: nat -> bool, faults: nat -> Fault, prepared: bool,
    threadSaved: bool, releaseFault: Fault)

  /** The database that try number `n` finds if none before it was granted. */
  function Found(s: Script, start: Database, n: nat): Database {
    s.world(n, if n == 0 then start else Found(s, start, n - 1))
  }

  /** Another turn holds the Project at try number `n`, and the try may be repeated. */
  predicate BusyAt(s: Script, start: Database, p: Id, n: nat) {
    s.allowed(n) && s.faults(n) == NoFault && Leased(Found(s, start, n), p)
  }

  /** The try is granted. */
  predicate FreeAt(s: Script, start: Database, p: Id, n: nat) {
    s.allowed(n) && s.faults(n) == NoFault && !Leased(Found(s, start, n), p)
  }

  /** Some try within the deadline is granted, and all before it found the Project busy. */
  ghost predicate Obtains(s: Script, start: Database, p: Id) {
    exists n :: 0 <= n <= s.tries && FreeAt(s, start, p, n) && forall m :: 0 <= m < n ==> BusyAt(s, start, p, m)
  }

  /** The run has this lease and no other. */
  predicate HasOnly(db: Database, lease: Lease) {
    lease in db.leases && forall l :: l in db.leases && l.runId == lease.runId ==> l == lease
  }

  lemma WorldKeeps(world: World, n: nat, db: Database, lease: Lease)
    requires Lawful(world, lease.runId) && Exclusive(db.leases)
    ensures Exclusive(world(n, db).leases)
    ensures HasRunLease(world(n, db), lease.runId) == HasRunLease(db, lease.runId)
    ensures HasOnly(db, lease) ==> HasOnly(world(n, db), lease)
  {
    assert KeepsRunLeases(db, world(n, db), lease.runId);
    hide Exclusive;
  }

  lemma GrantIsOnly(db: Database, lease: Lease)
    requires !HasRunLease(db, lease.runId)
    ensures HasOnly(WithLease(db, lease), lease)
  {
  }

  lemma ReleaseLeavesNone(db: Database, lease: Lease)
    requires HasOnly(db, lease)
    ensures !HasRunLease(Released(db, lease.projectId, lease.runId), lease.runId)
  {
    forall l | l in Released(db, lease.projectId, lease.runId).leases
      ensures l.runId != lease.runId
    {
      ReleaseTakesOnlyItsOwn(db, lease.projectId, lease.runId, l);
    }
    hide Released;
  }

  class ExecutionScope {
    const coordinator: Coordinator

    ghost predicate Valid()
      reads this, coordinator, coordinator.store
    {
      coordinator.Valid()
    }

    constructor (coordinator: Coordinator)
      requires coordinator.Valid()
      ensures Valid() && this.coordinator == coordinator
    {
      this.coordinator := coordinator;
    }

    /** The others have their turn. */
    method Others(world: World, n: nat, ghost lease: Lease)
      requires Valid() && Lawful(world, lease.runId)
      modifies coordinator.store
      ensures Valid() && coordinator.store.data == world(n, old(coordinator.store.data))
      ensures HasRunLease(coordinator.store.data, lease.runId) == HasRunLease(old(coordinator.store.data), lease.runId)
      ensures HasOnly(old(coordinator.store.data), lease) ==> HasOnly(coordinator.store.data, lease)
    {
      WorldKeeps(world, n, coordinator.store.data, lease);
      hide Exclusive, HasOnly, HasRunLease, Lawful;
      var _ := coordinator.store.Mutate((db: Database) => Some(world(n, db)), NoFault);
    }

    /** Tries until the lease is granted, refused, or its deadline has passed. */
    method Acquire(lease: Lease, s: Script) returns (held: bool)
      requires Valid() && Lawful(s.world, lease.runId) && !HasRunLease(coordinator.store.data, lease.runId)
      modifies coordinator.store
      ensures Valid()
      ensures held <==>
              && lease.projectId !in coordinator.archiving
              && Obtains(s, old(coordinator.store.data), lease.projectId)
      ensures held ==> HasOnly(coordinator.store.data, lease)
      ensures !held ==> !HasRunLease(coordinator.store.data, lease.runId)
    {
      hide Exclusive, HasOnly, HasRunLease, Lawful, Leased, WithLease, Obtains;
      ghost var start := coordinator.store.data;
      var n := 0;
      while true
        invariant 0 <= n <= s.tries && Valid()
        invariant coordinator.store.data == if n == 0 then start else Found(s, start, n - 1)
        invariant !HasRunLease(coordinator.store.data, lease.runId)
        invariant forall m :: 0 <= m < n ==> BusyAt(s, start, lease.projectId, m)
        decreases s.tries - n
      {
        Others(s.world, n, lease);
        ghost var found := coordinator.store.data;
        assert found == Found(s, start, n);
        var outcome := coordinator.TryAcquire(lease, s.allowed(n), s.faults(n));
        if outcome == Held {
          GrantIsOnly(found, lease);
          ObtainedAt(s, start, lease.projectId, n);
          return true;
        }
        if outcome != Busy || n == s.tries {
          if lease.projectId !in coordinator.archiving {
            NotObtained(s, start, lease.projectId, n);
          }
          return false;
        }
        n := n + 1;
      }
    }

    /** Begins a turn: the policy, the lease, the policy again and the workspace. A failure
        behind the grant gives the lease back before it is reported. */
    method BeginTurn(lease: Lease, s: Script) returns (begun: bool)
      requires Valid() && Lawful(s.world, lease.runId) && !HasRunLease(coordinator.store.data, lease.runId)
      modifies coordinator.store
      ensures Valid()
      ensures begun <==> s.authorized && lease.projectId !in coordinator.archiving && s.prepared
                         && Obtains(s, old(coordinator.store.data), lease.projectId)
      ensures begun ==> HasOnly(coordinator.store.data, lease)
      ensures !begun && s.releaseFault == NoFault ==> !HasRunLease(coordinator.store.data, lease.runId)
    {
      hide Exclusive, HasOnly, HasRunLease, Lawful, Obtains, Released;
      if !s.authorized {
        return false;
      }
      var held := Acquire(lease, s);
      if !held {
        return false;
      }
      if !s.prepared {
        Others(s.world, s.tries + 1, lease);
        ReleaseLeavesNone(coordinator.store.data, lease);
        var _, _ := coordinator.Release(lease.projectId, lease.runId, s.releaseFault);
        return false;
      }
      begun := true;
    }

    /** Ends a turn: records its thread if there is an outcome, and gives the lease back even if
        that throws. */
    method EndTurn(lease: Lease, s: Script, outcome: bool) returns (recorded: bool)
      requires Valid() && Lawful(s.world, lease.runId) && HasOnly(coordinator.store.data, lease)
      modifies coordinator.store
      ensures Valid()
      ensures recorded <==> outcome && s.threadSaved
      ensures s.releaseFault == NoFault ==> !HasRunLease(coordinator.store.data, lease.runId)
    {
      hide Exclusive, HasOnly, HasRunLease, Lawful, Released;
      Others(s.world, s.tries + 2, lease);
      recorded := outcome && s.threadSaved;
      Others(s.world, s.tries + 3, lease);
      ReleaseLeavesNone(coordinator.store.data, lease);
      var _, _ := coordinator.Release(lease.projectId, lease.runId, s.releaseFault);
    }
  }

  lemma ObtainedAt(s: Script, start: Database, p: Id, n: nat)
    requires n <= s.tries && FreeAt(s, start, p, n) && forall m :: 0 <= m < n ==> BusyAt(s, start, p, m)
    ensures Obtains(s, start, p)
  {
  }

  lemma NotObtained(s: Script, start: Database, p: Id, n: nat)
    requires n <= s.tries && forall m :: 0 <= m < n ==> BusyAt(s, start, p, m)
    requires !FreeAt(s, start, p, n) && (n == s.tries || !BusyAt(s, start, p, n))
    ensures !Obtains(s, start, p)
  {
    hide Found, Leased;
    forall k: nat | k <= s.tries
      ensures !(FreeAt(s, start, p, k) && forall m :: 0 <= m < k ==> BusyAt(s, start, p, m))
    {
      assert k < n ==> BusyAt(s, start, p, k);
      assert n < k ==> !BusyAt(s, start, p, n);
    }
  }
}
