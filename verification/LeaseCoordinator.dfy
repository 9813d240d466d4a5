/** The object that grants and releases write leases, one stretch of code without an `await`
    at a time; the protocol that interleaves these stretches is in WriterProtocol. */
module LeaseCoordinator {
  import opened Wrappers
  import opened Sequences
  import opened Leases
  import opened Store

  datatype Outcome = Refused | Busy | Held | Unsaved

  function HolderIn(leases: seq<Lease>, p: Id): (r: Option<Lease>)
    ensures r.Some? ==> r.value in leases && r.value.projectId == p
    ensures r.None? ==> forall l :: l in leases ==> l.projectId != p
  {
    if leases == [] then None
    else if leases[0].projectId == p then Some(leases[0])
    else HolderIn(leases[1..], p)
  }

  function AcquireOn(db: Database, lease: Lease): Database {
    if Leased(db, lease.projectId) then db else WithLease(db, lease)
  }

  class Coordinator {
    const store: JsonStore<Database>
    var archiving: set<Id>

    ghost predicate Valid()
      reads this, store
    {
      store.Valid() && Exclusive(store.data.leases)
    }

    constructor (store: JsonStore<Database>)
      requires store.Valid() && Exclusive(store.data.leases)
      ensures Valid() && this.store == store && archiving == {}
    {
      this.store, archiving := store, {};
    }

    /** Nothing in flight survives a restart, so every lease found at the boot is stale. */
    method Initialize(fault: Fault) returns (stale: seq<Lease>, ok: bool)
      requires Valid()
      modifies store
      ensures Valid()
      ensures ok <==> old(store.data.leases) == [] || fault == NoFault
      ensures ok ==> store.data == old(store.data).(leases := []) && stale == old(store.data.leases)
      ensures !ok ==> store.data == old(store.data)
    {
      stale, ok := store.data.leases, true;
      if stale != [] {
        ok := store.Mutate((db: Database) => Some(db.(leases := [])), fault);
      }
    }

    /** Marks the Project as being moved; at most one move of it is under way. */
    method BeginArchive(p: Id) returns (busy: bool)
      requires Valid()
      modifies this
      ensures Valid() && store.data == old(store.data)
      ensures busy <==> Leased(old(store.data), p) || p in old(archiving)
      ensures archiving == if busy then old(archiving) else old(archiving) + {p}
    {
      if WriteLeaseHolder(p).Some? || p in archiving {
        return true;
      }
      archiving := archiving + {p};
      busy := false;
    }

    /** Ends what `BeginArchive` began, whether or not the Project is marked. */
    method EndArchive(p: Id)
      requires Valid()
      modifies this
      ensures Valid() && store.data == old(store.data)
      ensures archiving == old(archiving) - {p}
    {
      archiving := archiving - {p};
    }

    /** One attempt at the lease. `allowed` is what the authorization of the Agent comes to
        inside the mutation. */
    method TryAcquire(lease: Lease, allowed: bool, fault: Fault) returns (outcome: Outcome)
      requires Valid()
      modifies store
      ensures Valid()
      ensures outcome == (
        if lease.projectId in archiving || !allowed then Refused
        else if fault != NoFault then Unsaved
        else if Leased(old(store.data), lease.projectId) then Busy
        else Held)
      ensures store.data == if outcome == Held then WithLease(old(store.data), lease) else old(store.data)
    {
      if lease.projectId in archiving || !allowed {
        return Refused;
      }
      ghost var db := store.data;
      var taken := HolderIn(store.data.leases, lease.projectId).Some?;
      assert taken == Leased(db, lease.projectId);
      if !taken {
        GrantKeepsExclusive(db, lease);
      }
      hide Leased, Exclusive, WithLease;
      var ok := store.Mutate((db: Database) => Some(AcquireOn(db, lease)), fault);
      outcome := if !ok then Unsaved else if taken then Busy else Held;
    }

    /** Idempotent: a lease of another run of the Project is left alone, and so is everything
        else. */
    method Release(p: Id, r: Id, fault: Fault) returns (held: bool, ok: bool)
      requires Valid()
      modifies store
      ensures Valid()
      ensures ok <==> fault == NoFault
      ensures held <==> exists l :: l in old(store.data.leases) && l.projectId == p && l.runId == r
      ensures store.data == if ok then Released(old(store.data), p, r) else old(store.data)
      ensures !held ==> store.data == old(store.data)
    {
      ghost var db := store.data;
      FilterKeepsExclusive((l: Lease) => !(l.projectId == p && l.runId == r), db.leases);
      held := exists l :: l in store.data.leases && l.projectId == p && l.runId == r;
      if !held {
        FilterKeepsAll((l: Lease) => !(l.projectId == p && l.runId == r), db.leases);
      }
      ok := store.Mutate((db: Database) => Some(Released(db, p, r)), fault);
    }

    function WriteLeaseHolder(p: Id): (r: Option<Lease>)
      reads this, store
      ensures r.Some? <==> Leased(store.data, p)
      ensures r.Some? ==> r.value in store.data.leases && r.value.projectId == p
    {
      HolderIn(store.data.leases, p)
    }
  }

  /** A release undoes the acquire that was granted. */
  lemma ReleaseUndoesAcquire(db: Database, lease: Lease)
    requires !Leased(db, lease.projectId)
    ensures Released(AcquireOn(db, lease), lease.projectId, lease.runId) == db
  {
    var keep := (l: Lease) => !(l.projectId == lease.projectId && l.runId == lease.runId);
    FilterConcat(keep, db.leases, [lease]);
    FilterKeepsAll(keep, db.leases);
    FilterDropsAll(keep, [lease]);
    hide Filter;
  }
}
