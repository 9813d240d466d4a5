/** The write leases of Projects, and the object that grants and releases them. */
module Leases {
  import opened Sequences

  type Id = string

  datatype ProjectStatus = Active | Archived

  datatype Lease = Lease(projectId: Id, agentId: Id, runId: Id)

  /** The part of the database the lease protocol reads and writes. */
  datatype Database = Database(projects: map<Id, ProjectStatus>, leases: seq<Lease>)

  predicate Leased(db: Database, p: Id) {
    exists l :: l in db.leases && l.projectId == p
  }

  /** A lease of the run is stored, on whatever Project. */
  predicate HasRunLease(db: Database, r: Id) {
    exists l :: l in db.leases && l.runId == r
  }

  /** The leases of the run are the same in both, and one lease per Project stays so. */
  ghost predicate KeepsRunLeases(before: Database, after: Database, r: Id) {
    && (forall l: Lease :: l.runId == r ==> (l in after.leases <==> l in before.leases))
    && (Exclusive(before.leases) ==> Exclusive(after.leases))
  }

  function WithLease(db: Database, lease: Lease): Database {
    db.(leases := db.leases + [lease])
  }

  function Released(db: Database, p: Id, r: Id): Database {
    db.(leases := Filter((l: Lease) => !(l.projectId == p && l.runId == r), db.leases))
  }

  function WithoutLeasesOf(leases: seq<Lease>, p: Id): seq<Lease> {
    Filter((l: Lease) => l.projectId != p, leases)
  }

  function OnlyLeasesOf(leases: seq<Lease>, p: Id): seq<Lease> {
    Filter((l: Lease) => l.projectId == p, leases)
  }

  /** The status mutation of an archive, or the purge of a permanent deletion. */
  function Moved(db: Database, p: Id, purge: bool): Database {
    Database(if purge then db.projects - {p} else db.projects[p := Archived], WithoutLeasesOf(db.leases, p))
  }

  /** The compensation: the Project's rows as they were in the snapshot. */
  function Restored(db: Database, before: Database, p: Id): Database {
    Database(
      if p in before.projects then db.projects[p := before.projects[p]] else db.projects - {p},
      WithoutLeasesOf(db.leases, p) + OnlyLeasesOf(before.leases, p))
  }

  /** At most one lease per Project. */
  predicate Exclusive(leases: seq<Lease>) {
    forall i, j :: 0 <= i < j < |leases| ==> leases[i].projectId != leases[j].projectId
  }

  lemma GrantKeepsExclusive(db: Database, lease: Lease)
    requires Exclusive(db.leases) && !Leased(db, lease.projectId)
    ensures Exclusive(WithLease(db, lease).leases)
  {
    forall i | 0 <= i < |db.leases|
      ensures db.leases[i].projectId != lease.projectId
    {
      assert db.leases[i] in db.leases;
    }
  }

  lemma {:induction false} FilterKeepsExclusive(keep: Lease -> bool, leases: seq<Lease>)
    requires Exclusive(leases)
    ensures Exclusive(Filter(keep, leases))
  {
    if leases != [] {
      var n := |leases| - 1;
      FilterKeepsExclusive(keep, leases[..n]);
      forall i | 0 <= i < |Filter(keep, leases[..n])|
        ensures Filter(keep, leases[..n])[i].projectId != leases[n].projectId
      {
        FilterMembers(keep, leases[..n], Filter(keep, leases[..n])[i]);
      }
    }
  }

  lemma ExclusiveHolder(leases: seq<Lease>, a: Lease, b: Lease)
    requires Exclusive(leases) && a in leases && b in leases && a.projectId == b.projectId
    ensures a == b
  {
  }

  /** Releasing takes exactly the leases of that Project and run, and no other. */
  lemma ReleaseTakesOnlyItsOwn(db: Database, p: Id, r: Id, l: Lease)
    ensures l in Released(db, p, r).leases <==> l in db.leases && !(l.projectId == p && l.runId == r)
  {
    FilterMembers((l: Lease) => !(l.projectId == p && l.runId == r), db.leases, l);
  }

  lemma MoveTakesNoLease(db: Database, p: Id, purge: bool)
    requires !Leased(db, p)
    ensures Moved(db, p, purge).leases == db.leases
  {
    FilterKeepsAll((l: Lease) => l.projectId != p, db.leases);
  }

  lemma RestoreTakesNoLease(db: Database, before: Database, p: Id)
    requires !Leased(db, p) && !Leased(before, p)
    ensures Restored(db, before, p).leases == db.leases
  {
    FilterKeepsAll((l: Lease) => l.projectId != p, db.leases);
    FilterDropsAll((l: Lease) => l.projectId == p, before.leases);
  }
}
