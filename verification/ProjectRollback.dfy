/** The compensation of a failed archive or deletion: the rows of one Project are put back as a
    snapshot has them, and everything else is left as it is. */
module ProjectRollback {
  import opened Sequences

  type Id = string

  /** A record: its own id, the Project or (for turns, events and prompts) the session it
      belongs to, and whatever else it holds. A Project belongs to itself. */
  datatype Row = Row(id: Id, owner: Id, active: bool, body: string)

  datatype Data = Data(
    projects: seq<Row>, projectAgents: seq<Row>, projectLeases: seq<Row>, orchestrations: seq<Row>,
    turns: seq<Row>, events: seq<Row>, continuationPrompts: seq<Row>, previews: seq<Row>,
    approvalRequests: seq<Row>, capabilityGrants: seq<Row>, correlations: seq<Row>)

  /** The sessions of a Project. */
  function Children(sessions: seq<Row>, p: Id): (children: set<Id>)
    ensures forall r :: r in sessions && r.owner == p ==> r.id in children
    ensures forall id :: id in children ==> exists r :: r in sessions && r.owner == p && r.id == id
  {
    set r | r in sessions && r.owner == p :: r.id
  }

  function OwnedBy(owners: set<Id>, rows: seq<Row>): seq<Row> {
    Filter((r: Row) => r.owner in owners, rows)
  }

  function NotOwnedBy(owners: set<Id>, rows: seq<Row>): seq<Row> {
    Filter((r: Row) => r.owner !in owners, rows)
  }

  function Swapped(rows: seq<Row>, saved: seq<Row>, owners: set<Id>): seq<Row> {
    NotOwnedBy(owners, rows) + OwnedBy(owners, saved)
  }

  /** Sessions of other Projects, except those that share an id with a session of this one. */
  function Unrelated(sessions: seq<Row>, p: Id, children: set<Id>): seq<Row> {
    Filter((r: Row) => r.owner != p && r.id !in children, sessions)
  }

  /** Its complement: what of the sessions a rollback to such children replaces. */
  function Replaced(sessions: seq<Row>, p: Id, children: set<Id>): seq<Row> {
    Filter((r: Row) => !(r.owner != p && r.id !in children), sessions)
  }

  function Restored(d: Data, snapshot: Data, p: Id): Data {
    var children := Children(snapshot.orchestrations, p);
    Data(
      Swapped(d.projects, snapshot.projects, {p}),
      Swapped(d.projectAgents, snapshot.projectAgents, {p}),
      Swapped(d.projectLeases, snapshot.projectLeases, {p}),
      Unrelated(d.orchestrations, p, children) + OwnedBy({p}, snapshot.orchestrations),
      Swapped(d.turns, snapshot.turns, children),
      Swapped(d.events, snapshot.events, children),
      Swapped(d.continuationPrompts, snapshot.continuationPrompts, children),
      Swapped(d.previews, snapshot.previews, {p}),
      Swapped(d.approvalRequests, snapshot.approvalRequests, {p}),
      Swapped(d.capabilityGrants, snapshot.capabilityGrants, {p}),
      Swapped(d.correlations, snapshot.correlations, {p}))
  }

  function Purged(d: Data, p: Id, children: set<Id>): Data {
    Data(
      NotOwnedBy({p}, d.projects),
      NotOwnedBy({p}, d.projectAgents),
      NotOwnedBy({p}, d.projectLeases),
      Filter((r: Row) => r.id !in children, d.orchestrations),
      NotOwnedBy(children, d.turns),
      NotOwnedBy(children, d.events),
      NotOwnedBy(children, d.continuationPrompts),
      NotOwnedBy({p}, d.previews),
      NotOwnedBy({p}, d.approvalRequests),
      NotOwnedBy({p}, d.capabilityGrants),
      NotOwnedBy({p}, d.correlations))
  }

  // ------------------------------------------------------------ one collection

  lemma SwappedView(rows: seq<Row>, saved: seq<Row>, owners: set<Id>)
    ensures OwnedBy(owners, Swapped(rows, saved, owners)) == OwnedBy(owners, saved)
    ensures NotOwnedBy(owners, Swapped(rows, saved, owners)) == NotOwnedBy(owners, rows)
  {
    var mine, others := (r: Row) => r.owner in owners, (r: Row) => r.owner !in owners;
    var a, b := NotOwnedBy(owners, rows), OwnedBy(owners, saved);
    FilterConcat(mine, a, b);
    FilterConcat(others, a, b);
    forall r: Row ensures (r in a ==> r.owner !in owners) && (r in b ==> r.owner in owners) {
      FilterMembers(others, rows, r);
      FilterMembers(mine, saved, r);
    }
    FilterKeepsAll(mine, b);
    FilterKeepsAll(others, a);
    FilterDropsAll(mine, a);
    FilterDropsAll(others, b);
    hide Filter;
  }

  lemma NotOwnedTwice(rows: seq<Row>, owners: set<Id>, more: set<Id>)
    requires owners <= more
    ensures NotOwnedBy(owners, NotOwnedBy(more, rows)) == NotOwnedBy(more, rows)
  {
    forall r: Row | r in NotOwnedBy(more, rows) ensures r.owner !in owners {
      FilterMembers((r: Row) => r.owner !in more, rows, r);
    }
    FilterKeepsAll((r: Row) => r.owner !in owners, NotOwnedBy(more, rows));
    hide Filter;
  }

  lemma {:induction false} SplitIsWhole(rows: seq<Row>, owners: set<Id>)
    ensures multiset(NotOwnedBy(owners, rows) + OwnedBy(owners, rows)) == multiset(rows)
  {
    if rows != [] {
      var n := |rows| - 1;
      assert rows == rows[..n] + [rows[n]];
      SplitIsWhole(rows[..n], owners);
    }
  }

  /** Every id of the Project's sessions belongs to no other Project's session. */
  predicate OwnIds(sessions: seq<Row>, p: Id, children: set<Id>) {
    forall r :: r in sessions && r.id in children ==> r.owner == p
  }

  lemma {:induction false} SessionsSplit(sessions: seq<Row>, p: Id, children: set<Id>)
    requires OwnIds(sessions, p, children)
    ensures Unrelated(sessions, p, children) == NotOwnedBy({p}, sessions)
  {
    if sessions != [] {
      var n := |sessions| - 1;
      assert sessions == sessions[..n] + [sessions[n]];
      SessionsSplit(sessions[..n], p, children);
    }
  }

  lemma SessionsView(sessions: seq<Row>, saved: seq<Row>, p: Id, children: set<Id>)
    ensures
      var restored := Unrelated(sessions, p, children) + OwnedBy({p}, saved);
      && Replaced(restored, p, children) == OwnedBy({p}, saved)
      && Unrelated(restored, p, children) == Unrelated(sessions, p, children)
  {
    var others := (r: Row) => r.owner != p && r.id !in children;
    var replaced := (r: Row) => !(r.owner != p && r.id !in children);
    var a, b := Unrelated(sessions, p, children), OwnedBy({p}, saved);
    FilterConcat(others, a, b);
    FilterConcat(replaced, a, b);
    forall r: Row
      ensures (r in a ==> others(r)) && (r in b ==> replaced(r))
    {
      FilterMembers(others, sessions, r);
      OwnedMembers({p}, saved, r);
    }
    FilterKeepsAll(others, a);
    FilterKeepsAll(replaced, b);
    FilterDropsAll(others, b);
    FilterDropsAll(replaced, a);
    hide Filter;
  }

  // ------------------------------------------------------------ the whole database

  /** The Project's own rows and those of the given sessions are those of the snapshot. */
  ghost predicate SameView(a: Data, b: Data, p: Id, children: set<Id>) {
    && OwnedBy({p}, a.projects) == OwnedBy({p}, b.projects)
    && OwnedBy({p}, a.projectAgents) == OwnedBy({p}, b.projectAgents)
    && OwnedBy({p}, a.projectLeases) == OwnedBy({p}, b.projectLeases)
    && Replaced(a.orchestrations, p, children) == OwnedBy({p}, b.orchestrations)
    && OwnedBy(children, a.turns) == OwnedBy(children, b.turns)
    && OwnedBy(children, a.events) == OwnedBy(children, b.events)
    && OwnedBy(children, a.continuationPrompts) == OwnedBy(children, b.continuationPrompts)
    && OwnedBy({p}, a.previews) == OwnedBy({p}, b.previews)
    && OwnedBy({p}, a.approvalRequests) == OwnedBy({p}, b.approvalRequests)
    && OwnedBy({p}, a.capabilityGrants) == OwnedBy({p}, b.capabilityGrants)
    && OwnedBy({p}, a.correlations) == OwnedBy({p}, b.correlations)
  }

  /** All other rows are the same in both, in the same order. */
  ghost predicate SameElsewhere(a: Data, b: Data, p: Id, children: set<Id>) {
    && NotOwnedBy({p}, a.projects) == NotOwnedBy({p}, b.projects)
    && NotOwnedBy({p}, a.projectAgents) == NotOwnedBy({p}, b.projectAgents)
    && NotOwnedBy({p}, a.projectLeases) == NotOwnedBy({p}, b.projectLeases)
    && Unrelated(a.orchestrations, p, children) == Unrelated(b.orchestrations, p, children)
    && NotOwnedBy(children, a.turns) == NotOwnedBy(children, b.turns)
    && NotOwnedBy(children, a.events) == NotOwnedBy(children, b.events)
    && NotOwnedBy(children, a.continuationPrompts) == NotOwnedBy(children, b.continuationPrompts)
    && NotOwnedBy({p}, a.previews) == NotOwnedBy({p}, b.previews)
    && NotOwnedBy({p}, a.approvalRequests) == NotOwnedBy({p}, b.approvalRequests)
    && NotOwnedBy({p}, a.capabilityGrants) == NotOwnedBy({p}, b.capabilityGrants)
    && NotOwnedBy({p}, a.correlations) == NotOwnedBy({p}, b.correlations)
  }

  /** The rollback gives the Project the snapshot's rows and changes nothing else, whatever
      happened to the database since the snapshot. A session under the id of one of the
      snapshot's counts as the Project's. */
  lemma RestoreIsExactAndFramed(d: Data, snapshot: Data, p: Id)
    ensures SameView(Restored(d, snapshot, p), snapshot, p, Children(snapshot.orchestrations, p))
    ensures SameElsewhere(Restored(d, snapshot, p), d, p, Children(snapshot.orchestrations, p))
  {
    hide OwnedBy, NotOwnedBy, Swapped, Unrelated, Replaced, Children;
    var children := Children(snapshot.orchestrations, p);
    SwappedView(d.projects, snapshot.projects, {p});
    SwappedView(d.projectAgents, snapshot.projectAgents, {p});
    SwappedView(d.projectLeases, snapshot.projectLeases, {p});
    SessionsView(d.orchestrations, snapshot.orchestrations, p, children);
    SwappedView(d.turns, snapshot.turns, children);
    SwappedView(d.events, snapshot.events, children);
    SwappedView(d.continuationPrompts, snapshot.continuationPrompts, children);
    SwappedView(d.previews, snapshot.previews, {p});
    SwappedView(d.approvalRequests, snapshot.approvalRequests, {p});
    SwappedView(d.capabilityGrants, snapshot.capabilityGrants, {p});
    SwappedView(d.correlations, snapshot.correlations, {p});
  }

  /** No row belongs to one of the sessions in `late`. */
  ghost predicate NoneOf(rows: seq<Row>, late: set<Id>) {
    forall r :: r in rows ==> r.owner !in late
  }

  /** A collection of rows, purged of all owners and given back those of the known ones, is as if
      it had not been purged if and only if it had no rows of the others. */
  lemma SwapAfterPurgeIff(rows: seq<Row>, saved: seq<Row>, known: set<Id>, all: set<Id>)
    requires known <= all
    ensures Swapped(NotOwnedBy(all, rows), saved, known) == Swapped(rows, saved, known) <==> NoneOf(rows, all - known)
  {
    NotOwnedTwice(rows, known, all);
    if NoneOf(rows, all - known) {
      FilterSame((r: Row) => r.owner !in all, (r: Row) => r.owner !in known, rows);
    } else {
      var r :| r in rows && r.owner in all - known;
      NotOwnedMembers(known, rows, r);
      NotOwnedMembers(all, rows, r);
      OwnedMembers(known, saved, r);
      assert r in Swapped(rows, saved, known);
      assert r !in NotOwnedBy(all, rows) + OwnedBy(known, saved);
    }
    hide OwnedBy, NotOwnedBy, Filter;
  }

  lemma NotOwnedMembers(owners: set<Id>, rows: seq<Row>, r: Row)
    ensures r in NotOwnedBy(owners, rows) <==> r in rows && r.owner !in owners
  {
    FilterMembers((r: Row) => r.owner !in owners, rows, r);
  }

  lemma OwnRowsAfterPurge(rows: seq<Row>, saved: seq<Row>, p: Id)
    ensures Swapped(NotOwnedBy({p}, rows), saved, {p}) == Swapped(rows, saved, {p})
  {
    SwapAfterPurgeIff(rows, saved, {p}, {p});
    hide Swapped;
  }

  lemma SessionsAfterPurgeIff(sessions: seq<Row>, saved: seq<Row>, p: Id, known: set<Id>, all: set<Id>)
    requires known <= all
    ensures
      Unrelated(Filter((r: Row) => r.id !in all, sessions), p, known) + OwnedBy({p}, saved) ==
      Unrelated(sessions, p, known) + OwnedBy({p}, saved)
      <==> OwnIds(sessions, p, all - known)
  {
    var kept, others := (r: Row) => r.id !in all, (r: Row) => r.owner != p && r.id !in known;
    var both := (r: Row) => r.owner != p && r.id !in all;
    FilterTwice(kept, others, both, sessions);
    if OwnIds(sessions, p, all - known) {
      FilterSame(both, others, sessions);
    } else {
      var r :| r in sessions && r.id in all - known && r.owner != p;
      FilterMembers(others, sessions, r);
      FilterMembers(both, sessions, r);
      OwnedMembers({p}, saved, r);
      assert r in Unrelated(sessions, p, known) + OwnedBy({p}, saved);
      assert r !in Filter(both, sessions) + OwnedBy({p}, saved);
    }
    hide OwnedBy, Filter;
  }

  /** A rollback behind the purge comes to the same as without it if and only if the sessions
      that the Project got since the snapshot had no turn, event or prompt, and shared no id with
      a session of another Project: those rows the purge has taken for good. */
  lemma RestoreForgetsPurgeIff(d: Data, snapshot: Data, p: Id)
    ensures
      var known, mine := Children(snapshot.orchestrations, p), Children(d.orchestrations, p);
      Restored(Purged(d, p, known + mine), snapshot, p) == Restored(d, snapshot, p) <==>
      && NoneOf(d.turns, mine - known) && NoneOf(d.events, mine - known) && NoneOf(d.continuationPrompts, mine - known)
      && OwnIds(d.orchestrations, p, mine - known)
  {
    hide OwnedBy, NotOwnedBy, Swapped, Unrelated, OwnIds, Children, Filter, NoneOf;
    var known := Children(snapshot.orchestrations, p);
    var all := known + Children(d.orchestrations, p);
    assert all - known == Children(d.orchestrations, p) - known;
    SessionsAfterPurgeIff(d.orchestrations, snapshot.orchestrations, p, known, all);
    SwapAfterPurgeIff(d.turns, snapshot.turns, known, all);
    SwapAfterPurgeIff(d.events, snapshot.events, known, all);
    SwapAfterPurgeIff(d.continuationPrompts, snapshot.continuationPrompts, known, all);
    OwnRowsAfterPurge(d.projects, snapshot.projects, p);
    OwnRowsAfterPurge(d.projectAgents, snapshot.projectAgents, p);
    OwnRowsAfterPurge(d.projectLeases, snapshot.projectLeases, p);
    OwnRowsAfterPurge(d.previews, snapshot.previews, p);
    OwnRowsAfterPurge(d.approvalRequests, snapshot.approvalRequests, p);
    OwnRowsAfterPurge(d.capabilityGrants, snapshot.capabilityGrants, p);
    OwnRowsAfterPurge(d.correlations, snapshot.correlations, p);
  }

  // ------------------------------------------------------------ the purge by itself

  /** Nothing of the Project or of the given sessions is left. */
  ghost predicate Gone(d: Data, p: Id, children: set<Id>) {
    && NoneOf(d.projects, {p}) && NoneOf(d.projectAgents, {p}) && NoneOf(d.projectLeases, {p})
    && (forall r :: r in d.orchestrations ==> r.owner != p && r.id !in children)
    && NoneOf(d.turns, children) && NoneOf(d.events, children) && NoneOf(d.continuationPrompts, children)
    && NoneOf(d.previews, {p}) && NoneOf(d.approvalRequests, {p}) && NoneOf(d.capabilityGrants, {p})
    && NoneOf(d.correlations, {p})
  }

  lemma PurgedView(rows: seq<Row>, owners: set<Id>)
    ensures NoneOf(NotOwnedBy(owners, rows), owners)
    ensures NotOwnedBy(owners, NotOwnedBy(owners, rows)) == NotOwnedBy(owners, rows)
  {
    NotOwnedTwice(rows, owners, owners);
    forall r | r in NotOwnedBy(owners, rows)
      ensures r.owner !in owners
    {
      NotOwnedMembers(owners, rows, r);
    }
    hide NotOwnedBy;
  }

  lemma PurgedSessions(sessions: seq<Row>, p: Id, children: set<Id>)
    requires Children(sessions, p) <= children
    ensures
      var left := Filter((r: Row) => r.id !in children, sessions);
      && (forall r :: r in left ==> r.owner != p && r.id !in children)
      && Unrelated(left, p, children) == Unrelated(sessions, p, children)
  {
    var kept, others := (r: Row) => r.id !in children, (r: Row) => r.owner != p && r.id !in children;
    FilterTwice(kept, others, others, sessions);
    forall r | r in Filter(kept, sessions)
      ensures r.owner != p && r.id !in children
    {
      FilterMembers(kept, sessions, r);
    }
    hide Filter;
  }

  /** The purge takes all of the Project and of its sessions, and leaves everything else in place
      and in order. */
  lemma PurgeIsExactAndFramed(d: Data, p: Id, children: set<Id>)
    requires Children(d.orchestrations, p) <= children
    ensures Gone(Purged(d, p, children), p, children) && SameElsewhere(Purged(d, p, children), d, p, children)
  {
    hide OwnedBy, NotOwnedBy, Unrelated, NoneOf, Filter, Children;
    PurgedView(d.projects, {p});
    PurgedView(d.projectAgents, {p});
    PurgedView(d.projectLeases, {p});
    PurgedSessions(d.orchestrations, p, children);
    PurgedView(d.turns, children);
    PurgedView(d.events, children);
    PurgedView(d.continuationPrompts, children);
    PurgedView(d.previews, {p});
    PurgedView(d.approvalRequests, {p});
    PurgedView(d.capabilityGrants, {p});
    PurgedView(d.correlations, {p});
  }

  lemma PurgedRowsBelong(rows: seq<Row>, sessions: seq<Row>, children: set<Id>)
    requires BelongTo(rows, Ids(sessions))
    ensures BelongTo(NotOwnedBy(children, rows), Ids(Filter((r: Row) => r.id !in children, sessions)))
  {
    forall r | r in NotOwnedBy(children, rows)
      ensures r.owner in Ids(Filter((r: Row) => r.id !in children, sessions))
    {
      NotOwnedMembers(children, rows, r);
      var session :| session in sessions && session.id == r.owner;
      FilterMembers((r: Row) => r.id !in children, sessions, session);
    }
    hide NotOwnedBy, Filter;
  }

  /** The purge makes no orphans. */
  lemma PurgeLeavesNoOrphans(d: Data, p: Id, children: set<Id>)
    requires NoOrphans(d)
    ensures NoOrphans(Purged(d, p, children))
  {
    hide BelongTo, Ids, NotOwnedBy, Filter;
    PurgedRowsBelong(d.turns, d.orchestrations, children);
    PurgedRowsBelong(d.events, d.orchestrations, children);
    PurgedRowsBelong(d.continuationPrompts, d.orchestrations, children);
  }

  /** The same rows in both, each as often. */
  ghost predicate SameRows(a: Data, b: Data) {
    && multiset(a.projects) == multiset(b.projects)
    && multiset(a.projectAgents) == multiset(b.projectAgents)
    && multiset(a.projectLeases) == multiset(b.projectLeases)
    && multiset(a.orchestrations) == multiset(b.orchestrations)
    && multiset(a.turns) == multiset(b.turns)
    && multiset(a.events) == multiset(b.events)
    && multiset(a.continuationPrompts) == multiset(b.continuationPrompts)
    && multiset(a.previews) == multiset(b.previews)
    && multiset(a.approvalRequests) == multiset(b.approvalRequests)
    && multiset(a.capabilityGrants) == multiset(b.capabilityGrants)
    && multiset(a.correlations) == multiset(b.correlations)
  }

  lemma SwapWithItself(rows: seq<Row>, owners: set<Id>)
    ensures multiset(Swapped(rows, rows, owners)) == multiset(rows)
  {
    SplitIsWhole(rows, owners);
    hide OwnedBy, NotOwnedBy;
  }

  lemma SessionsWithItselfIff(sessions: seq<Row>, p: Id, children: set<Id>)
    ensures multiset(Unrelated(sessions, p, children) + OwnedBy({p}, sessions)) == multiset(sessions) <==>
            OwnIds(sessions, p, children)
  {
    if OwnIds(sessions, p, children) {
      SessionsSplit(sessions, p, children);
      SplitIsWhole(sessions, {p});
    } else {
      var r :| r in sessions && r.id in children && r.owner != p;
      FilterMembers((r: Row) => r.owner != p && r.id !in children, sessions, r);
      OwnedMembers({p}, sessions, r);
      assert r in multiset(sessions);
      assert r !in multiset(Unrelated(sessions, p, children) + OwnedBy({p}, sessions));
    }
    hide OwnedBy, NotOwnedBy, Unrelated;
  }

  /** A purge that is rolled back at once leaves every collection as it was, up to order, if and
      only if no session of another Project shares an id with one of this Project's. */
  lemma PurgeThenRestoreIsIdentityIff(d: Data, p: Id)
    ensures SameRows(Restored(Purged(d, p, Children(d.orchestrations, p)), d, p), d) <==>
            OwnIds(d.orchestrations, p, Children(d.orchestrations, p))
  {
    hide OwnedBy, NotOwnedBy, Swapped, Unrelated, Children, Purged, Filter;
    var children := Children(d.orchestrations, p);
    assert children + children == children;
    RestoreForgetsPurgeIff(d, d, p);
    hide OwnIds, NoneOf;
    SessionsWithItselfIff(d.orchestrations, p, children);
    SwapWithItself(d.projects, {p});
    SwapWithItself(d.projectAgents, {p});
    SwapWithItself(d.projectLeases, {p});
    SwapWithItself(d.turns, children);
    SwapWithItself(d.events, children);
    SwapWithItself(d.continuationPrompts, children);
    SwapWithItself(d.previews, {p});
    SwapWithItself(d.approvalRequests, {p});
    SwapWithItself(d.capabilityGrants, {p});
    SwapWithItself(d.correlations, {p});
  }

  // ------------------------------------------------------------ orphans

  function Ids(sessions: seq<Row>): set<Id> {
    set r | r in sessions :: r.id
  }

  /** Every turn, event and continuation prompt belongs to a session that exists. */
  ghost predicate NoOrphans(d: Data) {
    && BelongTo(d.turns, Ids(d.orchestrations))
    && BelongTo(d.events, Ids(d.orchestrations))
    && BelongTo(d.continuationPrompts, Ids(d.orchestrations))
  }

  ghost predicate BelongTo(rows: seq<Row>, owners: set<Id>) {
    forall r :: r in rows ==> r.owner in owners
  }

  lemma OwnedMembers(owners: set<Id>, rows: seq<Row>, r: Row)
    ensures r in OwnedBy(owners, rows) <==> r in rows && r.owner in owners
  {
    FilterMembers((r: Row) => r.owner in owners, rows, r);
  }

  lemma UnrelatedIds(sessions: seq<Row>, saved: seq<Row>, p: Id)
    requires OwnIds(sessions, p, Children(sessions, p)) && OwnIds(sessions, p, Children(saved, p))
    ensures Ids(Unrelated(sessions, p, Children(saved, p)) + OwnedBy({p}, saved)) ==
            Ids(sessions) - Children(sessions, p) + Children(saved, p)
  {
    var children := Children(saved, p);
    var others := (r: Row) => r.owner != p && r.id !in children;
    var restored := Unrelated(sessions, p, children) + OwnedBy({p}, saved);
    forall r: Row
      ensures r in restored <==> (r in sessions && r.owner != p && r.id !in children) || (r in saved && r.owner == p)
    {
      FilterMembers(others, sessions, r);
      OwnedMembers({p}, saved, r);
    }
    hide Unrelated, OwnedBy;
  }

  lemma OrphansInCollection(rows: seq<Row>, saved: seq<Row>, ids: set<Id>, mine: set<Id>, children: set<Id>)
    requires BelongTo(rows, ids)
    ensures BelongTo(Swapped(rows, saved, children), ids - mine + children) <==> NoneOf(rows, mine - children)
  {
    var a, b := NotOwnedBy(children, rows), OwnedBy(children, saved);
    forall r: Row
      ensures r in a + b <==> (r in rows && r.owner !in children) || (r in saved && r.owner in children)
    {
      FilterMembers((r: Row) => r.owner !in children, rows, r);
      FilterMembers((r: Row) => r.owner in children, saved, r);
    }
    hide OwnedBy, NotOwnedBy;
  }

  /** The rollback drops the sessions the Project got after the snapshot but not their rows: it
      leaves no orphan if and only if none of those sessions has a turn, event or prompt. */
  lemma RestoreLeavesNoOrphansIff(d: Data, snapshot: Data, p: Id)
    requires NoOrphans(d)
    requires OwnIds(d.orchestrations, p, Children(d.orchestrations, p))
    requires OwnIds(d.orchestrations, p, Children(snapshot.orchestrations, p))
    ensures
      var late := Children(d.orchestrations, p) - Children(snapshot.orchestrations, p);
      NoOrphans(Restored(d, snapshot, p)) <==>
      NoneOf(d.turns, late) && NoneOf(d.events, late) && NoneOf(d.continuationPrompts, late)
  {
    hide BelongTo, NoneOf, OwnIds, OwnedBy, Unrelated, Swapped, Ids, Children;
    var ids, mine := Ids(d.orchestrations), Children(d.orchestrations, p);
    var children := Children(snapshot.orchestrations, p);
    UnrelatedIds(d.orchestrations, snapshot.orchestrations, p);
    OrphansInCollection(d.turns, snapshot.turns, ids, mine, children);
    OrphansInCollection(d.events, snapshot.events, ids, mine, children);
    OrphansInCollection(d.continuationPrompts, snapshot.continuationPrompts, ids, mine, children);
  }

  /** A session created since the snapshot, with the event that every session begins with. */
  function WithLateSession(d: Data, p: Id, session: Id, event: Id): Data {
    d.(orchestrations := d.orchestrations + [Row(session, p, false, "draft")],
       events := d.events + [Row(event, session, false, "created")])
  }

  lemma LateSessionIds(sessions: seq<Row>, p: Id, session: Id)
    requires session !in Ids(sessions)
    ensures
      var more := sessions + [Row(session, p, false, "draft")];
      && Ids(more) == Ids(sessions) + {session} && Children(more, p) == Children(sessions, p) + {session}
      && (OwnIds(sessions, p, Children(sessions, p)) ==> OwnIds(more, p, Children(more, p)))
      && (OwnIds(sessions, p, Children(sessions, p)) ==> OwnIds(more, p, Children(sessions, p)))
      && session !in Children(sessions, p)
  {
  }

  /** Whatever the snapshot holds, a single session created after it makes the rollback leave an
      orphan, and a purge before the rollback takes its event for good. */
  lemma LateSessionLeavesOrphan(snapshot: Data, p: Id, session: Id, event: Id)
    requires NoOrphans(snapshot) && session !in Ids(snapshot.orchestrations)
    requires OwnIds(snapshot.orchestrations, p, Children(snapshot.orchestrations, p))
    ensures
      var d := WithLateSession(snapshot, p, session, event);
      NoOrphans(d) && !NoOrphans(Restored(d, snapshot, p))
  {
    hide OwnIds, Ids, Children, Restored;
    var d := WithLateSession(snapshot, p, session, event);
    LateSessionIds(snapshot.orchestrations, p, session);
    RestoreLeavesNoOrphansIff(d, snapshot, p);
    assert Row(event, session, false, "created") in d.events;
  }

  // ------------------------------------------------------------ in place

  /** The first session with the id. */
  function FirstWith(sessions: seq<Row>, id: Id): (r: seq<Row>)
    ensures |r| <= 1 && forall x :: x in r ==> x in sessions && x.id == id
    ensures r == [] ==> forall x :: x in sessions ==> x.id != id
  {
    if sessions == [] then []
    else if sessions[0].id == id then [sessions[0]]
    else FirstWith(sessions[1..], id)
  }

  /** The session found under the id is active. */
  predicate IsActive(sessions: seq<Row>, id: Id) {
    FirstWith(sessions, id) != [] && FirstWith(sessions, id)[0].active
  }

  /** No two sessions share an id. */
  predicate UniqueIds(sessions: seq<Row>) {
    forall i, j :: 0 <= i < j < |sessions| ==> sessions[i].id != sessions[j].id
  }

  lemma ActiveSessionIsFound(sessions: seq<Row>, session: Row)
    requires session in sessions && UniqueIds(sessions)
    ensures IsActive(sessions, session.id) <==> session.active
  {
    hide FirstWith;
    var found := FirstWith(sessions, session.id)[0];
    var i :| 0 <= i < |sessions| && sessions[i] == session;
    var j :| 0 <= j < |sessions| && sessions[j] == found;
  }

  /** With unique ids looking up the ids is looking at every session. */
  lemma LookupSeesAll(sessions: seq<Row>, ids: set<Id>)
    requires UniqueIds(sessions)
    ensures (forall id :: id in ids ==> !IsActive(sessions, id)) <==>
            forall r :: r in sessions && r.id in ids ==> !r.active
  {
    forall r | r in sessions
      ensures IsActive(sessions, r.id) <==> r.active
    {
      ActiveSessionIsFound(sessions, r);
    }
    hide UniqueIds;
  }

  /** The copy of the database a mutation works on. */
  class Draft {
    var projects: seq<Row>
    var projectAgents: seq<Row>
    var projectLeases: seq<Row>
    var orchestrations: seq<Row>
    var turns: seq<Row>
    var events: seq<Row>
    var continuationPrompts: seq<Row>
    var previews: seq<Row>
    var approvalRequests: seq<Row>
    var capabilityGrants: seq<Row>
    var correlations: seq<Row>

    ghost function Value(): Data
      reads this
    {
      Data(projects, projectAgents, projectLeases, orchestrations, turns, events, continuationPrompts, previews,
           approvalRequests, capabilityGrants, correlations)
    }

    /** `RestoreIsExactAndFramed` says what this comes to. */
    method RestoreProjectSnapshot(snapshot: Data, p: Id)
      modifies this
      ensures Value() == Restored(old(Value()), snapshot, p)
    {
      hide Swapped, Unrelated, OwnedBy, Children;
      var children := Children(snapshot.orchestrations, p);
      RestoreOwnRows(snapshot, p);
      orchestrations := Unrelated(orchestrations, p, children) + OwnedBy({p}, snapshot.orchestrations);
      turns := Swapped(turns, snapshot.turns, children);
      events := Swapped(events, snapshot.events, children);
      continuationPrompts := Swapped(continuationPrompts, snapshot.continuationPrompts, children);
    }

    method RestoreOwnRows(snapshot: Data, p: Id)
      modifies this`projects, this`projectAgents, this`projectLeases, this`previews, this`approvalRequests,
               this`capabilityGrants, this`correlations
      ensures projects == Swapped(old(projects), snapshot.projects, {p})
      ensures projectAgents == Swapped(old(projectAgents), snapshot.projectAgents, {p})
      ensures projectLeases == Swapped(old(projectLeases), snapshot.projectLeases, {p})
      ensures previews == Swapped(old(previews), snapshot.previews, {p})
      ensures approvalRequests == Swapped(old(approvalRequests), snapshot.approvalRequests, {p})
      ensures capabilityGrants == Swapped(old(capabilityGrants), snapshot.capabilityGrants, {p})
      ensures correlations == Swapped(old(correlations), snapshot.correlations, {p})
    {
      hide Swapped;
      projects := Swapped(projects, snapshot.projects, {p});
      projectAgents := Swapped(projectAgents, snapshot.projectAgents, {p});
      projectLeases := Swapped(projectLeases, snapshot.projectLeases, {p});
      previews := Swapped(previews, snapshot.previews, {p});
      approvalRequests := Swapped(approvalRequests, snapshot.approvalRequests, {p});
      capabilityGrants := Swapped(capabilityGrants, snapshot.capabilityGrants, {p});
      correlations := Swapped(correlations, snapshot.correlations, {p});
    }

    /** The purge of a permanent deletion. It throws while a lease is held or one of the sessions
        is active; `PurgeIsExactAndFramed` says what it comes to otherwise. */
    method Purge(p: Id, known: set<Id>) returns (ok: bool)
      modifies this
      ensures
        ok <==>
        && (forall l :: l in old(projectLeases) ==> l.owner != p)
        && (forall id :: id in known + Children(old(orchestrations), p) ==> !IsActive(old(orchestrations), id))
      ensures
        UniqueIds(old(orchestrations)) ==>
          (ok <==>
           && (forall l :: l in old(projectLeases) ==> l.owner != p)
           && (forall r :: r in old(orchestrations) && r.id in known + Children(old(orchestrations), p) ==> !r.active))
      ensures Value() == if ok then Purged(old(Value()), p, known + Children(old(orchestrations), p)) else old(Value())
    {
      hide NotOwnedBy, Filter, Children, IsActive, UniqueIds;
      if UniqueIds(orchestrations) {
        LookupSeesAll(orchestrations, known + Children(orchestrations, p));
      }
      if exists l :: l in projectLeases && l.owner == p {
        return false;
      }
      var children := known + Children(orchestrations, p);
      ok := NoneActive(children);
      if ok {
        PurgeOwnRows(p);
        orchestrations := Filter((r: Row) => r.id !in children, orchestrations);
        turns := NotOwnedBy(children, turns);
        events := NotOwnedBy(children, events);
        continuationPrompts := NotOwnedBy(children, continuationPrompts);
      }
    }

    /** Looks up session after session, in any order. */
    method NoneActive(children: set<Id>) returns (none: bool)
      ensures none <==> forall id :: id in children ==> !IsActive(orchestrations, id)
    {
      hide FirstWith;
      var rest := children;
      while rest != {}
        invariant rest <= children
        invariant forall id :: id in children - rest ==> !IsActive(orchestrations, id)
        decreases |rest|
      {
        var id :| id in rest;
        var found := FirstWith(orchestrations, id);
        if found != [] && found[0].active {
          assert IsActive(orchestrations, id);
          return false;
        }
        rest := rest - {id};
      }
      none := true;
    }

    method PurgeOwnRows(p: Id)
      modifies this`projects, this`projectAgents, this`projectLeases, this`previews, this`approvalRequests,
               this`capabilityGrants, this`correlations
      ensures projects == NotOwnedBy({p}, old(projects))
      ensures projectAgents == NotOwnedBy({p}, old(projectAgents))
      ensures projectLeases == NotOwnedBy({p}, old(projectLeases))
      ensures previews == NotOwnedBy({p}, old(previews))
      ensures approvalRequests == NotOwnedBy({p}, old(approvalRequests))
      ensures capabilityGrants == NotOwnedBy({p}, old(capabilityGrants))
      ensures correlations == NotOwnedBy({p}, old(correlations))
    {
      hide NotOwnedBy;
      projects := NotOwnedBy({p}, projects);
      projectAgents := NotOwnedBy({p}, projectAgents);
      projectLeases := NotOwnedBy({p}, projectLeases);
      previews := NotOwnedBy({p}, previews);
      approvalRequests := NotOwnedBy({p}, approvalRequests);
      capabilityGrants := NotOwnedBy({p}, capabilityGrants);
      correlations := NotOwnedBy({p}, correlations);
    }
  }
}
