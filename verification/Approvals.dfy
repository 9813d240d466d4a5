/** One-time approvals. A consume that finds an approval of its operation returns true only if it
    claims it, and each is claimed once; one that finds none returns true and claims nothing.

    `Projection` keeps what is known locally of each approval; the workflow interleaves any
    number of consumes with refreshes, revocations, new requests, purges and restarts. */
module Approvals {
  import opened Wrappers
  import opened Sequences

  type Id = string

  datatype Status = Pending | Approved | Denied | Revoked | Expired | Consumed | Unknown

  /** A correlation: the request's id, the key of the operation it was made for, what was last
      known of it and when. */
  datatype Row = Row(id: Id, key: string, status: Status, updatedAt: int)

  predicate IsClosed(status: Status) {
    status == Consumed || status == Revoked
  }

  /** A closed approval stays as it is, whatever Permit says of it. */
  function Projected(known: Status, external: Status): (r: Status)
    ensures IsClosed(known) ==> r == known
  {
    if IsClosed(known) then known else external
  }

  // ------------------------------------------------------------ the projection

  function Find(rows: seq<Row>, id: Id): (r: Option<Row>)
    ensures r.Some? ==> r.value in rows && r.value.id == id
    ensures r.None? ==> forall row :: row in rows ==> row.id != id
  {
    if rows == [] then None
    else if rows[0].id == id then Some(rows[0])
    else Find(rows[1..], id)
  }

  /** The row of the key that was updated last; of several, the first. */
  function FindLatest(rows: seq<Row>, key: string): (r: Option<Row>)
    ensures r.Some? ==> r.value in rows && r.value.key == key
    ensures r.Some? ==> forall row :: row in rows && row.key == key ==> row.updatedAt <= r.value.updatedAt
    ensures r.None? ==> forall row :: row in rows ==> row.key != key
  {
    if rows == [] then None
    else
      var later := FindLatest(rows[1..], key);
      if rows[0].key == key && (later.None? || rows[0].updatedAt >= later.value.updatedAt) then Some(rows[0]) else later
  }

  predicate UniqueIds(rows: seq<Row>) {
    forall i, j :: 0 <= i < j < |rows| ==> rows[i].id != rows[j].id
  }

  /** The row takes the place of the first one with its id. */
  function Replaced(rows: seq<Row>, row: Row): (r: seq<Row>)
    ensures |r| == |rows|
    ensures forall i :: 0 <= i < |rows| ==> r[i].id == rows[i].id && (r[i] == rows[i] || r[i] == row)
    ensures Find(rows, row.id).Some? ==> row in r
  {
    if rows == [] then []
    else if rows[0].id == row.id then [row] + rows[1..]
    else
      var rest := Replaced(rows[1..], row);
      assert row in rest ==> row in [rows[0]] + rest;
      [rows[0]] + rest
  }

  /** A created approval; one with the same id is overwritten. */
  function Added(rows: seq<Row>, row: Row): seq<Row> {
    if Find(rows, row.id).None? then rows + [row] else Replaced(rows, row)
  }

  /** A refresh from Permit. */
  function Synced(rows: seq<Row>, id: Id, external: Status, at: int): seq<Row> {
    match Find(rows, id)
    case None => rows
    case Some(row) => Replaced(rows, row.(status := Projected(row.status, external), updatedAt := at))
  }

  /** Marking throws when the row is gone. */
  function Marked(rows: seq<Row>, id: Id, status: Status, at: int): Option<seq<Row>> {
    match Find(rows, id)
    case None => None
    case Some(row) => Some(Replaced(rows, row.(status := status, updatedAt := at)))
  }

  // ------------------------------------------------------------ the workflow

  /** Where a consume in flight is. */
  datatype Stage = Looking(known: Status) | Refreshing(external: Status) | Unassigning | Marking | Recording

  /** `granted` are the approvals for which a consume returned true, in order; `used` are the
      ids Permit has given out. `unclaimed` are the operations for which a consume returned true
      without an approval. `quiet` says that no approval is spent between the snapshot of a Project
      and a rollback to it. */
  datatype State = State(
    rows: seq<Row>, inFlight: map<Id, Stage>, granted: seq<Id>, unclaimed: seq<string>, used: set<Id>, quiet: bool)

  datatype Event =
    | Create(row: Row)
    | Consume(key: string)
    | Looked(id: Id, external: Option<Status>)
    | RefreshSaved(id: Id, ok: bool, at: int)
    | RoleUnassigned(id: Id, ok: bool)
    | MarkSaved(id: Id, ok: bool, at: int)
    | Audited(id: Id, ok: bool)
    | Refresh(id: Id, status: Status, at: int)
    | Revoke(id: Id, at: int)
    | Purge(keep: Row -> bool)
    | Rollback(keep: Row -> bool, saved: seq<Row>)
    | Restart

  function Land(s: State, id: Id): State {
    s.(inFlight := s.inFlight - {id})
  }

  /** The synchronous part of a consume: look at the projection, look whether a consume of the
      approval is in flight, and claim it. With no approval to be found it returns true. */
  function ConsumeStep(s: State, key: string): State {
    match FindLatest(s.rows, key)
    case None => s.(unclaimed := s.unclaimed + [key])
    case Some(row) =>
      if IsClosed(row.status) || row.id in s.inFlight then s
      else s.(inFlight := s.inFlight[row.id := Looking(row.status)])
  }

  function LookedStep(s: State, id: Id, external: Option<Status>): State {
    if id !in s.inFlight || !s.inFlight[id].Looking? then s
    else if external.None? then Land(s, id)
    else if Projected(s.inFlight[id].known, external.value) != Approved then
      s.(inFlight := s.inFlight[id := Refreshing(external.value)])
    else s.(inFlight := s.inFlight[id := Unassigning])
  }

  function MarkSavedStep(s: State, id: Id, ok: bool, at: int): State {
    if id !in s.inFlight || !s.inFlight[id].Marking? then s
    else if !ok then Land(s, id)
    else
      match Marked(s.rows, id, Consumed, at)
      case None => Land(s, id)
      case Some(rows) => s.(rows := rows, inFlight := s.inFlight[id := Recording])
  }

  function AuditedStep(s: State, id: Id, ok: bool): State {
    if id !in s.inFlight || !s.inFlight[id].Recording? then s
    else if ok then Land(s, id).(granted := s.granted + [id])
    else Land(s, id)
  }

  /** No saved row would open an approval that was granted, or is about to be. */
  predicate NoneSpent(s: State, saved: seq<Row>) {
    forall row <- saved ::
      IsClosed(row.status)
      || (row.id !in s.granted && (row.id in s.inFlight ==> !s.inFlight[row.id].Recording?))
  }

  predicate RowsKnown(rows: seq<Row>, used: set<Id>) {
    forall row <- rows :: row.id in used
  }

  /** The rollback of a Project puts the rows of its snapshot in the place of its own. */
  function RollbackStep(s: State, keep: Row -> bool, saved: seq<Row>): State {
    var rows := Filter(keep, s.rows) + saved;
    if !UniqueIds(rows) || !RowsKnown(saved, s.used) || (s.quiet && !NoneSpent(s, saved)) then s else s.(rows := rows)
  }

  function Step(s: State, e: Event): State {
    match e
    case Create(row) => if row.id in s.used then s else s.(rows := Added(s.rows, row), used := s.used + {row.id})
    case Consume(key) => ConsumeStep(s, key)
    case Looked(id, external) => LookedStep(s, id, external)
    case RefreshSaved(id, ok, at) =>
      if id !in s.inFlight || !s.inFlight[id].Refreshing? then s
      else Land(s, id).(rows := if ok then Synced(s.rows, id, s.inFlight[id].external, at) else s.rows)
    case RoleUnassigned(id, ok) =>
      if id !in s.inFlight || !s.inFlight[id].Unassigning? then s
      else if ok then s.(inFlight := s.inFlight[id := Marking]) else Land(s, id)
    case MarkSaved(id, ok, at) => MarkSavedStep(s, id, ok, at)
    case Audited(id, ok) => AuditedStep(s, id, ok)
    case Refresh(id, status, at) => s.(rows := Synced(s.rows, id, status, at))
    case Revoke(id, at) =>
      (match Marked(s.rows, id, Revoked, at)
       case None => s
       case Some(rows) => s.(rows := rows))
    case Purge(keep) => s.(rows := Filter(keep, s.rows))
    case Rollback(keep, saved) => RollbackStep(s, keep, saved)
    case Restart => s.(inFlight := map[])
  }

  function Run(s: State, events: seq<Event>): State {
    if events == [] then s else Step(Run(s, events[..|events| - 1]), events[|events| - 1])
  }

  // ------------------------------------------------------------ the invariant

  /** Every row of the approval, if there is one at all, is closed. */
  predicate Closed(rows: seq<Row>, id: Id) {
    forall row :: row in rows && row.id == id ==> IsClosed(row.status)
  }

  /** The rows may have changed, but each comes from a row of the same approval that was not
      closed unless it is closed itself. */
  ghost predicate OnlyCloses(before: seq<Row>, after: seq<Row>) {
    forall row :: row in after ==> HasSource(before, row)
  }

  ghost predicate HasSource(before: seq<Row>, row: Row) {
    exists source :: source in before && source.id == row.id && (IsClosed(source.status) ==> IsClosed(row.status))
  }

  lemma ReplaceOnlyCloses(rows: seq<Row>, row: Row)
    requires HasSource(rows, row)
    ensures OnlyCloses(rows, Replaced(rows, row))
  {
    hide HasSource;
    forall r | r in Replaced(rows, row)
      ensures HasSource(rows, r)
    {
      var i :| 0 <= i < |rows| && Replaced(rows, row)[i] == r;
      if r != row {
        IsItsOwnSource(rows, rows[i]);
      }
    }
  }

  lemma IsItsOwnSource(rows: seq<Row>, row: Row)
    requires row in rows
    ensures HasSource(rows, row)
  {
  }

  lemma SyncOnlyCloses(rows: seq<Row>, id: Id, external: Status, at: int)
    ensures OnlyCloses(rows, Synced(rows, id, external, at))
  {
    match Find(rows, id)
    case None =>
      forall r | r in rows ensures HasSource(rows, r) {
        IsItsOwnSource(rows, r);
      }
    case Some(row) =>
      assert row in rows;
      ReplaceOnlyCloses(rows, row.(status := Projected(row.status, external), updatedAt := at));
  }

  lemma MarkOnlyCloses(rows: seq<Row>, id: Id, status: Status, at: int)
    requires IsClosed(status)
    ensures Marked(rows, id, status, at).Some? ==> OnlyCloses(rows, Marked(rows, id, status, at).value)
  {
    if Find(rows, id).Some? {
      var row := Find(rows, id).value;
      assert row in rows;
      ReplaceOnlyCloses(rows, row.(status := status, updatedAt := at));
    }
  }

  lemma ReplaceKeepsUnique(rows: seq<Row>, row: Row)
    requires UniqueIds(rows)
    ensures UniqueIds(Replaced(rows, row))
  {
  }

  lemma SyncKeepsUnique(rows: seq<Row>, id: Id, external: Status, at: int)
    requires UniqueIds(rows)
    ensures UniqueIds(Synced(rows, id, external, at))
  {
    if Find(rows, id).Some? {
      var row := Find(rows, id).value;
      ReplaceKeepsUnique(rows, row.(status := Projected(row.status, external), updatedAt := at));
    }
    hide UniqueIds;
  }

  lemma MarkKeepsUnique(rows: seq<Row>, id: Id, status: Status, at: int)
    requires UniqueIds(rows)
    ensures Marked(rows, id, status, at).Some? ==> UniqueIds(Marked(rows, id, status, at).value)
  {
    if Find(rows, id).Some? {
      ReplaceKeepsUnique(rows, Find(rows, id).value.(status := status, updatedAt := at));
    }
    hide UniqueIds;
  }

  lemma {:induction false} PurgeKeepsUnique(rows: seq<Row>, keep: Row -> bool)
    requires UniqueIds(rows)
    ensures UniqueIds(Filter(keep, rows))
  {
    if rows != [] {
      var n := |rows| - 1;
      PurgeKeepsUnique(rows[..n], keep);
      forall i | 0 <= i < |Filter(keep, rows[..n])|
        ensures Filter(keep, rows[..n])[i].id != rows[n].id
      {
        FilterMembers(keep, rows[..n], Filter(keep, rows[..n])[i]);
      }
    }
  }

  lemma MarkCloses(rows: seq<Row>, id: Id, status: Status, at: int)
    requires IsClosed(status) && UniqueIds(rows)
    ensures Marked(rows, id, status, at).Some? ==> Closed(Marked(rows, id, status, at).value, id)
  {
    hide IsClosed;
    if Find(rows, id).Some? {
      var row := Find(rows, id).value.(status := status, updatedAt := at);
      ReplaceKeepsUnique(rows, row);
      forall r | r in Replaced(rows, row) && r.id == id
        ensures r == row
      {
        var i :| 0 <= i < |rows| && Replaced(rows, row)[i] == r;
        var j :| 0 <= j < |rows| && Replaced(rows, row)[j] == row;
        assert i == j;
      }
    }
  }

  lemma PurgeOnlyCloses(rows: seq<Row>, keep: Row -> bool)
    ensures OnlyCloses(rows, Filter(keep, rows))
  {
    hide HasSource;
    forall r | r in Filter(keep, rows)
      ensures HasSource(rows, r)
    {
      FilterMembers(keep, rows, r);
      IsItsOwnSource(rows, r);
    }
  }

  lemma ClosedStays(before: seq<Row>, after: seq<Row>, id: Id)
    requires OnlyCloses(before, after) && Closed(before, id)
    ensures Closed(after, id)
  {
  }

  lemma RowsStayKnown(before: seq<Row>, after: seq<Row>, used: set<Id>)
    requires OnlyCloses(before, after) && RowsKnown(before, used)
    ensures RowsKnown(after, used)
  {
  }

  predicate Distinct(ids: seq<Id>) {
    forall i, j :: 0 <= i < j < |ids| ==> ids[i] != ids[j]
  }

  /** What is granted is closed for good, and what is about to be granted is closed already. */
  predicate ClaimOk(s: State, id: Id) {
    && (id in s.granted ==> Closed(s.rows, id) && id !in s.inFlight && id in s.used)
    && (id in s.inFlight ==> id in s.used)
    && (id in s.inFlight && s.inFlight[id].Recording? ==> Closed(s.rows, id))
  }

  ghost predicate Inv(s: State) {
    s.quiet && UniqueIds(s.rows) && Distinct(s.granted) && RowsKnown(s.rows, s.used) && forall id: Id :: ClaimOk(s, id)
  }

  /** A step that only closes rows, and moves no consume to its end. */
  lemma RowStepKeeps(s: State, t: State)
    requires Inv(s) && OnlyCloses(s.rows, t.rows) && UniqueIds(t.rows)
    requires t.granted == s.granted && t.used == s.used && t.quiet
    requires forall id :: id in t.inFlight ==>
               (id in s.inFlight && s.inFlight[id] == t.inFlight[id])
               || (!t.inFlight[id].Recording? && (id in s.inFlight || (id in s.used && id !in s.granted)))
               || (id in s.inFlight && Closed(t.rows, id))
    ensures Inv(t)
  {
    hide OnlyCloses, Closed, RowsKnown, Distinct, UniqueIds;
    RowsStayKnown(s.rows, t.rows, s.used);
    forall id: Id
      ensures ClaimOk(t, id)
    {
      assert ClaimOk(s, id);
      if Closed(s.rows, id) {
        ClosedStays(s.rows, t.rows, id);
      }
    }
  }

  lemma SameRowsOnlyClose(rows: seq<Row>)
    ensures OnlyCloses(rows, rows)
  {
    hide HasSource;
    forall r | r in rows ensures HasSource(rows, r) {
      IsItsOwnSource(rows, r);
    }
  }

  lemma InvIsUnique(s: State)
    requires Inv(s)
    ensures UniqueIds(s.rows) && s.quiet
  {
  }

  lemma ConsumeKeeps(s: State, key: string)
    requires Inv(s)
    ensures Inv(ConsumeStep(s, key))
  {
    hide OnlyCloses, Inv, FindLatest, UniqueIds;
    InvIsUnique(s);
    SameRowsOnlyClose(s.rows);
    var t := ConsumeStep(s, key);
    var latest := FindLatest(s.rows, key);
    if latest.Some? {
      OpenIsNotGranted(s, latest.value);
    }
    RowStepKeeps(s, t);
  }

  lemma OpenIsNotGranted(s: State, row: Row)
    requires Inv(s) && row in s.rows
    ensures row.id in s.used && (!IsClosed(row.status) ==> row.id !in s.granted)
  {
    assert ClaimOk(s, row.id);
  }

  lemma MarkSavedKeeps(s: State, id: Id, ok: bool, at: int)
    requires Inv(s)
    ensures Inv(MarkSavedStep(s, id, ok, at))
  {
    hide OnlyCloses, Inv, Marked, Closed, UniqueIds;
    InvIsUnique(s);
    MarkKeepsUnique(s.rows, id, Consumed, at);
    SameRowsOnlyClose(s.rows);
    MarkOnlyCloses(s.rows, id, Consumed, at);
    MarkCloses(s.rows, id, Consumed, at);
    RowStepKeeps(s, MarkSavedStep(s, id, ok, at));
  }

  lemma AuditedKeeps(s: State, id: Id, ok: bool)
    requires Inv(s)
    ensures Inv(AuditedStep(s, id, ok))
  {
    hide RowsKnown, Closed;
    assert ClaimOk(s, id);
    forall other: Id
      ensures ClaimOk(AuditedStep(s, id, ok), other)
    {
      assert ClaimOk(s, other);
    }
  }

  lemma CreateKeeps(s: State, row: Row)
    requires Inv(s)
    ensures Inv(Step(s, Create(row)))
  {
    if row.id !in s.used {
      assert Find(s.rows, row.id).None? by {
        hide Find;
      }
      hide Find;
      forall id: Id
        ensures ClaimOk(Step(s, Create(row)), id)
      {
        assert ClaimOk(s, id);
      }
    }
  }

  lemma RollbackKeeps(s: State, keep: Row -> bool, saved: seq<Row>)
    requires Inv(s)
    ensures Inv(RollbackStep(s, keep, saved))
  {
    hide UniqueIds, Distinct, IsClosed;
    var t := RollbackStep(s, keep, saved);
    if t != s {
      forall row
        ensures row in t.rows <==> (row in s.rows && keep(row)) || row in saved
      {
        FilterMembers(keep, s.rows, row);
      }
      hide Filter;
      forall id: Id
        ensures ClaimOk(t, id)
      {
        assert ClaimOk(s, id);
      }
    }
  }

  lemma StepKeeps(s: State, e: Event)
    requires Inv(s)
    ensures Inv(Step(s, e))
  {
    hide OnlyCloses, Inv, Marked, Synced, ConsumeStep, MarkSavedStep, AuditedStep, RollbackStep, UniqueIds;
    InvIsUnique(s);
    SameRowsOnlyClose(s.rows);
    match e
    case Create(row) => CreateKeeps(s, row);
    case Consume(key) => ConsumeKeeps(s, key);
    case Looked(id, external) => RowStepKeeps(s, Step(s, e));
    case RefreshSaved(id, ok, at) =>
      if id in s.inFlight && s.inFlight[id].Refreshing? {
        SyncOnlyCloses(s.rows, id, s.inFlight[id].external, at);
        SyncKeepsUnique(s.rows, id, s.inFlight[id].external, at);
      }
      RowStepKeeps(s, Step(s, e));
    case RoleUnassigned(id, ok) => RowStepKeeps(s, Step(s, e));
    case MarkSaved(id, ok, at) => MarkSavedKeeps(s, id, ok, at);
    case Audited(id, ok) => AuditedKeeps(s, id, ok);
    case Refresh(id, status, at) =>
      SyncOnlyCloses(s.rows, id, status, at);
      SyncKeepsUnique(s.rows, id, status, at);
      RowStepKeeps(s, Step(s, e));
    case Revoke(id, at) =>
      MarkOnlyCloses(s.rows, id, Revoked, at);
      MarkKeepsUnique(s.rows, id, Revoked, at);
      RowStepKeeps(s, Step(s, e));
    case Purge(keep) =>
      PurgeOnlyCloses(s.rows, keep);
      PurgeKeepsUnique(s.rows, keep);
      RowStepKeeps(s, Step(s, e));
    case Rollback(keep, saved) => RollbackKeeps(s, keep, saved);
    case Restart => RowStepKeeps(s, Step(s, e));
  }

  /** A store in which all ids were given out by Permit and nothing is in flight. */
  ghost predicate Booted(s: State) {
    s.quiet && s.inFlight == map[] && s.granted == [] && s.unclaimed == [] && RowsKnown(s.rows, s.used)
      && UniqueIds(s.rows)
  }

  lemma {:induction false} ReachableInv(s: State, events: seq<Event>)
    requires Booted(s)
    ensures Inv(Run(s, events))
  {
    hide Step;
    if events != [] {
      hide Inv;
      ReachableInv(s, events[..|events| - 1]);
      StepKeeps(Run(s, events[..|events| - 1]), events[|events| - 1]);
    }
  }

  /** At most one consume returns true for an approval, over all interleavings and restarts. */
  lemma ConsumedAtMostOnce(s: State, events: seq<Event>)
    requires Booted(s)
    ensures Distinct(Run(s, events).granted)
  {
    hide Run, RowsKnown, Distinct, UniqueIds;
    ReachableInv(s, events);
  }

  /** Once granted, an approval can neither be claimed nor be granted again. */
  lemma GrantedIsSpent(s: State, events: seq<Event>, key: string)
    requires Booted(s)
    ensures
      var t := Run(s, events);
      var latest := FindLatest(t.rows, key);
      latest.Some? && latest.value.id in t.granted ==>
        IsClosed(latest.value.status) && ConsumeStep(t, key) == t
  {
    hide Run, RowsKnown, Distinct, FindLatest, UniqueIds;
    ReachableInv(s, events);
    var t := Run(s, events);
    var latest := FindLatest(t.rows, key);
    if latest.Some? {
      assert ClaimOk(t, latest.value.id);
    }
  }

  /** Consumed and revoked are absorbing: no refresh, mark or purge opens a closed approval. */
  lemma ClosedIsAbsorbing(s: State, events: seq<Event>, e: Event, id: Id)
    requires Booted(s) && !e.Create? && !e.Rollback?
    ensures
      var t := Run(s, events);
      Closed(t.rows, id) ==> Closed(Step(t, e).rows, id)
  {
    hide Run, OnlyCloses, Marked, Synced, Closed, FindLatest;
    var t := Run(s, events);
    var u := Step(t, e);
    SameRowsOnlyClose(t.rows);
    match e {
      case RefreshSaved(r, ok, at) =>
        if r in t.inFlight && t.inFlight[r].Refreshing? {
          SyncOnlyCloses(t.rows, r, t.inFlight[r].external, at);
        }
      case MarkSaved(r, ok, at) => MarkOnlyCloses(t.rows, r, Consumed, at);
      case Refresh(r, status, at) => SyncOnlyCloses(t.rows, r, status, at);
      case Revoke(r, at) => MarkOnlyCloses(t.rows, r, Revoked, at);
      case Purge(keep) => PurgeOnlyCloses(t.rows, keep);
      case _ =>
    }
    assert OnlyCloses(t.rows, u.rows);
    if Closed(t.rows, id) {
      ClosedStays(t.rows, u.rows, id);
    }
  }

  /** Ids have to be fresh: adding an approval under a consumed id opens it again. */
  lemma ReusedIdReopens(row: Row)
    requires IsClosed(row.status)
    ensures Closed([row], row.id) && !Closed(Added([row], row.(status := Approved)), row.id)
  {
    var open := row.(status := Approved);
    assert Find([row], row.id) == Some(row);
    assert Replaced([row], open) == [open];
    assert open in [open];
  }

  // ------------------------------------------------------------ true without a claim

  predicate HasRow(rows: seq<Row>, key: string) {
    exists row <- rows :: row.key == key
  }

  /** A consume returns true without a claim if and only if no approval of its operation is known,
      and nothing else ever does. */
  lemma UnclaimedIff(s: State, e: Event, key: string)
    ensures Step(s, e).unclaimed == s.unclaimed + [key] <==> e == Consume(key) && !HasRow(s.rows, key)
    ensures Step(s, e).unclaimed == s.unclaimed
            || exists k :: e == Consume(k) && !HasRow(s.rows, k) && Step(s, e).unclaimed == s.unclaimed + [k]
  {
    hide FindLatest, Find, Synced, Marked, Added, Filter;
    if e.Consume? {
      var latest := FindLatest(s.rows, e.key);
      assert latest.None? <==> !HasRow(s.rows, e.key);
      if latest.None? {
        assert (s.unclaimed + [e.key])[|s.unclaimed|] == e.key;
        assert (s.unclaimed + [key])[|s.unclaimed|] == key;
      }
    }
  }

  /** No row of any approval is taken away by the event. */
  predicate KeepsRows(e: Event) {
    !e.Purge? && !e.Rollback?
  }

  predicate AllKeepRows(events: seq<Event>) {
    forall i :: 0 <= i < |events| ==> KeepsRows(events[i])
  }

  /** The same approvals, each of the same operation, with perhaps another one behind them. */
  ghost predicate Continues(before: seq<Row>, after: seq<Row>) {
    |before| <= |after| && forall i :: 0 <= i < |before| ==>
      after[i].id == before[i].id && after[i].key == before[i].key
  }

  lemma ReplaceContinues(rows: seq<Row>, row: Row)
    requires UniqueIds(rows) && exists r :: r in rows && r.id == row.id && r.key == row.key
    ensures Continues(rows, Replaced(rows, row))
  {
    var r :| r in rows && r.id == row.id && r.key == row.key;
    var j :| 0 <= j < |rows| && rows[j] == r;
    forall i | 0 <= i < |rows|
      ensures Replaced(rows, row)[i].key == rows[i].key
    {
      if Replaced(rows, row)[i] == row {
        assert i == j;
      }
    }
  }

  lemma SyncContinues(rows: seq<Row>, id: Id, external: Status, at: int)
    requires UniqueIds(rows)
    ensures Continues(rows, Synced(rows, id, external, at))
  {
    hide UniqueIds;
    var found := Find(rows, id);
    if found.Some? {
      var row := found.value;
      assert row in rows;
      ReplaceContinues(rows, row.(status := Projected(row.status, external), updatedAt := at));
    }
    hide Find;
  }

  lemma MarkContinues(rows: seq<Row>, id: Id, status: Status, at: int)
    requires UniqueIds(rows)
    ensures Marked(rows, id, status, at).Some? ==> Continues(rows, Marked(rows, id, status, at).value)
  {
    hide UniqueIds;
    var found := Find(rows, id);
    if found.Some? {
      var row := found.value;
      assert row in rows;
      ReplaceContinues(rows, row.(status := status, updatedAt := at));
    }
    hide Find;
  }

  lemma CreateContinues(s: State, row: Row)
    requires Inv(s)
    ensures Continues(s.rows, Step(s, Create(row)).rows)
  {
    hide UniqueIds, Distinct, Closed;
    if row.id !in s.used {
      assert Find(s.rows, row.id).None? by {
        hide Find;
      }
    }
    hide Find, Replaced;
  }

  lemma StepContinues(s: State, e: Event)
    requires Inv(s) && KeepsRows(e)
    ensures Continues(s.rows, Step(s, e).rows)
  {
    hide Inv, Synced, Marked, Added, FindLatest, UniqueIds;
    InvIsUnique(s);
    match e
    case Create(row) => CreateContinues(s, row);
    case RefreshSaved(id, ok, at) =>
      if id in s.inFlight && s.inFlight[id].Refreshing? {
        SyncContinues(s.rows, id, s.inFlight[id].external, at);
      }
    case MarkSaved(id, ok, at) => MarkContinues(s.rows, id, Consumed, at);
    case Refresh(id, status, at) => SyncContinues(s.rows, id, status, at);
    case Revoke(id, at) => MarkContinues(s.rows, id, Revoked, at);
    case _ =>
  }

  lemma RowsContinue(before: seq<Row>, after: seq<Row>, key: string)
    requires Continues(before, after) && HasRow(before, key)
    ensures HasRow(after, key)
  {
    var row :| row in before && row.key == key;
    var i :| 0 <= i < |before| && before[i] == row;
    assert after[i] in after;
  }

  /** Once an operation has an approval, and while none is purged or rolled back, every consume of
      it that returns true has claimed one. */
  lemma {:induction false} TrueMeansClaimed(s: State, events: seq<Event>, more: seq<Event>, key: string)
    requires Booted(s) && HasRow(Run(s, events).rows, key) && AllKeepRows(more)
    ensures HasRow(Run(s, events + more).rows, key)
    ensures multiset(Run(s, events + more).unclaimed)[key] == multiset(Run(s, events).unclaimed)[key]
  {
    hide Booted, Step, HasRow, Continues;
    if more == [] {
      assert events + more == events;
    } else {
      var init, last := more[..|more| - 1], more[|more| - 1];
      assert more == init + [last];
      TrueMeansClaimed(s, events, init, key);
      assert (events + more)[..|events + more| - 1] == events + init;
      var t := Run(s, events + init);
      ReachableInv(s, events + init);
      hide Inv, Run;
      StepContinues(t, last);
      RowsContinue(t.rows, Step(t, last).rows, key);
      OthersUnclaimed(t, last, key);
    }
  }

  lemma OthersUnclaimed(s: State, e: Event, key: string)
    requires HasRow(s.rows, key)
    ensures multiset(Step(s, e).unclaimed)[key] == multiset(s.unclaimed)[key]
  {
    hide HasRow, Step;
    UnclaimedIff(s, e, key);
  }

  // ------------------------------------------------------------ no more grants than approvals

  /** The granted approvals that are known as approvals of the operation. */
  function GrantedFor(s: State, key: string): set<Id> {
    set row | row in s.rows && row.key == key && row.id in s.granted :: row.id
  }

  /** The approvals known of the operation. */
  function ApprovalsOf(s: State, key: string): set<Id> {
    set row | row in s.rows && row.key == key :: row.id
  }

  ghost predicate GrantedKnown(s: State) {
    (forall id :: id in s.granted ==> HasId(s.rows, id)) && forall id :: id in s.inFlight ==> HasId(s.rows, id)
  }

  ghost predicate HasId(rows: seq<Row>, id: Id) {
    exists i :: 0 <= i < |rows| && rows[i].id == id
  }

  lemma IdsContinue(before: seq<Row>, after: seq<Row>)
    requires Continues(before, after)
    ensures forall id :: HasId(before, id) ==> HasId(after, id)
  {
    forall id | HasId(before, id)
      ensures HasId(after, id)
    {
      var i :| 0 <= i < |before| && before[i].id == id;
      assert after[i].id == id;
    }
  }

  lemma GrantedStaysKnown(s: State, e: Event)
    requires Inv(s) && GrantedKnown(s) && KeepsRows(e)
    ensures GrantedKnown(Step(s, e))
  {
    hide Inv, Continues, Synced, Marked, Added, FindLatest, HasId, RollbackStep, Projected;
    StepContinues(s, e);
    IdsContinue(s.rows, Step(s, e).rows);
    if e.Consume? {
      LatestHasId(s.rows, e.key);
    }
  }

  lemma LatestHasId(rows: seq<Row>, key: string)
    ensures FindLatest(rows, key).Some? ==> HasId(rows, FindLatest(rows, key).value.id)
  {
    hide FindLatest;
    var latest := FindLatest(rows, key);
    if latest.Some? {
      var i :| 0 <= i < |rows| && rows[i] == latest.value;
    }
  }

  lemma {:induction false} GrantedIsKnown(s: State, events: seq<Event>)
    requires Booted(s) && AllKeepRows(events)
    ensures GrantedKnown(Run(s, events))
  {
    hide Step, HasId;
    if events != [] {
      var init, last := events[..|events| - 1], events[|events| - 1];
      assert events == init + [last];
      GrantedIsKnown(s, init);
      ReachableInv(s, init);
      hide Inv, GrantedKnown, Booted;
      GrantedStaysKnown(Run(s, init), last);
    }
  }

  /** The consumes of an operation that returned true, with a claim or without. */
  function TrueReturns(s: State, key: string): nat {
    |GrantedFor(s, key)| + multiset(s.unclaimed)[key]
  }

  /** In a run without purge and rollback, from the moment an operation has an approval its
      consumes return true at most as often as it gets approvals; and every approval that was
      granted is counted under its operation. */
  lemma NoMoreTrueThanApprovals(s: State, events: seq<Event>, more: seq<Event>, key: string)
    requires Booted(s) && HasRow(Run(s, events).rows, key) && AllKeepRows(events) && AllKeepRows(more)
    ensures
      var t, u := Run(s, events), Run(s, events + more);
      && TrueReturns(u, key) <= |ApprovalsOf(u, key)| + multiset(t.unclaimed)[key]
      && Distinct(u.granted) && forall id :: id in u.granted ==> exists k :: id in GrantedFor(u, k)
  {
    hide Step, Booted;
    TrueMeansClaimed(s, events, more, key);
    GrantedIsKnown(s, events + more);
    ConsumedAtMostOnce(s, events + more);
    hide Run, Distinct, HasRow;
    var u := Run(s, events + more);
    GrantedAreApprovals(u, key);
    forall id | id in u.granted
      ensures exists k :: id in GrantedFor(u, k)
    {
      var i :| 0 <= i < |u.rows| && u.rows[i].id == id;
      assert id in GrantedFor(u, u.rows[i].key);
    }
  }

  lemma GrantedAreApprovals(s: State, key: string)
    ensures |GrantedFor(s, key)| <= |ApprovalsOf(s, key)|
  {
    SubsetIsNoLarger(GrantedFor(s, key), ApprovalsOf(s, key));
  }

  lemma {:induction false} SubsetIsNoLarger(a: set<Id>, b: set<Id>)
    requires a <= b
    ensures |a| <= |b|
  {
    if a != {} {
      var x :| x in a;
      SubsetIsNoLarger(a - {x}, b - {x});
    }
  }

  // ------------------------------------------------------------ why a rollback must be quiet

  lemma {:induction false} RunOn(s: State, events: seq<Event>, more: seq<Event>)
    ensures Run(s, events + more) == Run(Run(s, events), more)
  {
    hide Step;
    if more == [] {
      assert events + more == events;
    } else {
      var all := events + more;
      assert all[..|all| - 1] == events + more[..|more| - 1];
      RunOn(s, events, more[..|more| - 1]);
    }
  }

  lemma RunOne(s: State, e: Event)
    ensures Run(s, [e]) == Step(s, e)
  {
    hide Step;
    assert [e][..0] == [];
  }

  lemma RunTwo(s: State, e: Event, f: Event)
    ensures Run(s, [e] + [f]) == Step(Step(s, e), f)
  {
    hide Step, Run;
    RunOn(s, [e], [f]);
    RunOne(s, e);
    RunOne(Step(s, e), f);
  }

  /** A store that has one approved approval, and no promise about rollbacks. */
  function OneApproved(row: Row, granted: seq<Id>): State {
    State([row], map[], granted, [], {row.id}, false)
  }

  /** A consume of the approval that goes through. */
  function Consumes(row: Row): seq<Event> {
    ([Consume(row.key)] + [Looked(row.id, Some(Approved))])
    + ([RoleUnassigned(row.id, true)] + [MarkSaved(row.id, true, row.updatedAt)]) + [Audited(row.id, true)]
  }

  lemma ClaimGoesThrough(row: Row, granted: seq<Id>)
    requires row.status == Approved
    ensures Step(Step(OneApproved(row, granted), Consume(row.key)), Looked(row.id, Some(Approved))) ==
            OneApproved(row, granted).(inFlight := map[row.id := Unassigning])
  {
    assert FindLatest([row], row.key) == Some(row);
    hide FindLatest;
  }

  lemma MarkGoesThrough(row: Row, granted: seq<Id>)
    requires row.status == Approved
    ensures
      var s := OneApproved(row, granted).(inFlight := map[row.id := Unassigning]);
      Step(Step(s, RoleUnassigned(row.id, true)), MarkSaved(row.id, true, row.updatedAt)) ==
      OneApproved(row.(status := Consumed), granted).(inFlight := map[row.id := Recording])
  {
    assert Find([row], row.id) == Some(row);
    assert Replaced([row], row.(status := Consumed)) == [row.(status := Consumed)];
    hide Find, Replaced;
  }

  lemma ConsumeGoesThrough(row: Row, granted: seq<Id>)
    requires row.status == Approved
    ensures Run(OneApproved(row, granted), Consumes(row)) == OneApproved(row.(status := Consumed), granted + [row.id])
  {
    hide Run, Step, OneApproved;
    var s := OneApproved(row, granted);
    var claim := [Consume(row.key)] + [Looked(row.id, Some(Approved))];
    var mark := [RoleUnassigned(row.id, true)] + [MarkSaved(row.id, true, row.updatedAt)];
    RunOn(s, claim + mark, [Audited(row.id, true)]);
    RunOn(s, claim, mark);
    RunTwo(s, Consume(row.key), Looked(row.id, Some(Approved)));
    ClaimGoesThrough(row, granted);
    RunTwo(Run(s, claim), RoleUnassigned(row.id, true), MarkSaved(row.id, true, row.updatedAt));
    MarkGoesThrough(row, granted);
    RunOne(Run(s, claim + mark), Audited(row.id, true));
    AuditGoesThrough(row.(status := Consumed), granted);
  }

  lemma AuditGoesThrough(row: Row, granted: seq<Id>)
    ensures Step(OneApproved(row, granted).(inFlight := map[row.id := Recording]), Audited(row.id, true)) ==
            OneApproved(row, granted + [row.id])
  {
  }

  lemma RollbackPutsBack(row: Row, spent: Row, granted: seq<Id>)
    requires spent.id == row.id
    ensures Step(OneApproved(spent, granted), Rollback(_ => false, [row])) == OneApproved(row, granted)
  {
    FilterDropsAll(_ => false, [spent]);
    assert [] + [row] == [row];
    hide Filter;
  }

  /** A rollback that puts an approved row in the place of the consumed one makes the same
      approval be granted twice. */
  lemma RollbackGrantsTwice(row: Row)
    requires row.status == Approved
    ensures
      Run(OneApproved(row, []), Consumes(row) + [Rollback(_ => false, [row])] + Consumes(row)).granted ==
        [row.id, row.id]
  {
    hide Run, Step, OneApproved, Consumes;
    var s, back := OneApproved(row, []), Rollback(_ => false, [row]);
    RunOn(s, Consumes(row) + [back], Consumes(row));
    RunOn(s, Consumes(row), [back]);
    ConsumeGoesThrough(row, []);
    RunOne(Run(s, Consumes(row)), back);
    RollbackPutsBack(row, row.(status := Consumed), [] + [row.id]);
    ConsumeGoesThrough(row, [] + [row.id]);
    GrantedIn(row.(status := Consumed), [] + [row.id] + [row.id]);
    assert [] + [row.id] + [row.id] == [row.id, row.id];
  }

  /** After a purge a consume of an operation whose approval was spent returns true again. */
  lemma PurgeAllowsAnotherTrue(row: Row)
    requires row.status == Approved
    ensures
      var t := Run(OneApproved(row, []), Consumes(row) + [Purge(_ => false)] + [Consume(row.key)]);
      t.granted == [row.id] && t.unclaimed == [row.key]
  {
    hide Run, Step, OneApproved, Consumes;
    var s, purge := OneApproved(row, []), Purge(_ => false);
    RunOn(s, Consumes(row) + [purge], [Consume(row.key)]);
    RunOn(s, Consumes(row), [purge]);
    ConsumeGoesThrough(row, []);
    RunOne(Run(s, Consumes(row)), purge);
    RunOne(Run(s, Consumes(row) + [purge]), Consume(row.key));
    PurgedConsume(row.(status := Consumed), [] + [row.id]);
    assert [] + [row.id] == [row.id];
  }

  lemma PurgedConsume(row: Row, granted: seq<Id>)
    ensures
      var t := Step(Step(OneApproved(row, granted), Purge(_ => false)), Consume(row.key));
      t.granted == granted && t.unclaimed == [row.key]
  {
    FilterDropsAll(_ => false, [row]);
    assert FindLatest([], row.key).None?;
    hide Filter;
  }

  lemma GrantedIn(row: Row, granted: seq<Id>)
    ensures OneApproved(row, granted).granted == granted
  {
  }

  // ------------------------------------------------------------ in place

  /** The projection as its mutations update it. */
  class Projection {
    var rows: seq<Row>

    constructor ()
      ensures rows == []
    {
      rows := [];
    }

    method Add(row: Row)
      requires UniqueIds(rows)
      modifies this
      ensures rows == Added(old(rows), row) && UniqueIds(rows) && row in rows
    {
      if Find(rows, row.id).None? {
        rows := rows + [row];
      } else {
        ReplaceKeepsUnique(rows, row);
        rows := Replaced(rows, row);
      }
    }

    /** Refreshes a row and reports the status to show; a closed one keeps its status. */
    method Sync(row: Row, external: Status, at: int) returns (status: Status)
      requires UniqueIds(rows)
      modifies this
      ensures rows == Synced(old(rows), row.id, external, at) && UniqueIds(rows)
      ensures
        var current := Find(old(rows), row.id);
        status == Projected(if current.Some? then current.value.status else row.status, external)
    {
      SyncKeepsUnique(rows, row.id, external, at);
      status := Projected(row.status, external);
      var current := Find(rows, row.id);
      if current.Some? {
        status := Projected(current.value.status, external);
        rows := Replaced(rows, current.value.(status := status, updatedAt := at));
      }
    }

    /** Closes a row for good. */
    method Mark(id: Id, status: Status, at: int) returns (found: bool)
      requires UniqueIds(rows)
      modifies this
      ensures found <==> Marked(old(rows), id, status, at).Some?
      ensures rows == if found then Marked(old(rows), id, status, at).value else old(rows)
      ensures UniqueIds(rows) && (found && IsClosed(status) ==> Closed(rows, id))
    {
      if IsClosed(status) {
        MarkCloses(rows, id, status, at);
      }
      MarkKeepsUnique(rows, id, status, at);
      var current := Find(rows, id);
      if current.None? {
        return false;
      }
      rows := Replaced(rows, current.value.(status := status, updatedAt := at));
      found := true;
    }
  }
}
