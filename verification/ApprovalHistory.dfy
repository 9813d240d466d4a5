/** What a consume that returns true went through, and what each of its steps comes to. */
module ApprovalHistory {
  import opened Wrappers
  import opened Sequences
  import opened Approvals

  // ------------------------------------------------------------ granted means approved

  /** The moments of a claim so far: Permit answered that the approval is approved, its role was
      taken away, the mark was saved, and the audit was written, in this order. */
  ghost predicate Moments(events: seq<Event>, id: Id, w: seq<nat>) {
    && |w| <= 4 && (forall i :: 0 <= i < |w| ==> w[i] < |events|) && (forall i :: 0 < i < |w| ==> w[i - 1] < w[i])
    && (|w| > 0 ==> events[w[0]] == Looked(id, Some(Approved)))
    && (|w| > 1 ==> events[w[1]] == RoleUnassigned(id, true))
    && (|w| > 2 ==> events[w[2]].MarkSaved? && events[w[2]].id == id && events[w[2]].ok)
    && (|w| > 3 ==> events[w[3]] == Audited(id, true))
  }

  /** From one moment to another the approval is in flight: all belongs to one claim of it. */
  ghost predicate OneClaim(s: State, events: seq<Event>, id: Id, from: nat, to: nat) {
    to <= |events| && forall m :: from < m <= to ==> id in Run(s, events[..m]).inFlight
  }

  /** The claim has come through all four moments without ever being let go. */
  ghost predicate Earned(s: State, events: seq<Event>, id: Id) {
    exists w: seq<nat> :: |w| == 4 && Moments(events, id, w) && OneClaim(s, events, id, w[0], w[3])
  }

  /** The claim has come through the first `n` of them and is in flight. */
  ghost predicate UnderWay(s: State, events: seq<Event>, id: Id, n: nat) {
    exists w: seq<nat> :: 0 < |w| == n && Moments(events, id, w) && OneClaim(s, events, id, w[0], |events|)
  }

  function MomentsOf(stage: Stage): nat {
    match stage
    case Looking(_) => 0
    case Refreshing(_) => 0
    case Unassigning => 1
    case Marking => 2
    case Recording => 3
  }

  ghost predicate HistoryOk(s: State, events: seq<Event>, id: Id) {
    var t := Run(s, events);
    && (id in t.granted ==> Earned(s, events, id))
    && (id in t.inFlight && MomentsOf(t.inFlight[id]) > 0 ==> UnderWay(s, events, id, MomentsOf(t.inFlight[id])))
  }

  lemma MomentsStay(events: seq<Event>, e: Event, id: Id, w: seq<nat>)
    requires Moments(events, id, w)
    ensures Moments(events + [e], id, w)
  {
  }

  lemma ClaimStays(s: State, events: seq<Event>, e: Event, id: Id, from: nat, to: nat)
    requires OneClaim(s, events, id, from, to)
    ensures OneClaim(s, events + [e], id, from, to)
    ensures to == |events| && id in Run(s, events + [e]).inFlight ==> OneClaim(s, events + [e], id, from, to + 1)
  {
    hide Run;
    assert forall m :: 0 <= m <= |events| ==> (events + [e])[..m] == events[..m];
    assert (events + [e])[..|events| + 1] == events + [e];
  }

  lemma EarnedStays(s: State, events: seq<Event>, e: Event, id: Id)
    requires Earned(s, events, id)
    ensures Earned(s, events + [e], id)
  {
    hide Moments, OneClaim;
    var w: seq<nat> :| |w| == 4 && Moments(events, id, w) && OneClaim(s, events, id, w[0], w[3]);
    MomentsStay(events, e, id, w);
    ClaimStays(s, events, e, id, w[0], w[3]);
  }

  lemma UnderWayStays(s: State, events: seq<Event>, e: Event, id: Id, n: nat)
    requires UnderWay(s, events, id, n) && id in Run(s, events + [e]).inFlight
    ensures UnderWay(s, events + [e], id, n)
  {
    hide Moments, OneClaim, Run;
    var w: seq<nat> :| 0 < |w| == n && Moments(events, id, w) && OneClaim(s, events, id, w[0], |events|);
    MomentsStay(events, e, id, w);
    ClaimStays(s, events, e, id, w[0], |events|);
  }

  /** The event is the next moment of a claim that has come through the first `n`. */
  ghost predicate IsMoment(e: Event, id: Id, n: nat) {
    match n
    case 0 => e == Looked(id, Some(Approved))
    case 1 => e == RoleUnassigned(id, true)
    case 2 => e.MarkSaved? && e.id == id && e.ok
    case 3 => e == Audited(id, true)
    case _ => false
  }

  lemma NextMoment(s: State, events: seq<Event>, e: Event, id: Id, n: nat)
    requires IsMoment(e, id, n) && (n > 0 ==> UnderWay(s, events, id, n))
    ensures n < 3 && id in Run(s, events + [e]).inFlight ==> UnderWay(s, events + [e], id, n + 1)
    ensures n == 3 ==> Earned(s, events + [e], id)
  {
    hide Run;
    var more := events + [e];
    assert more[|events|] == e;
    assert more[..|events| + 1] == more;
    if n == 0 {
      var w: seq<nat> := [|events|];
      assert Moments(more, id, w);
      if id in Run(s, more).inFlight {
        assert OneClaim(s, more, id, w[0], |more|);
      }
    } else {
      var v: seq<nat> :| 0 < |v| == n && Moments(events, id, v) && OneClaim(s, events, id, v[0], |events|);
      var w := v + [|events|];
      MomentsStay(events, e, id, v);
      assert Moments(more, id, w);
      ClaimStays(s, events, e, id, v[0], |events|);
    }
  }

  /** What one event does to one claim: it lets it be, lets it go, or brings it one moment on. */
  lemma EventMovesClaim(s: State, e: Event, id: Id)
    ensures
      var t := Step(s, e);
      && (id in t.granted ==>
            id in s.granted || (id in s.inFlight && s.inFlight[id] == Recording && IsMoment(e, id, 3)))
      && (id in t.inFlight && MomentsOf(t.inFlight[id]) > 0 ==>
            && id in s.inFlight
            && (t.inFlight[id] == s.inFlight[id]
                || (MomentsOf(t.inFlight[id]) == MomentsOf(s.inFlight[id]) + 1
                    && IsMoment(e, id, MomentsOf(s.inFlight[id])))))
  {
    hide FindLatest, Synced, Marked, Added, RowsKnown, NoneSpent, UniqueIds;
  }

  lemma HistoryStep(s: State, events: seq<Event>, e: Event, id: Id)
    requires HistoryOk(s, events, id)
    ensures HistoryOk(s, events + [e], id)
  {
    hide Step, UnderWay, Earned, IsMoment;
    var t := Run(s, events);
    assert (events + [e])[..|events|] == events;
    assert Run(s, events + [e]) == Step(t, e);
    hide Run;
    EventMovesClaim(t, e, id);
    var u := Step(t, e);
    if id in u.granted {
      if id in t.granted {
        EarnedStays(s, events, e, id);
      } else {
        NextMoment(s, events, e, id, 3);
      }
    }
    if id in u.inFlight && MomentsOf(u.inFlight[id]) > 0 {
      if u.inFlight[id] == t.inFlight[id] {
        UnderWayStays(s, events, e, id, MomentsOf(u.inFlight[id]));
      } else {
        NextMoment(s, events, e, id, MomentsOf(t.inFlight[id]));
      }
    }
  }

  lemma {:induction false} HistoryHolds(s: State, events: seq<Event>, id: Id)
    requires s.inFlight == map[] && s.granted == []
    ensures HistoryOk(s, events, id)
  {
    hide Step;
    if events != [] {
      hide HistoryOk;
      HistoryHolds(s, events[..|events| - 1], id);
      HistoryStep(s, events[..|events| - 1], events[|events| - 1], id);
      assert events == events[..|events| - 1] + [events[|events| - 1]];
    }
  }

  /** A consume returns true for an approval only if Permit answered it that the approval is
      approved, the role was taken away, the mark saved and the audit written, in this order
      and within one claim. */
  lemma GrantedWasApproved(s: State, events: seq<Event>, id: Id)
    requires Booted(s) && id in Run(s, events).granted
    ensures Earned(s, events, id)
    ensures exists i :: 0 <= i < |events| && events[i] == Looked(id, Some(Approved))
  {
    hide Run, Earned;
    HistoryHolds(s, events, id);
    EarnedWasLooked(s, events, id);
  }

  lemma EarnedWasLooked(s: State, events: seq<Event>, id: Id)
    requires Earned(s, events, id)
    ensures exists i :: 0 <= i < |events| && events[i] == Looked(id, Some(Approved))
  {
    hide OneClaim;
    var w: seq<nat> :| |w| == 4 && Moments(events, id, w) && OneClaim(s, events, id, w[0], w[3]);
    assert 0 <= w[0] < |events| && events[w[0]] == Looked(id, Some(Approved));
  }

  // ------------------------------------------------------------ the steps of a consume

  /** A consume claims the latest approval of its operation if and only if it is open and not in
      flight; it changes nothing else. */
  lemma ConsumeClaimsIff(s: State, key: string)
    requires HasRow(s.rows, key)
    ensures
      var latest, t := FindLatest(s.rows, key), Step(s, Consume(key));
      && latest.Some?
      && t == s.(inFlight := t.inFlight)
      && t.inFlight ==
         if latest.value.status != Consumed && latest.value.status != Revoked && latest.value.id !in s.inFlight
         then s.inFlight[latest.value.id := Looking(latest.value.status)] else s.inFlight
  {
    hide FindLatest;
  }

  /** Behind the answer of Permit a claim goes on if and only if the answer is that the approval
      is approved and it was not known as closed; without an answer it is let go, and with any
      other answer what is known is refreshed. */
  lemma LookDecides(s: State, id: Id, external: Option<Status>)
    requires id in s.inFlight && s.inFlight[id].Looking?
    ensures
      var t, known := Step(s, Looked(id, external)), s.inFlight[id].known;
      && t == s.(inFlight := t.inFlight)
      && (id in t.inFlight && t.inFlight[id] == Unassigning <==>
            external == Some(Approved) && known != Consumed && known != Revoked)
      && (external == None ==> t.inFlight == s.inFlight - {id})
      && (external.Some? && !(id in t.inFlight && t.inFlight[id] == Unassigning) ==>
            t.inFlight == s.inFlight[id := Refreshing(external.value)])
  {
  }

  /** A refresh sets the status of that approval to what Permit says, unless it is closed, and
      changes no other. */
  lemma RefreshIs(rows: seq<Row>, id: Id, external: Status, at: int)
    requires UniqueIds(rows)
    ensures
      var after := Synced(rows, id, external, at);
      |after| == |rows| && forall i :: 0 <= i < |rows| ==>
        after[i] ==
        if rows[i].id != id then rows[i]
        else if rows[i].status == Consumed || rows[i].status == Revoked then rows[i].(updatedAt := at)
        else rows[i].(status := external, updatedAt := at)
  {
    hide Find, Replaced;
    if Find(rows, id).Some? {
      var row := Find(rows, id).value;
      ReplacedIs(rows, row.(status := Projected(row.status, external), updatedAt := at));
      SameIdSameRow(rows, row);
    }
    hide UniqueIds;
  }

  lemma SameIdSameRow(rows: seq<Row>, row: Row)
    requires UniqueIds(rows) && row in rows
    ensures forall i :: 0 <= i < |rows| && rows[i].id == row.id ==> rows[i] == row
  {
    var j :| 0 <= j < |rows| && rows[j] == row;
  }

  lemma {:induction false} ReplacedIs(rows: seq<Row>, row: Row)
    requires UniqueIds(rows)
    ensures |Replaced(rows, row)| == |rows|
    ensures forall i :: 0 <= i < |rows| ==> Replaced(rows, row)[i] == if rows[i].id == row.id then row else rows[i]
  {
    if rows != [] && rows[0].id != row.id {
      ReplacedIs(rows[1..], row);
    }
  }

  /** A mark fails if and only if the approval is not known, and otherwise sets its status and
      changes no other. */
  lemma MarkIs(rows: seq<Row>, id: Id, status: Status, at: int)
    requires UniqueIds(rows)
    ensures
      var after := Marked(rows, id, status, at);
      && (after.None? <==> forall row :: row in rows ==> row.id != id)
      && (after.Some? ==>
            |after.value| == |rows| && forall i :: 0 <= i < |rows| ==>
              after.value[i] == if rows[i].id != id then rows[i] else rows[i].(status := status, updatedAt := at))
  {
    hide Find, Replaced;
    if Find(rows, id).Some? {
      var row := Find(rows, id).value;
      ReplacedIs(rows, row.(status := status, updatedAt := at));
      SameIdSameRow(rows, row);
    }
    hide UniqueIds;
  }

  /** The five steps of a consume for which everything goes well. */
  function ConsumeThrough(key: string, id: Id, at: int): seq<Event> {
    ([Consume(key)] + [Looked(id, Some(Approved))]) + ([RoleUnassigned(id, true)] + [MarkSaved(id, true, at)])
    + [Audited(id, true)]
  }

  /** When Permit answers that the latest approval is approved and every step succeeds, an open
      approval that is not in flight is granted, marked as consumed, and nothing else changes. */
  lemma ConsumeSucceeds(s: State, key: string, at: int)
    requires UniqueIds(s.rows) && HasRow(s.rows, key)
    requires
      var row := FindLatest(s.rows, key).value;
      row.status != Consumed && row.status != Revoked && row.id !in s.inFlight
    ensures
      var row := FindLatest(s.rows, key).value;
      var t := Run(s, ConsumeThrough(key, row.id, at));
      && t == s.(rows := t.rows, granted := s.granted + [row.id])
      && |t.rows| == |s.rows|
      && forall i :: 0 <= i < |s.rows| ==>
           t.rows[i] == if s.rows[i].id != row.id then s.rows[i]
                        else s.rows[i].(status := Consumed, updatedAt := at)
  {
    hide Run, FindLatest, UniqueIds;
    var row := FindLatest(s.rows, key).value;
    var id := row.id;
    var claim := [Consume(key)] + [Looked(id, Some(Approved))];
    var mark := [RoleUnassigned(id, true)] + [MarkSaved(id, true, at)];
    RunOn(s, claim + mark, [Audited(id, true)]);
    RunOn(s, claim, mark);
    RunTwo(s, Consume(key), Looked(id, Some(Approved)));
    RunTwo(Run(s, claim), RoleUnassigned(id, true), MarkSaved(id, true, at));
    RunOne(Run(s, claim + mark), Audited(id, true));
    MarkIs(s.rows, id, Consumed, at);
    ClaimedState(s, key);
    MarkedState(s, id, at);
    assert row in s.rows;
    AuditedState(s, id, Marked(s.rows, id, Consumed, at).value);
    hide Marked, Step, Consumes;
  }

  lemma ClaimedState(s: State, key: string)
    requires HasRow(s.rows, key)
    requires
      var row := FindLatest(s.rows, key).value;
      row.status != Consumed && row.status != Revoked && row.id !in s.inFlight
    ensures
      var id := FindLatest(s.rows, key).value.id;
      Step(Step(s, Consume(key)), Looked(id, Some(Approved))) == s.(inFlight := s.inFlight[id := Unassigning])
  {
    hide FindLatest;
    var row := FindLatest(s.rows, key).value;
    ConsumeClaimsIff(s, key);
    assert s.inFlight[row.id := Looking(row.status)][row.id := Unassigning] == s.inFlight[row.id := Unassigning];
  }

  lemma MarkedState(s: State, id: Id, at: int)
    ensures
      var t := s.(inFlight := s.inFlight[id := Unassigning]);
      var u := Step(Step(t, RoleUnassigned(id, true)), MarkSaved(id, true, at));
      Marked(s.rows, id, Consumed, at).Some? ==>
        u == s.(rows := Marked(s.rows, id, Consumed, at).value, inFlight := s.inFlight[id := Recording])
  {
    hide Marked;
    assert s.inFlight[id := Unassigning][id := Marking] == s.inFlight[id := Marking];
    assert s.inFlight[id := Marking][id := Recording] == s.inFlight[id := Recording];
  }

  lemma AuditedState(s: State, id: Id, rows: seq<Row>)
    requires id !in s.inFlight
    ensures Step(s.(rows := rows, inFlight := s.inFlight[id := Recording]), Audited(id, true)) ==
            s.(rows := rows, granted := s.granted + [id])
  {
    assert s.inFlight[id := Recording] - {id} == s.inFlight;
  }

  /** A step of a consume that fails lets the approval go and changes nothing else; so does a mark
      of an approval that is gone. */
  lemma FailureLetsGo(s: State, id: Id, at: int)
    requires id in s.inFlight
    ensures
      var gone, stage := s.(inFlight := s.inFlight - {id}), s.inFlight[id];
      && (stage.Refreshing? ==> Step(s, RefreshSaved(id, false, at)) == gone)
      && (stage == Unassigning ==> Step(s, RoleUnassigned(id, false)) == gone)
      && (stage == Marking ==> Step(s, MarkSaved(id, false, at)) == gone)
      && (stage == Marking && (forall row :: row in s.rows ==> row.id != id) ==>
            Step(s, MarkSaved(id, true, at)) == gone)
      && (stage == Recording ==> Step(s, Audited(id, false)) == gone)
  {
    hide Synced, Replaced;
  }

  /** A consume that was refused ends with what Permit said, if that can be saved. */
  lemma RefusalIsNoted(s: State, id: Id, at: int)
    requires UniqueIds(s.rows) && id in s.inFlight && s.inFlight[id].Refreshing?
    ensures
      var t := Step(s, RefreshSaved(id, true, at));
      && t == s.(rows := t.rows, inFlight := s.inFlight - {id}) && |t.rows| == |s.rows|
      && forall i :: 0 <= i < |s.rows| ==>
           && (s.rows[i].id != id ==> t.rows[i] == s.rows[i])
           && (s.rows[i].id == id && s.rows[i].status != Consumed && s.rows[i].status != Revoked ==>
                 t.rows[i] == s.rows[i].(status := s.inFlight[id].external, updatedAt := at))
  {
    RefreshIs(s.rows, id, s.inFlight[id].external, at);
    hide Synced, UniqueIds;
  }

  // ------------------------------------------------------------ everything else that can happen

  /** The latest approval of an operation is the one updated last, and of several such the first. */
  lemma {:induction false} LatestIsFirst(rows: seq<Row>, key: string) returns (i: nat)
    requires HasRow(rows, key)
    ensures i < |rows| && FindLatest(rows, key) == Some(rows[i])
    ensures forall j :: 0 <= j < i && rows[j].key == key ==> rows[j].updatedAt < rows[i].updatedAt
    ensures forall j :: i <= j < |rows| && rows[j].key == key ==> rows[j].updatedAt <= rows[i].updatedAt
  {
    var later := FindLatest(rows[1..], key);
    if later.None? {
      i := 0;
    } else {
      var k := LatestIsFirst(rows[1..], key);
      i := if rows[0].key == key && rows[0].updatedAt >= later.value.updatedAt then 0 else k + 1;
    }
    assert FindLatest(rows, key) == Some(rows[i]);
    hide FindLatest, HasRow;
    assert forall j :: 0 < j < |rows| ==> rows[j] == rows[1..][j - 1];
  }

  /** A new approval comes behind the others; one with the id of another takes its place. */
  lemma AddIs(rows: seq<Row>, row: Row)
    requires UniqueIds(rows)
    ensures
      var after := Added(rows, row);
      if exists r :: r in rows && r.id == row.id then
        |after| == |rows| && forall i :: 0 <= i < |rows| ==> after[i] == if rows[i].id == row.id then row else rows[i]
      else after == rows + [row]
  {
    ReplacedIs(rows, row);
    hide UniqueIds, Replaced;
  }

  /** A revocation closes the approval it names and no other. */
  lemma RevokeIs(s: State, id: Id, at: int)
    requires UniqueIds(s.rows)
    ensures
      var t := Step(s, Revoke(id, at));
      t == s.(rows := t.rows) && |t.rows| == |s.rows| && forall i :: 0 <= i < |s.rows| ==>
        t.rows[i] == if s.rows[i].id == id then s.rows[i].(status := Revoked, updatedAt := at) else s.rows[i]
  {
    MarkIs(s.rows, id, Revoked, at);
    hide Marked, UniqueIds;
  }

  /** A request comes in under a new id. */
  lemma CreateIs(s: State, row: Row)
    requires UniqueIds(s.rows) && RowsKnown(s.rows, s.used)
    ensures Step(s, Create(row)) ==
            if row.id in s.used then s else s.(rows := s.rows + [row], used := s.used + {row.id})
  {
    AddIs(s.rows, row);
    hide Added, UniqueIds;
  }

  /** A purge keeps exactly the rows it is told to, and a restart forgets who was consuming. */
  lemma PurgeIs(s: State, keep: Row -> bool, r: Row)
    ensures
      var t := Step(s, Purge(keep));
      t == s.(rows := t.rows) && (r in t.rows <==> r in s.rows && keep(r))
    ensures Step(s, Restart) == s.(inFlight := map[])
  {
    FilterMembers(keep, s.rows, r);
    hide Filter;
  }

  /** A rollback that is possible puts the saved rows behind those it keeps. */
  lemma RollbackIs(s: State, keep: Row -> bool, saved: seq<Row>, r: Row)
    ensures
      var t := Step(s, Rollback(keep, saved));
      t == s || (t == s.(rows := t.rows) && (r in t.rows <==> (r in s.rows && keep(r)) || r in saved))
    ensures
      !s.quiet && RowsKnown(saved, s.used) && UniqueIds(Filter(keep, s.rows) + saved) ==>
        var t := Step(s, Rollback(keep, saved));
        t == s.(rows := t.rows) && (r in t.rows <==> (r in s.rows && keep(r)) || r in saved)
  {
    FilterMembers(keep, s.rows, r);
    hide Filter, UniqueIds;
  }
}
