/** What an archive, a deletion and an acquire come to: the status of the Project they leave. */
module MoveOutcomes {
  import opened Sequences
  import opened Leases
  import opened WriterProtocol

  /** The Project has the same status in both, or is in neither. */
  predicate SameStatus(a: Database, b: Database, p: Id) {
    (p in a.projects <==> p in b.projects) && (p in a.projects ==> a.projects[p] == b.projects[p])
  }

  /** The Project was created while a purge of it was under way. */
  ghost predicate Recreated(s: State, events: seq<Event>, p: Id) {
    exists i :: 0 <= i < |events| && events[i] == EnterCreate(p)
                && p in Run(s, events[..i]).moves && p !in Run(s, events[..i]).db.projects
  }

  // ------------------------------------------------------------ what is written

  lemma MovedIs(db: Database, p: Id, purge: bool)
    ensures
      var next := Moved(db, p, purge);
      && (if purge then p !in next.projects else p in next.projects && next.projects[p] == Archived)
      && forall q :: q != p ==> SameStatus(next, db, q)
  {
    hide WithoutLeasesOf;
  }

  lemma RestoredIs(db: Database, before: Database, p: Id)
    ensures
      var next := Restored(db, before, p);
      SameStatus(next, before, p) && forall q :: q != p ==> SameStatus(next, db, q)
  {
    hide WithoutLeasesOf, OnlyLeasesOf;
  }

  /** The archive that is being written archives the Project, and a deletion takes it away; the
      rollback that is being written gives it the status of the snapshot. Neither changes the
      status of any other Project. */
  lemma MovesWriteStatus(s: State, events: seq<Event>, p: Id)
    requires Booted(s)
    ensures
      var t := Run(s, events);
      && (t.flight.Persisting? && t.flight.operation == Relocate(p) ==>
            && p in t.moves && t.moves[p].stage.Moving?
            && (if t.moves[p].purge then p !in t.flight.next.projects
                else p in t.flight.next.projects && t.flight.next.projects[p] == Archived)
            && forall q :: q != p ==> SameStatus(t.flight.next, t.db, q))
      && (t.flight.Persisting? && t.flight.operation == Restore(p) ==>
            && p in t.moves && t.moves[p].stage.Restoring?
            && SameStatus(t.flight.next, t.moves[p].stage.before, p)
            && forall q :: q != p ==> SameStatus(t.flight.next, t.db, q))
  {
    hide Run, LeasesOk, TurnsOk, LeasesHeld, MovesOk, Moved, Restored;
    ReachableInv(s, events);
    var t := Run(s, events);
    if t.flight.Persisting? && t.flight.operation == Relocate(p) {
      MovedIs(t.db, p, t.moves[p].purge);
    }
    if t.flight.Persisting? && t.flight.operation == Restore(p) {
      RestoredIs(t.db, t.moves[p].stage.before, p);
    }
    hide SameStatus;
  }

  // ------------------------------------------------------------ the status at each stage

  /** What a move knows of its Project: it exists until the move is written, the snapshot has it
      with the same status, and behind a written archive it is archived. */
  predicate StatusOk(s: State, p: Id, m: Move, recreated: bool) {
    match m.stage
    case Stopping => p in s.db.projects
    case InBarrier => p in s.db.projects
    case Settled => p in s.db.projects
    case Snapped(before) => p in before.projects && SameStatus(s.db, before, p)
    case Moving(before) => p in before.projects && SameStatus(s.db, before, p)
    case Reconciling(before) =>
      && p in before.projects
      && (if m.purge then p in s.db.projects ==> recreated
          else p in s.db.projects && s.db.projects[p] == Archived)
    case Undoing(before) => p in before.projects
    case Restoring(before) => p in before.projects
    case Ending => true
  }

  /** The operation in flight may write another status of the Project than it has. */
  predicate Touches(op: Operation, p: Id) {
    (op.Relocate? && op.project == p) || (op.Restore? && op.project == p) || (op.Create? && op.project == p)
  }

  lemma UntouchedStatus(s: State, p: Id)
    requires Inv(s) && s.flight.Persisting? && !Touches(s.flight.operation, p)
    ensures SameStatus(s.flight.next, s.db, p)
  {
    hide LeasesOk, TurnsOk, LeasesHeld, MovesOk, Moved, Restored, Leased, Exclusive, IsActive;
    match s.flight.operation
    case Relocate(q) => MovedIs(s.db, q, s.moves[q].purge);
    case Restore(q) => RestoredIs(s.db, s.moves[q].stage.before, q);
    case _ =>
  }

  /** What the events so far have made of the move of the Project. */
  ghost predicate MoveStatusOk(s: State, events: seq<Event>, p: Id) {
    var t := Run(s, events);
    && (p in t.moves ==> StatusOk(t, p, t.moves[p], Recreated(s, events, p)))
    && (t.flight.Persisting? && t.flight.operation == Create(p) && p in t.moves ==> Recreated(s, events, p))
  }

  lemma RecreatedStays(s: State, events: seq<Event>, e: Event, p: Id)
    ensures Recreated(s, events, p) ==> Recreated(s, events + [e], p)
    ensures e == EnterCreate(p) && p in Run(s, events).moves && p !in Run(s, events).db.projects ==>
              Recreated(s, events + [e], p)
  {
    hide Run;
    assert forall i :: 0 <= i <= |events| ==> (events + [e])[..i] == events[..i];
    assert (events + [e])[|events|] == e && events[..|events|] == events;
  }

  predicate IsMoveEvent(e: Event) {
    e.BeginMove? || e.EnterBarrier? || e.SkipBarrier? || e.Abandon? || e.Snapshot? || e.EnterMove? || e.Reconciled?
    || e.EnterRestore? || e.EndMove?
  }

  lemma TurnsLeaveMoves(t: State, e: Event)
    requires !IsMoveEvent(e) && !e.Persisted? && !e.Reboot?
    ensures Step(t, e).db == t.db && Step(t, e).moves == t.moves
  {
    hide Leased, IsActive, Released, WithLease;
  }

  lemma OtherMoveEvent(t: State, e: Event, p: Id)
    requires IsMoveEvent(e) && e.project != p
    ensures Step(t, e).db == t.db
    ensures p in Step(t, e).moves <==> p in t.moves
    ensures p in t.moves ==> Step(t, e).moves[p] == t.moves[p]
  {
    hide Leased, IsActive, Moved, Restored;
  }

  lemma OwnMoveEvent(t: State, e: Event, p: Id, recreated: bool)
    requires IsMoveEvent(e) && e.project == p
    requires p in t.moves ==> StatusOk(t, p, t.moves[p], recreated)
    ensures Step(t, e).db == t.db
    ensures p in Step(t, e).moves ==> StatusOk(Step(t, e), p, Step(t, e).moves[p], recreated)
  {
    hide Leased, IsActive, Moved, Restored;
  }

  lemma StatusCarries(a: State, b: State, p: Id, m: Move, recreated: bool)
    requires SameStatus(a.db, b.db, p) && StatusOk(a, p, m, recreated)
    ensures StatusOk(b, p, m, recreated)
  {
  }

  lemma MoveEventMoves(t: State, e: Event, p: Id, recreated: bool)
    requires IsMoveEvent(e)
    requires p in t.moves ==> StatusOk(t, p, t.moves[p], recreated)
    ensures Step(t, e).db == t.db
    ensures p in Step(t, e).moves ==> StatusOk(Step(t, e), p, Step(t, e).moves[p], recreated)
  {
    hide Step, StatusOk;
    if e.project == p {
      OwnMoveEvent(t, e, p, recreated);
    } else {
      OtherMoveEvent(t, e, p);
      if p in t.moves {
        StatusCarries(t, Step(t, e), p, t.moves[p], recreated);
      }
    }
  }

  /** An event that writes nothing leaves the status of the Project as its move knows it. */
  lemma StageMoves(t: State, e: Event, p: Id, recreated: bool)
    requires !e.Persisted? && !e.Reboot?
    requires p in t.moves ==> StatusOk(t, p, t.moves[p], recreated)
    ensures Step(t, e).db == t.db
    ensures p in Step(t, e).moves ==> StatusOk(Step(t, e), p, Step(t, e).moves[p], recreated)
  {
    hide Step;
    if IsMoveEvent(e) {
      hide StatusOk;
      MoveEventMoves(t, e, p, recreated);
    } else {
      TurnsLeaveMoves(t, e);
    }
  }

  ghost predicate Creating(s: State, p: Id) {
    s.flight.Persisting? && s.flight.operation == Create(p)
  }

  /** A Project is only being created while it does not exist, so no move of it begins then. */
  lemma CreateEnters(t: State, e: Event, p: Id)
    requires Inv(t) && !e.Persisted? && !e.Reboot?
    ensures Creating(Step(t, e), p) && p in Step(t, e).moves ==>
              p in t.moves && (Creating(t, p) || (e == EnterCreate(p) && p !in t.db.projects))
  {
    hide LeasesOk, TurnsOk, LeasesHeld, MovesOk, Leased, IsActive, Released, Moved, Restored, WithLease;
  }

  /** What the end of a mutation does to the move of a Project. */
  lemma ResumeStages(s: State, op: Operation, ok: bool, p: Id)
    requires p in Resume(s, op, ok).moves
    ensures Resume(s, op, ok).db == s.db && p in s.moves
    ensures
      var m, n := s.moves[p], Resume(s, op, ok).moves[p];
      m == n
      || (ok && op == Barrier(p) && n == m.(stage := Settled))
      || (op == Relocate(p) && m.stage.Moving?
          && n == m.(stage := if ok then Reconciling(m.stage.before) else Undoing(m.stage.before)))
      || (op == Restore(p) && n == m.(stage := Ending))
  {
  }

  lemma StageGoesOn(s: State, p: Id, m: Move, recreated: bool)
    requires StatusOk(s, p, m, recreated)
    ensures m.stage.InBarrier? ==> StatusOk(s, p, m.(stage := Settled), recreated)
    ensures m.stage.Moving? ==> StatusOk(s, p, m.(stage := Undoing(m.stage.before)), recreated)
    ensures StatusOk(s, p, m.(stage := Ending), recreated)
  {
  }

  lemma FlightStage(t: State, p: Id)
    requires FlightOk(t) && t.flight.Persisting? && t.flight.operation == Barrier(p)
    ensures p in t.moves && t.moves[p].stage.InBarrier?
  {
  }

  lemma FailedWriteMoves(t: State, p: Id, recreated: bool)
    requires FlightOk(t) && (p in t.moves ==> StatusOk(t, p, t.moves[p], recreated))
    ensures
      var u := Step(t, Persisted(false));
      (p in u.moves ==> StatusOk(u, p, u.moves[p], recreated)) && !Creating(u, p)
  {
    hide FlightOk, StatusOk, Resume;
    var u := Step(t, Persisted(false));
    if t.flight.Persisting? {
      var base := t.(flight := Free);
      ResumeFrees(base, t.flight.operation, false);
      if p in u.moves {
        ResumeStages(base, t.flight.operation, false, p);
        StageGoesOn(t, p, t.moves[p], recreated);
        StatusCarries(t, u, p, u.moves[p], recreated);
      }
    }
  }

  lemma ResumeFrees(s: State, op: Operation, ok: bool)
    ensures Resume(s, op, ok).flight == s.flight
  {
  }

  lemma OwnWriteMoves(t: State, p: Id, recreated: bool)
    requires FlightOk(t) && (p in t.moves ==> StatusOk(t, p, t.moves[p], recreated))
    requires t.flight.Persisting? && Touches(t.flight.operation, p)
    requires Creating(t, p) && p in t.moves ==> recreated
    ensures
      var u := Step(t, Persisted(true));
      (p in u.moves ==> StatusOk(u, p, u.moves[p], recreated)) && !Creating(u, p)
  {
    hide Moved, Restored, Released, Leased;
    if t.flight.operation.Relocate? {
      MovedIs(t.db, p, t.moves[p].purge);
    }
  }

  lemma OtherWriteMoves(t: State, p: Id, recreated: bool)
    requires Inv(t) && (p in t.moves ==> StatusOk(t, p, t.moves[p], recreated))
    requires t.flight.Persisting? && !Touches(t.flight.operation, p)
    ensures
      var u := Step(t, Persisted(true));
      (p in u.moves ==> StatusOk(u, p, u.moves[p], recreated)) && !Creating(u, p)
  {
    hide LeasesOk, TurnsOk, LeasesHeld, MovesOk, FlightOk, StatusOk, Resume, SameStatus;
    UntouchedStatus(t, p);
    var u := Step(t, Persisted(true));
    var base := t.(db := t.flight.next, flight := Free);
    ResumeFrees(base, t.flight.operation, true);
    if p in u.moves {
      ResumeStages(base, t.flight.operation, true, p);
      if t.flight.operation == Barrier(p) {
        FlightStage(t, p);
      }
      StageGoesOn(t, p, t.moves[p], recreated);
      StatusBack(t.db, u.db, p);
      StatusCarries(t, u, p, u.moves[p], recreated);
    }
  }

  lemma StatusBack(a: Database, b: Database, p: Id)
    ensures SameStatus(a, b, p) <==> SameStatus(b, a, p)
  {
  }

  lemma PersistMoves(t: State, ok: bool, p: Id, recreated: bool)
    requires Inv(t) && (p in t.moves ==> StatusOk(t, p, t.moves[p], recreated))
    requires Creating(t, p) && p in t.moves ==> recreated
    ensures
      var u := Step(t, Persisted(ok));
      (p in u.moves ==> StatusOk(u, p, u.moves[p], recreated)) && !Creating(u, p)
  {
    hide LeasesOk, TurnsOk, LeasesHeld, MovesOk, FlightOk, StatusOk, Resume;
    if !ok {
      FailedWriteMoves(t, p, recreated);
    } else if t.flight.Persisting? {
      if Touches(t.flight.operation, p) {
        OwnWriteMoves(t, p, recreated);
      } else {
        OtherWriteMoves(t, p, recreated);
      }
    }
  }

  lemma MoveStatusStep(s: State, events: seq<Event>, e: Event, p: Id)
    requires Booted(s) && MoveStatusOk(s, events, p)
    ensures MoveStatusOk(s, events + [e], p)
  {
    hide Step, Inv, Booted, Recreated;
    ReachableInv(s, events);
    RecreatedStays(s, events, e, p);
    RunSnoc(s, events, e);
    hide Run;
    var t := Run(s, events);
    var recreated := Recreated(s, events + [e], p);
    if p in t.moves {
      MoreRecreated(t, p, t.moves[p], Recreated(s, events, p), recreated);
    }
    if e.Persisted? {
      PersistMoves(t, e.ok, p, recreated);
    } else if e.Reboot? {
      RebootDropsMoves(t, e.written);
    } else {
      StageMoves(t, e, p, recreated);
      CreateEnters(t, e, p);
    }
    hide StatusOk;
  }

  lemma MoreRecreated(s: State, p: Id, m: Move, before: bool, after: bool)
    requires StatusOk(s, p, m, before) && (before ==> after)
    ensures StatusOk(s, p, m, after)
  {
  }

  lemma RebootDropsMoves(t: State, written: bool)
    ensures Step(t, Reboot(written)).moves == map[] && Step(t, Reboot(written)).flight == Free
  {
  }

  lemma {:induction false} MoveStatusHolds(s: State, events: seq<Event>, p: Id)
    requires Booted(s)
    ensures MoveStatusOk(s, events, p)
  {
    hide StatusOk, Recreated;
    if events != [] {
      var init, last := events[..|events| - 1], events[|events| - 1];
      assert events == init + [last];
      MoveStatusHolds(s, init, p);
      hide MoveStatusOk, Run;
      MoveStatusStep(s, init, last, p);
    }
  }

  /** Behind its mutation an archive has archived the Project, and a deletion has taken it away,
      unless it was created anew meanwhile; and what a rollback goes back to has the Project, with
      the status that it has when the move is written. */
  lemma MovesChangeStatus(s: State, events: seq<Event>, p: Id)
    requires Booted(s) && p in Run(s, events).moves
    ensures
      var t := Run(s, events);
      var m := t.moves[p];
      && (m.stage.Reconciling? ==>
            if m.purge then p in t.db.projects ==> Recreated(s, events, p)
            else p in t.db.projects && t.db.projects[p] == Archived)
      && (m.stage.Snapped? || m.stage.Moving? ==> p in t.db.projects && SameStatus(t.db, m.stage.before, p))
      && (HasSnapshot(m.stage) ==> p in m.stage.before.projects)
  {
    hide Run, Recreated;
    MoveStatusHolds(s, events, p);
  }

  // ------------------------------------------------------------ an archive is for good

  /** Nothing committed, in flight or kept for a rollback would make the Project active. */
  predicate Retired(s: State, p: Id) {
    && !IsActive(s.db, p)
    && (s.flight.Persisting? ==> !IsActive(s.flight.next, p))
    && (p in s.moves && HasSnapshot(s.moves[p].stage) ==> !IsActive(s.moves[p].stage.before, p))
  }

  lemma RetiredByTurn(s: State, e: Event, p: Id)
    requires FlightOk(s) && Retired(s, p) && e != EnterCreate(p)
    requires !IsMoveEvent(e) && !e.Persisted? && !e.Reboot?
    ensures Retired(Step(s, e), p)
  {
    TurnsLeaveMoves(s, e);
    hide Leased, Moved, Restored;
  }

  lemma RetiredByMove(s: State, e: Event, p: Id)
    requires Retired(s, p) && IsMoveEvent(e) && !e.EnterMove? && !e.EnterRestore?
    ensures Retired(Step(s, e), p)
  {
    hide Leased, Moved, Restored;
  }

  lemma RetiredByEntry(s: State, e: Event, p: Id)
    requires Retired(s, p) && (e.EnterMove? || e.EnterRestore?)
    ensures Retired(Step(s, e), p)
  {
    hide Leased, Moved, Restored;
    var q := e.project;
    if q in s.moves && HasSnapshot(s.moves[q].stage) {
      MovedIs(s.db, q, s.moves[q].purge);
      RestoredIs(s.db, s.moves[q].stage.before, q);
      assert p != q ==> SameStatus(Moved(s.db, q, s.moves[q].purge), s.db, p);
      assert p != q ==> SameStatus(Restored(s.db, s.moves[q].stage.before, q), s.db, p);
    }
  }

  lemma RetiredByWrite(s: State, e: Event, p: Id)
    requires Retired(s, p) && (e.Persisted? || e.Reboot?)
    ensures Retired(Step(s, e), p)
  {
    hide Resume;
    if e.Persisted? && s.flight.Persisting? {
      var base := s.(db := if e.ok then s.flight.next else s.db, flight := Free);
      ResumeFrees(base, s.flight.operation, e.ok);
      if p in Resume(base, s.flight.operation, e.ok).moves {
        ResumeStages(base, s.flight.operation, e.ok, p);
      }
      ResumeKeepsData(base, s.flight.operation, e.ok);
    }
  }

  lemma ResumeKeepsData(s: State, op: Operation, ok: bool)
    ensures Resume(s, op, ok).db == s.db
  {
  }

  lemma RetiredStep(s: State, e: Event, p: Id)
    requires Inv(s) && Retired(s, p) && e != EnterCreate(p)
    ensures Retired(Step(s, e), p)
  {
    hide LeasesOk, TurnsOk, LeasesHeld, MovesOk, FlightOk, Retired, Step;
    if e.Persisted? || e.Reboot? {
      RetiredByWrite(s, e, p);
    } else if e.EnterMove? || e.EnterRestore? {
      RetiredByEntry(s, e, p);
    } else if IsMoveEvent(e) {
      RetiredByMove(s, e, p);
    } else {
      RetiredByTurn(s, e, p);
    }
  }

  lemma {:induction false} RetiredStays(s: State, events: seq<Event>, more: seq<Event>, p: Id)
    requires Booted(s) && Retired(Run(s, events), p)
    requires forall i :: 0 <= i < |more| ==> more[i] != EnterCreate(p)
    ensures Retired(Run(s, events + more), p)
  {
    hide Step, Retired, Booted;
    if more == [] {
      assert events + more == events;
    } else {
      var init, last := more[..|more| - 1], more[|more| - 1];
      RetiredStays(s, events, init, p);
      ReachableInv(s, events + init);
      hide Run, Inv;
      assert events + more == events + init + [last];
      RunSnoc(s, events + init, last);
      RetiredStep(Run(s, events + init), last, p);
    }
  }

  lemma ArchiveRetires(s: State, p: Id)
    requires Inv(s) && p in s.moves && s.moves[p].stage.Reconciling?
    requires p in s.db.projects && s.db.projects[p] == Archived
    ensures Retired(Step(s, Reconciled(p, true)), p)
  {
    hide LeasesOk, TurnsOk, LeasesHeld, MovesOk, Leased, Exclusive, Moved, Restored, Released;
    if s.flight.Persisting? && !Touches(s.flight.operation, p) {
      UntouchedStatus(s, p);
    }
  }

  /** Behind an archive that came through, however the run goes on, the Project is never active
      and never leased again, no turn holds it and none can be granted it, unless it is deleted
      and created anew. */
  lemma ArchivedForGood(s: State, events: seq<Event>, more: seq<Event>, p: Id)
    requires Booted(s)
    requires
      var t := Run(s, events);
      p in t.moves && !t.moves[p].purge && t.moves[p].stage.Reconciling?
    requires forall i :: 0 <= i < |more| ==> more[i] != EnterCreate(p)
    ensures
      var u := Run(s, events + [Reconciled(p, true)] + more);
      && !IsActive(u.db, p) && !Leased(u.db, p)
      && forall r :: r in u.turns && u.turns[r].projectId == p ==> !Holding(u.turns[r].phase)
  {
    hide Run, Step, Retired, Booted, Inv, Recreated;
    ReachableInv(s, events);
    MovesChangeStatus(s, events, p);
    ArchiveRetires(Run(s, events), p);
    RunSnoc(s, events, Reconciled(p, true));
    RetiredStays(s, events + [Reconciled(p, true)], more, p);
    RetiredIsInactive(Run(s, events + [Reconciled(p, true)] + more), p);
    ArchivedProjectHasNoWriter(s, events + [Reconciled(p, true)] + more, p);
  }

  lemma RetiredIsInactive(s: State, p: Id)
    requires Retired(s, p)
    ensures !IsActive(s.db, p)
  {
  }
}
