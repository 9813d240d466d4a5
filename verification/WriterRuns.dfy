/** Undisturbed stretches of the writer protocol, from end to end: what an acquire, a release, an
    archive and a rollback come to when nobody comes between. */
module WriterRuns {
  import opened Sequences
  import opened Leases
  import LeaseCoordinator
  import opened WriterProtocol
  import opened MoveOutcomes

  // ------------------------------------------------------------ an acquire and a release

  /** An acquire that is authorized and saved is granted if and only if its Project is active, not
      being moved and not leased; behind another lease the turn waits on, and in the other cases
      it is turned away. */
  lemma AcquireOutcome(t: State, r: Id)
    requires t.flight == Free && At(t, r, Waiting)
    ensures
      var p := t.turns[r].projectId;
      var u := Run(t, [EnterAcquire(r, false), Authorized(r, true), Persisted(true)]);
      if p in t.moves || p !in t.db.projects || t.db.projects[p] != Active then
        u == t.(turns := t.turns[r := t.turns[r].(phase := Gone)])
      else if exists l :: l in t.db.leases && l.projectId == p then u == t
      else
        u == t.(turns := t.turns[r := t.turns[r].(phase := Granted)],
                db := t.db.(leases := t.db.leases + [Lease(p, t.turns[r].agentId, r)]))
  {
    hide Run;
    RunThree(t, EnterAcquire(r, false), Authorized(r, true), Persisted(true));
    var p := t.turns[r].projectId;
    if p in t.moves || p !in t.db.projects || t.db.projects[p] != Active {
      AcquireTurnedAway(t, r);
    } else {
      AuthorizedAcquire(t, r);
    }
    hide Step;
  }

  lemma AcquireTurnedAway(t: State, r: Id)
    requires t.flight == Free && At(t, r, Waiting)
    requires
      var p := t.turns[r].projectId;
      p in t.moves || p !in t.db.projects || t.db.projects[p] != Active
    ensures
      var u := Step(t, EnterAcquire(r, false));
      u == t.(turns := t.turns[r := t.turns[r].(phase := Gone)])
        && Step(Step(u, Authorized(r, true)), Persisted(true)) == u
  {
  }

  lemma AuthorizedAcquire(t: State, r: Id)
    requires t.flight == Free && At(t, r, Waiting)
    requires
      var p := t.turns[r].projectId;
      p !in t.moves && p in t.db.projects && t.db.projects[p] == Active
    ensures
      var p := t.turns[r].projectId;
      var u := Step(Step(Step(t, EnterAcquire(r, false)), Authorized(r, true)), Persisted(true));
      if exists l :: l in t.db.leases && l.projectId == p then u == t
      else
        u == t.(turns := t.turns[r := t.turns[r].(phase := Granted)],
                db := t.db.(leases := t.db.leases + [Lease(p, t.turns[r].agentId, r)]))
  {
    var turn := t.turns[r];
    var granted := turn.(phase := Granted);
    assert t.turns[r := turn.(phase := Acquiring)][r := granted] == t.turns[r := granted];
    assert t.turns[r := turn.(phase := Acquiring)][r := turn.(phase := Waiting)] == t.turns;
  }

  /** A turn whose acquire is refused, not allowed or not saved, or that gives up, is over, and has
      changed nothing. */
  lemma FailedAcquireOutcome(t: State, r: Id)
    requires t.flight == Free && At(t, r, Waiting)
    ensures
      var gone := t.(turns := t.turns[r := t.turns[r].(phase := Gone)]);
      && Step(t, EnterAcquire(r, true)) == gone && Step(t, GiveUp(r)) == gone
      && Step(Step(t, EnterAcquire(r, false)), Authorized(r, false)) == gone
      && (var u := Step(Step(t, EnterAcquire(r, false)), Authorized(r, true));
          u.flight.Persisting? && u.flight.operation == Acquire(r, true) ==> Step(u, Persisted(false)) == gone)
  {
    var turn := t.turns[r];
    assert t.turns[r := turn.(phase := Acquiring)][r := turn.(phase := Gone)] == t.turns[r := turn.(phase := Gone)];
    hide WithLease;
  }

  /** A turn that cannot begin gives its lease back; a release that is not saved leaves it. */
  lemma FailedTurnOutcome(t: State, r: Id)
    requires r in t.turns
    ensures At(t, r, Granted) ==>
              Step(t, BeginFails(r)) == t.(turns := t.turns[r := t.turns[r].(phase := Leaving)])
    ensures At(t, r, Leaving) && t.flight == Free ==>
              Step(Step(t, EnterRelease(r)), Persisted(false)) ==
              t.(turns := t.turns[r := t.turns[r].(phase := Unreleased)])
  {
    var turn := t.turns[r];
    assert t.turns[r := turn.(phase := Releasing)][r := turn.(phase := Unreleased)] ==
           t.turns[r := turn.(phase := Unreleased)];
    hide Released;
  }

  /** A release that is saved ends the turn and leaves exactly the leases of the other runs. */
  lemma ReleaseOutcome(t: State, r: Id)
    requires Inv(t) && t.flight == Free && At(t, r, Leaving)
    ensures
      var u := Step(Step(t, EnterRelease(r)), Persisted(true));
      && u == t.(turns := t.turns[r := t.turns[r].(phase := Gone)], db := u.db)
      && u.db.projects == t.db.projects
      && forall l :: l in u.db.leases <==> l in t.db.leases && l.runId != r
  {
    var turn := t.turns[r];
    assert t.turns[r := turn.(phase := Releasing)][r := turn.(phase := Gone)] == t.turns[r := turn.(phase := Gone)];
    var after := Released(t.db, turn.projectId, r);
    forall l
      ensures l in after.leases <==> l in t.db.leases && l.runId != r
    {
      ReleaseTakesOnlyItsOwn(t.db, turn.projectId, r, l);
      assert l in t.db.leases && l.runId == r ==> l == LeaseOf(t, r);
    }
    hide Inv, Exclusive, Leased;
  }

  /** A whole turn: it asks, is granted the Project, works, ends and gives the Project back, and
      the database is as it was. */
  lemma TurnOutcome(t: State, r: Id, a: Id, p: Id)
    requires t.flight == Free && r !in t.turns && p !in t.moves
    requires p in t.db.projects && t.db.projects[p] == Active && !Leased(t.db, p)
    ensures
      Run(t, [Request(r, a, p)] + [EnterAcquire(r, false), Authorized(r, true), Persisted(true)]
             + [Begun(r), EndTurn(r), EnterRelease(r)] + [Persisted(true)]) ==
      t.(turns := t.turns[r := Turn(p, a, Gone)])
  {
    hide Run;
    var waiting := t.(turns := t.turns[r := Turn(p, a, Waiting)]);
    var granted := t.(turns := t.turns[r := Turn(p, a, Granted)], db := WithLease(t.db, Lease(p, a, r)));
    var ask := [Request(r, a, p)];
    var acquire := [EnterAcquire(r, false), Authorized(r, true), Persisted(true)];
    var work := [Begun(r), EndTurn(r), EnterRelease(r)];
    RunConcat(t, ask + acquire + work, [Persisted(true)]);
    RunConcat(t, ask + acquire, work);
    RunConcat(t, ask, acquire);
    RunOne(t, Request(r, a, p));
    RequestedTurn(t, r, a, p);
    AcquireOutcome(waiting, r);
    assert waiting.turns[r := Turn(p, a, Granted)] == granted.turns;
    assert Run(t, ask + acquire) == granted;
    RunThree(granted, Begun(r), EndTurn(r), EnterRelease(r));
    GrantedTurnEnds(t, granted, r, a, p);
    RunOne(Run(granted, work), Persisted(true));
    hide Step;
  }

  lemma RequestedTurn(t: State, r: Id, a: Id, p: Id)
    requires r !in t.turns && p !in t.moves
    ensures Step(t, Request(r, a, p)) == t.(turns := t.turns[r := Turn(p, a, Waiting)])
  {
  }

  lemma GrantedTurnEnds(t: State, granted: State, r: Id, a: Id, p: Id)
    requires t.flight == Free && !Leased(t.db, p)
    requires granted == t.(turns := t.turns[r := Turn(p, a, Granted)], db := WithLease(t.db, Lease(p, a, r)))
    ensures Step(Step(Step(Step(granted, Begun(r)), EndTurn(r)), EnterRelease(r)), Persisted(true)) ==
            t.(turns := t.turns[r := Turn(p, a, Gone)])
  {
    hide WithLease;
    var leaving := granted.(turns := t.turns[r := Turn(p, a, Leaving)]);
    assert granted.turns[r := Turn(p, a, Live)][r := Turn(p, a, Leaving)] == leaving.turns;
    assert Step(Step(granted, Begun(r)), EndTurn(r)) == leaving;
    LeavingTurnEnds(t, leaving, r, a, p);
    hide Step;
  }

  lemma LeavingTurnEnds(t: State, leaving: State, r: Id, a: Id, p: Id)
    requires t.flight == Free && !Leased(t.db, p)
    requires leaving == t.(turns := t.turns[r := Turn(p, a, Leaving)], db := WithLease(t.db, Lease(p, a, r)))
    ensures Step(Step(leaving, EnterRelease(r)), Persisted(true)) == t.(turns := t.turns[r := Turn(p, a, Gone)])
  {
    LeaseCoordinator.ReleaseUndoesAcquire(t.db, Lease(p, a, r));
    assert Released(WithLease(t.db, Lease(p, a, r)), p, r) == t.db;
    hide Released, WithLease, Leased;
    assert t.turns[r := Turn(p, a, Leaving)][r := Turn(p, a, Releasing)] == t.turns[r := Turn(p, a, Releasing)];
    assert t.turns[r := Turn(p, a, Releasing)][r := Turn(p, a, Gone)] == t.turns[r := Turn(p, a, Gone)];
  }

  // ------------------------------------------------------------ creation, failed writes and restarts

  /** A Project that does not exist is created active, and changes nothing else. */
  lemma CreationOutcome(t: State, p: Id)
    requires t.flight == Free && p !in t.db.projects
    ensures Step(Step(t, EnterCreate(p)), Persisted(true)) ==
            t.(db := t.db.(projects := t.db.projects[p := Active]))
  {
  }

  /** A write that fails changes nothing that is committed. */
  lemma FailedWriteOutcome(t: State)
    ensures Step(t, Persisted(false)).db == t.db
  {
  }

  /** A restart keeps the Projects that are committed, or those being written if the file was
      already renamed; no lease, turn or move survives it. */
  lemma RestartOutcome(t: State, written: bool)
    ensures
      var u := Step(t, Reboot(written));
      && u.turns == map[] && u.moves == map[] && u.flight == Free && u.db.leases == []
      && u.db.projects ==
         if written && t.flight.Persisting? then t.flight.next.projects else t.db.projects
  {
  }

  // ------------------------------------------------------------ an archive and its rollback

  /** The state with the move of the Project at a stage. */
  function WithMove(t: State, p: Id, purge: bool, stage: Stage): State {
    t.(moves := t.moves[p := Move(purge, stage)])
  }

  lemma RestagedMove(t: State, p: Id, purge: bool, a: Stage, b: Stage)
    ensures SetStage(WithMove(t, p, purge, a), p, b) == WithMove(t, p, purge, b)
    ensures p !in t.moves ==> DropMove(WithMove(t, p, purge, a), p) == t
  {
    assert t.moves[p := Move(purge, a)][p := Move(purge, b)] == t.moves[p := Move(purge, b)];
    assert p !in t.moves ==> t.moves[p := Move(purge, a)] - {p} == t.moves;
  }

  ghost predicate MayBegin(t: State, p: Id) {
    t.flight == Free && p in t.db.projects && p !in t.moves && !Leased(t.db, p)
  }

  /** A move goes as far as its snapshot. */
  function ToSnapshot(p: Id, purge: bool): seq<Event> {
    [BeginMove(p, purge), EnterBarrier(p, false), Persisted(true)] + [Snapshot(p)]
  }

  lemma MoveReachesSnapshot(t: State, p: Id, purge: bool)
    requires MayBegin(t, p)
    ensures Run(t, ToSnapshot(p, purge)) == WithMove(t, p, purge, Snapped(t.db))
  {
    hide Run, MayBegin, Step, WithMove;
    RunConcat(t, [BeginMove(p, purge), EnterBarrier(p, false), Persisted(true)], [Snapshot(p)]);
    RunThree(t, BeginMove(p, purge), EnterBarrier(p, false), Persisted(true));
    MoveBegins(t, p, purge);
    BarrierEnters(t, p, purge);
    BarrierCommits(t, p, purge);
    RunOne(WithMove(t, p, purge, Settled), Snapshot(p));
    SnapshotTaken(t, p, purge);
  }

  lemma MoveBegins(t: State, p: Id, purge: bool)
    requires MayBegin(t, p)
    ensures Step(t, BeginMove(p, purge)) == WithMove(t, p, purge, Stopping)
  {
    hide Leased;
  }

  lemma BarrierEnters(t: State, p: Id, purge: bool)
    requires MayBegin(t, p)
    ensures Step(WithMove(t, p, purge, Stopping), EnterBarrier(p, false)) ==
            WithMove(t, p, purge, InBarrier).(flight := Persisting(Barrier(p), t.db))
  {
    hide Leased;
    RestagedMove(t, p, purge, Stopping, InBarrier);
  }

  lemma BarrierCommits(t: State, p: Id, purge: bool)
    requires MayBegin(t, p)
    ensures Step(WithMove(t, p, purge, InBarrier).(flight := Persisting(Barrier(p), t.db)), Persisted(true)) ==
            WithMove(t, p, purge, Settled)
  {
    hide Leased;
    RestagedMove(t, p, purge, InBarrier, Settled);
  }

  lemma SnapshotTaken(t: State, p: Id, purge: bool)
    requires MayBegin(t, p)
    ensures Step(WithMove(t, p, purge, Settled), Snapshot(p)) == WithMove(t, p, purge, Snapped(t.db))
  {
    hide Leased;
    RestagedMove(t, p, purge, Settled, Snapped(t.db));
  }

  /** A move begins exactly if the Project exists, is not leased and not being moved already. */
  lemma BeginOutcome(t: State, p: Id, purge: bool)
    ensures Step(t, BeginMove(p, purge)) ==
            if p in t.db.projects && p !in t.moves && !(exists l :: l in t.db.leases && l.projectId == p)
            then t.(moves := t.moves[p := Move(purge, Stopping)]) else t
  {
  }

  /** A move that fails before it is written is over, and nothing was changed: a conversation
      that cannot be stopped, a lease that was taken meanwhile, any other failure. */
  lemma EarlyFailureOutcome(t: State, p: Id, purge: bool)
    requires t.flight == Free && p !in t.moves
    ensures Step(WithMove(t, p, purge, Stopping), EnterBarrier(p, true)) == t
    ensures Leased(t.db, p) ==> Step(WithMove(t, p, purge, Settled), Snapshot(p)) == t
    ensures Step(WithMove(t, p, purge, Stopping), Abandon(p)) == t
    ensures Step(WithMove(t, p, purge, Settled), Abandon(p)) == t
    ensures Step(WithMove(t, p, purge, Snapped(t.db)), Abandon(p)) == t
  {
    hide Leased;
    RestagedMove(t, p, purge, Stopping, Stopping);
    RestagedMove(t, p, purge, Settled, Settled);
    RestagedMove(t, p, purge, Snapped(t.db), Snapped(t.db));
  }

  /** A move that is refused goes back. */
  lemma RefusedMoveOutcome(t: State, p: Id, purge: bool, before: Database)
    requires t.flight == Free
    ensures Step(WithMove(t, p, purge, Snapped(before)), EnterMove(p, true)) == WithMove(t, p, purge, Undoing(before))
  {
    hide Leased, Moved;
    RestagedMove(t, p, purge, Snapped(before), Undoing(before));
  }

  /** So does one that cannot be written. */
  lemma UnwrittenMoveOutcome(t: State, p: Id, purge: bool, before: Database)
    requires t.flight == Free && !Leased(t.db, p) && p in t.db.projects
    ensures Step(Step(WithMove(t, p, purge, Snapped(before)), EnterMove(p, false)), Persisted(false)) ==
            WithMove(t, p, purge, Undoing(before))
  {
    hide Leased, Moved;
    RestagedMove(t, p, purge, Snapped(before), Moving(before));
    RestagedMove(t, p, purge, Moving(before), Undoing(before));
  }

  /** A rollback that cannot be written leaves the Project as the move has it. */
  lemma UnwrittenRollbackOutcome(t: State, p: Id, purge: bool, before: Database)
    requires t.flight == Free
    ensures Step(Step(WithMove(t, p, purge, Undoing(before)), EnterRestore(p)), Persisted(false)) ==
            WithMove(t, p, purge, Ending)
  {
    hide Restored;
    RestagedMove(t, p, purge, Undoing(before), Restoring(before));
    RestagedMove(t, p, purge, Restoring(before), Ending);
  }

  /** The status is written. */
  lemma MoveCommits(t: State, p: Id, purge: bool)
    requires MayBegin(t, p)
    ensures
      Step(Step(WithMove(t, p, purge, Snapped(t.db)), EnterMove(p, false)), Persisted(true)) ==
      WithMove(t, p, purge, Reconciling(t.db)).(db := Moved(t.db, p, purge))
  {
    hide Leased, Moved;
    RestagedMove(t, p, purge, Snapped(t.db), Moving(t.db));
    RestagedMove(t, p, purge, Moving(t.db), Reconciling(t.db));
  }

  /** The whole of a move for which everything goes well. */
  function MoveThrough(p: Id, purge: bool): seq<Event> {
    ToSnapshot(p, purge) + [EnterMove(p, false), Persisted(true), Reconciled(p, true)] + [EndMove(p)]
  }

  /** A move whose last step fails, and its rollback. */
  function MoveAndBack(p: Id, purge: bool): seq<Event> {
    ToSnapshot(p, purge) + [EnterMove(p, false), Persisted(true), Reconciled(p, false)]
    + [EnterRestore(p), Persisted(true), EndMove(p)]
  }

  /** An archive of a Project that is not leased leaves it archived, a deletion leaves it out; no
      lease, no other Project and no turn is changed, and the move is over. */
  lemma MoveOutcome(t: State, p: Id, purge: bool)
    requires MayBegin(t, p)
    ensures
      Run(t, MoveThrough(p, purge)) ==
      t.(db := Database(if purge then t.db.projects - {p} else t.db.projects[p := Archived], t.db.leases))
  {
    hide Run, Leased, Moved;
    var early := ToSnapshot(p, purge);
    var late := [EnterMove(p, false), Persisted(true), Reconciled(p, true)];
    RunConcat(t, early + late, [EndMove(p)]);
    RunConcat(t, early, late);
    MoveReachesSnapshot(t, p, purge);
    RunThree(Run(t, early), EnterMove(p, false), Persisted(true), Reconciled(p, true));
    MoveCommits(t, p, purge);
    RunOne(Run(t, early + late), EndMove(p));
    MovedDatabase(t.db, p, purge);
    MoveEnds(t.(db := Moved(t.db, p, purge)), p, purge, t.db);
    hide Step, ToSnapshot;
  }

  lemma MovedDatabase(db: Database, p: Id, purge: bool)
    requires !Leased(db, p)
    ensures Moved(db, p, purge) ==
            Database(if purge then db.projects - {p} else db.projects[p := Archived], db.leases)
  {
    MoveTakesNoLease(db, p, purge);
    hide WithoutLeasesOf;
  }

  lemma MoveEnds(t: State, p: Id, purge: bool, before: Database)
    requires p !in t.moves
    ensures Step(Step(WithMove(t, p, purge, Reconciling(before)), Reconciled(p, true)), EndMove(p)) == t
  {
    RestagedMove(t, p, purge, Reconciling(before), Ending);
    RestagedMove(t, p, purge, Ending, Ending);
  }

  lemma MoveTurnsBack(t: State, p: Id, purge: bool, before: Database)
    requires t.flight == Free && p !in t.moves
    ensures
      var undoing := Step(WithMove(t, p, purge, Reconciling(before)), Reconciled(p, false));
      Step(Step(Step(undoing, EnterRestore(p)), Persisted(true)), EndMove(p)) == t.(db := Restored(t.db, before, p))
  {
    hide Restored;
    RestagedMove(t, p, purge, Reconciling(before), Undoing(before));
    RestagedMove(t, p, purge, Undoing(before), Restoring(before));
    RestoreCommits(t, p, purge, before);
  }

  lemma RestoreCommits(t: State, p: Id, purge: bool, before: Database)
    requires t.flight == Free && p !in t.moves
    ensures
      var restored := Restored(t.db, before, p);
      var restoring := WithMove(t, p, purge, Restoring(before)).(flight := Persisting(Restore(p), restored));
      Step(Step(restoring, Persisted(true)), EndMove(p)) == t.(db := restored)
  {
    hide Restored;
    var restored := t.(db := Restored(t.db, before, p));
    RestagedMove(restored, p, purge, Restoring(before), Ending);
    RestagedMove(restored, p, purge, Ending, Ending);
  }

  /** A move that is rolled back leaves everything as it was. */
  lemma RollbackOutcome(t: State, p: Id, purge: bool)
    requires MayBegin(t, p)
    ensures Run(t, MoveAndBack(p, purge)) == t
  {
    hide Run, Leased, Moved, Restored;
    var early := ToSnapshot(p, purge);
    var late := [EnterMove(p, false), Persisted(true), Reconciled(p, false)];
    var back := [EnterRestore(p), Persisted(true), EndMove(p)];
    RunConcat(t, early + late, back);
    RunConcat(t, early, late);
    MoveReachesSnapshot(t, p, purge);
    RunThree(Run(t, early), EnterMove(p, false), Persisted(true), Reconciled(p, false));
    MoveCommits(t, p, purge);
    RunThree(Run(t, early + late), EnterRestore(p), Persisted(true), EndMove(p));
    MoveTurnsBack(t.(db := Moved(t.db, p, purge)), p, purge, t.db);
    RestoredDatabase(t.db, p, purge);
    hide Step, ToSnapshot;
  }

  lemma RestoredDatabase(db: Database, p: Id, purge: bool)
    requires !Leased(db, p) && p in db.projects
    ensures Restored(Moved(db, p, purge), db, p) == db
  {
    MovedDatabase(db, p, purge);
    var moved := Moved(db, p, purge);
    assert !Leased(moved, p);
    RestoreTakesNoLease(moved, db, p);
    hide WithoutLeasesOf, OnlyLeasesOf, Moved;
    assert moved.projects[p := db.projects[p]] == db.projects;
  }
}
