/** The single-writer protocol of Projects: turns that acquire and release a lease race with
    archives and deletions, over one store that runs its mutations one at a time.

    Every step of the machine is a stretch of code without an `await` in it; between two steps
    any other step may happen. */
module WriterProtocol {
  import opened Sequences
  import opened Leases

  /** Where a turn stands. It holds the lease from `Granted` until its release is committed;
      a release that could not be written leaves it `Unreleased`. */
  datatype Phase = Waiting | Acquiring | Granted | Live | Leaving | Releasing | Gone | Unreleased

  datatype Turn = Turn(projectId: Id, agentId: Id, phase: Phase)

  /** Where an archive (or, with `purge`, a permanent deletion) of a Project stands. */
  datatype Stage =
    | Stopping
    | InBarrier
    | Settled
    | Snapped(before: Database)
    | Moving(before: Database)
    | Reconciling(before: Database)
    | Undoing(before: Database)
    | Restoring(before: Database)
    | Ending

  datatype Move = Move(purge: bool, stage: Stage)

  /** What the mutation in flight belongs to. */
  datatype Operation =
    | Acquire(run: Id, granted: bool)
    | Release(run: Id)
    | Barrier(project: Id)
    | Relocate(project: Id)
    | Restore(project: Id)
    | Create(project: Id)
    | Unrelated

  datatype Flight =
    | Free
    | Authorizing(run: Id, next: Database)
    | Persisting(operation: Operation, next: Database)

  /** `wired` says whether the conversation service is connected to the Project service. */
  datatype State = State(
    wired: bool, db: Database, flight: Flight, turns: map<Id, Turn>, moves: map<Id, Move>)

  datatype Event =
    | Request(run: Id, agent: Id, project: Id)
    | EnterAcquire(run: Id, refused: bool)
    | Authorized(run: Id, allowed: bool)
    | GiveUp(run: Id)
    | Begun(run: Id)
    | BeginFails(run: Id)
    | EndTurn(run: Id)
    | EnterRelease(run: Id)
    | BeginMove(project: Id, purge: bool)
    | EnterBarrier(project: Id, conflict: bool)
    | SkipBarrier(project: Id)
    | Abandon(project: Id)
    | Snapshot(project: Id)
    | EnterMove(project: Id, refused: bool)
    | Reconciled(project: Id, ok: bool)
    | EnterRestore(project: Id)
    | EndMove(project: Id)
    | EnterCreate(project: Id)
    | EnterUnrelated
    | Persisted(ok: bool)
    | Reboot(written: bool)

  function SetTurn(s: State, r: Id, phase: Phase): State
    requires r in s.turns
  {
    s.(turns := s.turns[r := s.turns[r].(phase := phase)])
  }

  function SetStage(s: State, p: Id, stage: Stage): State
    requires p in s.moves
  {
    s.(moves := s.moves[p := s.moves[p].(stage := stage)])
  }

  function DropMove(s: State, p: Id): State {
    s.(moves := s.moves - {p})
  }

  predicate At(s: State, r: Id, phase: Phase) {
    r in s.turns && s.turns[r].phase == phase
  }

  predicate IsActive(db: Database, p: Id) {
    p in db.projects && db.projects[p] == Active
  }

  function LeaseOf(s: State, r: Id): Lease
    requires r in s.turns
  {
    Lease(s.turns[r].projectId, s.turns[r].agentId, r)
  }

  // ------------------------------------------------------------ the steps of a turn

  /** A turn asks for the lease; while its Project is being moved it is turned away at once. */
  function RequestStep(s: State, r: Id, a: Id, p: Id): State {
    if r in s.turns || p in s.moves then s else s.(turns := s.turns[r := Turn(p, a, Waiting)])
  }

  /** The acquire callback starts on a copy of the committed data: archive check, then the
      synchronous part of the authorization, which reads the committed Project. */
  function EnterAcquireStep(s: State, r: Id, refused: bool): State {
    if s.flight != Free || !At(s, r, Waiting) then s
    else if s.turns[r].projectId in s.moves || refused || !IsActive(s.db, s.turns[r].projectId) then SetTurn(s, r, Gone)
    else SetTurn(s, r, Acquiring).(flight := Authorizing(r, s.db))
  }

  function AuthorizedStep(s: State, r: Id, allowed: bool): State {
    if !s.flight.Authorizing? || s.flight.run != r || r !in s.turns then s
    else if !allowed then SetTurn(s, r, Gone).(flight := Free)
    else if Leased(s.flight.next, s.turns[r].projectId) then s.(flight := Persisting(Acquire(r, false), s.flight.next))
    else s.(flight := Persisting(Acquire(r, true), WithLease(s.flight.next, LeaseOf(s, r))))
  }

  function TurnStep(s: State, r: Id, from: Phase, to: Phase): State {
    if At(s, r, from) then SetTurn(s, r, to) else s
  }

  function EnterReleaseStep(s: State, r: Id): State {
    if s.flight != Free || !At(s, r, Leaving) then s
    else SetTurn(s, r, Releasing).(flight := Persisting(Release(r), Released(s.db, s.turns[r].projectId, r)))
  }

  // ------------------------------------------------------------ the steps of a move

  function BeginMoveStep(s: State, p: Id, purge: bool): State {
    if p in s.moves || Leased(s.db, p) || p !in s.db.projects then s
    else s.(moves := s.moves[p := Move(purge, Stopping)])
  }

  predicate AtStage(s: State, p: Id, stage: Stage) {
    p in s.moves && s.moves[p].stage == stage
  }

  /** The trailing mutation of stopping the Project's conversations: it changes nothing. */
  function EnterBarrierStep(s: State, p: Id, conflict: bool): State {
    if s.flight != Free || !AtStage(s, p, Stopping) then s
    else if conflict then DropMove(s, p)
    else SetStage(s, p, InBarrier).(flight := Persisting(Barrier(p), s.db))
  }

  function SkipBarrierStep(s: State, p: Id): State {
    if s.wired || !AtStage(s, p, Stopping) then s else SetStage(s, p, Settled)
  }

  /** Any earlier failure leaves the try block before anything was moved. */
  function AbandonStep(s: State, p: Id): State {
    if p in s.moves && (s.moves[p].stage.Stopping? || s.moves[p].stage.Settled? || s.moves[p].stage.Snapped?)
    then DropMove(s, p) else s
  }

  function SnapshotStep(s: State, p: Id): State {
    if !AtStage(s, p, Settled) then s
    else if Leased(s.db, p) then DropMove(s, p)
    else SetStage(s, p, Snapped(s.db))
  }

  function EnterMoveStep(s: State, p: Id, refused: bool): State {
    if s.flight != Free || p !in s.moves || !s.moves[p].stage.Snapped? then s
    else if refused || Leased(s.db, p) || (!s.moves[p].purge && p !in s.db.projects) then
      SetStage(s, p, Undoing(s.moves[p].stage.before))
    else
      SetStage(s, p, Moving(s.moves[p].stage.before))
      .(flight := Persisting(Relocate(p), Moved(s.db, p, s.moves[p].purge)))
  }

  function ReconciledStep(s: State, p: Id, ok: bool): State {
    if p !in s.moves || !s.moves[p].stage.Reconciling? then s
    else SetStage(s, p, if ok then Ending else Undoing(s.moves[p].stage.before))
  }

  function EnterRestoreStep(s: State, p: Id): State {
    if s.flight != Free || p !in s.moves || !s.moves[p].stage.Undoing? then s
    else
      SetStage(s, p, Restoring(s.moves[p].stage.before))
      .(flight := Persisting(Restore(p), Restored(s.db, s.moves[p].stage.before, p)))
  }

  function EndMoveStep(s: State, p: Id): State {
    if AtStage(s, p, Ending) then DropMove(s, p) else s
  }

  // ------------------------------------------------------------ everything else

  function EnterCreateStep(s: State, p: Id): State {
    if s.flight != Free || p in s.db.projects then s
    else s.(flight := Persisting(Create(p), s.db.(projects := s.db.projects[p := Active])))
  }

  function EnterUnrelatedStep(s: State): State {
    if s.flight != Free then s else s.(flight := Persisting(Unrelated, s.db))
  }

  /** What the caller of a mutation does when it returns (`ok`) or throws. */
  function Resume(s: State, op: Operation, ok: bool): State {
    match op
    case Acquire(r, granted) =>
      if r in s.turns then SetTurn(s, r, if !ok then Gone else if granted then Granted else Waiting) else s
    case Release(r) => if r in s.turns then SetTurn(s, r, if ok then Gone else Unreleased) else s
    case Barrier(p) => if p !in s.moves then s else if ok then SetStage(s, p, Settled) else DropMove(s, p)
    case Relocate(p) =>
      if p in s.moves && s.moves[p].stage.Moving? then
        SetStage(s, p, if ok then Reconciling(s.moves[p].stage.before) else Undoing(s.moves[p].stage.before))
      else s
    case Restore(p) => if p in s.moves then SetStage(s, p, Ending) else s
    case Create(_) => s
    case Unrelated => s
  }

  function PersistedStep(s: State, ok: bool): State {
    if !s.flight.Persisting? then s
    else Resume(s.(db := if ok then s.flight.next else s.db, flight := Free), s.flight.operation, ok)
  }

  /** A crash and a restart: the file holds the old or, if the rename was done, the new data;
      nothing in flight survives, and the boot drops every lease before anything is served. */
  function RebootStep(s: State, written: bool): State {
    var db := if written && s.flight.Persisting? then s.flight.next else s.db;
    State(s.wired, db.(leases := []), Free, map[], map[])
  }

  function Step(s: State, e: Event): State {
    match e
    case Request(r, a, p) => RequestStep(s, r, a, p)
    case EnterAcquire(r, refused) => EnterAcquireStep(s, r, refused)
    case Authorized(r, allowed) => AuthorizedStep(s, r, allowed)
    case GiveUp(r) => TurnStep(s, r, Waiting, Gone)
    case Begun(r) => TurnStep(s, r, Granted, Live)
    case BeginFails(r) => TurnStep(s, r, Granted, Leaving)
    case EndTurn(r) => TurnStep(s, r, Live, Leaving)
    case EnterRelease(r) => EnterReleaseStep(s, r)
    case BeginMove(p, purge) => BeginMoveStep(s, p, purge)
    case EnterBarrier(p, conflict) => EnterBarrierStep(s, p, conflict)
    case SkipBarrier(p) => SkipBarrierStep(s, p)
    case Abandon(p) => AbandonStep(s, p)
    case Snapshot(p) => SnapshotStep(s, p)
    case EnterMove(p, refused) => EnterMoveStep(s, p, refused)
    case Reconciled(p, ok) => ReconciledStep(s, p, ok)
    case EnterRestore(p) => EnterRestoreStep(s, p)
    case EndMove(p) => EndMoveStep(s, p)
    case EnterCreate(p) => EnterCreateStep(s, p)
    case EnterUnrelated => EnterUnrelatedStep(s)
    case Persisted(ok) => PersistedStep(s, ok)
    case Reboot(written) => RebootStep(s, written)
  }

  function Run(s: State, events: seq<Event>): State {
    if events == [] then s else Step(Run(s, events[..|events| - 1]), events[|events| - 1])
  }

  // ------------------------------------------------------------ the invariant

  predicate Holding(phase: Phase) {
    phase.Granted? || phase.Live? || phase.Leaving? || phase.Releasing?
  }

  /** At most one lease per Project, and only active Projects are leased. */
  predicate LeasesOk(db: Database) {
    && Exclusive(db.leases)
    && forall l :: l in db.leases ==> IsActive(db, l.projectId)
  }

  predicate TurnsOk(s: State) {
    forall r :: r in s.turns && Holding(s.turns[r].phase) ==> LeaseOf(s, r) in s.db.leases
  }

  /** Every lease in the store is that of a turn which holds it or could not release it. */
  predicate LeasesHeld(s: State) {
    forall l :: l in s.db.leases ==>
      l.runId in s.turns && LeaseOf(s, l.runId) == l
      && (Holding(s.turns[l.runId].phase) || s.turns[l.runId].phase == Unreleased)
  }

  /** The data in flight is the committed data and the change that belongs to the operation. */
  predicate FlightOk(s: State) {
    match s.flight
    case Free => true
    case Authorizing(r, next) => At(s, r, Acquiring) && next == s.db && IsActive(s.db, s.turns[r].projectId)
    case Persisting(op, next) => OperationOk(s, op, next)
  }

  predicate OperationOk(s: State, op: Operation, next: Database) {
    match op
    case Acquire(r, granted) =>
      && At(s, r, Acquiring)
      && if granted then
           && next == WithLease(s.db, LeaseOf(s, r))
           && !Leased(s.db, s.turns[r].projectId) && IsActive(s.db, s.turns[r].projectId)
         else next == s.db
    case Release(r) => At(s, r, Releasing) && next == Released(s.db, s.turns[r].projectId, r)
    case Barrier(p) => AtStage(s, p, InBarrier) && next == s.db
    case Relocate(p) => p in s.moves && s.moves[p].stage.Moving? && next == Moved(s.db, p, s.moves[p].purge)
    case Restore(p) =>
      p in s.moves && s.moves[p].stage.Restoring? && next == Restored(s.db, s.moves[p].stage.before, p)
    case Create(p) => p !in s.db.projects && next == s.db.(projects := s.db.projects[p := Active])
    case Unrelated => next == s.db
  }

  /** An acquire for the Project is past its archive check and may still grant. */
  predicate MayGrant(s: State, p: Id) {
    match s.flight
    case Free => false
    case Authorizing(r, _) => r in s.turns && s.turns[r].projectId == p
    case Persisting(op, _) => op.Acquire? && op.granted && op.run in s.turns && s.turns[op.run].projectId == p
  }

  predicate HasSnapshot(stage: Stage) {
    stage.Snapped? || stage.Moving? || stage.Reconciling? || stage.Undoing? || stage.Restoring?
  }

  /** Past the barrier nothing can be granted; from the snapshot on nothing is leased. */
  predicate MoveOk(s: State, p: Id, stage: Stage) {
    && (stage != Stopping ==> !MayGrant(s, p))
    && (HasSnapshot(stage) ==> !Leased(s.db, p) && !Leased(stage.before, p))
  }

  predicate MovesOk(s: State) {
    forall p :: p in s.moves ==> MoveOk(s, p, s.moves[p].stage)
  }

  predicate Inv(s: State) {
    s.wired && LeasesOk(s.db) && TurnsOk(s) && LeasesHeld(s) && FlightOk(s) && MovesOk(s)
  }

  lemma RequestKeeps(s: State, r: Id, a: Id, p: Id)
    requires Inv(s)
    ensures Inv(RequestStep(s, r, a, p))
  {
    hide Leased, Exclusive, IsActive, Released, Moved, Restored;
  }

  lemma EnterAcquireKeeps(s: State, r: Id, refused: bool)
    requires Inv(s)
    ensures Inv(EnterAcquireStep(s, r, refused))
  {
    hide Leased, Exclusive, IsActive, Released, Moved, Restored;
  }

  lemma AuthorizedKeeps(s: State, r: Id, allowed: bool)
    requires Inv(s)
    ensures Inv(AuthorizedStep(s, r, allowed))
  {
    hide Leased, Exclusive, IsActive, Released, Moved, Restored;
  }

  lemma TurnStepKeeps(s: State, r: Id, from: Phase, to: Phase)
    requires Inv(s) && !from.Acquiring? && !from.Releasing? && (Holding(to) <==> Holding(from)) && from != Unreleased
    ensures Inv(TurnStep(s, r, from, to))
  {
    hide Leased, Exclusive, IsActive, Released, Moved, Restored;
  }

  lemma EnterReleaseKeeps(s: State, r: Id)
    requires Inv(s)
    ensures Inv(EnterReleaseStep(s, r))
  {
    hide Leased, Exclusive, IsActive, Released, Moved, Restored;
  }

  lemma BeginMoveKeeps(s: State, p: Id, purge: bool)
    requires Inv(s)
    ensures Inv(BeginMoveStep(s, p, purge))
  {
    hide Leased, Exclusive, IsActive, Released, Moved, Restored;
  }

  lemma EnterBarrierKeeps(s: State, p: Id, conflict: bool)
    requires Inv(s)
    ensures Inv(EnterBarrierStep(s, p, conflict))
  {
    hide Leased, Exclusive, IsActive, Released, Moved, Restored;
  }

  lemma AbandonKeeps(s: State, p: Id)
    requires Inv(s)
    ensures Inv(AbandonStep(s, p))
  {
    hide Leased, Exclusive, IsActive, Released, Moved, Restored;
  }

  lemma SnapshotKeeps(s: State, p: Id)
    requires Inv(s)
    ensures Inv(SnapshotStep(s, p))
  {
    hide Leased, Exclusive, IsActive, Released, Moved, Restored;
  }

  lemma EnterMoveKeeps(s: State, p: Id, refused: bool)
    requires Inv(s)
    ensures Inv(EnterMoveStep(s, p, refused))
  {
    hide Leased, Exclusive, IsActive, Released, Moved, Restored;
  }

  lemma ReconciledKeeps(s: State, p: Id, ok: bool)
    requires Inv(s)
    ensures Inv(ReconciledStep(s, p, ok))
  {
    hide Leased, Exclusive, IsActive, Released, Moved, Restored;
  }

  lemma EnterRestoreKeeps(s: State, p: Id)
    requires Inv(s)
    ensures Inv(EnterRestoreStep(s, p))
  {
    hide Leased, Exclusive, IsActive, Released, Moved, Restored;
  }

  lemma EndMoveKeeps(s: State, p: Id)
    requires Inv(s)
    ensures Inv(EndMoveStep(s, p))
  {
    hide Leased, Exclusive, IsActive, Released, Moved, Restored;
  }

  lemma TurnFailsKeeps(s: State)
    requires Inv(s) && s.flight.Persisting? && (s.flight.operation.Acquire? || s.flight.operation.Release?)
    ensures Inv(PersistedStep(s, false))
  {
    hide Leased, Exclusive, IsActive, Released, Moved, Restored;
  }

  lemma MoveFailsKeeps(s: State)
    requires Inv(s) && s.flight.Persisting? && !s.flight.operation.Acquire? && !s.flight.operation.Release?
    ensures Inv(PersistedStep(s, false))
  {
    hide Leased, Exclusive, IsActive, Released, Moved, Restored;
  }

  lemma PersistFailsKeeps(s: State)
    requires Inv(s)
    ensures Inv(PersistedStep(s, false))
  {
    hide Inv, Resume;
    if s.flight.Persisting? {
      if s.flight.operation.Acquire? || s.flight.operation.Release? {
        TurnFailsKeeps(s);
      } else {
        MoveFailsKeeps(s);
      }
    }
  }

  lemma LeasedAfterGrant(db: Database, lease: Lease, p: Id)
    requires p != lease.projectId && !Leased(db, p)
    ensures !Leased(WithLease(db, lease), p)
  {
  }

  lemma LeasedAfterRelease(db: Database, q: Id, r: Id, p: Id)
    requires !Leased(db, p)
    ensures !Leased(Released(db, q, r), p)
  {
    forall l | l in Released(db, q, r).leases
      ensures l in db.leases
    {
      ReleaseTakesOnlyItsOwn(db, q, r, l);
    }
    hide Released;
  }

  lemma GrantPersists(s: State, r: Id)
    requires Inv(s) && s.flight.Persisting? && s.flight.operation == Acquire(r, true)
    ensures Inv(PersistedStep(s, true))
  {
    hide Exclusive, Leased, IsActive, Released, Moved, Restored;
    var lease := LeaseOf(s, r);
    GrantKeepsExclusive(s.db, lease);
    forall p | p != lease.projectId && !Leased(s.db, p)
      ensures !Leased(s.flight.next, p)
    {
      LeasedAfterGrant(s.db, lease, p);
    }
    GrantKeepsLeases(s.db, lease);
  }

  lemma GrantKeepsLeases(db: Database, lease: Lease)
    requires LeasesOk(db) && !Leased(db, lease.projectId) && IsActive(db, lease.projectId)
    ensures LeasesOk(WithLease(db, lease))
  {
    GrantKeepsExclusive(db, lease);
    hide Exclusive, Leased;
  }

  lemma ReleasePersists(s: State, r: Id)
    requires Inv(s) && s.flight.Persisting? && s.flight.operation == Release(r)
    ensures Inv(PersistedStep(s, true))
  {
    hide Exclusive, Leased, IsActive, Released, Moved, Restored;
    var p := s.turns[r].projectId;
    ReleaseKeepsLeases(s.db, p, r);
    forall q | !Leased(s.db, q)
      ensures !Leased(s.flight.next, q)
    {
      LeasedAfterRelease(s.db, p, r, q);
    }
    forall l
      ensures l in s.flight.next.leases <==> l in s.db.leases && !(l.projectId == p && l.runId == r)
    {
      ReleaseTakesOnlyItsOwn(s.db, p, r, l);
    }
  }

  lemma ReleaseKeepsLeases(db: Database, p: Id, r: Id)
    requires LeasesOk(db)
    ensures LeasesOk(Released(db, p, r)) && Released(db, p, r).projects == db.projects
  {
    FilterKeepsExclusive((l: Lease) => !(l.projectId == p && l.runId == r), db.leases);
    forall l | l in Released(db, p, r).leases
      ensures l in db.leases
    {
      ReleaseTakesOnlyItsOwn(db, p, r, l);
    }
    hide Exclusive;
  }

  lemma RelocatePersists(s: State, p: Id)
    requires Inv(s) && s.flight.Persisting? && s.flight.operation == Relocate(p)
    ensures s.flight.next.leases == s.db.leases
    ensures Inv(PersistedStep(s, true))
  {
    hide Exclusive, Released, Restored;
    MoveTakesNoLease(s.db, p, s.moves[p].purge);
    hide Moved;
    SameLeases(s.db, s.flight.next);
    MoveKeepsLeases(s.db, p, s.moves[p].purge);
    hide Leased, IsActive;
  }

  lemma SameLeases(a: Database, b: Database)
    requires a.leases == b.leases
    ensures forall p :: Leased(a, p) == Leased(b, p)
  {
  }

  lemma MoveKeepsLeases(db: Database, p: Id, purge: bool)
    requires LeasesOk(db) && !Leased(db, p)
    ensures LeasesOk(Moved(db, p, purge))
  {
    MoveTakesNoLease(db, p, purge);
    hide Exclusive, WithoutLeasesOf;
  }

  lemma RestoreKeepsLeases(db: Database, before: Database, p: Id)
    requires LeasesOk(db) && !Leased(db, p) && !Leased(before, p)
    ensures LeasesOk(Restored(db, before, p))
  {
    RestoreTakesNoLease(db, before, p);
    hide Exclusive, WithoutLeasesOf, OnlyLeasesOf;
  }

  lemma RestorePersists(s: State, p: Id)
    requires Inv(s) && s.flight.Persisting? && s.flight.operation == Restore(p)
    ensures s.flight.next.leases == s.db.leases
    ensures Inv(PersistedStep(s, true))
  {
    hide Exclusive, Leased, IsActive, Released, Moved, Restored;
    var before := s.moves[p].stage.before;
    RestoreTakesNoLease(s.db, before, p);
    RestoreKeepsLeases(s.db, before, p);
    SameLeases(s.db, s.flight.next);
  }

  lemma OtherPersists(s: State)
    requires Inv(s) && s.flight.Persisting?
    requires s.flight.operation.Create? || s.flight.operation.Unrelated? || s.flight.operation.Barrier?
             || (s.flight.operation.Acquire? && !s.flight.operation.granted)
    ensures Inv(PersistedStep(s, true))
  {
    hide Exclusive, Leased, Released, Moved, Restored;
    SameLeases(s.db, s.flight.next);
  }

  lemma PersistedKeeps(s: State, ok: bool)
    requires Inv(s)
    ensures Inv(PersistedStep(s, ok))
  {
    hide Inv, Resume;
    if !ok {
      PersistFailsKeeps(s);
    } else if s.flight.Persisting? {
      match s.flight.operation
      case Acquire(r, granted) =>
        if granted {
          GrantPersists(s, r);
        } else {
          OtherPersists(s);
        }
      case Release(r) => ReleasePersists(s, r);
      case Relocate(p) => RelocatePersists(s, p);
      case Restore(p) => RestorePersists(s, p);
      case _ => OtherPersists(s);
    }
  }

  lemma RebootKeeps(s: State, written: bool)
    requires Inv(s)
    ensures Inv(RebootStep(s, written))
  {
    hide Leased, Released, Moved, Restored;
  }

  lemma EnterOtherKeeps(s: State, p: Id)
    requires Inv(s)
    ensures Inv(EnterCreateStep(s, p)) && Inv(EnterUnrelatedStep(s))
  {
    hide Leased, Exclusive, IsActive, Released, Moved, Restored;
  }

  lemma StepKeeps(s: State, e: Event)
    requires Inv(s)
    ensures Inv(Step(s, e))
  {
    hide Inv, Leased, Exclusive, IsActive, Released, Moved, Restored;
    match e
    case Request(r, a, p) => RequestKeeps(s, r, a, p);
    case EnterAcquire(r, refused) => EnterAcquireKeeps(s, r, refused);
    case Authorized(r, allowed) => AuthorizedKeeps(s, r, allowed);
    case GiveUp(r) => TurnStepKeeps(s, r, Waiting, Gone);
    case Begun(r) => TurnStepKeeps(s, r, Granted, Live);
    case BeginFails(r) => TurnStepKeeps(s, r, Granted, Leaving);
    case EndTurn(r) => TurnStepKeeps(s, r, Live, Leaving);
    case EnterRelease(r) => EnterReleaseKeeps(s, r);
    case BeginMove(p, purge) => BeginMoveKeeps(s, p, purge);
    case EnterBarrier(p, conflict) => EnterBarrierKeeps(s, p, conflict);
    case SkipBarrier(p) => SkipBarrierKeeps(s, p);
    case Abandon(p) => AbandonKeeps(s, p);
    case Snapshot(p) => SnapshotKeeps(s, p);
    case EnterMove(p, refused) => EnterMoveKeeps(s, p, refused);
    case Reconciled(p, ok) => ReconciledKeeps(s, p, ok);
    case EnterRestore(p) => EnterRestoreKeeps(s, p);
    case EndMove(p) => EndMoveKeeps(s, p);
    case EnterCreate(p) => EnterOtherKeeps(s, p);
    case EnterUnrelated => EnterOtherKeeps(s, "");
    case Persisted(ok) => PersistedKeeps(s, ok);
    case Reboot(written) => RebootKeeps(s, written);
  }

  lemma SkipBarrierKeeps(s: State, p: Id)
    requires Inv(s)
    ensures SkipBarrierStep(s, p) == s
  {
    hide LeasesOk, TurnsOk, FlightOk, MovesOk;
  }

  /** A server that has just booted on some database, with the conversation service connected. */
  ghost predicate Booted(s: State) {
    s.wired && s.db.leases == [] && s.flight == Free && s.turns == map[] && s.moves == map[]
  }

  lemma {:induction false} ReachableInv(s: State, events: seq<Event>)
    requires Booted(s)
    ensures Inv(Run(s, events))
  {
    hide Step, Leased, Released, Moved, Restored;
    if events != [] {
      hide Inv;
      ReachableInv(s, events[..|events| - 1]);
      StepKeeps(Run(s, events[..|events| - 1]), events[|events| - 1]);
    }
  }

  // ------------------------------------------------------------ what it is for

  /** Whatever is interleaved, two turns that hold a lease on one Project are the same turn, and
      the one lease in the store is that turn's. */
  lemma OneWriterPerProject(s: State, events: seq<Event>, q: Id, r: Id)
    requires Booted(s)
    ensures
      var t := Run(s, events);
      && Exclusive(t.db.leases)
      && (q in t.turns && r in t.turns && Holding(t.turns[q].phase) && Holding(t.turns[r].phase)
          && t.turns[q].projectId == t.turns[r].projectId ==>
            q == r && LeaseOf(t, r) in t.db.leases)
  {
    hide Run, FlightOk, MovesOk, Holding;
    ReachableInv(s, events);
    var t := Run(s, events);
    if q in t.turns && r in t.turns && Holding(t.turns[q].phase) && Holding(t.turns[r].phase)
       && t.turns[q].projectId == t.turns[r].projectId {
      ExclusiveHolder(t.db.leases, LeaseOf(t, q), LeaseOf(t, r));
    }
  }

  /** An archived or deleted Project has no lease, in no committed state, so no turn runs on it. */
  lemma ArchivedProjectHasNoWriter(s: State, events: seq<Event>, p: Id)
    requires Booted(s)
    ensures
      var t := Run(s, events);
      !IsActive(t.db, p) ==>
        !Leased(t.db, p) && forall r :: r in t.turns && t.turns[r].projectId == p ==> !Holding(t.turns[r].phase)
  {
    hide Run, FlightOk, MovesOk, Holding, Exclusive;
    ReachableInv(s, events);
  }

  /** Neither the archive, nor the deletion, nor their rollback ever touches a lease: what they
      commit has the leases that were there, although each filters or overwrites the rows. */
  lemma MovesTouchNoLease(s: State, events: seq<Event>)
    requires Booted(s)
    ensures
      var t := Run(s, events);
      t.flight.Persisting? && (t.flight.operation.Relocate? || t.flight.operation.Restore?) ==>
        t.flight.next.leases == t.db.leases
  {
    hide Run, Inv, PersistedStep;
    ReachableInv(s, events);
    var t := Run(s, events);
    if t.flight.Persisting? && t.flight.operation.Relocate? {
      RelocatePersists(t, t.flight.operation.project);
    } else if t.flight.Persisting? && t.flight.operation.Restore? {
      RestorePersists(t, t.flight.operation.project);
    }
  }

  /** As long as a move may still be rolled back no lease of its Project is committed. */
  lemma NoGrantWhileMoving(s: State, events: seq<Event>, p: Id)
    requires Booted(s)
    ensures
      var t := Run(s, events);
      p in t.moves && HasSnapshot(t.moves[p].stage) ==> !Leased(t.db, p) && !MayGrant(t, p)
  {
    hide Run, FlightOk, TurnsOk, LeasesOk, Leased, MayGrant;
    ReachableInv(s, events);
  }

  /** A lease never outlives its turn: in every reachable state a run that waits, is gone, or was
      never heard of has no lease in the store; only one that holds it, or whose release could
      not be written, does. */
  lemma NoLeaseOutlivesItsTurn(s: State, events: seq<Event>, r: Id)
    requires Booted(s)
    ensures
      var t := Run(s, events);
      HasRunLease(t.db, r) ==> r in t.turns && (Holding(t.turns[r].phase) || t.turns[r].phase == Unreleased)
  {
    hide Run, FlightOk, MovesOk, TurnsOk, LeasesOk;
    ReachableInv(s, events);
  }

  /** The step is the turn's own: it writes the grant or the release of the run. */
  predicate WritesFor(s: State, e: Event, r: Id) {
    e.Persisted? && s.flight.Persisting?
    && (s.flight.operation == Acquire(r, true) || s.flight.operation == Release(r))
  }

  /** Whatever the others do, the leases of a run are left as they are until the run itself
      acquires or releases one, or the server restarts; and no Project gets a second lease. */
  lemma OthersKeepRunLeases(s: State, events: seq<Event>, e: Event, r: Id)
    requires Booted(s) && !e.Reboot? && !WritesFor(Run(s, events), e, r)
    ensures KeepsRunLeases(Run(s, events).db, Step(Run(s, events), e).db, r)
  {
    hide Run, Inv, FlightOk, LeasesOk, PersistedStep, KeepsRunLeases;
    ReachableInv(s, events);
    var t := Run(s, events);
    StepKeeps(t, e);
    KeptByItself(t.db, r);
    InvIsExclusive(t);
    InvIsExclusive(Step(t, e));
    if e.Persisted? {
      PersistedKeepsRunLeases(t, e.ok, r);
    }
  }

  lemma KeptByItself(db: Database, r: Id)
    ensures KeepsRunLeases(db, db, r)
  {
  }

  lemma InvIsExclusive(s: State)
    requires Inv(s)
    ensures Exclusive(s.db.leases)
  {
  }

  lemma PersistedKeepsRunLeases(s: State, ok: bool, r: Id)
    requires Inv(s) && !WritesFor(s, Persisted(ok), r)
    ensures KeepsRunLeases(s.db, PersistedStep(s, ok).db, r)
  {
    hide Exclusive, Leased, IsActive, Released, Moved, Restored, LeasesOk, TurnsOk, LeasesHeld, MovesOk;
    PersistedKeeps(s, ok);
    InvIsExclusive(PersistedStep(s, ok));
    if ok && s.flight.Persisting? {
      match s.flight.operation
      case Relocate(p) => RelocatePersists(s, p);
      case Restore(p) => RestorePersists(s, p);
      case Release(q) => ReleaseKeepsOthers(s.db, s.turns[q].projectId, q, r);
      case _ =>
    }
  }

  lemma ReleaseKeepsOthers(db: Database, p: Id, q: Id, r: Id)
    ensures q != r ==> forall l: Lease :: l.runId == r ==> (l in Released(db, p, q).leases <==> l in db.leases)
  {
    forall l: Lease | q != r && l.runId == r
      ensures l in Released(db, p, q).leases <==> l in db.leases
    {
      ReleaseTakesOnlyItsOwn(db, p, q, l);
    }
    hide Released;
  }

  /** No event of the second stretch restarts the server or writes for the run. */
  ghost predicate LeavesRunAlone(s: State, events: seq<Event>, more: seq<Event>, r: Id) {
    forall i :: 0 <= i < |more| ==> !more[i].Reboot? && !WritesFor(Run(s, events + more[..i]), more[i], r)
  }

  lemma RunSnoc(s: State, events: seq<Event>, e: Event)
    ensures Run(s, events + [e]) == Step(Run(s, events), e)
  {
    hide Step;
    assert (events + [e])[..|events|] == events;
  }

  lemma LeavesPrefixAlone(s: State, events: seq<Event>, more: seq<Event>, r: Id)
    requires LeavesRunAlone(s, events, more, r) && more != []
    ensures LeavesRunAlone(s, events, more[..|more| - 1], r)
    ensures !more[|more| - 1].Reboot? && !WritesFor(Run(s, events + more[..|more| - 1]), more[|more| - 1], r)
  {
    hide Run, WritesFor;
    assert forall i :: 0 <= i < |more| - 1 ==> more[..|more| - 1][..i] == more[..i];
  }

  lemma KeepsInARow(a: Database, b: Database, c: Database, r: Id)
    requires KeepsRunLeases(a, b, r) && KeepsRunLeases(b, c, r)
    ensures KeepsRunLeases(a, c, r)
  {
    hide Exclusive;
  }

  /** What the others do between two steps of a turn, however much it is, keeps the leases of
      its run. */
  lemma {:induction false} OthersKeepRunLeasesThroughout(s: State, events: seq<Event>, more: seq<Event>, r: Id)
    requires Booted(s) && LeavesRunAlone(s, events, more, r)
    ensures KeepsRunLeases(Run(s, events).db, Run(s, events + more).db, r)
  {
    hide Booted, Step, WritesFor, LeavesRunAlone, Run, KeepsRunLeases;
    if more == [] {
      assert events + more == events;
      KeptByItself(Run(s, events).db, r);
    } else {
      var init, last := more[..|more| - 1], more[|more| - 1];
      LeavesPrefixAlone(s, events, more, r);
      OthersKeepRunLeasesThroughout(s, events, init, r);
      assert events + more == events + init + [last];
      RunSnoc(s, events + init, last);
      OthersKeepRunLeases(s, events + init, last, r);
      KeepsInARow(Run(s, events).db, Run(s, events + init).db, Run(s, events + more).db, r);
    }
  }

  // ------------------------------------------------------------ why the barrier is needed

  lemma {:induction false} RunConcat(s: State, a: seq<Event>, b: seq<Event>)
    ensures Run(s, a + b) == Run(Run(s, a), b)
  {
    hide Step;
    if b == [] {
      assert a + b == a;
    } else {
      var c := a + b;
      assert c[..|c| - 1] == a + b[..|b| - 1];
      RunConcat(s, a, b[..|b| - 1]);
    }
  }

  lemma RunOne(s: State, e: Event)
    ensures Run(s, [e]) == Step(s, e)
  {
    hide Step;
    assert Run(s, [e][..0]) == s;
  }

  lemma RunCons(s: State, e: Event, events: seq<Event>)
    ensures Run(s, [e] + events) == Run(Step(s, e), events)
  {
    hide Step, Run;
    RunConcat(s, [e], events);
    RunOne(s, e);
  }

  lemma RunThree(s: State, e: Event, f: Event, g: Event)
    ensures Run(s, [e, f, g]) == Step(Step(Step(s, e), f), g)
  {
    hide Step, Run;
    assert [e, f, g] == [e] + ([f] + [g]);
    RunCons(s, e, [f] + [g]);
    RunCons(Step(s, e), f, [g]);
    RunOne(Step(Step(s, e), f), g);
  }

  /** An acquire is past its archive check when the archive begins. */
  function ArchiveBeginsLate(a: Id, p: Id): seq<Event> {
    [Request(a, a, p), EnterAcquire(a, false), BeginMove(p, false)]
  }

  /** The archive takes its snapshot without waiting for the store, and the grant commits. */
  function GrantAfterSnapshot(a: Id, p: Id): seq<Event> {
    [SkipBarrier(p), Snapshot(p), Authorized(a, true)] + [Persisted(true), Begun(a), EnterMove(p, false)]
  }

  /** The archive finds the lease, rolls back, and a second turn begins. */
  function RollBackAndGrant(b: Id, p: Id): seq<Event> {
    [EnterRestore(p), Persisted(true), EndMove(p)] + [Request(b, b, p), EnterAcquire(b, false), Authorized(b, true)]
    + [Persisted(true), Begun(b), EnterUnrelated]
  }

  function OneProject(p: Id): Database {
    Database(map[p := Active], [])
  }

  function Unwired(p: Id): State {
    State(false, OneProject(p), Free, map[], map[])
  }

  lemma LateArchive(a: Id, p: Id)
    ensures Run(Unwired(p), ArchiveBeginsLate(a, p)) ==
            State(false, OneProject(p), Authorizing(a, OneProject(p)), map[a := Turn(p, a, Acquiring)],
                  map[p := Move(false, Stopping)])
  {
    RunThree(Unwired(p), Request(a, a, p), EnterAcquire(a, false), BeginMove(p, false));
    hide Run;
  }

  /** Some turns and moves, while the grant to `a` is being written. */
  function GrantInFlight(a: Id, p: Id, turns: map<Id, Turn>, moves: map<Id, Move>): State {
    State(false, OneProject(p), Persisting(Acquire(a, true), WithLease(OneProject(p), Lease(p, a, a))), turns, moves)
  }

  /** The authorization comes through and the grant is on its way. */
  lemma AuthorizationGrants(a: Id, p: Id, turns: map<Id, Turn>, moves: map<Id, Move>)
    requires a in turns && turns[a].projectId == p && turns[a].agentId == a
    ensures Step(State(false, OneProject(p), Authorizing(a, OneProject(p)), turns, moves), Authorized(a, true)) ==
            GrantInFlight(a, p, turns, moves)
  {
    hide Leased, WithLease;
    NobodyHolds(p);
  }

  lemma UnwiredSnapshot(p: Id, s: State)
    requires !s.wired && s.db == OneProject(p) && s.moves == map[p := Move(false, Stopping)]
    ensures Step(Step(s, SkipBarrier(p)), Snapshot(p)) == s.(moves := map[p := Move(false, Snapped(OneProject(p)))])
  {
    hide Leased;
    NobodyHolds(p);
  }

  lemma SnapshotDuringGrant(a: Id, p: Id, s: State)
    requires s == State(false, OneProject(p), Authorizing(a, OneProject(p)), map[a := Turn(p, a, Acquiring)],
                        map[p := Move(false, Stopping)])
    ensures Run(s, [SkipBarrier(p), Snapshot(p), Authorized(a, true)]) ==
            GrantInFlight(a, p, map[a := Turn(p, a, Acquiring)], map[p := Move(false, Snapped(OneProject(p)))])
  {
    hide Run, Step, OneProject, GrantInFlight;
    RunThree(s, SkipBarrier(p), Snapshot(p), Authorized(a, true));
    UnwiredSnapshot(p, s);
    AuthorizationGrants(a, p, s.turns, map[p := Move(false, Snapped(OneProject(p)))]);
  }

  lemma NobodyHolds(p: Id)
    ensures !Leased(OneProject(p), p)
  {
  }

  /** The grant is written and the turn begins. */
  lemma GrantGoesLive(a: Id, p: Id, turns: map<Id, Turn>, moves: map<Id, Move>)
    requires a in turns
    ensures Step(Step(GrantInFlight(a, p, turns, moves), Persisted(true)), Begun(a)) ==
            State(false, WithLease(OneProject(p), Lease(p, a, a)), Free, turns[a := turns[a].(phase := Live)], moves)
  {
    hide WithLease, OneProject;
    assert turns[a := turns[a].(phase := Granted)][a := turns[a].(phase := Live)] ==
           turns[a := turns[a].(phase := Live)];
  }

  lemma MoveFindsLease(a: Id, p: Id, turns: map<Id, Turn>)
    ensures
      var db := WithLease(OneProject(p), Lease(p, a, a));
      Step(State(false, db, Free, turns, map[p := Move(false, Snapped(OneProject(p)))]), EnterMove(p, false)) ==
      State(false, db, Free, turns, map[p := Move(false, Undoing(OneProject(p)))])
  {
    hide Restored, Leased, WithLease;
    RestoredToOneProject(a, p);
  }

  lemma GrantDuringMove(a: Id, p: Id, s: State)
    requires s == GrantInFlight(a, p, map[a := Turn(p, a, Acquiring)], map[p := Move(false, Snapped(OneProject(p)))])
    ensures Run(s, [Persisted(true), Begun(a), EnterMove(p, false)]) ==
            State(false, WithLease(OneProject(p), Lease(p, a, a)), Free, map[a := Turn(p, a, Live)],
                  map[p := Move(false, Undoing(OneProject(p)))])
  {
    hide Step, Run, WithLease, OneProject, GrantInFlight;
    RunThree(s, Persisted(true), Begun(a), EnterMove(p, false));
    var turns := map[a := Turn(p, a, Acquiring)];
    GrantGoesLive(a, p, turns, map[p := Move(false, Snapped(OneProject(p)))]);
    assert turns[a := Turn(p, a, Live)] == map[a := Turn(p, a, Live)];
    MoveFindsLease(a, p, map[a := Turn(p, a, Live)]);
  }

  lemma RestoredToOneProject(a: Id, p: Id)
    ensures Restored(WithLease(OneProject(p), Lease(p, a, a)), OneProject(p), p) == OneProject(p)
    ensures Leased(WithLease(OneProject(p), Lease(p, a, a)), p)
  {
    var db := WithLease(OneProject(p), Lease(p, a, a));
    assert Lease(p, a, a) in db.leases;
    FilterDropsAll((l: Lease) => l.projectId != p, db.leases);
    FilterDropsAll((l: Lease) => l.projectId == p, []);
  }

  /** The rollback of the archive is being written. */
  function RollbackInFlight(p: Id, db: Database, turns: map<Id, Turn>): State {
    State(false, db, Persisting(Restore(p), OneProject(p)), turns, map[p := Move(false, Restoring(OneProject(p)))])
  }

  lemma RollbackStarts(a: Id, p: Id, s: State)
    requires s == State(false, WithLease(OneProject(p), Lease(p, a, a)), Free, map[a := Turn(p, a, Live)],
                        map[p := Move(false, Undoing(OneProject(p)))])
    ensures Step(s, EnterRestore(p)) == RollbackInFlight(p, s.db, s.turns)
  {
    hide Restored, Leased, WithLease;
    RestoredToOneProject(a, p);
  }

  lemma RollbackCommits(p: Id, db: Database, turns: map<Id, Turn>)
    ensures Step(Step(RollbackInFlight(p, db, turns), Persisted(true)), EndMove(p)) ==
            State(false, OneProject(p), Free, turns, map[])
  {
    hide OneProject;
  }

  lemma RollbackErases(a: Id, p: Id, s: State)
    requires s == State(false, WithLease(OneProject(p), Lease(p, a, a)), Free, map[a := Turn(p, a, Live)],
                        map[p := Move(false, Undoing(OneProject(p)))])
    ensures Run(s, [EnterRestore(p), Persisted(true), EndMove(p)]) ==
            State(false, OneProject(p), Free, map[a := Turn(p, a, Live)], map[])
  {
    hide Run, Step, WithLease, OneProject;
    RunThree(s, EnterRestore(p), Persisted(true), EndMove(p));
    RollbackStarts(a, p, s);
    RollbackCommits(p, s.db, s.turns);
  }

  /** A turn asks for the lease and its callback starts. */
  lemma TurnEnters(b: Id, p: Id, turns: map<Id, Turn>)
    requires b !in turns
    ensures Step(Step(State(false, OneProject(p), Free, turns, map[]), Request(b, b, p)), EnterAcquire(b, false)) ==
            State(false, OneProject(p), Authorizing(b, OneProject(p)), turns[b := Turn(p, b, Acquiring)], map[])
  {
    assert turns[b := Turn(p, b, Waiting)][b := Turn(p, b, Acquiring)] == turns[b := Turn(p, b, Acquiring)];
  }

  lemma SecondGrantInFlight(a: Id, b: Id, p: Id, s: State)
    requires a != b && s == State(false, OneProject(p), Free, map[a := Turn(p, a, Live)], map[])
    ensures Run(s, [Request(b, b, p), EnterAcquire(b, false), Authorized(b, true)]) ==
            GrantInFlight(b, p, map[a := Turn(p, a, Live), b := Turn(p, b, Acquiring)], map[])
  {
    hide Run, Step, OneProject, GrantInFlight;
    RunThree(s, Request(b, b, p), EnterAcquire(b, false), Authorized(b, true));
    TurnEnters(b, p, s.turns);
    assert s.turns[b := Turn(p, b, Acquiring)] == map[a := Turn(p, a, Live), b := Turn(p, b, Acquiring)];
    AuthorizationGrants(b, p, s.turns[b := Turn(p, b, Acquiring)], map[]);
  }

  lemma SecondGrant(a: Id, b: Id, p: Id, s: State)
    requires a != b && s == GrantInFlight(b, p, map[a := Turn(p, a, Live), b := Turn(p, b, Acquiring)], map[])
    ensures Run(s, [Persisted(true), Begun(b), EnterUnrelated]).turns ==
            map[a := Turn(p, a, Live), b := Turn(p, b, Live)]
  {
    hide Step, Run, WithLease, OneProject, GrantInFlight;
    RunThree(s, Persisted(true), Begun(b), EnterUnrelated);
    var turns := map[a := Turn(p, a, Live), b := Turn(p, b, Acquiring)];
    GrantGoesLive(b, p, turns, map[]);
    assert turns[b := Turn(p, b, Live)] == map[a := Turn(p, a, Live), b := Turn(p, b, Live)];
    UnrelatedKeepsTurns(Step(Step(s, Persisted(true)), Begun(b)));
  }

  lemma UnrelatedKeepsTurns(s: State)
    ensures Step(s, EnterUnrelated).turns == s.turns
  {
  }

  /** With the conversation service not connected the rollback of an archive erases the lease
      of a live turn, and a second turn goes live on the same Project. */
  lemma WithoutBarrierTwoWriters(a: Id, b: Id, p: Id)
    requires a != b
    ensures
      var t := Run(Unwired(p), ArchiveBeginsLate(a, p) + GrantAfterSnapshot(a, p) + RollBackAndGrant(b, p));
      At(t, a, Live) && At(t, b, Live) && t.turns[a].projectId == t.turns[b].projectId == p
  {
    hide Run, Step;
    var s := Unwired(p);
    var first, second := ArchiveBeginsLate(a, p), GrantAfterSnapshot(a, p);
    RunConcat(s, first + second, RollBackAndGrant(b, p));
    RunConcat(s, first, second);
    LateArchive(a, p);
    var late := Run(s, first);
    RunConcat(late, [SkipBarrier(p), Snapshot(p), Authorized(a, true)],
      [Persisted(true), Begun(a), EnterMove(p, false)]);
    SnapshotDuringGrant(a, p, late);
    GrantDuringMove(a, p, Run(late, [SkipBarrier(p), Snapshot(p), Authorized(a, true)]));
    var third := Run(s, first + second);
    RollbackErases(a, p, third);
    var undo := [EnterRestore(p), Persisted(true), EndMove(p)];
    var ask := [Request(b, b, p), EnterAcquire(b, false), Authorized(b, true)];
    RunConcat(third, undo + ask, [Persisted(true), Begun(b), EnterUnrelated]);
    RunConcat(third, undo, ask);
    SecondGrantInFlight(a, b, p, Run(third, undo));
    SecondGrant(a, b, p, Run(third, undo + ask));
  }
}
