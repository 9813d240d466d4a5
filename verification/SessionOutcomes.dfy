/** What each mutation of a session comes to in the store: when it succeeds, and what then is
    stored of the session, its events and its turns. */
module SessionOutcomes {
  import opened Wrappers
  import opened Journal
  import opened Lifecycle
  import Roster

  /** The mutation succeeds exactly if the journal has room for its events, and then stores this
      session and appends these events; `turns` are all turns that are stored then. */
  ghost predicate Becomes(
    d: Data, next: Option<Data>, id: Id, session: Session, kinds: seq<EventType>, turns: seq<Turn>)
  {
    && (next.Some? <==> |EventsOf(d.events, id)| + |kinds| <= MAX_EVENTS_PER_SESSION)
    && (next.Some? ==>
          var before, after := EventsOf(d.events, id), EventsOf(next.value.events, id);
          && next.value.sessions == d.sessions[id := session] && next.value.turns == turns
          && |after| == |before| + |kinds| && after[..|before|] == before
          && forall k :: 0 <= k < |kinds| ==> after[|before| + k] == Event(id, |before| + k, kinds[k]))
  }

  lemma WriteBecomes(d: Data, id: Id, session: Session, kinds: seq<EventType>, turn: Option<Turn>)
    requires Numbered(EventsOf(d.events, id)) && (turn.Some? ==> turn.value.sessionId == id)
    ensures Becomes(d, Apply(d, id, Write(session, kinds, turn)), id, session, kinds, Push(d.turns, turn))
  {
    WriteView(d, id, session, kinds, turn);
    var base := Data(d.sessions[id := session], d.events, Push(d.turns, turn));
    if AppendAll(base, id, kinds).Some? {
      AppendAllOnlyAppends(base, id, kinds);
    }
    FreshCount(id, |EventsOf(d.events, id)|, kinds, EventsOf(d.events, id));
    hide EventsOf, TurnsOf, Numbered, AppendAll, KnownRun;
  }

  /** A stored session with a numbered journal. */
  ghost predicate IsStored(d: Data, id: Id) {
    id in d.sessions && Numbered(EventsOf(d.events, id))
  }

  lemma CreateOutcome(d: Data, id: Id, mode: Roster.Mode, maxSteps: nat)
    requires Numbered(EventsOf(d.events, id))
    ensures
      var next := Performed(d, id, Create(mode, maxSteps));
      if id in d.sessions then next == None
      else Becomes(d, next, id, Session(Draft, None, 0, mode, maxSteps), [OrchestrationCreated], d.turns)
  {
    WriteBecomes(d, id, Session(Draft, None, 0, mode, maxSteps), [OrchestrationCreated], None);
    hide Becomes, EventsOf, TurnsOf, AppendAll, Numbered;
  }

  /** Exactly a draft is started, unless the request is refused. */
  lemma StartOutcome(d: Data, id: Id, refused: bool)
    requires IsStored(d, id)
    ensures
      var next, s := Performed(d, id, Start(refused)), d.sessions[id];
      if refused || s.status != Draft then next == None
      else
        Becomes(
          d, next, id, Session(Queued, None, 0, s.mode, s.maxSteps), [OrchestrationStarted], d.turns)
  {
    var s := d.sessions[id];
    WriteBecomes(d, id, Session(Queued, None, 0, s.mode, s.maxSteps), [OrchestrationStarted], None);
    hide Becomes, EventsOf, TurnsOf, AppendAll, Numbered;
  }

  /** The least step index that lies above those of all turns of the session, is no less than
      their number and no less than the session's own. */
  ghost predicate IsOffset(offset: nat, s: Session, turns: seq<Turn>) {
    && offset >= s.stepIndex && offset >= |turns| && (forall t :: t in turns ==> t.stepIndex < offset)
    && (offset == s.stepIndex || offset == |turns| || exists t :: t in turns && offset == t.stepIndex + 1)
  }

  lemma {:induction false} NextIndexIsLeast(turns: seq<Turn>)
    ensures NextIndex(turns) == |turns| || exists t :: t in turns && NextIndex(turns) == t.stepIndex + 1
  {
    if turns != [] {
      var n := |turns| - 1;
      NextIndexIsLeast(turns[..n]);
      assert turns == turns[..n] + [turns[n]];
    }
  }

  /** Exactly a terminal session is continued, unless the request is refused, and it counts on
      from the least index that is free. */
  lemma ContinueOutcome(d: Data, id: Id, refused: bool) returns (offset: nat)
    requires IsStored(d, id)
    ensures IsOffset(offset, d.sessions[id], TurnsOf(d.turns, id))
    ensures
      var next, s := Performed(d, id, Continue(refused)), d.sessions[id];
      if refused || s.status in {Draft, Queued, Running, Stopping} then next == None
      else
        Becomes(
          d, next, id, Session(Queued, None, offset, s.mode, s.maxSteps), [OrchestrationContinued], d.turns)
  {
    hide EventsOf, TurnsOf, AppendAll, Numbered;
    var s := d.sessions[id];
    NextIndexIsLeast(TurnsOf(d.turns, id));
    offset := Max(s.stepIndex, NextIndex(TurnsOf(d.turns, id)));
    WriteBecomes(d, id, Session(Queued, None, offset, s.mode, s.maxSteps), [OrchestrationContinued], None);
    hide Becomes, NextIndex;
  }

  /** A queued session becomes a running one without an event; others are left alone. */
  lemma MarkRunningOutcome(d: Data, id: Id)
    requires IsStored(d, id)
    ensures
      var next, s := Performed(d, id, MarkRunning), d.sessions[id];
      next == Some(d.(sessions := d.sessions[id := if s.status == Queued then s.(status := Running) else s]))
  {
    hide EventsOf, TurnsOf;
    assert d.sessions[id := d.sessions[id]] == d.sessions;
  }

  /** A stop is noted once, for a session that has not ended. */
  lemma RequestStopOutcome(d: Data, id: Id)
    requires IsStored(d, id)
    ensures
      var next, s := Performed(d, id, RequestStop), d.sessions[id];
      if s.status in {Stopping, Completed, Failed, Stopped, Interrupted} then next == Some(d)
      else Becomes(d, next, id, s.(status := Stopping), [StopRequested], d.turns)
  {
    WriteBecomes(d, id, d.sessions[id].(status := Stopping), [StopRequested], None);
    hide Becomes, EventsOf, TurnsOf, AppendAll, Numbered;
  }

  lemma HandoffOutcome(d: Data, id: Id)
    requires IsStored(d, id)
    ensures
      var next, s := Performed(d, id, ApplyHandoff), d.sessions[id];
      if s.status in {Completed, Failed, Stopped, Interrupted} then next == Some(d)
      else Becomes(d, next, id, s, [HandoffApplied], d.turns)
  {
    WriteBecomes(d, id, d.sessions[id], [HandoffApplied], None);
    hide Becomes, EventsOf, TurnsOf, AppendAll, Numbered;
  }

  lemma DecisionOutcome(d: Data, id: Id)
    requires IsStored(d, id)
    ensures
      var next, s := Performed(d, id, RecordDecision), d.sessions[id];
      if s.status in {Completed, Failed, Stopped, Interrupted} then next == Some(d)
      else if s.status == Stopping then next == None
      else Becomes(d, next, id, s, [SupervisorDecision], d.turns)
  {
    WriteBecomes(d, id, d.sessions[id], [SupervisorDecision], None);
    hide Becomes, EventsOf, TurnsOf, AppendAll, Numbered;
  }

  /** An accepted run of a session that has not ended is named, noted, and recorded as a turn
      unless a turn of that run is known already. */
  lemma AcceptOutcome(d: Data, id: Id, run: Id, stepIndex: nat)
    requires IsStored(d, id)
    ensures
      var next, s := Performed(d, id, Accept(run, stepIndex)), d.sessions[id];
      if s.status in {Completed, Failed, Stopped, Interrupted} then next == Some(d)
      else
        Becomes(
          d, next, id, s.(currentRunId := Some(run)), [ParticipantDispatched],
          if exists t :: t in d.turns && t.runId == run then d.turns else d.turns + [Turn(id, run, stepIndex)])
  {
    WriteBecomes(
      d, id, d.sessions[id].(currentRunId := Some(run)), [ParticipantDispatched], Some(Turn(id, run, stepIndex)));
    hide Becomes, EventsOf, TurnsOf, AppendAll, Numbered;
  }

  /** A completed run of a session that has not ended is no longer named, and its step counts. */
  lemma CompleteOutcome(d: Data, id: Id, stepIndex: nat)
    requires IsStored(d, id)
    ensures
      var next, s := Performed(d, id, Complete(stepIndex)), d.sessions[id];
      if s.status in {Completed, Failed, Stopped, Interrupted} then next == Some(d)
      else
        Becomes(
          d, next, id,
          s.(currentRunId := None, stepIndex := if s.stepIndex > stepIndex then s.stepIndex else stepIndex + 1),
          [RunCompleted], d.turns)
  {
    var s := d.sessions[id];
    WriteBecomes(
      d, id, s.(currentRunId := None, stepIndex := Max(s.stepIndex, stepIndex + 1)), [RunCompleted], None);
    hide Becomes, EventsOf, TurnsOf, AppendAll, Numbered;
  }

  /** A failed participant is noted, behind the note of the cancel if its run was cancelled. */
  lemma FailOutcome(d: Data, id: Id, cancelled: bool)
    requires IsStored(d, id)
    ensures
      var next, s := Performed(d, id, Fail(cancelled)), d.sessions[id];
      if s.status in {Completed, Failed, Stopped, Interrupted} then next == Some(d)
      else
        Becomes(
          d, next, id, s.(currentRunId := None),
          if cancelled then [ChildRunCancelled, ParticipantFailed] else [ParticipantFailed], d.turns)
  {
    var s := d.sessions[id];
    assert [ChildRunCancelled] + [ParticipantFailed] == [ChildRunCancelled, ParticipantFailed];
    assert [] + [ParticipantFailed] == [ParticipantFailed];
    WriteBecomes(
      d, id, s.(currentRunId := None),
      if cancelled then [ChildRunCancelled, ParticipantFailed] else [ParticipantFailed], None);
    hide Becomes, EventsOf, TurnsOf, AppendAll, Numbered;
  }

  /** The end of a cycle that returned. A stop wins over its result; otherwise it is completed if
      and only if the result is, the steps of a round-robin session are not used up, and the
      supervisor of a supervised one has said so. In all other cases it has failed. */
  lemma FinishExecutionOutcome(d: Data, id: Id, result: Result, aborted: bool, offset: nat)
    requires IsStored(d, id)
    ensures
      var next, s := Performed(d, id, FinishExecution(result, aborted, offset)), d.sessions[id];
      var stopped := aborted || s.status == Stopping || result.ending.Stops?;
      var completed :=
        && !stopped && result.ending.Completes?
        && (s.mode == Roster.RoundRobin ==> result.steps < s.maxSteps)
        && (s.mode == Roster.Supervisor ==> result.supervised);
      if s.status in {Completed, Failed, Stopped, Interrupted} then next == Some(d)
      else if stopped then
        Becomes(d, next, id, s.(status := Stopped, currentRunId := None), [OrchestrationStopped], d.turns)
      else if completed then
        Becomes(
          d, next, id,
          s.(status := Completed, currentRunId := None,
             stepIndex := if s.stepIndex >= offset + result.steps then s.stepIndex else offset + result.steps),
          [OrchestrationCompleted], d.turns)
      else Becomes(d, next, id, s.(status := Failed, currentRunId := None), [OrchestrationFailed], d.turns)
  {
    hide EventsOf, TurnsOf, AppendAll, Numbered;
    var s := d.sessions[id];
    WriteBecomes(d, id, s.(status := Stopped, currentRunId := None), [OrchestrationStopped], None);
    WriteBecomes(d, id, s.(status := Failed, currentRunId := None), [OrchestrationFailed], None);
    WriteBecomes(
      d, id, s.(status := Completed, currentRunId := None, stepIndex := Max(s.stepIndex, offset + result.steps)),
      [OrchestrationCompleted], None);
    hide Becomes;
  }

  lemma FinishFailedOutcome(d: Data, id: Id)
    requires IsStored(d, id)
    ensures
      var next, s := Performed(d, id, FinishFailed), d.sessions[id];
      if s.status in {Completed, Failed, Stopped, Interrupted} then next == Some(d)
      else Becomes(d, next, id, s.(status := Failed, currentRunId := None), [OrchestrationFailed], d.turns)
  {
    WriteBecomes(d, id, d.sessions[id].(status := Failed, currentRunId := None), [OrchestrationFailed], None);
    hide Becomes, EventsOf, TurnsOf, AppendAll, Numbered;
  }

  lemma FinishStoppedOutcome(d: Data, id: Id)
    requires IsStored(d, id)
    ensures
      var next, s := Performed(d, id, FinishStopped), d.sessions[id];
      if s.status in {Completed, Failed, Stopped, Interrupted} then next == Some(d)
      else Becomes(d, next, id, s.(status := Stopped, currentRunId := None), [OrchestrationStopped], d.turns)
  {
    WriteBecomes(d, id, d.sessions[id].(status := Stopped, currentRunId := None), [OrchestrationStopped], None);
    hide Becomes, EventsOf, TurnsOf, AppendAll, Numbered;
  }

  /** Exactly a session that is not active is deleted, and nothing of it is left. */
  lemma DeleteOutcome(d: Data, id: Id)
    requires IsStored(d, id)
    ensures
      var next, s := Performed(d, id, Delete), d.sessions[id];
      if s.status in {Queued, Running, Stopping} then next == None
      else
        && next.Some? && next.value.sessions == d.sessions - {id}
        && EventsOf(next.value.events, id) == [] && TurnsOf(next.value.turns, id) == []
  {
    EraseView(d, id, id);
    hide EventsOf, TurnsOf;
  }

  /** Of a session that is not stored, the end of a run or cycle is ignored and everything else
      but its creation is refused. */
  lemma MissingOutcome(d: Data, id: Id, m: Mutation)
    requires id !in d.sessions && !m.Create?
    ensures
      var next := Performed(d, id, m);
      if m.ApplyHandoff? || m.Complete? || m.Fail? || m.FinishExecution? || m.FinishFailed? || m.FinishStopped?
      then next == Some(d) else next == None
  {
    hide EventsOf, TurnsOf;
  }

  /** A restart ends an active session as interrupted, with its event, and leaves others alone. */
  lemma InterruptOutcome(d: Data, id: Id)
    requires IsStored(d, id)
    ensures
      var next, s := InterruptOne(d, id), d.sessions[id];
      if s.status in {Queued, Running, Stopping} then
        Becomes(d, next, id, s.(status := Interrupted, currentRunId := None), [OrchestrationInterrupted], d.turns)
      else next == Some(d)
  {
    WriteBecomes(
      d, id, d.sessions[id].(status := Interrupted, currentRunId := None), [OrchestrationInterrupted], None);
    hide Becomes, EventsOf, TurnsOf, AppendAll, Numbered;
  }

  // ------------------------------------------------------------ who is heard

  /** A request that may be made is performed, and what it comes to is stored if it is saved: a
      creation under a new id, any start, a stop of a session that was seen active, a continuation
      or deletion when no runner is left, and the end of a cycle by its runner or a stop. */
  lemma RequestsArePerformed(s: State, id: Id, m: Mutation, saved: bool)
    requires
      || (m.Create? && id !in s.used) || m.Start?
      || (m.RequestStop? && id in s.seen) || ((m.Continue? || m.Delete?) && id !in s.runners)
      || (m.FinishFailed? && id in s.runners) || (m.FinishStopped? && (id in s.runners || id in s.seen))
    ensures Step(s, Perform(id, m, saved)).d ==
            if saved && Performed(s.d, id, m).Some? then Performed(s.d, id, m).value else s.d
  {
    hide Performed, NextRunner;
  }

  /** A stop request sees exactly the active sessions, and a restart that works forgets runners
      and requests. */
  lemma SeenAndForgotten(s: State, id: Id, order: seq<Id>)
    ensures id in Step(s, SeeActive(id)).seen <==>
            id in s.seen || (id in s.d.sessions && IsActive(s.d.sessions[id].status))
    ensures (forall i :: i in s.d.sessions ==> i in order) ==>
              var t := Step(s, Boot(order));
              && t.runners == map[] && t.seen == {}
              && t.d == if Interrupt(s.d, order).Some? then Interrupt(s.d, order).value else s.d
    ensures id !in Step(s, RunnerEnds(id)).runners && Step(s, RunnerEnds(id)).d == s.d
  {
    hide Interrupt;
  }
}
