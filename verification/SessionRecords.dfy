/** The lifecycle mutations as they update the copy of the database in place; a mutation that
    throws leaves a copy that is thrown away. */
module SessionRecords {
  import opened Wrappers
  import opened Sequences
  import opened Journal
  import opened Lifecycle
  import Roster

  class Records {
    var sessions: map<Id, Session>
    var events: seq<Event>
    var turns: seq<Turn>

    ghost function Value(): Data
      reads this
    {
      Data(sessions, events, turns)
    }

    method AppendEvent(id: Id, kind: EventType) returns (ok: bool)
      modifies this`events
      ensures ok <==> Append(old(Value()), id, kind).Some?
      ensures Value() == if ok then Append(old(Value()), id, kind).value else old(Value())
    {
      hide EventsOf, MaxSequence;
      if |EventsOf(events, id)| >= MAX_EVENTS_PER_SESSION {
        return false;
      }
      var maximum := MaxEventSequence(events, id);
      events := events + [Event(id, maximum + 1, kind)];
      ok := true;
    }

    /** Saves the session and appends one event. */
    method Record(id: Id, session: Session, kind: EventType) returns (ok: bool)
      modifies this`sessions, this`events
      ensures ok <==> Apply(old(Value()), id, Write(session, [kind], None)).Some?
      ensures ok ==> Value() == Apply(old(Value()), id, Write(session, [kind], None)).value
    {
      hide Append, AppendAll;
      AppendOneOrTwo(Data(sessions[id := session], events, turns), id, kind, kind);
      sessions := sessions[id := session];
      ok := AppendEvent(id, kind);
    }

    method StartSession(id: Id, refused: bool) returns (ok: bool)
      modifies this
      ensures ok <==> Performed(old(Value()), id, Start(refused)).Some?
      ensures ok ==> Value() == Performed(old(Value()), id, Start(refused)).value
    {
      hide AppendAll, TurnsOf, NextIndex;
      if id !in sessions || refused || sessions[id].status != Draft {
        return false;
      }
      ok := Record(id, sessions[id].(status := Queued, currentRunId := None, stepIndex := 0), OrchestrationStarted);
    }

    method ContinueSession(id: Id, refused: bool) returns (ok: bool)
      modifies this
      ensures ok <==> Performed(old(Value()), id, Continue(refused)).Some?
      ensures ok ==> Value() == Performed(old(Value()), id, Continue(refused)).value
    {
      hide AppendAll, TurnsOf, NextIndex;
      if id !in sessions || refused || !IsTerminal(sessions[id].status) {
        return false;
      }
      var stepOffset := Max(sessions[id].stepIndex, NextIndex(TurnsOf(turns, id)));
      ok := Record(
        id, sessions[id].(status := Queued, currentRunId := None, stepIndex := stepOffset), OrchestrationContinued);
    }

    method RequestStop(id: Id) returns (ok: bool)
      modifies this
      ensures ok <==> Performed(old(Value()), id, Mutation.RequestStop).Some?
      ensures ok ==> Value() == Performed(old(Value()), id, Mutation.RequestStop).value
    {
      hide AppendAll, TurnsOf, NextIndex;
      if id !in sessions {
        return false;
      }
      var session := sessions[id];
      if IsTerminal(session.status) || session.status == Stopping {
        return true;
      }
      ok := Record(id, session.(status := Stopping), StopRequested);
    }

    /** The hook behind an accepted run: names the run, records its turn once, and says so. */
    method OnRunAccepted(id: Id, run: Id, stepIndex: nat) returns (ok: bool)
      modifies this
      ensures ok <==> Performed(old(Value()), id, Accept(run, stepIndex)).Some?
      ensures ok ==> Value() == Performed(old(Value()), id, Accept(run, stepIndex)).value
    {
      hide Append, AppendAll, TurnsOf, NextIndex, KnownRun;
      if id !in sessions {
        return false;
      }
      var session := sessions[id];
      if IsTerminal(session.status) {
        return true;
      }
      session := session.(currentRunId := Some(run));
      ghost var turn := Turn(id, run, stepIndex);
      AppendOneOrTwo(
        Data(sessions[id := session], events, Push(turns, Some(turn))), id, ParticipantDispatched,
          ParticipantDispatched);
      sessions := sessions[id := session];
      if !KnownRun(turns, run) {
        turns := turns + [Turn(id, run, stepIndex)];
      }
      ok := AppendEvent(id, ParticipantDispatched);
    }

    method OnRunCompleted(id: Id, stepIndex: nat) returns (ok: bool)
      modifies this
      ensures ok <==> Performed(old(Value()), id, Complete(stepIndex)).Some?
      ensures ok ==> Value() == Performed(old(Value()), id, Complete(stepIndex)).value
    {
      hide AppendAll, TurnsOf, NextIndex;
      if id !in sessions || IsTerminal(sessions[id].status) {
        return true;
      }
      var session := sessions[id];
      ok := Record(
        id, session.(currentRunId := None, stepIndex := Max(session.stepIndex, stepIndex + 1)), RunCompleted);
    }

    /** The hook behind a failed participant writes one event or, for a cancelled run, two. */
    method OnParticipantFailed(id: Id, cancelled: bool) returns (ok: bool)
      modifies this
      ensures ok <==> Performed(old(Value()), id, Fail(cancelled)).Some?
      ensures ok ==> Value() == Performed(old(Value()), id, Fail(cancelled)).value
    {
      hide Append, AppendAll, TurnsOf, NextIndex;
      if id !in sessions || IsTerminal(sessions[id].status) {
        return true;
      }
      var session := sessions[id].(currentRunId := None);
      ghost var saved := Data(sessions[id := session], events, turns);
      AppendOneOrTwo(saved, id, ParticipantFailed, ParticipantFailed);
      AppendOneOrTwo(saved, id, ChildRunCancelled, ParticipantFailed);
      assert [ChildRunCancelled] + [ParticipantFailed] == [ChildRunCancelled, ParticipantFailed];
      assert [] + [ParticipantFailed] == [ParticipantFailed];
      sessions := sessions[id := session];
      if cancelled {
        ok := AppendEvent(id, ChildRunCancelled);
        if !ok {
          return;
        }
      }
      ok := AppendEvent(id, ParticipantFailed);
    }

    /** The end of a cycle that returned; a session that is gone or terminal is left alone. */
    method FinalizeExecution(id: Id, result: Result, aborted: bool, offset: nat) returns (ok: bool)
      modifies this
      ensures ok <==> Performed(old(Value()), id, FinishExecution(result, aborted, offset)).Some?
      ensures ok ==> Value() == Performed(old(Value()), id, FinishExecution(result, aborted, offset)).value
    {
      hide AppendAll, TurnsOf, NextIndex;
      if id !in sessions || IsTerminal(sessions[id].status) {
        return true;
      }
      var session := sessions[id];
      var ending := result.ending;
      if ending.Completes? && session.mode == Roster.RoundRobin && result.steps >= session.maxSteps {
        ending := Fails;
      } else if ending.Completes? && session.mode == Roster.Supervisor && !result.supervised {
        ending := Fails;
      }
      if aborted || session.status == Stopping || result.ending.Stops? {
        ok := Record(id, session.(status := Stopped, currentRunId := None), OrchestrationStopped);
        return;
      }
      if ending.Completes? {
        ok := Record(
          id,
          session.(
            status := Completed, currentRunId := None, stepIndex := Max(session.stepIndex, offset + result.steps)),
          OrchestrationCompleted);
        return;
      }
      ok := Record(id, session.(status := Failed, currentRunId := None), OrchestrationFailed);
    }

    method FinalizeFailure(id: Id) returns (ok: bool)
      modifies this
      ensures ok <==> Performed(old(Value()), id, FinishFailed).Some?
      ensures ok ==> Value() == Performed(old(Value()), id, FinishFailed).value
    {
      hide AppendAll, TurnsOf, NextIndex;
      if id !in sessions || IsTerminal(sessions[id].status) {
        return true;
      }
      ok := Record(id, sessions[id].(status := Failed, currentRunId := None), OrchestrationFailed);
    }

    method FinalizeStopped(id: Id) returns (ok: bool)
      modifies this
      ensures ok <==> Performed(old(Value()), id, FinishStopped).Some?
      ensures ok ==> Value() == Performed(old(Value()), id, FinishStopped).value
    {
      hide AppendAll, TurnsOf, NextIndex;
      if id !in sessions || IsTerminal(sessions[id].status) {
        return true;
      }
      ok := Record(id, sessions[id].(status := Stopped, currentRunId := None), OrchestrationStopped);
    }

    method DeleteSession(id: Id) returns (ok: bool)
      modifies this
      ensures ok <==> Performed(old(Value()), id, Delete).Some?
      ensures Value() == if ok then Performed(old(Value()), id, Delete).value else old(Value())
    {
      hide AppendAll, TurnsOf, NextIndex, Filter;
      if id !in sessions || IsActive(sessions[id].status) {
        return false;
      }
      sessions := sessions - {id};
      events := Filter((e: Event) => e.sessionId != id, events);
      turns := Filter((t: Turn) => t.sessionId != id, turns);
      ok := true;
    }

    /** The recovery at boot: one pass over the sessions. */
    method Initialize(order: seq<Id>) returns (ok: bool)
      modifies this
      ensures ok <==> Interrupt(old(Value()), order).Some?
      ensures ok ==> Value() == Interrupt(old(Value()), order).value
    {
      hide InterruptOne;
      ok := true;
      var i := 0;
      while i < |order|
        invariant 0 <= i <= |order|
        invariant Interrupt(old(Value()), order[..i]) == Some(Value())
      {
        assert order[..i + 1][..i] == order[..i];
        ok := InterruptSession(order[i]);
        if !ok {
          InterruptFailsLater(old(Value()), order, i + 1);
          return;
        }
        i := i + 1;
      }
      assert order[..i] == order;
    }

    method InterruptSession(id: Id) returns (ok: bool)
      modifies this
      ensures ok <==> InterruptOne(old(Value()), id).Some?
      ensures ok ==> Value() == InterruptOne(old(Value()), id).value
    {
      hide AppendAll;
      if id !in sessions || !IsActive(sessions[id].status) {
        return true;
      }
      ok := Record(id, AfterRestart(sessions[id]), OrchestrationInterrupted);
    }
  }

  lemma {:induction false} InterruptFailsLater(d: Data, order: seq<Id>, i: nat)
    requires i <= |order| && Interrupt(d, order[..i]).None?
    ensures Interrupt(d, order).None?
  {
    hide InterruptOne;
    if i < |order| {
      var n := |order| - 1;
      assert order[..n][..i] == order[..i];
      InterruptFailsLater(d, order[..n], i);
    } else {
      assert order[..i] == order;
    }
  }
}
