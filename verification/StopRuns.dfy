/** The runner of a cycle from end to end: what a dispatch comes to when nobody stops the session,
    and that behind an abort the runner winds up. */
module StopRuns {
  import opened Wrappers
  import opened StopHandshake

  lemma RunOne(s: State, e: Event)
    ensures Run(s, [e]) == Step(s, e)
  {
    hide Step;
    assert Run(s, [e][..0]) == s;
  }

  lemma RunThree(s: State, e: Event, f: Event, g: Event)
    ensures Run(s, [e, f, g]) == Step(Step(Step(s, e), f), g)
  {
    hide Step;
    RunOne(s, e);
    assert [e, f, g][..2] == [e, f] && [e, f][..1] == [e];
  }

  // ------------------------------------------------------------ a dispatch that nobody stops

  /** The runner is between two dispatches, nobody wants it to stop, and the run is a new one. */
  predicate MayDispatch(s: State, r: Id) {
    && s.place.Between? && !s.stopping && !s.context.aborted
    && r !in s.accepted && s.context.currentRunId == None
  }

  function ToAccepted(r: Id): seq<Event> {
    [BeginDispatch, Validated(true), Sent(r, true)]
  }

  /** The message is accepted, the run recorded and waited for. */
  function ToWaiting(r: Id): seq<Event> {
    ToAccepted(r) + [HookCalled, RunRecorded(true), CheckSignal]
  }

  /** The run is finished and its result seen. */
  function ToResult(r: Id, ok: bool, valid: bool, saved: bool, last: bool): seq<Event> {
    ToWaiting(r) + [Finish(r), WaitEnds(false, ok), ResultSeen(valid, saved, last)]
  }

  /** The state in which the accepted run is waited for. */
  function WaitingFor(s: State, r: Id): State {
    s.(place := Waiting(r), accepted := s.accepted + [r], context := s.context.(currentRunId := Some(r)))
  }

  lemma AcceptedOutcome(s: State, r: Id)
    requires MayDispatch(s, r)
    ensures Run(s, ToAccepted(r)) == s.(place := Accepted(r), accepted := s.accepted + [r])
  {
    RunThree(s, BeginDispatch, Validated(true), Sent(r, true));
    hide Run;
  }

  /** An accepted run is named in the context and waited for. */
  lemma WaitingOutcome(s: State, r: Id)
    requires MayDispatch(s, r)
    ensures Run(s, ToWaiting(r)) == WaitingFor(s, r)
  {
    hide Run, ToAccepted;
    AcceptedOutcome(s, r);
    var t := s.(place := Accepted(r), accepted := s.accepted + [r]);
    RunOn(s, ToAccepted(r), [HookCalled, RunRecorded(true), CheckSignal]);
    RunThree(t, HookCalled, RunRecorded(true), CheckSignal);
  }

  /** A run that is finished and whose result is valid and saved ends the dispatch, and the cycle
      if it was the last; nothing is cancelled and no run is named. */
  lemma DispatchOutcome(s: State, r: Id, last: bool)
    requires MayDispatch(s, r)
    ensures Run(s, ToResult(r, true, true, true, last)) ==
            s.(place := if last then Ended else Between, accepted := s.accepted + [r], finished := s.finished + {r})
  {
    hide Run, ToWaiting;
    WaitingOutcome(s, r);
    var t := WaitingFor(s, r);
    RunOn(s, ToWaiting(r), [Finish(r), WaitEnds(false, true), ResultSeen(true, true, last)]);
    RunThree(t, Finish(r), WaitEnds(false, true), ResultSeen(true, true, last));
  }

  /** A run that fails, or whose result is not valid or cannot be saved, ends the cycle; it is
      finished, so it is not cancelled. */
  lemma FailedResultOutcome(s: State, r: Id, ok: bool, valid: bool, saved: bool, last: bool)
    requires MayDispatch(s, r) && !(ok && valid && saved)
    ensures Step(Run(s, ToResult(r, ok, valid, saved, last)), ReportFailure) ==
            s.(place := Ended, accepted := s.accepted + [r], finished := s.finished + {r})
  {
    hide Run, ToWaiting;
    WaitingOutcome(s, r);
    var t := WaitingFor(s, r);
    RunOn(s, ToWaiting(r), [Finish(r), WaitEnds(false, ok), ResultSeen(valid, saved, last)]);
    RunThree(t, Finish(r), WaitEnds(false, ok), ResultSeen(valid, saved, last));
  }

  /** A participant that is not valid any more, or a message that is not accepted, ends the cycle
      with nothing started. */
  lemma RefusedOutcome(s: State, r: Id)
    requires MayDispatch(s, r)
    ensures Run(s, [BeginDispatch, Validated(false), ReportFailure]) == s.(place := Ended)
    ensures Step(Run(s, [BeginDispatch, Validated(true), Sent(r, false)]), ReportFailure) == s.(place := Ended)
  {
    hide Run;
    RunThree(s, BeginDispatch, Validated(false), ReportFailure);
    RunThree(s, BeginDispatch, Validated(true), Sent(r, false));
  }

  /** An accepted run whose turn cannot be recorded is cancelled by the adapter. */
  lemma UnrecordedOutcome(s: State, r: Id)
    requires MayDispatch(s, r)
    ensures Run(s, ToAccepted(r) + [HookCalled, RunRecorded(false), CleanUp] + [ReportFailure]) ==
            s.(place := Ended, accepted := s.accepted + [r], cleaned := s.cleaned + {r})
  {
    hide Run, ToAccepted;
    AcceptedOutcome(s, r);
    var t := s.(place := Accepted(r), accepted := s.accepted + [r]);
    var more := [HookCalled, RunRecorded(false), CleanUp];
    RunOn(s, ToAccepted(r) + more, [ReportFailure]);
    RunOn(s, ToAccepted(r), more);
    RunThree(t, HookCalled, RunRecorded(false), CleanUp);
    RunOne(Run(t, more), ReportFailure);
  }

  /** So is one that takes too long. */
  lemma TimeLimitOutcome(s: State, r: Id, ok: bool)
    requires MayDispatch(s, r)
    ensures Run(s, ToWaiting(r) + [WaitEnds(true, ok), CleanUp, ReportFailure]) ==
            s.(place := Ended, accepted := s.accepted + [r], cleaned := s.cleaned + {r})
  {
    hide Run, ToWaiting;
    WaitingOutcome(s, r);
    RunOn(s, ToWaiting(r), [WaitEnds(true, ok), CleanUp, ReportFailure]);
    RunThree(WaitingFor(s, r), WaitEnds(true, ok), CleanUp, ReportFailure);
  }

  /** The cycle begins unless it was stopped before. */
  lemma StartOutcome(s: State)
    requires s.place.Starting?
    ensures Step(s, Start) == s.(place := if s.stopping || s.context.aborted then Ended else Between)
  {
  }

  /** A stop while a run is waited for: it is persisted, the session is aborted and the run
      cancelled in one stretch; then the wait is given up, the adapter cancels the run as well,
      and the runner ends. */
  lemma StopOutcome(s: State, r: Id, ok: bool)
    requires s.place == Waiting(r) && s.context.currentRunId == Some(r) && r in s.accepted && r !in s.finished
    requires s.context.cancellationRequestedRunId != Some(r)
    ensures
      var t := Run(s, [StopRequested] + [Abort]);
      && t.stopping && t.context.aborted && t.context.requested == s.context.requested + [r]
      && t == s.(stopping := true, context := t.context, owed := t.owed) && r in t.owed
    ensures
      var u := Run(s, [StopRequested] + [Abort] + [WaitEnds(true, ok), CleanUp, ReportFailure]);
      && u.place == Ended && u.context.currentRunId == None && u.context.requested == s.context.requested + [r]
      && u.cleaned == s.cleaned + {r} && u.accepted == s.accepted
  {
    hide Run;
    RunOn(s, [StopRequested], [Abort]);
    RunOne(s, StopRequested);
    RunOne(s.(stopping := true), Abort);
    var t := Run(s, [StopRequested] + [Abort]);
    RunOn(s, [StopRequested] + [Abort], [WaitEnds(true, ok), CleanUp, ReportFailure]);
    RunThree(t, WaitEnds(true, ok), CleanUp, ReportFailure);
  }

  // ------------------------------------------------------------ behind an abort

  /** An upper bound on the moves of a runner whose session is aborted. */
  function MovesLeft(place: Place): nat {
    match place
    case Ended => 0
    case Starting => 1
    case Failing(_) => 1
    case Between => 2
    case Validating => 2
    case Cleaning(_) => 2
    case Returned(_) => 2
    case Waiting(_) => 3
    case Refusing(_) => 3
    case Recorded(_) => 4
    case Recording(_) => 5
    case Accepted(_) => 6
    case Sending => 7
  }

  function Moves(s: State, events: seq<Event>): nat {
    if events == [] then 0
    else
      var before := Run(s, events[..|events| - 1]);
      Moves(s, events[..|events| - 1]) + if Step(before, events[|events| - 1]).place != before.place then 1 else 0
  }

  lemma AbortedMove(s: State, e: Event)
    requires s.context.aborted
    ensures Step(s, e).context.aborted
    ensures Step(s, e).place != s.place ==> MovesLeft(Step(s, e).place) < MovesLeft(s.place)
  {
  }

  /** Behind an abort the runner makes at most seven more moves, whatever else happens ... */
  lemma {:induction false} AbortedRunnerWindsUp(s: State, more: seq<Event>)
    requires s.context.aborted
    ensures Run(s, more).context.aborted
    ensures Moves(s, more) + MovesLeft(Run(s, more).place) <= MovesLeft(s.place) <= 7
  {
    hide Step;
    if more != [] {
      AbortedRunnerWindsUp(s, more[..|more| - 1]);
      AbortedMove(Run(s, more[..|more| - 1]), more[|more| - 1]);
    }
  }

  /** ... and it is never stuck before its end. */
  lemma RunnerIsNeverStuck(s: State, r: Id)
    requires r !in s.accepted && !s.place.Ended?
    ensures exists e ::
              && e in {Start, BeginDispatch, Validated(true), Sent(r, true), HookCalled, RunRecorded(true), HookThrows,
                       CheckSignal, WaitEnds(true, true), CleanUp, ResultSeen(true, true, true), ReportFailure}
              && Step(s, e).place != s.place
  {
    var e := match s.place
      case Starting => Start
      case Between => BeginDispatch
      case Validating => Validated(true)
      case Sending => Sent(r, true)
      case Accepted(_) => HookCalled
      case Recording(_) => RunRecorded(true)
      case Refusing(_) => HookThrows
      case Recorded(_) => CheckSignal
      case Waiting(_) => WaitEnds(true, true)
      case Cleaning(_) => CleanUp
      case Returned(_) => ResultSeen(true, true, true)
      case Failing(_) => ReportFailure;
    assert Step(s, e).place != s.place;
  }

  // ------------------------------------------------------------ no cancel without a reason

  /** Why a run may be cancelled. */
  ghost predicate HasReason(events: seq<Event>) {
    exists i :: 0 <= i < |events| && (events[i].Abort? || events[i] == RunRecorded(false) || IsGivenUp(events[i]))
  }

  predicate IsGivenUp(e: Event) {
    e.WaitEnds? && e.gaveUp
  }

  ghost predicate NothingCancelled(s: State) {
    && !s.context.aborted && s.context.requested == [] && s.context.cancellationRequestedRunId == None
    && s.cleaned == {} && !s.place.Cleaning? && !s.place.Refusing?
  }

  lemma StepNeedsReason(s: State, e: Event)
    requires NothingCancelled(s) && !e.Abort? && e != RunRecorded(false) && !IsGivenUp(e)
    ensures NothingCancelled(Step(s, e))
  {
    hide CancelChildRun, AbortContext;
  }

  /** A run is cancelled, by either side, only behind an abort, a turn that could not be recorded,
      or a wait that was given up. */
  lemma {:induction false} NoCancelWithoutReason(s: State, events: seq<Event>)
    requires Launched(s) && !HasReason(events)
    ensures NothingCancelled(Run(s, events))
  {
    hide Step, NothingCancelled;
    if events == [] {
      NothingAtFirst(s);
    } else {
      var before, e := events[..|events| - 1], events[|events| - 1];
      assert !HasReason(before);
      NoCancelWithoutReason(s, before);
      StepNeedsReason(Run(s, before), e);
    }
  }

  lemma NothingAtFirst(s: State)
    requires Launched(s)
    ensures NothingCancelled(s)
  {
  }

  /** Only the run the runner is busy with is ever cancelled. */
  lemma OnlyBusyRunIsCancelled(s: State, events: seq<Event>, e: Event, r: Id)
    requires Launched(s)
    ensures
      var t := Run(s, events);
      var u := Step(t, e);
      (r in u.context.requested && r !in t.context.requested) || (r in u.cleaned && r !in t.cleaned) ==>
        RunAt(t.place) == Some(r)
  {
    hide Run, OwedOk, GuardOk, RunsOk;
    ReachableInv(s, events);
  }
}
