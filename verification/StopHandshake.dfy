/** Stopping a session while its runner is between accepting a child run and waiting for it.

    Two kinds of actors share one context: the runner of the cycle, and any number of stop
    requests. Every step is a stretch of code without an `await` in it. */
module StopHandshake {
  import opened Wrappers

  type Id = string

  /** The fields of the active session that both sides use, and the cancels sent through it. */
  datatype Context = Context(
    aborted: bool, currentRunId: Option<Id>, cancellationRequestedRunId: Option<Id>, requested: seq<Id>)

  /** Where the runner is; a run is named from the moment the platform has accepted it. */
  datatype Place =
    | Starting
    | Between
    | Validating
    | Sending
    | Accepted(run: Id)
    | Recording(run: Id)
    | Refusing(run: Id)
    | Recorded(run: Id)
    | Waiting(run: Id)
    | Cleaning(run: Id)
    | Returned(run: Id)
    | Failing(failed: Option<Id>)
    | Ended

  /** `cleaned` are the cancels the platform adapter sends itself; `owed` are the runs that
      were accepted and unfinished at an abort, or accepted after it. */
  datatype State = State(
    context: Context, place: Place, stopping: bool, accepted: seq<Id>, finished: set<Id>, cleaned: set<Id>,
    owed: set<Id>)

  datatype Event =
    | StopRequested                  // the stop is persisted
    | Abort                          // the stop request aborts and looks for a run to cancel
    | Finish(run: Id)                // the platform finishes a run, however it ends
    | Start                          // the runner marks the session as running
    | BeginDispatch                  // the first check of the hook before a dispatch
    | Validated(ok: bool)            // the participant was validated and the check repeated
    | Sent(run: Id, ok: bool)        // the platform accepts the message, or does not
    | HookCalled                     // the accepted run is put into the context
    | RunRecorded(ok: bool)          // its turn was persisted, or could not be
    | HookThrows                     // the hook has cancelled the run and throws
    | CheckSignal                    // the adapter looks at the signal before it waits
    | WaitEnds(gaveUp: bool, ok: bool)   // by its time limit or an abort, or with the run finished
    | CleanUp                        // the adapter cancels a run it gives up on
    | ResultSeen(valid: bool, saved: bool, last: bool)
    | ReportFailure

  // ------------------------------------------------------------ the shared context

  /** Cancels a run once: a second request for the same run is dropped. */
  function CancelChildRun(c: Context, run: Id): Context {
    if c.cancellationRequestedRunId == Some(run) then c
    else c.(cancellationRequestedRunId := Some(run), requested := c.requested + [run])
  }

  function AbortContext(c: Context): Context {
    var aborted := c.(aborted := true);
    match c.currentRunId
    case None => aborted
    case Some(run) => CancelChildRun(aborted, run)
  }

  function ForgetRun(c: Context, run: Option<Id>): Context {
    if run.None? || c.currentRunId == run then c.(currentRunId := None) else c
  }

  // ------------------------------------------------------------ the steps

  function At(s: State, place: Place): State {
    s.(place := place)
  }

  function SentStep(s: State, run: Id, ok: bool): State {
    if !s.place.Sending? || (ok && run in s.accepted) then s
    else if !ok then At(s, Failing(None))
    else At(s, Accepted(run)).(
      accepted := s.accepted + [run], owed := if s.context.aborted then s.owed + {run} else s.owed)
  }

  function RunRecordedStep(s: State, ok: bool): State {
    if !s.place.Recording? then s
    else if !ok then At(s, Cleaning(s.place.run))
    else if s.context.aborted then At(s, Refusing(s.place.run)).(context := CancelChildRun(s.context, s.place.run))
    else At(s, Recorded(s.place.run))
  }

  function WaitEndsStep(s: State, gaveUp: bool, ok: bool): State {
    if !s.place.Waiting? then s
    else if gaveUp then At(s, Cleaning(s.place.run))
    else if s.place.run !in s.finished then s
    else if ok then At(s, Returned(s.place.run))
    else At(s, Failing(Some(s.place.run)))
  }

  function ResultSeenStep(s: State, valid: bool, saved: bool, last: bool): State {
    if !s.place.Returned? then s
    else if s.context.aborted || !valid then At(s, Failing(Some(s.place.run)))
    else
      At(s, if !saved then Failing(Some(s.place.run)) else if last then Ended else Between)
      .(context := s.context.(currentRunId := None))
  }

  function AbortStep(s: State): State {
    s.(context := AbortContext(s.context), owed := s.owed + (set r | r in s.accepted && r !in s.finished))
  }

  function Step(s: State, e: Event): State {
    match e
    case StopRequested => s.(stopping := true)
    case Abort => AbortStep(s)
    case Finish(r) => if r in s.accepted then s.(finished := s.finished + {r}) else s
    case Start => if s.place.Starting? then At(s, if s.stopping || s.context.aborted then Ended else Between) else s
    case BeginDispatch => if s.place.Between? then At(s, if s.context.aborted then Failing(None) else Validating) else s
    case Validated(ok) =>
      if s.place.Validating? then
        At(s, if ok && !s.stopping && !s.context.aborted then Sending else Failing(None)) else s
    case Sent(run, ok) => SentStep(s, run, ok)
    case HookCalled =>
      if s.place.Accepted? then
        At(s, Recording(s.place.run)).(context := s.context.(currentRunId := Some(s.place.run))) else s
    case RunRecorded(ok) => RunRecordedStep(s, ok)
    case HookThrows => if s.place.Refusing? then At(s, Cleaning(s.place.run)) else s
    case CheckSignal =>
      if s.place.Recorded? then At(s, if s.context.aborted then Cleaning(s.place.run) else Waiting(s.place.run)) else s
    case WaitEnds(gaveUp, ok) => WaitEndsStep(s, gaveUp, ok)
    case CleanUp =>
      if s.place.Cleaning? then At(s, Failing(Some(s.place.run))).(cleaned := s.cleaned + {s.place.run}) else s
    case ResultSeen(valid, saved, last) => ResultSeenStep(s, valid, saved, last)
    case ReportFailure =>
      if s.place.Failing? then At(s, Ended).(context := ForgetRun(s.context, s.place.failed)) else s
  }

  function Run(s: State, events: seq<Event>): State {
    if events == [] then s else Step(Run(s, events[..|events| - 1]), events[|events| - 1])
  }

  // ------------------------------------------------------------ the invariant

  predicate Distinct(s: seq<Id>) {
    forall i, j :: 0 <= i < j < |s| ==> s[i] != s[j]
  }

  /** The run the runner is busy with. */
  function RunAt(place: Place): Option<Id> {
    match place
    case Accepted(r) => Some(r)
    case Recording(r) => Some(r)
    case Refusing(r) => Some(r)
    case Recorded(r) => Some(r)
    case Waiting(r) => Some(r)
    case Cleaning(r) => Some(r)
    case Returned(r) => Some(r)
    case Failing(r) => r
    case _ => None
  }

  /** The context names exactly the run the runner is busy with, once the hook was called. */
  predicate ContextNamesRun(s: State) {
    match s.place
    case Accepted(_) => s.context.currentRunId == None
    case Failing(r) => s.context.currentRunId == None || s.context.currentRunId == r
    case _ => s.context.currentRunId == RunAt(s.place)
  }

  /** The guard holds the last run cancelled, and no run was cancelled twice. */
  predicate GuardOk(c: Context) {
    && Distinct(c.requested)
    && c.cancellationRequestedRunId == (if c.requested == [] then None else Some(c.requested[|c.requested| - 1]))
  }

  /** The runner is on its way to cancel the run by itself. */
  predicate Pending(place: Place, r: Id) {
    place == Accepted(r) || place == Recording(r) || place == Cleaning(r)
  }

  predicate RunsOk(s: State) {
    && (forall r :: r in s.context.requested ==> r in s.accepted)
    && (RunAt(s.place).Some? ==>
          RunAt(s.place).value in s.accepted
          && (RunAt(s.place).value in s.context.requested ==> s.context.cancellationRequestedRunId == RunAt(s.place)))
    && (forall r :: r in s.accepted ==> r in s.finished || r in s.cleaned || RunAt(s.place) == Some(r))
    && (s.place.Returned? ==> s.place.run in s.finished)
    && (s.place.Failing? && s.place.failed.Some? ==> s.place.failed.value in s.finished + s.cleaned)
    && (s.place.Accepted? ==> s.place.run !in s.context.requested)
  }

  predicate OwedOk(s: State) {
    && (s.owed != {} ==> s.context.aborted)
    && forall r :: r in s.owed ==> r in s.context.requested || r in s.cleaned || Pending(s.place, r)
  }

  predicate Inv(s: State) {
    ContextNamesRun(s) && GuardOk(s.context) && RunsOk(s) && OwedOk(s)
  }

  ghost predicate Launched(s: State) {
    s == State(Context(false, None, None, []), Starting, s.stopping, [], {}, {}, {})
  }

  /** The guard is in order, and the run was not cancelled before the last one. */
  predicate MayCancel(c: Context, run: Id) {
    GuardOk(c) && (run in c.requested ==> c.cancellationRequestedRunId == Some(run))
  }

  lemma CancelKeepsGuard(c: Context, run: Id)
    requires MayCancel(c, run)
    ensures GuardOk(CancelChildRun(c, run)) && run in CancelChildRun(c, run).requested
    ensures forall r :: r in CancelChildRun(c, run).requested <==> r in c.requested || r == run
  {
  }

  lemma AbortKeeps(s: State)
    requires Inv(s)
    ensures Inv(AbortStep(s))
  {
    if s.context.currentRunId.Some? {
      CancelKeepsGuard(s.context.(aborted := true), s.context.currentRunId.value);
    }
    hide GuardOk, CancelChildRun;
    AbortChangesOnlyCancels(s.context);
  }

  /** What an abort and a cancel leave alone. */
  lemma AbortChangesOnlyCancels(c: Context)
    ensures AbortContext(c).currentRunId == c.currentRunId && AbortContext(c).aborted
    ensures c.currentRunId.None? ==> AbortContext(c) == c.(aborted := true)
    ensures c.currentRunId.Some? ==> AbortContext(c).cancellationRequestedRunId == c.currentRunId
  {
  }

  lemma RunRecordedKeeps(s: State, ok: bool)
    requires Inv(s)
    ensures Inv(RunRecordedStep(s, ok))
  {
    if s.place.Recording? {
      CancelKeepsGuard(s.context, s.place.run);
    }
    hide GuardOk;
  }

  lemma SentKeeps(s: State, run: Id, ok: bool)
    requires Inv(s)
    ensures Inv(SentStep(s, run, ok))
  {
    hide GuardOk;
  }

  lemma ResultSeenKeeps(s: State, valid: bool, saved: bool, last: bool)
    requires Inv(s)
    ensures Inv(ResultSeenStep(s, valid, saved, last))
  {
    hide Distinct;
  }

  lemma WaitEndsKeeps(s: State, gaveUp: bool, ok: bool)
    requires Inv(s)
    ensures Inv(WaitEndsStep(s, gaveUp, ok))
  {
    hide GuardOk;
  }

  lemma OtherStepKeeps(s: State, e: Event)
    requires Inv(s)
    requires e.StopRequested? || e.Finish? || e.Start? || e.BeginDispatch? || e.Validated? || e.HookThrows?
             || e.CheckSignal?
             || e.CleanUp?
    ensures Inv(Step(s, e))
  {
    hide GuardOk, AbortStep, SentStep, RunRecordedStep, WaitEndsStep, ResultSeenStep, ForgetRun;
  }

  lemma HookCalledKeeps(s: State)
    requires Inv(s)
    ensures Inv(Step(s, HookCalled))
  {
    hide Distinct;
  }

  lemma ReportFailureKeeps(s: State)
    requires Inv(s)
    ensures Inv(Step(s, ReportFailure))
  {
    hide Distinct;
  }

  lemma StepKeeps(s: State, e: Event)
    requires Inv(s)
    ensures Inv(Step(s, e))
  {
    hide Inv, AbortStep, SentStep, RunRecordedStep, WaitEndsStep, ResultSeenStep;
    match e
    case Abort => AbortKeeps(s);
    case Sent(run, ok) => SentKeeps(s, run, ok);
    case HookCalled => HookCalledKeeps(s);
    case RunRecorded(ok) => RunRecordedKeeps(s, ok);
    case WaitEnds(gaveUp, ok) => WaitEndsKeeps(s, gaveUp, ok);
    case ResultSeen(valid, saved, last) => ResultSeenKeeps(s, valid, saved, last);
    case ReportFailure => ReportFailureKeeps(s);
    case _ => OtherStepKeeps(s, e);
  }

  lemma {:induction false} ReachableInv(s: State, events: seq<Event>)
    requires Launched(s)
    ensures Inv(Run(s, events))
  {
    hide Step;
    if events != [] {
      hide Inv;
      ReachableInv(s, events[..|events| - 1]);
      StepKeeps(Run(s, events[..|events| - 1]), events[|events| - 1]);
    }
  }

  // ------------------------------------------------------------ what it is for

  /** What `owed` records: the accepted, unfinished runs at each abort and the runs accepted
      after one; nothing is ever struck from it. */
  lemma OwedIsHistory(s: State, e: Event, r: Id)
    ensures r in Step(s, e).owed <==>
            r in s.owed
            || (e.Abort? && r in s.accepted && r !in s.finished)
            || (e == Sent(r, true) && s.place.Sending? && r !in s.accepted && s.context.aborted)
  {
    hide CancelChildRun, AbortContext;
  }

  /** Every run accepted and unfinished when an abort happens, or accepted after it, has been
      cancelled, unless the runner is about to cancel it by itself. */
  lemma NoCancelIsLost(s: State, events: seq<Event>, r: Id)
    requires Launched(s)
    ensures
      var t := Run(s, events);
      r in t.owed ==> r in t.context.requested || r in t.cleaned || Pending(t.place, r)
  {
    hide Run, GuardOk, RunsOk, ContextNamesRun, Pending;
    ReachableInv(s, events);
  }

  /** Once the runner has ended nothing is pending: every owed run was cancelled. */
  lemma EndedRunnerHasCancelled(s: State, events: seq<Event>)
    requires Launched(s)
    ensures
      var t := Run(s, events);
      t.place.Ended? ==>
        t.context.currentRunId == None && forall r :: r in t.owed ==> r in t.context.requested || r in t.cleaned
  {
    hide Run, GuardOk, RunsOk;
    ReachableInv(s, events);
  }

  /** Whatever the runner does next brings a pending cancel closer: after an abort a pending
      run is cancelled within three steps of the runner, however they end. */
  lemma PendingIsBrief(s: State, events: seq<Event>, e: Event, r: Id)
    requires Launched(s)
    ensures
      var t := Run(s, events);
      var u := Step(t, e);
      Pending(t.place, r) && t.context.aborted && u.place != t.place ==>
        (Pending(u.place, r) && Steps(u.place) < Steps(t.place)) || r in u.context.requested || r in u.cleaned
  {
    hide Run, GuardOk, RunsOk, OwedOk;
    ReachableInv(s, events);
    var t := Run(s, events);
    if t.place == Recording(r) && e.RunRecorded? {
      CancelReaches(t.context, r, s, events);
    }
  }

  lemma CancelReaches(c: Context, r: Id, s: State, events: seq<Event>)
    requires Launched(s) && c == Run(s, events).context && RunAt(Run(s, events).place) == Some(r)
    ensures r in CancelChildRun(c, r).requested
  {
    hide Run, OwedOk, ContextNamesRun;
    ReachableInv(s, events);
    hide *;
    CancelKeepsGuard(c, r);
  }

  /** How many steps of the runner a pending cancel is away. */
  function Steps(place: Place): nat {
    match place
    case Accepted(_) => 3
    case Recording(_) => 2
    case Cleaning(_) => 1
    case _ => 0
  }

  /** However many stops there are, each run is cancelled through the context at most once, and
      only a run that was accepted. */
  lemma CancelledAtMostOnce(s: State, events: seq<Event>)
    requires Launched(s)
    ensures
      var t := Run(s, events);
      Distinct(t.context.requested) && forall r :: r in t.context.requested ==> r in t.accepted
  {
    hide Run, OwedOk, ContextNamesRun;
    ReachableInv(s, events);
  }

  /** A run nobody knows of any more is finished or cancelled: when the runner is not busy with
      a run, every run it ever started has ended or was told to. */
  lemma NoRunIsForgotten(s: State, events: seq<Event>, r: Id)
    requires Launched(s)
    ensures
      var t := Run(s, events);
      r in t.accepted && RunAt(t.place) != Some(r) ==> r in t.finished || r in t.cleaned
  {
    hide Run, OwedOk, ContextNamesRun, GuardOk;
    ReachableInv(s, events);
  }

  /** The stop is persisted or the session aborted, and what the runner may still add to the
      accepted runs is at most the message it was already sending. */
  ghost predicate Winding(s: State, accepted: seq<Id>, sending: bool) {
    && (s.stopping || s.context.aborted)
    && if s.place.Sending? then sending && s.accepted == accepted
       else s.accepted == accepted || (sending && |s.accepted| == |accepted| + 1 && accepted <= s.accepted)
  }

  lemma WindingStep(s: State, e: Event, accepted: seq<Id>, sending: bool)
    requires Winding(s, accepted, sending)
    ensures Winding(Step(s, e), accepted, sending)
  {
  }

  lemma {:induction false} RunOn(s: State, events: seq<Event>, more: seq<Event>)
    ensures Run(s, events + more) == Run(Run(s, events), more)
  {
    hide Step;
    if more == [] {
      assert events + more == events;
    } else {
      var all := events + more;
      assert all[..|all| - 1] == events + more[..|more| - 1];
      RunOn(s, events, more[..|more| - 1]);
    }
  }

  lemma {:induction false} WindingRun(s: State, more: seq<Event>)
    requires s.stopping || s.context.aborted
    ensures Winding(Run(s, more), s.accepted, s.place.Sending?)
  {
    hide Step;
    if more != [] {
      WindingRun(s, more[..|more| - 1]);
      hide Winding;
      WindingStep(Run(s, more[..|more| - 1]), more[|more| - 1], s.accepted, s.place.Sending?);
    }
  }

  /** Once a stop is persisted or the session aborted, however the run goes on, at most one more
      run is accepted, and that only if its message was already on its way. */
  lemma AtMostOneRunAfterStop(s: State, events: seq<Event>, more: seq<Event>)
    requires Run(s, events).stopping || Run(s, events).context.aborted
    ensures
      var before, after := Run(s, events), Run(s, events + more);
      && before.accepted <= after.accepted && |after.accepted| <= |before.accepted| + 1
      && (!before.place.Sending? ==> after.accepted == before.accepted)
  {
    RunOn(s, events, more);
    WindingRun(Run(s, events), more);
    hide Run;
  }

  // ------------------------------------------------------------ in place

  /** The context as the service and the hooks update it. */
  class ActiveSession {
    var aborted: bool
    var currentRunId: Option<Id>
    var cancellationRequestedRunId: Option<Id>
    var requested: seq<Id>

    ghost function Value(): Context
      reads this
    {
      Context(aborted, currentRunId, cancellationRequestedRunId, requested)
    }

    constructor ()
      ensures Value() == Context(false, None, None, [])
    {
      aborted, currentRunId, cancellationRequestedRunId, requested := false, None, None, [];
    }

    method CancelRun(run: Id)
      modifies this
      ensures Value() == CancelChildRun(old(Value()), run)
      ensures old(MayCancel(Value(), run)) ==> GuardOk(Value()) && run in requested
    {
      if MayCancel(Value(), run) {
        CancelKeepsGuard(Value(), run);
      }
      if cancellationRequestedRunId != Some(run) {
        cancellationRequestedRunId := Some(run);
        requested := requested + [run];
      }
    }

    method StopNow()
      modifies this
      ensures Value() == AbortContext(old(Value()))
      ensures currentRunId.Some? && old(MayCancel(Value(), currentRunId.value)) ==>
                GuardOk(Value()) && currentRunId.value in requested
    {
      aborted := true;
      if currentRunId.Some? {
        CancelRun(currentRunId.value);
      }
    }

    /** The tail of the accepted-run hook: throws if the session was aborted meanwhile. */
    method AfterRunRecorded(run: Id) returns (throws: bool)
      modifies this
      ensures throws == old(aborted)
      ensures Value() == if throws then CancelChildRun(old(Value()), run) else old(Value())
    {
      throws := aborted;
      if aborted {
        CancelRun(run);
      }
    }

    method OnParticipantFailed(run: Option<Id>)
      modifies this
      ensures Value() == ForgetRun(old(Value()), run)
      ensures run.None? || old(currentRunId) == run ==> currentRunId == None
    {
      if run.None? || currentRunId == run {
        currentRunId := None;
      }
    }
  }
}
