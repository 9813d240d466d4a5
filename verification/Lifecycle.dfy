/** The lifecycle of orchestration sessions: started, run, stopped, continued, deleted and
    interrupted by a restart, with one runner per cycle.

    Every mutation of the store touches one session; what it makes of that session is its plan.
    The mutations of all sessions and their runners interleave in any order. */
module Lifecycle {
  import opened Wrappers
  import opened Sequences
  import opened Journal
  import Roster

  /** How a cycle ends. */
  datatype Ending = Completes | Fails | Stops

  /** What the engine reports of a cycle: how it ended, its own count of steps, and whether the
      supervisor declared it complete. */
  datatype Result = Result(ending: Ending, steps: nat, supervised: bool)

  /** The mutations. `refused` stands for the checks of a request outside this model; a step
      index is the session's own, counted across its cycles. */
  datatype Mutation =
    | Create(mode: Roster.Mode, maxSteps: nat)
    | Start(refused: bool)
    | Continue(refused: bool)
    | MarkRunning
    | RequestStop
    | ApplyHandoff
    | RecordDecision
    | Accept(run: Id, stepIndex: nat)
    | Complete(stepIndex: nat)
    | Fail(cancelled: bool)
    | FinishExecution(result: Result, aborted: bool, offset: nat)
    | FinishFailed
    | FinishStopped
    | Delete

  /** What a mutation makes of its session. */
  datatype Change =
    | Keep
    | Throw
    | Write(session: Session, kinds: seq<EventType>, turn: Option<Turn>)
    | Erase

  /** The first step index above all turns, and at least their number. */
  function NextIndex(turns: seq<Turn>): (r: nat)
    ensures r >= |turns| && forall t :: t in turns ==> t.stepIndex < r
  {
    if turns == [] then 0
    else
      assert turns == turns[..|turns| - 1] + [turns[|turns| - 1]];
      Max(|turns|, Max(NextIndex(turns[..|turns| - 1]), turns[|turns| - 1].stepIndex + 1))
  }

  function EndStatus(ending: Ending): Status {
    match ending
    case Completes => Completed
    case Fails => Failed
    case Stops => Stopped
  }

  function EndKind(ending: Ending): EventType {
    match ending
    case Completes => OrchestrationCompleted
    case Fails => OrchestrationFailed
    case Stops => OrchestrationStopped
  }

  /** How a reported result is taken: a stop wins over it, and a completion that the session's
      mode does not know is a failure. */
  function EndingOf(s: Session, r: Result, aborted: bool): Ending {
    if aborted || s.status == Stopping || r.ending.Stops? then Stops
    else if r.ending.Completes?
            && ((s.mode == Roster.RoundRobin && r.steps >= s.maxSteps)
               || (s.mode == Roster.Supervisor && !r.supervised))
    then Fails
    else r.ending
  }

  function Ended(s: Session, ending: Ending, stepIndex: nat): Change {
    Write(
      s.(status := EndStatus(ending), currentRunId := None,
         stepIndex := if ending.Completes? then Max(s.stepIndex, stepIndex) else s.stepIndex),
      [EndKind(ending)], None)
  }

  function Plan(session: Option<Session>, turns: seq<Turn>, id: Id, m: Mutation): Change {
    match session
    case None =>
      (match m
       case Create(mode, maxSteps) => Write(Session(Draft, None, 0, mode, maxSteps), [OrchestrationCreated], None)
       case ApplyHandoff => Keep
       case Complete(_) => Keep
       case Fail(_) => Keep
       case FinishExecution(_, _, _) => Keep
       case FinishFailed => Keep
       case FinishStopped => Keep
       case _ => Throw)
    case Some(s) => PlanFor(s, turns, id, m)
  }

  function PlanFor(s: Session, turns: seq<Turn>, id: Id, m: Mutation): Change {
    match m
    case Create(_, _) => Throw
    case Start(refused) =>
      if refused || s.status != Draft then Throw
      else Write(s.(status := Queued, currentRunId := None, stepIndex := 0), [OrchestrationStarted], None)
    case Continue(refused) =>
      if refused || !IsTerminal(s.status) then Throw
      else
        Write(
          s.(status := Queued, currentRunId := None, stepIndex := Max(s.stepIndex, NextIndex(turns))),
          [OrchestrationContinued], None)
    case MarkRunning =>
      if s.status != Queued && s.status != Running then Keep else Write(s.(status := Running), [], None)
    case RequestStop =>
      if IsTerminal(s.status) || s.status == Stopping then Keep
      else Write(s.(status := Stopping), [StopRequested], None)
    case ApplyHandoff => if IsTerminal(s.status) then Keep else Write(s, [HandoffApplied], None)
    case RecordDecision =>
      if IsTerminal(s.status) then Keep
      else if s.status == Stopping then Throw
      else Write(s, [SupervisorDecision], None)
    case Accept(run, stepIndex) =>
      if IsTerminal(s.status) then Keep
      else Write(s.(currentRunId := Some(run)), [ParticipantDispatched], Some(Turn(id, run, stepIndex)))
    case Complete(stepIndex) =>
      if IsTerminal(s.status) then Keep
      else Write(s.(currentRunId := None, stepIndex := Max(s.stepIndex, stepIndex + 1)), [RunCompleted], None)
    case Fail(cancelled) =>
      if IsTerminal(s.status) then Keep
      else Write(s.(currentRunId := None), (if cancelled then [ChildRunCancelled] else []) + [ParticipantFailed], None)
    case FinishExecution(result, aborted, offset) =>
      if IsTerminal(s.status) then Keep else Ended(s, EndingOf(s, result, aborted), offset + result.steps)
    case FinishFailed => if IsTerminal(s.status) then Keep else Ended(s, Fails, 0)
    case FinishStopped => if IsTerminal(s.status) then Keep else Ended(s, Stops, 0)
    case Delete => if IsActive(s.status) then Throw else Erase
  }

  predicate KnownRun(turns: seq<Turn>, run: Id) {
    exists t :: t in turns && t.runId == run
  }

  /** A turn is recorded once per run, whichever session the run belongs to. */
  function Push(turns: seq<Turn>, turn: Option<Turn>): seq<Turn> {
    if turn.None? || KnownRun(turns, turn.value.runId) then turns else turns + [turn.value]
  }

  function Apply(d: Data, id: Id, c: Change): Option<Data> {
    match c
    case Keep => Some(d)
    case Throw => None
    case Write(session, kinds, turn) =>
      AppendAll(Data(d.sessions[id := session], d.events, Push(d.turns, turn)), id, kinds)
    case Erase =>
      Some(Data(
        d.sessions - {id}, Filter((e: Event) => e.sessionId != id, d.events),
        Filter((t: Turn) => t.sessionId != id, d.turns)))
  }

  function SessionOf(d: Data, id: Id): Option<Session> {
    if id in d.sessions then Some(d.sessions[id]) else None
  }

  function Performed(d: Data, id: Id, m: Mutation): Option<Data> {
    Apply(d, id, Plan(SessionOf(d, id), TurnsOf(d.turns, id), id, m))
  }

  // ------------------------------------------------------------ one session at a time

  /** What a change makes of a session's own records, and that it touches no other's. */
  lemma WriteView(d: Data, id: Id, session: Session, kinds: seq<EventType>, turn: Option<Turn>)
    requires Numbered(EventsOf(d.events, id)) && (turn.Some? ==> turn.value.sessionId == id)
    ensures
      var next := Apply(d, id, Write(session, kinds, turn));
      && (next.None? <==> |EventsOf(d.events, id)| + |kinds| > MAX_EVENTS_PER_SESSION)
      && (next.Some? ==>
            && next.value.sessions == d.sessions[id := session]
            && EventsOf(next.value.events, id) == EventsOf(d.events, id) + Fresh(id, |EventsOf(d.events, id)|, kinds)
            && Numbered(EventsOf(next.value.events, id))
            && TurnsOf(next.value.turns, id) ==
               if turn.None? || KnownRun(d.turns, turn.value.runId) then TurnsOf(d.turns, id)
               else TurnsOf(d.turns, id) + [turn.value])
  {
    AppendAllView(Data(d.sessions[id := session], d.events, Push(d.turns, turn)), id, kinds);
    if turn.Some? {
      SnocTurns(d.turns, turn.value, id);
    }
    hide EventsOf, TurnsOf, Numbered, AppendAll, KnownRun, Fresh;
  }

  lemma WriteFrame(d: Data, id: Id, session: Session, kinds: seq<EventType>, turn: Option<Turn>, other: Id)
    requires other != id && (turn.Some? ==> turn.value.sessionId == id)
    requires Apply(d, id, Write(session, kinds, turn)).Some?
    ensures SameSession(d, Apply(d, id, Write(session, kinds, turn)).value, other)
  {
    AppendAllFrame(Data(d.sessions[id := session], d.events, Push(d.turns, turn)), id, kinds, other);
    AppendAllOnlyAppends(Data(d.sessions[id := session], d.events, Push(d.turns, turn)), id, kinds);
    if turn.Some? {
      SnocTurns(d.turns, turn.value, other);
    }
    hide EventsOf, TurnsOf, AppendAll, KnownRun;
  }

  predicate SameSession(a: Data, b: Data, id: Id) {
    && SessionOf(a, id) == SessionOf(b, id)
    && EventsOf(a.events, id) == EventsOf(b.events, id) && TurnsOf(a.turns, id) == TurnsOf(b.turns, id)
  }

  lemma EraseView(d: Data, id: Id, other: Id)
    ensures
      var next := Apply(d, id, Erase).value;
      if other == id then
        SessionOf(next, id) == None && EventsOf(next.events, id) == [] && TurnsOf(next.turns, id) == []
      else SameSession(d, next, other)
  {
    var keepEvent, keepTurn := (e: Event) => e.sessionId != id, (t: Turn) => t.sessionId != id;
    var ofEvent, ofTurn := (e: Event) => e.sessionId == other, (t: Turn) => t.sessionId == other;
    if other == id {
      forall e | e in Filter(keepEvent, d.events) ensures !ofEvent(e) {
        FilterMembers(keepEvent, d.events, e);
      }
      forall t | t in Filter(keepTurn, d.turns) ensures !ofTurn(t) {
        FilterMembers(keepTurn, d.turns, t);
      }
      FilterDropsAll(ofEvent, Filter(keepEvent, d.events));
      FilterDropsAll(ofTurn, Filter(keepTurn, d.turns));
    } else {
      FilterTwice(keepEvent, ofEvent, ofEvent, d.events);
      FilterTwice(keepTurn, ofTurn, ofTurn, d.turns);
    }
    hide Filter;
  }

  /** No mutation of one session touches the session, events or turns of another. */
  lemma MutationsAreFramed(d: Data, id: Id, m: Mutation, other: Id)
    requires other != id && Performed(d, id, m).Some?
    ensures SameSession(d, Performed(d, id, m).value, other)
  {
    var c := Plan(SessionOf(d, id), TurnsOf(d.turns, id), id, m);
    if c.Write? {
      WriteFrame(d, id, c.session, c.kinds, c.turn, other);
    } else if c.Erase? {
      EraseView(d, id, other);
    }
    hide EventsOf, TurnsOf, AppendAll, Filter;
  }

  // ------------------------------------------------------------ runners, stops and restarts

  /** Where a runner is with its current step: before its first mutation, before the dispatch,
      behind the note that a result was handed on, behind the accepted run, about to report a
      failure, or done with. */
  datatype Phase = Starting | Ready | Handed | Dispatched | Failing | Over

  /** A cycle in progress: the index its steps are counted from, how many it has completed, and
      how many it may. */
  datatype Runner = Runner(offset: nat, step: nat, budget: nat, phase: Phase)

  /** `seen` are the sessions that a stop request has found active, `used` the ids ever taken. */
  datatype State = State(d: Data, runners: map<Id, Runner>, seen: set<Id>, used: set<Id>)

  datatype Happening =
    | Perform(id: Id, mutation: Mutation, saved: bool)
    | SeeActive(id: Id)
    | RunnerEnds(id: Id)
    | Boot(order: seq<Id>)

  datatype View = View(
    session: Option<Session>, events: seq<Event>, turns: seq<Turn>, runner: Option<Runner>, seen: bool, used: bool)

  function ViewOf(s: State, id: Id): View {
    View(
      SessionOf(s.d, id), EventsOf(s.d.events, id), TurnsOf(s.d.turns, id),
      if id in s.runners then Some(s.runners[id]) else None, id in s.seen, id in s.used)
  }

  /** The runner stands before its next dispatch and has a step left. */
  predicate MayDispatch(r: Runner) {
    (r.phase == Ready || r.phase == Handed) && r.step < r.budget
  }

  /** Who may ask for a mutation: new ids are fresh; a cycle is continued when no runner of the
      session is left; hooks and results belong to the runner, come in the order of a step, and
      name it; a result is handed on once a step, behind a step of the same cycle. */
  predicate Enabled(m: Mutation, runner: Option<Runner>, seen: bool, used: bool) {
    match m
    case Create(_, _) => !used
    case Start(_) => true
    case Continue(_) => runner.None?
    case MarkRunning => runner.Some? && runner.value.phase == Starting
    case RequestStop => seen
    case ApplyHandoff =>
      runner.Some? && MayDispatch(runner.value) && runner.value.phase == Ready && runner.value.step > 0
    case RecordDecision => runner.Some? && runner.value.phase == Ready
    case Accept(_, i) => runner.Some? && MayDispatch(runner.value) && i == runner.value.offset + runner.value.step
    case Complete(i) => runner.Some? && runner.value.phase == Dispatched && i == runner.value.offset + runner.value.step
    case Fail(_) => runner.Some? && runner.value.phase != Starting && runner.value.phase != Over
    case FinishExecution(result, _, offset) =>
      runner.Some? && runner.value.phase != Starting
      && offset == runner.value.offset && result.steps == runner.value.step
    case FinishFailed => runner.Some?
    case FinishStopped => runner.Some? || seen
    case Delete => runner.None?
  }

  /** The runner after one of its mutations returned (`done`) or threw. */
  function NextRunner(runner: Option<Runner>, m: Mutation, session: Option<Session>, done: bool): Option<Runner> {
    match m
    case Start(_) => if done && session.Some? then Some(Runner(0, 0, session.value.maxSteps, Starting)) else runner
    case Continue(_) =>
      if done && session.Some? then Some(Runner(session.value.stepIndex, 0, session.value.maxSteps, Starting))
      else runner
    case _ => if runner.None? then None else Some(StepRunner(runner.value, m, session, done))
  }

  function StepRunner(r: Runner, m: Mutation, session: Option<Session>, done: bool): Runner {
    match m
    case MarkRunning =>
      r.(phase := if done && session.Some? && session.value.status == Running then Ready else Over)
    case ApplyHandoff => r.(phase := if done then Handed else Over)
    case Accept(_, _) => r.(phase := if done then Dispatched else Failing)
    case Complete(_) => if done then r.(step := r.step + 1, phase := Ready) else r.(phase := Failing)
    case Fail(_) => r.(phase := Over)
    case _ => r
  }

  function SetRunner(runners: map<Id, Runner>, id: Id, runner: Option<Runner>): map<Id, Runner> {
    if runner.Some? then runners[id := runner.value] else runners
  }

  function RunnerOf(s: State, id: Id): Option<Runner> {
    if id in s.runners then Some(s.runners[id]) else None
  }

  function PerformStep(s: State, id: Id, m: Mutation, saved: bool): State {
    if !Enabled(m, RunnerOf(s, id), id in s.seen, id in s.used) then s
    else
      var next := if saved then Performed(s.d, id, m) else None;
      var d := if next.Some? then next.value else s.d;
      State(
        d, SetRunner(s.runners, id, NextRunner(RunnerOf(s, id), m, SessionOf(d, id), next.Some?)), s.seen,
        if m.Create? then s.used + {id} else s.used)
  }

  function SeeActiveStep(s: State, id: Id): State {
    if id in s.d.sessions && IsActive(s.d.sessions[id].status) then s.(seen := s.seen + {id}) else s
  }

  /** A restart interrupts every active session, in the order of the array; it fails as a whole
      if one of their journals is full. */
  function Interrupt(d: Data, order: seq<Id>): Option<Data> {
    if order == [] then Some(d)
    else
      var before := Interrupt(d, order[..|order| - 1]);
      if before.None? then None else InterruptOne(before.value, order[|order| - 1])
  }

  function AfterRestart(s: Session): Session {
    s.(status := Interrupted, currentRunId := None)
  }

  function InterruptOne(d: Data, id: Id): Option<Data> {
    if id !in d.sessions || !IsActive(d.sessions[id].status) then Some(d)
    else
      Apply(d, id, Write(AfterRestart(d.sessions[id]), [OrchestrationInterrupted], None))
  }

  function BootStep(s: State, order: seq<Id>): State {
    if forall id :: id in s.d.sessions ==> id in order then
      (match Interrupt(s.d, order)
       case None => s.(runners := map[], seen := {})
       case Some(d) => State(d, map[], {}, s.used))
    else s
  }

  function Step(s: State, h: Happening): State {
    match h
    case Perform(id, m, saved) => PerformStep(s, id, m, saved)
    case SeeActive(id) => SeeActiveStep(s, id)
    case RunnerEnds(id) => s.(runners := s.runners - {id})
    case Boot(order) => BootStep(s, order)
  }

  function Run(s: State, happenings: seq<Happening>): State {
    if happenings == [] then s else Step(Run(s, happenings[..|happenings| - 1]), happenings[|happenings| - 1])
  }

  // ------------------------------------------------------------ the invariant of one session

  function Weight(kind: EventType): int {
    match kind
    case OrchestrationStarted => 1
    case OrchestrationContinued => 1
    case OrchestrationCompleted => -1
    case OrchestrationFailed => -1
    case OrchestrationStopped => -1
    case OrchestrationInterrupted => -1
    case _ => 0
  }

  /** Cycles begun minus cycles ended, by the journal. */
  function Account(events: seq<Event>): int {
    if events == [] then 0 else Account(events[..|events| - 1]) + Weight(events[|events| - 1].kind)
  }

  function TotalWeight(kinds: seq<EventType>): int {
    if kinds == [] then 0 else TotalWeight(kinds[..|kinds| - 1]) + Weight(kinds[|kinds| - 1])
  }

  lemma {:induction false} AccountAdds(events: seq<Event>, id: Id, n: nat, kinds: seq<EventType>)
    ensures Account(events + Fresh(id, n, kinds)) == Account(events) + TotalWeight(kinds)
  {
    if kinds == [] {
      assert events + Fresh(id, n, kinds) == events;
    } else {
      var k := |kinds| - 1;
      var all := events + Fresh(id, n, kinds);
      assert all[..|all| - 1] == events + Fresh(id, n, kinds[..k]);
      AccountAdds(events, id, n, kinds[..k]);
    }
  }

  predicate Increasing(turns: seq<Turn>) {
    forall i, j :: 0 <= i < j < |turns| ==> turns[i].stepIndex < turns[j].stepIndex
  }

  predicate Below(turns: seq<Turn>, bound: int) {
    forall t :: t in turns ==> t.stepIndex < bound
  }

  function Bound(r: Runner): int {
    r.offset + r.step + if r.phase == Starting || r.phase == Ready || r.phase == Handed then 0 else 1
  }

  /** What holds of a stored session and its journal. */
  predicate RecordOk(s: Session, account: int, turns: seq<Turn>) {
    && account == (if IsActive(s.status) then 1 else 0)
    && (s.status == Draft ==> turns == [] && s.stepIndex == 0 && s.currentRunId == None)
    && (IsTerminal(s.status) ==> s.currentRunId == None)
    && Increasing(turns)
  }

  predicate ViewOk(v: View) {
    && Numbered(v.events)
    && (v.session.None? ==> v.events == [] && v.turns == [] && v.runner.None?)
    && (!v.used ==> v.session.None? && !v.seen)
    && (v.session.Some? ==>
          && RecordOk(v.session.value, Account(v.events), v.turns)
          && (v.seen || v.runner.Some? ==> v.session.value.status != Draft)
          && (v.runner.Some? ==> Below(v.turns, Bound(v.runner.value))))
  }

  ghost predicate Inv(s: State) {
    forall id :: ViewOk(ViewOf(s, id))
  }

  function Active(session: Option<Session>): int {
    if session.Some? && IsActive(session.value.status) then 1 else 0
  }

  lemma WeightOfFew(a: EventType, b: EventType)
    ensures TotalWeight([]) == 0 && TotalWeight([a]) == Weight(a) && TotalWeight([a, b]) == Weight(a) + Weight(b)
  {
    assert [a][..0] == [] && [a, b][..1] == [a];
  }

  /** A mutation that begins or ends a cycle says so in the journal, and no other does. */
  lemma PlanBalances(session: Option<Session>, turns: seq<Turn>, id: Id, m: Mutation)
    requires Plan(session, turns, id, m).Write?
    requires session.Some? && session.value.status == Draft ==> m.Start?
    ensures
      var c := Plan(session, turns, id, m);
      Active(Some(c.session)) == Active(session) + TotalWeight(c.kinds)
  {
    hide TotalWeight, NextIndex;
    var c := Plan(session, turns, id, m);
    if |c.kinds| == 1 {
      WeightOfFew(c.kinds[0], c.kinds[0]);
      assert c.kinds == [c.kinds[0]];
    } else {
      WeightOfFew(ChildRunCancelled, ParticipantFailed);
      assert c.kinds == [] || c.kinds == [ChildRunCancelled, ParticipantFailed];
    }
  }

  /** What a plan does to the fields of the session, given who may ask for it. */
  lemma PlanKeepsRecord(
    session: Option<Session>, turns: seq<Turn>, id: Id, m: Mutation, account: int, runner: Option<Runner>, seen: bool,
    used: bool)
    requires Plan(session, turns, id, m).Write? && Enabled(m, runner, seen, used)
    requires session.Some? ==> RecordOk(session.value, account, turns)
    requires session.Some? && (seen || runner.Some?) ==> session.value.status != Draft
    requires session.None? ==> turns == [] && account == 0 && (used || !m.Create? || !seen)
    ensures
      var c := Plan(session, turns, id, m);
      && (c.turn.Some? ==> m.Accept? && c.turn.value == Turn(id, m.run, m.stepIndex))
      && (c.session.status == Draft ==> m.Create?)
      && (m.Create? ==> !used && c.session == Session(Draft, None, 0, m.mode, m.maxSteps))
      && (m.Create? <==> session.None?)
      && (m.Start? ==> session.Some? && session.value.status == Draft && turns == [])
      && (session.Some? && session.value.status == Draft ==> m.Start?)
      && (IsTerminal(c.session.status) || c.session.status == Draft ==> c.session.currentRunId == None)
  {
    hide NextIndex, Increasing;
  }

  /** The bound of a runner stays above all turns, and the turn it records is above all earlier ones. */
  lemma RunnerStaysAhead(
    turns: seq<Turn>, turn: Option<Turn>, m: Mutation, runner: Option<Runner>, session: Session, seen: bool, used: bool,
    before: Option<Session>, id: Id)
    requires Enabled(m, runner, seen, used) && Plan(before, turns, id, m).Write?
    requires session == Plan(before, turns, id, m).session && turn == Plan(before, turns, id, m).turn
    requires runner.Some? ==> Below(turns, Bound(runner.value))
    requires m.Start? || m.Create? ==> turns == []
    requires turn.Some? ==> m.Accept? && turn.value.stepIndex == m.stepIndex
    ensures
      var next := NextRunner(runner, m, Some(session), true);
      && (next.Some? ==> Below(turns, Bound(next.value)))
      && (m.Create? ==> next == runner)
      && (turn.Some? ==> next.Some? && turn.value.stepIndex < Bound(next.value) && Below(turns, turn.value.stepIndex))
  {
  }

  lemma PushKeepsIncreasing(turns: seq<Turn>, turn: Turn)
    requires Increasing(turns) && Below(turns, turn.stepIndex)
    ensures Increasing(turns + [turn])
  {
  }

  lemma PushKeepsBelow(turns: seq<Turn>, turn: Turn, bound: int)
    requires Below(turns, bound) && turn.stepIndex < bound
    ensures Below(turns + [turn], bound)
  {
  }

  /** The touched session's records after a mutation that writes. */
  lemma WriteKeeps(v: View, w: View, id: Id, m: Mutation, known: bool)
    requires ViewOk(v) && Enabled(m, v.runner, v.seen, v.used) && Plan(v.session, v.turns, id, m).Write?
    requires
      var c := Plan(v.session, v.turns, id, m);
      && w.session == Some(c.session)
      && w.events == v.events + Fresh(id, |v.events|, c.kinds) && Numbered(w.events)
      && w.turns == (if c.turn.None? || known then v.turns else v.turns + [c.turn.value])
      && w.runner == NextRunner(v.runner, m, w.session, true)
      && w.seen == v.seen && w.used == (v.used || m.Create?)
    ensures ViewOk(w)
  {
    hide Plan, Enabled, NextRunner, Numbered, IsTerminal, IsActive, Increasing, Below, Bound, Fresh, Account,
      TotalWeight;
    var c := Plan(v.session, v.turns, id, m);
    AccountAdds(v.events, id, |v.events|, c.kinds);
    AccountOfNone();
    PlanKeepsRecord(v.session, v.turns, id, m, Account(v.events), v.runner, v.seen, v.used);
    PlanBalances(v.session, v.turns, id, m);
    RunnerStaysAhead(v.turns, c.turn, m, v.runner, c.session, v.seen, v.used, v.session, id);
    if c.turn.Some? {
      PushKeepsIncreasing(v.turns, c.turn.value);
      PushKeepsBelow(v.turns, c.turn.value, Bound(w.runner.value));
    }
  }

  lemma AccountOfNone()
    ensures Account([]) == 0
    ensures Increasing([])
  {
  }

  /** A mutation that changes nothing leaves the runner no further back than the turns. */
  lemma KeepKeeps(v: View, w: View, id: Id, m: Mutation, done: bool)
    requires ViewOk(v) && Enabled(m, v.runner, v.seen, v.used)
    requires done ==> Plan(v.session, v.turns, id, m).Keep?
    requires w == v.(runner := NextRunner(v.runner, m, v.session, done), used := v.used || m.Create?)
    ensures ViewOk(w)
  {
    hide Numbered, Account, RecordOk, NextIndex;
  }

  lemma EraseKeeps(v: View, w: View, id: Id)
    requires ViewOk(v) && v.runner == None && Plan(v.session, v.turns, id, Delete).Erase?
    requires w == View(None, [], [], None, v.seen, v.used)
    ensures ViewOk(w)
  {
  }

  lemma PerformKeepsItsOwn(s: State, id: Id, m: Mutation, saved: bool)
    requires ViewOk(ViewOf(s, id)) && Enabled(m, RunnerOf(s, id), id in s.seen, id in s.used)
    ensures ViewOk(ViewOf(PerformStep(s, id, m, saved), id))
  {
    hide Plan, Enabled, NextRunner, ViewOk, EventsOf, TurnsOf, KnownRun, Numbered;
    var v, w := ViewOf(s, id), ViewOf(PerformStep(s, id, m, saved), id);
    NumberedOf(v);
    var c := Plan(v.session, v.turns, id, m);
    RunnerIsKept(v.runner, m, w.session, Performed(s.d, id, m).Some? && saved);
    if saved && Performed(s.d, id, m).Some? && c.Write? {
      PlannedTurn(v.session, v.turns, id, m);
      WriteView(s.d, id, c.session, c.kinds, c.turn);
      WriteKeeps(v, w, id, m, c.turn.Some? && KnownRun(s.d.turns, c.turn.value.runId));
    } else if saved && c.Erase? {
      PlannedErase(v.session, v.turns, id, m, v.runner, v.seen, v.used);
      EraseView(s.d, id, id);
      EraseKeeps(v, w, id);
    } else {
      KeepKeeps(v, w, id, m, saved && c.Keep?);
    }
  }

  lemma NumberedOf(v: View)
    requires ViewOk(v)
    ensures Numbered(v.events)
  {
  }

  lemma PlannedTurn(session: Option<Session>, turns: seq<Turn>, id: Id, m: Mutation)
    requires Plan(session, turns, id, m).Write?
    ensures Plan(session, turns, id, m).turn.Some? ==> Plan(session, turns, id, m).turn.value.sessionId == id
  {
    hide NextIndex;
  }

  lemma PlannedErase(
    session: Option<Session>, turns: seq<Turn>, id: Id, m: Mutation, runner: Option<Runner>, seen: bool, used: bool)
    requires Plan(session, turns, id, m).Erase? && Enabled(m, runner, seen, used)
    ensures m == Delete && runner == None && NextRunner(runner, m, None, true) == None
  {
    hide NextIndex;
  }

  /** A runner only goes by ending. */
  lemma RunnerIsKept(runner: Option<Runner>, m: Mutation, session: Option<Session>, done: bool)
    ensures NextRunner(runner, m, session, done).None? ==> runner.None?
  {
  }

  lemma PerformKeeps(s: State, id: Id, m: Mutation, saved: bool)
    requires Inv(s)
    ensures Inv(PerformStep(s, id, m, saved))
  {
    hide ViewOk, Enabled, Performed, NextRunner, EventsOf, TurnsOf;
    var t := PerformStep(s, id, m, saved);
    forall other
      ensures ViewOk(ViewOf(t, other))
    {
      assert ViewOk(ViewOf(s, other));
      if Enabled(m, RunnerOf(s, id), id in s.seen, id in s.used) {
        if other == id {
          PerformKeepsItsOwn(s, id, m, saved);
        } else if saved && Performed(s.d, id, m).Some? {
          MutationsAreFramed(s.d, id, m, other);
        }
      }
    }
  }

  lemma SeeActiveKeeps(s: State, id: Id)
    requires Inv(s)
    ensures Inv(SeeActiveStep(s, id))
  {
    hide RecordOk, Numbered, EventsOf, TurnsOf, Below, Account;
    forall other
      ensures ViewOk(ViewOf(SeeActiveStep(s, id), other))
    {
      assert ViewOk(ViewOf(s, other));
    }
  }

  lemma RunnerEndsKeeps(s: State, id: Id)
    requires Inv(s)
    ensures Inv(Step(s, RunnerEnds(id)))
  {
    hide RecordOk, Numbered, EventsOf, TurnsOf, Below, Account;
    forall other
      ensures ViewOk(ViewOf(Step(s, RunnerEnds(id)), other))
    {
      assert ViewOk(ViewOf(s, other));
    }
  }

  // ------------------------------------------------------------ a restart

  /** The records of a session, with no runner and no stop request about. */
  function Stored(d: Data, used: set<Id>, id: Id): View {
    View(SessionOf(d, id), EventsOf(d.events, id), TurnsOf(d.turns, id), None, false, id in used)
  }

  ghost predicate StoredOk(d: Data, used: set<Id>) {
    forall id :: ViewOk(Stored(d, used, id))
  }

  lemma InterruptedKeeps(v: View, w: View, id: Id)
    requires ViewOk(v) && v.session.Some? && IsActive(v.session.value.status) && v.runner == None && !v.seen
    requires w == v.(
      session := Some(AfterRestart(v.session.value)),
      events := v.events + Fresh(id, |v.events|, [OrchestrationInterrupted])) && Numbered(w.events)
    ensures ViewOk(w)
  {
    AccountAdds(v.events, id, |v.events|, [OrchestrationInterrupted]);
    WeightOfFew(OrchestrationInterrupted, OrchestrationInterrupted);
    hide Numbered, Account, TotalWeight, Fresh;
  }

  lemma InterruptOneKeeps(d: Data, used: set<Id>, id: Id)
    requires StoredOk(d, used) && InterruptOne(d, id).Some?
    ensures StoredOk(InterruptOne(d, id).value, used)
  {
    hide ViewOk, EventsOf, TurnsOf, Numbered, AppendAll;
    var next := InterruptOne(d, id).value;
    forall other
      ensures ViewOk(Stored(next, used, other))
    {
      assert ViewOk(Stored(d, used, other));
      if id in d.sessions && IsActive(d.sessions[id].status) {
        var session := AfterRestart(d.sessions[id]);
        if other == id {
          NumberedOf(Stored(d, used, id));
          WriteView(d, id, session, [OrchestrationInterrupted], None);
          InterruptedKeeps(Stored(d, used, id), Stored(next, used, id), id);
        } else {
          WriteFrame(d, id, session, [OrchestrationInterrupted], None, other);
        }
      }
    }
  }

  lemma {:induction false} InterruptKeeps(d: Data, used: set<Id>, order: seq<Id>)
    requires StoredOk(d, used) && Interrupt(d, order).Some?
    ensures StoredOk(Interrupt(d, order).value, used)
  {
    hide StoredOk, InterruptOne;
    if order != [] {
      InterruptKeeps(d, used, order[..|order| - 1]);
      InterruptOneKeeps(Interrupt(d, order[..|order| - 1]).value, used, order[|order| - 1]);
    }
  }

  lemma BootKeeps(s: State, order: seq<Id>)
    requires Inv(s)
    ensures Inv(BootStep(s, order))
  {
    hide RecordOk, Numbered, EventsOf, TurnsOf, Account, Interrupt;
    assert StoredOk(s.d, s.used) by {
      forall id ensures ViewOk(Stored(s.d, s.used, id)) {
        assert ViewOk(ViewOf(s, id));
      }
    }
    var t := BootStep(s, order);
    if Interrupt(s.d, order).Some? {
      InterruptKeeps(s.d, s.used, order);
    }
    forall id
      ensures ViewOk(ViewOf(t, id))
    {
      assert ViewOk(ViewOf(s, id));
      assert t.d == s.d || StoredOk(t.d, t.used);
      assert t.d != s.d ==> ViewOk(Stored(t.d, t.used, id));
    }
  }

  lemma StepKeeps(s: State, h: Happening)
    requires Inv(s)
    ensures Inv(Step(s, h))
  {
    hide Inv, PerformStep, SeeActiveStep, BootStep;
    match h
    case Perform(id, m, saved) => PerformKeeps(s, id, m, saved);
    case SeeActive(id) => SeeActiveKeeps(s, id);
    case RunnerEnds(id) => RunnerEndsKeeps(s, id);
    case Boot(order) => BootKeeps(s, order);
  }

  function Empty(): State {
    State(Data(map[], [], []), map[], {}, {})
  }

  lemma {:induction false} ReachableInv(happenings: seq<Happening>)
    ensures Inv(Run(Empty(), happenings))
  {
    hide Step;
    if happenings != [] {
      hide Inv;
      ReachableInv(happenings[..|happenings| - 1]);
      StepKeeps(Run(Empty(), happenings[..|happenings| - 1]), happenings[|happenings| - 1]);
    }
  }

  // ------------------------------------------------------------ what holds of every run

  /** In every reachable state the events of a session, in array order, carry 0, 1, 2, ... and
      are at most as many as the limit, whatever the other sessions did in between. */
  lemma JournalIsNumbered(happenings: seq<Happening>, id: Id)
    ensures Numbered(EventsOf(Run(Empty(), happenings).d.events, id))
  {
    hide Run, RecordOk, Numbered;
    ReachableInv(happenings);
    assert ViewOk(ViewOf(Run(Empty(), happenings), id));
  }

  /** In every reachable state a session has begun one cycle more than it has ended if it is
      active, and as many otherwise; only an active session names a current run; and a session
      that is gone has left no event or turn. */
  lemma CyclesAreAccounted(happenings: seq<Happening>, id: Id)
    ensures
      var d := Run(Empty(), happenings).d;
      if id in d.sessions then
        && Account(EventsOf(d.events, id)) == (if IsActive(d.sessions[id].status) then 1 else 0)
        && (!IsActive(d.sessions[id].status) ==> d.sessions[id].currentRunId == None)
      else EventsOf(d.events, id) == [] && TurnsOf(d.turns, id) == []
  {
    hide Run, Numbered, Account, EventsOf, TurnsOf, Below;
    ReachableInv(happenings);
    assert ViewOk(ViewOf(Run(Empty(), happenings), id));
  }

  /** Across all cycles the turns of a session have distinct step indexes that increase in the
      order of their creation. */
  lemma StepsAreGlobal(happenings: seq<Happening>, id: Id)
    ensures Increasing(TurnsOf(Run(Empty(), happenings).d.turns, id))
  {
    hide Run, Numbered, Account, EventsOf, TurnsOf, Below;
    ReachableInv(happenings);
    assert ViewOk(ViewOf(Run(Empty(), happenings), id));
    EmptyIsIncreasing();
    hide Increasing;
  }

  lemma EmptyIsIncreasing()
    ensures Increasing([])
  {
  }

  /** The lifecycle: which step takes a session from one status to another, if any does. */
  predicate MayMove(from: Status, to: Status, id: Id, h: Happening) {
    match from
    case Draft => to == Queued && h == Perform(id, Start(false), true)
    case Queued => (to == Running && h == Perform(id, MarkRunning, true)) || MayStop(to, id, h) || MayEnd(to, id, h)
    case Running => MayStop(to, id, h) || MayEnd(to, id, h)
    case Stopping => to != Completed && MayEnd(to, id, h)
    case _ => to == Queued && h == Perform(id, Continue(false), true)
  }

  predicate MayStop(to: Status, id: Id, h: Happening) {
    to == Stopping && h == Perform(id, RequestStop, true)
  }

  predicate MayEnd(to: Status, id: Id, h: Happening) {
    match to
    case Completed =>
      && h.Perform? && h.id == id && h.mutation.FinishExecution?
      && h.mutation.result.ending.Completes? && !h.mutation.aborted
    case Failed =>
      h.Perform? && h.id == id
      && (h.mutation.FinishFailed?
         || (h.mutation.FinishExecution? && !h.mutation.result.ending.Stops? && !h.mutation.aborted))
    case Stopped => h.Perform? && h.id == id && (h.mutation.FinishExecution? || h.mutation.FinishStopped?)
    case Interrupted => h.Boot?
    case _ => false
  }

  /** A session moves only along the lifecycle, keeps its mode and budget, and its step index
      never decreases; a round-robin session never completes at its ceiling. */
  predicate MayBecome(before: Session, after: Session, id: Id, h: Happening) {
    && before.stepIndex <= after.stepIndex
    && before.mode == after.mode && before.maxSteps == after.maxSteps
    && (before.status != after.status ==> MayMove(before.status, after.status, id, h))
    && (before.status != after.status && after.status == Completed ==>
          (before.mode == Roster.RoundRobin ==> h.mutation.result.steps < before.maxSteps)
          && (before.mode == Roster.Supervisor ==> h.mutation.result.supervised))
  }

  lemma PlanMayBecome(v: View, id: Id, m: Mutation)
    requires ViewOk(v) && Enabled(m, v.runner, v.seen, v.used) && v.session.Some?
    requires Plan(v.session, v.turns, id, m).Write?
    ensures MayBecome(v.session.value, Plan(v.session, v.turns, id, m).session, id, Perform(id, m, true))
  {
    hide NextIndex, Numbered, Account, Increasing, Below;
  }

  lemma {:induction false} InterruptSessions(d: Data, order: seq<Id>, id: Id)
    requires Interrupt(d, order).Some?
    ensures
      SessionOf(Interrupt(d, order).value, id) ==
      if id in d.sessions && IsActive(d.sessions[id].status) && id in order
      then Some(AfterRestart(d.sessions[id])) else SessionOf(d, id)
  {
    if order != [] {
      var n := |order| - 1;
      assert order == order[..n] + [order[n]];
      InterruptSessions(d, order[..n], id);
      InterruptOneSession(Interrupt(d, order[..n]).value, order[n], id);
    }
    hide InterruptOne;
  }

  lemma InterruptOneSession(d: Data, id: Id, other: Id)
    requires InterruptOne(d, id).Some?
    ensures
      SessionOf(InterruptOne(d, id).value, other) ==
      if other == id && id in d.sessions && IsActive(d.sessions[id].status)
      then Some(AfterRestart(d.sessions[id])) else SessionOf(d, other)
  {
    if id in d.sessions && IsActive(d.sessions[id].status) {
      var session := AfterRestart(d.sessions[id]);
      AppendAllOnlyAppends(Data(d.sessions[id := session], d.events, d.turns), id, [OrchestrationInterrupted]);
    }
    hide AppendAll, EventsOf;
  }

  /** In every run, with every interleaving, each session moves only along the lifecycle. */
  lemma SessionsMoveByTheRules(happenings: seq<Happening>, h: Happening, id: Id)
    ensures
      var s := Run(Empty(), happenings);
      var t := Step(s, h);
      id in s.d.sessions && id in t.d.sessions ==> MayBecome(s.d.sessions[id], t.d.sessions[id], id, h)
  {
    hide Run, ViewOk, Plan, Enabled, EventsOf, TurnsOf, MayBecome, Interrupt, KnownRun;
    ReachableInv(happenings);
    var s := Run(Empty(), happenings);
    assert ViewOk(ViewOf(s, id));
    if id in s.d.sessions {
      StayingIsAllowed(s.d.sessions[id], id, h);
      match h
      case Perform(other, m, saved) =>
        if saved && Enabled(m, RunnerOf(s, other), other in s.seen, other in s.used) && Performed(s.d, other, m).Some? {
          PerformedSession(s, other, m, id);
        }
      case Boot(order) =>
        if Interrupt(s.d, order).Some? {
          InterruptSessions(s.d, order, id);
          InterruptIsAllowed(s.d.sessions[id], id, h);
        }
      case _ =>
    }
  }

  lemma StayingIsAllowed(session: Session, id: Id, h: Happening)
    ensures MayBecome(session, session, id, h)
  {
  }

  lemma InterruptIsAllowed(session: Session, id: Id, h: Happening)
    requires h.Boot?
    ensures IsActive(session.status) ==> MayBecome(session, AfterRestart(session), id, h)
  {
  }

  lemma PerformedSession(s: State, id: Id, m: Mutation, other: Id)
    requires ViewOk(ViewOf(s, other)) && other in s.d.sessions
    requires Enabled(m, RunnerOf(s, id), id in s.seen, id in s.used) && Performed(s.d, id, m).Some?
    ensures
      var d := Performed(s.d, id, m).value;
      other in d.sessions ==> MayBecome(s.d.sessions[other], d.sessions[other], other, Perform(id, m, true))
  {
    hide Plan, Enabled, EventsOf, TurnsOf, MayBecome, KnownRun, ViewOk;
    StayingIsAllowed(s.d.sessions[other], other, Perform(id, m, true));
    var c := Plan(SessionOf(s.d, id), TurnsOf(s.d.turns, id), id, m);
    if other != id {
      MutationsAreFramed(s.d, id, m, other);
    } else if c.Write? {
      NumberedOf(ViewOf(s, id));
      PlannedTurn(SessionOf(s.d, id), TurnsOf(s.d.turns, id), id, m);
      WriteView(s.d, id, c.session, c.kinds, c.turn);
      PlanMayBecome(ViewOf(s, id), id, m);
    }
  }

  // ------------------------------------------------------------ when a restart fails

  lemma {:induction false} InterruptLeavesEvents(d: Data, order: seq<Id>, id: Id)
    requires Interrupt(d, order).Some? && id !in order
    ensures EventsOf(Interrupt(d, order).value.events, id) == EventsOf(d.events, id)
  {
    hide EventsOf;
    if order != [] {
      var n := |order| - 1;
      assert order == order[..n] + [order[n]];
      InterruptLeavesEvents(d, order[..n], id);
      var before := Interrupt(d, order[..n]).value;
      if order[n] in before.sessions && IsActive(before.sessions[order[n]].status) {
        WriteFrame(
          before, order[n], AfterRestart(before.sessions[order[n]]), [OrchestrationInterrupted],
          None, id);
      }
    }
  }

  /** An active session whose journal is full. */
  predicate Stuck(d: Data, id: Id) {
    id in d.sessions && IsActive(d.sessions[id].status) && |EventsOf(d.events, id)| >= MAX_EVENTS_PER_SESSION
  }

  predicate Unique(order: seq<Id>) {
    forall i, j :: 0 <= i < j < |order| ==> order[i] != order[j]
  }

  lemma InterruptOneFailsIff(d: Data, id: Id)
    ensures InterruptOne(d, id).None? <==> Stuck(d, id)
  {
    if id in d.sessions && IsActive(d.sessions[id].status) {
      var b := Data(d.sessions[id := AfterRestart(d.sessions[id])], d.events, d.turns);
      AppendOneOrTwo(b, id, OrchestrationInterrupted, OrchestrationInterrupted);
    }
    hide EventsOf, MaxSequence, AppendAll;
  }

  /** The restart fails as a whole if and only if some active session has a full journal. */
  lemma {:induction false} BootFailsIffAJournalIsFull(d: Data, order: seq<Id>)
    requires Unique(order)
    ensures Interrupt(d, order).None? <==> exists id :: id in order && Stuck(d, id)
  {
    hide EventsOf, InterruptOne;
    if order != [] {
      var n := |order| - 1;
      assert order == order[..n] + [order[n]];
      BootFailsIffAJournalIsFull(d, order[..n]);
      if Interrupt(d, order[..n]).Some? {
        LastIsNew(order);
        InterruptLeavesEvents(d, order[..n], order[n]);
        InterruptSessions(d, order[..n], order[n]);
        InterruptOneFailsIff(Interrupt(d, order[..n]).value, order[n]);
      }
      assert (exists id :: id in order && Stuck(d, id)) <==>
             (exists id :: id in order[..n] && Stuck(d, id)) || Stuck(d, order[n]) by {
        hide Stuck, Unique, Interrupt;
        LastOrEarlier(order);
      }
    }
  }

  lemma LastIsNew(order: seq<Id>)
    requires Unique(order) && order != []
    ensures order[|order| - 1] !in order[..|order| - 1]
  {
  }

  lemma LastOrEarlier(order: seq<Id>)
    requires order != []
    ensures forall id :: id in order <==> id in order[..|order| - 1] || id == order[|order| - 1]
  {
    assert order == order[..|order| - 1] + [order[|order| - 1]];
  }

  // ------------------------------------------------------------ a session that is stuck

  /** A restart over a stuck session fails, whatever the order. */
  lemma {:induction false} StuckFailsBoot(d: Data, order: seq<Id>, id: Id)
    requires Stuck(d, id) && id in order
    ensures Interrupt(d, order).None?
  {
    hide EventsOf, InterruptOne;
    var n := |order| - 1;
    assert order == order[..n] + [order[n]];
    if id in order[..n] {
      StuckFailsBoot(d, order[..n], id);
    } else if Interrupt(d, order[..n]).Some? {
      InterruptLeavesEvents(d, order[..n], id);
      InterruptSessions(d, order[..n], id);
      InterruptOneFailsIff(Interrupt(d, order[..n]).value, id);
    }
  }

  lemma FullJournalThrows(d: Data, id: Id, kinds: seq<EventType>)
    requires |EventsOf(d.events, id)| >= MAX_EVENTS_PER_SESSION && kinds != []
    ensures AppendAll(d, id, kinds).None?
  {
  }

  lemma StuckSurvivesMutation(d: Data, id: Id, m: Mutation)
    requires Stuck(d, id) && Performed(d, id, m).Some?
    ensures Stuck(Performed(d, id, m).value, id)
  {
    hide EventsOf, TurnsOf, NextIndex, KnownRun;
    var c := Plan(SessionOf(d, id), TurnsOf(d.turns, id), id, m);
    if c.Write? && c.kinds != [] {
      FullJournalThrows(Data(d.sessions[id := c.session], d.events, Push(d.turns, c.turn)), id, c.kinds);
    }
  }

  /** Nothing takes a session out of being stuck: no stop, no end of its cycle, no deletion, and no
      restart, since each of them would have to write an event or is refused while it is active. */
  lemma StuckStays(s: State, h: Happening, id: Id)
    requires Stuck(s.d, id)
    ensures Stuck(Step(s, h).d, id)
  {
    hide Stuck, Performed, Interrupt, Enabled, NextRunner;
    match h
    case Perform(other, m, saved) =>
      if saved && Performed(s.d, other, m).Some? {
        if other == id {
          StuckSurvivesMutation(s.d, id, m);
        } else {
          MutationsAreFramed(s.d, other, m, id);
          SameSessionStaysStuck(s.d, Performed(s.d, other, m).value, id);
        }
      }
    case Boot(order) =>
      StuckIsStored(s.d, id);
      if id in order {
        StuckFailsBoot(s.d, order, id);
      }
    case _ =>
  }

  lemma SameSessionStaysStuck(a: Data, b: Data, id: Id)
    requires SameSession(a, b, id) && Stuck(a, id)
    ensures Stuck(b, id)
  {
    hide EventsOf, TurnsOf;
  }

  lemma StuckIsStored(d: Data, id: Id)
    requires Stuck(d, id)
    ensures id in d.sessions
  {
  }

  /** So a stuck session stays so in every run, and no restart ever succeeds again. */
  lemma {:induction false} StuckForever(s: State, happenings: seq<Happening>, id: Id, order: seq<Id>)
    requires Stuck(s.d, id)
    ensures Stuck(Run(s, happenings).d, id)
    ensures id in order ==> Interrupt(Run(s, happenings).d, order).None?
  {
    hide Step, Stuck, Interrupt;
    if happenings != [] {
      StuckForever(s, happenings[..|happenings| - 1], id, order);
      StuckStays(Run(s, happenings[..|happenings| - 1]), happenings[|happenings| - 1], id);
    }
    if id in order {
      StuckFailsBoot(Run(s, happenings).d, order, id);
    }
  }

  lemma FreshCount(id: Id, n: nat, kinds: seq<EventType>, events: seq<Event>)
    ensures |events + Fresh(id, n, kinds)| == |events| + |kinds|
  {
  }

  lemma NoEvents(id: Id)
    ensures EventsOf([], id) == [] && Numbered([])
  {
  }

  // ------------------------------------------------------------ why cycles must not overlap

  /** Mutations of one session, one after the other, whoever asks for them. */
  function PerformAll(d: Data, id: Id, mutations: seq<Mutation>): Option<Data>
    decreases |mutations|
  {
    if mutations == [] then Some(d)
    else
      match Performed(d, id, mutations[0])
      case None => None
      case Some(next) => PerformAll(next, id, mutations[1..])
  }

  /** A session stopped before its runner began, continued while that runner is still there, and
      then the first dispatch of both runners. */
  function OverlappingCycles(mode: Roster.Mode, maxSteps: nat, a: Id, b: Id): seq<Mutation> {
    [Create(mode, maxSteps), Start(false), FinishStopped, Continue(false), Accept(a, 0), Accept(b, 0)]
  }

  /** A mutation that writes, in a journal with room for it. */
  lemma WriteHappens(d: Data, id: Id, m: Mutation)
    requires Numbered(EventsOf(d.events, id)) && |EventsOf(d.events, id)| + 2 <= MAX_EVENTS_PER_SESSION
    requires
      var c := Plan(SessionOf(d, id), TurnsOf(d.turns, id), id, m);
      c.Write? && |c.kinds| == 1
    ensures
      var c := Plan(SessionOf(d, id), TurnsOf(d.turns, id), id, m);
      var next := Performed(d, id, m);
      && next.Some? && SessionOf(next.value, id) == Some(c.session) && next.value.turns == Push(d.turns, c.turn)
      && Numbered(EventsOf(next.value.events, id))
      && |EventsOf(next.value.events, id)| == |EventsOf(d.events, id)| + 1
  {
    hide Plan, EventsOf, TurnsOf, AppendAll, Numbered, Fresh, KnownRun;
    var c := Plan(SessionOf(d, id), TurnsOf(d.turns, id), id, m);
    PlannedTurn(SessionOf(d, id), TurnsOf(d.turns, id), id, m);
    WriteView(d, id, c.session, c.kinds, c.turn);
    FreshCount(id, |EventsOf(d.events, id)|, c.kinds, EventsOf(d.events, id));
    AppendAllOnlyAppends(Data(d.sessions[id := c.session], d.events, Push(d.turns, c.turn)), id, c.kinds);
  }

  lemma PerformFirst(d: Data, id: Id, m: Mutation, rest: seq<Mutation>)
    requires Performed(d, id, m).Some?
    ensures PerformAll(d, id, [m] + rest) == PerformAll(Performed(d, id, m).value, id, rest)
  {
    assert ([m] + rest)[1..] == rest;
    hide Performed;
  }

  lemma NoTurns(id: Id)
    ensures TurnsOf([], id) == [] && NextIndex([]) == 0
  {
  }

  /** A session created, started, stopped and continued, and whatever comes then. */
  function StoppedThen(mode: Roster.Mode, maxSteps: nat, rest: seq<Mutation>): seq<Mutation> {
    [Create(mode, maxSteps)] + ([Start(false)] + ([FinishStopped] + ([Continue(false)] + rest)))
  }

  /** The first four mutations of an overlap leave a stopped session without turns; the
      continuation then counts from zero, as the first cycle does. */
  lemma StoppedAndContinued(id: Id, mode: Roster.Mode, maxSteps: nat) returns (d: Data)
    ensures
      && (forall rest :: PerformAll(Empty().d, id, StoppedThen(mode, maxSteps, rest)) == PerformAll(d, id, rest))
      && SessionOf(d, id) == Some(Session(Queued, None, 0, mode, maxSteps)) && d.turns == []
      && Numbered(EventsOf(d.events, id)) && |EventsOf(d.events, id)| == 4
  {
    hide EventsOf, TurnsOf, NextIndex, Performed, Numbered;
    NoEvents(id);
    NoTurns(id);
    d := Empty().d;
    WriteHappens(d, id, Create(mode, maxSteps));
    var d1 := Performed(d, id, Create(mode, maxSteps)).value;
    WriteHappens(d1, id, Start(false));
    var d2 := Performed(d1, id, Start(false)).value;
    WriteHappens(d2, id, FinishStopped);
    var d3 := Performed(d2, id, FinishStopped).value;
    WriteHappens(d3, id, Continue(false));
    d := Performed(d3, id, Continue(false)).value;
    forall rest: seq<Mutation>
      ensures PerformAll(Empty().d, id, StoppedThen(mode, maxSteps, rest)) == PerformAll(d, id, rest)
    {
      PerformFirst(Empty().d, id, Create(mode, maxSteps),
        [Start(false)] + ([FinishStopped] + ([Continue(false)] + rest)));
      PerformFirst(d1, id, Start(false), [FinishStopped] + ([Continue(false)] + rest));
      PerformFirst(d2, id, FinishStopped, [Continue(false)] + rest);
      PerformFirst(d3, id, Continue(false), rest);
      hide PerformAll;
    }
  }

  lemma BothAccept(d: Data, id: Id, a: Id, b: Id)
    requires a != b && SessionOf(d, id).Some? && SessionOf(d, id).value.status == Queued && d.turns == []
    requires Numbered(EventsOf(d.events, id)) && |EventsOf(d.events, id)| == 4
    ensures
      var next := PerformAll(d, id, [Accept(a, 0)] + [Accept(b, 0)]);
      next.Some? && next.value.turns == [Turn(id, a, 0), Turn(id, b, 0)]
  {
    hide EventsOf, TurnsOf, NextIndex, Performed, Numbered;
    WriteHappens(d, id, Accept(a, 0));
    var d1 := Performed(d, id, Accept(a, 0)).value;
    assert d1.turns == [Turn(id, a, 0)];
    WriteHappens(d1, id, Accept(b, 0));
    PerformFirst(d, id, Accept(a, 0), [Accept(b, 0)]);
    assert [Accept(b, 0)] + [] == [Accept(b, 0)];
    PerformFirst(d1, id, Accept(b, 0), []);
  }

  /** When two cycles of a session overlap their turns share a step index: the condition under
      which a cycle is continued is needed. */
  lemma OverlappingCyclesShareSteps(id: Id, mode: Roster.Mode, maxSteps: nat, a: Id, b: Id)
    requires a != b
    ensures
      var d := PerformAll(Empty().d, id, OverlappingCycles(mode, maxSteps, a, b));
      d.Some? && d.value.turns == [Turn(id, a, 0), Turn(id, b, 0)] && !Increasing(d.value.turns)
  {
    hide Performed, EventsOf, Numbered, PerformAll;
    var d := StoppedAndContinued(id, mode, maxSteps);
    BothAccept(d, id, a, b);
    assert OverlappingCycles(mode, maxSteps, a, b) ==
           StoppedThen(mode, maxSteps, [Accept(a, 0)] + [Accept(b, 0)]);
    var turns := [Turn(id, a, 0), Turn(id, b, 0)];
    assert turns[0].stepIndex == turns[1].stepIndex;
  }
}
