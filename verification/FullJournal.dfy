/** A run of one session that fills its journal while it is active. */
module FullJournal {
  import opened Wrappers
  import opened Journal
  import opened Lifecycle
  import Roster

  /** The schema's limit on the steps of a cycle. */
  const MAX_STEPS := 1000

  function DispatchBlock(id: Id, run: Id, stepIndex: nat): seq<Happening> {
    [Perform(id, Accept(run, stepIndex), true)] + [Perform(id, Complete(stepIndex), true)]
  }

  /** One step of a runner: what the step before said is handed on, a run is accepted and completes. */
  function StepBlock(id: Id, runs: nat -> Id, offset: nat, k: nat): seq<Happening> {
    (if k == 0 then [] else [Perform(id, ApplyHandoff, true)])
    + DispatchBlock(id, runs(offset + k), offset + k)
  }

  /** The first `k` steps of a cycle. */
  function StepBlocks(id: Id, runs: nat -> Id, offset: nat, k: nat): seq<Happening> {
    if k == 0 then [] else StepBlocks(id, runs, offset, k - 1) + StepBlock(id, runs, offset, k - 1)
  }

  /** A round-robin session is created and started, or continued for the `c`-th time. */
  function Opening(id: Id, c: nat): seq<Happening> {
    (if c == 0 then [Perform(id, Create(Roster.RoundRobin, MAX_STEPS), true)] + [Perform(id, Start(false), true)]
     else [Perform(id, Continue(false), true)])
    + [Perform(id, MarkRunning, true)]
  }

  /** The engine reports that the steps are used up, and the runner ends. */
  function Closing(id: Id, offset: nat): seq<Happening> {
    [Perform(id, FinishExecution(Result(Fails, MAX_STEPS, false), false, offset), true)] + [RunnerEnds(id)]
  }

  /** The first `c` cycles of the session, each over all its steps. */
  function Cycles(id: Id, runs: nat -> Id, c: nat): seq<Happening> {
    if c == 0 then []
    else
      Cycles(id, runs, c - 1) + Opening(id, c - 1) + StepBlocks(id, runs, (c - 1) * MAX_STEPS, MAX_STEPS)
      + Closing(id, (c - 1) * MAX_STEPS)
  }

  /** Three whole cycles and 332 steps of a fourth. */
  function FillingRun(id: Id, runs: nat -> Id): seq<Happening> {
    Cycles(id, runs, 3) + Opening(id, 3) + StepBlocks(id, runs, 3 * MAX_STEPS, 332)
  }

  /** The session is stored like this with `n` events. */
  ghost predicate Keeps(s: State, id: Id, session: Session, n: nat) {
    && Inv(s) && SessionOf(s.d, id) == Some(session)
    && Numbered(EventsOf(s.d.events, id)) && |EventsOf(s.d.events, id)| == n
  }

  ghost predicate Stands(s: State, id: Id, runner: Option<Runner>, session: Session, n: nat) {
    Keeps(s, id, session, n) && RunnerOf(s, id) == runner
  }

  lemma {:induction false} RunOn(s: State, happenings: seq<Happening>, more: seq<Happening>)
    ensures Run(s, happenings + more) == Run(Run(s, happenings), more)
  {
    hide Step;
    if more == [] {
      assert happenings + more == happenings;
    } else {
      var all := happenings + more;
      assert all[..|all| - 1] == happenings + more[..|more| - 1];
      RunOn(s, happenings, more[..|more| - 1]);
    }
  }

  lemma RunOne(s: State, h: Happening)
    ensures Run(s, [h]) == Step(s, h)
  {
    hide Step;
    assert [h][..0] == [];
  }

  /** An allowed mutation that writes takes place, in a journal with room for it. */
  lemma MutationHappens(
    s: State, id: Id, m: Mutation, runner: Option<Runner>, session: Session, next: Session, kinds: seq<EventType>,
    n: nat)
    requires Stands(s, id, runner, session, n) && Enabled(m, runner, id in s.seen, id in s.used)
    requires
      var c := Plan(Some(session), TurnsOf(s.d.turns, id), id, m);
      c.Write? && c.session == next && c.kinds == kinds
    requires n + |kinds| <= MAX_EVENTS_PER_SESSION
    ensures
      var t := Run(s, [Perform(id, m, true)]);
      && Stands(t, id, NextRunner(runner, m, Some(next), true), next, n + |kinds|)
      && (Plan(Some(session), TurnsOf(s.d.turns, id), id, m).turn == None ==>
            TurnsOf(t.d.turns, id) == TurnsOf(s.d.turns, id))
  {
    hide Run, Plan, Enabled, NextRunner, EventsOf, TurnsOf, AppendAll, Numbered, Fresh, KnownRun, Inv;
    RunOne(s, Perform(id, m, true));
    var c := Plan(Some(session), TurnsOf(s.d.turns, id), id, m);
    PlannedTurn(Some(session), TurnsOf(s.d.turns, id), id, m);
    WriteView(s.d, id, c.session, c.kinds, c.turn);
    FreshCount(id, n, kinds, EventsOf(s.d.events, id));
    PerformKeeps(s, id, m, true);
    RunnerIsKept(runner, m, Some(next), true);
  }

  /** A running session of this kind at some step. */
  function AtStep(stepIndex: nat, run: Option<Id>): Session {
    Session(Running, run, stepIndex, Roster.RoundRobin, MAX_STEPS)
  }

  function RunnerAt(offset: nat, k: nat, phase: Phase): Option<Runner> {
    Some(Runner(offset, k, MAX_STEPS, phase))
  }

  lemma DispatchHappens(s: State, id: Id, run: Id, offset: nat, k: nat, phase: Phase, n: nat)
    requires Stands(s, id, RunnerAt(offset, k, phase), AtStep(offset + k, None), n)
    requires k < MAX_STEPS && (phase == Ready || phase == Handed) && n + 2 <= MAX_EVENTS_PER_SESSION
    ensures
      Stands(Run(s, DispatchBlock(id, run, offset + k)), id, RunnerAt(offset, k + 1, Ready),
             AtStep(offset + k + 1, None), n + 2)
  {
    hide Run, Stands, NextIndex;
    var accept, complete := Perform(id, Accept(run, offset + k), true), Perform(id, Complete(offset + k), true);
    RunOn(s, [accept], [complete]);
    MutationHappens(
      s, id, Accept(run, offset + k), RunnerAt(offset, k, phase), AtStep(offset + k, None),
      AtStep(offset + k, Some(run)), [ParticipantDispatched], n);
    MutationHappens(
      Run(s, [accept]), id, Complete(offset + k), RunnerAt(offset, k, Dispatched), AtStep(offset + k, Some(run)),
      AtStep(offset + k + 1, None), [RunCompleted], n + 1);
  }

  lemma HandoffHappens(s: State, id: Id, offset: nat, k: nat, n: nat)
    requires Stands(s, id, RunnerAt(offset, k, Ready), AtStep(offset + k, None), n)
    requires 0 < k < MAX_STEPS && n < MAX_EVENTS_PER_SESSION
    ensures Stands(Run(s, [Perform(id, ApplyHandoff, true)]), id, RunnerAt(offset, k, Handed),
                   AtStep(offset + k, None), n + 1)
  {
    hide Run, Stands, NextIndex;
    MutationHappens(
      s, id, ApplyHandoff, RunnerAt(offset, k, Ready), AtStep(offset + k, None), AtStep(offset + k, None),
      [HandoffApplied], n);
  }

  /** How many events the first `k` steps of a cycle write. */
  function EventsOfSteps(k: nat): nat {
    if k == 0 then 0 else 3 * k - 1
  }

  lemma {:induction false} StepsHappen(s: State, id: Id, runs: nat -> Id, offset: nat, k: nat, n: nat)
    requires Stands(s, id, RunnerAt(offset, 0, Ready), AtStep(offset, None), n)
    requires k <= MAX_STEPS && n + EventsOfSteps(k) <= MAX_EVENTS_PER_SESSION
    ensures Stands(Run(s, StepBlocks(id, runs, offset, k)), id, RunnerAt(offset, k, Ready), AtStep(offset + k, None),
                   n + EventsOfSteps(k))
  {
    hide Run, Stands, RunnerAt, AtStep;
    if k == 0 {
      NothingHappens(s);
    } else {
      var j := k - 1;
      var before := StepBlocks(id, runs, offset, j);
      StepsHappen(s, id, runs, offset, j, n);
      RunOn(s, before, StepBlock(id, runs, offset, j));
      var t := Run(s, before);
      var m := n + EventsOfSteps(j);
      var block := DispatchBlock(id, runs(offset + j), offset + j);
      if j == 0 {
        assert [] + block == block;
        DispatchHappens(t, id, runs(offset + j), offset, j, Ready, m);
      } else {
        HandoffHappens(t, id, offset, j, m);
        RunOn(t, [Perform(id, ApplyHandoff, true)], block);
        DispatchHappens(Run(t, [Perform(id, ApplyHandoff, true)]), id, runs(offset + j), offset, j, Handed, m + 1);
      }
    }
  }

  lemma NothingHappens(s: State)
    ensures Run(s, []) == s
  {
  }

  /** A session whose cycles have all failed for want of steps. */
  function Spent(c: nat): Session {
    Session(Failed, None, c * MAX_STEPS, Roster.RoundRobin, MAX_STEPS)
  }

  lemma {:induction false} NextIndexIsBounded(turns: seq<Turn>, bound: nat)
    requires Below(turns, bound) && Increasing(turns)
    ensures NextIndex(turns) <= bound
  {
    if turns != [] {
      var n := |turns| - 1;
      assert turns[n] in turns;
      NextIndexIsBounded(turns[..n], turns[n].stepIndex);
    }
  }

  /** The indexes of the turns of a session are below the sum of its steps. */
  lemma TurnsAreBelow(s: State, id: Id, runner: Runner, session: Session, n: nat)
    requires Stands(s, id, Some(runner), session, n) && runner.phase == Ready
    ensures Below(TurnsOf(s.d.turns, id), runner.offset + runner.step) && Increasing(TurnsOf(s.d.turns, id))
  {
    hide EventsOf, TurnsOf, Numbered, Account, Below, Increasing;
    assert ViewOk(ViewOf(s, id));
  }

  /** The session stands behind `c` whole cycles. */
  ghost predicate Behind(s: State, id: Id, c: nat) {
    && Stands(s, id, None, Spent(c), 1 + 3001 * c)
    && Below(TurnsOf(s.d.turns, id), c * MAX_STEPS) && Increasing(TurnsOf(s.d.turns, id))
  }

  /** How many events are there when the steps of cycle `c` begin. */
  function EventsBefore(c: nat): nat {
    2 + 3001 * c
  }

  lemma QueuedRuns(s: State, id: Id, offset: nat, n: nat)
    requires Stands(s, id, RunnerAt(offset, 0, Starting), AtStep(offset, None).(status := Queued), n)
    requires n <= MAX_EVENTS_PER_SESSION
    ensures Stands(Run(s, [Perform(id, MarkRunning, true)]), id, RunnerAt(offset, 0, Ready), AtStep(offset, None), n)
  {
    hide Run, Stands, NextIndex;
    MutationHappens(
      s, id, MarkRunning, RunnerAt(offset, 0, Starting), AtStep(offset, None).(status := Queued),
      AtStep(offset, None), [], n);
  }

  lemma CreateHappens(id: Id)
    ensures
      var s := Run(Empty(), [Perform(id, Create(Roster.RoundRobin, MAX_STEPS), true)]);
      Stands(s, id, None, Session(Draft, None, 0, Roster.RoundRobin, MAX_STEPS), 1)
  {
    hide EventsOf, TurnsOf, NextIndex, AppendAll, Numbered, Fresh, Inv, Run;
    var create := Perform(id, Create(Roster.RoundRobin, MAX_STEPS), true);
    RunOne(Empty(), create);
    ReachableInv([create]);
    NoEvents(id);
    WriteView(
      Empty().d, id, Session(Draft, None, 0, Roster.RoundRobin, MAX_STEPS), [OrchestrationCreated], None);
    FreshCount(id, 0, [OrchestrationCreated], []);
  }

  lemma FirstCycleOpens(id: Id)
    ensures Stands(Run(Empty(), Opening(id, 0)), id, RunnerAt(0, 0, Ready), AtStep(0, None), EventsBefore(0))
  {
    hide Run, Stands, NextIndex;
    var create, start := Perform(id, Create(Roster.RoundRobin, MAX_STEPS), true), Perform(id, Start(false), true);
    RunOn(Empty(), [create] + [start], [Perform(id, MarkRunning, true)]);
    RunOn(Empty(), [create], [start]);
    CreateHappens(id);
    MutationHappens(
      Run(Empty(), [create]), id, Start(false), None, Session(Draft, None, 0, Roster.RoundRobin, MAX_STEPS),
      AtStep(0, None).(status := Queued), [OrchestrationStarted], 1);
    QueuedRuns(Run(Empty(), [create] + [start]), id, 0, 2);
  }

  lemma NextCycleOpens(s: State, id: Id, c: nat)
    requires Behind(s, id, c) && 0 < c <= 3
    ensures Stands(Run(s, Opening(id, c)), id, RunnerAt(c * MAX_STEPS, 0, Ready), AtStep(c * MAX_STEPS, None),
                   EventsBefore(c))
  {
    hide Run, Stands, NextIndex, Below, Increasing;
    NextIndexIsBounded(TurnsOf(s.d.turns, id), c * MAX_STEPS);
    RunOn(s, [Perform(id, Continue(false), true)], [Perform(id, MarkRunning, true)]);
    MutationHappens(
      s, id, Continue(false), None, Spent(c), AtStep(c * MAX_STEPS, None).(status := Queued), [OrchestrationContinued],
      1 + 3001 * c);
    QueuedRuns(Run(s, [Perform(id, Continue(false), true)]), id, c * MAX_STEPS, EventsBefore(c));
  }

  lemma CycleCloses(s: State, id: Id, c: nat)
    requires c < 3
    requires Stands(s, id, RunnerAt(c * MAX_STEPS, MAX_STEPS, Ready), AtStep((c + 1) * MAX_STEPS, None),
                    EventsBefore(c) + EventsOfSteps(MAX_STEPS))
    ensures Behind(Run(s, Closing(id, c * MAX_STEPS)), id, c + 1)
  {
    hide Run, Stands, NextIndex, Below, Increasing;
    var finish := FinishExecution(Result(Fails, MAX_STEPS, false), false, c * MAX_STEPS);
    RunOn(s, [Perform(id, finish, true)], [RunnerEnds(id)]);
    TurnsAreBelow(
      s, id, RunnerAt(c * MAX_STEPS, MAX_STEPS, Ready).value, AtStep((c + 1) * MAX_STEPS, None),
      EventsBefore(c) + EventsOfSteps(MAX_STEPS));
    MutationHappens(
      s, id, finish, RunnerAt(c * MAX_STEPS, MAX_STEPS, Ready), AtStep((c + 1) * MAX_STEPS, None), Spent(c + 1),
      [OrchestrationFailed], EventsBefore(c) + EventsOfSteps(MAX_STEPS));
    RunnerLeaves(
      Run(s, [Perform(id, finish, true)]), id, RunnerAt(c * MAX_STEPS, MAX_STEPS, Ready), Spent(c + 1),
      1 + 3001 * (c + 1));
  }

  lemma RunnerLeaves(s: State, id: Id, runner: Option<Runner>, session: Session, n: nat)
    requires Stands(s, id, runner, session, n)
    ensures Stands(Run(s, [RunnerEnds(id)]), id, None, session, n)
    ensures Run(s, [RunnerEnds(id)]).d == s.d
  {
    hide Run, Inv, EventsOf, Numbered;
    RunOne(s, RunnerEnds(id));
    RunnerEndsKeeps(s, id);
  }

  lemma {:induction false} CyclesHappen(id: Id, runs: nat -> Id, c: nat)
    requires 0 < c <= 3
    ensures Behind(Run(Empty(), Cycles(id, runs, c)), id, c)
  {
    hide Run, Stands, Behind, Opening, StepBlocks, Closing;
    var b := c - 1;
    var s := Run(Empty(), Cycles(id, runs, b));
    RunOn(Empty(), Cycles(id, runs, b) + Opening(id, b) + StepBlocks(id, runs, b * MAX_STEPS, MAX_STEPS),
          Closing(id, b * MAX_STEPS));
    RunOn(Empty(), Cycles(id, runs, b) + Opening(id, b), StepBlocks(id, runs, b * MAX_STEPS, MAX_STEPS));
    RunOn(Empty(), Cycles(id, runs, b), Opening(id, b));
    if b == 0 {
      NothingHappens(Empty());
      FirstCycleOpens(id);
    } else {
      CyclesHappen(id, runs, b);
      NextCycleOpens(s, id, b);
    }
    var begun := Run(s, Opening(id, b));
    StepsHappen(begun, id, runs, b * MAX_STEPS, MAX_STEPS, EventsBefore(b));
    CycleCloses(Run(begun, StepBlocks(id, runs, b * MAX_STEPS, MAX_STEPS)), id, b);
  }

  /** The session of the filling run is running with a full journal. Each of its cycles dispatches
      in turn, hands on every result but the first, and stays within its steps. */
  lemma JournalFills(id: Id, runs: nat -> Id)
    ensures Stuck(Run(Empty(), FillingRun(id, runs)).d, id)
  {
    hide Run, Stands, Behind, Cycles, Opening, StepBlocks;
    var s := Run(Empty(), Cycles(id, runs, 3));
    RunOn(Empty(), Cycles(id, runs, 3) + Opening(id, 3), StepBlocks(id, runs, 3 * MAX_STEPS, 332));
    RunOn(Empty(), Cycles(id, runs, 3), Opening(id, 3));
    CyclesHappen(id, runs, 3);
    NextCycleOpens(s, id, 3);
    StepsHappen(Run(s, Opening(id, 3)), id, runs, 3 * MAX_STEPS, 332, EventsBefore(3));
    StandingIsStuck(Run(Empty(), FillingRun(id, runs)), id, RunnerAt(3 * MAX_STEPS, 332, Ready), AtStep(3332, None));
  }

  lemma StandingIsStuck(s: State, id: Id, runner: Option<Runner>, session: Session)
    requires Stands(s, id, runner, session, MAX_EVENTS_PER_SESSION) && IsActive(session.status)
    ensures Stuck(s.d, id)
  {
    hide EventsOf, Inv;
  }
}
