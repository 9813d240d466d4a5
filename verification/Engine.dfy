/** The graph loop: one node that dispatches the next participant, run until the state is no
    longer running. */
module Engine {
  import opened Wrappers
  import opened Text
  import opened Roster

  datatype ErrorCode =
    | MaxStepsExceeded | InvalidInput | InvalidOutput | OrchestrationStopped | SupervisorUnavailable
    | Reported(code: string)

  datatype GraphTurn = GraphTurn(
    participantId: string, agentId: string, runId: string, position: int, output: string, outputTruncated: bool)

  datatype GraphState = GraphState(
    participants: seq<Participant>, mode: Mode, rosterExhausted: bool, stepIndex: nat, maxSteps: nat,
    lastRunId: Option<string>, lastOutput: Option<string>, turns: seq<GraphTurn>, status: Status,
    errorCode: Option<ErrorCode>)

  /** How a dispatch is classified when it goes wrong: failed, or stopped by an abort. */
  datatype Failure = Failure(stopped: bool, code: ErrorCode)

  /** What the environment does with one execution of the node. */
  datatype Attempt =
    | AbortedBefore                         // the signal is already aborted when the node starts
    | Refused(failure: Failure)             // the hook before dispatch throws; nothing is invoked
    | Fails(failure: Failure)               // the invocation, or a hook around it, throws or is aborted
    | Throws(invoked: bool)                 // a hook outside every handler throws: the graph rejects
    | Returns(runId: string, output: string, kept: string, keptTruncated: bool)

  datatype NodeResult = NodeResult(state: GraphState, invoked: Option<Participant>, rejected: bool)

  function TerminalUpdate(s: GraphState, reason: EndReason): GraphState {
    match reason
    case RosterExhausted => s.(status := Completed, errorCode := None, rosterExhausted := true)
    case MaxStepsReached => s.(status := Failed, errorCode := Some(MaxStepsExceeded))
    case TerminalState => s
    case InvalidState => s.(status := Failed, errorCode := Some(InvalidInput))
    case InvalidRoster => s.(status := Failed, errorCode := Some(InvalidInput))
  }

  function Fail(s: GraphState, failure: Failure): GraphState {
    s.(status := if failure.stopped then Stopped else Failed, errorCode := Some(failure.code))
  }

  function InvokeAgentNode(s: GraphState, a: Attempt): NodeResult {
    if s.status != Running then NodeResult(s, None, false)
    else if a.AbortedBefore? then NodeResult(Fail(s, Failure(true, OrchestrationStopped)), None, false)
    else if s.mode == Supervisor then NodeResult(Fail(s, Failure(false, SupervisorUnavailable)), None, false)
    else if s.stepIndex >= s.maxSteps then
      NodeResult(
        TerminalUpdate(
          s, if s.mode == Sequential && s.stepIndex >= |s.participants| then RosterExhausted else MaxStepsReached),
        None, false)
    else if |s.turns| > s.maxSteps then NodeResult(Fail(s, Failure(false, InvalidInput)), None, false)
    else
      match AdvanceSequence(s.participants, s.stepIndex, s.maxSteps, Some(s.mode), Some(s.status))
      case End(reason) => NodeResult(TerminalUpdate(s, reason), None, false)
      case Invoke(p, _) => Dispatch(s, p, a)
  }

  function Dispatch(s: GraphState, p: Participant, a: Attempt): NodeResult
    requires !a.AbortedBefore?
  {
    match a
    case Refused(failure) => NodeResult(Fail(s, failure), None, false)
    case Throws(invoked) => NodeResult(s, if invoked then Some(p) else None, true)
    case Fails(failure) => NodeResult(Fail(s, failure), Some(p), false)
    case Returns(runId, output, _, _) =>
      if Trim(output) == "" || Trim(runId) == "" then NodeResult(Fail(s, Failure(false, InvalidOutput)), Some(p), false)
      else NodeResult(AfterTurn(s, TurnOf(p, a)), Some(p), false)
  }

  function TurnOf(p: Participant, a: Attempt): GraphTurn
    requires a.Returns?
  {
    GraphTurn(p.id, p.agentId, a.runId, p.position, a.kept, a.keptTruncated)
  }

  function AfterTurn(s: GraphState, turn: GraphTurn): GraphState {
    var next := s.(
      stepIndex := s.stepIndex + 1, lastRunId := Some(turn.runId), lastOutput := Some(turn.output),
      turns := s.turns + [turn]);
    match AdvanceSequence(s.participants, s.stepIndex + 1, s.maxSteps, Some(s.mode), Some(Running))
    case Invoke(_, _) => next
    case End(reason) => TerminalUpdate(next, reason)
  }

  function RecursionLimit(maxSteps: int): int {
    (if maxSteps > 0 then maxSteps else 1) * 2 + 4
  }

  // ------------------------------------------------------------ what a run must come to

  /** Who is to be dispatched, in order, if nothing goes wrong. */
  function Plan(participants: seq<Participant>, mode: Mode, maxSteps: nat): seq<Participant>
    requires ValidRoster(participants) && mode != Supervisor
  {
    var roster := SortByPosition(participants);
    SortKeepsLength(participants);
    if mode == RoundRobin then Rounds(roster, maxSteps)
    else if |roster| <= maxSteps then roster else roster[..maxSteps]
  }

  /** A plan names participants of the request only. In sequential mode step `k` is for the one
      with exactly `k` smaller positions, in round-robin mode for the one with `k` modulo the
      size of the roster; and it is as long as the steps, or in sequential mode the roster,
      allow. */
  lemma PlanIs(participants: seq<Participant>, mode: Mode, maxSteps: nat)
    requires ValidRoster(participants) && mode != Supervisor
    ensures
      var plan := Plan(participants, mode, maxSteps);
      && |plan| == (if mode == Sequential && |participants| < maxSteps then |participants| else maxSteps)
      && forall k :: 0 <= k < |plan| ==>
           && plan[k] in participants
           && |Smaller(participants, plan[k].position)| ==
              if mode == Sequential then k else k % |participants|
  {
    hide IsParticipant, SortByPosition, Smaller, Distinct;
    var plan := Plan(participants, mode, maxSteps);
    SortKeepsLength(participants);
    forall k | 0 <= k < |plan|
      ensures plan[k] in participants
      ensures |Smaller(participants, plan[k].position)| ==
              if mode == Sequential then k else k % |participants|
    {
      PlaceIsRank(participants, if mode == Sequential then k else k % |participants|);
    }
  }

  lemma SortKeepsLength(participants: seq<Participant>)
    ensures |SortByPosition(participants)| == |participants|
  {
    assert |multiset(SortByPosition(participants))| == |multiset(participants)|;
  }

  /** The attempt returns usable output. */
  predicate Good(a: Attempt)
    ensures Good(a) ==> a.Returns?
  {
    a.Returns? && Trim(a.output) != "" && Trim(a.runId) != ""
  }

  /** Usable output: the participant has said something, in a run that has an id. */
  lemma GoodIff(a: Attempt)
    ensures Good(a) <==> a.Returns? && HasText(a.output) && HasText(a.runId)
  {
    hide Trim, HasText;
    if a.Returns? {
      TrimmedToNothingIff(a.output);
      TrimmedToNothingIff(a.runId);
    }
  }

  /** The first step from `k` on whose attempt is not good, or `bound`. */
  function FirstBad(attempts: nat -> Attempt, k: nat, bound: nat): (r: nat)
    requires k <= bound
    ensures k <= r <= bound
    ensures r < bound ==> !Good(attempts(r))
    decreases bound - k
  {
    hide Good;
    if k == bound || !Good(attempts(k)) then k else FirstBad(attempts, k + 1, bound)
  }

  lemma {:induction false} FirstBadIsFirst(attempts: nat -> Attempt, k: nat, bound: nat, i: nat)
    requires k <= bound && k <= i < FirstBad(attempts, k, bound)
    ensures Good(attempts(i))
    decreases bound - k
  {
    hide Good;
    if i > k {
      FirstBadIsFirst(attempts, k + 1, bound, i);
    }
  }

  /** The attempt reaches the invoker. */
  predicate Invokes(a: Attempt) {
    a.Returns? || a.Fails? || (a.Throws? && a.invoked)
  }

  /** How a run ends at an attempt that is not good. */
  ghost predicate EndsBadly(s: GraphState, rejected: bool, a: Attempt) {
    match a
    case AbortedBefore => !rejected && s.status == Stopped && s.errorCode == Some(OrchestrationStopped)
    case Refused(f) => !rejected && s.status == (if f.stopped then Stopped else Failed) && s.errorCode == Some(f.code)
    case Fails(f) => !rejected && s.status == (if f.stopped then Stopped else Failed) && s.errorCode == Some(f.code)
    case Throws(_) => rejected
    case Returns(_, _, _, _) => !rejected && s.status == Failed && s.errorCode == Some(InvalidOutput)
  }

  /** How a run ends when the whole plan was dispatched. */
  ghost predicate EndsWithPlan(s: GraphState, input: GraphState) {
    if s.mode == Sequential && |s.participants| <= s.maxSteps
    then s.status == Completed && s.rosterExhausted && s.errorCode == None
    else s.status == Failed && s.rosterExhausted == input.rosterExhausted && s.errorCode == Some(MaxStepsExceeded)
  }

  /** How a run ends whose turns, those it was given included, have become too many. */
  ghost predicate EndsOverfull(s: GraphState, a: Attempt) {
    if a.AbortedBefore? then s.status == Stopped && s.errorCode == Some(OrchestrationStopped)
    else s.status == Failed && s.errorCode == Some(InvalidInput)
  }

  ghost predicate SameRequest(s: GraphState, t: GraphState) {
    s.participants == t.participants && s.mode == t.mode && s.maxSteps == t.maxSteps
  }

  /** The request has a plan, and the run it is to go on with has a step of it left. */
  ghost predicate Opens(input: GraphState) {
    && input.status == Running && input.mode != Supervisor && |input.turns| <= input.maxSteps
    && ValidRoster(input.participants)
    && input.stepIndex < |Plan(input.participants, input.mode, input.maxSteps)|
  }

  /** The step at which a run ends if every attempt is good: behind its plan, or when it has one
      turn too many. A run that is given as many turns as steps ends behind its plan. */
  function Horizon(input: GraphState, plan: seq<Participant>): int {
    Min(|plan|, input.maxSteps + 1 + input.stepIndex - |input.turns|)
  }

  ghost predicate SameProgress(s: GraphState, t: GraphState) {
    && s.stepIndex == t.stepIndex && s.turns == t.turns
    && s.lastRunId == t.lastRunId && s.lastOutput == t.lastOutput
  }

  /** The dispatches and turns of a run that was given `input` and has come to step `k`. */
  ghost predicate Follows(
    s: GraphState, invoked: seq<Participant>, input: GraphState, attempts: nat -> Attempt, plan: seq<Participant>,
    k: nat)
  {
    var b := input.stepIndex;
    && b <= k <= |plan| && s.stepIndex == k && |s.turns| == |input.turns| + (k - b) && input.turns <= s.turns
    && |invoked| >= k - b && invoked[..k - b] == plan[b..k]
    && (forall i :: b <= i < k ==> attempts(i).Returns?)
    && (forall i :: b <= i < k ==>
          s.turns[|input.turns| + (i - b)] ==
          GraphTurn(plan[i].id, plan[i].agentId, attempts(i).runId, plan[i].position, attempts(i).kept,
                    attempts(i).keptTruncated))
    && s.lastRunId == (if k == b then input.lastRunId else Some(attempts(k - 1).runId))
    && s.lastOutput == if k == b then input.lastOutput else Some(attempts(k - 1).kept)
  }

  /** What a request comes to that has nobody to dispatch. */
  ghost predicate RefusedAs(s: GraphState, input: GraphState, a: Attempt) {
    if input.status != Running then s == input
    else if a.AbortedBefore? then s == input.(status := Stopped, errorCode := Some(OrchestrationStopped))
    else if input.mode == Supervisor then s == input.(status := Failed, errorCode := Some(SupervisorUnavailable))
    else if input.stepIndex < input.maxSteps
            && (|input.turns| > input.maxSteps || !ValidRoster(input.participants)) then
      s == input.(status := Failed, errorCode := Some(InvalidInput))
    else if input.mode == Sequential && input.stepIndex >= |input.participants| then
      s == input.(status := Completed, errorCode := None, rosterExhausted := true)
    else s == input.(status := Failed, errorCode := Some(MaxStepsExceeded))
  }

  lemma PlanIsBounded(participants: seq<Participant>, mode: Mode, maxSteps: nat)
    requires ValidRoster(participants) && mode != Supervisor
    ensures |Plan(participants, mode, maxSteps)| <= maxSteps
    ensures |Plan(participants, mode, maxSteps)| == maxSteps
            || (mode == Sequential && |Plan(participants, mode, maxSteps)| == |participants|)
  {
    SortKeepsLength(participants);
    hide SortByPosition, IsParticipant, Distinct, Ascending;
  }

  /** The selector walks the plan and ends exactly behind it. */
  lemma SelectorFollowsPlan(participants: seq<Participant>, mode: Mode, maxSteps: nat, k: nat)
    requires ValidRoster(participants) && mode != Supervisor && maxSteps > 0
    requires k <= |Plan(participants, mode, maxSteps)|
    ensures
      var plan := Plan(participants, mode, maxSteps);
      AdvanceSequence(participants, k, maxSteps, Some(mode), Some(Running)) ==
      if k < |plan| then Invoke(plan[k], k)
      else End(if mode == Sequential && |participants| <= maxSteps then RosterExhausted else MaxStepsReached)
  {
    SortKeepsLength(participants);
    hide SortByPosition, IsParticipant, Distinct, Ascending;
  }

  ghost predicate BeforeStep(s: GraphState, input: GraphState, plan: seq<Participant>) {
    && SameRequest(s, input)
    && s.mode != Supervisor && ValidRoster(s.participants)
    && plan == Plan(s.participants, s.mode, s.maxSteps)
    && s.status == Running && s.rosterExhausted == input.rosterExhausted && s.errorCode == input.errorCode
    && input.stepIndex <= s.stepIndex < |plan|
  }

  /** What a good step leads to: the next step of the plan, or its end. */
  ghost predicate StepsOn(s: GraphState, next: GraphState, turn: GraphTurn, input: GraphState, plan: seq<Participant>) {
    && SameRequest(next, s)
    && next.stepIndex == s.stepIndex + 1 && next.turns == s.turns + [turn]
    && next.lastRunId == Some(turn.runId) && next.lastOutput == Some(turn.output)
    && (s.stepIndex + 1 < |plan| ==> BeforeStep(next, input, plan))
    && (s.stepIndex + 1 == |plan| ==> next.status != Running && EndsWithPlan(next, input))
  }

  lemma TurnStepsOn(s: GraphState, turn: GraphTurn, input: GraphState, plan: seq<Participant>)
    requires BeforeStep(s, input, plan)
    ensures StepsOn(s, AfterTurn(s, turn), turn, input, plan)
  {
    hide AdvanceSequence, ValidRoster, Plan, Trim;
    PlanIsBounded(s.participants, s.mode, s.maxSteps);
    SelectorFollowsPlan(s.participants, s.mode, s.maxSteps, s.stepIndex + 1);
  }

  lemma NodeFollowsPlan(s: GraphState, a: Attempt, input: GraphState, plan: seq<Participant>)
    requires BeforeStep(s, input, plan) && Good(a) && |s.turns| <= s.maxSteps
    ensures InvokeAgentNode(s, a) ==
            NodeResult(AfterTurn(s, TurnOf(plan[s.stepIndex], a)), Some(plan[s.stepIndex]), false)
  {
    hide AdvanceSequence, ValidRoster, Plan, Trim, AfterTurn;
    PlanIsBounded(s.participants, s.mode, s.maxSteps);
    SelectorFollowsPlan(s.participants, s.mode, s.maxSteps, s.stepIndex);
  }

  lemma NodeStopsAtFailure(s: GraphState, a: Attempt, input: GraphState, plan: seq<Participant>)
    requires BeforeStep(s, input, plan) && !Good(a) && |s.turns| <= s.maxSteps
    ensures
      var r := InvokeAgentNode(s, a);
      && SameRequest(r.state, s) && SameProgress(r.state, s)
      && r.invoked == (if Invokes(a) then Some(plan[s.stepIndex]) else None)
      && (r.rejected || r.state.status != Running)
      && EndsBadly(r.state, r.rejected, a)
  {
    hide AdvanceSequence, ValidRoster, Plan, Trim;
    PlanIsBounded(s.participants, s.mode, s.maxSteps);
    SelectorFollowsPlan(s.participants, s.mode, s.maxSteps, s.stepIndex);
  }

  lemma NodeStopsOverfull(s: GraphState, a: Attempt, input: GraphState, plan: seq<Participant>)
    requires BeforeStep(s, input, plan) && |s.turns| > s.maxSteps
    ensures
      var r := InvokeAgentNode(s, a);
      && SameRequest(r.state, s) && SameProgress(r.state, s)
      && r.invoked == None && !r.rejected && r.state.status != Running && EndsOverfull(r.state, a)
  {
    hide AdvanceSequence, ValidRoster, Plan, Trim;
    PlanIsBounded(s.participants, s.mode, s.maxSteps);
  }

  lemma NodeRefuses(input: GraphState, a: Attempt)
    requires !Opens(input)
    ensures
      var r := InvokeAgentNode(input, a);
      r.invoked == None && !r.rejected && r.state.turns == input.turns && RefusedAs(r.state, input, a)
      && (r.state.status == Running ==> input.status == Running)
      && r.state.status != Running
  {
    hide SortByPosition, IsParticipant, Distinct, Ascending, Trim, Plan, ValidRoster;
    if input.mode != Supervisor && ValidRoster(input.participants) {
      PlanIsBounded(input.participants, input.mode, input.maxSteps);
      SortKeepsLength(input.participants);
    }
  }

  lemma StillFirst(attempts: nat -> Attempt, k: nat, bound: nat)
    requires k < bound && Good(attempts(k))
    ensures FirstBad(attempts, k, bound) == FirstBad(attempts, k + 1, bound)
  {
  }

  lemma FollowsOn(
    s: GraphState, next: GraphState, invoked: seq<Participant>, input: GraphState, attempts: nat -> Attempt,
    plan: seq<Participant>, k: nat)
    requires k < |plan| && Follows(s, invoked, input, attempts, plan, k) && invoked == plan[input.stepIndex..k]
    requires Good(attempts(k))
    requires next.stepIndex == k + 1 && next.turns == s.turns + [TurnOf(plan[k], attempts(k))]
    requires next.lastRunId == Some(attempts(k).runId) && next.lastOutput == Some(attempts(k).kept)
    ensures Follows(next, invoked + [plan[k]], input, attempts, plan, k + 1)
    ensures invoked + [plan[k]] == plan[input.stepIndex..k + 1]
  {
    hide Trim;
  }

  /** The dispatches with the one of another execution of the node, if it made one. */
  function Joined(invoked: seq<Participant>, next: Option<Participant>): seq<Participant> {
    if next.Some? then invoked + [next.value] else invoked
  }

  /** Where a run stands before an execution of the node, or when it has ended. */
  ghost predicate OnPlan(
    s: GraphState, rejected: bool, invoked: seq<Participant>, input: GraphState, attempts: nat -> Attempt,
    plan: seq<Participant>)
  {
    var b, k, stop := input.stepIndex, s.stepIndex, Horizon(input, plan);
    && Follows(s, invoked, input, attempts, plan, k) && k <= stop
    && FirstBad(attempts, b, stop) == FirstBad(attempts, k, stop)
    && if s.status == Running && !rejected then BeforeStep(s, input, plan) && invoked == plan[b..k]
       else if k == stop then
         && invoked == plan[b..k] && !rejected
         && if stop == |plan| then EndsWithPlan(s, input) else EndsOverfull(s, attempts(k))
       else
         && !Good(attempts(k)) && EndsBadly(s, rejected, attempts(k))
         && invoked == plan[b..k] + (if Invokes(attempts(k)) then [plan[k]] else [])
  }

  lemma GoodStepKeepsOnPlan(
    s: GraphState, next: GraphState, invoked: seq<Participant>, input: GraphState, attempts: nat -> Attempt,
    plan: seq<Participant>)
    requires OnPlan(s, false, invoked, input, attempts, plan) && s.status == Running && Good(attempts(s.stepIndex))
    requires s.stepIndex < Horizon(input, plan)
    requires StepsOn(s, next, TurnOf(plan[s.stepIndex], attempts(s.stepIndex)), input, plan)
    ensures OnPlan(next, false, invoked + [plan[s.stepIndex]], input, attempts, plan)
  {
    hide Good, FirstBad, EndsWithPlan, EndsOverfull, EndsBadly, Plan, ValidRoster, Follows;
    StillFirst(attempts, s.stepIndex, Horizon(input, plan));
    FollowsOn(s, next, invoked, input, attempts, plan, s.stepIndex);
  }

  lemma BadStepKeepsOnPlan(
    s: GraphState, r: NodeResult, invoked: seq<Participant>, input: GraphState, attempts: nat -> Attempt,
    plan: seq<Participant>)
    requires OnPlan(s, false, invoked, input, attempts, plan) && s.status == Running && !Good(attempts(s.stepIndex))
    requires r == InvokeAgentNode(s, attempts(s.stepIndex)) && s.stepIndex < Horizon(input, plan)
    ensures SameRequest(r.state, s) && (r.state.status != Running || r.rejected)
    ensures OnPlan(r.state, r.rejected, Joined(invoked, r.invoked), input, attempts, plan)
  {
    hide InvokeAgentNode, Good, FirstBad, EndsWithPlan, EndsOverfull, EndsBadly, Plan, ValidRoster;
    NodeStopsAtFailure(s, attempts(s.stepIndex), input, plan);
  }

  lemma LastStepKeepsOnPlan(
    s: GraphState, r: NodeResult, invoked: seq<Participant>, input: GraphState, attempts: nat -> Attempt,
    plan: seq<Participant>)
    requires OnPlan(s, false, invoked, input, attempts, plan) && s.status == Running
    requires r == InvokeAgentNode(s, attempts(s.stepIndex)) && s.stepIndex == Horizon(input, plan)
    ensures SameRequest(r.state, s) && r.state.status != Running && r.invoked == None
    ensures OnPlan(r.state, r.rejected, invoked, input, attempts, plan)
  {
    hide InvokeAgentNode, Good, FirstBad, EndsWithPlan, EndsOverfull, EndsBadly, Plan, ValidRoster;
    NodeStopsOverfull(s, attempts(s.stepIndex), input, plan);
  }

  lemma NodeKeepsOnPlan(
    s: GraphState, invoked: seq<Participant>, input: GraphState, attempts: nat -> Attempt, plan: seq<Participant>,
    r: NodeResult)
    requires OnPlan(s, false, invoked, input, attempts, plan) && s.status == Running
    requires r == InvokeAgentNode(s, attempts(s.stepIndex))
    ensures SameRequest(r.state, s)
    ensures OnPlan(r.state, r.rejected, Joined(invoked, r.invoked), input, attempts, plan)
    ensures r.state.status == Running && !r.rejected ==> r.state.stepIndex == s.stepIndex + 1 < |plan|
  {
    hide InvokeAgentNode, Good, FirstBad, EndsWithPlan, EndsOverfull, EndsBadly, Plan, ValidRoster, AfterTurn;
    var k := s.stepIndex;
    var a := attempts(k);
    if k == Horizon(input, plan) {
      LastStepKeepsOnPlan(s, r, invoked, input, attempts, plan);
    } else if Good(a) {
      NodeFollowsPlan(s, a, input, plan);
      TurnStepsOn(s, TurnOf(plan[k], a), input, plan);
      GoodStepKeepsOnPlan(s, r.state, invoked, input, attempts, plan);
    } else {
      BadStepKeepsOnPlan(s, r, invoked, input, attempts, plan);
    }
  }

  /** How a run has ended that had a plan to follow. */
  ghost predicate EndsOnPlan(
    s: GraphState, rejected: bool, invoked: seq<Participant>, input: GraphState, attempts: nat -> Attempt,
    plan: seq<Participant>)
  {
    var b, stop := input.stepIndex, Horizon(input, plan);
    && b <= stop <= |plan|
    && var k := FirstBad(attempts, b, stop);
       && Follows(s, invoked, input, attempts, plan, k)
       && (k == stop ==> invoked == plan[b..k] && !rejected)
       && (k == stop == |plan| ==> EndsWithPlan(s, input))
       && (k == stop < |plan| ==> EndsOverfull(s, attempts(k)))
       && (k < stop ==>
             && invoked == plan[b..k] + (if Invokes(attempts(k)) then [plan[k]] else [])
             && EndsBadly(s, rejected, attempts(k)))
  }

  lemma EndOfRun(
    s: GraphState, rejected: bool, invoked: seq<Participant>, input: GraphState, attempts: nat -> Attempt,
    plan: seq<Participant>)
    requires OnPlan(s, rejected, invoked, input, attempts, plan) && (s.status != Running || rejected)
    ensures EndsOnPlan(s, rejected, invoked, input, attempts, plan)
  {
    hide Good, EndsWithPlan, EndsOverfull, EndsBadly, Plan, ValidRoster, Follows;
  }

  // ------------------------------------------------------------ fairness of a run

  /** No participant was dispatched more than once more than another. */
  ghost predicate IsFair(invoked: seq<Participant>, participants: seq<Participant>) {
    forall p, q :: p in participants && q in participants ==> multiset(invoked)[p] <= multiset(invoked)[q] + 1
  }

  /** Any stretch of a round-robin plan is fair. */
  lemma PlanIsFair(participants: seq<Participant>, maxSteps: nat, from: nat, to: nat)
    requires ValidRoster(participants) && from <= to <= maxSteps
    ensures |Plan(participants, RoundRobin, maxSteps)| == maxSteps
    ensures IsFair(Plan(participants, RoundRobin, maxSteps)[from..to], participants)
  {
    hide IsParticipant, Distinct, Ascending;
    var plan := Plan(participants, RoundRobin, maxSteps);
    DistinctIsOrderFree(participants, SortByPosition(participants));
    forall p, q | p in participants && q in participants
      ensures multiset(plan[from..to])[p] <= multiset(plan[from..to])[q] + 1
    {
      var i := PlaceInRoster(participants, p);
      var j := PlaceInRoster(participants, q);
      RoundsAreFair(SortByPosition(participants), maxSteps, from, to, i, j);
    }
  }

  /** Whom a run dispatched is a stretch of its plan. */
  lemma InvokedIsStretch(
    s: GraphState, rejected: bool, invoked: seq<Participant>, input: GraphState, attempts: nat -> Attempt,
    plan: seq<Participant>) returns (to: nat)
    requires EndsOnPlan(s, rejected, invoked, input, attempts, plan)
    ensures input.stepIndex <= to <= |plan| && invoked == plan[input.stepIndex..to]
  {
    hide Good, EndsWithPlan, EndsOverfull, EndsBadly, FirstBad, Follows;
    var b := input.stepIndex;
    var k := FirstBad(attempts, b, Horizon(input, plan));
    assert plan[b..k] + [] == plan[b..k];
    if k < Horizon(input, plan) && Invokes(attempts(k)) {
      assert plan[b..k] + [plan[k]] == plan[b..k + 1];
      to := k + 1;
    } else {
      to := k;
    }
  }

  lemma RunIsFair(
    s: GraphState, rejected: bool, invoked: seq<Participant>, input: GraphState, attempts: nat -> Attempt,
    plan: seq<Participant>)
    requires EndsOnPlan(s, rejected, invoked, input, attempts, plan) && ValidRoster(input.participants)
    requires input.mode == RoundRobin && plan == Plan(input.participants, input.mode, input.maxSteps)
    ensures IsFair(invoked, input.participants)
  {
    hide EndsOnPlan, Plan, ValidRoster, IsFair;
    var to := InvokedIsStretch(s, rejected, invoked, input, attempts, plan);
    PlanIsBounded(input.participants, input.mode, input.maxSteps);
    PlanIsFair(input.participants, input.maxSteps, input.stepIndex, to);
  }

  // ------------------------------------------------------------ the graph

  /** Where the loop stands after some executions of the node. */
  ghost predicate InLoop(
    s: GraphState, rejected: bool, invoked: seq<Participant>, executions: nat, input: GraphState,
    attempts: nat -> Attempt)
  {
    && (executions == 0 ==> s == input && !rejected && invoked == [])
    && if Opens(input) then
         var plan := Plan(input.participants, input.mode, input.maxSteps);
         && SameRequest(s, input) && OnPlan(s, rejected, invoked, input, attempts, plan)
         && (s.status == Running && !rejected ==> executions == s.stepIndex - input.stepIndex && s.stepIndex < |plan|)
         && executions <= |plan| - input.stepIndex && |plan| <= input.maxSteps
       else
         && invoked == [] && !rejected && executions <= 1
         && (executions == 1 ==> s.status != Running && RefusedAs(s, input, attempts(input.stepIndex)))
  }

  lemma LoopBegins(input: GraphState, attempts: nat -> Attempt)
    ensures InLoop(input, false, [], 0, input, attempts)
  {
    hide ValidRoster, Plan, OnPlan, RefusedAs;
    if Opens(input) {
      BeginsOnPlan(input, attempts);
    }
  }

  lemma LoopGoesOn(
    s: GraphState, rejected: bool, invoked: seq<Participant>, executions: nat, input: GraphState,
    attempts: nat -> Attempt, r: NodeResult)
    requires InLoop(s, rejected, invoked, executions, input, attempts)
    requires executions == 0 || (s.status == Running && !rejected)
    requires r == InvokeAgentNode(s, attempts(s.stepIndex))
    ensures InLoop(r.state, r.rejected, Joined(invoked, r.invoked), executions + 1, input, attempts)
    ensures Opens(input) && r.state.status == Running && !r.rejected ==> r.state.stepIndex == s.stepIndex + 1
  {
    hide InvokeAgentNode, ValidRoster, Plan, OnPlan, RefusedAs;
    if Opens(input) {
      if executions == 0 {
        BeginsOnPlan(input, attempts);
      }
      NodeKeepsOnPlan(
        s, invoked, input, attempts, Plan(input.participants, input.mode, input.maxSteps), r);
    } else {
      NodeRefuses(input, attempts(input.stepIndex));
    }
    hide Opens;
  }

  lemma LoopEnds(
    s: GraphState, rejected: bool, invoked: seq<Participant>, executions: nat, input: GraphState,
    attempts: nat -> Attempt)
    requires InLoop(s, rejected, invoked, executions, input, attempts)
    requires executions > 0 && (s.status != Running || rejected)
    ensures executions <= Max(1, input.maxSteps - input.stepIndex)
    ensures !Opens(input) ==> invoked == [] && !rejected && RefusedAs(s, input, attempts(input.stepIndex))
    ensures Opens(input) ==>
              var plan := Plan(input.participants, input.mode, input.maxSteps);
              SameRequest(s, input) && EndsOnPlan(s, rejected, invoked, input, attempts, plan)
    ensures input.mode == RoundRobin && ValidRoster(input.participants) ==> IsFair(invoked, input.participants)
  {
    hide ValidRoster, Plan, OnPlan, RefusedAs, EndsOnPlan, IsFair;
    if Opens(input) {
      var plan := Plan(input.participants, input.mode, input.maxSteps);
      EndOfRun(s, rejected, invoked, input, attempts, plan);
      if input.mode == RoundRobin {
        RunIsFair(s, rejected, invoked, input, attempts, plan);
      }
    } else {
      NobodyIsFair(input.participants);
    }
    hide Opens;
  }

  method RunOrchestrationGraph(input: GraphState, attempts: nat -> Attempt)
    returns (s: GraphState, rejected: bool, invoked: seq<Participant>, executions: nat)
    // The node executions stay within the recursion limit, for every request.
    ensures 1 <= executions <= Max(1, input.maxSteps - input.stepIndex) <= RecursionLimit(input.maxSteps)
    ensures rejected || s.status != Running
    // A request without a step to do is answered without dispatching anybody.
    ensures !Opens(input) ==> invoked == [] && !rejected && RefusedAs(s, input, attempts(input.stepIndex))
    // Otherwise the plan is followed up to the first attempt that is not good, and no further.
    ensures Opens(input) ==>
              var plan := Plan(input.participants, input.mode, input.maxSteps);
              SameRequest(s, input) && EndsOnPlan(s, rejected, invoked, input, attempts, plan)
    // In round-robin mode everybody gets as many turns as the others, give or take one.
    ensures input.mode == RoundRobin && ValidRoster(input.participants) ==> IsFair(invoked, input.participants)
  {
    s, rejected, invoked, executions := input, false, [], 0;
    LoopBegins(input, attempts);
    hide InvokeAgentNode, ValidRoster, Plan, InLoop, Opens, RefusedAs, EndsOnPlan, IsFair;
    while executions == 0 || (s.status == Running && !rejected)
      invariant InLoop(s, rejected, invoked, executions, input, attempts)
      decreases executions == 0, StepsLeft(s, input), s.status == Running && !rejected
    {
      var result := InvokeAgentNode(s, attempts(s.stepIndex));
      LoopGoesOn(s, rejected, invoked, executions, input, attempts, result);
      LoopCounts(s, rejected, invoked, executions, input, attempts);
      s, rejected := result.state, result.rejected;
      if result.invoked.Some? {
        invoked := invoked + [result.invoked.value];
      }
      executions := executions + 1;
      LoopCounts(s, rejected, invoked, executions, input, attempts);
    }
    LoopEnds(s, rejected, invoked, executions, input, attempts);
  }

  /** How many steps are left of the budget. */
  function StepsLeft(s: GraphState, input: GraphState): int {
    input.maxSteps - s.stepIndex
  }

  lemma LoopCounts(
    s: GraphState, rejected: bool, invoked: seq<Participant>, executions: nat, input: GraphState,
    attempts: nat -> Attempt)
    requires InLoop(s, rejected, invoked, executions, input, attempts)
    ensures executions > 0 && s.status == Running && !rejected ==>
              Opens(input) && StepsLeft(s, input) > 0 && executions == s.stepIndex - input.stepIndex
  {
    hide OnPlan, Opens, Plan;
  }

  lemma BeginsOnPlan(input: GraphState, attempts: nat -> Attempt)
    requires Opens(input)
    ensures
      var plan := Plan(input.participants, input.mode, input.maxSteps);
      && OnPlan(input, false, [], input, attempts, plan)
      && input.status == Running && input.stepIndex < |plan| <= input.maxSteps
  {
    hide ValidRoster, Plan, FirstBad;
    PlanIsBounded(input.participants, input.mode, input.maxSteps);
  }

  lemma NobodyIsFair(participants: seq<Participant>)
    ensures IsFair([], participants)
  {
  }
}
