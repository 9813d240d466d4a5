/** One execution of an Agent run: set up, model attempts with fallback, the terminal record, and
    the cleanup on every exit. What the outside does is a script; a cancellation may be
    registered or withdrawn at any moment of it. */
module RunCoordinator {
  import opened Wrappers
  import opened Leases
  import opened Store
  import ProjectExecution

  datatype RunStatus = Queued | Running | Completed | Failed | Cancelled

  datatype AgentStatus = Busy | Ready | Error | Stopped

  /** What the runner makes of one model attempt. */
  datatype Attempt = Answers | ModelUnavailable | Breaks | IsCancelled

  /** The first thing that goes wrong between the beginning of the turn and the runner, if any. */
  datatype Setup = SetupDone | TurnRevoked | PromptFails | NoMcpUrl | MintFails

  /** The run, its Project if it has one, and what happens to it. `cancelled(t)` says whether a
      cancellation of the run is registered at moment `t`, and `stopped(t)` whether the Agent is
      marked as stopped then; `turn` is what the Project's lease protocol is answered. */
  datatype Script = Script(
    runId: Id, agentId: Id, project: Option<Id>, turn: ProjectExecution.Script, mcp: bool, setup: Setup, models: nat,
    attempts: nat -> Attempt, cancelled: nat -> bool, stopped: nat -> bool)

  predicate ValidScript(s: Script) {
    && s.models > 0
    && (s.project.None? ==> s.setup != TurnRevoked)
    && (!s.mcp ==> s.setup != NoMcpUrl && s.setup != MintFails)
  }

  /** The turn begins: there is no Project, or its lease is obtained and the workspace prepared. */
  ghost predicate TurnBegins(s: Script, db: Database, archiving: set<Id>) {
    s.project.None?
    || (s.turn.authorized && s.turn.prepared && s.project.value !in archiving
        && ProjectExecution.Obtains(s.turn, db, s.project.value))
  }

  /** When nobody else changes the store, a run without a Project always begins its turn, and one
      with a Project exactly if the policy allows it, the Project is neither being moved nor
      leased, the lease can be saved, and the workspace is prepared. */
  lemma QuietTurnBeginsIff(s: Script, db: Database, archiving: set<Id>)
    requires forall n: nat, d: Database :: s.turn.world(n, d) == d
    ensures TurnBegins(s, db, archiving) <==>
            || s.project == None
            || (&& s.turn.authorized && s.turn.allowed(0) && s.turn.faults(0) == NoFault && s.turn.prepared
                && s.project.value !in archiving
                && forall l :: l in db.leases ==> l.projectId != s.project.value)
  {
    if s.project.Some? {
      var p := s.project.value;
      forall n: nat
        ensures ProjectExecution.Found(s.turn, db, n) == db
      {
        NothingNew(s.turn, db, n);
      }
      hide ProjectExecution.Found;
      assert ProjectExecution.FreeAt(s.turn, db, p, 0) <==>
             s.turn.allowed(0) && s.turn.faults(0) == NoFault && !Leased(db, p);
      if ProjectExecution.Obtains(s.turn, db, p) {
        var n :| 0 <= n <= s.turn.tries && ProjectExecution.FreeAt(s.turn, db, p, n)
          && forall m :: 0 <= m < n ==> ProjectExecution.BusyAt(s.turn, db, p, m);
        assert n > 0 ==> ProjectExecution.BusyAt(s.turn, db, p, 0);
        assert n == 0;
      }
    }
  }

  lemma {:induction false} NothingNew(turn: ProjectExecution.Script, db: Database, n: nat)
    requires forall n: nat, d: Database :: turn.world(n, d) == d
    ensures ProjectExecution.Found(turn, db, n) == db
  {
    if n > 0 {
      NothingNew(turn, db, n - 1);
    }
  }

  // Moments: 0 is the look before the set-up, 1 the set-up, then two for every attempt.
  function Before(k: nat): nat {
    2 + 2 * k
  }

  function After(k: nat): nat {
    3 + 2 * k
  }

  /** How the guarded part ends: with an answer, or by throwing at some moment after `made`
      calls of the runner. */
  datatype Path =
    | Returned(made: nat)
    | Threw(made: nat, isCancel: bool, at: nat)

  function From(s: Script, k: nat): (r: Path)
    requires k < s.models
    ensures k <= r.made <= s.models
    ensures r.Threw? ==> r.at == Before(r.made) || (r.made > 0 && r.at == After(r.made - 1))
    ensures r.Returned? ==> r.made > 0
    decreases s.models - k
  {
    if s.cancelled(Before(k)) then Threw(k, true, Before(k))
    else
      match s.attempts(k)
      case Answers => Returned(k + 1)
      case IsCancelled => Threw(k + 1, true, After(k))
      case Breaks => Threw(k + 1, false, After(k))
      case ModelUnavailable =>
        if s.cancelled(After(k)) || k == s.models - 1 then Threw(k + 1, false, After(k)) else From(s, k + 1)
  }

  function Guarded(s: Script, begins: bool): (r: Path)
    requires ValidScript(s)
    ensures r.made <= s.models && (r.Returned? ==> r.made > 0)
  {
    if s.cancelled(0) then Threw(0, true, 0)
    else if !begins || s.setup != SetupDone then Threw(0, false, 1)
    else From(s, 0)
  }

  /** The moment at which it is decided whether the run counts as cancelled. */
  function DecidedAt(p: Path): nat
    requires p.Returned? ==> p.made > 0
  {
    match p
    case Returned(made) => After(made - 1) + 1
    case Threw(_, _, at) => at
  }

  /** The moment at which the terminal record is written. */
  function WrittenAt(p: Path): nat
    requires p.Returned? ==> p.made > 0
  {
    match p
    case Returned(made) => After(made - 1) + 1
    case Threw(_, _, at) => at + 1
  }

  function Outcome(s: Script, begins: bool): RunStatus
    requires ValidScript(s)
  {
    var p := Guarded(s, begins);
    match p
    case Returned(_) => if s.cancelled(WrittenAt(p)) then Cancelled else Completed
    case Threw(_, isCancel, at) => if isCancel || s.cancelled(at) then Cancelled else Failed
  }

  // ------------------------------------------------------------ cancellation

  /** From moment `t` on a cancellation is registered and not withdrawn. */
  ghost predicate CancelledFrom(s: Script, t: nat) {
    forall u :: u >= t ==> s.cancelled(u)
  }

  /** A cancellation that stands when the outcome is decided makes the run a cancelled one. */
  lemma StandingCancelCancels(s: Script, begins: bool, t: nat)
    requires ValidScript(s) && CancelledFrom(s, t) && t <= DecidedAt(Guarded(s, begins))
    ensures Outcome(s, begins) == Cancelled
  {
    hide From;
  }

  /** A single cancellation, registered at moment `t` and not withdrawn. */
  ghost predicate CancelledAt(s: Script, t: nat) {
    forall u: nat :: s.cancelled(u) <==> u >= t
  }

  /** The same script without a cancellation. */
  function Uncancelled(s: Script): Script {
    s.(cancelled := _ => false)
  }

  /** A cancellation counts if and only if it is registered by the moment at which the outcome of
      the run would be decided without it, or the runner then reports one by itself. */
  lemma CancelCountsIffInTime(s: Script, begins: bool, t: nat)
    requires ValidScript(s) && CancelledAt(s, t)
    ensures
      var p := Guarded(Uncancelled(s), begins);
      Outcome(s, begins) == Cancelled <==>
      t <= DecidedAt(p) || (p.made > 0 && s.attempts(p.made - 1) == IsCancelled)
  {
    hide From, CancelledAt;
    CancelledFromThen(s, t);
    if begins && s.setup == SetupDone {
      AttemptsUntilCancel(s, 0, t);
      ReportsAreThrown(s, 0);
    }
  }

  lemma CancelledFromThen(s: Script, t: nat)
    requires CancelledAt(s, t)
    ensures forall u: nat :: s.cancelled(u) <==> u >= t
  {
  }

  lemma OneAttempt(s: Script, k: nat)
    requires k < s.models
    ensures From(s, k) ==
            if s.cancelled(Before(k)) then Threw(k, true, Before(k))
            else
              match s.attempts(k)
              case Answers => Returned(k + 1)
              case IsCancelled => Threw(k + 1, true, After(k))
              case Breaks => Threw(k + 1, false, After(k))
              case ModelUnavailable =>
                if s.cancelled(After(k)) || k == s.models - 1 then Threw(k + 1, false, After(k)) else From(s, k + 1)
  {
  }

  /** Until the cancellation the attempts go as they would without it; if it comes before their
      end, it is seen. */
  lemma {:induction false} AttemptsUntilCancel(s: Script, k: nat, t: nat)
    requires k < s.models && CancelledAt(s, t)
    ensures
      var p, q := From(s, k), From(Uncancelled(s), k);
      && (t > DecidedAt(q) ==> p == q)
      && (t <= DecidedAt(q) ==> t <= DecidedAt(p) && (p.Threw? ==> s.cancelled(p.at) || p.isCancel))
    decreases s.models - k
  {
    hide From, CancelledAt;
    CancelledFromThen(s, t);
    OneAttempt(s, k);
    OneAttempt(Uncancelled(s), k);
    if s.attempts(k) == ModelUnavailable && k < s.models - 1 {
      AttemptsUntilCancel(s, k + 1, t);
    }
  }

  /** Without a cancellation a run throws one exactly if the runner reports one. */
  lemma {:induction false} ReportsAreThrown(s: Script, k: nat)
    requires k < s.models
    ensures
      var q := From(Uncancelled(s), k);
      q.made > k && (q.Threw? && q.isCancel <==> s.attempts(q.made - 1) == IsCancelled)
    decreases s.models - k
  {
    if s.attempts(k) == ModelUnavailable && k < s.models - 1 {
      ReportsAreThrown(s, k + 1);
    }
  }

  /** A run of an Agent without a Project, with one model. */
  function PlainScript(
    turn: ProjectExecution.Script, attempt: Attempt, cancelled: nat -> bool, stopped: nat -> bool): Script
  {
    Script("r", "a", None, turn, false, SetupDone, 1, _ => attempt, cancelled, stopped)
  }

  /** The model breaks, and a cancellation is registered a moment later: the run ends as failed. */
  lemma LateCancelEndsFailed(turn: ProjectExecution.Script)
    ensures
      var s := PlainScript(turn, Breaks, t => t > After(0), _ => false);
      ValidScript(s) && CancelledFrom(s, WrittenAt(Guarded(s, true))) && Outcome(s, true) == Failed
  {
  }

  /** Once a cancellation stands the runner is not called again. */
  lemma {:induction false} NoAttemptAfterCancel(s: Script, k: nat, t: nat)
    requires k < s.models && CancelledFrom(s, t)
    ensures From(s, k).made <= k || Before(From(s, k).made - 1) < t
    decreases s.models - k
  {
    if !s.cancelled(Before(k)) && s.attempts(k) == ModelUnavailable && !s.cancelled(After(k)) && k < s.models - 1 {
      NoAttemptAfterCancel(s, k + 1, t);
    }
  }

  // ------------------------------------------------------------ fallback

  /** Every attempt but the last one ended with the model unavailable and no cancellation, and
      the run goes through as soon as a model answers. */
  lemma {:induction false} FallbackOnlyWhenUnavailable(s: Script, k: nat, j: nat)
    requires k < s.models && k <= j && j + 1 < From(s, k).made
    ensures s.attempts(j) == ModelUnavailable && !s.cancelled(Before(j)) && !s.cancelled(After(j))
    decreases s.models - k
  {
    if j > k {
      FallbackOnlyWhenUnavailable(s, k + 1, j);
    }
  }

  /** With nothing cancelled the run completes if and only if some model answers and all before
      it were unavailable. */
  lemma {:induction false} CompletesIffSomeModelAnswers(s: Script, k: nat)
    requires k < s.models && forall t :: !s.cancelled(t)
    ensures From(s, k).Returned? <==>
            exists j :: k <= j < s.models && s.attempts(j) == Answers
                        && forall i :: k <= i < j ==> s.attempts(i) == ModelUnavailable
    decreases s.models - k
  {
    if s.attempts(k) == ModelUnavailable && k < s.models - 1 {
      CompletesIffSomeModelAnswers(s, k + 1);
    }
  }

  // ------------------------------------------------------------ runs that nobody cancels

  ghost predicate NeverCancelled(s: Script) {
    forall t: nat :: !s.cancelled(t)
  }

  /** Attempt `j` is the last one: all before it found their model unavailable, and it did not, or
      there is no further model. */
  ghost predicate EndsAt(s: Script, j: nat) {
    && j < s.models && (forall i :: 0 <= i < j ==> s.attempts(i) == ModelUnavailable)
    && (s.attempts(j) == ModelUnavailable ==> j == s.models - 1)
  }

  lemma {:induction false} UncancelledFrom(s: Script, k: nat, j: nat)
    requires NeverCancelled(s) && EndsAt(s, j) && k <= j
    ensures
      var p := From(s, k);
      && p.made == j + 1
      && (p.Returned? <==> s.attempts(j) == Answers)
      && (p.Threw? ==> (p.isCancel <==> s.attempts(j) == IsCancelled))
    decreases j - k
  {
    if k < j {
      UncancelledFrom(s, k + 1, j);
    }
  }

  lemma {:induction false} SomeAttemptIsLast(s: Script, k: nat) returns (j: nat)
    requires k < s.models && forall i :: 0 <= i < k ==> s.attempts(i) == ModelUnavailable
    ensures EndsAt(s, j)
    decreases s.models - k
  {
    if s.attempts(k) == ModelUnavailable && k < s.models - 1 {
      j := SomeAttemptIsLast(s, k + 1);
    } else {
      j := k;
    }
  }

  /** A run that nobody cancels calls the runner if and only if its turn begins and its set-up is
      done; then it goes from model to model while they are unavailable, and ends as the last
      attempt says. */
  lemma UncancelledOutcome(s: Script, begins: bool, j: nat)
    requires ValidScript(s) && NeverCancelled(s) && EndsAt(s, j)
    ensures Guarded(s, begins).made == if begins && s.setup == SetupDone then j + 1 else 0
    ensures Outcome(s, begins) ==
            if !begins || s.setup != SetupDone then Failed
            else if s.attempts(j) == Answers then Completed
            else if s.attempts(j) == IsCancelled then Cancelled
            else Failed
  {
    UncancelledFrom(s, 0, j);
    hide From, EndsAt;
  }

  /** It completes if and only if its turn begins, its set-up is done, and some model answers behind
      models that were all unavailable. */
  lemma UncancelledCompletesIff(s: Script, begins: bool)
    requires ValidScript(s) && NeverCancelled(s)
    ensures Outcome(s, begins) == Completed <==>
            begins && s.setup == SetupDone
            && exists j :: 0 <= j < s.models && s.attempts(j) == Answers
                           && forall i :: 0 <= i < j ==> s.attempts(i) == ModelUnavailable
  {
    hide Outcome, NeverCancelled;
    var j := SomeAttemptIsLast(s, 0);
    UncancelledOutcome(s, begins, j);
    if k :| 0 <= k < s.models && s.attempts(k) == Answers
            && forall i :: 0 <= i < k ==> s.attempts(i) == ModelUnavailable
    {
      assert k == j;
    }
  }

  /** A run that is cancelled before it begins takes no turn and calls no runner. */
  lemma CancelledAtOnce(s: Script, begins: bool)
    requires ValidScript(s) && s.cancelled(0)
    ensures Guarded(s, begins).made == 0 && Outcome(s, begins) == Cancelled
  {
  }

  // ------------------------------------------------------------ the Agent

  /** The status of the Agent behind the terminal record. */
  function AgentAfter(s: Script, begins: bool): AgentStatus
    requires ValidScript(s)
  {
    var outcome := Outcome(s, begins);
    if outcome == Completed then Ready
    else if s.stopped(WrittenAt(Guarded(s, begins))) then Stopped
    else if outcome == Cancelled then Ready else Error
  }

  /** An Agent stopped meanwhile stays stopped if and only if its run does not complete. */
  lemma StoppedAgentStaysIff(s: Script, begins: bool)
    requires ValidScript(s) && s.stopped(WrittenAt(Guarded(s, begins)))
    ensures AgentAfter(s, begins) == Stopped <==>
            !(Guarded(s, begins).Returned? && !s.cancelled(WrittenAt(Guarded(s, begins))))
  {
    hide From;
  }

  /** The Agent is marked as stopped throughout, the run completes, and the Agent is ready. */
  lemma CompletionRevivesAgent(turn: ProjectExecution.Script)
    ensures
      var s := PlainScript(turn, Answers, _ => false, _ => true);
      ValidScript(s) && (forall t :: s.stopped(t)) && Outcome(s, true) == Completed && AgentAfter(s, true) == Ready
  {
  }

  /** The laws of the outcome together. */
  lemma RunLaws(s: Script, begins: bool)
    requires ValidScript(s)
    ensures Outcome(s, begins) == Completed || Outcome(s, begins) == Failed || Outcome(s, begins) == Cancelled
    ensures Outcome(s, begins) == Completed ==> Guarded(s, begins).Returned?
    ensures NeverCancelled(s) ==>
              (Outcome(s, begins) == Completed <==>
               && begins && s.setup == SetupDone
               && exists j :: 0 <= j < s.models && s.attempts(j) == Answers
                              && forall i :: 0 <= i < j ==> s.attempts(i) == ModelUnavailable)
    ensures NeverCancelled(s) ==>
              forall j: nat :: EndsAt(s, j) ==>
                Guarded(s, begins).made == if begins && s.setup == SetupDone then j + 1 else 0
    ensures s.cancelled(0) ==> Guarded(s, begins).made == 0 && Outcome(s, begins) == Cancelled
    ensures Outcome(s, begins) == Completed ==> AgentAfter(s, begins) == Ready
    ensures (forall t :: !s.stopped(t)) ==>
              AgentAfter(s, begins) == if Outcome(s, begins) == Failed then Error else Ready
    ensures (forall t :: s.stopped(t)) && Outcome(s, begins) != Completed ==> AgentAfter(s, begins) == Stopped
  {
    hide From, EndsAt, NeverCancelled;
    if s.cancelled(0) {
      CancelledAtOnce(s, begins);
    }
    if NeverCancelled(s) {
      UncancelledCompletesIff(s, begins);
      forall j: nat | EndsAt(s, j)
        ensures Guarded(s, begins).made == if begins && s.setup == SetupDone then j + 1 else 0
      {
        UncancelledOutcome(s, begins, j);
      }
    }
  }

  // ------------------------------------------------------------ the execution

  /** The tokens that give a run access to tools. */
  class McpSessions {
    var live: set<nat>
    var next: nat

    ghost predicate Valid()
      reads this
    {
      forall t :: t in live ==> t < next
    }

    constructor ()
      ensures Valid() && live == {}
    {
      live, next := {}, 0;
    }

    method Mint() returns (token: nat)
      requires Valid()
      modifies this
      ensures Valid() && token !in old(live) && live == old(live) + {token}
    {
      token := next;
      live, next := live + {token}, next + 1;
    }

    method Revoke(token: nat)
      requires Valid()
      modifies this
      ensures Valid() && live == old(live) - {token}
    {
      live := live - {token};
    }
  }

  /** What the guarded part holds when it is left. */
  datatype Held = Held(binding: Option<Lease>, token: Option<nat>)

  /** The records one execution writes. Its lease is in the store, its token with the sessions. */
  class Execution {
    const scope: ProjectExecution.ExecutionScope
    const sessions: McpSessions
    var run: RunStatus
    var agent: AgentStatus
    var assistantMessages: nat
    var runnerCalls: nat
    var threadRecorded: bool

    ghost function Db(): Database
      reads this, scope, scope.coordinator, scope.coordinator.store
    {
      scope.coordinator.store.data
    }

    ghost predicate Valid()
      reads this, scope, scope.coordinator, scope.coordinator.store, sessions
    {
      scope.Valid() && sessions.Valid()
    }

    constructor (scope: ProjectExecution.ExecutionScope, sessions: McpSessions)
      requires scope.Valid() && sessions.Valid()
      ensures Valid() && this.scope == scope && this.sessions == sessions
      ensures run == Queued && agent == Busy && assistantMessages == 0 && runnerCalls == 0 && !threadRecorded
    {
      this.scope, this.sessions := scope, sessions;
      run, agent, assistantMessages, runnerCalls, threadRecorded := Queued, Busy, 0, 0, false;
    }

    /** Runs to its end on every path: one terminal status, an assistant message exactly if it
        completed, no lease of the run in the store unless the release could not be written,
        and no token more than before. */
    method ExecuteRun(s: Script)
      requires Valid() && ValidScript(s) && ProjectExecution.Lawful(s.turn.world, s.runId)
      requires run == Queued && assistantMessages == 0 && runnerCalls == 0 && !threadRecorded
      requires !HasRunLease(Db(), s.runId)
      modifies this, scope.coordinator.store, sessions
      ensures Valid()
      ensures run == Completed || run == Failed || run == Cancelled
      ensures run == Outcome(s, TurnBegins(s, old(Db()), old(scope.coordinator.archiving)))
      ensures assistantMessages == if run == Completed then 1 else 0
      ensures s.turn.releaseFault == NoFault ==> !HasRunLease(Db(), s.runId)
      ensures sessions.live == old(sessions.live)
      // Without a cancellation it completes exactly if its turn begins, its set-up is done, and some
      // model answers behind unavailable ones; and every model up to the last attempt is called.
      ensures NeverCancelled(s) ==>
                (run == Completed <==>
                 && TurnBegins(s, old(Db()), old(scope.coordinator.archiving)) && s.setup == SetupDone
                 && exists j :: 0 <= j < s.models && s.attempts(j) == Answers
                                && forall i :: 0 <= i < j ==> s.attempts(i) == ModelUnavailable)
      ensures NeverCancelled(s) ==>
                forall j: nat :: EndsAt(s, j) ==>
                  runnerCalls ==
                  if TurnBegins(s, old(Db()), old(scope.coordinator.archiving)) && s.setup == SetupDone then j + 1
                  else 0
      ensures s.cancelled(0) ==> run == Cancelled && runnerCalls == 0 && Db() == old(Db())
      // The Agent is ready or in error as the run ended, and stays stopped unless it completed.
      ensures run == Completed ==> agent == Ready
      ensures (forall t :: !s.stopped(t)) ==> agent == if run == Failed then Error else Ready
      ensures (forall t :: s.stopped(t)) && run != Completed ==> agent == Stopped
      ensures run == Completed ==> (threadRecorded <==> s.project.Some? && s.turn.threadSaved)
    {
      hide TurnBegins, Outcome, AgentAfter, Guarded, NeverCancelled, EndsAt, HasRunLease, ProjectExecution.Lawful;
      RunLaws(s, TurnBegins(s, Db(), scope.coordinator.archiving));
      ExecuteRunInternal(s);
    }

    method ExecuteRunInternal(s: Script)
      requires Valid() && ValidScript(s) && ProjectExecution.Lawful(s.turn.world, s.runId)
      requires run == Queued && assistantMessages == 0 && runnerCalls == 0 && !threadRecorded
      requires !HasRunLease(Db(), s.runId)
      modifies this, scope.coordinator.store, sessions
      ensures Valid()
      ensures run == Outcome(s, TurnBegins(s, old(Db()), old(scope.coordinator.archiving)))
      ensures assistantMessages == if run == Completed then 1 else 0
      ensures s.turn.releaseFault == NoFault ==> !HasRunLease(Db(), s.runId)
      ensures sessions.live == old(sessions.live)
      ensures runnerCalls == Guarded(s, TurnBegins(s, old(Db()), old(scope.coordinator.archiving))).made
      ensures agent == AgentAfter(s, TurnBegins(s, old(Db()), old(scope.coordinator.archiving)))
      ensures s.cancelled(0) ==> Db() == old(Db())
      ensures threadRecorded <==>
              s.project.Some? && s.turn.threadSaved
              && Guarded(s, TurnBegins(s, old(Db()), old(scope.coordinator.archiving))).Returned?
    {
      hide From, TurnBegins, HasRunLease, ProjectExecution.HasOnly, ProjectExecution.Lawful;
      run := Running;
      var path, held := Attempts(s);
      if path.Returned? {
        WriteAnswer(s, path);
      } else {
        WriteFailure(s, path);
      }
      CleanUp(s, path, held);
    }

    method WriteAnswer(s: Script, path: Path)
      requires path.Returned? && path.made > 0
      modifies this`run, this`agent, this`assistantMessages
      ensures run == if s.cancelled(WrittenAt(path)) then Cancelled else Completed
      ensures assistantMessages == old(assistantMessages) + if run == Completed then 1 else 0
      ensures agent == if run == Cancelled && s.stopped(WrittenAt(path)) then Stopped else Ready
    {
      if s.cancelled(WrittenAt(path)) {
        run := Cancelled;
        agent := if s.stopped(WrittenAt(path)) then Stopped else Ready;
        return;
      }
      run, assistantMessages, agent := Completed, assistantMessages + 1, Ready;
    }

    /** Whether the run counts as cancelled was decided when the error was caught. */
    method WriteFailure(s: Script, path: Path)
      requires path.Threw?
      modifies this`run, this`agent
      ensures run == if path.isCancel || s.cancelled(path.at) then Cancelled else Failed
      ensures agent == if s.stopped(WrittenAt(path)) then Stopped else if run == Cancelled then Ready else Error
    {
      var cancelled := path.isCancel || s.cancelled(path.at);
      run := if cancelled then Cancelled else Failed;
      agent := if s.stopped(WrittenAt(path)) then Stopped else if cancelled then Ready else Error;
    }

    /** The finally block: a turn that was begun is ended, a token that was minted is revoked. */
    method CleanUp(s: Script, path: Path, held: Held)
      requires Valid() && ProjectExecution.Lawful(s.turn.world, s.runId)
      requires held.binding.Some? ==>
                 held.binding.value.runId == s.runId && ProjectExecution.HasOnly(Db(), held.binding.value)
      requires held.binding.None? && s.turn.releaseFault == NoFault ==> !HasRunLease(Db(), s.runId)
      modifies this`threadRecorded, scope.coordinator.store, sessions
      ensures Valid()
      ensures s.turn.releaseFault == NoFault ==> !HasRunLease(Db(), s.runId)
      ensures held.binding.None? ==> Db() == old(Db())
      ensures threadRecorded ==
              (old(threadRecorded) || (held.binding.Some? && path.Returned? && s.turn.threadSaved))
      ensures sessions.live == if held.token.Some? then old(sessions.live) - {held.token.value} else old(sessions.live)
    {
      hide HasRunLease, ProjectExecution.HasOnly, ProjectExecution.Lawful;
      if held.binding.Some? {
        var recorded := scope.EndTurn(held.binding.value, s.turn, path.Returned?);
        threadRecorded := threadRecorded || recorded;
      }
      if held.token.Some? {
        sessions.Revoke(held.token.value);
      }
    }

    /** The guarded part: it begins the turn, mints the token, and calls the runner. */
    method Attempts(s: Script) returns (path: Path, held: Held)
      requires Valid() && ValidScript(s) && ProjectExecution.Lawful(s.turn.world, s.runId)
      requires runnerCalls == 0 && !HasRunLease(Db(), s.runId)
      modifies this`runnerCalls, scope.coordinator.store, sessions
      ensures Valid()
      ensures path == Guarded(s, TurnBegins(s, old(Db()), old(scope.coordinator.archiving))) && runnerCalls == path.made
      ensures path.Returned? ==> (held.binding.Some? <==> s.project.Some?)
      ensures s.cancelled(0) ==> held == Held(None, None) && Db() == old(Db())
      ensures held.binding.Some? ==>
                held.binding.value.runId == s.runId && ProjectExecution.HasOnly(Db(), held.binding.value)
      ensures held.binding.None? && s.turn.releaseFault == NoFault ==> !HasRunLease(Db(), s.runId)
      ensures sessions.live == if held.token.Some? then old(sessions.live) + {held.token.value} else old(sessions.live)
      ensures held.token.Some? ==> held.token.value !in old(sessions.live)
    {
      hide HasRunLease, ProjectExecution.HasOnly, ProjectExecution.Lawful, ProjectExecution.Obtains;
      held := Held(None, None);
      if s.cancelled(0) {
        return Threw(0, true, 0), held;
      }
      if s.project.Some? {
        var lease := Lease(s.project.value, s.agentId, s.runId);
        var begun := scope.BeginTurn(lease, s.turn);
        if !begun {
          return Threw(0, false, 1), held;
        }
        held := Held(Some(lease), None);
      }
      if s.setup != SetupDone {
        return Threw(0, false, 1), held;
      }
      if s.mcp {
        var token := sessions.Mint();
        held := held.(token := Some(token));
      }
      path := CallRunner(s);
    }

    /** The loop over the models. */
    method CallRunner(s: Script) returns (path: Path)
      requires s.models > 0 && runnerCalls == 0
      modifies this`runnerCalls
      ensures path == From(s, 0) && runnerCalls == path.made
    {
      var k := 0;
      while k < s.models
        invariant 0 <= k < s.models && runnerCalls == k
        invariant From(s, 0) == From(s, k)
      {
        if s.cancelled(Before(k)) {
          return Threw(k, true, Before(k));
        }
        runnerCalls := runnerCalls + 1;
        match s.attempts(k) {
          case Answers => return Returned(k + 1);
          case IsCancelled => return Threw(k + 1, true, After(k));
          case Breaks => return Threw(k + 1, false, After(k));
          case ModelUnavailable =>
            if s.cancelled(After(k)) || k == s.models - 1 {
              return Threw(k + 1, false, After(k));
            }
        }
        k := k + 1;
      }
    }
  }
}
