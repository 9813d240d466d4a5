/** The JSON store: mutations queue up and run one at a time on a copy of the committed data,
    which becomes the committed data only after it was written and renamed into place. */
module Store {
  import opened Wrappers

  /** A callback: what it makes of the copy, or `None` if it throws. */
  type Mutation<!D> = D -> Option<D>

  /** Where the file system lets a write down. */
  datatype Fault = NoFault | WriteFails | RenameFails

  class JsonStore<D(!new)> {
    var data: D
    var file: D
    var temporary: Option<D>

    ghost predicate Valid()
      reads this
    {
      file == data
    }

    constructor (initial: D)
      ensures Valid() && data == initial
    {
      data, file, temporary := initial, initial, None;
    }

    method Mutate(mutation: Mutation<D>, fault: Fault) returns (ok: bool)
      requires Valid()
      modifies this
      ensures Valid()
      ensures ok <==> mutation(old(data)).Some? && fault == NoFault
      ensures data == if ok then mutation(old(data)).value else old(data)
    {
      var next := mutation(data);
      if next.None? {
        return false;
      }
      ok := Persist(next.value, fault);
      if ok {
        data := next.value;
      }
    }

    method Persist(next: D, fault: Fault) returns (ok: bool)
      modifies this
      ensures ok <==> fault == NoFault
      ensures data == old(data) && file == if ok then next else old(file)
    {
      if fault == WriteFails {
        return false;
      }
      temporary := Some(next);
      if fault == RenameFails {
        return false;
      }
      file, temporary := next, None;
      ok := true;
    }
  }

  // ------------------------------------------------------------ mutations that overlap, and crashes

  /** How far the mutation at the head of the queue has come. */
  datatype Progress<D> = Idle | Called(next: D) | Written(next: D) | Renamed(next: D)

  /** `accepted` are all mutations in the order they were asked for; `settled` says of the first
      ones whether they succeeded, and the rest are still queued, the first of them perhaps
      under way. */
  datatype Machine<!D> = Machine(
    data: D, file: D, progress: Progress<D>, accepted: seq<Mutation<D>>, settled: seq<bool>)

  datatype Event<!D> =
    | Ask(mutation: Mutation<D>)
    | Call
    | Write(ok: bool)
    | Rename(ok: bool)
    | Publish
    | Crash

  function Settle<D>(m: Machine<D>, ok: bool): Machine<D> {
    m.(progress := Idle, settled := m.settled + [ok])
  }

  function Step<D>(m: Machine<D>, e: Event<D>): Machine<D> {
    match e
    case Ask(mutation) => m.(accepted := m.accepted + [mutation])
    case Call =>
      if !m.progress.Idle? || |m.settled| >= |m.accepted| then m
      else
        (match m.accepted[|m.settled|](m.data)
         case None => Settle(m, false)
         case Some(next) => m.(progress := Called(next)))
    case Write(ok) =>
      if !m.progress.Called? then m else if ok then m.(progress := Written(m.progress.next)) else Settle(m, false)
    case Rename(ok) =>
      if !m.progress.Written? then m
      else if ok then m.(progress := Renamed(m.progress.next), file := m.progress.next)
      else Settle(m, false)
    case Publish =>
      if !m.progress.Renamed? then m else Settle(m.(data := m.progress.next), true)
    case Crash => Reloaded(m)
  }

  /** A restart reads the file; what was queued is forgotten, and a mutation whose file was
      already renamed counts as done. */
  function Reloaded<D>(m: Machine<D>): Machine<D> {
    var settled := if m.progress.Renamed? then m.settled + [true] else m.settled;
    Machine(m.file, m.file, Idle, if |settled| <= |m.accepted| then m.accepted[..|settled|] else m.accepted, settled)
  }

  function Run<D>(m: Machine<D>, events: seq<Event<D>>): Machine<D> {
    if events == [] then m else Step(Run(m, events[..|events| - 1]), events[|events| - 1])
  }

  /** The reference: the mutations that succeeded, applied one after the other. */
  function Applied<D>(initial: D, mutations: seq<Mutation<D>>, succeeded: seq<bool>): Option<D>
    requires |mutations| == |succeeded|
  {
    if mutations == [] then Some(initial)
    else
      var n := |mutations| - 1;
      var before := Applied(initial, mutations[..n], succeeded[..n]);
      if before.None? || !succeeded[n] then before else mutations[n](before.value)
  }

  ghost predicate Inv<D(!new)>(initial: D, m: Machine<D>) {
    && |m.settled| <= |m.accepted|
    && Applied(initial, m.accepted[..|m.settled|], m.settled) == Some(m.data)
    && m.file == (if m.progress.Renamed? then m.progress.next else m.data)
    && (!m.progress.Idle? ==>
          |m.settled| < |m.accepted| && m.accepted[|m.settled|](m.data) == Some(m.progress.next))
  }

  lemma SettleKeeps<D(!new)>(initial: D, m: Machine<D>, ok: bool, data: D)
    requires |m.settled| < |m.accepted|
    requires Applied(initial, m.accepted[..|m.settled|], m.settled) == Some(m.data)
    requires if ok then m.accepted[|m.settled|](m.data) == Some(data) else data == m.data
    ensures Applied(initial, m.accepted[..|m.settled| + 1], m.settled + [ok]) == Some(data)
  {
    var n := |m.settled|;
    assert m.accepted[..n + 1][..n] == m.accepted[..n];
    assert (m.settled + [ok])[..n] == m.settled;
  }

  lemma StepKeeps<D(!new)>(initial: D, m: Machine<D>, e: Event<D>)
    requires Inv(initial, m)
    ensures Inv(initial, Step(m, e))
  {
    var n := |m.settled|;
    match e
    case Ask(mutation) => assert (m.accepted + [mutation])[..n] == m.accepted[..n];
    case Call =>
      if m.progress.Idle? && n < |m.accepted| && m.accepted[n](m.data).None? {
        SettleKeeps(initial, m, false, m.data);
      }
    case Publish =>
      if m.progress.Renamed? {
        SettleKeeps(initial, m, true, m.progress.next);
      }
    case Crash => ReloadKeeps(initial, m);
    case _ =>
      if n < |m.accepted| {
        SettleKeeps(initial, m, false, m.data);
      }
  }

  lemma ReloadKeeps<D(!new)>(initial: D, m: Machine<D>)
    requires Inv(initial, m)
    ensures Inv(initial, Reloaded(m))
  {
    var n := |m.settled|;
    if m.progress.Renamed? {
      SettleKeeps(initial, m, true, m.progress.next);
      assert m.accepted[..n + 1][..n + 1] == m.accepted[..n + 1];
    } else {
      assert m.accepted[..n][..n] == m.accepted[..n];
    }
  }

  ghost predicate Fresh<D(!new)>(m: Machine<D>) {
    m.file == m.data && m.progress == Idle && m.accepted == [] && m.settled == []
  }

  lemma {:induction false} ReachableInv<D(!new)>(m: Machine<D>, events: seq<Event<D>>)
    requires Fresh(m)
    ensures Inv(m.data, Run(m, events))
  {
    if events == [] {
      assert m.accepted[..0] == [];
    } else {
      hide Inv, Step;
      ReachableInv(m, events[..|events| - 1]);
      StepKeeps(m.data, Run(m, events[..|events| - 1]), events[|events| - 1]);
    }
  }

  /** In every reachable state, crashes included, the committed data is what the mutations that
      succeeded make of the initial data, one after the other in the order they were asked for. */
  lemma CommittedIsSequential<D(!new)>(m: Machine<D>, events: seq<Event<D>>)
    requires Fresh(m)
    ensures
      var r := Run(m, events);
      && |r.settled| <= |r.accepted|
      && Applied(m.data, r.accepted[..|r.settled|], r.settled) == Some(r.data)
  {
    hide Step, Run;
    ReachableInv(m, events);
  }

  /** A crash reloads the committed data, or what the mutation under way makes of it, and the
      latter exactly when its file was already renamed into place. */
  lemma CrashIsAtomic<D(!new)>(m: Machine<D>, events: seq<Event<D>>)
    requires Fresh(m)
    ensures
      var r := Run(m, events);
      var reloaded := Step(r, Crash);
      if r.progress.Renamed? then
        && |r.settled| < |r.accepted| && r.accepted[|r.settled|](r.data) == Some(reloaded.data)
        && reloaded.settled == r.settled + [true]
      else reloaded.data == r.data && reloaded.settled == r.settled
  {
    hide Run;
    ReachableInv(m, events);
  }

  /** The steps of one mutation from its call to its end. */
  function Steps<D>(fault: Fault): seq<Event<D>> {
    [Call, Write(fault != WriteFails)] + [Rename(fault != RenameFails), Publish]
  }

  lemma RunTwo<D(!new)>(m: Machine<D>, e: Event<D>, f: Event<D>)
    ensures Run(m, [e, f]) == Step(Step(m, e), f)
  {
    hide Step;
    assert [e, f][..1] == [e] && [e][..0] == [];
    assert Run(m, [e]) == Step(m, e);
  }

  lemma {:induction false} RunConcat<D(!new)>(m: Machine<D>, a: seq<Event<D>>, b: seq<Event<D>>)
    ensures Run(m, a + b) == Run(Run(m, a), b)
  {
    hide Step;
    if b == [] {
      assert a + b == a;
    } else {
      var c := a + b;
      assert c[..|c| - 1] == a + b[..|b| - 1];
      RunConcat(m, a, b[..|b| - 1]);
    }
  }

  /** A mutation that throws or cannot be written changes nothing, and the store is idle again
      behind it: the next one in the queue is not held up. */
  lemma HeadOfQueueSettles<D(!new)>(m: Machine<D>, fault: Fault)
    requires m.progress.Idle? && |m.settled| < |m.accepted| && m.file == m.data
    ensures
      var next := m.accepted[|m.settled|](m.data);
      var ok := next.Some? && fault == NoFault;
      var data := if ok then next.value else m.data;
      Run(m, Steps(fault)) == Machine(data, data, Idle, m.accepted, m.settled + [ok])
  {
    hide Run;
    var early: seq<Event<D>>, late: seq<Event<D>> := [Call, Write(fault != WriteFails)],
      [Rename(fault != RenameFails), Publish];
    RunConcat(m, early, late);
    RunTwo(m, Call, Write(fault != WriteFails));
    RunTwo(Run(m, early), Rename(fault != RenameFails), Publish);
  }
}
