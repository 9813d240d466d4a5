/** The event journal of orchestration sessions and what each lifecycle mutation writes to it.

    The events and turns of all sessions share two arrays; a session's own are found by filtering. */
module Journal {
  import opened Wrappers
  import opened Sequences
  import Roster

  type Id = string

  const MAX_EVENTS_PER_SESSION := 10000

  datatype Status = Draft | Queued | Running | Stopping | Completed | Failed | Stopped | Interrupted

  datatype EventType =
    | OrchestrationCreated | OrchestrationStarted | OrchestrationContinued | StopRequested | SupervisorDecision
    | HandoffApplied | ParticipantDispatched | RunCompleted | ChildRunCancelled | ParticipantFailed
    | OrchestrationCompleted | OrchestrationFailed | OrchestrationStopped | OrchestrationInterrupted

  datatype Event = Event(sessionId: Id, sequence: int, kind: EventType)

  datatype Turn = Turn(sessionId: Id, runId: Id, stepIndex: nat)

  datatype Session = Session(
    status: Status, currentRunId: Option<Id>, stepIndex: nat, mode: Roster.Mode, maxSteps: nat)

  datatype Data = Data(sessions: map<Id, Session>, events: seq<Event>, turns: seq<Turn>)

  predicate IsTerminal(status: Status) {
    status.Completed? || status.Failed? || status.Stopped? || status.Interrupted?
  }

  predicate IsActive(status: Status) {
    status.Queued? || status.Running? || status.Stopping?
  }

  function EventsOf(events: seq<Event>, id: Id): seq<Event> {
    Filter((e: Event) => e.sessionId == id, events)
  }

  function TurnsOf(turns: seq<Turn>, id: Id): seq<Turn> {
    Filter((t: Turn) => t.sessionId == id, turns)
  }

  function MaxSequence(events: seq<Event>, id: Id): (r: int)
    ensures r >= -1
  {
    if events == [] then -1
    else
      var before := MaxSequence(events[..|events| - 1], id);
      var e := events[|events| - 1];
      if e.sessionId == id && e.sequence > before then e.sequence else before
  }

  /** The source's scan for the largest sequence number of a session. */
  method MaxEventSequence(events: seq<Event>, id: Id) returns (maximum: int)
    ensures maximum == MaxSequence(events, id)
  {
    maximum := -1;
    for i := 0 to |events|
      invariant maximum == MaxSequence(events[..i], id)
    {
      assert events[..i + 1][..i] == events[..i];
      if events[i].sessionId == id && events[i].sequence > maximum {
        maximum := events[i].sequence;
      }
    }
    assert events[..|events|] == events;
  }

  /** Appending throws when the session has as many events as it may have. */
  function Append(d: Data, id: Id, kind: EventType): Option<Data> {
    if |EventsOf(d.events, id)| >= MAX_EVENTS_PER_SESSION then None
    else Some(d.(events := d.events + [Event(id, MaxSequence(d.events, id) + 1, kind)]))
  }

  function AppendAll(d: Data, id: Id, kinds: seq<EventType>): Option<Data>
    decreases |kinds|
  {
    if kinds == [] then Some(d)
    else
      match Append(d, id, kinds[0])
      case None => None
      case Some(next) => AppendAll(next, id, kinds[1..])
  }

  // ------------------------------------------------------------ numbering

  /** The events, in array order, are numbered 0, 1, 2 and so on, and within the limit. */
  predicate Numbered(events: seq<Event>) {
    |events| <= MAX_EVENTS_PER_SESSION && forall k :: 0 <= k < |events| ==> events[k].sequence == k
  }

  lemma {:induction false} MaxOfNumbered(events: seq<Event>, id: Id)
    requires Numbered(EventsOf(events, id))
    ensures MaxSequence(events, id) == |EventsOf(events, id)| - 1
  {
    if events != [] {
      var n := |events| - 1;
      var own := EventsOf(events[..n], id);
      assert events == events[..n] + [events[n]];
      SnocEvents(events[..n], events[n], id);
      hide EventsOf;
      assert own == EventsOf(events, id)[..|own|];
      if events[n].sessionId == id {
        assert EventsOf(events, id)[|own|] == events[n];
      }
      MaxOfNumbered(events[..n], id);
    }
  }

  /** The numbered events for the given kinds, from number `n` on. */
  function Fresh(id: Id, n: nat, kinds: seq<EventType>): seq<Event> {
    seq(|kinds|, k requires 0 <= k < |kinds| => Event(id, n + k, kinds[k]))
  }

  lemma AppendView(d: Data, id: Id, kind: EventType)
    requires Numbered(EventsOf(d.events, id))
    ensures Append(d, id, kind).None? <==> |EventsOf(d.events, id)| == MAX_EVENTS_PER_SESSION
    ensures Append(d, id, kind).Some? ==>
              var next := Append(d, id, kind).value;
              && next.sessions == d.sessions && next.turns == d.turns
              && EventsOf(next.events, id) == EventsOf(d.events, id) + [Event(id, |EventsOf(d.events, id)|, kind)]
              && Numbered(EventsOf(next.events, id))
  {
    MaxOfNumbered(d.events, id);
    var e := Event(id, MaxSequence(d.events, id) + 1, kind);
    SnocEvents(d.events, e, id);
    hide EventsOf, MaxSequence;
  }

  lemma SnocEvents(events: seq<Event>, e: Event, id: Id)
    ensures EventsOf(events + [e], id) == EventsOf(events, id) + if e.sessionId == id then [e] else []
  {
    assert (events + [e])[..|events|] == events;
  }

  lemma SnocTurns(turns: seq<Turn>, t: Turn, id: Id)
    ensures TurnsOf(turns + [t], id) == TurnsOf(turns, id) + if t.sessionId == id then [t] else []
  {
    assert (turns + [t])[..|turns|] == turns;
  }

  lemma AppendFrame(d: Data, id: Id, kind: EventType, other: Id)
    requires other != id && Append(d, id, kind).Some?
    ensures EventsOf(Append(d, id, kind).value.events, other) == EventsOf(d.events, other)
  {
    SnocEvents(d.events, Event(id, MaxSequence(d.events, id) + 1, kind), other);
    hide EventsOf, MaxSequence;
  }

  lemma {:induction false} AppendAllView(d: Data, id: Id, kinds: seq<EventType>)
    requires Numbered(EventsOf(d.events, id))
    ensures AppendAll(d, id, kinds).None? <==> |EventsOf(d.events, id)| + |kinds| > MAX_EVENTS_PER_SESSION
    ensures AppendAll(d, id, kinds).Some? ==>
              var next := AppendAll(d, id, kinds).value;
              && next.sessions == d.sessions && next.turns == d.turns
              && EventsOf(next.events, id) == EventsOf(d.events, id) + Fresh(id, |EventsOf(d.events, id)|, kinds)
              && Numbered(EventsOf(next.events, id))
    decreases |kinds|
  {
    hide EventsOf, Append, Numbered;
    if kinds == [] {
      NumberedIsBounded(EventsOf(d.events, id));
      assert EventsOf(d.events, id) + Fresh(id, |EventsOf(d.events, id)|, kinds) == EventsOf(d.events, id);
    } else {
      AppendView(d, id, kinds[0]);
      NumberedIsBounded(EventsOf(d.events, id));
      if Append(d, id, kinds[0]).Some? {
        var n := |EventsOf(d.events, id)|;
        AppendAllView(Append(d, id, kinds[0]).value, id, kinds[1..]);
        assert Fresh(id, n, kinds) == [Event(id, n, kinds[0])] + Fresh(id, n + 1, kinds[1..]);
      }
    }
  }

  lemma NumberedIsBounded(events: seq<Event>)
    requires Numbered(events)
    ensures |events| <= MAX_EVENTS_PER_SESSION
  {
  }

  lemma {:induction false} AppendAllFrame(d: Data, id: Id, kinds: seq<EventType>, other: Id)
    requires other != id && AppendAll(d, id, kinds).Some?
    ensures EventsOf(AppendAll(d, id, kinds).value.events, other) == EventsOf(d.events, other)
    decreases |kinds|
  {
    hide EventsOf, MaxSequence;
    if kinds != [] {
      AppendFrame(d, id, kinds[0], other);
      AppendAllFrame(Append(d, id, kinds[0]).value, id, kinds[1..], other);
    }
  }

  lemma {:induction false} AppendAllOnlyAppends(d: Data, id: Id, kinds: seq<EventType>)
    requires AppendAll(d, id, kinds).Some?
    ensures AppendAll(d, id, kinds).value.sessions == d.sessions && AppendAll(d, id, kinds).value.turns == d.turns
    decreases |kinds|
  {
    hide EventsOf, MaxSequence;
    if kinds != [] {
      AppendAllOnlyAppends(Append(d, id, kinds[0]).value, id, kinds[1..]);
    }
  }

  lemma AppendOneOrTwo(d: Data, id: Id, a: EventType, b: EventType)
    ensures AppendAll(d, id, []) == Some(d) && AppendAll(d, id, [a]) == Append(d, id, a)
    ensures Append(d, id, a).Some? ==> AppendAll(d, id, [a, b]) == Append(Append(d, id, a).value, id, b)
    ensures Append(d, id, a).None? ==> AppendAll(d, id, [a, b]) == None
  {
    hide Append;
    assert [a][1..] == [] && [a, b][1..] == [b] && [b][1..] == [];
    if Append(d, id, a).Some? {
      assert AppendAll(Append(d, id, a).value, id, [b]) == Append(Append(d, id, a).value, id, b);
    }
  }
}
