/** The prompt handed from one participant to the next: what it shows of the shared
    conversation, how it is rendered, and how it is made to fit a limit. */
module Handoff {
  import opened Wrappers
  import opened Text
  import opened Escaping

  datatype Envelope = Envelope(
    sourceParticipantId: string, sourceAgentId: string, sourceRunId: string, content: string, truncated: bool)

  datatype Turn = Turn(
    participantId: string, agentId: string, position: int, stepIndex: Option<int>, output: string,
    outputTruncated: bool)

  datatype Limits = Limits(
    maxOutputChars: Option<int>, maxPromptChars: Option<int>, maxOriginalPromptChars: Option<int>,
    maxRecentTurns: Option<int>, maxTurnOutputChars: Option<int>, maxRecentTurnsChars: Option<int>)

  /** `redactSensitiveText` is an arbitrary text function here. */
  type Redactor = string -> string

  const OUTPUT_TRUNCATED := "[OUTPUT TRUNCATED]"
  const TURN_TRUNCATED := "[TURN OUTPUT TRUNCATED]"
  const TASK_TRUNCATED := "[TASK TRUNCATED]"
  const ROLE_TRUNCATED := "[ROLE TRUNCATED]"
  const PROMPT_TRUNCATED := "[PROMPT TRUNCATED]"

  function PositiveLimit(value: Option<int>, fallback: nat): (n: nat)
    requires fallback > 0
    ensures n > 0 && (n == fallback || value == Some(n))
    ensures value.Some? && value.value > 0 ==> value == Some(n)
  {
    if value.Some? && value.value > 0 then value.value else fallback
  }

  function SafeIdentifier(redact: Redactor, value: string): string {
    var safe := Trim(redact(value));
    if |safe| > 160 then safe[..160] else if safe == "" then "unknown" else safe
  }

  function SafePromptText(redact: Redactor, value: string, maxChars: nat, marker: string): string {
    TruncateText(redact(value), maxChars, marker).value
  }

  function NormalizedPosition(value: int): nat {
    if value >= 0 then value else 0
  }

  function NormalizedStepIndex(value: Option<int>): Option<int> {
    if value.Some? && value.value >= 0 then value else None
  }

  function CreateEnvelope(redact: Redactor, source: Envelope, maxOutputChars: nat): Envelope {
    var bounded := TruncateText(redact(source.content), maxOutputChars, OUTPUT_TRUNCATED);
    Envelope(
      SafeIdentifier(redact, source.sourceParticipantId), SafeIdentifier(redact, source.sourceAgentId),
      SafeIdentifier(redact, source.sourceRunId), bounded.value, source.truncated || bounded.truncated)
  }

  /** An identifier that crosses a handoff is never empty and never longer than 160 characters. */
  lemma IdentifiersAreBounded(redact: Redactor, value: string)
    ensures 0 < |SafeIdentifier(redact, value)| <= 160
  {
    hide Trim;
  }

  /** An identifier is the redacted text without the spaces around it, cut to 160 characters; of
      nothing but spaces it is `unknown`. */
  lemma IdentifierIs(redact: Redactor, value: string)
    ensures exists t :: IsTrimmed(t, redact(value))
              && SafeIdentifier(redact, value) == if t == "" then "unknown" else if |t| > 160 then t[..160] else t
  {
    hide IsTrimmed, Trim;
    TrimIs(redact(value));
  }

  /** The envelope's content is the redacted output, cut to its limit, and marked as cut exactly
      when it was cut here or before; it names where it comes from. */
  lemma EnvelopeIsBounded(redact: Redactor, source: Envelope, max: nat)
    ensures
      var e := CreateEnvelope(redact, source, max);
      && |e.content| <= max
      && (e.truncated <==> source.truncated || |redact(source.content)| > max)
      && FillsRoom(e.content, redact(source.content), max, OUTPUT_TRUNCATED)
      && e.sourceParticipantId == SafeIdentifier(redact, source.sourceParticipantId)
      && e.sourceAgentId == SafeIdentifier(redact, source.sourceAgentId)
      && e.sourceRunId == SafeIdentifier(redact, source.sourceRunId)
  {
    TruncationFillsRoom(redact(source.content), max, OUTPUT_TRUNCATED);
    hide Trim, FillsRoom;
  }

  // ------------------------------------------------------------ shared conversation

  function Candidate(redact: Redactor, turn: Turn, maxTurnOutputChars: nat): Turn {
    var output := TruncateText(redact(turn.output), maxTurnOutputChars, TURN_TRUNCATED);
    Turn(
      SafeIdentifier(redact, turn.participantId), SafeIdentifier(redact, turn.agentId),
      NormalizedPosition(turn.position),
      NormalizedStepIndex(turn.stepIndex), output.value, turn.outputTruncated || output.truncated)
  }

  /** The newest turns, each bounded on its own. */
  function Candidates(redact: Redactor, turns: seq<Turn>, maxRecentTurns: nat, maxTurnOutputChars: nat): (c: seq<Turn>)
    ensures |c| == if |turns| > maxRecentTurns then maxRecentTurns else |turns|
  {
    var recent := if |turns| > maxRecentTurns then turns[|turns| - maxRecentTurns..] else turns;
    seq(|recent|, i requires 0 <= i < |recent| => Candidate(redact, recent[i], maxTurnOutputChars))
  }

  lemma CandidateFromBack(redact: Redactor, turns: seq<Turn>, maxRecentTurns: nat, maxChars: nat, back: nat)
    requires back < |Candidates(redact, turns, maxRecentTurns, maxChars)|
    ensures back < |turns|
    ensures FromBack(Candidates(redact, turns, maxRecentTurns, maxChars), back) ==
            Candidate(redact, FromBack(turns, back), maxChars)
  {
    hide Candidate;
  }

  /** The candidates are the newest turns in order; each output is the redacted one, cut to its
      limit, and marked as cut exactly when it was cut here or before. */
  lemma CandidatesAreNewest(redact: Redactor, turns: seq<Turn>, maxRecentTurns: nat, maxChars: nat, back: nat)
    requires back < |Candidates(redact, turns, maxRecentTurns, maxChars)|
    ensures back < |turns|
    ensures
      var c := FromBack(Candidates(redact, turns, maxRecentTurns, maxChars), back);
      var turn := FromBack(turns, back);
      && |c.output| <= maxChars
      && (c.outputTruncated <==> turn.outputTruncated || |redact(turn.output)| > maxChars)
      && FillsRoom(c.output, redact(turn.output), maxChars, TURN_TRUNCATED)
      && c.participantId == SafeIdentifier(redact, turn.participantId)
      && c.agentId == SafeIdentifier(redact, turn.agentId)
      && c.position >= 0 && (turn.position >= 0 ==> c.position == turn.position)
      && (turn.position < 0 ==> c.position == 0)
      && (c.stepIndex == turn.stepIndex || (c.stepIndex == None && turn.stepIndex.value < 0))
      && (c.stepIndex.Some? ==> c.stepIndex.value >= 0)
  {
    hide Trim, SafeIdentifier, Candidates, FromBack, FillsRoom;
    CandidateFromBack(redact, turns, maxRecentTurns, maxChars, back);
    TruncationFillsRoom(redact(FromBack(turns, back).output), maxChars, TURN_TRUNCATED);
  }

  function Cut(turn: Turn, budget: nat): Turn {
    var output := TruncateText(turn.output, budget, TURN_TRUNCATED);
    turn.(output := output.value, outputTruncated := turn.outputTruncated || output.truncated)
  }

  /** The budget is spent from the newest turn back; what is kept stays in order. */
  function Allocate(candidates: seq<Turn>, budget: nat): seq<Turn> {
    if candidates == [] || budget == 0 then []
    else
      var newest := Cut(candidates[|candidates| - 1], budget);
      Allocate(candidates[..|candidates| - 1], budget - |newest.output|) + [newest]
  }

  function TotalOutput(turns: seq<Turn>): nat {
    if turns == [] then 0 else TotalOutput(turns[..|turns| - 1]) + |turns[|turns| - 1].output|
  }

  /** Same turn, possibly with a shortened output. */
  ghost predicate Shows(shown: Turn, turn: Turn) {
    && shown.(output := turn.output, outputTruncated := turn.outputTruncated) == turn
    && |shown.output| <= |turn.output|
    && (shown.output == turn.output || shown.outputTruncated)
  }

  lemma CutShows(turn: Turn, budget: nat)
    ensures Shows(Cut(turn, budget), turn) && |Cut(turn, budget).output| <= budget
    ensures |turn.output| <= budget ==> Cut(turn, budget) == turn
  {
  }

  /** The allocation respects the budget in all ... */
  lemma {:induction false} AllocateWithinBudget(candidates: seq<Turn>, budget: nat)
    ensures TotalOutput(Allocate(candidates, budget)) <= budget
    ensures |Allocate(candidates, budget)| <= |candidates|
  {
    hide Cut;
    if candidates != [] && budget > 0 {
      var init, newest := candidates[..|candidates| - 1], candidates[|candidates| - 1];
      CutShows(newest, budget);
      AllocateWithinBudget(init, budget - |Cut(newest, budget).output|);
      TotalOutputSnoc(Allocate(init, budget - |Cut(newest, budget).output|), Cut(newest, budget));
    }
  }

  /** ... and is made of the newest candidates, in order. */
  lemma {:induction false} AllocateIsNewest(candidates: seq<Turn>, budget: nat, back: nat)
    requires back < |Allocate(candidates, budget)|
    ensures back < |candidates|
    ensures Shows(FromBack(Allocate(candidates, budget), back), FromBack(candidates, back))
  {
    hide Cut, Shows;
    var init, newest := candidates[..|candidates| - 1], candidates[|candidates| - 1];
    CutShows(newest, budget);
    if back > 0 {
      AllocateIsNewest(init, budget - |Cut(newest, budget).output|, back - 1);
    }
  }

  function FromBack(turns: seq<Turn>, back: nat): Turn
    requires back < |turns|
  {
    turns[|turns| - 1 - back]
  }

  /** Newest turns that fit the budget together are kept whole, and what they leave goes to
      the older ones. */
  lemma {:induction false} AllocateKeepsNewestWhole(older: seq<Turn>, newer: seq<Turn>, budget: nat)
    requires TotalOutput(newer) <= budget
    requires newer != [] ==> TotalOutput(newer[1..]) < budget
    ensures Allocate(older + newer, budget) == Allocate(older, budget - TotalOutput(newer)) + newer
  {
    hide Allocate, Cut;
    if newer == [] {
      assert older + newer == older;
    } else {
      var init, last := newer[..|newer| - 1], newer[|newer| - 1];
      CutShows(last, budget);
      assert older + newer == older + init + [last];
      AllocateSnoc(older + init, last, budget);
      if init != [] {
        assert newer[1..] == init[1..] + [last];
        TotalOutputSnoc(init[1..], last);
      }
      AllocateKeepsNewestWhole(older, init, budget - |last.output|);
    }
  }

  lemma AllocateSnoc(turns: seq<Turn>, newest: Turn, budget: nat)
    requires budget > 0
    ensures Allocate(turns + [newest], budget) ==
            Allocate(turns, budget - |Cut(newest, budget).output|) + [Cut(newest, budget)]
  {
    assert (turns + [newest])[..|turns|] == turns;
  }

  lemma TotalOutputSnoc(turns: seq<Turn>, newest: Turn)
    ensures TotalOutput(turns + [newest]) == TotalOutput(turns) + |newest.output|
  {
    assert (turns + [newest])[..|turns|] == turns;
  }

  /** What the newer turns leave of the budget. */
  function Left(kept: seq<Turn>, back: nat, budget: nat): int
    requires back <= |kept|
  {
    budget - TotalOutput(kept[|kept| - back..])
  }

  /** Each kept turn is a candidate, from the newest one back, with the output that is left room
      for; and it is all of them unless the budget is used up. */
  ghost predicate Allocated(kept: seq<Turn>, candidates: seq<Turn>, budget: nat) {
    && |kept| <= |candidates|
    && (|kept| == |candidates| || TotalOutput(kept) == budget)
    && forall back :: 0 <= back < |kept| ==>
         KeptAt(FromBack(kept, back), FromBack(candidates, back), Left(kept, back, budget))
  }

  ghost predicate KeptAt(shown: Turn, turn: Turn, room: int) {
    && room > 0
    && FillsRoom(shown.output, turn.output, room, TURN_TRUNCATED)
    && shown == turn.(output := shown.output, outputTruncated := turn.outputTruncated || |turn.output| > room)
  }

  lemma CutIsKept(turn: Turn, budget: nat)
    requires budget > 0
    ensures KeptAt(Cut(turn, budget), turn, budget)
  {
    hide FillsRoom;
    TruncationFillsRoom(turn.output, budget, TURN_TRUNCATED);
  }

  lemma {:induction false} AllocationIs(candidates: seq<Turn>, budget: nat)
    ensures Allocated(Allocate(candidates, budget), candidates, budget)
  {
    hide Cut, KeptAt;
    if candidates != [] && budget > 0 {
      var init, newest := candidates[..|candidates| - 1], candidates[|candidates| - 1];
      var cut := Cut(newest, budget);
      CutShows(newest, budget);
      CutIsKept(newest, budget);
      AllocationIs(init, budget - |cut.output|);
      AllocatedSnoc(Allocate(init, budget - |cut.output|), init, cut, newest, budget);
      assert candidates == init + [newest];
    }
  }

  lemma AllocatedSnoc(kept: seq<Turn>, candidates: seq<Turn>, cut: Turn, newest: Turn, budget: nat)
    requires |cut.output| <= budget && KeptAt(cut, newest, budget)
    requires Allocated(kept, candidates, budget - |cut.output|)
    ensures Allocated(kept + [cut], candidates + [newest], budget)
  {
    hide KeptAt, TotalOutput;
    TotalOutputSnoc(kept, cut);
    var all := kept + [cut];
    NothingIsTotal(all);
    forall back | 0 <= back < |all|
      ensures KeptAt(FromBack(all, back), FromBack(candidates + [newest], back), Left(all, back, budget))
    {
      if back > 0 {
        assert all[|all| - back..] == kept[|kept| - (back - 1)..] + [cut];
        TotalOutputSnoc(kept[|kept| - (back - 1)..], cut);
        assert FromBack(all, back) == FromBack(kept, back - 1);
        assert FromBack(candidates + [newest], back) == FromBack(candidates, back - 1);
        assert Left(all, back, budget) == Left(kept, back - 1, budget - |cut.output|);
      }
    }
  }

  lemma NothingIsTotal(turns: seq<Turn>)
    ensures TotalOutput(turns[|turns|..]) == 0
  {
  }

  // ------------------------------------------------------------ how many turns are cut

  /** How many of the newest turns are shown with another output than they have. */
  function CutCount(kept: seq<Turn>, candidates: seq<Turn>): nat {
    if kept == [] || candidates == [] then 0
    else
      CutCount(kept[..|kept| - 1], candidates[..|candidates| - 1])
      + if kept[|kept| - 1].output != candidates[|candidates| - 1].output then 1 else 0
  }

  lemma CutCountSnoc(kept: seq<Turn>, candidates: seq<Turn>, shown: Turn, turn: Turn)
    ensures CutCount(kept + [shown], candidates + [turn]) ==
            CutCount(kept, candidates) + if shown.output != turn.output then 1 else 0
  {
    assert (kept + [shown])[..|kept|] == kept && (candidates + [turn])[..|candidates|] == candidates;
  }

  lemma {:induction false} CutCountIgnoresWhole(kept: seq<Turn>, candidates: seq<Turn>, newer: seq<Turn>)
    ensures CutCount(kept + newer, candidates + newer) == CutCount(kept, candidates)
  {
    hide CutCount;
    if newer == [] {
      assert kept + newer == kept && candidates + newer == candidates;
    } else {
      var init, last := newer[..|newer| - 1], newer[|newer| - 1];
      CutCountIgnoresWhole(kept, candidates, init);
      assert kept + newer == kept + init + [last] && candidates + newer == candidates + init + [last];
      CutCountSnoc(kept + init, candidates + init, last, last);
    }
  }

  /** What cutting a text to a budget leaves of the budget. */
  function Leftover(text: string, budget: nat): nat
    requires |text| > budget
  {
    budget - |TruncateText(text, budget, TURN_TRUNCATED).value|
  }

  /** Cutting uses up the budget if and only if there is no more of it than the marker has
      characters, or the character that the cut ends with is not a space; with one character
      more than the marker the bare marker is all that fits. */
  lemma NothingLeftIff(text: string, budget: nat)
    requires |text| > budget > 0
    ensures Leftover(text, budget) == 0 <==>
            budget <= |TURN_TRUNCATED|
              || (budget > |TURN_TRUNCATED| + 1 && !IsSpace(text[budget - |TURN_TRUNCATED| - 2]))
  {
    hide IsSpace;
    assert |TURN_TRUNCATED| == 23;
    if budget > 24 {
      var front := text[..budget - 24];
      assert front[|front| - 1] == text[budget - 25];
    }
  }

  /** Going back from the newest turn, the outputs use up the budget exactly, or all fit. */
  predicate FillsExactly(turns: seq<Turn>, budget: nat) {
    budget == 0 || turns == []
    || (|turns[|turns| - 1].output| <= budget
        && FillsExactly(turns[..|turns| - 1], budget - |turns[|turns| - 1].output|))
  }

  lemma CutMakesShorter(turn: Turn, budget: nat)
    requires |turn.output| > budget
    ensures Cut(turn, budget).output != turn.output
    ensures |Cut(turn, budget).output| == budget - Leftover(turn.output, budget)
  {
  }

  lemma FillsSnoc(turns: seq<Turn>, last: Turn, budget: nat)
    requires budget > 0
    ensures FillsExactly(turns + [last], budget) <==>
            |last.output| <= budget && FillsExactly(turns, budget - |last.output|)
  {
    assert (turns + [last])[..|turns|] == turns;
  }

  lemma NothingToCut(turns: seq<Turn>, budget: nat)
    requires turns == [] || budget == 0
    ensures CutCount(Allocate(turns, budget), turns) == 0 && FillsExactly(turns, budget)
  {
  }

  /** No turn is cut if and only if the outputs fill the budget exactly or all fit. */
  lemma {:induction false} NothingIsCutIff(turns: seq<Turn>, budget: nat)
    ensures CutCount(Allocate(turns, budget), turns) == 0 <==> FillsExactly(turns, budget)
  {
    hide Cut, Leftover, Allocate, CutCount, FillsExactly;
    if turns == [] || budget == 0 {
      NothingToCut(turns, budget);
    } else {
      var init, last := turns[..|turns| - 1], turns[|turns| - 1];
      assert turns == init + [last];
      AllocateSnoc(init, last, budget);
      FillsSnoc(init, last, budget);
      CutShows(last, budget);
      CutCountSnoc(Allocate(init, budget - |Cut(last, budget).output|), init, Cut(last, budget), last);
      if |last.output| <= budget {
        NothingIsCutIff(init, budget - |last.output|);
      } else {
        CutMakesShorter(last, budget);
      }
    }
  }

  lemma {:induction false} TailIsNoLonger(turns: seq<Turn>)
    requires turns != []
    ensures TotalOutput(turns[1..]) <= TotalOutput(turns)
  {
    if |turns| > 1 {
      var init := turns[..|turns| - 1];
      TailIsNoLonger(init);
      assert turns[1..][..|turns| - 2] == init[1..];
    }
  }

  /** Of the turns from the newest one on that does not fit, that one is cut, and behind it what
      cutting it has left is offered to the older ones. */
  lemma CutsBehindFirst(older: seq<Turn>, turn: Turn, newer: seq<Turn>, budget: nat)
    requires TotalOutput(newer) < budget && |turn.output| > budget - TotalOutput(newer)
    ensures
      var left := Leftover(turn.output, budget - TotalOutput(newer));
      CutCount(Allocate(older + [turn] + newer, budget), older + [turn] + newer) ==
      1 + CutCount(Allocate(older, left), older)
  {
    hide Allocate, Cut, CutCount, Leftover;
    var b := budget - TotalOutput(newer);
    if newer != [] {
      TailIsNoLonger(newer);
    }
    AllocateKeepsNewestWhole(older + [turn], newer, budget);
    AllocateSnoc(older, turn, b);
    CutCountIgnoresWhole(Allocate(older + [turn], b), older + [turn], newer);
    CutMakesShorter(turn, b);
    CutCountSnoc(Allocate(older, b - |Cut(turn, b).output|), older, Cut(turn, b), turn);
    hide TotalOutput;
  }

  /** At most one turn is cut if and only if what cutting the newest one that does not fit leaves
      of the budget is filled exactly by the turns before it, or holds them all. */
  lemma AtMostOneCutIff(older: seq<Turn>, turn: Turn, newer: seq<Turn>, budget: nat)
    requires TotalOutput(newer) < budget && |turn.output| > budget - TotalOutput(newer)
    ensures CutCount(Allocate(older + [turn] + newer, budget), older + [turn] + newer) <= 1 <==>
            FillsExactly(older, Leftover(turn.output, budget - TotalOutput(newer)))
  {
    hide Allocate, CutCount, Leftover, FillsExactly, TotalOutput;
    CutsBehindFirst(older, turn, newer, budget);
    NothingIsCutIff(older, Leftover(turn.output, budget - TotalOutput(newer)));
  }

  /** Whatever was said before, at most one turn is cut, if and only if cutting the newest one
      that does not fit uses up the budget. */
  lemma AtMostOneCutAlwaysIff(turn: Turn, newer: seq<Turn>, budget: nat)
    requires TotalOutput(newer) < budget && |turn.output| > budget - TotalOutput(newer)
    ensures (forall older :: CutCount(Allocate(older + [turn] + newer, budget), older + [turn] + newer) <= 1) <==>
            Leftover(turn.output, budget - TotalOutput(newer)) == 0
  {
    hide Allocate, CutCount, Leftover, TotalOutput;
    var left := Leftover(turn.output, budget - TotalOutput(newer));
    forall older
      ensures CutCount(Allocate(older + [turn] + newer, budget), older + [turn] + newer) <= 1 <==>
              FillsExactly(older, left)
    {
      AtMostOneCutIff(older, turn, newer, budget);
    }
    var long := [turn.(output := seq(left + 1, _ => 'x'))];
    assert FillsExactly(long, left) <==> left == 0;
    assert CutCount(Allocate(long + [turn] + newer, budget), long + [turn] + newer) <= 1 <==> left == 0;
  }

  lemma CutToMarker(turn: Turn)
    requires |turn.output| == 40
    ensures Cut(turn, 24).output == TURN_TRUNCATED && |TURN_TRUNCATED| == 23 && Cut(turn, 1).output == "["
  {
  }

  /** Two long turns and a budget of one character more than the marker: the newer one becomes
      the marker, the older one its first character. */
  lemma TwoTurnsAreCut(older: Turn, turn: Turn)
    requires |older.output| == 40 && |turn.output| == 40
    ensures
      var kept := Allocate([older] + [turn], 24);
      && CutCount(kept, [older] + [turn]) == 2
      && |kept| == 2 && kept[1].output == TURN_TRUNCATED && kept[0].output == "["
  {
    hide Allocate, CutCount, Cut;
    CutToMarker(older);
    CutToMarker(turn);
    AllocateSnoc([older], turn, 24);
    AllocateSnoc([], older, 1);
    assert [] + [older] == [older] && [] + [Cut(older, 1)] == [Cut(older, 1)];
    CutCountSnoc([], [], Cut(older, 1), older);
    CutCountSnoc([Cut(older, 1)], [older], Cut(turn, 24), turn);
    NothingAllocated();
  }

  lemma NothingAllocated()
    ensures Allocate([], 0) == [] && CutCount([], []) == 0
  {
  }

  function Projection(redact: Redactor, turns: seq<Turn>, limits: Limits): seq<Turn> {
    Allocate(
      Candidates(redact, turns, PositiveLimit(limits.maxRecentTurns, 8),
                 PositiveLimit(limits.maxTurnOutputChars, 4_000)),
      PositiveLimit(limits.maxRecentTurnsChars, 12_000))
  }

  method CreateSharedConversationProjection(redact: Redactor, turns: seq<Turn>, limits: Limits)
    returns (projection: seq<Turn>)
    ensures projection == Projection(redact, turns, limits)
    ensures Allocated(
              projection,
              Candidates(redact, turns, PositiveLimit(limits.maxRecentTurns, 8),
                         PositiveLimit(limits.maxTurnOutputChars, 4_000)),
              PositiveLimit(limits.maxRecentTurnsChars, 12_000))
    ensures |projection| <= PositiveLimit(limits.maxRecentTurns, 8)
    ensures TotalOutput(projection) <= PositiveLimit(limits.maxRecentTurnsChars, 12_000)
  {
    var candidates := Candidates(redact, turns, PositiveLimit(limits.maxRecentTurns, 8),
                                 PositiveLimit(limits.maxTurnOutputChars, 4_000));
    AllocateWithinBudget(candidates, PositiveLimit(limits.maxRecentTurnsChars, 12_000));
    AllocationIs(candidates, PositiveLimit(limits.maxRecentTurnsChars, 12_000));
    hide Allocated, Candidates;
    if turns == [] {
      projection := [];
    } else {
      projection := SpendBudget(candidates, PositiveLimit(limits.maxRecentTurnsChars, 12_000));
    }
  }

  method SpendBudget(candidates: seq<Turn>, budget: nat) returns (kept: seq<Turn>)
    ensures kept == Allocate(candidates, budget)
  {
    hide Cut, Reverse;
    var retained: seq<Turn> := [];
    var remaining: nat := budget;
    var index := |candidates| - 1;
    assert candidates[..|candidates|] == candidates;
    assert Reverse(retained) == [];
    while index >= 0 && remaining > 0
      invariant -1 <= index < |candidates|
      invariant Allocate(candidates, budget) == Allocate(candidates[..index + 1], remaining) + Reverse(retained)
      decreases index
    {
      var turn := Cut(candidates[index], remaining);
      assert |turn.output| <= remaining by {
        CutShows(candidates[index], remaining);
      }
      assert candidates[..index + 1] == candidates[..index] + [candidates[index]];
      AllocateSnoc(candidates[..index], candidates[index], remaining);
      ReverseAppend(retained, turn);
      retained := retained + [turn];
      remaining := remaining - |turn.output|;
      index := index - 1;
    }
    kept := Reverse(retained);
  }

  function Reverse<T>(s: seq<T>): (r: seq<T>)
    ensures |r| == |s| && forall i :: 0 <= i < |s| ==> r[i] == s[|s| - 1 - i]
  {
    if s == [] then [] else [s[|s| - 1]] + Reverse(s[..|s| - 1])
  }

  lemma ReverseAppend<T>(s: seq<T>, x: T)
    ensures Reverse(s + [x]) == [x] + Reverse(s)
  {
    assert (s + [x])[..|s|] == s;
  }
}
