/** Making a prompt fit its limit: the previous output is cut first, then the oldest shared
    turns go, then the task is shortened, and only then is the text itself clipped. */
module PromptFitting {
  import opened Wrappers
  import opened Text
  import opened Escaping
  import opened Roster
  import opened Handoff
  import opened PromptRendering

  /** What a prompt is rendered for, besides what is shown in it. */
  datatype Request = Request(redact: Redactor, task: string, participant: Participant)

  function Render(q: Request, turns: seq<Turn>, envelope: Option<Envelope>): string {
    RenderPrompt(q.redact, q.task, q.participant, turns, envelope)
  }

  function Room(maxPromptChars: nat, text: string): (room: nat)
    ensures room == 0 || room + |text| == maxPromptChars
    ensures room + |text| >= maxPromptChars
  {
    Max(0, maxPromptChars - |text|)
  }

  // ------------------------------------------------------------ the stages, as functions

  /** Stage one: the previous output gets what the rest of the prompt leaves. */
  function ReduceEnvelope(q: Request, turns: seq<Turn>, envelope: Option<Envelope>, max: nat): Option<Envelope> {
    match envelope
    case None => None
    case Some(e) =>
      var available := Room(max, Render(q, turns, Some(e.(content := ""))));
      var reduced := TruncateText(e.content, available, OUTPUT_TRUNCATED);
      Some(e.(content := reduced.value, truncated := e.truncated || reduced.truncated))
  }

  function NewestOutput(turns: seq<Turn>): nat {
    if turns == [] then 0 else |turns[|turns| - 1].output|
  }

  /** The only turn left gets what the rest of the prompt leaves, or goes when that is all of it. */
  function ReduceOnlyTurn(q: Request, turn: Turn, envelope: Option<Envelope>, max: nat): (rest: seq<Turn>)
    ensures rest == [] || (|rest| == 1 && NewestOutput(rest) < |turn.output|)
  {
    hide RenderPrompt;
    var available := Room(max, Render(q, [turn.(output := "")], envelope));
    var reduced := TruncateText(turn.output, available, TURN_TRUNCATED);
    hide TruncateText;
    if reduced.value == turn.output then [] else [turn.(output := reduced.value, outputTruncated := true)]
  }

  /** Stage two: the oldest turns go, then the newest one is shortened. */
  function ShrinkTurns(q: Request, turns: seq<Turn>, envelope: Option<Envelope>, max: nat): seq<Turn>
    decreases |turns|, NewestOutput(turns)
  {
    hide RenderPrompt, ReduceOnlyTurn;
    if turns == [] || |Render(q, turns, envelope)| <= max then turns
    else if |turns| > 1 then ShrinkTurns(q, turns[1..], envelope, max)
    else ShrinkTurns(q, ReduceOnlyTurn(q, turns[0], envelope, max), envelope, max)
  }

  /** Stage three: the task gets what the rest of the prompt leaves. */
  function ReduceTask(q: Request, turns: seq<Turn>, envelope: Option<Envelope>, max: nat): Request {
    q.(task := TruncateText(q.task, Room(max, Render(q.(task := ""), turns, envelope)), TASK_TRUNCATED).value)
  }

  /** What the prompt ends up showing. */
  datatype Layout = Layout(request: Request, turns: seq<Turn>, envelope: Option<Envelope>) {
    function Text(): string {
      Render(request, turns, envelope)
    }
  }

  function FitLayout(q: Request, turns: seq<Turn>, envelope: Option<Envelope>, max: nat): Layout {
    if |Render(q, turns, envelope)| <= max then Layout(q, turns, envelope)
    else
      var e := ReduceEnvelope(q, turns, envelope, max);
      var kept := ShrinkTurns(q, turns, e, max);
      if |Render(q, kept, e)| <= max then Layout(q, kept, e)
      else Layout(ReduceTask(q, kept, e, max), kept, e)
  }

  function Prompt(layout: Layout, max: nat): string {
    TruncateText(layout.Text(), max, PROMPT_TRUNCATED).value
  }

  ghost predicate Clipped(layout: Layout, max: nat) {
    |layout.Text()| > max
  }

  // ------------------------------------------------------------ what fitting comes to

  function Newest(turns: seq<Turn>, n: nat): seq<Turn>
    requires n <= |turns|
  {
    turns[|turns| - n..]
  }

  predicate Fits(q: Request, turns: seq<Turn>, envelope: Option<Envelope>, max: nat) {
    |Render(q, turns, envelope)| <= max
  }

  /** What the rest of the prompt leaves for the previous output. */
  function OutputRoom(q: Request, turns: seq<Turn>, e: Envelope, max: nat): nat {
    Room(max, Render(q, turns, Some(e.(content := ""))))
  }

  /** What the rest of the prompt leaves for the output of the only turn. */
  function TurnRoom(q: Request, turn: Turn, envelope: Option<Envelope>, max: nat): nat {
    Room(max, Render(q, [turn.(output := "")], envelope))
  }

  /** What the rest of the prompt leaves for the task. */
  function TaskRoom(q: Request, turns: seq<Turn>, envelope: Option<Envelope>, max: nat): nat {
    Room(max, Render(q.(task := ""), turns, envelope))
  }

  /** The previous result, with the output that its room holds, and marked if that is not all. */
  ghost predicate EnvelopeFitted(
    shown: Option<Envelope>, q: Request, turns: seq<Turn>, envelope: Option<Envelope>, max: nat)
  {
    match envelope
    case None => shown == None
    case Some(e) =>
      var room := OutputRoom(q, turns, e, max);
      && shown.Some? && FillsRoom(shown.value.content, e.content, room, OUTPUT_TRUNCATED)
      && shown.value == e.(content := shown.value.content, truncated := e.truncated || |e.content| > room)
  }

  /** The only turn that is left, cut once to its room; it goes if that is no cut, or still too
      long. */
  ghost predicate OnlyTurnFitted(kept: seq<Turn>, q: Request, turn: Turn, envelope: Option<Envelope>, max: nat) {
    exists output :: FillsRoom(output, turn.output, TurnRoom(q, turn, envelope, max), TURN_TRUNCATED)
      && var cut := turn.(output := output, outputTruncated := true);
         kept == if output != turn.output && Fits(q, [cut], envelope, max) then [cut] else []
  }

  /** No more than the newest `n` turns fit together. */
  ghost predicate NoMoreFit(q: Request, turns: seq<Turn>, n: nat, envelope: Option<Envelope>, max: nat) {
    forall m :: n < m <= |turns| ==> !Fits(q, Newest(turns, m), envelope, max)
  }

  /** The newest `n` turns fit together, and no more do. */
  ghost predicate MostFit(q: Request, turns: seq<Turn>, n: nat, envelope: Option<Envelope>, max: nat) {
    hide Render;
    0 < n <= |turns| && Fits(q, Newest(turns, n), envelope, max) && NoMoreFit(q, turns, n, envelope, max)
  }

  /** As many of the newest turns as fit together; if the newest alone does not fit, that one
      cut, or none. */
  ghost predicate TurnsFitted(kept: seq<Turn>, q: Request, turns: seq<Turn>, envelope: Option<Envelope>, max: nat) {
    && (forall n: nat :: MostFit(q, turns, n, envelope, max) ==> kept == Newest(turns, n))
    && (NoMoreFit(q, turns, 0, envelope, max) ==>
          if turns == [] then kept == [] else OnlyTurnFitted(kept, q, turns[|turns| - 1], envelope, max))
  }

  /** What a prompt is to show: everything if that fits; otherwise the previous result, the turns
      and the task are fitted in this order, each only as far as the ones before it did not do. */
  ghost predicate Fitted(layout: Layout, q: Request, turns: seq<Turn>, envelope: Option<Envelope>, max: nat) {
    if Fits(q, turns, envelope, max) then layout == Layout(q, turns, envelope)
    else
      && EnvelopeFitted(layout.envelope, q, turns, envelope, max)
      && TurnsFitted(layout.turns, q, turns, layout.envelope, max)
      && layout.request == q.(task := layout.request.task)
      && if Fits(q, layout.turns, layout.envelope, max) then layout.request == q
         else FillsRoom(layout.request.task, q.task, TaskRoom(q, layout.turns, layout.envelope, max), TASK_TRUNCATED)
  }

  lemma ReducedEnvelopeIsFitted(q: Request, turns: seq<Turn>, envelope: Option<Envelope>, max: nat)
    ensures EnvelopeFitted(ReduceEnvelope(q, turns, envelope, max), q, turns, envelope, max)
  {
    hide RenderPrompt, TruncateText, FillsRoom;
    if envelope.Some? {
      TruncationFillsRoom(envelope.value.content, OutputRoom(q, turns, envelope.value, max), OUTPUT_TRUNCATED);
    }
  }

  lemma ReducedTaskIsFitted(q: Request, turns: seq<Turn>, envelope: Option<Envelope>, max: nat)
    ensures
      var r := ReduceTask(q, turns, envelope, max);
      && r == q.(task := r.task)
      && FillsRoom(r.task, q.task, TaskRoom(q, turns, envelope, max), TASK_TRUNCATED)
  {
    hide RenderPrompt, TruncateText, FillsRoom;
    TruncationFillsRoom(q.task, TaskRoom(q, turns, envelope, max), TASK_TRUNCATED);
  }

  lemma {:induction false} ShrunkTurnsAreFitted(q: Request, turns: seq<Turn>, envelope: Option<Envelope>, max: nat)
    ensures TurnsFitted(ShrinkTurns(q, turns, envelope, max), q, turns, envelope, max)
    decreases |turns|
  {
    hide Render, ReduceOnlyTurn, OnlyTurnFitted;
    assert Newest(turns, |turns|) == turns;
    if turns != [] && !Fits(q, turns, envelope, max) {
      if |turns| > 1 {
        ShrunkTurnsAreFitted(q, turns[1..], envelope, max);
        OldestGoes(ShrinkTurns(q, turns, envelope, max), q, turns, envelope, max);
        hide TurnsFitted;
      } else {
        assert turns == [turns[0]];
        OnlyTurnIsFitted(q, turns[0], envelope, max);
      }
    }
  }

  lemma OldestGoes(kept: seq<Turn>, q: Request, turns: seq<Turn>, envelope: Option<Envelope>, max: nat)
    requires |turns| > 1 && !Fits(q, turns, envelope, max)
    requires TurnsFitted(kept, q, turns[1..], envelope, max)
    ensures TurnsFitted(kept, q, turns, envelope, max)
  {
    hide Fits, OnlyTurnFitted;
    assert Newest(turns, |turns|) == turns;
    assert forall n :: 0 <= n < |turns| ==> Newest(turns[1..], n) == Newest(turns, n);
    hide Newest;
    assert forall n: nat :: n < |turns| && NoMoreFit(q, turns, n, envelope, max) ==>
        NoMoreFit(q, turns[1..], n, envelope, max);
  }

  lemma OnlyTurnIsFitted(q: Request, turn: Turn, envelope: Option<Envelope>, max: nat)
    requires !Fits(q, [turn], envelope, max)
    ensures OnlyTurnFitted(ShrinkTurns(q, [turn], envelope, max), q, turn, envelope, max)
  {
    hide TruncateText, FillsRoom, Render;
    var room := TurnRoom(q, turn, envelope, max);
    var output := TruncateText(turn.output, room, TURN_TRUNCATED).value;
    TruncationFillsRoom(turn.output, room, TURN_TRUNCATED);
    var cut := turn.(output := output, outputTruncated := true);
    CutOnce(q, turn, cut, envelope, max);
    assert ShrinkTurns(q, [turn], envelope, max) ==
           if output != turn.output && Fits(q, [cut], envelope, max) then [cut] else [];
  }

  lemma CutOnce(q: Request, turn: Turn, cut: Turn, envelope: Option<Envelope>, max: nat)
    requires !Fits(q, [turn], envelope, max)
    requires cut.output == TruncateText(turn.output, TurnRoom(q, turn, envelope, max), TURN_TRUNCATED).value
    requires cut == turn.(output := cut.output, outputTruncated := true)
    ensures ShrinkTurns(q, [turn], envelope, max) ==
            if cut.output != turn.output && Fits(q, [cut], envelope, max) then [cut] else []
  {
    hide TruncateText, Render;
    var rest := ReduceOnlyTurn(q, turn, envelope, max);
    assert rest == if cut.output == turn.output then [] else [cut];
    assert ShrinkTurns(q, [turn], envelope, max) == ShrinkTurns(q, rest, envelope, max);
    if rest == [cut] && !Fits(q, [cut], envelope, max) {
      CutFitsItsRoom(q, turn, cut, envelope, max);
      assert ReduceOnlyTurn(q, cut, envelope, max) == [];
      hide ReduceOnlyTurn;
      assert ShrinkTurns(q, [cut], envelope, max) == ShrinkTurns(q, [], envelope, max);
    }
  }

  /** What was cut once is not cut again. */
  lemma CutFitsItsRoom(q: Request, turn: Turn, cut: Turn, envelope: Option<Envelope>, max: nat)
    requires cut == turn.(output := cut.output, outputTruncated := true)
    ensures TurnRoom(q, turn, envelope, max) <= TurnRoom(q, cut, envelope, max)
  {
    hide Render;
    MarkingTakesNoRoom(q, turn.(output := ""), envelope);
    assert cut.(output := "") == turn.(output := "").(outputTruncated := true);
  }

  /** Marking a turn as cut makes the prompt no longer. */
  lemma MarkingTakesNoRoom(q: Request, turn: Turn, envelope: Option<Envelope>)
    ensures |Render(q, [turn.(outputTruncated := true)], envelope)| <= |Render(q, [turn], envelope)|
  {
    var marked := turn.(outputTruncated := true);
    RenderedLength(q, [turn], envelope);
    RenderedLength(q, [marked], envelope);
    hide RenderPrompt, HandoffSection, EscapeXml, FixedLength;
    assert |TurnAttributes(q.redact, marked)| <= |TurnAttributes(q.redact, turn)| by {
      hide TurnIdentity, NatToString, StepText;
    }
    hide TurnAttributes, Escaped, TagLine;
  }

  lemma LayoutIsFitted(q: Request, turns: seq<Turn>, envelope: Option<Envelope>, max: nat)
    ensures Fitted(FitLayout(q, turns, envelope, max), q, turns, envelope, max)
  {
    hide Render, ReduceEnvelope, ShrinkTurns, ReduceTask, EnvelopeFitted, TurnsFitted, FillsRoom;
    var e := ReduceEnvelope(q, turns, envelope, max);
    var kept := ShrinkTurns(q, turns, e, max);
    ReducedEnvelopeIsFitted(q, turns, envelope, max);
    ShrunkTurnsAreFitted(q, turns, e, max);
    ReducedTaskIsFitted(q, kept, e, max);
  }

  /** Some number of the newest turns is the most that fits, or none is. */
  lemma {:induction false} SomeMostFit(q: Request, turns: seq<Turn>, n: nat, envelope: Option<Envelope>, max: nat)
    requires n <= |turns| && NoMoreFit(q, turns, n, envelope, max)
    ensures NoMoreFit(q, turns, 0, envelope, max) || exists k: nat :: MostFit(q, turns, k, envelope, max)
  {
    hide Fits, Newest;
    if n > 0 && !MostFit(q, turns, n, envelope, max) {
      SomeMostFit(q, turns, n - 1, envelope, max);
    }
  }

  lemma OnlyTurnFitsOnce(
    a: seq<Turn>, b: seq<Turn>, q: Request, turn: Turn, envelope: Option<Envelope>, max: nat)
    requires OnlyTurnFitted(a, q, turn, envelope, max) && OnlyTurnFitted(b, q, turn, envelope, max)
    ensures a == b
  {
    hide Fits, FillsRoom, TurnRoom;
    var room := TurnRoom(q, turn, envelope, max);
    forall c, d | FillsRoom(c, turn.output, room, TURN_TRUNCATED) && FillsRoom(d, turn.output, room, TURN_TRUNCATED)
      ensures c == d
    {
      FillsRoomOnlyOnce(c, d, turn.output, room, TURN_TRUNCATED);
    }
  }

  lemma TurnsFitOnlyOnce(
    a: seq<Turn>, b: seq<Turn>, q: Request, turns: seq<Turn>, envelope: Option<Envelope>, max: nat)
    requires TurnsFitted(a, q, turns, envelope, max) && TurnsFitted(b, q, turns, envelope, max)
    ensures a == b
  {
    hide NoMoreFit, MostFit, OnlyTurnFitted;
    assert NoMoreFit(q, turns, |turns|, envelope, max) by {
      NoneBeyondAll(q, turns, envelope, max);
    }
    SomeMostFit(q, turns, |turns|, envelope, max);
    if NoMoreFit(q, turns, 0, envelope, max) && turns != [] {
      OnlyTurnFitsOnce(a, b, q, turns[|turns| - 1], envelope, max);
    }
  }

  lemma NoneBeyondAll(q: Request, turns: seq<Turn>, envelope: Option<Envelope>, max: nat)
    ensures NoMoreFit(q, turns, |turns|, envelope, max)
  {
    hide Fits;
  }

  /** Nothing else is fitted: the stages come to exactly what is described. */
  lemma FittedOnlyOnce(layout: Layout, q: Request, turns: seq<Turn>, envelope: Option<Envelope>, max: nat)
    ensures Fitted(layout, q, turns, envelope, max) <==> layout == FitLayout(q, turns, envelope, max)
  {
    hide Render, FitLayout, TurnsFitted, FillsRoom;
    var fit := FitLayout(q, turns, envelope, max);
    LayoutIsFitted(q, turns, envelope, max);
    if Fitted(layout, q, turns, envelope, max) && !Fits(q, turns, envelope, max) {
      if envelope.Some? {
        var e := envelope.value;
        FillsRoomOnlyOnce(layout.envelope.value.content, fit.envelope.value.content, e.content,
          OutputRoom(q, turns, e, max), OUTPUT_TRUNCATED);
      }
      TurnsFitOnlyOnce(layout.turns, fit.turns, q, turns, fit.envelope, max);
      if !Fits(q, fit.turns, fit.envelope, max) {
        FillsRoomOnlyOnce(layout.request.task, fit.request.task, q.task,
          TaskRoom(q, fit.turns, fit.envelope, max), TASK_TRUNCATED);
      }
    }
  }

  // ------------------------------------------------------------ the stages, as the source runs them

  method FitPrompt(q: Request, recentTurns: seq<Turn>, envelope: Option<Envelope>, maxPromptChars: nat)
    returns (prompt: string, bounded: Option<Envelope>)
    ensures |prompt| <= maxPromptChars
    ensures
      var layout := FitLayout(q, recentTurns, envelope, maxPromptChars);
      && Fitted(layout, q, recentTurns, envelope, maxPromptChars)
      && bounded == layout.envelope
      && FillsRoom(prompt, layout.Text(), maxPromptChars, PROMPT_TRUNCATED)
      && prompt == Prompt(layout, maxPromptChars)
  {
    hide RenderPrompt, TruncateText, Fitted, FillsRoom;
    LayoutIsFitted(q, recentTurns, envelope, maxPromptChars);
    TruncationFillsRoom(FitLayout(q, recentTurns, envelope, maxPromptChars).Text(), maxPromptChars, PROMPT_TRUNCATED);
    bounded := envelope;
    var turns := recentTurns;
    prompt := Render(q, turns, bounded);
    if |prompt| <= maxPromptChars {
      return;
    }
    if bounded.Some? {
      var withoutOutput := Render(q, turns, Some(bounded.value.(content := "")));
      var available := Max(0, maxPromptChars - |withoutOutput|);
      var reduced := TruncateText(bounded.value.content, available, OUTPUT_TRUNCATED);
      bounded := Some(bounded.value.(
        content := reduced.value, truncated := bounded.value.truncated || reduced.truncated));
      prompt := Render(q, turns, bounded);
    }
    assert bounded == ReduceEnvelope(q, turns, envelope, maxPromptChars);
    hide ReduceEnvelope;
    while |prompt| > maxPromptChars && |turns| > 0
      invariant prompt == Render(q, turns, bounded)
      invariant ShrinkTurns(q, recentTurns, bounded, maxPromptChars) == ShrinkTurns(q, turns, bounded, maxPromptChars)
      decreases |turns|, NewestOutput(turns)
    {
      if |turns| > 1 {
        turns := turns[1..];
      } else {
        var onlyTurn := turns[0];
        var withoutOutput := Render(q, [onlyTurn.(output := "")], bounded);
        var available := Max(0, maxPromptChars - |withoutOutput|);
        var reduced := TruncateText(onlyTurn.output, available, TURN_TRUNCATED);
        if reduced.value == onlyTurn.output {
          turns := [];
        } else {
          turns := [onlyTurn.(output := reduced.value, outputTruncated := true)];
        }
      }
      prompt := Render(q, turns, bounded);
    }
    if |prompt| <= maxPromptChars {
      return;
    }
    var withoutTask := Render(q.(task := ""), turns, bounded);
    var reducedTask := TruncateText(q.task, Max(0, maxPromptChars - |withoutTask|), TASK_TRUNCATED);
    prompt := Render(q.(task := reducedTask.value), turns, bounded);
    if |prompt| <= maxPromptChars {
      return;
    }
    prompt := TruncateText(prompt, maxPromptChars, PROMPT_TRUNCATED).value;
  }

  // ------------------------------------------------------------ lengths

  /** The length of a prompt without its task, its shared turns and its previous result. */
  function FixedLength(q: Request): nat {
    |Head(q.redact, q.participant)| + |AfterTask()| + |AfterShared()| + |AfterHandoff()| + |SafetyContract()|
  }

  lemma RenderedLength(q: Request, turns: seq<Turn>, envelope: Option<Envelope>)
    ensures |Render(q, turns, envelope)| ==
            FixedLength(q) + |EscapeXml(q.task)| + |SharedSection(q.redact, turns)| + |HandoffSection(envelope)|
  {
    hide Head, Escaped, EscapeXml, AfterTask, SharedSection, AfterShared, HandoffSection, AfterHandoff, SafetyContract;
  }

  lemma EmptyTaskIsShortest(task: string)
    ensures EscapeXml("") == "" && |EscapeXml(task)| >= |task|
  {
    EscapedShape("");
    EscapedShape(task);
  }

  /** A shared turn takes more room than saying there is none. */
  lemma NoTurnsIsShortest(redact: Redactor, turns: seq<Turn>)
    ensures |SharedSection(redact, [])| <= |SharedSection(redact, turns)|
  {
    assert |NoSharedTurns()| <= 55;
    if turns != [] {
      TurnIsLong(redact, turns[0]);
      hide RenderTurn, NoSharedTurns;
    }
  }

  lemma ContentLength(e: Envelope)
    ensures |HandoffSection(Some(e.(content := "")))| + |e.content| <= |HandoffSection(Some(e))|
  {
    EscapedShape(e.content);
    EscapedShape("");
    hide Tag, EscapeXml, CutNote;
  }

  lemma TurnIsLong(redact: Redactor, t: Turn)
    ensures |RenderTurn(redact, t)| >= 55
  {
    hide TurnAttributes, Escaped;
    assert |TagLine("untrusted_agent_output")| == 26;
    assert |TagLine("/untrusted_agent_output")| == 27;
    assert |Tag("/turn")| == 7;
    hide TagLine, Tag;
  }

  // ------------------------------------------------------------ what fitting promises

  /** The previous result is only cut when the prompt does not fit with it. */
  lemma FittingKeepsEnvelope(q: Request, turns: seq<Turn>, envelope: Option<Envelope>, max: nat)
    requires |Render(q, turns, envelope)| <= max
    ensures ReduceEnvelope(q, turns, envelope, max) == envelope
  {
    hide RenderPrompt, HandoffSection, SharedSection, EscapeXml, FixedLength;
    if envelope.Some? {
      var e := envelope.value;
      RenderedLength(q, turns, envelope);
      RenderedLength(q, turns, Some(e.(content := "")));
      ContentLength(e);
    }
  }

  lemma {:induction false} ShrinkingEnds(q: Request, turns: seq<Turn>, envelope: Option<Envelope>, max: nat)
    ensures
      var kept := ShrinkTurns(q, turns, envelope, max);
      kept == [] || |Render(q, kept, envelope)| <= max
    decreases |turns|, NewestOutput(turns)
  {
    hide RenderPrompt, ReduceOnlyTurn;
    if turns != [] && |Render(q, turns, envelope)| > max {
      ShrinkingEnds(q, if |turns| > 1 then turns[1..] else ReduceOnlyTurn(q, turns[0], envelope, max), envelope, max);
    }
  }

  /** A rendering is never shorter than that of an empty task without shared turns. */
  lemma BareIsShortest(q: Request, turns: seq<Turn>, envelope: Option<Envelope>)
    ensures |Render(q.(task := ""), [], envelope)| <= |Render(q, turns, envelope)|
  {
    hide RenderPrompt, HandoffSection, SharedSection, EscapeXml, FixedLength;
    RenderedLength(q, turns, envelope);
    RenderedLength(q.(task := ""), [], envelope);
    SameFixedLength(q);
    EmptyTaskIsShortest(q.task);
    NoTurnsIsShortest(q.redact, turns);
  }

  lemma SameFixedLength(q: Request)
    ensures FixedLength(q.(task := "")) == FixedLength(q)
  {
    hide Head, AfterTask, AfterShared, AfterHandoff, SafetyContract;
  }

  /** The length of a prompt without its task and its shared turns, once stage one is over. */
  function BareLength(q: Request, turns: seq<Turn>, envelope: Option<Envelope>, max: nat): nat {
    |Render(q.(task := ""), [], ReduceEnvelope(q, turns, envelope, max))|
  }

  /** For a task without XML-special characters the text is clipped exactly when the prompt
      has no room for its fixed parts and the reduced previous result. */
  lemma ClippedIffNoRoom(q: Request, turns: seq<Turn>, envelope: Option<Envelope>, max: nat)
    requires Plain(q.task)
    ensures Clipped(FitLayout(q, turns, envelope, max), max) <==> BareLength(q, turns, envelope, max) > max
  {
    hide RenderPrompt, ReduceEnvelope, ShrinkTurns;
    var layout := FitLayout(q, turns, envelope, max);
    if |Render(q, turns, envelope)| <= max {
      FittingKeepsEnvelope(q, turns, envelope, max);
      BareIsShortest(q, turns, envelope);
    } else {
      var e := ReduceEnvelope(q, turns, envelope, max);
      ShrinkingEnds(q, turns, e, max);
      BareIsShortest(layout.request, layout.turns, e);
      assert layout.request.(task := "") == q.(task := "");
      if BareLength(q, turns, envelope, max) <= max {
        PlainTaskFits(q, e, max);
      }
    }
  }

  lemma ReducedTaskIsPlain(q: Request, turns: seq<Turn>, envelope: Option<Envelope>, max: nat)
    requires Plain(q.task)
    ensures Plain(ReduceTask(q, turns, envelope, max).task)
  {
    hide RenderPrompt;
    assert Plain(TASK_TRUNCATED);
    hide TruncateText, Plain;
    TruncatedStaysPlain(q.task, Room(max, Render(q.(task := ""), turns, envelope)), TASK_TRUNCATED);
  }

  lemma PlainTaskFits(q: Request, envelope: Option<Envelope>, max: nat)
    requires Plain(q.task) && |Render(q.(task := ""), [], envelope)| <= max
    ensures |Render(ReduceTask(q, [], envelope, max), [], envelope)| <= max
  {
    hide RenderPrompt, HandoffSection, SharedSection, EscapeXml, FixedLength, Plain, TruncateText;
    var bare := q.(task := "");
    var task := ReduceTask(q, [], envelope, max).task;
    ReducedTaskIsPlain(q, [], envelope, max);
    PlainIsUnchanged(task);
    RenderedLength(bare, [], envelope);
    RenderedLength(q.(task := task), [], envelope);
    SameFixedLength(q.(task := task));
    EmptyTaskIsShortest("");
    assert q.(task := task).(task := "") == bare;
    SameFixedLength(q);
  }

  /** Unless it is clipped, a prompt is a complete rendering: it ends with the whole safety
      contract and has exactly the structure of what it shows. */
  lemma UnclippedKeepsContract(q: Request, turns: seq<Turn>, envelope: Option<Envelope>, max: nat)
    ensures
      var layout := FitLayout(q, turns, envelope, max);
      var prompt := Prompt(layout, max);
      !Clipped(layout, max) ==>
        && |prompt| >= |SafetyContract()| && prompt[|prompt| - |SafetyContract()|..] == SafetyContract()
        && Opens(prompt) == 7 + 4 * |layout.turns| + 2 * (if layout.envelope.Some? then 1 else 0)
  {
    hide FitLayout, SafetyContract, Opens, Head, Escaped, AfterTask, SharedSection, AfterShared, HandoffSection,
      AfterHandoff;
    var layout := FitLayout(q, turns, envelope, max);
    ContentForgesNoMarkup(layout.request.redact, layout.request.task, layout.request.participant, layout.turns,
      layout.envelope);
  }

  /** What fitting keeps of the shared conversation is its newest end; a turn is only shortened
      when it is the last one left, and then shown as cut; older ones only go when keeping one
      more would not fit. */
  lemma ShrinkingKeepsNewest(q: Request, turns: seq<Turn>, envelope: Option<Envelope>, max: nat)
    ensures
      var kept := ShrinkTurns(q, turns, envelope, max);
      && |kept| <= |turns|
      && (|kept| > 1 ==> kept == Newest(turns, |kept|))
      && (|kept| == 1 ==>
            kept[0] == turns[|turns| - 1] || OnlyTurnFitted(kept, q, turns[|turns| - 1], envelope, max))
      && forall n :: |kept| < n <= |turns| ==> |Render(q, Newest(turns, n), envelope)| > max
  {
    hide RenderPrompt, ShrinkTurns, FillsRoom;
    ShrunkTurnsAreFitted(q, turns, envelope, max);
    SomeMostFit(q, turns, |turns|, envelope, max);
    hide Render, TurnRoom;
  }

  /** The condition on the task is needed: thirty ampersands take more room once escaped, and
      are clipped with room to spare for everything but the task. */
  lemma EscapingCanForceClipping(redact: Redactor, participant: Participant)
    ensures exists q: Request, max: nat ::
      && q.redact == redact && q.participant == participant
      && BareLength(q, [], None, max) + 20 <= max && Clipped(FitLayout(q, [], None, max), max)
  {
    hide RenderPrompt, HandoffSection, SharedSection, EscapeXml, FixedLength, TruncateText;
    var q := Request(redact, seq(30, _ => '&'), participant);
    var bare := q.(task := "");
    var max := |Render(bare, [], None)| + 20;
    RenderedLength(bare, [], None);
    EmptyTaskIsShortest(q.task);
    SameFixedLength(q);
    RenderedLength(q, [], None);
    var reduced := ReduceTask(q, [], None, max);
    assert reduced.task == "&&&" + ("\n" + TASK_TRUNCATED) by {
      ReducedAmpersands(q.task);
    }
    EscapedAmpersands("\n" + TASK_TRUNCATED);
    RenderedLength(reduced, [], None);
    SameFixedLength(reduced);
    assert reduced.(task := "") == bare;
    assert BareLength(q, [], None, max) + 20 <= max && Clipped(FitLayout(q, [], None, max), max);
  }

  lemma ReducedAmpersands(task: string)
    requires |task| == 30 && forall i :: 0 <= i < 30 ==> task[i] == '&'
    ensures TruncateText(task, 20, TASK_TRUNCATED).value == "&&&" + ("\n" + TASK_TRUNCATED)
  {
    assert |TASK_TRUNCATED| == 16;
    assert task[..3] == "&&&";
    assert !IsSpace("&&&"[2]);
    assert TrimEnd("&&&") == "&&&";
    assert "&&&" + "\n" + TASK_TRUNCATED == "&&&" + ("\n" + TASK_TRUNCATED);
  }

  lemma EscapedAmpersands(rest: string)
    ensures |EscapeXml("&&&" + rest)| >= 15 + |rest|
  {
    EscapeXmlConcat("&&&", rest);
    EscapedShape(rest);
    EscapeXmlIsCharacterwise("&&&");
    assert "&&&"[1..] == "&&" && "&&"[1..] == "&" && "&"[1..] == "";
    hide EscapeXml;
    assert EscapeEach("&") == "&amp;" + EscapeEach("");
    assert EscapeEach("&&") == "&amp;" + EscapeEach("&");
    assert EscapeEach("&&&") == "&amp;" + EscapeEach("&&");
  }

  // ------------------------------------------------------------ the whole handoff

  datatype HandoffRequest = HandoffRequest(
    originalPrompt: string, participant: Participant, recentTurns: seq<Turn>, contextTurns: seq<Turn>,
    previous: Option<Envelope>)

  function SafeRequest(redact: Redactor, input: HandoffRequest, limits: Limits): Request {
    Request(
      redact,
      SafePromptText(redact, input.originalPrompt, PositiveLimit(limits.maxOriginalPromptChars, 8_000), TASK_TRUNCATED),
      Participant(
        SafeIdentifier(redact, input.participant.id), SafeIdentifier(redact, input.participant.agentId),
        SafePromptText(redact, input.participant.role, 160, ROLE_TRUNCATED),
        NormalizedPosition(input.participant.position)))
  }

  function SafePrevious(redact: Redactor, input: HandoffRequest, limits: Limits): Option<Envelope> {
    if input.previous.None? then None
    else Some(CreateEnvelope(redact, input.previous.value, PositiveLimit(limits.maxOutputChars, 8_000)))
  }

  function HandoffLayout(redact: Redactor, input: HandoffRequest, limits: Limits): Layout {
    FitLayout(
      SafeRequest(redact, input, limits), Projection(redact, input.contextTurns + input.recentTurns, limits),
      SafePrevious(redact, input, limits), PositiveLimit(limits.maxPromptChars, 20_000))
  }

  /** The request and the previous result are those of the input, redacted and cut to their
      limits. */
  ghost predicate Prepared(
    q: Request, previous: Option<Envelope>, redact: Redactor, input: HandoffRequest, limits: Limits)
  {
    && q.redact == redact
    && FillsRoom(
         q.task, redact(input.originalPrompt), PositiveLimit(limits.maxOriginalPromptChars, 8_000), TASK_TRUNCATED)
    && FillsRoom(q.participant.role, redact(input.participant.role), 160, ROLE_TRUNCATED)
    && q.participant.id == SafeIdentifier(redact, input.participant.id)
    && q.participant.agentId == SafeIdentifier(redact, input.participant.agentId)
    && q.participant.position == (if input.participant.position < 0 then 0 else input.participant.position)
    && previous.Some? == input.previous.Some?
    && (previous.Some? ==>
          && FillsRoom(previous.value.content, redact(input.previous.value.content),
                       PositiveLimit(limits.maxOutputChars, 8_000), OUTPUT_TRUNCATED)
          && previous.value.sourceRunId == SafeIdentifier(redact, input.previous.value.sourceRunId))
  }

  lemma HandoffIsPrepared(redact: Redactor, input: HandoffRequest, limits: Limits)
    ensures Prepared(SafeRequest(redact, input, limits), SafePrevious(redact, input, limits), redact, input, limits)
  {
    hide FillsRoom, TruncateText, SafeIdentifier;
    var maxTask := PositiveLimit(limits.maxOriginalPromptChars, 8_000);
    TruncationFillsRoom(redact(input.originalPrompt), maxTask, TASK_TRUNCATED);
    TruncationFillsRoom(redact(input.participant.role), 160, ROLE_TRUNCATED);
    if input.previous.Some? {
      EnvelopeIsBounded(redact, input.previous.value, PositiveLimit(limits.maxOutputChars, 8_000));
      hide CreateEnvelope;
    }
  }

  /** For every input and every limit the prompt respects the limit; it is the rendering of what
      is fitted of the prepared input and of the newest turns, cut only if that is too long. */
  method BuildHandoffPrompt(redact: Redactor, input: HandoffRequest, limits: Limits)
    returns (prompt: string, envelope: Option<Envelope>)
    ensures |prompt| <= PositiveLimit(limits.maxPromptChars, 20_000)
    ensures
      Prepared(SafeRequest(redact, input, limits), SafePrevious(redact, input, limits), redact, input, limits)
    ensures
      Allocated(
        Projection(redact, input.contextTurns + input.recentTurns, limits),
        Candidates(redact, input.contextTurns + input.recentTurns, PositiveLimit(limits.maxRecentTurns, 8),
                   PositiveLimit(limits.maxTurnOutputChars, 4_000)),
        PositiveLimit(limits.maxRecentTurnsChars, 12_000))
    ensures
      var layout := HandoffLayout(redact, input, limits);
      && Fitted(layout, SafeRequest(redact, input, limits),
                Projection(redact, input.contextTurns + input.recentTurns, limits),
                SafePrevious(redact, input, limits), PositiveLimit(limits.maxPromptChars, 20_000))
      && FillsRoom(prompt, layout.Text(), PositiveLimit(limits.maxPromptChars, 20_000), PROMPT_TRUNCATED)
      && envelope == layout.envelope
  {
    hide FitLayout, SafeRequest, SafePrevious, TruncateText, Projection, RenderPrompt, TotalOutput, Fitted, FillsRoom,
         Prepared, Allocated, Candidates;
    HandoffIsPrepared(redact, input, limits);
    var maxPromptChars := PositiveLimit(limits.maxPromptChars, 20_000);
    var recentTurns := CreateSharedConversationProjection(redact, input.contextTurns + input.recentTurns, limits);
    prompt, envelope := FitPrompt(
      SafeRequest(redact, input, limits), recentTurns, SafePrevious(redact, input, limits), maxPromptChars);
  }
}
