/** Reading the attributes of a prompt back: split at its quotation marks, a tag gives the values
    of its attributes, whatever they were. */
module PromptFields {
  import opened Wrappers
  import opened Escaping
  import opened Roster
  import opened Handoff
  import opened PromptRendering
  import opened PromptReading

  /** The text has exactly these values between quotation marks, in this order. */
  ghost predicate HasFields(s: string, values: seq<string>) {
    && |Split(s, '"')| == 2 * |values| + 1
    && forall j :: 0 <= j < |values| ==> Split(s, '"')[2 * j + 1] == values[j]
  }

  lemma NoFields(s: string)
    requires '"' !in s
    ensures HasFields(s, [])
  {
    OneSplit(s, '"');
  }

  lemma FieldsJoin(a: string, values: seq<string>, b: string, more: seq<string>)
    requires HasFields(a, values) && HasFields(b, more)
    ensures HasFields(a + b, values + more)
  {
    SplitJoins(a, b, '"');
    hide Split;
  }

  lemma FieldsEnd(s: string, values: seq<string>, tail: string)
    requires HasFields(s, values) && '"' !in tail
    ensures HasFields(s + tail, values)
  {
    NoFields(tail);
    FieldsJoin(s, values, tail, []);
    assert values + [] == values;
    hide HasFields;
  }

  lemma FieldsBegin(front: string, s: string, values: seq<string>)
    requires HasFields(s, values) && '"' !in front
    ensures HasFields(front + s, values)
  {
    NoFields(front);
    FieldsJoin(front, [], s, values);
    assert [] + values == values;
    hide HasFields;
  }

  lemma AttributeField(name: string, value: string)
    requires '<' !in name && '<' !in value && '"' !in name && '"' !in value
    ensures HasFields(Attribute(name, value), [value])
  {
    var front := " " + name + "=";
    assert Attribute(name, value) == front + "\"" + value + "\"";
    assert '"' !in front;
    OneSplit(front, '"');
    OneSplit(value, '"');
    QuoteSplit();
    hide Split, Attribute;
    SplitJoins(front, "\"", '"');
    SplitJoins(front + "\"", value, '"');
    SplitJoins(front + "\"" + value, "\"", '"');
    assert "" + value == value && value + "" == value;
  }

  lemma QuoteSplit()
    ensures Split("\"", '"') == ["", ""]
  {
    assert "\""[1..] == "";
  }

  lemma EscapedHasNoQuote(s: string)
    ensures '"' !in Escaped(s)
  {
    EscapedShape(s);
    hide EscapeXml;
  }

  // ------------------------------------------------------------ the reader

  function Field(piece: string, j: nat): string {
    if 2 * j + 1 < |Split(piece, '"')| then Split(piece, '"')[2 * j + 1] else ""
  }

  /** The value of an attribute of turn `k`. */
  function ReadTurnField(prompt: string, k: nat, j: nat): string {
    Unescape(Field(PieceOf(prompt, 4 + 4 * k), j))
  }

  /** The value of an attribute of the previous result. */
  function ReadSourceField(prompt: string, j: nat): string {
    Unescape(Field(PieceOf(prompt, 6 + 4 * ReadTurnCount(prompt)), j))
  }

  lemma FieldIs(piece: string, values: seq<string>, j: nat)
    requires HasFields(piece, values) && j < |values|
    ensures Field(piece, j) == values[j]
  {
  }

  // ------------------------------------------------------------ turns

  /** What a turn's tag says. */
  function TurnValues(redact: Redactor, t: Turn): seq<string> {
    [SafeIdentifier(redact, t.participantId), SafeIdentifier(redact, t.agentId),
     NatToString(NormalizedPosition(t.position)), StepText(t.stepIndex), if t.outputTruncated then "true" else "false"]
  }

  /** The same, as it is written. */
  function WrittenValues(redact: Redactor, t: Turn): seq<string> {
    WrittenIdentity(redact, t) + WrittenPlacement(t)
  }

  function WrittenIdentity(redact: Redactor, t: Turn): seq<string> {
    [Escaped(SafeIdentifier(redact, t.participantId))] + [Escaped(SafeIdentifier(redact, t.agentId))]
  }

  function WrittenPlacement(t: Turn): seq<string> {
    [NatToString(NormalizedPosition(t.position))] + [Escaped(StepText(t.stepIndex))]
    + [if t.outputTruncated then "true" else "false"]
  }

  lemma IdentityFields(redact: Redactor, t: Turn)
    ensures HasFields(TurnIdentity(redact, t), WrittenIdentity(redact, t))
  {
    var a, b := Escaped(SafeIdentifier(redact, t.participantId)), Escaped(SafeIdentifier(redact, t.agentId));
    EscapedHasNoQuote(SafeIdentifier(redact, t.participantId));
    EscapedHasNoQuote(SafeIdentifier(redact, t.agentId));
    hide HasFields, Escaped, Attribute, SafeIdentifier;
    AttributeField("participant_id", a);
    AttributeField("agent_id", b);
    FieldsJoin(Attribute("participant_id", a), [a], Attribute("agent_id", b), [b]);
  }

  lemma PlacementFields(t: Turn)
    ensures HasFields(TurnPlacement(t), WrittenPlacement(t))
  {
    hide HasFields, Escaped, NatToString, StepText, Attribute;
    var c, d := NatToString(NormalizedPosition(t.position)), Escaped(StepText(t.stepIndex));
    var e := if t.outputTruncated then "true" else "false";
    PositionField(NormalizedPosition(t.position));
    StepField(t.stepIndex);
    TruncatedField(t.outputTruncated);
    FieldsJoin(Attribute("position", c), [c], Attribute("step_index", d), [d]);
    FieldsJoin(Attribute("position", c) + Attribute("step_index", d), [c] + [d], Attribute("truncated", e), [e]);
  }

  lemma PositionField(position: nat)
    ensures HasFields(Attribute("position", NatToString(position)), [NatToString(position)])
  {
    hide HasFields, NatToString, Attribute;
    AttributeField("position", NatToString(position));
  }

  lemma StepField(step: Option<int>)
    ensures HasFields(Attribute("step_index", Escaped(StepText(step))), [Escaped(StepText(step))])
  {
    EscapedHasNoQuote(StepText(step));
    hide HasFields, StepText, Attribute, Escaped;
    AttributeField("step_index", Escaped(StepText(step)));
  }

  lemma TruncatedField(truncated: bool)
    ensures
      var word := if truncated then "true" else "false";
      HasFields(Attribute("truncated", word), [word])
  {
    hide HasFields, Attribute;
    AttributeField("truncated", if truncated then "true" else "false");
  }

  lemma TagFields(redact: Redactor, t: Turn)
    ensures HasFields(TurnTag(redact, t), WrittenValues(redact, t))
  {
    hide HasFields, TurnIdentity, TurnPlacement, WrittenIdentity, WrittenPlacement;
    IdentityFields(redact, t);
    PlacementFields(t);
    FieldsJoin(TurnIdentity(redact, t), WrittenIdentity(redact, t), TurnPlacement(t), WrittenPlacement(t));
    FieldsBegin("turn", TurnAttributes(redact, t), WrittenValues(redact, t));
    FieldsEnd("turn" + TurnAttributes(redact, t), WrittenValues(redact, t), ">");
    FieldsEnd("turn" + TurnAttributes(redact, t) + ">", WrittenValues(redact, t), "\n");
  }

  lemma DigitsArePlain(n: nat)
    ensures Unescape(NatToString(n)) == NatToString(n)
  {
    hide NatToString;
    var s := NatToString(n);
    PlainIsUnchanged(s);
    UnescapeInverts(s);
    hide EscapeXml, Unescape;
  }

  /** The number that digits stand for. */
  function ValueOf(digits: string): int {
    if digits == "" then 0
    else 10 * ValueOf(digits[..|digits| - 1]) + (digits[|digits| - 1] as int - '0' as int)
  }

  lemma DigitIs(d: nat)
    requires d < 10
    ensures "0123456789"[d] as int - '0' as int == d
  {
  }

  /** A position can be told from its digits. */
  lemma {:induction false} DigitsGiveNumber(n: nat)
    ensures ValueOf(NatToString(n)) == n
  {
    DigitIs(n % 10);
    var digit := "0123456789"[n % 10];
    if n < 10 {
      assert "" + [digit] == [digit] && NatToString(n) == [digit];
      ValueSnoc("", digit);
    } else {
      var front := NatToString(n / 10);
      DigitsGiveNumber(n / 10);
      assert NatToString(n) == front + [digit];
      hide NatToString;
      ValueSnoc(front, digit);
    }
  }

  lemma ValueSnoc(front: string, digit: char)
    ensures ValueOf(front + [digit]) == 10 * ValueOf(front) + (digit as int - '0' as int)
  {
    assert (front + [digit])[..|front|] == front;
  }

  lemma WordIsPlain(truncated: bool)
    ensures var word := if truncated then "true" else "false"; Unescape(word) == word
  {
    var word := if truncated then "true" else "false";
    assert Plain(word);
    PlainIsUnchanged(word);
    UnescapeInverts(word);
    hide EscapeXml, Unescape;
  }

  lemma ValuesAreRead(redact: Redactor, t: Turn, j: nat)
    requires j < 5
    ensures |WrittenValues(redact, t)| == 5 && Unescape(WrittenValues(redact, t)[j]) == TurnValues(redact, t)[j]
  {
    hide EscapeXml, SafeIdentifier, NatToString, StepText, Unescape;
    UnescapeInverts(SafeIdentifier(redact, t.participantId));
    UnescapeInverts(SafeIdentifier(redact, t.agentId));
    UnescapeInverts(StepText(t.stepIndex));
    DigitsArePlain(NormalizedPosition(t.position));
    WordIsPlain(t.outputTruncated);
  }

  /** Every attribute of every turn is read back. */
  lemma TurnFieldsAreRead(
    redact: Redactor, task: string, p: Participant, turns: seq<Turn>, envelope: Option<Envelope>, k: nat, j: nat)
    requires k < |turns| && j < 5
    ensures ReadTurnField(RenderPrompt(redact, task, p, turns, envelope), k, j) == TurnValues(redact, turns[k])[j]
  {
    hide RenderPrompt, RenderTurn, PieceOf, TurnTag, WrittenValues, TurnValues, HasFields, Field, Unescape;
    TurnPiece(redact, task, p, turns, envelope, k, 1);
    TurnTagPiece(redact, turns[k]);
    TagFields(redact, turns[k]);
    ValuesAreRead(redact, turns[k], j);
    FieldIs(TurnTag(redact, turns[k]), WrittenValues(redact, turns[k]), j);
  }

  // ------------------------------------------------------------ the previous result

  function SourceValues(e: Envelope): seq<string> {
    [e.sourceParticipantId, e.sourceAgentId, e.sourceRunId]
  }

  function WrittenSource(e: Envelope): seq<string> {
    [Escaped(e.sourceParticipantId)] + [Escaped(e.sourceAgentId)] + [Escaped(e.sourceRunId)]
  }

  lemma SourceFields(e: Envelope)
    ensures HasFields(SourceAttributes(e), WrittenSource(e))
  {
    var a, b, c := Escaped(e.sourceParticipantId), Escaped(e.sourceAgentId), Escaped(e.sourceRunId);
    hide HasFields, Escaped, Attribute;
    SourceIdFields(e);
    FieldsJoin(Attribute("source_participant_id", a), [a], Attribute("source_agent_id", b), [b]);
    FieldsJoin(Attribute("source_participant_id", a) + Attribute("source_agent_id", b), [a] + [b],
               Attribute("source_run_id", c), [c]);
  }

  lemma SourceIdFields(e: Envelope)
    ensures HasFields(Attribute("source_participant_id", Escaped(e.sourceParticipantId)),
                      [Escaped(e.sourceParticipantId)])
    ensures HasFields(Attribute("source_agent_id", Escaped(e.sourceAgentId)), [Escaped(e.sourceAgentId)])
    ensures HasFields(Attribute("source_run_id", Escaped(e.sourceRunId)), [Escaped(e.sourceRunId)])
  {
    hide HasFields, Escaped, Attribute;
    EscapedField("source_participant_id", e.sourceParticipantId);
    EscapedField("source_agent_id", e.sourceAgentId);
    EscapedField("source_run_id", e.sourceRunId);
  }

  lemma EscapedField(name: string, value: string)
    requires '<' !in name && '"' !in name
    ensures HasFields(Attribute(name, Escaped(value)), [Escaped(value)])
  {
    EscapedHasNoQuote(value);
    hide HasFields, Escaped, Attribute;
    AttributeField(name, Escaped(value));
  }

  lemma ContentHasNoField(e: Envelope)
    ensures '"' !in OptionalLine(Escaped(e.content)) + "\n"
  {
    EscapedHasNoQuote(e.content);
    hide Escaped;
  }

  lemma SourcesAreRead(e: Envelope, j: nat)
    requires j < 3
    ensures |WrittenSource(e)| == 3 && Unescape(WrittenSource(e)[j]) == SourceValues(e)[j]
  {
    hide EscapeXml, Unescape;
    UnescapeInverts(e.sourceParticipantId);
    UnescapeInverts(e.sourceAgentId);
    UnescapeInverts(e.sourceRunId);
  }

  /** Where the previous result comes from is read back. */
  lemma SourceFieldsAreRead(
    redact: Redactor, task: string, p: Participant, turns: seq<Turn>, e: Envelope, j: nat)
    requires j < 3
    ensures ReadSourceField(RenderPrompt(redact, task, p, turns, Some(e)), j) == SourceValues(e)[j]
  {
    hide RenderPrompt, PieceOf, Escaped, HasFields, Field, ReadTurnCount, SourceAttributes, OptionalLine, WrittenSource,
         SourceValues, Unescape;
    CountsAreRead(redact, task, p, turns, Some(e));
    PreviousPiece(redact, task, p, turns, e);
    SourceFields(e);
    ContentHasNoField(e);
    var front := "untrusted_agent_output";
    FieldsBegin(front, SourceAttributes(e), WrittenSource(e));
    FieldsEnd(front + SourceAttributes(e), WrittenSource(e), ">");
    FieldsEnd(front + SourceAttributes(e) + ">", WrittenSource(e), OptionalLine(Escaped(e.content)) + "\n");
    SourcesAreRead(e, j);
    FieldIs(front + SourceAttributes(e) + ">" + (OptionalLine(Escaped(e.content)) + "\n"), WrittenSource(e), j);
  }

  /** Whether the prompt says that the previous result was cut. */
  function ReadCut(prompt: string): bool {
    |AfterBracket(PieceOf(prompt, 7 + 4 * ReadTurnCount(prompt)))| > 1
  }

  lemma CutLineIs(e: Envelope)
    ensures CutLine(e) != "" <==> e.truncated
  {
  }

  /** And so is whether it was cut. */
  lemma CutIsRead(redact: Redactor, task: string, p: Participant, turns: seq<Turn>, e: Envelope)
    ensures ReadCut(RenderPrompt(redact, task, p, turns, Some(e))) <==> e.truncated
  {
    hide RenderPrompt, PieceOf, ReadTurnCount, AfterBracket, CutLine;
    CountsAreRead(redact, task, p, turns, Some(e));
    CutPiece(redact, task, p, turns, e);
    CutLineIs(e);
    assert '>' !in "/untrusted_agent_output";
    assert "/untrusted_agent_output" + ">" + CutLine(e) + "\n" ==
           "/untrusted_agent_output" + ">" + (CutLine(e) + "\n");
    AfterBracketIs("/untrusted_agent_output", CutLine(e) + "\n");
  }

  // ------------------------------------------------------------ the participant

  /** Before the task the prompt says who is addressed: the participant, its Agent, its role and
      its position, as they are safe to show. */
  lemma ParticipantIsNamed(
    redact: Redactor, task: string, p: Participant, turns: seq<Turn>, envelope: Option<Envelope>)
    ensures
      PieceOf(RenderPrompt(redact, task, p, turns, envelope), 0) ==
      Intro() + "You are participant " + EscapeXml(SafeIdentifier(redact, p.id))
      + " (Agent " + EscapeXml(SafeIdentifier(redact, p.agentId))
      + "), in role " + EscapeXml(SafePromptText(redact, p.role, 160, ROLE_TRUNCATED))
      + ", at position " + NatToString(if p.position < 0 then 0 else p.position) + ".\n" + "\n"
  {
    hide RenderPrompt, Front, Back, PieceOf, Opens, Intro, EscapeXml, SafeIdentifier, SafePromptText, NatToString;
    PromptSplits(redact, task, p, turns, envelope);
    FrontPieces(redact, task, p);
    FrontBegins(redact, task, p);
    PieceKept(Front(redact, task, p), Back(redact, turns, envelope), 0);
  }

  lemma FrontBegins(redact: Redactor, task: string, p: Participant)
    ensures PieceOf(Front(redact, task, p), 0) == Greeting(redact, p) + "\n"
  {
    hide Pieces, Opens, TagLine, Greeting, Escaped, AfterTask;
    var rest := Escaped(task) + AfterTask();
    assert Front(redact, task, p) == Greeting(redact, p) + (TagLine("orchestration_task") + rest);
    OnePiece(Greeting(redact, p));
    TagPieces("orchestration_task");
    PiecesJoin(TagLine("orchestration_task"), rest);
    PiecesJoin(Greeting(redact, p), TagLine("orchestration_task") + rest);
  }
}
