/** Reading a prompt back: split at its opening brackets, every content that went into it can
    be told apart and recovered, whatever it was. */
module PromptReading {
  import opened Wrappers
  import opened Escaping
  import opened Roster
  import opened Handoff
  import opened PromptRendering

  /** The text between the characters `c`. */
  function Split(s: string, c: char): (r: seq<string>)
    ensures |r| > 0
  {
    if s == "" then [""]
    else
      var rest := Split(s[1..], c);
      if s[0] == c then [""] + rest else [[s[0]] + rest[0]] + rest[1..]
  }

  /** The text between the opening brackets. */
  function Pieces(s: string): (r: seq<string>)
    ensures |r| > 0
  {
    Split(s, '<')
  }

  function PieceOf(prompt: string, i: nat): string {
    if i < |Pieces(prompt)| then Pieces(prompt)[i] else ""
  }

  /** The pieces of two texts in a row: the last of the one and the first of the other grow together. */
  function Joined(a: seq<string>, b: seq<string>): seq<string>
    requires a != [] && b != []
  {
    a[..|a| - 1] + [a[|a| - 1] + b[0]] + b[1..]
  }

  lemma {:induction false} SplitJoins(a: string, b: string, c: char)
    ensures Split(a + b, c) == Joined(Split(a, c), Split(b, c))
  {
    if a == "" {
      assert a + b == b;
      assert "" + Split(b, c)[0] == Split(b, c)[0];
    } else {
      assert (a + b)[1..] == a[1..] + b;
      SplitJoins(a[1..], b, c);
      var p, q := Split(a[1..], c), Split(b, c);
      if a[0] == c {
        assert Joined([""] + p, q) == [""] + Joined(p, q);
      } else {
        JoinedGrows(a[0], p, q);
      }
    }
  }

  lemma PiecesJoin(a: string, b: string)
    ensures Pieces(a + b) == Joined(Pieces(a), Pieces(b))
  {
    SplitJoins(a, b, '<');
  }

  lemma JoinedGrows(c: char, p: seq<string>, q: seq<string>)
    requires p != [] && q != []
    ensures Joined([[c] + p[0]] + p[1..], q) == [[c] + Joined(p, q)[0]] + Joined(p, q)[1..]
  {
    if |p| == 1 {
      assert [c] + p[0] + q[0] == [c] + (p[0] + q[0]);
    }
  }

  lemma {:induction false} PiecesCount(s: string)
    ensures |Pieces(s)| == Opens(s) + 1
  {
    if s != "" {
      assert s == [s[0]] + s[1..];
      PiecesCount(s[1..]);
    }
  }

  lemma {:induction false} OneSplit(s: string, c: char)
    requires c !in s
    ensures Split(s, c) == [s]
  {
    if s != "" {
      assert s == [s[0]] + s[1..];
      OneSplit(s[1..], c);
    }
  }

  lemma OnePiece(s: string)
    requires '<' !in s
    ensures Pieces(s) == [s]
  {
    OneSplit(s, '<');
  }

  /** A piece that ends before the seam stays what it is ... */
  lemma PieceKept(a: string, b: string, i: nat)
    requires i < Opens(a)
    ensures i < |Pieces(a)| && PieceOf(a + b, i) == PieceOf(a, i)
  {
    PiecesJoin(a, b);
    PiecesCount(a);
    hide Pieces, Opens;
  }

  /** ... and one that begins behind it is moved back. */
  lemma PieceShifted(a: string, b: string, i: nat)
    requires 0 < i <= Opens(b)
    ensures PieceOf(a + b, Opens(a) + i) == PieceOf(b, i)
  {
    PiecesJoin(a, b);
    PiecesCount(a);
    PiecesCount(b);
    hide Pieces, Opens;
  }

  lemma TagPieces(name: string)
    requires '<' !in name
    ensures Pieces(Tag(name)) == ["", name + ">"]
    ensures Pieces(TagLine(name)) == ["\n", name + ">" + "\n"]
  {
    assert "<" + name + ">" == "<" + (name + ">");
    PiecesJoin("<", name + ">");
    assert "<"[1..] == "";
    OnePiece(name + ">");
    hide Pieces, Tag;
    assert Pieces("<") == ["", ""] by {
      BracketPieces();
    }
    OnePiece("\n");
    PiecesJoin("\n", Tag(name));
    PiecesJoin("\n" + Tag(name), "\n");
    assert "" + (name + ">") == name + ">";
  }

  lemma BracketPieces()
    ensures Pieces("<") == ["", ""]
  {
    assert "<"[1..] == "";
  }

  /** Plain text, a tag on its own line, text, another tag on its own line: the text is a piece. */
  lemma TaggedPiece(front: string, name: string, text: string, closing: string)
    requires '<' !in front && '<' !in name && '<' !in text && '<' !in closing
    ensures Pieces(front + TagLine(name) + text + TagLine(closing)) ==
            [front + "\n", name + ">" + "\n" + text + "\n", closing + ">" + "\n"]
  {
    hide Pieces, TagLine;
    OnePiece(front);
    OnePiece(text);
    TagPieces(name);
    TagPieces(closing);
    PiecesJoin(front, TagLine(name));
    PiecesJoin(front + TagLine(name), text);
    PiecesJoin(front + TagLine(name) + text, TagLine(closing));
  }

  // ------------------------------------------------------------ the reader

  /** What stands between a tag with the given name and the end of the line. */
  function Inside(piece: string, name: string): string {
    if |piece| < |name| + 3 then "" else piece[|name| + 2..|piece| - 1]
  }

  /** What stands behind the first closing bracket. */
  function AfterBracket(piece: string): string {
    if piece == "" then "" else if piece[0] == '>' then piece[1..] else AfterBracket(piece[1..])
  }

  function ReadTask(prompt: string): string {
    Unescape(Inside(PieceOf(prompt, 1), "orchestration_task"))
  }

  function ReadTurnCount(prompt: string): nat {
    if Opens(prompt) < 7 then 0 else (Opens(prompt) - 7) / 4
  }

  function ReadHasPrevious(prompt: string): bool {
    Opens(prompt) >= 7 && (Opens(prompt) - 7) % 4 == 2
  }

  function ReadOutput(prompt: string, k: nat): string {
    Unescape(Inside(PieceOf(prompt, 5 + 4 * k), "untrusted_agent_output"))
  }

  function ReadPrevious(prompt: string): string {
    var text := AfterBracket(PieceOf(prompt, 6 + 4 * ReadTurnCount(prompt)));
    if |text| < 2 then "" else Unescape(text[1..|text| - 1])
  }

  lemma InsideIs(name: string, text: string)
    ensures Inside(name + ">" + "\n" + text + "\n", name) == text
  {
    var piece := name + ">" + "\n" + text + "\n";
    assert |piece| == |name| + 3 + |text|;
    assert piece[|name| + 2..|piece| - 1] == text;
  }

  lemma {:induction false} AfterBracketIs(front: string, rest: string)
    requires '>' !in front
    ensures AfterBracket(front + ">" + rest) == rest
  {
    if front == "" {
      assert front + ">" + rest == ">" + rest;
    } else {
      assert (front + ">" + rest)[1..] == front[1..] + ">" + rest;
      AfterBracketIs(front[1..], rest);
    }
  }

  // ------------------------------------------------------------ the pieces of a prompt

  /** What comes before the shared conversation. */
  function Front(redact: Redactor, task: string, p: Participant): string {
    Head(redact, p) + Escaped(task) + AfterTask()
  }

  lemma FrontPieces(redact: Redactor, task: string, p: Participant)
    ensures Opens(Front(redact, task, p)) == 3
    ensures PieceOf(Front(redact, task, p), 1) == "orchestration_task" + ">" + "\n" + Escaped(task) + "\n"
  {
    hide Pieces, Opens, TagLine, Greeting, Escaped, SharedNote;
    OpensHead(redact, p);
    OpensNone(Escaped(task));
    OpensAfterTask();
    OpensConcat(Head(redact, p), Escaped(task));
    OpensConcat(Head(redact, p) + Escaped(task), AfterTask());
    var tagged := Greeting(redact, p) + TagLine("orchestration_task") + Escaped(task) + TagLine("/orchestration_task");
    var rest := TagLine("shared_conversation") + SharedNote();
    assert Front(redact, task, p) == tagged + rest;
    TaggedPiece(Greeting(redact, p), "orchestration_task", Escaped(task), "/orchestration_task");
    PiecesCount(tagged);
    PieceKept(tagged, rest, 1);
  }

  lemma TurnPieces(redact: Redactor, t: Turn)
    ensures Opens(RenderTurn(redact, t)) == 4
    ensures PieceOf(RenderTurn(redact, t), 2) == "untrusted_agent_output" + ">" + "\n" + Escaped(t.output) + "\n"
  {
    hide Pieces, Opens, Tag, TagLine, Escaped, TurnAttributes;
    OpensTurn(redact, t);
    var tag := "turn" + TurnAttributes(redact, t);
    assert '<' !in "turn";
    var tagged := "" + TagLine("untrusted_agent_output") + Escaped(t.output) + TagLine("/untrusted_agent_output");
    assert RenderTurn(redact, t) == Tag(tag) + (tagged + Tag("/turn"));
    OpensTag(tag);
    TaggedPiece("", "untrusted_agent_output", Escaped(t.output), "/untrusted_agent_output");
    PiecesCount(tagged);
    PieceKept(tagged, Tag("/turn"), 1);
    OpensTag("/turn");
    OpensConcat(tagged, Tag("/turn"));
    PieceShifted(Tag(tag), tagged + Tag("/turn"), 1);
  }

  /** The name and attributes of a turn's tag, and the end of its line. */
  function TurnTag(redact: Redactor, t: Turn): string {
    "turn" + TurnAttributes(redact, t) + ">" + "\n"
  }

  lemma TurnTagPiece(redact: Redactor, t: Turn)
    ensures PieceOf(RenderTurn(redact, t), 1) == TurnTag(redact, t)
  {
    hide Pieces, Opens, Tag, TagLine, Escaped, TurnAttributes;
    var tag := "turn" + TurnAttributes(redact, t);
    assert '<' !in "turn";
    var rest := Escaped(t.output) + TagLine("/untrusted_agent_output") + Tag("/turn");
    assert RenderTurn(redact, t) == Tag(tag) + (TagLine("untrusted_agent_output") + rest);
    TagPieces(tag);
    TagPieces("untrusted_agent_output");
    PiecesJoin(TagLine("untrusted_agent_output"), rest);
    PiecesJoin(Tag(tag), TagLine("untrusted_agent_output") + rest);
  }

  lemma OpensOfTurns(redact: Redactor, turns: seq<Turn>)
    requires turns != []
    ensures Opens(RenderTurns(redact, turns)) == 4 * |turns|
  {
    hide Opens, RenderTurns;
    OpensTurns(redact, turns);
  }

  /** A piece behind a turn and a line end is a piece of what follows them. */
  lemma PieceBehindTurn(turn: string, rest: string, i: nat)
    requires Opens(turn) == 4 && 0 < i <= Opens(rest)
    ensures PieceOf(turn + "\n" + rest, 4 + i) == PieceOf(rest, i)
  {
    hide Opens, PieceOf;
    OpensNone("\n");
    OpensConcat(turn, "\n");
    PieceShifted(turn + "\n", rest, i);
  }

  lemma {:induction false} TurnsPieces(redact: Redactor, turns: seq<Turn>, k: nat, i: nat)
    requires k < |turns| && 0 < i < 4
    ensures 4 * k + i < Opens(RenderTurns(redact, turns)) == 4 * |turns|
    ensures PieceOf(RenderTurns(redact, turns), 4 * k + i) == PieceOf(RenderTurn(redact, turns[k]), i)
  {
    hide PieceOf, Opens, RenderTurn;
    OpensOfTurns(redact, turns);
    OpensTurn(redact, turns[0]);
    if |turns| > 1 {
      var first, rest := RenderTurn(redact, turns[0]), RenderTurns(redact, turns[1..]);
      OpensConcat(first, "\n");
      OpensNone("\n");
      if k == 0 {
        PieceKept(first, "\n", i);
        PieceKept(first + "\n", rest, i);
      } else {
        TurnsPieces(redact, turns[1..], k - 1, i);
        PieceBehindTurn(first, rest, 4 * (k - 1) + i);
      }
    }
  }

  /** What stands behind the previous result, on a line of its own, if it was cut. */
  function CutLine(e: Envelope): string {
    OptionalLine(if e.truncated then CutNote() else "")
  }

  /** The previous result from its tag on. */
  function SourcePiece(e: Envelope): string {
    "untrusted_agent_output" + SourceAttributes(e) + ">" + (OptionalLine(Escaped(e.content)) + "\n")
  }

  function ClosingPiece(e: Envelope): string {
    "/untrusted_agent_output" + ">" + CutLine(e)
  }

  lemma HandoffPieces(e: Envelope)
    ensures Opens(HandoffSection(Some(e))) == 2
    ensures Pieces(HandoffSection(Some(e))) == ["", SourcePiece(e), ClosingPiece(e)]
  {
    hide Pieces, Opens, Tag, Escaped, SourceAttributes, CutNote, OptionalLine;
    OpensHandoff(Some(e));
    assert '<' !in "untrusted_agent_output";
    var line := OptionalLine(Escaped(e.content));
    LineHasNoBracket(Escaped(e.content));
    LineHasNoBracket(CutNote());
    LineHasNoBracket("");
    assert HandoffSection(Some(e)) ==
           Tag("untrusted_agent_output" + SourceAttributes(e)) + line + "\n" + Tag("/untrusted_agent_output")
           + CutLine(e);
    SecondPiece("untrusted_agent_output" + SourceAttributes(e), line, "/untrusted_agent_output", CutLine(e));
  }

  lemma LineHasNoBracket(s: string)
    requires '<' !in s
    ensures '<' !in OptionalLine(s)
  {
  }

  lemma SecondPiece(name: string, line: string, closing: string, note: string)
    requires '<' !in name && '<' !in line && '<' !in closing && '<' !in note
    ensures Pieces(Tag(name) + line + "\n" + Tag(closing) + note) ==
            ["", name + ">" + (line + "\n"), closing + ">" + note]
  {
    hide Pieces, Opens, Tag;
    OnePiece(line);
    OnePiece("\n");
    OnePiece(note);
    TagPieces(name);
    TagPieces(closing);
    PiecesJoin(Tag(name), line);
    PiecesJoin(Tag(name) + line, "\n");
    PiecesJoin(Tag(name) + line + "\n", Tag(closing));
    PiecesJoin(Tag(name) + line + "\n" + Tag(closing), note);
    assert name + ">" + line + "\n" == name + ">" + (line + "\n");
    var piece := name + ">" + (line + "\n");
    assert Pieces(Tag(name) + line + "\n") == ["", piece];
    assert piece + "" == piece;
  }

  // ------------------------------------------------------------ the round trip

  /** What follows the front of a prompt. */
  function Back(redact: Redactor, turns: seq<Turn>, envelope: Option<Envelope>): string {
    SharedSection(redact, turns) + (AfterShared() + (HandoffSection(envelope) + (AfterHandoff() + SafetyContract())))
  }

  lemma PromptSplits(redact: Redactor, task: string, p: Participant, turns: seq<Turn>, envelope: Option<Envelope>)
    ensures RenderPrompt(redact, task, p, turns, envelope) == Front(redact, task, p) + Back(redact, turns, envelope)
  {
    hide Head, Escaped, AfterTask, SharedSection, AfterShared, HandoffSection, AfterHandoff, SafetyContract;
    Regroup(Head(redact, p) + Escaped(task) + AfterTask(), SharedSection(redact, turns), AfterShared(),
            HandoffSection(envelope), AfterHandoff(), SafetyContract());
  }

  lemma Regroup(a: string, b: string, c: string, d: string, e: string, f: string)
    ensures a + b + c + d + e + f == a + (b + (c + (d + (e + f))))
  {
  }

  lemma TaskPiece(redact: Redactor, task: string, p: Participant, turns: seq<Turn>, envelope: Option<Envelope>)
    ensures PieceOf(RenderPrompt(redact, task, p, turns, envelope), 1) ==
            "orchestration_task" + ">" + "\n" + Escaped(task) + "\n"
  {
    hide RenderPrompt, Front, Back, PieceOf, Opens;
    PromptSplits(redact, task, p, turns, envelope);
    FrontPieces(redact, task, p);
    PieceKept(Front(redact, task, p), Back(redact, turns, envelope), 1);
  }

  /** A piece of a turn is a piece of the prompt. */
  lemma TurnPiece(
    redact: Redactor, task: string, p: Participant, turns: seq<Turn>, envelope: Option<Envelope>, k: nat, i: nat)
    requires k < |turns| && 0 < i < 4
    ensures PieceOf(RenderPrompt(redact, task, p, turns, envelope), 3 + 4 * k + i) ==
            PieceOf(RenderTurn(redact, turns[k]), i)
  {
    hide RenderPrompt, Front, AfterShared, HandoffSection, AfterHandoff, SafetyContract, RenderTurns, PieceOf, Opens,
         RenderTurn;
    PromptSplits(redact, task, p, turns, envelope);
    FrontPieces(redact, task, p);
    TurnsPieces(redact, turns, k, i);
    var shared := RenderTurns(redact, turns);
    var rest := AfterShared() + (HandoffSection(envelope) + (AfterHandoff() + SafetyContract()));
    PieceKept(shared, rest, 4 * k + i);
    OpensConcat(shared, rest);
    PieceShifted(Front(redact, task, p), shared + rest, 4 * k + i);
  }

  /** A piece of the previous result, and of what follows it, is a piece of the prompt. */
  lemma PieceBehindTurns(redact: Redactor, task: string, p: Participant, turns: seq<Turn>, e: Envelope, i: nat)
    requires 0 < i <= 2
    ensures PieceOf(RenderPrompt(redact, task, p, turns, Some(e)), 5 + 4 * |turns| + i) ==
            PieceOf(HandoffSection(Some(e)) + (AfterHandoff() + SafetyContract()), i)
  {
    hide RenderPrompt, Front, AfterShared, SharedSection, HandoffSection, AfterHandoff, SafetyContract, PieceOf, Opens;
    PromptSplits(redact, task, p, turns, Some(e));
    FrontPieces(redact, task, p);
    OpensTurns(redact, turns);
    OpensAfterTurns();
    OpensHandoff(Some(e));
    var handoff, tail := HandoffSection(Some(e)), AfterHandoff() + SafetyContract();
    OpensConcat(handoff, tail);
    PieceShifted(AfterShared(), handoff + tail, i);
    OpensConcat(AfterShared(), handoff + tail);
    PieceShifted(SharedSection(redact, turns), AfterShared() + (handoff + tail), 2 + i);
    OpensConcat(SharedSection(redact, turns), AfterShared() + (handoff + tail));
    PieceShifted(Front(redact, task, p), SharedSection(redact, turns) + (AfterShared() + (handoff + tail)),
      2 + 4 * |turns| + i);
  }

  lemma PreviousPiece(redact: Redactor, task: string, p: Participant, turns: seq<Turn>, e: Envelope)
    ensures PieceOf(RenderPrompt(redact, task, p, turns, Some(e)), 6 + 4 * |turns|) == SourcePiece(e)
  {
    hide RenderPrompt, HandoffSection, AfterHandoff, SafetyContract, Pieces, Opens, SourcePiece, ClosingPiece;
    PieceBehindTurns(redact, task, p, turns, e, 1);
    HandoffPieces(e);
    PieceKept(HandoffSection(Some(e)), AfterHandoff() + SafetyContract(), 1);
  }

  lemma CutPiece(redact: Redactor, task: string, p: Participant, turns: seq<Turn>, e: Envelope)
    ensures PieceOf(RenderPrompt(redact, task, p, turns, Some(e)), 7 + 4 * |turns|) == ClosingPiece(e) + "\n"
  {
    hide RenderPrompt, HandoffSection, SafetyContract, Pieces, Opens, TagLine, SourcePiece, ClosingPiece;
    PieceBehindTurns(redact, task, p, turns, e, 2);
    HandoffPieces(e);
    var rest := "\n" + SafetyContract();
    assert AfterHandoff() + SafetyContract() == TagLine("/previous_agent_handoff") + rest;
    TagPieces("/previous_agent_handoff");
    PiecesJoin(TagLine("/previous_agent_handoff"), rest);
    PiecesJoin(HandoffSection(Some(e)), TagLine("/previous_agent_handoff") + rest);
  }

  lemma AttributesCloseNothing(e: Envelope)
    ensures '>' !in SourceAttributes(e)
  {
    EscapedShape(e.sourceParticipantId);
    EscapedShape(e.sourceAgentId);
    EscapedShape(e.sourceRunId);
    hide EscapeXml;
  }

  lemma CountsAreRead(redact: Redactor, task: string, p: Participant, turns: seq<Turn>, envelope: Option<Envelope>)
    ensures ReadTurnCount(RenderPrompt(redact, task, p, turns, envelope)) == |turns|
    ensures ReadHasPrevious(RenderPrompt(redact, task, p, turns, envelope)) == envelope.Some?
  {
    hide RenderPrompt, Opens;
    ContentForgesNoMarkup(redact, task, p, turns, envelope);
    DivisionIsUnique(4 * |turns| + if envelope.Some? then 2 else 0, 4, |turns|, if envelope.Some? then 2 else 0);
  }

  lemma TaskIsRead(redact: Redactor, task: string, p: Participant, turns: seq<Turn>, envelope: Option<Envelope>)
    ensures ReadTask(RenderPrompt(redact, task, p, turns, envelope)) == task
  {
    hide RenderPrompt, PieceOf, Unescape, Inside, EscapeXml;
    TaskPiece(redact, task, p, turns, envelope);
    InsideIs("orchestration_task", Escaped(task));
    UnescapeInverts(task);
  }

  lemma OutputIsRead(
    redact: Redactor, task: string, p: Participant, turns: seq<Turn>, envelope: Option<Envelope>, k: nat)
    requires k < |turns|
    ensures ReadOutput(RenderPrompt(redact, task, p, turns, envelope), k) == turns[k].output
  {
    hide RenderPrompt, RenderTurn, PieceOf, Unescape, Inside, EscapeXml;
    TurnPiece(redact, task, p, turns, envelope, k, 2);
    TurnPieces(redact, turns[k]);
    InsideIs("untrusted_agent_output", Escaped(turns[k].output));
    UnescapeInverts(turns[k].output);
  }

  /** Reading the prompt gives exactly these contents. */
  ghost predicate ReadsAs(prompt: string, task: string, turns: seq<Turn>, envelope: Option<Envelope>) {
    && ReadTask(prompt) == task
    && ReadTurnCount(prompt) == |turns|
    && (forall k :: 0 <= k < |turns| ==> ReadOutput(prompt, k) == turns[k].output)
    && ReadHasPrevious(prompt) == envelope.Some?
    && (envelope.Some? ==> ReadPrevious(prompt) == envelope.value.content)
  }

  /** Whatever the contents are, a prompt can be read back: the task, how many turns it shows
      and the output of each, and the previous result. None of them can pass for another. */
  lemma ReadingRecoversContents(
    redact: Redactor, task: string, p: Participant, turns: seq<Turn>, envelope: Option<Envelope>)
    ensures ReadsAs(RenderPrompt(redact, task, p, turns, envelope), task, turns, envelope)
  {
    hide RenderPrompt, ReadTask, ReadTurnCount, ReadOutput, ReadHasPrevious, ReadPrevious;
    TaskIsRead(redact, task, p, turns, envelope);
    CountsAreRead(redact, task, p, turns, envelope);
    forall k | 0 <= k < |turns|
      ensures ReadOutput(RenderPrompt(redact, task, p, turns, envelope), k) == turns[k].output
    {
      OutputIsRead(redact, task, p, turns, envelope, k);
    }
    if envelope.Some? {
      PreviousIsRead(redact, task, p, turns, envelope.value);
    }
  }

  lemma PreviousIsRead(redact: Redactor, task: string, p: Participant, turns: seq<Turn>, e: Envelope)
    ensures ReadPrevious(RenderPrompt(redact, task, p, turns, Some(e))) == e.content
  {
    hide RenderPrompt, PieceOf, Unescape, ReadTurnCount, EscapeXml, SourceAttributes, AfterBracket;
    CountsAreRead(redact, task, p, turns, Some(e));
    PreviousPiece(redact, task, p, turns, e);
    AttributesCloseNothing(e);
    assert '>' !in "untrusted_agent_output";
    AfterBracketIs("untrusted_agent_output" + SourceAttributes(e), OptionalLine(Escaped(e.content)) + "\n");
    UnescapeInverts(e.content);
    var line := OptionalLine(Escaped(e.content)) + "\n";
    if Escaped(e.content) != "" {
      assert line[1..|line| - 1] == Escaped(e.content);
    } else {
      EscapedShape(e.content);
    }
  }

  ghost predicate SameContents(
    task: string, turns: seq<Turn>, envelope: Option<Envelope>, task': string, turns': seq<Turn>,
    envelope': Option<Envelope>)
  {
    && task == task' && |turns| == |turns'| && envelope.Some? == envelope'.Some?
    && (forall k :: 0 <= k < |turns| ==> turns[k].output == turns'[k].output)
    && (envelope.Some? ==> envelope.value.content == envelope'.value.content)
  }

  lemma ReadsAsOne(
    prompt: string, task: string, turns: seq<Turn>, envelope: Option<Envelope>, task': string, turns': seq<Turn>,
    envelope': Option<Envelope>)
    requires ReadsAs(prompt, task, turns, envelope) && ReadsAs(prompt, task', turns', envelope')
    ensures SameContents(task, turns, envelope, task', turns', envelope')
  {
    hide ReadTask, ReadTurnCount, ReadOutput, ReadHasPrevious, ReadPrevious;
  }

  /** Two prompts for the same participant are the same only if they show the same contents. */
  lemma RenderingIsInjective(
    redact: Redactor, p: Participant, task: string, turns: seq<Turn>, envelope: Option<Envelope>,
    task': string, turns': seq<Turn>, envelope': Option<Envelope>)
    requires RenderPrompt(redact, task, p, turns, envelope) == RenderPrompt(redact, task', p, turns', envelope')
    ensures SameContents(task, turns, envelope, task', turns', envelope')
  {
    hide RenderPrompt, ReadsAs, SameContents;
    var prompt := RenderPrompt(redact, task, p, turns, envelope);
    ReadingRecoversContents(redact, task, p, turns, envelope);
    ReadingRecoversContents(redact, task', p, turns', envelope');
    ReadsAsOne(prompt, task, turns, envelope, task', turns', envelope');
  }
}
