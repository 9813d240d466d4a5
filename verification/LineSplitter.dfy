/** The stdout side of a child process: chunks are cut into lines as they arrive, and an
    oversized unterminated line is dropped rather than retained. */
module LineSplitter {
  import opened Text

  // ------------------------------------------------------------ whole-stream reference

  /** A stream cut at its line feeds: the terminated lines, still with a carriage return where
      they had one, and the unterminated rest. */
  datatype Cut = Cut(lines: seq<string>, rest: string)

  function CutAll(s: string): Cut {
    if s == "" then Cut([], "") else Push(CutAll(s[..|s| - 1]), s[|s| - 1])
  }

  function Push(cut: Cut, c: char): Cut {
    if c == '\n' then Cut(cut.lines + [cut.rest], "") else Cut(cut.lines, cut.rest + [c])
  }

  lemma CutAllPush(s: string, c: char)
    ensures CutAll(s + [c]) == Push(CutAll(s), c)
  {
    assert (s + [c])[..|s|] == s;
  }

  function StripReturn(raw: string): string {
    if raw != "" && raw[|raw| - 1] == '\r' then raw[..|raw| - 1] else raw
  }

  /** Terminated lines as they are reported, without the carriage return before the line feed. */
  function Reported(raws: seq<string>): (r: seq<string>)
    ensures |r| == |raws|
    ensures forall i :: 0 <= i < |r| ==> r[i] == StripReturn(raws[i])
  {
    seq(|raws|, i requires 0 <= i < |raws| => StripReturn(raws[i]))
  }

  /** What is reported for a stream that is never cut short: its terminated lines, and its
      rest, trimmed, when that is not blank. */
  function WholeOutput(s: string): seq<string> {
    var cut := CutAll(s);
    Reported(cut.lines) + if Trim(cut.rest) == "" then [] else [Trim(cut.rest)]
  }

  /** `split(/\r?\n/)`: leftmost matches, scanned from the left; `piece` is what was read since
      the last match. */
  function RegexSplit(s: string, piece: string): (r: seq<string>)
    ensures |r| >= 1
    decreases |s|
  {
    if s == "" then [piece]
    else if s[0] == '\n' then [piece] + RegexSplit(s[1..], "")
    else if |s| > 1 && s[0] == '\r' && s[1] == '\n' then [piece] + RegexSplit(s[2..], "")
    else RegexSplit(s[1..], piece + [s[0]])
  }

  lemma {:induction false} CutAllConcat(a: string, b: string)
    ensures CutAll(a + b) == Cut(CutAll(a).lines + CutAll(CutAll(a).rest + b).lines, CutAll(CutAll(a).rest + b).rest)
  {
    hide CutAll;
    var ca := CutAll(a);
    if b == "" {
      assert a + b == a && ca.rest + b == ca.rest;
      RestHasNoLineFeed(a);
      CutNoLineFeed(ca.rest);
    } else {
      var init, c := b[..|b| - 1], b[|b| - 1];
      CutAllConcat(a, init);
      assert a + b == a + init + [c] && ca.rest + b == ca.rest + init + [c];
      CutAllPush(a + init, c);
      CutAllPush(ca.rest + init, c);
      var mid := CutAll(ca.rest + init);
      assert ca.lines + (mid.lines + [mid.rest]) == ca.lines + mid.lines + [mid.rest];
    }
  }

  lemma {:induction false} RestHasNoLineFeed(a: string)
    ensures '\n' !in CutAll(a).rest
  {
    if a != "" {
      RestHasNoLineFeed(a[..|a| - 1]);
    }
  }

  lemma {:induction false} CutNoLineFeed(s: string)
    requires '\n' !in s
    ensures CutAll(s) == Cut([], s)
  {
    if s != "" {
      assert s[|s| - 1] in s;
      CutNoLineFeed(s[..|s| - 1]);
      assert s == s[..|s| - 1] + [s[|s| - 1]];
    }
  }

  /** Text before the first line feed belongs to the first line, or to the rest. */
  function Prefixed(pre: string, cut: Cut): Cut {
    if cut.lines == [] then Cut([], pre + cut.rest) else Cut([pre + cut.lines[0]] + cut.lines[1..], cut.rest)
  }

  lemma {:induction false} CutPrefixed(pre: string, s: string)
    requires '\n' !in pre
    ensures CutAll(pre + s) == Prefixed(pre, CutAll(s))
  {
    if s == "" {
      assert pre + s == pre && pre + "" == pre;
      CutNoLineFeed(pre);
    } else {
      var init, c := s[..|s| - 1], s[|s| - 1];
      CutPrefixed(pre, init);
      assert (pre + s)[..|pre + s| - 1] == pre + init;
      var cut := CutAll(init);
      if cut.lines == [] {
        assert pre + (cut.rest + [c]) == pre + cut.rest + [c];
      } else if c == '\n' {
        assert (cut.lines + [cut.rest])[1..] == cut.lines[1..] + [cut.rest];
      }
    }
  }

  lemma CutAtLineFeed(line: string, rest: string)
    requires '\n' !in line
    ensures CutAll(line + "\n" + rest) == Cut([line] + CutAll(rest).lines, CutAll(rest).rest)
  {
    assert (line + "\n")[..|line|] == line;
    CutNoLineFeed(line);
    assert CutAll(line + "\n") == Cut([line], "");
    hide CutAll;
    CutAllConcat(line + "\n", rest);
    assert "" + rest == rest;
  }

  /** The leftmost-match split cuts at every line feed and strips one carriage return. */
  lemma {:induction false} RegexSplitIsCut(s: string, piece: string)
    requires '\n' !in piece
    requires piece != "" && piece[|piece| - 1] == '\r' && s != "" ==> s[0] != '\n'
    ensures RegexSplit(s, piece) == Reported(CutAll(piece + s).lines) + [CutAll(piece + s).rest]
    decreases |s|, 0
  {
    hide CutAll;
    if s == "" {
      assert piece + s == piece;
      CutNoLineFeed(piece);
    } else if s[0] == '\n' {
      RegexSplitAtLineFeed(s[1..], piece);
      assert piece + s == piece + "\n" + s[1..];
    } else if |s| > 1 && s[0] == '\r' && s[1] == '\n' {
      RegexSplitAtLineFeed(s[2..], piece + "\r");
      assert (piece + "\r")[..|piece|] == piece;
      assert piece + s == piece + "\r" + "\n" + s[2..];
    } else {
      RegexSplitIsCut(s[1..], piece + [s[0]]);
      assert piece + s == piece + [s[0]] + s[1..];
    }
  }

  lemma {:induction false} RegexSplitAtLineFeed(rest: string, raw: string)
    requires '\n' !in raw
    ensures
      var cut := CutAll(raw + "\n" + rest);
      [StripReturn(raw)] + RegexSplit(rest, "") == Reported(cut.lines) + [cut.rest]
    decreases |rest|, 1
  {
    RegexSplitIsCut(rest, "");
    assert "" + rest == rest;
    CutAtLineFeed(raw, rest);
    var cut := CutAll(rest);
    assert Reported([raw] + cut.lines) == [StripReturn(raw)] + Reported(cut.lines);
  }

  // ------------------------------------------------------------ the splitter, as a function

  datatype Splitter = Splitter(buffer: string, dropping: bool, truncated: bool, lines: seq<string>)

  const INITIAL := Splitter("", false, false, [])

  /** The effect of one chunk. */
  function Consume(st: Splitter, chunk: string, maxOutputBytes: nat): Splitter {
    var parts := RegexSplit(st.buffer + chunk, "");
    Absorb(st, parts[..|parts| - 1], parts[|parts| - 1], maxOutputBytes)
  }

  function Absorb(st: Splitter, complete: seq<string>, rest: string, maxOutputBytes: nat): Splitter {
    var oversized := Oversized(rest, maxOutputBytes);
    Splitter(
      if oversized then "" else rest,
      oversized || (st.dropping && complete == []),
      st.truncated || oversized,
      st.lines + if st.dropping && complete != [] then complete[1..] else complete)
  }

  predicate Oversized(piece: string, maxOutputBytes: nat) {
    ByteLength(piece) > maxOutputBytes
  }

  function Feed(chunks: seq<string>, maxOutputBytes: nat): Splitter {
    if chunks == [] then INITIAL
    else Consume(Feed(chunks[..|chunks| - 1], maxOutputBytes), chunks[|chunks| - 1], maxOutputBytes)
  }

  /** Everything reported once the process has closed its stdout. */
  function Close(st: Splitter): seq<string> {
    if !st.dropping && Trim(st.buffer) != "" then st.lines + [Trim(st.buffer)] else st.lines
  }

  function Whole(chunks: seq<string>): string {
    if chunks == [] then "" else Whole(chunks[..|chunks| - 1]) + chunks[|chunks| - 1]
  }

  // ------------------------------------------------------------ what the splitter promises

  /** Which terminated lines of the stream are reported. */
  function Kept(chunks: seq<string>, maxOutputBytes: nat): seq<bool> {
    if chunks == [] then []
    else
      var before := Feed(chunks[..|chunks| - 1], maxOutputBytes);
      Kept(chunks[..|chunks| - 1], maxOutputBytes) +
      Flags(|RegexSplit(before.buffer + chunks[|chunks| - 1], "")| - 1, before.dropping)
  }

  function Flags(arrived: nat, dropping: bool): (r: seq<bool>)
    ensures |r| == arrived && forall i :: 0 <= i < arrived ==> r[i] == (i > 0 || !dropping)
  {
    seq(arrived, i => i > 0 || !dropping)
  }

  function Select(lines: seq<string>, keep: seq<bool>): seq<string>
    requires |lines| == |keep|
  {
    if lines == [] then []
    else (if keep[0] then [lines[0]] else []) + Select(lines[1..], keep[1..])
  }

  lemma {:induction false} SelectConcat(a: seq<string>, ka: seq<bool>, b: seq<string>, kb: seq<bool>)
    requires |a| == |ka| && |b| == |kb|
    ensures Select(a + b, ka + kb) == Select(a, ka) + Select(b, kb)
  {
    if a == [] {
      assert a + b == b && ka + kb == kb;
    } else {
      SelectConcat(a[1..], ka[1..], b, kb);
      assert (a + b)[1..] == a[1..] + b && (ka + kb)[1..] == ka[1..] + kb;
    }
  }

  lemma {:induction false} SelectAll(lines: seq<string>, keep: seq<bool>)
    requires |lines| == |keep| && forall i :: 0 <= i < |keep| ==> keep[i]
    ensures Select(lines, keep) == lines
  {
    if lines != [] {
      SelectAll(lines[1..], keep[1..]);
    }
  }

  ghost predicate SuffixOf(t: string, s: string) {
    |t| <= |s| && t == s[|s| - |t|..]
  }

  /** How the splitter's state stands to the stream received so far. */
  ghost predicate Tracks(st: Splitter, keep: seq<bool>, cut: Cut, max: nat) {
    && Reports(st, keep, cut)
    && Justified(keep, cut.lines, st.truncated, max)
    && Bounded(st, cut, max)
  }

  ghost predicate Bounded(st: Splitter, cut: Cut, max: nat) {
    && (st.dropping ==> st.truncated && Oversized(cut.rest, max))
    && (st.truncated ==> !Fits(cut, max))
    && !Oversized(st.buffer, max)
  }

  /** Only a truncated run drops a line, and only one over the limit. */
  ghost predicate Justified(keep: seq<bool>, raws: seq<string>, truncated: bool, max: nat) {
    |keep| == |raws| && forall i :: 0 <= i < |keep| && !keep[i] ==> truncated && Oversized(raws[i], max)
  }

  ghost predicate Reports(st: Splitter, keep: seq<bool>, cut: Cut) {
    && |keep| == |cut.lines|
    && st.lines == Select(Reported(cut.lines), keep)
    && SuffixOf(st.buffer, cut.rest)
    && (!st.dropping ==> st.buffer == cut.rest)
  }

  /** Every line with its carriage return, and the rest, respect the limit. */
  ghost predicate Fits(cut: Cut, max: nat) {
    !Oversized(cut.rest, max) && forall i :: 0 <= i < |cut.lines| ==> !Oversized(cut.lines[i], max)
  }

  /** The stream's cut after a chunk, from its cut before and that of the retained text;
      `unseen` is the part of the pending line that is no longer retained. */
  function After(cut: Cut, unseen: string, arrived: Cut): Cut {
    var whole := Prefixed(unseen, arrived);
    Cut(cut.lines + whole.lines, whole.rest)
  }

  lemma CutAfter(w: string, unseen: string, buffer: string, chunk: string)
    requires CutAll(w).rest == unseen + buffer && '\n' !in unseen
    ensures CutAll(w + chunk) == After(CutAll(w), unseen, CutAll(buffer + chunk))
  {
    hide CutAll;
    CutAllConcat(w, chunk);
    assert CutAll(w).rest + chunk == unseen + (buffer + chunk);
    CutPrefixed(unseen, buffer + chunk);
  }

  lemma ReportsStep(st: Splitter, keep: seq<bool>, cut: Cut, unseen: string, arrived: Cut, max: nat)
    requires Reports(st, keep, cut) && cut.rest == unseen + st.buffer
    ensures Reports(Absorb(st, Reported(arrived.lines), arrived.rest, max),
                    keep + Flags(|arrived.lines|, st.dropping), After(cut, unseen, arrived))
  {
    var whole := Prefixed(unseen, arrived);
    var more := Flags(|arrived.lines|, st.dropping);
    assert Reported(cut.lines + whole.lines) == Reported(cut.lines) + Reported(whole.lines);
    SelectConcat(Reported(cut.lines), keep, Reported(whole.lines), more);
    assert Select(Reported(whole.lines), more) ==
           if st.dropping && arrived.lines != [] then Reported(arrived.lines)[1..] else Reported(arrived.lines) by {
      SelectArrived(st.dropping, unseen, arrived);
    }
    if arrived.lines == [] && !st.dropping {
      assert whole.rest == arrived.rest;
    }
  }

  /** Of the lines that arrive with a chunk, all are reported but the tail of a dropped one. */
  lemma SelectArrived(dropping: bool, unseen: string, arrived: Cut)
    requires dropping || unseen == ""
    ensures Select(Reported(Prefixed(unseen, arrived).lines), Flags(|arrived.lines|, dropping)) ==
            if dropping && arrived.lines != [] then Reported(arrived.lines)[1..] else Reported(arrived.lines)
  {
    var lines, keep := Reported(Prefixed(unseen, arrived).lines), Flags(|arrived.lines|, dropping);
    if arrived.lines != [] {
      SelectAll(lines[1..], keep[1..]);
      assert lines[1..] == Reported(arrived.lines)[1..];
      assert unseen == "" ==> unseen + arrived.lines[0] == arrived.lines[0];
    }
  }

  lemma OversizedExtends(a: string, b: string, max: nat)
    ensures Oversized(a, max) || Oversized(b, max) ==> Oversized(a + b, max)
  {
    ByteLengthConcat(a, b);
  }

  lemma TracksStep(st: Splitter, keep: seq<bool>, cut: Cut, unseen: string, arrived: Cut, max: nat)
    requires Tracks(st, keep, cut, max) && cut.rest == unseen + st.buffer
    requires st.buffer <= FirstPiece(arrived)
    ensures Tracks(Absorb(st, Reported(arrived.lines), arrived.rest, max),
                   keep + Flags(|arrived.lines|, st.dropping), After(cut, unseen, arrived), max)
  {
    ReportsStep(st, keep, cut, unseen, arrived, max);
    FirstPieceOversized(st.buffer, cut, unseen, arrived, max);
    BoundedStep(st, cut, unseen, arrived, max);
    hide ByteLength, Select, Reported, Reports, Bounded, Oversized, Flags, After;
    JustifiedStep(keep, st.dropping, cut, unseen, arrived, st.truncated, max);
  }

  lemma FirstPieceOversized(buffer: string, cut: Cut, unseen: string, arrived: Cut, max: nat)
    requires cut.rest == unseen + buffer && buffer <= FirstPiece(arrived)
    ensures Oversized(cut.rest, max) || Oversized(FirstPiece(arrived), max) ==>
              Oversized(unseen + FirstPiece(arrived), max)
  {
    var grown := FirstPiece(arrived)[|buffer|..];
    assert unseen + FirstPiece(arrived) == cut.rest + grown;
    OversizedExtends(cut.rest, grown, max);
    OversizedExtends(unseen, FirstPiece(arrived), max);
  }

  lemma BoundedStep(st: Splitter, cut: Cut, unseen: string, arrived: Cut, max: nat)
    requires Bounded(st, cut, max)
    requires Oversized(cut.rest, max) || Oversized(FirstPiece(arrived), max) ==>
               Oversized(unseen + FirstPiece(arrived), max)
    ensures Bounded(Absorb(st, Reported(arrived.lines), arrived.rest, max), After(cut, unseen, arrived), max)
  {
    assert !Oversized("", max);
    hide ByteLength, Reported;
    OversizedAfter(cut, unseen, arrived, max);
  }

  lemma JustifiedStep(
    keep: seq<bool>, dropping: bool, cut: Cut, unseen: string, arrived: Cut, truncated: bool, max: nat)
    requires Justified(keep, cut.lines, truncated, max)
    requires dropping ==> truncated && Oversized(unseen + FirstPiece(arrived), max)
    ensures Justified(keep + Flags(|arrived.lines|, dropping), After(cut, unseen, arrived).lines, truncated, max)
  {
    hide Oversized;
    var keep', raws := keep + Flags(|arrived.lines|, dropping), After(cut, unseen, arrived).lines;
    forall i | 0 <= i < |keep'| && !keep'[i]
      ensures truncated && Oversized(raws[i], max)
    {
      if i >= |keep| {
        assert i == |keep| && raws[i] == unseen + FirstPiece(arrived);
      }
    }
  }

  lemma OversizedAfter(cut: Cut, unseen: string, arrived: Cut, max: nat)
    ensures var after := After(cut, unseen, arrived);
      && FirstPiece(Cut(after.lines[|cut.lines|..], after.rest)) == unseen + FirstPiece(arrived)
      && (forall i :: 0 <= i < |cut.lines| ==> after.lines[i] == cut.lines[i])
      && (!Fits(cut, max) && !Oversized(cut.rest, max) ==> !Fits(after, max))
      && (Oversized(unseen + FirstPiece(arrived), max) ==> !Fits(after, max))
  {
    var after := After(cut, unseen, arrived);
    if !Fits(cut, max) && !Oversized(cut.rest, max) {
      var i :| 0 <= i < |cut.lines| && Oversized(cut.lines[i], max);
      assert after.lines[i] == cut.lines[i];
    }
    assert arrived.lines != [] ==> after.lines[|cut.lines|] == unseen + FirstPiece(arrived);
  }

  function FirstPiece(cut: Cut): string {
    if cut.lines == [] then cut.rest else cut.lines[0]
  }

  lemma RetainedStaysFirst(buffer: string, chunk: string)
    requires '\n' !in buffer
    ensures buffer <= FirstPiece(CutAll(buffer + chunk))
  {
    CutPrefixed(buffer, chunk);
  }

  lemma {:induction false} FeedTracks(chunks: seq<string>, max: nat)
    ensures Tracks(Feed(chunks, max), Kept(chunks, max), CutAll(Whole(chunks)), max)
  {
    if chunks != [] {
      var before, chunk := chunks[..|chunks| - 1], chunks[|chunks| - 1];
      hide ByteLength, CutAll, RegexSplit, Tracks, Consume;
      FeedTracks(before, max);
      ConsumeTracks(Feed(before, max), Kept(before, max), Whole(before), chunk, max);
    }
  }

  lemma ConsumeTracks(st: Splitter, keep: seq<bool>, w: string, chunk: string, max: nat)
    requires Tracks(st, keep, CutAll(w), max)
    ensures Tracks(Consume(st, chunk, max), keep + Flags(|RegexSplit(st.buffer + chunk, "")| - 1, st.dropping),
                   CutAll(w + chunk), max)
  {
    hide CutAll, RegexSplit, ByteLength, Select, Flags, Justified, Bounded;
    var cut, arrived := CutAll(w), CutAll(st.buffer + chunk);
    RegexSplitIsCut(st.buffer + chunk, "");
    assert "" + (st.buffer + chunk) == st.buffer + chunk;
    var unseen := cut.rest[..|cut.rest| - |st.buffer|];
    RestHasNoLineFeed(w);
    CutAfter(w, unseen, st.buffer, chunk);
    RetainedStaysFirst(st.buffer, chunk);
    TracksStep(st, keep, cut, unseen, arrived, max);
    assert RegexSplit(st.buffer + chunk, "")[..|arrived.lines|] == Reported(arrived.lines);
  }

  /** For every way of cutting the stream: the lines reported are, in order, whole lines of
      the stream; a line whose size plus one fits the limit is always among them; and the
      retained buffer respects the limit after every chunk. */
  lemma ReportedLinesAreWholeLines(chunks: seq<string>, max: nat)
    ensures
      var lines := Reported(CutAll(Whole(chunks)).lines);
      && |Kept(chunks, max)| == |lines|
      && Feed(chunks, max).lines == Select(lines, Kept(chunks, max))
      && forall i :: 0 <= i < |lines| && ByteLength(lines[i]) + 1 <= max ==> Kept(chunks, max)[i]
    ensures ByteLength(Feed(chunks, max).buffer) <= max
  {
    FeedTracks(chunks, max);
    var raws := CutAll(Whole(chunks)).lines;
    forall i | 0 <= i < |raws| && ByteLength(Reported(raws)[i]) + 1 <= max
      ensures Kept(chunks, max)[i]
    {
      StrippedByteLength(raws[i]);
    }
  }

  lemma StrippedByteLength(raw: string)
    ensures ByteLength(raw) <= ByteLength(StripReturn(raw)) + 1
  {
  }

  /** Nothing is lost while the run is not flagged as truncated, however it was cut. */
  lemma UntruncatedReportsEverything(chunks: seq<string>, max: nat)
    requires !Feed(chunks, max).truncated
    ensures Close(Feed(chunks, max)) == WholeOutput(Whole(chunks))
  {
    hide ByteLength, CutAll, Feed, Kept, Whole;
    FeedTracks(chunks, max);
    SelectAll(Reported(CutAll(Whole(chunks)).lines), Kept(chunks, max));
  }

  /** Chunking does not matter exactly when every line, with its carriage return, and the
      unterminated rest fit the limit: then every cut reports the whole stream untruncated,
      and otherwise one cut in two chunks already truncates. */
  lemma ChunkingDoesNotMatterIffLinesFit(w: string, max: nat)
    ensures Fits(CutAll(w), max) <==> forall chunks :: Whole(chunks) == w ==> !Feed(chunks, max).truncated
    ensures Fits(CutAll(w), max) ==> forall chunks :: Whole(chunks) == w ==> Close(Feed(chunks, max)) == WholeOutput(w)
  {
    hide ByteLength, CutAll, Feed, Whole, Close, WholeOutput;
    forall chunks | Fits(CutAll(w), max) && Whole(chunks) == w
      ensures !Feed(chunks, max).truncated && Close(Feed(chunks, max)) == WholeOutput(w)
    {
      FeedTracks(chunks, max);
      UntruncatedReportsEverything(chunks, max);
    }
    if !Fits(CutAll(w), max) {
      var piece :| (piece == CutAll(w).rest || piece in CutAll(w).lines) && Oversized(piece, max);
      var at := PendingAt(w, piece);
      TwoChunks(w[..at], w[at..], max);
      assert w[..at] + w[at..] == w;
    }
  }

  lemma TwoChunks(a: string, b: string, max: nat)
    ensures Whole([a, b]) == a + b
    ensures Oversized(CutAll(a).rest, max) ==> Feed([a, b], max).truncated
  {
    assert [a, b][..1] == [a] && [a][..0] == [];
    assert Whole([a]) == "" + a == a;
    assert Feed([a], max) == Consume(INITIAL, "" + a, max);
    RegexSplitIsCut(a, "");
  }

  /** Where the stream can be cut so that a given piece is what is still pending. */
  lemma {:induction false} PendingAt(w: string, piece: string) returns (at: nat)
    requires piece == CutAll(w).rest || piece in CutAll(w).lines
    ensures at <= |w| && CutAll(w[..at]).rest == piece
  {
    if piece == CutAll(w).rest {
      at := |w|;
      assert w[..at] == w;
    } else {
      var init := w[..|w| - 1];
      at := PendingAt(init, piece);
      assert init[..at] == w[..at];
    }
  }

  // ------------------------------------------------------------ exactly what is reported

  /** The stream as it stands after the first `j` chunks. */
  function CutAt(chunks: seq<string>, j: nat): Cut
    requires j <= |chunks|
  {
    CutAll(Whole(chunks[..j]))
  }

  /** At the end of some chunk, line `i` is the pending one and what there is of it is over the
      limit. */
  ghost predicate Overflows(chunks: seq<string>, max: nat, i: nat) {
    exists j: nat :: j <= |chunks| && |CutAt(chunks, j).lines| == i && Oversized(CutAt(chunks, j).rest, max)
  }

  /** The lines are reported but those that overflowed, and what is left when the stream ends is
      reported, trimmed, unless it is over the limit or blank. */
  ghost predicate IsOutput(reported: seq<string>, keep: seq<bool>, chunks: seq<string>, max: nat) {
    var cut := CutAll(Whole(chunks));
    && |keep| == |cut.lines|
    && (forall i :: 0 <= i < |keep| ==> (keep[i] <==> !Overflows(chunks, max, i)))
    && reported == Select(Reported(cut.lines), keep)
                   + if Oversized(cut.rest, max) || !HasText(cut.rest) then [] else [Trim(cut.rest)]
  }

  lemma PendingGrows(a: string, b: string)
    ensures |CutAll(a).lines| <= |CutAll(a + b).lines|
    ensures |CutAll(a).lines| == |CutAll(a + b).lines| ==> CutAll(a).rest <= CutAll(a + b).rest
  {
    RestHasNoLineFeed(a);
    CutAllConcat(a, b);
    CutPrefixed(CutAll(a).rest, b);
    hide CutAll;
  }

  lemma {:induction false} LinesGrow(chunks: seq<string>, j: nat)
    requires j <= |chunks|
    ensures
      var earlier, now := CutAt(chunks, j), CutAll(Whole(chunks));
      |earlier.lines| <= |now.lines| && (|earlier.lines| == |now.lines| ==> earlier.rest <= now.rest)
  {
    hide CutAll;
    if j == |chunks| {
      assert chunks[..j] == chunks;
    } else {
      var init := chunks[..|chunks| - 1];
      assert init[..j] == chunks[..j];
      LinesGrow(init, j);
      PendingGrows(Whole(init), chunks[|chunks| - 1]);
    }
  }

  /** What is pending over the limit at an earlier end of a chunk still is, if the line has not
      ended since. */
  lemma OverflowsNow(chunks: seq<string>, max: nat)
    ensures Overflows(chunks, max, |CutAll(Whole(chunks)).lines|) <==> Oversized(CutAll(Whole(chunks)).rest, max)
  {
    hide CutAll, Whole, Oversized;
    var now := CutAll(Whole(chunks));
    assert chunks[..|chunks|] == chunks;
    assert CutAt(chunks, |chunks|) == now;
    if j: nat :| j <= |chunks| && |CutAt(chunks, j).lines| == |now.lines| && Oversized(CutAt(chunks, j).rest, max) {
      LinesGrow(chunks, j);
      var rest := CutAt(chunks, j).rest;
      OversizedExtends(rest, now.rest[|rest|..], max);
      assert rest + now.rest[|rest|..] == now.rest;
    }
  }

  /** A chunk adds no overflow but of the line that it leaves pending. */
  lemma OverflowsBefore(chunks: seq<string>, max: nat, i: nat)
    requires chunks != []
    ensures
      var before := chunks[..|chunks| - 1];
      Overflows(chunks, max, i) <==>
      Overflows(before, max, i) || (i == |CutAll(Whole(chunks)).lines| && Oversized(CutAll(Whole(chunks)).rest, max))
  {
    hide CutAll, Whole, Oversized;
    var before := chunks[..|chunks| - 1];
    assert chunks[..|chunks|] == chunks;
    assert forall j :: 0 <= j <= |before| ==> before[..j] == chunks[..j];
    assert forall j: nat :: j <= |before| ==> CutAt(before, j) == CutAt(chunks, j);
    assert CutAt(chunks, |chunks|) == CutAll(Whole(chunks));
    hide CutAt;
    if Overflows(before, max, i) {
      var j: nat :| j <= |before| && |CutAt(before, j).lines| == i && Oversized(CutAt(before, j).rest, max);
      assert Overflows(chunks, max, i);
    }
  }

  /** The splitter is dropping exactly when what is pending is over the limit. */
  lemma {:induction false} DroppingIff(chunks: seq<string>, max: nat)
    ensures Feed(chunks, max).dropping <==> Oversized(CutAll(Whole(chunks)).rest, max)
  {
    if chunks != [] {
      var before, chunk := chunks[..|chunks| - 1], chunks[|chunks| - 1];
      DroppingIff(before, max);
      FeedTracks(before, max);
      hide CutAll, RegexSplit, ByteLength, Kept;
      DroppingStep(Feed(before, max), Kept(before, max), Whole(before), chunk, max);
    }
  }

  lemma DroppingStep(st: Splitter, keep: seq<bool>, w: string, chunk: string, max: nat)
    requires Tracks(st, keep, CutAll(w), max) && (st.dropping <==> Oversized(CutAll(w).rest, max))
    ensures Consume(st, chunk, max).dropping <==> Oversized(CutAll(w + chunk).rest, max)
  {
    hide CutAll, RegexSplit, ByteLength, Select;
    var cut, arrived := CutAll(w), CutAll(st.buffer + chunk);
    RegexSplitIsCut(st.buffer + chunk, "");
    assert "" + (st.buffer + chunk) == st.buffer + chunk;
    var unseen := cut.rest[..|cut.rest| - |st.buffer|];
    RestHasNoLineFeed(w);
    CutAfter(w, unseen, st.buffer, chunk);
    RetainedStaysFirst(st.buffer, chunk);
    FirstPieceOversized(st.buffer, cut, unseen, arrived, max);
    hide Oversized;
    assert RegexSplit(st.buffer + chunk, "")[..|arrived.lines|] == Reported(arrived.lines);
    assert !st.dropping ==> unseen == "" && unseen + arrived.rest == arrived.rest;
  }

  /** A line is kept exactly unless it overflowed ... */
  lemma {:induction false} KeptIff(chunks: seq<string>, max: nat, i: nat)
    requires i < |CutAll(Whole(chunks)).lines|
    ensures |Kept(chunks, max)| == |CutAll(Whole(chunks)).lines|
    ensures Kept(chunks, max)[i] <==> !Overflows(chunks, max, i)
  {
    hide Oversized, Overflows, RegexSplit, CutAll, Tracks;
    KeptCount(chunks, max);
    CutNoLineFeed("");
    if chunks != [] {
      var before := chunks[..|chunks| - 1];
      KeptCount(before, max);
      OverflowsBefore(chunks, max, i);
      var n := |CutAll(Whole(before)).lines|;
      if i < n {
        KeptIff(before, max, i);
      } else {
        DroppingIff(before, max);
        OverflowsNow(before, max);
        if i > n {
          NoneOverflowsYet(before, max, i);
        }
      }
      hide Feed, Whole;
    }
  }

  lemma KeptCount(chunks: seq<string>, max: nat)
    ensures |Kept(chunks, max)| == |CutAll(Whole(chunks)).lines|
  {
    hide Kept, CutAll, Whole, Feed;
    FeedTracks(chunks, max);
  }

  lemma NoneOverflowsYet(chunks: seq<string>, max: nat, i: nat)
    requires i > |CutAll(Whole(chunks)).lines|
    ensures !Overflows(chunks, max, i)
  {
    hide CutAll, Whole, Oversized, CutAt;
    if j: nat :| j <= |chunks| && |CutAt(chunks, j).lines| == i && Oversized(CutAt(chunks, j).rest, max) {
      LinesGrow(chunks, j);
      assert false;
    }
  }

  /** ... and the run is flagged exactly when one did. */
  lemma {:induction false} TruncatedIff(chunks: seq<string>, max: nat)
    ensures Feed(chunks, max).truncated <==> exists i: nat :: Overflows(chunks, max, i)
  {
    hide Oversized, Overflows, RegexSplit, CutAll;
    if chunks == [] {
      forall i: nat
        ensures !Overflows(chunks, max, i)
      {
        NothingOverflows(max, i);
      }
    } else {
      var before := chunks[..|chunks| - 1];
      TruncatedIff(before, max);
      DroppingIff(chunks, max);
      DroppingIsTruncated(chunks, max);
      forall i: nat
        ensures Overflows(chunks, max, i) <==>
                Overflows(before, max, i)
                || (i == |CutAll(Whole(chunks)).lines| && Oversized(CutAll(Whole(chunks)).rest, max))
      {
        OverflowsBefore(chunks, max, i);
      }
      TruncatedStep(Feed(before, max), chunks[|chunks| - 1], max);
      OverflowsNow(chunks, max);
      hide Consume, Whole;
      assert Feed(chunks, max) == Consume(Feed(before, max), chunks[|chunks| - 1], max);
      hide Feed;
    }
  }

  lemma NothingOverflows(max: nat, i: nat)
    ensures !Overflows([], max, i)
  {
    assert forall j: nat :: j <= 0 ==> CutAt([], j) == CutAll("");
  }

  lemma TruncatedStep(st: Splitter, chunk: string, max: nat)
    ensures st.truncated ==> Consume(st, chunk, max).truncated
    ensures Consume(st, chunk, max).truncated && !st.truncated ==> Consume(st, chunk, max).dropping
  {
    hide RegexSplit, Oversized;
  }

  lemma DroppingIsTruncated(chunks: seq<string>, max: nat)
    ensures Feed(chunks, max).dropping ==> Feed(chunks, max).truncated
  {
    hide Feed, Kept, CutAll, Whole, Reports, Justified;
    FeedTracks(chunks, max);
  }

  /** For every stream and every way of cutting it, exactly this is reported. */
  lemma OutputIs(chunks: seq<string>, max: nat)
    ensures IsOutput(Close(Feed(chunks, max)), Kept(chunks, max), chunks, max)
  {
    hide Oversized, Overflows, CutAll, Whole, Feed, Kept, Trim, HasText;
    FeedTracks(chunks, max);
    DroppingIff(chunks, max);
    KeptCount(chunks, max);
    var cut := CutAll(Whole(chunks));
    forall i: nat | i < |cut.lines|
      ensures Kept(chunks, max)[i] <==> !Overflows(chunks, max, i)
    {
      KeptIff(chunks, max, i);
    }
    TrimmedToNothingIff(cut.rest);
  }

  // ------------------------------------------------------------ the splitter, as the source runs it

  /** The closure state of one child process; `reported` collects the calls of `onLine`. */
  class StdoutConsumer {
    const maxOutputBytes: nat
    var stdoutBuffer: string
    var droppingOversizedLine: bool
    var outputTruncated: bool
    var reported: seq<string>

    function State(): Splitter
      reads this
    {
      Splitter(stdoutBuffer, droppingOversizedLine, outputTruncated, reported)
    }

    constructor (maxOutputBytes: nat)
      ensures State() == INITIAL && this.maxOutputBytes == maxOutputBytes
    {
      this.maxOutputBytes := maxOutputBytes;
      stdoutBuffer, droppingOversizedLine, outputTruncated, reported := "", false, false, [];
    }

    method OnData(chunk: string)
      modifies this
      ensures State() == Consume(old(State()), chunk, maxOutputBytes)
    {
      stdoutBuffer := stdoutBuffer + chunk;
      var parts := RegexSplit(stdoutBuffer, "");
      var lines := parts[..|parts| - 1];
      stdoutBuffer := parts[|parts| - 1];
      var i := 0;
      while i < |lines|
        invariant 0 <= i <= |lines|
        invariant droppingOversizedLine == (old(droppingOversizedLine) && i == 0)
        invariant reported == old(reported) +
                              if old(droppingOversizedLine) && i > 0 then lines[1..i] else lines[..i]
        invariant stdoutBuffer == parts[|parts| - 1] && outputTruncated == old(outputTruncated)
      {
        if droppingOversizedLine {
          droppingOversizedLine := false;
        } else {
          reported := reported + [lines[i]];
        }
        i := i + 1;
      }
      assert lines[..|lines|] == lines;
      if ByteLength(stdoutBuffer) > maxOutputBytes {
        stdoutBuffer := "";
        droppingOversizedLine := true;
        outputTruncated := true;
      }
    }

    method OnClose()
      modifies this
      ensures reported == Close(old(State()))
      ensures stdoutBuffer == old(stdoutBuffer) && outputTruncated == old(outputTruncated)
      ensures droppingOversizedLine == old(droppingOversizedLine)
    {
      if !droppingOversizedLine && Trim(stdoutBuffer) != "" {
        reported := reported + [Trim(stdoutBuffer)];
      }
    }

    /** A whole process: every chunk in turn, then the close event. */
    method Run(chunks: seq<string>)
      requires State() == INITIAL
      modifies this
      ensures reported == Close(Feed(chunks, maxOutputBytes))
      ensures outputTruncated == Feed(chunks, maxOutputBytes).truncated
      ensures Fits(CutAll(Whole(chunks)), maxOutputBytes) ==>
                reported == WholeOutput(Whole(chunks)) && !outputTruncated
      ensures IsOutput(reported, Kept(chunks, maxOutputBytes), chunks, maxOutputBytes)
      ensures outputTruncated <==> exists i: nat :: Overflows(chunks, maxOutputBytes, i)
    {
      hide IsOutput, Overflows;
      var i := 0;
      while i < |chunks|
        invariant 0 <= i <= |chunks|
        invariant State() == Feed(chunks[..i], maxOutputBytes)
      {
        assert chunks[..i + 1][..i] == chunks[..i];
        OnData(chunks[i]);
        i := i + 1;
      }
      assert chunks[..i] == chunks;
      OnClose();
      OutputIs(chunks, maxOutputBytes);
      TruncatedIff(chunks, maxOutputBytes);
      ChunkingDoesNotMatterIffLinesFit(Whole(chunks), maxOutputBytes);
    }
  }
}
