/** Bounding and escaping of untrusted text. */
module Escaping {
  import opened Text

  datatype Bounded = Bounded(value: string, truncated: bool)

  /** Cuts text to a limit and says so with a marker. */
  function TruncateText(value: string, maxChars: nat, marker: string): (b: Bounded)
    ensures |b.value| <= maxChars
    ensures b.truncated <==> |value| > maxChars
    ensures !b.truncated ==> b.value == value
  {
    if |value| <= maxChars then Bounded(value, false)
    else if maxChars <= |marker| + 1 then Bounded(Take(marker, maxChars), true)
    else Bounded(TrimEnd(value[..maxChars - |marker| - 1]) + "\n" + marker, true)
  }

  /** What a text comes to in a room: itself if it fits; otherwise its beginning, without spaces
      at the end, and the marker on a line of its own; and where there is no room for more than
      the marker, the beginning of the marker. */
  ghost predicate FillsRoom(shown: string, text: string, room: nat, marker: string) {
    if |text| <= room then shown == text
    else if room <= |marker| + 1 then shown == marker[..if room < |marker| then room else |marker|]
    else
      var front := text[..room - |marker| - 1];
      exists n: nat :: n <= |front| && shown == front[..n] + "\n" + marker
        && (n > 0 ==> !IsSpace(front[n - 1])) && forall i :: n <= i < |front| ==> IsSpace(front[i])
  }

  lemma TruncationFillsRoom(text: string, room: nat, marker: string)
    ensures FillsRoom(TruncateText(text, room, marker).value, text, room, marker)
  {
    hide IsSpace;
    if |text| > room > |marker| + 1 {
      var front := text[..room - |marker| - 1];
      var kept := TrimEnd(front);
      assert kept == front[..|kept|];
    }
  }

  /** Nothing else fills the room. */
  lemma FillsRoomOnlyOnce(a: string, b: string, text: string, room: nat, marker: string)
    requires FillsRoom(a, text, room, marker) && FillsRoom(b, text, room, marker)
    ensures a == b
  {
    hide IsSpace;
    if |text| > room > |marker| + 1 {
      var front := text[..room - |marker| - 1];
      var m: nat :| m <= |front| && a == front[..m] + "\n" + marker
        && (m > 0 ==> !IsSpace(front[m - 1])) && forall i :: m <= i < |front| ==> IsSpace(front[i]);
      var n: nat :| n <= |front| && b == front[..n] + "\n" + marker
        && (n > 0 ==> !IsSpace(front[n - 1])) && forall i :: n <= i < |front| ==> IsSpace(front[i]);
      assert m == n;
    }
  }

  /** `slice(0, n)`. */
  function Take(s: string, n: nat): string {
    if n <= |s| then s[..n] else s
  }

  function ReplaceAll(s: string, c: char, entity: string): string {
    if s == "" then "" else (if s[0] == c then entity else [s[0]]) + ReplaceAll(s[1..], c, entity)
  }

  function EscapeXml(value: string): string {
    ReplaceAll(ReplaceAll(ReplaceAll(ReplaceAll(ReplaceAll(value,
      '&', "&amp;"), '<', "&lt;"), '>', "&gt;"), '"', "&quot;"), '\'', "&apos;")
  }

  // ------------------------------------------------------------ escaping, character by character

  /** The predefined entity of a character (section 4.6 of XML 1.0). */
  function Entity(c: char): string {
    match c
    case '&' => "&amp;"
    case '<' => "&lt;"
    case '>' => "&gt;"
    case '"' => "&quot;"
    case '\'' => "&apos;"
    case _ => [c]
  }

  predicate Special(c: char) {
    c == '&' || c == '<' || c == '>' || c == '"' || c == '\''
  }

  function EscapeEach(s: string): string {
    if s == "" then "" else Entity(s[0]) + EscapeEach(s[1..])
  }

  /** Reads predefined entities back. */
  function Unescape(s: string): string {
    if s == "" then ""
    else if "&amp;" <= s then ['&'] + Unescape(s[5..])
    else if "&lt;" <= s then ['<'] + Unescape(s[4..])
    else if "&gt;" <= s then ['>'] + Unescape(s[4..])
    else if "&quot;" <= s then ['"'] + Unescape(s[6..])
    else if "&apos;" <= s then ['\''] + Unescape(s[6..])
    else [s[0]] + Unescape(s[1..])
  }

  lemma {:induction false} ReplaceAllConcat(a: string, b: string, c: char, entity: string)
    ensures ReplaceAll(a + b, c, entity) == ReplaceAll(a, c, entity) + ReplaceAll(b, c, entity)
  {
    if a == "" {
      assert a + b == b;
    } else {
      var head := if a[0] == c then entity else [a[0]];
      var rest := a[1..] + b;
      assert a + b == [a[0]] + rest;
      assert ReplaceAll([a[0]] + rest, c, entity) == head + ReplaceAll(rest, c, entity);
      ReplaceAllConcat(a[1..], b, c, entity);
      hide ReplaceAll;
      assert head + (ReplaceAll(a[1..], c, entity) + ReplaceAll(b, c, entity)) ==
             head + ReplaceAll(a[1..], c, entity) + ReplaceAll(b, c, entity);
    }
  }

  lemma {:induction false} ReplaceAllAbsent(s: string, c: char, entity: string)
    requires c !in s
    ensures ReplaceAll(s, c, entity) == s
  {
    if s != "" {
      assert s[0] in s;
      ReplaceAllAbsent(s[1..], c, entity);
    }
  }

  lemma EscapeXmlConcat(a: string, b: string)
    ensures EscapeXml(a + b) == EscapeXml(a) + EscapeXml(b)
  {
    ReplaceAllConcat(a, b, '&', "&amp;");
    var a1, b1 := ReplaceAll(a, '&', "&amp;"), ReplaceAll(b, '&', "&amp;");
    ReplaceAllConcat(a1, b1, '<', "&lt;");
    var a2, b2 := ReplaceAll(a1, '<', "&lt;"), ReplaceAll(b1, '<', "&lt;");
    ReplaceAllConcat(a2, b2, '>', "&gt;");
    var a3, b3 := ReplaceAll(a2, '>', "&gt;"), ReplaceAll(b2, '>', "&gt;");
    ReplaceAllConcat(a3, b3, '"', "&quot;");
    var a4, b4 := ReplaceAll(a3, '"', "&quot;"), ReplaceAll(b3, '"', "&quot;");
    ReplaceAllConcat(a4, b4, '\'', "&apos;");
  }

  lemma ReplaceOne(x: char, c: char, entity: string)
    ensures ReplaceAll([x], c, entity) == if x == c then entity else [x]
  {
    assert [x][1..] == "";
  }

  /** Later passes leave the entities that earlier passes wrote alone. */
  lemma EscapeXmlOne(x: char)
    ensures EscapeXml([x]) == Entity(x)
  {
    ReplaceOne(x, '&', "&amp;");
    ReplaceOne(x, '<', "&lt;");
    ReplaceOne(x, '>', "&gt;");
    ReplaceOne(x, '"', "&quot;");
    ReplaceOne(x, '\'', "&apos;");
    hide ReplaceAll;
    if Special(x) {
      var e := Entity(x);
      assert '<' !in e && '>' !in e && '"' !in e && '\'' !in e;
      ReplaceAllAbsent(e, '<', "&lt;");
      ReplaceAllAbsent(e, '>', "&gt;");
      ReplaceAllAbsent(e, '"', "&quot;");
      ReplaceAllAbsent(e, '\'', "&apos;");
    }
  }

  /** The five passes are one character-wise map. */
  lemma {:induction false} EscapeXmlIsCharacterwise(s: string)
    ensures EscapeXml(s) == EscapeEach(s)
  {
    if s != "" {
      assert s == [s[0]] + s[1..];
      hide EscapeXml;
      EscapeXmlConcat([s[0]], s[1..]);
      EscapeXmlOne(s[0]);
      EscapeXmlIsCharacterwise(s[1..]);
    }
  }

  lemma UnescapeEntity(c: char, rest: string)
    ensures Unescape(Entity(c) + rest) == [c] + Unescape(rest)
  {
    var s := Entity(c) + rest;
    assert s[|Entity(c)|..] == rest;
    if Special(c) {
      assert Entity(c) <= s;
      assert c != '&' ==> s[1] != 'a' || s[2] != 'm';
    } else {
      assert s[0] == c && s[1..] == rest;
    }
  }

  /** Escaping loses nothing: reading the entities back returns the text. */
  lemma {:induction false} UnescapeInverts(s: string)
    ensures Unescape(EscapeXml(s)) == s
  {
    EscapeXmlIsCharacterwise(s);
    if s != "" {
      UnescapeInverts(s[1..]);
      EscapeXmlIsCharacterwise(s[1..]);
      UnescapeEntity(s[0], EscapeEach(s[1..]));
    }
  }

  predicate Markup(c: char) {
    c == '<' || c == '>' || c == '"' || c == '\''
  }

  lemma EntityShape(c: char)
    ensures 1 <= |Entity(c)| <= 6
    ensures forall i :: 0 <= i < |Entity(c)| ==> !Markup(Entity(c)[i])
    ensures !Special(c) ==> Entity(c) == [c]
  {
  }

  /** Escaped text holds no markup character, is no shorter than the text it stands for, and
      at most six times as long. */
  lemma {:induction false} EscapedShape(s: string)
    ensures forall i :: 0 <= i < |EscapeXml(s)| ==> !Markup(EscapeXml(s)[i])
    ensures |s| <= |EscapeXml(s)| <= 6 * |s|
  {
    hide EscapeXml;
    EscapeXmlIsCharacterwise(s);
    if s != "" {
      EscapedShape(s[1..]);
      EscapeXmlIsCharacterwise(s[1..]);
      EntityShape(s[0]);
      hide Entity;
    }
  }

  predicate Plain(s: string) {
    forall i :: 0 <= i < |s| ==> !Special(s[i])
  }

  lemma {:induction false} PlainIsUnchanged(s: string)
    requires Plain(s)
    ensures EscapeXml(s) == s
  {
    hide EscapeXml;
    EscapeXmlIsCharacterwise(s);
    if s != "" {
      PlainIsUnchanged(s[1..]);
      EscapeXmlIsCharacterwise(s[1..]);
    }
  }

  lemma TruncatedStaysPlain(value: string, maxChars: nat, marker: string)
    requires Plain(value) && Plain(marker)
    ensures Plain(TruncateText(value, maxChars, marker).value)
  {
  }
}
