/** Text primitives shared by the prompt builder and the output splitter.
    A string is a sequence of characters; `length` in the source is its length here. */
module Text {

  /** The white space that `trim`, `trimStart` and `trimEnd` remove. */
  predicate IsSpace(c: char) {
    c == ' ' || '\t' <= c <= '\r' || c == '\U{00A0}' || c == '\U{1680}' || '\U{2000}' <= c <= '\U{200A}' ||
    c == '\U{2028}' || c == '\U{2029}' || c == '\U{202F}' || c == '\U{205F}' || c == '\U{3000}' || c == '\U{FEFF}'
  }

  function TrimEnd(s: string): (r: string)
    ensures r <= s
    ensures r == "" || !IsSpace(r[|r| - 1])
    ensures forall i :: |r| <= i < |s| ==> IsSpace(s[i])
  {
    if s != "" && IsSpace(s[|s| - 1]) then TrimEnd(s[..|s| - 1]) else s
  }

  function TrimStart(s: string): (r: string)
    ensures |r| <= |s| && r == s[|s| - |r|..]
    ensures r == "" || !IsSpace(r[0])
    ensures forall i :: 0 <= i < |s| - |r| ==> IsSpace(s[i])
  {
    hide IsSpace;
    if s != "" && IsSpace(s[0]) then TrimStart(s[1..]) else s
  }

  function Trim(s: string): string {
    TrimStart(TrimEnd(s))
  }

  /** What stands between the spaces at either end of a text. */
  ghost predicate IsTrimmed(t: string, s: string) {
    exists lo: nat :: IsTrimmedAt(t, s, lo)
  }

  ghost predicate IsTrimmedAt(t: string, s: string, lo: nat) {
    && lo + |t| <= |s| && t == s[lo..lo + |t|]
    && (forall i :: 0 <= i < lo || lo + |t| <= i < |s| ==> IsSpace(s[i]))
    && (t != "" ==> !IsSpace(t[0]) && !IsSpace(t[|t| - 1]))
  }

  lemma TrimIs(s: string)
    ensures IsTrimmed(Trim(s), s)
  {
    hide IsSpace;
    var front := TrimEnd(s);
    var r := TrimStart(front);
    hide TrimEnd, TrimStart;
    var lo := |front| - |r|;
    assert r == s[lo..lo + |r|];
    assert forall i :: 0 <= i < lo ==> s[i] == front[i];
    hide IsTrimmed;
    assert IsTrimmedAt(r, s, lo);
    TrimmedAt(r, s, lo);
  }

  lemma TrimmedAt(t: string, s: string, lo: nat)
    requires IsTrimmedAt(t, s, lo)
    ensures IsTrimmed(t, s)
  {
    hide IsTrimmedAt;
  }

  /** The text has a character that is not a space. */
  ghost predicate HasText(s: string) {
    exists c :: c in s && !IsSpace(c)
  }

  /** Nothing is left of a text exactly when it has no such character. */
  lemma TrimmedToNothingIff(s: string)
    ensures Trim(s) == "" <==> !HasText(s)
  {
    hide IsSpace, Trim;
    TrimIs(s);
    var lo: nat :| IsTrimmedAt(Trim(s), s, lo);
    if Trim(s) != "" {
      assert s[lo] in s;
    }
  }

  /** Bytes of one character in UTF-8 (section 3 of RFC 3629). */
  function Utf8Width(c: char): (n: nat)
    ensures 1 <= n <= 4
  {
    if c < '\U{80}' then 1 else if c < '\U{800}' then 2 else if c < '\U{10000}' then 3 else 4
  }

  function ByteLength(s: string): nat {
    if s == "" then 0 else ByteLength(s[..|s| - 1]) + Utf8Width(s[|s| - 1])
  }

  lemma {:induction false} ByteLengthConcat(a: string, b: string)
    ensures ByteLength(a + b) == ByteLength(a) + ByteLength(b)
  {
    if b == "" {
      assert a + b == a;
    } else {
      ByteLengthConcat(a, b[..|b| - 1]);
      assert (a + b)[..|a + b| - 1] == a + b[..|b| - 1];
    }
  }

  /** A character of ASCII is one byte. */
  lemma {:induction false} AsciiByteLength(s: string)
    requires forall i :: 0 <= i < |s| ==> s[i] < '\U{80}'
    ensures ByteLength(s) == |s|
  {
    if s != "" {
      AsciiByteLength(s[..|s| - 1]);
    }
  }
}
