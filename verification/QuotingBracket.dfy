/**
 Quoting a text as a Lua long bracket, and reading it back as section 3.1 of the Lua 5.2 Reference Manual
 prescribes. Texts are sequences of UTF-16 code units.
 */
module QuotingBracket {
  import opened Wrappers

  type CodeUnit = u: int | 0 <= u < 0x1_0000

  type Text = seq<CodeUnit>

  const LF: CodeUnit := 10
  const CR: CodeUnit := 13
  const EQUALS: CodeUnit := 0x3D
  const OPEN: CodeUnit := 0x5B
  const CLOSE: CodeUnit := 0x5D

  function Repeat(u: CodeUnit, n: nat): (t: Text)
    ensures |t| == n && forall i :: 0 <= i < n ==> t[i] == u
  {
    seq(n, i => u)
  }

  function Opening(level: nat): (t: Text)
    ensures |t| == level + 2
  {
    [OPEN] + Repeat(EQUALS, level) + [OPEN]
  }

  function Closing(level: nat): (t: Text)
    ensures |t| == level + 2 && t[0] == CLOSE && t[level + 1] == CLOSE
    ensures forall i :: 1 <= i <= level ==> t[i] == EQUALS
  {
    [CLOSE] + Repeat(EQUALS, level) + [CLOSE]
  }

  predicate StartsAt(s: Text, i: int, part: Text) {
    0 <= i && i + |part| <= |s| && s[i..i + |part|] == part
  }

  predicate Includes(s: Text, part: Text) {
    exists i :: 0 <= i <= |s| && StartsAt(s, i, part)
  }

  /** No closing bracket of the level in the text, nor one that its end and the next bracket would make. */
  predicate SafeLevel(text: Text, level: nat) {
    !Includes(text + [CLOSE], Closing(level))
  }

  function Wrap(text: Text, level: nat): (t: Text) {
    Opening(level) + text + Closing(level)
  }

  predicate LowestSafe(text: Text, level: nat) {
    && 1 <= level < 10 && SafeLevel(text, level)
    && forall lower: nat :: 1 <= lower < level ==> !SafeLevel(text, lower)
  }

  /** The lowest safe level from 1 to 9, or None where the source throws. */
  method BracketWrap(text: Text) returns (wrapped: Option<Text>)
    ensures wrapped.Some? ==> exists level: nat :: LowestSafe(text, level) && wrapped.value == Wrap(text, level)
    ensures wrapped.None? ==> forall level: nat :: 1 <= level < 10 ==> !SafeLevel(text, level)
  {
    var level: nat := 1;
    while level < 10
      invariant 1 <= level <= 10
      invariant forall lower: nat :: 1 <= lower < level ==> !SafeLevel(text, lower)
    {
      if SafeLevel(text, level) {
        assert LowestSafe(text, level);
        return Some(Wrap(text, level));
      }
      level := level + 1;
    }
    return None;
  }

  // ---------------------------------------------------------------- the reader

  predicate IsNewline(u: CodeUnit) {
    u == LF || u == CR
  }

  /** The length of the end-of-line sequence at the front: one unit, or two different ones. */
  function NewlineLength(s: Text): (n: nat)
    ensures n <= |s| && (n > 0 <==> s != [] && IsNewline(s[0]))
  {
    if s == [] || !IsNewline(s[0]) then 0
    else if |s| > 1 && IsNewline(s[1]) && s[1] != s[0] then 2
    else 1
  }

  datatype Read = Unfinished | Content(text: Text, rest: Text)

  /** The content up to the first closing bracket of the level, with every end of line made a newline. */
  function ReadContent(s: Text, level: nat): (r: Read)
    decreases |s|
  {
    if StartsAt(s, 0, Closing(level)) then Content([], s[level + 2..])
    else if s == [] then Unfinished
    else
      var n := NewlineLength(s);
      var tail := ReadContent(s[if n > 0 then n else 1..], level);
      if tail.Unfinished? then Unfinished else Content([if n > 0 then LF else s[0]] + tail.text, tail.rest)
  }

  /** The number of equals signs after the first bracket. */
  function LevelOf(s: Text): (level: nat)
    ensures level <= |s|
  {
    if s == [] || s[0] != EQUALS then 0 else 1 + LevelOf(s[1..])
  }

  /** A long bracket: its opening, an end of line that does not count, and its content. */
  function ReadLongBracket(s: Text): (r: Read) {
    if s == [] || s[0] != OPEN then Unfinished
    else
      var level := LevelOf(s[1..]);
      if !StartsAt(s, 0, Opening(level)) then Unfinished
      else
        var body := s[level + 2..];
        ReadContent(body[NewlineLength(body)..], level)
  }

  /** A text with every end of line made a newline. */
  function Converted(s: Text): (t: Text)
    ensures |t| <= |s| && CR !in t
    decreases |s|
  {
    if s == [] then []
    else
      var n := NewlineLength(s);
      [if n > 0 then LF else s[0]] + Converted(s[if n > 0 then n else 1..])
  }

  lemma {:induction false} ConvertedKeeps(s: Text)
    ensures Converted(s) == s <==> CR !in s
    decreases |s|
  {
    if s != [] && CR !in s {
      ConvertedKeeps(s[1..]);
      assert s == [s[0]] + s[1..];
    }
  }

  // ---------------------------------------------------------------- reading back

  /** Inside the text no closing bracket begins, even together with what follows. */
  lemma ClosesOnlyAtEnd(text: Text, level: nat, rest: Text, i: nat)
    requires level >= 1 && SafeLevel(text, level) && i < |text|
    ensures !StartsAt(text + Closing(level) + rest, i, Closing(level))
  {
    var s, closing := text + Closing(level) + rest, Closing(level);
    if i + |closing| <= |text| + 1 {
      assert s[i..i + |closing|] == (text + [CLOSE])[i..i + |closing|];
      assert !StartsAt(text + [CLOSE], i, closing);
    } else {
      var k := |text| - i;
      assert s[|text|] == CLOSE && closing[k] == EQUALS;
      assert i + |closing| <= |s| ==> s[i..i + |closing|][k] == CLOSE;
    }
  }

  /** Reading from inside the text goes on to its end. */
  lemma {:induction false} ContentReadsOn(text: Text, level: nat, rest: Text, k: nat)
    requires level >= 1 && SafeLevel(text, level) && k <= |text|
    ensures ReadContent((text + Closing(level) + rest)[k..], level) == Content(Converted(text[k..]), rest)
    decreases |text| - k
  {
    var s := text + Closing(level) + rest;
    var here := s[k..];
    if k == |text| {
      assert here[0..level + 2] == Closing(level) && here[level + 2..] == rest;
    } else {
      ClosesOnlyAtEnd(text, level, rest, k);
      assert s[k..k + level + 2] == here[0..level + 2];
      var n := NewlineLength(here);
      assert here[0] == text[k] && (k + 1 < |text| ==> here[1] == text[k + 1]);
      assert k + 1 == |text| ==> here[1] == CLOSE;
      assert n == NewlineLength(text[k..]);
      var step := if n > 0 then n else 1;
      ContentReadsOn(text, level, rest, k + step);
      assert here[step..] == s[k + step..] && text[k..][step..] == text[k + step..];
    }
  }

  /** Texts that come back as they are: no carriage return, and no newline in front. */
  predicate Clean(text: Text) {
    CR !in text && (text == [] || text[0] != LF)
  }

  lemma {:induction false} LevelOfRepeat(level: nat, tail: Text)
    requires tail != [] && tail[0] != EQUALS
    ensures LevelOf(Repeat(EQUALS, level) + tail) == level
  {
    var s := Repeat(EQUALS, level) + tail;
    if level > 0 {
      LevelOfRepeat(level - 1, tail);
      assert s[1..] == Repeat(EQUALS, level - 1) + tail;
    }
  }

  lemma OpeningReads(level: nat, body: Text)
    ensures var s := Opening(level) + body;
            LevelOf(s[1..]) == level && StartsAt(s, 0, Opening(level)) && s[level + 2..] == body
  {
    var s := Opening(level) + body;
    assert s[1..] == Repeat(EQUALS, level) + ([OPEN] + body);
    LevelOfRepeat(level, [OPEN] + body);
    assert s[0..level + 2] == Opening(level);
  }

  lemma LongBracketReads(level: nat, body: Text)
    ensures ReadLongBracket(Opening(level) + body) == ReadContent(body[NewlineLength(body)..], level)
  {
    OpeningReads(level, body);
  }

  lemma NewlineBefore(text: Text, level: nat, rest: Text)
    ensures NewlineLength(text + Closing(level) + rest) == NewlineLength(text)
  {
    var body := text + Closing(level) + rest;
    assert |body| > |text| && body[|text|] == CLOSE;
    assert forall i :: 0 <= i < |text| ==> body[i] == text[i];
  }

  /** What the reader makes of a wrapped text: a first end of line is gone and the others are newlines. */
  lemma WrappedReads(text: Text, level: nat, rest: Text)
    requires level >= 1 && SafeLevel(text, level)
    ensures ReadLongBracket(Wrap(text, level) + rest) == Content(Converted(text[NewlineLength(text)..]), rest)
  {
    var body := text + Closing(level) + rest;
    assert Wrap(text, level) + rest == Opening(level) + body;
    LongBracketReads(level, body);
    NewlineBefore(text, level, rest);
    ContentReadsOn(text, level, rest, NewlineLength(text));
  }

  /** The round trip: a wrapped text is read back as it was, with the rest left over, exactly if it is clean. */
  lemma BracketRoundTrip(text: Text, level: nat, rest: Text)
    requires level >= 1 && SafeLevel(text, level)
    ensures ReadLongBracket(Wrap(text, level) + rest) == Content(text, rest) <==> Clean(text)
  {
    WrappedReads(text, level, rest);
    var n := NewlineLength(text);
    if n == 0 {
      assert text[n..] == text;
      ConvertedKeeps(text);
    } else {
      assert |Converted(text[n..])| < |text|;
    }
  }
}
