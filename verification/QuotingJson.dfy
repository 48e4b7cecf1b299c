/**
 JSON made ASCII: a lexer that follows section 7 of RFC 8259 reads the same tokens, so every string keeps its
 value.
 */
module QuotingJson {
  import opened Wrappers
  import opened QuotingBracket

  const QUOTE: CodeUnit := 0x22
  const BACKSLASH: CodeUnit := 0x5C
  const LETTER_U: CodeUnit := 0x75
  const ZERO: CodeUnit := 0x30

  // ---------------------------------------------------------------- hexadecimal

  function HexDigit(d: nat): (u: CodeUnit)
    requires d < 16
  {
    if d < 10 then ZERO + d else 0x61 + (d - 10)
  }

  /** The value of a hexadecimal digit of either case. */
  function HexValue(u: CodeUnit): (d: Option<nat>)
    ensures d.Some? ==> d.value < 16
  {
    if ZERO <= u < ZERO + 10 then Some(u - ZERO)
    else if 0x61 <= u < 0x67 then Some(u - 0x61 + 10)
    else if 0x41 <= u < 0x47 then Some(u - 0x41 + 10)
    else None
  }

  /** The shortest hexadecimal text of a number. */
  function ToHex(n: nat): (t: Text)
    ensures t != []
  {
    if n < 16 then [HexDigit(n)] else ToHex(n / 16) + [HexDigit(n % 16)]
  }

  function PadStart(t: Text, width: nat): (r: Text) {
    if |t| >= width then t else Repeat(ZERO, width - |t|) + t
  }

  function ParseHex(t: Text): (n: Option<nat>) {
    if t == [] then Some(0)
    else
      var high, low := ParseHex(t[..|t| - 1]), HexValue(t[|t| - 1]);
      if high.Some? && low.Some? then Some(16 * high.value + low.value) else None
  }

  lemma {:induction false} HexReads(n: nat)
    ensures ParseHex(ToHex(n)) == Some(n)
    ensures n < 0x1_0000 ==> |ToHex(n)| <= 4
  {
    if n < 16 {
      assert ToHex(n)[..0] == [];
    } else {
      HexReads(n / 16);
      assert ToHex(n)[..|ToHex(n)| - 1] == ToHex(n / 16);
      HexLength(n);
    }
  }

  lemma HexLength(n: nat)
    ensures n < 0x1_0000 ==> |ToHex(n)| <= 4
  {
    if 16 <= n < 0x1_0000 {
      var a := n / 16;
      assert a < 0x1000 && a / 16 < 0x100 && a / 16 / 16 < 16;
      assert |ToHex(n)| == |ToHex(a)| + 1;
      assert a >= 16 ==> |ToHex(a)| == |ToHex(a / 16)| + 1;
    }
  }

  lemma {:induction false} PaddedReads(t: Text, k: nat)
    requires t != []
    ensures ParseHex(Repeat(ZERO, k) + t) == ParseHex(t)
  {
    var s := Repeat(ZERO, k) + t;
    assert s[..|s| - 1] == Repeat(ZERO, k) + t[..|t| - 1];
    if |t| == 1 {
      ZerosRead(k);
      assert s[..|s| - 1] == Repeat(ZERO, k) && t[..0] == [];
    } else {
      PaddedReads(t[..|t| - 1], k);
    }
  }

  lemma {:induction false} ZerosRead(k: nat)
    ensures ParseHex(Repeat(ZERO, k)) == Some(0)
  {
    if k > 0 {
      ZerosRead(k - 1);
      assert Repeat(ZERO, k)[..k - 1] == Repeat(ZERO, k - 1);
    }
  }

  // ---------------------------------------------------------------- escaping

  /** The escape of one code unit. */
  function Escape(u: CodeUnit): (t: Text)
    ensures |t| == 6 && t[0] == BACKSLASH && t[1] == LETTER_U && ParseHex(t[2..]) == Some(u)
  {
    HexReads(u);
    var hex := PadStart(ToHex(u), 4);
    PaddedReads(ToHex(u), 4 - |ToHex(u)|);
    var t := [BACKSLASH, LETTER_U] + hex;
    assert t[2..] == hex;
    t
  }

  function ToAsciiJson(json: Text): (ascii: Text) {
    if json == [] then []
    else (if json[0] >= 0x7F then Escape(json[0]) else [json[0]]) + ToAsciiJson(json[1..])
  }

  /** Nothing but ASCII comes out, and no end of line that was not there. */
  lemma {:induction false} AsciiOnly(json: Text)
    ensures forall i :: 0 <= i < |ToAsciiJson(json)| ==> ToAsciiJson(json)[i] < 0x7F
    ensures LF !in json && CR !in json ==> LF !in ToAsciiJson(json) && CR !in ToAsciiJson(json)
  {
    if json != [] {
      AsciiOnly(json[1..]);
      assert json == [json[0]] + json[1..];
      if json[0] >= 0x7F {
        EscapeIsPlain(json[0]);
      }
    }
  }

  lemma {:induction false} HexIsPlain(n: nat)
    ensures forall i :: 0 <= i < |ToHex(n)| ==> 0x20 <= ToHex(n)[i] < 0x7F
  {
    if n >= 16 { HexIsPlain(n / 16); }
  }

  lemma EscapeIsPlain(u: CodeUnit)
    ensures forall i :: 0 <= i < 6 ==> 0x20 <= Escape(u)[i] < 0x7F
  {
    HexIsPlain(u);
    HexReads(u);
    assert Escape(u) == [BACKSLASH, LETTER_U] + (Repeat(ZERO, 4 - |ToHex(u)|) + ToHex(u));
  }

  // ---------------------------------------------------------------- the lexer

  datatype Token = Other(u: CodeUnit) | StringToken(value: Text)

  datatype StringRead = NoString | StringRead(value: Text, rest: Text)

  /** The escapes of one letter. */
  function SimpleEscape(u: CodeUnit): (r: Option<CodeUnit>)
    ensures r.Some? ==> u < 0x7F
  {
    if u == QUOTE || u == BACKSLASH || u == 0x2F then Some(u)
    else if u == 0x62 then Some(8)
    else if u == 0x66 then Some(12)
    else if u == 0x6E then Some(10)
    else if u == 0x72 then Some(13)
    else if u == 0x74 then Some(9)
    else None
  }

  function Prepend(u: CodeUnit, r: StringRead): (x: StringRead) {
    if r.NoString? then NoString else StringRead([u] + r.value, r.rest)
  }

  predicate IsUnicodeEscape(s: Text) {
    && |s| >= 6 && s[0] == BACKSLASH && s[1] == LETTER_U
    && ParseHex(s[2..6]).Some? && ParseHex(s[2..6]).value < 0x1_0000
  }

  /** The characters of a string up to its closing quotation mark. */
  function LexString(s: Text): (r: StringRead)
    ensures r.StringRead? ==> |r.rest| < |s|
    decreases |s|
  {
    if s == [] then NoString
    else if s[0] == QUOTE then StringRead([], s[1..])
    else if s[0] == BACKSLASH then
      if IsUnicodeEscape(s) then Prepend(ParseHex(s[2..6]).value, LexString(s[6..]))
      else if |s| >= 2 && SimpleEscape(s[1]).Some? then Prepend(SimpleEscape(s[1]).value, LexString(s[2..]))
      else NoString
    else if s[0] < 0x20 then NoString
    else Prepend(s[0], LexString(s[1..]))
  }

  /** The strings of a JSON text and the characters between them, which are all ASCII. */
  function Lex(s: Text): (r: Option<seq<Token>>)
    decreases |s|
  {
    if s == [] then Some([])
    else if s[0] == QUOTE then
      var read := LexString(s[1..]);
      if read.NoString? then None
      else
        var tail := Lex(read.rest);
        if tail.None? then None else Some([StringToken(read.value)] + tail.value)
    else if s[0] >= 0x7F then None
    else
      var tail := Lex(s[1..]);
      if tail.None? then None else Some([Other(s[0])] + tail.value)
  }

  /** An ASCII beginning is left as it is. */
  lemma {:induction false} AsciiPrefixStays(s: Text, k: nat)
    requires k <= |s| && forall i :: 0 <= i < k ==> s[i] < 0x7F
    ensures |ToAsciiJson(s)| >= k && ToAsciiJson(s)[..k] == s[..k] && ToAsciiJson(s)[k..] == ToAsciiJson(s[k..])
  {
    if k == 0 {
      assert s[0..] == s;
    } else {
      AsciiPrefixStays(s[1..], k - 1);
      assert ToAsciiJson(s) == [s[0]] + ToAsciiJson(s[1..]);
      assert s[1..][k - 1..] == s[k..] && s[..k] == [s[0]] + s[1..][..k - 1];
    }
  }

  lemma {:induction false} HexIsAscii(t: Text)
    requires ParseHex(t).Some?
    ensures forall i :: 0 <= i < |t| ==> t[i] < 0x7F
  {
    if t != [] {
      HexIsAscii(t[..|t| - 1]);
      assert t == t[..|t| - 1] + [t[|t| - 1]];
    }
  }

  lemma EscapeLexes(u: CodeUnit, tail: Text)
    ensures LexString(Escape(u) + tail) == Prepend(u, LexString(tail))
  {
    var s := Escape(u) + tail;
    assert s[2..6] == Escape(u)[2..] && s[6..] == tail;
  }

  /** A unicode escape, which is ASCII, stays as it is. */
  lemma UnicodeEscapeStays(s: Text)
    requires IsUnicodeEscape(s)
    ensures var t := ToAsciiJson(s);
            IsUnicodeEscape(t) && ParseHex(t[2..6]) == ParseHex(s[2..6]) && t[6..] == ToAsciiJson(s[6..])
  {
    HexIsAscii(s[2..6]);
    assert forall i :: 2 <= i < 6 ==> s[i] == s[2..6][i - 2];
    AsciiPrefixStays(s, 6);
    var t := ToAsciiJson(s);
    assert forall i :: 0 <= i < 6 ==> t[i] == t[..6][i] == s[..6][i] == s[i];
    assert t[2..6] == s[2..6];
  }

  /** So does an escape of one letter. */
  lemma SimpleEscapeStays(s: Text)
    requires |s| >= 2 && s[0] == BACKSLASH && SimpleEscape(s[1]).Some?
    ensures var t := ToAsciiJson(s);
            |t| >= 2 && t[0] == s[0] && t[1] == s[1] && t[2..] == ToAsciiJson(s[2..])
  {
    AsciiPrefixStays(s, 2);
    var t := ToAsciiJson(s);
    assert forall i :: 0 <= i < 2 ==> t[i] == t[..2][i] == s[..2][i] == s[i];
  }

  /** A string reads the same after the escaping. */
  lemma {:induction false} StringStays(s: Text)
    requires LexString(s).StringRead?
    ensures LexString(ToAsciiJson(s)) == StringRead(LexString(s).value, ToAsciiJson(LexString(s).rest))
    decreases |s|
  {
    if IsUnicodeEscape(s) {
      UnicodeEscapeStays(s);
      StringStays(s[6..]);
    } else if s[0] == BACKSLASH {
      SimpleEscapeStays(s);
      assert SimpleEscape(LETTER_U).None?;
      StringStays(s[2..]);
    } else if s[0] >= 0x7F {
      StringStays(s[1..]);
      EscapeLexes(s[0], ToAsciiJson(s[1..]));
    } else {
      AsciiPrefixStays(s, 1);
      assert ToAsciiJson(s)[0] == ToAsciiJson(s)[..1][0] == s[0];
      if s[0] != QUOTE { StringStays(s[1..]); }
    }
  }

  /** The ASCII text has the same tokens: every string of the JSON text keeps its value. */
  lemma {:induction false} AsciiMeansTheSame(json: Text)
    requires Lex(json).Some?
    ensures Lex(ToAsciiJson(json)) == Lex(json)
    decreases |json|
  {
    if json != [] {
      AsciiPrefixStays(json, 1);
      assert ToAsciiJson(json)[0] == ToAsciiJson(json)[..1][0] == json[0];
      if json[0] == QUOTE {
        StringStays(json[1..]);
        AsciiMeansTheSame(LexString(json[1..]).rest);
      } else {
        AsciiMeansTheSame(json[1..]);
      }
    }
  }
}
