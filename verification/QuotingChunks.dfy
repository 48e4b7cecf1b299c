/**
 A configuration too long for one command: cut into chunks, each chunk quoted and read back on its own.
 */
module QuotingChunks {
  import opened Wrappers
  import opened QuotingBracket
  import opened QuotingJson

  function Chunks(size: nat, data: Text): (chunks: seq<Text>)
    requires size > 0
    decreases |data|
  {
    if |data| <= size then (if data == [] then [] else [data])
    else [data[..size]] + Chunks(size, data[size..])
  }

  /** The chunks from position i on. */
  function ChunksFrom(size: nat, data: Text, i: nat): (chunks: seq<Text>)
    requires size > 0
  {
    if i < |data| then Chunks(size, data[i..]) else []
  }

  function EndOf(size: nat, data: Text, i: nat): (end: nat)
    requires i <= |data|
    ensures i <= end <= |data|
  {
    if i + size <= |data| then i + size else |data|
  }

  lemma ChunkTaken(size: nat, data: Text, i: nat, done: seq<Text>)
    requires size > 0 && i < |data|
    ensures done + ChunksFrom(size, data, i) ==
            done + [data[i..EndOf(size, data, i)]] + ChunksFrom(size, data, i + size)
  {
    ChunkAt(size, data, i);
  }

  lemma ChunkAt(size: nat, data: Text, i: nat)
    requires size > 0 && i < |data|
    ensures ChunksFrom(size, data, i) == [data[i..EndOf(size, data, i)]] + ChunksFrom(size, data, i + size)
  {
    var rest := data[i..];
    if |rest| <= size {
      assert rest == data[i..|data|];
    } else {
      assert rest[..size] == data[i..i + size] && rest[size..] == data[i + size..];
    }
  }

  method Chunkify(size: nat, data: Text) returns (chunks: seq<Text>)
    requires size > 0
    ensures chunks == Chunks(size, data)
  {
    chunks := [];
    var i := 0;
    assert data[0..] == data;
    while i < |data|
      invariant 0 <= i && chunks + ChunksFrom(size, data, i) == Chunks(size, data)
      decreases |data| - i
    {
      ChunkTaken(size, data, i, chunks);
      chunks := chunks + [data[i..EndOf(size, data, i)]];
      i := i + size;
    }
  }

  function Concat(parts: seq<Text>): (t: Text) {
    if parts == [] then [] else parts[0] + Concat(parts[1..])
  }

  /** The chunks put together are the data; none is empty or too long, and only the last may be shorter. */
  lemma {:induction false} ChunksPartition(size: nat, data: Text)
    requires size > 0
    ensures var chunks := Chunks(size, data);
            && Concat(chunks) == data
            && (forall i :: 0 <= i < |chunks| ==> 0 < |chunks[i]| <= size)
            && (forall i :: 0 <= i < |chunks| - 1 ==> |chunks[i]| == size)
    decreases |data|
  {
    var chunks := Chunks(size, data);
    if |data| > size {
      ChunksPartition(size, data[size..]);
      assert chunks[1..] == Chunks(size, data[size..]);
      assert data == data[..size] + data[size..];
      assert forall i :: 1 <= i < |chunks| ==> chunks[i] == chunks[1..][i - 1];
    } else if data != [] {
      assert chunks[1..] == [];
    }
  }

  // ---------------------------------------------------------------- quoting every chunk

  predicate HasSafeLevel(text: Text) {
    exists level: nat :: 1 <= level < 10 && SafeLevel(text, level)
  }

  predicate AllHaveSafeLevel(parts: seq<Text>) {
    forall i :: 0 <= i < |parts| ==> HasSafeLevel(parts[i])
  }

  ghost predicate IsQuoted(text: Text, quoted: Text) {
    exists level: nat :: LowestSafe(text, level) && quoted == Wrap(text, level)
  }

  ghost predicate AllQuoted(parts: seq<Text>, quoted: seq<Text>) {
    |quoted| == |parts| && forall i :: 0 <= i < |parts| ==> IsQuoted(parts[i], quoted[i])
  }

  /** Every part in brackets of its own lowest level; None, where the source throws, exactly if one part has none. */
  method QuoteAll(parts: seq<Text>) returns (quoted: Option<seq<Text>>)
    ensures quoted.Some? <==> AllHaveSafeLevel(parts)
    ensures quoted.Some? ==> AllQuoted(parts, quoted.value)
  {
    var done := [];
    var i := 0;
    while i < |parts|
      invariant 0 <= i <= |parts| && |done| == i
      invariant forall k :: 0 <= k < i ==> HasSafeLevel(parts[k]) && IsQuoted(parts[k], done[k])
    {
      var wrapped := BracketWrap(parts[i]);
      if wrapped.None? {
        assert !HasSafeLevel(parts[i]);
        return None;
      }
      done := done + [wrapped.value];
      i := i + 1;
    }
    return Some(done);
  }

  predicate EndsHalfClosed(text: Text, level: nat) {
    |text| > level && text[|text| - level - 1..] == [CLOSE] + Repeat(EQUALS, level)
  }

  lemma HalfClosing(level: nat)
    ensures Closing(level)[..level + 1] == [CLOSE] + Repeat(EQUALS, level)
    ensures Closing(level) == ([CLOSE] + Repeat(EQUALS, level)) + [CLOSE]
  {
  }

  lemma LastWithBracket(part: Text, k: nat)
    requires k <= |part|
    ensures (part + [CLOSE])[k..|part| + 1] == part[k..] + [CLOSE]
  {
  }

  lemma HalfClosedIsUnsafe(part: Text, level: nat)
    requires EndsHalfClosed(part, level)
    ensures !SafeLevel(part, level)
  {
    var k := |part| - level - 1;
    HalfClosing(level);
    LastWithBracket(part, k);
    assert StartsAt(part + [CLOSE], k, Closing(level));
  }

  /** A closing bracket that only the part with a bracket includes begins at its end. */
  lemma NewClosing(part: Text, level: nat, k: nat)
    requires StartsAt(part + [CLOSE], k, Closing(level)) && k + level + 2 > |part|
    ensures EndsHalfClosed(part, level)
  {
    HalfClosing(level);
    assert part[k..] == (part + [CLOSE])[k..k + level + 2][..level + 1];
  }

  lemma SliceOfPart(text: Text, i: nat, j: nat, k: nat, n: nat)
    requires i <= j <= |text| && k + n <= j - i
    ensures (text[i..j] + [CLOSE])[k..k + n] == (text + [CLOSE])[i + k..i + k + n]
  {
    var a, b := (text[i..j] + [CLOSE])[k..k + n], (text + [CLOSE])[i + k..i + k + n];
    forall x | 0 <= x < n ensures a[x] == b[x] {
      assert a[x] == text[i..j][k + x] && b[x] == text[i + k + x];
    }
  }

  /** A level that is safe for the whole is safe for a part, unless the part ends just before a last bracket. */
  lemma PartInheritsLevel(text: Text, i: nat, j: nat, level: nat)
    requires i <= j <= |text| && SafeLevel(text, level)
    ensures SafeLevel(text[i..j], level) <==> !EndsHalfClosed(text[i..j], level)
  {
    var part, closing := text[i..j], Closing(level);
    if EndsHalfClosed(part, level) {
      HalfClosedIsUnsafe(part, level);
    } else if !SafeLevel(part, level) {
      var k :| 0 <= k <= |part + [CLOSE]| && StartsAt(part + [CLOSE], k, closing);
      if k + |closing| <= |part| {
        SliceOfPart(text, i, j, k, |closing|);
        assert StartsAt(text + [CLOSE], i + k, closing);
      } else {
        NewClosing(part, level, k);
      }
    }
  }

  // ---------------------------------------------------------------- reading every chunk back

  /** The reader finds the text in the brackets, whatever follows them. */
  ghost predicate ReadsAs(quoted: Text, text: Text) {
    forall rest :: ReadLongBracket(quoted + rest) == Content(text, rest)
  }

  ghost predicate AllReadAs(quoted: seq<Text>, arrived: seq<Text>) {
    |arrived| == |quoted| && forall i :: 0 <= i < |quoted| ==> ReadsAs(quoted[i], arrived[i])
  }

  /** What arrives for a text that is wrapped at a safe level. */
  function Arrives(text: Text): (t: Text)
    ensures |t| <= |text|
  {
    Converted(text[NewlineLength(text)..])
  }

  lemma WrappedArrives(text: Text, level: nat, rest: Text)
    requires level >= 1 && SafeLevel(text, level)
    ensures ReadLongBracket(Wrap(text, level) + rest) == Content(Arrives(text), rest)
  {
    WrappedReads(text, level, rest);
  }

  lemma QuotedReads(text: Text, quoted: Text)
    requires IsQuoted(text, quoted)
    ensures ReadsAs(quoted, Arrives(text))
  {
    var level: nat :| LowestSafe(text, level) && quoted == Wrap(text, level);
    forall rest ensures ReadLongBracket(quoted + rest) == Content(Arrives(text), rest) {
      WrappedArrives(text, level, rest);
    }
  }

  lemma ReadsAsOne(quoted: Text, a: Text, b: Text)
    requires ReadsAs(quoted, a) && ReadsAs(quoted, b)
    ensures a == b
  {
    assert ReadLongBracket(quoted + []) == Content(a, []);
  }

  /** The quoted parts are read as exactly one sequence of texts. */
  lemma AllQuotedRead(parts: seq<Text>, quoted: seq<Text>, arrived: seq<Text>)
    requires AllQuoted(parts, quoted)
    ensures AllReadAs(quoted, arrived) <==> arrived == ArriveAll(parts)
  {
    forall i | 0 <= i < |parts| ensures ReadsAs(quoted[i], Arrives(parts[i])) {
      QuotedReads(parts[i], quoted[i]);
    }
    if AllReadAs(quoted, arrived) {
      forall i | 0 <= i < |parts| ensures arrived[i] == ArriveAll(parts)[i] {
        ReadsAsOne(quoted[i], arrived[i], Arrives(parts[i]));
      }
    }
  }

  lemma ArrivesIff(text: Text)
    ensures Arrives(text) == text <==> Clean(text)
  {
    var n := NewlineLength(text);
    if n == 0 {
      assert text[n..] == text;
      ConvertedKeeps(text);
    }
  }

  function ArriveAll(parts: seq<Text>): (r: seq<Text>)
    ensures |r| == |parts|
  {
    seq(|parts|, i requires 0 <= i < |parts| => Arrives(parts[i]))
  }

  lemma {:induction false} ArrivedAtMost(parts: seq<Text>)
    ensures |Concat(ArriveAll(parts))| <= |Concat(parts)|
  {
    if parts != [] {
      ArrivedAtMost(parts[1..]);
      assert ArriveAll(parts)[1..] == ArriveAll(parts[1..]);
    }
  }

  lemma {:induction false} ArrivedIff(parts: seq<Text>)
    ensures Concat(ArriveAll(parts)) == Concat(parts) <==> forall i :: 0 <= i < |parts| ==> Clean(parts[i])
  {
    if parts != [] {
      var first, rest := parts[0], parts[1..];
      var all, arrived := Concat(parts), Concat(ArriveAll(parts));
      ArrivedIff(rest);
      ArrivedAtMost(rest);
      ArrivesIff(first);
      assert ArriveAll(parts)[1..] == ArriveAll(rest);
      assert forall i :: 1 <= i < |parts| ==> parts[i] == rest[i - 1];
      assert all == first + Concat(rest) && arrived == Arrives(first) + Concat(ArriveAll(rest));
      if all == arrived {
        assert |Arrives(first)| == |first|;
        assert first == all[..|first|] && Arrives(first) == arrived[..|first|];
        assert Concat(rest) == all[|first|..] && Concat(ArriveAll(rest)) == arrived[|first|..];
      }
    }
  }

  /** What is read back from the quoted parts makes up the whole exactly if every part is clean. */
  lemma AllArriveIff(parts: seq<Text>, quoted: seq<Text>, arrived: seq<Text>)
    requires AllQuoted(parts, quoted) && AllReadAs(quoted, arrived)
    ensures Concat(arrived) == Concat(parts) <==> forall i :: 0 <= i < |parts| ==> Clean(parts[i])
  {
    AllQuotedRead(parts, quoted, arrived);
    ArrivedIff(parts);
  }

  lemma {:induction false} PartsHave(parts: seq<Text>, u: CodeUnit)
    requires u !in Concat(parts)
    ensures forall i :: 0 <= i < |parts| ==> u !in parts[i]
  {
    if parts != [] {
      PartsHave(parts[1..], u);
      assert Concat(parts) == parts[0] + Concat(parts[1..]);
      assert forall i :: 1 <= i < |parts| ==> parts[i] == parts[1..][i - 1];
    }
  }

  /**
   Cut into chunks, each quoted on its own, and read back by the long-bracket reader, JSON without line ends
   arrives as its ASCII form and means the same.
   */
  lemma ConfigArrives(json: Text, size: nat, quoted: seq<Text>, arrived: seq<Text>)
    requires size > 0 && LF !in json && CR !in json && Lex(json).Some?
    requires AllQuoted(Chunks(size, ToAsciiJson(json)), quoted) && AllReadAs(quoted, arrived)
    ensures Concat(arrived) == ToAsciiJson(json) && Lex(Concat(arrived)) == Lex(json)
  {
    var ascii := ToAsciiJson(json);
    var chunks := Chunks(size, ascii);
    AsciiOnly(json);
    ChunksPartition(size, ascii);
    PartsHave(chunks, LF);
    PartsHave(chunks, CR);
    forall i | 0 <= i < |chunks| ensures Clean(chunks[i]) {
      assert chunks[i][0] in chunks[i];
    }
    AllArriveIff(chunks, quoted, arrived);
    AsciiMeansTheSame(json);
  }

  // ---------------------------------------------------------------- pushing a configuration

  const GATEWAY_CONFIG_SINGLE_LIMIT := 7000
  const GATEWAY_CONFIG_CHUNK_SIZE := 40_000
  const SEPARATOR: Text := [0x2C, 0x20]

  /** What is sent: nothing, as quoting throws, or one script with the whole, or one script for each chunk. */
  datatype Push = Throws | Single(quoted: Text) | Chunked(pieces: seq<Text>)

  /** The second argument of the script, with its comma; nothing when there is none. */
  ghost predicate IsArgument(active: Option<Text>, argument: Text) {
    match active
    case None => argument == []
    case Some(json) => exists quoted :: IsQuoted(ToAsciiJson(json), quoted) && argument == SEPARATOR + quoted
  }

  /** The script with the whole configuration is short enough; `script` counts what is around its arguments. */
  ghost predicate FitsSingle(json: Text, active: Option<Text>, script: nat) {
    exists quoted, argument :: IsQuoted(ToAsciiJson(json), quoted) && IsArgument(active, argument)
      && FitsScript(quoted, argument, script)
  }

  predicate FitsScript(quoted: Text, argument: Text, script: nat) {
    script + |quoted| + |argument| <= GATEWAY_CONFIG_SINGLE_LIMIT
  }

  /** Both arguments are quoted whole, whatever is sent; then each chunk, unless the whole fits in one script. */
  ghost predicate CanPush(json: Text, active: Option<Text>, script: nat) {
    && (active.Some? ==> HasSafeLevel(ToAsciiJson(active.value)))
    && HasSafeLevel(ToAsciiJson(json))
    && (FitsSingle(json, active, script)
        || AllHaveSafeLevel(Chunks(GATEWAY_CONFIG_CHUNK_SIZE, ToAsciiJson(json))))
  }

  lemma QuotedIsUnique(text: Text, a: Text, b: Text)
    requires IsQuoted(text, a) && IsQuoted(text, b)
    ensures a == b
  {
    var l: nat :| LowestSafe(text, l) && a == Wrap(text, l);
    var m: nat :| LowestSafe(text, m) && b == Wrap(text, m);
    assert l == m;
  }

  lemma ArgumentIsUnique(active: Option<Text>, a: Text, b: Text)
    requires IsArgument(active, a) && IsArgument(active, b)
    ensures a == b
  {
    if active.Some? {
      var p :| IsQuoted(ToAsciiJson(active.value), p) && a == SEPARATOR + p;
      var q :| IsQuoted(ToAsciiJson(active.value), q) && b == SEPARATOR + q;
      QuotedIsUnique(ToAsciiJson(active.value), p, q);
    }
  }

  lemma FitsIff(json: Text, active: Option<Text>, script: nat, quoted: Text, argument: Text)
    requires IsQuoted(ToAsciiJson(json), quoted) && IsArgument(active, argument)
    ensures FitsSingle(json, active, script) <==> FitsScript(quoted, argument, script)
  {
    if p, q :| IsQuoted(ToAsciiJson(json), p) && IsArgument(active, q) && FitsScript(p, q, script) {
      QuotedIsUnique(ToAsciiJson(json), p, quoted);
      ArgumentIsUnique(active, q, argument);
    }
  }

  /** One text in brackets; None, where the source throws, exactly if it has no safe level. */
  method Quote(text: Text) returns (quoted: Option<Text>)
    ensures quoted.Some? <==> HasSafeLevel(text)
    ensures quoted.Some? ==> IsQuoted(text, quoted.value)
  {
    quoted := BracketWrap(text);
    if quoted.None? { assert !HasSafeLevel(text); }
  }

  method QuoteArgument(active: Option<Text>) returns (argument: Option<Text>)
    ensures argument.Some? <==> (active.Some? ==> HasSafeLevel(ToAsciiJson(active.value)))
    ensures argument.Some? ==> IsArgument(active, argument.value)
  {
    if active.None? { return Some([]); }
    var quoted := Quote(ToAsciiJson(active.value));
    if quoted.None? { return None; }
    return Some(SEPARATOR + quoted.value);
  }

  /** What the game reads of the push. */
  ghost predicate Arrived(push: Push, arrived: seq<Text>) {
    match push
    case Throws => false
    case Single(quoted) => AllReadAs([quoted], arrived)
    case Chunked(pieces) => AllReadAs(pieces, arrived)
  }

  /** With the whole and the argument in brackets the script has up to 7000 code units, or 40000 go at a time. */
  ghost predicate SentAs(push: Push, json: Text, active: Option<Text>, script: nat, whole: Text, argument: Text) {
    && IsQuoted(ToAsciiJson(json), whole) && IsArgument(active, argument)
    && if script + |whole| + |argument| <= 7000 then push == Single(whole)
       else push.Chunked? && AllQuoted(Chunks(40_000, ToAsciiJson(json)), push.pieces)
  }

  /**
   The push as it runs. It throws exactly if the active list or the whole configuration has no safe level, or the
   whole does not fit in one script and some chunk has none. Otherwise what the game reads, from the one script
   when it fits and from the chunks when not, makes up the ASCII form of the configuration, with the same tokens.
   */
  method PushConfig(json: Text, active: Option<Text>, script: nat) returns (push: Push)
    requires LF !in json && CR !in json && Lex(json).Some?
    ensures push.Throws? <==> !CanPush(json, active, script)
    ensures !push.Throws? ==> (push.Single? <==> FitsSingle(json, active, script))
    ensures !push.Throws? ==> exists whole, argument :: SentAs(push, json, active, script, whole, argument)
    ensures !push.Throws? ==> exists arrived :: Arrived(push, arrived)
    ensures forall arrived :: Arrived(push, arrived) ==>
              Concat(arrived) == ToAsciiJson(json) && Lex(Concat(arrived)) == Lex(json)
  {
    var ascii := ToAsciiJson(json);
    var argument := QuoteArgument(active);
    if argument.None? { return Throws; }
    var whole := Quote(ascii);
    if whole.None? { return Throws; }
    FitsIff(json, active, script, whole.value, argument.value);
    if FitsScript(whole.value, argument.value, script) {
      SingleArrives(json, whole.value);
      assert SentAs(Single(whole.value), json, active, script, whole.value, argument.value);
      return Single(whole.value);
    }
    var chunks := Chunkify(GATEWAY_CONFIG_CHUNK_SIZE, ascii);
    var quoted := QuoteAll(chunks);
    if quoted.None? { return Throws; }
    ChunkedArrives(json, GATEWAY_CONFIG_CHUNK_SIZE, quoted.value);
    assert SentAs(Chunked(quoted.value), json, active, script, whole.value, argument.value);
    return Chunked(quoted.value);
  }

  lemma ChunkedArrives(json: Text, size: nat, quoted: seq<Text>)
    requires size > 0 && LF !in json && CR !in json && Lex(json).Some?
    requires AllQuoted(Chunks(size, ToAsciiJson(json)), quoted)
    ensures exists arrived :: Arrived(Chunked(quoted), arrived)
    ensures forall arrived :: Arrived(Chunked(quoted), arrived) ==>
              Concat(arrived) == ToAsciiJson(json) && Lex(Concat(arrived)) == Lex(json)
  {
    var all := ArriveAll(Chunks(size, ToAsciiJson(json)));
    AllQuotedRead(Chunks(size, ToAsciiJson(json)), quoted, all);
    assert Arrived(Chunked(quoted), all);
    forall arrived | Arrived(Chunked(quoted), arrived)
      ensures Concat(arrived) == ToAsciiJson(json) && Lex(Concat(arrived)) == Lex(json)
    {
      ConfigArrives(json, size, quoted, arrived);
    }
  }

  /** The whole is the one chunk of a size that takes it all. */
  lemma SingleArrives(json: Text, quoted: Text)
    requires LF !in json && CR !in json && Lex(json).Some? && IsQuoted(ToAsciiJson(json), quoted)
    ensures exists arrived :: Arrived(Single(quoted), arrived)
    ensures forall arrived :: Arrived(Single(quoted), arrived) ==>
              Concat(arrived) == ToAsciiJson(json) && Lex(Concat(arrived)) == Lex(json)
  {
    var ascii := ToAsciiJson(json);
    AsciiOnly(json);
    AsciiMeansTheSame(json);
    assert Clean(ascii) by { assert ascii != [] ==> ascii[0] in ascii; }
    AllQuotedRead([ascii], [quoted], ArriveAll([ascii]));
    assert Arrived(Single(quoted), ArriveAll([ascii]));
    forall arrived | Arrived(Single(quoted), arrived) ensures Concat(arrived) == ascii {
      AllArriveIff([ascii], [quoted], arrived);
      assert Concat([ascii]) == ascii;
    }
  }
}
