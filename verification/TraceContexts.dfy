/**
 * The W3C `traceparent` header, printed and parsed (crates/domain/src/tracer.rs).
 *
 * A header is the sequence of its UTF-8 bytes. Lengths and slices count bytes, and slicing inside a
 * character panics, as it does there.
 */
module TraceContexts {
  import opened Entities

  type Byte = n: int | 0 <= n < 256

  const DASH: Byte := 45
  const PLUS: Byte := 43
  const ZERO: Byte := 48

  // ------------------------------------------------------------------------------------------
  // Hex
  // ------------------------------------------------------------------------------------------

  function Digit(n: int): (b: Byte)
    requires 0 <= n < 16
    ensures DigitValue(b) == Some(n) && IsHexDigit(b) && !IsUppercase(b) && b < 128 && b != DASH && b != PLUS
  {
    if n < 10 then 48 + n else 87 + n
  }

  /** Digits of either case. */
  function DigitValue(b: Byte): (v: Option<int>)
    ensures v.Some? ==> 0 <= v.value < 16
  {
    if 48 <= b <= 57 then Some(b - 48)
    else if 97 <= b <= 102 then Some(b - 87)
    else if 65 <= b <= 70 then Some(b - 55)
    else None
  }

  /** Which characters are which digits; only the lowercase ones are printed. */
  lemma DigitsAre(n: nat, b: Byte)
    requires n < 16
    ensures Digit(n) as int == "0123456789abcdef"[n] as int
    ensures DigitValue(b) == Some(n) <==> b as int == "0123456789abcdef"[n] as int || b as int == "0123456789ABCDEF"[n] as int
  {
  }

  /** The characters that matter to the format. */
  lemma SignsAre()
    ensures DASH as int == '-' as int && PLUS as int == '+' as int && ZERO as int == '0' as int
  {
  }

  predicate IsHexDigit(b: Byte) {
    DigitValue(b).Some?
  }

  predicate IsUppercase(b: Byte) {
    65 <= b <= 90
  }

  predicate IsContinuation(b: Byte) {
    128 <= b < 192
  }

  function Hex(bytes: seq<Byte>): seq<Byte> {
    seq(2 * |bytes|, i requires 0 <= i < 2 * |bytes| => Digit(if i % 2 == 0 then bytes[i / 2] / 16 else bytes[i / 2] % 16))
  }

  method EncodeHex(bytes: seq<Byte>) returns (s: seq<Byte>)
    ensures s == Hex(bytes)
  {
    s := [];
    for i := 0 to |bytes|
      invariant s == Hex(bytes[..i])
    {
      s := s + [Digit(bytes[i] / 16), Digit(bytes[i] % 16)];
    }
    assert bytes[..|bytes|] == bytes;
  }

  /** `u8::from_str_radix(.., 16)` on two bytes: a leading plus sign is allowed, a minus sign is not. */
  function RadixPair(a: Byte, b: Byte): Option<Byte> {
    if a == PLUS then DigitValue(b)
    else if DigitValue(a).Some? && DigitValue(b).Some? then Some(16 * DigitValue(a).value + DigitValue(b).value)
    else None
  }

  datatype Decoded = Bytes(bytes: seq<Byte>) | Malformed | Panicked

  /** The character boundary at `i` is not one: a slice that starts or ends there panics. */
  predicate InsideCharacter(s: seq<Byte>, i: nat) {
    i < |s| && IsContinuation(s[i])
  }

  /** The first pair that does not parse settles it. */
  function DecodeFrom(s: seq<Byte>, i: nat, got: seq<Byte>): Decoded
    requires |s| % 2 == 0 && 2 * i <= |s|
    decreases |s| - 2 * i
  {
    if 2 * i == |s| then Bytes(got)
    else if InsideCharacter(s, 2 * i) || InsideCharacter(s, 2 * i + 2) then Panicked
    else
      match RadixPair(s[2 * i], s[2 * i + 1])
      case None => Malformed
      case Some(b) => DecodeFrom(s, i + 1, got + [b])
  }

  function Decode(s: seq<Byte>, n: nat): Decoded {
    if |s| != 2 * n then Malformed else DecodeFrom(s, 0, [])
  }

  /** Fills `out`, which is as long as the id. What it wrote before a failure stays. */
  method DecodeHex(s: seq<Byte>, out: array<Byte>) returns (r: Decoded)
    modifies out
    ensures r == Decode(s, out.Length)
    ensures r.Bytes? ==> out[..] == r.bytes
  {
    if |s| != out.Length * 2 {
      return Malformed;
    }
    for i := 0 to out.Length
      invariant Decode(s, out.Length) == DecodeFrom(s, i, out[..i])
    {
      if InsideCharacter(s, 2 * i) || InsideCharacter(s, 2 * i + 2) {
        return Panicked;
      }
      var b := RadixPair(s[2 * i], s[2 * i + 1]);
      if b.None? {
        return Malformed;
      }
      out[i] := b.value;
      assert out[..i + 1] == out[..i] + [b.value];
    }
    assert out[..out.Length] == out[..];
    r := Bytes(out[..]);
  }

  /** Each pair parses to its byte, and no slice cuts a character. */
  ghost predicate Spells(s: seq<Byte>, bytes: seq<Byte>) {
    && |s| == 2 * |bytes|
    && forall i :: 0 <= i < |bytes| ==> PairSpells(s, i, bytes[i])
  }

  ghost predicate PairSpells(s: seq<Byte>, i: nat, b: Byte) {
    && 2 * i + 1 < |s|
    && !InsideCharacter(s, 2 * i) && !InsideCharacter(s, 2 * i + 2)
    && RadixPair(s[2 * i], s[2 * i + 1]) == Some(b)
  }

  lemma {:induction false} DecodeFromSpells(s: seq<Byte>, i: nat, got: seq<Byte>, bytes: seq<Byte>)
    requires |s| % 2 == 0 && 2 * i <= |s| && |got| == i
    requires forall k :: 0 <= k < i ==> PairSpells(s, k, got[k])
    ensures DecodeFrom(s, i, got) == Bytes(bytes) <==> got <= bytes && Spells(s, bytes)
    decreases |s| - 2 * i
  {
    if 2 * i < |s| {
      if InsideCharacter(s, 2 * i) || InsideCharacter(s, 2 * i + 2) || RadixPair(s[2 * i], s[2 * i + 1]).None? {
        assert Spells(s, bytes) ==> PairSpells(s, i, bytes[i]);
      } else {
        var b := RadixPair(s[2 * i], s[2 * i + 1]).value;
        var got' := got + [b];
        assert PairSpells(s, i, b);
        DecodeFromSpells(s, i + 1, got', bytes);
        if got <= bytes && Spells(s, bytes) {
          assert PairSpells(s, i, bytes[i]);
          assert got' <= bytes;
        }
        if got' <= bytes { assert got == bytes[..i]; }
      }
    } else if got <= bytes && Spells(s, bytes) {
      assert got == bytes;
    }
  }

  lemma DecodeIffSpells(s: seq<Byte>, n: nat, bytes: seq<Byte>)
    ensures Decode(s, n) == Bytes(bytes) <==> |bytes| == n && Spells(s, bytes)
  {
    if |s| == 2 * n { DecodeFromSpells(s, 0, [], bytes); }
  }

  /** The slice of pair `i` cuts a character, and every pair before it parses. */
  ghost predicate PanicsAt(s: seq<Byte>, i: nat) {
    && 2 * i + 1 < |s|
    && (InsideCharacter(s, 2 * i) || InsideCharacter(s, 2 * i + 2))
    && forall k :: 0 <= k < i ==> PairParses(s, k)
  }

  ghost predicate PairParses(s: seq<Byte>, k: nat) {
    exists b :: PairSpells(s, k, b)
  }

  lemma {:induction false} DecodeFromPanics(s: seq<Byte>, i: nat, got: seq<Byte>)
    requires |s| % 2 == 0 && 2 * i <= |s|
    requires forall k :: 0 <= k < i ==> PairParses(s, k)
    ensures DecodeFrom(s, i, got).Panicked? <==> exists j: nat :: PanicsAt(s, j)
    decreases |s| - 2 * i
  {
    if 2 * i < |s| && !InsideCharacter(s, 2 * i) && !InsideCharacter(s, 2 * i + 2) && RadixPair(s[2 * i], s[2 * i + 1]).Some? {
      var b := RadixPair(s[2 * i], s[2 * i + 1]).value;
      assert PairSpells(s, i, b) && PairParses(s, i);
      DecodeFromPanics(s, i + 1, got + [b]);
    } else if j: nat :| PanicsAt(s, j) {
      assert j < i ==> PairParses(s, j);
      assert j > i ==> PairParses(s, i);
    } else if 2 * i < |s| && (InsideCharacter(s, 2 * i) || InsideCharacter(s, 2 * i + 2)) {
      assert PanicsAt(s, i);
    }
  }

  /** Decoding panics exactly when a slice cuts a character before any pair has failed to parse. */
  lemma DecodePanicsIff(s: seq<Byte>, n: nat)
    ensures Decode(s, n).Panicked? <==> |s| == 2 * n && exists i: nat :: PanicsAt(s, i)
  {
    if |s| == 2 * n { DecodeFromPanics(s, 0, []); }
  }

  lemma HexSpells(bytes: seq<Byte>)
    ensures Spells(Hex(bytes), bytes)
  {
    forall i | 0 <= i < |bytes|
      ensures PairSpells(Hex(bytes), i, bytes[i])
    {
      var s := Hex(bytes);
      assert s[2 * i] == Digit(bytes[i] / 16) && s[2 * i + 1] == Digit(bytes[i] % 16);
      assert 2 * i + 2 < |s| ==> s[2 * i + 2] == Digit(bytes[i + 1] / 16);
    }
  }

  /** Lowercase text without a plus sign that spells these bytes is their hex. */
  lemma SpelledIsHex(s: seq<Byte>, bytes: seq<Byte>)
    requires Spells(s, bytes) && PLUS !in s && forall i :: 0 <= i < |s| ==> !IsUppercase(s[i])
    ensures s == Hex(bytes)
  {
    forall k | 0 <= k < |s|
      ensures s[k] == Hex(bytes)[k]
    {
      var i := k / 2;
      assert PairSpells(s, i, bytes[i]);
      assert k == 2 * i || k == 2 * i + 1;
      PairIsHex(s[2 * i], s[2 * i + 1], bytes[i]);
    }
  }

  lemma PairIsHex(a: Byte, b: Byte, v: Byte)
    requires RadixPair(a, b) == Some(v) && a != PLUS && !IsUppercase(a) && !IsUppercase(b)
    ensures a == Digit(v / 16) && b == Digit(v % 16)
  {
    assert v / 16 == DigitValue(a).value && v % 16 == DigitValue(b).value;
  }

  // ------------------------------------------------------------------------------------------
  // The header
  // ------------------------------------------------------------------------------------------

  /** The stretches between dashes. */
  function Split(s: seq<Byte>): (parts: seq<seq<Byte>>)
    ensures |parts| > 0
  {
    if s == [] then [[]]
    else
      var rest := Split(s[1..]);
      if s[0] == DASH then [[]] + rest else [[s[0]] + rest[0]] + rest[1..]
  }

  lemma {:induction false} SplitAt(a: seq<Byte>, rest: seq<Byte>)
    requires DASH !in a
    ensures Split(a + [DASH] + rest) == [a] + Split(rest)
  {
    var s := a + [DASH] + rest;
    if a == [] {
      assert s[1..] == rest;
    } else {
      assert s[1..] == a[1..] + [DASH] + rest;
      SplitAt(a[1..], rest);
      assert [a[0]] + a[1..] == a;
    }
  }

  lemma {:induction false} SplitOne(a: seq<Byte>)
    requires DASH !in a
    ensures Split(a) == [a]
  {
    if a != [] {
      SplitOne(a[1..]);
      assert [a[0]] + a[1..] == a;
    }
  }

  function Join(parts: seq<seq<Byte>>): seq<Byte>
    requires |parts| > 0
  {
    if |parts| == 1 then parts[0] else parts[0] + [DASH] + Join(parts[1..])
  }

  lemma {:induction false} JoinSplit(s: seq<Byte>)
    ensures Join(Split(s)) == s
    ensures forall i :: 0 <= i < |Split(s)| ==> DASH !in Split(s)[i]
  {
    if s != [] {
      var rest := Split(s[1..]);
      JoinSplit(s[1..]);
      if s[0] == DASH {
        assert ([[]] + rest)[1..] == rest;
      } else {
        var parts := [[s[0]] + rest[0]] + rest[1..];
        assert parts[1..] == rest[1..];
        assert Join(parts) == [s[0]] + Join(rest);
      }
    }
  }

  datatype TraceContext = TraceContext(traceId: seq<Byte>, spanId: seq<Byte>, parentSpanId: Option<seq<Byte>>)

  datatype Parsed = Ids(traceId: seq<Byte>, spanId: seq<Byte>) | InvalidFormat | Panic

  predicate IsZero(id: seq<Byte>) {
    forall i :: 0 <= i < |id| ==> id[i] == 0
  }

  lemma ZeroIs(id: seq<Byte>)
    ensures IsZero(id) <==> id == seq(|id|, _ => 0)
  {
    if !IsZero(id) {
      var i :| 0 <= i < |id| && id[i] != 0;
      assert seq(|id|, _ => 0)[i] == 0;
    }
  }

  predicate AllHexDigits(s: seq<Byte>) {
    forall i :: 0 <= i < |s| ==> IsHexDigit(s[i])
  }

  predicate NoUppercase(s: seq<Byte>) {
    forall i :: 0 <= i < |s| ==> !IsUppercase(s[i])
  }

  /** The header with the given ids and flags, in version 00. */
  function Header(traceId: seq<Byte>, spanId: seq<Byte>, flags: seq<Byte>): seq<Byte> {
    Fields(Hex(traceId), Hex(spanId), flags)
  }

  function Fields(traceHex: seq<Byte>, spanHex: seq<Byte>, flags: seq<Byte>): seq<Byte> {
    [ZERO, ZERO] + [DASH] + (traceHex + [DASH] + (spanHex + [DASH] + flags))
  }

  function ToTraceparent(c: TraceContext): seq<Byte> {
    Header(c.traceId, c.spanId, [ZERO, 49])
  }

  function ParseTraceparent(s: seq<Byte>): Parsed {
    var parts := Split(s);
    if |parts| != 4 then InvalidFormat
    else
      var (version, traceHex, spanHex, flags) := (parts[0], parts[1], parts[2], parts[3]);
      if |version| != 2 || |flags| != 2 then InvalidFormat
      else if !AllHexDigits(version) || !AllHexDigits(flags) then InvalidFormat
      else if version != [ZERO, ZERO] then InvalidFormat
      else if !NoUppercase(traceHex) || !NoUppercase(spanHex) || !NoUppercase(flags) then InvalidFormat
      else
        match Decode(traceHex, 16)
        case Panicked => Panic
        case Malformed => InvalidFormat
        case Bytes(traceId) =>
          if IsZero(traceId) then InvalidFormat
          else
            match Decode(spanHex, 8)
            case Panicked => Panic
            case Malformed => InvalidFormat
            case Bytes(spanId) => if IsZero(spanId) then InvalidFormat else Ids(traceId, spanId)
  }

  /** The new local span id is drawn at random. */
  function FromInbound(s: seq<Byte>, drawn: seq<Byte>): Result<TraceContext, Parsed> {
    match ParseTraceparent(s)
    case Ids(traceId, spanId) => Ok(TraceContext(traceId, drawn, Some(spanId)))
    case refused => Err(refused)
  }

  predicate ValidIds(traceId: seq<Byte>, spanId: seq<Byte>) {
    |traceId| == 16 && |spanId| == 8 && !IsZero(traceId) && !IsZero(spanId)
  }

  predicate ValidFlags(flags: seq<Byte>) {
    |flags| == 2 && AllHexDigits(flags) && NoUppercase(flags)
  }

  lemma HexIsPlain(bytes: seq<Byte>)
    ensures DASH !in Hex(bytes) && PLUS !in Hex(bytes) && NoUppercase(Hex(bytes))
  {
  }

  lemma FieldsSplit(traceHex: seq<Byte>, spanHex: seq<Byte>, flags: seq<Byte>)
    requires DASH !in traceHex && DASH !in spanHex && DASH !in flags
    ensures Split(Fields(traceHex, spanHex, flags)) == [[ZERO, ZERO], traceHex, spanHex, flags]
  {
    SplitAt([ZERO, ZERO], traceHex + [DASH] + (spanHex + [DASH] + flags));
    SplitAt(traceHex, spanHex + [DASH] + flags);
    SplitAt(spanHex, flags);
    SplitOne(flags);
  }

  /** The fields of a header that gets as far as its ids. */
  ghost predicate WellShaped(h: seq<Byte>, traceHex: seq<Byte>, spanHex: seq<Byte>, flags: seq<Byte>) {
    && h == Fields(traceHex, spanHex, flags)
    && ValidFlags(flags) && DASH !in traceHex && DASH !in spanHex && NoUppercase(traceHex) && NoUppercase(spanHex)
  }

  /** The fields of an accepted header: exactly what is accepted, and as which ids. */
  lemma AcceptedIff(h: seq<Byte>, traceId: seq<Byte>, spanId: seq<Byte>)
    ensures ParseTraceparent(h) == Ids(traceId, spanId) <==>
      exists traceHex, spanHex, flags ::
        && WellShaped(h, traceHex, spanHex, flags)
        && Spells(traceHex, traceId) && Spells(spanHex, spanId) && ValidIds(traceId, spanId)
  {
    if traceHex, spanHex, flags :|
        && WellShaped(h, traceHex, spanHex, flags)
        && Spells(traceHex, traceId) && Spells(spanHex, spanId) && ValidIds(traceId, spanId) {
      FieldsSplit(traceHex, spanHex, flags);
      DecodeIffSpells(traceHex, 16, traceId);
      DecodeIffSpells(spanHex, 8, spanId);
    }
    if ParseTraceparent(h) == Ids(traceId, spanId) {
      JoinSplit(h);
      var parts := Split(h);
      DecodeIffSpells(parts[1], 16, traceId);
      DecodeIffSpells(parts[2], 8, spanId);
      assert h == Fields(parts[1], parts[2], parts[3]) by { JoinFour(parts); }
      assert WellShaped(h, parts[1], parts[2], parts[3]);
    }
  }

  lemma JoinFour(parts: seq<seq<Byte>>)
    requires |parts| == 4
    ensures Join(parts) == parts[0] + [DASH] + (parts[1] + [DASH] + (parts[2] + [DASH] + parts[3]))
  {
    assert Join(parts[3..]) == parts[3];
    assert Join(parts[2..]) == parts[2] + [DASH] + Join(parts[3..]) by { assert parts[2..][1..] == parts[3..]; }
    assert Join(parts[1..]) == parts[1] + [DASH] + Join(parts[2..]) by { assert parts[1..][1..] == parts[2..]; }
  }

  /** ASCII text as bytes. */
  function Ascii(text: string): seq<Byte>
    requires forall i :: 0 <= i < |text| ==> text[i] as int < 128
  {
    seq(|text|, i requires 0 <= i < |text| => text[i] as int)
  }

  /** The printed header, as text: version 00, the two ids in hex, and the flags 01 for "sampled". */
  lemma PrintedText(c: TraceContext)
    ensures ToTraceparent(c) == Ascii("00-") + Hex(c.traceId) + Ascii("-") + Hex(c.spanId) + Ascii("-01")
  {
    assert Ascii("00-") == [48, 48, 45] && Ascii("-") == [45] && Ascii("-01") == [45, 48, 49];
  }

  // ------------------------------------------------------------------------------------------
  // Round trips
  // ------------------------------------------------------------------------------------------

  /** Parsing a printed header gives back its ids, whatever the flags; zero ids are refused. */
  lemma ParsePrinted(traceId: seq<Byte>, spanId: seq<Byte>, flags: seq<Byte>)
    requires |traceId| == 16 && |spanId| == 8 && ValidFlags(flags)
    ensures ParseTraceparent(Header(traceId, spanId, flags)) ==
      if IsZero(traceId) || IsZero(spanId) then InvalidFormat else Ids(traceId, spanId)
  {
    HexIsPlain(traceId);
    HexIsPlain(spanId);
    HexSpells(traceId);
    HexSpells(spanId);
    ParseFields(Hex(traceId), Hex(spanId), flags, traceId, spanId);
  }

  lemma ParseFields(traceHex: seq<Byte>, spanHex: seq<Byte>, flags: seq<Byte>, traceId: seq<Byte>, spanId: seq<Byte>)
    requires ValidFlags(flags) && DASH !in traceHex && DASH !in spanHex && NoUppercase(traceHex) && NoUppercase(spanHex)
    requires |traceId| == 16 && |spanId| == 8 && Spells(traceHex, traceId) && Spells(spanHex, spanId)
    ensures ParseTraceparent(Fields(traceHex, spanHex, flags)) ==
      if IsZero(traceId) || IsZero(spanId) then InvalidFormat else Ids(traceId, spanId)
  {
    FieldsSplit(traceHex, spanHex, flags);
    DecodeIffSpells(traceHex, 16, traceId);
    DecodeIffSpells(spanHex, 8, spanId);
  }

  /** An accepted header prints back to itself, up to nothing but the flags, exactly when it has no plus sign. */
  lemma PrintParsed(h: seq<Byte>, traceId: seq<Byte>, spanId: seq<Byte>)
    requires ParseTraceparent(h) == Ids(traceId, spanId)
    ensures PLUS !in h <==> exists flags :: ValidFlags(flags) && h == Header(traceId, spanId, flags)
  {
    AcceptedIff(h, traceId, spanId);
    var traceHex, spanHex, flags :|
        && WellShaped(h, traceHex, spanHex, flags)
        && Spells(traceHex, traceId) && Spells(spanHex, spanId) && ValidIds(traceId, spanId);
    if PLUS !in h {
      assert PLUS !in traceHex && PLUS !in spanHex by { FieldsHold(traceHex, spanHex, flags); }
      SpelledIsHex(traceHex, traceId);
      SpelledIsHex(spanHex, spanId);
    }
    if flags' :| ValidFlags(flags') && h == Header(traceId, spanId, flags') {
      HexIsPlain(traceId);
      HexIsPlain(spanId);
      FieldsHold(Hex(traceId), Hex(spanId), flags');
    }
  }

  lemma FieldsHold(traceHex: seq<Byte>, spanHex: seq<Byte>, flags: seq<Byte>)
    requires ValidFlags(flags)
    ensures PLUS in Fields(traceHex, spanHex, flags) <==> PLUS in traceHex || PLUS in spanHex
  {
    assert PLUS !in flags;
  }

  /** Without plus signs, what is accepted is what can be printed with some flags: lowercase hex, version 00, no zero id. */
  lemma AcceptsWhatIsPrinted(h: seq<Byte>)
    requires PLUS !in h
    ensures ParseTraceparent(h).Ids? <==>
      exists traceId, spanId, flags :: ValidIds(traceId, spanId) && ValidFlags(flags) && h == Header(traceId, spanId, flags)
  {
    if ParseTraceparent(h).Ids? {
      var ids := ParseTraceparent(h);
      PrintParsed(h, ids.traceId, ids.spanId);
      AcceptedIff(h, ids.traceId, ids.spanId);
    }
    if traceId, spanId, flags :| ValidIds(traceId, spanId) && ValidFlags(flags) && h == Header(traceId, spanId, flags) {
      ParsePrinted(traceId, spanId, flags);
    }
  }

  function Ones(n: nat): seq<Byte> {
    seq(n, _ => 1)
  }

  /** "+1", n times. */
  function PlusOnes(n: nat): seq<Byte> {
    seq(2 * n, i => if i % 2 == 0 then PLUS else 49)
  }

  lemma PlusOnesSpell(n: nat)
    ensures Spells(PlusOnes(n), Ones(n)) && DASH !in PlusOnes(n) && NoUppercase(PlusOnes(n))
  {
    forall i | 0 <= i < n
      ensures PairSpells(PlusOnes(n), i, Ones(n)[i])
    {
      assert PlusOnes(n)[2 * i] == PLUS && PlusOnes(n)[2 * i + 1] == 49;
    }
  }

  /** A plus sign in front of a digit is taken for a zero: two headers, one pair of ids. */
  lemma PlusIsTakenForZero(flags: seq<Byte>)
    requires ValidFlags(flags)
    ensures ParseTraceparent(Header(Ones(16), Ones(8), flags)) == Ids(Ones(16), Ones(8))
    ensures ParseTraceparent(Fields(PlusOnes(16), PlusOnes(8), flags)) == Ids(Ones(16), Ones(8))
    ensures Header(Ones(16), Ones(8), flags) != Fields(PlusOnes(16), PlusOnes(8), flags)
  {
    assert Ones(16)[0] == 1 && Ones(8)[0] == 1;
    ParsePrinted(Ones(16), Ones(8), flags);
    PlusOnesSpell(16);
    PlusOnesSpell(8);
    ParseFields(PlusOnes(16), PlusOnes(8), flags, Ones(16), Ones(8));
    HexIsPlain(Ones(16));
    HexIsPlain(Ones(8));
    FieldsHold(Hex(Ones(16)), Hex(Ones(8)), flags);
    assert PlusOnes(16)[0] == PLUS;
    FieldsHold(PlusOnes(16), PlusOnes(8), flags);
  }

  ghost predicate Cuts(s: seq<Byte>, n: nat) {
    |s| == 2 * n && exists i: nat :: PanicsAt(s, i)
  }

  ghost predicate SpellsNonZero(s: seq<Byte>, n: nat) {
    exists id :: |id| == n && Spells(s, id) && !IsZero(id)
  }

  lemma ShapedParse(h: seq<Byte>, traceHex: seq<Byte>, spanHex: seq<Byte>, flags: seq<Byte>)
    requires WellShaped(h, traceHex, spanHex, flags)
    ensures ParseTraceparent(h).Panic? <==> Cuts(traceHex, 16) || (SpellsNonZero(traceHex, 16) && Cuts(spanHex, 8))
  {
    FieldsSplit(traceHex, spanHex, flags);
    DecodePanicsIff(traceHex, 16);
    DecodePanicsIff(spanHex, 8);
    var decoded := Decode(traceHex, 16);
    if decoded.Bytes? {
      DecodeIffSpells(traceHex, 16, decoded.bytes);
    }
    if id :| |id| == 16 && Spells(traceHex, id) && !IsZero(id) {
      DecodeIffSpells(traceHex, 16, id);
    }
  }

  lemma PanickingShape(h: seq<Byte>) returns (traceHex: seq<Byte>, spanHex: seq<Byte>, flags: seq<Byte>)
    requires ParseTraceparent(h).Panic?
    ensures WellShaped(h, traceHex, spanHex, flags)
  {
    JoinSplit(h);
    var parts := Split(h);
    JoinFour(parts);
    traceHex, spanHex, flags := parts[1], parts[2], parts[3];
  }

  /**
   * Exactly which headers make the parser panic: those whose fields are in order but where a slice
   * cuts a character, in the trace id or, after a good trace id that is not zero, in the span id.
   */
  lemma ParsePanicsIff(h: seq<Byte>)
    ensures ParseTraceparent(h).Panic? <==>
      exists traceHex, spanHex, flags ::
        && WellShaped(h, traceHex, spanHex, flags)
        && (Cuts(traceHex, 16) || (SpellsNonZero(traceHex, 16) && Cuts(spanHex, 8)))
  {
    if ParseTraceparent(h).Panic? {
      var traceHex, spanHex, flags := PanickingShape(h);
      ShapedParse(h, traceHex, spanHex, flags);
    }
    if traceHex, spanHex, flags :|
        && WellShaped(h, traceHex, spanHex, flags)
        && (Cuts(traceHex, 16) || (SpellsNonZero(traceHex, 16) && Cuts(spanHex, 8))) {
      ShapedParse(h, traceHex, spanHex, flags);
    }
  }

  /** UTF-8: the bytes of one character. */
  function Utf8(c: int): seq<Byte>
    requires 0 <= c < 0x11_0000
  {
    if c < 0x80 then [c]
    else if c < 0x800 then [0xC0 + c / 64, 0x80 + c % 64]
    else if c < 0x1_0000 then [0xE0 + c / 4096, 0x80 + c / 64 % 64, 0x80 + c % 64]
    else [0xF0 + c / 262144, 0x80 + c / 4096 % 64, 0x80 + c / 64 % 64, 0x80 + c % 64]
  }

  /** A position is inside a character exactly when it is one of its bytes after the first. */
  lemma BoundariesOfCharacter(before: seq<Byte>, c: int, after: seq<Byte>, i: nat)
    requires 0 <= c < 0x11_0000 && i < |Utf8(c)|
    ensures InsideCharacter(before + Utf8(c) + after, |before| + i) <==> i > 0
  {
    assert (before + Utf8(c) + after)[|before| + i] == Utf8(c)[i];
  }

  /** A euro sign, three bytes in UTF-8, and zeros up to the length of a trace id. */
  function EuroAndZeros(): seq<Byte> {
    Utf8(0x20AC) + seq(29, _ => ZERO)
  }

  /** A header that makes the parser panic. */
  lemma EuroSignPanics(spanHex: seq<Byte>, flags: seq<Byte>)
    requires ValidFlags(flags) && DASH !in spanHex && NoUppercase(spanHex)
    ensures ParseTraceparent(Fields(EuroAndZeros(), spanHex, flags)).Panic?
  {
    var s := EuroAndZeros();
    assert Utf8(0x20AC) == [0xE2, 0x82, 0xAC];
    assert InsideCharacter(s, 2);
    assert PanicsAt(s, 0) && Cuts(s, 16);
    assert WellShaped(Fields(s, spanHex, flags), s, spanHex, flags);
    ShapedParse(Fields(s, spanHex, flags), s, spanHex, flags);
  }

  lemma {:induction false} PartsWithin(s: seq<Byte>, i: nat, b: Byte)
    requires i < |Split(s)| && b in Split(s)[i]
    ensures b in s
  {
    if s != [] {
      var rest := Split(s[1..]);
      if s[0] == DASH {
        PartsWithin(s[1..], i - 1, b);
      } else if b in rest[i] {
        PartsWithin(s[1..], i, b);
      }
    }
  }

  /** A header of ASCII characters, which is what HTTP carries, never makes the parser panic. */
  lemma AsciiNeverPanics(h: seq<Byte>)
    requires forall i :: 0 <= i < |h| ==> h[i] < 128
    ensures !ParseTraceparent(h).Panic?
  {
    var parts := Split(h);
    forall i, b | 0 <= i < |parts| && b in parts[i]
      ensures b < 128
    {
      PartsWithin(h, i, b);
    }
    if |parts| == 4 {
      forall i | 0 <= i < 4 ensures forall k: nat :: !InsideCharacter(parts[i], k) {
        forall k: nat | k < |parts[i]| ensures !InsideCharacter(parts[i], k) {
          assert parts[i][k] in parts[i];
        }
      }
      DecodePanicsIff(parts[1], 16);
      DecodePanicsIff(parts[2], 8);
    }
  }

  /**
   * Continuing an accepted trace and passing it on: the next service finds the same trace, with this
   * service's span as its parent, exactly when the span id drawn here is not all zeros.
   */
  lemma PassedOn(h: seq<Byte>, drawn: seq<Byte>)
    requires |drawn| == 8 && ParseTraceparent(h).Ids?
    ensures FromInbound(h, drawn).Ok?
    ensures
      var c := FromInbound(h, drawn).value;
      && c.parentSpanId == Some(ParseTraceparent(h).spanId)
      && (ParseTraceparent(ToTraceparent(c)) == Ids(ParseTraceparent(h).traceId, drawn) <==> !IsZero(drawn))
  {
    var ids := ParseTraceparent(h);
    AcceptedIff(h, ids.traceId, ids.spanId);
    ParsePrinted(ids.traceId, drawn, [ZERO, 49]);
  }
}
