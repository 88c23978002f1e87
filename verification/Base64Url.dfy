/**
 base64UrlDecode and extractJwtPayloadJson (src/token_source_jwt.cpp) against the encoder of RFC 4648.
 */
module Base64Url {
  import opened Common

  const DOT: Byte := 0x2E
  const PAD: Byte := 0x3D

  function Repeat(v: int, n: nat): seq<int> { seq(n, _ => v) }

  function Upward(first: int, n: nat): seq<int> { seq(n, i => first + i) }

  /** The entries that kDecodeTable's initializer lists, run by run. */
  const LISTED: seq<int> :=
    Repeat(-1, 43) + [62] + Repeat(-1, 3) + [63] + Upward(52, 10) + Repeat(-1, 7) +
    Upward(0, 26) + Repeat(-1, 6) + Upward(26, 26) + Repeat(-1, 116)

  /** An array of 256 with fewer initializers is filled up with zeros. */
  const DECODE_TABLE: seq<int> := LISTED + Repeat(0, 256 - |LISTED|)

  /** The table's entry in closed form. */
  function ValueOf(ch: Byte): (v: int)
    ensures -1 <= v < 64
  {
    if 0x41 <= ch <= 0x5A then ch - 0x41
    else if 0x61 <= ch <= 0x7A then ch - 0x61 + 26
    else if 0x30 <= ch <= 0x39 then ch - 0x30 + 52
    else if ch == 0x2B then 62
    else if ch == 0x2F then 63
    else if ch < 239 then -1
    else 0
  }

  lemma TableIs(ch: Byte)
    ensures |DECODE_TABLE| == 256 && DECODE_TABLE[ch] == ValueOf(ch)
  {
    assert |LISTED| == 239;
  }

  /** Replaces the two characters of the url alphabet (section 5) by those of the standard one (section 4). */
  function Standard(ch: Byte): Byte {
    if ch == 0x2D then 0x2B else if ch == 0x5F then 0x2F else ch
  }

  function Normalize(s: Bytes): Bytes { seq(|s|, i requires 0 <= i < |s| => Standard(s[i])) }

  /** The part that is decoded: what comes before the first '='. */
  function Significant(s: Bytes): (p: Bytes)
    ensures |p| <= |s| && PAD !in p
  {
    if s == [] || s[0] == PAD then [] else [s[0]] + Significant(s[1..])
  }

  function Values(s: Bytes): seq<int> { seq(|s|, i requires 0 <= i < |s| => ValueOf(Standard(s[i]))) }

  predicate Sextets(vals: seq<int>) { forall i | 0 <= i < |vals| :: 0 <= vals[i] < 64 }

  /** Below `bits` bits, what is left over after whole bytes have been taken off. */
  predicate Remainder(rest: nat, bits: nat) {
    (bits == 0 && rest == 0) || (bits == 2 && rest < 4) || (bits == 4 && rest < 16) || (bits == 6 && rest < 64)
  }

  /** 2 to the power `bits`, for the few powers in use. */
  function Pow2(bits: nat): nat
    requires bits <= 6
  {
    [1, 2, 4, 8, 16, 32, 64][bits]
  }

  /** One more sextet on an unbounded accumulator that holds just the leftover bits: the new byte, if one is full. */
  function Shift(rest: nat, bits: nat, v: int): (r: (Bytes, nat, nat))
    requires Remainder(rest, bits) && 0 <= v < 64
    ensures Remainder(r.1, r.2)
  {
    var all := rest * 64 + v;
    if bits == 0 then ([], all, 6)
    else
      var low := Pow2(bits - 2);
      ([all / low], all % low, bits - 2)
  }

  function Unpack(vals: seq<int>, rest: nat, bits: nat): Bytes
    requires Sextets(vals) && Remainder(rest, bits)
    decreases |vals|
  {
    if vals == [] then []
    else
      var (out, rest', bits') := Shift(rest, bits, vals[0]);
      out + Unpack(vals[1..], rest', bits')
  }

  /** What base64UrlDecode computes. */
  function Decoded(input: Bytes): Option<Bytes> {
    var vals := Values(Significant(input));
    if Sextets(vals) then Some(Unpack(vals, 0, 0)) else None
  }

  // ---------------------------------------------------------------- the loops

  const WORD := 0x1_0000_0000

  /** The eight bits above the lowest `m`'s worth, and what lies below them, do not depend on higher bits. */
  lemma LowBits(next: nat, k: int, w: nat, m: nat)
    requires m in {1, 4, 16} && next == 256 * m * k + w && w < 256 * m
    ensures next / m % 256 == w / m && next % m == w % m
  {
    var high, low := w / m, w % m;
    if m == 1 {
      assert next == 256 * k + w;
    } else if m == 4 {
      assert next == 4 * (256 * k + high) + low;
    } else {
      assert next == 16 * (256 * k + high) + low;
    }
    assert next / m == 256 * k + high && next % m == low;
    Quotient(256 * k + high, k, high);
  }

  lemma Quotient(n: nat, k: int, low: nat)
    requires n == 256 * k + low && low < 256
    ensures n % 256 == low
  {
  }

  /** Shifting left by six in 32 bits drops whole multiples of the word and leaves room for a sextet. */
  lemma ShiftedLeft(buffer: nat)
    ensures buffer * 64 % WORD == 64 * (buffer - buffer * 64 / WORD * 0x400_0000)
    ensures buffer * 64 % WORD <= WORD - 64
  {
    var shifted := buffer * 64;
    assert shifted % WORD == shifted - shifted / WORD * WORD;
  }

  /** The 32-bit accumulator agrees with the unbounded one on every bit that is still to be used. */
  lemma WordStep(buffer: nat, rest: nat, bits: nat, v: nat)
    requires Remainder(rest, bits) && v < 64
    requires buffer % Pow2(bits) == rest
    ensures var next := buffer * 64 % WORD + v;
            var (out, rest', bits') := Shift(rest, bits, v);
            && next < WORD
            && next % Pow2(bits') == rest'
            && (bits + 6 >= 8 ==> bits' == bits - 2 && out == [next / Pow2(bits') % 256])
            && (bits + 6 < 8 ==> bits' == bits + 6 && out == [])
  {
    var next, wraps := buffer * 64 % WORD + v, buffer * 64 / WORD;
    ShiftedLeft(buffer);
    if bits == 0 {
      assert next == 64 * (buffer - wraps * 0x400_0000) + v;
      Sextet(next, buffer - wraps * 0x400_0000, v);
    } else {
      var high := buffer / Pow2(bits);
      if bits == 2 {
        LowBits(next, high - wraps * 0x100_0000, rest * 64 + v, 1);
      } else if bits == 4 {
        LowBits(next, high - wraps * 0x40_0000, rest * 64 + v, 4);
      } else {
        LowBits(next, high - wraps * 0x10_0000, rest * 64 + v, 16);
      }
    }
  }

  lemma Sextet(n: nat, k: int, low: nat)
    requires n == 64 * k + low && low < 64
    ensures n % 64 == low
  {
  }

  lemma {:induction false} SignificantIs(s: Bytes)
    ensures var p := Significant(s); p == s[..|p|] && (|p| == |s| || s[|p|] == PAD)
    decreases |s|
  {
    if s != [] && s[0] != PAD {
      SignificantIs(s[1..]);
      var rest := Significant(s[1..]);
      assert Significant(s) == [s[0]] + rest;
      assert s[..|rest| + 1] == [s[0]] + s[1..][..|rest|];
    }
  }

  /** Neither the change of alphabet nor padding at the end moves the first '='. */
  lemma {:induction false} SignificantNormalized(s: Bytes, pads: Bytes)
    requires forall k | 0 <= k < |pads| :: pads[k] == PAD
    ensures Significant(Normalize(s) + pads) == Normalize(Significant(s))
    decreases |s|
  {
    var t := Normalize(s) + pads;
    if s == [] {
      assert t == pads;
    } else {
      assert t[0] == Standard(s[0]);
      if s[0] != PAD {
        assert t[1..] == Normalize(s[1..]) + pads;
        SignificantNormalized(s[1..], pads);
        assert Normalize(Significant(s)) == [Standard(s[0])] + Normalize(Significant(s[1..]));
      }
    }
  }

  method ToStandardAlphabet(input: Bytes) returns (normalized: Bytes)
    ensures normalized == Normalize(input)
  {
    normalized := [];
    for i := 0 to |input|
      invariant normalized == Normalize(input[..i])
    {
      var ch := input[i];
      if ch == 0x2D {
        normalized := normalized + [0x2B];
      } else if ch == 0x5F {
        normalized := normalized + [0x2F];
      } else {
        normalized := normalized + [ch];
      }
    }
    assert input[..|input|] == input;
  }

  method NormalizeAndPad(input: Bytes) returns (normalized: Bytes)
    ensures |normalized| % 4 == 0
    ensures Significant(normalized) == Normalize(Significant(input))
  {
    normalized := ToStandardAlphabet(input);
    ghost var pads: Bytes := [];
    while |normalized| % 4 != 0
      invariant normalized == Normalize(input) + pads
      invariant forall k | 0 <= k < |pads| :: pads[k] == PAD
      decreases (4 - |normalized| % 4) % 4
    {
      normalized := normalized + [PAD];
      pads := pads + [PAD];
    }
    SignificantNormalized(input, pads);
  }

  /** After `i` sextets: what is out, followed by what the accumulator and the rest will give, is the whole. */
  ghost predicate Agrees(vals: seq<int>, i: nat, out: Bytes, buffer: nat, bits: nat) {
    && i <= |vals| && buffer < WORD
    && bits in {0, 2, 4, 6}
    && Remainder(buffer % Pow2(bits), bits)
    && (forall k | 0 <= k < i :: vals[k] >= 0)
    && (Sextets(vals) ==> out + Unpack(vals[i..], buffer % Pow2(bits), bits) == Unpack(vals, 0, 0))
  }

  lemma AgreesStep(vals: seq<int>, i: nat, out: Bytes, buffer: nat, bits: nat)
    requires Agrees(vals, i, out, buffer, bits) && i < |vals| && 0 <= vals[i] < 64
    ensures var buffer' := buffer * 64 % WORD + vals[i];
            if bits + 6 >= 8
            then Agrees(vals, i + 1, out + [buffer' / Pow2(bits - 2) % 256], buffer', bits - 2)
            else Agrees(vals, i + 1, out, buffer', bits + 6)
  {
    var rest := buffer % Pow2(bits);
    WordStep(buffer, rest, bits, vals[i]);
    var (more, rest', bits') := Shift(rest, bits, vals[i]);
    hide Shift, Remainder, Pow2;
    if Sextets(vals) {
      assert vals[i..][1..] == vals[i + 1..];
      var tail := Unpack(vals[i + 1..], rest', bits');
      assert Unpack(vals[i..], rest, bits) == more + tail;
      assert out + (more + tail) == (out + more) + tail;
      assert more == [] ==> out + more == out;
    }
  }

  lemma CharAt(input: Bytes, normalized: Bytes, i: nat)
    requires Significant(normalized) == Normalize(Significant(input))
    requires i < |normalized| && i <= |Significant(input)|
    ensures normalized[i] == PAD <==> i == |Significant(input)|
    ensures i < |Significant(input)| ==> ValueOf(normalized[i]) == Values(Significant(input))[i]
  {
    SignificantIs(normalized);
    var sig := Significant(normalized);
    assert i < |sig| ==> sig[i] == normalized[i] && sig[i] in sig;
  }

  method Base64UrlDecode(input: Bytes) returns (output: Option<Bytes>)
    ensures output == Decoded(input)
  {
    var normalized := NormalizeAndPad(input);
    ghost var vals := Values(Significant(input));
    var out: Bytes := [];
    var buffer: nat, bits: nat := 0, 0;
    var i := 0;
    assert Agrees(vals, i, out, buffer, bits) by {
      assert vals[0..] == vals;
    }
    hide Remainder, Shift, Significant, Normalize, Values, ValueOf;
    while i < |normalized|
      invariant Agrees(vals, i, out, buffer, bits)
    {
      var ch := normalized[i];
      CharAt(input, normalized, i);
      if ch == PAD {
        break;
      }
      TableIs(ch);
      var value := DECODE_TABLE[ch];
      assert value == vals[i];
      if value < 0 {
        return None;
      }
      AgreesStep(vals, i, out, buffer, bits);
      assert bits in {0, 2, 4, 6};
      hide Agrees;
      buffer := buffer * 64 % WORD + value;
      bits := bits + 6;
      if bits >= 8 {
        bits := bits - 8;
        out := out + [buffer / Pow2(bits) % 256];
      }
      i := i + 1;
    }
    assert i == |vals| by {
      SignificantIs(normalized);
      assert |Significant(normalized)| == |vals|;
    }
    AgreesAtEnd(vals, out, buffer, bits);
    output := Some(out);
  }

  lemma AgreesAtEnd(vals: seq<int>, out: Bytes, buffer: nat, bits: nat)
    requires Agrees(vals, |vals|, out, buffer, bits)
    requires forall k | 0 <= k < |vals| :: vals[k] < 64
    ensures Sextets(vals) && out == Unpack(vals, 0, 0)
  {
    assert vals[|vals|..] == [];
    assert out + [] == out;
  }

  // ---------------------------------------------------------------- the encoder of RFC 4648

  function First(a: Byte): (v: int)
    ensures 0 <= v < 64
  {
    a / 4
  }

  function Second(a: Byte, b: Byte): (v: int)
    ensures 0 <= v < 64
  {
    a % 4 * 16 + b / 16
  }

  function Third(b: Byte, c: Byte): (v: int)
    ensures 0 <= v < 64
  {
    b % 16 * 4 + c / 64
  }

  function Fourth(c: Byte): (v: int)
    ensures 0 <= v < 64
  {
    c % 64
  }

  function SextetsOf(d: Bytes): (vals: seq<int>)
    ensures Sextets(vals)
    decreases |d|
  {
    if |d| == 0 then []
    else if |d| == 1 then [First(d[0]), Second(d[0], 0)]
    else if |d| == 2 then [First(d[0]), Second(d[0], d[1]), Third(d[1], 0)]
    else [First(d[0]), Second(d[0], d[1]), Third(d[1], d[2]), Fourth(d[2])] + SextetsOf(d[3..])
  }

  /** The two alphabets differ in their last two characters. */
  function Letter(v: int, url: bool): Byte
    requires 0 <= v < 64
  {
    if v < 26 then 0x41 + v
    else if v < 52 then 0x61 + v - 26
    else if v < 62 then 0x30 + v - 52
    else if v == 62 then (if url then 0x2D else 0x2B)
    else (if url then 0x5F else 0x2F)
  }

  function Letters(vals: seq<int>, url: bool): (s: Bytes)
    requires Sextets(vals)
    ensures |s| == |vals|
  {
    seq(|vals|, i requires 0 <= i < |vals| => Letter(vals[i], url))
  }

  /** Sections 4 and 5; section 2 of RFC 7515 leaves the padding out. */
  function Encoded(d: Bytes, url: bool, padded: bool): Bytes {
    Letters(SextetsOf(d), url) + if padded then seq((3 - |d| % 3) % 3, _ => PAD) else []
  }

  predicate InAlphabets(ch: Byte) {
    0x41 <= ch <= 0x5A || 0x61 <= ch <= 0x7A || 0x30 <= ch <= 0x39 || ch in {0x2B, 0x2F, 0x2D, 0x5F}
  }

  lemma LetterReads(v: int, url: bool)
    requires 0 <= v < 64
    ensures ValueOf(Standard(Letter(v, url))) == v
    ensures Letter(v, url) != PAD && Letter(v, url) != DOT && InAlphabets(Letter(v, url))
  {
  }

  lemma ShiftTriple(a: Byte, b: Byte, c: Byte)
    ensures Shift(0, 0, First(a)) == ([], First(a), 6)
    ensures Shift(First(a), 6, Second(a, b)) == ([a], b / 16, 4)
    ensures Shift(b / 16, 4, Third(b, c)) == ([b], c / 64, 2)
    ensures Shift(c / 64, 2, Fourth(c)) == ([c], 0, 0)
  {
    assert a / 4 * 64 + (a % 4 * 16 + b / 16) == a * 16 + b / 16;
    assert b / 16 * 64 + (b % 16 * 4 + c / 64) == b * 4 + c / 64;
    assert c / 64 * 64 + c % 64 == c;
  }

  lemma UnpackCons(v: int, vals: seq<int>, rest: nat, bits: nat)
    requires 0 <= v < 64 && Sextets(vals) && Remainder(rest, bits)
    ensures var (out, rest', bits') := Shift(rest, bits, v);
            Unpack([v] + vals, rest, bits) == out + Unpack(vals, rest', bits')
  {
    assert ([v] + vals)[1..] == vals;
  }

  /** The four sextets of three bytes, before any others. */
  lemma UnpackTriple(a: Byte, b: Byte, c: Byte, tail: seq<int>)
    requires Sextets(tail)
    ensures Unpack([First(a)] + ([Second(a, b)] + ([Third(b, c)] + ([Fourth(c)] + tail))), 0, 0) ==
            [a] + ([b] + ([c] + Unpack(tail, 0, 0)))
  {
    ShiftTriple(a, b, c);
    hide Shift, Unpack, First, Second, Third, Fourth;
    var v1, v2, v3 := Second(a, b), Third(b, c), Fourth(c);
    UnpackCons(v3, tail, c / 64, 2);
    UnpackCons(v2, [v3] + tail, b / 16, 4);
    UnpackCons(v1, [v2] + ([v3] + tail), First(a), 6);
    UnpackCons(First(a), [v1] + ([v2] + ([v3] + tail)), 0, 0);
  }

  lemma UnpackOne(a: Byte)
    ensures Unpack([First(a), Second(a, 0)], 0, 0) == [a]
  {
    ShiftTriple(a, 0, 0);
    hide Shift, First, Second;
    var v0, v1 := First(a), Second(a, 0);
    UnpackCons(v1, [], First(a), 6);
    UnpackCons(v0, [v1], 0, 0);
    assert [v0] + [v1] == [v0, v1] && [v1] + [] == [v1];
  }

  lemma UnpackTwo(a: Byte, b: Byte)
    ensures Unpack([First(a), Second(a, b), Third(b, 0)], 0, 0) == [a, b]
  {
    ShiftTriple(a, b, 0);
    hide Shift, First, Second, Third;
    var v0, v1, v2 := First(a), Second(a, b), Third(b, 0);
    UnpackCons(v2, [], b / 16, 4);
    UnpackCons(v1, [v2], First(a), 6);
    UnpackCons(v0, [v1, v2], 0, 0);
    assert [v0] + [v1, v2] == [v0, v1, v2] && [v1] + [v2] == [v1, v2] && [v2] + [] == [v2];
  }

  lemma UnpackLast(d: Bytes)
    requires |d| == 1 || |d| == 2
    ensures Unpack(SextetsOf(d), 0, 0) == d
  {
    hide Unpack, First, Second, Third;
    if |d| == 1 {
      UnpackOne(d[0]);
      assert d == [d[0]];
    } else {
      UnpackTwo(d[0], d[1]);
      assert d == [d[0], d[1]];
    }
  }

  lemma SextetsOfTriple(d: Bytes)
    requires |d| >= 3
    ensures SextetsOf(d) ==
            [First(d[0])] + ([Second(d[0], d[1])] + ([Third(d[1], d[2])] + ([Fourth(d[2])] + SextetsOf(d[3..]))))
  {
    hide First, Second, Third, Fourth;
    Quadruple(First(d[0]), Second(d[0], d[1]), Third(d[1], d[2]), Fourth(d[2]), SextetsOf(d[3..]));
  }

  lemma Quadruple(a: int, b: int, c: int, d: int, tail: seq<int>)
    ensures [a, b, c, d] + tail == [a] + ([b] + ([c] + ([d] + tail)))
  {
  }

  lemma {:induction false} UnpackSextets(d: Bytes)
    ensures Unpack(SextetsOf(d), 0, 0) == d
    decreases |d|
  {
    if |d| == 1 || |d| == 2 {
      UnpackLast(d);
    } else if |d| >= 3 {
      UnpackSextets(d[3..]);
      SextetsOfTriple(d);
      UnpackTriple(d[0], d[1], d[2], SextetsOf(d[3..]));
      hide Unpack, SextetsOf;
      assert [d[0]] + ([d[1]] + ([d[2]] + d[3..])) == d;
    }
  }

  lemma {:induction false} SignificantOf(s: Bytes, pads: Bytes)
    requires PAD !in s && (pads == [] || pads[0] == PAD)
    ensures Significant(s + pads) == s
    decreases |s|
  {
    if s == [] {
      assert s + pads == pads;
    } else {
      assert (s + pads)[1..] == s[1..] + pads;
      SignificantOf(s[1..], pads);
    }
  }

  /** Decoding undoes encoding, for every byte sequence, in both alphabets, padded or not. */
  lemma DecodeEncode(d: Bytes, url: bool, padded: bool)
    ensures Decoded(Encoded(d, url, padded)) == Some(d)
  {
    var vals := SextetsOf(d);
    var text := Letters(vals, url);
    forall i | 0 <= i < |vals|
      ensures ValueOf(Standard(text[i])) == vals[i] && text[i] != PAD
    {
      LetterReads(vals[i], url);
    }
    SignificantOf(text, if padded then seq((3 - |d| % 3) % 3, _ => PAD) else []);
    assert Values(text) == vals;
    UnpackSextets(d);
  }

  /** For any bytes: decoding fails exactly when, before the first '=', some byte below 239 is in neither alphabet. */
  lemma DecodeFailsIff(input: Bytes)
    ensures Decoded(input).None? <==>
            exists k :: 0 <= k < |Significant(input)| && input[k] < 239 && !InAlphabets(input[k])
  {
    SignificantIs(input);
    var sig := Significant(input);
    if k :| 0 <= k < |sig| && input[k] < 239 && !InAlphabets(input[k]) {
      assert sig[k] == input[k];
      assert Values(sig)[k] == -1;
    } else {
      forall k | 0 <= k < |sig|
        ensures 0 <= Values(sig)[k] < 64
      {
        assert sig[k] == input[k] && sig[k] in sig;
      }
    }
  }

  /** For ASCII input the failing characters are exactly those outside the alphabets. */
  lemma DecodeFailsIffAscii(input: Bytes)
    requires forall k | 0 <= k < |input| :: input[k] < 128
    ensures Decoded(input).None? <==> exists k :: 0 <= k < |Significant(input)| && !InAlphabets(input[k])
  {
    DecodeFailsIff(input);
    if k :| 0 <= k < |Significant(input)| && !InAlphabets(input[k]) {
      assert input[k] < 239;
    }
  }

  /** Beyond ASCII not everything outside the alphabets is rejected: any two bytes from 239 up decode to a zero byte. */
  lemma HighBytesAreAccepted(a: Byte, b: Byte)
    requires a >= 239 && b >= 239
    ensures !InAlphabets(a) && !InAlphabets(b) && Decoded([a, b]) == Some([0])
  {
    HighBytesValues(a, b);
    UnpackSextets([0]);
    hide *;
    DecodedIs([a, b], SextetsOf([0]));
  }

  lemma DecodedIs(input: Bytes, vals: seq<int>)
    requires Values(Significant(input)) == vals && Sextets(vals)
    ensures Decoded(input) == Some(Unpack(vals, 0, 0))
  {
    hide Unpack, Significant, Values;
  }

  lemma HighBytesValues(a: Byte, b: Byte)
    requires a >= 239 && b >= 239
    ensures !InAlphabets(a) && !InAlphabets(b)
    ensures Values(Significant([a, b])) == SextetsOf([0])
  {
    ZeroSextets();
    hide SextetsOf;
    var input: Bytes := [a, b];
    SignificantOf(input, []);
    assert input + [] == input;
    hide Significant;
    var vals := Values(input);
    assert |vals| == 2 && vals[0] == 0 && vals[1] == 0;
  }

  lemma ZeroSextets()
    ensures |SextetsOf([0])| == 2 && SextetsOf([0])[0] == 0 && SextetsOf([0])[1] == 0
  {
  }

  // ---------------------------------------------------------------- the JWT

  /** std::string::find from a position that may lie past the end. */
  function Find(s: Bytes, ch: Byte, from: nat): (at: Option<nat>)
    ensures at.Some? ==> from <= at.value < |s| && s[at.value] == ch && ch !in s[from..at.value]
    ensures at.None? && from <= |s| ==> ch !in s[from..]
    decreases |s| - from
  {
    if from >= |s| then None
    else if s[from] == ch then Some(from)
    else
      var at := Find(s, ch, from + 1);
      assert at.Some? ==> s[from..at.value] == [s[from]] + s[from + 1..at.value];
      assert s[from..] == [s[from]] + s[from + 1..];
      at
  }

  /** What extractJwtPayloadJson returns. */
  function Payload(token: Bytes): Option<Bytes> {
    match Find(token, DOT, 0)
    case None => None
    case Some(first) =>
      match Find(token, DOT, first + 1)
      case None => None
      case Some(second) =>
        match Decoded(token[first + 1..second])
        case None => None
        case Some(decoded) => if decoded == [] then None else Some(decoded)
  }

  method ExtractJwtPayloadJson(token: Bytes) returns (json: Option<Bytes>)
    ensures json == Payload(token)
  {
    var first := Find(token, DOT, 0);
    if first.None? {
      return None;
    }
    var second := Find(token, DOT, first.value + 1);
    if second.None? {
      return None;
    }
    var decoded := Base64UrlDecode(token[first.value + 1..second.value]);
    if decoded.None? || decoded.value == [] {
      return None;
    }
    json := decoded;
  }

  lemma {:induction false} FindIs(s: Bytes, ch: Byte, from: nat, at: nat)
    requires from <= at < |s| && s[at] == ch && ch !in s[from..at]
    ensures Find(s, ch, from) == Some(at)
    decreases at - from
  {
    if from < at {
      assert s[from] == s[from..at][0];
      assert s[from + 1..at] == s[from..at][1..];
      FindIs(s, ch, from + 1, at);
    }
  }

  lemma EncodedHasNoDot(d: Bytes, url: bool, padded: bool)
    ensures DOT !in Encoded(d, url, padded)
  {
    var vals := SextetsOf(d);
    forall i | 0 <= i < |vals|
      ensures Letters(vals, url)[i] != DOT
    {
      LetterReads(vals[i], url);
    }
  }

  /** From header.payload.signature any non-empty payload comes back, and an empty one never does. */
  lemma PayloadRecovered(header: Bytes, payload: Bytes, signature: Bytes, url: bool, padded: bool)
    requires DOT !in header
    ensures Payload(header + [DOT] + Encoded(payload, url, padded) + [DOT] + signature) ==
            if payload == [] then None else Some(payload)
  {
    var text := Encoded(payload, url, padded);
    var token := header + [DOT] + text + [DOT] + signature;
    EncodedHasNoDot(payload, url, padded);
    DecodeEncode(payload, url, padded);
    hide Encoded, Decoded;
    var first, second := |header|, |header| + 1 + |text|;
    assert token[0..first] == header;
    assert token[first + 1..second] == text;
    FindIs(token, DOT, 0, first);
    FindIs(token, DOT, first + 1, second);
  }

  /** Where the token's first two dots stand. */
  predicate FirstDots(token: Bytes, first: nat, second: nat) {
    && first < second < |token| && token[first] == DOT && token[second] == DOT
    && DOT !in token[0..first] && DOT !in token[first + 1..second]
  }

  /**
   A payload comes out if and only if the token has two dots and the segment between the first two decodes to something,
   which is then the payload. So none comes out of a token with fewer than two dots.
   */
  lemma PayloadIff(token: Bytes, payload: Bytes)
    ensures Payload(token) == Some(payload) <==>
            exists first: nat, second: nat ::
              FirstDots(token, first, second) && Decoded(token[first + 1..second]) == Some(payload) && payload != []
  {
    hide Decoded, Find;
    if Payload(token) == Some(payload) {
      assert FirstDots(token, Find(token, DOT, 0).value, Find(token, DOT, Find(token, DOT, 0).value + 1).value);
    }
    if first: nat, second: nat :|
      FirstDots(token, first, second) && Decoded(token[first + 1..second]) == Some(payload) && payload != []
    {
      FindIs(token, DOT, 0, first);
      FindIs(token, DOT, first + 1, second);
    }
  }
}
