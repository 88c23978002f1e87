/**
 JsonEscape (src/trace/event_tracer.cpp) against a reader of strings written from section 7 of RFC 8259.
 */
module JsonEscape {
  import opened Common

  const QUOTE: Byte := 0x22
  const BACKSLASH: Byte := 0x5C
  const LETTER_U: Byte := 0x75

  /** A lower-case hexadecimal digit, as std::hex prints it. */
  function HexDigit(v: nat): (d: Byte)
    requires v < 16
  {
    if v < 10 then 0x30 + v else 0x61 + v - 10
  }

  function EscapeByte(b: Byte): (e: Bytes)
    ensures e != []
  {
    if b == QUOTE then [BACKSLASH, QUOTE]
    else if b == BACKSLASH then [BACKSLASH, BACKSLASH]
    else if b == 0x08 then [BACKSLASH, 0x62]
    else if b == 0x0C then [BACKSLASH, 0x66]
    else if b == 0x0A then [BACKSLASH, 0x6E]
    else if b == 0x0D then [BACKSLASH, 0x72]
    else if b == 0x09 then [BACKSLASH, 0x74]
    else if b <= 0x1F then [BACKSLASH, LETTER_U, 0x30, 0x30, HexDigit(b / 16), HexDigit(b % 16)]
    else [b]
  }

  function Escape(s: Bytes): Bytes {
    if s == [] then [] else EscapeByte(s[0]) + Escape(s[1..])
  }

  lemma {:induction false} EscapeAppend(s: Bytes, b: Byte)
    ensures Escape(s + [b]) == Escape(s) + EscapeByte(b)
    decreases |s|
  {
    if s == [] {
      assert [b][1..] == [] && [] + EscapeByte(b) == EscapeByte(b) + [];
    } else {
      assert (s + [b])[1..] == s[1..] + [b];
      EscapeAppend(s[1..], b);
    }
  }

  method Run(s: Bytes) returns (out: Bytes)
    ensures out == Escape(s)
  {
    out := [];
    for i := 0 to |s|
      invariant out == Escape(s[..i])
    {
      var c := s[i];
      EscapeAppend(s[..i], c);
      assert s[..i + 1] == s[..i] + [c];
      match c {
        case 0x22 => out := out + [BACKSLASH, QUOTE];
        case 0x5C => out := out + [BACKSLASH, BACKSLASH];
        case 0x08 => out := out + [BACKSLASH, 0x62];
        case 0x0C => out := out + [BACKSLASH, 0x66];
        case 0x0A => out := out + [BACKSLASH, 0x6E];
        case 0x0D => out := out + [BACKSLASH, 0x72];
        case 0x09 => out := out + [BACKSLASH, 0x74];
        case _ =>
          if 0x00 <= c <= 0x1F {
            out := out + [BACKSLASH, LETTER_U, 0x30, 0x30, HexDigit(c / 16), HexDigit(c % 16)];
          } else {
            out := out + [c];
          }
      }
    }
    assert s[..|s|] == s;
  }

  // ---------------------------------------------------------------- a reader of JSON strings

  function HexValue(d: Byte): Option<nat> {
    if 0x30 <= d <= 0x39 then Some(d - 0x30)
    else if 0x41 <= d <= 0x46 then Some(d - 0x41 + 10)
    else if 0x61 <= d <= 0x66 then Some(d - 0x61 + 10)
    else None
  }

  /** The four digits of a \u escape that start at `i`. */
  function HexFour(s: Bytes, i: nat): (v: Option<nat>)
    ensures v.Some? ==> i + 4 <= |s| && v.value < 0x10000
  {
    if i + 4 > |s| then None
    else
      match (HexValue(s[i]), HexValue(s[i + 1]), HexValue(s[i + 2]), HexValue(s[i + 3]))
      case (Some(a), Some(b), Some(c), Some(d)) =>
        if a < 16 && b < 16 && c < 16 && d < 16 then Some(((a * 16 + b) * 16 + c) * 16 + d) else None
      case _ => None
  }

  /** UTF-8 for one character outside the surrogate range (section 3 of RFC 3629). */
  function Utf8(code: nat): Bytes
    requires code < 0x110000
  {
    if code < 0x80 then [code]
    else if code < 0x800 then [0xC0 + code / 64, 0x80 + code % 64]
    else if code < 0x10000 then [0xE0 + code / 4096, 0x80 + code / 64 % 64, 0x80 + code % 64]
    else [0xF0 + code / 262144, 0x80 + code / 4096 % 64, 0x80 + code / 64 % 64, 0x80 + code % 64]
  }

  predicate IsHighSurrogate(v: nat) { 0xD800 <= v <= 0xDBFF }

  predicate IsLowSurrogate(v: nat) { 0xDC00 <= v <= 0xDFFF }

  /** What one character or escape at `i` stands for, and where the next one starts; None if it is not allowed. */
  function ReadChar(s: Bytes, i: nat): (r: Option<(Bytes, nat)>)
    requires i < |s|
    ensures r.Some? ==> i < r.value.1 <= |s|
  {
    if s[i] == QUOTE || s[i] < 0x20 then None
    else if s[i] != BACKSLASH then Some(([s[i]], i + 1))
    else if i + 1 == |s| then None
    else
      match s[i + 1]
      case 0x22 => Some(([0x22], i + 2))
      case 0x5C => Some(([0x5C], i + 2))
      case 0x2F => Some(([0x2F], i + 2))
      case 0x62 => Some(([0x08], i + 2))
      case 0x66 => Some(([0x0C], i + 2))
      case 0x6E => Some(([0x0A], i + 2))
      case 0x72 => Some(([0x0D], i + 2))
      case 0x74 => Some(([0x09], i + 2))
      case 0x75 => ReadUnicode(s, i)
      case _ => None
  }

  function ReadUnicode(s: Bytes, i: nat): (r: Option<(Bytes, nat)>)
    requires i + 1 < |s|
    ensures r.Some? ==> i < r.value.1 <= |s|
  {
    match HexFour(s, i + 2)
    case None => None
    case Some(v) =>
      if IsLowSurrogate(v) then None
      else if !IsHighSurrogate(v) then Some((Utf8(v), i + 6))
      else if i + 8 <= |s| && s[i + 6] == BACKSLASH && s[i + 7] == LETTER_U then
        match HexFour(s, i + 8)
        case Some(w) =>
          if IsLowSurrogate(w) then Some((Utf8(0x10000 + (v - 0xD800) * 1024 + (w - 0xDC00)), i + 12)) else None
        case None => None
      else None
  }

  /** The text between two quotes, or None if it is not well-formed. */
  function Unescape(s: Bytes, i: nat): Option<Bytes>
    requires i <= |s|
    decreases |s| - i
  {
    if i == |s| then Some([])
    else
      match ReadChar(s, i)
      case None => None
      case Some((text, next)) =>
        match Unescape(s, next)
        case None => None
        case Some(rest) => Some(text + rest)
  }

  /** Where a scanner that starts at `i`, inside a string, finds the closing quote. */
  function ScanToQuote(s: Bytes, i: nat): Option<nat>
    requires i <= |s|
    decreases |s| - i
  {
    if i == |s| || s[i] < 0x20 then None
    else if s[i] == QUOTE then Some(i)
    else if s[i] != BACKSLASH then ScanToQuote(s, i + 1)
    else if i + 1 == |s| then None
    else ScanToQuote(s, i + 2)
  }

  // ---------------------------------------------------------------- the laws

  lemma HexDigitReads(v: nat)
    requires v < 16
    ensures HexValue(HexDigit(v)) == Some(v)
  {
  }

  /** The escape of one byte, wherever it stands, is read back as that byte. */
  lemma ReadsBack(s: Bytes, i: nat, b: Byte)
    requires i + |EscapeByte(b)| <= |s| && s[i..i + |EscapeByte(b)|] == EscapeByte(b)
    ensures ReadChar(s, i) == Some(([b], i + |EscapeByte(b)|))
  {
    var e := EscapeByte(b);
    forall k | 0 <= k < |e|
      ensures s[i + k] == e[k]
    {
      assert s[i..i + |e|][k] == e[k];
    }
    assert s[i] == e[0];
    if |e| >= 2 {
      assert s[i + 1] == e[1];
    }
    if |e| == 6 {
      assert s[i + 2] == e[2] && s[i + 3] == e[3] && s[i + 4] == e[4] && s[i + 5] == e[5];
      HexDigitReads(b / 16);
      HexDigitReads(b % 16);
      assert HexFour(s, i + 2) == Some(b);
    }
  }

  lemma {:induction false} UnescapeFrom(s: Bytes, t: Bytes, i: nat)
    requires i <= |t| && t[i..] == Escape(s)
    ensures Unescape(t, i) == Some(s)
    decreases |s|
  {
    if s != [] {
      var e := EscapeByte(s[0]);
      assert Escape(s) == e + Escape(s[1..]);
      hide EscapeByte, ReadChar, Escape;
      Drop(t, i, e, Escape(s[1..]));
      ReadsBack(t, i, s[0]);
      UnescapeFrom(s[1..], t, i + |e|);
      assert [s[0]] + s[1..] == s;
    }
  }

  /** Reading undoes escaping, for every byte string, so different strings are never written alike. */
  lemma UnescapeEscape(s: Bytes)
    ensures Unescape(Escape(s), 0) == Some(s)
  {
    assert Escape(s)[0..] == Escape(s);
    UnescapeFrom(s, Escape(s), 0);
  }

  lemma {:induction false} EscapedIsPrintable(s: Bytes)
    ensures forall k | 0 <= k < |Escape(s)| :: Escape(s)[k] >= 0x20
    decreases |s|
  {
    if s != [] {
      EscapedIsPrintable(s[1..]);
    }
  }

  /** A scanner passes over the escape of one byte without stopping. */
  lemma ScanSkips(t: Bytes, i: nat, b: Byte)
    requires i + |EscapeByte(b)| <= |t| && t[i..i + |EscapeByte(b)|] == EscapeByte(b)
    ensures ScanToQuote(t, i) == ScanToQuote(t, i + |EscapeByte(b)|)
  {
    var e := EscapeByte(b);
    forall k | 0 <= k < |e|
      ensures t[i + k] == e[k]
    {
      assert t[i..i + |e|][k] == e[k];
    }
    assert t[i] == e[0];
    if |e| == 6 {
      assert t[i + 2] == e[2] && t[i + 3] == e[3] && t[i + 4] == e[4] && t[i + 5] == e[5];
      assert ScanToQuote(t, i) == ScanToQuote(t, i + 2);
      assert ScanToQuote(t, i + 2) == ScanToQuote(t, i + 3) == ScanToQuote(t, i + 4);
      assert ScanToQuote(t, i + 4) == ScanToQuote(t, i + 5) == ScanToQuote(t, i + 6);
    }
  }

  lemma Drop(t: Bytes, i: nat, a: Bytes, b: Bytes)
    requires i <= |t| && t[i..] == a + b
    ensures i + |a| <= |t| && t[i..i + |a|] == a && t[i + |a|..] == b
  {
    assert t[i..i + |a|] == t[i..][..|a|];
    assert t[i + |a|..] == t[i..][|a|..];
  }

  lemma {:induction false} ScanFrom(s: Bytes, t: Bytes, i: nat, tail: Bytes)
    requires tail != [] && tail[0] == QUOTE
    requires i <= |t| && t[i..] == Escape(s) + tail
    ensures ScanToQuote(t, i) == Some(i + |Escape(s)|)
    decreases |s|
  {
    hide EscapeByte;
    if s == [] {
      assert t[i] == t[i..][0];
    } else {
      var e, rest := EscapeByte(s[0]), Escape(s[1..]);
      assert Escape(s) == e + rest;
      assert t[i..] == e + (rest + tail);
      Drop(t, i, e, rest + tail);
      ScanSkips(t, i, s[0]);
      ScanFrom(s[1..], t, i + |e|, tail);
    }
  }

  /**
   A string field written between quotes, anywhere in a text: no control character, and a scanner that starts after
   the opening quote stops at the closing one and nowhere before.
   */
  lemma FieldIsDelimited(before: Bytes, s: Bytes, after: Bytes)
    ensures var text := before + [QUOTE] + (Escape(s) + ([QUOTE] + after));
            && ScanToQuote(text, |before| + 1) == Some(|before| + 1 + |Escape(s)|)
            && text[|before| + 1..|before| + 1 + |Escape(s)|] == Escape(s)
    ensures Unescape(Escape(s), 0) == Some(s)
    ensures forall k | 0 <= k < |Escape(s)| :: Escape(s)[k] >= 0x20
  {
    UnescapeEscape(s);
    EscapedIsPrintable(s);
    var start, field, tail := before + [QUOTE], Escape(s), [QUOTE] + after;
    hide Escape, Unescape, ScanToQuote;
    var text := start + (field + tail);
    assert text[|start|..] == field + tail;
    Drop(text, |start|, field, tail);
    ScanFrom(s, text, |start|, tail);
  }
}
