/**
 The benchmark's frame header (benchmarks/data_track_throughput/common.h): little-endian fields written into a buffer
 in place and read back.
 */
module FrameHeader {
  import opened Common

  const FRAME_HEADER_BYTES := 56
  const FRAME_MAGIC := 0x3154_5444
  const FRAME_VERSION := 1

  type Word32 = n: nat | n < 0x1_0000_0000
  type Word64 = n: nat | n < 0x1_0000_0000_0000_0000

  datatype ScenarioRequest = ScenarioRequest(runId: Word64, messageCount: Word64, packetSize: Word64)

  datatype Header = Header(
    runId: Word64, sequence: Word64, messageCount: Word64, payloadSize: Word64, packetSize: Word64, sendTime: Word64)

  datatype Error = PayloadTooSmall

  // ---------------------------------------------------------------- little-endian numbers

  /** The `n` low bytes of `value`, least significant first. */
  function LittleEndian(value: nat, n: nat): (bytes: Bytes)
    ensures |bytes| == n
    decreases n
  {
    if n == 0 then [] else [value % 256] + LittleEndian(value / 256, n - 1)
  }

  function FromLittleEndian(bytes: Bytes): nat {
    if bytes == [] then 0 else bytes[0] + 256 * FromLittleEndian(bytes[1..])
  }

  function Pow256(n: nat): (p: nat)
    ensures p > 0
  {
    if n == 0 then 1 else 256 * Pow256(n - 1)
  }

  /** Reading undoes writing for every value that fits. */
  lemma {:induction false} RoundTrip(value: nat, n: nat)
    requires value < Pow256(n)
    ensures FromLittleEndian(LittleEndian(value, n)) == value
    decreases n
  {
    if n > 0 {
      RoundTrip(value / 256, n - 1);
      assert LittleEndian(value, n)[1..] == LittleEndian(value / 256, n - 1);
    }
  }

  /** The byte that the source computes by shifting right by idx * 8. */
  function ByteAt(value: nat, idx: nat): Byte { value / Pow256(idx) % 256 }

  lemma {:induction false} LittleEndianAt(value: nat, n: nat, idx: nat)
    requires idx < n
    ensures LittleEndian(value, n)[idx] == ByteAt(value, idx)
    decreases n
  {
    if idx > 0 {
      LittleEndianAt(value / 256, n - 1, idx - 1);
      DivDiv(value, Pow256(idx - 1));
    }
  }

  lemma DivDiv(value: nat, p: nat)
    requires p > 0
    ensures value / 256 / p == value / (256 * p)
  {
    var q, r := value / 256 / p, value / 256 % p;
    var low := value % 256;
    assert value / 256 == p * q + r;
    assert value == 256 * (p * q + r) + low == (256 * p) * q + (256 * r + low);
    assert 256 * r + low < 256 * p;
    Quotient(value, 256 * p, q, 256 * r + low);
  }

  lemma Quotient(n: nat, d: nat, q: nat, r: nat)
    requires d > 0 && n == d * q + r && r < d
    ensures n / d == q
  {
    var k := n / d - q;
    assert n == d * (n / d) + n % d;
    assert d * k == r - n % d;
    Grows(d, k);
  }

  lemma Grows(d: nat, k: int)
    ensures k >= 1 ==> d * k >= d
    ensures k <= -1 ==> d * k + d <= 0
  {
  }

  /** Writing undoes reading, too. */
  lemma {:induction false} ReadThenWrite(bytes: Bytes)
    ensures LittleEndian(FromLittleEndian(bytes), |bytes|) == bytes
    ensures FromLittleEndian(bytes) < Pow256(|bytes|)
    decreases |bytes|
  {
    if bytes != [] {
      ReadThenWrite(bytes[1..]);
      var rest: nat := FromLittleEndian(bytes[1..]);
      assert FromLittleEndian(bytes) % 256 == bytes[0] && FromLittleEndian(bytes) / 256 == rest;
    }
  }

  lemma {:induction false} FromLittleEndianAppend(bytes: Bytes, b: Byte)
    ensures FromLittleEndian(bytes + [b]) == FromLittleEndian(bytes) + b * Pow256(|bytes|)
    decreases |bytes|
  {
    if bytes == [] {
      assert [b][1..] == [];
    } else {
      assert (bytes + [b])[1..] == bytes[1..] + [b];
      FromLittleEndianAppend(bytes[1..], b);
      Distribute(FromLittleEndian(bytes[1..]), b, Pow256(|bytes| - 1));
    }
  }

  lemma Distribute(x: nat, b: nat, p: nat)
    ensures 256 * (x + b * p) == 256 * x + b * (256 * p)
  {
  }

  lemma Pow256Values()
    ensures Pow256(4) == 0x1_0000_0000 && Pow256(8) == 0x1_0000_0000_0000_0000
  {
    assert Pow256(1) == 256 * Pow256(0);
    assert Pow256(2) == 256 * Pow256(1);
    assert Pow256(3) == 256 * Pow256(2);
    assert Pow256(4) == 256 * Pow256(3);
    assert Pow256(5) == 256 * Pow256(4);
    assert Pow256(6) == 256 * Pow256(5);
    assert Pow256(7) == 256 * Pow256(6);
    assert Pow256(8) == 256 * Pow256(7);
  }

  // ---------------------------------------------------------------- in place

  /** `buffer` with the bytes at `offset` replaced. */
  function Overwrite(buffer: Bytes, offset: nat, bytes: Bytes): (result: Bytes)
    requires offset + |bytes| <= |buffer|
    ensures |result| == |buffer|
  {
    buffer[..offset] + bytes + buffer[offset + |bytes|..]
  }

  /** writeLe32 and writeLe64: the same loop over 4 and 8 bytes. */
  method WriteLe(buffer: array<Byte>, offset: nat, value: nat, n: nat)
    requires offset + n <= buffer.Length
    modifies buffer
    ensures buffer[..] == Overwrite(old(buffer[..]), offset, LittleEndian(value, n))
  {
    ghost var was := buffer[..];
    for idx := 0 to n
      invariant forall k | 0 <= k < buffer.Length ::
                  buffer[k] == if offset <= k < offset + idx then LittleEndian(value, n)[k - offset] else was[k]
    {
      LittleEndianAt(value, n, idx);
      buffer[offset + idx] := ByteAt(value, idx);
    }
    assert buffer[..] == Overwrite(was, offset, LittleEndian(value, n));
  }

  /** readLe32 and readLe64: adding a byte above those read so far is the source's bitwise or. */
  method ReadLe(buffer: Bytes, offset: nat, n: nat) returns (value: nat)
    requires offset + n <= |buffer|
    ensures value == FromLittleEndian(buffer[offset..offset + n])
  {
    value := 0;
    for idx := 0 to n
      invariant value == FromLittleEndian(buffer[offset..offset + idx])
    {
      FromLittleEndianAppend(buffer[offset..offset + idx], buffer[offset + idx]);
      assert buffer[offset..offset + idx + 1] == buffer[offset..offset + idx] + [buffer[offset + idx]];
      value := value + buffer[offset + idx] * Pow256(idx);
    }
  }

  // ---------------------------------------------------------------- the frame

  function Field(frame: Bytes, offset: nat, n: nat): nat
    requires offset + n <= |frame|
  {
    FromLittleEndian(frame[offset..offset + n])
  }

  /** A field that was written behind `before` is read back whatever follows it. */
  lemma FieldReads(frame: Bytes, before: Bytes, value: nat, n: nat)
    requires before + LittleEndian(value, n) <= frame && value < Pow256(n)
    ensures Field(frame, |before|, n) == value && before <= frame
  {
    assert frame[..|before| + n][|before|..] == LittleEndian(value, n);
    assert frame[..|before|] == frame[..|before| + n][..|before|];
    RoundTrip(value, n);
  }

  /** The first `count` fields of a header, in the order in which they are written. */
  function FirstFields(h: Header, count: nat): (bytes: Bytes)
    requires count <= 8
    ensures |bytes| == if count <= 2 then 4 * count else 8 * count - 8
  {
    match count
    case 0 => []
    case 1 => FirstFields(h, 0) + LittleEndian(FRAME_MAGIC, 4)
    case 2 => FirstFields(h, 1) + LittleEndian(FRAME_VERSION, 4)
    case 3 => FirstFields(h, 2) + LittleEndian(h.runId, 8)
    case 4 => FirstFields(h, 3) + LittleEndian(h.sequence, 8)
    case 5 => FirstFields(h, 4) + LittleEndian(h.messageCount, 8)
    case 6 => FirstFields(h, 5) + LittleEndian(h.payloadSize, 8)
    case 7 => FirstFields(h, 6) + LittleEndian(h.packetSize, 8)
    case 8 => FirstFields(h, 7) + LittleEndian(h.sendTime, 8)
  }

  /** The 56 bytes of a header. */
  function HeaderBytes(h: Header): (bytes: Bytes)
    ensures |bytes| == FRAME_HEADER_BYTES
  {
    FirstFields(h, 8)
  }

  function HeaderFor(request: ScenarioRequest, sequence: Word64, sendTime: Word64): Header {
    Header(request.runId, sequence, request.messageCount, request.packetSize, request.packetSize, sendTime)
  }

  function Fill(b: Byte, n: nat): (bytes: Bytes)
    ensures |bytes| == n
  {
    seq(n, _ => b)
  }

  /** What makePayload returns: the header, then the low byte of the sequence number up to the packet's size. */
  function FrameOf(request: ScenarioRequest, sequence: Word64, sendTime: Word64): Bytes
    requires request.packetSize >= FRAME_HEADER_BYTES
  {
    HeaderBytes(HeaderFor(request, sequence, sendTime)) + Fill(sequence % 256, request.packetSize - FRAME_HEADER_BYTES)
  }

  /** Overwriting the front of what is still fill moves the border. */
  lemma OverwriteFill(buffer: Bytes, done: Bytes, b: Byte, n: nat, bytes: Bytes)
    requires buffer == done + Fill(b, n) && |bytes| <= n
    ensures Overwrite(buffer, |done|, bytes) == (done + bytes) + Fill(b, n - |bytes|)
  {
  }

  method WriteNext(buffer: array<Byte>, offset: nat, value: nat, n: nat, ghost done: Bytes, ghost b: Byte)
    requires |done| == offset && offset + n <= buffer.Length
    requires buffer[..] == done + Fill(b, buffer.Length - offset)
    modifies buffer
    ensures buffer[..] == (done + LittleEndian(value, n)) + Fill(b, buffer.Length - offset - n)
  {
    WriteLe(buffer, offset, value, n);
    OverwriteFill(old(buffer[..]), done, b, buffer.Length - offset, LittleEndian(value, n));
  }

  method MakePayload(request: ScenarioRequest, sequence: Word64, sendTime: Word64) returns (r: Result<Bytes, Error>)
    ensures r == if request.packetSize < FRAME_HEADER_BYTES then Err(PayloadTooSmall)
                 else Ok(FrameOf(request, sequence, sendTime))
  {
    if request.packetSize < FRAME_HEADER_BYTES {
      return Err(PayloadTooSmall);
    }
    var size := request.packetSize;
    var fill: Byte := sequence % 256;
    var payload := new Byte[size](_ => fill);
    ghost var h := HeaderFor(request, sequence, sendTime);
    assert payload[..] == FirstFields(h, 0) + Fill(fill, size);
    hide LittleEndian, Fill;
    WriteNext(payload, 0, FRAME_MAGIC, 4, FirstFields(h, 0), fill);
    WriteNext(payload, 4, FRAME_VERSION, 4, FirstFields(h, 1), fill);
    WriteNext(payload, 8, request.runId, 8, FirstFields(h, 2), fill);
    WriteNext(payload, 16, sequence, 8, FirstFields(h, 3), fill);
    WriteNext(payload, 24, request.messageCount, 8, FirstFields(h, 4), fill);
    WriteNext(payload, 32, size, 8, FirstFields(h, 5), fill);
    WriteNext(payload, 40, size, 8, FirstFields(h, 6), fill);
    WriteNext(payload, 48, sendTime, 8, FirstFields(h, 7), fill);
    r := Ok(payload[..]);
  }

  /** What parseHeader returns. */
  function Parsed(payload: Bytes): Option<Header> {
    if |payload| < FRAME_HEADER_BYTES then None
    else if Field(payload, 0, 4) != FRAME_MAGIC || Field(payload, 4, 4) != FRAME_VERSION then None
    else Some(Header(Word(payload, 8), Word(payload, 16), Word(payload, 24), Word(payload, 32), Word(payload, 40),
                     Word(payload, 48)))
  }

  function Word(payload: Bytes, offset: nat): (w: Word64)
    requires offset + 8 <= |payload|
  {
    ReadThenWrite(payload[offset..offset + 8]);
    Pow256Values();
    Field(payload, offset, 8)
  }

  method ParseHeader(payload: Bytes) returns (header: Option<Header>)
    ensures header == Parsed(payload)
  {
    if |payload| < FRAME_HEADER_BYTES {
      return None;
    }
    var magic := ReadLe(payload, 0, 4);
    var version := ReadLe(payload, 4, 4);
    if magic != FRAME_MAGIC || version != FRAME_VERSION {
      return None;
    }
    var runId := ReadLe(payload, 8, 8);
    var sequence := ReadLe(payload, 16, 8);
    var messageCount := ReadLe(payload, 24, 8);
    var payloadSize := ReadLe(payload, 32, 8);
    var packetSize := ReadLe(payload, 40, 8);
    var sendTime := ReadLe(payload, 48, 8);
    assert runId == Word(payload, 8) && sequence == Word(payload, 16) && messageCount == Word(payload, 24);
    assert payloadSize == Word(payload, 32) && packetSize == Word(payload, 40) && sendTime == Word(payload, 48);
    header := Some(Header(runId, sequence, messageCount, payloadSize, packetSize, sendTime));
  }

  /** A frame that starts with a header's bytes parses as that header, whatever follows. */
  lemma HeaderParses(h: Header, tail: Bytes)
    ensures Parsed(HeaderBytes(h) + tail) == Some(h)
  {
    Pow256Values();
    var frame := HeaderBytes(h) + tail;
    hide LittleEndian, FromLittleEndian, Pow256, Field;
    FieldReads(frame, FirstFields(h, 7), h.sendTime, 8);
    FieldReads(frame, FirstFields(h, 6), h.packetSize, 8);
    FieldReads(frame, FirstFields(h, 5), h.payloadSize, 8);
    FieldReads(frame, FirstFields(h, 4), h.messageCount, 8);
    FieldReads(frame, FirstFields(h, 3), h.sequence, 8);
    FieldReads(frame, FirstFields(h, 2), h.runId, 8);
    FieldReads(frame, FirstFields(h, 1), FRAME_VERSION, 4);
    FieldReads(frame, FirstFields(h, 0), FRAME_MAGIC, 4);
  }

  /** Every frame made for a packet of at least 56 bytes has that size and parses to the fields it was made of. */
  lemma FrameRoundTrip(request: ScenarioRequest, sequence: Word64, sendTime: Word64)
    requires request.packetSize >= FRAME_HEADER_BYTES
    ensures var frame := FrameOf(request, sequence, sendTime);
            && |frame| == request.packetSize
            && (forall k | FRAME_HEADER_BYTES <= k < |frame| :: frame[k] == sequence % 256)
            && Parsed(frame) ==
               Some(Header(request.runId, sequence, request.messageCount, request.packetSize, request.packetSize,
                           sendTime))
  {
    HeaderParses(HeaderFor(request, sequence, sendTime), Fill(sequence % 256, request.packetSize - FRAME_HEADER_BYTES));
  }

  /** What parses starts with the bytes of the header it parses to: no two headers share their bytes. */
  lemma ParsedBytes(payload: Bytes)
    requires Parsed(payload).Some?
    ensures payload[..FRAME_HEADER_BYTES] == HeaderBytes(Parsed(payload).value)
  {
    var h := Parsed(payload).value;
    hide LittleEndian, FromLittleEndian;
    FieldBytes(payload, 0, 4, FRAME_MAGIC);
    FieldBytes(payload, 4, 4, FRAME_VERSION);
    FieldBytes(payload, 8, 8, h.runId);
    FieldBytes(payload, 16, 8, h.sequence);
    FieldBytes(payload, 24, 8, h.messageCount);
    FieldBytes(payload, 32, 8, h.payloadSize);
    FieldBytes(payload, 40, 8, h.packetSize);
    FieldBytes(payload, 48, 8, h.sendTime);
    assert payload[..0] == FirstFields(h, 0);
    assert payload[..4] == FirstFields(h, 1);
    assert payload[..8] == FirstFields(h, 2);
    assert payload[..16] == FirstFields(h, 3);
    assert payload[..24] == FirstFields(h, 4);
    assert payload[..32] == FirstFields(h, 5);
    assert payload[..40] == FirstFields(h, 6);
    assert payload[..48] == FirstFields(h, 7);
  }

  lemma FieldBytes(payload: Bytes, offset: nat, n: nat, value: nat)
    requires offset + n <= |payload| && Field(payload, offset, n) == value
    ensures payload[..offset + n] == payload[..offset] + LittleEndian(value, n)
  {
    ReadThenWrite(payload[offset..offset + n]);
  }
}
