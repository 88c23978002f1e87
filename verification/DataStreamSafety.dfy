/**
 The round trip of a data stream: what writers emit has a fixed shape, and any interleaving of several streams'
 packets, reads and handler changes gives each reader what its writer wrote.
 */
module DataStreamSafety {
  import opened Common
  import opened DataStreamSpec
  import SplitUtf8

  // ---------------------------------------------------------------- writers

  function AllPieces(kind: Kind, writes: seq<Bytes>): seq<Bytes> {
    if writes == [] then [] else PiecesOf(kind, writes[0]) + AllPieces(kind, writes[1..])
  }

  lemma {:induction false} BlocksCover(data: Bytes, offset: nat)
    requires offset <= |data|
    ensures Concat(Blocks(data, offset)) == data[offset..]
    ensures forall p | p in Blocks(data, offset) :: 0 < |p| <= STREAM_CHUNK_SIZE
    decreases |data| - offset
  {
    if offset < |data| {
      var n := SplitUtf8.Min(STREAM_CHUNK_SIZE, |data| - offset);
      BlocksCover(data, offset + n);
      assert data[offset..] == data[offset..offset + n] + data[offset + n..];
    }
  }

  lemma PiecesCover(kind: Kind, data: Bytes)
    ensures Concat(PiecesOf(kind, data)) == data
    ensures forall p | p in PiecesOf(kind, data) :: 0 < |p| <= STREAM_CHUNK_SIZE
  {
    SplitUtf8.SplitCovers(data, STREAM_CHUNK_SIZE);
    BlocksCover(data, 0);
  }

  lemma {:induction false} AllPiecesCover(kind: Kind, writes: seq<Bytes>)
    ensures Concat(AllPieces(kind, writes)) == Concat(writes)
    ensures forall p | p in AllPieces(kind, writes) :: 0 < |p| <= STREAM_CHUNK_SIZE
    decreases |writes|
  {
    if writes != [] {
      AllPiecesCover(kind, writes[1..]);
      PiecesCover(kind, writes[0]);
      ConcatAppend(PiecesOf(kind, writes[0]), AllPieces(kind, writes[1..]));
    }
  }

  /** The data of the write calls that come before the first close. */
  function Writes(calls: seq<Call>): seq<Bytes> {
    if calls == [] || calls[0].Close? then [] else [calls[0].data] + Writes(calls[1..])
  }

  function Closing(calls: seq<Call>): Option<Attributes> {
    if calls == [] then None
    else if calls[0].Close? then Some(calls[0].attributes)
    else Closing(calls[1..])
  }

  lemma {:induction false} ChunksAppend(id: StreamId, first: nat, a: seq<Bytes>, b: seq<Bytes>)
    ensures Chunks(id, first, a + b) == Chunks(id, first, a) + Chunks(id, first + |a|, b)
    decreases |a|
  {
    if a == [] {
      assert a + b == b;
    } else {
      assert (a + b)[1..] == a[1..] + b;
      ChunksAppend(id, first + 1, a[1..], b);
    }
  }

  lemma {:induction false} ChunkAt(id: StreamId, first: nat, contents: seq<Bytes>, k: nat)
    requires k < |contents|
    ensures Chunks(id, first, contents)[k] == Chunk(id, first + k, contents[k])
    decreases k
  {
    if k > 0 {
      ChunkAt(id, first + 1, contents[1..], k - 1);
    }
  }

  lemma {:induction false} ClosedEmitsNothing(c: Stream, w: WriterState, calls: seq<Call>)
    requires w.closed
    ensures Emitted(c, w, calls) == []
    decreases |calls|
  {
    if calls != [] {
      ClosedEmitsNothing(c, w, calls[1..]);
    }
  }

  /** Sending in two goes is sending once. */
  lemma ProgressJoin(c: Stream, w: WriterState, a: seq<Bytes>, b: seq<Bytes>)
    ensures var (mid, first) := Progress(c, w, a);
            var (end, second) := Progress(c, mid, b);
            Progress(c, w, a + b) == (end, first + second)
  {
    if a == [] {
      assert a + b == b;
      assert [] + Progress(c, w, b).1 == Progress(c, w, b).1;
    } else if b == [] {
      assert a + b == a;
      assert Progress(c, w, a).1 + [] == Progress(c, w, a).1;
    } else {
      ChunksAppend(c.id, w.next, a, b);
      var header, sent, rest := HeaderIfUnsent(c, w), Chunks(c.id, w.next, a), Chunks(c.id, w.next + |a|, b);
      assert [] + rest == rest;
      assert header + (sent + rest) == (header + sent) + rest;
    }
  }

  function ClosingPackets(c: Stream, w: WriterState, closing: Option<Attributes>): seq<Packet> {
    if closing.None? then [] else HeaderIfUnsent(c, w) + [Trailer(c.id, closing.value)]
  }

  lemma {:induction false} EmittedShape(c: Stream, w: WriterState, calls: seq<Call>)
    requires !w.closed
    ensures var (end, packets) := Progress(c, w, AllPieces(c.kind, Writes(calls)));
            Emitted(c, w, calls) == packets + ClosingPackets(c, end, Closing(calls))
    decreases |calls|
  {
    hide PiecesOf;
    if calls == [] {
      assert Progress(c, w, []) == (w, []);
    } else {
      var (w', packets) := AfterCall(c, w, calls[0]);
      if calls[0].Close? {
        ClosedEmitsNothing(c, w', calls[1..]);
        assert Progress(c, w, []) == (w, []);
        assert packets + [] == [] + packets;
      } else {
        assert w'.closed == w.closed;
        EmittedShape(c, w', calls[1..]);
        var pieces, rest := PiecesOf(c.kind, calls[0].data), AllPieces(c.kind, Writes(calls[1..]));
        assert Writes(calls)[1..] == Writes(calls[1..]);
        assert AllPieces(c.kind, Writes(calls)) == pieces + rest;
        hide Progress, AllPieces, Writes;
        ProgressJoin(c, w, pieces, rest);
        var (end, second) := Progress(c, w', rest);
        var closing := ClosingPackets(c, end, Closing(calls));
        assert packets + (second + closing) == packets + second + closing;
      }
    }
  }

  /** What a stream is on the wire: one header, chunks numbered from 0, one trailer. */
  function Session(c: Stream, pieces: seq<Bytes>, trailer: Attributes): seq<Packet> {
    [HeaderOf(c)] + Chunks(c.id, 0, pieces) + [Trailer(c.id, trailer)]
  }

  /**
   Any sequence of calls on a new writer, all of whose sends succeed: once closed it has sent exactly one header,
   the pieces of all the data written before the close, numbered from 0, and one trailer; later calls add nothing.
   */
  lemma WriterSendsSession(c: Stream, calls: seq<Call>)
    requires Closing(calls).Some?
    ensures Emitted(c, NewWriter, calls) == Session(c, AllPieces(c.kind, Writes(calls)), Closing(calls).value)
    ensures Concat(AllPieces(c.kind, Writes(calls))) == Concat(Writes(calls))
  {
    EmittedShape(c, NewWriter, calls);
    var pieces, trailer := AllPieces(c.kind, Writes(calls)), [Trailer(c.id, Closing(calls).value)];
    if pieces == [] {
      assert [] + ([HeaderOf(c)] + trailer) == [HeaderOf(c)] + [] + trailer;
    } else {
      var sent := [HeaderOf(c)] + Chunks(c.id, 0, pieces);
      assert sent + ([] + trailer) == sent + trailer;
    }
    AllPiecesCover(c.kind, Writes(calls));
  }

  lemma SessionAt(c: Stream, pieces: seq<Bytes>, trailer: Attributes, k: nat)
    requires k < |pieces| + 2
    ensures |Session(c, pieces, trailer)| == |pieces| + 2
    ensures Session(c, pieces, trailer)[k] ==
            if k == 0 then HeaderOf(c)
            else if k <= |pieces| then Chunk(c.id, k - 1, pieces[k - 1])
            else Trailer(c.id, trailer)
  {
    if 0 < k <= |pieces| {
      ChunkAt(c.id, 0, pieces, k - 1);
    }
  }

  // ---------------------------------------------------------------- one stream inside the room

  /** The room knows nothing of stream `id`. */
  ghost predicate Untouched(r: Router, id: StreamId) {
    && id !in r.textReaders && id !in r.byteReaders
    && forall k | 0 <= k < |r.readers| :: r.readers[k].id != id
  }

  /** Reader `ref` is the only one of stream `id`. */
  ghost predicate Sole(r: Router, id: StreamId, ref: Ref) {
    && ref < |r.readers| && r.readers[ref].id == id
    && forall k | 0 <= k < |r.readers| && r.readers[k].id == id :: k == ref
  }

  ghost predicate Routed(r: Router, id: StreamId, kind: Kind, ref: Ref) {
    if kind.Text? then id in r.textReaders && r.textReaders[id] == ref && id !in r.byteReaders
    else id !in r.textReaders && id in r.byteReaders && r.byteReaders[id] == ref
  }

  ghost predicate Unrouted(r: Router, id: StreamId) {
    id !in r.textReaders && id !in r.byteReaders
  }

  /** What reader `ref` holds when the first `got` packets of its stream have been delivered. */
  ghost predicate Holds(r: Reader, c: Stream, pieces: seq<Bytes>, trailer: Attributes, got: nat) {
    && r.kind == c.kind
    && if got <= |pieces| + 1
       then got >= 1 && !r.closed && r.attributes == c.attributes && r.yielded + r.queue == pieces[..got - 1]
       else r.closed && r.attributes == c.attributes + trailer && r.yielded + r.queue == pieces
  }

  ghost predicate Follows(r: Router, ref: Ref, c: Stream, pieces: seq<Bytes>, trailer: Attributes, got: nat) {
    && Sole(r, c.id, ref)
    && Holds(r.readers[ref], c, pieces, trailer, got)
    && if got <= |pieces| + 1 then Routed(r, c.id, c.kind, ref) else Unrouted(r, c.id)
  }

  lemma HeaderOpens(r: Router, c: Stream, pieces: seq<Bytes>, trailer: Attributes)
    requires r.Valid() && Untouched(r, c.id) && !c.kind.Unknown? && c.topic in r.Handlers(c.kind)
    ensures Follows(OnPacket(r, HeaderOf(c)), |r.readers|, c, pieces, trailer, 1)
    ensures OnPacket(r, HeaderOf(c)).readers[|r.readers|].handler == r.Handlers(c.kind)[c.topic]
  {
  }

  lemma ChunkAppends(r: Router, ref: Ref, c: Stream, pieces: seq<Bytes>, trailer: Attributes, got: nat)
    requires r.Valid() && !c.kind.Unknown? && 1 <= got <= |pieces|
    requires Follows(r, ref, c, pieces, trailer, got)
    ensures Follows(OnPacket(r, Chunk(c.id, got - 1, pieces[got - 1])), ref, c, pieces, trailer, got + 1)
  {
    var was := r.readers[ref];
    assert was.yielded + (was.queue + [pieces[got - 1]]) == pieces[..got];
  }

  lemma TrailerCloses(r: Router, ref: Ref, c: Stream, pieces: seq<Bytes>, trailer: Attributes)
    requires r.Valid() && !c.kind.Unknown?
    requires Follows(r, ref, c, pieces, trailer, |pieces| + 1)
    ensures Follows(OnPacket(r, Trailer(c.id, trailer)), ref, c, pieces, trailer, |pieces| + 2)
  {
  }

  /** Between `r` and `r'` nothing about stream `id` changed but what its readers have yielded. */
  ghost predicate Apart(r: Router, r': Router, id: StreamId) {
    && (id in r.textReaders <==> id in r'.textReaders)
    && (id in r.textReaders ==> r.textReaders[id] == r'.textReaders[id])
    && (id in r.byteReaders <==> id in r'.byteReaders)
    && (id in r.byteReaders ==> r.byteReaders[id] == r'.byteReaders[id])
    && |r.readers| <= |r'.readers|
    && (forall k | |r.readers| <= k < |r'.readers| :: r'.readers[k].id != id)
    && (forall k | 0 <= k < |r.readers| :: SameButRead(r.readers[k], r'.readers[k], id))
  }

  ghost predicate SameButRead(was: Reader, now: Reader, id: StreamId) {
    && was.id == now.id
    && (was.id == id ==>
          && now == was.(queue := now.queue, yielded := now.yielded)
          && now.yielded + now.queue == was.yielded + was.queue)
  }

  lemma ReadApart(r: Router, ref: Ref, id: StreamId)
    requires Enabled(r, Read(ref))
    ensures Apart(r, Apply(r, Read(ref)), id)
  {
    var was := r.readers[ref];
    if was.queue != [] {
      assert was.yielded + [was.queue[0]] + was.queue[1..] == was.yielded + was.queue;
    }
  }

  lemma HeaderApart(r: Router, packet: Packet, id: StreamId)
    requires r.Valid() && packet.Header? && packet.id != id
    ensures Apart(r, OnPacket(r, packet), id)
  {
  }

  lemma ChunkApart(r: Router, packet: Packet, id: StreamId)
    requires r.Valid() && packet.Chunk? && packet.id != id
    ensures Apart(r, OnPacket(r, packet), id)
  {
  }

  lemma TrailerApart(r: Router, packet: Packet, id: StreamId)
    requires r.Valid() && packet.Trailer? && packet.id != id
    ensures Apart(r, OnPacket(r, packet), id)
  {
  }

  lemma StepApart(r: Router, step: Step, id: StreamId)
    requires Enabled(r, step) && !IsFor(step, id)
    ensures Apart(r, Apply(r, step), id)
  {
    hide OnPacket, Apart;
    match step {
      case Deliver(packet) =>
        if packet.Header? {
          HeaderApart(r, packet, id);
        } else if packet.Chunk? {
          ChunkApart(r, packet, id);
        } else {
          TrailerApart(r, packet, id);
        }
      case Read(ref) => ReadApart(r, ref, id);
      case _ => HandlersApart(r, step, id);
    }
  }

  lemma HandlersApart(r: Router, step: Step, id: StreamId)
    requires Enabled(r, step) && (step.Register? || step.Unregister?)
    ensures Apart(r, Apply(r, step), id)
  {
    hide Apart, Router.Valid;
    var r' := Apply(r, step);
    SameIsApart(r, r', id);
  }

  lemma SameIsApart(r: Router, r': Router, id: StreamId)
    requires r'.textReaders == r.textReaders && r'.byteReaders == r.byteReaders && r'.readers == r.readers
    ensures Apart(r, r', id)
  {
  }

  lemma ApartKeepsFollows(r: Router, r': Router, ref: Ref, c: Stream, pieces: seq<Bytes>, trailer: Attributes,
                          got: nat)
    requires Apart(r, r', c.id) && Follows(r, ref, c, pieces, trailer, got)
    ensures Follows(r', ref, c, pieces, trailer, got)
  {
    assert SameButRead(r.readers[ref], r'.readers[ref], c.id);
    forall k | 0 <= k < |r'.readers| && r'.readers[k].id == c.id
      ensures k == ref
    {
      assert SameButRead(r.readers[k], r'.readers[k], c.id);
    }
  }

  lemma ApartKeepsUntouched(r: Router, r': Router, id: StreamId)
    requires Apart(r, r', id) && Untouched(r, id)
    ensures Untouched(r', id)
  {
    forall k | 0 <= k < |r'.readers|
      ensures r'.readers[k].id != id
    {
      if k < |r.readers| {
        assert SameButRead(r.readers[k], r'.readers[k], id);
      }
    }
  }

  /** The reader that stream `c` has once `got` of its packets have been delivered. */
  lemma NextPacket(r: Router, ref: Ref, c: Stream, pieces: seq<Bytes>, trailer: Attributes, got: nat)
    returns (ref': Ref)
    requires r.Valid() && !c.kind.Unknown? && got < |pieces| + 2
    requires if got == 0 then Untouched(r, c.id) && c.topic in r.Handlers(c.kind)
             else Follows(r, ref, c, pieces, trailer, got)
    ensures Follows(OnPacket(r, Session(c, pieces, trailer)[got]), ref', c, pieces, trailer, got + 1)
    ensures got > 0 ==> ref' == ref
  {
    SessionAt(c, pieces, trailer, got);
    if got == 0 {
      ref' := |r.readers|;
      HeaderOpens(r, c, pieces, trailer);
    } else {
      ref' := ref;
      if got <= |pieces| {
        ChunkAppends(r, ref, c, pieces, trailer, got);
      } else {
        TrailerCloses(r, ref, c, pieces, trailer);
      }
    }
  }

  // ---------------------------------------------------------------- runs

  lemma DeliveredLast(steps: seq<Step>, id: StreamId)
    requires steps != []
    ensures var last, before := steps[|steps| - 1], Delivered(steps[..|steps| - 1], id);
            Delivered(steps, id) == if IsFor(last, id) then before + [last.packet] else before
  {
  }

  lemma RunPrefix(states: seq<Router>, steps: seq<Step>)
    requires IsRun(states, steps) && steps != []
    ensures IsRun(states[..|steps|], steps[..|steps| - 1])
  {
  }

  /** After any part of a stream has been delivered, in any run, its reader holds exactly that part. */
  lemma {:induction false} Following(states: seq<Router>, steps: seq<Step>, c: Stream,
                                     pieces: seq<Bytes>, trailer: Attributes)
    returns (ref: Ref)
    requires IsRun(states, steps) && !c.kind.Unknown? && Registered(states, steps, c)
    requires Delivered(steps, c.id) <= Session(c, pieces, trailer)
    ensures var got := |Delivered(steps, c.id)|;
            if got == 0 then Untouched(states[|steps|], c.id)
            else Follows(states[|steps|], ref, c, pieces, trailer, got)
    decreases |steps|
  {
    SessionAt(c, pieces, trailer, 0);
    if steps == [] {
      ref := 0;
    } else {
      var n := |steps| - 1;
      var before := Delivered(steps[..n], c.id);
      var got := |before|;
      hide Follows, Untouched, Apart, OnPacket, Router.Valid;
      DeliveredLast(steps, c.id);
      RunPrefix(states, steps);
      ref := Following(states[..n + 1], steps[..n], c, pieces, trailer);
      var r := states[n];
      assert Enabled(r, steps[n]) && states[n + 1] == Apply(r, steps[n]);
      if IsFor(steps[n], c.id) {
        assert Delivered(steps, c.id)[got] == steps[n].packet == Session(c, pieces, trailer)[got];
        ref := NextPacket(r, ref, c, pieces, trailer, got);
      } else {
        StepApart(r, steps[n], c.id);
        if got == 0 {
          ApartKeepsUntouched(r, states[n + 1], c.id);
        } else {
          ApartKeepsFollows(r, states[n + 1], ref, c, pieces, trailer, got);
        }
      }
    }
  }

  /** Reader `ref` is the stream's only one, closed, with the trailer's attributes merged over the header's. */
  ghost predicate Received(r: Router, ref: Ref, c: Stream, written: Bytes, trailer: Attributes) {
    && Sole(r, c.id, ref)
    && var reader := r.readers[ref];
       && reader.closed
       && reader.kind == c.kind
       && reader.attributes == c.attributes + trailer
       && Concat(reader.yielded + reader.queue) == written
       && (reader.queue == [] ==> Concat(reader.yielded) == written)
  }

  /**
   End to end: if the packets of stream `c` among a run's deliveries are, in order, what a writer emitted for
   `calls` up to and including its close, then the stream has exactly one reader and what that reader has yielded,
   followed by what it still holds, is what was written.
   */
  lemma RoundTrip(states: seq<Router>, steps: seq<Step>, c: Stream, calls: seq<Call>) returns (ref: Ref)
    requires IsRun(states, steps) && !c.kind.Unknown? && Registered(states, steps, c)
    requires Closing(calls).Some?
    requires Delivered(steps, c.id) == Emitted(c, NewWriter, calls)
    ensures Received(states[|steps|], ref, c, Concat(Writes(calls)), Closing(calls).value)
    ensures Unrouted(states[|steps|], c.id)
  {
    var pieces, trailer := AllPieces(c.kind, Writes(calls)), Closing(calls).value;
    WriterSendsSession(c, calls);
    SessionAt(c, pieces, trailer, 0);
    ref := Following(states, steps, c, pieces, trailer);
    var reader := states[|steps|].readers[ref];
    assert reader.queue == [] ==> reader.yielded + reader.queue == reader.yielded;
  }

  /** Some reader has received everything that `calls` wrote before their close. */
  ghost predicate HasReceived(r: Router, c: Stream, calls: seq<Call>)
    requires Closing(calls).Some?
  {
    exists ref :: Received(r, ref, c, Concat(Writes(calls)), Closing(calls).value)
  }

  /** Any number of writers with distinct ids, whose packets are merged in any order that keeps each writer's own. */
  lemma RoundTripAll(states: seq<Router>, steps: seq<Step>, writers: map<Stream, seq<Call>>)
    requires IsRun(states, steps)
    requires forall c, d | c in writers && d in writers && c.id == d.id :: c == d
    requires forall c | c in writers :: !c.kind.Unknown? && Registered(states, steps, c) && Closing(writers[c]).Some?
    requires forall c | c in writers :: Delivered(steps, c.id) == Emitted(c, NewWriter, writers[c])
    ensures forall c | c in writers :: HasReceived(states[|steps|], c, writers[c])
  {
    forall c | c in writers
      ensures HasReceived(states[|steps|], c, writers[c])
    {
      var ref := RoundTrip(states, steps, c, writers[c]);
    }
  }

  // ---------------------------------------------------------------- streams nobody asked for

  /** A header for which no handler is registered at that moment. */
  ghost predicate NeverRegistered(states: seq<Router>, steps: seq<Step>, id: StreamId)
    requires |states| == |steps| + 1
  {
    forall i | 0 <= i < |steps| && IsFor(steps[i], id) && steps[i].packet.Header? ::
      steps[i].packet.topic !in states[i].Handlers(steps[i].packet.kind)
  }

  /** If no handler is registered when the header arrives the whole stream is dropped, later registration or not. */
  lemma {:induction false} UnhandledStreamIsDropped(states: seq<Router>, steps: seq<Step>, id: StreamId)
    requires IsRun(states, steps) && NeverRegistered(states, steps, id)
    ensures Untouched(states[|steps|], id)
    decreases |steps|
  {
    if steps != [] {
      var n := |steps| - 1;
      RunPrefix(states, steps);
      UnhandledStreamIsDropped(states[..n + 1], steps[..n], id);
      var r := states[n];
      assert Enabled(r, steps[n]) && states[n + 1] == Apply(r, steps[n]);
      if !IsFor(steps[n], id) {
        StepApart(r, steps[n], id);
        ApartKeepsUntouched(r, states[n + 1], id);
      }
    }
  }
}
