/**
 Stream writers, readers and the room's reader tables with their mutable fields (src/data_stream.cpp and the stream
 cases of onEvent in src/room.cpp). Postconditions equate each method's effect with the functions of DataStreamSpec.
 */
module DataStreamObjects {
  import opened Common
  import opened DataStreamSpec
  import SplitUtf8
  import DataStreamSafety

  // ---------------------------------------------------------------- writers

  /** The FFI send requests: each is answered with success or with an error, and only successes reach the wire. */
  class Link {
    const outcomes: Outcomes
    var sends: nat
    var sent: seq<Packet>

    constructor (outcomes: Outcomes)
      ensures this.outcomes == outcomes && sends == 0 && sent == []
    {
      this.outcomes := outcomes;
      sends, sent := 0, [];
    }

    method Send(packet: Packet) returns (ok: bool)
      modifies this
      ensures ok == outcomes(old(sends)) && sends == old(sends) + 1
      ensures sent == if ok then old(sent) + [packet] else old(sent)
    {
      ok := outcomes(sends);
      sends := sends + 1;
      if ok {
        sent := sent + [packet];
      }
    }
  }

  lemma BlocksUnfold(data: Bytes, offset: nat)
    requires offset < |data|
    ensures var n := SplitUtf8.Min(STREAM_CHUNK_SIZE, |data| - offset);
            && Blocks(data, offset) != []
            && Blocks(data, offset)[0] == data[offset..offset + n]
            && Blocks(data, offset)[1..] == Blocks(data, offset + n)
  {
  }

  /** `ok` is false where the source throws. */
  class StreamWriter {
    const link: Link
    const stream: Stream
    var headerSent: bool
    var closed: bool
    var next: nat
    ghost var attempts: seq<bool>

    ghost function View(): Line
      reads this, link
    {
      Line(WriterState(headerSent, closed, next), link.sends, link.sent, attempts)
    }

    constructor (link: Link, stream: Stream)
      ensures this.link == link && this.stream == stream
      ensures View() == Line(NewWriter, link.sends, link.sent, [])
    {
      this.link, this.stream := link, stream;
      headerSent, closed, next, attempts := false, false, 0, [];
    }

    method EnsureHeaderSent() returns (ok: bool)
      modifies this`headerSent, link
      ensures (View(), ok) == SendHeaderOn(stream, old(View()), link.outcomes)
    {
      if headerSent {
        return true;
      }
      ok := link.Send(HeaderOf(stream));
      if ok {
        headerSent := true;
      }
    }

    method SendChunk(content: Bytes) returns (ok: bool)
      modifies this`headerSent, this`next, this`attempts, link
      ensures (View(), ok) == if old(closed) then (old(View()), false)
                              else SendChunkOn(stream, old(View()), link.outcomes, content)
    {
      if closed {
        return false;
      }
      ok := EnsureHeaderSent();
      if !ok {
        return;
      }
      var chunk := Chunk(stream.id, next, content);
      next := next + 1;
      ok := link.Send(chunk);
      attempts := attempts + [ok];
    }

    method SendTrailer(attributes: Attributes) returns (ok: bool)
      modifies this`headerSent, link
      ensures (View(), ok) == SendTrailerOn(stream, old(View()), link.outcomes, attributes)
    {
      ok := EnsureHeaderSent();
      if ok {
        ok := link.Send(Trailer(stream.id, attributes));
      }
    }

    /** A refused trailer leaves the writer closed, so it cannot be sent again. */
    method CloseStream(attributes: Attributes) returns (ok: bool)
      modifies this`headerSent, this`closed, link
      ensures (View(), ok) == CallOn(stream, old(View()), link.outcomes, Close(attributes))
      ensures closed
    {
      if closed {
        return false;
      }
      closed := true;
      ok := SendTrailer(attributes);
    }

    /** TextStreamWriter::write */
    method WriteText(text: Bytes) returns (ok: bool)
      requires stream.kind.Text?
      modifies this`headerSent, this`next, this`attempts, link
      ensures (View(), ok) == CallOn(stream, old(View()), link.outcomes, Write(text))
    {
      if closed {
        return false;
      }
      var pieces := SplitUtf8.Split(text, STREAM_CHUNK_SIZE);
      ghost var all := SendPiecesOn(stream, View(), link.outcomes, pieces);
      for k := 0 to |pieces|
        invariant !closed
        invariant SendPiecesOn(stream, View(), link.outcomes, pieces[k..]) == all
      {
        assert pieces[k..][0] == pieces[k] && pieces[k..][1..] == pieces[k + 1..];
        ok := SendChunk(pieces[k]);
        if !ok {
          return;
        }
      }
      ok := true;
    }

    /** ByteStreamWriter::write */
    method WriteBytes(data: Bytes) returns (ok: bool)
      requires stream.kind.Binary?
      modifies this`headerSent, this`next, this`attempts, link
      ensures (View(), ok) == CallOn(stream, old(View()), link.outcomes, Write(data))
    {
      if closed {
        return false;
      }
      ghost var all := SendPiecesOn(stream, View(), link.outcomes, Blocks(data, 0));
      var offset := 0;
      while offset < |data|
        invariant offset <= |data| && !closed
        invariant SendPiecesOn(stream, View(), link.outcomes, Blocks(data, offset)) == all
        decreases |data| - offset
      {
        var n := if STREAM_CHUNK_SIZE <= |data| - offset then STREAM_CHUNK_SIZE else |data| - offset;
        BlocksUnfold(data, offset);
        hide SendChunkOn, Blocks;
        ok := SendChunk(data[offset..offset + n]);
        if !ok {
          return;
        }
        offset := offset + n;
      }
      ok := true;
    }
  }

  // ---------------------------------------------------------------- readers

  /** What other threads do to a reader while a user thread reads from it. */
  datatype Update = ChunkUpdate(content: Bytes) | StreamClose(trailer: Attributes)

  datatype Read = Next(chunk: Bytes) | End | Blocked

  function Updated(r: Reader, update: Update): Reader {
    match update
    case ChunkUpdate(content) => r.OnChunk(content)
    case StreamClose(trailer) => r.OnClose(trailer)
  }

  /** The reader when the wait ends, or when the arrivals are used up, and the arrivals that come later. */
  function Awaited(r: Reader, arrivals: seq<Update>): (end: (Reader, seq<Update>))
    ensures |end.0.queue| + |end.1| <= |r.queue| + |arrivals|
    ensures end.0.CanRead() || end.1 == []
    ensures r.CanRead() ==> end == (r, arrivals)
    decreases |arrivals|
  {
    if r.CanRead() || arrivals == [] then (r, arrivals) else Awaited(Updated(r, arrivals[0]), arrivals[1..])
  }

  predicate Closes(arrivals: seq<Update>) {
    arrivals != [] && (arrivals[0].StreamClose? || Closes(arrivals[1..]))
  }

  function BeforeClose(arrivals: seq<Update>): seq<Bytes> {
    if arrivals == [] || arrivals[0].StreamClose? then [] else [arrivals[0].content] + BeforeClose(arrivals[1..])
  }

  /** What is queued, then what arrives before the stream is closed. */
  function Due(r: Reader, arrivals: seq<Update>): Bytes {
    Concat(r.queue) + if r.closed then [] else Concat(BeforeClose(arrivals))
  }

  /** Waiting loses nothing. */
  lemma {:induction false} AwaitedDue(r: Reader, arrivals: seq<Update>)
    ensures var (r', rest) := Awaited(r, arrivals);
            Due(r', rest) == Due(r, arrivals) && (r'.closed || Closes(rest) <==> r.closed || Closes(arrivals))
    decreases |arrivals|
  {
    if !r.CanRead() && arrivals != [] {
      var r1 := Updated(r, arrivals[0]);
      AwaitedDue(r1, arrivals[1..]);
      if arrivals[0].ChunkUpdate? {
        assert r1.queue == [arrivals[0].content] && r1.queue[1..] == [];
        assert Concat(r1.queue) == arrivals[0].content + [];
        assert Due(r1, arrivals[1..]) == Due(r, arrivals);
      }
    }
  }

  lemma FirstDue(r: Reader, arrivals: seq<Update>)
    requires r.queue != []
    ensures Due(r, arrivals) == r.queue[0] + Due(r.ReadNext(), arrivals)
  {
    hide BeforeClose;
    var later: Bytes := if r.closed then [] else Concat(BeforeClose(arrivals));
    assert (r.queue[0] + Concat(r.queue[1..])) + later == r.queue[0] + (Concat(r.queue[1..]) + later);
  }

  /** The wait ends with the next chunk that is due, or with nothing due, or with nothing that closes the stream. */
  lemma NextDue(r: Reader, arrivals: seq<Update>)
    ensures var (awaited, left) := Awaited(r, arrivals);
            && (if awaited.queue != [] then Due(r, arrivals) == awaited.queue[0] + Due(awaited.ReadNext(), left)
                else awaited.closed ==> Due(r, arrivals) == [] == Due(awaited, left))
            && (r.closed || Closes(arrivals) <==> awaited.closed || Closes(left))
            && (awaited.CanRead() || !(r.closed || Closes(arrivals)))
  {
    hide Awaited, BeforeClose;
    AwaitedDue(r, arrivals);
    var (awaited, left) := Awaited(r, arrivals);
    if awaited.queue != [] {
      FirstDue(awaited, left);
      hide Due;
    }
  }

  class StreamReader {
    const id: StreamId
    const kind: Kind
    const handler: Handler
    var attributes: Attributes
    var queue: seq<Bytes>
    var closed: bool
    ghost var yielded: seq<Bytes>

    ghost function View(): Reader
      reads this
    {
      Reader(id, kind, handler, attributes, queue, closed, yielded)
    }

    constructor (id: StreamId, kind: Kind, handler: Handler, attributes: Attributes)
      ensures View() == Reader(id, kind, handler, attributes, [], false, [])
    {
      this.id, this.kind, this.handler, this.attributes := id, kind, handler, attributes;
      queue, closed, yielded := [], false, [];
    }

    method OnChunkUpdate(content: Bytes)
      modifies this
      ensures View() == old(View()).OnChunk(content)
    {
      if closed {
        return;
      }
      queue := queue + [content];
    }

    method OnStreamClose(trailer: Attributes)
      modifies this
      ensures View() == old(View()).OnClose(trailer)
    {
      attributes := attributes + trailer;
      closed := true;
    }

    /** The wait on the condition variable: `arrivals` are the updates that other threads make meanwhile. */
    method Wait(arrivals: seq<Update>) returns (rest: seq<Update>)
      modifies this
      ensures (View(), rest) == Awaited(old(View()), arrivals)
    {
      rest := arrivals;
      while queue == [] && !closed && rest != []
        invariant Awaited(View(), rest) == Awaited(old(View()), arrivals)
        decreases |rest|
      {
        match rest[0] {
          case ChunkUpdate(content) => OnChunkUpdate(content);
          case StreamClose(trailer) => OnStreamClose(trailer);
        }
        rest := rest[1..];
      }
    }

    /** Next if a chunk came first, End if the stream ended first, Blocked as long as neither has come. */
    method ReadNext(arrivals: seq<Update>) returns (out: Read, rest: seq<Update>)
      modifies this
      ensures var (awaited, left) := Awaited(old(View()), arrivals);
              && rest == left && View() == awaited.ReadNext()
              && out == if awaited.queue != [] then Next(awaited.queue[0]) else if awaited.closed then End else Blocked
    {
      rest := Wait(arrivals);
      if queue == [] {
        return if closed then End else Blocked, rest;
      }
      out := Next(queue[0]);
      yielded := yielded + [queue[0]];
      queue := queue[1..];
    }

    /**
     readAll: it returns exactly if the stream is closed already or one of the arrivals closes it, with what was queued
     followed by what arrived before the close.
     */
    method ReadAll(arrivals: seq<Update>) returns (all: Option<Bytes>)
      modifies this
      ensures all == if old(closed) || Closes(arrivals) then Some(Due(old(View()), arrivals)) else None
      ensures all.Some? ==> queue == [] && closed
    {
      hide Awaited, Due, Closes;
      var result: Bytes := [];
      var rest := arrivals;
      var more := true;
      while more
        invariant Due(old(View()), arrivals) == result + Due(View(), rest)
        invariant old(closed) || Closes(arrivals) <==> closed || Closes(rest)
        invariant !more ==> closed && queue == [] && Due(View(), rest) == []
        decreases |queue| + |rest|, more
      {
        ghost var before := View();
        NextDue(before, rest);
        var out, left := ReadNext(rest);
        match out {
          case Next(chunk) =>
            assert result + (chunk + Due(View(), left)) == (result + chunk) + Due(View(), left);
            result := result + chunk;
          case End => more := false;
          case Blocked => return None;
        }
        rest := left;
      }
      assert result + [] == result;
      all := Some(result);
    }
  }

  // ---------------------------------------------------------------- the room's tables

  /** `table` holds the objects whose positions in `made` are given by `refs`. */
  ghost predicate Matches(table: map<StreamId, StreamReader>, refs: map<StreamId, Ref>, made: seq<StreamReader>) {
    && table.Keys == refs.Keys
    && forall id | id in table :: refs[id] < |made| && table[id] == made[refs[id]]
  }

  lemma MatchesInsert(table: map<StreamId, StreamReader>, refs: map<StreamId, Ref>, made: seq<StreamReader>,
                      id: StreamId, reader: StreamReader)
    requires Matches(table, refs, made)
    ensures Matches(table[id := reader], refs[id := |made|], made + [reader])
    ensures Matches(table, refs, made + [reader])
  {
  }

  lemma MatchesErase(table: map<StreamId, StreamReader>, refs: map<StreamId, Ref>, made: seq<StreamReader>,
                     id: StreamId)
    requires Matches(table, refs, made)
    ensures Matches(table - {id}, refs - {id}, made)
    ensures id in table <==> id in refs
    ensures id in table ==> refs[id] < |made| && table[id] == made[refs[id]]
  {
  }

  lemma RemoveAbsentFrom(table: map<StreamId, StreamReader>, id: StreamId)
    ensures id !in table ==> table - {id} == table
  {
    if id !in table {
      RemoveAbsent(table, id);
    }
  }

  /** OnPacket's trailer case, part by part. */
  lemma TrailerParts(r: Router, id: StreamId, attributes: Attributes)
    requires r.Valid()
    ensures var r' := OnPacket(r, Trailer(id, attributes));
            && r'.textHandlers == r.textHandlers && r'.byteHandlers == r.byteHandlers
            && r'.textReaders == r.textReaders - {id}
            && r'.byteReaders == (if id in r.textReaders then r.byteReaders else r.byteReaders - {id})
            && r'.readers == match r.Find(id)
                             case None => r.readers
                             case Some(ref) => r.readers[ref := r.readers[ref].OnClose(attributes)]
  {
    if r.Find(id).None? {
      RemoveAbsent(r.textReaders, id);
      RemoveAbsent(r.byteReaders, id);
    }
  }

  class StreamRouter {
    var textHandlers: map<Topic, Handler>
    var byteHandlers: map<Topic, Handler>
    var textReaders: map<StreamId, StreamReader>
    var byteReaders: map<StreamId, StreamReader>
    /** Every reader made so far, with those the tables have forgotten and only their handlers still hold. */
    ghost var made: seq<StreamReader>

    ghost predicate Represents(r: Router)
      reads this, made
    {
      Tables(r) && Readers(r.readers)
    }

    ghost predicate Tables(r: Router)
      reads this
    {
      && r.Valid()
      && textHandlers == r.textHandlers && byteHandlers == r.byteHandlers
      && Matches(textReaders, r.textReaders, made) && Matches(byteReaders, r.byteReaders, made)
    }

    ghost predicate Readers(readers: seq<Reader>)
      reads this`made, made
    {
      && |made| == |readers|
      && (forall i, j | 0 <= i < j < |made| :: made[i] != made[j])
      && (forall i | 0 <= i < |made| :: made[i].View() == readers[i])
    }

    constructor ()
      ensures Represents(EmptyRouter)
    {
      textHandlers, byteHandlers, textReaders, byteReaders := map[], map[], map[], map[];
      made := [];
    }

    method RegisterTextStreamHandler(topic: Topic, handler: Handler, ghost r: Router) returns (ok: bool)
      requires Represents(r)
      modifies this`textHandlers
      ensures Represents(Apply(r, Register(Text, topic, handler)))
      ensures ok <==> topic !in old(textHandlers)
      ensures textHandlers == if ok then old(textHandlers)[topic := handler] else old(textHandlers)
    {
      ok := topic !in textHandlers;
      if ok {
        textHandlers := textHandlers[topic := handler];
      }
    }

    method UnregisterTextStreamHandler(topic: Topic, ghost r: Router)
      requires Represents(r)
      modifies this`textHandlers
      ensures Represents(Apply(r, Unregister(Text, topic)))
    {
      textHandlers := textHandlers - {topic};
    }

    method RegisterByteStreamHandler(topic: Topic, handler: Handler, ghost r: Router) returns (ok: bool)
      requires Represents(r)
      modifies this`byteHandlers
      ensures Represents(Apply(r, Register(Binary, topic, handler)))
      ensures ok <==> topic !in old(byteHandlers)
      ensures byteHandlers == if ok then old(byteHandlers)[topic := handler] else old(byteHandlers)
    {
      ok := topic !in byteHandlers;
      if ok {
        byteHandlers := byteHandlers[topic := handler];
      }
    }

    method UnregisterByteStreamHandler(topic: Topic, ghost r: Router)
      requires Represents(r)
      modifies this`byteHandlers
      ensures Represents(Apply(r, Unregister(Binary, topic)))
    {
      byteHandlers := byteHandlers - {topic};
    }

    method MakeReader(id: StreamId, kind: Kind, handler: Handler, attributes: Attributes, ghost readers: seq<Reader>)
      returns (reader: StreamReader)
      requires Readers(readers)
      modifies this`made
      ensures fresh(reader) && made == old(made) + [reader] && reader.handler == handler
      ensures Readers(readers + [Reader(id, kind, handler, attributes, [], false, [])])
    {
      reader := new StreamReader(id, kind, handler, attributes);
      made := made + [reader];
    }

    /** `handed` is the reader passed to the handler that was registered for the header's kind and topic. */
    method HeaderReceived(id: StreamId, kind: Kind, topic: Topic, attributes: Attributes, ghost r: Router)
      returns (handed: Option<StreamReader>)
      requires Represents(r)
      modifies this
      ensures Represents(OnPacket(r, Header(id, kind, topic, attributes)))
      ensures handed.Some? <==> topic in r.Handlers(kind)
      ensures handed.Some? ==> fresh(handed.value) && made == old(made) + [handed.value]
      ensures handed.Some? ==> handed.value.handler == r.Handlers(kind)[topic]
    {
      hide Matches, Readers, Router.Valid;
      match kind {
        case Text =>
          if topic !in textHandlers {
            return None;
          }
          var reader := MakeReader(id, kind, textHandlers[topic], attributes, r.readers);
          textReaders := textReaders[id := reader];
          MatchesInsert(old(textReaders), r.textReaders, old(made), id, reader);
          MatchesInsert(old(byteReaders), r.byteReaders, old(made), id, reader);
          handed := Some(reader);
        case Binary =>
          if topic !in byteHandlers {
            return None;
          }
          var reader := MakeReader(id, kind, byteHandlers[topic], attributes, r.readers);
          byteReaders := byteReaders[id := reader];
          MatchesInsert(old(textReaders), r.textReaders, old(made), id, reader);
          MatchesInsert(old(byteReaders), r.byteReaders, old(made), id, reader);
          handed := Some(reader);
        case Unknown =>
          return None;
      }
    }

    method ChunkReceived(id: StreamId, index: nat, content: Bytes, ghost r: Router)
      requires Represents(r)
      modifies made
      ensures Represents(OnPacket(r, Chunk(id, index, content)))
    {
      MatchesErase(textReaders, r.textReaders, made, id);
      MatchesErase(byteReaders, r.byteReaders, made, id);
      hide Matches;
      var reader := if id in textReaders then Some(textReaders[id])
                    else if id in byteReaders then Some(byteReaders[id])
                    else None;
      if reader.Some? {
        reader.value.OnChunkUpdate(content);
      }
    }

    /** The part of a trailer's handling that holds the room's lock: look the reader up and forget it. */
    method TakeReader(id: StreamId, ghost r: Router) returns (reader: Option<StreamReader>)
      requires Tables(r) && Readers(r.readers)
      modifies this`textReaders, this`byteReaders
      ensures reader.Some? <==> r.Find(id).Some?
      ensures reader.Some? ==> r.Find(id).value < |made| && reader.value == made[r.Find(id).value]
      ensures textHandlers == old(textHandlers) && byteHandlers == old(byteHandlers)
      ensures Matches(textReaders, r.Erase(id).textReaders, made) && Matches(byteReaders, r.Erase(id).byteReaders, made)
    {
      MatchesErase(textReaders, r.textReaders, made, id);
      MatchesErase(byteReaders, r.byteReaders, made, id);
      hide Matches, Router.Valid, Readers;
      RemoveAbsentFrom(textReaders, id);
      RemoveAbsentFrom(byteReaders, id);
      if id in textReaders {
        reader := Some(textReaders[id]);
        textReaders := textReaders - {id};
      } else if id in byteReaders {
        reader := Some(byteReaders[id]);
        byteReaders := byteReaders - {id};
      } else {
        reader := None;
      }
    }

    method CloseReader(reader: StreamReader, attributes: Attributes, ghost readers: seq<Reader>, ghost ref: Ref)
      requires Readers(readers) && ref < |made| && made[ref] == reader
      modifies reader
      ensures ref < |readers| && Readers(readers[ref := readers[ref].OnClose(attributes)])
    {
      reader.OnStreamClose(attributes);
    }

    method TrailerReceived(id: StreamId, attributes: Attributes, ghost r: Router)
      requires Represents(r)
      modifies this`textReaders, this`byteReaders, made
      ensures Represents(OnPacket(r, Trailer(id, attributes)))
    {
      TrailerParts(r, id, attributes);
      hide Matches, OnPacket, Router.Valid, Readers;
      var reader := TakeReader(id, r);
      if reader.Some? {
        CloseReader(reader.value, attributes, r.readers, r.Find(id).value);
      }
    }
  }
}
