/**
 Data streams (src/data_stream.cpp, and the stream cases of onEvent in src/room.cpp): what a writer sends, what the
 room does with each received packet, and runs in which packets, user reads and handler changes interleave.
 */
module DataStreamSpec {
  import opened Common
  import SplitUtf8

  type StreamId = string
  type Topic = string
  type Handler = nat
  type Ref = nat
  type Attributes = map<string, string>

  const STREAM_CHUNK_SIZE := 15000

  /** Which content header the stream header carries; Unknown stands for none. */
  datatype Kind = Text | Binary | Unknown

  datatype Packet =
    | Header(id: StreamId, kind: Kind, topic: Topic, attributes: Attributes)
    | Chunk(id: StreamId, index: nat, content: Bytes)
    | Trailer(id: StreamId, attributes: Attributes)

  // ---------------------------------------------------------------- the writer

  datatype Stream = Stream(id: StreamId, kind: Kind, topic: Topic, attributes: Attributes)

  datatype WriterState = WriterState(headerSent: bool, closed: bool, next: nat)

  const NewWriter := WriterState(false, false, 0)

  /** ByteStreamWriter::write's blocks from `offset` on. */
  function Blocks(data: Bytes, offset: nat): seq<Bytes>
    requires offset <= |data|
    decreases |data| - offset
  {
    if offset == |data| then [] else
      var n := SplitUtf8.Min(STREAM_CHUNK_SIZE, |data| - offset);
      [data[offset..offset + n]] + Blocks(data, offset + n)
  }

  function PiecesOf(kind: Kind, data: Bytes): seq<Bytes> {
    if kind.Text? then SplitUtf8.SplitText(data, STREAM_CHUNK_SIZE) else Blocks(data, 0)
  }

  function HeaderOf(c: Stream): Packet { Header(c.id, c.kind, c.topic, c.attributes) }

  function HeaderIfUnsent(c: Stream, w: WriterState): seq<Packet> {
    if w.headerSent then [] else [HeaderOf(c)]
  }

  function Chunks(id: StreamId, first: nat, contents: seq<Bytes>): (packets: seq<Packet>)
    ensures |packets| == |contents|
    decreases |contents|
  {
    if contents == [] then [] else [Chunk(id, first, contents[0])] + Chunks(id, first + 1, contents[1..])
  }

  datatype Call = Write(data: Bytes) | Close(attributes: Attributes)

  /** What sending `contents` in order adds to a writer's state and to the wire when every send succeeds. */
  function Progress(c: Stream, w: WriterState, contents: seq<Bytes>): (WriterState, seq<Packet>) {
    if contents == [] then (w, [])
    else (w.(headerSent := true, next := w.next + |contents|), HeaderIfUnsent(c, w) + Chunks(c.id, w.next, contents))
  }

  /** The state and packets one call leaves when every send succeeds; a call on a closed writer throws. */
  function AfterCall(c: Stream, w: WriterState, call: Call): (WriterState, seq<Packet>) {
    if w.closed then (w, [])
    else
      match call
      case Write(data) => Progress(c, w, PiecesOf(c.kind, data))
      case Close(attributes) =>
        (w.(headerSent := true, closed := true), HeaderIfUnsent(c, w) + [Trailer(c.id, attributes)])
  }

  function Emitted(c: Stream, w: WriterState, calls: seq<Call>): seq<Packet>
    decreases |calls|
  {
    if calls == [] then []
    else
      var (w', packets) := AfterCall(c, w, calls[0]);
      packets + Emitted(c, w', calls[1..])
  }

  // ---------------------------------------------------------------- the writer when sends can fail

  /** Whether the n-th send succeeds. */
  type Outcomes = nat -> bool

  /**
   A writer and its link: how many sends were made, what reached the wire, and, as history, for each chunk that was
   attempted whether its send succeeded.
   */
  datatype Line = Line(w: WriterState, sends: nat, sent: seq<Packet>, attempts: seq<bool>)

  const NewLine := Line(NewWriter, 0, [], [])

  function SendOn(l: Line, o: Outcomes, packet: Packet): (Line, bool) {
    if o(l.sends) then (l.(sends := l.sends + 1, sent := l.sent + [packet]), true)
    else (l.(sends := l.sends + 1), false)
  }

  /** ensureHeaderSent */
  function SendHeaderOn(c: Stream, l: Line, o: Outcomes): (Line, bool) {
    if l.w.headerSent then (l, true)
    else
      var (l', ok) := SendOn(l, o, HeaderOf(c));
      (if ok then l'.(w := l.w.(headerSent := true)) else l', ok)
  }

  /** sendChunk on a writer that is not closed: the number is taken before the send. */
  function SendChunkOn(c: Stream, l: Line, o: Outcomes, content: Bytes): (Line, bool) {
    var (l1, headerOk) := SendHeaderOn(c, l, o);
    if !headerOk then (l1, false)
    else
      var (l2, ok) := SendOn(l1.(w := l1.w.(next := l1.w.next + 1)), o, Chunk(c.id, l1.w.next, content));
      (l2.(attempts := l2.attempts + [ok]), ok)
  }

  /** The loops of both write methods: the first refused send ends the call. */
  function SendPiecesOn(c: Stream, l: Line, o: Outcomes, pieces: seq<Bytes>): (Line, bool)
    decreases |pieces|
  {
    if pieces == [] then (l, true)
    else
      var (l', ok) := SendChunkOn(c, l, o, pieces[0]);
      if ok then SendPiecesOn(c, l', o, pieces[1..]) else (l', false)
  }

  /** sendTrailer */
  function SendTrailerOn(c: Stream, l: Line, o: Outcomes, attributes: Attributes): (Line, bool) {
    var (l', ok) := SendHeaderOn(c, l, o);
    if ok then SendOn(l', o, Trailer(c.id, attributes)) else (l', false)
  }

  /** One call, and whether it returned normally. */
  function CallOn(c: Stream, l: Line, o: Outcomes, call: Call): (Line, bool) {
    if l.w.closed then (l, false)
    else
      match call
      case Write(data) => SendPiecesOn(c, l, o, PiecesOf(c.kind, data))
      case Close(attributes) => SendTrailerOn(c, l.(w := l.w.(closed := true)), o, attributes)
  }

  /** Any calls, made whatever became of the earlier ones. */
  function CallsOn(c: Stream, l: Line, o: Outcomes, calls: seq<Call>): Line
    decreases |calls|
  {
    if calls == [] then l else CallsOn(c, CallOn(c, l, o, calls[0]).0, o, calls[1..])
  }

  // ---------------------------------------------------------------- the reader

  /** `yielded` is the history of what readNext has returned, and `handler` who was given the reader. */
  datatype Reader = Reader(
    id: StreamId, kind: Kind, handler: Handler, attributes: Attributes,
    queue: seq<Bytes>, closed: bool, yielded: seq<Bytes>)
  {
    function OnChunk(content: Bytes): Reader {
      if closed then this else this.(queue := queue + [content])
    }

    function OnClose(trailer: Attributes): Reader {
      this.(attributes := attributes + trailer, closed := true)
    }

    /** The condition readNext waits for. */
    predicate CanRead() { queue != [] || closed }

    function ReadNext(): Reader {
      if queue == [] then this else this.(queue := queue[1..], yielded := yielded + [queue[0]])
    }
  }

  // ---------------------------------------------------------------- the room's routing

  datatype Router = Router(
    textHandlers: map<Topic, Handler>,
    byteHandlers: map<Topic, Handler>,
    textReaders: map<StreamId, Ref>,
    byteReaders: map<StreamId, Ref>,
    readers: seq<Reader>)
  {
    ghost predicate Valid() {
      && (forall id | id in textReaders :: textReaders[id] < |readers| && readers[textReaders[id]].id == id)
      && (forall id | id in byteReaders :: byteReaders[id] < |readers| && readers[byteReaders[id]].id == id)
    }

    /** The text table is asked first. */
    function Find(id: StreamId): (ref: Option<Ref>) {
      if id in textReaders then Some(textReaders[id])
      else if id in byteReaders then Some(byteReaders[id])
      else None
    }

    /** Forgets stream `id` in the table that Find answers from. */
    function Erase(id: StreamId): Router {
      Router(textHandlers, byteHandlers, textReaders - {id},
             if id in textReaders then byteReaders else byteReaders - {id}, readers)
    }

    function Handlers(kind: Kind): map<Topic, Handler> {
      match kind
      case Text => textHandlers
      case Binary => byteHandlers
      case Unknown => map[]
    }
  }

  const EmptyRouter := Router(map[], map[], map[], map[], [])

  ghost function OnHeader(r: Router, id: StreamId, kind: Kind, topic: Topic, attributes: Attributes): Router {
    if topic !in r.Handlers(kind) then r
    else
      var ref := |r.readers|;
      var reader := Reader(id, kind, r.Handlers(kind)[topic], attributes, [], false, []);
      var r' := r.(readers := r.readers + [reader]);
      if kind.Text? then r'.(textReaders := r.textReaders[id := ref])
      else r'.(byteReaders := r.byteReaders[id := ref])
  }

  ghost function OnPacket(r: Router, packet: Packet): (r': Router)
    requires r.Valid()
    ensures r'.Valid()
  {
    match packet
    case Header(id, kind, topic, attributes) => OnHeader(r, id, kind, topic, attributes)
    case Chunk(id, _, content) =>
      (match r.Find(id)
       case None => r
       case Some(ref) => r.(readers := r.readers[ref := r.readers[ref].OnChunk(content)]))
    case Trailer(id, attributes) =>
      (match r.Find(id)
       case None => r
       case Some(ref) => r.Erase(id).(readers := r.readers[ref := r.readers[ref].OnClose(attributes)]))
  }

  // ---------------------------------------------------------------- runs

  datatype Step =
    | Deliver(packet: Packet)
    | Read(ref: Ref)
    | Register(kind: Kind, topic: Topic, handler: Handler)
    | Unregister(kind: Kind, topic: Topic)

  ghost predicate Enabled(r: Router, step: Step) {
    && r.Valid()
    && (step.Read? ==> step.ref < |r.readers| && r.readers[step.ref].CanRead())
    && (step.Register? || step.Unregister? ==> !step.kind.Unknown?)
  }

  ghost function Apply(r: Router, step: Step): (r': Router)
    requires Enabled(r, step)
    ensures r'.Valid()
  {
    match step
    case Deliver(packet) => OnPacket(r, packet)
    case Read(ref) => r.(readers := r.readers[ref := r.readers[ref].ReadNext()])
    case Register(kind, topic, handler) =>
      if topic in r.Handlers(kind) then r
      else if kind.Text? then r.(textHandlers := r.textHandlers[topic := handler])
      else r.(byteHandlers := r.byteHandlers[topic := handler])
    case Unregister(kind, topic) =>
      if kind.Text? then r.(textHandlers := r.textHandlers - {topic})
      else r.(byteHandlers := r.byteHandlers - {topic})
  }

  ghost predicate IsRun(states: seq<Router>, steps: seq<Step>) {
    && |states| == |steps| + 1
    && states[0] == EmptyRouter
    && forall i | 0 <= i < |steps| :: Enabled(states[i], steps[i]) && states[i + 1] == Apply(states[i], steps[i])
  }

  ghost predicate IsFor(step: Step, id: StreamId) { step.Deliver? && step.packet.id == id }

  /** The packets of stream `id` among the steps, in order. */
  ghost function Delivered(steps: seq<Step>, id: StreamId): (packets: seq<Packet>)
    ensures |packets| <= |steps|
  {
    if steps == [] then []
    else
      var last := steps[|steps| - 1];
      Delivered(steps[..|steps| - 1], id) + (if IsFor(last, id) then [last.packet] else [])
  }

  /** A handler for the stream's kind and topic is registered whenever its header arrives. */
  ghost predicate Registered(states: seq<Router>, steps: seq<Step>, c: Stream)
    requires |states| == |steps| + 1
  {
    forall i | 0 <= i < |steps| && steps[i] == Deliver(HeaderOf(c)) :: c.topic in states[i].Handlers(c.kind)
  }
}
