/**
 Who is handed a stream: the registered handlers by what was registered and unregistered, the handler of every reader,
 and runs in which a registered handler's reader receives and yields a whole session.
 */
module DataStreamHandlers {
  import opened Common
  import opened DataStreamSpec
  import opened DataStreamSafety

  // ---------------------------------------------------------------- the handlers by history

  /**
   The handler of a kind and topic: the first one registered since it was last unregistered. A registration that finds
   a handler is refused.
   */
  function HandlerSaid(steps: seq<Step>, kind: Kind, topic: Topic): Option<Handler> {
    if steps == [] then None
    else
      var before := HandlerSaid(steps[..|steps| - 1], kind, topic);
      match steps[|steps| - 1]
      case Register(k, t, handler) => if k == kind && t == topic && before.None? then Some(handler) else before
      case Unregister(k, t) => if k == kind && t == topic then None else before
      case _ => before
  }

  function HandlerOf(r: Router, kind: Kind, topic: Topic): Option<Handler> {
    if topic in r.Handlers(kind) then Some(r.Handlers(kind)[topic]) else None
  }

  /** What a packet leaves alone: the handlers, and the id, kind and handler of every reader. */
  ghost predicate KeepsOwners(r: Router, r': Router) {
    && r'.textHandlers == r.textHandlers && r'.byteHandlers == r.byteHandlers && |r.readers| <= |r'.readers|
    && forall k | 0 <= k < |r.readers| :: SameOwner(r.readers[k], r'.readers[k])
  }

  predicate SameOwner(was: Reader, now: Reader) {
    now.id == was.id && now.kind == was.kind && now.handler == was.handler
  }

  lemma HeaderOwners(r: Router, packet: Packet)
    requires r.Valid() && packet.Header?
    ensures var r' := OnPacket(r, packet);
            && KeepsOwners(r, r') && |r'.readers| <= |r.readers| + 1
            && (|r'.readers| > |r.readers| ==>
                  var now := r'.readers[|r.readers|];
                  now.id == packet.id && now.kind == packet.kind && !now.kind.Unknown? &&
                  HandlerOf(r, packet.kind, packet.topic) == Some(now.handler))
  {
    hide Router.Valid;
  }

  lemma ChunkOwners(r: Router, packet: Packet)
    requires r.Valid() && packet.Chunk?
    ensures KeepsOwners(r, OnPacket(r, packet)) && |OnPacket(r, packet).readers| == |r.readers|
  {
    if r.Find(packet.id).Some? {
      var ref := r.Find(packet.id).value;
      assert OnPacket(r, packet) == r.(readers := r.readers[ref := r.readers[ref].OnChunk(packet.content)]);
    }
    hide Router.Valid, OnPacket;
  }

  lemma TrailerOwners(r: Router, packet: Packet)
    requires r.Valid() && packet.Trailer?
    ensures KeepsOwners(r, OnPacket(r, packet)) && |OnPacket(r, packet).readers| == |r.readers|
  {
    if r.Find(packet.id).Some? {
      var ref := r.Find(packet.id).value;
      assert OnPacket(r, packet) ==
             r.Erase(packet.id).(readers := r.readers[ref := r.readers[ref].OnClose(packet.attributes)]);
    }
    hide Router.Valid, OnPacket;
  }

  lemma PacketOwners(r: Router, packet: Packet)
    requires r.Valid()
    ensures KeepsOwners(r, OnPacket(r, packet)) && |OnPacket(r, packet).readers| <= |r.readers| + 1
    ensures !packet.Header? ==> |OnPacket(r, packet).readers| == |r.readers|
  {
    hide KeepsOwners, OnPacket, Router.Valid;
    if packet.Header? {
      HeaderOwners(r, packet);
    } else if packet.Chunk? {
      ChunkOwners(r, packet);
    } else {
      TrailerOwners(r, packet);
    }
  }

  lemma StepHandlers(r: Router, step: Step, kind: Kind, topic: Topic)
    requires Enabled(r, step) && !kind.Unknown?
    ensures HandlerOf(Apply(r, step), kind, topic) ==
            match step
            case Register(k, t, handler) =>
              if k == kind && t == topic && HandlerOf(r, kind, topic).None? then Some(handler)
              else HandlerOf(r, kind, topic)
            case Unregister(k, t) => if k == kind && t == topic then None else HandlerOf(r, kind, topic)
            case _ => HandlerOf(r, kind, topic)
  {
    hide OnPacket;
    if step.Deliver? {
      PacketOwners(r, step.packet);
    }
  }

  /** In every run the room's handlers are those that were registered and not unregistered. */
  lemma {:induction false} HandlersAreHistory(states: seq<Router>, steps: seq<Step>, n: nat, kind: Kind, topic: Topic)
    requires IsRun(states, steps) && n <= |steps| && !kind.Unknown?
    ensures HandlerOf(states[n], kind, topic) == HandlerSaid(steps[..n], kind, topic)
    decreases n
  {
    if n > 0 {
      hide HandlerOf, Apply, Router.Valid;
      HandlersAreHistory(states, steps, n - 1, kind, topic);
      assert Enabled(states[n - 1], steps[n - 1]) && states[n] == Apply(states[n - 1], steps[n - 1]);
      StepHandlers(states[n - 1], steps[n - 1], kind, topic);
      assert steps[..n][..n - 1] == steps[..n - 1];
    }
  }

  // ---------------------------------------------------------------- the handler of a reader

  lemma StepReaders(r: Router, step: Step, ref: Ref)
    requires Enabled(r, step) && ref < |Apply(r, step).readers|
    ensures var now := Apply(r, step).readers[ref];
            if ref < |r.readers| then SameOwner(r.readers[ref], now)
            else
              && step.Deliver? && step.packet.Header? && ref == |r.readers|
              && step.packet.id == now.id && step.packet.kind == now.kind && !now.kind.Unknown?
              && HandlerOf(r, now.kind, step.packet.topic) == Some(now.handler)
  {
    hide OnPacket, HandlerOf, Router.Valid;
    if step.Deliver? {
      PacketOwners(r, step.packet);
      if step.packet.Header? {
        HeaderOwners(r, step.packet);
      }
    }
  }

  /** Every reader was made for a header, and belongs to the handler of the header's kind and topic at that moment. */
  lemma {:induction false} ReaderOrigin(states: seq<Router>, steps: seq<Step>, n: nat, ref: Ref) returns (i: nat)
    requires IsRun(states, steps) && n <= |steps| && ref < |states[n].readers|
    ensures i < n && steps[i].Deliver? && steps[i].packet.Header? && ref == |states[i].readers|
    ensures var reader, header := states[n].readers[ref], steps[i].packet;
            && reader.id == header.id && reader.kind == header.kind
            && HandlerSaid(steps[..i], header.kind, header.topic) == Some(reader.handler)
    decreases n
  {
    hide Apply, HandlerOf, HandlerSaid, Router.Valid;
    assert Enabled(states[n - 1], steps[n - 1]) && states[n] == Apply(states[n - 1], steps[n - 1]);
    StepReaders(states[n - 1], steps[n - 1], ref);
    if ref < |states[n - 1].readers| {
      i := ReaderOrigin(states, steps, n - 1, ref);
    } else {
      i := n - 1;
      HandlersAreHistory(states, steps, i, steps[i].packet.kind, steps[i].packet.topic);
    }
  }

  // ---------------------------------------------------------------- a registered handler receives its streams

  // ---------------------------------------------------------------- a registered handler receives its streams

  lemma Extend(states: seq<Router>, steps: seq<Step>, step: Step) returns (states': seq<Router>, steps': seq<Step>)
    requires IsRun(states, steps) && Enabled(states[|steps|], step)
    ensures states' == states + [Apply(states[|steps|], step)] && steps' == steps + [step] && IsRun(states', steps')
  {
    hide Apply, Enabled;
    states', steps' := states + [Apply(states[|steps|], step)], steps + [step];
    forall i | 0 <= i < |steps'|
      ensures Enabled(states'[i], steps'[i]) && states'[i + 1] == Apply(states'[i], steps'[i])
    {
      if i < |steps| {
        assert states'[i] == states[i] && states'[i + 1] == states[i + 1] && steps'[i] == steps[i];
      }
    }
  }

  /** First the registration, then only packets and reads. */
  ghost predicate RegistersFirst(steps: seq<Step>, c: Stream, handler: Handler) {
    && steps != [] && steps[0] == Register(c.kind, c.topic, handler)
    && forall i | 0 < i < |steps| :: steps[i].Deliver? || steps[i].Read?
  }

  lemma {:induction false} HandlerStays(steps: seq<Step>, n: nat, c: Stream, handler: Handler)
    requires RegistersFirst(steps, c, handler) && 0 < n <= |steps|
    ensures HandlerSaid(steps[..n], c.kind, c.topic) == Some(handler)
    decreases n
  {
    assert steps[..n][..n - 1] == steps[..n - 1];
    if n == 1 {
      assert HandlerSaid(steps[..0], c.kind, c.topic) == None;
    } else {
      HandlerStays(steps, n - 1, c, handler);
    }
  }

  lemma RegistersFirstServes(states: seq<Router>, steps: seq<Step>, c: Stream, handler: Handler)
    requires IsRun(states, steps) && !c.kind.Unknown? && RegistersFirst(steps, c, handler)
    ensures Registered(states, steps, c)
  {
    forall i | 0 <= i < |steps| && steps[i] == Deliver(HeaderOf(c))
      ensures c.topic in states[i].Handlers(c.kind)
    {
      HandlersAreHistory(states, steps, i, c.kind, c.topic);
      HandlerStays(steps, i, c, handler);
    }
  }

  lemma StaysValid(states: seq<Router>, steps: seq<Step>)
    requires IsRun(states, steps)
    ensures states[|steps|].Valid()
  {
    if steps != [] {
      assert states[|steps|] == Apply(states[|steps| - 1], steps[|steps| - 1]);
    }
  }

  lemma DeliverOne(steps: seq<Step>, packet: Packet, id: StreamId)
    requires packet.id == id
    ensures Delivered(steps + [Deliver(packet)], id) == Delivered(steps, id) + [packet]
  {
    assert (steps + [Deliver(packet)])[..|steps|] == steps;
  }

  lemma DeliverNext(states: seq<Router>, steps: seq<Step>, packet: Packet, c: Stream, handler: Handler)
    returns (states': seq<Router>, steps': seq<Step>)
    requires IsRun(states, steps) && RegistersFirst(steps, c, handler) && packet.id == c.id
    ensures IsRun(states', steps') && RegistersFirst(steps', c, handler)
    ensures Delivered(steps', c.id) == Delivered(steps, c.id) + [packet]
  {
    hide Apply;
    StaysValid(states, steps);
    states', steps' := Extend(states, steps, Deliver(packet));
    DeliverOne(steps, packet, c.id);
  }

  /** The packets delivered one after the other. */
  lemma {:induction false} DeliverAll(states: seq<Router>, steps: seq<Step>, packets: seq<Packet>, c: Stream,
                                      handler: Handler)
    returns (states': seq<Router>, steps': seq<Step>)
    requires IsRun(states, steps) && RegistersFirst(steps, c, handler) && forall p | p in packets :: p.id == c.id
    ensures IsRun(states', steps') && RegistersFirst(steps', c, handler)
    ensures Delivered(steps', c.id) == Delivered(steps, c.id) + packets
    decreases |packets|
  {
    hide IsRun, RegistersFirst, Delivered;
    if packets == [] {
      states', steps' := states, steps;
      assert Delivered(steps, c.id) + [] == Delivered(steps, c.id);
    } else {
      var n := |packets| - 1;
      states', steps' := DeliverAll(states, steps, packets[..n], c, handler);
      states', steps' := DeliverNext(states', steps', packets[n], c, handler);
      assert Delivered(steps, c.id) + packets[..n] + [packets[n]] == Delivered(steps, c.id) + packets;
    }
  }

  /** readNext until the queue is empty. */
  lemma {:induction false} ReadUp(states: seq<Router>, steps: seq<Step>, ref: Ref, c: Stream, handler: Handler)
    returns (states': seq<Router>, steps': seq<Step>)
    requires IsRun(states, steps) && RegistersFirst(steps, c, handler) && ref < |states[|steps|].readers|
    ensures IsRun(states', steps') && RegistersFirst(steps', c, handler)
    ensures Delivered(steps', c.id) == Delivered(steps, c.id)
    ensures |states'[|steps'|].readers| == |states[|steps|].readers|
    ensures var was, now := states[|steps|].readers[ref], states'[|steps'|].readers[ref];
            now == was.(queue := [], yielded := was.yielded + was.queue)
    decreases |states[|steps|].readers[ref].queue|
  {
    var reader := states[|steps|].readers[ref];
    if reader.queue == [] {
      states', steps' := states, steps;
      assert reader.yielded + [] == reader.yielded;
    } else {
      StaysValid(states, steps);
      states', steps' := Extend(states, steps, Read(ref));
      assert steps'[..|steps|] == steps;
      assert reader.yielded + [reader.queue[0]] + reader.queue[1..] == reader.yielded + reader.queue;
      states', steps' := ReadUp(states', steps', ref, c, handler);
    }
  }

  lemma EmittedIds(c: Stream, calls: seq<Call>)
    requires Closing(calls).Some?
    ensures forall p | p in Emitted(c, NewWriter, calls) :: p.id == c.id && (p.Header? ==> p == HeaderOf(c))
  {
    var pieces, trailer := AllPieces(c.kind, Writes(calls)), Closing(calls).value;
    WriterSendsSession(c, calls);
    hide Session, Emitted, AllPieces;
    SessionAt(c, pieces, trailer, 0);
    forall k | 0 <= k < |Session(c, pieces, trailer)|
      ensures var p := Session(c, pieces, trailer)[k]; p.id == c.id && (p.Header? ==> p == HeaderOf(c))
    {
      SessionAt(c, pieces, trailer, k);
    }
  }

  lemma {:induction false} DeliveredIn(steps: seq<Step>, i: nat, id: StreamId)
    requires i < |steps| && IsFor(steps[i], id)
    ensures steps[i].packet in Delivered(steps, id)
    decreases |steps|
  {
    DeliveredLast(steps, id);
    if i < |steps| - 1 {
      DeliveredIn(steps[..|steps| - 1], i, id);
    }
  }

  /** The handler registered first is the one that is given the stream's reader. */
  lemma HandlerOfStream(states: seq<Router>, steps: seq<Step>, ref: Ref, c: Stream, calls: seq<Call>, handler: Handler)
    requires IsRun(states, steps) && RegistersFirst(steps, c, handler) && Closing(calls).Some?
    requires Delivered(steps, c.id) == Emitted(c, NewWriter, calls)
    requires ref < |states[|steps|].readers| && states[|steps|].readers[ref].id == c.id
    ensures states[|steps|].readers[ref].handler == handler
  {
    var i := ReaderOrigin(states, steps, |steps|, ref);
    DeliveredIn(steps, i, c.id);
    EmittedIds(c, calls);
    HandlerStays(steps, i, c, handler);
  }

  /**
   For every stream of a known kind, every handler and every sequence of calls that closes the writer, there is a run in
   which the handler is registered, its one reader receives the session and yields exactly what was written.
   */
  lemma HandlerReceivesSession(c: Stream, calls: seq<Call>, handler: Handler)
    returns (states: seq<Router>, steps: seq<Step>, ref: Ref)
    requires !c.kind.Unknown? && Closing(calls).Some?
    ensures IsRun(states, steps) && Registered(states, steps, c)
    ensures Delivered(steps, c.id) == Emitted(c, NewWriter, calls)
    ensures Received(states[|steps|], ref, c, Concat(Writes(calls)), Closing(calls).value)
    ensures var reader := states[|steps|].readers[ref];
            reader.handler == handler && reader.queue == [] && Concat(reader.yielded) == Concat(Writes(calls))
  {
    var register := Register(c.kind, c.topic, handler);
    assert IsRun([EmptyRouter], []) && Enabled(EmptyRouter, register);
    states, steps := Extend([EmptyRouter], [], register);
    assert steps[..0] == [];
    hide Apply, Enabled;
    EmittedIds(c, calls);
    states, steps := DeliverAll(states, steps, Emitted(c, NewWriter, calls), c, handler);
    assert Delivered(steps, c.id) == Emitted(c, NewWriter, calls);
    RegistersFirstServes(states, steps, c, handler);
    ref := RoundTrip(states, steps, c, calls);
    states, steps := ReadUp(states, steps, ref, c, handler);
    RegistersFirstServes(states, steps, c, handler);
    var sole := RoundTrip(states, steps, c, calls);
    assert sole == ref;
    HandlerOfStream(states, steps, ref, c, calls, handler);
  }
}
