/**
 Chunk numbers when sends can fail: exactly when they are 0, 1, 2, ... on the wire, and that a writer whose sends all
 succeed sends what DataStreamSafety says.
 */
module DataStreamNumbering {
  import opened Common
  import opened DataStreamSpec
  import opened DataStreamSafety

  // ---------------------------------------------------------------- numbers on the wire

  /** The numbers of the chunks among `packets`, in order. */
  function ChunkNumbers(packets: seq<Packet>): seq<nat> {
    if packets == [] then []
    else
      var last := packets[|packets| - 1];
      ChunkNumbers(packets[..|packets| - 1]) + if last.Chunk? then [last.index] else []
  }

  /** The positions of the attempts that succeeded. */
  function Successes(attempts: seq<bool>): (positions: seq<nat>)
    ensures |positions| <= |attempts|
  {
    if attempts == [] then []
    else
      var n := |attempts| - 1;
      Successes(attempts[..n]) + if attempts[n] then [n] else []
  }

  /** No chunk was refused before one that was sent. */
  predicate NoGap(attempts: seq<bool>) {
    forall i, j | 0 <= i < j < |attempts| && attempts[j] :: attempts[i]
  }

  predicate CountsUp(numbers: seq<nat>) {
    forall k | 0 <= k < |numbers| :: numbers[k] == k
  }

  /** The k-th chunk on the wire carries number k. */
  predicate NumberedFromZero(packets: seq<Packet>) { CountsUp(ChunkNumbers(packets)) }

  lemma NumbersAppend(packets: seq<Packet>, packet: Packet)
    ensures ChunkNumbers(packets + [packet]) == ChunkNumbers(packets) + if packet.Chunk? then [packet.index] else []
  {
    assert (packets + [packet])[..|packets|] == packets;
  }

  lemma SuccessesAppend(attempts: seq<bool>, ok: bool)
    ensures Successes(attempts + [ok]) == Successes(attempts) + if ok then [|attempts|] else []
  {
    assert (attempts + [ok])[..|attempts|] == attempts;
  }

  /** The next number counts the attempts, and the chunks on the wire are the attempts that succeeded. */
  ghost predicate Accounted(l: Line) {
    l.w.next == |l.attempts| && ChunkNumbers(l.sent) == Successes(l.attempts)
  }

  lemma SendAccounted(l: Line, o: Outcomes, packet: Packet)
    requires Accounted(l) && !packet.Chunk?
    ensures Accounted(SendOn(l, o, packet).0)
  {
    NumbersAppend(l.sent, packet);
  }

  lemma HeaderAccounted(c: Stream, l: Line, o: Outcomes)
    requires Accounted(l)
    ensures Accounted(SendHeaderOn(c, l, o).0)
  {
    SendAccounted(l, o, HeaderOf(c));
  }

  lemma ChunkAccounted(c: Stream, l: Line, o: Outcomes, content: Bytes)
    requires Accounted(l)
    ensures Accounted(SendChunkOn(c, l, o, content).0)
  {
    HeaderAccounted(c, l, o);
    var l1 := SendHeaderOn(c, l, o).0;
    NumbersAppend(l1.sent, Chunk(c.id, l1.w.next, content));
    SuccessesAppend(l1.attempts, true);
    SuccessesAppend(l1.attempts, false);
  }

  lemma {:induction false} PiecesAccounted(c: Stream, l: Line, o: Outcomes, pieces: seq<Bytes>)
    requires Accounted(l)
    ensures Accounted(SendPiecesOn(c, l, o, pieces).0)
    decreases |pieces|
  {
    hide Accounted, SendChunkOn;
    if pieces != [] {
      ChunkAccounted(c, l, o, pieces[0]);
      var (l', ok) := SendChunkOn(c, l, o, pieces[0]);
      if ok {
        PiecesAccounted(c, l', o, pieces[1..]);
      }
    }
  }

  lemma CallAccounted(c: Stream, l: Line, o: Outcomes, call: Call)
    requires Accounted(l)
    ensures Accounted(CallOn(c, l, o, call).0)
  {
    if !l.w.closed {
      match call {
        case Write(data) => PiecesAccounted(c, l, o, PiecesOf(c.kind, data));
        case Close(attributes) =>
          var closing := l.(w := l.w.(closed := true));
          HeaderAccounted(c, closing, o);
          SendAccounted(SendHeaderOn(c, closing, o).0, o, Trailer(c.id, attributes));
      }
    }
  }

  lemma {:induction false} CallsAccounted(c: Stream, l: Line, o: Outcomes, calls: seq<Call>)
    requires Accounted(l)
    ensures Accounted(CallsOn(c, l, o, calls))
    decreases |calls|
  {
    hide Accounted, CallOn;
    if calls != [] {
      CallAccounted(c, l, o, calls[0]);
      CallsAccounted(c, CallOn(c, l, o, calls[0]).0, o, calls[1..]);
    }
  }

  lemma {:induction false} AllSucceeded(attempts: seq<bool>)
    ensures |Successes(attempts)| == |attempts| <==> forall i | 0 <= i < |attempts| :: attempts[i]
    decreases |attempts|
  {
    if attempts != [] {
      AllSucceeded(attempts[..|attempts| - 1]);
    }
  }

  /** The positions of the successes are 0, 1, 2, ... exactly if no failure precedes a success. */
  lemma {:induction false} ConsecutiveIff(attempts: seq<bool>)
    ensures CountsUp(Successes(attempts)) <==> NoGap(attempts)
    decreases |attempts|
  {
    if attempts != [] {
      var n := |attempts| - 1;
      var before := attempts[..n];
      ConsecutiveIff(before);
      AllSucceeded(before);
      assert attempts == before + [attempts[n]];
      var earlier := Successes(before);
      assert Successes(attempts) == earlier + if attempts[n] then [n] else [];
      assert NoGap(attempts) <==> NoGap(before) && (attempts[n] ==> forall i | 0 <= i < n :: before[i]);
      if attempts[n] {
        assert Successes(attempts)[|earlier|] == n;
        assert forall k | 0 <= k < |earlier| :: Successes(attempts)[k] == earlier[k];
      } else {
        assert Successes(attempts) == earlier;
      }
    }
  }

  /**
   For any calls and any outcomes of their sends: the k-th chunk on the wire carries number k, for every k, if and only
   if no chunk was refused before one that was sent.
   */
  lemma NumbersAreConsecutiveIff(c: Stream, o: Outcomes, calls: seq<Call>)
    ensures var l := CallsOn(c, NewLine, o, calls);
            NumberedFromZero(l.sent) <==> NoGap(l.attempts)
  {
    CallsAccounted(c, NewLine, o, calls);
    var l := CallsOn(c, NewLine, o, calls);
    hide CallsOn, CountsUp, NoGap;
    ConsecutiveIff(l.attempts);
  }

  /** A writer that goes on after a refused first chunk: the only chunk on the wire carries number 1. */
  lemma GapAfterRefusedChunk(c: Stream)
    requires c.kind.Binary?
    ensures var l := CallsOn(c, NewLine, n => n != 1, [Write([7]), Write([7])]);
            l.sent == [HeaderOf(c), Chunk(c.id, 1, [7])] && !NumberedFromZero(l.sent)
  {
    var o: Outcomes := n => n != 1;
    var data: Bytes := [7];
    assert PiecesOf(c.kind, data) == [data] by {
      assert data[0..1] == data && Blocks(data, 1) == [];
    }
    var l1 := Line(WriterState(true, false, 1), 2, [HeaderOf(c)], [false]);
    var header, chunk: seq<Packet> := [HeaderOf(c)], [Chunk(c.id, 1, data)];
    assert [] + header == header && [] + [false] == [false];
    assert o(0) && !o(1) && o(2);
    assert SendChunkOn(c, NewLine, o, data) == (l1, false);
    assert SendPiecesOn(c, NewLine, o, [data]) == (l1, false);
    var l2 := Line(WriterState(true, false, 2), 3, [HeaderOf(c), Chunk(c.id, 1, data)], [false, true]);
    assert header + chunk == l2.sent && [false] + [true] == l2.attempts;
    assert SendChunkOn(c, l1, o, data) == (l2, true);
    assert SendPiecesOn(c, l1, o, [data]) == (l2, true) by {
      assert [data][1..] == [] && SendPiecesOn(c, l2, o, []) == (l2, true);
    }
    var calls := [Write(data), Write(data)];
    assert calls[1..] == [Write(data)] && calls[1..][1..] == [];
    assert CallsOn(c, l1, o, calls[1..]) == CallsOn(c, l2, o, []) == l2;
    assert CallsOn(c, NewLine, o, calls) == l2;
    assert l2.attempts[1] && !l2.attempts[0] && !NoGap(l2.attempts);
    NumbersAreConsecutiveIff(c, o, calls);
  }

  // ---------------------------------------------------------------- a refused send ends its call

  /** All sends between two lines but perhaps the last succeeded, and `ok` says whether the last one did, too. */
  ghost predicate UpToRefusal(o: Outcomes, l: Line, l': Line, ok: bool) {
    && l.sends <= l'.sends
    && (forall n | l.sends <= n < l'.sends - 1 :: o(n))
    && (ok <==> forall n | l.sends <= n < l'.sends :: o(n))
  }

  lemma UpToRefusalChains(o: Outcomes, a: Line, b: Line, c: Line, ok: bool)
    requires UpToRefusal(o, a, b, true) && UpToRefusal(o, b, c, ok)
    ensures UpToRefusal(o, a, c, ok)
  {
  }

  lemma HeaderUpToRefusal(c: Stream, l: Line, o: Outcomes)
    ensures var (l', ok) := SendHeaderOn(c, l, o); UpToRefusal(o, l, l', ok) && l'.w.closed == l.w.closed
  {
  }

  lemma ChunkUpToRefusal(c: Stream, l: Line, o: Outcomes, content: Bytes)
    ensures var (l', ok) := SendChunkOn(c, l, o, content); UpToRefusal(o, l, l', ok) && l'.w.closed == l.w.closed
  {
    HeaderUpToRefusal(c, l, o);
  }

  lemma {:induction false} PiecesUpToRefusal(c: Stream, l: Line, o: Outcomes, pieces: seq<Bytes>)
    ensures var (l', ok) := SendPiecesOn(c, l, o, pieces); UpToRefusal(o, l, l', ok) && l'.w.closed == l.w.closed
    decreases |pieces|
  {
    hide SendChunkOn;
    if pieces != [] {
      ChunkUpToRefusal(c, l, o, pieces[0]);
      var (l1, ok) := SendChunkOn(c, l, o, pieces[0]);
      if ok {
        PiecesUpToRefusal(c, l1, o, pieces[1..]);
        UpToRefusalChains(o, l, l1, SendPiecesOn(c, l1, o, pieces[1..]).0, SendPiecesOn(c, l1, o, pieces[1..]).1);
      }
    }
  }

  /**
   A call on a closed writer fails and sends nothing. Any other call sends until the first refusal, and returns normally
   exactly if there was none; a close leaves the writer closed either way, a write leaves it open.
   */
  lemma RefusalEndsCall(c: Stream, l: Line, o: Outcomes, call: Call)
    ensures var (l', ok) := CallOn(c, l, o, call);
            if l.w.closed then !ok && l' == l
            else UpToRefusal(o, l, l', ok) && l'.w.closed == call.Close?
  {
    if !l.w.closed {
      match call {
        case Write(data) => PiecesUpToRefusal(c, l, o, PiecesOf(c.kind, data));
        case Close(_) => HeaderUpToRefusal(c, l.(w := l.w.(closed := true)), o);
      }
    }
  }

  // ---------------------------------------------------------------- when every send succeeds

  lemma {:induction false} PiecesAllSent(c: Stream, l: Line, o: Outcomes, pieces: seq<Bytes>)
    requires forall n :: o(n)
    ensures var (l', ok) := SendPiecesOn(c, l, o, pieces);
            var (w, packets) := Progress(c, l.w, pieces);
            ok && l'.w == w && l'.sent == l.sent + packets
    decreases |pieces|
  {
    if pieces == [] {
      assert l.sent + [] == l.sent;
    } else {
      hide SendChunkOn, Progress;
      var (l1, ok) := SendChunkOn(c, l, o, pieces[0]);
      PiecesAllSent(c, l1, o, pieces[1..]);
      OneSent(c, l, o, pieces[0]);
      ProgressSplits(c, l.w, pieces);
      var first, rest := Progress(c, l.w, [pieces[0]]).1, Progress(c, l1.w, pieces[1..]).1;
      assert l.sent + first + rest == l.sent + (first + rest);
    }
  }

  lemma ProgressSplits(c: Stream, w: WriterState, pieces: seq<Bytes>)
    requires pieces != []
    ensures var first := Progress(c, w, [pieces[0]]);
            var rest := Progress(c, first.0, pieces[1..]);
            Progress(c, w, pieces) == (rest.0, first.1 + rest.1)
  {
    assert pieces == [pieces[0]] + pieces[1..];
    ProgressJoin(c, w, [pieces[0]], pieces[1..]);
  }

  lemma OneSent(c: Stream, l: Line, o: Outcomes, content: Bytes)
    requires forall n :: o(n)
    ensures var (l', ok) := SendChunkOn(c, l, o, content);
            var (w, packets) := Progress(c, l.w, [content]);
            ok && l'.w == w && l'.sent == l.sent + packets
  {
    var chunk := [Chunk(c.id, l.w.next, content)];
    assert Chunks(c.id, l.w.next, [content]) == chunk + Chunks(c.id, l.w.next + 1, []) == chunk;
    assert l.sent + HeaderIfUnsent(c, l.w) + chunk == l.sent + (HeaderIfUnsent(c, l.w) + chunk);
    assert l.sent + [] == l.sent;
  }

  lemma CallAllSent(c: Stream, l: Line, o: Outcomes, call: Call)
    requires forall n :: o(n)
    ensures CallOn(c, l, o, call).0.w == AfterCall(c, l.w, call).0
    ensures CallOn(c, l, o, call).0.sent == l.sent + AfterCall(c, l.w, call).1
  {
    assert l.sent + [] == l.sent;
    if !l.w.closed {
      match call {
        case Write(data) => PiecesAllSent(c, l, o, PiecesOf(c.kind, data));
        case Close(attributes) =>
          var trailer := [Trailer(c.id, attributes)];
          assert l.sent + HeaderIfUnsent(c, l.w) + trailer == l.sent + (HeaderIfUnsent(c, l.w) + trailer);
      }
    }
  }

  /** With no refused send, any calls put exactly the emitted packets on the wire. */
  lemma {:induction false} AllSentIsEmitted(c: Stream, l: Line, o: Outcomes, calls: seq<Call>)
    requires forall n :: o(n)
    ensures CallsOn(c, l, o, calls).sent == l.sent + Emitted(c, l.w, calls)
    decreases |calls|
  {
    hide CallOn, AfterCall;
    if calls == [] {
      assert l.sent + [] == l.sent;
    } else {
      CallAllSent(c, l, o, calls[0]);
      var l' := CallOn(c, l, o, calls[0]).0;
      AllSentIsEmitted(c, l', o, calls[1..]);
      var first, rest := AfterCall(c, l.w, calls[0]).1, Emitted(c, l'.w, calls[1..]);
      assert l.sent + first + rest == l.sent + (first + rest);
    }
  }
}
