/**
 DataTrackStream's demand protocol (src/data_track_stream.cpp): one reader asks for frames one at a time, and frames,
 end-of-stream events and close() arrive from other threads between any two of its steps.
 */
module DataTrackStreamSpec {
  import opened Common

  type Frame = nat
  type EventId = nat

  datatype Error = ProtocolError | Reported(code: nat, message: string)

  /** The fields under mutex_. */
  datatype Stream = Stream(frame: Option<Frame>, eof: bool, closed: bool, terminalError: Option<Error>)
  {
    /** The assertion in the source: no frame is waiting when one is stored. */
    predicate CanStore() { closed || eof || frame.None? }

    function PushFrame(f: Frame): Stream {
      if closed || eof then this else this.(frame := Some(f))
    }

    function PushEos(error: Option<Error>): Stream {
      if closed || eof then this else this.(eof := true, terminalError := error)
    }

    function Close(): Stream {
      if closed then this else this.(closed := true, terminalError := if eof then terminalError else None)
    }

    /** The condition read() waits for. */
    predicate CanWake() { frame.Some? || eof || closed }

    /** What read() does after its wait: the frame it returns, if any, and what it leaves. */
    function Taken(): Option<Frame> {
      if closed || (frame.None? && eof) then None else frame
    }

    function Take(): Stream {
      if Taken().Some? then this.(frame := None) else this
    }
  }

  const NewStream := Stream(None, false, false, None)

  /** The answer to the read request. */
  datatype Answer = Missing | Plain | WithEos(error: Option<Error>)

  datatype Reader = Idle | Failing | FailedClosing | Ending(error: Option<Error>) | Waiting

  datatype Event = FrameEvent(frame: Frame) | EosEvent(error: Option<Error>)

  /** `passed` tells whether the event has been through onFfiEvent's check and only its push is left. */
  datatype Pending = Pending(event: Event, passed: bool)

  /**
   `demand` counts requests that the other side has not answered with a frame; `accepted`, `returned` and `firstEos`
   are history.
   */
  datatype Sys = Sys(
    stream: Stream,
    reader: Reader,
    demand: nat,
    events: map<EventId, Pending>,
    accepted: seq<Frame>,
    returned: seq<Frame>,
    firstEos: Option<Option<Error>>)

  const Initial := Sys(NewStream, Idle, 0, map[], [], [], None)

  datatype Step =
    | Read(answer: Answer, granted: bool)
    | ReaderPushesEos
    | ReaderCloses
    | ReaderWakes
    | EventArrives(e: EventId, event: Event)
    | EventChecked(e: EventId, mine: bool)
    | EventPushed(e: EventId)
    | Close

  /** One reader; other threads at any time. */
  predicate Possible(s: Sys, step: Step) {
    match step
    case Read(_, _) => s.reader.Idle?
    case ReaderPushesEos => s.reader.Failing? || s.reader.Ending?
    case ReaderCloses => s.reader.FailedClosing?
    case ReaderWakes => s.reader.Waiting? && s.stream.CanWake()
    case EventArrives(e, _) => e !in s.events
    case EventChecked(e, _) => e in s.events && !s.events[e].passed
    case EventPushed(e) => e in s.events && s.events[e].passed
    case Close => true
  }

  /** The other side's part of the protocol: at most one frame for each request. */
  predicate Demanded(s: Sys, step: Step) {
    step.EventArrives? && step.event.FrameEvent? ==> s.demand > 0
  }

  predicate Enabled(s: Sys, step: Step) { Possible(s, step) && Demanded(s, step) }

  function PushEos(s: Sys, error: Option<Error>): Sys {
    s.(stream := s.stream.PushEos(error),
       firstEos := if s.firstEos.None? && !s.stream.closed then Some(error) else s.firstEos)
  }

  function AfterAnswer(answer: Answer): Reader {
    match answer
    case Missing => Failing
    case Plain => Waiting
    case WithEos(error) => Ending(error)
  }

  function Apply(s: Sys, step: Step): Sys
    requires Possible(s, step)
  {
    match step
    case Read(answer, granted) =>
      if s.stream.closed || s.stream.eof then s
      else s.(demand := if granted then s.demand + 1 else s.demand, reader := AfterAnswer(answer))
    case ReaderPushesEos =>
      if s.reader.Failing? then PushEos(s, Some(ProtocolError)).(reader := FailedClosing)
      else PushEos(s, s.reader.error).(reader := Waiting)
    case ReaderCloses => s.(stream := s.stream.Close(), reader := Idle)
    case ReaderWakes =>
      var taken := s.stream.Taken();
      s.(stream := s.stream.Take(), reader := Idle,
         returned := if taken.Some? then s.returned + [taken.value] else s.returned)
    case EventArrives(e, event) =>
      s.(events := s.events[e := Pending(event, false)], 
         demand := if event.FrameEvent? && s.demand > 0 then s.demand - 1 else s.demand)
    case EventChecked(e, mine) =>
      s.(events := if s.stream.closed || !mine then s.events - {e} else s.events[e := s.events[e].(passed := true)])
    case EventPushed(e) =>
      var s' := s.(events := s.events - {e});
      (match s.events[e].event
       case EosEvent(error) => PushEos(s', error)
       case FrameEvent(frame) =>
         s'.(stream := s.stream.PushFrame(frame),
             accepted := if s.stream.closed || s.stream.eof then s.accepted else s.accepted + [frame]))
    case Close => s.(stream := s.stream.Close())
  }

  /** A run in which the other side may send frames unasked. */
  ghost predicate IsFreeRun(states: seq<Sys>, steps: seq<Step>) {
    && |states| == |steps| + 1
    && states[0] == Initial
    && forall i | 0 <= i < |steps| :: Possible(states[i], steps[i]) && states[i + 1] == Apply(states[i], steps[i])
  }

  ghost predicate IsRun(states: seq<Sys>, steps: seq<Step>) {
    IsFreeRun(states, steps) && forall i | 0 <= i < |steps| :: Demanded(states[i], steps[i])
  }
}

module DataTrackStreamSafety {
  import opened Common
  import opened DataTrackStreamSpec

  ghost function FramesInFlight(events: map<EventId, Pending>): set<EventId> {
    set e | e in events && events[e].event.FrameEvent?
  }

  function Stored(stream: Stream): nat { if stream.frame.Some? then 1 else 0 }

  function Kept(stream: Stream): seq<Frame> { if stream.frame.Some? then [stream.frame.value] else [] }

  /** Requests not yet answered, frames on their way and the stored frame, together. */
  ghost function Outstanding(s: Sys): nat {
    s.demand + |FramesInFlight(s.events)| + Stored(s.stream)
  }

  ghost predicate Inv(s: Sys) {
    && Outstanding(s) <= 1
    && (s.reader.Idle? && !s.stream.eof && !s.stream.closed ==> Outstanding(s) == 0)
    && (s.reader.Idle? && !s.stream.closed ==> s.stream.frame.None?)
    && (s.reader.FailedClosing? ==> s.stream.eof || s.stream.closed)
    && s.returned + Kept(s.stream) == s.accepted
    && (s.stream.eof <==> s.firstEos.Some?)
    && s.stream.terminalError == (if s.stream.eof then s.firstEos.value else None)
  }

  lemma FramesInFlightMove(events: map<EventId, Pending>, e: EventId, p: Pending)
    ensures e !in events ==>
              |FramesInFlight(events[e := p])| == |FramesInFlight(events)| + if p.event.FrameEvent? then 1 else 0
    ensures e in events && events[e].event == p.event ==> FramesInFlight(events[e := p]) == FramesInFlight(events)
    ensures e in events ==>
              |FramesInFlight(events - {e})| ==
              |FramesInFlight(events)| - if events[e].event.FrameEvent? then 1 else 0
  {
    var was := FramesInFlight(events);
    if e !in events {
      assert FramesInFlight(events[e := p]) == if p.event.FrameEvent? then was + {e} else was;
    } else {
      assert FramesInFlight(events - {e}) == was - {e};
      if events[e].event == p.event {
        assert FramesInFlight(events[e := p]) == was;
      }
    }
  }

  lemma ReaderStepKeepsInv(s: Sys, step: Step)
    requires Inv(s) && Enabled(s, step)
    requires step.Read? || step.ReaderPushesEos? || step.ReaderCloses? || step.ReaderWakes? || step.Close?
    ensures Inv(Apply(s, step))
  {
    if step.ReaderWakes? && s.stream.Taken().Some? {
      var s' := Apply(s, step);
      assert s'.returned + Kept(s'.stream) == s.returned + Kept(s.stream);
    }
  }

  lemma EventStepKeepsInv(s: Sys, step: Step)
    requires Inv(s) && Enabled(s, step)
    requires step.EventArrives? || step.EventChecked? || step.EventPushed?
    ensures Inv(Apply(s, step))
  {
    hide FramesInFlight;
    match step {
      case EventArrives(e, event) => FramesInFlightMove(s.events, e, Pending(event, false));
      case EventChecked(e, mine) => FramesInFlightMove(s.events, e, s.events[e].(passed := true));
      case EventPushed(e) =>
        FramesInFlightMove(s.events, e, s.events[e]);
        var s' := Apply(s, step);
        if s.events[e].event.FrameEvent? && !s.stream.closed && !s.stream.eof {
          assert s.returned + Kept(s'.stream) == s.returned + Kept(s.stream) + [s.events[e].event.frame];
        }
    }
  }

  lemma {:induction false} ReachableInv(states: seq<Sys>, steps: seq<Step>, n: nat)
    requires IsRun(states, steps) && n <= |steps|
    ensures Inv(states[n])
    decreases n
  {
    if n == 0 {
      assert FramesInFlight(map[]) == {};
    } else {
      ReachableInv(states, steps, n - 1);
      var s, step := states[n - 1], steps[n - 1];
      assert Enabled(s, step);
      if step.EventArrives? || step.EventChecked? || step.EventPushed? {
        EventStepKeepsInv(s, step);
      } else {
        ReaderStepKeepsInv(s, step);
      }
    }
  }

  // ---------------------------------------------------------------- what every interleaving keeps

  /** Outstanding demand, frames on their way and the stored frame never exceed one together. */
  lemma DemandBound(states: seq<Sys>, steps: seq<Step>, n: nat)
    requires IsRun(states, steps) && n <= |steps|
    ensures Outstanding(states[n]) <= 1
  {
    ReachableInv(states, steps, n);
  }

  /** pushFrame's assertion holds in every run: no stored frame is ever overwritten. */
  lemma AssertionNeverFails(states: seq<Sys>, steps: seq<Step>, n: nat)
    requires IsRun(states, steps) && n < |steps| && steps[n].EventPushed?
    requires Enabled(states[n], steps[n]) && states[n].events[steps[n].e].event.FrameEvent?
    ensures states[n].stream.CanStore()
    ensures !states[n].stream.closed && !states[n].stream.eof ==>
              states[n + 1].stream.frame == Some(states[n].events[steps[n].e].event.frame)
  {
    ReachableInv(states, steps, n);
    var e := steps[n].e;
    FramesInFlightMove(states[n].events, e, states[n].events[e]);
  }

  /**
   Accepted frames are returned in order. Whenever no read is in progress and the stream is not closed every accepted
   frame has been returned, so one followed by end-of-stream is not lost; after close at most the last one is.
   */
  lemma FramesInOrder(states: seq<Sys>, steps: seq<Step>, n: nat)
    requires IsRun(states, steps) && n <= |steps|
    ensures states[n].returned <= states[n].accepted
    ensures |states[n].accepted| <= |states[n].returned| + 1
    ensures states[n].reader.Idle? && !states[n].stream.closed ==> states[n].returned == states[n].accepted
  {
    ReachableInv(states, steps, n);
  }

  /** A read that is answered returns the stored frame even if the stream has ended meanwhile, unless it was closed. */
  lemma WokenReadReturnsFrameIff(states: seq<Sys>, steps: seq<Step>, n: nat)
    requires IsRun(states, steps) && n < |steps| && steps[n].ReaderWakes?
    ensures |states[n + 1].returned| == |states[n].returned| + 1 <==>
            !states[n].stream.closed && |states[n].accepted| == |states[n].returned| + 1
    ensures states[n + 1].returned == states[n].returned ==> states[n].stream.closed || states[n].stream.eof
  {
    ReachableInv(states, steps, n);
    assert Enabled(states[n], steps[n]);
  }

  /** terminalError() is what the first end-of-stream before close reported; a close before it leaves none. */
  lemma TerminalErrorIsFirstEos(states: seq<Sys>, steps: seq<Step>, n: nat)
    requires IsRun(states, steps) && n <= |steps|
    ensures states[n].stream.terminalError ==
            match states[n].firstEos
            case None => None
            case Some(error) => error
  {
    ReachableInv(states, steps, n);
  }

  // ---------------------------------------------------------------- when the other side sends unasked

  lemma Extend(states: seq<Sys>, steps: seq<Step>, step: Step) returns (states': seq<Sys>, steps': seq<Step>)
    requires IsFreeRun(states, steps) && Possible(states[|steps|], step)
    ensures IsFreeRun(states', steps')
    ensures states' == states + [Apply(states[|steps|], step)] && steps' == steps + [step]
  {
    states', steps' := states + [Apply(states[|steps|], step)], steps + [step];
  }

  /** The step pushes a frame that finds another one stored: pushFrame's assertion fails, or the first one is lost. */
  ghost predicate Overwrites(s: Sys, step: Step) {
    step.EventPushed? && step.e in s.events && s.events[step.e].event.FrameEvent? && !s.stream.CanStore()
  }

  lemma TwoFramesPassTheirChecks(f: Frame, g: Frame) returns (states: seq<Sys>, steps: seq<Step>)
    ensures IsFreeRun(states, steps) && |steps| == 5
    ensures states[5] == Initial.(reader := Waiting,
                                  events := map[0 := Pending(FrameEvent(f), true), 1 := Pending(FrameEvent(g), true)])
  {
    states, steps := [Initial], [];
    states, steps := Extend(states, steps, Read(Plain, true));
    states, steps := Extend(states, steps, EventArrives(0, FrameEvent(f)));
    states, steps := Extend(states, steps, EventArrives(1, FrameEvent(g)));
    states, steps := Extend(states, steps, EventChecked(0, true));
    states, steps := Extend(states, steps, EventChecked(1, true));
    hide IsFreeRun;
  }

  /** Two frames for one request: the second push finds the first frame stored, and the reader gets only the second. */
  lemma UnaskedFrameOverwrites(f: Frame, g: Frame) returns (states: seq<Sys>, steps: seq<Step>)
    ensures IsFreeRun(states, steps) && |steps| == 8
    ensures Overwrites(states[6], steps[6])
    ensures states[8].accepted == [f, g] && states[8].returned == [g]
  {
    states, steps := TwoFramesPassTheirChecks(f, g);
    states, steps := Extend(states, steps, EventPushed(0));
    states, steps := Extend(states, steps, EventPushed(1));
    states, steps := Extend(states, steps, ReaderWakes);
  }

  /** So a frame is overwritten only in runs in which some frame came unasked. */
  lemma OverwrittenMeansUnasked(states: seq<Sys>, steps: seq<Step>, n: nat)
    requires IsFreeRun(states, steps) && n < |steps| && Overwrites(states[n], steps[n])
    ensures exists i :: 0 <= i < n && !Demanded(states[i], steps[i])
  {
    if forall i | 0 <= i < n :: Demanded(states[i], steps[i]) {
      var before, done := states[..n + 1], steps[..n];
      assert IsRun(before, done);
      ReachableInv(before, done, n);
      FramesInFlightMove(states[n].events, steps[n].e, states[n].events[steps[n].e]);
    }
  }
}

/** DataTrackStream's fields and locked sections. */
module DataTrackStreamObject {
  import opened Common
  import S = DataTrackStreamSpec

  class DataTrackStream {
    var frame: Option<S.Frame>
    var eof: bool
    var closed: bool
    var terminalError: Option<S.Error>
    var handle: nat
    var listener: Option<nat>

    function View(): S.Stream
      reads this
    {
      S.Stream(frame, eof, closed, terminalError)
    }

    constructor (handle: nat, listener: nat)
      ensures View() == S.NewStream && this.handle == handle && this.listener == Some(listener)
    {
      frame, eof, closed, terminalError := None, false, false, None;
      this.handle, this.listener := handle, Some(listener);
    }

    /** The fields are those of `s`. */
    ghost predicate Shows(s: S.Sys)
      reads this
    {
      View() == s.stream
    }

    /**
     read()'s first section: the stream handle to ask with, if the stream can still be read. Then the reader stands
     where the answer sends it; otherwise read() has returned and nothing has changed.
     */
    method BeginRead(ghost s: S.Sys, ghost answer: S.Answer, ghost granted: bool) returns (request: Option<nat>)
      requires Shows(s) && s.reader.Idle?
      ensures Shows(S.Apply(s, S.Read(answer, granted)))
      ensures request.None? ==> S.Apply(s, S.Read(answer, granted)) == s
      ensures request.Some? ==>
                request.value == handle && S.Apply(s, S.Read(answer, granted)).reader == S.AfterAnswer(answer)
    {
      if closed || eof {
        return None;
      }
      request := Some(handle);
    }

    /** read()'s last section, after its wait. */
    method FinishRead() returns (out: Option<S.Frame>)
      requires View().CanWake()
      modifies this`frame
      ensures out == old(View()).Taken() && View() == old(View()).Take()
    {
      if closed || (frame.None? && eof) {
        return None;
      }
      out := frame;
      frame := None;
    }

    /** onFfiEvent's check: the event stays exactly if its push is to follow. */
    method Accepts(ghost s: S.Sys, ghost e: S.EventId, streamHandle: nat) returns (ok: bool)
      requires Shows(s) && e in s.events && !s.events[e].passed
      ensures Shows(S.Apply(s, S.EventChecked(e, streamHandle == handle)))
      ensures ok <==> e in S.Apply(s, S.EventChecked(e, streamHandle == handle)).events
    {
      ok := !(closed || streamHandle != handle);
    }

    /** The precondition is the assertion in the source. */
    method PushFrame(f: S.Frame)
      requires View().CanStore()
      modifies this`frame
      ensures View() == old(View()).PushFrame(f)
    {
      if closed || eof {
        return;
      }
      frame := Some(f);
    }

    method PushEos(error: Option<S.Error>)
      modifies this`eof, this`terminalError
      ensures View() == old(View()).PushEos(error)
    {
      if closed || eof {
        return;
      }
      eof := true;
      terminalError := error;
    }

    /** `removed` is the listener to unregister after unlocking: handed out once, by the first close. */
    method Close() returns (removed: Option<nat>)
      modifies this
      ensures View() == old(View()).Close()
      ensures removed == if old(closed) then None else old(listener)
      ensures old(closed) ==> listener == old(listener) && handle == old(handle)
      ensures !old(closed) ==> listener == None && handle == 0
    {
      if closed {
        return None;
      }
      closed := true;
      if !eof {
        terminalError := None;
      }
      handle := 0;
      removed := listener;
      listener := None;
    }

    /** A response without the expected message ends the stream with a protocol error, unless it has ended already. */
    method FailProtocolError() returns (removed: Option<nat>)
      modifies this
      ensures closed
      ensures View() == old(View()).PushEos(Some(S.ProtocolError)).Close()
      ensures !old(closed) && !old(eof) ==> terminalError == Some(S.ProtocolError)
    {
      PushEos(Some(S.ProtocolError));
      removed := Close();
    }
  }
}
