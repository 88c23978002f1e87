/**
 What becomes of each read, each event and each close of a data track stream, whatever runs in between, and runs in
 which any frames are read in order up to the end of the stream.
 */
module DataTrackOutcomes {
  import opened Common
  import opened DataTrackStreamSpec

  // ---------------------------------------------------------------- a read

  /** Where the reader stands after an answer, until its read is over. */
  predicate Awaits(s: Sys, answer: Answer) {
    match answer
    case Missing => s.reader.Failing? || s.reader.FailedClosing?
    case Plain => s.reader.Waiting?
    case WithEos(error) => s.reader == Ending(error) || s.reader.Waiting?
  }

  /** A read of a stream that can still be read asks for a frame if the request is granted; any other does nothing. */
  lemma ReadAsks(s: Sys, answer: Answer, granted: bool)
    requires Possible(s, Read(answer, granted))
    ensures var s' := Apply(s, Read(answer, granted));
            if s.stream.closed || s.stream.eof then s' == s
            else
              && Awaits(s', answer) && !s'.reader.Idle? && s'.stream == s.stream && s'.events == s.events
              && s'.demand == s.demand + if granted then 1 else 0
  {
  }

  /** What a read's push of an end-of-stream does: nothing once the stream is over, and else it ends it with `error`. */
  ghost predicate Pushes(s: Sys, step: Step, s': Sys, error: Option<Error>) {
    && step.ReaderPushesEos?
    && if s.stream.closed || s.stream.eof then s'.stream == s.stream
       else s'.stream == s.stream.(eof := true, terminalError := error)
  }

  /** The end-of-stream that an answer makes the read push itself. */
  function OwnEos(answer: Answer): Option<Option<Error>> {
    match answer
    case Missing => Some(Some(ProtocolError))
    case Plain => None
    case WithEos(error) => Some(error)
  }

  predicate HasPushed(s: Sys, answer: Answer) {
    match answer
    case Missing => s.reader.FailedClosing?
    case Plain => false
    case WithEos(_) => s.reader.Waiting?
  }

  /** One step while a read is in progress. */
  lemma ReadGoesOn(s: Sys, step: Step, answer: Answer)
    requires Possible(s, step) && Awaits(s, answer)
    ensures var s' := Apply(s, step);
            if s'.reader.Idle? then
              if answer.Missing? then HasPushed(s, answer) && step.ReaderCloses? && s'.stream.closed
              else s.reader.Waiting? && step.ReaderWakes? && s.stream.CanWake()
            else
              && Awaits(s', answer)
              && (HasPushed(s', answer) && !HasPushed(s, answer) ==> Pushes(s, step, s', OwnEos(answer).value))
  {
  }

  ghost predicate InProgress(states: seq<Sys>, k: nat, n: nat) {
    forall m | k < m < n :: m < |states| ==> !states[m].reader.Idle?
  }

  lemma {:induction false} ReadProgress(states: seq<Sys>, steps: seq<Step>, k: nat, n: nat) returns (p: nat)
    requires IsFreeRun(states, steps) && k < n <= |steps| && steps[k].Read?
    requires !states[k].stream.closed && !states[k].stream.eof && InProgress(states, k, n + 1)
    ensures Awaits(states[n], steps[k].answer)
    ensures HasPushed(states[n], steps[k].answer) ==>
              k < p < n && Pushes(states[p], steps[p], states[p + 1], OwnEos(steps[k].answer).value)
    decreases n
  {
    var answer := steps[k].answer;
    p := n - 1;
    if n == k + 1 {
      assert Possible(states[k], steps[k]);
      ReadAsks(states[k], answer, steps[k].granted);
    } else {
      var q := ReadProgress(states, steps, k, n - 1);
      assert Possible(states[n - 1], steps[n - 1]);
      ReadGoesOn(states[n - 1], steps[n - 1], answer);
      hide Apply, Possible, Pushes, Awaits;
      assert !states[n].reader.Idle?;
      if HasPushed(states[n - 1], answer) {
        p := q;
      }
    }
  }

  /**
   A read that was begun on a stream that could be read is over with the first state in which the reader is idle again.
   Without the expected answer it has pushed the protocol error and closed the stream. An end-of-stream in the answer
   has been pushed before the wait. The wait has ended with a frame, an end-of-stream or a close.
   */
  lemma ReadOutcome(states: seq<Sys>, steps: seq<Step>, k: nat, n: nat) returns (p: nat)
    requires IsFreeRun(states, steps) && k + 1 < n <= |steps| && steps[k].Read?
    requires !states[k].stream.closed && !states[k].stream.eof
    requires InProgress(states, k, n) && states[n].reader.Idle?
    ensures match steps[k].answer
            case Missing =>
              && k < p < n - 1 && Pushes(states[p], steps[p], states[p + 1], Some(ProtocolError))
              && steps[n - 1].ReaderCloses? && states[n].stream.closed
            case Plain => steps[n - 1].ReaderWakes? && states[n - 1].stream.CanWake()
            case WithEos(error) =>
              && k < p < n - 1 && Pushes(states[p], steps[p], states[p + 1], error)
              && steps[n - 1].ReaderWakes? && states[n - 1].stream.CanWake()
  {
    p := ReadProgress(states, steps, k, n - 1);
    assert Possible(states[n - 1], steps[n - 1]);
    ReadGoesOn(states[n - 1], steps[n - 1], steps[k].answer);
    hide Apply, Possible, Pushes;
  }

  // ---------------------------------------------------------------- an event

  /** What an event's push does to the stream: nothing once it is over, and else it stores the frame or ends it. */
  ghost predicate Arrives(s: Stream, event: Event, s': Stream) {
    if s.closed || s.eof then s' == s
    else
      match event
      case FrameEvent(frame) => s' == s.(frame := Some(frame))
      case EosEvent(error) => s' == s.(eof := true, terminalError := error)
  }

  /** The event's check found the stream closed, or the event another stream's. */
  ghost predicate Dropped(s: Sys, step: Step, e: EventId) {
    step.EventChecked? && step.e == e && (s.stream.closed || !step.mine)
  }

  lemma EventStep(s: Sys, step: Step, e: EventId)
    requires Possible(s, step) && e in s.events
    ensures var s', pending := Apply(s, step), s.events[e];
            if e in s'.events then
              && s'.events[e].event == pending.event
              && (s'.events[e].passed && !pending.passed ==> step == EventChecked(e, true) && !s.stream.closed)
            else if pending.passed then step == EventPushed(e) && Arrives(s.stream, pending.event, s'.stream)
            else Dropped(s, step, e) && s'.stream == s.stream
  {
  }

  lemma {:induction false} EventWaits(states: seq<Sys>, steps: seq<Step>, k: nat, n: nat, e: EventId, event: Event)
    returns (c: nat)
    requires IsFreeRun(states, steps) && k < n <= |steps| && steps[k] == EventArrives(e, event)
    requires forall m | k < m <= n :: e in states[m].events
    ensures states[n].events[e].event == event
    ensures states[n].events[e].passed ==> k < c < n && steps[c] == EventChecked(e, true) && !states[c].stream.closed
    decreases n
  {
    c := n - 1;
    assert Possible(states[n - 1], steps[n - 1]);
    if n > k + 1 {
      var d := EventWaits(states, steps, k, n - 1, e, event);
      EventStep(states[n - 1], steps[n - 1], e);
      hide Apply, Possible;
      if states[n - 1].events[e].passed {
        c := d;
      }
    }
  }

  /**
   An event is over with the first state in which it is gone: its check has dropped it, as another stream's or after a
   close, or it has passed its check and been pushed, and then unless the stream was over its frame is the one stored,
   or its end-of-stream has ended the stream with its error.
   */
  lemma EventOutcome(states: seq<Sys>, steps: seq<Step>, k: nat, n: nat, e: EventId, event: Event) returns (c: nat)
    requires IsFreeRun(states, steps) && k + 1 < n <= |steps| && steps[k] == EventArrives(e, event)
    requires (forall m | k < m < n :: e in states[m].events) && e !in states[n].events
    ensures || Dropped(states[n - 1], steps[n - 1], e)
            || (&& k < c < n - 1 && steps[c] == EventChecked(e, true) && !states[c].stream.closed
                && steps[n - 1] == EventPushed(e)
                && Arrives(states[n - 1].stream, event, states[n].stream))
  {
    c := EventWaits(states, steps, k, n - 1, e, event);
    assert Possible(states[n - 1], steps[n - 1]);
    EventStep(states[n - 1], steps[n - 1], e);
    hide Apply, Possible, Arrives;
  }

  // ---------------------------------------------------------------- a close

  /** After a close nothing is accepted, returned or reported any more. */
  lemma {:induction false} CloseIsFinal(states: seq<Sys>, steps: seq<Step>, k: nat, n: nat)
    requires IsFreeRun(states, steps) && k < n <= |steps| && (steps[k].Close? || steps[k].ReaderCloses?)
    ensures states[n].stream.closed
    ensures states[n].accepted == states[k].accepted && states[n].returned == states[k].returned
    ensures states[n].stream.terminalError ==
            if states[k].stream.closed || states[k].stream.eof then states[k].stream.terminalError else None
    decreases n
  {
    assert Possible(states[n - 1], steps[n - 1]);
    if n > k + 1 {
      CloseIsFinal(states, steps, k, n - 1);
      ClosedStep(states[n - 1], steps[n - 1]);
      hide Apply, Possible;
    }
  }

  lemma ClosedStep(s: Sys, step: Step)
    requires Possible(s, step) && s.stream.closed
    ensures var s' := Apply(s, step);
            && s'.stream.closed && s'.stream.terminalError == s.stream.terminalError
            && s'.accepted == s.accepted && s'.returned == s.returned
  {
  }

  // ---------------------------------------------------------------- frames read up to the end

  lemma Extend(states: seq<Sys>, steps: seq<Step>, step: Step) returns (states': seq<Sys>, steps': seq<Step>)
    requires IsRun(states, steps) && Enabled(states[|steps|], step)
    ensures IsRun(states', steps')
    ensures states' == states + [Apply(states[|steps|], step)] && steps' == steps + [step]
    ensures |states'| == |steps'| + 1 && states'[|steps'|] == Apply(states[|steps|], step)
  {
    states', steps' := states + [Apply(states[|steps|], step)], steps + [step];
    hide Apply, Possible, Demanded;
  }

  /** Nothing is going on, and `frames` have been read. */
  ghost predicate HasRead(s: Sys, frames: seq<Frame>) {
    s == Initial.(accepted := frames, returned := frames)
  }

  /** One read, whose frame comes, passes its check, is pushed, and wakes the read. */
  lemma OneFrameRead(states: seq<Sys>, steps: seq<Step>, frames: seq<Frame>, frame: Frame)
    returns (states': seq<Sys>, steps': seq<Step>)
    requires IsRun(states, steps) && HasRead(states[|steps|], frames)
    ensures IsRun(states', steps') && HasRead(states'[|steps'|], frames + [frame])
  {
    states', steps' := Extend(states, steps, Read(Plain, true));
    states', steps' := Extend(states', steps', EventArrives(0, FrameEvent(frame)));
    states', steps' := Extend(states', steps', EventChecked(0, true));
    states', steps' := Extend(states', steps', EventPushed(0));
    states', steps' := Extend(states', steps', ReaderWakes);
    assert map[0 := Pending(FrameEvent(frame), true)] - {0} == map[];
  }

  lemma {:induction false} FramesRead(frames: seq<Frame>) returns (states: seq<Sys>, steps: seq<Step>)
    ensures IsRun(states, steps) && HasRead(states[|steps|], frames)
    decreases |frames|
  {
    if frames == [] {
      states, steps := [Initial], [];
    } else {
      hide IsRun, HasRead;
      var n := |frames| - 1;
      states, steps := FramesRead(frames[..n]);
      states, steps := OneFrameRead(states, steps, frames[..n], frames[n]);
      assert frames[..n] + [frames[n]] == frames;
    }
  }

  /**
   For any frames and any ending there is a run that keeps to the demand protocol, in which the reader gets exactly
   these frames in order and then the end of the stream, reported with its error.
   */
  lemma FramesThenEnd(frames: seq<Frame>, error: Option<Error>) returns (states: seq<Sys>, steps: seq<Step>)
    ensures IsRun(states, steps)
    ensures var end := states[|steps|];
            && end.accepted == frames && end.returned == frames && end.reader.Idle?
            && end.stream == NewStream.(eof := true, terminalError := error)
    ensures |steps| >= 2 && steps[|steps| - 1].ReaderWakes? && states[|steps| - 1].stream.Taken() == None
  {
    states, steps := FramesRead(frames);
    states, steps := Extend(states, steps, Read(WithEos(error), false));
    states, steps := Extend(states, steps, ReaderPushesEos);
    states, steps := Extend(states, steps, ReaderWakes);
    hide IsRun;
  }
}
