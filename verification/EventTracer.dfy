/**
 The trace writer (src/trace/event_tracer.cpp): threads push events, one writer thread drains them into a file, and
 one controlling thread starts and stops tracing. Every locked section, atomic access and file write is one step.
 */
module EventTracerSpec {
  import opened Common

  type Event = nat
  type ThreadId = nat

  type Time = nat

  /** FormatEventJson, which this model leaves abstract: an event's text depends on the start time of the session. */
  type Format = (Event, Time) -> Bytes

  const COMMA: Bytes := [0x2C]

  function Ascii(s: string): Bytes {
    seq(|s|, i requires 0 <= i < |s| => (s[i] as int) % 256)
  }

  const HEADER := Ascii("{\"traceEvents\":[")
  const FOOTER := Ascii("],\"displayTimeUnit\":\"ms\"}")

  /** Events as the writer puts them out; `first` says whether none precede them. */
  function Joined(fmt: Format, start: Time, first: bool, events: seq<Event>): Bytes {
    if events == [] then []
    else (if first then [] else COMMA) + fmt(events[0], start) + Joined(fmt, start, false, events[1..])
  }

  datatype Writer = NoThread | Waiting | Writing(batch: seq<Event>) | CheckingFlag | CheckingQueue | Exited

  datatype Control = Idle | Disabled | Requested | WriterJoined

  datatype File = Closed | Open(text: Bytes)

  /** History of one session: what the queue held at its start, and what was pushed, written and sealed since. */
  datatype Session = Session(
    leftovers: seq<Event>,
    pushed: seq<Event>,
    written: seq<Event>,
    /** pushed, when the writer last found the queue empty and exited */
    sealed: seq<Event>,
    /** pushed, when the stop was called */
    atStop: seq<Event>)

  datatype Sys = Sys(
    queue: seq<Event>,
    enabled: bool,
    shutdownRequested: bool,
    firstEvent: bool,
    startTime: Time,
    file: File,
    writer: Writer,
    control: Control,
    adding: map<ThreadId, Event>,
    session: Session,
    /** the last file that was finished */
    finished: Option<Bytes>)

  const Initial := Sys([], false, false, true, 0, Closed, NoThread, Idle, map[], Session([], [], [], [], []), None)

  datatype Step =
    | AddCheck(t: ThreadId, event: Event)
    | AddPush(t: ThreadId)
    | Start(opens: bool, now: Time)
    | StopBegin | StopRequest | StopJoin | StopFinish
    | WriterDrain | WriterWrite | WriterCheckFlag | WriterCheckQueue

  /** Starting and stopping happen one at a time; a thread adds one event at a time. */
  predicate Enabled(s: Sys, step: Step) {
    match step
    case AddCheck(t, _) => t !in s.adding
    case AddPush(t) => t in s.adding
    case Start(_, _) => s.control.Idle?
    case StopBegin => s.control.Idle?
    case StopRequest => s.control.Disabled?
    case StopJoin => s.control.Requested? && (s.writer.NoThread? || s.writer.Exited?)
    case StopFinish => s.control.WriterJoined?
    case WriterDrain => s.writer.Waiting? && (s.queue != [] || s.shutdownRequested)
    case WriterWrite => s.writer.Writing?
    case WriterCheckFlag => s.writer.CheckingFlag?
    case WriterCheckQueue => s.writer.CheckingQueue?
  }

  function WriteOne(s: Sys, fmt: Format, event: Event): Sys {
    if s.file.Closed? then s
    else
      s.(file := Open((if s.firstEvent then s.file.text else s.file.text + COMMA) + fmt(event, s.startTime)),
         firstEvent := false,
         session := s.session.(written := s.session.written + [event]))
  }

  function Begin(s: Sys, now: Time): Sys {
    s.(file := Open(HEADER), firstEvent := true, startTime := now, shutdownRequested := false, writer := Waiting,
       enabled := true,
       session := Session(s.queue, [], [], [], []))
  }

  function Apply(s: Sys, step: Step, fmt: Format): Sys
    requires Enabled(s, step)
  {
    match step
    case AddCheck(t, event) => if s.enabled then s.(adding := s.adding[t := event]) else s
    case AddPush(t) =>
      s.(queue := s.queue + [s.adding[t]], adding := s.adding - {t},
         session := s.session.(pushed := s.session.pushed + [s.adding[t]]))
    case Start(opens, now) => if s.enabled || !opens then s else Begin(s, now)
    case StopBegin => s.(enabled := false, control := Disabled, session := s.session.(atStop := s.session.pushed))
    case StopRequest => s.(shutdownRequested := true, control := Requested)
    case StopJoin => s.(writer := NoThread, control := WriterJoined)
    case StopFinish =>
      if s.file.Open? then s.(file := Closed, control := Idle, finished := Some(s.file.text + FOOTER))
      else s.(control := Idle)
    case WriterDrain => s.(queue := [], writer := Writing(s.queue))
    case WriterWrite =>
      if s.writer.batch == [] then s.(writer := CheckingFlag)
      else WriteOne(s, fmt, s.writer.batch[0]).(writer := Writing(s.writer.batch[1..]))
    case WriterCheckFlag => s.(writer := if s.shutdownRequested then CheckingQueue else Waiting)
    case WriterCheckQueue =>
      if s.queue == [] then s.(writer := Exited, session := s.session.(sealed := s.session.pushed))
      else s.(writer := Waiting)
  }

  ghost predicate IsRun(states: seq<Sys>, steps: seq<Step>, fmt: Format) {
    && |states| == |steps| + 1
    && states[0] == Initial
    && forall i | 0 <= i < |steps| :: Enabled(states[i], steps[i]) && states[i + 1] == Apply(states[i], steps[i], fmt)
  }
}

module EventTracerSafety {
  import opened Common
  import opened EventTracerSpec

  lemma {:induction false} JoinedAppend(fmt: Format, start: Time, first: bool, events: seq<Event>, event: Event)
    ensures Joined(fmt, start, first, events + [event]) ==
            Joined(fmt, start, first, events) + (if first && events == [] then [] else COMMA) + fmt(event, start)
    decreases |events|
  {
    if events == [] {
      assert [event][1..] == [];
      assert Joined(fmt, start, first, [event]) == (if first then [] else COMMA) + fmt(event, start) + [];
    } else {
      assert (events + [event])[1..] == events[1..] + [event];
      JoinedAppend(fmt, start, false, events[1..], event);
    }
  }

  function Batch(w: Writer): seq<Event> { if w.Writing? then w.batch else [] }

  predicate Running(s: Sys) { !s.writer.NoThread? && !s.writer.Exited? }

  /** Events: written, then held by the writer, then queued, are the leftovers and then everything pushed since. */
  ghost predicate Conserved(s: Sys) {
    var h := s.session;
    if Running(s) then h.written + Batch(s.writer) + s.queue == h.leftovers + h.pushed
    else h.sealed <= h.pushed && h.written == h.leftovers + h.sealed && s.queue == h.pushed[|h.sealed|..]
  }

  /** The file: header and comma-joined events while it is open; the footer as well in the one finished last. */
  ghost predicate FileAgrees(s: Sys, fmt: Format) {
    match s.file
    case Open(text) =>
      text == HEADER + Joined(fmt, s.startTime, true, s.session.written) && (s.firstEvent <==> s.session.written == [])
    case Closed =>
      (s.finished.Some? ==> s.finished.value == HEADER + Joined(fmt, s.startTime, true, s.session.written) + FOOTER)
      && (s.finished.None? ==> s.session.written == [])
  }

  /** Which combinations of file, writer and controller occur. */
  ghost predicate PhasesAgree(s: Sys) {
    && (Running(s) ==> s.file.Open?)
    && (s.file.Open? && s.writer.NoThread? ==> s.control.WriterJoined?)
    && (s.control.Idle? && s.file.Open? ==> s.enabled)
    && (s.control.Idle? && !s.enabled ==> s.writer.NoThread?)
    && (s.enabled ==> s.control.Idle? && s.file.Open? && Running(s) && !s.shutdownRequested)
    && (s.writer.CheckingQueue? || s.writer.Exited? ==> s.shutdownRequested)
    && (s.shutdownRequested && Running(s) ==> s.control.Requested?)
    && (s.control.WriterJoined? ==> s.writer.NoThread?)
    && (s.control.Disabled? ==> !s.writer.Exited?)
  }

  /** What had been pushed when the stop was called is sealed by the time the writer exits. */
  ghost predicate StopCovered(s: Sys) {
    && (!s.control.Idle? || !s.enabled ==> s.session.atStop <= s.session.pushed)
    && (s.enabled ==> s.session.atStop == [])
    && (!Running(s) && (s.control.Requested? || s.control.WriterJoined?) && s.file.Open? ==>
          s.session.atStop <= s.session.sealed)
  }

  ghost predicate Inv(s: Sys, fmt: Format) {
    Conserved(s) && FileAgrees(s, fmt) && PhasesAgree(s) && StopCovered(s)
  }

  lemma PhasesKept(s: Sys, step: Step, fmt: Format)
    requires PhasesAgree(s) && Enabled(s, step)
    ensures PhasesAgree(Apply(s, step, fmt))
  {
  }

  lemma PushConserves(s: Sys, t: ThreadId, fmt: Format)
    requires Conserved(s) && t in s.adding
    ensures Conserved(Apply(s, AddPush(t), fmt))
  {
    var h, event := s.session, s.adding[t];
    if Running(s) {
      var before := h.written + Batch(s.writer);
      assert before + (s.queue + [event]) == before + s.queue + [event];
      assert h.leftovers + (h.pushed + [event]) == h.leftovers + h.pushed + [event];
    } else {
      assert (h.pushed + [event])[|h.sealed|..] == h.pushed[|h.sealed|..] + [event];
    }
  }

  lemma ConservedKept(s: Sys, step: Step, fmt: Format)
    requires Conserved(s) && PhasesAgree(s) && Enabled(s, step)
    ensures Conserved(Apply(s, step, fmt))
  {
    var h, s' := s.session, Apply(s, step, fmt);
    match step {
      case AddPush(t) => PushConserves(s, t, fmt);
      case Start(_, _) =>
        assert [] + [] + s.queue == s.queue + [];
      case WriterDrain =>
        assert h.written + [] + s.queue == h.written + s.queue + [];
      case WriterWrite =>
        if s.writer.batch != [] {
          assert h.written + [s.writer.batch[0]] + s.writer.batch[1..] == h.written + s.writer.batch;
        }
      case WriterCheckQueue =>
        if s.queue == [] {
          assert h.written + [] + [] == h.written;
        }
      case _ =>
    }
  }

  lemma FileKept(s: Sys, step: Step, fmt: Format)
    requires FileAgrees(s, fmt) && PhasesAgree(s) && Enabled(s, step)
    ensures FileAgrees(Apply(s, step, fmt), fmt)
  {
    match step {
      case Start(_, _) =>
        assert HEADER + [] == HEADER;
      case WriterWrite =>
        if s.writer.batch != [] {
          var written, event := s.session.written, s.writer.batch[0];
          JoinedAppend(fmt, s.startTime, true, written, event);
          var text, added := Joined(fmt, s.startTime, true, written), fmt(event, s.startTime);
          assert HEADER + (text + [] + added) == HEADER + text + added;
          assert HEADER + (text + COMMA + added) == HEADER + text + COMMA + added;
        }
      case _ =>
    }
  }

  lemma StopKept(s: Sys, step: Step, fmt: Format)
    requires StopCovered(s) && Conserved(s) && PhasesAgree(s) && Enabled(s, step)
    ensures StopCovered(Apply(s, step, fmt))
  {
  }

  lemma {:induction false} ReachableInv(states: seq<Sys>, steps: seq<Step>, fmt: Format, n: nat)
    requires IsRun(states, steps, fmt) && n <= |steps|
    ensures Inv(states[n], fmt)
    decreases n
  {
    if n > 0 {
      ReachableInv(states, steps, fmt, n - 1);
      var s, step := states[n - 1], steps[n - 1];
      assert Enabled(s, step);
      PhasesKept(s, step, fmt);
      ConservedKept(s, step, fmt);
      FileKept(s, step, fmt);
      StopKept(s, step, fmt);
    }
  }

  // ---------------------------------------------------------------- what every interleaving keeps

  /** While a writer runs, no event is lost, repeated or reordered, and the open file holds those written so far. */
  lemma WriterConservesEvents(states: seq<Sys>, steps: seq<Step>, fmt: Format, n: nat)
    requires IsRun(states, steps, fmt) && n <= |steps| && Running(states[n])
    ensures var s, h := states[n], states[n].session;
            && h.written + Batch(s.writer) + s.queue == h.leftovers + h.pushed
            && s.file == Open(HEADER + Joined(fmt, s.startTime, true, h.written))
  {
    ReachableInv(states, steps, fmt, n);
  }

  /**
   When stop returns, the file is the header, the comma-joined events and the footer. It holds the leftovers and every
   event pushed before the writer's last look at the queue, among them all that were pushed before the stop was
   called; the rest stay queued.
   */
  lemma StopFinishesFile(states: seq<Sys>, steps: seq<Step>, fmt: Format, n: nat)
    requires IsRun(states, steps, fmt) && n < |steps| && steps[n].StopFinish? && states[n].file.Open?
    ensures var s, h := states[n + 1], states[n + 1].session;
            && s.file.Closed?
            && s.finished == Some(HEADER + Joined(fmt, s.startTime, true, h.leftovers + h.sealed) + FOOTER)
            && h.atStop <= h.sealed <= h.pushed
            && s.queue == h.pushed[|h.sealed|..]
  {
    ReachableInv(states, steps, fmt, n);
    ReachableInv(states, steps, fmt, n + 1);
    assert Enabled(states[n], steps[n]);
  }

  /** Events that were pushed too late for one file are the first ones of the next. */
  lemma LateEventsOpenNextFile(states: seq<Sys>, steps: seq<Step>, fmt: Format, n: nat)
    requires IsRun(states, steps, fmt) && n < |steps| && steps[n].Start? && steps[n].opens && !states[n].enabled
    ensures |states[n].session.sealed| <= |states[n].session.pushed|
    ensures states[n + 1].session.leftovers == states[n].session.pushed[|states[n].session.sealed|..]
    ensures states[n + 1].enabled && states[n + 1].file == Open(HEADER) && states[n + 1].startTime == steps[n].now
  {
    ReachableInv(states, steps, fmt, n);
    assert Enabled(states[n], steps[n]);
  }

  /** While tracing is enabled its writer runs, has not been asked to stop, and has the file open. */
  lemma EnabledHasWriter(states: seq<Sys>, steps: seq<Step>, fmt: Format, n: nat)
    requires IsRun(states, steps, fmt) && n <= |steps| && states[n].enabled
    ensures Running(states[n]) && !states[n].shutdownRequested && states[n].file.Open?
  {
    ReachableInv(states, steps, fmt, n);
  }

  /** A start that goes ahead finds the last writer joined and the last file closed: it replaces neither. */
  lemma StartFindsWriterJoined(states: seq<Sys>, steps: seq<Step>, fmt: Format, n: nat)
    requires IsRun(states, steps, fmt) && n < |steps| && steps[n].Start? && !states[n].enabled
    ensures states[n].writer.NoThread? && states[n].file.Closed?
  {
    ReachableInv(states, steps, fmt, n);
    assert Enabled(states[n], steps[n]);
  }
}

/** The tracer's global variables and the functions that change them, tied to the steps of EventTracerSpec. */
module EventTracerObject {
  import opened Common
  import opened EventTracerSpec
  import opened EventTracerSafety

  /** The writer's turns over its batch, the last of which finds it empty. */
  function Written(s: Sys, fmt: Format): (end: Sys)
    requires s.writer.Writing?
    ensures end.writer.CheckingFlag? && end.queue == s.queue && end.shutdownRequested == s.shutdownRequested
    decreases |s.writer.batch|
  {
    var next := Apply(s, WriterWrite, fmt);
    if s.writer.batch == [] then next else Written(next, fmt)
  }

  lemma OneWritten(s: Sys, fmt: Format)
    requires s.writer.Writing? && s.file.Open? && s.writer.batch != []
    ensures var next, event := Apply(s, WriterWrite, fmt), s.writer.batch[0];
            && next.writer == Writing(s.writer.batch[1..]) && next.startTime == s.startTime && !next.firstEvent
            && next.file == Open(s.file.text + (if s.firstEvent then [] else COMMA) + fmt(event, s.startTime))
            && next.session.written == s.session.written + [event]
  {
    assert s.file.text + [] == s.file.text;
  }

  /** What a batch adds to the file. */
  lemma {:induction false} WrittenIs(s: Sys, fmt: Format)
    requires s.writer.Writing? && s.file.Open?
    ensures var end, batch := Written(s, fmt), s.writer.batch;
            && end.file == Open(s.file.text + Joined(fmt, s.startTime, s.firstEvent, batch))
            && end.firstEvent == (s.firstEvent && batch == [])
            && end.session.written == s.session.written + batch
    decreases |s.writer.batch|
  {
    var batch := s.writer.batch;
    if batch == [] {
      assert s.file.text + [] == s.file.text && s.session.written + [] == s.session.written;
    } else {
      var next := Apply(s, WriterWrite, fmt);
      OneWritten(s, fmt);
      hide Apply, COMMA;
      WrittenIs(next, fmt);
      var comma, event := if s.firstEvent then [] else COMMA, fmt(batch[0], s.startTime);
      var rest := Joined(fmt, s.startTime, false, batch[1..]);
      assert s.file.text + comma + event + rest == s.file.text + (comma + event + rest);
      assert s.session.written + [batch[0]] + batch[1..] == s.session.written + batch;
    }
  }

  class EventTracer {
    const format: Format
    var queue: seq<Event>
    var enabled: bool
    var shutdownRequested: bool
    var firstEvent: bool
    var startTime: Time
    var file: File
    var writerJoinable: bool

    /** The fields are those of `s`. */
    ghost predicate Shows(s: Sys)
      reads this
    {
      && queue == s.queue && enabled == s.enabled && shutdownRequested == s.shutdownRequested
      && firstEvent == s.firstEvent && startTime == s.startTime && file == s.file
      && writerJoinable == !s.writer.NoThread?
    }

    constructor (format: Format)
      ensures this.format == format && Shows(Initial)
    {
      this.format := format;
      queue, enabled, shutdownRequested, firstEvent, startTime := [], false, false, true, 0;
      file, writerJoinable := File.Closed, false;
    }

    // ---------------------------------------------------------------- adding events

    /** AddTraceEvent's first look, without the lock. */
    method CheckEnabled(ghost s: Sys, ghost t: ThreadId, event: Event) returns (ok: bool)
      requires Shows(s) && Enabled(s, AddCheck(t, event))
      ensures Shows(Apply(s, AddCheck(t, event), format))
      ensures ok <==> t in Apply(s, AddCheck(t, event), format).adding
    {
      ok := enabled;
    }

    /** AddTraceEvent's push, whatever has become of tracing since the look. */
    method PushEvent(ghost s: Sys, ghost t: ThreadId, event: Event)
      requires Shows(s) && t in s.adding && s.adding[t] == event
      modifies this`queue
      ensures Shows(Apply(s, AddPush(t), format))
    {
      queue := queue + [event];
    }

    /** Other threads start or stop tracing. */
    method OthersSwitch()
      modifies this`enabled
    {
      enabled := *;
    }

    /** The whole of AddTraceEvent: tracing may be switched off between its look and its push. */
    method AddTraceEvent(event: Event)
      modifies this`queue, this`enabled
      ensures queue == if old(enabled) then old(queue) + [event] else old(queue)
    {
      if !enabled {
        return;
      }
      OthersSwitch();
      queue := queue + [event];
    }

    // ---------------------------------------------------------------- the writer

    /** The writer's drain, after its wait: the loop that moves the queue into the batch. */
    method Drain(ghost s: Sys) returns (batch: seq<Event>)
      requires Shows(s) && Enabled(s, WriterDrain)
      modifies this`queue
      ensures Shows(Apply(s, WriterDrain, format)) && Apply(s, WriterDrain, format).writer == Writing(batch)
    {
      batch := [];
      while queue != []
        invariant batch + queue == s.queue
        decreases |queue|
      {
        batch := batch + [queue[0]];
        queue := queue[1..];
      }
    }

    /** The writer's loop over a batch: one writing step for each event. */
    method WriteBatch(ghost s: Sys, batch: seq<Event>)
      requires Shows(s) && s.writer == Writing(batch)
      modifies this`file, this`firstEvent
      ensures Shows(Written(s, format))
    {
      ghost var now := s;
      for i := 0 to |batch|
        invariant Shows(now) && now.writer == Writing(batch[i..])
        invariant Written(now, format) == Written(s, format)
      {
        assert batch[i..][0] == batch[i] && batch[i..][1..] == batch[i + 1..];
        now := Apply(now, WriterWrite, format);
        if file.Open? {
          var text := file.text;
          if !firstEvent {
            text := text + COMMA;
          }
          firstEvent := false;
          file := Open(text + format(batch[i], startTime));
        }
      }
    }

    /** The end of a turn: exit only if a stop was requested and the queue is empty. */
    method FinishTurn(ghost s: Sys) returns (exit: bool, ghost now: Sys)
      requires Shows(s) && s.writer.CheckingFlag?
      ensures Shows(now) && (exit <==> now.writer.Exited?) && (!exit ==> now.writer.Waiting?)
      ensures now == var checked := Apply(s, WriterCheckFlag, format);
                     if checked.writer.CheckingQueue? then Apply(checked, WriterCheckQueue, format) else checked
    {
      now := Apply(s, WriterCheckFlag, format);
      if !shutdownRequested {
        return false, now;
      }
      now := Apply(now, WriterCheckQueue, format);
      exit := queue == [];
    }

    /** WriterThreadFunc once a stop has been requested and nobody else pushes: one turn, and it exits. */
    method RunWriter(ghost s: Sys) returns (ghost end: Sys)
      requires Shows(s) && s.writer.Waiting? && s.shutdownRequested && s.file.Open?
      modifies this`queue, this`file, this`firstEvent
      ensures Shows(end) && end.writer.Exited? && end.control == s.control && end.enabled == s.enabled
      ensures end.queue == [] && end.startTime == s.startTime
      ensures end.file == Open(s.file.text + Joined(format, s.startTime, s.firstEvent, s.queue))
    {
      var batch := Drain(s);
      ghost var drained := Apply(s, WriterDrain, format);
      WrittenIs(drained, format);
      WrittenKeeps(drained, format);
      WriteBatch(drained, batch);
      var exit;
      exit, end := FinishTurn(Written(drained, format));
    }

    // ---------------------------------------------------------------- start and stop

    /** Assigning a thread over a joinable one would end the process, so the last writer must be joined. */
    method StartTracing(ghost s: Sys, opens: bool, now: Time) returns (started: bool)
      requires Shows(s) && PhasesAgree(s) && Enabled(s, Start(opens, now))
      modifies this
      ensures Shows(Apply(s, Start(opens, now), format))
      ensures started <==> !s.enabled && opens
    {
      if enabled || !opens {
        return false;
      }
      file := Open(HEADER);
      firstEvent := true;
      startTime := now;
      shutdownRequested := false;
      assert !writerJoinable;
      writerJoinable := true;
      enabled := true;
      started := true;
    }

    method DisableTracing(ghost s: Sys)
      requires Shows(s) && Enabled(s, StopBegin)
      modifies this`enabled
      ensures Shows(Apply(s, StopBegin, format))
    {
      enabled := false;
    }

    method RequestStop(ghost s: Sys)
      requires Shows(s) && Enabled(s, StopRequest)
      modifies this`shutdownRequested
      ensures Shows(Apply(s, StopRequest, format))
    {
      shutdownRequested := true;
    }

    method JoinWriter(ghost s: Sys)
      requires Shows(s) && Enabled(s, StopJoin)
      modifies this`writerJoinable
      ensures Shows(Apply(s, StopJoin, format))
    {
      if writerJoinable {
        writerJoinable := false;
      }
    }

    method CloseFile(ghost s: Sys) returns (finished: Option<Bytes>)
      requires Shows(s) && Enabled(s, StopFinish)
      modifies this`file
      ensures Shows(Apply(s, StopFinish, format))
      ensures finished == if s.file.Open? then Some(s.file.text + FOOTER) else None
    {
      finished := None;
      if file.Open? {
        finished := Some(file.text + FOOTER);
        file := File.Closed;
      }
    }

    /** StopTracing without interference: the writer was waiting, and runs to its exit before it is joined. */
    method StopTracing(ghost s: Sys) returns (finished: Option<Bytes>, ghost end: Sys)
      requires Shows(s) && PhasesAgree(s) && s.control.Idle? && (s.writer.Waiting? || s.writer.NoThread?)
      modifies this
      ensures Shows(end) && end.control.Idle? && !end.enabled && end.writer.NoThread? && end.file.Closed?
      ensures finished == if s.file.Closed? then None
                          else Some(s.file.text + Joined(format, s.startTime, s.firstEvent, s.queue) + FOOTER)
      ensures s.file.Open? ==> end.queue == []
    {
      DisableTracing(s);
      end := Apply(s, StopBegin, format);
      RequestStop(end);
      end := Apply(end, StopRequest, format);
      if writerJoinable {
        end := RunWriter(end);
      }
      JoinWriter(end);
      end := Apply(end, StopJoin, format);
      finished := CloseFile(end);
      end := Apply(end, StopFinish, format);
    }
  }

  lemma {:induction false} WrittenKeeps(s: Sys, fmt: Format)
    requires s.writer.Writing?
    ensures var end := Written(s, fmt);
            end.control == s.control && end.enabled == s.enabled && end.startTime == s.startTime
    decreases |s.writer.batch|
  {
    if s.writer.batch != [] {
      WrittenKeeps(Apply(s, WriterWrite, fmt), fmt);
    }
  }
}
