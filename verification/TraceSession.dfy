/**
 Trace sessions as a whole: which events get into the queue, that any events can be traced into a finished file, and
 that a finished file is one JSON text.
 */
module TraceSession {
  import opened Common
  import opened EventTracerSpec
  import opened EventTracerSafety
  import J = JsonEscape

  // ---------------------------------------------------------------- which events are queued

  /** Thread `t` has looked at step `k` with tracing enabled, and has not pushed since. */
  ghost predicate LookedAt(states: seq<Sys>, steps: seq<Step>, k: nat, n: nat, t: ThreadId, event: Event)
    requires k < n <= |steps| < |states|
  {
    && steps[k] == AddCheck(t, event) && states[k].enabled
    && forall m | k < m < n :: steps[m] != AddPush(t)
  }

  lemma AddingStep(s: Sys, step: Step, fmt: Format, t: ThreadId)
    requires Enabled(s, step)
    ensures var s' := Apply(s, step, fmt);
            if step == AddPush(t) then
              && t in s.adding && t !in s'.adding && s'.queue == s.queue + [s.adding[t]]
              && s'.session.pushed == s.session.pushed + [s.adding[t]]
            else if step.AddCheck? && step.t == t then
              && t !in s.adding && s'.queue == s.queue
              && (t in s'.adding <==> s.enabled) && (s.enabled ==> s'.adding[t] == step.event)
            else t in s.adding <==> t in s'.adding
    ensures var s' := Apply(s, step, fmt);
            t in s.adding && t in s'.adding ==> s'.adding[t] == s.adding[t]
  {
  }

  /** A thread is about to push exactly the event of its last look, and that look found tracing enabled. */
  lemma {:induction false} AddingMeans(states: seq<Sys>, steps: seq<Step>, fmt: Format, n: nat, t: ThreadId)
    returns (k: nat)
    requires IsRun(states, steps, fmt) && n <= |steps| && t in states[n].adding
    ensures k < n && LookedAt(states, steps, k, n, t, states[n].adding[t])
    decreases n
  {
    var s, step := states[n - 1], steps[n - 1];
    assert Enabled(s, step);
    AddingStep(s, step, fmt, t);
    hide Apply, Enabled;
    if step.AddCheck? && step.t == t {
      k := n - 1;
    } else {
      k := AddingMeans(states, steps, fmt, n - 1, t);
    }
  }

  /** Every push appends the event that its thread found tracing enabled for, behind everything queued before it. */
  lemma PushOutcome(states: seq<Sys>, steps: seq<Step>, fmt: Format, n: nat, t: ThreadId) returns (k: nat)
    requires IsRun(states, steps, fmt) && n < |steps| && steps[n] == AddPush(t)
    ensures k < n && steps[k].AddCheck? && LookedAt(states, steps, k, n, t, steps[k].event)
    ensures states[n + 1].queue == states[n].queue + [steps[k].event]
    ensures states[n + 1].session.pushed == states[n].session.pushed + [steps[k].event]
  {
    assert Enabled(states[n], steps[n]);
    AddingStep(states[n], steps[n], fmt, t);
    hide Apply;
    k := AddingMeans(states, steps, fmt, n, t);
  }

  // ---------------------------------------------------------------- any events, traced into a file

  lemma Extend(states: seq<Sys>, steps: seq<Step>, fmt: Format, step: Step)
    returns (states': seq<Sys>, steps': seq<Step>)
    requires IsRun(states, steps, fmt) && Enabled(states[|steps|], step)
    ensures IsRun(states', steps', fmt) && |states'| == |steps'| + 1
    ensures steps' == steps + [step] && states' == states + [Apply(states[|steps|], step, fmt)]
    ensures states'[|steps'|] == Apply(states[|steps|], step, fmt)
  {
    states', steps' := states + [Apply(states[|steps|], step, fmt)], steps + [step];
    hide Apply, Enabled;
  }

  /** Tracing is on since `now`, the writer waits, and `events` are queued. */
  ghost predicate Tracing(s: Sys, now: Time, events: seq<Event>) {
    && s.enabled && !s.shutdownRequested && s.control.Idle? && s.writer.Waiting? && s.firstEvent
    && s.file == Open(HEADER) && s.startTime == now && s.queue == events && s.adding == map[]
    && s.session == Session([], events, [], [], [])
  }

  lemma OneTraced(states: seq<Sys>, steps: seq<Step>, fmt: Format, now: Time, events: seq<Event>, event: Event)
    returns (states': seq<Sys>, steps': seq<Step>)
    requires IsRun(states, steps, fmt) && Tracing(states[|steps|], now, events)
    ensures IsRun(states', steps', fmt) && Tracing(states'[|steps'|], now, events + [event])
  {
    states', steps' := Extend(states, steps, fmt, AddCheck(0, event));
    states', steps' := Extend(states', steps', fmt, AddPush(0));
    assert map[0 := event] - {0} == map[];
    hide IsRun;
  }

  lemma {:induction false} AllTraced(fmt: Format, now: Time, events: seq<Event>)
    returns (states: seq<Sys>, steps: seq<Step>)
    ensures IsRun(states, steps, fmt) && Tracing(states[|steps|], now, events)
    decreases |events|
  {
    if events == [] {
      states, steps := Extend([Initial], [], fmt, Start(true, now));
    } else {
      var n := |events| - 1;
      states, steps := AllTraced(fmt, now, events[..n]);
      states, steps := OneTraced(states, steps, fmt, now, events[..n], events[n]);
      assert events[..n] + [events[n]] == events;
    }
  }

  /** The writer's turns over a batch, up to its look at the flag; nobody else moves meanwhile. */
  lemma {:induction false} BatchWritten(states: seq<Sys>, steps: seq<Step>, fmt: Format)
    returns (states': seq<Sys>, steps': seq<Step>)
    requires IsRun(states, steps, fmt) && states[|steps|].writer.Writing? && states[|steps|].file.Open?
    ensures IsRun(states', steps', fmt)
    ensures var s, s' := states[|steps|], states'[|steps'|];
            && s'.writer.CheckingFlag? && s'.file.Open?
            && s' == s.(writer := s'.writer, file := s'.file, firstEvent := s'.firstEvent, session := s'.session)
            && s'.session == s.session.(written := s'.session.written)
    decreases |states[|steps|].writer.batch|
  {
    var s := states[|steps|];
    states', steps' := Extend(states, steps, fmt, WriterWrite);
    if s.writer.batch != [] {
      states', steps' := BatchWritten(states', steps', fmt);
    }
  }

  /**
   For any events there is a run in which tracing is started, they are added, and the stop leaves a finished file that
   holds exactly them, in order, between header and footer.
   */
  lemma EventsAreTraced(fmt: Format, now: Time, events: seq<Event>) returns (states: seq<Sys>, steps: seq<Step>)
    ensures IsRun(states, steps, fmt)
    ensures states[|steps|].finished == Some(HEADER + Joined(fmt, now, true, events) + FOOTER)
    ensures states[|steps|].queue == [] && !states[|steps|].enabled && states[|steps|].writer.NoThread?
  {
    states, steps := AllTraced(fmt, now, events);
    states, steps := Extend(states, steps, fmt, StopBegin);
    states, steps := Extend(states, steps, fmt, StopRequest);
    states, steps := Extend(states, steps, fmt, WriterDrain);
    states, steps := BatchWritten(states, steps, fmt);
    states, steps := Extend(states, steps, fmt, WriterCheckFlag);
    states, steps := Extend(states, steps, fmt, WriterCheckQueue);
    states, steps := Extend(states, steps, fmt, StopJoin);
    var n := |steps|;
    states, steps := Extend(states, steps, fmt, StopFinish);
    assert [] + events == events;
    StopFinishesFile(states, steps, fmt, n);
    hide Joined, IsRun;
  }

  // ---------------------------------------------------------------- a finished file is one JSON text

  /** JSON values whose texts have no insignificant whitespace; a literal is a number, true, false or null. */
  datatype Json =
    | Literal(text: Bytes)
    | Text(chars: Bytes)
    | List(elements: seq<Json>)
    | Object(members: seq<Member>)

  datatype Member = Member(name: Bytes, value: Json)

  /** A quoted string (section 7 of RFC 8259). */
  function Quoted(chars: Bytes): Bytes { [J.QUOTE] + J.Escape(chars) + [J.QUOTE] }

  /** The text of a value (sections 3 to 7 of RFC 8259). */
  function Render(value: Json): Bytes {
    match value
    case Literal(text) => text
    case Text(chars) => Quoted(chars)
    case List(elements) => [0x5B] + RenderAll(elements) + [0x5D]
    case Object(members) => [0x7B] + RenderMembers(members) + [0x7D]
  }

  function RenderAll(elements: seq<Json>): Bytes {
    if elements == [] then []
    else if |elements| == 1 then Render(elements[0])
    else Render(elements[0]) + COMMA + RenderAll(elements[1..])
  }

  function RenderMembers(members: seq<Member>): Bytes {
    if members == [] then []
    else
      var member := Quoted(members[0].name) + [0x3A] + Render(members[0].value);
      if |members| == 1 then member else member + COMMA + RenderMembers(members[1..])
  }

  /** Every event's text is that of a JSON value. */
  ghost predicate WritesJson(fmt: Format, values: (Event, Time) -> Json) {
    forall event, start :: fmt(event, start) == Render(values(event, start))
  }

  function Values(values: (Event, Time) -> Json, start: Time, events: seq<Event>): seq<Json> {
    seq(|events|, i requires 0 <= i < |events| => values(events[i], start))
  }

  /** The file's value: the events in order, and the unit of their times. */
  function FileValue(values: (Event, Time) -> Json, start: Time, events: seq<Event>): Json {
    Object([Member(Ascii("traceEvents"), List(Values(values, start, events))),
            Member(Ascii("displayTimeUnit"), Text(Ascii("ms")))])
  }

  predicate IsPlain(b: Byte) { b > 0x1F && b != J.QUOTE && b != J.BACKSLASH }

  lemma {:induction false} PlainIsUnescaped(s: Bytes)
    requires forall b | b in s :: IsPlain(b)
    ensures J.Escape(s) == s
    decreases |s|
  {
    if s != [] {
      PlainIsUnescaped(s[1..]);
      assert IsPlain(s[0]) && [s[0]] + s[1..] == s;
    }
  }

  lemma {:induction false} JoinedIsRendered(fmt: Format, values: (Event, Time) -> Json, start: Time, events: seq<Event>)
    requires WritesJson(fmt, values)
    ensures Joined(fmt, start, true, events) == RenderAll(Values(values, start, events))
    ensures events != [] ==> Joined(fmt, start, false, events) == COMMA + RenderAll(Values(values, start, events))
    decreases |events|
  {
    if events != [] {
      var rest := Values(values, start, events[1..]);
      assert Values(values, start, events)[1..] == rest;
      JoinedIsRendered(fmt, values, start, events[1..]);
      var first := fmt(events[0], start);
      assert first == Render(Values(values, start, events)[0]);
      assert [] + first == first && first + [] == first;
      hide Render;
      if |events| > 1 {
        assert first + (COMMA + RenderAll(rest)) == first + COMMA + RenderAll(rest);
      }
      var all := RenderAll(Values(values, start, events));
      assert COMMA + first + Joined(fmt, start, false, events[1..]) == COMMA + all;
    }
  }

  predicate PlainChars(s: string) { forall i | 0 <= i < |s| :: IsPlain(s[i] as int % 256) }

  lemma QuotedAscii(s: string)
    requires PlainChars(s)
    ensures Quoted(Ascii(s)) == Ascii("\"" + s + "\"")
  {
    forall b | b in Ascii(s)
      ensures IsPlain(b)
    {
      var i :| 0 <= i < |s| && Ascii(s)[i] == b;
      assert IsPlain(s[i] as int % 256);
    }
    PlainIsUnescaped(Ascii(s));
  }

  lemma NamesArePlain()
    ensures PlainChars("traceEvents") && PlainChars("ms")
  {
  }

  lemma UnitNameIsPlain()
    ensures PlainChars("displayTimeUnit")
  {
  }

  lemma HeaderText()
    ensures "{\"traceEvents\":[" == "{" + ("\"" + "traceEvents" + "\"") + ":["
  {
  }

  lemma HeaderAscii(name: string)
    ensures Ascii("{" + name + ":[") == [0x7B] + Ascii(name) + [0x3A, 0x5B]
  {
  }

  lemma HeaderIs()
    ensures HEADER == [0x7B] + Quoted(Ascii("traceEvents")) + [0x3A, 0x5B]
  {
    hide Ascii, PlainChars, Quoted;
    HeaderText();
    NamesArePlain();
    QuotedAscii("traceEvents");
    HeaderAscii("\"" + "traceEvents" + "\"");
  }

  lemma FooterText()
    ensures "],\"displayTimeUnit\":\"ms\"}" ==
            "]," + ("\"" + "displayTimeUnit" + "\"") + ":" + ("\"" + "ms" + "\"") + "}"
  {
  }

  lemma FooterAscii(name: string, unit: string)
    ensures Ascii("]," + name + ":" + unit + "}") == [0x5D] + COMMA + Ascii(name) + [0x3A] + Ascii(unit) + [0x7D]
  {
  }

  lemma FooterIs()
    ensures FOOTER == [0x5D] + COMMA + Quoted(Ascii("displayTimeUnit")) + [0x3A] + Quoted(Ascii("ms")) + [0x7D]
  {
    hide Ascii, PlainChars, Quoted;
    FooterText();
    NamesArePlain();
    UnitNameIsPlain();
    QuotedAscii("displayTimeUnit");
    QuotedAscii("ms");
    FooterAscii("\"" + "displayTimeUnit" + "\"", "\"" + "ms" + "\"");
  }

  lemma MembersRendered(a: Bytes, x: Json, b: Bytes, y: Json)
    ensures RenderMembers([Member(a, x), Member(b, y)]) ==
            Quoted(a) + [0x3A] + Render(x) + COMMA + (Quoted(b) + [0x3A] + Render(y))
  {
    assert [Member(a, x), Member(b, y)][1..] == [Member(b, y)];
  }

  lemma Regroup(name: Bytes, list: Bytes, unit: Bytes, ms: Bytes)
    ensures [0x7B] + name + [0x3A, 0x5B] + list + ([0x5D] + COMMA + unit + [0x3A] + ms + [0x7D]) ==
            [0x7B] + (name + [0x3A] + ([0x5B] + list + [0x5D]) + COMMA + (unit + [0x3A] + ms)) + [0x7D]
  {
  }

  /** If every event's text is a JSON value, a finished file is the text of one: an object with the events in order. */
  lemma FileIsJson(fmt: Format, values: (Event, Time) -> Json, start: Time, events: seq<Event>)
    requires WritesJson(fmt, values)
    ensures HEADER + Joined(fmt, start, true, events) + FOOTER == Render(FileValue(values, start, events))
  {
    JoinedIsRendered(fmt, values, start, events);
    HeaderIs();
    FooterIs();
    MembersRendered(Ascii("traceEvents"), List(Values(values, start, events)), Ascii("displayTimeUnit"),
                    Text(Ascii("ms")));
    var list, name := RenderAll(Values(values, start, events)), Quoted(Ascii("traceEvents"));
    var unit := Quoted(Ascii("displayTimeUnit")) + [0x3A] + Quoted(Ascii("ms"));
    Regroup(name, list, Quoted(Ascii("displayTimeUnit")), Quoted(Ascii("ms")));
    hide RenderAll, RenderMembers, Joined, Values, Quoted, Ascii;
  }

  /** So every file that a stop finishes is the text of the JSON value of its session. */
  lemma FinishedFileIsJson(states: seq<Sys>, steps: seq<Step>, fmt: Format, values: (Event, Time) -> Json, n: nat)
    requires IsRun(states, steps, fmt) && n < |steps| && steps[n].StopFinish? && states[n].file.Open?
    requires WritesJson(fmt, values)
    ensures var s, h := states[n + 1], states[n + 1].session;
            s.finished == Some(Render(FileValue(values, s.startTime, h.leftovers + h.sealed)))
  {
    StopFinishesFile(states, steps, fmt, n);
    var s, h := states[n + 1], states[n + 1].session;
    FileIsJson(fmt, values, s.startTime, h.leftovers + h.sealed);
    hide Render, Joined, FileValue;
  }
}
