/**
 RPC invocations and their draining by shutdown (src/local_participant.cpp): any number of invocations and shutdowns
 interleave, one step per locked section or outside call.
 */
module RpcInvocations {
  import opened Common

  type InvocationId = nat
  type ShutdownId = nat
  type Method = string
  type Payload = string

  datatype RpcError = UnsupportedMethod | ApplicationError(message: string) | FromHandler(code: nat, message: string)

  /** What a user handler does: return an optional payload, or throw. */
  datatype Outcome =
    | Returned(payload: Option<Payload>)
    | ThrewRpcError(code: nat, message: string)
    | ThrewException(what: string)
    | ThrewUnknown

  datatype Response = Response(error: Option<RpcError>, payload: Option<Payload>)

  function ResponseTo(outcome: Outcome): Response {
    match outcome
    case Returned(payload) => Response(None, payload)
    case ThrewRpcError(code, message) => Response(Some(FromHandler(code, message)), None)
    case ThrewException(what) => Response(Some(ApplicationError(what)), None)
    case ThrewUnknown => Response(Some(ApplicationError("unknown error")), None)
  }

  const Unsupported := Response(Some(UnsupportedMethod), None)

  /**
   The answer field by field: what the handler returned is the payload, without an error; a thrown RpcError keeps its
   code and message; any other exception is an application error with its message, or with "unknown error".
   */
  predicate Answers(r: Response, outcome: Outcome) {
    match outcome
    case Returned(payload) => r.error.None? && r.payload == payload
    case ThrewRpcError(code, message) =>
      r.payload.None? && r.error.Some? && r.error.value.FromHandler? && r.error.value.code == code &&
      r.error.value.message == message
    case ThrewException(what) =>
      r.payload.None? && r.error.Some? && r.error.value.ApplicationError? && r.error.value.message == what
    case ThrewUnknown =>
      r.payload.None? && r.error.Some? && r.error.value.ApplicationError? && r.error.value.message == "unknown error"
  }

  /** How an invocation ended: its response reached the FFI, it met a shutdown at its recheck, or sending threw. */
  datatype Ending = Answered(response: Response) | MetShutdown | SendThrew

  /** Where an invocation stands. The guard's decrement is the step that leaves Leaving. */
  datatype Pc =
    | Looking(wanted: Method)
    | Running(wanted: Method)
    | Deciding(response: Response)
    | Sending(response: Response)
    | Leaving(ending: Ending)
    | Over(ending: Ending)
    | Rejected

  datatype ShutdownPc = Waiting | Drained | TimedOut

  datatype Sent = Sent(invocation: InvocationId, response: Response)

  datatype Sys = Sys(
    active: int,
    shuttingDown: bool,
    handlers: set<Method>,
    invocations: map<InvocationId, Pc>,
    shutdowns: map<ShutdownId, ShutdownPc>,
    wire: seq<Sent>)

  const Initial := Sys(0, false, {}, map[], map[], [])

  datatype Step =
    | RegisterMethod(name: Method)
    | UnregisterMethod(name: Method)
    | Begin(i: InvocationId, wanted: Method)
    | Look(i: InvocationId)
    | Finish(i: InvocationId, outcome: Outcome)
    | Recheck(i: InvocationId)
    /** `ok` says whether the request reached the FFI; sendRequest throws otherwise, and the guard still runs */
    | Send(i: InvocationId, ok: bool)
    | Leave(i: InvocationId)
    | ShutDown(d: ShutdownId)
    | WaitEnds(d: ShutdownId)
    | WaitTimesOut(d: ShutdownId)
    /** `ok` says whether every unregister request went through; a throwing one leaves the handlers in place */
    | ClearHandlers(d: ShutdownId, ok: bool)

  predicate Enabled(s: Sys, step: Step) {
    match step
    case Begin(i, _) => i !in s.invocations
    case Look(i) => i in s.invocations && s.invocations[i].Looking?
    case Finish(i, _) => i in s.invocations && s.invocations[i].Running?
    case Recheck(i) => i in s.invocations && s.invocations[i].Deciding?
    case Send(i, _) => i in s.invocations && s.invocations[i].Sending?
    case Leave(i) => i in s.invocations && s.invocations[i].Leaving?
    case ShutDown(d) => d !in s.shutdowns
    case WaitEnds(d) => d in s.shutdowns && s.shutdowns[d].Waiting? && s.active == 0
    case WaitTimesOut(d) => d in s.shutdowns && s.shutdowns[d].Waiting?
    case ClearHandlers(d, _) => d in s.shutdowns && !s.shutdowns[d].Waiting?
    case _ => true
  }

  function At(s: Sys, i: InvocationId, pc: Pc): Sys { s.(invocations := s.invocations[i := pc]) }

  function Apply(s: Sys, step: Step): Sys
    requires Enabled(s, step)
  {
    match step
    case RegisterMethod(name) => s.(handlers := s.handlers + {name})
    case UnregisterMethod(name) => s.(handlers := s.handlers - {name})
    case Begin(i, wanted) =>
      if s.shuttingDown then At(s, i, Rejected) else At(s.(active := s.active + 1), i, Looking(wanted))
    case Look(i) =>
      var wanted := s.invocations[i].wanted;
      At(s, i, if wanted in s.handlers then Running(wanted) else Deciding(Unsupported))
    case Finish(i, outcome) => At(s, i, Deciding(ResponseTo(outcome)))
    case Recheck(i) => At(s, i, if s.shuttingDown then Leaving(MetShutdown) else Sending(s.invocations[i].response))
    case Send(i, ok) =>
      var response := s.invocations[i].response;
      if ok then At(s.(wire := s.wire + [Sent(i, response)]), i, Leaving(Answered(response)))
      else At(s, i, Leaving(SendThrew))
    case Leave(i) => At(s.(active := s.active - 1), i, Over(s.invocations[i].ending))
    case ShutDown(d) => s.(shuttingDown := true, shutdowns := s.shutdowns[d := Waiting])
    case WaitEnds(d) => s.(shutdowns := s.shutdowns[d := Drained])
    case WaitTimesOut(d) => s.(shutdowns := s.shutdowns[d := TimedOut])
    case ClearHandlers(_, ok) => if ok then s.(handlers := {}) else s
  }

  ghost predicate IsRun(states: seq<Sys>, steps: seq<Step>) {
    && |states| == |steps| + 1
    && states[0] == Initial
    && forall i | 0 <= i < |steps| :: Enabled(states[i], steps[i]) && states[i + 1] == Apply(states[i], steps[i])
  }

  // ---------------------------------------------------------------- the invariant

  predicate InProgress(pc: Pc) { !pc.Over? && !pc.Rejected? }

  ghost function Active(m: map<InvocationId, Pc>): set<InvocationId> {
    set i | i in m && InProgress(m[i])
  }

  /** The responses of invocation `i` on the wire. */
  ghost function SentBy(wire: seq<Sent>, i: InvocationId): seq<Response> {
    if wire == [] then []
    else
      var last := wire[|wire| - 1];
      SentBy(wire[..|wire| - 1], i) + (if last.invocation == i then [last.response] else [])
  }

  /** The handler is done and nothing is left but the guard. */
  predicate HasEnded(pc: Pc) { pc.Leaving? || pc.Over? }

  /** What invocation `i` has put on the wire, according to where it stands. */
  function HasSent(m: map<InvocationId, Pc>, i: InvocationId): seq<Response> {
    if i in m && HasEnded(m[i]) && m[i].ending.Answered? then [m[i].ending.response] else []
  }

  predicate Exclusive(r: Response) { r.error.None? || r.payload.None? }

  predicate CarriesExclusive(pc: Pc) { pc.Deciding? || pc.Sending? ==> Exclusive(pc.response) }

  ghost predicate Counted(s: Sys) { s.active == |Active(s.invocations)| }

  ghost predicate WireAgrees(s: Sys) {
    && (forall i: InvocationId :: SentBy(s.wire, i) == HasSent(s.invocations, i))
    && (forall k | 0 <= k < |s.wire| :: Exclusive(s.wire[k].response))
    && (forall i | i in s.invocations :: CarriesExclusive(s.invocations[i]))
  }

  /** Where a shutdown was met, one has begun; and nothing is in progress once a wait has ended by its predicate. */
  ghost predicate Explained(s: Sys) {
    && (forall i | i in s.invocations && HasEnded(s.invocations[i]) && s.invocations[i].ending.MetShutdown? ::
          s.shuttingDown)
    && (forall i | i in s.invocations && s.invocations[i].Rejected? :: s.shuttingDown)
    && (s.shutdowns != map[] ==> s.shuttingDown)
    && (forall d | d in s.shutdowns && s.shutdowns[d].Drained? :: s.active == 0)
  }

  ghost predicate Inv(s: Sys) { Counted(s) && WireAgrees(s) && Explained(s) }

  lemma ActiveMoves(m: map<InvocationId, Pc>, i: InvocationId, pc: Pc)
    ensures Active(m[i := pc]) == if InProgress(pc) then Active(m) + {i} else Active(m) - {i}
  {
  }

  predicate ByInvocation(step: Step) {
    step.Look? || step.Finish? || step.Recheck? || step.Send? || step.Leave?
  }

  function Bit(b: bool): int { if b then 1 else 0 }

  /** Moving one invocation changes the count by what it was and what it becomes. */
  lemma MoveCounted(s: Sys, s': Sys, i: InvocationId)
    requires Counted(s) && i in s'.invocations && s'.invocations == s.invocations[i := s'.invocations[i]]
    requires s'.active == s.active + Bit(InProgress(s'.invocations[i])) -
                          Bit(i in s.invocations && InProgress(s.invocations[i]))
    ensures Counted(s')
  {
    ActiveMoves(s.invocations, i, s'.invocations[i]);
    var was := Active(s.invocations);
    assert i in was <==> i in s.invocations && InProgress(s.invocations[i]);
    hide Active, InProgress;
    if i in was {
      assert was == was - {i} + {i};
    }
  }

  predicate MovesInvocation(step: Step) { step.Begin? || ByInvocation(step) }

  lemma CountedKept(s: Sys, step: Step)
    requires Counted(s) && Enabled(s, step)
    ensures Counted(Apply(s, step))
  {
    if MovesInvocation(step) {
      MoveCounted(s, Apply(s, step), step.i);
    }
  }

  lemma SentByAppend(wire: seq<Sent>, last: Sent, i: InvocationId)
    ensures SentBy(wire + [last], i) == SentBy(wire, i) + if last.invocation == i then [last.response] else []
  {
    assert (wire + [last])[..|wire|] == wire;
  }

  lemma SendKept(s: Sys, step: Step, i: InvocationId)
    requires step.Send? && Enabled(s, step) && SentBy(s.wire, i) == HasSent(s.invocations, i)
    ensures SentBy(Apply(s, step).wire, i) == HasSent(Apply(s, step).invocations, i)
  {
    hide SentBy;
    SentByAppend(s.wire, Sent(step.i, s.invocations[step.i].response), i);
  }

  lemma SentByKept(s: Sys, step: Step, i: InvocationId)
    requires Enabled(s, step) && SentBy(s.wire, i) == HasSent(s.invocations, i)
    ensures SentBy(Apply(s, step).wire, i) == HasSent(Apply(s, step).invocations, i)
  {
    hide SentBy;
    if step.Send? {
      SendKept(s, step, i);
    } else {
      assert Apply(s, step).wire == s.wire;
    }
  }

  lemma ExclusiveKept(s: Sys, step: Step)
    requires WireAgrees(s) && Enabled(s, step)
    ensures forall k | 0 <= k < |Apply(s, step).wire| :: Exclusive(Apply(s, step).wire[k].response)
    ensures forall i | i in Apply(s, step).invocations :: CarriesExclusive(Apply(s, step).invocations[i])
  {
    hide SentBy, HasSent;
    if step.Send? {
      assert CarriesExclusive(s.invocations[step.i]);
    }
  }

  lemma WireKept(s: Sys, step: Step)
    requires WireAgrees(s) && Enabled(s, step)
    ensures WireAgrees(Apply(s, step))
  {
    hide Apply, SentBy, HasSent, Exclusive, CarriesExclusive;
    ExclusiveKept(s, step);
    forall i: InvocationId
      ensures SentBy(Apply(s, step).wire, i) == HasSent(Apply(s, step).invocations, i)
    {
      SentByKept(s, step, i);
    }
  }

  lemma ExplainedKept(s: Sys, step: Step)
    requires Inv(s) && Enabled(s, step)
    ensures Explained(Apply(s, step))
  {
    if step.Leave? {
      assert step.i in Active(s.invocations);
    }
  }

  lemma {:induction false} ReachableInv(states: seq<Sys>, steps: seq<Step>, n: nat)
    requires IsRun(states, steps) && n <= |steps|
    ensures Inv(states[n])
    decreases n
  {
    if n == 0 {
      assert Active(map[]) == {};
    } else {
      ReachableInv(states, steps, n - 1);
      assert Enabled(states[n - 1], steps[n - 1]);
      CountedKept(states[n - 1], steps[n - 1]);
      WireKept(states[n - 1], steps[n - 1]);
      ExplainedKept(states[n - 1], steps[n - 1]);
    }
  }

  // ---------------------------------------------------------------- what every interleaving keeps

  /** active_invocations is the number of invocations in progress, so the guard never takes it below zero. */
  lemma ActiveCountsInvocations(states: seq<Sys>, steps: seq<Step>, n: nat)
    requires IsRun(states, steps) && n <= |steps|
    ensures states[n].active == |Active(states[n].invocations)| >= 0
    ensures n < |steps| && steps[n].Leave? ==> states[n].active > 0
  {
    ReachableInv(states, steps, n);
    if n < |steps| && steps[n].Leave? {
      assert Enabled(states[n], steps[n]);
      assert steps[n].i in Active(states[n].invocations);
    }
  }

  lemma EndingStep(s: Sys, step: Step, i: InvocationId)
    requires Enabled(s, step) && i in s.invocations && HasEnded(s.invocations[i])
    ensures var now := Apply(s, step).invocations;
            i in now && HasEnded(now[i]) && now[i].ending == s.invocations[i].ending
  {
  }

  /** An invocation keeps its ending. */
  lemma {:induction false} EndingStays(states: seq<Sys>, steps: seq<Step>, k: nat, n: nat, i: InvocationId)
    requires IsRun(states, steps) && k <= n <= |steps|
    requires i in states[k].invocations && HasEnded(states[k].invocations[i])
    ensures i in states[n].invocations && HasEnded(states[n].invocations[i])
    ensures states[n].invocations[i].ending == states[k].invocations[i].ending
    decreases n
  {
    hide Apply, HasEnded;
    if k < n {
      EndingStays(states, steps, k, n - 1, i);
      assert Enabled(states[n - 1], steps[n - 1]);
      hide Enabled;
      EndingStep(states[n - 1], steps[n - 1], i);
    }
  }

  /** The step that ended invocation `i`: its send, or a recheck that found a shutdown begun. */
  predicate EndsWith(s: Sys, step: Step, i: InvocationId, ending: Ending) {
    match ending
    case Answered(response) =>
      step == Send(i, true) && i in s.invocations && s.invocations[i] == Sending(response)
    case MetShutdown => step == Recheck(i) && s.shuttingDown
    case SendThrew => step == Send(i, false)
  }

  lemma EndingBegins(s: Sys, step: Step, i: InvocationId)
    requires Enabled(s, step) && !(i in s.invocations && HasEnded(s.invocations[i]))
    requires i in Apply(s, step).invocations && HasEnded(Apply(s, step).invocations[i])
    ensures EndsWith(s, step, i, Apply(s, step).invocations[i].ending)
  {
  }

  lemma {:induction false} EndingExplained(states: seq<Sys>, steps: seq<Step>, n: nat, i: InvocationId) returns (k: nat)
    requires IsRun(states, steps) && n <= |steps|
    requires i in states[n].invocations && HasEnded(states[n].invocations[i])
    ensures k < n && EndsWith(states[k], steps[k], i, states[n].invocations[i].ending)
    decreases n
  {
    hide Apply, HasEnded, EndsWith;
    var s, step := states[n - 1], steps[n - 1];
    assert Enabled(s, step);
    if i in s.invocations && HasEnded(s.invocations[i]) {
      k := EndingExplained(states, steps, n - 1, i);
      EndingStep(s, step, i);
    } else {
      k := n - 1;
      EndingBegins(s, step, i);
    }
  }

  /** Each invocation puts at most one response on the wire, never one with both an error and a payload. */
  lemma OneResponseEach(states: seq<Sys>, steps: seq<Step>, n: nat, i: InvocationId)
    requires IsRun(states, steps) && n <= |steps|
    ensures |SentBy(states[n].wire, i)| <= 1
    ensures forall k | 0 <= k < |states[n].wire| :: Exclusive(states[n].wire[k].response)
  {
    ReachableInv(states, steps, n);
  }

  /**
   An invocation has exactly one response on the wire if and only if its recheck passed and its send reached the FFI;
   one that has ended without a response was stopped by its recheck or its send threw.
   */
  lemma AnsweredIff(states: seq<Sys>, steps: seq<Step>, n: nat, i: InvocationId)
    requires IsRun(states, steps) && n <= |steps|
    ensures |SentBy(states[n].wire, i)| == 1 <==> exists k :: 0 <= k < n && steps[k] == Send(i, true)
    ensures i in states[n].invocations && states[n].invocations[i].Over? && |SentBy(states[n].wire, i)| == 0 ==>
              exists k :: 0 <= k < n &&
                (steps[k] == Send(i, false) || (steps[k] == Recheck(i) && states[k].shuttingDown))
  {
    ReachableInv(states, steps, n);
    assert SentBy(states[n].wire, i) == HasSent(states[n].invocations, i);
    if i in states[n].invocations && HasEnded(states[n].invocations[i]) {
      var k := EndingExplained(states, steps, n, i);
    }
    if k :| 0 <= k < n && steps[k] == Send(i, true) {
      assert Enabled(states[k], steps[k]);
      EndingStays(states, steps, k + 1, n, i);
    }
  }

  /** Nothing is in progress and nothing new can start. */
  ghost predicate Quiet(s: Sys) { s.shuttingDown && Active(s.invocations) == {} }

  lemma WorkNeedsInvocation(s: Sys, step: Step)
    requires Enabled(s, step) && ByInvocation(step)
    ensures Active(s.invocations) != {}
  {
    assert step.i in Active(s.invocations);
  }

  lemma QuietStays(s: Sys, step: Step)
    requires Quiet(s) && Enabled(s, step)
    ensures Quiet(Apply(s, step)) && Apply(s, step).wire == s.wire
    ensures !ByInvocation(step)
  {
    if ByInvocation(step) {
      WorkNeedsInvocation(s, step);
    } else if step.Begin? {
      ActiveMoves(s.invocations, step.i, Rejected);
    }
  }

  /**
   Once a shutdown's wait has ended because its predicate held, then in every later state of the run no handler is
   running or about to run, and no response has been sent since.
   */
  lemma {:induction false} DrainIsFinal(states: seq<Sys>, steps: seq<Step>, k: nat, n: nat)
    requires IsRun(states, steps) && k < n <= |steps| && steps[k].WaitEnds?
    ensures Quiet(states[n]) && states[n].wire == states[k].wire
    ensures forall i | i in states[n].invocations ::
              states[n].invocations[i].Over? || states[n].invocations[i].Rejected?
    decreases n
  {
    if n == k + 1 {
      ReachableInv(states, steps, k);
      assert Enabled(states[k], steps[k]);
    } else {
      DrainIsFinal(states, steps, k, n - 1);
      assert Enabled(states[n - 1], steps[n - 1]);
      QuietStays(states[n - 1], steps[n - 1]);
    }
    forall i | i in states[n].invocations
      ensures states[n].invocations[i].Over? || states[n].invocations[i].Rejected?
    {
      assert i !in Active(states[n].invocations);
    }
  }

  /**
   The timeout does not give this: an invocation that passed its recheck before shutdown began can send after a wait
   that timed out.
   */
  lemma TimeoutLetsResponseThrough() returns (states: seq<Sys>, steps: seq<Step>)
    ensures IsRun(states, steps)
    ensures |steps| == 6 && steps[4].WaitTimesOut? && steps[5].Send?
    ensures states[5].wire == [] && states[6].wire == [Sent(0, Unsupported)]
  {
    states, steps := [Initial], [];
    states, steps := Extend(states, steps, Begin(0, "m"));
    states, steps := Extend(states, steps, Look(0));
    states, steps := Extend(states, steps, Recheck(0));
    states, steps := Extend(states, steps, ShutDown(0));
    states, steps := Extend(states, steps, WaitTimesOut(0));
    states, steps := Extend(states, steps, Send(0, true));
  }

  lemma Extend(states: seq<Sys>, steps: seq<Step>, step: Step) returns (states': seq<Sys>, steps': seq<Step>)
    requires IsRun(states, steps) && Enabled(states[|steps|], step)
    ensures IsRun(states', steps')
    ensures states' == states + [Apply(states[|steps|], step)] && steps' == steps + [step]
  {
    states', steps' := states + [Apply(states[|steps|], step)], steps + [step];
  }

  /** So a response can follow a shutdown's wait only if that wait timed out. */
  lemma LateResponseMeansTimeout(states: seq<Sys>, steps: seq<Step>, d: ShutdownId, n: nat)
    requires IsRun(states, steps) && n < |steps| && steps[n].Send?
    requires d in states[n].shutdowns
    ensures !states[n].shutdowns[d].Drained?
  {
    ReachableInv(states, steps, n);
    assert Enabled(states[n], steps[n]);
    assert steps[n].i in Active(states[n].invocations);
  }

  // ---------------------------------------------------------------- who can still send after a shutdown began

  ghost predicate IsRunFrom(s: Sys, states: seq<Sys>, steps: seq<Step>) {
    && |states| == |steps| + 1
    && states[0] == s
    && forall i | 0 <= i < |steps| :: Enabled(states[i], steps[i]) && states[i + 1] == Apply(states[i], steps[i])
  }

  predicate HasPassedRecheck(s: Sys, i: InvocationId) { i in s.invocations && s.invocations[i].Sending? }

  /** Once a shutdown has begun nobody passes the recheck any more. */
  lemma {:induction false} NobodyPassesLater(s: Sys, states: seq<Sys>, steps: seq<Step>, n: nat, i: InvocationId)
    requires s.shuttingDown && IsRunFrom(s, states, steps) && n <= |steps|
    ensures states[n].shuttingDown
    ensures HasPassedRecheck(states[n], i) ==> HasPassedRecheck(s, i)
    decreases n
  {
    if n > 0 {
      NobodyPassesLater(s, states, steps, n - 1, i);
      assert Enabled(states[n - 1], steps[n - 1]);
    }
  }

  /** From `s`, some continuation sends a response of invocation `i`. */
  ghost predicate CanStillSend(s: Sys, i: InvocationId) {
    exists states, steps, n :: IsRunFrom(s, states, steps) && 0 <= n < |steps| && steps[n] == Send(i, true)
  }

  /** After a shutdown has begun, exactly the invocations that had passed their recheck can still send a response. */
  lemma LateSendersAre(s: Sys, i: InvocationId)
    requires s.shuttingDown
    ensures CanStillSend(s, i) <==> HasPassedRecheck(s, i)
  {
    if HasPassedRecheck(s, i) {
      var states, steps := [s, Apply(s, Send(i, true))], [Send(i, true)];
      assert IsRunFrom(s, states, steps) && steps[0] == Send(i, true);
    }
    if CanStillSend(s, i) {
      var states, steps, n :| IsRunFrom(s, states, steps) && 0 <= n < |steps| && steps[n] == Send(i, true);
      NobodyPassesLater(s, states, steps, n, i);
      assert Enabled(states[n], steps[n]);
    }
  }
}

/** LocalParticipant's RPC state and handler table as mutable fields, tied to the steps of RpcInvocations. */
module RpcObject {
  import opened Common
  import opened RpcInvocations

  class RpcInvocationState {
    var active: int
    var shuttingDown: bool

    /** The fields are those of `s`. */
    ghost predicate Shows(s: Sys)
      reads this
    {
      active == s.active && shuttingDown == s.shuttingDown
    }

    constructor ()
      ensures Shows(Initial)
    {
      active, shuttingDown := 0, false;
    }

    method TryBegin(ghost s: Sys, i: InvocationId, wanted: Method) returns (begun: bool)
      requires Shows(s) && Enabled(s, Begin(i, wanted))
      modifies this`active
      ensures Shows(Apply(s, Begin(i, wanted)))
      ensures begun <==> !Apply(s, Begin(i, wanted)).invocations[i].Rejected?
    {
      if shuttingDown {
        return false;
      }
      active := active + 1;
      begun := true;
    }

    /** The second look at the flag, after the handler. */
    method MaySend(ghost s: Sys, i: InvocationId) returns (may: bool)
      requires Shows(s) && Enabled(s, Recheck(i))
      ensures Shows(Apply(s, Recheck(i)))
      ensures may <==> HasPassedRecheck(Apply(s, Recheck(i)), i)
    {
      may := !shuttingDown;
    }

    /** The guard's destructor; `notify` tells whether it wakes the waiting shutdowns. */
    method End(ghost s: Sys, i: InvocationId) returns (notify: bool)
      requires Shows(s) && Enabled(s, Leave(i))
      modifies this`active
      ensures Shows(Apply(s, Leave(i)))
      ensures notify <==> Apply(s, Leave(i)).active == 0
    {
      active := active - 1;
      notify := active == 0;
    }

    method MarkShuttingDown(ghost s: Sys, ghost d: ShutdownId)
      requires Shows(s) && Enabled(s, ShutDown(d))
      modifies this`shuttingDown
      ensures Shows(Apply(s, ShutDown(d)))
    {
      shuttingDown := true;
    }
  }

  // ---------------------------------------------------------------- one invocation by itself

  /** The steps of invocation `i` up to its recheck, none of anybody else between them but its handler's shutdown. */
  ghost function Handled(s: Sys, i: InvocationId, wanted: Method, outcome: Outcome, shutdown: Option<ShutdownId>): Sys
    requires Enabled(s, Begin(i, wanted)) && !s.shuttingDown
    requires shutdown.Some? ==> Enabled(s, ShutDown(shutdown.value))
  {
    var s1 := Apply(Apply(s, Begin(i, wanted)), Look(i));
    if s1.invocations[i].Deciding? then s1
    else
      var s2 := if shutdown.Some? then Apply(s1, ShutDown(shutdown.value)) else s1;
      Apply(s2, Finish(i, outcome))
  }

  /** The rest of it: the recheck, the send if that passes, and the guard. */
  ghost function Concluded(s: Sys, i: InvocationId, sendOk: bool): Sys
    requires Enabled(s, Recheck(i))
  {
    var s1 := Apply(s, Recheck(i));
    var s2 := if HasPassedRecheck(s1, i) then Apply(s1, Send(i, sendOk)) else s1;
    Apply(s2, Leave(i))
  }

  ghost function Undisturbed(s: Sys, i: InvocationId, wanted: Method, outcome: Outcome, shutdown: Option<ShutdownId>,
                             sendOk: bool): (s': Sys)
    requires Enabled(s, Begin(i, wanted))
    requires shutdown.Some? ==> Enabled(s, ShutDown(shutdown.value))
  {
    if s.shuttingDown then Apply(s, Begin(i, wanted))
    else Concluded(Handled(s, i, wanted, outcome, shutdown), i, sendOk)
  }

  /** Up to its recheck an undisturbed invocation has counted itself and made up its response. */
  lemma HandledIs(s: Sys, i: InvocationId, wanted: Method, outcome: Outcome, shutdown: Option<ShutdownId>)
    requires Enabled(s, Begin(i, wanted)) && !s.shuttingDown
    requires shutdown.Some? ==> Enabled(s, ShutDown(shutdown.value))
    ensures var h, runs := Handled(s, i, wanted, outcome, shutdown), wanted in s.handlers;
            && h.active == s.active + 1 && h.handlers == s.handlers && h.wire == s.wire
            && h.shuttingDown == (runs && shutdown.Some?)
            && i in h.invocations
            && h.invocations[i] == Deciding(if runs then ResponseTo(outcome) else Unsupported)
  {
    hide ResponseTo;
  }

  lemma ResponseAnswers(outcome: Outcome)
    ensures Answers(ResponseTo(outcome), outcome)
  {
  }

  /** What an undisturbed invocation amounts to. */
  lemma UndisturbedIs(s: Sys, i: InvocationId, wanted: Method, outcome: Outcome, shutdown: Option<ShutdownId>,
                      sendOk: bool)
    requires Enabled(s, Begin(i, wanted))
    requires shutdown.Some? ==> Enabled(s, ShutDown(shutdown.value))
    ensures var s', runs := Undisturbed(s, i, wanted, outcome, shutdown, sendOk), wanted in s.handlers;
            && s'.active == s.active && s'.handlers == s.handlers
            && s'.shuttingDown == (s.shuttingDown || (runs && shutdown.Some?))
            && if s'.shuttingDown || !sendOk then s'.wire == s.wire
               else
                 && |s'.wire| == |s.wire| + 1 && s.wire == s'.wire[..|s.wire|]
                 && var sent := s'.wire[|s.wire|];
                    && sent.invocation == i
                    && if runs then Answers(sent.response, outcome)
                       else sent.response.error == Some(UnsupportedMethod) && sent.response.payload == None
  {
    hide Handled, ResponseTo, Answers;
    ResponseAnswers(outcome);
    if !s.shuttingDown {
      HandledIs(s, i, wanted, outcome, shutdown);
    }
  }

  class LocalParticipant {
    const rpc: RpcInvocationState
    var handlers: set<Method>
    var responses: seq<Sent>

    ghost predicate Shows(s: Sys)
      reads this, rpc
    {
      rpc.Shows(s) && handlers == s.handlers && responses == s.wire
    }

    constructor ()
      ensures fresh(rpc) && Shows(Initial)
    {
      rpc := new RpcInvocationState();
      handlers, responses := {}, [];
    }

    /** `accepted` says whether the request reaches the FFI; the handler stays registered even if it does not. */
    method RegisterRpcMethod(ghost s: Sys, name: Method, handle: nat, accepted: bool) returns (ok: bool)
      requires Shows(s)
      modifies this`handlers
      ensures Shows(if handle == 0 then s else Apply(s, RegisterMethod(name)))
      ensures ok <==> handle != 0 && accepted
    {
      if handle == 0 {
        return false;
      }
      handlers := handlers + {name};
      ok := accepted;
    }

    method UnregisterRpcMethod(ghost s: Sys, name: Method, handle: nat, accepted: bool) returns (ok: bool)
      requires Shows(s)
      modifies this`handlers
      ensures Shows(if handle == 0 then s else Apply(s, UnregisterMethod(name)))
      ensures ok <==> handle != 0 && accepted
    {
      if handle == 0 {
        return false;
      }
      handlers := handlers - {name};
      ok := accepted;
    }

    /** The handler's call: what it returned, or the error that its exception becomes. */
    method Caught(outcome: Outcome) returns (error: Option<RpcError>, payload: Option<Payload>)
      ensures Response(error, payload) == ResponseTo(outcome)
      ensures Answers(Response(error, payload), outcome)
    {
      error, payload := None, None;
      match outcome {
        case Returned(p) => payload := p;
        case ThrewRpcError(code, message) => error := Some(FromHandler(code, message));
        case ThrewException(what) => error := Some(ApplicationError(what));
        case ThrewUnknown => error := Some(ApplicationError("unknown error"));
      }
    }

    /** The second look at the flag, the response, and the guard. */
    method Respond(ghost s: Sys, i: InvocationId, error: Option<RpcError>, payload: Option<Payload>, sendOk: bool)
      requires Shows(s) && Enabled(s, Recheck(i)) && s.invocations[i] == Deciding(Response(error, payload))
      modifies this`responses, rpc
      ensures Shows(Concluded(s, i, sendOk))
    {
      var may := rpc.MaySend(s, i);
      ghost var now := Apply(s, Recheck(i));
      if may {
        if sendOk {
          responses := responses + [Sent(i, Response(error, payload))];
        }
        now := Apply(now, Send(i, sendOk));
      }
      var notify := rpc.End(now, i);
    }

    /**
     One invocation without interference, except that its handler may itself begin a shutdown. `sendOk` says whether
     the response's request reaches the FFI.
     */
    method HandleRpcMethodInvocation(ghost s: Sys, i: InvocationId, wanted: Method, outcome: Outcome,
                                     shutdown: Option<ShutdownId>, sendOk: bool)
      requires Shows(s) && Enabled(s, Begin(i, wanted))
      requires shutdown.Some? ==> Enabled(s, ShutDown(shutdown.value))
      modifies this`responses, rpc
      ensures Shows(Undisturbed(s, i, wanted, outcome, shutdown, sendOk))
    {
      hide ResponseTo, Answers;
      var begun := rpc.TryBegin(s, i, wanted);
      if !begun {
        return;
      }
      ghost var now := Apply(Apply(s, Begin(i, wanted)), Look(i));
      var error, payload := None, None;
      if wanted !in handlers {
        error := Some(UnsupportedMethod);
      } else {
        if shutdown.Some? {
          rpc.MarkShuttingDown(now, shutdown.value);
        }
        error, payload := Caught(outcome);
      }
      now := Handled(s, i, wanted, outcome, shutdown);
      HandledIs(s, i, wanted, outcome, shutdown);
      assert now.invocations[i] == Deciding(Response(error, payload));
      hide Concluded;
      Respond(now, i, error, payload, sendOk);
    }

    /**
     shutdown after its wait, whichever way that ended. `accepts` says whether the FFI takes a method's unregister
     request; the first one it refuses throws, and then the handlers stay.
     */
    method Shutdown(ghost s: Sys, ghost d: ShutdownId, handle: nat, accepts: Method -> bool)
      returns (ok: bool, unregistered: set<Method>)
      requires Shows(s) && d in s.shutdowns && !s.shutdowns[d].Waiting?
      modifies this`handlers
      ensures Shows(Apply(s, ClearHandlers(d, ok)))
      ensures ok <==> handle == 0 || forall name | name in s.handlers :: accepts(name)
      ensures unregistered <= s.handlers && forall name | name in unregistered :: accepts(name)
      ensures ok ==> unregistered == if handle == 0 then {} else s.handlers
    {
      unregistered := {};
      if handle == 0 {
        handlers := {};
        return true, unregistered;
      }
      var rest := handlers;
      while rest != {}
        invariant rest !! unregistered && rest + unregistered == handlers == s.handlers
        invariant forall name | name in unregistered :: accepts(name)
        decreases |rest|
      {
        var name :| name in rest;
        if !accepts(name) {
          return false, unregistered;
        }
        unregistered := unregistered + {name};
        rest := rest - {name};
      }
      handlers := {};
      ok := true;
    }
  }
}
