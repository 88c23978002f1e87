/**
 What an RPC response says and why: by the invocation's request, the handlers registered at that moment and what the
 handler did; and which methods have a handler.
 */
module RpcResponses {
  import opened Common
  import opened RpcInvocations

  // ---------------------------------------------------------------- the registered methods

  /** The step leaves `name` without a handler: its unregistering, or a shutdown whose requests went through. */
  predicate Forgets(step: Step, name: Method) {
    step == UnregisterMethod(name) || (step.ClearHandlers? && step.ok)
  }

  predicate StaysRegistered(steps: seq<Step>, k: nat, n: nat, name: Method)
    requires n <= |steps|
  {
    forall m | k < m < n :: !Forgets(steps[m], name)
  }

  /** A method has a handler exactly if it was registered and nothing has removed it since. */
  lemma {:induction false} HandlersIff(states: seq<Sys>, steps: seq<Step>, n: nat, name: Method)
    requires IsRun(states, steps) && n <= |steps|
    ensures name in states[n].handlers <==>
            exists k :: 0 <= k < n && steps[k] == RegisterMethod(name) && StaysRegistered(steps, k, n, name)
    decreases n
  {
    if n > 0 {
      HandlersIff(states, steps, n - 1, name);
      assert Enabled(states[n - 1], steps[n - 1]);
      HandlersStep(states[n - 1], steps[n - 1], name);
      if steps[n - 1] == RegisterMethod(name) {
        assert StaysRegistered(steps, n - 1, n, name);
      } else if name in states[n - 1].handlers {
        var k :| 0 <= k < n - 1 && steps[k] == RegisterMethod(name) && StaysRegistered(steps, k, n - 1, name);
        assert Forgets(steps[n - 1], name) || StaysRegistered(steps, k, n, name);
      }
      hide Apply;
    }
  }

  lemma HandlersStep(s: Sys, step: Step, name: Method)
    requires Enabled(s, step)
    ensures name in Apply(s, step).handlers <==>
            step == RegisterMethod(name) || (name in s.handlers && !Forgets(step, name))
  {
  }

  // ---------------------------------------------------------------- what a response says

  /** Where the invocation begun with `wanted` got its response from: from step `l` on, its lookup. */
  ghost predicate FromLookup(states: seq<Sys>, steps: seq<Step>, l: nat, n: nat, i: InvocationId, wanted: Method,
                             r: Response)
    requires n <= |steps| < |states|
  {
    && l < n && steps[l] == Look(i)
    && if wanted in states[l].handlers then FromHandler(steps, l, n, i, r)
       else r.error == Some(UnsupportedMethod) && r.payload == None
  }

  ghost predicate FromHandler(steps: seq<Step>, l: nat, n: nat, i: InvocationId, r: Response)
    requires n <= |steps|
  {
    exists f :: l < f < n && steps[f].Finish? && steps[f].i == i && Answers(r, steps[f].outcome)
  }

  /** The response an invocation carries, or has sent. */
  function Carried(pc: Pc): Option<Response> {
    match pc
    case Deciding(r) => Some(r)
    case Sending(r) => Some(r)
    case Leaving(Answered(r)) => Some(r)
    case Over(Answered(r)) => Some(r)
    case _ => None
  }

  /** What is known of invocation `i`, begun with `wanted`, at state `n`. */
  ghost predicate Progress(states: seq<Sys>, steps: seq<Step>, n: nat, i: InvocationId, wanted: Method, pc: Pc)
    requires n <= |steps| < |states|
  {
    && (pc.Looking? ==> pc.wanted == wanted)
    && (pc.Running? ==> exists l :: 0 <= l < n && steps[l] == Look(i) && wanted in states[l].handlers)
    && (Carried(pc).Some? ==> exists l :: 0 <= l && FromLookup(states, steps, l, n, i, wanted, Carried(pc).value))
  }

  /** One step of invocation `i` changes the response it carries only at its lookup or when its handler is done. */
  lemma CarriedStep(s: Sys, step: Step, i: InvocationId)
    requires Enabled(s, step) && i in s.invocations
    ensures var pc := s.invocations[i];
            && i in Apply(s, step).invocations
            && var pc' := Apply(s, step).invocations[i];
               && (pc'.Looking? ==> pc' == pc)
               && (pc'.Running? && pc' != pc ==>
                     pc.Looking? && step == Look(i) && pc.wanted in s.handlers)
               && (Carried(pc').Some? && Carried(pc') != Carried(pc) ==>
                     || (step == Look(i) && pc.Looking? && pc.wanted !in s.handlers &&
                         Carried(pc').value.error == Some(UnsupportedMethod) && Carried(pc').value.payload == None)
                     || (step.Finish? && step.i == i && pc.Running? && Answers(Carried(pc').value, step.outcome)))
  {
  }

  lemma FromLookupLater(states: seq<Sys>, steps: seq<Step>, l: nat, n: nat, i: InvocationId, wanted: Method,
                        r: Response)
    requires n < |steps| < |states| && FromLookup(states, steps, l, n, i, wanted, r)
    ensures FromLookup(states, steps, l, n + 1, i, wanted, r)
  {
    if wanted in states[l].handlers {
      var f :| l < f < n && steps[f].Finish? && steps[f].i == i && Answers(r, steps[f].outcome);
    }
  }

  lemma ProgressStep(states: seq<Sys>, steps: seq<Step>, n: nat, i: InvocationId, wanted: Method)
    requires IsRun(states, steps) && n < |steps| && i in states[n].invocations
    requires Progress(states, steps, n, i, wanted, states[n].invocations[i])
    ensures i in states[n + 1].invocations
    ensures Progress(states, steps, n + 1, i, wanted, states[n + 1].invocations[i])
  {
    var s, step := states[n], steps[n];
    assert Enabled(s, step);
    CarriedStep(s, step, i);
    hide Apply, Enabled, Answers;
    var pc, pc' := s.invocations[i], states[n + 1].invocations[i];
    if Carried(pc').Some? {
      if Carried(pc') == Carried(pc) {
        var l :| 0 <= l && FromLookup(states, steps, l, n, i, wanted, Carried(pc).value);
        FromLookupLater(states, steps, l, n, i, wanted, Carried(pc).value);
      } else if step == Look(i) {
        assert FromLookup(states, steps, n, n + 1, i, wanted, Carried(pc').value);
      } else {
        var l :| 0 <= l < n && steps[l] == Look(i) && wanted in states[l].handlers;
        assert FromHandler(steps, l, n + 1, i, Carried(pc').value);
        assert FromLookup(states, steps, l, n + 1, i, wanted, Carried(pc').value);
      }
    }
  }

  lemma {:induction false} InvocationProgress(states: seq<Sys>, steps: seq<Step>, b: nat, n: nat, i: InvocationId,
                                              wanted: Method)
    requires IsRun(states, steps) && b < n <= |steps| && steps[b] == Begin(i, wanted)
    ensures i in states[n].invocations && Progress(states, steps, n, i, wanted, states[n].invocations[i])
    decreases n
  {
    if n == b + 1 {
      assert Enabled(states[b], steps[b]);
    } else {
      InvocationProgress(states, steps, b, n - 1, i, wanted);
      hide Progress;
      ProgressStep(states, steps, n - 1, i, wanted);
    }
  }

  /**
   A response on the wire for an invocation of method `wanted` is the answer to what its handler did, field by field, if
   the method had a handler when it was looked up, and UNSUPPORTED_METHOD otherwise.
   */
  lemma ResponseSays(states: seq<Sys>, steps: seq<Step>, b: nat, n: nat, i: InvocationId, wanted: Method, k: nat)
    returns (l: nat)
    requires IsRun(states, steps) && b < n <= |steps| && steps[b] == Begin(i, wanted)
    requires k < |states[n].wire| && states[n].wire[k].invocation == i
    ensures FromLookup(states, steps, l, n, i, wanted, states[n].wire[k].response)
  {
    InvocationProgress(states, steps, b, n, i, wanted);
    ReachableInv(states, steps, n);
    OnWire(states[n].wire, k);
    assert SentBy(states[n].wire, i) == HasSent(states[n].invocations, i);
    hide FromLookup, SentBy;
    assert Carried(states[n].invocations[i]) == Some(states[n].wire[k].response);
    l :| 0 <= l && FromLookup(states, steps, l, n, i, wanted, states[n].wire[k].response);
  }

  lemma {:induction false} OnWire(wire: seq<Sent>, k: nat)
    requires k < |wire|
    ensures wire[k].response in SentBy(wire, wire[k].invocation)
    decreases |wire|
  {
    if k < |wire| - 1 {
      OnWire(wire[..|wire| - 1], k);
    }
  }

  /** So if the handler returned, the response has its payload and no error; a thrown error comes back as it was. */
  lemma ReturnedPayloadIsSent(states: seq<Sys>, steps: seq<Step>, f: nat, n: nat, i: InvocationId, k: nat)
    requires IsRun(states, steps) && f < n <= |steps| && steps[f].Finish? && steps[f].i == i
    requires k < |states[n].wire| && states[n].wire[k].invocation == i
    ensures Answers(states[n].wire[k].response, steps[f].outcome)
    decreases n
  {
    FinishedCarries(states, steps, f, n, i);
    ReachableInv(states, steps, n);
    OnWire(states[n].wire, k);
    assert SentBy(states[n].wire, i) == HasSent(states[n].invocations, i);
    hide SentBy, Answers;
  }

  /** An invocation carries its handler's answer for good. */
  lemma {:induction false} FinishedCarries(states: seq<Sys>, steps: seq<Step>, f: nat, n: nat, i: InvocationId)
    requires IsRun(states, steps) && f < n <= |steps| && steps[f].Finish? && steps[f].i == i
    ensures i in states[n].invocations && IsPastHandler(states[n].invocations[i])
    ensures Carried(states[n].invocations[i]).Some? ==>
              Answers(Carried(states[n].invocations[i]).value, steps[f].outcome)
    decreases n
  {
    assert Enabled(states[n - 1], steps[n - 1]);
    if n > f + 1 {
      FinishedCarries(states, steps, f, n - 1, i);
      CarriedStep(states[n - 1], steps[n - 1], i);
      PastHandlerStep(states[n - 1], steps[n - 1], i);
      hide Apply, Answers;
    }
  }

  predicate IsPastHandler(pc: Pc) { pc.Deciding? || pc.Sending? || pc.Leaving? || pc.Over? }

  lemma PastHandlerStep(s: Sys, step: Step, i: InvocationId)
    requires Enabled(s, step) && i in s.invocations && IsPastHandler(s.invocations[i])
    ensures i in Apply(s, step).invocations && IsPastHandler(Apply(s, step).invocations[i])
  {
  }
}
