/**
 What a finished call of FfiClient has done, whatever ran in between: an event has reached every listener, a removed
 listener has been waited for, a shutdown has settled everything it found. And what the listener table is, by what
 was added and removed.
 */
module FfiClientCalls {
  import opened Common
  import opened FfiClientSystem
  import opened FfiClientSafety

  // ---------------------------------------------------------------- the steps of one activation

  /** The step is activation `a`'s, standing at `pc`. */
  ghost predicate Runs(s: Sys, step: Step, a: ActId, pc: Pc) {
    step.Run? && step.a == a && a in s.acts && s.acts[a].pc == pc
  }

  /** The calls, and the places and local variables that belong to each. */
  predicate Belongs(call: Pc, pc: Pc) {
    || pc == call
    || pc.Done?
    || match call
       case AddCheck => pc.AddCommit?
       case RemoveLookup(l) => pc == RemoveWait(l)
       case PushCheck(e) => (pc.PushCommit? || pc.PushComplete? || pc.PushNotify? || pc.InCallback?) && pc.event == e
       case RequestStart(kind) => pc.Drawn().Some? && (pc.RequestRegister? ==> pc.kind == kind)
       case ShutdownClaim => pc.InShutdown()
       case InitClaim => pc.InitCall?
       case _ => false
  }

  lemma StepBelongs(s: Sys, t: ThreadId, pc: Pc, choice: Choice, call: Pc)
    requires Ready(s, t, pc, choice) && call.IsCall() && Belongs(call, pc)
    ensures Belongs(call, StepEffect(s, t, pc, choice).pc)
    ensures StepEffect(s, t, pc, choice).pc != call
  {
  }

  /** Another activation's step leaves this one where it is; its own step takes it where the program says. */
  lemma OwnStep(s: Sys, step: Step, a: ActId)
    requires Enabled(s, step) && a in s.acts
    ensures var s' := Apply(s, step);
            && a in s'.acts && s'.acts[a].thread == s.acts[a].thread
            && (step.a != a ==> s'.acts[a] == s.acts[a])
            && (step.a == a ==>
                  && step.Run? && Ready(s, s.acts[a].thread, s.acts[a].pc, step.choice)
                  && s'.acts[a].pc == StepEffect(s, s.acts[a].thread, s.acts[a].pc, step.choice).pc)
  {
    hide StepEffect, Ready;
  }

  /** Call `c` of the run is activation `a`'s. */
  ghost predicate Calls(states: seq<Sys>, steps: seq<Step>, c: nat, a: ActId, t: ThreadId, call: Pc) {
    IsRun(states, steps) && c < |steps| && steps[c] == Call(a, t, call)
  }

  /** An activation stays within its call. */
  lemma {:induction false} WithinCall(states: seq<Sys>, steps: seq<Step>, c: nat, n: nat, a: ActId, t: ThreadId,
                                      call: Pc)
    requires Calls(states, steps, c, a, t, call) && c < n <= |steps|
    ensures call.IsCall() && a in states[n].acts && states[n].acts[a].thread == t
    ensures Belongs(call, states[n].acts[a].pc)
    decreases n
  {
    assert Enabled(states[c], steps[c]);
    if n > c + 1 {
      WithinCall(states, steps, c, n - 1, a, t, call);
      var s, step := states[n - 1], steps[n - 1];
      assert Enabled(s, step);
      hide StepEffect, Ready, Belongs;
      OwnStep(s, step, a);
      if step.a == a {
        StepBelongs(s, t, s.acts[a].pc, step.choice, call);
      }
    }
  }

  /** The last step that an activation has taken, and where it took it from. */
  lemma {:induction false} CameFrom(states: seq<Sys>, steps: seq<Step>, c: nat, n: nat, a: ActId, t: ThreadId, call: Pc)
    returns (k: nat)
    requires Calls(states, steps, c, a, t, call) && c < n <= |steps|
    requires a in states[n].acts && states[n].acts[a].pc != call
    ensures c < k < n && a in states[k].acts && states[k].acts[a].thread == t && Belongs(call, states[k].acts[a].pc)
    ensures Runs(states[k], steps[k], a, states[k].acts[a].pc)
    ensures Ready(states[k], t, states[k].acts[a].pc, steps[k].choice)
    ensures states[n].acts[a].pc == StepEffect(states[k], t, states[k].acts[a].pc, steps[k].choice).pc
    decreases n
  {
    hide StepEffect, Ready, Belongs;
    assert Enabled(states[c], steps[c]);
    assert n > c + 1;
    WithinCall(states, steps, c, n - 1, a, t, call);
    var s, step := states[n - 1], steps[n - 1];
    assert Enabled(s, step);
    OwnStep(s, step, a);
    if step.a == a {
      k := n - 1;
    } else {
      k := CameFrom(states, steps, c, n - 1, a, t, call);
    }
  }

  // ---------------------------------------------------------------- pushEvent

  /** The step finds slot `l` removed, or enters its callback with event `e`. */
  ghost predicate Meets(s: Sys, step: Step, s': Sys, a: ActId, e: Event, l: ListenerId) {
    && step == Run(a, Pick(l)) && l in s.table.slots
    && (s.table.slots[l].removed || (a in Inside(s'.acts, l) && s'.acts[a].pc.event == e))
  }

  ghost predicate HasMet(states: seq<Sys>, steps: seq<Step>, j: nat, n: nat, a: ActId, e: Event, l: ListenerId)
    requires |states| == |steps| + 1 && n <= |steps|
  {
    exists k :: j < k < n && Meets(states[k], steps[k], states[k + 1], a, e, l)
  }

  /** Of the listeners `ls` copied at step `j`, each is still to come or has been met. */
  ghost predicate Delivering(states: seq<Sys>, steps: seq<Step>, j: nat, n: nat, a: ActId, e: Event,
                             ls: set<ListenerId>)
    requires |states| == |steps| + 1 && n <= |steps|
  {
    && a in states[n].acts
    && var pc := states[n].acts[a].pc;
       && (pc.Done? || ((pc.PushComplete? || pc.PushNotify? || pc.InCallback?) && pc.event == e))
       && forall l | l in ls :: (!pc.Done? && l in pc.rest) || HasMet(states, steps, j, n, a, e, l)
  }

  /** One step of pushEvent after its locked section takes no listener from its copy without meeting it. */
  lemma NotifyStep(s: Sys, t: ThreadId, pc: Pc, choice: Choice, l: ListenerId)
    requires Ready(s, t, pc, choice) && (pc.PushComplete? || pc.PushNotify? || pc.InCallback?)
    ensures var pc' := StepEffect(s, t, pc, choice).pc;
            && (pc'.Done? || ((pc'.PushNotify? || pc'.InCallback?) && pc'.event == pc.event))
            && (l in pc.rest && (pc'.Done? || l !in pc'.rest) ==>
                  && choice == Pick(l) && l in s.table.slots
                  && (s.table.slots[l].removed || (pc'.InsideOf() == Some(l) && pc'.event == pc.event)))
  {
  }

  lemma DeliveringStep(states: seq<Sys>, steps: seq<Step>, j: nat, n: nat, a: ActId, e: Event, ls: set<ListenerId>)
    requires IsRun(states, steps) && j < n < |steps| && Delivering(states, steps, j, n, a, e, ls)
    ensures Delivering(states, steps, j, n + 1, a, e, ls)
  {
    var s, step, s' := states[n], steps[n], states[n + 1];
    assert Enabled(s, step);
    hide StepEffect, Ready;
    OwnStep(s, step, a);
    forall l | l in ls
      ensures (!s'.acts[a].pc.Done? && l in s'.acts[a].pc.rest) || HasMet(states, steps, j, n + 1, a, e, l)
    {
      if HasMet(states, steps, j, n, a, e, l) {
        var k :| j < k < n && Meets(states[k], steps[k], states[k + 1], a, e, l);
      } else if step.a == a {
        NotifyStep(s, s.acts[a].thread, s.acts[a].pc, step.choice, l);
        assert l in s'.acts[a].pc.rest || Meets(s, step, s', a, e, l);
      }
    }
    if step.a == a && !s.acts[a].pc.Done? {
      NotifyStep(s, s.acts[a].thread, s.acts[a].pc, step.choice, 0);
    }
  }

  /** The promise of the event's id and kind, if it is pending, leaves the map; no other does. */
  ghost predicate TakesItsPromise(s: Sys, s': Sys, a: ActId, e: Event) {
    if e.asyncId.Some? && e.asyncId.value in s.promises.pending && s.promises.pending[e.asyncId.value] == e.kind
    then s'.promises.pending == s.promises.pending - {e.asyncId.value} &&
         a in s'.acts && s'.acts[a].pc.PushComplete? && s'.acts[a].pc.taken == e.asyncId
    else s'.promises.pending == s.promises.pending
  }

  lemma CommitStep(s: Sys, step: Step, a: ActId, e: Event)
    requires Enabled(s, step) && Runs(s, step, a, PushCommit(e))
    ensures var s' := Apply(s, step);
            && TakesItsPromise(s, s', a, e) && a in s'.acts
            && s'.acts[a].pc.PushComplete? && s'.acts[a].pc.event == e && s'.acts[a].pc.rest == s.table.listed
  {
  }

  /**
   From the locked section of pushEvent on: each listener registered there is still to be notified, or has been found
   removed or been entered with the event. When the call is over none is still to be notified.
   */
  lemma {:induction false} PushReachesListeners(states: seq<Sys>, steps: seq<Step>, j: nat, n: nat, a: ActId, e: Event)
    requires IsRun(states, steps) && j < n <= |steps| && Runs(states[j], steps[j], a, PushCommit(e))
    ensures Delivering(states, steps, j, n, a, e, states[j].table.listed)
    ensures states[n].acts[a].pc.Done? ==>
              forall l | l in states[j].table.listed :: HasMet(states, steps, j, n, a, e, l)
    decreases n
  {
    if n == j + 1 {
      assert Enabled(states[j], steps[j]);
      CommitStep(states[j], steps[j], a, e);
    } else {
      PushReachesListeners(states, steps, j, n - 1, a, e);
      DeliveringStep(states, steps, j, n - 1, a, e, states[j].table.listed);
    }
  }

  lemma CompleteStep(s: Sys, step: Step, a: ActId, e: Event, rest: set<ListenerId>)
    requires Enabled(s, step) && Runs(s, step, a, PushComplete(e, e.asyncId, rest)) && e.asyncId.Some?
    ensures var resolved := Apply(s, step).promises.resolved;
            e.asyncId.value in resolved && resolved[e.asyncId.value] == Completed(e)
  {
  }

  /** The promise that the commit took is completed with the event before the call is over. */
  lemma {:induction false} TakenIsCompleted(states: seq<Sys>, steps: seq<Step>, j: nat, n: nat, a: ActId, e: Event)
    requires IsRun(states, steps) && j < n <= |steps| && Runs(states[j], steps[j], a, PushCommit(e))
    requires e.asyncId.Some? && e.asyncId.value in states[j].promises.pending
    requires states[j].promises.pending[e.asyncId.value] == e.kind
    ensures a in states[n].acts
    ensures states[n].acts[a].pc == PushComplete(e, e.asyncId, states[j].table.listed)
            || (e.asyncId.value in states[n].promises.resolved &&
                states[n].promises.resolved[e.asyncId.value] == Completed(e))
    decreases n
  {
    hide StepEffect, Inv, Ready;
    var id := e.asyncId.value;
    if n == j + 1 {
      CommitStep(states[j], steps[j], a, e);
    } else {
      TakenIsCompleted(states, steps, j, n - 1, a, e);
      var s, step := states[n - 1], steps[n - 1];
      assert Enabled(s, step);
      ReachableInv(states, steps, n - 1);
      OwnStep(s, step, a);
      if s.acts[a].pc != PushComplete(e, e.asyncId, states[j].table.listed) {
        SatisfiedStays(s, step, id);
      } else if step.a == a {
        CompleteStep(s, step, a, e, states[j].table.listed);
      }
    }
  }

  /**
   A finished pushEvent either found the client not initialized, or committed: every listener registered at its commit
   has been found removed or been entered with the event, and the pending promise of the event's id and kind has been
   completed with it.
   */
  lemma PushOutcome(states: seq<Sys>, steps: seq<Step>, c: nat, n: nat, a: ActId, t: ThreadId, e: Event)
    returns (j: nat)
    requires Calls(states, steps, c, a, t, PushCheck(e)) && c < n <= |steps|
    requires a in states[n].acts && states[n].acts[a].pc.Done?
    ensures c < j < n
    ensures || (Runs(states[j], steps[j], a, PushCheck(e)) && !states[j].life.state.Initialized?)
            || (&& Runs(states[j], steps[j], a, PushCommit(e))
                && (forall l | l in states[j].table.listed :: HasMet(states, steps, j, n, a, e, l))
                && (forall id | e.asyncId == Some(id) && id in states[j].promises.pending &&
                                states[j].promises.pending[id] == e.kind ::
                      && id in states[n].promises.resolved && states[n].promises.resolved[id] == Completed(e)))
  {
    j := CommitOrRefusal(states, steps, c, n, a, t, e);
    if Runs(states[j], steps[j], a, PushCommit(e)) {
      PushReachesListeners(states, steps, j, n, a, e);
      forall id | e.asyncId == Some(id) && id in states[j].promises.pending && states[j].promises.pending[id] == e.kind
        ensures id in states[n].promises.resolved && states[n].promises.resolved[id] == Completed(e)
      {
        TakenIsCompleted(states, steps, j, n, a, e);
      }
    }
  }

  lemma {:induction false} CommitOrRefusal(states: seq<Sys>, steps: seq<Step>, c: nat, n: nat, a: ActId, t: ThreadId,
                                           e: Event)
    returns (j: nat)
    requires Calls(states, steps, c, a, t, PushCheck(e)) && c < n <= |steps| && a in states[n].acts
    requires states[n].acts[a].pc != PushCheck(e) && !states[n].acts[a].pc.PushCommit?
    ensures c < j < n
    ensures || (Runs(states[j], steps[j], a, PushCheck(e)) && !states[j].life.state.Initialized?)
            || Runs(states[j], steps[j], a, PushCommit(e))
    decreases n
  {
    j := CameFrom(states, steps, c, n, a, t, PushCheck(e));
    var pc := states[j].acts[a].pc;
    if !pc.PushCheck? && !pc.PushCommit? {
      hide StepEffect, Ready;
      j := CommitOrRefusal(states, steps, c, j, a, t, e);
    }
  }

  // ---------------------------------------------------------------- addListener and removeListener

  /** A finished addListener either met a shutdown, or has put an empty slot under an id never used before. */
  lemma AddOutcome(states: seq<Sys>, steps: seq<Step>, c: nat, n: nat, a: ActId, t: ThreadId) returns (j: nat)
    requires Calls(states, steps, c, a, t, AddCheck) && c < n <= |steps|
    requires a in states[n].acts && states[n].acts[a].pc.Done?
    ensures c < j < n
    ensures || (Runs(states[j], steps[j], a, AddCheck) && states[j].life.state.ShuttingDown?)
            || (&& Runs(states[j], steps[j], a, AddCommit)
                && var was, now := states[j].table, states[j + 1].table;
                   && was.nextId !in was.slots && now.nextId == was.nextId + 1
                   && now.listed == was.listed + {was.nextId}
                   && now.slots == was.slots[was.nextId := Slot(map[], 0, false)])
  {
    j := CameFrom(states, steps, c, n, a, t, AddCheck);
    ReachableInv(states, steps, j);
    assert Enabled(states[j], steps[j]);
  }

  /**
   A finished removeListener either found the listener not registered, or has taken it out of the table and then
   waited for it, so that it is quiet ever after.
   */
  lemma RemoveOutcome(states: seq<Sys>, steps: seq<Step>, c: nat, n: nat, a: ActId, t: ThreadId, l: ListenerId)
    returns (j: nat, k: nat)
    requires Calls(states, steps, c, a, t, RemoveLookup(l)) && c < n <= |steps|
    requires a in states[n].acts && states[n].acts[a].pc.Done?
    ensures c < j < n && Runs(states[j], steps[j], a, RemoveLookup(l))
    ensures l in states[j].table.listed ==>
              && states[j + 1].table.listed == states[j].table.listed - {l}
              && j < k < n && EndsWait(states[k], steps[k], l, t) && Quiet(states[n], l, t)
  {
    k := CameFrom(states, steps, c, n, a, t, RemoveLookup(l));
    j := k;
    if states[k].acts[a].pc.RemoveWait? {
      j := CameFrom(states, steps, c, k, a, t, RemoveLookup(l));
      assert Enabled(states[j], steps[j]);
      ListenerQuiescence(states, steps, k, n, l, t);
    }
  }

  // ---------------------------------------------------------------- initialize

  /** A finished initialize either found the client not uninitialized, or has left it as its FFI call ended. */
  lemma InitializeOutcome(states: seq<Sys>, steps: seq<Step>, c: nat, n: nat, a: ActId, t: ThreadId)
    returns (j: nat, k: nat)
    requires Calls(states, steps, c, a, t, InitClaim) && c < n <= |steps|
    requires a in states[n].acts && states[n].acts[a].pc.Done?
    ensures c < j < n && Runs(states[j], steps[j], a, InitClaim)
    ensures states[j].life.state.Uninitialized? ==>
              && states[j + 1].life.state.Initializing?
              && j < k < n && Runs(states[k], steps[k], a, InitCall) && steps[k].choice.Succeeds?
              && states[k + 1].life.state == if steps[k].choice.ok then Initialized else Uninitialized
  {
    k := CameFrom(states, steps, c, n, a, t, InitClaim);
    j := k;
    assert Enabled(states[k], steps[k]);
    if states[k].acts[a].pc.InitCall? {
      j := CameFrom(states, steps, c, k, a, t, InitClaim);
      assert Enabled(states[j], steps[j]);
    }
  }

  // ---------------------------------------------------------------- an asynchronous request

  /** The step that registered the promise of a request that has gone further. */
  lemma {:induction false} RegisteredAt(states: seq<Sys>, steps: seq<Step>, c: nat, n: nat, a: ActId, t: ThreadId,
                                        kind: Kind)
    returns (r: nat)
    requires Calls(states, steps, c, a, t, RequestStart(kind)) && c < n <= |steps| && a in states[n].acts
    requires states[n].acts[a].pc.Drawn().Some? && !states[n].acts[a].pc.RequestRegister?
    ensures c < r < n && Runs(states[r], steps[r], a, RequestRegister(kind, states[n].acts[a].pc.req))
    decreases n
  {
    r := CameFrom(states, steps, c, n, a, t, RequestStart(kind));
    if !states[r].acts[a].pc.RequestRegister? {
      r := RegisteredAt(states, steps, c, r, a, t, kind);
    }
  }

  /** A request is cancelled because its check found the client not initialized, or because its send failed. */
  ghost predicate HasReason(s: Sys, step: Step, a: ActId, id: AsyncId) {
    || (Runs(s, step, a, RequestCheck(id)) && !s.life.state.Initialized?)
    || (Runs(s, step, a, RequestSend(id)) && step.choice == Succeeds(false))
  }

  lemma {:induction false} CancelledBecause(states: seq<Sys>, steps: seq<Step>, c: nat, n: nat, a: ActId, t: ThreadId,
                                            kind: Kind, id: AsyncId)
    returns (m: nat)
    requires Calls(states, steps, c, a, t, RequestStart(kind)) && c < n <= |steps| && a in states[n].acts
    requires states[n].acts[a].pc == RequestCancel(id) || states[n].acts[a].pc == RequestResolve(id)
    ensures c < m < n && HasReason(states[m], steps[m], a, id)
    decreases n
  {
    m := CameFrom(states, steps, c, n, a, t, RequestStart(kind));
    if states[m].acts[a].pc.RequestCancel? {
      m := CancelledBecause(states, steps, c, m, a, t, kind, id);
    }
  }

  /** The registering step stores the promise, under an id that was not in use. */
  lemma RegisterStep(states: seq<Sys>, steps: seq<Step>, r: nat, a: ActId, kind: Kind, id: AsyncId)
    requires IsRun(states, steps) && r < |steps| && Runs(states[r], steps[r], a, RequestRegister(kind, id))
    ensures id !in states[r].promises.pending
    ensures states[r + 1].promises.pending == states[r].promises.pending[id := kind]
  {
    ReachableInv(states, steps, r);
    assert Enabled(states[r], steps[r]);
  }

  lemma LastRequestStep(s: Sys, t: ThreadId, pc: Pc, choice: Choice, kind: Kind)
    requires Ready(s, t, pc, choice) && Belongs(RequestStart(kind), pc) && StepEffect(s, t, pc, choice).pc.Done?
    ensures pc.Drawn().Some? && !pc.RequestRegister?
    ensures pc.RequestSend? ==> choice == Succeeds(true)
    ensures pc.RequestSend? || pc.RequestResolve? || (pc.RequestCancel? && pc.req !in s.promises.pending)
  {
  }

  lemma ResolveStep(states: seq<Sys>, steps: seq<Step>, k: nat, n: nat, a: ActId, id: AsyncId)
    requires IsRun(states, steps) && k < n <= |steps| && Runs(states[k], steps[k], a, RequestResolve(id))
    ensures id in states[n].promises.resolved && states[n].promises.resolved[id].Cancelled?
  {
    assert Enabled(states[k], steps[k]);
    SatisfiedForGood(states, steps, k + 1, n, id);
  }

  /**
   A finished request has registered its promise under a fresh id, and then either its send succeeded, or it had a
   reason to cancel: the promise is then cancelled, unless somebody else took it before.
   */
  lemma RequestOutcome(states: seq<Sys>, steps: seq<Step>, c: nat, n: nat, a: ActId, t: ThreadId, kind: Kind)
    returns (id: AsyncId, r: nat, m: nat, k: nat)
    requires Calls(states, steps, c, a, t, RequestStart(kind)) && c < n <= |steps|
    requires a in states[n].acts && states[n].acts[a].pc.Done?
    ensures c < r < n && id !in states[r].promises.pending
    ensures states[r + 1].promises.pending == states[r].promises.pending[id := kind]
    ensures r < k < n
    ensures || (Runs(states[k], steps[k], a, RequestSend(id)) && steps[k].choice == Succeeds(true))
            || (&& c < m < k && HasReason(states[m], steps[m], a, id)
                && (|| (id in states[n].promises.resolved && states[n].promises.resolved[id].Cancelled?)
                    || (Runs(states[k], steps[k], a, RequestCancel(id)) && id !in states[k].promises.pending)))
  {
    hide StepEffect, Ready, Belongs;
    k := CameFrom(states, steps, c, n, a, t, RequestStart(kind));
    var pc := states[k].acts[a].pc;
    LastRequestStep(states[k], t, pc, steps[k].choice, kind);
    id := pc.req;
    r := RegisteredAt(states, steps, c, k, a, t, kind);
    RegisterStep(states, steps, r, a, kind, id);
    m := c;
    if !pc.RequestSend? {
      m := CancelledBecause(states, steps, c, k, a, t, kind, id);
    }
    if pc.RequestResolve? {
      ResolveStep(states, steps, k, n, a, id);
    }
  }

  // ---------------------------------------------------------------- shutdown

  /** A wait of thread `t` for slot `l` ended after step `d`. */
  ghost predicate HasWaited(states: seq<Sys>, steps: seq<Step>, d: nat, n: nat, l: ListenerId, t: ThreadId)
    requires |states| == |steps| + 1 && n <= |steps|
  {
    exists k :: d < k < n && EndsWait(states[k], steps[k], l, t)
  }

  ghost predicate IsCancelled(p: Promises, id: AsyncId) { id in p.resolved && p.resolved[id].Cancelled? }

  /** Of the slots `ls` and promises `ids` drained at step `d`, each is still to come or has been settled. */
  ghost predicate Settling(states: seq<Sys>, steps: seq<Step>, d: nat, n: nat, a: ActId, t: ThreadId,
                           ls: set<ListenerId>, ids: set<AsyncId>)
    requires |states| == |steps| + 1 && n <= |steps|
  {
    && a in states[n].acts && states[n].acts[a].thread == t
    && var pc := states[n].acts[a].pc;
       && (pc.PastDrain() || pc.Done?)
       && (forall l | l in ls :: (pc.PastDrain() && l in pc.toWait) || HasWaited(states, steps, d, n, l, t))
       && (forall id | id in ids :: (pc.ShutdownCancel? && id in pc.toCancel) || IsCancelled(states[n].promises, id))
  }

  lemma SettleStep(s: Sys, step: Step, a: ActId, l: ListenerId, id: AsyncId)
    requires Enabled(s, step) && step.a == a && a in s.acts && s.acts[a].pc.PastDrain()
    ensures var pc, s' := s.acts[a].pc, Apply(s, step);
            && a in s'.acts && s'.acts[a].thread == s.acts[a].thread
            && var pc' := s'.acts[a].pc;
               && (pc'.PastDrain() || pc'.Done?)
               && (l in pc.toWait ==> (pc'.PastDrain() && l in pc'.toWait) || EndsWait(s, step, l, s.acts[a].thread))
               && (pc.ShutdownCancel? && id in pc.toCancel ==>
                     (pc'.ShutdownCancel? && id in pc'.toCancel) || IsCancelled(s'.promises, id))
  {
  }

  lemma SettlingStep(states: seq<Sys>, steps: seq<Step>, d: nat, n: nat, a: ActId, t: ThreadId, ls: set<ListenerId>,
                     ids: set<AsyncId>)
    requires IsRun(states, steps) && d < n < |steps| && Settling(states, steps, d, n, a, t, ls, ids)
    ensures Settling(states, steps, d, n + 1, a, t, ls, ids)
  {
    hide StepEffect, Ready, Inv, EndsWait;
    var s, step, s' := states[n], steps[n], states[n + 1];
    assert Enabled(s, step);
    OwnStep(s, step, a);
    ReachableInv(states, steps, n);
    if step.a == a {
      assert s.acts[a].pc.PastDrain() by {
        DoneIsOver(s, step, a);
      }
      SettleStep(s, step, a, 0, 0);
    }
    forall l | l in ls
      ensures (s'.acts[a].pc.PastDrain() && l in s'.acts[a].pc.toWait) || HasWaited(states, steps, d, n + 1, l, t)
    {
      if HasWaited(states, steps, d, n, l, t) {
        var k :| d < k < n && EndsWait(states[k], steps[k], l, t);
      } else if step.a == a {
        SettleStep(s, step, a, l, 0);
      }
    }
    forall id | id in ids
      ensures (s'.acts[a].pc.ShutdownCancel? && id in s'.acts[a].pc.toCancel) || IsCancelled(s'.promises, id)
    {
      if IsCancelled(s.promises, id) {
        SatisfiedStays(s, step, id);
      } else if step.a == a {
        SettleStep(s, step, a, 0, id);
      }
    }
  }

  lemma DoneIsOver(s: Sys, step: Step, a: ActId)
    requires Enabled(s, step) && step.a == a && a in s.acts
    ensures !s.acts[a].pc.Done?
  {
  }

  lemma DrainStep(s: Sys, step: Step, a: ActId)
    requires Enabled(s, step) && Runs(s, step, a, ShutdownMark({}))
    ensures var s' := Apply(s, step);
            && s'.table.listed == {} && s'.promises.pending == map[]
            && a in s'.acts && s'.acts[a].thread == s.acts[a].thread
            && s'.acts[a].pc == ShutdownCancel(s.promises.pending.Keys, s.table.listed)
  {
  }

  /** From shutdown's locked section on, everything found there is still to be settled or has been. */
  lemma {:induction false} DrainSettles(states: seq<Sys>, steps: seq<Step>, d: nat, n: nat, a: ActId, t: ThreadId)
    requires IsRun(states, steps) && d < n <= |steps| && Runs(states[d], steps[d], a, ShutdownMark({}))
    requires states[d].acts[a].thread == t
    ensures Settling(states, steps, d, n, a, t, states[d].table.listed, states[d].promises.pending.Keys)
    decreases n
  {
    if n == d + 1 {
      assert Enabled(states[d], steps[d]);
      hide StepEffect;
      DrainStep(states[d], steps[d], a);
    } else {
      DrainSettles(states, steps, d, n - 1, a, t);
      hide Settling;
      SettlingStep(states, steps, d, n - 1, a, t, states[d].table.listed, states[d].promises.pending.Keys);
    }
  }

  /** The last step of shutdown's locked section. */
  lemma {:induction false} DrainedAt(states: seq<Sys>, steps: seq<Step>, c: nat, n: nat, a: ActId, t: ThreadId)
    returns (d: nat)
    requires Calls(states, steps, c, a, t, ShutdownClaim) && c < n <= |steps|
    requires a in states[n].acts && states[n].acts[a].pc.PastDrain()
    ensures c < d < n && Runs(states[d], steps[d], a, ShutdownMark({})) && states[d].acts[a].thread == t
    decreases n
  {
    d := CameFrom(states, steps, c, n, a, t, ShutdownClaim);
    if states[d].acts[a].pc.PastDrain() {
      d := DrainedAt(states, steps, c, d, a, t);
    }
  }

  /** The claim of a shutdown that has gone further. */
  lemma {:induction false} ClaimedAt(states: seq<Sys>, steps: seq<Step>, c: nat, n: nat, a: ActId, t: ThreadId)
    returns (j: nat)
    requires Calls(states, steps, c, a, t, ShutdownClaim) && c < n <= |steps|
    requires a in states[n].acts && states[n].acts[a].pc.InShutdown()
    ensures c < j < n && Runs(states[j], steps[j], a, ShutdownClaim) && states[j].life.state.Initialized?
    decreases n
  {
    j := CameFrom(states, steps, c, n, a, t, ShutdownClaim);
    if states[j].acts[a].pc.InShutdown() {
      j := ClaimedAt(states, steps, c, j, a, t);
    }
  }

  /** What a shutdown that drained at step `d` and ended with step `k` has done by state `n`. */
  ghost predicate ShutDown(states: seq<Sys>, steps: seq<Step>, d: nat, k: nat, n: nat, t: ThreadId)
    requires |states| == |steps| + 1 && d < k < n <= |steps|
  {
    && states[d + 1].table.listed == {} && states[d + 1].promises.pending == map[]
    && (forall l | l in states[d].table.listed :: HasWaited(states, steps, d, n, l, t) && Quiet(states[n], l, t))
    && (forall id | id in states[d].promises.pending :: IsCancelled(states[n].promises, id))
    && states[k + 1].life.state.Uninitialized?
  }

  /**
   A finished shutdown either found the client not initialized, or has emptied both maps in one locked section,
   cancelled every promise found there, waited for every listener found there, and left the client uninitialized.
   */
  lemma ShutdownOutcome(states: seq<Sys>, steps: seq<Step>, c: nat, n: nat, a: ActId, t: ThreadId)
    returns (j: nat, d: nat, k: nat)
    requires Calls(states, steps, c, a, t, ShutdownClaim) && c < n <= |steps|
    requires a in states[n].acts && states[n].acts[a].pc.Done?
    ensures c < j < n && Runs(states[j], steps[j], a, ShutdownClaim)
    ensures states[j].life.state.Initialized? ==> j < d < k < n && ShutDown(states, steps, d, k, n, t)
  {
    k := CameFrom(states, steps, c, n, a, t, ShutdownClaim);
    j, d := k, k;
    if states[k].acts[a].pc.InShutdown() {
      assert Enabled(states[k], steps[k]) && states[k].acts[a].pc == ShutdownWait({});
      assert states[k + 1].life.state.Uninitialized?;
      hide StepEffect, Ready;
      d := DrainedAt(states, steps, c, k, a, t);
      j := ClaimedAt(states, steps, c, d, a, t);
      DrainSettles(states, steps, d, n, a, t);
      assert Enabled(states[d], steps[d]);
      DrainStep(states[d], steps[d], a);
      forall l | l in states[d].table.listed
        ensures HasWaited(states, steps, d, n, l, t) && Quiet(states[n], l, t)
      {
        var m :| d < m < n && EndsWait(states[m], steps[m], l, t);
        ListenerQuiescence(states, steps, m, n, l, t);
      }
    }
  }

  // ---------------------------------------------------------------- the listener table by its history

  ghost predicate Adds(s: Sys, step: Step, l: ListenerId) {
    step.Run? && step.a in s.acts && s.acts[step.a].pc.AddCommit? && s.table.nextId == l
  }

  /** removeListener's lookup of `l`, or the end of shutdown's locked section. */
  ghost predicate Unlists(s: Sys, step: Step, l: ListenerId) {
    step.Run? && step.a in s.acts && (s.acts[step.a].pc == RemoveLookup(l) || s.acts[step.a].pc == ShutdownMark({}))
  }

  /** The end of removeListener's wait for `l`, or shutdown's marking of it. */
  ghost predicate MarksSlot(s: Sys, step: Step, l: ListenerId) {
    && step.Run? && step.a in s.acts && l in s.table.slots
    && var pc := s.acts[step.a].pc;
       pc == RemoveWait(l) || (pc.ShutdownMark? && pc.toMark != {} && step.choice == Pick(l))
  }

  /** Nothing has unlisted `l` between step `k` and state `n`. */
  ghost predicate StaysListed(states: seq<Sys>, steps: seq<Step>, k: nat, n: nat, l: ListenerId)
    requires n <= |steps| < |states|
  {
    forall m | k < m < n :: !Unlists(states[m], steps[m], l)
  }

  lemma ListedStep(s: Sys, step: Step, l: ListenerId)
    requires RefsInv(s.table, s.acts) && Enabled(s, step)
    ensures l in Apply(s, step).table.listed <==> Adds(s, step, l) || (l in s.table.listed && !Unlists(s, step, l))
  {
  }

  lemma RemovedStep(s: Sys, step: Step, l: ListenerId)
    requires RefsInv(s.table, s.acts) && Enabled(s, step)
    ensures l in Apply(s, step).table.slots <==> Adds(s, step, l) || l in s.table.slots
    ensures l in s.table.slots ==>
              (Apply(s, step).table.slots[l].removed <==> s.table.slots[l].removed || MarksSlot(s, step, l))
    ensures Adds(s, step, l) ==> l !in s.table.slots && !Apply(s, step).table.slots[l].removed
  {
  }

  lemma ListedNext(states: seq<Sys>, steps: seq<Step>, n: nat, l: ListenerId)
    requires IsRun(states, steps) && n < |steps|
    ensures l in states[n + 1].table.listed <==>
            Adds(states[n], steps[n], l) || (l in states[n].table.listed && !Unlists(states[n], steps[n], l))
  {
    hide StepEffect, Ready;
    ReachableInv(states, steps, n);
    assert Enabled(states[n], steps[n]);
    ListedStep(states[n], steps[n], l);
  }

  lemma {:induction false} ListedSince(states: seq<Sys>, steps: seq<Step>, n: nat, l: ListenerId) returns (k: nat)
    requires IsRun(states, steps) && n <= |steps| && l in states[n].table.listed
    ensures k < n && Adds(states[k], steps[k], l) && StaysListed(states, steps, k, n, l)
    decreases n
  {
    hide Adds, Unlists;
    assert n > 0 by {
      NothingListedAtFirst(states, steps, l);
    }
    ListedNext(states, steps, n - 1, l);
    if Adds(states[n - 1], steps[n - 1], l) {
      k := n - 1;
    } else {
      k := ListedSince(states, steps, n - 1, l);
    }
  }

  lemma NothingListedAtFirst(states: seq<Sys>, steps: seq<Step>, l: ListenerId)
    requires IsRun(states, steps)
    ensures l !in states[0].table.listed && l !in states[0].table.slots
  {
  }

  lemma RunLength(states: seq<Sys>, steps: seq<Step>)
    requires IsRun(states, steps)
    ensures |states| == |steps| + 1
  {
  }

  lemma StaysListedUntil(states: seq<Sys>, steps: seq<Step>, k: nat, n: nat, l: ListenerId)
    requires k < n - 1 < |steps| < |states| && StaysListed(states, steps, k, n, l)
    ensures StaysListed(states, steps, k, n - 1, l) && !Unlists(states[n - 1], steps[n - 1], l)
  {
  }

  lemma {:induction false} AddedStaysListed(states: seq<Sys>, steps: seq<Step>, k: nat, n: nat, l: ListenerId)
    requires IsRun(states, steps) && k < n <= |steps|
    requires Adds(states[k], steps[k], l) && StaysListed(states, steps, k, n, l)
    ensures l in states[n].table.listed
    decreases n
  {
    hide Adds, Unlists, StaysListed, IsRun;
    assert |states| == |steps| + 1 by {
      RunLength(states, steps);
    }
    ListedNext(states, steps, n - 1, l);
    if k < n - 1 {
      StaysListedUntil(states, steps, k, n, l);
      AddedStaysListed(states, steps, k, n - 1, l);
    }
  }

  /** A listener is registered exactly if some addListener has put it there and nothing has taken it out since. */
  lemma ListedIff(states: seq<Sys>, steps: seq<Step>, n: nat, l: ListenerId)
    requires IsRun(states, steps) && n <= |steps|
    ensures l in states[n].table.listed <==>
            exists k :: 0 <= k < n && Adds(states[k], steps[k], l) && StaysListed(states, steps, k, n, l)
  {
    hide Adds, StaysListed;
    if l in states[n].table.listed {
      var k := ListedSince(states, steps, n, l);
    }
    if k :| 0 <= k < n && Adds(states[k], steps[k], l) && StaysListed(states, steps, k, n, l) {
      AddedStaysListed(states, steps, k, n, l);
    }
  }

  /** A slot is marked removed exactly if the end of a removeListener's wait or a shutdown has marked it. */
  lemma {:induction false} RemovedIff(states: seq<Sys>, steps: seq<Step>, n: nat, l: ListenerId)
    requires IsRun(states, steps) && n <= |steps|
    ensures l in states[n].table.slots && states[n].table.slots[l].removed <==>
            exists k :: 0 <= k < n && MarksSlot(states[k], steps[k], l)
    decreases n
  {
    if n > 0 {
      RemovedIff(states, steps, n - 1, l);
      ReachableInv(states, steps, n - 1);
      assert Enabled(states[n - 1], steps[n - 1]);
      hide StepEffect, Inv, Ready;
      RemovedStep(states[n - 1], steps[n - 1], l);
    }
  }

  // ---------------------------------------------------------------- a run with all of it

  lemma Extend(states: seq<Sys>, steps: seq<Step>, step: Step) returns (states': seq<Sys>, steps': seq<Step>)
    requires IsRun(states, steps) && Enabled(states[|steps|], step)
    ensures IsRun(states', steps') && |states'| == |steps'| + 1 && states' == states + [Apply(states[|steps|], step)]
    ensures steps' == steps + [step] && states'[|steps'|] == Apply(states[|steps|], step)
  {
    states', steps' := states + [Apply(states[|steps|], step)], steps + [step];
    hide Apply, Enabled, Init;
  }

  const NoPromises := Promises(map[], 1, map[], map[], {}, map[])

  /** No call is in progress; the activations so far are those below `count`. */
  ghost predicate AtRest(s: Sys, state: LifecycleState, table: Table, count: nat) {
    && s.life == Lifecycle(state, None, false) && s.lockedBy.None? && s.table == table && s.promises == NoPromises
    && forall a | a in s.acts :: a < count && s.acts[a].pc.Done?
  }

  const NoListeners := Table({}, map[], 1)
  const OneListener := Table({1}, map[1 := Slot(map[], 0, false)], 2)

  lemma Initializes(states: seq<Sys>, steps: seq<Step>) returns (states': seq<Sys>, steps': seq<Step>)
    requires IsRun(states, steps) && AtRest(states[|steps|], Uninitialized, NoListeners, 0)
    ensures IsRun(states', steps') && AtRest(states'[|steps'|], Initialized, NoListeners, 1)
  {
    states', steps' := Extend(states, steps, Call(0, 0, InitClaim));
    states', steps' := Extend(states', steps', Run(0, Only));
    states', steps' := Extend(states', steps', Run(0, Succeeds(true)));
    hide IsRun;
  }

  lemma AddsOne(states: seq<Sys>, steps: seq<Step>) returns (states': seq<Sys>, steps': seq<Step>)
    requires IsRun(states, steps) && AtRest(states[|steps|], Initialized, NoListeners, 1)
    ensures IsRun(states', steps') && AtRest(states'[|steps'|], Initialized, OneListener, 2)
  {
    states', steps' := Extend(states, steps, Call(1, 0, AddCheck));
    states', steps' := Extend(states', steps', Run(1, Only));
    states', steps' := Extend(states', steps', Run(1, Only));
    hide IsRun;
  }

  /** pushEvent up to the callback. */
  lemma PushesTo(states: seq<Sys>, steps: seq<Step>, e: Event) returns (states': seq<Sys>, steps': seq<Step>)
    requires IsRun(states, steps) && AtRest(states[|steps|], Initialized, OneListener, 2)
    ensures IsRun(states', steps') && |steps'| == |steps| + 5 && steps'[|steps|] == Call(2, 0, PushCheck(e))
    ensures var s := states'[|steps'|];
            && s.life == Lifecycle(Initialized, None, false) && s.lockedBy.None? && s.promises == NoPromises
            && s.table == OneListener.Do(EnterSlot(1), 0)
            && (forall a | a in s.acts :: a < 3 && (a < 2 ==> s.acts[a].pc.Done?))
            && 2 in s.acts && s.acts[2] == Activation(0, InCallback(e, 1, {}))
  {
    states', steps' := Extend(states, steps, Call(2, 0, PushCheck(e)));
    states', steps' := Extend(states', steps', Run(2, Only));
    states', steps' := Extend(states', steps', Run(2, Only));
    states', steps' := Extend(states', steps', Run(2, Only));
    states', steps' := Extend(states', steps', Run(2, Pick(1)));
    hide IsRun;
    assert {1} - {1} == {};
  }

  const RemovedListener := Table({}, map[1 := Slot(map[], 0, true)], 2)

  lemma Returns(states: seq<Sys>, steps: seq<Step>, e: Event) returns (states': seq<Sys>, steps': seq<Step>)
    requires IsRun(states, steps)
    requires var s := states[|steps|];
             && s.life == Lifecycle(Initialized, None, false) && s.lockedBy.None? && s.promises == NoPromises
             && s.table == OneListener.Do(EnterSlot(1), 0)
             && (forall a | a in s.acts :: a < 3 && (a < 2 ==> s.acts[a].pc.Done?))
             && 2 in s.acts && s.acts[2] == Activation(0, InCallback(e, 1, {}))
    ensures IsRun(states', steps') && steps <= steps' && states <= states'
    ensures AtRest(states'[|steps'|], Initialized, OneListener, 3) && 2 in states'[|steps'|].acts
  {
    states', steps' := Extend(states, steps, Run(2, Only));
    states', steps' := Extend(states', steps', Run(2, Only));
    assert states'[|steps'|].table.slots == OneListener.slots;
    hide IsRun;
  }

  lemma RemovesIt(states: seq<Sys>, steps: seq<Step>) returns (states': seq<Sys>, steps': seq<Step>)
    requires IsRun(states, steps) && AtRest(states[|steps|], Initialized, OneListener, 3)
    ensures IsRun(states', steps') && AtRest(states'[|steps'|], Initialized, RemovedListener, 4)
    ensures steps <= steps' && states <= states'
  {
    states', steps' := Extend(states, steps, Call(3, 0, RemoveLookup(1)));
    states', steps' := Extend(states', steps', Run(3, Only));
    states', steps' := Extend(states', steps', Run(3, Only));
    assert states'[|steps'|].table.slots == RemovedListener.slots;
    hide IsRun;
  }

  lemma ClaimsShutdown(states: seq<Sys>, steps: seq<Step>) returns (states': seq<Sys>, steps': seq<Step>)
    requires IsRun(states, steps) && AtRest(states[|steps|], Initialized, RemovedListener, 4)
    ensures IsRun(states', steps') && steps <= steps' && states <= states'
    ensures var s := states'[|steps'|];
            && s.life == Lifecycle(ShuttingDown, Some(4), false) && s.lockedBy == Some(4)
            && s.table == RemovedListener && s.promises == NoPromises
            && (forall a | a in s.acts :: a < 5 && (a < 4 ==> s.acts[a].pc.Done?))
            && 4 in s.acts && s.acts[4] == Activation(0, ShutdownMark({}))
  {
    states', steps' := Extend(states, steps, Call(4, 0, ShutdownClaim));
    states', steps' := Extend(states', steps', Run(4, Only));
    states', steps' := Extend(states', steps', Run(4, Only));
    hide IsRun;
  }

  lemma ShutsDown(states: seq<Sys>, steps: seq<Step>) returns (states': seq<Sys>, steps': seq<Step>)
    requires IsRun(states, steps) && AtRest(states[|steps|], Initialized, RemovedListener, 4)
    ensures IsRun(states', steps') && AtRest(states'[|steps'|], Uninitialized, RemovedListener, 5)
    ensures steps <= steps' && states <= states'
  {
    states', steps' := ClaimsShutdown(states, steps);
    states', steps' := Extend(states', steps', Run(4, Only));
    states', steps' := Extend(states', steps', Run(4, Only));
    states', steps' := Extend(states', steps', Run(4, Only));
    hide IsRun;
  }

  /**
   For every event there is a run in which the client is initialized, a listener is added and entered with the event,
   returns and is removed, and the client is shut down.
   */
  lemma EventIsDelivered(e: Event) returns (states: seq<Sys>, steps: seq<Step>, c: nat, k: nat)
    ensures IsRun(states, steps) && c < k < |states|
    ensures steps[c] == Call(2, 0, PushCheck(e))
    ensures Inside(states[k].acts, 1) == {2} && states[k].acts[2].pc.event == e
    ensures 1 in states[k].table.slots && !states[k].table.slots[1].removed
    ensures AtRest(states[|steps|], Uninitialized, RemovedListener, 5)
  {
    var start := Sys(Lifecycle(Uninitialized, None, false), None, NoListeners, NoPromises, map[]);
    states, steps := Initializes([start], []);
    states, steps := AddsOne(states, steps);
    c := |steps|;
    states, steps := PushesTo(states, steps, e);
    k := |steps|;
    var entered := states[k];
    assert Inside(entered.acts, 1) == {2};
    states, steps := Returns(states, steps, e);
    states, steps := RemovesIt(states, steps);
    states, steps := ShutsDown(states, steps);
    assert states[k] == entered;
    hide IsRun;
  }
}
