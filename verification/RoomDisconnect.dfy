/**
 A disconnect by the call or event that began it: what disconnect(), the server's event and the end of the stream each
 bring about, and what the room is when any of them is over.
 */
module RoomDisconnect {
  import opened Common
  import opened RoomShutdown

  // ---------------------------------------------------------------- how an activation began

  predicate Begins(step: Step, a: ActId) {
    step == CallShutdown(a) || (step.EventArrives? && step.a == a)
  }

  /** Where an activation can stand that began with `step`, and with which arguments. */
  predicate Belongs(step: Step, pc: Pc) {
    match step
    case CallShutdown(_) =>
      pc.NothingToDo? || ((pc.Entering? || pc.Cleaning? || pc.Returned?) && pc.mode == Mode(true, true))
    case EventArrives(_, ServerDisconnected) =>
      || pc.Notifying? || pc.Handled? || pc.Ignored?
      || ((pc.Arrived? || pc.Checking? || pc.Handling?) && pc.event.ServerDisconnected?)
    case EventArrives(_, EndOfStream) =>
      || pc.NothingToDo? || pc.Ignored?
      || ((pc.Arrived? || pc.Checking? || pc.Handling?) && pc.event.EndOfStream?)
      || ((pc.Entering? || pc.Cleaning? || pc.Returned?) && pc.mode == Mode(false, false))
    case _ => false
  }

  lemma MoveBelongs(s: Sys, a: ActId, callOk: bool, begin: Step)
    requires Enabled(s, Advance(a, callOk)) && Belongs(begin, s.acts[a])
    ensures a in Move(s, a, callOk).acts && Belongs(begin, Move(s, a, callOk).acts[a])
  {
    hide StillOk, Record, Emptied, Taken;
  }

  lemma OthersStay(s: Sys, step: Step, a: ActId)
    requires Enabled(s, step) && a in s.acts && step != Advance(a, true) && step != Advance(a, false)
    ensures a in Apply(s, step).acts && Apply(s, step).acts[a] == s.acts[a]
  {
  }

  lemma {:induction false} BelongsToBegin(states: seq<Sys>, steps: seq<Step>, r: Resources, k: nat, n: nat, a: ActId)
    requires IsRun(states, steps, r) && k < n <= |steps| && Begins(steps[k], a)
    ensures a in states[n].acts && Belongs(steps[k], states[n].acts[a])
    decreases n
  {
    hide Move, Belongs;
    assert Enabled(states[n - 1], steps[n - 1]);
    if n == k + 1 {
      BeginsThere(states[k], steps[k], a);
    } else {
      BelongsToBegin(states, steps, r, k, n - 1, a);
      if steps[n - 1] == Advance(a, true) || steps[n - 1] == Advance(a, false) {
        MoveBelongs(states[n - 1], a, steps[n - 1].callOk, steps[k]);
      } else {
        OthersStay(states[n - 1], steps[n - 1], a);
      }
    }
  }

  lemma BeginsThere(s: Sys, step: Step, a: ActId)
    requires Enabled(s, step) && Begins(step, a)
    ensures a in Apply(s, step).acts && Belongs(step, Apply(s, step).acts[a])
  {
  }

  // ---------------------------------------------------------------- the delegate

  /** The delegate set last. */
  function DelegateSet(steps: seq<Step>, initial: Option<Id>): Option<Id> {
    if steps == [] then initial
    else
      var last := steps[|steps| - 1];
      if last.SetDelegate? then last.delegate else DelegateSet(steps[..|steps| - 1], initial)
  }

  lemma {:induction false} DelegateIsHistory(states: seq<Sys>, steps: seq<Step>, r: Resources, n: nat)
    requires IsRun(states, steps, r) && n <= |steps|
    ensures states[n].fields.delegate == DelegateSet(steps[..n], states[0].fields.delegate)
    decreases n
  {
    if n > 0 {
      DelegateIsHistory(states, steps, r, n - 1);
      assert Enabled(states[n - 1], steps[n - 1]);
      assert steps[..n][..n - 1] == steps[..n - 1];
      if steps[n - 1].Advance? {
        MoveKeepsDelegate(states[n - 1], steps[n - 1].a, steps[n - 1].callOk);
      }
      hide Move;
    }
  }

  lemma MoveKeepsDelegate(s: Sys, a: ActId, callOk: bool)
    requires Enabled(s, Advance(a, callOk))
    ensures Move(s, a, callOk).fields.delegate == s.fields.delegate
  {
    hide Record, StillOk;
  }

  /** Activation `a` looks at the delegate: a shutdown as it takes the room's fields, an event as it arrives. */
  ghost predicate Looks(s: Sys, step: Step, a: ActId) {
    && step.Advance? && step.a == a && a in s.acts
    && (s.acts[a].Arrived? || (s.acts[a].Entering? && s.fields.HasRoomState()))
  }

  /** The delegate an activation keeps from its look. */
  function Snapshot(pc: Pc): Option<Option<Id>> {
    match pc
    case Cleaning(_, claim, _, _) => Some(claim.delegate)
    case Returned(_, claim, _) => Some(claim.delegate)
    case Checking(_, snapshot) => Some(snapshot)
    case Handling(_, snapshot) => Some(snapshot)
    case Notifying(snapshot) => Some(snapshot)
    case Handled(snapshot) => Some(snapshot)
    case _ => None
  }

  lemma MoveSnapshot(s: Sys, a: ActId, callOk: bool)
    requires Enabled(s, Advance(a, callOk)) && a in Move(s, a, callOk).acts
    ensures Snapshot(Move(s, a, callOk).acts[a]).Some? ==>
              Snapshot(Move(s, a, callOk).acts[a]) ==
              if Looks(s, Advance(a, callOk), a) then Some(s.fields.delegate) else Snapshot(s.acts[a])
  {
    hide Record, StillOk;
  }

  lemma NoSnapshotAtFirst(s: Sys, step: Step, a: ActId)
    requires Enabled(s, step) && a in Apply(s, step).acts && a !in s.acts
    ensures Snapshot(Apply(s, step).acts[a]).None?
  {
  }

  /** The delegate an activation notifies is the one that was set when it looked. */
  lemma {:induction false} LookedAt(states: seq<Sys>, steps: seq<Step>, r: Resources, n: nat, a: ActId) returns (m: nat)
    requires IsRun(states, steps, r) && n <= |steps| && a in states[n].acts && Snapshot(states[n].acts[a]).Some?
    ensures m < n && Looks(states[m], steps[m], a)
    ensures Snapshot(states[n].acts[a]) == Some(DelegateSet(steps[..m], states[0].fields.delegate))
    decreases n
  {
    hide Move, Snapshot, DelegateSet;
    var s, step := states[n - 1], steps[n - 1];
    assert Enabled(s, step);
    if step.Advance? && step.a == a {
      MoveSnapshot(s, a, step.callOk);
      if Looks(s, step, a) {
        m := n - 1;
        DelegateIsHistory(states, steps, r, m);
      } else {
        m := LookedAt(states, steps, r, n - 1, a);
      }
    } else if a in s.acts {
      OthersStay(s, step, a);
      m := LookedAt(states, steps, r, n - 1, a);
    } else {
      m := 0;
      NoSnapshotAtFirst(s, step, a);
      assert false;
    }
  }

  // ---------------------------------------------------------------- what each beginning brings about

  /**
   If a disconnect() made the room's transition, then once it is over onDisconnected has fired exactly if a delegate was
   set when it took the room's fields, and the FFI has been asked exactly if the handle was valid.
   */
  lemma DisconnectNotifiesIff(states: seq<Sys>, steps: seq<Step>, r: Resources, k: nat, n: nat, c: ActId)
    returns (m: nat)
    requires IsRun(states, steps, r) && k < n <= |steps| && steps[k] == CallShutdown(c)
    requires states[n].claimer == Some(c) && c in states[n].acts && IsOver(states[n].acts[c])
    ensures m < n && Looks(states[m], steps[m], c)
    ensures states[n].log.notified == if DelegateSet(steps[..m], states[0].fields.delegate).Some? then [c] else []
    ensures states[n].log.ffiDisconnects == if r.handle != 0 then [r.handle] else []
  {
    BelongsToBegin(states, steps, r, k, n, c);
    ReachableInv(states, steps, r, n);
    m := LookedAt(states, steps, r, n, c);
  }

  /** If the end of the stream made it, nobody is notified and the FFI is not asked. */
  lemma StreamEndIsSilent(states: seq<Sys>, steps: seq<Step>, r: Resources, k: nat, n: nat, c: ActId)
    requires IsRun(states, steps, r) && k < n <= |steps| && steps[k] == EventArrives(c, EndOfStream)
    requires states[n].claimer == Some(c) && c in states[n].acts && IsOver(states[n].acts[c])
    ensures states[n].log.notified == [] && states[n].log.ffiDisconnects == []
  {
    BelongsToBegin(states, steps, r, k, n, c);
    ReachableInv(states, steps, r, n);
  }

  /** If the server made it, onDisconnected has fired exactly if a delegate was set when it looked; no request. */
  lemma ServerNotifiesIff(states: seq<Sys>, steps: seq<Step>, r: Resources, k: nat, n: nat, c: ActId)
    returns (m: nat)
    requires IsRun(states, steps, r) && k < n <= |steps| && steps[k] == EventArrives(c, ServerDisconnected)
    requires states[n].claimer == Some(c) && c in states[n].acts && IsOver(states[n].acts[c])
    ensures m < n && Looks(states[m], steps[m], c)
    ensures states[n].log.notified == if DelegateSet(steps[..m], states[0].fields.delegate).Some? then [c] else []
    ensures states[n].log.ffiDisconnects == []
  {
    BelongsToBegin(states, steps, r, k, n, c);
    ReachableInv(states, steps, r, n);
    m := LookedAt(states, steps, r, n, c);
  }

  // ---------------------------------------------------------------- what the room is afterwards

  /** An activation that is over leaves the room disconnected; one that went through shutdown leaves it empty. */
  ghost predicate Ended(s: Sys) {
    && (forall a | a in s.acts && IsOver(s.acts[a]) :: s.fields.connection == Disconnected)
    && (forall a | a in s.acts && (s.acts[a].NothingToDo? || s.acts[a].Returned? || s.acts[a].Cleaning?) ::
          s.owner.Some?)
  }

  lemma MoveKeepsEnded(s: Sys, a: ActId, callOk: bool, r: Resources)
    requires Inv(s, r) && Ended(s) && Enabled(s, Advance(a, callOk))
    ensures Ended(Move(s, a, callOk))
  {
    hide Record, StillOk;
  }

  lemma {:induction false} EndedReached(states: seq<Sys>, steps: seq<Step>, r: Resources, n: nat)
    requires IsRun(states, steps, r) && n <= |steps|
    ensures Ended(states[n])
    decreases n
  {
    if n > 0 {
      EndedReached(states, steps, r, n - 1);
      ReachableInv(states, steps, r, n - 1);
      assert Enabled(states[n - 1], steps[n - 1]);
      hide Move, Inv;
      if steps[n - 1].Advance? {
        MoveKeepsEnded(states[n - 1], steps[n - 1].a, steps[n - 1].callOk, r);
      }
    }
  }

  /**
   Whatever else races with it: once a disconnect(), or any handled event, is over the room is disconnected; once a
   disconnect() is over the handle, the participant and the listener have left the room.
   */
  lemma AfterwardsDisconnected(states: seq<Sys>, steps: seq<Step>, r: Resources, k: nat, n: nat, a: ActId)
    requires IsRun(states, steps, r) && k < n <= |steps| && Begins(steps[k], a)
    requires a in states[n].acts && IsOver(states[n].acts[a])
    ensures states[n].fields.connection == Disconnected
    ensures steps[k].CallShutdown? ==>
              var f := states[n].fields; f.handle.None? && f.participant.None? && f.listener == 0
  {
    BelongsToBegin(states, steps, r, k, n, a);
    EndedReached(states, steps, r, n);
    OwnerReleasesEverything(states, steps, r, n);
    hide Move;
  }

  // ---------------------------------------------------------------- the result

  /** The step is a call of `a`'s cleanup that counts for its result, and it fails. */
  predicate FailsACall(s: Sys, step: Step, a: ActId) {
    && step == Advance(a, false) && a in s.acts && s.acts[a].Cleaning?
    && !s.acts[a].stage.ReleaseHandle? && !s.acts[a].stage.Notify?
    && Calls(s.acts[a].mode, s.acts[a].claim, s.acts[a].stage)
  }

  ghost predicate HasFailed(states: seq<Sys>, steps: seq<Step>, n: nat, a: ActId)
    requires n <= |steps| < |states|
  {
    exists m :: 0 <= m < n && FailsACall(states[m], steps[m], a)
  }

  /** What an activation of shutdown makes of its calls. */
  ghost predicate ResultSoFar(pc: Pc, failed: bool) {
    match pc
    case Cleaning(_, _, _, ok) => ok == !failed
    case Returned(_, claim, result) => result == (claim.claimed && !failed)
    case _ => !failed
  }

  lemma MoveResult(s: Sys, a: ActId, callOk: bool, failed: bool)
    requires Enabled(s, Advance(a, callOk)) && ResultSoFar(s.acts[a], failed)
    ensures a in Move(s, a, callOk).acts
    ensures ResultSoFar(Move(s, a, callOk).acts[a], failed || FailsACall(s, Advance(a, callOk), a))
  {
    hide Record;
  }

  lemma HasFailedNext(states: seq<Sys>, steps: seq<Step>, n: nat, a: ActId)
    requires n < |steps| < |states|
    ensures HasFailed(states, steps, n + 1, a) <==>
            HasFailed(states, steps, n, a) || FailsACall(states[n], steps[n], a)
  {
    if m :| 0 <= m < n && FailsACall(states[m], steps[m], a) {
      assert HasFailed(states, steps, n + 1, a);
    }
  }

  lemma {:induction false} ResultKept(states: seq<Sys>, steps: seq<Step>, r: Resources, n: nat, a: ActId)
    requires IsRun(states, steps, r) && n <= |steps|
    ensures if a in states[n].acts then ResultSoFar(states[n].acts[a], HasFailed(states, steps, n, a))
            else !HasFailed(states, steps, n, a)
    decreases n
  {
    if n > 0 {
      ResultKept(states, steps, r, n - 1, a);
      HasFailedNext(states, steps, n - 1, a);
      var s, step := states[n - 1], steps[n - 1];
      assert Enabled(s, step);
      hide Move, HasFailed;
      if step == Advance(a, true) || step == Advance(a, false) {
        MoveResult(s, a, step.callOk, HasFailed(states, steps, n - 1, a));
      } else if a in s.acts {
        OthersStay(s, step, a);
      } else {
        MovesNobodyElse(s, step, a);
      }
    }
  }

  lemma MovesNobodyElse(s: Sys, step: Step, a: ActId)
    requires Enabled(s, step) && a !in s.acts
    ensures a in Apply(s, step).acts ==> ResultSoFar(Apply(s, step).acts[a], false)
  {
    hide Record, StillOk;
  }

  /** A shutdown reports success exactly if the transition was its own and none of its calls failed. */
  lemma ResultIff(states: seq<Sys>, steps: seq<Step>, r: Resources, n: nat, a: ActId)
    requires IsRun(states, steps, r) && n <= |steps| && a in states[n].acts && states[n].acts[a].Returned?
    ensures ReturnsTrue(states[n].acts[a]) <==> states[n].claimer == Some(a) && !HasFailed(states, steps, n, a)
  {
    ResultKept(states, steps, r, n, a);
    ReachableInv(states, steps, r, n);
    hide HasFailed;
  }
}
