/**
 Who owns a room's disconnect (src/room.cpp): disconnect(), the destructor, the server's disconnected event and the
 end-of-stream event race after a successful connect. Each region under the room's lock, and each call made outside
 it, is one step; any number of activations interleave.
 */
module RoomShutdown {
  import opened Common

  type ActId = nat
  type Id = nat

  datatype ConnectionState = Disconnected | Connected | Reconnecting

  /** The fields of Room that shutdown moves out or overwrites. */
  datatype Fields = Fields(
    connection: ConnectionState,
    handle: Option<Id>,
    participant: Option<Id>,
    listener: Id,
    remotes: nat,
    delegate: Option<Id>)
  {
    predicate HasRoomState() {
      connection != Disconnected || listener != 0 || handle.Some? || participant.Some? || remotes != 0
    }
  }

  /** shutdown's arguments: disconnect() passes true for both, end of stream false for both. */
  datatype Mode = Mode(disconnectFfi: bool, notify: bool)

  datatype Claim = Claim(claimed: bool, handle: Option<Id>, participant: Option<Id>, listener: Id, delegate: Option<Id>)

  function Taken(f: Fields): Claim {
    Claim(f.connection != Disconnected, f.handle, f.participant, f.listener, f.delegate)
  }

  function Emptied(f: Fields): Fields { Fields(Disconnected, None, None, 0, 0, f.delegate) }

  /** shutdown's calls outside the lock, in order. */
  datatype Stage = ShutParticipant | DisconnectFfi | StopDispatcher | RemoveListener | ReleaseHandle | Notify

  datatype Event = ServerDisconnected | EndOfStream

  datatype Pc =
    | Entering(mode: Mode)
    | Cleaning(mode: Mode, claim: Claim, stage: Stage, ok: bool)
    | NothingToDo
    | Returned(mode: Mode, claim: Claim, result: bool)
    | Arrived(event: Event)
    | Checking(event: Event, snapshot: Option<Id>)
    | Handling(event: Event, snapshot: Option<Id>)
    | Notifying(snapshot: Option<Id>)
    | Ignored
    | Handled(snapshot: Option<Id>)

  /** What the outside world has seen. */
  datatype Log = Log(
    participantShutdowns: seq<Id>,
    ffiDisconnects: seq<Id>,
    listenerRemovals: seq<Id>,
    handleReleases: seq<Id>,
    notified: seq<ActId>)

  /** `owner` and `claimer` are history: who moved the resources out, and who made the state transition. */
  datatype Sys = Sys(fields: Fields, acts: map<ActId, Pc>, log: Log, owner: Option<ActId>, claimer: Option<ActId>)

  datatype Step =
    | CallShutdown(a: ActId)
    | EventArrives(a: ActId, event: Event)
    | Advance(a: ActId, callOk: bool)
    | SetDelegate(delegate: Option<Id>)
    | ChangeRemotes(remotes: nat)

  function NextStage(stage: Stage): Stage {
    match stage
    case ShutParticipant => DisconnectFfi
    case DisconnectFfi => StopDispatcher
    case StopDispatcher => RemoveListener
    case RemoveListener => ReleaseHandle
    case _ => Notify
  }

  /** Whether shutdown makes this stage's call. */
  predicate Calls(mode: Mode, claim: Claim, stage: Stage) {
    match stage
    case ShutParticipant => claim.participant.Some?
    case DisconnectFfi => mode.disconnectFfi && claim.claimed && claim.handle.Some? && claim.handle.value != 0
    case StopDispatcher => true
    case RemoveListener => claim.listener != 0
    case ReleaseHandle => claim.handle.Some?
    case Notify => mode.notify && claim.claimed && claim.delegate.Some?
  }

  function Record(log: Log, a: ActId, mode: Mode, claim: Claim, stage: Stage): Log {
    if !Calls(mode, claim, stage) then log
    else
      match stage
      case ShutParticipant => log.(participantShutdowns := log.participantShutdowns + [claim.participant.value])
      case DisconnectFfi => log.(ffiDisconnects := log.ffiDisconnects + [claim.handle.value])
      case StopDispatcher => log
      case RemoveListener => log.(listenerRemovals := log.listenerRemovals + [claim.listener])
      case ReleaseHandle => log.(handleReleases := log.handleReleases + [claim.handle.value])
      case Notify => log.(notified := log.notified + [a])
  }

  /** A failing call clears ok; destroying the handle and a delegate that throws do not. */
  function StillOk(mode: Mode, claim: Claim, stage: Stage, ok: bool, callOk: bool): bool {
    if stage.ReleaseHandle? || stage.Notify? || !Calls(mode, claim, stage) then ok else ok && callOk
  }

  predicate IsOver(pc: Pc) { pc.NothingToDo? || pc.Returned? || pc.Ignored? || pc.Handled? }

  predicate Enabled(s: Sys, step: Step) {
    match step
    case CallShutdown(a) => a !in s.acts
    case EventArrives(a, _) => a !in s.acts
    case Advance(a, _) => a in s.acts && !IsOver(s.acts[a])
    case _ => true
  }

  function Move(s: Sys, a: ActId, callOk: bool): Sys
    requires Enabled(s, Advance(a, callOk))
  {
    var f := s.fields;
    match s.acts[a]
    case Entering(mode) =>
      if !f.HasRoomState() then s.(acts := s.acts[a := NothingToDo])
      else
        s.(fields := Emptied(f),
           acts := s.acts[a := Cleaning(mode, Taken(f), ShutParticipant, true)],
           owner := if s.owner.None? then Some(a) else s.owner,
           claimer := if f.connection != Disconnected then Some(a) else s.claimer)
    case Cleaning(mode, claim, stage, ok) =>
      var ok' := StillOk(mode, claim, stage, ok, callOk);
      s.(log := Record(s.log, a, mode, claim, stage),
         acts := s.acts[a := if stage.Notify? then Returned(mode, claim, claim.claimed && ok')
                             else Cleaning(mode, claim, NextStage(stage), ok')])
    case Arrived(event) => s.(acts := s.acts[a := Checking(event, f.delegate)])
    case Checking(event, snapshot) =>
      s.(acts := s.acts[a := if f.handle.None? then Ignored else Handling(event, snapshot)])
    case Handling(ServerDisconnected, snapshot) =>
      if f.connection == Disconnected then s.(acts := s.acts[a := Ignored])
      else s.(fields := f.(connection := Disconnected), acts := s.acts[a := Notifying(snapshot)], claimer := Some(a))
    case Handling(EndOfStream, _) => s.(acts := s.acts[a := Entering(Mode(false, false))])
    case Notifying(snapshot) =>
      s.(log := if snapshot.Some? then s.log.(notified := s.log.notified + [a]) else s.log,
         acts := s.acts[a := Handled(snapshot)])
    case _ => s
  }

  function Apply(s: Sys, step: Step): Sys
    requires Enabled(s, step)
  {
    match step
    case CallShutdown(a) => s.(acts := s.acts[a := Entering(Mode(true, true))])
    case EventArrives(a, event) => s.(acts := s.acts[a := Arrived(event)])
    case Advance(a, callOk) => Move(s, a, callOk)
    case SetDelegate(delegate) => s.(fields := s.fields.(delegate := delegate))
    case ChangeRemotes(remotes) => s.(fields := s.fields.(remotes := remotes))
  }

  /** What a successful connect leaves: a handle, a local participant and a listener, all owned by the room. */
  datatype Resources = Resources(handle: Id, participant: Id, listener: Id)

  ghost predicate Init(s: Sys, r: Resources) {
    && r.listener != 0
    && s.fields.connection == Connected
    && s.fields.handle == Some(r.handle) && s.fields.participant == Some(r.participant)
    && s.fields.listener == r.listener
    && s.acts == map[] && s.log == Log([], [], [], [], []) && s.owner == None && s.claimer == None
  }

  ghost predicate IsRun(states: seq<Sys>, steps: seq<Step>, r: Resources) {
    && |states| == |steps| + 1
    && Init(states[0], r)
    && forall i | 0 <= i < |steps| :: Enabled(states[i], steps[i]) && states[i + 1] == Apply(states[i], steps[i])
  }

  // ---------------------------------------------------------------- the invariant

  function Rank(stage: Stage): nat {
    match stage
    case ShutParticipant => 0
    case DisconnectFfi => 1
    case StopDispatcher => 2
    case RemoveListener => 3
    case ReleaseHandle => 4
    case Notify => 5
  }

  /** How many stages an activation of shutdown has finished. */
  function Finished(pc: Pc): nat {
    match pc
    case Cleaning(_, _, stage, _) => Rank(stage)
    case Returned(_, _, _) => 6
    case _ => 0
  }

  predicate HoldsNothing(pc: Pc) {
    pc.Cleaning? || pc.Returned? ==> pc.claim.handle.None? && pc.claim.participant.None? && pc.claim.listener == 0
  }

  predicate HasClaimed(pc: Pc) {
    ((pc.Cleaning? || pc.Returned?) && pc.claim.claimed) || pc.Notifying? || pc.Handled?
  }

  predicate ReturnsTrue(pc: Pc) { pc.Returned? && pc.result }

  function Once(done: bool, id: Id): seq<Id> { if done then [id] else [] }

  /** The owner's resources: all still in the room, or all moved out by one shutdown and released stage by stage. */
  ghost predicate Owned(f: Fields, log: Log, owner: Option<ActId>, acts: map<ActId, Pc>, r: Resources) {
    match owner
    case None =>
      && f.handle == Some(r.handle) && f.participant == Some(r.participant) && f.listener == r.listener
      && r.listener != 0
      && log.participantShutdowns == [] && log.listenerRemovals == [] && log.handleReleases == []
    case Some(a) =>
      && f.handle == None && f.participant == None && f.listener == 0
      && a in acts && (acts[a].Cleaning? || acts[a].Returned?)
      && acts[a].claim.handle == Some(r.handle) && acts[a].claim.participant == Some(r.participant)
      && acts[a].claim.listener == r.listener != 0
      && log.participantShutdowns == Once(Finished(acts[a]) > 0, r.participant)
      && log.listenerRemovals == Once(Finished(acts[a]) > 3, r.listener)
      && log.handleReleases == Once(Finished(acts[a]) > 4, r.handle)
  }

  ghost predicate OthersHoldNothing(owner: Option<ActId>, acts: map<ActId, Pc>) {
    && (forall b | b in acts && Some(b) != owner :: HoldsNothing(acts[b]))
    && (owner.None? ==> forall b | b in acts :: !acts[b].Cleaning? && !acts[b].Returned?)
  }

  ghost predicate OnlyClaimerHasClaimed(claimer: Option<ActId>, acts: map<ActId, Pc>) {
    && (forall b | b in acts && HasClaimed(acts[b]) :: claimer == Some(b))
    && (claimer.Some? ==> claimer.value in acts && HasClaimed(acts[claimer.value]))
    && (forall b | b in acts && ReturnsTrue(acts[b]) :: acts[b].claim.claimed)
  }

  /** The state transition, the FFI request and the notification, as far as the claimer has come. */
  ghost predicate Claimed(s: Sys, r: Resources) {
    && (s.claimer.None? <==> s.fields.connection != Disconnected)
    && (s.claimer.None? ==> s.owner.None?)
    && match s.claimer
       case None => s.log.notified == [] && s.log.ffiDisconnects == []
       case Some(c) =>
         && c in s.acts
         && match s.acts[c]
            case Cleaning(mode, claim, stage, ok) =>
              && s.owner == Some(c)
              && s.log.notified == []
              && s.log.ffiDisconnects == Once(Rank(stage) > 1 && mode.disconnectFfi && r.handle != 0, r.handle)
            case Returned(mode, claim, _) =>
              && s.owner == Some(c)
              && s.log.notified == Once(mode.notify && claim.delegate.Some?, c)
              && s.log.ffiDisconnects == Once(mode.disconnectFfi && r.handle != 0, r.handle)
            case Notifying(_) => s.log.notified == [] && s.log.ffiDisconnects == []
            case Handled(snapshot) => s.log.notified == Once(snapshot.Some?, c) && s.log.ffiDisconnects == []
            case _ => false
  }

  ghost predicate Inv(s: Sys, r: Resources) {
    && Owned(s.fields, s.log, s.owner, s.acts, r)
    && OthersHoldNothing(s.owner, s.acts)
    && OnlyClaimerHasClaimed(s.claimer, s.acts)
    && Claimed(s, r)
  }

  lemma CleaningOwned(s: Sys, a: ActId, callOk: bool, r: Resources)
    requires Inv(s, r) && Enabled(s, Advance(a, callOk)) && s.acts[a].Cleaning?
    ensures var s' := Move(s, a, callOk); Owned(s'.fields, s'.log, s'.owner, s'.acts, r)
  {
    assert HoldsNothing(s.acts[a]) || s.owner == Some(a);
  }

  lemma OtherwiseOwned(s: Sys, a: ActId, callOk: bool, r: Resources)
    requires Inv(s, r) && Enabled(s, Advance(a, callOk)) && !s.acts[a].Cleaning?
    ensures var s' := Move(s, a, callOk); Owned(s'.fields, s'.log, s'.owner, s'.acts, r)
  {
  }

  lemma MoveOthers(s: Sys, a: ActId, callOk: bool, r: Resources)
    requires Inv(s, r) && Enabled(s, Advance(a, callOk))
    ensures var s' := Move(s, a, callOk); OthersHoldNothing(s'.owner, s'.acts)
  {
  }

  lemma MoveClaimer(s: Sys, a: ActId, callOk: bool, r: Resources)
    requires Inv(s, r) && Enabled(s, Advance(a, callOk))
    ensures var s' := Move(s, a, callOk); OnlyClaimerHasClaimed(s'.claimer, s'.acts)
  {
    hide Owned, OthersHoldNothing, Record, StillOk;
  }

  lemma CleaningClaimed(s: Sys, a: ActId, callOk: bool, r: Resources)
    requires Inv(s, r) && Enabled(s, Advance(a, callOk)) && s.acts[a].Cleaning?
    ensures Claimed(Move(s, a, callOk), r)
  {
    hide StillOk;
    assert HasClaimed(s.acts[a]) ==> s.claimer == Some(a);
  }

  lemma EnteringClaimed(s: Sys, a: ActId, callOk: bool, r: Resources)
    requires Inv(s, r) && Enabled(s, Advance(a, callOk)) && s.acts[a].Entering?
    ensures Claimed(Move(s, a, callOk), r)
  {
    assert !HasClaimed(s.acts[a]);
  }

  lemma LookingClaimed(s: Sys, a: ActId, callOk: bool, r: Resources)
    requires Inv(s, r) && Enabled(s, Advance(a, callOk)) && (s.acts[a].Arrived? || s.acts[a].Checking?)
    ensures Claimed(Move(s, a, callOk), r)
  {
    assert !HasClaimed(s.acts[a]);
  }

  lemma HandlingClaimed(s: Sys, a: ActId, callOk: bool, r: Resources)
    requires Inv(s, r) && Enabled(s, Advance(a, callOk)) && s.acts[a].Handling?
    ensures Claimed(Move(s, a, callOk), r)
  {
    assert !HasClaimed(s.acts[a]);
  }

  lemma NotifyingClaimed(s: Sys, a: ActId, callOk: bool, r: Resources)
    requires Inv(s, r) && Enabled(s, Advance(a, callOk)) && s.acts[a].Notifying?
    ensures Claimed(Move(s, a, callOk), r)
  {
    assert HasClaimed(s.acts[a]);
  }

  lemma MoveClaimed(s: Sys, a: ActId, callOk: bool, r: Resources)
    requires Inv(s, r) && Enabled(s, Advance(a, callOk))
    ensures Claimed(Move(s, a, callOk), r)
  {
    hide Inv, Move, Claimed;
    var pc := s.acts[a];
    if pc.Cleaning? {
      CleaningClaimed(s, a, callOk, r);
    } else if pc.Entering? {
      EnteringClaimed(s, a, callOk, r);
    } else if pc.Handling? {
      HandlingClaimed(s, a, callOk, r);
    } else if pc.Notifying? {
      NotifyingClaimed(s, a, callOk, r);
    } else {
      LookingClaimed(s, a, callOk, r);
    }
  }

  lemma MoveOwned(s: Sys, a: ActId, callOk: bool, r: Resources)
    requires Inv(s, r) && Enabled(s, Advance(a, callOk))
    ensures var s' := Move(s, a, callOk); Owned(s'.fields, s'.log, s'.owner, s'.acts, r)
  {
    if s.acts[a].Cleaning? {
      CleaningOwned(s, a, callOk, r);
    } else {
      OtherwiseOwned(s, a, callOk, r);
    }
  }

  lemma StepKeepsInv(s: Sys, step: Step, r: Resources)
    requires Inv(s, r) && Enabled(s, step)
    ensures Inv(Apply(s, step), r)
  {
    if step.Advance? {
      hide Move, Owned, OthersHoldNothing, OnlyClaimerHasClaimed, Claimed;
      MoveOwned(s, step.a, step.callOk, r);
      MoveOthers(s, step.a, step.callOk, r);
      MoveClaimer(s, step.a, step.callOk, r);
      MoveClaimed(s, step.a, step.callOk, r);
    } else {
      QuietStepKeepsInv(s, step, r);
    }
  }

  lemma QuietStepKeepsInv(s: Sys, step: Step, r: Resources)
    requires Inv(s, r) && Enabled(s, step) && !step.Advance?
    ensures Inv(Apply(s, step), r)
  {
  }

  lemma {:induction false} ReachableInv(states: seq<Sys>, steps: seq<Step>, r: Resources, n: nat)
    requires IsRun(states, steps, r) && n <= |steps|
    ensures Inv(states[n], r)
    decreases n
  {
    if n > 0 {
      ReachableInv(states, steps, r, n - 1);
      assert Enabled(states[n - 1], steps[n - 1]);
      StepKeepsInv(states[n - 1], steps[n - 1], r);
    }
  }

  // ---------------------------------------------------------------- what every interleaving keeps

  ghost predicate AtMostOnce(log: seq<Id>, id: Id) { log == [] || log == [id] }

  /**
   In every state of every run: at most one onDisconnected, at most one FFI disconnect request, and the participant,
   the listener and the handle are each released at most once; all of these are the resources connect installed.
   */
  lemma OneOwnerPerDisconnect(states: seq<Sys>, steps: seq<Step>, r: Resources, n: nat)
    requires IsRun(states, steps, r) && n <= |steps|
    ensures var log := states[n].log;
            && |log.notified| <= 1
            && AtMostOnce(log.ffiDisconnects, r.handle)
            && AtMostOnce(log.participantShutdowns, r.participant)
            && AtMostOnce(log.listenerRemovals, r.listener)
            && AtMostOnce(log.handleReleases, r.handle)
  {
    ReachableInv(states, steps, r, n);
  }

  /** The room's resources are gone exactly when some shutdown took them, and that one alone releases them all. */
  lemma OwnerReleasesEverything(states: seq<Sys>, steps: seq<Step>, r: Resources, n: nat)
    requires IsRun(states, steps, r) && n <= |steps|
    ensures var s := states[n];
            && (s.owner.None? <==> s.fields.handle.Some?) && (s.owner.None? <==> s.fields.participant.Some?)
            && (s.owner.None? <==> s.fields.listener != 0)
            && (s.owner.Some? && s.owner.value in s.acts && s.acts[s.owner.value].Returned? ==>
                  && s.log.participantShutdowns == [r.participant]
                  && s.log.listenerRemovals == [r.listener]
                  && s.log.handleReleases == [r.handle])
            && forall b | b in s.acts && Some(b) != s.owner :: HoldsNothing(s.acts[b])
  {
    ReachableInv(states, steps, r, n);
  }

  /**
   Once whoever made the state transition is over: onDisconnected has fired exactly if that was a shutdown asked to
   notify, or the server's event, and a delegate was set when it looked; the FFI request has been made exactly if it
   was a shutdown asked to make it and the handle was valid.
   */
  lemma ClaimerNotifiesIff(states: seq<Sys>, steps: seq<Step>, r: Resources, n: nat, c: ActId)
    requires IsRun(states, steps, r) && n <= |steps|
    requires states[n].claimer == Some(c) && c in states[n].acts && IsOver(states[n].acts[c])
    ensures var s := states[n];
            match s.acts[c]
            case Returned(mode, claim, _) =>
              && (s.log.notified == [c] <==> mode.notify && claim.delegate.Some?)
              && (s.log.ffiDisconnects == [r.handle] <==> mode.disconnectFfi && r.handle != 0)
            case Handled(snapshot) =>
              && (s.log.notified == [c] <==> snapshot.Some?)
              && s.log.ffiDisconnects == []
            case _ => false
    ensures states[n].log.notified == [] || states[n].log.notified == [c]
  {
    ReachableInv(states, steps, r, n);
  }

  /** At most one shutdown ever reports success; it is the one that moved out and released everything. */
  lemma OneSuccess(states: seq<Sys>, steps: seq<Step>, r: Resources, n: nat, a: ActId)
    requires IsRun(states, steps, r) && n <= |steps|
    requires a in states[n].acts && ReturnsTrue(states[n].acts[a])
    ensures forall b | b in states[n].acts && ReturnsTrue(states[n].acts[b]) :: b == a
    ensures states[n].owner == Some(a) && states[n].claimer == Some(a)
    ensures states[n].acts[a].mode == Mode(true, true) && r.handle != 0 ==> states[n].log.ffiDisconnects == [r.handle]
    ensures var s, claim := states[n], states[n].acts[a].claim;
            && s.log.participantShutdowns == [r.participant]
            && s.log.listenerRemovals == [r.listener]
            && s.log.handleReleases == [r.handle]
            && s.log.notified == if s.acts[a].mode.notify && claim.delegate.Some? then [a] else []
  {
    ReachableInv(states, steps, r, n);
    assert HasClaimed(states[n].acts[a]);
    forall b | b in states[n].acts && ReturnsTrue(states[n].acts[b])
      ensures b == a
    {
      assert HasClaimed(states[n].acts[b]);
    }
  }

  /** Once disconnected the room stays so, and no later activation becomes the claimer. */
  lemma ClaimIsFinal(s: Sys, step: Step, r: Resources)
    requires Inv(s, r) && Enabled(s, step) && s.claimer.Some?
    ensures Apply(s, step).claimer == s.claimer && Apply(s, step).fields.connection == Disconnected
  {
  }
}

/** Room's fields and the calls it makes, as mutable objects tied to the steps of RoomShutdown. */
module RoomObject {
  import opened Common
  import opened RoomShutdown

  // ---------------------------------------------------------------- shutdown without interference

  /** The stages of activation `a` from where it stands to its end; `oks` says which calls succeed. */
  ghost function CleanedUp(s: Sys, a: ActId, oks: Stage -> bool): (end: Sys)
    requires a in s.acts && s.acts[a].Cleaning?
    ensures a in end.acts && end.acts[a].Returned?
    decreases 6 - Finished(s.acts[a])
  {
    var next := Move(s, a, oks(s.acts[a].stage));
    if next.acts[a].Cleaning? then CleanedUp(next, a, oks) else next
  }

  ghost function ShutDown(s: Sys, a: ActId, oks: Stage -> bool): (end: Sys)
    requires a in s.acts && s.acts[a].Entering?
    ensures a in end.acts
  {
    var entered := Move(s, a, true);
    if entered.acts[a].Cleaning? then CleanedUp(entered, a, oks) else entered
  }

  /** One stage: its call recorded, and the next stage or the return. */
  lemma StageIs(s: Sys, a: ActId, callOk: bool)
    requires a in s.acts && s.acts[a].Cleaning?
    ensures var pc, s' := s.acts[a], Move(s, a, callOk);
            var ok := StillOk(pc.mode, pc.claim, pc.stage, pc.ok, callOk);
            && s'.fields == s.fields && s'.log == Record(s.log, a, pc.mode, pc.claim, pc.stage)
            && a in s'.acts
            && s'.acts[a] == if pc.stage.Notify? then Returned(pc.mode, pc.claim, pc.claim.claimed && ok)
                             else Cleaning(pc.mode, pc.claim, NextStage(pc.stage), ok)
  {
  }

  function Sends(mode: Mode, claim: Claim, stage: Stage, id: Id): seq<Id> {
    if Calls(mode, claim, stage) then [id] else []
  }

  function Value(o: Option<Id>): Id { if o.Some? then o.value else 0 }

  predicate AllOk(mode: Mode, claim: Claim, oks: Stage -> bool) {
    && (Calls(mode, claim, ShutParticipant) ==> oks(ShutParticipant))
    && (Calls(mode, claim, DisconnectFfi) ==> oks(DisconnectFfi))
    && oks(StopDispatcher)
    && (Calls(mode, claim, RemoveListener) ==> oks(RemoveListener))
  }

  /** Every stage's record, one after the other. */
  function Recorded(log: Log, a: ActId, mode: Mode, claim: Claim): Log {
    var l1 := Record(log, a, mode, claim, ShutParticipant);
    var l2 := Record(l1, a, mode, claim, DisconnectFfi);
    var l3 := Record(l2, a, mode, claim, StopDispatcher);
    var l4 := Record(l3, a, mode, claim, RemoveListener);
    var l5 := Record(l4, a, mode, claim, ReleaseHandle);
    Record(l5, a, mode, claim, Notify)
  }

  lemma RecordedIs(log: Log, a: ActId, mode: Mode, claim: Claim)
    ensures var end := Recorded(log, a, mode, claim);
            && end.participantShutdowns ==
               log.participantShutdowns + Sends(mode, claim, ShutParticipant, Value(claim.participant))
            && end.ffiDisconnects == log.ffiDisconnects + Sends(mode, claim, DisconnectFfi, Value(claim.handle))
            && end.listenerRemovals == log.listenerRemovals + Sends(mode, claim, RemoveListener, claim.listener)
            && end.handleReleases == log.handleReleases + Sends(mode, claim, ReleaseHandle, Value(claim.handle))
            && end.notified == log.notified + Sends(mode, claim, Notify, a)
  {
  }

  function OkAfter(mode: Mode, claim: Claim, oks: Stage -> bool): bool {
    var o1 := StillOk(mode, claim, ShutParticipant, true, oks(ShutParticipant));
    var o2 := StillOk(mode, claim, DisconnectFfi, o1, oks(DisconnectFfi));
    var o3 := StillOk(mode, claim, StopDispatcher, o2, oks(StopDispatcher));
    var o4 := StillOk(mode, claim, RemoveListener, o3, oks(RemoveListener));
    var o5 := StillOk(mode, claim, ReleaseHandle, o4, oks(ReleaseHandle));
    StillOk(mode, claim, Notify, o5, oks(Notify))
  }

  lemma OkAfterIs(mode: Mode, claim: Claim, oks: Stage -> bool)
    ensures OkAfter(mode, claim, oks) == AllOk(mode, claim, oks)
  {
  }

  lemma StagesInOrder(s: Sys, a: ActId, oks: Stage -> bool)
    requires a in s.acts && s.acts[a].Cleaning? && s.acts[a].stage == ShutParticipant && s.acts[a].ok
    ensures var mode, claim, end := s.acts[a].mode, s.acts[a].claim, CleanedUp(s, a, oks);
            && end.fields == s.fields && end.log == Recorded(s.log, a, mode, claim)
            && end.acts[a] == Returned(mode, claim, claim.claimed && OkAfter(mode, claim, oks))
  {
    hide *;
    var mode, claim := s.acts[a].mode, s.acts[a].claim;
    var s1 := StageThen(s, a, oks);
    var s2 := StageThen(s1, a, oks);
    var s3 := StageThen(s2, a, oks);
    var s4 := StageThen(s3, a, oks);
    var s5 := StageThen(s4, a, oks);
    LastStage(s5, a, oks);
    RecordedUnfold(s.log, a, mode, claim, s1.log, s2.log, s3.log, s4.log, s5.log);
    OkUnfold(mode, claim, oks, s1.acts[a].ok, s2.acts[a].ok, s3.acts[a].ok, s4.acts[a].ok, s5.acts[a].ok);
  }

  lemma RecordedUnfold(log: Log, a: ActId, mode: Mode, claim: Claim, l1: Log, l2: Log, l3: Log, l4: Log, l5: Log)
    requires l1 == Record(log, a, mode, claim, ShutParticipant) && l2 == Record(l1, a, mode, claim, DisconnectFfi)
    requires l3 == Record(l2, a, mode, claim, StopDispatcher) && l4 == Record(l3, a, mode, claim, RemoveListener)
    requires l5 == Record(l4, a, mode, claim, ReleaseHandle)
    ensures Recorded(log, a, mode, claim) == Record(l5, a, mode, claim, Notify)
  {
    hide Record;
  }

  lemma OkUnfold(mode: Mode, claim: Claim, oks: Stage -> bool, o1: bool, o2: bool, o3: bool, o4: bool, o5: bool)
    requires o1 == StillOk(mode, claim, ShutParticipant, true, oks(ShutParticipant))
    requires o2 == StillOk(mode, claim, DisconnectFfi, o1, oks(DisconnectFfi))
    requires o3 == StillOk(mode, claim, StopDispatcher, o2, oks(StopDispatcher))
    requires o4 == StillOk(mode, claim, RemoveListener, o3, oks(RemoveListener))
    requires o5 == StillOk(mode, claim, ReleaseHandle, o4, oks(ReleaseHandle))
    ensures OkAfter(mode, claim, oks) == StillOk(mode, claim, Notify, o5, oks(Notify))
  {
    hide StillOk;
  }

  /** One stage that is not the last. */
  lemma StageThen(s: Sys, a: ActId, oks: Stage -> bool) returns (s': Sys)
    requires a in s.acts && s.acts[a].Cleaning? && !s.acts[a].stage.Notify?
    ensures s'.fields == s.fields && a in s'.acts
    ensures var pc := s.acts[a];
            && s'.log == Record(s.log, a, pc.mode, pc.claim, pc.stage)
            && s'.acts[a].Cleaning? && s'.acts[a].mode == pc.mode && s'.acts[a].claim == pc.claim
            && s'.acts[a].stage == (match pc.stage
                                    case ShutParticipant => DisconnectFfi
                                    case DisconnectFfi => StopDispatcher
                                    case StopDispatcher => RemoveListener
                                    case RemoveListener => ReleaseHandle
                                    case _ => Notify)
            && s'.acts[a].ok == StillOk(pc.mode, pc.claim, pc.stage, pc.ok, oks(pc.stage))
    ensures CleanedUp(s', a, oks) == CleanedUp(s, a, oks)
  {
    s' := Move(s, a, oks(s.acts[a].stage));
    StageIs(s, a, oks(s.acts[a].stage));
    hide Move, Record, StillOk;
  }

  lemma LastStage(s: Sys, a: ActId, oks: Stage -> bool)
    requires a in s.acts && s.acts[a].Cleaning? && s.acts[a].stage.Notify?
    ensures var pc, end := s.acts[a], CleanedUp(s, a, oks);
            && end.fields == s.fields && end.log == Record(s.log, a, pc.mode, pc.claim, Notify)
            && end.acts[a] ==
               Returned(pc.mode, pc.claim, pc.claim.claimed && StillOk(pc.mode, pc.claim, Notify, pc.ok, oks(Notify)))
  {
    StageIs(s, a, oks(Notify));
    hide Move, Record, StillOk;
  }

  /**
   Whatever fails on the way: each resource the shutdown took is released once, the request and the notification go
   out if they are due, and it returns true exactly if the transition was its own and none of its calls failed.
   */
  lemma CleanUpDoesEverything(s: Sys, a: ActId, oks: Stage -> bool)
    requires a in s.acts && s.acts[a].Cleaning? && s.acts[a].stage == ShutParticipant && s.acts[a].ok
    ensures var mode, claim, end := s.acts[a].mode, s.acts[a].claim, CleanedUp(s, a, oks);
            && end.fields == s.fields
            && end.acts[a] == Returned(mode, claim, claim.claimed && AllOk(mode, claim, oks))
            && end.log.participantShutdowns ==
               s.log.participantShutdowns + Sends(mode, claim, ShutParticipant, Value(claim.participant))
            && end.log.ffiDisconnects == s.log.ffiDisconnects + Sends(mode, claim, DisconnectFfi, Value(claim.handle))
            && end.log.listenerRemovals == s.log.listenerRemovals + Sends(mode, claim, RemoveListener, claim.listener)
            && end.log.handleReleases == s.log.handleReleases + Sends(mode, claim, ReleaseHandle, Value(claim.handle))
            && end.log.notified == s.log.notified + Sends(mode, claim, Notify, a)
  {
    StagesInOrder(s, a, oks);
    RecordedIs(s.log, a, s.acts[a].mode, s.acts[a].claim);
    OkAfterIs(s.acts[a].mode, s.acts[a].claim, oks);
    hide CleanedUp, Recorded, OkAfter, AllOk, Sends;
  }

  /** The request and the notification of a whole shutdown. */
  lemma ShutDownCalls(s: Sys, a: ActId, oks: Stage -> bool)
    requires a in s.acts && s.acts[a].Entering?
    ensures var end, mode, f := ShutDown(s, a, oks), s.acts[a].mode, s.fields;
            && end.log.notified == s.log.notified +
                 (if mode.notify && f.connection != Disconnected && f.delegate.Some? then [a] else [])
            && end.log.ffiDisconnects == s.log.ffiDisconnects +
                 (if mode.disconnectFfi && f.connection != Disconnected && f.handle.Some? && f.handle.value != 0
                  then [f.handle.value] else [])
  {
    var entered := Move(s, a, true);
    if entered.acts[a].Cleaning? {
      CleanUpDoesEverything(entered, a, oks);
      hide CleanedUp;
    } else {
      assert s.log.notified + [] == s.log.notified && s.log.ffiDisconnects + [] == s.log.ffiDisconnects;
    }
  }

  // ---------------------------------------------------------------- the objects

  /** The FFI client, the local participant and the delegate as the room sees them; `oks` says which calls succeed. */
  class World {
    const oks: Stage -> bool
    var participantShutdowns: seq<Id>
    var ffiDisconnects: seq<Id>
    var listenerRemovals: seq<Id>
    var handleReleases: seq<Id>
    var notified: seq<ActId>

    function View(): Log
      reads this
    {
      Log(participantShutdowns, ffiDisconnects, listenerRemovals, handleReleases, notified)
    }

    constructor (oks: Stage -> bool)
      ensures this.oks == oks && View() == Log([], [], [], [], [])
    {
      this.oks := oks;
      participantShutdowns, ffiDisconnects, listenerRemovals, handleReleases, notified := [], [], [], [], [];
    }

    // The blocks of shutdown after its locked region, one method each; `ok` is shutdown_ok.

    method ShutdownParticipant(a: ActId, mode: Mode, claim: Claim, ok: bool) returns (ok': bool)
      modifies this`participantShutdowns
      ensures View() == Record(old(View()), a, mode, claim, ShutParticipant)
      ensures ok' == StillOk(mode, claim, ShutParticipant, ok, oks(ShutParticipant))
    {
      ok' := ok;
      if claim.participant.Some? {
        participantShutdowns := participantShutdowns + [claim.participant.value];
        ok' := ok && oks(ShutParticipant);
      }
    }

    method RequestDisconnect(a: ActId, mode: Mode, claim: Claim, ok: bool) returns (ok': bool)
      modifies this`ffiDisconnects
      ensures View() == Record(old(View()), a, mode, claim, DisconnectFfi)
      ensures ok' == StillOk(mode, claim, DisconnectFfi, ok, oks(DisconnectFfi))
    {
      ok' := ok;
      if mode.disconnectFfi && claim.claimed && claim.handle.Some? && claim.handle.value != 0 {
        ffiDisconnects := ffiDisconnects + [claim.handle.value];
        ok' := ok && oks(DisconnectFfi);
      }
    }

    method StopSubscriptions(a: ActId, mode: Mode, claim: Claim, ok: bool) returns (ok': bool)
      ensures View() == Record(View(), a, mode, claim, StopDispatcher)
      ensures ok' == StillOk(mode, claim, StopDispatcher, ok, oks(StopDispatcher))
    {
      ok' := ok && oks(StopDispatcher);
    }

    method DropListener(a: ActId, mode: Mode, claim: Claim, ok: bool) returns (ok': bool)
      modifies this`listenerRemovals
      ensures View() == Record(old(View()), a, mode, claim, RemoveListener)
      ensures ok' == StillOk(mode, claim, RemoveListener, ok, oks(RemoveListener))
    {
      ok' := ok;
      if claim.listener != 0 {
        listenerRemovals := listenerRemovals + [claim.listener];
        ok' := ok && oks(RemoveListener);
      }
    }

    method Release(a: ActId, mode: Mode, claim: Claim)
      modifies this`handleReleases
      ensures View() == Record(old(View()), a, mode, claim, ReleaseHandle)
    {
      if claim.handle.Some? {
        handleReleases := handleReleases + [claim.handle.value];
      }
    }

    method NotifyDelegate(a: ActId, mode: Mode, claim: Claim)
      modifies this`notified
      ensures View() == Record(old(View()), a, mode, claim, Notify)
    {
      if mode.notify && claim.claimed && claim.delegate.Some? {
        OnDisconnected(a);
      }
    }

    /** `a` is the activation that calls the delegate. */
    method OnDisconnected(a: ActId)
      modifies this`notified
      ensures notified == old(notified) + [a]
    {
      notified := notified + [a];
    }

    /** shutdown after its locked region, with the claim it took there. */
    method CleanUp(ghost s: Sys, a: ActId, mode: Mode, claim: Claim) returns (r: bool)
      requires a in s.acts && s.acts[a] == Cleaning(mode, claim, ShutParticipant, true) && View() == s.log
      modifies this
      ensures View() == CleanedUp(s, a, oks).log && CleanedUp(s, a, oks).fields == s.fields
      ensures CleanedUp(s, a, oks).acts[a] == Returned(mode, claim, r)
    {
      StagesInOrder(s, a, oks);
      hide CleanedUp, Record, StillOk;
      var ok := ShutdownParticipant(a, mode, claim, true);
      ok := RequestDisconnect(a, mode, claim, ok);
      ok := StopSubscriptions(a, mode, claim, ok);
      ok := DropListener(a, mode, claim, ok);
      ReleaseAndNotifyKeepOk(mode, claim, ok);
      Release(a, mode, claim);
      NotifyDelegate(a, mode, claim);
      r := claim.claimed && ok;
    }

    lemma ReleaseAndNotifyKeepOk(mode: Mode, claim: Claim, ok: bool)
      ensures forall callOk, callOk' ::
                StillOk(mode, claim, Notify, StillOk(mode, claim, ReleaseHandle, ok, callOk), callOk') == ok
    {
    }
  }

  class Room {
    var connection: ConnectionState
    var handle: Option<Id>
    var participant: Option<Id>
    var listener: Id
    var remotes: nat
    var delegate: Option<Id>

    function View(): Fields
      reads this
    {
      Fields(connection, handle, participant, listener, remotes, delegate)
    }

    constructor ()
      ensures View() == Fields(Disconnected, None, None, 0, 0, None)
    {
      connection, handle, participant, listener, remotes, delegate := Disconnected, None, None, 0, 0, None;
    }

    /** shutdown's locked region; None when there was nothing to claim. */
    method TakeRoomState(ghost s: Sys, a: ActId) returns (claim: Option<Claim>)
      requires View() == s.fields && a in s.acts && s.acts[a].Entering?
      modifies this
      ensures View() == Move(s, a, true).fields
      ensures Move(s, a, true).acts[a] == match claim
                                          case None => NothingToDo
                                          case Some(c) => Cleaning(s.acts[a].mode, c, ShutParticipant, true)
    {
      var hasRoomState :=
        connection != Disconnected || listener != 0 || handle.Some? || participant.Some? || remotes != 0;
      if !hasRoomState {
        return None;
      }
      claim := Some(Claim(connection != Disconnected, handle, participant, listener, delegate));
      handle, participant, remotes := None, None, 0;
      listener := 0;
      connection := Disconnected;
    }

    /** shutdown run without interference. */
    method Shutdown(ghost s: Sys, a: ActId, mode: Mode, world: World) returns (r: bool)
      requires View() == s.fields && world.View() == s.log && a in s.acts && s.acts[a] == Entering(mode)
      modifies this, world
      ensures var end := ShutDown(s, a, world.oks);
              && View() == end.fields && world.View() == end.log
              && (r <==> a in end.acts && ReturnsTrue(end.acts[a]))
    {
      ghost var entered := Move(s, a, true);
      assert entered.log == s.log;
      var taken := TakeRoomState(s, a);
      if taken.None? {
        return false;
      }
      hide Move, CleanedUp;
      r := world.CleanUp(entered, a, mode, taken.value);
    }

    /** disconnect() run without interference: it asks the FFI and notifies. */
    method Disconnect(ghost s: Sys, a: ActId, world: World) returns (r: bool)
      requires View() == s.fields && world.View() == s.log && Enabled(s, CallShutdown(a))
      modifies this, world
      ensures var end := ShutDown(Apply(s, CallShutdown(a)), a, world.oks);
              && View() == end.fields && world.View() == end.log
              && (r <==> a in end.acts && ReturnsTrue(end.acts[a]))
      ensures old(connection) != Disconnected ==>
                && world.notified == old(world.notified) + (if old(delegate).Some? then [a] else [])
                && world.ffiDisconnects == old(world.ffiDisconnects) +
                     (if old(handle).Some? && old(handle).value != 0 then [old(handle).value] else [])
    {
      ghost var called := Apply(s, CallShutdown(a));
      ShutDownCalls(called, a, world.oks);
      hide ShutDown;
      r := Shutdown(called, a, Mode(true, true), world);
    }

    /** The kEos case of onEvent: the same cleanup without request and notification. */
    method EndOfStreamReceived(ghost s: Sys, a: ActId, ghost snapshot: Option<Id>, world: World) returns (r: bool)
      requires View() == s.fields && world.View() == s.log
      requires a in s.acts && s.acts[a] == Handling(EndOfStream, snapshot)
      modifies this, world
      ensures var end := ShutDown(Move(s, a, true), a, world.oks);
              && View() == end.fields && world.View() == end.log
              && (r <==> a in end.acts && ReturnsTrue(end.acts[a]))
      ensures world.notified == old(world.notified) && world.ffiDisconnects == old(world.ffiDisconnects)
    {
      ghost var called := Move(s, a, true);
      ShutDownCalls(called, a, world.oks);
      hide ShutDown;
      assert s.log.notified + [] == s.log.notified && s.log.ffiDisconnects + [] == s.log.ffiDisconnects;
      r := Shutdown(called, a, Mode(false, false), world);
    }

    /** The kDisconnected case of onEvent; `snapshot` is the delegate read when the event arrived. */
    method ServerDisconnectedReceived(ghost s: Sys, a: ActId, snapshot: Option<Id>, world: World)
      requires View() == s.fields && world.View() == s.log
      requires a in s.acts && s.acts[a] == Handling(ServerDisconnected, snapshot)
      modifies this`connection, world`notified
      ensures var handled := Move(s, a, true);
              var end := if handled.acts[a].Notifying? then Move(handled, a, true) else handled;
              View() == end.fields && world.View() == end.log
    {
      var shouldNotify := connection != Disconnected;
      connection := Disconnected;
      if shouldNotify && snapshot.Some? {
        world.OnDisconnected(a);
      }
    }
  }
}
