/**
 Safety of the FfiClient protocol over every run: listener quiescence, promise conservation, and no future left
 behind by shutdown.
 */
module FfiClientSafety {
  import opened Common
  import opened FfiClientSystem

  type Acts = map<ActId, Activation>

  // ---------------------------------------------------------------- the inductive invariant

  ghost function Inside(acts: Acts, l: ListenerId): set<ActId> {
    set a | a in acts && acts[a].pc.InsideOf() == Some(l)
  }

  ghost function InsideBy(acts: Acts, l: ListenerId, t: ThreadId): set<ActId> {
    set a | a in acts && acts[a].pc.InsideOf() == Some(l) && acts[a].thread == t
  }

  /** The slot's counters are the true numbers of activations inside its callback. */
  ghost predicate SlotCounts(acts: Acts, l: ListenerId, slot: Slot) {
    && slot.activeCallbacks == |Inside(acts, l)|
    && (forall t :: slot.SelfActive(t) == |InsideBy(acts, l, t)|)
    && (forall t | t in slot.activeThreads :: slot.activeThreads[t] > 0)
  }

  ghost predicate CountsInv(table: Table, acts: Acts) {
    forall l | l in table.slots :: SlotCounts(acts, l, table.slots[l])
  }

  /** Every slot reference, in the table or in a local variable, is to a slot that exists. */
  ghost predicate RefsInv(table: Table, acts: Acts) {
    && table.listed <= table.slots.Keys
    && (forall l | l in table.slots :: l < table.nextId)
    && (forall a | a in acts :: acts[a].pc.SlotRefs() <= table.slots.Keys)
  }

  ghost predicate LockInv(lockedBy: Option<ActId>, acts: Acts) {
    && (forall a | a in acts :: acts[a].pc.HoldsLock() <==> lockedBy == Some(a))
    && (lockedBy.Some? ==> lockedBy.value in acts)
  }

  /** At most one activation is between a lifecycle compare-and-swap and the store that ends the transition. */
  ghost predicate OwnerInv(life: Lifecycle, acts: Acts) {
    && (forall a | a in acts :: acts[a].pc.OwnsLifecycle() <==> life.owner == Some(a))
    && match life.owner
       case None => !life.drained && (life.state.Uninitialized? || life.state.Initialized?)
       case Some(a) =>
         && a in acts
         && life.state == (if acts[a].pc.InitCall? then Initializing else ShuttingDown)
         && (life.drained <==> acts[a].pc.PastDrain())
  }

  /** Shutdown empties the listener map for good, and every slot it claimed is marked removed. */
  ghost predicate DrainInv(life: Lifecycle, table: Table, acts: Acts) {
    && (life.drained ==> table.listed == {} && forall a | a in acts :: !acts[a].pc.AddCommit?)
    && (forall a, l | a in acts && acts[a].pc.ShutdownMark? && l in table.listed && l !in acts[a].pc.toMark ::
          l in table.slots && table.slots[l].removed)
    && (forall a, l | a in acts && acts[a].pc.PastDrain() && l in acts[a].pc.toWait ::
          l in table.slots && table.slots[l].removed)
  }

  ghost function HeldIds(acts: Acts): set<AsyncId> {
    set a, id | a in acts && id in acts[a].pc.Held() :: id
  }

  ghost predicate OneHolder(acts: Acts) {
    forall a, b, id | a in acts && b in acts && id in acts[a].pc.Held() && id in acts[b].pc.Held() :: a == b
  }

  /** Each registered promise is in the map, held by exactly one activation, or satisfied: exactly one of these. */
  ghost predicate Conserved(p: Promises, acts: Acts) {
    && p.kindOf.Keys == p.pending.Keys + HeldIds(acts) + p.resolved.Keys
    && p.pending.Keys !! HeldIds(acts)
    && p.pending.Keys !! p.resolved.Keys
    && HeldIds(acts) !! p.resolved.Keys
    && OneHolder(acts)
  }

  ghost predicate FitsKind(p: Promises, id: AsyncId, event: Event) {
    id in p.kindOf && event.kind == p.kindOf[id] && event.asyncId == Some(id)
  }

  /** A promise is only ever paired with an event of its own kind and id. */
  ghost predicate KindsInv(p: Promises, acts: Acts) {
    && (forall id | id in p.pending :: id in p.kindOf && p.kindOf[id] == p.pending[id])
    && (forall a | a in acts && acts[a].pc.PushComplete? && acts[a].pc.taken.Some? ::
          FitsKind(p, acts[a].pc.taken.value, acts[a].pc.event))
    && (forall id | id in p.resolved && p.resolved[id].Completed? :: FitsKind(p, id, p.resolved[id].event))
  }

  /** Every id belongs to the one activation that drew it, which registers it once. */
  ghost predicate RequestInv(p: Promises, acts: Acts) {
    && (forall id | id in p.requester :: id < p.nextId)
    && (forall id | id in p.kindOf :: id in p.requester)
    && (forall a | a in acts && acts[a].pc.Drawn().Some? ::
          acts[a].pc.Drawn().value in p.requester && p.requester[acts[a].pc.Drawn().value] == a)
    && (forall a | a in acts && acts[a].pc.Drawn().Some? ::
          acts[a].pc.RequestRegister? <==> acts[a].pc.Drawn().value !in p.kindOf)
    && (forall id | id in p.passed :: id in p.kindOf)
  }

  /** A pending promise was sent while shutdown could still cancel it, or its requester has not sent it. */
  ghost predicate PendingInv(life: Lifecycle, p: Promises, acts: Acts) {
    forall id | id in p.pending ::
      if id in p.passed then life.AcceptsSends()
      else id in p.requester && p.requester[id] in acts && acts[p.requester[id]].pc.Undecided(id)
  }

  ghost predicate Inv(s: Sys) {
    && RefsInv(s.table, s.acts) && CountsInv(s.table, s.acts) && LockInv(s.lockedBy, s.acts)
    && OwnerInv(s.life, s.acts) && DrainInv(s.life, s.table, s.acts)
    && Conserved(s.promises, s.acts) && KindsInv(s.promises, s.acts) && RequestInv(s.promises, s.acts)
    && PendingInv(s.life, s.promises, s.acts)
  }

  // ---------------------------------------------------------------- the shapes of a step

  /*
   How the move of one activation from `pc` to `e.pc` goes with what the step does to the lock, the lifecycle,
   the listener table and the promises. StepsFit shows that every step has these shapes; the ...Kept lemmas show
   that the shapes keep the invariant.
   */

  ghost predicate LockFits(lockedBy: Option<ActId>, pc: Pc, e: Effect) {
    match e.lock
    case LockKeep => pc.HoldsLock() == e.pc.HoldsLock()
    case Acquire => lockedBy.None? && e.pc.HoldsLock()
    case Release => pc.HoldsLock() && !e.pc.HoldsLock()
  }

  ghost predicate LifeFits(life: Lifecycle, pc: Pc, e: Effect) {
    match e.life
    case LifeKeep =>
      && pc.InShutdown() == e.pc.InShutdown()
      && pc.InitCall? == e.pc.InitCall?
      && pc.PastDrain() == e.pc.PastDrain()
    case Begin(to) =>
      && !pc.OwnsLifecycle()
      && if to.Initializing? then life.state.Uninitialized? && e.pc.InitCall?
         else to.ShuttingDown? && life.state.Initialized? && e.pc.ShutdownLock?
    case Emptied => pc.InShutdown() && !pc.PastDrain() && e.pc.PastDrain()
    case End(to) =>
      && (pc.PastDrain() || pc.InitCall?) && !e.pc.OwnsLifecycle()
      && (to.Uninitialized? || to.Initialized?)
  }

  ghost predicate TableFits(table: Table, pc: Pc, e: Effect) {
    && e.pc.SlotRefs() <= pc.SlotRefs() + table.listed
    && match e.table
       case EnterSlot(l) =>
         && pc.InsideOf().None? && e.pc.InsideOf() == Some(l)
         && l in pc.SlotRefs() && l in table.slots && !table.slots[l].removed
       case LeaveSlot(l) => pc.InsideOf() == Some(l) && e.pc.InsideOf().None?
       case _ => pc.InsideOf() == e.pc.InsideOf()
  }

  ghost predicate DrainFits(life: Lifecycle, table: Table, pc: Pc, e: Effect) {
    && (e.life.Emptied? <==> e.table.UnlistAll?)
    && (e.life.Emptied? ==> pc == ShutdownMark({}) && e.pc.PastDrain() && e.pc.toWait == table.listed)
    && (e.table.Create? ==> pc.AddCommit?)
    && (e.pc.AddCommit? ==> !life.state.ShuttingDown?)
    && (e.pc.ShutdownMark? ==>
          || (e.table.TableKeep? && e.pc.toMark == table.listed)
          || (pc.ShutdownMark? && e.table.MarkRemoved? && e.pc.toMark == pc.toMark - {e.table.l}))
    && (pc.PastDrain() && e.pc.PastDrain() ==> e.pc.toWait <= pc.toWait)
  }

  ghost predicate PromisesFit(life: Lifecycle, p: Promises, pc: Pc, e: Effect) {
    var held, held', drawn' := pc.Held(), e.pc.Held(), e.pc.Drawn();
    && (e.promises.TakeAll? <==> e.life.Emptied?)
    && match e.promises
       case PromiseKeep =>
         && held' == held
         && (drawn'.Some? ==> drawn' == pc.Drawn() && pc.RequestRegister? == e.pc.RequestRegister?)
         && (e.pc.PushComplete? ==> e.pc.taken.None?)
         && (forall id | id in p.pending && pc.Undecided(id) :: e.pc.Undecided(id))
       case Draw => held' == held == {} && e.pc.RequestRegister? && e.pc.req == p.nextId && pc.Drawn().None?
       case Add(id, kind) => held' == held == {} && pc == RequestRegister(kind, id) && e.pc == RequestCheck(id)
       case Pass(id) => held' == held == {} && pc == RequestCheck(id) && e.pc == RequestSend(id) && life.AcceptsSends()
       case Take(id) =>
         && id in p.pending && held == {} && held' == {id}
         && (if pc.RequestCancel? then pc.req == id && e.pc == RequestResolve(id)
             else pc.Drawn().None? && drawn'.None? &&
                  (e.pc.PushComplete? ==> e.pc.event.kind == p.pending[id] && e.pc.event.asyncId == Some(id)))
       case TakeAll => held == {} && held' == p.pending.Keys && pc.Drawn().None? && drawn'.None? && !e.pc.PushComplete?
       case Satisfy(id, outcome) =>
         && id in held && held' == held - {id}
         && drawn'.None? && !e.pc.PushComplete?
         && (outcome.Completed? ==> pc.PushComplete? && pc.taken == Some(id) && pc.event == outcome.event)
  }

  ghost predicate Fits(s: Sys, pc: Pc, e: Effect) {
    && LockFits(s.lockedBy, pc, e) && LifeFits(s.life, pc, e) && TableFits(s.table, pc, e)
    && DrainFits(s.life, s.table, pc, e) && PromisesFit(s.life, s.promises, pc, e)
  }

  lemma CallFits(s: Sys, call: Pc)
    requires call.IsCall()
    ensures Fits(s, Done, Goto(call))
  {
  }

  lemma StepFits(s: Sys, t: ThreadId, pc: Pc, choice: Choice)
    requires Ready(s, t, pc, choice)
    ensures Fits(s, pc, StepEffect(s, t, pc, choice))
  {
    StepFitsState(s, t, pc, choice);
    StepFitsPromises(s, t, pc, choice);
  }

  lemma StepFitsState(s: Sys, t: ThreadId, pc: Pc, choice: Choice)
    requires Ready(s, t, pc, choice)
    ensures var e := StepEffect(s, t, pc, choice);
            && LockFits(s.lockedBy, pc, e) && LifeFits(s.life, pc, e)
            && TableFits(s.table, pc, e) && DrainFits(s.life, s.table, pc, e)
  {
  }

  lemma StepFitsPromises(s: Sys, t: ThreadId, pc: Pc, choice: Choice)
    requires Ready(s, t, pc, choice)
    ensures PromisesFit(s.life, s.promises, pc, StepEffect(s, t, pc, choice))
  {
  }

  // ---------------------------------------------------------------- preservation

  /** The activation's state before the step; a new activation counts as finished. */
  ghost function PcOf(acts: Acts, a: ActId): Pc {
    if a in acts then acts[a].pc else Done
  }

  lemma LockKept(lockedBy: Option<ActId>, acts: Acts, a: ActId, act: Activation, e: Effect)
    requires LockInv(lockedBy, acts) && LockFits(lockedBy, PcOf(acts, a), e) && act.pc == e.pc
    requires a in acts || e.lock.LockKeep?
    ensures LockInv(match e.lock case LockKeep => lockedBy case Acquire => Some(a) case Release => None,
                    acts[a := act])
  {
  }

  lemma OwnerKept(life: Lifecycle, acts: Acts, a: ActId, act: Activation, e: Effect)
    requires OwnerInv(life, acts) && LifeFits(life, PcOf(acts, a), e) && act.pc == e.pc
    ensures OwnerInv(life.Do(e.life, a), acts[a := act])
  {
  }

  lemma DrainKept(s: Sys, a: ActId, act: Activation, e: Effect)
    requires RefsInv(s.table, s.acts) && LockInv(s.lockedBy, s.acts) && OwnerInv(s.life, s.acts)
    requires DrainInv(s.life, s.table, s.acts)
    requires LifeFits(s.life, PcOf(s.acts, a), e) && DrainFits(s.life, s.table, PcOf(s.acts, a), e) && act.pc == e.pc
    ensures DrainInv(s.life.Do(e.life, a), s.table.Do(e.table, act.thread), s.acts[a := act])
  {
  }

  lemma RefsKept(table: Table, acts: Acts, a: ActId, act: Activation, e: Effect)
    requires RefsInv(table, acts) && TableFits(table, PcOf(acts, a), e) && act.pc == e.pc
    ensures RefsInv(table.Do(e.table, act.thread), acts[a := act])
  {
  }

  lemma KindsKept(p: Promises, acts: Acts, life: Lifecycle, a: ActId, act: Activation, e: Effect)
    requires KindsInv(p, acts) && RequestInv(p, acts)
    requires PromisesFit(life, p, PcOf(acts, a), e) && act.pc == e.pc
    ensures KindsInv(p.Do(e.promises, a), acts[a := act])
  {
  }

  lemma RequestKept(p: Promises, acts: Acts, life: Lifecycle, a: ActId, act: Activation, e: Effect)
    requires RequestInv(p, acts)
    requires PromisesFit(life, p, PcOf(acts, a), e) && act.pc == e.pc
    ensures RequestInv(p.Do(e.promises, a), acts[a := act])
  {
  }

  lemma AcceptsKept(life: Lifecycle, acts: Acts, a: ActId, e: Effect)
    requires OwnerInv(life, acts) && LifeFits(life, PcOf(acts, a), e)
    ensures life.AcceptsSends() && !e.life.Emptied? ==> life.Do(e.life, a).AcceptsSends()
  {
  }

  lemma PendingKeptWithoutOp(p: Promises, acts: Acts, life: Lifecycle, life': Lifecycle, a: ActId, act: Activation,
                             e: Effect)
    requires RequestInv(p, acts) && PendingInv(life, p, acts)
    requires life.AcceptsSends() && !e.life.Emptied? ==> life'.AcceptsSends()
    requires PromisesFit(life, p, PcOf(acts, a), e) && act.pc == e.pc
    requires e.promises.PromiseKeep?
    ensures PendingInv(life', p.Do(e.promises, a), acts[a := act])
  {
  }

  lemma PendingKeptByTaking(p: Promises, acts: Acts, life: Lifecycle, life': Lifecycle, a: ActId, act: Activation,
                            e: Effect)
    requires RequestInv(p, acts) && PendingInv(life, p, acts)
    requires life.AcceptsSends() && !e.life.Emptied? ==> life'.AcceptsSends()
    requires PromisesFit(life, p, PcOf(acts, a), e) && act.pc == e.pc
    requires e.promises.Take? || e.promises.TakeAll?
    ensures PendingInv(life', p.Do(e.promises, a), acts[a := act])
  {
    hide RequestInv;
    var p', acts' := p.Do(e.promises, a), acts[a := act];
    forall id | id in p'.pending && id !in p.passed
      ensures id in p.requester && p.requester[id] in acts' && acts'[p.requester[id]].pc.Undecided(id)
    {
      assert acts[p.requester[id]].pc.Undecided(id);
      assert p.requester[id] != a;
    }
  }

  lemma PendingKeptByAdding(p: Promises, acts: Acts, life: Lifecycle, life': Lifecycle, a: ActId, act: Activation,
                            e: Effect)
    requires RequestInv(p, acts) && PendingInv(life, p, acts)
    requires life.AcceptsSends() && !e.life.Emptied? ==> life'.AcceptsSends()
    requires PromisesFit(life, p, PcOf(acts, a), e) && act.pc == e.pc
    requires e.promises.Add?
    ensures PendingInv(life', p.Do(e.promises, a), acts[a := act])
  {
  }

  lemma PendingKeptByOp(p: Promises, acts: Acts, life: Lifecycle, life': Lifecycle, a: ActId, act: Activation,
                        e: Effect)
    requires RequestInv(p, acts) && PendingInv(life, p, acts)
    requires life.AcceptsSends() && !e.life.Emptied? ==> life'.AcceptsSends()
    requires PromisesFit(life, p, PcOf(acts, a), e) && act.pc == e.pc
    requires e.promises.Draw? || e.promises.Pass? || e.promises.Satisfy?
    ensures PendingInv(life', p.Do(e.promises, a), acts[a := act])
  {
  }

  lemma PendingKept(p: Promises, acts: Acts, life: Lifecycle, life': Lifecycle, a: ActId, act: Activation, e: Effect)
    requires RequestInv(p, acts) && PendingInv(life, p, acts)
    requires life.AcceptsSends() && !e.life.Emptied? ==> life'.AcceptsSends()
    requires PromisesFit(life, p, PcOf(acts, a), e) && act.pc == e.pc
    ensures PendingInv(life', p.Do(e.promises, a), acts[a := act])
  {
    hide PendingInv, RequestInv, PromisesFit;
    if e.promises.PromiseKeep? {
      PendingKeptWithoutOp(p, acts, life, life', a, act, e);
    } else if e.promises.Take? || e.promises.TakeAll? {
      PendingKeptByTaking(p, acts, life, life', a, act, e);
    } else if e.promises.Add? {
      PendingKeptByAdding(p, acts, life, life', a, act, e);
    } else {
      PendingKeptByOp(p, acts, life, life', a, act, e);
    }
  }

  lemma SizeMoves(before: set<ActId>, after: set<ActId>, a: ActId)
    requires after - {a} == before - {a}
    ensures |after| == |before| + (if a in after then 1 else 0) - (if a in before then 1 else 0)
  {
    assert after == (if a in after then after - {a} + {a} else after - {a});
    assert before == (if a in before then before - {a} + {a} else before - {a});
  }

  lemma InsideAfter(acts: Acts, a: ActId, act: Activation, l: ListenerId)
    ensures var was, now := PcOf(acts, a).InsideOf() == Some(l), act.pc.InsideOf() == Some(l);
            |Inside(acts[a := act], l)| == |Inside(acts, l)| + (if now then 1 else 0) - (if was then 1 else 0)
  {
    SizeMoves(Inside(acts, l), Inside(acts[a := act], l), a);
  }

  lemma InsideByAfter(acts: Acts, a: ActId, act: Activation, l: ListenerId, t: ThreadId)
    requires a in acts ==> acts[a].thread == act.thread
    ensures var was, now := PcOf(acts, a).InsideOf() == Some(l), act.pc.InsideOf() == Some(l);
            |InsideBy(acts[a := act], l, t)| ==
            |InsideBy(acts, l, t)| + (if now && t == act.thread then 1 else 0) -
                                     (if was && t == act.thread then 1 else 0)
  {
    SizeMoves(InsideBy(acts, l, t), InsideBy(acts[a := act], l, t), a);
  }

  lemma NobodyInsideUnknown(table: Table, acts: Acts, l: ListenerId)
    requires RefsInv(table, acts) && l !in table.slots
    ensures Inside(acts, l) == {} && forall t :: InsideBy(acts, l, t) == {}
  {
    assert forall a | a in acts && acts[a].pc.InsideOf() == Some(l) :: l in acts[a].pc.SlotRefs();
  }

  /** Entering and leaving change the counters and the set of activations inside in step. */
  lemma SlotCountsKept(acts: Acts, a: ActId, act: Activation, l: ListenerId, before: Slot, after: Slot)
    requires SlotCounts(acts, l, before) && (a in acts ==> acts[a].thread == act.thread)
    requires var was, now := PcOf(acts, a).InsideOf() == Some(l), act.pc.InsideOf() == Some(l);
             if was == now then after == before.(removed := after.removed)
             else if now then after == before.Enter(act.thread) else after == before.Leave(act.thread)
    ensures SlotCounts(acts[a := act], l, after)
  {
    InsideAfter(acts, a, act, l);
    forall t
      ensures after.SelfActive(t) == |InsideBy(acts[a := act], l, t)|
    {
      InsideByAfter(acts, a, act, l, t);
    }
  }

  lemma CountsKept(table: Table, acts: Acts, a: ActId, act: Activation, e: Effect)
    requires RefsInv(table, acts) && CountsInv(table, acts)
    requires TableFits(table, PcOf(acts, a), e) && act.pc == e.pc && (a in acts ==> acts[a].thread == act.thread)
    ensures CountsInv(table.Do(e.table, act.thread), acts[a := act])
  {
    var table' := table.Do(e.table, act.thread);
    forall l | l in table'.slots
      ensures SlotCounts(acts[a := act], l, table'.slots[l])
    {
      if l in table.slots {
        SlotCountsKept(acts, a, act, l, table.slots[l], table'.slots[l]);
      } else {
        RefsKept(table, acts, a, act, e);
        NewSlotEmpty(table, acts, a, act, e, l);
      }
    }
  }

  lemma NewSlotEmpty(table: Table, acts: Acts, a: ActId, act: Activation, e: Effect, l: ListenerId)
    requires RefsInv(table, acts) && l !in table.slots && e.table.Create?
    requires TableFits(table, PcOf(acts, a), e) && act.pc == e.pc
    ensures SlotCounts(acts[a := act], l, Slot(map[], 0, false))
  {
    NobodyInsideUnknown(table, acts, l);
    assert PcOf(acts, a).InsideOf() == Some(l) ==> a in Inside(acts, l);
    var acts' := acts[a := act];
    assert Inside(acts', l) == {};
    assert forall t :: InsideBy(acts', l, t) <= Inside(acts', l);
  }

  ghost function HeldByOthers(acts: Acts, a: ActId): set<AsyncId> { HeldIds(acts - {a}) }

  /** The promises in the activations' hands, seen as those of activation `a` and those of the others. */
  lemma HeldSplits(acts: Acts, a: ActId)
    ensures HeldIds(acts) == HeldByOthers(acts, a) + PcOf(acts, a).Held()
    ensures OneHolder(acts) <==> OneHolder(acts - {a}) && HeldByOthers(acts, a) !! PcOf(acts, a).Held()
  {
    var rest := acts - {a};
    assert forall b | b in rest :: b in acts && rest[b] == acts[b];
    assert forall b | b in acts :: b == a || (b in rest && rest[b] == acts[b]);
  }

  lemma OthersUnmoved(acts: Acts, a: ActId, act: Activation)
    ensures acts[a := act] - {a} == acts - {a}
  {
  }

  /** The set algebra of one step: ids enter `all`, and move between the map, the mover's hands and `done`. */
  lemma PartitionMoves(all: set<AsyncId>, pending: set<AsyncId>, held: set<AsyncId>, done: set<AsyncId>,
                       all': set<AsyncId>, pending': set<AsyncId>, held': set<AsyncId>, done': set<AsyncId>,
                       others: set<AsyncId>)
    requires all == pending + (others + held) + done && others !! held
    requires pending !! (others + held) && pending !! done && (others + held) !! done
    requires all <= all' && pending' + held' + done' == pending + held + done + (all' - all)
    requires pending' !! held' && pending' !! done' && held' !! done'
    ensures all' == pending' + (others + held') + done' && others !! held'
    ensures pending' !! (others + held') && pending' !! done' && (others + held') !! done'
  {
    assert others !! (pending' + held' + done');
  }

  lemma KeysAfter(p: Promises, op: PromiseOp, a: ActId)
    ensures var p', added := p.Do(op, a), if op.Add? then {op.id} else {};
            && p'.kindOf.Keys == p.kindOf.Keys + added
            && p'.pending.Keys ==
               (if op.TakeAll? then {} else p.pending.Keys + added - if op.Take? then {op.id} else {})
            && p'.resolved.Keys == p.resolved.Keys + if op.Satisfy? then {op.id} else {}
  {
  }

  lemma OwnIdsApart(p: Promises, acts: Acts, life: Lifecycle, a: ActId, e: Effect)
    requires Conserved(p, acts) && RequestInv(p, acts) && PromisesFit(life, p, PcOf(acts, a), e)
    ensures var held := PcOf(acts, a).Held();
            && held + p.pending.Keys + p.resolved.Keys <= p.kindOf.Keys
            && held !! p.pending.Keys && held !! p.resolved.Keys && p.pending.Keys !! p.resolved.Keys
    ensures e.promises.Add? ==> e.promises.id !in p.kindOf
  {
    assert PcOf(acts, a).Held() <= HeldIds(acts);
  }

  lemma OwnIdsMove(p: Promises, acts: Acts, life: Lifecycle, a: ActId, e: Effect)
    requires Conserved(p, acts) && RequestInv(p, acts) && PromisesFit(life, p, PcOf(acts, a), e)
    ensures var p', held, held' := p.Do(e.promises, a), PcOf(acts, a).Held(), e.pc.Held();
            && p.kindOf.Keys <= p'.kindOf.Keys
            && p'.pending.Keys + held' + p'.resolved.Keys ==
               p.pending.Keys + held + p.resolved.Keys + (p'.kindOf.Keys - p.kindOf.Keys)
            && p'.pending.Keys !! held' && p'.pending.Keys !! p'.resolved.Keys && held' !! p'.resolved.Keys
  {
    hide Conserved, RequestInv, Promises.Do, PcOf;
    OwnIdsApart(p, acts, life, a, e);
    KeysAfter(p, e.promises, a);
  }

  lemma ConservedKept(p: Promises, acts: Acts, life: Lifecycle, a: ActId, act: Activation, e: Effect)
    requires Conserved(p, acts) && RequestInv(p, acts)
    requires PromisesFit(life, p, PcOf(acts, a), e) && act.pc == e.pc
    ensures Conserved(p.Do(e.promises, a), acts[a := act])
  {
    OwnIdsMove(p, acts, life, a, e);
    OthersUnmoved(acts, a, act);
    HeldSplits(acts, a);
    HeldSplits(acts[a := act], a);
    var p' := p.Do(e.promises, a);
    PartitionMoves(p.kindOf.Keys, p.pending.Keys, PcOf(acts, a).Held(), p.resolved.Keys,
                   p'.kindOf.Keys, p'.pending.Keys, e.pc.Held(), p'.resolved.Keys, HeldByOthers(acts, a));
  }

  // ---------------------------------------------------------------- the invariant holds in every reachable state

  lemma PerformKeeps(s: Sys, a: ActId, t: ThreadId, e: Effect)
    requires Inv(s) && Fits(s, PcOf(s.acts, a), e)
    requires if a in s.acts then s.acts[a].thread == t else e.lock.LockKeep?
    ensures Inv(Perform(s, a, t, e))
  {
    var act := Activation(t, e.pc);
    LockKept(s.lockedBy, s.acts, a, act, e);
    OwnerKept(s.life, s.acts, a, act, e);
    DrainKept(s, a, act, e);
    RefsKept(s.table, s.acts, a, act, e);
    CountsKept(s.table, s.acts, a, act, e);
    KindsKept(s.promises, s.acts, s.life, a, act, e);
    RequestKept(s.promises, s.acts, s.life, a, act, e);
    AcceptsKept(s.life, s.acts, a, e);
    PendingKept(s.promises, s.acts, s.life, s.life.Do(e.life, a), a, act, e);
    ConservedKept(s.promises, s.acts, s.life, a, act, e);
  }

  /** Every step, a new call included, performs an effect of the right shape. */
  lemma StepPerforms(s: Sys, step: Step) returns (t: ThreadId, e: Effect)
    requires Enabled(s, step)
    ensures Apply(s, step) == Perform(s, step.a, t, e) && Fits(s, PcOf(s.acts, step.a), e)
    ensures if step.a in s.acts then s.acts[step.a].thread == t else e.lock.LockKeep?
  {
    match step
    case Call(a, thread, call) =>
      t, e := thread, Goto(call);
      CallFits(s, call);
    case Run(a, choice) =>
      t := s.acts[a].thread;
      e := StepEffect(s, t, s.acts[a].pc, choice);
      StepFits(s, t, s.acts[a].pc, choice);
  }

  lemma StepKeepsInv(s: Sys, step: Step)
    requires Inv(s) && Enabled(s, step)
    ensures Inv(Apply(s, step))
  {
    var t, e := StepPerforms(s, step);
    PerformKeeps(s, step.a, t, e);
  }

  lemma {:induction false} ReachableInv(states: seq<Sys>, steps: seq<Step>, i: nat)
    requires IsRun(states, steps) && i < |states|
    ensures Inv(states[i])
  {
    if i == 0 {
      assert states[0].acts == map[];
    } else {
      ReachableInv(states, steps, i - 1);
      StepKeepsInv(states[i - 1], steps[i - 1]);
    }
  }

  // ---------------------------------------------------------------- main result 1: listener quiescence

  /** The step by which thread `t` stops waiting for slot `l`, in removeListener or in shutdown. */
  ghost predicate EndsWait(s: Sys, step: Step, l: ListenerId, t: ThreadId) {
    && step.Run? && step.a in s.acts && s.acts[step.a].thread == t
    && var pc := s.acts[step.a].pc;
       || pc == RemoveWait(l)
       || (pc.ShutdownWait? && pc.toWait != {} && step.choice == Pick(l))
  }

  ghost predicate Enters(s: Sys, step: Step, l: ListenerId) {
    Enabled(s, step) && Inside(Apply(s, step).acts, l) - Inside(s.acts, l) != {}
  }

  /** Only thread `t` itself can still be inside the callback, and nothing can enter it. */
  ghost predicate Quiet(s: Sys, l: ListenerId, t: ThreadId) {
    && l in s.table.slots && s.table.slots[l].removed
    && Inside(s.acts, l) <= InsideBy(s.acts, l, t)
  }

  /** Either wait predicate leaves at most the waiting thread's own activations inside. */
  lemma WaitPredicateExcludesOthers(acts: Acts, l: ListenerId, slot: Slot, t: ThreadId)
    requires SlotCounts(acts, l, slot) && (slot.RemoveReady(t) || slot.DrainReady(t))
    ensures Inside(acts, l) == InsideBy(acts, l, t)
  {
    var all, own := Inside(acts, l), InsideBy(acts, l, t);
    assert own <= all;
    if own != all {
      assert |all| == |own| + |all - own|;
    }
  }

  lemma MoveOutside(acts: Acts, a: ActId, act: Activation, l: ListenerId)
    requires a in acts && acts[a].pc.InsideOf().None? && act.pc.InsideOf().None?
    ensures Inside(acts[a := act], l) == Inside(acts, l)
    ensures forall t :: InsideBy(acts[a := act], l, t) == InsideBy(acts, l, t)
  {
    var acts' := acts[a := act];
    forall t ensures InsideBy(acts', l, t) == InsideBy(acts, l, t) { }
  }

  /** The step that ends a wait finds its predicate true, leaves the slot removed and moves no one inside or out. */
  lemma WaitEnds(s: Sys, step: Step, l: ListenerId, t: ThreadId)
    requires Inv(s) && Enabled(s, step) && EndsWait(s, step, l, t)
    ensures var s' := Apply(s, step);
            && l in s.table.slots && SlotCounts(s.acts, l, s.table.slots[l])
            && (s.table.slots[l].RemoveReady(t) || s.table.slots[l].DrainReady(t))
            && l in s'.table.slots && s'.table.slots[l].removed
            && step.a in s'.acts && s'.acts == s.acts[step.a := s'.acts[step.a]]
            && step.a in s.acts && s.acts[step.a].pc.InsideOf().None? && s'.acts[step.a].pc.InsideOf().None?
  {
    hide Inside, InsideBy, Conserved, KindsInv, RequestInv, PendingInv, OwnerInv, LockInv;
    var pc := s.acts[step.a].pc;
    if pc.RemoveWait? {
      assert l in pc.SlotRefs();
    } else {
      assert l in pc.SlotRefs();
    }
  }

  lemma WaitMakesQuiet(s: Sys, step: Step, l: ListenerId, t: ThreadId)
    requires Inv(s) && Enabled(s, step) && EndsWait(s, step, l, t)
    ensures Quiet(Apply(s, step), l, t)
    ensures Inside(Apply(s, step).acts, l) <= InsideBy(s.acts, l, t)
  {
    WaitEnds(s, step, l, t);
    hide Inv, SlotCounts, Inside, InsideBy;
    WaitPredicateExcludesOthers(s.acts, l, s.table.slots[l], t);
    MoveOutside(s.acts, step.a, Apply(s, step).acts[step.a], l);
  }

  lemma RemovedSlotNotEntered(table: Table, acts: Acts, a: ActId, act: Activation, e: Effect, l: ListenerId)
    requires TableFits(table, PcOf(acts, a), e) && act.pc == e.pc && l in table.slots && table.slots[l].removed
    requires l < table.nextId && (a in acts ==> acts[a].thread == act.thread)
    ensures Inside(acts[a := act], l) <= Inside(acts, l)
    ensures forall t | Inside(acts, l) <= InsideBy(acts, l, t) ::
              Inside(acts[a := act], l) <= InsideBy(acts[a := act], l, t)
    ensures var table' := table.Do(e.table, act.thread); l in table'.slots && table'.slots[l].removed
  {
    var acts' := acts[a := act];
    forall b, t | b in Inside(acts', l) && b in InsideBy(acts, l, t)
      ensures b in InsideBy(acts', l, t)
    {
    }
  }

  lemma QuietStays(s: Sys, step: Step, l: ListenerId, t: ThreadId)
    requires Inv(s) && Quiet(s, l, t) && Enabled(s, step)
    ensures Quiet(Apply(s, step), l, t) && Inside(Apply(s, step).acts, l) <= Inside(s.acts, l)
  {
    var thread, e := StepPerforms(s, step);
    RemovedSlotNotEntered(s.table, s.acts, step.a, Activation(thread, e.pc), e, l);
  }

  /**
   Once removeListener, or shutdown for a slot it drained, stops waiting for slot `l`, no other thread is inside
   that callback, and whoever is inside later was inside already when the wait ended.
   */
  lemma {:induction false} ListenerQuiescence(states: seq<Sys>, steps: seq<Step>, i: nat, j: nat, l: ListenerId,
                                              t: ThreadId)
    requires IsRun(states, steps) && i < j < |states| && EndsWait(states[i], steps[i], l, t)
    ensures Quiet(states[j], l, t) && Inside(states[j].acts, l) <= InsideBy(states[i].acts, l, t)
    decreases j
  {
    ReachableInv(states, steps, j - 1);
    if j == i + 1 {
      WaitMakesQuiet(states[i], steps[i], l, t);
    } else {
      ListenerQuiescence(states, steps, i, j - 1, l, t);
      QuietStays(states[j - 1], steps[j - 1], l, t);
    }
  }

  /** No thread ever enters the callback again. */
  lemma NoEntryAfterQuiescence(states: seq<Sys>, steps: seq<Step>, i: nat, j: nat, l: ListenerId, t: ThreadId)
    requires IsRun(states, steps) && i < j < |steps| && EndsWait(states[i], steps[i], l, t)
    ensures !Enters(states[j], steps[j], l)
  {
    ListenerQuiescence(states, steps, i, j, l, t);
    ReachableInv(states, steps, j);
    QuietStays(states[j], steps[j], l, t);
  }

  // ---------------------------------------------------------------- main result 2: promise conservation

  /** In every reachable state each registered id is pending, held by one activation, or satisfied with its own kind. */
  lemma PromiseConservation(states: seq<Sys>, steps: seq<Step>, i: nat)
    requires IsRun(states, steps) && i < |states|
    ensures Conserved(states[i].promises, states[i].acts)
    ensures forall id | id in states[i].promises.resolved && states[i].promises.resolved[id].Completed? ::
              FitsKind(states[i].promises, id, states[i].promises.resolved[id].event)
  {
    ReachableInv(states, steps, i);
  }

  lemma SatisfiedStays(s: Sys, step: Step, id: AsyncId)
    requires Inv(s) && Enabled(s, step) && id in s.promises.resolved
    ensures id in Apply(s, step).promises.resolved
    ensures Apply(s, step).promises.resolved[id] == s.promises.resolved[id]
  {
    var t, e := StepPerforms(s, step);
    OnlyHeldAreSatisfied(s.promises, s.acts, s.life, step.a, e, id);
  }

  lemma OnlyHeldAreSatisfied(p: Promises, acts: Acts, life: Lifecycle, a: ActId, e: Effect, id: AsyncId)
    requires Conserved(p, acts) && PromisesFit(life, p, PcOf(acts, a), e) && id in p.resolved
    ensures var p' := p.Do(e.promises, a); id in p'.resolved && p'.resolved[id] == p.resolved[id]
  {
    assert PcOf(acts, a).Held() <= HeldIds(acts);
  }

  /** A promise is satisfied at most once: no later step touches its outcome. */
  lemma {:induction false} SatisfiedForGood(states: seq<Sys>, steps: seq<Step>, i: nat, j: nat, id: AsyncId)
    requires IsRun(states, steps) && i <= j < |states| && id in states[i].promises.resolved
    ensures id in states[j].promises.resolved
    ensures states[j].promises.resolved[id] == states[i].promises.resolved[id]
    decreases j
  {
    if i < j {
      SatisfiedForGood(states, steps, i, j - 1, id);
      ReachableInv(states, steps, j - 1);
      SatisfiedStays(states[j - 1], steps[j - 1], id);
    }
  }

  /** The step satisfies promise `id`, by completing or by cancelling it. */
  predicate Satisfies(s: Sys, step: Step, id: AsyncId) {
    && step.Run? && Enabled(s, step)
    && var effect := StepEffect(s, s.acts[step.a].thread, s.acts[step.a].pc, step.choice).promises;
       effect.Satisfy? && effect.id == id
  }

  /** A promise is satisfied only by the one activation that holds it, and only if it has not been satisfied before. */
  lemma SatisfyingStepHolds(s: Sys, step: Step, id: AsyncId)
    requires Conserved(s.promises, s.acts) && Satisfies(s, step, id)
    ensures id in s.acts[step.a].pc.Held() && id !in s.promises.resolved && id !in s.promises.pending
    ensures forall b | b in s.acts && id in s.acts[b].pc.Held() :: b == step.a
  {
    var act := s.acts[step.a];
    StepFits(s, act.thread, act.pc, step.choice);
    hide StepEffect;
    assert id in act.pc.Held();
    assert act.pc.Held() <= HeldIds(s.acts);
  }

  /** In no run is a promise satisfied twice, whichever of completion, cancellation and shutdown come together. */
  lemma SatisfiedOnce(states: seq<Sys>, steps: seq<Step>, i: nat, j: nat, id: AsyncId)
    requires IsRun(states, steps) && i < |steps| && j < |steps|
    requires Satisfies(states[i], steps[i], id) && Satisfies(states[j], steps[j], id)
    ensures i == j
    ensures id in states[i].acts[steps[i].a].pc.Held() && id !in states[i].promises.resolved
  {
    var first, second := if i <= j then i else j, if i <= j then j else i;
    ReachableInv(states, steps, i);
    ReachableInv(states, steps, j);
    SatisfyingStepHolds(states[i], steps[i], id);
    SatisfyingStepHolds(states[j], steps[j], id);
    SatisfyingStepResolves(states[first], steps[first], id);
    if first < second {
      SatisfiedForGood(states, steps, first + 1, second, id);
    }
  }

  lemma SatisfyingStepResolves(s: Sys, step: Step, id: AsyncId)
    requires Satisfies(s, step, id)
    ensures id in Apply(s, step).promises.resolved
  {
    hide StepEffect;
  }

  // ---------------------------------------------------------------- main result 3: no future outlives shutdown

  /**
   A pending promise whose requester saw Initialized is one that shutdown has yet to drain; every other pending
   promise belongs to a requester that has not sent and will check the lifecycle again or cancel.
   */
  lemma NoFutureOutlivesShutdown(states: seq<Sys>, steps: seq<Step>, i: nat, id: AsyncId)
    requires IsRun(states, steps) && i < |states| && id in states[i].promises.pending
    ensures id in states[i].promises.passed ==> states[i].life.AcceptsSends()
    ensures id !in states[i].promises.passed ==>
              && id in states[i].promises.requester && states[i].promises.requester[id] in states[i].acts
              && states[i].acts[states[i].promises.requester[id]].pc.Undecided(id)
  {
    ReachableInv(states, steps, i);
  }

  /** Outside initialization and shutdown's drain, every promise that was sent is satisfied or about to be. */
  lemma ShutdownSettlesSentPromises(states: seq<Sys>, steps: seq<Step>, i: nat, id: AsyncId)
    requires IsRun(states, steps) && i < |states| && id in states[i].promises.passed
    requires states[i].life.state.Uninitialized? || states[i].life.state.Initializing?
    ensures || id in states[i].promises.resolved
            || exists a :: a in states[i].acts && id in states[i].acts[a].pc.Held() &&
                 (states[i].acts[a].pc.PushComplete? || states[i].acts[a].pc.RequestResolve?)
  {
    ReachableInv(states, steps, i);
    var s := states[i];
    if id !in s.promises.resolved {
      assert id in HeldIds(s.acts);
      var a :| a in s.acts && id in s.acts[a].pc.Held();
      assert !s.acts[a].pc.ShutdownCancel?;
    }
  }

  /** No listener registered before a drain survives it in the table, and none is added until shutdown is over. */
  lemma DrainedTableStaysEmpty(states: seq<Sys>, steps: seq<Step>, i: nat)
    requires IsRun(states, steps) && i < |states| && states[i].life.drained
    ensures states[i].table.listed == {} && forall a | a in states[i].acts :: !states[i].acts[a].pc.AddCommit?
  {
    ReachableInv(states, steps, i);
  }
}
