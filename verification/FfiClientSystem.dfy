/**
 The FfiClient protocol as an interleaved step system (src/ffi_client.cpp).

 Every critical section, every atomic operation and every call into user code is one step, taken by one
 activation of one API call. Any number of threads may run any number of activations, and nothing orders the
 activations of one thread, so the runs of this system include every properly nested run of the program.

 The shared state has three parts (lifecycle, listener table, promises) and a lock. A step moves one activation
 and does at most one operation on each part; class FfiClient (FfiClient.dfy) implements the operations on
 mutable fields.
 */
module FfiClientSystem {
  import opened Common

  type ThreadId = nat
  type ListenerId = nat
  type AsyncId = nat
  type ActId = nat

  /** The message case of a completion event, fixed by the request that was sent. */
  type Kind = nat

  // ---------------------------------------------------------------- lifecycle_state_

  datatype LifecycleState = Uninitialized | Initializing | Initialized | ShuttingDown

  datatype LifeOp = LifeKeep | Begin(to: LifecycleState) | Emptied | End(to: LifecycleState)

  /** `owner` and `drained` are history: who won the last compare-and-swap, and whether it has emptied the maps. */
  datatype Lifecycle = Lifecycle(state: LifecycleState, owner: Option<ActId>, drained: bool) {
    function Do(op: LifeOp, a: ActId): Lifecycle {
      match op
      case LifeKeep => this
      case Begin(to) => Lifecycle(to, Some(a), false)
      case Emptied => this.(drained := true)
      case End(to) => Lifecycle(to, None, false)
    }

    /** A request sent now reaches an FFI whose pending promises shutdown will still cancel. */
    predicate AcceptsSends() { state.Initialized? || (state.ShuttingDown? && !drained) }
  }

  // ---------------------------------------------------------------- listeners_

  /** ListenerSlot, guarded by its own mutex. */
  datatype Slot = Slot(activeThreads: map<ThreadId, nat>, activeCallbacks: int, removed: bool) {
    function SelfActive(t: ThreadId): nat {
      if t in activeThreads then activeThreads[t] else 0
    }

    function Enter(t: ThreadId): Slot {
      Slot(activeThreads[t := SelfActive(t) + 1], activeCallbacks + 1, removed)
    }

    function Leave(t: ThreadId): Slot {
      Slot(if SelfActive(t) <= 1 then activeThreads - {t} else activeThreads[t := SelfActive(t) - 1],
           activeCallbacks - 1, removed)
    }

    /** The predicate removeListener waits for. */
    predicate RemoveReady(t: ThreadId) {
      activeCallbacks == 0 || (t in activeThreads && activeCallbacks == 1)
    }

    /** The predicate shutdown waits for, which differs from removeListener's. */
    predicate DrainReady(t: ThreadId) {
      activeCallbacks == SelfActive(t)
    }
  }

  datatype TableOp =
    | TableKeep | Create | Unlist(l: ListenerId) | UnlistAll
    | MarkRemoved(l: ListenerId) | EnterSlot(l: ListenerId) | LeaveSlot(l: ListenerId)

  /** `listed` are the ids in listeners_; `slots` keeps every slot ever made, as shared_ptr holders may need it. */
  datatype Table = Table(listed: set<ListenerId>, slots: map<ListenerId, Slot>, nextId: ListenerId) {
    function Do(op: TableOp, t: ThreadId): Table {
      match op
      case TableKeep => this
      case Create => Table(listed + {nextId}, slots[nextId := Slot(map[], 0, false)], nextId + 1)
      case Unlist(l) => this.(listed := listed - {l})
      case UnlistAll => this.(listed := {})
      case MarkRemoved(l) => if l in slots then this.(slots := slots[l := slots[l].(removed := true)]) else this
      case EnterSlot(l) => if l in slots then this.(slots := slots[l := slots[l].Enter(t)]) else this
      case LeaveSlot(l) => if l in slots then this.(slots := slots[l := slots[l].Leave(t)]) else this
    }
  }

  // ---------------------------------------------------------------- pending_by_id_

  /** An FFI event; only completion events carry an async id. */
  datatype Event = Event(kind: Kind, asyncId: Option<AsyncId>, body: nat)

  /** How a promise was satisfied. */
  datatype Outcome = Completed(event: Event) | Cancelled

  datatype PromiseOp =
    | PromiseKeep | Draw | Add(id: AsyncId, kind: Kind) | Pass(id: AsyncId)
    | Take(id: AsyncId) | TakeAll | Satisfy(id: AsyncId, outcome: Outcome)

  /**
   `pending` and `nextId` are the program's. The rest is history that no step reads: the kinds of all ids ever
   registered, the activation that drew each id, the ids whose requester saw Initialized, and the satisfied
   promises.
   */
  datatype Promises = Promises(
    pending: map<AsyncId, Kind>,
    nextId: AsyncId,
    kindOf: map<AsyncId, Kind>,
    requester: map<AsyncId, ActId>,
    passed: set<AsyncId>,
    resolved: map<AsyncId, Outcome>)
  {
    function Do(op: PromiseOp, a: ActId): Promises {
      match op
      case PromiseKeep => this
      case Draw => this.(nextId := nextId + 1, requester := requester[nextId := a])
      case Add(id, kind) =>
        // emplace: an id that is already present keeps its entry
        this.(pending := if id in pending then pending else pending[id := kind], kindOf := kindOf[id := kind])
      case Pass(id) => this.(passed := passed + {id})
      case Take(id) => this.(pending := pending - {id})
      case TakeAll => this.(pending := map[])
      case Satisfy(id, outcome) => this.(resolved := resolved[id := outcome])
    }

    /** The pending id that `event` completes: same id and same kind. */
    function Match(event: Event): Option<AsyncId> {
      if event.asyncId.Some? && event.asyncId.value in pending && pending[event.asyncId.value] == event.kind
      then event.asyncId else None
    }
  }

  // ---------------------------------------------------------------- activations

  /** Where an activation stands; the arguments are its local variables. */
  datatype Pc =
    | AddCheck | AddCommit
    | RemoveLookup(slot: ListenerId) | RemoveWait(slot: ListenerId)
    | PushCheck(event: Event) | PushCommit(event: Event)
    | PushComplete(event: Event, taken: Option<AsyncId>, rest: set<ListenerId>)
    | PushNotify(event: Event, rest: set<ListenerId>)
    | InCallback(event: Event, inside: ListenerId, rest: set<ListenerId>)
    | RequestStart(kind: Kind) | RequestRegister(kind: Kind, req: AsyncId) | RequestCheck(req: AsyncId)
    | RequestSend(req: AsyncId) | RequestCancel(req: AsyncId) | RequestResolve(req: AsyncId)
    | ShutdownClaim | ShutdownLock | ShutdownMark(toMark: set<ListenerId>)
    | ShutdownCancel(toCancel: set<AsyncId>, toWait: set<ListenerId>) | ShutdownWait(toWait: set<ListenerId>)
    | InitClaim | InitCall
    | Done
  {
    predicate IsCall() {
      AddCheck? || RemoveLookup? || PushCheck? || RequestStart? || ShutdownClaim? || InitClaim?
    }

    predicate HoldsLock() { AddCommit? || PushCommit? || ShutdownMark? }

    /** Between winning Initialized -> ShuttingDown and storing Uninitialized. */
    predicate InShutdown() { ShutdownLock? || ShutdownMark? || PastDrain() }

    predicate PastDrain() { ShutdownCancel? || ShutdownWait? }

    predicate OwnsLifecycle() { InShutdown() || InitCall? }

    function InsideOf(): Option<ListenerId> {
      if InCallback? then Some(inside) else None
    }

    /** The id this requester drew, if it has drawn one. */
    function Drawn(): Option<AsyncId> {
      if RequestRegister? || RequestCheck? || RequestSend? || RequestCancel? || RequestResolve? then Some(req)
      else None
    }

    /** A requester that has not sent: it will check the lifecycle, or has seen it closed and will cancel. */
    predicate Undecided(id: AsyncId) { this == RequestCheck(id) || this == RequestCancel(id) }

    /** Promises moved out of the map that this activation is about to satisfy. */
    function Held(): set<AsyncId> {
      if PushComplete? && taken.Some? then {taken.value}
      else if RequestResolve? then {req}
      else if ShutdownCancel? then toCancel
      else {}
    }

    /** Slots whose shared_ptr this activation keeps. */
    function SlotRefs(): set<ListenerId> {
      if RemoveWait? then {slot}
      else if PushComplete? || PushNotify? then rest
      else if InCallback? then rest + {inside}
      else if ShutdownMark? then toMark
      else if PastDrain() then toWait
      else {}
    }
  }

  datatype Activation = Activation(thread: ThreadId, pc: Pc)

  // ---------------------------------------------------------------- the system

  datatype Sys = Sys(
    life: Lifecycle,
    lockedBy: Option<ActId>,
    table: Table,
    promises: Promises,
    acts: map<ActId, Activation>)

  predicate Init(s: Sys) {
    s == Sys(Lifecycle(Uninitialized, None, false), None, Table({}, map[], 1),
             Promises(map[], 1, map[], map[], {}, map[]), map[])
  }

  datatype LockOp = LockKeep | Acquire | Release

  datatype Effect = Effect(pc: Pc, lock: LockOp, life: LifeOp, table: TableOp, promises: PromiseOp)

  function Goto(pc: Pc): Effect { Effect(pc, LockKeep, LifeKeep, TableKeep, PromiseKeep) }

  datatype Step =
    | Call(a: ActId, thread: ThreadId, call: Pc)
    | Run(a: ActId, choice: Choice)

  /** What the scheduler or the environment decides: the next element of an unordered container, or a success. */
  datatype Choice = Only | Pick(n: nat) | Succeeds(ok: bool)

  predicate Enabled(s: Sys, step: Step) {
    match step
    case Call(a, _, call) => a !in s.acts && call.IsCall()
    case Run(a, choice) => a in s.acts && Ready(s, s.acts[a].thread, s.acts[a].pc, choice)
  }

  /** When the activation may take its next step: the lock is free where it is needed, or the wait is over. */
  predicate Ready(s: Sys, t: ThreadId, pc: Pc, choice: Choice) {
    match pc
    case AddCheck | RemoveLookup(_) | PushCheck(_) | RequestRegister(_, _) | RequestCancel(_) | ShutdownLock =>
      s.lockedBy.None?
    case RemoveWait(l) => l in s.table.slots && s.table.slots[l].RemoveReady(t)
    case PushNotify(_, rest) => rest == {} || (choice.Pick? && choice.n in rest && choice.n in s.table.slots)
    case RequestSend(_) | InitCall => choice.Succeeds?
    case ShutdownMark(toMark) => toMark == {} || (choice.Pick? && choice.n in toMark)
    case ShutdownCancel(toCancel, _) => toCancel == {} || (choice.Pick? && choice.n in toCancel)
    case ShutdownWait(toWait) =>
      toWait == {} ||
      (choice.Pick? && choice.n in toWait && choice.n in s.table.slots && s.table.slots[choice.n].DrainReady(t))
    case Done => false
    case _ => true
  }

  /** The program, one line per section. */
  function StepEffect(s: Sys, t: ThreadId, pc: Pc, choice: Choice): Effect
    requires Ready(s, t, pc, choice)
  {
    match pc
    // addListener
    case AddCheck =>
      if s.life.state.ShuttingDown? then Goto(Done) else Goto(AddCommit).(lock := Acquire)
    case AddCommit => Goto(Done).(lock := Release, table := Create)
    // removeListener
    case RemoveLookup(l) =>
      if l !in s.table.listed then Goto(Done) else Goto(RemoveWait(l)).(table := Unlist(l))
    case RemoveWait(l) => Goto(Done).(table := MarkRemoved(l))
    // pushEvent
    case PushCheck(e) =>
      if !s.life.state.Initialized? then Goto(Done) else Goto(PushCommit(e)).(lock := Acquire)
    case PushCommit(e) =>
      var taken := s.promises.Match(e);
      Goto(PushComplete(e, taken, s.table.listed))
      .(lock := Release, promises := if taken.Some? then Take(taken.value) else PromiseKeep)
    case PushComplete(e, taken, rest) =>
      Goto(PushNotify(e, rest))
      .(promises := if taken.Some? then Satisfy(taken.value, Completed(e)) else PromiseKeep)
    case PushNotify(e, rest) =>
      if rest == {} then Goto(Done)
      else if s.table.slots[choice.n].removed then Goto(PushNotify(e, rest - {choice.n}))
      else Goto(InCallback(e, choice.n, rest - {choice.n})).(table := EnterSlot(choice.n))
    case InCallback(e, l, rest) => Goto(PushNotify(e, rest)).(table := LeaveSlot(l))
    // one generic ...Async requester
    case RequestStart(kind) => Goto(RequestRegister(kind, s.promises.nextId)).(promises := Draw)
    case RequestRegister(kind, id) => Goto(RequestCheck(id)).(promises := Add(id, kind))
    case RequestCheck(id) =>
      if s.life.state.Initialized? then Goto(RequestSend(id)).(promises := Pass(id)) else Goto(RequestCancel(id))
    case RequestSend(id) => Goto(if choice.ok then Done else RequestCancel(id))
    case RequestCancel(id) =>
      if id in s.promises.pending then Goto(RequestResolve(id)).(promises := Take(id)) else Goto(Done)
    case RequestResolve(id) => Goto(Done).(promises := Satisfy(id, Cancelled))
    // shutdown
    case ShutdownClaim =>
      if s.life.state.Initialized? then Goto(ShutdownLock).(life := Begin(ShuttingDown)) else Goto(Done)
    case ShutdownLock => Goto(ShutdownMark(s.table.listed)).(lock := Acquire)
    case ShutdownMark(toMark) =>
      if toMark != {} then Goto(ShutdownMark(toMark - {choice.n})).(table := MarkRemoved(choice.n))
      else Goto(ShutdownCancel(s.promises.pending.Keys, s.table.listed))
           .(lock := Release, life := Emptied, table := UnlistAll, promises := TakeAll)
    case ShutdownCancel(toCancel, toWait) =>
      if toCancel != {} then
        Goto(ShutdownCancel(toCancel - {choice.n}, toWait)).(promises := Satisfy(choice.n, Cancelled))
      else Goto(ShutdownWait(toWait))
    case ShutdownWait(toWait) =>
      if toWait != {} then Goto(ShutdownWait(toWait - {choice.n})) else Goto(Done).(life := End(Uninitialized))
    // initialize
    case InitClaim =>
      if s.life.state.Uninitialized? then Goto(InitCall).(life := Begin(Initializing)) else Goto(Done)
    case InitCall => Goto(Done).(life := End(if choice.ok then Initialized else Uninitialized))
  }

  function Perform(s: Sys, a: ActId, t: ThreadId, e: Effect): Sys {
    Sys(s.life.Do(e.life, a),
        match e.lock case LockKeep => s.lockedBy case Acquire => Some(a) case Release => None,
        s.table.Do(e.table, t),
        s.promises.Do(e.promises, a),
        s.acts[a := Activation(t, e.pc)])
  }

  function Apply(s: Sys, step: Step): Sys
    requires Enabled(s, step)
  {
    match step
    case Call(a, t, call) => Perform(s, a, t, Goto(call))
    case Run(a, choice) =>
      Perform(s, a, s.acts[a].thread, StepEffect(s, s.acts[a].thread, s.acts[a].pc, choice))
  }

  /** A finite run: states[i + 1] is reached from states[i] by steps[i]. */
  ghost predicate IsRun(states: seq<Sys>, steps: seq<Step>) {
    && |states| == |steps| + 1
    && Init(states[0])
    && forall i | 0 <= i < |steps| :: Enabled(states[i], steps[i]) && states[i + 1] == Apply(states[i], steps[i])
  }
}
