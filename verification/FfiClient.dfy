/**
 FfiClient and ListenerSlot with their mutable fields (src/ffi_client.h, src/ffi_client.cpp).

 Each method of FfiClient takes, as a ghost argument, a state of the step system that the fields show, and an
 activation that stands where the method begins. Its postcondition says that the fields then show the state that the
 activation's next step leads to, so the results of FfiClientSafety speak about any interleaving of these methods.
 */
module FfiClientObject {
  import opened Common
  import opened FfiClientSystem

  function MarkedIf(slot: Slot, marked: bool): Slot { if marked then slot.(removed := true) else slot }

  class ListenerSlot {
    var activeThreads: map<ThreadId, nat>
    var activeCallbacks: int
    var removed: bool

    function View(): Slot
      reads this
    {
      Slot(activeThreads, activeCallbacks, removed)
    }

    ghost predicate CountsPositive()
      reads this
    {
      forall t | t in activeThreads :: activeThreads[t] > 0
    }

    constructor ()
      ensures View() == Slot(map[], 0, false)
    {
      activeThreads, activeCallbacks, removed := map[], 0, false;
    }

    /** pushEvent before the callback: skip a removed slot, else count this thread in. */
    method TryEnter(t: ThreadId) returns (entered: bool)
      modifies this
      ensures entered == !old(removed)
      ensures View() == if entered then old(View()).Enter(t) else old(View())
    {
      if removed {
        return false;
      }
      activeCallbacks := activeCallbacks + 1;
      activeThreads := activeThreads[t := (if t in activeThreads then activeThreads[t] else 0) + 1];
      return true;
    }

    /** pushEvent after the callback. */
    method Leave(t: ThreadId)
      requires CountsPositive()
      modifies this
      ensures View() == old(View()).Leave(t) && CountsPositive()
    {
      if t in activeThreads {
        activeThreads := activeThreads[t := activeThreads[t] - 1];
        if activeThreads[t] == 0 {
          activeThreads := activeThreads - {t};
        }
      }
      activeCallbacks := activeCallbacks - 1;
      assert View().activeThreads == old(View()).Leave(t).activeThreads;
    }

    method MarkRemoved()
      modifies this`removed
      ensures View() == MarkedIf(old(View()), true)
    {
      removed := true;
    }
  }

  /** The table with the slots `ls` marked removed: where shutdown's marking loop stands after visiting `ls`. */
  function Marked(table: Table, ls: set<ListenerId>): Table {
    table.(slots := map l | l in table.slots :: MarkedIf(table.slots[l], l in ls))
  }

  /** The loop is the step system's MarkRemoved steps, in any order. */
  lemma MarkedGrows(table: Table, ls: set<ListenerId>, l: ListenerId, t: ThreadId)
    requires l in table.slots
    ensures Marked(table, ls + {l}) == Marked(table, ls).Do(MarkRemoved(l), t)
  {
    assert Marked(table, ls + {l}).slots == Marked(table, ls).Do(MarkRemoved(l), t).slots;
  }

  /** `now` is `s` after activation `a` has marked the slots of `order`, one after the other. */
  ghost predicate Marks(s: Sys, a: ActId, order: seq<ListenerId>, now: Sys)
    decreases |order|
  {
    if order == [] then now == s
    else
      var n := |order| - 1;
      exists before ::
        Marks(s, a, order[..n], before) && Enabled(before, Run(a, Pick(order[n]))) &&
        now == Apply(before, Run(a, Pick(order[n])))
  }

  lemma MarksOneMore(s: Sys, a: ActId, order: seq<ListenerId>, before: Sys, l: ListenerId)
    requires Marks(s, a, order, before) && Enabled(before, Run(a, Pick(l)))
    ensures Marks(s, a, order + [l], Apply(before, Run(a, Pick(l))))
  {
    assert (order + [l])[..|order|] == order;
  }

  /** Activation `a` stands at `pc`. */
  predicate At(s: Sys, a: ActId, pc: Pc) { a in s.acts && s.acts[a].pc == pc }

  /** The step in which `a` marks slot `l`. */
  lemma MarkStep(s: Sys, a: ActId, toMark: set<ListenerId>, l: ListenerId)
    requires At(s, a, ShutdownMark(toMark)) && l in toMark
    ensures Enabled(s, Run(a, Pick(l)))
    ensures var s' := Apply(s, Run(a, Pick(l)));
            && s'.life == s.life && s'.promises == s.promises && s'.lockedBy == s.lockedBy
            && s'.table == s.table.Do(MarkRemoved(l), s.acts[a].thread) && At(s', a, ShutdownMark(toMark - {l}))
  {
  }

  lemma SameTable(a: Table, b: Table)
    requires a.listed == b.listed && a.nextId == b.nextId && a.slots.Keys == b.slots.Keys
    requires forall l | l in a.slots :: a.slots[l] == b.slots[l]
    ensures a == b
  {
    assert a.slots == b.slots;
  }

  /** Where shutdown's marking loop stands: of `all` slots it has `rest` to go. */
  ghost predicate Marking(s: Sys, a: ActId, order: seq<ListenerId>, now: Sys, all: set<ListenerId>,
                          rest: set<ListenerId>) {
    && Marks(s, a, order, now) && At(now, a, ShutdownMark(rest)) && rest <= all <= s.table.slots.Keys
    && now.life == s.life && now.promises == s.promises && now.table == Marked(s.table, all - rest)
  }

  lemma MarkingBegins(s: Sys, a: ActId, all: set<ListenerId>)
    requires At(s, a, ShutdownMark(all)) && all <= s.table.slots.Keys
    ensures Marking(s, a, [], s, all, all)
  {
    assert all - all == {} && Marked(s.table, {}).slots == s.table.slots;
  }

  lemma MarkingGoesOn(s: Sys, a: ActId, order: seq<ListenerId>, now: Sys, all: set<ListenerId>, rest: set<ListenerId>,
                      l: ListenerId)
    requires Marking(s, a, order, now, all, rest) && l in rest
    ensures Enabled(now, Run(a, Pick(l)))
    ensures Marking(s, a, order + [l], Apply(now, Run(a, Pick(l))), all, rest - {l})
  {
    MarkStep(now, a, rest, l);
    MarksOneMore(s, a, order, now, l);
    MarkedGrows(s.table, all - rest, l, now.acts[a].thread);
    assert all - rest + {l} == all - (rest - {l});
    hide Marks, Apply, Marked, Enabled;
  }

  lemma {:induction false} MarkingRuns(s: Sys, a: ActId, order: seq<ListenerId>, now: Sys, all: set<ListenerId>,
                                       rest: set<ListenerId>)
    returns (order': seq<ListenerId>, end: Sys)
    requires Marking(s, a, order, now, all, rest)
    ensures Marking(s, a, order', end, all, {})
    decreases |rest|
  {
    hide Marking, Apply, Enabled;
    if rest == {} {
      order', end := order, now;
    } else {
      var l :| l in rest;
      MarkingGoesOn(s, a, order, now, all, rest, l);
      order', end := MarkingRuns(s, a, order + [l], Apply(now, Run(a, Pick(l))), all, rest - {l});
    }
  }

  lemma MarkingEnds(s: Sys, a: ActId, order: seq<ListenerId>, now: Sys, all: set<ListenerId>)
    requires Marking(s, a, order, now, all, {})
    ensures Marks(s, a, order, now) && At(now, a, ShutdownMark({}))
    ensures now.life == s.life && now.promises == s.promises && now.table == Marked(s.table, all)
  {
    assert all - {} == all;
    hide Marks;
  }

  ghost predicate Consistent(listeners: map<ListenerId, ListenerSlot>, slots: map<ListenerId, ListenerSlot>,
                             next: ListenerId) {
    && (forall l | l in listeners :: l in slots && slots[l] == listeners[l])
    && (forall l | l in slots :: l < next)
    && (forall l, m | l in slots && m in slots && slots[l] == slots[m] :: l == m)
  }

  lemma ConsistentInsert(listeners: map<ListenerId, ListenerSlot>, slots: map<ListenerId, ListenerSlot>,
                         next: ListenerId, slot: ListenerSlot)
    requires Consistent(listeners, slots, next) && forall l | l in slots :: slots[l] != slot
    ensures Consistent(listeners[next := slot], slots[next := slot], next + 1)
  {
  }

  function Views(slots: map<ListenerId, ListenerSlot>): map<ListenerId, Slot>
    reads slots.Values
  {
    map l | l in slots :: slots[l].View()
  }

  lemma ViewsInsert(slots: map<ListenerId, ListenerSlot>, id: ListenerId, slot: ListenerSlot)
    ensures Views(slots[id := slot]) == Views(slots)[id := slot.View()]
  {
    assert forall l | l in slots[id := slot] :: l == id || l in slots;
  }

  class FfiClient {
    var lifecycle: LifecycleState
    var listeners: map<ListenerId, ListenerSlot>
    var nextListenerId: ListenerId
    var pending: map<AsyncId, Kind>
    var nextAsyncId: AsyncId

    /** Every slot ever made; callbacks and waits may hold one after it has left `listeners`. */
    ghost var allSlots: map<ListenerId, ListenerSlot>

    ghost predicate Valid()
      reads this`listeners, this`nextListenerId, this`allSlots
    {
      Consistent(listeners, allSlots, nextListenerId)
    }

    ghost function TableView(): Table
      reads this`listeners, this`nextListenerId, this`allSlots, allSlots.Values
    {
      Table(listeners.Keys, Views(allSlots), nextListenerId)
    }

    /** The fields are those of `s`. */
    ghost predicate Shows(s: Sys)
      reads this, allSlots.Values
    {
      && Valid()
      && lifecycle == s.life.state
      && TableView() == s.table
      && pending == s.promises.pending && nextAsyncId == s.promises.nextId
    }

    constructor ()
      ensures forall s | Init(s) :: Shows(s)
    {
      lifecycle := Uninitialized;
      listeners, nextListenerId, allSlots := map[], 1, map[];
      pending, nextAsyncId := map[], 1;
    }

    // ---------------------------------------------------------------- lifecycle

    method ClaimShutdown(ghost s: Sys, ghost a: ActId) returns (won: bool)
      requires Shows(s) && At(s, a, ShutdownClaim)
      modifies this`lifecycle
      ensures Shows(Apply(s, Run(a, Only)))
      ensures won <==> At(Apply(s, Run(a, Only)), a, ShutdownLock)
    {
      won := lifecycle.Initialized?;
      if won {
        lifecycle := ShuttingDown;
      }
    }

    /** The store that ends a shutdown, after its last wait. */
    method FinishShutdown(ghost s: Sys, ghost a: ActId)
      requires Shows(s) && At(s, a, ShutdownWait({}))
      modifies this`lifecycle
      ensures Shows(Apply(s, Run(a, Only)))
    {
      lifecycle := Uninitialized;
    }

    method ClaimInitialize(ghost s: Sys, ghost a: ActId) returns (won: bool)
      requires Shows(s) && At(s, a, InitClaim)
      modifies this`lifecycle
      ensures Shows(Apply(s, Run(a, Only)))
      ensures won <==> At(Apply(s, Run(a, Only)), a, InitCall)
    {
      won := lifecycle.Uninitialized?;
      if won {
        lifecycle := Initializing;
      }
    }

    /** `ok` says whether the FFI initialized; if it threw the client is back where it was. */
    method FinishInitialize(ghost s: Sys, ghost a: ActId, ok: bool)
      requires Shows(s) && At(s, a, InitCall)
      modifies this`lifecycle
      ensures Shows(Apply(s, Run(a, Succeeds(ok))))
    {
      lifecycle := if ok then Initialized else Uninitialized;
    }

    /** The check in sendRequest that every requester makes before it sends. */
    method CheckInitialized(ghost s: Sys, ghost a: ActId, id: AsyncId) returns (maySend: bool)
      requires Shows(s) && At(s, a, RequestCheck(id))
      ensures Shows(Apply(s, Run(a, Only)))
      ensures maySend <==> At(Apply(s, Run(a, Only)), a, RequestSend(id))
    {
      maySend := lifecycle.Initialized?;
    }

    /** A compare-and-swap or store of some other thread: none of them takes the lock. */
    method OthersSwap()
      modifies this`lifecycle
    {
      lifecycle := *;
    }

    // ---------------------------------------------------------------- listeners

    /** addListener's check, which leaves the lock held if it passes. */
    method CheckAdd(ghost s: Sys, ghost a: ActId) returns (ok: bool)
      requires Shows(s) && At(s, a, AddCheck) && s.lockedBy.None?
      ensures Shows(Apply(s, Run(a, Only)))
      ensures ok <==> At(Apply(s, Run(a, Only)), a, AddCommit)
    {
      ok := !lifecycle.ShuttingDown?;
    }

    method InsertSlot(slot: ListenerSlot) returns (id: ListenerId)
      requires Valid() && slot.View() == Slot(map[], 0, false) && forall l | l in allSlots :: allSlots[l] != slot
      modifies this`listeners, this`nextListenerId, this`allSlots
      ensures Valid() && id == old(nextListenerId) && TableView() == old(TableView()).Do(Create, 0)
    {
      hide Consistent, Views;
      ConsistentInsert(listeners, allSlots, nextListenerId, slot);
      ViewsInsert(allSlots, nextListenerId, slot);
      id := nextListenerId;
      nextListenerId := nextListenerId + 1;
      listeners := listeners[id := slot];
      allSlots := allSlots[id := slot];
    }

    method InsertListener() returns (id: ListenerId)
      requires Valid()
      modifies this`listeners, this`nextListenerId, this`allSlots
      ensures Valid() && id == old(nextListenerId) && TableView() == old(TableView()).Do(Create, 0)
    {
      hide Consistent;
      var slot := new ListenerSlot();
      id := InsertSlot(slot);
    }

    /** addListener's insertion, with the lock held since the check, whatever has become of the lifecycle. */
    method CommitAdd(ghost s: Sys, ghost a: ActId) returns (id: ListenerId)
      requires Shows(s) && At(s, a, AddCommit)
      modifies this`listeners, this`nextListenerId, this`allSlots
      ensures Shows(Apply(s, Run(a, Only)))
      ensures id == s.table.nextId && id in listeners
    {
      id := InsertListener();
    }

    /** The whole of addListener: another thread's compare-and-swap may fall between its check and its insertion. */
    method AddListener() returns (r: Result<ListenerId, string>)
      requires Valid()
      modifies this`listeners, this`nextListenerId, this`allSlots, this`lifecycle
      ensures Valid()
      ensures old(lifecycle).ShuttingDown? <==> r.Err?
      ensures r.Err? ==> TableView() == old(TableView())
      ensures r.Ok? ==> r.value == old(nextListenerId) && TableView() == old(TableView()).Do(Create, 0)
    {
      if lifecycle.ShuttingDown? {
        return Err("FfiClient::addListener failed: LiveKit is shutting down");
      }
      OthersSwap();
      var id := InsertListener();
      return Ok(id);
    }

    /** removeListener's first section: claim the slot, which pushEvent copies may still refer to. */
    method ClaimListener(ghost s: Sys, ghost a: ActId, id: ListenerId) returns (slot: ListenerSlot?)
      requires Shows(s) && At(s, a, RemoveLookup(id)) && s.lockedBy.None?
      modifies this`listeners
      ensures Shows(Apply(s, Run(a, Only)))
      ensures slot != null <==> At(Apply(s, Run(a, Only)), a, RemoveWait(id))
      ensures slot != null ==> id in allSlots && slot == allSlots[id]
    {
      if id !in listeners {
        return null;
      }
      slot := listeners[id];
      listeners := listeners - {id};
    }

    /** removeListener after its wait. */
    method FinishRemove(ghost s: Sys, ghost a: ActId, ghost l: ListenerId, slot: ListenerSlot)
      requires Shows(s) && At(s, a, RemoveWait(l)) && Enabled(s, Run(a, Only))
      requires l in allSlots && allSlots[l] == slot
      modifies slot`removed
      ensures Shows(Apply(s, Run(a, Only)))
    {
      slot.MarkRemoved();
      assert TableView().slots == s.table.slots[l := slot.View()];
    }

    /** pushEvent's section before a callback. */
    method EnterCallback(ghost s: Sys, ghost a: ActId, t: ThreadId, ghost e: Event, ghost rest: set<ListenerId>,
                         ghost l: ListenerId, slot: ListenerSlot)
      returns (entered: bool)
      requires Shows(s) && At(s, a, PushNotify(e, rest)) && s.acts[a].thread == t && l in rest
      requires l in allSlots && allSlots[l] == slot
      modifies slot
      ensures Shows(Apply(s, Run(a, Pick(l))))
      ensures entered <==> At(Apply(s, Run(a, Pick(l))), a, InCallback(e, l, rest - {l}))
    {
      entered := slot.TryEnter(t);
      assert TableView().slots == s.table.slots[l := slot.View()];
    }

    /** pushEvent's section after a callback. */
    method LeaveCallback(ghost s: Sys, ghost a: ActId, t: ThreadId, ghost e: Event, ghost rest: set<ListenerId>,
                         ghost l: ListenerId, slot: ListenerSlot)
      requires Shows(s) && At(s, a, InCallback(e, l, rest)) && s.acts[a].thread == t
      requires l in allSlots && allSlots[l] == slot && slot.CountsPositive()
      modifies slot
      ensures Shows(Apply(s, Run(a, Only))) && slot.CountsPositive()
    {
      slot.Leave(t);
      assert TableView().slots == s.table.slots[l := slot.View()];
    }

    // ---------------------------------------------------------------- promises

    method GenerateAsyncId(ghost s: Sys, ghost a: ActId, kind: Kind) returns (id: AsyncId)
      requires Shows(s) && At(s, a, RequestStart(kind))
      modifies this`nextAsyncId
      ensures Shows(Apply(s, Run(a, Only)))
      ensures At(Apply(s, Run(a, Only)), a, RequestRegister(kind, id))
    {
      id := nextAsyncId;
      nextAsyncId := nextAsyncId + 1;
    }

    /** emplace: an id that is present already would keep its entry. */
    method RegisterAsync(ghost s: Sys, ghost a: ActId, id: AsyncId, kind: Kind)
      requires Shows(s) && At(s, a, RequestRegister(kind, id)) && s.lockedBy.None?
      modifies this`pending
      ensures Shows(Apply(s, Run(a, Only)))
    {
      if id !in pending {
        pending := pending[id := kind];
      }
    }

    method CancelPendingByAsyncId(ghost s: Sys, ghost a: ActId, id: AsyncId) returns (found: bool)
      requires Shows(s) && At(s, a, RequestCancel(id)) && s.lockedBy.None?
      modifies this`pending
      ensures Shows(Apply(s, Run(a, Only)))
      ensures found <==> At(Apply(s, Run(a, Only)), a, RequestResolve(id))
    {
      found := id in pending;
      if found {
        pending := pending - {id};
      }
    }

    /** pushEvent's check, which leaves the lock held if it passes. */
    method CheckPush(ghost s: Sys, ghost a: ActId, event: Event) returns (ok: bool)
      requires Shows(s) && At(s, a, PushCheck(event)) && s.lockedBy.None?
      ensures Shows(Apply(s, Run(a, Only)))
      ensures ok <==> At(Apply(s, Run(a, Only)), a, PushCommit(event))
    {
      ok := lifecycle.Initialized?;
    }

    /**
     The rest of pushEvent's locked section, whatever has become of the lifecycle: take the promise that the event
     completes, and copy the listener slots.
     */
    method CommitPush(ghost s: Sys, ghost a: ActId, event: Event)
      returns (taken: Option<AsyncId>, copy: map<ListenerId, ListenerSlot>)
      requires Shows(s) && At(s, a, PushCommit(event))
      modifies this`pending
      ensures Shows(Apply(s, Run(a, Only)))
      ensures At(Apply(s, Run(a, Only)), a, PushComplete(event, taken, copy.Keys))
      ensures copy == listeners && forall l | l in copy :: l in allSlots && copy[l] == allSlots[l]
      ensures taken.Some? <==>
              event.asyncId.Some? && event.asyncId.value in old(pending) &&
              old(pending)[event.asyncId.value] == event.kind
      ensures taken.Some? ==> taken == event.asyncId && pending == old(pending) - {taken.value}
      ensures taken.None? ==> pending == old(pending)
    {
      taken := None;
      if event.asyncId.Some? {
        var id := event.asyncId.value;
        if id in pending && pending[id] == event.kind {
          taken := Some(id);
          pending := pending - {id};
        }
      }
      copy := CopyListeners();
    }

    method CopyListeners() returns (copy: map<ListenerId, ListenerSlot>)
      ensures copy == listeners
    {
      copy := map[];
      var rest := listeners.Keys;
      while rest != {}
        invariant rest <= listeners.Keys
        invariant copy == map l | l in listeners && l !in rest :: listeners[l]
        decreases |rest|
      {
        var l :| l in rest;
        rest := rest - {l};
        copy := copy[l := listeners[l]];
      }
      assert copy == listeners;
    }

    // ---------------------------------------------------------------- shutdown

    /** shutdown's loop over the registered slots. */
    method MarkEach()
      requires Valid()
      modifies listeners.Values`removed
      ensures forall l | l in allSlots :: allSlots[l].View() == MarkedIf(old(allSlots[l].View()), l in listeners)
    {
      var rest := listeners.Keys;
      while rest != {}
        invariant rest <= listeners.Keys
        invariant forall l | l in allSlots ::
                    allSlots[l].removed == ((l in listeners && l !in rest) || old(allSlots[l].removed))
        decreases |rest|
      {
        var l :| l in rest;
        rest := rest - {l};
        var slot := listeners[l];
        assert slot in listeners.Values;
        slot.MarkRemoved();
      }
    }

    /** The loop amounts to a run of marking steps, one for each registered slot. */
    method MarkAll(ghost s: Sys, ghost a: ActId) returns (ghost order: seq<ListenerId>, ghost marked: Sys)
      requires Shows(s) && At(s, a, ShutdownMark(listeners.Keys))
      modifies listeners.Values`removed
      ensures Marks(s, a, order, marked) && At(marked, a, ShutdownMark({})) && Shows(marked)
    {
      MarkEach();
      MarkingBegins(s, a, listeners.Keys);
      order, marked := MarkingRuns(s, a, [], s, listeners.Keys, listeners.Keys);
      MarkingEnds(s, a, order, marked, listeners.Keys);
      assert Valid();
      hide MarkedIf, ListenerSlot.View;
      ghost var now := TableView();
      forall l | l in s.table.slots
        ensures l in now.slots && now.slots[l] == Marked(s.table, listeners.Keys).slots[l]
      {
      }
      SameTable(now, Marked(s.table, listeners.Keys));
    }

    /** The end of shutdown's locked section: move out every listener slot and every promise. */
    method MoveOut(ghost s: Sys, ghost a: ActId)
      returns (toWait: map<ListenerId, ListenerSlot>, toCancel: set<AsyncId>)
      requires Shows(s) && At(s, a, ShutdownMark({}))
      modifies this`listeners, this`pending
      ensures Shows(Apply(s, Run(a, Only)))
      ensures At(Apply(s, Run(a, Only)), a, ShutdownCancel(toCancel, toWait.Keys))
      ensures toWait == old(listeners)
    {
      toWait := listeners;
      listeners := map[];
      toCancel := pending.Keys;
      pending := map[];
    }

    /** shutdown's whole locked section. */
    method DrainAll(ghost s: Sys, ghost a: ActId)
      returns (toWait: map<ListenerId, ListenerSlot>, toCancel: set<AsyncId>, ghost order: seq<ListenerId>,
               ghost marked: Sys)
      requires Shows(s) && At(s, a, ShutdownLock) && s.lockedBy.None?
      modifies this`listeners, this`pending, listeners.Values`removed
      ensures Marks(Apply(s, Run(a, Only)), a, order, marked) && At(marked, a, ShutdownMark({}))
      ensures Shows(Apply(marked, Run(a, Only)))
      ensures At(Apply(marked, Run(a, Only)), a, ShutdownCancel(toCancel, toWait.Keys))
    {
      ghost var locked := Apply(s, Run(a, Only));
      assert Shows(locked) && At(locked, a, ShutdownMark(listeners.Keys));
      hide Apply, Marks;
      order, marked := MarkAll(locked, a);
      toWait, toCancel := MoveOut(marked, a);
    }
  }
}
