/**
 When the data readers are exactly the registered callbacks whose track is published: the exact condition for each
 operation, for whole runs, and the bargain with the callers under which it always holds.
 */
module DispatcherReaderSet {
  import opened Common
  import opened DispatcherSpec
  import opened DispatcherSafety

  /** The callbacks that should have a reader. */
  ghost function Wanted(s: State): set<CallbackId> {
    set id | id in s.dataCallbacks && s.dataCallbacks[id].key in s.tracks
  }

  ghost predicate ReadersAsWanted(s: State) { s.dataReaders.Keys == Wanted(s) }

  /** A data reader for each of `ids` goes with the running media readers within the limit. */
  ghost predicate Fits(s: State, ids: set<CallbackId>) { |s.readers| + |ids| <= MAX_ACTIVE_READERS }

  /** No callback is registered for a key of `keys` other than the one `erased`. */
  ghost predicate OnlyErasedRegistered(callbacks: map<CallbackId, DataRegistration>, keys: set<Key>,
                                       erased: Option<Key>) {
    forall id | id in callbacks && callbacks[id].key in keys :: erased == Some(callbacks[id].key)
  }

  /** What an operation must meet to keep the reader set right; only three kinds of operation can break it. */
  ghost predicate KeepsReaderSet(s: State, op: Op) {
    match op
    case AddDataCallback(key, _) => key !in s.tracks || Fits(s, s.dataReaders.Keys + {s.nextId})
    case DataPublished(track, _) =>
      s.RegisteredFor(track.key) == {} || Fits(s, s.dataReaders.Keys + s.RegisteredFor(track.key))
    case DataUnpublished(sid, erased) =>
      OnlyErasedRegistered(s.dataCallbacks, s.KeysOf(sid), erased)
    case _ => true
  }

  /** Starting data readers changes no registration, no track and no media reader. */
  ghost predicate SameButDataReaders(s: State, s': State) {
    && s'.audioCallbacks == s.audioCallbacks && s'.videoCallbacks == s.videoCallbacks && s'.readers == s.readers
    && s'.dataCallbacks == s.dataCallbacks && s'.tracks == s.tracks
  }

  lemma SameButChains(a: State, b: State, c: State)
    requires SameButDataReaders(a, b)
    ensures b.readers == a.readers && b.dataCallbacks == a.dataCallbacks && b.tracks == a.tracks
    ensures SameButDataReaders(a, a)
    ensures SameButDataReaders(b, c) ==> SameButDataReaders(a, c)
  {
  }

  // ---------------------------------------------------------------- starting data readers

  lemma ExtractDataReaderShape(s: State, id: CallbackId)
    ensures var s' := ExtractDataReader(s, id).state;
            SameButDataReaders(s, s') && s'.dataReaders == s.dataReaders - {id} && s'.threads == s.threads
  {
  }

  lemma RoomIsFit(s: State, id: CallbackId)
    ensures |s.readers| + |s.dataReaders - {id}| < MAX_ACTIVE_READERS <==> Fits(s, s.dataReaders.Keys + {id})
    ensures (s.dataReaders - {id}).Keys == s.dataReaders.Keys + {id} - {id}
  {
    var rest, all := s.dataReaders - {id}, s.dataReaders.Keys + {id};
    assert rest.Keys == all - {id};
    assert all == rest.Keys + {id};
  }

  /** startDataReaderLocked replaces the reader of `id` if all then fit, and otherwise only removes it. */
  lemma StartDataShape(s: State, id: CallbackId, track: DataTrack, callback: Callback)
    ensures var s', rest := StartData(s, id, track, callback).state, s.dataReaders - {id};
            && SameButDataReaders(s, s')
            && s'.dataReaders == if Fits(s, s.dataReaders.Keys + {id})
                                 then rest[id := DataReader(track, callback, s.threads)] else rest
  {
    ExtractDataReaderShape(s, id);
    RoomIsFit(s, id);
    hide ExtractDataReader, Fits;
  }

  ghost function Ids(order: seq<CallbackId>): set<CallbackId> { set id | id in order }

  lemma IdsSplit(order: seq<CallbackId>)
    requires order != [] && Distinct(order)
    ensures Ids(order) == {order[0]} + Ids(order[1..]) && order[0] !in Ids(order[1..]) && Distinct(order[1..])
    ensures order[1..] == [] <==> Ids(order[1..]) == {}
  {
    assert order == [order[0]] + order[1..];
    assert order[1..] != [] ==> order[1] in Ids(order[1..]);
  }

  /** A start adds its reader if all then fit, and otherwise only removes the one it was to replace. */
  lemma KeysAfterStart(s: State, id: CallbackId, track: DataTrack, callback: Callback)
    ensures var s', all := StartData(s, id, track, callback).state, s.dataReaders.Keys + {id};
            SameButDataReaders(s, s') && s'.dataReaders.Keys == if Fits(s, all) then all else all - {id}
  {
    StartDataShape(s, id, track, callback);
    RoomIsFit(s, id);
    hide StartData, SameButDataReaders, Fits;
    var rest := s.dataReaders - {id};
    assert rest[id := DataReader(track, callback, s.threads)].Keys == rest.Keys + {id};
    assert s.dataReaders.Keys + {id} - {id} + {id} == s.dataReaders.Keys + {id};
  }

  /** `end` has a reader for every callback of `order` and all that `s` had exactly if they fit the limit together. */
  ghost predicate ReadersAfter(s: State, end: State, order: seq<CallbackId>) {
    var all := s.dataReaders.Keys + Ids(order);
    && SameButDataReaders(s, end) && end.dataReaders.Keys <= all
    && (end.dataReaders.Keys == all <==> Ids(order) == {} || Fits(s, all))
  }

  lemma ReadersAfterStep(s: State, first: State, end: State, order: seq<CallbackId>)
    requires order != [] && Distinct(order)
    requires SameButDataReaders(s, first) && ReadersAfter(first, end, order[1..])
    requires var all := s.dataReaders.Keys + {order[0]};
             first.dataReaders.Keys == if Fits(s, all) then all else all - {order[0]}
    ensures ReadersAfter(s, end, order)
  {
    IdsSplit(order);
    SameButChains(s, first, end);
    hide Ids, Distinct, SameButDataReaders, Fits;
    OneMore(s, first, s.dataReaders.Keys, order[0], Ids(order[1..]), first.dataReaders.Keys, end.dataReaders.Keys);
  }

  lemma StartAllUnfold(s: State, track: DataTrack, order: seq<CallbackId>)
    requires order != [] && forall id | id in order :: id in s.dataCallbacks
    requires StartData(s, order[0], track, s.dataCallbacks[order[0]].callback).state.dataCallbacks == s.dataCallbacks
    ensures StartAll(s, track, order).state ==
            StartAll(StartData(s, order[0], track, s.dataCallbacks[order[0]].callback).state, track, order[1..]).state
  {
    hide StartData;
  }

  /** What the publish loop leaves. */
  lemma {:induction false} StartAllReaders(s: State, track: DataTrack, order: seq<CallbackId>)
    requires Distinct(order) && forall id | id in order :: id in s.dataCallbacks
    ensures ReadersAfter(s, StartAll(s, track, order).state, order)
    decreases |order|
  {
    if order == [] {
      assert Ids([]) == {};
    } else {
      var id, callback := order[0], s.dataCallbacks[order[0]].callback;
      KeysAfterStart(s, id, track, callback);
      IdsSplit(order);
      hide StartData, ReadersAfter, Ids, Distinct, SameButDataReaders, Fits;
      var first := StartData(s, id, track, callback).state;
      SameButChains(s, first, first);
      StartAllUnfold(s, track, order);
      hide StartAll;
      StartAllReaders(first, track, order[1..]);
      ReadersAfterStep(s, first, StartAll(s, track, order).state, order);
    }
  }

  lemma FitsMeans(s: State, few: set<CallbackId>, many: set<CallbackId>)
    requires few <= many
    ensures Fits(s, many) ==> Fits(s, few)
  {
    SubsetSize(few, many);
  }

  /** The sets of ids with a reader: before a start of `id`, after it, and after the starts of `others`. */
  lemma OneMore(s: State, first: State, before: set<CallbackId>, id: CallbackId, others: set<CallbackId>,
                after: set<CallbackId>, end: set<CallbackId>)
    requires id !in others && end <= after + others && s.readers == first.readers
    requires after == if Fits(s, before + {id}) then before + {id} else before + {id} - {id}
    requires end == after + others <==> others == {} || Fits(first, after + others)
    ensures var all := before + ({id} + others);
            end <= all && (end == all <==> Fits(s, all))
  {
    var all := before + ({id} + others);
    FitsMeans(s, before + {id}, all);
    assert Fits(first, after + others) == Fits(s, after + others);
    hide Fits;
    if id in after {
      assert after + others == all;
      assert others == {} ==> all == before + {id};
    }
  }

  lemma PublishWants(s: State, track: DataTrack, order: seq<CallbackId>)
    requires Allowed(s, DataPublished(track, order))
    ensures Ids(order) == s.RegisteredFor(track.key)
    ensures Wanted(s.(tracks := s.tracks[track.key := track])) == Wanted(s) + Ids(order)
  {
  }

  lemma PublishKeepsReaderSetIff(s: State, track: DataTrack, order: seq<CallbackId>)
    requires ReadersAsWanted(s) && Allowed(s, DataPublished(track, order))
    ensures ReadersAsWanted(Publish(s, track, order).state) <==> KeepsReaderSet(s, DataPublished(track, order))
  {
    hide StartAll;
    assert forall ids :: Fits(s.(tracks := s.tracks[track.key := track]), ids) == Fits(s, ids);
    hide Fits;
    var published, s' := s.(tracks := s.tracks[track.key := track]), Publish(s, track, order).state;
    StartAllReaders(published, track, order);
    PublishWants(s, track, order);
    assert Wanted(s') == Wanted(published);
  }

  // ---------------------------------------------------------------- registering

  /** The state in which a new data callback is registered and its reader not yet started. */
  ghost function Registered(s: State, key: Key, callback: Callback): State {
    s.(nextId := s.nextId + 1, dataCallbacks := s.dataCallbacks[s.nextId := DataRegistration(key, callback)])
  }

  lemma RegisteredFacts(s: State, key: Key, callback: Callback)
    requires Agree(s)
    ensures s.nextId !in s.dataReaders
    ensures var registered := Registered(s, key, callback);
            && registered.readers == s.readers && registered.dataReaders == s.dataReaders
            && SameButDataReaders(registered, registered)
            && forall ids :: Fits(registered, ids) == Fits(s, ids)
    ensures Wanted(Registered(s, key, callback)) == if key in s.tracks then Wanted(s) + {s.nextId} else Wanted(s)
  {
  }

  /** Registering a callback starts its reader exactly when its track is published and a reader slot is free. */
  lemma AddDataShape(s: State, key: Key, callback: Callback)
    requires Agree(s)
    ensures var s' := AddData(s, key, callback).state;
            && SameButDataReaders(Registered(s, key, callback), s')
            && s'.dataReaders.Keys ==
               if key in s.tracks && Fits(s, s.dataReaders.Keys + {s.nextId})
               then s.dataReaders.Keys + {s.nextId} else s.dataReaders.Keys
  {
    hide AddData, StartData, Registered, SameButDataReaders, Wanted, Agree, Fits;
    RegisteredFacts(s, key, callback);
    AddDataUnfold(s, key, callback);
    var registered := Registered(s, key, callback);
    if key in s.tracks {
      KeysAfterStart(registered, s.nextId, s.tracks[key], callback);
      assert s.dataReaders.Keys + {s.nextId} - {s.nextId} == s.dataReaders.Keys;
    }
  }

  lemma AddDataUnfold(s: State, key: Key, callback: Callback)
    ensures AddData(s, key, callback) ==
            if key in s.tracks then StartData(Registered(s, key, callback), s.nextId, s.tracks[key], callback)
            else Region(Registered(s, key, callback), {})
  {
    hide StartData;
  }

  lemma AddDataKeepsReaderSetIff(s: State, key: Key, callback: Callback)
    requires Agree(s) && ReadersAsWanted(s)
    ensures ReadersAsWanted(AddData(s, key, callback).state) <==> KeepsReaderSet(s, AddDataCallback(key, callback))
  {
    RegisteredFacts(s, key, callback);
    AddDataShape(s, key, callback);
    hide AddData, Agree, Fits;
    assert Wanted(AddData(s, key, callback).state) == Wanted(Registered(s, key, callback));
  }

  // ---------------------------------------------------------------- unpublishing

  /** The readers that an unpublish closes are those of the callbacks whose key stores a track with that sid. */
  lemma ReaderOfSid(s: State, sid: string, id: CallbackId)
    requires Agree(s) && id in s.dataReaders
    ensures id in s.dataCallbacks && (id in s.ReadersOf(sid) <==> s.dataCallbacks[id].key in s.KeysOf(sid))
  {
    assert Backed(s, id);
  }

  ghost function Erased(erased: Option<Key>): set<Key> { if erased.Some? then {erased.value} else {} }

  lemma UnpublishShape(s: State, sid: string, erased: Option<Key>)
    ensures var s' := Unpublish(s, sid, erased).state;
            && s'.dataReaders.Keys == s.dataReaders.Keys - s.ReadersOf(sid)
            && s'.dataCallbacks == s.dataCallbacks
            && s'.tracks.Keys == s.tracks.Keys - Erased(erased)
  {
  }

  ghost function WantedFor(callbacks: map<CallbackId, DataRegistration>, published: set<Key>): set<CallbackId> {
    set id | id in callbacks && callbacks[id].key in published
  }

  /** The callbacks with a published key outside `closed`. */
  ghost function WantedOutside(callbacks: map<CallbackId, DataRegistration>, published: set<Key>, closed: set<Key>)
    : set<CallbackId>
  {
    set id | id in callbacks && callbacks[id].key in published && callbacks[id].key !in closed
  }

  /** Closing the readers of `keys` matches forgetting one track unless some callback's key tells them apart. */
  lemma ClosedIsForgotten(callbacks: map<CallbackId, DataRegistration>, published: set<Key>, keys: set<Key>,
                          erased: Option<Key>)
    requires Erased(erased) <= keys <= published
    ensures WantedOutside(callbacks, published, keys) == WantedFor(callbacks, published - Erased(erased)) <==>
            OnlyErasedRegistered(callbacks, keys, erased)
  {
    var after, wanted := WantedOutside(callbacks, published, keys), WantedFor(callbacks, published - Erased(erased));
    if id :| id in callbacks && callbacks[id].key in keys && erased != Some(callbacks[id].key) {
      assert id in wanted && id !in after;
    } else {
      assert after == wanted;
    }
  }

  lemma UnpublishKeepsReaderSetIff(s: State, sid: string, erased: Option<Key>)
    requires Agree(s) && ReadersAsWanted(s) && Allowed(s, DataUnpublished(sid, erased))
    ensures ReadersAsWanted(Unpublish(s, sid, erased).state) <==> KeepsReaderSet(s, DataUnpublished(sid, erased))
  {
    hide Agree, Unpublish, Allowed, State.KeysOf, Wanted, WantedFor, WantedOutside, Erased, OnlyErasedRegistered;
    ErasedIsOfSid(s, sid, erased);
    ClosedReaders(s, sid, erased);
    UnpublishShape(s, sid, erased);
    WantedIs(Unpublish(s, sid, erased).state);
    ClosedIsForgotten(s.dataCallbacks, s.tracks.Keys, s.KeysOf(sid), erased);
  }

  lemma ErasedIsOfSid(s: State, sid: string, erased: Option<Key>)
    requires Allowed(s, DataUnpublished(sid, erased))
    ensures Erased(erased) <= s.KeysOf(sid) <= s.tracks.Keys
  {
  }

  lemma WantedIs(s: State)
    ensures Wanted(s) == WantedFor(s.dataCallbacks, s.tracks.Keys)
  {
  }

  lemma OpenReaders(readers: set<CallbackId>, closing: set<CallbackId>, callbacks: map<CallbackId, DataRegistration>,
                    published: set<Key>, keys: set<Key>)
    requires readers == WantedFor(callbacks, published)
    requires forall id | id in readers :: id in closing <==> callbacks[id].key in keys
    ensures readers - closing == WantedOutside(callbacks, published, keys)
  {
  }

  lemma ClosedReaders(s: State, sid: string, erased: Option<Key>)
    requires Agree(s) && ReadersAsWanted(s)
    ensures Unpublish(s, sid, erased).state.dataReaders.Keys ==
            WantedOutside(s.dataCallbacks, s.tracks.Keys, s.KeysOf(sid))
  {
    hide Agree, Unpublish, State.KeysOf, State.ReadersOf, Wanted, WantedFor, WantedOutside, Erased;
    UnpublishShape(s, sid, erased);
    WantedIs(s);
    forall id | id in s.dataReaders
      ensures id in s.dataCallbacks && (id in s.ReadersOf(sid) <==> s.dataCallbacks[id].key in s.KeysOf(sid))
    {
      ReaderOfSid(s, sid, id);
    }
    OpenReaders(s.dataReaders.Keys, s.ReadersOf(sid), s.dataCallbacks, s.tracks.Keys, s.KeysOf(sid));
  }

  /** An unpublish whose sid has been superseded changes nothing and joins nothing, with no assumption. */
  lemma SupersededUnpublish(s: State, sid: string, erased: Option<Key>)
    requires Agree(s) && Allowed(s, DataUnpublished(sid, erased)) && s.KeysOf(sid) == {}
    ensures Unpublish(s, sid, erased) == Region(s, {})
  {
    forall id | id in s.dataReaders
      ensures s.dataReaders[id].track.sid != sid
    {
      assert Backed(s, id);
      assert s.dataCallbacks[id].key !in s.KeysOf(sid);
    }
    assert s.ReadersOf(sid) == {};
    assert s.dataReaders - {} == s.dataReaders;
  }

  // ---------------------------------------------------------------- every operation, every run

  lemma RemoveDataKeepsReaderSet(s: State, id: CallbackId)
    requires ReadersAsWanted(s)
    ensures ReadersAsWanted(Locked(s, RemoveDataCallback(id)).state)
  {
    var s' := Locked(s, RemoveDataCallback(id)).state;
    assert s'.dataReaders.Keys == s.dataReaders.Keys - {id};
    assert Wanted(s') == Wanted(s) - {id};
  }

  /** From a right reader set, an operation keeps it right if and only if it meets its condition. */
  lemma KeepsReaderSetIff(s: State, op: Op)
    requires Agree(s) && ReadersAsWanted(s) && Allowed(s, op)
    ensures ReadersAsWanted(Locked(s, op).state) <==> KeepsReaderSet(s, op)
  {
    hide Allowed;
    if IsMediaOp(op) {
      MediaOpAgrees(s, op);
      assert Wanted(Locked(s, op).state) == Wanted(s);
    } else {
      match op
      case AddDataCallback(key, cb) => AddDataKeepsReaderSetIff(s, key, cb);
      case RemoveDataCallback(id) => RemoveDataKeepsReaderSet(s, id);
      case DataPublished(track, order) => PublishKeepsReaderSetIff(s, track, order);
      case DataUnpublished(sid, erased) => UnpublishKeepsReaderSetIff(s, sid, erased);
      case Stop => assert Wanted(Locked(s, op).state) == {};
    }
  }

  lemma {:induction false} KeptSoFar(states: seq<Sys>, steps: seq<Step>, n: nat)
    requires IsRun(states, steps) && n < |states|
    requires forall i | 0 <= i < n && steps[i].Enter? :: KeepsReaderSet(states[i].state, steps[i].op)
    ensures ReadersAsWanted(states[n].state)
  {
    hide KeepsReaderSet, Locked;
    if n > 0 {
      KeptSoFar(states, steps, n - 1);
      if steps[n - 1].Enter? {
        MapsAgree(states, steps, n - 1);
        assert Enabled(states[n - 1], steps[n - 1]);
        KeepsReaderSetIff(states[n - 1].state, steps[n - 1].op);
      }
    }
  }

  /** With no assumption: the reader set is right in every state of a run iff every operation meets its condition. */
  lemma ReaderSetIff(states: seq<Sys>, steps: seq<Step>)
    requires IsRun(states, steps)
    ensures (forall n | 0 <= n < |states| :: ReadersAsWanted(states[n].state)) <==>
            (forall i | 0 <= i < |steps| && steps[i].Enter? :: KeepsReaderSet(states[i].state, steps[i].op))
  {
    if forall n | 0 <= n < |states| :: ReadersAsWanted(states[n].state) {
      forall i | 0 <= i < |steps| && steps[i].Enter?
        ensures KeepsReaderSet(states[i].state, steps[i].op)
      {
        MapsAgree(states, steps, i);
        assert Enabled(states[i], steps[i]);
        KeepsReaderSetIff(states[i].state, steps[i].op);
        assert ReadersAsWanted(states[i + 1].state);
      }
    } else {
      var n :| 0 <= n < |states| && !ReadersAsWanted(states[n].state);
      if forall i | 0 <= i < |steps| && steps[i].Enter? :: KeepsReaderSet(states[i].state, steps[i].op) {
        KeptSoFar(states, steps, n);
        assert false;
      }
    }
  }

  // ---------------------------------------------------------------- a bargain that callers can keep

  /** Few enough callbacks. */
  ghost predicate WithinLimit(s: State) {
    |s.audioCallbacks.Keys + s.videoCallbacks.Keys| + |s.dataCallbacks| <= MAX_ACTIVE_READERS
  }

  /** One key per sid. */
  ghost predicate DistinctSids(s: State) {
    forall k, l | k in s.tracks && l in s.tracks && s.tracks[k].sid == s.tracks[l].sid :: k == l
  }

  lemma ReadersAmongCallbacks(s: State)
    requires Agree(s)
    ensures |s.readers| <= |s.audioCallbacks.Keys + s.videoCallbacks.Keys|
    ensures s.dataReaders.Keys <= s.dataCallbacks.Keys && |s.dataReaders| <= |s.dataCallbacks|
  {
    assert s.readers.Keys <= s.audioCallbacks.Keys + s.videoCallbacks.Keys by {
      assert forall key | key in s.readers :: MediaBacked(s, key);
    }
    SubsetSize(s.readers.Keys, s.audioCallbacks.Keys + s.videoCallbacks.Keys);
    SubsetSize(s.dataReaders.Keys, s.dataCallbacks.Keys);
  }

  lemma AddedCallback(s: State, key: Key, callback: Callback)
    requires Agree(s)
    ensures var s' := AddData(s, key, callback).state;
            && |s'.dataCallbacks| == |s.dataCallbacks| + 1
            && s'.audioCallbacks == s.audioCallbacks && s'.videoCallbacks == s.videoCallbacks
  {
    hide AddData, Fits;
    AddDataShape(s, key, callback);
    assert s.nextId !in s.dataCallbacks;
    hide Agree;
    AddSize(s.dataCallbacks, s.nextId, DataRegistration(key, callback));
  }

  /** Few enough callbacks before and after, and distinct sids, meet every operation's condition. */
  lemma BargainKeeps(s: State, op: Op)
    requires Agree(s) && Allowed(s, op) && WithinLimit(s) && DistinctSids(s) && WithinLimit(Locked(s, op).state)
    ensures KeepsReaderSet(s, op)
  {
    ReadersAmongCallbacks(s);
    match op
    case AddDataCallback(key, cb) =>
      AddedCallback(s, key, cb);
      assert |s.dataReaders.Keys + {s.nextId}| <= |s.dataReaders| + 1;
    case DataPublished(track, _) =>
      SubsetSize(s.dataReaders.Keys + s.RegisteredFor(track.key), s.dataCallbacks.Keys);
    case _ =>
  }

  /**
   As long as callers keep to the limit and sids stay distinct, the data readers are exactly the registered
   callbacks whose key is published, each running its own callback on the track published last.
   */
  lemma ReaderSetIsSpecification(states: seq<Sys>, steps: seq<Step>, n: nat)
    requires IsRun(states, steps) && n < |states|
    requires forall k | 0 <= k <= n :: WithinLimit(states[k].state) && DistinctSids(states[k].state)
    ensures ReadersAsWanted(states[n].state)
    ensures forall id | id in states[n].state.dataReaders :: Backed(states[n].state, id)
  {
    hide Locked, WithinLimit, DistinctSids, KeepsReaderSet;
    forall i | 0 <= i < n && steps[i].Enter?
      ensures KeepsReaderSet(states[i].state, steps[i].op)
    {
      MapsAgree(states, steps, i);
      assert Enabled(states[i], steps[i]);
      assert states[i + 1].state == Locked(states[i].state, steps[i].op).state;
      BargainKeeps(states[i].state, steps[i].op);
    }
    KeptSoFar(states, steps, n);
    MapsAgree(states, steps, n);
  }
}
