/**
 What every run of the dispatcher keeps: the maps agree, each thread has one owner, and, below the reader limit,
 the data readers are exactly the registered callbacks whose track is published.
 */
module DispatcherSafety {
  import opened Common
  import opened DispatcherSpec

  // ---------------------------------------------------------------- map agreement

  /** The reader of `id` runs the registered callback on the track stored under the callback's key. */
  ghost predicate Backed(s: State, id: CallbackId)
    requires id in s.dataReaders
  {
    && id in s.dataCallbacks && s.dataCallbacks[id].callback == s.dataReaders[id].callback
    && s.dataCallbacks[id].key in s.tracks && s.tracks[s.dataCallbacks[id].key] == s.dataReaders[id].track
  }

  ghost predicate MediaBacked(s: State, key: Key)
    requires key in s.readers
  {
    match s.readers[key].kind
    case Audio => key in s.audioCallbacks
    case Video => key in s.videoCallbacks
  }

  ghost predicate MediaAgree(s: State) {
    && (forall key | key in s.readers :: MediaBacked(s, key))
    && |s.readers| <= MAX_ACTIVE_READERS
  }

  /** Agreement of the data maps, where the readers of `stale` may still run a superseded track. */
  ghost predicate DataAgree(s: State, stale: seq<CallbackId>) {
    && (forall id | id in s.dataReaders :: id in s.dataCallbacks && (id in stale || Backed(s, id)))
    && (forall key | key in s.tracks :: s.tracks[key].key == key)
    && (forall id | id in s.dataCallbacks :: id < s.nextId)
    && |s.dataReaders| <= MAX_ACTIVE_READERS
  }

  ghost predicate Agree(s: State) { MediaAgree(s) && DataAgree(s, []) }

  // Media regions

  /** Agreement of the media maps, except that the reader of `key` may have lost its callback. */
  ghost predicate MediaAgreeBut(s: State, key: Key) {
    && (forall k | k in s.readers && k != key :: MediaBacked(s, k))
    && |s.readers| <= MAX_ACTIVE_READERS
  }

  lemma ExtractReaderAgrees(s: State, key: Key)
    requires MediaAgreeBut(s, key)
    ensures var s' := ExtractReader(s, key).state;
            MediaAgree(s') && key !in s'.readers && s' == s.(readers := s'.readers)
  {
    RemoveSize(s.readers, key);
    assert s.(readers := s.readers) == s;
  }

  lemma StartMediaAgrees(s: State, key: Key, kind: MediaKind, callback: Callback, streamOk: bool)
    requires MediaAgree(s) && (if kind.Audio? then key in s.audioCallbacks else key in s.videoCallbacks)
    ensures var s' := StartMedia(s, key, kind, callback, streamOk).state;
            MediaAgree(s') && s' == s.(readers := s'.readers, threads := s'.threads)
  {
    ExtractReaderAgrees(s, key);
    hide ExtractReader;
  }

  lemma StartReaderAgrees(s: State, key: Key, kind: TrackKind, streamOk: bool)
    requires MediaAgree(s)
    ensures var s' := StartReader(s, key, kind, streamOk).state;
            MediaAgree(s') && s' == s.(readers := s'.readers, threads := s'.threads)
  {
    hide StartMedia, MediaAgree;
    var r := StartReader(s, key, kind, streamOk);
    if r == Region(s, {}) {
      assert s.(readers := s.readers, threads := s.threads) == s;
    } else {
      var callback := if kind == Media(Audio) then s.audioCallbacks[key] else s.videoCallbacks[key];
      assert r == StartMedia(s, key, kind.kind, callback, streamOk);
      StartMediaAgrees(s, key, kind.kind, callback, streamOk);
    }
  }

  // Data regions

  lemma ExtractDataReaderAgrees(s: State, id: CallbackId, stale: seq<CallbackId>)
    requires DataAgree(s, [id] + stale)
    ensures var s' := ExtractDataReader(s, id).state;
            DataAgree(s', stale) && id !in s'.dataReaders && s' == s.(dataReaders := s'.dataReaders)
  {
    RemoveSize(s.dataReaders, id);
    assert s.(dataReaders := s.dataReaders) == s;
  }

  lemma StartDataAgrees(s: State, id: CallbackId, track: DataTrack, stale: seq<CallbackId>)
    requires DataAgree(s, [id] + stale) && id in s.dataCallbacks
    requires s.dataCallbacks[id].key in s.tracks && s.tracks[s.dataCallbacks[id].key] == track
    ensures var s' := StartData(s, id, track, s.dataCallbacks[id].callback).state;
            DataAgree(s', stale) && s' == s.(dataReaders := s'.dataReaders, threads := s'.threads)
  {
    ExtractDataReaderAgrees(s, id, stale);
  }

  lemma {:induction false} StartAllAgrees(s: State, track: DataTrack, order: seq<CallbackId>)
    requires DataAgree(s, order) && track.key in s.tracks && s.tracks[track.key] == track
    requires forall id | id in order :: id in s.dataCallbacks && s.dataCallbacks[id].key == track.key
    ensures var s' := StartAll(s, track, order).state;
            DataAgree(s', []) && s' == s.(dataReaders := s'.dataReaders, threads := s'.threads)
    decreases |order|
  {
    if order != [] {
      assert order == [order[0]] + order[1..];
      StartDataAgrees(s, order[0], track, order[1..]);
      StartAllAgrees(StartData(s, order[0], track, s.dataCallbacks[order[0]].callback).state, track, order[1..]);
    }
  }

  lemma PublishAgrees(s: State, track: DataTrack, order: seq<CallbackId>)
    requires DataAgree(s, []) && Allowed(s, DataPublished(track, order))
    ensures var s' := Publish(s, track, order).state;
            DataAgree(s', []) && s' == s.(tracks := s.tracks[track.key := track], dataReaders := s'.dataReaders,
                                          threads := s'.threads)
  {
    StartAllAgrees(s.(tracks := s.tracks[track.key := track]), track, order);
  }

  lemma UnpublishAgrees(s: State, sid: string, erased: Option<Key>)
    requires DataAgree(s, []) && Allowed(s, DataUnpublished(sid, erased))
    ensures DataAgree(Unpublish(s, sid, erased).state, [])
  {
    RemoveAllSize(s.dataReaders, s.ReadersOf(sid));
  }

  lemma AddDataAgrees(s: State, key: Key, callback: Callback)
    requires DataAgree(s, [])
    ensures var s' := AddData(s, key, callback).state;
            DataAgree(s', []) && s'.readers == s.readers
            && s'.audioCallbacks == s.audioCallbacks && s'.videoCallbacks == s.videoCallbacks
  {
    var id := s.nextId;
    var s' := s.(nextId := id + 1, dataCallbacks := s.dataCallbacks[id := DataRegistration(key, callback)]);
    if key in s.tracks {
      StartDataAgrees(s', id, s.tracks[key], []);
    }
  }

  lemma RemoveDataAgrees(s: State, id: CallbackId)
    requires DataAgree(s, [])
    ensures var s' := Locked(s, RemoveDataCallback(id)).state;
            DataAgree(s', []) && s'.readers == s.readers
            && s'.audioCallbacks == s.audioCallbacks && s'.videoCallbacks == s.videoCallbacks
  {
    RemoveDataShape(s, id);
    RemovedAgree(s, id);
    hide Locked, DataAgree;
  }

  lemma RemovedAgree(s: State, id: CallbackId)
    requires DataAgree(s, [])
    ensures DataAgree(s.(dataCallbacks := s.dataCallbacks - {id}, dataReaders := s.dataReaders - {id}), [])
  {
    RemoveSize(s.dataReaders, id);
    hide Backed;
    var s' := s.(dataCallbacks := s.dataCallbacks - {id}, dataReaders := s.dataReaders - {id});
    forall other | other in s'.dataReaders
      ensures other in s'.dataCallbacks && Backed(s', other)
    {
      RemovedBacked(s, id, other);
    }
  }

  lemma RemovedBacked(s: State, id: CallbackId, other: CallbackId)
    requires other in s.dataReaders && Backed(s, other) && other != id
    ensures Backed(s.(dataCallbacks := s.dataCallbacks - {id}, dataReaders := s.dataReaders - {id}), other)
  {
  }

  lemma RemoveDataShape(s: State, id: CallbackId)
    ensures Locked(s, RemoveDataCallback(id)).state ==
            s.(dataCallbacks := s.dataCallbacks - {id}, dataReaders := s.dataReaders - {id})
  {
    if id !in s.dataReaders {
      RemoveAbsent(s.dataReaders, id);
    }
  }

  /** The operations of the media side leave the data side alone, and the other way round. */
  ghost predicate IsMediaOp(op: Op) {
    op.SetAudio? || op.SetVideo? || op.ClearAudio? || op.ClearVideo? || op.TrackSubscribed? || op.TrackUnsubscribed?
  }

  lemma MediaOpAgrees(s: State, op: Op)
    requires MediaAgree(s) && IsMediaOp(op)
    ensures var s' := Locked(s, op).state;
            && MediaAgree(s') && s'.dataCallbacks == s.dataCallbacks && s'.dataReaders == s.dataReaders
            && s'.tracks == s.tracks && s'.nextId == s.nextId
  {
    match op
    case SetAudio(_, _) =>
    case SetVideo(_, _) =>
    case ClearAudio(key) => ExtractReaderAgrees(s.(audioCallbacks := s.audioCallbacks - {key}), key);
    case ClearVideo(key) => ExtractReaderAgrees(s.(videoCallbacks := s.videoCallbacks - {key}), key);
    case TrackSubscribed(key, kind, ok) => StartReaderAgrees(s, key, kind, ok);
    case TrackUnsubscribed(key) => ExtractReaderAgrees(s, key);
  }

  lemma DataOpAgrees(s: State, op: Op)
    requires DataAgree(s, []) && Allowed(s, op) && !IsMediaOp(op) && !op.Stop?
    ensures var s' := Locked(s, op).state;
            && DataAgree(s', []) && s'.readers == s.readers
            && s'.audioCallbacks == s.audioCallbacks && s'.videoCallbacks == s.videoCallbacks
  {
    match op
    case AddDataCallback(key, cb) => AddDataAgrees(s, key, cb);
    case RemoveDataCallback(id) => RemoveDataAgrees(s, id);
    case DataPublished(track, order) => PublishAgrees(s, track, order);
    case DataUnpublished(sid, erased) => UnpublishAgrees(s, sid, erased);
  }

  /** Every locked region keeps the maps in agreement and both reader counts within the limit. */
  lemma LockedAgrees(s: State, op: Op)
    requires Agree(s) && Allowed(s, op)
    ensures Agree(Locked(s, op).state)
  {
    if IsMediaOp(op) {
      MediaOpAgrees(s, op);
    } else if !op.Stop? {
      DataOpAgrees(s, op);
    }
  }

  // ---------------------------------------------------------------- thread ownership

  ghost function MediaMap(s: State): map<Key, ThreadId> { map key | key in s.readers :: s.readers[key].thread }

  ghost function DataMap(s: State): map<CallbackId, ThreadId> {
    map id | id in s.dataReaders :: s.dataReaders[id].thread
  }

  ghost function Owned(s: State): set<ThreadId> { MediaMap(s).Values + DataMap(s).Values }

  ghost function Below(n: ThreadId): (ts: set<ThreadId>)
    ensures forall t: ThreadId :: t in ts <==> t < n
  {
    if n == 0 then {} else Below(n - 1) + {n - 1}
  }

  ghost predicate Injective<K>(m: map<K, ThreadId>) {
    forall k, l | k in m && l in m && m[k] == m[l] :: k == l
  }

  /** Each thread in the maps is owned by one entry of one map, and was started. */
  ghost predicate OwnedOnce(s: State) {
    && Injective(MediaMap(s)) && Injective(DataMap(s))
    && MediaMap(s).Values !! DataMap(s).Values
    && Owned(s) <= Below(s.threads)
  }

  /** A region hands over exactly the threads it removes from the maps, and starts the ones it adds. */
  ghost predicate Moves(s: State, r: Region) {
    && s.threads <= r.state.threads
    && OwnedOnce(r.state)
    && Owned(r.state) + r.toJoin == Owned(s) + (Below(r.state.threads) - Below(s.threads))
    && Owned(r.state) !! r.toJoin
  }

  lemma RemoveValue<K>(m: map<K, ThreadId>, k: K)
    requires Injective(m) && k in m
    ensures Injective(m - {k}) && m[k] in m.Values && (m - {k}).Values == m.Values - {m[k]}
  {
    forall v | v in m.Values - {m[k]}
      ensures v in (m - {k}).Values
    {
      var l :| l in m && m[l] == v;
      assert (m - {k})[l] == v;
    }
  }

  lemma RemoveValues<K>(m: map<K, ThreadId>, ks: set<K>)
    requires Injective(m) && ks <= m.Keys
    ensures Injective(m - ks)
    ensures var gone := set k | k in ks :: m[k]; gone <= m.Values && (m - ks).Values == m.Values - gone
  {
    forall k | k in m && k !in ks
      ensures m[k] in (m - ks).Values
    {
      assert (m - ks)[k] == m[k];
    }
    forall k | k in m - ks
      ensures (m - ks)[k] in m.Values && k in m
    {
    }
  }

  lemma AddValue<K>(m: map<K, ThreadId>, k: K, t: ThreadId)
    requires Injective(m) && k !in m && t !in m.Values
    ensures Injective(m[k := t]) && m[k := t].Values == m.Values + {t}
  {
    var m' := m[k := t];
    forall l | l in m
      ensures m[l] in m'.Values && m[l] in m.Values
    {
      assert m'[l] == m[l];
    }
    assert m'[k] == t;
  }

  lemma MovesCompose(s: State, first: Region, second: Region)
    requires OwnedOnce(s) && Moves(s, first) && Moves(first.state, second)
    ensures Moves(s, Region(second.state, first.toJoin + second.toJoin))
  {
  }

  lemma ExtractReaderMoves(s: State, key: Key)
    requires OwnedOnce(s)
    ensures Moves(s, ExtractReader(s, key))
  {
    if key in s.readers {
      RemoveValue(MediaMap(s), key);
      assert MediaMap(ExtractReader(s, key).state) == MediaMap(s) - {key};
    }
  }

  lemma ExtractDataReaderMoves(s: State, id: CallbackId)
    requires OwnedOnce(s)
    ensures Moves(s, ExtractDataReader(s, id))
  {
    if id in s.dataReaders {
      RemoveValue(DataMap(s), id);
      assert DataMap(ExtractDataReader(s, id).state) == DataMap(s) - {id};
    }
  }

  lemma StoreReaderMoves(s: State, key: Key, kind: MediaKind, callback: Callback)
    requires OwnedOnce(s) && key !in s.readers
    ensures Moves(s, Region(s.StoreReader(key, kind, callback), {}))
  {
    AddValue(MediaMap(s), key, s.threads);
    assert MediaMap(s.StoreReader(key, kind, callback)) == MediaMap(s)[key := s.threads];
  }

  lemma StoreDataReaderMoves(s: State, id: CallbackId, track: DataTrack, callback: Callback)
    requires OwnedOnce(s) && id !in s.dataReaders
    ensures Moves(s, Region(s.StoreDataReader(id, track, callback), {}))
  {
    AddValue(DataMap(s), id, s.threads);
    assert DataMap(s.StoreDataReader(id, track, callback)) == DataMap(s)[id := s.threads];
  }

  lemma ThenStores(s: State, first: Region, state': State)
    requires OwnedOnce(s) && Moves(s, first) && Moves(first.state, Region(state', {}))
    ensures Moves(s, Region(state', first.toJoin))
  {
    MovesCompose(s, first, Region(state', {}));
    assert first.toJoin + {} == first.toJoin;
  }

  lemma StartMediaMoves(s: State, key: Key, kind: MediaKind, callback: Callback, streamOk: bool)
    requires OwnedOnce(s)
    ensures Moves(s, StartMedia(s, key, kind, callback, streamOk))
  {
    var r := ExtractReader(s, key);
    ExtractReaderMoves(s, key);
    var all := StartMedia(s, key, kind, callback, streamOk);
    if all != r {
      var stored := r.state.StoreReader(key, kind, callback);
      assert all == Region(stored, r.toJoin);
      StoreReaderMoves(r.state, key, kind, callback);
      ThenStores(s, r, stored);
    }
  }

  lemma StartDataMoves(s: State, id: CallbackId, track: DataTrack, callback: Callback)
    requires OwnedOnce(s)
    ensures Moves(s, StartData(s, id, track, callback))
  {
    var r := ExtractDataReader(s, id);
    ExtractDataReaderMoves(s, id);
    var all := StartData(s, id, track, callback);
    if all != r {
      var stored := r.state.StoreDataReader(id, track, callback);
      assert all == Region(stored, r.toJoin);
      StoreDataReaderMoves(r.state, id, track, callback);
      ThenStores(s, r, stored);
    }
  }

  lemma {:induction false} StartAllMoves(s: State, track: DataTrack, order: seq<CallbackId>)
    requires OwnedOnce(s) && forall id | id in order :: id in s.dataCallbacks
    ensures Moves(s, StartAll(s, track, order))
    decreases |order|
  {
    if order != [] {
      var callback := s.dataCallbacks[order[0]].callback;
      var r := StartData(s, order[0], track, callback);
      StartDataMoves(s, order[0], track, callback);
      StartAllMoves(r.state, track, order[1..]);
      MovesCompose(s, r, StartAll(r.state, track, order[1..]));
    }
  }

  lemma UnpublishMoves(s: State, sid: string, erased: Option<Key>)
    requires OwnedOnce(s)
    ensures Moves(s, Unpublish(s, sid, erased))
  {
    var r, ids := Unpublish(s, sid, erased), s.ReadersOf(sid);
    RemoveValues(DataMap(s), ids);
    assert r.toJoin == set id | id in ids :: DataMap(s)[id];
    assert DataMap(r.state) == DataMap(s) - ids;
    assert MediaMap(r.state) == MediaMap(s);
  }

  lemma StopMoves(s: State)
    requires OwnedOnce(s)
    ensures Moves(s, StopAll(s))
  {
    var r := StopAll(s);
    var media, data := MediaMap(s), DataMap(s);
    RemoveValues(media, media.Keys);
    RemoveValues(data, data.Keys);
    assert MediaMap(r.state) == media - media.Keys && DataMap(r.state) == data - data.Keys;
    assert forall key | key in s.readers :: media[key] == s.readers[key].thread;
    assert forall id | id in s.dataReaders :: data[id] == s.dataReaders[id].thread;
    assert r.toJoin == (set k | k in media.Keys :: media[k]) + (set i | i in data.Keys :: data[i]);
  }

  /** A change of callbacks and tracks alone moves no thread. */
  lemma RelabelMoves(s: State, s': State)
    requires OwnedOnce(s) && s'.readers == s.readers && s'.dataReaders == s.dataReaders && s'.threads == s.threads
    ensures OwnedOnce(s') && Owned(s') == Owned(s) && Moves(s, Region(s', {}))
  {
    assert MediaMap(s') == MediaMap(s) && DataMap(s') == DataMap(s);
  }

  lemma AfterRelabel(s: State, s': State, r: Region)
    requires OwnedOnce(s) && s'.readers == s.readers && s'.dataReaders == s.dataReaders && s'.threads == s.threads
    requires OwnedOnce(s') ==> Moves(s', r)
    ensures Moves(s, r)
  {
    RelabelMoves(s, s');
  }

  lemma ClearMoves(s: State, s': State, key: Key)
    requires OwnedOnce(s) && s'.readers == s.readers && s'.dataReaders == s.dataReaders && s'.threads == s.threads
    ensures Moves(s, ExtractReader(s', key))
  {
    RelabelMoves(s, s');
    ExtractReaderMoves(s', key);
    AfterRelabel(s, s', ExtractReader(s', key));
  }

  lemma RemoveDataMoves(s: State, s': State, id: CallbackId)
    requires OwnedOnce(s) && s'.readers == s.readers && s'.dataReaders == s.dataReaders && s'.threads == s.threads
    ensures Moves(s, ExtractDataReader(s', id))
  {
    RelabelMoves(s, s');
    ExtractDataReaderMoves(s', id);
    AfterRelabel(s, s', ExtractDataReader(s', id));
  }

  lemma AddDataMoves(s: State, key: Key, cb: Callback)
    requires OwnedOnce(s)
    ensures Moves(s, AddData(s, key, cb))
  {
    var s' := s.(nextId := s.nextId + 1, dataCallbacks := s.dataCallbacks[s.nextId := DataRegistration(key, cb)]);
    RelabelMoves(s, s');
    var r := AddData(s, key, cb);
    if key in s.tracks {
      assert r == StartData(s', s.nextId, s.tracks[key], cb);
      StartDataMoves(s', s.nextId, s.tracks[key], cb);
      AfterRelabel(s, s', r);
    } else {
      assert r == Region(s', {});
    }
  }

  lemma PublishMoves(s: State, track: DataTrack, order: seq<CallbackId>)
    requires OwnedOnce(s) && forall id | id in order :: id in s.dataCallbacks
    ensures Moves(s, Publish(s, track, order))
  {
    var s' := s.(tracks := s.tracks[track.key := track]);
    RelabelMoves(s, s');
    StartAllMoves(s', track, order);
    AfterRelabel(s, s', StartAll(s', track, order));
  }

  lemma TrackSubscribedMoves(s: State, key: Key, kind: TrackKind, streamOk: bool)
    requires OwnedOnce(s)
    ensures Moves(s, StartReader(s, key, kind, streamOk))
  {
    hide StartMedia, Moves, OwnedOnce;
    var r := StartReader(s, key, kind, streamOk);
    if r != Region(s, {}) {
      var callback := if kind == Media(Audio) then s.audioCallbacks[key] else s.videoCallbacks[key];
      assert kind.Media? && r == StartMedia(s, key, kind.kind, callback, streamOk);
      StartMediaMoves(s, key, kind.kind, callback, streamOk);
    } else {
      RelabelMoves(s, s);
    }
  }

  lemma LockedMoves(s: State, op: Op)
    requires OwnedOnce(s) && Allowed(s, op)
    ensures Moves(s, Locked(s, op))
  {
    match op
    case SetAudio(key, cb) => RelabelMoves(s, s.(audioCallbacks := s.audioCallbacks[key := cb]));
    case SetVideo(key, cb) => RelabelMoves(s, s.(videoCallbacks := s.videoCallbacks[key := cb]));
    case ClearAudio(key) => ClearMoves(s, s.(audioCallbacks := s.audioCallbacks - {key}), key);
    case ClearVideo(key) => ClearMoves(s, s.(videoCallbacks := s.videoCallbacks - {key}), key);
    case TrackSubscribed(key, kind, ok) => TrackSubscribedMoves(s, key, kind, ok);
    case TrackUnsubscribed(key) => ExtractReaderMoves(s, key);
    case AddDataCallback(key, cb) => AddDataMoves(s, key, cb);
    case RemoveDataCallback(id) => RemoveDataMoves(s, s.(dataCallbacks := s.dataCallbacks - {id}), id);
    case DataPublished(track, order) => PublishMoves(s, track, order);
    case DataUnpublished(sid, erased) => UnpublishMoves(s, sid, erased);
    case Stop => StopMoves(s);
  }

  // ---------------------------------------------------------------- threads across interleaved operations

  ghost function HeldThreads(holding: map<OpId, set<ThreadId>>): set<ThreadId> {
    set o, t | o in holding && t in holding[o] :: t
  }

  ghost predicate OneHolder(holding: map<OpId, set<ThreadId>>) {
    forall o, p, t | o in holding && p in holding && t in holding[o] && t in holding[p] :: o == p
  }

  /** Every started thread is in a map, in the hands of one operation about to join it, or joined; never in two. */
  ghost predicate ThreadsConserved(s: Sys) {
    && OwnedOnce(s.state) && OneHolder(s.holding)
    && Below(s.state.threads) == Owned(s.state) + HeldThreads(s.holding) + s.joined
    && Owned(s.state) !! HeldThreads(s.holding)
    && Owned(s.state) !! s.joined
    && HeldThreads(s.holding) !! s.joined
  }

  lemma EnterConserves(s: Sys, o: OpId, op: Op)
    requires ThreadsConserved(s) && o !in s.holding && Allowed(s.state, op)
    ensures ThreadsConserved(Apply(s, Enter(o, op)))
  {
    LockedMoves(s.state, op);
    var r := Locked(s.state, op);
    EnterPartition(s, o, r);
  }

  lemma EnterPartition(s: Sys, o: OpId, r: Region)
    requires ThreadsConserved(s) && o !in s.holding && Moves(s.state, r)
    ensures ThreadsConserved(Sys(r.state, s.holding[o := r.toJoin], s.joined))
  {
    var holding' := s.holding[o := r.toJoin];
    forall t | t in HeldThreads(s.holding)
      ensures t in HeldThreads(holding')
    {
      var p :| p in s.holding && t in s.holding[p];
      assert p in holding' && t in holding'[p];
    }
    assert holding'[o] == r.toJoin;
    assert HeldThreads(holding') == HeldThreads(s.holding) + r.toJoin;
    assert Owned(s.state) <= Below(s.state.threads);
  }

  lemma JoinConserves(s: Sys, o: OpId, thread: ThreadId)
    requires ThreadsConserved(s) && o in s.holding && thread in s.holding[o]
    ensures ThreadsConserved(Apply(s, Join(o, thread))) && thread !in s.joined
  {
    var holding' := s.holding[o := s.holding[o] - {thread}];
    assert thread in HeldThreads(s.holding);
    forall t | t in HeldThreads(s.holding) && t != thread
      ensures t in HeldThreads(holding')
    {
      var p :| p in s.holding && t in s.holding[p];
      assert p in holding' && t in holding'[p];
    }
    assert HeldThreads(holding') == HeldThreads(s.holding) - {thread};
  }

  // ---------------------------------------------------------------- main results, over every run

  /** The maps agree in every reachable state, and neither kind of reader exceeds the limit. */
  lemma {:induction false} MapsAgree(states: seq<Sys>, steps: seq<Step>, i: nat)
    requires IsRun(states, steps) && i < |states|
    ensures Agree(states[i].state)
  {
    if i > 0 {
      MapsAgree(states, steps, i - 1);
      if steps[i - 1].Enter? {
        LockedAgrees(states[i - 1].state, steps[i - 1].op);
      }
    }
  }

  /** Every thread ever started is in one map entry, held by one operation, or joined. */
  lemma {:induction false} ThreadConservation(states: seq<Sys>, steps: seq<Step>, i: nat)
    requires IsRun(states, steps) && i < |states|
    ensures ThreadsConserved(states[i])
  {
    if i == 0 {
      assert MediaMap(Empty) == map[] && DataMap(Empty) == map[];
    } else {
      ThreadConservation(states, steps, i - 1);
      match steps[i - 1] {
        case Enter(o, op) => EnterConserves(states[i - 1], o, op);
        case Join(o, thread) => JoinConserves(states[i - 1], o, thread);
      }
    }
  }

  /** A thread is joined once: the step that joins it finds it unjoined. */
  lemma JoinedOnce(states: seq<Sys>, steps: seq<Step>, i: nat)
    requires IsRun(states, steps) && i < |steps| && steps[i].Join?
    ensures steps[i].thread !in states[i].joined
  {
    ThreadConservation(states, steps, i);
    JoinConserves(states[i], steps[i].o, steps[i].thread);
  }

  lemma StepShrinks(s: Sys, step: Step)
    requires ThreadsConserved(s) && Enabled(s, step)
    ensures var now := Apply(s, step).state;
            s.state.threads <= now.threads && (s.state.threads == now.threads ==> Owned(now) <= Owned(s.state))
  {
    if step.Enter? {
      LockedMoves(s.state, step.op);
      hide Locked, OwnedOnce, Owned;
    }
  }

  /** As long as no reader is started the reader maps only lose threads. */
  lemma {:induction false} OwnedOnlyShrinks(states: seq<Sys>, steps: seq<Step>, i: nat, j: nat)
    requires IsRun(states, steps) && i <= j < |states|
    ensures states[i].state.threads <= states[j].state.threads
    ensures states[i].state.threads == states[j].state.threads ==> Owned(states[j].state) <= Owned(states[i].state)
    decreases j
  {
    hide Owned, Apply, Enabled, ThreadsConserved;
    if i < j {
      OwnedOnlyShrinks(states, steps, i, j - 1);
      ThreadConservation(states, steps, j - 1);
      assert Enabled(states[j - 1], steps[j - 1]);
      StepShrinks(states[j - 1], steps[j - 1]);
    }
  }

  /** All threads are joined exactly when no map entry and no operation has one. */
  lemma AllJoinedIff(states: seq<Sys>, steps: seq<Step>, j: nat)
    requires IsRun(states, steps) && j < |states|
    ensures states[j].joined == Below(states[j].state.threads) <==>
            Owned(states[j].state) == {} && HeldThreads(states[j].holding) == {}
  {
    ThreadConservation(states, steps, j);
  }

  /**
   Whatever operations come after a stopAll, if none of them has started a reader and none still holds a thread,
   then every thread ever started is joined.
   */
  lemma StopAllJoinsEverything(states: seq<Sys>, steps: seq<Step>, i: nat, j: nat)
    requires IsRun(states, steps) && i < j < |states| && steps[i].Enter? && steps[i].op.Stop?
    requires states[j].state.threads == states[i + 1].state.threads
    requires forall o | o in states[j].holding :: states[j].holding[o] == {}
    ensures states[j].joined == Below(states[j].state.threads)
  {
    OwnedOnlyShrinks(states, steps, i + 1, j);
    assert MediaMap(states[i + 1].state) == map[] && DataMap(states[i + 1].state) == map[];
    assert HeldThreads(states[j].holding) == {};
    AllJoinedIff(states, steps, j);
  }
}
