/**
 SubscriptionThreadDispatcher's locked regions as functions on its maps (src/subscription_thread_dispatcher.cpp),
 and the system in which any number of operations run their locked region and then join threads outside the lock.
 */
module DispatcherSpec {
  import opened Common

  type CallbackId = nat
  type ThreadId = nat
  type Callback = nat

  const MAX_ACTIVE_READERS := 20

  datatype Key = Key(participant: string, name: string)

  datatype MediaKind = Audio | Video

  /** A track's kind as startReaderLocked sees it; Unsupported stands for unknown and unsupported kinds. */
  datatype TrackKind = Media(kind: MediaKind) | Unsupported

  datatype DataTrack = DataTrack(sid: string, key: Key, object: nat)

  /** A reader keeps the callback it was started with. */
  datatype MediaReader = MediaReader(kind: MediaKind, callback: Callback, thread: ThreadId)

  datatype DataReader = DataReader(track: DataTrack, callback: Callback, thread: ThreadId)

  datatype DataRegistration = DataRegistration(key: Key, callback: Callback)

  /** The six maps, the next callback id, and the number of threads started so far. */
  datatype State = State(
    audioCallbacks: map<Key, Callback>,
    videoCallbacks: map<Key, Callback>,
    readers: map<Key, MediaReader>,
    dataCallbacks: map<CallbackId, DataRegistration>,
    dataReaders: map<CallbackId, DataReader>,
    tracks: map<Key, DataTrack>,
    nextId: CallbackId,
    threads: ThreadId)
  {
    /** move-assigning over a joinable std::thread terminates the process: the slot must be empty. */
    function StoreReader(key: Key, kind: MediaKind, callback: Callback): State
      requires key !in readers
    {
      this.(readers := readers[key := MediaReader(kind, callback, threads)], threads := threads + 1)
    }

    function StoreDataReader(id: CallbackId, track: DataTrack, callback: Callback): State
      requires id !in dataReaders
    {
      this.(dataReaders := dataReaders[id := DataReader(track, callback, threads)], threads := threads + 1)
    }

    function RegisteredFor(key: Key): set<CallbackId> {
      set id | id in dataCallbacks && dataCallbacks[id].key == key
    }

    function ReadersOf(sid: string): set<CallbackId> {
      set id | id in dataReaders && dataReaders[id].track.sid == sid
    }

    function KeysOf(sid: string): set<Key> {
      set key | key in tracks && tracks[key].sid == sid
    }
  }

  const Empty := State(map[], map[], map[], map[], map[], map[], 0, 0)

  /** What a locked region leaves: the new maps, and the threads it took out and will join after unlocking. */
  datatype Region = Region(state: State, toJoin: set<ThreadId>)

  function ExtractReader(s: State, key: Key): Region {
    if key !in s.readers then Region(s, {})
    else Region(s.(readers := s.readers - {key}), {s.readers[key].thread})
  }

  function ExtractDataReader(s: State, id: CallbackId): Region {
    if id !in s.dataReaders then Region(s, {})
    else Region(s.(dataReaders := s.dataReaders - {id}), {s.dataReaders[id].thread})
  }

  /** startAudioReaderLocked and startVideoReaderLocked: the limit counts media readers only. */
  function StartMedia(s: State, key: Key, kind: MediaKind, callback: Callback, streamOk: bool): Region {
    var r := ExtractReader(s, key);
    if |r.state.readers| >= MAX_ACTIVE_READERS || !streamOk then r
    else r.(state := r.state.StoreReader(key, kind, callback))
  }

  function StartReader(s: State, key: Key, kind: TrackKind, streamOk: bool): Region {
    match kind
    case Unsupported => Region(s, {})
    case Media(Audio) =>
      if key in s.audioCallbacks then StartMedia(s, key, Audio, s.audioCallbacks[key], streamOk) else Region(s, {})
    case Media(Video) =>
      if key in s.videoCallbacks then StartMedia(s, key, Video, s.videoCallbacks[key], streamOk) else Region(s, {})
  }

  /** startDataReaderLocked: the limit counts both kinds of reader. */
  function StartData(s: State, id: CallbackId, track: DataTrack, callback: Callback): Region {
    var r := ExtractDataReader(s, id);
    if |r.state.readers| + |r.state.dataReaders| >= MAX_ACTIVE_READERS then r
    else r.(state := r.state.StoreDataReader(id, track, callback))
  }

  lemma ExtractKeepsCallbacks(s: State, id: CallbackId)
    ensures ExtractDataReader(s, id).state.dataCallbacks == s.dataCallbacks
    ensures id !in ExtractDataReader(s, id).state.dataReaders
  {
  }

  lemma StartDataKeepsCallbacks(s: State, id: CallbackId, track: DataTrack, callback: Callback)
    ensures StartData(s, id, track, callback).state.dataCallbacks == s.dataCallbacks
  {
    hide ExtractDataReader;
    var r := ExtractDataReader(s, id);
    ExtractKeepsCallbacks(s, id);
    assert |r.state.readers| + |r.state.dataReaders| >= MAX_ACTIVE_READERS ==> StartData(s, id, track, callback) == r;
  }

  function AddData(s: State, key: Key, callback: Callback): Region {
    var id := s.nextId;
    var s' := s.(nextId := id + 1, dataCallbacks := s.dataCallbacks[id := DataRegistration(key, callback)]);
    if key in s.tracks then StartData(s', id, s.tracks[key], callback) else Region(s', {})
  }

  /** handleDataTrackPublished's loop, over the callbacks in `order`; the hash map fixes no order of its own. */
  function StartAll(s: State, track: DataTrack, order: seq<CallbackId>): Region
    requires forall id | id in order :: id in s.dataCallbacks
    decreases |order|
  {
    if order == [] then Region(s, {})
    else
      var r := StartData(s, order[0], track, s.dataCallbacks[order[0]].callback);
      var rest := StartAll(r.state, track, order[1..]);
      rest.(toJoin := r.toJoin + rest.toJoin)
  }

  function Publish(s: State, track: DataTrack, order: seq<CallbackId>): Region
    requires forall id | id in order :: id in s.dataCallbacks
  {
    StartAll(s.(tracks := s.tracks[track.key := track]), track, order)
  }

  /** Closes every reader of `sid`; `erased` is the one matching entry of the track map that the scan meets first. */
  function Unpublish(s: State, sid: string, erased: Option<Key>): Region {
    var ids := s.ReadersOf(sid);
    Region(s.(dataReaders := s.dataReaders - ids,
              tracks := if erased.Some? then s.tracks - {erased.value} else s.tracks),
           set id | id in ids :: s.dataReaders[id].thread)
  }

  function StopAll(s: State): Region {
    Region(Empty.(nextId := s.nextId, threads := s.threads),
           (set key | key in s.readers :: s.readers[key].thread) +
           (set id | id in s.dataReaders :: s.dataReaders[id].thread))
  }

  /** The public operations, with the environment's choices. */
  datatype Op =
    | SetAudio(key: Key, callback: Callback) | SetVideo(key: Key, callback: Callback)
    | ClearAudio(key: Key) | ClearVideo(key: Key)
    | TrackSubscribed(key: Key, kind: TrackKind, streamOk: bool) | TrackUnsubscribed(key: Key)
    | AddDataCallback(key: Key, callback: Callback) | RemoveDataCallback(id: CallbackId)
    | DataPublished(track: DataTrack, order: seq<CallbackId>)
    | DataUnpublished(sid: string, erased: Option<Key>)
    | Stop

  predicate Distinct(order: seq<CallbackId>) {
    forall i, j | 0 <= i < j < |order| :: order[i] != order[j]
  }

  /** The choices an operation can be given: some enumeration of the matching callbacks, some matching entry. */
  ghost predicate Allowed(s: State, op: Op) {
    match op
    case DataPublished(track, order) =>
      Distinct(order) && forall id :: id in order <==> id in s.RegisteredFor(track.key)
    case DataUnpublished(sid, None) => s.KeysOf(sid) == {}
    case DataUnpublished(sid, Some(key)) => key in s.KeysOf(sid)
    case _ => true
  }

  ghost function Locked(s: State, op: Op): Region
    requires Allowed(s, op)
  {
    match op
    case SetAudio(key, cb) => Region(s.(audioCallbacks := s.audioCallbacks[key := cb]), {})
    case SetVideo(key, cb) => Region(s.(videoCallbacks := s.videoCallbacks[key := cb]), {})
    case ClearAudio(key) => ExtractReader(s.(audioCallbacks := s.audioCallbacks - {key}), key)
    case ClearVideo(key) => ExtractReader(s.(videoCallbacks := s.videoCallbacks - {key}), key)
    case TrackSubscribed(key, kind, ok) => StartReader(s, key, kind, ok)
    case TrackUnsubscribed(key) => ExtractReader(s, key)
    case AddDataCallback(key, cb) => AddData(s, key, cb)
    case RemoveDataCallback(id) => ExtractDataReader(s.(dataCallbacks := s.dataCallbacks - {id}), id)
    case DataPublished(track, order) => Publish(s, track, order)
    case DataUnpublished(sid, erased) => Unpublish(s, sid, erased)
    case Stop => StopAll(s)
  }

  // ---------------------------------------------------------------- interleaved operations

  type OpId = nat

  /** `holding` gives the threads each started operation has taken out and not joined yet. */
  datatype Sys = Sys(state: State, holding: map<OpId, set<ThreadId>>, joined: set<ThreadId>)

  datatype Step = Enter(o: OpId, op: Op) | Join(o: OpId, thread: ThreadId)

  ghost predicate Enabled(s: Sys, step: Step) {
    match step
    case Enter(o, op) => o !in s.holding && Allowed(s.state, op)
    case Join(o, thread) => o in s.holding && thread in s.holding[o]
  }

  ghost function Apply(s: Sys, step: Step): Sys
    requires Enabled(s, step)
  {
    match step
    case Enter(o, op) =>
      var r := Locked(s.state, op);
      Sys(r.state, s.holding[o := r.toJoin], s.joined)
    case Join(o, thread) => Sys(s.state, s.holding[o := s.holding[o] - {thread}], s.joined + {thread})
  }

  ghost predicate IsRun(states: seq<Sys>, steps: seq<Step>) {
    && |states| == |steps| + 1
    && states[0] == Sys(Empty, map[], {})
    && forall i | 0 <= i < |steps| :: Enabled(states[i], steps[i]) && states[i + 1] == Apply(states[i], steps[i])
  }
}
