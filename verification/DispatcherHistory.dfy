/**
 The dispatcher's maps by the operations that were run: what is registered, published and subscribed is what was
 last said about it, and when exactly the media readers are the subscribed keys that have a callback of their kind.
 */
module DispatcherHistory {
  import opened Common
  import opened DispatcherSpec
  import opened DispatcherSafety

  // ---------------------------------------------------------------- what a sequence of operations says

  /** The operations of a run, in the order of their locked regions. */
  ghost function Ops(steps: seq<Step>): (ops: seq<Op>)
    ensures |ops| <= |steps|
  {
    if steps == [] then []
    else
      var last := steps[|steps| - 1];
      Ops(steps[..|steps| - 1]) + if last.Enter? then [last.op] else []
  }

  /** The audio callback set last, if it has not been cleared since. */
  function AudioSet(ops: seq<Op>, key: Key): Option<Callback> {
    if ops == [] then None
    else
      var before := AudioSet(ops[..|ops| - 1], key);
      match ops[|ops| - 1]
      case SetAudio(k, callback) => if k == key then Some(callback) else before
      case ClearAudio(k) => if k == key then None else before
      case Stop => None
      case _ => before
  }

  function VideoSet(ops: seq<Op>, key: Key): Option<Callback> {
    if ops == [] then None
    else
      var before := VideoSet(ops[..|ops| - 1], key);
      match ops[|ops| - 1]
      case SetVideo(k, callback) => if k == key then Some(callback) else before
      case ClearVideo(k) => if k == key then None else before
      case Stop => None
      case _ => before
  }

  /** How many data callbacks were ever added; the next one gets this id. */
  function Added(ops: seq<Op>): nat {
    if ops == [] then 0 else Added(ops[..|ops| - 1]) + if ops[|ops| - 1].AddDataCallback? then 1 else 0
  }

  function DataSet(ops: seq<Op>, id: CallbackId): Option<DataRegistration> {
    if ops == [] then None
    else
      var before := DataSet(ops[..|ops| - 1], id);
      match ops[|ops| - 1]
      case AddDataCallback(key, callback) =>
        if id == Added(ops[..|ops| - 1]) then Some(DataRegistration(key, callback)) else before
      case RemoveDataCallback(i) => if i == id then None else before
      case Stop => None
      case _ => before
  }

  /** The data track published last under `key`, if its entry has not been erased since. */
  function Published(ops: seq<Op>, key: Key): Option<DataTrack> {
    if ops == [] then None
    else
      var before := Published(ops[..|ops| - 1], key);
      match ops[|ops| - 1]
      case DataPublished(track, _) => if track.key == key then Some(track) else before
      case DataUnpublished(_, erased) => if erased == Some(key) then None else before
      case Stop => None
      case _ => before
  }

  /** The kind of the track subscribed under `key`, if it has not been unsubscribed; stopping ends no subscription. */
  function Subscribed(ops: seq<Op>, key: Key): Option<TrackKind> {
    if ops == [] then None
    else
      var before := Subscribed(ops[..|ops| - 1], key);
      match ops[|ops| - 1]
      case TrackSubscribed(k, kind, _) => if k == key then Some(kind) else before
      case TrackUnsubscribed(k) => if k == key then None else before
      case _ => before
  }

  function Lookup<K, V>(m: map<K, V>, k: K): Option<V> { if k in m then Some(m[k]) else None }

  // ---------------------------------------------------------------- what each region leaves

  /** Only the data readers and the number of threads differ. */
  ghost predicate OnlyDataReaders(s: State, s': State) {
    s' == s.(dataReaders := s'.dataReaders, threads := s'.threads)
  }

  lemma ExtractOnly(s: State, id: CallbackId)
    ensures OnlyDataReaders(s, ExtractDataReader(s, id).state) && id !in ExtractDataReader(s, id).state.dataReaders
  {
    assert s.(dataReaders := s.dataReaders, threads := s.threads) == s;
  }

  lemma StartDataOnly(s: State, id: CallbackId, track: DataTrack, callback: Callback)
    ensures OnlyDataReaders(s, StartData(s, id, track, callback).state)
  {
    ExtractOnly(s, id);
    hide ExtractDataReader;
  }

  lemma {:induction false} StartAllOnly(s: State, track: DataTrack, order: seq<CallbackId>)
    requires forall id | id in order :: id in s.dataCallbacks
    ensures OnlyDataReaders(s, StartAll(s, track, order).state)
    decreases |order|
  {
    hide StartData;
    if order == [] {
      assert s.(dataReaders := s.dataReaders, threads := s.threads) == s;
    } else {
      StartDataOnly(s, order[0], track, s.dataCallbacks[order[0]].callback);
      StartAllOnly(StartData(s, order[0], track, s.dataCallbacks[order[0]].callback).state, track, order[1..]);
    }
  }

  /** The registrations and tracks after an operation. */
  ghost predicate Leaves(s: State, op: Op, s': State) {
    && s'.audioCallbacks == (match op
                             case SetAudio(key, callback) => s.audioCallbacks[key := callback]
                             case ClearAudio(key) => s.audioCallbacks - {key}
                             case Stop => map[]
                             case _ => s.audioCallbacks)
    && s'.videoCallbacks == (match op
                             case SetVideo(key, callback) => s.videoCallbacks[key := callback]
                             case ClearVideo(key) => s.videoCallbacks - {key}
                             case Stop => map[]
                             case _ => s.videoCallbacks)
    && s'.dataCallbacks == (match op
                            case AddDataCallback(key, callback) =>
                              s.dataCallbacks[s.nextId := DataRegistration(key, callback)]
                            case RemoveDataCallback(id) => s.dataCallbacks - {id}
                            case Stop => map[]
                            case _ => s.dataCallbacks)
    && s'.tracks == (match op
                     case DataPublished(track, _) => s.tracks[track.key := track]
                     case DataUnpublished(_, erased) => if erased.Some? then s.tracks - {erased.value} else s.tracks
                     case Stop => map[]
                     case _ => s.tracks)
    && s'.nextId == s.nextId + if op.AddDataCallback? then 1 else 0
  }

  // ---- the media regions

  /** Taking out a key's reader leaves the key without one, and its thread to be joined. */
  lemma ExtractReaderIs(s: State, key: Key)
    ensures var r := ExtractReader(s, key);
            && r.state == s.(readers := s.readers - {key})
            && r.toJoin == if key in s.readers then {s.readers[key].thread} else {}
  {
    if key !in s.readers {
      RemoveAbsent(s.readers, key);
      assert s.(readers := s.readers) == s;
    }
  }

  /** The other keys' readers leave room for one of `key`. */
  ghost predicate HasRoom(readers: map<Key, MediaReader>, key: Key) { |readers - {key}| < MAX_ACTIVE_READERS }

  /** The media readers after an operation, from what the maps say before it. */
  ghost function ReadersLeft(s: State, op: Op): map<Key, MediaReader> {
    match op
    case ClearAudio(key) => s.readers - {key}
    case ClearVideo(key) => s.readers - {key}
    case TrackUnsubscribed(key) => s.readers - {key}
    case TrackSubscribed(key, kind, ok) =>
      var callback := CallbackOfKind(s, key, kind);
      if callback.None? then s.readers
      else if ok && HasRoom(s.readers, key) then
        (s.readers - {key})[key := MediaReader(kind.kind, callback.value, s.threads)]
      else s.readers - {key}
    case Stop => map[]
    case _ => s.readers
  }

  function CallbackOfKind(s: State, key: Key, kind: TrackKind): (callback: Option<Callback>)
    ensures callback.Some? ==> kind.Media?
  {
    match kind
    case Media(Audio) => Lookup(s.audioCallbacks, key)
    case Media(Video) => Lookup(s.videoCallbacks, key)
    case Unsupported => None
  }

  lemma StartMediaIs(s: State, key: Key, kind: MediaKind, callback: Callback, streamOk: bool)
    ensures var s', rest := StartMedia(s, key, kind, callback, streamOk).state, s.readers - {key};
            && s' == s.(readers := s'.readers, threads := s'.threads)
            && s'.readers == if streamOk && |rest| < MAX_ACTIVE_READERS
                             then rest[key := MediaReader(kind, callback, s.threads)] else rest
  {
    ExtractReaderIs(s, key);
    hide ExtractReader;
  }

  lemma StartReaderIs(s: State, key: Key, kind: TrackKind, streamOk: bool)
    ensures StartReader(s, key, kind, streamOk) ==
            match CallbackOfKind(s, key, kind)
            case Some(callback) => StartMedia(s, key, kind.kind, callback, streamOk)
            case None => Region(s, {})
  {
    hide StartMedia;
  }

  lemma OnlyReadersLeaves(s: State, s': State, op: Op)
    requires op.TrackSubscribed?
    ensures s' == s.(readers := s'.readers, threads := s'.threads) ==> Leaves(s, op, s')
  {
  }

  lemma SubscribedLeaves(s: State, key: Key, kind: TrackKind, streamOk: bool)
    ensures var s', op := StartReader(s, key, kind, streamOk).state, TrackSubscribed(key, kind, streamOk);
            s'.readers == ReadersLeft(s, op) && Leaves(s, op, s')
  {
    hide StartMedia, StartReader, CallbackOfKind, Leaves;
    OnlyReadersLeaves(s, StartReader(s, key, kind, streamOk).state, TrackSubscribed(key, kind, streamOk));
    StartReaderIs(s, key, kind, streamOk);
    var callback := CallbackOfKind(s, key, kind);
    if callback.Some? {
      StartMediaIs(s, key, kind.kind, callback.value, streamOk);
    }
  }

  lemma SetLeaves(s: State, op: Op)
    requires op.SetAudio? || op.SetVideo?
    ensures Leaves(s, op, Locked(s, op).state) && Locked(s, op).state.readers == ReadersLeft(s, op)
  {
  }

  lemma ExtractLeaves(s: State, op: Op)
    requires op.ClearAudio? || op.ClearVideo? || op.TrackUnsubscribed?
    ensures Leaves(s, op, Locked(s, op).state) && Locked(s, op).state.readers == ReadersLeft(s, op)
    ensures Locked(s, op).toJoin == if op.key in s.readers then {s.readers[op.key].thread} else {}
  {
    hide ExtractReader;
    ExtractReaderIs(if op.ClearAudio? then s.(audioCallbacks := s.audioCallbacks - {op.key})
                    else if op.ClearVideo? then s.(videoCallbacks := s.videoCallbacks - {op.key}) else s, op.key);
  }

  lemma MediaOpLeaves(s: State, op: Op)
    requires IsMediaOp(op)
    ensures Leaves(s, op, Locked(s, op).state) && Locked(s, op).state.readers == ReadersLeft(s, op)
  {
    hide Leaves, ReadersLeft;
    if op.TrackSubscribed? {
      SubscribedLeaves(s, op.key, op.kind, op.streamOk);
    } else if op.SetAudio? || op.SetVideo? {
      SetLeaves(s, op);
    } else {
      ExtractLeaves(s, op);
    }
  }

  // ---- the data regions

  lemma AddDataLeaves(s: State, key: Key, callback: Callback)
    ensures var s' := AddData(s, key, callback).state;
            Leaves(s, AddDataCallback(key, callback), s') && s'.readers == s.readers
  {
    hide StartData;
    var registered := s.(nextId := s.nextId + 1,
                         dataCallbacks := s.dataCallbacks[s.nextId := DataRegistration(key, callback)]);
    if key in s.tracks {
      StartDataOnly(registered, s.nextId, s.tracks[key], callback);
    }
  }

  lemma PublishLeaves(s: State, track: DataTrack, order: seq<CallbackId>)
    requires forall id | id in order :: id in s.dataCallbacks
    ensures var s' := Publish(s, track, order).state;
            Leaves(s, DataPublished(track, order), s') && s'.readers == s.readers
  {
    hide StartAll;
    StartAllOnly(s.(tracks := s.tracks[track.key := track]), track, order);
  }

  lemma DataOpLeaves(s: State, op: Op)
    requires Allowed(s, op) && !IsMediaOp(op)
    ensures Leaves(s, op, Locked(s, op).state) && Locked(s, op).state.readers == ReadersLeft(s, op)
  {
    hide ExtractDataReader, AddData, Publish;
    match op
    case AddDataCallback(key, callback) => AddDataLeaves(s, key, callback);
    case RemoveDataCallback(id) => ExtractOnly(s.(dataCallbacks := s.dataCallbacks - {id}), id);
    case DataPublished(track, order) => PublishLeaves(s, track, order);
    case DataUnpublished(_, _) =>
    case Stop =>
  }

  lemma LockedLeaves(s: State, op: Op)
    requires Allowed(s, op)
    ensures Leaves(s, op, Locked(s, op).state) && Locked(s, op).state.readers == ReadersLeft(s, op)
  {
    hide Leaves, ReadersLeft, Locked;
    if IsMediaOp(op) {
      MediaOpLeaves(s, op);
    } else {
      DataOpLeaves(s, op);
    }
  }

  // ---------------------------------------------------------------- the maps are what was last said

  ghost predicate SaysAudio(s: State, ops: seq<Op>) {
    forall key :: Lookup(s.audioCallbacks, key) == AudioSet(ops, key)
  }

  ghost predicate SaysVideo(s: State, ops: seq<Op>) {
    forall key :: Lookup(s.videoCallbacks, key) == VideoSet(ops, key)
  }

  ghost predicate SaysData(s: State, ops: seq<Op>) {
    s.nextId == Added(ops) && forall id: CallbackId :: Lookup(s.dataCallbacks, id) == DataSet(ops, id)
  }

  ghost predicate SaysTracks(s: State, ops: seq<Op>) {
    forall key :: Lookup(s.tracks, key) == Published(ops, key)
  }

  lemma SaysAudioNext(s: State, ops: seq<Op>, op: Op, s': State)
    requires SaysAudio(s, ops) && Leaves(s, op, s')
    ensures SaysAudio(s', ops + [op])
  {
    assert (ops + [op])[..|ops|] == ops;
  }

  lemma SaysVideoNext(s: State, ops: seq<Op>, op: Op, s': State)
    requires SaysVideo(s, ops) && Leaves(s, op, s')
    ensures SaysVideo(s', ops + [op])
  {
    assert (ops + [op])[..|ops|] == ops;
  }

  lemma SaysDataNext(s: State, ops: seq<Op>, op: Op, s': State)
    requires SaysData(s, ops) && Leaves(s, op, s')
    ensures SaysData(s', ops + [op])
  {
    assert (ops + [op])[..|ops|] == ops;
  }

  lemma SaysTracksNext(s: State, ops: seq<Op>, op: Op, s': State)
    requires SaysTracks(s, ops) && Leaves(s, op, s')
    ensures SaysTracks(s', ops + [op])
  {
    assert (ops + [op])[..|ops|] == ops;
  }

  ghost predicate Says(s: State, ops: seq<Op>) {
    SaysAudio(s, ops) && SaysVideo(s, ops) && SaysData(s, ops) && SaysTracks(s, ops)
  }

  lemma OpsNext(steps: seq<Step>, n: nat)
    requires n < |steps|
    ensures Ops(steps[..n + 1]) == if steps[n].Enter? then Ops(steps[..n]) + [steps[n].op] else Ops(steps[..n])
  {
    assert steps[..n + 1][..n] == steps[..n];
  }

  /** In every run: each callback, registration and published track is the one the operations set last. */
  lemma {:induction false} MapsAreHistory(states: seq<Sys>, steps: seq<Step>, n: nat)
    requires IsRun(states, steps) && n <= |steps|
    ensures Says(states[n].state, Ops(steps[..n]))
    decreases n
  {
    if n > 0 {
      hide Locked, Leaves, SaysAudio, SaysVideo, SaysData, SaysTracks;
      MapsAreHistory(states, steps, n - 1);
      OpsNext(steps, n - 1);
      var s, step, ops := states[n - 1], steps[n - 1], Ops(steps[..n - 1]);
      assert Enabled(s, step);
      if step.Enter? {
        var s' := Locked(s.state, step.op).state;
        LockedLeaves(s.state, step.op);
        SaysAudioNext(s.state, ops, step.op, s');
        SaysVideoNext(s.state, ops, step.op, s');
        SaysDataNext(s.state, ops, step.op, s');
        SaysTracksNext(s.state, ops, step.op, s');
      }
    } else {
      NothingSaid(steps);
    }
  }

  lemma NothingSaid(steps: seq<Step>)
    ensures Ops(steps[..0]) == [] && Says(Empty, [])
  {
  }

  // ---------------------------------------------------------------- the media readers

  /** The callback of a track's kind that is registered for its key. */
  function CallbackFor(ops: seq<Op>, key: Key, kind: TrackKind): Option<Callback> {
    match kind
    case Media(Audio) => AudioSet(ops, key)
    case Media(Video) => VideoSet(ops, key)
    case Unsupported => None
  }

  /** The kind of reader a key should have: that of its subscribed track, if a callback of that kind is registered. */
  function WantedKind(ops: seq<Op>, key: Key): Option<MediaKind> {
    Wants(Subscribed(ops, key), AudioSet(ops, key), VideoSet(ops, key))
  }

  function Wants(track: Option<TrackKind>, audio: Option<Callback>, video: Option<Callback>): Option<MediaKind> {
    match track
    case Some(Media(Audio)) => if audio.Some? then Some(Audio) else None
    case Some(Media(Video)) => if video.Some? then Some(Video) else None
    case _ => None
  }

  function KindOf(readers: map<Key, MediaReader>, key: Key): Option<MediaKind> {
    if key in readers then Some(readers[key].kind) else None
  }

  /** The media readers are exactly the subscribed keys that have a callback of their track's kind. */
  ghost predicate MediaAsWanted(readers: map<Key, MediaReader>, ops: seq<Op>) {
    forall key :: KindOf(readers, key) == WantedKind(ops, key)
  }

  /**
   What an operation must meet to keep the media readers right. A callback registered after its track was subscribed
   starts no reader; clearing one kind's callback stops the key's reader of either kind; a subscription starts its
   reader only within the limit and with a stream, and leaves the key's old reader alone if it starts none at all.
   */
  ghost predicate KeepsMedia(readers: map<Key, MediaReader>, ops: seq<Op>, op: Op) {
    match op
    case SetAudio(key, _) => Subscribed(ops, key) == Some(Media(Audio)) ==> AudioSet(ops, key).Some?
    case SetVideo(key, _) => Subscribed(ops, key) == Some(Media(Video)) ==> VideoSet(ops, key).Some?
    case ClearAudio(key) => WantedKind(ops, key) != Some(Video)
    case ClearVideo(key) => WantedKind(ops, key) != Some(Audio)
    case TrackSubscribed(key, kind, streamOk) =>
      if CallbackFor(ops, key, kind).Some? then streamOk && HasRoom(readers, key)
      else key !in readers
    case _ => true
  }

  lemma SaidNext(ops: seq<Op>, op: Op, key: Key)
    ensures AudioSet(ops + [op], key) == (match op
                                          case SetAudio(k, callback) =>
                                            if k == key then Some(callback) else AudioSet(ops, key)
                                          case ClearAudio(k) => if k == key then None else AudioSet(ops, key)
                                          case Stop => None
                                          case _ => AudioSet(ops, key))
    ensures VideoSet(ops + [op], key) == (match op
                                          case SetVideo(k, callback) =>
                                            if k == key then Some(callback) else VideoSet(ops, key)
                                          case ClearVideo(k) => if k == key then None else VideoSet(ops, key)
                                          case Stop => None
                                          case _ => VideoSet(ops, key))
    ensures Subscribed(ops + [op], key) == (match op
                                            case TrackSubscribed(k, kind, _) =>
                                              if k == key then Some(kind) else Subscribed(ops, key)
                                            case TrackUnsubscribed(k) => if k == key then None else Subscribed(ops, key)
                                            case _ => Subscribed(ops, key))
  {
    assert (ops + [op])[..|ops|] == ops;
  }

  /** The key whose reader an operation of the media side is about. */
  function KeyOf(op: Op): Option<Key> {
    match op
    case SetAudio(key, _) => Some(key)
    case SetVideo(key, _) => Some(key)
    case ClearAudio(key) => Some(key)
    case ClearVideo(key) => Some(key)
    case TrackSubscribed(key, _, _) => Some(key)
    case TrackUnsubscribed(key) => Some(key)
    case _ => None
  }

  lemma OtherKeysKept(s: State, ops: seq<Op>, op: Op, key: Key)
    requires KindOf(s.readers, key) == WantedKind(ops, key) && KeyOf(op) != Some(key)
    ensures KindOf(ReadersLeft(s, op), key) == WantedKind(ops + [op], key)
  {
    hide AudioSet, VideoSet, Subscribed;
    SaidNext(ops, op, key);
  }

  /** What the key of an operation wants after it. */
  lemma WantedNext(ops: seq<Op>, op: Op, key: Key)
    requires KeyOf(op) == Some(key)
    ensures var track, audio, video := Subscribed(ops, key), AudioSet(ops, key), VideoSet(ops, key);
            WantedKind(ops + [op], key) ==
            match op
            case SetAudio(_, callback) => Wants(track, Some(callback), video)
            case SetVideo(_, callback) => Wants(track, audio, Some(callback))
            case ClearAudio(_) => Wants(track, None, video)
            case ClearVideo(_) => Wants(track, audio, None)
            case TrackSubscribed(_, kind, _) => Wants(Some(kind), audio, video)
            case _ => Wants(None, audio, video)
  {
    hide AudioSet, VideoSet, Subscribed, Wants;
    SaidNext(ops, op, key);
  }

  lemma WantedIs(ops: seq<Op>, key: Key)
    ensures WantedKind(ops, key) == Wants(Subscribed(ops, key), AudioSet(ops, key), VideoSet(ops, key))
  {
  }

  lemma SetKeepsIff(s: State, ops: seq<Op>, op: Op, key: Key)
    requires KindOf(s.readers, key) == WantedKind(ops, key) && KeyOf(op) == Some(key) && (op.SetAudio? || op.SetVideo?)
    ensures KindOf(ReadersLeft(s, op), key) == WantedKind(ops + [op], key) <==> KeepsMedia(s.readers, ops, op)
  {
    hide WantedKind, AudioSet, VideoSet, Subscribed;
    WantedNext(ops, op, key);
    WantedIs(ops, key);
  }

  lemma SubscribedKeepsIff(s: State, ops: seq<Op>, op: Op, key: Key)
    requires Lookup(s.audioCallbacks, key) == AudioSet(ops, key) && Lookup(s.videoCallbacks, key) == VideoSet(ops, key)
    requires KindOf(s.readers, key) == WantedKind(ops, key) && KeyOf(op) == Some(key) && op.TrackSubscribed?
    ensures KindOf(ReadersLeft(s, op), key) == WantedKind(ops + [op], key) <==> KeepsMedia(s.readers, ops, op)
  {
    hide HasRoom, WantedKind, AudioSet, VideoSet, Subscribed;
    WantedNext(ops, op, key);
    WantedIs(ops, key);
  }

  lemma ExtractKeepsIff(s: State, ops: seq<Op>, op: Op, key: Key)
    requires KindOf(s.readers, key) == WantedKind(ops, key) && KeyOf(op) == Some(key)
    requires op.ClearAudio? || op.ClearVideo? || op.TrackUnsubscribed?
    ensures KindOf(ReadersLeft(s, op), key) == WantedKind(ops + [op], key) <==> KeepsMedia(s.readers, ops, op)
  {
    hide WantedKind, AudioSet, VideoSet, Subscribed;
    WantedNext(ops, op, key);
    WantedIs(ops, key);
  }

  lemma OwnKeyKeptIff(s: State, ops: seq<Op>, op: Op, key: Key)
    requires Lookup(s.audioCallbacks, key) == AudioSet(ops, key) && Lookup(s.videoCallbacks, key) == VideoSet(ops, key)
    requires KindOf(s.readers, key) == WantedKind(ops, key) && KeyOf(op) == Some(key)
    ensures KindOf(ReadersLeft(s, op), key) == WantedKind(ops + [op], key) <==> KeepsMedia(s.readers, ops, op)
  {
    hide KindOf, WantedKind, ReadersLeft, KeepsMedia;
    if op.SetAudio? || op.SetVideo? {
      SetKeepsIff(s, ops, op, key);
    } else if op.TrackSubscribed? {
      SubscribedKeepsIff(s, ops, op, key);
    } else {
      ExtractKeepsIff(s, ops, op, key);
    }
  }

  /** From right media readers, an operation keeps them right if and only if it meets its condition. */
  lemma KeepsMediaIff(s: State, ops: seq<Op>, op: Op)
    requires SaysAudio(s, ops) && SaysVideo(s, ops) && MediaAsWanted(s.readers, ops)
    ensures MediaAsWanted(ReadersLeft(s, op), ops + [op]) <==> KeepsMedia(s.readers, ops, op)
  {
    hide KindOf, WantedKind, ReadersLeft, KeepsMedia, AudioSet, VideoSet;
    forall key | KeyOf(op) != Some(key)
      ensures KindOf(ReadersLeft(s, op), key) == WantedKind(ops + [op], key)
    {
      OtherKeysKept(s, ops, op, key);
    }
    if KeyOf(op).Some? {
      var key := KeyOf(op).value;
      OwnKeyKeptIff(s, ops, op, key);
    } else {
      NoKeyKeeps(s.readers, ops, op);
    }
  }

  lemma NoKeyKeeps(readers: map<Key, MediaReader>, ops: seq<Op>, op: Op)
    requires KeyOf(op).None?
    ensures KeepsMedia(readers, ops, op)
  {
  }

  /** The media readers are right at state `n` of a run. */
  ghost predicate MediaRight(states: seq<Sys>, steps: seq<Step>, n: nat)
    requires n <= |steps| < |states|
  {
    MediaAsWanted(states[n].state.readers, Ops(steps[..n]))
  }

  /** Step `n` of a run keeps to the condition. */
  ghost predicate KeptBy(states: seq<Sys>, steps: seq<Step>, n: nat)
    requires n < |steps| < |states|
  {
    steps[n].Enter? ==> KeepsMedia(states[n].state.readers, Ops(steps[..n]), steps[n].op)
  }

  lemma MediaRightNext(states: seq<Sys>, steps: seq<Step>, n: nat)
    requires IsRun(states, steps) && n < |steps| && MediaRight(states, steps, n)
    ensures MediaRight(states, steps, n + 1) <==> KeptBy(states, steps, n)
  {
    hide MediaAsWanted, KeepsMedia, Locked, Leaves, ReadersLeft, SaysData, SaysTracks;
    OpsNext(steps, n);
    MapsAreHistory(states, steps, n);
    assert Enabled(states[n], steps[n]);
    if steps[n].Enter? {
      LockedLeaves(states[n].state, steps[n].op);
      KeepsMediaIff(states[n].state, Ops(steps[..n]), steps[n].op);
    }
  }

  lemma {:induction false} MediaRightSoFar(states: seq<Sys>, steps: seq<Step>, n: nat)
    requires IsRun(states, steps) && n <= |steps| && forall i | 0 <= i < n :: KeptBy(states, steps, i)
    ensures MediaRight(states, steps, n)
    decreases n
  {
    hide KeptBy;
    if n > 0 {
      MediaRightSoFar(states, steps, n - 1);
      MediaRightNext(states, steps, n - 1);
    }
  }

  /**
   In every state of a run the media readers are exactly the subscribed keys with a callback of their track's kind, if
   and only if every operation of the run meets its condition.
   */
  lemma MediaReadersIff(states: seq<Sys>, steps: seq<Step>)
    requires IsRun(states, steps)
    ensures (forall n | 0 <= n <= |steps| :: MediaRight(states, steps, n)) <==>
            (forall i | 0 <= i < |steps| :: KeptBy(states, steps, i))
  {
    hide MediaRight, KeptBy;
    if forall n | 0 <= n <= |steps| :: MediaRight(states, steps, n) {
      forall i | 0 <= i < |steps|
        ensures KeptBy(states, steps, i)
      {
        MediaRightNext(states, steps, i);
      }
    } else {
      var n :| 0 <= n <= |steps| && !MediaRight(states, steps, n);
      if forall i | 0 <= i < |steps| :: KeptBy(states, steps, i) {
        MediaRightSoFar(states, steps, n);
      }
    }
  }

  // ---------------------------------------------------------------- one key's reader

  /**
   After an unsubscribe, or after either kind's callback is cleared, the key has no media reader, every other key has
   the reader it had, and the thread of the reader it had is what this operation goes on to join.
   */
  lemma ReaderIsReleased(states: seq<Sys>, steps: seq<Step>, n: nat, o: OpId, key: Key)
    requires IsRun(states, steps) && n < |steps|
    requires steps[n] in {Enter(o, TrackUnsubscribed(key)), Enter(o, ClearAudio(key)), Enter(o, ClearVideo(key))}
    ensures var was, now := states[n].state.readers, states[n + 1].state.readers;
            && key !in now && now == was - {key}
            && o in states[n + 1].holding
            && states[n + 1].holding[o] == if key in was then {was[key].thread} else {}
  {
    assert Enabled(states[n], steps[n]);
    ExtractLeaves(states[n].state, steps[n].op);
    hide Locked;
  }

  lemma NewReaderIs(s: State, op: Op, key: Key)
    requires var now := ReadersLeft(s, op); key in now && !(key in s.readers && s.readers[key] == now[key])
    ensures var reader := ReadersLeft(s, op)[key];
            && op == TrackSubscribed(key, Media(reader.kind), true) && reader.thread == s.threads
            && CallbackOfKind(s, key, op.kind) == Some(reader.callback)
  {
  }

  /** A media reader was started by a subscription of its kind, with the callback registered at that moment. */
  lemma {:induction false} MediaReaderOrigin(states: seq<Sys>, steps: seq<Step>, n: nat, key: Key) returns (i: nat)
    requires IsRun(states, steps) && n <= |steps| && key in states[n].state.readers
    ensures i < n && steps[i].Enter?
    ensures var reader := states[n].state.readers[key];
            && steps[i].op == TrackSubscribed(key, Media(reader.kind), true)
            && CallbackFor(Ops(steps[..i]), key, Media(reader.kind)) == Some(reader.callback)
            && reader.thread == states[i].state.threads
    decreases n
  {
    hide Locked, Leaves, ReadersLeft, SaysData, SaysTracks;
    var s, step := states[n - 1], steps[n - 1];
    assert Enabled(s, step);
    if key in s.state.readers && s.state.readers[key] == states[n].state.readers[key] {
      i := MediaReaderOrigin(states, steps, n - 1, key);
    } else {
      LockedLeaves(s.state, step.op);
      NewReaderIs(s.state, step.op, key);
      MapsAreHistory(states, steps, n - 1);
      i := n - 1;
    }
  }
}
