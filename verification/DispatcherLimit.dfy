/**
 The documented limit of 20 reader threads does not bound both kinds together: a media start counts media readers
 only, a data start counts both. When exactly the total stays within 20, and the bound of 40 that always holds.
 */
module DispatcherLimit {
  import opened Common
  import opened DispatcherSpec
  import opened DispatcherSafety

  // ---------------------------------------------------------------- exactly when the total stays within 20

  ghost function Total(s: State): nat { |s.readers| + |s.dataReaders| }

  predicate HasMediaCallback(s: State, key: Key, kind: MediaKind) {
    if kind.Audio? then key in s.audioCallbacks else key in s.videoCallbacks
  }

  /** A media reader is started for a key that has none, while both kinds together have used the limit up. */
  ghost predicate StartsOverLimit(s: State, op: Op) {
    && op.TrackSubscribed? && op.kind.Media? && op.streamOk
    && HasMediaCallback(s, op.key, op.kind.kind)
    && op.key !in s.readers
    && |s.readers| < MAX_ACTIVE_READERS
    && Total(s) >= MAX_ACTIVE_READERS
  }

  lemma StartMediaTotal(s: State, key: Key, kind: MediaKind, callback: Callback, streamOk: bool)
    requires Total(s) <= MAX_ACTIVE_READERS
    ensures Total(StartMedia(s, key, kind, callback, streamOk).state) <= MAX_ACTIVE_READERS <==>
            !(streamOk && key !in s.readers && |s.readers| < MAX_ACTIVE_READERS && Total(s) >= MAX_ACTIVE_READERS)
  {
    RemoveSize(s.readers, key);
  }

  lemma StartDataTotal(s: State, id: CallbackId, track: DataTrack, callback: Callback)
    requires Total(s) <= MAX_ACTIVE_READERS
    ensures Total(StartData(s, id, track, callback).state) <= MAX_ACTIVE_READERS
  {
    RemoveSize(s.dataReaders, id);
  }

  lemma {:induction false} StartAllTotal(s: State, track: DataTrack, order: seq<CallbackId>)
    requires Total(s) <= MAX_ACTIVE_READERS && forall id | id in order :: id in s.dataCallbacks
    ensures Total(StartAll(s, track, order).state) <= MAX_ACTIVE_READERS
    decreases |order|
  {
    if order != [] {
      var r := StartData(s, order[0], track, s.dataCallbacks[order[0]].callback);
      hide StartData, Total;
      StartDataKeepsCallbacks(s, order[0], track, s.dataCallbacks[order[0]].callback);
      StartDataTotal(s, order[0], track, s.dataCallbacks[order[0]].callback);
      StartAllTotal(r.state, track, order[1..]);
    }
  }

  lemma ExtractTotal(s: State, key: Key, id: CallbackId)
    ensures Total(ExtractReader(s, key).state) <= Total(s)
    ensures Total(ExtractDataReader(s, id).state) <= Total(s)
  {
    RemoveSize(s.readers, key);
    RemoveSize(s.dataReaders, id);
  }

  /** The operations that start no media reader keep the total within the limit. */
  lemma OthersKeepTotal(s: State, op: Op)
    requires Allowed(s, op) && Total(s) <= MAX_ACTIVE_READERS && !op.TrackSubscribed?
    ensures Total(Locked(s, op).state) <= MAX_ACTIVE_READERS
  {
    match op
    case SetAudio(_, _) =>
    case SetVideo(_, _) =>
    case ClearAudio(key) => ExtractTotal(s.(audioCallbacks := s.audioCallbacks - {key}), key, 0);
    case ClearVideo(key) => ExtractTotal(s.(videoCallbacks := s.videoCallbacks - {key}), key, 0);
    case TrackUnsubscribed(key) => ExtractTotal(s, key, 0);
    case AddDataCallback(key, cb) =>
      var s' := s.(nextId := s.nextId + 1, dataCallbacks := s.dataCallbacks[s.nextId := DataRegistration(key, cb)]);
      if key in s.tracks {
        StartDataTotal(s', s.nextId, s.tracks[key], cb);
      }
    case RemoveDataCallback(id) => ExtractTotal(s.(dataCallbacks := s.dataCallbacks - {id}), Key("", ""), id);
    case DataPublished(track, order) => StartAllTotal(s.(tracks := s.tracks[track.key := track]), track, order);
    case DataUnpublished(sid, erased) => RemoveAllSize(s.dataReaders, s.ReadersOf(sid));
    case Stop =>
  }

  /** From a total within 20, an operation keeps it there if and only if it is not that one kind of media start. */
  lemma StaysWithinLimitIff(s: State, op: Op)
    requires Allowed(s, op) && Total(s) <= MAX_ACTIVE_READERS
    ensures Total(Locked(s, op).state) <= MAX_ACTIVE_READERS <==> !StartsOverLimit(s, op)
  {
    if op.TrackSubscribed? {
      if op.kind.Media? && HasMediaCallback(s, op.key, op.kind.kind) {
        var callback := if op.kind.kind.Audio? then s.audioCallbacks[op.key] else s.videoCallbacks[op.key];
        StartMediaTotal(s, op.key, op.kind.kind, callback, op.streamOk);
        assert Locked(s, op) == StartMedia(s, op.key, op.kind.kind, callback, op.streamOk);
        hide StartMedia;
      }
    } else {
      OthersKeepTotal(s, op);
    }
  }

  lemma {:induction false} WithinLimitSoFar(states: seq<Sys>, steps: seq<Step>, n: nat)
    requires IsRun(states, steps) && n < |states|
    requires forall i | 0 <= i < n && steps[i].Enter? :: !StartsOverLimit(states[i].state, steps[i].op)
    ensures Total(states[n].state) <= MAX_ACTIVE_READERS
  {
    hide StartsOverLimit, Locked;
    if n > 0 {
      WithinLimitSoFar(states, steps, n - 1);
      assert Enabled(states[n - 1], steps[n - 1]);
      if steps[n - 1].Enter? {
        StaysWithinLimitIff(states[n - 1].state, steps[n - 1].op);
      }
    }
  }

  /** A run keeps to 20 readers of both kinds in every state if and only if no step is such a media start. */
  lemma WithinLimitIff(states: seq<Sys>, steps: seq<Step>)
    requires IsRun(states, steps)
    ensures (forall n | 0 <= n < |states| :: Total(states[n].state) <= MAX_ACTIVE_READERS) <==>
            (forall i | 0 <= i < |steps| && steps[i].Enter? :: !StartsOverLimit(states[i].state, steps[i].op))
  {
    hide StartsOverLimit, Locked, Total;
    if forall i | 0 <= i < |steps| && steps[i].Enter? :: !StartsOverLimit(states[i].state, steps[i].op) {
      forall n | 0 <= n < |states|
        ensures Total(states[n].state) <= MAX_ACTIVE_READERS
      {
        WithinLimitSoFar(states, steps, n);
      }
    } else {
      var i :| 0 <= i < |steps| && steps[i].Enter? && StartsOverLimit(states[i].state, steps[i].op);
      assert Enabled(states[i], steps[i]);
      assert states[i + 1].state == Locked(states[i].state, steps[i].op).state;
      if Total(states[i].state) <= MAX_ACTIVE_READERS {
        StaysWithinLimitIff(states[i].state, steps[i].op);
      }
    }
  }

  // ---------------------------------------------------------------- the bound that always holds

  /** Every reachable state has at most 40 readers. */
  lemma CombinedBound(states: seq<Sys>, steps: seq<Step>, i: nat)
    requires IsRun(states, steps) && i < |states|
    ensures |states[i].state.readers| + |states[i].state.dataReaders| <= 2 * MAX_ACTIVE_READERS
  {
    MapsAgree(states, steps, i);
  }

  /** The k-th of a family of distinct keys. */
  function KeyNo(k: nat): Key { Key("participant", seq(k, _ => 'x')) }

  lemma KeysDistinct(j: nat, k: nat)
    requires KeyNo(j) == KeyNo(k)
    ensures j == k
  {
    assert |KeyNo(j).name| == j && |KeyNo(k).name| == k;
  }

  ghost function Last(states: seq<Sys>): Sys
    requires states != []
  {
    states[|states| - 1]
  }

  lemma Extend(states: seq<Sys>, steps: seq<Step>, o: OpId, op: Op) returns (states': seq<Sys>, steps': seq<Step>)
    requires IsRun(states, steps) && o !in Last(states).holding && Allowed(Last(states).state, op)
    ensures IsRun(states', steps') && Last(states') == Apply(Last(states), Enter(o, op))
  {
    var step := Enter(o, op);
    states', steps' := states + [Apply(Last(states), step)], steps + [step];
    forall i | 0 <= i < |steps'|
      ensures Enabled(states'[i], steps'[i]) && states'[i + 1] == Apply(states'[i], steps'[i])
    {
      if i < |steps| {
        assert states'[i] == states[i] && states'[i + 1] == states[i + 1];
      }
    }
  }

  /** One published data track with `n` data readers, reached in n + 1 operations. */
  ghost predicate DataOnly(s: Sys, n: nat) {
    && |s.state.dataReaders| == n && s.state.readers == map[]
    && KeyNo(0) in s.state.tracks && s.state.nextId == n
    && (forall id | id in s.state.dataReaders :: id < n)
    && (forall o | o in s.holding :: o <= n)
  }

  lemma {:induction false} DataRun(n: nat) returns (states: seq<Sys>, steps: seq<Step>)
    requires n <= MAX_ACTIVE_READERS
    ensures IsRun(states, steps) && DataOnly(Last(states), n)
  {
    if n == 0 {
      assert Empty.RegisteredFor(KeyNo(0)) == {};
      states, steps := Extend([Sys(Empty, map[], {})], [], 0, DataPublished(DataTrack("sid", KeyNo(0), 0), []));
    } else {
      states, steps := DataRun(n - 1);
      RemoveAbsent(Last(states).state.dataReaders, n - 1);
      states, steps := Extend(states, steps, n, AddDataCallback(KeyNo(0), 0));
    }
  }

  /** Twenty data readers and `m` audio readers. */
  ghost predicate DataAndMedia(s: Sys, m: nat) {
    && |s.state.dataReaders| == MAX_ACTIVE_READERS && |s.state.readers| == m
    && (forall key | key in s.state.readers :: exists j: nat :: j < m && key == KeyNo(j))
    && (forall o | o in s.holding :: o <= MAX_ACTIVE_READERS + 2 * m)
  }

  lemma NextKeyFresh(readers: map<Key, MediaReader>, m: nat)
    requires forall key | key in readers :: exists j: nat :: j < m && key == KeyNo(j)
    ensures KeyNo(m) !in readers
  {
    if KeyNo(m) in readers {
      var j: nat :| j < m && KeyNo(m) == KeyNo(j);
      KeysDistinct(m, j);
    }
  }

  /** A new audio track gets its reader although the data readers alone have reached the limit. */
  lemma OneMoreReader(s: State, key: Key)
    requires |s.readers| < MAX_ACTIVE_READERS && key in s.audioCallbacks && key !in s.readers
    ensures var s' := Locked(s, TrackSubscribed(key, Media(Audio), true)).state;
            && s'.readers == s.readers[key := MediaReader(Audio, s.audioCallbacks[key], s.threads)]
            && s'.dataReaders == s.dataReaders
  {
  }

  lemma {:induction false} MediaRun(m: nat) returns (states: seq<Sys>, steps: seq<Step>)
    requires m <= MAX_ACTIVE_READERS
    ensures IsRun(states, steps) && DataAndMedia(Last(states), m)
  {
    hide Locked;
    if m == 0 {
      states, steps := DataRun(MAX_ACTIVE_READERS);
    } else {
      states, steps := MediaRun(m - 1);
      var key, o := KeyNo(m - 1), MAX_ACTIVE_READERS + 2 * m;
      NextKeyFresh(Last(states).state.readers, m - 1);
      states, steps := WithCallback(states, steps, o - 1, key);
      OneMoreReader(Last(states).state, key);
      states, steps := Extend(states, steps, o, TrackSubscribed(key, Media(Audio), true));
    }
  }

  lemma WithCallback(states: seq<Sys>, steps: seq<Step>, o: OpId, key: Key)
    returns (states': seq<Sys>, steps': seq<Step>)
    requires IsRun(states, steps) && o !in Last(states).holding
    ensures IsRun(states', steps') && key in Last(states').state.audioCallbacks
    ensures Last(states').state.readers == Last(states).state.readers
    ensures Last(states').state.dataReaders == Last(states).state.dataReaders
    ensures Last(states').holding.Keys == Last(states).holding.Keys + {o}
  {
    states', steps' := Extend(states, steps, o, SetAudio(key, 0));
  }

  /** The combined bound is reached: twice the documented limit of reader threads at once. */
  lemma CombinedBoundReached() returns (states: seq<Sys>, steps: seq<Step>)
    ensures IsRun(states, steps)
    ensures |Last(states).state.readers| + |Last(states).state.dataReaders| == 2 * MAX_ACTIVE_READERS
  {
    states, steps := MediaRun(MAX_ACTIVE_READERS);
  }
}
