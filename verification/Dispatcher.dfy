/**
 SubscriptionThreadDispatcher with its mutable maps (src/subscription_thread_dispatcher.cpp).

 Each method is one region under lock_; it returns the threads that the caller joins after unlocking. Its
 postcondition equates the new maps and those threads with the region function of DispatcherSpec, about which
 DispatcherSafety proves what every run keeps.
 */
module DispatcherObject {
  import opened Common
  import opened DispatcherSpec

  ghost function ThreadsOf(readers: map<CallbackId, DataReader>, ids: set<CallbackId>): set<ThreadId>
    requires ids <= readers.Keys
  {
    set id | id in ids :: readers[id].thread
  }

  lemma TakeOne(readers: map<CallbackId, DataReader>, taken: set<CallbackId>, id: CallbackId)
    requires taken <= readers.Keys && id in readers
    ensures readers - taken - {id} == readers - (taken + {id})
    ensures ThreadsOf(readers, taken + {id}) == ThreadsOf(readers, taken) + {readers[id].thread}
  {
  }

  /** One more turn of the publish loop is one more element of the order it is specified by. */
  lemma {:induction false} StartAllAppends(s: State, track: DataTrack, order: seq<CallbackId>, id: CallbackId)
    requires id in s.dataCallbacks && forall i | i in order :: i in s.dataCallbacks
    ensures var before := StartAll(s, track, order);
            && before.state.dataCallbacks == s.dataCallbacks
            && var r := StartData(before.state, id, track, s.dataCallbacks[id].callback);
               StartAll(s, track, order + [id]) == Region(r.state, before.toJoin + r.toJoin)
    decreases |order|
  {
    hide StartData;
    if order == [] {
      var r := StartData(s, id, track, s.dataCallbacks[id].callback);
      StartDataKeepsCallbacks(s, id, track, s.dataCallbacks[id].callback);
      assert StartAll(r.state, track, []) == Region(r.state, {});
      assert order + [id] == [id] && [id][1..] == [];
      assert {} + r.toJoin == r.toJoin + {} == r.toJoin;
    } else {
      var callback := s.dataCallbacks[order[0]].callback;
      var first := StartData(s, order[0], track, callback);
      StartDataKeepsCallbacks(s, order[0], track, callback);
      assert (order + [id])[1..] == order[1..] + [id];
      StartAllAppends(first.state, track, order[1..], id);
      var rest := StartAll(first.state, track, order[1..]);
      var last := StartData(rest.state, id, track, s.dataCallbacks[id].callback);
      assert first.toJoin + (rest.toJoin + last.toJoin) == first.toJoin + rest.toJoin + last.toJoin;
    }
  }

  lemma DistinctAppend(order: seq<CallbackId>, id: CallbackId)
    requires Distinct(order) && id !in order
    ensures Distinct(order + [id])
  {
  }

  class SubscriptionThreadDispatcher {
    var audioCallbacks: map<Key, Callback>
    var videoCallbacks: map<Key, Callback>
    var readers: map<Key, MediaReader>
    var dataCallbacks: map<CallbackId, DataRegistration>
    var dataReaders: map<CallbackId, DataReader>
    var tracks: map<Key, DataTrack>
    var nextId: CallbackId
    var threads: ThreadId

    function View(): State
      reads this
    {
      State(audioCallbacks, videoCallbacks, readers, dataCallbacks, dataReaders, tracks, nextId, threads)
    }

    constructor ()
      ensures View() == Empty
    {
      audioCallbacks, videoCallbacks, readers := map[], map[], map[];
      dataCallbacks, dataReaders, tracks := map[], map[], map[];
      nextId, threads := 0, 0;
    }

    // ---------------------------------------------------------------- media

    method SetOnAudioFrameCallback(key: Key, callback: Callback)
      modifies this`audioCallbacks
      ensures View() == Locked(old(View()), SetAudio(key, callback)).state
    {
      audioCallbacks := audioCallbacks[key := callback];
    }

    method SetOnVideoFrameCallback(key: Key, callback: Callback)
      modifies this`videoCallbacks
      ensures View() == Locked(old(View()), SetVideo(key, callback)).state
    {
      videoCallbacks := videoCallbacks[key := callback];
    }

    method ClearOnAudioFrameCallback(key: Key) returns (toJoin: set<ThreadId>)
      modifies this
      ensures Region(View(), toJoin) == Locked(old(View()), ClearAudio(key))
    {
      audioCallbacks := audioCallbacks - {key};
      toJoin := ExtractReaderThreadLocked(key);
    }

    method ClearOnVideoFrameCallback(key: Key) returns (toJoin: set<ThreadId>)
      modifies this
      ensures Region(View(), toJoin) == Locked(old(View()), ClearVideo(key))
    {
      videoCallbacks := videoCallbacks - {key};
      toJoin := ExtractReaderThreadLocked(key);
    }

    method HandleTrackSubscribed(key: Key, kind: TrackKind, streamOk: bool) returns (toJoin: set<ThreadId>)
      modifies this
      ensures Region(View(), toJoin) == Locked(old(View()), TrackSubscribed(key, kind, streamOk))
    {
      toJoin := {};
      match kind {
        case Unsupported =>
        case Media(Audio) =>
          if key in audioCallbacks {
            toJoin := StartMediaReaderLocked(key, Audio, audioCallbacks[key], streamOk);
          }
        case Media(Video) =>
          if key in videoCallbacks {
            toJoin := StartMediaReaderLocked(key, Video, videoCallbacks[key], streamOk);
          }
      }
    }

    method HandleTrackUnsubscribed(key: Key) returns (toJoin: set<ThreadId>)
      modifies this
      ensures Region(View(), toJoin) == Locked(old(View()), TrackUnsubscribed(key))
    {
      toJoin := ExtractReaderThreadLocked(key);
    }

    method ExtractReaderThreadLocked(key: Key) returns (toJoin: set<ThreadId>)
      modifies this
      ensures Region(View(), toJoin) == ExtractReader(old(View()), key)
    {
      if key !in readers {
        return {};
      }
      toJoin := {readers[key].thread};
      readers := readers - {key};
    }

    /** startAudioReaderLocked and startVideoReaderLocked, which differ in the stream they open. */
    method StartMediaReaderLocked(key: Key, kind: MediaKind, callback: Callback, streamOk: bool)
      returns (toJoin: set<ThreadId>)
      modifies this
      ensures Region(View(), toJoin) == StartMedia(old(View()), key, kind, callback, streamOk)
    {
      toJoin := ExtractReaderThreadLocked(key);
      if |readers| >= MAX_ACTIVE_READERS {
        return;
      }
      if !streamOk {
        return;
      }
      readers, threads := readers[key := MediaReader(kind, callback, threads)], threads + 1;
    }

    // ---------------------------------------------------------------- data

    method AddOnDataFrameCallback(key: Key, callback: Callback) returns (id: CallbackId, toJoin: set<ThreadId>)
      modifies this
      ensures id == old(nextId)
      ensures Region(View(), toJoin) == Locked(old(View()), AddDataCallback(key, callback))
    {
      toJoin := {};
      id := nextId;
      nextId := nextId + 1;
      dataCallbacks := dataCallbacks[id := DataRegistration(key, callback)];
      if key in tracks {
        toJoin := StartDataReaderLocked(id, tracks[key], callback);
      }
    }

    method RemoveOnDataFrameCallback(id: CallbackId) returns (toJoin: set<ThreadId>)
      modifies this
      ensures Region(View(), toJoin) == Locked(old(View()), RemoveDataCallback(id))
    {
      dataCallbacks := dataCallbacks - {id};
      toJoin := ExtractDataReaderThreadLocked(id);
    }

    method ExtractDataReaderThreadLocked(id: CallbackId) returns (toJoin: set<ThreadId>)
      modifies this
      ensures Region(View(), toJoin) == ExtractDataReader(old(View()), id)
    {
      if id !in dataReaders {
        return {};
      }
      toJoin := {dataReaders[id].thread};
      dataReaders := dataReaders - {id};
    }

    method StartDataReaderLocked(id: CallbackId, track: DataTrack, callback: Callback) returns (toJoin: set<ThreadId>)
      modifies this
      ensures Region(View(), toJoin) == StartData(old(View()), id, track, callback)
    {
      toJoin := ExtractDataReaderThreadLocked(id);
      if |readers| + |dataReaders| >= MAX_ACTIVE_READERS {
        return;
      }
      dataReaders, threads := dataReaders[id := DataReader(track, callback, threads)], threads + 1;
    }

    /** The loop meets the registered callbacks in an arbitrary order, reported as `order`. */
    method HandleDataTrackPublished(track: DataTrack) returns (toJoin: set<ThreadId>, ghost order: seq<CallbackId>)
      modifies this
      ensures Allowed(old(View()), DataPublished(track, order))
      ensures Region(View(), toJoin) == Publish(old(View()), track, order)
    {
      hide StartData;
      tracks := tracks[track.key := track];
      ghost var start := View();
      toJoin, order := {}, [];
      var rest := set id | id in dataCallbacks && dataCallbacks[id].key == track.key;
      while rest != {}
        invariant dataCallbacks == start.dataCallbacks && rest <= start.RegisteredFor(track.key)
        invariant Distinct(order)
        invariant forall id :: id in order <==> id in start.RegisteredFor(track.key) - rest
        invariant Region(View(), toJoin) == StartAll(start, track, order)
        decreases |rest|
      {
        var id :| id in rest;
        rest := rest - {id};
        DistinctAppend(order, id);
        StartAllAppends(start, track, order, id);
        StartDataKeepsCallbacks(View(), id, track, dataCallbacks[id].callback);
        var t := StartDataReaderLocked(id, track, dataCallbacks[id].callback);
        toJoin, order := toJoin + t, order + [id];
      }
      assert old(View()).RegisteredFor(track.key) == start.RegisteredFor(track.key);
    }

    /**
     First loop: close and take out every reader of `sid`. Second loop: erase the first matching track entry,
     reported as `erased`.
     */
    method HandleDataTrackUnpublished(sid: string) returns (toJoin: set<ThreadId>, ghost erased: Option<Key>)
      modifies this
      ensures Allowed(old(View()), DataUnpublished(sid, erased))
      ensures Region(View(), toJoin) == Unpublish(old(View()), sid, erased)
    {
      toJoin := TakeReadersOf(sid);
      var rest := tracks.Keys;
      erased := None;
      while rest != {}
        invariant rest <= tracks.Keys && tracks == old(tracks)
        invariant forall key | key in tracks && key !in rest :: tracks[key].sid != sid
        decreases |rest|
      {
        var key :| key in rest;
        rest := rest - {key};
        if tracks[key].sid == sid {
          erased := Some(key);
          tracks := tracks - {key};
          break;
        }
      }
    }

    method TakeReadersOf(sid: string) returns (toJoin: set<ThreadId>)
      modifies this`dataReaders
      ensures dataReaders == old(dataReaders) - old(View()).ReadersOf(sid)
      ensures toJoin == set id | id in old(View()).ReadersOf(sid) :: old(dataReaders)[id].thread
    {
      var all, rest := dataReaders, dataReaders.Keys;
      toJoin := {};
      ghost var taken: set<CallbackId> := {};
      while rest != {}
        invariant rest <= all.Keys && taken <= all.Keys
        invariant forall id | id in all :: id in taken <==> id !in rest && all[id].track.sid == sid
        invariant dataReaders == all - taken && toJoin == ThreadsOf(all, taken)
        decreases |rest|
      {
        hide ThreadsOf;
        var id :| id in rest;
        rest := rest - {id};
        if all[id].track.sid == sid {
          TakeOne(all, taken, id);
          taken := taken + {id};
          toJoin := toJoin + {all[id].thread};
          dataReaders := dataReaders - {id};
        }
      }
      assert taken == old(View()).ReadersOf(sid);
    }

    method StopAll() returns (toJoin: set<ThreadId>)
      modifies this
      ensures Region(View(), toJoin) == Locked(old(View()), Stop)
    {
      var media := MediaThreads();
      var data := DataThreads();
      readers, audioCallbacks, videoCallbacks := map[], map[], map[];
      dataReaders, dataCallbacks, tracks := map[], map[], map[];
      toJoin := media + data;
    }

    method MediaThreads() returns (ts: set<ThreadId>)
      ensures ts == set key | key in readers :: readers[key].thread
    {
      ts := {};
      var rest := readers.Keys;
      while rest != {}
        invariant rest <= readers.Keys
        invariant ts == set key | key in readers && key !in rest :: readers[key].thread
        decreases |rest|
      {
        var key :| key in rest;
        rest := rest - {key};
        ts := ts + {readers[key].thread};
      }
    }

    method DataThreads() returns (ts: set<ThreadId>)
      ensures ts == set id | id in dataReaders :: dataReaders[id].thread
    {
      ts := {};
      var rest := dataReaders.Keys;
      while rest != {}
        invariant rest <= dataReaders.Keys
        invariant ts == set id | id in dataReaders && id !in rest :: dataReaders[id].thread
        decreases |rest|
      {
        var id :| id in rest;
        rest := rest - {id};
        ts := ts + {dataReaders[id].thread};
      }
    }
  }
}
