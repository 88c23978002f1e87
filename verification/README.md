# Verified models of the LiveKit C++ client

A Dafny project that models the concurrency protocols, lifecycles, codecs and layout arithmetic of the client and
proves what they keep. `dafny verify dfyconfig.toml` checks all of it.

The client's objects appear twice. As functions on values that say what each locked section, atomic operation or loop
does, with runs of any number of interleaved operations as sequences of states and steps; the main results are
statements about every state of every such run. And as classes, with the fields the C++ objects have. A method that is
one such section takes a state that the fields show and says that they then show the state its step leads to, or
equates the new fields with the section's function; a method that is a whole call run without interference says the
same of the sequence of its steps.

| files | component |
|---|---|
| `FfiClientSystem`, `FfiClientSafety`, `FfiClientCalls`, `FfiClient` | `FfiClient`: lifecycle, listener slots, pending promises |
| `DispatcherSpec`, `DispatcherSafety`, `DispatcherReaderSet`, `DispatcherLimit`, `DispatcherHistory`, `Dispatcher` | `SubscriptionThreadDispatcher`: callback, reader and track maps, reader threads |
| `SplitUtf8`, `DataStreamSpec`, `DataStreamSafety`, `DataStreamNumbering`, `DataStreamHandlers`, `DataStream` | data streams: splitting, writers, routing in the room, readers |
| `RoomShutdown`, `RoomDisconnect` | who owns a room's disconnect, and what each way to disconnect brings about |
| `RpcInvocations`, `RpcResponses` | RPC invocations, their draining and their responses |
| `DataTrackStream`, `DataTrackOutcomes` | the demand protocol of a data track's reader |
| `EventTracer`, `TraceSession`, `JsonEscape` | the trace writer, its files and its string escaping |
| `Base64Url` | base64url decoding and the payload of a JWT |
| `VideoFrame` | buffer sizes, plane layout and packing |
| `FrameHeader` | the little-endian header of the throughput benchmark |

## How to read it

- **Interleaving.** Each critical section, each atomic operation and each call into user code is one step. An activation
  is one call in progress; nothing orders the activations of one thread, so the runs include every properly nested one.
- **History.** Some state components only record what happened (who won a compare-and-swap, which events were
  pushed). No step's effect on the other components depends on them.
- **Choices of the environment** (which element an unordered container yields next, whether a send succeeds, whether a
  wait times out) are arguments of steps.
- **Numbers.** Unbounded, except where the width matters: the base64 accumulator (32 bits), buffer sizes (64 bits), plane
  strides and sizes (32 bits) and addresses (64 bits) wrap explicitly.

## Where the code and its description differ

The model follows the code.

- The comment on `splitUtf8` (`src/data_stream.cpp:48`) promises not to break code points. A text that ends in a
  multi-byte character is always cut before its last byte (`CutsExactly`, `NeverBreaksIff`, `BreaksSmallText`).
- The reader limit is described as 20 (`include/livekit/subscription_thread_dispatcher.h:372-373`). Media starts do not
  count data readers, so the true bound of both kinds together is 40 (`CombinedBound`, `CombinedBoundReached`). A run
  keeps to 20 exactly if it never starts a media reader for a key without one while 20 readers of both kinds are running
  and fewer than 20 of them are media readers (`WithinLimitIff`).
- Clearing an audio or video callback is described as stopping the key's reader of that kind
  (`include/livekit/subscription_thread_dispatcher.h:136-139`, `:145-148`). It stops the key's reader of either kind
  (`ReaderIsReleased`), which is one of the ways in which a subscribed track with a callback is left without a reader;
  the exact set of them is in `KeepsMediaIff` and `MediaReadersIff`.
- `base64UrlDecode` is meant to reject every character outside its alphabets. Its table lists 239 of 256 entries, so
  bytes 239 to 255 decode as zeros (`DecodeFailsIff`, `HighBytesAreAccepted`).
- `computePlaneInfos` multiplies in 32 bits. A plane of 2^32 bytes or more gets a wrapped size (`PlanesAreExactIff`,
  `LargePlaneWraps`), which still lies inside the buffer (`PlanesStayInside`).
- A chunk index counts the attempts, not the chunks sent, although it is described as the zero-based index of the chunk
  (`include/livekit/room_event_types.h:261`). The numbers on the wire are 0, 1, 2, ... exactly if no chunk was refused
  before one that was sent (`NumbersAreConsecutiveIff`, `GapAfterRefusedChunk`).
- `LocalParticipant::shutdown` waits so that no response follows it, but the wait can time out. Exactly the invocations
  that had passed their recheck can then still send (`LateSendersAre`, `TimeoutLetsResponseThrough`).

## Model

| member | source | states |
|---|---|---|
| `FfiClientSafety.StepFits` | src/ffi_client.cpp:189-524 | every section of the program is one of the listed moves of the shared parts, so the invariants are proved over shapes and not over code |
| `FfiClientSafety.ReachableInv` | src/ffi_client.cpp:189-524 | the full inductive invariant holds after any interleaving of any number of calls on any number of threads, the compare-and-swap on the lifecycle falling anywhere |
| `FfiClientSafety.CountsKept` | src/ffi_client.h:203-218 | active_callbacks is the number of activations inside the callback, each thread's entry the number of its own, and every stored entry is positive |
| `FfiClientSafety.WaitPredicateExcludesOthers` | src/ffi_client.cpp:318-318 | either wait predicate, removeListener's or shutdown's, holds only when every activation inside is the waiting thread's own |
| `FfiClientSafety.WaitMakesQuiet` | src/ffi_client.cpp:314-321 | the step that ends a wait leaves a slot that is marked removed and has no other thread inside |
| `FfiClientSafety.ListenerQuiescence` | src/ffi_client.cpp:240-253 | at every later point of every run no other thread is inside the callback, and nobody is inside who was not when the wait ended |
| `FfiClientSafety.NoEntryAfterQuiescence` | src/ffi_client.cpp:385-398 | no thread ever enters the callback after the wait ended |
| `FfiClientSafety.PromiseConservation` | src/ffi_client.cpp:356-383 | registered ids split without overlap into pending, held by exactly one activation, and satisfied; a completion carries an event of the promise's own kind and id |
| `FfiClientSafety.SatisfyingStepHolds` | src/ffi_client.cpp:223-237 | a step that satisfies a promise is taken by the one activation that holds it, and finds it unsatisfied and out of the map |
| `FfiClientSafety.SatisfiedOnce` | src/ffi_client.cpp:442-472 | no run has two steps that satisfy the same promise, whichever of completion, cancellation and shutdown come together |
| `FfiClientSafety.SatisfiedForGood` | src/ffi_client.cpp:356-383 | once satisfied, a promise keeps its outcome in every later state |
| `FfiClientSafety.SatisfiedStays` | src/ffi_client.h:173-199 | a satisfied promise keeps its outcome for good |
| `FfiClientSafety.NoFutureOutlivesShutdown` | src/ffi_client.cpp:323-329 | a pending promise whose requester saw Initialized belongs to a client that is Initialized or still to drain; any other pending one belongs to a requester that has yet to check or cancel |
| `FfiClientSafety.ShutdownSettlesSentPromises` | src/ffi_client.cpp:219-237 | outside Initialized and ShuttingDown every promise that was sent is satisfied or in the hands of an activation about to satisfy it |
| `FfiClientSafety.DrainedTableStaysEmpty` | src/ffi_client.cpp:292-300 | between shutdown's drain and its end no listener is registered, although addListener's check and its insertion are separate from the compare-and-swap |
| `FfiClientCalls.PushOutcome` | src/ffi_client.cpp:356-422 | in any run, a finished pushEvent either found the client not initialized, or has met every listener registered at its locked section (entered it with the event, or found it removed) and completed the pending promise of the event's id and kind with it |
| `FfiClientCalls.PushReachesListeners` | src/ffi_client.cpp:374-422 | from that section on each such listener is still to come or has been met |
| `FfiClientCalls.AddOutcome` | src/ffi_client.cpp:292-300 | a finished addListener either met a shutdown or has put an empty slot under an id never used before |
| `FfiClientCalls.RemoveOutcome` | src/ffi_client.cpp:302-321 | a finished removeListener of a registered listener has taken it out and waited, and the listener is quiet from then on |
| `FfiClientCalls.RequestOutcome` | src/ffi_client.cpp:442-524 | a finished request has stored its promise under a fresh id; then its send succeeded, or it had a reason to cancel and the promise is cancelled or was taken by somebody else |
| `FfiClientCalls.ShutdownOutcome` | src/ffi_client.cpp:189-260 | a finished shutdown either found the client not initialized, or has emptied both maps at once, cancelled every promise found there, waited for every listener found there and left the client uninitialized |
| `FfiClientCalls.InitializeOutcome` | src/ffi_client.cpp:270-286 | a finished initialize either found the client not uninitialized, or has left it as its FFI call ended |
| `FfiClientCalls.ListedIff` | src/ffi_client.cpp:292-312 | a listener is registered if and only if some addListener put it there and no removeListener or drain has taken it out since |
| `FfiClientCalls.RemovedIff` | src/ffi_client.cpp:207-321 | a slot is marked removed if and only if the end of a removeListener's wait or a shutdown has marked it |
| `FfiClientCalls.EventIsDelivered` | src/ffi_client.cpp:356-422 | for every event there is a run in which the client is initialized, a listener is added, entered with the event and removed, and the client is shut down |
| `FfiClientObject.ListenerSlot.TryEnter` | src/ffi_client.cpp:389-398 | a removed slot is not entered; otherwise both counters go up by one |
| `FfiClientObject.ListenerSlot.Leave` | src/ffi_client.cpp:408-417 | both counters go down by one and a thread's last entry is erased |
| `FfiClientObject.FfiClient.ClaimShutdown` | src/ffi_client.cpp:194-202 | is the claiming step of shutdown: the call goes on exactly if that step wins |
| `FfiClientObject.FfiClient.FinishShutdown` | src/ffi_client.cpp:259-260 | is the step that ends a shutdown |
| `FfiClientObject.FfiClient.ClaimInitialize` | src/ffi_client.cpp:271-275 | is the claiming step of initialize: the call goes on exactly if that step wins |
| `FfiClientObject.FfiClient.FinishInitialize` | src/ffi_client.cpp:277-286 | is the step that ends an initialization, whether the FFI initialized or threw |
| `FfiClientObject.FfiClient.CheckInitialized` | src/ffi_client.cpp:323-329 | is the requester's check: it may send exactly if that step lets it |
| `FfiClientObject.FfiClient.CheckAdd` | src/ffi_client.cpp:293-296 | is addListener's checking step |
| `FfiClientObject.FfiClient.CommitAdd` | src/ffi_client.cpp:297-299 | is addListener's inserting step, whatever has become of the lifecycle since the check |
| `FfiClientObject.FfiClient.AddListener` | src/ffi_client.cpp:292-300 | refused exactly if the check met a shutdown; otherwise a new slot under a new id and no other slot touched, even if a compare-and-swap falls between check and insertion |
| `FfiClientObject.FfiClient.ClaimListener` | src/ffi_client.cpp:302-312 | is removeListener's claiming step; the slot goes to this caller alone |
| `FfiClientObject.FfiClient.FinishRemove` | src/ffi_client.cpp:314-321 | is the step that ends removeListener's wait |
| `FfiClientObject.FfiClient.EnterCallback` | src/ffi_client.cpp:385-398 | is the step before a callback; the callback runs exactly if that step enters it |
| `FfiClientObject.FfiClient.LeaveCallback` | src/ffi_client.cpp:408-417 | is the step after a callback |
| `FfiClientObject.FfiClient.GenerateAsyncId` | src/ffi_client.cpp:440-440 | is the step that draws an id |
| `FfiClientObject.FfiClient.RegisterAsync` | src/ffi_client.cpp:459-472 | is the registering step: the promise is stored under the id drawn before |
| `FfiClientObject.FfiClient.CancelPendingByAsyncId` | src/ffi_client.cpp:442-457 | is the cancelling step: the promise is taken out exactly if it is still pending |
| `FfiClientObject.FfiClient.CheckPush` | src/ffi_client.cpp:359-363 | is pushEvent's checking step |
| `FfiClientObject.FfiClient.CommitPush` | src/ffi_client.cpp:365-378 | is pushEvent's committing step: the pending promise of the event's id and kind leaves the map, any other stays; the copy is the listener table |
| `FfiClientObject.FfiClient.MarkAll` | src/ffi_client.cpp:207-219 | the loop amounts to a run of marking steps, one for each registered slot |
| `FfiClientObject.FfiClient.MoveOut` | src/ffi_client.cpp:220-232 | is the step that ends shutdown's locked section: all slots and promises handed over, both maps empty |
| `FfiClientObject.FfiClient.DrainAll` | src/ffi_client.cpp:204-232 | the whole locked section is the locking step, a run of marking steps and the emptying step |
| `DispatcherSafety.LockedAgrees` | src/subscription_thread_dispatcher.cpp:60-614 | every locked region, from any agreeing state, keeps the six maps in agreement and each kind of reader within 20 |
| `DispatcherSafety.MapsAgree` | src/subscription_thread_dispatcher.cpp:108-333 | in every run every data reader's id is registered and its track is the one published under its key, every media reader has a callback of its kind, neither kind exceeds 20 |
| `DispatcherSafety.LockedMoves` | src/subscription_thread_dispatcher.cpp:335-532 | a region hands over exactly the threads it takes out of the maps and starts exactly those it adds; none is lost, each entry owns its own |
| `DispatcherSafety.ThreadConservation` | src/subscription_thread_dispatcher.cpp:288-354 | in every run each started thread is in one map entry, with one operation about to join it, or joined |
| `DispatcherSafety.JoinedOnce` | src/subscription_thread_dispatcher.cpp:323-332 | the step that joins a thread finds it not joined yet |
| `DispatcherSafety.AllJoinedIff` | src/subscription_thread_dispatcher.cpp:323-333 | in every reachable state all threads are joined if and only if no map entry and no operation has one |
| `DispatcherSafety.StopAllJoinsEverything` | src/subscription_thread_dispatcher.cpp:288-333 | whatever operations follow a stopAll, if none has started a reader and none holds a thread, every thread ever started is joined |
| `DispatcherReaderSet.KeepsReaderSetIff` | src/subscription_thread_dispatcher.cpp:190-286 | from a reader set that is right, each operation keeps it right if and only if it meets its condition: a registration or publish fits the limit, an unpublish has no callback on another key with its sid |
| `DispatcherReaderSet.ReaderSetIff` | src/subscription_thread_dispatcher.cpp:60-614 | the reader set is right in every state of a run if and only if every operation of the run meets its condition |
| `DispatcherReaderSet.ReaderSetIsSpecification` | src/subscription_thread_dispatcher.cpp:190-286 | while callbacks stay within the limit and sids distinct, the data readers are exactly the registered callbacks whose key is published, each on its own callback and the stored track |
| `DispatcherReaderSet.PublishKeepsReaderSetIff` | src/subscription_thread_dispatcher.cpp:224-251 | a publish keeps the reader set right if and only if it concerns no callback or all readers then fit the limit together |
| `DispatcherReaderSet.UnpublishKeepsReaderSetIff` | src/subscription_thread_dispatcher.cpp:253-286 | an unpublish keeps it right if and only if every callback whose key stores that sid is on the key whose track is erased |
| `DispatcherReaderSet.AddDataKeepsReaderSetIff` | src/subscription_thread_dispatcher.cpp:553-562 | a registration keeps it right if and only if its track is not published or its reader fits the limit |
| `DispatcherReaderSet.SupersededUnpublish` | src/subscription_thread_dispatcher.cpp:253-286 | an unpublish whose sid is no longer stored changes nothing and joins nothing |
| `DispatcherLimit.StaysWithinLimitIff` | src/subscription_thread_dispatcher.cpp:402-407 | from at most 20 readers of both kinds, an operation keeps to 20 if and only if it does not start a media reader for a key without one while fewer than 20 media readers but 20 readers in all are running |
| `DispatcherLimit.WithinLimitIff` | src/subscription_thread_dispatcher.cpp:395-614 | a run keeps to 20 in every state if and only if none of its operations is such a start |
| `DispatcherLimit.CombinedBound` | src/subscription_thread_dispatcher.cpp:402-405 | no run has more than 40 readers |
| `DispatcherLimit.CombinedBoundReached` | src/subscription_thread_dispatcher.cpp:558-561 | some run has 40 readers, because media starts count media readers only |
| `DispatcherHistory.MapsAreHistory` | src/subscription_thread_dispatcher.cpp:60-333 | in every run each callback, data registration, callback id and published track is the one the operations set last |
| `DispatcherHistory.MediaReadersIff` | src/subscription_thread_dispatcher.cpp:60-184 | in every state of a run the media readers are exactly the subscribed keys with a callback of their track's kind, if and only if every operation meets its condition: no callback set after the subscription, no clearing of the other kind's callback, no subscription without room or stream |
| `DispatcherHistory.KeepsMediaIff` | src/subscription_thread_dispatcher.cpp:356-394 | the same for one operation |
| `DispatcherHistory.ReaderIsReleased` | src/subscription_thread_dispatcher.cpp:108-184 | after an unsubscribe or a clear the key has no media reader, all other keys keep theirs, and its thread is the one this operation joins |
| `DispatcherHistory.MediaReaderOrigin` | src/subscription_thread_dispatcher.cpp:356-451 | every media reader was started by a subscription of its kind, and runs the callback that was registered at that moment |
| `DispatcherObject.SubscriptionThreadDispatcher.SetOnAudioFrameCallback` | src/subscription_thread_dispatcher.cpp:60-71 | registers the callback, starts nothing |
| `DispatcherObject.SubscriptionThreadDispatcher.SetOnVideoFrameCallback` | src/subscription_thread_dispatcher.cpp:91-106 | registers the callback, starts nothing |
| `DispatcherObject.SubscriptionThreadDispatcher.ClearOnAudioFrameCallback` | src/subscription_thread_dispatcher.cpp:108-125 | forgets the callback and hands over the key's reader thread |
| `DispatcherObject.SubscriptionThreadDispatcher.ClearOnVideoFrameCallback` | src/subscription_thread_dispatcher.cpp:127-144 | forgets the callback and hands over the key's reader thread |
| `DispatcherObject.SubscriptionThreadDispatcher.HandleTrackSubscribed` | src/subscription_thread_dispatcher.cpp:146-167 | starts a reader for a callback of the track's kind; hands over the one it replaces |
| `DispatcherObject.SubscriptionThreadDispatcher.HandleTrackUnsubscribed` | src/subscription_thread_dispatcher.cpp:169-184 | hands over the key's reader thread |
| `DispatcherObject.SubscriptionThreadDispatcher.StartMediaReaderLocked` | src/subscription_thread_dispatcher.cpp:395-451 | extracts the old reader first, and starts none at the limit or without a stream |
| `DispatcherObject.SubscriptionThreadDispatcher.AddOnDataFrameCallback` | src/subscription_thread_dispatcher.cpp:190-210 | a new id, and a reader at once if the track is published |
| `DispatcherObject.SubscriptionThreadDispatcher.RemoveOnDataFrameCallback` | src/subscription_thread_dispatcher.cpp:212-222 | forgets the callback and hands over its reader thread |
| `DispatcherObject.SubscriptionThreadDispatcher.StartDataReaderLocked` | src/subscription_thread_dispatcher.cpp:553-614 | extracts the old reader first, and starts none when both kinds together reach the limit |
| `DispatcherObject.SubscriptionThreadDispatcher.HandleDataTrackPublished` | src/subscription_thread_dispatcher.cpp:224-251 | the loop stores the track and starts a reader for every callback of its key, in the order the map yields them |
| `DispatcherObject.SubscriptionThreadDispatcher.HandleDataTrackUnpublished` | src/subscription_thread_dispatcher.cpp:253-286 | the loop takes out exactly the readers of the sid and erases the first matching track |
| `DispatcherObject.SubscriptionThreadDispatcher.StopAll` | src/subscription_thread_dispatcher.cpp:288-333 | all maps empty, every reader thread handed over |
| `SplitUtf8.Split` | src/data_stream.cpp:49-84 | the nested loops end and give the pieces of the cut function, for every string and max_bytes >= 1 |
| `SplitUtf8.SplitCovers` | src/data_stream.cpp:56-81 | pieces are non-empty, at most max_bytes long, and concatenate to the input |
| `SplitUtf8.PiecesEndAtCuts` | src/data_stream.cpp:77-80 | piece by piece, what is sent is what lies between two consecutive cuts, the last of which is the end of the text |
| `SplitUtf8.CutsExactly` | src/data_stream.cpp:59-72 | for well-formed UTF-8 and max_bytes >= 4 every cut is a character boundary except exactly one, before the last byte, when that byte is a continuation byte; cuts are in strictly increasing order |
| `SplitUtf8.CutsAreGreatest` | src/data_stream.cpp:56-81 | every cut before the last window is the greatest character boundary within max_bytes of the cut before it; in the last window it is the end of the text, or one byte before it |
| `SplitUtf8.NeverBreaksIff` | src/data_stream.cpp:48-48 | the comment's promise not to break code points holds if and only if the text does not end in a continuation byte |
| `SplitUtf8.BreaksSmallText` | src/data_stream.cpp:67-72 | one two-byte character is sent as two pieces |
| `DataStreamSafety.WriterSendsSession` | src/data_stream.cpp:208-277 | for any sequence of calls on a new writer: one header, the pieces of everything written before the close numbered 0, 1, 2, ..., one trailer, and nothing for later calls; the pieces concatenate to what was written |
| `DataStreamSafety.PiecesCover` | src/data_stream.cpp:295-336 | both write methods cut their data into non-empty pieces of at most 15000 bytes that concatenate to it |
| `DataStreamSafety.Following` | src/room.cpp:1278-1387 | after any part of a stream has been delivered, in any run, its one reader holds exactly that part and the tables point to it until the trailer |
| `DataStreamSafety.RoundTrip` | src/room.cpp:1330-1387 | if a run delivers what a writer emitted, in order among anything else, the stream's only reader is closed, has the merged attributes, and has yielded plus queued exactly what was written |
| `DataStreamSafety.RoundTripAll` | src/room.cpp:1278-1359 | the same for any set of writers with distinct ids under any merge of their packets |
| `DataStreamSafety.UnhandledStreamIsDropped` | src/room.cpp:1296-1312 | a stream whose header meets no handler never gets a reader, whatever is registered later |
| `DataStreamHandlers.HandlersAreHistory` | src/room.cpp:400-424 | in every run the handler of a kind and topic is the first one registered since it was last unregistered; a second registration changes nothing |
| `DataStreamHandlers.ReaderOrigin` | src/room.cpp:1278-1329 | every reader was made for a header and given to the handler that its kind and topic had at that moment |
| `DataStreamHandlers.HandlerReceivesSession` | src/room.cpp:1278-1387 | for every stream, handler and closing sequence of calls there is a run in which the registered handler is given the only reader and reads exactly what was written |
| `DataStreamObjects.StreamWriter.EnsureHeaderSent` | src/data_stream.cpp:208-238 | the header is sent at most once, and is remembered as sent only if the send succeeded |
| `DataStreamObjects.StreamWriter.SendChunk` | src/data_stream.cpp:240-255 | refused when closed; sends the header if it is due; a chunk's number is used up even if its send fails |
| `DataStreamObjects.StreamWriter.SendTrailer` | src/data_stream.cpp:257-269 | the header if it is due, then the trailer |
| `DataStreamObjects.StreamWriter.CloseStream` | src/data_stream.cpp:271-277 | throws when closed already; otherwise closed for good, even if the header or the trailer is refused |
| `DataStreamObjects.StreamWriter.WriteText` | src/data_stream.cpp:295-307 | the loop leaves exactly the state and the wire of the call function: all pieces in order, up to the first refused send |
| `DataStreamObjects.StreamWriter.WriteBytes` | src/data_stream.cpp:322-336 | the loop leaves exactly the state and the wire of the call function: all pieces in order, up to the first refused send |
| `DataStreamNumbering.NumbersAreConsecutiveIff` | src/data_stream.cpp:240-255 | for any calls on a writer and any outcomes of their sends: the k-th chunk on the wire carries number k, for every k, if and only if no chunk was refused before one that was sent |
| `DataStreamNumbering.GapAfterRefusedChunk` | src/data_stream.cpp:249-249 | a writer that goes on after its first chunk is refused puts a single chunk, number 1, on the wire |
| `DataStreamNumbering.AllSentIsEmitted` | src/data_stream.cpp:208-277 | if no send is refused, what reaches the wire is what the successful writer emits |
| `DataStreamNumbering.RefusalEndsCall` | src/data_stream.cpp:208-336 | whatever sends fail: a call on a closed writer fails and sends nothing, any other sends up to the first refusal and returns normally exactly if there was none; a close leaves the writer closed either way |
| `DataStreamObjects.StreamReader.OnChunkUpdate` | src/data_stream.cpp:105-114 | appends unless closed |
| `DataStreamObjects.StreamReader.OnStreamClose` | src/data_stream.cpp:116-125 | merges the trailer's attributes over the header's and closes |
| `DataStreamObjects.StreamReader.Wait` | src/data_stream.cpp:129-129 | the wait ends at the first arrival that gives it something to read, and takes no arrival after that |
| `DataStreamObjects.StreamReader.ReadNext` | src/data_stream.cpp:127-137 | yields the oldest chunk, waiting for one if need be; the end only when closed and empty; blocked as long as neither has come |
| `DataStreamObjects.StreamReader.ReadAll` | src/data_stream.cpp:139-146 | returns exactly if the stream is closed or closes meanwhile, with what was queued and what arrived before the close |
| `DataStreamObjects.StreamRouter.HeaderReceived` | src/room.cpp:1278-1329 | a new reader in the table of its kind, handed to the handler of its topic, exactly if there is one |
| `DataStreamObjects.StreamRouter.ChunkReceived` | src/room.cpp:1330-1359 | only the reader of the chunk's stream changes, the text table being asked first |
| `DataStreamObjects.StreamRouter.TrailerReceived` | src/room.cpp:1360-1387 | the reader is forgotten and closed; no other reader changes |
| `DataStreamObjects.StreamRouter.RegisterTextStreamHandler` | src/room.cpp:400-406 | the topic gets exactly this handler, unless it has one; then the call is refused and nothing changes |
| `DataStreamObjects.StreamRouter.UnregisterTextStreamHandler` | src/room.cpp:408-411 | the topic has no text handler afterwards |
| `DataStreamObjects.StreamRouter.RegisterByteStreamHandler` | src/room.cpp:413-419 | the topic gets exactly this handler, unless it has one; then the call is refused and nothing changes |
| `DataStreamObjects.StreamRouter.UnregisterByteStreamHandler` | src/room.cpp:421-424 | the topic has no byte handler afterwards |
| `RoomShutdown.ReachableInv` | src/room.cpp:233-333 | ownership of the room's resources and of the state transition, as far as each activation has come, in every interleaving |
| `RoomShutdown.OneOwnerPerDisconnect` | src/room.cpp:228-231 | at most one onDisconnected, at most one FFI disconnect request, and participant, listener and handle each released at most once |
| `RoomShutdown.OwnerReleasesEverything` | src/room.cpp:252-260 | the resources leave the room together, with one shutdown, which has released each exactly once when it returns; no other activation ever holds one |
| `RoomShutdown.ClaimerNotifiesIff` | src/room.cpp:1227-1244 | whoever made the state transition notifies exactly if it was asked to and had a delegate, and requests the FFI disconnect exactly if asked to with a valid handle |
| `RoomShutdown.OneSuccess` | src/room.cpp:332-333 | at most one shutdown returns true; it is the owner, has released participant, listener and handle, and has notified if that was due |
| `RoomShutdown.ClaimIsFinal` | src/room.cpp:248-251 | once the transition has an owner no later activation becomes it, and the room stays disconnected |
| `RoomDisconnect.DisconnectNotifiesIff` | src/room.cpp:223-226 | if a disconnect() made the transition then, once it is over, onDisconnected has fired exactly if a delegate was set when it took the room's fields, and the FFI has been asked exactly if the handle was valid |
| `RoomDisconnect.StreamEndIsSilent` | src/room.cpp:1260-1261 | if the end of the stream made it, nobody is notified and the FFI is not asked |
| `RoomDisconnect.ServerNotifiesIff` | src/room.cpp:1227-1244 | if the server made it, onDisconnected has fired exactly if a delegate was set when the event looked; the FFI is not asked |
| `RoomDisconnect.LookedAt` | src/room.cpp:87-90 | the delegate that is notified is the one set last before the activation looked |
| `RoomDisconnect.AfterwardsDisconnected` | src/room.cpp:233-262 | whatever races with it: once a disconnect() or an event is over the room is disconnected, and once a disconnect() is over handle, participant and listener have left the room |
| `RoomDisconnect.ResultIff` | src/room.cpp:264-333 | a shutdown reports success if and only if the transition was its own and none of its calls failed |
| `RoomObject.Room.TakeRoomState` | src/room.cpp:244-262 | is the claiming step: everything taken at once and the fields left empty, or nothing to do |
| `RoomObject.CleanUpDoesEverything` | src/room.cpp:264-330 | whatever fails on the way, each resource that was taken is released once, the request and the notification go out if due, and the result is true exactly if the transition was this call's and nothing failed |
| `RoomObject.World.CleanUp` | src/room.cpp:264-333 | block by block, the steps of the cleanup in their order |
| `RoomObject.Room.Shutdown` | src/room.cpp:233-333 | without interference, the claiming step and then the steps of the cleanup, with their result |
| `RoomObject.Room.Disconnect` | src/room.cpp:223-226 | without interference: the claiming step and the cleanup; a connected room with a delegate notifies it, and with a valid handle asks the FFI |
| `RoomObject.Room.EndOfStreamReceived` | src/room.cpp:1260-1261 | without interference: the same cleanup with no notification and no request |
| `RoomObject.Room.ServerDisconnectedReceived` | src/room.cpp:1227-1244 | is the step that handles the event, and the notifying step if there was a transition |
| `RpcInvocations.ActiveCountsInvocations` | src/local_participant.cpp:417-440 | in every run active_invocations is the number of invocations in progress, and positive whenever the guard decrements it |
| `RpcInvocations.OneResponseEach` | src/local_participant.cpp:442-484 | at most one response for each invocation, and never with both error and payload |
| `RpcInvocations.AnsweredIff` | src/local_participant.cpp:465-484 | an invocation has exactly one response on the wire if and only if its recheck passed and its send reached the FFI; one that is over without a response met a shutdown at its recheck or its send threw |
| `RpcInvocations.DrainIsFinal` | src/local_participant.cpp:382-391 | once a shutdown's wait ended by its predicate, no handler runs or starts and no response is sent in any later state |
| `RpcInvocations.TimeoutLetsResponseThrough` | src/local_participant.cpp:387-390 | a run in which a response is sent after a wait that timed out |
| `RpcInvocations.LateResponseMeansTimeout` | src/local_participant.cpp:465-484 | whenever a response is sent, no shutdown's wait has ended by its predicate |
| `RpcInvocations.LateSendersAre` | src/local_participant.cpp:465-484 | after a shutdown has begun an invocation can still send a response if and only if it had passed its recheck |
| `RpcResponses.ResponseSays` | src/local_participant.cpp:442-484 | a response on the wire answers, field by field, what the handler registered at the lookup did, and is UNSUPPORTED_METHOD if there was none |
| `RpcResponses.ReturnedPayloadIsSent` | src/local_participant.cpp:449-481 | if the handler returned a payload the response has that payload and no error; a thrown RpcError comes back with its code and message, any other exception as an application error with its message |
| `RpcResponses.HandlersIff` | src/local_participant.cpp:354-409 | a method has a handler if and only if it was registered and neither unregistered nor cleared by a shutdown since |
| `RpcObject.RpcInvocationState.TryBegin` | src/local_participant.cpp:418-425 | is the beginning step, which counts the invocation exactly if no shutdown has begun |
| `RpcObject.RpcInvocationState.MaySend` | src/local_participant.cpp:465-472 | is the recheck |
| `RpcObject.RpcInvocationState.End` | src/local_participant.cpp:430-438 | is the guard's step; it wakes the waiting shutdown exactly at zero |
| `RpcObject.RpcInvocationState.MarkShuttingDown` | src/local_participant.cpp:384-386 | is the step that begins a shutdown |
| `RpcObject.LocalParticipant.RegisterRpcMethod` | src/local_participant.cpp:354-366 | is the registering step unless the handle is invalid; the handler stays even if the FFI refuses |
| `RpcObject.LocalParticipant.UnregisterRpcMethod` | src/local_participant.cpp:368-380 | is the unregistering step unless the handle is invalid |
| `RpcObject.LocalParticipant.Shutdown` | src/local_participant.cpp:393-409 | the loop clears the handlers exactly if there is no handle or the FFI takes every method's unregister request; otherwise it throws and they stay |
| `RpcObject.UndisturbedIs` | src/local_participant.cpp:411-484 | one undisturbed invocation restores the counter on every path, a response goes out exactly if no shutdown had begun by the recheck and the send reached the FFI, and it has the handler's payload or error field by field |
| `RpcObject.LocalParticipant.Caught` | src/local_participant.cpp:449-463 | what the handler returned, or the error its exception becomes |
| `RpcObject.LocalParticipant.HandleRpcMethodInvocation` | src/local_participant.cpp:411-484 | is the sequence of an undisturbed invocation's steps |
| `DataTrackStreamSafety.DemandBound` | src/data_track_stream.cpp:52-80 | outstanding requests, frames on their way and the stored frame never exceed one together |
| `DataTrackStreamSafety.AssertionNeverFails` | src/data_track_stream.cpp:162-176 | pushFrame never finds a frame stored, and the frame it accepts is the one stored |
| `DataTrackStreamSafety.FramesInOrder` | src/data_track_stream.cpp:82-95 | accepted frames are returned in order; with no read in progress and the stream not closed all have been returned, also one followed by end-of-stream |
| `DataTrackStreamSafety.WokenReadReturnsFrameIff` | src/data_track_stream.cpp:85-94 | a woken read returns a frame exactly if one is stored and the stream is not closed, and none only after close or end-of-stream |
| `DataTrackStreamSafety.TerminalErrorIsFirstEos` | src/data_track_stream.cpp:178-188 | terminalError is what the first end-of-stream before close reported |
| `DataTrackStreamSafety.UnaskedFrameOverwrites` | src/data_track_stream.cpp:169-172 | a run with two frames for one request in which the second push overwrites the first frame |
| `DataTrackStreamSafety.OverwrittenMeansUnasked` | src/data_track_stream.cpp:162-176 | a frame is overwritten only in runs in which some frame came without a request |
| `DataTrackOutcomes.ReadOutcome` | src/data_track_stream.cpp:52-95 | a read of an open stream ends with the protocol error pushed and the stream closed if the answer is missing; an end-of-stream in the answer is pushed before the wait; otherwise it ends when there is a frame, an end-of-stream or a close |
| `DataTrackOutcomes.ReadAsks` | src/data_track_stream.cpp:56-76 | a read of an open stream asks for one frame, any other returns at once and changes nothing |
| `DataTrackOutcomes.EventOutcome` | src/data_track_stream.cpp:127-188 | an event is dropped only as another stream's or after a close; otherwise its frame is the one stored or its end-of-stream ends the stream, unless the stream was over |
| `DataTrackOutcomes.CloseIsFinal` | src/data_track_stream.cpp:102-125 | after a close nothing is accepted, returned or reported any more; an error reported before it stays |
| `DataTrackOutcomes.FramesThenEnd` | src/data_track_stream.cpp:52-95 | for any frames and any ending there is a run within the demand protocol that returns exactly these frames and then the end with its error |
| `DataTrackStreamObject.DataTrackStream.BeginRead` | src/data_track_stream.cpp:56-61 | is the reading step: it asks exactly if that step moves the reader, and nothing changes otherwise |
| `DataTrackStreamObject.DataTrackStream.FinishRead` | src/data_track_stream.cpp:85-95 | takes the stored frame, or nothing when closed or at the end without one |
| `DataTrackStreamObject.DataTrackStream.Accepts` | src/data_track_stream.cpp:132-138 | is the checking step of an event: it passes exactly if its push is to follow |
| `DataTrackStreamObject.DataTrackStream.PushFrame` | src/data_track_stream.cpp:162-176 | stores the frame unless closed or at the end |
| `DataTrackStreamObject.DataTrackStream.PushEos` | src/data_track_stream.cpp:178-188 | the first end-of-stream wins |
| `DataTrackStreamObject.DataTrackStream.Close` | src/data_track_stream.cpp:102-125 | keeps an error reported by end-of-stream, and hands the listener out once |
| `DataTrackStreamObject.DataTrackStream.FailProtocolError` | src/data_track_stream.cpp:156-160 | closed, with a protocol error unless the stream had ended already |
| `EventTracerSafety.WriterConservesEvents` | src/trace/event_tracer.cpp:227-264 | while a writer runs: written, then its batch, then the queue are the leftovers, then everything pushed since the start, in order; the open file is header and comma-joined events |
| `EventTracerSafety.StopFinishesFile` | src/trace/event_tracer.cpp:407-433 | the finished file is header, comma-joined events and footer, holding the leftovers and everything pushed before the writer's last look at the queue, among it all that was pushed before stop was called; the rest stays queued |
| `EventTracerSafety.LateEventsOpenNextFile` | src/trace/event_tracer.cpp:370-405 | events too late for one file are exactly the leftovers of the next |
| `EventTracerSafety.EnabledHasWriter` | src/trace/event_tracer.cpp:396-403 | while tracing is enabled its writer runs, has not been asked to stop and has the file open |
| `EventTracerSafety.StartFindsWriterJoined` | src/trace/event_tracer.cpp:396-398 | a start that goes ahead finds the last writer joined and the last file closed, so it replaces neither |
| `TraceSession.PushOutcome` | src/trace/event_tracer.cpp:321-366 | every push appends the event of its thread's last look, which found tracing enabled, behind everything queued |
| `TraceSession.EventsAreTraced` | src/trace/event_tracer.cpp:370-433 | for any events there is a run in which tracing is started, they are added, and the finished file holds exactly them in order |
| `TraceSession.FinishedFileIsJson` | src/trace/event_tracer.cpp:385-428 | if every event's text is a JSON value, every finished file is the text of one: an object with the session's events in order and the unit of their times |
| `EventTracerObject.EventTracer.CheckEnabled` | src/trace/event_tracer.cpp:321-324 | is the look at the flag, without the lock |
| `EventTracerObject.EventTracer.PushEvent` | src/trace/event_tracer.cpp:360-364 | is the push, whatever has become of tracing since |
| `EventTracerObject.EventTracer.AddTraceEvent` | src/trace/event_tracer.cpp:321-366 | queued exactly if tracing was enabled at the look, even if it is switched off before the push |
| `EventTracerObject.EventTracer.Drain` | src/trace/event_tracer.cpp:231-242 | is the draining step: the loop moves the whole queue, in order |
| `EventTracerObject.WrittenIs` | src/trace/event_tracer.cpp:244-254 | the writing steps of a batch append its events to the file with a comma before each but the file's first |
| `EventTracerObject.EventTracer.WriteBatch` | src/trace/event_tracer.cpp:244-254 | the loop is the writing steps of its batch |
| `EventTracerObject.EventTracer.FinishTurn` | src/trace/event_tracer.cpp:256-262 | is the writer's look at the flag and, if a stop was requested, at the queue |
| `EventTracerObject.EventTracer.RunWriter` | src/trace/event_tracer.cpp:227-264 | after a stop request and with nobody pushing, the writer puts everything queued into the file and exits |
| `EventTracerObject.EventTracer.StartTracing` | src/trace/event_tracer.cpp:370-405 | is the starting step; the thread it assigns over has been joined |
| `EventTracerObject.EventTracer.JoinWriter` | src/trace/event_tracer.cpp:420-423 | is the joining step |
| `EventTracerObject.EventTracer.CloseFile` | src/trace/event_tracer.cpp:425-430 | is the step that adds the footer and closes the file |
| `EventTracerObject.EventTracer.StopTracing` | src/trace/event_tracer.cpp:407-433 | without interference: everything queued is written, the footer added, the writer joined, nothing left over |
| `JsonEscape.Run` | src/trace/event_tracer.cpp:93-127 | the loop's output is the concatenation of each byte's escape |
| `JsonEscape.UnescapeEscape` | src/trace/event_tracer.cpp:95-126 | reading by section 7 of RFC 8259 undoes the escaping, for every byte string |
| `JsonEscape.FieldIsDelimited` | src/trace/event_tracer.cpp:174-181 | between its quotes, anywhere in a text, an escaped string has no control character and a scanner stops exactly at the closing quote |
| `Base64Url.TableIs` | src/token_source_jwt.cpp:45-54 | the 256 entries: the alphabet's values, -1 below 239 elsewhere, 0 from 239 up |
| `Base64Url.WordStep` | src/token_source_jwt.cpp:68-73 | the wrapping 32-bit accumulator gives the same bytes and leftover bits as an unbounded one |
| `Base64Url.NormalizeAndPad` | src/token_source_jwt.cpp:28-43 | a multiple of four characters, with the same part before the first equals sign in the standard alphabet |
| `Base64Url.Base64UrlDecode` | src/token_source_jwt.cpp:28-78 | the loops compute the decoding function, including failure |
| `Base64Url.DecodeEncode` | src/token_source_jwt.cpp:56-77 | decoding undoes the encoding of RFC 4648 for every byte sequence, in both alphabets, padded or not |
| `Base64Url.DecodeFailsIff` | src/token_source_jwt.cpp:61-67 | for any bytes: decoding fails if and only if some byte below 239 before the first equals sign is outside both alphabets |
| `Base64Url.DecodeFailsIffAscii` | src/token_source_jwt.cpp:61-67 | for ASCII input: if and only if some character before the first equals sign is outside both alphabets |
| `Base64Url.HighBytesAreAccepted` | src/token_source_jwt.cpp:45-54 | bytes from 239 up are accepted as zeros |
| `Base64Url.ExtractJwtPayloadJson` | src/token_source_jwt.cpp:80-97 | the segment between the first two dots, decoded; none if a dot is missing, decoding fails or nothing is left |
| `Base64Url.PayloadRecovered` | src/token_source_jwt.cpp:80-97 | from header.payload.signature every non-empty payload comes back |
| `Base64Url.PayloadIff` | src/token_source_jwt.cpp:80-97 | a payload comes out if and only if the token has two dots and what is between the first two decodes to it and is not empty |
| `VideoFrame.BufferSizeIsExact` | src/video_frame.cpp:32-86 | no 64-bit operation wraps for any supported format and positive 31-bit sizes: the result is the total of the planes |
| `VideoFrame.HalfCovers` | src/video_frame.cpp:56-57 | a halved dimension has a sample exactly for every pair with a pixel in it: half rounded up |
| `VideoFrame.ComputePlaneInfos` | src/video_frame.cpp:89-265 | case by case: the planes, in 32-bit strides and sizes and 64-bit addresses, one behind the other |
| `VideoFrame.PlanesAreExactIff` | src/video_frame.cpp:89-265 | the planes are the format's exact ones if and only if every plane is below 2^32 bytes; then they tile the buffer from its base to its end; a buffer below 2^32 suffices |
| `VideoFrame.LargePlaneWraps` | src/video_frame.cpp:119-134 | a 65536 by 65536 I420 frame gets a first plane of size 0 |
| `VideoFrame.TilesSeparate` | src/video_frame.cpp:104-107 | planes that tile a range are disjoint and inside it |
| `VideoFrame.PlanesStayInside` | src/video_frame.cpp:291-298 | for every size, wrapped or not, no plane of a frame that passed the size check reaches outside its data |
| `VideoFrame.Make` | src/video_frame.cpp:275-283 | accepts exactly the data that holds all the planes, and says which check failed |
| `VideoFrame.PackPlanes` | src/video_frame.cpp:336-353 | the two loops copy the components back to back |
| `VideoFrame.PackingRestoresBufferIff` | src/video_utils.cpp:151-158 | packing the planes that were described gives the original buffer back if and only if every plane is below 2^32 bytes |
| `FrameHeader.WriteLe` | benchmarks/data_track_throughput/common.h:179-189 | the loop overwrites n bytes with the little-endian number and keeps all others |
| `FrameHeader.ReadLe` | benchmarks/data_track_throughput/common.h:191-205 | the loop reads the little-endian number |
| `FrameHeader.RoundTrip` | benchmarks/data_track_throughput/common.h:185-205 | reading undoes writing for every number that fits |
| `FrameHeader.MakePayload` | benchmarks/data_track_throughput/common.h:207-223 | eight in-place writes give the 56 header bytes followed by fill, or an error below 56 bytes |
| `FrameHeader.ParseHeader` | benchmarks/data_track_throughput/common.h:225-241 | the fields at their offsets, or nothing if the frame is short or its magic or version differ |
| `FrameHeader.FrameRoundTrip` | benchmarks/data_track_throughput/common.h:207-241 | for every run id, sequence, count, time and packet size of at least 56, parsing gives exactly those fields |
| `FrameHeader.ParsedBytes` | benchmarks/data_track_throughput/common.h:225-241 | what parses begins with the bytes of the header it parses to |

## Left out

- Liveness and deadlock. A callback that nests another callback on its own thread can wait forever in `removeListener` or
  `shutdown`; a data reader extracted while its thread is still inside `subscribe()` is not closed
  (`src/subscription_thread_dispatcher.cpp:523-531`); `Room::shutdown` drops stream readers without closing them
  (`src/room.cpp:257-258`). The results here are about safety.
- The Rust FFI, protobuf encoding, HTTP, the JSON library, logging and real files are not part of this model; their
  answers are choices of the environment.
- Exceptions from allocation or stream creation inside a locked section, and threads that join themselves.
- Wrap-around of the 64-bit id counters, and null callbacks, tracks and slots, which the source skips.
- FfiClient: the completion predicates of the individual requests are one message kind for each request; the typed
  results of `Pending<T>` are not modelled.
- A `connect` that races a `disconnect`: its last section sets Connected unconditionally (`src/room.cpp:183-191`), so the
  room's results begin after connect has returned and cover one connection.
- Room: `onRoomEos`, the remote participants' own cleanup, and a failing call's log message.
- RpcInvocations: `rpc_handlers_` is not guarded by the mutex, and a registration that races an invocation is modelled as
  one of the two orders. A response request that throws after the FFI has taken it counts as sent.
- RpcObject.LocalParticipant.Shutdown: does not model the wait, whose two possible ends are steps of the runs.
- RoomObject.Room.Shutdown: runs without interference; racing shutdowns and events are the runs of `RoomShutdown`.
- DataTrackStream: a read whose request throws, and events of other streams beyond their being dropped.
- Data streams: packets are handled one event at a time, as the room's listener receives them; `close` racing `write` on
  one writer, since `close` does not take the write lock; the header's further metadata (MIME type, timestamp, reply
  id, sizes), which is copied through; shutdown clearing the tables in the middle of a stream.
- Event tracer: concurrent start and stop, custom tracer callbacks, categories, and `FormatEventJson`, which is an
  arbitrary function of the event and the session's start time; of its fields only the escaped strings are treated.
- Plane layout: `planeInfos` of an empty frame and conversions between formats.
- Enum and struct converters, command-line parsing and plots: they translate values one by one and keep no state.
- Statistics, encryption and the audio and video sources: they forward to the FFI, which is outside this model.
- `AudioSource`'s queue tracking: its results depend on floating-point rounding and a clock.
- The drop-oldest frame queues of `AudioStream` and `VideoStream`, and the caching token source: each is a single locked
  container without a protocol between threads.
