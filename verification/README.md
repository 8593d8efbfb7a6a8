# ShareBridge transfer protocol: model and proofs

ShareBridge lets a browser fetch files, photo albums and video previews from an agent over one
connection that is split into three lanes: control, media and bulk. This project models the machinery
that makes those lanes behave and proves what it keeps.

| part | modules |
|---|---|
| The scheduler on both sides: bounded class queues, first-come admission, a control burst, a 3:1 deficit round robin over media and bulk and a second one, peeked and rolled back, over interactive and thumbnail traffic | `Drr`, `Traffic`, `SchedulerModel`, `SchedulerRuns`, `SchedulerOrder`, `SchedulerOutcomes`, `SchedulerFairness`, `SchedulerWaits`; the imperative classes are in `GoScheduler` and `LaneScheduler` |
| Operations across lanes: the agent's media handlers and what they send, the browser's buffer for early frames and its deferred ends, and both composed | `MediaTrace`, `MediaReads`, `MediaContexts`, `EarlyFrames`, `Reassembly`, `ReassemblyOk`, `ReassemblyRuns`, `LaneProtocol`, `GivenUp`, `Interleavings`, `Multiplexing`; a suspended drain in `DrainOrder` and `SuspendedDrain`; classes in `TransferManager` and `TransferPage` |
| Album downloads: one token, one part at a time, an acknowledgement after each | `AlbumAgent`, `BulkProtocol`, `AlbumBrowser`, `Album` (both ends joined by FIFO channels), `AlbumProgress`, `DownloadLimit`, `DownloadCounts`; classes in `TransferManager` and `AlbumPage` |
| Byte streams: the frame codec and incremental decoder, the two streaming sinks, the Service Worker's history and cursors | `Frames`, `WireFormat`, `Sinks`, `ServiceWorker` |
| Noise XX handshake, cipher states and the encrypted relay pipeline | `Noise`, `Transcript`, `Relay` |
| Runs of any transition system, shared values | `Runs`, `Basics`, `Retired` |

How it is put together. Code that changes state in place is a class whose methods follow the original's
branches and loops, and each method's contract equates the new state with a value-level step. The
value-level steps form transition systems: an event is one critical section, one handler or one turn of
a goroutine, so every interleaving of senders, writers, cancellations and failures is a sequence of
events. The theorems are about all such sequences. A class carries the ghost history of its steps and
`Valid()` says that the object is where the run of that history ends; the lemmas named `Promises` and
the like carry the run theorems over to the objects.

Findings that a reader of the code may not expect:

- On cancellation the browser admits waiters and resets deficits in the opposite order from the agent;
  `LaneScheduler.CancelOrders` shows that the resulting state is the same from every reachable one.
- A still image requested with a generation other than 0 is announced and then never streamed, because
  its stream compares its own generation 0 with the requested one
  (`MediaTrace.PreviewDelivers` gives the exact condition).
- `maxDownloads` is checked before the bulk token is taken, so one more download may pass the limit,
  never two (`AlbumAgent.LimitPlusOne`, `AlbumAgent.LimitPassed`). `DownloadLimit.PassedExactly` says
  from which states it will, and `DownloadLimit.GuardIsExact` which test of a request would prevent it:
  the download under way has to be counted in. An album that can no longer be counted, because its
  channel holds an acknowledgement for something else, need not be.
- The drain of early bulk frames suspends after every entry, and a frame that arrives meanwhile overtakes
  the entries not yet replayed. `SuspendedDrain.OrderSurvivesExactly` says for which schedules the order
  survives; `SuspendedDrain.Reordered` is a run in which it does not.
- The fixed sink never finishes an append when `tailBytes` is 0
  (`Sinks.AppendProgressesExactly`).
- In the Service Worker, an offset that arrives after data of its generation has been enqueued
  repositions streams wrongly; it is right exactly for the streams that have been given nothing yet
  (`ServiceWorker.Entry.StartOffset`; `ServiceWorker.OffsetTooLate` is a case). The page sends the
  offset first.
- `finishMedia` leaves `mediaOperation` in place, so errors for a finished operation can still be sent
  after its end (`MediaTrace.ErrorAfterEnd`). Nothing else of it can be: `MediaTrace.OnlyErrorsAfterEnd`
  says exactly when.

## Model

| member | source | states |
|---|---|---|
| `SchedulerFairness.OuterConservation` | agent/internal/multilane/scheduler.go:239-294 | over any run in which media and bulk demand never stop, bytes served plus remaining deficit grow by exactly 196608 (media) and 65536 (bulk) per round, whatever arrives, is cancelled or is written |
| `SchedulerFairness.MediaConservation` | agent/internal/multilane/scheduler.go:239-382 | over any run in which media demand never stops, whatever becomes of bulk, media bytes served plus the media deficit grow by exactly 196608 per round: no reset of another class takes media credit |
| `SchedulerFairness.BulkConservation` | agent/internal/multilane/scheduler.go:239-382 | the same for bulk with 65536 per round, whatever becomes of media |
| `SchedulerFairness.CursorSurvives` | agent/internal/multilane/scheduler.go:239-382 | and while either demand stands throughout, the outer cursor moves with the visits alone and the level stays started |
| `SchedulerFairness.InteractiveConservation` | agent/internal/multilane/scheduler.go:296-382 | the same on the inner level for interactive traffic, whatever becomes of thumbnails and bulk |
| `SchedulerFairness.ThumbnailConservation` | agent/internal/multilane/scheduler.go:296-382 | and for thumbnails, whatever becomes of interactive traffic and bulk |
| `SchedulerFairness.InnerCursorSurvives` | agent/internal/multilane/scheduler.go:296-382 | and while either of them stands throughout, the inner cursor moves with the visits alone |
| `SchedulerFairness.OuterFairness` | agent/internal/multilane/scheduler.go:239-294 | over any such run the media bytes served differ from three times the bulk bytes by less than 3276800 |
| `SchedulerFairness.InnerConservation` | agent/internal/multilane/scheduler.go:245-339 | the same exact accounting for the speculative inner round robin between interactive and thumbnail traffic: rejected peeks leave no trace in it |
| `SchedulerFairness.InnerFairness` | agent/internal/multilane/scheduler.go:245-339 | while both media classes have demand their served bytes stay within 7208960 of 3:1, also across media that the outer level picked |
| `SchedulerFairness.PickResets` | agent/internal/multilane/scheduler.go:345-382 | a pick changes each level only by the charge of the pick and by clearing what has neither queue nor waiters left: the credit and the cursor of a class with demand are left alone |
| `SchedulerFairness.DemandIsQueue` | agent/internal/multilane/scheduler.go:384-414 | while nothing is being written, demand (queue or waiters) and a non-empty queue are the same thing |
| `SchedulerWaits.NextIsTotal` | agent/internal/multilane/scheduler.go:219-274 | a request is picked if and only if some queue is non-empty |
| `SchedulerWaits.BulkWaitBytes` | agent/internal/multilane/scheduler.go:239-294 | while a bulk request waits at the head of its queue, at most the media deficit plus four quanta of media bytes are served before it, whatever else happens |
| `SchedulerWaits.BulkWaitPicks` | agent/internal/multilane/scheduler.go:219-294 | and at most nine times that plus eight requests in all, control included |
| `SchedulerWaits.TurnsDisciplined` | agent/internal/multilane/scheduler.go:219-237 | the picks of any run obey the burst counter |
| `SchedulerWaits.ControlBurst` | agent/internal/multilane/scheduler.go:219-237 | no run has more than eight control picks in a row while data waits |
| `SchedulerWaits.DataYields` | agent/internal/multilane/scheduler.go:219-237 | no run has two data picks in a row while control was queued at the second |
| `SchedulerModel.WaitersImplyQueue` | agent/internal/multilane/scheduler.go:122-131 | when nothing is being written, a class with waiters has a queue, so no sender waits for nothing |
| `SchedulerModel.AdmitKeeps` | agent/internal/multilane/scheduler.go:116-131 | a send keeps the whole invariant: bytes are queued plus active and within the cap, waiters are blocked by the cap, deficits are bounded and account for demand |
| `SchedulerModel.CancelWaitingKeeps` | agent/internal/multilane/scheduler.go:138-151 | so does giving up while waiting for admission |
| `SchedulerModel.CancelQueuedKeeps` | agent/internal/multilane/scheduler.go:154-168 | so does withdrawing a queued request |
| `SchedulerModel.PickKeeps` | agent/internal/multilane/scheduler.go:184-274 | so does a pick of the pump |
| `SchedulerModel.WrittenKeeps` | agent/internal/multilane/scheduler.go:192-206 | so does a finished write |
| `SchedulerModel.WriteFailedKeeps` | agent/internal/multilane/scheduler.go:192-206 | so does a failed write, which fails everything queued and waiting |
| `SchedulerModel.FailKeeps` | agent/internal/multilane/scheduler.go:172-182 | so does closing |
| `SchedulerRuns.RunKeeps` | agent/internal/multilane/scheduler.go:95-217 | the invariant holds after every run |
| `SchedulerRuns.RunOnce` | agent/internal/multilane/scheduler.go:95-169 | every accepted send is at every moment exactly one of: in flight, or told one outcome; never told twice |
| `SchedulerOutcomes.NewsIsTrue` | agent/internal/multilane/scheduler.go:95-217 | a request is told it was sent exactly when its write returns well, that it was cancelled only by its own sender, and that it failed only with the closing error or with that of a failed write |
| `SchedulerOutcomes.ToldTheTruth` | agent/internal/multilane/scheduler.go:95-217 | and so in every run each outcome ever told goes back to such an event of the run |
| `SchedulerOutcomes.TerminalIsFirstError` | agent/internal/multilane/scheduler.go:172-206 | the error that ends the scheduler is that of the first failed write or of the close, whichever came first |
| `SchedulerOrder.EveryRun` | agent/internal/multilane/scheduler.go:95-217 | in every run each class is first come, first served: what was written, then what is being written, queued and waiting, is the arrival order without the cancelled and failed requests |
| `SchedulerOrder.StepAfterTerminal` | agent/internal/multilane/scheduler.go:172-217 | after the scheduler has become terminal a step only reports the write that was under way |
| `SchedulerOrder.NothingAfterTerminal` | agent/internal/multilane/scheduler.go:172-217 | and no run from there starts another write |
| `Drr.VisitKeepsPick` | agent/internal/multilane/scheduler.go:239-294 | a visit of either round robin that serves nothing changes neither the eventual winner nor the resulting deficits and brings the loop one step nearer its end |
| `Drr.VisitServes` | agent/internal/multilane/scheduler.go:239-294 | a visit that finds a fit serves exactly what the closed arithmetic form of the round robin predicts |
| `Drr.ServeKeeps` | agent/internal/multilane/scheduler.go:276-339 | serving keeps the deficits within the cap plus a quantum |
| `GoScheduler.Validate` | agent/internal/multilane/scheduler.go:95-114 | which sends are rejected before the lock, and that accepted ones carry a known class and kind and a payload within the cap |
| `GoScheduler.Scheduler.PeekMediaLocked` | agent/internal/multilane/scheduler.go:296-319 | the inner loop terminates and finds the media head that the closed form of the inner round robin would serve |
| `GoScheduler.Scheduler.ChooseDataLocked` | agent/internal/multilane/scheduler.go:239-274 | the outer loop with its nested peek and rollback terminates and picks what the two closed forms prescribe |
| `GoScheduler.Scheduler.NextDataLocked` | agent/internal/multilane/scheduler.go:239-274 | the data pick takes the chosen head, charges both levels and resets what has run empty |
| `GoScheduler.Scheduler.NextLocked` | agent/internal/multilane/scheduler.go:219-237 | the pick is the specified one and there is one exactly if something is queued |
| `GoScheduler.Scheduler.PopLocked` | agent/internal/multilane/scheduler.go:345-358 | the head leaves its queue |
| `GoScheduler.Scheduler.ResetEmptyLaneLocked` | agent/internal/multilane/scheduler.go:360-382 | deficits are cleared exactly when demand is gone |
| `GoScheduler.Scheduler.EnqueueLocked` | agent/internal/multilane/scheduler.go:392-398 | the request joins its queue and its bytes the count |
| `GoScheduler.Scheduler.AdmitWaitersLocked` | agent/internal/multilane/scheduler.go:400-414 | waiters are admitted in order as far as they fit |
| `GoScheduler.Scheduler.RemoveAdmissionWaiterLocked` | agent/internal/multilane/scheduler.go:416-434 | the waiter, and only it, leaves the list |
| `GoScheduler.Scheduler.RemoveQueuedLocked` | agent/internal/multilane/scheduler.go:446-464 | the queued request, and only it, leaves its queue, and a queue that runs empty is reset |
| `GoScheduler.Scheduler.FailAdmissionWaitersLocked` | agent/internal/multilane/scheduler.go:436-444 | every waiter, and no one else, is told the error, and none is left |
| `GoScheduler.Scheduler.FailQueuedLocked` | agent/internal/multilane/scheduler.go:466-475 | every queued request, and no other, is told the error and gives its bytes back |
| `GoScheduler.Scheduler.FailLocked` | agent/internal/multilane/scheduler.go:197-200 | a terminal error is told to exactly those queued or waiting |
| `GoScheduler.Scheduler.Send` | agent/internal/multilane/scheduler.go:116-131 | the first critical section of a send: refused when terminal, else queued or put on the waiting list, the pump woken |
| `GoScheduler.Scheduler.GiveUpWaiting` | agent/internal/multilane/scheduler.go:138-151 | cancellation while waiting |
| `GoScheduler.Scheduler.GiveUpQueued` | agent/internal/multilane/scheduler.go:154-168 | cancellation while queued; too late once the write has begun |
| `GoScheduler.Scheduler.CloseScheduler` | agent/internal/multilane/scheduler.go:172-182 | closing is final and tells everyone |
| `GoScheduler.Scheduler.PumpTurn` | agent/internal/multilane/scheduler.go:184-217 | a turn of the pump picks, or sleeps only on a channel not yet signalled while nothing is queued |
| `GoScheduler.Scheduler.WriteReturned` | agent/internal/multilane/scheduler.go:192-206 | the write's outcome is reported once and its bytes are given back |
| `LaneScheduler.ValidateSend` | signaling-server/web/src/laneScheduler.js:60-64 | which sends the browser rejects for their class, kind or payload, and with which error |
| `LaneScheduler.CancelOrders` | signaling-server/web/src/laneScheduler.js:118-142 | the browser's order of admitting and resetting on cancellation gives the same state as the agent's |
| `LaneScheduler.LaneScheduler.PeekMedia` | signaling-server/web/src/laneScheduler.js:245-258 | the browser's inner loop finds what the same closed form prescribes |
| `LaneScheduler.LaneScheduler.ChooseData` | signaling-server/web/src/laneScheduler.js:209-233 | its outer loop picks what the agent's specification picks, from the same abstract state |
| `LaneScheduler.LaneScheduler.NextData` | signaling-server/web/src/laneScheduler.js:209-233 | with the same successor deficits |
| `LaneScheduler.LaneScheduler.NextRequest` | signaling-server/web/src/laneScheduler.js:192-207 | the pick equals the agent's specified pick |
| `LaneScheduler.LaneScheduler.ResetLane` | signaling-server/web/src/laneScheduler.js:281-294 | deficits are cleared exactly when demand is gone |
| `LaneScheduler.LaneScheduler.DrainAdmissions` | signaling-server/web/src/laneScheduler.js:180-190 | waiters are admitted in order as far as they fit |
| `LaneScheduler.LaneScheduler.Send` | signaling-server/web/src/laneScheduler.js:58-105 | a send queues or waits, and a live non-empty queue always has a write under way or a pump scheduled |
| `LaneScheduler.LaneScheduler.Cancel` | signaling-server/web/src/laneScheduler.js:118-142 | an abort withdraws the request wherever it is, unless it is being written |
| `LaneScheduler.LaneScheduler.CloseScheduler` | signaling-server/web/src/laneScheduler.js:74-81 | closing fails everything queued and waiting |
| `LaneScheduler.LaneScheduler.Pump` | signaling-server/web/src/laneScheduler.js:144-156 | a pump turn starts the specified write or leaves nothing queued |
| `LaneScheduler.LaneScheduler.WriteSettled` | signaling-server/web/src/laneScheduler.js:157-178 | a settled write is reported once, its bytes are returned, and the pump goes on |
| `Frames.DecodeWritten` | agent/internal/relaychannel/frame.go:24-56 | what WriteFrame wrote, followed by anything, decodes to the frame and the rest |
| `Frames.WriteDecoded` | agent/internal/relaychannel/frame.go:39-56 | what decodes is what WriteFrame would have written |
| `Frames.FrameDecoder.Push` | signaling-server/web/src/frame.js:38-60 | the decoder's buffer loop yields the frames, the rest and the error of parsing buffer and chunk at once |
| `Frames.ChunkingIndependent` | signaling-server/web/src/frame.js:33-61 | any two divisions of the same bytes into chunks give the same frames, the same rest and the same error point |
| `Frames.RestIsIncomplete` | signaling-server/web/src/frame.js:38-60 | what stays buffered is always less than one complete frame |
| `Frames.FramesRoundTrip` | signaling-server/web/src/frame.js:14-61 | any list of writable frames, encoded, concatenated and cut anywhere, decodes to itself with nothing left |
| `Frames.EnvelopeRoundTrip` | agent/internal/multilane/lane.go:32-57 | a lane envelope decodes to the lane and payload it was made of |
| `Frames.EnvelopeRoundTripBack` | agent/internal/multilane/lane.go:44-57 | and every envelope that decodes was made that way |
| `WireFormat.FrameLayout` | agent/internal/relaychannel/frame.go:24-66 | every byte of a relay frame: kind 0 to 2, length in four bytes, payload; at most 4096 bytes in the handshake and 8388608 after it; anything else is refused |
| `WireFormat.EnvelopeLayout` | agent/internal/multilane/lane.go:32-56 | the lane byte is 0, 1 or 2; other codes and the empty envelope are refused |
| `Frames.ChunkRoundTrip` | agent/internal/transfer/manager.go:1370-1394 | a chunk frame of the agent decodes to itself on both sides, except operation 0 in the browser |
| `WireFormat.ChunkLayout` | signaling-server/web/src/binaryEnvelope.js:18-60 | every byte of a chunk frame: type 0x10, version 1, operation in eight bytes, generation in four, most significant first |
| `WireFormat.ChunksAccepted` | signaling-server/web/src/binaryEnvelope.js:18-62 | the browser encodes exactly the nonzero 64-bit operations with 32-bit generations, and decodes exactly chunk frames of the right type and version with a nonzero operation and thumbnails with an index |
| `WireFormat.ThumbnailLayout` | signaling-server/web/src/binaryEnvelope.js:9-16 | every byte of a thumbnail: type 0x11, index in two bytes, payload |
| `Frames.DecodedIsEncoded` | signaling-server/web/src/binaryEnvelope.js:42-62 | what the browser accepts is an encoding of the agent for a nonzero operation, or an encoded thumbnail |
| `Frames.ThumbnailRoundTrip` | signaling-server/web/src/binaryEnvelope.js:9-62 | every encoded thumbnail decodes to itself |
| `Noise.Agreement` | agent/internal/noise/handshake.go:91-326 | an undisturbed run leaves both sides with equal h and ck, each other's static key, crossed keys and messages of 65, 162 and 97 bytes |
| `Noise.Completes` | agent/internal/noise/handshake.go:91-326 | and such a run completes exactly if none of the three derived keys is the zero key |
| `Transcript.RunFollowsScript` | agent/internal/noise/handshake.go:90-314 | an undisturbed run is, byte for byte, the pattern e; e, ee, s, es; s, se with the hashes and keys that its tokens prescribe |
| `Transcript.KeysFollowScript` | agent/internal/noise/handshake.go:316-327 | the initiator sends with the first key of the final derivation and receives with the second, the responder the other way round, both from counter 0 |
| `Noise.OnlyWayToDone` | agent/internal/noise/handshake.go:91-312 | however the methods are called and fail, a side is done exactly after its three messages succeeded in order |
| `Noise.InOrderDecrypts` | agent/internal/noise/cipher.go:33-67 | any messages encrypted in order decrypt in order to themselves and leave both counters equal |
| `Noise.NoncesDiffer` | agent/internal/noise/cipher.go:88-92 | different counters give different nonces |
| `WireFormat.NonceLayout` | agent/internal/noise/cipher.go:87-92 | a nonce is four zero bytes and the counter in eight, most significant first |
| `WireFormat.SealedInOrder` | agent/internal/noise/cipher.go:33-48 | ciphertext i of a sequence is sealed with the ith nonce from the start; a sequence goes through exactly if the key is set and the counter lasts |
| `Noise.ForgeriesAreForgotten` | agent/internal/noise/cipher.go:50-69 | however many ciphertexts fail to open, the genuine ones after them still decrypt in order |
| `Noise.SealInStep` | agent/internal/noise/handshake.go:335-360 | one side's encryptAndHash and the other's decryptAndHash keep both in step, with a fresh cipher state per call |
| `Noise.DhInStep` | agent/internal/noise/handshake.go:329-332 | mixing a shared secret from either end keeps both sides in step |
| `Noise.CipherState.EncryptWithAd` | agent/internal/noise/cipher.go:33-47 | the counter advances on success only; a zero key or a used-up counter is an error |
| `Noise.CipherState.DecryptWithAd` | agent/internal/noise/cipher.go:50-67 | the same for decryption; a forged message leaves the counter |
| `Noise.NoiseXX.SendMessage1` | agent/internal/noise/handshake.go:91-107 | the fields after message 1, or unchanged on error |
| `Noise.NoiseXX.ReceiveMessage1` | agent/internal/noise/handshake.go:110-124 | the fields after reading message 1 |
| `Noise.NoiseXX.SendMessage2` | agent/internal/noise/handshake.go:127-183 | the fields after message 2, with what is left half done on each error |
| `Noise.NoiseXX.ReceiveMessage2` | agent/internal/noise/handshake.go:186-236 | the fields after reading message 2, with what is left half done on each error |
| `Noise.NoiseXX.SendMessage3` | agent/internal/noise/handshake.go:239-274 | the fields after message 3 |
| `Noise.NoiseXX.ReceiveMessage3` | agent/internal/noise/handshake.go:277-312 | the fields after reading message 3 |
| `Noise.NoiseXX.SplitKeys` | agent/internal/noise/handshake.go:316-326 | the split keys, crossed by role |
| `Relay.SizeLimitIsExact` | agent/internal/relaychannel/channel.go:260-346 | a payload is refused for its size by no layer if the endpoint accepts it, and the frame layer refuses exactly those the endpoint does |
| `Relay.MessageLayout` | agent/internal/relaychannel/channel.go:260-290 | every byte of a relayed message; a payload goes out exactly if it has at most 8388591 bytes |
| `Relay.ReadableIsRead` | agent/internal/relaychannel/channel.go:188-237 | a message that is one text or binary frame, whose bytes open under the present counter to a lane of 0 to 2 and a payload, is delivered on that lane and moves the counter on |
| `Relay.OnlyReadableIsRead` | agent/internal/relaychannel/channel.go:188-237 | any other message stops the reader with nothing delivered |
| `Relay.ChunksAreFrames` | signaling-server/web/src/secureRelayChannel.js:195-225 | the browser's reader delivers what the frames decoded from all the bytes deliver, up to the first that is refused, and stops at bytes that are no frame |
| `Relay.MessagesDeliver` | agent/internal/relaychannel/channel.go:188-290 | everything written is read: the same lanes, kinds and payloads in order, with both counters in step |
| `Relay.ChunksDeliver` | signaling-server/web/src/secureRelayChannel.js:179-228 | the same through the browser's incremental decoder, for every chunking of the stream |
| `Relay.EndToEnd` | agent/internal/relaychannel/channel.go:188-290 | for every run of the scheduler whose arrivals the endpoints accept, while the counter lasts, no write is refused, and the payloads delivered on a lane are those written on it, in order, and on control and bulk a prefix of the sends made, less the cancelled and failed |
| `Relay.SecureRelayChannel.WriteScheduled` | agent/internal/relaychannel/channel.go:260-290 | envelope, encryption and frame of one request, and the send cipher after it |
| `Relay.SecureRelayChannel.ReadLoop` | agent/internal/relaychannel/channel.go:188-235 | the read loop delivers what the specified reader delivers and stops where it stops |
| `Relay.BrowserRelayChannel.ProcessMessage` | signaling-server/web/src/secureRelayChannel.js:179-228 | one chunk from the socket: buffer, cipher and deliveries after it |
| `Sinks.FixedRefinesOriginal` | signaling-server/web/src/downloadSinks.js:184-253 | for every input and every tail size of at least 1 the fixed sink has written a prefix of what the original has, and both withhold at least the last min(total, tail) bytes |
| `Sinks.AppendProgressesExactly` | signaling-server/web/src/downloadSinks.js:199-216 | a turn of the fixed sink's append loop takes something in every state exactly if the tail size is at least 1 |
| `Sinks.GoodExactly` | signaling-server/web/src/downloadSinks.js:36-48 | a download is good exactly if it has the announced size and, where a checksum is given, that is its digest in any case of letters; size is judged first |
| `Sinks.StreamingSinkFixed.AppendTurn` | signaling-server/web/src/downloadSinks.js:205-215 | a turn takes the amount that theorem speaks of, whatever the tail size, and adds those bytes to what is written and held |
| `Sinks.StreamingSink.Append` | signaling-server/web/src/downloadSinks.js:20-32 | the original writes all but the last tail bytes |
| `Sinks.StreamingSink.Finalize` | signaling-server/web/src/downloadSinks.js:36-69 | the withheld bytes are written exactly on a good verdict, and then the output is the input |
| `Sinks.StreamingSinkFixed.Append` | signaling-server/web/src/downloadSinks.js:199-216 | after any appends the fixed sink holds a closed-form number of bytes, has written the rest, and has copied at most three bytes per byte of input |
| `Sinks.StreamingSinkFixed.Finalize` | signaling-server/web/src/downloadSinks.js:218-244 | the output is the input exactly on a good verdict |
| `Sinks.BlobSink.Finalize` | signaling-server/web/src/downloadSinks.js:262-288 | the blob saved is the input, and it is saved exactly on a good verdict |
| `Sinks.CombineChunks` | signaling-server/web/src/downloadSinks.js:402-413 | the copy loop concatenates the chunks |
| `ServiceWorker.AppendKeepsTrack` | signaling-server/web/sw.js:480-516 | a chunk or end mark appended to the history keeps every cursor right: enqueued plus still to be read is the history from the stream's offset on |
| `ServiceWorker.CaptureIgnoresChunking` | signaling-server/web/sw.js:126-153 | the init segment captured is a function of the bytes, not of how they were cut |
| `ServiceWorker.MoovIsCaptured` | signaling-server/web/sw.js:117-153 | of a file of boxes, everything up to the end of the moov box is captured, whatever comes before and after it |
| `ServiceWorker.HistoryEnds` | signaling-server/web/sw.js:489-512 | the history of chunks in a row is their bytes in order, and an end mark hides whatever comes after it |
| `ServiceWorker.Entry.ComputeStreamPosition` | signaling-server/web/sw.js:166-203 | the cursor found by scanning makes exactly the history from the offset on still to be read, for every chunking |
| `ServiceWorker.Entry.RebaseStream` | signaling-server/web/sw.js:205-210 | a rebased cursor is right for a stream that has been given nothing |
| `ServiceWorker.Entry.CreateStream` | signaling-server/web/sw.js:212-228 | a response created at any moment is right from the start |
| `ServiceWorker.Entry.Pull` | signaling-server/web/sw.js:233-276 | after a pull a response from a given start holds, in terms of the file, the bytes from its start on as far as the data goes, from the first byte of the data if the start is before it, and nothing if it is beyond it; the stream closes exactly at the end |
| `ServiceWorker.Entry.Reset` | signaling-server/web/sw.js:422-457 | a newer generation starts empty and not done, moves the streams created in the generation before, or else those that had moved, and closes the others; an older one changes nothing |
| `ServiceWorker.Entry.StartOffset` | signaling-server/web/sw.js:459-471 | after an offset, a stream is right if and only if nothing of the generation had been enqueued to it |
| `ServiceWorker.OffsetTooLate` | signaling-server/web/sw.js:459-471 | an offset that comes after a chunk was enqueued, and the stream that would get it twice |
| `ServiceWorker.Entry.StartOffsetInOrder` | signaling-server/web/sw.js:459-471 | in the page's order, offset before chunks, every stream stays right |
| `ServiceWorker.Entry.FreshPreview` | signaling-server/web/sw.js:402-420 | a fresh preview starts everything anew: no history, not done, the size announced, no captured segment, old streams closed |
| `ServiceWorker.Entry.Chunk` | signaling-server/web/sw.js:501-516 | a chunk of the current generation joins the history and keeps all streams right; a stale one changes nothing |
| `ServiceWorker.Entry.EndOfData` | signaling-server/web/sw.js:480-499 | the end mark keeps all streams right, and a size never sent becomes the size received |
| `ServiceWorker.Entry.CaptureInitSegment` | signaling-server/web/sw.js:126-153 | what is captured is that function of all bytes offered |
| `MediaTrace.TraceSafety` | agent/internal/transfer/manager.go:1169-1345 | in every interleaving of previews, seeks and streams the operation ids sent never decrease, and each operation sends a header, then frames, then at most one end whose bytes_sent is the sum of its payloads, and nothing of its own after it |
| `MediaReads.EndMeansEof` | agent/internal/transfer/manager.go:1274-1345 | in every run, an operation whose end is on the wire is one whose last read ended with the end of the stream |
| `MediaReads.BrokenNeverEnds` | agent/internal/transfer/manager.go:1307-1324 | after a read that broke, no continuation of the run announces an end of the operation |
| `MediaReads.ReadIsFollowedUp` | agent/internal/transfer/manager.go:1274-1345 | left alone, an operation sends what a read returned and then its error if the read broke, its end with all its bytes if the stream ended, and nothing more otherwise |
| `MediaContexts.UnderWayExactly` | agent/internal/transfer/manager.go:1464-1524 | in every run a transfer is under way exactly if an operation began and the last to begin has not finished; the cancelled contexts are those of all others; nothing is sent in the name of no operation |
| `MediaContexts.StaleTurn` | agent/internal/transfer/manager.go:1274-1345 | a turn of an operation that is not current sends nothing and changes nothing but its own job |
| `MediaContexts.CancelledWindsDown` | agent/internal/transfer/manager.go:1289-1324 | with its context cancelled a job takes no more data, sends nothing, and comes nearer to its end with every turn |
| `MediaContexts.CancelledIsDone` | agent/internal/transfer/manager.go:1274-1345 | and is done after four turns of its own, whatever else goes on |
| `MediaTrace.OnlyErrorsAfterEnd` | agent/internal/transfer/manager.go:1514-1582 | after the end of an operation, in any run, a message of its own goes out if and only if a seek that names it as its parent is refused or fails while it is still current, and it is then that error |
| `MediaTrace.ErrorAfterEnd` | agent/internal/transfer/manager.go:1514-1582 | after any run, a preview that delivered its data and finished is followed by the error of a failed seek that names it |
| `MediaTrace.ChainsIncrease` | agent/internal/transfer/manager.go:1471-1500 | along every chain of accepted seeks generations and operation ids strictly increase |
| `MediaTrace.NothingAfterHeader` | agent/internal/transfer/manager.go:1274-1345 | an operation whose stream bears another generation than it was asked for never sends more than its header |
| `MediaTrace.PreviewDelivers` | agent/internal/transfer/manager.go:943-1056 | after any run, a preview can deliver its data if and only if it is a video or asks for generation 0 |
| `MediaTrace.EveryRun` | agent/internal/transfer/manager.go:1464-1582 | at every moment of every run: what each job has sent agrees with its phase and running total, only the current operation is not cancelled, and the chain of generations holds |
| `TransferManager.Manager.BeginMediaLocked` | agent/internal/transfer/manager.go:1487-1500 | a new operation replaces the current one, whose context is cancelled |
| `TransferManager.Manager.BeginMediaIfNewer` | agent/internal/transfer/manager.go:1471-1479 | a seek replaces its parent exactly if the parent is current, is this video and has an older generation |
| `TransferManager.Manager.FinishMedia` | agent/internal/transfer/manager.go:1514-1524 | the context of the finished operation is cancelled if it is current; the operation id stays |
| `TransferManager.Manager.SendIfCurrent` | agent/internal/transfer/manager.go:1540-1573 | a header, frame or end goes out only for the current operation |
| `TransferManager.Manager.SendMediaErrorIfActive` | agent/internal/transfer/manager.go:1575-1582 | an error goes out only for a nonzero current operation |
| `TransferManager.Manager.HandleAssetPreviewRequest` | agent/internal/transfer/manager.go:943-968 | the reasons for which a preview is refused, in their order; any other begins an operation, whatever is under way |
| `TransferManager.Manager.HandleAssetPreviewSeek` | agent/internal/transfer/manager.go:1169-1195 | the exact conditions under which a seek is fetched, ignored, or answered with an error to its parent |
| `TransferManager.Manager.SeekFetched` | agent/internal/transfer/manager.go:1212-1220 | a fetched seek is accepted exactly if it is newer than its current parent |
| `TransferManager.Manager.MediaTurn` | agent/internal/transfer/manager.go:1274-1345 | one step of a streaming goroutine, between two of which anything may happen |
| `TransferManager.Manager.MediaPromises` | agent/internal/transfer/manager.go:1169-1345 | the trace theorem for the manager object, after any calls |
| `Album.HeaderMeansSaved` | agent/internal/transfer/manager.go:328-407 | in every joint run, the header of part k + 1 goes out only when the browser has saved parts 1 to k, in order and each once |
| `Album.CompleteMeansSaved` | agent/internal/transfer/manager.go:408-419 | when the agent counts an album or announces its completion, the browser has saved parts 1 to n in order, each exactly once and no others |
| `Album.NoticeIsBelieved` | signaling-server/web/src/app.js:1563-1569 | a completion notice heard while its album is active is always accepted |
| `Album.FinishedMeansSaved` | signaling-server/web/src/app.js:1563-1569 | a browser that shows an album as complete has saved all its parts |
| `Album.StepKeeps` | signaling-server/web/src/app.js:1510-1569 | the linking invariant of both ends and of the messages on their way is kept by every step of either |
| `AlbumProgress.AlbumCompletes` | agent/internal/transfer/manager.go:328-419 | an album of any number of non-empty parts, left alone, is counted once with the sum of its bytes and completes in the browser |
| `AlbumAgent.NextPartAfterAck` | agent/internal/transfer/manager.go:328-419 | with any acknowledgements whatever, a batch's log is header, end, matching good acknowledgement for each part in order and then one count and one notice with the sum of the ends' bytes |
| `AlbumAgent.CountsAndToken` | agent/internal/transfer/manager.go:1420-1453 | downloads rise exactly with completed downloads, and the token is held exactly while a download is under way, for its present operation |
| `DownloadCounts.FileIsCounted` | agent/internal/transfer/manager.go:1058-1105 | in every run, while a file download holds the token, it is counted exactly if all its reads and sends were good, the last read returned nothing more, and a turn has passed since |
| `DownloadCounts.FailureNeverCounts` | agent/internal/transfer/manager.go:1058-1105 | a download of any kind whose read, send or wait fails before it is counted is never counted: the number of downloads stays until the token is free again |
| `DownloadCounts.FailureIsTold` | agent/internal/transfer/manager.go:328-419 | a failed fetch, read or wait of an album is told to the browser with the album's batch and operation |
| `DownloadCounts.PartEndsWell` | agent/internal/transfer/manager.go:421-455 | a part of an album ends exactly when its reads were good and the last returned nothing more, with the bytes they yielded |
| `BulkProtocol.RequestDecides` | agent/internal/transfer/manager.go:273-308 | after any run: a request is refused at once if there is a limit and it has been reached, refused at the token if a download is under way, and otherwise takes the token with a new operation; every refusal is told |
| `BulkProtocol.NewHolder` | agent/internal/transfer/manager.go:273-308 | the download that takes the token: an album with no part yet and an empty channel, or a file |
| `BulkProtocol.AckArrives` | agent/internal/transfer/manager.go:310-326 | an acknowledgement is put into its batch's channel exactly if it names an operation and the channel is empty |
| `BulkProtocol.WaitDecides` | agent/internal/transfer/manager.go:377-404 | a waiting part goes on exactly with the good acknowledgement of that part and operation; another ends the album without a word, a wait that is over ends it with an error |
| `BulkProtocol.TroubleEnds` | agent/internal/transfer/manager.go:328-375 | a message that cannot be sent is not followed by another, a broken archive and a missing album are told, and the album ends uncounted |
| `BulkProtocol.ClearingFrees` | agent/internal/transfer/manager.go:1435-1462 | an album that has ended leaves the table and frees the token, and nothing else changes |
| `BulkProtocol.PartsAdvance` | agent/internal/transfer/manager.go:336-419 | each part has a new operation, the album is counted once, after its last part, and then announced |
| `AlbumAgent.LimitPlusOne` | agent/internal/transfer/manager.go:273-281 | however requests and completions overlap, at most one download passes the limit |
| `AlbumAgent.LimitPassed` | agent/internal/transfer/manager.go:273-281 | a run in which one does |
| `DownloadLimit.PassedExactly` | agent/internal/transfer/manager.go:273-291 | from any state of any run, some continuation without a further request passes the limit if and only if the downloads counted, the one under way if it can still be counted, and the request admitted are together above it |
| `DownloadLimit.LoadIsReached` | agent/internal/transfer/manager.go:273-419 | that sum is reached by a continuation that lets the job end, admits the request and lets that end |
| `DownloadLimit.GuardIsExact` | agent/internal/transfer/manager.go:273-281 | an admitted request keeps every such continuation within the limit if and only if, at that moment, the downloads counted and the one under way are below it |
| `DownloadLimit.GuardedRunsStayWithin` | agent/internal/transfer/manager.go:273-281 | if every admitted request meets that guard, the limit holds throughout the run |
| `DownloadLimit.ForeignAckNeverCounts` | agent/internal/transfer/manager.go:310-404 | an album whose channel holds an acknowledgement for something else is under way but can no longer be counted |
| `AlbumBrowser.EveryRun` | signaling-server/web/src/app.js:955-971 | whatever the agent says, the browser saves parts 1, 2, 3 and so on of any batch, acknowledges only saved parts, and shows as complete only what is |
| `AlbumBrowser.CompleteIsBelieved` | signaling-server/web/src/app.js:1563-1569 | a notice for n parts is accepted exactly if n parts of that album of n are saved |
| `AlbumBrowser.AskDecides` | signaling-server/web/src/app.js:2187-2208 | an album is asked for, under a new id, exactly when nothing is on its way, no part is under way and no album is active |
| `AlbumBrowser.HeaderDecides` | signaling-server/web/src/app.js:955-971 | a part begins exactly with the header that is due: the next part of the active album, of the count announced before, for an operation not retired; any other header is ignored |
| `AlbumBrowser.ForeignErrors` | signaling-server/web/src/app.js:1792-1813 | a refusal that names another request, and an error of an operation neither under way nor acknowledged last in a gap between parts, change nothing |
| `AlbumBrowser.RefusalEndsAlbum` | signaling-server/web/src/app.js:1792-1801 | a refusal of the album asked for ends it, and another can be asked for |
| `AlbumBrowser.PartDecides` | signaling-server/web/src/app.js:1510-1531 | a part that is not good, or whose acknowledgement cannot be sent, ends its album; a good one goes on to the next; every part is answered |
| `AlbumBrowser.PartErrorEndsAlbum` | signaling-server/web/src/app.js:1802-1813 | an error about the part under way ends the part and its album, with nothing saved |
| `AlbumBrowser.LateErrorEndsAlbum` | signaling-server/web/src/app.js:1802-1813 | so does an error about the part acknowledged last, while the next has not begun |
| `AlbumBrowser.EndedStaysEnded` | signaling-server/web/src/app.js:1563-1575 | an album that has ended stays as it ended until another is asked for, and accepts no part |
| `TransferManager.Manager.AcquireBulk` | agent/internal/transfer/manager.go:1420-1433 | a free token is taken with a new operation; otherwise the request is refused and the holder untouched |
| `TransferManager.Manager.StartDownload` | agent/internal/transfer/manager.go:1420-1433 | an admitted request starts exactly if the token is free |
| `TransferManager.Manager.ReleaseBulk` | agent/internal/transfer/manager.go:1435-1442 | only the holder releases |
| `TransferManager.Manager.AdvanceBulkOperation` | agent/internal/transfer/manager.go:1444-1453 | the token changes operations without becoming free |
| `TransferManager.Manager.HandleAlbumArchiveAck` | agent/internal/transfer/manager.go:310-326 | an acknowledgement reaches the batch's channel, or is dropped if it is full or not the batch's |
| `TransferManager.Manager.HandleDownloadRequest` | agent/internal/transfer/manager.go:273-281 | the limit check, before and apart from the token |
| `TransferManager.Manager.BulkTurn` | agent/internal/transfer/manager.go:328-419 | one step of the goroutine that holds the token |
| `TransferManager.Manager.BulkPromises` | agent/internal/transfer/manager.go:328-419 | stop-and-wait, count and token for the manager object, after any calls |
| `TransferManager.StreamAlbumArchive` | agent/internal/transfer/manager.go:421-446 | the loop sends everything read up to the end of the stream, one frame for each read, and its total is the number of bytes sent; on failure a prefix |
| `AlbumPage.AlbumDownloads.RequestAlbumDownload` | signaling-server/web/src/app.js:2187-2208 | an album is asked for, with a new id, only when nothing else is pending or under way |
| `AlbumPage.AlbumDownloads.HandleControlMessage` | signaling-server/web/src/app.js:827-878 | the effect of each control message on the album |
| `AlbumPage.AlbumDownloads.PartDone` | signaling-server/web/src/app.js:1421-1439 | the terminal state of a part |
| `AlbumPage.AlbumDownloads.AbandonAlbum` | signaling-server/web/src/app.js:1571-1575 | only an active album fails |
| `AlbumPage.AlbumDownloads.AcceptAlbumHeader` | signaling-server/web/src/app.js:955-971 | the exact conditions of acceptance and what changes |
| `AlbumPage.AlbumDownloads.FinishAlbumPart` | signaling-server/web/src/app.js:1510-1531 | the acknowledgement sent and the album's state after a part |
| `AlbumPage.AlbumDownloads.CompleteAlbumDownload` | signaling-server/web/src/app.js:1563-1569 | the album is complete exactly on a matching notice after its last part |
| `AlbumPage.AlbumDownloads.HandleBulkError` | signaling-server/web/src/app.js:1792-1813 | which errors end the part, the album or nothing |
| `AlbumPage.AlbumDownloads.Promises` | signaling-server/web/src/app.js:1510-1569 | what is saved of any album is in order, and complete if shown so, after any calls |
| `EarlyFrames.StoredKeepsBytes` | signaling-server/web/src/app.js:1153-1190 | buffering a frame, coalesced or not, appends its bytes to those of its generation and to no other's, and adds an entry only if it does not coalesce |
| `ReassemblyRuns.NothingLost` | signaling-server/web/src/app.js:991-1043 | at every moment of every run the bytes that arrived for an operation that is not over are, in order, what its consumer has or what is buffered for it |
| `ReassemblyRuns.CountersMatch` | signaling-server/web/src/app.js:1153-1239 | the early-frame counters equal the buffered contents of both lanes and stay within the three limits |
| `LaneProtocol.EndDecides` | signaling-server/web/src/app.js:853-875 | an end that declares more than 64 bits hold, more than a safe integer for a part of an album, or less than has arrived, closes the session; one that declares more waits; one that declares what has arrived delivers exactly that |
| `LaneProtocol.ForeignEnd` | signaling-server/web/src/app.js:978-989 | any end that is not for the operation under way, its request and its generation changes nothing |
| `LaneProtocol.EveryEnd` | signaling-server/web/src/app.js:853-875 | in every run an end that waits is for the operation under way, unless that is already over, and of a size that may be declared |
| `LaneProtocol.FrameDecides` | signaling-server/web/src/app.js:991-1043 | a frame of the operation under way closes the session exactly if it goes beyond a declared end, completes the operation exactly if it is the last byte that an end waits for, and otherwise joins what it has |
| `LaneProtocol.EveryEntryRoomy` | signaling-server/web/src/app.js:1153-1190 | in every run only buffered entries of 64 KiB or more have no room for another byte |
| `LaneProtocol.EarlyFrame` | signaling-server/web/src/app.js:1153-1190 | a frame of an operation neither current nor retired is buffered behind what is buffered of it; the session closes exactly if 5308416 bytes, 128 entries or 128 operations would be exceeded |
| `LaneProtocol.UnaskedHeader` | signaling-server/web/src/app.js:930-953 | a header that does not answer the request on its way, with its asset and generation, changes nothing |
| `LaneProtocol.AnswerTakesOver` | signaling-server/web/src/app.js:827-852 | an answer of the fitting kind takes over: the request is answered, no end waits, the operation before is retired, and the new one starts with its own request, asset, kind and generation |
| `LaneProtocol.UnfittingAnswer` | signaling-server/web/src/app.js:842-849 | an answer of another kind, a still image during a video session or a video without one, changes no consumer |
| `LaneProtocol.OutdatedFrame` | signaling-server/web/src/app.js:1017-1017 | a frame of another generation than the consumer has is dropped |
| `LaneProtocol.SessionOpens` | signaling-server/web/src/app.js:2136-2162 | a new video session waits for its own asset and generation, and is not opened beside another consumer |
| `LaneProtocol.AnswerGetsBuffered` | signaling-server/web/src/app.js:1214-1239 | and it has at once everything that was buffered for it in its generation |
| `LaneProtocol.AbandonedOnce` | signaling-server/web/src/app.js:837-841 | the header of an abandoned request is heard once and changes no consumer |
| `LaneProtocol.SeekIsAnswered` | signaling-server/web/src/app.js:2306-2391 | after a seek forward only the new generation counts, and the request that follows is answered only by a video header for that asset and generation |
| `LaneProtocol.TurningAway` | signaling-server/web/src/app.js:1895-1942 | giving up an operation removes the consumer, its early frames and its deferred end and nothing else, and abandons the request on its way only if it is for a video |
| `GivenUp.LeavingRetires` | signaling-server/web/src/app.js:973-977 | whatever makes an operation not current any more retires it: completion, failure, a replacing header, or the user turning away |
| `GivenUp.LateFramesAreDropped` | signaling-server/web/src/app.js:991-997 | from any state of any run: once an operation stops being current, and for every continuation without a new header of it and with fewer than 64 later retirements on its lane, its frames change nothing but the history |
| `GivenUp.AbandonedFramesAreDropped` | signaling-server/web/src/app.js:837-841 | the same for the operation of an abandoned header |
| `ReassemblyRuns.DeliveredExactly` | signaling-server/web/src/app.js:1080-1098 | a completed operation delivered exactly what had arrived for it, of the length its end declared, and completes at most once per end message |
| `ReassemblyRuns.EveryInterleaving` | signaling-server/web/src/app.js:991-1098 | from its header on, however frames and end interleave and whatever else goes on, an undisturbed operation is delivered as soon as as many bytes as declared have arrived |
| `Multiplexing.AnyInterleaving` | signaling-server/web/src/app.js:991-1239 | from any state in which a new still image or file has been asked for and there is room: in every interleaving of its frames with its header and end, and with the traffic of other operations within the room reserved for it, none of its own events closes the session and exactly the concatenation of its payloads is delivered, once |
| `Multiplexing.ForeignStage` | signaling-server/web/src/app.js:991-1239 | frames, headers and ends of other operations leave the operation where it is, and take no more of the buffer than they bring |
| `Interleavings.FreshSession` | signaling-server/web/src/app.js:991-1239 | a new session is such a state for any frames that leave the reserved room within the byte and entry limits |
| `SuspendedDrain.OrderSurvivesExactly` | signaling-server/web/src/app.js:1227-1239 | for every bulk drain that a run can reach and every schedule of it, suspending after each entry: the consumer gets the bytes in the order of their arrival, whatever the contents, if and only if no frame with any bytes is handled while a held entry with any bytes is still to be replayed |
| `DrainOrder.ShapeIsExact` | signaling-server/web/src/app.js:1227-1239 | of all contents of a schedule with given lengths, every one comes out in the order of arrival if and only if nothing overtakes in it |
| `SuspendedDrain.DrainDelivers` | signaling-server/web/src/app.js:1004-1016 | in every schedule the session stays open, the content is in the order of the turns and nothing is lost |
| `SuspendedDrain.Reordered` | signaling-server/web/src/app.js:1227-1239 | a run from the start that asks for a file, gets two entries early and loses their order to one frame that comes during the drain |
| `SuspendedDrain.EveryRunTidy` | signaling-server/web/src/app.js:1153-1190 | in every run the entries held for a bulk operation have generation 0, and adjacent ones are too large together to have been coalesced |
| `ReassemblyRuns.EndToEnd` | signaling-server/web/src/app.js:991-1098 | with any run of the agent: what the browser delivers for a media operation it had not given up is everything the agent sent for it, delivered once, for every interleaving of the lanes |
| `ReassemblyOk.StepKeeps` | signaling-server/web/src/app.js:991-1239 | the ledger of arrived bytes, the counters, deferred ends and completions are kept by every event |
| `ReassemblyOk.ReplayKeeps` | signaling-server/web/src/app.js:1227-1239 | draining moves an operation's buffered bytes to its consumer without loss, duplication or reordering |
| `ReassemblyOk.CompleteDeferredKeeps` | signaling-server/web/src/app.js:1080-1098 | a deferred end completes exactly when its last byte arrives |
| `TransferPage.Page.BufferEarlyFrame` | signaling-server/web/src/app.js:1153-1190 | the buffer, the counters and the limits after one early frame |
| `TransferPage.Page.RouteOrBufferFrame` | signaling-server/web/src/app.js:991-1043 | a frame goes to its consumer, is dropped, is buffered, or closes the session, as specified |
| `TransferPage.Page.DrainEarlyFrames` | signaling-server/web/src/app.js:1227-1239 | the loop over the buffered entries, with nothing in between as on the media lane, equals the specified replay |
| `TransferPage.Page.DrainEntry` | signaling-server/web/src/app.js:1230-1234 | one entry of a drain, after which a drain of the bulk lane suspends |
| `TransferPage.Page.DiscardEarlyOperation` | signaling-server/web/src/app.js:1930-1942 | the counting loop removes exactly one operation's entries |
| `TransferPage.Page.CompleteDeferredEnd` | signaling-server/web/src/app.js:1080-1098 | a deferred end after more data |
| `TransferPage.Page.TakeEnd` | signaling-server/web/src/app.js:853-875 | an end: ignored, deferred, completing, or a violation, as is a size that is too large, for albums one beyond the safe integers |
| `TransferPage.Page.AcceptHeader` | signaling-server/web/src/app.js:930-953 | which headers are accepted for the pending request, its asset and its generation, and what an accepted one puts an end to |
| `TransferPage.Page.HandleHeader` | signaling-server/web/src/app.js:827-852 | a header's whole effect, with the replay of its early frames |
| `TransferPage.Page.HandleFrame` | signaling-server/web/src/app.js:889-906 | a frame's whole effect; bulk frames must have generation 0 |
| `TransferPage.Page.HandleEnd` | signaling-server/web/src/app.js:853-875 | an end is one step of the run |
| `TransferPage.Page.FailOperation` | signaling-server/web/src/app.js:1128-1151 | an error or a timeout of the current operation is one step of the run |
| `TransferPage.Page.RequestOperation` | signaling-server/web/src/app.js:2154-2162 | the pending request after asking for a still image or a file |
| `TransferPage.Page.OpenVideoSession` | signaling-server/web/src/app.js:2136-2162 | a video session and its first request |
| `TransferPage.Page.SendVideoSeek` | signaling-server/web/src/app.js:2354-2391 | a seek is sent only for a session with an operation and no request on its way |
| `TransferPage.Page.ExpireEarlyFrames` | signaling-server/web/src/app.js:1192-1212 | early frames that have waited too long close the session |
| `TransferPage.Page.StopOperation` | signaling-server/web/src/app.js:1895-1928 | what is forgotten when an operation is given up |
| `TransferPage.Page.SeekVideo` | signaling-server/web/src/app.js:2306-2336 | a seek outdates the data of the generations before |
| `TransferPage.Page.Promises` | signaling-server/web/src/app.js:991-1239 | the ledger and the counters for the page object, after any calls |
| `Retired.Retire` | signaling-server/web/src/app.js:973-977 | a retired operation is remembered, nothing else is added, and at most 64 are kept |
| `Retired.RetireKeeps` | signaling-server/web/src/app.js:973-977 | an operation is forgotten only when 64 others have been retired after it |

## Left out

- Interface code, WebSocket and WebRTC plumbing, HTTP clients, storage back ends, thumbnails' batching and the registry: I/O, or single-lock map updates that would only add easy members.
- Cryptography: Diffie-Hellman, AEAD, hash and key derivation are function values with the laws the proofs need (`Noise.LawsAreConsistent` shows the laws can hold); key generation is a parameter. No claim is made about conformance with sections 5.2 and 7.5 of the Noise Protocol Framework: `encryptAndHash` and `decryptAndHash` are modelled as coded, with a fresh cipher state on every call.
- The browser's own handshake code: only the agent's handshake source is modelled, for both roles.
- 64-bit wrap-around of operation ids and of nonces beyond the check that the cipher makes: runs are shorter than that.
- Clocks: an early frame's expiry, a completion timeout, an acknowledgement timeout and the aging of buffered frames are events that may happen at any time; timers' arming and disarming is not modelled.
- GoScheduler.Scheduler.Send: blocking is modelled as the critical sections that run before and after the wait; the notify channel is a generation number. `outerDeficit`, `outerCurrent` and `outerStarted` are one record, as are the inner ones; `nextDataLocked` is split into the choice and the pop. The last-resort control pop after the data choice cannot be reached (`SchedulerWaits.NextIsTotal`) and is not modelled.
- LaneScheduler.LaneScheduler.Pump: microtask turns are separate methods that may run in any order; promises and abort listeners are not objects of the model.
- Tables keyed by traffic class are records with one field per class, so map iteration order is fixed.
- ServiceWorker.Entry.Pull: the separate response that serves the captured init segment, Content-Range headers and the waking of parked pulls are not modelled; a pull runs whenever it runs. A stream's own init segment is never set by the original, so that branch of its pull is not modelled.
- Sinks.StreamingSinkFixed.Append: writer and hasher failures, the worker hasher's transport and deferred closing are not modelled; the digest is a function of the input.
- Relay: text payloads stay byte strings (no UTF-8), socket failures are the end of the run, and the relay channel holds cipher values rather than shared cipher objects.
- TransferPage.Page.HandleFrame: a still preview requested while a video session of the same asset is open is not modelled, nor is JSON parsing.
- ReassemblyRuns.EveryInterleaving: draining buffered frames is one step. For still images and video that is what the code does; for bulk operations the original suspends between entries, and the run theorems are for a drain that is not interleaved; what becomes of one that is, is `SuspendedDrain.OrderSurvivesExactly`. A bulk consumer is the sequence of appended chunks; its pipeline's verdict comes as a separate event.
- ReassemblyRuns.EndToEnd: holds of sessions that have not been closed; that an operation's frames within the limits do not close one is `Multiplexing.AnyInterleaving`, for still images and files. Ranges of a video are covered by `ReassemblyRuns.EveryInterleaving`.
- TransferPage.Page.AcceptHeader: the extra rules for accepting an album's header are in `AlbumPage.AlbumDownloads.AcceptAlbumHeader`, and a part of an album is here a request like any other. The asset id in the end of a video's range is not compared.
- MediaTrace.TraceSafety: reads of several atomics in one Go condition are one step of the model, except the context and generation checks of the streaming loop, which are two.
- Album.CompleteMeansSaved: single-file downloads compete for the agent's token, but the browser's side of them between two albums is not modelled; a part's bytes are followed in `TransferManager.StreamAlbumArchive` and `ReassemblyRuns`, not in the joint runs.
- TransferManager.Manager.HandleAssetPreviewRequest: the error that answers a refused request names no operation and is a return value here, not a message of the trace.
- Recovery after a session has been replaced: one transfer session is modelled.
