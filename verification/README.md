# A model of the relay chat's protocols

The repository is a two-party encrypted chat: a Go relay (`server/`) that joins two
connections in a bucket, and a browser client (`web/`) that transfers files and keeps two
histories in step over it. This project models the five parts that carry state and
arithmetic, and proves what they promise over whole runs.

Code that updates objects step by step is a class whose methods are proved equal to a step
function (`TransferEngines.TransferEngine`, `OfflineBuffers.OfflineBuffer`,
`Registries.Registry`, `RateLimits.Limiter`, `Throttles.TokenBucket`,
`ShapeStats.ShapeTracker`, `Pacers.Pacer`, `HistoryChunks.HistoryReceiver`,
`Resyncs.RoomSync`, `Uuids.IdSource`, `Quotas.Server`). The theorems are about those step
functions, over runs: sequences of events chosen freely, or freely but for what a theorem
says. Where several goroutines or a suspended `await` interleave, the model is a state machine
whose steps are the stretches between two interleaving points.

| files | part |
|---|---|
| `Chunking`, `TransferRecords`, `TransferHeld`, `TransferSender`, `TransferProgress`, `TransferProtocol`, `TransferSafety`, `TransferRuns`, `TransferOnce`, `TransferRepeats`, `TransferCompletion`, `TransferDiscards`, `TransferStart`, `TransferEvents`, `TransferRecovery`, `TransferPrompt`, `TransferEngine` | reliable transfer |
| `Registry`, `RegistrySafety`, `RegistryJoins`, `OfflineBuffer` | seats and the offline buffer |
| `Throttle`, `ShapeStats`, `Pacer`, `Admission`, `Envelope`, `RateLimit` | rates on both sides, and frame sizes |
| `Descriptor`, `Writer`, `Quota` | the relay's connection lifecycle and per-IP quota |
| `Strings`, `Wire`, `HistoryChunks`, `Resync`, `ResyncRuns`, `ResyncSessions`, `Uuid` | history resync and message ids |

Time is in milliseconds: an integer, or a real where rates are multiplied out. Bytes are
integers, token levels and averages reals. SHA-256 is injective (a digest is its preimage);
JSON with gzip is a pair of inverse functions; AES-GCM contributes its nonce and tag lengths.

## Where the code differs from its description

Each of these is a lemma; the code is modelled as it is.

- A cancel that arrives while a chunk is being sent is lost exactly when that send fails
  (`TransferSender.CancelDuringSend`).
- A payload can reach `deliver` twice exactly after an interruption: a cancel, forget, clear or storage
  refusal that drops its record before the message is visible, or a `deliver` call of a live record that
  fails, visible or not (`TransferRepeats.RepeatsIffInterrupted`). The cancel after three corrupt attempts
  is never reached, since every stored part resets the counter (`TransferOnce.CorruptionAlwaysRestarts`).
- A sender never sends an acknowledged chunk again. Once its receiver has thrown parts away, the transfer
  can complete by what is still sent exactly if none of the missing chunks is acknowledged
  (`TransferDiscards.CompletableIff`); a failed save loses all that are (`TransferDiscards.FailedSaveLoses`).
- Seats are safe through the reclaim window exactly if it is not negative and the idle limit is longer
  (`RegistrySafety.SeatsAreSafeIff`).
- The offline buffer keeps an already expired frame exactly if the time-to-live is not positive
  and the frame is within the byte cap (`OfflineBuffers.OfferIsLongest`).
- The pacer is never refused for its bytes exactly if its rate fits the tightened limit and its burst,
  with what it earns while a frame is held up, fits twice that limit (`Admissions.NeverRefusedIff`). The
  shipped burst fills the limit by itself, so any jitter at all lets the relay refuse a paced run
  (`Admissions.ShippedNeedsConstantDelay`). The limit on frames is paced by nothing: of small frames sent
  together more than twice it are refused (`Admissions.TogetherIff`).
- Two full chunk frames never fit in the burst described as two (`Envelopes.TwoChunkFramesExceedBurst`).
- Frames that arrive at one instant are flagged from the 9th on
  (`ShapeStats.SimultaneousStreamFlaggedFrom9`), regular ones with gaps from the 19th.
- Ids of one millisecond stop ascending after the sequence wraps (`Uuids.BurstAscendsIff`).
- The empty history and that of one empty id share a digest (`Resyncs.DigestsEqualIff`), and an
  empty id stops an exchange (`ResyncRuns.ConvergesIff`).
- The history receiver zero-fills a bundle that is shorter than announced, where
  `assembleHistoryChunks` fails (`HistoryChunks.AgreeUnlessShort`).
- A rejoin over a connection that is still live can release the creator's quota while the bucket
  exists (`Quotas.RejoinReleasesTwice`); `Quotas.DropBalancedIff` and `Quotas.SeatedBalancedIff`
  say exactly which drops and which admissions upset the count.
- Frames are stranded in the send queue exactly when a writer lowers the flag over a queue that is not
  empty and no `Enqueue` is on its way to it (`Writers.StrandedBy`); any number up to the capacity can be
  (`Writers.AnyNumberStrands`). A later `Enqueue` saves them if the queue has room and the peer is open;
  a full queue stays as it is for ever (`Writers.RevivedIff`).
- That a `dropPeer` call has returned means the descriptor is closed only for the call that won
  (`Descriptors.ReturnMeansClosedIff`).

## Model

| member | source | states |
|---|---|---|
| Chunking.SlicesTile | web/src/lib/crypto/session.ts:334-342 | the chunk slices of any payload, for any chunk size, concatenate to the payload |
| Chunking.SliceLength | web/src/lib/crypto/session.ts:338-342 | every slice has exactly the length the decoder demands for its index |
| Chunking.LengthsTile | web/src/lib/crypto/session.ts:334-342 | parts of the lengths the decoder demands fill exactly the announced size |
| Chunking.ChunkCountIsTight | web/src/lib/crypto/session.ts:334-336 | one chunk fewer would not reach the end of the payload, this many do |
| Chunking.Assemble | web/src/lib/relay/transfer.ts:572-583 | copying the parts fills the buffer with their concatenation, or fails exactly if they are not as long as it |
| TransferSender.StepKeeps | web/src/lib/relay/transfer.ts:390-473 | every event at a send record, wherever its pump is suspended, keeps: one pump at most, window bound, in flight and acknowledged disjoint, indices below total; and coverage unless it clears the flight |
| TransferSender.RunKeepsOutOk | web/src/lib/relay/transfer.ts:334-473 | the same over every run of events from a fresh record |
| TransferSender.ResendAckCovers | web/src/lib/relay/transfer.ts:449-459 | after a resend ack every chunk is acknowledged, in flight, queued or in hand until a step clears the flight |
| TransferSender.CancelDuringSend | web/src/lib/relay/transfer.ts:407-418 | a cancel during a send stands if and only if the send succeeds; otherwise the next tick offers the transfer again |
| TransferSender.SilentPeerFails | web/src/lib/relay/transfer.ts:745-776 | an unanswered send fails after the summed back-off plus at most a tick gap per attempt, and not before |
| TransferProgress.ResendAckQueuesMissing | web/src/lib/relay/transfer.ts:440-457 | one resend ack makes the queue exactly the indices the receiver lacks, whether or not a pump is suspended, once what is in flight is old |
| TransferProgress.BurstIsTodo | web/src/lib/relay/transfer.ts:390-421 | a burst of the pump sends, in queue order and as far as the window reaches, exactly what is neither acknowledged nor in flight |
| TransferProgress.RoundDelivers | web/src/lib/relay/transfer.ts:390-459 | a lossless round stores min(window, missing) more parts and can be followed by another |
| TransferProgress.RoundsComplete | web/src/lib/relay/transfer.ts:552-564 | n lossless rounds bring all the parts if and only if n windows hold what is missing |
| TransferCompletion.ReachableIsUnderWay | web/src/lib/relay/transfer.ts:304-313 | every transfer that both ends are collecting, in any state reached without discarding, meets what a round needs exactly when what is in flight is old |
| TransferCompletion.RoundRuns | web/src/lib/relay/transfer.ts:390-459 | a round is a legal run of events of the two engines, from any such state |
| TransferCompletion.TransferCompletes | web/src/lib/relay/transfer.ts:552-619 | from any such state, the receiver's next request starts a legal run of exactly ceil(missing / window) rounds that ends with the payload stored there and confirmed at the sender |
| TransferDiscards.EventTakes | web/src/lib/relay/transfer.ts:394-453 | the acknowledged set never shrinks, and no event takes up a chunk in it |
| TransferDiscards.CompletableIff | web/src/lib/relay/transfer.ts:440-459 | in every reachable state, whatever was discarded: a transfer can complete, not started anew and without a copy made before of a chunk acknowledged but missing, if and only if there is no such chunk |
| TransferDiscards.FailedSaveLoses | web/src/lib/relay/transfer.ts:603-615 | a failed save makes every acknowledged chunk such a chunk |
| TransferSafety.SenderStep | web/src/lib/relay/transfer.ts:377-426 | whatever happens at an engine, every chunk it sends is the slice of the payload its id and index name |
| TransferSafety.ReceiverStep | web/src/lib/relay/transfer.ts:495-619 | whatever happens at an engine fed genuine chunks, all it holds, delivers and stores is genuine, and a done ack follows storage |
| TransferSafety.FullRecordAssembles | web/src/lib/relay/transfer.ts:572-583 | a full record of genuine parts assembles to the payload |
| TransferSafety.HonestHashPasses | web/src/lib/relay/transfer.ts:584-604 | so its digest check passes and the payload goes to deliver |
| TransferSafety.HonestChunkDecodes | web/src/lib/crypto/session.ts:594-616 | every chunk of an allowed payload passes the decoder |
| TransferSafety.HonestAckDecodes | web/src/lib/relay/transfer.ts:304-313 | every ack for such a payload passes the decoder |
| TransferRuns.RunsAreSound | web/src/lib/relay/transfer.ts:428-619 | in every run of two engines over a network that drops, repeats and reorders, both directions keep these invariants |
| TransferRuns.DeliveredIsGenuine | web/src/lib/relay/transfer.ts:603-604 | each payload handed to deliver for an id equals the sender's bytes for it |
| TransferRuns.ConfirmedIsStored | web/src/lib/relay/transfer.ts:434-439 | an id reported as delivered is stored at the peer, with the sender's bytes |
| TransferRuns.SenderAcked | web/src/lib/relay/transfer.ts:440-445 | the acknowledged set grows only by indices a received ack lists |
| TransferRuns.ReceiverFaithful | web/src/lib/relay/transfer.ts:477-619 | an event that discards nothing keeps every held part and lists only held parts in new acks |
| TransferRuns.AcksAreSound | web/src/lib/relay/transfer.ts:304-313 | while no held part is discarded, every acknowledged index and every index of a sent ack is held or its payload stored |
| TransferOnce.DeliveredAtMostOnce | web/src/lib/relay/transfer.ts:572-619 | no id is handed to deliver twice while no save is interrupted, whatever arrives; a record may be dropped once its message is visible |
| TransferRepeats.RepeatsIffInterrupted | web/src/lib/relay/transfer.ts:495-619 | from every state of such a run, an event is followed by some uninterrupted continuation that hands an id over twice if and only if the event is an interruption |
| TransferRepeats.InterruptionRepeats | web/src/lib/relay/transfer.ts:500-550 | the continuation: the other saves end, the room is cleared, and the chunks of the interrupted payload come again |
| TransferRepeats.VisibleFailureRepeats | web/src/lib/relay/transfer.ts:603-615 | so does a deliver call that fails after its message is visible, since the record stays |
| TransferOnce.CorruptionAlwaysRestarts | web/src/lib/relay/transfer.ts:586-601 | in every run a failed digest check empties the record and asks again; the corrupt cancel is never sent |
| TransferStarts.FreshStartSends | web/src/lib/relay/transfer.ts:349-418 | a fresh start on a usable link puts chunk 0 on the wire and nothing else; on one that is not, nothing, and it waits |
| TransferStarts.FirstBurstSends | web/src/lib/relay/transfer.ts:390-421 | as its sends succeed, chunks 0, 1, 2 and so on follow, each the slice its number names, up to the window or the end |
| TransferStarts.ResumedStartAsks | web/src/lib/relay/transfer.ts:349-375 | a resumed start sends no chunk, only a query |
| TransferStarts.AdmittedIff | web/src/lib/relay/transfer.ts:495-550 | a chunk of an unknown transfer opens a record, with just its part, if and only if the room has a place and the bytes to spare; otherwise exactly a cancel goes out |
| TransferStarts.RunWithinCaps | web/src/lib/relay/transfer.ts:511-519 | in every run, whatever arrives, no room holds more transfers or announced bytes than its limits |
| TransferEvents.SenderAsksIff | web/src/lib/relay/transfer.ts:315-324 | exactly when the sender asks what the peer has, with the patience of each attempt written out |
| TransferEvents.ReceiverAsksIff | web/src/lib/relay/transfer.ts:477-493 | exactly when the receiver asks for what it misses |
| TransferEvents.FailedIsSilent | web/src/lib/relay/transfer.ts:745-776 | a failed record sends nothing, whatever happens, until a resend ack, the connection or the user revives it |
| TransferEvents.AckIs | web/src/lib/relay/transfer.ts:440-459 | what an ack makes acknowledged, what stays in flight, and when it gives back the attempts |
| TransferEvents.KnownChunkIs | web/src/lib/relay/transfer.ts:553-569 | a chunk of a known transfer is stored if and only if header, count, phase and part allow it, and which ack it is due; else nothing changes |
| TransferEvents.AckLists | web/src/lib/relay/transfer.ts:304-313 | an ack lists exactly the parts held, in ascending order |
| TransferEvents.RefusalSends | web/src/lib/relay/transfer.ts:543-549 | the three refusals send exactly a cancel, and what the end has of the transfer is gone |
| TransferEvents.CancelArrives | web/src/lib/relay/transfer.ts:462-473 | where it arrives the transfer is over, with nothing left to send, and it is not answered |
| TransferRecovery.QueryCompletes | web/src/lib/relay/transfer.ts:477-493 | from every state reached without discarding, whatever the receiver has of the transfer, one query leads to a legal run, with nobody's help, that ends with the payload stored and confirmed |
| TransferPrompts.NoTimerNeededIff | web/src/lib/relay/transfer.ts:561-567 | a transfer started between idle engines can end without any timer if and only if acks come at least once per full window or all chunks fit one |
| TransferEngines.TransferEngine.PumpUntilAwait | web/src/lib/relay/transfer.ts:394-421 | the pump loop up to its next await computes the specified record |
| TransferEngines.TransferEngine.RegisterSend | web/src/lib/relay/transfer.ts:349-375 | startSend registers a record and starts or re-offers it |
| TransferEngines.TransferEngine.PumpResumes | web/src/lib/relay/transfer.ts:407-424 | the pump resumed after a send, successful or not |
| TransferEngines.TransferEngine.HandleAck | web/src/lib/relay/transfer.ts:428-460 | the ack handler: done, unknown, plain and resend acks |
| TransferEngines.TransferEngine.HandleCancel | web/src/lib/relay/transfer.ts:462-473 | the cancel handler on both kinds of record |
| TransferEngines.TransferEngine.HandleQuery | web/src/lib/relay/transfer.ts:477-493 | a query is answered with held parts, done, or a request for all |
| TransferEngines.TransferEngine.HandleChunk | web/src/lib/relay/transfer.ts:495-570 | the chunk handler with its admission limits, duplicates and acks |
| TransferEngines.TransferEngine.CompleteHash | web/src/lib/relay/transfer.ts:572-603 | assembly and digest check, leading to deliver or a fresh start |
| TransferEngines.TransferEngine.DeliverSettles | web/src/lib/relay/transfer.ts:603-618 | the end of deliver, successful or not |
| TransferEngines.TransferEngine.OnConnected | web/src/lib/relay/transfer.ts:656-673 | a connection resumes every record of the room |
| TransferEngines.TransferEngine.OnDisconnected | web/src/lib/relay/transfer.ts:675-685 | a disconnection suspends every record |
| TransferEngines.TransferEngine.Tick | web/src/lib/relay/transfer.ts:745-806 | a timer tick at every record |
| TransferEngines.TransferEngine.Retry | web/src/lib/relay/transfer.ts:688-707 | the user's retry |
| TransferEngines.TransferEngine.CancelByUser | web/src/lib/relay/transfer.ts:710-719 | the user's cancel |
| Registries.Registry.Join | server/internal/bucket/bucket.go:101-208 | join by reclaim, free seat or refusal, as one step of the registry |
| Registries.Registry.Leave | server/internal/bucket/bucket.go:237-273 | leave, with the peer to notify and whether the bucket is reported gone |
| Registries.Registry.SweepIdle | server/internal/bucket/bucket.go:387-421 | removes exactly the buckets due and reports each creator as often as it lost one |
| RegistryJoins.JoinReclaims | server/internal/bucket/bucket.go:130-174 | a device gets the seat of its token and session back while it is connected or within the window, and what becomes of both seats |
| RegistryJoins.FullIff | server/internal/bucket/bucket.go:130-210 | exactly when a join is turned away |
| RegistryJoins.JoinTakesVacant | server/internal/bucket/bucket.go:181-208 | a newcomer gets the first vacant seat, and none only if there is none |
| RegistryJoins.DeviceReturns | server/internal/bucket/bucket.go:128-174 | over every run, a device that comes back while its seat is not due is in that seat again, whatever others did in between |
| RegistryJoins.FirstJoinCreates | server/internal/bucket/bucket.go:101-125 | the first join of a bucket creates it, charged to its address |
| RegistryJoins.LeaveMarks | server/internal/bucket/bucket.go:253-272 | a leave marks its seat dropped and changes nothing else |
| RegistryJoins.SweepTakesIff | server/internal/bucket/bucket.go:387-421 | exactly which buckets a sweep takes, and that traffic puts it off |
| RegistrySafety.JoinSeatsRespectHeld | server/internal/bucket/bucket.go:130-208 | a join changes a held seat only by reclaiming it under its token and a matching session |
| RegistrySafety.LeaveKeepsBucket | server/internal/bucket/bucket.go:253-292 | leaving an occupied seat never deletes the bucket |
| RegistrySafety.RunKeepsSeat | server/internal/bucket/bucket.go:130-233 | over every run in which a seat, where it is there, is connected or dropped no longer ago than the reclaim window, bucket, seat and token stay and the session changes only from empty |
| RegistrySafety.SeatsAreSafeIff | server/internal/bucket/bucket.go:387-421 | that promise holds for every run if and only if the reclaim window is not negative and shorter than the idle limit |
| OfflineBuffers.LongestIsLongest | server/internal/bucket/bucket.go:322-353 | the specification is the longest suffix that is unexpired and within both caps |
| OfflineBuffers.OfferIsLongest | server/internal/bucket/bucket.go:322-353 | after an offer the buffer is that suffix of everything offered, if and only if the time-to-live is positive or the frame too large |
| OfflineBuffers.OfferRefines | server/internal/bucket/bucket.go:322-384 | every offer keeps the refinement: at every later time the unexpired part of the buffer is the longest suffix then |
| OfflineBuffers.OfflineBuffer.Prune | server/internal/bucket/bucket.go:373-384 | compacting in place leaves exactly the unexpired frames, in order |
| OfflineBuffers.OfflineBuffer.MakeRoom | server/internal/bucket/bucket.go:335-340 | the eviction loop |
| OfflineBuffers.OfflineBuffer.BufferIfAlone | server/internal/bucket/bucket.go:322-353 | takes a frame exactly if the other seat is offline, and then holds the longest suffix |
| OfflineBuffers.OfflineBuffer.Drain | server/internal/bucket/bucket.go:363-371 | hands out exactly the longest suffix of what was offered since the last drain |
| Throttles.TokenBucket.Allow | server/internal/relay/throttle.go:26-42 | one decision of the limiter and its new level |
| Throttles.SlidingBound | server/internal/relay/throttle.go:18-42 | in any stretch of a run the admitted bytes are at most 2r + rT, the rate switching freely below r |
| ShapeStats.ShapeTracker.Observe | server/internal/relay/throttle.go:68-111 | one observed frame and its verdict |
| ShapeStats.MeanIsWeighted | server/internal/relay/throttle.go:80-86 | each average is the exponentially weighted mean written out |
| ShapeStats.VarIsMoment | server/internal/relay/throttle.go:80-86 | each variance field is the weighted second moment less the squared weighted mean, and not negative |
| ShapeStats.FieldsAreMoments | server/internal/relay/throttle.go:68-88 | so are the fields after any stream of frames |
| ShapeStats.RegularStreamFlaggedFrom19 | server/internal/relay/throttle.go:93-110 | a regular stream of frames above 32 KiB is flagged from its 19th frame on and never before |
| ShapeStats.SimultaneousStreamFlaggedFrom9 | server/internal/relay/throttle.go:93-110 | with no gaps at all it is flagged from the 9th |
| ShapeStats.OddSizeFlaggedIff | server/internal/relay/throttle.go:93-110 | by how much the last frame of a regular stream may differ in size and be flagged all the same |
| Pacers.Pacer.Take | web/src/lib/relay/pacer.ts:26-44 | take sleeps at most once, and then spends from the refilled bucket |
| Pacers.OneSleepIsEnough | web/src/lib/relay/pacer.ts:30-38 | a sleep of the computed length is enough for any cost |
| Pacers.SleepIsShortest | web/src/lib/relay/pacer.ts:30-38 | and it is the shortest in whole milliseconds that is |
| Admissions.PacedIsAdmitted | server/internal/relay/server.go:476-488 | paced frames are all admitted, by bytes or by number, on any in-order link of bounded jitter and whichever limit each is judged at, if the pacer with its savings fits the lowest |
| Admissions.NeverRefusedIff | server/internal/relay/server.go:476-488 | for every rate, burst, limit and jitter, with flags as observe gives them: no paced run is ever refused if and only if rate <= c and burst + rate * jitter <= 2c, where c is half the limit if the burst exceeds 32 KiB and else the limit |
| Admissions.EvenIsTight | server/internal/relay/throttle.go:93-110 | frames at even distances are judged at c from the 19th on |
| Admissions.ShippedNeedsConstantDelay | web/src/lib/relay/pacer.ts:8-10 | at the shipped constants that is the case if and only if the jitter is zero |
| Admissions.LargeFramesAdmitted | server/internal/relay/server.go:478-488 | paced frames of at least m bytes are never refused for their number if the pacer fits half the frame limit at m bytes a frame |
| Admissions.TogetherIff | server/internal/relay/server.go:478-488 | small frames that leave a full pacer together are all admitted if and only if they are at most twice the frame limit |
| Envelopes.EncodeBinaryEnvelope | web/src/lib/crypto/session.ts:396-406 | fails exactly for over-long metadata, else writes bytes that parse back to the three parts |
| Envelopes.ParseIsInverse | web/src/lib/crypto/session.ts:573-590 | parsing and layout are inverse, in both directions |
| Envelopes.ChunkFrameFits | web/src/lib/crypto/session.ts:977-989 | every chunk frame fits in the burst, in the ciphertext limit and in the relay's frame limit |
| Envelopes.TwoChunkFramesExceedBurst | web/src/lib/relay/pacer.ts:9-10 | two full chunk frames never fit in the burst together |
| RateLimits.Limiter.AllowCreate | server/internal/ratelimit/ratelimit.go:36-50 | one create decision, touching no other IP |
| RateLimits.Limiter.TryAcquireBucket | server/internal/ratelimit/ratelimit.go:52-60 | one acquisition |
| RateLimits.Limiter.ReleaseBucket | server/internal/ratelimit/ratelimit.go:62-71 | one release, forgetting an IP at zero |
| RateLimits.CreatesSlidingBound | server/internal/ratelimit/ratelimit.go:36-50 | creates admitted in any half-open interval of one window length are at most twice the limit |
| RateLimits.RefusedIff | server/internal/ratelimit/ratelimit.go:36-50 | after any calls of an IP, the next create is refused if and only if the window they end in is not over and has had at least the limit of calls |
| RateLimits.HonestIsAdmitted | server/internal/ratelimit/ratelimit.go:44-49 | an IP that stays within the limit is never refused |
| RateLimits.CountsAreHoldings | server/internal/ratelimit/ratelimit.go:52-71 | over any run each IP is counted by itself, an acquisition succeeds if and only if it holds fewer than the maximum, and only IPs that hold something are kept |
| Descriptors.RunKeeps | server/internal/relay/server.go:373-407 | every interleaving of registration and drops keeps lock, winner and descriptor history in step |
| Descriptors.DescriptorSafe | server/internal/relay/server.go:381-407 | Start never overlaps or follows Stop or Close, and no descriptor is closed twice |
| Descriptors.FailureDropsPeer | server/internal/relay/server.go:373-407 | a registration that fails at either call drops the peer |
| Descriptors.ClosedExactlyOnce | server/internal/relay/server.go:675-691 | once registration and the winning drop are over, the descriptor has been closed exactly once |
| Descriptors.ClosedIff | server/internal/relay/server.go:373-407 | once registration is over, the descriptor has been closed if and only if registration found the peer closed or the winning drop is past its Close |
| Descriptors.ReturnMeansClosedIff | server/internal/relay/server.go:675-691 | over all runs, a returned dropPeer call means the descriptor is closed if and only if the call won |
| Writers.AtMostOneWriter | server/internal/relay/server.go:582-587 | at most one writeLoop is pending or running per peer |
| Writers.FramesConserved | server/internal/relay/server.go:568-644 | until the first write error, accepted frames are those written, the one in hand and those queued, in order; the queue stays within its capacity |
| Writers.LoopConserves | server/internal/relay/server.go:610-644 | each step of the loop keeps that equation |
| Writers.WriterDrains | server/internal/relay/server.go:610-644 | a writer left to itself writes what it holds and all that is queued, in order, and ends with the flag down |
| Writers.FailedWriteEnds | server/internal/relay/server.go:617-620 | a failed write closes the peer and ends the loop, and no later Enqueue is taken |
| Writers.StrandedBy | server/internal/relay/server.go:582-644 | exactly one kind of step leaves frames queued with no writer to come: lowering the flag over a queue that is not empty, with no Enqueue about to see to a writer |
| Writers.RevivedIff | server/internal/relay/server.go:568-587 | stranded frames are written by some continuation if and only if the queue has room and the peer is open or an Enqueue is past its test |
| Writers.BeyondStays | server/internal/relay/server.go:568-587 | otherwise they stay, whatever happens |
| Writers.AnyNumberStrands | server/internal/relay/server.go:610-644 | any frames, from one to the capacity, are stranded in some reachable state of an open peer |
| Quotas.Server.HandleConn | server/internal/relay/server.go:309-355 | admission, upgrade and join as one step |
| Quotas.ConnectSeatsIff | server/internal/relay/server.go:309-360 | exactly which connections are seated, and that the others leave every count as it was |
| Quotas.Server.DropPeer | server/internal/relay/server.go:675-705 | teardown as one step |
| Quotas.Server.SweepOnce | server/internal/relay/server.go:204-217 | one sweep and its releases |
| Quotas.DropBalancedIff | server/internal/relay/server.go:680-704 | a drop keeps the count equal to the live buckets if and only if not: bucket there, seat empty, all else expired |
| Quotas.SeatedBalancedIff | server/internal/relay/server.go:309-355 | seating restores the count if and only if the bucket is still as admission found it, or nothing is seated |
| Quotas.QuotaConserved | server/internal/relay/server.go:309-355 | over every run without rejoin onto a live connection, each IP's count is its number of live buckets |
| Quotas.NeverAboveMax | server/internal/ratelimit/ratelimit.go:52-60 | and it never owns more than the maximum |
| Quotas.NoReleaseIsClamped | server/internal/ratelimit/ratelimit.go:62-71 | and no release meets the clamp at zero |
| Quotas.RejoinReleasesTwice | server/internal/bucket/bucket.go:146-174 | a rejoin onto a live connection leads to a bucket that is not counted |
| Wires.WireRoundTrip | web/src/lib/crypto/backup.ts:68-175 | exactly which messages survive toWire and fromWire, and as what |
| Wires.WireRoundTripExact | web/src/lib/crypto/backup.ts:68-175 | a message comes back unchanged if and only if it meets the checks |
| Wires.AcceptedIsSendable | web/src/lib/crypto/backup.ts:110-175 | whatever JSON is read, an accepted message survives again |
| Wires.UnpackMessages | web/src/lib/crypto/history-sync.ts:78-88 | reads the acceptable items of a bundle, in order, seen from the other side |
| Wires.ReadableMembers | web/src/lib/crypto/history-sync.ts:72-88 | what is read from a bundle is exactly the surviving messages, cleaned and flipped |
| Wires.FlipIs | web/src/lib/crypto/history-sync.ts:40-42 | flipping changes the side of a message and nothing else |
| Wires.AcceptedIff | web/src/lib/crypto/backup.ts:110-175 | exactly which JSON is read as a message |
| Wires.ReadableOne | web/src/lib/crypto/history-sync.ts:78-88 | a sent message is read as the same one from the other side, field by field, or not at all |
| Wires.ReadableInOrder | web/src/lib/crypto/history-sync.ts:83-87 | and a list of items one by one, in order |
| HistoryChunks.SplitHistoryChunks | web/src/lib/crypto/session.ts:844-868 | fails exactly for a chunk size below one, else yields chunks that assemble to the bytes |
| HistoryChunks.PiecesAre | web/src/lib/crypto/session.ts:844-868 | each chunk names bundle, place and number, has the length its place demands, and only the first announces the total length |
| HistoryChunks.AssembleHistoryChunks | web/src/lib/crypto/session.ts:871-896 | succeeds exactly on rearrangements of a well-formed bundle, with its bytes |
| HistoryChunks.AnyOrderAssembles | web/src/lib/crypto/session.ts:844-896 | every permutation of the split chunks assembles to the original, for every chunk size |
| HistoryChunks.HistoryReceiver.HandleHistoryChunk | web/src/lib/relay/connection-manager.ts:1716-1770 | the incremental receiver, part by part |
| HistoryChunks.ReceiverCompletes | web/src/lib/relay/connection-manager.ts:1716-1770 | it completes exactly with the chunk that makes every index seen with or after chunk 0, with the assembler's bytes, whatever the duplicates and other bundles |
| HistoryChunks.IgnoredIff | web/src/lib/relay/connection-manager.ts:1716-1745 | exactly which chunks are ignored, and that nothing collected changes then |
| HistoryChunks.ReceiveSpares | web/src/lib/relay/connection-manager.ts:1745-1770 | other bundles are never touched, and a complete one is forgotten |
| HistoryChunks.AgreeUnlessShort | web/src/lib/relay/connection-manager.ts:1764-1769 | receiver and assembler agree on aligned chunks if and only if they are not shorter than announced |
| Resyncs.DigestsEqualIff | web/src/lib/crypto/history-sync.ts:9-18 | digests are equal if and only if the id sets are, but for one collision |
| Resyncs.FlagMeaning | web/src/lib/relay/connection-manager.ts:561-572 | what the lowered mismatch flag says about the two histories |
| Resyncs.MergeAdds | web/src/lib/storage/history.ts:165-174 | merging adds exactly the ids sent and leaves existing messages untouched |
| Resyncs.MergeKeepsFirst | web/src/lib/storage/history.ts:165-174 | of several messages with one id the first is kept |
| Resyncs.StraysIgnored | web/src/lib/relay/connection-manager.ts:1592-1645 | frames of another request or role change nothing and are not answered; a refusal ends only its own session |
| Resyncs.PushListMembers | web/src/lib/crypto/history-sync.ts:26-46 | what is pushed is exactly the messages the peer has not named |
| Resyncs.RoomSync.MergeMessages | web/src/lib/storage/history.ts:165-174 | the merge loop |
| Resyncs.RoomSync.OnPeerDigest | web/src/lib/relay/connection-manager.ts:561-572 | the flag goes up exactly if the digests differ |
| Resyncs.RoomSync.PublishDigest | web/src/lib/relay/connection-manager.ts:537-559 | sends the digest if someone is there and compares it with the last one heard |
| Resyncs.RoomSync.RespondResync | web/src/lib/relay/connection-manager.ts:1517-1567 | accept with the sorted ids, or reject |
| Resyncs.RoomSync.RunDifferentialPush | web/src/lib/relay/connection-manager.ts:1647-1714 | sends the bundle of missing messages and settles what to expect |
| Resyncs.RoomSync.OnFrame | web/src/lib/relay/connection-manager.ts:1592-1790 | one frame of the exchange at one side |
| ResyncRuns.ExchangeCompletes | web/src/lib/relay/connection-manager.ts:1603-1714 | every interleaving of an accepted exchange ends after the same number of deliveries, each side holding its own and what the other could send |
| ResyncSessions.SessionsClose | web/src/lib/relay/connection-manager.ts:1792-1807 | neither side reports the exchange done while a message it lacks is still to come, and when nothing is left to deliver both have |
| ResyncRuns.GainsAre | web/src/lib/crypto/history-sync.ts:40-88 | nothing held changes, and exactly the missing messages that survive are added, each field as it was but for the side, a quote of nothing and the sanitised file name |
| ResyncRuns.ConvergesIff | web/src/lib/relay/connection-manager.ts:1771-1775 | both sides end with the same ids if and only if every one-sided message survives and no empty id stops the exchange |
| ResyncRuns.DigestsAgreeAfter | web/src/lib/relay/connection-manager.ts:561-572 | then both hold the union and their digests are equal |
| ResyncRuns.MirroredIff | web/src/lib/crypto/history-sync.ts:40-42 | a message sent over is the same but for its side if and only if it meets the checks |
| Uuids.BytesToUuid | web/src/lib/crypto/id.ts:6-22 | the hex text of the bytes with its dashes |
| Uuids.IdSource.UuidV7 | web/src/lib/crypto/id.ts:28-59 | one id and the new stamp |
| Uuids.TextIs | web/src/lib/crypto/id.ts:6-22 | an id has 36 characters, dashes at the four places, and two lower-case digits per byte, the high one first |
| Uuids.LayoutReadsBack | web/src/lib/crypto/id.ts:28-59 | time, sequence and all random bits that are kept can be read back from the bytes, and where the next sequence comes from |
| Uuids.LaterStampGreaterId | web/src/lib/crypto/id.ts:41-59 | ids are ordered as their stamps are, whatever the random bits |
| Uuids.NextIdGreaterIff | web/src/lib/crypto/id.ts:28-37 | the next id is greater if and only if the clock has not fallen behind the stored time |
| Uuids.RunAscendsIff | web/src/lib/crypto/id.ts:28-37 | so is a whole run of ids |
| Uuids.BurstAscendsIff | web/src/lib/crypto/id.ts:24-37 | ids of one millisecond ascend if and only if there are no more of them than sequence numbers left and one |
| Uuids.VersionAndVariant | web/src/lib/crypto/id.ts:52-57 | every id has version 7 and the RFC 9562 variant |

## Left out

- Transfer: one room per engine; progress, detail and publish fields, persistence of pending ids
  and the timer object; the width, height and reply fields of a header.
- Transfer: records are values in maps, and the identity of an incoming record is a serial number;
  the iteration order of maps is abstracted by sets of messages. Two `startSend` calls for one id may
  overwrite each other's record at any time, which allows more than the code does.
- Transfer: each id names one payload of its sender, and the two senders' ids differ. Own messages in
  `hasMessage`, deletion of stored messages, and the relabelling of images in `toStored` are not modelled.
- TransferCompletion.TransferCompletes: for the direction from a to b, as the other is the same; it starts
  once the receiver has opened its record. Its rounds are lossless and prompt; loss between rounds is not counted.
- TransferRecovery.QueryCompletes: for runs that discard nothing (for the others, see `TransferDiscards.CompletableIff`).
- TransferPrompts.NoTimerNeededIff: for one transfer between engines that are idle otherwise.
- TransferDiscards.CompletableIff: for a payload not yet stored and with no earlier save of it pending.
- Registry: Join, Leave and SweepIdle are atomic; Join releasing the map lock before it seats a bucket's
  creator is not modelled. The lifetime caps on bytes and age are left out.
- Offline buffer: who drains is not modelled, since frames carry no sender; byte copies are values.
- Rates: reals stand for floating-point numbers, and the test on a square root is taken as one on squares.
  So are sizes and clocks there: whole bytes and milliseconds would round the bound down.
- Admissions.NeverRefusedIff: every data frame of the connection is paced and no larger than the burst; digests
  and ids are not paced. The two limiters are treated one at a time.
- Descriptors: netpoll callbacks and the read loop; Writers: what follows a write error.
- Quotas: connect, drop and sweep are atomic in runs; `Quotas.SeatedBalancedIff` covers what may come
  between admission and seat. Proof of work and HTTP parsing are left out.
- Resync: the channel is lossless and keeps order and handlers are atomic, with no other writes to the
  stores; disconnection, prompts, device trust and status display are left out. `isValidMime` and
  `sanitizeFileName` are arbitrary functions; numbers are integers.
- Resync: `listMessages` normalising stored rows and `syncMessages` removing repeats are not modelled.
- ResyncSessions.SessionsClose: for histories without an empty id and request ids without a colon (they are
  UUIDs); a side whose exchange an empty id stops stays in its waiting phase.
- Image chunks: split and assemble like history chunks, for frames the client no longer accepts.
- Uuids: `now` is a whole number of milliseconds, and orders are proved below 2^48.
