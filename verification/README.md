# Verified model of zmq.rs

zmq.rs implements ZMTP 3.0 (RFC 23/ZMTP) in Rust. This project models the state machines and queues
at its centre and proves what they are for. Each component that changes state in the source is a
class here, and each of its methods is proved against a specification function or a step of a state
machine; the theorems are about those functions and machines.

| files | component |
|---|---|
| `Sequences.dfy`, `Wrappers.dfy`, `Bytes.dfy` | sequences, options and results, bytes, big-endian integers, the growable buffer |
| `Utf8.dfy`, `Command.dfy`, `Framing.dfy` | UTF-8, the READY command, the frame grammar as a recursive parser over whole byte strings, the encoder |
| `Codec.dfy` | the resumable decoder: a step machine, its class, fragmentation invariance, refinement of the grammar |
| `ReadChunk.dfy`, `FramedRead.dfy` | the adaptive read chunk and the reader over short reads, Pending results and errors |
| `WriteQueue.dfy`, `WirePath.dfy` | the batching writer, and the whole path from sender to receiver |
| `FairQueueModel.dfy`, `FairQueueService.dfy`, `FairQueue.dfy` | the fair queue over its lock regions, its service properties, and the class |
| `PubFanout.dfy` | the lock-free wake protocol between publishers and the fan-out worker |
| `PubBackend.dfy`, `SubBackend.dfy` | PUB filters and fan-out; SUB subscription state and its agreement with PUB |
| `PubSystem.dfy` | the wake protocol and the fan-out together |
| `Backend.dfy` | the generic backend: round robin with stale ids, and the single-peer cache |
| `Envelope.dfy`, `EnvelopeNetwork.dfy` | REQ, ROUTER, DEALER and REP envelopes over any number of hops; many clients behind shared proxies |

`dafny verify dfyconfig.toml` checks everything.

## Main results

1. **The wire path is the identity.** `WirePath.Transfer`: for all sendable items, all arrival
   patterns at the writer, all behaviours of the transport and all read-buffer options, the reader
   yields exactly what was sent, in order, then a clean end. It rests on `Codec.FragmentationInvariance`
   (any split of the bytes decodes alike), `Codec.DrainIsParse` (the machine computes the grammar) and
   `Framing.ParseInvertsEncode` (the grammar inverts the encoder).
2. **No lost wake-up in the fair queue**, over every interleaving (`FairQueueModel.NoLostWakeUp`,
   `FairQueueModel.ParkedMeansNothingToDo`), and no end of the queue is reported while a stream is
   connected (`FairQueueModel.NoEndWhileConnected`), with exact bounded waiting
   (`FairQueueService.BoundedWaiting`), conservation and round-by-round order.
3. **No stranded message in the PUB fan-out queue**, for any number of publishers
   (`PubFanout.NoStrandedMessage`), and the worker alone always drains it (`PubFanout.WorkerDeliversAll`).
   Down to the subscribers' queues: `PubSystem.AtRestAllAreOffered`.
4. **The single-peer cache is invisible** over every run in which no peer returns while a stale copy of
   its id is still queued, after the cache has served a message past other ids (`Backend.CacheIsInvisible`).
   Before that nothing differs at all (`Backend.EarlyRevivalIsHarmless`). It is the weakest guard on the
   backend's own state that keeps the relation the proof rests on (`Backend.GuardIsWeakest`). One turn of
   the rotation is fair exactly when no live id is queued twice, which exactly the connection of a queued
   id spoils (`Backend.OneTurnIsFairIff`, `Backend.StepKeepsFairIff`).
5. **Envelopes**: REP sees exactly the payload if and only if no identity on the way is empty, and a
   reply retraces every hop, ROUTER by ROUTER (`Envelope.RepSeesPayloadIffNoEmptyIdentity`,
   `Envelope.ReplyReturnsToRequester`, `Envelope.Exchange`). For any number of clients behind any tree of
   shared proxies and any interleaving, every reply comes home to its own requester
   (`EnvelopeNetwork.EveryReplyComesHome`), and routing loses nothing (`EnvelopeNetwork.RoutingMakesProgress`).
6. **Subscription state**: across reconnects no publisher that has been sent every control frame of its
   connection ever filters out a wanted frame (`SubBackend.WantedAlwaysPasses`); every such filter stays
   exactly right throughout a run if and only if no unsubscription leaves it a topic without a remembered
   prefix (`SubBackend.FiltersStayRightIff`), which the subscriber's own repeated calls decide
   (`SubBackend.RepeatsDecide`); and the lists themselves agree throughout if and only if no remembered
   topic is subscribed again (`SubBackend.AgreementIff`).

## Where the code does less than a reader might expect

- A stream that ends right after a flags byte or a complete length field is reported as a clean end,
  although a frame has begun; the comment in `src/codec/framed.rs:126-127` says that leftover bytes mean
  a truncated frame, and only bytes still in the reader's own buffer count. `WirePath.CleanEndIff` gives
  the exact condition, `WirePath.TruncatedBodyEndsCleanly` an instance.
- Clearing the fair queue while a stream is being polled, after that stream has woken itself, puts the
  stream back with neither an event nor a waker. `FairQueueModel.StreamsStayPollableIff` gives the exact
  condition for one step, `FairQueueModel.ClearDuringPollStrandsStream` the run.
- While a stream waits, another one can yield two items, not one, if and only if it is just being polled,
  has an item to give, and an event of its own stands ahead of the waiting stream
  (`FairQueueService.BoundedWaiting`; a run: `FairQueueService.TwoItemsBeforeService`).
- Removing a queued key leaves its event in the heap (`FairQueueService.OneEventEachIff`).
- A peer whose id is still queued when it connects gets extra turns, be it a live peer that is replaced or
  one that returns while a stale copy is left (`Backend.StepKeepsFairIff`). In the second case the cache can
  sometimes be told from the slow path too: a message goes to another peer (`Backend.ReusedIdShows`).
- Subscribing twice to a topic leaves two copies at PUB and one entry at SUB, so that one unsubscribe
  is not enough (`SubBackend.RepeatedSubscriptionLingers`).
- A message published while nobody is connected is dropped at once, but one published while somebody else
  is connected waits for the worker and reaches a subscriber that connects meanwhile
  (`PubBackend.LateSubscriberNoticesOthers`). `PubBackend.AsIfAloneIff` gives the exact condition under which
  the presence of others shows.
- A control frame whose send fails without a broken pipe (`src/sub_backend.rs:238-245`) leaves the publisher
  connected with a wrong list, which can filter out wanted frames until it reconnects
  (`SubBackend.LostFrameFiltersWanted`, and `SubBackend.WantedPassesIff` for the exact condition).
- REP may receive again before it replies; the earlier request is then forgotten, and its client waits for ever
  (`src/rep.rs:174-175`). `EnvelopeNetwork.ForgottenIff` lists all the ways in which that happens.
- Encoding a message without frames, which `split_off` can produce, underflows the frame count in
  `src/codec/zmq_codec.rs:186`: with overflow checks it panics, without them nothing is written. The
  condition for encoding is `frames != []` (`Codec.ZmqCodec.EncodeInto`).

## Modelling assumptions

- `usize` is 64 bits wide. Integers that can overflow are bounded explicitly: a `requires` of the buffer
  in `Bytes.dfy` is a condition under which the real buffer does not panic.
- Concurrent components are state machines over their lock regions (fair queue) or atomic operations
  (PUB fan-out); the latter assumes sequential consistency, while the source uses acquire and release.
- The environment (transport, senders, peers, wakers) acts through scripts or action lists that the
  theorems quantify over.
- In the backends, connect, disconnect, subscribe and a send that runs to completion are atomic, and so is
  the refresh of the single-peer cache. In `PubBackend.dfy` a `send` and the worker's turn are one step
  each; the wake protocol between them is `PubFanout.dfy`, and `PubSystem.dfy` puts
  the two together.
- `FramedWrite` and the default `decode_eof` come from the `asynchronous_codec` crate, which is not part
  of this model: the sink is a buffer that the transport empties in any portions, and `decode_eof` is one
  more `decode`.

## Model

| member | source | states |
|---|---|---|
| Utf8.ValidUtf8Iff | src/codec/command.rs:85-88 | a property name is accepted exactly if it is the UTF-8 encoding of some scalar values, each in its shortest form |
| Utf8.AsciiIsValid | src/codec/command.rs:85-88 | every ASCII name is accepted |
| Bytes.MostSignificantFirst | src/codec/zmq_codec.rs:110-114 | integers on the wire have their most significant byte first |
| Command.ParseReady | src/codec/command.rs:60-106 | the parser loop terminates, stays within the frame on every input, and computes the specification parser with all six error cases |
| Command.PrintReady | src/codec/command.rs:109-141 | the two-pass printer writes the frame header (long form above 255 bytes) and the body for any iteration order |
| Command.ParseAcceptsExactlyPrintedCommands | src/codec/command.rs:60-141 | the parser accepts a frame exactly when it is a printed list of properties, and returns their map with later duplicates winning |
| Command.CommandRoundTrip | src/codec/command.rs:60-141 | printing a property map in any order and parsing gives the map back if and only if every name is UTF-8 of at most 255 bytes and every value fits 32 bits |
| Command.LaterEntryWins | src/codec/command.rs:89-103 | a later property with the same name replaces an earlier one |
| Command.CommandFailsIff | src/codec/command.rs:60-78 | when a command is refused for its name, and with which error; the name is READY in ASCII |
| Command.PropertiesFailIff | src/codec/command.rs:80-103 | properties are refused exactly when good ones are followed by a bad one, whose fault names the error |
| Framing.GreetingRoundTrip | src/codec/greeting.rs:27-56 | an encoded greeting parses to the same version, mechanism and role |
| Framing.GreetingLayout | src/codec/greeting.rs:43-56 | the 64 bytes of an encoded greeting, field by field |
| Framing.GreetingAcceptedIff | src/codec/greeting.rs:27-41 | which 64 bytes are accepted as a greeting, and what is read from them |
| Framing.FlagBits | src/codec/zmq_codec.rs:99-106 | the places of the command, long and more bits |
| Framing.FrameLayout | src/codec/zmq_codec.rs:157-175 | the bytes of an encoded frame, in short form up to 255 bytes and in long form above |
| Framing.ReservedBitsAreIgnored | src/codec/zmq_codec.rs:99-106 | the bits of the flags byte above the three that are read change nothing in what a stream parses to |
| Framing.NextOfEncodedFrame | src/codec/zmq_codec.rs:110-175 | an encoded frame in front of any bytes parses to that frame and leaves those bytes; a frame whose length plus the maximum chunk is not addressable is rejected |
| Framing.NextOfEncodedCommand | src/codec/zmq_codec.rs:129-135 | a command frame is an item of its own wherever it stands, also between the parts of a multipart message, which it leaves alone |
| Framing.ParseInvertsEncode | src/codec/zmq_codec.rs:157-193 | parsing the concatenated encodings of any list of sendable items gives those items in order and nothing left over |
| Framing.MessageArrivesIffReceivable | src/codec/zmq_codec.rs:110-128 | a message arrives intact if and only if every frame has at most 255 bytes or passes the length check |
| Codec.StepKeepsValid | src/codec/zmq_codec.rs:68-154 | every loop turn keeps `state` and `waiting_for` consistent and, zero-length frames included, makes the termination measure smaller |
| Codec.Decode | src/codec/zmq_codec.rs:68-154 | one call keeps the decoder valid, ends, never gains work, and asks for more only when the buffer is shorter than `waiting_for` |
| Codec.StepIgnoresLaterBytes | src/codec/zmq_codec.rs:71-152 | bytes that arrive later do not change a turn that was possible without them |
| Codec.DrainInTwo | src/codec/zmq_codec.rs:68-154 | draining a prefix and then the rest is draining everything at once, up to the first error |
| Codec.FragmentationInvariance | src/codec/zmq_codec.rs:68-154 | any split of a byte string into chunks yields the same items, error, final state and unread bytes as the whole |
| Codec.DecodeThenDrain | src/codec/framed.rs:113-124 | one decode call takes exactly the first item off everything the connection will still yield |
| Codec.StepKeepsMeaning | src/codec/zmq_codec.rs:88-152 | one loop turn does not change what the grammar makes of the bytes taken and not yet taken |
| Codec.DrainIsParse | src/codec/zmq_codec.rs:68-154 | from every valid state the machine yields what the recursive grammar yields: items, error, unfinished message and unfinished frame |
| Codec.ChunksDecodeAsConnection | src/codec/zmq_codec.rs:68-154 | a fresh decoder fed any fragmentation of a connection yields what the grammar says of the whole |
| Codec.BytesNeededIsTight | src/codec/zmq_codec.rs:52-55 | with fewer bytes than `bytes_needed` says nothing changes; with that many the decoder fails or makes progress |
| Codec.ZmqCodec.Needed | src/codec/zmq_codec.rs:52-55 | zero exactly when the buffer holds what the decoder waits for, and otherwise the number of bytes that brings it there |
| Codec.ZmqCodec.DecodeNext | src/codec/zmq_codec.rs:68-154 | the in-place loop over the buffer computes the specification decoder; no access, split, reservation or `expect` can fail; when it asks for more it has asked for room for the whole frame, and for one more chunk behind a frame of more than two |
| Codec.ZmqCodec.LengthArm | src/codec/zmq_codec.rs:110-128 | the length field is read and checked as the specification step says, before any reservation |
| Codec.ZmqCodec.BodyArm | src/codec/zmq_codec.rs:129-151 | a complete frame becomes a command, a buffered part or a finished message as the specification step says |
| Codec.ZmqCodec.EncodeInto | src/codec/zmq_codec.rs:181-193 | appends exactly the encoding of the message, the more bit on every frame but the last; a message without frames, and only that, underflows the frame count |
| Codec.ZmqCodec.PutFrame | src/codec/zmq_codec.rs:157-175 | appends flags, length in short or long form, and the frame |
| ReadChunk.ReadBuffer | src/lib.rs:397-420 | the options are accepted exactly when 0 < initial <= max <= isize::MAX / 2 and the count is positive |
| ReadChunk.RunStaysWithin | src/codec/framed.rs:58-92 | over any run of reads the chunk stays between initial and maximum size and the counter below its limit |
| ReadChunk.OneRead | src/codec/framed.rs:71-92 | which reads are short, what each read does to the counter, and the size that recovery settles on |
| ReadChunk.AdaptationDoesNotOverflow | src/codec/framed.rs:73-92 | no product or power of two in the adaptation leaves the isize range |
| ReadChunk.RecoveryLeavesRoom | src/codec/framed.rs:73-92 | the chunk shrinks only after a short read and keeps twice that read; it grows only after a full read and at most doubles |
| ReadChunk.NextPowerIsLeast | src/codec/framed.rs:85-88 | the recovery target is computed from the least power of two that is not below the read |
| ReadChunk.FullReadsDouble | src/codec/framed.rs:73-78 | k full reads take a chunk c to min(c * 2^k, max) |
| ReadChunk.EqualShortReadsSettle | src/codec/framed.rs:79-92 | a run of equal short reads changes the chunk at most once, at a known read, to a known size |
| FramedRead.ZmqFramedRead.Adapt | src/codec/framed.rs:71-92 | updates chunk and counter in place as the adaptation law says |
| FramedRead.ZmqFramedRead.PollReadIntoBuffer | src/codec/framed.rs:52-104 | the buffer gains exactly the bytes read, and is untouched by Pending and errors; the prepared length is always addressable |
| FramedRead.ZmqFramedRead.PollNext | src/codec/framed.rs:110-145 | every outcome stated against what the whole rest of the connection decodes to; a buffered item is yielded without a read; the poll is pending or fails exactly if its last read does |
| WriteQueue.WriteMessageQueue | src/write_queue.rs:10-30 | everything received is encoded in order (a prefix on error) and written on normal return, and it returns an error exactly if the last event of the transport failed; each flush covers 1 to 128 messages; with the backlog ready all but the last batch are full |
| WriteQueue.WriteBatch | src/write_queue.rs:14-27 | one batch: fed in order, flushed once, cut short only when nothing was ready |
| WriteQueue.BatchCountBounds | src/write_queue.rs:6-27 | the number of flushes for n messages lies between ceil(n/128) and n |
| WriteQueue.FullBatchesAreFewest | src/write_queue.rs:6-27 | with full batches the number of flushes is exactly ceil(n/128) |
| WirePath.ReceiveAll | src/pub.rs:242-263 | polling until the end yields all items of the connection, and reports its end, truncation or error; the first read that fails ends it, with the items complete before |
| WirePath.ConnectionDecodes | src/codec/zmq_codec.rs:88-193 | a fresh decoder makes of a greeting and any sendable items exactly those, with nothing left over |
| WirePath.Transfer | src/codec/framed.rs:110-145 | sender to receiver is the identity for all arrival patterns, batches, short reads, Pending results and read-buffer options |
| WirePath.OptionsDoNotShow | src/codec/zmq_codec.rs:115-121 | a stream that passes the length check with a larger maximum chunk parses the same with a smaller one |
| WirePath.CleanEndIff | src/codec/framed.rs:125-140 | for every stream, the end is clean if and only if it decodes without error and is empty or stops at a frame boundary, after a flags byte or after a complete length field |
| WirePath.TruncatedBodyEndsCleanly | src/codec/framed.rs:125-130 | a connection cut before the first body byte of a frame ends cleanly |
| FairQueueModel.NoLostWakeUp | src/fair_queue.rs:25-50 | over every run, if the last poll was Pending and an event is ready then the consumer was notified since that poll began; no poll takes more streams than were ready at its start |
| FairQueueModel.WakerIsUsedOnce | src/fair_queue.rs:25-50 | a poll puts the waker in place; a stream's wake or a clear takes it and notifies, an insertion notifies and leaves it, and nothing else touches it |
| FairQueueModel.AnswersAreRight | src/fair_queue.rs:129-200 | the region that decides a poll yields an item if a stream gave one, and otherwise the end if and only if no stream is connected and the queue does not wait for one |
| FairQueueModel.NoEndWhileConnected | src/fair_queue.rs:187-200 | over every run, while some stream is connected and has not ended, no poll reports the end of the queue |
| FairQueueModel.StreamsStayPollableIff | src/fair_queue.rs:33-50 | a step keeps every stream pollable exactly when it does not remove or clear a stream that is queued again while it is polled |
| FairQueueModel.ParkedMeansNothingToDo | src/fair_queue.rs:101-201 | in undisturbed runs a parked, unnotified consumer means that every stream was polled Pending and its waker has not fired |
| FairQueueModel.ClearDuringPollStrandsStream | src/fair_queue.rs:42-50 | a run in which a clear during a poll leaves a stream with neither event nor waker |
| FairQueueService.OneEventEachIff | src/fair_queue.rs:33-59 | `queued` and the heap agree, one event a key, and exactly a removal of a queued key breaks that |
| FairQueueService.BoundedWaiting | src/fair_queue.rs:127-185 | while a stream waits, another can yield n items on some run if and only if n is at most one for its event ahead plus one for being polled with an item to give |
| FairQueueService.ServedInTurn | src/fair_queue.rs:127-147 | every pop brings a waiting stream one place nearer and nothing pushes it back: the pop that takes it is the one after as many as there were events ahead |
| FairQueueService.TwoItemsBeforeService | src/fair_queue.rs:155-163 | a run from the empty queue on which the bound of two is reached |
| FairQueueService.ItemsAreConserved | src/fair_queue.rs:142-183 | for every key, items emitted followed by items left are the same list over every run that does not insert, remove or clear it |
| FairQueueService.RoundRobinIsRounds | src/fair_queue.rs:127-163 | serving the head and sending it to the back is serving round after round |
| FairQueueService.ReadyStreamsDrainInRounds | src/fair_queue.rs:119-201 | over any run of polls always-ready finite streams come out in rounds, and completely once nothing is ready |
| FairQueue.PushIsAppend | src/fair_queue.rs:52-59 | a push with the growing counter is an append to the FIFO order |
| FairQueue.GreatestIsFirst | src/fair_queue.rs:80-89 | under the reversed order the greatest event is the oldest one, and only that |
| FairQueue.FairQueue.constructor | src/fair_queue.rs:205-217 | a new queue satisfies every invariant of the model |
| FairQueue.FairQueue.PushReady | src/fair_queue.rs:52-59 | pushes an event only for a key that is not queued |
| FairQueue.FairQueue.Insert | src/fair_queue.rs:25-31 | is the model's insert step |
| FairQueue.FairQueue.Remove | src/fair_queue.rs:33-36 | is the model's remove step, which leaves the heap alone |
| FairQueue.FairQueue.Clear | src/fair_queue.rs:42-50 | is the model's clear step, which takes and wakes the waker |
| FairQueue.FairQueue.WakeStream | src/fair_queue.rs:101-107 | is the model's wake step, which takes and wakes the waker |
| FairQueue.FairQueue.TakeNext | src/fair_queue.rs:129-147 | pops the oldest event and takes its stream, or finishes the poll when a clear emptied the heap |
| FairQueue.FairQueue.PutBack | src/fair_queue.rs:155-183 | is the model's step after a stream poll: item, Pending or end |
| FairQueue.FairQueue.Finish | src/fair_queue.rs:187-200 | is the model's last lock region: waker, decision to wake itself, result |
| FairQueue.FairQueue.PollNext | src/fair_queue.rs:119-201 | a whole poll, interleaved with any environment, is a run of the state machine; its result is what the run emitted, or else the end or Pending, as the streams in the map after its last lock region and `block_on_no_clients` decide |
| FairQueue.FairQueue.Conclude | src/fair_queue.rs:187-200 | the last lock region decides the result, and the consumer wakes itself if events are left |
| FairQueue.DrainAll | src/fair_queue.rs:361-379 | the receiving loop returns always-ready finite streams in rounds |
| PubFanout.StepKeepsOwner | src/pub.rs:88-118 | a set `wake_pending` flag has a draining worker, a token or a publisher about to send one |
| PubFanout.StepStrandsNothing | src/pub.rs:83-121 | a queued message has an awake worker, a token or a publisher still before its wake step |
| PubFanout.NoStrandedMessage | src/pub.rs:83-121 | for any number of publishers and every interleaving, at rest the queue is empty, everything accepted was fanned out in order, and the flag is clear |
| PubFanout.LedgerBalances | src/pub.rs:83-121 | over every run the flag, the tokens and the publishers about to send one balance |
| PubFanout.WakeUpsAreFew | src/pub.rs:88-118 | no more tokens are sent than one and one for each time that the worker has cleared the flag and not set it again |
| PubFanout.WorkerDeliversAll | src/pub.rs:105-121 | from every reachable state with idle publishers the worker alone comes to rest with everything fanned out |
| PubBackend.FastFilterIsAnyPrefix | src/pub.rs:25-45 | the filter with its one-subscription and first-byte shortcuts passes a frame if and only if some subscription is a prefix of it |
| PubBackend.FilterPassesContinuations | src/pub.rs:25-45 | the filter passes exactly the frames that are some subscription followed by anything |
| PubBackend.ControlBytes | src/pub.rs:146-183 | a one-frame message of type byte 1 and a topic adds the topic, of 0 removes one copy, and nothing else changes the list |
| PubBackend.ControlCounts | src/pub.rs:162-177 | the subscription list is a saturating counter for each topic |
| PubBackend.PubSocketBackend.MessageReceived | src/pub.rs:146-183 | changes exactly the sender's list, for one-frame messages that start with 1 or 0 |
| PubBackend.PubSocketBackend.PeerConnected | src/pub.rs:212-225 | a replaced peer starts afresh and the count stays the size of the map |
| PubBackend.PubSocketBackend.PeerDisconnected | src/pub.rs:267-275 | the count stays the size of the map, also for an unknown peer |
| PubBackend.PubSocketBackend.FanoutMessage | src/pub.rs:131-144 | the loop over subscribers in any order offers the message to exactly those whose filter matches |
| PubBackend.PubSocket.Send | src/pub.rs:292-302 | queues the message unless it is empty, nobody is connected, or the fan-out queue is full |
| PubBackend.PubSocket.FanoutNext | src/pub.rs:107-109 | the worker takes the oldest queued message and fans it out |
| PubBackend.StepAloneIff | src/pub.rs:131-144 | an event acts on a peer's part of the publisher as if the peer were alone, exactly unless it publishes a message that is held only for others |
| PubBackend.AsIfAloneIff | src/pub.rs:292-302 | over any run, with any comings and goings, a peer's part is at every point as if it were the only one, if and only if no message is held while the peer is not connected and others are |
| PubBackend.SubscribersAreIndependent | src/pub.rs:47-61 | over such a run what a subscriber ends with depends only on its own events and on publishing and fanning out |
| PubBackend.ConnectedIsNoStranger | src/pub.rs:212-225 | as long as a subscriber is connected no message is held for others only |
| PubBackend.LateSubscriberNoticesOthers | src/pub.rs:297-299 | two runs that differ in a stranger's presence: the zero count drops a message that otherwise waits for the late subscriber |
| PubBackend.QueueGainsExactlyMatching | src/pub.rs:131-144 | over any run in which a subscriber stays connected, whatever it subscribes meanwhile, its queue gains, in order, exactly the accepted messages with a prefix in its list at fan-out, minus those that find it full |
| PubBackend.SubscriberGetsContinuations | src/pub.rs:131-144 | a subscriber with room gets the next message exactly if its first frame is one of its topics followed by anything |
| PubBackend.NothingBeforeSubscribing | src/pub.rs:212-225 | over every run a peer that has connected gets nothing before it subscribes |
| PubBackend.NothingAfterClose | src/pub.rs:47-61 | over every run a connection whose queue is closed gets nothing more |
| PubBackend.RoomMeansEverything | src/pub.rs:47-61 | with room throughout every matching message is queued |
| PubSystem.StepRefines | src/pub.rs:83-121 | each atomic step of publishers, worker and peers is one step of the publisher or none |
| PubSystem.AtRestAllAreOffered | src/pub.rs:83-144 | for every interleaving, at rest all accepted messages have been fanned out, and a connected subscriber got exactly those with a prefix in its list at their fan-out, minus those that found its queue full |
| SubBackend.AgreementMeansSameFilter | src/sub_backend.rs:82-90 | under agreement PUB's filter passes a frame if and only if a remembered topic is a prefix of it |
| SubBackend.WantedMeans | src/sub_backend.rs:82-90 | a frame is wanted exactly if it is a remembered topic followed by anything |
| SubBackend.BroadcastReaches | src/sub_backend.rs:210-254 | after a broadcast a peer with a broken pipe is gone, one that failed otherwise stays without the frame, and every other has been sent it |
| SubBackend.ReplayAgrees | src/sub_backend.rs:199-207 | replaying the set in any order brings a new connection into agreement |
| SubBackend.StepKeepsAgreementIff | src/sub_backend.rs:82-118 | one step keeps the agreement exactly when it is not a repeated subscription that some publisher hears |
| SubBackend.AgreementIff | src/sub_backend.rs:282-304 | over any run with reconnects every publisher's list is the remembered set throughout if and only if no remembered topic is subscribed again |
| SubBackend.WantedAlwaysPasses | src/sub_backend.rs:82-90 | over every run, repeated subscriptions included, each intact publisher's filter passes every frame with a remembered prefix |
| SubBackend.FilterIsRightIff | src/pub.rs:25-45 | a publisher that holds what is remembered filters exactly right on every frame if and only if every topic in its list has a remembered prefix |
| SubBackend.StepKeepsFiltersIff | src/sub_backend.rs:82-118 | no step loses a remembered topic, and exactly an unsubscription that leaves a topic without a remembered prefix spoils a right filter |
| SubBackend.FiltersStayRightIff | src/sub_backend.rs:282-304 | over any run with reconnects every intact publisher's filter is right on every frame throughout if and only if no such unsubscription happens |
| SubBackend.RepeatsDecide | src/pub.rs:162-177 | over any run a publisher's list is the remembered topics plus the repeats counted from the subscriber's own calls, and its filter is right if and only if every repeat has a remembered prefix |
| SubBackend.RepeatedSubscriptionLingers | src/pub.rs:163-177 | a run from the empty subscriber: subscribing twice and unsubscribing once leaves the topic with the publisher |
| SubBackend.WantedPassesIff | src/pub.rs:25-45 | whatever a publisher's list holds, it passes every wanted frame if and only if each remembered topic has a prefix in it |
| SubBackend.LostFrameFiltersWanted | src/sub_backend.rs:238-245 | a run on which a lost subscribe frame makes a connected publisher filter out a remembered topic |
| SubBackend.SubSocketBackend.ApplySubscriptionMessage | src/sub_backend.rs:99-118 | returns true exactly for well-formed control frames and applies them to the set |
| SubBackend.SubSocketBackend.BroadcastControlMessage | src/sub_backend.rs:210-254 | every peer is sent the frame although some fail; broken pipes are dropped; the call fails if any send did |
| SubBackend.SubSocketBackend.Subscribe | src/sub.rs:42-47 | remembers and broadcasts; keeps the agreement for a new topic |
| SubBackend.SubSocketBackend.Unsubscribe | src/sub.rs:49-57 | forgets and broadcasts; keeps the agreement |
| SubBackend.SubSocketBackend.PeerConnected | src/sub_backend.rs:282-304 | replays the whole set before the peer is known, or does not add the peer when a send fails |
| Backend.ConnectKeepsInv | src/backend.rs:288-319 | after a connect or replacement the cache is exact and every live peer has a turn coming |
| Backend.SlowServesFirstLive | src/backend.rs:117-149 | the loop skips stale ids, ends, sends to the first live id and rotates it |
| Backend.CachedSendRefinesSlow | src/backend.rs:178-232 | a cached send has the outcome and queue effect of the slow one and leaves the same live rotation |
| Backend.CachedSendToPeerIsSlow | src/backend.rs:152-176 | a send to a given peer ends in the same state with and without the cache |
| Backend.CacheIsInvisible | src/backend.rs:103-343 | over every run in which, once the cache has served a message past other ids, no peer returns while a stale copy of its id is in the rotation, results, peers, queues and live rotation are those of the slow path |
| Backend.EarlyRevivalIsHarmless | src/backend.rs:103-343 | until the cache has done so the two are the same state, whoever returns |
| Backend.StepKeepsShadows | src/backend.rs:103-343 | every step but such a return keeps the two alike, and keeps each stale id of the slow path covered by one of the backend at least as far back |
| Backend.GuardIsWeakest | src/backend.rs:288-312 | of all guards on the backend's own state, reviving no stale id is the weakest under which a connection keeps it like everything the relation of the proof allows beside it |
| Backend.ReusedIdShows | src/backend.rs:288-312 | a run from the empty backend that revives a stale id, after which the next message goes to one peer with the cache and to another without |
| Backend.SendsFollowRotation | src/backend.rs:117-149 | consecutive successful sends go to the live ids in queue order, one each, whatever stale ids lie between |
| Backend.OneTurnIsFairIff | src/backend.rs:117-149 | one turn gives every live peer as many messages as it has ids; each gets exactly one if and only if no live id is queued twice |
| Backend.StepKeepsFairIff | src/backend.rs:288-312 | of all steps exactly the connection of an id that is still in the rotation, live or stale, makes a fair rotation unfair |
| Backend.HandedBackIffNobody | src/backend.rs:103-150 | every answer: a data message comes back, and a greeting or command is not supported, exactly if no peer is live; otherwise the first live peer is sent it, or is gone, as its queue is open with room or not |
| Backend.NotFoundIffNotLive | src/backend.rs:152-176 | every answer of a send to a given peer: not found exactly if it is not live |
| Backend.OutsideOnQueues | src/backend.rs:296-311 | a writer takes one message from a queue, a closed queue stays closed, and what was accepted does not change |
| Backend.ConnectedIsLive | src/backend.rs:288-319 | a connected peer has an empty, open queue of its own and a turn to come |
| Backend.DisconnectedIsGone | src/backend.rs:270-323 | after a disconnect exactly that peer is gone, after a shutdown all are |
| Backend.GenericSocketBackend.RefreshSinglePeerCache | src/backend.rs:234-247 | the cache is the one live peer and its queue, or empty |
| Backend.GenericSocketBackend.SendNext | src/backend.rs:103-150 | cache then loop, in place, as specified; keeps all invariants |
| Backend.GenericSocketBackend.SendToKnown | src/backend.rs:152-176 | cache then lookup, in place, as specified; keeps all invariants |
| Backend.GenericSocketBackend.PeerConnected | src/backend.rs:288-319 | is the model's connect step, with the stream put into the fair queue, and keeps all invariants |
| Backend.GenericSocketBackend.PeerDisconnected | src/backend.rs:321-330 | is the model's disconnect step, with the stream taken from the fair queue, and keeps all invariants |
| Backend.GenericSocketBackend.Shutdown | src/backend.rs:270-279 | is the model's shutdown step, the fair queue cleared, and keeps all invariants |
| Envelope.ZmqMessage.Prepend | src/message.rs:59-63 | pushing the other frames in reverse order puts them in front in order |
| Envelope.ZmqMessage.SplitOff | src/message.rs:65-68 | cuts the message in two without losing a frame |
| Envelope.ToIdentity | src/util.rs:57-69 | an identity is 1 to 255 bytes: too long is refused, empty is replaced |
| Envelope.ReqAcceptsIff | src/req.rs:83-92 | a reply is handed out exactly if it comes behind an empty frame, and which error each other form has |
| Envelope.RoutedIff | src/router.rs:101-111 | every answer of a routed send |
| Envelope.CaptureGains | src/lib.rs:664-668 | a capture socket that works gains the message behind what it has |
| Envelope.ReqSocket.Send | src/req.rs:38-68 | lockstep, skip loop and rotation: which peer gets delimiter and payload, and the state after each outcome |
| Envelope.ReqSocket.Recv | src/req.rs:73-104 | every outcome ends the request; the delimiter is checked and removed |
| Envelope.RepSocket.Accept | src/rep.rs:161-177 | the envelope up to and including the first empty frame is kept, the rest handed out |
| Envelope.RepSocket.Recv | src/rep.rs:157-191 | control frames are skipped; the first message becomes the request in progress; an error or a short message ends the call and leaves the request in progress as it was |
| Envelope.RepSocket.Send | src/rep.rs:131-152 | the reply goes behind the saved envelope to the peer of the request in progress; otherwise the message is as it was |
| Envelope.RouterSocket.Recv | src/router.rs:73-95 | skips control frames and errors, dropping the peers that fail, up to the first message, and puts its sender's identity in front |
| Envelope.RouterSocket.Send | src/router.rs:101-111 | the identity in front is popped and names the peer, which gets the rest; unknown peers are reported and failing ones dropped |
| Envelope.DealerSocket.Recv | src/dealer.rs:72-92 | skips control frames and hands out the first message as it is; an error ends the call |
| Envelope.Proxy.ForwardRequest | src/lib.rs:662-673 | one turn of the loop: what the frontend received is captured and then passed on; any error is returned |
| Envelope.Proxy.ForwardReply | src/lib.rs:675-687 | the turn for the other direction: what the backend received is captured and then sent through the frontend; any error is returned |
| Envelope.RoutersStackIdentities | src/router.rs:76-79 | hops stack identities, the last hop in front |
| Envelope.RepSeesPayloadIffNoEmptyIdentity | src/rep.rs:161-176 | over any number of hops REP sees exactly the payload if and only if no identity is empty, and it keeps the stack and the delimiter |
| Envelope.ReplyReturnsToRequester | src/router.rs:101-111 | every ROUTER pops the identity it pushed, and REQ gets the reply if and only if it is not empty |
| Envelope.Exchange | src/lib.rs:655-690 | one exchange between REQ and REP through any number of proxies, with or without capture: the payload is seen, every ROUTER hands the reply to the peer its request came from, and the reply returns |
| EnvelopeNetwork.StepKeepsInv | src/rep.rs:131-191 | every message in flight carries exactly the identities behind it, whichever socket moves next |
| EnvelopeNetwork.EveryReplyComesHome | src/router.rs:73-111 | for any clients behind any tree of shared proxies and any interleaving of requests, replies and losses, what a client receives is the answer to the request it waits for |
| EnvelopeNetwork.RoutingMakesProgress | src/router.rs:73-111 | the next step of every message in flight is possible and brings its client nearer to the answer, and the last one delivers it |
| EnvelopeNetwork.ForgottenIff | src/rep.rs:157-177 | a client is left waiting exactly when a connection loses its message, REP refuses its request, or REP receives another request before it has replied |

## Left out

- Wrap-around of the fair queue's counter after 2^64 pushes: priorities are unbounded here, and FIFO order would fail at the wrap.
- Acquire and release ordering, the insides of the concurrent maps and channels, and the extra slot that each channel sender adds to a bounded
  channel. PUB clones the sender for each message (`src/pub.rs:140`), and a fresh clone has its slot, so that in
  the code a subscriber's queue may never report that it is full; the results that drop a message which finds
  it full then apply with room throughout (`PubBackend.RoomMeansEverything`).
- Capacity growth and sharing of buffer storage: only lengths, contents and requested sizes are kept.
- Dropping a send while it waits for room in a peer's queue, and dropping REQ's receive: sends and receives run to completion.
- The separate steps inside the refresh of the single-peer cache, and a subscriber count that lags behind the map.
- WriteQueue.FramedSink.Feed: the high-water mark of the sink is not modelled; the transport may take any number of bytes before each message.
- Backend.GenericSocketBackend.PeerDisconnected: monitor events and reconnect notifiers are not modelled.
- Backend.GenericSocketBackend.Shutdown: the fair queue is the set of its stream keys here; its events and the wake-up of a clear are in `FairQueue.dfy`.
- Backend.GenericSocketBackend.PeerConnected: the fair queue is the set of its stream keys here; and the writer task it spawns is the component in `WriteQueue.dfy`; here it only takes from the queue.
- Envelope.Exchange: one request at a time, with the turns of the proxies in the order it needs; other orders and other clients are in `EnvelopeNetwork.dfy`, which has one upstream connection for each DEALER and one REP.
- EnvelopeNetwork.EveryReplyComesHome: a client that gives up a request after a disconnect and then sends another one is not modelled.
- WriteQueue.WriteMessageQueue: requires non-empty messages, since encoding another one panics or writes nothing.
- DEALER, PULL, PUSH, SUB, XSUB, XPUB wrappers, which forward to the components above, and XPUB's blocking fan-out.
- Transports, listeners, accept loops, task spawning, time-outs, reconnect backoff, endpoint parsing, version negotiation and the socket compatibility matrix.
