# Packet path of the RTSP/WebSocket proxy and players

A Dafny model of the hand-written logic between the media library and the network:
encoded packets are paced out of a source, run through a filter chain, put on the
wire, fanned out to WebSocket sessions, and decoded asynchronously by a player.

| module | models |
|---|---|
| `Options`, `Sequences` | a value that may be missing; facts about sequences |
| `Bytes` | big-endian integers and blocks in a buffer |
| `PacketCodec`, `PacketRoundTrip` | the packet wire format: writer, reader, and what survives |
| `FilterChain` | the recursive send/receive chain over one shared packet, against a pure composition |
| `SendQueue` | the lossy send queue of a session and the lossless one of the client |
| `Fanout` | publish, snapshot, post, enqueue, write, join, leave as one state machine over all rooms and sessions |
| `AsyncDecoder` | key-frame gate, eviction, worker batches, delivery and shutdown as a state machine |
| `Pacing` | the loop pacer and the encoder's frame-rate throttle |
| `BlockingQueues` | the bounded queue that drops its oldest element |
| `CodecJson` | codec parameters and stream lists as JSON trees |
| `StreamLifecycle` | the events a stream thread can show its handlers |

Code that changes state in place is modelled by classes and loops proved against
functions on values; the properties are lemmas about those functions, over every
input, run or reachable state.  Concurrency is modelled at the granularity of the
locks: a step is a stretch of code under one lock or none.

Where the code and its own documentation differ, the code is followed:

- `duration` and `pos` are read from one place (common/net/packet.h:201-202), the
  format table gives them two (common/net/packet.h:98-101).  The reader as written
  and the reader of the table are both covered.
- 64-bit fields are read with shifts that are undefined (common/util/bytes.h:69, section
  5.8 of ISO C++14); wherever such a field is read, the reader modelled is the one that
  widens each byte first.
- The reader tests two lengths and follows what its input announces
  (common/net/packet.h:157-169); `PacketCodec.OverrunIff` says exactly when it stays
  inside its input, `PacketCodec.SevenBytesOverrun` gives an input where it does not.
- A packet counts as published before a session joined when the session joins between
  the test for an empty room and the snapshot.  `Fanout.LateJoiner` shows it,
  `Fanout.LateJoinerReached` gives a run, and `Fanout.SentEarlierIff` says exactly when.
- A bitstream filter that refuses a packet is never emptied again, and the packets are
  lost (rtsp-ws-proxy/stream_handler.cc:121-126).  `FilterChain.LosesTheRest` says
  exactly which for any filter, `FilterChain.SplittingLosesIff` exactly when for a
  library with an input slot, and `FilterChain.ThirdIsLost` gives an input.

What comes from outside is a parameter or a step: clock readings, the codec's answers,
completions and failures of writes, the order in which posted handlers run, the order
in which a hash map is gone through.

The project file is `dfyconfig.toml`.

## Model

| member | source | states |
|---|---|---|
| Bytes.DigitsAt | common/util/bytes.h:17-19 | byte i of an n-byte store is the base-256 digit of weight 256^(n-i-1): the shift-and-mask of the loop, for any width and negative values |
| Bytes.ValueOfDigits | common/util/bytes.h:65-72 | reading stored digits gives the value modulo 256^n |
| Bytes.DigitsOfValue | common/util/bytes.h:65-72 | storing what was read gives the same bytes back, and what is read is below 256^n |
| Bytes.DigitsOfSigned | common/util/bytes.h:65-72 | the same for the signed reading, which always fits the width |
| Bytes.UnsignedRoundTrip | common/util/bytes.h:15-21 | an unsigned value comes back if and only if it fits n bytes, for every n |
| Bytes.SignedRoundTrip | common/util/bytes.h:65-72 | a signed value comes back if and only if it fits n bytes in two's complement, for every n |
| Bytes.To | common/util/bytes.h:15-21 | the store loop writes exactly the digits at the cursor, each index once and in order, and no other index |
| Bytes.CopyTo | common/util/bytes.h:38-42 | the block copy writes exactly the block, each index once and in order, and no other index |
| Bytes.From | common/util/bytes.h:65-72 | the or-ing loop, bytes widened before the shift, reads the big-endian value of the n bytes, for every n |
| Bytes.FromAsWritten | common/util/bytes.h:65-72 | the loop as it stands (bytes shifted as 32-bit ints, sign extension included) is defined and reads the same value if and only if n is at most 4 |
| PacketCodec.Put | common/util/bytes.h:57-60 | one cursor step of the writer: the digits are appended, the write log extended, everything beyond the new cursor untouched |
| PacketCodec.WriteSide | common/net/packet.h:143-146 | one side-data block: type, size, data, in this order |
| PacketCodec.WriteSides | common/net/packet.h:142-147 | the side-data loop appends the concatenated blocks of any list |
| PacketCodec.Data.constructor | common/net/packet.h:28-30 | a fresh packet: unknown type, no timestamps, no side data, pos -1 |
| PacketCodec.Data.GetByteSize | common/net/packet.h:109-115 | the size loop computes the length of the encoding |
| PacketCodec.Data.ToBytes | common/net/packet.h:124-153 | a buffer too small is refused untouched; otherwise its first GetByteSize bytes become the encoding, every index below that is stored to exactly once and in order, none beyond, and the final length test passes |
| PacketCodec.Data.ToVector | common/net/packet.h:67-80 | a vector that is too short is grown to the encoded size, a longer one keeps its tail; in front stands exactly the encoding |
| PacketCodec.Data.FromBytes | common/net/packet.h:156-208 | on any bytes at all, the cursor-driven reader ends as Read says: with its status and fields, or with a read past the end of the input; duration and pos from one place, as in the source; each early exit's status and what it has set are stated in terms of the bytes, ERROR_NOT_ENOUGH if and only if the input is shorter than 7 bytes or than it announces |
| PacketCodec.Data.ReadSides | common/net/packet.h:188-200 | the side-data loop of the reader on any bytes, negative sizes and overruns included |
| PacketCodec.SidesOverrun | common/net/packet.h:188-200 | the side-data loop stays inside its input if and only if the announced blocks do, and then reads what DecodeSides says |
| PacketCodec.OverrunIff | common/net/packet.h:156-208 | the reader stays inside its input if and only if the fields announced lie inside it (InBounds, which a caller can evaluate), for every byte string; then it does what Decode says |
| PacketCodec.ShortInputOverruns | common/net/packet.h:157-174 | reading inside the input is false of the code: everything from 7 to 26 bytes long that passes both length tests is read past its end |
| PacketCodec.SevenBytesOverrun | common/net/packet.h:157-174 | such an input: seven bytes that announce a packet of seven |
| PacketRoundTrip.SideDataSurvives | common/net/packet.h:188-200 | a side-data list comes back unchanged if and only if its types fit a byte and no type occurs twice |
| PacketRoundTrip.DecodeEncodedSides | common/net/packet.h:142-200 | the reader's loop on encoded blocks stays in bounds, ends at their end and builds the table of the blocks |
| PacketRoundTrip.FormatTable | common/net/packet.h:92-106 | the writer's bytes are those of the format table: which field stands at which offset, for every packet |
| PacketRoundTrip.SideTable | common/net/packet.h:92-106 | and so for the i-th side-data block: type, size and data behind the blocks before it |
| PacketRoundTrip.DecodeOfEncode | common/net/packet.h:124-208 | decoding any encoding followed by any bytes stays in bounds, and gives exactly this status and these fields, for every representable packet |
| PacketRoundTrip.RoundTripAsWritten | common/net/packet.h:156-208 | the reader with the shared slot of duration and pos (64-bit fields read widened, as the code's own shifts on them are undefined) returns the packet sent if and only if its size is below 2^32, its types fit their bytes, no side-data type is repeated, and pos equals duration |
| PacketRoundTrip.RoundTripButPos | common/net/packet.h:201-202 | every field but pos comes back, and pos arrives as the duration, if and only if the remaining conditions hold |
| PacketRoundTrip.RoundTripAsDocumented | common/net/packet.h:98-106 | reading pos from its own slot of the format table gives the full round trip, under the same if and only if |
| PacketRoundTrip.PosIsLost | common/net/packet.h:201-202 | a concrete packet whose file position 5 arrives as its duration 7 |
| PacketRoundTrip.SelfDelimiting | common/net/packet.h:156-208 | two encodings that agree up to trailing bytes are of one packet: no encoding is a proper prefix of another, and encoding is injective |
| PacketRoundTrip.ReencodeAsDocumented | common/net/packet.h:92-106 | for the reader of the format table, pos in its own slot: an accepted input is re-encoded to the same bytes, version apart, if and only if none of its side-data blocks replaced an earlier one |
| PacketRoundTrip.ReencodeAsWritten | common/net/packet.h:124-208 | for the reader as written (64-bit fields read widened): an accepted input is re-encoded to the same bytes, version apart, if and only if no side-data block replaced an earlier one and the slots of duration and pos hold the same bytes |
| PacketRoundTrip.PosIsRespelt | common/net/packet.h:201-202 | every packet sent whose pos is not its duration is spelled otherwise when it is read as written and encoded again |
| PacketRoundTrip.ReencodeChangesPos | common/net/packet.h:201-202 | such an input: the encoding of a packet with duration 7 and pos 5 |
| FilterChain.FeedAllAppend | rtsp-ws-proxy/stream_handler.cc:115-142 | feeding two lists to a stage one after the other is feeding their concatenation |
| FilterChain.ChainAppend | rtsp-ws-proxy/stream_handler.cc:108-142 | the same for a whole chain: stage by stage over lists equals packet by packet, depth first |
| FilterChain.ChainOne | rtsp-ws-proxy/stream_handler.cc:115-142 | one packet through a chain is the first stage's output through the rest of the chain |
| FilterChain.SendAllIs | rtsp-ws-proxy/stream_handler.cc:121-126 | the send loop is the attempts up to the first not answered AGAIN, the packet in the first and a blank one in every later |
| FilterChain.DrainIs | rtsp-ws-proxy/stream_handler.cc:131-139 | the receive loop asks up to the first answer other than AGAIN; out comes what each round gave, in order, the last round's unless it is BREAK |
| FilterChain.OptionsJoin | rtsp-ws-proxy/stream_handler.cc:144-161 | lists of options joined stand for their chains joined, one option for one filter in its initial state or, of the type none, for no filter |
| FilterChain.BufferedConserves | rtsp-ws-proxy/stream_filter.cc:73-129 | for the two status contracts, whatever the library refuses and when: nothing a filter made is lost or reordered; the encoder (AGAIN after each packet) holds nothing back, the bitstream filter (OK) hands on at most one packet for one and keeps the surplus |
| FilterChain.FullForGood | rtsp-ws-proxy/stream_handler.cc:121-126 | a filter that is full, in whatever way, stays so: BREAK returns before the receive loop that would empty it, and no packet gets through again |
| FilterChain.LosesTheRest | rtsp-ws-proxy/stream_handler.cc:121-126 | exactly which packets are lost, whatever it is to be full: those from the first position on where the packets before have filled the filter; the output is that of the packets before |
| FilterChain.LosesNothingIff | rtsp-ws-proxy/stream_handler.cc:121-126 | no packet is lost if and only if none finds the filter full, for any filter that refuses when full |
| FilterChain.SplittingLoses | rtsp-ws-proxy/stream_filter.cc:73-129 | a bitstream filter over a library with an input slot loses n - (i + 2) of n packets (none when that is negative) when the i-th is the first it splits in two or more: one more gets in, all that follow are lost |
| FilterChain.SplittingLosesIff | rtsp-ws-proxy/stream_filter.cc:73-129 | from the idle state it loses no packet if and only if no packet with two or more behind it is split, a condition on the packets alone |
| FilterChain.ThirdIsLost | rtsp-ws-proxy/stream_filter.cc:73-129 | a packet that is lost: three packets each split in two, the third is refused |
| FilterChain.StreamHandler.SendLoop | rtsp-ws-proxy/stream_handler.cc:121-126 | the do-while sends until the answer is not AGAIN; the packet is blank afterwards, and was blank from the second attempt on |
| FilterChain.StreamHandler.DoFilter | rtsp-ws-proxy/stream_handler.cc:108-142 | the recursion over one shared receive packet emits exactly what the pure chain emits, leaves every stage in the chain's state, terminates, and leaves the receive packet and its input blank, for any number of filters |
| FilterChain.StreamHandler.RecvLoop | rtsp-ws-proxy/stream_handler.cc:131-139 | the receive loop sends everything the stage gives back down the rest of the chain, in order |
| FilterChain.StreamHandler.InitVideoFilters | rtsp-ws-proxy/stream_handler.cc:144-161 | the filters are made once, one for each known option, in the order of the options |
| FilterChain.StreamHandler.OnRunning | rtsp-ws-proxy/stream_handler.cc:84-103 | over any sequence of rounds, what was delivered is the chain's output on the packets of the handled stream; a packet of another stream is left as it is, not blanked |
| SendQueue.WsSession.constructor | rtsp-ws-proxy/ws_session.h:57-66 | the configured bound itself when it is at least 1, 1 when it is 0, and 2^64 more when it is negative |
| SendQueue.WsSession.DoSend | rtsp-ws-proxy/ws_session.h:149-162 | DoSend in place, starting a write only when none is outstanding, against Send; queue and write in flight are stated outright |
| SendQueue.WsSession.OnWrite | rtsp-ws-proxy/ws_session.h:177-205 | OnWrite in place, error path included, against WriteDone and WriteFail; the queue afterwards is the newest min(max, waiting) messages, untouched on an error; never a second write beside an outstanding one |
| SendQueue.WsClient.DoSend | ws-local-player/ws_client.h:194-205 | the client's DoSend in place |
| SendQueue.WsClient.OnWrite | ws-local-player/ws_client.h:217-230 | the client's OnWrite in place, nothing dropped |
| SendQueue.WriteDoneEffect | rtsp-ws-proxy/ws_session.h:191-204 | a completion writes the front, drops one contiguous block of the oldest waiting messages, and what is queued afterwards is the rest, in order |
| SendQueue.KeepsTheNewest | rtsp-ws-proxy/ws_session.h:193-204 | after a completion the queue is exactly the last min(max, waiting) of the waiting messages, all of them without a bound |
| SendQueue.Conservation | rtsp-ws-proxy/ws_session.h:149-205 | over every run: enqueued messages are written, dropped or queued, each once; written followed by queued is a subsequence of enqueued; the newest is never dropped |
| SendQueue.SingleWriter | rtsp-ws-proxy/ws_session.h:149-205 | over every run: a write is in flight if and only if something is queued and no write has failed, and async_write was given the written messages and then the front, nothing else |
| SendQueue.BoundedAlways | rtsp-ws-proxy/ws_session.h:149-205 | at all times no more is queued than the sends since the last completion, and max besides once there was one |
| SendQueue.SendsAdd | rtsp-ws-proxy/ws_session.h:154-158 | and sends alone lengthen the queue by their number, from any state |
| SendQueue.BoundedAfterCompletion | rtsp-ws-proxy/ws_session.h:193-201 | after each successful completion at most max messages are queued |
| SendQueue.DrainsIn | rtsp-ws-proxy/ws_session.h:191-204 | with no further sends an unfailed queue is idle after exactly Rounds completions, no sooner, and Rounds is at most max + 1 |
| SendQueue.NothingAfterFailure | rtsp-ws-proxy/ws_session.h:187-188 | after a failed write no run of sends starts another write: the failed front stays queued |
| SendQueue.FailureIsFinal | rtsp-ws-proxy/ws_session.h:186-188 | over every run with a failed write: from then on nothing is written, dropped or handed to async_write any more, and what is sent waits behind the queue as it was |
| SendQueue.DropsNothing | rtsp-ws-proxy/ws_session.h:193-201 | from any consistent queue, along any legal run with failures, nothing is dropped if and only if no completion finds more than max messages waiting |
| SendQueue.ClientLossless | ws-local-player/ws_client.h:194-230 | along every error-free run the client's written messages followed by its queue are what was enqueued |
| SendQueue.SessionLikeClient | ws-local-player/ws_client.h:194-230 | the session's written messages and queue are the client's if and only if no completion found more than max waiting |
| Fanout.MembersAfter | rtsp-ws-proxy/ws_stream_room.cc:15-32 | looking up, joining and leaving change the members of their own room at most, as stated |
| Fanout.WsStreamRoom.Empty | rtsp-ws-proxy/ws_stream_room.cc:15-20 | tells whether the room has no member; creates it if missing |
| Fanout.WsStreamRoom.Join | rtsp-ws-proxy/ws_stream_room.cc:22-26 | adds the session to its room |
| Fanout.WsStreamRoom.Leave | rtsp-ws-proxy/ws_stream_room.cc:28-32 | removes the session; harmless when it is not there |
| Fanout.WsStreamRoom.Snapshot | rtsp-ws-proxy/ws_stream_room.cc:36-42 | the loop under the lock lists every member exactly once |
| Fanout.WsStreamServer.Send | rtsp-ws-proxy/ws_stream_server.cc:27-41 | the stream becomes known; the packet is sent on if and only if the room has a member |
| Fanout.WsStreamServer.DoSessionWebSocket | rtsp-ws-proxy/ws_stream_server.cc:52-72 | a session is made if and only if the target has the prefix and the rest names a known stream |
| Fanout.WsStreamSession.OnAccept | rtsp-ws-proxy/ws_session.h:122-129 | a successful handshake joins the session's own room, a failed one leaves it |
| Fanout.WsStreamSession.OnEventFail | rtsp-ws-proxy/ws_session.h:113-121 | every failure, aborted or not, leaves the room |
| Fanout.StepInv | rtsp-ws-proxy/ws_stream_room.cc:22-47 | every step of publish, snapshot, post, enqueue, write, fail, admit, accept, read failure keeps the system invariant |
| Fanout.BroadcastSafety | rtsp-ws-proxy/ws_stream_room.cc:34-47 | in every reachable state: what was enqueued for a session was published under its own stream, in a snapshot taken after it joined, and enqueued once; written is among it, and written then queued keep the order of DoSend |
| Fanout.EndToEndConservation | rtsp-ws-proxy/ws_stream_room.cc:34-47 | every message of a snapshot is, for every session of the snapshot, in exactly one place: waiting, posted, queued, written, dropped, or lost with a closed session |
| Fanout.MembershipAlways | rtsp-ws-proxy/ws_stream_session.cc:29-37 | in every reachable state a session is in a room if and only if it is open and the room is its own; it is accepted at most once |
| Fanout.ClosedForGood | rtsp-ws-proxy/ws_session.h:113-121 | once closed, a session is in no room again, whatever further failures close it again |
| Fanout.LeavesForGood | rtsp-ws-proxy/ws_session.h:113-121 | after an enabled failure of its write, read or handshake a session is in no room, whatever steps follow |
| Fanout.InRoomUntilFailure | rtsp-ws-proxy/ws_session.h:113-129 | after a successful accept, whatever steps follow, a session is in a room if and only if the room is its own and none of the steps was a failure of its own |
| Fanout.AddressedToTheRoom | rtsp-ws-proxy/ws_stream_room.cc:36-42 | whatever follows a snapshot, its message stays addressed to exactly the sessions that were in the stream's room then |
| Fanout.NeverStuck | rtsp-ws-proxy/ws_stream_room.cc:34-47 | wherever a message for a session is in a reachable state, the step that takes it further can be taken, unless a write of the session has failed |
| Fanout.PublishMoves | rtsp-ws-proxy/ws_stream_server.cc:27-41 | a publication gets under way if and only if the room has a member, and makes the stream known either way |
| Fanout.PostMoves | rtsp-ws-proxy/ws_stream_room.cc:44-46 | looking at a session of the snapshot posts one handler for it, for this message and no second time |
| Fanout.RunSendMoves | rtsp-ws-proxy/ws_session.h:149-158 | the posted handler puts the message at the end of the session's queue |
| Fanout.WriteOkMoves | rtsp-ws-proxy/ws_session.h:191-204 | a completion of the session's write has its front written |
| Fanout.AdmitMoves | rtsp-ws-proxy/ws_stream_server.cc:52-72 | a target of the prefix and a known stream's id makes a session of that stream, which waits for its handshake |
| Fanout.RoomsAreIsolated | rtsp-ws-proxy/ws_stream_room.cc:34-47 | a run of steps about other streams leaves a stream's room, sessions, queues and messages as they were |
| Fanout.LateJoiner | rtsp-ws-proxy/ws_stream_server.cc:41-45 | published after it joined is false when dated from the call of Send: in any state with a listener, an accepting session can join between the test of Empty and the snapshot and be sent the earlier packet |
| Fanout.LateJoinerReached | rtsp-ws-proxy/ws_stream_server.cc:41-45 | and a run from the start gets there, for any prefix, bound and stream: two sessions, two publications |
| Fanout.SentEarlierIff | rtsp-ws-proxy/ws_stream_server.cc:41-45 | exactly when: a session is sent a packet from before it joined if and only if it was not in the room when Send tested Empty, whatever steps follow |
| AsyncDecoder.EvictsOldestNonKey | ws-wasm-player/src/decoder.h:157-169 | an arrival evicts one packet if and only if the queue has outgrown the maximum and holds a non-key packet; it is the oldest such, and the others keep their places |
| AsyncDecoder.EvictKeepsBound | ws-wasm-player/src/decoder.h:157-169 | after an arrival the queue is within the maximum or holds key packets alone, and no key packet went |
| AsyncDecoder.StepInv | ws-wasm-player/src/decoder.h:142-240 | every step of arrival, flush, stop, grab, decode, give-up keeps the decoder's invariant |
| AsyncDecoder.FramesInArrivalOrder | ws-wasm-player/src/decoder.h:213-238 | over every run: callbacks followed by pending results are the frames of the attempts in order, and the packets attempted are arrived ones in the order of arrival |
| AsyncDecoder.AcceptedFromFirstKey | ws-wasm-player/src/decoder.h:150-157 | the accepted packets are exactly the arrivals from the first key packet on, nothing before it |
| AsyncDecoder.EachInOnePlace | ws-wasm-player/src/decoder.h:157-238 | every accepted packet is in exactly one of attempted, batch, queue, evicted, discarded, once; no other packet is in any |
| AsyncDecoder.NothingLostIff | ws-wasm-player/src/decoder.h:157-238 | attempted, then in the batch, then queued is, as a sequence, all that was accepted if and only if nothing was evicted or discarded |
| AsyncDecoder.NothingLostOnRun | ws-wasm-player/src/decoder.h:157-238 | that is so if and only if no step of the run throws a packet away: no arrival finds the queue full with a packet that is not a key packet, and the worker leaves no batch, for an answer without a frame or a stop, with packets in it |
| AsyncDecoder.DiscardedBecause | ws-wasm-player/src/decoder.h:211-237 | every discarded packet was given up with its batch after an attempt on an earlier packet of the same batch gave no frame, or when ThreadStop had begun |
| AsyncDecoder.QueueBound | ws-wasm-player/src/decoder.h:62-64 | at any time the queue is within the size asked for (at least 2) or all key packets, and nothing evicted was a key packet |
| AsyncDecoder.StopsCleanly | ws-wasm-player/src/decoder.h:190-212 | the worker never follows the null pointer of ThreadStop, and the join returns: told to stop, the worker always has a step to take and each leaves it fewer |
| AsyncDecoder.FlushDelivers | ws-wasm-player/src/decoder.h:173-180 | right after the flush of any run the callback has been given the frame of every attempt that made one, and nothing is pending |
| AsyncDecoder.ArriveMoves | ws-wasm-player/src/decoder.h:142-170 | an arrival leaves the worker started; a key packet, or any after one, is accepted and followed by a flush, and is queued last while there is room |
| AsyncDecoder.DecodeDoes | ws-wasm-player/src/decoder.h:211-238 | GetFrame's answer goes with the head of the batch; a frame becomes pending, any other answer throws the rest of the batch away |
| AsyncDecoder.StopDoes | ws-wasm-player/src/decoder.h:190-237 | ThreadStop sets the flag, then pushes its null; every test of the worker after that ends the batch or the worker |
| AsyncDecoder.Decoder.constructor | ws-wasm-player/src/decoder.h:56-64 | the members' initial values and Open's queue size |
| AsyncDecoder.Decoder.Arrive | ws-wasm-player/src/decoder.h:142-170 | DecodeAsync up to the end of its lock, in place: thread start, key gate, push, eviction |
| AsyncDecoder.Decoder.EvictOldest | ws-wasm-player/src/decoder.h:158-169 | the erase loop removes the oldest non-key packet, or nothing |
| AsyncDecoder.Decoder.Flush | ws-wasm-player/src/decoder.h:173-180 | every pending result is given to the callback in order and the list emptied |
| AsyncDecoder.Decoder.Grab | ws-wasm-player/src/decoder.h:205-210 | the worker takes the whole queue |
| AsyncDecoder.Decoder.WorkerTurn | ws-wasm-player/src/decoder.h:205-238 | one turn of the worker's loop in place: grab, test of decode_stop_, then the batch |
| AsyncDecoder.Decoder.DecodeBatch | ws-wasm-player/src/decoder.h:213-238 | the loop over a batch does the machine's steps for these codec answers and this moment of ThreadStop: it stops at the first answer without a frame, and at the first test that sees decode_stop_ |
| Pacing.Rate.constructor | common/util/rate.h:26-31 | the cycle is the truncating division of the tick rate by the frequency |
| Pacing.Rate.Sleep | common/util/rate.h:37-68 | Sleep in place, both clock-jump branches, against SleepAt and SleepTime |
| Pacing.StartAdvances | common/util/rate.h:39-64 | the recorded start advances by at least a cycle on a clock not behind it; by exactly one if and only if at most two cycles were used; beyond that it moves to the reading |
| Pacing.SleepsAtMostOneCycle | common/util/rate.h:41-67 | whatever the clock does a call sleeps a cycle at most, sleeps if and only if the cycle is not used up, and does not return before the new start |
| Pacing.NeverEarly | common/util/rate.h:37-68 | the k-th return is at least k cycles after the construction, over every honest run |
| Pacing.ReturnsApart | common/util/rate.h:37-68 | any two returns are their number of cycles apart, less exactly what the first was late by |
| Pacing.LateAtMostACycle | common/util/rate.h:57-65 | the reset keeps every return within a cycle (and the sleeps' delay) of its recorded start |
| Pacing.WindowBound | common/util/rate.h:37-68 | the i-th and j-th returns are at least j - i - 1 cycles apart, less the delay of a late sleep |
| Pacing.WindowBoundIsReached | common/util/rate.h:57-65 | the bound is met with equality over any number of calls |
| Pacing.DriftFree | common/util/rate.h:54-64 | the starts stay on the grid of the construction if and only if no call ever found more than two cycles used |
| Pacing.ExactSchedule | common/util/rate.h:37-68 | with iterations within the cycle and exact sleeps the k-th return is exactly k cycles after the construction |
| Pacing.StreamFilterVideoEnc.SendFrame | rtsp-ws-proxy/stream_filter.cc:212-254 | the throttle in place: with a rate up to 1000 a frame passes if and only if 1000 / rate whole milliseconds have gone since the last that did, with none every frame; timestamp and frame counter as stated |
| Pacing.AcceptsIffGap | rtsp-ws-proxy/stream_filter.cc:215-219 | the truncated millisecond test is a plain distance in ticks, negative distances and rates over 1000 included |
| Pacing.Numbered | rtsp-ws-proxy/stream_filter.cc:253-253 | encoded frames are numbered consecutively, dropped ones take no number |
| Pacing.KeepsAll | rtsp-ws-proxy/stream_filter.cc:212-221 | without a frame rate every frame is encoded, in order and numbered, and no time is remembered |
| Pacing.KeptApart | rtsp-ws-proxy/stream_filter.cc:212-221 | any two consecutive encoded frames are a gap apart or more |
| Pacing.KeepsTheMost | rtsp-ws-proxy/stream_filter.cc:212-221 | on a non-decreasing clock no choice of frames a gap apart has more frames than the throttle keeps |
| BlockingQueues.BlockingQueue.Put | common/util/blocking_queue.h:112-122 | true if and only if an element was dropped, exactly one, and dropped_ is it |
| BlockingQueues.BlockingQueue.FixMaxSize | common/util/blocking_queue.h:211-220 | the oldest element goes when the bound is exceeded, and only then |
| BlockingQueues.BlockingQueue.Take | common/util/blocking_queue.h:136-144 | takes the front once the queue is not empty |
| BlockingQueues.BlockingQueue.TryTake | common/util/blocking_queue.h:146-157 | takes the front, or tells that there is none |
| BlockingQueues.BlockingQueue.TryPeek | common/util/blocking_queue.h:167-177 | shows the front and changes nothing |
| BlockingQueues.BlockingQueue.MoveAll | common/util/blocking_queue.h:179-191 | moves everything out in order |
| BlockingQueues.BlockingQueue.Clear | common/util/blocking_queue.h:193-197 | everything is cleared |
| BlockingQueues.History | common/util/blocking_queue.h:112-220 | over any operations: everything put is, in order, what has left and then what is queued; so every dropped element is older than every retained one; the size keeps its bound; dropped_ is the last one dropped |
| BlockingQueues.TakenThenQueued | common/util/blocking_queue.h:112-220 | over any operations what was taken followed by what is queued is a subsequence of what was put |
| BlockingQueues.LosslessIff | common/util/blocking_queue.h:112-220 | what was taken followed by what is queued is everything put if and only if nothing was dropped or cleared |
| BlockingQueues.UnboundedNeverDrops | common/util/blocking_queue.h:211-219 | with maximum 0 nothing is ever dropped |
| BlockingQueues.KeepsTheNewest | common/util/blocking_queue.h:112-122 | putting into a bounded queue leaves exactly the newest max elements |
| CodecJson.HexRoundTrip | common/net/json.h:57-64 | the lower-case two-digit hex of any bytes, whatever follows it, reads back as the bytes |
| CodecJson.HexTextAt | common/net/json.h:58-63 | the i-th byte is written as its high then its low digit, '0' to '9' and 'a' to 'f' |
| CodecJson.ShortTextThrows | common/net/json.h:117-120 | a text that ends before the last byte begins is refused |
| CodecJson.WriteHex | common/net/json.h:58-63 | the loop that writes the digits |
| CodecJson.ReadHex | common/net/json.h:116-120 | the loop that reads them, with stoi's spaces, signs and failures on two characters |
| CodecJson.ParametersComeBack | common/net/json.h:46-159 | reading the JSON of any codec parameters into any struct succeeds; every member of the media type is as written, no other is changed, extradata come back with their size |
| CodecJson.VideoComesBack | common/net/json.h:46-159 | member by member for video: which are as written and which stay as they are in the struct |
| CodecJson.AudioComesBack | common/net/json.h:46-159 | member by member for audio |
| CodecJson.SubtitleComesBack | common/net/json.h:46-159 | member by member for subtitles: width and height besides the common ones |
| CodecJson.OthersComeBack | common/net/json.h:46-159 | member by member for every other type: the common ones alone |
| CodecJson.WhatIsWritten | common/net/json.h:46-101 | the JSON object has exactly the members that travel, extradata with their size (null and 0 without a pointer), and for video the aspect ratio |
| CodecJson.NoSoundWritten | common/net/json.h:66-101 | no member of sound is in the object of anything else |
| CodecJson.NoPictureWritten | common/net/json.h:66-101 | no member of a picture is in the object of anything but video |
| CodecJson.ExtradataComeBackIff | common/net/json.h:57-68 | on a fresh struct extradata and size come back exactly if and only if the pointer and a positive size go together |
| CodecJson.StreamsComeBack | common/net/json.h:179-287 | a stream map written in any order comes back as as many infos, with the same ids, types and parameters; the empty map goes through null |
| CodecJson.WriteStreams | common/net/json.h:179-192 | the loop over the stream map |
| CodecJson.ReadInfo | common/net/json.h:258-271 | the loop over all media types, null sub-infos and exceptions included |
| StreamLifecycle.TracesInLanguage | common/media/stream_thread.cc:46-90 | every run that ends shows its handlers a word of the event language: broken passes each followed by LOOP, then a whole pass or a broken one followed by ERROR; the body is packets each followed by frames of rising type, empty with a running callback, and empty in every pass after a CLOSE |
| StreamLifecycle.LanguageInTraces | common/media/stream_thread.cc:46-90 | every word of that language is the trace of some run in which is_running_, once found false, stays so: the language is exact |
| StreamLifecycle.QuietAfterClose | common/media/stream_thread.cc:56-90 | in every word, and so in every trace, no packet and no frame comes after a CLOSE, however often the thread loops |
| StreamLifecycle.QuietAfterStop | common/media/stream_thread.cc:38-56 | after a pass during which another thread stopped, left by EOF or otherwise, no packet and no frame is shown |
| StreamLifecycle.StreamThread.Start | common/media/stream_thread.cc:29-36 | a frequency of 0 or less throws; a running thread is left alone; otherwise the flag is set and one thread started |
| StreamLifecycle.StreamThread.RunOnce | common/media/stream_thread.cc:46-79 | the try block with its loops, stopped at any throwing action, emits the events of the actions done; the flag is false afterwards exactly when it was, when the loop was left by it, or when another thread stopped during the pass |
| StreamLifecycle.StreamThread.Run | common/media/stream_thread.cc:80-90 | the catch block and the self-call, over the same flag, emit the whole trace; the flag stays set if and only if no pass left its loop and none was stopped |

## Left out

- Bytes.From: reads with every byte widened before the shift, because for 64-bit types the source shifts a promoted 32-bit int by 32 or more, which is undefined by section 5.8 of ISO C++14; Bytes.FromAsWritten covers the loop as it stands.
- PacketCodec.Data.FromBytes: what happens after a read past the end, undefined in the source, is not modelled; 64-bit fields are read widened.
- PacketRoundTrip.RoundTripAsWritten: 64-bit fields are read widened; with the shifts as they stand the reader is undefined on every packet that reaches them.
- PacketRoundTrip.SideDataSurvives: the media library's packet is taken to hold one side-data entry a type, a later block replacing an earlier one in its place.
- FilterChain.StreamHandler.DoFilter: a filter is an abstract transducer that cannot answer AGAIN for ever; a StreamError thrown by a filter is not modelled.
- FilterChain.SplittingLosesIff: the library works on a packet only when it has nothing ready, and takes one packet at a time into its slot; FilterChain.LosesTheRest needs no such picture of it.
- SendQueue.WsSession.OnWrite: write errors are one error; the callbacks around it are in module Fanout.
- Fanout.BroadcastSafety: calls of Send for one stream may overlap, a posted handler runs at any later time, and a closed session may be gone at any time before the post; the source allows no more than this.
- Fanout.WsStreamServer.Send: the stream table is a set of ids; which stream object is stored last is not modelled.
- AsyncDecoder.Decoder.DecodeBatch: of the other threads' steps only the setting of decode_stop_ comes during the batch; all interleavings are in the state machine (AsyncDecoder.StepInv and the lemmas over runs).
- AsyncDecoder.FramesInArrivalOrder: a callback is set, and parsing of the arriving bytes succeeds; the synchronous Decode is not modelled.
- Pacing.NeverEarly: the frequency is positive, as common/media/stream_thread.cc:30 demands, and the clock does not go back during the run; a single backward jump is in Pacing.SleepsAtMostOneCycle.
- BlockingQueues.BlockingQueue.MoveAll: a moved-from container is taken to be empty; the members that work without the lock are left out.
- CodecJson.ParametersComeBack: numbers are unbounded, and the text of the JSON tree is not printed or parsed.
- CodecJson.StreamsComeBack: the media types of a stream are those that have a name.
- StreamLifecycle.LanguageInTraces: each GetFrame may answer with a frame, without one, or throw; the Stream class keeps video streams alone (common/media/stream.cc:130-143), so the wanted types of an exact language are video, and another type always throws.
- StreamLifecycle.TracesInLanguage: a handler that throws out of the LOOP or ERROR event ends the program and is not modelled; whether a running callback is installed does not change during a run.
- Data races on members read without their lock.
- Allocation failures, except the negative sizes the packet reader tests for.
- Networking, TLS, HTTP, handshakes, cross-origin headers.
- Demuxing, codecs, scaling and rendering.
- YAML configuration, logging, time statistics, string, MIME and path helpers.
- The chat sample, which repeats the session and room code without stream ids.
- Joining the stream thread, and restarting it after an error.
