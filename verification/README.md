# easy-uds in Dafny

easy-uds is a local RPC server and client with its own framed protocol over Unix sockets. This project models its
hard core and proves what that code promises. Protocols between threads are state machines with one step per atomic
operation or locked section, and the theorems hold for every run, that is for every interleaving. Code that works in
place is a class or a method, proved against the same functions the theorems speak about. What the kernel, other
threads and the application answer is a parameter, so every legal partial send, receive, failure or refusal is covered.

- `Basics.dfy`, `Filters.dfy`: sums over sequences, filters and other helpers.
- `Codec.dfy`: the 20-byte frame header, encoding and decoding.
- `Transport.dfy`: gathered writes with partial sends, descriptor attachment, the client's read-ahead buffer.
- `Streams.dfy`: chunked stream bodies, written and read in both directions.
- `Parser.dfy`: the reactor's incremental parser against a one-pass parse of the whole byte stream.
- `Reactor.dfy`: the reactor's read path as the code has it, receive loop and parse loop, in strict and default mode.
- `Budget.dfy`: request-byte accounting across parsers, queues, workers and releases.
- `Backpressure.dfy`: read pauses and what resumes them, over the same steps.
- `FlowControl.dfy`: the counters behind it: compare-exchange reservation and the scan after a release.
- `Lease.dfy`: who may read a connection, and what becomes of its unread bytes, across all hand-offs.
- `Frames.dfy`: the frames the readers take out of the stream between them, against the one-pass parse.
- `Slots.dfy`: the slots that bound concurrent streams.
- `Output.dfy`: the direct-send fast path, the output queue and the stream writers that go past it.
- `Scheduler.dfy`: the serialized-domain executor with its three queue policies and lazily grown workers.
- `Session.dfy`: the client's multiplexer with its sharded table and a reader that may fail at any time.
- `Ring.dfy`: the shared-memory ring with conditional wakeup.
- `Routes.dfy`: route registration and lookup.

`dafny verify dfyconfig.toml` checks the whole project.

## What the code does not keep

Nine natural properties are false of the code. Each is stated with the exact condition under which it holds, for all
inputs or runs, and with a concrete input or run that breaks it.

- The incremental parser takes a passed descriptor when it has read the frame's header
  (`src/system/reactor/parser.cpp:211-218`). Receives that split the stream differently agree with the one-pass parse
  if and only if every announced descriptor arrives by the last byte of its header or never
  (`Parser.SplitsAgreeIffTimely`, `Parser.LateDescriptorExists`). Streams without descriptors, and streams whose sender
  attaches each descriptor to the first byte of its frame as the client does, always qualify, however much of them has
  arrived.
- A worker whose response overflows closes the connection and releases what its parser has reserved
  (`src/system/reactor/output.cpp:218-221`, `src/system/reactor/dispatch.cpp:123-152`), even while the reactor is parsing
  it; the reactor then dispatches the frame as if it still held the bytes (`src/system/reactor/dispatch.cpp:252-259`),
  and they are released twice. The counters are exactly what is held if and only if no frame is dispatched whose
  reservation is gone and no job is dropped unpaid (`Budget.BudgetConserved`). In the run of
  `Budget.ReservationReleasedTwice` the total ends at minus one, after which no reservation is granted
  (`Budget.NothingAdmittedBelowZero`) and other connections are stranded (`Backpressure.UncleanRunStrands`). If closing
  waits for the reactor, every run is clean (`Budget.PatientIsClean`).
- A continuation worker that leaves by an exception after charging its request
  (`src/system/reactor/workers.cpp:368-372`, `src/system/reactor/workers.cpp:389-392`) leaves it on the counters for good
  (`Budget.JobDroppedUnpaid`). Without an aggregate budget every other run is clean (`Budget.PaidIsClean`).
- That job also stays counted on its connection, so closing never takes the connection out of the map
  (`src/system/reactor/dispatch.cpp:144-154`). With all jobs done or dropped, a close frees the connection's place if and
  only if none was dropped (`Lease.PlaceFreedIff`, `Lease.DroppedJobKeepsPlace`).
- Without an aggregate budget the end of the stream is acted on before the parse loop
  (`src/system/reactor/parser.cpp:136-139`), so a request that comes whole in the same readiness event is not dispatched
  (`Reactor.EndOfStreamDropsRequest`). What a close leaves undispatched is exactly the one-pass reading of what waits;
  in strict mode nothing came in that event (`Reactor.ConnectionParser.Consume`).
- The decision to pause a connection and the pause itself are two critical sections
  (`src/system/reactor/flow_control.cpp:183-194`). No open connection is left paused with nothing in flight if and only
  if something is in flight at the moment of each pause (`Backpressure.AwakeIffGoodPauses`,
  `Backpressure.SplitPauseStrands`).
- The guard of the continuation lease looks at the parse phase and the read-ahead but not at header bytes already
  copied out (`src/system/reactor/workers.cpp:220-230`). Hand-offs keep the byte stream if and only if every such lease
  is taken with no header byte copied (`Lease.HandOffsKeepStream`, `Lease.PartialHeaderIsLost`). The frames taken out of
  it then agree with the one-pass parse, and for a peer that sends no malformed frame only then
  (`Frames.HandOffsKeepFrames`, `Frames.SplitHeaderDisagrees`).
- A stream is dispatched without a look at the output queue (`src/system/reactor/dispatch.cpp:269-273`), and its worker
  writes straight to the socket (`src/system/reactor/stream.cpp:168-196`). Output keeps its order if and only if no
  stream frame is written while the remainder of a response is queued or being queued (`Output.OutputRefinement`,
  `Output.StreamOvertakesRemainder`).
- A stream slot is not given back when its job cannot be queued (`src/system/reactor/dispatch.cpp:274`,
  `src/system/reactor/dispatch.cpp:305-310`). The slots taken are the streams about if and only if that never happens
  (`Slots.SlotsExactIff`, `Slots.DroppedStream`).

## Model

| member | source | states |
|---|---|---|
| `Codec.PutU32` | src/system/protocol/codec.hpp:69-75 | stores the four big-endian bytes of a value and touches no other byte |
| `Codec.U32RoundTrip` | src/system/protocol/codec.hpp:69-82 | reading back a stored 32-bit field gives the value |
| `Codec.U32Canonical` | src/system/protocol/codec.hpp:69-82 | storing a field read from four bytes gives back those bytes |
| `Codec.EncodeHeader` | src/system/protocol/codec.hpp:84-97 | the filled array is the header's byte sequence, field by field |
| `Codec.DecodeOfEncode` | src/system/protocol/codec.hpp:84-136 | decoding inverts encoding on exactly the headers the protocol allows and refuses the encoding of every other header |
| `Codec.EncodeOfDecode` | src/system/protocol/codec.hpp:84-136 | every byte string that decodes is the encoding of what it decodes to, which is an allowed header |
| `Codec.ValidateRequestLengths` | src/system/protocol/codec.hpp:146-154 | accepts exactly nonempty routes whose fields fit the wire and whose total fits the message limit |
| `Transport.Advance` | src/system/transport/io.hpp:374-383 | dropping sent bytes from the parts in place leaves exactly the rest of their concatenation |
| `Transport.SendOnce` | src/system/transport/io.hpp:370-385 | one successful send takes a nonempty front of what is left and nothing else |
| `Transport.WriteIovecsExact` | src/system/transport/io.hpp:359-399 | under any partial sends the wire carries a prefix of the concatenated parts, all of it exactly when the call succeeds |
| `Transport.WriteIovecsExactWithFd` | src/system/transport/io.hpp:404-447 | the same, and the descriptor rides on exactly one send, the first that moves bytes |
| `Transport.BufferedReader.Read` | src/system/transport/io.hpp:267-288 | delivers exactly the next bytes of the stream for any mix of buffered and direct receives; a failing read loses nothing but the prefix it took |
| `Transport.BufferedReader.ReadDirect` | src/system/transport/io.hpp:316-324 | large reads bypass the buffer and still deliver the next bytes in order |
| `Transport.ReadRequestFrame` | src/system/transport/io.hpp:262-330 | a successful read of header, route and body takes exactly one whole frame off the stream |
| `Transport.FrameUnique` | src/system/protocol/codec.hpp:84-136 | a byte stream starts with at most one request frame: equal prefixes mean equal fields, route and body |
| `Transport.RequestRoundTrip` | src/system/transport/transport.hpp:28-42 | a request written by the gather loop under any sends and read back under any receives has the same id, flags, route and body |
| `Streams.WriteBody` | src/system/transport/transport.cpp:25-45 | writes frames of exactly the chunks the body reader offered up to the first empty, oversized or limit-breaking answer, and tells which of these stopped it |
| `Streams.StreamRoundTrip` | src/system/reactor/stream.cpp:42-80 | every chunked body reads back as its bytes, ending right after the end frame, exactly when it fits the receiver's limit; otherwise it is refused as too large |
| `Streams.StreamByteSource.Read` | src/system/reactor/stream_io.hpp:19-48 | reads the buffered bytes first, then the socket, exactly in order, losing nothing on failure |
| `Streams.IncomingStream.NextFrame` | src/system/reactor/stream.cpp:46-68 | an accepted header keeps the payload ahead unchanged; a refused one is exactly where the reference reading breaks |
| `Streams.IncomingStream.Read` | src/system/reactor/stream.cpp:42-74 | a pull of any capacity returns exactly the front of the payload still ahead; a zero answer to a nonzero capacity means the end frame |
| `Streams.ReadThenDrain` | src/system/reactor/stream.cpp:76-80 | pulls of any nonzero sizes followed by the drain return the whole payload and leave the source at the first byte after the end frame, or stop at the fault where the reference reading breaks; with calls enough only a body cut short fails otherwise |
| `Streams.ReadResponseBody` | src/system/transport/transport.cpp:80-109 | the client's loop delivers exactly the payload, never more than the limit, and stops after the end frame or at the same fault as the reference reading; with calls enough only a body cut short fails otherwise |
| `Streams.UploadRoundTrip` | src/system/transport/transport.cpp:25-45 | client to server: whatever body the client's writer is offered, however much of it the reactor had read ahead, whatever capacities the handler pulls with, pulls and drain together return exactly that body and leave what follows it; the server complains exactly if the body is over its limit, and with calls enough a fitting body arrives |
| `Streams.DownloadRoundTrip` | src/system/reactor/stream.cpp:168-196 | server to client: a body written whole is read back exactly, with a buffer of any size, and what follows is untouched; the client complains exactly if the body is over its limit, and with calls enough a fitting body arrives |
| `Parser.ServerIsSteady` | src/system/reactor/parser.cpp:176-184 | judging a header again under the wire version it established gives the same verdict |
| `Parser.RunKeeps` | src/system/reactor/parser.cpp:151-316 | along any run the events emitted, followed by the one-pass reading of what is left, stay the one-pass reading of the whole, if descriptors are in time |
| `Parser.EveryRunAgrees` | src/system/reactor/parser.cpp:85-316 | every run over a timely stream agrees with the one-pass parse |
| `Parser.SomeRunDiverges` | src/system/reactor/parser.cpp:211-218 | for every untimely stream there is a way of receiving it on which the parser disagrees |
| `Parser.SplitsAgreeIffTimely` | src/system/reactor/parser.cpp:85-316 | every split into receives, with any pauses between, agrees with the one-pass parse if and only if no descriptor comes after its header |
| `Parser.QuietRunIsParse` | src/system/reactor/parser.cpp:151-316 | when everything received has been parsed, events and stop are those of the one-pass parse |
| `Parser.RunsAgree` | src/system/reactor/parser.cpp:104-136 | two runs over one stream that are both at rest, such as one in strict and one in default mode, have dispatched the same frames and stopped in the same way |
| `Parser.WellSentIsTimely` | src/system/transport/io.hpp:401-447 | whole frames whose descriptors ride on their first byte make a timely stream |
| `Parser.PrefixIsTimely` | src/system/reactor/parser.cpp:211-218 | timeliness passes to every prefix, so it does not depend on how much has arrived |
| `Parser.ArrivingIsTimely` | src/system/transport/io.hpp:401-447 | what has arrived, at any point, of what such a peer sends is timely, the last frame in part or not |
| `Parser.NoDescriptorsIsTimely` | src/system/reactor/parser.cpp:211-218 | any byte stream without descriptors, well formed or not, is timely |
| `Parser.LateDescriptorExists` | src/system/reactor/parser.cpp:211-218 | a concrete request whose descriptor comes one byte after its header is not timely |
| `Reactor.ConnectionParser.constructor` | src/system/reactor/core.hpp:142-172 | a new connection is at the start of a run of the parser |
| `Reactor.ConnectionParser.ReleaseConsumed` | src/system/reactor/parser.cpp:77-83 | giving back consumed memory changes nothing the parser sees |
| `Reactor.ConnectionParser.TakeHeader` | src/system/reactor/parser.cpp:160-167 | copies exactly the header bytes of one parser step out of the read-ahead |
| `Reactor.ConnectionParser.Judge` | src/system/reactor/parser.cpp:172-252 | acts on a complete header as the parser step does: error, cancellation, request or stream |
| `Reactor.ConnectionParser.Begin` | src/system/reactor/parser.cpp:43-75 | starts a payload exactly when the budget admits it, and in strict mode reserves all of it first |
| `Reactor.ConnectionParser.TakePayload` | src/system/reactor/parser.cpp:255-265 | splits the next bytes between route and body |
| `Reactor.ConnectionParser.DispatchRequest` | src/system/reactor/parser.cpp:292-301 | emits the complete request once and returns to the header phase |
| `Reactor.ConnectionParser.DispatchStream` | src/system/reactor/parser.cpp:306-314 | leases the connection with the unread bytes intact |
| `Reactor.ConnectionParser.RequestSize` | src/system/reactor/parser.cpp:102-119 | a strict receive never asks for more than the frame in progress still needs |
| `Reactor.ConnectionParser.ReceiveInput` | src/system/reactor/parser.cpp:100-149 | whatever the socket answers, the bytes taken and the bytes left are the socket's bytes in order, and in strict mode no payload byte is held beyond what is reserved |
| `Reactor.ConnectionParser.ParseInput` | src/system/reactor/parser.cpp:151-316 | the in-place loop follows a run of the parser and, unless paused, ends with nothing more it could parse |
| `Reactor.ConnectionParser.Consume` | src/system/reactor/parser.cpp:85-316 | one readiness event in either mode: the connection stays on a run over exactly the bytes taken, and if no descriptor came late, all events so far followed by the one-pass reading of what waits are the one-pass parse of everything received; if it neither paused nor closed nothing complete waits; a close dispatches nothing, and in strict mode nothing was received with it |
| `Reactor.EndOfStreamDropsRequest` | src/system/reactor/parser.cpp:136-139 | a whole request, received and not parsed, of which the one-pass parse dispatches one |
| `Budget.StepKeeps` | src/system/reactor/flow_control.cpp:89-196 | every atomic step of reactor, workers and releases keeps the books, in which bytes released twice or dropped unpaid are entered as such; a close at any time and an exception in a continuation worker are steps |
| `Budget.OffenceLoses` | src/system/reactor/dispatch.cpp:252-259 | each frame dispatched without its reservation, and each job dropped unpaid, does put the counters off |
| `Budget.BudgetConserved` | src/system/reactor/flow_control.cpp:89-156 | the per-connection, per-request and total counters are exactly what parsers, queued and executing jobs, releases in progress and the reactor hold if and only if the run is clean, and then never negative; on every run they stay within both limits of an aggregate budget |
| `Budget.PayloadWithinReservation` | src/system/reactor/parser.cpp:43-75 | on every run no parser of an open connection holds payload beyond its reservation |
| `Budget.DrainedIsZeroIff` | src/system/reactor/dispatch.cpp:116-160 | with nothing held any more every counter is zero, each reservation released exactly once, if and only if the run was clean |
| `Budget.PatientIsClean` | src/system/reactor/dispatch.cpp:116-160 | under an aggregate budget every run is clean on which no connection is closed while the reactor is at work on it |
| `Budget.PaidIsClean` | src/system/reactor/workers.cpp:360-396 | without one every run is clean on which no continuation worker drops its request |
| `Budget.ReservationReleasedTwice` | src/system/reactor/dispatch.cpp:116-160 | a run on which, after an earlier request whose response can still be queued, a worker closes the connection during its parse and the total ends at minus one with nothing held |
| `Budget.NothingAdmittedBelowZero` | src/system/reactor/flow_control.cpp:96-108 | from a total of minus one, shown as the largest unsigned value, every reservation is rolled back |
| `Budget.JobDroppedUnpaid` | src/system/reactor/workers.cpp:360-396 | a run on which a request stays on all three counters after its worker left |
| `Budget.AdmitKeeps` | src/system/reactor/dispatch.cpp:82-113 | an accepted request takes over exactly the bytes the reactor accounts for, or is charged for them now |
| `Budget.RefuseKeeps` | src/system/reactor/dispatch.cpp:205-243 | a busy, stopping or failing queue leads to one release of the same bytes |
| `Budget.CloseKeeps` | src/system/reactor/dispatch.cpp:116-160 | closing, by any thread and at any time, hands the parser's reservation to one release |
| `Budget.LoneReservationSucceeds` | src/system/transport/io.hpp:76-88 | with validated options and nothing in flight, a retried reservation is granted in full |
| `Backpressure.ScanWakes` | src/system/reactor/flow_control.cpp:39-73 | the scan that ends a release leaves no open connection paused with nothing in flight |
| `Backpressure.StepStaysAwake` | src/system/reactor/flow_control.cpp:14-156 | every step but a pause keeps it that way |
| `Backpressure.PauseStaysAwakeIff` | src/system/reactor/flow_control.cpp:158-174 | a pause keeps it exactly when something is in flight at that moment |
| `Backpressure.AwakeIffGoodPauses` | src/system/reactor/flow_control.cpp:176-196 | a run, under an aggregate budget a clean one, never strands a connection if and only if each of its pauses came with something in flight |
| `Backpressure.SoundIffCleanAndGood` | src/system/reactor/flow_control.cpp:89-196 | any run keeps both the counters and every connection awake if and only if it is clean and each of its pauses came with something in flight |
| `Backpressure.BackpressureNeverStalls` | src/system/reactor/flow_control.cpp:14-196 | taking decision and pause as one step, no run, under an aggregate budget no clean run, strands a connection; with nothing in flight no open connection is paused |
| `Backpressure.SplitPauseStrands` | src/system/reactor/flow_control.cpp:183-194 | a run in which a job finishes between decision and pause and leaves its connection paused for good |
| `Backpressure.UncleanRunStrands` | src/system/reactor/flow_control.cpp:110-123 | an unclean run that strands a connection although decision and pause are one step: its first reservation is refused for good |
| `FlowControl.Counter.TryAdd` | src/system/reactor/flow_control.cpp:96-108 | the compare-exchange loop adds atomically to the value then present, exactly if it fits the limit, whatever other threads store |
| `FlowControl.TryReserve` | src/system/reactor/flow_control.cpp:89-123 | both counters grow within their limits, or the connection's share is taken off again from whatever other threads have made of its counter meanwhile and the total is untouched |
| `FlowControl.Connections.QueueIfReady` | src/system/reactor/flow_control.cpp:44-54 | resumes and queues a connection exactly if it is paused, open and below its watermarks |
| `FlowControl.Connections.ResumePaused` | src/system/reactor/flow_control.cpp:39-73 | the scan resumes exactly the connections it should, all or only the released one, and queues each once |
| `Lease.StepKeeps` | src/system/reactor/event_loop.cpp:205-255 | every step of reactor, stream worker and continuation worker keeps read ownership exclusive, closes of a leased connection by any thread included |
| `Lease.OfferKeeps` | src/system/reactor/workers.cpp:400-415 | the tests before the lock: the lease ends at once on a closing connection or a stopped server, and is otherwise still held |
| `Lease.RearmKeeps` | src/system/reactor/workers.cpp:416-464 | the locked section ends the lease and cannot meet another reader, whether the map entry is reused or replaced, even if the connection was closed or the server stopped since the tests |
| `Lease.OneReader` | src/system/reactor/workers.cpp:204-240 | on every run at most one of reactor, stream worker and continuation worker may read a connection |
| `Lease.StreamIntact` | src/system/reactor/stream_io.hpp:19-48 | a stream worker's reads and its rearm keep the unread bytes in order |
| `Lease.ContinueIntact` | src/system/reactor/workers.cpp:261-396 | a continuation worker's reads, requests, cancellations and replayed stream header keep the unread bytes in order |
| `Lease.AcquireIntactIff` | src/system/reactor/workers.cpp:218-239 | a continuation lease keeps the byte stream exactly when no header byte was copied out |
| `Lease.IntactIffGoodLeases` | src/system/reactor/workers.cpp:204-240 | from any sound state, a run keeps the byte stream throughout if and only if each of its continuation leases starts at a frame boundary |
| `Lease.HandOffsKeepStream` | src/system/reactor/dispatch.cpp:291-310 | the same for every run of a new connection, through any chain of hand-offs |
| `Lease.StrictIsAlwaysIntact` | src/system/reactor/workers.cpp:206-216 | under an aggregate budget no run ever loses, repeats or reorders a byte |
| `Lease.PartialHeaderIsLost` | src/system/reactor/workers.cpp:218-239 | a run on which the first byte of a header is lost to a continuation lease |
| `Lease.PlaceFreedIff` | src/system/reactor/dispatch.cpp:144-154 | with every job completed or dropped, closing a connection takes it out of the map if and only if no continuation worker dropped one |
| `Lease.PlaceLostForGood` | src/system/reactor/dispatch.cpp:144-154 | a connection with a dropped job stays in the map on every later run |
| `Lease.DroppedJobKeepsPlace` | src/system/reactor/workers.cpp:360-396 | a run on which a dropped request leaves a closed connection in the map |
| `Lease.ReadSide.DispatchStream` | src/system/reactor/dispatch.cpp:266-311 | hands the read-ahead with its offset to the stream worker as the state machine says |
| `Lease.HandOut` | src/system/reactor/dispatch.cpp:291-311 | the lease flags as the code sets them, and what a refused job leaves |
| `Lease.ReadSide.TryAcquire` | src/system/reactor/workers.cpp:204-240 | grants the lease exactly under the code's guard |
| `Lease.TestFlags` | src/system/reactor/workers.cpp:404-415 | the tests as the code makes them: go on, close, or leave everything when stopped |
| `Lease.PutBack` | src/system/reactor/workers.cpp:419-463 | flags and map entry under the lock, reused only if nobody looks at it |
| `Lease.ReadSide.Offer` | src/system/reactor/workers.cpp:400-415 | keeps exactly the unread suffix on the way back, or drops it with the connection |
| `Lease.ReadSide.Rearm` | src/system/reactor/workers.cpp:416-464 | restores a clean parse state with exactly the unread suffix as read-ahead |
| `Lease.ReadSide.EndStream` | src/system/reactor/stream.cpp:205 | a finished stream worker offers the connection back with exactly its unread bytes |
| `Lease.ReadSide.ReplayStreamHeader` | src/system/reactor/workers.cpp:318-324 | puts the header back in front of the unread buffered bytes |
| `Frames.StepKeeps` | src/system/reactor/workers.cpp:261-396 | every step of the reactor's parser, of continuation and stream workers and of the peer, but a lease in the middle of a header, keeps the bytes used up whole frames that make exactly the events logged |
| `Frames.BadLeaseDisagrees` | src/system/reactor/workers.cpp:218-239 | a lease in the middle of a header makes the frames to come differ from the one-pass reading, if that has no error |
| `Frames.HandOffsKeepFrames` | src/system/reactor/workers.cpp:204-396 | on every run the cancellations, requests and streams that reactor and continuation workers take out between them are those of the one-pass parse in order if every continuation lease is good, and for a peer that sends no malformed frame only if |
| `Frames.StrictAlwaysAgrees` | src/system/reactor/workers.cpp:206-216 | under an aggregate budget every run agrees, whatever the peer sends |
| `Frames.AllRead` | src/system/reactor/parser.cpp:151-316 | with nothing left to read the events are exactly those of the one-pass parse |
| `Frames.SplitHeaderDisagrees` | src/system/reactor/workers.cpp:218-239 | a run of valid frames on which a continuation lease makes the frames differ |
| `Slots.SlotsExactIff` | src/system/reactor/dispatch.cpp:11-20 | on every run there are never more streams than slots, and the counter is exactly the streams queued, running or being queued if and only if none was dropped after its slot was taken |
| `Slots.IdleAdmitsIff` | src/system/reactor/dispatch.cpp:266-311 | with no stream about, the next one gets a slot if and only if fewer were dropped than there are slots |
| `Slots.LostForGood` | src/system/reactor/stream.cpp:97-122 | a slot that is lost never comes back |
| `Slots.DroppedStream` | src/system/reactor/dispatch.cpp:305-310 | a run on which a refused job keeps its slot |
| `Slots.StreamSlots.TryAcquire` | src/system/reactor/dispatch.cpp:11-20 | the compare-exchange loop takes a slot on the value then present, exactly if there is one |
| `Output.PartsAreRemainder` | src/system/reactor/output.cpp:58-73 | the parts offered to the kernel are the unsent remainder of the frame, none of them missing |
| `Output.WriteKeeps` | src/system/reactor/output.cpp:144-210 | a response is admitted whole, its rest reserved on the shared counter, or refused, within both caps |
| `Output.PushKeeps` | src/system/reactor/output.cpp:205-214 | the reserved rest joins the queue and the connection's counter, whatever other connections did meanwhile |
| `Output.FlushOneKeeps` | src/system/reactor/output.cpp:239-261 | one flush round moves bytes from the queue to the wire in order and off the connection's counter |
| `Output.SettleKeeps` | src/system/reactor/output.cpp:244-249 | and then off the shared one |
| `Output.CloseKeeps` | src/system/reactor/dispatch.cpp:131-143 | shutting the socket down and then discarding the queue keeps counters and order |
| `Output.CountersExact` | src/system/reactor/output.cpp:42-56 | on every run, streams and closes included, with the shared counter changed apart from the queues, each connection's counter is its true remainder, the shared counter is what the connections have queued or in hand, both within their caps; with nothing in hand it is the sum of all remainders |
| `Output.StreamOrderedIff` | src/system/reactor/stream.cpp:168-196 | a stream frame written past the queue keeps the order exactly when there is no remainder to overtake |
| `Output.OutputRefinement` | src/system/reactor/output.cpp:144-270 | at every point of a run of all connections, wire bytes followed by queued remainders are the admitted output in order, up to each connection's first torn write, if and only if no stream frame is written while a remainder is queued or being queued |
| `Output.ResponsesNeverJump` | src/system/reactor/output.cpp:144-270 | runs without streams always qualify |
| `Output.StreamOvertakesRemainder` | src/system/reactor/dispatch.cpp:266-273 | for every per-connection cap the server accepts, a run on which a stream's status frame lands in the middle of a response |
| `Output.OutputTotal.Reserve` | src/system/reactor/output.cpp:42-56 | the compare-exchange loop adds to the value then present, exactly if it fits, whatever other threads store |
| `Output.ConnectionOutput.SendOnce` | src/system/reactor/output.cpp:75-86 | at most one nonblocking send of the remainder |
| `Output.ConnectionOutput.Respond` | src/system/reactor/output.cpp:167-222 | the in-place fast path and queueing compute the abstract write |
| `Output.ConnectionOutput.Flush` | src/system/reactor/output.cpp:231-264 | a bounded drain keeps wire plus queue unchanged as a whole and stops only for the stated reasons |
| `Output.ConnectionOutput.WriteStream` | src/system/reactor/stream.cpp:168-196 | a stream frame goes to the wire as far as the write gets, past the queue |
| `Output.ConnectionOutput.CloseOutput` | src/system/reactor/dispatch.cpp:136-143 | clears the queue and gives its bytes back |
| `Scheduler.EveryRun` | src/system/reactor/workers.cpp:552-627 | in every reachable state the incremental counters equal recomputation, no domain runs two jobs, workers suffice for the busy domains, fates and order hold |
| `Scheduler.BookkeepingExact` | src/system/reactor/workers.cpp:709-731 | each domain's count is the number of its queue entries, the active and busy counts are the true numbers of domains, and before the stop there are workers for every busy domain up to the cap |
| `Scheduler.WorkConserving` | src/system/reactor/workers.cpp:592-627 | a queued job whose domain is idle, with fewer active domains than the cap, always finds a worker that is not executing and can start at once |
| `Scheduler.ActiveWithinCap` | src/system/reactor/workers.cpp:575-590 | active domains never exceed the cap and run one job each |
| `Scheduler.OneFate` | src/system/reactor/workers.cpp:697-731 | every admitted job is in exactly one of queued, executing, finished and superseded |
| `Scheduler.StartsInAdmissionOrder` | src/system/reactor/workers.cpp:765-785 | the jobs of a domain that have started, then those that wait, are in admission order exactly the admitted ones that were not superseded |
| `Scheduler.DrainedOnStop` | src/system/reactor/workers.cpp:772-778 | when the workers have returned, every admitted job is finished or superseded |
| `Scheduler.SerializedExecutor.EnsureWorkers` | src/system/reactor/workers.cpp:601-615 | grows the thread count to the demand, or as far as creation succeeds |
| `Scheduler.SerializedExecutor.EraseReplaced` | src/system/reactor/workers.cpp:714-730 | the in-place erase leaves exactly the non-matching older entries in order before the new job |
| `Scheduler.SerializedExecutor.Insert` | src/system/reactor/workers.cpp:709-731 | insertion with replacement and its counting |
| `Scheduler.SerializedExecutor.Admit` | src/system/reactor/workers.cpp:661-752 | admission with its four outcomes equals the abstract step, failures included |
| `Scheduler.SerializedExecutor.TakeJob` | src/system/reactor/workers.cpp:765-785 | takes the first job whose domain is idle |
| `Scheduler.SerializedExecutor.Release` | src/system/reactor/workers.cpp:581-590 | frees the domain and keeps both domain counts right |
| `Session.NoStrandedCaller` | src/system/runtime/session_engine.cpp:108-126 | once the failing reader has scanned the shards every call still listed is done, for any interleaving with callers |
| `Session.Correlation` | src/user/cpp/core/session.cpp:106-128 | calls in flight have distinct nonzero ids, a slot is filled at most once, and a completed call holds exactly the frame that carried its id |
| `Session.Accounting` | src/user/cpp/core/session.cpp:217-231 | started = completed + timed out + failed + in flight, in every shard of every reachable state |
| `Session.CallStepKeeps` | src/user/cpp/core/session.cpp:92-243 | every step of a caller keeps tables, slots, sweep and counters, a failed cancellation write included, which breaks the session while its call stays in flight |
| `Session.Allocate` | src/user/cpp/core/session.cpp:106-128 | allocation without interference ends within the in-flight count plus two probes despite the 32-bit wrap, with a fresh nonzero id in its home shard |
| `Session.InflightShard.Insert` | src/system/runtime/session_engine.hpp:115-128 | a recycled node leaves no trace of its former key or slot |
| `Session.InflightShard.Erase` | src/system/runtime/session_engine.hpp:130-136 | unlists the id and caches its emptied node while there is room |
| `Ring.RingSafety` | experiments/0.6/easy_uds_shm_process_probe.cpp:297-349 | for every slot count and interleaving the producer never writes a held or unread slot and items are delivered once each in publish order |
| `Ring.NoLostWakeup` | experiments/0.6/easy_uds_shm_process_probe.cpp:306-344 | a consumer blocked on an empty event counter with an item unread means the producer is between publishing and signalling it; with the producer idle, an empty ring |
| `Ring.BlockedReachesItem` | experiments/0.6/easy_uds_shm_process_probe.cpp:306-344 | the producer finishing its current publish is enough for a blocked consumer to reach the item |
| `Routes.AnswerUnique` | src/system/reactor/dispatch.cpp:26-41 | exact match, else longest prefix, leaves one answer |
| `Routes.BuildRepresents` | src/system/runtime/server_registration.cpp:131-153 | after any registrations the prefix list holds exactly the registered prefixes, longest first |
| `Routes.LookupCorrect` | src/system/reactor/dispatch.cpp:26-41 | after any registrations and for any way the sort orders equal lengths, lookup gives that answer |
| `Routes.OrderIrrelevant` | src/system/runtime/server_registration.cpp:70-86 | reordering distinct registrations changes no lookup |
| `Routes.Registrar.Add` | src/system/runtime/server_registration.cpp:131-153 | publishes the changed copy, or nothing when the registration is refused |
| `Routes.Registrar.Lookup` | src/system/reactor/dispatch.cpp:26-41 | the scan of one snapshot computes the lookup function |

## Left out

- Platform calls: sockets, readiness sets, ancillary messages and pathname locks are an environment that answers with any legal count, would-block or failure.
- Windows handle transfer and peer identity: foreign calls only; a request that carries a handle is rejected as on other platforms.
- Real time: deadlines, inactivity timeouts and the clock are arbitrary failures or closings of the environment.
- Weak memory orders and condition variables: each atomic operation or locked section is one step of a sequentially consistent machine.
- Wakeup coalescing of the reactor, writable interest after a rearm and progress on bytes left pending after a stream: the code does not keep the natural invariants.
- Server start and stop, stale-socket removal, retries, error classification, the C ABI, the Python binding, the simple API and benchmarks: easy next to the rest.
- `write_exact`: the one-part case of the gathered write.
- Stream handler lookup: the same code as request handler lookup on a second pair of tables.
- Handlers and responses: what a handler returns is an arbitrary byte string; status checks and error bodies are not modelled.
- Ring.RingSafety: sequence numbers are unbounded; the program's round count keeps its 64-bit counters far from wrapping.
- Session.Allocate: states the probe bound for a run without interference; under interference ids stay distinct and nonzero by Session.Correlation, with no bound on probes.
- Budget.StepKeeps: releases the reactor makes itself are steps any thread could make; the three additions that charge a queued request without an aggregate budget are one step, since its queue is locked meanwhile, while those a continuation worker makes under no lock are three.
- Budget.ReservationReleasedTwice: counters are integers; a count below zero is read by the code's tests as its unsigned 64-bit value.
- Budget.CloseKeeps: a close reads and clears a parser's reservation in one step; the reactor writes that field without the lock that guards it, which the language leaves undefined.
- Frames.HandOffsKeepFrames: covers peers that pass no descriptors, and reads each stretch between two streams on its own; descriptors are the matter of Parser.SplitsAgreeIffTimely, stream bodies of Streams.UploadRoundTrip.
- Reactor.ConnectionParser.Consume: arrival times and deadlines of frames are not tracked.
