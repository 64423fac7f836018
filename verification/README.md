# A verified model of the key-value server

This project models a concurrent in-memory key-value server that speaks a subset of RESP2: one
event loop, a bounded work queue, a pool of workers, a sharded store with expiring keys, and a
bounded completion queue back to the loop. The model is written in Dafny 4.11 and every claim
below is a proved contract.

Verify everything with `dafny verify dfyconfig.toml`.

## How the model is laid out

| part | files |
|---|---|
| bytes, numerals | `Bytes.dfy` |
| request parser, its grammar, its behaviour on cut input | `Parser.dfy`, `FrameGrammar.dfy`, `CommandMeaning.dfy`, `ParserStability.dfy`, `Framing.dfy`, `RequestCodec.dfy` |
| reply encoders and the client's reader | `Replies.dfy` |
| response sequencer, bounded queue | `Sequencing.dfy`, `Queueing.dfy` |
| shards, expiration, linearizability | `Sharding.dfy`, `Storage.dfy`, `Expiration.dfy`, `Linearization.dfy`, `ShardedStore.dfy`, `Store.dfy`, `Dispatcher.dfy`, `MapLaws.dfy` |
| the loop's objects and methods | `Loop.dfy`, `EventLoop.dfy`, `WorkerPool.dfy` |
| the pipeline as a step machine, and what every run keeps | `Pipeline.dfy`, `PipelineSafety.dfy`, `PipelineSteps.dfy`, `PipelineGuarantees.dfy`, `LoopLaws.dfy`, `LoopRefinement.dfy`, `Progress.dfy`, `Shutdown.dfy` |
| concrete runs | `Scenarios.dfy`, `ShutdownScenarios.dfy`, `Answering.dfy` |
| pipeline and store together | `System.dfy`, `ProgramOrder.dfy` |

Three layers carry the result. Classes and loops (`EventLoop`, `Store`, `WorkerPool`, `Queueing`,
`Sequencing`, `Storage`) follow the code and are proved against functions on plain values. Two
step machines (`Pipeline`, `Linearization`) use the same functions as their atomic steps and range
over all interleavings; `LoopRefinement` shows that machine steps, with worker steps in between,
add up to what the loop methods compute. `System` couples the two machines at the workers.

## Modelling decisions

- Each locked section is one atomic step; each wait on a condition variable is an enabling
  condition. Sockets, epoll, clocks and the scheduler are free choices of the environment.
- Time is an unbounded number of clock ticks (nanoseconds); the clock never goes backwards.
  Counters (`uint64_t` generations and sequence numbers) do not wrap. Integers that the parser
  reads are 64-bit and the overflow guard is proved exact.
- A byte is a Dafny `char`; nothing depends on values above 255.
- The hash is any fixed function of the key. The expiration heap is a multiset whose top is any
  candidate with the least deadline.
- What other threads do meanwhile is a parameter or a free choice: the shard between the two
  sections of a read and before each lock of a sweep (`gap`, `gaps`), the completion queue while a
  worker waits for room (`others`, `drained`), the work queue between two pushes of the parse loop,
  and completions pushed while the loop drains. What a socket does is one too: the bytes that can be
  read (`arriving`, `ends`) and how many it takes before it blocks or fails (`socket`); an interrupted
  call is one that finds nothing more to read or no more room.
- `Inv` of `Pipeline`, `Linearization` and `System` hold in every state reachable from `Init`
  (`RunInv` in each), so lemmas that require `Inv` speak about all reachable states.

## Where the code and its documentation differ

- A length header of exactly 20 characters is accepted when it arrives whole and rejected when the
  input ends between its CR and LF (`src/protocol/parser.cpp:41` against `:47`). Prefix stability
  and chunk independence are therefore false in general; both are proved with the exact condition,
  and `TwentyZeros` is a concrete input.
- `include/kvstore/protocol/parser.hpp:44` says that error messages never contain client bytes, and
  `docs/PROTOCOL.md:69` gives a fixed text for unknown commands. The code echoes the command name
  (`src/protocol/parser.cpp:282-283`); a CRLF in it breaks the framing of that reply.
  `ErrorTextFramed`, `StreamsDecodeUniquely` and `ClientDecodesItsReplies` give the exact
  condition on what the client sent, and `EchoExample` is a concrete input.
- `docs/PROTOCOL.md:52-53` says that the seconds of EXPIRE fit the clock; `src/storage/store.cpp:144`
  does not check it. With unbounded time the addition is exact.
- Replies are ordered per connection, but requests of one connection may execute out of order.
  `FrameOrderExactly` says for which configurations they never do, and `GetMissesItsSet` is a run in
  which a client sends SET and then GET of one key and is answered OK and null.
- The completion queue is never closed, so at shutdown workers can wait for room forever.
  `EveryShutdownDrains` gives the exact condition on the state at the close, and
  `SomeShutdownSticks` a run for every configuration that accepts commands.

## Model

| member | source | states |
|---|---|---|
| System.EndToEnd | src/net/event_loop.cpp:200-341 | in every run of loop, workers, store and sweeper, what was appended to a connection's output is the in-order concatenation of one reply for each of its first frames, each that frame's own (protocol error, refusal, or the answer of the one logged execution of that command), all logged answers are those of one sequential execution on a simple map, each connection's requests are accepted in frame order, and a refused frame is never executed |
| System.OneWorkerIsSequential | src/worker/worker_pool.cpp:32-51 | with one worker the k-th executed command is the k-th accepted one, its reply is what the simple map says after the commands before it, at instants that never go backwards, and each connection's commands are accepted in frame order, so each connection sees its own program order |
| ProgramOrder.FrameOrderExactly | src/worker/worker_pool.cpp:32-51 | every run executes each connection's commands in frame order if and only if there is at most one worker, at most one request in flight per connection, no room in the work queue, or no room for a 14-byte command in the input buffer |
| ProgramOrder.SomeRunReorders | src/worker/worker_pool.cpp:32-51 | otherwise, for any two commands that fit, a run from the start executes and answers the later one of a connection first |
| ProgramOrder.GetMissesItsSet | src/worker/worker_pool.cpp:32-51 | a run from the start with two workers in which one connection sends SET k v and GET k and the GET is answered with the null reply |
| ProgramOrder.OrderedStep | src/net/event_loop.cpp:215-222 | with one request in flight per connection every step keeps execution in frame order, for any number of workers |
| System.ClientDecodesItsReplies | benchmarks/client/kv_bench.cpp:132-167 | in every run, decoding the output stream gives back exactly one reply per frame in order if and only if none of its answered frames names an unknown command with a CRLF in it |
| System.CleanIffEchoFree | src/protocol/parser.cpp:282-283 | the errors among the first n frames of a byte stream are CRLF-free if and only if none of those frames names an unknown command with a CRLF in it |
| System.StepInv | src/worker/worker_pool.cpp:40-46 | every step of the coupled machine keeps both invariants and the link between a worker's request and its store thread |
| PipelineGuarantees.RepliesInOrder | src/net/event_loop.cpp:200-341 | in every interleaving with closes and descriptor reuse, replies are appended in frame order, none duplicated, skipped or from another client; a worker's reply is the single dispatch recorded for that request; the bytes sent are a prefix |
| PipelineGuarantees.PipelineKeepsItsPromises | src/net/event_loop.cpp:83-90 | at every point of every run: each outstanding number is in exactly one of the queues, workers' hands and pending map; no wake-up is lost; at rest no complete frame below the in-flight cap is left unparsed; queues stay within capacity and are FIFO |
| PipelineGuarantees.StepInAcceptOrder | src/worker/worker_pool.cpp:32-51 | with one worker every step keeps dispatch order equal to acceptance order |
| PipelineSteps.StepInv | src/net/event_loop.cpp:200-357 | every step of loop, workers and shutdown keeps conservation, sequencing, history, queue, wake-up and no-stuck-frame invariants |
| Progress.NoRequestIsLeftBehind | src/net/event_loop.cpp:213-341 | in every run, an outstanding request leaves some step of the server enabled, and when none is enabled every open connection has the replies to all its frames |
| Progress.InternalDecreases | src/net/event_loop.cpp:213-341 | every step the server takes on its own lowers one measure |
| Progress.InternalRunsAreFinite | src/net/event_loop.cpp:213-341 | a run of such steps is no longer than the measure at its start |
| Progress.QuietMeansAnswered | src/net/event_loop.cpp:331-339 | in a reachable state with no enabled internal step, nothing is in flight or pending and buffered input is an unfinished frame |
| Progress.OutstandingMeansEnabled | src/worker/worker_pool.cpp:32-51 | in a reachable running state a request in flight leaves an internal step enabled |
| Shutdown.ShutdownDrains | src/worker/worker_pool.cpp:23-51 | after close with nobody draining, and stop requested at any time, the workers make finitely many moves, and when none can move all have exited, with every accepted item dispatched exactly once, if and only if queued, held and waiting items fit the completion queue |
| Shutdown.EveryShutdownDrains | src/worker/worker_pool.cpp:23-51 | the same for every shutdown, stop requests included, of a server that ran in any way before: exit of all workers, and one dispatch for each accepted item, if and only if what is in the pipeline fits the completion queue |
| ShutdownScenarios.SomeShutdownSticks | src/worker/worker_pool.cpp:46 | in every configuration that accepts commands some run from the start ends in a shutdown with a worker waiting for room for ever |
| ShutdownScenarios.ShutdownsEndExactly | src/worker/worker_pool.cpp:23-51 | every shutdown ends with all workers gone if and only if the configuration accepts no command at all |
| Shutdown.RunToTheEnd | src/worker/worker_pool.cpp:32-51 | from a closed work queue the workers can be run until none can move |
| Shutdown.EveryRunBalanced | src/worker/worker_pool.cpp:32-51 | in every run each accepted request is queued, held by a worker, or dispatched once |
| Shutdown.ExitNeedsEmptyQueue | include/kvstore/worker/bounded_queue.hpp:100-115 | a worker leaves on stop or close only when nothing is queued, and holds nothing then |
| LoopRefinement.ParseRunIsTurns | src/net/event_loop.cpp:213-282 | any machine run of parse steps with worker steps in between leaves connections, accepted items and control where the parse loop's turns say |
| LoopRefinement.DrainTurnIsDrainOne | src/net/event_loop.cpp:306-341 | drain, parse, worker and flush steps of one completion give exactly the connections the drain loop's body computes |
| LoopRefinement.ReadTurnIsReadOne | src/net/event_loop.cpp:169-178 | received bytes and the parse and worker steps after them give exactly the connection one iteration of the read loop computes |
| EventLoop.BoundedBuffer.Append | src/net/bounded_buffer.cpp:13-19 | all or nothing: appended if and only if it fits the capacity |
| EventLoop.BoundedBuffer.Consume | src/net/bounded_buffer.cpp:21-27 | drops that many bytes, or everything if there are fewer |
| EventLoop.ConnectionRegistry.Add | src/net/connection_registry.cpp:7-19 | the descriptor gets a new empty connection with a generation never used before; all others are unchanged |
| EventLoop.ConnectionRegistry.Close | src/net/connection_registry.cpp:21-28 | removes the connection if and only if descriptor and generation match |
| EventLoop.ConnectionRegistry.Find | src/net/connection_registry.cpp:30-36 | finds the connection if and only if descriptor and generation match |
| EventLoop.ConnectionRegistry.FindCurrent | src/net/connection_registry.cpp:38-41 | finds whatever connection has the descriptor, of any generation |
| EventLoop.PushResponses | src/net/event_loop.cpp:200-211 | succeeds if and only if all responses together fit the output, and then all are appended in order; otherwise those before the first that does not fit are |
| LoopLaws.ParseTurnExactly | src/net/event_loop.cpp:214-281 | in any reachable state: a command is queued if the queue is open and has room, refused as shutting down if closed and as busy if full, a broken frame is answered with its text; the connection is closed exactly if the framing broke or the released replies do not fit |
| LoopLaws.DrainTurnExactly | src/net/event_loop.cpp:306-329 | in any reachable state: a stale completion changes no connection; any other is released into the output, and closes the connection exactly if it does not fit |
| LoopLaws.CloseFlushes | src/net/event_loop.cpp:343-357 | what the socket takes when a connection is closed is the next part of what was appended to its output |
| LoopLaws.EveryRunWithinLimits | src/net/event_loop.cpp:215-222 | in every run each open connection keeps within its input, output and in-flight limits |
| Answering.CommandIsAnswered | src/net/event_loop.cpp:213-341 | in every configuration that serves commands, a run from the start in which a client sends any command that fits and its socket receives the simple map's reply, the connection staying open |
| Answering.PingIsAnswered | src/command/dispatcher.cpp:11 | in particular a PING is answered with `+PONG` and its line end |
| Answering.BrokenInputIsTold | src/net/event_loop.cpp:271-280 | a run in which a client that sends no request receives the error text and is disconnected |
| EventLoop.Submit | src/net/event_loop.cpp:230-259 | a command is consumed, numbered and queued, or answered in sequence as busy or closing |
| EventLoop.Reject | src/net/event_loop.cpp:261-280 | a protocol error is answered in sequence; only a recoverable one is consumed and lets the loop go on |
| EventLoop.ProcessInput | src/net/event_loop.cpp:213-282 | the parse loop ends, does what its turns do for whatever the queue said, adds exactly those items to the work queue, and if it keeps the connection leaves no complete frame below the cap |
| EventLoop.ReadLoop | src/net/event_loop.cpp:169-190 | everything that can be read is parsed in order, unless parsing closes the connection or the input buffer is full; exactly the items it holds are queued; a connection that was settled is left settled |
| EventLoop.HandleReadable | src/net/event_loop.cpp:162-198 | only the connection with that descriptor changes, and as its reads and write say; exactly the items parsed from those reads are queued |
| EventLoop.HandleWritable | src/net/event_loop.cpp:284-304 | exactly what the socket takes leaves the output buffer, in order; the connection closes exactly if the socket fails with bytes left |
| EventLoop.CloseConnection | src/net/event_loop.cpp:343-357 | removes the connection with that generation and no other, after one write of its output as far as the socket takes it |
| EventLoop.HandleCompletion | src/net/event_loop.cpp:313-339 | a stale completion changes nothing; otherwise exactly its connection is served, and exactly the items its resumed parsing holds are queued |
| EventLoop.DrainCompletions | src/net/event_loop.cpp:306-341 | handles in order everything that was queued or that workers pushed meanwhile, leaves the queue empty, and queues exactly the items the resumed parsing holds |
| EventLoop.StillAwaited | src/net/event_loop.cpp:313-339 | handling one completion leaves every other awaited one awaited |
| EventLoop.TurnsOutstanding | src/net/event_loop.cpp:213-282 | parsing never settles a request that a worker still has to answer |
| WorkerPool.WorkerTurn | src/worker/worker_pool.cpp:33-50 | a worker leaves only with nothing queued or the completion queue closed; otherwise it executes the front item, waits for room, and queues the reply under that item's own tag |
| Queueing.BoundedQueue.SetOnPush | include/kvstore/worker/bounded_queue.hpp:47-50 | registers or clears the callback and touches nothing else |
| Queueing.BoundedQueue.Push | include/kvstore/worker/bounded_queue.hpp:56-72 | once its wait is over: accepted at the back, or refused because closed; the callback runs exactly on acceptance |
| Queueing.BoundedQueue.TryPush | include/kvstore/worker/bounded_queue.hpp:77-95 | closed is reported before full; otherwise the item is at the back |
| Queueing.BoundedQueue.Pop | include/kvstore/worker/bounded_queue.hpp:100-115 | an item is returned whenever one is queued, closed or stopping or not |
| Queueing.BoundedQueue.TryPop | include/kvstore/worker/bounded_queue.hpp:119-129 | the front item, or none when empty |
| Queueing.BoundedQueue.Close | include/kvstore/worker/bounded_queue.hpp:134-141 | closes without touching queued items |
| Queueing.EveryHistoryIsFifo | include/kvstore/worker/bounded_queue.hpp:56-141 | under any interleaving popped items followed by held ones are the accepted ones in order, never over capacity, none accepted after close |
| Sequencing.ResponseSequencer.NextRequestSequence | include/kvstore/net/response_sequencer.hpp:18 | hands out the next number |
| Sequencing.ResponseSequencer.InFlightCount | include/kvstore/net/response_sequencer.hpp:31-33 | the numbers handed out and not yet released, never negative |
| Sequencing.ResponseSequencer.RecordResponse | src/net/response_sequencer.cpp:7-18 | the loop releases exactly the run that the recording function defines |
| Sequencing.RecordRun | src/net/response_sequencer.cpp:7-18 | recording an outstanding response keeps the sequencer valid, releases the maximal consecutive run in order, and settles that number and no other |
| Sequencing.AnyOrder | src/net/response_sequencer.cpp:7-18 | for any order of answers the released stream is the request-order stream, and once all are answered nothing is pending |
| Linearization.EveryRunLinearizes | src/storage/store.cpp:30-182 | in every run of any number of threads, two-phase reads, sweeps and ticks, every answer is the simple map's, in one shared order, at an instant between the operation's clock reading and its lock, with lock times that never decrease along that order |
| Linearization.RealTimeOrder | src/storage/store.cpp:30-182 | an operation that had its answer before another was called comes before it in that order |
| Linearization.StepInv | src/storage/store.cpp:30-182 | every section of every thread and of the sweeper keeps the refinement of the simple map |
| Linearization.VisibleNowAndLater | src/storage/store.cpp:30-52 | in a reachable state what is live now or at any later time is what the simple map shows, with the same value |
| Linearization.CleanupIsInvisible | src/storage/store.cpp:152-182 | lazy erase and sweep steps never change what is live now or later |
| Linearization.LockRefines | src/storage/store.cpp:75-150 | one locked section of any command answers as the simple map does at an instant within the operation and keeps the refinement |
| Expiration.EveryRunSound | src/storage/store.cpp:132-176 | every sequence of operations on a shard keeps each entry and candidate traceable to its write and each entry with a deadline covered by exactly one candidate |
| Expiration.GenerationIdentifiesWrite | src/storage/store.cpp:161-175 | equal generations imply equal key and deadline, and name the EXPIRE that wrote both |
| Expiration.SweepErasesOnlyItsOwn | src/storage/store.cpp:161-175 | a sweep erases an entry only if it is due and was last written by the EXPIRE that pushed the popped candidate |
| Expiration.SweepProgress | src/storage/store.cpp:160-175 | a sweep of budget m leaves exactly max(0, due - m) candidates due |
| Expiration.SweepsFinish | src/storage/store.cpp:152-176 | after k undisturbed sweeps of budget m none is due if and only if k * m covers those that were, and then no entry is expired |
| ShardedStore.EveryRunPartitionedAndCovered | src/storage/store.cpp:70-182 | in every concurrent run each key in a shard's map or heap hashes to that shard, and every shard keeps its heap complete |
| ShardedStore.DisjointUnion | src/storage/store.cpp:70-73 | a key is in at most one shard, the one it is looked up in |
| Sharding.BitCeilIsLeast | src/storage/store.cpp:15-23 | the shard count is the least power of two not below the request |
| Sharding.MaskIsMod | src/storage/store.cpp:70-73 | masking with a power of two less one is the remainder |
| Sharding.ShardFor | src/storage/store.cpp:70-73 | the masked hash is the hash modulo the count, a valid index |
| Storage.ShardCell.Set | src/storage/store.cpp:75-82 | new value, no deadline, next generation; other keys unchanged |
| Storage.ShardCell.Del | src/storage/store.cpp:119-130 | the entry goes; the answer says whether it was live |
| Storage.ShardCell.Expire | src/storage/store.cpp:132-150 | a live entry gets deadline, generation and candidate; an expired one is erased and reported missing |
| Storage.ShardCell.ReadLive | src/storage/store.cpp:30-52 | the answer is fixed in the shared section; the exclusive one erases only what is still expired, whatever happened in between |
| Storage.ShardCell.Sweep | src/storage/store.cpp:158-175 | pops due candidates soonest first up to the budget, erases exactly the entries they match, and counts them |
| Storage.SweptOne | src/storage/store.cpp:161-175 | popping one more soonest due candidate extends a sweep |
| Store.Store.Open | src/storage/store.cpp:58-64 | a zero request is refused; otherwise the least covering power of two of empty, distinct shards |
| Store.Store.Get | src/storage/store.cpp:84-91 | the value if the key's own shard has a live entry, none otherwise; no other shard touched |
| Store.Store.Exists | src/storage/store.cpp:93-98 | whether the key's own shard has a live entry |
| Store.Store.Ttl | src/storage/store.cpp:100-117 | missing, no deadline, or the number of whole seconds between now and the deadline |
| Store.Store.Del | src/storage/store.cpp:119-130 | the deletion section of the key's own shard |
| Store.Store.Expire | src/storage/store.cpp:132-150 | the expire section of the key's own shard |
| Store.Store.Set | src/storage/store.cpp:75-82 | the set section of the key's own shard |
| Store.Store.SweepExpired | src/storage/store.cpp:152-182 | every shard, as other threads left it at its lock, ends as one bounded sweep at the same clock reading leaves it; the result is the number of entries erased in all |
| Store.Dispatch | src/command/dispatcher.cpp:11-74 | the reply bytes of each command, spelled out, from what is live in the key's own shard |
| MapLaws.WireBytes | src/command/dispatcher.cpp:11-74 | for every map, command and instant the bytes sent back: PONG, OK, the stored value or null, 1 or 0 by visibility, -2, -1 or the whole seconds left |
| MapLaws.SectionBytes | src/storage/store.cpp:75-150 | the same for the locked section that decides the answer, from the live entry |
| MapLaws.TtlLaw | src/storage/store.cpp:100-117 | TTL answers n with n seconds fitting into the time left and n + 1 not |
| MapLaws.TtlCountsDown | src/storage/store.cpp:100-150 | after EXPIRE of s seconds TTL counts the whole seconds left of them, s itself at once, and says missing when they are over |
| MapLaws.SetLaw | src/storage/store.cpp:75-82 | after SET the value is visible for ever and has no deadline |
| MapLaws.DelLaw | src/storage/store.cpp:119-130 | after DEL the key is invisible |
| MapLaws.ExpireLaw | src/storage/store.cpp:132-150 | after EXPIRE a visible key keeps its value and is visible for exactly that many seconds, an invisible one stays so |
| MapLaws.OtherKeysKept | src/storage/store.cpp:75-150 | no command touches another key |
| MapLaws.ReadLaw | src/storage/store.cpp:84-117 | GET, EXISTS, TTL and PING change nothing in the simple map |
| MapLaws.LiveIsKept | src/storage/store.cpp:46-50 | the exclusive section of a read erases at most its own key, and only if that entry is expired |
| MapLaws.ExpiredIsErased | src/storage/store.cpp:30-52 | a command that meets an expired entry leaves none stored, and a read leaves none that is still expired after whatever other threads did |
| Dispatcher.ReplyDistinguishes | src/command/dispatcher.cpp:41-52 | different answers to one command never look the same on the wire |
| Dispatcher.ReplyFramed | src/command/dispatcher.cpp:11-74 | replies built from store answers never break the framing |
| FrameGrammar.WaitsExactlyOnUnfinished | src/protocol/parser.cpp:101-171 | the parser asks for more exactly on the beginnings of frames with nothing wrong in them, written as text |
| FrameGrammar.RefusesExactly | src/protocol/parser.cpp:101-171 | the parser gives up with a particular error exactly on the inputs that error describes, for all nine errors |
| FrameGrammar.AcceptsExactlyTheGrammar | src/protocol/parser.cpp:101-171 | a frame with given arguments ends at n if and only if the first n bytes are that frame's text in the grammar |
| CommandMeaning.ValidExactlyWhenSpelled | src/protocol/parser.cpp:197-284 | an argument list is a command exactly if it spells it, in any case of the name's letters, within the limits on key, value and seconds |
| CommandMeaning.AnyCaseParses | src/protocol/parser.cpp:197-202 | a command whose name is written in any mixture of cases parses, whatever follows, to that command |
| CommandMeaning.CommandRoundTrip | src/protocol/parser.cpp:288-311 | printing any acceptable command and parsing it, whatever follows, gives it back with its length |
| CommandMeaning.WhyRefused | src/protocol/parser.cpp:174-284 | each refusal has exactly one reason and that reason's text: name, then count, then key size, value size and seconds |
| ParserStability.PrefixStability | src/protocol/parser.cpp:101-171 | once answered, more bytes never change the answer if and only if the input does not end between CR and LF of a 20-character header |
| ParserStability.TwentyZeros | src/protocol/parser.cpp:41-50 | a concrete input whose answer changes when its last byte arrives |
| Framing.ChunkIndependence | src/net/event_loop.cpp:213-282 | every way of cutting a stream into reads gives the events of the whole stream if and only if no frame of it is exposed: a 20-character array header, or a 20-character bulk header with no longer one after it |
| Framing.NarrowStream | src/protocol/parser.cpp:38-51 | a stream without 20-character headers has no exposed frame |
| Framing.ConsumesFrames | src/net/event_loop.cpp:224-233 | frames already consumed keep their meaning whatever arrives behind them |
| RequestCodec.EncodeCommand | benchmarks/client/kv_bench.cpp:108-116 | the printing loop computes the frame encoding |
| RequestCodec.RoundTrip | src/protocol/parser.cpp:101-171 | parsing a printed request of up to 3 fields of up to 1 MiB, whatever follows, gives back the fields and the length, and every strict prefix needs more data |
| RequestCodec.CommandSize | src/protocol/parser.cpp:101-284 | a frame accepted as a command consumes at most 1,049,192 bytes, below the 2 MiB default input buffer |
| CommandMeaning.SmallestCommand | src/protocol/parser.cpp:101-284 | no command takes fewer than the 14 bytes of a PING |
| RequestCodec.CommandSizeAttained | src/protocol/parser.cpp:254-270 | some accepted command is exactly that long |
| Parser.ParseNonnegativeInteger | src/protocol/parser.cpp:55-71 | the 64-bit digit loop succeeds exactly on nonempty digit strings of value at most 2^63-1 and returns that value |
| Parser.ReadMultibulkFrame | src/protocol/parser.cpp:101-171 | the framing loop with its moving offset computes the reading that the grammar characterizes: accepted, unfinished or refused |
| Parser.ToUpperAscii | src/protocol/parser.cpp:73-81 | each letter from a to z becomes the character 32 below it, every other character stays |
| Replies.DecodeEncode | src/protocol/serializer.cpp:5-41 | a framed reply, whatever follows, decodes to itself and its length |
| Replies.StreamsDecodeUniquely | src/protocol/serializer.cpp:5-41 | a concatenation of replies decodes back to the same list if and only if every one-line text is CRLF-free |
| Replies.UnrecognizedExactly | benchmarks/client/kv_bench.cpp:144-166 | a buffer is unrecognized exactly if its first byte is none of the four type bytes |
| Replies.Receive | benchmarks/client/kv_bench.cpp:132-167 | the receive loop stops at the first verdict on the bytes so far |
| Replies.CompleteExactlyWhenWhole | benchmarks/client/kv_bench.cpp:144-166 | for every reply: on each prefix of it the client reports completion exactly when it is whole, if and only if a one-line text is CRLF-free and a bulk length fits a `long` |
| Replies.ErrorTextFramed | src/protocol/parser.cpp:282-283 | an error text is CRLF-free if and only if it does not echo an unknown name containing a CRLF |
| Replies.EchoExample | src/protocol/parser.cpp:282-283 | a concrete command whose error reply does not decode to itself |

## Left out

- The listener, sockets, epoll registration, `update_epoll_interest` and signal handling: system calls, replaced by free choices of the environment.
- Logging, command-line options and process start-up: only easy claims.
- The sweeper thread's timer and the clock wrapper: a sweep may begin at any time with any budget, and the clock is any nondecreasing value.
- Mutexes, condition variables and memory ordering: locked sections are atomic and waits are enabling conditions.
- Several events for one descriptor within a single epoll batch: `find_current` ignores generations (`include/kvstore/net/connection_registry.hpp:35-41`), and no claim is made about a hang-up event that refers to a descriptor reused earlier in the same batch; the model closes whichever connection has the descriptor.
- Wrap-around of 64-bit counters and overflow of `now + seconds`: counters and time are unbounded.
- Fairness and real time: the model proves that steps are enabled and that internal runs are finite, not that the scheduler takes them.
- Benchmark timing, percentiles and scripts: measurement only.
- The endless loop around a worker turn: the machine's pop, dispatch, push and exit steps stand for it.
- EventLoop.DrainCompletions: workers push any finite number of times while the loop runs, so that it ends; what they push answers outstanding requests under distinct tags, which the machine's invariant guarantees.
- Storage.ShardCell.Set: the code reads no clock for SET; the machine gives SET a clock reading like the other commands, which only adds runs.
