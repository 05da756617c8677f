# A verified model of the micro-batching gateway

The system collects HTTP requests per batch key, cuts them into batches, splits batches that exceed
the payload limit, invokes Lambda through a bounded job queue, and hands the answers of one response
(one JSON document, or one NDJSON byte stream with interleaved records) back to the waiting clients.
On the Lambda side an adapter library or a Runtime API proxy runs the handlers of one batch
concurrently and writes exactly that record language. The project models all three parts, proves each
of them against a specification, and composes them: what a handler returned is what its client sees,
over every schedule and every cutting of the bytes (`WholeSystem`: from the user's handlers to the HTTP
responses, over every run of the gateway).

## How it is laid out

| module | models |
|---|---|
| `Wire` | records, responses, and the pure helpers that turn one into the other |
| `Promise` | what a client can be promised of a status, headers, cookies and a body, in terms of these and the libraries alone |
| `Demux` | the per-client automaton, the whole-stream run, and the `Dispatcher` object with the map of pending senders |
| `ClientStory` | what any list of records comes to for its client, told without the automaton |
| `Framing` | lines of a byte stream, as a whole and in pieces; which lines bytes write |
| `StreamDispatch` | `dispatch_response_stream`: buffer, inner loop, tail, every exit |
| `Select`, `Adapter` | the Rust adapter: `ConcurrentSelect` and the records of one item |
| `EndToEnd`, `WholeResponses` | producers, framer and demultiplexer composed |
| `Spoiled` | what clients have seen of a stream that one bad answer spoiled or that was cut short |
| `Buffered` | `dispatch_buffered` and its comparison with a stream of whole responses |
| `Planning` | splitting a batch into invocations |
| `Proxy`, `ProxyRuns`, `ProxyTheorems`, `ProxyHazards`, `ProxyDelivery` | the Runtime API proxy: locked regions, all interleavings, what holds over them, what can go wrong and when, and what the clients get |
| `Jobs` | one invocation job and what it makes of each of its sinks |
| `Pipeline`, `PipelineTheorems`, `PipelineOrder`, `PipelineSinks`, `PipelineKeys`, `PipelineRefusals`, `PipelineFlow`, `PipelineFates`, `EvictionRaces` | enqueue, batcher tasks, job queue and running jobs as one step machine; who shares a batch, who is turned away and when, how batches and jobs move on, what becomes of each sink and which job made it so |
| `FlushBatch` | from a batch of requests to invocations that carry their sinks |
| `Batcher` | the two per-key batcher loops, the rate estimator, the dynamic window |
| `Pool` | the worker pools of both adapters |
| `Admission` | many HTTP handlers on top of that machine: their permits, replies and streaming bodies |
| `WholeSystem` | handlers, machine, jobs, dispatchers, adapters and proxy together |

Conventions that a reader needs:

- Code that updates state is a class or a method with loops, proved equal to a specification function
  of the old state; the theorems are about those functions. Concurrent code is a step machine: one
  step for each stretch that runs under a lock or between two awaits, and the theorems range over all
  runs.
- Libraries are the fields of `Wire.Lib` and the `encode` parameters: parsing a line, the header types
  of the HTTP library, trimming, base64, UTF-8, serializing. They are arbitrary functions. The
  laws needed of them are stated where they are used: `Base64Law` (decoding undoes encoding) and
  `EncoderLaw` (a serialized record is one non-empty line without LF and without a CR at its end, and
  parses back to the record); `PartsDoNotParse` (no proper part of a serialized record is a record).
- What a client, a batch or a window has to be is said in terms of the inputs (`Promise`, `Adapter.Served`,
  `Framing.Writes`, `PipelineKeys.Mates`, `Batcher.RightWindow`), with figures written out, and the helpers
  of the code are proved to compute that.
- `Env.alive(id, n)` says whether the n-th send to client `id` still finds a receiver. It is arbitrary,
  so every theorem holds whenever clients hang up.
- Time, other tasks and the network are parameters: a `script` of what each await returned and what
  the clock said, the `ready` list of a poll. Which worker or handler of a pool moves next is an
  arbitrary choice (`:|`), so the contracts of `Pool` hold for every order.

## What the code does not promise, and exactly when it does

Some properties one would expect do not hold of the code as it is. Each has a condition that is
necessary and sufficient.

- **One bad record ends a whole response stream.** A line that is no record, or a record that fails
  its own client, fails every client that still waits (`Demux.FaultIff`). Buffered dispatch confines
  the damage to the item, so the two agree exactly when every first record of a pending id can be
  turned into a response (`Buffered.AgreeIffWellFormed`). `docs/architecture.md:115` says that a
  record without `id` is dropped; in the code it does not parse and ends the stream, and the model
  follows the code.
- **An accepted request can be dropped.** A task that leaves idle drops what slipped into its
  queue. That can happen to any request (`EvictionRaces.AcceptedThenDropped`), and a run drops
  nothing exactly when no task leaves idle with a non-empty queue (`PipelineTheorems.DropsIff`).
- **A batch fetched by the proxy may never finish.** Workers that complete only what they were handed
  can finish it exactly when it is not empty and every id in it is a valid header value that comes
  back: the worker reads it unchanged off the header and the route `{id}` of the completion hands it
  over unchanged (`ProxyTheorems.FinishesIff`). An envelope without `batch`, or with an empty one,
  occupies the proxy for ever; so does an id that is no header value, the empty id (a header value,
  but no path segment), an id with outer blanks (trimmed off the header) and one with a slash. The
  proxy can get hold of every such batch (`ProxyTheorems.StuckFromStart`).
- **A stale reset can throw away a live batch.** The reset after a forwarded completion is
  unconditional. From the start, no live batch can be lost as long as no pass-through invocation is
  completed again while a completion of it is being forwarded, and the first such completion puts one
  at risk (`ProxyHazards.SecondCompletionDecides`, with a whole run in `ProxyHazards.LosesFromStart`);
  after every run, calm or not, a batch can be lost exactly when one reset too many is under way
  (`ProxyHazards.LossIff`). The other proxy theorems are about the runs without that
  (`ProxyRuns.Calm`).
- **A caller that hangs up during a fetch stops the proxy.** The mark that a fetch is under way then
  stays set. After a run that leaves the proxy without an invocation, it gets to one again exactly if
  no fetch was abandoned (`ProxyHazards.ServesAgainIff`, `ProxyHazards.AbandonedFromStart`).

## Model

| member | source | states |
|---|---|---|
| `Demux.Projection` | gateway/src/batching.rs:1500-1615 | Whatever the stream does and wherever it stops, each client has seen exactly the run of its own records among the lines handled. |
| `Demux.NonInterference` | gateway/src/batching.rs:1500-1615 | Without a fault, a client's view depends on its own records only. |
| `Demux.InterleavingsAgree` | gateway/src/batching.rs:1500-1615 | Two interleavings of the same per-id sequences are indistinguishable to every client, and if one is free of faults so is the other. |
| `Demux.FaultIff` | gateway/src/batching.rs:1389-1420 | A stream faults if and only if some line is no record or some id's own records fault when run alone. |
| `Demux.DeadClient` | gateway/src/batching.rs:1512-1512 | Records for an id that is unknown, answered, closed or gone change nothing; only a wrong version among them still faults. |
| `Demux.LifecycleOrder` | gateway/src/batching.rs:1536-1609 | Per client: a sent head never changes, chunks are only appended, no chunk precedes a head, and nothing follows an answer, a close or a loss. |
| `Demux.DroppedByOwnFault` | gateway/src/batching.rs:1512-1520 | A waiting client loses its channel unanswered if and only if its own head or whole-response record is refused. |
| `Demux.AtMostOneDropped` | gateway/src/batching.rs:1406-1420 | A run drops at most the client addressed by the faulting record, and no one if there is no fault. |
| `Demux.Dispatcher.constructor` | gateway/src/batching.rs:1327-1327 | A new dispatch holds unused senders for all its ids, every client waits, and the batch size it will report is the number of them. |
| `Demux.Dispatcher.SendStreamHead` | gateway/src/batching.rs:1289-1319 | A taken init sender is used up whatever happens: the head arrives, or the client is dropped on a bad head, or is found gone; without one nothing changes. |
| `Demux.Dispatcher.DropEntry` | gateway/src/batching.rs:1577-1591 | Dropping the senders closes an open body and abandons a client that still waits. |
| `Demux.Dispatcher.DispatchStreamRecord` | gateway/src/batching.rs:1500-1615 | The removals and re-insertions in the map of senders amount to one automaton step of the addressed client and leave all others alone. |
| `Demux.Dispatcher.DispatchTo` | gateway/src/batching.rs:1507-1610 | For each record kind, the entry goes back into the map exactly if the client's body stays open, and the client makes its automaton step. |
| `Demux.Dispatcher.AnswerIfUnsent` | gateway/src/batching.rs:1525-1528 | A whole answer reaches a client only if no head was sent before; otherwise its body is just closed. |
| `Demux.Dispatcher.SendChunk` | gateway/src/batching.rs:1553-1576 | A chunk opens the response with the default head first if there was none. |
| `Demux.Dispatcher.SendBody` | gateway/src/batching.rs:1568-1574 | An undecodable chunk closes the body and faults; a client found gone is forgotten without a fault. |
| `Demux.Dispatcher.FailEntry` | gateway/src/batching.rs:1694-1703 | One pending client is answered with the error, or has its body closed if it already streams. |
| `Demux.Dispatcher.FailAllStream` | gateway/src/batching.rs:1686-1706 | Draining the map in any order settles every live client and touches no other. |
| `Promise.HeadIff` | gateway/src/batching.rs:1617-1659 | A head is passed on if and only if its status is 100 to 999, its map is empty or legal to the HTTP library, and every trimmed non-blank cookie is legal; then with exactly the header fields followed by one `set-cookie` per such cookie in order. Otherwise it is refused for the status first, then the headers, then the cookies. |
| `Promise.ResponseIff` | gateway/src/batching.rs:1617-1667 | A whole response is refused as its head would be, or else for a body that does not decode; otherwise it has its own status, fields and decoded bytes. |
| `Promise.TrimmedWhich` | gateway/src/batching.rs:1649-1659 | The cookies sent are exactly the trimmed ones that are not blank. |
| `Promise.TrimmedTwice` | lambda-kit/adapter-rust/src/lib.rs:297-309 | That adapter and gateway both trim makes no difference, as trimming is idempotent. |
| `ClientStory.FirstRecord` | gateway/src/batching.rs:1500-1615 | The first record decides: a whole record or an error is the whole answer (an error with its own status if that is 100 to 999, else 502); a head opens the response with its own status or 200, a chunk or an end with a bare 200; a refused head leaves nothing. |
| `ClientStory.Collects` | gateway/src/batching.rs:1545-1576 | An open response collects the decoded bytes of its chunks in order and ignores further heads. |
| `ClientStory.LeavesAt` | gateway/src/batching.rs:1571-1573 | A client that leaves has exactly the chunks before the send that missed it, and makes no fault. |
| `ClientStory.ClosedByFirst` | gateway/src/batching.rs:1545-1610 | The first end, error, whole record or undecodable chunk closes an open response, whatever comes later changes nothing, and only an undecodable chunk or a whole record that cannot be passed on spoils the stream. |
| `Framing.SpellTerminated` | gateway/src/batching.rs:1376-1379 | The cut pieces and the tail spell the input back; nothing is lost, moved or invented. |
| `Framing.TerminatedSpell` | gateway/src/batching.rs:1376-1379 | LF-free pieces and tail are recovered exactly from what they spell. |
| `Framing.CutAppend` | gateway/src/batching.rs:1423-1425 | Cutting chunk after chunk with the unread tail kept equals cutting the whole input. |
| `Framing.LinesAppend` | gateway/src/batching.rs:1376-1425 | The same for the lines handed to the parser, CR stripped and empty ones skipped. |
| `Framing.WholeLinesIff` | gateway/src/batching.rs:1376-1443 | The framer finds exactly the lines that the bytes write: pieces ended by byte 10, blank ones skipped, one byte 13 behind a line dropped, and a last line that needs no terminator and may have any number of 13s behind it. |
| `Framing.CleanWritten` | bootstrap/layer-proxy/src/ndjson.rs:21-25 | Lines that an encoder terminates with LF are written by their concatenation ... |
| `Framing.LastUnterminated` | gateway/src/batching.rs:1428-1443 | ... also if the last one lacks its LF. |
| `StreamDispatch.Admitted` | gateway/src/batching.rs:1355-1374 | The chunks taken in are the longest prefix in which each chunk is intact and fits 8 MiB beside the exact unread rest of what came before. |
| `StreamDispatch.BufferBetweenChunks` | gateway/src/batching.rs:1355-1425 | Between two chunks the buffer holds no LF and at most 8 MiB, and is exactly what follows the last LF of all bytes taken in. |
| `StreamDispatch.FaultStays` | gateway/src/batching.rs:1406-1420 | Bytes that arrive after a fault cannot change its outcome. |
| `StreamDispatch.ChunkingInvariance` | gateway/src/batching.rs:1328-1465 | All chunkings of the same bytes that fit the buffer give every client the same, namely the run of the whole-input lines. |
| `StreamDispatch.EveryExitResolves` | gateway/src/batching.rs:1321-1484 | However the stream ends, no client is left waiting or open; at most one is dropped unanswered, and then the stream ended on a head or whole response carrying that very id. |
| `StreamDispatch.ExitsWhen` | gateway/src/batching.rs:1352-1484 | A dispatch ends with the first fault among the lines taken in; or else with the broken stream, or with the chunk that does not fit 8388608 bytes beside what follows the last LF; or else at the end of the stream, with a missing record for whoever still waits. |
| `StreamDispatch.HandleLine` | gateway/src/batching.rs:1389-1420 | One line parsed and dispatched is one step of the whole-stream run. |
| `StreamDispatch.HandleNext` | gateway/src/batching.rs:1377-1421 | The line that ends at the next LF, and skipping an empty one, leave the run of the remaining buffer as what is still to do. |
| `StreamDispatch.HandleBuffer` | gateway/src/batching.rs:1376-1425 | The inner loop runs exactly the complete lines of the buffer and keeps exactly the unread rest. |
| `StreamDispatch.HandleTail` | gateway/src/batching.rs:1428-1465 | An unterminated last line is run without its trailing CRs, if anything is left of it. |
| `StreamDispatch.DispatchResponseStream` | gateway/src/batching.rs:1321-1484 | The incremental loop refines the whole-input reference, exit message, reported batch size and every client's view included, and empties the map. |
| `Select.ConcurrentSelect.constructor` | lambda-kit/adapter-rust/src/lib.rs:665-670 | Nothing is started or emitted yet; the limit is at least one. |
| `Select.ConcurrentSelect.StartNext` | lambda-kit/adapter-rust/src/lib.rs:453-454 | Starting a stream within the limit loses none of its items. |
| `Select.ConcurrentSelect.Fill` | lambda-kit/adapter-rust/src/lib.rs:452-457 | The set is filled up to the limit or all streams have been started; nothing is emitted. |
| `Select.ConcurrentSelect.SelectAllPoll` | lambda-kit/adapter-rust/src/lib.rs:459-467 | A poll emits at most one item, the next of its stream; it says finished only when no stream is left. |
| `Select.ConcurrentSelect.Emit` | lambda-kit/adapter-rust/src/lib.rs:460-460 | The item emitted is the next one of its own stream. |
| `Select.ConcurrentSelect.PollNext` | lambda-kit/adapter-rust/src/lib.rs:449-470 | For every wake-up order at most `limit` streams are open, each emitted item continues its stream, a poll pends only while some stream is open and none of the open ones it was woken for has an item, and the end comes only when the output is a complete order-preserving merge of all streams. |
| `Adapter.HeadWritten` | lambda-kit/adapter-rust/src/lib.rs:529-579 | What the adapter writes as head is read as the handler's own status (200 for 0), its own headers less those without a name, and its trimmed cookies, if that can be passed on. |
| `Adapter.ChunksArePieces` | lambda-kit/adapter-rust/src/lib.rs:606-627 | No chunk for an empty body, one for a text or binary body, one for each element of a stream, each with its own bytes. |
| `Adapter.ChunksRun` | lambda-kit/adapter-rust/src/lib.rs:606-627 | The gateway rebuilds exactly the handler's body chunks from their records and closes; a client that leaves part-way keeps exactly the chunks before that and makes no fault; an undecodable chunk faults if the client listens. |
| `Adapter.ItemRun` | lambda-kit/adapter-rust/src/lib.rs:526-660 | One item's records serve its client with the handler's status, headers and chunks, or the fixed error, exactly when they can be passed on; a client that leaves has had a first part of that. |
| `EndToEnd.OwnIsProjection` | lambda-kit/adapter-rust/src/lib.rs:449-470 | In any merge of the items' streams, the records with an item's id are that item's stream. |
| `EndToEnd.Framed` | gateway/src/batching.rs:1376-1465 | Bytes that write one record per line, the last LF missing or CRs added, cut into any chunks that fit, act as if the record list itself had been run. |
| `EndToEnd.FaultSource` | gateway/src/batching.rs:1406-1420 | A merged stream faults if and only if some producer's own records do. |
| `EndToEnd.Delivery` | gateway/src/batching.rs:1321-1484 | For every merge and chunking: a fault if and only if some producer faults, and otherwise each client ends with the run of its own producer's records. |
| `EndToEnd.AdapterEndToEnd` | lambda-kit/adapter-rust/src/lib.rs:505-671 | For every schedule and chunking each client gets its own handler's status, headers and chunks in order, all of them or up to where it left, if all answers can be passed on; one undeliverable answer to a listening client spoils the stream. |
| `Spoiled.EachItsOwnPart` | gateway/src/batching.rs:1321-1484 | For every merge of producers, every place where the bytes stop and every way the dispatch ends, each client holds a run of a first part of its own producer's records, settled by the sweep. |
| `Spoiled.NothingOfAnothers` | lambda-kit/adapter-rust/src/lib.rs:505-671 | Also in a spoiled or truncated stream each client of the interleaved adapter has its own head with a first part of its own chunks, its own fixed error, or a gateway error; one that left while it was streaming had no more than that either; nothing at all only if it never listened or its own head was refused. |
| `Spoiled.CutLines` | gateway/src/batching.rs:1376-1425 | A part of what clean lines spell is framed as some of the lines and a part of the next one. |
| `Spoiled.CutAnywhere` | gateway/src/batching.rs:1321-1484 | Wherever the bytes stop, the clients end as after a run of some first part of the records. |
| `WholeResponses.WholeRun` | lambda-kit/adapter-rust/src/lib.rs:539-563 | One whole record answers its client with the handler's response if that can be passed on, and drops it with a fault if not. |
| `WholeResponses.WholeEndToEnd` | lambda-kit/adapter-rust/src/lib.rs:505-671 | Without interleaving: the stream is free of faults if and only if every response can be passed on, and then each client has its own. |
| `WholeResponses.WholesCutAnywhere` | lambda-kit/adapter-rust/src/lib.rs:505-671 | Without interleaving, also in a spoiled or truncated stream: each client has its own handler's whole response or a gateway error, and is left without an answer only if its own response was refused. |
| `WholeResponses.WholeAnswer` | gateway/src/batching.rs:1242-1266 | A buffered item is answered with the handler's response, or with a 502 of its own if that cannot be passed on. |
| `WholeResponses.BufferedEndToEnd` | lambda-kit/adapter-rust/src/lib.rs:333-393 | Buffered: each request gets its own handler's response or its own 502, whatever the other items are. |
| `Buffered.FirstDecides` | gateway/src/batching.rs:1507-1530 | Streaming whole responses: the first record of an id decides, repeated ones are ignored. |
| `Buffered.SomeoneDropped` | gateway/src/batching.rs:1512-1520 | A faulting stream of whole responses always leaves some client dropped unanswered. |
| `Buffered.AgreeIffWellFormed` | gateway/src/batching.rs:1188-1287 | Buffered and streamed dispatch answer every request alike, metadata included, if and only if the first record of every pending id can be turned into a response. |
| `Buffered.FirstForUnique` | gateway/src/batching.rs:1238-1241 | With distinct ids every item is the deciding one of its id. |
| `Buffered.AnswerInFigures` | gateway/src/batching.rs:1188-1287 | Every request is answered 502 if the reply cannot be decoded, is of another version than 1 or has no item for it; otherwise with the status, fields and bytes of its first item, or 502 if those cannot be passed on; always with the size and wait of its batch. |
| `Buffered.BufferedDispatcher.DispatchBuffered` | gateway/src/batching.rs:1188-1287 | Every pending request is answered exactly once: first item wins, unknown and repeated ids are ignored, a missing one gets a 502, a malformed item spoils its own request only. |
| `Buffered.BufferedDispatcher.FailAllBuffered` | gateway/src/batching.rs:1669-1684 | Draining in any order gives all and only the pending requests the error. |
| `Jobs.RunInvocationJob` | gateway/src/batching.rs:668-803 | Each outcome of the invoker, a mismatched one included, is handed to the dispatcher or sweep of the job's mode, with the number of senders as batch size. |
| `Jobs.FailureToldToAll` | gateway/src/batching.rs:668-803 | A failed invocation or a reply of the wrong kind is told to every client of the job as a 502 with the job's own size and wait. |
| `Jobs.JobSettles` | gateway/src/batching.rs:668-803 | Whatever the outcome, every sink of the job is used up and no other. |
| `Jobs.JobReportsItsSize` | gateway/src/batching.rs:1327-1327 | Every response of a job that carries metadata, by whatever path, reports the number of the job's requests. |
| `Jobs.JobLosesOnlyDeaf` | gateway/src/batching.rs:1571-1573 | A job gives up a client as gone only if the very send that found it gone found no receiver: the first if it never had a head, otherwise the one after its head and the chunks it had. |
| `FlushBatch.Flush` | gateway/src/batching.rs:817-1031 | The loop over the batch sorts the sinks by kind and id; the other kind is failed, and the plans share out the mode's own sinks. |
| `FlushBatch.PlansHoldParcels` | gateway/src/batching.rs:1087-1140 | Each plan of a batch with distinct ids holds exactly the sinks of its own parcel, one per request, and is carried out or failed as the parcel is. |
| `FlushBatch.UnitsOfResponses` | benchmark/benchmark.py:548-558 | If every request of a batch gets a response with metadata, be its plan refused for its size or for a full queue or its job come to whatever it may, one over the batch size read off the responses sums to the number of plans. |
| `Planning.SplitPending` | gateway/src/batching.rs:1175-1186 | The senders are divided: those of the left items, and all others. |
| `Planning.PlanInvocations` | gateway/src/batching.rs:1087-1140 | The recursion on items and senders together equals cutting the items first and giving each piece its senders. |
| `Planning.SegmentsConcat` | gateway/src/batching.rs:1120-1139 | The pieces concatenate to the batch in order, and none is empty. |
| `Planning.SegmentsDisjoint` | gateway/src/batching.rs:1120-1139 | Two pieces never share an id. |
| `Planning.EveryIdPlanned` | gateway/src/batching.rs:1120-1139 | Every id is in some piece. |
| `Planning.PlansPartition` | gateway/src/batching.rs:1087-1140 | Each sender is in exactly one plan, unchanged, and every Invoke fits the limit. |
| `Planning.FailsIffTooLargeAlone` | gateway/src/batching.rs:1105-1118 | With additive payload sizes an item is refused if and only if it is over the limit on its own. |
| `Planning.SplitEfficiency` | gateway/src/batching.rs:1105-1139 | If k neighbours always fit, nothing is refused, a split makes no piece below (k+1)/2 items, and the number of plans times that is at most the batch length. |
| `Planning.UnitsCountSegments` | benchmark/benchmark.py:548-558 | One over the size of its piece, summed over all items, is the number of pieces. |
| `Planning.UnitsCountPlans` | benchmark/benchmark.py:548-558 | A plan's sender count is its item count, so summing its inverse over the items gives the number of plans. |
| `Proxy.ParseOuterSmugBatch` | bootstrap/layer-proxy/src/smug.rs:19-54 | Pass-through, error or batch, each exactly when: an error if and only if an id is missing or repeated; otherwise the batch in order with distinct ids. |
| `Proxy.InnerState.constructor` | bootstrap/layer-proxy/src/state.rs:30-47 | No invocation and no fetch at the start. |
| `Proxy.InnerState.TryTakeNext` | bootstrap/layer-proxy/src/proxy.rs:187-216 | A poll comes back empty, and changes nothing, exactly if there is nothing left to hand out; otherwise the first queued item leaves the queue, its id is in flight, nothing leaves the flight, and it is delivered if and only if the id is a header value. |
| `Proxy.InnerState.ShouldFetch` | bootstrap/layer-proxy/src/proxy.rs:76-80 | A fetch starts exactly in the idle state, a refusal changes nothing, and no second caller is let through after a first. |
| `Proxy.InnerState.FetchDone` | bootstrap/layer-proxy/src/proxy.rs:83-143 | The next fetch is possible again exactly if this one brought no invocation. |
| `Proxy.InnerState.HandleCompletion` | bootstrap/layer-proxy/src/proxy.rs:309-389 | A completion that is not pending changes nothing; a pending one of a batch stops being pending while all others stay so, writes its line, and closes the batch and hands out the join exactly if it was the last. |
| `Proxy.InnerState.ResetActive` | bootstrap/layer-proxy/src/proxy.rs:399-402 | After a reset nothing is pending, and a fetch can start if and only if none is under way. |
| `ProxyRuns.TakeKeeps` | bootstrap/layer-proxy/src/proxy.rs:200-212 | A delivery takes an id never taken before and keeps the invariant. |
| `ProxyRuns.CompleteKeeps` | bootstrap/layer-proxy/src/proxy.rs:346-381 | A known completion adds one id and keeps the invariant, through the change to finalising. |
| `ProxyRuns.InvStep` | bootstrap/layer-proxy/src/proxy.rs:70-403 | Every step of every task keeps the invariant. |
| `ProxyRuns.InvRun` | bootstrap/layer-proxy/src/proxy.rs:70-403 | So does every run. |
| `ProxyRuns.PostsHappened` | bootstrap/layer-proxy/src/proxy.rs:309-313 | What is booked as posted for an id was posted under that id in the run. |
| `ProxyTheorems.ExactlyOnce` | bootstrap/layer-proxy/src/proxy.rs:187-216 | In every reachable live batch queue, in-flight and completed ids are disjoint, together are the batch's ids, and one line per completed id was written in completion order, made of what was posted for it. |
| `ProxyTheorems.WorkersGetOwnItems` | bootstrap/layer-proxy/src/proxy.rs:200-212 | Over every run workers are handed the batch's items in order, each once and each id with its own event. |
| `ProxyTheorems.MeasureStep` | bootstrap/layer-proxy/src/proxy.rs:346-381 | 2·queue + inflight falls by exactly one with each delivery and each known completion; every other step, a repeated or unknown completion included, changes nothing at all. |
| `ProxyTheorems.ClosesAfterExactlyAll` | bootstrap/layer-proxy/src/proxy.rs:367-381 | The stream closes when each id has been delivered once and completed once, and one finalise task is handed out. |
| `ProxyTheorems.SingleOuterInvocation` | bootstrap/layer-proxy/src/proxy.rs:70-151 | At most one fetch at a time and only without an invocation; a live batch is never overwritten, only its own last completion ends it, and only its own finalise task resets the proxy. |
| `ProxyHazards.LossIff` | bootstrap/layer-proxy/src/proxy.rs:237-241 | After every run from the start, calm or not, a live batch can be lost without any further completion if and only if one reset too many is under way. |
| `ProxyHazards.SecondCompletionDecides` | bootstrap/layer-proxy/src/proxy.rs:274-278 | From the start: after a calm run nothing can be lost, and the next completion puts a batch at risk if and only if it repeats one that is being forwarded. |
| `ProxyHazards.LosesFromStart` | bootstrap/layer-proxy/src/proxy.rs:237-241 | A run from the start that throws away a live batch, for every pass-through invocation and any two completions of it. |
| `ProxyHazards.ServesAgainIff` | bootstrap/layer-proxy/src/proxy.rs:76-85 | After every run from the start, calm or not, that leaves the proxy without an invocation, it can get to one again if and only if no fetch was abandoned. |
| `ProxyHazards.AbandonedFromStart` | bootstrap/layer-proxy/src/proxy.rs:76-85 | A run from the start after which it never does. |
| `ProxyTheorems.FinishesIff` | bootstrap/layer-proxy/src/proxy.rs:200-210 | Workers that complete only what they were handed and what comes back can finish a fetched batch if and only if it is non-empty and all ids are header values that come back through the completion route; any other stays live for ever. |
| `ProxyTheorems.ServedFromStart` | bootstrap/layer-proxy/src/proxy.rs:346-402 | Every finishable batch can be served: an honest run from the start fetches it, completes each of its ids once, and leaves the proxy idle and ready for the next fetch. |
| `ProxyTheorems.PassThroughOnce` | bootstrap/layer-proxy/src/proxy.rs:190-199 | A pass-through invocation that was handed out is not handed out again: until a fetch brings another one, polls come back empty. |
| `ProxyTheorems.StuckFromStart` | bootstrap/layer-proxy/src/proxy.rs:200-210 | Every batch with distinct ids that cannot be finished is one the proxy can hold: a run from the start ends with it live, and no run of such workers ends it. |
| `ProxyTheorems.EmptyStays` | bootstrap/layer-proxy/src/smug.rs:29-31 | An empty batch never leaves the live state. |
| `ProxyTheorems.BadIdStays` | bootstrap/layer-proxy/src/proxy.rs:205-210 | Nor does a batch with an id that no worker can be handed, or none can complete. |
| `ProxyTheorems.Finish` | bootstrap/layer-proxy/src/proxy.rs:346-381 | From every reachable point of a finishable batch there is a run to its end. |
| `ProxyDelivery.LinesReachClients` | gateway/src/batching.rs:1507-1530 | The lines of a closed batch, dispatched, answer each client with what was posted under its id if all posts can be passed on, and otherwise leave somebody dropped. |
| `ProxyDelivery.LineServes` | bootstrap/layer-proxy/src/proxy.rs:405-442 | The line written for a post carries exactly the reply's status, headers, cookies and body, or the fixed empty 502 or 500. |
| `ProxyDelivery.ProxyEndToEnd` | bootstrap/layer-proxy/src/proxy.rs:346-382 | For every calm run from the start to a closed batch and every chunking of its bytes: the completed ids are the batch's, each was posted in the run, and each client is answered with the status, headers, cookies and body posted under its own id if all posts can be passed on; otherwise somebody is dropped. |
| `ProxyDelivery.NothingOfAnothers` | bootstrap/layer-proxy/src/proxy.rs:346-382 | After every calm run, while the batch is live or closed, wherever the bytes stop and also if a post cannot be passed on: the client of a completed item has its own worker's answer or a gateway error (nothing only if its own answer was refused), and the client of any other item a gateway error; so also in a batch that can never finish. |
| `PipelineTheorems.StepConserves` | gateway/src/batching.rs:218-261 | Every step of enqueue, batcher, flush, job queue and job moves requests between stages without losing or copying one. |
| `PipelineTheorems.FlushConserves` | gateway/src/batching.rs:805-1032 | Flushing and splitting a batch conserves its requests; that the sinks follow them is `PipelineSinks.FlushSharesOutSinks`. |
| `PipelineTheorems.SubmitParcelConserves` | gateway/src/batching.rs:904-952 | Queueing, failing or refusing a plan conserves its requests. |
| `PipelineTheorems.Conservation` | gateway/src/batching.rs:404-426 | In every reachable state each request handed in is in exactly one stage, and is answered, rejected or dropped at most once. |
| `PipelineSinks.EverySinkAccountedFor` | gateway/src/batching.rs:218-261 | Over every run, sink by sink: a request is on its way once, or its handler was told that it was refused, or its sink has been used, and never two of these. |
| `PipelineSinks.SinkUsedOnce` | gateway/src/batching.rs:628-645 | A sink that has been used is never used again in any continuation. |
| `PipelineSinks.FlushSharesOutSinks` | gateway/src/batching.rs:817-837 | Over every run, a batch about to be flushed has distinct ids and sinks of its own kind only, and each plan is given exactly the sinks of its own parcel. |
| `PipelineSinks.JobsHaveDistinctIds` | gateway/src/batching.rs:923-929 | Over every run each queued, held or running job has one sink per request. |
| `PipelineFates.OneFate` | gateway/src/batching.rs:668-803 | A sink that has ended, or that a running job holds, has one fate: no two jobs hold it, and none holds it after it ended. |
| `PipelineFates.FateStands` | gateway/src/batching.rs:668-803 | What a sink's fate is while its job runs, it still is when the job is over and after every further step. |
| `PipelineFates.TracedStep` | gateway/src/batching.rs:668-803 | Every step keeps this: each sink that has ended was ended by a refused plan, by an idle exit, or by one finished job that held it, as that job's dispatcher leaves it. |
| `PipelineTheorems.JobSettlesAll` | gateway/src/batching.rs:668-803 | A finished job resolves exactly its requests, because its dispatcher uses up all its sinks. |
| `PipelineTheorems.DroppedStep` | gateway/src/batching.rs:502-506 | The only drop is an idle exit, of exactly that task's queue. |
| `PipelineTheorems.DropsIff` | gateway/src/batching.rs:502-506 | A run drops nothing if and only if no task leaves idle with a non-empty queue. |
| `PipelineOrder.ArrivalOrder` | gateway/src/batching.rs:502-521 | Over every run and for every task: requests are received in the order in which they were accepted, the open batch is the last of them, and until an idle exit none is missing. |
| `PipelineOrder.RemovalLosesNothing` | gateway/src/batching.rs:249-257 | Whoever took its sender out of the map and when, a task that left because its channel was closed has received all that its channel ever accepted. |
| `PipelineTheorems.SendersGoneForGood` | gateway/src/batching.rs:226-247 | A channel without senders, clones held by enqueue calls counted, never gets one again, so `None` after draining is final. |
| `PipelineTheorems.IsolatedStep` | gateway/src/batching.rs:136-154 | Every step keeps every channel, batch and job to the requests of its own key. |
| `PipelineKeys.BatchKeyIsolation` | gateway/src/batching.rs:136-154 | Over every run, several live tasks of one key included, any two requests of a channel, a batch or a queued, held or running job have the same target, method, route and mode, and the same value, or both none, in every header and query parameter of their batch key; and their sinks are of the kind the job answers. |
| `PipelineKeys.OneKeyIff` | gateway/src/batching.rs:136-154 | Two requests have one batch key if and only if they agree in exactly that. |
| `PipelineKeys.MatesOfOneOperation` | gateway/src/batching.rs:138-145 | For one operation: each header and each parameter of its key is in both requests with the same value, or in neither. |
| `PipelineKeys.MatesMeet` | gateway/src/batching.rs:223-247 | The converse, over every run: an `enqueue` call whose request so agrees with one that a mapped task holds is given the sender of that very task. |
| `PipelineTheorems.LimitsStep` | gateway/src/batching.rs:229-251 | Every step keeps queues, batches, queued and running jobs within their limits. |
| `PipelineTheorems.Capacity` | gateway/src/batching.rs:647-666 | Over every run queues, batches and running jobs stay within their bounds, the job queue within max(1, max_pending), and unfinished accepted jobs within max(1, max_pending) + 1 + max_inflight. |
| `PipelineRefusals.RefusedExactlyWhen` | gateway/src/batching.rs:218-261 | Over every run `enqueue` refuses with "queue full" if and only if the request meets a live task whose queue holds `max_queue_depth_per_key` requests, and with "batcher closed" if and only if it was sent to a task that had left, for the second time. |
| `PipelineRefusals.PieceSubmitted` | gateway/src/batching.rs:895-960 | Over every run each piece of a batch is answered 500 if it cannot be encoded, 502 if it is over the limit, 429 if the job queue holds max(1, max_pending) jobs, with the number of its own requests as batch size, and becomes a job otherwise. |
| `PipelineRefusals.BatchesWithinMaximum` | gateway/src/batching.rs:508-526 | Over every run no batch is larger than its requests' own operation allows, as long as requests that may share a batch agree on that. |
| `PipelineFlow.FlushCuts` | gateway/src/batching.rs:1087-1140 | A flush cuts a batch into non-empty pieces that make it up in order, none of which could be cut further to fit, and leaves alone a batch that need not be cut. |
| `PipelineFlow.PiecesOverRuns` | gateway/src/batching.rs:805-1032 | Over every run all pieces on their way are such pieces, and the wait that a job reports is that of a flush of the run. |
| `PipelineFlow.StopsOnlyWhen` | gateway/src/batching.rs:502-506 | A task goes on from batch to batch and leaves only between two, when it is idle, or when its queue is empty and nobody holds a sender. |
| `PipelineFlow.JobsInOrder` | gateway/src/batching.rs:647-666 | Over every run invocations are taken up in the order in which their jobs were queued, none lost. |
| `PipelineFlow.NothingElseHoldsUp` | gateway/src/batching.rs:494-666 | Over every run nothing is held up but by the bound on running invocations: calls, tasks with queued requests, open batches, queued and held jobs and running ones can all go on. |
| `PipelineFlow.BatchServed` | gateway/src/batching.rs:508-530 | Batching happens: any distinct requests that may share a batch and fit the queue, the maximum and the payload limit can be collected into one batch, invoked as one job, and ended as its reply says. |
| `EvictionRaces.AcceptedThenDropped` | gateway/src/batching.rs:502-506 | For every request, if channels have room for one, there is a run that accepts it and drops it with its channel. |
| `EvictionRaces.SecondTask` | gateway/src/batching.rs:249-257 | A run in which the retry after a closed channel is accepted by a second task while the first has not yet been removed. |
| `EvictionRaces.TwoLiveTasks` | gateway/src/batching.rs:425-425 | A run in which the first task's late removal unmaps the second task, so that two tasks of one key are alive and the second still holds its request. |
| `Batcher.CollectFixed` | gateway/src/batching.rs:508-526 | One batch: exactly the requests of its turns, cut at the maximum, at the deadline or by closure, and no further request was awaited once its window had passed. |
| `Batcher.BatcherTaskFixed` | gateway/src/batching.rs:494-530 | The fixed loop refines the abstract segmenter: consecutive non-empty batches within the maximum that concatenate to what was received, short only by deadline or closure. |
| `Batcher.CollectDynamic` | gateway/src/batching.rs:573-600 | One batch: exactly the requests of its turns, cut at the maximum, at the deadline or by closure, while the estimator keeps counting what arrives and ticks. |
| `Batcher.BatcherTaskDynamic` | gateway/src/batching.rs:532-609 | The dynamic loop refines the same segmenter, and every window is the whole number nearest, halves upwards, to the point that the sigmoid marks between the bounds for a rate which, times the duration of the last completed intervals, is the number of requests counted in them; both up to the batch's first request. |
| `Batcher.DynamicRateEstimator.RecordRequest` | gateway/src/batching.rs:467-469 | Counts one more, saturating; the samples stay the last ones of the history. |
| `Batcher.DynamicRateEstimator.Tick` | gateway/src/batching.rs:471-484 | Completes an interval; the deque is the last min(ticks, window) rates of the full history. |
| `Batcher.DynamicRateEstimator.SmoothedRps` | gateway/src/batching.rs:486-491 | The mean of the last `window` rates of the full history. |
| `Batcher.SmoothedIsMean` | gateway/src/batching.rs:471-491 | The smoothed rate times the duration of the last `window` completed intervals is the number of requests counted in them; zero without any. |
| `Batcher.NearestIsRounded` | gateway/src/batching.rs:428-447 | The computed wait is the nearest whole number, halves upwards, to `min + sigmoid((rps - target) * steepness) * (max - min)`; the clamp never bites. |
| `Batcher.SamplesCountRequests` | gateway/src/batching.rs:467-484 | Short of saturation, interval times all rates ever sampled plus the open count is the number of requests received. |
| `Batcher.RatesCountRequests` | gateway/src/batching.rs:471-478 | Interval times the rates is the sum of the counts. |
| `Batcher.WaitBoundedAndMonotone` | gateway/src/batching.rs:428-447 | The window lies within its bounds and never shrinks when the rate grows. |
| `Batcher.WindowsBounded` | gateway/src/batching.rs:565-572 | The same for the windows of two scripts, by their smoothed rates. |
| `Pool.FinishedOnce` | lambda-kit/adapter-node/src/index.ts:35-43 | In an orderly log each item is finished exactly once, or not yet while open or to come, and never more than the limit are open. |
| `Pool.Handle` | lambda-kit/adapter-rust/src/lib.rs:345-392 | For every completion order items are opened in order, never more than the limit at a time, each is finished once, and response i is item i's. |
| `Pool.MapConcurrent` | lambda-kit/adapter-node/src/index.ts:27-48 | For every schedule of the workers: items are opened in order, never more than min(concurrency, items) at a time, each is handled once, the results are the items' own in item order, and the pool ends after items + workers turns. |
| `Pool.WorkerPool.constructor` | lambda-kit/adapter-node/src/index.ts:32-45 | As many workers as the concurrency allows and the items need. |
| `Pool.WorkerPool.Turn` | lambda-kit/adapter-node/src/index.ts:37-42 | One stretch of a worker stores the awaited result at its own index, claims the next unclaimed item or exits, and takes one turn off what is left. |
| `Pool.WorkerPool.AllDone` | lambda-kit/adapter-node/src/index.ts:46-47 | When all workers have exited every item was handled once and every result is in its place. |
| `Admission.PermitsConserved` | gateway/src/server.rs:432-448 | Over every run no permit is lost or doubled on any return path: a handler owns one exactly from admission to its return, then a streaming body until it is over, and a request is refused for want of one if and only if all are owned. |
| `Admission.ReadCanEnqueue` | gateway/src/server.rs:483-507 | A request that was admitted and read always has a fresh id to be enqueued under. |
| `Admission.OwnReply` | gateway/src/server.rs:507-576 | Over every run each handler has what its own request came to: the response or the very head its own sink was given, which may be while the job still runs and whether or not the client stays to the end of the body; the dropped-response error only for its own dropped sink, queue full or batcher closed only if its own enqueue said so, a timeout only after it was accepted, and the early refusals only if nothing was enqueued. No sink has two fates. |
| `Admission.RefusedExactlyWhen` | gateway/src/server.rs:432-576 | Each refusal has its one occasion: too many requests exactly when all permits are taken, body too large exactly for a body that does not fit, queue full and batcher closed exactly when `enqueue` said so, the dropped response and the timeout only by these; an accepted request waits for its response. |
| `Admission.OneReplyEach` | gateway/src/server.rs:539-575 | A reply once given stands in every continuation, and so does the use of the sink it was made of. |
| `Admission.NobodyForgotten` | gateway/src/server.rs:539-562 | Over every run, while a handler waits its request is on its way through the gateway in exactly one place, or its sink has been used and, unless the first send to it found no receiver, it can return with its own answer without the timeout. |
| `WholeSystem.JobServesOwn` | gateway/src/batching.rs:668-803 | A job that is answered by the adapter (interleaved or not, streamed or buffered) or by the proxy in any calm run, whole, cut short anywhere or with an invocation error, gives each of its clients nothing but its own handler's or worker's answer, a first part of it, or an error, and leaves it without any only if its own answer was refused or its first send found no receiver. |
| `WholeSystem.CompleteJobServes` | gateway/src/batching.rs:668-803 | A job whose reply came back whole, by any of these, gives each client its own handler's or worker's whole answer or, if it left, what came before that; in a stream if all answers of the job can be passed on, in a buffered reply if its own can. |
| `WholeSystem.OwnAnswerOrError` | gateway/src/server.rs:507-576 | Over every run of the whole gateway, whatever other requests meet: if the job that holds a handler's request is answered by an adapter or the proxy, wherever its stream breaks off, or not at all, the response or the head that the HTTP handler returns is that of its own request's handler or worker, with only that answer's chunks behind the head, or an error of the gateway. |
| `WholeSystem.OwnAnswerInFull` | gateway/src/server.rs:507-576 | If moreover that one job's reply, streamed in either way, buffered or through the proxy, comes back whole and can be passed on, what the handler returns is the whole answer of its own request's handler or worker, up to where the client left, or the gateway never invoked anything for the request. |

## Left out

- JSON and serde, base64, UTF-8, the HTTP header types: parameters with laws, see above. The order in which a hash map yields headers is whatever `Lib.headerMap` says.
- `Batcher.WaitBoundedAndMonotone`: floating point and `exp` are not modelled; rates and waits are exact reals and the sigmoid is any monotone function into (0, 1).
- `Batcher.BatcherTaskFixed`, `Batcher.BatcherTaskDynamic`: `flush_batch` inside the loop is represented by the record of the flush; what a flush does is modelled in `Planning` and `Pipeline`. The dynamic loop chooses at random among ready branches, so a request may still join after the deadline; the model allows it and claims the window rule for the fixed loop only.
- `BatcherManager::enqueue`, `batcher_task` and `invocation_dispatcher` are steps of a machine on values and not methods of a class, because their interleavings are the subject; aliasing of the shared map is captured by the steps that read and write it.
- In `Pipeline` a task may flush at any time after its first request; the rule for when it does is in `Batcher`. A job's outcome is fixed when it is spawned: a handler may take its head, and its body may be over, while the job still runs, but all sinks of a job are booked as ended in one step, and when each chunk goes out is in `Demux` and `StreamDispatch` only.
- `Env.alive` is not tied to the handler that times out or is cancelled: every answer of it is allowed at every time, so the theorems hold for more runs than there are.
- `Batcher.CollectFixed`: bounds when awaits begin, not when a request arrives in the last of them; a request that is there when a late poll looks still joins.
- `flush_batch`: building the request events (`encode_body`, cookies, source address, timestamps); only their sizes matter here, through the encoder parameter.
- The branches for a closed job channel or semaphore (shutdown).
- Back-pressure of the 32-chunk body channel: a send that has to wait delays the dispatch and changes nothing that is stated here.
- Liveness of waking up: a sleeping `/next` call is modelled as polling again, since the lock is released before the notification is awaited.
- `ConcurrentSelect` does not refill while its remaining streams are pending; keeping the limit reached is not claimed.
- `Proxy.InnerState.HandleCompletion`: the failure of `encode_record_line` is not modelled; the headers handed to the runtime are not modelled beyond whether the id is a valid header value.
- The Node adapter beyond its two pools: its normalisers and the error record it writes when a body fails half-way. The handlers of a pool always return.
- Request routing, header forwarding, the OpenAPI compiler, tracing, signals, AWS SDK calls, the CloudFormation macro, the configuration publisher, benchmark plotting and sample functions: configuration and I/O.
- Machine integers are unbounded except the saturating request count; the others are sizes that memory bounds.
