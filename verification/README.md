# Agent workbench: a verified model

The project models the path of an agent conversation through the workbench and
proves what the parts promise each other.

- **Streaming gateway.** `Sse`, `SseParser`, `SseReference` and `SseRoundTrip` are the
  incremental server-sent-events parser: a byte machine, the class that implements it with
  a moving cursor, the reading of all bytes at once, and the printing of frames. `StreamRuntime` and `Cancellation` are
  the driver that feeds a decoder and polls for cancellation. `AnthropicStream`,
  `AnthropicReassembly`, `AnthropicInterleaving`, `AnthropicGrammar`, `OpenAIStream`,
  `OpenAIBatch` and `OpenAIGrammar` are the two frame decoders, `FrameSpelling` the JSON
  they read;
  `ProtocolAgreement` and `WireAgreement` relate them, down to the bytes. `Gateway` is
  one candidate attempt, the single-shot gateway and the one that retries and fails over;
  `Failover` says when it does.
- **Agent loop.** `Requests` holds the request contract and the adapters' stricter
  subset, `AgentLoop` the multi-turn loop, `LoopProperties`, `LoopHistory` and
  `ToolDiscipline` what every run of it keeps, `LoopEnding`, `LoopRelay`,
  `LoopAborts` and `LoopInvocations` how a run ends, what it passes on, what an abort does
  to it and which tools it invokes, `HistoryRules` what the history checks mean, `Encoders` and `WireMeaning` the two request forms, `EventMapper` the
  events of the local API. `Pipeline` puts the layers on top of each other,
  and `FirstAnswer` follows one answer from the bytes through the gateway.
- **Delivery.** `TurnDelivery` is the server's handling of a turn, `EventJson` the events
  as JSON with the client's field checks, `NdjsonClient` the TypeScript client and
  `TurnToClient` the way from one to the other; `BodyReader`, `ChunkedCoding`, `ChunkGrammar`,
  `NdjsonReader`, `EventCuts` and `TurnReader` are the Rust client's reader.
- **Configuration.** `Registry`, `Snapshot` and `ConfigManager` are the provider
  registry, its snapshots, and the manager that changes both or neither.

Of the parts modelled, what changes state in the source is a class or a method proved
equal to a specification function; "Left out" names the exceptions. The properties are
lemmas about those functions.

## How the outside is modelled

- An asynchronous source is a finite list of chunks and the way it ends (end, exception,
  abort during a read). In the driver a cancellation can only arrive while the consumer
  holds an event or a read is pending, since the program has one thread; in the loop and
  the gateway the answers to the questions about cancellation are an arbitrary function, so
  their lemmas hold for every timing.
- `JSON.parse`, `JSON.stringify`, the UTF-8 length and `TextDecoder` are parameters. The
  laws a theorem needs of them stand in its `requires`: `Faithful`, `Legible`, `Prints`,
  `ReadsBack`, `JsonLaw`, `ReadsAscii`. The laws about JSON are asked only of the values
  actually written, so they hold of a printer and a parser that keep those
  (`NdjsonClient.LawCanBeMet`), whatever they do to other numbers. The decoder is a transducer over lines, because one streaming
  decoder serves all lines of a stream (packages/model-gateway/src/adapters/sse.ts:243-249).
- A gateway, a tool executor, a file system and the sockets are functions or lists of
  answers. The patterns a configuration field must match are predicate parameters.

## Where the code departs from what it promises

- **An abort can be lost** (`Cancellation.AbortLost`, `Cancellation.AbortCutsExactlyWhen`,
  `Cancellation.EveryAbortCuts`). If the end of the input still flushes a frame, which takes
  a final CR, and the consumer aborts on the last event of it, the stream ends in a protocol
  error and not in `aborted`: the error thrown by `finish` is not preceded by a poll
  (packages/model-gateway/src/adapters/stream-runtime.ts:229-262).
- **A rollback can be lost** (`ConfigManager.RollbackLost`,
  `ConfigManager.RestoreFailsExactlyWhen`, `ConfigManager.HarmlessRunsAreSafe`). `#restore` rebuilds the snapshot through full
  validation, so it throws when the registry was already in a state a snapshot may not have,
  such as an enabled route with a disabled primary, which `updateProvider` allows. A store
  that does not validate lets the manager get there.
- **A turn can be reported as completed without a terminal line**
  (`TurnDelivery.EndsWithoutTerminal`, `TurnToClient.SilentEndIsRefused`). A runner whose stream just stops gets the status
  `completed`, while the client refuses the response.
- **A turn can be stored and not be read** (`TurnToClient.TurnReachesClient`,
  `TurnToClient.ArrayCallIsRefused`). The loop accepts any JSON value as a tool input
  (packages/agent-runtime/src/agent-loop.ts:302) and the server writes it, but the client
  refuses a call whose input is not an object
  (packages/local-agent-client/src/ndjson.ts:201). The program's own gateways only give
  objects (`TurnToClient.OwnGatewayReachesClient`).
- **Refusals can depend on how the bytes are cut.** The TypeScript client accepts a text in
  every chunking exactly under the condition of `NdjsonClient.AcceptedHoweverCut`; a line at
  the limit that ends in CR LF is outside it (`NdjsonClient.RefusalDependsOnCut`). The
  specifications of the Rust reader therefore have a strict and a lenient reading. A header
  line of 65536 bytes or more is refused when the bytes come one by one
  (`ChunkedCoding.ReadByteByByte`) and read when all but the last segment is within the limit
  (`ChunkedCoding.ReadArriving`); `ChunkedCoding.LongHeaderTwoWays` shows both on one body.
  An event is read under every cutting if and only if its line, with what one piece of 4096
  bytes can bring in with the line's end, is within the limit
  (`EventCuts.ReadHoweverCut`); `EventCuts.LongEventTwoWays` shows one text both ways.
- **The parser is not the one of section 9.2.6 of the WHATWG HTML Living Standard**: the id
  starts over with every frame, and a frame with empty data is not dispatched. The model
  follows the code.

## Model

| member | source | states |
|---|---|---|
| `Sse.FeedAppend` | packages/model-gateway/src/adapters/sse.ts:131-190 | feeding is a homomorphism: from any state, `a + b` gives the frames, final state and overflow of `a` then `b`, for a cut anywhere, also inside CRLF |
| `Sse.ChunkIndependence` | packages/model-gateway/src/adapters/sse.ts:131-190 | only the concatenation of the chunks matters |
| `Sse.FeedInv` | packages/model-gateway/src/adapters/sse.ts:95-190 | every reachable state: the buffered tail has no LF, a CR only as its last byte, and frame bytes plus tail stay within the bound |
| `SseReference.FeedIsRead` | packages/model-gateway/src/adapters/sse.ts:49-190 | from any line boundary the parser agrees with a reading of all bytes at once into lines (LF, CRLF or CR), frames and field values: same frames, same end, and failure exactly where that reading has an undecodable line or an oversized frame |
| `SseReference.ParserIsReference` | packages/model-gateway/src/adapters/sse.ts:131-312 | for every input the dispatched frames are those of the one-shot reading, up to the first oversized one; the parser fails if and only if a line cannot be decoded or a complete or unfinished frame is too large |
| `SseReference.OverflowExactlyWhen` | packages/model-gateway/src/adapters/sse.ts:165-190 | with a decoder that decodes every line: overflow if and only if a frame of the reference line split, measured by its lines and terminators, exceeds the limit |
| `SseParser.FindLineEnd` | packages/model-gateway/src/adapters/sse.ts:49-77 | finds the first terminator, treats CRLF as one, and holds back a CR at the end of an unfinished buffer |
| `SseParser.SseFrameParser.FramesFrom` | packages/model-gateway/src/adapters/sse.ts:131-190 | the cursor loop over a chunk returns the frames, and leaves the state, of the byte machine; `ok` is false exactly on overflow |
| `SseParser.SseFrameParser.AtEnd` | packages/model-gateway/src/adapters/sse.ts:193-237 | the tail becomes the last line; an open frame or a dangling decoder is a truncation |
| `SseParser.SseFrameParser.Consume` | packages/model-gateway/src/adapters/sse.ts:251-287 | one line does to the fields what the byte machine does when it closes that line |
| `SseRoundTrip.FrameRoundTrip` | packages/model-gateway/src/adapters/sse.ts:251-312 | one printed frame, comments and CRLF or LF per line included, comes back as its meaning and leaves a fresh parser |
| `SseRoundTrip.SseRoundTrip` | packages/model-gateway/src/adapters/sse.ts:131-312 | printed frames, each within the limit, come back exactly for every chunking, and the end of the input is no truncation |
| `SseReference.FieldSplits` | packages/model-gateway/src/adapters/sse.ts:251-270 | a line is split at its first colon, one space behind it is dropped, and a line without a colon is a name |
| `SseReference.RetryReadBack` | packages/model-gateway/src/adapters/sse.ts:79-81 | the decimal text of a number is read as that delay |
| `StreamRuntime.DecodeFrameStream` | packages/model-gateway/src/adapters/stream-runtime.ts:152-267 | the nested loops with their polls emit the undisturbed trace, cut where the cancellation takes effect |
| `StreamRuntime.TraceChunkIndependence` | packages/model-gateway/src/adapters/stream-runtime.ts:164-266 | without an abort the events depend on the concatenation of the chunks only, the final error and the bytes never parsed included |
| `StreamRuntime.SameBytesSameEvents` | packages/model-gateway/src/adapters/stream-runtime.ts:164-266 | two deliveries of the same bytes, aborted after the same number of events, look the same |
| `StreamRuntime.TraceIsRun` | packages/model-gateway/src/adapters/stream-runtime.ts:164-266 | the trace is the events of the frames in all bytes together, and if none ends the decoding, what the end of the source calls for: a truncation, `gateway_error` for an exception, `aborted` for an abort during a read |
| `StreamRuntime.ObservedShape` | packages/model-gateway/src/adapters/stream-runtime.ts:152-267 | every source and every abort: exactly one terminal event, at the end |
| `Cancellation.UnpolledIsLateFlush` | packages/model-gateway/src/adapters/stream-runtime.ts:229-262 | an error is raised without a poll exactly when the end of the input flushed a frame with events and the decoder then reports a truncation |
| `Cancellation.AbortCutsExactlyWhen` | packages/model-gateway/src/adapters/stream-runtime.ts:164-266 | an abort after `n` events cuts the trace there if and only if it does not fall on such a flush |
| `Cancellation.EveryAbortCuts` | packages/model-gateway/src/adapters/stream-runtime.ts:164-266 | for both decoders: if the input does not end in a CR (or the last byte of a byte order mark), every abort cuts the trace where it comes |
| `Cancellation.AbortLostOnLastFrame` | packages/model-gateway/src/adapters/stream-runtime.ts:229-262 | for every stream whose last frame is closed by a final CR and does not end the decoding: an abort on that frame's last event is reported as a protocol error, in every chunking |
| `Cancellation.AbortLost` | packages/model-gateway/src/adapters/stream-runtime.ts:229-262 | a concrete OpenAI stream of one text chunk on which that happens |
| `AnthropicStream.AnthropicDecoder.Handle` | packages/model-gateway/src/adapters/anthropic-stream.ts:378-405 | one frame changes the decoder's fields and emits events as the specification says, or throws |
| `AnthropicStream.DecoderWellBehaved` | packages/model-gateway/src/adapters/anthropic-stream.ts:362-422 | a frame ends the decoding exactly when its last event, and no other, is terminal |
| `AnthropicReassembly.RunLinked` | packages/model-gateway/src/adapters/anthropic-stream.ts:110-269 | the open block and the finished calls of an index are determined by that index's own messages, whatever is interleaved |
| `AnthropicReassembly.StopReassembles` | packages/model-gateway/src/adapters/anthropic-stream.ts:309-345 | at `message_stop` one call per opened tool block, in non-decreasing index, with distinct ids, each input read from the block's own fragments in arrival order |
| `AnthropicReassembly.InterleavingInvariance` | packages/model-gateway/src/adapters/anthropic-stream.ts:177-345 | two interleavings of the same per-index messages that both stop emit the same calls |
| `AnthropicInterleaving.AcceptedByIndex` | packages/model-gateway/src/adapters/anthropic-stream.ts:110-269 | the messages of blocks are accepted if and only if each index accepts its own and no id is used at two indices, and then a block is what its own messages make |
| `AnthropicInterleaving.InterleavingsMeet` | packages/model-gateway/src/adapters/anthropic-stream.ts:77-345 | behind a `message_start`, one interleaving is accepted if and only if another is; they lead to the same state and the same sorted calls, and each emits its text in order of arrival |
| `AnthropicReassembly.CutInvariance` | packages/model-gateway/src/adapters/anthropic-stream.ts:177-345 | two streams whose messages agree at every index once argument fragments are glued emit the same calls |
| `AnthropicReassembly.RunEmitsTexts` | packages/model-gateway/src/adapters/anthropic-stream.ts:177-233 | before the stop exactly the non-empty text pieces are emitted, in order |
| `AnthropicGrammar.AcceptedExactlyWhen` | packages/model-gateway/src/adapters/anthropic-stream.ts:77-345 | a stream is accepted if and only if every message fits those before it: the block it belongs to, its kind, byte limits and ids, and for `message_stop` all blocks closed and "end_turn" or "tool_use" as the last stop reason given |
| `AnthropicGrammar.CompletedExactlyWhen` | packages/model-gateway/src/adapters/anthropic-stream.ts:309-405 | any frames: `completed` is emitted if and only if all messages fit up to a `message_stop` |
| `AnthropicGrammar.StopCounts` | packages/model-gateway/src/adapters/anthropic-stream.ts:309-345 | behind the calls the stop emits the usage, if and only if both counts were given, the output count being the last one given |
| `OpenAIStream.OpenAIDecoder.ApplyToolCallDelta` | packages/model-gateway/src/adapters/openai-chat-stream.ts:76-142 | one fragment updates its own entry only, and contradictions and oversized arguments are refused |
| `OpenAIStream.OpenAIDecoder.EmitCalls` | packages/model-gateway/src/adapters/openai-chat-stream.ts:196-237 | the batch is handed over whole, in sorted order, or not at all |
| `OpenAIStream.OpenAIDecoder.Handle` | packages/model-gateway/src/adapters/openai-chat-stream.ts:367-392 | one frame changes the decoder's fields and emits events as the specification says, or throws |
| `OpenAIStream.DecoderWellBehaved` | packages/model-gateway/src/adapters/openai-chat-stream.ts:353-408 | a frame ends the decoding exactly when its last event, and no other, is terminal |
| `OpenAIBatch.DeltasFromOwn` | packages/model-gateway/src/adapters/openai-chat-stream.ts:76-142 | whatever the interleaving, an entry holds the id, name and glued arguments of its own fragments |
| `OpenAIBatch.AfterFinish` | packages/model-gateway/src/adapters/openai-chat-stream.ts:264-392 | in every stream, accepted or not: behind the frame that sets the finish reason come only usage events and at most one terminal event, at the end; while the stream goes on, no text, call or second finish is accepted |
| `OpenAIBatch.ToolBatch` | packages/model-gateway/src/adapters/openai-chat-stream.ts:196-392 | in every stream, accepted or not: no call is emitted unless a chunk finished with `tool_calls` is accepted, and then one batch, all or none: one call for every index mentioned, in strictly increasing index, with distinct ids and the arguments of their own fragments |
| `OpenAIBatch.AcceptedByIndex` | packages/model-gateway/src/adapters/openai-chat-stream.ts:76-142 | fragments are accepted if and only if each index accepts its own, and an entry is what its own fragments make |
| `OpenAIBatch.InterleavingInvariance` | packages/model-gateway/src/adapters/openai-chat-stream.ts:76-237 | two interleavings of the same fragments are both refused, or emit the same calls |
| `OpenAIGrammar.AcceptedExactlyWhen` | packages/model-gateway/src/adapters/openai-chat-stream.ts:76-351 | a stream is accepted if and only if every chunk fits those before it: the fragments of each call agree on id and name and stay within the limit, nothing but usage follows a finish reason, and that is "stop" without a fragment or "tool_calls" with fragments that make a batch |
| `OpenAIGrammar.CompletedExactlyWhen` | packages/model-gateway/src/adapters/openai-chat-stream.ts:239-392 | any frames: `completed` is emitted if and only if all chunks fit up to `[DONE]` and one of them gave a finish reason |
| `OpenAIGrammar.RunSays` | packages/model-gateway/src/adapters/openai-chat-stream.ts:144-336 | besides the calls exactly the texts of the chunks, and the counts that came in pairs, are emitted in order |
| `ProtocolAgreement.AnthropicDecodes` | packages/model-gateway/src/adapters/anthropic-stream.ts:77-345 | any response of texts and tool calls, printed as Anthropic messages with its blocks in any interleaving, decodes to its events |
| `ProtocolAgreement.OpenAIDecodes` | packages/model-gateway/src/adapters/openai-chat-stream.ts:144-351 | the same response, printed as OpenAI chunks, decodes to the same events |
| `WireAgreement.MessageReadBack` | packages/model-gateway/src/adapters/anthropic-stream.ts:69-361 | reading a printed Anthropic message gives the message back |
| `WireAgreement.ChunkReadBack` | packages/model-gateway/src/adapters/openai-chat-stream.ts:144-392 | reading a printed OpenAI chunk gives the chunk back |
| `FrameSpelling.ReadExactlyWhen` | packages/model-gateway/src/adapters/anthropic-stream.ts:69-405 | a JSON object is read as an Anthropic message if and only if it has that message's fields, of the right kinds; counts of cached tokens must be zero, and error types map to their codes |
| `FrameSpelling.ChunkReadExactlyWhen` | packages/model-gateway/src/adapters/openai-chat-stream.ts:62-392 | a JSON object is read as an OpenAI chunk if and only if it has that chunk's fields, of the right kinds, with at most one choice and nothing the decoder would have to drop |
| `WireAgreement.ProtocolsAgree` | packages/model-gateway/src/adapters/stream-runtime.ts:152-267 | the same response over either wire, its Anthropic blocks in any interleaving, its arguments cut in any two ways, as bytes in any chunking, with any bytes and any end behind it and under any abort, is seen as the same events |
| `Gateway.BackoffGrows` | packages/model-gateway/src/resilience.ts:119-123 | waiting never gets shorter from one retry to the next |
| `Gateway.RunAttempt` | packages/model-gateway/src/resilient-routed-gateway.ts:128-160 | the event loop surfaces an attempt, or reports its first error as retryable while nothing was shown |
| `Gateway.Stream` | packages/model-gateway/src/resilient-routed-gateway.ts:82-167 | the nested loops emit, request and wait exactly as the specification says |
| `Gateway.AttemptsAreBounded` | packages/model-gateway/src/resilient-routed-gateway.ts:100-166 | attempts run in candidate order within both limits, and the waiting adds up to at most `(maxTotalAttempts - 1) * maxBackoffMs` |
| `Gateway.CommitsToOneAttempt` | packages/model-gateway/src/resilient-routed-gateway.ts:100-166 | the output is one attempt's output; every earlier request was answered by a single retryable error, so none starts after a visible event |
| `Failover.RetriedExactlyWhen` | packages/model-gateway/src/resilient-routed-gateway.ts:100-166 | an answer that begins with a retryable `rate_limited` or `upstream_unavailable` is followed by another request unless `maxTotalAttempts` is reached, the last candidate has had its last attempt, or the caller aborted and is told so; any other answer is the last, and a gateway that gives up repeats the last one; retries wait as their attempt calls for, and nothing is sent once the caller has aborted |
| `Failover.RefusedBeforeAsking` | packages/model-gateway/src/resilient-routed-gateway.ts:82-100 | after an abort, or for a route that does not resolve, nobody is asked and one error says why, in both gateways |
| `Failover.BackoffDoubles` | packages/model-gateway/src/resilience.ts:119-123 | the first wait is the initial one, and each next wait twice the one before, up to the maximum |
| `Failover.AttemptTransientExactlyWhen` | packages/model-gateway/src/candidate-attempt.ts:226-280 | an attempt can be retried exactly after 429, one of six temporary statuses or a broken connection, or when the decoded stream begins so; it reports `aborted` exactly when the caller aborted it |
| `Gateway.RefinesSingleShot` | packages/model-gateway/src/routed-http-gateway.ts:66-85 | without fallbacks and with one attempt the resilient gateway emits what the single-shot gateway emits |
| `Pipeline.ObservedGood` | packages/model-gateway/src/adapters/stream-runtime.ts:152-267 | an invariant of a decoder's states carries over to every event the consumer sees |
| `Pipeline.AnthropicSound` | packages/model-gateway/src/adapters/anthropic-stream.ts:110-345 | every tool input the Anthropic decoder emits is an object, and its errors are canonical |
| `Pipeline.OpenAISound` | packages/model-gateway/src/adapters/openai-chat-stream.ts:196-262 | every tool input the OpenAI decoder emits is an object, and its errors are canonical |
| `Pipeline.AnswersGood` | packages/model-gateway/src/candidate-attempt.ts:226-280 | whatever bytes the servers send, the attempts satisfy what the gateway's lemmas assume |
| `Pipeline.GatewayOutputGood` | packages/model-gateway/src/resilient-routed-gateway.ts:82-167 | the gateway over arbitrary servers emits one terminal event, canonical errors and object inputs |
| `FirstAnswer.FirstAnswerIsHeard` | packages/model-gateway/src/candidate-attempt.ts:226-280 | a first candidate that answers, in whichever of the two protocols its provider speaks and in any chunks, costs one request, and the gateway passes on exactly the events of the response |
| `Pipeline.ConversationsStayWellFormed` | packages/agent-runtime/src/agent-loop.ts:470-706 | from the bytes up: any servers, tools and aborts; a conversation that starts with an accepted request sends accepted requests only and ends in one terminal event |
| `Requests.ValidateAgentMessages` | packages/agent-contracts/src/contracts.ts:140-226 | the loop over a growing set accepts exactly the histories whose calls are new and whose results refer back |
| `Requests.AssertToolCorrelation` | packages/model-gateway/src/adapters/request-validation.ts:116-161 | the loop over pending and settled ids accepts exactly the correlated histories |
| `HistoryRules.CheckedExactlyWhen` | packages/agent-contracts/src/contracts.ts:140-226 | the check accepts a history if and only if no message is empty, every call is usable with an id no earlier call has, and every result refers to an earlier call |
| `HistoryRules.CorrelatedExactlyWhen` | packages/model-gateway/src/adapters/request-validation.ts:116-161 | among valid histories of the right shape it accepts exactly those whose Chat Completions form answers every call once before anything else is said |
| `HistoryRules.CorrelatedAsksOnce` | packages/model-gateway/src/adapters/request-validation.ts:116-161 | in any history whose calls correlate no id is asked with twice, and every id is either pending or settled |
| `Requests.NextRequestAccepted` | packages/agent-runtime/src/agent-loop.ts:637-702 | a request extended by a turn's calls and their answers is accepted if and only if the calls are objects |
| `AgentLoop.CollectToolCallIds` | packages/agent-runtime/src/agent-loop.ts:159-175 | collects exactly the call ids of the history |
| `AgentLoop.ReadModel` | packages/agent-runtime/src/agent-loop.ts:508-589 | reads a turn up to its end, an unusable call, an error or an abort |
| `AgentLoop.ExecuteBatch` | packages/agent-runtime/src/agent-loop.ts:651-695 | runs a batch serially, with the abort checks before, around and during each tool |
| `AgentLoop.RunLoop` | packages/agent-runtime/src/agent-loop.ts:470-707 | the turn loop emits, requests and executes as specified, and the yield behind the loop is unreachable |
| `LoopProperties.HistoryPreserved` | packages/agent-runtime/src/agent-loop.ts:492-702 | if the caller's request is accepted, so is every request the loop builds |
| `LoopProperties.RunWithinBudget` | packages/agent-runtime/src/agent-loop.ts:492-706 | at most `maxTurns` requests and `(maxTurns - 1) * maxToolCallsPerTurn` executions; no call id is executed twice or taken from the history |
| `LoopProperties.CoreTrace` | packages/agent-core/src/agent-core.ts:161-191 | the core answers an invalid request by one error; otherwise it names the route first and passes every event on, with an unknown error code or an exception turned into `gateway_error`; so it ends in one terminal event if and only if the gateway does, or throws before any |
| `LoopProperties.RunTrace` | packages/agent-runtime/src/agent-loop.ts:470-706 | one terminal event, at the end; turns follow each other in order; and no tool is started before the calls of its turn |
| `ToolDiscipline.ToolsRunOnlyWhenAccepted` | packages/agent-runtime/src/agent-loop.ts:611-695 | the tools started in a turn are, in order, the first calls announced in it; before the first one all its calls and its completion were announced, the batch is within the limit, there is a further turn and an executor, and all tools are known; the tools invoked are those started, but for a last one an abort came before |
| `LoopEnding.EndsExactlyWhen` | packages/agent-runtime/src/agent-loop.ts:590-634 | unless an abort, a gateway error or an unusable call cut the run short, it ends in `loop_completed` if and only if its last turn was completed without a call, and in each of the five other errors if and only if that fault is the first that applies; a batch without a fault is run, and every earlier turn had one whose calls were all started and answered in order |
| `LoopRelay.TurnsRelayAnswers` | packages/agent-runtime/src/agent-loop.ts:508-601 | a run nobody aborts: every turn passes the answer to its request on, event by event, up to the first error, malformed call or repeated id; that fault is the last event of the run, under its own code, and nothing else cuts a run short |
| `LoopAborts.AbortCutsTheRun` | packages/agent-runtime/src/agent-loop.ts:483-694 | under any signal a run is the undisturbed run cut exactly in front of the first event before which a question about the signal is answered with yes; its requests and executions are prefixes of the undisturbed ones |
| `LoopInvocations.InvokedExactlyWhen` | packages/agent-runtime/src/agent-loop.ts:346-372 | the executor is invoked for every tool reported as done, and for one more exactly when that was started last and the question about the signal in front of its invocation was answered with no |
| `LoopHistory.HistoryIsTheTrace` | packages/agent-runtime/src/agent-loop.ts:492-702 | every request's history can be told from the caller's history, the text and calls announced in each turn, and the classified result of each execution, in order |
| `LoopHistory.OutcomesAreReported` | packages/agent-runtime/src/agent-loop.ts:317-346 | the tools reported as done are those executed, in order, each failed if and only if its answer is unusable, too large or flagged; only an abort leaves the last one out |
| `LoopHistory.AssistantSays` | packages/agent-runtime/src/agent-loop.ts:637-649 | the assistant message of a turn holds its text in one block in front, if there is any, and its calls in order |
| `LoopHistory.ResultSays` | packages/agent-runtime/src/agent-loop.ts:317-346 | a result block has the executor's content, or one fixed text when that is unusable or too large, and an error flag exactly when the tool failed |
| `Encoders.EncodeContent` | packages/model-gateway/src/adapters/anthropic-request.ts:25-56 | merging runs of text with a pending buffer gives the blocks of the specification |
| `Encoders.EncodeAnthropicMessages` | packages/model-gateway/src/adapters/anthropic-request.ts:103-125 | the grouping loop gives the specified groups and system text |
| `Encoders.GroupsKeepOrder` | packages/model-gateway/src/adapters/anthropic-request.ts:103-125 | groups strictly alternate roles and flatten to the encoded messages in order |
| `Encoders.AnthropicAdjacency` | packages/model-gateway/src/adapters/anthropic-request.ts:103-125 | for an accepted request the calls of each group are answered, each exactly once, at the start of the next |
| `Encoders.EncodeChatMessages` | packages/model-gateway/src/adapters/openai-chat-request.ts:77-106 | the message loop gives the specified chat messages |
| `Encoders.OpenAIAdjacency` | packages/model-gateway/src/adapters/openai-chat-request.ts:77-106 | for an accepted request every call is answered by one tool message right after its own message |
| `WireMeaning.AnthropicKeepsMeaning` | packages/model-gateway/src/adapters/anthropic-request.ts:24-125 | the Anthropic body has the history's characters by speaker, calls and results, in the same order |
| `WireMeaning.OpenAIKeepsMeaning` | packages/model-gateway/src/adapters/openai-chat-request.ts:17-106 | the OpenAI body, read back, has them too, with the text of a message first and an absent error flag as false |
| `WireMeaning.TextsAreMerged` | packages/model-gateway/src/adapters/anthropic-request.ts:23-53 | in an encoded message no two texts stand next to each other |
| `WireMeaning.NullContentExactlyWhen` | packages/model-gateway/src/adapters/openai-chat-request.ts:77-96 | an assistant message is sent with null content if and only if it has no text block, and otherwise with its text |
| `EventMapper.MapAgentLoopEvents` | packages/agent-backend/src/events.ts:21-100 | the loop with its stashed completion maps as specified |
| `EventMapper.MapsToShownThenFinal` | packages/agent-backend/src/events.ts:21-100 | the shown events in order, then one terminal event: no completion of a middle turn leaks |
| `EventMapper.BackendTrace` | packages/agent-backend/src/events.ts:21-100 | every run of the loop is mapped to its route, texts, calls and usage in their order, and then to one terminal event: the run's own error, or a completion |
| `TurnDelivery.Turn.Emit` | packages/local-agent-api/src/server.ts:737-747 | an event is stored and written, or neither once a terminal one went out |
| `TurnDelivery.Turn.Handle` | packages/local-agent-api/src/server.ts:700-847 | stored events, written lines and final status are those of the specification, for every runner and abort |
| `TurnDelivery.DeliveredTurn` | packages/local-agent-api/src/server.ts:757-847 | a runner with one terminal event is delivered whole or cut by one `aborted`; the status says what the last event says |
| `TurnDelivery.StatusExactlyWhen` | packages/local-agent-api/src/server.ts:800-846 | any runner, end and abort: the session is cancelled if and only if the last event is an error that says "aborted", failed if and only if it is another error, and completed if and only if it is a completion or the stream just stopped |
| `TurnDelivery.DeliveredExactly` | packages/local-agent-api/src/server.ts:757-846 | any runner: the events up to the first terminal one, or up to the abort and one `aborted`, or all of them with one `runner_error` behind them if the stream throws |
| `TurnDelivery.EndsWithoutTerminal` | packages/local-agent-api/src/server.ts:822-826 | for any runner: the response lacks a terminal line exactly when the stream just stops, and is then reported as completed |
| `NdjsonClient.ParseNdjsonStream` | packages/local-agent-client/src/ndjson.ts:81-153 | the loop over chunks and lines parses as specified, with every limit checked where the source checks it |
| `NdjsonClient.AcceptedIsOneShot` | packages/local-agent-client/src/ndjson.ts:81-153 | an accepted stream gives the events of its text, however it was cut |
| `NdjsonClient.OneShotExactlyWhen` | packages/local-agent-client/src/ndjson.ts:98-149 | read at once, a text is accepted if and only if it ends in a line feed, all its lines that are not blank are within the limit and hold valid events, and the last of them and no other is terminal; then the events are their values |
| `NdjsonClient.AcceptedHoweverCut` | packages/local-agent-client/src/ndjson.ts:107-127 | a text is accepted in every chunking if and only if it is accepted at once, is within the total, and no unfinished line in it exceeds the limit |
| `NdjsonClient.RefusalDependsOnCut` | packages/local-agent-client/src/ndjson.ts:119-127 | a line of exactly the limit ended by CR LF is read in one chunk, and refused when the LF comes alone |
| `NdjsonClient.FittingIsRead` | packages/local-agent-client/src/ndjson.ts:107-153 | a text whose unfinished lines fit is read to the same result in any chunks, refused or not |
| `NdjsonClient.ClientReads` | packages/local-agent-client/src/ndjson.ts:81-153 | what is written one event per line is read in full from any chunks if every event passes the field checks and the last is terminal, and otherwise up to the first one that does not pass |
| `EventJson.ValidExactlyWhen` | packages/local-agent-client/src/ndjson.ts:177-244 | of all events the server can write, the client's field checks refuse exactly the tool calls whose input is not an object |
| `EventJson.FieldsSay` | packages/local-agent-api/src/server.ts:737-747 | every part of an event is found in its JSON under its own name |
| `TurnToClient.TurnReachesClient` | packages/local-agent-api/src/server.ts:730-846 | from the loop to the client: all stored events are read, from any chunks, if and only if every delivered call has an object input; otherwise those before the first other call are; the last stored event agrees with the session's status |
| `TurnToClient.OwnGatewayReachesClient` | packages/local-agent-api/src/server.ts:730-846 | with this program's gateway, whatever the servers send, the turn reaches the client |
| `TurnToClient.ArrayCallIsRefused` | packages/agent-runtime/src/agent-loop.ts:292-312 | a gateway that calls a tool with an array: three events are stored, one is read, and the response is refused |
| `TurnToClient.SilentEndIsRefused` | packages/local-agent-api/src/server.ts:822-826 | a runner that stops after one text: stored as completed, refused by the client |
| `BodyReader.BodyReader.Fill` | apps/desktop/src-tauri/src/proxy.rs:153-168 | a read moves bytes from the socket to the buffer and changes nothing else |
| `BodyReader.BodyReader.ReadLine` | apps/desktop/src-tauri/src/proxy.rs:183-197 | a line is the bytes up to the first CRLF of everything pending; without one the read fails |
| `BodyReader.BodyReader.NextPiece` | apps/desktop/src-tauri/src/proxy.rs:210-284 | under all three framings a piece is the next part of what the pending bytes carry; `total` counts the bytes delivered and stays within the limit |
| `BodyReader.BodyReader.ReadToEnd` | apps/desktop/src-tauri/src/proxy.rs:286-292 | the body read is the one all the bytes carry together; an error says that they carry none, or one with an overlong header line; with segments of one byte it is read if and only if the strict reading exists, and while all but the last segment is within the limit if and only if the lenient one does |
| `BodyReader.ReadSized` | apps/desktop/src-tauri/src/proxy.rs:210-292 | a body of a given length: its first bytes, if and only if they are all there and allowed, for every segmentation and whatever follows |
| `BodyReader.ReadUntilClosed` | apps/desktop/src-tauri/src/proxy.rs:210-292 | a body that ends with the connection: all bytes, if and only if it was closed and not broken, and they are within the limit |
| `BodyReader.StrictIsLenient` | apps/desktop/src-tauri/src/proxy.rs:183-197 | what is readable under every segmentation is read the same without the limit on header lines |
| `BodyReader.FoundEarly` | apps/desktop/src-tauri/src/proxy.rs:185-189 | a line end found in the buffer is the first one of the whole input, and one not found there needs more bytes |
| `ChunkedCoding.ChunksReadBack` | apps/desktop/src-tauri/src/proxy.rs:233-282 | a body printed as in section 7.1 of RFC 9112, with extensions, trailers and bytes behind it, reads back exactly if it is within the limit, and for the strict reading has short header lines only; otherwise it is refused |
| `ChunkedCoding.ReadChunkedBody` | apps/desktop/src-tauri/src/proxy.rs:122-293 | the reader returns such a body with short header lines exactly, or refuses it exactly when it exceeds the limit, for every segmentation |
| `ChunkedCoding.ReadByteByByte` | apps/desktop/src-tauri/src/proxy.rs:122-293 | any bytes, in segments of one: the body is read if and only if the strict reading exists, and then it is that |
| `ChunkedCoding.ReadArriving` | apps/desktop/src-tauri/src/proxy.rs:122-293 | any bytes of which all but the last segment is within the header limit: the body is read if and only if the lenient reading exists, and then it is that |
| `ChunkedCoding.LongHeaderTwoWays` | apps/desktop/src-tauri/src/proxy.rs:183-197 | one body with a chunk extension of the header limit is read in full segments and refused byte by byte |
| `ChunkGrammar.ReadExactlyWhen` | apps/desktop/src-tauri/src/proxy.rs:233-282 | bytes are read as a body, long header lines aside, if and only if they are made of chunks whose header lines give the sizes of their data, a last header of size zero, trailer lines and a blank line, and the body, which is their data, is within the limit |
| `ChunkGrammar.SizeExactlyWhen` | apps/desktop/src-tauri/src/proxy.rs:250-256 | a size is read if and only if it is at least one hexadecimal digit, behind at most one plus sign, and fits a machine word |
| `NdjsonReader.NdjsonReader.NextEvent` | apps/desktop/src-tauri/src/proxy.rs:762-798 | the next event is the first one of the text, from pieces of the body in order; an error says that the body holds none, or one in a line that is refused under some cutting; a body that arrives piece by piece gives exactly what its pieces say |
| `EventCuts.ReadHoweverCut` | apps/desktop/src-tauri/src/proxy.rs:762-798 | the next event of a text is refused under no cutting into pieces if and only if the strict reading does not refuse it |
| `EventCuts.SomeCutRefuses` | apps/desktop/src-tauri/src/proxy.rs:762-798 | for a text that the strict reading refuses, the cutting that refuses it |
| `EventCuts.LongEventTwoWays` | apps/desktop/src-tauri/src/proxy.rs:762-798 | a line just below the limit with a piece's worth behind it: the reader gives its event when the line end comes alone, and refuses it when it comes with the rest |
| `NdjsonReader.NextExactlyWhen` | apps/desktop/src-tauri/src/proxy.rs:762-798 | the next event of a text is `e` if and only if the text is blank lines, then a line that reads as `e`, ended by LF or CR LF, then the rest; there is none exactly in a blank text; long lines aside |
| `NdjsonReader.LaterText` | apps/desktop/src-tauri/src/proxy.rs:762-798 | an event that has arrived is not changed by what arrives after it |
| `NdjsonReader.BlankSkipped` | apps/desktop/src-tauri/src/proxy.rs:765-772 | blank lines are never seen |
| `TurnReader.ReadTurn` | apps/desktop/src-tauri/src/proxy.rs:864-917 | the worker's loop gives the events of the text up to the first terminal one, for every body that is whole and readable however it is cut |
| `TurnReader.ReadChunkedTurn` | apps/desktop/src-tauri/src/proxy.rs:762-917 | the events a server writes, in chunks and segments of any sizes, come back exactly, with the end they have |
| `Registry.InMemoryProviderRegistry.Put` | packages/provider-registry/src/registry.ts:111-171 | registering and updating a route change the map as specified, or report the first problem and change nothing |
| `Registry.InMemoryProviderRegistry.Update` | packages/provider-registry/src/registry.ts:72-88 | replaces a known provider unless a route that refers to it would lose its model; a refusal changes nothing |
| `Registry.InMemoryProviderRegistry.Resolve` | packages/provider-registry/src/registry.ts:220-265 | the loop collects the enabled candidates in order, or the first error |
| `Registry.FallbackErrorMeaning` | packages/provider-registry/src/types.ts:280-310 | the loop over a fallback list finds nothing wrong exactly when its ids are well-formed, distinct and not the primary's |
| `Registry.AppliesExactlyWhen` | packages/provider-registry/src/registry.ts:64-178 | an operation is accepted if and only if carrying it out unchecked would leave all references intact and puts no enabled route on a disabled primary; then that is what it does |
| `Registry.RefusalIsTrue` | packages/provider-registry/src/registry.ts:64-178 | the error of a refused operation names a fault that is there |
| `Registry.OpsKeepIntegrity` | packages/provider-registry/src/registry.ts:64-178 | every operation keeps primaries and fallbacks present and serving |
| `Registry.ReachableIntegrity` | packages/provider-registry/src/registry.ts:64-178 | from a registry with intact references every sequence of operations keeps them |
| `Registry.BuiltIntegrity` | packages/provider-registry/src/registry.ts:60-178 | every registry built from the empty one has intact references |
| `Registry.SoleCandidate` | packages/provider-registry/src/registry.ts:189-265 | without fallbacks the candidates are the one resolved route, and fail exactly when it does |
| `Registry.ResolvesExactlyWhen` | packages/provider-registry/src/registry.ts:220-265 | a route of a reachable registry resolves unless it is unknown, disabled, or all its providers are, each with its own error and no other; it resolves to its enabled providers, the primary first and the fallbacks in their order, each with the route's id and model and the provider's own id, protocol, address and credential reference |
| `Snapshot.CreateSnapshot` | packages/local-persistence/src/snapshot.ts:184-200 | the snapshot is a function of the registry's maps, whatever their insertion order |
| `Snapshot.ValidateSnapshot` | packages/local-persistence/src/snapshot.ts:258-335 | the loops over growing indexes accept exactly the well-formed, linked and live snapshots |
| `Snapshot.CreateRegistry` | packages/local-persistence/src/snapshot.ts:337-361 | an accepted snapshot is rebuilt completely, and no registration in it can fail |
| `Snapshot.SnapshotRoundTrip` | packages/local-persistence/src/snapshot.ts:184-361 | rebuilding from a snapshot gives the registry's maps back |
| `Snapshot.AcceptedExactlyWhen` | packages/local-persistence/src/snapshot.ts:258-335 | a registry's snapshot is accepted exactly when no enabled route has a disabled primary and references are safe |
| `ConfigManager.Manager.Restore` | apps/local-agent-host/src/config-manager.ts:219-235 | clearing routes then providers and refilling providers then routes never fails half-way and gives exactly the snapshot |
| `ConfigManager.Manager.Mutate` | apps/local-agent-host/src/config-manager.ts:78-217 | one operation with its persist and rollback does what the specification says to registry and store |
| `ConfigManager.StoreFollowsRegistry` | apps/local-agent-host/src/config-manager.ts:78-247 | with a validating store, for every operation sequence and pattern of write failures the registry stays what was last stored, and no restore fails |
| `ConfigManager.FailureChangesNothing` | apps/local-agent-host/src/config-manager.ts:78-247 | a failed operation of such a run leaves every entry as it was |
| `ConfigManager.DoneExactlyWhen` | apps/local-agent-host/src/config-manager.ts:78-217 | from a registry that can be written an operation is done if and only if carrying it out keeps the references, puts no enabled route on a disabled primary, and is saved; then registry and store hold its result, and otherwise both are unchanged |
| `ConfigManager.HarmIsExact` | packages/provider-registry/src/registry.ts:64-178 | from a registry that can be written, an accepted operation leads to one that cannot if and only if it disables the primary of an enabled route or sets a reference that looks secret |
| `ConfigManager.RestoreFailsExactlyWhen` | apps/local-agent-host/src/config-manager.ts:78-247 | over whole runs and for any store: some restore fails if and only if some operation fails while the registry cannot be written |
| `ConfigManager.HarmlessRunsAreSafe` | apps/local-agent-host/src/config-manager.ts:78-247 | with any store, a run without such operations keeps registry and store equal, and no restore in it fails |
| `ConfigManager.HarmLosesTheNextRollback` | apps/local-agent-host/src/config-manager.ts:78-247 | with a store that does not validate, after such an operation the next failing operation loses its rollback |
| `ConfigManager.RollbackLost` | apps/local-agent-host/src/config-manager.ts:78-235 | a run of four operations from the empty registry: the last deletion is reported as failed, the store still has the route, and the registry does not |

## Left out

- `StreamRuntime.DecodeFrameStream`: the decoder is a record of functions over a state value, not an object; that the decoder classes compute those functions is stated by their own methods. Consumer-side `throw` and `return` on the generator are not modelled.
- `SseParser.SseFrameParser.FramesFrom`: returns the frames of a chunk at once with a flag for the overflow behind them, where the source is a generator; the driver looks at the flag only after the frames.
- `SseRoundTrip.SseRoundTrip`: does not cover bare CR as a line end inside printed frames (a bare CR before an empty line ended by LF reads as CRLF); `SseReference.ParserIsReference` covers every input.
- `AnthropicStream.AnthropicDecoder.Handle`: a frame is read into a message before it is applied; all failures throw the same error, so the order of the checks is not visible and not modelled.
- `OpenAIStream.OpenAIDecoder.Handle`: a frame is read into a chunk before it is applied, for the same reason.
- `Gateway.CommitsToOneAttempt`: assumes that every attempt ends in one terminal event with canonical errors; `Pipeline.AnswersGood` proves it for the attempts of this gateway.
- `AnthropicReassembly.InterleavingInvariance`: assumes that both streams stop; `AnthropicInterleaving.InterleavingsMeet` has acceptance too, for streams whose blocks follow the `message_start` without pings or early usage between them.
- `LoopProperties.CoreTrace`: the several codes of a request that fails validation are one.
- `TurnReader.ReadTurn`: says nothing about a body that breaks off; `NdjsonReader.NdjsonReader.NextEvent` does, event by event. Rewriting of errors and the hand-over to the window are left out.
- `LoopProperties.HistoryPreserved`: assumes that tool inputs are objects, as a foreign gateway need not grant; `Pipeline.ConversationsStayWellFormed` has it without the assumption.
- `SseReference.RetryReadBack`: a delay is an unbounded number; the rounding of very long digit strings is not modelled.
- `Gateway.BackoffGrows`: delays are natural numbers; the floating-point corner of a very large retry index is not modelled.
- `AgentLoop.RunLoop`: the request id on loop events, error message texts and deep copies are not modelled; a `failed` step of the model iterator is left out because the core never throws.
- `TurnDelivery.Turn.Handle`: one turn at a time; the check for a busy session is separated from the registration by an await, so at most one active turn per session does not hold for interleaved requests. The request body and a store that throws are not modelled.
- `NdjsonClient.ParseNdjsonStream`: a chunk is its size and its decoded text, so invalid UTF-8 is not modelled, and neither is an abort of the client.
- `BodyReader.BodyReader.NextPiece`: the response headers are read before the model starts; timeouts are read failures.
- `NdjsonReader.NdjsonReader.NextEvent`: UTF-8, JSON and the Rust field checks of an event are one function parameter.
- `Registry.InMemoryProviderRegistry.Put`: map insertion order is not modelled (snapshots are sorted); field patterns and URL rules are predicates.
- `Snapshot.ValidateSnapshot`: accepts or refuses; the several error codes of a refusal are not told apart, and the schema version and unknown fields are not modelled.
- `ConfigManager.Manager.Mutate`: the promise queue is modelled as sequential operations, and a snapshot requested in the middle of an operation is left out.
- The `finish` of both frame decoders is only the protocol error it always is.
- The governed tool executor, HTTP headers, credentials, encryption, provider discovery, the file session store, the memory store, the sidecar supervisor, configuration routes, the desktop bridge and the UI are left out: single-branch checks, library calls, or smaller versions of arguments made here.
