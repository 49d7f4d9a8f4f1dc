# Verified model of the proxy's stream pipeline, the Hermes lease protocol and three small cores

This project models three parts of the repository in Dafny and proves properties of
them that hold for every input, every run or every reachable state.

**The Anthropic stream pipeline.** Events are values of one datatype. The repository's own
executable specification of a stream, the assertions of `assert_anthropic_stream_contract`,
is the predicate `StreamContract.Contract`; `ContractMeaning.dfy` says of the events alone what
it demands. Every producer of streams is proved against it:

- the OpenAI transport with its `SSEBuilder` (`SseBuilder.dfy`, `OpenAiTransport.dfy`,
  `TransportObject.dfy`, `TransportContract.dfy`), which also has to announce every tool as it
  came (`TransportBlocks.dfy`), to pass its arguments on (`TransportTools.dfy`), to say all the
  text there is (`TransportTranscript.dfy`, `TransportText.dfy`) and to keep blocks apart
  (`TransportOrder.dfy`);
- the native block policy (`NativePolicy*.dfy`), which also has to preserve content;
- the tracker that completes a broken stream (`EmittedTracker.dfy`).

`ThinkTags.dfy` relates the incremental think-tag parser to one scan of the whole text.
`Conversion*.dfy` and `Converter.dfy` treat the reverse direction, from Anthropic messages
to OpenAI messages; `ConversionText.dfy` says what comes out of every message. Framing is the blank-line subset of sections 9.2.5 and 9.2.6 of the
WHATWG HTML Living Standard.

**The Hermes lease protocol.** `LeaseState.dfy` gives the Controller's tables and its
operations as functions, `Controller.dfy` the Controller as an object proved equal to them,
`Worker.dfy` the daemon with its memory and state file, and `Protocol.dfy` both of them
joined by a network that loses, delays, reorders and duplicates. `LeaseInvariants.dfy`,
`LeaseTheorems.dfy`, `LeaseOutcomes.dfy` and `ProtocolTheorems.dfy` hold what is true of every
history, `LeaseOutcomes.dfy` also what each operation writes, field by field.

**Algorithmic cores.** `RateLimit.dfy`, `MessageQueue.dfy`, `FormatNumber.dfy` (with
`Arithmetic.dfy`) and `Ranking.dfy`.

Each stateful component appears twice: as a function on values, about which the lemmas
speak, and as a class whose methods are proved to compute that function.

Where a property does not hold of the code as it stands, the code is kept, the exact
condition is proved, and a lemma, or the condition itself, names an input that fails:

- The block policy breaks the contract exactly when it drops every block of a stream
  (`PolicyKeepsContract`, `DroppingAllBreaksContract`).
- It loses text exactly when text arrives for a block whose start it dropped, which the
  contract never allows (`TextUnchangedExactlyWhen`, `TextLostInDroppedBlock`).
- It numbers downstream starts 0, 1, 2, ... exactly when every start that names no block
  type, which passes unchanged, happens to carry the next number and no segment is allocated
  after it (`StartsNumberedExactlyWhen`, `UntypedStartBreaksNumbers`).
- A response that fails after a tool block has started ends with a top-level error event, so
  it satisfies the contract only with error events allowed (`ResponseSatisfiesContract`,
  `BrokenToolFailsStrictContract`).
- Among tools without argument aliases, one whose name reads `Task` while arguments are passed
  on may lose them: all arguments arrive exactly when those passed on as Task make an object
  that encodes to themselves, or in a freak of braces, and they arrive as the same pieces
  exactly when at most one such piece is an object of that kind. A tool that ends as Task gets
  exactly one delta if and only if all its pieces, or its only piece, are passed on as Task
  (`UnaliasedToolArguments`, `SplitNameLosesArguments`, `SplitTaskGetsTwoDeltas`).
- A conversation that answers one tool call too many in the message with the last
  outstanding answer repeats the deferred assistant text (`DeferredOnceExactlyWhen`,
  `ExtraAnswerRepeats`).
- A task may declare a gate with an empty name. A job waiting on it can be neither approved
  nor rejected (`WaitingJobCanBeDecided`, `EmptyGateIsStuck`); no daemon reports such a gate,
  so under the daemons every waiting job can be decided (`EveryWaitCanBeDecided`).
- A result that gate policy rewrote is reported stale, not recognised, when it is delivered
  again (`RedeliveryIsRecognised`, `RewrittenResultIsStale`); the worker's own envelopes are
  never rewritten (`SentIsNeverRefused`).

A run whose lease has expired but has not been reconciled still accepts its result
(`SentIsNeverRefused`).

## Model

| member | source | states |
|---|---|---|
| `StreamContract.CheckContract` | proxy/core/anthropic/stream_contracts.py:97-162 | The assertion loop succeeds exactly on the streams of `Contract`: contains message_start, ends with message_stop, no index reused, every delta to an open block of its kind, nothing left open, at least one block |
| `StreamContract.AllowingErrorsIsWeaker` | proxy/core/anthropic/stream_contracts.py:97-120 | A stream accepted without error events is accepted, in the same state, with them allowed |
| `ContractMeaning.ContractMeans` | proxy/core/anthropic/stream_contracts.py:97-162 | The loop accepts a stream if and only if, said of its events alone: every start has an allowed type and an index never started before, every delta finds its block started, not yet stopped and of its kind, every stop such a block, in the end none is left so, and there was one |
| `NativePolicy.NativeSseBlockPolicyState.SyntheticCloseOtherOpenBlocks` | proxy/core/anthropic/native_sse_block_policy.py:129-150 | The loop over the open segments computes the specification's closing events and state |
| `NativePolicy.NativeSseBlockPolicyState.AllocateNewSegment` | proxy/core/anthropic/native_sse_block_policy.py:153-169 | Takes the next index and makes it the live segment of the upstream block |
| `NativePolicy.NativeSseBlockPolicyState.TransformDelta` | proxy/core/anthropic/native_sse_block_policy.py:213-289 | The delta branch with its reopening of closed blocks, state and events |
| `NativePolicy.NativeSseBlockPolicyState.TransformEvent` | proxy/core/anthropic/native_sse_block_policy.py:172-313 | One event transformed in place: new state and events sent are those of the policy as a function |
| `NativePolicyTheorems.RunKeepsRel` | proxy/core/anthropic/native_sse_block_policy.py:172-313 | For every accepted upstream prefix, interleaved in any way, the policy's table and the downstream scan stay in simulation, so every delta hits an open block of its kind |
| `NativePolicyTheorems.StartsNumberedExactlyWhen` | proxy/core/anthropic/native_sse_block_policy.py:153-212 | For any upstream whatever: the starts sent are numbered 0, 1, 2, ... in order if and only if every start without a block type carries the number of starts sent before it and no segment is allocated after it |
| `NativePolicyTheorems.StartsAreConsecutive` | proxy/core/anthropic/native_sse_block_policy.py:153-169 | The starts sent are 0, 1, 2, ... and as many as segments were allocated if and only if every start that came in names a block type |
| `NativePolicyTheorems.UntypedStartBreaksNumbers` | proxy/core/anthropic/native_sse_block_policy.py:204-205 | The input that shows the exception: one start of index 5 without a block type |
| `NativePolicyTheorems.NothingLeftOpen` | proxy/core/anthropic/native_sse_block_policy.py:291-311 | Once all upstream blocks have been stopped, no downstream block is open |
| `NativePolicyTheorems.StartRepairsOverlap` | proxy/core/anthropic/native_sse_block_policy.py:129-150 | After an upstream start that is kept, exactly the new block is open downstream |
| `NativePolicyTheorems.PolicyKeepsContract` | proxy/core/anthropic/native_sse_block_policy.py:172-313 | A contract-valid stream comes out contract-valid if and only if some block of it is kept |
| `NativePolicyTheorems.DroppingAllBreaksContract` | proxy/core/anthropic/native_sse_block_policy.py:196-199 | The stream that shows the exception: one thinking block, thinking disabled |
| `NativePolicyTheorems.PolicyKeepsContractWithThinking` | proxy/core/anthropic/native_sse_block_policy.py:121-126 | With thinking enabled the contract is always kept |
| `NativePolicyContent.TextUnchangedWithThinking` | proxy/core/anthropic/native_sse_block_policy.py:188-311 | With thinking enabled, output text equals input text for every stream |
| `NativePolicyContent.TextUnchangedExactlyWhen` | proxy/core/anthropic/native_sse_block_policy.py:188-311 | For every stream, output text equals input text if and only if no text delta with content comes for an index after a start of that index that the thinking setting drops |
| `NativePolicyContent.TextUnchanged` | proxy/core/anthropic/native_sse_block_policy.py:188-311 | So with thinking on or off text is unchanged for every stream the contract has not rejected |
| `NativePolicyContent.ThinkingUnchangedOrAbsent` | proxy/core/anthropic/native_sse_block_policy.py:188-311 | Output thinking equals input thinking, or is empty when thinking is disabled, for every stream |
| `NativePolicyContent.TextLostInDroppedBlock` | proxy/core/anthropic/native_sse_block_policy.py:196-224 | The input that shows why the contract is needed: text inside a dropped thinking block disappears |
| `NativePolicyContent.BlockDeltasUnchanged` | proxy/core/anthropic/native_sse_block_policy.py:213-289 | The deltas of an upstream block, over all segments it was split into, are unchanged and in order; a dropped block sends none |
| `NativePolicyBlocks.BlocksAreAnnounced` | proxy/core/anthropic/native_sse_block_policy.py:84-118 | For every stream the contract has not rejected and every upstream index: a kept block is first announced with the very block it came with and each time it is reopened with the same kind, a tool with the same name and input and its id, or one made from the index if it has none, text and thinking empty; nothing is announced for a dropped block |
| `NativePolicyBlocks.StartsHaveOwners` | proxy/core/anthropic/native_sse_block_policy.py:153-212 | Every start sent belongs to an upstream index |
| `NativePolicyBlocks.OrphanDeltaOpens` | proxy/core/anthropic/native_sse_block_policy.py:262-289 | A text or tool delta without a block, which the contract rejects, opens one at the next index and is sent to it |
| `NativePolicyBlocks.StraysPass` | proxy/core/anthropic/native_sse_block_policy.py:288-311 | Any other delta without a block, and a stop without one, passes unchanged, except thinking that is disabled and stops while it is |
| `NativePolicyBlocks.ThinkingIsKeptOut` | proxy/core/anthropic/native_sse_block_policy.py:121-126 | With thinking disabled, nothing sent for a stream the contract has not rejected starts a thinking block or is thinking |
| `NativePolicyBlocks.OthersPass` | proxy/core/anthropic/native_sse_block_policy.py:172-187 | Events that are not about blocks pass, all, unchanged and in order |
| `NativePolicyContent.SequentialUnchanged` | proxy/core/anthropic/native_sse_block_policy.py:172-313 | A sequential stream numbered 0, 1, 2, ... comes out unchanged with thinking on |
| `ThinkTags.ThinkTagParser.ParseOutsideThink` | proxy/core/anthropic/thinking.py:58-99 | One step outside thinking, with both fields and the chunk |
| `ThinkTags.ThinkTagParser.ParseInsideThink` | proxy/core/anthropic/thinking.py:101-129 | One step inside thinking |
| `ThinkTags.ThinkTagParser.Feed` | proxy/core/anthropic/thinking.py:42-56 | The feed loop, chunks and new buffer and mode |
| `ThinkTags.ThinkTagParser.Flush` | proxy/core/anthropic/thinking.py:131-140 | What is left over becomes one chunk of the current kind |
| `ThinkTags.ParserMatchesReference` | proxy/core/anthropic/thinking.py:42-140 | Feeding any fragmentation and flushing yields the typed characters and final mode of a leftmost-tag scan of the whole text, and putting the removed tags back restores the text |
| `ThinkTags.FragmentationIsInvisible` | proxy/core/anthropic/thinking.py:23-56 | Two ways of cutting the same text give the same typed characters and mode |
| `ThinkTags.FeedHolds` | proxy/core/anthropic/thinking.py:66-99 | What a feed holds back is empty or a proper prefix of a tag that matters in the mode |
| `SseBuilding.SseBuilder.DoStartToolBlock` | proxy/core/anthropic/sse.py:311-325 | Start of a tool block: index, tool state and event |
| `SseBuilding.SseBuilder.DoRegisterToolName` | proxy/core/anthropic/sse.py:93-109 | Merging of name fragments |
| `SseBuilding.SseBuilder.DoBufferTaskArgs` | proxy/core/anthropic/sse.py:111-126 | Task arguments are buffered until they parse, then sent once |
| `SseBuilding.SseBuilder.DoFlushTaskArgBuffers` | proxy/core/anthropic/sse.py:132-158 | The final flush of Task buffers, in order of the tool states |
| `SseBuilding.SseBuilder.DoEnsureTextBlock` | proxy/core/anthropic/sse.py:344-348 | Closes thinking and opens text when needed |
| `SseBuilding.SseBuilder.DoCloseAllBlocks` | proxy/core/anthropic/sse.py:356-360 | Closes text, thinking and every started tool block |
| `SseBuilding.SseBuilder.DoEmitError` | proxy/core/anthropic/sse.py:362-366 | An error as a text block of its own |
| `TransportObject.ResponseStream.EmitToolArgDelta` | proxy/providers/openai_compat.py:187-225 | Arguments sent, aliased or buffered for Task, state and events |
| `TransportObject.ResponseStream.DoProcessToolCall` | proxy/providers/openai_compat.py:227-289 | One tool delta: id, name, block start, held arguments |
| `TransportObject.ResponseStream.DoFlushAliases` | proxy/providers/openai_compat.py:296-318 | The flush of aliased arguments over a snapshot of the buffers |
| `TransportObject.ResponseStream.IterHeuristicToolUse` | proxy/providers/openai_compat.py:35-56 | Tool uses found by the heuristic parser, each opened and closed at once |
| `TransportObject.StreamResponseImpl` | proxy/providers/openai_compat.py:335-556 | The whole generator emits the events of `StreamResponse`, for chunks that end normally or break off |
| `TransportContract.ProcessChunksGood` | proxy/providers/openai_compat.py:375-455 | After any number of chunks the builder's flags and tool states account for exactly the open blocks |
| `TransportContract.ResponseSatisfiesContract` | proxy/providers/openai_compat.py:335-556 | Every response, for any heuristic parser and any failure between chunks, satisfies the contract with starts 0, 1, 2, ...; the strict contract exactly unless it failed after a tool block |
| `TransportContract.BrokenToolFailsStrictContract` | proxy/providers/openai_compat.py:457-482 | The response that shows the exception: one tool call, then the upstream breaks |
| `TransportContract.ResponseIsFaithful` | proxy/core/anthropic/sse.py:327-332 | The deltas of a started tool's block are exactly the pieces recorded for the tool |
| `TransportBlocks.ToolIsAnnounced` | proxy/providers/openai_compat.py:227-261 | Every response, however it ends: a tool block starts exactly when the merged name of the tool's own deltas is not blank, exactly once at the tool's index, with that name stripped, the last non-empty id given by then or one made from the tool's number, and empty input |
| `TransportBlocks.HeuristicToolsAnnounced` | proxy/providers/openai_compat.py:35-56 | Every tool the heuristic parser finds is sent as a block of its own, in order: a start with its id and name, one delta with its input, a stop |
| `TransportTranscript.ResponseTranscript` | proxy/providers/openai_compat.py:375-540 | For every heuristic parser and any interleaving: all text, thinking and heuristic tools of a response, in order, as a function of its chunks, with what the parsers held back and the blank at a normal end, or the error text at a broken one; the log of tool deltas is that of the chunks with negative indices resolved to the number of tools so far |
| `TransportTranscript.ResponseEnds` | proxy/providers/openai_compat.py:481-482 | Every response begins with message_start and ends with message_delta and message_stop; the stop reason is that of the last finish reason, or end_turn after a failure |
| `TransportTranscript.FailureIsReported` | proxy/providers/openai_compat.py:472-482 | A response that fails closes its blocks and then sends the message: as a top-level error after a tool block, else as the text of a block of its own |
| `TransportOrder.BlocksComeInTurn` | proxy/core/anthropic/sse.py:283-354 | Every response, however it ends: a block is started empty, with an id only for a tool, and only when no text or thinking is open, so that of these at most one is open at any time and none while a tool is announced |
| `TransportOrder.ClosingSays` | proxy/core/anthropic/sse.py:350-360 | Closing stops thinking, text and then every started tool, in the order the tools came in |
| `TransportTools.LogIsComplete` | proxy/providers/openai_compat.py:227-240 | The tool deltas processed are those of the chunks, all and in order, each at its own index unless that is negative |
| `TransportTools.FragmentsAreConserved` | proxy/providers/openai_compat.py:255-289 | The pieces passed on for a tool and what is still held back concatenate to all its argument fragments, in order; nothing is held once its merged name is not blank |
| `TransportTools.ToolStandsAlone` | proxy/providers/openai_compat.py:227-318 | In a response that ends normally, what is sent for a tool is a function of that tool's own deltas, however they interleave with text and other tools; its block starts exactly if the merged name is not blank |
| `TransportTools.UnaliasedToolArguments` | proxy/providers/openai_compat.py:187-318 | For every tool without aliased pieces, in however many parts its name arrives: the pieces passed on as Task are one stretch, the first object they make takes their place or {} comes last; how many deltas that makes; and exactly when these are the pieces, and all the arguments |
| `TransportTools.PlainToolArguments` | proxy/providers/openai_compat.py:187-294 | In particular a tool whose merged name is neither Task nor aliased whenever a piece is passed on gets JSON deltas that are its pieces and concatenate to all its arguments |
| `TransportTools.SplitNameLosesArguments` | proxy/providers/openai_compat.py:187-225 | The input that shows why: a name that begins as Task and grows to TaskCreate; the arguments of the first part are replaced by {} |
| `TransportTools.SplitTaskGetsTwoDeltas` | proxy/providers/openai_compat.py:187-225 | The input Ta, sk: a tool that ends as Task and gets two deltas |
| `TransportTools.TaskToolArguments` | proxy/core/anthropic/sse.py:111-158 | In particular a tool called Task whenever a piece is passed on gets exactly one JSON delta if it has arguments: the re-encoding of the first prefix of its pieces that parses as an object, or {} if none does; otherwise none |
| `TransportTools.TaskFlushNeverRaises` | proxy/core/anthropic/sse.py:132-158 | The final flush meets only buffers that are no JSON, so it cannot raise and sends {} for each |
| `TransportText.ResponseText` | proxy/providers/openai_compat.py:375-540 | With a heuristic parser that finds no tools, a response that ends normally sends as text what one scan of all the content leaves outside think tags, with a blank where there would be none, and as thinking all the reasoning and all inside the tags in order of arrival, or none if it is disabled |
| `TransportText.ReasoningThenScan` | proxy/providers/openai_compat.py:390-425 | If the reasoning fields come before the content, that thinking is the fields and then what the scan of all the content finds inside think tags |
| `EmittedTracker.EmittedNativeSseTracker.Feed` | proxy/core/anthropic/emitted_sse_tracker.py:24-36 | Splits the buffer at blank lines, observes each frame and keeps the rest; raises at the first start or stop without an integer index, with exactly the events before it observed |
| `EmittedTracker.EmittedNativeSseTracker.ObserveEvent` | proxy/core/anthropic/emitted_sse_tracker.py:38-62 | Updates the stack of open blocks and the greatest index, or raises for a start or stop without an integer index |
| `EmittedTracker.EmittedNativeSseTracker.IterCloseUnclosedBlocks` | proxy/core/anthropic/emitted_sse_tracker.py:68-75 | Sends a stop for every open block, last opened first, and leaves none |
| `EmittedTracker.EmittedNativeSseTracker.IterMidstreamErrorTail` | proxy/core/anthropic/emitted_sse_tracker.py:77-97 | The error block at a new index and the end of the message |
| `EmittedTracker.EmittedNativeSseTracker.CompleteBroken` | proxy/providers/anthropic_messages.py:400-408 | The two calls in turn send exactly the tail that completes the stream |
| `EmittedTracker.TailCompletes` | proxy/core/anthropic/emitted_sse_tracker.py:64-97 | A broken stream with the tail appended satisfies the contract if and only if the contract had not rejected it yet and it contains message_start; the error index was never used |
| `EmittedTracker.TailSays` | proxy/core/anthropic/emitted_sse_tracker.py:68-97 | The tail event by event: a stop for each open block, last opened first, the message as text of a block at the next index, and the end of the message |
| `EmittedTracker.EveryPrefixCompletes` | proxy/core/anthropic/emitted_sse_tracker.py:68-97 | In particular for every such prefix of a contract-valid stream |
| `EmittedTracker.ChunksObserveText` | proxy/core/anthropic/emitted_sse_tracker.py:24-36 | Chunk boundaries do not matter: the tracker has observed the complete frames of the text and holds the rest |
| `EmittedTracker.BrokenStreamCompletes` | proxy/core/anthropic/emitted_sse_tracker.py:24-97 | Frames cut into any chunks, broken off after a whole frame and completed, are contract-valid, and the tracker never raises on them |
| `EmittedTracker.PolicyThenTailCompletes` | proxy/core/anthropic/native_sse_block_policy.py:172-313 | A contract-valid upstream cut anywhere after message_start, run through the policy and completed by the tracker, is contract-valid |
| `Converter.ConvertMessages` | proxy/core/anthropic/conversion.py:164-279 | The loop over messages, with its pending record, computes `Conversion.Convert` |
| `Converter.ConvertAssistantBlocks` | proxy/core/anthropic/conversion.py:180-216 | An assistant block list: orphaned content first, then the split at the first tool call |
| `Converter.ConvertAssistantMessage` | proxy/core/anthropic/conversion.py:338-396 | Text, thinking and tool calls of one block list, refused exactly for forbidden blocks |
| `Converter.ConvertUserMessage` | proxy/core/anthropic/conversion.py:469-503 | Texts grouped between tool results, refused exactly for images |
| `Converter.ConvertUserMessageWithInjection` | proxy/core/anthropic/conversion.py:410-467 | The loop that replays deferred content, with the outstanding ids it leaves; the plain conversion when nothing is deferred or outstanding |
| `ConversionTheorems.AcceptedWhenConvertible` | proxy/core/anthropic/conversion.py:144-158 | A conversation is refused exactly for an image in a user list or an image or server tool block in an assistant list |
| `ConversionTheorems.ToolsAreKept` | proxy/core/anthropic/conversion.py:164-279 | Every accepted conversation keeps all tool calls and all tool results, in order |
| `ConversionText.ConversationIsSaid` | proxy/core/anthropic/conversion.py:164-503 | For every accepted conversation and every turn: exactly the messages that come directly from it, and those that were put off, as defined from its input blocks alone, text, thinking by mode, calls and reasoning, with the direct ones in order of the turns |
| `ConversionText.UserTextIsKept` | proxy/core/anthropic/conversion.py:469-503 | A user block list gives, in order, one message for each maximal run of texts between tool results, joined by line feeds, and one answer for each tool result, injection or not |
| `ConversionDeferral.DeferredIsEmitted` | proxy/core/anthropic/conversion.py:164-279 | With a single pending record, each turn's deferred content is emitted exactly as often as that turn on its own explains, and at least once |
| `ConversionDeferral.DeferredOnceExactlyWhen` | proxy/core/anthropic/conversion.py:453-462 | It appears exactly once if and only if no message answers more after giving the last outstanding answer |
| `ConversionDeferral.AnsweredOnceReplaysOnce` | proxy/core/anthropic/conversion.py:410-467 | It appears exactly once when every user message answers only outstanding ids, each once |
| `ConversionDeferral.ExtraAnswerRepeats` | proxy/core/anthropic/conversion.py:453-462 | A conversation in which it appears twice |
| `ConversionDeferral.InjectionIsInsertion` | proxy/core/anthropic/conversion.py:410-503 | Injection is the plain conversion of the message with the deferred content behind each answer that finds nothing outstanding, and nothing else |
| `ConversionDeferral.DeferredFollowsLastAnswer` | proxy/core/anthropic/conversion.py:281-336 | In any conversation, before and after: when the user messages after a tool turn answer each call exactly once before anything else, the post-tool content appears exactly once in the whole transcript, right behind the tool message with the last outstanding answer, and up to there all else is converted plainly |
| `HermesController.Controller.DoEnqueue` | hermes_controller/controller.py:351-381 | Enqueue: validation, idempotency key, table constraints |
| `HermesController.Controller.DoClaim` | hermes_controller/controller.py:383-427 | Claim: capacity, ordered query, first match, new run |
| `HermesController.Controller.DoHeartbeat` | hermes_controller/controller.py:429-437 | Renewal of exactly the live lease with its credentials |
| `HermesController.Controller.DoReconcile` | hermes_controller/controller.py:439-449 | Reclaiming expired runs one by one, in any order, equals reclaiming them at once; each is reported once |
| `HermesController.Controller.DoIngest` | hermes_controller/controller.py:451-505 | Result ingestion with every refusal and the gate rewrite |
| `HermesController.Controller.DoResolve` | hermes_controller/controller.py:627-712 | Approval and rejection with every conflict, and the checks of actor and note |
| `HermesController.Controller.FindCurrentWaiting` | hermes_controller/controller.py:714-729 | Finds the waiting run of the highest attempt |
| `LeaseOutcomes.EnqueueWrites` | hermes_controller/controller.py:351-381 | An enqueued task is a new job, queued, at attempt 0, under a free id and key, with its parent there; any other answer changes nothing |
| `LeaseOutcomes.EnqueuedExactlyWhen` | hermes_controller/controller.py:351-381 | Every answer of enqueue by its exact condition: invalid unless an explicit engine is known with its capabilities required and the integration comes exactly with its capability; already there if the key is in use, with the job that has it; queued if the key is new, the id is free and the parent is there |
| `LeaseOutcomes.ClaimWrites` | hermes_controller/controller.py:383-427 | Field by field: a claimed job was queued, fits the worker's platform, capabilities and pin, and its parent is done; the worker was below its limit; job, run and claim agree on the attempt and the credentials, the approved gates are exactly those approved, nothing else changes |
| `LeaseOutcomes.HeartbeatWrites` | hermes_controller/controller.py:429-437 | A lease is renewed exactly when run, lease and token match and it has not expired; only its end moves |
| `LeaseOutcomes.ReconcileWrites` | hermes_controller/controller.py:439-449 | Exactly the runs with an expired lease become stale and exactly their jobs are queued again or left to manual reconciliation; nothing else changes |
| `LeaseOutcomes.AcceptedExactlyWhen` | hermes_controller/controller.py:451-493 | In a reachable state a result is accepted if and only if its artifacts are valid, it carries the credentials of a running run, names the task's executor and keeps the gate rules |
| `LeaseOutcomes.AnsweredExactlyWhen` | hermes_controller/controller.py:451-499 | And every other answer by its exact condition: refused if malformed, or with the lease held but a wrong label or gate; a duplicate of the stored result; else stale |
| `LeaseOutcomes.AcceptedWrites` | hermes_controller/controller.py:476-505 | Field by field: the run and its job carry the status of the result, which is stored verbatim; a renewed request for an approved gate is stored as blocked, with its note; nothing else changes |
| `LeaseOutcomes.OtherwiseUnchanged` | hermes_controller/controller.py:455-493 | A result that is not accepted changes nothing |
| `LeaseOutcomes.RulingWrites` | hermes_controller/controller.py:627-712 | A ruling carried out is written down with decision, actor, note and source run, and the waiting job is queued again, left to manual reconciliation or cancelled |
| `LeaseOutcomes.ResolvedExactlyWhen` | hermes_controller/controller.py:627-675 | In a reachable state a ruling is carried out if and only if its actor and note are in order, the job is waiting, and the run of its current attempt asked for this gate, which has a name, and is the source run if one is given |
| `LeaseOutcomes.RuledExactlyWhen` | hermes_controller/controller.py:631-672 | And every other answer by its exact condition: an error, the row already there for a decision repeated, or else a conflict |
| `LeaseOutcomes.RulingOtherwise` | hermes_controller/controller.py:640-660 | A ruling not carried out changes nothing; one repeated gets the row written first |
| `HermesController.EnqueueIsIdempotent` | hermes_controller/controller.py:363-367 | Enqueueing under a used key only finds the same job again, after any further history |
| `LeaseInvariants.AlwaysInv` | hermes_controller/controller.py:351-712 | The invariant of jobs, runs and decisions holds in every reachable state |
| `LeaseTheorems.RunSettlesOnce` | hermes_controller/controller.py:439-505 | A run leaves RUNNING at most once; its state and result are then final |
| `LeaseTheorems.TerminalForever` | hermes_controller/controller.py:400-419 | Terminal job states are never left |
| `LeaseTheorems.ManualJobRunsOnce` | hermes_controller/controller.py:445-446 | A manual_reconcile job never gets a second run |
| `LeaseTheorems.DependencyIsDone` | hermes_controller/controller.py:400-404 | A job that has ever had a run has its parent in state DONE in every reachable state |
| `LeaseOutcomes.JobsAreExplained` | hermes_controller/controller.py:351-712 | In every reachable state every job's state says how its last run ended: queued if it never ran, or its last run lost its lease or waited for a gate that was approved, and it may be retried; running; concluded with the outcome its last run reported; to be reconciled; cancelled by a rejection |
| `LeaseOutcomes.ConcludedAsReported` | hermes_controller/controller.py:499-502 | A concluded job has a run of its current attempt that reported this outcome, with a stored result of this status |
| `LeaseOutcomes.DependencyReportedDone` | hermes_controller/controller.py:400-404 | If a job with a dependency has ever had a run, the last run of its parent reported DONE |
| `LeaseOutcomes.LeaseLastsThreeMinutes` | hermes_controller/controller.py:405-437 | In every reachable state every run's lease ends three minutes after it was last granted or renewed |
| `LeaseTheorems.RunningMeansOneLease` | hermes_controller/controller.py:405-423 | A job is RUNNING exactly when it has exactly one RUNNING run, which is its active run with the current attempt; its runs carry the attempts 1..attempt, each once |
| `LeaseTheorems.LeaseOwnerIsActive` | hermes_controller/controller.py:459-463 | Once the lease check passes, the active-attempt check cannot fail |
| `LeaseTheorems.RedeliveryIsRecognised` | hermes_controller/controller.py:455-493 | An accepted result delivered again after any later history is a duplicate, or stale exactly if gate policy had rewritten it |
| `LeaseTheorems.RewrittenResultIsStale` | hermes_controller/controller.py:480-493 | A history in which it is stale: a run asks again for an approved gate |
| `LeaseTheorems.WaitingJobCanBeDecided` | hermes_controller/controller.py:627-729 | A waiting job waits on a declared, undecided gate through the run of its current attempt; every proper ruling on it is carried out, exactly when the gate's name is not empty, and no other ruling is |
| `LeaseTheorems.EmptyGateIsStuck` | hermes_controller/controller.py:631-632 | A history after which a job waits on the empty gate and no decision is accepted |
| `LeaseTheorems.WaitsAreDistinct` | hermes_controller/controller.py:476-505 | The WAIT_USER runs of a job name pairwise distinct gates |
| `LeaseTheorems.WaitsAreFew` | hermes_controller/controller.py:476-505 | So there are at most as many as distinct declared gates |
| `LeaseTheorems.RenewableOrReclaimable` | hermes_controller/controller.py:429-449 | At every instant a RUNNING lease is either renewable or reclaimable, never both |
| `LeaseTheorems.LapsedForever` | hermes_controller/controller.py:429-449 | With a clock that does not go back, a lease that could be reclaimed is never renewable again |
| `LeaseTheorems.NeverOverCapacity` | hermes_controller/controller.py:393-399 | With such a clock and an unchanged descriptor, a worker's live leases never exceed max_concurrent_jobs |
| `LeaseTheorems.ClaimTakesOldest` | hermes_controller/controller.py:400-425 | A worker below its limit gets the oldest job it may run, and nothing only if there is none |
| `Worker.LabelsAgreeExactlyWhen` | hermes_controller/worker.py:260-264 | The worker's label for a task's executor equals the Controller's if and only if the task is an integration or its explicit engine is absent, empty or known |
| `Worker.LabelsAgree` | hermes_controller/controller.py:774-781 | So the labels agree on every task that passes the validator |
| `Worker.BuildIsSound` | hermes_controller/worker.py:402-469 | Whatever the adapter returns for a valid task, the envelope passes every check of the Controller; a result is left alone exactly when it keeps the gate and artifact rules |
| `Worker.ReportTable` | hermes_controller/worker.py:402-469 | Status, gate, artifacts and evidence of the envelope as a table over claim and adapter result: invalid artifacts make it FAILED without gate and artifacts, an improper gate request BLOCKED without gate, else the adapter's status stands, with the gate only for a proper request |
| `Worker.ReportTexts` | hermes_controller/worker.py:402-469 | Summary and evidence of the envelope: the adapter's own where the rules were kept, and otherwise with the reason for each rule that was broken |
| `Worker.DoneExactlyWhen` | hermes_controller/worker.py:449-462 | DONE is sent if and only if the adapter said DONE with valid artifacts, FAILED if and only if it said FAILED or the artifacts are invalid, WAIT_USER if and only if it asked properly with valid artifacts |
| `Worker.ReportNames` | hermes_controller/worker.py:463-469 | The envelope carries the claim's job, run, attempt, lease and token, the worker and the label of the executor |
| `Worker.ExecutorIsCapable` | hermes_controller/worker.py:260-264 | A valid task requires every capability of the executor it is labelled with |
| `Worker.RestartFindsSaved` | hermes_controller/worker.py:248-256 | Wherever a restart cuts in, it finds the claim that was saved last, and the envelope if there was one, until the file has been removed |
| `Worker.RestartFindsSent` | hermes_controller/worker.py:475-484 | An envelope that has been sent is the pending one after any restart, until the file has been removed |
| `Worker.WorkerDaemon.Record` | hermes_controller/worker.py:527 | The envelope is in the state file before it is sent |
| `Worker.WorkerDaemon.Once` | hermes_controller/worker.py:471-534 | One call performs exactly the steps of the daemon's state machine, each enabled, sends at most the envelope that is on disk, and reports the outcome |
| `Worker.OnceEnds` | hermes_controller/worker.py:471-534 | Where one call leaves memory and state file: unchanged without a claim; forgotten exactly after an answer to the envelope or a lost lease; kept with the envelope when no answer came, with the claim alone when the adapter ended in nothing |
| `Worker.ActKeepsOrder` | hermes_controller/worker.py:471-534 | Every step keeps memory and disk in the write-ahead order |
| `Protocol.IngestOfSent` | hermes_controller/controller.py:451-505 | In a safe state the Controller's answer to a sent envelope depends only on its run's state |
| `Protocol.AlwaysSafe` | hermes_controller/worker.py:471-534 | The protocol invariant holds in every state reachable by Controller, daemons, network and clock |
| `ProtocolTheorems.SentAreIdentical` | hermes_controller/worker.py:475-534 | All envelopes ever sent for one run are identical |
| `ProtocolTheorems.SentIsNeverRefused` | hermes_controller/controller.py:451-505 | A sent envelope is accepted and stored verbatim while its run is RUNNING, even past its lease, a duplicate afterwards, and stale exactly when the lease was reclaimed |
| `ProtocolTheorems.StoredWasSent` | hermes_controller/controller.py:499-502 | A stored result is an envelope that the run's own worker sent under its lease |
| `ProtocolTheorems.EveryWaitCanBeDecided` | hermes_controller/controller.py:627-729 | In every reachable state of the whole system every waiting job's gate has a name, and every proper ruling on it is carried out |
| `ProtocolTheorems.RunLeavesOnce` | hermes_controller/controller.py:439-505 | Over every run of the whole system, a run leaves RUNNING at most once |
| `ProtocolTheorems.ClaimsAreDurable` | hermes_controller/worker.py:248-256 | A claim written to disk, each write being atomic, stays there until its run has left RUNNING or its lease has run out |
| `ProtocolTheorems.ForgetsOnlyWhenSettled` | hermes_controller/worker.py:475-534 | A daemon forgets an envelope only when its run is no longer RUNNING |
| `ProtocolTheorems.RetryCannotGetStuck` | hermes_controller/worker.py:471-484 | From every reachable state, restarting, sending once more and hearing the answer frees a daemon with an envelope on disk, and settles its run |
| `RateLimit.StrictSlidingWindowLimiter.TryAcquire` | proxy/core/rate_limit.py:36-48 | The body under the lock: expiry loop, append or time to wait |
| `RateLimit.AcquisitionsAreSpaced` | proxy/core/rate_limit.py:33-53 | Acquisition i + limit comes at least a window after acquisition i |
| `RateLimit.AtMostLimitInWindow` | proxy/core/rate_limit.py:13-14 | Every half-open interval of the window's length holds at most limit acquisitions |
| `RateLimit.WaitsOnlyWhenFull` | proxy/core/rate_limit.py:43-48 | A caller is put off exactly when limit acquisitions lie within the last window, and then for a positive time |
| `RateLimit.WaitIsExact` | proxy/core/rate_limit.py:47-51 | If nobody else acquires, an attempt succeeds if and only if the time to wait has passed |
| `MessageQueue.MessagingRateLimiter.EnqueueInternalMulti` | proxy/messaging/limiter.py:217-233 | Compaction, or a new key at either end |
| `MessageQueue.MessagingRateLimiter.TakeNext` | proxy/messaging/limiter.py:98-99 | Takes the first key and its entry from list and map |
| `MessageQueue.MessagingRateLimiter.ResolveFutures` | proxy/messaging/limiter.py:112-121 | Gives the outcome to every future that is not done yet |
| `MessageQueue.AlwaysConsistent` | proxy/messaging/limiter.py:217-233 | The key list has no duplicates and lists exactly the keys of the map |
| `MessageQueue.FuturesAreConserved` | proxy/messaging/limiter.py:98-121 | Queued, in flight and served futures together are exactly those handed in, each as often |
| `MessageQueue.TakesTheLatest` | proxy/messaging/limiter.py:219-223 | The worker runs the latest function enqueued for the key, for every future handed in since the key was last taken |
| `MessageQueue.FinishSettles` | proxy/messaging/limiter.py:112-121 | Each of these futures that was not cancelled gets exactly its outcome, and no other future changes |
| `MessageQueue.SettledForever` | proxy/messaging/limiter.py:114-121 | What a future is done with never changes |
| `MessageQueue.DoneExactlyWhenServed` | proxy/messaging/limiter.py:112-121 | A future nobody cancels is done if and only if the worker has served it |
| `MessageQueue.FutureIsServedOnce` | proxy/messaging/limiter.py:98-121 | End to end: a future handed in once and not cancelled waits under its key, is in flight or has been served, exactly one of these; the function run for it is the latest enqueued for the key when it was taken, and the future gets the outcome of that very call |
| `MessageQueue.ServedInOrder` | proxy/messaging/limiter.py:229-232 | Whatever is mixed: the queue lists first the keys put in front, the last of them first, then the others in order of arrival |
| `MessageQueue.SoonerIsTakenFirst` | proxy/messaging/limiter.py:98-99 | Over any history: of two queued keys, the sooner one is taken before the other, whatever else is put in front or behind meanwhile |
| `FormatNumber.FormatNumber` | hermes_controller/brainstorm_core.py:64-80 | The loops over the denominator compute `Format` |
| `FormatNumber.FormatIsExact` | hermes_controller/brainstorm_core.py:64-80 | Reading the printed form back gives the same rational |
| `FormatNumber.FormatIsInjective` | hermes_controller/brainstorm_core.py:64-80 | Distinct rationals print differently |
| `FormatNumber.RatioExactlyWhenInfinite` | hermes_controller/brainstorm_core.py:74-75 | The printed form of a reduced fraction contains a slash if and only if no finite decimal exists |
| `FormatNumber.NoTrailingZero` | hermes_controller/brainstorm_core.py:76-80 | A decimal with places does not end in the digit 0 |
| `Ranking.ValidateRubric` | hermes_controller/brainstorm_contract.py:46-69 | The loop accepts exactly the rubrics of 3 to 10 criteria with well-formed distinct ids, labels, descriptions and weights that sum to 100 |
| `Ranking.RubricMeans` | hermes_controller/brainstorm_contract.py:46-69 | Such a rubric character by character: the id a lower-case letter and up to 31 letters, digits or underscores, title and description not blank and at most 80 and 500 long, weights 1 to 100 |
| `Ranking.Rank` | hermes_controller/brainstorm_core.py:297-331 | Ranks or refuses; the ranking is correct for its input whatever the dictionary orders |
| `Ranking.SelfPreference` | hermes_controller/brainstorm_core.py:319-323 | The difference of the means of own and other scores |
| `Ranking.SortCandidates` | hermes_controller/brainstorm_core.py:309-318 | The entries are the candidates, each once, sorted by the total tie-break |
| `Ranking.MeritsAreUnique` | hermes_controller/brainstorm_core.py:314-318 | There is only one such order |
| `Ranking.OrderHasNoInfluence` | hermes_controller/brainstorm_core.py:297-331 | Two rankings of the same input are equal, whatever order the dictionaries listed their keys in |
| `Ranking.HighConfidenceMeans` | hermes_controller/brainstorm_core.py:286-331 | HIGH means both engines gave the winner at least 70, every other candidate is at least 5 behind, and no self-preference flag |
| `Ranking.ScoresArePercentages` | hermes_controller/brainstorm_core.py:142-144 | With a valid rubric and validated scores, every model score lies in 0..100 |
| `Ranking.ScoreIsWeighted` | hermes_controller/brainstorm_core.py:142-144 | A score is a tenth of the sum of that engine's marks times their weights |
| `Ranking.OnePointMore` | hermes_controller/brainstorm_core.py:142-144 | One point more for a criterion adds its weight to that sum |
| `Ranking.EntriesSay` | hermes_controller/brainstorm_core.py:309-318 | Every entry carries its author, both scores, their mean and their distance; of two entries the earlier has the higher mean, or the smaller distance, or the smaller id |
| `Ranking.ConfidenceIs` | hermes_controller/brainstorm_core.py:286-331 | HIGH, MEDIUM, LOW and the flag by the thresholds on mean, distance, margin and self-preference |
| `Ranking.BiasIs` | hermes_controller/brainstorm_core.py:319-323 | Self-preference is the mean an engine gave its own candidates less the mean it gave the others, and absent if there are none of either |

## Left out

- TransportTools.PlainToolArguments: says nothing about tools with argument aliases, whose values pass through JSON that the model does not interpret; ToolStandsAlone covers them up to that function, and ResponseIsFaithful shows that their pieces go to the right block.
- TransportTools.UnaliasedToolArguments: assumes, as JSON has it, that {} parses as an object; JSON parsing is otherwise uninterpreted.
- TransportText.ResponseText: is about a heuristic parser that passes the text on unchanged; for any other the text is whatever that parser returns, in the places that TransportTranscript.ResponseTranscript gives.
- TransportTranscript.ResponseTranscript: is about responses in which no chunk raises; how one that fails inside a chunk ends is FailureIsReported.
- TransportTools.ToolStandsAlone: is about responses that end normally; a response that fails has sent a part of it.
- NativePolicyTheorems.PolicyKeepsContract: allows several open blocks, as the contract does; a delta that reopens a closed block does not close the others.
- NativePolicyTheorems.RunKeepsRel: an upstream index is started at most once, which the contract demands; the transformation itself is modelled without that demand.
- ConversionDeferral.DeferredFollowsLastAnswer: is about turns whose answers come in user block lists with nothing in between; DeferredIsEmitted counts emissions for all conversations.
- Converter.ConvertUserMessageWithInjection: requires of the pending record what its only constructor call establishes, that its blocks hold no tool call and nothing the conversion refuses.
- HermesController.Controller.DoEnqueue: the checks of the task validator that touch no engine, integration or capability, and the project manifest checks of an integration, are one flag of the task.
- FormatNumber.FormatIsInjective: speaks of distinct numbers; that a reduced fraction is determined by its number is a fact about fractions, not about the printing.
- Ranking.Rank: the candidate and author validators are assumed to have run; a score missing from an evaluation is a KeyError in the source and outside the model.
- ProtocolTheorems.ClaimsAreDurable: takes a write of the state file to be atomic; the source truncates the file before it writes, so a daemon killed in between would find an unreadable file.
- Protocol.AlwaysSafe: a reply to a claim is adopted at most once, as one HTTP response is read once; replies may be lost and envelopes lost, delayed, reordered and duplicated.
- Worker.WorkerDaemon.Once: is tied to the protocol model through the daemon's steps; that a reply tells the truth about the Controller is a guard of the protocol model, not of the method.
- The hook for provider-specific reasoning: no provider overrides it, so it sends nothing.
- HeuristicToolParser: an arbitrary function of the text fed so far, so the theorems hold for whatever it returns.
- JSON and string encoding of events, token counts, usage figures, message ids and logging: events are values, tool ids drawn at random are values generated from an index, JSON parsing of Task arguments is an uninterpreted function.
- Exceptions in the middle of one chunk other than a Task value that is no object, task cancellation and asyncio scheduling: failures happen between chunks and lock-protected bodies are atomic.
- Project and artifact validators and engine selection: one flag on the task and one objection on the artifacts stand for them.
- The events table, worker heartbeat times, worker authentication and SQLite itself: tables are maps and each Controller method is one step.
- Materialisation of task files in the worker: its failures are adapter results like any other.
- Clients of the Controller other than the daemons: the protocol model delivers only envelopes that a daemon sent; LeaseTheorems covers arbitrary envelopes.
- Floating-point rounding of the limiter's clock: time is a real number. Retries and pauses after flood errors in the messaging limiter are not modelled.
- The brainstorm workflow, adapters, web tools, messaging platforms, settings and the admin interface: plumbing around the modelled cores.
