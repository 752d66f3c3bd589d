# Stream route turn loop, modelled in Dafny

This project models the streaming chat route of a Next.js application,
`src/app/api/stream/route.ts`. The route holds a multi-turn conversation with a language
model that can call tools. `processMessages` loops over turns. Each turn sends the initial
messages plus every message generated so far to the model. It relays each streamed content
block start or delta to the browser as a `streaming_message` frame. It logs the final
assistant message and sends it as a `full_message` frame. When the model stops for
`tool_use`, the route runs every requested tool through the tool handler lookup and logs the
`user` message that holds the `tool_result` blocks. It sends that message as a
`full_message` frame and takes another turn. `POST` wraps the loop: whatever the loop throws
becomes one `{type: 'error', message}` frame, and then the stream is closed on every path.

Two collaborators are abstracted:
- **The language model** is a finite script of turns (`LanguageModel.ScriptedModel`). Each
  scripted response is a list of stream chunks (a `type` and an optional delta text) and an
  outcome. The outcome is either a final message (its content blocks and stop reason) or a
  service fault. A fault may come after some chunks were already streamed. When the script
  runs out, the next request gets a service fault (`ExhaustedMessage`). This is how the
  loop, which has no bound in the code, is made to terminate. The model client keeps a log
  of the requests it received.
- **The tool registry** is a map from tool name to what executing the tool does: return an
  output that is already serialised, or throw an error with a message.

The browser side is `EventStream.StreamController`: the frames enqueued so far and whether
the stream is closed. Enqueueing to a closed stream or closing it twice requires an open
stream, so "closed exactly once" is checked by the verifier.

Structure:
- `wrappers.dfy` holds `Option` and `Result`.
- `messages.dfy` holds content blocks and messages.
- `language_model.dfy` holds chunks, scripted turns, requests and the scripted model client.
- `event_stream.dfy` holds frames, the stream controller and `SendEventToBrowser`.
- `transcoder.dfy` relays chunks as `streaming_message` frames. It has the `for await`
  loop, `ForwardChunks`.
- `tools.dfy` has the `tool_use` filter, the tool-result specification and the dispatch
  `for` loop, `DispatchTools`.
- `turn_loop.dfy` holds the specification of a run (`TurnStep` for one turn, `Process`
  for the whole loop, `Transcript` for what the browser receives). It also holds the
  imperative code: `TakeTurn` is one pass of the `do … while` body, `ProcessMessages` is the
  loop, and `Post` is the fault boundary.
- `turn_loop_properties.dfy` proves properties of every run.
- `scenarios.dfy` works through concrete conversations.

The code and the service's design description disagree in one place: a tool name with no
handler. The design says such a call should be answered with an error-bearing tool result
and the loop should go on. The code throws `No handler found for tool <name>`
(route.ts:66-69), so the whole run ends with an `error` frame. The model follows the code
(`Tools.ToolResultsFailAtFirstMissingHandler`, `Scenarios.UnknownToolAborts`).

## Model

| member | source | states |
|---|---|---|
| `Transcoder.StreamingFrames` | src/app/api/stream/route.ts:38-43 | relaying a stream yields at most one frame per chunk, and every frame is a `streaming_message` frame whose data is text |
| `Transcoder.StreamingFramesFollowRelayedChunks` | src/app/api/stream/route.ts:38-43 | there is exactly one `streaming_message` frame per `content_block_start`/`content_block_delta` chunk, in stream order, carrying that chunk's delta text, or `''` when there is none |
| `Transcoder.StreamingFramesAppend` | src/app/api/stream/route.ts:38-43 | relaying goes chunk by chunk: the frames of a concatenated stream are the frames of its first part followed by those of its second part |
| `Transcoder.UnrelayedChunksSendNothing` | src/app/api/stream/route.ts:40-42 | chunks of any other kind send nothing |
| `Transcoder.ForwardChunks` | src/app/api/stream/route.ts:38-43 | the `for await` loop appends exactly the relayed frames to the stream and leaves it open |
| `EventStream.SendEventToBrowser` | src/app/api/stream/route.ts:34-36 | a normal event is enqueued as the single frame `{type, data}` |
| `EventStream.StreamController.Enqueue` | src/app/api/stream/route.ts:35 | enqueueing appends one frame and retracts nothing; it needs an open stream |
| `EventStream.StreamController.Close` | src/app/api/stream/route.ts:107-111 | closing keeps every frame and needs a stream that is not closed yet, so it happens at most once |
| `LanguageModel.ScriptedModel.Stream` | src/app/api/stream/route.ts:26-32 | each turn logs one request (the messages, 4096 max tokens, the fixed model name) and gets the next scripted response, or a service fault once the script is exhausted |
| `Tools.ToolUses` | src/app/api/stream/route.ts:57 | the picked calls are exactly the `tool_use` blocks of the response, no more than its length |
| `Tools.ToolUsesAppend` | src/app/api/stream/route.ts:57 | the filter keeps the order of the blocks |
| `Tools.ToolResults` | src/app/api/stream/route.ts:63-86 | when dispatch succeeds it yields one result block per call |
| `Tools.ToolResultsSucceedIffAllHandled` | src/app/api/stream/route.ts:64-86 | dispatch succeeds if and only if every called tool has a handler, whatever the tools do when executed, so a throwing tool never aborts it |
| `Tools.ToolResultsCorrespond` | src/app/api/stream/route.ts:71-85 | result i belongs to call i: its `tool_use_id` is the call's id and its content is the tool's serialised output, or the error payload for that tool |
| `Tools.ThrowingToolIsReported` | src/app/api/stream/route.ts:78-85 | a tool that throws is answered with the payload `Error executing tool <name>: <message>` |
| `Tools.ToolResultsFailAtFirstMissingHandler` | src/app/api/stream/route.ts:64-69 | dispatch fails with `No handler found for tool <name>` for the first call, in order, whose tool has no handler |
| `Tools.DispatchTools` | src/app/api/stream/route.ts:63-86 | the `for` loop that looks up, runs and pushes each result returns exactly the dispatch specification |
| `TurnLoop.TurnStep` | src/app/api/stream/route.ts:38-93 | a turn whose stream faults always throws |
| `TurnLoop.TakeTurn` | src/app/api/stream/route.ts:26-93 | one pass of the loop body sends exactly the frames of the turn, logs exactly its messages, makes one request with the whole log and consumes one scripted response |
| `TurnLoop.ProcessMessages` | src/app/api/stream/route.ts:20-96 | the `do … while` loop sends the frames, makes the requests and throws the error of the specification run `Process`, starting from an empty log |
| `TurnLoop.Post` | src/app/api/stream/route.ts:102-114 | the stream receives the loop's frames and then one `error` frame if the loop threw, and it ends up closed |
| `TurnLoopProperties.TurnVerdict` | src/app/api/stream/route.ts:55-69 | a turn goes on if and only if it stopped for `tool_use`, has at least one `tool_use` block and every tool has a handler. It finishes normally if and only if it stopped for another reason. A stream fault or a `tool_use` stop without blocks throws, with their messages |
| `TurnLoopProperties.TurnStepShape` | src/app/api/stream/route.ts:38-93 | a turn sends its relayed chunks, then one `full_message` with the assistant message holding the final content, then (when it goes on) one `full_message` with the `user` tool-result message answering the `tool_use` blocks. Every `full_message` carries exactly the message it logs; a turn that stops logs no tool-result message |
| `TurnLoopProperties.LogOnlyGrows` | src/app/api/stream/route.ts:22-52 | the generated-message log only grows by appending: what was logged before is a prefix of what is logged after |
| `TurnLoopProperties.EveryRequestCarriesTheWholeLog` | src/app/api/stream/route.ts:26-28 | the request of turn k is exactly the initial messages followed by the log as it stood after the k turns before it |
| `TurnLoopProperties.FullMessagesMirrorLog` | src/app/api/stream/route.ts:52-93 | the `full_message` frames carry, in order, exactly the messages the run appends to the log |
| `TurnLoopProperties.AssistantEntriesHoldFinalContent` | src/app/api/stream/route.ts:45-52 | entry 2j of the appended log is the assistant message with turn j's final content |
| `TurnLoopProperties.ToolResultsAnswerToolUses` | src/app/api/stream/route.ts:63-92 | entry 2j+1 of the appended log is a `user` message whose `tool_result` ids match the preceding assistant message's `tool_use` ids one to one, in order |
| `TurnLoopProperties.RunStopsAtFirstTurnThatDoesNotContinue` | src/app/api/stream/route.ts:55-95 | every turn but the last went on and the last did not. The run throws exactly when the last turn throws, with its message. The log holds two messages per earlier turn plus the last turn's, and the rest of the script is left unread |
| `TurnLoopProperties.NormalEndIffNonToolStop` | src/app/api/stream/route.ts:55-56 | a run ends without an error if and only if its last response is final and stopped for a reason other than `tool_use` |
| `TurnLoopProperties.LoopSendsNoErrorFrame` | src/app/api/stream/route.ts:34-36 | the loop sends only `{type, data}` frames of type `streaming_message` or `full_message` |
| `TurnLoopProperties.ErrorFrameOnlyAtTheEnd` | src/app/api/stream/route.ts:105-112 | the browser gets the loop's frames unchanged, then at most one `error` frame. That frame is present exactly when the loop threw, is last, and carries the thrown message |
| `Scenarios.PlainAnswer` | src/app/api/stream/route.ts:38-56 | a text answer with `end_turn` sends its deltas and one `full_message`, with no tool dispatch and one request |
| `Scenarios.ToolRoundTrip` | src/app/api/stream/route.ts:55-95 | a `lookup` call is answered under id `t1` with the tool's output, and the second request carries the assistant and tool-result messages |
| `Scenarios.ToolUseStopWithoutBlocks` | src/app/api/stream/route.ts:59-61 | a `tool_use` stop without blocks sends one `error` frame and makes no second request |
| `Scenarios.UnknownToolAborts` | src/app/api/stream/route.ts:66-69 | a tool without a handler ends the run with `No handler found for tool lookup` and no tool-result message |
| `Scenarios.ThrowingToolContinues` | src/app/api/stream/route.ts:78-85 | a throwing tool is answered with `Error executing tool lookup: boom` and the next turn starts |
| `Scenarios.ServiceFaultKeepsStreamedText` | src/app/api/stream/route.ts:105-111 | text streamed before a service fault stays sent, followed by one `error` frame |

## Left out

- The SDK client, network calls and real async iteration: the model is a finite script, and
  running out of it is a service fault. The code's loop has no turn bound and none is added.
- The system prompt and the tool catalog (`toolDefinitions()`) that each request also
  carries: both are opaque, so a request records only the messages, `max_tokens` and the
  model name.
- The concrete tools and `@/lib/tools`: a handler's behaviour is one outcome per tool name,
  whatever its input. What a tool does to the outside world is not modelled. This includes
  the tools that already ran in a turn whose later call has no handler.
- `JSON.stringify` and the server-sent-event framing `data: …\n\n`: a frame is the object
  before serialisation, and tool outputs are taken as already serialised strings.
- A thrown value that is not an `Error`, so that `error.message` is undefined: every fault
  here carries a message string.
- Faults from `toolDefinitions()` or from the handler lookup itself, and a fault of
  `controller.enqueue` after the client went away: client disconnection, cancellation and
  concurrency are outside this model.
- HTTP headers, request body parsing and `console.error` logging (route.ts:98-100, 109,
  116-122).
- `src/app/layout.tsx` (UI layout) and `src/tools/add_note/tool.ts` (a database insert).
  The second one's "throws when the insert fails" behaviour is covered by a tool outcome
  that throws.
