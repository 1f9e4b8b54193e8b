# Verification of the proxy's core

LobsterAI-Proxy translates the Anthropic Messages API and the OpenAI Responses API to an upstream chat-completions
service. This project models its stateful core in Dafny and proves properties over every input, every run and every
reachable state.

Each component has a specification of values (functions from a state and an input to a state and an output), the
imperative form the program has (classes and methods with loops, proved equal to the specification), and theorems about
the specification:

- **Stream converters.** `ChatChunk` reduces a run of upstream chunks to elementary operations and to the story they
  tell. `ResponsesStream`, `ResponsesConverter`, `ResponsesTheorems` and `AnthropicStream`, `AnthropicConverter`,
  `AnthropicTheorems` turn chunks into frames. Both have a strict client as a partner: it replays the frames, rejects any
  that is out of place, and must end up holding what the converter accumulated; `ResponsesParts` adds the order of
  content parts and `ResponsesDone` the frames that end an item. `ChunkFields` reads the chunks' own fields, and
  `ResponsesFields`, `AnthropicFields` and `AnthropicLayout` say what streams and answers are in their terms. Item ids
  come from a supply.
- **Line pump.** `LinePump` drains a byte buffer line by line, generic in the state it feeds; `Pumps` puts it in front of
  both converters, and compares the streaming with the aggregate path; `LineRules` reads single lines byte for byte.
- **Request side.** `AnthropicRequest`, `AnthropicRequestTheorems` and `ResponsesRequest` convert requests;
  `AnthropicContent` and `ResponsesContent` hear request and wire and compare what they say. `ChatPolicy`,
  `CanonicalJson`, `CanonicalTheorems` and `NumberDrift` are the reasoning epochs, the canonical arguments and a JSON
  reader to judge them by, itself held to the grammar in `JsonGrammar` and `JsonReader`; how numbers are rendered is a parameter.
- **Accounts.** `Pool`, `PoolTheorems`, `Rotation` and `AccountPool` are the account pool with its sticky table and its
  wrapping rotation counter, `PoolRules` what answers do to the picks that follow; `Upstream`, `UpstreamTheorems` and
  `UpstreamRules` the retry loop against an adversarial upstream, with other tasks free to change the pool before each
  pick and while a reply is awaited; `HeadProbe` the probe of a 200 response;
  `Refresh` the token refresh as interleaved steps of any number of callers.
- **Reasoning shadow.** `ShadowStore` and `ShadowTheorems` are the bounded cache and the unbounded record it refines;
  `ShadowRestore` restores from it into a request, and `Continuity` follows reasoning from a stream through the shadow
  into the next request.

`Wrappers`, `Sequences`, `SortedKeys` and `Recency` are shared. Clocks, credential files, upstream replies, refresh
results, JSON parsing of payloads and the steps of other tasks are parameters.

Run `dafny verify dfyconfig.toml` to check the project.

## Where the code differs from its documentation

The model follows the code. These differences are theorems, each with an input that shows it:

- Text after a tool call still emits deltas on a message item that is already done (`ResponsesTheorems.DoneItemsAreFinal`, `ResponsesTheorems.LateTextIsLost`).
- A call id or name that arrives late reaches the terminal response or aggregate message only (`ResponsesTheorems.ClientRebuildsOutput`, `ResponsesTheorems.LateIdIsLost`, `AnthropicTheorems.ClientRebuildsMessage`, `AnthropicTheorems.LateIdDivides`), and files the reasoning of a turn under ids the client does not answer with (`Continuity.FirstReasoningReturns`).
- `[DONE]` without a finish reason fails the streamed response and completes the aggregated one (`Pumps.PathsAgree`, `Pumps.DoneAloneDivides`).
- After a 401 the retry stays pinned to its account (`UpstreamTheorems.PinnedForGood`, `UpstreamTheorems.BoundIsMet`).
- The rotation is not fair across the wrap of its counter unless the number of accounts divides 2^64 (`Rotation.FairRoundIff`, `Rotation.WrapRepeats`).
- The shadow "LRU" is ordered by session creation (`ShadowTheorems.OldestPays`, `ShadowTheorems.UsedLastPays`).
- `message` items do not flush waiting calls (`ResponsesRequest.InputOrderKeptIff`, `ResponsesRequest.MessageOvertakesCall`).
- Canonical arguments are rewritten again when a rendered number is read as another number (`CanonicalTheorems.CanonicalArgumentsTwice`, `NumberDrift.DriftIsRewrittenTwice`).
- Tool results may come later than the next message (`AnthropicRequestTheorems.ResultMayComeLate`).
- Token counting and the wire have different epoch boundaries (`AnthropicRequestTheorems.CountingSeesTheWire`, `AnthropicRequestTheorems.ReminderDivides`).
- `force_refresh` has no double check (`Refresh.ForcedTwice`).
- Whether an early error frame is seen can depend on the chunking (`HeadProbe.ChunksMatterIff`, `HeadProbe.CutAfterComment`).
- `prune` forgets vanished accounts only when it drops them itself (`PoolTheorems.PruneCleans`, `PoolTheorems.PruneComesTooLate`).

## Model

| member | source | states |
|---|---|---|
| `ChatChunk.RunOpenFirst` | src/responses/stream.rs:251-301 | in the operations any run of chunks asks for, a call is opened before it is added to |
| `ChatChunk.StoryMeaning` | src/anthropic/stream.rs:176-337 | the story of a run concatenates the upstream fields: text, reasoning and, per call index, the argument fragments, none lost, repeated or moved to another call |
| `ChatChunk.WalksAgree` | src/responses/stream.rs:280-296 | walking `tool_calls` in two passes (all openings, then all arguments) or fragment by fragment gives one story |
| `ChatChunk.FrontendsAgree` | src/anthropic/stream.rs:250-337 | for every run of chunks the Responses and the Anthropic converter are told the same story |
| `ChunkFields.StoryIsTheFields` | src/anthropic/stream.rs:154-337 | that story is what the fields of the chunks say: `delta.content` and `delta.reasoning_content` joined, and per call index (a missing one is 0) the first and last id and name and the joined arguments of its own fragments, kinds of content in order of first appearance, the last finish reason |
| `ResponsesTheorems.RunInvariant` | src/responses/stream.rs:251-560 | after any run of chunks the converter and a client that replays its frames both hold the story so far |
| `ResponsesTheorems.StrictClientAccepts` | src/responses/stream.rs:215-228 | for every run and either way of finishing, frames are numbered 1, 2, 3, ... and a strict client (items added in order, deltas and parts only for added items, what is said to be done is the text received so far, one terminal frame, last) accepts all of them |
| `ResponsesTheorems.TerminalIsNonstream` | src/responses/stream.rs:662-819 | the terminal frame carries exactly `nonstream_response()` |
| `ResponsesTheorems.ClientMirrorsOutput` | src/responses/stream.rs:741-800 | the terminal `output` and the items the client built from added and delta frames alone agree item by item: order, ids, texts, arguments |
| `ResponsesTheorems.ClientRebuildsOutput` | src/responses/stream.rs:518-560 | the rebuilt items equal the terminal output, call id and name included, exactly when no call changes its id or name after its first fragment |
| `ResponsesTheorems.EveryItemDoneOnce` | src/responses/stream.rs:562-739 | after `finish(None)` every output item has exactly one `output_item.done` |
| `ResponsesTheorems.DoneItemsAreFinal` | src/responses/stream.rs:389-516 | after `finish(None)` every `output_item.done` frame carries the item of the terminal `output` at its index exactly when no text arrives after the first call of a run that had text before it (the code keeps emitting deltas on the closed message) |
| `ResponsesTheorems.LateTextIsLost` | src/responses/stream.rs:389-516 | text, a call and text again is such a run: a done frame differs from the terminal output |
| `ResponsesTheorems.LateIdIsLost` | src/responses/stream.rs:518-560 | a call whose id arrives late is such a run: the rebuilt items differ from the terminal output |
| `ResponsesFields.OutputIsTheFields` | src/responses/stream.rs:251-560 | for every run and either ending the output has one item for each kind of content in the chunks, in order of first appearance; reasoning, text and each call's id, name and arguments are the joined or last fields, and the deltas streamed for the item join to the same |
| `ResponsesFields.OneItemPerCall` | src/responses/stream.rs:454-516 | a call has an item exactly when some fragment carries its index (or none, for call 0), and never two |
| `ResponsesFields.ItemIdsDiffer` | src/responses/stream.rs:454-516 | no two items of an output share an id |
| `ResponsesFields.ResponseIsTheFields` | src/responses/types.rs:39-130 | the rest of the response and the two opening frames: identity and time as configured, the last model named, the last usage with its slices clamped, failed with its error, incomplete exactly when the upstream stopped for length |
| `ResponsesDone.DoneTextsAreJoined` | src/responses/stream.rs:562-739 | in every stream each frame that ends a text, a part or an item carries the join of all its deltas before |
| `ResponsesDone.TextThenItem` | src/responses/stream.rs:562-739 | in every stream each item ends right after its text and part, and each end of a text is followed by the end of its item |
| `ResponsesDone.EachItemEndedOnce` | src/responses/stream.rs:662-739 | after `finish(None)` each output item has exactly one end of its text and, later, one end of the item; the text of a call is its arguments |
| `ResponsesParts.PartsComeFirst` | src/responses/stream.rs:303-452 | every text and summary delta, and every end of such a part, comes after the `part.added` frame of the same part |
| `ResponsesConverter.ResponsesConverter.constructor` | src/responses/stream.rs:126-156 | a new converter with no server tools is the initial state |
| `ResponsesConverter.ResponsesConverter.Emit` | src/responses/stream.rs:215-228 | one frame, with the next sequence number |
| `ResponsesConverter.ResponsesConverter.EnsureStarted` | src/responses/stream.rs:230-249 | created and in_progress, once, before anything else |
| `ResponsesConverter.ResponsesConverter.KeepHiddenReasoning` | src/responses/stream.rs:303-321 | reasoning the client does not see is accumulated without frames |
| `ResponsesConverter.ResponsesConverter.FeedReasoning` | src/responses/stream.rs:303-387 | in place, what the specification of a reasoning fragment says of state and frames |
| `ResponsesConverter.ResponsesConverter.FeedText` | src/responses/stream.rs:389-452 | in place, what the specification of a text fragment says |
| `ResponsesConverter.ResponsesConverter.CloseMessageItem` | src/responses/stream.rs:562-609 | in place, the closing of the message item, once |
| `ResponsesConverter.ResponsesConverter.CloseReasoningItem` | src/responses/stream.rs:611-660 | in place, the closing of the reasoning item, once |
| `ResponsesConverter.ResponsesConverter.EnsureToolItemAdded` | src/responses/stream.rs:454-516 | in place, pass 1: a new call closes the message if it is the first, and adds its item |
| `ResponsesConverter.ResponsesConverter.AddToolItem` | src/responses/stream.rs:476-516 | in place, the slot, the item and the frame of a new call |
| `ResponsesConverter.ResponsesConverter.FeedToolCallArguments` | src/responses/stream.rs:518-560 | in place, pass 2: late id and name, then the argument fragment |
| `ResponsesConverter.ResponsesConverter.FeedToolCalls` | src/responses/stream.rs:284-296 | both passes over a delta are the operations of the two-pass walk |
| `ResponsesConverter.ResponsesConverter.FeedChunk` | src/responses/stream.rs:251-301 | one chunk is the specification step; it is semantic exactly when some choice carries content |
| `ResponsesConverter.ResponsesConverter.TerminalOutput` | src/responses/stream.rs:741-790 | the output list, built item by item from the accumulators |
| `ResponsesConverter.ResponsesConverter.FinishTools` | src/responses/stream.rs:676-715 | every call item is closed once, in index order |
| `ResponsesConverter.ResponsesConverter.Finish` | src/responses/stream.rs:662-739 | finishing, with and without an error, is the specification step |
| `ResponsesConverter.ResponsesConverter.NonstreamResponse` | src/responses/stream.rs:802-819 | the non-streaming response of the same state |
| `AnthropicTheorems.RunInvariant` | src/anthropic/stream.rs:132-337 | after any run of chunks the converter and a client replaying its events both hold the story so far |
| `AnthropicTheorems.StrictClientAccepts` | src/anthropic/stream.rs:130-408 | a strict client accepts every stream: `message_start` first and only once, blocks started at indices 0, 1, 2, ..., deltas only to open blocks, no text or tool delta under an open thinking block, no thinking unless exposed, each block stopped once, then `message_delta` and `message_stop`, last |
| `AnthropicTheorems.ClientHoldsTheStory` | src/anthropic/stream.rs:176-408 | what the client has joined at the end is the thinking, the text and, per call, id, name and arguments of the story |
| `AnthropicTheorems.ClientHoldsTheUpstream` | src/anthropic/stream.rs:176-337 | each streamed text is the concatenation of its upstream fragments; interleaved parallel calls never mix |
| `AnthropicTheorems.NonstreamAgrees` | src/anthropic/stream.rs:111-128 | `accumulated()` and `nonstream_response` hold what the streaming client joined, and the stop reason and output tokens of the closing `message_delta` |
| `AnthropicFields.BlocksAreTheFields` | src/anthropic/stream.rs:176-408 | for every run the streamed thinking and text are the joined fields, and each call some fragment concerns has one block of its own, started with its first id and name and fed its joined arguments |
| `AnthropicFields.MessageIsTheFields` | src/anthropic/stream.rs:412-440 | the aggregate message is thinking if exposed, text, and the calls by index with their last id and name and the object their joined arguments spell |
| `AnthropicFields.EnvelopeIsTheFields` | src/anthropic/stream.rs:355-470 | the first model starts the stream; the last model, the last usage (cached tokens taken off the input) and the stop reason of the last finish reason make the message, and the last two events repeat them |
| `AnthropicLayout.BlocksInOrder` | src/anthropic/stream.rs:176-337 | blocks come in the order the chunks lay out: the text in one block, each call in one, a thinking block wherever reasoning begins or resumes |
| `AnthropicTheorems.ClientRebuildsMessage` | src/anthropic/stream.rs:412-470 | the message a client makes of its blocks is the non-streaming message, ids and names of calls included, exactly when no call changes its id or name after its first fragment |
| `AnthropicTheorems.LateIdDivides` | src/anthropic/stream.rs:250-337 | a call whose id arrives late is such a run |
| `AnthropicTheorems.InputReadsBack` | src/anthropic/stream.rs:418-430 | arguments that spell a JSON object become that object with its numbers read as tool input of the aggregate message, an empty one if a number is refused or it is nested too deeply; the very object exactly when its numbers read back as themselves |
| `AnthropicTheorems.FinishedIsFinal` | src/anthropic/stream.rs:355-408 | feeding or finishing again after `finish` adds nothing and changes nothing |
| `AnthropicConverter.StreamConverter.constructor` | src/anthropic/stream.rs:69-87 | a new converter is the initial state |
| `AnthropicConverter.StreamConverter.CloseThinking` | src/anthropic/stream.rs:342-353 | in place, the closing of an open thinking block |
| `AnthropicConverter.StreamConverter.FeedReasoning` | src/anthropic/stream.rs:176-210 | in place, what the specification of a reasoning fragment says |
| `AnthropicConverter.StreamConverter.FeedText` | src/anthropic/stream.rs:212-247 | in place, what the specification of a text fragment says |
| `AnthropicConverter.StreamConverter.FeedToolCall` | src/anthropic/stream.rs:251-337 | in place, one tool fragment: open its block if new, then extend it |
| `AnthropicConverter.StreamConverter.FeedToolCalls` | src/anthropic/stream.rs:249-337 | a list of fragments is the one-pass walk |
| `AnthropicConverter.StreamConverter.FeedChunk` | src/anthropic/stream.rs:132-337 | one chunk is the specification step; nothing happens once finished |
| `AnthropicConverter.StreamConverter.CloseTools` | src/anthropic/stream.rs:378-389 | every started tool block is stopped once, in index order |
| `AnthropicConverter.StreamConverter.Finish` | src/anthropic/stream.rs:355-408 | finishing is the specification step |
| `AnthropicConverter.StreamConverter.Accumulated` | src/anthropic/stream.rs:111-128 | the accumulated answer, calls in index order |
| `AnthropicConverter.StreamConverter.ParseInput` | src/anthropic/stream.rs:418-430 | the tool input: the object the arguments spell, else an empty one |
| `AnthropicConverter.StreamConverter.NonstreamResponse` | src/anthropic/stream.rs:412-470 | the aggregate message of the same state, tool inputs parsed |
| `LinePump.ChunksDoNotMatter` | src/server/orchestrator.rs:778-822 | running the pump over any cutting of the bytes is one call on the whole: same converter state, end flag and (when not ended) leftover buffer |
| `LinePump.FragmentationIndependence` | src/server/orchestrator.rs:778-822 | two ways of cutting the same bytes cannot be told apart |
| `LinePump.PumpMeetsSplit` | src/server/orchestrator.rs:778-822 | for every cutting the pump is: split on newline, trim, take `data:` lines, stop at `[DONE]` |
| `LinePump.SplitIsFaithful` | src/server/orchestrator.rs:781-785 | the split loses nothing: its pieces joined by newlines are the bytes, and none holds a newline |
| `LineRules.DataLineReads` | src/server/orchestrator.rs:786-806 | a data line, with any blanks around `data:` and around the payload, carries the payload or ends the stream; one over 8 MiB is dropped |
| `LineRules.OtherLineReads` | src/server/orchestrator.rs:786-798 | any other line is only a sign of life, unless it is blank or too long |
| `LinePump.StreamPump.OnBytes` | src/server/orchestrator.rs:778-822 | the draining loop is the specification of one call |
| `Pumps.AnthropicRunIsCutFree` | src/server/orchestrator.rs:778-871 | the whole Anthropic stream, error event included, depends on the bytes alone |
| `Pumps.AnthropicEndIsTold` | src/server/orchestrator.rs:827-844 | the Anthropic stream is the finished one, with an error event exactly when no chunk had a finish reason: the break, or that it ended unexpectedly |
| `Pumps.ResponsesPumpIsCutFree` | src/server/responses_pump.rs:95-140 | the Responses pump feeds exactly the chunks of the `data:` lines before `[DONE]`, whatever the cutting |
| `Pumps.StreamingEndIsTold` | src/server/responses_pump.rs:95-140 | the streamed response fails exactly on a break before `[DONE]` or without a finish reason, with that message |
| `Pumps.AggregateEndIsTold` | src/server/responses_pump.rs:314-354 | the aggregate path answers on `[DONE]` or without such a fault, and else with the fault |
| `Pumps.PathsAgree` | src/server/responses_pump.rs:314-354 | streaming and aggregation answer alike exactly unless the bytes hold a `[DONE]` line and no chunk before it a finish reason (failed when streamed, completed when aggregated) |
| `Pumps.DoneAloneDivides` | src/server/responses_pump.rs:314-354 | the bytes `data: [DONE]` and a newline alone, however cut, are such a stream |
| `CanonicalTheorems.CanonicalIsSortedText` | src/deepseek/policy.rs:78-121 | the canonical printer prints the value with members sorted by key at every depth |
| `JsonGrammar.CanonicalAscends` | src/deepseek/policy.rs:78-121 | canonical text is the compact text of an equal value whose keys ascend by code point in every object, at every depth |
| `JsonReader.ReadIsGrammar` | src/deepseek/policy.rs:155-156 | the reader accepts a text exactly if the grammar of RFC 8259 puts it together (any white space, any spelling, repeated keys), nested less than 128 deep and with its numbers taken, and reads it as what it means |
| `JsonGrammar.EscapeIsShortest` | src/deepseek/policy.rs:78-121 | every character of a string is printed in its shortest spelling, with lower-case digits |
| `JsonGrammar.StringReadsIff` | src/deepseek/policy.rs:155-156 | the reader takes for a string exactly what section 7 of RFC 8259 spells: plain characters, short escapes, `\u` escapes of either case, surrogate pairs |
| `JsonGrammar.NumberReads` | src/deepseek/policy.rs:155-156 | every number of section 6 of RFC 8259 is a number to the reader |
| `JsonGrammar.NumberWritten` | src/deepseek/policy.rs:155-156 | and nothing else is |
| `JsonGrammar.PutMeaning` | src/deepseek/policy.rs:155-156 | a repeated key keeps its place and takes the new value |
| `CanonicalTheorems.TextReadsBack` | src/deepseek/policy.rs:155-156 | compact text (escaping per section 7 of RFC 8259) reads back as the value with its numbers read again, exactly when it is nested less than 128 deep and no number is refused; as the same value exactly when its numbers also read back as themselves |
| `CanonicalTheorems.CanonicalReadsBack` | src/deepseek/policy.rs:78-121 | canonical text reads back as the value sorted and with its numbers read again, as an equal value under the same exact conditions |
| `CanonicalTheorems.CanonicalIsNormalForm` | src/deepseek/policy.rs:76-121 | two values print the same canonical text exactly when they are equal up to member order at every depth |
| `CanonicalTheorems.CanonicalArgumentsTwice` | src/deepseek/policy.rs:148-161 | a second pass over an argument string changes nothing exactly when it is no JSON, or every number of its value reads back as itself, or some rendered number is refused |
| `NumberDrift.DriftIsRewrittenTwice` | src/deepseek/policy.rs:148-161 | 0.99622830388368595, rendered as 0.9962283038836859 and that as 0.996228303883686, is rewritten by both passes |
| `ChatPolicy.PolicyKeepsSkeleton` | src/server/orchestrator.rs:273-287 | restore, strip and canonicalize keep message count, roles, texts, call ids and names, and tool results at every position |
| `ChatPolicy.PolicyGoverns` | src/deepseek/policy.rs:127-204 | message by message: reasoning goes if a user message follows (or there is none), missing reasoning of the current epoch comes from the shadow under the call ids, arguments are canonical if a user message or result follows, and all else stays |
| `ChatPolicy.RestoreAndStripCommute` | src/deepseek/policy.rs:171-204 | restoring and stripping commute, because neither moves the epoch boundary |
| `ChatPolicy.PolicyTwice` | src/server/orchestrator.rs:273-287 | with the shadow unchanged the policy applied again changes nothing exactly when, in every argument before the last user or tool message, a second pass has nothing to do |
| `ChatPolicy.SecondCanonicalizeRewritesNothing` | src/deepseek/policy.rs:127-165 | a second `canonicalize_tool_arguments` reports no rewrite exactly under the same condition |
| `ChatPolicy.RewritesAreCounted` | src/deepseek/policy.rs:127-165 | the number `canonicalize_tool_arguments` reports is the number of calls whose arguments it changed |
| `ChatPolicy.ReasoningIsMeasured` | src/deepseek/policy.rs:180-204 | reasoning is measured as the JSON string it is in the body, in bytes of UTF-8 |
| `ChatPolicy.RewriteKeepsValue` | src/deepseek/policy.rs:155-161 | text that is not JSON stays; a rewritten argument reads as the same value up to member order exactly when the numbers of that value read back as themselves |
| `ChatPolicy.StripSeparatesEpochs` | src/deepseek/policy.rs:180-204 | after the strip no assistant message before the boundary keeps reasoning, and nothing else changes |
| `ChatPolicy.StripHistoricalReasoning` | src/deepseek/policy.rs:180-204 | in place, the strip of earlier epochs, and how many bytes of JSON text went |
| `ChatPolicy.CanonicalizeCalls` | src/deepseek/policy.rs:148-162 | the calls of one message, and how many were rewritten |
| `ChatPolicy.CanonicalizeToolArguments` | src/deepseek/policy.rs:127-165 | in place, everything before the last user or tool message, and the number of rewrites |
| `AnthropicRequestTheorems.AcceptedIffMatched` | src/anthropic/request.rs:133-228 | a request is accepted exactly when every message converts by itself and, for every id, its tool blocks read used, answered, ..., used, answered |
| `AnthropicRequestTheorems.IdsSurvive` | src/anthropic/request.rs:133-228 | on success the wire has the request's calls and results, in order, and every id is matched there too |
| `AnthropicContent.ContentSurvives` | src/anthropic/request.rs:243-512 | the wire of an accepted request says what its blocks say, utterance by utterance: human texts and media, results, assistant text and thinking joined with a blank line, calls with id, name and input, reminders; nothing lost, changed, moved or made up |
| `AnthropicContent.AcceptedIffGood` | src/anthropic/request.rs:133-512 | accepted exactly when every message has a known role and only blocks of its kind with what they need, and the ids of every tool alternate |
| `AnthropicContent.UserBlocksGood` | src/anthropic/request.rs:256-289 | a refused user message complains of its first bad block, of what is wrong with it |
| `AnthropicContent.AssistantBlocksGood` | src/anthropic/request.rs:441-505 | a refused assistant message complains of its first bad block, of what is wrong with it |
| `AnthropicContent.CountingStrips` | src/deepseek/policy.rs:210-242 | token counting drops exactly the thinking blocks of assistant messages before the last human message |
| `AnthropicRequestTheorems.ResultsBeforeHumanContent` | src/anthropic/request.rs:289-301 | a user turn is its tool results, then at most one message of human content |
| `AnthropicRequestTheorems.ResultMayComeLate` | src/anthropic/request.rs:135-166 | any messages without tool blocks may stand between a call and its result, although the comment says the result is in the next message |
| `AnthropicRequestTheorems.CountingSeesTheWire` | src/deepseek/policy.rs:171-242 | converting after `strip_anthropic_thinking` gives the messages of `strip_historical_reasoning` after converting, exactly when no assistant thinking lies between the two boundaries |
| `AnthropicRequestTheorems.ReminderDivides` | src/deepseek/policy.rs:171-242 | a user text, a thinking turn and a system message are such a request: counting keeps thinking the wire drops |
| `AnthropicRequestTheorems.PlainCountingSeesTheWire` | src/server/orchestrator.rs:212-215 | without system or developer messages and empty user texts the two boundaries coincide and counting sees the wire messages |
| `AnthropicRequest.ConvertUserMessage` | src/anthropic/request.rs:243-302 | a user message converts as specified, first error first |
| `AnthropicRequest.ConvertAssistantMessage` | src/anthropic/request.rs:382-512 | an assistant message converts as specified |
| `AnthropicRequest.RegisterCalls` | src/anthropic/request.rs:167-187 | each call opens its id, an id already open is an error |
| `AnthropicRequest.SettleConverted` | src/anthropic/request.rs:144-195 | results close ids, calls open them |
| `AnthropicRequest.ConvertAll` | src/anthropic/request.rs:133-228 | the whole array, with pending calls at the end refused |
| `AnthropicRequest.StripAnthropicThinking` | src/deepseek/policy.rs:210-242 | in place, thinking blocks before the last human user message, and how many blocks went |
| `ResponsesRequest.ConversionArranges` | src/responses/request.rs:183-250 | the loop arranges the items: messages pass waiting calls, results and reasoning turn the waiting calls into one assistant turn first |
| `ResponsesRequest.StretchArranges` | src/responses/request.rs:183-250 | between two results or reasoning items the wire has the messages in order, then one assistant turn with all the calls |
| `ResponsesRequest.NothingIsLost` | src/responses/request.rs:183-250 | every call, result and message item is on the wire, unchanged and in input order, calls and results also relative to each other |
| `ResponsesContent.ContentSurvives` | src/responses/request.rs:183-461 | on the wire all talk is in order, and all calls and results are in order, with every text, image, id, name and argument as the items give them |
| `ResponsesContent.AcceptedIffGood` | src/responses/request.rs:183-461 | accepted exactly when every item is a message of a known role (images from the user only), a named call, an output with an id or reasoning, with readable parts, and some item is not reasoning |
| `ResponsesRequest.InputOrderKeptIff` | src/responses/request.rs:183-250 | the output is the input order, runs of calls merged and reasoning dropped, exactly when no message item arrives while calls are waiting |
| `ResponsesRequest.MessageOvertakesCall` | src/responses/request.rs:183-250 | a call, a user message and the result: on the wire the message comes before the call |
| `ResponsesRequest.AcceptedIff` | src/responses/request.rs:183-250 | accepted exactly when each item converts and some item is not reasoning |
| `ResponsesRequest.CollectParts` | src/responses/request.rs:391-460 | text and image parts in order, first error first |
| `ResponsesRequest.ConvertMessageItem` | src/responses/request.rs:253-357 | one message item as specified |
| `ResponsesRequest.ConvertOutputItem` | src/responses/request.rs:391-461 | one call output as specified |
| `ResponsesRequest.FlushCalls` | src/responses/request.rs:242-250 | waiting calls become one assistant turn |
| `ResponsesRequest.ConvertInputItems` | src/responses/request.rs:183-240 | the item loop is the specification |
| `PoolTheorems.ReachableIsOk` | src/lobsterai/pool.rs:153-228 | in every reachable state `sticky_order` lists the bound sessions once each in last-touch order, stamps are touch times, the table holds at most max(1, sticky_max), accounts are loaded once |
| `PoolTheorems.EvictIsExpiry` | src/lobsterai/pool.rs:178-191 | looking only at the front, `evict_sticky` removes every expired binding and no other |
| `PoolTheorems.PickIsRight` | src/lobsterai/pool.rs:197-261 | a pick fails exactly when no loaded account with its file is free of cooldowns for the model; a binding within its time to such an account is kept; otherwise none of them has more credits, unknown ones counting as below 0 |
| `PoolTheorems.WhyBindingsLeave` | src/lobsterai/pool.rs:139-334 | a session loses its binding only to a 429 or prune of its account, to age, to its own pick finding no account, or to capacity after `sticky_max` other sessions were touched since its own last touch |
| `PoolTheorems.CapacityLoss` | src/lobsterai/pool.rs:486-496 | the session a full table gives up is one since whose last touch `sticky_max` sessions were touched |
| `Rotation.RoundIsFairIff` | src/lobsterai/pool.rs:233-254 | as many unbound picks in a row as there are accounts of top rank return each of them once, in rotation, exactly when the counter does not pass its wrap or their number divides 2^64 |
| `Rotation.FairRoundIff` | src/lobsterai/pool.rs:197-261 | the same from any reachable state for fixed files, health and credits and new sessions, stated on the inputs alone |
| `Rotation.WrapRepeats` | src/lobsterai/pool.rs:253-254 | three accounts are loaded and picked 2^64 - 1 times: the next two picks return the same account |
| `PoolTheorems.PruneCleans` | src/lobsterai/pool.rs:139-163 | pruning leaves no memory of absent accounts exactly when it drops an account itself or there was none |
| `PoolTheorems.PruneComesTooLate` | src/lobsterai/pool.rs:139-163 | an account dropped by a pick and then pruned is such a case: its credits are remembered for good |
| `PoolTheorems.PickForestallsPrune` | src/lobsterai/pool.rs:198-201 | a pick drops vanished accounts first, so a prune right after it changes nothing |
| `PoolTheorems.RetryTimeIsExact` | src/lobsterai/pool.rs:362-389 | when a pick fails a retry time is known exactly if some account cools for this model only, and it is the wait until the first moment one of these is healthy, cut to whole seconds |
| `PoolRules.SessionSticks` | src/lobsterai/pool.rs:204-226 | a served session gets the same account at its next pick within the time to live while the account is usable |
| `PoolRules.RejectedIsOut` | src/lobsterai/pool.rs:287-299 | 401 and 403 take the account out for every model for the credential cooldown, and no other account |
| `PoolRules.BrokeIsOut` | src/lobsterai/pool.rs:322-334 | missing credits take it out for the long cooldown |
| `PoolRules.LimitedIsOut` | src/lobsterai/pool.rs:300-318 | 429 takes it out for the one model, at least a second, and frees exactly the sessions bound to it |
| `PoolRules.ThirdErrorIsOut` | src/lobsterai/pool.rs:337-358 | in every run an error takes its account out exactly if it is the third, sixth, ... since its last success |
| `PoolRules.PruneSparesTheRest` | src/lobsterai/pool.rs:139-163 | a prune drops the accounts without a file and nothing that is remembered of one that stays |
| `PoolRules.RichestIsPicked` | src/lobsterai/pool.rs:241-254 | with 100, 5 and unknown credits the pick is the account with 100 |
| `AccountPool.AccountPool.EvictSticky` | src/lobsterai/pool.rs:178-191 | the eviction loop is the specification |
| `AccountPool.AccountPool.RemoveSticky` | src/lobsterai/pool.rs:503-506 | binding and order entry both go |
| `AccountPool.AccountPool.MoveStickyToBack` | src/lobsterai/pool.rs:498-501 | the session becomes last in the order |
| `AccountPool.AccountPool.BindSticky` | src/lobsterai/pool.rs:486-496 | a new binding; a full table gives up its front |
| `AccountPool.AccountPool.Pick` | src/lobsterai/pool.rs:197-261 | one pick, at one instant, as specified |
| `AccountPool.AccountPool.PickRanked` | src/lobsterai/pool.rs:227-261 | the rotation over the top rank |
| `AccountPool.AccountPool.NoteStatus` | src/lobsterai/pool.rs:279-319 | cooldowns of 401, 403 and 429, and the unbinding of 429 |
| `AccountPool.AccountPool.NoteHardCredit` | src/lobsterai/pool.rs:322-334 | the long cooldown |
| `AccountPool.AccountPool.NoteErrorThreshold` | src/lobsterai/pool.rs:337-349 | the third error cools the account |
| `AccountPool.AccountPool.NoteSuccess` | src/lobsterai/pool.rs:352-358 | the error count is reset |
| `AccountPool.AccountPool.SetCredits` | src/lobsterai/pool.rs:264-270 | credits are recorded |
| `AccountPool.AccountPool.LoadFiles` | src/lobsterai/pool.rs:102-137 | accounts already loaded are ignored |
| `AccountPool.AccountPool.Prune` | src/lobsterai/pool.rs:139-163 | entries without a file go, with their state if any went |
| `AccountPool.AccountPool.AllCooledUntil` | src/lobsterai/pool.rs:362-389 | the shortest model cooldown over the healthy accounts, in whole seconds |
| `UpstreamTheorems.ConversationIsOrderly` | src/lobsterai/upstream.rs:115-372 | every conversation is a row of sends, each but the last answered by quota (429, credits text, 40201) or by one first 401 that is followed by one refresh of that account |
| `UpstreamTheorems.OrderlyMeaning` | src/lobsterai/upstream.rs:115-372 | acceptance, plain 403, 5xx and transport failure only ever answer the last send; there is at most one refresh, right after a 401 |
| `UpstreamTheorems.RequestSendsAreBounded` | src/lobsterai/upstream.rs:115-372 | a pool of at most N accounts sees at most max(N, 1) + 2 sends, against any upstream |
| `UpstreamTheorems.OutcomeReports` | src/lobsterai/upstream.rs:180-200 | a generation starts exactly when the last send was accepted, and reports that account, the failovers and the refresh |
| `UpstreamTheorems.PinnedForGood` | src/lobsterai/upstream.rs:122-127 | after a refresh every later send goes to the same account while it stays loaded: the pin is never released |
| `UpstreamTheorems.BoundIsMet` | src/lobsterai/upstream.rs:122-127 | one 401 and then only 429 sends max(N, 1) + 2 times, always to the account picked first |
| `UpstreamTheorems.RequestVisitsEachOnce` | src/lobsterai/upstream.rs:115-372 | when cooldowns outlast the call and the accounts stay loaded, all sends go to different accounts exactly when no refresh worked, and then the failover-exhausted exit is never taken |
| `UpstreamRules.SendsGoToUsable` | src/lobsterai/upstream.rs:115-146 | every send goes to a loaded account: the one just refreshed, or else one that is usable at the pick; the request lacks an account only if none is usable |
| `UpstreamRules.AnswerMarksAccount` | src/lobsterai/upstream.rs:140-371 | every answer does to its account what its status says (402, 403 and 429 about credits: the long cooldown; 401 and other 403: the credential cooldown; other 429: the model cooldown; 5xx: nothing; else one more error), and nothing to the others |
| `UpstreamRules.OutcomeIsLastAnswers` | src/lobsterai/upstream.rs:115-372 | against any upstream the last answer decides status and reason of the outcome; a request that ends after a quota answer or a working refresh had no account left or too many failovers |
| `UpstreamRules.WhenTheLoopGoesOn` | src/lobsterai/upstream.rs:254-320 | the loop goes on exactly after a quota answer while failovers are at most the accounts (one if there are none), or after a first 401 and a working refresh |
| `UpstreamRules.RetryTimeIsSaid` | src/lobsterai/upstream.rs:584-596 | a request that fails for want of an account says when to try again: the shortest model cooldown of the accounts not out altogether, in whole seconds and at least one, if all of them have one |
| `Upstream.PickNext` | src/lobsterai/upstream.rs:121-128 | the account of an attempt: the pinned one while loaded, else a pick |
| `Upstream.CountFailover` | src/lobsterai/upstream.rs:215-218 | a failover is counted against the pool size |
| `Upstream.TryAccount` | src/lobsterai/upstream.rs:148-371 | one attempt, every branch, on the pool as other tasks have left it when the reply is in |
| `Upstream.GenerateRequest` | src/lobsterai/upstream.rs:100-372 | the loop is the recursive specification, over the shared pool |
| `HeadProbe.ProbeKeepsTheStream` | src/lobsterai/upstream.rs:516-561 | when the head is healthy the replayed prefix and the rest are the stream as it was, for every chunking, broken or not |
| `HeadProbe.ChunksMatterIff` | src/lobsterai/upstream.rs:434-561 | the verdict is the same for every chunking exactly when there is no early error, or it is in a first frame of at most 8192 bytes with its terminator |
| `HeadProbe.HidingCut` | src/lobsterai/upstream.rs:535-561 | for every other early error a cut is found after which the stream is taken for a healthy one |
| `HeadProbe.CutAfterComment` | src/lobsterai/upstream.rs:535-561 | a comment frame and an error frame: an error in one chunk, healthy when cut after the comment |
| `LineRules.EventLineReads` | src/lobsterai/upstream.rs:447-463 | an event line makes a frame an error frame exactly if it names `error`, whatever the white space |
| `LineRules.HeadDataReads` | src/lobsterai/upstream.rs:447-463 | a data line is the payload of an error frame or data of another, unless it is the end marker |
| `LineRules.FrameReads` | src/lobsterai/upstream.rs:434-493 | a frame is an error frame exactly if one of its lines makes it one, and has data exactly if a data line comes before that |
| `HeadProbe.ErrorAfterDataIsNotRetried` | src/lobsterai/upstream.rs:485-489 | after a first data frame no chunking makes a later error frame a retryable one |
| `HeadProbe.CarriageReturnsHideFrames` | src/lobsterai/upstream.rs:434-443 | frames ended by CR LF are never seen: such a stream is refused unless it fills the probe |
| `HeadProbe.ScanLines` | src/lobsterai/upstream.rs:447-463 | the lines of one block |
| `HeadProbe.ScanPrefix` | src/lobsterai/upstream.rs:434-493 | the scanning loop is the specification |
| `HeadProbe.PeekStreamError` | src/lobsterai/upstream.rs:535-561 | the probing loop is the specification |
| `ShadowTheorems.HeldIsLatest` | src/reasoning_shadow.rs:117-203 | whatever is held is what an unbounded map would hold: the latest accepted store for that session and id since it was cleared |
| `ShadowTheorems.RestoreIsLatest` | src/reasoning_shadow.rs:164-192 | a restore returns nothing, or the reasoning of such a store, within its time |
| `ShadowTheorems.ReachableIsOk` | src/reasoning_shadow.rs:117-286 | in every reachable state the total is the sum of the session counts, each count covers what is held, `lru` lists the live sessions in creation order; after each accepted store both limits hold |
| `ShadowTheorems.JustStoredIff` | src/reasoning_shadow.rs:248-276 | reasoning just stored can be restored at once exactly when the sessions created from its own on fit the limits |
| `ShadowTheorems.NewSessionIff` | src/reasoning_shadow.rs:117-161 | a session's first reasoning can be restored at once exactly when it alone fits |
| `ShadowTheorems.OldestPays` | src/reasoning_shadow.rs:131-134 | eviction goes by creation: storing for the oldest session past the byte limit loses that session's own reasoning |
| `ShadowTheorems.UsedLastPays` | src/reasoning_shadow.rs:117-163 | in a full store a put for the older session evicts that session, while the idle one keeps its reasoning |
| `ShadowTheorems.RestoringIsPure` | src/reasoning_shadow.rs:209-246 | when messages share no call ids, dropping expired entries while restoring changes no answer |
| `ShadowRestore.RestoreInto` | src/reasoning_shadow.rs:209-246 | in place, on the shared store: the current epoch restored message after message, expired entries dropped on the way |
| `ShadowRestore.RestoreIntoIsPolicy` | src/reasoning_shadow.rs:209-246 | the restored messages are those of the restore policy on the store as it was, when messages share no call ids |
| `Continuity.ReasoningReturns` | src/server/orchestrator.rs:852-867 | a stream stops for its tool calls and the next request answers them in the current epoch and in time: the policy puts back all the reasoning the upstream had streamed exactly when the sessions created from this one on fit the shadow |
| `Continuity.FirstReasoningReturns` | src/server/orchestrator.rs:852-867 | in a session's first turn exactly when it fits by itself and some call id the client answers with is one it was filed under (the client has the first id of a call, the shadow the last) |
| `Continuity.AnswerForgets` | src/server/orchestrator.rs:864-866 | a stream that ends for any other reason clears the session: nothing comes back |
| `ShadowStore.ReasoningShadowStore.RemoveSession` | src/reasoning_shadow.rs:278-286 | session, bytes and `lru` entry all go |
| `ShadowStore.ReasoningShadowStore.EnforceLimits` | src/reasoning_shadow.rs:248-276 | the three eviction loops are the specification |
| `ShadowStore.ReasoningShadowStore.PutReasoning` | src/reasoning_shadow.rs:117-161 | a store is the specification |
| `ShadowStore.ReasoningShadowStore.RestoreReasoning` | src/reasoning_shadow.rs:164-192 | a restore is the specification, lazy expiry included |
| `ShadowStore.ReasoningShadowStore.ClearSession` | src/reasoning_shadow.rs:194-207 | a clear is the specification |
| `Refresh.EveryRunIsOk` | src/lobsterai/refresh.rs:29-57 | in every interleaving of any number of callers the lock is exclusive, calls never overlap, `ensure_fresh` calls only for a token in need and reuses only a fresh one |
| `Refresh.NoRefreshWhileFresh` | src/lobsterai/refresh.rs:29-46 | after a success `ensure_fresh` starts no call until the new token is within the margin |
| `Refresh.OneSuccessPerWave` | src/lobsterai/refresh.rs:29-46 | while the token a success brought stays fresh there is no further call at all |
| `Refresh.SecondCallHasCause` | src/lobsterai/refresh.rs:29-46 | between two calls the first one ended, without success or with a token that needed refresh again |
| `Refresh.OkMeansFresh` | src/lobsterai/refresh.rs:35-43 | a caller told the token is fresh was told so of a token outside the margin |
| `Refresh.OkMeansRefreshed` | src/lobsterai/refresh.rs:39-45 | a caller told the token was refreshed made the one call that brought it, begun for a token in need unless forced; the new token is fresh exactly when its expiry is known and outside the margin |
| `Refresh.ForcedTwice` | src/lobsterai/refresh.rs:49-57 | `force_refresh` has no second check: two of them refresh a fresh token |
| `Refresh.FreshNeedsNoLock` | src/lobsterai/refresh.rs:35-37 | a caller that finds the token outside the margin returns at once, whoever holds the lock |
| `Refresh.WaiterReuses` | src/lobsterai/refresh.rs:29-46 | two callers on a token in need: one call, and the one that waited reuses its token |
| `Refresh.Credential.FirstCheck` | src/lobsterai/refresh.rs:35-37 | the check before the lock |
| `Refresh.Credential.TakeLock` | src/lobsterai/refresh.rs:39 | the lock is taken only when free |
| `Refresh.Credential.SecondCheck` | src/lobsterai/refresh.rs:41-43 | the check under the lock |
| `Refresh.Credential.Answer` | src/lobsterai/refresh.rs:44-45 | a new expiry or a failure, and the lock is given up |

## Left out

- HTTP, TLS, routing, tasks, channels, ping timers and file writes: library behaviour around the modelled steps.
- OAuth login, check-in, command line, configuration, redaction, authentication and header policy: plumbing or field copying.
- The JSON text of emitted frames: events are datatypes; text matters only for canonical arguments and upstream lines.
- Server tools in the Responses converter: only the empty set is ever passed, so their branches are not modelled.
- Image, document and tool-reference blocks: carried as an opaque converted part, or its absence when it is refused.
- Tool schemas, tool_choice, model names, billing headers, prefix hashes and token estimates: one-branch facts or sums.
- Error texts with message indices: conversion errors keep their kind and the id they name, not the position.
- The watchdog `StreamWatch`, shutdown draining, metrics and byte counters: only the flag that an event was seen is kept.
- `refresh_due` with its keepalive branch, and persistence in `apply_refresh`: a refresh is its new expiry or a failure.
- UTF-8: bytes are bytes and texts are sequences of characters; lossy decoding and Unicode white space are not modelled.
- Floating-point conversion: how a number literal is read and rendered is a parameter, any function that renders literals as literals.
- Hashing of shadow keys, session keys and safe names: distinct names are taken to be distinct keys.
- Saturating and wrapping arithmetic of machine integers, other than the rotation counter: counts and times are unbounded.
- AccountPool.AccountPool.Pick: one instant per pick, where the code reads the clock several times; the sort by credits is the selection of the top rank in entry order.
- AccountPool.AccountPool.LoadFiles: given the account ids that were read; paths, unreadable files and rejected credentials are not modelled.
- PoolTheorems.RetryTimeIsExact: the wall clock is added to the wait and taken off again a moment later; a second that passes in between is not modelled.
- Upstream.GenerateRequest: the upstream, the clock, the files and other tasks are functions of the attempt (and of the pool), and the pool never holds more than a fixed number of accounts.
- Refresh.Credential.Answer: the network call is one step between beginning and answer; the saturating subtraction of the margin is plain subtraction.
- AnthropicRequest.ConvertAll: an error says what is wrong, not at which message; a split of one assistant message into several, which the code prepares for server tools, does not occur and is not modelled.
