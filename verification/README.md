# The agent runtime, verified

A Dafny model of the core of the ftre agent runtime: the chain of small protocols between a model
provider and a host. It models the two provider adapters and the assembler that checks them, the
normaliser that makes any history acceptable to a provider, the ReAct runner with its permission pauses
and confirmations, the event stream from which hosts rebuild messages, the cancellation token, and the
permission engine. `dafny verify dfyconfig.toml` checks everything.

## How it is built

Code that updates state is a class whose methods are proved against a function of its value
(`BlockAssembler`, `ToolCallAccumulator`, `CompletionsTurn`, `ResponsesTurn`, `HostMessage`,
`MessageContext`, `AttemptRun`, `ReActRunner`, `CancellationToken`, `DataSource`); the properties are then
lemmas about those functions. Code that loops over a list is a method with that loop.

| files | what they cover |
|---|---|
| StreamChunks, BlockAssembler, BlockContract | the chunk protocol: the assembler and the contract it recognises |
| CompletionsAdapter, AdapterContract | the Chat Completions producer against the contract |
| ResponsesAdapter, ResponsesContract, ResponsesBlocks, ResponsesForwarding, ResponsesReporting | the Responses producer against the contract, and on its way to the reply |
| Messages, Normalize, ToolGrammar, NormalFates, Flatten, Telling, Balance, ResponsesInput, Convert | the way from context to provider request and back |
| Events, Context, Ledger | the event fold and the shared context |
| Reasoning, ReasoningExecutor, Bracketing, Retries, Forwarding, Reporting | one reasoning action with its retries, and what reaches it from the provider |
| Runner, ReActRunner | the runner as a state machine, and as the object that follows it |
| Settlement, Termination, Safety, Licence, Denial, Terminal, Completion, Endings, Tallies, Hosts, Confluence, Anchors, CallLives | properties of the runner's steps and of its whole lives |
| RunBalance, Loss, RequestLoss | what the requests of a life lose, and exactly when |
| Views, AttemptFold, Agreement, StreamOrder, Rebuild, Projection, CompletionsProjection, ProviderOrder, Showing, HostStates, HostAnswers | event sourcing against live state |
| Permission, Cancellation, Base64 | the three self-contained protocols |

A *life* is a list of inputs to the runner: a new reply, a user answer, or a turn of the main loop with
everything the outside decides in it (chunks and errors of each attempt, hook answers, permission answers,
tool outcomes, cancellation). Theorems about lives hold for every such list. Three side conditions appear,
each about the outside only:

- `FairLife`: hosts add no messages with calls or results in them, and providers reuse no call id. Calls
  are found by id everywhere, so a reused id is ambiguous to the code itself.
- `ClearLife` (for the projection): model streams are orderly and tools return some text. Both are exact:
  `AttemptAgreesIffOrderlyStream` and `ResultAgreesIff` show that host and runner part otherwise, and
  `ProviderAgreesIffOrderly` says which provider turns are orderly behind the completions adapter.
- `TameLife` (for requests that lose nothing): calls have non-empty ids, no batch is denied in part without a
  question to the user, and a mixed resume brings no hint and no cancellation. `DroppedBatchLoses`,
  `ResumeLosesIff` and `CancelledResumeLosesIff` show what the next request loses where the last two fail.

## Where the code differs from what it says

The model follows the code.

- The iteration limit is checked after the empty-answer branch: the real bound is `max_iterations + 3`
  (react_runner.py:125-180, against the comment at 596-599; `AlwaysBounded`, `BoundIsReached`).
- Both adapters have a path for an `aborted` finish on cancellation, but a cancelled stream leaves the loop
  into the ordinary tail and finishes like any other (openai_completions.py:169-171, 318-324;
  `OneFinishNeverAborted`).
- A batch with a denied call and no call to ask about is neither run nor answered nor paused; its calls
  stay without results, and the next request loses calls (_execute_acting.py:105-141;
  `DenyWithoutAskDoesNothing`, `DroppedBatchLoses`).
- A cancellation while a confirmed batch is settled ends the run as ERROR, not as INTERRUPTED
  (react_runner.py:335-361; `AnswerBegins`).
- On a mixed resume the hints of allowed tools are written before the denied results, which separates a
  call from its result, and the next request loses them (_execute_acting.py:149-208; `ResumeLosesIff`).
- A tool name that arrives after the call was announced, arguments such as `null` or `[]`, and an empty
  tool result look different to a host that folds events and to the runner (`OneCallAgreesIff`,
  `LegibleIff`, `ResultAgreesIff`). A tool that returns only a hint is such a case.
- A tool task that is interrupted or ends in an exception is recorded as a success, in the context and in
  its event, because the state looks at the error text and not at the status (_execute_acting.py:317-363; `GatherResults`,
  `WriteResult`). The provider view does not contain the state (`ResultAgrees`).
- The fold is said to keep a rebuilt message consistent with the agent (_msg.py:388), but the runner sends no
  event when it takes an answer: folding its events alone, an answered call goes on asking until its result is
  written to its message (`HostShowsWhatWaits`). A host that also folds the answers it gives shows the state
  the runner keeps, except for a call whose result went to a later message, which happens when a batch that
  was dropped is settled together with a later one (react_runner.py:499-527, _execute_acting.py:149-208;
  `HostWithAnswersShows`).
- A rejected confirmation for a known call has already moved the current message id
  (react_runner.py:450-527).
- A wire index with an id and a name but no arguments makes the tail of the completions adapter raise;
  the turn then ends in an error finish (openai_completions.py:244-255; `StartedExactly`).

## Model

| member | source | states |
|---|---|---|
| `BlockContract.ExactRecogniser` | src/ftre_agent_core/llm/block_assembler.py:106-149 | feeding every chunk and then validating succeeds if and only if the sequence meets the declared contract: starts numbered 0, 1, 2, …, each ended exactly once and with a matching type, deltas only inside an open block of their type, exactly one finish and it is last |
| `BlockContract.FeedIffAllowed` | src/ftre_agent_core/llm/block_assembler.py:106-133 | one `feed` succeeds if and only if the contract allows the chunk after what was fed before |
| `BlockContract.FeedAllIffAllowed` | src/ftre_agent_core/llm/block_assembler.py:106-133 | a whole sequence is taken if and only if every chunk is allowed after the chunks before it; the assembler then mirrors the history (open blocks, their types and contents) |
| `BlockContract.IndicesPartitioned` | src/ftre_agent_core/llm/block_assembler.py:153-205 | after every accepted prefix the open and the finished indices partition 0 to `next_index - 1`, and the pending set is the open set |
| `BlockContract.InterleavingIndependent` | src/ftre_agent_core/llm/block_assembler.py:84-94 | two accepted streams with the same finish and, for each index, the same chunks of that index assemble the same `blocks()`, however the indices interleave |
| `BlockAssembly.BlockAssembler.constructor` | src/ftre_agent_core/llm/block_assembler.py:65-75 | a new assembler has seen nothing |
| `BlockAssembly.BlockAssembler.FeedChunk` | src/ftre_agent_core/llm/block_assembler.py:106-205 | the object takes a chunk as the specified transition does; on a protocol violation it reports the error and changes nothing |
| `BlockAssembly.BlockAssembler.Validate` | src/ftre_agent_core/llm/block_assembler.py:137-149 | the verdict at the end of the stream: unclosed blocks first, then a missing finish |
| `BlockAssembly.BlockAssembler.CollectBlocks` | src/ftre_agent_core/llm/block_assembler.py:84-94 | the finished blocks in index order whatever order they were closed in, without tool calls after a max-tokens finish |
| `AdapterContract.AcceptedExactly` | src/ftre_agent_core/llm/adapters/openai_completions.py:168-304 | the exact condition under which the assembler accepts a completions turn: if the provider failed, nothing had been started; otherwise (cancelled turns included) every started tool call was also named, and no smaller wire index got an id and a name but no arguments |
| `AdapterContract.NothingLost` | src/ftre_agent_core/llm/adapters/openai_completions.py:65-96 | if every wire index never got an id, or got an id, a name and some arguments, the turn is accepted, finishes as the last finish reason sent says (an unknown one is forgiven exactly when something was sent), and the assembled blocks are exactly the concatenated reasoning, text and per-call argument fragments, including arguments sent before the id |
| `AdapterContract.TakenWhole` | src/ftre_agent_core/llm/adapters/openai_completions.py:168-304 | whatever the provider sends and however the stream ends, `feed` never raises on the adapter's chunks |
| `AdapterContract.StartedExactly` | src/ftre_agent_core/llm/adapters/openai_completions.py:213-227 | a tool block is started for exactly the wire indices that got an id and some arguments, and everything buffered for it has been sent; the tail lookup fails for exactly those with id and name but no arguments |
| `AdapterContract.OneFinishNeverAborted` | src/ftre_agent_core/llm/adapters/openai_completions.py:233-329 | every turn ends with its only finish chunk, and that is never `aborted`, even when the stream was cancelled |
| `CompletionsAdapter.ToolCallAccumulator.Feed` | src/ftre_agent_core/llm/adapters/openai_completions.py:65-96 | a delta is merged under its wire index (an absent index means the number of known ones) and everything not yet sent is returned once an id is known |
| `CompletionsAdapter.ToolCallAccumulator.SortedWires` | src/ftre_agent_core/llm/adapters/openai_completions.py:98-108 | the wire indices in ascending order |
| `CompletionsAdapter.CompletionsTurn.TakeChunk` | src/ftre_agent_core/llm/adapters/openai_completions.py:168-231 | one provider chunk changes usage, block allocation, totals, output and finish reason as specified |
| `CompletionsAdapter.CompletionsTurn.CloseTools` | src/ftre_agent_core/llm/adapters/openai_completions.py:244-255 | the block-ends of the tool calls in wire order, cut short when the block of an identified call was never started |
| `CompletionsAdapter.CompletionsTurn.Close` | src/ftre_agent_core/llm/adapters/openai_completions.py:233-293 | the whole tail: content ends, tool ends, usage and finish, or the error finish when the tool lookup fails |
| `CompletionsAdapter.Stream` | src/ftre_agent_core/llm/adapters/openai_completions.py:168-329 | the loop over the provider's chunks yields exactly the specified output for every way the stream can end |
| `Reporting.ProviderUsageIsReported` | src/ftre_agent_core/llm/adapters/openai_completions.py:180-183 | whatever a Chat Completions provider sends and however its stream stops, one usage report reaches the events if the turn does not fail and the usage sent last has all three numbers, and it carries these; otherwise none does |
| `Reporting.ProviderFailureIsKept` | src/ftre_agent_core/llm/adapters/openai_completions.py:256-329 | a turn that breaks in transit, whose tail lookup fails, or that ends with an unknown reason and nothing else makes the attempt fail with just that error |
| `ResponsesContract.AcceptedExactly` | src/ftre_agent_core/llm/adapters/openai_responses.py:107-276 | the exact condition for the Responses adapter: no item is used as two things or after its end; a turn that breaks off needs nothing open, any other turn no call that was begun and not ended |
| `ResponsesBlocks.ItemsAreAssembled` | src/ftre_agent_core/llm/adapters/openai_responses.py:107-276 | in every accepted turn in which no text came for a call, however it ends, the assembled blocks are the output items one to one: each text and each reasoning is the concatenation of its item's deltas, each call carries all its argument deltas and the id and name they were sent with, distinct items have distinct blocks, and there is no other block |
| `ResponsesBlocks.ItemTells` | src/ftre_agent_core/llm/adapters/openai_responses.py:107-230 | while no item is misused, the block made by an item's own events holds its text, its reasoning, or its call, according to what the item has been used for |
| `ResponsesForwarding.ResponsesTextIsWritten` | src/ftre_agent_core/llm/adapters/openai_responses.py:117-152 | whatever a Responses provider sends and however its stream ends, all its text and all its reasoning in the order of the events, up to the first event that is out of place, and nothing else, reach the user as deltas and the context as blocks |
| `ResponsesForwarding.ResponsesCallsAreMade` | src/ftre_agent_core/llm/adapters/openai_responses.py:155-230 | a successful attempt behind the Responses adapter hands on exactly the calls of the items that were done, in that order, each with the id, name and arguments it was done with; none if the last word was that the response is incomplete |
| `ResponsesReporting.ResponsesFinishAsCalled` | src/ftre_agent_core/llm/adapters/openai_responses.py:155-276 | the finish of a turn that is read whole and does not fail, for any order of events: cut off if it was incomplete and not complete after that; otherwise for its calls if one with an id was done before it was complete and it was never incomplete; otherwise a plain stop |
| `ResponsesReporting.ResponsesUsageIsReported` | src/ftre_agent_core/llm/adapters/openai_responses.py:215-244 | such a turn reports the usage of its last word on completion, if all three numbers are known |
| `ResponsesReporting.ResponsesFailureIsKept` | src/ftre_agent_core/llm/adapters/openai_responses.py:246-302 | a turn that breaks, in which text came for a call, or in which nothing says how it ended makes the attempt fail with just that error |
| `ResponsesBlocks.BuiltAsFed` | src/ftre_agent_core/llm/block_assembler.py:153-205 | for every accepted chunk sequence each block the assembler holds, open or finished, is the one that the chunks addressed to it make on their own |
| `ResponsesAdapter.ResponsesTurn.TakeEvent` | src/ftre_agent_core/llm/adapters/openai_responses.py:107-230 | one provider event changes items, block allocation, finish kind and output as specified |
| `ResponsesAdapter.ResponsesTurn.Close` | src/ftre_agent_core/llm/adapters/openai_responses.py:232-267 | open text and reasoning items are closed in the order they were first seen, then usage and finish |
| `ResponsesAdapter.Stream` | src/ftre_agent_core/llm/adapters/openai_responses.py:100-302 | the loop over the provider's events yields exactly the specified output, also when a text delta arrives for a call item and the lookup raises |
| `ToolGrammar.OutputInGrammar` | src/ftre_agent_core/llm/wire/normalize.py:52-114 | the normalised form of any history is a sequence of other messages, assistant messages with payload and no calls, and groups of one assistant message with distinct non-empty call ids followed by exactly one result per id |
| `ToolGrammar.FixpointIffInGrammar` | src/ftre_agent_core/llm/wire/normalize.py:52-114 | a history is returned unchanged if and only if it is in that grammar (with normalised content) |
| `ToolGrammar.Idempotent` | src/ftre_agent_core/llm/wire/normalize.py:14-114 | a second run changes nothing |
| `ToolGrammar.Conserved` | src/ftre_agent_core/llm/wire/normalize.py:48-114 | bystanders and visible assistant contents survive in order, and kept plus counted results and kept plus counted callers add up to those of the input |
| `ToolGrammar.LosesNothingIffPaired` | src/ftre_agent_core/llm/wire/normalize.py:75-106 | no result is dropped and no call stripped if and only if the history cuts into paired units |
| `ToolGrammar.PairedLosesNothing` | src/ftre_agent_core/llm/wire/normalize.py:94-98 | a list of paired units loses no call and no result and comes out as the same units with empty assistant messages tidied away |
| `ToolGrammar.CompletePairMeansPairsOff` | src/ftre_agent_core/llm/wire/normalize.py:75-93 | the check as written with sets and lengths means: distinct non-empty ids, each answered exactly once, and no other result |
| `ToolGrammar.CountsDistinct` | src/ftre_agent_core/llm/wire/normalize.py:76-80 | pigeonhole: the set of ids is as large as the list exactly when nothing repeats |
| `NormalFates.NormalisedByFates` | src/ftre_agent_core/llm/wire/normalize.py:48-114 | what becomes of each message, told position by position on its fields: a result stays exactly if it is among the results that directly follow some calls and answer them one for one; calls stay, with content and thinking, exactly if they are answered so, and are taken away otherwise; an assistant message without calls stays exactly if it shows something or has thinking that is kept; content that shows nothing becomes an empty text; everything else stays as it is, in order |
| `Normalize.NormalizeChatMessages` | src/ftre_agent_core/llm/wire/normalize.py:48-114 | the index loop computes the normalised list and both counters |
| `Normalize.TakeMessage` | src/ftre_agent_core/llm/wire/normalize.py:52-106 | one pass of the loop body |
| `Normalize.FollowingResults` | src/ftre_agent_core/llm/wire/normalize.py:81-85 | the cursor loop collects exactly the maximal run of tool results |
| `Messages.ToOpenAIMessage` | src/ftre_agent_core/message/_convert.py:244-305 | a tool message is the first tool result of the blocks, or an empty one; for every other role a single pass sorts the blocks into content, reasoning and tool calls |
| `Flatten.MsgToDicts` | src/ftre_agent_core/message_context.py:20-118 | the loop with its pending assistant buffer flattens a message into provider messages |
| `Telling.FlatSaysTheBlocks` | src/ftre_agent_core/message_context.py:20-118 | read field by field, the provider messages of any block list and role say exactly what the blocks say, in order: texts and images under the role, thoughts, calls with their arguments, each hint as a user message with its own text, each result as the answer to its call |
| `Telling.ContextIsTold` | src/ftre_agent_core/message_context.py:120-155 | and so do the messages of a whole context |
| `Views.FlatIsSealed` | src/ftre_agent_core/message_context.py:94-118 | what the provider sees of a message depends only on its view: the contents of consecutive non-result blocks, results and hints in order |
| `Balance.BalancedIsPaired` | src/ftre_agent_core/message_context.py:94-118 | if in a message every run of calls is followed by results that permute them before the next other block, it flattens into paired units |
| `Balance.BalancedLosesNothing` | src/ftre_agent_core/message_context.py:150-155 | flatten then normalise drops no result and strips no call on a balanced context, for every system prompt |
| `ResponsesInput.ConvertMessages` | src/ftre_agent_core/llm/adapters/openai_responses.py:484-576 | the loop over messages builds the instructions and the input items |
| `ResponsesInput.InputKeepsPairing` | src/ftre_agent_core/llm/adapters/openai_responses.py:507-568 | the input of any normalised history is a series of free items and exchanges, each exchange being all calls in order directly followed by exactly one output per call; together they say what the normalised messages say |
| `ResponsesInput.NoOrphanOutput` | src/ftre_agent_core/llm/adapters/openai_responses.py:558-568 | every output has its call earlier in the input, with only calls and outputs between them |
| `ResponsesInput.SaysTheSame` | src/ftre_agent_core/llm/adapters/openai_responses.py:484-568 | for any history the input conveys every user text and image, every replayable reasoning item, every assistant text, every call with name and arguments and every output, in the order of the messages, the reasoning items of a message ahead of what they belong to |
| `ResponsesInput.InstructionsJoined` | src/ftre_agent_core/llm/adapters/openai_responses.py:491-503 | the instructions are all non-empty system texts joined by blank lines, or absent |
| `Convert.WrittenIsStable` | src/ftre_agent_core/message/_convert.py:177-305 | given inverse JSON printing and parsing: reading back a written message and writing it again gives the same message if and only if it is a tool message or every image it shows has a stable URL |
| `Convert.UrlStableIff` | src/ftre_agent_core/message/_convert.py:58-77 | an image URL is read and printed back unchanged if and only if it is no base64 data URL, or its header is `data:`, a non-empty media type without semicolon, and `;base64`, with the payload after a comma (section 3 of RFC 2397) |
| `Convert.DataUrlRoundTripIff` | src/ftre_agent_core/message/_convert.py:58-77 | a base64 source survives its data URL if and only if its media type is non-empty and has no comma or semicolon (section 3 of RFC 2397) |
| `Convert.FromOpenAIMessage` | src/ftre_agent_core/message/_convert.py:177-241 | the loops over parts and tool calls build the specified blocks |
| `Convert.ReadBackIs` | src/ftre_agent_core/message/_convert.py:177-241 | a provider message reads back as a block for each part of its content, then its reasoning if there is any, then a pending call for each call with id, name and arguments, in order; unreadable arguments count as none; a tool message is one successful result |
| `Events.HostMessage.FindBlock` | src/ftre_agent_core/message/_msg.py:150-155 | the first block with the type and id, or none |
| `Events.HostMessage.AppendEvent` | src/ftre_agent_core/message/_msg.py:179-430 | an event is folded into the message in place exactly as specified; events for other messages change nothing |
| `Showing.FoldShowsTold` | src/ftre_agent_core/message/_msg.py:321-425 | for every list of events in whatever order, the state a folded message shows for a call is the one the events tell: pending once it has started, asking once a confirmation is required, allowed or finished once one is answered, finished once a result that had begun has ended; a call that has not started shows nothing |
| `Showing.OtherCallsStay` | src/ftre_agent_core/message/_msg.py:179-430 | no event changes the state of a call it does not concern |
| `Showing.FoldShowsResults` | src/ftre_agent_core/message/_msg.py:345-391 | and the results it shows are those the events tell, with names and states, in order |
| `HostStates.HostShowsCalls` | src/ftre_agent_core/message/_msg.py:377-405 | for every life, message and call: a call the runner has written to the message shows as finished once the message has its result, as asking if the permission engine said to ask about it, and as pending otherwise; a call that was only announced, by an attempt that failed, never asks; none shows as allowed or submitted |
| `HostStates.HostShowsResults` | src/ftre_agent_core/message/_msg.py:345-391 | the results a host shows are those the runner has written to the message: the same calls, names and states, in the same order |
| `HostStates.HostShowsWhatWaits` | src/ftre_agent_core/message/_msg.py:394-405 | the calls that ask in the live context are exactly those asked about and not answered by the user since, and each shows as asking in the message that holds it; a call shows as asking without waiting if and only if the user has answered it and no result of it has been written to its message |
| `HostAnswers.HostWithAnswersShows` | src/ftre_agent_core/message/_msg.py:377-425 | a host that also folds the answers it gives shows a written call as finished once the message has its result, asking while it waits, finished or allowed once the user has refused or approved it, and pending otherwise; that is the live state if and only if the call has no result in another message, or was refused |
| `Events.HostMessage.EndCall` | src/ftre_agent_core/message/_msg.py:321-343 | the end event's own arguments win over the buffered deltas; unreadable text gives no arguments |
| `Events.HostMessage.GrowResult` | src/ftre_agent_core/message/_msg.py:362-375 | a delta extends the output of the result |
| `Context.MessageContext.AppendReplyBlocks` | src/ftre_agent_core/message_context.py:164-194 | blocks go to the last assistant message with the id, which is created at the end if there is none |
| `Context.MessageContext.SetToolCallState` | src/ftre_agent_core/message_context.py:259-272 | the first call with the id changes its state; whether there was one is returned |
| `Context.MessageContext.ToolCallsInState` | src/ftre_agent_core/message_context.py:275-288 | the calls in a state, in order of appearance |
| `Context.SetStateAt` | src/ftre_agent_core/message_context.py:259-272 | setting a state changes the one message that owns the call and no other |
| `CallLives.CallStateIs` | src/ftre_agent_core/agent/runner/_execute_acting.py:97-268 | the state of every call of the live context, read off the inputs: finished once it has a result; before that asking while it waits for the user, finished if the user refused it, allowed if the user approved it, and pending if it was never asked about |
| `Ledger.AppendLedger` | src/ftre_agent_core/message_context.py:164-194 | appending blocks with new call ids adds exactly their calls and results to the ledger of call states and answered ids |
| `Ledger.MarkLedger` | src/ftre_agent_core/message_context.py:259-272 | setting a state changes that entry of the ledger and no other, and no answered id |
| `Ledger.StateOfLedger` | src/ftre_agent_core/agent/runner/_execute_acting.py:242-248 | reading a call's state from the messages is looking it up in the ledger |
| `ReasoningExecutor.PerformAttempt` | src/ftre_agent_core/agent/runner/_execute_reasoning.py:265-507 | one attempt (chunk loop, success, failure and cancellation paths) sends the events and writes the blocks the specification says |
| `ReasoningExecutor.PerformReasoning` | src/ftre_agent_core/agent/runner/_execute_reasoning.py:202-602 | the retry loop performs exactly the specified attempts with the specified events, blocks and result |
| `Retries.EndsAsStreamed` | src/ftre_agent_core/agent/runner/_execute_reasoning.py:280-543 | how an attempt ends is read off its stream alone: a failing finish that is read, then a chunk that breaks the stream contract, then the way the stream stops, then what is missing in a stream that just ends |
| `Retries.ReasonIsItsAttempts` | src/ftre_agent_core/agent/runner/_execute_reasoning.py:202-602 | a reasoning action is exactly its attempts: attempt k+1 is made, and a retry announced before it, if and only if attempt k failed, is not the last one allowed, nothing was cancelled, and the hook asked for it or was silent about an error that is none of the three final ones; each request shows what was written before it; the result is that of the last attempt made |
| `Retries.AttemptIsMadeIff` | src/ftre_agent_core/agent/runner/_execute_reasoning.py:545-585 | attempt k is made if and only if every attempt before it was to be made again |
| `Retries.HintComesFirst` | src/ftre_agent_core/agent/runner/_execute_reasoning.py:206-230 | a hint is the first thing written and sent and stands in every request of the action; without one the request is announced at once |
| `Reporting.UsageIsReported` | src/ftre_agent_core/agent/runner/_execute_reasoning.py:356-413 | for every stream: one usage report is sent if the part that is read ends with a finish that is no failure and the last usage before it has all three numbers, and it carries these; otherwise none is sent |
| `Bracketing.ReasoningSound` | src/ftre_agent_core/agent/runner/_execute_reasoning.py:202-602 | for every chunk sequence, malformed, failing or cancelled: every text and thinking start has exactly one end before the next start of its kind, deltas name the open block, the text (thinking) of all deltas over all attempts is the text (thinking) written to the context, model-call starts count the requests, and there are between 1 and 1 + max_retries of them |
| `Forwarding.SaysWhatWasStreamed` | src/ftre_agent_core/agent/runner/_execute_reasoning.py:280-413 | whatever the model streams and however the attempt ends, the text and thinking of the chunks up to the first one that breaks the stream contract, and nothing else, are sent as deltas and written to the context |
| `Forwarding.SucceedsIff` | src/ftre_agent_core/agent/runner/_execute_reasoning.py:415-507 | an attempt succeeds if and only if the stream ends by itself, is accepted by the assembler, does not finish as an error or abort, and asks only for calls whose arguments are objects |
| `Forwarding.ResultIsWhatWasStreamed` | src/ftre_agent_core/agent/runner/_execute_reasoning.py:415-476 | a successful attempt hands on the whole text, the whole thinking and, unless cut short by the token limit, the calls whose blocks ended, in that order |
| `Forwarding.ProviderTextIsWritten` | src/ftre_agent_core/llm/adapters/openai_completions.py:168-304 | behind the completions adapter all text and reasoning the provider sends, and nothing else, reach the user and the context, whether the stream completes, is cancelled or fails |
| `Forwarding.ProviderCallsAreMade` | src/ftre_agent_core/llm/adapters/openai_completions.py:244-255 | and a successful attempt hands on exactly the calls with an id and a name, in wire order, each with all its arguments; none if the provider stopped at its token limit |
| `StreamOrder.AttemptAgreesIffOrderlyStream` | src/ftre_agent_core/agent/runner/_execute_reasoning.py:280-507 | for every model stream, however it and the attempt end: the message a host folds from the events and the blocks the runner writes show the provider the same, however the reply began and however it goes on, if and only if the stream is orderly, a condition on its chunks alone: in the part that is read, text and thinking each begin at most once and not to say nothing; the calls as first mentioned are the calls made, under their final names and in order, so a stream that fails or is cut short mentions none; and their arguments are legible |
| `StreamOrder.OrderlyIffStream` | src/ftre_agent_core/agent/runner/_execute_reasoning.py:280-507 | that condition on the chunks is met exactly when the events and the result of the attempt are orderly |
| `Agreement.AttemptAgreesIffOrderly` | src/ftre_agent_core/agent/runner/_execute_reasoning.py:280-507 | folded and written blocks are interchangeable (the flattened provider messages are equal for every beginning and every continuation of the reply) if and only if the events are orderly with respect to the calls handed on |
| `Agreement.LegibleIff` | src/ftre_agent_core/message/_msg.py:321-343 | host and runner read a call's arguments alike if and only if they are unreadable, truthy, or `{}` |
| `Rebuild.AttemptAgrees` | src/ftre_agent_core/agent/runner/_execute_reasoning.py:280-507 | an orderly attempt with new calls keeps host and runner in agreement, whatever both had before |
| `Rebuild.ReasonAgrees` | src/ftre_agent_core/agent/runner/_execute_reasoning.py:202-602 | so does a whole reasoning action in which every attempt that is made has an orderly stream, retries and hint included |
| `Projection.ResultAgreesIff` | src/ftre_agent_core/agent/runner/_execute_acting.py:317-379 | when host and runner agree and the runner writes one more result, folding its events gives the same provider messages as the written context if and only if the tool returned some text: an empty one is written as a placeholder but folds to nothing |
| `Rebuild.ResultAgrees` | src/ftre_agent_core/agent/runner/_execute_acting.py:317-379 | a result with text keeps host and runner in agreement whatever both had before, even if they record different result states |
| `Projection.EventsProjectContext` | src/ftre_agent_core/message/_msg.py:179-430 | for every life of a new agent and every message it has spoken about: folding the events sent to that message from an empty message gives the same provider messages as the live context |
| `Projection.AlwaysProjected` | src/ftre_agent_core/agent/runner/react_runner.py:586-706 | the agreement is an invariant of every step: new replies, turns, pauses, confirmations, resumes and host messages |
| `Projection.ActMoved` | src/ftre_agent_core/agent/runner/_execute_acting.py:97-147 | acting keeps the agreement |
| `Projection.ReasonedMoved` | src/ftre_agent_core/agent/runner/_execute_reasoning.py:155-602 | reasoning keeps the agreement |
| `CompletionsProjection.CompletionsOrderlyIffCallsAre` | src/ftre_agent_core/llm/adapters/openai_completions.py:168-304 | behind the completions adapter an attempt is orderly if and only if its calls are: text and thinking can never break the agreement, whatever the provider sends |
| `ProviderOrder.ProviderAgreesIffOrderly` | src/ftre_agent_core/llm/adapters/openai_completions.py:65-329 | the same, read off the provider's stream behind the completions adapter: for every turn, however it is cut into chunks and however it ends, host and runner stay interchangeable if and only if no call got as far as being announced, or the turn completes, is not cut short, has a name and arguments for every call or neither, asks only for objects, first announces exactly the calls it asks for, under their final ids and names and in the order of their wire indices, and all arguments are legible |
| `ProviderOrder.OneCallAgreesIff` | src/ftre_agent_core/llm/adapters/openai_completions.py:65-255 | so a completed turn with one call, in however many deltas, keeps host and runner in agreement if and only if the name was final as soon as the first arguments went out and the arguments are not a falsy value other than `{}` |
| `Termination.AlwaysBounded` | src/ftre_agent_core/agent/runner/react_runner.py:91-180 | in every reachable state iteration ≤ max_iterations + 3, model calls ≤ (max_iterations + 3) × (1 + max_retries), continuations ≤ max_continuations |
| `Termination.EveryRunEnds` | src/ftre_agent_core/agent/runner/react_runner.py:586-694 | every run has ended or paused after at most 2 × max_iterations + 8 rounds, whatever model, hooks, tools and permissions do |
| `Termination.BoundIsReached` | src/ftre_agent_core/agent/runner/react_runner.py:125-160 | the bound is tight for every limit of at least one iteration: a model that works in all of them but the last and then falls silent is asked three times more |
| `Licence.OnlyLicensedCallsRun` | src/ftre_agent_core/agent/runner/_execute_acting.py:97-268 | permission safety over all lives, read off the inputs: an executed call came up in a batch for whose every call the engine answered ALLOW, or it came up with the answer ASK and the first answer the user then gave for it was an approval |
| `Safety.AlwaysSafe` | src/ftre_agent_core/agent/runner/_execute_acting.py:97-268 | over all lives a call is executed at most once, and never while any call waits for the user |
| `Safety.NewIsSafe` | src/ftre_agent_core/agent/runner/react_runner.py:210-240 | the safety invariant holds of every new agent |
| `Safety.ExecutedIffAllAllowed` | src/ftre_agent_core/agent/runner/_execute_acting.py:97-147 | a batch executes exactly its calls, in order, if every one is allowed, and otherwise nothing |
| `Safety.BatchRunsIff` | src/ftre_agent_core/agent/runner/_execute_acting.py:97-147 | that is, exactly when each of its calls was confirmed by the user or is allowed by the engine |
| `Safety.ResumeSettlesAll` | src/ftre_agent_core/agent/runner/_execute_acting.py:149-268 | taking up a paused run executes exactly the allowed calls without a result, each once; unless that is cancelled, afterwards no call of the context is left without a result |
| `HostStates.HeldBatchAsks` | src/ftre_agent_core/agent/runner/_execute_acting.py:124-147 | a batch that may not run as a whole sends one confirmation request for each call to ask about, in order and with its name, and nothing else |
| `Safety.DenyWithoutAskDoesNothing` | src/ftre_agent_core/agent/runner/_execute_acting.py:105-141 | a batch with a denied call and none to ask about changes nothing at all: no execution, no result, no pause |
| `Safety.StartRefusedIffAsking` | src/ftre_agent_core/agent/runner/react_runner.py:383-400 | a new reply is refused, changing nothing, if and only if a call of the context waits for the user |
| `Tallies.ReplyTakenIff` | src/ftre_agent_core/agent/runner/react_runner.py:383-400 | read off the inputs: an agent at rest takes a new reply if and only if no call it asked about is unanswered |
| `Denial.DeniedNeverRuns` | src/ftre_agent_core/agent/runner/_execute_acting.py:149-232 | a call that is denied whenever it comes up is executed in no life, not even if the user approves it |
| `Denial.TopDenialDenies` | src/ftre_agent_core/agent/runner/_execute_acting.py:210-240 | an applicable denial that no applicable rule outranks makes the acting executor deny the call |
| `Settlement.ExecuteAnswers` | src/ftre_agent_core/agent/runner/_execute_acting.py:270-379 | executing a batch adds to the current reply exactly one result per call, in the order of the calls and each with its own tool's text (a placeholder for an empty one, the interruption for an exception), then the hints in that order; no other message gains any |
| `Settlement.ActAnswers` | src/ftre_agent_core/agent/runner/_execute_acting.py:97-147 | an allowed batch is answered in that way; a batch that is held or dropped is not answered at all |
| `Settlement.ResumeAnswers` | src/ftre_agent_core/agent/runner/_execute_acting.py:149-208 | a resume answers the approved calls with their own results, then come their hints, then every other pending call is denied, unless the approved part was cancelled |
| `RunBalance.RequestsLoseNothing` | src/ftre_agent_core/message_context.py:150-155 | in every tame life every request the model is sent survives flattening and normalising without a dropped result or a stripped call |
| `RunBalance.AlwaysEven` | src/ftre_agent_core/agent/runner/react_runner.py:586-706 | the standing behind it is an invariant of every step: the context is balanced, or the current reply owes exactly the calls of one open batch |
| `RunBalance.TurnOwes` | src/ftre_agent_core/agent/runner/_execute_reasoning.py:415-476 | writing a turn on a balanced context leaves it balanced, or owing exactly the turn's calls |
| `RunBalance.BalancedAnswers` | src/ftre_agent_core/agent/runner/_execute_acting.py:250-268 | in a balanced context no call is pending |
| `Loss.LosesNothingIffBalanced` | src/ftre_agent_core/message_context.py:94-155 | the balance condition is exact: when only assistant messages call and answer and none begins with a result, a request made from the context drops no result and strips no call if and only if the context is balanced |
| `Anchors.RequestsLoseIffUnbalanced` | src/ftre_agent_core/message_context.py:94-155 | and every request of every fair life is made from such a context |
| `RequestLoss.ResumeLosesIff` | src/ftre_agent_core/agent/runner/_execute_acting.py:149-208 | when the last answer comes in and the run goes on, its next request loses a call or a result if and only if the batch was mixed and its approved part brought a hint |
| `RequestLoss.CancelledResumeLosesIff` | src/ftre_agent_core/agent/runner/_execute_acting.py:149-208 | when settling a batch is cancelled, the first request of the next reply loses a call or a result if and only if the user had refused a call of the batch |
| `RequestLoss.DroppedBatchLoses` | src/ftre_agent_core/agent/runner/_execute_acting.py:105-141 | after a batch that is neither allowed as a whole nor asked about, the run goes on and its next request loses calls |
| `Terminal.AcceptedRunsEndOnce` | src/ftre_agent_core/agent/runner/react_runner.py:586-706 | every accepted run begins with one start event, unless an answer takes it up again, and sends exactly one end event, as its last, with the status to match, or pauses without one and with status PAUSED; nothing between begins or ends a reply |
| `Terminal.AnswerBegins` | src/ftre_agent_core/agent/runner/react_runner.py:450-527 | an answer is refused without effect on events and status, leaves the run paused, or takes it up; a cancellation while the batch is settled ends the run as ERROR |
| `Terminal.StartBegins` | src/ftre_agent_core/agent/runner/react_runner.py:383-448 | a new reply is refused unchanged or begins a run with one start event to its message |
| `Terminal.TurnsEndOnce` | src/ftre_agent_core/agent/runner/react_runner.py:586-694 | every turn keeps the promise |
| `Completion.EndsAreEarned` | src/ftre_agent_core/agent/runner/react_runner.py:586-694 | whatever model, hooks, tools and user do, a run that ends as COMPLETED leaves a reply whose last block is a text with a visible character, and a run that ends as EXCEED_MAX_ITERS has made its iterations |
| `Completion.RoundOnTrack` | src/ftre_agent_core/agent/runner/react_runner.py:91-180 | every turn keeps the invariant behind it: a final answer in hand is the end of the current reply |
| `Endings.TurnEndsIff` | src/ftre_agent_core/agent/runner/react_runner.py:91-180 | in every fair life a turn ends the run with a reason if and only if one of the causes of that reason comes up in it: INTERRUPTED if the hook, the model stream or a wait for it, the tools or the stop hook were cancelled; ERROR if the last turn failed, a fourth silence came up, or a hook raised; COMPLETED if the last turn was an answer and nothing goes on; EXCEED_MAX_ITERS if the model would be asked with no iteration left; it pauses if and only if a call of its batch is to be asked about |
| `Endings.RunsEndForAReason` | src/ftre_agent_core/agent/runner/react_runner.py:267-381 | whenever a run of a fair life is over, one input ended it and brought a cause of just that reason; ERROR also comes from a cancelled settlement |
| `Endings.ContinuedWithPrompt` | src/ftre_agent_core/agent/runner/_execute_acting.py:484-519 | a continued exit adds exactly one hint with the stop hook's prompt, to the end of the reply and to the events, and nothing else |
| `Endings.AskedWithPromptIff` | src/ftre_agent_core/agent/runner/react_runner.py:162-176 | the model is asked to come to an end, with the final prompt as the first event and the last block of the first request, and without tools, exactly after the third silence |
| `Tallies.CountersAreTallied` | src/ftre_agent_core/agent/runner/react_runner.py:586-694 | the counters these causes mention are counts of inputs: how often the model was asked, how often the stop hook had the run go on, and how often it may, since the last new reply or answer |
| `Hosts.HostsJoin` | src/ftre_agent_core/message_context.py:220-256 | the host's messages join the context in the order given, each with its role and blocks; one stays out exactly when it brings an id that the context or an earlier one has; those without an id get new ones, all different; nothing else changes |
| `Hosts.NewReplyIff` | src/ftre_agent_core/agent/runner/react_runner.py:630-652 | a turn speaks in a new message exactly when its reply has begun and the user has spoken since |
| `Hosts.RequestsShow` | src/ftre_agent_core/agent/runner/_execute_reasoning.py:232-280 | a turn makes one request for each attempt, and each shows the context with the host's messages and, at the end of the reply, what the turn had written before that attempt |
| `Anchors.AnswersAreConfluent` | src/ftre_agent_core/agent/runner/react_runner.py:499-527 | wherever a fair life rests, answering all waiting calls in any two orders, with any repetitions of the same decisions, leads to the same machine: phase, context, call states, events, counters, executions and requests |
| `Anchors.WaitingInOneMessage` | src/ftre_agent_core/agent/runner/react_runner.py:450-527 | whenever an agent rests in a fair life, all calls that wait for the user are in one message |
| `Confluence.OpenAnswersWait` | src/ftre_agent_core/agent/runner/react_runner.py:450-527 | while an answer is open nothing is sent and nothing runs, and exactly the answered calls have changed state |
| `Confluence.LastAnswerResumes` | src/ftre_agent_core/agent/runner/_execute_acting.py:149-208 | the last open answer resumes, from a state that depends on the decisions alone |
| `ReActRunner.GatherResults` | src/ftre_agent_core/agent/runner/tool_handler.py:274-310 | one result per call in the order of the calls, exceptions become failed or cancelled results, and the batch counts as cancelled if the run or any task was |
| `ReActRunner.ReActRunner.DecideNext` | src/ftre_agent_core/agent/runner/react_runner.py:91-180 | the next action, and the empty-answer bookkeeping as the only change |
| `ReActRunner.ReActRunner.ClassifyBatch` | src/ftre_agent_core/agent/runner/_execute_acting.py:210-232 | a decision for every call in order, already confirmed calls not asked about again, and a pause unless all are allowed |
| `ReActRunner.ReActRunner.ActStream` | src/ftre_agent_core/agent/runner/_execute_acting.py:97-147 | the batch is run, held with its questions, or dropped, as specified |
| `ReActRunner.ReActRunner.ExecuteCalls` | src/ftre_agent_core/agent/runner/_execute_acting.py:270-387 | spawn all, gather all, write all results, then all hints |
| `ReActRunner.ReActRunner.WriteResult` | src/ftre_agent_core/agent/runner/_execute_acting.py:317-363 | one result: its events, its block in the context and the call marked finished |
| `ReActRunner.ReActRunner.PendingToolCalls` | src/ftre_agent_core/agent/runner/_execute_acting.py:250-268 | the calls without a result anywhere in the context |
| `ReActRunner.ReActRunner.ResumeExecute` | src/ftre_agent_core/agent/runner/_execute_acting.py:149-208 | the allowed pending calls run, the others are answered with a denial, from the context alone |
| `ReActRunner.ReActRunner.AcceptConfirmation` | src/ftre_agent_core/agent/runner/react_runner.py:450-527 | an answer is refused, taken with others open, or taken as the last one; the current message moves to the owner of the call |
| `ReActRunner.ReActRunner.AddHostMessage` | src/ftre_agent_core/message_context.py:220-256 | a host message joins the context unless its id is taken; unknown roles count as assistant |
| `ReActRunner.ReActRunner.ReasonStep` | src/ftre_agent_core/agent/runner/react_runner.py:618-660 | a reasoning round: hook, host messages, a new reply id after a user message, the action |
| `ReActRunner.ReActRunner.ExitStep` | src/ftre_agent_core/agent/runner/_execute_acting.py:464-555 | the reply is ended, unless the stop hook asks for more and has continuations left |
| `ReActRunner.ReActRunner.MainLoop` | src/ftre_agent_core/agent/runner/react_runner.py:586-694 | the loop is the state machine run on the given environments |
| `ReActRunner.ReActRunner.PrepareNewReply` | src/ftre_agent_core/agent/runner/react_runner.py:383-448 | refused exactly while a call waits for the user; otherwise counters, status and id are reset and the messages join |
| `ReActRunner.ReActRunner.RunReply` | src/ftre_agent_core/agent/runner/react_runner.py:267-381 | a whole run from a new message |
| `ReActRunner.ReActRunner.RunAnswer` | src/ftre_agent_core/agent/runner/react_runner.py:267-381 | a whole run from a user answer |
| `Cancellation.NoCallbackTwice` | src/ftre_agent_core/tool/cancellation.py:22-62 | under every interleaving of any number of threads no registration's callback runs twice, and all run with the one reason |
| `Cancellation.AllCallbacksRun` | src/ftre_agent_core/tool/cancellation.py:22-62 | once all threads are done after a cancellation, the callbacks that ran are exactly those of the registrations not withdrawn before it, early or late |
| `Cancellation.NothingRunsUncancelled` | src/ftre_agent_core/tool/cancellation.py:22-34 | without a cancellation no callback runs |
| `Cancellation.FirstReasonStays` | src/ftre_agent_core/tool/cancellation.py:22-45 | after the first cancellation the reason, the winner and the withdrawn registrations never change |
| `Cancellation.WinnerGivesReason` | src/ftre_agent_core/tool/cancellation.py:22-28 | for every schedule of any threads the token is cancelled if and only if a thread that began a cancellation has taken a step; the first such thread, read off the schedule, is the winner, and the reason is the one it began with |
| `Cancellation.EveryStepCounts` | src/ftre_agent_core/tool/cancellation.py:22-62 | no thread waits for another: each of its steps brings it nearer to its end |
| `Cancellation.CancellationToken.Cancel` | src/ftre_agent_core/tool/cancellation.py:22-34 | the locked part: the first call sets flag and reason and takes the callbacks with it |
| `Cancellation.CancellationToken.OnCancel` | src/ftre_agent_core/tool/cancellation.py:47-62 | the locked part: register under a new id, or be told the reason |
| `Cancellation.CancellationToken.Unregister` | src/ftre_agent_core/tool/cancellation.py:56-58 | removes the callback if it is still there |
| `Permission.EvaluateDecides` | src/ftre_agent_core/permission/_engine.py:33-98 | the decided behaviour is the one the set of rules determines: that of all applicable rules of the highest priority, DENY on a conflict there, the default if nothing applies |
| `Permission.OrderDoesNotMatter` | src/ftre_agent_core/permission/_engine.py:64-98 | rule lists with the same rules, in any order and with any repetition, decide the same behaviour |
| `Permission.NamedRuleIsTop` | src/ftre_agent_core/permission/_engine.py:64-98 | a rule named in a decision is applicable, outranked by none, and has the decided behaviour |
| `Permission.LoneTopDecides` | src/ftre_agent_core/permission/_engine.py:33-98 | an enabled rule for the tool or for all tools, whose every pattern fully matches its argument, decides if it has a higher priority than all other such rules |
| `Permission.OutrankedRuleIsIgnored` | src/ftre_agent_core/permission/_engine.py:72-76 | a rule outranked by an applicable rule changes nothing of the decision, wherever it stands |
| `Permission.InapplicableRuleIsIgnored` | src/ftre_agent_core/permission/_engine.py:50-66 | neither does a rule that is switched off, that names another tool, or one of whose patterns has no argument or does not fully match it |
| `Permission.BadPatternNeverMatches` | src/ftre_agent_core/permission/_engine.py:50-62 | a pattern that is no regular expression makes its rule inapplicable instead of failing |
| `Base64.AccumulatedBytes` | src/ftre_agent_core/message/_msg.py:271-298 | for every series of data deltas, accumulation succeeds if and only if every delta can be decoded, and the data then decodes to the concatenation of the decoded deltas |
| `Base64.TextJoinDecodes` | src/ftre_agent_core/message/_msg.py:279-293 | two encodings joined as text decode to both when the first needs no padding; otherwise the second is dropped without an error |
| `Base64.TextJoinWorksIff` | src/ftre_agent_core/message/_msg.py:279-293 | so joining as text would be right if and only if the first needs no padding or the second is empty |
| `Base64.DecodeEncode` | src/ftre_agent_core/message/_msg.py:279-293 | decoding an encoding gives the bytes back (section 4 of RFC 4648) |
| `Base64.DataSource.AppendDelta` | src/ftre_agent_core/message/_msg.py:271-298 | a delta is decoded, joined and encoded again; one that cannot be decoded leaves the data alone |

## Left out

- HTTP, the provider SDK, logging, LLM log files and thread pools: a provider is an arbitrary finite list of chunks or events and a way to end.
- Tool execution, hook dispatch, the tool registry and dependency injection: every outcome and answer is an arbitrary value per call or per round.
- Scheduling of asyncio: a batch is a map from call ids to outcomes, and each write phase runs to its end; a generator closed in the middle of a phase is not modelled.
- A confirmation that arrives while the loop of the same run is still going: resuming has no lock against it, and the model takes inputs one after the other.
- JSON text and regular expressions: printing and parsing are an abstract pair with an inverse law where one is needed, matching is an abstract partial function.
- Pydantic validation, timestamps, display names of messages: ids come from a counter, and ids chosen by hosts never equal drawn ones.
- Classification of exceptions into error codes, and the upper-casing of codes: errors carry an arbitrary code.
- Token totals and model usage accounting beyond the usage chunk and the model-call events.
- Reasoning metadata in flattened messages (legacy `reasoning_content`, grouped output items): replayable reasoning items are opaque, and the sanitising of output items is not modelled.
- Image details and file ids in Responses input, parts other than text and images, and `image_file` parts, which read files.
- Multimodal hints and tool outputs, and data deltas inside tool results.
- `runtime_context` overrides of the iteration limit; the continuation counter restarts with each new reply and each answer, as in the code.
- Finished `Msg` objects handed to `add_raw`: host messages are given as role, blocks and an optional id.
- A task already cancelled while the error hook or the back-off sleep runs is an input of the attempt, not derived from a clock.
- Tracing, exporters, protocol registry, tool decorator: bookkeeping or table lookups with shallow properties only.
- ResponsesBlocks.ItemsAreAssembled: does not cover turns in which text came for a call, because the adapter then raises and reads no further; the acceptance condition covers them.
- Messages.ToOpenAIMessage: does not model the call without a role, in which the first block decides the form; blocks other than the listed ones and multimodal hints are left out.
- Flatten.MsgToDicts: does not model reasoning kept in message metadata and grouped output items.
- ResponsesInput.ConvertMessages: does not model image details, file ids and parts other than text and images.
- Convert.FromOpenAIMessage: does not model parts other than text and images, list content of a tool message, and the names of tool results.
- Events.HostMessage.AppendEvent: does not model data block events (their accumulation is in Base64), data deltas of results, token counts, timestamps and metadata of end events.
- BlockContract.InterleavingIndependent: compares the assembled blocks, not the usage, which is the last one sent.
