# Verified kernels of pidrei

A Dafny 4.11 model of the concurrent and stateful kernels of pidrei and of the algorithms where its code
uses a fast or transformed form of a simple definition. `dafny verify dfyconfig.toml` checks all of it.

Each kernel has a specification (functions, or a state machine whose steps are the code's atomic regions),
methods or classes in the form of the source that are proved to compute it, and theorems over every input or
every run. The theorems about logs, wires, texts and values are stated over what can be observed, not over the
specification's own functions.

| files | kernel |
|---|---|
| `Transcript.dfy` | agent messages; which tools a transcript declares and how the loop declares changes |
| `ToolBatch.dfy`, `BatchLaws.dfy` | sequential and parallel batches of tool calls, every interleaving of their tasks |
| `AgentLoop.dfy`, `AgentLoopTheorems.dfy`, `TurnLaws.dfy` | the nested loops of a run, its event trace, transcript and queue polls |
| `McpProtocol.dfy`, `McpClient.dfy`, `McpRuns.dfy` | request correlation in the MCP client |
| `Mailbox.dfy`, `MailboxActor.dfy`, `MailboxLaws.dfy` | the agent's mailbox: message queues and the run slot |
| `Dispatcher.dfy`, `MessageDispatch.dfy`, `DispatchLaws.dfy` | the event dispatcher of a run |
| `TranscriptSearch.dfy`, `SearchIndex.dfy`, `SearchText.dfy` | transcript search: span index, sweep, cache |
| `Declarations.dfy`, `DeclarationTheorems.dfy`, `DeclarationMeaning.dfy`, `DeclarationNames.dfy`, `SchemaRendering.dfy`, `ToolDeclarations.dfy`, `ToolMeaning.dfy` | schema rendering with generated names, and what the annotations mean |
| `Pricing.dfy` | gateway prices as request-wide tiers |
| `Publication.dfy`, `ModelRegistry.dfy`, `PublicationLaws.dfy` | generation-checked publication of refreshed models |
| `Url.dfy`, `Fuzzy.dfy`, `FuzzyScore.dfy` | dot segments, fuzzy matching |
| `Prelude.dfy` | optional values and facts about sequences |

How the environment is modelled:

- A provider, a hook, a queue poll, a cancellation and the interleaving of tool tasks are a script that the
  theorems quantify over. A script that ends before the run does stands for a prefix of a run.
- A lock-protected region is one atomic step; a state machine's run is any sequence of steps, so every
  interleaving. A timer may fire at any moment after it was armed, also after it was cancelled.
- Lower-casing, white space, word boundaries, grapheme segmentation, character equivalence, PascalCase,
  identifiers, reference lookup, price rounding and listener failures are function parameters.
- Histories that the code does not keep (what was sent, taken or written so far) are extra state of the
  specifications; no step depends on them.

Where the code and its documentation disagree, the model follows the code:

- `_declare_tool_changes` says that replay always yields `context.tools`. It yields the same tools; the order is
  that of `context.tools` exactly when the tools already declared form a prefix of it
  (`Transcript.DeclaredReplayInOrder`, `Transcript.DeclaredOrderCanDiffer`).
- `get_ai_gateway_cost` misses a last bracket whose `max` is an explicit null
  (`Pricing.TiersPreservePrices`, `Pricing.NullMaxIsMissed`).
- The renderer takes a schema without a type but with keywords of objects or arrays for one of those, a tuple's
  types for all of its elements, and `items` for the elements before it too. JSON Schema accepts more there
  (`ToolMeaning.UntypedObjectMissesOthers` and the three lemmas after it); without them it does not
  (`ToolMeaning.OpenIsClosed`).
- A union merges equal parts, so an alternative shared by different parts is written twice
  (`DeclarationMeaning.AlternativeTwice`).
- The ASCII test of the search index accepts a line with a trailing newline, which is then searchable text
  (`SearchIndex.RunIndexAgrees`, `SearchIndex.NewlineIndexed`).
- The letter and digit expressions of `fuzzy_match` accept a trailing newline in the same way; `Fuzzy.Body`
  models it.

## Model

| member | source | states |
|---|---|---|
| `Transcript.ApplyDifference` | packages/ai/pidrei_ai/utils/transcript.py:203-218 | Applying the computed difference to the declared tools leaves the kept ones in place and the new or changed ones after them, with distinct names. |
| `Transcript.NoDifference` | packages/ai/pidrei_ai/utils/transcript.py:203-218 | The difference is empty exactly when both sides declare the same tools. |
| `Transcript.DeclaredReplay` | packages/agent/pidrei_agent/agent_loop.py:374-419 | Whatever is pending, replaying the transcript with the declared messages yields the executable tools: those already declared, in their declared order, then the rest. |
| `Transcript.DeclaredReplayInOrder` | packages/agent/pidrei_agent/agent_loop.py:382-384 | The replay equals the tool list in its own order exactly when the tools already declared are a prefix of that list; the docstring claims it always. |
| `Transcript.DeclaredOrderCanDiffer` | packages/agent/pidrei_agent/agent_loop.py:374-419 | Concrete input: two declared tools listed the other way round replay in the declared order. |
| `Transcript.DeclareKeepsMessages` | packages/agent/pidrei_agent/agent_loop.py:399-419 | At most one message is inserted, an empty system message in front; otherwise every message stays in its place and only tool fields change. |
| `Transcript.DeclareSettles` | packages/agent/pidrei_agent/agent_loop.py:374-419 | Once the result is committed, a second call with nothing pending returns nothing. |
| `ToolBatch.RunKeepsShape` | packages/agent/pidrei_agent/agent_loop.py:873-930 | Under every interleaving of the tasks each call has one start, then its delivered updates in the order they were sent, then at most one end. |
| `ToolBatch.StepShape` | packages/agent/pidrei_agent/agent_loop.py:873-930 | Each atomic step of a call (begin, send, forward, return, join, finish) moves its history as its stage requires. |
| `ToolBatch.ParallelComplete` | packages/agent/pidrei_agent/agent_loop.py:741-816 | A finished parallel batch, for every interleaving: complete histories for a prefix of the calls, then all result messages in source order, one per finalized call. |
| `ToolBatch.SequentialComplete` | packages/agent/pidrei_agent/agent_loop.py:700-739 | A finished sequential batch: the same, each call's events and result message coming before the next call starts. |
| `ToolBatch.UncancelledIsWhole` | packages/agent/pidrei_agent/agent_loop.py:735-736 | The prefix is the whole list of calls when the token is never found cancelled. |
| `ToolBatch.TruncatedNeverStops` | packages/agent/pidrei_agent/agent_loop.py:649-677 | A message cut off by the token limit executes nothing: every call gets its error result in order and the batch never asks to stop. |
| `ToolBatch.ExecuteSequential` | packages/agent/pidrei_agent/agent_loop.py:700-739 | The sequential loop computes the specified log, results and termination flag. |
| `ToolBatch.ExecuteParallel` | packages/agent/pidrei_agent/agent_loop.py:741-816 | The preparation loop, the tasks and the emission loop compute the specified log, results and termination flag. |
| `ToolBatch.FailTruncated` | packages/agent/pidrei_agent/agent_loop.py:649-677 | The loop over a truncated message computes the specified batch. |
| `BatchLaws.SequentialTells` | packages/agent/pidrei_agent/agent_loop.py:700-739 | In a finished sequential batch result `i` is the message of call `i`'s end event, and the batch asks the agent to stop exactly when some call ended and every end event asks for it. |
| `BatchLaws.ParallelTells` | packages/agent/pidrei_agent/agent_loop.py:741-819 | The same of a finished parallel batch, for every interleaving of its tasks. |
| `BatchLaws.UpdatesAreSent` | packages/agent/pidrei_agent/agent_loop.py:885-913 | Under every interleaving the updates a call gets through are exactly those its tool sent while it ran, in order. |
| `BatchLaws.SequentialEndsFrom` | packages/agent/pidrei_agent/agent_loop.py:700-739 | Each end event of a sequential call carries the outcome its preparation refused it with or its task finished with. |
| `BatchLaws.ParallelEndsFrom` | packages/agent/pidrei_agent/agent_loop.py:741-816 | Each end event of a parallel call carries the outcome its preparation refused it with, its task finished with, or the abort of a token cancelled before it began. |
| `BatchLaws.TruncatedRunsNothing` | packages/agent/pidrei_agent/agent_loop.py:649-677 | Every call of a truncated message is started, ended with an error at once without an update, and answered by that error; the batch does not ask to stop. |
| `AgentLoop.StreamAssistantResponse` | packages/agent/pidrei_agent/agent_loop.py:434-517 | The stream loop emits one opening, the updates and one closing event, and leaves the final message in the context whether or not the stream announced it. |
| `AgentLoop.RunTurn` | packages/agent/pidrei_agent/agent_loop.py:235-351 | The body of the inner loop, with its flags, is one turn of the flat machine. |
| `AgentLoop.RunNested` | packages/agent/pidrei_agent/agent_loop.py:226-371 | The two nested loops with `has_more_tool_calls`, `pending_messages` and the explicit continuation refine the flat machine, whatever a turn does. |
| `AgentLoop.RunLoop` | packages/agent/pidrei_agent/agent_loop.py:212-371 | The nested loops compute the flat machine of the actual turns. |
| `TurnLaws.AnotherRequest` | packages/agent/pidrei_agent/agent_loop.py:299-369 | Another request follows a turn exactly when its answer stopped with neither an error nor an abort, its batch completed, `finish_turn` did not end it, and a tool ended without asking to stop, a message was polled or a continuation was decided. |
| `TurnLaws.TurnOpens` | packages/agent/pidrei_agent/agent_loop.py:239-297 | What one turn writes up to its answer: the poll while it was prepared only if nothing was pending, its start, the delivery of every prepared and polled message, and the request, which shows the context with the declared messages (replaying to the executable tools) unless a hook replaced it. |
| `TurnLaws.TurnCloses` | packages/agent/pidrei_agent/agent_loop.py:299-369 | What one turn writes after its answer: its tools' events, a turn_end with exactly the results completed since the answer, the polls it comes to, and the agent_end; an error or abort runs no tool, polls nothing and ends the run; results join the context and the new messages. |
| `TurnLaws.BatchMode` | packages/agent/pidrei_agent/agent_loop.py:680-816 | In sequential mode each call's events and result come before the next call; otherwise all results follow all tool events, in source order. |
| `TurnLaws.LengthRunsNothing` | packages/agent/pidrei_agent/agent_loop.py:316-324 | After a `length` stop no call runs: each is started, ended with an error and answered, and the turn goes on. |
| `TurnLaws.StreamShows` | packages/agent/pidrei_agent/agent_loop.py:475-517 | A response that starts once shows its start, one update per later delta and the answer; one that never starts shows the answer alone. |
| `AgentLoopTheorems.StreamPiece` | packages/agent/pidrei_agent/agent_loop.py:475-517 | A response adds exactly its final message as a message_end payload; its trace is well formed exactly when the stream starts at most once. |
| `AgentLoopTheorems.FlatConsistent` | packages/agent/pidrei_agent/agent_loop.py:212-371 | Every run: a finished one has closed its trace and its message_end payloads are the new messages; an unfinished one stands inside a turn or between two, with the new messages and at most the answers to the first calls of the batch under way completed. |
| `AgentLoopTheorems.FlatUnbroken` | packages/agent/pidrei_agent/agent_loop.py:212-371 | At no moment of any run, finished or not, is the trace outside the grammar of agent, turn and message events. |
| `AgentLoopTheorems.FlatGrows` | packages/agent/pidrei_agent/agent_loop.py:265-297 | Unless a hook swaps the context, the context is the one the run started from followed by the new messages. |
| `AgentLoopTheorems.FlatConserves` | packages/agent/pidrei_agent/agent_loop.py:226-270 | At every point of every run the polled messages, in poll order, are the delivered ones followed by those pending; nothing is pending when a run finishes. |
| `AgentLoopTheorems.FlatDelivers` | packages/agent/pidrei_agent/agent_loop.py:265-271 | Each delivery is followed at once by the start and end of exactly its messages, up to their rewritten tool fields and one inserted declaration. |
| `AgentLoopTheorems.FlatPaced` | packages/agent/pidrei_agent/agent_loop.py:226-270 | With polls of at most one message, at most one message is polled between two requests. |
| `AgentLoopTheorems.RunTrace` | packages/agent/pidrei_agent/agent_loop.py:146-172 | Every finished run with new prompts: agent_start, turns each opened and closed once, closed messages, one final agent_end; its message_end payloads are the new messages and, without context swaps, the appended suffix of the context. |
| `AgentLoopTheorems.RunTraceSoFar` | packages/agent/pidrei_agent/agent_loop.py:146-172 | Every run with new prompts, also one that never stops or ends inside a batch: its trace is in the grammar at every moment. |
| `AgentLoopTheorems.BatchUnderway` | packages/agent/pidrei_agent/agent_loop.py:680-816 | A batch that has not returned stays inside its turn and has answered at most its first calls, in order. |
| `AgentLoopTheorems.RunDeliversPolls` | packages/agent/pidrei_agent/agent_loop.py:146-172 | Every finished run with new prompts delivered each polled message once, in poll order, on the spot. |
| `AgentLoopTheorems.RunPaces` | packages/agent/pidrei_agent/agent_loop.py:146-172 | With one-at-a-time queues each request of a run follows at most one newly polled message. |
| `AgentLoopTheorems.ContinueTrace` | packages/agent/pidrei_agent/agent_loop.py:175-202 | The trace of every finished run that continues a context. |
| `AgentLoopTheorems.ContinueTraceSoFar` | packages/agent/pidrei_agent/agent_loop.py:175-202 | The trace of every run that continues a context, at every moment. |
| `AgentLoopTheorems.ContinueDeliversPolls` | packages/agent/pidrei_agent/agent_loop.py:175-202 | The same for its deliveries. |
| `AgentLoopTheorems.ContinuePaces` | packages/agent/pidrei_agent/agent_loop.py:175-202 | The same for its pace. |
| `AgentLoopTheorems.RunAgentLoop` | packages/agent/pidrei_agent/agent_loop.py:146-172 | The entry point runs the machine from the state with the declared prompts already emitted. |
| `TurnLaws.StartShows` | packages/agent/pidrei_agent/agent_loop.py:146-172 | A run with new prompts starts with the events of the declared prompts, which carry them and replay to the executable tools, and its first poll. |
| `AgentLoopTheorems.RunAgentLoopContinue` | packages/agent/pidrei_agent/agent_loop.py:175-202 | The entry point refuses an empty context and a last assistant message, in that order, and otherwise runs the machine. |
| `McpProtocol.NextKeeps` | packages/mcp/pidrei_mcp/client.py:553-871 | Every step (request, response, timer, token, failed send, abandoned caller, progress, close, settling) keeps the bookkeeping of entries, progress tokens, subscriptions and the wire. |
| `McpProtocol.RunSafe` | packages/mcp/pidrei_mcp/client.py:553-871 | The same over every run. |
| `McpProtocol.RemoverDecides` | packages/mcp/pidrei_mcp/client.py:660-673 | The step that removes a request from the pending map decides its outcome: a response with that very id, its own timer, token, send or caller, or the close. |
| `McpProtocol.RemovedIff` | packages/mcp/pidrei_mcp/client.py:794-819 | A pending request leaves the map exactly by its reply, its current timer, its token, its failed send, its abandoning caller or the close; the server is told exactly when it timed out or was aborted, may be cancelled and there is a transport. |
| `McpProtocol.OutcomeWrittenOnce` | packages/mcp/pidrei_mcp/client.py:893-897 | A removed request never becomes pending again; its outcome is the one its remover decided, written at most once and exactly once when the remover has settled; its subscription is dropped once if it was ever stored or came too late. |
| `McpProtocol.RunForward` | packages/mcp/pidrei_mcp/client.py:307-364 | The connection state only moves forward, a removed request keeps its outcome, and what was sent stays sent. |
| `McpProtocol.WireDiscipline` | packages/mcp/pidrei_mcp/client.py:564-594 | Request ids on the wire are fresh; a cancellation follows its own request, is sent at most once, never for a request that may not be cancelled, and only for one that timed out or was aborted. |
| `McpProtocol.ConnectionStory` | packages/mcp/pidrei_mcp/client.py:307-364 | Connected implies a session, closed implies nothing pending, and the progress index is exactly the tokens of pending requests with a listener. |
| `McpProtocol.ClosedForGood` | packages/mcp/pidrei_mcp/client.py:851-871 | Once closed, nothing is pending, no request is added and the close listeners were handed out once. |
| `McpProtocol.ProgressRenews` | packages/mcp/pidrei_mcp/client.py:744-757 | A progress notification arms a new timer in place of the old one and leaves the request pending. |
| `McpProtocol.TimersFire` | packages/mcp/pidrei_mcp/client.py:774-792 | A pending request with a timeout always has a current timer, and when it fires the request is removed as timed out. |
| `McpProtocol.SupersededNeverFires` | packages/mcp/pidrei_mcp/client.py:774-811 | A superseded timer that fires later changes nothing, in any later state. |
| `McpRuns.AcceptedIff` | packages/mcp/pidrei_mcp/client.py:563-594 | A request is accepted exactly with a transport, a connected client (or a connecting one if it may go out early) and a token that has not fired; it then takes the next id, is pending and on the wire, with its own terms. |
| `McpRuns.RequestKeepsItsTerms` | packages/mcp/pidrei_mcp/client.py:563-622 | In every later state the entry of an accepted request is cancellable, reports progress, is timed and has a token exactly as its request step said; if it may not be cancelled, no cancellation of it is ever on the wire. |
| `McpRuns.CancelledByRight` | packages/mcp/pidrei_mcp/client.py:563-622 | Every cancellation on the wire names a request whose own step, found in the run, allowed it. |
| `McpRuns.SettlingWrites` | packages/mcp/pidrei_mcp/client.py:893-897 | The remover's settling step leaves exactly the outcome it claimed, for its own request only. |
| `McpRuns.ConnectionMoves` | packages/mcp/pidrei_mcp/client.py:307-364 | Exactly which steps move the connection state and the transport. |
| `McpRuns.SessionNegotiated` | packages/mcp/pidrei_mcp/client.py:307-364 | In every run the session of the client is one that a handshake step negotiated. |
| `McpClient.Client.ConnectBegin` | packages/mcp/pidrei_mcp/client.py:307-319 | Connecting is accepted in the idle state only. |
| `McpClient.Client.ConnectFinish` | packages/mcp/pidrei_mcp/client.py:349-355 | Connected is reached only from connecting, and then there is a session. |
| `McpClient.Client.BeginRequest` | packages/mcp/pidrei_mcp/client.py:563-594 | The first lock of a request registers the entry, arms its timer and sends its message, or refuses. |
| `McpClient.Client.StoreSubscription` | packages/mcp/pidrei_mcp/client.py:596-606 | The second lock stores the subscription of a pending request and drops it otherwise. |
| `McpClient.Client.HandleResponse` | packages/mcp/pidrei_mcp/client.py:660-673 | A response removes the entry with its id; an unknown id changes nothing. |
| `McpClient.Client.HandleProgress` | packages/mcp/pidrei_mcp/client.py:744-757 | A known progress token renews the timeout of its request only. |
| `McpClient.Client.ArmTimeoutLocked` | packages/mcp/pidrei_mcp/client.py:774-792 | Arming gives the entry a new generation, or none without a timeout. |
| `McpClient.Client.CancelPendingRequest` | packages/mcp/pidrei_mcp/client.py:794-819 | A stale generation or an absent entry changes nothing; otherwise the entry is removed and the server told if asked and still connected to. |
| `McpClient.Client.RemovePendingLocked` | packages/mcp/pidrei_mcp/client.py:835-846 | Removal drops the timer, the progress token, the subscription and the send. |
| `McpClient.Client.MarkClosed` | packages/mcp/pidrei_mcp/client.py:851-871 | The loop over the pending entries removes every one of them. |
| `McpClient.Client.Settle` | packages/mcp/pidrei_mcp/client.py:893-897 | Settling writes the remover's outcome and nothing else. |
| `McpClient.Client.Run` | packages/mcp/pidrei_mcp/client.py:553-871 | Any sequence of method calls is a run of the protocol and keeps its invariant. |
| `Mailbox.NextKeeps` | packages/agent/pidrei_agent/agent.py:327-415 | Every step of callers, mode setters, lifecycles and consumer keeps the slot and queue invariants. |
| `Mailbox.RunSafe` | packages/agent/pidrei_agent/agent.py:327-415 | The same over every run of the mailbox. |
| `Mailbox.SlotStory` | packages/agent/pidrei_agent/agent.py:780-859 | At most one run holds the slot; the holder is being spawned, is live, or has exactly one finish job queued; a run whose `done` is set does not hold it and has no job left. |
| `Mailbox.SlotNeverLeaks` | packages/agent/pidrei_agent/agent.py:808-859 | With the channel drained and no live lifecycle, the slot is free. |
| `Mailbox.AdmittedIffFree` | packages/agent/pidrei_agent/agent.py:387-395 | An admission is granted exactly when no run holds the slot, and otherwise changes nothing but its own rejection. |
| `Mailbox.QueuesConserve` | packages/agent/pidrei_agent/agent.py:194-227 | For each queue, messages in send order are the drained and cleared batches, then the queue, then what the channel still carries, under arbitrary mode changes; a one-at-a-time drain takes at most one. |
| `Mailbox.RunForward` | packages/agent/pidrei_agent/agent.py:397-415 | A settled admission stays settled, and what was delivered stays delivered. |
| `MailboxLaws.DrainTakes` | packages/agent/pidrei_agent/agent.py:216-224 | The consumer drains everything in mode "all" and the first message otherwise, in order, and leaves the rest and the other queue alone. |
| `MailboxLaws.ClearEmpties` | packages/agent/pidrei_agent/agent.py:226-227 | A clear empties its queue and leaves the other alone. |
| `MailboxLaws.ModeIs` | packages/agent/pidrei_agent/agent.py:194-208 | In every run the mode of a queue is the one set last. |
| `MailboxLaws.ConsumerDrains` | packages/agent/pidrei_agent/agent.py:397-415 | Left to itself the consumer empties any channel, one job a round. |
| `MailboxActor.PendingMessages.Drain` | packages/agent/pidrei_agent/agent.py:221-224 | Draining takes a prefix by the current mode, empty only if the queue is. |
| `MailboxActor.PendingMessages.PeekMessages` | packages/agent/pidrei_agent/agent.py:216-219 | Peeking returns the whole queue or its first message. |
| `MailboxActor.AgentMailbox.Claim` | packages/agent/pidrei_agent/agent.py:387-390 | The slot is taken only when it is free. |
| `MailboxActor.AgentMailbox.Release` | packages/agent/pidrei_agent/agent.py:392-394 | Only the holder releases the slot. |
| `MailboxActor.AgentMailbox.Consume` | packages/agent/pidrei_agent/agent.py:397-415 | The consumer runs the first job of the channel and no other. |
| `MailboxActor.AgentMailbox.Run` | packages/agent/pidrei_agent/agent.py:327-415 | Any run of the actor keeps the invariant. |
| `Dispatcher.NextKeeps` | packages/agent/pidrei_agent/agent.py:808-966 | Every step of emitters, observers, listeners and dispatcher keeps the ticket channel in order. |
| `Dispatcher.DispatcherStory` | packages/agent/pidrei_agent/agent.py:918-966 | Tickets are observed once, in send order, before the sentinel; listener calls never overlap; the messages are the initial ones followed by the message_end payloads of the reduced tickets taken. |
| `Dispatcher.PublishedIsReduced` | packages/agent/pidrei_agent/agent.py:936-966 | In every reachable state the published messages and streaming message are the initial ones reduced by the reduced tickets taken so far, and by nothing else. |
| `Dispatcher.ObserversInvisible` | packages/agent/pidrei_agent/agent.py:878-902 | Two runs that have taken the same reduced events publish the same state, whatever was observed, whoever listened and however they interleaved. |
| `Dispatcher.RunPublishes` | packages/agent/pidrei_agent/agent.py:702-713 | For a finished run of the loop, through any interleaving with observers, the stopped dispatcher has published the initial messages and the new messages: the loop's own context unless a hook swapped it. |
| `Dispatcher.ContinuePublishes` | packages/agent/pidrei_agent/agent.py:715-725 | The same for a finished run that continues a context. |
| `DispatchLaws.StreamingIs` | packages/agent/pidrei_agent/agent.py:949-966 | In every reachable state the streaming message is the payload of the last message_start or message_update among the reduced events taken, unless a message_end or agent_end follows it. |
| `DispatchLaws.SentAre` | packages/agent/pidrei_agent/agent.py:878-902 | The tickets of a run are those its emitters and observers sent before the close, numbered in that order; exactly the emitters' events are reduced. |
| `DispatchLaws.AudienceIs` | packages/agent/pidrei_agent/agent.py:936-941 | Every ticket is meant for the listeners registered at the moment it was received. |
| `DispatchLaws.ListenersHear` | packages/agent/pidrei_agent/agent.py:940-946 | An observed ticket was heard by its audience in registration order, by all of it or up to and including the first failure. |
| `DispatchLaws.WithoutFirstIs` | packages/agent/pidrei_agent/agent.py:523-528 | Unsubscribing takes out the first registration of the listener and nothing else. |
| `Dispatcher.ServeStops` | packages/agent/pidrei_agent/agent.py:822-830 | After the close the dispatcher reaches its sentinel with every ticket observed, whatever the listeners do, so nobody waits on it. |
| `MessageDispatch.AgentState.ReduceEvent` | packages/agent/pidrei_agent/agent.py:949-966 | Reducing an event updates the streaming message and publishes a closed one. |
| `MessageDispatch.RunDispatcher.ObserveEvent` | packages/agent/pidrei_agent/agent.py:896-902 | An observer sends its ticket only while the feed is open. |
| `MessageDispatch.RunDispatcher.CallListeners` | packages/agent/pidrei_agent/agent.py:940-946 | The listeners captured for a ticket are called in order up to and including the first that fails, and the ticket is observed with exactly those calls. |
| `Dispatcher.ServeTicket` | packages/agent/pidrei_agent/agent.py:934-946 | Serving a closed feed goes through a ticket exactly as its listeners are called. |
| `MessageDispatch.RunDispatcher.ServeFeed` | packages/agent/pidrei_agent/agent.py:918-947 | The dispatch loop over a closed feed serves every ticket and stops at the sentinel. |
| `MessageDispatch.RunDispatcher.JoinDispatcher` | packages/agent/pidrei_agent/agent.py:822-830 | Joining the dispatcher ends with every sent ticket observed. |
| `MessageDispatch.RunDispatcher.UnsubscribeListener` | packages/agent/pidrei_agent/agent.py:523-528 | Unsubscribing removes the listener's first occurrence. |
| `TranscriptSearch.BuildSearchCorpus` | packages/tui/pidrei_tui/alt_screen_search.py:55-129 | The index loops build the specified text and spans. |
| `TranscriptSearch.LinesGood` | packages/tui/pidrei_tui/alt_screen_search.py:55-129 | The spans of any segmented lines are ordered by text offset and by cell, and none is empty. |
| `TranscriptSearch.SweepMatch` | packages/tui/pidrei_tui/alt_screen_search.py:149-167 | One pass from the current span index yields the segments that looking at every span yields. |
| `TranscriptSearch.FindSearchCorpusMatches` | packages/tui/pidrei_tui/alt_screen_search.py:136-173 | The monotone two-pointer sweep equals the per-match definition for any increasing matches. |
| `TranscriptSearch.MatchCells` | packages/tui/pidrei_tui/alt_screen_search.py:153-167 | A match highlights exactly the cells of its indexed characters, as disjoint segments in reading order. |
| `SearchIndex.RunIndexAgrees` | packages/tui/pidrei_tui/alt_screen_search.py:75-127 | The run index has the text and cells of the grapheme index exactly when no line indexed by runs ends in a newline; with one the texts differ. |
| `SearchIndex.NewlineIndexed` | packages/tui/pidrei_tui/alt_screen_search.py:25-25 | Concrete input: `$` also matches before a trailing newline, so the line is indexed with its newline. |
| `SearchIndex.FoundIncreasing` | packages/tui/pidrei_tui/alt_screen_search.py:145-147 | Successive matches are not empty, ordered and do not overlap. |
| `SearchText.CorpusIsWords` | packages/tui/pidrei_tui/alt_screen_search.py:55-129 | The grapheme index: its text is the words of the lines (maximal runs of graphemes without white space) joined by single spaces, every character of a grapheme has exactly that grapheme's cells, and a separator has none. |
| `SearchText.SearchTextIsWords` | packages/tui/pidrei_tui/alt_screen_search.py:75-129 | The same for the index a search uses, on lines without trailing newlines. |
| `SearchText.FoundAll` | packages/tui/pidrei_tui/alt_screen_search.py:136-147 | Every match found is one, and no place where the query matches lies outside the matches found. |
| `SearchText.SearchCovers` | packages/tui/pidrei_tui/alt_screen_search.py:136-173 | A search highlights exactly the cells of the characters of the matches found, and nothing for an empty query. |
| `SearchIndex.SearchHighlights` | packages/tui/pidrei_tui/alt_screen_search.py:136-173 | A search highlights, for each match in the grapheme index, exactly the cells of its characters. |
| `SearchIndex.AltScreenSearchIndex.Search` | packages/tui/pidrei_tui/alt_screen_search.py:191-207 | After any history of calls the answer is that of a fresh search, and an answer reported unchanged is the previous one. |
| `SearchIndex.AltScreenSearchIndex.FindFresh` | packages/tui/pidrei_tui/alt_screen_search.py:210-212 | The uncached search computes the same specified matches. |
| `Declarations.DecimalInjective` | packages/codemode/pidrei_codemode/declarations.py:219-226 | Different suffixes give different names, so looking for a free one ends. |
| `Declarations.FreshIsFirst` | packages/codemode/pidrei_codemode/declarations.py:219-226 | The name taken is the first free one among the base and its numbered variants. |
| `DeclarationTheorems.RenderSound` | packages/codemode/pidrei_codemode/declarations.py:259-350 | Every rendering keeps: names new and distinct, definitions mentioning only earlier ones, the annotation only defined ones, no reference left in resolution, at most 32 expansions. |
| `DeclarationTheorems.MembersMatch` | packages/codemode/pidrei_codemode/declarations.py:340-344 | A rendered object has one member per property, in the schema's order, required as the schema says. |
| `DeclarationTheorems.ClosedUnion` | packages/codemode/pidrei_codemode/declarations.py:125-129 | A union mentions only names its parts mention. |
| `DeclarationMeaning.UnionAlternatives` | packages/codemode/pidrei_codemode/declarations.py:125-129 | A union with an `Any` part is `Any`, one without parts is `Never`, and otherwise its alternatives are exactly those of its parts. |
| `DeclarationMeaning.UnionOrder` | packages/codemode/pidrei_codemode/declarations.py:125-129 | Equal parts stand once, in the order of their first occurrences. |
| `DeclarationMeaning.AlternativeTwice` | packages/codemode/pidrei_codemode/declarations.py:125-129 | Concrete input: `str | int` and `int` are different parts, so `int` is written twice. |
| `DeclarationMeaning.UnionInhabits` | packages/codemode/pidrei_codemode/declarations.py:125-129 | A value inhabits a union exactly when it inhabits one of its parts. |
| `DeclarationMeaning.RenderMeans` | packages/codemode/pidrei_codemode/declarations.py:259-350 | Every value a schema accepts inhabits its rendering, references, unions, arrays, dictionaries and generated dictionaries included, with any other definitions around; for schemas the annotation can express, nothing else does. |
| `DeclarationMeaning.AllOfRenders` | packages/codemode/pidrei_codemode/declarations.py:292-294 | An `allOf` renders as its only part that is not `Any`, and otherwise as `Any`. |
| `DeclarationNames.RenderNames` | packages/codemode/pidrei_codemode/declarations.py:259-321 | Every name a rendering generates starts with its hint. |
| `DeclarationNames.ArrayNames` | packages/codemode/pidrei_codemode/declarations.py:323-330 | What an array's elements need is named for the array, with `Item`. |
| `DeclarationNames.ObjectNames` | packages/codemode/pidrei_codemode/declarations.py:332-350 | An object with properties is named by its hint, numbered if that is taken, after what it needs; the values of one without are named with `Value`. |
| `DeclarationNames.MembersNames` | packages/codemode/pidrei_codemode/declarations.py:340-343 | What a member needs is named for the object and the key in PascalCase. |
| `SchemaRendering.Names.Take` | packages/codemode/pidrei_codemode/declarations.py:219-226 | The loop ends with the first free name, taken now and not before. |
| `SchemaRendering.SchemaRenderer.RenderSchema` | packages/codemode/pidrei_codemode/declarations.py:259-321 | The recursive renderer computes the specified annotation, names and definitions, and ends for every schema. |
| `SchemaRendering.SchemaRenderer.ExpandRef` | packages/codemode/pidrei_codemode/declarations.py:266-277 | A reference is expanded within the budget unless it is being resolved, and resolved no longer afterwards. |
| `SchemaRendering.SchemaRenderer.RenderAsObject` | packages/codemode/pidrei_codemode/declarations.py:332-350 | An object is rendered members first, then its open part, then named and defined. |
| `ToolDeclarations.FindParameters` | packages/codemode/pidrei_codemode/declarations.py:411-426 | Required parameters come first, each group in the schema's order; none for a schema the declaration cannot spell out. |
| `ToolDeclarations.RenderWithinBudget` | packages/codemode/pidrei_codemode/declarations.py:459-484 | The two tries end with a rendering within the budget, or with every name they took released. |
| `ToolDeclarations.ToolSound` | packages/codemode/pidrei_codemode/declarations.py:450-512 | One tool adds exactly the names it defines, each after those it uses, and its declaration mentions only its own. |
| `ToolDeclarations.ToolsSound` | packages/codemode/pidrei_codemode/declarations.py:515-534 | For every list of tools: generated names distinct and not reserved after backtracking, definitions in dependency order, no other name left taken, one rendering per identifier. |
| `ToolMeaning.SchemaMeans` | packages/codemode/pidrei_codemode/declarations.py:259-350 | A whole schema: each generated name has one definition, every accepted value inhabits the annotation (in JSON Schema's own reading for settled schemas), and nothing else for exact ones. |
| `ToolMeaning.OpenIsClosed` | packages/codemode/pidrei_codemode/declarations.py:259-350 | Without untyped schemas of object or array keywords, tuples, and `prefixItems` beside `items`, what JSON Schema accepts is what the renderer assumes. |
| `ToolMeaning.UntypedObjectMissesOthers` | packages/codemode/pidrei_codemode/declarations.py:314-316 | Concrete input: an untyped schema with `additionalProperties` accepts 5 and renders as a dictionary. |
| `ToolMeaning.UntypedArrayMissesOthers` | packages/codemode/pidrei_codemode/declarations.py:317-318 | Concrete input: an untyped schema with `items` accepts 5 and renders as a list. |
| `ToolMeaning.TupleMissesFurther` | packages/codemode/pidrei_codemode/declarations.py:327-329 | Concrete input: a tuple accepts a further element of another type than its list. |
| `ToolMeaning.ItemsMissPrefix` | packages/codemode/pidrei_codemode/declarations.py:324-326 | Concrete input: with `items` the types of `prefixItems` are not rendered. |
| `ToolMeaning.GroupsOrdered` | packages/codemode/pidrei_codemode/declarations.py:411-426 | The parameters are the properties, each once, required ones first and each group in the schema's order. |
| `ToolMeaning.BudgetDecides` | packages/codemode/pidrei_codemode/declarations.py:459-484 | Parameters are declared when they fit with or without tags; otherwise no line, definition or taken name is left of them. |
| `ToolMeaning.ToolMeans` | packages/codemode/pidrei_codemode/declarations.py:450-512 | A declared tool: its lines are those parameters, each line's annotation describes its property and the result's its output schema, among the definitions of all tools. |
| `ToolDeclarations.DeclareTools` | packages/codemode/pidrei_codemode/declarations.py:515-534 | The loop over the tools computes that list of declarations. |
| `Pricing.StartsAre` | packages/ai/scripts/generate_models.py:1401-1406 | The tier starts are exactly the bracket starts above zero of some rate, each once, in increasing order. |
| `Pricing.SelectsHighest` | packages/ai/pidrei_ai/registry.py:1158-1165 | The selected rates are those of the first tier of the highest threshold from zero on below the prompt length, wherever it stands, or the base rates. |
| `Pricing.ChargedAbove` | packages/ai/scripts/generate_models.py:1408-1423 | The tier in effect is priced from the bracket that contains the prompt length, even when it starts where another rate breaks. |
| `Pricing.ChargedBeforeBreaks` | packages/ai/scripts/generate_models.py:1390-1399 | Up to the first break of any rate the base price is charged, and a rate without one is free; for brackets of any shape. |
| `Pricing.ChargedFromBreak` | packages/ai/scripts/generate_models.py:1408-1423 | From there on, for brackets of any shape: the price of the first bracket that reaches over the last break so far of any rate, or the base price. |
| `Pricing.TiersPreservePrices` | packages/ai/scripts/generate_models.py:1390-1425 | For contiguous brackets, tiers charge the listed price at every prompt length exactly when the first bracket costs the base price and a last bracket that ends in null does too. |
| `Pricing.NullMaxIsMissed` | packages/ai/scripts/generate_models.py:1415-1416 | Concrete input: a last bracket with an explicit null `max` is never charged. |
| `Pricing.AllRatesAsListed` | packages/ai/scripts/generate_models.py:1390-1425 | When every rate meets that condition all four are charged as listed, wherever each breaks. |
| `Pricing.GetGatewayCost` | packages/ai/scripts/generate_models.py:1390-1425 | The nested loops compute the specified base rates and tiers. |
| `Pricing.CalculateCost` | packages/ai/pidrei_ai/registry.py:1147-1177 | The rates selected for the sum of input, cache reads and cache writes price the usage, with one-hour cache writes at twice the input rate. |
| `Publication.NextKeeps` | packages/ai/pidrei_ai/registry.py:555-601 | Every step of refreshes, supersessions, cancellations and publications keeps the lock, order and ownership invariants. |
| `Publication.GenerationsAdvance` | packages/ai/pidrei_ai/registry.py:571-601 | Store mutations and in-memory updates together run in non-decreasing generations, each at most once. |
| `Publication.SupersededChangesNothing` | packages/ai/pidrei_ai/registry.py:584-586 | A publication superseded or cancelled at its first check reports false and never has an effect. |
| `Publication.SupersededSkipsUpdate` | packages/ai/pidrei_ai/registry.py:595-596 | One superseded or cancelled at its second check reports false and never updates memory. |
| `Publication.PublishedMeansUpdated` | packages/ai/pidrei_ai/registry.py:595-599 | A publication reports true exactly when its update ran. |
| `Publication.ControllerIsNewest` | packages/ai/pidrei_ai/registry.py:564-569 | In every reachable state whose newest refresh has neither ended nor been superseded, the controller map holds its token exactly when it has taken its second lock and no older refresh took its own later. |
| `Publication.ControllerCanBeStale` | packages/ai/pidrei_ai/registry.py:564-569 | Two refreshes whose locks interleave, as the witness: the map holds the older one's token. |
| `Publication.NextKeepsMap` | packages/ai/pidrei_ai/registry.py:555-569 | Every step keeps the refreshes in generation order, each with one second lock, and the map at the token installed last or none. |
| `PublicationLaws.CurrentPublishes` | packages/ai/pidrei_ai/registry.py:584-599 | A publication that nothing supersedes stores, updates and reports true. |
| `PublicationLaws.RefreshGeneration` | packages/ai/pidrei_ai/registry.py:555-569 | In every run a refresh has the number of supersessions up to and including its own as its generation. |
| `PublicationLaws.FirstAskedFirstServed` | packages/ai/pidrei_ai/registry.py:577-599 | In every reachable state publications have taken the lock in the order they were asked for, each for the generation of its refresh. |
| `ModelRegistry.Models.SupersedeProviderRefresh` | packages/ai/pidrei_ai/registry.py:555-562 | Superseding advances one provider's generation and hands out its controller; other providers are untouched. |
| `ModelRegistry.Models.BeginProviderRefresh` | packages/ai/pidrei_ai/registry.py:564-566 | The first lock of a refresh supersedes and records it. |
| `ModelRegistry.Models.InstallController` | packages/ai/pidrei_ai/registry.py:567-569 | The second lock puts the refresh's own token into the map, once. |
| `ModelRegistry.Models.EndRefresh` | packages/ai/pidrei_ai/registry.py:681-684 | An ending refresh removes only its own token. |
| `ModelRegistry.Models.CheckGeneration` | packages/ai/pidrei_ai/registry.py:584-586 | The first check lets only the current, uncancelled generation pass. |
| `ModelRegistry.Models.Run` | packages/ai/pidrei_ai/registry.py:555-601 | Any interleaving over all providers keeps every provider's publications and controller map sound. |
| `Url.RemoveDotSegments` | packages/mcp/pidrei_mcp/url.py:116-134 | The one-pass loop computes the specified stack and join. |
| `Url.ResolveIsRewrite` | packages/mcp/pidrei_mcp/url.py:116-134 | On every path that starts with a slash the stack equals the rewriting of section 5.2.4 of RFC 3986 with percent-encoded dots read as dots. |
| `Url.ResolvedHasNoDots` | packages/mcp/pidrei_mcp/url.py:116-134 | The result starts with a slash and has no dot segment. |
| `Url.EncodePath` | packages/mcp/pidrei_mcp/url.py:106-113 | The encoding loop computes the specified encoding. |
| `Url.EncodeIsClean` | packages/mcp/pidrei_mcp/url.py:106-113 | Nothing in an encoded path is left to encode. |
| `Url.EncodeSpells` | packages/mcp/pidrei_mcp/url.py:106-113 | Character by character, quotes, angle brackets, backquotes, braces, spaces and control characters are written as the percent sign and the two upper-case digits of their value, all others as themselves. |
| `Url.DotsAre` | packages/mcp/pidrei_mcp/url.py:122-127 | The dot segments are exactly the spellings of one dot and of two, percent-encoded in either case or not. |
| `Url.NormalizePath` | packages/mcp/pidrei_mcp/url.py:166-166 | Encoding and then resolving gives the RFC's result, clean and without dot segments. |
| `Url.NormalizeTwice` | packages/mcp/pidrei_mcp/url.py:166-166 | Encoding and then resolving is idempotent. |
| `Fuzzy.ScanQuery` | packages/tui/pidrei_tui/fuzzy.py:23-66 | The scan loop computes the specified positions and score. |
| `Fuzzy.MatchesSubsequences` | packages/tui/pidrei_tui/fuzzy.py:23-66 | The greedy scan succeeds exactly on the subsequences of the text. |
| `Fuzzy.ScanIsLeftmost` | packages/tui/pidrei_tui/fuzzy.py:34-38 | The scan finds each character no later than any embedding does. |
| `Fuzzy.SwappedIs` | packages/tui/pidrei_tui/fuzzy.py:72-80 | The swap is defined exactly for letters then digits or digits then letters. |
| `Fuzzy.FuzzyMatches` | packages/tui/pidrei_tui/fuzzy.py:68-90 | A text matches when the lowered query is a subsequence, and only failing that when its swap is; a direct match is scored directly, a swapped one 5 worse than its own match. |
| `FuzzyScore.ScoreIs` | packages/tui/pidrei_tui/fuzzy.py:31-66 | The score is, over the leftmost embedding, 5 less per character of the adjacent run each character ends, 2 more per character skipped, 10 less at a word start and 0.1 more per position, and 100 less for the whole text. |
| `Fuzzy.TotalMeans` | packages/tui/pidrei_tui/fuzzy.py:110-120 | An item has a total exactly when every token matches it: the sum of the tokens' scores. |
| `Fuzzy.MatchFuzzy` | packages/tui/pidrei_tui/fuzzy.py:18-90 | The function computes that match. |
| `Fuzzy.FilterItems` | packages/tui/pidrei_tui/fuzzy.py:93-125 | The loops return every item for a query without tokens, and otherwise the ranked ones. |
| `Fuzzy.RankedIs` | packages/tui/pidrei_tui/fuzzy.py:107-125 | The ranking holds exactly the items with a total, by score, ties in input order. |
| `Fuzzy.FilterKeeps` | packages/tui/pidrei_tui/fuzzy.py:107-125 | An item is kept exactly when every token matches it. |
| `Fuzzy.TokensAre` | packages/tui/pidrei_tui/fuzzy.py:102-105 | The tokens are exactly the maximal runs of the query between white space and slashes, in order. |

## Left out

- Configuration changes of `prepare_next_turn` and `prepare_request` other than the context (model, reasoning): they change no event.
- Exceptions that escape hooks, listeners or the provider inside the loop; a failed run appears only as further tickets before the sentinel.
- How a call is prepared (validation, `before_tool_call`, `after_tool_call`, the per-tool execution mode): its outcome and the choice of mode are script.
- Nested tool calls of a tool and their record.
- Tool declarations are compared by a canonical text; how it is computed from a schema is not part of this model.
- ToolBatch.FailTruncated: the error text of a truncated call is shortened to its name; nothing depends on the text.
- The client's server-initiated requests, listeners, result validation and pagination.
- McpClient.Client.Settle: outcomes are appended, where the code overwrites one field, so that a second write would show.
- Entries of the MCP client are values in a map that outlives their removal; aliasing of the entry objects is not modelled.
- Agent.reset and the drains of `continue_` before admission are outside the mailbox: conservation is stated for jobs of the channel.
- `has_queued_messages`, `peek_queued_messages` and `wait_for_idle`: they only read.
- The agent state's `pending_tool_calls` and `error_message`, and the stall meter.
- Terminal sequences and grapheme segmentation: a line arrives stripped and segmented, under the contract `TranscriptSearch.Segmented`.
- SearchIndex.FoundIncreasing: case-insensitive matching is modelled character by character under an arbitrary equivalence.
- The text of declarations: comments, constraint tags, defaults of optional parameters, method layout and stubs; the budget test is a parameter that may depend on the tags.
- ToolMeaning.SchemaMeans: that nothing but the accepted values inhabits the annotation is stated for `Exact` schemas only; references, `allOf`, tuples, several keywords at once and closed dictionaries accept less than their annotation says.
- DeclarationMeaning.RenderMeans: keywords the renderer does not read are not part of what a schema accepts; all but `patternProperties`, whose keys are then checked as other keys, only accept less. A JSON boolean is not an `int`.
- DeclarationTheorems.ClosedUnion: the parts of a union are compared as flattened unions of alternatives, which is how their texts compare unless a literal imitates the separator.
- Provider tables and the other readers of `generate_models.py`; prices are exact reals and rounding is a parameter.
- The order of Python's sort and the fairness of the publication lock are those of their documentation: stable, first in first out.
- URL parsing around the path; a path that does not start with a slash is computed by `Url.RemoveDotSegments` but has no counterpart in the RFC.
