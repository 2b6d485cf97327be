# Verified model of the agent harness

A Dafny model of the deterministic runtime core of a Temporal agent harness, with proofs of what that
core promises. `dafny verify dfyconfig.toml` checks all of it. Each component is one or two modules:
value-level specifications with their theorems, and, where the source updates objects in place, classes
whose methods are proved equal to those specifications.

## What is modelled

- **Context window and compaction** (`ContextBudget`, `Messages`, `ExchangeRepair`, `ContentTruncation`,
  `TruncationTurns`, `ContextWindow`, `Compaction`, `CompactionFixpoint`, `CompactionDrift`). A
  conversation is cut to a window, repaired where the cut broke tool exchanges, grouped, dropped group
  by group until a token budget fits, and finally shortened by two truncation loops. Message sizes come
  from an arbitrary encoding, so the loops' termination rests on total content length. Snapshots carry a
  marker for what was dropped.
- **Agent loop** (`AgentTrace`, `AgentSteps`, `AgentLoop`). The loop runs against an environment that
  may deliver steering and interrupts at every wait, end provider activities and tool tasks in any way
  and order, and fail at any point. A ghost trace records what was accepted, what was recorded, and what
  provider, guards and tools did; `AgentSteps` says in which order things may happen, and what that
  means for every response.
- **Chat workflow** (`Utf8`, `TranscriptPaging`, `TranscriptLog`, `ChatState`, `ChatProgress`,
  `ChatWorkflow`). The message queue, the clock that decides about expiry and continue-as-new, the
  revisioned delta log, and byte-bounded pages. `ChatState` is the state machine over all signals, turns
  and runs; the methods of `SimpleChatWorkflow` take its steps.
- **Approvals** (`Approvals`, `ApprovalProgress`, `ApprovalDesk`). Guard validation, pending requests,
  decisions, the always-allow memory and subagents' requests, over any run including continue-as-new.
- **Stream broker** (`PyText`, `StreamLog`, `StreamLife`, `StreamBroker`). Buffers, generation-scoped
  cursors, idempotent append, eviction, replay, and the event stream of a turn against concurrent
  requests.
- **MCP tool registry** (`McpRegistry`, `AppToolSet`). The registry that follows a changing list of
  servers.
- **Round trips and text** (`Manifest`, `ManifestRoundTrip`, `ClaudeConverter`, `Censor`, `CensorTable`,
  `CensorKeeps`). The attachment manifest against the line pattern that reads it back, with the
  pattern's backtracking; the Claude converter over JSON values; the whole-word censor.
- **Heartbeats** (`Heartbeat`). Manual heartbeats and the timer between them.

## Where a promise holds only under a condition

- Repair pairs every history made of given messages exactly when none of these mixes calls and results
  (`RepairPairsIffUnmixed`); a history in which each call is answered, and which still comes out broken,
  is `MixedHistory` (`MixedHistoryStaysBroken`). Nothing the agent records is mixed (`HistoryUnmixed`).
- The text loop leaves no text longer than its notice, if the length of every text it is given takes
  fewer than 428 digits to write (`TextLoopOutcome`).
- Compaction is considered for paired, unmixed histories whose markers stand alone, with a plain first
  message if that is preserved (`Settled`), when tool results are passed on in full (`KeepsResults`) and
  dropping whole groups is enough for the budget (`NoTruncation`). It then is a fixpoint exactly if
  compacting the snapshot needs no shortening either, or there is no text in it to shorten
  (`CompactionIsFixpointIff`), which is so for every history that does not end in a marker
  (`SnapshotStaysSettled`); `MarkerAtTheEndDrifts` gives one that does and drifts.
- A run ends with its exchanges complete exactly if it did not stop on a guard's action with tool calls
  open (`Run`, `OpenCallIsUnpaired`).
- A manifest of printable attachments (`Printable`), with prose no line of which could start an entry
  (`NoEntries`), is read back exactly unless an attachment has a negative size, or an empty name and an
  id in which white space precedes a second `(attachment_id=` (`ManifestRoundTrip`,
  `NegativeSizeAttachment`, `AmbiguousAttachment`).
- Converting history to Claude's form and back settles after one pass exactly when no provider block
  wraps a Claude tool block with missing fields (`NormalForm`, `HiddenGapDrifts`).
- Heartbeats stay under the timeout exactly when that is at least two seconds (`TimelyIffTwoSeconds`).
- An MCP tool keeps its old description and schema while its source stays the same, so a sync is
  determined by the current list only up to these texts.
- A delete request survives a run exactly if the workflow does not continue as new in it
  (`DeleteSurvivesIff`); one that comes during a turn that ends hot is lost (`DeleteIsLost`).

## Assumptions

Signals reach the chat workflow after its restore. Time does not go backwards, timers are ideal,
generation names and task outcomes come from the environment, and new generation names are new. Signals,
completions and provider answers are arbitrary. The context manager's calls never really suspend, so no
signal arrives between a provider's answer and its recording, and the second interrupt check of a reply
without tool calls (`agent_harness/agent.py:221-223`) never finds one.

## Model

| member | source | states |
|---|---|---|
| ContextBudget.Budget.Checked | agent_harness/context_manager.py:77-101 | a budget is accepted exactly when all its parts are in range and at least one input token is left, and is then unchanged |
| ContextBudget.RetryIsStricter | agent_harness/agent.py:432-470 | if the first budget is valid so is the overflow-retry budget, and it is stricter; it allows strictly fewer tokens unless the first already allowed the one token every budget must leave; both budgets in plain numbers |
| ContextBudget.WithinMonotone | agent_harness/sliding_window_context_manager.py:545-562 | whatever fits a stricter budget, or is no longer, fits the looser one |
| ExchangeRepair.DropIncompleteToolExchanges | agent_harness/sliding_window_context_manager.py:171-205 | the index loop computes the recursive repair |
| ExchangeRepair.RepairPairs | agent_harness/sliding_window_context_manager.py:171-205 | whatever was cut off, the repaired list has every call message directly followed by results for all its ids and every result message directly after such a call |
| ExchangeRepair.RepairKeepsPairedPrefix | agent_harness/sliding_window_context_manager.py:171-205 | complete exchanges at the front survive the repair unchanged, whatever comes after them |
| ExchangeRepair.RepairIsIdentityIffPaired | agent_harness/sliding_window_context_manager.py:171-205 | repair changes a list exactly when it has something to repair |
| ExchangeRepair.RepairPairsIffUnmixed | agent_harness/sliding_window_context_manager.py:171-205 | for any set of allowed messages, every history made of them comes out paired exactly when none of them mixes calls and results |
| ExchangeRepair.RepairKeepsShares | agent_harness/sliding_window_context_manager.py:171-205 | repair takes away no more than it must: of every message of an unmixed history it leaves what its two neighbours allow, in order: answered calls and their results whole, of an unanswered call the text, of a stray result nothing |
| ExchangeRepair.TextOnlyKeepsRole | agent_harness/sliding_window_context_manager.py:299-312 | what is left of an unanswered call is the same speaker's, with its blocks other than tool calls |
| ExchangeRepair.MixedHistoryStaysBroken | agent_harness/sliding_window_context_manager.py:171-205 | a history of three messages, whose middle one answers the first and is answered by the last and so mixes results and calls, comes out unpaired |
| ExchangeRepair.MessageGroups | agent_harness/sliding_window_context_manager.py:351-368 | the grouping loop computes the recursive grouping |
| ExchangeRepair.FlattenGroups | agent_harness/sliding_window_context_manager.py:351-374 | grouping loses, adds and reorders nothing |
| ExchangeRepair.GroupsAreWhole | agent_harness/sliding_window_context_manager.py:351-368 | in a paired history no group cuts an exchange |
| ExchangeRepair.GroupsAreSmall | agent_harness/sliding_window_context_manager.py:351-368 | a group is a lone message, or a call and the message that answers it |
| ExchangeRepair.WholeGroupsPair | agent_harness/sliding_window_context_manager.py:351-374 | any selection of whole groups, in order, is again paired |
| ContentTruncation.LargestLocation | agent_harness/sliding_window_context_manager.py:451-495 | the search loops find the slot of the specification |
| ContentTruncation.LargestIsLargest | agent_harness/sliding_window_context_manager.py:451-495 | the slot found is the first of the longest of its kind; none is found only if there is none |
| ContentTruncation.SetSlotTotal | agent_harness/sliding_window_context_manager.py:498-514 | overwriting a slot changes the total content length by the difference of the two texts |
| ContentTruncation.TruncateTurn | agent_harness/sliding_window_context_manager.py:377-448 | each turn of either loop lowers the total content length and leads to the same outcome, whatever happens to the size estimate |
| ContentTruncation.TruncateToBudget | agent_harness/sliding_window_context_manager.py:377-448 | both truncation loops terminate, with the total content length as measure, and compute the recursive truncation |
| ContentTruncation.TruncateEnds | agent_harness/sliding_window_context_manager.py:377-448 | the loops end within budget, with no slot left, or with a largest slot that cannot be shortened |
| TruncationTurns.TruncateTakesTurns | agent_harness/sliding_window_context_manager.py:377-448 | both loops are a run of turns, each of which replaces the first of the longest texts x by the notice, or wrapper, with the first |x| - ceil(over * charsPerToken) - 500 characters of x, or none if that is negative; they go on until the list fits, has no such text, or its stand-in is no shorter |
| TruncationTurns.FinalTexts | agent_harness/sliding_window_context_manager.py:377-448 | every text ends as what it was, or as what one of the turns put there |
| ContentTruncation.NoticeLength | agent_harness/sliding_window_context_manager.py:533-542 | a truncated text is 73 characters, the digits of the old length and the preview long |
| ContentTruncation.TextLoopOutcome | agent_harness/sliding_window_context_manager.py:411-448 | if the length of every text takes fewer than 428 digits to write, the text loop ends within budget or with every text no longer than its own notice |
| ContentTruncation.ResultLoopOutcome | agent_harness/sliding_window_context_manager.py:377-408 | the tool-result loop ends within budget, with no textual result, or with a largest result that its wrapper cannot shorten |
| ContentTruncation.TruncateRewords | agent_harness/sliding_window_context_manager.py:377-448 | truncation only makes texts of its own kind shorter: roles, kinds, ids, order and everything else stay |
| ContextWindow.SelectedMessages | agent_harness/sliding_window_context_manager.py:158-168 | window and preserved first message, then repair, as the specification has it |
| ContextWindow.LatestToolResultIndex | agent_harness/sliding_window_context_manager.py:315-320 | the backwards search finds the last message with a tool result |
| ContextWindow.DropOldestGroups | agent_harness/sliding_window_context_manager.py:323-348 | the loop drops the oldest groups until the rest fits or one is left |
| ContextWindow.FitMessagesToTokenBudget | agent_harness/sliding_window_context_manager.py:323-348 | the loop that drops the oldest groups, then the two truncation loops, compute the specification |
| ContextWindow.MessagesForModel | agent_harness/sliding_window_context_manager.py:101-125 | all five passes in order compute the specification |
| ContextWindow.SentMessagesArePaired | agent_harness/sliding_window_context_manager.py:101-205 | for every unmixed history, setting and budget, what is sent is paired through window, repair, clearing, group dropping and both truncations |
| ContextWindow.ShedKeepsLongestSuffix | agent_harness/sliding_window_context_manager.py:323-348 | group dropping keeps, after the preserved first group, the longest suffix of whole exchanges that fits, or the last group |
| TruncationTurns.FitTakesTurns | agent_harness/sliding_window_context_manager.py:323-348 | fitting drops groups down to the longest suffix that fits, then takes turns on results and, only if that was not enough, on texts; what comes out fits the budget unless nothing can be shortened further |
| CompactionFixpoint.SelectedShape | agent_harness/sliding_window_context_manager.py:158-168 | of a paired history the selection is the preserved first message and exactly the last messages the window has room for, but for the results of a call just outside |
| ContextWindow.LatestResultIsLast | agent_harness/sliding_window_context_manager.py:315-320 | the latest result is the last message with one, none if there is none |
| ContextWindow.TransportedBlock | agent_harness/sliding_window_context_manager.py:101-125 | a tool result is cleared or capped as the settings say exactly if a later message has results; every other block is passed on as it is |
| ContextWindow.RetrySendsNoMore | agent_harness/agent.py:380-470 | the overflow retry sends at most as many messages as the first attempt |
| Compaction.SlidingWindowContextManager.Create | agent_harness/sliding_window_context_manager.py:40-47 | settings out of range are refused, the window first; otherwise a new manager is empty |
| Compaction.SlidingWindowContextManager.constructor | agent_harness/sliding_window_context_manager.py:29-39 | a new manager holds its valid settings and no message |
| Compaction.SlidingWindowContextManager.Initialize | agent_harness/sliding_window_context_manager.py:49-56 | the conversation becomes the one prompt |
| Compaction.SlidingWindowContextManager.RecordMessage | agent_harness/sliding_window_context_manager.py:57-65 | a recorded message is appended and nothing else changes |
| Compaction.SlidingWindowContextManager.RecordToolResults | agent_harness/sliding_window_context_manager.py:146-156 | tool results are appended as one user message, none as no message |
| Compaction.SlidingWindowContextManager.ReplaceMessages | agent_harness/sliding_window_context_manager.py:136-139 | the conversation becomes the given list |
| Compaction.SlidingWindowContextManager.Restore | agent_harness/sliding_window_context_manager.py:66-75 | only version 2 is restored; any other version is an error that leaves the conversation as it was |
| Compaction.SlidingWindowContextManager.FullContextSnapshot | agent_harness/sliding_window_context_manager.py:77-82 | restoring a full snapshot gives the whole conversation back |
| Compaction.SlidingWindowContextManager.ContinuationContextSnapshot | agent_harness/sliding_window_context_manager.py:83-99 | a continuation snapshot holds what would be sent, with a marker where messages were dropped |
| Compaction.WithoutMarkersPairs | agent_harness/sliding_window_context_manager.py:239-247 | taking markers out of a paired history leaves it paired |
| CompactionFixpoint.ContinuationShape | agent_harness/sliding_window_context_manager.py:83-99 | for a settled history (paired, unmixed, markers alone, a preserved first message plain), settings that pass tool results on in full, and a budget that dropping whole groups meets, the snapshot in full: the preserved head, one marker with the number of lost messages if any were lost, and a suffix that cuts no exchange |
| CompactionFixpoint.SnapshotAccountsForHistory | agent_harness/sliding_window_context_manager.py:83-99 | under the same conditions the snapshot's messages with the lost ones put back at the marker are the whole history, the marker carries their number, and at most one marker stays at most one |
| CompactionFixpoint.FitDropsOnlyMarker | agent_harness/sliding_window_context_manager.py:323-348 | when only the marker does not fit, only the marker is dropped |
| CompactionFixpoint.CompactionIsFixpoint | agent_harness/sliding_window_context_manager.py:66-99 | under the same conditions, for a history that does not end in a marker or whose snapshot can be compacted without shortening content, restoring the snapshot and compacting again under the same budget sends the same messages, markers aside |
| CompactionFixpoint.SnapshotStaysSettled | agent_harness/sliding_window_context_manager.py:66-99 | a snapshot meets these conditions again: it is settled, and if its history did not end in a marker neither does it, and its own compaction shortens no content |
| CompactionFixpoint.RepeatedCompactionIsStable | agent_harness/sliding_window_context_manager.py:66-99 | the fixpoint holds for any number of snapshots and restores |
| CompactionDrift.CompactionIsFixpointIff | agent_harness/sliding_window_context_manager.py:66-99 | under the same conditions and any budget the fixpoint holds exactly if compacting the snapshot needs no shortening, or the snapshot has no text that can be shortened |
| CompactionDrift.MarkerAtTheEndDrifts | agent_harness/sliding_window_context_manager.py:208-237 | a history of a long message, ten short ones and a marker that counts nine, for which the new marker, one character longer, makes the second compaction shorten the first message |
| AgentTrace.RepliesAreUndisturbed | agent_harness/agent.py:150-267 | between the last call start before a recorded reply and that reply no interrupt was accepted |
| AgentTrace.NothingIsForgotten | agent_harness/agent.py:117-145 | over any stretch of a life, what waited in a queue at its start was recorded since, in order from the front, or still waits ahead of everything newer |
| AgentTrace.AttemptsArePaired | agent_harness/agent.py:380-415 | every list of messages sent in a life whose restored conversations were unmixed is paired |
| AgentTrace.HistoryUnmixed | agent_harness/agent.py:485-531 | nothing the agent records mixes calls and results |
| AgentTrace.OpenCallIsUnpaired | agent_harness/agent.py:202-216 | a reply with tool calls that are never answered leaves the history unpaired |
| AgentTrace.ReplyInFull | agent_harness/agent.py:202-206 | a recorded reply has its text and then its calls, in order |
| AgentTrace.AnswersInFull | agent_harness/agent.py:234-236 | recorded answers have their ids, payloads and error marks, in order |
| AgentSteps.VerdictIsFollowed | agent_harness/agent.py:304-378 | what the guards say is what the agent makes of a call: the response they give, or the provider's if they let it pass, arrives; their failure ends the run, or withdraws the call if an interrupt had it cancelled afterwards; passing before the call leads to an attempt |
| AgentSteps.AttemptIsFollowedUp | agent_harness/agent.py:380-430 | a first attempt that overflowed is tried again unless an interrupt had it cancelled; a completed one goes to the guards, a discarded one is withdrawn, and any other failure ends the run |
| AgentSteps.ArrivedIsRecorded | agent_harness/agent.py:188-205 | the first thing done about a response that arrived is to record it if no interrupt was accepted since the call started, and to drop it if one was |
| AgentSteps.LastReplyEndsRun | agent_harness/agent.py:207-232 | a recorded response with a guard action, or without tool calls, is the end of its run, which returns it |
| AgentSteps.OtherReplyIsAnswered | agent_harness/agent.py:234-236 | the tool calls of any other recorded response are answered in their order, each by what its task came to, or, if a task broke and no interrupt had it cancelled, the run fails |
| AgentSteps.AnswersAreFollowed | agent_harness/agent.py:236-245 | after the answers, steering is recorded, and then either waiting interrupts are, or the runtime is asked whether to continue as new |
| AgentSteps.SuggestionIsFollowed | agent_harness/agent.py:245-258 | the run continues as new exactly if that is enabled and the runtime suggests it, or fails for want of a budget |
| AgentSteps.TurnsWereUsed | agent_harness/agent.py:187-267 | in a stretch of a run that leaves no turn open, every response that arrived was answered by tools or dropped for an interrupt |
| AgentTrace.ControlsKeepPairing | agent_harness/agent.py:485-531 | flushing control messages never breaks an exchange |
| AgentTrace.ExchangeKeepsPairing | agent_harness/agent.py:234-240 | a reply with its complete answers keeps the history paired |
| AgentLoop.Agent.constructor | agent_harness/agent.py:61-115 | a new agent has empty queues, no interrupt and an empty trace |
| AgentLoop.Agent.Steer | agent_harness/agent.py:117-130 | a steering message goes to the end of its mode's queue; an unknown mode is refused and changes nothing |
| AgentLoop.Agent.Interrupt | agent_harness/agent.py:132-145 | an interrupt goes to the end of its queue and raises the flag |
| AgentLoop.Agent.RecordNext | agent_harness/agent.py:517-531 | one message leaves the head of its queue and is recorded, tagged, at the end of the conversation |
| AgentLoop.Agent.Flush | agent_harness/agent.py:485-531 | every waiting message of one queue is recorded once, in order, and the other queues are untouched |
| AgentLoop.Agent.FlushInterruptContext | agent_harness/agent.py:505-515 | interrupts are recorded in order, none is left and the flag is down |
| AgentLoop.Agent.RunProviderActivity | agent_harness/agent.py:417-430 | a discarded activity implies the flag is up, a completed one that it is down; no interrupt is lost while waiting |
| AgentLoop.Agent.SendAttempt | agent_harness/agent.py:380-415 | an attempt sends what the context manager gives for its budget |
| AgentLoop.Agent.CallProviderWithContextRecovery | agent_harness/agent.py:380-415 | at most two attempts, the first budget then the stricter one, the second exactly after a context overflow that no interrupt cancelled; none exactly if there is no valid budget; the outcome is that of the last attempt |
| AgentLoop.Agent.CallProvider | agent_harness/agent.py:304-378 | a call without result means an interrupt; with the flag down, no interrupt came since the call started |
| AgentLoop.Agent.WaitForTasks | agent_harness/agent.py:568-600 | the wait ends when every task has ended or an interrupt is up, whatever the order of completion |
| AgentLoop.Agent.AwaitTask | agent_harness/agent.py:610-640 | a finished task keeps its end; a running one is awaited only under an interrupt |
| AgentLoop.Agent.ExecuteRequestedTools | agent_harness/agent.py:568-658 | one answer per request in request order: the tool's own where its task finished, the interrupted one where it was cancelled; it raises exactly if a task broke that no interrupt had cancelled |
| AgentLoop.Agent.Begin | agent_harness/agent.py:158-185 | a prompt or a restored state starts the run; neither, or a wrong version, is an error |
| AgentLoop.Agent.FlushAndCall | agent_harness/agent.py:188-191 | at the moment the provider call starts no interrupt and no immediate steering waits, and all that waited before is recorded in order; with the flag down afterwards no interrupt came since |
| AgentLoop.Agent.AnswerTools | agent_harness/agent.py:234-236 | if the tools return, the exchange is complete, and without interrupt no after-tool steering is left |
| AgentLoop.Agent.ActOn | agent_harness/agent.py:202-258 | an undisturbed response is recorded first; a guard action stops the run with the guard's stop, a response without tool calls with its final answer; a stop leaves the exchanges complete exactly if it is no guard's stop on a response with tool calls; continuing as new carries the compacted conversation and the turns used |
| AgentLoop.Agent.TakeTurn | agent_harness/agent.py:187-258 | each pass raises the turn by one for the response that arrived, or uses up an interrupt, which bounds the loop; an undisturbed response has been acted on, and a pass that stops leaves the trace ready for just that end |
| AgentLoop.Agent.DropReply | agent_harness/agent.py:198-200 | a response that arrived with an interrupt waiting is withdrawn, and the interrupts are recorded |
| AgentLoop.Agent.ActOnTools | agent_harness/agent.py:234-258 | the tools of a reply are answered; then interrupts are recorded, or the runtime is asked and the run continues as new or goes on |
| AgentLoop.Agent.ShouldContinueAsNew | agent_harness/agent.py:533-541 | the agent leaves exactly if it may and the runtime suggests it |
| AgentLoop.Agent.TakeAllTurns | agent_harness/agent.py:187-267 | how the loop ended is in the trace, and the turns it used are the responses that arrived |
| AgentLoop.Agent.TakeTurns | agent_harness/agent.py:187-267 | the loop terminates for any finite number of interrupts, and runs out only with every turn used |
| AgentLoop.Agent.Run | agent_harness/agent.py:150-267 | a run only adds to the record: whatever waited in any queue was recorded in order or still waits ahead of what came since; no disturbed response is recorded and every other one is, and acted on, as the order of the trace says; how the run ended is in the trace; the turns are the responses that arrived, and a run out of turns had each answered by tools or dropped for an interrupt; every list sent is paired; a run that entered its loop returns with no interrupt waiting, and with its exchanges complete exactly if it did not stop on a guard with tool calls open |
| AgentLoop.AttemptsArePairedAndShrink | agent_harness/agent.py:380-470 | at any point of a life without mixed restored conversations, both attempts of a provider call send paired messages, and the second no more of them |
| Utf8.CutDecodesToPrefix | simple_chat_agent/worker/workflow.py:1291-1297 | cutting encoded bytes anywhere and decoding without the broken rest gives the longest prefix of whole characters that fits |
| Utf8.TruncateKeepsLongestPrefix | simple_chat_agent/worker/workflow.py:1291-1297 | the truncated text is the longest whole-character prefix within the byte budget, empty for a budget of zero or less |
| TranscriptPaging.FillPage | simple_chat_agent/worker/workflow.py:518-541 | the backwards loop, with its lone cut message, computes the specified page |
| TranscriptPaging.TranscriptPage | simple_chat_agent/worker/workflow.py:505-552 | a page request with any position, count and byte limit computes the specified page |
| TranscriptPaging.TheNoticeIsShort | simple_chat_agent/worker/workflow.py:52-54 | the truncation notice leaves the smallest page room for text |
| TranscriptPaging.PageNumbers | simple_chat_agent/worker/workflow.py:505-518 | in plain numbers: 60 messages unless asked, at most 200 and at least one; between 16384 and 1000000 bytes; an end within the transcript |
| TranscriptPaging.PagesAreMaximal | simple_chat_agent/worker/workflow.py:505-552 | every page ends where asked, is empty only at the very start, and is maximal for count and bytes, or is one message cut to the longest prefix that leaves room for the notice, within the limit but for role and attachment bytes; it says exactly when bytes cut it short, and what it costs |
| TranscriptPaging.PagesHoldTranscript | simple_chat_agent/worker/workflow.py:505-552 | the messages of all pages put together are the transcript, with those cut that are too big for a page of their own, and the transcript itself if none is |
| TranscriptPaging.PagesPartitionTranscript | simple_chat_agent/worker/workflow.py:505-552 | asking again before the start of each page visits every message exactly once, in order, with adjacent pages |
| TranscriptLog.RecordKeepsOk | simple_chat_agent/worker/workflow.py:1017-1035 | recording keeps the buffer the tail of everything recorded, at most 80 long |
| TranscriptLog.DeltasAreComplete | simple_chat_agent/worker/workflow.py:427-480 | an answer without snapshot is exactly everything ever recorded after the cursor, in order, and its bytes are within the limit; one with a snapshot has no deltas |
| TranscriptLog.OldCursorsNeedSnapshot | simple_chat_agent/worker/workflow.py:1051-1088 | a cursor from before a continue-as-new is always told to take a snapshot |
| TranscriptLog.ClientCatchesUp | simple_chat_agent/worker/workflow.py:427-480 | a client that saw a log and asks a later one gets exactly what was added in between, or a snapshot request |
| TranscriptLog.SnapshotIff | simple_chat_agent/worker/workflow.py:427-480 | a snapshot is asked for exactly when there is something new and either the buffer no longer reaches back to the cursor or what was recorded since is too big |
| ChatState.StepAccepts | simple_chat_agent/worker/workflow.py:864-891 | every step accepts exactly the messages its signal brings |
| ChatState.StepActivates | simple_chat_agent/worker/workflow.py:725-735 | the record of activations grows by exactly what becomes the active message, and loses nothing |
| ChatState.AcceptedMessageIsShown | simple_chat_agent/worker/workflow.py:864-891 | an accepted message stands at the end of the rendered transcript |
| ChatState.StepAnnounces | simple_chat_agent/worker/workflow.py:1017-1035 | the log grows by exactly what the step announces, and is cut exactly when the workflow continues as new |
| ChatState.ReceiveKeepsOk | simple_chat_agent/worker/workflow.py:236-307 | every signal keeps the queue, the clock and the delta log consistent |
| ChatState.NextRunKeepsOk | simple_chat_agent/worker/workflow.py:617-656 | continue-as-new and restore keep them consistent |
| ChatState.StepKeepsOk | simple_chat_agent/worker/workflow.py:581-801 | every step of the main loop keeps them consistent |
| ChatState.EveryMessageActivatedOnceOrPending | simple_chat_agent/worker/workflow.py:685-735 | over any run with any number of continue-as-new cycles, the messages that became active, in that order, followed by those that wait, are exactly the messages the signals brought, in order of arrival |
| ChatState.ExpiryOnlyWhenIdle | simple_chat_agent/worker/workflow.py:708-720 | the workflow never expires with a message waiting, nor sooner than 15 days after the last touch |
| ChatState.DeltasCompleteOverRuns | simple_chat_agent/worker/workflow.py:427-480 | a client that saw the revision of any moment of any run, and asks at any later one, gets exactly what was announced since, in order, or a snapshot request |
| ChatState.CursorsBeforeCutNeedSnapshot | simple_chat_agent/worker/workflow.py:1051-1088 | once the workflow continued as new, every cursor up to the revision of then is told to take a snapshot, after whatever follows |
| ChatState.SnapshotOverRunsIff | simple_chat_agent/worker/workflow.py:427-480 | a client that saw the revision of some moment since when the workflow did not continue as new is sent to a snapshot exactly if what was announced since is too big, as long as that is fewer than 80 deltas or the buffer still reaches back |
| ChatProgress.EndsIff | simple_chat_agent/worker/workflow.py:685-720 | when the workflow expires, is deleted, or crashes, each exactly |
| ChatProgress.TurnBeginsIff | simple_chat_agent/worker/workflow.py:685-735 | a turn begins exactly at a check that neither continues as new nor expires, with the first of the queue, or by resuming an inherited agent |
| ChatProgress.TurnEndsIff | simple_chat_agent/worker/workflow.py:737-801 | a turn ends settled, hot or not, or crashed, and leaves nothing active |
| ChatProgress.WaitIff | simple_chat_agent/worker/workflow.py:694-706 | the wait begins exactly with an empty queue and ends as soon as there is a message, a checkpoint is ready or the time is up |
| ChatProgress.NextRunStartsFrom | simple_chat_agent/worker/workflow.py:1051-1088 | the next run starts from the compacted conversation and the same queue, with nothing active and no delete request |
| ChatProgress.QueueIsWorkedOff | simple_chat_agent/worker/workflow.py:581-735 | if turns end and the runtime asks for nothing else, the queue is worked off in order, a turn for each message |
| ChatProgress.ClockAfter | simple_chat_agent/worker/workflow.py:617-656 | what every event does to the clock: only users touch it, and a queue or a hot agent counts as a touch of the next run |
| ChatProgress.ExpiredLongAfterLastTouch | simple_chat_agent/worker/workflow.py:708-720 | a workflow that expired had nothing waiting and no user touch for 15 days |
| ChatProgress.VisibleChangeRaisesRevision | simple_chat_agent/worker/workflow.py:1017-1035 | queue, active message, delete request and turns change only under a new state revision, and revisions never fall |
| ChatProgress.OverlayShows | simple_chat_agent/worker/workflow.py:1214-1224 | a message laid over a transcript stands at its place or behind the rest, which is as it was |
| ChatProgress.ActiveMessageIsShown | simple_chat_agent/worker/workflow.py:824-851 | the active message stands in the transcript at its place |
| ChatState.DeleteSurvivesStepIff | simple_chat_agent/worker/workflow.py:1051-1088 | a delete request is dropped by exactly the steps that continue as new |
| ChatState.DeleteSurvivesIff | simple_chat_agent/worker/workflow.py:1051-1088 | a delete request that is not repeated is still there after a run exactly if the workflow never continued as new in it |
| ChatState.DeleteIsLost | simple_chat_agent/worker/workflow.py:253-256 | a run from the start in which a delete request comes during a turn that ends hot, and is gone afterwards with the workflow alive |
| ChatWorkflow.SimpleChatWorkflow.constructor | simple_chat_agent/worker/workflow.py:208-234 | a new workflow is empty and touched by its start |
| ChatWorkflow.SimpleChatWorkflow.TouchNow | simple_chat_agent/worker/workflow.py:803-805 | a touch sets the last touch to now |
| ChatWorkflow.SimpleChatWorkflow.RecordTranscriptChange | simple_chat_agent/worker/workflow.py:1017-1035 | a change takes a revision, leaves a delta if it has a place and a message, and trims the buffer to 80 |
| ChatWorkflow.SimpleChatWorkflow.RecordSystemMessage | simple_chat_agent/worker/workflow.py:1037-1042 | a system message is a delta at the end of the rendered transcript |
| ChatWorkflow.SimpleChatWorkflow.RecordLatestRenderedMessageChange | simple_chat_agent/worker/workflow.py:1044-1049 | the last rendered message is recorded, or only a revision if there is none |
| ChatWorkflow.SimpleChatWorkflow.EnqueueChat | simple_chat_agent/worker/workflow.py:864-891 | a message goes to the end of the queue with its place in the transcript and a delta |
| ChatWorkflow.SimpleChatWorkflow.ChatSignal | simple_chat_agent/worker/workflow.py:236-251 | a chat signal touches, queues and records, and keeps the state consistent |
| ChatWorkflow.SimpleChatWorkflow.SteerSignal | simple_chat_agent/worker/workflow.py:258-290 | steering with attachments is queued, without only leaves a notice |
| ChatWorkflow.SimpleChatWorkflow.InterruptSignal | simple_chat_agent/worker/workflow.py:292-307 | an interrupt outside a turn is queued, inside only leaves a notice |
| ChatWorkflow.SimpleChatWorkflow.DeleteSignal | simple_chat_agent/worker/workflow.py:253-256 | a delete request is noted |
| ChatWorkflow.SimpleChatWorkflow.TranscriptDeltasSince | simple_chat_agent/worker/workflow.py:427-480 | the query answers as specified: complete deltas, or a snapshot request, always for cursors before a cut |
| ChatWorkflow.SimpleChatWorkflow.TranscriptPageQuery | simple_chat_agent/worker/workflow.py:505-552 | the query answers with the specified page of the rendered transcript |
| ChatWorkflow.SimpleChatWorkflow.ActivateNextQueuedMessage | simple_chat_agent/worker/workflow.py:725-735 | the first queued message becomes the active one |
| ChatWorkflow.SimpleChatWorkflow.ContinueAsNew | simple_chat_agent/worker/workflow.py:1051-1088 | the next run keeps queue, revisions and last touch, and leaves deltas and the delete request behind |
| ChatWorkflow.SimpleChatWorkflow.RestoreTouch | simple_chat_agent/worker/workflow.py:617-633 | a queue or a hot agent counts as a touch of the new run |
| ChatWorkflow.SimpleChatWorkflow.CheckBeforeWaiting | simple_chat_agent/worker/workflow.py:685-720 | the checks before waiting; expiry means an empty queue and 15 days without touch |
| ChatWorkflow.SimpleChatWorkflow.WakeUp | simple_chat_agent/worker/workflow.py:694-706 | waking finds a delete request first, then a queue, a checkpoint or the timer |
| ChatWorkflow.SimpleChatWorkflow.EndActiveTurn | simple_chat_agent/worker/workflow.py:737-801 | the end of a turn records the prompt, the latest message or the error, and clears the active message |
| ChatWorkflow.SimpleChatWorkflow.AfterSettled | simple_chat_agent/worker/workflow.py:581-615 | after a settled turn a hot agent continues as new and any other goes back to the checks |
| ChatWorkflow.SimpleChatWorkflow.ResumeHotAgent | simple_chat_agent/worker/workflow.py:581-615 | a run that starts with agent state resumes without a new message |
| Approvals.ValidateToolGuards | agent_harness/guards.py:261-280 | no error exactly when every required guard is there and every guard fulfils the tool type; a guard named in the error is the first that does not |
| Approvals.ExecuteGuards | agent_harness/guards.py:282-310 | guards run in order, and the first that does not pass ends the matter |
| Approvals.ToolIsGuarded | agent_harness/guards.py:74-79 | with only the approval guard registered, mutating and MCP tools have it and no admin tool passes validation |
| Approvals.GoOnKeepsOk | simple_chat_agent/worker/workflow.py:948-989 | passing guards, asking and running keeps every recorded fact justified |
| Approvals.ResolveKeepsOk | simple_chat_agent/worker/workflow.py:310-342 | resolving a request, a child's or one's own, keeps every fact justified |
| Approvals.WakeKeepsOk | simple_chat_agent/worker/workflow.py:969-989 | picking up a decision keeps every fact justified |
| Approvals.BodiesRunOnlyWithApproval | agent_harness/tools.py:333-393 | over any run with continue-as-new: when a mutating or MCP tool's body ran, that call had been made with this tool and key and not run before, and it had itself asked and the user's last word was yes, or the same key had been always-allowed before |
| Approvals.StepGrows | simple_chat_agent/worker/workflow.py:310-392 | no step takes a fact back, and each adds only what its event may: a decision only when it is taken, a call only when it is made, a child's request only when the child asks, a run of a body only when its call is made or woken |
| Approvals.UsersWordIsRecorded | simple_chat_agent/worker/workflow.py:310-342 | what the user says to a pending request is the last word on it |
| Approvals.CallsAreApart | agent_harness/tools.py:333-393 | no two calls share a number, so the approval a call asked for is its own |
| Approvals.EachApprovalServesOnce | simple_chat_agent/worker/workflow.py:948-989 | an approval lets at most one body run |
| Approvals.AdminToolsNeverRun | agent_harness/guards.py:261-280 | in that set-up no admin tool's body ever runs |
| Approvals.ApprovalIdsNeverRepeat | simple_chat_agent/worker/workflow.py:957-958 | continue-as-new forgets nothing of the history of requests, and no approval id is asked for twice in it |
| Approvals.PendingIdsAreNew | simple_chat_agent/worker/workflow.py:957-958 | an id that becomes pending was not pending in any earlier state, of this run or one before |
| Approvals.ChildRequestsPendAtMostOnce | simple_chat_agent/worker/workflow.py:359-392 | a child request has at most one pending approval, however often it is repeated |
| ApprovalProgress.CalledToolRunsIff | agent_harness/tools.py:333-393 | a valid call runs at once exactly if its tool has no guard or its key is remembered, and otherwise waits under the next id; an invalid one does nothing |
| ApprovalProgress.WokenCallRunsIff | simple_chat_agent/worker/workflow.py:969-989 | a call that wakes with a decision runs exactly after a yes if this was its last guard or its key is now remembered, waits under the next id after a yes with guards left, and is gone otherwise |
| ApprovalProgress.UserDecides | simple_chat_agent/worker/tools/approval.py:40-60 | a call that needs approval once runs after the user's word exactly if that is allow or always-allow |
| ApprovalProgress.CallsThatAreOverNeverRun | simple_chat_agent/worker/workflow.py:948-989 | a call that was denied, timed out or cancelled never runs, whatever follows |
| ApprovalProgress.GivenUpCallIsOver | simple_chat_agent/worker/workflow.py:969-989 | a timeout or a cancelled wait settles the request and ends the call; a cancelled task ends the call alone |
| ApprovalProgress.OwnDecisionWaits | simple_chat_agent/worker/workflow.py:310-342 | a decision on one's own request is kept for the call; an unknown request or decision changes nothing |
| ApprovalProgress.ChildDecisionSettles | simple_chat_agent/worker/workflow.py:310-342 | a decision settles a child's request at once, and an always-allow is remembered |
| ApprovalProgress.ChildRequestIsPending | simple_chat_agent/worker/workflow.py:359-392 | a child's request is pending once made unless its key is remembered, and costs no other its place |
| ApprovalProgress.ExpiredRequestIsGone | simple_chat_agent/worker/workflow.py:344-357 | an expired request is gone, and no other |
| ApprovalProgress.NewRunKeepsMemory | simple_chat_agent/worker/workflow.py:617-656 | a new run has nothing pending, and the same counters and memory |
| ApprovalProgress.MemoryIsEverythingRemembered | simple_chat_agent/worker/workflow.py:617-656 | over any run with continue-as-new the memory holds exactly the keys that were ever remembered |
| ApprovalDesk.Desk.NewRequest | simple_chat_agent/worker/workflow.py:957-967 | a request takes the next number, becomes pending and is noted |
| ApprovalDesk.Desk.RunPreGuards | agent_harness/guards.py:282-310 | guards are passed by memory until one has to ask; after the last the body runs |
| ApprovalDesk.Desk.ExecuteTool | agent_harness/tools.py:333-393 | a call is validated first and runs its guards only then; its body runs at once exactly if it is valid and has no guard or a remembered key |
| ApprovalDesk.Desk.ResolveApproval | simple_chat_agent/worker/workflow.py:310-342 | an unknown decision or request changes nothing; a child's request is settled at once, one's own leaves a decision |
| ApprovalDesk.Desk.WakeCall | simple_chat_agent/worker/workflow.py:969-989 | the call that waited takes its decision, remembers an always-allow, and its body runs exactly after a yes with no guard left |
| ApprovalDesk.Desk.FindChild | simple_chat_agent/worker/workflow.py:350-357 | the search over the pending requests finds a request of that child if there is one |
| ApprovalDesk.Desk.RequestChildApproval | simple_chat_agent/worker/workflow.py:359-392 | a remembered key or a request already pending adds nothing |
| ApprovalDesk.Desk.ExpireChildApproval | simple_chat_agent/worker/workflow.py:344-357 | dropping the first match drops every match |
| PyText.ParsePrinted | simple_chat_agent/api/streaming.py:172-181 | reading a printed number gives it back |
| StreamLog.CursorRoundTrip | simple_chat_agent/api/streaming.py:163-181 | a printed cursor is read back in its own generation and refused in every other |
| StreamLog.AppendKeepsOk | simple_chat_agent/api/streaming.py:35-68 | appending, with the eviction it brings, keeps the broker consistent and changes no recorded event; a generation changes only if it was live, and a dead one stays dead |
| StreamLog.AcceptedIffLive | simple_chat_agent/api/streaming.py:296-318 | a cursor is accepted exactly by the stream whose live generation it names |
| StreamLog.DeadGenerationsStayRefused | simple_chat_agent/api/streaming.py:70-74 | cursors of a cleared or evicted generation are refused for ever, by every stream |
| StreamLog.RepeatedKeyAddsNothing | simple_chat_agent/api/streaming.py:43-59 | while the generation lives, a repeated idempotency key adds nothing and answers with its first cursor, whatever happened in between |
| StreamLife.AppendedIsLast | simple_chat_agent/api/streaming.py:35-68 | an append with a new key puts its event last under the stream's generation, answers with the position just after it, and evicts exactly the other streams idle for more than 1800 seconds |
| StreamLife.UsedStreamLives | simple_chat_agent/api/streaming.py:35-74 | whatever other streams do, a stream that is not cleared keeps its generation for 1800 seconds after its last use |
| StreamLife.ClearedIsGone | simple_chat_agent/api/streaming.py:70-79 | clearing takes away one stream, and a new cursor makes an empty one where there was none |
| StreamLife.DeliveredIsAppended | simple_chat_agent/api/streaming.py:296-337 | what is delivered is what was appended, with the position just after it |
| StreamLife.ReplayStartsAt | simple_chat_agent/api/streaming.py:296-337 | a replay starts at the beginning without a cursor and just behind its cursor with one, and brings what the limit allows |
| StreamBroker.UpdatesAreDelivered | simple_chat_agent/api/streaming.py:118-126 | an update carries event, data and cursor, the latter in the data too if a turn settled |
| StreamLog.LivePollFollows | simple_chat_agent/api/streaming.py:319-337 | a poll of the live generation brings the next events, as many as the limit allows |
| StreamLog.ChainedReplayDeliversOnce | simple_chat_agent/api/streaming.py:296-337 | chained replay with interleaved appends, clears and evictions delivers each later event of the generation once and in order |
| StreamBroker.StreamBroker.EnsureBuffer | simple_chat_agent/api/streaming.py:153-163 | a stream without buffer gets one of a new generation |
| StreamBroker.StreamBroker.EvictIdle | simple_chat_agent/api/streaming.py:60-67 | exactly the streams idle for more than 1800 seconds go |
| StreamBroker.StreamBroker.AppendEvent | simple_chat_agent/api/streaming.py:35-68 | an append changes the broker as specified and answers with the specified cursor |
| StreamBroker.StreamBroker.Clear | simple_chat_agent/api/streaming.py:70-74 | a cleared stream is gone |
| StreamBroker.StreamBroker.Cursor | simple_chat_agent/api/streaming.py:76-79 | the cursor of a stream is its end |
| StreamBroker.StreamBroker.ReplayOf | simple_chat_agent/api/streaming.py:296-337 | a replay answers as specified |
| StreamBroker.StreamBroker.SendEntries | simple_chat_agent/api/streaming.py:118-126 | entries go out in order, up to and including the first settled turn |
| StreamBroker.StreamBroker.PollOnce | simple_chat_agent/api/streaming.py:107-136 | one poll of a turn stream sends the next events, or a single call to reconcile |
| StreamBroker.StreamBroker.TurnEventStream | simple_chat_agent/api/streaming.py:95-138 | whatever other requests do, no event of any generation is lost or changed, and the stream sends a gap-free run of one generation from its cursor, and stops right after the first settled turn or a call to reconcile, which goes out only to a refused cursor; otherwise each poll sends all there is, up to 100 events |
| McpRegistry.FirstListingsAreFirst | simple_chat_agent/worker/tools/__init__.py:80-97 | a name is wanted exactly if it is listed, and by its first listing |
| McpRegistry.DesiredIsOffered | simple_chat_agent/worker/tools/__init__.py:80-97 | wanted is exactly what some tool of some enabled server goes by, by its own public name or else the prefixed one, and it is what the first such tool in the list makes it |
| McpRegistry.SyncFollowsList | simple_chat_agent/worker/tools/__init__.py:80-111 | after a sync, read off the list of servers: a name is an MCP tool exactly if an enabled server offers it and no built-in holds it, bound to the server id, url, auth and tool name of the first offer |
| McpRegistry.SyncFollowsCurrentList | simple_chat_agent/worker/tools/__init__.py:80-111 | the same after any history of lists, with built-ins as they always were |
| McpRegistry.SecondSyncChangesNothing | simple_chat_agent/worker/tools/__init__.py:80-111 | a second sync with the same list changes nothing |
| McpRegistry.OnlyCurrentListMatters | simple_chat_agent/worker/tools/__init__.py:80-111 | up to texts of the same source, the registry depends only on the built-ins and the current list |
| AppToolSet.AppToolSet.constructor | simple_chat_agent/worker/tools/__init__.py:34-44 | built-ins are registered and no MCP source is known |
| AppToolSet.AppToolSet.DesiredTools | simple_chat_agent/worker/tools/__init__.py:81-97 | the nested loops collect exactly the names enabled servers offer, each by its first offer |
| AppToolSet.AppToolSet.DropUnwanted | simple_chat_agent/worker/tools/__init__.py:99-102 | exactly the MCP tools no longer wanted go |
| AppToolSet.AppToolSet.AddWanted | simple_chat_agent/worker/tools/__init__.py:104-111 | wanted tools are registered unless the same source or a built-in already holds the name |
| AppToolSet.AppToolSet.SyncMcpTools | simple_chat_agent/worker/tools/__init__.py:80-111 | the three loops leave the registry that follows the list, and keep the recorded sources true |
| AppToolSet.AppToolSet.ToolNames | simple_chat_agent/worker/tools/__init__.py:47-50 | exactly the available names that are built in or offered by an enabled server |
| AppToolSet.AppToolSet.ExecuteTool | simple_chat_agent/worker/tools/__init__.py:61-75 | a call is refused if unavailable or offered by nobody, and otherwise reaches the built-in or the source of the first offer in the current list |
| Manifest.AttachmentManifestText | agent_harness/attachments.py:71-98 | the printer's loop gives the specified lines, joined |
| Manifest.TailReads | simple_chat_agent/worker/workflow.py:1138-1144 | the pattern's tail reads back what was printed behind a name |
| ManifestRoundTrip.NameReads | simple_chat_agent/worker/workflow.py:1138-1144 | the shortest name that fits is the whole name, if that is trimmed and does not contain the id key |
| ManifestRoundTrip.LineReads | simple_chat_agent/worker/workflow.py:1138-1144 | a printed line is read as its own attachment exactly if the size is not negative and the attachment is not ambiguous, and as nothing exactly if the size is negative |
| ManifestRoundTrip.SplitJoin | simple_chat_agent/worker/workflow.py:1192-1211 | splitting into lines undoes joining |
| ManifestRoundTrip.ManifestRoundTrip | simple_chat_agent/worker/workflow.py:1192-1211 | for printable attachments (trimmed single-line names without the id key, fields without commas, closing parentheses or line breaks) and prose with no line that could start an entry, parsing a printed manifest gives back every id, name, MIME type, kind and size in order exactly when no attachment has a negative size, or an empty name and an id with white space before a second id key |
| ManifestRoundTrip.AmbiguousAttachment | simple_chat_agent/worker/workflow.py:1138-1144 | an ambiguous attachment exists and is misread |
| ManifestRoundTrip.NegativeSizeAttachment | simple_chat_agent/worker/workflow.py:1138-1144 | a plain attachment with size -1 is printed and read back as no attachment at all |
| ManifestRoundTrip.ManifestTells | agent_harness/attachments.py:71-98 | read line by line, the manifest tells of every attachment under its number, with its expiry and preview where there are such |
| ClaudeConverter.ClaudeBlockRoundTrip | agent_harness/providers/claude.py:762-841 | a Claude block survives conversion to an agent block and back exactly when it is canonical: a plain text block, a tool block with all its fields, or an opaque block |
| ClaudeConverter.SecondPass | agent_harness/providers/claude.py:762-841 | a second pass over a block changes nothing exactly when the first did not unwrap a tool block with missing fields |
| ClaudeConverter.PassKeepsRefs | agent_harness/providers/claude.py:762-841 | a block keeps its tool id, and a dropped block had none |
| ClaudeConverter.StagesArePasses | agent_harness/providers/claude.py:714-759 | converting all blocks there and then all back is converting each there and back |
| ClaudeConverter.NormalForm | agent_harness/providers/claude.py:726-759 | a message keeps its role and its tool ids in order; it can always be converted again, and unchanged exactly when no provider block hid a tool block with gaps |
| ClaudeConverter.NormalAllTwice | agent_harness/providers/claude.py:714-723 | a history keeps its message count and roles, and a second conversion changes nothing under the same condition |
| ClaudeConverter.StoredHistoryDoesNotDrift | agent_harness/agent.py:337-341 | what one unguarded provider call stored the next stores again, followed by what was added |
| ClaudeConverter.HiddenGapDrifts | agent_harness/providers/claude.py:774-776 | a block exists for which the second pass differs |
| ClaudeConverter.AgentFormSays | agent_harness/providers/claude.py:783-841 | the agent form of a Claude block says its ids, name, input, content and error mark, or its text, and keeps the block itself |
| ClaudeConverter.ClaudeFormSays | agent_harness/providers/claude.py:762-812 | an agent block becomes a Claude block that says the same; a block of another provider is dropped |
| ClaudeConverter.EachBlockToAgent | agent_harness/providers/claude.py:747-759 | the blocks of a Claude message are converted one by one, none lost and none moved, exactly if all can be |
| ClaudeConverter.EachBlockToClaude | agent_harness/providers/claude.py:726-745 | the blocks of an agent message are converted in order, and only those without a Claude form are left out |
| ClaudeConverter.BlockConvertsIff | agent_harness/providers/claude.py:762-841 | all blocks can be converted but tool calls and results without their ids or names |
| ClaudeConverter.ConvertsIff | agent_harness/providers/claude.py:726-759 | exactly the messages of a known role with text, or with blocks that can be converted, can be converted |
| Censor.MatchFits | simple_chat_agent/worker/good_place.py:37-43 | a match is a key standing as a whole word or phrase |
| Censor.KeysMatch | simple_chat_agent/worker/good_place.py:37-43 | wherever a key stands as a whole word something matches |
| Censor.CasedIsClean | simple_chat_agent/worker/good_place.py:46-51 | adapting case changes no word's letters |
| Censor.ScanIsClean | simple_chat_agent/worker/good_place.py:54-59 | from any place not inside a word, the scan leaves no word that is a key |
| Censor.NoKeyIsLeft | simple_chat_agent/worker/good_place.py:54-59 | no key of a well-chosen table is left in the censored text as a whole word or phrase, in any case |
| Censor.CensoringTwiceIsOnce | simple_chat_agent/worker/good_place.py:54-59 | censoring is idempotent for a well-chosen table |
| Censor.CensorContent | simple_chat_agent/worker/good_place.py:62-84 | text blocks come out clean, every other block as it was, in place |
| CensorTable.TableIsWellChosen | simple_chat_agent/worker/good_place.py:14-35 | the table of the chat is well chosen: no replacement contains a key, and the last word of the phrase is itself a key |
| CensorTable.ChatCensor | simple_chat_agent/worker/good_place.py:14-59 | for the chat's own table no key survives and censoring twice is censoring once |
| CensorKeeps.CensoredAtFirstKey | simple_chat_agent/worker/good_place.py:54-59 | up to the first place where a key stands as a whole word a text is untouched; there the first entry of the table whose key stands puts its replacement, in the case of what it replaces; the rest is censored by itself |
| CensorKeeps.CensoredIsSameIff | simple_chat_agent/worker/good_place.py:54-59 | censoring changes a text exactly if a key stands in it somewhere |
| CensorKeeps.CaseIsAdapted | simple_chat_agent/worker/good_place.py:46-51 | a word in capitals is replaced in capitals, a capitalized one with a capital, any other as the table has it |
| CensorKeeps.ChatTableIsLongestFirst | simple_chat_agent/worker/good_place.py:37-43 | in the chat's table longer keys come first |
| Heartbeat.StepKeepsTimely | agent_harness/activity_router.py:205-227 | a skipped look means a heartbeat less than one interval ago, so the next look comes less than two intervals after it |
| Heartbeat.ShortTimeoutIsMissed | agent_harness/activity_router.py:205-236 | under two seconds, a manual heartbeat just before the first look makes the next one late |
| Heartbeat.TimelyIffTwoSeconds | agent_harness/activity_router.py:205-236 | under every pattern of manual heartbeats the first heartbeat and every gap come in under the timeout, exactly when the timeout is at least two seconds |
| Heartbeat.IntervalNumbers | agent_harness/activity_router.py:205-236 | half the timeout, between 1 and 30 seconds for the timer and between 1 and 5 for manual heartbeats |
| Heartbeat.HeartbeatsNeverCrowd | agent_harness/activity_router.py:50-74 | unless some are forced, heartbeats stay half the timeout apart under every pattern, but for the limits of 1 and 5 seconds |
| Heartbeat.GoesOutIff | agent_harness/activity_router.py:50-74 | a manual heartbeat goes out exactly if it is forced, the first, or not too soon; the timer sends exactly if the last is an interval ago |
| Heartbeat.RoutedActivityContext.Heartbeat | agent_harness/activity_router.py:50-74 | a progress report goes out unless there is no timeout or it is unforced and too soon, and its details are kept either way |
| Heartbeat.RoutedActivityContext.TimerLook | agent_harness/activity_router.py:205-225 | the timer sends unless a heartbeat went out less than one interval ago |

## Left out

- The exact JSON encoder: message sizes are an arbitrary function of the messages (`Encoding`).
- The wording of notices, markers, tags and manifest prose: parameters, with their lengths where a bound needs them.
- Guards that rewrite the history before a provider call: `AgentLoop` keeps the stored history as recorded, and `ClaudeConverter` states what an unguarded call stores.
- What an agent carries across continue-as-new in its steering queues: the carried state has none, and nothing is claimed about it.
- The agent's replies to a refusal and its exception payloads: texts only.
- Tool configuration fields of queued messages, model and thinking settings of the chat workflow: copied through, with no effect on the modelled properties.
- Delivery of a decision to a subagent's workflow, and the subagent's side of it: a call into another workflow.
- Post-tool guards: the chat registers none; validation covers them.
- How a call's memory key is made from the tool's name and arguments: the key is any text.
- The order of tool names in the MCP registry: the registry is a map.
- `tool_schemas`: a filter over the registry.
- File-mode streaming and `event_stream`: the file system, and a second reader of the same buffers.
- Non-positive replay limits: the routes admit only positive ones.
- Digits, letters and case outside ASCII in cursors, the manifest pattern and the censor.
- How a non-string value is written as text in the Claude converter: an arbitrary function.
- Python's equality of `True` and `1` in JSON data: booleans and numbers are different values here.
- ChatGPT and Gemini converters, OAuth, storage, routes, the frontend, the demo workflow, and sandbox caps.
- AgentLoop.Agent.WaitForTasks: the fairness of the runtime is a bound on idle waits, so that every wait ends.
- StreamBroker.StreamBroker.TurnEventStream: a client stays connected for a given number of polls; the sleeping intervals are left out.
