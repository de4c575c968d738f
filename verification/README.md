# A verified model of the agent runtime

This project models the parts of the runtime in which several functions have to agree with each other, and proves that they do.

- **Prompts.** The runner turns the persisted rows of a conversation into a prompt, repairs it, shortens it, cuts it, summarizes the part in front of the cut and records where the kept tail starts; two provider translators merge the prompt into alternating turns. `Messages`, `PromptRepair`, `RepairNormalForm`, `KeepBoundary`, `PromptAssembly`, `RenderedPrompt`, `Truncation`, `Compaction`, `Coverage`, `SummaryLedger`, `SummaryChunks`, `FactMerging`, `TurnMerging`, `Anthropic`, `RequestBlocks`, `Gemini`, `ContentParts` and `TurnPairs` follow that path. `RenderedPrompt`, `RequestBlocks` and `ContentParts` say what a prompt and a request hold in terms of the fields of rows and messages.
- **The coordinator.** `Coordinator` holds the locked sections as classes, `CoordinatorProtocol` every interleaving of them as a state machine, with the runner's mid-run inbox, `InjectionFate` what becomes of each injected message, and `CoordinatorLogs` what every run's logs say: who was answered how and why, and which message goes on as which.
- **Streams.** `StreamAssembly` compares a response read event by event with the same response read at once.
- **Workflows.** `Workflow` is the interpreter of nested skill steps over one shared context, whose tables are shared references; `WorkflowOutput` says what its steps hand on.
- **Smaller cores.** `KeywordRanges`, `MessageFraming`, `LogRotation`, `CronFiring` with `OneShots`, and `ToolDiscovery`, with `Decimal` for numbers as text.

Loops and objects of the source are methods and classes here, each proved against a function on values; the theorems are about those functions. The state machines (`SummaryLedger`, `CoordinatorProtocol`, `CronFiring`) are proved over all runs.

Where the model and a promise part ways, the exact condition is proved:

- Repairing a prompt twice changes nothing if and only if every tool call has an id (`RepairIsIdempotent`).
- The Anthropic translation keeps every block if and only if no call has arguments that cannot be encoded (`NoBlockLostIffArgumentsEncode`).
- From its start on, a prompt holds a row if and only if the row is no result that the rows from there on leave unannounced (`RowIsInPromptIffPaired`). Of the rows saved while a compaction runs, one reaches the next prompt if and only if the compaction kept a row and that condition holds (`ConcurrentRowSurvivesIffTailHoldsRow`); a history held in memory resumes at its first kept row if and only if that row has an id (`HeldHistoryResumesIffFirstRowHasId`).
- A prompt replays the whole history if and only if no row from its start on carries anything to continue from (`WholeHistoryIffNothingCarried`).
- A prompt rebuilt after a compaction is the compressed one if and only if that still holds something to answer (`RebuildEqualsCompressed`).
- A message accepted for injection is settled before its runner is replaced if and only if it is signalled and a drain of that runner follows; otherwise no later runner ever has it (`InjectedIsSettledIffDrainFollows`, with a complete run in `InjectedMessageCanBeStranded`). It is lost if and only if a save fails while it is in the batch (`InjectedIsLostIffSaveFails`).
- A workflow leaves the tables of its arguments as they were, unless a loop under the alias `steps` lends them; such a loop writes its output into its last item (`WorkflowKeepsArguments`, `LentTableIsWritten`), so that a loop without a body changes a table of the arguments if and only if its alias is `steps` and that table is its last item and does not say so already (`LoopChangesArgumentTable`).
- Behind a finished list of workflow steps the key `last` holds the list's own output if and only if nothing logged later reports another; a switch whose failure is tolerated makes the two differ (`LastIsOutcomeIff`, `ToleratedSwitchLeavesItsOutput`).
- Streamed and whole responses agree on calls if and only if the argument fragments add up, which they do not for a call streamed without any; on the stop reason unless an empty one follows a round that had one; and on the total token count only if it is zero (`StreamAgreesWithWhole`).
- A successful log rotation is an exact shift if and only if its unreported failures were harmless (`SuccessShiftsEverySlot`), and the newest rotated log is lost if and only if it cannot be looked at while the current one is moved (`OnlyTheOldestIsLost`).
- A rotation reports success if and only if nothing fails that it attempts (`SucceedsIffNothingAttemptedFails`).
- A framed message reads back if and only if its payload has at most 16 MiB (`FrameReadsBack`).
- A one-shot job that is left alone is attempted, once, if and only if it is enabled, has a user and no webhook, and some listed tick at or behind its time can disable it (`OneShotFiresIffTimeComes`).
- A cron job that is due at each tick fires at most once in every minute if and only if its ticks never return to a minute that a tick of another minute has followed (`DueJobFiresOnceIffClockNeverReturns`).
- The discovery cache tells configurations without separators apart, but for one empty argument or variable and none (`SignatureIdentifiesConfiguration`).

## Model

| member | source | states |
|---|---|---|
| PromptRepair.FixInterruptedToolCalls | internal/runners/runner.go:1261-1305 | the backward loop, editing the prompt in place, is the recursive repair `Fix` |
| PromptRepair.DropUnpairedToolResults | internal/runners/compact.go:339-354 | the forward loop over announced ids is the recursive `Drop` |
| RepairNormalForm.FixAnswers | internal/runners/runner.go:1261-1305 | after the first repair every call is answered before the next assistant or user message |
| RepairNormalForm.AnsweredMeansInTurn | internal/runners/runner.go:1261-1305 | answered means: for each call of each assistant, by position, a result with its id follows and no assistant or user message lies between |
| RepairNormalForm.FixAddsOnlySynthetic | internal/runners/runner.go:1261-1305 | the first repair inserts synthetic results and changes nothing else |
| RepairNormalForm.DropRemovesExactlyUnpaired | internal/runners/compact.go:339-354 | the second repair keeps, in order, exactly the messages that are not results of ids no message up to them announces |
| RepairNormalForm.DropKeepsAnswered | internal/runners/compact.go:339-354 | dropping orphans leaves no call without its result |
| RepairNormalForm.DropPairs | internal/runners/compact.go:339-354 | after dropping, every result is announced earlier |
| RepairNormalForm.PairedMeansDropsNothing | internal/runners/compact.go:339-354 | on a prompt whose results are all announced dropping is the identity |
| RepairNormalForm.RepairIsNormalForm | internal/runners/runner.go:1249-1305 | the repaired prompt has its calls answered in turn and its results announced; non-tool messages survive in order, only synthetic results are added and only orphans removed |
| RepairNormalForm.RepairIsIdempotent | internal/runners/runner.go:1249-1305 | repairing again changes nothing if and only if no announced call has an empty id |
| RenderedPrompt.TurnIsCompleted | internal/runners/runner.go:1261-1305 | behind the results an interrupted turn has, each call that no result answers before the next user or assistant message gets one interruption with its id and name, in call order, and the rest is repaired on its own |
| RepairNormalForm.RepliesIgnoreContent | internal/runners/compact.go:157-203 | shortening tool results does not change which calls are answered |
| KeepBoundary.FindKeepBoundary | internal/runners/compact.go:207-231 | the two nested walks stop at the last pairing-safe index at or before the target, or at 0 |
| KeepBoundary.ExpandKeepBoundaryForRecentTokens | internal/runners/compact.go:235-252 | the greatest index up to the given one whose tail carries the tokens, or 1 |
| KeepBoundary.ComputeKeepBoundary | internal/runners/compact.go:317-332 | the greatest index that is pairing-safe, keeps the messages and carries the tokens, or 1 when there is none |
| KeepBoundary.ShapedMeansEveryResultPairs | internal/runners/compact.go:319-326 | in the persisted shape every result lies in the tool run right behind the assistant that announced it |
| KeepBoundary.SafeCutIffNoPairSeparated | internal/runners/compact.go:207-231 | where calls are answered in the run behind them, a cut is safe if and only if it leaves each call and its results on one side |
| KeepBoundary.TailTokensAddUp | internal/runners/compact.go:235-252 | the tokens of a tail are the sum over its messages |
| KeepBoundary.CutSeparatesNoPair | internal/runners/compact.go:319-332 | the chosen cut leaves a call and its results on one side |
| KeepBoundary.CutOfShapedDropsNothing | internal/runners/compact.go:910-913 | on a shaped prompt the kept tail loses nothing to the last line of defence |
| KeepBoundary.RepairKeepsShape | internal/runners/runner.go:1249-1305 | repairing a shaped prompt gives a shaped prompt |
| Truncation.TrimToolResultText | internal/runners/compact.go:133-153 | a text that fits is kept; a longer one keeps exactly the budget, the larger part its head, the rest its tail |
| Truncation.TruncatingShortens | internal/runners/compact.go:133-203 | a tool text within the budget is kept, one of more than four budgets cleared, any other trimmed to three quarters of the budget of its head and the rest of its tail; nothing else changes |
| Truncation.TruncateOldToolResults | internal/runners/compact.go:157-180 | each message but the newest ones is kept, cleared or trimmed by that rule; the newest are unchanged |
| Truncation.TruncateAllToolResults | internal/runners/compact.go:185-203 | each message is kept, cleared or trimmed by that rule |
| PromptAssembly.FindLastSummaryIndex | internal/runners/compact.go:358-366 | the backward scan gives the last summary row or -1 |
| PromptAssembly.RecordedResumeIndex | internal/runners/runner.go:1114-1129 | the recorded id's first row, the row behind the summary for a recorded empty id, nothing otherwise |
| PromptAssembly.SkipOrphanedTurnFragments | internal/runners/runner.go:1136-1154 | the next user row or the row behind the next finished turn, else the given index |
| PromptAssembly.SummaryStartIndex | internal/runners/runner.go:1095-1108 | recorded point, or the guess from the summary's position and the latest user row |
| RenderedPrompt.StartIsRecordedOrGuessed | internal/runners/runner.go:1095-1166 | from row fields: the start is where the last summary recorded it; without a record, or when the recorded row is gone, it is the guess (the first user row or the row behind the first finished turn behind the summary, else the row behind the summary) or the latest user row, whichever comes first |
| RenderedPrompt.NoSummaryStartsAtFirstRow | internal/runners/runner.go:1095-1099 | without a system summary row the start is the first row |
| PromptAssembly.AssembleMessages | internal/runners/runner.go:1171-1257 | header, rows from the start on without summaries, then both repairs |
| PromptAssembly.BuildMessages | internal/runners/runner.go:1015-1055 | the assembled prompt, or that of the whole history when nothing to answer is left, behind it the overlays |
| RenderedPrompt.PromptSaysRows | internal/runners/runner.go:1015-1257 | every built prompt, from row fields: the system prompt and the text of the last summary; then, row by row and in order, a message with the id, role, stored text or parts, calls, call id and tool name of the row, left out only for summaries and results whose id nothing from the start on announced, with interruptions put in; then each overlay with its text |
| RenderedPrompt.WholeHistoryIffNothingCarried | internal/runners/runner.go:1022-1038 | the whole history is replayed if and only if no row from the start on is anything but a summary, a system row or a result with an id |
| PromptAssembly.BuiltPromptIsRepaired | internal/runners/runner.go:1015-1055 | in every built prompt calls are answered in turn and results are announced, overlays included |
| PromptAssembly.PromptIsAnswerable | internal/runners/runner.go:1036-1075 | a history with a user row always gives a prompt with a non-system message |
| PromptAssembly.GuessIsInBounds | internal/runners/runner.go:1095-1166 | without a recorded point the start is within bounds and never behind the latest user row |
| RenderedPrompt.LatestUserIsSaid | internal/runners/runner.go:1095-1166 | without a recorded point the prompt has a message that says what the latest user row stores |
| PromptAssembly.RepairSkipsSystems | internal/runners/runner.go:1249-1257 | the system header takes no part in the repairs |
| Compaction.FindResumeFromMessageId | internal/runners/compact.go:264-283 | the id of the first history row whose message is kept, or the empty id |
| Compaction.CompressContext | internal/runners/compact.go:870-923 | unchanged below the threshold, without a boundary or without a summary; otherwise the compressed prompt and the summary row with its recorded point |
| Compaction.EveryRequestIsWellFormed | internal/runners/compact.go:905-923 | for every history, every truncation before and after and every cut: alternating turns, each tool use answered in the very next user turn |
| Compaction.SplitFix | internal/runners/compact.go:207-231 | a tail of the first repair that starts on no tool result is the first repair of a tail |
| Compaction.SplitDrop | internal/runners/compact.go:339-354 | a tail of the second repair is the second repair of a tail |
| Compaction.DropTwice | internal/runners/compact.go:910-913 | dropping orphans of a tail once more, knowing fewer ids, is dropping with those ids at once |
| Coverage.CutKeepsTail | internal/runners/compact.go:254-283 | whether or not rows have ids, a kept tail is the repair of a suffix of the rows and the overlays, or nothing but overlays |
| Coverage.CutKeepsRowSuffix | internal/runners/compact.go:254-283 | with ids, the kept tail holds the id of the row it starts at, or holds no row |
| Coverage.ResumePointIs | internal/runners/compact.go:254-283 | the recorded id is that of the first row of that suffix |
| Coverage.StartAfterSummary | internal/runners/runner.go:1095-1129 | the next start index is the recorded row, or the row behind the summary for an empty record, whatever arrived since |
| Coverage.StartAfterDegradedSummary | internal/runners/compact.go:775-796 | a degraded summary records no coverage: whatever id it names, the next start is the guess from its position or the latest user row |
| Coverage.RebuildIsKeptTailAndNewerRows | internal/runners/runner.go:1202-1246 | the next prompt is the new header and the repair of exactly the kept rows followed by the newer rows |
| Coverage.RebuildEqualsCompressed | internal/runners/runner.go:1036-1055 | with no newer row it equals the compressed prompt if and only if that holds something to answer |
| SummaryLedger.RunIsSound | internal/runners/compact.go:730-801 | over any run of appends and compactions every row before the resume point is behind the summaries or an unpaired result |
| SummaryLedger.NothingIsLost | internal/runners/compact.go:730-801 | after any such run each row is behind the chain of summaries, said in the next prompt by a message with its id, role, text or parts, calls, call id and tool name, or a result that the rows from the start of this prompt, or of one compacted in the run, leave unannounced |
| SummaryLedger.RowIsInPromptIffPaired | internal/runners/runner.go:1202-1257 | from its start on, a prompt has a message that says what the row stores if and only if the rows from there on do not leave the row an unannounced result |
| SummaryLedger.ShapedRunsLoseNothing | internal/runners/compact.go:317-332 | in the persisted shape the third case cannot happen |
| SummaryLedger.ConcurrentRowSurvivesIffTailHoldsRow | internal/runners/compact.go:775-796 | each of any rows saved during a compaction reaches the prompt of a later user message if and only if the compaction kept a row and the row is no unannounced result |
| SummaryLedger.HeldHistoryResumesIffFirstRowHasId | internal/runners/compact.go:254-283 | for every cut of the prompt built from rows some of which lack ids: the next prompt resumes at the first kept row if and only if that one has an id, and behind it otherwise |
| SummaryLedger.SecondCompactionCovers | internal/runners/compact.go:730-801 | compacting again within a run, from a history without the summary just saved, still accounts for every stored row before the new resume point |
| SummaryChunks.SplitMessagesByTokenBudget | internal/runners/compact.go:564-588 | non-empty chunks within budget or of one message, whose concatenation is the input, and no partition has fewer |
| SummaryChunks.GreedyIsLeast | internal/runners/compact.go:564-588 | the greedy chunks are a partition, and every partition has at least as many |
| FactMerging.NormalizeFactLines | internal/runners/compact.go:407-426 | the loop over a seen set is deduplication by key, capped at eight |
| FactMerging.NormalizeKeepsFirsts | internal/runners/compact.go:407-426 | the first eight non-empty lines that are first with their key, by position |
| FactMerging.CappedMergeIsExact | internal/runners/compact.go:477-492 | capping two lists before merging them gives what capping their concatenation gives |
| FactMerging.MergeChunkSummaries | internal/runners/compact.go:615-624 | folding capped chunk summaries keeps, list by list, the first eight distinct facts of the lists of all chunks one behind the other, and the last text there is |
| FactMerging.FormatStructuredSummary | internal/runners/compact.go:438-475 | the saved text opens with a non-empty line and carries exactly the kept facts under their titles |
| FactMerging.SectionListsFacts | internal/runners/compact.go:438-448 | a section is its title and a line for each fact in order, and nothing without facts |
| TurnMerging.TurnsAlternate | internal/providers/anthropic.go:335-349 | merged turns alternate in role |
| TurnMerging.BlocksArrive | internal/providers/anthropic.go:458-472 | a block of a user message, or of any message when all of them encode, is in the turn its message belongs to |
| TurnMerging.BlocksComeFrom | internal/providers/anthropic.go:458-472 | a block of a turn was said by a message of that turn, and all its messages have its role |
| TurnMerging.MergingKeepsBlocks | internal/providers/anthropic.go:458-472 | when every message encodes, merging keeps all blocks in order; it never adds one |
| TurnMerging.TurnHoldsItsMessages | internal/providers/anthropic.go:335-349 | a turn holds exactly what its messages say, in their order, when they encode |
| Anthropic.ExtractSystemAndMessages | internal/providers/anthropic.go:312-352 | leading system messages become system blocks, the rest the merged turns |
| Anthropic.RequestIsWellFormed | internal/providers/anthropic.go:312-472 | an answered prompt translates to alternating turns with each tool use answered in the very next user turn, by the result with the text of the message that answers it |
| Anthropic.ResultFollowsItsUse | internal/providers/anthropic.go:312-472 | in a shaped prompt each result answers a use of the turn right before |
| Anthropic.NoBlockLostIffArgumentsEncode | internal/providers/anthropic.go:416-472 | every block arrives, in order, if and only if no call has malformed arguments |
| RequestBlocks.EveryMessageIsSaid | internal/providers/anthropic.go:312-454 | from message fields: in one turn and together, an assistant says its text and then each call with id, name and arguments ("{}" when absent), a tool its result with id and text, a user its texts and images, a later system message its text behind its mark; assistants as long as all arguments encode |
| RequestBlocks.TextOfParts | internal/providers/anthropic.go:312-454 | the text of a message is its own, or that of its text parts joined in order |
| TurnPairs.EveryResultFollowsItsUse | internal/runners/compact.go:905-923 | for every history in the persisted shape whose arguments encode, every truncation before and after and every cut: each result answers a use of the turn right before |
| Gemini.TranslateMessages | internal/providers/gemini.go:297-347 | system text apart, the other messages merged into contents by role |
| Gemini.ContentsAlternateAndKeepParts | internal/providers/gemini.go:297-347 | contents alternate and keep every part in order |
| Gemini.CallIsRespondedInNextTurn | internal/providers/gemini.go:297-419 | the response to a call is in the very next content |
| ContentParts.EveryMessageIsSaid | internal/providers/gemini.go:297-419 | from message fields: in one content and together, an assistant says its text and then each call with name and arguments, a tool the response to the function it names with its text, a user its texts and images |
| Coordinator.ConversationRunner.EnqueueMessage | internal/coordinators/coordinator.go:501-543 | reject, inject or queue, and whether a processor starts |
| Coordinator.ConversationRunner.AbortConversationRun | internal/coordinators/coordinator.go:398-419 | the flag is set and every queued message is answered as canceled, in order |
| Coordinator.ConversationRunner.TakeNext | internal/coordinators/coordinator.go:548-561 | the first queued message leaves the queue, or the processor ends |
| Coordinator.ConversationRunner.RequeueSpilled | internal/coordinators/coordinator.go:632-654 | messages that slipped through are queued again in order |
| Coordinator.RequeueQueuesEachMessage | internal/coordinators/coordinator.go:632-654 | behind the queue there was, one message for each of the batch, in order, with its payload, under its new ticket and no request to compact |
| Coordinator.AbortCancelsEachMessage | internal/coordinators/coordinator.go:398-419 | an abort answers every queued message as canceled, in order, and leaves none queued |
| Coordinator.MidRunInbox.Drain | internal/runners/runner.go:298-311 | all pending messages are handed over in order and none is left |
| Coordinator.RunHandle.Resolve | internal/coordinators/handle.go:55-61 | only the first resolution takes effect |
| Coordinator.FirstOutcomeWins | internal/coordinators/handle.go:48-61 | any number of resolutions leaves the first outcome |
| Coordinator.CompleteRun | internal/coordinators/coordinator.go:204-307 | the handle ends with the dispatched outcome, which the safety net does not replace |
| CoordinatorProtocol.StepKeepsInv | internal/coordinators/coordinator.go:398-656 | every step keeps the four invariants |
| CoordinatorProtocol.StepKeepsTickets | internal/coordinators/coordinator.go:398-656 | each issued message is in exactly one of queued, between two steps of its caller, in flight or answered |
| CoordinatorProtocol.StepKeepsOrder | internal/coordinators/coordinator.go:501-561 | the messages queued, payloads included, are those taken and then those still queued, first in, first out |
| CoordinatorProtocol.StepKeepsMidRun | internal/runners/runner.go:279-311 | signalled messages are settled, in the drained batch or pending, in signal order |
| CoordinatorProtocol.EveryRunIsSafe | internal/coordinators/coordinator.go:398-656 | over every interleaving the invariants hold and no message gets two results, so a channel of capacity one never blocks |
| CoordinatorProtocol.ProcessorStartsOnlyWhenNoneLives | internal/coordinators/coordinator.go:529-542 | enqueueing starts a processor if and only if none lives and the instance is not aborted |
| CoordinatorProtocol.ProcessorNeverStuck | internal/coordinators/coordinator.go:545-656 | a live processor always has a step of its own |
| CoordinatorProtocol.CleanEndSettlesEverything | internal/runners/runner.go:653-671 | a run ends after a round without tool calls only on a drain that saw the list empty, and then everything signalled is settled |
| CoordinatorLogs.EveryRequeuedMessageGoesOn | internal/coordinators/coordinator.go:632-654 | over every interleaving, each message any runner queued again has a successor of its own with its payload, which was started, cancelled or is still queued |
| CoordinatorLogs.SpilledAreQueuedAgain | internal/coordinators/coordinator.go:632-654 | the step itself: the old queue, then one message for each spilled one, in order, with its payload |
| CoordinatorLogs.EveryAnswerIsDeserved | internal/coordinators/coordinator.go:398-656 | over every interleaving, a result is sent only for a started message, "injected" only for a signalled one, "canceled" only on the aborted instance for a queued or refused one; each message signalled to any runner was settled, is held, or is stranded; no request to compact is injected |
| CoordinatorLogs.EnqueuedGoesToItsPlace | internal/coordinators/coordinator.go:501-543 | a message is refused by an aborted instance, injected where a runner works and it is no request to compact, and otherwise last in the queue of a live processor |
| CoordinatorLogs.FirstInQueueRuns | internal/coordinators/coordinator.go:548-613 | the first message runs, in rounds unless it is a request to compact or there is no runner; the processor ends exactly when nothing is queued |
| CoordinatorLogs.AbortedRunsSaySo | internal/coordinators/coordinator.go:615-623 | behind an abort no run that was not about to answer yet is answered as not aborted |
| CoordinatorLogs.PersistedMessagesAreAnswered | internal/runners/runner.go:653-671 | behind each message it persists, a run that ends cleanly has called the model and needed no tool |
| InjectionFate.FateIsDecidedWhileHeld | internal/coordinators/coordinator.go:632-654 | over any run of one runner a message is persisted, queued again or lost if and only if some event makes that of it while the runner holds it |
| InjectionFate.InjectedIsLostIffSaveFails | internal/runners/runner.go:415-429 | in every run a message accepted for injection is lost if and only if a save fails while it is in the batch, and no message is settled twice |
| InjectionFate.InjectedIsReachedIffDrainFollows | internal/runners/runner.go:279-311 | over any run of one runner an injected message is settled or being settled if and only if it was signalled and a drain followed; otherwise it waits with its caller or on the pending list |
| InjectionFate.InjectedIsSettledIffDrainFollows | internal/coordinators/coordinator.go:501-656 | in every run, signals after the exit of the processor and of late callers included: settled before the runner is replaced if and only if a drain follows the signal, and otherwise never held by any later runner |
| CoordinatorProtocol.InjectedMessageCanBeStranded | internal/coordinators/coordinator.go:514-527 | a complete run in which an acknowledged message is never read |
| StreamAssembly.TranslateResponse | internal/providers/anthropic.go:488-543 | texts joined, calls in block order, usage and stop reason of the whole response |
| StreamAssembly.ReadSse | internal/providers/anthropic.go:547-714 | the line loop with its pending event and block table is decoding lines, then reading events up to the first stop or error |
| StreamAssembly.CollectStream | internal/runners/runner.go:502-559 | the event loop with its per-index delta map is `Collect` |
| StreamAssembly.Flatten | internal/runners/runner.go:574-585 | flattening by sorted keys gives the calls in index order |
| StreamAssembly.DecodeOfFrame | internal/providers/anthropic.go:572-586 | framing events as lines and decoding them are inverse |
| StreamAssembly.DecodeIsAnnounced | internal/providers/anthropic.go:563-586 | each data line is one event, under the name of the last event line since the last data line |
| StreamAssembly.NothingIsReadBehindStop | internal/providers/anthropic.go:581-714 | reading ends with the stop event or the first event that does not parse; nothing behind it is read or collected |
| StreamAssembly.NoiseIsIgnored | internal/providers/anthropic.go:588-714 | events without a meaning change nothing, wherever they stand |
| StreamAssembly.StreamGivesWhatWasSent | internal/providers/anthropic.go:547-714 | however texts and arguments are cut, the runner collects the blocks the fragments add up to, in block order, the stop reason in the runtime's words and each token count but the total |
| StreamAssembly.StreamAgreesWithWhole | internal/providers/anthropic.go:488-714 | agreement with the whole response: text always, calls, stop reason and total tokens under exact conditions |
| Workflow.Interpreter.ExecuteWorkflowSteps | internal/skills/tool.go:211-224 | the loop over steps, on the shared context and log, is `RunSteps` |
| Workflow.Interpreter.ExecuteWorkflowStep | internal/skills/tool.go:226-252 | skipping and dispatch by step type, unknown types failing |
| Workflow.Interpreter.ExecuteActionStep | internal/skills/tool.go:254-324 | attempts, tolerated errors and recorded outputs of an action |
| Workflow.Interpreter.ExecuteForEachStep | internal/skills/tool.go:326-351 | the loop between saving and restoring its two aliases, on every exit; a restored table is the one that was there, with what was written into it |
| Workflow.Interpreter.ExecuteItems | internal/skills/tool.go:357-381 | one body run and one collected entry per item |
| Workflow.Interpreter.ExecuteSwitchStep | internal/skills/tool.go:384-430 | the first matching case, or the fallback when there is none or it has no steps |
| Workflow.Interpreter.RecordStepOutput | internal/skills/tool.go:432-443 | the output under its name, written in place into the table of step outputs, which is created when missing |
| Workflow.AttemptsAreBounded | internal/skills/tool.go:266-301 | at most the configured attempts, stopping at the first that is not a failure, failing only when all do |
| Workflow.StepsAreTidy | internal/skills/tool.go:211-443 | any list of steps, nested to any depth, failing or not, keeps every context key but last, lastError and steps, records into the table that was there, changes no other table unless a loop has lent it, removes no key from any table, and only appends to the log, under its own name prefix; without a loop under the alias steps nothing is lent |
| Workflow.ForEachIsTidy | internal/skills/tool.go:326-381 | the same for a loop, with tables lent only under the alias steps |
| Workflow.ForEachCollectsEveryItem | internal/skills/tool.go:357-381 | a loop finishes if and only if errors are tolerated or no body fails, and then lists one entry per item in order |
| WorkflowOutput.EntryIsOutputOrError | internal/skills/tool.go:360-369 | a loop collects the output of a body that finishes, and a new table with the error of one that fails |
| Workflow.FinishedStepIsLogged | internal/skills/tool.go:226-430 | a finished step ends the log with an entry under its own name that reports its output, none when it was skipped or its failure tolerated |
| Workflow.FinishedStepIsRecorded | internal/skills/tool.go:432-443 | a finished step that ran has its output, or a table with its error, in the table of step outputs; loops under the alias steps apart |
| Workflow.LentTableIsWritten | internal/skills/tool.go:348-381 | a finished loop under the alias steps has its output in its last item, if that is a table, and over no items in the table of step outputs there was |
| Workflow.FinishedStepsAreLogged | internal/skills/tool.go:211-224 | a finished list has an entry for each of its steps, in order, the last of them last in the log; its output is that of the last of these entries that has one |
| WorkflowOutput.LastIsLatestLogged | internal/skills/tool.go:211-224 | after any list of steps, nested, failing or not, the key last holds the last output logged since, or what it held before; loops under the alias last apart |
| WorkflowOutput.LastIsOutcomeIff | internal/skills/tool.go:211-224 | behind a finished list with an output, last is that output if and only if nothing logged later reports another, so whenever its last step has one |
| WorkflowOutput.ToleratedSwitchLeavesItsOutput | internal/skills/tool.go:408-421 | a concrete list whose output and last differ |
| WorkflowOutput.ActionEndsLikeItsLastAttempt | internal/skills/tool.go:254-324 | outcome, log entry and lastError of an action follow from the last attempt made: refused, failed, tolerated or decoded |
| WorkflowOutput.SwitchRunsFirstMatch | internal/skills/tool.go:384-430 | a switch has the outcome of the steps of the first matching case, or of the fallback when that has none or none matches |
| WorkflowOutput.ItemIsShown | internal/skills/tool.go:357-359 | a body starts with its item and index under the alias and nothing else changed |
| WorkflowOutput.BodyEntriesAreNamed | internal/skills/tool.go:357-360 | what the body of an item logs stands under the loop's name with the index |
| WorkflowOutput.StepsThatDoNotRun | internal/skills/tool.go:233-251 | a skipped step only logs that; an unknown type or a source that is no list fails and changes nothing |
| Workflow.Execute | internal/skills/tool.go:139-198 | main steps, then closing steps whatever happened; an answer if and only if both finished and the output fits its schema; its output is that of the last own entry of a main step that has one; each error is worded as in the source |
| Workflow.WorkflowKeepsArguments | internal/skills/tool.go:145-175 | every argument but the shared keys is as given after main and closing steps, down to its tables but for lent ones; without a loop under the alias steps none is lent |
| Workflow.LoopChangesArgumentTable | internal/skills/tool.go:348-381 | a loop without a body changes a table of the arguments if and only if its alias is steps, its last item is that table and the table does not hold its output yet |
| Workflow.AnsweredWorkflowIsLogged | internal/skills/tool.go:170-198 | an answered workflow has logged every main step and then every closing step, in order and under its own name |
| KeywordRanges.ScoreLines | internal/embeddings/search.go:128-170 | matching title and lines with their scores |
| KeywordRanges.ScoresAreShares | internal/embeddings/search.go:139-170 | a matching line scores its hits shared out over the lines of the item, the title twice its hits |
| KeywordRanges.BuildRanges | internal/embeddings/search.go:183-209 | each match widened by the context lines and clipped to the item |
| KeywordRanges.MergeRanges | internal/embeddings/search.go:218-235 | the loop extending the last range gives a decomposition: sorted, at least a line apart, same lines, best score |
| KeywordRanges.DecompositionIsUnique | internal/embeddings/search.go:215-235 | there is only one, so the order a sort gives equal starts does not matter |
| KeywordRanges.EveryMatchIsInOneSnippet | internal/embeddings/search.go:183-249 | a line is in a snippet if and only if it is near a match, and then in exactly one; snippets lie within the item |
| MessageFraming.WriteMessage | internal/cloud/message.go:28-41 | a frame is written whole, or a proper prefix of it when the writer fails |
| MessageFraming.FrameLayout | internal/cloud/message.go:26-41 | on the wire: the type, the length of the payload in four bytes with the highest first, the payload |
| MessageFraming.Reader.ReadFull | internal/cloud/message.go:44-61 | arbitrary short reads add up to the bytes asked for, or to the end of the stream |
| MessageFraming.Reader.ReadMessage | internal/cloud/message.go:44-61 | reading one message from any chunks is `ReadFrame` on the bytes |
| MessageFraming.FrameReadsBack | internal/cloud/message.go:26-61 | a frame reads back, with nothing behind it touched, if and only if its payload has at most 16 MiB |
| MessageFraming.TruncatedFrameIsNoMessage | internal/cloud/message.go:44-61 | a proper prefix of a frame is an error |
| MessageFraming.StreamReadsBack | internal/cloud/message.go:26-61 | any sequence of frames reads back in order, and a cut-off one behind it is an error |
| MessageFraming.WebSocketConnection.Read | internal/cloud/wsconn.go:25-43 | what is delivered followed by what is pending is what was pending |
| MessageFraming.ReadsDeliverTheStream | internal/cloud/wsconn.go:25-43 | for any buffer sizes the reads deliver the received payloads from the front |
| MessageFraming.FailureMeansAllDelivered | internal/cloud/wsconn.go:25-43 | a read fails only when exactly the concatenation of the payloads has been delivered |
| LogRotation.RotateLogFile | cmd/logrotate.go:24-56 | the renaming loop over the slots, with every failing operation, is `Rotate` |
| LogRotation.CompressFile | cmd/logrotate.go:96-129 | block by block: the source is untouched; on success the target is the whole source, on failure a free target is free again or, when removing it fails too, holds a prefix of the source |
| LogRotation.SuccessShiftsEverySlot | cmd/logrotate.go:24-56 | success is an exact shift by one, absent slots included, if and only if the unreported failures were harmless |
| LogRotation.SucceedsIffNothingAttemptedFails | cmd/logrotate.go:24-56 | success is reported if and only if no renaming of a compressed slot fails, nor, where slot 1 is there to be seen, its compression or removal, nor, where the log is, its renaming |
| LogRotation.OnlyTheOldestIsLost | cmd/logrotate.go:24-56 | a rotation, failed or not, loses nothing below the oldest slot, but slot 1 when it cannot be looked at and is overwritten |
| LogRotation.LatestFiveAreKept | cmd/logrotate.go:24-56 | after any number of successful rotations the slots hold the latest five generations, newest first |
| CronFiring.Scheduler.Tick | internal/jobs/scheduler.go:120-197 | the loop over loaded jobs, its disabling and its table of last fires, is `Next` |
| OneShots.EventAttempts | internal/jobs/scheduler.go:142-195 | a tick attempts a job if and only if it lists it enabled, with a user and no webhook, and either as a one-shot at or behind its time that it can disable, or by a schedule that matches in a minute it was not attempted in last; one-shots are disabled by it |
| OneShots.OneShotFiresIffTimeComes | internal/jobs/scheduler.go:153-174 | over any run that leaves it alone, a one-shot job is attempted once, and disabled, if and only if it is enabled, has a user and no webhook, and some listed tick at or behind its time can disable it; otherwise never |
| OneShots.OneShotFiresAtItsFirstTick | internal/jobs/scheduler.go:153-174 | it is attempted at the first such tick, not before and not again |
| OneShots.OthersAreNotAttempted | internal/jobs/scheduler.go:120-195 | a job that is not listed is not attempted, and editing or removing one attempts nothing |
| CronFiring.OneShotsFireOncePerEnabling | internal/jobs/scheduler.go:153-174 | over any run a job fires as a one-shot at most once per time it was enabled |
| CronFiring.CronFiresOncePerMinute | internal/jobs/scheduler.go:181-195 | with ticks that do not go back a job fires at most once a minute, whatever is edited meanwhile |
| CronFiring.ElapsedMinuteFiresOnce | internal/jobs/scheduler.go:181-195 | with ticks at most a minute apart a job due throughout an elapsed minute fires for it exactly once |
| CronFiring.DueJobFiresOnceIffClockNeverReturns | internal/jobs/scheduler.go:181-195 | a job due at each tick fires at most once in every minute if and only if no tick returns to a minute that a tick of another minute has followed |
| ToolDiscovery.SignatureIdentifiesConfiguration | internal/mcp/manager.go:242-255 | for fields and items without separators, keys are equal if and only if the configurations differ at most in their connection and in one empty item standing for none |
| ToolDiscovery.Probe | internal/mcp/manager.go:156-183 | at most the attempts, each but the last a retryable failure; the result is that of the last one, or the caller's own error; the waits begun double and add up to base times one less than a power of two |
| ToolDiscovery.RetriedErrors | internal/mcp/manager.go:202-237 | another attempt follows failures of the connection, unknown ones and the answers 408, 425, 429, 500, 502, 503 and 504, and no others |
| ToolDiscovery.Manager.Lookup | internal/mcp/manager.go:135-140 | a cached answer is that of a successful probe under the same key, less than one lifetime old |
| ToolDiscovery.Manager.Keep | internal/mcp/manager.go:147-150 | keeping a result keeps every entry backed by a successful probe |
| ToolDiscovery.Manager.Discover | internal/mcp/manager.go:132-151 | a cached answer if and only if an entry under the key has not expired, and then its tools, backed as above; otherwise the probe's own, kept if and only if it succeeded |

## Left out

- Calls to models, servers, subprocesses, stores and the file system are parameters: any value or failure they may give.
- JSON and YAML, regular expressions, templates, conditions and schemas are abstract values or parameters; of argument strings the model knows whether they encode.
- Estimated tokens are an arbitrary function of a message, so the estimator and the sanitizing of tool results in front of it are not modelled.
- The texts a summarizer writes, its second pass without oversized messages and its omission notes are not modelled; a compaction has a non-empty text, which `FormatStructuredSummary` guarantees.
- A degraded summary records no coverage, on purpose; the ledger follows compactions that are not degraded. After a legacy or degraded summary `StartIsRecordedOrGuessed` gives the start; what lies before it is not accounted for.
- SummaryLedger.NothingIsLost: covers compactions that keep a row, or during which no row is saved, because `ConcurrentRowSurvivesIffTailHoldsRow` shows that the others do lose rows. History is as the store lists it, with an id on every row; rows held in memory without one are the subject of `HeldHistoryResumesIffFirstRowHasId`, a second compaction within a run that of `SecondCompactionCovers`.
- The 250-round limit, the retries after a context-length error, approvals and the execution of tools within a round.
- Image data behind image parts, prompt-cache markers and tool definitions.
- The coordinator is modelled per runner instance; two instances of one conversation, the restoring of run ids, panics and cancellation of contexts are not.
- Gemini's own event stream, cancellation of a stream half-way, and the limit on the length of a stream line.
- Token counts and block indices are natural numbers without a width; scores are reals.
- Sorting is library code: sorted inputs are quantified over, so `MergeRanges` holds for every order of equal starts and `Flatten` takes sorted keys.
- Ranking of snippets across items and the cut to the requested number.
- Workflow lists are values, since nothing writes into one; durations, and the key `lastFinally`, which nothing reads after it is set, are not modelled.
- WorkflowOutput.LastIsLatestLogged: leaves out loops under the alias `last`, which put their items under that key and restore it.
- CronFiring.ElapsedMinuteFiresOnce: takes a schedule as a predicate on minutes, each tick as one step, and one life of the process, because the table of last fires does not survive a restart.
- The choice of a workflow's steps by its action field and the check of required arguments are single branches.
- Writing on a websocket, deadlines, and compression itself.
- API handlers, front end, command line, authentication, voice and audio.
