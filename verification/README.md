# Verified models of the agent SDK

This project models five parts of the SDK and proves what they promise, for every input, every
schedule and every run:

- **The run loop** (`Runs`, `ModelCall`, `Collect`, `ToolBatch`, `AgentLoop`, with `Budget`, `Executor`,
  `Requests` and `TranscriptRepair`): a whole run against any provider stream, hook, store failure, tool
  and clock.
- **Workspaces** (`UnifiedPatch`, `UnifiedParse`, `EmptyLines`, `Workspace`, `WorkspaceStores`): parsing, applying and
  inverting unified diffs, guarded patches, diffs, checkpoints.
- **Context and sessions** (`ContextWindow`, `Retention`, `Sessions`, `RepairCost`, `CompactionRuns`,
  `InterruptedRun`): what is sent to the model, what is kept, and the two session stores.
- **The assistant text stream** (`StreamText`, `Separators`, `AssistantContent`, `StoredText`).
- **The JSON-RPC connection** (`JsonRpc`, `JsonRpcAnswers`): every interleaving of calls, cancellations, the read loop and
  closing. Section 5 (Response object) of the JSON-RPC 2.0 specification asks that a response id match
  its request.

`Text`, `Transcript` and `Wrappers` hold what they share. `dafny verify dfyconfig.toml` verifies all of it.

Loops and objects of the source are methods and classes; each is proved against a function or a
predicate, and the lemmas are about those. What comes from outside (streams, hooks, tools, summarisers,
estimators, Unicode tables, failures, time, fresh ids) is a parameter and can be anything.

## Where the code does less than one might expect

- The inverse of a text patch restores the text only if the patch leaves some line of a text with a
  final newline, and no empty last line of a text without one (`TextUndoneIff`, `TextUndoCanFail`). On
  line sequences it always restores them.
- Stored text is read again as it was streamed, with two exceptions (`StoredTextReadsBackIff`). Blank
  lines containing a blank before punctuation become one blank, and the blank is lost in the next pass
  (`CollapsingStream`). And a separator directly behind a tool use or an artifact is dropped, because the
  second pass starts afresh there (`ResumedTextChanges`).
- The adjacency repair gives two synthetic results to two unanswered uses with one id, and it drops the
  results of uses with an empty or repeated id (`RepairedIffRepairable`, `PairedIsSentWholeIff`). A use
  with an empty id needs no answer.
- A file patch with /dev/null on both sides parses and yields an operation. Its path is cleaned to
  dev/null: if the workspace holds such a file it is deleted, otherwise the guards reject the operation
  (`UnifiedOperationsPass`, `NullPatchDeletes`).
- Hysteresis does not bound compactions by appended messages alone: preparation makes up results for
  tool uses that were interrupted, and these count too (`CompactionsArePaidFor`, `CompactsTwice`).
- With MaxTokens = 1 the summary and the recent messages get one token each (`BudgetsShare`,
  `OneTokenIsTooFew`).
- An important tool result without an id is retained without its call (`GroupOrphanFree`).
- The log-structured session store normalises tool inputs on append, the in-memory store does not, so
  they agree up to that normalisation (`StoresAgree`) and are equal exactly on normal inputs
  (`StoresEqualIff`, `StoresDiffer`).
- An empty line inside a hunk, other than the last line, makes the parser index an empty string; the
  model has an error value for it (`DiffPanicsIff`, `TrimmedHunkPanics`).
- A budget check that fails for a tool started while the stream is read ends the run with the stop reason
  of an error, not with that of the budget (`FailStream`).
- Two messages that differ can have one signature: a tool message without a result whose text reads like
  the name of a result (`SameSignatureIff`).
- A negative checkpoint count would make the view panic; no store saves one (`RunViewable`).

## Model

| member | source | states |
|---|---|---|
| AgentLoop.RunLoop | agent.go:262-925 | Every run: one `EventResult` or `EventError`, as the last event; an error has its cause (the last budget check exceeded a limit, with the calls it asked for; a refused append; a failed hook; MaxTurns turns; …), which `finish` is told, and a result is the normalised text of the last stream, let pass by the before-final hook and the output contract; `finish` once, except when the skill tools cannot be configured or the cleanup after a failed stream cannot be stored. What lies between the starts of two turns is the message of the first turn's stream, if it says anything, and then one result for each of its uses, in use order, as the executor reported them, or the one repair prompt; a result, and an error about a final answer, comes with that answer as the last message stored. The session keeps what the events told the caller, blocks and tool results in the same order: all of it whenever the run goes on and at a result, a beginning of it otherwise. At the start of every turn each tool use is answered right behind its message, in order, once; every turn but the last calls the model; every request comes from the view of the session at the start of its turn, by the context policy if there is one, or from the request it retries, by the retry policy |
| AgentLoop.RunsStayInBounds | agent.go:363-925 | Turns within MaxTurns, Stream calls within 2·MaxTurns, denials and output repairs within their limits; with a policy, Stream calls within MaxModelCalls, tool runs, and with them the tool results that events show, within MaxToolCalls, and no Stream call after the events have reported more tokens than a limit allows |
| AgentLoop.RequestsAnswerUses | agent.go:397-456 | Without context policies and checkpoint, every request of a run that starts paired answers every tool use that has an id, and it is the whole transcript up to whitespace exactly when the uses of each message have distinct, non-empty ids |
| AgentLoop.RequestAdjacentIff | agent.go:397-456 | Every request of every run answers each use that has an id exactly when no message before preparation leaves one id unanswered twice |
| AgentLoop.Turn | agent.go:364-917 | One turn keeps the invariants and makes at most two requests, about the session at its start; if the run goes on it made one, and it added its message and the results of its uses, or its message and one prompt, so that the transcript grew and is still paired; it stops only with an accepted answer, which is then stored, or an error that has a cause |
| AgentLoop.Conclude | agent.go:694-916 | Once a stream is read to the end: if the budget check passes and the store accepts it, the message of the stream is the first to be stored, and results, a prompt or the result event follow it; otherwise nothing is stored and the run ends with an error |
| AgentLoop.SpokenIsHeard | agent.go:702-716 | That message holds the uses of the stream, its text and the blocks its events told of, and there is one exactly when the stream has a tool use, an artifact or text |
| AgentLoop.LeavesPaired | agent.go:702-916 | What a turn adds when the run goes on keeps a paired transcript paired, if tools keep the ids of their uses |
| AgentLoop.FailStream | agent.go:649-690 | After a failed stream the transcript gained nothing, or the partial message followed by the result of each early-started use, in order: what its tool reported in time, or an error; up to the first result that cannot be stored, when `finish` is skipped |
| AgentLoop.Finalize | agent.go:717-829 | A turn without tool uses goes on exactly when a denial or an invalid output may still be repaired and the prompt is stored, with that one counter raised; it ends with the answer exactly when hook, contract, distiller and stop hooks all let it pass; otherwise with an error |
| AgentLoop.AnswerUses | agent.go:830-916 | The batch is within the budget, runs exactly the uses that were not started early and appends exactly one result for each use, in use order |
| ToolBatch.RunTools | agent.go:895-916 | Early results and executor results are interleaved so that message k is the result of use k; exactly the uses that were not started early are handed to the executor, and each result is shown once |
| ToolBatch.EmitCanceledEarlyToolResults | agent.go:1595-1662 | Exactly the early-started uses get a result, in order of their index: the reported one if it came in time, an error otherwise |
| ToolBatch.SettledAnswers | agent.go:1595-1662 | These results answer the early-started uses, one for one |
| ToolBatch.HandleToolResults | agent.go:840-893 | Results become tool messages in order, all of them unless the store refuses one |
| ToolBatch.LateTotal | agent.go:830-839 | Early and remaining uses add up to all uses, so the batch is charged for each use once |
| ToolBatch.RemainingAreUnsafe | agent.go:629-643 | Since exactly the safe uses start early, the batch asks the budget for exactly the others |
| ModelCall.OpenStream | agent.go:384-627 | One or two Stream calls if a stream opens, at most two otherwise, each charged before it starts and about the view at the start of the turn; the stream read is that of the call or of its one retry; otherwise the run ends with one error, which has a cause, and one `finish` |
| ModelCall.LoadMessages | agent.go:397-456 | The view can always be read; the messages are the view, or exactly what the context policy makes of the prepared view, and they are sent prepared |
| ModelCall.AdoptWindow | agent.go:426-455 | The window is prepared, announced exactly when it differs, and saved as a checkpoint of the whole transcript exactly when the policy compacted and the store accepts it |
| ModelCall.Retry | agent.go:537-610 | The one retry sends exactly what the retry policy makes of the messages that did not fit |
| ModelCall.CallModel | agent.go:498-505 | A Stream call starts only if the budget allows the tracker with that call counted, and all reported tokens are in that snapshot |
| Collect.CollectAssistant | agent.go:2274-2384 | For every stream: content, events and usage are those of the events read; every early result is that of its own use; only safe uses were started, and tool calls charged equal tools started; unless a budget check or receiving fails, all events are read and every safe use was started |
| Collect.StartEarlyTool | agent.go:629-643 | A tool starts early only if it is concurrency-safe and the budget allows one more call |
| Collect.HeardIsTold | agent.go:2274-2384 | The message holds exactly the blocks announced by events; its uses are those of the stream in order; its text is one pass of the normaliser over all chunks, whatever lies between them |
| Collect.HeardText | agent.go:2274-2384 | The stored text is the streamed text up to whitespace, no longer, and trimmed |
| Collect.NothingKeptIff | agent.go:2274-2384 | A stream leaves no blocks exactly when it has no tool use, no artifact and no text |
| Collect.HeardIsPassedOn | agent.go:2274-2384 | Everything else a stream says (starts and deltas of uses, thinking, artifacts, usage) is passed on to the caller, in order, once |
| Runs.CheckBudget | agent.go:1687-1741 | The tracker with prospective calls is judged by the policy |
| Runs.ThriftyWithin | budget/budget.go:78-113 | A run whose every call was allowed with itself counted is within all limits |
| Budget.Check | budget/budget.go:78-113 | The reported limit is the first that is exceeded, and none is reported exactly when no positive limit is exceeded |
| Budget.AllowsIff | budget/budget.go:78-113 | A policy allows exactly what is within each of its positive limits |
| Requests.PrepareMessagesForModel | agent.go:1477-1499 | Preparing is normalising the assistant texts and then repairing adjacency |
| Requests.NormalKeeps | agent.go:1481-1499 | Normalising changes nothing but whitespace in the texts of assistant messages |
| Requests.RequestAdjacentIff | agent.go:1477-1479 | A request answers every use that has an id exactly when no message leaves one id unanswered twice |
| Requests.PairedIsSentWholeIff | agent.go:1477-1479 | A paired transcript is sent whole, up to whitespace, exactly when the uses of each message have distinct, non-empty ids |
| RepairCost.PrepareTwiceIff | agent.go:397-427 | Preparing prepared messages changes nothing exactly when no message leaves one id unanswered twice; then a policy that keeps its messages reports no change |
| Requests.GivenIDsDistinct | agent.go:1477-1479 | Any transcript, however interrupted, gives an acceptable request if no message repeats a non-empty id |
| Executor.EverySchedule | tool/executor.go:40-118 | Every schedule: at most the limit at once, a tool that is not safe runs alone, result i is what use i reported, one for each use at the end |
| Executor.NeverStuck | tool/executor.go:40-118 | Every unfinished schedule has a next step |
| Executor.EveryRunEnds | tool/executor.go:40-118 | No schedule has more than three steps for each use and one for each batch |
| Executor.Partition | tool/executor.go:75-86 | The batches concatenate to the uses; concurrent batches are maximal runs of safe uses, any other use is alone |
| Executor.RunOne | tool/executor.go:120-260 | The tool is called exactly when every gate is open; the result carries the id and name of the use as its tool sees it, and what the tool gave, or what the first closed gate says |
| Executor.Run | tool/executor.go:40-59 | Result k is what the gates and the tool give for use k |
| Executor.ScheduleIsRun | tool/executor.go:40-118 | Every complete schedule sends results as Run promises them |
| TranscriptRepair.RepairedIffRepairable | internal/transcriptrepair/repair.go:10-66 | The repaired transcript answers each non-empty use id exactly once, directly behind its message, exactly when no message leaves one id unanswered twice |
| TranscriptRepair.RepairKeepsAdjacent | internal/transcriptrepair/repair.go:10-66 | An acceptable transcript is not changed |
| TranscriptRepair.RepairKeepsNonTool | internal/transcriptrepair/repair.go:10-66 | All messages but tool results are kept, in order |
| TranscriptRepair.GroupRepaired | internal/transcriptrepair/repair.go:10-66 | Behind each message stand the first recorded result for each of its uses, as recorded and in order, and then one made-up result for each use that has none, in use order |
| TranscriptRepair.KeptAreFirsts | internal/transcriptrepair/repair.go:24-48 | A recorded result is kept exactly when it is the first one for a use of the message |
| TranscriptRepair.DuplicateUnanswered | internal/transcriptrepair/repair.go:49-62 | Two unanswered uses with one id both get a synthetic result |
| TranscriptRepair.RepairToolUseAdjacency | internal/transcriptrepair/repair.go:10-66 | The loop computes the repair that the lemmas are about |
| UnifiedPatch.AppliesIffFactors | workspace/unified.go:228-271 | A patch applies exactly when the lines factor as gaps and old sides with each hunk at its header line, and the output is the same gaps with the new sides |
| UnifiedPatch.AppliedLength | workspace/unified.go:228-271 | The output has the length of the input plus the sum of newCount − oldCount |
| UnifiedPatch.InverseRestores | workspace/unified.go:228-271 | The inverse patch, rebased to the output, takes the patched lines back to the original lines |
| UnifiedPatch.TextUndoneIffStable | workspace/unified.go:228-271 | On whole texts the inverse patch undoes the patch exactly when the patched lines with the inherited final newline can be written and read back |
| UnifiedPatch.TextUndoneIff | workspace/unified.go:228-271 | The same on the text and the hunks alone: with a final newline some line must be left, without one the last line that is left must not be empty |
| UnifiedPatch.TextUndoCanFail | workspace/unified.go:228-271 | Deleting the only line of a text loses its final newline |
| UnifiedPatch.JoinOfSplitContent | workspace/unified.go:293-313 | Splitting and joining a text gives it back |
| UnifiedPatch.SplitOfJoinContent | workspace/unified.go:293-313 | Joining and splitting lines gives them back exactly when they are stable, and what is lost otherwise |
| UnifiedPatch.ApplyHunks | workspace/unified.go:228-271 | The loops of the applier compute the specification, and an error names the first hunk that does not apply and the first line that differs |
| UnifiedPatch.ApplyUnifiedFilePatch | workspace/unified.go:228-271 | The text after the patch; a hunk that does not apply, a deletion that leaves lines and an addition of a file that is there each give their own error |
| UnifiedPatch.PatchTextIff | workspace/unified.go:228-271 | A file patch gives a text exactly when the lines factor as its hunks tell, a deletion leaves no line and an addition finds no file; the text is made of the gaps and the new sides and ends as the text before does |
| UnifiedParse.ParseOfPrint | workspace/unified.go:76-226 | Parsing the canonical printing of any printable list of file patches gives the list back, also when removed lines look like headers |
| UnifiedParse.FilesSound | workspace/unified.go:76-226 | Whatever the text, parsed files have hunks, headers that count their lines, and lines without newlines |
| EmptyLines.BodyPanicsIff | workspace/unified.go:143-180 | Reading a hunk takes the first byte of an empty line exactly when an empty line that is not the last is reached within the counts |
| EmptyLines.HunkParsesIff | workspace/unified.go:122-185 | A hunk parses, and ends behind line k, exactly when its first k lines are what the header counts |
| EmptyLines.DiffPanicsIff | workspace/unified.go:76-185 | The same of whole diffs: one of the hunks that are read must reach such a line, where a hunk is read behind hunks that end as their headers count |
| EmptyLines.TrimmedHunkPanics | workspace/unified.go:161-161 | A diff whose empty context line lost its leading blank |
| UnifiedParse.ParseUnifiedDiff | workspace/unified.go:76-120 | The outer loop computes the parse of the specification |
| UnifiedParse.ParseUnifiedHunk | workspace/unified.go:122-185 | The hunk loop computes the parse of one hunk and where it ends |
| UnifiedParse.ValidateHunkCounts | workspace/unified.go:208-226 | Accepts exactly the hunks whose headers count their lines |
| UnifiedParse.RangeReadsBack | workspace/unified.go:187-206 | A printed range parses to itself |
| UnifiedParse.BriefHeaderReadsBack | workspace/unified.go:187-206 | A header reads back with or without counts of one: "@@ -1 +1 @@" is one old and one new line |
| UnifiedParse.NoiseBeforeFile | workspace/unified.go:80-85 | Lines in front of a file header are read over |
| UnifiedParse.NoiseBeforeHunk | workspace/unified.go:94-106 | Lines between the hunks of a file are read over |
| UnifiedParse.StampIgnored | workspace/unified.go:273-284 | A time stamp behind a path is not part of it |
| UnifiedParse.PathReadsBack | workspace/unified.go:273-284 | A printed path parses to itself |
| Workspace.ApplyPatchToFiles | workspace/workspace.go:273-315 | All operations or none. On success every operation found, in the files its predecessors left, the content its guard tells of, and its change tells that content and the new one; on failure the error is what the first operation to be refused meets (path, missing file, other content), and no file changes; nor does one on a dry run |
| Workspace.PatchSucceedsIff | workspace/workspace.go:273-315 | A patch succeeds with a change log exactly when each operation is honoured by its change on the files that the changes before it leave, repeated paths included |
| Workspace.PatchFailsAt | workspace/workspace.go:279-301 | When the first operations are honoured and the next one meets another content, a missing file or a bad path, that is the error |
| Workspace.PatchOutcome | workspace/workspace.go:273-315 | There is no third way: every patch succeeds so or fails so |
| Workspace.StaleGuard | workspace/workspace.go:286-288 | A guard that tells of another content than the file holds gives a mismatch |
| Workspace.LastOperationWins | workspace/workspace.go:290-313 | After a patch every path holds what the last operation on it asked for, and other paths are as before |
| Workspace.PatchIsReplayed | workspace/workspace.go:273-315 | Replaying the change log gives the patched files |
| Workspace.PatchIsUndone | workspace/workspace.go:273-315 | Undoing the change log in reverse restores the files, repeated paths included |
| Workspace.IndependentOps | workspace/workspace.go:273-315 | On distinct paths a patch succeeds exactly when each operation is admissible on its own |
| Workspace.SummaryMeasuresFiles | workspace/summary.go:18-38 | ByteDelta is total bytes after minus before; Added − Deleted is the change in file count |
| Workspace.SummarizeChanges | workspace/summary.go:18-38 | The counters are those of the change list |
| Workspace.DiffFiles | workspace/workspace.go:411-438 | One sorted entry for each differing path |
| Workspace.DiffReplays | workspace/workspace.go:411-438 | Replaying the diff on its base gives the other side |
| Workspace.DiffUnique | workspace/workspace.go:411-438 | The diff does not depend on map order |
| WorkspaceStores.RunKeepsSnapshots | workspace/workspace.go:319-409 | Over every run checkpoints keep their ids, order and contents |
| WorkspaceStores.RestoreAfterAnyRun | workspace/workspace.go:339-381 | A checkpoint id is fresh, and restoring it after any run gives the files it was taken from |
| WorkspaceStores.NextNameFresh | workspace/workspace.go:401-409 | The next checkpoint id is not in use |
| WorkspaceStores.WrittenStays | workspace/workspace.go:165-207 | A file inside the workspace holds what was written last, and is gone once deleted, until a command names it again |
| WorkspaceStores.UnifiedOperationsPass | workspace/unified.go:28-67 | Operations made from file patches over distinct clean paths pass their guards exactly when no patch has /dev/null on both sides, unless the workspace holds dev/null |
| WorkspaceStores.UnifiedDiffLands | workspace/unified.go:28-67 | Once they are applied, every file holds the text its own patch gives, and other files are as before |
| WorkspaceStores.NullPatchDeletes | workspace/unified.go:28-67 | A patch with /dev/null on both sides parses and gives an operation, which deletes dev/null from the workspace or fails |
| WorkspaceStores.MemoryStore.ApplyPatch | workspace/workspace.go:258-271 | The store after a patch, and an untouched store after a failure; snapshots are never shared with the files |
| WorkspaceStores.MemoryStore.Checkpoint | workspace/workspace.go:339-359 | A copy under a fresh id |
| WorkspaceStores.MemoryStore.RestoreCheckpoint | workspace/workspace.go:361-381 | The snapshot with the trimmed id becomes the files, and stays as it is |
| WorkspaceStores.MemoryStore.Diff | workspace/workspace.go:319-337 | The diff from the snapshot to the files |
| WorkspaceStores.OSStore.ApplyPatch | workspace/osstore.go:341-359 | Dry run, replay and rewrite reach the file map and change list of the in-place route |
| WorkspaceStores.OSStore.CurrentAfter | workspace/osstore.go:361-371 | The change list replayed on a copy |
| WorkspaceStores.OSStore.RestoreFiles | workspace/osstore.go:373-394 | Deleting and rewriting leaves exactly the given files |
| WorkspaceStores.UnifiedDiffOperations | workspace/unified.go:28-67 | From diff text to operations; an error is the parse error, or about the first file patch that gives no operation |
| ContextWindow.CompactionMeetsBudget | contextwindow/policy.go:221-338 | With MaxTokens ≥ 2 and no message but earlier summaries above the recent budget: within MaxTokens, one summary, at the head, Original = Summarized + Sent − 1 |
| ContextWindow.CompactionConserves | contextwindow/policy.go:221-277 | Each message goes exactly once to the summariser or unchanged to the output |
| ContextWindow.CompactionOrphanFree | contextwindow/policy.go:221-277 | With user-role summaries no result loses its call |
| ContextWindow.BudgetsShare | contextwindow/policy.go:241-301 | The two budgets add up to MaxTokens exactly when MaxTokens ≥ 2 |
| ContextWindow.SummaryShare | contextwindow/policy.go:286-301 | The summary gets MaxSummaryTokens while a token is left for the rest, a quarter if that is not set, and at least one token |
| ContextWindow.OneTokenIsTooFew | contextwindow/policy.go:286-301 | With MaxTokens = 1 a compaction can take two tokens |
| ContextWindow.ApplyWithResult | contextwindow/policy.go:221-277 | No compaction up to the trigger; above it the split of the specification, success exactly when the summariser answers and its summary fits, and a head that holds the longest prefix that fits of the policy's prefix and the trimmed summary |
| ContextWindow.NewestSuffixStart | contextwindow/policy.go:373-391 | The longest newest suffix within the budget, or the newest message alone, without leading results |
| ContextWindow.NewestSuffixUnique | contextwindow/policy.go:373-391 | There is only one such suffix |
| ContextWindow.DropLeadingToolResults | contextwindow/policy.go:405-410 | The first index from the start on that is not a result |
| ContextWindow.RecentMessages | contextwindow/policy.go:68-77 | The last MaxMessages messages without leading results; no orphan results; an error exactly for a limit that is not positive |
| ContextWindow.TokenBudget | contextwindow/policy.go:86-100 | The newest suffix the budget buys, without leading results; within the budget and without orphan results |
| ContextWindow.SplitSummaryMessages | contextwindow/policy.go:422-433 | Summaries and the rest, in order |
| ContextWindow.TruncateTextMessage | contextwindow/policy.go:571-604 | A fitting prefix, the longest one for monotone estimators, which exists exactly when some prefix that is not blank fits |
| ContextWindow.SummaryMessage | contextwindow/policy.go:303-338 | A marked message with the longest prefix of the summary text that fits, exactly when the summary is not empty and some prefix fits |
| Retention.PreserveImportantMessages | contextwindow/policy.go:157-180 | The newest important groups, at most MaxMessages messages or a single group, are all in the output; those not there already are put before the selection; no orphan results |
| Retention.GroupOrphanFree | contextwindow/policy.go:435-519 | A kept group has no orphan exactly when the result it is kept for carries an id |
| Retention.MissingIdLosesCall | contextwindow/policy.go:503-519 | A result without an id is kept without its call |
| Retention.ImportantGroups | contextwindow/policy.go:435-478 | The longest run of newest groups within the limit, at least one |
| Retention.MatchingToolUseMessage | contextwindow/policy.go:503-519 | The nearest call with the id that no user message hides |
| Retention.MessageGroupContained | contextwindow/policy.go:549-569 | Whether the group occurs as a block, up to signatures |
| Retention.SameSignatureIff | contextwindow/policy.go:530-548 | Two messages count as one exactly when they have one id, or without ids are results of one use, calls of the same uses, or one role saying the same text; and a tool message without a result counts as a result that reads like it |
| CompactionRuns.CompactionsArePaidFor | agent.go:397-456 | Over every run of view, prepare, compact, prepare, save and append with MaxTokens ≥ 2, c compactions take at least (c − 1)·(trigger − MaxTokens + 1) tokens of messages appended after the first and of results made up for interrupted tool uses |
| CompactionRuns.OrderlyCompactionsArePaidFor | agent.go:397-456 | If views are read when every tool use is answered, as at the start of every turn, and no tool result is marked as a summary, nothing is made up and appended messages pay for all of it |
| InterruptedRun.CompactsTwice | agent.go:397-456 | A run with one unanswered tool use compacts again after fewer tokens were appended |
| RepairCost.ContinuedTokens | internal/transcriptrepair/repair.go:10-66 | Behind prepared messages, repairing adds at most the results made up for the new messages |
| CompactionRuns.LateMessagesSurvive | session/compaction.go:101-120 | Messages appended between reading the view and saving the checkpoint appear once, in order, behind the prepared outcome in the next view |
| Sessions.StoresAgree | session/jsonl.go:106-204 | After any commands both stores know the same sessions, with equal messages, checkpoints and forks up to the normalisation of tool inputs, and no view fails |
| Sessions.StepAgrees | session/store.go:110-263 | Both stores accept the same commands |
| Sessions.RunViewable | session/compaction.go:75-120 | The checkpoint count never exceeds the raw length |
| Sessions.StoresEqualIff | session/jsonl.go:106-146 | After any commands the records are equal exactly when every stored message is normal, and the views exactly when the messages behind the checkpoint are |
| Sessions.StoresDiffer | session/jsonl.go:137-146 | One appended tool use whose input is not normal makes records and views differ |
| Sessions.ForkMessages | session/store.go:336-351 | A prefix of the messages that ends with the first one that has the id, or all messages for an empty id; none exactly when no message has the id |
| Sessions.ForkHolds | session/store.go:230-263 | A fork taken after any commands holds that prefix, has the parent asked for or else the source, and no checkpoint, and commands on other sessions leave it so; without such a message nothing happens |
| Sessions.LoggedForkHolds | session/jsonl.go:307-330 | The same of the log-structured store, about the messages it reads |
| Sessions.ViewGoesOn | session/compaction.go:75-120 | After a checkpoint is saved the view is its messages, the later ones and whatever is appended, in order, each with its own id or the fresh one; the transcript loses nothing |
| Sessions.MemoryStore.ForkSession | session/store.go:230-263 | The fork of the specification, or an error and no change |
| Sessions.MemoryStore.SaveCompaction | session/store.go:160-184 | A checkpoint is saved exactly when its count is within the messages |
| Sessions.JSONLStore.ReadTranscript | session/jsonl.go:332-386 | The fold over the log entries |
| Sessions.JSONLStore.ForkSession | session/jsonl.go:307-330 | The log of the fork holds its messages one by one |
| Sessions.JSONLStore.SaveCompaction | session/jsonl.go:166-204 | One log entry, exactly when the count is within the messages |
| StreamText.StreamTouchesOnlyWhitespace | agent.go:2386-2471 | For every chunk sequence the characters that are not spaces are kept in order, the text does not grow and is trimmed |
| StreamText.ReplayStableIff | agent.go:2395-2667 | A stream of text chunks alone replays unchanged exactly when no chunk puts blank lines with a blank among them before punctuation |
| StreamText.CollapsingStream | agent.go:2410-2454 | An input that does not: a blank the first time, nothing the second |
| StreamText.PrefixReplayed | agent.go:2410-2454 | What the second pass makes of a separator, the collapsing case included |
| StreamText.PushEffect | agent.go:2395-2463 | What one push keeps, for every state |
| StreamText.Normalizer.Push | agent.go:2395-2463 | Output and new state of the specification, whose separators `Separators.SeamText` tells |
| Separators.SeamText | agent.go:2395-2667 | Wherever whitespace parts two chunks of text, in whatever stream, what is left of it is told by the two texts and the whitespace: nothing exactly in front of punctuation and between pieces of one word or path, a line break exactly for one newline or in front of a lone list marker, a blank line exactly around blocks of Markdown and for two newlines that part neither pieces nor one sentence, a blank otherwise |
| Separators.NewlineStays | agent.go:2426-2431 | One newline stays one newline, except in front of punctuation |
| Separators.SpacesStay | agent.go:2420-2425 | Spaces without a newline stay as they are, except in front of punctuation |
| Separators.ParagraphStays | agent.go:2432-2454 | Two newlines between a sentence end and a capitalised word of more than three letters stay a blank line |
| Separators.ManyNewlinesToBlank | agent.go:2432-2454 | Three or more newlines between two words of more than three letters become one blank |
| Separators.BlocksStayApart | agent.go:2432-2437 | A blank line stays in front of a heading, quote, table, fence or list item, and behind one |
| Separators.NextParagraph | agent.go:2410-2454 | "Done." and "\n\nNext paragraph", and every two texts like these, come out as they are |
| Separators.JoinIs | agent.go:2606-2625 | When three or more newlines stand between pieces of one word or path |
| Separators.BlankIs | agent.go:2627-2667 | When two newlines stand between pieces of one word or path, and when inside one sentence |
| AssistantContent.NormalizeIdempotent | agent.go:1501-1522 | Normalising twice is normalising once |
| AssistantContent.NormalizeKeeps | agent.go:1501-1522 | All other blocks are kept in order, and the text up to whitespace |
| StoredText.StoredTextReadsBackIff | agent.go:1501-1522 | The text of a stored message, tool uses and artifacts included, is what was streamed exactly when no chunk collapses and none puts a separator directly behind a block that is not text |
| StoredText.ResumedTextChanges | agent.go:1505-1508 | Text that goes on after a tool use is streamed as "a b" and read as "ab" at the next turn |
| AssistantContent.NormalizeAssistantTextContent | agent.go:1501-1522 | The loop computes the fold that the lemmas are about |
| JsonRpc.EveryRunIsSafe | mcpbridge/client.go:247-441 | For every interleaving: at most one message on each channel, for its own id (which one, `JsonRpcAnswers.DecidedIsSent` tells); closed and unlocked means nothing pending; every waiting call is pending on a connection that can still fail it, or its message is held by the read loop or already there |
| JsonRpcAnswers.DecidedIsSent | mcpbridge/client.go:382-441 | A response that is read while its call is pending, and a failure sent by a holder of the lock, is the only message ever sent on the call's channel and all that the call can receive |
| JsonRpcAnswers.SentIsDecided | mcpbridge/client.go:382-441 | Every message sent to a call is a response that was read for it or such a failure |
| JsonRpcAnswers.ReplyIsReturned | mcpbridge/client.go:382-394 | A call whose response was read returns that response, with that body |
| JsonRpcAnswers.EveryReturnIsExplained | mcpbridge/client.go:247-290 | Every return has its step: a failed write, a cancellation, a closed connection, or the receipt of a message that one step decided |
| JsonRpcAnswers.FailureHasCause | mcpbridge/client.go:334-441 | What a failure says has happened before: a message that was too long, the end of the input, or Close |
| JsonRpcAnswers.PendingCallsFail | mcpbridge/client.go:307-441 | All calls that are pending when one of these happens get that failure, and nothing else, by the time the lock is released |
| JsonRpcAnswers.NothingReadAfterEnd | mcpbridge/client.go:334-398 | Once the input ends nothing more is read |
| JsonRpcAnswers.ClosesForGood | mcpbridge/client.go:307-316 | Close, and the end of the read loop, close the connection for good |
| JsonRpcAnswers.StopsClosed | mcpbridge/client.go:334-441 | The read loop stops only on a closed connection |
| JsonRpc.SendsNeverBlock | mcpbridge/client.go:388-441 | No send blocks the read loop or a holder of the lock |
| JsonRpc.UnlockFrom | mcpbridge/client.go:422-480 | Whoever fails the pending calls releases the lock after one send for each, and changes no call |
| JsonRpc.ClosedWakesEveryCall | mcpbridge/client.go:307-316 | From every closed state, at most one send for each pending call, one for a held message and the release of the lock, and every waiting call can return |
| JsonRpc.StepKeepsInv | mcpbridge/client.go:247-441 | Every step of every goroutine keeps the invariant |

## Left out

- Cancellation: the run loop and the executor are modelled for contexts that are never cancelled; after
  cancellation results are dropped.
- AgentLoop.RunLoop: pairing assumes that tool input normalisers keep the id of the use; the budget
  governor is a `budget.Policy` or absent; message ids given by the store, event payloads made from
  result metadata, telemetry and prompt texts other than the repair prompts are not modelled.
- ToolBatch.EmitCanceledEarlyToolResults: whether a tool reported within the ten milliseconds is an input.
- Executor.RunOne: what is put in front of gate errors, hook errors added to results, result size limits and
  storage of large results are not modelled.
- Separators.SeamText: chunks whose text ends, on the left, or starts, on the right, with a NUL character
  are not covered; `StreamText.Normalizer.Push` covers them. The word lists of the source are taken over.
- Executor.Run: the method runs the tools one after the other; other orders are the subject of `ScheduleIsRun`.
- JsonRpc.EveryRunIsSafe: the connection is a state machine of atomic steps rather than a class, because
  its property is about interleavings; bytes, JSON and the process around it are not modelled.
- WorkspaceStores.UnifiedOperationsPass: path cleaning is a parameter, of which only its effect on
  /dev/null is used; paths that a second cleaning would change, such as one with two leading slashes, are
  excluded.
- UnifiedParse.ParseOfPrint: path cleaning is a parameter and the printed paths are those it keeps;
  paths with white space or, on the old side, a leading `b/` do not print back; integers are 64 bits wide.
- Sessions.StoresAgree: session and message ids are drawn fresh by the caller, normalisation is
  idempotent, and the index of the log-structured store is not modelled.
- WorkspaceStores.OSStore.ApplyPatch: the disk is a map and its writes succeed; file modes and symbolic
  links are not modelled.
- CompactionRuns.CompactionsArePaidFor: compactions by the retry policy are not counted; with summaries in
  the assistant role the estimator must not find normalised messages larger.
- Retention.PreserveImportantMessages: freedom from orphans is stated for results that carry ids, which
  `GroupOrphanFree` shows to be needed.
- ContextWindow.TruncateTextMessage: texts are sequences of characters, without encodings.
- Transcript: of the metadata, only the marks that the context policies read.
- Path cleaning, symbolic links and the git-backed store.
- File I/O, JSON, UUIDs, locks and clocks.
- JSON Schema validation, permissions, tenants, hooks, memories, skills and planning, beyond their answers.
- Messaging, notes, scheduling, memory and result stores, and selectors: no order, expiry or scoring rule
  of theirs is stated.
- Providers, model registry, skill loading over HTTP, examples.
