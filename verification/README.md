# Verified model of the decision logic

CodePilot is a coding assistant: an editor extension over an agent runtime. Most of it is
input and output around a few pieces of decision logic, and this project states and proves
what those pieces decide.

| file | models |
|---|---|
| `TaskGraph.dfy`, `FileLocks.dfy`, `TeamRun.dfy` | dependency graphs and the static file-conflict check; the lock registry; team runs, with handler passes that are suspended at every awaited write |
| `Protocol.dfy`, `Conversation.dfy`, `Compaction.dfy` | the tool-call protocol and its validator; cutting a conversation; compaction artifacts over whole runs |
| `CaptureFlush.dfy` | persistence of run captures: coalesced flushes, debounce, one queue per task |
| `TurnChain.dfy` | the bounded chain of recent tasks |
| `Checkpoints.dfy`, `CheckpointDiffs.dfy` | comparison of two checkpoints and its budgeted diffs |
| `TerminalSessions.dfy`, `SessionManager.dfy`, `TerminalRuns.dfy` | agent terminal sessions: decision tokens, the serialized command queue, the session table, interactive shells; runs that end unexpectedly |
| `Cancellation.dfy`, `Retry.dfy`, `RetryListeners.dfy` | the cancellation signal, an operation under a timeout, retries with backoff and what they leave on the token |
| `Benchmarks.dfy` | threshold rounding and order statistics, over the reals |
| `Schedules.dfy` | validation of schedules and the store behind create, update and toggle |

Objects that the program updates in place are classes (`FileLockRegistry`, `ActiveRun`,
`TaskRecord`, `CapturePersistence`, `Chain`, `TerminalSessionManager`, `CancellationSource`,
`TimeoutManager`, `ScheduleService`), its loops are loops, and every method is proved against
a function of the state before it. What the program promises is then proved about that function: an invariant
of every step, and from it a statement about every run from the initial state. Asynchronous
code is cut where it awaits, and the parts between are the steps, in any interleaving.

`dafny verify dfyconfig.toml` checks everything.

## Where the code does not do what it says

These are results of the model: the exact condition under which the code does, and an input
on which it does not.

- A run can hold locks after it was cancelled: a handler pass that awaits a message write does
  not look at the settled flag again (`ResumeAfterSettlement`, `LockOutlivesRun`).
- The boundary check reads one message per entry, but the wire form splits assistant entries
  and drops results of user entries; results that stand alone in an assistant entry slip
  through (`ComposedValidIff`, `BoundaryMissesLooseResults`). The only writer of assistant
  blocks in the host never produces such an entry (`CapturedCutsAnywhere`), so that input can
  only come from a record written elsewhere.
- A summary is said to stand for all earlier conversation. An entry can be in neither summary
  nor tail: the boundary is an index, and the store trims its list from the front, before a
  first compaction or after the last one; the transcript for the summarizer ends where it is
  full; and the text that stands in for a failed summary tells of nothing. A summary that folds
  in the one before it can cover what was trimmed since. The exact condition is
  `NothingLostIff`; see also `NoGapIffNotTrimmedSince`, `TrimmedBeforeIsLost`,
  `TrimmedSinceIsLost`, `FoldedSummaryCovers`, `CutTranscriptLoses`, `FallbackLosesFirst`.
- A comment says that a pending debounce never strands an older run; cancelling the debounce
  at the end of a run drops the pending captures of all runs (`StrandedIff`,
  `HazardsLoseUpdates`).
- The comparison of checkpoints is not flagged as truncated when added or removed paths beyond
  the fifth are left out (`UnflaggedShowsAllIff`, `SixthAddedIsMissing`); a binary or giant
  file that was added or removed is labelled otherwise (`AddedIsMislabelled`,
  `BinaryAddedSaysModified`); files that agree in length and first 64 characters count as
  identical when there are no hashes (`ContentPrintsEqualIff`, `ChangedTailIsRename`).
- A comment says that a token for one command can never authorize another; a token for a
  command of more than 4096 characters decides its prefix of that length
  (`TokenIsForThisTextIff`, `LongTokenStartsItsPrefix`).
- The limits of eight concurrent sessions and four agent sessions count ended ones, which are
  not forgotten in time or at all (`SaturatedForever`, `RefusedThoughIdle`, `FourSessionsEver`,
  `NoneOpenNoneOpens`).
- Closing an agent session, and stopping its command, reach processes of other sessions,
  although ownership is said to be respected (`CloseSparesOthersIff`, `CloseReachesOther`,
  `StopSparesOthersIff`, `StopReachesOther`); so does cancelling the sessions of a task, although
  those of other tasks are said to be untouched (`CancelTaskSparesOthersIff`,
  `CancelTaskReachesOther`).
- Every delay between retries leaves its listener on the token (`OneListenerPerDelay`).
- The maximal delay between retries can be exceeded by the jitter (`DelayWithinMaximumIff`,
  `DelayMayExceedMaximum`).
- Rounding of thresholds is not monotone at zero (`MonotoneIff`, `ZeroRoundsHigher`).
- A name cut at its maximal length can change at an edit that does not mention it
  (`CutNameIsStableIff`, `CutNameLosesSpace`).

## Model

| member | source | states |
|---|---|---|
| `TaskGraph.Reaches` | apps/vscode-extension/src/team-service.ts:1245-1260 | the worklist search terminates on every finite graph, cyclic or with missing tasks, and answers true exactly when a dependency path leads from one task to the other |
| `TaskGraph.MayRunInParallel` | apps/vscode-extension/src/team-service.ts:1263-1265 | true exactly when neither task transitively depends on the other |
| `TaskGraph.FindParallelConflict` | apps/vscode-extension/src/team-service.ts:1267-1284 | finds nothing if and only if no two unordered tasks claim a common file; otherwise the answer is the first such pair in enumeration order, with the first shared file |
| `TaskGraph.ConflictFreeIff` | apps/vscode-extension/src/team-service.ts:1267-1284 | in terms of the declared lists: whoever declares a common file depends on the other, one way or the other |
| `TaskGraph.DependsIff` | apps/vscode-extension/src/team-service.ts:1245-1260 | a task depends on another when they are the same, or one that it lists depends on that |
| `TaskGraph.TaskLevel` | apps/vscode-extension/src/team-service.ts:1287-1295 | on an acyclic graph terminates with the length of the longest dependency chain |
| `TaskGraph.DependsRaisesLevel` | apps/vscode-extension/src/team-service.ts:1287-1295 | a task sits strictly above everything it depends on |
| `TaskGraph.SameLevelUnordered` | apps/vscode-extension/src/team-service.ts:1263-1265 | two distinct tasks on one level may always run in parallel |
| `FileLocks.FileLockRegistry.Acquire` | packages/agent-runtime/src/m14-file-locks.ts:65-84 | all files are locked or none; a refusal names a file another task holds and that holder |
| `FileLocks.FileLockRegistry.Release` | packages/agent-runtime/src/m14-file-locks.ts:120-125 | drops the locks of one task and no other |
| `FileLocks.FileLockRegistry.FindHolder` | apps/vscode-extension/src/team-service.ts:1040-1046 | the holder of the first of the files that anyone holds |
| `TeamRun.ActiveRun.RunPass` | apps/vscode-extension/src/team-service.ts:996-1026 | a pass over the tasks takes and drops locks as specified by Pass, and leaves the rest of the list where it awaits a write |
| `TeamRun.ActiveRun.OnOrchestratorEvent` | apps/vscode-extension/src/team-service.ts:988-1027 | a settled run ignores events; a live one runs a pass over all tasks |
| `TeamRun.ActiveRun.ReleaseAllRunLocks` | apps/vscode-extension/src/team-service.ts:1048-1057 | removes exactly the locks of recorded holders and empties the record |
| `TeamRun.NextKeeps` | apps/vscode-extension/src/team-service.ts:988-1027 | every step of a run, including resumed passes, cancellation and settlement, keeps the invariant |
| `TeamRun.RunsNeverClash` | apps/vscode-extension/src/team-service.ts:988-1027 | if the static check passed, then in every state of every run the executing tasks share no declared file and no lock conflict was ever recorded, and while the run is live a file is locked by a task exactly when that task executes and declares it |
| `TeamRun.DependenciesFirst` | apps/vscode-extension/src/team-service.ts:988-1027 | in every state of every run everything an executing or completed task depends on, directly or not, is completed |
| `TeamRun.StepsReport` | apps/vscode-extension/src/team-service.ts:988-1027 | a step of the orchestrator gives its task the status it reports, a failure blocks the given tasks, and no other status changes |
| `TeamRun.PassesGoOn` | apps/vscode-extension/src/team-service.ts:1011-1026 | a resumed pass does what is left of its loop, and is suspended again exactly when that awaits another write; no status changes |
| `TeamRun.SettlingFreesAll` | apps/vscode-extension/src/team-service.ts:1048-1057 | finishing or cancelling a live run leaves no lock and no holder, while the suspended passes stay |
| `TeamRun.CancellingEndsTasks` | apps/vscode-extension/src/team-service.ts:682-697 | after a cancellation a task has the status it had ended with, or is cancelled, or executes a retry that no cancellation reaches |
| `TeamRun.ResumeAfterSettlement` | apps/vscode-extension/src/team-service.ts:1011-1026 | on a settled run a pass that awaited a write takes locks again exactly when an executing task with declared files is still ahead in its list |
| `TeamRun.LockOutlivesRun` | apps/vscode-extension/src/team-service.ts:682-697 | a reachable run that is cancelled, has nothing executing, and still holds locks |
| `Protocol.ValidateConversationProtocol` | packages/agent-runtime/src/compaction-protocol.ts:45-157 | reports nothing exactly for conversations that satisfy the declarative protocol (well-shaped messages, distinct call ids, every result answers the assistant message right before it), and lists exactly which rule each message breaks |
| `Protocol.ScanBlocks` | packages/agent-runtime/src/compaction-protocol.ts:92-120 | the block loop collects the calls and results of a message and reports repeated ids and misplaced images |
| `Protocol.CheckResults` | packages/agent-runtime/src/compaction-protocol.ts:122-150 | reports exactly the results that have no id, or answer no call of the previous assistant message, or stand in an assistant message |
| `Protocol.NoIssueIffValid` | packages/agent-runtime/src/compaction-protocol.ts:45-157 | an exact report is empty if and only if the conversation is valid |
| `Protocol.ValidIff` | packages/agent-runtime/src/compaction-protocol.ts:45-157 | the protocol in terms of the blocks themselves: no empty message, no call made twice, images and results in user messages, every result right after the assistant message with its call |
| `Protocol.EmptyIff` | packages/agent-runtime/src/compaction-protocol.ts:70-73 | a plain message is reported as empty exactly when it holds nothing but spaces, tabs and line breaks |
| `Conversation.SafeCompactionBoundary` | packages/agent-runtime/src/compaction-protocol.ts:168-185 | returns the boundary |
| `Conversation.Boundary` | packages/agent-runtime/src/compaction-protocol.ts:168-185 | the greatest index in 1..proposed that does not start with orphaned results, or -1 when there is none |
| `Conversation.OrphansAreIsolated` | packages/agent-runtime/src/compaction-protocol.ts:168-185 | in a valid conversation two neighbouring entries never both start orphaned, so one step back is enough |
| `Conversation.CutValidIff` | packages/agent-runtime/src/compaction-protocol.ts:45-157 | a non-blank summary before a tail of a valid conversation is valid exactly when the tail does not start with results |
| `Conversation.BoundaryIsProposalIff` | packages/agent-runtime/src/compaction-protocol.ts:168-185 | the proposal itself is the boundary exactly when no user entry with results is there, so always in conversations the host writes |
| `Conversation.BoundaryKeepsProtocol` | packages/agent-runtime/src/compaction-protocol.ts:168-185 | with one wire message per entry, a boundary is a cut that keeps the conversation valid, at most one entry before the proposal; it refuses only a proposal of 1 that starts orphaned |
| `Conversation.ComposedValidIff` | packages/agent-runtime/src/resume.ts:87-201 | with the real wire form, where an assistant entry splits into calls and results, the composed conversation is valid exactly when the first entry heard after the cut does not hold loose results |
| `Conversation.UserEntryKeeps` | packages/agent-runtime/src/resume.ts:90-145 | an entry of the user becomes one message of the same role that says the same, next to images too, with as many images and nothing else |
| `Conversation.AssistantEntryKeeps` | packages/agent-runtime/src/resume.ts:147-200 | a structured entry of the assistant becomes what it said and called, then its results in a user message: the same texts, calls and results, in order |
| `Conversation.BoundaryMissesLooseResults` | packages/agent-runtime/src/compaction-protocol.ts:168-185 | a conversation with a valid wire form on which the boundary check accepts a cut that breaks the protocol |
| `Conversation.ComposedPairs` | packages/agent-runtime/src/conversation-capture.ts:148-182 | in the blocks composed from a run every result answers a call of the same entry and no call repeats |
| `Conversation.ComposedSays` | packages/agent-runtime/src/conversation-capture.ts:148-182 | and the entry says what the run said |
| `Conversation.CapturedCutsAnywhere` | packages/agent-runtime/src/conversation-capture.ts:148-182 | conversations whose entries the host captured itself can be cut anywhere |
| `Compaction.TaskRecord.AppendMessage` | packages/agent-runtime/src/m12-task-store.ts:404-412 | appends and keeps the last 200 entries |
| `Compaction.TaskRecord.AddCompactionArtifact` | packages/agent-runtime/src/m12-task-store.ts:439-453 | a known id changes nothing; otherwise appends and keeps the last 20 artifacts |
| `Compaction.ComposeCompactedMessages` | packages/agent-runtime/src/compaction-engine.ts:419-441 | summary and tail when that is a valid conversation, otherwise nothing |
| `Compaction.CompactIfNeeded` | packages/agent-runtime/src/compaction-engine.ts:231-394 | skips, reuses or creates an artifact exactly as specified by Compacted, and leaves the conversation alone; SkippedIff, SummaryIsAnswer and FallbackSays say what that is |
| `Compaction.SkippedIff` | packages/agent-runtime/src/compaction-engine.ts:231-295 | nothing happens exactly without pressure, without an index to cut at, or with nothing to summarize; a cut whose moment is stored reuses that artifact |
| `Compaction.SummaryIsAnswer` | packages/agent-runtime/src/compaction-engine.ts:300-317 | the text of a semantic artifact is what the summarizer answers to everything before the boundary and the text of the latest stored artifact, if that one is semantic; without an answer there is no semantic artifact |
| `Compaction.FallbackSays` | packages/agent-runtime/src/compaction-engine.ts:359-361 | the fallback names the first 300 characters of the title and the number of entries |
| `Compaction.SecondIsGivenFirst` | packages/agent-runtime/src/compaction-engine.ts:302-313 | a run in which a summarizer that repeats what it is given repeats the text of the first summary |
| `Compaction.CompactionBounds` | packages/agent-runtime/src/compaction-engine.ts:256-269 | a compaction that ran cut at 1 <= toIndex <= total-4, and summarized and remaining add up to the total; exactly the intended 40 percent remains if and only if the entry at the proposed cut is no user entry with results, and one entry more at most when such entries follow their calls |
| `Compaction.TwoFifthsRemain` | packages/agent-runtime/src/compaction-engine.ts:256-262 | without such entries two fifths remain, rounded down, and at least four |
| `Compaction.CompactionIdempotent` | packages/agent-runtime/src/compaction-engine.ts:271-286 | compacting again at once adds nothing and returns the same artifact and messages, even with another summarizer |
| `Compaction.ArtifactIdsDistinct` | packages/agent-runtime/src/compaction-engine.ts:271-286 | over every run of appends, replacements and compactions artifact ids stay pairwise distinct and the store within its bounds |
| `Compaction.TwentyLatestStay` | packages/agent-runtime/src/m12-task-store.ts:439-453 | a new artifact is put after the latest nineteen others |
| `Compaction.FoldsStoredText` | packages/agent-runtime/src/compaction-engine.ts:302-307 | over every run the earlier summary a stored summary was made with is the text of the artifact it folds in, and there is none for the first |
| `Compaction.LatestRecomposes` | packages/agent-runtime/src/compaction-engine.ts:402-441 | after every run the latest artifact recomposes as its summary and the wire form of exactly the entries from its boundary on; the empty fallback is taken exactly when those start with loose results |
| `Compaction.RenderTranscript` | packages/agent-runtime/src/compaction-summarizer.ts:109-140 | the transcript takes the oldest messages first, up to the first that does not fit |
| `Compaction.RenderedIff` | packages/agent-runtime/src/compaction-summarizer.ts:135 | a prefix of the messages is in the transcript exactly when its size is within the limit |
| `Compaction.HeardIff` | packages/agent-runtime/src/compaction-summarizer.ts:114-138 | so the summarizer hears of a prefix of entries exactly when all their messages fit |
| `Compaction.NothingLostIff` | packages/agent-runtime/src/compaction-engine.ts:300-313 | over every run: every entry ever appended was told to the summarizer of an artifact, directly or by a summary folded in, or is in the tail, if and only if the artifact is semantic, each folded segment starts no later than the telling before it ended, the oldest starts at the first entry, and the tail starts no later than the telling ended |
| `Compaction.GapShows` | packages/agent-runtime/src/compaction-engine.ts:302-307 | where that chain of summaries has a gap, an entry before the segment of the artifact was never told |
| `Compaction.NeverTrimmedIff` | packages/agent-runtime/src/compaction-engine.ts:288-291 | while the store dropped nothing, nothing is lost exactly for a semantic artifact whose telling reaches to its boundary |
| `Compaction.NoGapIffNotTrimmedSince` | packages/agent-runtime/src/compaction-engine.ts:419-431 | nothing falls between summary and tail exactly when the store dropped nothing since the conversation was read for the artifact |
| `Compaction.TrimmedBeforeIsLost` | packages/agent-runtime/src/compaction-engine.ts:288-291 | after 201 messages and a first compaction the first message was never told and is not in the tail |
| `Compaction.TrimmedSinceIsLost` | packages/agent-runtime/src/compaction-engine.ts:425-427 | one more message after a compaction of 200, and an entry falls between summary and tail |
| `Compaction.FoldedSummaryCovers` | packages/agent-runtime/src/compaction-engine.ts:302-313 | compacting once more after that message loses nothing, although the store dropped an entry: the folded summary tells of it |
| `Compaction.CutTranscriptLoses` | packages/agent-runtime/src/compaction-summarizer.ts:256-257 | 200 messages of 1000 characters, of which the store dropped none: only 48 fit the transcript, and the next one is lost |
| `Compaction.FallbackLosesFirst` | packages/agent-runtime/src/compaction-engine.ts:359-361 | without a summary the first message is lost |
| `Compaction.CompactIsBeginLand` | packages/agent-runtime/src/compaction-engine.ts:231-394 | a compaction interrupted by nothing is its two parts, before and after the awaited summary, in a row, and does what the engine does in one go |
| `CaptureFlush.CapturePersistence.EnqueueCaptureFlush` | apps/vscode-extension/src/extension.ts:3191-3211 | starts a flush unless one is outstanding for the capture, in which case only the dirty mark is left |
| `CaptureFlush.CapturePersistence.Schedule` | packages/agent-runtime/src/conversation-capture.ts:217-241 | marks the capture dirty and has the timer armed |
| `CaptureFlush.CapturePersistence.FireTimer` | packages/agent-runtime/src/conversation-capture.ts:221-238 | hands every due capture that is still dirty to the coalescing queue |
| `CaptureFlush.CapturePersistence.On` | apps/vscode-extension/src/extension.ts:3693-3842 | each host, timer, queue and settlement event is a step of the model |
| `CaptureFlush.ToolsAreRecordedInActive` | apps/vscode-extension/src/extension.ts:3703-3716 | tool events and calls at the gate are recorded in the active capture and no other; a new one is used only without one; a tool event requests a flush, the gate does not |
| `CaptureFlush.TextIsRecordedInActive` | apps/vscode-extension/src/extension.ts:3694-3702 | streamed text is recorded in the active capture and waits for the timer; without one it is dropped |
| `CaptureFlush.EventsAreRecorded` | apps/vscode-extension/src/extension.ts:3693-3730 | over every run each capture holds exactly the text, gate and tool events that came while it was active |
| `CaptureFlush.FreshCaptureHoldsAll` | apps/vscode-extension/src/extension.ts:3693-3730 | so a capture that was fresh when it became active holds all of them until the next one starts |
| `CaptureFlush.FirstInFirstOut` | packages/agent-runtime/src/task-persistence-queue.ts:46-95 | the operations of each task begin one at a time, in the order in which they were queued, and no event drops or reorders them |
| `CaptureFlush.TimerFlushesInOrder` | packages/agent-runtime/src/conversation-capture.ts:221-238 | the timer requests one flush for each due capture that is dirty and has none coming, in order |
| `CaptureFlush.NextKeeps` | apps/vscode-extension/src/extension.ts:3191-3211 | every event keeps the invariant: one outstanding flush per capture in flight, and nothing on disk newer than in memory |
| `CaptureFlush.OneFlushOutstanding` | apps/vscode-extension/src/extension.ts:3179-3190 | at most one coalesced flush of a capture is unsettled at any time |
| `CaptureFlush.StoredNeverGoesBack` | apps/vscode-extension/src/extension.ts:3168-3178 | the persisted version of a capture never goes backwards |
| `CaptureFlush.StrandedIff` | apps/vscode-extension/src/extension.ts:3191-3211 | a capture has unwritten mutations that nothing will write exactly when it met one of two hazards, or already was in that state and the event did not rescue it |
| `CaptureFlush.NothingStrands` | apps/vscode-extension/src/extension.ts:3179-3190 | a capture that meets no hazard always has a write coming for everything it holds |
| `CaptureFlush.DrainPersists` | packages/agent-runtime/src/task-persistence-queue.ts:53-95 | letting timer, queue and settlements run dry terminates, and then the persisted version equals the one in memory exactly when the capture was not stranded |
| `CaptureFlush.NoUpdateLost` | apps/vscode-extension/src/extension.ts:3179-3190 | so no update of a capture without hazards is lost in any interleaving |
| `CaptureFlush.HazardsLoseUpdates` | apps/vscode-extension/src/extension.ts:2202-2207 | both hazards are reachable: a call recorded at the permission gate, which requests no flush, and the end of another run, which drops the debounce of every capture |
| `TurnChain.Chain.Track` | apps/vscode-extension/src/extension.ts:3252-3260 | moves or appends the task and drops from the front; chain and drop counter stay functions of the history |
| `TurnChain.Chain.Reset` | apps/vscode-extension/src/extension.ts:3263-3266 | empties chain and counter |
| `TurnChain.ChainRefinesHistory` | apps/vscode-extension/src/extension.ts:3246-3260 | the chain is the last ten of the distinct tasks ordered by last occurrence, without duplicates |
| `TurnChain.RecencyUnique` | apps/vscode-extension/src/extension.ts:3246-3250 | that order determines one list |
| `TurnChain.InChainIff` | apps/vscode-extension/src/extension.ts:3246-3260 | a task is in the chain exactly when fewer than ten others were tracked after it |
| `TurnChain.MissesAre` | apps/vscode-extension/src/extension.ts:3252-3260 | what is counted are the tracks of tasks never tracked, or not since ten others were |
| `TurnChain.MissesCount` | apps/vscode-extension/src/extension.ts:3252-3260 | the tracks that did not find their task are at least the distinct tasks, and as many while those fit the chain |
| `TurnChain.DroppedIffForgotten` | apps/vscode-extension/src/extension.ts:3249-3250 | the counter reports dropped turns exactly when some tracked task is no longer in the chain |
| `Checkpoints.BuildIndex` | apps/vscode-extension/src/task-history-service.ts:590-591 | the map and key order of a checkpoint, a later entry of a path winning |
| `Checkpoints.IndexIsLast` | apps/vscode-extension/src/task-history-service.ts:590-591 | the map holds for each listed path the last entry listed under it |
| `Checkpoints.OrderGrows` | apps/vscode-extension/src/task-history-service.ts:590-591 | paths stand in the order of their first listing |
| `Checkpoints.Classify` | apps/vscode-extension/src/task-history-service.ts:596-607 | removed paths in order, modified paths, and the number of unchanged ones |
| `Checkpoints.IndexByPrint` | apps/vscode-extension/src/task-history-service.ts:613-622 | the last removed path of each fingerprint |
| `Checkpoints.MatchRenames` | apps/vscode-extension/src/task-history-service.ts:623-638 | pairs the first added path of a fingerprint with the last removed one; what is left of either side is unmatched |
| `Checkpoints.CompareCheckpoints` | apps/vscode-extension/src/task-history-service.ts:590-641 | computes the comparison; modified are exactly the common paths whose files differ: in their hashes if both have one, in their contents if none has, and otherwise in the hash of one and the content of the other |
| `Checkpoints.RenamesMean` | apps/vscode-extension/src/task-history-service.ts:623-638 | one rename for each fingerprint found on both sides, except one whose removed path is the empty text |
| `Checkpoints.RenamedAre` | apps/vscode-extension/src/task-history-service.ts:611-638 | both ends of a rename have one fingerprint: one hash, not empty, or contents of one length with the same first 64 characters; no path removed later has it, nor one added before |
| `Checkpoints.PrintsEqualIff` | apps/vscode-extension/src/task-history-service.ts:614-631 | when two files have one fingerprint, in terms of their hashes and contents |
| `Checkpoints.EveryPathOnce` | apps/vscode-extension/src/task-history-service.ts:590-641 | every path of either checkpoint is in exactly one class, renames match removed with added paths one to one with equal fingerprints, and the class sizes add up to the checkpoints |
| `Checkpoints.RenamesAreCommon` | apps/vscode-extension/src/task-history-service.ts:611-638 | there are as many renames as fingerprints common to both sides, less one when a common one is blocked by the empty path |
| `Checkpoints.SwapSymmetricIff` | apps/vscode-extension/src/task-history-service.ts:590-641 | swapping keeps modified and unchanged; the other counts swap exactly when no fingerprint is blocked either way, in particular whenever no path is empty |
| `Checkpoints.EmptyPathBlocks` | apps/vscode-extension/src/task-history-service.ts:632-633 | an empty path is found as a rename one way only |
| `Checkpoints.SwapInvertsPairs` | apps/vscode-extension/src/task-history-service.ts:611-638 | with unique fingerprints and no empty path the pairs of the swapped comparison are the inverted pairs |
| `Checkpoints.ContentPrintsEqualIff` | apps/vscode-extension/src/task-history-service.ts:616-620 | without hashes fingerprints agree exactly when length and first 64 characters agree, so only up to 64 characters does a rename imply equal content |
| `Checkpoints.ChangedTailIsRename` | apps/vscode-extension/src/task-history-service.ts:611-638 | two different contents of that kind are reported as a rename |
| `Checkpoints.ShortcutAgreesIff` | apps/vscode-extension/src/task-history-service.ts:574-589 | the answer for two equal identifiers agrees with the comparison exactly when no path is listed twice |
| `Checkpoints.ListedTwiceDisagrees` | apps/vscode-extension/src/task-history-service.ts:574-589 | a file listed twice counts twice for the shortcut and once for the comparison |
| `CheckpointDiffs.DiffOne` | apps/vscode-extension/src/task-history-service.ts:653-724 | binary and giant contents are listed without a diff; the others with an excerpt of at most 5000 characters |
| `CheckpointDiffs.EntryShows` | apps/vscode-extension/src/task-history-service.ts:657-724 | a file is shown as binary exactly for a NUL in one of the two contents, is not diffed above 200000 characters in both, and otherwise shows what the engine says of them: operation, additions, deletions and the first 5000 characters |
| `CheckpointDiffs.UnaskedShows` | apps/vscode-extension/src/task-history-service.ts:663-698 | the operation shown where the engine is not asked |
| `CheckpointDiffs.CandidateAt` | apps/vscode-extension/src/task-history-service.ts:647-653 | the candidates are the modified paths, the new names, and the first five added and removed paths, in this order |
| `CheckpointDiffs.Diffs` | apps/vscode-extension/src/task-history-service.ts:643-726 | lists the longest affordable prefix of the candidate paths, and flags truncation exactly when a candidate was cut off or a giant one listed |
| `CheckpointDiffs.FitsOnce` | apps/vscode-extension/src/task-history-service.ts:653-711 | no other number of files fits the budget |
| `CheckpointDiffs.ShownIsBounded` | apps/vscode-extension/src/task-history-service.ts:653-711 | at most 20 files, 5000 characters each, 30000 in all, for every diff engine |
| `CheckpointDiffs.CandidatesAre` | apps/vscode-extension/src/task-history-service.ts:647-652 | no path is diffed twice, and the candidates are all changed paths exactly when at most five were added and at most five removed |
| `CheckpointDiffs.AllShownIff` | apps/vscode-extension/src/task-history-service.ts:647-653 | every changed path has its diff exactly when nothing was cut off and those two limits hold |
| `CheckpointDiffs.UnflaggedShowsAllIff` | apps/vscode-extension/src/task-history-service.ts:726 | a comparison not flagged as truncated shows every changed path exactly when at most five were added and five removed |
| `CheckpointDiffs.SixthAddedIsMissing` | apps/vscode-extension/src/task-history-service.ts:647-653 | six added empty files: five are shown, nothing is flagged |
| `CheckpointDiffs.RenamedIsDiffedAcross` | apps/vscode-extension/src/task-history-service.ts:654-656 | a renamed path is diffed between the two ends of its pair |
| `CheckpointDiffs.OthersAreDiffedInPlace` | apps/vscode-extension/src/task-history-service.ts:654-657 | any other path is diffed between its own two snapshots |
| `CheckpointDiffs.AddedIsMislabelled` | apps/vscode-extension/src/task-history-service.ts:663-698 | an added path is labelled as added exactly when the engine is asked about it and says so, and a removed one likewise; the label given without asking is always another |
| `CheckpointDiffs.BinaryAddedSaysModified` | apps/vscode-extension/src/task-history-service.ts:663-679 | a binary file that was added is shown as modified |
| `SessionManager.TerminalSessionManager.StageDecisionToken` | apps/vscode-extension/src/terminal-session-manager.ts:620-630 | drops every expired token and files this one under its command |
| `SessionManager.TerminalSessionManager.ConsumeDecisionToken` | apps/vscode-extension/src/terminal-session-manager.ts:638-645 | takes the filed token out of the store, and returns it exactly when it is at most 60 seconds old |
| `SessionManager.TerminalSessionManager.PruneFinished` | apps/vscode-extension/src/terminal-session-manager.ts:536-551 | drops the oldest finished sessions beyond twenty, and no other |
| `SessionManager.TerminalSessionManager.StartAgentSession` | apps/vscode-extension/src/terminal-session-manager.ts:652-705 | opens a session, with its shell when asked for one, unless four exist or the task is blank; a session whose shell does not start is dropped again |
| `SessionManager.TerminalSessionManager.ExecInSession` | apps/vscode-extension/src/terminal-session-manager.ts:882-907 | refuses with the code of the first failing check, in order, or appends the exec to its session |
| `SessionManager.TerminalSessionManager.BeginExec` | apps/vscode-extension/src/terminal-session-manager.ts:912-925 | a usable token decides at once, otherwise an evaluation is awaited |
| `SessionManager.TerminalSessionManager.Resume` | apps/vscode-extension/src/terminal-session-manager.ts:927-959 | the evaluation decides; an approved exec is started |
| `SessionManager.TerminalSessionManager.RunApproved` | apps/vscode-extension/src/terminal-session-manager.ts:994-1031 | a started process is tracked under its index; a failed spawn leaves the index unused |
| `SessionManager.TerminalSessionManager.FinishExec` | apps/vscode-extension/src/terminal-session-manager.ts:1039-1142 | the next index, the bounded history and the pruning after a process ended |
| `SessionManager.TerminalSessionManager.StopAgentSessionCommand` | apps/vscode-extension/src/terminal-session-manager.ts:1181-1207 | interrupts a shell that takes input; otherwise cancels the first live process of the table when the session runs a command |
| `SessionManager.TerminalSessionManager.CloseAgentSession` | apps/vscode-extension/src/terminal-session-manager.ts:1209-1232 | closes the session, drops its shell, and cancels every live process when it runs one |
| `SessionManager.TerminalSessionManager.CancelAgentSessionsForTask` | apps/vscode-extension/src/terminal-session-manager.ts:1238-1257 | does so for every session of the task and answers how many there are |
| `TerminalSessions.NextKeeps` | apps/vscode-extension/src/terminal-session-manager.ts:888-1156 | every event keeps the invariant |
| `TerminalSessions.EveryStartWasApproved` | apps/vscode-extension/src/terminal-session-manager.ts:912-959 | in every run the entry before a start is the approval of that very exec, by a fresh evaluation or by an approving token that was staged, at most 60 seconds old; the token was staged for exactly that text if and only if its own text is at most 4096 characters long |
| `TerminalSessions.TokenDecidesIff` | apps/vscode-extension/src/terminal-session-manager.ts:915-959 | the exec at the head of a queue is decided at once exactly when a token of at most 60 seconds is filed for it, by what that token says, and waits for an evaluation otherwise; the token is gone either way |
| `TerminalSessions.EvaluationDecides` | apps/vscode-extension/src/terminal-session-manager.ts:930-959 | an awaited evaluation decides the exec it was started for |
| `TerminalSessions.RefusalMeans` | apps/vscode-extension/src/terminal-session-manager.ts:870-908 | which refusal an exec gets, in the order of the checks |
| `TerminalSessions.RunsUntilExit` | apps/vscode-extension/src/terminal-session-manager.ts:1035-1045 | a command that runs goes on until its process has ended, whatever else happens |
| `TerminalSessions.FinishRecords` | apps/vscode-extension/src/terminal-session-manager.ts:1087-1143 | its end enters it in the history and the trail under its own index |
| `TerminalSessions.TokenIsForThisTextIff` | apps/vscode-extension/src/terminal-session-manager.ts:632-636 | tokens are filed by the first 4096 characters: for an exec the two texts agree exactly when the token is not longer |
| `TerminalRuns.LongTokenStartsItsPrefix` | apps/vscode-extension/src/terminal-session-manager.ts:632-636 | a run in which a token staged for 4097 characters starts the command that is its first 4096 |
| `TerminalSessions.TokensAreSingleUse` | apps/vscode-extension/src/terminal-session-manager.ts:620-645 | in every run the token decisions of a command plus the token still waiting are at most its stagings |
| `TerminalSessions.OneAtATimeInOrder` | apps/vscode-extension/src/terminal-session-manager.ts:910-1156 | in every run and session at most one command runs, under the next index; the history is the last indices without a gap; and the execs decided so far followed by those waiting are the accepted ones, each once, in order |
| `TerminalSessions.ClosedTakesNothing` | apps/vscode-extension/src/terminal-session-manager.ts:885-888 | a closed session stays closed and accepts nothing more in any continuation |
| `TerminalSessions.QueuedRunsAfterClose` | apps/vscode-extension/src/terminal-session-manager.ts:1146-1152 | what was queued before the close can still run |
| `TerminalSessions.CloseSparesOthersIff` | apps/vscode-extension/src/terminal-session-manager.ts:1212-1221 | closing a session cancels no process but its own exactly when it runs nothing or every other tracked process is over or already cancelled |
| `TerminalSessions.CancelTaskSparesOthersIff` | apps/vscode-extension/src/terminal-session-manager.ts:1234-1257 | cancelling a task ends its sessions and leaves those of other tasks as they are, but changes no process of others exactly when none of its sessions runs a command or every other tracked process is over or already cancelled |
| `TerminalSessions.StopCancelsFirstLive` | apps/vscode-extension/src/terminal-session-manager.ts:1198-1204 | a stop marks the first live process of the table and no other |
| `TerminalSessions.StopSparesOthersIff` | apps/vscode-extension/src/terminal-session-manager.ts:1181-1207 | stopping the command of a session changes no process but its own exactly when its shell takes the interrupt, or it runs nothing, or the first live process of the table is its own or already cancelled |
| `TerminalSessions.StopInterruptsOpenShell` | apps/vscode-extension/src/terminal-session-manager.ts:1181-1190 | a stop interrupts an open shell once and changes nothing else; a shell that has ended takes no interrupt |
| `TerminalRuns.StopReachesOther` | apps/vscode-extension/src/terminal-session-manager.ts:1195-1204 | a run in which stopping the command of one session cancels the process of another, and not its own |
| `TerminalRuns.CloseReachesOther` | apps/vscode-extension/src/terminal-session-manager.ts:1214-1221 | a run in which closing one session cancels the process of another that stays open |
| `TerminalRuns.CancelTaskReachesOther` | apps/vscode-extension/src/terminal-session-manager.ts:1243-1249 | a run in which cancelling one task cancels the process of another task, whose session stays open |
| `TerminalSessions.EvictedKeeps` | apps/vscode-extension/src/terminal-session-manager.ts:547-550 | eviction keeps the table sound and never leaves fewer sessions than were there or twenty |
| `TerminalSessions.PruneSparesLive` | apps/vscode-extension/src/terminal-session-manager.ts:536-551 | pruning never drops a session whose process is not over, keeps at most twenty that are, and drops those noted first |
| `TerminalSessions.LiveStaysTracked` | apps/vscode-extension/src/terminal-session-manager.ts:536-551 | over every run a process that is not over stays tracked |
| `TerminalSessions.SaturatedForever` | apps/vscode-extension/src/terminal-session-manager.ts:902-908 | once a run has eight tracked sessions no exec is accepted again, however many processes have ended |
| `TerminalRuns.RefusedThoughIdle` | apps/vscode-extension/src/terminal-session-manager.ts:902-908 | a run after which nothing executes and every exec is refused |
| `TerminalSessions.FourSessionsEver` | apps/vscode-extension/src/terminal-session-manager.ts:669-674 | sessions are never forgotten: after four, no continuation opens another |
| `TerminalRuns.NoneOpenNoneOpens` | apps/vscode-extension/src/terminal-session-manager.ts:669-674 | a run after which no session is open and nothing runs, and none can be opened |
| `Cancellation.CancellationSource.OnCancelled` | packages/agent-runtime/src/cancellation.ts:100-113 | registers once, or calls the listener at once when already cancelled |
| `Cancellation.CancellationSource.CancelAll` | packages/agent-runtime/src/cancellation.ts:131-143 | only the first cancellation counts; it calls the listeners in order, skipping those unsubscribed meanwhile, and forgets them |
| `Cancellation.CalledOnceWithFirstReason` | packages/agent-runtime/src/cancellation.ts:88-151 | over every run: each call carries the first reason; a listener registered at that time is called for it once, unless one called before unsubscribed it, others never; and once for each later registration |
| `Cancellation.DeliveredMeans` | packages/agent-runtime/src/cancellation.ts:131-143 | a delivery calls nobody twice, nobody unregistered, and leaves out only whom a called listener unsubscribed |
| `Cancellation.DeliveredInOrder` | packages/agent-runtime/src/cancellation.ts:131-143 | listeners are called in the order in which they were registered |
| `Cancellation.TimeoutManager.Elapse` | packages/agent-runtime/src/cancellation.ts:175-179 | the deadline fires once and cancels the source with its reason |
| `Cancellation.GuardedOperation.constructor` | packages/agent-runtime/src/cancellation.ts:212-225 | arms the timer only for a positive timeout, and passes on a parent that is cancelled already |
| `Cancellation.GuardedOperation.ParentCancelled` | packages/agent-runtime/src/cancellation.ts:215-219 | a linked parent cancels the operation with its own reason, once |
| `Cancellation.GuardedOperation.DeadlineReached` | packages/agent-runtime/src/cancellation.ts:175-179 | a pending timer cancels the operation |
| `Cancellation.GuardedOperation.Settled` | packages/agent-runtime/src/cancellation.ts:229-233 | timer, subscription and listeners are dropped |
| `Cancellation.FirstOfTimeoutAndParentWins` | packages/agent-runtime/src/cancellation.ts:204-235 | an operation under a timeout and a parent signal is cancelled by whichever comes first before it settles, and by nothing after |
| `Cancellation.GuardedIsCancelledIff` | packages/agent-runtime/src/cancellation.ts:204-235 | with a timeout only if positive and a parent only if given: the reason is that of the first deadline or cancellation of the parent before the operation settles, and of a parent cancelled at the start before all |
| `Retry.WithRetry` | packages/agent-runtime/src/cancellation.ts:270-315 | whatever the operation and the token do: the first turn that does not go on ends the call with its result; one call per turn reached, and the observer hears attempts 1, 2, 3, … with their delays; a delay ends early exactly when the listener it registered is called; the token is left as specified by AtEnd |
| `Retry.LastExists` | packages/agent-runtime/src/cancellation.ts:279 | there is exactly one such turn, no later than the retry limit |
| `Retry.ReturnsIff` | packages/agent-runtime/src/cancellation.ts:282-283 | a value is returned exactly when an operation that was called succeeded with it |
| `Retry.ThrowsIff` | packages/agent-runtime/src/cancellation.ts:284-293 | an error is thrown exactly when it is the first that may not be retried, or that of the last allowed call |
| `Retry.CancelsIff` | packages/agent-runtime/src/cancellation.ts:280-309 | the call ends as cancelled exactly when the token is cancelled at the head of a turn that is reached or a delay that is reached is interrupted |
| `RetryListeners.DelayEndsIffCancelled` | packages/agent-runtime/src/cancellation.ts:302-309 | a delay is interrupted exactly when the token is cancelled during the operation before it or during the delay, if nobody disposes the source |
| `Retry.DelayInBand` | packages/agent-runtime/src/cancellation.ts:295-298 | every delay is within a tenth of its base, up to rounding, and not negative |
| `Retry.DelayFollowsDraw` | packages/agent-runtime/src/cancellation.ts:295-298 | the delay after attempt n is the initial one doubled n times, up to the maximum, times nine to eleven tenths, evenly by the draw, within half a millisecond |
| `Retry.DefaultDelays` | packages/agent-runtime/src/cancellation.ts:295-298 | with the defaults: 500, 1000, 2000, 4000, 8000, 10000 milliseconds, and 1800 or 2100 for other draws |
| `Retry.TotalDelayBound` | packages/agent-runtime/src/cancellation.ts:295-298 | for every jitter, n delays take at most 1.1 min(initial (2^n - 1), n maxDelay) + n/2 milliseconds |
| `Retry.TotalNearNominal` | packages/agent-runtime/src/cancellation.ts:295-298 | for every jitter, n delays take nine to eleven tenths of the sum of those, within n/2 milliseconds, so not less either |
| `Retry.WaitIsBounded` | packages/agent-runtime/src/cancellation.ts:295-309 | so do the delays a call announces |
| `RetryListeners.OneListenerPerDelay` | packages/agent-runtime/src/cancellation.ts:303-309 | unless the token was cancelled or disposed, a call leaves it with exactly one listener per announced delay beside those that would be there without the call; a cancelled token has none |
| `Retry.DelayWithinMaximumIff` | packages/agent-runtime/src/cancellation.ts:257-258 | no jitter takes a delay over the documented maximum exactly when that is not negative and 1.1 times the base is at most its whole part and a half: the jitter is added after the cap |
| `Retry.DelayMayExceedMaximum` | packages/agent-runtime/src/cancellation.ts:257-258 | a draw that does exceed it |
| `Benchmarks.RoundUpIsLeast` | scripts/benchmark/run.ts:48-54 | for a positive number, the least of 1, 2, 5 times a power of ten that is not below it, and less than 2.5 times it |
| `Benchmarks.RoundUpIdempotent` | scripts/benchmark/run.ts:48-54 | rounding twice is rounding once |
| `Benchmarks.MonotoneIff` | scripts/benchmark/run.ts:48-54 | rounding keeps order, except between a number not above zero and a positive one of at most 0.005 |
| `Benchmarks.ZeroRoundsHigher` | scripts/benchmark/run.ts:48-54 | zero rounds to more than a thousandth does |
| `Benchmarks.RoundUpScales` | scripts/benchmark/run.ts:48-54 | rounding commutes with multiplying by ten |
| `Benchmarks.FailIsTenTimesWarn` | scripts/benchmark/run.ts:143-146 | every generated entry fails at exactly ten times its warning |
| `Benchmarks.ThresholdsAreLeast` | scripts/benchmark/run.ts:143-146 | the warning is the least member of the series not below ten bases and half a millisecond, the baseline that of the median |
| `Benchmarks.StatsOfMultiset` | scripts/benchmark/harness.ts:33-60 | the statistics do not depend on the order of the samples |
| `Benchmarks.StatsOfSamples` | scripts/benchmark/harness.ts:33-52 | count, extremes, mean and variance are those of the samples as measured |
| `Benchmarks.MedianOfSamples` | scripts/benchmark/harness.ts:41-45 | the median is the middle sample, or halfway between the two in the middle, by rank among the samples as measured |
| `Benchmarks.PercentilesOfSamples` | scripts/benchmark/harness.ts:48-57 | p95 exists from 20 samples on, p99 from 100, and each is the least sample with at least that fraction of the samples at or below it |
| `Benchmarks.StatsAreOrdered` | scripts/benchmark/harness.ts:38-57 | minimum, median, p95, p99 and maximum are in this order, and the mean lies between the extremes |
| `Benchmarks.VarianceBound` | scripts/benchmark/harness.ts:49-58 | the variance is between zero and (max - mean)(mean - min) |
| `Schedules.ValidateScheduleInput` | apps/vscode-extension/src/schedule-service.ts:134-290 | accepts exactly the acceptable inputs and returns their normal form |
| `Schedules.AcceptableIff` | apps/vscode-extension/src/schedule-service.ts:134-290 | what is accepted, in terms of the fields: texts that are not blank, a known policy, a flag, at most five retries, and one moment in the future, or one of 1 to 43200 minutes and a time of day |
| `Schedules.StoredIs` | apps/vscode-extension/src/schedule-service.ts:134-290 | what is stored of it: texts trimmed and cut at 100 and 4000 characters, the given numbers, the padded time of day, the policy and the flag, or their defaults |
| `Schedules.DailyIff` | apps/vscode-extension/src/schedule-service.ts:211-225 | a time of day is 0 to 23 hours and 00 to 59 minutes, with or without a leading zero, and stored with one |
| `Schedules.ValidateTiming` | apps/vscode-extension/src/schedule-service.ts:158-241 | for either kind, no error exactly when the trigger of that kind is given, valid, and the only one |
| `Schedules.ScheduleService.CreateSchedule` | apps/vscode-extension/src/schedule-service.ts:389-416 | succeeds exactly for acceptable input under a valid unused id, and stores its normal form |
| `Schedules.ScheduleService.UpdateSchedule` | apps/vscode-extension/src/schedule-service.ts:420-451 | succeeds exactly when the edit merged over the stored definition is acceptable |
| `Schedules.EditTakesGiven` | apps/vscode-extension/src/schedule-service.ts:431-448 | an accepted edit stores the texts, flag, policy and retries it gives, and keeps the others |
| `Schedules.EditTakesTrigger` | apps/vscode-extension/src/schedule-service.ts:431-448 | and the moment, interval, time of day and zone it gives; what is not given stays |
| `Schedules.ScheduleService.SetScheduleEnabled` | apps/vscode-extension/src/schedule-service.ts:455-473 | changes the flag and nothing else |
| `Schedules.ScheduleService.RemoveSchedule` | apps/vscode-extension/src/schedule-service.ts:476-497 | removes a known schedule without an active run |
| `Schedules.StepTouchesOne` | apps/vscode-extension/src/schedule-service.ts:389-497 | an operation changes at most the schedule it names, and neither its creation time nor its last run |
| `Schedules.CreatedIsNew` | apps/vscode-extension/src/schedule-service.ts:389-416 | a created schedule starts now, has never run, and is the normal form of its input |
| `Schedules.IdsAreSafe` | apps/vscode-extension/src/schedule-service.ts:112-114 | every identifier in the store is up to 64 letters, digits, dashes and underscores, a letter or digit first, or was generated |
| `Schedules.NormalIsSound` | apps/vscode-extension/src/schedule-service.ts:134-290 | what validation returns has exactly one trigger, within its bounds |
| `Schedules.EditKeepsTrigger` | apps/vscode-extension/src/schedule-service.ts:431-448 | an accepted edit keeps the kind and the sort of trigger |
| `Schedules.ReachedSchedulesAreSound` | apps/vscode-extension/src/schedule-service.ts:389-473 | every schedule reached from the empty store has exactly one trigger: a moment, 1 to 43200 minutes, or a valid time of day |
| `Schedules.TriggerNeverChanges` | apps/vscode-extension/src/schedule-service.ts:420-473 | from creation to removal no sequence of operations changes the sort of trigger or the creation time |
| `Schedules.PastOnceNeedsNewMoment` | apps/vscode-extension/src/schedule-service.ts:433-448 | a one-time schedule whose moment has passed accepts an edit only together with a new moment in the future |
| `Schedules.EmptyEditIsIdentityIff` | apps/vscode-extension/src/schedule-service.ts:433-448 | an edit that gives nothing changes nothing, exactly when the stored texts read back as they are |
| `Schedules.CutNameIsStableIff` | apps/vscode-extension/src/schedule-service.ts:139-144 | a name cut at its maximal length is stable exactly when it does not end in a space |
| `Schedules.CutNameLosesSpace` | apps/vscode-extension/src/schedule-service.ts:139-144 | a name that is stored with a space at its end and loses it at the next edit |

## Left out

- Files are compared as they are declared: normalizing file names happens before the check, in the validation of teams, and is not part of this model.
- Which tasks a failure blocks: the orchestrator computes them; here any set of tasks that have not started may be blocked, and the results hold for each.
- Starting a team twice at the same time, and the order of terminal events when a cancellation arrives between settling and persisting.
- Failed writes: a write of a capture, a message or a checkpoint is taken to succeed; cancelling a task's persistence queue and clearing a conversation while flushes are queued are not events of the model. A capture is taken to be written under one task.
- The text of summaries: the summarizer is any partial function of segment and earlier summary to text. An entry counts as told when all its messages are in a transcript; the shortening of long tool inputs and outputs in it, what a model makes of it, and the twelve items shown per section of a summary are not modelled, nor are sanitizing of tool inputs and the token estimate that decides whether there is pressure. The size of a message in a transcript is any function of it.
- Compaction.CompactIfNeeded: the method is one compaction that nothing interrupts; what may happen while its summary is awaited is part of the runs, in the events `Begin` and `Land`. The identifier of an artifact is represented by the boundary timestamp, so the hash of task and timestamp is taken to be injective. A summarizer that privacy forbids ends a compaction without an artifact: one that begins and never lands.
- `foldSummaries`, which nothing calls; resumed image bytes, names of external tools and the views, which would add easy members only.
- The answers of `compareCheckpoints` for malformed and unknown identifiers, and the sorting of the lists it shows: the budgeted loop is proved for every order of them.
- CheckpointDiffs.Diffs: the diff engine is any function of the two contents; its own result is not modelled.
- The input written to interactive shells, and disposing of the whole manager. The identifier of a new session is the number of sessions so far instead of a random text.
- `maxHistoryBytes` of zero, for which tails are not bounded.
- Prelude.IsSpace: blanks are space, tab, carriage return and line feed; other Unicode white space is not modelled.
- Listeners that register further listeners while they are called: such a listener is called at once, as by a later registration.
- Retry.WithRetry: waiting is a number of milliseconds, not a timer; what happens to the token before and during a delay is given for each turn. A call without a token is one with a token that nothing cancels, and its listeners are numbered from a number nobody else has.
- Floating point: rounding to the 1-2-5 series and the statistics are over the reals, and the standard deviation is represented by its square.
- Run scheduling itself: due times, missed runs and time zones; parsing of dates, numbers and zones is a parameter of the validation.
- Schedules loaded from a file are not validated by the program, so the results start from an empty store.
