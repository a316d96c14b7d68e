# Verification of the durability, memory and text-pass cores

A model, in Dafny, of the parts of the agent that must not lose, repeat or
reorder anything: crash recovery of turns, history consolidation, turn-slot
locking, the hook and circuit-breaker policies, and the two Markdown pre-passes
of the chat UI. `dafny verify dfyconfig.toml` checks everything.

## What is modelled

**Crash recovery.** Every session has an append-only journal of turn starts,
tool-call intents and outcomes, step checkpoints, turn ends and restore marks
(`Journal`). A new process folds it: `Recovery` gives one state per tool call
and the turns that are unfinished or still to be merged; `Checkpoint` rebuilds
a turn's messages; `Pruning` drops what recovery cannot need; `Restore` merges
interrupted turns into the transcript; `ResumePlan` decides what to resume.
The imperative scans are methods proved equal to recursive functions, and the
lemmas are about those functions. `JournalFacts` says what they give without
them, by places in the journal: which record decides and in which order things
come.

`CrashProtocol` puts the pieces into one state machine: append, execute a tool,
save, crash, recover, replay, restore, resume and prune, in every order the
process allows, with a crash possible between any two steps. Each message
carries what it is: the one its turn was started with, the `n`-th the turn
produced, or a made-up result. Proved over all its runs:

- `CrashExecutions`: how often a tool call executes.
- `CrashCommits`: a turn adds to the saved transcript at most once; it is lost if
  and only if a crash falls between its mark in the journal and the save. There
  are two such windows: a turn ends and is saved later; a restore pass marks its
  turns and saves afterwards.
- `CrashTranscript`, `CrashMessages`: which messages those additions hold. A turn
  takes over the transcript if it starts on one that is not empty without
  appending a user message: it is resumed, or its user message is joined with one
  the transcript ends with. The saved transcript holds each message at most once
  if and only if no turn that took over was itself restored; then, without a
  crash in a window, every message said before a checkpoint or before its turn's
  end is saved exactly once.
- `CrashWitnesses`: a run for each of the crash and resume failures below.
- `CrashChains`: a turn that keeps killing the process is retried at most
  `maxAttempts` times, with a decreasing measure along the chain.

**Consolidation.** `LegalSuffix` is the retention of a recent suffix in which
every tool result has its call. `Consolidation` is the conversation as archive
file plus live messages: saving moves the consolidated prefix to the archive
and resets the stored cursor to zero, so the boundary that only grows is the
cursor plus the archive's length, not the cursor alone. `Autocompact` schedules
idle compactions. `History` is the log that Dream reads in batches; nothing
locks it, so `DreamRuns` takes appends and Dream runs at the same time: an append
in its three file accesses, a Dream run in its read and, after it has waited for
its model, its commit. `DreamBatches` says which entries are taken, taken twice or
never taken, and `DreamWitnesses` has the runs that show it.

**Locks and policies.** `TurnSlots` is the locking of dispatched, system and
resumed turns with the registry of running tasks; `Hooks` the decision algebra;
`CircuitBreaker` the breaker against the trace of the calls it saw.

**Text passes.** `Tables` is the delimiter-row pass (section 4.10 of the GitHub
Flavored Markdown Spec), `TexScanner` the TeX pass over bytes, with UTF-8 as in
section 4 of RFC 3629 (`Utf8`) and trimming by code point (`Trimming`), and
`Fences` the fence recogniser both share.

## Where the code does less than one would expect

- A resumed turn journals the last user message of the transcript as its own, and
  its checkpoints start there. If it is cut off too, restoring it merges those
  messages a second time: a question asked once is in the transcript twice
  (`CrashWitnesses.RestoredSuccessorRepeats`;
  `CrashMessages.EachMessageOnceIff` has the exact condition).
- After a restored question without an answer the next user message is joined with
  it. When that turn ends, only what follows the old history is saved, so its
  user message is nowhere in the transcript
  (`CrashWitnesses.JoinedMessageIsNotSaved`, exactly when in
  `CrashMessages.UserMessageSavedIff`).
- A crash in one of the two windows loses the turn's messages for good
  (`CrashMessages.LostIsGone`; `CrashWitnesses.CrashAfterEndLoses` and
  `CrashAfterMarkLoses`).
- Building a checkpoint from restored messages and reading it again adds
  nothing exactly when every pending call carries an id: a missing id is
  written as `null` and is not found again (`Checkpoint.RebuildAddsNothingIff`,
  `Checkpoint.CallWithoutIdExample`).
- Journal numbers are unique for one open store only: after a restart the next
  number follows the last entry left in the file, so those of a pruned tail
  return.
- Keeping a recent suffix is not idempotent: if the user turn at the cut holds a
  stray tool result, the suffix starts in the middle of that turn and a second
  pass cuts again. `LegalSuffix.RetainTwice` has the exact condition, a second
  pass always settles, and `LegalSuffix.TornTurnExample` is an instance. An idle
  session can therefore be compacted twice in a row, never three times.
- An idle compaction saves the copy it took before it asked for the summary, so
  messages that arrive meanwhile are lost unless there was nothing to drop
  (`Consolidation.IdleKeepsArrivalsIff`, `Consolidation.ArrivalIsLostExample`).
- Nothing keeps two Dream runs apart. If one commits after another did since its
  own read, an entry is taken twice, and Dream's cursor may go back, so that the
  next run reads committed entries again. As long as numbers never fall this is
  the only way (`DreamBatches.NoneTakenTwiceIff`, `StaleIff`, `CursorRises`;
  `DreamWitnesses.OverlapReadsTwice`).
- Numbers strictly increase if and only if each entry is written under a number
  taken when the cursor file held the last one's and with no other entry written
  since (`DreamRuns.NumbersIncreaseIff`). An append that stops before its cursor
  write makes the next one reuse its number; with one append at a time they still
  never fall (`DreamRuns.SerialNumbersNeverFall`). Two appends at the same time,
  without any crash, can make them fall, and then a single Dream run at a time
  reads an entry twice (`DreamWitnesses.FallenNumberReadsTwice`).
- An entry is never read if it is written under a number Dream is past, if a
  commit passes it by, dropping it or going beyond its number, or if it is written
  while a commit rewrites the log; these are all the ways, and only a commit of an
  overtaken run can bring such an entry back (`DreamBatches.MissedIff`,
  `MissedForGood`; `DreamWitnesses.WrittenBehindExample`,
  `DuplicateIsSkippedExample`, `LateDuplicateExample`, `LostToRewriteExample`).
- A commit drops unread entries exactly when more of them lie behind its batch
  than the history limit, counted when it commits: what arrives while Dream waits
  for its model counts (`DreamBatches.DreamLosesIff`;
  `DreamWitnesses.ArrivalIsDroppedExample`, `BacklogIsDroppedExample`).
- The archiver does not look at whether the history log took its entry: what
  replay hides is in the log if and only if every such entry was taken
  (`Consolidation.HiddenIsStoredIff`).
- In the TeX pass the line behind a fence's opening line does not count as one, so
  a fence with nothing in it is not closed by its closing line and the text behind
  it is still taken for code (`TexScanner.EmptyFenceStaysOpen`).

## Model

| member | source | states |
|---|---|---|
| Journal.RunJournal.Append | src/session/journal.rs:293-303 | the record becomes the last entry, under a number this store never used before |
| Journal.RunJournal.Compact | src/session/journal.rs:313-335 | exactly the kept entries stay, in order and under their numbers; this store does not reuse numbers; the count of dropped ones is returned |
| Sequences.FilterSelects | src/session/journal.rs:313-335 | what is kept are the entries at an increasing list of places, and those places are all that satisfy the condition |
| Recovery.ToolCallStates | src/agent/recovery.rs:68-118 | the hash-map fold equals one state per call key in first-appearance order |
| Recovery.StateOfSnoc | src/agent/recovery.rs:79-110 | status and result are those of the first terminal record whatever follows, arguments those of the first record, while intents are still counted after a terminal one |
| Recovery.FoundStateIsOwn | src/agent/recovery.rs:240-257 | looking a call up in the folded states depends on that call's own records only |
| Recovery.ScanUnfinishedTurns | src/agent/recovery.rs:173-208 | the scan returns the turns started and not ended, oldest first, with the first start's route and the highest attempt |
| Recovery.ScanTurnsToRestore | src/agent/recovery.rs:214-235 | the scan returns each turn started and not settled, once, oldest first |
| Recovery.UnfinishedIdsAre | src/agent/recovery.rs:173-208 | unfinished means started and without any terminal record |
| Recovery.TurnsToRestoreAre | src/agent/recovery.rs:214-235 | to restore means started and neither completed, failed nor restored |
| JournalFacts.RestoredOldestFirst | src/agent/recovery.rs:214-235 | the first start of each turn to restore lies before those of the turns after it |
| JournalFacts.UnfinishedTurnTells | src/agent/recovery.rs:173-208 | an unfinished turn has session, route, request and time of its first start record and the highest attempt of all of them |
| JournalFacts.CallStatesAre | src/agent/recovery.rs:68-118 | one state for each call with a record, in the order of their first records |
| JournalFacts.CallStateTells | src/agent/recovery.rs:68-118 | a state is what the first record of the call says, with status and result of its first terminal record, and counts its intent records |
| JournalFacts.ReplayedIff | src/agent/recovery.rs:123-133 | a call is replayed, with its first arguments, exactly if it has no terminal record, at most one intent and a first record marked safe; it is skipped exactly if it has a terminal record |
| JournalFacts.RestoredTurnTells | src/agent/recovery.rs:237-290 | a turn restored from its last checkpoint starts with the messages in it, and each call of their last request without a result is answered: with its text if it is done or failed, with the block reason if it was blocked, else as interrupted |
| JournalFacts.TurnWithoutCheckpointTells | src/agent/recovery.rs:261-290 | a turn without checkpoint gives the user message of its first start that has one, else nothing |
| Checkpoint.Build | src/agent/checkpoint_payload.rs:34-45 | whatever the built payload is read with, it gives the turn and one result per unanswered call of its last request |
| Checkpoint.Materialize | src/agent/checkpoint_payload.rs:92-127 | reading a payload, in the new or the legacy layout, gives its messages and one result per pending call |
| Checkpoint.LastRequestIs | src/agent/checkpoint_payload.rs:146-175 | no later message requests tools |
| Checkpoint.RoundTrip | src/agent/checkpoint_payload.rs:92-127 | reading back a built payload is the turn followed by one result for each unanswered call of the last request, in call order |
| Checkpoint.SynthesizedAnswers | src/agent/checkpoint_payload.rs:76-90 | a synthesized result answers its call exactly when the call has an id |
| Checkpoint.RebuildAddsNothingIff | src/agent/checkpoint_payload.rs:34-45 | building and reading again adds nothing if and only if every pending call object carries an id |
| Checkpoint.CallWithoutIdExample | src/agent/checkpoint_payload.rs:76-90 | a call without id gets one more result each time its checkpoint is built and read |
| Checkpoint.EveryCallEndsWithOneResult | src/agent/checkpoint_payload.rs:92-175 | with unique ids and earlier requests answered, every call ends with exactly one result, the resolved text where it had none |
| Checkpoint.PayloadTells | src/agent/checkpoint_payload.rs:34-74 | the payload holds the turn and, of its last tool request, the message, the tool messages behind it and the calls none of them answers, each in order |
| Checkpoint.PayloadWithoutRequest | src/agent/checkpoint_payload.rs:34-45 | without a tool request the payload holds kind and turn alone |
| Checkpoint.LegacyTells | src/agent/checkpoint_payload.rs:92-127 | the legacy layout gives the assistant message, then the completed results, then a result for each pending call, in order, with non-objects left out |
| Checkpoint.CheckpointTells | src/agent/checkpoint_payload.rs:92-127 | the new layout gives its messages unchanged, then a result for each pending call |
| Pruning.PruneJournal | src/agent/recovery.rs:319-322 | the journal becomes its pruned form and the number of dropped entries is returned |
| Pruning.OpenTurnIdsAre | src/agent/recovery.rs:291-301 | open means started and not settled, and every unfinished turn is to be restored |
| Pruning.NeverReopens | src/agent/recovery.rs:214-235 | however the journal grows, a settled turn is never to be restored again and an ended one never unfinished again |
| Pruning.PruneKeepsTurns | src/agent/recovery.rs:304-322 | unfinished turns and turns to restore are the same after pruning, with order and contents |
| Pruning.PruneKeepsCallStates | src/agent/recovery.rs:304-322 | the call states after pruning are those of the open turns |
| Pruning.PruneKeepsMessages | src/agent/recovery.rs:261-322 | what a later restore merges for an open turn is the same after pruning |
| Pruning.PruneKeepsInbox | src/agent/recovery.rs:308-315 | no inbox ledger record is dropped |
| Pruning.PruneIdempotent | src/agent/recovery.rs:319-322 | pruning again drops nothing |
| JournalFacts.PruneKeepsExactly | src/agent/recovery.rs:304-322 | exactly the entries of the inbox ledger, of no turn, or of a turn that started and is not settled are kept, in order |
| Restore.Session.SaveTurn | src/agent/agent_loop.rs:2645-2714 | behind the old transcript come, once each and in order, exactly the messages from `skip` on that are objects and, for an assistant, say something or call a tool, for a user or a tool, leave something of their text or blocks; nothing but content and a missing timestamp is touched, and an assistant's content is kept |
| Restore.UserTextIs | src/agent/agent_loop.rs:2645-2714 | a user text with runtime context in front is stored from behind its first blank line on, and dropped if there is none or only white space follows |
| Restore.SynthesizedResultPersists | src/agent/agent_loop.rs:2645-2714 | a result made for an interrupted call is stored with its call id, neither dropped nor emptied |
| Restore.MarkingSettlesAll | src/agent/agent_loop.rs:3066-3093 | once every turn to restore is marked, none is left to restore or to resume |
| Restore.Session.RestoreFromJournal | src/agent/agent_loop.rs:3066-3093 | one pass adds, turn after turn in the order of their first starts, the stored messages of each pending turn and marks each; both sets are empty afterwards and a second pass changes nothing |
| Restore.LongestOverlap | src/agent/agent_loop.rs:3109-3123 | the returned overlap matches and no longer one does |
| Restore.SameKeyIff | src/agent/agent_loop.rs:3025-3035 | two messages count as the same exactly if they agree on role, content, call, name, calls, reasoning and thinking |
| Restore.MergeIsShortest | src/agent/agent_loop.rs:3109-3126 | no list that starts with the history and ends with the restored messages is shorter than the merge |
| Restore.MergeEndsWithRestored | src/agent/agent_loop.rs:3109-3126 | the merge ends with the restored messages up to the message key |
| Restore.RestoredAtAnotherTime | src/agent/agent_loop.rs:3025-3035 | reading the same checkpoint at another time gives the same messages up to the message key |
| Restore.MergeAgainAppendsNothing | src/agent/agent_loop.rs:3096-3129 | merging messages the list already ends with appends nothing |
| Restore.Session.RestoreFromMetadataCheckpoint | src/agent/agent_loop.rs:3096-3129 | the old history stays a prefix, the result ends with the restored messages and is the shortest such list; the checkpoint is gone |
| Restore.MergeMetadataTwice | src/agent/agent_loop.rs:3096-3129 | merging the same checkpoint a second time, at any later moment, appends nothing |
| Restore.Session.RestoreRuntimeCheckpoint | src/agent/agent_loop.rs:3051-3064 | if the journal restored messages the metadata checkpoint is dropped unread; else the transcript becomes the shortest list that ends with the checkpoint's messages; nothing is left to restore either way |
| ResumePlan.PlanSessionActions | src/agent/resume.rs:82-107 | one action per unfinished turn in scan order, older turns abandoned, the newest resumed exactly while fresh and with attempts left, as attempt one more than before and within the limit |
| ResumePlan.OneActionPerTurn | src/agent/resume.rs:62-80 | exactly the interrupted turns of a journal are acted on, once each, and only the last can be a resume |
| ResumePlan.OneResumePerSession | src/agent/resume.rs:82-107 | a session's plan holds at most one resume |
| ResumePlan.NoMoreResumesThanSessions | src/agent/resume.rs:62-80 | a whole plan holds no more resumes than there are sessions |
| ResumePlan.EveryTurnActedOn | src/agent/resume.rs:62-80 | every interrupted turn of every session gets an action |
| ResumePlan.PlanTells | src/agent/resume.rs:62-107 | by places in the journal: each turn that started before the cutoff and has no terminal record gets an action, abandoned if another such turn started later, else stale, resumed as the attempt after its highest or abandoned at the limit; no other turn gets one |
| ResumePlan.PlanInStartOrder | src/agent/resume.rs:62-107 | the actions come in the order in which their turns first started |
| ResumePlan.ResumesAreNewest | src/agent/resume.rs:62-107 | the first start of a resumed turn lies behind those of all other interrupted turns of its journal, and its attempt is between one and the limit |
| CrashExecutions.ReplayedCallWasAnnouncedOnce | src/agent/recovery.rs:123-133 | recovery replays a call only after a single safe intent and no terminal record |
| CrashExecutions.StepKeeps | src/agent/agent_loop.rs:1867-1931 | every step keeps: executions are covered by announced intents and at most one replay |
| CrashExecutions.ExecutionBound | src/agent/agent_loop.rs:1867-1931 | over every run with crashes anywhere, a call id used once executes at most once if unsafe and at most twice if safe, never after a terminal record; in general at most once per use plus one replay |
| CrashExecutions.ExecutionsAreJournaled | src/agent/turn_journal.rs:136-166 | executions never exceed the journaled intents, of which a call id used once has at most two, or one if unsafe |
| CrashCommits.StepKeeps | src/agent/agent_loop.rs:1488-1504 | every step keeps: what is committed is closed, committed once, and of a turn that started |
| CrashCommits.AtMostOnce | src/agent/agent_loop.rs:2608-2628 | over every run with crashes anywhere, at most one addition to the saved transcript is a turn's, and only of turns settled in the journal or pruned |
| CrashCommits.LossStep | src/agent/agent_loop.rs:1488-1504 | a step loses a turn exactly if it is a crash inside one of the turn's two windows, and a lost turn stays lost |
| CrashCommits.LostIffCrashedInWindow | src/agent/agent_loop.rs:3066-3093 | over every run, a turn is lost if and only if some crash fell between its mark and the save |
| CrashCommits.ExactlyOnce | src/agent/agent_loop.rs:2608-2628 | with no such crash, whenever no save is outstanding exactly one addition is a closed turn's, or a restore found no messages for it |
| CrashTranscript.StepKeeps | src/agent/runner.rs:644-663 | every step keeps: a journaled turn shows its own messages once each, or, if it took over, old ones again; every addition is one of the two |
| CrashMessages.HeirsAre | src/agent/agent_loop.rs:1722-1762 | the turns that took over are those started on a transcript that is not empty by a resume or after a trailing user message |
| CrashMessages.EachMessageOnceIff | src/agent/agent_loop.rs:3066-3093 | over every run, the saved transcript holds each message at most once if and only if no turn that took over was itself restored |
| CrashMessages.CommitsSay | src/agent/agent_loop.rs:3066-3093 | such a restored turn says an earlier line again and nothing new but its own; any other addition holds its turn's own messages, each once |
| CrashMessages.OnlyOfCommittedTurns | src/agent/agent_loop.rs:3066-3093 | a message is in the transcript only if its own turn's addition holds it, whoever else inherited it |
| CrashMessages.JournaledIsSaved | src/agent/agent_loop.rs:1488-1504 | over every run, what a turn said before a checkpoint or its end is saved once the turn counts as done and no save is outstanding, unless a crash fell into one of its windows |
| CrashMessages.MessageExactlyOnce | src/agent/agent_loop.rs:3066-3093 | and exactly once if no turn that took over was itself restored |
| CrashMessages.LostIsGone | src/agent/agent_loop.rs:1488-1504 | after a crash in one of its windows no message of the turn is in the transcript |
| CrashMessages.UserMessageSavedIff | src/agent/context.rs:481-492 | over every run, the user message of a new turn that ended and is saved is in the transcript if and only if it was not joined with a trailing user message |
| CrashWitnesses.CrashAfterEndLoses | src/agent/agent_loop.rs:1488-1504 | a run in which a crash right after the end record loses the turn |
| CrashWitnesses.CrashAfterMarkLoses | src/agent/agent_loop.rs:3066-3093 | a run in which a crash right after the restore mark loses the turn |
| CrashWitnesses.RestoredSuccessorRepeats | src/agent/agent_loop.rs:1722-1762 | a run of two crashes after which the transcript holds one question twice |
| CrashWitnesses.JoinedMessageIsNotSaved | src/agent/context.rs:481-492 | a run in which a turn ends without a crash and its user message is in no transcript |
| CrashChains.StepKeeps | src/agent/agent_loop.rs:1705-1762 | every step keeps: planned and running resumes are for turns without successor, as the next attempt within the limit |
| CrashChains.OneSuccessor | src/agent/agent_loop.rs:1705-1762 | over every run a turn that has a successor keeps that one |
| CrashChains.LinksAreAttempts | src/agent/agent_loop.rs:1542-1575 | a successor's attempt is its predecessor's plus one and within the limit, and no two turns share a successor |
| CrashChains.ChainsEnd | src/agent/recovery.rs:146-154 | the attempts left fall by one along each link of a chain |
| CrashChains.AtMostMaxAttempts | src/agent/recovery.rs:146-154 | over every run a chain holds at most the limit of resumed turns |
| TurnSlots.StepKeeps | src/agent/agent_loop.rs:2097-2124 | every step keeps one mutex per session, holders known to it, permits conserved, and the registry exact |
| TurnSlots.MutualExclusion | src/agent/agent_loop.rs:2097-2124 | in every interleaving no two tasks hold the same session |
| TurnSlots.WithinLimits | src/agent/agent_loop.rs:2108-2124 | at most the gate's permits of dispatched turns run, and of resumes past the resume gate |
| TurnSlots.RegistryIsExact | src/agent/agent_loop.rs:2063-2092 | with the registry lock free, a handle is registered exactly if its task is dispatched and neither finished nor aborted |
| TurnSlots.NeverStuck | src/agent/agent_loop.rs:1617-1664 | as long as a task is not gone, some task can take a step |
| TurnSlots.WorkFalls | src/agent/agent_loop.rs:2063-2092 | every step other than an arrival or an abort uses up work |
| TurnSlots.NothingLeftBehind | src/agent/agent_loop.rs:1304-1326 | where no task can step, all are gone, every lock and permit is back and the registry is empty |
| LegalSuffix.FindLegalMessageStart | src/utils/helpers.rs:310-346 | the forward scan returns the least index from which every tool result has its call |
| LegalSuffix.RetainRecentLegalSuffix | src/session/manager.rs:704-756 | the kept messages are the longest legal suffix from the user turn at the cut on |
| LegalSuffix.RetainedIs | src/session/manager.rs:704-756 | retention keeps a suffix, all of a short list, and otherwise the longest legal one from its anchor |
| LegalSuffix.RetainTells | src/session/manager.rs:704-756 | a long list keeps the longest legal suffix from the nearest user turn at or before the cut, without one from the first behind it, without any from the cut |
| LegalSuffix.DeclaresIff | src/utils/helpers.rs:310-346 | only an assistant message declares calls, those with a string id, and only a tool message answers one |
| LegalSuffix.TornTurnIff | src/session/manager.rs:704-756 | the kept suffix starts inside the user turn at the cut exactly if that turn holds a result without its call and is legal from a later place before the cut |
| LegalSuffix.RetainTwice | src/session/manager.rs:704-756 | retaining twice changes nothing more if and only if the turn at the cut is not torn |
| LegalSuffix.RetainThrice | src/session/manager.rs:704-756 | a second retention always reaches a fixed point |
| LegalSuffix.TornTurnExample | src/session/manager.rs:704-756 | a conversation whose turn at the cut is torn |
| Consolidation.PickBoundary | src/agent/memory.rs:721-743 | the single pass returns the boundary and the tokens before it |
| Consolidation.BoundaryIs | src/agent/memory.rs:721-743 | the boundary is the first later user turn with enough tokens before it, else the last later user turn, and there is none only if no user turn follows |
| Consolidation.TokensAdd | src/agent/memory.rs:721-743 | the tokens of a stretch are the sum of those of its messages |
| Consolidation.Conversation.ConsolidateByTokens | src/agent/memory.rs:879-976 | nothing changes below the budget; otherwise round after round, each with the estimate over half of it, hands the messages up to a boundary to the archiver, moves replay there if they are summarized and saves; the pass ends only within the target, without a later user turn, after a failed summary, at a zero estimate or after five rounds |
| Consolidation.TokenPassCuts | src/agent/memory.rs:879-976 | at or above a budget of at least two, with a later user turn to cut at, a chunk from the replay start up to a boundary is handed over, and replay starts no earlier than its end if it is summarized |
| Consolidation.Conversation.CompactIdle | src/agent/memory.rs:997-1101 | the boundary moves over exactly what the retention dropped, summarized or raw, and the result is empty exactly if nothing was dropped |
| Consolidation.IdleArchives | src/agent/memory.rs:1053-1101 | an idle compaction hands over one chunk of exactly what the retention drops, from the replay start, and none if that is nothing |
| Consolidation.Conversation.Save | src/session/manager.rs:1128-1139 | the consolidated prefix moves to the archive; the whole conversation and the start of replay stay, the stored cursor is zero |
| Consolidation.SavedKeeps | src/session/manager.rs:654-669 | saving changes neither the whole conversation nor where replay starts |
| Consolidation.RoundsKeep | src/agent/memory.rs:912-975 | token rounds only add arrivals, never move replay back, and keep the archived chunks end to end |
| Consolidation.FewRounds | src/agent/memory.rs:912-945 | at most five chunks are handed over, and the first failed summary ends the pass |
| Consolidation.IdleKeepsArrivalsIff | src/agent/memory.rs:1053-1098 | an idle compaction keeps what arrives meanwhile if and only if nothing arrives or nothing is dropped |
| Consolidation.ArrivalIsLostExample | src/agent/memory.rs:1053-1098 | a compaction of one message more than the suffix loses the message that arrives meanwhile |
| Consolidation.RunGrows | src/agent/memory.rs:879-1101 | over any sequence of appends and compactions earlier contents stay in place and replay never moves back or past the end |
| Consolidation.EverythingHiddenIsArchived | src/agent/memory.rs:789-871 | every message below the boundary was handed to the archiver in a chunk that moved the boundary over it; those chunks are contiguous, disjoint and in order |
| Consolidation.HiddenIsStoredIff | src/agent/memory.rs:844-870 | over any run, every message below the boundary is in the log by that chunk if and only if the log took the entry of every such chunk |
| Consolidation.IdleTwice | src/agent/memory.rs:1021-1051 | a second idle compaction drops something exactly after a torn turn, a third never |
| Autocompact.ScheduledAre | src/agent/autocompact.rs:117-184 | the scheduled keys are exactly those of due listed sessions without compaction in flight, each once |
| Autocompact.ScheduledInOrder | src/agent/autocompact.rs:117-184 | they come in the order in which the listing first has them due |
| Autocompact.ExpiredIff | src/agent/autocompact.rs:338-370 | a listed time is expired exactly if compaction is on, there is one, and it is unreadable or the configured minutes have fully passed |
| Autocompact.Scheduler.CheckExpired | src/agent/autocompact.rs:117-184 | the loop schedules exactly these and flags exactly them |
| Autocompact.Scheduler.HasCompactableIdleTail | src/agent/autocompact.rs:59-86 | true exactly if a compaction would drop something |
| Autocompact.Scheduler.Unmark | src/agent/autocompact.rs:329-336 | the flag of a compaction that ended is cleared and no other |
| Autocompact.NeverTwiceAtATime | src/agent/autocompact.rs:102-115 | over every run a session has at most one compaction in flight, and is flagged exactly while it has |
| Autocompact.ScheduledOnlyToDrop | src/agent/autocompact.rs:137-168 | a session is scheduled only if it is listed as expired, neither active, internal nor being compacted, and a retention of its replayed messages drops some |
| Autocompact.QuietAfterCompaction | src/agent/autocompact.rs:250-283 | a compacted session that still reads as expired is scheduled again exactly if the cut tore a turn |
| Autocompact.SilentAfterTwo | src/agent/autocompact.rs:117-184 | after two compactions with nothing new it is not scheduled, whatever the clock says |
| History.MemoryStore.AppendHistory | src/agent/memory.rs:323-367 | which of the two writes took place decides log, cursor file and returned number; everything logged before stays, the new entry comes last |
| History.MemoryStore.CompactHistory | src/agent/memory.rs:406-418 | the newest entries up to the limit stay in order; zero keeps all |
| History.MemoryStore.ReadUnprocessed | src/agent/memory.rs:389-403 | the entries with a later number, in log order |
| History.UnreadInOrder | src/agent/memory.rs:389-403 | unread are exactly the log entries with a later number, each as often and in the order the log has them |
| History.MemoryStore.RunDream | src/agent/memory.rs:1180-1355 | the first batch is read; after the wait, and if the first phase succeeded, its last number becomes the cursor and the log as it then is is compacted; true exactly if there was a batch and both phases succeeded |
| DreamRuns.WholeAppend | src/agent/memory.rs:323-367 | an append with nothing between its three file accesses adds one entry with the next number and records it |
| DreamRuns.StepKeeps | src/agent/memory.rs:323-418 | every step keeps: the log is in writing order and holds only what was written, and a Dream run no other has overtaken holds the beginning of what is still to be read |
| DreamRuns.NewIff | src/agent/memory.rs:373-387 | a number is new when its entry is written exactly if it was taken with the cursor file at the last one's and nobody wrote since |
| DreamRuns.NumbersIncreaseIff | src/agent/memory.rs:323-387 | over every run of appends at the same time, numbers strictly increase if and only if each entry is written under a number that followed the last one's, with no entry written since |
| DreamRuns.SerialNumbersNeverFall | src/agent/memory.rs:323-387 | with one append at a time, wherever each stops, numbers never fall |
| DreamBatches.StaleIff | src/agent/memory.rs:1188-1340 | a commit counts as overtaken exactly if some other run committed since this run's read |
| DreamBatches.StaleTakesTwice | src/agent/memory.rs:1188-1340 | over every run, if no entry is taken twice then no overtaken run committed, whatever the numbers |
| DreamBatches.NoneTakenTwiceIff | src/agent/memory.rs:1188-1340 | over every run in which numbers never fall, no entry is taken twice if and only if no overtaken run commits; then the cursor never goes back and the batches follow the order of writing |
| DreamBatches.CursorRises | src/agent/memory.rs:1337-1340 | a commit that was not overtaken moves Dream's cursor forward and nothing else moves it |
| DreamBatches.MissStep | src/agent/memory.rs:389-418 | a step misses an entry by writing it behind the cursor, losing it to a rewrite or passing it by, and brings one back only by committing it or moving the cursor back before it |
| DreamBatches.MissedIff | src/agent/memory.rs:389-418 | over every run, an entry is in no batch and not to be read if and only if some step missed it and no later commit brought it back |
| DreamBatches.MissedForGood | src/agent/memory.rs:1188-1340 | a missed entry stays missed over any further steps without an overtaken commit |
| DreamBatches.DuplicateIsSkipped | src/agent/memory.rs:1188-1340 | an entry in the log at a commit, outside the batch and numbered no higher than its last, is in no batch of any further run without an overtaken commit |
| DreamBatches.DreamLosesIff | src/agent/memory.rs:1337-1340 | a commit drops unread entries outside its batch exactly if, of those unread when it commits, more than the limit lie from the first one outside the batch on |
| DreamBatches.FreshDreamLosesIff | src/agent/memory.rs:1337-1340 | for a run that was not overtaken: exactly if the unread entries exceed batch and limit together |
| DreamBatches.BatchesOverRun | src/agent/memory.rs:1188-1340 | over every run without an overtaken commit and with increasing numbers, the batches are disjoint and in order, and each entry is in one, still to be read, lost to a rewrite, or dropped behind at least the limit of newer ones |
| DreamWitnesses.OverlapReadsTwice | src/agent/memory.rs:1188-1340 | a run of overlapping Dream runs in which the cursor goes back and entries are read again |
| DreamWitnesses.ArrivalIsDroppedExample | src/agent/memory.rs:1337-1340 | an entry written while Dream waits is dropped unread by its commit |
| DreamWitnesses.BacklogIsDroppedExample | src/agent/memory.rs:1337-1340 | three entries, a log limit of one and batches of one: the second is dropped unread |
| DreamWitnesses.DuplicateIsSkippedExample | src/agent/memory.rs:373-403 | a write cut off after the log, the next with its number, and a batch that ends between them: the second is missed |
| DreamWitnesses.LateDuplicateExample | src/agent/memory.rs:373-403 | the same with the second written while Dream waits |
| DreamWitnesses.WrittenBehindExample | src/agent/memory.rs:373-403 | the same with the second written after the commit |
| DreamWitnesses.FallenNumberReadsTwice | src/agent/memory.rs:323-387 | two appends at the same time make the numbers fall, and one Dream run at a time reads an entry twice |
| DreamWitnesses.LostToRewriteExample | src/agent/memory.rs:406-418 | an entry written during the rewrite of the log is in no file |
| Hooks.ThenIsMonoid | src/agent/hook.rs:157-165 | combining decisions is associative with the accepting decision as unit |
| Hooks.CompositeAfterCall | src/agent/hook.rs:417-447 | the loop equals the recursive composition, a panic being a block |
| Hooks.CompositeIs | src/agent/hook.rs:417-447 | the result is the first block, the last replacement and all contexts in order of the hooks that were asked |
| Hooks.CompositeTells | src/agent/hook.rs:417-447 | of the hooks that were asked, the one whose replacement is used has none with a replacement behind it, and the one whose block is used none with a block before it; there is none of either only if no hook gave one |
| Hooks.AskedAre | src/agent/hook.rs:422-426 | each hook is asked about the text of the last replacement before it, or the result's own if there is none; a panic is its block; none is asked after a block |
| Hooks.AskedLength | src/agent/hook.rs:417-447 | without a block every hook is asked |
| Hooks.CompositeConcat | src/agent/hook.rs:417-447 | a composite inside a composite is the flattened list |
| Hooks.ChainIsComposite | src/agent/hook.rs:564-575 | the chain equals the composite of the flattened list if and only if the core hook does not panic |
| Hooks.CompositeAuthorize | src/agent/hook.rs:450-470 | allowed exactly if every hook allows, else the first denial, a panic being one |
| Hooks.ChainAuthorize | src/agent/hook.rs:577-582 | the core hook is asked first and the others only if it allows; without a panic of the core hook the verdict is the first denial of the flattened list |
| Hooks.ChainVerdictIs | src/agent/hook.rs:577-582 | the chain authorizes like the composite of the flattened list if and only if the core hook does not panic, and allows exactly if every hook does |
| Hooks.CombineRevocations | src/agent/hook.rs:176-184 | true if any answer is, else false if any is, else none |
| Hooks.ChainRevocations | src/agent/hook.rs:557-562 | the chain answers like the flattened list |
| CircuitBreaker.RunLengthIs | src/agent/circuit_breaker.rs:68-80 | the streak reaches n exactly if the last n calls sent the same text |
| CircuitBreaker.SendsIff | src/agent/circuit_breaker.rs:102-110 | what is compared is the content of a message call without the white space around it, if anything is left |
| CircuitBreaker.MessageCircuitBreaker.Observe | src/agent/circuit_breaker.rs:48-84 | open, with the threshold as streak, exactly once the trace held that many consecutive message calls with equal non-empty trimmed text, and from then on |
| Tables.PaddedIs | chat-ui/src/markdown.rs:488-513 | a padded delimiter row is a delimiter row with exactly the target number of columns |
| Tables.NormalizeLines | chat-ui/src/markdown.rs:400-447 | the index loop equals the recursive pass |
| Tables.OnlyDelimiterRowsChange | chat-ui/src/markdown.rs:424-437 | lines are kept in number and content, but for delimiter rows shorter than the kept header above, which get its column count |
| Tables.LinesAre | chat-ui/src/markdown.rs:400-447 | a line changes exactly if it is a delimiter row directly below a header with more columns, where the header is outside of fences and opens none, and then gets the header's column count |
| Tables.NextFenceTells | chat-ui/src/markdown.rs:407-422 | outside a fence a line opens one exactly if it starts one, inside it closes the fence exactly if it is a closing line for it |
| Tables.CellsTell | chat-ui/src/markdown.rs:453-470 | the cells of a line are the pieces of its trimmed text between pipes but for a blank first and a blank last one; there are none without a pipe or if nothing is left |
| Tables.DelimiterCellIff | chat-ui/src/markdown.rs:476-486 | a delimiter cell is, trimmed, dashes with or without a colon on either side |
| Tables.PaddedCells | chat-ui/src/markdown.rs:488-513 | a padded row keeps its cells and gets `---` cells behind them |
| Fences.OpeningIff | chat-ui/src/markdown.rs:337-363 | a line opens a fence exactly if up to three spaces are followed by a run of at least three backticks or tildes, of that length, up to the end of the line |
| Fences.ClosingIff | chat-ui/src/markdown.rs:365-393 | a line closes a fence exactly if up to three spaces are followed by a run of its mark, at least as long, and then only blanks |
| Tables.DelimiterOpensNoFence | chat-ui/src/markdown.rs:337-363 | a delimiter row never opens a code fence |
| Tables.Idempotent | chat-ui/src/markdown.rs:400-447 | a second pass from the same fence state changes nothing |
| Tables.TextIdempotent | chat-ui/src/markdown.rs:400-447 | the same on texts, with the number of lines kept |
| Tables.NormalizeGfmTables | chat-ui/src/markdown.rs:400-447 | the output's lines are those the pass over the input's lines gives (`LinesAre`), as many, and a second pass changes nothing |
| Utf8.ValidAtBoundary | chat-ui/src/markdown.rs:301-308 | every boundary of a valid text starts a valid rest |
| Utf8.ValidSlice | chat-ui/src/markdown.rs:326-335 | between two boundaries of a valid text lies a valid text |
| TexScanner.EscapedIff | chat-ui/src/markdown.rs:310-324 | a backslash is escaped exactly if an unescaped one precedes it |
| TexScanner.IsEscapedBackslash | chat-ui/src/markdown.rs:310-324 | the backward count decides exactly that |
| TexScanner.TexGroupInner | chat-ui/src/markdown.rs:326-335 | the search returns the first closer on its character steps |
| TexScanner.GroupEndIs | chat-ui/src/markdown.rs:326-335 | those steps miss no unescaped closer and stop at a boundary |
| TexScanner.InnerIsValid | chat-ui/src/markdown.rs:326-335 | what is between a group's delimiters is valid UTF-8, so reading it as text never drops a group |
| TexScanner.TakeInlineCode | chat-ui/src/markdown.rs:515-532 | the span ends after the first run or tail of a run as long as its opener, else after the opener |
| TexScanner.InlineEndIs | chat-ui/src/markdown.rs:515-532 | the span ends with the first backticks, as many as open it, that no more follow; without such it is the opening run alone |
| TexScanner.NextFits | chat-ui/src/markdown.rs:237-296 | every iteration moves forward, to a character boundary |
| TexScanner.RewriteTexDelimiters | chat-ui/src/markdown.rs:230-299 | the output is the images of the scanned segments, which `ScanObeys` and `OutputTells` describe, one after the other, and valid UTF-8 |
| TexScanner.SegmentsFit | chat-ui/src/markdown.rs:267-289 | each segment starts at a boundary; a group lies between unescaped delimiters with no closer inside |
| TexScanner.ScanObeys | chat-ui/src/markdown.rs:237-296 | every segment is what its place says: inside a fence the closing line or one character; outside an opening line, a code span at a backtick, a group at an unescaped opener with a later unescaped closer, else one character |
| TexScanner.NoGroupMissed | chat-ui/src/markdown.rs:267-289 | an unescaped opener with a later unescaped closer is copied only inside code, a fence or another group |
| TexScanner.EmptyFenceStaysOpen | chat-ui/src/markdown.rs:237-258 | the line behind an opening line never closes the fence; a closing line follows a newline copied inside it |
| TexScanner.OutputTells | chat-ui/src/markdown.rs:230-299 | between the images of the segments before and after it the output has each segment unchanged, or for a group the trimmed inside between one dollar for a round and two for a square opener |
| Trimming.TrimIs | chat-ui/src/markdown.rs:282 | trimming removes the Unicode white space at both ends and nothing else |
| TexScanner.OutputIsImage | chat-ui/src/markdown.rs:230-299 | the segments laid end to end are the input, the output is valid, and without an unescaped opener it is the input |

## Left out

- Files, disks, fsync modes and JSON text: a journal is a sequence, a session file its contents. A journal append is assumed to succeed where the code only logs a failure; a refused intent in strict mode is modelled.
- Counter widths: attempts, numbers and token counts are unbounded, so 32- and 64-bit overflow and saturation are not modelled.
- JSON numbers are integers, object keys an enumeration of the ones the code reads, and role names are kept apart from other strings.
- Timestamps: the formatted time is a parameter, and reading one is a function that may fail. That a turn began before this process started is, in `CrashProtocol`, that this process did not start it.
- `CrashProtocol` has one session and runs its turns one at a time under the session lock; between planning and resuming a user turn may slip in. Command turns and the inbox ledger's own rules are not part of it, and a resume may start a turn even where the code would find the answer already complete and only deliver it.
- `CrashProtocol` keeps messages as the turn has them: the history of a turn is the whole saved transcript, without the limit of 500 messages, the consolidated prefix, the stored form of `Restore` and the repairs before a request; how contents are joined is a parameter.
- Restore.Session.SaveTurn: the size of a text in bytes, text truncation and the filtering of content blocks are parameters, and the session's time of update is not modelled; the number of messages to skip is at most that of the messages, as the code panics beyond.
- TurnSlots: `process_direct` takes no session lock and `schedule_background` registers after spawning, so neither is covered; polling order and fairness are not modelled.
- Consolidation: token estimates, the summarizer's answer and what arrives while it is asked are parameters; the saves are assumed to succeed. A turn that saves an older snapshot of the same session over a consolidated one, and an append between the estimate and the save of a round, are not modelled.
- Consolidation.Conversation.CompactIdle: the summary stored for the next prompt is not part of the state.
- Autocompact: the stored summary shown once in the next prompt is not modelled.
- History.MemoryStore.RunDream: requires a positive batch size, as the code panics on zero; a failing write of Dream's cursor, log lines that do not parse and the 4 KiB window for the last entry are left out.
- `DreamRuns`: taking a number reads the cursor file, or the log's end without one, in one step; a Dream run reads its cursor and the log in one step; and a commit writes the cursor and rewrites the log with nothing but log writes of appends in between.
- Hooks: notification hooks, streaming and the final text pipeline only run the hooks in order.
- Tables works on characters where the code works on bytes; the two agree because every mark it compares is ASCII.
- TexScanner.RewriteTexDelimiters: requires valid UTF-8, which the argument's type guarantees.
- CommonMark conformance of code spans: the TeX pass accepts the tail of a longer backtick run as a closer, and the model does as the code does.
- Models, streaming, prompts, channels, MCP connections, skills, the web UI, syntax highlighting and formula rendering.
