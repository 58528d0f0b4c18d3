# Models of the agent runtime

MoonHub is an assistant that runs language-model agents behind chat channels. This project models the parts of
it that keep state or loop over unbounded input, and proves what they guarantee over all inputs and all runs.
Everything is in plain Dafny 4.11; `dafny verify dfyconfig.toml` checks it. Nothing here was executed.

| file | what it models |
|---|---|
| Text.dfy, Lists.dfy, Options.dfy | blanks and trimming; subsequences, thinning by index, permutations; absent values |
| Split.dfy | the message splitter: chunks of bounded length, code fences closed and reopened |
| Transcript.dfy, TurnLoop.dfy | the history sanitiser, and the model-call loop of one turn with retries, compression and tool rounds |
| PromptCache.dfy | the cached system prompt and its check by existence flags and modification times |
| TaskQueue.dfy | the two per-agent task queues as interleaved steps of submitters and workers |
| Outbound.dfy | bus, dispatcher, bounded channel queues and workers as interleaved steps |
| Tokens.dfy, Tiers.dfy, Dedup.dfy, Compaction.dfy | token estimates and truncation, tiered summaries, near-duplicate removal, coverage over repeated compactions |
| Consolidation.dfy | decay, prune and greedy merge of episodic memories |
| Lifecycle.dfy | sub-agents: the limit on active ones, dismissal, success rates |
| Cron.dfy | the job scheduler with API calls interleaved |
| MergePatch.dfy, MergeInPlace.dfy | the configuration merge as a function against RFC 7396, and as the in-place recursion on the heap |

The shape is the same throughout. The code's loops and state changes are methods, each proved equal to a
specification function or a state machine step; lemmas then prove properties of that specification which none of
the bodies states. Protocols with several threads are state machines whose events are the atomic steps between
lock operations and channel operations, and the theorems hold in every reachable state.

## Assumptions

- Splitter: every finished fence line, trimmed, has at most maxLen-7 runes, which with a fence around takes a limit of at
  least 10. A limit below 5, or a message without fences, needs nothing; a limit of zero or less returns at once.
- Prompt cache: each write carries a modification time larger than all earlier ones; a check happens at one instant, and
  so does the listing of skill files. Edits, creations and removals fall anywhere between stats and reads.
- Turn loop: nothing else writes the session's history during a turn. A background compaction started by an earlier turn
  may (Compaction.dfy); then only the statements on the stored history are affected, not those on the lists handed over.
- Outbound: what is published to a channel can be split. A message that the splitter never finishes holds up its worker,
  and with it everything behind it in its channel and, once the queue is full, the dispatcher.
- Floats are reals; text is a sequence of runes, with an abstract byte width where the code compares byte lengths.
- Library sorts are not stable, so they are parameters: any sorted permutation is allowed. Similarity, line scores,
  shingles, cron-expression ticks, clock readings, fresh ids, model replies and tool outputs are parameters too.
- Queries to SQLite stores read and write a map, without store errors. Creation times of memories may coincide.
- Compaction: a history is read, and written back, in one step each; appends and other compactions of the session fall
  anywhere between. At most one background and one forced compaction of a session are under way at a time.
- Cron: one run loop, a clock that does not run backwards, ids used once, no UpdateJob, saves that succeed. A restart
  reads the saved jobs at any moment, also in the middle of an execution.

## Where code and documentation part

- `mergeMap` is documented as JSON Merge Patch. It is not one when a patch object holding a null lies over a missing or
  non-object target: the null is stored (`MergePatch.NullMaySurvive`), where the standard drops it.
- `SplitMessage` promises not to split code blocks that fit. It does split one when its first break, for want of a blank
  or line end, falls inside a fence of it (`Split.BlockIsKeptExactly`, `Split.BlockInReachIsCut`).
- `SplitMessage` promises chunks that respect maxLen for any text. When it comes to a
  block that is not closed within the chunk and whose fence line is longer than maxLen-7, it never returns
  (`Split.LongFenceLineBlocks`, `Split.FenceLineLimitIsExact`).
- The prompt cache promises to notice every change. It misses a file created between its stat and its read and removed
  again, and misses nothing else (`PromptCache.UnchangedIsFreshExactly`).
- `SessionQueue.Submit` promises serial execution; serial it is, but it sends without the lock. A task is left behind when
  it is sent after the worker has cleared `running`, and also when it is sent between the worker's look at the empty lane
  and that clearing; only the next Submit to the lane takes it up (`TaskQueue.StrandedExactlyWhen`,
  `TaskQueue.RescuedExactlyWhen`). `PrioritySessionQueue` has no such state.
- `dismissOldestInactive` chooses among the active agents, and does nothing on an empty list, so that a limit below one
  is exceeded (`Lifecycle.LimitBelowOneIsExceeded`).
- `DeduplicateMessages` reports "groups" but counts messages; its test of `dropped[j]` never fires.
- `mergeSimilarMemories` deletes the record of its own row when it meets a similar one made at the same time, and goes on
  with the row: meeting two of them it counts that one deletion twice, and the count is right exactly when no row does so
  (`Consolidation.CountIsExact`). A bump uses the importance as fetched, so that bumps do not add up.
- A forced compaction that fails falls back to dropping half of the history unsummarised (`Compaction.FailedSummaryLoses`).
  A compaction in the background writes back the tail of the history it read, over whatever was appended while its
  summary was made (`Compaction.AppendedMeanwhileIsLost`).
- `EstimateTokens` is commented as rounding up; it rounds to the nearest token (`Tokens.EstimateRoundsToNearest`).

## Model

| member | source | states |
|---|---|---|
| Split.SplitMessage | pkg/channels/split.go:13-140 | the loop over the whole message emits exactly the chunk list whose chunks the lemmas below describe, and terminates; a limit of zero or less returns the message as one chunk, or nothing when it is empty |
| Split.ChunksFit | pkg/channels/split.go:13-140 | every chunk is non-empty and has at most maxLen runes |
| Split.BlockThatFitsIsKept | pkg/channels/split.go:39-63 | a block with both fences in the chunk's range is never cut when the first break is outside its fences: the chunk ends in front of it or behind it, and right behind its closing fence when the block reaches past the effective limit |
| Split.BlockIsKeptExactly | pkg/channels/split.go:39-125 | such a block is kept whole if and only if the first break is outside its opening fence and is outside its closing fence too, unless the block then goes to the next chunk as a whole |
| Split.BlockInReachIsCut | pkg/channels/split.go:39-125 | a block of seven runes and a limit of 10 for which it is not |
| Split.LongBlockIsSplit | pkg/channels/split.go:78-107 | a block not closed in reach, with more than 20 runes of it in front of the first break, is split: the chunk runs to the last line end near its limit, or to the last rune that leaves room for the fence, is trimmed and closed, and the rest begins with the block's fence line |
| Split.LongBlockIsMoved | pkg/channels/split.go:108-125 | with less of it there the chunk ends at the last break in front of the block, or at the block; only a block that opens within 21 runes and has no break in front is cut |
| Split.PlainTextEndsAtBreak | pkg/channels/split.go:39-51 | text with no fence in reach is cut at the last line end of the 200 runes before the effective limit, else at the last blank of the 100 before it, else at the limit |
| Split.BufferIsReserved | pkg/channels/split.go:24-40 | what is held back for a closing fence: half of a limit below 100, 50 runes below 500, else a tenth |
| Split.ChunksAccount | pkg/channels/split.go:78-121 | ignoring white space, the concatenated chunks are the message with exactly one closing fence and one repeated fence line put in at each forced cut: nothing else is lost or added |
| Split.SeamsRepeatFenceLines | pkg/channels/split.go:67-121 | what is put in is always a closing fence followed by a fence line that stands in the message |
| Split.PlainTextIsKept | pkg/channels/split.go:131-136 | a message without fences is its chunks with only the skipped gaps between them, rune for rune |
| Split.GapsAreBlank | pkg/channels/split.go:131-136 | and those gaps hold nothing but blanks, tabs and line ends |
| Split.CutMakesProgress | pkg/channels/split.go:31-137 | every iteration, both restarts included, leaves strictly less text, and the text it leaves can be split again |
| Split.InnerEndIsLater | pkg/channels/split.go:79-90 | the better break sought inside a code block is never before the break first found, and leaves room for the closing fence |
| Split.ReopenedStaysSplittable | pkg/channels/split.go:91-121 | the condition on fence lines survives rewriting the remaining text behind a repeated fence line |
| Split.ReopenedFence | pkg/channels/split.go:91-121 | every fence of the rewritten text lies in the repeated line or was a fence of the old text |
| Split.HeaderIsTrimmedLine | pkg/channels/split.go:67-77 | the repeated fence line is the trimmed line of the open fence, or the bare backticks when that line has no end |
| Split.HeaderFitsLine | pkg/channels/split.go:67-77 | it is a prefix of that line, starts with a fence, and only white space of the line is left out |
| Split.SplittableTextEnds | pkg/channels/split.go:31-137 | the unguarded loop, as a sequence of rounds, comes to an end on every text meeting the condition, and on every text when the limit is below 5 |
| Split.OpenBlockNeverEnds | pkg/channels/split.go:109-121 | an iteration that begins at a block which no fence closes within the chunk, with a fence line of maxLen-6 runes or more and more than a chunk of text, is followed by others without end, whatever fences come later; for limits from 5 to 9 any fence line is that long |
| Split.LongFenceLineBlocks | pkg/channels/split.go:31-137 | a message is never finished once such an iteration is reached, after any number of rounds |
| Split.FenceLineLimitIsExact | pkg/channels/split.go:31-137 | with all other fence lines of at most maxLen-7 runes, such an iteration leads to an end if and only if its own fence line has at most maxLen-7 runes |
| Split.FindLastUnclosedCodeBlockInRange | pkg/channels/split.go:144-163 | the index scan finds the fence left open when fences are toggled in order, or -1 |
| Split.FindNextClosingCodeBlockInRange | pkg/channels/split.go:166-174 | the index after the first fence at or after the start, or -1 |
| Split.NextClosing | pkg/channels/split.go:166-174 | no fence at or after the start ends earlier |
| Split.FindNewlineFrom | pkg/channels/split.go:177-184 | the first line end at or after the index, or -1 |
| Split.FindLastNewlineInRange | pkg/channels/split.go:188-197 | the last line end within the search window, start-1 when there is none |
| Split.FindLastSpaceInRange | pkg/channels/split.go:200-208 | the last blank or tab within the search window, start-1 when there is none |
| Split.FindBlockCut | pkg/channels/split.go:56-125 | the decision for a block open at the first break: close it within the limit, cut before it, or cut inside it; which of them is settled by BlockIsKeptExactly, LongBlockIsSplit and LongBlockIsMoved |
| Split.FindCut | pkg/channels/split.go:39-129 | the decision for the next chunk: natural break, plain or forced cut |
| Split.SkipBlankRunes | pkg/channels/split.go:133-136 | the first rune after the chunk that is no blank, tab or line end |
| Transcript.SanitizeHistoryForProvider | pkg/agent/context.go:620-736 | the two loops compute the sanitised history; that it keeps what a turn writes is TurnLoop.TurnSurvives |
| Transcript.RunFirstPass | pkg/agent/context.go:625-680 | the first loop computes the first pass, which drops system messages, orphan tool messages and misplaced calls; that calls behind tool messages are not misplaced is TurnLoop.TurnSurvives |
| Transcript.RunSecondPass | pkg/agent/context.go:682-735 | the second loop drops every assistant call whose tool run misses an answer, with that run |
| Transcript.FindAnswers | pkg/agent/context.go:690-724 | the inner loop counts the tool run behind a call and decides whether it answers every id |
| Transcript.SanitizedIsWellFormed | pkg/agent/context.go:620-736 | for every history: no system message, every call answered in full by the tool run behind it, no other tool message, and every call behind a user or tool message |
| Transcript.SanitizedFixesExactlyWellFormed | pkg/agent/context.go:620-736 | a history is left unchanged if and only if it is well formed; a second pass over the result changes nothing |
| Transcript.SanitizedKeeps | pkg/agent/context.go:620-736 | the result is a subsequence that keeps every user message, plain assistant message and message of unknown role |
| Transcript.PairedMeans | pkg/agent/context.go:682-735 | the recursive pairing condition holds if and only if, position by position, calls and tool messages answer each other |
| Transcript.UserMessagesAreBarriers | pkg/agent/context.go:620-736 | what stands before a user message is sanitised independently of what follows |
| Transcript.WellFormedTurnSurvives | pkg/agent/context.go:620-736 | a well-formed turn starting with a user message survives unchanged behind any history; what turns are well formed is TurnLoop.TurnIsWellFormed |
| Transcript.FirstPassCleans | pkg/agent/context.go:625-680 | the first pass, which looks at the kept messages, is a one-step automaton on the role kept last |
| TurnLoop.RunAgentLoop | pkg/agent/loop.go:967-1072 | over a whole user turn: every list handed to the provider can be sent; the first is the system prompt, the sanitised history with all its user and plain assistant messages, and last the message, behind any finished background results, when it is not blank; up to the first context error each later list is the first and one round per answer; without context errors a finished turn adds the plain message, the rounds and the reply to the history, if nothing else writes the session meanwhile; a heartbeat turn leaves the history out of the first list |
| TurnLoop.RunLLMIteration | pkg/agent/loop.go:1131-1700 | over every sequence of replies: the lists handed over, the number of calls, the text returned, and the final session history if nothing else writes the session meanwhile |
| TurnLoop.CallWithRetries | pkg/agent/loop.go:1229-1310 | at most three calls, another one only after a timeout, which repeats the same list, or a context error, which compresses the history and rebuilds the list; an error is given up on after three calls or when it is of another kind |
| TurnLoop.AppendRound | pkg/agent/loop.go:1390-1694 | list and session both grow by the assistant message with its text and calls, and one tool message per call with that call's output |
| TurnLoop.Iterate | pkg/agent/loop.go:1146-1694 | one iteration: a call with its retries and, on tool calls, one round |
| TurnLoop.EveryListIsSendable | pkg/agent/loop.go:1146-1694 | in every sequence of replies, errors and compressions every list has one leading system message, all calls answered and no orphan tool message |
| TurnLoop.RespondKeepsSendable | pkg/agent/loop.go:1229-1310 | one reply of any kind keeps that |
| TurnLoop.BuiltIsSendable | pkg/agent/context.go:492-618 | the list built from any stored history can be sent |
| TurnLoop.BuiltIsFirstList | pkg/agent/context.go:492-618 | that list is the system prompt, the sanitised history and the text, left out only when it is blank; no user or plain assistant message of the history is missing |
| TurnLoop.TurnSurvives | pkg/agent/context.go:620-736 | what a turn has written, a user message and any number of rounds of calls, survives sanitising unchanged behind any history and at any point of the turn |
| TurnLoop.ConversationSurvives | pkg/agent/context.go:620-736 | and so does every conversation of finished turns, however many rounds each took |
| TurnLoop.TurnIsWellFormed | pkg/agent/loop.go:1390-1694 | a user message, any rounds and the reply, if it is there yet, are well formed |
| TurnLoop.HalvedKeeps | pkg/agent/loop.go:1972-2010 | emergency compression keeps the first message with a note behind it and the younger half, the last message included |
| TurnLoop.CompressedIsShorter | pkg/agent/loop.go:1930-2010 | histories of four or fewer are left alone; else the last message stays, and the history is left as it was exactly when the compactor has no result or keeps all of it |
| TurnLoop.RoundIsPaired | pkg/agent/loop.go:1390-1694 | the messages of one round of tool calls are a fully answered call |
| TurnLoop.HistoryGrowsByRounds | pkg/agent/loop.go:1629-1694 | without compression, list and stored history grow by the same rounds and a paired history stays paired |
| TurnLoop.RunAppendsRounds | pkg/agent/loop.go:1629-1694 | the list after any such replies is the list before, then one round per answer with calls |
| TurnLoop.Session.AddFullMessage | pkg/agent/loop.go:1420 | appends one message to the stored history |
| TurnLoop.Session.AddMessage | pkg/agent/loop.go:1022-1039 | appends a plain message of a role |
| TurnLoop.Session.SetHistory | pkg/agent/loop.go:1919 | replaces the stored history |
| TurnLoop.Session.ForceCompression | pkg/agent/loop.go:1871-1990 | without a compactor or when it fails: first message with a note, younger half, last message; else the kept tail; histories of four or fewer are left alone |
| PromptCache.UnchangedIsFreshExactly | pkg/agent/context.go:330-383 | coherence, exactly, with no assumption on edits, creations and removals during stats and reads: when the check is silent, every tracked file was read as it is now if and only if none was missing at its stat and there at its read; then the cached prompt is what a fresh build gives, and only then if the rendering tells contents apart |
| PromptCache.SourceIsFreshExactly | pkg/agent/context.go:365-383 | a source file found unchanged was read as it is now if and only if it did not appear between stat and read, and one that did is gone now |
| PromptCache.SkillIsFreshExactly | pkg/agent/context.go:394-449 | the same for a skill file that agrees with the snapshot |
| PromptCache.UnchangedIsFresh | pkg/agent/context.go:330-383 | so a silent check means a fresh prompt while no tracked file is created during the window; edits and removals may fall anywhere in it |
| PromptCache.UntouchedIsUnchanged | pkg/agent/context.go:330-383 | no false alarm: while no tracked path was touched since the window began, the check stays silent |
| PromptCache.TouchedIsNewer | pkg/agent/context.go:365-383 | a path touched between two instants carries a stamp later than everything seen before |
| PromptCache.CreatedDuringBuildGoesUnnoticed | pkg/agent/context.go:276-321 | the exception is reached: a file created between stat and read and removed again stays in the cached prompt, and the check is silent |
| PromptCache.VanishedMeanwhile | pkg/agent/context.go:365-383 | a file there at its stat and missing when its turn to be read came is always noticed |
| PromptCache.BaselineAfterBuildGoesStale | pkg/agent/context.go:204-216 | with the baseline taken after the build, an edit in between would go unnoticed |
| PromptCache.ContextBuilder.BuildSystemPromptWithCache | pkg/agent/context.go:183-221 | the cached prompt at the first or second silent look, a fresh build unless a tracked file appeared between stat and read; otherwise a new prompt with the baseline taken before it, whatever changes meanwhile |
| PromptCache.ContextBuilder.BuildCacheBaseline | pkg/agent/context.go:276-321 | existence flags, skill snapshot and latest stamp as seen by stats that other writes may interleave |
| PromptCache.ContextBuilder.BuildSystemPrompt | pkg/agent/context.go:137-181 | renders one read of every tracked file, each at its own instant; a skill file not listed counts as missing at the listing |
| PromptCache.ContextBuilder.SourceFilesChangedLocked | pkg/agent/context.go:330-363 | answers whether a tracked path appeared, vanished or is newer, or the skill tree differs; silent means the cached prompt is fresh, unless a tracked file appeared between stat and read |
| PromptCache.ContextBuilder.AnyWatchedChanged | pkg/agent/context.go:336-352 | some watched path differs from its existence flag or is newer than the baseline |
| PromptCache.ContextBuilder.SkillFilesChangedSince | pkg/agent/context.go:394-449 | some skill file is new, gone, or has another stamp than in the snapshot |
| PromptCache.ContextBuilder.StatWatched | pkg/agent/context.go:276-300 | the existence flag and stamp of each watched path at the instant of its stat |
| PromptCache.ContextBuilder.StatSkills | pkg/agent/context.go:300-321 | the stamp of each listed skill file at the instant of its stat, if it is still there, and the latest of all |
| PromptCache.ContextBuilder.InvalidateCache | pkg/agent/context.go:226-236 | clears prompt and baseline together |
| TaskQueue.InvStays | pkg/delegation/queue.go:40-123 | every interleaved step of submitters and workers, of either queue kind, keeps the invariant |
| TaskQueue.InvOnRuns | pkg/delegation/queue.go:233-337 | so it holds after every run |
| TaskQueue.SerialAndOnce | pkg/delegation/queue.go:85-123 | both queues: tasks of one lane never overlap, each is completed at most once, and accepted tasks are finished, in hand or queued, in that order |
| TaskQueue.RefusedOnlyWhenFull | pkg/delegation/queue.go:68-82 | a task sent to a lane holding fewer than a hundred waits behind them, else it is refused and nothing else changes |
| TaskQueue.LanesAreBounded | pkg/delegation/queue.go:68-82 | over any run no lane holds more than a hundred tasks |
| TaskQueue.NonEmptyLaneIsServed | pkg/delegation/queue.go:233-321 | priority queue: running is set if and only if the lane has a live worker, and a lane with tasks has one |
| TaskQueue.WorkerTakesOldestTask | pkg/delegation/queue.go:274-337 | each step of that worker takes the oldest task or comes strictly nearer to taking it: no task is stranded |
| TaskQueue.SessionQueueStrands | pkg/delegation/queue.go:56-82 | SessionQueue: a reachable state has a queued task, no worker and running cleared |
| TaskQueue.StrandedExactlyWhen | pkg/delegation/queue.go:56-123 | in every reachable state an event strands a lane if and only if it sends to the lane while running is cleared, or its worker returns over a task sent since it found the lane empty |
| TaskQueue.RescuedExactlyWhen | pkg/delegation/queue.go:60-66 | and an event ends that if and only if it is the check for a worker by the next Submit to the lane |
| TaskQueue.StrandedOnRuns | pkg/delegation/queue.go:56-123 | over every run a lane is stranded if and only if some event left it behind and no Submit to it came since |
| TaskQueue.OneWorkerCheck | pkg/delegation/queue.go:250-262 | starting a worker only when none is marked running keeps one worker per lane |
| TaskQueue.NotStrandedStep | pkg/delegation/queue.go:274-321 | a worker that returns has found its lane empty under the lock |
| Outbound.PublishedIsConserved | pkg/channels/manager.go:549-591 | in every interleaving, what was published to a channel is what it handled, then its worker, its queue, the dispatcher in flight and its share of the bus |
| Outbound.ChunksGoOutInOrder | pkg/channels/manager.go:459-485 | sends carry the chunks of the published messages in publish order, chunk by chunk, each at most four times; what the chunks of a message are is HandledIsAccounted |
| Outbound.HandledIsAccounted | pkg/channels/manager.go:459-485 | in every reachable state the chunks settled for each handled message are its text when that fits, else non-empty parts within the limit that make up the text, white space and the seams at repeated fence lines aside |
| Outbound.SendsRespectLimit | pkg/channels/manager.go:471-477 | in every reachable state no send on a channel with a limit is longer than it |
| Outbound.SettledForAReason | pkg/channels/manager.go:492-547 | no chunk is given up early: each settled one was edited into a placeholder, sent, refused for good, or tried four times; and only a send that failed in passing is repeated |
| Outbound.QueuedIsSplittable | pkg/channels/manager.go:459-485 | a queued message is one the splitter terminates on |
| Outbound.InvStays | pkg/channels/manager.go:459-591 | every step of publisher, dispatcher and workers keeps order and chunk accounting |
| Outbound.InvOnRuns | pkg/bus/bus.go:61-87 | so they hold after every run from empty queues |
| Outbound.EverythingIsHandled | pkg/channels/manager.go:459-591 | once publishing stops, every schedule of dispatcher and workers comes to rest within a bounded number of steps, and rests if and only if bus and dispatcher are empty and every channel has handled all that was published to it |
| Outbound.RestsExactlyWhenDrained | pkg/channels/manager.go:459-591 | in every reachable state some dispatcher or worker step is enabled, unless everything published is handled: no deadlock on full queues |
| Outbound.StepLowers | pkg/channels/manager.go:459-591 | each such step, a retry included, lowers the number of steps left |
| Outbound.TryKeeps | pkg/channels/manager.go:492-547 | success, permanent failure and retry keep the position in the chunk stream |
| Tokens.EstimateTokens | pkg/compactor/tokens.go:35-55 | the counting loop and its rounding give (3a + 8c + 6) / 12 for a other and c CJK runes |
| Tokens.EstimateRoundsToNearest | pkg/compactor/tokens.go:54 | the estimate is the nearest whole number, below the sum exactly when less than half a token is over |
| Tokens.TruncateToTokenBudget | pkg/compactor/tokens.go:68-132 | the truncation of the specification, terminating for every text and budget of at least zero |
| Tokens.TruncatedFits | pkg/compactor/tokens.go:68-132 | the result is a prefix within the budget, and the whole text if and only if that fits |
| Tokens.TruncatedEndsAtBreak | pkg/compactor/tokens.go:99-128 | text over budget is cut right in front of a break, unless there is none behind the middle, in bytes, of what is kept otherwise |
| Tokens.CjkTextKeepsAllowance | pkg/compactor/tokens.go:88-106 | text of CJK runes over budget keeps three runes for two tokens |
| Tokens.TrimmedFits | pkg/compactor/tokens.go:108-129 | the trimming loop ends within the budget, on a prefix |
| Tokens.Shorter | pkg/compactor/tokens.go:108-129 | each round leaves at least one rune less, word-boundary cut included |
| Tokens.SingleByteTextKeepsHalf | pkg/compactor/tokens.go:88-106 | single-byte text over budget keeps between two and four runes per token, and all four when it has no break |
| Tokens.PrefixIsNoHeavier | pkg/compactor/tokens.go:35-55 | a prefix is never estimated higher |
| Tokens.CutWithin | pkg/compactor/tokens.go:94-129 | the first cut and the trimming loop |
| Tokens.TrimOnce | pkg/compactor/tokens.go:109-128 | one round of the loop |
| Tokens.CutAtBreak | pkg/compactor/tokens.go:99-106 | cuts at the later of the last line end and the last blank, if that is past the middle in bytes |
| Tiers.BuildTierFromPriority | pkg/compactor/tiers.go:101-161 | filtering, scoring, greedy selection and re-sorting give the tier of the specification, for any sorted permutation the sort returns |
| Tiers.GenerateTiers | pkg/compactor/tiers.go:77-92 | truncates to L2 and derives L1 from L2 and L0 from L1 |
| Tiers.KeptFits | pkg/compactor/tiers.go:131-143 | the estimates of the kept lines sum to at most the budget |
| Tiers.NothingMoreFits | pkg/compactor/tiers.go:131-143 | a dropped line does not fit beside the kept lines that score at least as high, nor beside all kept lines |
| Tiers.TierLines | pkg/compactor/tiers.go:145-160 | splitting the tier again gives back the kept lines, a subsequence of the non-blank lines of the text in their order |
| Tiers.TierNearBudget | pkg/compactor/tiers.go:101-161 | the joined text of n lines is estimated at no more than the budget plus (8n + 3) / 12 |
| Tiers.TierIsStable | pkg/compactor/tiers.go:101-161 | building a tier from a tier with no smaller a budget changes nothing |
| Tiers.TiersNest | pkg/compactor/tiers.go:77-92 | the lines of L0 are a subsequence of those of L1, and those of L2; L2 is a prefix of the summary within its budget |
| Tiers.TiersCollapse | pkg/compactor/tiers.go:77-92 | with a budget for L0 no smaller than for L1 the two are the same |
| Tiers.SplitOfJoin | pkg/compactor/tiers.go:103-109 | splitting into lines undoes joining them |
| Tiers.SelectLines | pkg/compactor/tiers.go:131-143 | the greedy loop with its running total |
| Tiers.NonEmptyLines | pkg/compactor/tiers.go:103-109 | the non-blank lines of the text |
| Tiers.HasTextMeans | pkg/compactor/tiers.go:105-108 | a line counts as blank if and only if it holds white space only |
| Tiers.ScoreLines | pkg/compactor/tiers.go:115-123 | each line with its score and index |
| Dedup.JaccardSimilarity | pkg/compactor/dedup.go:48-71 | the loop over the smaller set gives shared over all shingles |
| Dedup.JaccardMeans | pkg/compactor/dedup.go:48-71 | symmetric, 1 exactly on equal non-empty sets, 0 exactly on disjoint ones |
| Dedup.JaccardTriangle | pkg/compactor/dedup.go:48-71 | 1 minus the similarity obeys the triangle inequality |
| Dedup.SurvivorMeans | pkg/compactor/dedup.go:113-134 | a message stays if and only if it is below the threshold to every later one |
| Dedup.DeduplicateMessages | pkg/compactor/dedup.go:92-147 | drops a message if and only if a later one is at least threshold-similar; the count is the length difference |
| Dedup.DeduplicateMessagesParallel | pkg/compactor/dedup.go:151-214 | the same result, whatever order the goroutines finish in |
| Dedup.DeduplicatedGuarantees | pkg/compactor/dedup.go:92-147 | a subsequence that keeps the last message, has no similar pair left, and is unchanged by a second run |
| Dedup.DeduplicatedSnoc | pkg/compactor/dedup.go:113-134 | a new message stays and drives out exactly the kept messages similar to it |
| Dedup.DroppedReachSurvivor | pkg/compactor/dedup.go:113-134 | every dropped message reaches a survivor by a chain of similar later messages |
| Dedup.ChainIsNeeded | pkg/compactor/dedup.go:113-134 | a dropped message may have no similar message in the result |
| Dedup.DropEarlier | pkg/compactor/dedup.go:110-147 | marking and filtering; the dropped map is never yet set for a later index |
| Dedup.FindTwin | pkg/compactor/dedup.go:117-133 | some later message is at least threshold-similar |
| Compaction.CoverageOfRun | pkg/agent/loop.go:1815-1990 | over any run of appends and compactions, with anything between the beginning and the end of a compaction, every appended message is in the history or in a summary throughout, if and only if no event loses one |
| Compaction.LostExactlyWhen | pkg/agent/loop.go:1815-1990 | at every step, for every message: lost are messages of no summary that a compaction did not read, when it writes back, and the older half, when a forced one has no summary; regained are lost ones that a compaction had read |
| Compaction.LostOnRuns | pkg/agent/loop.go:1815-1990 | over every run a message is lost if and only if some event lost it and none since regained it |
| Compaction.AppendedMeanwhileIsLost | pkg/agent/loop.go:1823-1843 | a compaction with only appends in between that writes back loses exactly the messages appended in between |
| Compaction.SuccessfulRunsLoseNothing | pkg/agent/loop.go:1930-1968 | with nothing in between and every forced summary written, no appended message is ever lost |
| Compaction.TailMeetsRange | pkg/compactor/compactor.go:107-119 | the kept tail meets the summarised range, whether a state is stored or not |
| Compaction.FailedSummaryLoses | pkg/agent/loop.go:1939-1945 | a first forced compaction whose summary fails loses messages if and only if the history has more than four |
| Compaction.SummarisedIsRemoved | pkg/compactor/compactor.go:107-119 | once a state is stored, exactly the messages not kept of a longer history are summarised: none goes into two summaries |
| Compaction.SummaryIsStored | pkg/compactor/compactor.go:170-227 | the stored index is reset exactly when a summary was made and could be stored |
| Compaction.InvStays | pkg/agent/loop.go:1815-1990 | every message of the history, and of what a compaction has read, is the appended message it stands for, in order and once, but for the note of an emergency compression |
| Compaction.Agent.BeginCompaction | pkg/agent/loop.go:1823-1830 | reads the history, unless a compaction of the kind is under way or a forced one finds four messages or fewer |
| Compaction.Agent.Summarise | pkg/compactor/compactor.go:96-227 | the range that is pre-compressed, the reset index and the kept count |
| Compaction.Agent.EndCompaction | pkg/agent/loop.go:1832-1851 | writes the tail of what was read over the history, or halves the history when a forced summary failed |
| Compaction.Agent.AddMessage | pkg/agent/loop.go:1022-1039 | an append |
| Compaction.Agent.constructor | pkg/compactor/compactor.go:57-76 | an unset kept count becomes ten |
| Consolidation.MergeOutcome | pkg/adaptive_memory/consolidation.go:114-168 | for any creation times: exactly the surviving records stay, each with the importance its last merge gave it; nothing else changes; the count is the number deleted and the number of times a row gave way again |
| Consolidation.CountIsExact | pkg/adaptive_memory/consolidation.go:114-168 | the count is the number deleted if and only if no row gives way to two records made at its own time; else it is larger |
| Consolidation.SurvivorsAreApart | pkg/adaptive_memory/consolidation.go:123-162 | survivors are pairwise at or below the threshold, whatever the creation times |
| Consolidation.MergeFollowsThreshold | pkg/adaptive_memory/consolidation.go:123-162 | a record that stays is at or below the threshold with every newer one that does; one that goes is above it with a newer one that stays, unless a row gave way |
| Consolidation.MergeRaises | pkg/adaptive_memory/consolidation.go:137-155 | the newer of two merged records gains exactly a fifth of the older importance, up to 1 |
| Consolidation.DatedNeverTie | pkg/adaptive_memory/consolidation.go:137-141 | when records too similar to each other differ in creation time no row gives way |
| Consolidation.MergeIsSound | pkg/adaptive_memory/consolidation.go:114-168 | every deleted record is above the threshold with a strictly newer record that survives, if and only if no row gives way to a record made at its own time; the count is then the number deleted |
| Consolidation.TiesAreMiscounted | pkg/adaptive_memory/consolidation.go:137-161 | the smallest case of a wrong count: of three similar records made at the same time two are deleted but three are counted |
| Consolidation.ImportancesStayInRange | pkg/adaptive_memory/consolidation.go:28-54 | over any number of consolidations an importance that starts in [0.1, 1] stays there while its record is kept |
| Consolidation.LeavesOnlyByMerge | pkg/adaptive_memory/consolidation.go:28-54 | such a record only ever leaves in a merge, for a newer, similar one that stays unless a row of that merge gives way to a record made at its own time, while the pruning limit is at most 0.1 |
| Consolidation.ConsolidationKeepsRange | pkg/adaptive_memory/consolidation.go:28-54 | one consolidation, whatever it merges, keeps importances in range and prunes no record of importance 0.1 or more |
| Consolidation.DecayStaysInRange | pkg/adaptive_memory/consolidation.go:67-77 | decay keeps [0.1, 1] if and only if its factor is at most 1 |
| Consolidation.DecayFadesUnused | pkg/adaptive_memory/consolidation.go:56-86 | decay lowers an importance if and only if it is above 0.1 and the record of that user was not accessed for longer than the cutoff; nothing else of any record changes |
| Consolidation.FadesGeometrically | pkg/adaptive_memory/consolidation.go:67-77 | fading n times gives the n-th power of the factor, or 0.1 when that is less |
| Consolidation.PruneDeletesExactly | pkg/adaptive_memory/consolidation.go:89-111 | a record is pruned if and only if it is the user's, less important, no more often accessed and older than the limits; all others stay as they are |
| Consolidation.PruneSpares | pkg/adaptive_memory/consolidation.go:89-111 | a record of importance 0.1 or more is not pruned while the limit is at most 0.1 |
| Consolidation.FetchFromQuery | pkg/adaptive_memory/consolidation.go:116 | the newest thousand records of the user, newest first |
| Consolidation.Consolidator.Consolidate | pkg/adaptive_memory/consolidation.go:28-54 | decay, then prune, then merge on the store as it then is |
| Consolidation.Consolidator.DecayOldMemories | pkg/adaptive_memory/consolidation.go:56-86 | the decayed store and the number of records rewritten |
| Consolidation.Consolidator.PruneMemories | pkg/adaptive_memory/consolidation.go:89-111 | the pruned store and the number of records deleted |
| Consolidation.Consolidator.MergeSimilarMemories | pkg/adaptive_memory/consolidation.go:114-168 | the nested loops with the merged map and counter, for any fetch and any creation times |
| Consolidation.Consolidator.MergePair | pkg/adaptive_memory/consolidation.go:129-162 | one comparison: of a similar pair the older goes and the newer gains a fifth of its importance, at most 1 |
| Consolidation.Consolidator.GetByUser | pkg/adaptive_memory/consolidation.go:116 | the fetch, with records of equal age in any order |
| Consolidation.Consolidator.Select | pkg/adaptive_memory/store.go:406-450 | the records matching a query, each once |
| Lifecycle.ActiveWithinLimit | pkg/delegation/lifecycle.go:28-73 | with a limit of at least one, every sequence of calls keeps each user within it |
| Lifecycle.LimitBelowOneIsExceeded | pkg/delegation/lifecycle.go:35-40 | with a smaller limit the first Create already exceeds it |
| Lifecycle.DismissedIsFinal | pkg/delegation/lifecycle.go:147-214 | a dismissed agent is never active or suspended again, whatever is called |
| Lifecycle.RatesStayFractions | pkg/delegation/lifecycle.go:243-278 | over any run every success rate stays in [0, 1] |
| Lifecycle.ResultsMoveRate | pkg/delegation/lifecycle.go:243-278 | a success raises the rate, to at least 0.2, and never dismisses; a failure lowers it |
| Lifecycle.SuccessesAddUp | pkg/delegation/lifecycle.go:243-290 | over any run, an agent with n recorded successes and no failure is gone or has a rate of at least 1 minus the n-th power of 0.8, whatever else is called |
| Lifecycle.StatusChanges | pkg/delegation/lifecycle.go:28-290 | for each call, exactly which agents change status and to what |
| Lifecycle.RemovedExactly | pkg/delegation/lifecycle.go:217-240 | an agent goes only by a Kill, or by a cleanup when it was dismissed before the cutoff |
| Lifecycle.CreateAdds | pkg/delegation/lifecycle.go:28-73 | a Create adds the agent as active and, exactly at the limit, dismisses one active agent, idle for no less time than any other |
| Lifecycle.EightFailuresDismiss | pkg/delegation/lifecycle.go:243-290 | eight failed results with no success among them leave an agent dismissed or gone, whatever came before or in between |
| Lifecycle.SevenMayNotDismiss | pkg/delegation/lifecycle.go:279-287 | seven need not: an agent with a perfect rate survives them |
| Lifecycle.LifecycleManager.CreateAgent | pkg/delegation/lifecycle.go:28-73 | at the limit the active agent idle for longest is dismissed first; then the new agent is stored |
| Lifecycle.LifecycleManager.DismissOldestInactive | pkg/delegation/lifecycle.go:310-324 | picks an agent last active no later than any other active one and dismisses it; nothing on an empty list |
| Lifecycle.LifecycleManager.SuspendAgent | pkg/delegation/lifecycle.go:115-144 | only an active agent is suspended |
| Lifecycle.LifecycleManager.DismissAgent | pkg/delegation/lifecycle.go:147-172 | an existing agent becomes dismissed |
| Lifecycle.LifecycleManager.ReviveAgent | pkg/delegation/lifecycle.go:175-214 | only a suspended agent, and only below the limit, becomes active |
| Lifecycle.LifecycleManager.KillAgent | pkg/delegation/lifecycle.go:217-240 | the agent is removed |
| Lifecycle.LifecycleManager.RecordTaskResult | pkg/delegation/lifecycle.go:243-290 | the moving average, the task count, and dismissal decided by the old count and the new rate |
| Lifecycle.LifecycleManager.GetActiveSubAgents | pkg/delegation/store.go:227-265 | the active agents of a user, each once |
| Cron.AtStartsOnce | pkg/cron/service.go:135-264 | over any run, restarts included, the handler of an "at" job starts at most once and never before its time |
| Cron.EveryIsSpaced | pkg/cron/service.go:135-264 | over any run, with EnableJob calls at any moment, the starts of an "every" job are at least its interval apart |
| Cron.RecurringIsScheduled | pkg/cron/service.go:135-310 | over any run, every enabled job with a positive interval, or an expression that has ticks, is running, found due, or has a next run; with an interval at most that far ahead of the clock |
| Cron.ScheduledStep | pkg/cron/service.go:266-310 | each event keeps that, and a next run it sets is exactly an interval after it, or the first tick after it |
| Cron.AtIsScheduled | pkg/cron/service.go:135-310 | over any run an enabled "at" job has exactly its time as next run if that was ahead when it was last added, enabled or recomputed at a restart and it was not found due since, and none otherwise |
| Cron.DueIsTaken | pkg/cron/service.go:135-175 | a check finds due exactly the enabled jobs whose next run has come |
| Cron.DueIsStarted | pkg/cron/service.go:135-196 | a job found due has been started once the loop has taken more steps than lie before its turn, if it was not removed and the service not restarted meanwhile |
| Cron.LoopComesNearer | pkg/cron/service.go:135-196 | each step of the loop brings it nearer to its start, or starts it |
| Cron.LoopGoesOn | pkg/cron/service.go:135-196 | and while a job is found due such a step can be taken |
| Cron.FinishRecords | pkg/cron/service.go:211-264 | start and outcome are recorded; an "at" job is gone if it was marked so, else off |
| Cron.MarksStay | pkg/cron/service.go:363-404 | exactly "at" jobs are marked for deletion when added, and the mark stays; a job switched off has no next run |
| Cron.InvOnRuns | pkg/cron/service.go:135-310 | the invariants behind both hold after every run |
| Cron.AtStep | pkg/cron/service.go:177-264 | once found due an "at" job is never scheduled again |
| Cron.EveryStep | pkg/cron/service.go:266-310 | the next run of an idle, enabled "every" job is at least its interval after its last start |
| Cron.ComputeNextRun | pkg/cron/service.go:266-300 | a next run is in the future: the given time, or now plus the interval; that there is one when there should be is RecurringIsScheduled and AtIsScheduled |
| Cron.CronService.CheckJobs | pkg/cron/service.go:135-175 | the due jobs are collected once each and their next run cleared |
| Cron.CronService.CollectDue | pkg/cron/service.go:145-151 | the enabled jobs whose next run has come |
| Cron.CronService.BeginExecution | pkg/cron/service.go:177-196 | the copy of the job, or nothing when it was removed |
| Cron.CronService.FinishExecution | pkg/cron/service.go:211-264 | last run and status; "at" jobs are deleted or disabled, others rescheduled |
| Cron.CronService.AddJob | pkg/cron/service.go:363-404 | a new enabled job, marked for deletion after its run when it is an "at" job |
| Cron.CronService.EnableJob | pkg/cron/service.go:447-471 | enabling recomputes the next run, disabling clears it |
| Cron.CronService.RemoveJob | pkg/cron/service.go:420-445 | the job is gone; whether it was there |
| Cron.CronService.RecomputeNextRuns | pkg/cron/service.go:302-310 | the next run of every enabled job is computed anew |
| MergePatch.MergeIsMergePatch | pkg/api/config.go:139-153 | the merge is the MergePatch of section 2 of RFC 7396 if and only if no patch object holding a null lies over a missing or non-object target |
| MergePatch.MergeIsIdempotent | pkg/api/config.go:139-153 | merging the same patch again changes nothing if and only if the same condition holds |
| MergePatch.UnmentionedStays | pkg/api/config.go:139-153 | every path the patch does not mention keeps its value, for every patch |
| MergePatch.ScalarsAreSet | pkg/api/config.go:149-151 | every scalar of the patch is at its path in the result |
| MergePatch.NullsAreRemoved | pkg/api/config.go:141-144 | a patch meeting the condition leaves nothing at the paths where it holds a null |
| MergePatch.NullMaySurvive | pkg/api/config.go:149-151 | every patch not meeting the condition puts one of its nulls into the configuration, at a path where the patch holds it |
| MergePatch.CleanMeansNullsDelete | pkg/api/config.go:139-153 | the condition holds if and only if nothing is left at any path where the patch holds a null |
| MergePatch.PatchedOntoNothing | pkg/api/config.go:149-151 | the standard applied to a missing target gives the patch itself if and only if it holds no null |
| MergeInPlace.MergeMap | pkg/api/config.go:139-153 | the recursion over decoded objects on the heap, in any key order and in place, leaves the destination showing the merge and changes nothing outside it |
| MergeInPlace.MergeKey | pkg/api/config.go:140-152 | one key: delete, recurse or overwrite |
| MergeInPlace.MergeStep | pkg/api/config.go:140-152 | one key leaves the entries and nodes of all others as they were |

## Left out

- Regular-expression pre-compression rules, task classification and learning detectors: they reach the model as arbitrary inputs.
- Balance of fences inside each chunk: a fence marker straddling a hard cut is seen by neither scanner, so it does not hold.
- The exact set of messages the splitter never finishes: the fence-line limit is exact at a block not closed within its chunk; with a longer line in a block that is closed there, and below a limit of 10 with such blocks only, what happens is open.
- SessionQueue.Clear, StopAll, UnregisterChannel, closing the bus, a second cron loop after Stop and Start, and the janitor: shutdown races.
- Untracked inputs of the system prompt: adaptive memory, daily notes, learning data and the dynamic context.
- A cache check spread over several instants: file-system access during one check is a single instant.
- Image messages, reasoning details, streaming, fallback models and cancellation in the turn loop; tool outputs are arbitrary text.
- Summaries set by a compaction: only the history matters to later lists.
- Byte-level UTF-8, float rounding and 64-bit overflow of millisecond times.
- The order of the cron job list: due jobs run in any order. Handler start is the moment its start time is read.
- Store errors in consolidation and in the sub-agent store: each is a silent skip or an early return.
- Emitted events, logs and metrics.
- Sub-agent labels, prompts, keywords and reuse scoring; the second clock reading inside one call.
- Media messages: their dispatcher and workers have the same shape as those for text.
- API handlers, configuration tables, provider migration, commands, friends and devices: plumbing.
- Dedup.DroppedReachSurvivor: the chain is the strongest statement; a directly similar survivor need not exist.
- MergeInPlace.MergeMap: requires that the two decoded trees share no node, as decoding gives; afterwards they share the grafted parts.
