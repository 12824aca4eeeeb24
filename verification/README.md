# Verification of the context manager's core

A Dafny model of the parts of `acm` that must not lose or repeat work, with proofs
of what they promise. It covers six areas.

* **The compaction engine over its store** (`Core`, `Dag`, `Window`, `Folds`, `Rebuild`,
  `Protocol`, `History`, `Lossless`, `Accounting`, `Shape`, `Texts`, `Sqlite`, `Compact`). Messages form an
  append-only log; a pass folds spans of its window into leaf summaries and runs of summaries into
  condensed ones, and replaces the persisted window at its end. Several processes append and compact
  at once without a lock and may die anywhere, so losslessness is an invariant over all
  interleavings. The engine's own loops (`Compact`) are imperative and run with arbitrary activity of
  other processes between any two transactions; a ghost run of the protocol accompanies the tables,
  and a pass's own part of it is proved to be begin, read, its folds, and persist.
* **The fresh tail** (`FreshTail`, `Recent`, `TailProtocol`): the engine and automatic recall
  compute the protected messages in two different ways and agree in every run.
* **Recovery and reporting** (`Expand`, `Recover`, `Assemble`, `Coverage`).
* **The size guard and the token counter** (`Tokens`, `Guard`, `Config`).
* **The resumable map runner** (`MapItem`, `MapPool`, `MapResume`, `MapOutcome`, `MapRunner`): one
  producer, workers, a bounded channel, an error slot and durable item files as interleaved steps
  with crash and restart, refined by the code for one item and for the output.
* **Capture and recall** (`Messages`, `Ingest`, `Transcript`, `Backfill`, `Recall`).

## Conventions

* A derived ID is a datatype constructor over exactly the parts the source hashes: hashes are
  taken to be injective. Conversation IDs are the agent's name and the session.
* Whatever the environment decides is a parameter or an arbitrary argument of a step: the
  summarizer's answers (they may differ for equal requests), a message's source text, the score of
  a hit, the processor's answers, disk failures, cancellation.
* `OthersAct` and `Interference` stand for other processes. Their bodies do nothing, but callers see
  only the contract, which every run of other processes meets (`History.OthersLeavePass`, and for
  the message table any sequence of appends).
* Ghost arguments and results (the protocol pass a fold belongs to, the folds a pass made, where a
  request's appends are in the history of all, the steps a worker took) only serve the statements.
* `hide` in a proof only keeps definitions the proof does not need from the solver.
* Integers are unbounded; token counts, positions and attempts stay far below 64 bits. Text is a
  sequence of characters, one per rune.

Where comments and code of the repository differ, the model follows the code, and two documented
properties come with a failing input and the exact condition under which they hold. A leaf block is
not always capped at the leaf chunk size, since the message that reaches it is included
(internal/engine/engine.go:435-453): `Window.BlockCanExceedChunk`, `Window.BlockWithinChunk`. A
summary is not always smaller than its input, since the truncation is accepted whatever its size
(internal/engine/engine.go:373-401): `Guard.FallbackCanGrow`, `Guard.AlwaysSmallerExactly`.

## Model

| member | source | states |
|---|---|---|
| Lossless.Lossless | internal/engine/engine.go:138-243 | In every state reachable by any interleaving of appends, concurrent passes and deaths, whoever persisted last: the rebuilt window tiles the log and expands, in order, to exactly the whole log; so does every pass in flight for the prefix it covers. The summarizer's texts and sizes are arbitrary. |
| Protocol.StepKeepsOk | internal/engine/engine.go:138-243 | Each step of each process keeps the store, the persisted window and every other pass's window valid, and never rewrites what is stored. |
| Protocol.RunKeepsOk | internal/engine/engine.go:138-243 | The same over whole runs; the store only grows. |
| Lossless.EverySummaryRecovers | internal/engine/assemble.go:131-176 | Every summary ever stored, orphans of dead passes included, recovers exactly the messages earliest..latest, as many as its descendant count. |
| Lossless.RecoveryIsPermanent | internal/store/sqlite_dag.go:28-126 | Whatever runs later, a stored summary recovers the same messages. |
| Lossless.PassCanProceed | internal/engine/engine.go:149-173 | No pass is ever stuck: it can read, fold or persist. |
| History.OthersLeavePass | internal/engine/engine.go:138-243 | What a pass may rely on between two of its transactions: any run of other processes keeps the store valid and growing, leaves the pass where it stood and adds nothing to its own actions. |
| Rebuild.ItemsRoundTrip | internal/engine/engine.go:237-243 | A window written as references and read back is the same window. |
| Rebuild.ExtendedOk | internal/engine/engine.go:225-234 | Appending the messages after the last persisted position makes the window reach the end of the log, each message once. |
| Dag.PutLeafKeepsStore | internal/store/sqlite_dag.go:28-75 | Insert-if-absent of a leaf keeps every row invariant; a row already there under the derived ID stays as it is and covers the same span, a new one says exactly the given text, token count and number of sources. |
| Dag.PutCondensedKeepsStore | internal/store/sqlite_dag.go:79-126 | The same for a condensed summary over adjacent children of one depth. |
| Dag.AppendKeepsStore | internal/store/sqlite_core.go:177-203 | Appending a new message keeps every stored row valid. |
| Dag.ChainDescendants | internal/engine/engine.go:281-293 | The descendant counts of adjacent same-depth summaries add up to the length of their joint span. |
| Folds.LeafFoldKeepsOk | internal/engine/engine.go:245-279 | Folding a block of raw messages keeps store and window valid and covers the same messages, also when another pass stored the summary first. |
| Folds.CondensedFoldKeepsOk | internal/engine/engine.go:281-315 | The same for condensing a run; the new item is one level deeper. |
| Window.FoldKeepsTiles | internal/engine/engine.go:484-490 | Replacing adjacent items by one over their joint range keeps ranges starting at 1, abutting and not overlapping. |
| Sqlite.Database.GetMessage | internal/store/sqlite_core.go:222-232 | Loads the message stored under an ID, if any. |
| Sqlite.Database.MessagesAfter | internal/store/sqlite_core.go:235-260 | Exactly the messages beyond a position, in order. |
| Sqlite.Database.CreateLeafSummary | internal/store/sqlite_dag.go:28-75 | One transaction, and only if the derived ID is absent: a row with exactly the given text, token count and span, as many sources as messages, at depth 0, its links and its search row; every other row stays. If the ID is there, nothing changes. Returns the row that is stored. |
| Sqlite.Database.CreateCondensedSummary | internal/store/sqlite_dag.go:79-126 | The same for a condensed row, with the given depth and as many sources as children. |
| Sqlite.Database.LinkedMessages | internal/store/sqlite_dag.go:262-284 | The leaf's linked messages in position order. |
| Sqlite.Database.LinkedChildren | internal/store/sqlite_dag.go:288-310 | The linked children, each once, by earliest position. |
| Sqlite.Database.ReplaceContextItems | internal/store/sqlite_dag.go:340-361 | The window becomes the given items, in order. |
| Compact.Compactor.BuildWindow | internal/engine/engine.go:194-235 | While other processes act between queries: never fails, and returns the items persisted at the start extended to the end of the log as last read; the result is a valid window, and a compacting pass has begun and read in the run. |
| Compact.Compactor.MakeLeaf | internal/engine/engine.go:245-279 | Its one write is the protocol's leaf fold on the valid store it met, whatever happened meanwhile, recorded as the pass's next step of the run. Unless the row was there, it is left with the guard's text, token count and the block's length as its source count, and the new item carries the stored count. Text and size are the guard's answer to the block's source texts, in order. It fails exactly when a source text does or the guard does, with that error, and then the pass stands where it stood. |
| Compact.Compactor.MakeCondensed | internal/engine/engine.go:281-315 | Its one write is the protocol's condensed fold on the valid store it met, recorded as the pass's next step of the run. Unless the row was there, it is left with the guard's text and token count, and the new item carries the stored count; text and size are the guard's answer to the contents of the run's summaries. It fails exactly when the guard does, with that error, and then the pass stands where it stood. |
| Texts.BlockTextsAre | internal/engine/engine.go:245-261 | The texts a leaf is written from are the source texts of the block's messages, one for each and in order; the failure is the first one's. |
| Texts.LeafAnswersEscalate | internal/engine/engine.go:261-264 | What a leaf is written with is the escalation over the block's texts at depth 0, with the leaf target and the truncation limit; a failed text fails the leaf. |
| Texts.RunAnswersEscalate | internal/engine/engine.go:281-300 | The same for a condensed summary: the children's contents, one level above the run, with the condensed target. |
| Texts.LeafAnswersSized | internal/engine/engine.go:245-279 | What a leaf is written with is smaller than the block's source texts, or sized like the truncation. |
| Texts.RunAnswersSized | internal/engine/engine.go:281-315 | The same for a condensed summary, towards its children's contents. |
| Compact.Compactor.FoldOnce | internal/engine/engine.go:153-172 | One iteration is exactly one step of the run, the protocol's next fold (first block, else first run) on a valid store, written and stored as the guard answered, or none where the protocol allows a stop, with exact effects on message and summary counts; an error is a source text's or the guard's. |
| Compact.Compactor.Persist | internal/engine/engine.go:237-243 | The persisted items become the pass's window and read back as it; it is the pass's last step of the run. |
| Compact.Compactor.CompactWindow | internal/engine/engine.go:138-188 | A whole pass among other processes, as a refinement: the tables stay the state of a run of the protocol, to which the pass itself adds exactly begin, read, its folds, and persist, or death after an error. Its folds replay from the window it read; fold k is written with the guard's answer to the texts it stands for under call numbers first + 2k, and its row says so in the end unless it was there before. It folds only while over the soft budget or archiving, and condenses only same-depth runs below the maximum depth that fit the cap. On success it covers the same messages, persists its last window, and has stopped within the budget, at the last iteration, or with only the tail raw and no such run left; its counts obey summaries = initial + leaves - (fanout-1)*condensed with leaves at most the initial raw messages. A failed pass's error is that of the protocol's next fold: a source text's or the guard's. An invalid policy changes nothing. |
| Compact.WindowTotal | internal/engine/engine.go:405-411 | The sum of the items' tokens. |
| Compact.NextRun | internal/engine/engine.go:163-172 | With no block left, the run to condense is the protocol's, and finding none means the loop may stop. |
| Window.ProtectedSet | internal/engine/engine.go:415-429 | Exactly the conversational messages whose newer conversational messages leave one of the two floors open; that is the newest raw messages that are not tool results, as few as meet both floors, or all there are. |
| Window.FindMessageBlock | internal/engine/engine.go:437-455 | The block starts at the least foldable item and extends until the first item that is not foldable or the message that reaches the chunk size; none is reported only if nothing is foldable. |
| Window.MessageBlockUnique | internal/engine/engine.go:437-455 | The rule names one block at most. |
| Window.BlockWithinChunk | internal/engine/engine.go:435-453 | The block fits the chunk exactly when its whole run of foldable messages is smaller than the chunk or some prefix of the run adds up to it exactly. |
| Window.BlockCanExceedChunk | internal/engine/engine.go:435-453 | Two messages of six tokens are one block of twelve under a chunk of eight. |
| Window.CondenseRun | internal/engine/engine.go:459-481 | The least start of exactly `fanout` adjacent same-depth summaries below the maximum depth within the token cap; none is reported only if there is none. |
| Accounting.FoldDecreases | internal/engine/engine.go:149-173 | Every fold lowers messages plus items of the window. |
| Accounting.FoldsAreBounded | internal/engine/engine.go:149-173 | Without the iteration cap folding still ends: whatever else runs, a pass folds at most as often as its window has messages plus items. |
| Accounting.ReplaceCounts | internal/engine/engine.go:484-490 | How a fold changes the number of messages and summaries. |
| Accounting.PersistThenRebuild | internal/engine/engine.go:194-243 | Persisting and rebuilding gives the same window, then the newer messages. |
| Accounting.SecondPassFoldsNothing | internal/engine/engine.go:124-136 | After a pass that stopped with iterations left and no new message, a second pass of the same kind folds nothing and rewrites the same items. |
| TailProtocol.EngineAndRecallAgree | internal/engine/engine.go:413-429 | In every run under one tail policy the engine protects, in the rebuilt window and in every pass in flight, exactly the messages recall's query computes from the full log. |
| TailProtocol.FoldKeepsProtected | internal/engine/engine.go:437-481 | No fold of a pass changes which messages are protected. |
| TailProtocol.ArchiveLeavesTail | internal/engine/engine.go:132-136 | An archive pass that ends with iterations to spare leaves exactly the fresh tail raw. |
| TailProtocol.StepKeepsTail | internal/engine/engine.go:138-243 | Every step of every process keeps the log's fresh tail raw in every window. |
| FreshTail.TailAgrees | internal/engine/engine.go:413-433 | A raw item is protected in a compacted window if and only if its message is in the tail of the log the window covers. |
| FreshTail.FoldKeepsRawTail | internal/engine/engine.go:153-160 | A fold of unprotected messages keeps the tail raw. |
| Recent.RecentConversationalMessageIDs | internal/store/sqlite_core.go:262-295 | The IDs of the log's fresh tail, newest first, cut at the row cap; an error exactly for limits out of range. |
| Recent.TailIsNewestFirst | internal/store/sqlite_core.go:268-290 | The tail's IDs are those of messages of the log that are not tool results, from the newest to the oldest. |
| Shape.WindowsStayOrdered | internal/engine/engine.go:149-173 | In a run without tool messages in which any `fanout` adjacent same-depth summaries of a pass's window fit its condense chunk: every window has summaries before messages with non-increasing depth, and a pass out of folds leaves at most fanout-1 summaries at each depth below the maximum. |
| Shape.LeafKeepsOrdered | internal/engine/engine.go:437-455 | A leaf fold keeps that order. |
| Shape.CondensedKeepsOrdered | internal/engine/engine.go:457-481 | A condensation keeps that order when adjacent runs fit. |
| Shape.FewPerDepth | internal/engine/engine.go:457-481 | In an ordered window whose adjacent runs fit and with no run left, at most fanout-1 summaries share a depth below the maximum. |
| Shape.SmallSummariesFit | internal/engine/engine.go:457-481 | Adjacent runs fit in particular when no summary exceeds a fanout-th of the chunk. |
| Tokens.Count | internal/tokens/tokens.go:13-42 | The larger of the two estimates, over the characters and words of the text. |
| Tokens.CountMonotoneSubadditive | internal/tokens/tokens.go:13-42 | Appending text never lowers the count and never costs more than counting the parts. |
| Tokens.WordsBound | internal/tokens/tokens.go:24-36 | A text has at most half as many words as characters, rounded up. |
| Guard.SummarizeWithGuard | internal/engine/engine.go:373-401 | The escalation for an arbitrary summarizer, as requests and answers: the full target is asked for first and a text smaller than the input is returned as it is, with its own count; only otherwise half the target, at least the truncation limit, is asked for; only if that is no smaller either, the joined input is returned, whole or cut to size with a mark; a failing request fails the whole with its own error. The result is strictly smaller than the input, or the fallback of at most (8*truncate+6)/3 tokens that exceeds the input by at most ceil((k-1)/4) for k sources when nothing is cut. |
| Guard.JoinedWhole | internal/engine/engine.go:399-399 | The joined input holds each source whole, in order, one line break between two. |
| Guard.AlwaysSmallerExactly | internal/engine/engine.go:373-401 | Over all summarizers: every result is strictly smaller than the input if and only if the truncation of the joined sources is. |
| Guard.FallbackCanGrow | internal/engine/engine.go:373-401 | Two sources of two tokens each, joined and within the limit, cost five tokens. |
| Guard.TruncationBound | internal/engine/engine.go:492-499 | The fallback's token bound for every text. |
| Guard.TruncationBoundAttained | internal/engine/engine.go:492-499 | For every limit some text costs exactly that bound. |
| Guard.JoinBound | internal/engine/engine.go:399-400 | Joining k sources by newlines costs at most ceil((k-1)/4) tokens more than the sources. |
| Config.ValidExactly | internal/engine/config.go:14-70 | The checks accept exactly the policies inside all limits. |
| Config.SoftBudgetInside | internal/engine/config.go:36-53 | Under an accepted policy the soft budget is the whole part of the soft fraction of the model's context; it exceeds both summary targets and stays below the context. |
| Expand.ExpansionIsSpan | internal/engine/assemble.go:131-176 | The walk beneath a stored summary yields exactly its span of the log; it ends because a child's depth is one less than its parent's. |
| Expand.ChildListingUnique | internal/store/sqlite_dag.go:288-310 | The ordered children query has one possible answer: the children in the order they were folded. |
| Expand.LeafMessages | internal/store/sqlite_dag.go:262-284 | A leaf's links are exactly its span of the log. |
| Recover.Walk.Descend | internal/engine/assemble.go:137-166 | The recursive walk with its shared `seen` and `out`, other processes acting between queries: it appends exactly the unseen messages of the summary's span, and fails exactly for a missing summary. |
| Recover.ExpandToMessages | internal/engine/assemble.go:131-176 | Full recovery: the verbatim messages of the span, each once, in order, as many as the row counts; an error exactly when there is no such summary. |
| Recover.SortedUnique | internal/engine/assemble.go:174-174 | Where positions differ, any sort by position gives the same list. |
| Assemble.AssembleWindow | internal/engine/assemble.go:30-74 | While other processes act, the view is of the items persisted at the start and the messages logged after them up to some later moment, each shown with its stored content; the coverage report on it is clean, represented messages equal the messages seen, and its positions are 1..n once each. |
| Assemble.AssembleItem | internal/engine/assemble.go:41-83 | A shown item has its window item's range, depth, role and stored tokens, shows the message or the rendered summary, and represents as many messages as its range has. |
| Coverage.SequenceCoverage | internal/cli/window.go:116-128 | Gaps and overlaps of neighbours; complete exactly when the items, in order, show each position from the first to the last once. |
| Coverage.CompleteIsPartition | internal/cli/window.go:116-128 | The same equivalence as a fact about the two reports. |
| Coverage.GapsAreListed | internal/cli/window.go:118-123 | For any items: one gap per item that starts beyond the position after its predecessor, in order, and it is the positions between the two. |
| Coverage.OverlapsAreListed | internal/cli/window.go:124-126 | For any items: one overlap per item that starts no later than its predecessor ends, in order, from that start to the first end of the two. |
| Coverage.GapsAreMissed | internal/cli/window.go:118-126 | When neither end of the items moves back, the gaps are exactly the positions between first and last that no item shows. |
| Coverage.OverlapsAreShownTwice | internal/cli/window.go:118-126 | Then the overlaps are exactly the positions two items show. |
| Coverage.BuildWindowBreakdown | internal/cli/window.go:92-114 | The report's totals are the accumulated ones, with the gaps, overlaps and completeness of the items. |
| Coverage.SubtotalsAddUp | internal/cli/window.go:97-111 | Raw plus summary tokens equal the rendered total; the role map sums to the raw tokens and the depth map to the summary tokens. |
| Coverage.TotalsAreTotals | internal/cli/window.go:97-103 | Stored, rendered, represented and offload totals are sums over the items. |
| Coverage.EntriesAreTotals | internal/cli/window.go:104-110 | Each role's and each depth's entry is the total of its own items. |
| MapPool.PoolInvariant | internal/llmmap/llmmap.go:406-480 | In every reachable state, through errors, cancellation and crashes: inFlight is the buffered items plus the items workers hold plus at most one of the producer's, it and its peak are at most 2*concurrency+1, and unless the run is over some step of the program can be taken. |
| MapPool.NoStuckState | internal/llmmap/llmmap.go:422-480 | No deadlock, including after worker errors, cancellation and workers that reached their own item limit. |
| MapPool.StepKeepsCounts | internal/llmmap/llmmap.go:422-480 | Each step keeps the in-flight accounting. |
| MapPool.PeakIsHighest | internal/llmmap/llmmap.go:427-428 | The peak is raised exactly to what a producer counted in flight when it added its item, and never lowered before a restart. |
| MapPool.StepKeepsSignals | internal/llmmap/llmmap.go:438-480 | Each step keeps what makes blocking safe: a filled error slot cancels, and workers leave only for a reason. |
| MapPool.RunsEnd | internal/llmmap/llmmap.go:391-480 | Between two crashes a run takes a bounded number of steps. |
| MapPool.StepCostsLess | internal/llmmap/llmmap.go:422-507 | Every step other than a restart strictly lowers a cost. |
| MapResume.CallsAreBounded | internal/llmmap/llmmap.go:159-161 | Over any crashes, cancellations and restarts: calls per item are at most the attempts in its file, those at most maxAttempts, all calls at most items times maxAttempts, and so within a positive limit that was checked. |
| MapResume.SettledIsFinal | internal/llmmap/llmmap.go:482-538 | Attempts never go down and a terminal state is never rewritten. |
| MapResume.StepKeepsOwners | internal/llmmap/llmmap.go:422-538 | Each step keeps single ownership of an item, the order of the channel, and the relation between a worker's memory and the item's file. |
| MapOutcome.SuccessSettlesAll | internal/llmmap/llmmap.go:446-462 | A pool that finishes without error leaves a durable terminal state for every item, so the missing-terminal-state error of the assembly cannot occur. |
| MapOutcome.SameAsSequential | internal/llmmap/llmmap.go:464-538 | With crashes only outside an attempt's pre-save/post-save interval and a processor that is a function of item, attempt and feedback, a run that succeeds leaves each item exactly as an uninterrupted sequential run, under any schedule and any concurrency of each restart. |
| MapOutcome.ActionKeepsCourse | internal/llmmap/llmmap.go:464-538 | Each lossless step keeps every item heading for its sequential outcome. |
| MapItem.FinalIsFirstSuccess | internal/llmmap/llmmap.go:482-507 | The sequential outcome is the first good attempt's, every attempt before it having failed with the feedback its predecessors left, or a failure after exactly maxAttempts failed ones with the last feedback. |
| MapRunner.ResumableWork | internal/llmmap/llmmap.go:522-538 | A settled item is skipped, any other queued with the attempts and feedback of its file. |
| MapRunner.Mapper.Attempt | internal/llmmap/llmmap.go:488-503 | One attempt: saved before the call, feedback saved after a bad answer; each a worker step of the pool, at increasing moments, with the disk's and the processor's own answer at its moment. Only an answer within the length limit that the validator passes completes the item, unchanged; any other becomes feedback, cut to the bound: the processor's error, or what is wrong with its output. |
| MapRunner.Mapper.ProcessOne | internal/llmmap/llmmap.go:482-507 | The attempt loop takes exactly the pool's worker steps, each with what the context, the disk or the processor says at its moment, touching only its own item's file. Completed, its output is within the limit, passed by the validator, and what the processor gave at that attempt; failed, it used every attempt and has no output; it gives up an unsettled item only if it saw the context done. |
| MapRunner.Mapper.Turn | internal/llmmap/llmmap.go:470-478 | A turn of the worker's loop ends with a save, which failed exactly when the turn reports an error, and with the item released, unsettled without one only if the context was done; the file only grows. |
| MapRunner.StepIsPools | internal/llmmap/llmmap.go:482-507 | A step of such a walk that saw the pool's cancel flag is an enabled step of the pool and moves that worker and that file, and nothing else, as the walk does. |
| MapRunner.OthersLeaveWorker | internal/llmmap/llmmap.go:422-480 | While a worker holds an item, nothing the producer and the other workers do, in any number of steps, moves it or touches the item's file. |
| MapRunner.WalkIsRun | internal/llmmap/llmmap.go:464-507 | Whatever the producer and the other workers do between its steps, a walk is part of a run of the pool and ends with the worker and its file where the walk ends. |
| MapRunner.WalkReachesFinal | internal/llmmap/llmmap.go:482-507 | Left alone, a worker on a file that is on course settles the item as the sequential run does. |
| MapRunner.AssembleOutput | internal/llmmap/llmmap.go:540-574 | Published exactly when every item is settled: one line per item in index order, with its output, error and attempts, and ok exactly when it completed; succeeded counts the completed items, and succeeded plus failed equal the total. Otherwise nothing. |
| Recall.RankRecall | internal/agents/recall.go:141-168 | The hits picked are those of the greedy choice, in the order picked, at most the limit and at most ten. |
| Recall.BestRecallIndex | internal/agents/recall.go:197-206 | Of the hits still open under the quotas, one with the highest score, the earliest of those; or none is open. |
| Recall.GreedyIsStableOrder | internal/agents/recall.go:141-206 | The picks are what one walk over the hits in stable descending score order keeps under the quotas. |
| Recall.GreedyIsOptimal | internal/agents/recall.go:141-213 | Every quota-respecting selection is at most as large, and one of the same size has at most the picks' total score. |
| Recall.MessageRecallHits | internal/agents/recall.go:109-124 | Exactly the found messages outside the excluded tail, in order, with their search ranks. |
| Messages.MessageTable.AppendMessage | internal/store/sqlite_core.go:151-219 | One transaction: an identity already stored is returned untouched; otherwise a row saying what was sent, under the sender's identity and the conversation's next position, and an index row are added. |
| Messages.SameIdentity | internal/core/ids.go:42-54 | Two messages of a conversation are the same exactly when they share their source ID; without one, their raw event, however equal their texts; without either, role and text. |
| Messages.AppendAllKeepsOk | internal/store/sqlite_core.go:151-219 | After any sequence of appends by any processes: positions are 1..n per conversation, identities distinct, one index row per message saying the same. |
| Messages.FirstContentWins | internal/store/sqlite_core.go:151-219 | An identity is stored if and only if it was sent, with the content it was first sent with. |
| Messages.ReplayWritesNothing | internal/store/sqlite_core.go:164-175 | Replaying stored messages in any order writes nothing. |
| Messages.EngineMayAppend | internal/store/sqlite_core.go:177-203 | A new message's append is an enabled step of the compaction protocol over its conversation's log. |
| Ingest.Service.Ingest | internal/core/service.go:94-156 | Among other processes: exactly which requests fail; on success appended counts the messages whose identity had no row when they were appended, tokens are theirs, appended, deduped and excluded add up to the request, excluded and redacted are what the policy decided, and every admitted message is sent with its own fields and the count of its text, and stored; on an invalid role exactly the messages before it are sent, and stored. |
| Ingest.Service.AppendMessages | internal/core/service.go:126-151 | The loop stops at the first invalid role, keeping what came before: each message sent has its own role, text, tool name, source ID and raw event and the count of its text; they are in the history of all processes in order, are stored, and are counted as appended when their identity had no row then. |
| Ingest.ReplayAppendsNothing | internal/core/service.go:126-151 | A request whose messages were all stored before it appends nothing, whatever others do meanwhile. |
| Ingest.Apply | internal/privacy/policy.go:65-88 | The messages kept are, in order, exactly those the policy does not exclude, each with its role, tool name and source ID and with the two texts the redaction gave for it; excluded counts the others, redacted those kept whose text or raw event changed. The first message whose redaction fails rejects the request with that error. A session that is not captured excludes every message. |
| Ingest.FilterKeeps | internal/privacy/policy.go:70-87 | The same correspondence, message by message, for the filtered request. |
| Ingest.FilterFailsFirst | internal/privacy/policy.go:78-81 | Filtering fails exactly when some message that is not excluded cannot be redacted, with the error of the first. |
| Ingest.FilterCounts | internal/privacy/policy.go:70-87 | Kept plus excluded equal the request's messages. |
| Ingest.ConversationIdInjective | internal/core/ids.go:14-19 | Different recognized agents or sessions are named differently, in the pair's encoding that stands for its hash. |
| Transcript.ReconcileTranscript | internal/agents/transcript.go:76-120 | The messages emitted are, in order and once each, those a declarative reading of the event list calls for, up to the line limit, each with the whole text of the event it stands for and that event's or its turn's ID; the lines that do not decode are counted. |
| Transcript.CodexState.Consume | internal/agents/transcript.go:215-261 | The two fields track the pending text and the open turn of the events read; a message is emitted exactly when one is due. |
| Transcript.CodexState.Finish | internal/agents/transcript.go:268-279 | Emits the pending text under the open turn's ID and clears both, or does nothing. |
| Transcript.OneMessagePerStart | internal/agents/transcript.go:232-279 | Two emissions never have the same open turn. |
| Transcript.EmissionOfTurn | internal/agents/transcript.go:268-279 | A message emitted under a start carries its turn ID, when it has one, else the text event's own ID; it says what the last text event since the start says. |
| Transcript.EmissionAlone | internal/agents/transcript.go:268-303 | Without an open turn a message carries the text event's own ID, or the hash of its line when it has none. |
| Transcript.SpokenMore | internal/agents/transcript.go:292-301 | What an event says: one part more adds a line break and the part, or nothing when the part is empty. |
| Transcript.PartsAreSpoken | internal/agents/transcript.go:282-301 | The parts the code keeps and joins are exactly that text; it is empty exactly when all parts are. |
| Transcript.StartIsAnswered | internal/agents/transcript.go:232-279 | A start gets its message exactly when its turn says something that a completion or the end of the file follows before another start. |
| Transcript.EmissionsAreKeyed | internal/agents/transcript.go:268-303 | Every emitted message is the assistant's, non-empty and has a source ID. |
| Backfill.MissingTranscriptMessages | internal/cli/backfill.go:188-203 | Exactly the candidates whose ID neither an assistant message of the conversation nor an earlier candidate has, in the order of the candidates. |
| Backfill.BackfillFixedPoint | internal/cli/backfill.go:120-144 | After one backfill the same rollouts have nothing missing if and only if no missing candidate's ID was held by a message that is not the assistant's. |
| Backfill.FixedPointAmongOthers | internal/cli/backfill.go:120-144 | Whoever else writes, once every missing ID has a row the same rollouts have nothing missing if and only if none of those rows is another role's. |
| Backfill.LetThroughIsSent | internal/cli/backfill.go:138-143 | A policy that captures the session and excludes none of the missing sends each under its own role and ID. |
| Backfill.BackfillConversation | internal/cli/backfill.go:120-144 | A dry run and one with nothing missing write nothing; otherwise it fails exactly when the request is rejected, reports as appended what had no row, and stores all admitted missing messages. When the policy lets them through, the table it leaves has nothing missing exactly when no other role holds a missing ID, and, when nobody else wrote meanwhile, exactly when none held one. |

## Left out

- The SQL engine, its driver, migrations and timestamps: a transaction is atomic, and tables are sequences, maps and sets.
- Full-text ranking, snippets and the score of a recall hit (lower-casing, recency): the score is an arbitrary function of the hit.
- Language-model summarizers, subprocesses, offloading of large messages and the exploration summaries: a message's source text is an arbitrary function that may fail.
- The privacy policy's globs, regular expressions and JSON walking: exclusion and redaction are fixed functions.
- JSON decoding of transcripts, hooks and map inputs, validity of JSON outputs (part of the validator), UTF-8 repair, file modes, fsync and temporary files; a file is replaced whole or not at all.
- The JSONL scanner's line and byte limits, the input snapshot and the manifest comparison: a resumed run is taken to be the same run, with a concurrency of its own.
- Two map runs sharing one state directory at the same time, and removal of the state directory.
- The Claude transcript format, rollout lookup and compression; only the Codex turn machine is modelled.
- Prune, pin, doctor, backup, install, the command line and the OpenCode plugin.
- The wrapping of a summary as a pseudo-message and the search for the offload marker are arbitrary functions of the row and the text.
- One-level expansion and query filtering over a summary: they add nothing beyond the walk.
- The engine is modelled for one conversation, since every query it makes is keyed by it; `Messages.EngineMayAppend` ties the table of all conversations to it.
- The soft and hard fractions are reals, and the hard threshold, which only logs a warning, is not used.
- Recover.SortByPosition: stands for the library sort, of which only order and permutation are used.
- MapOutcome.SameAsSequential: says nothing after a crash between the save before a call and the save after it, where the attempt is spent and its feedback lost.
- Backfill.BackfillFixedPoint: the table is not changed by others between the scan and the writes; Backfill.FixedPointAmongOthers reads the condition in the resulting table instead.
