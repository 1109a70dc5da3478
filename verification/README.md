# Verification of the knowledge system's core algorithms and protocols

This project models five parts of the knowledge system and proves what they promise, for all inputs, all runs and
all interleavings.

1. **Document chunking.** Blocks in reading order become a section tree built with a stack of mutable nodes
   (`DocumentModel`, `Outline`, `OutlineFacts`, `TreeFacts`, `TreeBuilder`). The tree is walked into units
   (`TreeWalk`, `TreeOrder`), units are packed greedily into parent chunks (`ParentChunks`), oversized paragraphs
   are cut by sentences and their tokens shared out (`Paragraphs`), and parents are cut into overlapping children
   (`ChildChunks`, `ChunkedDocument`, `ChildTexts`). The mutable builder is proved equal to an outline of values,
   and the outline is proved to meet a definition that mentions no stack: the parent of a section is the nearest
   earlier heading of smaller level.
2. **The task event stream.** The server prints an event stream (sections 9.2.5 and 9.2.6 of the WHATWG HTML Living
   Standard, as far as the code goes); the client decodes it from arbitrary chunks (`SseParser`, `SseDecoder`,
   `SseStream`) and feeds a reducer and a reconnecting client (`TaskStream`). Where the incremental decoder and the
   whole-text parser agree is settled in `SseAgreement`.
3. **The task transactions.** The tables are one value with their constraints (`TaskModel`, `TaskStatus`). Goal
   completion, plan activation, creation and cancellation are decisions and commits on it (`GoalCompletion`,
   `PlanActivation`, `TaskLifecycle`). The methods of `TaskStore` work on a session's copy, flush by flush, and
   commit all or nothing. Runs mix these with any transaction of the rest of the system that keeps to what
   `TaskRuns.OthersMay` says (`TaskRuns`, `TaskCancellation`, `TaskReplays`, `TaskEffects`). Idempotent creation is
   three separate transactions that interleave (`TaskCreation`).
4. **Leases, permits and the audit log.** Outbox rows claimed under a lease and fenced by the claim id (`Outbox`,
   `OutboxEffects`), the one-shot egress permit (`EgressPermits`), and the hash-chained log (`AuditChain`).
5. **Ranking and ordering.** Memory recall through bounded queries per scope (`MemoryRecall`, `RecallSources`), the
   reading order of a page (`ReadingOrder`), and the merging of problem regions (`RegionPlan`).

`Seqs` and `Sorting` hold shared sequence facts and a stable insertion sort that stands for `sorted` and `ORDER BY`.

Given from outside, as function or value parameters: hash functions, title and text normalisation, sentence
boundaries, word splitting, JSON values and JavaScript's `Number`, the clock, row locks held by other transactions, and
failures of constraints outside the modelled tables. Uniqueness of hashes is never assumed: the statements say "unless
two of the inputs hashed here collide".

Where code and documentation differ, the model follows the code:

- The documentation of `build_document_tree` speaks of logical nodes for skipped levels; the code only records the warning.
- Regions that merely touch are not merged, although the documentation of the region plan says so.
- An oversized paragraph without any text keeps one empty piece and loses its tokens.
- With a repeated column in `column_order`, an unlisted column can come before a listed one.
- A goal write set may itself carry a TASK_CANCELLED event.
- A `connect` with an older cursor puts the client's cursor behind its state.

## Model

| member | source | states |
|---|---|---|
| DocumentModel.ReadingSequenceMeaning | server/src/knowledge_system/modules/knowledge/domain/chunking.py:314-318 | The traversal order: every block of the document as often as it occurs, pages by number and blocks of a page by reading order |
| OutlineFacts.MostRecentMeaning | server/src/knowledge_system/modules/knowledge/domain/chunking.py:354-383 | The reference definition of "most recent heading": a heading before `n` with no heading in between, or none at all |
| OutlineFacts.NearestMeaning | server/src/knowledge_system/modules/knowledge/domain/chunking.py:359-373 | The reference definition of a section's parent: the latest earlier heading of strictly smaller level, or none |
| OutlineFacts.PopFinds | server/src/knowledge_system/modules/knowledge/domain/chunking.py:359-360 | Popping the stack while levels are not smaller leaves exactly the nearest earlier heading of smaller level on top, and a stack that is again a chain of such headings |
| OutlineFacts.FlushKeeps | server/src/knowledge_system/modules/knowledge/domain/chunking.py:326-343 | Closing the pending run of atomic blocks: the group node holds a maximal run and sits under the most recent heading; everything else keeps its meaning |
| OutlineFacts.HeadingSkips | server/src/knowledge_system/modules/knowledge/domain/chunking.py:361-364 | A heading adds a skip warning exactly when its level is more than one above its parent's, with those two levels |
| OutlineFacts.ReadHeading | server/src/knowledge_system/modules/knowledge/domain/chunking.py:354-383 | Reading a heading keeps the whole outline invariant: its parent is the nearest smaller heading, its path the parent's path plus its title, and the stack becomes its chain of ancestors |
| OutlineFacts.ReadUnderHeading | server/src/knowledge_system/modules/knowledge/domain/chunking.py:404-408 | Running text after the first heading is added to the section of the most recent heading and to no other |
| OutlineFacts.ReadPreamble | server/src/knowledge_system/modules/knowledge/domain/chunking.py:389-403 | Running text before every heading is added to the virtual section of its page |
| OutlineFacts.ReadFirstOfPage | server/src/knowledge_system/modules/knowledge/domain/chunking.py:389-403 | The first running text of a page without headings opens that page's virtual section |
| OutlineFacts.RunKeeps | server/src/knowledge_system/modules/knowledge/domain/chunking.py:345-409 | After every prefix of every document the stack-driven outline meets the definition entry by entry: sections, atomic groups, virtual pages, references, header/footer list and warnings |
| TreeFacts.CompleteHolds | server/src/knowledge_system/modules/knowledge/domain/chunking.py:306-428 | The finished outline holds every block that is neither heading nor header/footer exactly as often as the document does, and nothing else |
| TreeFacts.CompleteFaithful | server/src/knowledge_system/modules/knowledge/domain/chunking.py:306-428 | The finished outline is what the definition calls for: one section per heading, parents nearest smaller, maximal atomic runs, warnings exactly for skipped levels, header/footer blocks set aside in order |
| TreeFacts.FrozenBranches | server/src/knowledge_system/modules/knowledge/domain/chunking.py:286-296 | In the frozen tree, levels strictly increase down every branch and each child section's path extends its parent's by one title |
| TreeBuilder.Builder.AttachAtRoot | server/src/knowledge_system/modules/knowledge/domain/chunking.py:299-303 | Appending to the root list of mutable nodes is one more root of the outline, every node staying in place |
| TreeBuilder.Builder.AttachUnder | server/src/knowledge_system/modules/knowledge/domain/chunking.py:299-303 | Appending to a node's children list is one more child of that outline entry, every other node staying in place |
| TreeBuilder.Builder.FlushAtomic | server/src/knowledge_system/modules/knowledge/domain/chunking.py:326-343 | The closure over `atomic_buf` does to the mutable nodes what closing the run does to the outline |
| TreeBuilder.Builder.PopStack | server/src/knowledge_system/modules/knowledge/domain/chunking.py:359-360 | The popping loop over the mutable stack |
| TreeBuilder.Builder.ReadHeading | server/src/knowledge_system/modules/knowledge/domain/chunking.py:354-383 | The heading branch on the mutable nodes: pop, note a skip, attach a section, push it |
| TreeBuilder.Builder.ReadBody | server/src/knowledge_system/modules/knowledge/domain/chunking.py:388-408 | The running-text branch on the mutable nodes |
| TreeBuilder.Builder.ReadBlock | server/src/knowledge_system/modules/knowledge/domain/chunking.py:345-409 | One turn of the traversal loop on the mutable nodes is one step of the outline |
| TreeBuilder.Builder.AddReferences | server/src/knowledge_system/modules/knowledge/domain/chunking.py:411-422 | The closing reference section, when there are reference blocks |
| TreeBuilder.CollectBlocks | server/src/knowledge_system/modules/knowledge/domain/chunking.py:314-318 | The nested loops collect exactly the reading sequence |
| TreeBuilder.BuildDocumentTree | server/src/knowledge_system/modules/knowledge/domain/chunking.py:306-428 | The mutable tree freezes to the outline of the reading sequence, header/footer ids and warnings included |
| TreeWalk.UnitsNonempty | server/src/knowledge_system/modules/knowledge/domain/chunking.py:431-443 | Every unit of the walk has blocks |
| TreeWalk.SubtreeSum | server/src/knowledge_system/modules/knowledge/domain/chunking.py:431-443 | A subtree's units hold its node's own blocks and those of its children, once each |
| TreeWalk.UnitsHoldDocument | server/src/knowledge_system/modules/knowledge/domain/chunking.py:431-443 | The units of the finished tree hold every indexed block as often as the document does |
| TreeOrder.CompleteOrdered | server/src/knowledge_system/modules/knowledge/domain/chunking.py:345-422 | Entries are made in document order, by the position of their heading or first block, and between an entry and its parent stand only entries of that parent or below |
| TreeOrder.UnitsInOrder | server/src/knowledge_system/modules/knowledge/domain/chunking.py:431-443 | Laid end to end, the block lists of the units are those of the entries in document order, a section's own text before anything below it, references last |
| TreeOrder.SectionLevels | server/src/knowledge_system/modules/knowledge/domain/chunking.py:261-272 | A title is the section of level 0 and has no parent; a heading has the level it states, at least 1, or 1 when it states none |
| ParentChunks.GroupedPartitions | server/src/knowledge_system/modules/knowledge/domain/chunking.py:446-464 | The groups are a contiguous partition into non-empty groups, each within `max_tokens` or a single block |
| ParentChunks.GreedyAhead | server/src/knowledge_system/modules/knowledge/domain/chunking.py:446-464 | Against any such partition the greedy one has fewer groups, or as many and a last group that is no longer |
| ParentChunks.GreedyOptimal | server/src/knowledge_system/modules/knowledge/domain/chunking.py:446-464 | No contiguous partition meeting the same bound has fewer groups |
| ParentChunks.SplitGroups | server/src/knowledge_system/modules/knowledge/domain/chunking.py:446-464 | The accumulator loop computes that partition, is optimal, and fails exactly on a block missing from the table |
| ParentChunks.CreateParentChunks | server/src/knowledge_system/modules/knowledge/domain/chunking.py:490-512 | Succeeds exactly when every block of the tree is known, and then makes one parent per group of each unit |
| ParentChunks.ParentsCover | server/src/knowledge_system/modules/knowledge/domain/chunking.py:467-512 | Laid end to end, the parents' block lists are the units' block lists |
| ParentChunks.ParentsOk | server/src/knowledge_system/modules/knowledge/domain/chunking.py:467-487 | Each parent: non-empty blocks of one unit, that unit's path and pages, the texts of its blocks line by line, the path as context prefix, the sum of the tokens within the limit or one block, and an id that hashes exactly path and blocks |
| ParentChunks.ParentIdsDistinct | server/src/knowledge_system/modules/knowledge/domain/chunking.py:206-223 | Parents of distinct blocks have distinct ids unless the hash collides on two of the keys hashed here |
| Paragraphs.RoundMeaning | server/src/knowledge_system/modules/knowledge/domain/chunking.py:533-544 | Python's `round`: a nearest integer, and at an exact half the even one |
| Paragraphs.PiecesPartition | server/src/knowledge_system/modules/knowledge/domain/chunking.py:515-545 | The pieces are the sentences in order, and a piece of two or more sentences has an estimate strictly below `max_tokens` |
| Paragraphs.EstimatesAddUp | server/src/knowledge_system/modules/knowledge/domain/chunking.py:525-545 | The estimates add up to the total within half a token per piece if and only if there is text to share it out over or nothing to share; empty text loses all its tokens |
| Paragraphs.SplitLargeParagraph | server/src/knowledge_system/modules/knowledge/domain/chunking.py:515-545 | The accumulator loop computes those pieces, joined by blanks, with their estimates |
| ChildChunks.ChunkChildren | server/src/knowledge_system/modules/knowledge/domain/chunking.py:559-624 | The loop with its running draft computes the drafts and builds the children with overlap |
| ChildChunks.DraftsCollapse | server/src/knowledge_system/modules/knowledge/domain/chunking.py:594-624 | With runs of pieces of one oversized block collapsed, the references are the parent's block list in order |
| ChildChunks.DraftSizes | server/src/knowledge_system/modules/knowledge/domain/chunking.py:594-624 | A draft is within the child limit or is a single oversized block |
| ChildChunks.DraftMentions | server/src/knowledge_system/modules/knowledge/domain/chunking.py:594-624 | Every block is referred to by as many drafts as it has pieces |
| ChunkedDocument.CreateChildChunks | server/src/knowledge_system/modules/knowledge/domain/chunking.py:627-639 | The children of all parents in order, blocks missing from the table skipped |
| ChunkedDocument.BuiltChild | server/src/knowledge_system/modules/knowledge/domain/chunking.py:570-593 | Child `i`: its draft's references, its text after the overlap tail of the child before, tokens larger by at most the overlap, and an id that hashes its place, references and text |
| ChunkedDocument.ChildrenCoverParent | server/src/knowledge_system/modules/knowledge/domain/chunking.py:559-624 | For every parent, the children's references collapse to its block list in order |
| ChunkedDocument.ChildrenMention | server/src/knowledge_system/modules/knowledge/domain/chunking.py:594-624 | Each block of a parent occurs in its children once per piece; an atomic or small one in exactly one child |
| ChunkedDocument.ChildSizes | server/src/knowledge_system/modules/knowledge/domain/chunking.py:559-624 | A child of several blocks has at most the child limit plus the overlap |
| ChildTexts.ChildSays | server/src/knowledge_system/modules/knowledge/domain/chunking.py:559-639 | Every child of every parent, over the block table alone: behind the tail it repeats it says the texts of the blocks it refers to, line by line, with the sum of their tokens; or, of a paragraph over the limit, one piece of its sentences with its share of the tokens |
| ChildTexts.CutInRow | server/src/knowledge_system/modules/knowledge/domain/chunking.py:609-616 | A paragraph over the limit comes out whole: its pieces cut all its sentences in order, no piece could have taken the next sentence, and one child after the other says one piece after the other |
| ChildTexts.ChildrenArePacked | server/src/knowledge_system/modules/knowledge/domain/chunking.py:602-606 | Unless its block is over the limit, no child could have taken in the first block of the next child |
| ChildTexts.TailMeaning | server/src/knowledge_system/modules/knowledge/domain/chunking.py:548-556 | The overlap is the last `n` words of the text before, or its last `n` characters when it has fewer words |
| ChunkedDocument.ChildIdsDistinct | server/src/knowledge_system/modules/knowledge/domain/chunking.py:226-244 | All child ids are distinct unless the hash collides on two of the keys hashed here |
| ChunkedDocument.DocumentPartition | server/src/knowledge_system/modules/knowledge/domain/chunking.py:306-512 | For every document with unique block ids: each body block is in the parents' lists exactly once, headings and all others never, and header/footer ids are listed exactly once |
| ChunkedDocument.ExactlyOneParent | server/src/knowledge_system/modules/knowledge/domain/chunking.py:490-512 | Each body block lies in exactly one parent, exactly once |
| ChunkedDocument.DocumentIdsDistinct | server/src/knowledge_system/modules/knowledge/domain/chunking.py:206-244 | All parent ids and all child ids of a document are pairwise distinct, unless the hash collides on its own inputs |
| SseParser.ParseSseStream | desktop/src/renderer/shared/api/sse.ts:34-81 | The loop over lines with its five variables equals a fold over the normalised lines |
| SseParser.FoldConcat | desktop/src/renderer/shared/api/sse.ts:50-76 | Parsing two runs of lines one after the other is parsing them together |
| SseDecoder.SseStreamDecoder.Push | desktop/src/renderer/browserAdapter.ts:39-50 | Returns the frames of all blocks that the buffer plus the chunk completes, and keeps exactly the rest |
| SseDecoder.SseStreamDecoder.Flush | desktop/src/renderer/browserAdapter.ts:53-58 | Returns the frames of the unfinished rest and empties the buffer |
| SseDecoder.SseStreamDecoder.DecodeAll | desktop/src/renderer/browserAdapter.ts:88-91 | All pushes, then the flush |
| SseDecoder.NormalizeInParts | desktop/src/renderer/browserAdapter.ts:40-41 | Newlines may be normalised chunk by chunk when no CR stands directly before a CR LF |
| SseDecoder.InPartsExactlyWhen | desktop/src/renderer/browserAdapter.ts:40-41 | On normalised text: every cut of a text normalises like the whole if and only if no CR stands directly before a CR LF; for the frames this condition is shown sufficient (ChunkingIndependent) and not always to be dropped (ChunkingMatters) |
| SseDecoder.ChunkingIndependent | desktop/src/renderer/browserAdapter.ts:36-59 | Under that condition every way of cutting a text into chunks yields the same frames |
| SseDecoder.ChunkingMatters | desktop/src/renderer/browserAdapter.ts:40-41 | Without the condition frames can differ: one text, two cuts, two results |
| SseAgreement.DecoderMatchesParser | desktop/src/renderer/shared/api/sse.ts:34-81 | The incremental decoder equals `parseSseStream` of the whole text, however cut, if and only if after each block that mixes a retry hint with an event no effective line (comment, id, event or data field, valid retry) comes before the first empty one, and the unfinished end is not mixed and its last line, if it carries text, has no last CR; for texts without a CR before a CR LF and, if one ends in a CR, a number reader that ignores it as JavaScript's `Number` does |
| SseAgreement.FrameBound | desktop/src/renderer/shared/api/sse.ts:34-81 | Resumed in any state, the whole-text parser yields at most one frame more than the decoder, and that only for an event carried over |
| SseAgreement.CarriedShows | desktop/src/renderer/shared/api/sse.ts:50-58 | An event that a mixed block leaves over always comes out differently when an effective line comes before the next empty one |
| SseAgreement.LastCrMatters | desktop/src/renderer/browserAdapter.ts:53-58 | A last CR shows: the flush drops it by adding line breaks, the whole-text parser keeps it in the data |
| SseStream.MixingMatters | desktop/src/renderer/shared/api/sse.ts:50-58 | A text on which the two differ: after a mixed block the whole-text parser delivers the event behind a later comment, the decoder before it |
| SseStream.PrintedFramesArrive | server/src/knowledge_system/api/routers/tasks.py:132-154 | Printer to parser: for every response and every cutting the decoder yields exactly the printed frames in order |
| TaskStream.ClientSeesServer | desktop/src/renderer/shared/api/sse.ts:84-142 | End to end: the decoded frames are the server's events, terminal display, heartbeat and retry hint, in order; of the readers it asks only that they undo the writers on what this response holds |
| TaskStream.DecodedExactlyWhen | desktop/src/renderer/shared/api/sse.ts:84-142 | A frame is a projection exactly when it is an event of a streamable type with a positive number and a readable payload, a terminal display exactly when it is a readable terminal frame, a heartbeat exactly when it is a ping comment |
| TaskStream.AcceptedInOrder | desktop/src/renderer/shared/state/taskReducer.ts:36-66 | Over every action sequence the last sequence never decreases and accepted sequences strictly increase up to it |
| TaskStream.LastSequenceMeaning | desktop/src/renderer/shared/state/taskReducer.ts:36-66 | Over every run the last sequence is the largest of all snapshots and accepted events, or 0 |
| TaskStream.DisplayMeaning | desktop/src/renderer/shared/state/taskReducer.ts:36-66 | Over every run what is shown is the last word: a terminal frame, or an accepted event, with COMPLETED as success, FAILED as failure and CANCELLED as cancellation |
| TaskStream.DisplayOfLastAccepted | desktop/src/renderer/shared/state/taskReducer.ts:53-64 | Without terminal frames the display is success, failure or cancellation if and only if the last accepted event reported COMPLETED, FAILED or CANCELLED |
| TaskStream.ConsecutiveBetweenSnapshots | desktop/src/renderer/shared/state/taskReducer.ts:53-64 | Between snapshots the accepted events are consecutive, and as many as the last sequence grew |
| TaskStream.TerminalIsSticky | desktop/src/renderer/shared/state/taskReducer.ts:41-54 | A set display never returns to null, no event changes the state any more, and only another terminal frame replaces it |
| TaskStream.ResponseResumes | desktop/src/renderer/shared/api/taskEventClient.ts:128-170 | A client at sequence `c` that is sent the events `c + 1` to `m`, however the response is cut, accepts exactly these, each once and in order, stands with state and cursor at `m`, and shows the status of the last event if that is terminal |
| TaskStream.TaskEventClient.Connect | desktop/src/renderer/shared/api/taskEventClient.ts:104-108 | A given cursor replaces the saved one; none keeps it |
| TaskStream.TaskEventClient.OnMessage | desktop/src/renderer/shared/api/taskEventClient.ts:128-140 | A frame's effect on state, cursor and retry hint |
| TaskStream.TaskEventClient.ApplyEvent | desktop/src/renderer/shared/api/taskEventClient.ts:159-170 | An event moves state and cursor only when the reducer accepts it |
| TaskStream.TaskEventClient.ReconcileSnapshot | desktop/src/renderer/shared/api/taskEventClient.ts:179-200 | A snapshot moves the state, raises the cursor to the maximum, and applies a terminal status; a disposed client ignores it |
| TaskStream.CursorStep | desktop/src/renderer/shared/api/taskEventClient.ts:104-108 | One input keeps the cursor at or above the last sequence if and only if it is not a connect with an older numeric cursor |
| TaskStream.CursorNeverBehind | desktop/src/renderer/shared/api/taskEventClient.ts:159-200 | Over every run without such connects the cursor is never behind |
| TaskStream.CursorIsWaterMark | desktop/src/renderer/shared/api/taskEventClient.ts:159-200 | Started without a saved cursor, the cursor equals the last sequence at every point of every run |
| TaskStream.ClientRefinesReducer | desktop/src/renderer/shared/api/taskEventClient.ts:159-200 | The client's state is the reducer's state after the actions it dispatched |
| TaskStream.ClientShows | desktop/src/renderer/shared/api/taskEventClient.ts:128-200 | Over every run the client shows what was said last by an accepted event, a terminal frame or a snapshot that came in time |
| TaskStream.SnapshotMeaning | desktop/src/renderer/shared/api/taskEventClient.ts:179-200 | A snapshot raises the sequence to the maximum, settles the request, shows COMPLETED, FAILED or CANCELLED as such and any other status not at all; for a disposed client it does nothing |
| TaskStream.DisposedMeaning | desktop/src/renderer/shared/api/taskEventClient.ts:104-126 | The client is disposed exactly when it was disconnected and not connected since |
| TaskStore.Store.AddTaskCreation | server/src/knowledge_system/infrastructure/persistence/repositories.py:131-152 | Creation commits task, event 1, and message together, or nothing |
| TaskStore.AssignSequences | server/src/knowledge_system/infrastructure/persistence/planning.py:314-317 | The numbering loop: consecutive sequences from the one after the task's counter |
| TaskStore.Store.CompleteGoalUnderstanding | server/src/knowledge_system/infrastructure/persistence/planning.py:236-345 | Decides by contract, replay, fences, constraints and deadline in the code's order, and commits the whole write set or leaves the tables as they were |
| TaskStore.AssignVersions | server/src/knowledge_system/infrastructure/persistence/planning.py:458-467 | The numbering loop of activation with the back-filled business version |
| TaskStore.StampMessages | server/src/knowledge_system/infrastructure/persistence/planning.py:468-473 | The nested loop gives each message the sequence of its event |
| TaskStore.Store.ActivatePlanVersion | server/src/knowledge_system/infrastructure/persistence/planning.py:347-511 | Decides by contract, replay, fences, constraints and deadline in the code's order, and commits plan, attempt, events and messages together or leaves the tables as they were |
| TaskStore.Store.Cancel | server/src/knowledge_system/infrastructure/persistence/task_cancel.py:52-87 | Re-decides under the lock; commits status, event and message together or leaves the tables as they were |
| TaskRuns.GoalWrote | server/src/knowledge_system/infrastructure/persistence/planning.py:314-341 | A committed goal write set extends the event log by its events, numbered on from the counter, which grows by as many |
| TaskRuns.PlanWrote | server/src/knowledge_system/infrastructure/persistence/planning.py:458-488 | The same for a committed activation |
| TaskRuns.NextKeepsEvents | server/src/knowledge_system/infrastructure/persistence/repositories.py:131-169 | Every transaction keeps each task's event sequences exactly 1 to its counter |
| TaskRuns.NextKeepsPlans | server/src/knowledge_system/infrastructure/persistence/planning.py:361-437 | Every transaction keeps: at most one plan per task, active, pointed to, from a completed PLAN attempt and a goal that was ready |
| TaskRuns.GoalKeepsRounds | server/src/knowledge_system/infrastructure/persistence/planning.py:284-303 | A committed clarification is the next round, and never a third |
| TaskRuns.Reachable | server/src/knowledge_system/infrastructure/persistence/planning.py:236-545 | In every reachable state of every run: gapless events, one sound plan per task, rounds 1, 2 at most |
| TaskEffects.ReachableRows | server/src/knowledge_system/infrastructure/persistence/task_models.py:542-575 | In every reachable state: no two events of a task share a sequence or a version of one reference, every message is about an event and once per destination, a task has one goal per input and attempt, at most one pending question, and one question per round of an input |
| TaskEffects.InsertableMeaning | server/src/knowledge_system/infrastructure/persistence/task_models.py:542-575 | Which new rows a goal or a plan may bring: the constraints on attempts, goals, questions, plans, events and messages, row by row |
| TaskEffects.GoalCommitsExactlyWhen | server/src/knowledge_system/infrastructure/persistence/planning.py:77-337 | A goal commits if and only if its write set is well-formed, the task plans on its input without a plan, at the expected version and before its deadline, the goal is new, its attempt is completed, its question is within the deadline and the next of two, and the rows pass the constraints |
| TaskEffects.GoalAnswers | server/src/knowledge_system/infrastructure/persistence/planning.py:86-345 | The code of every refused goal is true of the write set or of the rows, and a replay is answered without change if and only if the same work was stored with the same decision |
| TaskEffects.GoalLeavesBehind | server/src/knowledge_system/infrastructure/persistence/planning.py:305-341 | A committed goal leaves its row, its attempt and its question, and a task that waits for the user exactly when there is a question, one version on; nothing else changes |
| TaskEffects.QuestionHolds | server/src/knowledge_system/infrastructure/persistence/planning.py:264-341 | After a goal that asks the user the question is stored, the task waits, and no goal and no plan of that task commits in any later run until another transaction moves the task |
| TaskEffects.ReadyCanActivate | server/src/knowledge_system/infrastructure/persistence/planning.py:323-437 | After a goal that is ready the task is still planning, and a first plan made from that goal by a running attempt is activated before the deadline |
| TaskEffects.PlanCommitsExactlyWhen | server/src/knowledge_system/infrastructure/persistence/planning.py:148-437 | A plan is activated if and only if its write set is well-formed, it is the first, the task plans on its input without a plan and before its deadline, a ready goal with a completed attempt stands behind it, the attempt that made it is running at the expected row version, and the rows pass the constraints |
| TaskEffects.PlanAnswers | server/src/knowledge_system/infrastructure/persistence/planning.py:166-511 | The code of every refused activation is true of the write set or of the rows, and a replay is answered without change exactly when the very plan is active and its attempt ended with the same result |
| TaskEffects.PlanLeavesBehind | server/src/knowledge_system/infrastructure/persistence/planning.py:438-511 | An activation leaves a running task with that plan active, the plan's rows, and its attempt completed with the result handed in; nothing else changes |
| TaskEffects.PlanEndsPlanning | server/src/knowledge_system/infrastructure/persistence/planning.py:361-437 | Once a plan is active, no goal and no other plan of that task commits in any later run |
| TaskEffects.CreateCommitsExactlyWhen | server/src/knowledge_system/infrastructure/persistence/repositories.py:131-152 | A task is created exactly from a consistent queued write set with a new id whose rows pass the constraints, and then stands queued at version and sequence 1 |
| TaskEffects.CancelAnswers | server/src/knowledge_system/infrastructure/persistence/task_cancel.py:52-87 | CANCEL_REQUESTED and CANCELLED are answered without change, COMPLETED and FAILED refused; a committed cancellation leaves the task CANCEL_REQUESTED with one TASK_CANCELLED event and one signal |
| TaskCancellation.NextSilent | server/src/knowledge_system/infrastructure/persistence/planning.py:264-437 | No transaction writes an event, goal or plan for a closed task, and closed tasks stay closed |
| TaskCancellation.ClosedForever | server/src/knowledge_system/infrastructure/persistence/task_cancel.py:55-87 | Once cancellation is requested, nothing in any later run writes an event, goal or plan for the task |
| TaskCancellation.CancelledOnce | server/src/knowledge_system/infrastructure/persistence/task_cancel.py:55-87 | Over every run cancellation commits at most once per task, never for a closed one, and the TASK_CANCELLED events number exactly that plus those carried by other write sets |
| TaskCancellation.OnceKeptWhen | server/src/knowledge_system/infrastructure/persistence/planning.py:113-120 | A transaction keeps "at most one TASK_CANCELLED event per task, and only on closed tasks" if and only if it does not commit a creation, goal or plan write set that holds such an event itself |
| TaskCancellation.OnceThroughoutWhen | server/src/knowledge_system/infrastructure/persistence/task_cancel.py:55-87 | From the empty database, that holds in every state of a run if and only if no write set of the run that commits carries such an event |
| TaskCancellation.CancelledTwice | server/src/knowledge_system/infrastructure/persistence/planning.py:113-120 | A legal run after which a task has two TASK_CANCELLED events: goal validation lets a write set carry one |
| TaskCancellation.CancelCommitsWhen | server/src/knowledge_system/infrastructure/persistence/repositories.py:154-169 | A well-formed cancellation with fresh ids of an open task commits if and only if no earlier event of the same reference holds the next sequence as its business version |
| TaskReplays.GoalReplay | server/src/knowledge_system/infrastructure/persistence/planning.py:245-262 | A committed goal write set, sent again at any later point of any run, is accepted and changes nothing; with other digests for the same task, input and attempt it is always refused |
| TaskReplays.PlanReplayed | server/src/knowledge_system/infrastructure/persistence/planning.py:361-386 | A committed plan write set, sent again at any later point of any run, is accepted and changes nothing |
| TaskReplays.ActivationStamps | server/src/knowledge_system/infrastructure/persistence/planning.py:458-473 | The events of an activation stay in the log numbered on from the counter, task events with business version equal to sequence, and each message with its event's sequence |
| TaskReplays.CancellationStamps | server/src/knowledge_system/infrastructure/persistence/repositories.py:154-169 | The same for a cancellation |
| TaskCreation.CreationService.FirstRead | server/src/knowledge_system/infrastructure/persistence/task_creation.py:64-68 | The first transaction: contract, replay, or go on to insert |
| TaskCreation.CreationService.Insert | server/src/knowledge_system/infrastructure/persistence/task_creation.py:70-75 | The second transaction: commit the row and the task, or nothing |
| TaskCreation.CreationService.SecondRead | server/src/knowledge_system/infrastructure/persistence/task_creation.py:76-81 | The third transaction after an integrity error: replay or write conflict |
| TaskCreation.RunKeeps | server/src/knowledge_system/infrastructure/persistence/task_creation.py:64-110 | Every interleaving keeps: committed keys distinct and new, stored rows unchanged, and every success equal to the stored row of its key and request |
| TaskCreation.AtMostOneCommit | server/src/knowledge_system/infrastructure/persistence/task_models.py:651 | For one key at most one call ever commits, and none if it was stored before |
| TaskCreation.SameAnswer | server/src/knowledge_system/infrastructure/persistence/task_creation.py:88-130 | All successful calls with one key asked the same and got the same task and response |
| TaskCreation.OtherRequestRefused | server/src/knowledge_system/infrastructure/persistence/task_creation.py:93-94 | A call whose request hash differs from the committed one never succeeds |
| TaskCreation.LosersAreAnswered | server/src/knowledge_system/infrastructure/persistence/task_creation.py:76-81 | With fresh task ids, complete rows and no other constraint failing, no call ends in a write conflict: a loser finds the winner's row |
| TaskCreation.CallAlone | server/src/knowledge_system/infrastructure/persistence/task_creation.py:64-130 | A call that nobody disturbs: a stored key is answered from its row by the first read without a write; a new key is stored with its task and answered as created; a taken task id or an incomplete row ends in a conflict without a write |
| TaskCreation.InsertAllOrNothing | server/src/knowledge_system/infrastructure/persistence/task_creation.py:70-75 | The insert writes row and task together exactly when the key and the task id are free, the row is complete and no other constraint fails; otherwise it writes nothing and reads again |
| TaskCreation.ErrorsAreTrue | server/src/knowledge_system/infrastructure/persistence/task_creation.py:64-130 | Over every interleaving a call is told that it created the task exactly if it committed, and an error names what is so |
| Outbox.BatchMeaning | server/src/knowledge_system/infrastructure/persistence/outbox.py:54-92 | A batch holds claimable, unlocked rows, each once, at most the limit; a free row left out is no earlier than any taken, and only when the limit is reached |
| OutboxEffects.BatchExactly | server/src/knowledge_system/infrastructure/persistence/outbox.py:60-92 | A batch is the rows that are due or whose lease has run out and that nobody has locked, in due order, up to the limit |
| OutboxEffects.ClaimTakes | server/src/knowledge_system/infrastructure/persistence/outbox.py:93-101 | A claim marks the rows of its batch with its id and time, one more attempt and no error, and changes no other row |
| OutboxEffects.LeaseProtects | server/src/knowledge_system/infrastructure/persistence/outbox.py:60-92 | A row under a live lease, before its time, settled, locked or for another destination is left alone |
| Outbox.OutboxRepository.ClaimBatch | server/src/knowledge_system/infrastructure/persistence/outbox.py:54-110 | The claiming loop marks exactly the rows of the batch and returns their messages with the raised attempt counts |
| Outbox.OutboxRepository.MarkPublished | server/src/knowledge_system/infrastructure/persistence/outbox.py:133-150 | Publishes the row only for the claim that holds it |
| Outbox.OutboxRepository.MarkRetry | server/src/knowledge_system/infrastructure/persistence/outbox.py:152-165 | Back to pending, or dead once the attempts are used up, only for the holding claim |
| Outbox.OutboxRepository.MarkDead | server/src/knowledge_system/infrastructure/persistence/outbox.py:167-172 | Given up, only for the holding claim |
| OutboxEffects.HolderSettles | server/src/knowledge_system/infrastructure/persistence/outbox.py:133-201 | The holder's settlement publishes the row, returns it with the delay of its attempt, or gives it up once the attempts are used up, and clears the claim |
| Outbox.RunKeepsInv | server/src/knowledge_system/infrastructure/persistence/outbox.py:54-201 | In every reachable table, for any workers, crashes and expiries: publish-state shape, attempts equal to claims, the holder's message current, and no pending row with its attempts used up |
| Outbox.SettledForever | server/src/knowledge_system/infrastructure/persistence/outbox.py:133-201 | PUBLISHED and DEAD rows never change again |
| Outbox.TakeoverLoses | server/src/knowledge_system/infrastructure/persistence/outbox.py:60-92 | A claim that takes an expired row over makes the former holder lose it, and only then |
| Outbox.LostForever | server/src/knowledge_system/infrastructure/persistence/outbox.py:133-201 | A lost lease is never regained |
| Outbox.FencedOut | server/src/knowledge_system/infrastructure/persistence/outbox.py:133-201 | Whatever a worker does with a lost claim, at any later time, leaves the table unchanged |
| Outbox.Backoff | server/src/knowledge_system/infrastructure/persistence/outbox.py:174-201 | The delay of a retry is between one and sixty seconds |
| OutboxEffects.BackoffDoubles | server/src/knowledge_system/infrastructure/persistence/outbox.py:174-201 | The delay is one second after the first attempt, doubles with each further one, and stops at sixty |
| EgressPermits.EgressPermitAuthority.IssueReady | server/src/knowledge_system/infrastructure/persistence/egress_permit_repository.py:52-77 | Inserts a READY record, accepts the same facts again without change, and refuses different ones |
| EgressPermits.EgressPermitAuthority.AdmitCall | server/src/knowledge_system/infrastructure/persistence/egress_permit_repository.py:79-119 | Admits a READY permit of an unexpired, matching call, expires an overdue one, and otherwise leaves the record alone |
| EgressPermits.EgressPermitAuthority.Authorize | server/src/knowledge_system/infrastructure/persistence/egress_permit_repository.py:121-144 | Lets the secret be read once, for the admitted route and reference |
| EgressPermits.RunKeeps | server/src/knowledge_system/infrastructure/persistence/egress_permit_models.py:47-54 | In every interleaving of issue, admit, authorize and model-call changes the lifecycle-timestamp shape holds and status, row version and history agree |
| EgressPermits.ReadAtMostOnce | server/src/knowledge_system/infrastructure/persistence/egress_permit_repository.py:121-144 | A secret is read at most once per call, and only after exactly one admission, on the same route |
| EgressPermits.VersionCountsChanges | server/src/knowledge_system/infrastructure/persistence/egress_permit_repository.py:261-265 | The row version counts status changes and never exceeds three; the issued facts never change |
| EgressPermits.IssuedExactlyWhen | server/src/knowledge_system/infrastructure/persistence/egress_permit_repository.py:52-77 | A permit is recorded if and only if its call is being sent under its numbers and model and has none yet, and accepted again if and only if every fact is the same |
| EgressPermits.AdmittedExactlyWhen | server/src/knowledge_system/infrastructure/persistence/egress_permit_repository.py:79-119 | For the record of a permit an admission succeeds if and only if the call stands as the permit says, on its route and with its frozen body, unexpired and unused; it grants the permit's model and secret |
| EgressPermits.AuthorizedExactlyWhen | server/src/knowledge_system/infrastructure/persistence/egress_permit_repository.py:121-144 | The secret is read if and only if the call still stands as the permit says, the permit is admitted and unexpired, and the request names its route and secret |
| EgressPermits.SeenIsEarned | server/src/knowledge_system/infrastructure/persistence/egress_permit_repository.py:79-144 | Over every run each admission and each read happens while the call is being sent under the numbers and the model of a permit that the run issued for it, on its route and before it expires |
| EgressPermits.QuietWhileChanged | server/src/knowledge_system/infrastructure/persistence/egress_permit_repository.py:163-187 | Once a call has another status, version, generation or model, nothing more is seen for it until it is changed back |
| EgressPermits.OverdueExpires | server/src/knowledge_system/infrastructure/persistence/egress_permit_repository.py:96-98 | An attempt after the deadline that is otherwise in order expires the permit |
| EgressPermits.ExpiredForever | server/src/knowledge_system/infrastructure/persistence/egress_permit_repository.py:96-144 | An expired permit is never used again, whatever later clocks say |
| EgressPermits.RejectionsAreTrue | server/src/knowledge_system/infrastructure/persistence/egress_permit_repository.py:88-105 | The reason a rejection names is true, and nothing that is checked before it fails |
| AuditChain.AuditRepository.Append | server/src/knowledge_system/infrastructure/persistence/audit_repository.py:28-57 | Appends an entry that points to the head and moves the head; without a head row nothing changes |
| AuditChain.LogIsChained | server/src/knowledge_system/infrastructure/persistence/audit_repository.py:28-77 | Every run of appends yields a log in which each previous hash is the preceding event hash, with the events in order |
| AuditChain.PreimageInjective | server/src/knowledge_system/modules/audit/domain/audit_event.py:46-67 | A hashed text determines its parts: the prefix is empty or 64 hex digits, and canonical JSON (section 3.2 of RFC 8785) begins with a brace |
| AuditChain.HeadDeterminesLog | server/src/knowledge_system/infrastructure/persistence/audit_repository.py:28-77 | Two chained logs with equal heads are identical, event for event, unless the hash collides on two inputs hashed in them |
| MemoryRecall.CollectHits | server/src/knowledge_system/modules/memory/application/memory_recall_service.py:38-65 | The de-duplicating loop: first channel wins, insertion order kept |
| MemoryRecall.Recall | server/src/knowledge_system/modules/memory/application/memory_recall_service.py:33-119 | The nested loops over scopes, keys and groups compute the staged result |
| MemoryRecall.TopIsQueried | server/src/knowledge_system/infrastructure/persistence/memory_repository.py:180-205 | Each of the first `max_candidates + 1` records of the global ranking is returned by the limited query of its scope |
| MemoryRecall.NoLaterInPart | server/src/knowledge_system/infrastructure/persistence/memory_repository.py:180-205 | In the ranking of one scope a record comes no later than in the ranking of all |
| MemoryRecall.QueriedWhenInReach | server/src/knowledge_system/infrastructure/persistence/memory_repository.py:180-205 | The limited query of its scope returns a record if and only if at most `max_candidates` active records of that scope rank above it |
| MemoryRecall.RecallIsTop | server/src/knowledge_system/modules/memory/application/memory_recall_service.py:33-119 | For every store and request: when the best `max_candidates` of everything that matches (active, valid, of a requested scope and kind) are each in reach of their scope's query, they are the hits, in order; when one more is, `truncated` holds if and only if more match |
| MemoryRecall.RecallIsGlobalTop | server/src/knowledge_system/modules/memory/application/memory_recall_service.py:33-119 | A case where all of these are in reach: without required kinds and with every active record passing revalidation, the hits are the global best `max_candidates`, and `truncated` holds if and only if more exist |
| MemoryRecall.PlainRecall | server/src/knowledge_system/modules/memory/application/memory_recall_service.py:33-119 | Without keys, pins and conflict groups: the hits are the best `max_candidates` of the matching records in reach, and `truncated` holds if and only if more of these exist |
| MemoryRecall.TopExactlyWhen | server/src/knowledge_system/modules/memory/application/memory_recall_service.py:33-119 | In that case the hits are the best of everything that matches if and only if those are in reach |
| MemoryRecall.RecallSound | server/src/knowledge_system/modules/memory/application/memory_recall_service.py:67-119 | Every recall: at most the asked number, exactly that number when truncated, each active, valid, of a requested scope and kind, none twice, best first; everything rejected failed revalidation |
| MemoryRecall.RequiredKindCanHide | server/src/knowledge_system/modules/memory/application/memory_recall_service.py:79-82 | A matching record behind better ones of another kind is out of reach and not recalled |
| MemoryRecall.ExpiredCanHide | server/src/knowledge_system/modules/memory/application/memory_recall_service.py:67-78 | A valid record behind better ones that are active but expired is not recalled |
| RecallSources.RecallExactly | server/src/knowledge_system/modules/memory/application/memory_recall_service.py:33-119 | Every recall in full: the hits are the best `max_candidates` of the eligible records, best first, and `truncated` holds if and only if there are more; eligible are the wanted records that a pin within its limit, the first record of a requested key, or the recent query reaches, and their wanted siblings |
| RecallSources.KeyFinds | server/src/knowledge_system/modules/memory/application/memory_recall_service.py:48-56 | A requested key finds its record wherever it ranks: if it is wanted and the only active one of its scope with that key, it is returned under EXACT_KEY, or PINNED if a pin was seen first, or `max_candidates` better ones are |
| RecallSources.PinsAndSiblings | server/src/knowledge_system/modules/memory/application/memory_recall_service.py:40-47 | A wanted pinned record within its limit is returned as PINNED, and a wanted sibling of it is returned, or `max_candidates` better ones are |
| RecallSources.HitChannels | server/src/knowledge_system/modules/memory/application/memory_recall_service.py:38-97 | A hit is returned under the channel that saw its record first, or under that of the sibling that brought it in |
| RecallSources.RejectedExactly | server/src/knowledge_system/modules/memory/application/memory_recall_service.py:67-97 | Rejected are exactly the records a channel saw, and the active siblings of wanted ones it saw, that are not in force for the request |
| ReadingOrder.ComputeReadingOrder | server/src/knowledge_system/modules/knowledge/domain/reading_order.py:117-183 | The staged sorts and the crossings loop compute the order, the decorations, the crossings and the score |
| ReadingOrder.CountCrossings | server/src/knowledge_system/modules/knowledge/domain/reading_order.py:166-176 | The loop over neighbours counts exactly the crossing positions |
| ReadingOrder.OrderedIsOneSort | server/src/knowledge_system/modules/knowledge/domain/reading_order.py:135-164 | Spanning blocks, then columns each sorted on its own, is one stable sort of the body by (spanning, column rank, place) |
| ReadingOrder.NothingLost | server/src/knowledge_system/modules/knowledge/domain/reading_order.py:133-183 | Body and decorations together are a permutation of the input ids, and the body is exactly the blocks that are not header/footer |
| ReadingOrder.ReadingMeaning | server/src/knowledge_system/modules/knowledge/domain/reading_order.py:135-164 | Spanning blocks first; each column one contiguous run sorted by place; columns in rank order |
| ReadingOrder.PlacesMeaning | server/src/knowledge_system/modules/knowledge/domain/reading_order.py:135-164 | Spanning blocks, and the blocks of one column, go from top to bottom, then from left to right, then by initial order |
| ReadingOrder.DecorationsMeaning | server/src/knowledge_system/modules/knowledge/domain/reading_order.py:133-134 | Header and footer blocks keep their initial order, equal ones from top to bottom and from left to right |
| ReadingOrder.InputOrderIrrelevant | server/src/knowledge_system/modules/knowledge/domain/reading_order.py:117-183 | With distinct initial orders the result does not depend on the order of the input |
| ReadingOrder.QualityMeaning | server/src/knowledge_system/modules/knowledge/domain/reading_order.py:166-182 | The score falls by a tenth for each ambiguous pair of neighbours down to 0, and is one if and only if no two neighbours are ambiguous |
| ReadingOrder.RankMeaning | server/src/knowledge_system/modules/knowledge/domain/reading_order.py:145-146 | A listed column is ranked by its last position in the column order |
| ReadingOrder.ListedFirstWhen | server/src/knowledge_system/modules/knowledge/domain/reading_order.py:146-150 | Listed columns precede all others if and only if no listed rank exceeds the number of distinct listed columns, and one of that rank has no unlisted column below it |
| RegionPlan.PlanRegionFallback | server/src/knowledge_system/modules/knowledge/domain/reading_order.py:186-235 | The merging loop, followed by widening, clipping and box validation |
| RegionPlan.IntersectMeaning | server/src/knowledge_system/modules/knowledge/domain/reading_order.py:87-88 | Boxes are merged when they share a point inside both; touching is not enough |
| RegionPlan.TakenInOrder | server/src/knowledge_system/modules/knowledge/domain/reading_order.py:195-197 | Problem regions are taken page by page, from top to bottom and then from left to right |
| RegionPlan.MergedAreHulls | server/src/knowledge_system/modules/knowledge/domain/reading_order.py:195-223 | The sorted regions fall into runs, each region joining the hull of those before it, and the merged regions are the hulls of the runs |
| RegionPlan.HullMeaning | server/src/knowledge_system/modules/knowledge/domain/reading_order.py:208-223 | A hull is on its regions' page, bounds all of them and nothing smaller does, and is special exactly when one of them is |
| RegionPlan.MergeReasonsMeaning | server/src/knowledge_system/modules/knowledge/domain/reading_order.py:91-92 | Two reasons become those that are not empty, in order and only once, joined by a semicolon |
| RegionPlan.HullReasons | server/src/knowledge_system/modules/knowledge/domain/reading_order.py:213-223 | The reason of a merged region mentions the reason of each region merged into it |
| RegionPlan.ExpandMeaning | server/src/knowledge_system/modules/knowledge/domain/reading_order.py:95-114 | Widening fails exactly for a box that misses its page even widened; otherwise the result is on the page and covers the box as far as it is on the page |
| RegionPlan.ExpandErrors | server/src/knowledge_system/modules/knowledge/domain/reading_order.py:102-114 | The error of a box off its page names the direction in which it misses the page, the horizontal one first |
| RegionPlan.PlanCovers | server/src/knowledge_system/modules/knowledge/domain/reading_order.py:186-235 | A plan exists if and only if no merged region misses its page; then every problem region is covered, as far as it lies on the page, by a planned region of its page |
| RegionPlan.DisjointWhen | server/src/knowledge_system/modules/knowledge/domain/reading_order.py:195-223 | The merged regions are pairwise disjoint if and only if no step of the merging makes the last hull meet an earlier merged region, neither by a new region that misses the tail nor by growing the tail |
| RegionPlan.ColumnStacks | server/src/knowledge_system/modules/knowledge/domain/reading_order.py:195-223 | When every two problem regions of a page overlap horizontally, each merged region ends above the later ones of its page, so they are disjoint |
| RegionPlan.HullsMayOverlap | server/src/knowledge_system/modules/knowledge/domain/reading_order.py:199-223 | Three regions of two columns whose merged regions overlap |

## Left out

- SQLAlchemy models, migrations, sessions and engine: only their CHECK and UNIQUE constraints appear, as table predicates.
- HTTP endpoints, authentication, the Electron shell, views and fetch wrappers.
- Model gateway transports, secret stores and runtime wiring around the egress permit.
- Sentence-splitting expressions, NFKC normalisation, JSON encoding and SHA-256, which are parameters.
- Columns that no modelled branch reads (artifacts, budgets, display texts, schema versions); outbox rows carry no payload.
- Plan hypotheses and criteria are kept together with the items as definitions; their own constraints are not modelled.
- Replanning: the code refuses it, and so does the model.
- Moving a task between open states, answering clarifications and ending a task happen in other transactions; they are the `Others` step, restricted to what `TaskRuns.OthersMay` allows.
- Expiry and deletion of idempotency rows.
- Listeners, timers, jittered reconnect delays and result loading of the event client; its inputs arrive one at a time.
- Memory writes (commit, revise, forget, pin) and the governance of candidates.
- Paragraphs.RoundMeaning: rounds the exact quotient; the code divides in binary floating point first, which can differ for very large products.
- ReadingOrder.QualityMeaning: uses exact tenths; the code subtracts binary floating point tenths.
- RegionPlan.ExpandMeaning: uses exact real arithmetic for coordinates and margins.
- SseDecoder.InPartsExactlyWhen: the exact condition is on normalised text; for frames only sufficiency and a failing text are shown.
- MemoryRecall.RecallIsGlobalTop: compares importance and start of validity as exact values; the code negates a floating-point timestamp.
- Outbox.BatchMeaning: row ids are positions in the table, so id order is insertion order; the code orders random identifiers.
- TaskStore.Store.Cancel: the audit entry is only checked against the task here; the chain it extends is modelled in AuditChain.
- TaskCreation.CreationService.Insert: the task is its identifier here; the rows written with it are modelled by TaskStore.Store.AddTaskCreation.
- TaskStore.Store.AddTaskCreation: commits the task, its event and its message; the input, attachment and idempotency rows written in the same transaction are not modelled here.
- TaskStream.TaskEventClient.ApplyEvent: the code compares object identity; a second gap event yields an equal state in a new object, and with it one more snapshot request, which is not modelled.
