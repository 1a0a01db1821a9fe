# Verification model of the gateway's agent engine, protocol bookkeeping and log writer

This project models the stateful cores of the backend and proves what they keep. Code that updates state in place is a
class or a method with loops, proved equal to a function on values; the laws are lemmas about those functions. Code that
is concurrent is a set of atomic steps, and its laws hold over every interleaving.

| files | what they model |
|---|---|
| AgentConversation, AgentGate, AgentBatch, AgentHistory, AgentTurn, AgentOrder, AgentEngine | one agent session: model call, batch of tool calls, pause, approval, denial, answer, supersession, summaries, replay from the log, and the order of stored results |
| TurnGuard | which turn holds a session; stop and shutdown |
| JsonPointers, ContinuationStrip, ContinuationInput | selecting and deleting continuation carriers by JSON pointer |
| ChatText, ChatContent | text spans of a stream and joining of text blocks, with moving citations |
| CollectedMetadata | deferred array metadata with exact byte charges |
| SecretMasking | masking of known secret values |
| CarrierDelivery | delivery of continuation carriers in confirmed batches |
| WaitingEvents | the event buffer that waits for incomplete items |
| ContentLayout, ContentGrouping | partition, combine, group and unfold of content roots |
| Provenance | the check that guards protected fields |
| ThinkingBudget | 64-bit thinking budget arithmetic |
| LogWriter | the bounded log queue, its worker, the synchronous fallback and closing |
| Options, Sequences | a value that may be missing; what several files need to know about sequences |

`dafny verify dfyconfig.toml` checks everything.

## What the proofs found

- **Stored order of a parallel group.** Members of a parallel group store their own results as they complete
  (`backend/agent/tool_execution.go:119-146`, `backend/agent/tool_result.go:71-87`). The conversation in memory keeps call
  order; the log does not have to. It does for every completion order exactly when, before the batch stops, no two
  neighbouring calls may both run in parallel: `Batches.StoredInCallOrderWhateverFinishes` for what is stored,
  `CallOrder.ReloadInCallOrderWhateverFinishes` for what a reload finds, both also over the schedules that the limit of
  four parallel members allows, `CallOrder.UngroupedRunsKeepCallOrder` over runs.
  `CallOrder.ReloadCanLoseCallOrder` is a run that sends a model call out of call order. Pairing as such, one result for
  each call directly after its batch, holds always. Lemmas with a `strict` parameter cover both readings.
- **Deletion order.** The comparison in `backend/protocol/continuation_input.go:179-193` compares two segments as numbers if
  both are numbers and as text otherwise. On object keys such as "1" and "01", or "10", "9" and "1a", this is not an order;
  `ContinuationInput.MixedKeysDeleteTheWrongItem` deletes the wrong array element. The sorted list is one of which no deletion
  moves a later location, for every arrangement, exactly when no chain of comparisons leads from a location to one that
  its deletion moves (`ContinuationInput.SortIsSafeExactlyWhenChainsAre`); such a list is always deleted correctly. A
  transitive comparison is enough but not needed: members of one object are safe whatever their names. Siblings of one
  kind suffice, and array indices always are of one kind.
- **Refused outputs.** A foreign or repeated token makes `observe` fail, but the binding does not remember it
  (`CarrierDelivery.RefusalIsNotRemembered`): the caller has to abort, as
  `backend/protocol/delivery_range_stream.go:32-35` does. Over every run a commit is over exactly the tokens in
  the output if and only if no output since the batch began was refused (`CarrierDelivery.CommitIsOverTheOutput`). A batch
  with the same token twice can never be delivered.
- **What provenance binds.** Only `resources` are compared together with their owner: the members of the object other than
  `source`, `native`, `resources` and `children`. Two objects may exchange different `resources` exactly when these owners
  are equal, so also when the objects differ in children, source or native; `source` and `native` they may always exchange.
  Any other protected field belongs to its owner, so it may be exchanged exactly when neither object has resources, or both
  have the same and the owners agree in all else (`Provenance.ExchangeIsAcceptedIff`, over any two objects of a list).
  `Provenance.ExchangeIsAcceptedUnlessOwned` instantiates it to nodes with one protected field. No protected value can be
  added or altered.
- **Growing snapshots.** A snapshot of a text item is compared with the delivered text by length only; the delivered text is
  the snapshot exactly if the snapshot extends it (`ChatText.SnapshotDeliversIffItExtends`); "xy" after "ab" is accepted
  and lost (`ChatText.RewritingSnapshotIsLost`).

## Modelling assumptions

- Call ids are unique within a batch, the host's question parser keeps the id of its call, and `ask_user` is not concurrent-safe
  where a lemma says so. Permission values are ask, always or never. Members of a parallel group keep the documented
  contract where serial equivalence is claimed (`KeepsConcurrentContract`): they leave the session as it is.
- Store writes succeed and tools do not panic. Reading the session and taking the guard in `ResumeApproval` is one step.
- Settings change between turns, and when a plan is confirmed.
- Texts are sequences of units: where the code counts UTF-16 code units, one element of a Dafny string stands for one of them.
- Digests and tokens are their contents: equal digest means equal bytes.
- Compiled selectors and conversion policy answers are total functions, given as parameters.

## Model

| member | source | states |
|---|---|---|
| Pairing.PairedMeansEveryCallAnswered | backend/agent/turn_approval.go:101-103 | the pairing rule the provider enforces, read both ways: a conversation is accepted iff every call of every assistant turn has exactly one result directly after its batch (in call order when strict) and there is no other result |
| Pairing.OwedMeansAnsweredExcept | backend/agent/tool_execution.go:40-45 | while a batch is open, the results given so far followed by the calls still owed are exactly the batch; every earlier batch is complete |
| Pairing.OwedResults | backend/agent/tool_execution.go:46-87 | results for the first calls of a batch, stored in call order or not, leave exactly the other calls owed, in call order |
| Pairing.OwedCut | backend/agent/context.go:76-96 | replacing everything before a user turn by one user turn changes nothing in what is owed |
| Gates.GateMeansKeys | backend/agent/turn_approval.go:260-287 | a call is allowed iff on every key it reports plan mode is off, the policy is not never, and ask is covered by an approval of that call; denied iff some key is forbidden |
| Gates.ApprovalOnlyLiftsAsk | backend/agent/turn_approval.go:274-287 | approving a call turns a pause into an allow and nothing else; a refusal stays a refusal |
| Gates.ApprovedNeverPauses | backend/agent/turn_approval.go:195-207 | an approved call never stops a batch again |
| Gates.GateProbeDecision | backend/agent/turn_approval.go:321-355 | the loop over probe notes yields the verdict of the note-by-note specification, with exactly the asking notes on a pause |
| Gates.NotesAt | backend/agent/turn_approval.go:321-355 | the notes listed for a policy are exactly the probe notes whose key has it |
| Batches.BatchSplitsCalls | backend/agent/tool_execution.go:46-87 | whatever a batch does, the calls it answered followed by the pending calls are the batch, in order |
| Batches.BatchAnswersFirst | backend/agent/tool_execution.go:46-87 | conversation and log answer the same first calls, the conversation always in call order |
| Batches.LeadingParallel | backend/agent/tool_execution.go:76-79 | a parallel group is the longest stretch of groupable calls |
| Batches.StoredInCallOrderIff | backend/agent/tool_execution.go:119-146 | for one given completion order: stored results are in call order iff every parallel group that the batch forms completes in call order |
| Batches.StoredInCallOrderWhateverFinishes | backend/agent/tool_execution.go:76-146 | stored results are in call order for every completion order iff before the first stop no two neighbouring calls may both run in parallel, which a caller can see before the batch; the same over the completion orders that four members at a time allow |
| Batches.BatchExecutesOnlyCleared | backend/agent/tool_execution.go:55-98 | whatever a batch executes, alone or in a group, is one of its calls and cleared on every key |
| Batches.BatchReportsExecutions | backend/agent/tool_execution.go:164-225 | a stored result claims an execution iff the call was executed, in order of completion |
| Batches.ApprovedBatchPausesOnlyToAsk | backend/agent/turn_approval.go:195-207 | a batch whose calls are all approved stops only for a question |
| Batches.PauseShowsEveryAsk | backend/agent/turn_approval.go:209-221 | the approval card lists every ask-level note of every pending call |
| Batches.BatchIsSerialPrefix | backend/agent/tool_execution.go:46-98 | up to its pause a batch gives the results and session of executing its calls one by one: grouping cannot be seen |
| Batches.PauseThenApproveIsSerial | backend/agent/turn_approval.go:195-228 | pause, approve and run the rest gives the same results and session as one serial execution with everything approved |
| Batches.QuestionsAreNeverExecuted | backend/agent/tool_execution.go:50-54 | a question is never executed as a tool, provided ask_user is not concurrent-safe |
| Permutations.PermuteKeepsMultiset | backend/agent/tool_execution.go:119-146 | results picked in any completion order are the same results |
| History.ApplySummaryBoundary | backend/agent/context.go:186-213 | the filter keeps exactly the latest summary and the messages above its boundary |
| History.LoadConversation | backend/agent/history.go:149-202 | the reload loop rebuilds the replay of the log and the sequence number of each of its turns |
| History.LastSummary | backend/agent/context.go:186-200 | the summary used is the latest one in the log |
| History.SummaryCut | backend/agent/context.go:81-96 | the cut is the last user turn up to the middle that leaves the required head and tail, or -1 if there is none |
| History.ReplayAppend | backend/agent/history.go:149-202 | appending a message appends exactly its turn to the replay |
| History.SummaryRoundTrip | backend/agent/context.go:48-76 | after a summary the conversation kept in memory is what a reload rebuilds |
| History.SummarySeparates | backend/agent/context.go:48-96 | the boundary separates summarized from replayed turns: no turn is both, and the kept part starts at a user turn |
| History.SummaryKeepsOwed | backend/agent/context.go:76-96 | a summary never splits a batch from its results, the open batch included |
| History.MemoryIsReplay | backend/agent/history.go:149-202 | through any number of mirrored appends and summaries, memory and reload stay the same conversation |
| TurnSafety.EveryTurnStartsFromItsLog | backend/agent/history.go:73-114 | over every run, whatever turn comes next begins with exactly the conversation that its log replays to, superseded calls and summary included |
| History.ToolPositions | backend/agent/context.go:104-118 | the positions collected are those of all tool results, in order |
| History.MicroCompact | backend/agent/context.go:104-135 | the compaction loop clears exactly the old results that the specification names and reports exactly how many turns it changed |
| History.MicroCompactKeeps | backend/agent/context.go:104-135 | clearing old results keeps pairing, recent results and everything else, and is idempotent |
| TurnSafety.EveryRunIsSound | backend/agent/turn_lifecycle.go:116-182 | every turn, approval, denial, answer, superseding message and settings change keeps the session invariant |
| TurnSafety.EveryModelCallIsPaired | backend/agent/turn_model.go:95-127 | over every run each model call is sent a fully paired conversation, in call order too if every batch that began in the run kept it; while the session waits, exactly the pending calls are missing |
| TurnSafety.EveryExecutionIsCleared | backend/agent/tool_execution.go:55-98 | over every run each execution happened with plan mode off, no key forbidden, and every asking key covered by an earlier approval of that very call, arguments included |
| TurnSafety.EveryRunReportsExecutions | backend/agent/tool_result.go:71-87 | over every run the log reports exactly the executions that happened, in order of completion |
| CallOrder.ReloadInCallOrderIff | backend/agent/tool_execution.go:119-146 | for one given completion order: the reloaded history has a batch in call order iff all its groups completed in call order |
| CallOrder.ReloadInCallOrderWhateverFinishes | backend/agent/tool_execution.go:76-146 | the reloaded history has a batch in call order for every completion order iff before the first stop no two neighbouring calls may both run in parallel; the same over the completion orders that four members at a time allow |
| CallOrder.UngroupedRunsKeepCallOrder | backend/agent/tool_execution.go:76-146 | over every run whose batches form no group of two, every model call is sent all results in call order, whatever the scheduler does |
| CallOrder.ReloadCanLoseCallOrder | backend/agent/tool_execution.go:119-146 | a run of two messages, two parallel reads and the second faster: the next turn sends a model call whose results are paired but out of call order |
| CallOrder.MemoryKeepsCallOrder | backend/agent/tool_execution.go:119-146 | in whatever order a group completes, memory holds its results in call order and the log one for each call |
| TurnSafety.ExecuteKeeps | backend/agent/tool_execution.go:46-87 | a batch keeps log, memory and trace in step; what stays open is what is stored as pending |
| TurnSafety.SupersedeKeeps | backend/agent/history.go:73-114 | a new message closes every superseded call with a result before the user turn enters |
| TurnSafety.AnswerQuestionKeeps | backend/agent/turn_approval.go:104-131 | the answer and the cancellations of the other calls complete the batch |
| TurnSafety.DecidePlanKeeps | backend/agent/turn_approval.go:134-153 | confirming or rejecting a plan keeps log and memory paired with nothing owed |
| TurnSafety.DecideApprovalKeeps | backend/agent/turn_approval.go:195-208 | approval runs the rest of the batch, denial refuses each call once; either way nothing stays owed but a new pause |
| TurnSafety.ModelLoopKeeps | backend/agent/turn_model.go:48-134 | the bounded loop ends, in every way it can end, in a sound session |
| TurnSafety.FailCallKeeps | backend/agent/turn_model.go:22-45 | a failed call stores what it produced, text or only reasoning, and leaves nothing owed |
| TurnEngine.Engine.constructor | backend/agent/agent.go:75-88 | a new engine holds an empty, idle session and an empty conversation |
| TurnEngine.Engine.AppendToolResult | backend/agent/tool_result.go:64-69 | one result enters log and conversation together |
| TurnEngine.Engine.DismissAll | backend/agent/history.go:96-99 | each dismissed call gets exactly one refusing result, in call order |
| TurnEngine.Engine.PauseForQuestion | backend/agent/turn_approval.go:243-255 | the rest of the batch is stored as a question iff its first call parses as one; otherwise nothing changes |
| TurnEngine.Engine.PauseForApproval | backend/agent/turn_approval.go:212-228 | the rest of the batch is stored with the asking notes of all of it |
| TurnEngine.Engine.RunOneTool | backend/agent/tool_execution.go:164-225 | a tool run alone changes the session, stores its result and records the execution |
| TurnEngine.Engine.CompleteMember | backend/agent/tool_execution.go:119-146 | a completing group member stores its own result at once and fills only its own slot |
| TurnEngine.Engine.RunParallel | backend/agent/tool_execution.go:119-146 | the result array is in call order, the log in completion order |
| TurnEngine.Engine.GroupEnd | backend/agent/tool_execution.go:76-79 | the group found by the loop is the maximal one |
| TurnEngine.Engine.ExecuteNext | backend/agent/tool_execution.go:46-87 | one pass of the batch loop makes the move of the batch specification: pause, refusal, single run or group |
| TurnEngine.Engine.ExecuteCalls | backend/agent/tool_execution.go:46-87 | the loop over an index refines the batch specification, from any call on, and reports a pause iff one is stored |
| TurnEngine.Engine.HandleCallFailure | backend/agent/turn_model.go:22-45 | refines the failure step of the turn specification: nothing is stored iff the call produced neither text nor reasoning |
| TurnEngine.Engine.RunModelLoop | backend/agent/turn_model.go:48-134 | the loop refines the bounded model loop of the turn specification |
| TurnEngine.Engine.RunOneRound | backend/agent/turn_model.go:64-128 | one round: call, reply, batch; tells whether the turn is over |
| TurnEngine.Engine.MaybeSummarize | backend/agent/context.go:48-76 | stores the summary with the boundary of the cut and keeps exactly the summary and the tail |
| TurnEngine.Engine.LoadHistory | backend/agent/history.go:79-92 | reload followed by at most one summary |
| TurnEngine.Engine.AppendUserMessage | backend/agent/history.go:118-136 | a blank message is not stored; any other is, and its number is returned |
| TurnEngine.Engine.PrepareTurnHistory | backend/agent/history.go:73-114 | superseded calls are closed before the new user turn enters memory |
| TurnEngine.Engine.ResumeQuestion | backend/agent/turn_approval.go:104-131 | the question gets the answer, every other call of the batch a cancellation |
| TurnEngine.Engine.ResumePlan | backend/agent/turn_approval.go:134-153 | confirmation leaves plan mode and enters memory only; feedback enters log and memory as a user turn |
| TurnEngine.Engine.ResumeApprovalPrefix | backend/agent/turn_approval.go:157-208 | refines the decision step for all three kinds of pending action |
| TurnEngine.Engine.RunNewTurn | backend/agent/turn_lifecycle.go:116-182 | a whole turn from a message refines the turn specification |
| TurnEngine.Engine.CheckTools | backend/agent/turn_approval.go:89-99 | names the first pending call whose tool is gone |
| TurnEngine.Engine.Resume | backend/agent/turn_approval.go:45-66 | a whole turn from a decision refines the turn specification and tells which: nothing pending, a stale pending call by name, or continued; a refused resume changes nothing |
| TurnGuard.EveryRunIsSound | backend/agent/turn_lifecycle.go:28-113 | over all interleavings the table and the active turns agree, and every waiting stop and shutdown is sound |
| TurnGuard.OneTurnPerSession | backend/agent/turn_lifecycle.go:28-49 | two active turns of one session are the same turn |
| TurnGuard.BeginNeedsAFreeSession | backend/agent/turn_lifecycle.go:28-42 | a turn may begin iff the engine is open and no active turn has the session |
| TurnGuard.EofMeansReleased | backend/agent/turn_lifecycle.go:102-113 | once the event stream is closed the turn no longer holds the session |
| TurnGuard.FinishedShutdownMeansIdle | backend/agent/turn_lifecycle.go:69-87 | a shutdown that returned nil left the table empty and no turn active |
| TurnGuard.ClosedEngineBeginsNothing | backend/agent/turn_lifecycle.go:28-33 | after closing, no continuation of the run begins a turn or revokes a finished shutdown |
| TurnGuard.ShutdownCanFinish | backend/agent/turn_lifecycle.go:69-87 | from every sound state a pending shutdown can return nil with nothing but the turns it found ending: it waits for nothing else |
| TurnGuard.StopReachesItsTurn | backend/agent/turn_lifecycle.go:52-66 | a returned stop told the turn it found to stop; a drained one saw it release the session |
| TurnGuard.OnlyCallersStopATurn | backend/agent/turn_lifecycle.go:52-79 | a turn is told to stop only by a stop that found it or by a shutdown while it is in the table |
| TurnGuard.Guard.BeginTurn | backend/agent/turn_lifecycle.go:28-42 | the locked section makes the begin step of the protocol; a granted turn is active and has the session |
| TurnGuard.Guard.EndTurn | backend/agent/turn_lifecycle.go:44-49 | removes the session from the table, then closes the done channel: two protocol steps in that order |
| TurnGuard.Guard.LookUpTurn | backend/agent/turn_lifecycle.go:52-60 | finds the active turn of the session iff there is one |
| TurnGuard.Guard.CloseAndMark | backend/agent/turn_lifecycle.go:69-79 | the loop over the table, in any order, marks and lists each handle exactly once |
| JsonPointers.PointerRoundTrip | backend/protocol/continuation_input.go:125-131 | a pointer reads back as the path it was written from (section 4 of RFC 6901) |
| JsonPointers.BelowByText | backend/protocol/continuation_input.go:208-215 | comparing pointer texts by prefix and slash decides exactly whether one location lies below another |
| JsonPointers.TrimmedText | backend/protocol/continuation_input.go:168-175 | cutting the text of a prefix off leaves the pointer of the rest |
| JsonPointers.AtoiOfItoa | backend/protocol/continuation_input.go:185-189 | an array index reads back as the number it was written from |
| ContinuationStrip.ComparePaths | backend/protocol/continuation_input.go:179-193 | the comparison loop computes the deletion order of two locations |
| ContinuationStrip.OrderLeavesUnmoved | backend/protocol/continuation_input.go:179-193 | the order never deletes a location before one it would move or remove |
| ContinuationStrip.OneDeletion | backend/protocol/continuation_input.go:197-201 | deleting one location first and the others after it removes the same set |
| ContinuationStrip.UnmovedDeletionRemovesAll | backend/protocol/continuation_input.go:197-201 | deleting distinct locations one by one equals removing the whole set of original locations at once, nested and shifting ones included, for any list of which none moves a later one |
| ContinuationStrip.OrderedDeletionRemovesAll | backend/protocol/continuation_input.go:164-202 | a list in deletion order moves none, so it is deleted correctly |
| ContinuationInput.SortPaths | backend/protocol/continuation_input.go:179-193 | the in-place insertion sort computes the sorted list |
| ContinuationInput.SortsExactlyWhenTransitive | backend/protocol/continuation_input.go:179-193 | every arrangement of the locations is sorted into deletion order iff the comparison is transitive on them; this is about the order alone |
| ContinuationInput.SortIsSafeExactlyWhenChainsAre | backend/protocol/continuation_input.go:179-202 | every arrangement is sorted into a list of which no deletion moves a later location iff no chain of comparisons leads from a location to one that its deletion moves |
| ContinuationInput.TransitiveIsSafe | backend/protocol/continuation_input.go:179-202 | where the comparison is transitive no such chain exists, in any document that holds the locations |
| ContinuationInput.MembersAreSafe | backend/protocol/continuation_input.go:179-202 | members of one object have no such chain however their names compare, so transitivity is not needed |
| ContinuationInput.UniformIsTransitive | backend/protocol/continuation_input.go:179-193 | the comparison is transitive when sibling segments are of one kind: distinct numbers or no numbers |
| ContinuationInput.ArraySiblingsAgree | backend/protocol/continuation_input.go:179-193 | steps into one array are always of one kind, so only object keys can break the condition |
| ContinuationInput.SortedDeletionRemovesAll | backend/protocol/continuation_input.go:164-202 | sorting any arrangement and deleting one by one equals removing the set, if no such chain exists |
| ContinuationInput.MixedKeysDeleteTheWrongItem | backend/protocol/continuation_input.go:179-193 | object keys "1" and "01" with two carriers in one array: the sorted order deletes the wrong element |
| ContinuationInput.CollectPaths | backend/protocol/continuation_input.go:168-178 | the loop over the removal map collects exactly the locations below the value, in any map order |
| ContinuationInput.Strip | backend/protocol/continuation_input.go:164-202 | the whole method: collect, sort, delete equals removing all locations below the value at once, if no such chain exists |
| ContinuationInput.ContainsRemoval | backend/protocol/continuation_input.go:208-215 | true iff some removal is at or below the location |
| ContinuationInput.SelectCandidates | backend/protocol/continuation_input.go:61-123 | a selection is accepted iff every token is proven where it claims to be, no location repeats, and both budgets hold; then tokens and removals are exactly the candidates' |
| ContinuationInput.ReadContinuationSelections | backend/protocol/continuation_input.go:61-123 | the same for tokens proven by reading the wire value |
| ContinuationInput.AcceptedRemovalsExist | backend/protocol/continuation_input.go:61-123 | an accepted removal names an existing location below the root, which is what stripping needs |
| ChatText.PositionsHoldText | backend/protocol/conversion_text_shape.go:101-113 | reference: each unit of an item's text stands once in the delivered text, in increasing positions |
| ChatText.GrowTracks | backend/protocol/conversion_text_shape.go:173-182 | appending text keeps the spans tiling the item, coalesced, and exact |
| ChatText.Rebase | backend/protocol/conversion_text_shape.go:201-216 | a range is moved iff it is in range and its units are contiguous in the delivered text; the moved range quotes the same text |
| ChatText.NotCovered | backend/protocol/conversion_text_shape.go:205-216 | a range no single span covers is not contiguous: rejection is never spurious |
| ChatText.CoveredIsContiguous | backend/protocol/conversion_text_shape.go:205-213 | a covered range is contiguous and the moved range quotes the same text |
| ChatText.StretchMovesByOffset | backend/protocol/conversion_text_shape.go:101-113 | an item delivered in one stretch has every citation moved by the text before it, as in a complete response |
| ChatText.RebaseAll | backend/protocol/conversion_text_shape.go:185-223 | all citations move iff each of them can |
| ChatText.ChatTextProjection.constructor | backend/protocol/conversion_text_shape.go:122-126 | a projection starts with nothing delivered and its books balanced |
| ChatText.ChatTextProjection.AppendText | backend/protocol/conversion_text_shape.go:170-183 | text is appended unless the span limit is reached and it cannot join the last span |
| ChatText.ChatTextProjection.StartItem | backend/protocol/conversion_text_shape.go:131-149 | registering an item changes nothing delivered |
| ChatText.ChatTextProjection.Deliver | backend/protocol/conversion_text_shape.go:153-184 | a delta is delivered whole, a snapshot from where the delivered text ends; refused iff a snapshot shrinks or the span limit is hit |
| ChatText.SnapshotDeliversIffItExtends | backend/protocol/conversion_text_shape.go:153-184 | after a snapshot that is not shorter the delivered text is the snapshot iff the snapshot extends the text delivered before; the code compares lengths only |
| ChatText.RewritingSnapshotIsLost | backend/protocol/conversion_text_shape.go:153-184 | a snapshot as long as the delivered text but different adds nothing, and the delivered text stays |
| ChatText.ItemLengthsSum | backend/protocol/conversion_text_shape.go:101-113 | in whatever order the text items are listed, their lengths add up to the length of the global text |
| ChatText.ChatTextProjection.Shape | backend/protocol/conversion_text_shape.go:115-232 | one event: exactly its new text is delivered, books stay balanced, every citation handed out quotes its item's text, and each refusal is explained |
| ChatContent.RebaseURLMetadata | backend/protocol/conversion_text_shape.go:10-39 | refused iff a public annotation value is neither missing nor a list of citations with both offsets; otherwise public citations move by the offset and all else is unchanged |
| ChatContent.MergeEntry | backend/protocol/conversion_text_shape.go:69-92 | refused iff the slot is taken and has no concatenation; otherwise the first entry of the slot holds both values joined, every other slot and every shadowed entry is as before |
| ChatContent.JoinText | backend/protocol/conversion_text_shape.go:65-96 | refused iff a citation is malformed or a slot without concatenation is taken; otherwise text and every slot are those of the blocks so far joined with this one |
| ChatContent.ChatContentShape | backend/protocol/conversion_text_shape.go:41-99 | refused exactly for the first later block that cannot be joined and with its reason; otherwise all text is in the first block, each slot holds the values joined in block order, the rest keeps its order |
| ChatContent.CitationsMoveInOrder | backend/protocol/conversion_text_shape.go:10-96 | the public citations of the joined text are those of all blocks in order, none lost or added, each moved by the text before its block |
| ChatContent.MovedCitationQuotesTheSame | backend/protocol/conversion_text_shape.go:41-99 | a moved in-range citation quotes from the joined text what it quoted from its block |
| CollectedMetadata.JoinedSize | backend/protocol/collected_metadata.go:113-120 | joining arrays drops one pair of brackets and adds one comma when both have elements |
| CollectedMetadata.ChargeIsGrowth | backend/protocol/collected_metadata.go:112-121 | the charge is exactly the growth in encoded size, changed path and codec included |
| CollectedMetadata.ExtendedView | backend/protocol/collected_metadata.go:133-139 | a fragment added to its pending batch is a fragment joined at once |
| CollectedMetadata.ChargesAreGrowth | backend/protocol/collected_metadata.go:143-173 | the charges of the pending batches sum to the growth their joining will cause |
| CollectedMetadata.JoinBatches | backend/protocol/collected_metadata.go:143-173 | materializing yields the eager entries and gives back exactly the pending charge, items and bytes |
| CollectedMetadata.MergeBatch | backend/protocol/collected_metadata.go:149-165 | a batch is put back where its identity stands |
| CollectedMetadata.MetadataPosition | backend/protocol/collected_metadata.go:21-28 | finds the first entry with the identity |
| CollectedMetadata.MergeEventMetadata | backend/protocol/collected_metadata.go:181-203 | the eager loop is the left fold of appends |
| CollectedMetadata.PendingMetadata | backend/protocol/collected_metadata.go:62-69 | finds the pending batch of an entry iff there is one |
| CollectedMetadata.MetadataCollector.MaterializeItemMetadata | backend/protocol/collected_metadata.go:143-173 | joins what is pending of one item: only where the fragments are kept changes |
| CollectedMetadata.MetadataCollector.MaterializeMetadata | backend/protocol/collected_metadata.go:175-179 | afterwards the entries are the eager ones and nothing is pending |
| CollectedMetadata.MetadataCollector.RegisterItem | backend/protocol/response_collector.go:535-557 | a new item enters with its own entries and is charged its exact encoded size |
| CollectedMetadata.MetadataCollector.AddEntry | backend/protocol/collected_metadata.go:74-78 | a fragment with a new identity becomes an entry, as in eager merging |
| CollectedMetadata.MetadataCollector.MakeRoom | backend/protocol/collected_metadata.go:79-83 | fragments are joined only when one more would exceed a bound, and then nothing stays pending; the books stay balanced |
| CollectedMetadata.MetadataCollector.ExtendBatch | backend/protocol/collected_metadata.go:104-141 | deferring a fragment advances the eager view by one append and the books by its charge; a refused one changes nothing but the mark that the batch holds elements |
| CollectedMetadata.MetadataCollector.AppendMetadataDelta | backend/protocol/collected_metadata.go:71-141 | one appended fragment, deferred or not, advances the eager view by exactly one append |
| CollectedMetadata.MetadataCollector.CheckDeferrable | backend/protocol/collected_metadata.go:30-60 | true iff every entry is an array that can be appended; changes nothing |
| CollectedMetadata.MetadataCollector.DeferMetadataDelta | backend/protocol/collected_metadata.go:30-60 | a deferred event advances the eager view by the fold of its fragments; an event that cannot be deferred changes nothing |
| SecretMasking.MaskSecretText | backend/agent/masking.go:101-137 | equals the specification that writes one mask for each maximal run of covered positions and copies all others |
| SecretMasking.OrderAndRepetitionDoNotMatter | backend/agent/masking.go:99-137 | the result depends only on the set of nonempty secrets |
| SecretMasking.SpansCover | backend/agent/masking.go:102-117 | the spans found, overlapping occurrences included, cover exactly the positions of some occurrence |
| SecretMasking.FindOccurrences | backend/agent/masking.go:108-116 | the search with restart one past each hit finds every occurrence |
| SecretMasking.SortByStart | backend/agent/masking.go:121 | the spans are sorted and the same |
| SecretMasking.MergeSpans | backend/agent/masking.go:122-136 | merging sorted spans emits the specified text |
| SecretMasking.NothingToMask | backend/agent/masking.go:118-120 | a text without occurrences is unchanged |
| CarrierDelivery.DeliveryIsExactlyOnceInOrder | backend/protocol/continuation_binding.go:85-199 | over every run the delivered tokens are a prefix of the accepted entries, once each and in order; budgets hold; a binding that may finish delivered all its plan accepted |
| CarrierDelivery.CommitExactlyWhenSeen | backend/protocol/continuation_binding.go:154-179 | a batch is committed iff the confirmed tokens are its tokens, each once; refused outputs are the matter of CommitIsOverTheOutput |
| CarrierDelivery.OutputsDeliverExactly | backend/protocol/delivery_range_stream.go:15-38 | whatever frames the output comes in, all are accepted and a fresh batch is committed iff their tokens together are the tokens of the batch, each once |
| CarrierDelivery.OutputDeliversExactly | backend/protocol/continuation_binding.go:363-389 | the same for a batch seen in one output; a token planned twice can never be delivered |
| CarrierDelivery.CommitIsOverTheOutput | backend/protocol/continuation_binding.go:154-179 | over every run: committed without a refusal since the batch began iff the output since then is exactly the batch; a commit is over exactly the output iff nothing was refused |
| CarrierDelivery.BatchIsFrozen | backend/protocol/continuation_binding.go:211-234 | while a batch renders no entry is added and nothing but the whole batch is committed |
| CarrierDelivery.AbortIsFinal | backend/protocol/continuation_binding.go:183-190 | an aborted binding commits nothing more and cannot finish |
| CarrierDelivery.NeverAfterAbort | backend/protocol/continuation_binding.go:183-190 | the same for every continuation of the run |
| CarrierDelivery.RefusalIsNotRemembered | backend/protocol/continuation_binding.go:363-389 | after a refused output the batch can still be committed: the host must abort |
| CarrierDelivery.ContinuationBinding.constructor | backend/protocol/continuation_binding.go:73-82 | a new binding is empty |
| CarrierDelivery.ContinuationBinding.Append | backend/protocol/continuation_binding.go:85-117 | refines the append step: all resource keys indexed, both budgets enforced, refusals change nothing |
| CarrierDelivery.ContinuationBinding.EncodeContinuation | backend/protocol/continuation_binding.go:238-278 | refines the encode step: a batch starts only at a boundary with something pending; a carrier program that fails leaves it started |
| CarrierDelivery.ContinuationBinding.TrackTokens | backend/protocol/continuation_binding.go:211-234 | every token of the batch starts unseen |
| CarrierDelivery.ContinuationBinding.StartBatch | backend/protocol/continuation_binding.go:211-234 | a batch covers all entries not committed, if its view fits the budget |
| CarrierDelivery.ContinuationBinding.Observe | backend/protocol/continuation_binding.go:363-389 | the loop over output tokens confirms each once and refuses a foreign or repeated one |
| CarrierDelivery.ContinuationBinding.CommitDelivery | backend/protocol/continuation_binding.go:154-179 | refines the commit step |
| CarrierDelivery.ContinuationBinding.AbortDelivery | backend/protocol/continuation_binding.go:183-190 | refines the abort step |
| CarrierDelivery.ContinuationBinding.Finish | backend/protocol/continuation_binding.go:143-151 | succeeds iff not aborted and nothing of a client plan is pending |
| CarrierDelivery.ContinuationBinding.Release | backend/protocol/continuation_binding.go:194-199 | refines the release step |
| WaitingEvents.WaitingKeepsOrder | backend/protocol/conversion_stream.go:51-264 | without error or failure, what was sent followed by what waits is the rewritten input in order plus at most one synthesized start; something waits iff something is open; the closing event comes last |
| WaitingEvents.CleanRunTracks | backend/protocol/conversion_stream.go:51-241 | the invariant behind it, over every clean run, active or not |
| WaitingEvents.StartIsSynthesizedOnce | backend/protocol/conversion_stream.go:66-74 | a synthesized start precedes its event and no later event gets another |
| WaitingEvents.AtMostOneStartIsAdded | backend/protocol/conversion_stream.go:51-75 | over every run, clean or not, the expected output has at most one event more than the input |
| WaitingEvents.RewriteTouchesOnlyIdentity | backend/protocol/conversion_stream.go:75-146 | rewriting changes nothing of an event but its response id and the id and model of its response; only a start may gain a response |
| WaitingEvents.OneIdAfterTheStart | backend/protocol/conversion_stream.go:75-146 | over every run, once the stream has an id every further event carries it, one for one, until the source starts another response |
| WaitingEvents.FailureDiscardsTheWaiting | backend/protocol/conversion_stream.go:169-175 | a real failure goes out alone and nothing that waited is ever sent |
| WaitingEvents.ConversionEventState.constructor | backend/protocol/conversion_stream.go:29-34 | a new state is empty |
| WaitingEvents.ConversionEventState.SetOpenKey | backend/protocol/stream_budget_owners.go:87-98 | opening and closing a key keeps the byte account exact |
| WaitingEvents.ConversionEventState.RewriteIdentity | backend/protocol/conversion_stream.go:75-146 | delivery and envelope rewriting refine the pure rewrite, usage carried along |
| WaitingEvents.ConversionEventState.UpdateWaiting | backend/protocol/conversion_stream.go:176-214 | one event starts or stops waiting as specified, within the item limit |
| WaitingEvents.ConversionEventState.QueueEvent | backend/protocol/conversion_stream.go:215-240 | an event is passed on, kept, or flushes everything, as specified, within the node limit and the byte limit of the rewritten events |
| WaitingEvents.ConversionEventState.DeliverEvent | backend/protocol/conversion_stream.go:147-240 | failure, held-back closing event or ordinary event, as specified |
| WaitingEvents.ConversionEventState.PushContext | backend/protocol/conversion_stream.go:51-241 | the whole push refines the stream step; a failure behind a synthesized start still hands out that start |
| WaitingEvents.ConversionEventState.Finish | backend/protocol/conversion_stream.go:312-325 | succeeds iff nothing is open or waiting |
| WaitingEvents.ConversionEventState.DrainTail | backend/protocol/conversion_stream.go:244-264 | hands out the held-back closing event with the usage that arrived after it |
| WaitingEvents.ConversionEventState.Release | backend/protocol/conversion_stream.go:328-331 | a released state holds nothing and refuses every push |
| LogWriter.EveryInterleavingKeepsTheBounds | backend/logging/writer.go:60-112 | over all interleavings retained bytes are those queued, being sent or in the worker's batch and within the bound; a send under the lock finds room in an open channel; at most one sink call; order kept |
| LogWriter.CloseSettlesEveryCall | backend/logging/writer.go:151-169 | once Close returned, every call not refused is settled exactly once and the three counters say so; no sink runs |
| LogWriter.EveryRunConserves | backend/logging/writer.go:60-138 | over all interleavings every admitted event is settled or still in flight, as often as it was admitted |
| LogWriter.EveryRunIsSound | backend/logging/writer.go:60-169 | every reachable state keeps the counting, order, byte, closing and single-sink invariants |
| LogWriter.ClosedIsFinal | backend/logging/writer.go:60-66 | after Close only refused calls are possible and they change nothing |
| LogWriter.CloseCanFinish | backend/logging/writer.go:151-169 | from every reachable state with Close begun, the threads already there have steps, without any further call, after which Close has returned |
| LogWriter.Writer.Enqueue | backend/logging/writer.go:60-80 | the locked section: admit and send, or refuse, drop, or fall back to a synchronous write |
| LogWriter.Writer.CollectBatch | backend/logging/writer.go:87-101 | takes events off the front until the batch is full, the queue empty or the timer fires |
| LogWriter.Writer.RecordWrite | backend/logging/writer.go:126-137 | counts every event of the batch as written or failed |
| LogWriter.Writer.ReleaseBatch | backend/logging/writer.go:106-110 | gives back exactly the bytes of the batch |
| ContentLayout.PartitionContent | backend/protocol/core_control_layout.go:254-267 | the two passes put selected roots before the others, both in their order |
| ContentLayout.StablePartition | backend/protocol/core_control_layout.go:148-217 | the result is the selected roots, in the role their steps set, then the others; refused iff a selected root's steps refuse; a layout step may set only the role (core_control_select.go:32-40) |
| ContentLayout.ChosenCounts | backend/protocol/core_control_layout.go:254-267 | the two halves together are the same roots, as a multiset |
| ContentLayout.CombineChildren | backend/protocol/core_control_layout.go:148-229 | refused iff the selected roots are not one run of plain containers of one kind and role whose steps pass; otherwise exactly that run is combined |
| ContentLayout.CombiningKeepsUnits | backend/protocol/core_control_layout.go:188-227 | combining keeps every child, its order and its role |
| ContentGrouping.GroupRuns | backend/protocol/core_control_group.go:7-89 | the loop with a run start refines run-by-run grouping |
| ContentGrouping.FlushRun | backend/protocol/core_control_group.go:11-54 | a run is turned into one container unless it is a single message |
| ContentGrouping.CollectMembers | backend/protocol/core_control_group.go:27-50 | members are collected iff every root may join |
| ContentGrouping.GroupingKeepsLeaves | backend/protocol/core_control_group.go:7-89 | grouping keeps every leaf, their order and every role; a bare leaf stays bare or gains exactly the declared role |
| ContentGrouping.UnfoldChildren | backend/protocol/core_control_unfold.go:7-79 | the nested loops refine root-by-root unfolding |
| ContentGrouping.SplitContainer | backend/protocol/core_control_unfold.go:58-72 | the split yields the pieces: stretches of other children in containers of their own, selected children bare |
| ContentGrouping.SelectChildren | backend/protocol/core_control_unfold.go:26-42 | the positions collected are exactly those of the selected children |
| ContentGrouping.UnfoldRoot | backend/protocol/core_control_unfold.go:9-72 | one root is split, kept or refused as specified |
| ContentGrouping.UnfoldingKeepsLeaves | backend/protocol/core_control_unfold.go:7-79 | unfolding keeps every leaf and their order; a leaf keeps its role unless taken out |
| ContentGrouping.UnfoldThenGroupIsIdentity | backend/protocol/core_control_unfold.go:26-73 | unfolding leaves out of plain messages and grouping exactly the pieces gives the content back, up to native and source |
| Provenance.ProtectConversionProvenance | backend/protocol/conversion_evaluate.go:466-526 | a change is accepted iff no protected identity occurs more often after it than before |
| Provenance.Check.Collect | backend/protocol/conversion_evaluate.go:475-518 | one walk adds or uses up exactly the count of each identity; checking fails iff some identity is not covered |
| Provenance.Check.CollectFields | backend/protocol/conversion_evaluate.go:476-507 | the same for an object's members in whatever order the table yields them |
| Provenance.Check.Note | backend/protocol/conversion_evaluate.go:494-501 | one occurrence is counted in or used up; a missing one changes nothing |
| Provenance.ChooseOne | backend/protocol/conversion_evaluate.go:481-507 | visiting one more member adds its own count, whichever it is: order does not matter |
| Provenance.CountedMeansOccurs | backend/protocol/conversion_evaluate.go:475-518 | an identity is counted iff some object carries it outside other protected data |
| Provenance.ResourcesKeepTheirOwner | backend/protocol/conversion_evaluate.go:484-493 | resources found after an accepted change stood before it, unaltered, in an object with the same owner: the same members other than source, native, resources and children, which are not compared |
| Provenance.ExchangeIsAcceptedIff | backend/protocol/conversion_evaluate.go:482-501 | two objects of a list may exchange the values of a protected field, whatever else they hold, iff the values are equal, or it is source or native, or it is resources and the owners are equal, or it belongs to the owner and no resources are beside it or equal ones of owners equal in all else |
| Provenance.ExchangeIsAcceptedUnlessOwned | backend/protocol/conversion_evaluate.go:482-493 | two nodes with one protected field may exchange different values of it iff it is not resources or their compared data are equal, whatever their children |
| Provenance.ApplyRules | backend/protocol/conversion_evaluate.go:283-321 | the chain of rules applies each change iff it is included in the value it started from |
| Provenance.RulesCannotAddProtectedData | backend/protocol/conversion_evaluate.go:283-321 | no sequence of authored rules adds protected data |
| ThinkingBudget.PercentIsFloor | backend/protocol/conversion_reasoning.go:158-171 | the split formula is the floor of the exact percentage and every intermediate stays within the limit |
| ThinkingBudget.Share | backend/protocol/conversion_reasoning.go:159-171 | the 64-bit computation yields that floor for each effort |
| ThinkingBudget.CannotFitMeansNoRoom | backend/protocol/conversion_reasoning.go:150-156 | refused iff no limit the resolution may settle on leaves room for the minimum |
| ThinkingBudget.LimitIsAllowed | backend/protocol/conversion_reasoning.go:140-197 | an explicit limit is unchanged; a default grows only within the hard limit and no further than needed |
| ThinkingBudget.BudgetIsAccepted | backend/protocol/conversion_reasoning.go:178-184 | the budget meets minimum, maximum and output limit iff the maximum is absent or at least the minimum; it is always below a non-interleaved limit |
| ThinkingBudget.BudgetIsClosest | backend/protocol/conversion_reasoning.go:178-184 | no accepted budget is closer to the wanted one |
| ThinkingBudget.StrictChangesNoBudget | backend/protocol/conversion_reasoning.go:157-191 | a strict policy resolves only a request whose own budget is accepted, and keeps it |
| ThinkingBudget.ResolvingTwiceChangesNothing | backend/protocol/conversion_reasoning.go:140-197 | a resolved request is a fixed point, also under a strict policy |
| ThinkingBudget.LimitsAreRespected | backend/protocol/conversion_reasoning.go:228-259 | both stages: the caller's limit never changes, the system's never exceeds the confirmed hard limit |
| ThinkingBudget.InterleavedAlwaysFits | backend/protocol/conversion_reasoning.go:150-156 | an interleaved request is never refused for room and keeps its limit |
| ThinkingBudget.Request.ReasoningOutputLimit | backend/protocol/conversion_reasoning.go:228-259 | 64-bit step: validates, fills or cuts the limit; an error changes nothing |
| ThinkingBudget.Request.ManualReasoningBudget | backend/protocol/conversion_reasoning.go:140-197 | every 64-bit step is free of overflow and agrees with unbounded arithmetic; an error changes nothing |

## Left out

- Network, SSE encoding, real timers, heartbeats and transient events that may be dropped by design.
- Store failures, panic recovery, a crash in the middle of a batch, and manual truncation of a session's messages.
- Size limits of tool results: memory uses the limit of the tool, replay the default limit, and both cut text only.
- A plan confirmation enters memory as a user turn and the log as a note that is not replayed; this is modelled as it is, so memory and reload differ by that turn.
- Attachments, session titles, usage totals, the wording of reasoning and the instructions of the agent.
- History.MemoryIsReplay: speaks of mirrored appends and summaries; micro compaction and the plan note change memory only, and the next turn starts from its log again (`TurnSafety.EveryTurnStartsFromItsLog`).
- The turn timeout and the contexts behind a cancelled turn; a cancelled turn is one that may stop before any call.
- Token counts decide when a summary or compaction is tried; here the outcome of that decision is a parameter.
- ContinuationInput.SortPaths: the library sort is an insertion sort, which is what it does up to twelve elements; a longer list is covered by `ContinuationStrip.UnmovedDeletionRemovesAll`, whatever sorted it, if no element moves a later one.
- ContinuationInput.SortedDeletionRemovesAll: for this sort, as above.
- ContinuationInput.Strip: for this sort, as above.
- ContinuationInput.SortIsSafeExactlyWhenChainsAre: exact for whether a deletion moves a later location. That a moved location also shows in the deleted document is proved of an input only, since equal neighbours can hide it.
- TurnEngine.Engine.AppendUserMessage: a message that holds only documents is not modelled; the text decides whether it is stored.
- WaitingEvents.RewriteTouchesOnlyIdentity: the `created_at` attribute, which delivery rewriting also stamps on a response, is not part of a response here.
- Item identity resolution and shared retention budgets of streams.
- Legacy probability metadata, which is merged rather than appended, and the depth and node limits of the metering.
- ContinuationInput.ReadContinuationSelections: candidates carry already parsed fields; the reading of field names and provenance origin is not modelled.
- CollectedMetadata.MetadataCollector.RegisterItem: items are numbered in order of arrival instead of keyed by identity, and the limit on retained items and bytes, which is shared with the rest of the collector, is not applied.
- The metadata locations response, usage and event, which are not kept per item.
- ChatContent.MovedCitationQuotesTheSame: the code does not check ranges here, so this speaks of in-range citations.
- ChatContent.ChatContentShape: a text payload that is not a string, which the code refuses, is not representable, and blocks are values, so a metadata list shared with the input is not modelled.
- ChatText.ChatTextProjection.Shape: an event carries its public citations as decoded offsets; malformed ones, which the code refuses, are not representable here.
- CarrierDelivery.ContinuationBinding.Append: the index of captured identities and the retention budget shared between bindings are not modelled.
- The step limit of layouts and the merging of adjacent text.
- ContentLayout.CombineChildren: roots are values, so sharing of child slices between containers is not modelled.
- Provenance.ApplyRules: built-in actions and node rules are not checked by the code and are not part of the chain; duplicate-free member names are not assumed, the last one counts.
- ThinkingBudget.Request.ManualReasoningBudget: diagnostics are reduced to whether a strict policy refuses them.
- LogWriter.Writer.CollectBatch: the caller states how many more events arrive before the timer fires; durations and the last error are not kept.
- Encryption, authentication and random ids of continuation tokens.
- The expression compiler, JSON codec and mutation internals beyond deletion at a pointer.
