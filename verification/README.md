# A model of the agent runtime's state and sequence logic

The project models, in Dafny, the parts of the runtime that decide what a model, a
user interface or a restarted process gets to see, and proves what they promise:

- **Streaming and history.** The inline reasoning splitter (`InlineReasoning`), the
  repair of persisted history (`HistoryRepair`) and its rendering into chat messages
  (`ChatRendering`), the assembly of interleaved tool calls (`ToolCallDemux`) and the
  extraction of embedded JSON (`ToolArgumentRepair`).
- **Durable coordination.** Leases and fences (`LeaseFencing`), the promise-chain lock
  and versioned updates (`RunLock`), the mailbox (`Mailbox`), the compaction transaction
  over two stores (`CompactionSaga`) and the effect log (`EffectCommit`, with
  `CanonicalValues` for the form behind its digests).
- **Event sourcing and logs.** The runtime-event reducer (`RuntimeReducer`, with
  `RuntimeReadings` for what its result says of the events), the item log
  against the list updated in place (`SessionLog`) and the compaction of usage events
  (`UsageCompaction`).
- **Algorithms.** The cycle check of execution graphs (`ExecutionGraph`) and multi-edit
  text substitution (`TextEdits`).

Each file holds first the specification as functions, then the theorems about it, then
the loops, classes and stores of the source, proved against those functions. `Wrappers`
holds the small helpers they share. Protocols are step functions over the shared state,
with clock readings, fresh tokens, faults and the interleaving as arguments; theorems
about them quantify over all runs. Check everything with `dafny verify dfyconfig.toml`.

Several claims one might make of the code do not hold of it. Each is given with inputs
that show it and with the condition under which the code does keep it:

- The comment on `push` says that no output contains tag markup. Closers outside a block
  and openers inside one are emitted as they are (`RawMarkup`), and a tag cut in two by a
  closed block is emitted whole (`TagReassembled`); `MarkupShowsIff` says exactly when
  output reads as markup, and `NoStrayBracketIff` when it is free of brackets. The comment
  on `flush` says that it emits the accumulated reasoning; it emits the deferred tail, on
  whichever side it is.
- History repair is not idempotent when a run of calls mixes turns (`RepairNotIdempotent`);
  it is exactly on anchored histories (`IdempotentIffAnchored`).
- The graph check can accept a loop-free cycle (`CycleMissed`, and for cycles of any length
  `DetourMissed`). It does so only where the cycle shares an edge with a cycle that has a
  loop mark (`AcceptanceIsSound`, `ExactUnlessExcusable`). Within those graphs no condition
  on nodes and edges alone decides it, for the order in which they are listed does
  (`OrderDecides`).
- The epochs of accepted writes can go down after crashes (`EpochCanDecrease`);
  `EpochsOrderedIff` says exactly when they do not. A superseded fence is still never
  accepted for a snapshot, and for an event only where the store requires none
  (`SupersededNeverWrites`, `DeadAppends`).
- A completion without a fence can change a message that is done to another final status
  (`OverwritesTerminal` says exactly when; `DoneForGood` what nothing else can change).
- Needles that overlap themselves count as unique (`OverlapUncounted`; `OneOccurrence`
  says exactly what is counted).
- Replaying the events of several threads depends on which comes first in the list given,
  and on nothing else of their order (`ReplayPermutesIff`).
- Preparing an effect again after its commit leaves it pending for good (`LingersIff`),
  and a commit whose run state was lost can be repeated with another result
  (`LostStateCommitsTwice`; `OneCommitIff` and `ResultKeptIff` say exactly when).

## Model

| member | source | states |
|---|---|---|
| InlineReasoning.ChunkInvariance | packages/adapters/adapter-model/src/inline-reasoning-extractor.ts:61-141 | Pushing a text in any chunks and flushing emits the same text and the same reasoning as pushing it whole and flushing. |
| InlineReasoning.RunSplit | packages/adapters/adapter-model/src/inline-reasoning-extractor.ts:61-123 | A scan of `a + b` equals a scan of `a` followed by a scan of the deferred tail and `b`, in either state, for every clean tag vocabulary. |
| InlineReasoning.RunFollowsReading | packages/adapters/adapter-model/src/inline-reasoning-extractor.ts:61-141 | However a text is read as contents with alternating openers and closers between them, what is emitted is exactly the outer contents as text and the inner ones as reasoning. |
| InlineReasoning.StateFollowsReading | packages/adapters/adapter-model/src/inline-reasoning-extractor.ts:61-123 | After one pass the extractor is on the side to which the tags read have led, and its buffer, with the tail deferred inside, is the last block. |
| InlineReasoning.ReadingExists | packages/adapters/adapter-model/src/inline-reasoning-extractor.ts:71-117 | Every text has such a reading, so each character is emitted once or belongs to a recognised tag. |
| InlineReasoning.TailIsSettled | packages/adapters/adapter-model/src/inline-reasoning-extractor.ts:149-180 | The deferred tail is at most MAX_TAG_LEN long and scanning it again emits nothing. |
| InlineReasoning.TailMayBeTag | packages/adapters/adapter-model/src/inline-reasoning-extractor.ts:149-180 | Nothing is held back without need: unless it holds a Kelvin sign, some rest makes the deferred tail a tag. |
| InlineReasoning.LongestTailIsDeferred | packages/adapters/adapter-model/src/inline-reasoning-extractor.ts:36 | The bound is tight: `</reflection` is deferred whole. |
| InlineReasoning.TagPrefixIsTagStart | packages/adapters/adapter-model/src/inline-reasoning-extractor.ts:169-180 | Every proper non-empty prefix of a tag is recognised as a possible tag start, so no tag is lost to a cut. |
| InlineReasoning.TagsAreThese | packages/adapters/adapter-model/src/inline-reasoning-extractor.ts:28-33 | The tags are the six names opened and closed, each ASCII letter in either case, and nothing else. |
| InlineReasoning.MarkupShowsIff | packages/adapters/adapter-model/src/inline-reasoning-extractor.ts:57-60 | Exactly when output reads as markup: text holds an opener only if an outer content ends in a proper prefix of one that the contents after it complete; it holds a closer then too, or if an outer content holds one raw; reasoning likewise with the kinds swapped. |
| InlineReasoning.NoStrayBracketIff | packages/adapters/adapter-model/src/inline-reasoning-extractor.ts:57-60 | Neither output holds a `<`, and so no markup, exactly when every `<` of the text belongs to a recognised tag. |
| InlineReasoning.RawMarkup | packages/adapters/adapter-model/src/inline-reasoning-extractor.ts:57-60 | Inputs against the comment on `push`: any closer outside a block is emitted as text, any opener inside one as reasoning. |
| InlineReasoning.RawAsk | packages/adapters/adapter-model/src/inline-reasoning-extractor.ts:28-33 | So `</ask>` alone comes out as text, and `<ask><ask>` gives `<ask>` as reasoning. |
| InlineReasoning.TagReassembled | packages/adapters/adapter-model/src/inline-reasoning-extractor.ts:57-60 | Any opener cut in two by a closed block is emitted whole as text. |
| InlineReasoning.InlineReasoningExtractor.Push | packages/adapters/adapter-model/src/inline-reasoning-extractor.ts:61-123 | The object emits, keeps and defers what the one-pass scan of the tail and the chunk says. |
| InlineReasoning.InlineReasoningExtractor.Flush | packages/adapters/adapter-model/src/inline-reasoning-extractor.ts:129-141 | The deferred tail is emitted on the side the extractor is on, and nothing stays deferred. |
| InlineReasoning.Extract | packages/adapters/adapter-model/src/inline-reasoning-extractor.ts:61-141 | A whole stream of pushes and a flush emits the contents of every reading of the joined text. |
| HistoryRepair.LegalIffPaired | packages/domain-layer/domain/src/model-history-repair.ts:3-10 | A history is legal exactly when the calls of each whole run have distinct ids, each call has exactly one answer, and each result answers a call; an answer has the id of the call and stands in the block behind its run, where only results and bridge items of the turn of its first call stand. |
| HistoryRepair.OneCallPerResult | packages/domain-layer/domain/src/model-history-repair.ts:3-10 | A result answers one call only. |
| HistoryRepair.UnchangedIffLegal | packages/domain-layer/domain/src/model-history-repair.ts:11-64 | Repair leaves a history as it is exactly when the history is legal. |
| HistoryRepair.IdempotentIffAnchored | packages/domain-layer/domain/src/model-history-repair.ts:11-64 | Repair yields a legal history, and repairing twice is repairing once, exactly when the history is anchored: no run of calls loses its first calls in a way that cuts its block short under another turn. |
| HistoryRepair.LegalIffAnchored | packages/domain-layer/domain/src/model-history-repair.ts:11-64 | The repaired history is legal exactly when the original is anchored. |
| HistoryRepair.RepairedIsLegal | packages/domain-layer/domain/src/model-history-repair.ts:11-64 | When each run of calls has one turn, the repaired history is legal and a second repair changes nothing. |
| HistoryRepair.RepairNotIdempotent | packages/domain-layer/domain/src/model-history-repair.ts:35-48 | A concrete history with two turns in one run which a second repair shortens again. |
| HistoryRepair.RepairKeepsTheRest | packages/domain-layer/domain/src/model-history-repair.ts:49-63 | Repair drops calls and results only: all other items stay, in order. |
| HistoryRepair.RepairedAreSurvivors | packages/domain-layer/domain/src/model-history-repair.ts:11-96 | Repair keeps exactly, in order: a call that is the first of its id in its run and has a result for it in the block behind; a result that is the first of its id in such a block; and every other item. |
| HistoryRepair.AsideChangesNothing | packages/domain-layer/domain/src/model-history-repair.ts:98-114 | Reasoning, approvals, user inputs, progress and errors inserted anywhere but between two adjacent calls leave the surviving calls and results the same. |
| HistoryRepair.BarrierParts | packages/domain-layer/domain/src/model-history-repair.ts:98-114 | A user message, compaction or review parts the history: what stands before and what stands behind it are repaired each on its own. |
| HistoryRepair.NoCallNoResult | packages/domain-layer/domain/src/model-history-repair.ts:11-64 | Before the first call every result is dropped and everything else kept. |
| HistoryRepair.TextParts | packages/domain-layer/domain/src/model-history-repair.ts:98-114 | An assistant text passes, changing no surviving call or result, exactly where a run of calls of its turn stands before it with only passing items in between and no result yet; anywhere else it parts the history. |
| HistoryRepair.FindResultBlock | packages/domain-layer/domain/src/model-history-repair.ts:66-96 | From any start, turn and id set, the scan returns the ids found and the positions of the first result of each expected id in the block that starts there. |
| HistoryRepair.KeptIndexes | packages/domain-layer/domain/src/model-history-repair.ts:15-47 | The outer loop marks exactly the calls and results that the pass over the list keeps. |
| HistoryRepair.RepairModelHistoryItems | packages/domain-layer/domain/src/model-history-repair.ts:11-64 | The index-set algorithm returns the list the one-pass specification returns. |
| ChatRendering.RepairedRenders | packages/adapters/adapter-model/src/model-compat-client.ts:609-646 | After repair of an anchored history, what is rendered is healthy, healing is the identity on it, every user message and non-blank assistant text of the original is said exactly once, in order, and so are all calls with id, name and arguments, all results with id and output, summaries and reviews of the repaired history. |
| ChatRendering.NoBlockLost | packages/adapters/adapter-model/src/model-compat-client.ts:648-710 | In a repaired anchored history no run of calls fails to render. |
| ChatRendering.LegalRendersPaired | packages/adapters/adapter-model/src/model-compat-client.ts:722-734 | Rendering a legal history gives call messages each followed at once by one tool message per call id, and no tool message elsewhere. |
| ChatRendering.RenderDelivers | packages/adapters/adapter-model/src/model-compat-client.ts:737-792 | Read off the messages of a legal history, the calls with id, name and arguments, the tool messages with id and content, and the notes are, in order, those of its items. |
| ChatRendering.BlockCarries | packages/adapters/adapter-model/src/model-compat-client.ts:648-720 | A call message carries the non-blank texts, and in thinking mode the joined non-blank reasonings, from the first item that leads to its run up to the first result. |
| ChatRendering.BlockSigned | packages/adapters/adapter-model/src/model-compat-client.ts:720-726 | In thinking mode the call message is signed by the first reasoning leading to it that has a signature, outside it by none. |
| ChatRendering.LinesJoin | packages/adapters/adapter-model/src/model-compat-client.ts:722-726 | Joined reasonings have one line break between any two parts. |
| ChatRendering.ThinkingThroughout | packages/adapters/adapter-model/src/model-compat-client.ts:609-646 | In thinking mode every assistant message has a reasoning that is not blank or one space, outside it none has any. |
| ChatRendering.ReasoningMerges | packages/adapters/adapter-model/src/model-compat-client.ts:622-640 | In thinking mode a reasoning and the text of its turn right behind it make one message. |
| ChatRendering.RenderSays | packages/adapters/adapter-model/src/model-compat-client.ts:609-707 | Rendering a legal history says what the history says: nothing is lost or said twice between the look-ahead and the look-behind. |
| ChatRendering.HeldStep | packages/adapters/adapter-model/src/model-compat-client.ts:2368-2393 | The items the look-ahead skips are exactly those the look-behind of the next block collects. |
| ChatRendering.LegalBlock | packages/adapters/adapter-model/src/model-compat-client.ts:648-735 | A run of calls in a legal history renders to a block whose results answer its calls one to one. |
| ChatRendering.HealIsHealthy | packages/adapters/adapter-model/src/model-compat-client.ts:2726-2754 | Healing makes any message list healthy. |
| ChatRendering.StrayToolsHealed | packages/adapters/adapter-model/src/model-compat-client.ts:2726-2754 | Tool messages that follow no call message are dropped. |
| ChatRendering.OtherMessagesHealed | packages/adapters/adapter-model/src/model-compat-client.ts:2726-2754 | Every message that neither calls nor answers is kept. |
| ChatRendering.CallBlockHealed | packages/adapters/adapter-model/src/model-compat-client.ts:2726-2754 | A call message is kept, with every tool message behind it that answers one of its calls, exactly when each call is answered; otherwise all of them go. |
| ChatRendering.UnchangedIffHealthy | packages/adapters/adapter-model/src/model-compat-client.ts:2726-2754 | Healing leaves a message list alone exactly when it is healthy. |
| ChatRendering.IsBridgeItemBeforeToolCall | packages/adapters/adapter-model/src/model-compat-client.ts:2377-2393 | The look-ahead loop decides whether only bridge items of its turn separate the item from a call of that turn. |
| ChatRendering.LeftForCallIff | packages/adapters/adapter-model/src/model-compat-client.ts:2368-2393 | An item is left to a later call message exactly when it is a text or reasoning and only texts, reasonings, approvals, user inputs and errors of its turn stand between it and a call of its turn. |
| ChatRendering.ToolCallBlockToMessages | packages/adapters/adapter-model/src/model-compat-client.ts:648-735 | The loops over calls, preceding and following items build the block of the specification, or none when a result is missing. |
| ChatRendering.ItemsToMessages | packages/adapters/adapter-model/src/model-compat-client.ts:609-646 | The index loop renders the items as the specification does, position by position. |
| ChatRendering.HealToolMessagePairs | packages/adapters/adapter-model/src/model-compat-client.ts:2726-2754 | The loop drops stray tool messages and incomplete call blocks as the specification does. |
| ExecutionGraph.RejectionIsSound | packages/engine/loop/src/execution-graph.ts:36-47 | A reported cycle is a closed walk of the graph without loop-marked edges, so a graph without one is never rejected for cycles. |
| ExecutionGraph.AcceptanceIsSound | packages/engine/loop/src/execution-graph.ts:39-57 | A loop-free cycle of an accepted graph has an edge that also lies on a cycle without repeated nodes that has a loop mark. |
| ExecutionGraph.ExactUnlessExcusable | packages/engine/loop/src/execution-graph.ts:26-68 | When no loop-free cycle shares an edge with such a marked cycle, exactly the graphs without loop-free cycles are accepted, in whatever order nodes and edges are listed. |
| ExecutionGraph.UnmarkedExactlyAcyclic | packages/engine/loop/src/execution-graph.ts:26-68 | On graphs without loop-marked edges exactly the acyclic ones are accepted. |
| ExecutionGraph.DetourMissed | packages/engine/loop/src/execution-graph.ts:39-57 | Whatever their lengths: a loop-free cycle that shares a stretch with a marked cycle is missed in the graph of the two when the marked one is listed first. |
| ExecutionGraph.CycleMissed | packages/engine/loop/src/execution-graph.ts:39-57 | A graph with a loop-marked edge whose loop-free cycle is accepted. |
| ExecutionGraph.OrderDecides | packages/engine/loop/src/execution-graph.ts:39-57 | The same graph with its edges listed in another order is rejected. |
| ExecutionGraph.CycleSearch.Visit | packages/engine/loop/src/execution-graph.ts:36-59 | The recursive visit over the two sets and the two stacks finds the cycle, or finishes the nodes, that the functional search does. |
| ExecutionGraph.CycleError | packages/engine/loop/src/execution-graph.ts:26-68 | The check reports a cycle exactly when the search finds one. |
| ExecutionGraph.ConditionNames | packages/engine/loop/src/execution-graph.ts:85-86 | A condition names its predicate with or without `predicate:` in front, which is taken off once. |
| ExecutionGraph.WellFormedIff | packages/engine/loop/src/execution-graph.ts:70-86 | Well formed means: version, node ids and conditions hold something visible, each node is listed once, the start and the ends of edges are nodes, and each condition names a registered predicate. |
| ExecutionGraph.ValidateExecutionGraph | packages/engine/loop/src/execution-graph.ts:70-90 | A graph is accepted exactly when it is well formed and its search is done; a reported error is one the graph has, by kind, and a cycle error comes with a loop-free cycle. |
| LeaseFencing.SupersededNeverWrites | packages/adapters/adapter-storage/src/file-run-state-store.ts:86-93 | Once a lease is replaced or removed, no later run, crashes included, saves a snapshot under its fence, whether the store requires fences or not, nor appends an event when it does. |
| LeaseFencing.DeadAppends | packages/adapters/adapter-storage/src/file-run-event-store.ts:20-46 | An append under a dead fence is answered exactly when the store does not require fences and the event is known or its number free. |
| LeaseFencing.ReplacedIsDead | packages/adapters/adapter-storage/src/file-run-state-store.ts:46-84 | A release, or an acquire that replaces the lease, makes the old token dead for good. |
| LeaseFencing.EpochsOrderedIff | packages/adapters/adapter-storage/src/file-run-state-store.ts:55-93 | Crashes included: accepted snapshot and event writes have non-decreasing epochs and each grant a larger one than all before it, exactly when nobody acquires while the lease file is gone and the epoch file lacks an epoch that was granted. |
| LeaseFencing.TornByRelease | packages/adapters/adapter-storage/src/file-run-state-store.ts:78-84 | The files get into that state only by the release of a lease whose epoch was never recorded. |
| LeaseFencing.AtMostOneHolder | packages/adapters/adapter-storage/src/file-run-state-store.ts:46-76 | A second holder is granted the lease only after the first one released it or ran out. |
| LeaseFencing.EpochCanDecrease | packages/adapters/adapter-storage/src/file-run-state-store.ts:55-59 | After two crashes between writing the lease and writing the epoch, and a release, the next holder writes under a smaller epoch. |
| LeaseFencing.EventsGrowUnique | packages/adapters/adapter-storage/src/file-run-event-store.ts:20-34 | The event log only grows, and its event ids and its sequence numbers stay distinct. |
| LeaseFencing.SnapshotIsLastSaved | packages/adapters/adapter-storage/src/file-run-state-store.ts:23-29 | After any run the snapshot is the state of the last save that was answered as saved, or the first one if there is none. |
| LeaseFencing.EventsAreAppended | packages/adapters/adapter-storage/src/file-run-event-store.ts:20-34 | After any run the log holds what it held and then exactly the events whose append was answered, in order and once each. |
| LeaseFencing.AcquireSays | packages/adapters/adapter-storage/src/file-run-state-store.ts:46-62 | A lease is refused to others while it lasts, given again to its holder, and otherwise replaced under an epoch larger than any on file. |
| LeaseFencing.RenewSays | packages/adapters/adapter-storage/src/file-run-state-store.ts:64-76 | A renewal is granted exactly to the holder, under its fence or none, while the lease lasts and the lifetime is given. |
| LeaseFencing.ReleaseSays | packages/adapters/adapter-storage/src/file-run-state-store.ts:78-84 | A release removes the lease exactly for the holder under its fence or none. |
| LeaseFencing.SaveSays | packages/adapters/adapter-storage/src/file-run-state-store.ts:23-29 | A save writes the state exactly when its fence equals the unexpired lease in holder, epoch and token, or none is given and none required. |
| LeaseFencing.AppendSays | packages/adapters/adapter-storage/src/file-run-event-store.ts:20-46 | An append adds the event exactly when the fence allows it and neither its id nor its number is taken; a known id gives the stored event. |
| LeaseFencing.FileRunStore.AcquireLease | packages/adapters/adapter-storage/src/file-run-state-store.ts:46-62 | The grant, the refusal and the new lease and epoch files are those of the protocol step. |
| LeaseFencing.FileRunStore.RenewLease | packages/adapters/adapter-storage/src/file-run-state-store.ts:64-76 | The lease in force is extended for its holder under its fence, and no other. |
| LeaseFencing.FileRunStore.ReleaseLease | packages/adapters/adapter-storage/src/file-run-state-store.ts:78-84 | The lease is removed exactly when its holder asks with its fence or none. |
| LeaseFencing.FileRunStore.SaveSnapshot | packages/adapters/adapter-storage/src/file-run-state-store.ts:23-29 | The answer is that of the protocol step, the snapshot of the scope is the given state exactly when it is `Saved`, and all other snapshots stay. |
| LeaseFencing.FileRunStore.AppendEvent | packages/adapters/adapter-storage/src/file-run-event-store.ts:20-46 | An event is appended, found again or refused as the protocol step says. |
| Mailbox.OldestIsLeast | packages/adapters/adapter-storage/src/in-memory-multi-agent-store.ts:216-221 | Each claim takes a claimable message of the agent with the least creation time, the first among equals, and finds one whenever there is one. |
| Mailbox.RunRefines | packages/adapters/adapter-storage/src/in-memory-multi-agent-store.ts:206-240 | Every run in which claims carry leases and completions their fences refines the protocol of open, held and closed messages. |
| Mailbox.MailboxSafety | packages/adapters/adapter-storage/src/in-memory-multi-agent-store.ts:206-262 | Over such a run claim intervals of one message are disjoint with growing epochs, and a completion is the last thing that happens to it, made by its latest claimer. |
| Mailbox.DoneForGood | packages/adapters/adapter-storage/src/in-memory-multi-agent-store.ts:206-282 | Once done, a message stays done whatever is enqueued, claimed and completed later, and only a completion without a fence or a completed copy enqueued can change it at all. |
| Mailbox.OverwritesTerminal | packages/adapters/adapter-storage/src/in-memory-multi-agent-store.ts:233-240 | A completion changes a message already done exactly when it asks for another status and carries no fence, or that of a claim the message still has. |
| Mailbox.CompletionStores | packages/adapters/adapter-storage/src/in-memory-multi-agent-store.ts:233-240 | A completion stores its status and drops the claim when it carries no fence or one with the holder, epoch and token of the claim, and otherwise changes nothing. |
| Mailbox.ClaimStores | packages/adapters/adapter-storage/src/in-memory-multi-agent-store.ts:216-231 | The claimed message is delivered under the next epoch for the lifetime of the lease; all other fields and messages stay, and nothing is claimed only when nothing can be. |
| Mailbox.EnqueueKeepsProgress | packages/adapters/adapter-storage/src/in-memory-multi-agent-store.ts:206-214 | An enqueued copy replaces the message exactly when it is new, leaves the queued state, or is completed where the message is not. |
| Mailbox.InMemoryMailboxStore.Enqueue | packages/adapters/adapter-storage/src/in-memory-multi-agent-store.ts:206-214 | The message is added, or merged by rank of status, as the step says. |
| Mailbox.InMemoryMailboxStore.ClaimNext | packages/adapters/adapter-storage/src/in-memory-multi-agent-store.ts:216-231 | The oldest claimable message is delivered under the next epoch, and nothing else changes. |
| Mailbox.InMemoryMailboxStore.Complete | packages/adapters/adapter-storage/src/in-memory-multi-agent-store.ts:233-240 | The message takes the status and loses its claim, or stays, or the stale fence is refused. |
| RunLock.LockSafety | packages/adapters/adapter-storage/src/in-memory-multi-agent-store.ts:165-182 | Over every interleaving of arrivals, starts, settlements and clean-ups at most one operation runs, they run in order of arrival, and the map entry is gone when all are cleaned up. |
| RunLock.NeverStalls | packages/adapters/adapter-storage/src/in-memory-multi-agent-store.ts:165-182 | The first operation not yet settled is running or can start, so a failure before it never blocks the queue. |
| RunLock.UpdatesAreSerial | packages/adapters/adapter-storage/src/in-memory-multi-agent-store.ts:70-89 | However updates overlap, the run is the last of the values that the accepted mutators return one on the other, the version is their number, of two updates expecting one version at most one is accepted, and a fenced one only if its fence was in force when it started. |
| RunLock.EndDecides | packages/adapters/adapter-storage/src/in-memory-multi-agent-store.ts:70-89 | In any interleaving an update that ends is accepted exactly when its fence was in force at its start, its expected version is the current one and its mutator returns a value for the current value; that value is then the run. |
| RunLock.MultiAgentRunStore.Update | packages/adapters/adapter-storage/src/in-memory-multi-agent-store.ts:70-89 | `Ok(v)` means that the mutator returned `v` for the old value and `v` is stored with the version raised; missing run, stale fence, version and mutator failures are told in that order, and change nothing; other runs stay. |
| ToolArgumentRepair.EmbeddedRoundTrip | packages/adapters/adapter-model/src/tool-argument-repair.ts:67-99 | A JSON object (or array) printed by the grammar of RFC 8259, sections 2 to 7, comes back whole from any text in which no opening bracket precedes it. |
| ToolArgumentRepair.ExtractedIff | packages/adapters/adapter-model/src/tool-argument-repair.ts:67-99 | For any text: what is extracted runs from the first opening bracket to the first place where, outside strings and escapes told by counting quotes and backslashes, it is closed; nothing is extracted exactly when there is none. |
| ToolArgumentRepair.JsonIsNeutral | packages/adapters/adapter-model/src/tool-argument-repair.ts:71-99 | Read at any depth, the text of a JSON value leaves the depth as it was and the scan outside strings and escapes. |
| ToolArgumentRepair.ExtractBalanced | packages/adapters/adapter-model/src/tool-argument-repair.ts:71-99 | The loop over depth, string and escape flags returns what the recursive scan returns. |
| TextEdits.DescendingIsSimultaneous | packages/adapters/adapter-tools/src/builtin-tool-utils.ts:622-626 | Applying disjoint patches from the last to the first is the simultaneous piecewise substitution on the original. |
| TextEdits.SucceedsIff | packages/adapters/adapter-tools/src/builtin-tool-utils.ts:594-627 | The edits succeed exactly when every old text occurs once as counted and the ranges are disjoint, and then the result is that substitution. |
| TextEdits.PatchesSay | packages/adapters/adapter-tools/src/builtin-tool-utils.ts:599-612 | The patch of an edit replaces exactly the first place where its old text matches, by its new text. |
| TextEdits.FirstFailure | packages/adapters/adapter-tools/src/builtin-tool-utils.ts:594-612 | The error names the first edit whose old text does not occur exactly once, with the number of its occurrences. |
| TextEdits.OverlapReported | packages/adapters/adapter-tools/src/builtin-tool-utils.ts:613-621 | When every old text occurs once, the edits fail exactly when two ranges overlap, and say so. |
| TextEdits.OrderIrrelevant | packages/adapters/adapter-tools/src/builtin-tool-utils.ts:594-627 | Every permutation of the edits gives the same result. |
| TextEdits.UntouchedKept | packages/adapters/adapter-tools/src/builtin-tool-utils.ts:622-625 | Every character outside the edited ranges is kept. |
| TextEdits.NewTextPlaced | packages/adapters/adapter-tools/src/builtin-tool-utils.ts:622-625 | Every new text stands where the text before its range has moved to. |
| TextEdits.SubstitutedLength | packages/adapters/adapter-tools/src/builtin-tool-utils.ts:622-626 | The length of the result is that of the source plus the differences of the new and old lengths. |
| TextEdits.OneOccurrence | packages/adapters/adapter-tools/src/builtin-tool-utils.ts:582-592 | One occurrence is counted exactly when the needle occurs and every other occurrence overlaps the first. |
| TextEdits.OverlapUncounted | packages/adapters/adapter-tools/src/builtin-tool-utils.ts:590 | A needle with two overlapping occurrences counts as unique. |
| TextEdits.FindOccurrences | packages/adapters/adapter-tools/src/builtin-tool-utils.ts:582-592 | The loop returns the non-overlapping occurrences from left to right. |
| TextEdits.ApplyExactTextEdits | packages/adapters/adapter-tools/src/builtin-tool-utils.ts:594-627 | The three loops return the substituted text or the first failing edit. |
| SessionLog.LogRefinesMemory | packages/adapters/adapter-storage/src/file-session-store.ts:61-165 | Over any sequence of appends, updates, their once-forms and rewrites with distinct ids, loading the log gives the list updated in place and every call answers the same. |
| SessionLog.StepAgrees | packages/adapters/adapter-storage/src/in-memory-session-store.ts:34-111 | One operation keeps the two stores in agreement. |
| SessionLog.LoadedSnoc | packages/adapters/adapter-storage/src/file-session-store.ts:154-165 | Appending to the log acts on the loaded list as replacing in place or appending. |
| SessionLog.LoadedDistinct | packages/adapters/adapter-storage/src/file-session-store.ts:95-99 | A log rewritten with distinct items loads as those items. |
| SessionLog.KnownStep | packages/adapters/adapter-storage/src/file-session-store.ts:61-145 | For an id in the log: appending once returns its last item; an update adds that item with the patch's fields over its own, the once-form only when some field differs. |
| SessionLog.UnknownStep | packages/adapters/adapter-storage/src/file-session-store.ts:61-145 | For an id not in the log: appending once adds the item, both updates answer that it is missing. |
| SessionLog.LoadedHolds | packages/adapters/adapter-storage/src/file-session-store.ts:154-165 | An item is loaded exactly when it is the last one written under its id. |
| SessionLog.LoadedInOrder | packages/adapters/adapter-storage/src/file-session-store.ts:154-165 | Loaded items stand in the order in which their ids were first written. |
| SessionLog.LoadItems | packages/adapters/adapter-storage/src/file-session-store.ts:154-165 | The loop over map and order returns first-write order with last-written values. |
| SessionLog.FileSessionStore.UpdateItemOnce | packages/adapters/adapter-storage/src/file-session-store.ts:111-145 | The log and the answer are those of the log step. |
| SessionLog.InMemorySessionStore.UpdateItem | packages/adapters/adapter-storage/src/in-memory-session-store.ts:77-96 | The list and the answer are those of the in-place step. |
| UsageCompaction.KeptSpec | packages/adapters/adapter-storage/src/file-session-store.ts:263-287 | The result is a subsequence: exactly the events at the kept positions, in order. |
| UsageCompaction.CompactionIdempotent | packages/adapters/adapter-storage/src/file-session-store.ts:243-288 | Compacting again with the same cutoff changes nothing. |
| UsageCompaction.OthersKept | packages/adapters/adapter-storage/src/file-session-store.ts:267-270 | Every event of another kind is kept. |
| UsageCompaction.LastEventKept | packages/adapters/adapter-storage/src/file-session-store.ts:263-287 | The last event is kept. |
| UsageCompaction.HighestSeqUnchanged | packages/adapters/adapter-storage/src/file-session-store.ts:263-287 | On a log in sequence order the highest sequence number stays. |
| UsageCompaction.BucketRepresented | packages/adapters/adapter-storage/src/file-session-store.ts:278-284 | Every retained usage event is represented by the last one of its bucket. |
| UsageCompaction.OneOldSurvives | packages/adapters/adapter-storage/src/file-session-store.ts:290-300 | At most one usage event from before the cutoff survives, the latest. |
| UsageCompaction.SurvivesIff | packages/adapters/adapter-storage/src/file-session-store.ts:263-300 | Of the usage events before the cutoff the last survives; another survives exactly when each later one of its model and day is before the cutoff and not the last of those. |
| UsageCompaction.BucketsMatch | packages/adapters/adapter-storage/src/file-session-store.ts:302-308 | Two usage events share a bucket exactly when they have the same model and fall on the same day, or have the same unreadable timestamp. |
| UsageCompaction.CompactUsageEvents | packages/adapters/adapter-storage/src/file-session-store.ts:243-288 | The two loops over indexes and buckets return the specified subsequence. |
| CompactionSaga.TransactionIsAtomic | packages/engine/loop/src/compaction-transaction.ts:45-135 | Whatever step fails and whatever other clients do to the task store meanwhile, a returned summary means the item view gained exactly it and revision r+1 naming it is active; a throw leaves the item view and this client's share of the task store as they were. |
| CompactionSaga.TransactionSucceedsIff | packages/engine/loop/src/compaction-transaction.ts:45-135 | The transaction goes through exactly when its input is complete and its revision current, no step fails, and nobody else has committed in its scope when it prepares and when it commits; it is unneeded exactly when there is nothing to replace. |
| CompactionSaga.OutcomeSays | packages/engine/loop/src/compaction-transaction.ts:58-135 | What is returned: the compacted items with the stamped summary in place of each item of its id, the summary with the stamp's fields over its own, and the next task state recording id, revision, digest, sources and tokens; or the unchanged items when nothing is replaced. |
| CompactionSaga.EndsClean | packages/adapters/adapter-storage/src/in-memory-task-state-store.ts:42-57 | Committing or aborting a preparation leaves nothing of it behind. |
| CompactionSaga.CommitsCountUp | packages/adapters/adapter-storage/src/in-memory-task-state-store.ts:24-52 | Over any interleaving the revisions committed in a scope are consecutive. |
| CompactionSaga.OneCommitPerExpected | packages/adapters/adapter-storage/src/in-memory-task-state-store.ts:42-52 | Of the preparations expecting one revision at most one commits. |
| CompactionSaga.CompactionTransaction.Compact | packages/engine/loop/src/compaction-transaction.ts:45-135 | The transaction over the two stores ends as its functional form does, including the compensating writes. |
| ToolCallDemux.EachCallOnce | packages/adapters/adapter-model/src/model-compat-client.ts:1027-1074 | For any interleaving of well-marked fragments each call streams exactly its arguments and, when named, completes exactly once with them. |
| ToolCallDemux.FinishedOrNot | packages/adapters/adapter-model/src/model-compat-client.ts:901-914 | With a finish reason in the last payload or none, every call of a stream streams its arguments and completes once, at the finish reason or at the end. |
| ToolCallDemux.EachStreamedCallOnce | packages/adapters/adapter-model/src/model-compat-client.ts:1027-1074 | Wherever finish reasons stand, a call whose id no other group of fragments uses streams its arguments and completes once over the whole stream. |
| ToolCallDemux.NoOtherCall | packages/adapters/adapter-model/src/model-compat-client.ts:1027-1074 | An id of no call neither streams nor completes anything. |
| ToolCallDemux.EachCallByIdOnce | packages/adapters/adapter-model/src/model-compat-client.ts:1027-1074 | Fragments without index but with ids: each id streams its arguments and, when named, completes exactly once with them. |
| ToolCallDemux.AnonymousAreNumbered | packages/adapters/adapter-model/src/model-compat-client.ts:2690-2708 | Fragments with neither index nor id are each a call of their own, `call_1`, `call_2` and so on. |
| ToolCallDemux.DigitsAreDecimal | packages/adapters/adapter-model/src/model-compat-client.ts:2707 | The digits of such a number have its value and no leading zero. |
| ToolCallDemux.RenamedCall | packages/adapters/adapter-model/src/model-compat-client.ts:2690-2706 | A new id for a known index moves the call, unchanged, under that id to the end; nothing else changes. |
| ToolCallDemux.PendingIsDemuxed | packages/adapters/adapter-model/src/model-compat-client.ts:1027-1044 | The pending map equals the calls assembled one by one, in order of their first fragments. |
| ToolCallDemux.StreamsDemultiplex | packages/adapters/adapter-model/src/model-compat-client.ts:901-914 | However fragments are cut into payloads, a stream emits the transcript of each group ended by a finish reason and then that of the group left open at its end. |
| ToolCallDemux.ToolCallStream.ResolveId | packages/adapters/adapter-model/src/model-compat-client.ts:2690-2718 | The id is found by index or given, and a new id for a known index renames the entry. |
| ToolCallDemux.ToolCallStream.ConsumeFragments | packages/adapters/adapter-model/src/model-compat-client.ts:1027-1044 | The loop over the fragments updates the map and emits deltas as the fold says. |
| ToolCallDemux.StreamToolCalls | packages/adapters/adapter-model/src/model-compat-client.ts:901-914 | A whole stream emits the transcripts of its groups. |
| RuntimeReducer.ReplayPermutesIff | packages/domain-layer/domain/src/runtime-event-reducer.ts:90-97 | Two arrangements of the same events with distinct numbers replay to the same projection exactly when they begin with events of one thread. |
| RuntimeReducer.ReplayPermutes | packages/domain-layer/domain/src/runtime-event-reducer.ts:90-97 | Every two arrangements that begin with events of one thread replay alike. |
| RuntimeReducer.ReplayBySet | packages/domain-layer/domain/src/runtime-event-reducer.ts:90-103 | Replay depends only on the set of events newer than the start, not on order or redelivery. |
| RuntimeReducer.ResumeIsReplay | packages/domain-layer/domain/src/runtime-event-reducer.ts:90-103 | Going on from a saved projection, with old events redelivered, equals one replay of everything. |
| RuntimeReducer.ReplayIsWellFormed | packages/domain-layer/domain/src/runtime-event-reducer.ts:336-384 | Item, turn and child ids and every turn's item ids stay distinct, every item is listed in its turn, and turns list only items there are. |
| RuntimeReducer.UsageIsTotal | packages/domain-layer/domain/src/usage.ts:10-68 | The usage after a replay is the field-wise sum of all reports, with the total and the cache-hit rate consistent. |
| RuntimeReadings.TurnIsRead | packages/domain-layer/domain/src/runtime-event-reducer.ts:199-230 | Over any increasing events a turn is running or as its last start or end says, started with its first start, finished with its last end, and steered by the non-empty texts sent to it, in order; events of a child do not touch it. |
| RuntimeReadings.ChildRunIsRead | packages/domain-layer/domain/src/runtime-event-reducer.ts:232-251 | A child run is what the last event about the child says. |
| RuntimeReadings.HeadIsRead | packages/domain-layer/domain/src/runtime-event-reducer.ts:99-197 | Thread, creation time, last update, title, status and catalogue are the first or last ones told, and compactions and errors are recorded in order. |
| RuntimeReadings.LastStoredStands | packages/domain-layer/domain/src/runtime-event-reducer.ts:253-349 | An item stored by an event, be it the item of the event, a compaction, an error or a first delta, is that item, once, as long as no later event is about it. |
| RuntimeReadings.TurnsAppear | packages/domain-layer/domain/src/runtime-event-reducer.ts:367-384 | Turns keep their places, threads and listed items, and a new one comes last, in the thread of an event that is about it. |
| RuntimeReadings.QuestionIsRead | packages/domain-layer/domain/src/runtime-event-reducer.ts:286-334 | An approval or user input has the decision last made on it and the time of the last one that settled it; the rest is as it was asked. |
| RuntimeReadings.QuestionOpens | packages/domain-layer/domain/src/runtime-event-reducer.ts:286-334 | The first event about a question adds its item, with the id given or made from the question's. |
| RuntimeReadings.SpeechIsRead | packages/domain-layer/domain/src/runtime-event-reducer.ts:351-365 | However other events are mixed in, a text or reasoning grows by exactly the deltas sent for it, in order, with the last status, end and signature they bring. |
| RuntimeReducer.ProjectionDraft.Upsert | packages/domain-layer/domain/src/runtime-event-reducer.ts:336-349 | The draft changes as the functional upsert does. |
| RuntimeReducer.ProjectionDraft.ApplyTurnEvent | packages/domain-layer/domain/src/runtime-event-reducer.ts:199-230 | The turn or child run changes as the functional step does. |
| RuntimeReducer.ApplyRuntimeEvent | packages/domain-layer/domain/src/runtime-event-reducer.ts:99-197 | One event is applied to a draft of the projection, or ignored as a redelivery. |
| CanonicalValues.CanonicalIdentifies | packages/engine/loop/src/effect-commit.ts:15-19 | Two values have one canonical form exactly when they are equal up to the order of object keys, at every level. |
| CanonicalValues.CanonicalIsFixed | packages/adapters/adapter-storage/src/effect-result-digest.ts:7-14 | The canonical form of a canonical form is itself. |
| CanonicalValues.SameIsEquivalence | packages/adapters/adapter-storage/src/effect-result-digest.ts:7-14 | Equality up to key order is an equivalence, and a value equals its canonical form in it. |
| EffectCommit.NumbersAreContiguous | packages/adapters/adapter-storage/src/in-memory-run-event-store.ts:30-48 | Even with racing coordinators the event numbers are 1 to n, and no stored event changes or moves. |
| EffectCommit.QueueKeepsOrder | packages/engine/loop/src/effect-commit.ts:57-73 | Under one coordinator no append meets a taken number, and what the fence accepts is stored in the order it was asked for. |
| EffectCommit.RacingAppendFails | packages/engine/loop/src/effect-commit.ts:58-59 | Of two coordinators that both list before either stores, the second fails on its number. |
| EffectCommit.CommittedOnce | packages/engine/loop/src/effect-commit.ts:44-51 | Over every run that keeps the states of its first commits, each effect is committed at most once, its first result is never overwritten, and every logged commit has its result stored under the event's digest. |
| EffectCommit.OneCommitIff | packages/engine/loop/src/effect-commit.ts:45-50 | Whatever states are lost: the log names one commit of an effect exactly when nobody logs a commit of it, on a state that holds none, while the log names another. |
| EffectCommit.ResultKeptIff | packages/engine/loop/src/effect-commit.ts:48-50 | At every moment the stored result is the one the logged commits stand for, exactly when nobody commits the effect, on a state that holds none, with a result of another digest. |
| EffectCommit.RecommitRepeats | packages/engine/loop/src/effect-commit.ts:45-46 | However much later, committing an effect again keeps the first result and logs the first commit. |
| EffectCommit.OneDigestPerEffect | packages/engine/loop/src/effect-commit.ts:48-50 | All commits logged for one effect are one and the same, and equal digests mean equal results up to key order. |
| EffectCommit.LostStateCommitsTwice | packages/engine/loop/src/effect-commit.ts:48-50 | When the state of a commit is lost, the next commit overwrites the result and logs a second digest. |
| EffectCommit.LingersIff | packages/engine/loop/src/effect-commit.ts:33-38 | A committed effect is left pending exactly when it was prepared again after its commit, and no later commit clears it. |
| EffectCommit.PendingSays | packages/engine/loop/src/effect-commit.ts:33-49 | The first intent under a key stands, others are appended, and a commit takes the intents of its key and no others. |
| EffectCommit.InMemoryEffectResultStore.Save | packages/adapters/adapter-storage/src/in-memory-effect-result-store.ts:19-30 | A result is stored exactly when the digest is its own. |
| EffectCommit.InMemoryEffectResultStore.Load | packages/adapters/adapter-storage/src/in-memory-effect-result-store.ts:8-17 | A stored result is given out exactly when its digest is its own. |
| EffectCommit.EffectCommitCoordinator.PrepareEffect | packages/engine/loop/src/effect-commit.ts:33-38 | The intent is added unless one with its key is pending. |
| EffectCommit.EffectCommitCoordinator.CommitEffect | packages/engine/loop/src/effect-commit.ts:44-51 | The result is stored before the event, and without the event the caller keeps its state. |
| EffectCommit.EffectCommitCoordinator.AppendEvent | packages/engine/loop/src/effect-commit.ts:57-73 | One append stores the next number or is refused. |

## Left out

Deliberately narrower members:

- ChatRendering.RepairedRenders: without folding of tool history, without the sanitizing, image and user-message passes around the rendering, and with tool outputs and arguments as text.
- ChatRendering.ToolCallBlockToMessages: content parts are kept as a list instead of joined with newlines, and the folded form is not built.
- ChatRendering.ItemsToMessages: content parts are kept as a list instead of joined with newlines, and the folded form is not built.
- LeaseFencing.EpochsOrderedIff: the file stores that share one lease file, with fences required; the in-memory event store, which only compares epochs, is not part of it.
- Mailbox.MailboxSafety: the in-memory mailbox; the file mailbox takes the next epoch from the message's own claim and is not modelled.
- RunLock.UpdatesAreSerial: updates only, as `save` neither checks a fence nor raises the version; which fence is in force when an update starts is an argument of that step.
- CompactionSaga.TransactionIsAtomic: one transaction per thread, as the rollback rewrites the whole item list; the rollback's own rewrite does not fail.
- CompactionSaga.CommitsCountUp: the in-memory task store; the active pointer, the retry loop and the revision files of the file store are not modelled.
- EffectCommit.OneCommitIff: one line of run states, with losses. A caller that keeps several states of one run side by side is not modelled.
- RuntimeReadings.QuestionIsRead: the question has one item, and no event stores another under its id meanwhile.
- SessionLog.KnownStep: patches carry fields other than the id.
- RuntimeReducer.UsageIsTotal: costs are exact reals; the floating-point sums of the source can differ in the last digits between orders of the reports.
- EffectCommit.NumbersAreContiguous: whether the store accepts a fence is an argument of each append.
- RuntimeReducer.ApplyRuntimeEvent: optional fields that are only copied (details, severity, digest markers, catalogue entries) are fewer and plain text, and an empty text stands for an absent one where the code only tests for presence.
- UsageCompaction.BucketRepresented: buckets are pairs of day and model, where the source joins the two into one string.
- ToolCallDemux.EachCallByIdOnce: all fragments of the group come without an index; groups that mix both kinds have only the step contracts.
- ToolCallDemux.EachCallOnce: parsing the arguments of a completed call is not part of this model; the raw text is compared.
- RuntimeReducer.ReplayIsWellFormed: an item moved to another turn stays listed in its old one, as in the source.
- CanonicalValues.CanonicalIdentifies: the SHA-256 and JSON text behind a digest are not computed; the canonical form stands for the digest. Keys that look like array indexes, which JavaScript enumerates first, are ordered like any other.

Not modelled:

- HTTP, server-sent events, retries, provider profiles, command line, child processes and foreign tools.
- Real files, SQLite, JSON parsing and schema validation: files are values and records are taken as valid.
- The file lock, whose reclaim of a stale owner can remove a fresh lock: locked sections are single steps.
- UTF-16: strings are sequences of characters, and case folding is that of the tag expression's own letters.
- Time and randomness: clock readings and tokens are arguments, tokens fresh natural numbers; creation times are compared as numbers.
- The regex strippers for special tokens and tool-call markers, ranking, retrieval and skill matching.
- The responses and messages stream formats, which assemble their calls in other branches.
- The loop runner, prompt builder, evaluator, delegation and the summary text of a compaction: the compactor is an argument of the transaction.
- Duplicate event numbers in the session stores, `HybridThreadStore`, run listings and outbox queries.
- Loops are split into several methods where one body would be too large to verify; `find`, `sort` and `filter` of the library are functions.
