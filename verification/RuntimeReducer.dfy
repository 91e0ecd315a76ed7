/** A thread's state rebuilt from its runtime events: turns, items, usage and the rest
    are folded from the events in the order of their sequence numbers. */
module RuntimeReducer {

  import opened Wrappers

  // ----- Usage -----

  datatype Usage = Usage(
    promptTokens: nat, completionTokens: nat, totalTokens: nat,
    cachedTokens: Option<nat>, cacheHitTokens: Option<nat>, cacheMissTokens: Option<nat>,
    cacheHitRate: Option<real>, turns: nat,
    costUsd: Option<real>, costCny: Option<real>,
    cacheSavingsUsd: Option<real>, cacheSavingsCny: Option<real>,
    economyTokens: Option<nat>, economyUsd: Option<real>, economyCny: Option<real>)

  const NO_USAGE := Usage(0, 0, 0, Some(0), Some(0), Some(0), None, 0, None, None,
                         Some(0.0), Some(0.0), Some(0), Some(0.0), Some(0.0))

  /** A sum that stays absent as long as both amounts are. */
  function AddCost(a: Option<real>, b: Option<real>): Option<real> {
    if a.None? && b.None? then None else Some(a.GetOr(0.0) + b.GetOr(0.0))
  }

  function AddUsage(into: Usage, delta: Usage): Usage {
    var hit := into.cacheHitTokens.GetOr(0) + delta.cacheHitTokens.GetOr(0);
    var miss := into.cacheMissTokens.GetOr(0) + delta.cacheMissTokens.GetOr(0);
    Usage(
      into.promptTokens + delta.promptTokens,
      into.completionTokens + delta.completionTokens,
      into.promptTokens + delta.promptTokens + (into.completionTokens + delta.completionTokens),
      Some(into.cachedTokens.GetOr(0) + delta.cachedTokens.GetOr(0)),
      Some(hit), Some(miss),
      if hit + miss == 0 then None else Some(hit as real / (hit + miss) as real),
      into.turns + delta.turns,
      AddCost(into.costUsd, delta.costUsd), AddCost(into.costCny, delta.costCny),
      AddCost(into.cacheSavingsUsd, delta.cacheSavingsUsd), AddCost(into.cacheSavingsCny, delta.cacheSavingsCny),
      Some(into.economyTokens.GetOr(0) + delta.economyTokens.GetOr(0)),
      AddCost(into.economyUsd, delta.economyUsd), AddCost(into.economyCny, delta.economyCny))
  }

  // ----- Events and projections -----

  datatype Body =
    | AssistantText(text: string)
    | AssistantReasoning(reasoning: string, signature: string)
    | Approval(approvalId: string, toolName: string, question: string)
    | UserInput(inputId: string, prompt: string, questions: seq<string>)
    | Compacted(compaction: Compaction)
    | Failure(message: string, code: string)
    | Other(content: string)

  datatype Item = Item(id: string, turnId: string, threadId: string, status: string,
                       createdAt: string, finishedAt: Option<string>, body: Body)

  datatype TurnStatus = Unknown | Running | Completed | Failed | Aborted

  datatype Turn = Turn(id: string, threadId: string, status: TurnStatus, startedAt: Option<string>,
                       finishedAt: Option<string>, steering: seq<string>, itemIds: seq<string>)

  datatype Child = Child(childId: string, parentThreadId: string, parentTurnId: string,
                         childLabel: string, childStatus: string, childSeq: nat)

  datatype ChildRun = ChildRun(child: Child, updatedAt: string, text: string)

  datatype Compaction = Compaction(summary: string, replacedTokens: nat, pinnedConstraints: seq<string>,
                                   sourceDigest: string, sourceItemIds: seq<string>)

  datatype CompactionRecord = CompactionRecord(itemId: string, turnId: string, compaction: Compaction)

  datatype ErrorRecord = ErrorRecord(seqNo: nat, turnId: string, itemId: string, message: string, code: string)

  datatype Change =
    | ThreadChanged(created: bool, title: string, status: string)
    | TurnStarted(child: Option<Child>, text: string)
    | TurnEnded(child: Option<Child>, text: string, outcome: TurnStatus)
    | TurnSteered(child: Option<Child>, text: string)
    | ItemStored(item: Item)
    | ItemDelta(item: Item)
    | ApprovalChanged(approvalId: string, toolName: string, decision: string, question: string)
    | InputChanged(inputId: string, answer: string, prompt: string, questions: seq<string>)
    | CompactionStarted(compaction: Compaction)
    | CompactionCompleted(compaction: Compaction)
    | CatalogChanged(catalog: string)
    | UsageReported(usage: Usage)
    | Failing(message: string, code: string)
    | Unprojected

  /** An absent turn id is empty; an absent item id is told apart from an empty one. */
  datatype Event = Event(seqNo: nat, threadId: string, timestamp: string, turnId: string,
                         itemId: Option<string>, change: Change)

  datatype Projection = Projection(
    threadId: string, lastSeq: nat, startedAt: Option<string>, updatedAt: Option<string>,
    title: string, threadStatus: string, turns: seq<Turn>, items: seq<Item>, usage: Usage,
    childRuns: seq<ChildRun>, compactions: seq<CompactionRecord>, toolCatalog: Option<string>,
    errors: seq<ErrorRecord>)

  function NewProjection(threadId: string): Projection {
    Projection(threadId, 0, None, None, "", "", [], [], NO_USAGE, [], [], None, [])
  }

  function IndexOf<T(==)>(s: seq<T>, x: T): (r: Option<nat>)
    ensures r.Some? ==> r.value < |s| && s[r.value] == x
    ensures r.None? <==> x !in s
  {
    if s == [] then None
    else if s[0] == x then Some(0)
    else
      match IndexOf(s[1..], x)
      case None => None
      case Some(i) => Some(i + 1)
  }

  function ItemIds(items: seq<Item>): seq<string> {
    Mapped((item: Item) => item.id, items)
  }

  function TurnIds(turns: seq<Turn>): seq<string> {
    Mapped((turn: Turn) => turn.id, turns)
  }

  function ChildIds(runs: seq<ChildRun>): seq<string> {
    Mapped((run: ChildRun) => run.child.childId, runs)
  }

  function ApprovalIds(items: seq<Item>): seq<Option<string>> {
    Mapped((item: Item) => if item.body.Approval? then Some(item.body.approvalId) else None, items)
  }

  function InputIds(items: seq<Item>): seq<Option<string>> {
    Mapped((item: Item) => if item.body.UserInput? then Some(item.body.inputId) else None, items)
  }

  // ----- The steps of applying one event -----

  function EnsureTurn(turns: seq<Turn>, threadId: string, turnId: string): seq<Turn> {
    if turnId in TurnIds(turns) then turns
    else turns + [Turn(turnId, threadId, Unknown, None, None, [], [])]
  }

  /** The item id added to the turn, unless it is there. */
  function ListItem(turns: seq<Turn>, turnId: string, itemId: string): seq<Turn> {
    match IndexOf(TurnIds(turns), turnId)
    case None => turns
    case Some(k) =>
      if itemId in turns[k].itemIds then turns
      else turns[k := turns[k].(itemIds := turns[k].itemIds + [itemId])]
  }

  function AppendDelta(existing: Item, delta: Item): Item {
    if existing.body.AssistantText? && delta.body.AssistantText? then
      existing.(body := AssistantText(existing.body.text + delta.body.text), status := delta.status,
                finishedAt := if delta.finishedAt.Some? then delta.finishedAt else existing.finishedAt)
    else if existing.body.AssistantReasoning? && delta.body.AssistantReasoning? then
      existing.(body := AssistantReasoning(
                  existing.body.reasoning + delta.body.reasoning,
                  if delta.body.signature != "" then delta.body.signature else existing.body.signature),
                status := delta.status,
                finishedAt := if delta.finishedAt.Some? then delta.finishedAt else existing.finishedAt)
    else delta
  }

  function PutItem(items: seq<Item>, item: Item, append: bool): seq<Item> {
    match IndexOf(ItemIds(items), item.id)
    case None => items + [item]
    case Some(i) => items[i := if append then AppendDelta(items[i], item) else item]
  }

  function UpsertItem(p: Projection, item: Item, append: bool): Projection {
    p.(items := PutItem(p.items, item, append),
       turns := ListItem(EnsureTurn(p.turns, item.threadId, item.turnId), item.turnId, item.id))
  }

  function UpsertChild(p: Projection, e: Event, child: Child, text: string): Projection {
    var run := ChildRun(child, e.timestamp, text);
    match IndexOf(ChildIds(p.childRuns), child.childId)
    case None => p.(childRuns := p.childRuns + [run])
    case Some(i) => p.(childRuns := p.childRuns[i := run])
  }

  function TurnAfter(turn: Turn, e: Event): Turn {
    match e.change
    case TurnStarted(_, _) =>
      turn.(status := Running, startedAt := if turn.startedAt.Some? then turn.startedAt else Some(e.timestamp))
    case TurnEnded(_, _, outcome) => turn.(status := outcome, finishedAt := Some(e.timestamp))
    case TurnSteered(_, text) => if text != "" then turn.(steering := turn.steering + [text]) else turn
    case _ => turn
  }

  function TurnChange(p: Projection, e: Event, child: Option<Child>, text: string): Projection {
    if child.Some? then UpsertChild(p, e, child.value, text)
    else if e.turnId == "" then p
    else
      var turns := EnsureTurn(p.turns, e.threadId, e.turnId);
      match IndexOf(TurnIds(turns), e.turnId)
      case None => p
      case Some(k) => p.(turns := turns[k := TurnAfter(turns[k], e)])
  }

  function Decided(item: Item, status: string, timestamp: string): Item {
    item.(status := status, finishedAt := if status != "pending" then Some(timestamp) else item.finishedAt)
  }

  function UpsertApproval(p: Projection, e: Event): Projection
    requires e.change.ApprovalChanged?
  {
    if e.turnId == "" then p
    else
      var c := e.change;
      var created := Item(e.itemId.GetOr("item_" + c.approvalId), e.turnId, e.threadId, c.decision,
                         e.timestamp, None, Approval(c.approvalId, c.toolName, c.question));
      var at := IndexOf(ApprovalIds(p.items), Some(c.approvalId));
      UpsertItem(p, Decided(if at.Some? then p.items[at.value] else created, c.decision, e.timestamp), false)
  }

  function UpsertInput(p: Projection, e: Event): Projection
    requires e.change.InputChanged?
  {
    if e.turnId == "" then p
    else
      var c := e.change;
      var created := Item(e.itemId.GetOr("item_" + c.inputId), e.turnId, e.threadId, c.answer,
                         e.timestamp, None, UserInput(c.inputId, c.prompt, c.questions));
      var at := IndexOf(InputIds(p.items), Some(c.inputId));
      UpsertItem(p, Decided(if at.Some? then p.items[at.value] else created, c.answer, e.timestamp), false)
  }

  function SystemItem(e: Event, status: string, body: Body): Item {
    Item(e.itemId.GetOr(""), e.turnId, e.threadId, status, e.timestamp, Some(e.timestamp), body)
  }

  function WithCompaction(p: Projection, e: Event, c: Compaction): Projection {
    p.(compactions := p.compactions + [CompactionRecord(e.itemId.GetOr(""), e.turnId, c)])
  }

  function WithError(p: Projection, e: Event, message: string, code: string): Projection {
    p.(errors := p.errors + [ErrorRecord(e.seqNo, e.turnId, e.itemId.GetOr(""), message, code)])
  }

  function AddCompaction(p: Projection, e: Event, c: Compaction, completed: bool): Projection {
    var p' := WithCompaction(p, e, c);
    if !completed || e.itemId.GetOr("") == "" || e.turnId == "" || c.replacedTokens == 0 then p'
    else UpsertItem(p', SystemItem(e, "completed", Compacted(c)), false)
  }

  function AddError(p: Projection, e: Event, message: string, code: string): Projection {
    var p' := WithError(p, e, message, code);
    if e.itemId.GetOr("") == "" || e.turnId == "" then p'
    else UpsertItem(p', SystemItem(e, "failed", Failure(message, code)), false)
  }

  function ApplyChange(p: Projection, e: Event): Projection {
    match e.change
    case ThreadChanged(created, title, status) =>
      p.(title := if title != "" then title else p.title,
         threadStatus := if status != "" then status else p.threadStatus,
         startedAt := if created && p.startedAt.None? then Some(e.timestamp) else p.startedAt)
    case TurnStarted(child, text) => TurnChange(p, e, child, text)
    case TurnEnded(child, text, _) => TurnChange(p, e, child, text)
    case TurnSteered(child, text) => TurnChange(p, e, child, text)
    case ItemStored(item) => UpsertItem(p, item, false)
    case ItemDelta(item) => UpsertItem(p, item, true)
    case ApprovalChanged(_, _, _, _) => UpsertApproval(p, e)
    case InputChanged(_, _, _, _) => UpsertInput(p, e)
    case CompactionStarted(c) => AddCompaction(p, e, c, false)
    case CompactionCompleted(c) => AddCompaction(p, e, c, true)
    case CatalogChanged(catalog) => p.(toolCatalog := Some(catalog))
    case UsageReported(usage) => p.(usage := AddUsage(p.usage, usage))
    case Failing(message, code) => AddError(p, e, message, code)
    case Unprojected => p
  }

  /** Events at or below the last applied sequence number are redeliveries. */
  function Apply(p: Projection, e: Event): Projection {
    if e.seqNo <= p.lastSeq then p
    else
      ApplyChange(p.(threadId := if p.threadId != "" then p.threadId else e.threadId,
                     lastSeq := e.seqNo, updatedAt := Some(e.timestamp)), e)
  }

  function ApplyAll(p: Projection, es: seq<Event>): Projection
    decreases |es|
  {
    if es == [] then p else ApplyAll(Apply(p, es[0]), es[1..])
  }

  // ----- Replay -----

  /** The event after those with the same or a smaller number, as a stable sort leaves it. */
  function Insert(sorted: seq<Event>, e: Event): seq<Event>
    decreases |sorted|
  {
    if sorted == [] || sorted[|sorted| - 1].seqNo <= e.seqNo then sorted + [e]
    else Insert(sorted[..|sorted| - 1], e) + [sorted[|sorted| - 1]]
  }

  function Sort(es: seq<Event>): seq<Event>
    decreases |es|
  {
    if es == [] then [] else Insert(Sort(es[..|es| - 1]), es[|es| - 1])
  }

  function Replay(es: seq<Event>, initial: Projection): Projection {
    ApplyAll(initial, Sort(es))
  }

  /** Replay from nothing names the projection after the thread of the first event given. */
  function ReplayFresh(es: seq<Event>): Projection {
    Replay(es, NewProjection(if es == [] then "" else es[0].threadId))
  }

  predicate Ordered(es: seq<Event>) {
    forall i, j :: 0 <= i < j < |es| ==> es[i].seqNo <= es[j].seqNo
  }

  function Later(es: seq<Event>, seqNo: nat): set<Event> {
    set e | e in es && e.seqNo > seqNo
  }

  /** No two different events share a number, though one may be delivered repeatedly. */
  predicate OnePerNumber(es: seq<Event>) {
    forall d, e :: d in es && e in es && d.seqNo == e.seqNo ==> d == e
  }

  lemma {:induction false} InsertKeeps(sorted: seq<Event>, e: Event)
    requires Ordered(sorted)
    ensures Ordered(Insert(sorted, e))
    ensures forall d :: d in Insert(sorted, e) <==> d in sorted || d == e
    decreases |sorted|
  {
    if sorted != [] && sorted[|sorted| - 1].seqNo > e.seqNo {
      var front, last := sorted[..|sorted| - 1], sorted[|sorted| - 1];
      InsertKeeps(front, e);
      assert sorted == front + [last];
      var rest := Insert(front, e);
      forall i | 0 <= i < |rest| ensures rest[i].seqNo <= last.seqNo {
        assert rest[i] in rest;
      }
    }
  }

  lemma {:induction false} SortKeeps(es: seq<Event>)
    ensures Ordered(Sort(es))
    ensures forall d :: d in Sort(es) <==> d in es
    decreases |es|
  {
    if es != [] {
      var front, last := es[..|es| - 1], es[|es| - 1];
      SortKeeps(front);
      InsertKeeps(Sort(front), last);
      assert es == front + [last];
    }
  }

  lemma ApplyMovesOn(p: Projection, e: Event)
    ensures Apply(p, e).lastSeq == if e.seqNo <= p.lastSeq then p.lastSeq else e.seqNo
  {
  }

  /** Ordered deliveries of the same new events project the same state. */
  lemma {:induction false} SameNewEvents(p: Projection, a: seq<Event>, b: seq<Event>)
    requires Ordered(a) && Ordered(b) && OnePerNumber(a)
    requires Later(a, p.lastSeq) == Later(b, p.lastSeq)
    ensures ApplyAll(p, a) == ApplyAll(p, b)
    decreases |a| + |b|
  {
    hide ApplyChange;
    if a != [] && a[0].seqNo <= p.lastSeq {
      SameNewEvents(p, a[1..], b);
    } else if b != [] && b[0].seqNo <= p.lastSeq {
      SameNewEvents(p, a, b[1..]);
    } else if a == [] {
      FirstIsLater(b, p.lastSeq);
    } else {
      assert a[0] in Later(b, p.lastSeq) && b != [];
      assert b[0] in Later(a, p.lastSeq);
      assert a[0] == b[0];
      ApplyMovesOn(p, a[0]);
      AfterFirst(a, p.lastSeq);
      AfterFirst(b, p.lastSeq);
      SameNewEvents(Apply(p, a[0]), a[1..], b[1..]);
    }
  }

  lemma FirstIsLater(es: seq<Event>, seqNo: nat)
    ensures es == [] || es[0].seqNo <= seqNo || Later(es, seqNo) != {}
  {
    if es != [] && es[0].seqNo > seqNo { assert es[0] in Later(es, seqNo); }
  }

  lemma AfterFirst(es: seq<Event>, seqNo: nat)
    requires es != [] && es[0].seqNo > seqNo
    ensures Later(es[1..], es[0].seqNo) == set e | e in Later(es, seqNo) && e.seqNo > es[0].seqNo
  {
    assert es == [es[0]] + es[1..];
  }

  /** Replay depends only on which events there are, not on order or repetition. */
  lemma ReplayBySet(a: seq<Event>, b: seq<Event>, initial: Projection)
    requires OnePerNumber(a) && Later(a, initial.lastSeq) == Later(b, initial.lastSeq)
    ensures Replay(a, initial) == Replay(b, initial)
  {
    SortKeeps(a);
    SortKeeps(b);
    assert Later(Sort(a), initial.lastSeq) == Later(a, initial.lastSeq);
    assert Later(Sort(b), initial.lastSeq) == Later(b, initial.lastSeq);
    SameNewEvents(initial, Sort(a), Sort(b));
  }

  /** Arrangements of the same events that begin with events of one thread replay alike. */
  lemma ReplayPermutes(a: seq<Event>, b: seq<Event>)
    requires multiset(a) == multiset(b)
    requires forall i, j :: 0 <= i < j < |a| ==> a[i].seqNo != a[j].seqNo
    requires a != [] && b != [] ==> a[0].threadId == b[0].threadId
    ensures |a| == |b| && ReplayFresh(a) == ReplayFresh(b)
  {
    assert forall e :: e in a <==> e in multiset(a);
    assert forall e :: e in b <==> e in multiset(b);
    assert OnePerNumber(a);
    assert |a| == |multiset(a)| == |multiset(b)| == |b|;
    var initial := NewProjection(if a == [] then "" else a[0].threadId);
    assert Later(a, 0) == Later(b, 0);
    ReplayBySet(a, b, initial);
  }

  /** They replay alike only then: the first event given decides whose projection it is. */
  lemma ReplayPermutesIff(a: seq<Event>, b: seq<Event>)
    requires multiset(a) == multiset(b) && a != [] && b != []
    requires forall i, j :: 0 <= i < j < |a| ==> a[i].seqNo != a[j].seqNo
    requires forall e :: e in a ==> e.threadId != ""
    ensures ReplayFresh(a) == ReplayFresh(b) <==> a[0].threadId == b[0].threadId
  {
    if a[0].threadId == b[0].threadId {
      ReplayPermutes(a, b);
    } else {
      assert b[0] in multiset(b) && b[0] in multiset(a);
      ThreadIdStays(Sort(a), NewProjection(a[0].threadId));
      ThreadIdStays(Sort(b), NewProjection(b[0].threadId));
    }
  }

  lemma {:induction false} ThreadIdStays(es: seq<Event>, p: Projection)
    requires p.threadId != ""
    ensures ApplyAll(p, es).threadId == p.threadId
    decreases |es|
  {
    if es != [] { ThreadIdStays(es[1..], Apply(p, es[0])); }
  }

  lemma {:induction false} LastSeqIsHighest(p: Projection, es: seq<Event>)
    requires Ordered(es)
    ensures ApplyAll(p, es).lastSeq ==
      if es == [] || es[|es| - 1].seqNo <= p.lastSeq then p.lastSeq else es[|es| - 1].seqNo
    decreases |es|
  {
    hide ApplyChange;
    if es != [] {
      ApplyMovesOn(p, es[0]);
      LastSeqIsHighest(Apply(p, es[0]), es[1..]);
    }
  }

  lemma {:induction false} ApplyAppend(p: Projection, a: seq<Event>, b: seq<Event>)
    ensures ApplyAll(p, a + b) == ApplyAll(ApplyAll(p, a), b)
    decreases |a|
  {
    hide Apply;
    if a == [] {
      assert a + b == b;
    } else {
      assert (a + b)[0] == a[0] && (a + b)[1..] == a[1..] + b;
      ApplyAppend(Apply(p, a[0]), a[1..], b);
    }
  }

  /** What arrives after the events seen: a redelivery, an event older than the projection
      started from, or one newer than all of them. */
  predicate Resumes(seen: seq<Event>, more: seq<Event>, lastSeq: nat) {
    forall e :: e in more ==> e in seen || e.seqNo <= lastSeq || forall d :: d in seen ==> d.seqNo < e.seqNo
  }

  /** The sorted events that a projection at `lastSeq` has not applied. */
  function Unapplied(sorted: seq<Event>, lastSeq: nat): seq<Event> {
    if sorted == [] then []
    else if sorted[0].seqNo <= lastSeq then Unapplied(sorted[1..], lastSeq)
    else sorted
  }

  lemma {:induction false} UnappliedAreLater(sorted: seq<Event>, lastSeq: nat)
    requires Ordered(sorted)
    ensures var r := Unapplied(sorted, lastSeq);
            Ordered(r) && forall e :: e in r <==> e in sorted && e.seqNo > lastSeq
    decreases |sorted|
  {
    if sorted != [] {
      assert sorted == [sorted[0]] + sorted[1..];
      if sorted[0].seqNo <= lastSeq { UnappliedAreLater(sorted[1..], lastSeq); }
    }
  }

  lemma RedeliveredIgnored(p: Projection, sorted: seq<Event>)
    requires Ordered(sorted) && OnePerNumber(sorted)
    ensures ApplyAll(p, Unapplied(sorted, p.lastSeq)) == ApplyAll(p, sorted)
  {
    hide ApplyAll;
    var rest := Unapplied(sorted, p.lastSeq);
    UnappliedAreLater(sorted, p.lastSeq);
    assert Later(rest, p.lastSeq) == Later(sorted, p.lastSeq);
    SameNewEvents(p, rest, sorted);
  }

  /** The events a resumed replay applies are those a full one applies. */
  lemma ResumedEvents(seen: seq<Event>, more: seq<Event>, start: nat, reached: nat)
    requires start <= reached && Resumes(seen, more, start)
    requires var first := Sort(seen);
             reached == if first == [] || first[|first| - 1].seqNo <= start then start else first[|first| - 1].seqNo
    ensures var all := Sort(seen) + Unapplied(Sort(more), reached);
            Ordered(all) && Later(all, start) == Later(seen + more, start) && forall e :: e in all ==> e in seen + more
  {
    hide Unapplied, Sort;
    var first, rest := Sort(seen), Unapplied(Sort(more), reached);
    SortKeeps(seen);
    SortKeeps(more);
    UnappliedAreLater(Sort(more), reached);
  }

  /** Going on from a saved projection, redeliveries included, is a full replay. */
  lemma ResumeIsReplay(seen: seq<Event>, more: seq<Event>, initial: Projection)
    requires OnePerNumber(seen + more) && Resumes(seen, more, initial.lastSeq)
    ensures Replay(more, Replay(seen, initial)) == Replay(seen + more, initial)
  {
    var p := Replay(seen, initial);
    SortKeeps(seen);
    LastSeqIsHighest(initial, Sort(seen));
    hide ApplyAll, Sort, Ordered, Later, Resumes, Unapplied;
    SortKeeps(more);
    SortKeeps(seen + more);
    var first, rest := Sort(seen), Unapplied(Sort(more), p.lastSeq);
    RedeliveredIgnored(p, Sort(more));
    ApplyAppend(initial, first, rest);
    ResumedEvents(seen, more, initial.lastSeq, p.lastSeq);
    SameLater(seen + more, initial.lastSeq);
    SameNewEvents(initial, first + rest, Sort(seen + more));
  }

  lemma SameLater(es: seq<Event>, seqNo: nat)
    ensures Later(Sort(es), seqNo) == Later(es, seqNo)
  {
    SortKeeps(es);
  }

  // ----- What every projection keeps -----

  predicate Listed(turns: seq<Turn>, turnId: string, itemId: string) {
    exists k :: 0 <= k < |turns| && turns[k].id == turnId && itemId in turns[k].itemIds
  }

  predicate TurnsListItems(turns: seq<Turn>, items: seq<Item>) {
    && Distinct(TurnIds(turns))
    && (forall k :: 0 <= k < |turns| ==> Distinct(turns[k].itemIds))
    && (forall k, x :: 0 <= k < |turns| && x in turns[k].itemIds ==> x in ItemIds(items))
    && (forall i :: 0 <= i < |items| ==> Listed(turns, items[i].turnId, items[i].id))
  }

  /** Nothing is kept twice, every item is listed in its turn and turns list only items there are. */
  predicate WellFormed(p: Projection) {
    Distinct(ItemIds(p.items)) && Distinct(ChildIds(p.childRuns)) && TurnsListItems(p.turns, p.items)
  }

  lemma PutItemSays(items: seq<Item>, item: Item, append: bool)
    ensures var r := PutItem(items, item, append);
            && ItemIds(r) == (if item.id in ItemIds(items) then ItemIds(items) else ItemIds(items) + [item.id])
            && (forall i :: 0 <= i < |r| && r[i].id != item.id ==> i < |items| && r[i] == items[i])
            && forall i :: 0 <= i < |r| && r[i].id == item.id ==>
                 r[i].turnId == item.turnId || (i < |items| && r[i].id == items[i].id && r[i].turnId == items[i].turnId)
  {
  }

  lemma EnsureTurnSays(turns: seq<Turn>, threadId: string, turnId: string)
    requires Distinct(TurnIds(turns))
    ensures var r := EnsureTurn(turns, threadId, turnId);
            && Distinct(TurnIds(r)) && turnId in TurnIds(r) && turns <= r
            && forall k :: |turns| <= k < |r| ==> r[k].itemIds == []
  {
    if turnId !in TurnIds(turns) {
      assert TurnIds(EnsureTurn(turns, threadId, turnId)) == TurnIds(turns) + [turnId];
    }
  }

  lemma ListItemSays(turns: seq<Turn>, turnId: string, itemId: string)
    requires turnId in TurnIds(turns) && Distinct(TurnIds(turns))
    ensures var r := ListItem(turns, turnId, itemId);
            && TurnIds(r) == TurnIds(turns) && Listed(r, turnId, itemId)
            && forall k :: 0 <= k < |turns| ==>
                 (r[k].itemIds == turns[k].itemIds) ||
                 (r[k].itemIds == turns[k].itemIds + [itemId] && itemId !in turns[k].itemIds)
  {
    var k := IndexOf(TurnIds(turns), turnId).value;
    assert ListItem(turns, turnId, itemId)[k].id == turnId;
  }

  lemma ListedStays(turns: seq<Turn>, later: seq<Turn>, turnId: string, itemId: string)
    requires Listed(turns, turnId, itemId) && |turns| <= |later|
    requires forall k :: 0 <= k < |turns| ==> turns[k].id == later[k].id && turns[k].itemIds <= later[k].itemIds
    ensures Listed(later, turnId, itemId)
  {
    var k :| 0 <= k < |turns| && turns[k].id == turnId && itemId in turns[k].itemIds;
    assert itemId in later[k].itemIds;
  }

  /** The turns after an item is listed: nothing is lost, only the item is added. */
  lemma ListingSays(turns: seq<Turn>, item: Item)
    requires Distinct(TurnIds(turns)) && forall k :: 0 <= k < |turns| ==> Distinct(turns[k].itemIds)
    ensures var r := ListItem(EnsureTurn(turns, item.threadId, item.turnId), item.turnId, item.id);
            && Distinct(TurnIds(r)) && Listed(r, item.turnId, item.id) && |turns| <= |r|
            && (forall k :: 0 <= k < |r| ==> Distinct(r[k].itemIds))
            && (forall k :: 0 <= k < |turns| ==> turns[k].id == r[k].id && turns[k].itemIds <= r[k].itemIds)
            && forall k, x :: 0 <= k < |r| && x in r[k].itemIds ==>
                 x == item.id || (k < |turns| && x in turns[k].itemIds)
  {
    var mid := EnsureTurn(turns, item.threadId, item.turnId);
    var r := ListItem(mid, item.turnId, item.id);
    EnsureTurnSays(turns, item.threadId, item.turnId);
    ListItemSays(mid, item.turnId, item.id);
    assert |TurnIds(r)| == |TurnIds(mid)|;
    hide EnsureTurn, ListItem, Listed;
    forall k | 0 <= k < |turns| ensures turns[k].id == r[k].id && turns[k].itemIds <= r[k].itemIds {
      assert TurnIds(r)[k] == TurnIds(mid)[k];
    }
  }

  lemma UpsertItemKeeps(p: Projection, item: Item, append: bool)
    requires WellFormed(p)
    ensures WellFormed(UpsertItem(p, item, append))
  {
    ListingSays(p.turns, item);
    PutItemSays(p.items, item, append);
    var items' := PutItem(p.items, item, append);
    var turns' := ListItem(EnsureTurn(p.turns, item.threadId, item.turnId), item.turnId, item.id);
    hide EnsureTurn, ListItem, PutItem, Listed;
    assert forall x :: x in ItemIds(p.items) || x == item.id ==> x in ItemIds(items');
    AllListed(p.turns, p.items, turns', items', item);
    hide ItemIds, TurnIds, ChildIds;
    assert TurnsListItems(turns', items');
    assert Distinct(ItemIds(items'));
  }

  lemma AllListed(turns: seq<Turn>, items: seq<Item>, turns': seq<Turn>, items': seq<Item>, item: Item)
    requires forall i :: 0 <= i < |items| ==> Listed(turns, items[i].turnId, items[i].id)
    requires |turns| <= |turns'| && Listed(turns', item.turnId, item.id)
    requires forall k :: 0 <= k < |turns| ==> turns[k].id == turns'[k].id && turns[k].itemIds <= turns'[k].itemIds
    requires forall i :: 0 <= i < |items'| ==>
      (items'[i].turnId == item.turnId && items'[i].id == item.id) ||
      (i < |items| && items'[i].id == items[i].id && items'[i].turnId == items[i].turnId)
    ensures forall i :: 0 <= i < |items'| ==> Listed(turns', items'[i].turnId, items'[i].id)
  {
    hide Listed;
    forall i | 0 <= i < |items'| ensures Listed(turns', items'[i].turnId, items'[i].id) {
      if i < |items| && items'[i].id == items[i].id && items'[i].turnId == items[i].turnId {
        ListedStays(turns, turns', items'[i].turnId, items'[i].id);
      }
    }
  }

  lemma TurnChangeKeeps(p: Projection, e: Event, child: Option<Child>, text: string)
    requires WellFormed(p)
    ensures WellFormed(TurnChange(p, e, child, text))
  {
    var p' := TurnChange(p, e, child, text);
    if child.None? && e.turnId != "" {
      var turns := EnsureTurn(p.turns, e.threadId, e.turnId);
      EnsureTurnSays(p.turns, e.threadId, e.turnId);
      assert TurnIds(p'.turns) == TurnIds(turns);
      assert forall k :: 0 <= k < |turns| ==> p'.turns[k].itemIds == turns[k].itemIds;
      forall i | 0 <= i < |p.items| ensures Listed(p'.turns, p.items[i].turnId, p.items[i].id) {
        ListedStays(p.turns, p'.turns, p.items[i].turnId, p.items[i].id);
      }
    }
  }

  lemma ApplyKeeps(p: Projection, e: Event)
    requires WellFormed(p)
    ensures WellFormed(Apply(p, e))
  {
    if e.seqNo > p.lastSeq {
      var q := p.(threadId := if p.threadId != "" then p.threadId else e.threadId,
                  lastSeq := e.seqNo, updatedAt := Some(e.timestamp));
      assert WellFormed(q);
      ApplyChangeKeeps(q, e);
    }
  }

  lemma ApplyChangeKeeps(p: Projection, e: Event)
    requires WellFormed(p)
    ensures WellFormed(ApplyChange(p, e))
  {
    hide UpsertItem, TurnChange, ItemIds, TurnIds, ChildIds, TurnsListItems;
    match e.change
    case TurnStarted(child, text) => TurnChangeKeeps(p, e, child, text);
    case TurnEnded(child, text, _) => TurnChangeKeeps(p, e, child, text);
    case TurnSteered(child, text) => TurnChangeKeeps(p, e, child, text);
    case ItemStored(item) => UpsertItemKeeps(p, item, false);
    case ItemDelta(item) => UpsertItemKeeps(p, item, true);
    case ApprovalChanged(_, _, _, _) => QuestionKeeps(p, e);
    case InputChanged(_, _, _, _) => QuestionKeeps(p, e);
    case CompactionStarted(c) => RecordKeeps(p, WithCompaction(p, e, c), e, "completed", Compacted(c));
    case CompactionCompleted(c) => RecordKeeps(p, WithCompaction(p, e, c), e, "completed", Compacted(c));
    case Failing(message, code) => RecordKeeps(p, WithError(p, e, message, code), e, "failed", Failure(message, code));
    case _ =>
  }

  lemma QuestionKeeps(p: Projection, e: Event)
    requires WellFormed(p)
    ensures e.change.ApprovalChanged? ==> WellFormed(UpsertApproval(p, e))
    ensures e.change.InputChanged? ==> WellFormed(UpsertInput(p, e))
  {
    hide UpsertItem, WellFormed;
    forall item ensures WellFormed(UpsertItem(p, item, false)) { UpsertItemKeeps(p, item, false); }
  }

  lemma RecordKeeps(p: Projection, q: Projection, e: Event, status: string, body: Body)
    requires WellFormed(p) && q.items == p.items && q.turns == p.turns && q.childRuns == p.childRuns
    ensures WellFormed(q) && WellFormed(UpsertItem(q, SystemItem(e, status, body), false))
  {
    UpsertItemKeeps(q, SystemItem(e, status, body), false);
  }

  /** Whatever the events, replay projects a well-formed state. */
  lemma {:induction false} ReplayIsWellFormed(es: seq<Event>, p: Projection)
    requires WellFormed(p)
    ensures WellFormed(ApplyAll(p, es))
    decreases |es|
  {
    if es != [] {
      ApplyKeeps(p, es[0]);
      ReplayIsWellFormed(es[1..], Apply(p, es[0]));
    }
  }

  // ----- Usage over a whole replay -----

  datatype Counter = Prompt | Completion | Cached | CacheHit | CacheMiss | Turns | EconomyTokens

  datatype Cost = Usd | Cny | SavingsUsd | SavingsCny | EconomyUsd | EconomyCny

  function Count(u: Usage, c: Counter): nat {
    match c
    case Prompt => u.promptTokens
    case Completion => u.completionTokens
    case Cached => u.cachedTokens.GetOr(0)
    case CacheHit => u.cacheHitTokens.GetOr(0)
    case CacheMiss => u.cacheMissTokens.GetOr(0)
    case Turns => u.turns
    case EconomyTokens => u.economyTokens.GetOr(0)
  }

  function CostOf(u: Usage, c: Cost): Option<real> {
    match c
    case Usd => u.costUsd
    case Cny => u.costCny
    case SavingsUsd => u.cacheSavingsUsd
    case SavingsCny => u.cacheSavingsCny
    case EconomyUsd => u.economyUsd
    case EconomyCny => u.economyCny
  }

  function CountIn(e: Event, c: Counter): nat {
    if e.change.UsageReported? then Count(e.change.usage, c) else 0
  }

  function CostIn(e: Event, c: Cost): Option<real> {
    if e.change.UsageReported? then CostOf(e.change.usage, c) else None
  }

  function Counted(es: seq<Event>, c: Counter): nat
    decreases |es|
  {
    if es == [] then 0
    else
      var n := |es| - 1;
      Counted(es[..n], c) + CountIn(es[n], c)
  }

  /** The cost of all reports, absent when none names it. */
  function Costed(es: seq<Event>, c: Cost): Option<real>
    decreases |es|
  {
    if es == [] then None
    else
      var n := |es| - 1;
      AddCost(Costed(es[..n], c), CostIn(es[n], c))
  }

  /** The derived figures agree with the counted ones. */
  predicate Balanced(u: Usage) {
    var hit, miss := Count(u, CacheHit), Count(u, CacheMiss);
    && u.totalTokens == u.promptTokens + u.completionTokens
    && u.cacheHitRate == if hit + miss == 0 then None else Some(hit as real / (hit + miss) as real)
  }

  lemma OneReport(p: Projection, e: Event, c: Counter, k: Cost)
    requires e.seqNo > p.lastSeq
    ensures Count(Apply(p, e).usage, c) == Count(p.usage, c) + CountIn(e, c)
    ensures CostOf(Apply(p, e).usage, k) == AddCost(CostOf(p.usage, k), CostIn(e, k))
    ensures Balanced(p.usage) ==> Balanced(Apply(p, e).usage)
  {
    if !e.change.UsageReported? {
      assert Apply(p, e).usage == p.usage;
    }
  }

  lemma {:induction false} InsertedUsage(sorted: seq<Event>, e: Event, c: Counter, k: Cost)
    ensures Counted(Insert(sorted, e), c) == Counted(sorted + [e], c)
    ensures Costed(Insert(sorted, e), k) == Costed(sorted + [e], k)
    decreases |sorted|
  {
    hide Counted, Costed, CountIn, CostIn, AddCost;
    if sorted != [] && sorted[|sorted| - 1].seqNo > e.seqNo {
      var front, last := sorted[..|sorted| - 1], sorted[|sorted| - 1];
      InsertedUsage(front, e, c, k);
      assert sorted == front + [last];
      assert Insert(sorted, e) == Insert(front, e) + [last];
      OneMoreEvent(Insert(front, e), last, c, k);
      OneMoreEvent(front, e, c, k);
      OneMoreEvent(front, last, c, k);
      OneMoreEvent(sorted, e, c, k);
      CostsCommute(Costed(front, k), CostIn(e, k), CostIn(last, k));
    }
  }

  lemma CostsCommute(a: Option<real>, b: Option<real>, c: Option<real>)
    ensures AddCost(AddCost(a, b), c) == AddCost(AddCost(a, c), b)
    ensures AddCost(AddCost(a, b), c) == AddCost(a, AddCost(b, c)) && AddCost(a, None) == a
  {
  }

  lemma OneMoreEvent(es: seq<Event>, e: Event, c: Counter, k: Cost)
    ensures Counted(es + [e], c) == Counted(es, c) + CountIn(e, c)
    ensures Costed(es + [e], k) == AddCost(Costed(es, k), CostIn(e, k))
  {
    assert (es + [e])[..|es + [e]| - 1] == es;
  }

  lemma {:induction false} SortedUsage(es: seq<Event>, c: Counter, k: Cost)
    ensures Counted(Sort(es), c) == Counted(es, c) && Costed(Sort(es), k) == Costed(es, k)
    decreases |es|
  {
    if es != [] {
      var front, last := es[..|es| - 1], es[|es| - 1];
      SortedUsage(front, c, k);
      assert es == front + [last];
      assert Sort(es) == Insert(Sort(front), last);
      hide Insert, Sort, Counted, Costed, CountIn, CostIn;
      OneMoreEvent(front, last, c, k);
      InsertedUsage(Sort(front), last, c, k);
      OneMoreEvent(Sort(front), last, c, k);
    }
  }

  predicate Increasing(es: seq<Event>, lastSeq: nat) {
    && (forall i :: 0 <= i < |es| ==> es[i].seqNo > lastSeq)
    && forall i, j :: 0 <= i < j < |es| ==> es[i].seqNo < es[j].seqNo
  }

  lemma {:induction false} UsageOfIncreasing(es: seq<Event>, p: Projection, c: Counter, k: Cost)
    requires Increasing(es, p.lastSeq)
    ensures var u := ApplyAll(p, es).usage;
            && Count(u, c) == Count(p.usage, c) + Counted(es, c)
            && CostOf(u, k) == AddCost(CostOf(p.usage, k), Costed(es, k))
            && (Balanced(p.usage) ==> Balanced(u))
    decreases |es|
  {
    hide Apply, Count, CostOf, CountIn, CostIn, Balanced, AddCost;
    if es == [] {
      CostsCommute(CostOf(p.usage, k), None, None);
    } else {
      var front, last := es[..|es| - 1], es[|es| - 1];
      UsageOfIncreasing(front, p, c, k);
      assert es == front + [last];
      ApplyAppend(p, front, [last]);
      var q := ApplyAll(p, front);
      assert ApplyAll(q, [last]) == Apply(q, last);
      LastSeqIsHighest(p, front);
      OneMoreEvent(front, last, c, k);
      hide ApplyAll, Counted, Costed;
      OneReport(q, last, c, k);
      CostsCommute(CostOf(p.usage, k), Costed(front, k), CostIn(last, k));
    }
  }

  lemma {:induction false} InsertIncreasing(sorted: seq<Event>, e: Event, lastSeq: nat)
    requires Increasing(sorted, lastSeq) && e.seqNo > lastSeq
    requires forall i :: 0 <= i < |sorted| ==> sorted[i].seqNo != e.seqNo
    ensures Increasing(Insert(sorted, e), lastSeq)
    decreases |sorted|
  {
    if sorted != [] && sorted[|sorted| - 1].seqNo > e.seqNo {
      var front, last := sorted[..|sorted| - 1], sorted[|sorted| - 1];
      InsertIncreasing(front, e, lastSeq);
      InsertKeeps(front, e);
      var rest := Insert(front, e);
      forall i | 0 <= i < |rest| ensures rest[i].seqNo < last.seqNo { assert rest[i] in rest; }
    }
  }

  lemma {:induction false} SortIncreasing(es: seq<Event>, lastSeq: nat)
    requires forall i :: 0 <= i < |es| ==> es[i].seqNo > lastSeq
    requires forall i, j :: 0 <= i < j < |es| ==> es[i].seqNo != es[j].seqNo
    ensures Increasing(Sort(es), lastSeq)
    decreases |es|
  {
    if es != [] {
      var front, last := es[..|es| - 1], es[|es| - 1];
      SortIncreasing(front, lastSeq);
      SortKeeps(front);
      forall i | 0 <= i < |Sort(front)| ensures Sort(front)[i].seqNo != last.seqNo {
        assert Sort(front)[i] in front;
      }
      InsertIncreasing(Sort(front), last, lastSeq);
    }
  }

  /** The usage of a replay counts each report once, field by field. */
  lemma UsageIsTotal(es: seq<Event>, p: Projection, c: Counter, k: Cost)
    requires Balanced(p.usage)
    requires forall i :: 0 <= i < |es| ==> es[i].seqNo > p.lastSeq
    requires forall i, j :: 0 <= i < j < |es| ==> es[i].seqNo != es[j].seqNo
    ensures var u := Replay(es, p).usage;
            && Count(u, c) == Count(p.usage, c) + Counted(es, c)
            && CostOf(u, k) == AddCost(CostOf(p.usage, k), Costed(es, k))
            && Balanced(u)
  {
    SortIncreasing(es, p.lastSeq);
    SortedUsage(es, c, k);
    hide Count, CostOf, Balanced, Counted, Costed, Sort, ApplyAll;
    UsageOfIncreasing(Sort(es), p, c, k);
  }

  // ----- The projection being changed -----

  class ProjectionDraft {
    var threadId: string
    var lastSeq: nat
    var startedAt: Option<string>
    var updatedAt: Option<string>
    var title: string
    var threadStatus: string
    var turns: seq<Turn>
    var items: seq<Item>
    var usage: Usage
    var childRuns: seq<ChildRun>
    var compactions: seq<CompactionRecord>
    var toolCatalog: Option<string>
    var errors: seq<ErrorRecord>

    function Value(): Projection
      reads this
    {
      Projection(threadId, lastSeq, startedAt, updatedAt, title, threadStatus, turns, items, usage,
                 childRuns, compactions, toolCatalog, errors)
    }

    constructor (p: Projection)
      ensures Value() == p
    {
      threadId, lastSeq, startedAt, updatedAt := p.threadId, p.lastSeq, p.startedAt, p.updatedAt;
      title, threadStatus, turns, items := p.title, p.threadStatus, p.turns, p.items;
      usage, childRuns, compactions := p.usage, p.childRuns, p.compactions;
      toolCatalog, errors := p.toolCatalog, p.errors;
    }

    method EnsureTurnAt(thread: string, turnId: string) returns (k: nat)
      modifies this`turns
      ensures turns == EnsureTurn(old(turns), thread, turnId)
      ensures IndexOf(TurnIds(turns), turnId) == Some(k) && k < |turns|
    {
      var at := IndexOf(TurnIds(turns), turnId);
      if at.None? {
        turns := turns + [Turn(turnId, thread, Unknown, None, None, [], [])];
        at := IndexOf(TurnIds(turns), turnId);
        assert TurnIds(turns)[|turns| - 1] == turnId;
      }
      k := at.value;
    }

    method Upsert(item: Item, append: bool)
      modifies this`turns, this`items
      ensures Value() == UpsertItem(old(Value()), item, append)
    {
      var at := IndexOf(ItemIds(items), item.id);
      if at.Some? {
        items := items[at.value := if append then AppendDelta(items[at.value], item) else item];
      } else {
        items := items + [item];
      }
      var k := EnsureTurnAt(item.threadId, item.turnId);
      if item.id !in turns[k].itemIds {
        turns := turns[k := turns[k].(itemIds := turns[k].itemIds + [item.id])];
      }
    }

    method UpsertChildRun(e: Event, child: Child, text: string)
      modifies this`childRuns
      ensures Value() == UpsertChild(old(Value()), e, child, text)
    {
      var at := IndexOf(ChildIds(childRuns), child.childId);
      var run := ChildRun(child, e.timestamp, text);
      if at.Some? { childRuns := childRuns[at.value := run]; } else { childRuns := childRuns + [run]; }
    }

    method ApplyTurnEvent(e: Event, child: Option<Child>, text: string)
      modifies this`turns, this`childRuns
      ensures Value() == TurnChange(old(Value()), e, child, text)
    {
      if child.Some? {
        UpsertChildRun(e, child.value, text);
        return;
      }
      if e.turnId == "" { return; }
      var k := EnsureTurnAt(e.threadId, e.turnId);
      MarkTurn(k, e);
    }

    method MarkTurn(k: nat, e: Event)
      requires k < |turns|
      modifies this`turns
      ensures turns == old(turns)[k := TurnAfter(old(turns)[k], e)]
    {
      var turn := turns[k];
      match e.change {
        case TurnStarted(_, _) =>
          turn := turn.(status := Running);
          if turn.startedAt.None? { turn := turn.(startedAt := Some(e.timestamp)); }
        case TurnEnded(_, _, outcome) =>
          turn := turn.(status := outcome, finishedAt := Some(e.timestamp));
        case TurnSteered(_, steering) =>
          if steering != "" { turn := turn.(steering := turn.steering + [steering]); }
        case _ =>
      }
      turns := turns[k := turn];
    }

    method ApplyCompactionEvent(e: Event, c: Compaction, completed: bool)
      modifies this`compactions, this`turns, this`items
      ensures Value() == AddCompaction(old(Value()), e, c, completed)
    {
      compactions := compactions + [CompactionRecord(e.itemId.GetOr(""), e.turnId, c)];
      if !completed || e.itemId.GetOr("") == "" || e.turnId == "" || c.replacedTokens == 0 { return; }
      Upsert(SystemItem(e, "completed", Compacted(c)), false);
    }

    method ApplyErrorEvent(e: Event, message: string, code: string)
      modifies this`errors, this`turns, this`items
      ensures Value() == AddError(old(Value()), e, message, code)
    {
      errors := errors + [ErrorRecord(e.seqNo, e.turnId, e.itemId.GetOr(""), message, code)];
      if e.itemId.GetOr("") != "" && e.turnId != "" {
        Upsert(SystemItem(e, "failed", Failure(message, code)), false);
      }
    }

    method UpsertApprovalFromEvent(e: Event)
      requires e.change.ApprovalChanged?
      modifies this`turns, this`items
      ensures Value() == UpsertApproval(old(Value()), e)
    {
      if e.turnId == "" { return; }
      var c := e.change;
      var at := IndexOf(ApprovalIds(items), Some(c.approvalId));
      var item := if at.Some? then items[at.value]
                  else Item(e.itemId.GetOr("item_" + c.approvalId), e.turnId, e.threadId, c.decision,
                            e.timestamp, None, Approval(c.approvalId, c.toolName, c.question));
      item := item.(status := c.decision);
      if c.decision != "pending" { item := item.(finishedAt := Some(e.timestamp)); }
      Upsert(item, false);
    }

    method UpsertUserInputFromEvent(e: Event)
      requires e.change.InputChanged?
      modifies this`turns, this`items
      ensures Value() == UpsertInput(old(Value()), e)
    {
      if e.turnId == "" { return; }
      var c := e.change;
      var at := IndexOf(InputIds(items), Some(c.inputId));
      var item := if at.Some? then items[at.value]
                  else Item(e.itemId.GetOr("item_" + c.inputId), e.turnId, e.threadId, c.answer,
                            e.timestamp, None, UserInput(c.inputId, c.prompt, c.questions));
      item := item.(status := c.answer);
      if c.answer != "pending" { item := item.(finishedAt := Some(e.timestamp)); }
      Upsert(item, false);
    }

    method ApplyEventChange(e: Event)
      modifies this
      ensures Value() == ApplyChange(old(Value()), e)
    {
      hide UpsertItem, TurnChange, UpsertApproval, UpsertInput, AddCompaction, AddError, AddUsage;
      match e.change {
        case ThreadChanged(created, newTitle, status) =>
          if newTitle != "" { title := newTitle; }
          if status != "" { threadStatus := status; }
          if created && startedAt.None? { startedAt := Some(e.timestamp); }
        case TurnStarted(child, text) => ApplyTurnEvent(e, child, text);
        case TurnEnded(child, text, _) => ApplyTurnEvent(e, child, text);
        case TurnSteered(child, text) => ApplyTurnEvent(e, child, text);
        case ItemStored(item) => Upsert(item, false);
        case ItemDelta(item) => Upsert(item, true);
        case ApprovalChanged(_, _, _, _) => UpsertApprovalFromEvent(e);
        case InputChanged(_, _, _, _) => UpsertUserInputFromEvent(e);
        case CompactionStarted(c) => ApplyCompactionEvent(e, c, false);
        case CompactionCompleted(c) => ApplyCompactionEvent(e, c, true);
        case CatalogChanged(catalog) => toolCatalog := Some(catalog);
        case UsageReported(reported) => usage := AddUsage(usage, reported);
        case Failing(message, code) => ApplyErrorEvent(e, message, code);
        case Unprojected =>
      }
    }
  }

  method ApplyRuntimeEvent(p: Projection, e: Event) returns (r: Projection)
    ensures r == Apply(p, e)
  {
    if e.seqNo <= p.lastSeq { return p; }
    var draft := new ProjectionDraft(p);
    if draft.threadId == "" { draft.threadId := e.threadId; }
    draft.lastSeq := e.seqNo;
    draft.updatedAt := Some(e.timestamp);
    draft.ApplyEventChange(e);
    r := draft.Value();
  }
}
