/** What a projection says of a thread, read off its events alone: every field is what the
    first or the last event about it tells, or all that the events tell in order. */
module RuntimeReadings {

  import opened Wrappers
  import opened RuntimeReducer

  // ----- Reading events -----

  function Or<T>(a: Option<T>, b: Option<T>): Option<T> {
    if a.Some? then a else b
  }

  /** What the first event that tells something tells. */
  function First<T>(tells: Event -> Option<T>, es: seq<Event>): Option<T> {
    if es == [] then None else Or(tells(es[0]), First(tells, es[1..]))
  }

  /** What the last event that tells something tells. */
  function Last<T>(tells: Event -> Option<T>, es: seq<Event>): Option<T> {
    if es == [] then None else Or(Last(tells, es[1..]), tells(es[0]))
  }

  /** All that the events tell, in order. */
  function Gathered<T>(tells: Event -> seq<T>, es: seq<Event>): seq<T> {
    if es == [] then [] else tells(es[0]) + Gathered(tells, es[1..])
  }

  lemma {:induction false} ReadsFirst<T(!new)>(
    inv: Projection -> bool, field: Projection -> Option<T>, tells: Event -> Option<T>, p: Projection, es: seq<Event>)
    requires inv(p) && Increasing(es, p.lastSeq)
    requires forall q, e :: inv(q) && e in es && e.seqNo > q.lastSeq ==>
      inv(Apply(q, e)) && field(Apply(q, e)) == Or(field(q), tells(e))
    ensures inv(ApplyAll(p, es)) && field(ApplyAll(p, es)) == Or(field(p), First(tells, es))
    decreases |es|
  {
    hide Apply;
    if es != [] {
      var e := es[0];
      ApplyMovesOn(p, e);
      assert forall d :: d in es[1..] ==> d in es;
      ReadsFirst(inv, field, tells, Apply(p, e), es[1..]);
    }
  }

  lemma {:induction false} ReadsLast<T(!new)>(
    inv: Projection -> bool, field: Projection -> Option<T>, tells: Event -> Option<T>, p: Projection, es: seq<Event>)
    requires inv(p) && Increasing(es, p.lastSeq)
    requires forall q, e :: inv(q) && e in es && e.seqNo > q.lastSeq ==>
      inv(Apply(q, e)) && field(Apply(q, e)) == Or(tells(e), field(q))
    ensures inv(ApplyAll(p, es)) && field(ApplyAll(p, es)) == Or(Last(tells, es), field(p))
    decreases |es|
  {
    hide Apply;
    if es != [] {
      var e := es[0];
      ApplyMovesOn(p, e);
      assert forall d :: d in es[1..] ==> d in es;
      ReadsLast(inv, field, tells, Apply(p, e), es[1..]);
    }
  }

  lemma {:induction false} ReadsAll<T(!new)>(
    inv: Projection -> bool, field: Projection -> seq<T>, tells: Event -> seq<T>, p: Projection, es: seq<Event>)
    requires inv(p) && Increasing(es, p.lastSeq)
    requires forall q, e :: inv(q) && e in es && e.seqNo > q.lastSeq ==>
      inv(Apply(q, e)) && field(Apply(q, e)) == field(q) + tells(e)
    ensures inv(ApplyAll(p, es)) && field(ApplyAll(p, es)) == field(p) + Gathered(tells, es)
    decreases |es|
  {
    hide Apply;
    if es != [] {
      var e := es[0];
      ApplyMovesOn(p, e);
      assert forall d :: d in es[1..] ==> d in es;
      ReadsAll(inv, field, tells, Apply(p, e), es[1..]);
      assert field(p) + (tells(e) + Gathered(tells, es[1..])) == (field(p) + tells(e)) + Gathered(tells, es[1..]);
    } else {
      assert field(p) + [] == field(p);
    }
  }

  // ----- The thread -----

  function NonEmpty(s: string): Option<string> {
    if s != "" then Some(s) else None
  }

  function ThreadOf(e: Event): Option<string> {
    NonEmpty(e.threadId)
  }

  function TimeOf(e: Event): Option<string> {
    Some(e.timestamp)
  }

  function CreatedAt(e: Event): Option<string> {
    if e.change.ThreadChanged? && e.change.created then Some(e.timestamp) else None
  }

  function Titles(e: Event): Option<string> {
    if e.change.ThreadChanged? then NonEmpty(e.change.title) else None
  }

  function ThreadStatuses(e: Event): Option<string> {
    if e.change.ThreadChanged? then NonEmpty(e.change.status) else None
  }

  function Catalogs(e: Event): Option<string> {
    if e.change.CatalogChanged? then Some(e.change.catalog) else None
  }

  function Compactions(e: Event): seq<CompactionRecord> {
    match e.change
    case CompactionStarted(c) => [CompactionRecord(e.itemId.GetOr(""), e.turnId, c)]
    case CompactionCompleted(c) => [CompactionRecord(e.itemId.GetOr(""), e.turnId, c)]
    case _ => []
  }

  function Errors(e: Event): seq<ErrorRecord> {
    match e.change
    case Failing(message, code) => [ErrorRecord(e.seqNo, e.turnId, e.itemId.GetOr(""), message, code)]
    case _ => []
  }

  function Any(p: Projection): bool {
    true
  }

  predicate SameHead(p: Projection, q: Projection) {
    && q.threadId == p.threadId && q.startedAt == p.startedAt && q.updatedAt == p.updatedAt && q.title == p.title
    && q.threadStatus == p.threadStatus && q.toolCatalog == p.toolCatalog
  }

  lemma UpsertKeepsHead(p: Projection, item: Item, append: bool)
    ensures var q := UpsertItem(p, item, append);
            SameHead(p, q) && q.compactions == p.compactions && q.errors == p.errors
  {
  }

  lemma TurnKeepsHead(p: Projection, e: Event, child: Option<Child>, text: string)
    ensures var q := TurnChange(p, e, child, text);
            SameHead(p, q) && q.compactions == p.compactions && q.errors == p.errors
  {
  }

  lemma QuestionKeepsHead(p: Projection, e: Event)
    ensures e.change.ApprovalChanged? ==>
              var q := UpsertApproval(p, e); SameHead(p, q) && q.compactions == p.compactions && q.errors == p.errors
    ensures e.change.InputChanged? ==>
              var q := UpsertInput(p, e); SameHead(p, q) && q.compactions == p.compactions && q.errors == p.errors
  {
    hide UpsertItem;
    forall item { UpsertKeepsHead(p, item, false); }
  }

  lemma RecordKeepsHead(p: Projection, e: Event, c: Compaction, completed: bool, message: string, code: string)
    ensures var q := AddCompaction(p, e, c, completed);
            && SameHead(p, q) && q.errors == p.errors
            && q.compactions == p.compactions + [CompactionRecord(e.itemId.GetOr(""), e.turnId, c)]
    ensures var q := AddError(p, e, message, code);
            && SameHead(p, q) && q.compactions == p.compactions
            && q.errors == p.errors + [ErrorRecord(e.seqNo, e.turnId, e.itemId.GetOr(""), message, code)]
  {
    hide UpsertItem;
    UpsertKeepsHead(WithCompaction(p, e, c), SystemItem(e, "completed", Compacted(c)), false);
    UpsertKeepsHead(WithError(p, e, message, code), SystemItem(e, "failed", Failure(message, code)), false);
  }

  lemma ChangeHead(p: Projection, e: Event)
    ensures var q := ApplyChange(p, e);
            && (!e.change.ThreadChanged? && !e.change.CatalogChanged? ==> SameHead(p, q))
            && q.compactions == p.compactions + Compactions(e) && q.errors == p.errors + Errors(e)
  {
    hide UpsertItem, TurnChange, UpsertApproval, UpsertInput, AddCompaction, AddError, AddUsage;
    assert p.compactions + [] == p.compactions && p.errors + [] == p.errors;
    match e.change
    case TurnStarted(child, text) => TurnKeepsHead(p, e, child, text);
    case TurnEnded(child, text, _) => TurnKeepsHead(p, e, child, text);
    case TurnSteered(child, text) => TurnKeepsHead(p, e, child, text);
    case ItemStored(item) => UpsertKeepsHead(p, item, false);
    case ItemDelta(item) => UpsertKeepsHead(p, item, true);
    case ApprovalChanged(_, _, _, _) => QuestionKeepsHead(p, e);
    case InputChanged(_, _, _, _) => QuestionKeepsHead(p, e);
    case CompactionStarted(c) => RecordKeepsHead(p, e, c, false, "", "");
    case CompactionCompleted(c) => RecordKeepsHead(p, e, c, true, "", "");
    case Failing(message, code) => RecordKeepsHead(p, e, Compaction("", 0, [], "", []), false, message, code);
    case _ =>
  }

  function Begun(p: Projection, e: Event): Projection {
    p.(threadId := if p.threadId != "" then p.threadId else e.threadId,
       lastSeq := e.seqNo, updatedAt := Some(e.timestamp))
  }

  lemma ApplyIs(p: Projection, e: Event)
    requires e.seqNo > p.lastSeq
    ensures Apply(p, e) == ApplyChange(Begun(p, e), e)
  {
    hide ApplyChange;
  }

  /** What one event does to the head of the projection. */
  predicate HeadMoves(p: Projection, e: Event) {
    var q := Apply(p, e);
    && NonEmpty(q.threadId) == Or(NonEmpty(p.threadId), ThreadOf(e))
    && q.startedAt == Or(p.startedAt, CreatedAt(e))
    && q.updatedAt == Or(TimeOf(e), p.updatedAt)
    && NonEmpty(q.title) == Or(Titles(e), NonEmpty(p.title))
    && NonEmpty(q.threadStatus) == Or(ThreadStatuses(e), NonEmpty(p.threadStatus))
    && q.toolCatalog == Or(Catalogs(e), p.toolCatalog)
    && q.compactions == p.compactions + Compactions(e)
    && q.errors == p.errors + Errors(e)
  }

  lemma HeadStep(p: Projection, e: Event)
    requires e.seqNo > p.lastSeq
    ensures HeadMoves(p, e)
  {
    ApplyIs(p, e);
    ChangeHead(Begun(p, e), e);
    hide Apply, UpsertItem, TurnChange, UpsertApproval, UpsertInput, AddCompaction, AddError, AddUsage, Compactions,
      Errors;
    if !e.change.ThreadChanged? && !e.change.CatalogChanged? { hide ApplyChange; }
  }

  lemma HeadFirst(p: Projection, es: seq<Event>)
    requires Increasing(es, p.lastSeq)
    requires forall q: Projection, e :: e in es && e.seqNo > q.lastSeq ==> HeadMoves(q, e)
    ensures var q := ApplyAll(p, es);
            && NonEmpty(q.threadId) == Or(NonEmpty(p.threadId), First(ThreadOf, es))
            && q.startedAt == Or(p.startedAt, First(CreatedAt, es))
            && q.updatedAt == Or(Last(TimeOf, es), p.updatedAt)
  {
    hide Apply, ApplyAll, Or, NonEmpty, ThreadOf, CreatedAt, TimeOf, Titles, ThreadStatuses, Catalogs, Compactions,
      Errors, Increasing;
    ReadsFirst(Any, (q: Projection) => NonEmpty(q.threadId), ThreadOf, p, es);
    ReadsFirst(Any, (q: Projection) => q.startedAt, CreatedAt, p, es);
    ReadsLast(Any, (q: Projection) => q.updatedAt, TimeOf, p, es);
  }

  lemma HeadLast(p: Projection, es: seq<Event>)
    requires Increasing(es, p.lastSeq)
    requires forall q: Projection, e :: e in es && e.seqNo > q.lastSeq ==> HeadMoves(q, e)
    ensures var q := ApplyAll(p, es);
            && NonEmpty(q.title) == Or(Last(Titles, es), NonEmpty(p.title))
            && NonEmpty(q.threadStatus) == Or(Last(ThreadStatuses, es), NonEmpty(p.threadStatus))
            && q.toolCatalog == Or(Last(Catalogs, es), p.toolCatalog)
  {
    hide Apply, ApplyAll, Or, NonEmpty, ThreadOf, CreatedAt, TimeOf, Titles, ThreadStatuses, Catalogs, Compactions,
      Errors, Increasing;
    ReadsLast(Any, (q: Projection) => NonEmpty(q.title), Titles, p, es);
    ReadsLast(Any, (q: Projection) => NonEmpty(q.threadStatus), ThreadStatuses, p, es);
    ReadsLast(Any, (q: Projection) => q.toolCatalog, Catalogs, p, es);
  }

  lemma RecordsAddUp(p: Projection, es: seq<Event>)
    requires Increasing(es, p.lastSeq)
    requires forall q: Projection, e :: e in es && e.seqNo > q.lastSeq ==> HeadMoves(q, e)
    ensures var q := ApplyAll(p, es);
            && q.compactions == p.compactions + Gathered(Compactions, es)
            && q.errors == p.errors + Gathered(Errors, es)
  {
    hide Apply, ApplyAll, Or, NonEmpty, ThreadOf, CreatedAt, TimeOf, Titles, ThreadStatuses, Catalogs, Compactions,
      Errors, Increasing;
    ReadsAll(Any, (q: Projection) => q.compactions, Compactions, p, es);
    ReadsAll(Any, (q: Projection) => q.errors, Errors, p, es);
  }

  /** The thread is the first one named, its times are the first creation and the last
      event, its other fields the last ones told; errors and compactions add up in order. */
  lemma HeadIsRead(p: Projection, es: seq<Event>)
    requires Increasing(es, p.lastSeq)
    ensures var q := ApplyAll(p, es);
            && NonEmpty(q.threadId) == Or(NonEmpty(p.threadId), First(ThreadOf, es))
            && q.startedAt == Or(p.startedAt, First(CreatedAt, es))
            && q.updatedAt == Or(Last(TimeOf, es), p.updatedAt)
            && NonEmpty(q.title) == Or(Last(Titles, es), NonEmpty(p.title))
            && NonEmpty(q.threadStatus) == Or(Last(ThreadStatuses, es), NonEmpty(p.threadStatus))
            && q.toolCatalog == Or(Last(Catalogs, es), p.toolCatalog)
            && q.compactions == p.compactions + Gathered(Compactions, es)
            && q.errors == p.errors + Gathered(Errors, es)
  {
    hide Apply, ApplyAll, HeadMoves, Or, NonEmpty, Increasing;
    forall q: Projection, e: Event | e.seqNo > q.lastSeq ensures HeadMoves(q, e) { HeadStep(q, e); }
    HeadFirst(p, es);
    HeadLast(p, es);
    RecordsAddUp(p, es);
  }

  // ----- Turns and child runs -----

  /** The turn with the id, an untouched one if there is none. */
  function Standing(turns: seq<Turn>, turnId: string): Turn {
    match IndexOf(TurnIds(turns), turnId)
    case None => Turn(turnId, "", Unknown, None, None, [], [])
    case Some(k) => turns[k]
  }

  function TurnStatuses(turnId: string): Event -> Option<TurnStatus> {
    (e: Event) =>
      if e.turnId != turnId then None
      else
        match e.change
        case TurnStarted(None, _) => Some(Running)
        case TurnEnded(None, _, outcome) => Some(outcome)
        case _ => None
  }

  function TurnStarts(turnId: string): Event -> Option<string> {
    (e: Event) =>
      if e.turnId == turnId && e.change.TurnStarted? && e.change.child.None? then Some(e.timestamp) else None
  }

  function TurnEnds(turnId: string): Event -> Option<string> {
    (e: Event) =>
      if e.turnId == turnId && e.change.TurnEnded? && e.change.child.None? then Some(e.timestamp) else None
  }

  function Steerings(turnId: string): Event -> seq<string> {
    (e: Event) =>
      if e.turnId == turnId && e.change.TurnSteered? && e.change.child.None? && e.change.text != "" then
        [e.change.text]
      else []
  }

  /** The run of a child that an event reports. */
  function ChildRuns(childId: string): Event -> Option<ChildRun> {
    (e: Event) =>
      match e.change
      case TurnStarted(Some(child), text) =>
        if child.childId == childId then Some(ChildRun(child, e.timestamp, text)) else None
      case TurnEnded(Some(child), text, _) =>
        if child.childId == childId then Some(ChildRun(child, e.timestamp, text)) else None
      case TurnSteered(Some(child), text) =>
        if child.childId == childId then Some(ChildRun(child, e.timestamp, text)) else None
      case _ => None
  }

  function RunOf(runs: seq<ChildRun>, childId: string): Option<ChildRun> {
    match IndexOf(ChildIds(runs), childId)
    case None => None
    case Some(k) => Some(runs[k])
  }

  lemma {:induction false} IndexOfIsFirst<T>(s: seq<T>, x: T)
    ensures IndexOf(s, x).Some? ==> forall j :: 0 <= j < IndexOf(s, x).value ==> s[j] != x
  {
    if s != [] && s[0] != x { IndexOfIsFirst(s[1..], x); }
  }

  lemma FirstIndex<T>(s: seq<T>, x: T, k: nat)
    requires k < |s| && s[k] == x && forall j :: 0 <= j < k ==> s[j] != x
    ensures IndexOf(s, x) == Some(k)
  {
    IndexOfIsFirst(s, x);
  }

  lemma IndexOfSnoc<T>(s: seq<T>, x: T, y: T)
    ensures IndexOf(s + [x], y) == if y in s then IndexOf(s, y) else if x == y then Some(|s|) else None
  {
    hide IndexOf;
    IndexOfIsFirst(s, y);
    if y in s {
      FirstIndex(s + [x], y, IndexOf(s, y).value);
    } else if x == y {
      FirstIndex(s + [x], y, |s|);
    }
  }

  predicate SameCourse(a: Turn, b: Turn) {
    a.status == b.status && a.startedAt == b.startedAt && a.finishedAt == b.finishedAt && a.steering == b.steering
  }

  lemma EnsuredStands(turns: seq<Turn>, threadId: string, id: string, turnId: string)
    ensures SameCourse(Standing(EnsureTurn(turns, threadId, id), turnId), Standing(turns, turnId))
  {
    hide IndexOf, TurnIds;
    var r := EnsureTurn(turns, threadId, id);
    if id !in TurnIds(turns) {
      TurnIdsSnoc(turns, r[|turns|]);
      IndexOfSnoc(TurnIds(turns), id, turnId);
    }
  }

  lemma TurnIdsSnoc(turns: seq<Turn>, turn: Turn)
    ensures TurnIds(turns + [turn]) == TurnIds(turns) + [turn.id] && |TurnIds(turns)| == |turns|
  {
  }

  lemma ListedStands(turns: seq<Turn>, item: Item, turnId: string)
    ensures SameCourse(
              Standing(ListItem(EnsureTurn(turns, item.threadId, item.turnId), item.turnId, item.id), turnId),
              Standing(turns, turnId))
  {
    var mid := EnsureTurn(turns, item.threadId, item.turnId);
    EnsuredStands(turns, item.threadId, item.turnId, turnId);
    hide IndexOf, EnsureTurn;
    assert TurnIds(ListItem(mid, item.turnId, item.id)) == TurnIds(mid);
  }

  lemma UpsertStands(p: Projection, item: Item, append: bool, turnId: string)
    ensures SameCourse(Standing(UpsertItem(p, item, append).turns, turnId), Standing(p.turns, turnId))
    ensures UpsertItem(p, item, append).childRuns == p.childRuns
  {
    hide IndexOf, EnsureTurn, ListItem, Standing, PutItem;
    ListedStands(p.turns, item, turnId);
  }

  /** What one event does to a turn. */
  predicate TurnMoves(was: Turn, turn: Turn, e: Event, turnId: string) {
    && Some(turn.status) == Or(TurnStatuses(turnId)(e), Some(was.status))
    && turn.startedAt == Or(was.startedAt, TurnStarts(turnId)(e))
    && turn.finishedAt == Or(TurnEnds(turnId)(e), was.finishedAt)
    && turn.steering == was.steering + Steerings(turnId)(e)
  }

  predicate ChildMoves(p: Projection, q: Projection, e: Event, childId: string) {
    RunOf(q.childRuns, childId) == Or(ChildRuns(childId)(e), RunOf(p.childRuns, childId))
  }

  lemma TurnEventStands(p: Projection, e: Event, child: Option<Child>, text: string, turnId: string)
    requires turnId != ""
    requires match e.change
      case TurnStarted(c, t) => c == child && t == text
      case TurnEnded(c, t, _) => c == child && t == text
      case TurnSteered(c, t) => c == child && t == text
      case _ => false
    ensures TurnMoves(Standing(p.turns, turnId), Standing(TurnChange(p, e, child, text).turns, turnId), e, turnId)
  {
    hide IndexOf, EnsureTurn, Standing, TurnIds;
    var was := Standing(p.turns, turnId);
    assert was.steering + [] == was.steering;
    if child.None? && e.turnId != "" {
      EnsuredStands(p.turns, e.threadId, e.turnId, turnId);
      EnsuredThere(p.turns, e.threadId, e.turnId);
      var turns := EnsureTurn(p.turns, e.threadId, e.turnId);
      MarkedStands(turns, e, turnId);
    }
  }

  /** Marking a turn changes that turn only. */
  lemma MarkedStands(turns: seq<Turn>, e: Event, turnId: string)
    requires e.turnId in TurnIds(turns)
    ensures var k := IndexOf(TurnIds(turns), e.turnId).value;
            Standing(turns[k := TurnAfter(turns[k], e)], turnId) ==
              if turnId == e.turnId then TurnAfter(Standing(turns, turnId), e) else Standing(turns, turnId)
  {
    var k := IndexOf(TurnIds(turns), e.turnId).value;
    assert TurnIds(turns[k := TurnAfter(turns[k], e)]) == TurnIds(turns);
  }

  lemma EnsuredThere(turns: seq<Turn>, threadId: string, turnId: string)
    ensures turnId in TurnIds(EnsureTurn(turns, threadId, turnId))
  {
    if turnId !in TurnIds(turns) {
      assert TurnIds(EnsureTurn(turns, threadId, turnId))[|turns|] == turnId;
    }
  }

  lemma TurnEventRuns(p: Projection, e: Event, child: Option<Child>, text: string, childId: string)
    requires match e.change
      case TurnStarted(c, t) => c == child && t == text
      case TurnEnded(c, t, _) => c == child && t == text
      case TurnSteered(c, t) => c == child && t == text
      case _ => false
    ensures ChildMoves(p, TurnChange(p, e, child, text), e, childId)
  {
    hide IndexOf;
    if child.Some? {
      var q := UpsertChild(p, e, child.value, text);
      if child.value.childId in ChildIds(p.childRuns) {
        assert ChildIds(q.childRuns) == ChildIds(p.childRuns);
      } else {
        assert ChildIds(q.childRuns) == ChildIds(p.childRuns) + [child.value.childId];
        IndexOfSnoc(ChildIds(p.childRuns), child.value.childId, childId);
      }
    }
  }

  lemma TurnStep(p: Projection, e: Event, turnId: string, childId: string)
    requires turnId != ""
    ensures TurnMoves(Standing(p.turns, turnId), Standing(ApplyChange(p, e).turns, turnId), e, turnId)
    ensures ChildMoves(p, ApplyChange(p, e), e, childId)
  {
    hide UpsertItem, TurnChange, Standing, RunOf, IndexOf, AddUsage;
    match e.change
    case TurnStarted(child, text) =>
      TurnEventStands(p, e, child, text, turnId);
      TurnEventRuns(p, e, child, text, childId);
    case TurnEnded(child, text, _) =>
      TurnEventStands(p, e, child, text, turnId);
      TurnEventRuns(p, e, child, text, childId);
    case TurnSteered(child, text) =>
      TurnEventStands(p, e, child, text, turnId);
      TurnEventRuns(p, e, child, text, childId);
    case _ =>
      OtherChange(p, e, turnId);
      var was := Standing(p.turns, turnId);
      assert was.steering + [] == was.steering;
  }

  lemma OtherChange(p: Projection, e: Event, turnId: string)
    requires !e.change.TurnStarted? && !e.change.TurnEnded? && !e.change.TurnSteered?
    ensures SameCourse(Standing(ApplyChange(p, e).turns, turnId), Standing(p.turns, turnId))
    ensures ApplyChange(p, e).childRuns == p.childRuns
  {
    hide UpsertItem, Standing, IndexOf, ApprovalIds, InputIds, AddUsage;
    forall q: Projection, item: Item, append | q.turns == p.turns && q.childRuns == p.childRuns
      ensures SameCourse(Standing(UpsertItem(q, item, append).turns, turnId), Standing(p.turns, turnId))
           && UpsertItem(q, item, append).childRuns == p.childRuns
    {
      UpsertStands(q, item, append, turnId);
    }
  }

  predicate TurnFollows(p: Projection, e: Event, turnId: string, childId: string) {
    && TurnMoves(Standing(p.turns, turnId), Standing(Apply(p, e).turns, turnId), e, turnId)
    && ChildMoves(p, Apply(p, e), e, childId)
  }

  lemma TurnFollowsEvent(p: Projection, e: Event, turnId: string, childId: string)
    requires turnId != "" && e.seqNo > p.lastSeq
    ensures TurnFollows(p, e, turnId, childId)
  {
    hide ApplyChange, Apply, Standing, RunOf, TurnMoves;
    TurnStep(Begun(p, e), e, turnId, childId);
    ApplyIs(p, e);
  }

  lemma TurnTimes(p: Projection, es: seq<Event>, turnId: string)
    requires Increasing(es, p.lastSeq)
    requires forall q: Projection, e :: e in es && e.seqNo > q.lastSeq ==> TurnFollows(q, e, turnId, "")
    ensures var was, turn := Standing(p.turns, turnId), Standing(ApplyAll(p, es).turns, turnId);
            && turn.startedAt == Or(was.startedAt, First(TurnStarts(turnId), es))
            && turn.finishedAt == Or(Last(TurnEnds(turnId), es), was.finishedAt)
  {
    hide Apply, ApplyAll, Standing, RunOf, TurnStatuses, TurnStarts, TurnEnds, Steerings, Increasing, Or, First, Last;
    ReadsFirst(Any, (q: Projection) => Standing(q.turns, turnId).startedAt, TurnStarts(turnId), p, es);
    ReadsLast(Any, (q: Projection) => Standing(q.turns, turnId).finishedAt, TurnEnds(turnId), p, es);
  }

  lemma TurnSteering(p: Projection, es: seq<Event>, turnId: string)
    requires Increasing(es, p.lastSeq)
    requires forall q: Projection, e :: e in es && e.seqNo > q.lastSeq ==> TurnFollows(q, e, turnId, "")
    ensures var was, turn := Standing(p.turns, turnId), Standing(ApplyAll(p, es).turns, turnId);
            && turn.status == Last(TurnStatuses(turnId), es).GetOr(was.status)
            && turn.steering == was.steering + Gathered(Steerings(turnId), es)
  {
    hide Apply, ApplyAll, Standing, RunOf, TurnStatuses, TurnStarts, TurnEnds, Steerings, Increasing, First, Last;
    ReadsLast(Any, (q: Projection) => Some(Standing(q.turns, turnId).status), TurnStatuses(turnId), p, es);
    ReadsAll(Any, (q: Projection) => Standing(q.turns, turnId).steering, Steerings(turnId), p, es);
  }

  /** A turn is running or as its last start or end says, since its first start, until its
      last end, with the texts that steered it in order. */
  lemma TurnIsRead(p: Projection, es: seq<Event>, turnId: string)
    requires turnId != "" && Increasing(es, p.lastSeq)
    ensures var was, turn := Standing(p.turns, turnId), Standing(ApplyAll(p, es).turns, turnId);
            && turn.status == Last(TurnStatuses(turnId), es).GetOr(was.status)
            && turn.startedAt == Or(was.startedAt, First(TurnStarts(turnId), es))
            && turn.finishedAt == Or(Last(TurnEnds(turnId), es), was.finishedAt)
            && turn.steering == was.steering + Gathered(Steerings(turnId), es)
  {
    hide *;
    forall q: Projection, e: Event | e.seqNo > q.lastSeq ensures TurnFollows(q, e, turnId, "") {
      TurnFollowsEvent(q, e, turnId, "");
    }
    TurnTimes(p, es, turnId);
    TurnSteering(p, es, turnId);
  }

  /** A child run is what the last event about the child says. */
  lemma ChildRunIsRead(p: Projection, es: seq<Event>, childId: string)
    requires Increasing(es, p.lastSeq)
    ensures RunOf(ApplyAll(p, es).childRuns, childId) ==
            Or(Last(ChildRuns(childId), es), RunOf(p.childRuns, childId))
  {
    hide Apply, ApplyAll, Standing, RunOf, ChildRuns, Increasing, Or, TurnMoves;
    forall q: Projection, e: Event | e.seqNo > q.lastSeq ensures TurnFollows(q, e, "t", childId) {
      TurnFollowsEvent(q, e, "t", childId);
    }
    ReadsLast(Any, (q: Projection) => RunOf(q.childRuns, childId), ChildRuns(childId), p, es);
  }

  // ----- Items -----

  datatype Key = ApprovalKey(approvalId: string) | InputKey(inputId: string)

  function KeyOf(body: Body): Option<Key> {
    match body
    case Approval(id, _, _) => Some(ApprovalKey(id))
    case UserInput(id, _, _) => Some(InputKey(id))
    case _ => None
  }

  function Keys(items: seq<Item>): seq<Option<Key>> {
    Mapped((item: Item) => KeyOf(item.body), items)
  }

  /** The item an event stores as it stands. */
  function Stores(e: Event): Option<Item> {
    match e.change
    case ItemStored(item) => Some(item)
    case CompactionCompleted(c) =>
      if e.itemId.None? || e.itemId.value == "" || e.turnId == "" || c.replacedTokens == 0 then None
      else Some(Item(e.itemId.value, e.turnId, e.threadId, "completed", e.timestamp, Some(e.timestamp), Compacted(c)))
    case Failing(message, code) =>
      if e.itemId.None? || e.itemId.value == "" || e.turnId == "" then None
      else
        Some(Item(e.itemId.value, e.turnId, e.threadId, "failed", e.timestamp, Some(e.timestamp),
                  Failure(message, code)))
    case _ => None
  }

  /** The question an event asks or settles. */
  function Asks(e: Event): Option<Key> {
    match e.change
    case ApprovalChanged(id, _, _, _) => if e.turnId == "" then None else Some(ApprovalKey(id))
    case InputChanged(id, _, _, _) => if e.turnId == "" then None else Some(InputKey(id))
    case _ => None
  }

  function Decision(e: Event): string {
    match e.change
    case ApprovalChanged(_, _, decision, _) => decision
    case InputChanged(_, answer, _, _) => answer
    case _ => ""
  }

  function SettledAt(e: Event): Option<string> {
    if Decision(e) != "pending" then Some(e.timestamp) else None
  }

  /** The item a question nobody asked before is given. */
  function Opened(e: Event): Item
    requires Asks(e).Some?
  {
    match e.change
    case ApprovalChanged(id, tool, decision, question) =>
      Item(e.itemId.GetOr("item_" + id), e.turnId, e.threadId, decision, e.timestamp, SettledAt(e),
           Approval(id, tool, question))
    case InputChanged(id, answer, prompt, questions) =>
      Item(e.itemId.GetOr("item_" + id), e.turnId, e.threadId, answer, e.timestamp, SettledAt(e),
           UserInput(id, prompt, questions))
  }

  predicate Away(item: Item, id: string, key: Option<Key>) {
    item.id != id && (key.Some? ==> KeyOf(item.body) != key)
  }

  /** The event is about other items and other questions, or none. */
  predicate Elsewhere(e: Event, id: string, key: Option<Key>) {
    && (Stores(e).Some? ==> Away(Stores(e).value, id, key))
    && (e.change.ItemDelta? ==> Away(e.change.item, id, key))
    && (Asks(e).Some? ==> Asks(e) != key && Opened(e).id != id)
  }

  predicate At(items: seq<Item>, i: nat, id: string, key: Option<Key>) {
    i < |items| && items[i].id == id && KeyOf(items[i].body) == key
  }

  predicate FirstWith(items: seq<Item>, i: nat, key: Option<Key>) {
    forall j :: 0 <= j < i && j < |items| ==> KeyOf(items[j].body) != key
  }

  lemma PutAway(items: seq<Item>, x: Item, append: bool, i: nat, id: string, key: Option<Key>)
    requires At(items, i, id, key) && Away(x, id, key)
    ensures var r := PutItem(items, x, append);
            && At(r, i, id, key) && r[i] == items[i]
            && (key.Some? && FirstWith(items, i, key) ==> FirstWith(r, i, key))
  {
  }

  lemma PutSame(items: seq<Item>, x: Item, i: nat)
    requires Distinct(ItemIds(items)) && i < |items| && items[i].id == x.id
    ensures PutItem(items, x, false) == items[i := x]
    ensures PutItem(items, x, true) == items[i := AppendDelta(items[i], x)]
  {
    var ids := ItemIds(items);
    assert ids[i] == x.id;
    FirstIndex(ids, x.id, i);
  }

  lemma {:induction false} SameIndex<A, B>(s: seq<A>, x: A, t: seq<B>, y: B)
    requires |s| == |t| && forall i :: 0 <= i < |s| ==> (s[i] == x <==> t[i] == y)
    ensures IndexOf(s, x) == IndexOf(t, y)
  {
    if s != [] && s[0] != x { SameIndex(s[1..], x, t[1..], y); }
  }

  /** The item a question has after an event about it. */
  function Asked(items: seq<Item>, e: Event): Item
    requires Asks(e).Some?
  {
    match IndexOf(Keys(items), Asks(e))
    case None => Opened(e)
    case Some(k) => items[k].(status := Decision(e), finishedAt := Or(SettledAt(e), items[k].finishedAt))
  }

  lemma AskedSays(p: Projection, e: Event)
    requires Asks(e).Some?
    ensures ApplyChange(p, e) == UpsertItem(p, Asked(p.items, e), false)
  {
    hide UpsertItem, IndexOf;
    if e.change.ApprovalChanged? {
      SameIndex(ApprovalIds(p.items), Some(e.change.approvalId), Keys(p.items), Asks(e));
    } else {
      SameIndex(InputIds(p.items), Some(e.change.inputId), Keys(p.items), Asks(e));
    }
  }

  function PutBy(items: seq<Item>, e: Event): seq<Item> {
    if Stores(e).Some? then PutItem(items, Stores(e).value, false)
    else if e.change.ItemDelta? then PutItem(items, e.change.item, true)
    else if Asks(e).Some? then PutItem(items, Asked(items, e), false)
    else items
  }

  lemma ItemsAfter(p: Projection, e: Event)
    requires e.seqNo > p.lastSeq
    ensures Apply(p, e).items == PutBy(p.items, e)
  {
    var q := Begun(p, e);
    ApplyIs(p, e);
    hide Apply, PutItem, ListItem, EnsureTurn, IndexOf, Asked, AddUsage;
    if Asks(e).Some? {
      hide ApplyChange;
      AskedSays(q, e);
    } else {
      hide UpsertApproval, UpsertInput;
      QuietAsk(q, e);
    }
  }

  lemma QuietAsk(p: Projection, e: Event)
    requires Asks(e).None?
    ensures e.change.ApprovalChanged? ==> UpsertApproval(p, e) == p
    ensures e.change.InputChanged? ==> UpsertInput(p, e) == p
  {
  }

  lemma ElsewhereKeeps(items: seq<Item>, e: Event, i: nat, id: string, key: Option<Key>)
    requires Distinct(ItemIds(items)) && At(items, i, id, key) && Elsewhere(e, id, key)
    ensures var r := PutBy(items, e);
            && At(r, i, id, key) && r[i] == items[i]
            && (key.Some? && FirstWith(items, i, key) ==> FirstWith(r, i, key))
  {
    hide PutItem, Distinct;
    if Stores(e).Some? {
      PutAway(items, Stores(e).value, false, i, id, key);
    } else if e.change.ItemDelta? {
      PutAway(items, e.change.item, true, i, id, key);
    } else if Asks(e).Some? {
      AskedAway(items, e, i, id, key);
      PutAway(items, Asked(items, e), false, i, id, key);
    }
  }

  lemma AskedAway(items: seq<Item>, e: Event, i: nat, id: string, key: Option<Key>)
    requires Distinct(ItemIds(items)) && At(items, i, id, key)
    requires Asks(e).Some? && Asks(e) != key && Opened(e).id != id
    ensures Away(Asked(items, e), id, key)
  {
    var at := IndexOf(Keys(items), Asks(e));
    if at.Some? { assert ItemIds(items)[at.value] != ItemIds(items)[i]; }
  }

  /** What no event is about stays as it is, in its place. */
  lemma {:induction false} ElsewhereStays(p: Projection, es: seq<Event>, i: nat)
    requires WellFormed(p) && Increasing(es, p.lastSeq) && i < |p.items|
    requires forall e :: e in es ==> Elsewhere(e, p.items[i].id, KeyOf(p.items[i].body))
    ensures var q := ApplyAll(p, es); i < |q.items| && q.items[i] == p.items[i]
    decreases |es|
  {
    if es != [] {
      NextEvent(es, p);
      hide Apply, WellFormed, Elsewhere, PutBy, Increasing;
      ElsewhereKeeps(p.items, es[0], i, p.items[i].id, KeyOf(p.items[i].body));
      ElsewhereStays(Apply(p, es[0]), es[1..], i);
    }
  }

  /** An item last stored, or begun by its first delta, is that item, once. */
  lemma LastStoredStands(p: Projection, e: Event, item: Item, later: seq<Event>)
    requires WellFormed(p) && Increasing([e] + later, p.lastSeq)
    requires Stores(e) == Some(item) || (e.change == ItemDelta(item) && item.id !in ItemIds(p.items))
    requires forall d :: d in later ==> Elsewhere(d, item.id, KeyOf(item.body))
    ensures var q := ApplyAll(p, [e] + later);
            item in q.items && forall x :: x in q.items && x.id == item.id ==> x == item
  {
    hide Elsewhere, Apply;
    var es, r := [e] + later, Apply(p, e);
    assert es[0] == e && es[1..] == later;
    ItemsAfter(p, e);
    ApplyKeeps(p, e);
    ApplyMovesOn(p, e);
    StoredThere(p.items, e, item);
    var i :| 0 <= i < |r.items| && r.items[i] == item;
    ElsewhereStays(r, later, i);
    ReplayIsWellFormed(later, r);
    hide ApplyAll;
    OneWithId(ApplyAll(r, later).items, i);
  }

  lemma StoredThere(items: seq<Item>, e: Event, item: Item)
    requires Stores(e) == Some(item) || (e.change == ItemDelta(item) && item.id !in ItemIds(items))
    ensures item in PutBy(items, e)
  {
    hide IndexOf;
    var r := PutItem(items, item, e.change.ItemDelta?);
    var at := IndexOf(ItemIds(items), item.id);
    assert if at.Some? then r[at.value] == item else r[|items|] == item;
  }

  lemma OneWithId(items: seq<Item>, i: nat)
    requires Distinct(ItemIds(items)) && i < |items|
    ensures forall x :: x in items && x.id == items[i].id ==> x == items[i]
  {
    forall x | x in items && x.id == items[i].id ensures x == items[i] {
      var j :| 0 <= j < |items| && items[j] == x;
      assert ItemIds(items)[j] == ItemIds(items)[i];
    }
  }

  // ----- Which turns there are -----

  datatype Place = Place(turnId: string, threadId: string)

  /** The turn an event is about, in the thread it names. */
  function PlaceOf(e: Event): Option<Place> {
    if Stores(e).Some? then Some(Place(Stores(e).value.turnId, Stores(e).value.threadId))
    else
      match e.change
      case ItemDelta(item) => Some(Place(item.turnId, item.threadId))
      case TurnStarted(None, _) => Some(Place(e.turnId, e.threadId))
      case TurnEnded(None, _, _) => Some(Place(e.turnId, e.threadId))
      case TurnSteered(None, _) => Some(Place(e.turnId, e.threadId))
      case ApprovalChanged(_, _, _, _) => Some(Place(e.turnId, e.threadId))
      case InputChanged(_, _, _, _) => Some(Place(e.turnId, e.threadId))
      case _ => None
  }

  /** Turns keep their places, threads and items, and new ones come last. */
  predicate TurnsGrow(turns: seq<Turn>, later: seq<Turn>) {
    && |turns| <= |later|
    && forall k :: 0 <= k < |turns| ==>
         && later[k].id == turns[k].id && later[k].threadId == turns[k].threadId
         && turns[k].itemIds <= later[k].itemIds
  }

  predicate BroughtBy(turns: seq<Turn>, later: seq<Turn>, place: Option<Place>) {
    forall k :: |turns| <= k < |later| ==> place == Some(Place(later[k].id, later[k].threadId))
  }

  lemma EnsuredGrow(turns: seq<Turn>, place: Place)
    ensures var r := EnsureTurn(turns, place.threadId, place.turnId);
            TurnsGrow(turns, r) && BroughtBy(turns, r, Some(place)) && (place.turnId in TurnIds(turns) ==> r == turns)
  {
  }

  lemma UpsertGrows(p: Projection, item: Item, append: bool)
    ensures var r := UpsertItem(p, item, append).turns;
            && TurnsGrow(p.turns, r) && BroughtBy(p.turns, r, Some(Place(item.turnId, item.threadId)))
            && (item.turnId in TurnIds(p.turns) ==> |r| == |p.turns|)
  {
    hide IndexOf, EnsureTurn;
    EnsuredGrow(p.turns, Place(item.turnId, item.threadId));
  }

  lemma TurnChangeGrows(p: Projection, e: Event, child: Option<Child>, text: string)
    ensures var r := TurnChange(p, e, child, text).turns;
            && TurnsGrow(p.turns, r)
            && BroughtBy(p.turns, r, if child.None? then Some(Place(e.turnId, e.threadId)) else None)
  {
    hide IndexOf, EnsureTurn;
    EnsuredGrow(p.turns, Place(e.turnId, e.threadId));
  }

  lemma AskGrows(p: Projection, e: Event)
    requires WellFormed(p) && (e.change.ApprovalChanged? || e.change.InputChanged?)
    ensures var r := ApplyChange(p, e).turns; TurnsGrow(p.turns, r) && BroughtBy(p.turns, r, PlaceOf(e))
  {
    if Asks(e).Some? {
      var item := Asked(p.items, e);
      AskedSays(p, e);
      UpsertGrows(p, item, false);
      if IndexOf(Keys(p.items), Asks(e)).Some? {
        assert Listed(p.turns, item.turnId, item.id);
        ListedIsTurn(p.turns, item.turnId, item.id);
      }
      hide ApplyChange, UpsertItem, IndexOf, TurnIds, WellFormed, Keys, TurnsGrow;
    } else {
      QuietAsk(p, e);
    }
  }

  lemma ListedIsTurn(turns: seq<Turn>, turnId: string, itemId: string)
    requires Listed(turns, turnId, itemId)
    ensures turnId in TurnIds(turns)
  {
    var k :| 0 <= k < |turns| && turns[k].id == turnId && itemId in turns[k].itemIds;
    assert TurnIds(turns)[k] == turnId;
  }

  lemma RecordGrows(p: Projection, q: Projection, item: Item)
    requires q.turns == p.turns
    ensures var r := UpsertItem(q, item, false).turns;
            TurnsGrow(p.turns, r) && BroughtBy(p.turns, r, Some(Place(item.turnId, item.threadId)))
    ensures TurnsGrow(p.turns, q.turns) && forall place :: BroughtBy(p.turns, q.turns, place)
  {
    UpsertGrows(q, item, false);
  }

  lemma ChangeGrows(p: Projection, e: Event)
    requires WellFormed(p)
    ensures var r := ApplyChange(p, e).turns; TurnsGrow(p.turns, r) && BroughtBy(p.turns, r, PlaceOf(e))
  {
    hide UpsertItem, TurnChange, UpsertApproval, UpsertInput, WellFormed, AddUsage;
    match e.change
    case TurnStarted(child, text) => TurnChangeGrows(p, e, child, text);
    case TurnEnded(child, text, _) => TurnChangeGrows(p, e, child, text);
    case TurnSteered(child, text) => TurnChangeGrows(p, e, child, text);
    case ItemStored(item) => UpsertGrows(p, item, false);
    case ItemDelta(item) => UpsertGrows(p, item, true);
    case ApprovalChanged(_, _, _, _) => AskGrows(p, e);
    case InputChanged(_, _, _, _) => AskGrows(p, e);
    case CompactionStarted(c) => RecordGrows(p, WithCompaction(p, e, c), SystemItem(e, "completed", Compacted(c)));
    case CompactionCompleted(c) => RecordGrows(p, WithCompaction(p, e, c), SystemItem(e, "completed", Compacted(c)));
    case Failing(message, code) =>
      RecordGrows(p, WithError(p, e, message, code), SystemItem(e, "failed", Failure(message, code)));
    case _ =>
  }

  /** A turn is added after the others, in the thread of an event that is about it, and
      never moves; what is listed in it stays listed in order. */
  lemma {:induction false} TurnsAppear(p: Projection, es: seq<Event>, k: nat)
    requires WellFormed(p) && Increasing(es, p.lastSeq)
    ensures var r := ApplyAll(p, es).turns;
            && TurnsGrow(p.turns, r)
            && (|p.turns| <= k < |r| ==>
                  exists e :: e in es && PlaceOf(e) == Some(Place(r[k].id, r[k].threadId)))
    decreases |es|
  {
    if es != [] {
      var e, q := es[0], Apply(p, es[0]);
      NextEvent(es, p);
      ApplyIs(p, e);
      hide Apply, ApplyChange, WellFormed, Increasing, PutBy, PlaceOf;
      ChangeGrows(Begun(p, e), e);
      TurnsAppear(q, es[1..], k);
    }
  }

  // ----- Questions -----

  function Decisions(key: Key): Event -> Option<string> {
    (e: Event) => if Asks(e) == Some(key) then Some(Decision(e)) else None
  }

  function Settlements(key: Key): Event -> Option<string> {
    (e: Event) => if Asks(e) == Some(key) then SettledAt(e) else None
  }

  lemma AskedAgain(items: seq<Item>, e: Event, i: nat, key: Key)
    requires Distinct(ItemIds(items)) && i < |items| && KeyOf(items[i].body) == Some(key)
    requires FirstWith(items, i, Some(key)) && Asks(e) == Some(key)
    ensures var item := items[i];
            PutBy(items, e) ==
              items[i := item.(status := Decision(e), finishedAt := Or(SettledAt(e), item.finishedAt))]
  {
    FirstIndex(Keys(items), Some(key), i);
    hide PutItem, Distinct, FirstWith;
    PutSame(items, Asked(items, e), i);
  }

  /** An approval or user input has the decision last made on it and the time of the last
      one that settled it; the rest is as it was asked. */
  lemma {:induction false} QuestionIsRead(p: Projection, es: seq<Event>, i: nat, key: Key)
    requires WellFormed(p) && Increasing(es, p.lastSeq)
    requires i < |p.items| && KeyOf(p.items[i].body) == Some(key) && FirstWith(p.items, i, Some(key))
    requires forall e :: e in es ==> Asks(e) == Some(key) || Elsewhere(e, p.items[i].id, Some(key))
    ensures var q, item := ApplyAll(p, es), p.items[i];
            && i < |q.items|
            && q.items[i] == item.(status := Last(Decisions(key), es).GetOr(item.status),
                                   finishedAt := Or(Last(Settlements(key), es), item.finishedAt))
    decreases |es|
  {
    if es != [] {
      var e, q := es[0], Apply(p, es[0]);
      NextEvent(es, p);
      hide Apply, WellFormed, Elsewhere, PutBy, Increasing, KeyOf, FirstWith, Asks, Decisions, Settlements;
      QuestionStep(p.items, e, i, key);
      QuestionIsRead(q, es[1..], i, key);
    }
  }

  lemma NextEvent(es: seq<Event>, p: Projection)
    requires es != [] && Increasing(es, p.lastSeq) && WellFormed(p)
    ensures var q := Apply(p, es[0]);
            Increasing(es[1..], q.lastSeq) && WellFormed(q) && q.items == PutBy(p.items, es[0])
    ensures Distinct(ItemIds(p.items)) && forall e :: e in es[1..] ==> e in es
  {
    hide Apply, TurnsListItems, PutBy;
    ItemsAfter(p, es[0]);
    ApplyKeeps(p, es[0]);
    ApplyMovesOn(p, es[0]);
  }

  lemma QuestionStep(items: seq<Item>, e: Event, i: nat, key: Key)
    requires Distinct(ItemIds(items)) && i < |items| && KeyOf(items[i].body) == Some(key)
    requires FirstWith(items, i, Some(key))
    requires Asks(e) == Some(key) || Elsewhere(e, items[i].id, Some(key))
    ensures var r, item := PutBy(items, e), items[i];
            && i < |r| && KeyOf(r[i].body) == Some(key) && FirstWith(r, i, Some(key)) && r[i].id == item.id
            && r[i] == item.(status := Decisions(key)(e).GetOr(item.status),
                             finishedAt := Or(Settlements(key)(e), item.finishedAt))
  {
    hide PutBy, Distinct, ItemIds;
    if Asks(e) == Some(key) {
      AskedAgain(items, e, i, key);
    } else {
      ElsewhereKeeps(items, e, i, items[i].id, Some(key));
    }
  }

  /** A question nobody asked before is opened by its first event. */
  lemma QuestionOpens(p: Projection, e: Event, later: seq<Event>, key: Key)
    requires WellFormed(p) && Increasing([e] + later, p.lastSeq) && Asks(e) == Some(key)
    requires Some(key) !in Keys(p.items) && Opened(e).id !in ItemIds(p.items)
    requires forall d :: d in later ==> Asks(d) == Some(key) || Elsewhere(d, Opened(e).id, Some(key))
    ensures var q, i := ApplyAll(p, [e] + later), |p.items|;
            && i < |q.items|
            && q.items[i] == Opened(e).(status := Last(Decisions(key), later).GetOr(Decision(e)),
                                        finishedAt := Or(Last(Settlements(key), later), SettledAt(e)))
  {
    hide Elsewhere, Apply, TurnsListItems;
    var es, r := [e] + later, Apply(p, e);
    assert es[0] == e && es[1..] == later;
    ItemsAfter(p, e);
    ApplyKeeps(p, e);
    ApplyMovesOn(p, e);
    assert r.items == p.items + [Opened(e)];
    assert forall j :: 0 <= j < |p.items| ==> Keys(p.items)[j] != Some(key);
    QuestionIsRead(r, later, |p.items|, key);
  }

  // ----- Streamed texts -----

  predicate Speaks(body: Body) {
    body.AssistantText? || body.AssistantReasoning?
  }

  /** The event goes on with the text or the reasoning of the item. */
  predicate Continues(e: Event, id: string, body: Body) {
    && e.change.ItemDelta? && e.change.item.id == id
    && ((body.AssistantText? && e.change.item.body.AssistantText?)
        || (body.AssistantReasoning? && e.change.item.body.AssistantReasoning?))
  }

  function Deltas(id: string): Event -> Option<Item> {
    (e: Event) => if e.change.ItemDelta? && e.change.item.id == id then Some(e.change.item) else None
  }

  function TextOf(body: Body): string {
    match body
    case AssistantText(text) => text
    case AssistantReasoning(text, _) => text
    case _ => ""
  }

  function SignatureOf(body: Body): Option<string> {
    match body
    case AssistantReasoning(_, signature) => NonEmpty(signature)
    case _ => None
  }

  function Texts(id: string): Event -> string {
    (e: Event) => if Deltas(id)(e).Some? then TextOf(Deltas(id)(e).value.body) else ""
  }

  function Signatures(id: string): Event -> Option<string> {
    (e: Event) => if Deltas(id)(e).Some? then SignatureOf(Deltas(id)(e).value.body) else None
  }

  function Statuses(id: string): Event -> Option<string> {
    (e: Event) => if Deltas(id)(e).Some? then Some(Deltas(id)(e).value.status) else None
  }

  function Finishes(id: string): Event -> Option<string> {
    (e: Event) => if Deltas(id)(e).Some? then Deltas(id)(e).value.finishedAt else None
  }

  function Grown(body: Body, more: string, signature: Option<string>): Body {
    match body
    case AssistantText(text) => AssistantText(text + more)
    case AssistantReasoning(text, before) => AssistantReasoning(text + more, signature.GetOr(before))
    case _ => body
  }

  /** However other events are mixed in, a text or reasoning grows by exactly its deltas, in
      order; its signature, status and end are the last ones they bring, the rest stays. */
  lemma {:induction false} SpeechIsRead(p: Projection, es: seq<Event>, i: nat, id: string)
    requires WellFormed(p) && Increasing(es, p.lastSeq)
    requires i < |p.items| && p.items[i].id == id && Speaks(p.items[i].body)
    requires forall e :: e in es ==> Continues(e, id, p.items[i].body) || Elsewhere(e, id, None)
    ensures var q, item := ApplyAll(p, es), p.items[i];
            && i < |q.items|
            && q.items[i] == item.(body := Grown(item.body, Gathered(Texts(id), es), Last(Signatures(id), es)),
                                   status := Last(Statuses(id), es).GetOr(item.status),
                                   finishedAt := Or(Last(Finishes(id), es), item.finishedAt))
    decreases |es|
  {
    if es != [] {
      var e, q := es[0], Apply(p, es[0]);
      NextEvent(es, p);
      hide Apply, WellFormed, Elsewhere, PutBy, Increasing, Texts, Signatures, Statuses, Finishes, Deltas;
      SpeechStep(p.items, e, i, id);
      SpeechIsRead(q, es[1..], i, id);
      GrownTwice(p.items[i].body, Texts(id)(e), Gathered(Texts(id), es[1..]), Signatures(id)(e),
                 Last(Signatures(id), es[1..]));
    } else {
      GrownByNothing(p.items[i].body);
    }
  }

  lemma SpeechStep(items: seq<Item>, e: Event, i: nat, id: string)
    requires Distinct(ItemIds(items)) && i < |items| && items[i].id == id && Speaks(items[i].body)
    requires Continues(e, id, items[i].body) || Elsewhere(e, id, None)
    ensures var r, item := PutBy(items, e), items[i];
            && i < |r|
            && r[i] == item.(body := Grown(item.body, Texts(id)(e), Signatures(id)(e)),
                             status := Statuses(id)(e).GetOr(item.status),
                             finishedAt := Or(Finishes(id)(e), item.finishedAt))
  {
    hide PutItem, Distinct, Asked;
    if Continues(e, id, items[i].body) {
      PutSame(items, e.change.item, i);
      DeltaGrows(items[i], e, id);
    } else {
      ElsewhereKeeps(items, e, i, id, None);
      assert Deltas(id)(e).None?;
      GrownByNothing(items[i].body);
    }
  }

  lemma DeltaGrows(item: Item, e: Event, id: string)
    requires Continues(e, id, item.body)
    ensures AppendDelta(item, e.change.item) ==
      item.(body := Grown(item.body, Texts(id)(e), Signatures(id)(e)),
            status := Statuses(id)(e).GetOr(item.status),
            finishedAt := Or(Finishes(id)(e), item.finishedAt))
  {
    assert Deltas(id)(e) == Some(e.change.item);
  }

  lemma GrownByNothing(body: Body)
    ensures Grown(body, "", None) == body
  {
    if body.AssistantText? { assert body.text + "" == body.text; }
    if body.AssistantReasoning? { assert body.reasoning + "" == body.reasoning; }
  }

  lemma GrownTwice(body: Body, a: string, b: string, s: Option<string>, t: Option<string>)
    ensures Grown(Grown(body, a, s), b, t) == Grown(body, a + b, Or(t, s))
  {
    if body.AssistantText? { assert body.text + (a + b) == (body.text + a) + b; }
    if body.AssistantReasoning? { assert body.reasoning + (a + b) == (body.reasoning + a) + b; }
  }
}
