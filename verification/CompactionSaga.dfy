/** Revisions of a task state, prepared and committed, and the compaction
    transaction that commits one together with a summary item. */
module CompactionSaga {
  import opened Wrappers
  import SL = SessionLog

  // ----- The task-state store -----

  datatype Record = Record(itemId: string, taskRevision: nat, sourceDigest: string,
                           sourceItemIds: seq<string>, replacedTokens: nat)

  datatype TaskState = TaskState(scope: string, revision: nat, payload: string, compaction: Option<Record>)

  datatype Prepared = Prepared(scope: string, revision: nat, expected: nat, token: nat)

  datatype Key = Key(scope: string, revision: nat, token: nat)

  /** The active state of each scope, and the prepared ones by key. */
  datatype Tasks = Tasks(active: map<string, TaskState>, prepared: map<Key, TaskState>)

  const NOTHING: Tasks := Tasks(map[], map[])

  function Revision(t: Tasks, scope: string): nat {
    if scope in t.active then t.active[scope].revision else 0
  }

  function KeyOf(p: Prepared): Key {
    Key(p.scope, p.revision, p.token)
  }

  function Prepare(t: Tasks, state: TaskState, expected: nat, token: nat): (Tasks, Option<Prepared>) {
    if Revision(t, state.scope) != expected || state.revision != expected + 1 then (t, None)
    else
      var p := Prepared(state.scope, state.revision, expected, token);
      (t.(prepared := t.prepared[KeyOf(p) := state]), Some(p))
  }

  function Commit(t: Tasks, p: Prepared): (Tasks, bool) {
    if KeyOf(p) !in t.prepared || Revision(t, p.scope) != p.expected then (t, false)
    else (Tasks(t.active[p.scope := t.prepared[KeyOf(p)]], t.prepared - {KeyOf(p)}), true)
  }

  function Abort(t: Tasks, p: Prepared): Tasks {
    t.(prepared := t.prepared - {KeyOf(p)})
  }

  datatype TaskOp =
    | PrepareOp(state: TaskState, expected: nat, token: nat)
    | CommitOp(p: Prepared)
    | AbortOp(p: Prepared)

  function TaskStep(t: Tasks, op: TaskOp): Tasks {
    match op
    case PrepareOp(state, expected, token) => Prepare(t, state, expected, token).0
    case CommitOp(p) => Commit(t, p).0
    case AbortOp(p) => Abort(t, p)
  }

  function TaskRun(t: Tasks, ops: seq<TaskOp>): Tasks
    decreases |ops|
  {
    if ops == [] then t else TaskRun(TaskStep(t, ops[0]), ops[1..])
  }

  /** The preparations committed in a scope, in order. */
  function Commits(t: Tasks, ops: seq<TaskOp>, scope: string): seq<Prepared>
    decreases |ops|
  {
    if ops == [] then []
    else
      (if ops[0].CommitOp? && ops[0].p.scope == scope && Commit(t, ops[0].p).1 then [ops[0].p] else [])
      + Commits(TaskStep(t, ops[0]), ops[1..], scope)
  }

  /** A preparation is handed out by the store: it names the next revision. */
  predicate HandedOut(op: TaskOp) {
    op.CommitOp? ==> op.p.revision == op.p.expected + 1
  }

  ghost predicate KeysMatch(t: Tasks) {
    forall k | k in t.prepared :: t.prepared[k].scope == k.scope && t.prepared[k].revision == k.revision
  }

  /** Over any interleaving of preparations, commits and aborts, the revisions
      committed in a scope count up one by one; so of the preparations that expect
      the same revision at most one commits. */
  lemma {:induction false} CommitsCountUp(t: Tasks, ops: seq<TaskOp>, scope: string)
    requires KeysMatch(t) && forall op | op in ops :: HandedOut(op)
    ensures var commits, r := Commits(t, ops, scope), Revision(t, scope);
            && Revision(TaskRun(t, ops), scope) == r + |commits|
            && forall k :: 0 <= k < |commits| ==> commits[k].expected == r + k && commits[k].revision == r + k + 1
    decreases |ops|
  {
    if ops != [] {
      assert ops[0] in ops && HandedOut(ops[0]);
      var t' := TaskStep(t, ops[0]);
      assert KeysMatch(t');
      CommitsCountUp(t', ops[1..], scope);
    }
  }

  lemma OneCommitPerExpected(ops: seq<TaskOp>, scope: string)
    requires forall op | op in ops :: HandedOut(op)
    ensures var commits := Commits(NOTHING, ops, scope);
            && (forall k :: 0 <= k < |commits| ==> commits[k].revision == k + 1)
            && (forall j, k :: 0 <= j < k < |commits| ==> commits[j].expected != commits[k].expected)
  {
    CommitsCountUp(NOTHING, ops, scope);
  }

  class InMemoryTaskStateStore {
    var active: map<string, TaskState>
    var prepared: map<Key, TaskState>

    function Contents(): Tasks
      reads this
    {
      Tasks(active, prepared)
    }

    constructor ()
      ensures Contents() == NOTHING
    {
      active, prepared := map[], map[];
    }

    method PrepareState(state: TaskState, expected: nat, token: nat) returns (p: Option<Prepared>)
      modifies this
      ensures (Contents(), p) == Prepare(old(Contents()), state, expected, token)
    {
      var activeRevision := if state.scope in active then active[state.scope].revision else 0;
      if activeRevision != expected || state.revision != expected + 1 {
        return None;
      }
      var handle := Prepared(state.scope, state.revision, expected, token);
      prepared := prepared[KeyOf(handle) := state];
      return Some(handle);
    }

    method CommitState(p: Prepared) returns (ok: bool)
      modifies this
      ensures (Contents(), ok) == Commit(old(Contents()), p)
    {
      var key := KeyOf(p);
      if key !in prepared {
        return false;
      }
      var activeRevision := if p.scope in active then active[p.scope].revision else 0;
      if activeRevision != p.expected {
        return false;
      }
      active := active[p.scope := prepared[key]];
      prepared := prepared - {key};
      return true;
    }

    method AbortState(p: Prepared)
      modifies this
      ensures Contents() == Abort(old(Contents()), p)
    {
      prepared := prepared - {KeyOf(p)};
    }

    /** What other clients do to the store in the meantime. */
    method Interfere(ops: seq<TaskOp>)
      modifies this
      ensures Contents() == TaskRun(old(Contents()), ops)
    {
      for i := 0 to |ops|
        invariant TaskRun(Contents(), ops[i..]) == TaskRun(old(Contents()), ops)
      {
        assert ops[i..][0] == ops[i] && ops[i..][1..] == ops[i + 1..];
        match ops[i] {
          case PrepareOp(state, expected, token) => var _ := PrepareState(state, expected, token);
          case CommitOp(p) => var _ := CommitState(p);
          case AbortOp(p) => AbortState(p);
        }
      }
    }
  }

  // ----- The transaction -----

  /** What the compactor made of the history. */
  datatype Compaction = Compaction(next: seq<SL.Item>, summary: Option<SL.Item>, sourceDigest: Option<string>,
                                   sourceItemIds: seq<string>, replacedTokens: nat)

  /** `base` is the compactor's first result, `final` the one with the model's summary. */
  datatype Input = Input(inScope: bool, task: TaskState, stamp: SL.Patch, base: Compaction, final: Compaction)

  /** The step that fails, if any; the aborting of a preparation may fail as well. */
  datatype Fault = NoFault | PrepareFails | RecordFails | AppendFails | CommitFails

  datatype Schedule = Schedule(token: nat, fault: Fault, abortFails: bool, before: seq<TaskOp>, between: seq<TaskOp>)

  datatype Outcome =
    | Unneeded(next: seq<SL.Item>)
    | Compacted(next: seq<SL.Item>, summary: SL.Item, task: TaskState)
    | Thrown

  datatype World = World(tasks: Tasks, log: seq<SL.Item>)

  function Summary(input: Input): SL.Item
    requires input.final.summary.Some?
  {
    SL.Merged(input.final.summary.value, input.stamp)
  }

  function NewTask(input: Input): TaskState
    requires input.final.summary.Some? && input.final.sourceDigest.Some?
  {
    input.task.(revision := input.task.revision + 1,
                compaction := Some(Record(Summary(input).id, input.task.revision + 1, input.final.sourceDigest.value,
                                          input.final.sourceItemIds, input.final.replacedTokens)))
  }

  function WithSummary(items: seq<SL.Item>, summary: SL.Item): seq<SL.Item> {
    if items == [] then []
    else [if items[0].id == summary.id then summary else items[0]] + WithSummary(items[1..], summary)
  }

  /** The input is fit for a transaction, as far as can be told before it writes. */
  predicate Ready(tasks: Tasks, input: Input) {
    && input.inScope
    && input.task.scope in tasks.active && tasks.active[input.task.scope].revision == input.task.revision
    && input.base.summary.Some?
  }

  predicate Complete(input: Input) {
    input.final.summary.Some? && input.final.sourceDigest.Some? && input.final.sourceItemIds != []
  }

  /** The transaction of the source, interleaved with other clients of the task
      store as the schedule says. */
  class CompactionTransaction {
    const tasks: InMemoryTaskStateStore
    const session: SL.FileSessionStore

    constructor (tasks: InMemoryTaskStateStore, session: SL.FileSessionStore)
      ensures this.tasks == tasks && this.session == session
    {
      this.tasks, this.session := tasks, session;
    }

    method Compact(threadId: string, input: Input, s: Schedule) returns (outcome: Outcome)
      modifies tasks, session
      ensures (World(tasks.Contents(), session.Raw(threadId)), outcome)
              == Transaction(World(old(tasks.Contents()), old(session.Raw(threadId))), input, s)
      ensures forall other :: other != threadId ==> session.Raw(other) == old(session.Raw(other))
    {
      hide TaskRun, SL.Loaded;
      if !input.inScope || input.task.scope !in tasks.active
         || tasks.active[input.task.scope].revision != input.task.revision || input.base.summary.None? {
        return Thrown;
      }
      if input.base.replacedTokens == 0 {
        return Unneeded(input.base.next);
      }
      if input.final.summary.None? || input.final.sourceDigest.None? || input.final.sourceItemIds == [] {
        return Thrown;
      }
      var summary, task := Summary(input), NewTask(input);
      tasks.Interfere(s.before);
      var original := SL.LoadItems(session.Raw(threadId));
      var prepared: Option<Prepared> := None;
      if s.fault != PrepareFails {
        prepared := tasks.PrepareState(task, input.task.revision, s.token);
      }
      var appended, committed := false, false;
      if prepared.Some? && s.fault != RecordFails && s.fault != AppendFails {
        session.AppendItem(threadId, summary);
        appended := true;
        tasks.Interfere(s.between);
        if s.fault != CommitFails {
          committed := tasks.CommitState(prepared.value);
        }
      }
      if committed {
        return Compacted(WithSummary(input.final.next, summary), summary, task);
      }
      if appended {
        session.RewriteItems(threadId, original);
      }
      if prepared.Some? && !s.abortFails {
        tasks.AbortState(prepared.value);
      }
      return Thrown;
    }
  }

  function Transaction(w: World, input: Input, s: Schedule): (World, Outcome) {
    if !Ready(w.tasks, input) then (w, Thrown)
    else if input.base.replacedTokens == 0 then (w, Unneeded(input.base.next))
    else if !Complete(input) then (w, Thrown)
    else
      var summary, task := Summary(input), NewTask(input);
      var t1 := TaskRun(w.tasks, s.before);
      var (t2, prepared) :=
        if s.fault == PrepareFails then (t1, None) else Prepare(t1, task, input.task.revision, s.token);
      if prepared.None? then (World(t2, w.log), Thrown)
      else if s.fault == RecordFails || s.fault == AppendFails then
        (World(if s.abortFails then t2 else Abort(t2, prepared.value), w.log), Thrown)
      else
        var t3 := TaskRun(t2, s.between);
        var (t4, committed) := if s.fault == CommitFails then (t3, false) else Commit(t3, prepared.value);
        if committed then
          (World(t4, w.log + [summary]), Compacted(WithSummary(input.final.next, summary), summary, task))
        else (World(if s.abortFails then t4 else Abort(t4, prepared.value), SL.Loaded(w.log)), Thrown)
  }

  // ----- Atomicity -----

  /** Other clients never use the transaction's token. */
  predicate Foreign(op: TaskOp, token: nat) {
    match op
    case PrepareOp(_, _, t) => t != token
    case CommitOp(p) => p.token != token
    case AbortOp(p) => p.token != token
  }

  /** The same store, but for preparations under the token. */
  ghost predicate SameBut(t: Tasks, t': Tasks, token: nat) {
    && t.active == t'.active
    && (forall k: Key :: k.token != token ==>
          (k in t.prepared <==> k in t'.prepared) && (k in t.prepared ==> t.prepared[k] == t'.prepared[k]))
  }

  lemma {:induction false} ForeignRun(t: Tasks, t': Tasks, ops: seq<TaskOp>, token: nat)
    requires SameBut(t, t', token) && forall op | op in ops :: Foreign(op, token)
    ensures SameBut(TaskRun(t, ops), TaskRun(t', ops), token)
    ensures forall k: Key :: k.token == token ==>
              && (k in TaskRun(t, ops).prepared <==> k in t.prepared)
              && (k in t.prepared ==> TaskRun(t, ops).prepared[k] == t.prepared[k])
    decreases |ops|
  {
    if ops != [] {
      assert ops[0] in ops && Foreign(ops[0], token);
      ForeignRun(TaskStep(t, ops[0]), TaskStep(t', ops[0]), ops[1..], token);
    }
  }

  /** The task store as the other clients alone would have left it. */
  function OthersAlone(w: World, input: Input, s: Schedule): Tasks {
    if !Ready(w.tasks, input) || input.base.replacedTokens == 0 || !Complete(input) then w.tasks
    else
      var t1 := TaskRun(w.tasks, s.before);
      if s.fault == PrepareFails || s.fault == RecordFails || s.fault == AppendFails
         || Prepare(t1, NewTask(input), input.task.revision, s.token).1.None? then t1
      else TaskRun(t1, s.between)
  }

  lemma LoadedTwice(log: seq<SL.Item>)
    ensures SL.Loaded(SL.Loaded(log)) == SL.Loaded(log)
  {
    SL.LoadedIds(log);
    SL.LoadedDistinct(SL.Loaded(log));
  }

  /** Whatever step fails and whatever other clients do to the task store: if the
      transaction returns a summary, the item view has gained exactly the summary
      and the next revision, naming the summary, is active; if it throws, the item
      view is unchanged and so is every active state, as far as the transaction is
      concerned. */
  lemma TransactionIsAtomic(w: World, input: Input, s: Schedule)
    requires forall op | op in s.before || op in s.between :: Foreign(op, s.token)
    requires forall k: Key :: k.token == s.token ==> k !in w.tasks.prepared
    ensures var (w', outcome) := Transaction(w, input, s);
            var others := OthersAlone(w, input, s);
            match outcome
            case Compacted(_, summary, task) =>
              && SL.Loaded(w'.log) == SL.Put(SL.Loaded(w.log), summary)
              && w'.tasks.active == others.active[input.task.scope := task]
              && Revision(others, input.task.scope) == input.task.revision && task.revision == input.task.revision + 1
              && task.compaction.Some? && task.compaction.value.itemId == summary.id
              && SameBut(w'.tasks.(active := others.active), others, s.token)
            case _ => SL.Loaded(w'.log) == SL.Loaded(w.log) && SameBut(w'.tasks, others, s.token)
  {
    hide SL.Loaded, SL.Put, TaskRun, WithSummary;
    if Ready(w.tasks, input) && input.base.replacedTokens != 0 && Complete(input) {
      var summary, task := Summary(input), NewTask(input);
      hide Summary, NewTask;
      var t1 := TaskRun(w.tasks, s.before);
      LoadedTwice(w.log);
      SL.LoadedSnoc(w.log, summary);
      ForeignRun(w.tasks, w.tasks, s.before, s.token);
      var (t2, prepared) := Prepare(t1, task, input.task.revision, s.token);
      if s.fault != PrepareFails && prepared.Some? {
        hide Prepare;
        ForeignRun(t2, t1, s.between, s.token);
        EndsClean(TaskRun(t2, s.between), TaskRun(t1, s.between), prepared.value, task);
        EndsClean(t2, t1, prepared.value, task);
        hide Abort, Commit, SameBut;
      }
    }
  }

  /** Committing or aborting a preparation, against a store that never had it. */
  lemma EndsClean(t: Tasks, others: Tasks, p: Prepared, task: TaskState)
    requires SameBut(t, others, p.token) && KeyOf(p) in t.prepared && t.prepared[KeyOf(p)] == task
    ensures SameBut(Abort(t, p), others, p.token)
    ensures var (t', ok) := Commit(t, p);
            if ok then
              && t'.active == others.active[p.scope := task] && Revision(others, p.scope) == p.expected
              && SameBut(t'.(active := others.active), others, p.token)
            else SameBut(t', others, p.token) && SameBut(Abort(t', p), others, p.token)
  {
  }

  /** What the transaction hands back: the compactor's history with the stamped summary in
      place of its own, and the next task state with the record of the compaction; the
      unchanged history when nothing was to be replaced. */
  lemma OutcomeSays(w: World, input: Input, s: Schedule)
    ensures match Transaction(w, input, s).1
            case Unneeded(next) => next == input.base.next && input.base.replacedTokens == 0
            case Compacted(next, summary, task) =>
              && input.base.replacedTokens != 0 && Complete(input)
              && var final := input.final;
              && SL.Takes(summary, final.summary.value, input.stamp)
              && |next| == |final.next|
              && (forall i :: 0 <= i < |next| && final.next[i].id != summary.id ==> next[i] == final.next[i])
              && (forall i :: 0 <= i < |next| && final.next[i].id == summary.id ==> next[i] == summary)
              && task.scope == input.task.scope && task.payload == input.task.payload
              && task.revision == input.task.revision + 1
              && task.compaction == Some(Record(final.summary.value.id, input.task.revision + 1,
                                                final.sourceDigest.value, final.sourceItemIds, final.replacedTokens))
            case Thrown => true
  {
    hide TaskRun, Commit, Prepare, WithSummary, SL.Loaded;
    if Complete(input) {
      SummaryInPlace(input.final.next, Summary(input));
    }
  }

  lemma {:induction false} SummaryInPlace(items: seq<SL.Item>, summary: SL.Item)
    ensures var next := WithSummary(items, summary);
            && |next| == |items|
            && forall i :: 0 <= i < |next| ==> next[i] == if items[i].id == summary.id then summary else items[i]
  {
    if items != [] {
      SummaryInPlace(items[1..], summary);
      assert forall i :: 0 < i < |items| ==> items[i] == items[1..][i - 1];
    }
  }

  /** The transaction goes through exactly when its input is complete and current, no step
      fails and nobody else commits in its scope before its own commit; it is not needed
      exactly when there is nothing to replace. */
  lemma TransactionSucceedsIff(w: World, input: Input, s: Schedule)
    requires forall op | op in s.before || op in s.between :: Foreign(op, s.token)
    requires forall k: Key :: k.token == s.token ==> k !in w.tasks.prepared
    ensures var scope, revision := input.task.scope, input.task.revision;
            var fit := input.inScope && input.base.summary.Some? && scope in w.tasks.active &&
              w.tasks.active[scope].revision == revision;
            var before := TaskRun(w.tasks, s.before);
            var outcome := Transaction(w, input, s).1;
            && (outcome.Unneeded? <==> fit && input.base.replacedTokens == 0)
            && (outcome.Compacted? <==>
                  && fit && input.base.replacedTokens != 0
                  && input.final.summary.Some? && input.final.sourceDigest.Some? && input.final.sourceItemIds != []
                  && s.fault == NoFault && Revision(before, scope) == revision
                  && Revision(TaskRun(before, s.between), scope) == revision)
  {
    hide TaskRun, SL.Loaded, WithSummary, Summary;
    if Ready(w.tasks, input) && input.base.replacedTokens != 0 && Complete(input) {
      var task := NewTask(input);
      var t1 := TaskRun(w.tasks, s.before);
      ForeignRun(w.tasks, w.tasks, s.before, s.token);
      var (t2, prepared) := Prepare(t1, task, input.task.revision, s.token);
      if prepared.Some? { ForeignRun(t2, t1, s.between, s.token); }
    }
  }
}
