/** Side effects of a run: each is prepared, performed and committed, and the run's event
    log numbers what happened. */
module EffectCommit {

  import opened Wrappers
  import opened CanonicalValues

  // ----- Appending to the event log -----

  datatype Record = Prepared(key: string) | Committed(ref: CommittedRef)

  datatype CommittedRef = CommittedRef(key: string, digest: Value, committedAt: int)

  datatype Envelope = Envelope(eventId: nat, seqNo: nat, record: Record)

  function Highest(log: seq<Envelope>): (r: nat)
    ensures forall e :: e in log ==> e.seqNo <= r
    ensures r == 0 || exists e :: e in log && e.seqNo == r
  {
    if log == [] then 0
    else
      var rest := Highest(log[1..]);
      assert log == [log[0]] + log[1..];
      if log[0].seqNo >= rest then log[0].seqNo else rest
  }

  /** The event behind those with smaller numbers, as the store keeps its list. */
  function InsertEvent(log: seq<Envelope>, e: Envelope): seq<Envelope>
    decreases |log|
  {
    if log == [] || log[|log| - 1].seqNo <= e.seqNo then log + [e]
    else InsertEvent(log[..|log| - 1], e) + [log[|log| - 1]]
  }

  predicate HasId(log: seq<Envelope>, eventId: nat) {
    exists e :: e in log && e.eventId == eventId
  }

  predicate HasNumber(log: seq<Envelope>, seqNo: nat) {
    exists e :: e in log && e.seqNo == seqNo
  }

  datatype Outcome = Appended | Refused | Duplicate

  /** The store's part: a fence it does not accept or a taken number fails. */
  function Store(log: seq<Envelope>, e: Envelope, accepted: bool): (seq<Envelope>, Outcome) {
    if !accepted then (log, Refused)
    else if HasId(log, e.eventId) then (log, Appended)
    else if HasNumber(log, e.seqNo) then (log, Duplicate)
    else (InsertEvent(log, e), Appended)
  }

  /** The log and, for every coordinator, its queue of appends; `planned` holds the number
      the append at the head of a queue has worked out but not yet stored. */
  datatype Queues = Queues(log: seq<Envelope>, waiting: map<nat, seq<Record>>, planned: map<nat, nat>,
                           nextId: nat, arrived: seq<Record>, done: seq<(Record, Outcome)>)

  datatype Step =
    | Arrive(who: nat, record: Record)
    | Read(who: nat)
    | Append(who: nat, accepted: bool)

  function Waiting(q: Queues, who: nat): seq<Record> {
    if who in q.waiting then q.waiting[who] else []
  }

  function Take(q: Queues, step: Step): Queues {
    match step
    case Arrive(who, record) =>
      q.(waiting := q.waiting[who := Waiting(q, who) + [record]], arrived := q.arrived + [record])
    case Read(who) =>
      if Waiting(q, who) == [] || who in q.planned then q
      else q.(planned := q.planned[who := Highest(q.log) + 1])
    case Append(who, accepted) =>
      if Waiting(q, who) == [] || who !in q.planned then q
      else
        var record := Waiting(q, who)[0];
        var (log, outcome) := Store(q.log, Envelope(q.nextId, q.planned[who], record), accepted);
        q.(log := log, nextId := q.nextId + 1, planned := q.planned - {who},
           waiting := q.waiting[who := Waiting(q, who)[1..]], done := q.done + [(record, outcome)])
  }

  function TakeAll(q: Queues, steps: seq<Step>): Queues
    decreases |steps|
  {
    if steps == [] then q else TakeAll(Take(q, steps[0]), steps[1..])
  }

  const IDLE := Queues([], map[], map[], 0, [], [])

  /** The log is numbered 1, 2, 3, ... without gaps. */
  predicate Numbered(log: seq<Envelope>) {
    forall i :: 0 <= i < |log| ==> log[i].seqNo == i + 1
  }

  predicate InOrder(q: Queues) {
    && Numbered(q.log)
    && (forall who :: who in q.planned ==> 1 <= q.planned[who] <= |q.log| + 1)
    && forall e :: e in q.log ==> e.eventId < q.nextId
  }

  lemma HighestOfNumbered(log: seq<Envelope>)
    requires Numbered(log)
    ensures Highest(log) == |log|
  {
    if log != [] { assert log[|log| - 1] in log; }
  }

  lemma NumbersTaken(log: seq<Envelope>)
    requires Numbered(log)
    ensures forall n: nat :: HasNumber(log, n) <==> 1 <= n <= |log|
  {
    forall n: nat | 1 <= n <= |log| ensures HasNumber(log, n) { assert log[n - 1] in log; }
  }

  lemma AppendIsLast(log: seq<Envelope>, e: Envelope)
    requires Numbered(log) && e.seqNo == |log| + 1
    ensures InsertEvent(log, e) == log + [e] && Numbered(log + [e])
  {
  }

  /** What the store does with a number at most one past the last. */
  lemma StoreSays(log: seq<Envelope>, e: Envelope, accepted: bool)
    requires Numbered(log) && 1 <= e.seqNo <= |log| + 1 && forall d :: d in log ==> d.eventId != e.eventId
    ensures Store(log, e, accepted) ==
      if !accepted then (log, Refused)
      else if e.seqNo <= |log| then (log, Duplicate)
      else (log + [e], Appended)
    ensures Numbered(Store(log, e, accepted).0)
  {
    NumbersTaken(log);
    assert HasNumber(log, e.seqNo) <==> e.seqNo <= |log|;
    if e.seqNo == |log| + 1 { AppendIsLast(log, e); }
  }

  lemma TakeKeepsOrder(q: Queues, step: Step)
    requires InOrder(q)
    ensures InOrder(Take(q, step)) && q.log <= Take(q, step).log
  {
    HighestOfNumbered(q.log);
    if step.Append? && Waiting(q, step.who) != [] && step.who in q.planned {
      var e := Envelope(q.nextId, q.planned[step.who], Waiting(q, step.who)[0]);
      StoreSays(q.log, e, step.accepted);
      hide Store, Highest, HasNumber, Waiting;
    }
  }

  /** Even when coordinators race, the event numbers are exactly 1 to n and nothing
      stored ever changes or moves. */
  lemma {:induction false} NumbersAreContiguous(q: Queues, steps: seq<Step>)
    requires InOrder(q)
    ensures InOrder(TakeAll(q, steps)) && q.log <= TakeAll(q, steps).log
    decreases |steps|
  {
    if steps != [] {
      TakeKeepsOrder(q, steps[0]);
      NumbersAreContiguous(Take(q, steps[0]), steps[1..]);
    }
  }

  // ----- One coordinator: every accepted append goes through, in order of arrival -----

  function Stored(done: seq<(Record, Outcome)>): seq<Record>
    decreases |done|
  {
    if done == [] then []
    else
      var n := |done| - 1;
      Stored(done[..n]) + if done[n].1.Refused? then [] else [done[n].0]
  }

  function Records(log: seq<Envelope>): seq<Record> {
    Mapped((e: Envelope) => e.record, log)
  }

  function Requests(done: seq<(Record, Outcome)>): seq<Record> {
    Mapped((d: (Record, Outcome)) => d.0, done)
  }

  predicate Alone(q: Queues, who: nat) {
    && InOrder(q) && q.waiting.Keys <= {who} && q.planned.Keys <= {who}
    && (who in q.planned ==> q.planned[who] == |q.log| + 1)
    && Requests(q.done) + Waiting(q, who) == q.arrived
    && Records(q.log) == Stored(q.done)
    && forall d :: d in q.done ==> !d.1.Duplicate?
  }

  lemma AppendStaysAlone(q: Queues, who: nat, accepted: bool)
    requires Alone(q, who) && Waiting(q, who) != [] && who in q.planned
    ensures Alone(Take(q, Append(who, accepted)), who)
  {
    var q' := Take(q, Append(who, accepted));
    TakeKeepsOrder(q, Append(who, accepted));
    var record := Waiting(q, who)[0];
    var e := Envelope(q.nextId, q.planned[who], record);
    StoreSays(q.log, e, accepted);
    hide Store, Highest, HasNumber, InOrder, InsertEvent;
    assert q'.done[..|q.done|] == q.done;
    assert Requests(q'.done) == Requests(q.done) + [record];
    assert Waiting(q, who) == [record] + Waiting(q', who);
    assert Requests(q'.done) + Waiting(q', who) == Requests(q.done) + Waiting(q, who);
    if accepted {
      assert Records(q'.log) == Records(q.log) + [record];
    } else {
      assert Stored(q.done) + [] == Stored(q.done);
    }
  }

  lemma TakeStaysAlone(q: Queues, step: Step)
    requires Alone(q, step.who)
    ensures Alone(Take(q, step), step.who)
  {
    match step
    case Arrive(who, record) =>
      assert Requests(q.done) + (Waiting(q, who) + [record]) == (Requests(q.done) + Waiting(q, who)) + [record];
    case Read(_) =>
      TakeKeepsOrder(q, step);
      HighestOfNumbered(q.log);
    case Append(who, accepted) =>
      if Waiting(q, who) != [] && who in q.planned { AppendStaysAlone(q, who, accepted); }
  }

  lemma {:induction false} StaysAlone(q: Queues, steps: seq<Step>, who: nat)
    requires Alone(q, who) && forall s :: s in steps ==> s.who == who
    ensures Alone(TakeAll(q, steps), who)
    decreases |steps|
  {
    if steps != [] {
      TakeStaysAlone(q, steps[0]);
      StaysAlone(Take(q, steps[0]), steps[1..], who);
    }
  }

  /** One coordinator never meets a taken number: what it is asked to append is stored in
      the order it was asked, but for what the store's fence refuses. */
  lemma QueueKeepsOrder(steps: seq<Step>, who: nat)
    requires forall s :: s in steps ==> s.who == who
    ensures var q := TakeAll(IDLE, steps);
            && Requests(q.done) + Waiting(q, who) == q.arrived && Records(q.log) == Stored(q.done)
            && forall d :: d in q.done ==> !d.1.Duplicate?
  {
    assert Alone(IDLE, who);
    StaysAlone(IDLE, steps, who);
  }

  /** Two coordinators that read before either stores: the second finds its number taken. */
  lemma RacingAppendFails(a: Record, b: Record)
    ensures var q := TakeAll(IDLE, [Arrive(0, a), Arrive(1, b), Read(0), Read(1), Append(0, true), Append(1, true)]);
            q.done == [(a, Appended), (b, Duplicate)]
  {
    var q1 := Take(Take(IDLE, Arrive(0, a)), Arrive(1, b));
    var q2 := Take(Take(q1, Read(0)), Read(1));
    var q3 := Take(q2, Append(0, true));
    assert q3.log == [Envelope(0, 1, a)];
    assert q3.log[0] in q3.log;
    var q4 := Take(q3, Append(1, true));
    assert TakeAll(q3, [Append(1, true)]) == q4;
    assert [Append(0, true), Append(1, true)][1..] == [Append(1, true)];
    assert TakeAll(q2, [Append(0, true), Append(1, true)]) == q4;
    var s4 := [Read(0), Read(1), Append(0, true), Append(1, true)];
    assert s4[1..][1..] == [Append(0, true), Append(1, true)];
    assert TakeAll(q1, s4) == q4;
    var s6 := [Arrive(0, a), Arrive(1, b), Read(0), Read(1), Append(0, true), Append(1, true)];
    assert s6[1..][1..] == s4;
    assert TakeAll(IDLE, s6) == q4;
  }

  // ----- Preparing and committing effects -----

  datatype Intent = Intent(key: string, target: string, payloadDigest: Value, preparedAt: int)

  datatype StoredResult = StoredResult(digest: Value, result: Value)

  /** The effects of one run: its state, the stored results and the records of its log. */
  datatype Run = Run(pending: seq<Intent>, committed: seq<CommittedRef>,
                     results: map<string, StoredResult>, log: seq<Record>)

  /** How a commit ends: it fails after the result is stored, its event is refused, it
      completes, or it completes but the new run state is lost. */
  datatype Fate = Crashed | EventRefused | Completed | StateLost

  datatype Op =
    | Prepare(intent: Intent)
    | RecordPrepared(key: string, accepted: bool)
    | Commit(key: string, result: Value, now: int, fate: Fate)

  predicate IsPending(pending: seq<Intent>, key: string) {
    exists i :: 0 <= i < |pending| && pending[i].key == key
  }

  function Find(committed: seq<CommittedRef>, key: string): (r: Option<CommittedRef>)
    ensures r.Some? ==> r.value in committed && r.value.key == key
    ensures r.None? ==> forall c :: c in committed ==> c.key != key
  {
    if committed == [] then None
    else
      assert committed == [committed[0]] + committed[1..];
      if committed[0].key == key then Some(committed[0]) else Find(committed[1..], key)
  }

  function Without(pending: seq<Intent>, key: string): seq<Intent> {
    if pending == [] then []
    else (if pending[0].key == key then [] else [pending[0]]) + Without(pending[1..], key)
  }

  /** Only the pending effects are looked at: a committed one is prepared again. */
  function WithIntent(pending: seq<Intent>, intent: Intent): seq<Intent> {
    if IsPending(pending, intent.key) then pending else pending + [intent]
  }

  /** The first intent under a key stands; a commit takes the intents under its key and no
      others. */
  lemma {:induction false} PendingSays(pending: seq<Intent>, intent: Intent, key: string)
    ensures WithIntent(pending, intent) ==
      if exists i :: i in pending && i.key == intent.key then pending else pending + [intent]
    ensures forall i :: i in Without(pending, key) <==> i in pending && i.key != key
    ensures (forall i :: i in pending ==> i.key != key) ==> Without(pending, key) == pending
  {
    assert (exists i :: i in pending && i.key == intent.key) <==> IsPending(pending, intent.key);
    hide WithIntent, IsPending;
    OthersStayPending(pending, key);
  }

  lemma {:induction false} OthersStayPending(pending: seq<Intent>, key: string)
    ensures forall i :: i in Without(pending, key) <==> i in pending && i.key != key
    ensures (forall i :: i in pending ==> i.key != key) ==> Without(pending, key) == pending
  {
    if pending != [] {
      OthersStayPending(pending[1..], key);
      assert forall i :: i in pending <==> i == pending[0] || i in pending[1..];
    }
  }

  function Recommit(r: Run, ref: CommittedRef, fate: Fate): Run {
    if fate.Completed? || fate.StateLost? then r.(log := r.log + [Committed(ref)]) else r
  }

  function FirstCommit(r: Run, ref: CommittedRef, result: Value, fate: Fate): Run {
    var saved := r.(results := r.results[ref.key := StoredResult(ref.digest, result)]);
    match fate
    case Crashed => saved
    case EventRefused => saved
    case Completed =>
      saved.(log := r.log + [Committed(ref)], committed := r.committed + [ref], pending := Without(r.pending, ref.key))
    case StateLost => saved.(log := r.log + [Committed(ref)])
  }

  function Apply(r: Run, op: Op): Run {
    match op
    case Prepare(intent) => r.(pending := WithIntent(r.pending, intent))
    case RecordPrepared(key, accepted) => if accepted then r.(log := r.log + [Prepared(key)]) else r
    case Commit(key, result, now, fate) =>
      match Find(r.committed, key)
      case Some(ref) => Recommit(r, ref, fate)
      case None => FirstCommit(r, CommittedRef(key, Canonical(result), now), result, fate)
  }

  function ApplyAll(r: Run, ops: seq<Op>): Run
    decreases |ops|
  {
    if ops == [] then r else ApplyAll(Apply(r, ops[0]), ops[1..])
  }

  const FRESH := Run([], [], map[], [])

  /** The run state of every first commit was kept; a repeated one changes none. */
  predicate StateKept(r: Run, ops: seq<Op>)
    decreases |ops|
  {
    ops != [] ==> !LosesState(r, ops[0]) && StateKept(Apply(r, ops[0]), ops[1..])
  }

  predicate LosesState(r: Run, op: Op) {
    op.Commit? && op.fate.StateLost? && Find(r.committed, op.key).None?
  }

  /** The result stored for a commit is one its digest stands for. */
  predicate HasResult(results: map<string, StoredResult>, ref: CommittedRef) {
    ref.key in results && results[ref.key].digest == ref.digest == Canonical(results[ref.key].result)
  }

  /** Each effect is pending once and committed once; every commit the log names is the
      run's own, and its result is in the store under the digest the event gives. */
  predicate Sound(r: Run) {
    && (forall i, j :: 0 <= i < j < |r.pending| ==> r.pending[i].key != r.pending[j].key)
    && (forall i, j :: 0 <= i < j < |r.committed| ==> r.committed[i].key != r.committed[j].key)
    && (forall ref :: ref in r.committed ==> HasResult(r.results, ref))
    && forall x :: x in r.log && x.Committed? ==> x.ref in r.committed
  }

  /** Nothing committed in `r` is changed or overwritten in `r'`. */
  predicate Extends(r: Run, r': Run) {
    && r.committed <= r'.committed && r.log <= r'.log
    && forall ref :: ref in r.committed ==>
         ref.key in r.results && ref.key in r'.results && r'.results[ref.key] == r.results[ref.key]
  }

  lemma {:induction false} WithoutSays(pending: seq<Intent>, key: string)
    requires forall i, j :: 0 <= i < j < |pending| ==> pending[i].key != pending[j].key
    ensures var w := Without(pending, key);
            && (forall i, j :: 0 <= i < j < |w| ==> w[i].key != w[j].key)
            && forall x :: x in w <==> x in pending && x.key != key
  {
    if pending != [] {
      WithoutSays(pending[1..], key);
      assert pending == [pending[0]] + pending[1..];
      var rest := Without(pending[1..], key);
      forall i | 0 <= i < |rest| ensures rest[i].key != pending[0].key {
        assert rest[i] in pending[1..];
      }
    }
  }

  lemma ApplyIsSound(r: Run, op: Op)
    requires Sound(r) && !LosesState(r, op)
    ensures Sound(Apply(r, op)) && Extends(r, Apply(r, op))
  {
    if op.Commit? {
      WithoutSays(r.pending, op.key);
      if Find(r.committed, op.key).None? {
        forall ref | ref in r.committed ensures ref.key != op.key { }
      }
    }
  }

  /** Over every run whose states are kept, each effect is committed at most once, and
      its first result and its place in the log stay. */
  lemma {:induction false} CommittedOnce(r: Run, ops: seq<Op>)
    requires Sound(r) && StateKept(r, ops)
    ensures Sound(ApplyAll(r, ops)) && Extends(r, ApplyAll(r, ops))
    decreases |ops|
  {
    hide Apply, LosesState;
    if ops != [] {
      hide HasResult;
      ApplyIsSound(r, ops[0]);
      var next := Apply(r, ops[0]);
      CommittedOnce(next, ops[1..]);
      forall ref | ref in r.committed ensures ref in next.committed {
        var i :| 0 <= i < |r.committed| && r.committed[i] == ref;
        assert next.committed[i] == ref;
      }
    }
  }

  /** However much later an effect is committed again, and whatever result is offered,
      the state and the store keep the first commit and the log repeats it. */
  lemma RecommitRepeats(r: Run, ops: seq<Op>, ref: CommittedRef, result: Value, now: int)
    requires Sound(r) && StateKept(r, ops) && ref in r.committed
    ensures var end := ApplyAll(r, ops);
            && Apply(end, Commit(ref.key, result, now, Completed)) == end.(log := end.log + [Committed(ref)])
            && ref.key in r.results && ref.key in end.results && end.results[ref.key] == r.results[ref.key]
  {
    CommittedOnce(r, ops);
    hide ApplyAll, StateKept, Sound;
    var end := ApplyAll(r, ops);
    var i :| 0 <= i < |r.committed| && r.committed[i] == ref;
    assert end.committed[i] == ref;
    FoundInState(end, ref);
  }

  lemma FoundInState(r: Run, ref: CommittedRef)
    requires Sound(r) && ref in r.committed
    ensures Find(r.committed, ref.key) == Some(ref)
  {
  }

  /** All commits the log names for one effect carry one digest, and the digests of two
      results agree exactly when the results are equal up to the order of keys. */
  lemma OneDigestPerEffect(ops: seq<Op>, a: CommittedRef, b: CommittedRef, v: Value, w: Value)
    requires StateKept(FRESH, ops) && a.key == b.key
    requires Committed(a) in ApplyAll(FRESH, ops).log && Committed(b) in ApplyAll(FRESH, ops).log
    requires WellKeyed(v) && WellKeyed(w) && a.digest == Canonical(v) && b.digest == Canonical(w)
    ensures a == b && Same(v, w)
  {
    CommittedOnce(FRESH, ops);
    CanonicalIdentifies(v, w);
  }

  /** When the state of a commit is lost, a later commit of the same effect replaces the
      stored result and logs a second digest. */
  lemma LostStateCommitsTwice(key: string, v: Value, w: Value)
    requires WellKeyed(v) && WellKeyed(w) && !Same(v, w)
    ensures var r := ApplyAll(FRESH, [Commit(key, v, 0, StateLost), Commit(key, w, 1, Completed)]);
            && r.log == [Committed(CommittedRef(key, Canonical(v), 0)), Committed(CommittedRef(key, Canonical(w), 1))]
            && Canonical(v) != Canonical(w) && key in r.results && r.results[key].result == w
  {
    CanonicalIdentifies(v, w);
    var second := Commit(key, w, 1, Completed);
    var once := Apply(FRESH, Commit(key, v, 0, StateLost));
    assert ApplyAll(once, [second]) == Apply(once, second);
    assert [Commit(key, v, 0, StateLost), second][1..] == [second];
  }

  // ----- With lost states: exactly when one commit stays one -----

  /** The log names a commit of the effect. */
  predicate Named(log: seq<Record>, ref: CommittedRef, key: string) {
    Committed(ref) in log && ref.key == key
  }

  /** All commits the log names for the effect are one and the same. */
  ghost predicate OneCommit(log: seq<Record>, key: string) {
    forall a, b :: Named(log, a, key) && Named(log, b, key) ==> a == b
  }

  /** A commit of the effect, on a state that holds none. */
  predicate Recommits(r: Run, op: Op, key: string) {
    op.Commit? && op.key == key && Find(r.committed, key).None?
  }

  /** That commit is logged although the log names another one already. */
  ghost predicate LogsSecond(r: Run, op: Op, key: string) {
    && Recommits(r, op, key) && (op.fate.Completed? || op.fate.StateLost?)
    && exists ref :: Named(r.log, ref, key) && ref != CommittedRef(key, Canonical(op.result), op.now)
  }

  ghost predicate NeverLogsSecond(r: Run, ops: seq<Op>, key: string)
    decreases |ops|
  {
    ops != [] ==> !LogsSecond(r, ops[0], key) && NeverLogsSecond(Apply(r, ops[0]), ops[1..], key)
  }

  /** The effect's commit in the run state is one the log names. */
  predicate StateIsLogged(r: Run, key: string) {
    Find(r.committed, key).Some? ==> Named(r.log, Find(r.committed, key).value, key)
  }

  lemma {:induction false} FindAfter(committed: seq<CommittedRef>, ref: CommittedRef, key: string)
    ensures Find(committed + [ref], key) ==
      if Find(committed, key).Some? then Find(committed, key) else if ref.key == key then Some(ref) else None
  {
    if committed == [] {
      assert [] + [ref] == [ref];
    } else {
      FindAfter(committed[1..], ref, key);
      assert (committed + [ref])[1..] == committed[1..] + [ref];
    }
  }

  lemma NamedAfter(log: seq<Record>, x: Record, key: string)
    ensures forall ref ::
      Named(log + [x], ref, key) <==> Named(log, ref, key) || (x == Committed(ref) && ref.key == key)
  {
  }

  lemma OneCommitStep(r: Run, op: Op, key: string)
    requires OneCommit(r.log, key) && StateIsLogged(r, key)
    ensures OneCommit(Apply(r, op).log, key) <==> !LogsSecond(r, op, key)
    ensures StateIsLogged(Apply(r, op), key)
  {
    match op
    case Prepare(_) =>
    case RecordPrepared(k, _) => NamedAfter(r.log, Prepared(k), key);
    case Commit(k, result, now, _) =>
      var found := Find(r.committed, k);
      var ref := if found.Some? then found.value else CommittedRef(k, Canonical(result), now);
      NamedAfter(r.log, Committed(ref), key);
      FindAfter(r.committed, ref, key);
      hide Find, Named;
      assert k == key && found.Some? ==> Named(r.log, ref, key);
  }

  lemma {:induction false} RecordsStay(r: Run, ops: seq<Op>)
    ensures r.log <= ApplyAll(r, ops).log
    decreases |ops|
  {
    if ops != [] { RecordsStay(Apply(r, ops[0]), ops[1..]); }
  }

  lemma {:induction false} OneCommitRun(r: Run, ops: seq<Op>, key: string)
    requires OneCommit(r.log, key) && StateIsLogged(r, key)
    ensures OneCommit(ApplyAll(r, ops).log, key) <==> NeverLogsSecond(r, ops, key)
    decreases |ops|
  {
    if ops != [] {
      var next := Apply(r, ops[0]);
      OneCommitStep(r, ops[0], key);
      hide Apply, LogsSecond, StateIsLogged;
      if LogsSecond(r, ops[0], key) {
        RecordsStay(next, ops[1..]);
        var a, b :| Named(next.log, a, key) && Named(next.log, b, key) && a != b;
        assert Named(ApplyAll(r, ops).log, a, key) && Named(ApplyAll(r, ops).log, b, key);
      } else {
        OneCommitRun(next, ops[1..], key);
      }
    }
  }

  /** Whatever states are lost: the log names one commit of an effect exactly when nobody
      logs a commit of it, on a state that holds none, while the log names another. */
  lemma OneCommitIff(ops: seq<Op>, key: string)
    ensures OneCommit(ApplyAll(FRESH, ops).log, key) <==> NeverLogsSecond(FRESH, ops, key)
  {
    OneCommitRun(FRESH, ops, key);
  }

  /** The stored result is the one that every logged commit of the effect stands for. */
  ghost predicate ResultStands(r: Run, key: string) {
    forall ref :: Named(r.log, ref, key) ==> HasResult(r.results, ref)
  }

  ghost predicate ResultAlwaysStands(r: Run, ops: seq<Op>, key: string)
    decreases |ops|
  {
    ResultStands(r, key) && (ops != [] ==> ResultAlwaysStands(Apply(r, ops[0]), ops[1..], key))
  }

  /** A commit on a state that holds none replaces the result of a logged one by another;
      it does so even when it fails, for the result is stored first. */
  ghost predicate Overwrites(r: Run, op: Op, key: string) {
    && Recommits(r, op, key)
    && exists ref :: Named(r.log, ref, key) && ref.digest != Canonical(op.result)
  }

  ghost predicate NeverOverwrites(r: Run, ops: seq<Op>, key: string)
    decreases |ops|
  {
    ops != [] ==> !Overwrites(r, ops[0], key) && NeverOverwrites(Apply(r, ops[0]), ops[1..], key)
  }

  /** A first commit, whatever becomes of it, leaves its own result in the store. */
  lemma FirstCommitStands(r: Run, ref: CommittedRef, result: Value, fate: Fate, key: string)
    requires ResultStands(r, key) && ref.digest == Canonical(result)
    ensures ResultStands(FirstCommit(r, ref, result, fate), key) <==>
            !(ref.key == key && exists x :: Named(r.log, x, key) && x.digest != ref.digest)
  {
    NamedAfter(r.log, Committed(ref), key);
    var r' := FirstCommit(r, ref, result, fate);
    assert forall x :: Named(r.log, x, key) ==> Named(r'.log, x, key) && x.key == key;
    assert HasResult(r'.results, ref);
    hide Named;
    if ref.key == key && exists x :: Named(r.log, x, key) && x.digest != ref.digest {
      var x :| Named(r.log, x, key) && x.digest != ref.digest;
      assert !HasResult(r'.results, x);
    }
  }

  lemma ResultStep(r: Run, op: Op, key: string)
    requires ResultStands(r, key) && StateIsLogged(r, key)
    ensures ResultStands(Apply(r, op), key) <==> !Overwrites(r, op, key)
    ensures StateIsLogged(Apply(r, op), key)
  {
    match op
    case Prepare(_) =>
    case RecordPrepared(k, _) => NamedAfter(r.log, Prepared(k), key);
    case Commit(k, result, now, fate) =>
      var found := Find(r.committed, k);
      var ref := if found.Some? then found.value else CommittedRef(k, Canonical(result), now);
      NamedAfter(r.log, Committed(ref), key);
      FindAfter(r.committed, ref, key);
      if found.None? { FirstCommitStands(r, ref, result, fate, key); }
      hide Find, Named, HasResult;
      assert k == key && found.Some? ==> Named(r.log, ref, key);
  }

  lemma {:induction false} ResultRun(r: Run, ops: seq<Op>, key: string)
    requires ResultStands(r, key) && StateIsLogged(r, key)
    ensures ResultAlwaysStands(r, ops, key) <==> NeverOverwrites(r, ops, key)
    decreases |ops|
  {
    if ops != [] {
      ResultStep(r, ops[0], key);
      hide Apply, Overwrites, ResultStands, StateIsLogged;
      if !Overwrites(r, ops[0], key) { ResultRun(Apply(r, ops[0]), ops[1..], key); }
    }
  }

  /** At every moment the store holds the result of the logged commits exactly when nobody
      commits the effect, on a state that holds none, with a result of another digest. */
  lemma ResultKeptIff(ops: seq<Op>, key: string)
    ensures ResultAlwaysStands(FRESH, ops, key) <==> NeverOverwrites(FRESH, ops, key)
  {
    ResultRun(FRESH, ops, key);
  }

  // ----- Prepared after it was committed -----

  predicate Lingers(r: Run, key: string) {
    Find(r.committed, key).Some? && IsPending(r.pending, key)
  }

  /** At some point the effect is prepared although it has been committed. */
  predicate PreparedAgain(r: Run, ops: seq<Op>, key: string)
    decreases |ops|
  {
    ops != [] &&
      ((ops[0].Prepare? && ops[0].intent.key == key && Find(r.committed, key).Some?) ||
       PreparedAgain(Apply(r, ops[0]), ops[1..], key))
  }

  lemma {:induction false} WithoutPends(pending: seq<Intent>, key: string, other: string)
    ensures IsPending(Without(pending, key), other) <==> IsPending(pending, other) && other != key
  {
    if pending != [] {
      var first, tail := [pending[0]], pending[1..];
      WithoutPends(tail, key, other);
      assert pending == first + tail && |first| == 1 && first[0] == pending[0];
      PendsEither(first, tail, other);
      assert Without(pending, key) == (if pending[0].key == key then [] else first) + Without(tail, key);
      hide Without, IsPending;
      if pending[0].key == key {
        assert [] + Without(tail, key) == Without(tail, key);
      } else {
        PendsEither(first, Without(tail, key), other);
      }
    }
  }

  lemma PendsEither(a: seq<Intent>, b: seq<Intent>, key: string)
    ensures IsPending(a + b, key) <==> IsPending(a, key) || IsPending(b, key)
    ensures |a| == 1 ==> (IsPending(a, key) <==> a[0].key == key)
    ensures |b| == 1 ==> (IsPending(b, key) <==> b[0].key == key)
  {
    assert |a| == 1 && a[0].key == key ==> IsPending(a, key);
    assert |b| == 1 && b[0].key == key ==> IsPending(b, key);
    if IsPending(a, key) {
      var i :| 0 <= i < |a| && a[i].key == key;
      assert (a + b)[i].key == key;
    }
    if IsPending(b, key) {
      var i :| 0 <= i < |b| && b[i].key == key;
      assert (a + b)[|a| + i].key == key;
    }
  }

  lemma LingeringStep(r: Run, op: Op, key: string)
    ensures var again := op.Prepare? && op.intent.key == key && Find(r.committed, key).Some?;
            Lingers(Apply(r, op), key) <==> Lingers(r, key) || again
  {
    match op
    case Prepare(intent) => PendsEither(r.pending, [intent], key);
    case RecordPrepared(_, _) =>
    case Commit(k, result, now, fate) =>
      if Find(r.committed, k).None? && fate.Completed? {
        WithoutPends(r.pending, k, key);
        var ref := CommittedRef(k, Canonical(result), now);
        assert ref in r.committed + [ref];
        assert forall c :: c in r.committed + [ref] <==> c in r.committed || c == ref;
      }
  }

  /** A committed effect is left pending exactly when it was prepared again, and then no
      later commit clears it. */
  lemma {:induction false} LingersIff(r: Run, ops: seq<Op>, key: string)
    ensures Lingers(ApplyAll(r, ops), key) <==> Lingers(r, key) || PreparedAgain(r, ops, key)
    decreases |ops|
  {
    if ops != [] {
      hide Lingers, Apply;
      LingeringStep(r, ops[0], key);
      LingersIff(Apply(r, ops[0]), ops[1..], key);
    }
  }

  // ----- The stores and the coordinator -----

  datatype Loaded = NoResult | BadDigest | Result(stored: StoredResult)

  class InMemoryEffectResultStore {
    var results: map<string, StoredResult>

    constructor ()
      ensures results == map[]
    {
      results := map[];
    }

    method Save(key: string, digest: Value, result: Value) returns (ok: bool)
      modifies this
      ensures ok <==> Canonical(result) == digest
      ensures results == if ok then old(results)[key := StoredResult(digest, result)] else old(results)
    {
      if Canonical(result) != digest { return false; }
      results := results[key := StoredResult(digest, result)];
      ok := true;
    }

    method Load(key: string) returns (loaded: Loaded)
      ensures key !in results ==> loaded == NoResult
      ensures key in results ==>
        loaded == if Canonical(results[key].result) == results[key].digest then Result(results[key]) else BadDigest
    {
      if key !in results { return NoResult; }
      if Canonical(results[key].result) != results[key].digest { return BadDigest; }
      loaded := Result(results[key]);
    }
  }

  class EffectCommitCoordinator {
    const results: InMemoryEffectResultStore
    var log: seq<Envelope>
    var nextId: nat

    constructor (results: InMemoryEffectResultStore)
      ensures this.results == results && log == [] && nextId == 0
    {
      this.results := results;
      log := [];
      nextId := 0;
    }

    ghost predicate Valid()
      reads this
    {
      Numbered(log) && forall e :: e in log ==> e.eventId < nextId
    }

    method PrepareEffect(pending: seq<Intent>, intent: Intent) returns (r: seq<Intent>)
      ensures r == WithIntent(pending, intent)
      ensures IsPending(r, intent.key)
    {
      for i := 0 to |pending|
        invariant forall j :: 0 <= j < i ==> pending[j].key != intent.key
      {
        if pending[i].key == intent.key { return pending; }
      }
      r := pending + [intent];
      PendsEither(pending, [intent], intent.key);
    }

    /** One queued append, from listing the events to storing the new one. */
    method AppendEvent(record: Record, accepted: bool) returns (outcome: Outcome)
      requires Valid()
      modifies this
      ensures Valid()
      ensures outcome == if accepted then Appended else Refused
      ensures Records(log) == if accepted then Records(old(log)) + [record] else Records(old(log))
      ensures old(log) <= log
    {
      var event := Envelope(nextId, Highest(log) + 1, record);
      nextId := nextId + 1;
      HighestOfNumbered(log);
      AppendIsLast(log, event);
      ghost var before := log;
      if !accepted { return Refused; }
      log := InsertEvent(log, event);
      outcome := Appended;
      assert Records(log) == Records(before) + [record];
    }

    /** The result is stored first, then the event is appended; without the event the
        caller keeps the state it had. */
    method CommitEffect(pending: seq<Intent>, committed: seq<CommittedRef>, key: string, result: Value,
                        now: int, accepted: bool)
      returns (ok: bool, pending': seq<Intent>, committed': seq<CommittedRef>)
      requires Valid()
      modifies this, results
      ensures Valid() && ok == accepted
      ensures Run(pending', committed', results.results, Records(log)) ==
        Apply(Run(pending, committed, old(results.results), Records(old(log))),
              Commit(key, result, now, if accepted then Completed else EventRefused))
    {
      pending', committed' := pending, committed;
      var existing := Find(committed, key);
      var ref := if existing.Some? then existing.value else CommittedRef(key, Canonical(result), now);
      if existing.None? {
        var saved := results.Save(key, ref.digest, result);
      }
      var outcome := AppendEvent(Committed(ref), accepted);
      ok := outcome == Appended;
      if ok && existing.None? {
        pending' := Without(pending, key);
        committed' := committed + [ref];
      }
    }
  }
}
