/** Leases with epochs and tokens, and the snapshot and event writes they fence.
    Every operation runs under the lock of its scope, so it is one atomic step on
    the files of that scope; the clock and fresh tokens are arguments. */
module LeaseFencing {

  import opened Wrappers

  datatype Lease = Lease(holder: string, expiresAt: int, epoch: nat, token: nat)

  datatype Fence = Fence(holder: string, epoch: nat, token: nat)

  datatype Event = Event(eventId: string, seqNo: nat, payload: string)

  /** The lease, epoch, snapshot and event files of one scope. */
  datatype Files = Files(lease: Option<Lease>, epoch: nat, snapshot: Option<string>, events: seq<Event>)

  const EMPTY: Files := Files(None, 0, None, [])

  datatype Op =
    | Acquire(holder: string, ttl: int, now: int, token: nat, crash: bool)
    | Renew(holder: string, fence: Option<Fence>, newTtl: Option<int>, now: int)
    | Release(holder: string, fence: Option<Fence>)
    | Save(state: string, fence: Option<Fence>, now: int)
    | Append(event: Event, fence: Option<Fence>, now: int)

  datatype Reply =
    | Refused
    | Granted(expiresAt: int, fence: Fence)
    | Crashed
    | Renewed(ok: bool)
    | Released
    | Saved
    | Appended(event: Event)
    | Rejected
    | DuplicateSeq

  function ToFence(lease: Lease): Fence {
    Fence(lease.holder, lease.epoch, lease.token)
  }

  function Max(a: nat, b: nat): nat {
    if a > b then a else b
  }

  predicate Active(f: Files, now: int) {
    f.lease.Some? && f.lease.value.expiresAt > now
  }

  /** The fence names the lease in force. */
  predicate InForce(f: Files, fence: Fence, now: int) {
    Active(f, now) && ToFence(f.lease.value) == fence
  }

  /** A lease operation of `holder` that names the right fence, or none. */
  predicate Owns(f: Files, holder: string, fence: Option<Fence>) {
    && f.lease.Some? && f.lease.value.holder == holder
    && (fence.Some? ==> ToFence(f.lease.value) == fence.value)
  }

  function FindEvent(events: seq<Event>, id: string): Option<Event> {
    if events == [] then None
    else if events[0].eventId == id then Some(events[0])
    else FindEvent(events[1..], id)
  }

  predicate HasSeq(events: seq<Event>, n: nat) {
    exists e | e in events :: e.seqNo == n
  }

  // ----- One step on the files -----

  function Step(f: Files, requireFence: bool, op: Op): (Files, Reply) {
    match op
    case Acquire(holder, ttl, now, token, crash) =>
      if Active(f, now) then
        if f.lease.value.holder == holder then (f, Granted(f.lease.value.expiresAt, ToFence(f.lease.value)))
        else (f, Refused)
      else
        var epoch := Max(if f.lease.Some? then f.lease.value.epoch else 0, f.epoch) + 1;
        var lease := Lease(holder, now + Lifetime(ttl), epoch, token);
        if crash then (f.(lease := Some(lease)), Crashed)
        else (f.(lease := Some(lease), epoch := epoch), Granted(lease.expiresAt, ToFence(lease)))
    case Renew(holder, fence, ttl, now) =>
      if ttl.Some? && Owns(f, holder, fence) && Active(f, now) then
        (f.(lease := Some(f.lease.value.(expiresAt := now + Lifetime(ttl.value)))), Renewed(true))
      else (f, Renewed(false))
    case Release(holder, fence) =>
      (if Owns(f, holder, fence) then f.(lease := None) else f, Released)
    case Save(state, fence, now) =>
      if fence.None? && requireFence then (f, Rejected)
      else if fence.Some? && !InForce(f, fence.value, now) then (f, Rejected)
      else (f.(snapshot := Some(state)), Saved)
    case Append(event, fence, now) =>
      if requireFence && (fence.None? || !InForce(f, fence.value, now)) then (f, Rejected)
      else if FindEvent(f.events, event.eventId).Some? then
        (f, Appended(FindEvent(f.events, event.eventId).value))
      else if HasSeq(f.events, event.seqNo) then (f, DuplicateSeq)
      else (f.(events := f.events + [event]), Appended(event))
  }

  // ----- Runs, with what happened so far written down -----

  datatype Entry =
    | Installed(token: nat, epoch: nat)
    | Removed(token: nat)
    | SavedState(token: nat, epoch: nat)
    | AppendedEvent(token: nat, epoch: nat)

  /** What a holder was last told about a lease, unless it gave the lease back. */
  datatype Promise = Promise(holder: string, expiresAt: int)

  datatype World = World(files: Files, clock: int, log: seq<Entry>, promises: map<nat, Promise>)

  const START: World := World(EMPTY, 0, [], map[])

  function Entries(f: Files, f': Files, op: Op, reply: Reply): seq<Entry> {
    match op
    case Acquire(_, _, _, token, _) =>
      if f' != f && f'.lease.Some? then [Installed(f'.lease.value.token, f'.lease.value.epoch)] else []
    case Release(_, _) => if f.lease.Some? && f'.lease.None? then [Removed(f.lease.value.token)] else []
    case Save(_, fence, _) =>
      if reply.Saved? && fence.Some? then [SavedState(fence.value.token, fence.value.epoch)] else []
    case Append(_, fence, _) =>
      if reply.Appended? && fence.Some? then [AppendedEvent(fence.value.token, fence.value.epoch)] else []
    case _ => []
  }

  function Told(promises: map<nat, Promise>, f: Files, op: Op, reply: Reply): map<nat, Promise> {
    match op
    case Acquire(holder, _, _, _, _) =>
      if reply.Granted? then promises[reply.fence.token := Promise(holder, reply.expiresAt)] else promises
    case Renew(_, _, ttl, now) =>
      if reply == Renewed(true) && f.lease.Some? && ttl.Some? && f.lease.value.token in promises
      then promises[f.lease.value.token := Promise(f.lease.value.holder, now + Lifetime(ttl.value))]
      else promises
    case Release(holder, fence) =>
      if Owns(f, holder, fence) then promises - {f.lease.value.token} else promises
    case _ => promises
  }

  function Clock(w: World, op: Op): int {
    match op
    case Release(_, _) => w.clock
    case _ => op.now
  }

  function Next(w: World, requireFence: bool, op: Op): World {
    var (f', reply) := Step(w.files, requireFence, op);
    World(f', Clock(w, op), w.log + Entries(w.files, f', op, reply), Told(w.promises, w.files, op, reply))
  }

  function Run(w: World, requireFence: bool, ops: seq<Op>): World
    decreases |ops|
  {
    if ops == [] then w else Run(Next(w, requireFence, ops[0]), requireFence, ops[1..])
  }

  function TokensOf(log: seq<Entry>): set<nat> {
    set e | e in log :: e.token
  }

  /** Tokens are fresh: never issued before. */
  predicate FreshTokens(w: World, requireFence: bool, ops: seq<Op>)
    decreases |ops|
  {
    ops != [] ==>
      && (ops[0].Acquire? ==> ops[0].token !in TokensOf(w.log))
      && FreshTokens(Next(w, requireFence, ops[0]), requireFence, ops[1..])
  }

  /** The clock does not run backwards. */
  predicate Timely(w: World, ops: seq<Op>)
    decreases |ops|
  {
    ops != [] ==>
      && Clock(w, ops[0]) >= w.clock
      && Timely(w.(clock := Clock(w, ops[0])), ops[1..])
  }

  // ----- A superseded fence is never accepted again, crashes or not -----

  /** The lease in the file was installed, and its token not reused since. */
  ghost predicate Logged(w: World) {
    w.files.lease.Some? ==> w.files.lease.value.token in TokensOf(w.log)
  }

  /** The token was issued, and its lease has been replaced or removed. */
  ghost predicate Dead(w: World, token: nat) {
    token in TokensOf(w.log) && (w.files.lease.Some? ==> w.files.lease.value.token != token)
  }

  /** Once a lease has been replaced or removed, no run saves a snapshot under its fence
      again, whether fences are required or not; nor does it append an event when they are. */
  lemma {:induction false} SupersededNeverWrites(w: World, requireFence: bool, ops: seq<Op>, token: nat)
    requires Logged(w) && Dead(w, token) && FreshTokens(w, requireFence, ops)
    ensures var w' := Run(w, requireFence, ops);
            && w.log <= w'.log
            && (forall k, epoch :: |w.log| <= k < |w'.log| ==>
                  && w'.log[k] != SavedState(token, epoch)
                  && (requireFence ==> w'.log[k] != AppendedEvent(token, epoch)))
    decreases |ops|
  {
    if ops != [] {
      var w1 := Next(w, requireFence, ops[0]);
      DeadStep(w, requireFence, ops[0], token);
      SupersededNeverWrites(w1, requireFence, ops[1..], token);
      hide Next, Dead, Logged;
      var w' := Run(w, requireFence, ops);
      forall k, epoch | |w.log| <= k < |w'.log|
        ensures w'.log[k] != SavedState(token, epoch)
        ensures requireFence ==> w'.log[k] != AppendedEvent(token, epoch)
      {
        if k < |w1.log| {
          assert w'.log[k] == w1.log[k];
        }
      }
    }
  }

  lemma DeadStep(w: World, requireFence: bool, op: Op, token: nat)
    requires Logged(w) && Dead(w, token)
    requires op.Acquire? ==> op.token !in TokensOf(w.log)
    ensures var w' := Next(w, requireFence, op);
            && Logged(w') && Dead(w', token) && w.log <= w'.log
            && (forall k, epoch :: |w.log| <= k < |w'.log| ==>
                  && w'.log[k] != SavedState(token, epoch)
                  && (requireFence ==> w'.log[k] != AppendedEvent(token, epoch)))
  {
    var w' := Next(w, requireFence, op);
    assert forall e :: e in w.log ==> e in w'.log;
    if |w'.log| > |w.log| {
      assert w'.log[|w.log|] in w'.log;
    }
  }

  /** An append under a dead fence is answered exactly when the store does not require
      fences and the event is known already or its number is free. */
  lemma DeadAppends(w: World, requireFence: bool, event: Event, fence: Fence, now: int)
    requires Dead(w, fence.token)
    ensures Step(w.files, requireFence, Append(event, Some(fence), now)).1.Appended? <==>
            !requireFence && (FindEvent(w.files.events, event.eventId).Some? || !HasSeq(w.files.events, event.seqNo))
  {
  }

  /** Any lease change of another holder, or a release, kills the old token. */
  lemma ReplacedIsDead(w: World, requireFence: bool, op: Op)
    requires Logged(w) && w.files.lease.Some?
    requires op.Acquire? ==> op.token !in TokensOf(w.log)
    ensures var w' := Next(w, requireFence, op);
            |w'.log| > |w.log| && (w'.log[|w.log|].Installed? || w'.log[|w.log|].Removed?) ==>
              Dead(w', w.files.lease.value.token)
  {
    var w' := Next(w, requireFence, op);
    assert forall e :: e in w.log ==> e in w'.log;
  }

  // ----- Epochs order all grants and writes, unless a torn grant comes between -----

  /** Epochs never decrease along the log, and every grant has a larger epoch than
      all that came before it. */
  ghost predicate EpochOrdered(log: seq<Entry>) {
    forall i, j :: 0 <= i < j < |log| && !log[i].Removed? && !log[j].Removed?
                   ==> if log[j].Installed? then log[i].epoch < log[j].epoch else log[i].epoch <= log[j].epoch
  }

  /** The lease file is gone and the epoch file does not hold every epoch there was. */
  predicate Torn(w: World) {
    w.files.lease.None? && exists e | e in w.log :: !e.Removed? && e.epoch > w.files.epoch
  }

  /** Nobody acquires the lease while the files are torn. */
  predicate NoTornGrant(w: World, ops: seq<Op>)
    decreases |ops|
  {
    ops != [] ==> !(ops[0].Acquire? && Torn(w)) && NoTornGrant(Next(w, true, ops[0]), ops[1..])
  }

  ghost predicate EpochInv(w: World) {
    && (w.files.lease.Some? ==>
          && w.files.lease.value.epoch >= w.files.epoch
          && (forall i :: 0 <= i < |w.log| && !w.log[i].Removed? ==> w.log[i].epoch <= w.files.lease.value.epoch))
    && EpochOrdered(w.log)
  }

  lemma EpochStep(w: World, op: Op)
    requires EpochInv(w) && !(op.Acquire? && Torn(w))
    ensures EpochInv(Next(w, true, op))
  {
    assert forall i :: 0 <= i < |w.log| ==> w.log[i] in w.log;
  }

  /** A grant on torn files has an epoch no larger than one there was before. */
  lemma TornStep(w: World, op: Op)
    requires op.Acquire? && Torn(w)
    ensures !EpochOrdered(Next(w, true, op).log)
  {
    var e :| e in w.log && !e.Removed? && e.epoch > w.files.epoch;
    var i :| 0 <= i < |w.log| && w.log[i] == e;
    var log := Next(w, true, op).log;
    assert log[i] == e && log[|w.log|] == Installed(op.token, w.files.epoch + 1);
  }

  /** Files become torn only by a release of a lease whose epoch was never recorded. */
  lemma TornByRelease(w: World, op: Op)
    requires EpochInv(w) && !Torn(w) && Torn(Next(w, true, op))
    ensures op.Release? && w.files.lease.Some? && w.files.lease.value.epoch > w.files.epoch
  {
    assert forall i :: 0 <= i < |w.log| ==> w.log[i] in w.log;
    assert forall e :: e in Next(w, true, op).log && !e.Removed? ==> op.Release? ==> e in w.log;
  }

  lemma {:induction false} LogGrows(w: World, ops: seq<Op>)
    ensures w.log <= Run(w, true, ops).log
    decreases |ops|
  {
    if ops != [] {
      hide Step;
      LogGrows(Next(w, true, ops[0]), ops[1..]);
    }
  }

  lemma {:induction false} OrderedRun(w: World, ops: seq<Op>)
    requires EpochInv(w)
    ensures EpochOrdered(Run(w, true, ops).log) <==> NoTornGrant(w, ops)
    decreases |ops|
  {
    if ops != [] {
      var w1 := Next(w, true, ops[0]);
      if ops[0].Acquire? && Torn(w) {
        TornStep(w, ops[0]);
        LogGrows(w1, ops[1..]);
        assert forall i :: 0 <= i < |w1.log| ==> Run(w, true, ops).log[i] == w1.log[i];
      } else {
        EpochStep(w, ops[0]);
        hide Next, Torn, EpochInv, EpochOrdered;
        OrderedRun(w1, ops[1..]);
      }
    }
  }

  /** For any interleaving of holders, crashes included: accepted writes have
      non-decreasing epochs and every grant a larger one than all before it, exactly
      when nobody acquires the lease while the files are torn. */
  lemma EpochsOrderedIff(ops: seq<Op>)
    ensures EpochOrdered(Run(START, true, ops).log) <==> NoTornGrant(START, ops)
  {
    OrderedRun(START, ops);
  }

  // ----- Exclusion in time -----

  /** Every promise that has not run out is the lease in force. */
  ghost predicate Honoured(w: World) {
    forall t :: t in w.promises && w.promises[t].expiresAt > w.clock ==>
      && w.files.lease.Some? && w.files.lease.value.token == t
      && w.files.lease.value.expiresAt == w.promises[t].expiresAt
      && w.files.lease.value.holder == w.promises[t].holder
  }

  ghost predicate PromisesKept(w: World) {
    Logged(w) && (forall t :: t in w.promises ==> t in TokensOf(w.log)) && Honoured(w)
  }

  lemma HonouredStep(w: World, requireFence: bool, op: Op)
    requires Honoured(w) && Clock(w, op) >= w.clock
    requires op.Acquire? ==> op.token !in w.promises
    ensures Honoured(Next(w, requireFence, op))
  {
  }

  lemma PromiseStep(w: World, requireFence: bool, op: Op)
    requires PromisesKept(w) && Clock(w, op) >= w.clock
    requires op.Acquire? ==> op.token !in TokensOf(w.log)
    ensures PromisesKept(Next(w, requireFence, op))
  {
    HonouredStep(w, requireFence, op);
    hide Honoured;
    var w' := Next(w, requireFence, op);
    assert forall e :: e in w.log ==> e in w'.log;
    if |w'.log| > |w.log| {
      assert w'.log[|w.log|] in w'.log;
    }
  }

  lemma {:induction false} PromiseRun(w: World, requireFence: bool, ops: seq<Op>)
    requires PromisesKept(w) && Timely(w, ops) && FreshTokens(w, requireFence, ops)
    ensures PromisesKept(Run(w, requireFence, ops))
    decreases |ops|
  {
    if ops != [] {
      var w1 := Next(w, requireFence, ops[0]);
      PromiseStep(w, requireFence, ops[0]);
      TimelyClockOnly(w.(clock := Clock(w, ops[0])), w1, ops[1..]);
      PromiseRun(w1, requireFence, ops[1..]);
    }
  }

  lemma {:induction false} TimelyClockOnly(w: World, w': World, ops: seq<Op>)
    requires w.clock == w'.clock
    ensures Timely(w, ops) == Timely(w', ops)
    decreases |ops|
  {
    if ops != [] {
      TimelyClockOnly(w.(clock := Clock(w, ops[0])), w'.(clock := Clock(w', ops[0])), ops[1..]);
    }
  }

  /** No two holders can both believe, at one time, that they hold the lease: a
      second holder is granted only after the first released it or it ran out. */
  lemma AtMostOneHolder(ops: seq<Op>, requireFence: bool, t: nat, t': nat)
    requires Timely(START, ops) && FreshTokens(START, requireFence, ops)
    ensures var w := Run(START, requireFence, ops);
            && t in w.promises && w.promises[t].expiresAt > w.clock
            && t' in w.promises && w.promises[t'].expiresAt > w.clock
            ==> t == t'
  {
    PromiseRun(START, requireFence, ops);
  }

  // ----- A torn grant: epochs go down -----

  lemma Unrolled(w: World, op: Op, rest: seq<Op>)
    ensures Run(w, true, [op] + rest) == Run(Next(w, true, op), true, rest) && Run(w, true, []) == w
    ensures FreshTokens(w, true, [op] + rest) <==>
              (op.Acquire? ==> op.token !in TokensOf(w.log)) && FreshTokens(Next(w, true, op), true, rest)
    ensures Timely(w, [op] + rest) <==> Clock(w, op) >= w.clock && Timely(Next(w, true, op), rest)
    ensures FreshTokens(w, true, []) && Timely(w, [])
  {
    assert ([op] + rest)[1..] == rest;
    TimelyClockOnly(w.(clock := Clock(w, op)), Next(w, true, op), rest);
  }

  lemma TornFiles(rest: seq<Op>)
    ensures var w3 := World(Files(Some(Lease("a", 15, 2, 2)), 0, None, []), 6, [Installed(1, 1), Installed(2, 2)],
                            map[2 := Promise("a", 15)]);
            var ops := [Acquire("a", 1, 0, 1, true)] +
                       ([Acquire("a", 10, 5, 2, true)] + ([Acquire("a", 10, 6, 3, false)] + rest));
            && Run(START, true, ops) == Run(w3, true, rest)
            && (FreshTokens(w3, true, rest) ==> FreshTokens(START, true, ops))
            && (Timely(w3, rest) ==> Timely(START, ops))
  {
    var a, b, c := Acquire("a", 1, 0, 1, true), Acquire("a", 10, 5, 2, true), Acquire("a", 10, 6, 3, false);
    var w1 := Next(START, true, a);
    assert w1 == World(Files(Some(Lease("a", 1, 1, 1)), 0, None, []), 0, [Installed(1, 1)], map[]);
    var w2 := Next(w1, true, b);
    assert w2 == World(Files(Some(Lease("a", 15, 2, 2)), 0, None, []), 5, [Installed(1, 1), Installed(2, 2)], map[]);
    assert Next(w2, true, c) == w2.(clock := 6, promises := map[2 := Promise("a", 15)]);
    hide Run, FreshTokens, Timely, Next;
    Unrolled(START, a, [b] + ([c] + rest));
    Unrolled(w1, b, [c] + rest);
    Unrolled(w2, c, rest);
  }

  lemma SmallerEpoch(w3: World)
    requires w3 == World(Files(Some(Lease("a", 15, 2, 2)), 0, None, []), 6, [Installed(1, 1), Installed(2, 2)],
                         map[2 := Promise("a", 15)])
    ensures var rest := [Save("x", Some(Fence("a", 2, 2)), 7)] + ([Release("a", None)] +
                        ([Acquire("b", 10, 8, 4, false)] + ([Save("y", Some(Fence("b", 1, 4)), 9)] + [])));
            && FreshTokens(w3, true, rest) && Timely(w3, rest)
            && Run(w3, true, rest).log ==
               [Installed(1, 1), Installed(2, 2), SavedState(2, 2), Removed(2), Installed(4, 1), SavedState(4, 1)]
  {
    var x, r := Save("x", Some(Fence("a", 2, 2)), 7), Release("a", None);
    var d, y := Acquire("b", 10, 8, 4, false), Save("y", Some(Fence("b", 1, 4)), 9);
    var w4 := Next(w3, true, x);
    assert w4 == w3.(files := w3.files.(snapshot := Some("x")), clock := 7, log := w3.log + [SavedState(2, 2)]);
    var w5 := Next(w4, true, r);
    assert w5.files == Files(None, 0, Some("x"), []) && w5.log == w4.log + [Removed(2)] && w5.clock == 7;
    var w6 := Next(w5, true, d);
    assert w6.files == Files(Some(Lease("b", 18, 1, 4)), 1, Some("x"), []) && w6.clock == 8;
    assert w6.log == w5.log + [Installed(4, 1)] && 4 !in TokensOf(w5.log);
    assert Next(w6, true, y).log == w6.log + [SavedState(4, 1)];
    hide Run, FreshTokens, Timely, Next, TokensOf;
    Unrolled(w3, x, [r] + ([d] + ([y] + [])));
    Unrolled(w4, r, [d] + ([y] + []));
    Unrolled(w5, d, [y] + []);
    Unrolled(w6, y, []);
    Unrolled(Next(w6, true, y), y, []);
  }

  /** Two crashes between the lease write and the epoch write, then a release: the next
      holder writes under a smaller epoch than the one before. */
  lemma EpochCanDecrease()
    ensures var ops := [Acquire("a", 1, 0, 1, true), Acquire("a", 10, 5, 2, true), Acquire("a", 10, 6, 3, false),
                        Save("x", Some(Fence("a", 2, 2)), 7), Release("a", None),
                        Acquire("b", 10, 8, 4, false), Save("y", Some(Fence("b", 1, 4)), 9)];
            && FreshTokens(START, true, ops) && Timely(START, ops)
            && Run(START, true, ops).log ==
               [Installed(1, 1), Installed(2, 2), SavedState(2, 2), Removed(2), Installed(4, 1), SavedState(4, 1)]
  {
    hide Run, FreshTokens, Timely;
    var x, r := Save("x", Some(Fence("a", 2, 2)), 7), Release("a", None);
    var d, y := Acquire("b", 10, 8, 4, false), Save("y", Some(Fence("b", 1, 4)), 9);
    var rest := [x] + ([r] + ([d] + ([y] + [])));
    TornFiles(rest);
    var w3 := World(Files(Some(Lease("a", 15, 2, 2)), 0, None, []), 6, [Installed(1, 1), Installed(2, 2)],
                    map[2 := Promise("a", 15)]);
    SmallerEpoch(w3);
    assert [Acquire("a", 1, 0, 1, true), Acquire("a", 10, 5, 2, true), Acquire("a", 10, 6, 3, false), x, r, d, y] ==
           [Acquire("a", 1, 0, 1, true)] +
           ([Acquire("a", 10, 5, 2, true)] + ([Acquire("a", 10, 6, 3, false)] + rest));
  }

  // ----- The event log -----

  ghost predicate UniqueEvents(events: seq<Event>) {
    forall i, j :: 0 <= i < j < |events| ==>
                     events[i].eventId != events[j].eventId && events[i].seqNo != events[j].seqNo
  }

  lemma FindEventSpec(events: seq<Event>, id: string)
    ensures var r := FindEvent(events, id);
            match r
            case Some(e) => e in events && e.eventId == id
            case None => forall e | e in events :: e.eventId != id
  {
  }

  /** The event log only grows, by events with a new id and a new sequence number. */
  lemma {:induction false} EventsGrowUnique(w: World, requireFence: bool, ops: seq<Op>)
    requires UniqueEvents(w.files.events)
    ensures var w' := Run(w, requireFence, ops);
            UniqueEvents(w'.files.events) && w.files.events <= w'.files.events
    decreases |ops|
  {
    if ops != [] {
      var op := ops[0];
      if op.Append? { FindEventSpec(w.files.events, op.event.eventId); }
      EventsGrowUnique(Next(w, requireFence, op), requireFence, ops[1..]);
    }
  }

  // ----- What the files hold after a run, told from the answers -----

  function Answers(w: World, requireFence: bool, ops: seq<Op>): seq<Reply>
    decreases |ops|
  {
    if ops == [] then []
    else [Step(w.files, requireFence, ops[0]).1] + Answers(Next(w, requireFence, ops[0]), requireFence, ops[1..])
  }

  /** The state of the last save that was answered `Saved`. */
  function LastSaved(ops: seq<Op>, replies: seq<Reply>): Option<string>
    requires |ops| == |replies|
  {
    if ops == [] then None
    else
      match LastSaved(ops[1..], replies[1..])
      case Some(state) => Some(state)
      case None => if ops[0].Save? && replies[0] == Saved then Some(ops[0].state) else None
  }

  /** The event that the answer to an operation adds to those known. */
  function AddedEvents(known: seq<Event>, op: Op, reply: Reply): seq<Event> {
    if op.Append? && reply.Appended? && forall e | e in known :: e.eventId != op.event.eventId then [op.event] else []
  }

  /** The events whose append was answered, each id once. */
  function AppendedEvents(known: seq<Event>, ops: seq<Op>, replies: seq<Reply>): seq<Event>
    requires |ops| == |replies|
    decreases |ops|
  {
    if ops == [] then []
    else
      var added := AddedEvents(known, ops[0], replies[0]);
      added + AppendedEvents(known + added, ops[1..], replies[1..])
  }

  lemma {:induction false} AnswersLength(w: World, requireFence: bool, ops: seq<Op>)
    ensures |Answers(w, requireFence, ops)| == |ops|
    decreases |ops|
  {
    if ops != [] { AnswersLength(Next(w, requireFence, ops[0]), requireFence, ops[1..]); }
  }

  lemma StepKeepsFiles(f: Files, requireFence: bool, op: Op)
    ensures var (f', reply) := Step(f, requireFence, op);
            && f'.snapshot == (if op.Save? && reply == Saved then Some(op.state) else f.snapshot)
            && f'.events == f.events + AddedEvents(f.events, op, reply)
  {
    assert f.events + [] == f.events;
    if op.Append? { FindEventSpec(f.events, op.event.eventId); }
  }

  lemma AnswersStep(w: World, requireFence: bool, ops: seq<Op>)
    requires ops != []
    ensures var replies := Answers(w, requireFence, ops);
            && replies != [] && replies[0] == Step(w.files, requireFence, ops[0]).1
            && replies[1..] == Answers(Next(w, requireFence, ops[0]), requireFence, ops[1..])
  {
  }

  /** After any run the snapshot is the state of the last save answered `Saved`, or the
      first one when there is none. */
  lemma {:induction false} SnapshotIsLastSaved(w: World, requireFence: bool, ops: seq<Op>)
    ensures |Answers(w, requireFence, ops)| == |ops|
    ensures var last := LastSaved(ops, Answers(w, requireFence, ops));
            Run(w, requireFence, ops).files.snapshot == if last.Some? then last else w.files.snapshot
    decreases |ops|
  {
    AnswersLength(w, requireFence, ops);
    if ops != [] {
      hide Step, Told, Entries, Answers;
      SnapshotIsLastSaved(Next(w, requireFence, ops[0]), requireFence, ops[1..]);
      StepKeepsFiles(w.files, requireFence, ops[0]);
      AnswersStep(w, requireFence, ops);
    }
  }

  /** After any run the log holds, behind what it held, exactly the events whose append was
      answered, in that order and once each. */
  lemma {:induction false} EventsAreAppended(w: World, requireFence: bool, ops: seq<Op>)
    ensures |Answers(w, requireFence, ops)| == |ops|
    ensures Run(w, requireFence, ops).files.events ==
            w.files.events + AppendedEvents(w.files.events, ops, Answers(w, requireFence, ops))
    decreases |ops|
  {
    AnswersLength(w, requireFence, ops);
    if ops == [] {
      assert w.files.events + [] == w.files.events;
    } else {
      hide Step, Told, Entries, Answers, AddedEvents;
      var known, next := w.files.events, Next(w, requireFence, ops[0]);
      EventsAreAppended(next, requireFence, ops[1..]);
      StepKeepsFiles(w.files, requireFence, ops[0]);
      AnswersStep(w, requireFence, ops);
      var added := AddedEvents(known, ops[0], Answers(w, requireFence, ops)[0]);
      var rest := AppendedEvents(known + added, ops[1..], Answers(next, requireFence, ops[1..]));
      hide AppendedEvents, Next;
      assert (known + added) + rest == known + (added + rest);
    }
  }

  // ----- When each operation is granted, told from the fields of the files -----

  /** A lease is refused to others while it lasts, given again to its holder unchanged, and
      otherwise replaced by a new one with a larger epoch than any on file. */
  lemma AcquireSays(f: Files, requireFence: bool, holder: string, ttl: int, now: int, token: nat, crash: bool)
    ensures var (f', reply) := Step(f, requireFence, Acquire(holder, ttl, now, token, crash));
            if f.lease.Some? && f.lease.value.expiresAt > now then
              && f' == f
              && reply == if f.lease.value.holder != holder then Refused
                          else Granted(f.lease.value.expiresAt, Fence(holder, f.lease.value.epoch, f.lease.value.token))
            else
              && f'.lease.Some? && f'.lease.value.holder == holder && f'.lease.value.token == token
              && f'.lease.value.expiresAt > now && f'.lease.value.expiresAt >= now + ttl
              && (f'.lease.value.expiresAt == now + 1 || f'.lease.value.expiresAt == now + ttl)
              && f'.lease.value.epoch > f.epoch && (f.lease.Some? ==> f'.lease.value.epoch > f.lease.value.epoch)
              && (f'.lease.value.epoch == f.epoch + 1
                  || (f.lease.Some? && f'.lease.value.epoch == f.lease.value.epoch + 1))
              && f'.epoch == (if crash then f.epoch else f'.lease.value.epoch)
              && reply == if crash then Crashed
                          else Granted(f'.lease.value.expiresAt, Fence(holder, f'.lease.value.epoch, token))
  {
  }

  /** A lease is renewed exactly for its holder, under its fence or none, while it lasts. */
  lemma RenewSays(f: Files, requireFence: bool, holder: string, fence: Option<Fence>, ttl: Option<int>, now: int)
    ensures var (f', reply) := Step(f, requireFence, Renew(holder, fence, ttl, now));
            && (reply == Renewed(true) <==>
                  && ttl.Some? && f.lease.Some? && f.lease.value.holder == holder && f.lease.value.expiresAt > now
                  && (fence.Some? ==> && fence.value.holder == f.lease.value.holder
                                      && fence.value.epoch == f.lease.value.epoch
                                      && fence.value.token == f.lease.value.token))
            && (reply != Renewed(true) ==> reply == Renewed(false) && f' == f)
            && (reply == Renewed(true) ==>
                  && f'.lease.Some? && f' == f.(lease := f'.lease)
                  && f'.lease.value == f.lease.value.(expiresAt := f'.lease.value.expiresAt)
                  && f'.lease.value.expiresAt == if ttl.value > 1 then now + ttl.value else now + 1)
  {
  }

  /** A release removes the lease exactly when its holder asks, under its fence or none. */
  lemma ReleaseSays(f: Files, requireFence: bool, holder: string, fence: Option<Fence>)
    ensures var f' := Step(f, requireFence, Release(holder, fence)).0;
            if && f.lease.Some? && f.lease.value.holder == holder
               && (fence.Some? ==> && fence.value.holder == f.lease.value.holder
                                   && fence.value.epoch == f.lease.value.epoch
                                   && fence.value.token == f.lease.value.token)
            then f' == f.(lease := None) else f' == f
  {
  }

  /** The lease on file has not run out and has these three values. */
  predicate Holds(f: Files, fence: Fence, now: int) {
    && f.lease.Some? && f.lease.value.expiresAt > now && f.lease.value.holder == fence.holder
    && f.lease.value.epoch == fence.epoch && f.lease.value.token == fence.token
  }

  /** A snapshot is saved exactly when the fence given holds, or none is given nor required. */
  lemma SaveSays(f: Files, requireFence: bool, state: string, fence: Option<Fence>, now: int)
    ensures var (f', reply) := Step(f, requireFence, Save(state, fence, now));
            if (if fence.Some? then Holds(f, fence.value, now) else !requireFence)
            then reply == Saved && f' == f.(snapshot := Some(state)) else reply == Rejected && f' == f
  {
  }

  /** An event is appended exactly when the store requires no fence or the one given holds,
      and neither its id nor its number is taken; a known id is answered with what is known. */
  lemma AppendSays(f: Files, requireFence: bool, event: Event, fence: Option<Fence>, now: int)
    ensures var (f', reply) := Step(f, requireFence, Append(event, fence, now));
            if requireFence && !(fence.Some? && Holds(f, fence.value, now)) then reply == Rejected && f' == f
            else if exists e | e in f.events :: e.eventId == event.eventId then
              f' == f && reply.Appended? && reply.event in f.events && reply.event.eventId == event.eventId
            else if exists e | e in f.events :: e.seqNo == event.seqNo then f' == f && reply == DuplicateSeq
            else f' == f.(events := f.events + [event]) && reply == Appended(event)
  {
    FindEventSpec(f.events, event.eventId);
  }

  // ----- The stores: one set of files per scope, updated in place -----

  class FileRunStore {
    const requireFence: bool
    var leases: map<string, Lease>
    var epochs: map<string, nat>
    var snapshots: map<string, string>
    var events: map<string, seq<Event>>

    constructor (requireFence: bool)
      ensures this.requireFence == requireFence
      ensures forall scope :: FilesOf(scope) == EMPTY
    {
      this.requireFence := requireFence;
      leases, epochs, snapshots, events := map[], map[], map[], map[];
    }

    function ReadLease(scope: string): Option<Lease>
      reads this
    {
      if scope in leases then Some(leases[scope]) else None
    }

    function ReadEpoch(scope: string): nat
      reads this
    {
      if scope in epochs then epochs[scope] else 0
    }

    function ReadEvents(scope: string): seq<Event>
      reads this
    {
      if scope in events then events[scope] else []
    }

    function FilesOf(scope: string): Files
      reads this
    {
      Files(ReadLease(scope), ReadEpoch(scope),
            if scope in snapshots then Some(snapshots[scope]) else None, ReadEvents(scope))
    }

    /** The operation did to its scope what `Step` says, and nothing elsewhere. */
    twostate predicate Stepped(scope: string, op: Op, reply: Reply)
      reads this
    {
      && (FilesOf(scope), reply) == Step(old(FilesOf(scope)), requireFence, op)
      && (forall other :: other != scope ==> FilesOf(other) == old(FilesOf(other)))
    }

    method AcquireLease(scope: string, holder: string, ttl: int, now: int, token: nat, crash: bool)
      returns (reply: Reply)
      modifies this
      ensures Stepped(scope, Acquire(holder, ttl, now, token, crash), reply)
    {
      var current := ReadLease(scope);
      if current.Some? && current.value.expiresAt > now && current.value.holder != holder {
        return Refused;
      }
      if current.Some? && current.value.expiresAt > now && current.value.holder == holder {
        return Granted(current.value.expiresAt, ToFence(current.value));
      }
      var epoch := Max(if current.Some? then current.value.epoch else 0, ReadEpoch(scope)) + 1;
      var lease := Lease(holder, now + Lifetime(ttl), epoch, token);
      leases := leases[scope := lease];
      if crash {
        return Crashed;
      }
      epochs := epochs[scope := epoch];
      return Granted(lease.expiresAt, ToFence(lease));
    }

    method RenewLease(scope: string, holder: string, fence: Option<Fence>, ttl: Option<int>, now: int)
      returns (reply: Reply)
      modifies this
      ensures Stepped(scope, Renew(holder, fence, ttl, now), reply)
    {
      if ttl.None? {
        return Renewed(false);
      }
      var current := ReadLease(scope);
      if current.None? || current.value.holder != holder
         || (fence.Some? && ToFence(current.value) != fence.value) || current.value.expiresAt <= now {
        return Renewed(false);
      }
      leases := leases[scope := current.value.(expiresAt := now + Lifetime(ttl.value))];
      return Renewed(true);
    }

    method ReleaseLease(scope: string, holder: string, fence: Option<Fence>) returns (reply: Reply)
      modifies this
      ensures Stepped(scope, Release(holder, fence), reply)
    {
      var current := ReadLease(scope);
      if current.Some? && current.value.holder == holder
         && (fence.None? || ToFence(current.value) == fence.value) {
        leases := leases - {scope};
      }
      return Released;
    }

    method SaveSnapshot(scope: string, state: string, fence: Option<Fence>, now: int) returns (reply: Reply)
      modifies this
      ensures Stepped(scope, Save(state, fence, now), reply)
      ensures reply == Saved <==> if fence.Some? then Holds(old(FilesOf(scope)), fence.value, now) else !requireFence
      ensures snapshots == if reply == Saved then old(snapshots)[scope := state] else old(snapshots)
    {
      if fence.Some? || requireFence {
        if fence.None? {
          return Rejected;
        }
        var current := ReadLease(scope);
        if current.None? || current.value.expiresAt <= now || current.value.holder != fence.value.holder
           || ToFence(current.value) != fence.value {
          return Rejected;
        }
      }
      snapshots := snapshots[scope := state];
      return Saved;
    }

    method AppendEvent(scope: string, event: Event, fence: Option<Fence>, now: int) returns (reply: Reply)
      modifies this
      ensures Stepped(scope, Append(event, fence, now), reply)
    {
      if requireFence {
        if fence.None? {
          return Rejected;
        }
        var lease := ReadLease(scope);
        if lease.None? || lease.value.holder != fence.value.holder || lease.value.epoch != fence.value.epoch
           || lease.value.token != fence.value.token || lease.value.expiresAt <= now {
          return Rejected;
        }
      }
      var existing := ReadEvents(scope);
      var duplicate := FindEvent(existing, event.eventId);
      if duplicate.Some? {
        return Appended(duplicate.value);
      }
      if HasSeq(existing, event.seqNo) {
        return DuplicateSeq;
      }
      events := events[scope := existing + [event]];
      return Appended(event);
    }
  }
}
