/** The mailbox of a multi-agent run: messages are claimed under a lease and
    completed under the fence of the claim.  Each operation is one atomic step. */
module Mailbox {

  import opened Wrappers

  datatype Status = Queued | Delivered | Failed | Aborted | Completed

  datatype Claim = Claim(holder: string, expiresAt: int, epoch: nat, token: nat)

  datatype Message = Message(id: string, toAgent: string, createdAt: int, status: Status, claim: Option<Claim>)

  /** The messages by id, with the ids in order of insertion. */
  datatype Box = Box(messages: map<string, Message>, order: seq<string>, claimEpochs: map<string, nat>)

  const EMPTY: Box := Box(map[], [], map[])

  function Rank(status: Status): nat {
    match status
    case Queued => 0
    case Delivered => 1
    case Failed => 1
    case Aborted => 1
    case Completed => 2
  }

  predicate Terminal(status: Status) {
    status.Failed? || status.Aborted? || status.Completed?
  }

  function PreserveProgress(existing: Message, incoming: Message): Message {
    if Rank(existing.status) >= Rank(incoming.status) then existing else incoming
  }

  predicate Claimable(m: Message, agent: string, now: int) {
    && m.toAgent == agent
    && (m.status.Queued? || (m.status.Delivered? && m.claim.Some? && m.claim.value.expiresAt <= now))
  }

  predicate FenceHolds(m: Message, fence: Option<Claim>) {
    fence.None? ||
    (m.claim.Some? && m.claim.value.holder == fence.value.holder
     && m.claim.value.epoch == fence.value.epoch && m.claim.value.token == fence.value.token)
  }

  // ----- The operations as functions -----

  function Enqueued(box: Box, m: Message): Box {
    if m.id in box.messages then box.(messages := box.messages[m.id := PreserveProgress(box.messages[m.id], m)])
    else box.(messages := box.messages[m.id := m], order := box.order + [m.id])
  }

  ghost predicate Valid(box: Box) {
    && (forall id :: id in box.order <==> id in box.messages)
    && (forall i, j :: 0 <= i < j < |box.order| ==> box.order[i] != box.order[j])
    && (forall id | id in box.messages :: box.messages[id].id == id)
  }

  /** The message `id` may be claimed now. */
  predicate Ready(box: Box, id: string, agent: string, now: int) {
    id in box.messages && Claimable(box.messages[id], agent, now)
  }

  /** The head of the claimable messages sorted by creation; the sort is stable. */
  function Oldest(box: Box, ids: seq<string>, agent: string, now: int): Option<string> {
    if ids == [] then None
    else
      var rest := Oldest(box, ids[..|ids| - 1], agent, now);
      var id := ids[|ids| - 1];
      if !Ready(box, id, agent, now) then rest
      else if rest.Some? && rest.value in box.messages
              && box.messages[rest.value].createdAt <= box.messages[id].createdAt then rest
      else Some(id)
  }

  datatype Lease = Lease(holder: string, ttl: int, token: nat)

  function Delivery(box: Box, id: string, lease: Option<Lease>, now: int): Box
    requires id in box.messages
  {
    var m := box.messages[id];
    match lease
    case None => box.(messages := box.messages[id := m.(status := Delivered)])
    case Some(l) =>
      var epoch := (if id in box.claimEpochs then box.claimEpochs[id] else 0) + 1;
      var claim := Claim(l.holder, now + Lifetime(l.ttl), epoch, l.token);
      box.(messages := box.messages[id := m.(status := Delivered, claim := Some(claim))],
           claimEpochs := box.claimEpochs[id := epoch])
  }

  function ClaimedNext(box: Box, agent: string, lease: Option<Lease>, now: int): (Box, Option<Message>) {
    match Oldest(box, box.order, agent, now)
    case Some(id) =>
      if id in box.messages then
        var box' := Delivery(box, id, lease, now);
        (box', Some(box'.messages[id]))
      else (box, None)
    case None => (box, None)
  }

  /** The new box, and whether the fence was accepted. */
  function CompletedBy(box: Box, id: string, status: Status, fence: Option<Claim>): (Box, bool) {
    if id !in box.messages || box.messages[id].status == status then (box, true)
    else if !FenceHolds(box.messages[id], fence) then (box, false)
    else (box.(messages := box.messages[id := box.messages[id].(status := status, claim := None)]), true)
  }

  /** Position `k` holds a claimable message with the least creation time, the
      first one among equals. */
  ghost predicate LeastAt(box: Box, ids: seq<string>, agent: string, now: int, k: nat) {
    && k < |ids| && Ready(box, ids[k], agent, now)
    && (forall j :: 0 <= j < |ids| && Ready(box, ids[j], agent, now) ==>
          && box.messages[ids[k]].createdAt <= box.messages[ids[j]].createdAt
          && (j < k ==> box.messages[ids[k]].createdAt < box.messages[ids[j]].createdAt))
  }

  /** Each claim takes a claimable message with the least creation time, the one
      enqueued first among equals, and finds one whenever there is one. */
  lemma {:induction false} OldestIsLeast(box: Box, ids: seq<string>, agent: string, now: int)
    ensures match Oldest(box, ids, agent, now)
            case Some(id) => exists k: nat :: LeastAt(box, ids, agent, now, k) && ids[k] == id
            case None => forall id | id in ids :: !Ready(box, id, agent, now)
  {
    if ids != [] {
      var n: nat := |ids| - 1;
      var front := ids[..n];
      OldestIsLeast(box, front, agent, now);
      var rest := Oldest(box, front, agent, now);
      var r := Oldest(box, ids, agent, now);
      assert forall j :: 0 <= j < n ==> front[j] == ids[j];
      if rest.Some? {
        var k: nat :| LeastAt(box, front, agent, now, k) && front[k] == rest.value;
        assert r == rest ==> LeastAt(box, ids, agent, now, k);
      }
      assert r.Some? && r != rest ==> LeastAt(box, ids, agent, now, n);
    }
  }

  // ----- Runs, and what they did -----

  datatype Op =
    | Put(message: Message)
    | Take(agent: string, lease: Option<Lease>, now: int)
    | Finish(id: string, status: Status, fence: Option<Claim>)

  datatype Entry =
    | Claimed(id: string, claim: Claim, at: int)
    | Finished(id: string, fence: Claim)

  datatype World = World(box: Box, log: seq<Entry>)

  const START: World := World(EMPTY, [])

  function Next(w: World, op: Op): World {
    match op
    case Put(m) => w.(box := Enqueued(w.box, m))
    case Take(agent, lease, now) =>
      var (box', taken) := ClaimedNext(w.box, agent, lease, now);
      World(box', w.log + if taken.Some? && taken.value.claim.Some?
                          then [Claimed(taken.value.id, taken.value.claim.value, now)] else [])
    case Finish(id, status, fence) =>
      var (box', ok) := CompletedBy(w.box, id, status, fence);
      World(box', w.log + if box' != w.box && fence.Some? then [Finished(id, fence.value)] else [])
  }

  function Run(w: World, ops: seq<Op>): World
    decreases |ops|
  {
    if ops == [] then w else Run(Next(w, ops[0]), ops[1..])
  }

  /** Producers enqueue queued copies, consumers claim with a lease and complete
      under a fence. */
  predicate Disciplined(op: Op) {
    match op
    case Put(m) => m.status.Queued? && m.claim.None?
    case Take(_, lease, _) => lease.Some?
    case Finish(_, status, fence) => Terminal(status) && fence.Some?
  }

  // ----- The simple protocol a run refines -----

  /** Where one message stands: never claimed, held by its latest claim, or done. */
  datatype Phase = Open | Held(claim: Claim) | Closed

  function PhaseOf(log: seq<Entry>, id: string): Phase {
    if log == [] then Open
    else
      var last := log[|log| - 1];
      if last.id != id then PhaseOf(log[..|log| - 1], id)
      else if last.Claimed? then Held(last.claim) else Closed
  }

  /** A claim starts when the one before has run out, with the next epoch; only
      the latest claimer completes, and nothing follows a completion. */
  predicate Allowed(phase: Phase, e: Entry) {
    match e
    case Claimed(_, claim, at) =>
      && at < claim.expiresAt
      && (match phase
          case Open => claim.epoch == 1
          case Held(c) => c.expiresAt <= at && claim.epoch == c.epoch + 1
          case Closed => false)
    case Finished(_, fence) =>
      && phase.Held? && phase.claim.holder == fence.holder
      && phase.claim.epoch == fence.epoch && phase.claim.token == fence.token
  }

  ghost predicate LogOk(log: seq<Entry>) {
    forall k :: 0 <= k < |log| ==> Allowed(PhaseOf(log[..k], log[k].id), log[k])
  }

  ghost predicate Stands(box: Box, id: string, phase: Phase) {
    match phase
    case Open =>
      && (id in box.messages ==> box.messages[id].status.Queued? && box.messages[id].claim.None?)
      && id !in box.claimEpochs
    case Held(c) =>
      && id in box.messages && box.messages[id].status.Delivered? && box.messages[id].claim == Some(c)
      && id in box.claimEpochs && box.claimEpochs[id] == c.epoch
    case Closed => id in box.messages && Terminal(box.messages[id].status) && box.messages[id].claim.None?
  }

  ghost predicate Inv(w: World) {
    && Valid(w.box) && LogOk(w.log)
    && forall id :: Stands(w.box, id, PhaseOf(w.log, id))
  }

  lemma PhaseSnoc(log: seq<Entry>, e: Entry, id: string)
    ensures PhaseOf(log + [e], id)
            == if e.id != id then PhaseOf(log, id) else if e.Claimed? then Held(e.claim) else Closed
  {
    assert (log + [e])[..|log|] == log;
  }

  lemma LogSnoc(log: seq<Entry>, e: Entry)
    requires LogOk(log) && Allowed(PhaseOf(log, e.id), e)
    ensures LogOk(log + [e])
  {
    var log' := log + [e];
    forall k | 0 <= k < |log'| ensures Allowed(PhaseOf(log'[..k], log'[k].id), log'[k]) {
      assert log'[..k] == log[..k];
      assert log[..|log|] == log;
    }
  }

  /** A step that changes one message only, and adds one allowed entry about it. */
  lemma OneMessageStep(w: World, w': World, e: Entry)
    requires Inv(w) && Valid(w'.box) && w'.log == w.log + [e]
    requires Allowed(PhaseOf(w.log, e.id), e)
    requires forall x :: x != e.id ==>
               && (x in w'.box.messages <==> x in w.box.messages)
               && (x in w.box.messages ==> w'.box.messages[x] == w.box.messages[x])
               && (x in w'.box.claimEpochs <==> x in w.box.claimEpochs)
               && (x in w.box.claimEpochs ==> w'.box.claimEpochs[x] == w.box.claimEpochs[x])
    requires Stands(w'.box, e.id, if e.Claimed? then Held(e.claim) else Closed)
    ensures Inv(w')
  {
    hide Allowed, LogOk, PhaseOf;
    LogSnoc(w.log, e);
    forall x ensures Stands(w'.box, x, PhaseOf(w'.log, x)) {
      assert Stands(w.box, x, PhaseOf(w.log, x));
      PhaseSnoc(w.log, e, x);
    }
  }

  lemma TakeStep(w: World, agent: string, lease: Option<Lease>, now: int)
    requires Inv(w) && lease.Some?
    ensures Inv(Next(w, Take(agent, lease, now)))
  {
    hide LogOk, Oldest, PhaseOf;
    OldestIsLeast(w.box, w.box.order, agent, now);
    var w' := Next(w, Take(agent, lease, now));
    match Oldest(w.box, w.box.order, agent, now) {
      case Some(id) =>
        assert Ready(w.box, id, agent, now);
        assert Stands(w.box, id, PhaseOf(w.log, id));
        var e := Claimed(id, w'.box.messages[id].claim.value, now);
        assert w'.log == w.log + [e];
        OneMessageStep(w, w', e);
      case None =>
        assert w'.log == w.log;
    }
  }

  lemma FinishStep(w: World, id: string, status: Status, fence: Option<Claim>)
    requires Inv(w) && Terminal(status) && fence.Some?
    ensures Inv(Next(w, Finish(id, status, fence)))
  {
    hide LogOk, PhaseOf;
    var w' := Next(w, Finish(id, status, fence));
    if w'.box != w.box {
      assert Stands(w.box, id, PhaseOf(w.log, id));
      OneMessageStep(w, w', Finished(id, fence.value));
    } else {
      assert w'.log == w.log;
    }
  }

  /** Every disciplined run refines the protocol. */
  lemma {:induction false} RunRefines(w: World, ops: seq<Op>)
    requires Inv(w) && forall op | op in ops :: Disciplined(op)
    ensures Inv(Run(w, ops))
    decreases |ops|
  {
    if ops != [] {
      assert ops[0] in ops && Disciplined(ops[0]);
      match ops[0] {
        case Put(_) =>
        case Take(agent, lease, now) => TakeStep(w, agent, lease, now);
        case Finish(id, status, fence) => FinishStep(w, id, status, fence);
      }
      RunRefines(Next(w, ops[0]), ops[1..]);
    }
  }

  // ----- What the protocol means for claims and completions -----

  /** The last entry about a message determines its phase. */
  lemma {:induction false} PhaseFromLast(log: seq<Entry>, i: nat, k: nat)
    requires i < k <= |log|
    requires forall j :: i < j < k ==> log[j].id != log[i].id
    ensures PhaseOf(log[..k], log[i].id) == if log[i].Claimed? then Held(log[i].claim) else Closed
    decreases k
  {
    assert log[..k][..k - 1] == log[..k - 1];
    if k > i + 1 {
      PhaseFromLast(log, i, k - 1);
    }
  }

  /** Two claims of one message never overlap in time, and nothing happens to a
      message after its completion. */
  lemma {:induction false} LaterEntry(log: seq<Entry>, i: nat, k: nat)
    requires LogOk(log) && i < k < |log| && log[i].id == log[k].id
    ensures log[i].Claimed?
    ensures log[k].Claimed? ==> log[i].claim.expiresAt <= log[k].at && log[i].claim.epoch < log[k].claim.epoch
    ensures log[k].Finished? ==> log[i].claim.epoch <= log[k].fence.epoch
    decreases k - i
  {
    if exists j :: i < j < k && log[j].id == log[i].id {
      var j :| i < j < k && log[j].id == log[i].id;
      LaterEntry(log, i, j);
      LaterEntry(log, j, k);
      assert log[..j] <= log && Allowed(PhaseOf(log[..j], log[j].id), log[j]);
    } else {
      PhaseFromLast(log, i, k);
    }
  }

  /** Over any disciplined run: claim intervals of one message are disjoint and
      their epochs increase, and a completion is the last thing that happens to a
      message, made by its latest claimer. */
  lemma MailboxSafety(ops: seq<Op>)
    requires forall op | op in ops :: Disciplined(op)
    ensures var log := Run(START, ops).log;
            forall i, k :: 0 <= i < k < |log| && log[i].id == log[k].id ==>
              && log[i].Claimed?
              && (log[k].Claimed? ==>
                    log[i].claim.expiresAt <= log[k].at && log[i].claim.epoch < log[k].claim.epoch)
              && (log[k].Finished? ==> log[i].claim.epoch <= log[k].fence.epoch)
    ensures var log := Run(START, ops).log;
            forall k :: 0 <= k < |log| && log[k].Finished? ==>
              exists i :: 0 <= i < k && log[i].id == log[k].id && log[i].Claimed?
                       && log[i].claim.epoch == log[k].fence.epoch && log[i].claim.token == log[k].fence.token
  {
    RunRefines(START, ops);
    var log := Run(START, ops).log;
    forall i, k | 0 <= i < k < |log| && log[i].id == log[k].id
      ensures log[i].Claimed?
      ensures log[k].Claimed? ==> log[i].claim.expiresAt <= log[k].at && log[i].claim.epoch < log[k].claim.epoch
      ensures log[k].Finished? ==> log[i].claim.epoch <= log[k].fence.epoch
    {
      LaterEntry(log, i, k);
    }
    forall k | 0 <= k < |log| && log[k].Finished?
      ensures exists i :: 0 <= i < k && log[i].id == log[k].id && log[i].Claimed?
                       && log[i].claim.epoch == log[k].fence.epoch && log[i].claim.token == log[k].fence.token
    {
      var i := HeldBy(log, k, log[k].id);
    }
  }

  lemma {:induction false} HeldBy(log: seq<Entry>, k: nat, id: string) returns (i: nat)
    requires k <= |log| && PhaseOf(log[..k], id).Held?
    ensures i < k && log[i].id == id && log[i].Claimed? && log[i].claim == PhaseOf(log[..k], id).claim
  {
    assert log[..k][..k - 1] == log[..k - 1];
    if log[k - 1].id == id {
      i := k - 1;
    } else {
      i := HeldBy(log, k - 1, id);
    }
  }

  // ----- Terminal messages -----

  /** The steps that may still change a message that is done: a completion without a
      fence and the enqueueing of a completed copy. */
  predicate MayOverwrite(op: Op, id: string) {
    (op.Finish? && op.id == id && op.fence.None?) || (op.Put? && op.message.id == id && op.message.status.Completed?)
  }

  lemma DoneStep(w: World, op: Op, id: string)
    requires id in w.box.messages && Terminal(w.box.messages[id].status)
    requires op.Finish? ==> Terminal(op.status)
    ensures var box' := Next(w, op).box;
            && id in box'.messages && Terminal(box'.messages[id].status)
            && (w.box.messages[id].claim.None? && !MayOverwrite(op, id) ==> box'.messages[id] == w.box.messages[id])
  {
    if op.Take? {
      OldestIsLeast(w.box, w.box.order, op.agent, op.now);
      hide Oldest;
    }
  }

  /** Once done, a message stays done whatever is enqueued, claimed and completed later,
      and it does not change at all but by the steps that may overwrite it. */
  lemma {:induction false} DoneForGood(w: World, ops: seq<Op>, id: string)
    requires id in w.box.messages && Terminal(w.box.messages[id].status)
    requires forall op | op in ops :: op.Finish? ==> Terminal(op.status)
    ensures var box' := Run(w, ops).box;
            && id in box'.messages && Terminal(box'.messages[id].status)
            && (w.box.messages[id].claim.None? && (forall op | op in ops :: !MayOverwrite(op, id)) ==>
                  box'.messages[id] == w.box.messages[id])
    decreases |ops|
  {
    hide Next, Terminal, MayOverwrite;
    if ops != [] {
      assert ops[0] in ops;
      DoneStep(w, ops[0], id);
      DoneForGood(Next(w, ops[0]), ops[1..], id);
    }
  }

  /** A completion changes a message that is already done exactly when it asks for
      another status and either carries no fence or that of a claim the message still
      has; a completed message has none, so only a completion without a fence does. */
  lemma OverwritesTerminal(box: Box, id: string, status: Status, fence: Option<Claim>)
    requires id in box.messages && Terminal(box.messages[id].status)
    ensures var m := box.messages[id];
            CompletedBy(box, id, status, fence).0 != box <==>
            status != m.status &&
              (fence.None? || (m.claim.Some? && m.claim.value.holder == fence.value.holder &&
                               m.claim.value.epoch == fence.value.epoch && m.claim.value.token == fence.value.token))
  {
    if status != box.messages[id].status && FenceHolds(box.messages[id], fence) {
      assert CompletedBy(box, id, status, fence).0.messages[id].status == status;
    }
  }

  // ----- What each operation does to a message, field by field -----

  /** A message not yet done takes the status it is completed with and loses its claim, when
      the completion carries no fence or that of the claim; otherwise nothing changes. */
  lemma CompletionStores(box: Box, id: string, status: Status, fence: Option<Claim>)
    requires id in box.messages && box.messages[id].status != status
    ensures var m := box.messages[id];
            var accepted := fence.None? ||
              (m.claim.Some? && m.claim.value.holder == fence.value.holder &&
               m.claim.value.epoch == fence.value.epoch && m.claim.value.token == fence.value.token);
            CompletedBy(box, id, status, fence) ==
              if accepted then
                (Box(box.messages[id := Message(m.id, m.toAgent, m.createdAt, status, None)], box.order,
                     box.claimEpochs), true)
              else (box, false)
  {
  }

  /** A claim takes a message as delivered and, with a lease, under a claim of the next
      epoch that runs for the lease's time; other messages stay. */
  lemma ClaimStores(box: Box, agent: string, lease: Option<Lease>, now: int)
    requires Valid(box)
    ensures var (box', taken) := ClaimedNext(box, agent, lease, now);
            match taken
            case None => box' == box && forall id | id in box.messages :: !Ready(box, id, agent, now)
            case Some(m) =>
              && Ready(box, m.id, agent, now)
              && box'.messages == box.messages[m.id := m] && box'.order == box.order
              && var was := box.messages[m.id];
              && m.id == was.id && m.toAgent == agent && m.createdAt == was.createdAt && m.status == Delivered
              && match lease
                 case None => m.claim == was.claim && box'.claimEpochs == box.claimEpochs
                 case Some(l) =>
                   var epoch := if m.id in box.claimEpochs then box.claimEpochs[m.id] + 1 else 1;
                   && m.claim == Some(Claim(l.holder, now + (if l.ttl > 1 then l.ttl else 1), epoch, l.token))
                   && box'.claimEpochs == box.claimEpochs[m.id := epoch]
  {
    OldestIsLeast(box, box.order, agent, now);
    hide Oldest;
  }

  /** A copy replaces a message only when it has got further: from queued to any other
      status, or from delivered, failed or aborted to completed. */
  lemma EnqueueKeepsProgress(box: Box, m: Message)
    ensures var box' := Enqueued(box, m);
            && (forall id :: id in box'.messages <==> id in box.messages || id == m.id)
            && (forall id | id in box.messages && id != m.id :: box'.messages[id] == box.messages[id])
            && box'.order == (if m.id in box.messages then box.order else box.order + [m.id])
            && box'.messages[m.id] ==
                 if m.id !in box.messages || (box.messages[m.id].status.Queued? && !m.status.Queued?)
                    || (!box.messages[m.id].status.Completed? && m.status.Completed?) then m
                 else box.messages[m.id]
  {
  }

  // ----- The store -----

  class InMemoryMailboxStore {
    var messages: map<string, Message>
    var order: seq<string>
    var claimEpochs: map<string, nat>

    function Contents(): Box
      reads this
    {
      Box(messages, order, claimEpochs)
    }

    constructor ()
      ensures Contents() == EMPTY
    {
      messages, order, claimEpochs := map[], [], map[];
    }

    method Enqueue(message: Message)
      modifies this
      ensures Contents() == Enqueued(old(Contents()), message)
    {
      if message.id in messages {
        messages := messages[message.id := PreserveProgress(messages[message.id], message)];
      } else {
        messages := messages[message.id := message];
        order := order + [message.id];
      }
    }

    method ClaimNext(agent: string, lease: Option<Lease>, now: int) returns (taken: Option<Message>)
      requires Valid(Contents())
      modifies this
      ensures (Contents(), taken) == ClaimedNext(old(Contents()), agent, lease, now)
    {
      var queued := Oldest(Contents(), order, agent, now);
      OldestIsLeast(Contents(), order, agent, now);
      if queued.None? {
        return None;
      }
      var id := queued.value;
      var m := messages[id];
      if lease.Some? {
        var epoch := (if id in claimEpochs then claimEpochs[id] else 0) + 1;
        claimEpochs := claimEpochs[id := epoch];
        m := m.(claim := Some(Claim(lease.value.holder, now + Lifetime(lease.value.ttl), epoch, lease.value.token)));
      }
      m := m.(status := Delivered);
      messages := messages[id := m];
      return Some(m);
    }

    method Complete(id: string, status: Status, fence: Option<Claim>) returns (ok: bool)
      modifies this
      ensures (Contents(), ok) == CompletedBy(old(Contents()), id, status, fence)
    {
      if id !in messages {
        return true;
      }
      var current := messages[id];
      if current.status == status {
        return true;
      }
      if !FenceHolds(current, fence) {
        return false;
      }
      messages := messages[id := current.(status := status, claim := None)];
      return true;
    }
  }
}
