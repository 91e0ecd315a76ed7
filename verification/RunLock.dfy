/** The promise-chain lock of the in-memory stores, and the versioned updates it
    serialises.  One key is modelled; other keys have queues of their own. */
module RunLock {

  import opened Wrappers

  // ----- The lock as a state machine over its asynchronous steps -----

  datatype Phase = Waiting | Running | Settled | Cleaned

  /** An operation waits for the promise that was the tail when it arrived. */
  datatype Ticket = Ticket(previous: Option<nat>, phase: Phase)

  /** The map entry of the key (`tail`), and the operations in order of arrival. */
  datatype Lock = Lock(tail: Option<nat>, tickets: seq<Ticket>)

  const IDLE: Lock := Lock(None, [])

  datatype Step =
    | Arrive          // read the tail, wait for it, become the tail
    | Start(i: nat)   // the awaited promise has settled
    | Settle(i: nat)  // the operation returned or threw
    | Clean(i: nat)   // the entry is removed if it is still this operation's

  predicate Done(t: Ticket) {
    t.phase == Settled || t.phase == Cleaned
  }

  predicate Enabled(l: Lock, step: Step) {
    match step
    case Arrive => true
    case Start(i) =>
      && i < |l.tickets| && l.tickets[i].phase == Waiting
      && (l.tickets[i].previous.Some? ==>
            l.tickets[i].previous.value < |l.tickets| && Done(l.tickets[l.tickets[i].previous.value]))
    case Settle(i) => i < |l.tickets| && l.tickets[i].phase == Running
    case Clean(i) => i < |l.tickets| && l.tickets[i].phase == Settled
  }

  function WithPhase(l: Lock, i: nat, phase: Phase): Lock
    requires i < |l.tickets|
  {
    l.(tickets := l.tickets[i := l.tickets[i].(phase := phase)])
  }

  function Next(l: Lock, step: Step): Lock
    requires Enabled(l, step)
  {
    match step
    case Arrive => Lock(Some(|l.tickets|), l.tickets + [Ticket(l.tail, Waiting)])
    case Start(i) => WithPhase(l, i, Running)
    case Settle(i) => WithPhase(l, i, Settled)
    case Clean(i) =>
      var l' := WithPhase(l, i, Cleaned);
      if l.tail == Some(i) then l'.(tail := None) else l'
  }

  /** Ticket `i` waits for the arrival before it, unless that one was done before
      it arrived; and it has not started before that one was done. */
  predicate Queued(tickets: seq<Ticket>, i: nat)
    requires i < |tickets|
  {
    && (tickets[i].previous.Some? ==> tickets[i].previous.value == i - 1)
    && (i > 0 && (tickets[i].previous.None? || tickets[i].phase != Waiting) ==> Done(tickets[i - 1]))
  }

  /** The tail is the last arrival, unless that one has been cleaned up. */
  predicate TailOk(l: Lock) {
    if l.tail.Some? then l.tail.value == |l.tickets| - 1 && l.tickets[l.tail.value].phase != Cleaned
    else |l.tickets| > 0 ==> l.tickets[|l.tickets| - 1].phase == Cleaned
  }

  ghost predicate Ordered(l: Lock) {
    (forall i :: 0 <= i < |l.tickets| ==> Queued(l.tickets, i)) && TailOk(l)
  }

  lemma OrderedStep(l: Lock, step: Step)
    requires Ordered(l) && Enabled(l, step)
    ensures Ordered(Next(l, step))
  {
    var l' := Next(l, step);
    forall k | 0 <= k < |l'.tickets| ensures Queued(l'.tickets, k) {
      if k < |l.tickets| {
        assert Queued(l.tickets, k);
      }
    }
  }

  lemma {:induction false} DoneBelow(l: Lock, i: nat, j: nat)
    requires Ordered(l) && i < j < |l.tickets| && l.tickets[j].phase != Waiting
    ensures Done(l.tickets[i])
    decreases j
  {
    assert Queued(l.tickets, j);
    if i < j - 1 {
      DoneBelow(l, i, j - 1);
    }
  }

  function Replay(l: Lock, steps: seq<Step>): Option<Lock>
    decreases |steps|
  {
    if steps == [] then Some(l)
    else if !Enabled(l, steps[0]) then None
    else Replay(Next(l, steps[0]), steps[1..])
  }

  lemma {:induction false} OrderedRun(l: Lock, steps: seq<Step>)
    requires Ordered(l) && Replay(l, steps).Some?
    ensures Ordered(Replay(l, steps).value)
    decreases |steps|
  {
    if steps != [] {
      OrderedStep(l, steps[0]);
      OrderedRun(Next(l, steps[0]), steps[1..]);
    }
  }

  /** Over every interleaving of arrivals, starts, settlements and clean-ups: at
      most one operation runs, operations run in order of arrival, and the map
      entry is gone once all are cleaned up. */
  lemma LockSafety(steps: seq<Step>)
    requires Replay(IDLE, steps).Some?
    ensures var l := Replay(IDLE, steps).value;
            && (forall i, j :: 0 <= i < j < |l.tickets| && l.tickets[j].phase != Waiting ==> Done(l.tickets[i]))
            && ((forall i :: 0 <= i < |l.tickets| ==> l.tickets[i].phase == Cleaned) ==> l.tail.None?)
  {
    OrderedRun(IDLE, steps);
    var l := Replay(IDLE, steps).value;
    forall i, j | 0 <= i < j < |l.tickets| && l.tickets[j].phase != Waiting ensures Done(l.tickets[i]) {
      DoneBelow(l, i, j);
    }
  }

  /** An operation that has not started yet can start, or an earlier one is still
      to settle: the queue never stalls. */
  lemma {:induction false} NeverStalls(l: Lock, i: nat) returns (k: nat)
    requires Ordered(l) && i < |l.tickets| && l.tickets[i].phase == Waiting
    ensures k <= i && (Enabled(l, Start(k)) || Enabled(l, Settle(k)))
    decreases i
  {
    assert Queued(l.tickets, i);
    if Enabled(l, Start(i)) {
      k := i;
    } else if l.tickets[i - 1].phase == Waiting {
      k := NeverStalls(l, i - 1);
    } else {
      k := i - 1;
    }
  }

  // ----- Versioned updates under the lock -----

  datatype Fence = Fence(holder: string, epoch: nat, token: nat)

  /** An update: the version it expects, the fence it carries, and a mutator that may throw. */
  datatype Request = Request(expected: Option<nat>, fence: Option<Fence>, mutate: string -> Option<string>)

  datatype Run = Run(value: string, version: nat)

  /** What an update finds when it starts: the run, and the fence of the lease in force. */
  datatype Read = Read(run: Run, inForce: Option<Fence>)

  datatype Accepted = Accepted(request: Request, inForce: Option<Fence>)

  /** The run, the lock, and per ticket the request and what it read at its start. */
  datatype Store = Store(run: Run, lock: Lock, requests: seq<Request>, seen: map<nat, Read>, accepted: seq<Accepted>)

  datatype Event =
    | Ask(request: Request)
    | Begin(i: nat, inForce: Option<Fence>)
    | End(i: nat)
    | CleanUp(i: nat)

  function LockStep(e: Event): Step {
    match e
    case Ask(_) => Arrive
    case Begin(i, _) => Start(i)
    case End(i) => Settle(i)
    case CleanUp(i) => Clean(i)
  }

  predicate Possible(s: Store, e: Event) {
    Enabled(s.lock, LockStep(e)) && (e.End? ==> e.i in s.seen && e.i < |s.requests|)
  }

  /** What the update makes of the run it read: nothing if its fence is not the one in
      force, the version does not match or the mutator throws. */
  function Outcome(read: Read, request: Request): Option<Run> {
    if request.fence.Some? && request.fence != read.inForce then None
    else if request.expected.Some? && request.expected.value != read.run.version then None
    else
      match request.mutate(read.run.value)
      case None => None
      case Some(next) => Some(Run(next, read.run.version + 1))
  }

  function After(s: Store, e: Event): Store
    requires Possible(s, e)
  {
    var s' := s.(lock := Next(s.lock, LockStep(e)));
    match e
    case Ask(request) => s'.(requests := s.requests + [request])
    case Begin(i, inForce) => s'.(seen := s.seen[i := Read(s.run, inForce)])
    case End(i) =>
      (match Outcome(s.seen[i], s.requests[i])
       case None => s'
       case Some(run) => s'.(run := run, accepted := s.accepted + [Accepted(s.requests[i], s.seen[i].inForce)]))
    case CleanUp(_) => s'
  }

  function Play(s: Store, events: seq<Event>): Option<Store>
    decreases |events|
  {
    if events == [] then Some(s)
    else if !Possible(s, events[0]) then None
    else Play(After(s, events[0]), events[1..])
  }

  /** The run after the accepted requests, one after the other. */
  ghost predicate IsFold(init: string, accepted: seq<Accepted>, run: Run) {
    if accepted == [] then run == Run(init, 0)
    else
      var front, last := accepted[..|accepted| - 1], accepted[|accepted| - 1];
      exists read: Run :: IsFold(init, front, read) && Outcome(Read(read, last.inForce), last.request) == Some(run)
  }

  /** Whoever runs has read the run as it still is. */
  ghost predicate Orderly(s: Store) {
    && Ordered(s.lock) && |s.requests| == |s.lock.tickets|
    && (forall i :: 0 <= i < |s.lock.tickets| && s.lock.tickets[i].phase == Running ==>
                      i in s.seen && s.seen[i].run == s.run)
  }

  lemma FoldGrows(init: string, accepted: seq<Accepted>, run: Run, last: Accepted, run': Run)
    requires IsFold(init, accepted, run) && Outcome(Read(run, last.inForce), last.request) == Some(run')
    ensures IsFold(init, accepted + [last], run')
  {
    assert (accepted + [last])[..|accepted + [last]| - 1] == accepted;
  }

  lemma OrderlyStep(s: Store, e: Event)
    requires Orderly(s) && Possible(s, e)
    ensures Orderly(After(s, e))
  {
    hide Outcome;
    var s' := After(s, e);
    OrderedStep(s.lock, LockStep(e));
    if e.Begin? || e.End? {
      forall j | 0 <= j < |s.lock.tickets| && j != e.i ensures s'.lock.tickets[j].phase != Running {
        if j < e.i { DoneBelow(s'.lock, j, e.i); }
        if e.i < j && s.lock.tickets[j].phase != Waiting { DoneBelow(s.lock, e.i, j); }
      }
    }
  }

  lemma {:induction false} SerialRun(init: string, s: Store, events: seq<Event>)
    requires Orderly(s) && IsFold(init, s.accepted, s.run) && Play(s, events).Some?
    ensures var s' := Play(s, events).value; Orderly(s') && IsFold(init, s'.accepted, s'.run)
    decreases |events|
  {
    if events != [] {
      var e := events[0];
      OrderlyStep(s, e);
      if e.End? && Outcome(s.seen[e.i], s.requests[e.i]).Some? {
        var last := Accepted(s.requests[e.i], s.seen[e.i].inForce);
        FoldGrows(init, s.accepted, s.run, last, After(s, e).run);
      }
      hide IsFold, Outcome, Ordered;
      SerialRun(init, After(s, e), events[1..]);
    }
  }

  lemma {:induction false} FoldVersions(init: string, accepted: seq<Accepted>, run: Run)
    requires IsFold(init, accepted, run)
    ensures run.version == |accepted|
    ensures forall k :: 0 <= k < |accepted| ==>
      && (accepted[k].request.expected.Some? ==> accepted[k].request.expected.value == k)
      && (accepted[k].request.fence.Some? ==> accepted[k].request.fence == accepted[k].inForce)
  {
    if accepted != [] {
      var n := |accepted| - 1;
      var last := accepted[n];
      var read: Run :|
        IsFold(init, accepted[..n], read) && Outcome(Read(read, last.inForce), last.request) == Some(run);
      FoldVersions(init, accepted[..n], read);
      forall k | 0 <= k < |accepted|
        ensures accepted[k].request.expected.Some? ==> accepted[k].request.expected.value == k
        ensures accepted[k].request.fence.Some? ==> accepted[k].request.fence == accepted[k].inForce
      {
        if k < n { assert accepted[..n][k] == accepted[k]; }
      }
    }
  }

  /** The value the accepted mutators make of the first one, each applied to what the one
      before it returned; nothing when one of them returns nothing. */
  function Mutated(init: string, accepted: seq<Accepted>): Option<string>
    decreases |accepted|
  {
    if accepted == [] then Some(init)
    else
      match Mutated(init, accepted[..|accepted| - 1])
      case None => None
      case Some(value) => accepted[|accepted| - 1].request.mutate(value)
  }

  lemma {:induction false} FoldMutates(init: string, accepted: seq<Accepted>, run: Run)
    requires IsFold(init, accepted, run)
    ensures Mutated(init, accepted) == Some(run.value)
    decreases |accepted|
  {
    if accepted != [] {
      var front, last := accepted[..|accepted| - 1], accepted[|accepted| - 1];
      var read: Run :| IsFold(init, front, read) && Outcome(Read(read, last.inForce), last.request) == Some(run);
      FoldMutates(init, front, read);
    }
  }

  /** The requests in order of arrival. */
  function Asked(events: seq<Event>): seq<Request> {
    if events == [] then []
    else (if events[0].Ask? then [events[0].request] else []) + Asked(events[1..])
  }

  /** The fence in force when the operation started. */
  function BegunUnder(events: seq<Event>, i: nat): Option<Option<Fence>> {
    if events == [] then None
    else
      match BegunUnder(events[1..], i)
      case Some(inForce) => Some(inForce)
      case None => if events[0].Begin? && events[0].i == i then Some(events[0].inForce) else None
  }

  lemma {:induction false} PlayReads(s: Store, events: seq<Event>, i: nat)
    requires Play(s, events).Some?
    ensures var s' := Play(s, events).value;
            && s'.requests == s.requests + Asked(events)
            && match BegunUnder(events, i)
               case Some(inForce) => i in s'.seen && s'.seen[i].inForce == inForce
               case None => (i in s'.seen <==> i in s.seen) && (i in s.seen ==> s'.seen[i] == s.seen[i])
    decreases |events|
  {
    if events == [] {
      assert s.requests + [] == s.requests;
    } else {
      hide Outcome, Next, Enabled;
      var next := After(s, events[0]);
      PlayReads(next, events[1..], i);
      var first := if events[0].Ask? then [events[0].request] else [];
      assert next.requests == s.requests + first;
      assert (s.requests + first) + Asked(events[1..]) == s.requests + (first + Asked(events[1..]));
    }
  }

  /** An update that ends is accepted exactly when its fence, if any, was in force when it
      started, the version it expects, if any, is the current one, and its mutator returns a
      value for the current value; then that value is the run. */
  lemma EndDecides(init: string, events: seq<Event>, i: nat)
    requires var s := Play(Store(Run(init, 0), IDLE, [], EMPTY_READS, []), events);
             s.Some? && Possible(s.value, End(i))
    ensures i < |Asked(events)| && BegunUnder(events, i).Some?
    ensures var s := Play(Store(Run(init, 0), IDLE, [], EMPTY_READS, []), events).value;
            var s', request, inForce := After(s, End(i)), Asked(events)[i], BegunUnder(events, i).value;
            if && (request.fence.Some? ==> request.fence == inForce)
               && (request.expected.Some? ==> request.expected.value == s.run.version)
               && request.mutate(s.run.value).Some?
            then
              && s'.run == Run(request.mutate(s.run.value).value, s.run.version + 1)
              && s'.accepted == s.accepted + [Accepted(request, inForce)]
            else s'.run == s.run && s'.accepted == s.accepted
  {
    var s0 := Store(Run(init, 0), IDLE, [], EMPTY_READS, []);
    SerialRun(init, s0, events);
    PlayReads(s0, events, i);
    assert [] + Asked(events) == Asked(events);
    hide Play, IsFold, BegunUnder;
  }

  const EMPTY_READS: map<nat, Read> := map[]

  /** However updates overlap, the run is the fold of the accepted mutators, the
      version is their number, of two updates that expect the same version at most one is
      accepted, and one that carries a fence only if that was in force when it started. */
  lemma UpdatesAreSerial(init: string, events: seq<Event>)
    requires Play(Store(Run(init, 0), IDLE, [], EMPTY_READS, []), events).Some?
    ensures var s := Play(Store(Run(init, 0), IDLE, [], EMPTY_READS, []), events).value;
            && Mutated(init, s.accepted) == Some(s.run.value)
            && s.run.version == |s.accepted|
            && (forall i, j :: 0 <= i < j < |s.accepted| && s.accepted[i].request.expected.Some? ==>
                  s.accepted[i].request.expected != s.accepted[j].request.expected)
            && (forall i :: 0 <= i < |s.accepted| && s.accepted[i].request.fence.Some? ==>
                  s.accepted[i].request.fence == s.accepted[i].inForce)
  {
    var s0 := Store(Run(init, 0), IDLE, [], EMPTY_READS, []);
    SerialRun(init, s0, events);
    var s := Play(s0, events).value;
    FoldVersions(init, s.accepted, s.run);
    FoldMutates(init, s.accepted, s.run);
  }

  // ----- The body of `update`, as it runs inside the lock -----

  datatype Result = Ok(value: string) | NotFound | StaleFence | VersionMismatch | MutatorFailed

  datatype Lease = Lease(fence: Fence, expiresAt: int)

  class MultiAgentRunStore {
    var runs: map<string, string>
    var versions: map<string, nat>
    var leases: map<string, Lease>

    /** The fence of the run's lease, unless it has run out. */
    function InForce(runId: string, now: int): Option<Fence>
      reads this
    {
      if runId in leases && leases[runId].expiresAt > now then Some(leases[runId].fence) else None
    }

    function Version(runId: string): nat
      reads this
    {
      if runId in versions then versions[runId] else 0
    }

    constructor ()
      ensures runs == map[] && versions == map[] && leases == map[]
    {
      runs, versions, leases := map[], map[], map[];
    }

    method Save(runId: string, value: string)
      modifies this
      ensures runs == old(runs)[runId := value] && leases == old(leases)
      ensures versions == if runId in old(versions) then old(versions) else old(versions)[runId := 0]
    {
      runs := runs[runId := value];
      if runId !in versions {
        versions := versions[runId := 0];
      }
    }

    method Update(runId: string, request: Request, now: int) returns (result: Result)
      modifies this
      ensures leases == old(leases)
      ensures result.NotFound? <==> runId !in old(runs)
      ensures result.StaleFence? <==>
                && runId in old(runs) && request.fence.Some?
                && !(runId in old(leases) && old(leases)[runId].expiresAt > now
                     && old(leases)[runId].fence == request.fence.value)
      ensures result.VersionMismatch? <==>
                && runId in old(runs) && !result.StaleFence?
                && request.expected.Some? && request.expected.value != old(Version(runId))
      ensures result.Ok? <==>
                && runId in old(runs) && !result.StaleFence? && !result.VersionMismatch?
                && request.mutate(old(runs)[runId]).Some?
      ensures result.Ok? ==>
                && request.mutate(old(runs)[runId]) == Some(result.value)
                && runs == old(runs)[runId := result.value]
                && versions == old(versions)[runId := old(Version(runId)) + 1]
      ensures !result.Ok? ==> runs == old(runs) && versions == old(versions)
    {
      if runId !in runs {
        return NotFound;
      }
      if request.fence.Some? && InForce(runId, now) != request.fence {
        return StaleFence;
      }
      var current, currentVersion := runs[runId], Version(runId);
      if request.expected.Some? && request.expected.value != currentVersion {
        return VersionMismatch;
      }
      var next := request.mutate(current);
      if next.None? {
        return MutatorFailed;
      }
      runs := runs[runId := next.value];
      versions := versions[runId := currentVersion + 1];
      return Ok(next.value);
    }
  }
}
