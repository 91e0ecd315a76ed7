/** Compaction of the usage events in a thread's event log. */
module UsageCompaction {

  import opened Wrappers

  /** Usage events are coalesced per day and model; a timestamp that does not parse
      is a day of its own. */
  datatype Stamp = Time(ms: int) | Unparsed(text: string)

  datatype Event =
    | Usage(seqNo: nat, stamp: Stamp, model: string)
    | Other(seqNo: nat)

  datatype Day = Date(n: int) | Text(text: string)

  datatype Bucket = Bucket(day: Day, model: string)

  const MS_PER_DAY := 86_400_000

  function BucketOf(e: Event): Bucket
    requires e.Usage?
  {
    Bucket(match e.stamp
           case Time(ms) => Date(ms / MS_PER_DAY)
           case Unparsed(text) => Text(text),
           e.model)
  }

  /** A usage event older than the cutoff. */
  predicate Old(e: Event, cutoff: int) {
    e.Usage? && e.stamp.Time? && e.stamp.ms < cutoff
  }

  /** The last usage event older than the cutoff. */
  ghost predicate LatestOld(events: seq<Event>, cutoff: int, i: nat) {
    i < |events| && Old(events[i], cutoff) && forall j :: i < j < |events| ==> !Old(events[j], cutoff)
  }

  /** The usage events compaction looks at: the others are dropped outright. */
  ghost predicate Retained(events: seq<Event>, cutoff: int, i: nat) {
    i < |events| && events[i].Usage? && (!Old(events[i], cutoff) || LatestOld(events, cutoff, i))
  }

  ghost predicate LastOfBucket(events: seq<Event>, cutoff: int, i: nat) {
    && Retained(events, cutoff, i)
    && forall j :: i < j < |events| && Retained(events, cutoff, j) ==> BucketOf(events[j]) != BucketOf(events[i])
  }

  /** What survives: every event that is not about usage, the last retained usage
      event of each bucket, and the latest one before the cutoff. */
  ghost predicate Survives(events: seq<Event>, cutoff: int, i: nat) {
    i < |events| && (events[i].Usage? ==> LatestOld(events, cutoff, i) || LastOfBucket(events, cutoff, i))
  }

  ghost function Survivors(events: seq<Event>, cutoff: int, n: nat): seq<Event>
    requires n <= |events|
  {
    if n == 0 then []
    else Survivors(events, cutoff, n - 1) + if Survives(events, cutoff, n - 1) then [events[n - 1]] else []
  }

  ghost function Compacted(events: seq<Event>, cutoff: int): seq<Event> {
    Survivors(events, cutoff, |events|)
  }

  /** Index of the last usage event, of the last one before the cutoff. */
  method LatestIndexes(events: seq<Event>, cutoff: int) returns (latestUsage: int, latestOld: int)
    ensures -1 <= latestUsage < |events| && -1 <= latestOld < |events|
    ensures latestUsage >= 0 ==> events[latestUsage].Usage?
    ensures forall j :: latestUsage < j < |events| ==> !events[j].Usage?
    ensures latestOld >= 0 ==> LatestOld(events, cutoff, latestOld)
    ensures latestOld < 0 ==> forall i: nat :: !LatestOld(events, cutoff, i)
  {
    latestUsage, latestOld := -1, -1;
    for index := 0 to |events|
      invariant -1 <= latestUsage < index && -1 <= latestOld < index
      invariant latestUsage >= 0 ==> events[latestUsage].Usage?
      invariant forall j :: latestUsage < j < index ==> !events[j].Usage?
      invariant latestOld >= 0 ==> Old(events[latestOld], cutoff)
      invariant forall j :: latestOld < j < index ==> !Old(events[j], cutoff)
    {
      var event := events[index];
      if !event.Usage? {
        continue;
      }
      latestUsage := index;
      if event.stamp.Time? && event.stamp.ms < cutoff {
        latestOld := index;
      }
    }
  }

  /** The table holds, per bucket, its last retained event before position `n`. */
  ghost predicate TableOk(events: seq<Event>, cutoff: int, n: nat, table: map<Bucket, nat>)
    requires n <= |events|
  {
    && (forall b | b in table :: LastBefore(events, cutoff, n, b, table[b]))
    && (forall j: nat :: j < n && Retained(events, cutoff, j) ==> BucketOf(events[j]) in table)
  }

  ghost predicate LastBefore(events: seq<Event>, cutoff: int, n: nat, b: Bucket, i: nat)
    requires n <= |events|
  {
    && i < n && Retained(events, cutoff, i) && BucketOf(events[i]) == b
    && forall j: nat :: i < j < n && Retained(events, cutoff, j) ==> BucketOf(events[j]) != b
  }

  /** Position `i` is to be kept, as far as the events before `n` tell. */
  ghost predicate KeptSoFar(events: seq<Event>, cutoff: int, n: nat, i: nat)
    requires n <= |events|
  {
    && i < n
    && (events[i].Usage? ==> LatestOld(events, cutoff, i) || LastBefore(events, cutoff, n, BucketOf(events[i]), i))
  }

  lemma SkipStep(events: seq<Event>, cutoff: int, n: nat, table: map<Bucket, nat>, i: nat)
    requires n < |events| && TableOk(events, cutoff, n, table) && !Retained(events, cutoff, n)
    ensures TableOk(events, cutoff, n + 1, table)
    ensures KeptSoFar(events, cutoff, n + 1, i) <==> KeptSoFar(events, cutoff, n, i) || (i == n && !events[n].Usage?)
  {
  }

  lemma RetainStep(events: seq<Event>, cutoff: int, n: nat, table: map<Bucket, nat>, i: nat)
    requires n < |events| && TableOk(events, cutoff, n, table) && Retained(events, cutoff, n)
    ensures TableOk(events, cutoff, n + 1, table[BucketOf(events[n]) := n])
    ensures var b := BucketOf(events[n]);
            KeptSoFar(events, cutoff, n + 1, i) <==>
              || i == n
              || (KeptSoFar(events, cutoff, n, i) && !(b in table && table[b] == i && !LatestOld(events, cutoff, i)))
  {
  }

  /** The second loop: the positions to keep. */
  method MarkKept(events: seq<Event>, cutoff: int, latestUsage: int, latestOld: int) returns (keep: set<nat>)
    requires -1 <= latestUsage < |events| && -1 <= latestOld < |events|
    requires latestUsage >= 0 ==> events[latestUsage].Usage?
    requires forall j :: latestUsage < j < |events| ==> !events[j].Usage?
    requires latestOld >= 0 ==> LatestOld(events, cutoff, latestOld)
    requires latestOld < 0 ==> forall i: nat :: !LatestOld(events, cutoff, i)
    ensures forall i: nat :: i in keep <==> Survives(events, cutoff, i)
  {
    hide TableOk, KeptSoFar;
    keep := {};
    var latestByBucket: map<Bucket, nat> := map[];
    KeptFromTo(events, cutoff, 0);
    forall i: nat { KeptFromTo(events, cutoff, i); }
    for index := 0 to |events|
      invariant TableOk(events, cutoff, index, latestByBucket)
      invariant forall i: nat :: i in keep <==> KeptSoFar(events, cutoff, index, i)
    {
      var event := events[index];
      if !Retained(events, cutoff, index) {
        forall i: nat { SkipStep(events, cutoff, index, latestByBucket, i); }
      } else {
        forall i: nat { RetainStep(events, cutoff, index, latestByBucket, i); }
      }
      if !event.Usage? {
        keep := keep + {index};
        continue;
      }
      var retain := index == latestUsage || index == latestOld || event.stamp.Unparsed? || event.stamp.ms >= cutoff;
      if !retain {
        continue;
      }
      var bucket := BucketOf(event);
      if bucket in latestByBucket && latestByBucket[bucket] != latestOld {
        assert LatestOld(events, cutoff, latestByBucket[bucket]) <==> latestByBucket[bucket] == latestOld;
        keep := keep - {latestByBucket[bucket]};
      }
      keep := keep + {index};
      latestByBucket := latestByBucket[bucket := index];
    }
    forall i: nat ensures i in keep <==> Survives(events, cutoff, i) {
      KeptFromTo(events, cutoff, i);
    }
  }

  lemma KeptFromTo(events: seq<Event>, cutoff: int, i: nat)
    ensures TableOk(events, cutoff, 0, map[]) && !KeptSoFar(events, cutoff, 0, i)
    ensures KeptSoFar(events, cutoff, |events|, i) <==> Survives(events, cutoff, i)
  {
  }

  method CompactUsageEvents(events: seq<Event>, cutoff: Option<int>) returns (result: seq<Event>)
    ensures cutoff.None? ==> result == events
    ensures cutoff.Some? ==> result == Compacted(events, cutoff.value)
  {
    if cutoff.None? {
      return events;
    }
    var latestUsage, latestOld := LatestIndexes(events, cutoff.value);
    if latestUsage < 0 {
      NoUsageNoChange(events, cutoff.value, |events|);
      assert events[..|events|] == events;
      return events;
    }
    hide Survives;
    var keep := MarkKept(events, cutoff.value, latestUsage, latestOld);
    result := [];
    for i := 0 to |events|
      invariant result == Survivors(events, cutoff.value, i)
    {
      if i in keep {
        result := result + [events[i]];
      }
    }
  }

  lemma NoUsageNoChange(events: seq<Event>, cutoff: int, n: nat)
    requires n <= |events| && forall j :: 0 <= j < |events| ==> !events[j].Usage?
    ensures Survivors(events, cutoff, n) == events[..n]
  {
  }

  // ----- What compaction keeps -----

  /** The surviving positions, in order. */
  ghost function Kept(events: seq<Event>, cutoff: int, n: nat): seq<nat>
    requires n <= |events|
  {
    if n == 0 then [] else Kept(events, cutoff, n - 1) + if Survives(events, cutoff, n - 1) then [n - 1] else []
  }

  /** The result is a subsequence: position by position, its events are those at
      the surviving positions, in increasing order, and all of them. */
  lemma {:induction false} KeptSpec(events: seq<Event>, cutoff: int, n: nat)
    requires n <= |events|
    ensures var kept, c := Kept(events, cutoff, n), Survivors(events, cutoff, n);
            && |kept| == |c|
            && (forall k :: 0 <= k < |c| ==>
                  kept[k] < n && Survives(events, cutoff, kept[k]) && c[k] == events[kept[k]])
            && (forall j, k :: 0 <= j < k < |kept| ==> kept[j] < kept[k])
            && (forall i: nat :: i < n && Survives(events, cutoff, i) ==> i in kept)
  {
    hide Survives;
    if n > 0 {
      KeptSpec(events, cutoff, n - 1);
    }
  }

  lemma {:induction false} AllSurvive(events: seq<Event>, cutoff: int, n: nat)
    requires n <= |events| && forall i: nat :: i < |events| ==> Survives(events, cutoff, i)
    ensures Survivors(events, cutoff, n) == events[..n]
  {
    hide Survives;
    if n > 0 {
      AllSurvive(events, cutoff, n - 1);
    }
  }

  lemma SurvivorSurvives(events: seq<Event>, cutoff: int, k: nat)
    requires k < |Compacted(events, cutoff)|
    ensures Survives(Compacted(events, cutoff), cutoff, k)
  {
    hide Survivors, Kept;
    KeptSpec(events, cutoff, |events|);
    var c, kept := Compacted(events, cutoff), Kept(events, cutoff, |events|);
    var i := kept[k];
    if c[k].Usage? {
      if LatestOld(events, cutoff, i) {
        assert LatestOld(c, cutoff, k);
      } else {
        assert Retained(c, cutoff, k);
        forall j | k < j < |c| && Retained(c, cutoff, j) ensures BucketOf(c[j]) != BucketOf(c[k]) {
          assert Survives(events, cutoff, kept[j]) && Retained(events, cutoff, kept[j]);
        }
      }
    }
  }

  /** Compacting again with the same cutoff changes nothing. */
  lemma CompactionIdempotent(events: seq<Event>, cutoff: int)
    ensures Compacted(Compacted(events, cutoff), cutoff) == Compacted(events, cutoff)
  {
    hide Survivors;
    var c := Compacted(events, cutoff);
    forall k: nat | k < |c| ensures Survives(c, cutoff, k) {
      SurvivorSurvives(events, cutoff, k);
    }
    AllSurvive(c, cutoff, |c|);
    assert c[..|c|] == c;
  }

  function NonUsage(events: seq<Event>): seq<Event> {
    if events == [] then []
    else
      var n := |events| - 1;
      NonUsage(events[..n]) + if events[n].Usage? then [] else [events[n]]
  }

  /** No event of another kind is lost. */
  lemma {:induction false} OthersKept(events: seq<Event>, cutoff: int, n: nat)
    requires n <= |events|
    ensures NonUsage(Survivors(events, cutoff, n)) == NonUsage(events[..n])
  {
    if n > 0 {
      OthersKept(events, cutoff, n - 1);
      var before := Survivors(events, cutoff, n - 1);
      assert events[..n][..n - 1] == events[..n - 1];
      assert (before + [events[n - 1]])[..|before|] == before;
      if !Survives(events, cutoff, n - 1) {
        assert Survivors(events, cutoff, n) == before;
      }
    }
  }

  /** The last event always survives. */
  lemma LastEventKept(events: seq<Event>, cutoff: int)
    requires events != []
    ensures var c := Compacted(events, cutoff); c != [] && c[|c| - 1] == events[|events| - 1]
  {
    var i: nat := |events| - 1;
    if Old(events[i], cutoff) {
      assert LatestOld(events, cutoff, i);
    }
    assert Survives(events, cutoff, i);
  }

  /** Every retained usage event is represented by the last one of its bucket. */
  lemma {:induction false} BucketRepresented(events: seq<Event>, cutoff: int, i: nat) returns (j: nat)
    requires Retained(events, cutoff, i)
    ensures i <= j < |events| && LastOfBucket(events, cutoff, j) && BucketOf(events[j]) == BucketOf(events[i])
    ensures Survives(events, cutoff, j)
    decreases |events| - i
  {
    if LastOfBucket(events, cutoff, i) {
      j := i;
    } else {
      var k: nat :| i < k < |events| && Retained(events, cutoff, k) && BucketOf(events[k]) == BucketOf(events[i]);
      j := BucketRepresented(events, cutoff, k);
    }
  }

  /** At most one usage event from before the cutoff survives, the latest one. */
  lemma OneOldSurvives(events: seq<Event>, cutoff: int, i: nat)
    requires Survives(events, cutoff, i) && Old(events[i], cutoff)
    ensures LatestOld(events, cutoff, i)
  {
  }

  /** Both stamps fall on the same day, counted from the epoch, or fail to parse alike. */
  predicate SameDay(a: Stamp, b: Stamp) {
    match (a, b)
    case (Time(x), Time(y)) => x / 86_400_000 == y / 86_400_000
    case (Unparsed(x), Unparsed(y)) => x == y
    case _ => false
  }

  lemma BucketsMatch(d: Event, e: Event)
    requires d.Usage? && e.Usage?
    ensures BucketOf(d) == BucketOf(e) <==> d.model == e.model && SameDay(d.stamp, e.stamp)
  {
  }

  /** Of the usage events before the cutoff exactly the last survives; another one does
      exactly when every later one of its model and day is before the cutoff too, and not
      the last of those. */
  lemma SurvivesIff(events: seq<Event>, cutoff: int, i: nat)
    requires i < |events| && events[i].Usage?
    ensures var early := (e: Event) => e.Usage? && e.stamp.Time? && e.stamp.ms < cutoff;
            Survives(events, cutoff, i) <==>
              if early(events[i]) then forall j :: i < j < |events| ==> !early(events[j])
              else
                forall j | i < j < |events| && events[j].Usage? && events[j].model == events[i].model
                           && SameDay(events[j].stamp, events[i].stamp) ::
                  early(events[j]) && exists k :: j < k < |events| && early(events[k])
  {
  }

  function HighestSeq(events: seq<Event>): nat {
    if events == [] then 0
    else
      var n := |events| - 1;
      var rest := HighestSeq(events[..n]);
      if rest > events[n].seqNo then rest else events[n].seqNo
  }

  predicate SeqOrdered(events: seq<Event>) {
    forall i, j :: 0 <= i < j < |events| ==> events[i].seqNo <= events[j].seqNo
  }

  lemma {:induction false} HighestIsLast(events: seq<Event>)
    requires events != [] && SeqOrdered(events)
    ensures HighestSeq(events) == events[|events| - 1].seqNo
    decreases |events|
  {
    var n := |events| - 1;
    if n > 0 {
      HighestIsLast(events[..n]);
    } else {
      assert events[..0] == [];
    }
  }

  /** On a log in sequence order the highest sequence number is unchanged. */
  lemma HighestSeqUnchanged(events: seq<Event>, cutoff: int)
    requires SeqOrdered(events)
    ensures HighestSeq(Compacted(events, cutoff)) == HighestSeq(events)
  {
    var c := Compacted(events, cutoff);
    KeptSpec(events, cutoff, |events|);
    if events != [] {
      LastEventKept(events, cutoff);
      var kept := Kept(events, cutoff, |events|);
      assert forall i, j :: 0 <= i < j < |c| ==> kept[i] < kept[j] && c[i].seqNo <= c[j].seqNo;
      HighestIsLast(events);
      HighestIsLast(c);
    }
  }
}
