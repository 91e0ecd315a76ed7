/** Assembly of streamed tool calls: fragments of several calls arrive interleaved
    and must be put back together call by call. */
module ToolCallDemux {

  import opened Wrappers

  /** One fragment; an empty id or name is an absent one. */
  datatype Delta = Delta(index: Option<nat>, id: string, name: string, arguments: Option<string>)

  datatype Pending = Pending(index: Option<nat>, name: string, arguments: string)

  datatype Entry = Entry(id: string, call: Pending)

  datatype Chunk =
    | ToolCallDelta(callId: string, name: string, fragment: string)
    | ToolCallComplete(callId: string, name: string, arguments: string)

  // ----- The pending map: entries in order of insertion -----

  function Position(p: seq<Entry>, id: string): (r: Option<nat>)
    ensures r.Some? ==> r.value < |p| && p[r.value].id == id
  {
    if p == [] then None
    else if p[0].id == id then Some(0)
    else
      match Position(p[1..], id)
      case None => None
      case Some(i) => Some(i + 1)
  }

  function Set(p: seq<Entry>, id: string, call: Pending): seq<Entry> {
    match Position(p, id)
    case Some(i) => p[i := Entry(id, call)]
    case None => p + [Entry(id, call)]
  }

  function Delete(p: seq<Entry>, id: string): seq<Entry> {
    match Position(p, id)
    case Some(i) => p[..i] + p[i + 1..]
    case None => p
  }

  /** The position of the first entry with the index. */
  function PositionByIndex(p: seq<Entry>, index: Option<nat>): (r: Option<nat>)
    ensures r.Some? ==> r.value < |p| && p[r.value].call.index == index
  {
    if index.None? || p == [] then None
    else if p[0].call.index == index then Some(0)
    else
      match PositionByIndex(p[1..], index)
      case None => None
      case Some(i) => Some(i + 1)
  }

  function Digits(n: nat): string {
    if n < 10 then [("0123456789")[n]] else Digits(n / 10) + [("0123456789")[n % 10]]
  }

  /** The id a fragment belongs to; a new id for a known index renames its entry. */
  function Resolve(p: seq<Entry>, d: Delta): (seq<Entry>, string) {
    match PositionByIndex(p, d.index)
    case Some(i) =>
      if d.id == "" then (p, p[i].id)
      else if p[i].id == d.id then (p, d.id)
      else (Set(Delete(p, p[i].id), d.id, p[i].call), d.id)
    case None => (p, if d.id != "" then d.id else "call_" + Digits(|p| + 1))
  }

  function Absorb(p: seq<Entry>, d: Delta): (seq<Entry>, seq<Chunk>) {
    var (p', id) := Resolve(p, d);
    var existing := match Position(p', id) case Some(i) => p'[i].call case None => Pending(d.index, "", "");
    var call := Pending(if d.index.Some? then d.index else existing.index,
                        if d.name != "" then d.name else existing.name,
                        existing.arguments + d.arguments.GetOr(""));
    (Set(p', id, call),
     if d.arguments.Some? then [ToolCallDelta(id, call.name, d.arguments.value)] else [])
  }

  function AbsorbAll(p: seq<Entry>, ds: seq<Delta>): (seq<Entry>, seq<Chunk>)
    decreases |ds|
  {
    if ds == [] then (p, [])
    else
      var n := |ds| - 1;
      var (p', chunks) := AbsorbAll(p, ds[..n]);
      var (p'', more) := Absorb(p', ds[n]);
      (p'', chunks + more)
  }

  function CompletionOfEntry(e: Entry): seq<Chunk> {
    if e.call.name == "" then [] else [ToolCallComplete(e.id, e.call.name, e.call.arguments)]
  }

  /** The named calls, finished in the order of their entries. */
  function Completions(p: seq<Entry>): seq<Chunk> {
    if p == [] then []
    else
      var n := |p| - 1;
      Completions(p[..n]) +
      CompletionOfEntry(p[n])
  }

  // ----- What the fragments of each call amount to -----

  /** The indexes in the order of their first fragment. */
  function Indexes(ds: seq<Delta>): seq<Option<nat>> {
    if ds == [] then []
    else
      var front, index := Indexes(ds[..|ds| - 1]), ds[|ds| - 1].index;
      if index in front then front else front + [index]
  }

  /** The id the first fragment of the call carries. */
  function IdOf(ds: seq<Delta>, index: Option<nat>): string {
    if ds == [] then ""
    else
      var n := |ds| - 1;
      if index in Indexes(ds[..n]) then IdOf(ds[..n], index)
      else if ds[n].index == index then ds[n].id else ""
  }

  /** The last name the call was given. */
  function NameOf(ds: seq<Delta>, index: Option<nat>): string {
    if ds == [] then ""
    else
      var n := |ds| - 1;
      if ds[n].index == index && ds[n].name != "" then ds[n].name else NameOf(ds[..n], index)
  }

  /** The argument fragments of the call, put together in order of arrival. */
  function ArgumentsOf(ds: seq<Delta>, index: Option<nat>): string {
    if ds == [] then ""
    else
      var n := |ds| - 1;
      ArgumentsOf(ds[..n], index) + if ds[n].index == index then ds[n].arguments.GetOr("") else ""
  }

  function CallOf(ds: seq<Delta>, index: Option<nat>): Entry {
    Entry(IdOf(ds, index), Pending(index, NameOf(ds, index), ArgumentsOf(ds, index)))
  }

  function CallsOf(ds: seq<Delta>, indexes: seq<Option<nat>>): seq<Entry> {
    if indexes == [] then []
    else
      var n := |indexes| - 1;
      CallsOf(ds, indexes[..n]) + [CallOf(ds, indexes[n])]
  }

  /** The call at position `k` when every call is assembled on its own. */
  function Demuxed(ds: seq<Delta>): seq<Entry> {
    CallsOf(ds, Indexes(ds))
  }

  /** Every fragment carries the index of its call; the first one of a call carries
      an id no other call has, the later ones carry that id or none. */
  predicate WellMarked(ds: seq<Delta>)
    decreases |ds|
  {
    ds != [] ==>
      var n := |ds| - 1;
      var front, d := ds[..n], ds[n];
      && WellMarked(front) && d.index.Some?
      && if d.index in Indexes(front) then d.id == "" || d.id == IdOf(front, d.index)
         else d.id != "" && forall k | k in Indexes(front) :: IdOf(front, k) != d.id
  }

  lemma {:induction false} CallsAt(ds: seq<Delta>, indexes: seq<Option<nat>>, k: nat)
    requires k < |indexes|
    ensures |CallsOf(ds, indexes)| == |indexes| && CallsOf(ds, indexes)[k] == CallOf(ds, indexes[k])
    decreases |indexes|
  {
    var n := |indexes| - 1;
    if k < n {
      CallsAt(ds, indexes[..n], k);
    } else if n > 0 {
      CallsAt(ds, indexes[..n], 0);
    }
  }

  lemma CallsLength(ds: seq<Delta>, indexes: seq<Option<nat>>)
    ensures |CallsOf(ds, indexes)| == |indexes|
  {
    if indexes != [] { CallsAt(ds, indexes, 0); }
  }

  lemma {:induction false} IndexesDistinct(ds: seq<Delta>)
    ensures forall i, j :: 0 <= i < j < |Indexes(ds)| ==> Indexes(ds)[i] != Indexes(ds)[j]
    decreases |ds|
  {
    if ds != [] { IndexesDistinct(ds[..|ds| - 1]); }
  }

  /** Calls are told apart by their ids as well. */
  lemma {:induction false} IdsDistinct(ds: seq<Delta>, j: Option<nat>, k: Option<nat>)
    requires WellMarked(ds) && j in Indexes(ds) && k in Indexes(ds) && j != k
    ensures IdOf(ds, j) != IdOf(ds, k) && IdOf(ds, j) != ""
    decreases |ds|
  {
    var front := ds[..|ds| - 1];
    if j in Indexes(front) && k in Indexes(front) {
      IdsDistinct(front, j, k);
    } else if j in Indexes(front) {
      IdNotEmpty(front, j);
    } else {
      assert IdOf(front, k) != ds[|ds| - 1].id;
    }
  }

  lemma {:induction false} IdNotEmpty(ds: seq<Delta>, j: Option<nat>)
    requires WellMarked(ds) && j in Indexes(ds)
    ensures IdOf(ds, j) != "" && j.Some?
    decreases |ds|
  {
    var front := ds[..|ds| - 1];
    if j in Indexes(front) { IdNotEmpty(front, j); }
  }

  lemma {:induction false} FirstPosition(p: seq<Entry>, i: nat)
    requires i < |p| && p[i].call.index.Some?
    requires forall k :: 0 <= k < i ==> p[k].id != p[i].id && p[k].call.index != p[i].call.index
    ensures Position(p, p[i].id) == Some(i) && PositionByIndex(p, p[i].call.index) == Some(i)
  {
    if i > 0 {
      assert forall k :: 0 <= k < i - 1 ==> p[1..][k] == p[k + 1];
      FirstPosition(p[1..], i - 1);
    }
  }

  /** Where a call stands in the assembled calls, looked up by id and by index. */
  lemma PositionOf(ds: seq<Delta>, i: nat)
    requires WellMarked(ds) && i < |Indexes(ds)|
    ensures var p, n := Demuxed(ds), Indexes(ds)[i];
            && |p| == |Indexes(ds)| && p[i] == CallOf(ds, n)
            && Position(p, IdOf(ds, n)) == Some(i) && PositionByIndex(p, n) == Some(i)
  {
    hide IdOf, NameOf, ArgumentsOf;
    var p, indexes := Demuxed(ds), Indexes(ds);
    CallsAt(ds, indexes, i);
    IndexesDistinct(ds);
    forall k | 0 <= k < i ensures p[k].id != p[i].id && p[k].call.index != p[i].call.index {
      CallsAt(ds, indexes, k);
      IdsDistinct(ds, indexes[k], indexes[i]);
    }
    IdNotEmpty(ds, indexes[i]);
    FirstPosition(p, i);
  }

  // ----- Assembling the mixed fragments assembles each call on its own -----

  lemma {:induction false} Unseen(ds: seq<Delta>, index: Option<nat>)
    requires index !in Indexes(ds)
    ensures NameOf(ds, index) == "" && ArgumentsOf(ds, index) == ""
    decreases |ds|
  {
    if ds != [] { Unseen(ds[..|ds| - 1], index); }
  }

  /** A fragment changes nothing about the calls it does not belong to. */
  lemma OtherCallsKept(ds: seq<Delta>, index: Option<nat>)
    requires ds != [] && index in Indexes(ds[..|ds| - 1])
    ensures index in Indexes(ds) && IdOf(ds, index) == IdOf(ds[..|ds| - 1], index)
    ensures index != ds[|ds| - 1].index ==> CallOf(ds, index) == CallOf(ds[..|ds| - 1], index)
  {
  }

  /** What the last fragment streams: under the id and name its call has by then. */
  function LastStreamed(ds: seq<Delta>): seq<Chunk>
    requires ds != []
  {
    var d := ds[|ds| - 1];
    if d.arguments.Some? then [ToolCallDelta(IdOf(ds, d.index), NameOf(ds, d.index), d.arguments.value)] else []
  }

  lemma KnownCallIsUpdated(ds: seq<Delta>, i: nat)
    requires ds != [] && WellMarked(ds)
    requires i < |Indexes(ds[..|ds| - 1])| && Indexes(ds[..|ds| - 1])[i] == ds[|ds| - 1].index
    ensures i < |Demuxed(ds[..|ds| - 1])|
    ensures Demuxed(ds) == Demuxed(ds[..|ds| - 1])[i := CallOf(ds, ds[|ds| - 1].index)]
  {
    var front, d := ds[..|ds| - 1], ds[|ds| - 1];
    var p, indexes := Demuxed(front), Indexes(front);
    assert Indexes(ds) == indexes;
    IndexesDistinct(front);
    hide Indexes, CallsOf, CallOf, WellMarked;
    CallsLength(front, indexes);
    CallsLength(ds, indexes);
    forall k | 0 <= k < |indexes| ensures Demuxed(ds)[k] == p[i := CallOf(ds, d.index)][k] {
      CallsAt(ds, indexes, k);
      CallsAt(front, indexes, k);
      OtherCallsKept(ds, indexes[k]);
    }
  }

  lemma KnownCallAbsorbed(ds: seq<Delta>, i: nat)
    requires ds != [] && WellMarked(ds)
    requires i < |Indexes(ds[..|ds| - 1])| && Indexes(ds[..|ds| - 1])[i] == ds[|ds| - 1].index
    ensures Absorb(Demuxed(ds[..|ds| - 1]), ds[|ds| - 1]) == (Demuxed(ds), LastStreamed(ds))
  {
    var front, d := ds[..|ds| - 1], ds[|ds| - 1];
    PositionOf(front, i);
    KnownCallIsUpdated(ds, i);
    assert d.index.Some? && (d.id == "" || d.id == IdOf(front, d.index));
    assert IdOf(ds, d.index) == IdOf(front, d.index) && NameOf(ds, d.index) == CallOf(ds, d.index).call.name;
    hide IdOf, NameOf, ArgumentsOf, WellMarked, Position, PositionByIndex, Indexes, Demuxed;
  }

  /** The first fragment of a call has an id and an index that no pending call has. */
  lemma NotYetPending(ds: seq<Delta>, k: nat)
    requires ds != [] && WellMarked(ds) && ds[|ds| - 1].index !in Indexes(ds[..|ds| - 1])
    requires k < |Demuxed(ds[..|ds| - 1])|
    ensures var e, d := Demuxed(ds[..|ds| - 1])[k], ds[|ds| - 1];
            e.id != d.id && e.call.index != d.index
  {
    var front, d := ds[..|ds| - 1], ds[|ds| - 1];
    assert forall j | j in Indexes(front) :: IdOf(front, j) != d.id;
    hide IdOf, NameOf, ArgumentsOf, WellMarked, Indexes, CallsOf;
    CallsLength(front, Indexes(front));
    CallsAt(front, Indexes(front), k);
    assert Indexes(front)[k] in Indexes(front);
  }

  lemma NewCallStarts(ds: seq<Delta>)
    requires ds != [] && WellMarked(ds) && ds[|ds| - 1].index !in Indexes(ds[..|ds| - 1])
    ensures var d := ds[|ds| - 1];
            CallOf(ds, d.index) == Entry(d.id, Pending(d.index, d.name, d.arguments.GetOr("")))
  {
    Unseen(ds[..|ds| - 1], ds[|ds| - 1].index);
  }

  lemma NewCallAbsorbed(ds: seq<Delta>)
    requires ds != [] && WellMarked(ds) && ds[|ds| - 1].index !in Indexes(ds[..|ds| - 1])
    ensures Absorb(Demuxed(ds[..|ds| - 1]), ds[|ds| - 1]) == (Demuxed(ds), LastStreamed(ds))
  {
    var front, d := ds[..|ds| - 1], ds[|ds| - 1];
    var p, indexes := Demuxed(front), Indexes(front);
    NewCallStarts(ds);
    assert d.index.Some? && d.id != "" && IdOf(ds, d.index) == d.id && NameOf(ds, d.index) == d.name;
    hide IdOf, NameOf, ArgumentsOf, WellMarked, Position, PositionByIndex, Indexes, CallsOf, CallOf;
    forall k | 0 <= k < |p| ensures p[k].id != d.id && p[k].call.index != d.index {
      NotYetPending(ds, k);
    }
    assert "" + d.arguments.GetOr("") == d.arguments.GetOr("");
    assert Absorb(p, d).0 == p + [CallOf(ds, d.index)];
    NewCallIsLast(ds);
  }

  lemma NewCallIsLast(ds: seq<Delta>)
    requires ds != [] && ds[|ds| - 1].index !in Indexes(ds[..|ds| - 1])
    ensures Demuxed(ds) == Demuxed(ds[..|ds| - 1]) + [CallOf(ds, ds[|ds| - 1].index)]
  {
    var front, d := ds[..|ds| - 1], ds[|ds| - 1];
    var p, indexes := Demuxed(front), Indexes(front);
    assert Indexes(ds) == indexes + [d.index];
    hide Indexes, CallsOf, CallOf;
    CallsLength(front, indexes);
    CallsLength(ds, Indexes(ds));
    forall k | 0 <= k < |Indexes(ds)| ensures Demuxed(ds)[k] == (p + [CallOf(ds, d.index)])[k] {
      CallsAt(ds, Indexes(ds), k);
      if k < |indexes| {
        CallsAt(front, indexes, k);
        OtherCallsKept(ds, indexes[k]);
      }
    }
  }

  /** Taking in the last fragment keeps the calls assembled and streams it. */
  lemma Absorbed(ds: seq<Delta>)
    requires ds != [] && WellMarked(ds)
    ensures Absorb(Demuxed(ds[..|ds| - 1]), ds[|ds| - 1]) == (Demuxed(ds), LastStreamed(ds))
  {
    hide Absorb, Demuxed, LastStreamed;
    var front, d := ds[..|ds| - 1], ds[|ds| - 1];
    if d.index in Indexes(front) {
      var i :| 0 <= i < |Indexes(front)| && Indexes(front)[i] == d.index;
      KnownCallAbsorbed(ds, i);
    } else {
      NewCallAbsorbed(ds);
    }
  }

  /** Whatever the interleaving, the pending calls are those assembled one by one. */
  lemma {:induction false} PendingIsDemuxed(ds: seq<Delta>)
    requires WellMarked(ds)
    ensures AbsorbAll([], ds).0 == Demuxed(ds)
    decreases |ds|
  {
    if ds != [] {
      PendingIsDemuxed(ds[..|ds| - 1]);
      Absorbed(ds);
    }
  }

  // ----- What is streamed and completed for one call -----

  function FragmentFor(chunk: Chunk, id: string): string {
    if chunk.ToolCallDelta? && chunk.callId == id then chunk.fragment else ""
  }

  function CompletionFor(chunk: Chunk, id: string): seq<Chunk> {
    if chunk.ToolCallComplete? && chunk.callId == id then [chunk] else []
  }

  /** The fragments streamed for the id, in order. */
  function Streamed(chunks: seq<Chunk>, id: string): string {
    if chunks == [] then ""
    else Streamed(chunks[..|chunks| - 1], id) + FragmentFor(chunks[|chunks| - 1], id)
  }

  /** The completions of the id, in order. */
  function CompletedFor(chunks: seq<Chunk>, id: string): seq<Chunk> {
    if chunks == [] then []
    else CompletedFor(chunks[..|chunks| - 1], id) + CompletionFor(chunks[|chunks| - 1], id)
  }

  /** Everything emitted for fragments that end with a finish reason or the stream. */
  function Transcript(ds: seq<Delta>): seq<Chunk> {
    var (p, chunks) := AbsorbAll([], ds);
    chunks + Completions(p)
  }

  lemma OneMore(chunks: seq<Chunk>, last: Chunk, id: string)
    ensures Streamed(chunks + [last], id) == Streamed(chunks, id) + FragmentFor(last, id)
    ensures CompletedFor(chunks + [last], id) == CompletedFor(chunks, id) + CompletionFor(last, id)
  {
    assert (chunks + [last])[..|chunks + [last]| - 1] == chunks;
  }

  lemma {:induction false} StreamedConcatenated(a: seq<Chunk>, b: seq<Chunk>, id: string)
    ensures Streamed(a + b, id) == Streamed(a, id) + Streamed(b, id)
    decreases |b|
  {
    if b == [] {
      assert a + b == a;
    } else {
      var front, last := b[..|b| - 1], b[|b| - 1];
      assert b == front + [last] && a + b == (a + front) + [last];
      StreamedConcatenated(a, front, id);
      hide Streamed, FragmentFor;
      assert (Streamed(a, id) + Streamed(front, id)) + FragmentFor(last, id)
          == Streamed(a, id) + (Streamed(front, id) + FragmentFor(last, id));
    }
  }

  lemma {:induction false} CompletedConcatenated(a: seq<Chunk>, b: seq<Chunk>, id: string)
    ensures CompletedFor(a + b, id) == CompletedFor(a, id) + CompletedFor(b, id)
    decreases |b|
  {
    if b == [] {
      assert a + b == a;
    } else {
      var front, last := b[..|b| - 1], b[|b| - 1];
      assert b == front + [last] && a + b == (a + front) + [last];
      CompletedConcatenated(a, front, id);
      hide CompletedFor, CompletionFor;
      assert (CompletedFor(a, id) + CompletedFor(front, id)) + CompletionFor(last, id)
          == CompletedFor(a, id) + (CompletedFor(front, id) + CompletionFor(last, id));
    }
  }

  lemma StreamedStep(ds: seq<Delta>, id: string)
    requires ds != [] && WellMarked(ds)
    ensures var n := |ds| - 1;
            var d, before, after := ds[n], AbsorbAll([], ds[..n]).1, AbsorbAll([], ds).1;
            && Streamed(after, id) ==
               Streamed(before, id) + (if IdOf(ds, d.index) == id then d.arguments.GetOr("") else "")
            && CompletedFor(after, id) == CompletedFor(before, id)
  {
    var front, d := ds[..|ds| - 1], ds[|ds| - 1];
    PendingIsDemuxed(front);
    Absorbed(ds);
    var before := AbsorbAll([], front).1;
    assert AbsorbAll([], ds).1 == before + LastStreamed(ds);
    hide IdOf, NameOf, AbsorbAll, Absorb, Streamed, CompletedFor, WellMarked;
    if d.arguments.None? {
      assert before + [] == before;
    } else {
      OneMore(before, ToolCallDelta(IdOf(ds, d.index), NameOf(ds, d.index), d.arguments.value), id);
    }
  }

  lemma {:induction false} NothingCompletedYet(ds: seq<Delta>, id: string)
    requires WellMarked(ds)
    ensures CompletedFor(AbsorbAll([], ds).1, id) == []
    decreases |ds|
  {
    if ds != [] {
      NothingCompletedYet(ds[..|ds| - 1], id);
      hide AbsorbAll, CompletedFor;
      StreamedStep(ds, id);
    }
  }

  lemma {:induction false} NothingForForeignId(ds: seq<Delta>, id: string)
    requires WellMarked(ds) && forall k | k in Indexes(ds) :: IdOf(ds, k) != id
    ensures Streamed(AbsorbAll([], ds).1, id) == ""
    decreases |ds|
  {
    if ds != [] {
      var front, d := ds[..|ds| - 1], ds[|ds| - 1];
      forall k | k in Indexes(front) ensures IdOf(front, k) != id { OtherCallsKept(ds, k); }
      NothingForForeignId(front, id);
      StreamedStep(ds, id);
      assert d.index in Indexes(ds);
    }
  }

  /** What is streamed for a call is its argument text. */
  lemma {:induction false} StreamedIsArguments(ds: seq<Delta>, index: Option<nat>)
    requires WellMarked(ds) && index in Indexes(ds)
    ensures Streamed(AbsorbAll([], ds).1, IdOf(ds, index)) == ArgumentsOf(ds, index)
    decreases |ds|
  {
    hide AbsorbAll, Streamed;
    var front, d := ds[..|ds| - 1], ds[|ds| - 1];
    StreamedStep(ds, IdOf(ds, index));
    assert d.index in Indexes(ds);
    if index in Indexes(front) {
      StreamedIsArguments(front, index);
      if index != d.index { IdsDistinct(ds, index, d.index); }
    } else {
      NothingForForeignId(front, d.id);
      Unseen(front, index);
    }
  }

  lemma {:induction false} NothingStreamedByCompletion(p: seq<Entry>, id: string)
    ensures Streamed(Completions(p), id) == ""
    decreases |p|
  {
    if p != [] {
      var n := |p| - 1;
      NothingStreamedByCompletion(p[..n], id);
      CompletionsStep(p, id);
    }
  }

  lemma CompletionsStep(p: seq<Entry>, id: string)
    requires p != []
    ensures var n := |p| - 1;
            && Streamed(Completions(p), id) == Streamed(Completions(p[..n]), id)
            && CompletedFor(Completions(p), id) ==
               if p[n].id == id then CompletedFor(Completions(p[..n]), id) + CompletionOfEntry(p[n])
               else CompletedFor(Completions(p[..n]), id)
  {
    var n := |p| - 1;
    var before := Completions(p[..n]);
    assert Completions(p) == before + CompletionOfEntry(p[n]);
    hide Streamed, CompletedFor, Completions;
    if p[n].call.name == "" {
      assert before + [] == before;
    } else {
      OneMore(before, ToolCallComplete(p[n].id, p[n].call.name, p[n].call.arguments), id);
    }
  }

  lemma {:induction false} NoneCompleted(p: seq<Entry>, id: string)
    requires forall i :: 0 <= i < |p| ==> p[i].id != id
    ensures CompletedFor(Completions(p), id) == []
    decreases |p|
  {
    if p != [] {
      NoneCompleted(p[..|p| - 1], id);
      CompletionsStep(p, id);
    }
  }

  /** Among calls told apart by their ids, the completions of one id are those of its call. */
  lemma {:induction false} CompletedOnce(p: seq<Entry>, i: nat)
    requires forall i, j :: 0 <= i < j < |p| ==> p[i].id != p[j].id
    requires i < |p|
    ensures CompletedFor(Completions(p), p[i].id) == CompletionOfEntry(p[i])
    decreases |p|
  {
    hide CompletedFor, Completions, CompletionOfEntry;
    var n := |p| - 1;
    CompletionsStep(p, p[i].id);
    if i < n {
      CompletedOnce(p[..n], i);
    } else {
      NoneCompleted(p[..n], p[n].id);
      assert [] + CompletionOfEntry(p[n]) == CompletionOfEntry(p[n]);
    }
  }

  lemma DemuxedIds(ds: seq<Delta>)
    requires WellMarked(ds)
    ensures var p := Demuxed(ds); forall i, j :: 0 <= i < j < |p| ==> p[i].id != p[j].id
    ensures |Demuxed(ds)| == |Indexes(ds)|
    ensures forall i :: 0 <= i < |Indexes(ds)| ==> Demuxed(ds)[i] == CallOf(ds, Indexes(ds)[i])
  {
    var p, indexes := Demuxed(ds), Indexes(ds);
    CallsLength(ds, indexes);
    IndexesDistinct(ds);
    forall i | 0 <= i < |indexes| ensures p[i] == CallOf(ds, indexes[i]) { CallsAt(ds, indexes, i); }
    forall i, j | 0 <= i < j < |p| ensures p[i].id != p[j].id { IdsDistinct(ds, indexes[i], indexes[j]); }
  }

  /** Each call streams exactly its arguments and, when it has a name, completes exactly
      once with them; an id of no call completes nothing. */
  lemma EachCallOnce(ds: seq<Delta>, index: Option<nat>)
    requires WellMarked(ds) && index in Indexes(ds)
    ensures Streamed(Transcript(ds), IdOf(ds, index)) == ArgumentsOf(ds, index)
    ensures CompletedFor(Transcript(ds), IdOf(ds, index)) ==
      if NameOf(ds, index) == "" then []
      else [ToolCallComplete(IdOf(ds, index), NameOf(ds, index), ArgumentsOf(ds, index))]
  {
    hide IdOf, NameOf, ArgumentsOf, WellMarked, Streamed, CompletedFor, AbsorbAll, Completions, CallsOf, Indexes;
    var id, p := IdOf(ds, index), Demuxed(ds);
    var chunks := AbsorbAll([], ds).1;
    PendingIsDemuxed(ds);
    StreamedConcatenated(chunks, Completions(p), id);
    CompletedConcatenated(chunks, Completions(p), id);
    StreamedIsArguments(ds, index);
    NothingStreamedByCompletion(p, id);
    NothingCompletedYet(ds, id);
    DemuxedIds(ds);
    var i :| 0 <= i < |Indexes(ds)| && Indexes(ds)[i] == index;
    assert p[i] == CallOf(ds, index);
    CompletedOnce(p, i);
  }

  /** Ids that no call carries neither stream nor complete anything. */
  lemma NoOtherCall(ds: seq<Delta>, id: string)
    requires WellMarked(ds) && forall k | k in Indexes(ds) :: IdOf(ds, k) != id
    ensures Streamed(Transcript(ds), id) == "" && CompletedFor(Transcript(ds), id) == []
  {
    hide IdOf, NameOf, ArgumentsOf, WellMarked, Streamed, CompletedFor, AbsorbAll, Completions, CallsOf, Indexes;
    var p, chunks := Demuxed(ds), AbsorbAll([], ds).1;
    PendingIsDemuxed(ds);
    StreamedConcatenated(chunks, Completions(p), id);
    CompletedConcatenated(chunks, Completions(p), id);
    NothingForForeignId(ds, id);
    NothingStreamedByCompletion(p, id);
    NothingCompletedYet(ds, id);
    DemuxedIds(ds);
    forall i | 0 <= i < |p| ensures p[i].id != id {
      assert p[i] == CallOf(ds, Indexes(ds)[i]);
    }
    NoneCompleted(p, id);
  }

  // ----- Fragments without an index -----

  /** The pending call under the id. */
  function Lookup(p: seq<Entry>, id: string): Option<Pending> {
    match Position(p, id)
    case None => None
    case Some(i) => Some(p[i].call)
  }

  predicate DistinctIds(p: seq<Entry>) {
    forall i, j :: 0 <= i < j < |p| ==> p[i].id != p[j].id
  }

  lemma {:induction false} PositionSays(p: seq<Entry>, id: string)
    ensures Position(p, id).None? <==> forall i :: 0 <= i < |p| ==> p[i].id != id
    ensures Position(p, id).Some? ==> forall i :: 0 <= i < Position(p, id).value ==> p[i].id != id
  {
    if p != [] {
      PositionSays(p[1..], id);
      assert forall i :: 0 < i < |p| ==> p[i] == p[1..][i - 1];
    }
  }

  lemma SetSays(p: seq<Entry>, id: string, call: Pending, other: string)
    requires DistinctIds(p)
    ensures DistinctIds(Set(p, id, call))
    ensures Lookup(Set(p, id, call), other) == if other == id then Some(call) else Lookup(p, other)
  {
    hide Position;
    var r := Set(p, id, call);
    PositionSays(p, id);
    PositionSays(p, other);
    PositionSays(r, other);
    if other == id {
      var i := if Position(p, id).Some? then Position(p, id).value else |p|;
      assert r[i].id == id;
    } else if Position(p, other).Some? {
      assert r[Position(p, other).value].id == other;
    } else {
      assert forall i :: 0 <= i < |r| ==> r[i].id == id || (i < |p| && r[i].id == p[i].id);
    }
  }

  /** Fragments told apart by an id of their own. */
  predicate MarkedById(ds: seq<Delta>) {
    forall d :: d in ds ==> d.index.None? && d.id != ""
  }

  /** The last name given with the id. */
  function NameFor(ds: seq<Delta>, id: string): string {
    if ds == [] then ""
    else
      var n := |ds| - 1;
      if ds[n].id == id && ds[n].name != "" then ds[n].name else NameFor(ds[..n], id)
  }

  /** The argument fragments given with the id, in order of arrival. */
  function ArgumentsFor(ds: seq<Delta>, id: string): string {
    if ds == [] then ""
    else
      var n := |ds| - 1;
      ArgumentsFor(ds[..n], id) + if ds[n].id == id then ds[n].arguments.GetOr("") else ""
  }

  lemma {:induction false} NotGiven(ds: seq<Delta>, id: string)
    requires forall d :: d in ds ==> d.id != id
    ensures NameFor(ds, id) == "" && ArgumentsFor(ds, id) == ""
    decreases |ds|
  {
    if ds != [] { NotGiven(ds[..|ds| - 1], id); }
  }

  /** The calls so far when every fragment carries its id. */
  ghost predicate AssembledById(p: seq<Entry>, ds: seq<Delta>, id: string) {
    && DistinctIds(p)
    && Lookup(p, id) ==
         if exists d :: d in ds && d.id == id then Some(Pending(None, NameFor(ds, id), ArgumentsFor(ds, id))) else None
  }

  lemma AbsorbedById(p: seq<Entry>, ds: seq<Delta>, id: string)
    requires ds != [] && MarkedById(ds)
    requires var front, d := ds[..|ds| - 1], ds[|ds| - 1];
      AssembledById(p, front, id) && AssembledById(p, front, d.id)
    ensures var d := ds[|ds| - 1];
            var (p', chunks) := Absorb(p, d);
            && AssembledById(p', ds, id)
            && chunks == if d.arguments.Some? then [ToolCallDelta(d.id, NameFor(ds, d.id), d.arguments.value)] else []
  {
    var front, d := ds[..|ds| - 1], ds[|ds| - 1];
    assert d in ds;
    OneAbsorbedById(p, ds);
    hide Absorb, NameFor, ArgumentsFor, Position, Lookup, Set;
    SetSays(p, d.id, Pending(None, NameFor(ds, d.id), ArgumentsFor(ds, d.id)), id);
    if d.id != id { OthersGiven(ds, id); }
  }

  lemma OthersGiven(ds: seq<Delta>, id: string)
    requires ds != [] && ds[|ds| - 1].id != id
    ensures var front := ds[..|ds| - 1];
            && NameFor(ds, id) == NameFor(front, id) && ArgumentsFor(ds, id) == ArgumentsFor(front, id)
            && ((exists d :: d in ds && d.id == id) <==> exists d :: d in front && d.id == id)
  {
    var front := ds[..|ds| - 1];
    assert ds == front + [ds[|ds| - 1]];
    assert ArgumentsFor(front, id) + "" == ArgumentsFor(front, id);
  }

  lemma OneAbsorbedById(p: seq<Entry>, ds: seq<Delta>)
    requires ds != [] && ds[|ds| - 1].index.None? && ds[|ds| - 1].id != ""
    requires AssembledById(p, ds[..|ds| - 1], ds[|ds| - 1].id)
    ensures var d := ds[|ds| - 1];
            Absorb(p, d) ==
              (Set(p, d.id, Pending(None, NameFor(ds, d.id), ArgumentsFor(ds, d.id))),
               if d.arguments.Some? then [ToolCallDelta(d.id, NameFor(ds, d.id), d.arguments.value)] else [])
  {
    var front, d := ds[..|ds| - 1], ds[|ds| - 1];
    assert Resolve(p, d) == (p, d.id);
    hide Resolve, Set, Position, DistinctIds;
    if !exists x :: x in front && x.id == d.id {
      NotGiven(front, d.id);
      assert "" + d.arguments.GetOr("") == d.arguments.GetOr("");
    }
  }

  lemma {:induction false} ByIdSoFar(ds: seq<Delta>, id: string)
    requires MarkedById(ds)
    ensures var (p, chunks) := AbsorbAll([], ds);
            AssembledById(p, ds, id) && Streamed(chunks, id) == ArgumentsFor(ds, id) && CompletedFor(chunks, id) == []
    decreases |ds|
  {
    if ds != [] {
      var n := |ds| - 1;
      var front, d := ds[..n], ds[n];
      assert forall x :: x in front ==> x in ds;
      ByIdSoFar(front, id);
      ByIdSoFar(front, d.id);
      var (p, chunks) := AbsorbAll([], front);
      AbsorbedById(p, ds, id);
      assert ArgumentsFor(ds, id) == ArgumentsFor(front, id) + if d.id == id then d.arguments.GetOr("") else "";
      assert AbsorbAll([], ds) == (Absorb(p, d).0, chunks + Absorb(p, d).1);
      hide Absorb, AbsorbAll, AssembledById, Streamed, CompletedFor, ArgumentsFor, NameFor, MarkedById;
      if d.arguments.Some? {
        OneMore(chunks, ToolCallDelta(d.id, NameFor(ds, d.id), d.arguments.value), id);
      } else {
        assert chunks + [] == chunks;
      }
    }
  }

  /** Without indexes the calls are told apart by their ids: each streams its arguments and
      completes once with them when it has a name. */
  lemma EachCallByIdOnce(ds: seq<Delta>, id: string)
    requires MarkedById(ds)
    ensures Streamed(Transcript(ds), id) == ArgumentsFor(ds, id)
    ensures CompletedFor(Transcript(ds), id) ==
      if NameFor(ds, id) == "" then [] else [ToolCallComplete(id, NameFor(ds, id), ArgumentsFor(ds, id))]
  {
    hide Streamed, CompletedFor, AbsorbAll, Completions, NameFor, ArgumentsFor, Position;
    var (p, chunks) := AbsorbAll([], ds);
    ByIdSoFar(ds, id);
    StreamedConcatenated(chunks, Completions(p), id);
    CompletedConcatenated(chunks, Completions(p), id);
    NothingStreamedByCompletion(p, id);
    assert ArgumentsFor(ds, id) + "" == ArgumentsFor(ds, id);
    match Position(p, id) {
      case Some(i) =>
        CompletedOnce(p, i);
      case None =>
        PositionSays(p, id);
        NoneCompleted(p, id);
        NotGiven(ds, id);
    }
  }

  /** The number that decimal digits stand for. */
  function Value(s: string): int {
    if s == "" then 0 else 10 * Value(s[..|s| - 1]) + (s[|s| - 1] as int - '0' as int)
  }

  lemma {:induction false} DigitsAreDecimal(n: nat)
    ensures var s := Digits(n);
            && Value(s) == n && s != [] && (n > 0 ==> s[0] != '0')
            && forall i :: 0 <= i < |s| ==> '0' <= s[i] <= '9'
  {
    var digits := "0123456789";
    assert forall k :: 0 <= k < 10 ==> digits[k] as int == '0' as int + k;
    var s := Digits(n);
    if n < 10 {
      assert s[..0] == "" && Value("") == 0;
    } else {
      DigitsAreDecimal(n / 10);
      assert s[..|s| - 1] == Digits(n / 10);
    }
  }

  /** The calls are the fragments one by one, numbered from one. */
  predicate Numbered(p: seq<Entry>, ds: seq<Delta>) {
    && |p| == |ds|
    && forall k :: 0 <= k < |p| ==>
         p[k] == Entry("call_" + Digits(k + 1), Pending(None, ds[k].name, ds[k].arguments.GetOr("")))
  }

  /** Fragments with neither index nor id are each a call of their own. */
  lemma {:induction false} AnonymousAreNumbered(ds: seq<Delta>)
    requires forall d :: d in ds ==> d.index.None? && d.id == ""
    ensures Numbered(AbsorbAll([], ds).0, ds)
    decreases |ds|
  {
    if ds != [] {
      var front := ds[..|ds| - 1];
      assert ds[|ds| - 1] in ds && forall x :: x in front ==> x in ds;
      hide Numbered, Absorb;
      AnonymousAreNumbered(front);
      NumberedStep(AbsorbAll([], front).0, ds);
    } else {
      assert AbsorbAll([], ds).0 == [];
    }
  }

  lemma NumberedStep(p: seq<Entry>, ds: seq<Delta>)
    requires ds != [] && ds[|ds| - 1].index.None? && ds[|ds| - 1].id == "" && Numbered(p, ds[..|ds| - 1])
    ensures Numbered(Absorb(p, ds[|ds| - 1]).0, ds)
  {
    hide Digits, Absorb;
    var n := |ds| - 1;
    forall k | 0 <= k < n ensures p[k].id != "call_" + Digits(n + 1) { NumbersDiffer(k + 1, n + 1); }
    AnonymousIsNew(p, ds[n], "call_" + Digits(n + 1));
  }

  lemma NumbersDiffer(m: nat, n: nat)
    requires m != n
    ensures "call_" + Digits(m) != "call_" + Digits(n)
  {
    hide Digits, Value;
    DigitsAreDecimal(m);
    DigitsAreDecimal(n);
    assert ("call_" + Digits(m))[5..] == Digits(m) && ("call_" + Digits(n))[5..] == Digits(n);
  }

  lemma AnonymousIsNew(p: seq<Entry>, d: Delta, id: string)
    requires d.index.None? && Resolve(p, d) == (p, id) && forall k :: 0 <= k < |p| ==> p[k].id != id
    ensures Absorb(p, d).0 == p + [Entry(id, Pending(None, d.name, d.arguments.GetOr("")))]
  {
    hide Resolve, Position;
    PositionSays(p, id);
    assert "" + d.arguments.GetOr("") == d.arguments.GetOr("");
  }

  /** A new id for a known index: the call goes on under it, and nothing else changes. */
  lemma RenamedCall(p: seq<Entry>, d: Delta, i: nat)
    requires DistinctIds(p) && i < |p| && d.index.Some? && p[i].call.index == d.index
    requires forall j :: 0 <= j < |p| && j != i ==> p[j].call.index != d.index
    requires d.id != "" && forall j :: 0 <= j < |p| ==> p[j].id != d.id
    ensures Resolve(p, d) == (p[..i] + p[i + 1..] + [Entry(d.id, p[i].call)], d.id)
  {
    FirstPosition(p, i);
    hide Position, PositionByIndex;
    PositionSays(p[..i] + p[i + 1..], d.id);
  }

  // ----- Whole streams -----

  /** One event of the stream: fragments, and whether it gives a finish reason. */
  datatype Payload = Payload(deltas: seq<Delta>, finished: bool)

  function Consume(p: seq<Entry>, payload: Payload): (seq<Entry>, seq<Chunk>) {
    var (p', chunks) := AbsorbAll(p, payload.deltas);
    if payload.finished then ([], chunks + Completions(p')) else (p', chunks)
  }

  function ConsumeAll(payloads: seq<Payload>): (seq<Entry>, seq<Chunk>)
    decreases |payloads|
  {
    if payloads == [] then ([], [])
    else
      var n := |payloads| - 1;
      var (p, chunks) := ConsumeAll(payloads[..n]);
      var (p', more) := Consume(p, payloads[n]);
      (p', chunks + more)
  }

  /** All that a stream emits: calls still pending at its end are completed then. */
  function Emitted(payloads: seq<Payload>): seq<Chunk> {
    var (p, chunks) := ConsumeAll(payloads);
    chunks + Completions(p)
  }

  /** The fragments after the last finish reason. */
  function Open(payloads: seq<Payload>): seq<Delta> {
    if payloads == [] then []
    else
      var n := |payloads| - 1;
      if payloads[n].finished then [] else Open(payloads[..n]) + payloads[n].deltas
  }

  /** The groups of fragments that a finish reason ended. */
  function Closed(payloads: seq<Payload>): seq<seq<Delta>> {
    if payloads == [] then []
    else
      var n := |payloads| - 1;
      Closed(payloads[..n]) +
      if payloads[n].finished then [Open(payloads[..n]) + payloads[n].deltas] else []
  }

  function Transcripts(groups: seq<seq<Delta>>): seq<Chunk> {
    if groups == [] then []
    else
      var n := |groups| - 1;
      Transcripts(groups[..n]) + Transcript(groups[n])
  }

  lemma {:induction false} AbsorbAppend(p: seq<Entry>, a: seq<Delta>, b: seq<Delta>)
    ensures var (p', c) := AbsorbAll(p, a);
            var (p'', c') := AbsorbAll(p', b);
            AbsorbAll(p, a + b) == (p'', c + c')
    decreases |b|
  {
    hide Absorb;
    if b == [] {
      assert a + b == a;
      assert AbsorbAll(p, a).1 + [] == AbsorbAll(p, a).1;
    } else {
      var n := |b| - 1;
      AbsorbAppend(p, a, b[..n]);
      assert (a + b)[..|a + b| - 1] == a + b[..n];
      var (p', c) := AbsorbAll(p, a);
      var (q, c') := AbsorbAll(p', b[..n]);
      var (_, c'') := Absorb(q, b[n]);
      assert (c + c') + c'' == c + (c' + c'');
    }
  }

  /** However a stream is cut into payloads, it emits the transcript of each finished
      group of fragments and then that of the open one. */
  lemma {:induction false} StreamsDemultiplex(payloads: seq<Payload>)
    ensures Emitted(payloads) == Transcripts(Closed(payloads) + [Open(payloads)])
  {
    GroupsSoFar(payloads);
    hide AbsorbAll, Completions, Open, Closed, ConsumeAll;
    var closed, open := Closed(payloads), Open(payloads);
    assert (closed + [open])[..|closed + [open]| - 1] == closed;
    var (p, chunks) := AbsorbAll([], open);
    assert Transcripts(closed) + (chunks + Completions(p)) == (Transcripts(closed) + chunks) + Completions(p);
  }

  /** A finish reason closes the open group; without one it stays open. */
  lemma GroupStep(payloads: seq<Payload>)
    requires payloads != []
    ensures var n := |payloads| - 1;
            var group := Open(payloads[..n]) + payloads[n].deltas;
            if payloads[n].finished then
              Open(payloads) == [] &&
              Transcripts(Closed(payloads)) == Transcripts(Closed(payloads[..n])) + Transcript(group)
            else
              Open(payloads) == group && Closed(payloads) == Closed(payloads[..n])
  {
    var n := |payloads| - 1;
    var closed, group := Closed(payloads[..n]), Open(payloads[..n]) + payloads[n].deltas;
    if payloads[n].finished {
      assert Closed(payloads) == closed + [group];
      assert (closed + [group])[..|closed + [group]| - 1] == closed;
    } else {
      assert closed + [] == closed;
    }
  }

  lemma {:induction false} GroupsSoFar(payloads: seq<Payload>)
    ensures ConsumeAll(payloads).0 == AbsorbAll([], Open(payloads)).0
    ensures ConsumeAll(payloads).1 == Transcripts(Closed(payloads)) + AbsorbAll([], Open(payloads)).1
    decreases |payloads|
  {
    hide AbsorbAll, Completions, Open, Closed, Transcripts, ConsumeAll;
    NothingYet();
    if payloads != [] {
      var front, last := payloads[..|payloads| - 1], payloads[|payloads| - 1];
      GroupsSoFar(front);
      ConsumeStep(payloads);
      GroupStep(payloads);
      var open, before := Open(front), Transcripts(Closed(front));
      AbsorbAppend([], open, last.deltas);
      var chunks := AbsorbAll([], open).1;
      var (q, more) := AbsorbAll(ConsumeAll(front).0, last.deltas);
      if last.finished {
        assert Transcript(open + last.deltas) == (chunks + more) + Completions(q);
        assert (before + chunks) + (more + Completions(q)) == (before + ((chunks + more) + Completions(q))) + [];
      } else {
        assert (before + chunks) + more == before + (chunks + more);
      }
    }
  }

  lemma NothingYet()
    ensures AbsorbAll([], []) == ([], []) && ConsumeAll([]) == ([], [])
    ensures Open([]) == [] && Transcripts(Closed([])) == []
  {
  }

  lemma ConsumeStep(payloads: seq<Payload>)
    requires payloads != []
    ensures var n := |payloads| - 1;
            var (p, chunks) := ConsumeAll(payloads[..n]);
            && ConsumeAll(payloads).0 == Consume(p, payloads[n]).0
            && ConsumeAll(payloads).1 == chunks + Consume(p, payloads[n]).1
  {
  }

  /** What the transcripts of all groups hold for an id that only one of them knows. */
  lemma {:induction false} OnlyOneGroup(groups: seq<seq<Delta>>, id: string, i: nat)
    requires forall g | g in groups :: WellMarked(g)
    requires forall j, index :: 0 <= j < |groups| && j != i && index in Indexes(groups[j]) ==>
      IdOf(groups[j], index) != id
    ensures Streamed(Transcripts(groups), id) == if i < |groups| then Streamed(Transcript(groups[i]), id) else ""
    ensures CompletedFor(Transcripts(groups), id) ==
            if i < |groups| then CompletedFor(Transcript(groups[i]), id) else []
    decreases |groups|
  {
    hide Transcript, WellMarked, Indexes, IdOf, Streamed, CompletedFor;
    if groups == [] {
      NothingEmitted(id);
    } else {
      var n := |groups| - 1;
      OnlyOneGroup(groups[..n], id, i);
      StreamedConcatenated(Transcripts(groups[..n]), Transcript(groups[n]), id);
      CompletedConcatenated(Transcripts(groups[..n]), Transcript(groups[n]), id);
      if i == n {
        assert "" + Streamed(Transcript(groups[n]), id) == Streamed(Transcript(groups[n]), id);
        assert [] + CompletedFor(Transcript(groups[n]), id) == CompletedFor(Transcript(groups[n]), id);
      } else {
        assert groups[n] in groups;
        NoOtherCall(groups[n], id);
        assert Streamed(Transcripts(groups[..n]), id) + "" == Streamed(Transcripts(groups[..n]), id);
        assert CompletedFor(Transcripts(groups[..n]), id) + [] == CompletedFor(Transcripts(groups[..n]), id);
      }
    }
  }

  lemma NothingEmitted(id: string)
    ensures Streamed([], id) == "" && CompletedFor([], id) == []
  {
  }

  /** Over a whole stream, however it is cut into payloads and wherever finish reasons
      stand: a call whose id no other group uses streams exactly its arguments and, when it
      has a name, completes exactly once with them. */
  lemma EachStreamedCallOnce(payloads: seq<Payload>, i: nat, index: Option<nat>)
    requires var groups := Closed(payloads) + [Open(payloads)];
             && i < |groups| && index in Indexes(groups[i]) && (forall g | g in groups :: WellMarked(g))
             && forall j, k :: 0 <= j < |groups| && j != i && k in Indexes(groups[j]) ==>
                  IdOf(groups[j], k) != IdOf(groups[i], index)
    ensures var group := (Closed(payloads) + [Open(payloads)])[i];
            && Streamed(Emitted(payloads), IdOf(group, index)) == ArgumentsOf(group, index)
            && CompletedFor(Emitted(payloads), IdOf(group, index)) ==
               if NameOf(group, index) == "" then []
               else [ToolCallComplete(IdOf(group, index), NameOf(group, index), ArgumentsOf(group, index))]
  {
    hide Transcript, Transcripts, WellMarked, Indexes, IdOf, NameOf, ArgumentsOf;
    hide Streamed, CompletedFor, Emitted, Closed, Open;
    var groups := Closed(payloads) + [Open(payloads)];
    StreamsDemultiplex(payloads);
    OnlyOneGroup(groups, IdOf(groups[i], index), i);
    assert groups[i] in groups;
    EachCallOnce(groups[i], index);
  }

  function Fragments(payloads: seq<Payload>): seq<Delta> {
    if payloads == [] then []
    else Fragments(payloads[..|payloads| - 1]) + payloads[|payloads| - 1].deltas
  }

  lemma {:induction false} UnfinishedIsOpen(payloads: seq<Payload>)
    requires forall k :: 0 <= k < |payloads| ==> !payloads[k].finished
    ensures Closed(payloads) == [] && Open(payloads) == Fragments(payloads)
    decreases |payloads|
  {
    if payloads != [] {
      UnfinishedIsOpen(payloads[..|payloads| - 1]);
      GroupStep(payloads);
    }
  }

  /** With a finish reason in the last payload or none at all, every call of the stream
      streams its arguments and completes once, at the finish reason or at the end. */
  lemma FinishedOrNot(payloads: seq<Payload>, index: Option<nat>)
    requires forall k :: 0 <= k < |payloads| - 1 ==> !payloads[k].finished
    requires WellMarked(Fragments(payloads)) && index in Indexes(Fragments(payloads))
    ensures var ds := Fragments(payloads);
            && Streamed(Emitted(payloads), IdOf(ds, index)) == ArgumentsOf(ds, index)
            && CompletedFor(Emitted(payloads), IdOf(ds, index)) ==
               if NameOf(ds, index) == "" then []
               else [ToolCallComplete(IdOf(ds, index), NameOf(ds, index), ArgumentsOf(ds, index))]
  {
    var ds := Fragments(payloads);
    assert payloads != [];
    var front, last := payloads[..|payloads| - 1], payloads[|payloads| - 1];
    UnfinishedIsOpen(front);
    assert Open(front) + last.deltas == ds;
    if last.finished {
      assert Closed(payloads) == [ds] && Open(payloads) == [];
    } else {
      assert Closed(payloads) == [] && Open(payloads) == ds;
    }
    assert WellMarked([]) && Indexes([]) == [];
    hide WellMarked, Indexes, IdOf, NameOf, ArgumentsOf, Streamed, CompletedFor, Emitted, Closed, Open, Fragments;
    EachStreamedCallOnce(payloads, 0, index);
  }

  // ----- The running assembler -----

  class ToolCallStream {
    var pending: seq<Entry>

    constructor ()
      ensures pending == []
    {
      pending := [];
    }

    /** The id the fragment belongs to; renames the pending call when it got a new id. */
    method ResolveId(d: Delta) returns (id: string)
      modifies this
      ensures (pending, id) == Resolve(old(pending), d)
    {
      var byIndex := PositionByIndex(pending, d.index);
      if d.id != "" {
        if byIndex.Some? && pending[byIndex.value].id != d.id {
          var existing := pending[byIndex.value];
          pending := Delete(pending, existing.id);
          pending := Set(pending, d.id, existing.call);
        }
        return d.id;
      }
      if byIndex.Some? { return pending[byIndex.value].id; }
      id := "call_" + Digits(|pending| + 1);
    }

    method ConsumeFragments(deltas: seq<Delta>) returns (chunks: seq<Chunk>)
      modifies this
      ensures (pending, chunks) == AbsorbAll(old(pending), deltas)
    {
      chunks := [];
      for k := 0 to |deltas|
        invariant (pending, chunks) == AbsorbAll(old(pending), deltas[..k])
      {
        assert deltas[..k + 1][..k] == deltas[..k];
        var d := deltas[k];
        ghost var before := pending;
        var id := ResolveId(d);
        var at := Position(pending, id);
        var existing := if at.Some? then pending[at.value].call else Pending(d.index, "", "");
        if d.index.Some? { existing := existing.(index := d.index); }
        if d.name != "" { existing := existing.(name := d.name); }
        if d.arguments.Some? {
          existing := existing.(arguments := existing.arguments + d.arguments.value);
          chunks := chunks + [ToolCallDelta(id, existing.name, d.arguments.value)];
        } else {
          assert existing.arguments + "" == existing.arguments && chunks + [] == chunks;
        }
        pending := Set(pending, id, existing);
        assert pending == Absorb(before, d).0;
      }
      assert deltas[..|deltas|] == deltas;
    }

    /** Completes the pending calls: on a finish reason, and again at the end of the stream. */
    method Finalize() returns (chunks: seq<Chunk>)
      modifies this
      ensures pending == [] && chunks == Completions(old(pending))
    {
      chunks := [];
      for k := 0 to |pending|
        invariant pending == old(pending) && chunks == Completions(pending[..k])
      {
        assert pending[..k + 1][..k] == pending[..k];
        var entry := pending[k];
        if entry.call.name != "" {
          chunks := chunks + [ToolCallComplete(entry.id, entry.call.name, entry.call.arguments)];
        }
      }
      assert pending[..|pending|] == pending;
      pending := [];
    }

    method ConsumePayload(payload: Payload) returns (chunks: seq<Chunk>)
      modifies this
      ensures (pending, chunks) == Consume(old(pending), payload)
    {
      chunks := ConsumeFragments(payload.deltas);
      if payload.finished && pending != [] {
        var done := Finalize();
        chunks := chunks + done;
      } else {
        assert chunks + [] == chunks;
      }
    }
  }

  /** A whole stream through the assembler. */
  method StreamToolCalls(payloads: seq<Payload>) returns (chunks: seq<Chunk>)
    ensures chunks == Transcripts(Closed(payloads) + [Open(payloads)])
  {
    var stream := new ToolCallStream();
    chunks := [];
    for k := 0 to |payloads|
      invariant (stream.pending, chunks) == ConsumeAll(payloads[..k])
    {
      assert payloads[..k + 1][..k] == payloads[..k];
      var more := stream.ConsumePayload(payloads[k]);
      chunks := chunks + more;
    }
    assert payloads[..|payloads|] == payloads;
    var last := stream.Finalize();
    chunks := chunks + last;
    StreamsDemultiplex(payloads);
  }
}
