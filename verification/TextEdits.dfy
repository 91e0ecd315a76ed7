/** Exact multi-edit substitution: every edit must match the original text once,
    edits must not overlap, and they are applied from the last to the first. */
module TextEdits {

  import opened Wrappers

  datatype Edit = Edit(oldText: string, newText: string)

  /** The range of the original text an edit replaces. */
  datatype Patch = Patch(start: nat, end: nat, newText: string)

  // ----- Occurrences -----

  predicate MatchAt(source: string, needle: string, i: nat) {
    i + |needle| <= |source| && source[i..i + |needle|] == needle
  }

  /** `indexOf` from a position. */
  function IndexOf(source: string, needle: string, from: nat): (r: Option<nat>)
    ensures r.Some? ==> from <= r.value && r.value + |needle| <= |source|
    decreases |source| - from
  {
    if from + |needle| > |source| then None
    else if source[from..from + |needle|] == needle then Some(from)
    else if from == |source| then None
    else IndexOf(source, needle, from + 1)
  }

  lemma IndexOfSpec(source: string, needle: string, from: nat)
    ensures var r := IndexOf(source, needle, from);
            match r
            case Some(i) => MatchAt(source, needle, i) && forall j: nat :: from <= j < i ==> !MatchAt(source, needle, j)
            case None => forall j: nat :: from <= j ==> !MatchAt(source, needle, j)
    decreases |source| - from
  {
    if from + |needle| <= |source| && source[from..from + |needle|] != needle && from < |source| {
      IndexOfSpec(source, needle, from + 1);
    } else if from == |source| {
      assert needle == "" ==> source[from..from] == needle;
    }
  }

  function OccurrencesFrom(source: string, needle: string, from: nat): seq<nat>
    requires needle != ""
    decreases |source| - from
  {
    match IndexOf(source, needle, from)
    case None => []
    case Some(i) => [i] + OccurrencesFrom(source, needle, i + |needle|)
  }

  /** The occurrences counted by the source: the leftmost ones that do not overlap. */
  function Occurrences(source: string, needle: string): seq<nat> {
    if needle == "" then [] else OccurrencesFrom(source, needle, 0)
  }

  /** The needle occurs at `i`, and anywhere else only overlapping that. */
  ghost predicate OnlyAt(source: string, needle: string, i: nat) {
    MatchAt(source, needle, i) && forall j: nat :: MatchAt(source, needle, j) ==> i <= j < i + |needle|
  }

  /** One occurrence is counted exactly when the needle occurs once, up to overlaps
      with its first occurrence, and then that one is found. */
  lemma OneOccurrence(source: string, needle: string)
    ensures var found := Occurrences(source, needle);
            && (found == [] <==> needle == "" || forall i: nat :: !MatchAt(source, needle, i))
            && (|found| == 1 ==> needle != "" && OnlyAt(source, needle, found[0]))
            && (forall i: nat :: needle != "" && OnlyAt(source, needle, i) ==> found == [i])
  {
    hide IndexOf, MatchAt, OccurrencesFrom;
    if needle != "" {
      IndexOfSpec(source, needle, 0);
      OccurrencesStep(source, needle, 0);
      if IndexOf(source, needle, 0).Some? {
        var i := IndexOf(source, needle, 0).value;
        IndexOfSpec(source, needle, i + |needle|);
        OccurrencesStep(source, needle, i + |needle|);
      }
    }
  }

  lemma OccurrencesStep(source: string, needle: string, from: nat)
    requires needle != ""
    ensures OccurrencesFrom(source, needle, from) ==
            match IndexOf(source, needle, from)
            case None => []
            case Some(i) => [i] + OccurrencesFrom(source, needle, i + |needle|)
  {
  }

  /** Overlapping occurrences go uncounted. */
  lemma OverlapUncounted()
    ensures Occurrences("aaa", "aa") == [0] && MatchAt("aaa", "aa", 1)
  {
    assert "aaa"[0..2] == "aa" && "aaa"[1..3] == "aa";
    assert IndexOf("aaa", "aa", 0) == Some(0);
    assert IndexOf("aaa", "aa", 2) == None;
  }

  method FindOccurrences(source: string, needle: string) returns (matches: seq<nat>)
    ensures matches == Occurrences(source, needle)
  {
    hide IndexOf;
    matches := [];
    if needle == "" {
      return;
    }
    var index := 0;
    while true
      invariant matches + OccurrencesFrom(source, needle, index) == Occurrences(source, needle)
      decreases |source| - index
    {
      var next := IndexOf(source, needle, index);
      if next.None? {
        return;
      }
      matches := matches + [next.value];
      index := next.value + |needle|;
    }
  }

  // ----- Planning -----

  datatype EditError = NotFound(index: nat) | NotUnique(index: nat, count: nat) | Overlap

  datatype Result<+T> = Ok(value: T) | Err(error: EditError)

  function PatchOf(source: string, edit: Edit, at: nat): Patch {
    Patch(at, at + |edit.oldText|, edit.newText)
  }

  function Planned(source: string, edits: seq<Edit>, index: nat): Result<seq<Patch>>
    requires index <= |edits|
    decreases |edits| - index
  {
    if index == |edits| then Ok([])
    else
      var matches := Occurrences(source, edits[index].oldText);
      if |matches| == 0 then Err(NotFound(index))
      else if |matches| > 1 then Err(NotUnique(index, |matches|))
      else
        match Planned(source, edits, index + 1)
        case Err(e) => Err(e)
        case Ok(rest) => Ok([PatchOf(source, edits[index], matches[0])] + rest)
  }

  // ----- Sorting by start -----

  function Insert(p: Patch, sorted: seq<Patch>): seq<Patch> {
    if sorted == [] || p.start < sorted[0].start then [p] + sorted else [sorted[0]] + Insert(p, sorted[1..])
  }

  /** A stable sort by start. */
  function SortByStart(patches: seq<Patch>): seq<Patch>
    decreases |patches|
  {
    if patches == [] then []
    else Insert(patches[|patches| - 1], SortByStart(patches[..|patches| - 1]))
  }

  predicate Sorted(patches: seq<Patch>) {
    forall i, j :: 0 <= i < j < |patches| ==> patches[i].start <= patches[j].start
  }

  predicate StartsFrom(patches: seq<Patch>, b: nat) {
    forall i :: 0 <= i < |patches| ==> b <= patches[i].start
  }

  lemma InsertStarts(p: Patch, sorted: seq<Patch>, b: nat)
    requires StartsFrom(sorted, b) && b <= p.start
    ensures StartsFrom(Insert(p, sorted), b)
  {
    if sorted != [] && p.start >= sorted[0].start {
      InsertStarts(p, sorted[1..], b);
    }
  }

  lemma InsertSorted(p: Patch, sorted: seq<Patch>)
    requires Sorted(sorted)
    ensures Sorted(Insert(p, sorted))
  {
    if sorted != [] && p.start >= sorted[0].start {
      InsertSorted(p, sorted[1..]);
      InsertStarts(p, sorted[1..], sorted[0].start);
    }
  }

  lemma InsertContents(p: Patch, sorted: seq<Patch>)
    ensures multiset(Insert(p, sorted)) == multiset(sorted) + multiset{p}
  {
    if sorted != [] && p.start >= sorted[0].start {
      InsertContents(p, sorted[1..]);
      assert sorted == [sorted[0]] + sorted[1..];
    }
  }

  lemma NothingSorted()
    ensures Sorted([])
  {
  }

  lemma SortSpec(patches: seq<Patch>)
    ensures Sorted(SortByStart(patches)) && multiset(SortByStart(patches)) == multiset(patches)
    decreases |patches|
  {
    hide Insert, Sorted;
    if patches == [] {
      NothingSorted();
    } else {
      var n := |patches| - 1;
      SortSpec(patches[..n]);
      InsertSorted(patches[n], SortByStart(patches[..n]));
      InsertContents(patches[n], SortByStart(patches[..n]));
      assert patches == patches[..n] + [patches[n]];
    }
  }

  // ----- Applying -----

  /** Each patch starts where the one before ends, or later. */
  predicate Disjoint(sorted: seq<Patch>) {
    forall i :: 0 < i < |sorted| ==> sorted[i - 1].end <= sorted[i].start
  }

  predicate Within(sorted: seq<Patch>, source: string) {
    forall p | p in sorted :: p.start < p.end <= |source|
  }

  function ApplyOne(text: string, p: Patch): string
    requires p.start <= p.end <= |text|
  {
    text[..p.start] + p.newText + text[p.end..]
  }

  /** The patches applied one after the other, the last one first. */
  function ApplyDescending(text: string, sorted: seq<Patch>): string
    requires Within(sorted, text) && Disjoint(sorted)
    decreases |sorted|
  {
    if sorted == [] then text
    else
      var n := |sorted| - 1;
      var next := ApplyOne(text, sorted[n]);
      EarlierFit(text, sorted);
      ApplyDescending(next, sorted[..n])
  }

  lemma EarlierFit(text: string, sorted: seq<Patch>)
    requires sorted != [] && Within(sorted, text) && Disjoint(sorted)
    ensures var n := |sorted| - 1;
            Disjoint(sorted[..n]) && Within(sorted[..n], ApplyOne(text, sorted[n]))
  {
    var n := |sorted| - 1;
    forall p | p in sorted[..n] ensures p.end <= sorted[n].start {
      var i :| 0 <= i < n && sorted[i] == p;
      EndsBefore(text, sorted, i, n);
    }
  }

  lemma EndsBefore(text: string, sorted: seq<Patch>, i: nat, j: nat)
    requires Within(sorted, text) && Disjoint(sorted) && i < j < |sorted|
    ensures sorted[i].end <= sorted[j].start
    decreases j - i
  {
    if i + 1 < j {
      EndsBefore(text, sorted, i, j - 1);
      assert sorted[j - 1] in sorted;
    }
  }

  /** All patches at once: the untouched pieces of the text from `from` on, with
      the new texts in between. */
  function Substituted(text: string, sorted: seq<Patch>, from: nat): string
    requires from <= |text| && Within(sorted, text) && Disjoint(sorted)
    requires sorted != [] ==> from <= sorted[0].start
    decreases |sorted|
  {
    if sorted == [] then text[from..]
    else
      assert sorted[0] in sorted;
      text[from..sorted[0].start] + sorted[0].newText + Substituted(text, sorted[1..], sorted[0].end)
  }

  function Applied(source: string, edits: seq<Edit>): Result<string> {
    match Planned(source, edits, 0)
    case Err(e) => Err(e)
    case Ok(planned) =>
      var sorted := SortByStart(planned);
      PlannedWithin(source, edits, 0);
      SortSpec(planned);
      assert forall p | p in sorted :: p in multiset(sorted);
      if Disjoint(sorted) then Ok(ApplyDescending(source, sorted)) else Err(Overlap)
  }

  lemma {:induction false} PlannedWithin(source: string, edits: seq<Edit>, index: nat)
    requires index <= |edits|
    ensures match Planned(source, edits, index)
            case Ok(planned) => Within(planned, source) && |planned| == |edits| - index
            case Err(_) => true
    decreases |edits| - index
  {
    if index < |edits| {
      OneOccurrence(source, edits[index].oldText);
      PlannedWithin(source, edits, index + 1);
    }
  }

  function Prepend(front: seq<Patch>, r: Result<seq<Patch>>): Result<seq<Patch>> {
    match r
    case Ok(rest) => Ok(front + rest)
    case Err(e) => Err(e)
  }

  lemma PrependAssoc(front: seq<Patch>, r: Result<seq<Patch>>)
    ensures Prepend([], r) == r
    ensures forall p: Patch :: Prepend(front + [p], r) == Prepend(front, Prepend([p], r))
  {
    if r.Ok? {
      assert [] + r.value == r.value;
      forall p: Patch ensures Prepend(front + [p], r) == Prepend(front, Prepend([p], r)) {
        assert (front + [p]) + r.value == front + ([p] + r.value);
      }
    }
  }

  /** The first loop: one patch per edit, or the first edit that fails. */
  method PlanEdits(source: string, edits: seq<Edit>) returns (result: Result<seq<Patch>>)
    ensures result == Planned(source, edits, 0)
  {
    hide Occurrences, Prepend;
    var planned: seq<Patch> := [];
    PrependAssoc([], Planned(source, edits, 0));
    for index := 0 to |edits|
      invariant Planned(source, edits, 0) == Prepend(planned, Planned(source, edits, index))
    {
      PrependAssoc(planned, Planned(source, edits, index + 1));
      PlannedStep(source, edits, index, planned);
      var matches := FindOccurrences(source, edits[index].oldText);
      if |matches| == 0 {
        return Err(NotFound(index));
      }
      if |matches| > 1 {
        return Err(NotUnique(index, |matches|));
      }
      planned := planned + [PatchOf(source, edits[index], matches[0])];
    }
    PlannedEnd(source, edits, planned);
    return Ok(planned);
  }

  lemma PlannedStep(source: string, edits: seq<Edit>, index: nat, front: seq<Patch>)
    requires index < |edits|
    ensures var matches := Occurrences(source, edits[index].oldText);
            Prepend(front, Planned(source, edits, index)) ==
            if |matches| == 0 then Err(NotFound(index))
            else if |matches| > 1 then Err(NotUnique(index, |matches|))
            else Prepend(front, Prepend([PatchOf(source, edits[index], matches[0])], Planned(source, edits, index + 1)))
  {
    hide Occurrences;
  }

  lemma PlannedEnd(source: string, edits: seq<Edit>, front: seq<Patch>)
    ensures Prepend(front, Planned(source, edits, |edits|)) == Ok(front)
  {
    assert front + [] == front;
  }

  /** The second loop: whether neighbours overlap. */
  method CheckDisjoint(sorted: seq<Patch>) returns (ok: bool)
    ensures ok == Disjoint(sorted)
  {
    var index := 1;
    while index < |sorted|
      invariant 1 <= index
      invariant forall i :: 0 < i < index && i < |sorted| ==> sorted[i - 1].end <= sorted[i].start
    {
      if sorted[index].start < sorted[index - 1].end {
        return false;
      }
      index := index + 1;
    }
    return true;
  }

  method ApplyExactTextEdits(source: string, edits: seq<Edit>) returns (result: Result<string>)
    ensures result == Applied(source, edits)
  {
    hide Planned, SortByStart, Substituted;
    var planned := PlanEdits(source, edits);
    if planned.Err? {
      return Err(planned.error);
    }
    PlannedWithin(source, edits, 0);
    SortSpec(planned.value);
    var sorted := SortByStart(planned.value);
    assert forall p | p in sorted :: p in multiset(sorted);
    var ok := CheckDisjoint(sorted);
    if !ok {
      return Err(Overlap);
    }
    var next := ApplyPatches(source, sorted);
    return Ok(next);
  }

  /** The last loop: the patches in descending order. */
  method ApplyPatches(source: string, sorted: seq<Patch>) returns (next: string)
    requires Within(sorted, source) && Disjoint(sorted)
    ensures next == ApplyDescending(source, sorted)
  {
    hide ApplyDescending, Disjoint, Within;
    assert sorted[..|sorted|] == sorted;
    next := source;
    for k := |sorted| downto 0
      invariant Within(sorted[..k], next) && Disjoint(sorted[..k])
      invariant ApplyDescending(next, sorted[..k]) == ApplyDescending(source, sorted)
    {
      DescendingStep(next, sorted, k);
      next := next[..sorted[k].start] + sorted[k].newText + next[sorted[k].end..];
    }
    SubstitutedNone(next, 0);
    assert sorted[..0] == [];
  }

  lemma DescendingStep(text: string, sorted: seq<Patch>, k: nat)
    requires k < |sorted| && Within(sorted[..k + 1], text) && Disjoint(sorted[..k + 1])
    ensures sorted[k].start <= sorted[k].end <= |text|
    ensures Within(sorted[..k], ApplyOne(text, sorted[k])) && Disjoint(sorted[..k])
    ensures ApplyDescending(text, sorted[..k + 1]) == ApplyDescending(ApplyOne(text, sorted[k]), sorted[..k])
  {
    var upTo := sorted[..k + 1];
    assert upTo[k] == sorted[k] && upTo[k] in upTo && upTo[..k] == sorted[..k];
    EarlierFit(text, upTo);
    hide ApplyOne, Disjoint, Within;
  }

  // ----- Descending application is simultaneous substitution -----

  lemma OnePatch(text: string, p: Patch, from: nat)
    requires from <= p.start <= p.end <= |text|
    ensures from <= |ApplyOne(text, p)|
    ensures ApplyOne(text, p)[from..] == text[from..p.start] + p.newText + text[p.end..]
  {
    var next := ApplyOne(text, p);
    assert next == text[..p.start] + (p.newText + text[p.end..]);
    assert text[..p.start][from..] == text[from..p.start];
  }

  lemma {:induction false} LastPatchFirst(text: string, sorted: seq<Patch>, from: nat)
    requires sorted != [] && Within(sorted, text) && Disjoint(sorted) && from <= sorted[0].start
    ensures var n := |sorted| - 1;
            && Disjoint(sorted[..n]) && Within(sorted[..n], ApplyOne(text, sorted[n]))
            && from <= |ApplyOne(text, sorted[n])|
            && Substituted(text, sorted, from) == Substituted(ApplyOne(text, sorted[n]), sorted[..n], from)
    decreases |sorted|
  {
    hide ApplyOne, Substituted, Within, Disjoint;
    var n := |sorted| - 1;
    var p, q := sorted[0], sorted[n];
    EarlierFit(text, sorted);
    LaterFit(text, sorted);
    SubstitutedStep(text, sorted, from);
    OnePatch(text, q, from);
    if n == 0 {
      assert sorted[1..] == [] && sorted[..0] == [];
      SubstitutedNone(text, q.end);
      SubstitutedNone(ApplyOne(text, q), from);
    } else {
      var next, rest := ApplyOne(text, q), sorted[1..];
      assert rest[n - 1] == q && rest[..n - 1] == sorted[..n][1..] && rest[0] == sorted[1];
      LastPatchFirst(text, rest, p.end);
      SamePrefix(text, q, from, p.start);
      SubstitutedStep(next, sorted[..n], from);
    }
  }

  lemma LaterFit(text: string, sorted: seq<Patch>)
    requires sorted != [] && Within(sorted, text) && Disjoint(sorted)
    ensures var n := |sorted| - 1;
            && Within(sorted[1..], text) && Disjoint(sorted[1..])
            && sorted[0].start < sorted[0].end && sorted[n].start < sorted[n].end <= |text|
            && sorted[0].start <= sorted[n].start
            && (n > 0 ==> sorted[0].end <= sorted[1].start && sorted[0].end <= sorted[n].start)
  {
    var n := |sorted| - 1;
    assert sorted[0] in sorted && sorted[n] in sorted;
    if n > 0 {
      EndsBefore(text, sorted, 0, n);
      EndsBefore(text, sorted, 0, 1);
    }
  }

  lemma SubstitutedNone(text: string, from: nat)
    requires from <= |text|
    ensures Within([], text) && Disjoint([]) && Substituted(text, [], from) == text[from..]
    ensures ApplyDescending(text, []) == text
  {
  }

  lemma SamePrefix(text: string, p: Patch, i: nat, j: nat)
    requires i <= j <= p.start <= p.end <= |text|
    ensures j <= |ApplyOne(text, p)| && ApplyOne(text, p)[i..j] == text[i..j]
  {
  }

  lemma SubstitutedStep(text: string, sorted: seq<Patch>, from: nat)
    requires sorted != [] && from <= |text| && Within(sorted, text) && Disjoint(sorted) && from <= sorted[0].start
    ensures sorted[0] in sorted
    ensures Substituted(text, sorted, from)
            == text[from..sorted[0].start] + sorted[0].newText + Substituted(text, sorted[1..], sorted[0].end)
  {
  }

  /** Applying the patches from the last to the first is the simultaneous piecewise
      substitution on the original text. */
  lemma {:induction false} DescendingIsSimultaneous(text: string, sorted: seq<Patch>)
    requires Within(sorted, text) && Disjoint(sorted)
    ensures ApplyDescending(text, sorted) == Substituted(text, sorted, 0)
    decreases |sorted|
  {
    if sorted == [] {
      assert text[0..] == text;
    } else {
      var n := |sorted| - 1;
      EarlierFit(text, sorted);
      LastPatchFirst(text, sorted, 0);
      DescendingIsSimultaneous(ApplyOne(text, sorted[n]), sorted[..n]);
    }
  }

  /** What the patches add to the length of the text. */
  function Growth(sorted: seq<Patch>): int
    requires forall p | p in sorted :: p.start <= p.end
  {
    if sorted == [] then 0 else |sorted[0].newText| - (sorted[0].end - sorted[0].start) + Growth(sorted[1..])
  }

  lemma {:induction false} SubstitutedLength(text: string, sorted: seq<Patch>, from: nat)
    requires from <= |text| && Within(sorted, text) && Disjoint(sorted)
    requires sorted != [] ==> from <= sorted[0].start
    ensures |Substituted(text, sorted, from)| == |text| - from + Growth(sorted)
    decreases |sorted|
  {
    if sorted != [] {
      assert sorted[0] in sorted;
      SubstitutedLength(text, sorted[1..], sorted[0].end);
    }
  }

  /** Position `i` lies in none of the patched ranges. */
  predicate Untouched(sorted: seq<Patch>, i: nat) {
    forall p | p in sorted :: i < p.start || p.end <= i
  }

  /** How far the patches before position `i` move it. */
  function Shift(sorted: seq<Patch>, i: nat): int {
    if sorted == [] || i < sorted[0].end then 0
    else |sorted[0].newText| - (sorted[0].end - sorted[0].start) + Shift(sorted[1..], i)
  }

  lemma {:induction false} UntouchedKept(text: string, sorted: seq<Patch>, from: nat, i: nat)
    requires from <= |text| && Within(sorted, text) && Disjoint(sorted)
    requires sorted != [] ==> from <= sorted[0].start
    requires from <= i < |text| && Untouched(sorted, i)
    ensures var k := i - from + Shift(sorted, i);
            0 <= k < |Substituted(text, sorted, from)| && Substituted(text, sorted, from)[k] == text[i]
    decreases |sorted|
  {
    hide Substituted;
    if sorted == [] {
      SubstitutedNone(text, from);
    } else {
      var p := sorted[0];
      SubstitutedStep(text, sorted, from);
      if p.end <= i {
        UntouchedKept(text, sorted[1..], p.end, i);
      }
    }
  }

  /** The new text of every patch stands where the text before the patch has moved to. */
  lemma {:induction false} NewTextPlaced(text: string, sorted: seq<Patch>, from: nat, j: nat)
    requires from <= |text| && Within(sorted, text) && Disjoint(sorted)
    requires (sorted != [] ==> from <= sorted[0].start) && j < |sorted|
    ensures var k, r := sorted[j].start - from + Growth(sorted[..j]), Substituted(text, sorted, from);
            0 <= k && k + |sorted[j].newText| <= |r| && r[k..k + |sorted[j].newText|] == sorted[j].newText
    decreases |sorted|
  {
    hide Substituted, Within, Disjoint, Growth;
    var p, rest := sorted[0], sorted[1..];
    LaterFit(text, sorted);
    SubstitutedStep(text, sorted, from);
    GrowthStep(text, sorted, j);
    var lead, tail := text[from..p.start] + p.newText, Substituted(text, rest, p.end);
    if j > 0 {
      NewTextPlaced(text, rest, p.end, j - 1);
      SliceBehind(lead, tail, rest[j - 1].start - p.end + Growth(rest[..j - 1]), |sorted[j].newText|);
    } else {
      assert lead + tail == text[from..p.start] + (p.newText + tail);
      SliceBehind(text[from..p.start], p.newText + tail, 0, |p.newText|);
    }
  }

  lemma SliceBehind(lead: string, tail: string, k: nat, n: nat)
    requires k + n <= |tail|
    ensures (lead + tail)[|lead| + k..|lead| + k + n] == tail[k..k + n]
  {
  }

  lemma GrowthStep(text: string, sorted: seq<Patch>, j: nat)
    requires j < |sorted| && Within(sorted, text)
    ensures (forall p | p in sorted[..j] :: p.start <= p.end) && (forall p | p in sorted[1..] :: p.start <= p.end)
    ensures Growth(sorted[..j]) ==
      if j == 0 then 0 else |sorted[0].newText| - (sorted[0].end - sorted[0].start) + Growth(sorted[1..][..j - 1])
  {
    if j > 0 { assert sorted[..j][0] == sorted[0] && sorted[..j][1..] == sorted[1..][..j - 1]; }
  }

  // ----- The order of the edits does not matter -----

  function PatchFor(source: string, edit: Edit): Patch {
    var matches := Occurrences(source, edit.oldText);
    PatchOf(source, edit, if matches == [] then 0 else matches[0])
  }

  function PatchesFor(source: string, edits: seq<Edit>): seq<Patch> {
    if edits == [] then [] else [PatchFor(source, edits[0])] + PatchesFor(source, edits[1..])
  }

  /** The patch of an edit replaces the first occurrence of its old text by its new text. */
  lemma {:induction false} PatchesSay(source: string, edits: seq<Edit>, k: nat)
    requires k < |edits| && |Occurrences(source, edits[k].oldText)| == 1
    ensures |PatchesFor(source, edits)| == |edits|
    ensures var p, e := PatchesFor(source, edits)[k], edits[k];
            && p.newText == e.newText && p.end == p.start + |e.oldText| && MatchAt(source, e.oldText, p.start)
            && forall i: nat :: i < p.start ==> !MatchAt(source, e.oldText, i)
  {
    hide Occurrences;
    PatchesLength(source, edits);
    if k > 0 { PatchesSay(source, edits[1..], k - 1); } else { OneOccurrence(source, edits[0].oldText); }
  }

  lemma {:induction false} PatchesLength(source: string, edits: seq<Edit>)
    ensures |PatchesFor(source, edits)| == |edits|
  {
    if edits != [] { PatchesLength(source, edits[1..]); }
  }

  predicate Unique(source: string, edit: Edit) {
    |Occurrences(source, edit.oldText)| == 1
  }

  lemma {:induction false} PlannedIs(source: string, edits: seq<Edit>, index: nat)
    requires index <= |edits|
    ensures Planned(source, edits, index).Ok? <==> forall e | e in edits[index..] :: Unique(source, e)
    ensures Planned(source, edits, index).Ok? ==>
              Planned(source, edits, index).value == PatchesFor(source, edits[index..])
    decreases |edits| - index
  {
    if index < |edits| {
      hide Occurrences;
      PlannedIs(source, edits, index + 1);
      var e, rest := edits[index], edits[index + 1..];
      assert edits[index..][0] == e && edits[index..][1..] == rest;
      assert forall x :: x in edits[index..] <==> x == e || x in rest;
      assert e in edits[index..];
    }
  }

  lemma {:induction false} PatchesSplit(source: string, a: seq<Edit>, b: seq<Edit>)
    ensures PatchesFor(source, a + b) == PatchesFor(source, a) + PatchesFor(source, b)
  {
    hide PatchFor;
    if a == [] {
      assert a + b == b;
    } else {
      PatchesSplit(source, a[1..], b);
      assert (a + b)[0] == a[0] && (a + b)[1..] == a[1..] + b;
      var x, y, z := [PatchFor(source, a[0])], PatchesFor(source, a[1..]), PatchesFor(source, b);
      assert x + (y + z) == (x + y) + z;
    }
  }

  lemma PatchesAround(source: string, a: seq<Edit>, e: Edit, b: seq<Edit>)
    ensures multiset(PatchesFor(source, a + [e] + b)) ==
            multiset(PatchesFor(source, a + b)) + multiset{PatchFor(source, e)}
  {
    hide PatchFor;
    PatchesSplit(source, a + [e], b);
    PatchesSplit(source, a, [e]);
    PatchesSplit(source, a, b);
    assert [e][1..] == [] && PatchesFor(source, [e]) == [PatchFor(source, e)];
    hide PatchesFor;
  }

  lemma TakeOut(edits: seq<Edit>, e: Edit) returns (a: seq<Edit>, b: seq<Edit>)
    requires e in multiset(edits)
    ensures edits == a + [e] + b
    ensures multiset(a + b) == multiset(edits) - multiset{e} && |a + b| < |edits|
  {
    var k :| 0 <= k < |edits| && edits[k] == e;
    a, b := edits[..k], edits[k + 1..];
    assert edits == a + [e] + b;
    assert multiset(a + [e] + b) == multiset(a) + multiset{e} + multiset(b);
  }

  lemma {:induction false} PatchesPermuted(source: string, edits: seq<Edit>, edits': seq<Edit>)
    requires multiset(edits) == multiset(edits')
    ensures multiset(PatchesFor(source, edits)) == multiset(PatchesFor(source, edits'))
    decreases |edits|
  {
    hide PatchFor, PatchesFor;
    if edits == [] {
      assert |multiset(edits')| == 0;
    } else {
      var e := edits[0];
      assert e in multiset(edits);
      var c, d := TakeOut(edits, e);
      var a, b := TakeOut(edits', e);
      PatchesPermuted(source, c + d, a + b);
      PatchesAround(source, c, e, d);
      PatchesAround(source, a, e, b);
    }
  }

  /** No two patches start at the same place. */
  predicate DistinctStarts(patches: seq<Patch>) {
    forall i, j :: 0 <= i < j < |patches| ==> patches[i].start != patches[j].start
  }

  lemma SameHead(a: seq<Patch>, b: seq<Patch>)
    requires a != [] && Sorted(a) && Sorted(b) && multiset(a) == multiset(b) && DistinctStarts(a)
    ensures b != [] && a[0] == b[0]
  {
    assert a[0] in multiset(b);
    assert b[0] in multiset(a);
    var i :| 0 <= i < |a| && a[i] == b[0];
    var j :| 0 <= j < |b| && b[j] == a[0];
    assert a[0].start <= a[i].start && b[0].start <= b[j].start;
  }

  lemma TailSorted(a: seq<Patch>)
    requires a != [] && Sorted(a)
    ensures Sorted(a[1..]) && (DistinctStarts(a) ==> DistinctStarts(a[1..]))
    ensures multiset(a[1..]) == multiset(a) - multiset{a[0]}
  {
    assert a == [a[0]] + a[1..];
  }

  lemma {:induction false} SortedIsUnique(a: seq<Patch>, b: seq<Patch>)
    requires Sorted(a) && Sorted(b) && multiset(a) == multiset(b) && DistinctStarts(a)
    ensures a == b
    decreases |a|
  {
    hide Sorted, DistinctStarts;
    if a == [] {
      assert |multiset(b)| == 0;
    } else {
      SameHead(a, b);
      TailSorted(a);
      TailSorted(b);
      SortedIsUnique(a[1..], b[1..]);
      assert a == [a[0]] + a[1..] && b == [b[0]] + b[1..];
    }
  }

  lemma DisjointIsDistinct(text: string, sorted: seq<Patch>)
    requires Within(sorted, text) && Disjoint(sorted)
    ensures DistinctStarts(sorted)
  {
    forall i, j | 0 <= i < j < |sorted| ensures sorted[i].start != sorted[j].start {
      EndsBefore(text, sorted, i, j);
      assert sorted[i] in sorted;
    }
  }

  lemma SortedPatches(source: string, edits: seq<Edit>)
    requires forall e | e in edits :: Unique(source, e)
    ensures var sorted := SortByStart(PatchesFor(source, edits));
            && Planned(source, edits, 0) == Ok(PatchesFor(source, edits))
            && Sorted(sorted) && Within(sorted, source)
            && multiset(sorted) == multiset(PatchesFor(source, edits))
            && Applied(source, edits) == if Disjoint(sorted) then Ok(ApplyDescending(source, sorted)) else Err(Overlap)
  {
    hide Occurrences, ApplyDescending;
    assert edits[0..] == edits;
    PlannedIs(source, edits, 0);
    PlannedWithin(source, edits, 0);
    SortSpec(PatchesFor(source, edits));
    assert forall p | p in SortByStart(PatchesFor(source, edits)) ::
        p in multiset(SortByStart(PatchesFor(source, edits)));
  }

  lemma PermutedOneWay(source: string, edits: seq<Edit>, edits': seq<Edit>)
    requires multiset(edits) == multiset(edits') && Applied(source, edits).Ok?
    ensures Applied(source, edits') == Applied(source, edits)
  {
    hide Occurrences, ApplyDescending, Applied, Unique, Planned;
    SucceedsIff(source, edits);
    SucceedsIff(source, edits');
    forall e | e in edits' ensures Unique(source, e) {
      assert e in multiset(edits);
    }
    SortedPatches(source, edits);
    SortedPatches(source, edits');
    PatchesPermuted(source, edits, edits');
    var sorted, sorted' := SortByStart(PatchesFor(source, edits)), SortByStart(PatchesFor(source, edits'));
    DisjointIsDistinct(source, sorted);
    SortedIsUnique(sorted, sorted');
  }

  /** The first edit whose old text does not occur exactly once is the one reported. */
  lemma {:induction false} FirstFailure(source: string, edits: seq<Edit>, k: nat)
    requires k < |edits| && |Occurrences(source, edits[k].oldText)| != 1
    requires forall j :: 0 <= j < k ==> |Occurrences(source, edits[j].oldText)| == 1
    ensures var n := |Occurrences(source, edits[k].oldText)|;
            Applied(source, edits) == Err(if n == 0 then NotFound(k) else NotUnique(k, n))
  {
    hide Occurrences;
    FailureFrom(source, edits, k, 0);
  }

  lemma {:induction false} FailureFrom(source: string, edits: seq<Edit>, k: nat, index: nat)
    requires index <= k < |edits| && |Occurrences(source, edits[k].oldText)| != 1
    requires forall j :: index <= j < k ==> |Occurrences(source, edits[j].oldText)| == 1
    ensures var n := |Occurrences(source, edits[k].oldText)|;
            Planned(source, edits, index) == Err(if n == 0 then NotFound(k) else NotUnique(k, n))
    decreases k - index
  {
    hide Occurrences;
    if index < k { FailureFrom(source, edits, k, index + 1); }
  }

  /** When every old text occurs once, the edits fail exactly by overlapping. */
  lemma OverlapReported(source: string, edits: seq<Edit>)
    requires forall e | e in edits :: |Occurrences(source, e.oldText)| == 1
    ensures Applied(source, edits) == Err(Overlap) <==> !Disjoint(SortByStart(PatchesFor(source, edits)))
  {
    hide Occurrences, Disjoint, SortByStart;
    assert edits[0..] == edits;
    PlannedIs(source, edits, 0);
    SucceedsIff(source, edits);
  }

  /** The result, and whether there is one, does not depend on the order of the edits. */
  lemma OrderIrrelevant(source: string, edits: seq<Edit>, edits': seq<Edit>)
    requires multiset(edits) == multiset(edits')
    ensures Applied(source, edits).Ok? <==> Applied(source, edits').Ok?
    ensures Applied(source, edits).Ok? ==> Applied(source, edits') == Applied(source, edits)
  {
    hide Applied;
    if Applied(source, edits).Ok? { PermutedOneWay(source, edits, edits'); }
    if Applied(source, edits').Ok? { PermutedOneWay(source, edits', edits); }
  }

  /** When the edits succeed: every old text occurs once, the ranges are disjoint,
      and the result is the simultaneous substitution. */
  lemma SucceedsIff(source: string, edits: seq<Edit>)
    ensures Applied(source, edits).Ok? <==>
              && (forall e | e in edits :: Unique(source, e))
              && Disjoint(SortByStart(PatchesFor(source, edits)))
    ensures Applied(source, edits).Ok? ==>
              var sorted := SortByStart(PatchesFor(source, edits));
              && Within(sorted, source) && Disjoint(sorted)
              && Applied(source, edits).value == Substituted(source, sorted, 0)
              && |Applied(source, edits).value| == |source| + Growth(sorted)
  {
    hide Occurrences, ApplyDescending, Substituted;
    assert edits[0..] == edits;
    PlannedIs(source, edits, 0);
    if forall e | e in edits :: Unique(source, e) {
      SortedPatches(source, edits);
      var sorted := SortByStart(PatchesFor(source, edits));
      if Disjoint(sorted) {
        DescendingIsSimultaneous(source, sorted);
        SubstitutedLength(source, sorted, 0);
      }
    }
  }
}
