/** The streaming splitter for inline reasoning tags.

    Chunks of model output arrive cut at arbitrary places.  The extractor must
    emit what a single pass over the whole text would emit, however it was cut.
    Everything up to the class is stated for any vocabulary of clean tag names. */
module InlineReasoning {

  import opened Wrappers

  // ----- Characters and tags -----

  /** Case folding of a case-insensitive regular expression without the unicode
      flag: only ASCII letters fold to ASCII letters. */
  function FoldChar(c: char): char {
    if 'A' <= c <= 'Z' then (c as int + 32) as char else c
  }

  function Fold(s: string): (r: string)
    ensures |r| == |s|
    ensures forall i :: 0 <= i < |s| ==> r[i] == FoldChar(s[i])
  {
    seq(|s|, i requires 0 <= i < |s| => FoldChar(s[i]))
  }

  const KELVIN := '\U{212A}'

  /** `toLowerCase` also maps the Kelvin sign to an ASCII letter, so the prefix
      test may hold back a tail that the regular expressions never match. */
  function LowerChar(c: char): char {
    if c == KELVIN then 'k' else FoldChar(c)
  }

  function Lower(s: string): (r: string)
    ensures |r| == |s|
    ensures forall i :: 0 <= i < |s| ==> r[i] == LowerChar(s[i])
  {
    seq(|s|, i requires 0 <= i < |s| => LowerChar(s[i]))
  }

  /** The longest tail that is ever deferred: `</` and the longest name. */
  const MAX_TAG_LEN: nat := 12

  /** A tag vocabulary: short names free of the characters that delimit tags. */
  ghost predicate Clean(names: seq<string>) {
    forall name | name in names ::
      |name| + 2 <= MAX_TAG_LEN && '<' !in name && '>' !in name && KELVIN !in name
  }

  function TagStem(name: string, closer: bool): string {
    (if closer then "</" else "<") + name
  }

  /** A complete tag: an opener `<name>` or a closer `</name>`. */
  predicate IsTag(names: seq<string>, t: string, closer: bool) {
    exists name | name in names :: Fold(t) == TagStem(name, closer) + ">"
  }

  /** The fragment, which starts with `<`, may still grow into a tag. */
  predicate CouldBeTagStart(names: seq<string>, fragment: string) {
    var lower := Lower(fragment);
    StartsSomeTag(names, lower) || lower == "<" || lower == "</"
  }

  predicate StartsSomeTag(names: seq<string>, lower: string) {
    names != [] &&
    (lower <= TagStem(names[0], false) || lower <= TagStem(names[0], true) || StartsSomeTag(names[1..], lower))
  }

  lemma StartsSomeTagMeans(names: seq<string>, lower: string)
    ensures StartsSomeTag(names, lower)
            <==> exists name | name in names :: lower <= TagStem(name, false) || lower <= TagStem(name, true)
  {
  }

  /** A tag has its only `<` in front and its only `>` at the end. */
  lemma TagShape(names: seq<string>, t: string, closer: bool)
    requires Clean(names) && IsTag(names, t, closer)
    ensures 2 <= |t| <= MAX_TAG_LEN + 1
    ensures t[0] == '<' && t[|t| - 1] == '>'
    ensures forall i :: 0 < i < |t| ==> t[i] != '<'
    ensures forall i :: 0 <= i < |t| - 1 ==> t[i] != '>'
  {
    var name :| name in names && Fold(t) == TagStem(name, closer) + ">";
    var full := TagStem(name, closer) + ">";
    assert forall i :: 0 <= i < |t| ==> FoldChar(t[i]) == full[i];
    assert forall i :: 0 < i < |t| ==> full[i] != '<';
    assert forall i :: 0 <= i < |t| - 1 ==> full[i] != '>';
  }

  /** Every proper non-empty prefix of a tag is recognised as a possible start. */
  lemma TagPrefixIsTagStart(names: seq<string>, t: string, closer: bool, n: nat)
    requires Clean(names) && IsTag(names, t, closer) && 0 < n < |t|
    ensures CouldBeTagStart(names, t[..n]) && n <= MAX_TAG_LEN
  {
    TagShape(names, t, closer);
    var name :| name in names && Fold(t) == TagStem(name, closer) + ">";
    var stem := TagStem(name, closer);
    forall i | 0 <= i < n ensures Lower(t[..n])[i] == stem[i] {
      assert Fold(t)[i] == stem[i];
    }
    assert Lower(t[..n]) <= stem;
    StartsSomeTagMeans(names, Lower(t[..n]));
  }

  lemma TagStartPrefixClosed(names: seq<string>, f: string, n: nat)
    requires CouldBeTagStart(names, f) && 0 < n <= |f|
    ensures CouldBeTagStart(names, f[..n])
  {
    var lower := Lower(f);
    assert Lower(f[..n]) == lower[..n];
    StartsSomeTagMeans(names, lower);
    StartsSomeTagMeans(names, lower[..n]);
    if lower == "<" || lower == "</" {
      assert n == 1 ==> lower[..n] == "<";
      assert n == 2 ==> lower[..n] == lower;
    } else {
      var name :| name in names && (lower <= TagStem(name, false) || lower <= TagStem(name, true));
      if lower <= TagStem(name, false) {
        assert lower[..n] <= TagStem(name, false);
      } else {
        assert lower[..n] <= TagStem(name, true);
      }
    }
  }

  // ----- The two library searches: regular-expression exec and lastIndexOf -----

  datatype Match = Match(index: nat, length: nat)

  predicate TagAt(names: seq<string>, s: string, m: Match, closer: bool) {
    m.index + m.length <= |s| && IsTag(names, s[m.index..m.index + m.length], closer)
  }

  /** No tag of the given kind starts before position `k`. */
  ghost predicate NoTagBefore(names: seq<string>, s: string, k: nat, closer: bool) {
    forall m: Match :: m.index < k ==> !TagAt(names, s, m, closer)
  }

  predicate NameAt(name: string, s: string, j: nat, closer: bool) {
    var full := TagStem(name, closer) + ">";
    j + |full| <= |s| && Fold(s[j..j + |full|]) == full
  }

  /** The alternatives of the expression, tried in order at one position. */
  function NameFoundAt(names: seq<string>, s: string, j: nat, closer: bool): (r: Option<string>)
    ensures r.Some? ==> NameAt(r.value, s, j, closer)
  {
    if names == [] then None
    else if NameAt(names[0], s, j, closer) then Some(names[0])
    else NameFoundAt(names[1..], s, j, closer)
  }

  lemma NameFoundAtSpec(names: seq<string>, s: string, j: nat, closer: bool)
    ensures match NameFoundAt(names, s, j, closer)
            case Some(name) => name in names
            case None => forall name | name in names :: !NameAt(name, s, j, closer)
  {
  }

  /** The names found at a position are the tags that start there. */
  lemma NamesAreTags(names: seq<string>, s: string, j: nat, closer: bool)
    ensures match NameFoundAt(names, s, j, closer)
            case Some(name) => TagAt(names, s, Match(j, |TagStem(name, closer)| + 1), closer)
            case None => forall m: Match :: m.index == j ==> !TagAt(names, s, m, closer)
  {
    NameFoundAtSpec(names, s, j, closer);
    hide NameFoundAt;
  }

  function FirstTagFrom(names: seq<string>, s: string, closer: bool, j: nat): (r: Option<Match>)
    requires j <= |s|
    ensures r.Some? ==> r.value.length > 0 && r.value.index + r.value.length <= |s|
    decreases |s| - j
  {
    if j == |s| then None
    else
      match NameFoundAt(names, s, j, closer)
      case Some(name) => Some(Match(j, |TagStem(name, closer)| + 1))
      case None => FirstTagFrom(names, s, closer, j + 1)
  }

  lemma {:induction false} FirstTagFromSpec(names: seq<string>, s: string, closer: bool, j: nat)
    requires j <= |s|
    requires NoTagBefore(names, s, j, closer)
    ensures var r := FirstTagFrom(names, s, closer, j);
            match r
            case Some(m) => TagAt(names, s, m, closer) && NoTagBefore(names, s, m.index, closer)
            case None => NoTagBefore(names, s, |s|, closer)
    decreases |s| - j
  {
    if j < |s| {
      NamesAreTags(names, s, j, closer);
      hide NameFoundAt, NameAt, TagAt, TagStem;
      if NameFoundAt(names, s, j, closer).None? {
        FirstTagFromSpec(names, s, closer, j + 1);
      }
    }
  }

  /** `exec` of the opener or closer expression: the leftmost tag. */
  function FirstTag(names: seq<string>, s: string, closer: bool): (r: Option<Match>)
    ensures r.Some? ==> r.value.length > 0 && r.value.index + r.value.length <= |s|
  {
    FirstTagFrom(names, s, closer, 0)
  }

  lemma FirstTagSpec(names: seq<string>, s: string, closer: bool)
    ensures match FirstTag(names, s, closer)
            case Some(m) => TagAt(names, s, m, closer) && NoTagBefore(names, s, m.index, closer)
            case None => NoTagBefore(names, s, |s|, closer)
  {
    FirstTagFromSpec(names, s, closer, 0);
  }

  lemma TagShapeAt(names: seq<string>, s: string, m: Match, closer: bool)
    requires Clean(names) && TagAt(names, s, m, closer)
    ensures 2 <= m.length <= MAX_TAG_LEN + 1
    ensures s[m.index] == '<' && s[m.index + m.length - 1] == '>'
    ensures forall i :: m.index < i < m.index + m.length ==> s[i] != '<'
    ensures forall i :: m.index <= i < m.index + m.length - 1 ==> s[i] != '>'
  {
    var t := s[m.index..m.index + m.length];
    TagShape(names, t, closer);
    assert forall i :: m.index <= i < m.index + m.length ==> s[i] == t[i - m.index];
  }

  lemma TagAtUnique(names: seq<string>, s: string, m: Match, m': Match, closer: bool)
    requires Clean(names)
    requires TagAt(names, s, m, closer) && TagAt(names, s, m', closer) && m.index == m'.index
    ensures m.length >= m'.length
  {
    TagShapeAt(names, s, m, closer);
    TagShapeAt(names, s, m', closer);
  }

  /** The leftmost tag is characterised by its position. */
  lemma FirstTagIs(names: seq<string>, s: string, m: Match, closer: bool)
    requires Clean(names)
    requires TagAt(names, s, m, closer) && NoTagBefore(names, s, m.index, closer)
    ensures FirstTag(names, s, closer) == Some(m)
  {
    hide FirstTag, Clean, IsTag, TagAt;
    TagShapeAt(names, s, m, closer);
    TagEnds(names, s, m, closer);
    FirstTagSpec(names, s, closer);
    var r := FirstTag(names, s, closer);
    assert r.Some? && r.value.index == m.index;
    TagAtUnique(names, s, m, r.value, closer);
    TagAtUnique(names, s, r.value, m, closer);
  }

  function LastLt(s: string): (r: Option<nat>)
    ensures r.Some? ==> r.value < |s|
  {
    if s == "" then None
    else if s[|s| - 1] == '<' then Some(|s| - 1)
    else LastLt(s[..|s| - 1])
  }

  ghost predicate IsLastLt(s: string, lt: nat) {
    lt < |s| && s[lt] == '<' && forall i :: lt < i < |s| ==> s[i] != '<'
  }

  lemma LastLtSpec(s: string)
    ensures LastLt(s).Some? ==> IsLastLt(s, LastLt(s).value)
    ensures LastLt(s).None? ==> '<' !in s
    ensures forall lt: nat :: IsLastLt(s, lt) ==> LastLt(s) == Some(lt)
  {
    if s != "" && s[|s| - 1] != '<' {
      var s' := s[..|s| - 1];
      LastLtSpec(s');
      forall lt: nat | IsLastLt(s, lt) ensures LastLt(s) == Some(lt) {
        assert IsLastLt(s', lt);
      }
    }
  }

  /** How much of `work` may be emitted now; the rest is deferred. */
  function SafeLength(names: seq<string>, work: string): (n: nat)
    ensures n <= |work|
  {
    match LastLt(work)
    case None => |work|
    case Some(lt) =>
      if |work| - lt > MAX_TAG_LEN then |work|
      else if CouldBeTagStart(names, work[lt..]) then lt
      else |work|
  }

  // ----- What one pass over a string emits -----

  /** The emitted text and reasoning, and the state left behind. */
  datatype Scan = Scan(text: string, reasoning: string, inside: bool, tail: string, buffer: string)

  function Emit(inside: bool, piece: string, rest: Scan): Scan {
    if inside then rest.(reasoning := piece + rest.reasoning) else rest.(text := piece + rest.text)
  }

  /** The reasoning buffer after one more piece: openers reset it, text leaves it. */
  function Grow(inside: bool, buffer: string, piece: string): string {
    if inside then buffer + piece else buffer
  }

  function Run(names: seq<string>, inside: bool, buffer: string, work: string): Scan
    decreases |work|
  {
    if work == "" then Scan("", "", inside, "", buffer)
    else
      match FirstTag(names, work, inside)
      case Some(m) =>
        var before := work[..m.index];
        Emit(inside, before,
             Run(names, !inside, EnterBuffer(inside, buffer, before), work[m.index + m.length..]))
      case None =>
        var n := SafeLength(names, work);
        Emit(inside, work[..n], Scan("", "", inside, work[n..], Grow(inside, buffer, work[..n])))
  }

  function EnterBuffer(inside: bool, buffer: string, before: string): string {
    if inside then buffer + before else ""
  }

  lemma RunTag(names: seq<string>, inside: bool, buffer: string, work: string, m: Match)
    requires work != "" && FirstTag(names, work, inside) == Some(m)
    ensures Run(names, inside, buffer, work)
            == Emit(inside, work[..m.index],
                    Run(names, !inside, EnterBuffer(inside, buffer, work[..m.index]), work[m.index + m.length..]))
  {
    hide IsTag, NoTagBefore;
  }

  lemma RunNoTag(names: seq<string>, inside: bool, buffer: string, work: string)
    requires FirstTag(names, work, inside).None?
    ensures var n := SafeLength(names, work);
            Run(names, inside, buffer, work)
            == Emit(inside, work[..n], Scan("", "", inside, work[n..], Grow(inside, buffer, work[..n])))
  {
    hide IsTag, NoTagBefore;
  }

  // ----- Cutting the input does not change what is emitted -----

  /** Position `j` neither starts a tag nor could grow into one. */
  ghost predicate Inert(names: seq<string>, s: string, j: nat, closer: bool)
    requires j < |s|
  {
    && (forall len: nat :: !TagAt(names, s, Match(j, len), closer))
    && !(LastLt(s) == Some(j) && |s| - j <= MAX_TAG_LEN && CouldBeTagStart(names, s[j..]))
  }

  lemma SliceTagAt(names: seq<string>, s: string, k: nat, m: Match, closer: bool)
    requires k <= |s|
    ensures TagAt(names, s[k..], m, closer) == TagAt(names, s, Match(k + m.index, m.length), closer)
  {
    if m.index + m.length <= |s[k..]| {
      assert s[k..][m.index..m.index + m.length] == s[k + m.index..k + m.index + m.length];
    }
  }

  lemma SliceFirstTag(names: seq<string>, s: string, k: nat, closer: bool)
    requires Clean(names)
    requires k <= |s| && NoTagBefore(names, s, k, closer)
    ensures match FirstTag(names, s[k..], closer)
            case None => FirstTag(names, s, closer).None?
            case Some(m) => FirstTag(names, s, closer) == Some(Match(k + m.index, m.length))
  {
    hide IsTag, CouldBeTagStart, Clean;
    FirstTagSpec(names, s, closer);
    FirstTagSpec(names, s[k..], closer);
    var r := FirstTag(names, s[k..], closer);
    forall m: Match ensures m.index >= k ==>
        TagAt(names, s, m, closer) == TagAt(names, s[k..], Match(m.index - k, m.length), closer)
    {
      if m.index >= k {
        SliceTagAt(names, s, k, Match(m.index - k, m.length), closer);
      }
    }
    if r.Some? {
      FirstTagIs(names, s, Match(k + r.value.index, r.value.length), closer);
    }
  }

  lemma LastLtSlice(s: string, k: nat)
    requires k <= |s|
    ensures match LastLt(s[k..])
            case Some(lt) => LastLt(s) == Some(k + lt)
            case None => LastLt(s).Some? ==> LastLt(s).value < k
  {
    LastLtSpec(s);
    LastLtSpec(s[k..]);
    var r, r' := LastLt(s[k..]), LastLt(s);
    if r.Some? {
      assert IsLastLt(s, k + r.value);
    } else {
      assert forall i :: k <= i < |s| ==> s[i] == s[k..][i - k];
    }
  }

  lemma SafeLengthSlice(names: seq<string>, s: string, k: nat)
    requires k <= |s|
    requires SafeLength(names, s) >= k
    ensures SafeLength(names, s) == k + SafeLength(names, s[k..])
  {
    LastLtSlice(s, k);
    if LastLt(s[k..]).Some? {
      var lt := LastLt(s[k..]).value;
      assert s[k..][lt..] == s[k + lt..];
    }
  }

  lemma InertFront(names: seq<string>, s: string, k: nat, closer: bool)
    requires k <= |s|
    requires forall j :: 0 <= j < k ==> Inert(names, s, j, closer)
    ensures NoTagBefore(names, s, k, closer) && SafeLength(names, s) >= k
  {
    hide IsTag, CouldBeTagStart;
    forall m: Match | m.index < k ensures !TagAt(names, s, m, closer) {
      assert m == Match(m.index, m.length) && Inert(names, s, m.index, closer);
    }
    var n := SafeLength(names, s);
    assert n < k ==> Inert(names, s, n, closer);
  }

  lemma SkipToTag(names: seq<string>, inside: bool, buffer: string, s: string, k: nat, m: Match)
    requires k <= |s|
    requires FirstTag(names, s[k..], inside) == Some(m)
    requires FirstTag(names, s, inside) == Some(Match(k + m.index, m.length))
    ensures Run(names, inside, buffer, s)
            == Emit(inside, s[..k], Run(names, inside, Grow(inside, buffer, s[..k]), s[k..]))
  {
    hide FirstTag, Run;
    assert s[..k + m.index] == s[..k] + s[k..][..m.index];
    assert buffer + s[..k + m.index] == (buffer + s[..k]) + s[k..][..m.index];
    assert s[k..][m.index + m.length..] == s[k + m.index + m.length..];
    RunTag(names, inside, Grow(inside, buffer, s[..k]), s[k..], m);
    RunTag(names, inside, buffer, s, Match(k + m.index, m.length));
  }

  lemma SkipToEnd(names: seq<string>, inside: bool, buffer: string, s: string, k: nat)
    requires k <= |s| && k <= SafeLength(names, s)
    requires FirstTag(names, s[k..], inside).None? && FirstTag(names, s, inside).None?
    ensures Run(names, inside, buffer, s)
            == Emit(inside, s[..k], Run(names, inside, Grow(inside, buffer, s[..k]), s[k..]))
  {
    hide FirstTag, Run, SafeLength;
    var n := SafeLength(names, s);
    SafeLengthSlice(names, s, k);
    assert s[..n] == s[..k] + s[k..][..n - k];
    assert buffer + s[..n] == (buffer + s[..k]) + s[k..][..n - k];
    assert s[n..] == s[k..][n - k..];
    RunNoTag(names, inside, Grow(inside, buffer, s[..k]), s[k..]);
    RunNoTag(names, inside, buffer, s);
  }

  /** Inert positions in front can be emitted straight away. */
  lemma SkipInert(names: seq<string>, inside: bool, buffer: string, s: string, k: nat)
    requires Clean(names)
    requires k <= |s|
    requires forall j :: 0 <= j < k ==> Inert(names, s, j, inside)
    ensures Run(names, inside, buffer, s)
            == Emit(inside, s[..k], Run(names, inside, Grow(inside, buffer, s[..k]), s[k..]))
  {
    hide IsTag, CouldBeTagStart, Clean, SafeLength, LastLt, NoTagBefore, Run, Inert;
    InertFront(names, s, k, inside);
    SliceFirstTag(names, s, k, inside);
    match FirstTag(names, s[k..], inside) {
      case Some(m) => SkipToTag(names, inside, buffer, s, k, m);
      case None => SkipToEnd(names, inside, buffer, s, k);
    }
  }

  /** A tag that starts inside `a` and ends beyond it makes the rest of `a` a
      deferred tail. */
  lemma StraddlingTag(names: seq<string>, a: string, b: string, m: Match, closer: bool)
    requires Clean(names)
    requires TagAt(names, a + b, m, closer) && m.index < |a| < m.index + m.length
    ensures SafeLength(names, a) == m.index
  {
    hide IsTag, CouldBeTagStart, Clean;
    var t := (a + b)[m.index..m.index + m.length];
    TagShape(names, t, closer);
    TagPrefixIsTagStart(names, t, closer, |a| - m.index);
    assert t[..|a| - m.index] == a[m.index..];
    assert a[m.index] == t[0];
    assert forall i :: m.index < i < |a| ==> a[i] == t[i - m.index];
    LastLtSpec(a);
    assert IsLastLt(a, m.index);
    assert LastLt(a) == Some(m.index);
  }

  lemma InertBeforeTail(names: seq<string>, a: string, b: string, j: nat, closer: bool)
    requires Clean(names)
    requires FirstTag(names, a, closer).None? && j < SafeLength(names, a)
    ensures Inert(names, a + b, j, closer)
  {
    hide IsTag, CouldBeTagStart, Clean;
    var s := a + b;
    FirstTagSpec(names, a, closer);
    LastLtSpec(s);
    LastLtSpec(a);
    forall len: nat ensures !TagAt(names, s, Match(j, len), closer) {
      if j + len <= |a| {
        assert s[j..j + len] == a[j..j + len];
        assert !TagAt(names, a, Match(j, len), closer);
      } else if TagAt(names, s, Match(j, len), closer) {
        StraddlingTag(names, a, b, Match(j, len), closer);
      }
    }
    if LastLt(s) == Some(j) && CouldBeTagStart(names, s[j..]) {
      TagStartPrefixClosed(names, s[j..], |a| - j);
      assert s[j..][..|a| - j] == a[j..];
      assert IsLastLt(a, j);
      assert LastLt(a) == Some(j);
    }
  }

  /** A tag of `a` that is leftmost in `a` is leftmost in any extension of `a`. */
  lemma FirstTagExtends(names: seq<string>, a: string, b: string, m: Match, closer: bool)
    requires Clean(names)
    requires FirstTag(names, a, closer) == Some(m)
    ensures FirstTag(names, a + b, closer) == Some(m)
  {
    hide IsTag, CouldBeTagStart, Clean;
    var s := a + b;
    FirstTagSpec(names, a, closer);
    assert s[m.index..m.index + m.length] == a[m.index..m.index + m.length];
    TagShapeAt(names, s, m, closer);
    forall m': Match | m'.index < m.index ensures !TagAt(names, s, m', closer) {
      if m'.index + m'.length <= m.index {
        assert s[m'.index..m'.index + m'.length] == a[m'.index..m'.index + m'.length];
        assert !TagAt(names, a, m', closer);
      } else if TagAt(names, s, m', closer) {
        TagShapeAt(names, s, m', closer);
      }
    }
    FirstTagIs(names, s, m, closer);
  }

  function After(text: string, reasoning: string, r: Scan): Scan {
    r.(text := text + r.text, reasoning := reasoning + r.reasoning)
  }

  /** Appending what `r'` emits, from where it leaves off, to what `r` emitted. */
  function Then(r: Scan, r': Scan): Scan {
    After(r.text, r.reasoning, r')
  }

  /** Cutting a string in two and carrying the deferred tail over changes nothing. */
  lemma {:induction false} RunSplit(names: seq<string>, inside: bool, buffer: string, a: string, b: string)
    requires Clean(names)
    ensures var r := Run(names, inside, buffer, a);
            Run(names, inside, buffer, a + b) == Then(r, Run(names, r.inside, r.buffer, r.tail + b))
    decreases |a|
  {
    hide IsTag, CouldBeTagStart, Clean, Inert, SafeLength, FirstTag, NoTagBefore, Run;
    var s := a + b;
    match FirstTag(names, a, inside) {
      case Some(m) =>
        FirstTagExtends(names, a, b, m, inside);
        var before, a' := a[..m.index], a[m.index + m.length..];
        assert s[..m.index] == before;
        assert s[m.index + m.length..] == a' + b;
        var buffer' := EnterBuffer(inside, buffer, before);
        RunTag(names, inside, buffer, a, m);
        RunTag(names, inside, buffer, s, m);
        RunSplit(names, !inside, buffer', a', b);
        var r := Run(names, !inside, buffer', a');
      case None =>
        var n := SafeLength(names, a);
        forall j | 0 <= j < n ensures Inert(names, s, j, inside) {
          InertBeforeTail(names, a, b, j, inside);
        }
        SkipInert(names, inside, buffer, s, n);
        RunNoTag(names, inside, buffer, a);
        assert s[..n] == a[..n];
        assert s[n..] == a[n..] + b;
    }
  }

  // ----- The pieces of a text, defined without any scanning -----

  datatype Piece = Content(text: string) | Tag(markup: string)

  /** `pieces` is a way to read a text: contents and tags alternate, openers and
      closers alternate, and no content hides the tag it is waiting for. */
  ghost predicate IsReading(names: seq<string>, inside: bool, pieces: seq<Piece>)
    decreases |pieces|
  {
    && pieces != []
    && pieces[0].Content?
    && NoTagBefore(names, pieces[0].text, |pieces[0].text|, inside)
    && (|pieces| == 1
        || (&& pieces[1].Tag?
            && IsTag(names, pieces[1].markup, inside)
            && IsReading(names, !inside, pieces[2..])))
  }

  function Markup(pieces: seq<Piece>): string {
    if pieces == [] then ""
    else
      (match pieces[0] case Content(t) => t case Tag(t) => t) + Markup(pieces[1..])
  }

  /** The contents outside (`want` false) or inside (`want` true) the tags. */
  function Contents(inside: bool, want: bool, pieces: seq<Piece>): string
    decreases |pieces|
  {
    if pieces == [] then ""
    else
      match pieces[0]
      case Content(t) => (if inside == want then t else "") + Contents(inside, want, pieces[1..])
      case Tag(_) => Contents(!inside, want, pieces[1..])
  }

  function Flushed(r: Scan): Scan {
    if r.inside then r.(reasoning := r.reasoning + r.tail, tail := "")
    else r.(text := r.text + r.tail, tail := "")
  }

  lemma FlushedEmit(inside: bool, c: string, r: Scan)
    ensures Flushed(Emit(inside, c, r)) == Emit(inside, c, Flushed(r))
  {
    assert c + (r.text + r.tail) == (c + r.text) + r.tail;
    assert c + (r.reasoning + r.tail) == (c + r.reasoning) + r.tail;
  }

  /** Whatever reading a text has, one pass plus a flush emits exactly its outer
      contents as text and its inner contents as reasoning. */
  lemma {:induction false} RunFollowsReading(names: seq<string>, inside: bool, buffer: string, pieces: seq<Piece>)
    requires Clean(names) && IsReading(names, inside, pieces)
    ensures var r := Flushed(Run(names, inside, buffer, Markup(pieces)));
            && r.text == Contents(inside, false, pieces)
            && r.reasoning == Contents(inside, true, pieces)
    decreases |pieces|
  {
    hide IsTag, CouldBeTagStart, Clean, SafeLength, FirstTag, NoTagBefore, Run;
    var c := pieces[0].text;
    var s := Markup(pieces);
    if |pieces| == 1 {
      assert Markup(pieces[1..]) == "";
      assert s == c;
      NoTagNoMatch(names, c, inside);
      RunNoTag(names, inside, buffer, c);
      assert c[..SafeLength(names, c)] + c[SafeLength(names, c)..] == c;
    } else {
      var t := pieces[1].markup;
      var rest := Markup(pieces[2..]);
      assert pieces[1..][1..] == pieces[2..];
      assert s == c + t + rest;
      FirstTagAfterContent(names, c, t, rest, inside);
      RunTag(names, inside, buffer, s, Match(|c|, |t|));
      assert s[..|c|] == c && s[|c| + |t|..] == rest;
      var buffer' := EnterBuffer(inside, buffer, c);
      RunFollowsReading(names, !inside, buffer', pieces[2..]);
      FlushedEmit(inside, c, Run(names, !inside, buffer', rest));
    }
  }

  /** What the last block holds: an opener begins it anew, a closer leaves it. */
  function LastBlock(inside: bool, buffer: string, pieces: seq<Piece>): string
    decreases |pieces|
  {
    if pieces == [] then buffer
    else
      match pieces[0]
      case Content(t) => LastBlock(inside, if inside then buffer + t else buffer, pieces[1..])
      case Tag(_) => LastBlock(!inside, if inside then buffer else "", pieces[1..])
  }

  /** The side after the pieces: every tag changes it. */
  function LastSide(inside: bool, pieces: seq<Piece>): bool
    decreases |pieces|
  {
    if pieces == [] then inside else LastSide(if pieces[0].Tag? then !inside else inside, pieces[1..])
  }

  /** The state after one pass: on the side where the tags have led, with the last
      block in the buffer up to the deferred tail. */
  lemma {:induction false} StateFollowsReading(names: seq<string>, inside: bool, buffer: string, pieces: seq<Piece>)
    requires Clean(names) && IsReading(names, inside, pieces)
    ensures var r := Run(names, inside, buffer, Markup(pieces));
            && r.inside == LastSide(inside, pieces)
            && LastBlock(inside, buffer, pieces) == r.buffer + if r.inside then r.tail else ""
    decreases |pieces|
  {
    hide IsTag, CouldBeTagStart, Clean, NoTagBefore, Run, LastBlock, LastSide, EnterBuffer;
    var c := pieces[0].text;
    LastBlockStep(inside, buffer, pieces);
    if |pieces| == 1 {
      assert pieces[1..] == [] && c + "" == c;
      NoTagNoMatch(names, c, inside);
      StateAtEnd(names, inside, buffer, c);
    } else {
      var t := pieces[1].markup;
      var rest := Markup(pieces[2..]);
      assert pieces[1..][1..] == pieces[2..];
      assert Markup(pieces) == c + t + rest;
      hide Markup;
      FirstTagAfterContent(names, c, t, rest, inside);
      StatePastTag(names, inside, buffer, c, t, rest);
      StateFollowsReading(names, !inside, EnterBuffer(inside, buffer, c), pieces[2..]);
    }
  }

  lemma StateAtEnd(names: seq<string>, inside: bool, buffer: string, c: string)
    requires FirstTag(names, c, inside).None?
    ensures var r := Run(names, inside, buffer, c);
            r.inside == inside && (if inside then buffer + c else buffer) == r.buffer + if inside then r.tail else ""
  {
    hide FirstTag, SafeLength, Run;
    RunNoTag(names, inside, buffer, c);
    var n := SafeLength(names, c);
    assert c[..n] + c[n..] == c;
    assert buffer + (c[..n] + c[n..]) == (buffer + c[..n]) + c[n..] && buffer + "" == buffer;
  }

  lemma StatePastTag(names: seq<string>, inside: bool, buffer: string, c: string, t: string, rest: string)
    requires c + t + rest != "" && FirstTag(names, c + t + rest, inside) == Some(Match(|c|, |t|))
    ensures var r := Run(names, inside, buffer, c + t + rest);
            var r' := Run(names, !inside, EnterBuffer(inside, buffer, c), rest);
            r.inside == r'.inside && r.buffer == r'.buffer && r.tail == r'.tail
  {
    hide FirstTag, Run, EnterBuffer;
    var s := c + t + rest;
    RunTag(names, inside, buffer, s, Match(|c|, |t|));
    assert s[..|c|] == c && s[|c| + |t|..] == rest;
  }

  lemma LastBlockStep(inside: bool, buffer: string, pieces: seq<Piece>)
    requires pieces != [] && pieces[0].Content? && (|pieces| > 1 ==> pieces[1].Tag?)
    ensures var c := pieces[0].text;
            LastBlock(inside, buffer, pieces) ==
              if |pieces| == 1 then if inside then buffer + c else buffer
              else LastBlock(!inside, EnterBuffer(inside, buffer, c), pieces[2..])
    ensures LastSide(inside, pieces) == if |pieces| == 1 then inside else LastSide(!inside, pieces[2..])
  {
    if |pieces| > 1 { assert pieces[1..][0] == pieces[1] && pieces[1..][1..] == pieces[2..]; }
  }

  lemma NoTagNoMatch(names: seq<string>, s: string, closer: bool)
    requires Clean(names) && NoTagBefore(names, s, |s|, closer)
    ensures FirstTag(names, s, closer).None?
  {
    hide IsTag;
    FirstTagSpec(names, s, closer);
  }

  lemma FirstTagAfterContent(names: seq<string>, c: string, t: string, rest: string, closer: bool)
    requires Clean(names) && NoTagBefore(names, c, |c|, closer) && IsTag(names, t, closer)
    ensures c + t + rest != "" && FirstTag(names, c + t + rest, closer) == Some(Match(|c|, |t|))
  {
    hide IsTag, CouldBeTagStart, Clean;
    var s := c + t + rest;
    var m := Match(|c|, |t|);
    assert s[m.index..m.index + m.length] == t;
    TagShapeAt(names, s, m, closer);
    forall m': Match | m'.index < m.index ensures !TagAt(names, s, m', closer) {
      if m'.index + m'.length <= m.index {
        assert s[m'.index..m'.index + m'.length] == c[m'.index..m'.index + m'.length];
        assert !TagAt(names, c, m', closer);
      } else if TagAt(names, s, m', closer) {
        TagShapeAt(names, s, m', closer);
      }
    }
    FirstTagIs(names, s, m, closer);
  }

  lemma ReadingCons(names: seq<string>, inside: bool, c: string, t: string, rest: seq<Piece>)
    requires NoTagBefore(names, c, |c|, inside) && IsTag(names, t, inside) && IsReading(names, !inside, rest)
    ensures IsReading(names, inside, [Content(c), Tag(t)] + rest)
    ensures Markup([Content(c), Tag(t)] + rest) == c + t + Markup(rest)
  {
    hide IsTag, NoTagBefore;
    var pieces := [Content(c), Tag(t)] + rest;
    assert pieces[1..] == [Tag(t)] + rest && pieces[2..] == rest && pieces[1..][1..] == rest;
  }

  /** Every text has a reading, so every input character is emitted exactly once
      or belongs to a recognised tag. */
  lemma {:induction false} ReadingExists(names: seq<string>, inside: bool, s: string) returns (pieces: seq<Piece>)
    requires Clean(names)
    ensures IsReading(names, inside, pieces) && Markup(pieces) == s
    decreases |s|
  {
    hide IsTag, CouldBeTagStart, Clean, FirstTag, NoTagBefore, FirstTagFrom;
    FirstTagSpec(names, s, inside);
    match FirstTag(names, s, inside) {
      case None =>
        pieces := [Content(s)];
        assert Markup(pieces[1..]) == "";
      case Some(m) =>
        var c, t := s[..m.index], s[m.index..m.index + m.length];
        var rest := ReadingExists(names, !inside, s[m.index + m.length..]);
        pieces := [Content(c), Tag(t)] + rest;
        NoTagInPrefix(names, s, m.index, inside);
        ReadingCons(names, inside, c, t, rest);
        assert s == c + t + s[m.index + m.length..];
    }
  }

  /** Neither half of a tag that was cut in two holds a tag. */
  lemma HalfTag(names: seq<string>, t: string, k: nat, closer: bool)
    requires Clean(names) && IsTag(names, t, closer) && 0 < k < |t|
    ensures NoTagBefore(names, t[..k], k, closer) && NoTagBefore(names, t[k..], |t| - k, closer)
  {
    hide IsTag, Clean;
    TagShape(names, t, closer);
    forall m: Match ensures !TagAt(names, t[..k], m, closer) && !TagAt(names, t[k..], m, closer) {
      if TagAt(names, t[..k], m, closer) {
        TagShapeAt(names, t[..k], m, closer);
      }
      if TagAt(names, t[k..], m, closer) {
        TagShapeAt(names, t[k..], m, closer);
      }
    }
  }

  /** Emitted text can read as a tag all the same: an opener cut in two by a closed
      block comes out whole. */
  lemma TagReassembled(names: seq<string>, t: string, k: nat, opener: string, closer: string)
    requires Clean(names) && IsTag(names, t, false) && 0 < k < |t|
    requires IsTag(names, opener, false) && IsTag(names, closer, true)
    ensures var r := Flushed(Run(names, false, "", t[..k] + opener + closer + t[k..]));
            r.text == t && r.reasoning == ""
  {
    hide IsTag, Clean, Run;
    HalfTag(names, t, k, false);
    var last := [Content(t[k..])];
    assert NoTagBefore(names, "", 0, true);
    assert Markup(last) == t[k..] by { assert last[1..] == []; assert Markup(last[1..]) == ""; }
    ReadingCons(names, true, "", closer, last);
    var inner := [Content(""), Tag(closer)] + last;
    ReadingCons(names, false, t[..k], opener, inner);
    var pieces := [Content(t[..k]), Tag(opener)] + inner;
    RunFollowsReading(names, false, "", pieces);
    assert "" + closer + t[k..] == closer + t[k..];
    assert Markup(pieces) == t[..k] + opener + closer + t[k..];
    hide NoTagBefore, IsReading, Markup;
    ContentsCons(false, false, t[..k], opener, inner);
    ContentsCons(true, false, "", closer, last);
    ContentsCons(false, true, t[..k], opener, inner);
    ContentsCons(true, true, "", closer, last);
    assert Contents(false, false, last) == t[k..] && Contents(false, true, last) == "" by { assert last[1..] == []; }
    assert t[..k] + t[k..] == t;
  }

  lemma ContentsCons(inside: bool, want: bool, c: string, markup: string, rest: seq<Piece>)
    ensures Contents(inside, want, [Content(c), Tag(markup)] + rest)
            == (if inside == want then c else "") + Contents(!inside, want, rest)
  {
    var pieces := [Content(c), Tag(markup)] + rest;
    assert pieces[1..] == [Tag(markup)] + rest && pieces[1..][1..] == rest;
  }

  // ----- When what is emitted reads as markup -----

  ghost predicate HoldsTag(names: seq<string>, s: string, closer: bool) {
    exists m: Match :: TagAt(names, s, m, closer)
  }

  /** A tag begins in `a` and is completed by `b`. */
  ghost predicate CutTag(names: seq<string>, a: string, b: string, closer: bool) {
    exists m: Match :: m.index < |a| < m.index + m.length && TagAt(names, a + b, m, closer)
  }

  /** Some content ends in a proper prefix of a tag that the contents after it complete. */
  ghost predicate CompletesTag(names: seq<string>, contents: seq<string>, closer: bool) {
    contents != [] &&
      (CutTag(names, contents[0], Concat(contents[1..]), closer) || CompletesTag(names, contents[1..], closer))
  }

  /** The contents on one side of the tags, one by one. */
  function ContentList(inside: bool, want: bool, pieces: seq<Piece>): seq<string>
    decreases |pieces|
  {
    if pieces == [] then []
    else
      match pieces[0]
      case Content(t) => (if inside == want then [t] else []) + ContentList(inside, want, pieces[1..])
      case Tag(_) => ContentList(!inside, want, pieces[1..])
  }

  lemma {:induction false} ContentsAreList(inside: bool, want: bool, pieces: seq<Piece>)
    ensures Contents(inside, want, pieces) == Concat(ContentList(inside, want, pieces))
    decreases |pieces|
  {
    if pieces != [] {
      match pieces[0]
      case Content(t) =>
        ContentsAreList(inside, want, pieces[1..]);
        var rest := ContentList(inside, want, pieces[1..]);
        assert ([t] + rest)[1..] == rest && [] + rest == rest && "" + Concat(rest) == Concat(rest);
      case Tag(_) => ContentsAreList(!inside, want, pieces[1..]);
    }
  }

  lemma TagInPart(names: seq<string>, a: string, b: string, m: Match, closer: bool)
    ensures m.index + m.length <= |a| ==> TagAt(names, a + b, m, closer) == TagAt(names, a, m, closer)
    ensures TagAt(names, a + b, Match(|a| + m.index, m.length), closer) == TagAt(names, b, m, closer)
  {
    hide IsTag;
    var s := a + b;
    if m.index + m.length <= |a| {
      assert s[m.index..m.index + m.length] == a[m.index..m.index + m.length];
    }
    if m.index + m.length <= |b| {
      assert s[|a| + m.index..|a| + m.index + m.length] == b[m.index..m.index + m.length];
    }
  }

  /** A tag in a joined text lies in one part or across the cut. */
  lemma TagInJoined(names: seq<string>, a: string, b: string, closer: bool)
    requires Clean(names)
    ensures HoldsTag(names, a + b, closer) <==>
            HoldsTag(names, a, closer) || HoldsTag(names, b, closer) || CutTag(names, a, b, closer)
  {
    hide TagAt, Clean;
    if HoldsTag(names, a + b, closer) {
      var m :| TagAt(names, a + b, m, closer);
      TagInPart(names, a, b, m, closer);
      if m.index >= |a| {
        TagInPart(names, a, b, Match(m.index - |a|, m.length), closer);
        assert Match(|a| + (m.index - |a|), m.length) == m;
      }
    }
    if HoldsTag(names, a, closer) {
      var m :| TagAt(names, a, m, closer);
      assert m.index + m.length <= |a| by { assert TagAt(names, a, m, closer); TagEnds(names, a, m, closer); }
      TagInPart(names, a, b, m, closer);
    }
    if HoldsTag(names, b, closer) {
      var m :| TagAt(names, b, m, closer);
      TagInPart(names, a, b, m, closer);
    }
  }

  lemma TagEnds(names: seq<string>, s: string, m: Match, closer: bool)
    requires TagAt(names, s, m, closer)
    ensures m.index + m.length <= |s|
  {
  }

  lemma {:induction false} TagInConcat(names: seq<string>, contents: seq<string>, closer: bool)
    requires Clean(names)
    ensures HoldsTag(names, Concat(contents), closer) <==>
            CompletesTag(names, contents, closer) || exists c | c in contents :: HoldsTag(names, c, closer)
  {
    hide Clean, HoldsTag, CutTag;
    if contents == [] {
      EmptyHoldsNone(names, closer);
    } else {
      TagInConcat(names, contents[1..], closer);
      TagInJoined(names, contents[0], Concat(contents[1..]), closer);
      assert contents == [contents[0]] + contents[1..];
    }
  }

  lemma EmptyHoldsNone(names: seq<string>, closer: bool)
    requires Clean(names)
    ensures !HoldsTag(names, "", closer)
  {
    hide IsTag, Clean;
    forall m: Match ensures !TagAt(names, "", m, closer) {
      if TagAt(names, "", m, closer) { TagShapeAt(names, "", m, closer); }
    }
  }

  /** A content never holds the tag that would have ended it. */
  lemma {:induction false} ContentsHideNone(names: seq<string>, inside: bool, want: bool, pieces: seq<Piece>)
    requires Clean(names) && IsReading(names, inside, pieces)
    ensures forall c | c in ContentList(inside, want, pieces) :: !HoldsTag(names, c, want)
    decreases |pieces|
  {
    hide IsTag, Clean;
    var c := pieces[0].text;
    if HoldsTag(names, c, inside) {
      var m :| TagAt(names, c, m, inside);
      TagShapeAt(names, c, m, inside);
      assert false;
    }
    hide HoldsTag, NoTagBefore;
    if |pieces| > 1 {
      ContentsHideNone(names, !inside, want, pieces[2..]);
      assert pieces[1..][1..] == pieces[2..];
    } else {
      assert ContentList(inside, want, pieces[1..]) == [];
    }
  }

  /** Exactly when emitted text or reasoning reads as markup.  The tag that ends a side
      shows only when it was cut in two by a block and completed by what follows; the other
      tag shows that way, or raw, where it stood on this side all along. */
  lemma MarkupShowsIff(names: seq<string>, inside: bool, buffer: string, pieces: seq<Piece>, want: bool)
    requires Clean(names) && IsReading(names, inside, pieces)
    ensures var r := Flushed(Run(names, inside, buffer, Markup(pieces)));
            var emitted, contents := if want then r.reasoning else r.text, ContentList(inside, want, pieces);
            && (HoldsTag(names, emitted, want) <==> CompletesTag(names, contents, want))
            && (HoldsTag(names, emitted, !want) <==>
                  CompletesTag(names, contents, !want) || exists c | c in contents :: HoldsTag(names, c, !want))
  {
    hide Clean, HoldsTag, CompletesTag, Run, IsReading;
    RunFollowsReading(names, inside, buffer, pieces);
    ContentsAreList(inside, want, pieces);
    ContentsHideNone(names, inside, want, pieces);
    TagInConcat(names, ContentList(inside, want, pieces), want);
    TagInConcat(names, ContentList(inside, want, pieces), !want);
  }

  lemma {:induction false} CharInContents(inside: bool, pieces: seq<Piece>, x: char)
    ensures x in Contents(inside, false, pieces) || x in Contents(inside, true, pieces) <==>
            exists p | p in pieces :: p.Content? && x in p.text
    decreases |pieces|
  {
    if pieces != [] {
      assert pieces == [pieces[0]] + pieces[1..];
      CharInContents(if pieces[0].Tag? then !inside else inside, pieces[1..], x);
    }
  }

  /** Nothing emitted holds a `<`, and so no markup, exactly when every `<` of the text
      belongs to a recognised tag. */
  lemma NoStrayBracketIff(names: seq<string>, inside: bool, buffer: string, pieces: seq<Piece>)
    requires Clean(names) && IsReading(names, inside, pieces)
    ensures var r := Flushed(Run(names, inside, buffer, Markup(pieces)));
            && ('<' !in r.text && '<' !in r.reasoning <==> forall p | p in pieces :: p.Content? ==> '<' !in p.text)
            && ('<' !in r.text ==> forall closer :: !HoldsTag(names, r.text, closer))
            && ('<' !in r.reasoning ==> forall closer :: !HoldsTag(names, r.reasoning, closer))
  {
    hide Clean, Run, IsReading, IsTag;
    RunFollowsReading(names, inside, buffer, pieces);
    CharInContents(inside, pieces, '<');
    forall s: string, closer, m: Match | TagAt(names, s, m, closer) ensures '<' in s {
      TagShapeAt(names, s, m, closer);
    }
  }

  /** A closer outside any block and an opener inside one come out as they are. */
  lemma RawMarkup(names: seq<string>, opener: string, t: string)
    requires Clean(names) && SlashFree(names) && IsTag(names, opener, false)
    ensures IsTag(names, t, true) ==> Flushed(Run(names, false, "", t)).text == t
    ensures IsTag(names, t, false) ==> Flushed(Run(names, false, "", opener + t)).reasoning == t
  {
    hide IsTag, Clean, Run;
    if IsTag(names, t, true) {
      OtherKind(names, t, true, false);
      assert Markup([Content(t)]) == t by { assert [Content(t)][1..] == []; }
      RunFollowsReading(names, false, "", [Content(t)]);
      assert Contents(false, false, [Content(t)]) == t by { assert [Content(t)][1..] == []; }
    }
    if IsTag(names, t, false) {
      OtherKind(names, t, false, true);
      assert NoTagBefore(names, "", 0, false);
      assert Markup([Content(t)]) == t by { assert [Content(t)][1..] == []; }
      ReadingCons(names, false, "", opener, [Content(t)]);
      var pieces := [Content(""), Tag(opener)] + [Content(t)];
      assert "" + opener + t == opener + t;
      RunFollowsReading(names, false, "", pieces);
      ContentsCons(false, true, "", opener, [Content(t)]);
      assert Contents(true, true, [Content(t)]) == t by { assert [Content(t)][1..] == []; }
    }
  }

  predicate SlashFree(names: seq<string>) {
    forall name | name in names :: '/' !in name
  }

  /** A tag holds none of the other kind. */
  lemma OtherKind(names: seq<string>, t: string, closer: bool, other: bool)
    requires Clean(names) && SlashFree(names) && IsTag(names, t, closer) && other != closer
    ensures NoTagBefore(names, t, |t|, other)
  {
    hide Clean, IsTag;
    TagShape(names, t, closer);
    forall m: Match ensures !TagAt(names, t, m, other) {
      if TagAt(names, t, m, other) {
        TagShapeAt(names, t, m, other);
        assert m.index == 0 && m.length == |t| && t[0..|t|] == t;
        SlashTells(names, t, closer);
        SlashTells(names, t, other);
      }
    }
  }

  /** Closers have a slash behind the `<`, openers do not. */
  lemma SlashTells(names: seq<string>, t: string, closer: bool)
    requires SlashFree(names) && IsTag(names, t, closer)
    ensures |t| > 1 && (Fold(t)[1] == '/' <==> closer)
  {
    var name :| name in names && Fold(t) == TagStem(name, closer) + ">";
    if name != "" { assert name[0] in name; }
  }

  lemma NoTagInPrefix(names: seq<string>, s: string, k: nat, closer: bool)
    requires k <= |s| && NoTagBefore(names, s, k, closer)
    ensures NoTagBefore(names, s[..k], k, closer)
  {
    hide IsTag;
    forall m: Match | m.index < k ensures !TagAt(names, s[..k], m, closer) {
      if m.index + m.length <= k {
        assert s[..k][m.index..m.index + m.length] == s[m.index..m.index + m.length];
        assert !TagAt(names, s, m, closer);
      }
    }
  }

  // ----- Runs over a stream of chunks -----

  function Concat(chunks: seq<string>): string {
    if chunks == [] then "" else chunks[0] + Concat(chunks[1..])
  }

  /** What a stream of chunks emits in total, starting after `r`. */
  ghost function Feed(names: seq<string>, r: Scan, chunks: seq<string>): Scan
    decreases |chunks|
  {
    if chunks == [] then r
    else Feed(names, Then(r, Run(names, r.inside, r.buffer, r.tail + chunks[0])), chunks[1..])
  }

  lemma {:induction false} FeedIsRun(names: seq<string>, inside: bool, buffer: string, a: string, chunks: seq<string>)
    requires Clean(names)
    ensures Feed(names, Run(names, inside, buffer, a), chunks) == Run(names, inside, buffer, a + Concat(chunks))
    decreases |chunks|
  {
    hide Run, Clean;
    if chunks == [] {
      assert a + "" == a;
    } else {
      RunSplit(names, inside, buffer, a, chunks[0]);
      FeedIsRun(names, inside, buffer, a + chunks[0], chunks[1..]);
      assert a + chunks[0] + Concat(chunks[1..]) == a + Concat(chunks);
    }
  }

  const START: Scan := Scan("", "", false, "", "")

  /** The stream emits the same however the text was cut into chunks. */
  lemma ChunkInvariance(names: seq<string>, chunks: seq<string>, chunks': seq<string>)
    requires Clean(names)
    requires Concat(chunks) == Concat(chunks')
    ensures Feed(names, START, chunks) == Feed(names, START, chunks')
  {
    FeedIsRun(names, false, "", "", chunks);
    FeedIsRun(names, false, "", "", chunks');
  }

  /** The deferred tail is at most `MAX_TAG_LEN` long, and scanning it again
      emits nothing. */
  lemma TailIsSettled(names: seq<string>, inside: bool, buffer: string, work: string)
    requires Clean(names)
    ensures var r := Run(names, inside, buffer, work);
            && |r.tail| <= MAX_TAG_LEN
            && Run(names, r.inside, r.buffer, r.tail) == Scan("", "", r.inside, r.tail, r.buffer)
  {
    hide Clean, IsTag, CouldBeTagStart;
    RunSplit(names, inside, buffer, work, "");
    var r := Run(names, inside, buffer, work);
    assert work + "" == work && r.tail + "" == r.tail;
    TailBound(names, inside, buffer, work);
  }

  lemma {:induction false} TailBound(names: seq<string>, inside: bool, buffer: string, work: string)
    ensures |Run(names, inside, buffer, work).tail| <= MAX_TAG_LEN
    decreases |work|
  {
    hide IsTag, CouldBeTagStart;
    if work != "" {
      match FirstTag(names, work, inside)
      case Some(m) =>
        TailBound(names, !inside, EnterBuffer(inside, buffer, work[..m.index]), work[m.index + m.length..]);
      case None =>
    }
  }

  /** Nothing is held back that cannot become a tag: unless it holds a Kelvin sign, some rest
      makes the tail one. */
  lemma TailMayBeTag(names: seq<string>, inside: bool, buffer: string, work: string) returns (t: string, closer: bool)
    requires names != [] && forall name | name in names :: Fold(name) == name
    requires var tail := Run(names, inside, buffer, work).tail; tail != "" && KELVIN !in tail
    ensures IsTag(names, t, closer) && Run(names, inside, buffer, work).tail <= t
  {
    TailStarts(names, inside, buffer, work);
    var tail := Run(names, inside, buffer, work).tail;
    hide Run, CouldBeTagStart;
    var name: string;
    name, closer := StemOf(names, tail);
    var full := TagStem(name, closer) + ">";
    t := tail + full[|tail|..];
    forall i | 0 <= i < |full| ensures FoldChar(full[i]) == full[i] {
      var n := if closer then 2 else 1;
      if n <= i < n + |name| { assert full[i] == name[i - n] && Fold(name)[i - n] == name[i - n]; }
    }
    assert Fold(t) == full;
  }

  lemma StemOf(names: seq<string>, tail: string) returns (name: string, closer: bool)
    requires names != [] && CouldBeTagStart(names, tail) && KELVIN !in tail
    ensures name in names && Fold(tail) <= TagStem(name, closer)
  {
    var lower := Lower(tail);
    assert lower == Fold(tail);
    StartsSomeTagMeans(names, lower);
    hide StartsSomeTag, Lower;
    if lower == "<" || lower == "</" {
      name, closer := names[0], lower == "</";
    } else {
      name :| name in names && (lower <= TagStem(name, false) || lower <= TagStem(name, true));
      closer := !(lower <= TagStem(name, false));
    }
  }

  lemma {:induction false} TailStarts(names: seq<string>, inside: bool, buffer: string, work: string)
    ensures var tail := Run(names, inside, buffer, work).tail; tail != "" ==> CouldBeTagStart(names, tail)
    decreases |work|
  {
    hide IsTag, CouldBeTagStart;
    if work != "" {
      match FirstTag(names, work, inside)
      case Some(m) =>
        TailStarts(names, !inside, EnterBuffer(inside, buffer, work[..m.index]), work[m.index + m.length..]);
      case None =>
    }
  }

  // ----- The extractor -----

  const TAG_NAMES: seq<string> := ["think", "thinking", "reasoning", "reflection", "mm:think", "ask"]

  lemma TagNamesAreClean()
    ensures Clean(TAG_NAMES)
  {
  }

  lemma TagNamesAreSlashFree()
    ensures SlashFree(TAG_NAMES)
  {
  }

  lemma AskTags()
    ensures IsTag(TAG_NAMES, "</ask>", true) && IsTag(TAG_NAMES, "<ask>", false)
  {
    assert TAG_NAMES[5] in TAG_NAMES;
    assert TagStem("ask", true) + ">" == "</ask>" && TagStem("ask", false) + ">" == "<ask>";
    assert Fold("</ask>") == "</ask>" && Fold("<ask>") == "<ask>";
  }

  /** The character reads as the given one, a letter in either case. */
  predicate ReadsAs(c: char, lower: char) {
    c == lower || ('a' <= lower <= 'z' && c as int == lower as int - 32)
  }

  predicate Spells(t: string, tag: string) {
    |t| == |tag| && forall i :: 0 <= i < |t| ==> ReadsAs(t[i], tag[i])
  }

  /** The tags are these six, opened and closed, in any letter case, and no others. */
  lemma TagsAreThese(t: string, closer: bool)
    ensures var lead := if closer then "</" else "<";
            IsTag(TAG_NAMES, t, closer) <==>
              || Spells(t, lead + "think" + ">") || Spells(t, lead + "thinking" + ">")
              || Spells(t, lead + "reasoning" + ">") || Spells(t, lead + "reflection" + ">")
              || Spells(t, lead + "mm:think" + ">") || Spells(t, lead + "ask" + ">")
  {
    hide Spells, Fold, IsTag;
    TagNamed(t, closer, "think");
    TagNamed(t, closer, "thinking");
    TagNamed(t, closer, "reasoning");
    TagNamed(t, closer, "reflection");
    TagNamed(t, closer, "mm:think");
    TagNamed(t, closer, "ask");
    TagIsNamed(t, closer);
  }

  lemma TagIsNamed(t: string, closer: bool)
    ensures IsTag(TAG_NAMES, t, closer) <==>
      || Fold(t) == TagStem("think", closer) + ">" || Fold(t) == TagStem("thinking", closer) + ">"
      || Fold(t) == TagStem("reasoning", closer) + ">" || Fold(t) == TagStem("reflection", closer) + ">"
      || Fold(t) == TagStem("mm:think", closer) + ">" || Fold(t) == TagStem("ask", closer) + ">"
  {
    hide Fold, TagStem;
    assert TAG_NAMES[0] in TAG_NAMES && TAG_NAMES[1] in TAG_NAMES && TAG_NAMES[2] in TAG_NAMES;
    assert TAG_NAMES[3] in TAG_NAMES && TAG_NAMES[4] in TAG_NAMES && TAG_NAMES[5] in TAG_NAMES;
  }

  lemma TagNamed(t: string, closer: bool, name: string)
    requires forall i :: 0 <= i < |name| ==> !('A' <= name[i] <= 'Z')
    ensures Fold(t) == TagStem(name, closer) + ">" <==> Spells(t, (if closer then "</" else "<") + name + ">")
  {
    var tag := TagStem(name, closer) + ">";
    forall i | 0 <= i < |tag| ensures !('A' <= tag[i] <= 'Z') {
      var n := if closer then 2 else 1;
      if n <= i < n + |name| { assert tag[i] == name[i - n]; }
    }
    if Spells(t, tag) {
      assert forall i :: 0 <= i < |t| ==> ReadsAs(t[i], tag[i]);
      assert Fold(t) == tag;
    } else if |t| == |tag| {
      var i :| 0 <= i < |t| && !ReadsAs(t[i], tag[i]);
      assert Fold(t)[i] != tag[i];
    }
  }

  /** A closer alone, and an opener in an open block, with the names there are. */
  lemma RawAsk()
    ensures Flushed(Run(TAG_NAMES, false, "", "</ask>")).text == "</ask>"
    ensures Flushed(Run(TAG_NAMES, false, "", "<ask>" + "<ask>")).reasoning == "<ask>"
  {
    hide Run, Clean, SlashFree, IsTag;
    TagNamesAreClean();
    TagNamesAreSlashFree();
    AskTags();
    RawMarkup(TAG_NAMES, "<ask>", "</ask>");
    RawMarkup(TAG_NAMES, "<ask>", "<ask>");
  }

  /** The bound on the deferred tail is attained. */
  lemma LongestTailIsDeferred()
    ensures SafeLength(TAG_NAMES, "</reflection") == 0 && |"</reflection"| == MAX_TAG_LEN
  {
    var s := "</reflection";
    assert s[0] == '<' && forall i :: 0 < i < |s| ==> s[i] != '<';
    LastLtSpec(s);
    assert IsLastLt(s, 0);
    assert s[0..] == s;
    assert Lower(s) == s;
    assert TAG_NAMES[3] in TAG_NAMES;
    assert Lower(s) <= TagStem(TAG_NAMES[3], true);
  }

  lemma AfterEmit(text: string, reasoning: string, inside: bool, piece: string)
    ensures forall r: Scan :: After(text, reasoning, Emit(inside, piece, r)) ==
                              if inside then After(text, reasoning + piece, r) else After(text + piece, reasoning, r)
  {
    forall r: Scan ensures After(text, reasoning, Emit(inside, piece, r)) ==
                           if inside then After(text, reasoning + piece, r) else After(text + piece, reasoning, r)
    {
      assert text + (piece + r.text) == (text + piece) + r.text;
      assert reasoning + (piece + r.reasoning) == (reasoning + piece) + r.reasoning;
    }
  }

  lemma AfterUnits(text: string, reasoning: string)
    ensures forall r: Scan :: After("", "", r) == r
    ensures forall r: Scan :: r.text == "" && r.reasoning == ""
                              ==> After(text, reasoning, r) == r.(text := text, reasoning := reasoning)
  {
  }

  class InlineReasoningExtractor {
    var insideReasoning: bool
    var pendingTail: string
    var reasoningBuffer: string

    /** The deferred tail is short and holds nothing that could be emitted yet. */
    ghost predicate Valid()
      reads this
    {
      && |pendingTail| <= MAX_TAG_LEN
      && Run(TAG_NAMES, insideReasoning, reasoningBuffer, pendingTail)
         == Scan("", "", insideReasoning, pendingTail, reasoningBuffer)
    }

    constructor ()
      ensures Valid()
      ensures !insideReasoning && pendingTail == "" && reasoningBuffer == ""
    {
      insideReasoning, pendingTail, reasoningBuffer := false, "", "";
    }

    method Push(chunk: string) returns (text: string, reasoning: string)
      requires Valid()
      modifies this
      ensures Valid()
      ensures Scan(text, reasoning, insideReasoning, pendingTail, reasoningBuffer)
              == Run(TAG_NAMES, old(insideReasoning), old(reasoningBuffer), old(pendingTail) + chunk)
    {
      hide Run, IsTag, CouldBeTagStart, FirstTag, SafeLength, LastLt, After, Emit, Clean;
      text, reasoning := "", "";
      if chunk == "" {
        assert pendingTail + chunk == pendingTail;
        return;
      }
      var work := pendingTail + chunk;
      ghost var total := Run(TAG_NAMES, insideReasoning, reasoningBuffer, work);
      TagNamesAreClean();
      TailIsSettled(TAG_NAMES, insideReasoning, reasoningBuffer, work);
      pendingTail := "";
      assert work != "";
      AfterUnits("", "");
      while |work| > 0
        invariant work == "" || pendingTail == ""
        invariant total == After(text, reasoning,
                                 if work == "" then Scan("", "", insideReasoning, pendingTail, reasoningBuffer)
                                 else Run(TAG_NAMES, insideReasoning, reasoningBuffer, work))
        decreases |work|
      {
        var tag := FirstTag(TAG_NAMES, work, insideReasoning);
        if tag.Some? {
          var m := tag.value;
          RunTag(TAG_NAMES, insideReasoning, reasoningBuffer, work, m);
          var before := work[..m.index];
          AfterEmit(text, reasoning, insideReasoning, before);
          if insideReasoning {
            reasoningBuffer := reasoningBuffer + before;
            reasoning := reasoning + before;
          } else {
            text := text + before;
            reasoningBuffer := "";
          }
          work := work[m.index + m.length..];
          insideReasoning := !insideReasoning;
          RunEmpty(insideReasoning, reasoningBuffer);
        } else {
          RunNoTag(TAG_NAMES, insideReasoning, reasoningBuffer, work);
          var n := SafeLength(TAG_NAMES, work);
          var safe := work[..n];
          AfterEmit(text, reasoning, insideReasoning, safe);
          if insideReasoning {
            reasoningBuffer := reasoningBuffer + safe;
            reasoning := reasoning + safe;
          } else {
            text := text + safe;
          }
          pendingTail := work[n..];
          work := "";
        }
      }
      AfterUnits(text, reasoning);
    }

    method Flush() returns (text: string, reasoning: string)
      modifies this`pendingTail
      ensures pendingTail == ""
      ensures insideReasoning ==> text == "" && reasoning == old(pendingTail)
      ensures !insideReasoning ==> text == old(pendingTail) && reasoning == ""
    {
      text, reasoning := "", "";
      if insideReasoning {
        reasoning := pendingTail;
      } else {
        text := pendingTail;
      }
      pendingTail := "";
    }
  }

  lemma RunEmpty(inside: bool, buffer: string)
    ensures Run(TAG_NAMES, inside, buffer, "") == Scan("", "", inside, "", buffer)
  {
  }

  /** A whole stream: every chunk is pushed, then the extractor is flushed.  The
      outputs depend on the text alone and are the outer and inner contents of
      its readings. */
  method Extract(chunks: seq<string>) returns (text: string, reasoning: string)
    ensures forall pieces: seq<Piece> ::
              IsReading(TAG_NAMES, false, pieces) && Markup(pieces) == Concat(chunks)
              ==> text == Contents(false, false, pieces) && reasoning == Contents(false, true, pieces)
  {
    hide Run, IsTag, CouldBeTagStart, IsReading, Contents, Clean;
    var extractor := new InlineReasoningExtractor();
    text, reasoning := "", "";
    ghost var r := START;
    for i := 0 to |chunks|
      invariant extractor.Valid() && fresh(extractor)
      invariant r == Scan(text, reasoning, extractor.insideReasoning, extractor.pendingTail, extractor.reasoningBuffer)
      invariant Feed(TAG_NAMES, r, chunks[i..]) == Feed(TAG_NAMES, START, chunks)
    {
      var t, g := extractor.Push(chunks[i]);
      assert chunks[i..][0] == chunks[i] && chunks[i..][1..] == chunks[i + 1..];
      r := Then(r, Run(TAG_NAMES, r.inside, r.buffer, r.tail + chunks[i]));
      text, reasoning := text + t, reasoning + g;
    }
    StreamFollowsReadings(chunks);
    var t, g := extractor.Flush();
    text, reasoning := text + t, reasoning + g;
  }

  lemma StreamFollowsReadings(chunks: seq<string>)
    ensures var r := Flushed(Feed(TAG_NAMES, START, chunks));
            forall pieces: seq<Piece> ::
              IsReading(TAG_NAMES, false, pieces) && Markup(pieces) == Concat(chunks)
              ==> r.text == Contents(false, false, pieces) && r.reasoning == Contents(false, true, pieces)
  {
    hide Run, IsTag, CouldBeTagStart, IsReading, Contents, Clean, Feed;
    TagNamesAreClean();
    RunEmpty(false, "");
    FeedIsRun(TAG_NAMES, false, "", "", chunks);
    assert "" + Concat(chunks) == Concat(chunks);
    forall pieces: seq<Piece> | IsReading(TAG_NAMES, false, pieces) && Markup(pieces) == Concat(chunks)
      ensures var r := Flushed(Feed(TAG_NAMES, START, chunks));
              r.text == Contents(false, false, pieces) && r.reasoning == Contents(false, true, pieces)
    {
      RunFollowsReading(TAG_NAMES, false, "", pieces);
    }
  }
}
