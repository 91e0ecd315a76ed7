/** Extraction of the first balanced JSON object or array from surrounding text,
    and the JSON texts of RFC 8259 that it must hand back whole. */
module ToolArgumentRepair {

  import opened Wrappers

  // ----- The scan -----

  /** The number of characters up to the bracket that closes the first one, when
      the scan stands before `s` with the given depth and string flags. */
  function Scan(s: string, open: char, close: char, depth: int, inString: bool, escaped: bool): (r: Option<nat>)
    ensures r.Some? ==> 0 < r.value <= |s|
  {
    if s == "" then None
    else
      var c, rest := s[0], s[1..];
      if escaped then Plus(1, Scan(rest, open, close, depth, inString, false))
      else if c == '\\' then Plus(1, Scan(rest, open, close, depth, inString, true))
      else if c == '"' then Plus(1, Scan(rest, open, close, depth, !inString, false))
      else if inString then Plus(1, Scan(rest, open, close, depth, true, false))
      else
        var up := if c == open then depth + 1 else depth;
        if c == close && up - 1 == 0 then Some(1)
        else Plus(1, Scan(rest, open, close, if c == close then up - 1 else up, false, false))
  }

  function Plus(n: nat, r: Option<nat>): Option<nat> {
    if r.None? then None else Some(n + r.value)
  }

  function IndexOf(s: string, c: char): (r: Option<nat>)
    ensures r.Some? ==> r.value < |s|
  {
    if s == "" then None
    else if s[0] == c then Some(0)
    else Plus(1, IndexOf(s[1..], c))
  }

  function Extracted(text: string, open: char, close: char): Option<string> {
    match IndexOf(text, open)
    case None => None
    case Some(start) =>
      match Scan(text[start..], open, close, 0, false, false)
      case None => None
      case Some(n) => Some(text[start..start + n])
  }

  method ExtractBalanced(text: string, open: char, close: char) returns (result: Option<string>)
    ensures result == Extracted(text, open, close)
  {
    hide Scan, IndexOf, Plus;
    var start := IndexOf(text, open);
    if start.None? {
      return None;
    }
    var depth, inString, escaped := 0, false, false;
    PlusZero(Scan(text[start.value..], open, close, 0, false, false));
    ghost var all := Scan(text[start.value..], open, close, 0, false, false);
    for index := start.value to |text|
      invariant all == Plus(index - start.value, Scan(text[index..], open, close, depth, inString, escaped))
    {
      var c := text[index];
      OneTurn(text, start.value, index, open, close, depth, inString, escaped);
      if escaped {
        escaped := false;
      } else if c == '\\' {
        escaped := true;
      } else if c == '"' {
        inString := !inString;
      } else if !inString {
        if c == open {
          depth := depth + 1;
        }
        if c == close {
          depth := depth - 1;
          if depth == 0 {
            return Some(text[start.value..index + 1]);
          }
        }
      }
    }
    assert Scan("", open, close, depth, inString, escaped) == None;
    assert text[|text|..] == "";
    return None;
  }

  /** One turn of the loop, at position `index` of the text. */
  lemma OneTurn(
    text: string, start: nat, index: nat, open: char, close: char, depth: int, inString: bool, escaped: bool)
    requires start <= index < |text|
    ensures var c := text[index];
            var here := Plus(index - start, Scan(text[index..], open, close, depth, inString, escaped));
            here ==
            if escaped then Plus(index + 1 - start, Scan(text[index + 1..], open, close, depth, inString, false))
            else if c == '\\' then Plus(index + 1 - start, Scan(text[index + 1..], open, close, depth, inString, true))
            else if c == '"' then Plus(index + 1 - start, Scan(text[index + 1..], open, close, depth, !inString, false))
            else if inString then Plus(index + 1 - start, Scan(text[index + 1..], open, close, depth, true, false))
            else
              var up := if c == open then depth + 1 else depth;
              if c == close && up - 1 == 0 then Some(index + 1 - start)
              else Plus(index + 1 - start,
                        Scan(text[index + 1..], open, close, if c == close then up - 1 else up, false, false))
  {
    hide Scan;
    assert text[index..][0] == text[index] && text[index..][1..] == text[index + 1..];
    ScanStep(text[index..], open, close, depth, inString, escaped);
  }

  lemma PlusZero(r: Option<nat>)
    ensures Plus(0, r) == r
    ensures forall n: nat :: Plus(n, None) == None
  {
  }

  lemma ScanStep(s: string, open: char, close: char, depth: int, inString: bool, escaped: bool)
    requires s != ""
    ensures var c, rest := s[0], s[1..];
            Scan(s, open, close, depth, inString, escaped) ==
            if escaped then Plus(1, Scan(rest, open, close, depth, inString, false))
            else if c == '\\' then Plus(1, Scan(rest, open, close, depth, inString, true))
            else if c == '"' then Plus(1, Scan(rest, open, close, depth, !inString, false))
            else if inString then Plus(1, Scan(rest, open, close, depth, true, false))
            else
              var up := if c == open then depth + 1 else depth;
              if c == close && up - 1 == 0 then Some(1)
              else Plus(1, Scan(rest, open, close, if c == close then up - 1 else up, false, false))
  {
  }

  predicate Brackets(open: char, close: char) {
    (open == '{' && close == '}') || (open == '[' && close == ']')
  }

  // ----- What the scan finds, told from the positions of the text -----

  /** How many backslashes stand directly before position `k`. */
  function Slashes(s: string, k: nat): nat
    requires k <= |s|
  {
    if k == 0 || s[k - 1] != '\\' then 0 else Slashes(s, k - 1) + 1
  }

  predicate Escaped(s: string, k: nat)
    requires k <= |s|
  {
    Slashes(s, k) % 2 == 1
  }

  /** How many quotes that are not escaped stand before position `k`. */
  function Quotes(s: string, k: nat): nat
    requires k <= |s|
  {
    if k == 0 then 0 else Quotes(s, k - 1) + if s[k - 1] == '"' && !Escaped(s, k - 1) then 1 else 0
  }

  /** Position `k` is escaped by nothing and in no string. */
  predicate Bare(s: string, k: nat)
    requires k <= |s|
  {
    !Escaped(s, k) && Quotes(s, k) % 2 == 0
  }

  /** The bare brackets opened before position `k` less those closed. */
  function Level(s: string, open: char, close: char, k: nat): int
    requires k <= |s|
  {
    if k == 0 then 0
    else
      Level(s, open, close, k - 1) +
      if !Bare(s, k - 1) then 0 else if s[k - 1] == open then 1 else if s[k - 1] == close then -1 else 0
  }

  /** Position `k` closes the first bracket. */
  predicate ClosesAt(s: string, open: char, close: char, k: nat) {
    k < |s| && s[k] == close && Bare(s, k) && Level(s, open, close, k) == 1
  }

  lemma {:induction false} ScanFindsClose(s: string, open: char, close: char, k: nat)
    requires Brackets(open, close) && k <= |s|
    ensures match Scan(s[k..], open, close, Level(s, open, close, k), Quotes(s, k) % 2 == 1, Escaped(s, k))
            case Some(n) =>
              && ClosesAt(s, open, close, k + n - 1)
              && forall j :: k <= j < k + n - 1 ==> !ClosesAt(s, open, close, j)
            case None => forall j :: k <= j < |s| ==> !ClosesAt(s, open, close, j)
    decreases |s| - k
  {
    hide Scan;
    if k < |s| {
      assert s[k..][0] == s[k] && s[k..][1..] == s[k + 1..];
      ScanStep(s[k..], open, close, Level(s, open, close, k), Quotes(s, k) % 2 == 1, Escaped(s, k));
      ScanFindsClose(s, open, close, k + 1);
      StateMoves(s, open, close, k);
      hide Level, Quotes, Escaped;
    } else {
      assert s[k..] == "";
      ScanOfNothing(open, close, Level(s, open, close, k), Quotes(s, k) % 2 == 1, Escaped(s, k));
    }
  }

  lemma ScanOfNothing(open: char, close: char, depth: int, inString: bool, escaped: bool)
    ensures Scan("", open, close, depth, inString, escaped) == None
  {
  }

  lemma StateMoves(s: string, open: char, close: char, k: nat)
    requires Brackets(open, close) && k < |s|
    ensures Escaped(s, k + 1) <==> !Escaped(s, k) && s[k] == '\\'
    ensures Quotes(s, k + 1) % 2 == 1 <==>
      if s[k] == '"' && !Escaped(s, k) then Quotes(s, k) % 2 == 0 else Quotes(s, k) % 2 == 1
    ensures Level(s, open, close, k + 1) == Level(s, open, close, k) +
      if Escaped(s, k) || Quotes(s, k) % 2 == 1 then 0 else if s[k] == open then 1 else if s[k] == close then -1 else 0
    ensures ClosesAt(s, open, close, k) <==>
      s[k] == close && !Escaped(s, k) && Quotes(s, k) % 2 == 0 && Level(s, open, close, k) == 1
  {
  }

  /** The first opening bracket stands at `start`, and it is first closed `n` further on. */
  predicate Encloses(text: string, open: char, close: char, start: nat, n: nat) {
    && start + n < |text| && text[start] == open && open !in text[..start]
    && ClosesAt(text[start..], open, close, n)
    && forall j :: 0 <= j < n ==> !ClosesAt(text[start..], open, close, j)
  }

  /** What is extracted begins at the first opening bracket and ends where, outside strings
      and escapes, as many brackets are closed as opened for the first time; nothing is
      extracted exactly when there is no such place. */
  lemma ExtractedIff(text: string, open: char, close: char)
    requires Brackets(open, close)
    ensures match Extracted(text, open, close)
            case Some(x) =>
              exists start: nat, n: nat :: Encloses(text, open, close, start, n) && x == text[start..start + n + 1]
            case None => forall start: nat, n: nat :: !Encloses(text, open, close, start, n)
  {
    hide Scan, ClosesAt, IndexOf;
    FirstBracket(text, open);
    var at := IndexOf(text, open);
    if at.Some? {
      var start := at.value;
      var s := text[start..];
      FirstClose(s, open, close);
      var r := Scan(s, open, close, 0, false, false);
      if r.Some? { assert Encloses(text, open, close, start, r.value - 1); }
    }
  }

  lemma FirstClose(s: string, open: char, close: char)
    requires Brackets(open, close)
    ensures match Scan(s, open, close, 0, false, false)
            case Some(n) =>
              ClosesAt(s, open, close, n - 1) && forall j :: 0 <= j < n - 1 ==> !ClosesAt(s, open, close, j)
            case None => forall j: nat :: !ClosesAt(s, open, close, j)
  {
    hide Scan;
    assert s[0..] == s;
    ScanFindsClose(s, open, close, 0);
  }

  lemma {:induction false} FirstBracket(text: string, c: char)
    ensures match IndexOf(text, c)
            case Some(k) =>
              && text[k] == c && c !in text[..k]
              && forall j: nat :: j < |text| && text[j] == c && c !in text[..j] ==> j == k
            case None => c !in text
  {
    if text != "" && text[0] != c {
      FirstBracket(text[1..], c);
      assert text == [text[0]] + text[1..];
      forall j: nat | j < |text| && text[j] == c && c !in text[..j]
        ensures IndexOf(text[1..], c).Some? && j == 1 + IndexOf(text[1..], c).value
      {
        assert text[1..][j - 1] == c && text[1..][..j - 1] == text[1..j];
      }
    } else if text != "" {
      assert forall j: nat :: 0 < j < |text| ==> text[..j][0] == c;
    }
  }

  // ----- JSON texts -----

  /** A character of a string: itself, a two-character escape, or `\u` and four
      hexadecimal digits (section 7 of RFC 8259). */
  datatype StringChar = Plain(c: char) | Escape(c: char) | Unicode(hex: string)

  /** A JSON text with its insignificant white space: literals and numbers are
      kept as written (sections 2 to 7 of RFC 8259). */
  datatype Json =
    | Scalar(literal: string)
    | Str(chars: seq<StringChar>)
    | Arr(items: seq<Item>, pad: string)
    | Obj(members: seq<Member>, pad: string)

  datatype Item = Item(before: string, value: Json, after: string)

  datatype Member = Member(before: string, name: seq<StringChar>, beforeColon: string,
                           afterColon: string, value: Json, after: string)

  predicate IsWhite(s: string) {
    forall c | c in s :: c == ' ' || c == '\t' || c == '\n' || c == '\r'
  }

  predicate IsStringChar(x: StringChar) {
    match x
    case Plain(c) => c != '"' && c != '\\' && c >= ' '
    case Escape(c) => c in "\"\\/bfnrt"
    case Unicode(hex) => |hex| == 4 && forall c | c in hex :: '0' <= c <= '9' || 'a' <= c <= 'f' || 'A' <= c <= 'F'
  }

  /** `true`, `false`, `null`, or a number. */
  predicate IsScalar(s: string) {
    s in {"true", "false", "null"} ||
    (s != "" && forall c | c in s :: '0' <= c <= '9' || c == '-' || c == '+' || c == '.' || c == 'e' || c == 'E')
  }

  predicate Wf(v: Json) {
    match v
    case Scalar(literal) => IsScalar(literal)
    case Str(chars) => forall x | x in chars :: IsStringChar(x)
    case Arr(items, pad) =>
      IsWhite(pad) && forall x | x in items :: IsWhite(x.before) && IsWhite(x.after) && Wf(x.value)
    case Obj(members, pad) =>
      IsWhite(pad) && forall m | m in members ::
        && IsWhite(m.before) && IsWhite(m.beforeColon) && IsWhite(m.afterColon) && IsWhite(m.after)
        && (forall x | x in m.name :: IsStringChar(x)) && Wf(m.value)
  }

  function PrintChar(x: StringChar): string {
    match x
    case Plain(c) => [c]
    case Escape(c) => ['\\', c]
    case Unicode(hex) => "\\u" + hex
  }

  function PrintChars(chars: seq<StringChar>): string {
    if chars == [] then "" else PrintChar(chars[0]) + PrintChars(chars[1..])
  }

  function PrintString(chars: seq<StringChar>): string {
    "\"" + PrintChars(chars) + "\""
  }

  function Print(v: Json): string
    decreases v, 1, 0
  {
    match v
    case Scalar(literal) => literal
    case Str(chars) => PrintString(chars)
    case Arr(items, pad) => "[" + PrintItems(v, items) + pad + "]"
    case Obj(members, pad) => "{" + PrintMembers(v, members) + pad + "}"
  }

  function PrintItems(v: Json, items: seq<Item>): string
    requires forall x | x in items :: x.value < v
    decreases v, 0, |items|
  {
    if items == [] then ""
    else
      items[0].before + Print(items[0].value) + items[0].after
      + (if |items| > 1 then "," else "") + PrintItems(v, items[1..])
  }

  function PrintMembers(v: Json, members: seq<Member>): string
    requires forall m | m in members :: m.value < v
    decreases v, 0, |members|
  {
    if members == [] then ""
    else
      var m := members[0];
      m.before + PrintString(m.name) + m.beforeColon + ":" + m.afterColon + Print(m.value) + m.after
      + (if |members| > 1 then "," else "") + PrintMembers(v, members[1..])
  }

  // ----- The scan passes over JSON texts -----

  /** Read at a depth above zero and outside strings, `p` leaves the scan as it was. */
  ghost predicate Neutral(p: string, open: char, close: char) {
    forall rest, depth :: depth > 0 ==>
      Scan(p + rest, open, close, depth, false, false) == Plus(|p|, Scan(rest, open, close, depth, false, false))
  }

  lemma NeutralAppend(p: string, q: string, open: char, close: char)
    requires Neutral(p, open, close) && Neutral(q, open, close)
    ensures Neutral(p + q, open, close)
  {
    forall rest, depth | depth > 0
      ensures Scan((p + q) + rest, open, close, depth, false, false)
              == Plus(|p + q|, Scan(rest, open, close, depth, false, false))
    {
      assert (p + q) + rest == p + (q + rest);
    }
  }

  /** A character the scan ignores outside strings. */
  predicate Inert(c: char) {
    c !in "\"\\{}[]"
  }

  lemma {:induction false} InertIsNeutral(p: string, open: char, close: char)
    requires Brackets(open, close) && forall c | c in p :: Inert(c)
    ensures Neutral(p, open, close)
  {
    if p == "" {
      assert forall rest: string :: "" + rest == rest;
    } else {
      InertIsNeutral(p[1..], open, close);
      forall rest, depth | depth > 0
        ensures Scan(p + rest, open, close, depth, false, false)
                == Plus(|p|, Scan(rest, open, close, depth, false, false))
      {
        assert p[0] in p && (p + rest)[1..] == p[1..] + rest;
      }
    }
  }

  /** Within a string the scan passes over the characters up to the closing quote. */
  lemma {:induction false} CharsPass(chars: seq<StringChar>, rest: string, open: char, close: char, depth: int)
    requires forall x | x in chars :: IsStringChar(x)
    ensures Scan(PrintChars(chars) + rest, open, close, depth, true, false)
            == Plus(|PrintChars(chars)|, Scan(rest, open, close, depth, true, false))
  {
    hide Scan, PrintChar, IsStringChar;
    if chars == [] {
      assert "" + rest == rest;
    } else {
      var p, tail := PrintChar(chars[0]), PrintChars(chars[1..]) + rest;
      assert PrintChars(chars) + rest == p + tail;
      assert chars[0] in chars;
      CharPasses(chars[0], tail, open, close, depth);
      CharsPass(chars[1..], rest, open, close, depth);
    }
  }

  lemma CharPasses(x: StringChar, tail: string, open: char, close: char, depth: int)
    requires IsStringChar(x)
    ensures Scan(PrintChar(x) + tail, open, close, depth, true, false)
            == Plus(|PrintChar(x)|, Scan(tail, open, close, depth, true, false))
  {
    match x {
      case Plain(c) =>
        assert ([c] + tail)[1..] == tail;
      case Escape(c) =>
        assert (['\\', c] + tail)[1..] == [c] + tail && ([c] + tail)[1..] == tail;
      case Unicode(hex) =>
        var s := "\\u" + hex + tail;
        assert PrintChar(x) + tail == s;
        assert s[1..] == "u" + hex + tail && s[1..][1..] == hex + tail;
        assert forall c | c in hex :: c != '"' && c != '\\';
        PlainPass(hex, tail, open, close, depth);
    }
  }

  lemma {:induction false} PlainPass(p: string, tail: string, open: char, close: char, depth: int)
    requires forall c | c in p :: c != '"' && c != '\\'
    ensures Scan(p + tail, open, close, depth, true, false)
            == Plus(|p|, Scan(tail, open, close, depth, true, false))
  {
    if p == "" {
      assert "" + tail == tail;
    } else {
      assert p[0] in p && (p + tail)[1..] == p[1..] + tail;
      assert forall c | c in p[1..] :: c in p;
      PlainPass(p[1..], tail, open, close, depth);
    }
  }

  lemma StringIsNeutral(chars: seq<StringChar>, open: char, close: char)
    requires Brackets(open, close) && forall x | x in chars :: IsStringChar(x)
    ensures Neutral(PrintString(chars), open, close)
  {
    forall rest, depth | depth > 0
      ensures Scan(PrintString(chars) + rest, open, close, depth, false, false)
              == Plus(|PrintString(chars)|, Scan(rest, open, close, depth, false, false))
    {
      var tail := "\"" + rest;
      var s := PrintString(chars) + rest;
      assert s[1..] == PrintChars(chars) + tail;
      CharsPass(chars, tail, open, close, depth);
      assert tail[1..] == rest;
    }
  }

  /** A bracketed text whose inside is neutral: read at depth `depth`, it is either
      passed as a whole or, at depth zero, found to be balanced. */
  lemma Bracketed(inside: string, rest: string, open: char, close: char, depth: nat)
    requires Brackets(open, close) && Neutral(inside, open, close)
    ensures var s := [open] + inside + [close];
            Scan(s + rest, open, close, depth, false, false)
            == if depth == 0 then Some(|s|) else Plus(|s|, Scan(rest, open, close, depth, false, false))
  {
    hide Neutral, Scan;
    var s := [open] + inside + [close];
    var tail := [close] + rest;
    assert (s + rest)[0] == open && (s + rest)[1..] == inside + tail;
    ScanStep(s + rest, open, close, depth, false, false);
    NeutralAt(inside, tail, open, close, depth + 1);
    assert tail[0] == close && tail[1..] == rest;
    ScanStep(tail, open, close, depth + 1, false, false);
  }

  lemma NeutralAt(p: string, rest: string, open: char, close: char, depth: int)
    requires Neutral(p, open, close) && depth > 0
    ensures Scan(p + rest, open, close, depth, false, false) == Plus(|p|, Scan(rest, open, close, depth, false, false))
  {
  }

  lemma WrapNeutral(inside: string, o: char, c: char, open: char, close: char)
    requires Brackets(open, close) && Brackets(o, c) && Neutral(inside, open, close)
    ensures Neutral([o] + inside + [c], open, close)
  {
    if o == open {
      forall rest, depth | depth > 0
        ensures Scan(([o] + inside + [c]) + rest, open, close, depth, false, false)
                == Plus(|[o] + inside + [c]|, Scan(rest, open, close, depth, false, false))
      {
        Bracketed(inside, rest, open, close, depth);
      }
    } else {
      hide Neutral;
      NeutralAppend([o], inside, open, close);
      NeutralAppend([o] + inside, [c], open, close);
    }
  }

  /** Every JSON text is neutral. */
  lemma {:induction false} JsonIsNeutral(v: Json, open: char, close: char)
    requires Brackets(open, close) && Wf(v)
    ensures Neutral(Print(v), open, close)
    decreases v, 1, 0
  {
    hide Neutral, PrintItems, PrintMembers;
    match v {
      case Scalar(literal) =>
        InertIsNeutral(literal, open, close);
      case Str(chars) =>
        StringIsNeutral(chars, open, close);
      case Arr(items, pad) =>
        ItemsAreNeutral(v, items, open, close);
        InertIsNeutral(pad, open, close);
        NeutralAppend(PrintItems(v, items), pad, open, close);
        WrapNeutral(PrintItems(v, items) + pad, '[', ']', open, close);
        assert Print(v) == ['['] + (PrintItems(v, items) + pad) + [']'];
      case Obj(members, pad) =>
        MembersAreNeutral(v, members, open, close);
        InertIsNeutral(pad, open, close);
        NeutralAppend(PrintMembers(v, members), pad, open, close);
        WrapNeutral(PrintMembers(v, members) + pad, '{', '}', open, close);
        assert Print(v) == ['{'] + (PrintMembers(v, members) + pad) + ['}'];
    }
  }

  predicate WfItem(x: Item) {
    IsWhite(x.before) && IsWhite(x.after) && Wf(x.value)
  }

  lemma {:induction false} ItemsAreNeutral(v: Json, items: seq<Item>, open: char, close: char)
    requires Brackets(open, close)
    requires forall x | x in items :: x.value < v && WfItem(x)
    ensures Neutral(PrintItems(v, items), open, close)
    decreases v, 0, |items|
  {
    hide Neutral;
    if items == [] {
      InertIsNeutral("", open, close);
    } else {
      var x := items[0];
      assert x in items;
      var comma := if |items| > 1 then "," else "";
      InertIsNeutral(x.before, open, close);
      JsonIsNeutral(x.value, open, close);
      InertIsNeutral(x.after, open, close);
      InertIsNeutral(comma, open, close);
      ItemsAreNeutral(v, items[1..], open, close);
      NeutralAppend(x.before, Print(x.value), open, close);
      NeutralAppend(x.before + Print(x.value), x.after, open, close);
      NeutralAppend(x.before + Print(x.value) + x.after, comma, open, close);
      NeutralAppend(x.before + Print(x.value) + x.after + comma, PrintItems(v, items[1..]), open, close);
    }
  }

  predicate WfMember(m: Member) {
    && IsWhite(m.before) && IsWhite(m.beforeColon) && IsWhite(m.afterColon) && IsWhite(m.after)
    && (forall x | x in m.name :: IsStringChar(x)) && Wf(m.value)
  }

  lemma {:induction false} MembersAreNeutral(v: Json, members: seq<Member>, open: char, close: char)
    requires Brackets(open, close)
    requires forall m | m in members :: m.value < v && WfMember(m)
    ensures Neutral(PrintMembers(v, members), open, close)
    decreases v, 0, |members|
  {
    hide Neutral;
    if members == [] {
      InertIsNeutral("", open, close);
    } else {
      var m := members[0];
      assert m in members;
      var comma := if |members| > 1 then "," else "";
      InertIsNeutral(m.before, open, close);
      StringIsNeutral(m.name, open, close);
      InertIsNeutral(m.beforeColon, open, close);
      InertIsNeutral(":", open, close);
      InertIsNeutral(m.afterColon, open, close);
      JsonIsNeutral(m.value, open, close);
      InertIsNeutral(m.after, open, close);
      InertIsNeutral(comma, open, close);
      MembersAreNeutral(v, members[1..], open, close);
      var a := m.before + PrintString(m.name);
      NeutralAppend(m.before, PrintString(m.name), open, close);
      NeutralAppend(a, m.beforeColon, open, close);
      NeutralAppend(a + m.beforeColon, ":", open, close);
      NeutralAppend(a + m.beforeColon + ":", m.afterColon, open, close);
      var b := a + m.beforeColon + ":" + m.afterColon;
      NeutralAppend(b, Print(m.value), open, close);
      NeutralAppend(b + Print(m.value), m.after, open, close);
      NeutralAppend(b + Print(m.value) + m.after, comma, open, close);
      NeutralAppend(b + Print(m.value) + m.after + comma, PrintMembers(v, members[1..]), open, close);
    }
  }

  lemma {:induction false} IndexOfAfter(prefix: string, s: string, c: char)
    requires c !in prefix && s != "" && s[0] == c
    ensures IndexOf(prefix + s, c) == Some(|prefix|)
  {
    if prefix == "" {
      assert prefix + s == s;
    } else {
      IndexOfAfter(prefix[1..], s, c);
      assert (prefix + s)[1..] == prefix[1..] + s;
    }
  }

  /** A JSON object embedded in any text comes back whole, as long as no opening
      brace stands before it; likewise for arrays and opening brackets. */
  lemma EmbeddedRoundTrip(prefix: string, v: Json, suffix: string)
    requires Wf(v)
    ensures v.Obj? && '{' !in prefix ==> Extracted(prefix + Print(v) + suffix, '{', '}') == Some(Print(v))
    ensures v.Arr? && '[' !in prefix ==> Extracted(prefix + Print(v) + suffix, '[', ']') == Some(Print(v))
  {
    hide Neutral, Scan, Extracted, Print, PrintItems, PrintMembers;
    PrintIs(v);
    if v.Obj? && '{' !in prefix {
      MembersAreNeutral(v, v.members, '{', '}');
      InertIsNeutral(v.pad, '{', '}');
      NeutralAppend(PrintMembers(v, v.members), v.pad, '{', '}');
      ExtractedAt(prefix, PrintMembers(v, v.members) + v.pad, suffix, '{', '}');
    }
    if v.Arr? && '[' !in prefix {
      ItemsAreNeutral(v, v.items, '[', ']');
      InertIsNeutral(v.pad, '[', ']');
      NeutralAppend(PrintItems(v, v.items), v.pad, '[', ']');
      ExtractedAt(prefix, PrintItems(v, v.items) + v.pad, suffix, '[', ']');
    }
  }

  lemma PrintIs(v: Json)
    ensures v.Obj? ==> Print(v) == ['{'] + (PrintMembers(v, v.members) + v.pad) + ['}']
    ensures v.Arr? ==> Print(v) == ['['] + (PrintItems(v, v.items) + v.pad) + [']']
  {
  }

  lemma ExtractedAt(prefix: string, inside: string, suffix: string, open: char, close: char)
    requires Brackets(open, close) && open !in prefix && Neutral(inside, open, close)
    ensures var p := [open] + inside + [close];
            Extracted(prefix + p + suffix, open, close) == Some(p)
  {
    hide Neutral;
    var p := [open] + inside + [close];
    var text := prefix + p + suffix;
    assert text == prefix + (p + suffix);
    IndexOfAfter(prefix, p + suffix, open);
    assert text[|prefix|..] == p + suffix;
    Bracketed(inside, suffix, open, close, 0);
    assert text[|prefix|..|prefix| + |p|] == p;
  }
}
