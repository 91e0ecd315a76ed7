/** Turn items, as far as the model history is concerned. */
module TurnItems {

  datatype Item =
    | UserMessage(turnId: string, text: string)
    | AssistantText(turnId: string, text: string)
    | AssistantReasoning(turnId: string, text: string, signature: string)
    | ToolCall(turnId: string, callId: string, toolName: string, arguments: string)
    | ToolResult(turnId: string, callId: string, output: string)
    | Approval(turnId: string)
    | UserInput(turnId: string)
    | Compaction(turnId: string, summary: string, replacedTokens: nat)
    | Review(turnId: string, completed: bool, reviewText: string)
    | RuntimeProgress(turnId: string)
    | ErrorItem(turnId: string)

  /** An item that may stand between a tool call and its results. */
  predicate IsToolResultBridge(item: Item, turnId: string, sawResult: bool) {
    match item
    case AssistantReasoning(_, _, _) => true
    case Approval(_) => true
    case UserInput(_) => true
    case RuntimeProgress(_) => true
    case ErrorItem(_) => true
    case AssistantText(t, _) => !sawResult && t == turnId
    case _ => false
  }

  predicate IsTool(item: Item) {
    item.ToolCall? || item.ToolResult?
  }
}

/** Repair of persisted items into a history a provider accepts: every tool-call
    run is followed by one matching result per call, with only bridge items in
    between, and no other result survives. */
module HistoryRepair {
  import opened Wrappers
  import opened TurnItems

  // ----- The repair as one pass over the items -----

  /** Where the pass stands: outside any block, within a run of calls, or behind
      a run, looking for the results still pending. */
  datatype St =
    | Idle
    | InRun(turn: string, ids: set<string>)
    | Scanning(turn: string, pending: set<string>, saw: bool)

  /** A run that has ended has all its results pending. */
  function Behind(st: St): St {
    match st
    case InRun(t, ids) => Scanning(t, ids, false)
    case _ => st
  }

  function Step(st: St, x: Item): St {
    match x
    case ToolCall(turn, id, _, _) =>
      if st.InRun? then InRun(st.turn, st.ids + {id}) else InRun(turn, {id})
    case ToolResult(_, id, _) =>
      (match Behind(st)
       case Scanning(t, p, _) => Scanning(t, p - {id}, true)
       case _ => Idle)
    case _ =>
      match Behind(st)
      case Scanning(t, p, saw) => if IsToolResultBridge(x, t, saw) then Scanning(t, p, saw) else Idle
      case _ => Idle
  }

  function AfterRun(s: seq<Item>): seq<Item> {
    if s != [] && s[0].ToolCall? then AfterRun(s[1..]) else s
  }

  /** The call ids that have a result in the block starting at `s`. */
  function Found(s: seq<Item>, turn: string, saw: bool): set<string> {
    if s == [] then {}
    else if s[0].ToolResult? then {s[0].callId} + Found(s[1..], turn, true)
    else if IsToolResultBridge(s[0], turn, saw) then Found(s[1..], turn, saw)
    else {}
  }

  function RunTurn(st: St, call: Item): string {
    if st.InRun? then st.turn else call.turnId
  }

  /** The first item of `s` survives the repair. */
  predicate Keep(st: St, s: seq<Item>)
    requires s != []
  {
    match s[0]
    case ToolCall(turn, id, _, _) =>
      && (st.InRun? ==> id !in st.ids)
      && id in Found(AfterRun(s), RunTurn(st, s[0]), false)
    case ToolResult(_, id, _) => Behind(st).Scanning? && id in Behind(st).pending
    case _ => true
  }

  function Fix(st: St, s: seq<Item>): seq<Item>
    decreases |s|
  {
    if s == [] then []
    else (if Keep(st, s) then [s[0]] else []) + Fix(Step(st, s[0]), s[1..])
  }

  function Repaired(items: seq<Item>): seq<Item> {
    Fix(Idle, items)
  }

  // ----- Legal histories -----

  /** Item `x` may follow a legal prefix that ended in `st`: calls of a run have
      distinct ids, each pending id gets exactly one result before the block ends,
      and no result stands anywhere else. */
  predicate Admits(st: St, x: Item) {
    match x
    case ToolCall(_, id, _, _) =>
      (st.InRun? ==> id !in st.ids) && (st.Scanning? ==> st.pending == {})
    case ToolResult(_, id, _) => Behind(st).Scanning? && id in Behind(st).pending
    case _ => Step(st, x).Idle? ==> Settled(st)
  }

  predicate Settled(st: St) {
    Behind(st).Scanning? ==> Behind(st).pending == {}
  }

  predicate Legal(st: St, s: seq<Item>)
    decreases |s|
  {
    if s == [] then Settled(st) else Admits(st, s[0]) && Legal(Step(st, s[0]), s[1..])
  }

  predicate Quiet(st: St) {
    st.Idle? || (st.Scanning? && st.pending == {})
  }

  // ----- Legal histories are exactly the ones repair leaves alone -----

  /** Every pending id still gets its result. */
  predicate Promised(st: St, s: seq<Item>) {
    match st
    case Idle => true
    case InRun(t, ids) => ids <= Found(AfterRun(s), t, false)
    case Scanning(t, p, saw) => p <= Found(s, t, saw)
  }

  lemma {:induction false} LegalIsPromised(st: St, s: seq<Item>)
    requires Legal(st, s)
    ensures Promised(st, s)
    decreases |s|
  {
    if s != [] {
      LegalIsPromised(Step(st, s[0]), s[1..]);
      assert !s[0].ToolCall? ==> AfterRun(s) == s;
    }
  }

  lemma FixNeverGrows(st: St, s: seq<Item>)
    ensures |Fix(st, s)| <= |s|
    decreases |s|
  {
  }

  lemma {:induction false} LegalIsFixed(st: St, s: seq<Item>)
    requires Promised(st, s)
    ensures Legal(st, s) <==> Fix(st, s) == s
    decreases |s|
  {
    if s != [] {
      var rest, st' := s[1..], Step(st, s[0]);
      var tail := Fix(st', rest);
      assert !s[0].ToolCall? ==> AfterRun(s) == s;
      FixNeverGrows(st', rest);
      if Legal(st', rest) { LegalIsPromised(st', rest); }
      if Keep(st, s) {
        assert Fix(st, s) == [s[0]] + tail;
        assert [s[0]] + tail == s <==> tail == rest;
        LegalIsFixed(st', rest);
      } else {
        assert Fix(st, s) == tail;
      }
    }
  }

  /** Repair leaves a history unchanged exactly when the history is legal. */
  lemma UnchangedIffLegal(items: seq<Item>)
    ensures Repaired(items) == items <==> Legal(Idle, items)
  {
    LegalIsFixed(Idle, items);
  }

  // ----- When repairing twice is repairing once -----

  /** No text of the given turn stands between a run and its first result. */
  predicate NoTextAhead(s: seq<Item>, turn: string) {
    s != [] && IsToolResultBridge(s[0], turn, false) ==> !s[0].AssistantText? && NoTextAhead(s[1..], turn)
  }

  /** The first call of its run that survives. */
  predicate FirstKept(st: St, s: seq<Item>)
    requires s != []
  {
    && s[0].ToolCall? && Keep(st, s)
    && (st.InRun? ==> st.ids * Found(AfterRun(s), st.turn, false) == {})
  }

  /** Wherever the first surviving call of a run has another turn than the run,
      the run's results come before any text of the run's turn. */
  predicate Anchored(st: St, s: seq<Item>)
    decreases |s|
  {
    s != [] ==>
      && (FirstKept(st, s) && s[0].turnId != RunTurn(st, s[0]) ==> NoTextAhead(AfterRun(s), RunTurn(st, s[0])))
      && Anchored(Step(st, s[0]), s[1..])
  }

  /** Every contiguous run of calls belongs to one turn. */
  predicate OneTurnPerRun(items: seq<Item>) {
    forall i :: 0 < i < |items| && items[i - 1].ToolCall? && items[i].ToolCall?
                ==> items[i - 1].turnId == items[i].turnId
  }

  lemma {:induction false} OneTurnIsAnchored(st: St, s: seq<Item>)
    requires OneTurnPerRun(s) && (st.InRun? && s != [] && s[0].ToolCall? ==> s[0].turnId == st.turn)
    ensures Anchored(st, s)
    decreases |s|
  {
    if s != [] {
      assert s[1..] != [] && s[0].ToolCall? && s[1..][0].ToolCall? ==> s[1].turnId == s[0].turnId;
      OneTurnIsAnchored(Step(st, s[0]), s[1..]);
    }
  }

  /** The pass over the original (`st`, about to read `s`) and the pass over what
      survives (`kept`) stay in step. */
  ghost predicate InStep(st: St, kept: St, s: seq<Item>) {
    match st
    case Idle => Quiet(kept)
    case InRun(t, ids) =>
      var live := ids * Found(AfterRun(s), t, false);
      if kept.InRun? then
        kept.ids == live && live != {} && (kept.turn == t || NoTextAhead(AfterRun(s), t))
      else Quiet(kept) && live == {}
    case Scanning(t, p, saw) =>
      var live := p * Found(s, t, saw);
      || (Quiet(kept) && live == {})
      || (&& Behind(kept).Scanning? && Behind(kept).pending == live && (kept.InRun? ==> live != {})
          && (Behind(kept).saw ==> saw)
          && (Behind(kept).turn == t || saw || NoTextAhead(s, t)))
  }

  lemma OtherInStep(st: St, kept: St, s: seq<Item>)
    requires s != [] && !s[0].ToolCall? && InStep(st, kept, s)
    ensures Keep(st, s) ==> Admits(kept, s[0]) && InStep(Step(st, s[0]), Step(kept, s[0]), s[1..])
    ensures !Keep(st, s) ==> InStep(Step(st, s[0]), kept, s[1..])
  {
    assert AfterRun(s) == s;
    assert InStep(Behind(st), kept, s);
    match Behind(st) {
      case Scanning(t, p, saw) =>
        if s[0].ToolResult? {
          var id, rest := s[0].callId, Found(s[1..], t, true);
          assert Found(s, t, saw) == {id} + rest;
          if id in p {
            assert id in p * Found(s, t, saw);
            assert (p - {id}) * rest == p * Found(s, t, saw) - {id};
          } else {
            assert p - {id} == p && p * rest == p * Found(s, t, saw);
          }
        } else if !IsToolResultBridge(s[0], t, saw) {
          assert p * Found(s, t, saw) == {};
        }
      case _ =>
    }
  }

  /** Once a run survives under another turn and a text of its own turn comes
      before its first result, the surviving block is cut short. */
  lemma {:induction false} CutShort(st: St, kept: St, s: seq<Item>)
    requires st.InRun? && kept.InRun? && kept.turn != st.turn
    requires kept.ids == st.ids * Found(AfterRun(s), st.turn, false) && kept.ids != {}
    requires !NoTextAhead(AfterRun(s), st.turn)
    ensures !Legal(kept, Fix(st, s))
    decreases |s|
  {
    if s[0].ToolCall? {
      var id := s[0].callId;
      var tail := Fix(Step(st, s[0]), s[1..]);
      var found := Found(AfterRun(s), st.turn, false);
      if Keep(st, s) {
        assert (st.ids + {id}) * found == kept.ids + {id};
        assert ([s[0]] + tail)[1..] == tail;
        CutShort(Step(st, s[0]), Step(kept, s[0]), s[1..]);
      } else {
        assert (st.ids + {id}) * found == kept.ids;
        assert [] + tail == tail;
        CutShort(Step(st, s[0]), kept, s[1..]);
      }
    } else {
      CutShortBehind(st, kept, s);
    }
  }

  lemma {:induction false} CutShortBehind(st: St, kept: St, s: seq<Item>)
    requires Behind(st).Scanning? && !Behind(st).saw && Behind(kept).Scanning? && Behind(kept).pending != {}
    requires Behind(kept).turn != Behind(st).turn
    requires !NoTextAhead(s, Behind(st).turn)
    ensures !Legal(kept, Fix(st, s))
    decreases |s|
  {
    var tail := Fix(Step(st, s[0]), s[1..]);
    assert ([s[0]] + tail)[1..] == tail;
    if !s[0].AssistantText? {
      CutShortBehind(Step(st, s[0]), Step(kept, s[0]), s[1..]);
    }
  }

  lemma {:induction false} LegalIffAnchored(st: St, kept: St, s: seq<Item>)
    requires InStep(st, kept, s)
    ensures Legal(kept, Fix(st, s)) <==> Anchored(st, s)
    decreases |s|
  {
    if s != [] {
      var x, rest := s[0], s[1..];
      var tail := Fix(Step(st, x), rest);
      assert ([x] + tail)[1..] == tail && [] + tail == tail;
      var t := RunTurn(st, x);
      if FirstKept(st, s) && x.turnId != t && !NoTextAhead(AfterRun(s), t) {
        assert (st.ids + {x.callId}) * Found(AfterRun(s), t, false) == {x.callId};
        CutShort(Step(st, x), Step(kept, x), rest);
      } else {
        if !x.ToolCall? { OtherInStep(st, kept, s); }
        LegalIffAnchored(Step(st, x), if Keep(st, s) then Step(kept, x) else kept, rest);
      }
    }
  }

  /** Repair yields a legal history, and is idempotent, exactly on the anchored
      histories. */
  lemma IdempotentIffAnchored(items: seq<Item>)
    ensures Legal(Idle, Repaired(items)) <==> Anchored(Idle, items)
    ensures Repaired(Repaired(items)) == Repaired(items) <==> Anchored(Idle, items)
  {
    LegalIffAnchored(Idle, Idle, items);
    UnchangedIffLegal(Repaired(items));
  }

  /** Every history whose runs have one turn each is anchored. */
  lemma RepairedIsLegal(items: seq<Item>)
    requires OneTurnPerRun(items)
    ensures Legal(Idle, Repaired(items)) && Repaired(Repaired(items)) == Repaired(items)
  {
    OneTurnIsAnchored(Idle, items);
    IdempotentIffAnchored(items);
  }

  lemma FirstRepair()
    ensures var items := [ToolCall("t1", "a", "f", ""), ToolCall("t2", "b", "f", ""),
                          AssistantText("t1", "x"), ToolResult("t2", "b", "r")];
            Repaired(items) == items[1..]
  {
    var b, x, r := ToolCall("t2", "b", "f", ""), AssistantText("t1", "x"), ToolResult("t2", "b", "r");
    var a := ToolCall("t1", "a", "f", "");
    assert [x, r][1..] == [r] && [b, x, r][1..] == [x, r] && [a, b, x, r][1..] == [b, x, r];
    assert Found([r], "t1", false) == {"b"};
    assert Found([x, r], "t1", false) == {"b"};
    assert AfterRun([b, x, r]) == [x, r] && AfterRun([a, b, x, r]) == [x, r];
    var st1 := InRun("t1", {"a"});
    var st2 := InRun("t1", {"a", "b"});
    assert st1.ids + {"b"} == st2.ids;
    assert Fix(Scanning("t1", {"a", "b"}, false), [r]) == [r];
    assert Fix(st2, [x, r]) == [x, r];
    assert Fix(st1, [b, x, r]) == [b, x, r];
  }

  lemma SecondRepair()
    ensures var items := [ToolCall("t2", "b", "f", ""), AssistantText("t1", "x"), ToolResult("t2", "b", "r")];
            Repaired(items) == [AssistantText("t1", "x")]
  {
    var b, x, r := ToolCall("t2", "b", "f", ""), AssistantText("t1", "x"), ToolResult("t2", "b", "r");
    assert [x, r][1..] == [r] && [b, x, r][1..] == [x, r];
    assert Found([x, r], "t2", false) == {};
    assert AfterRun([b, x, r]) == [x, r];
    assert Fix(Idle, [r]) == [];
    assert Fix(InRun("t2", {"b"}), [x, r]) == [x];
    assert Fix(Idle, [b, x, r]) == [x];
  }

  /** Without that, a second repair can remove what the first one kept: the turn
      of the block is that of its first call, which may be dropped. */
  lemma RepairNotIdempotent()
    ensures var items := [ToolCall("t1", "a", "f", ""), ToolCall("t2", "b", "f", ""),
                          AssistantText("t1", "x"), ToolResult("t2", "b", "r")];
            && Repaired(items) == items[1..]
            && Repaired(items[1..]) == [AssistantText("t1", "x")]
  {
    FirstRepair();
    SecondRepair();
    hide Repaired;
    var items := [ToolCall("t1", "a", "f", ""), ToolCall("t2", "b", "f", ""),
                  AssistantText("t1", "x"), ToolResult("t2", "b", "r")];
    assert items[1..] == [items[1], items[2], items[3]];
  }

  // ----- What repair never touches -----

  function NonTool(s: seq<Item>): seq<Item> {
    if s == [] then [] else (if IsTool(s[0]) then [] else [s[0]]) + NonTool(s[1..])
  }

  predicate Subsequence(a: seq<Item>, b: seq<Item>)
    decreases |b|
  {
    a == [] || (b != [] && ((a[0] == b[0] && Subsequence(a[1..], b[1..])) || Subsequence(a, b[1..])))
  }

  lemma {:induction false} RepairKeepsTheRest(st: St, s: seq<Item>)
    ensures Subsequence(Fix(st, s), s)
    ensures NonTool(Fix(st, s)) == NonTool(s)
    decreases |s|
  {
    if s != [] {
      var tail := Fix(Step(st, s[0]), s[1..]);
      RepairKeepsTheRest(Step(st, s[0]), s[1..]);
      assert ([s[0]] + tail)[1..] == tail && [] + tail == tail;
      assert [] + NonTool(s[1..]) == NonTool(s[1..]);
    }
  }

  // ----- What the items between a call and its result do, kind by kind -----

  /** An item beside the conversation: nobody said it to the model. */
  predicate Aside(x: Item) {
    x.AssistantReasoning? || x.Approval? || x.UserInput? || x.RuntimeProgress? || x.ErrorItem?
  }

  function ToolsOf(s: seq<Item>): seq<Item> {
    if s == [] then []
    else (if s[0].ToolCall? || s[0].ToolResult? then [s[0]] else []) + ToolsOf(s[1..])
  }

  /** The state after the items. */
  function End(st: St, u: seq<Item>): St
    decreases |u|
  {
    if u == [] then st else End(Step(st, u[0]), u[1..])
  }

  /** The block passes all the items, and this tells whether a result was among them. */
  function PassEnd(s: seq<Item>, turn: string, saw: bool): Option<bool>
    decreases |s|
  {
    if s == [] then Some(saw)
    else if s[0].ToolResult? then PassEnd(s[1..], turn, true)
    else if IsToolResultBridge(s[0], turn, saw) then PassEnd(s[1..], turn, saw)
    else None
  }

  lemma {:induction false} ToolsAppend(a: seq<Item>, b: seq<Item>)
    ensures ToolsOf(a + b) == ToolsOf(a) + ToolsOf(b)
  {
    if a == [] {
      assert a + b == b;
    } else {
      ToolsAppend(a[1..], b);
      assert (a + b)[0] == a[0] && (a + b)[1..] == a[1..] + b;
      var x := if a[0].ToolCall? || a[0].ToolResult? then [a[0]] else [];
      assert x + (ToolsOf(a[1..]) + ToolsOf(b)) == (x + ToolsOf(a[1..])) + ToolsOf(b);
    }
  }

  lemma {:induction false} EndSnoc(st: St, u: seq<Item>, x: Item)
    ensures End(st, u + [x]) == Step(End(st, u), x)
    decreases |u|
  {
    if u == [] {
      assert (u + [x])[1..] == [];
    } else {
      assert (u + [x])[1..] == u[1..] + [x];
      EndSnoc(Step(st, u[0]), u[1..], x);
    }
  }

  /** What is found behind an item depends on whether the block passes it. */
  lemma {:induction false} FoundAround(a: seq<Item>, turn: string, saw: bool, x: Item, v: seq<Item>)
    requires !x.ToolCall? && !x.ToolResult?
    ensures var end := PassEnd(a, turn, saw);
            Found(a + ([x] + v), turn, saw) ==
            if end.Some? && !IsToolResultBridge(x, turn, end.value) then Found(a, turn, saw)
            else Found(a + v, turn, saw)
    decreases |a|
  {
    if a == [] {
      assert [] + ([x] + v) == [x] + v && ([x] + v)[1..] == v && [] + v == v;
    } else {
      assert (a + ([x] + v))[1..] == a[1..] + ([x] + v) && (a + v)[1..] == a[1..] + v;
      if a[0].ToolResult? {
        FoundAround(a[1..], turn, true, x, v);
      } else if IsToolResultBridge(a[0], turn, saw) {
        FoundAround(a[1..], turn, saw, x, v);
      }
    }
  }

  lemma {:induction false} EndPasses(turn: string, pending: set<string>, saw: bool, a: seq<Item>)
    requires PassEnd(a, turn, saw).Some?
    ensures var st := End(Scanning(turn, pending, saw), a);
            st.Scanning? && st.turn == turn && st.saw == PassEnd(a, turn, saw).value
    decreases |a|
  {
    if a != [] {
      var st := Step(Scanning(turn, pending, saw), a[0]);
      EndPasses(turn, st.pending, st.saw, a[1..]);
    }
  }

  lemma {:induction false} AfterRunAround(u: seq<Item>, w: seq<Item>)
    ensures AfterRun(u + w) == if AfterRun(u) == [] then AfterRun(w) else AfterRun(u) + w
    ensures AfterRun(u) != [] ==> !AfterRun(u)[0].ToolCall?
  {
    if u == [] {
      assert u + w == w;
    } else {
      assert (u + w)[1..] == u[1..] + w;
      if u[0].ToolCall? { AfterRunAround(u[1..], w); }
    }
  }

  /** Behind a call, the block of its run as far as it passes. */
  lemma {:induction false} EndOfRun(turn: string, ids: set<string>, u: seq<Item>)
    ensures var a, st := AfterRun(u), End(InRun(turn, ids), u);
            && (a == [] ==> st.InRun? && st.turn == turn)
            && (a != [] && PassEnd(a, turn, false).Some? ==>
                  st.Scanning? && st.turn == turn && st.saw == PassEnd(a, turn, false).value)
    decreases |u|
  {
    if u != [] {
      if u[0].ToolCall? {
        EndOfRun(turn, ids + {u[0].callId}, u[1..]);
      } else if PassEnd(u, turn, false).Some? {
        var st := Step(InRun(turn, ids), u[0]);
        EndPasses(turn, st.pending, st.saw, u[1..]);
      }
    }
  }

  /** The item, behind `u`, is one the block passes, or there is no block. */
  predicate Passed(st: St, x: Item) {
    Behind(st).Scanning? ==> IsToolResultBridge(x, Behind(st).turn, Behind(st).saw)
  }

  lemma {:induction false} FoundStops(a: seq<Item>, turn: string, saw: bool, w: seq<Item>)
    requires PassEnd(a, turn, saw).None?
    ensures Found(a + w, turn, saw) == Found(a, turn, saw)
    decreases |a|
  {
    assert (a + w)[1..] == a[1..] + w;
    if a[0].ToolResult? {
      FoundStops(a[1..], turn, true, w);
    } else if IsToolResultBridge(a[0], turn, saw) {
      FoundStops(a[1..], turn, saw, w);
    }
  }

  /** An item that is passed takes no result from a call before it. */
  lemma CallPassed(st: St, u: seq<Item>, x: Item, v: seq<Item>)
    requires u != [] && u[0].ToolCall? && !x.ToolCall? && !x.ToolResult? && Passed(End(st, u), x)
    requires End(st, u).InRun? ==> v == [] || !v[0].ToolCall?
    ensures Found(AfterRun(u + ([x] + v)), RunTurn(st, u[0]), false) == Found(AfterRun(u + v), RunTurn(st, u[0]), false)
  {
    var turn, a := RunTurn(st, u[0]), AfterRun(u);
    AfterRunAround(u, [x] + v);
    AfterRunAround(u, v);
    EndOfRun(turn, Step(st, u[0]).ids, u[1..]);
    if a == [] {
      assert ([x] + v)[1..] == v;
    } else {
      FoundAround(a, turn, false, x, v);
    }
  }

  /** An item that is not passed leaves a call before it the results before it. */
  lemma CallStopped(st: St, u: seq<Item>, x: Item, v: seq<Item>)
    requires u != [] && u[0].ToolCall? && !x.ToolCall? && !x.ToolResult? && !Passed(End(st, u), x)
    ensures Found(AfterRun(u + ([x] + v)), RunTurn(st, u[0]), false) == Found(AfterRun(u), RunTurn(st, u[0]), false)
  {
    var turn, a := RunTurn(st, u[0]), AfterRun(u);
    AfterRunAround(u, [x] + v);
    EndOfRun(turn, Step(st, u[0]).ids, u[1..]);
    if a == [] {
      assert ([x] + v)[0] == x;
    } else if PassEnd(a, turn, false).Some? {
      FoundAround(a, turn, false, x, v);
    } else {
      FoundStops(a, turn, false, [x] + v);
    }
  }

  /** Once no call can follow, being behind a run is all there is to being in it. */
  lemma FixBehind(st: St, v: seq<Item>)
    requires st.InRun? ==> v == [] || !v[0].ToolCall?
    ensures Fix(Behind(st), v) == Fix(st, v)
  {
  }

  /** A passed item, but between two adjacent calls, changes no call and no result. */
  lemma {:induction false} InsertPassed(st: St, u: seq<Item>, x: Item, v: seq<Item>)
    requires !x.ToolCall? && !x.ToolResult? && Passed(End(st, u), x)
    requires End(st, u).InRun? ==> v == [] || !v[0].ToolCall?
    ensures ToolsOf(Fix(st, u + ([x] + v))) == ToolsOf(Fix(st, u + v))
    decreases |u|
  {
    if u == [] {
      assert u + ([x] + v) == [x] + v && u + v == v && ([x] + v)[1..] == v;
      FixBehind(st, v);
      assert Step(st, x) == Behind(st);
      ToolsAppend([x], Fix(Step(st, x), v));
      assert ToolsOf([x]) == [] by { assert [x][1..] == []; }
    } else {
      var s, s', next := u + ([x] + v), u + v, Step(st, u[0]);
      assert s[1..] == u[1..] + ([x] + v) && s'[1..] == u[1..] + v && s[0] == u[0] && s'[0] == u[0];
      InsertPassed(next, u[1..], x, v);
      if u[0].ToolCall? { CallPassed(st, u, x, v); }
      hide Found, AfterRun, Passed;
      var kept := if Keep(st, s) then [u[0]] else [];
      assert Keep(st, s) == Keep(st, s');
      ToolsAppend(kept, Fix(next, s[1..]));
      ToolsAppend(kept, Fix(next, s'[1..]));
    }
  }

  /** An item that is not passed parts the history: each side is repaired on its own. */
  lemma {:induction false} InsertStopped(st: St, u: seq<Item>, x: Item, v: seq<Item>)
    requires !x.ToolCall? && !x.ToolResult? && (!Passed(End(st, u), x) || End(st, u).Idle?)
    ensures Fix(st, u + ([x] + v)) == Fix(st, u) + ([x] + Fix(Idle, v))
    decreases |u|
  {
    if u == [] {
      assert u + ([x] + v) == [x] + v && ([x] + v)[1..] == v;
      assert [] + ([x] + Fix(Idle, v)) == [x] + Fix(Idle, v);
    } else {
      var s, next := u + ([x] + v), Step(st, u[0]);
      assert s[1..] == u[1..] + ([x] + v) && s[0] == u[0];
      InsertStopped(next, u[1..], x, v);
      if u[0].ToolCall? { CallParted(st, u, x, v); }
      hide Found, AfterRun, Passed;
      var kept := if Keep(st, s) then [u[0]] else [];
      assert Keep(st, s) == Keep(st, u);
      assert kept + (Fix(next, u[1..]) + ([x] + Fix(Idle, v))) == (kept + Fix(next, u[1..])) + ([x] + Fix(Idle, v));
    }
  }

  lemma CallParted(st: St, u: seq<Item>, x: Item, v: seq<Item>)
    requires u != [] && u[0].ToolCall? && !x.ToolCall? && !x.ToolResult?
    requires !Passed(End(st, u), x) || End(st, u).Idle?
    ensures Found(AfterRun(u + ([x] + v)), RunTurn(st, u[0]), false) == Found(AfterRun(u), RunTurn(st, u[0]), false)
  {
    if End(st, u).Idle? {
      var turn, a := RunTurn(st, u[0]), AfterRun(u);
      AfterRunAround(u, [x] + v);
      EndOfRun(turn, Step(st, u[0]).ids, u[1..]);
      FoundStops(a, turn, false, [x] + v);
    } else {
      CallStopped(st, u, x, v);
    }
  }

  // ----- The laws, told from the kinds of the items alone -----

  /** Reasoning, approvals, user inputs, progress and errors may stand anywhere but between
      two calls of a run: with or without them the same calls and results survive. */
  lemma AsideChangesNothing(u: seq<Item>, x: Item, v: seq<Item>)
    requires x.AssistantReasoning? || x.Approval? || x.UserInput? || x.RuntimeProgress? || x.ErrorItem?
    requires !(u != [] && u[|u| - 1].ToolCall? && v != [] && v[0].ToolCall?)
    ensures ToolsOf(Repaired(u + ([x] + v))) == ToolsOf(Repaired(u + v))
  {
    EndTells(u);
    InsertPassed(Idle, u, x, v);
  }

  /** A user message, compaction or review parts the history: calls before it get no result
      from behind it, and what stands behind it is repaired as if nothing stood before. */
  lemma BarrierParts(u: seq<Item>, x: Item, v: seq<Item>)
    requires x.UserMessage? || x.Compaction? || x.Review?
    ensures Repaired(u + ([x] + v)) == Repaired(u) + ([x] + Repaired(v))
  {
    EndTells(u);
    InsertStopped(Idle, u, x, v);
  }

  /** Before the first call no result survives, and nothing else is touched. */
  lemma {:induction false} NoCallNoResult(w: seq<Item>, rest: seq<Item>)
    requires forall k :: 0 <= k < |w| ==> !w[k].ToolCall?
    ensures Repaired(w + rest) == NonTool(w) + Repaired(rest)
    decreases |w|
  {
    if w == [] {
      assert w + rest == rest && NonTool(w) + Repaired(rest) == Repaired(rest);
    } else {
      assert (w + rest)[1..] == w[1..] + rest && (w + rest)[0] == w[0];
      NoCallNoResult(w[1..], rest);
      var x := if w[0].ToolResult? then [] else [w[0]];
      assert x + (NonTool(w[1..]) + Repaired(rest)) == (x + NonTool(w[1..])) + Repaired(rest);
    }
  }

  /** The turn of the run of calls that ends the items: that of its first call. */
  function LastRunTurn(u: seq<Item>): string
    requires u != [] && u[|u| - 1].ToolCall?
    decreases |u|
  {
    if |u| > 1 && u[|u| - 2].ToolCall? then LastRunTurn(u[..|u| - 1]) else u[|u| - 1].turnId
  }

  /** Behind `u` a text of the turn belongs to a block: going back there are only asides and
      texts of the turn, and then a run of calls of the turn. */
  predicate TextPasses(u: seq<Item>, turn: string)
    decreases |u|
  {
    u != [] &&
      var last := u[|u| - 1];
      if last.ToolCall? then LastRunTurn(u) == turn
      else (Aside(last) || (last.AssistantText? && last.turnId == turn)) && TextPasses(u[..|u| - 1], turn)
  }

  /** The state of the pass, told from the items. */
  lemma {:induction false} EndTells(u: seq<Item>)
    ensures End(Idle, u).InRun? <==> u != [] && u[|u| - 1].ToolCall?
    ensures u != [] && u[|u| - 1].ToolCall? ==> End(Idle, u).turn == LastRunTurn(u)
    ensures forall turn :: TextPasses(u, turn) <==>
      Behind(End(Idle, u)).Scanning? && !Behind(End(Idle, u)).saw && Behind(End(Idle, u)).turn == turn
    decreases |u|
  {
    if u != [] {
      var front, last := u[..|u| - 1], u[|u| - 1];
      EndTells(front);
      EndSnoc(Idle, front, last);
      assert u == front + [last];
      if last.ToolCall? && |u| > 1 { assert front[|front| - 1] == u[|u| - 2]; }
    }
  }

  /** A text of the assistant passes exactly so; anywhere else it parts the history. */
  lemma TextParts(u: seq<Item>, x: Item, v: seq<Item>)
    requires x.AssistantText?
    ensures TextPasses(u, x.turnId) && !(u[|u| - 1].ToolCall? && v != [] && v[0].ToolCall?) ==>
              ToolsOf(Repaired(u + ([x] + v))) == ToolsOf(Repaired(u + v))
    ensures !TextPasses(u, x.turnId) ==> Repaired(u + ([x] + v)) == Repaired(u) + ([x] + Repaired(v))
  {
    EndTells(u);
    if TextPasses(u, x.turnId) {
      if !(u[|u| - 1].ToolCall? && v != [] && v[0].ToolCall?) { InsertPassed(Idle, u, x, v); }
    } else {
      InsertStopped(Idle, u, x, v);
    }
  }

  // ----- The two loops of the source -----

  function StateAt(items: seq<Item>, k: nat): St
    requires k <= |items|
  {
    if k == 0 then Idle else Step(StateAt(items, k - 1), items[k - 1])
  }

  predicate KeepAt(items: seq<Item>, k: nat)
    requires k < |items|
  {
    Keep(StateAt(items, k), items[k..])
  }

  /** No result from `h` to the next call can belong to a block before it. */
  ghost predicate Horizon(items: seq<Item>, h: nat) {
    h <= |items| && (h == |items| || items[h].ToolCall? || StateAt(items, h).Idle?)
  }

  lemma FoundStep(s: seq<Item>, turn: string, saw: bool)
    ensures Found(s, turn, saw) ==
            if s == [] then {}
            else if s[0].ToolResult? then {s[0].callId} + Found(s[1..], turn, true)
            else if IsToolResultBridge(s[0], turn, saw) then Found(s[1..], turn, saw)
            else {}
  {
  }

  // ----- Runs and blocks, read off the items -----

  predicate CallsOnly(items: seq<Item>, i: nat, j: nat) {
    i <= j <= |items| && forall k :: i <= k < j ==> items[k].ToolCall?
  }

  function RunIds(items: seq<Item>, i: nat, j: nat): set<string>
    requires CallsOnly(items, i, j)
    decreases j - i
  {
    if i == j then {} else RunIds(items, i, j - 1) + {items[j - 1].callId}
  }

  lemma {:induction false} RunIdsMember(items: seq<Item>, i: nat, j: nat, id: string)
    requires CallsOnly(items, i, j)
    ensures id in RunIds(items, i, j) <==> exists k :: i <= k < j && items[k].callId == id
    decreases j - i
  {
    if i < j {
      RunIdsMember(items, i, j - 1, id);
    }
  }

  /** The state within a run of calls that starts at `index`. */
  lemma {:induction false} InRunAt(items: seq<Item>, index: nat, cursor: nat)
    requires index < cursor && CallsOnly(items, index, cursor) && !StateAt(items, index).InRun?
    ensures StateAt(items, cursor) == InRun(items[index].turnId, RunIds(items, index, cursor))
    decreases cursor - index
  {
    if cursor > index + 1 {
      InRunAt(items, index, cursor - 1);
    } else {
      assert RunIds(items, index, index) == {};
    }
  }

  /** The items from `a` up to `b` are a whole run of calls. */
  predicate IsRun(items: seq<Item>, a: nat, b: nat) {
    && a < b && CallsOnly(items, a, b)
    && (a == 0 || !items[a - 1].ToolCall?) && (b == |items| || !items[b].ToolCall?)
  }

  /** A result stands between `start` and `k`. */
  predicate Saw(items: seq<Item>, start: nat, k: nat)
    requires k <= |items|
    decreases k
  {
    start < k && (items[k - 1].ToolResult? || Saw(items, start, k - 1))
  }

  /** Item `k` belongs to the block of the turn that starts at `start`. */
  predicate InBlock(items: seq<Item>, start: nat, turn: string, k: nat)
    requires k < |items|
  {
    items[k].ToolResult? || IsToolResultBridge(items[k], turn, Saw(items, start, k))
  }

  /** The block that starts at `start` reaches up to `k`. */
  predicate Reach(items: seq<Item>, start: nat, turn: string, k: nat) {
    start <= k <= |items| && forall j :: start <= j < k ==> InBlock(items, start, turn, j)
  }

  /** The ids that have a result between `start` and `k`. */
  function Results(items: seq<Item>, start: nat, k: nat): set<string>
    requires start <= k <= |items|
    decreases k
  {
    if k == start then {}
    else Results(items, start, k - 1) + if items[k - 1].ToolResult? then {items[k - 1].callId} else {}
  }

  lemma {:induction false} ResultsMember(items: seq<Item>, start: nat, k: nat, id: string)
    requires start <= k <= |items|
    ensures id in Results(items, start, k) <==>
            exists i :: start <= i < k && items[i].ToolResult? && items[i].callId == id
    decreases k
  {
    if start < k { ResultsMember(items, start, k - 1, id); }
  }

  /** The first result of an expected id in the block. */
  predicate FirstResult(items: seq<Item>, start: nat, turn: string, expected: set<string>, r: nat) {
    && start <= r < |items| && Reach(items, start, turn, r) && items[r].ToolResult?
    && items[r].callId in expected && items[r].callId !in Results(items, start, r)
  }

  method FindResultBlock(items: seq<Item>, startIndex: nat, turnId: string, expected: set<string>)
    returns (resultCallIds: set<string>, resultIndexes: set<nat>, ghost end: nat)
    requires startIndex <= |items|
    ensures resultCallIds == expected * Found(items[startIndex..], turnId, false)
    ensures resultCallIds == {} ==> resultIndexes == {}
    ensures Reach(items, startIndex, turnId, end)
    ensures end == |items| || !InBlock(items, startIndex, turnId, end)
    ensures forall r: nat :: r in resultIndexes <==> FirstResult(items, startIndex, turnId, expected, r)
    ensures forall r :: r in resultIndexes ==> startIndex <= r < |items|
  {
    hide Found, Saw, Results;
    var seen: set<string> := {};
    resultIndexes := {};
    var sawResult := false;
    var index := startIndex;
    BlockStart(items, startIndex);
    ghost var all := Found(items[startIndex..], turnId, false);
    while index < |items|
      invariant startIndex <= index <= |items|
      invariant Reach(items, startIndex, turnId, index) && sawResult == Saw(items, startIndex, index)
      invariant seen == expected * Results(items, startIndex, index)
      invariant expected * all == seen + (expected - seen) * Found(items[index..], turnId, sawResult)
      invariant seen == {} ==> resultIndexes == {}
      invariant forall r: nat :: r in resultIndexes <==>
                              r < index && FirstResult(items, startIndex, turnId, expected, r)
    {
      var item := items[index];
      FoundStep(items[index..], turnId, sawResult);
      BlockStep(items, startIndex, index);
      assert items[index..][1..] == items[index + 1..];
      if item.ToolResult? {
        sawResult := true;
        if item.callId in expected && item.callId !in seen {
          seen := seen + {item.callId};
          resultIndexes := resultIndexes + {index};
        }
        index := index + 1;
      } else if IsToolResultBridge(item, turnId, sawResult) {
        index := index + 1;
      } else {
        break;
      }
    }
    resultCallIds := seen;
    end := index;
    FoundStep(items[index..], turnId, sawResult);
  }

  lemma BlockStart(items: seq<Item>, start: nat)
    requires start <= |items|
    ensures !Saw(items, start, start) && Results(items, start, start) == {}
  {
  }

  lemma BlockStep(items: seq<Item>, start: nat, k: nat)
    requires start <= k < |items|
    ensures Saw(items, start, k + 1) == (items[k].ToolResult? || Saw(items, start, k))
    ensures Results(items, start, k + 1) ==
            Results(items, start, k) + if items[k].ToolResult? then {items[k].callId} else {}
  {
  }

  /** Within the block of a run the pass is scanning for what has no result yet. */
  lemma {:induction false} StateInBlock(items: seq<Item>, start: nat, turn: string, ids: set<string>, k: nat)
    requires start <= |items| && StateAt(items, start) == InRun(turn, ids) && Reach(items, start, turn, k)
    ensures Behind(StateAt(items, k)) == Scanning(turn, ids - Results(items, start, k), Saw(items, start, k))
    ensures k > start ==> StateAt(items, k).Scanning?
    decreases k
  {
    if k > start {
      StateInBlock(items, start, turn, ids, k - 1);
      assert InBlock(items, start, turn, k - 1);
    }
  }

  /** Behind a run, the results that survive are the first ones in its block. */
  lemma BlockKeeps(items: seq<Item>, start: nat, turn: string, ids: set<string>, end: nat, r: nat)
    requires start <= |items| && StateAt(items, start) == InRun(turn, ids) && Reach(items, start, turn, end)
    requires end == |items| || !InBlock(items, start, turn, end)
    requires start <= r < |items|
    ensures FirstResult(items, start, turn, ids, r) <==> r < end && items[r].ToolResult? && KeepAt(items, r)
  {
    if r < end {
      assert Reach(items, start, turn, r);
      StateInBlock(items, start, turn, ids, r);
    } else if end < |items| {
      assert !InBlock(items, start, turn, end);
    }
  }

  /** Behind the block no result can belong to it. */
  lemma BlockEnds(items: seq<Item>, start: nat, turn: string, ids: set<string>, end: nat)
    requires start <= |items| && StateAt(items, start) == InRun(turn, ids) && Reach(items, start, turn, end)
    requires end == |items| || !InBlock(items, start, turn, end)
    ensures end < |items| && !items[end].ToolCall? ==> StateAt(items, end + 1).Idle?
  {
    StateInBlock(items, start, turn, ids, end);
  }

  lemma {:induction false} LegalAt(items: seq<Item>, i: nat)
    requires Legal(Idle, items) && i <= |items|
    ensures Legal(StateAt(items, i), items[i..])
  {
    if i == 0 {
      assert items[0..] == items;
    } else {
      LegalAt(items, i - 1);
      assert items[i - 1..][0] == items[i - 1] && items[i - 1..][1..] == items[i..];
    }
  }

  // ----- What a legal history is, without any pass -----

  /** The result at `r` answers the call at `c`: it stands in the block of the call's run
      and has its id. */
  ghost predicate Answers(items: seq<Item>, c: nat, r: nat) {
    exists a: nat, b: nat :: AnswersIn(items, a, b, c, r)
  }

  predicate AnswersIn(items: seq<Item>, a: nat, b: nat, c: nat, r: nat) {
    && IsRun(items, a, b) && a <= c < b <= r < |items| && Reach(items, b, items[a].turnId, r)
    && items[r].ToolResult? && items[r].callId == items[c].callId
  }

  /** The calls of each run have ids of their own, each call has exactly one answer, and
      each result answers a call. */
  ghost predicate Paired(items: seq<Item>) {
    && (forall a: nat, b: nat, i: nat, j: nat ::
          IsRun(items, a, b) && a <= i < j < b ==> items[i].callId != items[j].callId)
    && (forall c: nat :: c < |items| && items[c].ToolCall? ==> exists r: nat :: Answers(items, c, r))
    && (forall c: nat, r: nat, r': nat :: Answers(items, c, r) && Answers(items, c, r') ==> r == r')
    && (forall r: nat :: r < |items| && items[r].ToolResult? ==> exists c: nat :: Answers(items, c, r))
  }

  lemma PairedRunIds(items: seq<Item>, a: nat, b: nat, i: nat, j: nat)
    requires Paired(items) && IsRun(items, a, b) && a <= i < j < b
    ensures items[i].callId != items[j].callId
  {
    hide Answers;
  }

  lemma AnswerOf(items: seq<Item>, c: nat) returns (r: nat)
    requires Paired(items) && c < |items| && items[c].ToolCall?
    ensures Answers(items, c, r)
  {
    hide Answers, IsRun;
    assert exists r: nat :: Answers(items, c, r);
    r :| Answers(items, c, r);
  }

  lemma OneAnswer(items: seq<Item>, c: nat, r: nat, r': nat)
    requires Paired(items) && Answers(items, c, r) && Answers(items, c, r')
    ensures r == r'
  {
    hide Answers, IsRun;
  }

  lemma CallOf(items: seq<Item>, r: nat) returns (c: nat)
    requires Paired(items) && r < |items| && items[r].ToolResult?
    ensures Answers(items, c, r)
  {
    hide Answers, IsRun;
    assert exists c: nat :: Answers(items, c, r);
    c :| Answers(items, c, r);
  }

  /** A position has at most one run around it. */
  lemma OneRun(items: seq<Item>, a: nat, b: nat, a': nat, b': nat, c: nat)
    requires IsRun(items, a, b) && IsRun(items, a', b') && a <= c < b && a' <= c < b'
    ensures a == a' && b == b'
  {
  }

  /** At most one run has a block that reaches a position. */
  lemma OneBlock(items: seq<Item>, a: nat, b: nat, a': nat, b': nat, k: nat)
    requires IsRun(items, a, b) && IsRun(items, a', b')
    requires Reach(items, b, items[a].turnId, k) && Reach(items, b', items[a'].turnId, k)
    ensures a == a' && b == b'
  {
    NoCallsInBlock(items, b, items[a].turnId, k);
    NoCallsInBlock(items, b', items[a'].turnId, k);
    assert items[b - 1].ToolCall? && items[b' - 1].ToolCall?;
    assert b == b';
    OneRun(items, a, b, a', b', b - 1);
  }

  lemma {:induction false} RunBefore(items: seq<Item>, k: nat) returns (a: nat)
    requires 0 < k <= |items| && items[k - 1].ToolCall?
    ensures a < k && CallsOnly(items, a, k) && (a == 0 || !items[a - 1].ToolCall?)
    decreases k
  {
    if k > 1 && items[k - 2].ToolCall? {
      a := RunBefore(items, k - 1);
    } else {
      a := k - 1;
    }
  }

  lemma {:induction false} RunEnd(items: seq<Item>, a: nat, k: nat) returns (b: nat)
    requires a < k && CallsOnly(items, a, k) && (a == 0 || !items[a - 1].ToolCall?)
    ensures k <= b && IsRun(items, a, b)
    decreases |items| - k
  {
    if k < |items| && items[k].ToolCall? {
      b := RunEnd(items, a, k + 1);
    } else {
      b := k;
    }
  }

  /** Behind a whole run, before its block. */
  lemma StateBehindRun(items: seq<Item>, a: nat, b: nat)
    requires IsRun(items, a, b)
    ensures StateAt(items, b) == InRun(items[a].turnId, RunIds(items, a, b))
  {
    InRunIff(items, a);
    InRunAt(items, a, b);
  }

  /** A pass that is scanning has come along the block of a run. */
  lemma {:induction false} BlockBefore(items: seq<Item>, k: nat) returns (a: nat, b: nat)
    requires k <= |items| && Behind(StateAt(items, k)).Scanning?
    requires k == |items| || !items[k].ToolCall? || StateAt(items, k).Scanning?
    ensures IsRun(items, a, b) && Reach(items, b, items[a].turnId, k)
    decreases k
  {
    InRunIff(items, k);
    if StateAt(items, k).InRun? {
      a := RunBefore(items, k);
      b := k;
    } else {
      InRunIff(items, k - 1);
      a, b := BlockBefore(items, k - 1);
      StateBehindRun(items, a, b);
      StateInBlock(items, b, items[a].turnId, RunIds(items, a, b), k - 1);
    }
  }

  /** In a legal history the ids of a run are distinct. */
  lemma LegalRunIds(items: seq<Item>, a: nat, b: nat, i: nat, j: nat)
    requires Legal(Idle, items) && IsRun(items, a, b) && a <= i < j < b
    ensures items[i].callId != items[j].callId
  {
    InRunIff(items, a);
    InRunAt(items, a, j);
    LegalAt(items, j);
    assert items[j..][0] == items[j];
    RunIdsMember(items, a, j, items[i].callId);
  }

  /** What is pending in a block of a legal history gets its result there. */
  lemma {:induction false} LegalAnswer(items: seq<Item>, a: nat, b: nat, k: nat, id: string) returns (r: nat)
    requires Legal(Idle, items) && IsRun(items, a, b) && Reach(items, b, items[a].turnId, k)
    requires id in RunIds(items, a, b) && id !in Results(items, b, k)
    ensures r < |items| && Reach(items, b, items[a].turnId, r) && items[r].ToolResult? && items[r].callId == id
    decreases |items| - k
  {
    StateBehindRun(items, a, b);
    StateInBlock(items, b, items[a].turnId, RunIds(items, a, b), k);
    LegalAt(items, k);
    hide RunIds, StateAt, Saw;
    assert k < |items| && items[k..][0] == items[k];
    if items[k].ToolResult? && items[k].callId == id {
      r := k;
    } else {
      assert InBlock(items, b, items[a].turnId, k);
      BlockStep(items, b, k);
      r := LegalAnswer(items, a, b, k + 1, id);
    }
  }

  /** The results of a block of a legal history have distinct ids. */
  lemma LegalResults(items: seq<Item>, a: nat, b: nat, r: nat, r': nat)
    requires Legal(Idle, items) && IsRun(items, a, b) && b <= r < r' < |items|
    requires Reach(items, b, items[a].turnId, r') && items[r].ToolResult? && items[r'].ToolResult?
    ensures items[r].callId != items[r'].callId && items[r'].callId in RunIds(items, a, b)
  {
    StateBehindRun(items, a, b);
    StateInBlock(items, b, items[a].turnId, RunIds(items, a, b), r');
    LegalAt(items, r');
    assert items[r'..][0] == items[r'];
    ResultsMember(items, b, r', items[r].callId);
  }

  lemma AnswerOnce(items: seq<Item>, c: nat, r: nat, r': nat)
    requires Legal(Idle, items) && Answers(items, c, r) && Answers(items, c, r')
    ensures r == r'
  {
    var a: nat, b: nat :| AnswersIn(items, a, b, c, r);
    var a': nat, b': nat :| AnswersIn(items, a', b', c, r');
    OneRun(items, a, b, a', b', c);
    hide Legal, Reach, IsRun;
    if r < r' {
      LegalResults(items, a, b, r, r');
    } else if r' < r {
      LegalResults(items, a, b, r', r);
    }
  }

  lemma LegalIsPaired(items: seq<Item>)
    requires Legal(Idle, items)
    ensures Paired(items)
  {
    hide Legal, Reach, StateAt, RunIds, Results, Saw, Answers;
    forall a: nat, b: nat, i: nat, j: nat | IsRun(items, a, b) && a <= i < j < b
      ensures items[i].callId != items[j].callId
    {
      LegalRunIds(items, a, b, i, j);
    }
    forall c: nat | c < |items| && items[c].ToolCall? ensures exists r: nat :: Answers(items, c, r) {
      CallHasAnswer(items, c);
    }
    forall c: nat, r: nat, r': nat | Answers(items, c, r) && Answers(items, c, r') ensures r == r' {
      AnswerOnce(items, c, r, r');
    }
    forall r: nat | r < |items| && items[r].ToolResult? ensures exists c: nat :: Answers(items, c, r) {
      ResultHasCall(items, r);
    }
  }

  lemma CallHasAnswer(items: seq<Item>, c: nat)
    requires Legal(Idle, items) && c < |items| && items[c].ToolCall?
    ensures exists r: nat :: Answers(items, c, r)
  {
    var a := RunBefore(items, c + 1);
    var b := RunEnd(items, a, c + 1);
    RunIdsMember(items, a, b, items[c].callId);
    BlockStart(items, b);
    var r := LegalAnswer(items, a, b, b, items[c].callId);
    hide Legal, Reach, StateAt, RunIds, Results, Saw, IsRun;
    assert AnswersIn(items, a, b, c, r);
    assert Answers(items, c, r);
  }

  lemma ResultHasCall(items: seq<Item>, r: nat)
    requires Legal(Idle, items) && r < |items| && items[r].ToolResult?
    ensures exists c: nat :: Answers(items, c, r)
  {
    LegalAt(items, r);
    assert items[r..][0] == items[r];
    var a, b := BlockBefore(items, r);
    StateBehindRun(items, a, b);
    StateInBlock(items, b, items[a].turnId, RunIds(items, a, b), r);
    hide StateAt, Saw, RunIds;
    RunIdsMember(items, a, b, items[r].callId);
    var c :| a <= c < b && items[c].callId == items[r].callId;
    assert AnswersIn(items, a, b, c, r);
    assert Answers(items, c, r);
  }

  /** Where the block of a run ends, all its calls have been answered. */
  lemma AnsweredAtEnd(items: seq<Item>, a: nat, b: nat, k: nat)
    requires Paired(items) && IsRun(items, a, b) && Reach(items, b, items[a].turnId, k)
    requires k == |items| || !InBlock(items, b, items[a].turnId, k)
    ensures RunIds(items, a, b) <= Results(items, b, k)
  {
    assert b <= k <= |items|;
    hide Reach, Paired, RunIds, Results;
    forall id | id in RunIds(items, a, b) ensures id in Results(items, b, k) {
      RunIdsMember(items, a, b, id);
      var c :| a <= c < b && items[c].callId == id;
      AnsweredBefore(items, a, b, c, k);
    }
  }

  lemma AnsweredBefore(items: seq<Item>, a: nat, b: nat, c: nat, k: nat)
    requires Paired(items) && IsRun(items, a, b) && a <= c < b && Reach(items, b, items[a].turnId, k)
    requires k == |items| || !InBlock(items, b, items[a].turnId, k)
    ensures items[c].callId in Results(items, b, k)
  {
    assert b <= k <= |items|;
    hide Reach, Paired, Results;
    var r := AnswerOf(items, c);
    var a': nat, b': nat :| AnswersIn(items, a', b', c, r);
    OneRun(items, a, b, a', b', c);
    WithinReach(items, b, items[a].turnId, k, r);
    ResultsMember(items, b, k, items[c].callId);
  }

  lemma WithinReach(items: seq<Item>, start: nat, turn: string, k: nat, r: nat)
    requires Reach(items, start, turn, k) && Reach(items, start, turn, r) && r < |items| && items[r].ToolResult?
    requires k == |items| || !InBlock(items, start, turn, k)
    ensures start <= r < k
  {
  }

  /** In a paired history the pass admits every item. */
  lemma PairedAdmits(items: seq<Item>, k: nat)
    requires Paired(items) && k < |items|
    ensures Admits(StateAt(items, k), items[k])
  {
    hide Paired, Reach, StateAt, RunIds, Results, Saw;
    InRunIff(items, k);
    if items[k].ToolCall? && StateAt(items, k).InRun? {
      PairedAdmitsCall(items, k);
    } else if items[k].ToolResult? {
      PairedAdmitsResult(items, k);
    } else if Behind(StateAt(items, k)).Scanning? {
      var a, b := BlockBefore(items, k);
      StateBehindRun(items, a, b);
      StateInBlock(items, b, items[a].turnId, RunIds(items, a, b), k);
      if !InBlock(items, b, items[a].turnId, k) { AnsweredAtEnd(items, a, b, k); }
    }
  }

  lemma PairedAdmitsCall(items: seq<Item>, k: nat)
    requires Paired(items) && k < |items| && items[k].ToolCall? && StateAt(items, k).InRun?
    ensures items[k].callId !in StateAt(items, k).ids
  {
    hide Paired, StateAt, RunIds;
    InRunIff(items, k);
    var a := RunBefore(items, k);
    var b := RunEnd(items, a, k + 1);
    InRunIff(items, a);
    InRunAt(items, a, k);
    RunIdsMember(items, a, k, items[k].callId);
    if items[k].callId in RunIds(items, a, k) {
      var i :| a <= i < k && items[i].callId == items[k].callId;
      PairedRunIds(items, a, b, i, k);
    }
  }

  lemma PairedAdmitsResult(items: seq<Item>, k: nat)
    requires Paired(items) && k < |items| && items[k].ToolResult?
    ensures Behind(StateAt(items, k)).Scanning? && items[k].callId in Behind(StateAt(items, k)).pending
  {
    hide Paired, StateAt, RunIds, Results, Saw;
    var c := CallOf(items, k);
    var a: nat, b: nat :| AnswersIn(items, a, b, c, k);
    StateBehindRun(items, a, b);
    StateInBlock(items, b, items[a].turnId, RunIds(items, a, b), k);
    RunIdsMember(items, a, b, items[k].callId);
    ResultsMember(items, b, k, items[k].callId);
    if items[k].callId in Results(items, b, k) {
      var r: nat :| b <= r < k && items[r].ToolResult? && items[r].callId == items[k].callId;
      assert AnswersIn(items, a, b, c, r);
      OneAnswer(items, c, r, k);
    }
  }

  lemma StateNext(items: seq<Item>, k: nat)
    requires k < |items|
    ensures StateAt(items, k + 1) == Step(StateAt(items, k), items[k])
  {
  }

  lemma {:induction false} AdmittedIsLegal(items: seq<Item>, k: nat)
    requires k <= |items| && Settled(StateAt(items, |items|))
    requires forall i :: 0 <= i < |items| ==> Admits(StateAt(items, i), items[i])
    ensures Legal(StateAt(items, k), items[k..])
    decreases |items| - k
  {
    hide StateAt, Admits;
    if k == |items| {
      assert items[k..] == [];
    } else {
      StateNext(items, k);
      AdmittedIsLegal(items, k + 1);
      assert items[k..][0] == items[k] && items[k..][1..] == items[k + 1..];
    }
  }

  /** A history is legal exactly when its calls and results are paired. */
  lemma LegalIffPaired(items: seq<Item>)
    ensures Legal(Idle, items) <==> Paired(items)
  {
    hide Legal, Paired, Admits, Settled;
    if Legal(Idle, items) { LegalIsPaired(items); }
    if Paired(items) {
      forall i | 0 <= i < |items| ensures Admits(StateAt(items, i), items[i]) { PairedAdmits(items, i); }
      PairedSettles(items);
      AdmittedIsLegal(items, 0);
      assert items[0..] == items;
    }
  }

  lemma PairedSettles(items: seq<Item>)
    requires Paired(items)
    ensures Settled(StateAt(items, |items|))
  {
    hide Paired, Reach, StateAt, RunIds, Results, Saw;
    if Behind(StateAt(items, |items|)).Scanning? {
      var a, b := BlockBefore(items, |items|);
      StateBehindRun(items, a, b);
      StateInBlock(items, b, items[a].turnId, RunIds(items, a, b), |items|);
      AnsweredAtEnd(items, a, b, |items|);
    }
  }

  /** A result answers one call only. */
  lemma OneCallPerResult(items: seq<Item>, c: nat, c': nat, r: nat)
    requires Paired(items) && Answers(items, c, r) && Answers(items, c', r)
    ensures c == c'
  {
    var a: nat, b: nat :| AnswersIn(items, a, b, c, r);
    var a': nat, b': nat :| AnswersIn(items, a', b', c', r);
    OneBlock(items, a, b, a', b', r);
    assert IsRun(items, a, b) && a <= c < b && a <= c' < b;
  }

  lemma AfterRunAt(items: seq<Item>, k: nat, cursor: nat)
    requires k <= cursor && CallsOnly(items, k, cursor)
    requires cursor == |items| || !items[cursor].ToolCall?
    ensures AfterRun(items[k..]) == items[cursor..]
    decreases cursor - k
  {
    if k < cursor {
      assert items[k..][1..] == items[k + 1..];
      AfterRunAt(items, k + 1, cursor);
    }
  }

  /** Within a run, a call survives when it is the first of its id and the block
      behind the run has a result for it. */
  lemma CallKept(items: seq<Item>, index: nat, k: nat, cursor: nat)
    requires index <= k < cursor && CallsOnly(items, index, cursor) && !StateAt(items, index).InRun?
    requires cursor == |items| || !items[cursor].ToolCall?
    ensures KeepAt(items, k)
            <==> && items[k].callId !in RunIds(items, index, k)
                 && items[k].callId in Found(items[cursor..], items[index].turnId, false)
  {
    AfterRunAt(items, k, cursor);
    if index < k { InRunAt(items, index, k); }
  }

  lemma {:induction false} RepairedIsFilter(items: seq<Item>, k: nat)
    requires k <= |items|
    ensures Fix(StateAt(items, k), items[k..]) == Filter(items, k)
    decreases |items| - k
  {
    if k < |items| {
      assert items[k..][0] == items[k] && items[k..][1..] == items[k + 1..];
      RepairedIsFilter(items, k + 1);
    }
  }

  function Filter(items: seq<Item>, k: nat): seq<Item>
    requires k <= |items|
    decreases |items| - k
  {
    if k == |items| then []
    else (if KeepAt(items, k) then [items[k]] else []) + Filter(items, k + 1)
  }

  // ----- What survives, position by position -----

  /** A call survives when it is the first of its id in its run and its block has a result
      for it; a result when it is the first of its id in the block of a run with such a call. */
  ghost predicate Survives(items: seq<Item>, k: nat)
    requires k < |items|
  {
    match items[k]
    case ToolCall(_, id, _, _) =>
      exists a: nat, b: nat, r: nat :: AnswersIn(items, a, b, k, r) && forall j :: a <= j < k ==> items[j].callId != id
    case ToolResult(_, id, _) =>
      exists a: nat, b: nat, c: nat ::
        AnswersIn(items, a, b, c, k) && forall j :: b <= j < k && items[j].ToolResult? ==> items[j].callId != id
    case _ => true
  }

  lemma {:induction false} FoundReach(items: seq<Item>, start: nat, turn: string, k: nat, id: string)
    requires Reach(items, start, turn, k)
    ensures id in Found(items[k..], turn, Saw(items, start, k)) <==>
            exists r ::
              k <= r < |items| && Reach(items, start, turn, r) && items[r].ToolResult? && items[r].callId == id
    decreases |items| - k
  {
    FoundStep(items[k..], turn, Saw(items, start, k));
    if k < |items| {
      assert items[k..][0] == items[k] && items[k..][1..] == items[k + 1..];
      BlockStep(items, start, k);
      if InBlock(items, start, turn, k) {
        FoundReach(items, start, turn, k + 1, id);
      }
    }
  }

  lemma CallSurvives(items: seq<Item>, k: nat)
    requires k < |items| && items[k].ToolCall?
    ensures KeepAt(items, k) <==> Survives(items, k)
  {
    var a := RunBefore(items, k + 1);
    var b := RunEnd(items, a, k + 1);
    var turn, id := items[a].turnId, items[k].callId;
    InRunIff(items, a);
    CallKept(items, a, k, b);
    RunIdsMember(items, a, k, id);
    BlockStart(items, b);
    FoundReach(items, b, turn, b, id);
    hide KeepAt, Found, Reach, RunIds;
    if Survives(items, k) {
      var a': nat, b': nat, r: nat :|
        AnswersIn(items, a', b', k, r) && forall j :: a' <= j < k ==> items[j].callId != id;
      OneRun(items, a, b, a', b', k);
    }
    if KeepAt(items, k) {
      var r :| b <= r < |items| && Reach(items, b, turn, r) && items[r].ToolResult? && items[r].callId == id;
      assert AnswersIn(items, a, b, k, r);
    }
  }

  lemma ResultSurvives(items: seq<Item>, k: nat)
    requires k < |items| && items[k].ToolResult?
    ensures KeepAt(items, k) <==> Survives(items, k)
  {
    var id := items[k].callId;
    assert items[k..][0] == items[k];
    if KeepAt(items, k) {
      var a, b := BlockBefore(items, k);
      StateBehindRun(items, a, b);
      StateInBlock(items, b, items[a].turnId, RunIds(items, a, b), k);
      hide StateAt, Saw, RunIds, Results;
      RunIdsMember(items, a, b, id);
      ResultsMember(items, b, k, id);
      var c :| a <= c < b && items[c].callId == id;
      assert AnswersIn(items, a, b, c, k);
    }
    if Survives(items, k) {
      var a: nat, b: nat, c: nat :|
        AnswersIn(items, a, b, c, k) && forall j :: b <= j < k && items[j].ToolResult? ==> items[j].callId != id;
      StateBehindRun(items, a, b);
      StateInBlock(items, b, items[a].turnId, RunIds(items, a, b), k);
      hide StateAt, Saw, RunIds, Results;
      RunIdsMember(items, a, b, id);
      ResultsMember(items, b, k, id);
    }
  }

  function Kept(items: seq<Item>, keep: nat -> bool, k: nat): seq<Item>
    requires k <= |items|
    decreases |items| - k
  {
    if k == |items| then []
    else (if keep(k) then [items[k]] else []) + Kept(items, keep, k + 1)
  }

  /** Repair keeps exactly the items that survive, in their order. */
  lemma {:induction false} RepairedAreSurvivors(items: seq<Item>, keep: nat -> bool, k: nat)
    requires k <= |items| && forall i: nat :: i < |items| ==> (keep(i) <==> Survives(items, i))
    ensures Fix(StateAt(items, k), items[k..]) == Kept(items, keep, k)
    ensures k == 0 ==> Repaired(items) == Kept(items, keep, 0)
    decreases |items| - k
  {
    hide Survives;
    assert items[0..] == items;
    if k < |items| {
      assert items[k..][0] == items[k] && items[k..][1..] == items[k + 1..];
      RepairedAreSurvivors(items, keep, k + 1);
      if items[k].ToolCall? {
        CallSurvives(items, k);
      } else if items[k].ToolResult? {
        ResultSurvives(items, k);
      } else {
        OthersSurvive(items, k);
      }
    }
  }

  lemma OthersSurvive(items: seq<Item>, k: nat)
    requires k < |items| && !items[k].ToolCall? && !items[k].ToolResult?
    ensures KeepAt(items, k) && Survives(items, k)
  {
  }

  /** `calls` lists the positions of the first call of each id of a run. */
  ghost predicate Firsts(items: seq<Item>, index: nat, cursor: nat, calls: seq<nat>)
    requires CallsOnly(items, index, cursor)
  {
    forall k {:trigger k in calls} :: k in calls <==> index <= k < cursor && items[k].callId !in RunIds(items, index, k)
  }

  lemma FirstsStart(items: seq<Item>, index: nat)
    requires index <= |items|
    ensures Firsts(items, index, index, [])
  {
  }

  lemma FirstsStep(items: seq<Item>, index: nat, cursor: nat, calls: seq<nat>)
    requires cursor < |items| && items[cursor].ToolCall?
    requires CallsOnly(items, index, cursor) && Firsts(items, index, cursor, calls)
    ensures Firsts(items, index, cursor + 1,
                   if items[cursor].callId in RunIds(items, index, cursor) then calls else calls + [cursor])
  {
    hide RunIds;
    forall k ensures
      k in (if items[cursor].callId in RunIds(items, index, cursor) then calls else calls + [cursor])
      <==> index <= k < cursor + 1 && items[k].callId !in RunIds(items, index, k)
    {
      assert k in calls <==> index <= k < cursor && items[k].callId !in RunIds(items, index, k);
    }
  }

  lemma FirstsNonEmpty(items: seq<Item>, index: nat, cursor: nat, calls: seq<nat>)
    requires index < cursor && CallsOnly(items, index, cursor) && Firsts(items, index, cursor, calls)
    ensures index in calls
  {
    assert RunIds(items, index, index) == {};
  }

  /** The inner loop over one run: the positions of the first call of each id. */
  method CollectRun(items: seq<Item>, index: nat)
    returns (calls: seq<nat>, seenCallIds: set<string>, cursor: nat)
    requires index < |items| && items[index].ToolCall?
    ensures index < cursor && CallsOnly(items, index, cursor)
    ensures cursor == |items| || !items[cursor].ToolCall?
    ensures seenCallIds == RunIds(items, index, cursor)
    ensures Firsts(items, index, cursor, calls)
  {
    hide Firsts;
    FirstsStart(items, index);
    calls, seenCallIds, cursor := [], {}, index;
    while cursor < |items| && items[cursor].ToolCall?
      invariant index <= cursor && CallsOnly(items, index, cursor)
      invariant seenCallIds == RunIds(items, index, cursor)
      invariant Firsts(items, index, cursor, calls)
    {
      var call := items[cursor];
      FirstsStep(items, index, cursor, calls);
      if call.callId !in seenCallIds {
        seenCallIds := seenCallIds + {call.callId};
        calls := calls + [cursor];
      }
      cursor := cursor + 1;
    }
  }

  /** The outer loop: which calls and which results survive. */
  method KeptIndexes(items: seq<Item>) returns (keptCallIndexes: set<nat>, keptResultIndexes: set<nat>)
    ensures forall k :: k in keptCallIndexes <==> 0 <= k < |items| && items[k].ToolCall? && KeepAt(items, k)
    ensures forall r :: r in keptResultIndexes <==> 0 <= r < |items| && items[r].ToolResult? && KeepAt(items, r)
  {
    hide Keep, KeepAt, AfterRun, Found, StateAt, RunIds, Reach, InBlock, FirstResult;
    keptCallIndexes, keptResultIndexes := {}, {};
    var index := 0;
    ghost var h := 0;
    InRunIff(items, 0);
    while index < |items|
      invariant 0 <= index <= h && Horizon(items, h)
      invariant forall k :: index <= k < h ==> !items[k].ToolCall?
      invariant index < |items| && items[index].ToolCall? ==> index == 0 || !items[index - 1].ToolCall?
      invariant forall k :: k in keptCallIndexes <==> 0 <= k < index && items[k].ToolCall? && KeepAt(items, k)
      invariant forall r :: r in keptResultIndexes <==> 0 <= r < h && items[r].ToolResult? && KeepAt(items, r)
    {
      InRunIff(items, index);
      if !items[index].ToolCall? {
        if h == index {
          IdleDropsResult(items, index);
          h := index + 1;
        }
        index := index + 1;
      } else {
        var calls, seenCallIds, cursor := CollectRun(items, index);
        InRunAt(items, index, cursor);
        FirstsNonEmpty(items, index, cursor, calls);
        var ids, indexes, end := FindResultBlock(items, cursor, items[index].turnId, seenCallIds);
        ghost var h' := if end < |items| && !items[end].ToolCall? then end + 1 else end;
        BlockEnds(items, cursor, items[index].turnId, seenCallIds, end);
        forall r | cursor <= r < |items|
          ensures r in indexes <==> r < end && items[r].ToolResult? && KeepAt(items, r)
        {
          BlockKeeps(items, cursor, items[index].turnId, seenCallIds, end, r);
        }
        NoCallsInBlock(items, cursor, items[index].turnId, end);
        ghost var before := keptCallIndexes;
        if |calls| > 0 && ids != {} {
          for c := 0 to |calls|
            invariant forall k :: k in keptCallIndexes <==>
                                    || k in before
                                    || (k in calls[..c] && k < |items| && items[k].ToolCall? && items[k].callId in ids)
          {
            assert calls[c] in calls && calls[..c + 1] == calls[..c] + [calls[c]];
            if items[calls[c]].callId in ids {
              keptCallIndexes := keptCallIndexes + {calls[c]};
            }
          }
          assert calls[..|calls|] == calls;
          keptResultIndexes := keptResultIndexes + indexes;
        }
        forall k | index <= k < cursor
          ensures KeepAt(items, k) <==> k in calls && items[k].callId in ids
        {
          CallKept(items, index, k, cursor);
          RunIdsMember(items, index, cursor, items[k].callId);
        }
        index, h := cursor, h';
      }
    }
  }

  method RepairModelHistoryItems(items: seq<Item>) returns (result: seq<Item>)
    ensures result == Repaired(items)
  {
    hide Keep, KeepAt, Fix, Filter, Repaired, StateAt;
    var keptCallIndexes, keptResultIndexes := KeptIndexes(items);
    var changed := false;
    result := [];
    assert [] + Filter(items, 0) == Filter(items, 0);
    for i := 0 to |items|
      invariant result + Filter(items, i) == Filter(items, 0)
      invariant !changed ==> result == items[..i]
    {
      var keep := if items[i].ToolCall? then i in keptCallIndexes
                  else if items[i].ToolResult? then i in keptResultIndexes
                  else true;
      if !IsTool(items[i]) { RestIsKept(items, i); }
      FilterStep(items, i, result);
      if keep {
        result := result + [items[i]];
      } else {
        changed := true;
      }
    }
    FilterEnds(items);
    assert items[..|items|] == items && result + [] == result;
    if !changed {
      result := items;
    }
  }

  lemma FilterStep(items: seq<Item>, i: nat, front: seq<Item>)
    requires i < |items|
    ensures front + Filter(items, i) ==
      (if KeepAt(items, i) then front + [items[i]] else front) + Filter(items, i + 1)
  {
    hide KeepAt;
    Joined(front, [items[i]], Filter(items, i + 1));
    Joined(front, [], Filter(items, i + 1));
  }

  lemma Joined(a: seq<Item>, b: seq<Item>, c: seq<Item>)
    ensures a + (b + c) == (a + b) + c && a + [] == a && [] + c == c
  {
  }

  lemma FilterEnds(items: seq<Item>)
    ensures Filter(items, |items|) == [] && Filter(items, 0) == Repaired(items)
  {
    hide Keep, KeepAt, Fix;
    RepairedIsFilter(items, 0);
    assert items[0..] == items;
  }

  lemma InRunIff(items: seq<Item>, k: nat)
    requires k <= |items|
    ensures StateAt(items, k).InRun? <==> k > 0 && items[k - 1].ToolCall?
    ensures k == 0 ==> StateAt(items, k).Idle?
  {
  }

  lemma NoCallsInBlock(items: seq<Item>, start: nat, turn: string, end: nat)
    requires Reach(items, start, turn, end)
    ensures start <= end <= |items|
    ensures forall k :: start <= k < end ==> !items[k].ToolCall?
    ensures end < |items| && !InBlock(items, start, turn, end) ==> !items[end].ToolResult?
  {
    forall k | start <= k < end ensures !items[k].ToolCall? { assert InBlock(items, start, turn, k); }
  }

  lemma RestIsKept(items: seq<Item>, k: nat)
    requires k < |items| && !IsTool(items[k])
    ensures KeepAt(items, k)
  {
  }

  lemma IdleDropsResult(items: seq<Item>, index: nat)
    requires index < |items| && !items[index].ToolCall? && StateAt(items, index).Idle?
    ensures items[index].ToolResult? ==> !KeepAt(items, index)
    ensures StateAt(items, index + 1).Idle?
  {
  }
}
