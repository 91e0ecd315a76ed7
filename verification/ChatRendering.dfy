/** Rendering of a repaired history into chat messages. */
module ChatRendering {

  import opened Wrappers
  import opened TurnItems
  import HR = HistoryRepair

  // ----- Messages -----

  datatype Wire = Wire(id: string, name: string, arguments: string)

  /** `texts` are the parts of an assistant message's content, which the client
      joins with newlines; `reasoning` is absent outside thinking mode. */
  datatype ChatMessage =
    | System(content: string)
    | User(content: string)
    | Assistant(texts: seq<string>, reasoning: Option<string>, signature: string, calls: seq<Wire>)
    | Tool(callId: string, content: string)

  function JoinLines(parts: seq<string>): string {
    if parts == [] then ""
    else if |parts| == 1 then parts[0]
    else parts[0] + "\n" + JoinLines(parts[1..])
  }

  function OrSpace(text: string): string {
    if Blank(text) then " " else text
  }

  // ----- The look-ahead and the look-behind around a run of calls -----

  predicate IsPreCallBridge(item: Item, turn: string) {
    item.turnId == turn &&
    (item.AssistantReasoning? || item.AssistantText? || item.Approval? || item.UserInput? || item.ErrorItem?)
  }

  /** From `c` on, bridge items lead to a run of calls of the given turn. */
  predicate ReachesCall(items: seq<Item>, c: nat, turn: string)
    requires c <= |items|
    decreases |items| - c
  {
    c < |items| &&
    if IsPreCallBridge(items[c], turn) then ReachesCall(items, c + 1, turn)
    else items[c].ToolCall? && items[c].turnId == turn
  }

  /** The item is left out here because a later run of calls will collect it. */
  predicate IsBridgeBeforeCall(items: seq<Item>, i: nat)
    requires i < |items|
  {
    (items[i].AssistantReasoning? || items[i].AssistantText?) && ReachesCall(items, i + 1, items[i].turnId)
  }

  /** Where the bridge items directly before `start` begin. */
  function BridgeStart(items: seq<Item>, start: nat, turn: string): (b: nat)
    requires start <= |items|
    ensures b <= start
  {
    if start > 0 && IsPreCallBridge(items[start - 1], turn) then BridgeStart(items, start - 1, turn) else start
  }

  function TextOf(x: Item): seq<string> {
    if x.AssistantText? && !Blank(x.text) then [x.text] else []
  }

  function NonBlankTexts(s: seq<Item>): seq<string> {
    if s == [] then [] else TextOf(s[0]) + NonBlankTexts(s[1..])
  }

  function NonBlankReasonings(s: seq<Item>): seq<string> {
    if s == [] then []
    else (if s[0].AssistantReasoning? && !Blank(s[0].text) then [s[0].text] else []) + NonBlankReasonings(s[1..])
  }

  /** The first signature among the bridge items. */
  function Signature(s: seq<Item>, turn: string): string {
    if s == [] then ""
    else if s[0].AssistantReasoning? && s[0].turnId == turn && s[0].signature != "" then s[0].signature
    else Signature(s[1..], turn)
  }

  // ----- One block: a run of calls and its results -----

  function RunCalls(s: seq<Item>): (calls: seq<Item>)
    ensures |calls| <= |s| && forall c | c in calls :: c.ToolCall?
  {
    if s != [] && s[0].ToolCall? then [s[0]] + RunCalls(s[1..]) else []
  }

  function CallIds(calls: seq<Item>): set<string>
    requires forall c | c in calls :: c.ToolCall?
  {
    if calls == [] then {} else {calls[0].callId} + CallIds(calls[1..])
  }

  function ResultIds(results: seq<Item>): set<string>
    requires forall r | r in results :: r.ToolResult?
  {
    if results == [] then {} else {results[0].callId} + ResultIds(results[1..])
  }

  /** What the scan behind a run collects, and how many items it consumes. */
  datatype Tail = Tail(texts: seq<string>, reasonings: seq<string>, results: seq<Item>, used: nat)

  function ScanTail(s: seq<Item>, turn: string, expected: set<string>, seen: set<string>, saw: bool): (r: Tail)
    ensures r.used <= |s| && forall x | x in r.results :: x.ToolResult?
    decreases |s|
  {
    if s == [] then Tail([], [], [], 0)
    else if s[0].ToolResult? then
      var isNew := s[0].callId in expected && s[0].callId !in seen;
      var r := ScanTail(s[1..], turn, expected, if isNew then seen + {s[0].callId} else seen, true);
      r.(results := (if isNew then [s[0]] else []) + r.results, used := r.used + 1)
    else if IsToolResultBridge(s[0], turn, saw) then
      var r := ScanTail(s[1..], turn, expected, seen, saw);
      if saw then r.(used := r.used + 1)
      else
        r.(texts := NonBlankTexts([s[0]]) + r.texts, reasonings := NonBlankReasonings([s[0]]) + r.reasonings,
           used := r.used + 1)
    else Tail([], [], [], 0)
  }

  function ToWire(call: Item): Wire
    requires call.ToolCall?
  {
    Wire(call.callId, call.toolName, call.arguments)
  }

  function ToWires(calls: seq<Item>): seq<Wire>
    requires forall c | c in calls :: c.ToolCall?
  {
    if calls == [] then [] else [ToWire(calls[0])] + ToWires(calls[1..])
  }

  function ToTools(results: seq<Item>): seq<ChatMessage>
    requires forall r | r in results :: r.ToolResult?
  {
    if results == [] then [] else [Tool(results[0].callId, results[0].output)] + ToTools(results[1..])
  }

  datatype Block = Block(messages: seq<ChatMessage>, next: nat)

  function BlockAt(items: seq<Item>, start: nat, thinking: bool): (r: Option<Block>)
    requires start < |items| && items[start].ToolCall?
    ensures r.Some? ==> start < r.value.next <= |items|
  {
    var s := items[start..];
    var turn := items[start].turnId;
    var calls := RunCalls(s);
    var tail := ScanTail(s[|calls|..], turn, CallIds(calls), {}, false);
    if !(CallIds(calls) <= ResultIds(tail.results)) then None
    else
      var bridge := items[BridgeStart(items, start, turn)..start];
      var texts := NonBlankTexts(bridge) + tail.texts;
      var reasonings := NonBlankReasonings(bridge) + tail.reasonings;
      Some(Block([Assistant(texts,
                            if thinking then Some(OrSpace(JoinLines(reasonings))) else None,
                            if thinking then Signature(bridge, turn) else "",
                            ToWires(calls))] + ToTools(tail.results),
                 start + |calls| + tail.used))
  }

  // ----- All messages -----

  function ItemToMessage(item: Item, thinking: bool): seq<ChatMessage> {
    match item
    case UserMessage(_, text) => [User(text)]
    case AssistantText(_, text) => [Assistant([text], if thinking then Some(" ") else None, "", [])]
    case Compaction(_, summary, replaced) =>
      if replaced > 0 then [System("Conversation summary from earlier turns:\n" + summary)] else []
    case Review(_, completed, text) =>
      if completed && !Blank(text) then [System("Code review result from an earlier turn:\n" + text)] else []
    case _ => []
  }

  function Render(items: seq<Item>, i: nat, thinking: bool): seq<ChatMessage>
    requires i <= |items|
    decreases |items| - i
  {
    if i == |items| then []
    else if IsBridgeBeforeCall(items, i) then Render(items, i + 1, thinking)
    else if thinking && items[i].AssistantReasoning? then
      if i + 1 < |items| && items[i + 1].AssistantText? && items[i + 1].turnId == items[i].turnId then
        [Assistant([items[i + 1].text], Some(OrSpace(items[i].text)), items[i].signature, [])]
        + Render(items, i + 2, thinking)
      else Render(items, i + 1, thinking)
    else if items[i].ToolCall? then
      match BlockAt(items, i, thinking)
      case Some(b) => b.messages + Render(items, b.next, thinking)
      case None => Render(items, i + 1, thinking)
    else if items[i].ToolResult? then Render(items, i + 1, thinking)
    else ItemToMessage(items[i], thinking) + Render(items, i + 1, thinking)
  }

  // ----- Well-paired messages, and healing -----

  predicate IsCallMessage(m: ChatMessage) {
    m.Assistant? && m.calls != []
  }

  function WireIds(calls: seq<Wire>): set<string> {
    if calls == [] then {} else {calls[0].id} + WireIds(calls[1..])
  }

  function ToolIds(tools: seq<ChatMessage>): set<string>
    requires forall t | t in tools :: t.Tool?
  {
    if tools == [] then {} else {tools[0].callId} + ToolIds(tools[1..])
  }

  /** The tool messages at the front. */
  function LeadingTools(ms: seq<ChatMessage>): (tools: seq<ChatMessage>)
    ensures |tools| <= |ms| && forall t | t in tools :: t.Tool?
  {
    if ms != [] && ms[0].Tool? then [ms[0]] + LeadingTools(ms[1..]) else []
  }

  function Expected(tools: seq<ChatMessage>, ids: set<string>): (r: seq<ChatMessage>)
    requires forall t | t in tools :: t.Tool?
    ensures forall t | t in r :: t.Tool?
  {
    if tools == [] then []
    else (if tools[0].callId in ids then [tools[0]] else []) + Expected(tools[1..], ids)
  }

  function Heal(ms: seq<ChatMessage>): seq<ChatMessage>
    decreases |ms|
  {
    if ms == [] then []
    else if ms[0].Tool? then Heal(ms[1..])
    else if IsCallMessage(ms[0]) then
      var tools := LeadingTools(ms[1..]);
      var ids := WireIds(ms[0].calls);
      var results := Expected(tools, ids);
      (if ids <= ToolIds(results) then [ms[0]] + results else []) + Heal(ms[1 + |tools|..])
    else [ms[0]] + Heal(ms[1..])
  }

  /** Every call message is followed by exactly one tool message per call id, and
      no tool message stands anywhere else. */
  predicate WellPaired(ms: seq<ChatMessage>)
    decreases |ms|
  {
    if ms == [] then true
    else if ms[0].Tool? then false
    else if IsCallMessage(ms[0]) then
      var tools := LeadingTools(ms[1..]);
      && |tools| == |ms[0].calls| == |WireIds(ms[0].calls)|
      && ToolIds(tools) == WireIds(ms[0].calls)
      && WellPaired(ms[1 + |tools|..])
    else WellPaired(ms[1..])
  }

  /** What healing guarantees for any messages: as above, but a call id may be
      answered more than once. */
  predicate Healthy(ms: seq<ChatMessage>)
    decreases |ms|
  {
    if ms == [] then true
    else if ms[0].Tool? then false
    else if IsCallMessage(ms[0]) then
      var tools := LeadingTools(ms[1..]);
      ToolIds(tools) == WireIds(ms[0].calls) && Healthy(ms[1 + |tools|..])
    else Healthy(ms[1..])
  }

  lemma LeadingToolsAppend(tools: seq<ChatMessage>, rest: seq<ChatMessage>)
    requires forall t | t in tools :: t.Tool?
    requires rest == [] || !rest[0].Tool?
    ensures LeadingTools(tools + rest) == tools
  {
    if tools == [] {
      assert tools + rest == rest;
    } else {
      assert (tools + rest)[1..] == tools[1..] + rest;
      LeadingToolsAppend(tools[1..], rest);
    }
  }

  lemma LeadingToolsPrefix(ms: seq<ChatMessage>)
    ensures ms == LeadingTools(ms) + ms[|LeadingTools(ms)|..]
    ensures var rest := ms[|LeadingTools(ms)|..]; rest == [] || !rest[0].Tool?
  {
    if ms != [] && ms[0].Tool? {
      LeadingToolsPrefix(ms[1..]);
      var n := |LeadingTools(ms[1..])|;
      assert ms[1..][n..] == ms[n + 1..];
    }
  }

  lemma ExpectedAll(tools: seq<ChatMessage>, ids: set<string>)
    requires forall t | t in tools :: t.Tool?
    ensures ToolIds(Expected(tools, ids)) == ToolIds(tools) * ids
    ensures |Expected(tools, ids)| <= |tools|
    ensures Expected(tools, ids) == tools <==> ToolIds(tools) <= ids
  {
    if tools != [] {
      var rest := Expected(tools[1..], ids);
      ExpectedAll(tools[1..], ids);
      if tools[0].callId in ids {
        assert Expected(tools, ids) == [tools[0]] + rest;
        assert ([tools[0]] + rest)[1..] == rest;
      } else {
        assert Expected(tools, ids) == rest;
      }
    }
  }

  lemma HealthyBlock(m: ChatMessage, tools: seq<ChatMessage>, rest: seq<ChatMessage>)
    requires IsCallMessage(m) && (forall t | t in tools :: t.Tool?) && ToolIds(tools) == WireIds(m.calls)
    requires Healthy(rest) && (rest == [] || !rest[0].Tool?)
    ensures Healthy([m] + tools + rest)
  {
    hide ToolIds, WireIds, LeadingTools;
    var ms := [m] + tools + rest;
    LeadingToolsAppend(tools, rest);
    assert ms[1..] == tools + rest && ms[1 + |tools|..] == rest;
  }

  /** Healing makes any message list healthy. */
  lemma {:induction false} HealIsHealthy(ms: seq<ChatMessage>)
    ensures Healthy(Heal(ms))
    decreases |ms|
  {
    hide ToolIds, WireIds, LeadingTools, Expected;
    if ms != [] {
      if ms[0].Tool? {
        HealIsHealthy(ms[1..]);
      } else if IsCallMessage(ms[0]) {
        var tools, ids := LeadingTools(ms[1..]), WireIds(ms[0].calls);
        var results, rest := Expected(tools, ids), ms[1 + |tools|..];
        HealIsHealthy(rest);
        ExpectedAll(tools, ids);
        if ids <= ToolIds(results) {
          HealthyBlock(ms[0], results, Heal(rest));
        } else {
          assert [] + Heal(rest) == Heal(rest);
        }
      } else {
        HealIsHealthy(ms[1..]);
        assert ([ms[0]] + Heal(ms[1..]))[1..] == Heal(ms[1..]);
      }
    }
  }

  lemma HealNeverGrows(ms: seq<ChatMessage>)
    ensures |Heal(ms)| <= |ms|
    decreases |ms|
  {
    if ms != [] && IsCallMessage(ms[0]) {
      var tools := LeadingTools(ms[1..]);
      ExpectedAll(tools, WireIds(ms[0].calls));
      HealNeverGrows(ms[1 + |tools|..]);
    }
  }

  /** Healing leaves a message list alone exactly when it is healthy. */
  lemma {:induction false} UnchangedIffHealthy(ms: seq<ChatMessage>)
    ensures Heal(ms) == ms <==> Healthy(ms)
    decreases |ms|
  {
    if ms == [] {
    } else if ms[0].Tool? {
      HealNeverGrows(ms[1..]);
    } else if IsCallMessage(ms[0]) {
      var tools, ids := LeadingTools(ms[1..]), WireIds(ms[0].calls);
      var results, rest := Expected(tools, ids), ms[1 + |tools|..];
      LeadingToolsPrefix(ms[1..]);
      assert ms[1..][|tools|..] == rest;
      assert ms == [ms[0]] + tools + rest;
      ExpectedAll(tools, ids);
      UnchangedIffHealthy(rest);
      HealNeverGrows(rest);
      var kept := if ids <= ToolIds(results) then [ms[0]] + results else [];
      if Heal(ms) == ms {
        assert |kept| == 1 + |tools| && |Heal(rest)| == |rest|;
        assert kept == ms[..1 + |tools|] && Heal(rest) == rest;
        assert results == ([ms[0]] + results)[1..] == ms[..1 + |tools|][1..] == tools;
      }
    } else {
      UnchangedIffHealthy(ms[1..]);
      assert ms == [ms[0]] + ms[1..];
      assert ([ms[0]] + Heal(ms[1..]))[1..] == Heal(ms[1..]);
    }
  }

  // ----- What healing keeps, part by part -----

  /** Tool messages that answer no call message are dropped. */
  lemma {:induction false} StrayToolsHealed(tools: seq<ChatMessage>, rest: seq<ChatMessage>)
    requires forall t | t in tools :: t.Tool?
    ensures Heal(tools + rest) == Heal(rest)
  {
    if tools == [] {
      assert tools + rest == rest;
    } else {
      assert (tools + rest)[0] == tools[0] && (tools + rest)[1..] == tools[1..] + rest && tools[0] in tools;
      StrayToolsHealed(tools[1..], rest);
    }
  }

  /** Every message that neither calls nor answers is kept. */
  lemma OtherMessagesHealed(m: ChatMessage, rest: seq<ChatMessage>)
    requires !m.Tool? && (m.Assistant? ==> m.calls == [])
    ensures Heal([m] + rest) == [m] + Heal(rest)
  {
    assert ([m] + rest)[1..] == rest;
  }

  predicate Answering(t: ChatMessage, calls: seq<Wire>)
    requires t.Tool?
  {
    exists w :: w in calls && w.id == t.callId
  }

  /** The tool messages that answer one of the calls, in order. */
  function AnswersTo(tools: seq<ChatMessage>, calls: seq<Wire>): seq<ChatMessage>
    requires forall t | t in tools :: t.Tool?
  {
    if tools == [] then []
    else (if Answering(tools[0], calls) then [tools[0]] else []) + AnswersTo(tools[1..], calls)
  }

  /** A call message is kept, with all tool messages behind it that answer it, exactly when
      each of its calls is answered; otherwise it goes with all of them. */
  lemma CallBlockHealed(m: ChatMessage, tools: seq<ChatMessage>, rest: seq<ChatMessage>)
    requires m.Assistant? && m.calls != [] && (forall t | t in tools :: t.Tool?) && (rest == [] || !rest[0].Tool?)
    ensures Heal([m] + tools + rest) ==
      (if forall w | w in m.calls :: exists t :: t in tools && t.callId == w.id
       then [m] + AnswersTo(tools, m.calls) else []) + Heal(rest)
  {
    var ms := [m] + tools + rest;
    assert ms[0] == m && ms[1..] == tools + rest && ms[1 + |tools|..] == rest;
    LeadingToolsAppend(tools, rest);
    AnswersAreExpected(tools, m.calls);
    AnsweredIff(tools, m.calls);
    hide LeadingTools, Expected, WireIds, ToolIds, AnswersTo, Answering;
  }

  lemma {:induction false} WireIdsAre(calls: seq<Wire>)
    ensures forall id :: id in WireIds(calls) <==> exists w :: w in calls && w.id == id
  {
    if calls != [] {
      WireIdsAre(calls[1..]);
      assert forall w :: w in calls <==> w == calls[0] || w in calls[1..];
      assert calls[0] in calls;
    }
  }

  lemma {:induction false} ToolIdsAre(tools: seq<ChatMessage>)
    requires forall t | t in tools :: t.Tool?
    ensures forall id :: id in ToolIds(tools) <==> exists t :: t in tools && t.callId == id
  {
    if tools != [] {
      ToolIdsAre(tools[1..]);
      assert forall t :: t in tools <==> t == tools[0] || t in tools[1..];
      assert tools[0] in tools;
    }
  }

  lemma {:induction false} AnswersAreExpected(tools: seq<ChatMessage>, calls: seq<Wire>)
    requires forall t | t in tools :: t.Tool?
    ensures Expected(tools, WireIds(calls)) == AnswersTo(tools, calls)
  {
    hide WireIds;
    WireIdsAre(calls);
    if tools != [] {
      assert tools[0] in tools;
      AnswersAreExpected(tools[1..], calls);
    }
  }

  lemma {:induction false} ExpectedAre(tools: seq<ChatMessage>, ids: set<string>)
    requires forall t | t in tools :: t.Tool?
    ensures forall t :: t in Expected(tools, ids) <==> t in tools && t.callId in ids
  {
    if tools != [] {
      ExpectedAre(tools[1..], ids);
      assert forall t :: t in tools <==> t == tools[0] || t in tools[1..];
    }
  }

  lemma AnsweredIff(tools: seq<ChatMessage>, calls: seq<Wire>)
    requires forall t | t in tools :: t.Tool?
    ensures WireIds(calls) <= ToolIds(Expected(tools, WireIds(calls))) <==>
      forall w | w in calls :: exists t :: t in tools && t.callId == w.id
  {
    hide WireIds, ToolIds, Expected;
    var ids := WireIds(calls);
    WireIdsAre(calls);
    ExpectedAre(tools, ids);
    ToolIdsAre(Expected(tools, ids));
    if ids <= ToolIds(Expected(tools, ids)) {
      forall w | w in calls ensures exists t :: t in tools && t.callId == w.id { assert w.id in ids; }
    } else {
      var id :| id in ids && id !in ToolIds(Expected(tools, ids));
      var w :| w in calls && w.id == id;
      assert !exists t :: t in tools && t.callId == w.id;
    }
  }

  lemma {:induction false} WellPairedIsHealthy(ms: seq<ChatMessage>)
    requires WellPaired(ms)
    ensures Healthy(ms)
    decreases |ms|
  {
    if ms != [] {
      WellPairedIsHealthy(if IsCallMessage(ms[0]) then ms[1 + |LeadingTools(ms[1..])|..] else ms[1..]);
    }
  }

  // ----- A legal history loses no block -----

  lemma {:induction false} AfterRunCalls(s: seq<Item>)
    ensures s[|RunCalls(s)|..] == HR.AfterRun(s)
    ensures HR.AfterRun(s) == [] || !HR.AfterRun(s)[0].ToolCall?
    ensures RunCalls(s) == s[..|RunCalls(s)|]
  {
    if s != [] && s[0].ToolCall? {
      AfterRunCalls(s[1..]);
      assert s[1..][|RunCalls(s[1..])|..] == s[|RunCalls(s)|..];
      assert s == [s[0]] + s[1..];
    }
  }

  lemma WireIdsAreCallIds(calls: seq<Item>)
    requires forall c | c in calls :: c.ToolCall?
    ensures WireIds(ToWires(calls)) == CallIds(calls) && |ToWires(calls)| == |calls|
  {
    if calls != [] {
      assert ([ToWire(calls[0])] + ToWires(calls[1..]))[1..] == ToWires(calls[1..]);
    }
  }

  lemma ToolIdsAreResultIds(results: seq<Item>)
    requires forall r | r in results :: r.ToolResult?
    ensures (forall t | t in ToTools(results) :: t.Tool?) && |ToTools(results)| == |results|
    ensures ToolIds(ToTools(results)) == ResultIds(results)
  {
    if results != [] {
      assert ([Tool(results[0].callId, results[0].output)] + ToTools(results[1..]))[1..] == ToTools(results[1..]);
    }
  }

  /** The calls of a legal run have ids of their own, and what follows the run is
      legal with all of them pending. */
  lemma {:induction false} LegalRun(st: HR.St, s: seq<Item>)
    requires HR.Legal(st, s) && st.InRun?
    ensures var calls := RunCalls(s);
            && CallIds(calls) !! st.ids && |CallIds(calls)| == |calls|
            && HR.Legal(HR.InRun(st.turn, st.ids + CallIds(calls)), HR.AfterRun(s))
    decreases |s|
  {
    if s != [] && s[0].ToolCall? {
      var st' := HR.Step(st, s[0]);
      var calls := RunCalls(s);
      assert calls == [s[0]] + RunCalls(s[1..]) && calls[1..] == RunCalls(s[1..]);
      LegalRun(st', s[1..]);
      assert st.ids + CallIds(calls) == st'.ids + CallIds(calls[1..]);
    } else {
      assert st.ids + {} == st.ids;
    }
  }

  lemma LegalBehind(st: HR.St, s: seq<Item>)
    requires s == [] || !s[0].ToolCall?
    ensures HR.Legal(st, s) <==> HR.Legal(HR.Behind(st), s)
  {
  }

  /** Behind a legal run the scan finds each pending result exactly once, passes
      only bridge items, and stops where the history is legal again. */
  lemma {:induction false} LegalTail(s: seq<Item>, turn: string, expected: set<string>, seen: set<string>, saw: bool)
    requires seen <= expected && HR.Legal(HR.Scanning(turn, expected - seen, saw), s)
    ensures var r := ScanTail(s, turn, expected, seen, saw);
            && ResultIds(r.results) == expected - seen && |r.results| == |expected - seen|
            && HR.Legal(HR.Idle, s[r.used..])
    decreases |s|
  {
    hide NonBlankTexts, NonBlankReasonings;
    if s != [] {
      if s[0].ToolResult? {
        LegalTailResult(s, turn, expected, seen, saw);
      } else if IsToolResultBridge(s[0], turn, saw) {
        var r' := ScanTail(s[1..], turn, expected, seen, saw);
        LegalTail(s[1..], turn, expected, seen, saw);
        assert s[r'.used + 1..] == s[1..][r'.used..];
      } else {
        assert s[0..] == s;
      }
    }
  }

  lemma {:induction false} LegalTailResult(
    s: seq<Item>, turn: string, expected: set<string>, seen: set<string>, saw: bool)
    requires s != [] && s[0].ToolResult?
    requires seen <= expected && HR.Legal(HR.Scanning(turn, expected - seen, saw), s)
    ensures var r := ScanTail(s, turn, expected, seen, saw);
            && ResultIds(r.results) == expected - seen && |r.results| == |expected - seen|
            && HR.Legal(HR.Idle, s[r.used..])
    decreases |s|, 0
  {
    hide NonBlankTexts, NonBlankReasonings;
    var id := s[0].callId;
    var seen' := seen + {id};
    var r' := ScanTail(s[1..], turn, expected, seen', true);
    assert id in expected - seen;
    assert expected - seen' == (expected - seen) - {id};
    LegalTail(s[1..], turn, expected, seen', true);
    assert s[r'.used + 1..] == s[1..][r'.used..];
  }

  /** A legal run followed by its scan: the results answer the calls one to one. */
  lemma LegalRunAndTail(s: seq<Item>)
    requires s != [] && s[0].ToolCall? && HR.Legal(HR.Idle, s)
    ensures var calls := RunCalls(s);
            var tail := ScanTail(s[|calls|..], s[0].turnId, CallIds(calls), {}, false);
            && calls != [] && ResultIds(tail.results) == CallIds(calls)
            && |tail.results| == |calls| == |CallIds(calls)|
            && HR.Legal(HR.Idle, s[|calls|..][tail.used..])
  {
    hide ScanTail;
    var turn, calls := s[0].turnId, RunCalls(s);
    AfterRunCalls(s);
    assert calls == [s[0]] + RunCalls(s[1..]) && calls[1..] == RunCalls(s[1..]);
    LegalRun(HR.InRun(turn, {s[0].callId}), s[1..]);
    var ids := CallIds(calls);
    assert ids == {s[0].callId} + CallIds(calls[1..]) && |ids| == |calls|;
    LegalBehind(HR.InRun(turn, ids), HR.AfterRun(s));
    assert ids - {} == ids;
    LegalTail(HR.AfterRun(s), turn, ids, {}, false);
  }

  /** A run of calls in a legal history renders to a complete block. */
  lemma LegalBlock(items: seq<Item>, start: nat, thinking: bool)
    requires start < |items| && items[start].ToolCall? && HR.Legal(HR.Idle, items[start..])
    ensures var b := BlockAt(items, start, thinking);
            && b.Some?
            && HR.Legal(HR.Idle, items[b.value.next..])
            && (forall rest: seq<ChatMessage> :: WellPaired(rest) ==> WellPaired(b.value.messages + rest))
  {
    hide ScanTail, RunCalls, CallIds, ResultIds, WireIds, ToolIds;
    hide NonBlankTexts, NonBlankReasonings, Signature, WellPaired;
    hide BridgeStart, JoinLines, Blank, HR.Legal;
    var s := items[start..];
    LegalRunAndTail(s);
    var calls := RunCalls(s);
    var tail := ScanTail(s[|calls|..], s[0].turnId, CallIds(calls), {}, false);
    var b := BlockAt(items, start, thinking).value;
    assert items[b.next..] == s[|calls|..][tail.used..];
    WireIdsAreCallIds(calls);
    ToolIdsAreResultIds(tail.results);
    PairedBlock(b.messages[0], ToTools(tail.results));
  }

  lemma PairedBlock(m: ChatMessage, tools: seq<ChatMessage>)
    requires IsCallMessage(m) && forall t | t in tools :: t.Tool?
    requires |tools| == |m.calls| == |WireIds(m.calls)| && ToolIds(tools) == WireIds(m.calls)
    ensures forall rest: seq<ChatMessage> :: WellPaired(rest) ==> WellPaired(([m] + tools) + rest)
  {
    forall rest: seq<ChatMessage> | WellPaired(rest) ensures WellPaired(([m] + tools) + rest) {
      var ms := ([m] + tools) + rest;
      LeadingToolsAppend(tools, rest);
      assert ms[1..] == tools + rest && ms[1 + |tools|..] == rest;
    }
  }

  lemma {:induction false} LegalRendersPaired(items: seq<Item>, i: nat, thinking: bool)
    requires i <= |items| && HR.Legal(HR.Idle, items[i..])
    ensures WellPaired(Render(items, i, thinking))
    decreases |items| - i
  {
    hide BlockAt, IsBridgeBeforeCall;
    if i < |items| {
      var x := items[i];
      if x.ToolCall? {
        NoBridge(items, i);
        LegalBlock(items, i, thinking);
        LegalRendersPaired(items, BlockAt(items, i, thinking).value.next, thinking);
      } else {
        assert HR.Admits(HR.Idle, items[i..][0]);
        if thinking && !IsBridgeBeforeCall(items, i) && x.AssistantReasoning?
           && i + 1 < |items| && items[i + 1].AssistantText? && items[i + 1].turnId == x.turnId {
          LegalRendersPaired(items, i + 2, thinking);
        } else {
          var rest := Render(items, i + 1, thinking);
          LegalRendersPaired(items, i + 1, thinking);
          assert [] + rest == rest;
        }
      }
    }
  }

  lemma NoBridge(items: seq<Item>, i: nat)
    requires i < |items| && !items[i].AssistantReasoning? && !items[i].AssistantText?
    ensures !IsBridgeBeforeCall(items, i)
  {
  }

  // ----- What is said is rendered exactly once, in order -----

  datatype Utterance = Said(byUser: bool, text: string)

  /** The assistant's share of a list of texts. */
  function Speak(texts: seq<string>): seq<Utterance> {
    if texts == [] then [] else SpeakOne(texts[0]) + Speak(texts[1..])
  }

  function SpeakOne(text: string): seq<Utterance> {
    if Blank(text) then [] else [Said(false, text)]
  }

  function SaidBy(x: Item): seq<Utterance> {
    match x
    case UserMessage(_, text) => [Said(true, text)]
    case AssistantText(_, text) => Speak([text])
    case _ => []
  }

  /** The user messages and non-blank assistant texts of a history. */
  function Spoken(s: seq<Item>): seq<Utterance> {
    if s == [] then [] else SaidBy(s[0]) + Spoken(s[1..])
  }

  function UtteredBy(m: ChatMessage): seq<Utterance> {
    match m
    case User(content) => [Said(true, content)]
    case Assistant(texts, _, _, _) => Speak(texts)
    case _ => []
  }

  /** The same, read off the messages. */
  function Uttered(ms: seq<ChatMessage>): seq<Utterance> {
    if ms == [] then [] else UtteredBy(ms[0]) + Uttered(ms[1..])
  }

  lemma {:induction false} SpeakAppend(a: seq<string>, b: seq<string>)
    ensures Speak(a + b) == Speak(a) + Speak(b)
  {
    hide SpeakOne;
    if a == [] {
      assert a + b == b;
    } else {
      var a' := a[1..];
      SpeakAppend(a', b);
      assert a + b == [a[0]] + (a' + b) && (a + b)[1..] == a' + b;
      var x, y, z := SpeakOne(a[0]), Speak(a'), Speak(b);
      assert x + (y + z) == (x + y) + z;
    }
  }

  lemma {:induction false} SpokenAppend(a: seq<Item>, b: seq<Item>)
    ensures Spoken(a + b) == Spoken(a) + Spoken(b)
  {
    hide SaidBy;
    if a == [] {
      assert a + b == b;
    } else {
      SpokenAppend(a[1..], b);
      assert (a + b)[1..] == a[1..] + b;
      var x, y, z := SaidBy(a[0]), Spoken(a[1..]), Spoken(b);
      assert x + (y + z) == (x + y) + z;
    }
  }

  lemma {:induction false} TextsAppend(a: seq<Item>, b: seq<Item>)
    ensures NonBlankTexts(a + b) == NonBlankTexts(a) + NonBlankTexts(b)
  {
    hide TextOf;
    if a == [] {
      assert a + b == b;
    } else {
      TextsAppend(a[1..], b);
      assert (a + b)[1..] == a[1..] + b;
      var x, y, z := TextOf(a[0]), NonBlankTexts(a[1..]), NonBlankTexts(b);
      assert x + (y + z) == (x + y) + z;
    }
  }

  lemma OneSaid(x: Item)
    ensures Spoken([x]) == SaidBy(x)
    ensures !x.UserMessage? ==> SaidBy(x) == Speak(NonBlankTexts([x]))
    ensures !x.AssistantText? ==> NonBlankTexts([x]) == []
  {
    hide Blank;
    assert [x][1..] == [];
    if x.AssistantText? {
      assert [x.text][1..] == [];
    }
  }

  lemma {:induction false} UtteredAppend(a: seq<ChatMessage>, b: seq<ChatMessage>)
    ensures Uttered(a + b) == Uttered(a) + Uttered(b)
  {
    hide UtteredBy;
    if a == [] {
      assert a + b == b;
    } else {
      UtteredAppend(a[1..], b);
      assert (a + b)[1..] == a[1..] + b;
      var x, y, z := UtteredBy(a[0]), Uttered(a[1..]), Uttered(b);
      assert x + (y + z) == (x + y) + z;
    }
  }

  /** The texts left out so far that the run of calls ahead will collect. */
  function Held(items: seq<Item>, i: nat): seq<Utterance>
    requires i <= |items|
  {
    if i < |items| && ReachesCall(items, i, items[i].turnId) then
      Speak(NonBlankTexts(items[BridgeStart(items, i, items[i].turnId)..i]))
    else []
  }

  /** The look-ahead leaves out exactly what the look-behind will collect. */
  lemma HeldStep(items: seq<Item>, i: nat)
    requires i < |items| && !IsTool(items[i])
    ensures Held(items, i + 1) == Held(items, i) + (if IsBridgeBeforeCall(items, i) then SaidBy(items[i]) else [])
  {
    hide Speak, NonBlankTexts, SaidBy;
    var x := items[i];
    OneSaid(x);
    if ReachesCall(items, i, x.turnId) {
      var b := BridgeStart(items, i, x.turnId);
      assert ReachesCall(items, i + 1, x.turnId) && items[i + 1].turnId == x.turnId;
      assert BridgeStart(items, i + 1, x.turnId) == b;
      assert items[b..i + 1] == items[b..i] + [x];
      TextsAppend(items[b..i], [x]);
      SpeakAppend(NonBlankTexts(items[b..i]), NonBlankTexts([x]));
      assert IsBridgeBeforeCall(items, i) <==> x.AssistantReasoning? || x.AssistantText?;
      SpeakNothing();
    } else if i + 1 < |items| && ReachesCall(items, i + 1, items[i + 1].turnId) {
      var t := items[i + 1].turnId;
      assert BridgeStart(items, i + 1, t) == i + 1;
      assert items[i + 1..i + 1] == [];
      SpeakNothing();
    }
  }

  lemma SpeakNothing()
    ensures NonBlankTexts([]) == [] && Speak([]) == []
  {
  }

  lemma PrefixCons(s: seq<Item>, n: nat)
    requires n < |s|
    ensures s[..n + 1] == [s[0]] + s[1..][..n]
  {
  }

  lemma {:induction false} TailTexts(s: seq<Item>, turn: string, expected: set<string>, seen: set<string>, saw: bool)
    ensures var r := ScanTail(s, turn, expected, seen, saw);
            && Spoken(s[..r.used]) == Speak(r.texts)
            && (saw ==> r.texts == [])
    decreases |s|
  {
    if s != [] {
      var r := ScanTail(s, turn, expected, seen, saw);
      if s[0].ToolResult? || IsToolResultBridge(s[0], turn, saw) {
        var result := s[0].ToolResult?;
        var isNew := result && s[0].callId in expected && s[0].callId !in seen;
        var seen' := if isNew then seen + {s[0].callId} else seen;
        var r' := ScanTail(s[1..], turn, expected, seen', saw || result);
        TailTexts(s[1..], turn, expected, seen', saw || result);
        PrefixCons(s, r'.used);
        OneSaid(s[0]);
        hide Blank, NonBlankReasonings, SpeakOne, SaidBy;
        SpokenAppend([s[0]], s[1..][..r'.used]);
        SpeakAppend(NonBlankTexts([s[0]]), r'.texts);
      }
    }
  }

  /** Behind the first result the scan passes no text. */
  lemma {:induction false} NoTextBehindResult(
    s: seq<Item>, turn: string, expected: set<string>, seen: set<string>, saw: bool)
    returns (k: nat)
    ensures var r := ScanTail(s, turn, expected, seen, saw);
            && k <= r.used
            && (forall j :: k <= j < r.used ==> !s[j].AssistantText?)
            && (saw ==> k == 0)
            && (!saw && r.results != [] ==> k > 0 && s[k - 1].ToolResult?)
    decreases |s|
  {
    var r := ScanTail(s, turn, expected, seen, saw);
    k := 0;
    if s != [] && (s[0].ToolResult? || IsToolResultBridge(s[0], turn, saw)) {
      var result := s[0].ToolResult?;
      var isNew := result && s[0].callId in expected && s[0].callId !in seen;
      var seen' := if isNew then seen + {s[0].callId} else seen;
      var r' := ScanTail(s[1..], turn, expected, seen', saw || result);
      var k' := NoTextBehindResult(s[1..], turn, expected, seen', saw || result);
      assert forall j :: k' <= j < r'.used ==> !s[1..][j].AssistantText?;
      assert forall j :: 0 < j < r.used ==> s[j] == s[1..][j - 1];
      k := if saw then 0 else k' + 1;
    }
  }

  lemma NoTextNothingSaid(s: seq<Item>)
    requires forall j :: 0 <= j < |s| ==> !s[j].AssistantText?
    ensures NonBlankTexts(s) == []
  {
  }

  lemma BridgeStartsAfter(items: seq<Item>, start: nat, k: nat, turn: string)
    requires 0 < k <= start <= |items| && items[k - 1].ToolResult?
    ensures BridgeStart(items, start, turn) >= k
  {
  }

  lemma HeldAtCall(items: seq<Item>, start: nat)
    requires start < |items| && items[start].ToolCall?
    ensures Held(items, start) == Speak(NonBlankTexts(items[BridgeStart(items, start, items[start].turnId)..start]))
  {
    hide Speak, NonBlankTexts;
  }

  /** The messages of a block and where it ends. */
  lemma BlockParts(items: seq<Item>, start: nat, thinking: bool)
    returns (m: ChatMessage, n: nat, rest: seq<Item>, tail: Tail)
    requires start < |items| && items[start].ToolCall? && BlockAt(items, start, thinking).Some?
    ensures var s, turn := items[start..], items[start].turnId;
            var b := BlockAt(items, start, thinking).value;
            && n == |RunCalls(s)| <= |s| && rest == s[n..]
            && tail == ScanTail(rest, turn, CallIds(RunCalls(s)), {}, false)
            && tail.used <= |rest| && b.next == start + n + tail.used
            && (forall x | x in tail.results :: x.ToolResult?)
            && b.messages == [m] + ToTools(tail.results)
            && m.Assistant? && m.texts == NonBlankTexts(items[BridgeStart(items, start, turn)..start]) + tail.texts
            && m.calls == ToWires(RunCalls(s)) && tail.results != []
            && (thinking ==>
                  && m.reasoning.Some?
                  && m.reasoning.value == OrSpace(JoinLines(
                       NonBlankReasonings(items[BridgeStart(items, start, turn)..start]) + tail.reasonings)))
            && (!thinking ==> m.reasoning.None?)
  {
    hide ScanTail, RunCalls, NonBlankTexts, NonBlankReasonings, JoinLines, Blank, Signature;
    var s := items[start..];
    n := |RunCalls(s)|;
    rest := s[n..];
    tail := ScanTail(rest, items[start].turnId, CallIds(RunCalls(s)), {}, false);
    m := BlockAt(items, start, thinking).value.messages[0];
    BlockHasResult(s, tail);
  }

  lemma OneUttered(m: ChatMessage, ms: seq<ChatMessage>)
    ensures Uttered([m] + ms) == UtteredBy(m) + Uttered(ms)
  {
    assert ([m] + ms)[1..] == ms;
  }

  /** A block says what was held and what its own items say. */
  lemma BlockSays(items: seq<Item>, start: nat, thinking: bool)
    requires start < |items| && items[start].ToolCall? && BlockAt(items, start, thinking).Some?
    ensures var b := BlockAt(items, start, thinking).value;
            Uttered(b.messages) + Spoken(items[b.next..]) == Held(items, start) + Spoken(items[start..])
  {
    hide ScanTail, RunCalls, NonBlankTexts, Speak, BlockAt, Held, Spoken, BridgeStart, CallIds, ToTools, Uttered;
    var m, n, rest, tail := BlockParts(items, start, thinking);
    var s, turn := items[start..], items[start].turnId;
    AfterRunCalls(s);
    TailTexts(rest, turn, CallIds(RunCalls(s)), {}, false);
    HeldAtCall(items, start);
    var before := NonBlankTexts(items[BridgeStart(items, start, turn)..start]);
    SpeakAppend(before, tail.texts);
    CallsSayNothing(RunCalls(s));
    ToolsSayNothing(tail.results);
    var own, after := s[n..][..tail.used], s[n + tail.used..];
    assert s == s[..n] + (own + after);
    SpokenAppend(s[..n], own + after);
    SpokenAppend(own, after);
    OneUttered(m, ToTools(tail.results));
    assert s[n + tail.used..] == items[start + n + tail.used..];
  }

  lemma NothingHeldAfterResult(items: seq<Item>, k: nat, next: nat)
    requires 0 < k <= next <= |items| && items[k - 1].ToolResult?
    requires forall j :: k <= j < next ==> !items[j].AssistantText?
    ensures Held(items, next) == []
  {
    hide NonBlankTexts, Speak, ReachesCall;
    if next < |items| {
      var t := items[next].turnId;
      BridgeStartsAfter(items, next, k, t);
      var bs := BridgeStart(items, next, t);
      NoTextNothingSaid(items[bs..next]);
      SpeakNothing();
    }
  }

  /** Nothing is held behind a block. */
  lemma NothingHeldBehind(items: seq<Item>, start: nat, thinking: bool)
    requires start < |items| && items[start].ToolCall? && BlockAt(items, start, thinking).Some?
    ensures Held(items, BlockAt(items, start, thinking).value.next) == []
  {
    hide ScanTail, RunCalls, NonBlankTexts, BlockAt, CallIds, Held, BridgeStart;
    var m, n, rest, tail := BlockParts(items, start, thinking);
    var k := NoTextBehindResult(rest, items[start].turnId, CallIds(RunCalls(items[start..])), {}, false);
    var next, e := start + n + tail.used, start + n;
    assert forall j :: 0 <= j < |rest| ==> rest[j] == items[e + j];
    forall j | e + k <= j < next ensures !items[j].AssistantText? {
      assert items[j] == rest[j - e];
    }
    NothingHeldAfterResult(items, e + k, next);
  }

  lemma BlockHasResult(s: seq<Item>, tail: Tail)
    requires s != [] && s[0].ToolCall?
    requires (forall r | r in tail.results :: r.ToolResult?) && CallIds(RunCalls(s)) <= ResultIds(tail.results)
    ensures tail.results != []
  {
    assert s[0].callId in CallIds(RunCalls(s));
  }

  lemma CallsSayNothing(calls: seq<Item>)
    requires forall c | c in calls :: c.ToolCall?
    ensures Spoken(calls) == []
  {
    if calls != [] {
      assert calls[0] in calls;
      CallsSayNothing(calls[1..]);
    }
  }

  lemma ToolsSayNothing(results: seq<Item>)
    requires forall r | r in results :: r.ToolResult?
    ensures Uttered(ToTools(results)) == []
  {
    if results != [] {
      assert ToTools(results)[1..] == ToTools(results[1..]);
    }
  }

  /** A reasoning item that is merged with the text behind it. */
  predicate MergesWithNext(items: seq<Item>, i: nat, thinking: bool)
    requires i < |items|
  {
    && thinking && !IsBridgeBeforeCall(items, i) && items[i].AssistantReasoning?
    && i + 1 < |items| && items[i + 1].AssistantText? && items[i + 1].turnId == items[i].turnId
  }

  function Merged(items: seq<Item>, i: nat): ChatMessage
    requires i + 1 < |items| && items[i].AssistantReasoning? && items[i + 1].AssistantText?
  {
    Assistant([items[i + 1].text], Some(OrSpace(items[i].text)), items[i].signature, [])
  }

  lemma RenderPlain(items: seq<Item>, i: nat, thinking: bool)
    requires i < |items| && !IsTool(items[i])
    ensures Render(items, i, thinking)
            == if IsBridgeBeforeCall(items, i) then Render(items, i + 1, thinking)
               else if MergesWithNext(items, i, thinking) then [Merged(items, i)] + Render(items, i + 2, thinking)
               else ItemToMessage(items[i], thinking) + Render(items, i + 1, thinking)
  {
    hide IsBridgeBeforeCall, BlockAt;
    assert [] + Render(items, i + 1, thinking) == Render(items, i + 1, thinking);
  }

  lemma {:induction false} RenderSays(items: seq<Item>, i: nat, thinking: bool)
    requires i <= |items| && HR.Legal(HR.Idle, items[i..])
    ensures Uttered(Render(items, i, thinking)) == Held(items, i) + Spoken(items[i..])
    decreases |items| - i
  {
    hide BlockAt, IsBridgeBeforeCall, Held, ReachesCall;
    if i < |items| {
      var x := items[i];
      assert items[i..][0] == x && items[i..][1..] == items[i + 1..];
      if x.ToolCall? {
        NoBridge(items, i);
        LegalBlock(items, i, thinking);
        BlockSays(items, i, thinking);
        NothingHeldBehind(items, i, thinking);
        var b := BlockAt(items, i, thinking).value;
        RenderSays(items, b.next, thinking);
        UtteredAppend(b.messages, Render(items, b.next, thinking));
        assert [] + Spoken(items[b.next..]) == Spoken(items[b.next..]);
      } else {
        assert HR.Admits(HR.Idle, items[i..][0]);
        RenderSays(items, i + 1, thinking);
        if MergesWithNext(items, i, thinking) {
          RenderSays(items, i + 2, thinking);
        }
        PlainSays(items, i, thinking);
      }
    } else {
      HeldAtEnd(items);
    }
  }

  lemma HeldAtEnd(items: seq<Item>)
    ensures Held(items, |items|) == []
  {
  }

  lemma PlainSays(items: seq<Item>, i: nat, thinking: bool)
    requires i < |items| && !IsTool(items[i])
    requires Uttered(Render(items, i + 1, thinking)) == Held(items, i + 1) + Spoken(items[i + 1..])
    requires MergesWithNext(items, i, thinking) ==>
               Uttered(Render(items, i + 2, thinking)) == Held(items, i + 2) + Spoken(items[i + 2..])
    ensures Uttered(Render(items, i, thinking)) == Held(items, i) + Spoken(items[i..])
  {
    hide Render, Held, IsBridgeBeforeCall, ReachesCall, Blank, Speak, SaidBy, Uttered, ItemToMessage;
    var x := items[i];
    var rest := items[i + 1..];
    assert items[i..][0] == x && items[i..][1..] == rest;
    assert Spoken(items[i..]) == SaidBy(x) + Spoken(rest);
    hide Spoken;
    RenderPlain(items, i, thinking);
    HeldStep(items, i);
    if MergesWithNext(items, i, thinking) {
      MergedSays(items, i, thinking);
    } else if !IsBridgeBeforeCall(items, i) {
      UtteredAppend(ItemToMessage(x, thinking), Render(items, i + 1, thinking));
      MessageSays(x, thinking);
      SilentUnlessText(x);
      if SaidBy(x) != [] { NothingHeld(items, i); }
    }
  }

  lemma SilentUnlessText(x: Item)
    ensures SaidBy(x) != [] ==> x.AssistantText? || x.UserMessage?
  {
  }

  lemma MergedSays(items: seq<Item>, i: nat, thinking: bool)
    requires i < |items| && MergesWithNext(items, i, thinking)
    requires Uttered(Render(items, i + 2, thinking)) == Held(items, i + 2) + Spoken(items[i + 2..])
    ensures Uttered([Merged(items, i)] + Render(items, i + 2, thinking)) == Held(items, i) + Spoken(items[i..])
  {
    hide Render, Held, Spoken, Uttered, UtteredBy, SaidBy, IsBridgeBeforeCall;
    var rest := Render(items, i + 2, thinking);
    MergedSpoken(items, i, thinking);
    MergedHeld(items, i, thinking);
    OneUttered(Merged(items, i), rest);
    assert Held(items, i + 2) + Spoken(items[i + 2..]) == Spoken(items[i + 2..]);
    assert [] + Spoken(items[i..]) == Spoken(items[i..]);
  }

  lemma MergedSpoken(items: seq<Item>, i: nat, thinking: bool)
    requires i < |items| && MergesWithNext(items, i, thinking)
    ensures i + 1 < |items|
    ensures Spoken(items[i..]) == UtteredBy(Merged(items, i)) + Spoken(items[i + 2..])
  {
    hide Blank, IsBridgeBeforeCall;
    var y := items[i + 1];
    var rest := items[i + 2..];
    assert items[i..][0] == items[i] && items[i..][1..] == items[i + 1..];
    assert items[i + 1..][0] == y && items[i + 1..][1..] == rest;
    assert Spoken(items[i + 1..]) == SaidBy(y) + Spoken(rest);
    assert Spoken(items[i..]) == SaidBy(items[i]) + Spoken(items[i + 1..]);
    assert SaidBy(y) == UtteredBy(Merged(items, i)) && SaidBy(items[i]) == [];
    hide *;
    assert [] + Spoken(items[i + 1..]) == Spoken(items[i + 1..]);
  }

  lemma MergedHeld(items: seq<Item>, i: nat, thinking: bool)
    requires i < |items| && MergesWithNext(items, i, thinking)
    ensures i + 1 < |items|
    ensures Held(items, i) == [] && Held(items, i + 2) == []
  {
    hide Held, IsBridgeBeforeCall, Blank;
    SameTurnNoBridge(items, i);
    NothingHeld(items, i);
    NothingHeld(items, i + 1);
    HeldStep(items, i + 1);
  }

  lemma MessageSays(x: Item, thinking: bool)
    requires !IsTool(x)
    ensures Uttered(ItemToMessage(x, thinking)) == SaidBy(x)
  {
    hide Speak, Blank;
    var ms := ItemToMessage(x, thinking);
    if ms != [] { assert ms[1..] == []; }
  }

  lemma SameTurnNoBridge(items: seq<Item>, i: nat)
    requires i + 1 < |items| && items[i].AssistantReasoning? && items[i + 1].AssistantText?
    requires items[i + 1].turnId == items[i].turnId && !IsBridgeBeforeCall(items, i)
    ensures !IsBridgeBeforeCall(items, i + 1)
  {
  }

  lemma NothingHeld(items: seq<Item>, i: nat)
    requires i < |items| && (items[i].AssistantReasoning? || items[i].AssistantText? || items[i].UserMessage?)
    requires !IsBridgeBeforeCall(items, i)
    ensures Held(items, i) == []
  {
  }

  // ----- Calls, tool outputs and notes reach the model -----

  datatype Deed = Called(wire: Wire) | Answered(callId: string, output: string) | Noted(text: string)

  function CalledAll(wires: seq<Wire>): seq<Deed> {
    if wires == [] then [] else [Called(wires[0])] + CalledAll(wires[1..])
  }

  /** What a message tells the model besides what was said. */
  function DeedsIn(m: ChatMessage): seq<Deed> {
    match m
    case System(content) => [Noted(content)]
    case User(_) => []
    case Assistant(_, _, _, calls) => CalledAll(calls)
    case Tool(callId, content) => [Answered(callId, content)]
  }

  function Deeds(ms: seq<ChatMessage>): seq<Deed> {
    if ms == [] then [] else DeedsIn(ms[0]) + Deeds(ms[1..])
  }

  /** What an item of the history amounts to: a call with its arguments, a result with its
      output, the summary of a compaction that replaced something, the text of a review. */
  function DeedOf(x: Item): seq<Deed> {
    match x
    case ToolCall(_, id, name, arguments) => [Called(Wire(id, name, arguments))]
    case ToolResult(_, id, output) => [Answered(id, output)]
    case Compaction(_, summary, replaced) =>
      if replaced > 0 then [Noted("Conversation summary from earlier turns:\n" + summary)] else []
    case Review(_, completed, text) =>
      if completed && !Blank(text) then [Noted("Code review result from an earlier turn:\n" + text)] else []
    case _ => []
  }

  function DeedsOf(s: seq<Item>): seq<Deed> {
    if s == [] then [] else DeedOf(s[0]) + DeedsOf(s[1..])
  }

  lemma {:induction false} DeedsAppend(a: seq<ChatMessage>, b: seq<ChatMessage>)
    ensures Deeds(a + b) == Deeds(a) + Deeds(b)
  {
    hide DeedsIn;
    if a == [] {
      assert a + b == b;
    } else {
      DeedsAppend(a[1..], b);
      assert (a + b)[1..] == a[1..] + b && (a + b)[0] == a[0];
      var x, y, z := DeedsIn(a[0]), Deeds(a[1..]), Deeds(b);
      assert x + (y + z) == (x + y) + z;
    }
  }

  lemma {:induction false} DeedsOfAppend(a: seq<Item>, b: seq<Item>)
    ensures DeedsOf(a + b) == DeedsOf(a) + DeedsOf(b)
  {
    hide DeedOf;
    if a == [] {
      assert a + b == b;
    } else {
      DeedsOfAppend(a[1..], b);
      assert (a + b)[1..] == a[1..] + b && (a + b)[0] == a[0];
      var x, y, z := DeedOf(a[0]), DeedsOf(a[1..]), DeedsOf(b);
      assert x + (y + z) == (x + y) + z;
    }
  }

  lemma {:induction false} CallsAreMade(calls: seq<Item>)
    requires forall c | c in calls :: c.ToolCall?
    ensures CalledAll(ToWires(calls)) == DeedsOf(calls)
  {
    if calls != [] {
      assert calls[0] in calls;
      CallsAreMade(calls[1..]);
      assert ToWires(calls)[1..] == ToWires(calls[1..]);
    }
  }

  lemma {:induction false} ResultsAreGiven(results: seq<Item>)
    requires forall r | r in results :: r.ToolResult?
    ensures Deeds(ToTools(results)) == DeedsOf(results)
  {
    if results != [] {
      assert results[0] in results;
      ResultsAreGiven(results[1..]);
      assert ToTools(results)[1..] == ToTools(results[1..]);
    }
  }

  /** In a legal history the scan collects every result it passes. */
  lemma {:induction false} TailDeeds(s: seq<Item>, turn: string, expected: set<string>, seen: set<string>, saw: bool)
    requires seen <= expected && HR.Legal(HR.Scanning(turn, expected - seen, saw), s)
    ensures var r := ScanTail(s, turn, expected, seen, saw); DeedsOf(s[..r.used]) == DeedsOf(r.results)
    decreases |s|
  {
    hide NonBlankTexts, NonBlankReasonings;
    var r := ScanTail(s, turn, expected, seen, saw);
    if s != [] && s[0].ToolResult? {
      var seen' := seen + {s[0].callId};
      assert expected - seen' == (expected - seen) - {s[0].callId};
      TailDeeds(s[1..], turn, expected, seen', true);
      var r' := ScanTail(s[1..], turn, expected, seen', true);
      PrefixCons(s, r'.used);
      DeedsOfAppend([s[0]], s[1..][..r'.used]);
      DeedsOfAppend([s[0]], r'.results);
    } else if s != [] && IsToolResultBridge(s[0], turn, saw) {
      TailDeeds(s[1..], turn, expected, seen, saw);
      var r' := ScanTail(s[1..], turn, expected, seen, saw);
      PrefixCons(s, r'.used);
      assert ([s[0]] + s[1..][..r'.used])[1..] == s[1..][..r'.used];
    }
  }

  /** A block makes the calls of its run and gives the results behind it. */
  lemma BlockDelivers(items: seq<Item>, start: nat, thinking: bool)
    requires start < |items| && items[start].ToolCall? && HR.Legal(HR.Idle, items[start..])
    requires BlockAt(items, start, thinking).Some?
    ensures var b := BlockAt(items, start, thinking).value;
            Deeds(b.messages) + DeedsOf(items[b.next..]) == DeedsOf(items[start..])
  {
    hide ScanTail, RunCalls, NonBlankTexts, BlockAt, DeedsOf, BridgeStart, CallIds, ToTools, ToWires, Deeds, HR.Legal;
    var m, n, rest, tail := BlockParts(items, start, thinking);
    var s, calls := items[start..], RunCalls(items[start..]);
    AfterRunCalls(s);
    LegalBehindRun(s);
    TailDeeds(rest, items[start].turnId, CallIds(calls), {}, false);
    CallsAreMade(calls);
    ResultsAreGiven(tail.results);
    OneDeed(m, ToTools(tail.results));
    var own, after := s[n..][..tail.used], s[n + tail.used..];
    assert s == s[..n] + (own + after);
    DeedsOfAppend(s[..n], own + after);
    DeedsOfAppend(own, after);
    assert after == items[start + n + tail.used..];
  }

  lemma OneDeed(m: ChatMessage, ms: seq<ChatMessage>)
    ensures Deeds([m] + ms) == DeedsIn(m) + Deeds(ms)
  {
    assert ([m] + ms)[1..] == ms;
  }

  lemma LegalBehindRun(s: seq<Item>)
    requires s != [] && s[0].ToolCall? && HR.Legal(HR.Idle, s)
    ensures var ids := CallIds(RunCalls(s));
            {} <= ids && HR.Legal(HR.Scanning(s[0].turnId, ids - {}, false), s[|RunCalls(s)|..])
  {
    var turn, calls := s[0].turnId, RunCalls(s);
    AfterRunCalls(s);
    assert calls == [s[0]] + RunCalls(s[1..]) && calls[1..] == RunCalls(s[1..]);
    LegalRun(HR.InRun(turn, {s[0].callId}), s[1..]);
    var ids := CallIds(calls);
    assert ids == {s[0].callId} + CallIds(calls[1..]) && ids - {} == ids;
    LegalBehind(HR.InRun(turn, ids), HR.AfterRun(s));
  }

  lemma MessageDeeds(x: Item, thinking: bool)
    requires !IsTool(x)
    ensures Deeds(ItemToMessage(x, thinking)) == DeedOf(x)
  {
    var ms := ItemToMessage(x, thinking);
    if ms != [] { assert ms[1..] == []; }
  }

  /** Every call with its name and arguments, every result with its output, every summary
      and review of a legal history is told exactly once, and in order. */
  lemma {:induction false} RenderDelivers(items: seq<Item>, i: nat, thinking: bool)
    requires i <= |items| && HR.Legal(HR.Idle, items[i..])
    ensures Deeds(Render(items, i, thinking)) == DeedsOf(items[i..])
    decreases |items| - i
  {
    hide BlockAt, IsBridgeBeforeCall, Blank, DeedOf, DeedsIn;
    if i < |items| {
      var x := items[i];
      assert items[i..][0] == x && items[i..][1..] == items[i + 1..];
      if x.ToolCall? {
        NoBridge(items, i);
        LegalBlock(items, i, thinking);
        BlockDelivers(items, i, thinking);
        var b := BlockAt(items, i, thinking).value;
        RenderDelivers(items, b.next, thinking);
        DeedsAppend(b.messages, Render(items, b.next, thinking));
      } else {
        assert HR.Admits(HR.Idle, items[i..][0]);
        RenderPlain(items, i, thinking);
        RenderDelivers(items, i + 1, thinking);
        NoDeed(x);
        if MergesWithNext(items, i, thinking) {
          assert items[i + 1..][0] == items[i + 1] && items[i + 1..][1..] == items[i + 2..];
          RenderDelivers(items, i + 2, thinking);
          NoDeed(items[i + 1]);
          OneDeed(Merged(items, i), Render(items, i + 2, thinking));
          MergedDeeds(items, i);
        } else if IsBridgeBeforeCall(items, i) {
          if !x.AssistantReasoning? && !x.AssistantText? { NoBridge(items, i); }
          assert [] + DeedsOf(items[i + 1..]) == DeedsOf(items[i + 1..]);
        } else {
          MessageDeeds(x, thinking);
          DeedsAppend(ItemToMessage(x, thinking), Render(items, i + 1, thinking));
        }
      }
    }
  }

  lemma NoDeed(x: Item)
    ensures x.AssistantText? || x.AssistantReasoning? ==> DeedOf(x) == []
    ensures DeedsOf([]) == []
  {
  }

  lemma MergedDeeds(items: seq<Item>, i: nat)
    requires i + 1 < |items| && items[i].AssistantReasoning? && items[i + 1].AssistantText?
    ensures DeedsIn(Merged(items, i)) == []
  {
  }

  // ----- Which texts and reasonings a call message carries -----

  /** Between `c` and the item at `j` stand only items of its turn that go with a call. */
  predicate Leads(items: seq<Item>, c: nat, j: nat) {
    c <= j < |items| && forall k :: c <= k < j ==>
      && items[k].turnId == items[j].turnId
      && (items[k].AssistantReasoning? || items[k].AssistantText? || items[k].Approval? || items[k].UserInput?
          || items[k].ErrorItem?)
  }

  predicate LeadsToCall(items: seq<Item>, c: nat, turn: string, j: nat) {
    Leads(items, c, j) && items[j].ToolCall? && items[j].turnId == turn
  }

  ghost predicate CallAhead(items: seq<Item>, c: nat, turn: string) {
    exists j: nat :: LeadsToCall(items, c, turn, j)
  }

  /** An item is left for a later call message exactly when it is a text or reasoning and
      only such items, approvals, user inputs and errors of its turn stand before a call of
      its turn. */
  lemma LeftForCallIff(items: seq<Item>, i: nat)
    requires i < |items|
    ensures IsBridgeBeforeCall(items, i) <==>
      && (items[i].AssistantReasoning? || items[i].AssistantText?)
      && CallAhead(items, i + 1, items[i].turnId)
  {
    ReachesIff(items, i + 1, items[i].turnId);
  }

  lemma {:induction false} ReachesIff(items: seq<Item>, c: nat, turn: string)
    requires c <= |items|
    ensures ReachesCall(items, c, turn) <==> CallAhead(items, c, turn)
    decreases |items| - c
  {
    if c < |items| {
      ReachesIff(items, c + 1, turn);
      if IsPreCallBridge(items[c], turn) {
        if ReachesCall(items, c + 1, turn) {
          var j: nat :| LeadsToCall(items, c + 1, turn, j);
          assert LeadsToCall(items, c, turn, j);
        }
        if exists j: nat :: LeadsToCall(items, c, turn, j) {
          var j: nat :| LeadsToCall(items, c, turn, j);
          assert LeadsToCall(items, c + 1, turn, j);
        }
      } else if items[c].ToolCall? && items[c].turnId == turn {
        assert LeadsToCall(items, c, turn, c);
      }
    }
  }

  lemma {:induction false} ReasoningsAppend(a: seq<Item>, b: seq<Item>)
    ensures NonBlankReasonings(a + b) == NonBlankReasonings(a) + NonBlankReasonings(b)
  {
    hide Blank;
    if a == [] {
      assert a + b == b;
    } else {
      ReasoningsAppend(a[1..], b);
      assert (a + b)[1..] == a[1..] + b && (a + b)[0] == a[0];
      var x := if a[0].AssistantReasoning? && !Blank(a[0].text) then [a[0].text] else [];
      assert x + (NonBlankReasonings(a[1..]) + NonBlankReasonings(b))
          == (x + NonBlankReasonings(a[1..])) + NonBlankReasonings(b);
    }
  }

  /** The scan collects what stands before the first result. */
  lemma {:induction false} TailCollects(
    s: seq<Item>, turn: string, expected: set<string>, seen: set<string>, saw: bool) returns (k: nat)
    ensures var r := ScanTail(s, turn, expected, seen, saw);
            && (saw ==> r.texts == [] && r.reasonings == [] && k == 0)
            && k <= |s| && r.texts == NonBlankTexts(s[..k]) && r.reasonings == NonBlankReasonings(s[..k])
            && (forall j :: 0 <= j < k ==> !s[j].ToolResult?)
            && (!saw && r.results != [] ==> k < |s| && s[k].ToolResult?)
    decreases |s|
  {
    k := 0;
    assert s[..0] == [];
    if s != [] && s[0].ToolResult? {
      var isNew := s[0].callId in expected && s[0].callId !in seen;
      var k' := TailCollects(s[1..], turn, expected, if isNew then seen + {s[0].callId} else seen, true);
    } else if s != [] && IsToolResultBridge(s[0], turn, saw) {
      var k' := TailCollects(s[1..], turn, expected, seen, saw);
      if !saw {
        k := k' + 1;
        PrefixCons(s, k');
        hide NonBlankTexts, NonBlankReasonings;
        TextsAppend([s[0]], s[1..][..k']);
        ReasoningsAppend([s[0]], s[1..][..k']);
      }
    }
  }

  lemma {:induction false} BridgeStartSays(items: seq<Item>, start: nat)
    requires start < |items|
    ensures var b := BridgeStart(items, start, items[start].turnId);
            && Leads(items, b, start)
            && (b > 0 ==> !Leads(items, b - 1, start))
  {
    BridgeSpan(items, start, start);
  }

  lemma {:induction false} BridgeSpan(items: seq<Item>, start: nat, k: nat)
    requires k <= start < |items| && Leads(items, k, start)
    ensures var b := BridgeStart(items, k, items[start].turnId);
            Leads(items, b, start) && (b > 0 ==> !Leads(items, b - 1, start))
    decreases k
  {
    if k > 0 && IsPreCallBridge(items[k - 1], items[start].turnId) {
      BridgeSpan(items, start, k - 1);
    }
  }

  lemma {:induction false} CallsCarryNone(calls: seq<Item>)
    requires forall c | c in calls :: c.ToolCall?
    ensures NonBlankTexts(calls) == [] && NonBlankReasonings(calls) == []
  {
    if calls != [] {
      assert calls[0] in calls;
      CallsCarryNone(calls[1..]);
    }
  }

  /** The call message carries the non-blank texts and, in thinking mode, the non-blank
      reasonings from the first item that leads to its run up to the first result. */
  lemma BlockCarries(items: seq<Item>, start: nat, thinking: bool) returns (b: nat, f: nat)
    requires start < |items| && items[start].ToolCall? && BlockAt(items, start, thinking).Some?
    ensures b <= start < f < |items| && Leads(items, b, start) && (b > 0 ==> !Leads(items, b - 1, start))
    ensures items[f].ToolResult? && forall k :: start <= k < f ==> !items[k].ToolResult?
    ensures var m := BlockAt(items, start, thinking).value.messages[0];
            var joined := JoinLines(NonBlankReasonings(items[b..f]));
            && m.Assistant? && m.texts == NonBlankTexts(items[b..f])
            && m.reasoning == if !thinking then None else if Blank(joined) then Some(" ") else Some(joined)
  {
    hide ScanTail, RunCalls, NonBlankTexts, NonBlankReasonings, JoinLines, Blank, BlockAt, BridgeStart, CallIds, Leads;
    var m, n, rest, tail := BlockParts(items, start, thinking);
    var turn, calls := items[start].turnId, RunCalls(items[start..]);
    var k := TailCollects(rest, turn, CallIds(calls), {}, false);
    b, f := BridgeStart(items, start, turn), start + n + k;
    BridgeStartSays(items, start);
    AfterRunCalls(items[start..]);
    var before, own := items[b..start], rest[..k];
    BlockItems(items, b, start, n, k);
    CallsCarryNone(calls);
    TextsAppend(before, calls + own);
    TextsAppend(calls, own);
    ReasoningsAppend(before, calls + own);
    ReasoningsAppend(calls, own);
    assert [] + NonBlankTexts(own) == NonBlankTexts(own) && [] + NonBlankReasonings(own) == NonBlankReasonings(own);
    assert rest[k] == items[f];
  }

  lemma BlockItems(items: seq<Item>, b: nat, start: nat, n: nat, k: nat)
    requires b <= start < |items| && start + n + k <= |items| && n == |RunCalls(items[start..])|
    requires items[start].ToolCall?
    requires forall j :: 0 <= j < k ==> !items[start..][n..][j].ToolResult?
    ensures n > 0 && items[b..start + n + k] == items[b..start] + (RunCalls(items[start..]) + items[start..][n..][..k])
    ensures forall j :: start <= j < start + n + k ==> !items[j].ToolResult?
  {
    var s := items[start..];
    var calls := RunCalls(s);
    AfterRunCalls(s);
    hide RunCalls;
    assert s[..n] == calls && s[..n] == items[start..start + n];
    assert s[n..][..k] == items[start + n..start + n + k];
    assert items[b..start + n + k] == items[b..start] + (items[start..start + n] + items[start + n..start + n + k]);
    forall j | start <= j < start + n + k ensures !items[j].ToolResult? {
      if j < start + n {
        assert s[..n][j - start] in calls;
      } else {
        assert s[n..][j - start - n] == items[j];
      }
    }
  }

  /** Parts are joined with one line break between any two of them. */
  lemma {:induction false} LinesJoin(part: string, a: seq<string>, b: seq<string>)
    ensures JoinLines([]) == "" && JoinLines([part]) == part
    ensures a != [] && b != [] ==> JoinLines(a + b) == JoinLines(a) + ("\n" + JoinLines(b))
    decreases |a|
  {
    if |a| > 1 && b != [] {
      LinesJoin(part, a[1..], b);
      assert (a + b)[0] == a[0] && (a + b)[1..] == a[1..] + b;
      var lead := a[0] + "\n";
      assert lead + (JoinLines(a[1..]) + ("\n" + JoinLines(b))) == (lead + JoinLines(a[1..])) + ("\n" + JoinLines(b));
    } else if |a| == 1 && b != [] {
      assert (a + b)[0] == a[0] && (a + b)[1..] == b;
      assert (a[0] + "\n") + JoinLines(b) == a[0] + ("\n" + JoinLines(b));
    }
  }

  /** The first signature of a reasoning from `b` up to `start`, empty when none has one. */
  predicate FirstSigned(items: seq<Item>, b: nat, start: nat, signature: string)
    requires start <= |items|
  {
    if signature == "" then forall j :: b <= j < start && items[j].AssistantReasoning? ==> items[j].signature == ""
    else
      exists j :: b <= j < start && items[j].AssistantReasoning? && items[j].signature == signature
               && forall k :: b <= k < j && items[k].AssistantReasoning? ==> items[k].signature == ""
  }

  /** In thinking mode the call message is signed by the first reasoning leading to it that
      has a signature. */
  lemma BlockSigned(items: seq<Item>, start: nat, thinking: bool) returns (b: nat)
    requires start < |items| && items[start].ToolCall? && BlockAt(items, start, thinking).Some?
    ensures b <= start && Leads(items, b, start) && (b > 0 ==> !Leads(items, b - 1, start))
    ensures var m := BlockAt(items, start, thinking).value.messages[0];
            m.Assistant? && if thinking then FirstSigned(items, b, start, m.signature) else m.signature == ""
  {
    hide ScanTail, RunCalls, NonBlankTexts, NonBlankReasonings, JoinLines, Blank, BridgeStart, CallIds, Leads, ToWires,
      ToTools, Signature, FirstSigned;
    b := BridgeStart(items, start, items[start].turnId);
    BridgeStartSays(items, start);
    SignatureIsFirst(items, b, start);
  }

  lemma {:induction false} SignatureIsFirst(items: seq<Item>, b: nat, start: nat)
    requires b <= start < |items| && Leads(items, b, start)
    ensures FirstSigned(items, b, start, Signature(items[b..start], items[start].turnId))
    decreases start - b
  {
    if b < start {
      var s := items[b..start];
      assert s[0] == items[b] && s[1..] == items[b + 1..start];
      SignatureIsFirst(items, b + 1, start);
      var turn := items[start].turnId;
      var signature := Signature(s[1..], turn);
      assert items[b].turnId == turn;
      if items[b].AssistantReasoning? && items[b].signature != "" {
        assert Signature(s, turn) == items[b].signature;
      } else if signature != "" {
        var j :| b + 1 <= j < start && items[j].AssistantReasoning? && items[j].signature == signature
          && forall k :: b + 1 <= k < j && items[k].AssistantReasoning? ==> items[k].signature == "";
        assert b <= j < start && items[j].AssistantReasoning? && items[j].signature == signature;
      }
    } else {
      assert items[b..start] == [];
    }
  }

  /** The message carries reasoning exactly in thinking mode, a space where there is none. */
  predicate Thinks(m: ChatMessage, thinking: bool) {
    m.Assistant? ==>
      && (m.reasoning.Some? <==> thinking) && (!thinking ==> m.signature == "")
      && (m.reasoning.Some? && Blank(m.reasoning.value) ==> m.reasoning == Some(" "))
  }

  lemma OnlyTools(results: seq<Item>)
    requires forall r | r in results :: r.ToolResult?
    ensures forall m | m in ToTools(results) :: m.Tool?
  {
    if results != [] { OnlyTools(results[1..]); }
  }

  lemma BlockThinks(items: seq<Item>, start: nat, thinking: bool)
    requires start < |items| && items[start].ToolCall? && BlockAt(items, start, thinking).Some?
    ensures forall m | m in BlockAt(items, start, thinking).value.messages :: Thinks(m, thinking)
  {
    hide ScanTail, RunCalls, NonBlankTexts, NonBlankReasonings, JoinLines, BridgeStart, CallIds, ResultIds;
    hide Blank, ToWires, ToTools, Signature;
    var s := items[start..];
    OnlyTools(ScanTail(s[|RunCalls(s)|..], items[start].turnId, CallIds(RunCalls(s)), {}, false).results);
  }

  /** Every message does. */
  lemma {:induction false} ThinkingThroughout(items: seq<Item>, i: nat, thinking: bool)
    requires i <= |items|
    ensures forall m | m in Render(items, i, thinking) :: Thinks(m, thinking)
    decreases |items| - i
  {
    hide BlockAt, IsBridgeBeforeCall, Blank;
    if i < |items| {
      ThinkingThroughout(items, i + 1, thinking);
      if items[i].ToolCall? {
        NoBridge(items, i);
        if BlockAt(items, i, thinking).Some? {
          BlockThinks(items, i, thinking);
          ThinkingThroughout(items, BlockAt(items, i, thinking).value.next, thinking);
        }
      } else if i + 1 < |items| {
        ThinkingThroughout(items, i + 2, thinking);
      }
    }
  }

  /** In thinking mode a reasoning and the text of its turn right behind it are one message. */
  lemma ReasoningMerges(items: seq<Item>, i: nat)
    requires i + 1 < |items| && items[i].AssistantReasoning? && items[i + 1].AssistantText?
    requires items[i].turnId == items[i + 1].turnId && !IsBridgeBeforeCall(items, i)
    ensures Render(items, i, true) ==
      [Assistant([items[i + 1].text], Some(if Blank(items[i].text) then " " else items[i].text),
                 items[i].signature, [])]
      + Render(items, i + 2, true)
  {
    RenderPlain(items, i, true);
  }

  // ----- Repair and rendering together -----

  lemma {:induction false} SpokenIgnoresTools(s: seq<Item>)
    ensures Spoken(HR.NonTool(s)) == Spoken(s)
  {
    if s != [] {
      SpokenIgnoresTools(s[1..]);
      var rest := HR.NonTool(s[1..]);
      assert ([s[0]] + rest)[1..] == rest && [] + rest == rest;
      assert [] + Spoken(s[1..]) == Spoken(s[1..]);
    }
  }

  /** Every user message and every non-blank assistant text of the original items
      is rendered exactly once and in order; every call message is answered one to
      one, so that healing has nothing left to do; and the calls, outputs and notes of
      what repair keeps are told exactly once and in order. */
  lemma RepairedRenders(items: seq<Item>, thinking: bool)
    requires HR.Anchored(HR.Idle, items)
    ensures var ms := Render(HR.Repaired(items), 0, thinking);
            && WellPaired(ms) && Heal(ms) == ms
            && Uttered(ms) == Spoken(items) && Deeds(ms) == DeedsOf(HR.Repaired(items))
  {
    hide Render, WellPaired, Heal, Uttered, Spoken, HR.Fix, HR.Legal, HR.Anchored;
    var r := HR.Repaired(items);
    HR.IdempotentIffAnchored(items);
    assert r[0..] == r;
    LegalRendersPaired(r, 0, thinking);
    var ms := Render(r, 0, thinking);
    WellPairedIsHealthy(ms);
    UnchangedIffHealthy(ms);
    RenderSays(r, 0, thinking);
    RenderDelivers(r, 0, thinking);
    assert [] + Spoken(r) == Spoken(r);
    HR.RepairKeepsTheRest(HR.Idle, items);
    SpokenIgnoresTools(items);
    SpokenIgnoresTools(r);
  }

  /** In a repaired history no run of calls fails to render. */
  lemma NoBlockLost(items: seq<Item>, i: nat, thinking: bool)
    requires HR.Legal(HR.Idle, items)
    requires i < |items| && items[i].ToolCall? && (i == 0 || !items[i - 1].ToolCall?)
    ensures BlockAt(items, i, thinking).Some?
  {
    HR.LegalAt(items, i);
    HR.InRunIff(items, i);
    LegalBlock(items, i, thinking);
  }

  // ----- The loops of the source -----

  method IsBridgeItemBeforeToolCall(items: seq<Item>, index: nat) returns (b: bool)
    requires index < |items|
    ensures b == IsBridgeBeforeCall(items, index)
  {
    var item := items[index];
    if !item.AssistantReasoning? && !item.AssistantText? {
      return false;
    }
    var cursor := index + 1;
    while cursor < |items|
      invariant index < cursor <= |items|
      invariant ReachesCall(items, cursor, item.turnId) == ReachesCall(items, index + 1, item.turnId)
    {
      var next := items[cursor];
      if IsPreCallBridge(next, item.turnId) {
        cursor := cursor + 1;
        continue;
      }
      return next.ToolCall? && next.turnId == item.turnId;
    }
    return false;
  }

  /** The calls of the run at `startIndex`. */
  method CollectCalls(items: seq<Item>, startIndex: nat) returns (calls: seq<Item>, index: nat)
    requires startIndex < |items| && items[startIndex].ToolCall?
    ensures calls == RunCalls(items[startIndex..]) && index == startIndex + |calls|
  {
    calls, index := [], startIndex;
    while index < |items| && items[index].ToolCall?
      invariant startIndex <= index <= |items| && index == startIndex + |calls|
      invariant calls + RunCalls(items[index..]) == RunCalls(items[startIndex..])
    {
      assert items[index..][0] == items[index] && items[index..][1..] == items[index + 1..];
      calls := calls + [items[index]];
      index := index + 1;
    }
  }

  /** The look-behind: bridge items before `startIndex`, oldest first. */
  method CollectBridge(items: seq<Item>, startIndex: nat, turnId: string)
    returns (texts: seq<string>, reasonings: seq<string>, bridgeStart: nat)
    requires startIndex <= |items|
    ensures bridgeStart == BridgeStart(items, startIndex, turnId)
    ensures texts == NonBlankTexts(items[bridgeStart..startIndex])
    ensures reasonings == NonBlankReasonings(items[bridgeStart..startIndex])
  {
    hide Blank;
    texts, reasonings, bridgeStart := [], [], startIndex;
    while bridgeStart > 0
      invariant bridgeStart <= startIndex
      invariant BridgeStart(items, bridgeStart, turnId) == BridgeStart(items, startIndex, turnId)
      invariant texts == NonBlankTexts(items[bridgeStart..startIndex])
      invariant reasonings == NonBlankReasonings(items[bridgeStart..startIndex])
    {
      var item := items[bridgeStart - 1];
      if !IsPreCallBridge(item, turnId) {
        break;
      }
      assert items[bridgeStart - 1..startIndex][0] == item;
      assert items[bridgeStart - 1..startIndex][1..] == items[bridgeStart..startIndex];
      if item.AssistantText? && !Blank(item.text) {
        texts := [item.text] + texts;
      } else if item.AssistantReasoning? && !Blank(item.text) {
        reasonings := [item.text] + reasonings;
      }
      bridgeStart := bridgeStart - 1;
    }
  }

  lemma ResultIdsSnoc(results: seq<Item>, x: Item)
    requires x.ToolResult? && forall r | r in results :: r.ToolResult?
    ensures ResultIds(results + [x]) == ResultIds(results) + {x.callId}
  {
    if results != [] {
      assert (results + [x])[1..] == results[1..] + [x];
    }
  }

  /** `done` has been collected and `rest` is still to come. */
  function Joined(done: Tail, rest: Tail): Tail {
    Tail(done.texts + rest.texts, done.reasonings + rest.reasonings, done.results + rest.results, done.used + rest.used)
  }

  /** One turn of the scan: what is collected for the first item, and the rest. */
  lemma ScanStep(s: seq<Item>, turn: string, expected: set<string>, seen: set<string>, saw: bool, done: Tail)
    ensures var all := Joined(done, ScanTail(s, turn, expected, seen, saw));
            if s == [] then all == done
            else
              var x := s[0];
              if x.ToolResult? && x.callId in expected && x.callId !in seen then
                all == Joined(done.(results := done.results + [x], used := done.used + 1),
                              ScanTail(s[1..], turn, expected, seen + {x.callId}, true))
              else if x.ToolResult? then
                all == Joined(done.(used := done.used + 1), ScanTail(s[1..], turn, expected, seen, true))
              else if IsToolResultBridge(x, turn, saw) then
                all == Joined(if saw then done.(used := done.used + 1)
                              else done.(texts := done.texts + NonBlankTexts([x]),
                                         reasonings := done.reasonings + NonBlankReasonings([x]),
                                         used := done.used + 1),
                              ScanTail(s[1..], turn, expected, seen, saw))
              else all == done
  {
    hide NonBlankTexts, NonBlankReasonings;
  }

  lemma OneNonBlank(x: Item)
    ensures NonBlankTexts([x]) == if x.AssistantText? && !Blank(x.text) then [x.text] else []
    ensures NonBlankReasonings([x]) == if x.AssistantReasoning? && !Blank(x.text) then [x.text] else []
  {
    assert [x][1..] == [];
  }

  /** The scan behind a run. */
  method CollectTail(items: seq<Item>, startIndex: nat, turnId: string, expected: set<string>)
    returns (tail: Tail, seen: set<string>)
    requires startIndex <= |items|
    ensures tail == ScanTail(items[startIndex..], turnId, expected, {}, false)
    ensures seen == ResultIds(tail.results)
  {
    hide ScanTail, Blank, NonBlankTexts, NonBlankReasonings;
    tail, seen := Tail([], [], [], 0), {};
    var sawResult := false;
    var index := startIndex;
    ghost var all := ScanTail(items[startIndex..], turnId, expected, {}, false);
    while index < |items|
      invariant startIndex <= index <= |items| && index == startIndex + tail.used
      invariant forall x | x in tail.results :: x.ToolResult?
      invariant seen == ResultIds(tail.results)
      invariant all == Joined(tail, ScanTail(items[index..], turnId, expected, seen, sawResult))
    {
      var item := items[index];
      assert items[index..][0] == item && items[index..][1..] == items[index + 1..];
      ScanStep(items[index..], turnId, expected, seen, sawResult, tail);
      OneNonBlank(item);
      if item.ToolResult? {
        sawResult := true;
        if item.callId in expected && item.callId !in seen {
          ResultIdsSnoc(tail.results, item);
          seen := seen + {item.callId};
          tail := tail.(results := tail.results + [item]);
        }
      } else if IsToolResultBridge(item, turnId, sawResult) {
        if !sawResult {
          if item.AssistantText? && !Blank(item.text) {
            tail := tail.(texts := tail.texts + [item.text]);
          } else if item.AssistantReasoning? && !Blank(item.text) {
            tail := tail.(reasonings := tail.reasonings + [item.text]);
          }
        }
      } else {
        return;
      }
      tail := tail.(used := tail.used + 1);
      index := index + 1;
    }
    ScanStep(items[index..], turnId, expected, seen, sawResult, tail);
  }

  method ToolCallBlockToMessages(items: seq<Item>, startIndex: nat, thinking: bool) returns (block: Option<Block>)
    requires startIndex < |items| && items[startIndex].ToolCall?
    ensures block == BlockAt(items, startIndex, thinking)
  {
    hide ScanTail, RunCalls, NonBlankTexts, NonBlankReasonings, JoinLines, Blank, BridgeStart;
    var calls, index := CollectCalls(items, startIndex);
    var turnId := items[startIndex].turnId;
    var texts, reasonings, bridgeStart := CollectBridge(items, startIndex, turnId);
    assert items[startIndex..][|calls|..] == items[index..];
    var tail, seen := CollectTail(items, index, turnId, CallIds(calls));
    if !(CallIds(calls) <= seen) {
      return None;
    }
    texts, reasonings := texts + tail.texts, reasonings + tail.reasonings;
    var assistant := Assistant(texts,
                               if thinking then Some(OrSpace(JoinLines(reasonings))) else None,
                               if thinking then Signature(items[bridgeStart..startIndex], turnId) else "",
                               ToWires(calls));
    return Some(Block([assistant] + ToTools(tail.results), index + tail.used));
  }

  /** What the loop over the items does with one of them. */
  lemma RenderStep(items: seq<Item>, i: nat, thinking: bool)
    requires i <= |items|
    ensures Render(items, i, thinking)
            == if i == |items| then []
               else if IsBridgeBeforeCall(items, i) then Render(items, i + 1, thinking)
               else if MergesWithNext(items, i, thinking) then [Merged(items, i)] + Render(items, i + 2, thinking)
               else if items[i].ToolCall? then
                 (match BlockAt(items, i, thinking)
                  case Some(b) => b.messages + Render(items, b.next, thinking)
                  case None => Render(items, i + 1, thinking))
               else if items[i].ToolResult? then Render(items, i + 1, thinking)
               else ItemToMessage(items[i], thinking) + Render(items, i + 1, thinking)
    ensures i < |items| && items[i].AssistantReasoning? ==> ItemToMessage(items[i], thinking) == []
  {
    hide IsBridgeBeforeCall, BlockAt;
    if i < |items| { assert [] + Render(items, i + 1, thinking) == Render(items, i + 1, thinking); }
  }

  method ItemsToMessages(items: seq<Item>, thinking: bool) returns (out: seq<ChatMessage>)
    ensures out == Render(items, 0, thinking)
  {
    hide BlockAt, IsBridgeBeforeCall, Render, ItemToMessage, Blank;
    RenderStep(items, |items|, thinking);
    out := [];
    var index := 0;
    while index < |items|
      invariant 0 <= index <= |items|
      invariant out + Render(items, index, thinking) == Render(items, 0, thinking)
    {
      var item := items[index];
      RenderStep(items, index, thinking);
      var bridge := IsBridgeItemBeforeToolCall(items, index);
      if bridge {
        index := index + 1;
        continue;
      }
      if thinking && item.AssistantReasoning? {
        if index + 1 < |items| && items[index + 1].AssistantText? && items[index + 1].turnId == item.turnId {
          out := out + [Assistant([items[index + 1].text], Some(OrSpace(item.text)), item.signature, [])];
          index := index + 1;
        }
      } else if item.ToolCall? {
        var block := ToolCallBlockToMessages(items, index, thinking);
        if block.Some? {
          out := out + block.value.messages;
          index := block.value.next - 1;
        }
      } else if !item.ToolResult? {
        out := out + ItemToMessage(item, thinking);
      }
      index := index + 1;
    }
  }

  lemma HealStep(ms: seq<ChatMessage>, i: nat)
    requires i <= |ms|
    ensures Heal(ms[i..])
            == if i == |ms| then []
               else if ms[i].Tool? then Heal(ms[i + 1..])
               else if IsCallMessage(ms[i]) then
                 var tools := LeadingTools(ms[i + 1..]);
                 var results := Expected(tools, WireIds(ms[i].calls));
                 (if WireIds(ms[i].calls) <= ToolIds(results) then [ms[i]] + results else [])
                 + Heal(ms[i + 1 + |tools|..])
               else [ms[i]] + Heal(ms[i + 1..])
  {
    hide LeadingTools, Expected, WireIds, ToolIds;
    var rest := ms[i..];
    if i < |ms| {
      assert rest[0] == ms[i] && rest[1..] == ms[i + 1..];
      if IsCallMessage(ms[i]) {
        var n := |LeadingTools(rest[1..])|;
        assert rest[1 + n..] == ms[i + 1 + n..];
      }
    }
  }

  method HealToolMessagePairs(messages: seq<ChatMessage>) returns (healed: seq<ChatMessage>)
    ensures healed == Heal(messages)
  {
    hide WireIds, Heal, Expected, ToolIds, LeadingTools;
    assert messages[0..] == messages;
    healed := [];
    var i := 0;
    while i < |messages|
      invariant 0 <= i <= |messages|
      invariant healed + Heal(messages[i..]) == Heal(messages)
    {
      var message := messages[i];
      HealStep(messages, i);
      if message.Tool? {
        i := i + 1;
      } else if IsCallMessage(message) {
        var results, j := CollectTools(messages, i + 1, WireIds(message.calls));
        if WireIds(message.calls) <= ToolIds(results) {
          healed := healed + ([message] + results);
        }
        i := j;
      } else {
        healed := healed + [message];
        i := i + 1;
      }
    }
    HealStep(messages, |messages|);
  }

  lemma OneMoreTool(messages: seq<ChatMessage>, j: nat, ids: set<string>)
    requires j < |messages| && messages[j].Tool?
    ensures var now, next := LeadingTools(messages[j..]), LeadingTools(messages[j + 1..]);
            && |now| == 1 + |next|
            && Expected(now, ids) == (if messages[j].callId in ids then [messages[j]] else []) + Expected(next, ids)
  {
    assert messages[j..][0] == messages[j] && messages[j..][1..] == messages[j + 1..];
    assert LeadingTools(messages[j..])[1..] == LeadingTools(messages[j + 1..]);
  }

  /** The tool messages from `start` on whose id is expected. */
  method CollectTools(messages: seq<ChatMessage>, start: nat, ids: set<string>)
    returns (results: seq<ChatMessage>, j: nat)
    requires start <= |messages|
    ensures j == start + |LeadingTools(messages[start..])|
    ensures results == Expected(LeadingTools(messages[start..]), ids)
  {
    results, j := [], start;
    while j < |messages| && messages[j].Tool?
      invariant start <= j <= |messages|
      invariant j + |LeadingTools(messages[j..])| == start + |LeadingTools(messages[start..])|
      invariant results + Expected(LeadingTools(messages[j..]), ids) == Expected(LeadingTools(messages[start..]), ids)
    {
      OneMoreTool(messages, j, ids);
      hide LeadingTools, Expected;
      if messages[j].callId in ids {
        results := results + [messages[j]];
      }
      j := j + 1;
    }
  }
}
