/** The items of a thread, kept twice: as an append-only log that is folded on
    load, and as a list updated in place.  The two stores must agree. */
module SessionLog {

  import opened Wrappers

  /** An item: its id, and its other fields by name. */
  datatype Item = Item(id: string, fields: map<string, string>)

  type Patch = map<string, string>

  function Merged(item: Item, patch: Patch): Item {
    item.(fields := item.fields + patch)
  }

  datatype Op =
    | Append(item: Item)
    | AppendOnce(item: Item)
    | Update(id: string, patch: Patch)
    | UpdateOnce(id: string, patch: Patch)
    | Rewrite(items: seq<Item>)

  datatype Reply =
    | Ack
    | Missing
    | Current(item: Item)
    | Once(item: Item, changed: bool)

  // ----- Folding the log -----

  /** The position of the first item with the id. */
  function Find(items: seq<Item>, id: string): (r: Option<nat>)
    ensures r.Some? ==> r.value < |items| && items[r.value].id == id
  {
    if items == [] then None
    else if items[0].id == id then Some(0)
    else
      match Find(items[1..], id)
      case None => None
      case Some(i) => Some(i + 1)
  }

  /** The last write of an id in the log. */
  function LastWrite(log: seq<Item>, id: string): Option<Item> {
    if log == [] then None
    else if log[|log| - 1].id == id then Some(log[|log| - 1])
    else LastWrite(log[..|log| - 1], id)
  }

  /** The ids in the order of their first write. */
  function FirstIds(log: seq<Item>): seq<string> {
    if log == [] then []
    else
      var front, id := FirstIds(log[..|log| - 1]), log[|log| - 1].id;
      if id in front then front else front + [id]
  }

  function Collect(ids: seq<string>, log: seq<Item>): seq<Item> {
    if ids == [] then []
    else
      match LastWrite(log, ids[0])
      case Some(item) => [item] + Collect(ids[1..], log)
      case None => Collect(ids[1..], log)
  }

  /** What loading returns: ids in first-write order, each with its last write. */
  function Loaded(log: seq<Item>): seq<Item> {
    Collect(FirstIds(log), log)
  }

  method LoadItems(raw: seq<Item>) returns (items: seq<Item>)
    ensures items == Loaded(raw)
  {
    var latestById: map<string, Item> := map[];
    var order: seq<string> := [];
    for i := 0 to |raw|
      invariant order == FirstIds(raw[..i])
      invariant forall id :: id in latestById <==> LastWrite(raw[..i], id).Some?
      invariant forall id :: id in latestById ==> LastWrite(raw[..i], id) == Some(latestById[id])
      invariant forall id :: id in latestById <==> id in order
    {
      assert raw[..i + 1][..i] == raw[..i];
      var item := raw[i];
      if item.id !in latestById {
        order := order + [item.id];
      }
      latestById := latestById[item.id := item];
    }
    assert raw[..|raw|] == raw;
    items := [];
    for k := 0 to |order|
      invariant items + Collect(order[k..], raw) == Loaded(raw)
    {
      assert order[k..][0] == order[k] && order[k..][1..] == order[k + 1..];
      assert order[k] in order;
      items := items + [latestById[order[k]]];
    }
  }

  // ----- The two stores -----

  function LogStep(log: seq<Item>, op: Op): (seq<Item>, Reply) {
    match op
    case Append(item) => (log + [item], Ack)
    case AppendOnce(item) =>
      (match LastWrite(log, item.id)
       case Some(existing) => (log, Once(existing, false))
       case None => (log + [item], Once(item, true)))
    case Update(id, patch) =>
      (match Find(Loaded(log), id)
       case Some(i) => (log + [Merged(Loaded(log)[i], patch)], Current(Merged(Loaded(log)[i], patch)))
       case None => (log, Missing))
    case UpdateOnce(id, patch) =>
      (match LastWrite(log, id)
       case Some(current) =>
         if Merged(current, patch) == current then (log, Once(current, false))
         else (log + [Merged(current, patch)], Once(Merged(current, patch), true))
       case None => (log, Missing))
    case Rewrite(items) => (items, Ack)
  }

  /** Every item with the id becomes `item`. */
  function Replace(items: seq<Item>, item: Item): seq<Item> {
    if items == [] then []
    else [if items[0].id == item.id then item else items[0]] + Replace(items[1..], item)
  }

  function Put(items: seq<Item>, item: Item): seq<Item> {
    if Find(items, item.id).Some? then Replace(items, item) else items + [item]
  }

  /** Every item with the id takes the patch. */
  function Patched(items: seq<Item>, id: string, patch: Patch): seq<Item> {
    if items == [] then []
    else [if items[0].id == id then Merged(items[0], patch) else items[0]] + Patched(items[1..], id, patch)
  }

  function MemoryStep(items: seq<Item>, op: Op): (seq<Item>, Reply) {
    match op
    case Append(item) => (Put(items, item), Ack)
    case AppendOnce(item) =>
      (match Find(items, item.id)
       case Some(i) => (items, Once(items[i], false))
       case None => (Put(items, item), Once(item, true)))
    case Update(id, patch) =>
      (match LastWrite(items, id)
       case Some(item) => (Patched(items, id, patch), Current(Merged(item, patch)))
       case None => (items, Missing))
    case UpdateOnce(id, patch) =>
      (match Find(items, id)
       case Some(i) =>
         if Merged(items[i], patch) == items[i] then (items, Once(items[i], false))
         else (Patched(items, id, patch), Once(Merged(LastWrite(items, id).GetOr(items[i]), patch), true))
       case None => (items, Missing))
    case Rewrite(others) => (others, Ack)
  }

  // ----- The fold agrees with the list updated in place -----

  function Ids(items: seq<Item>): seq<string> {
    if items == [] then [] else [items[0].id] + Ids(items[1..])
  }

  lemma LastWriteSnoc(log: seq<Item>, x: Item, id: string)
    ensures LastWrite(log + [x], id) == if x.id == id then Some(x) else LastWrite(log, id)
  {
    assert (log + [x])[..|log|] == log;
  }

  lemma LastWriteId(log: seq<Item>, id: string)
    ensures LastWrite(log, id).Some? ==> LastWrite(log, id).value.id == id
    ensures LastWrite(log, id).Some? <==> id in FirstIds(log)
  {
  }

  lemma {:induction false} CollectIds(ids: seq<string>, log: seq<Item>)
    requires forall id | id in ids :: id in FirstIds(log)
    ensures Ids(Collect(ids, log)) == ids
  {
    if ids != [] {
      assert ids[0] in ids;
      LastWriteId(log, ids[0]);
      var item, rest := LastWrite(log, ids[0]).value, Collect(ids[1..], log);
      CollectIds(ids[1..], log);
      assert ([item] + rest)[1..] == rest;
      assert ids == [ids[0]] + ids[1..];
    }
  }

  lemma FindIffId(items: seq<Item>, id: string)
    ensures Find(items, id).Some? <==> id in Ids(items)
  {
  }

  lemma {:induction false} CollectSnoc(ids: seq<string>, log: seq<Item>, x: Item)
    requires forall id | id in ids :: id in FirstIds(log)
    ensures Collect(ids, log + [x]) == Replace(Collect(ids, log), x)
  {
    if ids != [] {
      assert ids[0] in ids;
      LastWriteId(log, ids[0]);
      LastWriteSnoc(log, x, ids[0]);
      CollectSnoc(ids[1..], log, x);
      var item, rest := LastWrite(log, ids[0]).value, Collect(ids[1..], log);
      assert ([item] + rest)[1..] == rest;
    }
  }

  lemma {:induction false} CollectOneMore(ids: seq<string>, id: string, log: seq<Item>)
    requires LastWrite(log, id).Some?
    ensures Collect(ids + [id], log) == Collect(ids, log) + [LastWrite(log, id).value]
  {
    if ids == [] {
      assert [id][1..] == [] && [] + [id] == [id];
    } else {
      CollectOneMore(ids[1..], id, log);
      assert (ids + [id])[1..] == ids[1..] + [id];
    }
  }

  lemma ReplaceAbsent(items: seq<Item>, x: Item)
    requires x.id !in Ids(items)
    ensures Replace(items, x) == items
  {
  }

  lemma LoadedIds(log: seq<Item>)
    ensures Ids(Loaded(log)) == FirstIds(log) && Distinct(Ids(Loaded(log)))
  {
    CollectIds(FirstIds(log), log);
  }

  /** Appending one item to the log is putting it into the loaded list. */
  lemma LoadedSnoc(log: seq<Item>, x: Item)
    ensures Loaded(log + [x]) == Put(Loaded(log), x)
  {
    hide Collect, Replace, LastWrite, Find;
    var ids := FirstIds(log);
    assert (log + [x])[..|log|] == log;
    CollectSnoc(ids, log, x);
    LoadedIds(log);
    FindIffId(Loaded(log), x.id);
    if x.id !in ids {
      LastWriteSnoc(log, x, x.id);
      CollectOneMore(ids, x.id, log + [x]);
      ReplaceAbsent(Loaded(log), x);
    }
  }

  lemma {:induction false} IdAt(items: seq<Item>, i: nat)
    requires i < |items|
    ensures |Ids(items)| == |items| && Ids(items)[i] == items[i].id
  {
    if i > 0 {
      IdAt(items[1..], i - 1);
    } else if |items| > 1 {
      IdAt(items[1..], 0);
    }
  }

  lemma {:induction false} OneFound(items: seq<Item>, i: nat)
    requires Distinct(Ids(items)) && i < |items|
    ensures Find(items, items[i].id) == Some(i)
  {
    IdAt(items, i);
    if i > 0 {
      IdAt(items, 0);
      assert Ids(items)[1..] == Ids(items[1..]);
      OneFound(items[1..], i - 1);
    }
  }

  lemma {:induction false} OneWritten(items: seq<Item>, i: nat)
    requires Distinct(Ids(items)) && i < |items|
    ensures LastWrite(items, items[i].id) == Some(items[i])
    decreases |items|
  {
    var n := |items| - 1;
    IdAt(items, i);
    IdAt(items, n);
    if i < n {
      IdsFront(items);
      assert items[..n][i] == items[i];
      OneWritten(items[..n], i);
    }
  }

  lemma {:induction false} IdsFront(items: seq<Item>)
    requires items != []
    ensures Ids(items[..|items| - 1]) == Ids(items)[..|Ids(items)| - 1] && |Ids(items)| > 0
  {
    if |items| == 1 {
      assert items[1..] == [] && items[..0] == [];
    } else {
      IdsFront(items[1..]);
      assert items[..|items| - 1][1..] == items[1..][..|items| - 2];
    }
  }

  lemma {:induction false} FoundIsLastWrite(log: seq<Item>, id: string)
    ensures match Find(Loaded(log), id)
            case Some(i) => LastWrite(log, id) == Some(Loaded(log)[i])
            case None => LastWrite(log, id).None?
  {
    LoadedIds(log);
    FindIffId(Loaded(log), id);
    LastWriteId(log, id);
    if Find(Loaded(log), id).Some? {
      FoundInCollect(FirstIds(log), log, id);
    }
  }

  lemma CollectStep(ids: seq<string>, log: seq<Item>)
    ensures Collect(ids, log) ==
            if ids == [] then []
            else
              match LastWrite(log, ids[0])
              case Some(item) => [item] + Collect(ids[1..], log)
              case None => Collect(ids[1..], log)
  {
  }

  lemma FindFirst(item: Item, rest: seq<Item>, id: string)
    ensures Find([], id) == None
    ensures Find([item] + rest, id) ==
      if item.id == id then Some(0)
      else match Find(rest, id) case None => None case Some(i) => Some(i + 1)
  {
    assert ([item] + rest)[1..] == rest;
  }

  lemma {:induction false} FoundInCollect(ids: seq<string>, log: seq<Item>, id: string)
    requires Find(Collect(ids, log), id).Some?
    ensures LastWrite(log, id) == Some(Collect(ids, log)[Find(Collect(ids, log), id).value])
  {
    hide LastWrite, Collect, Find;
    CollectStep(ids, log);
    if ids == [] {
      FindFirst(Item(id, map[]), [], id);
    } else {
      LastWriteId(log, ids[0]);
      if LastWrite(log, ids[0]).Some? {
        FindFirst(LastWrite(log, ids[0]).value, Collect(ids[1..], log), id);
        if LastWrite(log, ids[0]).value.id != id { FoundInCollect(ids[1..], log, id); }
      } else {
        FoundInCollect(ids[1..], log, id);
      }
    }
  }

  lemma {:induction false} PatchedIsReplaced(items: seq<Item>, item: Item, patch: Patch)
    requires forall x | x in items && x.id == item.id :: x == item
    ensures Patched(items, item.id, patch) == Replace(items, Merged(item, patch))
  {
    if items != [] {
      PatchedIsReplaced(items[1..], item, patch);
    }
  }

  /** Rewriting the log with distinct items loads them as they are. */
  lemma {:induction false} LoadedDistinct(items: seq<Item>)
    requires Distinct(Ids(items))
    ensures Loaded(items) == items
    decreases |items|
  {
    if items != [] {
      var n := |items| - 1;
      IdsFront(items);
      LoadedDistinct(items[..n]);
      assert items == items[..n] + [items[n]];
      LoadedSnoc(items[..n], items[n]);
      OneFound(items, n);
      FindPrefix(items[..n], items[n]);
    }
  }

  lemma {:induction false} FindPrefix(front: seq<Item>, x: Item)
    requires Find(front + [x], x.id) == Some(|front|)
    ensures Find(front, x.id).None?
  {
    if front != [] {
      assert (front + [x])[0] == front[0] && (front + [x])[1..] == front[1..] + [x];
      FindPrefix(front[1..], x);
    }
  }

  predicate Proper(op: Op) {
    op.Rewrite? ==> Distinct(Ids(op.items))
  }

  /** One operation keeps the two stores in agreement and answers the same. */
  lemma StepAgrees(log: seq<Item>, op: Op)
    requires Proper(op)
    ensures var (log', reply) := LogStep(log, op);
            MemoryStep(Loaded(log), op) == (Loaded(log'), reply)
  {
    hide Loaded, LastWrite, Find, Replace, Patched, Ids;
    var items := Loaded(log);
    LoadedIds(log);
    match op {
      case Append(item) =>
        LoadedSnoc(log, item);
      case AppendOnce(item) =>
        FoundIsLastWrite(log, item.id);
        LoadedSnoc(log, item);
      case Update(id, patch) =>
        UpdateAgrees(log, id, patch);
      case UpdateOnce(id, patch) =>
        UpdateAgrees(log, id, patch);
      case Rewrite(others) =>
        LoadedDistinct(others);
    }
  }

  lemma UpdateAgrees(log: seq<Item>, id: string, patch: Patch)
    ensures var items := Loaded(log);
            match Find(items, id)
            case Some(i) =>
              && LastWrite(log, id) == Some(items[i]) && LastWrite(items, id) == Some(items[i])
              && Loaded(log + [Merged(items[i], patch)]) == Patched(items, id, patch)
            case None => LastWrite(log, id).None? && LastWrite(items, id).None?
  {
    hide Loaded, Replace, Patched;
    var items := Loaded(log);
    LoadedIds(log);
    FoundIsLastWrite(log, id);
    match Find(items, id) {
      case Some(i) =>
        var item := items[i];
        OneFound(items, i);
        OneWritten(items, i);
        forall x | x in items && x.id == id ensures x == item {
          var j :| 0 <= j < |items| && items[j] == x;
          OneFound(items, j);
        }
        PatchedIsReplaced(items, item, patch);
        LoadedSnoc(log, Merged(item, patch));
      case None =>
        FindIffId(items, id);
        LastWriteId(items, id);
        FirstIdsOfDistinct(items);
    }
  }

  lemma {:induction false} FirstIdsOfDistinct(items: seq<Item>)
    requires Distinct(Ids(items))
    ensures FirstIds(items) == Ids(items)
  {
    LoadedDistinct(items);
    LoadedIds(items);
  }

  // ----- What each operation does, read off the raw log -----

  /** The newer item is the older one with the patch's fields over its own. */
  ghost predicate Takes(newer: Item, older: Item, patch: Patch) {
    && newer.id == older.id
    && (forall f :: f in newer.fields <==> f in older.fields || f in patch)
    && (forall f | f in patch :: newer.fields[f] == patch[f])
    && (forall f | f in older.fields && f !in patch :: newer.fields[f] == older.fields[f])
  }

  predicate FirstAt(log: seq<Item>, id: string, k: nat) {
    k < |log| && log[k].id == id && forall j :: 0 <= j < k ==> log[j].id != id
  }

  predicate LastAt(log: seq<Item>, id: string, k: nat) {
    k < |log| && log[k].id == id && forall j :: k < j < |log| ==> log[j].id != id
  }

  lemma {:induction false} LastAtIsWritten(log: seq<Item>, id: string, k: nat)
    requires LastAt(log, id, k)
    ensures LastWrite(log, id) == Some(log[k])
    decreases |log|
  {
    var n := |log| - 1;
    if k < n { LastAtIsWritten(log[..n], id, k); }
  }

  lemma {:induction false} WrittenIsLastAt(log: seq<Item>, id: string) returns (k: nat)
    requires LastWrite(log, id).Some?
    ensures LastAt(log, id, k) && LastWrite(log, id) == Some(log[k])
    decreases |log|
  {
    var n := |log| - 1;
    if log[n].id == id { k := n; } else { k := WrittenIsLastAt(log[..n], id); }
  }

  /** An item with a known id is found as last written, and an update adds it to the log with
      the patch over it, or, when nothing would change, once only. */
  lemma KnownStep(log: seq<Item>, item: Item, patch: Patch, k: nat)
    requires LastAt(log, item.id, k)
    ensures LogStep(log, AppendOnce(item)) == (log, Once(log[k], false))
    ensures exists x :: Takes(x, log[k], patch) && LogStep(log, Update(item.id, patch)) == (log + [x], Current(x))
                     && LogStep(log, UpdateOnce(item.id, patch)) ==
                          if forall f | f in patch :: f in log[k].fields && log[k].fields[f] == patch[f] then
                            (log, Once(log[k], false))
                          else (log + [x], Once(x, true))
  {
    hide Loaded, LastWrite, Find;
    LastAtIsWritten(log, item.id, k);
    UpdateAgrees(log, item.id, patch);
    var x := Merged(log[k], patch);
    assert Takes(x, log[k], patch);
    if forall f | f in patch :: f in log[k].fields && log[k].fields[f] == patch[f] {
      assert x.fields == log[k].fields;
    } else {
      var f :| f in patch && !(f in log[k].fields && log[k].fields[f] == patch[f]);
      assert x.fields[f] == patch[f];
    }
  }

  lemma UnknownStep(log: seq<Item>, item: Item, patch: Patch)
    requires forall k :: 0 <= k < |log| ==> log[k].id != item.id
    ensures LogStep(log, AppendOnce(item)) == (log + [item], Once(item, true))
    ensures LogStep(log, Update(item.id, patch)) == (log, Missing)
    ensures LogStep(log, UpdateOnce(item.id, patch)) == (log, Missing)
  {
    hide Loaded, LastWrite, Find;
    if LastWrite(log, item.id).Some? { var k := WrittenIsLastAt(log, item.id); }
    UpdateAgrees(log, item.id, patch);
  }

  /** Loading gives each id once, as last written. */
  lemma LoadedHolds(log: seq<Item>, x: Item)
    ensures x in Loaded(log) <==> exists k: nat :: LastAt(log, x.id, k) && log[k] == x
  {
    hide LastWrite, Find, Collect, FirstIds;
    var items := Loaded(log);
    LoadedIds(log);
    FoundIsLastWrite(log, x.id);
    if x in items {
      var i :| 0 <= i < |items| && items[i] == x;
      OneFound(items, i);
      var k := WrittenIsLastAt(log, x.id);
    }
    if k: nat :| LastAt(log, x.id, k) && log[k] == x {
      LastAtIsWritten(log, x.id, k);
    }
  }

  /** The ids are loaded in the order of their first writes. */
  lemma {:induction false} LoadedInOrder(log: seq<Item>, i: nat, j: nat)
    requires i < j < |Loaded(log)|
    ensures exists a: nat, b: nat :: a < b && FirstAt(log, Loaded(log)[i].id, a) && FirstAt(log, Loaded(log)[j].id, b)
  {
    LoadedIds(log);
    IdAt(Loaded(log), i);
    IdAt(Loaded(log), j);
    var a, b := FirstInOrder(log, i, j);
  }

  lemma {:induction false} FirstInOrder(log: seq<Item>, i: nat, j: nat) returns (a: nat, b: nat)
    requires i < j < |FirstIds(log)|
    ensures a < b && FirstAt(log, FirstIds(log)[i], a) && FirstAt(log, FirstIds(log)[j], b)
    decreases |log|
  {
    var n := |log| - 1;
    var front := log[..n];
    if j < |FirstIds(front)| {
      a, b := FirstInOrder(front, i, j);
    } else {
      a := FirstOf(front, i);
      b := n;
      NotWritten(front, log[n].id);
    }
  }

  lemma {:induction false} FirstOf(log: seq<Item>, i: nat) returns (a: nat)
    requires i < |FirstIds(log)|
    ensures FirstAt(log, FirstIds(log)[i], a)
    decreases |log|
  {
    var n := |log| - 1;
    if i < |FirstIds(log[..n])| {
      a := FirstOf(log[..n], i);
    } else {
      a := n;
      NotWritten(log[..n], log[n].id);
    }
  }

  lemma {:induction false} NotWritten(log: seq<Item>, id: string)
    requires id !in FirstIds(log)
    ensures forall k :: 0 <= k < |log| ==> log[k].id != id
    decreases |log|
  {
    if log != [] {
      var n := |log| - 1;
      NotWritten(log[..n], id);
      assert forall k :: 0 <= k < n ==> log[k] == log[..n][k];
    }
  }

  function LogRun(log: seq<Item>, ops: seq<Op>): (seq<Item>, seq<Reply>)
    decreases |ops|
  {
    if ops == [] then (log, [])
    else
      var (log', reply) := LogStep(log, ops[0]);
      var (log'', replies) := LogRun(log', ops[1..]);
      (log'', [reply] + replies)
  }

  function MemoryRun(items: seq<Item>, ops: seq<Op>): (seq<Item>, seq<Reply>)
    decreases |ops|
  {
    if ops == [] then (items, [])
    else
      var (items', reply) := MemoryStep(items, ops[0]);
      var (items'', replies) := MemoryRun(items', ops[1..]);
      (items'', [reply] + replies)
  }

  /** Over any sequence of operations, loading the log yields the list updated in
      place, and both stores give the same answers. */
  lemma {:induction false} LogRefinesMemory(log: seq<Item>, ops: seq<Op>)
    requires forall op | op in ops :: Proper(op)
    ensures var (log', replies) := LogRun(log, ops);
            MemoryRun(Loaded(log), ops) == (Loaded(log'), replies)
    decreases |ops|
  {
    hide Loaded, LogStep, MemoryStep;
    if ops != [] {
      assert ops[0] in ops;
      StepAgrees(log, ops[0]);
      LogRefinesMemory(LogStep(log, ops[0]).0, ops[1..]);
    }
  }

  // ----- The stores, updated in place -----

  class FileSessionStore {
    var messages: map<string, seq<Item>>

    function Raw(threadId: string): seq<Item>
      reads this
    {
      if threadId in messages then messages[threadId] else []
    }

    twostate predicate Stepped(threadId: string, op: Op, reply: Reply)
      reads this
    {
      && (Raw(threadId), reply) == LogStep(old(Raw(threadId)), op)
      && (forall other :: other != threadId ==> Raw(other) == old(Raw(other)))
    }

    constructor ()
      ensures forall threadId :: Raw(threadId) == []
    {
      messages := map[];
    }

    method AppendItem(threadId: string, item: Item)
      modifies this
      ensures Stepped(threadId, Append(item), Ack)
    {
      messages := messages[threadId := Raw(threadId) + [item]];
    }

    method AppendItemOnce(threadId: string, item: Item) returns (canonical: Item, created: bool)
      modifies this
      ensures Stepped(threadId, AppendOnce(item), Once(canonical, created))
    {
      var existing := LastWrite(Raw(threadId), item.id);
      if existing.Some? {
        return existing.value, false;
      }
      AppendItem(threadId, item);
      return item, true;
    }

    method UpdateItem(threadId: string, id: string, patch: Patch) returns (updated: Option<Item>)
      modifies this
      ensures Stepped(threadId, Update(id, patch), if updated.Some? then Current(updated.value) else Missing)
    {
      var items := LoadItems(Raw(threadId));
      var current := Find(items, id);
      if current.None? {
        return None;
      }
      var item := Merged(items[current.value], patch);
      messages := messages[threadId := Raw(threadId) + [item]];
      return Some(item);
    }

    method UpdateItemOnce(threadId: string, id: string, patch: Patch) returns (outcome: Option<(Item, bool)>)
      modifies this
      ensures Stepped(threadId, UpdateOnce(id, patch),
                      if outcome.Some? then Once(outcome.value.0, outcome.value.1) else Missing)
    {
      var current := LastWrite(Raw(threadId), id);
      if current.None? {
        return None;
      }
      var desired := Merged(current.value, patch);
      if desired == current.value {
        return Some((current.value, false));
      }
      messages := messages[threadId := Raw(threadId) + [desired]];
      return Some((desired, true));
    }

    method RewriteItems(threadId: string, items: seq<Item>)
      modifies this
      ensures Stepped(threadId, Rewrite(items), Ack)
    {
      messages := messages[threadId := items];
    }
  }

  class InMemorySessionStore {
    var items: map<string, seq<Item>>

    function List(threadId: string): seq<Item>
      reads this
    {
      if threadId in items then items[threadId] else []
    }

    twostate predicate Stepped(threadId: string, op: Op, reply: Reply)
      reads this
    {
      && (List(threadId), reply) == MemoryStep(old(List(threadId)), op)
      && (forall other :: other != threadId ==> List(other) == old(List(other)))
    }

    constructor ()
      ensures forall threadId :: List(threadId) == []
    {
      items := map[];
    }

    method AppendItem(threadId: string, item: Item)
      modifies this
      ensures Stepped(threadId, Append(item), Ack)
    {
      var list := List(threadId);
      if Find(list, item.id).Some? {
        items := items[threadId := Replace(list, item)];
      } else {
        items := items[threadId := list + [item]];
      }
    }

    method AppendItemOnce(threadId: string, item: Item) returns (canonical: Item, created: bool)
      modifies this
      ensures Stepped(threadId, AppendOnce(item), Once(canonical, created))
    {
      var existing := Find(List(threadId), item.id);
      if existing.Some? {
        return List(threadId)[existing.value], false;
      }
      AppendItem(threadId, item);
      return item, true;
    }

    method UpdateItem(threadId: string, id: string, patch: Patch) returns (updated: Option<Item>)
      modifies this
      ensures Stepped(threadId, Update(id, patch), if updated.Some? then Current(updated.value) else Missing)
    {
      var next: seq<Item>;
      updated, next := PatchAll(List(threadId), id, patch);
      if updated.None? {
        return;
      }
      items := items[threadId := next];
    }

    method UpdateItemOnce(threadId: string, id: string, patch: Patch) returns (outcome: Option<(Item, bool)>)
      modifies this
      ensures Stepped(threadId, UpdateOnce(id, patch),
                      if outcome.Some? then Once(outcome.value.0, outcome.value.1) else Missing)
    {
      var list := List(threadId);
      var current := Find(list, id);
      if current.None? {
        return None;
      }
      var item := list[current.value];
      if Merged(item, patch) == item {
        return Some((item, false));
      }
      FoundIsWritten(list, id);
      hide Patched, LastWrite, Find;
      var updated := UpdateItem(threadId, id, patch);
      return Some((updated.value, true));
    }

    method RewriteItems(threadId: string, others: seq<Item>)
      modifies this
      ensures Stepped(threadId, Rewrite(others), Ack)
    {
      items := items[threadId := others];
    }
  }

  /** The loop of `updateItem`: every match is patched, the last one is returned. */
  method PatchAll(list: seq<Item>, id: string, patch: Patch) returns (updated: Option<Item>, next: seq<Item>)
    ensures next == Patched(list, id, patch)
    ensures updated == match LastWrite(list, id)
                       case Some(item) => Some(Merged(item, patch))
                       case None => None
  {
    hide Patched, LastWrite, Merged;
    LoopEnds(list, id, patch);
    updated, next := None, [];
    for i := 0 to |list|
      invariant next + Patched(list[i..], id, patch) == Patched(list, id, patch)
      invariant updated == match LastWrite(list[..i], id)
                           case Some(item) => Some(Merged(item, patch))
                           case None => None
    {
      OneItem(list, i, id, patch);
      if list[i].id == id {
        updated := Some(Merged(list[i], patch));
        next := next + [updated.value];
      } else {
        next := next + [list[i]];
      }
    }
    assert list[..|list|] == list;
  }

  lemma OneItem(list: seq<Item>, i: nat, id: string, patch: Patch)
    requires i < |list|
    ensures LastWrite(list[..i + 1], id) == if list[i].id == id then Some(list[i]) else LastWrite(list[..i], id)
    ensures Patched(list[i..], id, patch)
            == [if list[i].id == id then Merged(list[i], patch) else list[i]] + Patched(list[i + 1..], id, patch)
  {
    assert list[i..][0] == list[i] && list[i..][1..] == list[i + 1..];
    assert list[..i + 1][..i] == list[..i];
  }

  lemma LoopEnds(list: seq<Item>, id: string, patch: Patch)
    ensures LastWrite(list[..0], id) == None && Patched(list[|list|..], id, patch) == []
    ensures list[0..] == list
  {
  }

  lemma {:induction false} FoundIsWritten(items: seq<Item>, id: string)
    requires Find(items, id).Some?
    ensures LastWrite(items, id).Some?
  {
    var i := Find(items, id).value;
    WrittenAt(items, i);
  }

  lemma {:induction false} WrittenAt(items: seq<Item>, i: nat)
    requires i < |items|
    ensures LastWrite(items, items[i].id).Some?
    decreases |items|
  {
    var n := |items| - 1;
    if i < n {
      assert items[..n][i] == items[i];
      WrittenAt(items[..n], i);
    }
  }
}
