/** Validation of execution graphs: the cycle check by depth-first search. */
module ExecutionGraph {

  import opened Wrappers

  datatype Edge = Edge(from: string, to: string, when: string, loop: bool)

  datatype Graph = Graph(version: string, start: string, predicates: seq<string>, nodes: seq<string>, edges: seq<Edge>)

  // ----- Cycles -----

  /** The edges follow one another. */
  predicate Chain(c: seq<Edge>) {
    forall i :: 0 < i < |c| ==> c[i - 1].to == c[i].from
  }

  /** Edges of the graph without a loop mark. */
  predicate Plain(g: Graph, c: seq<Edge>) {
    forall e | e in c :: e in g.edges && !e.loop
  }

  /** A closed walk of the graph that uses no loop-marked edge. */
  predicate IsLoopFreeCycle(g: Graph, c: seq<Edge>) {
    c != [] && Chain(c) && c[|c| - 1].to == c[0].from && Plain(g, c)
  }

  /** Every edge starts and ends at a node of the graph. */
  predicate Closed(g: Graph) {
    forall e | e in g.edges :: e.from in g.nodes && e.to in g.nodes
  }

  function From(es: seq<Edge>, id: string): (r: seq<Edge>)
    ensures forall e :: e in r <==> e in es && e.from == id
  {
    if es == [] then [] else (if es[0].from == id then [es[0]] else []) + From(es[1..], id)
  }

  /** The outgoing edges of a known node, in the order of the graph. */
  function Adjacency(g: Graph, id: string): (r: seq<Edge>)
    ensures forall e | e in r :: e in g.edges && e.from == id
    ensures id in g.nodes ==> forall e | e in g.edges && e.from == id :: e in r
  {
    if id in g.nodes then From(g.edges, id) else []
  }

  function HasLoop(c: seq<Edge>): (b: bool)
    ensures !b <==> forall e | e in c :: !e.loop
  {
    exists e | e in c :: e.loop
  }

  // ----- The search as a function -----

  /** Either a cycle is reported, or the search has finished the nodes of `order`. */
  datatype Outcome = Cycle(edges: seq<Edge>) | Done(order: seq<string>)

  function LastIndex(nodes: seq<string>, id: string): (i: nat)
    requires id in nodes
    ensures i < |nodes| && nodes[i] == id
  {
    if nodes[|nodes| - 1] == id then |nodes| - 1 else LastIndex(nodes[..|nodes| - 1], id)
  }

  ghost function Elems(s: seq<string>): set<string> {
    set n | n in s
  }

  lemma ElemsSnoc(s: seq<string>, x: string)
    ensures Elems(s + [x]) == Elems(s) + {x}
    ensures x in Elems(s) <==> x in s
    ensures x !in s ==> Elems(s) + {x} - {x} == Elems(s)
  {
  }

  ghost function Universe(g: Graph): set<string> {
    (set n | n in g.nodes) + (set e | e in g.edges :: e.to)
  }

  ghost function Unseen(g: Graph, nodes: seq<string>, order: seq<string>): set<string> {
    Universe(g) - Elems(nodes) - Elems(order)
  }

  /** `visit`: the nodes on the stack, the tree edges between them, what is finished. */
  function Descend(g: Graph, id: string, nodes: seq<string>, tree: seq<Edge>, order: seq<string>): (r: Outcome)
    requires id in Unseen(g, nodes, order)
    ensures r.Done? ==> order <= r.order
    decreases |Unseen(g, nodes, order)|, 0, 0
  {
    UnseenShrinks(g, id, nodes, order);
    var r := Explore(g, Adjacency(g, id), nodes + [id], tree, order);
    if r.Cycle? then r else Done(r.order + [id])
  }

  function Explore(g: Graph, es: seq<Edge>, nodes: seq<string>, tree: seq<Edge>, order: seq<string>): (r: Outcome)
    requires forall e | e in es :: e in g.edges
    ensures r.Done? ==> order <= r.order
    decreases |Unseen(g, nodes, order)|, 1, |es|
  {
    if es == [] then Done(order)
    else
      var e := es[0];
      if e.to in nodes then
        var i := LastIndex(nodes, e.to);
        var c := (if i <= |tree| then tree[i..] else []) + [e];
        if HasLoop(c) then Explore(g, es[1..], nodes, tree, order) else Cycle(c)
      else if e.to in order then Explore(g, es[1..], nodes, tree, order)
      else
        assert e.to in Universe(g);
        var r := Descend(g, e.to, nodes, tree + [e], order);
        if r.Cycle? then r
        else
          UnseenMonotone(g, nodes, order, r.order);
          Explore(g, es[1..], nodes, tree, r.order)
  }

  lemma UnseenIsNew(g: Graph, id: string, nodes: seq<string>, order: seq<string>)
    requires id in Unseen(g, nodes, order)
    ensures id !in nodes && id !in order
  {
  }

  lemma UnseenShrinks(g: Graph, id: string, nodes: seq<string>, order: seq<string>)
    requires id in Unseen(g, nodes, order)
    ensures |Unseen(g, nodes + [id], order)| < |Unseen(g, nodes, order)|
  {
    assert Unseen(g, nodes + [id], order) == Unseen(g, nodes, order) - {id};
  }

  lemma UnseenMonotone(g: Graph, nodes: seq<string>, order: seq<string>, order': seq<string>)
    requires order <= order'
    ensures |Unseen(g, nodes, order')| <= |Unseen(g, nodes, order)|
  {
    var big, small := Unseen(g, nodes, order), Unseen(g, nodes, order');
    assert forall n :: n in order ==> n in order';
    assert small <= big;
    SubsetSize(small, big);
  }

  lemma SubsetSize(a: set<string>, b: set<string>)
    requires a <= b
    ensures |a| <= |b|
  {
    assert b == a + (b - a);
  }

  function VisitAll(g: Graph, ids: seq<string>, order: seq<string>): Outcome
    requires forall id | id in ids :: id in g.nodes
    decreases |ids|
  {
    if ids == [] then Done(order)
    else if ids[0] in order then VisitAll(g, ids[1..], order)
    else
      var r := Descend(g, ids[0], [], [], order);
      if r.Cycle? then r else VisitAll(g, ids[1..], r.order)
  }

  /** The whole check. */
  function Search(g: Graph): Outcome {
    VisitAll(g, g.nodes, [])
  }

  // ----- A reported cycle is real -----

  /** The stack of nodes and the stack of edges describe one path of the graph. */
  ghost predicate IsPath(g: Graph, nodes: seq<string>, tree: seq<Edge>) {
    && |nodes| == |tree| + 1
    && (forall i :: 0 <= i < |tree| ==> tree[i].from == nodes[i] && tree[i].to == nodes[i + 1])
    && (forall e | e in tree :: e in g.edges)
  }

  lemma {:induction false} VisitSound(g: Graph, id: string, nodes: seq<string>, tree: seq<Edge>, order: seq<string>)
    requires id in Unseen(g, nodes, order)
    requires IsPath(g, nodes + [id], tree)
    ensures var r := Descend(g, id, nodes, tree, order);
            r.Cycle? ==> IsLoopFreeCycle(g, r.edges)
    decreases |Unseen(g, nodes, order)|, 0, 0
  {
    UnseenShrinks(g, id, nodes, order);
    ExploreSound(g, Adjacency(g, id), nodes + [id], tree, order);
  }

  lemma {:induction false} ExploreSound(
    g: Graph, es: seq<Edge>, nodes: seq<string>, tree: seq<Edge>, order: seq<string>)
    requires IsPath(g, nodes, tree)
    requires forall e | e in es :: e in g.edges && e.from == nodes[|nodes| - 1]
    ensures var r := Explore(g, es, nodes, tree, order);
            r.Cycle? ==> IsLoopFreeCycle(g, r.edges)
    decreases |Unseen(g, nodes, order)|, 1, |es|
  {
    if es != [] {
      var e := es[0];
      if e.to in nodes {
        var i := LastIndex(nodes, e.to);
        var c := tree[i..] + [e];
        assert Chain(c);
        assert c[0].from == nodes[i];
        if HasLoop(c) { ExploreSound(g, es[1..], nodes, tree, order); }
      } else if e.to in order {
        ExploreSound(g, es[1..], nodes, tree, order);
      } else {
        assert e.to in Universe(g);
        VisitSound(g, e.to, nodes, tree + [e], order);
        var r := Descend(g, e.to, nodes, tree + [e], order);
        if r.Done? {
          UnseenMonotone(g, nodes, order, r.order);
          ExploreSound(g, es[1..], nodes, tree, r.order);
        }
      }
    }
  }

  // ----- The finishing order -----

  /** A closed walk of the graph that passes no node twice and uses a loop-marked edge. */
  predicate IsMarkedCycle(g: Graph, m: seq<Edge>) {
    && m != [] && Chain(m) && m[|m| - 1].to == m[0].from
    && (forall e | e in m :: e in g.edges)
    && (forall i, j :: 0 <= i < j < |m| ==> m[i].from != m[j].from)
    && HasLoop(m)
  }

  /** The edge lies on a cycle that a loop mark excuses. */
  ghost predicate Excusable(g: Graph, e: Edge) {
    exists m :: IsMarkedCycle(g, m) && e in m
  }

  /** Distinct nodes, with every unmarked edge leading to an earlier one or excusable. */
  ghost predicate Ordered(g: Graph, order: seq<string>) {
    && (forall i, j :: 0 <= i < j < |order| ==> order[i] != order[j])
    && (forall i, e :: 0 <= i < |order| && e in g.edges && e.from == order[i] && !e.loop ==>
          e.to in order[..i] || Excusable(g, e))
  }

  /** An edge back into the stack closes a cycle without repeated nodes. */
  lemma BackEdge(g: Graph, nodes: seq<string>, tree: seq<Edge>, e: Edge)
    requires IsPath(g, nodes, tree) && Distinct(nodes) && e in g.edges && e.from == nodes[|nodes| - 1]
    requires e.to in nodes && HasLoop(tree[LastIndex(nodes, e.to)..] + [e])
    ensures Excusable(g, e)
  {
    hide HasLoop;
    var m := tree[LastIndex(nodes, e.to)..] + [e];
    ClosedByBackEdge(g, nodes, tree, e, LastIndex(nodes, e.to));
    assert IsMarkedCycle(g, m) && e in m;
  }

  lemma ClosedByBackEdge(g: Graph, nodes: seq<string>, tree: seq<Edge>, e: Edge, i: nat)
    requires IsPath(g, nodes, tree) && Distinct(nodes) && e in g.edges && e.from == nodes[|nodes| - 1]
    requires i < |nodes| && e.to == nodes[i]
    ensures var m := tree[i..] + [e];
            && Chain(m) && m[|m| - 1] == e && m[0].from == nodes[i]
            && (forall x | x in m :: x in g.edges)
            && (forall k, l :: 0 <= k < l < |m| ==> m[k].from != m[l].from)
  {
    var m := tree[i..] + [e];
    forall k | 0 <= k < |m| ensures m[k].from == nodes[i + k] { }
  }

  lemma {:induction false} VisitOrders(g: Graph, id: string, nodes: seq<string>, tree: seq<Edge>, order: seq<string>)
    requires Closed(g) && id in Unseen(g, nodes, order) && id in g.nodes
    requires IsPath(g, nodes + [id], tree) && Distinct(nodes) && Ordered(g, order)
    requires forall n | n in nodes :: n !in order
    ensures var r := Descend(g, id, nodes, tree, order);
            r.Done? ==>
              && Ordered(g, r.order) && id in r.order
              && (forall n | n in nodes :: n !in r.order)
    decreases |Unseen(g, nodes, order)|, 0, 0
  {
    UnseenShrinks(g, id, nodes, order);
    UnseenIsNew(g, id, nodes, order);
    var es := Adjacency(g, id);
    hide Unseen, Ordered, Adjacency, Excusable;
    ExploreOrders(g, es, nodes + [id], tree, order);
    var r := Explore(g, es, nodes + [id], tree, order);
    hide Explore, IsPath;
    if r.Done? {
      assert id in nodes + [id];
      OrderedSnoc(g, r.order, id);
    }
  }

  lemma OrderedSnoc(g: Graph, order: seq<string>, id: string)
    requires Ordered(g, order) && id !in order && id in g.nodes
    requires forall e | e in Adjacency(g, id) && !e.loop :: e.to in order || Excusable(g, e)
    ensures Ordered(g, order + [id])
  {
    hide Excusable;
    var order' := order + [id];
    forall i, e | 0 <= i < |order'| && e in g.edges && e.from == order'[i] && !e.loop
      ensures e.to in order'[..i] || Excusable(g, e)
    {
      if i < |order| {
        assert order'[..i] == order[..i];
      } else {
        assert e in Adjacency(g, id);
        assert order'[..i] == order;
      }
    }
  }

  lemma {:induction false} ExploreOrders(
    g: Graph, es: seq<Edge>, nodes: seq<string>, tree: seq<Edge>, order: seq<string>)
    requires Closed(g) && IsPath(g, nodes, tree) && Distinct(nodes) && Ordered(g, order)
    requires forall e | e in es :: e in g.edges && e.from == nodes[|nodes| - 1]
    requires forall n | n in nodes :: n !in order
    ensures var r := Explore(g, es, nodes, tree, order);
            r.Done? ==>
              && Ordered(g, r.order)
              && (forall n | n in nodes :: n !in r.order)
              && (forall e | e in es && !e.loop :: e.to in r.order || Excusable(g, e))
    decreases |Unseen(g, nodes, order)|, 1, |es|
  {
    hide Ordered, Excusable;
    if es != [] {
      var e := es[0];
      if e.to in nodes {
        if HasLoop(tree[LastIndex(nodes, e.to)..] + [e]) {
          BackEdge(g, nodes, tree, e);
          ExploreOrders(g, es[1..], nodes, tree, order);
        }
      } else if e.to in order {
        ExploreOrders(g, es[1..], nodes, tree, order);
      } else {
        assert e.to in Universe(g);
        PathGrows(g, nodes, tree, e);
        var r := Descend(g, e.to, nodes, tree + [e], order);
        VisitOrders(g, e.to, nodes, tree + [e], order);
        if r.Done? {
          UnseenMonotone(g, nodes, order, r.order);
          ExploreOrders(g, es[1..], nodes, tree, r.order);
        }
      }
    }
  }

  lemma PathGrows(g: Graph, nodes: seq<string>, tree: seq<Edge>, e: Edge)
    requires IsPath(g, nodes, tree) && e in g.edges && e.from == nodes[|nodes| - 1]
    ensures IsPath(g, nodes + [e.to], tree + [e])
  {
  }

  lemma {:induction false} VisitAllSound(g: Graph, ids: seq<string>, order: seq<string>)
    requires forall id | id in ids :: id in g.nodes
    ensures var r := VisitAll(g, ids, order);
            r.Cycle? ==> IsLoopFreeCycle(g, r.edges)
    decreases |ids|
  {
    if ids != [] {
      if ids[0] in order {
        VisitAllSound(g, ids[1..], order);
      } else {
        VisitSound(g, ids[0], [], [], order);
        var r := Descend(g, ids[0], [], [], order);
        if r.Done? { VisitAllSound(g, ids[1..], r.order); }
      }
    }
  }

  lemma {:induction false} VisitAllOrders(g: Graph, ids: seq<string>, order: seq<string>)
    requires Closed(g) && Ordered(g, order) && forall id | id in ids :: id in g.nodes
    ensures var r := VisitAll(g, ids, order);
            r.Done? ==> Ordered(g, r.order) && order <= r.order && forall id | id in ids :: id in r.order
    decreases |ids|
  {
    hide Descend, Ordered;
    if ids != [] {
      if ids[0] in order {
        VisitAllOrders(g, ids[1..], order);
      } else {
        VisitOrders(g, ids[0], [], [], order);
        var r := Descend(g, ids[0], [], [], order);
        if r.Done? {
          VisitAllOrders(g, ids[1..], r.order);
          var r' := VisitAll(g, ids[1..], r.order);
          assert r'.Done? ==> r.order <= r'.order && ids[0] in r'.order;
        }
      }
    }
  }

  lemma {:induction false} CycleDescends(g: Graph, order: seq<string>, c: seq<Edge>, k: nat, p: nat)
    requires Ordered(g, order) && IsLoopFreeCycle(g, c) && k < |c|
    requires p < |order| && order[p] == c[0].from && forall e | e in c :: !Excusable(g, e)
    ensures c[k].to in order[..p]
    decreases k
  {
    hide Excusable;
    if k == 0 {
      assert c[0] in c;
    } else {
      CycleDescends(g, order, c, k - 1, p);
      var q :| 0 <= q < p && order[q] == c[k - 1].to;
      assert c[k] in c && c[k].from == order[q];
      assert c[k].to in order[..q];
    }
  }

  /** A cycle that an accepted graph nevertheless has is excused somewhere. */
  lemma OrderedHasNoCycle(g: Graph, order: seq<string>, c: seq<Edge>)
    requires Closed(g) && Ordered(g, order) && forall id | id in g.nodes :: id in order
    requires IsLoopFreeCycle(g, c)
    ensures exists e | e in c :: Excusable(g, e)
  {
    hide Excusable;
    assert c[0] in c;
    if forall e | e in c :: !Excusable(g, e) {
      var p :| 0 <= p < |order| && order[p] == c[0].from;
      CycleDescends(g, order, c, |c| - 1, p);
      assert false;
    }
  }

  /** Rejection is sound: a reported cycle is a closed walk without loop edges.  So
      a graph without such a walk is never rejected for cycles. */
  lemma RejectionIsSound(g: Graph)
    ensures Search(g).Cycle? ==> IsLoopFreeCycle(g, Search(g).edges)
  {
    VisitAllSound(g, g.nodes, []);
  }

  /** A loop-free cycle goes unnoticed only where one of its edges also lies on a cycle
      without repeated nodes that has a loop mark. */
  lemma AcceptanceIsSound(g: Graph, c: seq<Edge>)
    requires Closed(g) && Search(g).Done? && IsLoopFreeCycle(g, c)
    ensures exists e | e in c :: Excusable(g, e)
  {
    assert Ordered(g, []);
    VisitAllOrders(g, g.nodes, []);
    OrderedHasNoCycle(g, Search(g).order, c);
  }

  /** When no loop-free cycle shares an edge with a marked one, in whatever order nodes
      and edges are listed, exactly the graphs without loop-free cycles are accepted. */
  lemma ExactUnlessExcusable(g: Graph)
    requires Closed(g) && forall c, e :: IsLoopFreeCycle(g, c) && e in c ==> !Excusable(g, e)
    ensures Search(g).Done? <==> forall c :: !IsLoopFreeCycle(g, c)
  {
    hide Search, IsLoopFreeCycle, Excusable;
    RejectionIsSound(g);
    if Search(g).Done? {
      forall c ensures !IsLoopFreeCycle(g, c) {
        if IsLoopFreeCycle(g, c) { AcceptanceIsSound(g, c); }
      }
    }
  }

  /** On graphs without loop-marked edges the check accepts exactly the acyclic ones. */
  lemma UnmarkedExactlyAcyclic(g: Graph)
    requires Closed(g) && forall e | e in g.edges :: !e.loop
    ensures Search(g).Done? <==> forall c :: !IsLoopFreeCycle(g, c)
  {
    hide Search;
    ExactUnlessExcusable(g);
  }

  /** One edge of the loop in `visit`. */
  lemma ExploreStep(g: Graph, es: seq<Edge>, nodes: seq<string>, tree: seq<Edge>, order: seq<string>)
    requires es != [] && forall e | e in es :: e in g.edges
    ensures var e, r := es[0], Explore(g, es, nodes, tree, order);
            if e.to in nodes then
              var i := LastIndex(nodes, e.to);
              var c := (if i <= |tree| then tree[i..] else []) + [e];
              r == if HasLoop(c) then Explore(g, es[1..], nodes, tree, order) else Cycle(c)
            else if e.to in order then r == Explore(g, es[1..], nodes, tree, order)
            else
              && e.to in Unseen(g, nodes, order)
              && var v := Descend(g, e.to, nodes, tree + [e], order);
                 r == if v.Cycle? then v else Explore(g, es[1..], nodes, tree, v.order)
  {
    assert es[0].to in Universe(g);
  }

  lemma ExploreEnd(g: Graph, nodes: seq<string>, tree: seq<Edge>, order: seq<string>)
    ensures Explore(g, [], nodes, tree, order) == Done(order)
  {
  }

  lemma VisitIs(g: Graph, id: string, nodes: seq<string>, tree: seq<Edge>, order: seq<string>)
    requires id in Unseen(g, nodes, order)
    ensures var r := Explore(g, Adjacency(g, id), nodes + [id], tree, order);
            Descend(g, id, nodes, tree, order) == if r.Cycle? then r else Done(r.order + [id])
  {
  }

  lemma FromCons(e: Edge, es: seq<Edge>, id: string)
    ensures From([e] + es, id) == (if e.from == id then [e] else []) + From(es, id)
  {
    assert ([e] + es)[1..] == es;
  }

  const CA := Edge("A", "C", "w", true)
  const CB := Edge("C", "B", "w", false)
  const BA := Edge("B", "A", "w", false)
  const AB := Edge("A", "B", "w", false)
  const MISSED: Graph := Graph("v", "A", ["w"], ["A", "C", "B"], [CA, CB, BA, AB])

  lemma MissedFrom(id: string)
    ensures From(MISSED.edges, id)
            == (if id == "A" then [CA] else []) + ((if id == "C" then [CB] else [])
               + ((if id == "B" then [BA] else []) + (if id == "A" then [AB] else [])))
  {
    FromCons(AB, [], id);
    FromCons(BA, [AB], id);
    FromCons(CB, [BA, AB], id);
    FromCons(CA, [CB, BA, AB], id);
    assert [AB] + [] == [AB] && [BA] + [AB] == [BA, AB] && [CB] + [BA, AB] == [CB, BA, AB];
    assert [CA] + [CB, BA, AB] == MISSED.edges;
    var one := if id == "A" then [AB] else [];
    assert one + [] == one;
  }

  lemma MissedAdjacency(id: string)
    requires id in ["A", "C", "B"]
    ensures Adjacency(MISSED, id) == if id == "A" then [CA, AB] else if id == "C" then [CB] else [BA]
  {
    hide From;
    MissedFrom(id);
    assert [CA] + ([] + ([] + [AB])) == [CA, AB];
    assert [] + ([CB] + ([] + [])) == [CB];
    assert [] + ([] + ([BA] + [])) == [BA];
  }

  lemma MissedInner()
    requires "B" in Unseen(MISSED, ["A", "C"], [])
    ensures Descend(MISSED, "B", ["A", "C"], [CA, CB], []) == Done(["B"])
  {
    hide Descend, Explore, HasLoop, Adjacency, Unseen;
    var g, acb := MISSED, ["A", "C", "B"];
    MissedAdjacency("B");
    assert ["A", "C"] + ["B"] == acb && [BA][1..] == [] && acb[..2] == ["A", "C"] && ["A", "C"][..1] == ["A"];
    assert LastIndex(["A"], "A") == 0 && LastIndex(["A", "C"], "A") == 0 && LastIndex(acb, "A") == 0;
    assert CA in [CA, CB][0..] + [BA];
    ExploreStep(g, [BA], acb, [CA, CB], []);
    ExploreEnd(g, acb, [CA, CB], []);
    VisitIs(g, "B", ["A", "C"], [CA, CB], []);
  }

  lemma MissedMiddle()
    requires "B" in Unseen(MISSED, ["A", "C"], []) && "C" in Unseen(MISSED, ["A"], [])
    ensures Descend(MISSED, "C", ["A"], [CA], []) == Done(["B", "C"])
  {
    hide Descend, Explore, HasLoop, Adjacency, Unseen;
    MissedAdjacency("C");
    MissedInner();
    assert ["A"] + ["C"] == ["A", "C"] && [CA] + [CB] == [CA, CB] && [CB][1..] == [];
    ExploreStep(MISSED, [CB], ["A", "C"], [CA], []);
    ExploreEnd(MISSED, ["A", "C"], [CA], ["B"]);
    VisitIs(MISSED, "C", ["A"], [CA], []);
    assert ["B"] + ["C"] == ["B", "C"];
  }

  lemma MissedOuter()
    requires "B" in Unseen(MISSED, ["A", "C"], []) && "C" in Unseen(MISSED, ["A"], [])
    requires "A" in Unseen(MISSED, [], [])
    ensures Descend(MISSED, "A", [], [], []) == Done(["B", "C", "A"])
  {
    hide Descend, Explore, HasLoop, Adjacency, Unseen;
    MissedAdjacency("A");
    MissedMiddle();
    assert [] + [CA] == [CA] && [] + ["A"] == ["A"] && [CA, AB][1..] == [AB] && [AB][1..] == [];
    ExploreStep(MISSED, [CA, AB], ["A"], [], []);
    ExploreStep(MISSED, [AB], ["A"], [], ["B", "C"]);
    ExploreEnd(MISSED, ["A"], [], ["B", "C"]);
    VisitIs(MISSED, "A", [], [], []);
    assert ["B", "C"] + ["A"] == ["B", "C", "A"];
  }

  lemma MissedSearch()
    ensures Search(MISSED) == Done(["B", "C", "A"])
  {
    assert "A" in Unseen(MISSED, [], []);
    assert "C" in Unseen(MISSED, ["A"], []);
    assert "B" in Unseen(MISSED, ["A", "C"], []);
    MissedOuter();
    hide Descend, Unseen, Adjacency, Explore;
    var acb := MISSED.nodes;
    assert acb[1..] == ["C", "B"] && ["C", "B"][1..] == ["B"] && ["B"][1..] == [];
    assert VisitAll(MISSED, ["B"], ["B", "C", "A"]) == Done(["B", "C", "A"]);
    assert VisitAll(MISSED, ["C", "B"], ["B", "C", "A"]) == Done(["B", "C", "A"]);
  }

  /** With loop-marked edges the check can miss a cycle: it finishes B along the
      marked edge before it looks at the plain edge from A to B. */
  lemma CycleMissed()
    ensures Search(MISSED).Done? && IsLoopFreeCycle(MISSED, [AB, BA])
  {
    MissedSearch();
    hide Search;
    assert forall e | e in [AB, BA] :: e == AB || e == BA;
  }

  const FOUND: Graph := MISSED.(edges := [AB, BA, CA, CB])

  lemma FoundFrom()
    ensures Adjacency(FOUND, "A") == [AB, CA] && Adjacency(FOUND, "B") == [BA]
  {
    var es := FOUND.edges;
    assert es[1..] == [BA, CA, CB] && es[1..][1..] == [CA, CB] && es[1..][1..][1..] == [CB] && [CB][1..] == [];
    assert From([CA, CB], "A") == [CA] + From([CB], "A") && From([CB], "A") == [] + From([], "A");
    assert From([CA, CB], "B") == [] + From([CB], "B") && From([CB], "B") == [] + From([], "B");
    assert From([BA, CA, CB], "A") == [] + From([CA, CB], "A") && From([BA, CA, CB], "B") == [BA] + From([CA, CB], "B");
    assert From(es, "A") == [AB] + From([BA, CA, CB], "A") && From(es, "B") == [] + From([BA, CA, CB], "B");
  }

  lemma FoundInner()
    requires "B" in Unseen(FOUND, ["A"], [])
    ensures Descend(FOUND, "B", ["A"], [AB], []) == Cycle([AB, BA])
  {
    hide Descend, Explore, HasLoop, Adjacency, Unseen;
    FoundFrom();
    assert ["A"] + ["B"] == ["A", "B"] && ["A", "B"][..1] == ["A"];
    assert LastIndex(["A", "B"], "A") == 0;
    assert [AB][0..] + [BA] == [AB, BA];
    assert forall e | e in [AB, BA] :: !e.loop;
    ExploreStep(FOUND, [BA], ["A", "B"], [AB], []);
    VisitIs(FOUND, "B", ["A"], [AB], []);
  }

  lemma FoundOuter()
    requires "A" in Unseen(FOUND, [], []) && "B" in Unseen(FOUND, ["A"], [])
    ensures Descend(FOUND, "A", [], [], []) == Cycle([AB, BA])
  {
    hide Descend, Explore, HasLoop, Adjacency, Unseen;
    FoundFrom();
    FoundInner();
    assert [] + [AB] == [AB] && [] + ["A"] == ["A"];
    ExploreStep(FOUND, [AB, CA], ["A"], [], []);
    VisitIs(FOUND, "A", [], [], []);
  }

  lemma FoundNew()
    ensures "A" in Unseen(FOUND, [], []) && "B" in Unseen(FOUND, ["A"], [])
    ensures multiset(FOUND.edges) == multiset(MISSED.edges)
  {
    assert AB in FOUND.edges;
  }

  /** The same graph with its edges listed in another order is rejected: no condition on
      the nodes and edges alone says which of the graphs with an excusable cycle are accepted. */
  lemma OrderDecides()
    ensures multiset(FOUND.edges) == multiset(MISSED.edges) && FOUND.nodes == MISSED.nodes
    ensures Search(FOUND) == Cycle([AB, BA]) && Search(MISSED).Done?
  {
    MissedSearch();
    FoundNew();
    FoundOuter();
    hide Descend, Unseen;
    assert FOUND.nodes[0] == "A";
  }

  // ----- Every cycle with a marked way round can be missed -----

  /** The path `p` leaves where the cycle `m` starts and passes no other node of it. */
  ghost predicate Apart(m: seq<Edge>, p: seq<Edge>) {
    && m != [] && p != [] && p[0].from == m[0].from
    && (forall i, j :: 0 <= i < j < |m| ==> m[i].from != m[j].from)
    && (forall i, j :: 0 <= i < j < |p| ==> p[i].from != p[j].from)
    && (forall i, j :: 0 < i < |p| && 0 <= j < |m| ==> p[i].from != m[j].from)
  }

  /** The graph is a marked cycle and a plain path beside a part of it, the cycle listed
      first: the path and the plain rest of the cycle make a loop-free cycle. */
  ghost predicate IsDetour(g: Graph, m: seq<Edge>, p: seq<Edge>, k: nat) {
    && Closed(g) && IsMarkedCycle(g, m) && g.edges == m + p && Apart(m, p) && Chain(p) && k + 1 < |m|
    && p[|p| - 1].to == m[k].to
    && Plain(g, p) && Plain(g, m[k + 1..])
    && g.nodes != [] && g.nodes[0] == m[0].from
    && (forall n | n in g.nodes :: n in Starts(m) || n in Starts(p))
  }

  function Starts(m: seq<Edge>): seq<string> {
    Mapped((e: Edge) => e.from, m)
  }

  lemma {:induction false} FromNone(es: seq<Edge>, id: string)
    requires forall e | e in es :: e.from != id
    ensures From(es, id) == []
  {
    if es != [] { FromNone(es[1..], id); }
  }

  lemma {:induction false} FromOne(es: seq<Edge>, i: nat)
    requires i < |es| && forall j :: 0 <= j < |es| && j != i ==> es[j].from != es[i].from
    ensures From(es, es[i].from) == [es[i]]
  {
    assert es == [es[0]] + es[1..];
    if i == 0 {
      FromNone(es[1..], es[0].from);
    } else {
      assert forall j :: 0 <= j < |es| - 1 ==> es[1..][j] == es[j + 1];
      FromOne(es[1..], i - 1);
    }
  }

  lemma {:induction false} FromAppend(a: seq<Edge>, b: seq<Edge>, id: string)
    ensures From(a + b, id) == From(a, id) + From(b, id)
  {
    if a == [] {
      assert a + b == b;
    } else {
      FromAppend(a[1..], b, id);
      assert (a + b)[0] == a[0] && (a + b)[1..] == a[1..] + b;
      var x := if a[0].from == id then [a[0]] else [];
      assert x + (From(a[1..], id) + From(b, id)) == (x + From(a[1..], id)) + From(b, id);
    }
  }

  /** The way down the marked cycle, and the fork at its start. */
  lemma CycleAdjacency(g: Graph, m: seq<Edge>, p: seq<Edge>, i: nat)
    requires Closed(g) && g.edges == m + p && Apart(m, p) && i < |m|
    ensures Adjacency(g, m[i].from) == if i == 0 then [m[0], p[0]] else [m[i]]
  {
    assert m[i] in m && m[i] in g.edges;
    hide From, Apart, Closed;
    FromAppend(m, p, m[i].from);
    CycleFrom(m, p, i);
  }

  lemma CycleFrom(m: seq<Edge>, p: seq<Edge>, i: nat)
    requires Apart(m, p) && i < |m|
    ensures p != [] && From(m, m[i].from) + From(p, m[i].from) == if i == 0 then [m[0], p[0]] else [m[i]]
  {
    hide From, Apart;
    OnlyOneFrom(m, p, i);
    FromOne(m, i);
    if i == 0 {
      FromOne(p, 0);
      assert [m[0]] + [p[0]] == [m[0], p[0]];
    } else {
      FromNone(p, m[i].from);
      assert [m[i]] + [] == [m[i]];
    }
  }

  lemma OnlyOneFrom(m: seq<Edge>, p: seq<Edge>, i: nat)
    requires Apart(m, p) && i < |m|
    ensures p != [] && p[0].from == m[0].from
    ensures forall j :: 0 <= j < |m| && j != i ==> m[j].from != m[i].from
    ensures forall j :: 0 <= j < |p| && j != 0 ==> p[j].from != p[0].from
    ensures i > 0 ==> forall e | e in p :: e.from != m[i].from
  {
    if i > 0 {
      forall e | e in p ensures e.from != m[i].from {
        var j :| 0 <= j < |p| && p[j] == e;
        if j == 0 { assert m[0].from != m[i].from; }
      }
    }
  }

  lemma SideAdjacency(g: Graph, m: seq<Edge>, p: seq<Edge>, j: nat)
    requires Closed(g) && g.edges == m + p && Apart(m, p) && 0 < j < |p|
    ensures Adjacency(g, p[j].from) == [p[j]]
  {
    assert p[j] in p && p[j] in g.edges;
    FromAppend(m, p, p[j].from);
    FromNone(m, p[j].from);
    FromOne(p, j);
    assert [] + [p[j]] == [p[j]];
  }

  /** Where an edge of the cycle leads. */
  lemma NextOnCycle(g: Graph, m: seq<Edge>, i: nat)
    requires IsMarkedCycle(g, m) && i < |m|
    ensures m[i].to == if i == |m| - 1 then m[0].from else m[i + 1].from
    ensures m[i] in g.edges && HasLoop(m)
  {
    assert m[i] in m;
    if i < |m| - 1 { assert 0 < i + 1 < |m|; }
  }

  /** A visit to a node with one outgoing edge. */
  lemma OneWayOn(g: Graph, e: Edge, nodes: seq<string>, tree: seq<Edge>, order: seq<string>)
    requires Adjacency(g, e.from) == [e] && e in g.edges && e.from in Unseen(g, nodes, order)
    ensures var stack, r := nodes + [e.from], Descend(g, e.from, nodes, tree, order);
            if e.to in stack then
              var i := LastIndex(stack, e.to);
              i <= |tree| && HasLoop(tree[i..] + [e]) ==> r == Done(order + [e.from])
            else if e.to in order then r == Done(order + [e.from])
            else
              && e.to in Unseen(g, stack, order)
              && var v := Descend(g, e.to, stack, tree + [e], order);
                 r == if v.Cycle? then v else Done(v.order + [e.from])
  {
    hide Descend, Explore, HasLoop, Unseen, Adjacency, LastIndex;
    var stack := nodes + [e.from];
    VisitIs(g, e.from, nodes, tree, order);
    ExploreStep(g, [e], stack, tree, order);
    assert [e][1..] == [];
    forall later { ExploreEnd(g, stack, tree, later); }
  }

  /** Down the marked cycle: its last edge is excused, and all its nodes are finished. */
  lemma {:induction false} AroundTheCycle(g: Graph, m: seq<Edge>, p: seq<Edge>, i: nat)
    requires Closed(g) && g.edges == m + p && Apart(m, p) && IsMarkedCycle(g, m) && 0 < i < |m|
    requires m[i].from in Unseen(g, Starts(m)[..i], [])
    ensures var r := Descend(g, m[i].from, Starts(m)[..i], m[..i], []);
            r.Done? && forall n :: n in r.order <==> n in Starts(m)[i..]
    decreases |m| - i
  {
    hide Descend, Explore, HasLoop, Unseen, Adjacency, Apart, IsMarkedCycle, Starts, LastIndex, Closed;
    NextOnCycle(g, m, i);
    CycleAdjacency(g, m, p, i);
    DistinctStarts(m, p);
    var starts, tree := Starts(m), m[..i];
    NewToPrefix(starts, i);
    OneWayOn(g, m[i], starts[..i], tree, []);
    if i == |m| - 1 {
      FirstOnly(starts[..i + 1]);
      assert tree[0..] + [m[i]] == m;
      assert starts[i..] == [m[i].from];
    } else {
      assert tree + [m[i]] == m[..i + 1];
      NewToPrefix(starts, i + 1);
      AroundTheCycle(g, m, p, i + 1);
      assert starts[i..] == [m[i].from] + starts[i + 1..];
    }
  }

  lemma NewToPrefix(s: seq<string>, i: nat)
    requires Distinct(s) && i < |s|
    ensures s[i] !in s[..i] && s[..i] + [s[i]] == s[..i + 1]
  {
  }

  lemma FirstEdges(m: seq<Edge>, p: seq<Edge>)
    requires Apart(m, p)
    ensures var start := m[0].from;
            && Starts(m)[..1] == [start] && Starts(p)[..1] == [start] && [] + [start] == [start]
            && m[..1] == [m[0]] && [] + [m[0]] == [m[0]] && [m[0], p[0]][1..] == [p[0]] && [p[0]][1..] == []
  {
  }

  lemma HeadOrTail(s: seq<string>)
    requires s != []
    ensures forall n :: n in s <==> n == s[0] || n in s[1..]
  {
    assert s == [s[0]] + s[1..];
  }

  lemma DistinctStarts(m: seq<Edge>, p: seq<Edge>)
    requires Apart(m, p)
    ensures Distinct(Starts(m)) && |Starts(m)| == |m| && forall i :: 0 <= i < |m| ==> Starts(m)[i] == m[i].from
    ensures p[0].from == m[0].from
  {
  }

  lemma FirstOnly(nodes: seq<string>)
    requires Distinct(nodes) && nodes != []
    ensures LastIndex(nodes, nodes[0]) == 0
  {
  }

  /** Along the path beside the cycle, whose nodes are finished by then. */
  lemma {:induction false} BesideTheCycle(
    g: Graph, m: seq<Edge>, p: seq<Edge>, k: nat, j: nat, tree: seq<Edge>, order: seq<string>)
    requires IsDetour(g, m, p, k) && 0 < j < |p|
    requires forall n :: n in order <==> n in Starts(m)[1..]
    requires p[j].from in Unseen(g, Starts(p)[..j], order)
    ensures var r := Descend(g, p[j].from, Starts(p)[..j], tree, order);
            r.Done? && forall n :: n in r.order <==> n in Starts(m)[1..] || n in Starts(p)[j..]
    decreases |p| - j
  {
    hide Descend, Explore, HasLoop, Unseen, Adjacency, IsDetour, Starts, LastIndex;
    PathBeside(g, m, p, k, j);
    var starts := Starts(p);
    NewToPrefix(starts, j);
    OneWayOn(g, p[j], starts[..j], tree, order);
    if j == |p| - 1 {
      assert starts[j..] == [p[j].from];
    } else {
      NewToPrefix(starts, j + 1);
      BesideTheCycle(g, m, p, k, j + 1, tree + [p[j]], order);
      assert starts[j..] == [p[j].from] + starts[j + 1..];
    }
  }

  /** Where an edge of the path leads: on along the path, or to a later node of the cycle. */
  lemma PathBeside(g: Graph, m: seq<Edge>, p: seq<Edge>, k: nat, j: nat)
    requires IsDetour(g, m, p, k) && j < |p|
    ensures Distinct(Starts(p)) && |Starts(p)| == |p| && Starts(p)[j] == p[j].from && p[j] in g.edges
    ensures j > 0 ==> Adjacency(g, p[j].from) == [p[j]]
    ensures if j < |p| - 1
            then p[j].to == p[j + 1].from && Starts(p)[j + 1] == p[j + 1].from && p[j + 1].from !in Starts(m)
            else p[j].to in Starts(m)[1..] && p[j].to !in Starts(p)
  {
    assert p[j] in p;
    if j > 0 { SideAdjacency(g, m, p, j); }
    StartsApart(m, p);
    hide Apart, Adjacency, IsMarkedCycle, Starts, Closed;
    if j < |p| - 1 {
      assert 0 < j + 1 < |p|;
    } else {
      NextOnCycle(g, m, k);
      assert Starts(m)[1..][k] == m[k + 1].from;
    }
  }

  lemma StartsApart(m: seq<Edge>, p: seq<Edge>)
    requires Apart(m, p)
    ensures Distinct(Starts(p)) && |Starts(p)| == |p| && |Starts(m)| == |m|
    ensures forall j :: 0 <= j < |p| ==> Starts(p)[j] == p[j].from
    ensures forall j :: 0 <= j < |m| ==> Starts(m)[j] == m[j].from
    ensures forall j :: 0 < j < |p| ==> Starts(p)[j] !in Starts(m)
    ensures forall n :: n in Starts(m)[1..] ==> n !in Starts(p)
  {
  }

  lemma {:induction false} AllVisited(g: Graph, ids: seq<string>, order: seq<string>)
    requires forall id | id in ids :: id in g.nodes && id in order
    ensures VisitAll(g, ids, order) == Done(order)
    decreases |ids|
  {
    if ids != [] { AllVisited(g, ids[1..], order); }
  }

  lemma DetourParts(g: Graph, m: seq<Edge>, p: seq<Edge>, k: nat)
    requires IsDetour(g, m, p, k)
    ensures Closed(g) && g.edges == m + p && Apart(m, p) && IsMarkedCycle(g, m) && Chain(m) && Chain(p)
    ensures k + 1 < |m| && p != [] && p[|p| - 1].to == m[k].to
    ensures Plain(g, p) && Plain(g, m[k + 1..]) && g.nodes != [] && g.nodes[0] == m[0].from
    ensures forall n | n in g.nodes :: n in Starts(m) || n in Starts(p)
  {
    hide Plain, Chain, Closed, HasLoop;
  }

  lemma StartIsNew(g: Graph, id: string)
    requires Closed(g) && id in g.nodes && exists e | e in g.edges :: e.to == id
    ensures id in Unseen(g, [], [])
  {
  }

  /** The fork at the start: around the cycle first, then along the path. */
  lemma Fork(g: Graph, m: seq<Edge>, p: seq<Edge>, k: nat)
    requires IsDetour(g, m, p, k) && m[0].from in Unseen(g, [], [])
    ensures var r := Descend(g, m[0].from, [], [], []);
            r.Done? && forall n :: n in Starts(m) || n in Starts(p) ==> n in r.order
  {
    hide Descend, Explore, HasLoop, Unseen, Adjacency, IsDetour, Apart, IsMarkedCycle, Starts, Closed;
    DetourParts(g, m, p, k);
    PathBeside(g, m, p, k, 0);
    CycleAdjacency(g, m, p, 0);
    NextOnCycle(g, m, 0);
    DistinctStarts(m, p);
    var start := m[0].from;
    FirstEdges(m, p);
    VisitIs(g, start, [], [], []);
    ExploreStep(g, [m[0], p[0]], [start], [], []);
    NewToPrefix(Starts(m), 1);
    AroundTheCycle(g, m, p, 1);
    var order := Descend(g, m[1].from, [start], [m[0]], []).order;
    ExploreStep(g, [p[0]], [start], [], order);
    if |p| == 1 {
      ExploreEnd(g, [start], [], order);
    } else {
      NewToPrefix(Starts(p), 1);
      BesideTheCycle(g, m, p, k, 1, [] + [p[0]], order);
      ExploreEnd(g, [start], [], Descend(g, p[1].from, [start], [] + [p[0]], order).order);
    }
    HeadOrTail(Starts(m));
    HeadOrTail(Starts(p));
  }

  /** Of whatever length they are: a loop-free cycle that shares a stretch with a marked
      one is missed when the marked one is listed first. */
  lemma DetourMissed(g: Graph, m: seq<Edge>, p: seq<Edge>, k: nat)
    requires IsDetour(g, m, p, k)
    ensures Search(g).Done? && IsLoopFreeCycle(g, p + m[k + 1..]) && Excusable(g, m[k + 1])
  {
    hide Descend, Unseen, IsLoopFreeCycle, Apart, Starts, IsMarkedCycle, IsDetour, Closed, Plain;
    DetourParts(g, m, p, k);
    NextOnCycle(g, m, |m| - 1);
    StartIsNew(g, m[0].from);
    assert m[k + 1] in m;
    Fork(g, m, p, k);
    PlainRest(g, m, p, k);
    var order := Descend(g, m[0].from, [], [], []).order;
    assert forall id | id in g.nodes[1..] :: id in g.nodes;
    AllVisited(g, g.nodes[1..], order);
  }

  lemma ChainsJoin(a: seq<Edge>, b: seq<Edge>)
    requires a != [] && b != [] && Chain(a) && Chain(b) && a[|a| - 1].to == b[0].from
    ensures Chain(a + b)
  {
    forall i | 0 < i < |a + b| ensures (a + b)[i - 1].to == (a + b)[i].from {
      if i < |a| {
        assert a[i - 1].to == a[i].from;
      } else if i > |a| {
        assert b[i - |a| - 1].to == b[i - |a|].from;
      }
    }
  }

  lemma ChainRest(m: seq<Edge>, k: nat)
    requires Chain(m) && k < |m|
    ensures Chain(m[k..])
  {
    forall i | 0 < i < |m[k..]| ensures m[k..][i - 1].to == m[k..][i].from {
      assert m[k + i - 1].to == m[k + i].from;
    }
  }

  lemma WalksClose(g: Graph, a: seq<Edge>, b: seq<Edge>)
    requires a != [] && b != [] && Chain(a) && Chain(b) && a[|a| - 1].to == b[0].from
    requires b[|b| - 1].to == a[0].from && Plain(g, a) && Plain(g, b)
    ensures IsLoopFreeCycle(g, a + b)
  {
    ChainsJoin(a, b);
  }

  lemma PlainRest(g: Graph, m: seq<Edge>, p: seq<Edge>, k: nat)
    requires IsDetour(g, m, p, k)
    ensures IsLoopFreeCycle(g, p + m[k + 1..])
  {
    hide Apart, HasLoop, Starts, IsDetour, IsMarkedCycle, Chain, Closed, Plain, IsLoopFreeCycle;
    DetourParts(g, m, p, k);
    DistinctStarts(m, p);
    NextOnCycle(g, m, k);
    NextOnCycle(g, m, |m| - 1);
    ChainRest(m, k + 1);
    WalksClose(g, p, m[k + 1..]);
  }

  // ----- The search of the source: sets and stacks updated in place -----

  class CycleSearch {
    const graph: Graph
    var visiting: set<string>
    var visited: set<string>
    var stackNodes: seq<string>
    var stackEdges: seq<Edge>
    ghost var order: seq<string>

    /** The sets hold what the stack and the finishing order hold. */
    ghost predicate Valid()
      reads this
    {
      && visiting == Elems(stackNodes)
      && visited == Elems(order)
    }

    constructor (g: Graph)
      ensures Valid() && graph == g && stackNodes == [] && stackEdges == [] && order == []
    {
      graph := g;
      visiting, visited, stackNodes, stackEdges := {}, {}, [], [];
      order := [];
    }

    /** The stacks are as before, and the finished nodes are as the outcome says. */
    ghost predicate Finished(r: Outcome, nodes: seq<string>, tree: seq<Edge>)
      requires r.Done?
      reads this
    {
      order == r.order && stackNodes == nodes && stackEdges == tree
    }

    method Visit(nodeId: string) returns (error: Option<seq<Edge>>)
      requires Valid() && nodeId in Unseen(graph, stackNodes, order)
      modifies this
      ensures var r := Descend(graph, nodeId, old(stackNodes), old(stackEdges), old(order));
              && error == (if r.Cycle? then Some(r.edges) else None)
              && (r.Done? ==> Valid() && Finished(r, old(stackNodes), old(stackEdges)))
      decreases |Unseen(graph, stackNodes, order)|, 0
    {
      hide Descend, Explore, Adjacency, Elems, Unseen;
      UnseenIsNew(graph, nodeId, stackNodes, order);
      VisitIs(graph, nodeId, stackNodes, stackEdges, order);
      UnseenShrinks(graph, nodeId, stackNodes, order);
      Enter(nodeId);
      error := ScanEdges(Adjacency(graph, nodeId));
      if error.None? {
        Leave(nodeId, old(stackNodes));
      }
    }

    method Enter(nodeId: string)
      requires Valid()
      modifies this`visiting, this`stackNodes
      ensures Valid() && stackNodes == old(stackNodes) + [nodeId]
    {
      ElemsSnoc(stackNodes, nodeId);
      visiting := visiting + {nodeId};
      stackNodes := stackNodes + [nodeId];
    }

    method Leave(nodeId: string, ghost below: seq<string>)
      requires Valid() && stackNodes == below + [nodeId] && nodeId !in below
      modifies this`visiting, this`visited, this`stackNodes, this`order
      ensures Valid() && stackNodes == below && order == old(order) + [nodeId]
    {
      ElemsSnoc(below, nodeId);
      ElemsSnoc(order, nodeId);
      stackNodes := stackNodes[..|stackNodes| - 1];
      visiting := visiting - {nodeId};
      visited := visited + {nodeId};
      order := order + [nodeId];
    }

    /** The loop over the outgoing edges. */
    method ScanEdges(edges: seq<Edge>) returns (error: Option<seq<Edge>>)
      requires Valid() && forall e | e in edges :: e in graph.edges
      modifies this
      ensures var r := Explore(graph, edges, old(stackNodes), old(stackEdges), old(order));
              && error == (if r.Cycle? then Some(r.edges) else None)
              && (r.Done? ==> Valid() && Finished(r, old(stackNodes), old(stackEdges)))
      decreases |Unseen(graph, stackNodes, order)|, 2
    {
      hide Descend, Explore, HasLoop, LastIndex, Elems, Unseen, Universe;
      ghost var nodes0, tree0, order0 := stackNodes, stackEdges, order;
      ghost var all := Explore(graph, edges, stackNodes, stackEdges, order);
      var i := 0;
      while i < |edges|
        invariant 0 <= i <= |edges| && Valid()
        invariant stackNodes == nodes0 && stackEdges == tree0
        invariant |Unseen(graph, nodes0, order)| <= |Unseen(graph, nodes0, order0)|
        invariant Explore(graph, edges[i..], nodes0, tree0, order) == all
      {
        var edge := edges[i];
        assert edges[i..][0] == edge && edges[i..][1..] == edges[i + 1..];
        ExploreStep(graph, edges[i..], nodes0, tree0, order);
        ElemsSnoc(stackNodes, edge.to);
        ElemsSnoc(order, edge.to);
        if edge.to in visiting {
          var index := LastIndex(stackNodes, edge.to);
          var cycleEdges := (if index <= |stackEdges| then stackEdges[index..] else []) + [edge];
          if !HasLoop(cycleEdges) {
            return Some(cycleEdges);
          }
        } else if edge.to !in visited {
          ghost var before := order;
          error := Follow(edge);
          if error.Some? {
            return;
          }
          UnseenMonotone(graph, nodes0, before, order);
        }
        i := i + 1;
      }
      ExploreEnd(graph, nodes0, tree0, order);
      assert edges[i..] == [];
      return None;
    }

    /** The tree edge to a new node: pushed, walked and popped again. */
    method Follow(edge: Edge) returns (error: Option<seq<Edge>>)
      requires Valid() && edge.to in Unseen(graph, stackNodes, order)
      modifies this
      ensures var r := Descend(graph, edge.to, old(stackNodes), old(stackEdges) + [edge], old(order));
              && error == (if r.Cycle? then Some(r.edges) else None)
              && (r.Done? ==> Valid() && Finished(r, old(stackNodes), old(stackEdges)))
      decreases |Unseen(graph, stackNodes, order)|, 1
    {
      hide Descend, Elems, Unseen;
      stackEdges := stackEdges + [edge];
      error := Visit(edge.to);
      if error.None? {
        stackEdges := stackEdges[..|stackEdges| - 1];
      }
    }
  }

  method CycleError(graph: Graph) returns (error: Option<seq<Edge>>)
    ensures error == if Search(graph).Cycle? then Some(Search(graph).edges) else None
  {
    hide Descend;
    var search := new CycleSearch(graph);
    for i := 0 to |graph.nodes|
      invariant search.Valid() && fresh(search) && search.graph == graph
      invariant search.stackNodes == [] && search.stackEdges == []
      invariant VisitAll(graph, graph.nodes[i..], search.order) == Search(graph)
    {
      var node := graph.nodes[i];
      assert graph.nodes[i..][0] == node && graph.nodes[i..][1..] == graph.nodes[i + 1..];
      if node !in search.visited {
        error := search.Visit(node);
        if error.Some? {
          return;
        }
      }
    }
    return None;
  }

  // ----- Validation -----

  const PREFIX := "predicate:"

  function PredicateName(when: string): string {
    if PREFIX <= when then when[|PREFIX|..] else when
  }

  datatype GraphError =
    | VersionRequired
    | NodeIdRequired
    | DuplicateNode(id: string)
    | UnknownStart(id: string)
    | UnknownNodeInEdge(edge: Edge)
    | PredicateRequired
    | UnregisteredPredicate(name: string)
    | CycleWithoutLoop(cycle: seq<Edge>)

  /** Everything validation asks for besides the cycle check. */
  ghost predicate WellFormed(g: Graph) {
    && !Blank(g.version)
    && (forall id | id in g.nodes :: !Blank(id))
    && (forall i, j :: 0 <= i < j < |g.nodes| ==> g.nodes[i] != g.nodes[j])
    && g.start in g.nodes
    && Closed(g)
    && (forall e | e in g.edges :: !Blank(e.when) && PredicateName(e.when) in g.predicates)
  }

  /** An error that is reported is one the graph has. */
  ghost predicate ErrorHolds(g: Graph, error: GraphError) {
    match error
    case VersionRequired => Blank(g.version)
    case NodeIdRequired => exists id | id in g.nodes :: Blank(id)
    case DuplicateNode(id) => exists i, j :: 0 <= i < j < |g.nodes| && g.nodes[i] == id && g.nodes[j] == id
    case UnknownStart(id) => id == g.start && g.start !in g.nodes
    case UnknownNodeInEdge(e) => e in g.edges && (e.from !in g.nodes || e.to !in g.nodes)
    case PredicateRequired => exists e | e in g.edges :: Blank(e.when)
    case UnregisteredPredicate(name) =>
      name !in g.predicates && exists e | e in g.edges :: PredicateName(e.when) == name
    case CycleWithoutLoop(cycle) => IsLoopFreeCycle(g, cycle)
  }

  /** A condition names a predicate with or without the word `predicate:` before it, taken
      off once. */
  lemma ConditionNames(name: string)
    ensures PredicateName("predicate:" + name) == name
    ensures (forall rest :: name != "predicate:" + rest) ==> PredicateName(name) == name
  {
    if "predicate:" <= name { assert name == "predicate:" + name[10..]; }
  }

  /** Some character of the text is not white space. */
  predicate Visible(s: string) {
    exists i :: 0 <= i < |s| && !IsSpace(s[i])
  }

  lemma {:induction false} BlankIff(s: string)
    ensures Blank(s) <==> !Visible(s)
  {
    if s != "" {
      BlankIff(s[1..]);
      assert forall i :: 0 < i < |s| ==> s[i] == s[1..][i - 1];
    }
  }

  /** The condition names the predicate, with `predicate:` in front or without. */
  predicate Names(when: string, name: string) {
    if "predicate:" <= when then when == "predicate:" + name else when == name
  }

  /** What validation asks for: visible version, node ids and conditions, each node once, a
      known start, edges between known nodes, and registered predicates. */
  lemma WellFormedIff(g: Graph)
    ensures WellFormed(g) <==>
      && Visible(g.version) && (forall id | id in g.nodes :: Visible(id))
      && (forall i, j :: 0 <= i < j < |g.nodes| ==> g.nodes[i] != g.nodes[j])
      && g.start in g.nodes
      && (forall e | e in g.edges :: e.from in g.nodes && e.to in g.nodes)
      && (forall e | e in g.edges ::
            Visible(e.when) && exists name :: name in g.predicates && Names(e.when, name))
  {
    forall s: string ensures Blank(s) <==> !Visible(s) { BlankIff(s); }
    hide Blank, Visible;
    forall e | e in g.edges
      ensures PredicateName(e.when) in g.predicates <==>
        exists name :: name in g.predicates && Names(e.when, name)
    {
      NamedBy(e.when, g.predicates);
    }
  }

  lemma NamedBy(when: string, predicates: seq<string>)
    ensures PredicateName(when) in predicates <==>
      exists name :: name in predicates && Names(when, name)
  {
    if "predicate:" <= when {
      assert when == "predicate:" + PredicateName(when);
      forall name | name in predicates && when == "predicate:" + name ensures name == PredicateName(when) {
        ConditionNames(name);
      }
      assert PredicateName(when) in predicates ==> Names(when, PredicateName(when));
    } else {
      assert Names(when, when);
    }
  }

  method ValidateExecutionGraph(g: Graph) returns (error: Option<GraphError>)
    ensures error == None <==> WellFormed(g) && Search(g).Done?
    ensures error.Some? && error.value.CycleWithoutLoop?
            <==> WellFormed(g) && Search(g).Cycle?
    ensures error.Some? ==> ErrorHolds(g, error.value)
  {
    hide Blank, PredicateName, Search, IsLoopFreeCycle;
    if Blank(g.version) {
      return Some(VersionRequired);
    }
    var ids: set<string> := {};
    for i := 0 to |g.nodes|
      invariant ids == set j | 0 <= j < i :: g.nodes[j]
      invariant forall j :: 0 <= j < i ==> !Blank(g.nodes[j])
      invariant forall j, k :: 0 <= j < k < i ==> g.nodes[j] != g.nodes[k]
    {
      if Blank(g.nodes[i]) {
        return Some(NodeIdRequired);
      }
      if g.nodes[i] in ids {
        return Some(DuplicateNode(g.nodes[i]));
      }
      ids := ids + {g.nodes[i]};
    }
    assert forall id :: id in ids <==> id in g.nodes;
    if g.start !in ids {
      return Some(UnknownStart(g.start));
    }
    for i := 0 to |g.edges|
      invariant forall j :: 0 <= j < i ==>
                              && g.edges[j].from in g.nodes && g.edges[j].to in g.nodes
                              && !Blank(g.edges[j].when) && PredicateName(g.edges[j].when) in g.predicates
    {
      var edge := g.edges[i];
      if edge.from !in ids || edge.to !in ids {
        return Some(UnknownNodeInEdge(edge));
      }
      if Blank(edge.when) {
        return Some(PredicateRequired);
      }
      if PredicateName(edge.when) !in g.predicates {
        return Some(UnregisteredPredicate(PredicateName(edge.when)));
      }
    }
    var cycle := CycleError(g);
    RejectionIsSound(g);
    if cycle.Some? {
      return Some(CycleWithoutLoop(cycle.value));
    }
    return None;
  }
}
