/** The canonical form behind digests: object keys put in order at every level. */
module CanonicalValues {

  import opened Wrappers

  datatype Value =
    | Null
    | Bool(b: bool)
    | Number(n: real)
    | Text(text: string)
    | List(elements: seq<Value>)
    | Object(fields: seq<Field>)

  /** An object's fields stand in the order they were written. */
  datatype Field = Field(key: string, value: Value)

  predicate Below(s: string, t: string) {
    t != [] && (s == [] || s[0] < t[0] || (s[0] == t[0] && Below(s[1..], t[1..])))
  }

  function Insert(sorted: seq<Field>, f: Field): seq<Field> {
    if sorted == [] || Below(f.key, sorted[0].key) then [f] + sorted
    else [sorted[0]] + Insert(sorted[1..], f)
  }

  function SortFields(fields: seq<Field>): seq<Field> {
    if fields == [] then [] else Insert(SortFields(fields[1..]), fields[0])
  }

  function Canonical(v: Value): Value {
    match v
    case List(elements) => List(CanonicalAll(elements))
    case Object(fields) => Object(SortFields(CanonicalFields(fields)))
    case _ => v
  }

  function CanonicalAll(elements: seq<Value>): seq<Value> {
    if elements == [] then [] else [Canonical(elements[0])] + CanonicalAll(elements[1..])
  }

  function CanonicalFields(fields: seq<Field>): seq<Field> {
    if fields == [] then []
    else [Field(fields[0].key, Canonical(fields[0].value))] + CanonicalFields(fields[1..])
  }

  // ----- Equality up to the order of keys -----

  function Lookup(fields: seq<Field>, key: string): Option<Value> {
    if fields == [] then None
    else if fields[0].key == key then Some(fields[0].value)
    else Lookup(fields[1..], key)
  }

  predicate Same(a: Value, b: Value) {
    match (a, b)
    case (List(s), List(t)) => SameAll(s, t)
    case (Object(f), Object(g)) =>
      SameFields(f, g) && forall x :: x in g ==> Lookup(f, x.key).Some?
    case _ => a == b
  }

  predicate SameAll(s: seq<Value>, t: seq<Value>) {
    if s == [] || t == [] then s == t
    else Same(s[0], t[0]) && SameAll(s[1..], t[1..])
  }

  /** Every field of `f` has its counterpart in `g`, wherever it stands. */
  predicate SameFields(f: seq<Field>, g: seq<Field>) {
    f != [] ==>
      && (match Lookup(g, f[0].key)
          case None => false
          case Some(v) => Same(f[0].value, v))
      && SameFields(f[1..], g)
  }

  /** No object names a key twice. */
  predicate WellKeyed(v: Value) {
    match v
    case List(elements) => forall e :: e in elements ==> WellKeyed(e)
    case Object(fields) => DistinctKeys(fields) && forall f :: f in fields ==> WellKeyed(f.value)
    case _ => true
  }

  predicate DistinctKeys(fields: seq<Field>) {
    forall i, j :: 0 <= i < j < |fields| ==> fields[i].key != fields[j].key
  }

  // ----- Sorting -----

  lemma {:induction false} BelowIsTransitive(s: string, t: string, u: string)
    requires Below(s, t) && Below(t, u)
    ensures Below(s, u)
  {
    if s != [] && s[0] == t[0] && t[0] == u[0] { BelowIsTransitive(s[1..], t[1..], u[1..]); }
  }

  lemma {:induction false} BelowIsTotal(s: string, t: string)
    ensures s == t || Below(s, t) || Below(t, s)
    ensures !(Below(s, t) && Below(t, s)) && !Below(s, s)
  {
    if s != [] && t != [] {
      BelowIsTotal(s[1..], t[1..]);
      assert s == [s[0]] + s[1..] && t == [t[0]] + t[1..];
    }
    if s != [] { BelowIsTotal(s[1..], s[1..]); }
  }

  predicate Sorted(fields: seq<Field>) {
    forall i, j :: 0 <= i < j < |fields| ==> Below(fields[i].key, fields[j].key)
  }

  lemma {:induction false} InsertSorts(sorted: seq<Field>, f: Field)
    requires Sorted(sorted) && forall x :: x in sorted ==> x.key != f.key
    ensures var r := Insert(sorted, f); Sorted(r) && forall x :: x in r <==> x in sorted || x == f
  {
    if sorted == [] {
    } else if Below(f.key, sorted[0].key) {
      forall i | 0 <= i < |sorted| ensures Below(f.key, sorted[i].key) {
        if i > 0 { BelowIsTransitive(f.key, sorted[0].key, sorted[i].key); }
      }
    } else {
      var rest := Insert(sorted[1..], f);
      assert sorted == [sorted[0]] + sorted[1..];
      InsertSorts(sorted[1..], f);
      BelowIsTotal(f.key, sorted[0].key);
      assert sorted[0] in sorted;
      forall i | 0 <= i < |rest| ensures Below(sorted[0].key, rest[i].key) {
        assert rest[i] in rest;
      }
    }
  }

  lemma {:induction false} SortSorts(fields: seq<Field>)
    requires DistinctKeys(fields)
    ensures var r := SortFields(fields); Sorted(r) && forall x :: x in r <==> x in fields
  {
    if fields != [] {
      SortSorts(fields[1..]);
      assert fields == [fields[0]] + fields[1..];
      forall x | x in SortFields(fields[1..]) ensures x.key != fields[0].key {
        assert x in fields[1..];
        var i :| 0 <= i < |fields| - 1 && fields[1..][i] == x;
        assert fields[i + 1] == x;
      }
      InsertSorts(SortFields(fields[1..]), fields[0]);
    }
  }

  lemma FirstOnlyFirst(a: seq<Field>)
    requires Sorted(a) && a != []
    ensures forall x :: x in a[1..] <==> x in a && x != a[0]
  {
    BelowIsTotal(a[0].key, a[0].key);
    assert a == [a[0]] + a[1..];
  }

  /** A sorted list is fixed by what is in it. */
  lemma {:induction false} SortedBySet(a: seq<Field>, b: seq<Field>)
    requires Sorted(a) && Sorted(b) && forall x :: x in a <==> x in b
    ensures a == b
  {
    assert (a != [] ==> a[0] in a) && (b != [] ==> b[0] in b);
    if a != [] && b != [] {
      BelowIsTotal(a[0].key, b[0].key);
      assert a[0] == b[0];
      FirstOnlyFirst(a);
      FirstOnlyFirst(b);
      SortedBySet(a[1..], b[1..]);
    }
  }

  // ----- The canonical form tells apart exactly what differs -----

  lemma {:induction false} CanonicalKeys(fields: seq<Field>)
    ensures var c := CanonicalFields(fields);
            |c| == |fields| && forall i :: 0 <= i < |c| ==> c[i] == Field(fields[i].key, Canonical(fields[i].value))
  {
    if fields != [] { CanonicalKeys(fields[1..]); }
  }

  lemma {:induction false} LookupFinds(fields: seq<Field>, key: string)
    ensures match Lookup(fields, key)
            case None => forall x :: x in fields ==> x.key != key
            case Some(v) => Field(key, v) in fields
  {
    if fields != [] {
      LookupFinds(fields[1..], key);
      assert fields == [fields[0]] + fields[1..];
    }
  }

  /** The canonical form of a field is in that of `g` just when `g` gives its key such a value. */
  lemma CanonicalIn(g: seq<Field>, key: string, v: Value)
    requires DistinctKeys(g)
    ensures Field(key, v) in CanonicalFields(g) <==>
            Lookup(g, key).Some? && Canonical(Lookup(g, key).value) == v
  {
    CanonicalKeys(g);
    LookupFinds(g, key);
    if Lookup(g, key).Some? {
      var i :| 0 <= i < |g| && g[i] == Field(key, Lookup(g, key).value);
      assert CanonicalFields(g)[i] == Field(key, Canonical(g[i].value));
    }
  }

  lemma {:induction false} CanonicalIdentifies(a: Value, b: Value)
    requires WellKeyed(a) && WellKeyed(b)
    ensures Canonical(a) == Canonical(b) <==> Same(a, b)
    decreases a, 1
  {
    match (a, b)
    case (List(s), List(t)) => ElementsIdentify(s, t);
    case (Object(f), Object(g)) => ObjectsIdentify(f, g);
    case _ =>
  }

  lemma {:induction false} ElementsIdentify(s: seq<Value>, t: seq<Value>)
    requires forall e :: e in s ==> WellKeyed(e)
    requires forall e :: e in t ==> WellKeyed(e)
    ensures CanonicalAll(s) == CanonicalAll(t) <==> SameAll(s, t)
    decreases s
  {
    if s != [] && t != [] {
      CanonicalIdentifies(s[0], t[0]);
      ElementsIdentify(s[1..], t[1..]);
      assert CanonicalAll(s)[1..] == CanonicalAll(s[1..]);
      assert CanonicalAll(t)[1..] == CanonicalAll(t[1..]);
    }
  }

  lemma ObjectsIdentify(f: seq<Field>, g: seq<Field>)
    requires WellKeyed(Object(f)) && WellKeyed(Object(g))
    ensures Canonical(Object(f)) == Canonical(Object(g)) <==> Same(Object(f), Object(g))
    decreases f, 1
  {
    var F, G := CanonicalFields(f), CanonicalFields(g);
    FieldsIdentify(f, g);
    SortedAlike(f, g);
    if SameFields(f, g) { KeysAlike(f, g); }
  }

  lemma SortedAlike(f: seq<Field>, g: seq<Field>)
    requires DistinctKeys(f) && DistinctKeys(g)
    ensures var F, G := CanonicalFields(f), CanonicalFields(g);
            SortFields(F) == SortFields(G) <==> forall x :: x in F <==> x in G
  {
    var F, G := CanonicalFields(f), CanonicalFields(g);
    CanonicalKeys(f);
    CanonicalKeys(g);
    SortSorts(F);
    SortSorts(G);
    if forall x :: x in F <==> x in G { SortedBySet(SortFields(F), SortFields(G)); }
  }

  /** Given that `g` holds every field of `f`, they agree when `f` has every key of `g`. */
  lemma KeysAlike(f: seq<Field>, g: seq<Field>)
    requires DistinctKeys(f) && DistinctKeys(g)
    requires forall x :: x in CanonicalFields(f) ==> x in CanonicalFields(g)
    ensures (forall x :: x in CanonicalFields(g) ==> x in CanonicalFields(f)) <==>
            forall x :: x in g ==> Lookup(f, x.key).Some?
  {
    var F, G := CanonicalFields(f), CanonicalFields(g);
    CanonicalKeys(g);
    if forall x :: x in G ==> x in F {
      forall x | x in g ensures Lookup(f, x.key).Some? {
        var i :| 0 <= i < |g| && g[i] == x;
        assert G[i] in F;
        CanonicalIn(f, x.key, Canonical(x.value));
      }
    }
    if forall x :: x in g ==> Lookup(f, x.key).Some? {
      forall x | x in G ensures x in F {
        var i :| 0 <= i < |G| && G[i] == x;
        assert g[i] in g;
        var y := Field(x.key, Canonical(Lookup(f, x.key).value));
        CanonicalIn(f, y.key, y.value);
        var j :| 0 <= j < |G| && G[j] == y;
        assert i == j;
      }
    }
  }

  lemma {:induction false} FieldsIdentify(f: seq<Field>, g: seq<Field>)
    requires forall x :: x in f ==> WellKeyed(x.value)
    requires WellKeyed(Object(g))
    ensures (forall x :: x in CanonicalFields(f) ==> x in CanonicalFields(g)) <==> SameFields(f, g)
    decreases f, 0
  {
    if f != [] {
      FieldsIdentify(f[1..], g);
      var head := Field(f[0].key, Canonical(f[0].value));
      assert CanonicalFields(f) == [head] + CanonicalFields(f[1..]);
      CanonicalIn(g, f[0].key, head.value);
      LookupFinds(g, f[0].key);
      if Lookup(g, f[0].key).Some? {
        CanonicalIdentifies(f[0].value, Lookup(g, f[0].key).value);
      }
    }
  }

  // ----- Consequences -----

  lemma {:induction false} CanonicalIsWellKeyed(v: Value)
    requires WellKeyed(v)
    ensures WellKeyed(Canonical(v))
    decreases v
  {
    match v
    case List(elements) =>
      forall e | e in CanonicalAll(elements) ensures WellKeyed(e) {
        ElementOf(elements, e);
        var d :| d in elements && Canonical(d) == e;
        CanonicalIsWellKeyed(d);
      }
    case Object(fields) =>
      CanonicalKeys(fields);
      SortSorts(CanonicalFields(fields));
      var sorted := SortFields(CanonicalFields(fields));
      forall i, j | 0 <= i < j < |sorted| ensures sorted[i].key != sorted[j].key {
        BelowIsTotal(sorted[i].key, sorted[j].key);
      }
      forall f | f in sorted ensures WellKeyed(f.value) {
        var i :| 0 <= i < |fields| && CanonicalFields(fields)[i] == f;
        CanonicalIsWellKeyed(fields[i].value);
      }
    case _ =>
  }

  lemma {:induction false} ElementOf(elements: seq<Value>, e: Value)
    requires e in CanonicalAll(elements)
    ensures exists d :: d in elements && Canonical(d) == e
  {
    if Canonical(elements[0]) == e {
      assert elements[0] in elements;
    } else {
      ElementOf(elements[1..], e);
      var d :| d in elements[1..] && Canonical(d) == e;
      assert d in elements;
    }
  }

  /** The canonical form is a fixed point, so it says the same as the value it came from. */
  lemma {:induction false} CanonicalIsFixed(v: Value)
    requires WellKeyed(v)
    ensures Canonical(Canonical(v)) == Canonical(v)
    decreases v
  {
    match v
    case List(elements) => ElementsFixed(elements);
    case Object(fields) =>
      var c := CanonicalFields(fields);
      CanonicalKeys(fields);
      SortSorts(c);
      hide WellKeyed, SortFields, CanonicalFields;
      forall x | x in SortFields(c) ensures Canonical(x.value) == x.value {
        assert x in c;
        var k :| 0 <= k < |c| && c[k] == x;
        CanonicalIsFixed(fields[k].value);
      }
      SortedIsFixed(SortFields(c));
    case _ =>
  }

  lemma SortedIsFixed(sorted: seq<Field>)
    requires Sorted(sorted) && forall x :: x in sorted ==> Canonical(x.value) == x.value
    ensures SortFields(CanonicalFields(sorted)) == sorted
  {
    CanonicalKeys(sorted);
    assert forall i :: 0 <= i < |sorted| ==> sorted[i] in sorted;
    assert CanonicalFields(sorted) == sorted;
    forall i, j | 0 <= i < j < |sorted| ensures sorted[i].key != sorted[j].key {
      BelowIsTotal(sorted[i].key, sorted[j].key);
    }
    SortSorts(sorted);
    SortedBySet(SortFields(sorted), sorted);
  }

  lemma {:induction false} ElementsFixed(elements: seq<Value>)
    requires forall e :: e in elements ==> WellKeyed(e)
    ensures CanonicalAll(CanonicalAll(elements)) == CanonicalAll(elements)
    decreases elements
  {
    if elements != [] {
      CanonicalIsFixed(elements[0]);
      ElementsFixed(elements[1..]);
      assert CanonicalAll(elements)[1..] == CanonicalAll(elements[1..]);
    }
  }

  /** Sameness of values is an equivalence, and the canonical form is the same value. */
  lemma SameIsEquivalence(a: Value, b: Value, c: Value)
    requires WellKeyed(a) && WellKeyed(b) && WellKeyed(c)
    ensures Same(a, a) && (Same(a, b) ==> Same(b, a)) && (Same(a, b) && Same(b, c) ==> Same(a, c))
    ensures Same(a, Canonical(a))
  {
    hide Canonical, Same, WellKeyed;
    CanonicalIdentifies(a, a);
    CanonicalIdentifies(a, b);
    CanonicalIdentifies(b, a);
    CanonicalIdentifies(b, c);
    CanonicalIdentifies(a, c);
    CanonicalIsWellKeyed(a);
    CanonicalIsFixed(a);
    CanonicalIdentifies(a, Canonical(a));
  }
}
