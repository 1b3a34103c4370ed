/** What an AMF0 document reaches: which objects, and which embedded AMF3 values. The writer meets exactly
    these, so a document that can be written holds no dangling reference there. */
module Amf0Closed {
  import opened Amf0
  import opened Amf0Same
  import A3 = Amf3
  import G3 = Amf3Graph
  import C3 = Amf3Closed
  import D3 = Amf3Demand
  import W0 = Amf0Rewrite

  /** The objects that a value refers to itself, not through other objects. */
  ghost function Mentioned(v: Value): set<nat>
    decreases v, 0
  {
    match v
    case Reference(id) => {id}
    case StrictArray(items) => AllMentioned(items)
    case Object(ps) => PropertiesMentioned(ps)
    case TypedObject(_, ps) => PropertiesMentioned(ps)
    case _ => {}
  }

  ghost function AllMentioned(vs: seq<Value>): set<nat>
    decreases vs, 1
  {
    if vs == [] then {} else Mentioned(vs[0]) + AllMentioned(vs[1..])
  }

  ghost function PropertiesMentioned(ps: seq<Property>): set<nat>
    decreases ps, 1
  {
    if ps == [] then {} else Mentioned(ps[0].value) + PropertiesMentioned(ps[1..])
  }

  /** The embedded values that a value holds itself. */
  ghost function Inners(v: Value): set<A3.Value>
    decreases v, 0
  {
    match v
    case AvmPlus(inner) => {inner}
    case StrictArray(items) => AllInners(items)
    case Object(ps) => PropertiesInners(ps)
    case TypedObject(_, ps) => PropertiesInners(ps)
    case _ => {}
  }

  ghost function AllInners(vs: seq<Value>): set<A3.Value>
    decreases vs, 1
  {
    if vs == [] then {} else Inners(vs[0]) + AllInners(vs[1..])
  }

  ghost function PropertiesInners(ps: seq<Property>): set<A3.Value>
    decreases ps, 1
  {
    if ps == [] then {} else Inners(ps[0].value) + PropertiesInners(ps[1..])
  }

  // ----- what the writer meets --------------------------------------------------------------------------------

  ghost predicate Writable(doc: Document, x: A3.Value) {
    A3.WriteValue(doc.embedded, A3.NewEncodeContext, x, 0).Ok?
  }

  /** The embedded value can be written, and a reader's tables have room for it. */
  ghost predicate Room(doc: Document, x: A3.Value) {
    Writable(doc, x) && TablesFit(A3.WriteValue(doc.embedded, A3.NewEncodeContext, x, 0).value.1)
  }

  /** Met in `c'` and not in `c`. */
  ghost predicate Newly(c: Context, c': Context, id: nat) {
    id in c'.refs && id !in c.refs
  }

  /** The embedded value is one of these, or in an object newly met. */
  ghost predicate Comes(doc: Document, c: Context, c': Context, inners: set<A3.Value>, x: A3.Value) {
    x in inners || exists id: nat :: Newly(c, c', id) && id < |doc.objects| && x in Inners(doc.objects[id])
  }

  /** From `c` to `c'` the writer has met `ids` and `inners`, and all that the objects newly met hold. */
  ghost predicate Gathers(doc: Document, c: Context, c': Context, ids: set<nat>, inners: set<A3.Value>) {
    && c.refs.Keys <= c'.refs.Keys && ids <= c'.refs.Keys
    && (forall id: nat :: Newly(c, c', id) ==> !Dangling(doc.objects, id) && Mentioned(doc.objects[id]) <= c'.refs.Keys)
    && (forall x :: Comes(doc, c, c', inners, x) ==> Writable(doc, x))
    && (c'.tablesFit <==> c.tablesFit && forall x :: Comes(doc, c, c', inners, x) ==> Room(doc, x))
  }

  lemma GathersNone(doc: Document, c: Context)
    ensures Gathers(doc, c, c, {}, {})
  {
  }

  lemma ComesBoth(doc: Document, c: Context, c1: Context, c2: Context, a: set<A3.Value>, b: set<A3.Value>, x: A3.Value)
    requires c.refs.Keys <= c1.refs.Keys <= c2.refs.Keys
    ensures Comes(doc, c, c2, a + b, x) <==> Comes(doc, c, c1, a, x) || Comes(doc, c1, c2, b, x)
  {
    hide Inners;
    if id: nat :| Newly(c, c2, id) && id < |doc.objects| && x in Inners(doc.objects[id]) {
      assert Newly(c, c1, id) || Newly(c1, c2, id);
    }
    if id: nat :| Newly(c, c1, id) && id < |doc.objects| && x in Inners(doc.objects[id]) {
      assert Newly(c, c2, id);
    }
    if id: nat :| Newly(c1, c2, id) && id < |doc.objects| && x in Inners(doc.objects[id]) {
      assert Newly(c, c2, id);
    }
  }

  lemma GathersBoth(doc: Document, c: Context, c1: Context, c2: Context, ids1: set<nat>, ids2: set<nat>,
          inners1: set<A3.Value>, inners2: set<A3.Value>)
    requires Gathers(doc, c, c1, ids1, inners1) && Gathers(doc, c1, c2, ids2, inners2)
    ensures Gathers(doc, c, c2, ids1 + ids2, inners1 + inners2)
  {
    hide Comes, Writable, Room, Mentioned;
    forall x
      ensures Comes(doc, c, c2, inners1 + inners2, x) <==>
              Comes(doc, c, c1, inners1, x) || Comes(doc, c1, c2, inners2, x)
    {
      ComesBoth(doc, c, c1, c2, inners1, inners2, x);
    }
    forall id: nat | Newly(c, c2, id)
      ensures !Dangling(doc.objects, id) && Mentioned(doc.objects[id]) <= c2.refs.Keys
    {
      assert Newly(c, c1, id) || Newly(c1, c2, id);
    }
  }

  /** Only the references and the tables matter. */
  lemma SameGathers(doc: Document, c: Context, c1: Context, c': Context, ids: set<nat>, inners: set<A3.Value>)
    requires c1.refs == c.refs && c1.tablesFit == c.tablesFit && Gathers(doc, c1, c', ids, inners)
    ensures Gathers(doc, c, c', ids, inners)
  {
    hide Writable, Room, Mentioned;
    forall x
      ensures Comes(doc, c, c', inners, x) <==> Comes(doc, c1, c', inners, x)
    {
      assert forall id: nat :: Newly(c, c', id) <==> Newly(c1, c', id);
    }
    assert forall id: nat :: Newly(c, c', id) ==> Newly(c1, c', id);
  }

  lemma MeetingGathers(doc: Document, c: Context, id: nat, c1: Context, c': Context)
    requires !Dangling(doc.objects, id) && id !in c.refs && c1.refs.Keys == c.refs.Keys + {id}
             && c1.tablesFit == c.tablesFit
    requires Gathers(doc, c1, c', Mentioned(doc.objects[id]), Inners(doc.objects[id]))
    ensures Gathers(doc, c, c', {id}, {})
  {
    hide Writable, Room, Mentioned, Inners;
    forall x
      ensures Comes(doc, c, c', {}, x) <==> Comes(doc, c1, c', Inners(doc.objects[id]), x)
    {
      if k: nat :| Newly(c1, c', k) && k < |doc.objects| && x in Inners(doc.objects[k]) {
        assert Newly(c, c', k);
      }
      if x in Inners(doc.objects[id]) {
        assert Newly(c, c', id);
      }
      if k: nat :| Newly(c, c', k) && k < |doc.objects| && x in Inners(doc.objects[k]) {
        assert k == id || Newly(c1, c', k);
      }
    }
    forall k: nat | Newly(c, c', k)
      ensures !Dangling(doc.objects, k) && Mentioned(doc.objects[k]) <= c'.refs.Keys
    {
      assert k == id || Newly(c1, c', k);
    }
  }

  lemma EmbeddedGathers(doc: Document, c: Context, x: A3.Value)
    requires WriteEmbedded(doc.embedded, c, x).Ok?
    ensures Gathers(doc, c, WriteEmbedded(doc.embedded, c, x).value.1, {}, {x})
  {
    hide A3.WriteValue, TablesFit, Inners, Mentioned;
    var c' := WriteEmbedded(doc.embedded, c, x).value.1;
    assert forall y :: Comes(doc, c, c', {x}, y) <==> y == x;
    assert Comes(doc, c, c', {x}, x);
  }

  lemma {:induction false} ValueGathers(doc: Document, c: Context, v: Value, depth: nat)
    requires WriteValue(doc, c, v, depth).Ok?
    ensures Gathers(doc, c, WriteValue(doc, c, v, depth).value.1, Mentioned(v), Inners(v))
    decreases Rank(depth), 1, 1
  {
    hide WriteComplex, WriteEmbedded, Gathers;
    if v.Reference? {
      if v.id in c.refs {
        KnownGathers(doc, c, v.id);
      } else {
        var c1 := Count(Assign(c, v.id));
        ComplexGathers(doc, c1, doc.objects[v.id], depth);
        MeetingGathers(doc, c, v.id, c1, WriteComplex(doc, c1, doc.objects[v.id], depth).value.1);
      }
    } else if Complex(v) {
      ComplexGathers(doc, Count(c), v, depth);
      SameGathers(doc, c, Count(c), WriteComplex(doc, Count(c), v, depth).value.1, Mentioned(v), Inners(v));
    } else if v.AvmPlus? {
      EmbeddedGathers(doc, c, v.inner);
    } else {
      GathersNone(doc, c);
    }
  }

  lemma KnownGathers(doc: Document, c: Context, id: nat)
    requires id in c.refs
    ensures Gathers(doc, c, c, {id}, {})
  {
    GathersNone(doc, c);
  }

  lemma {:induction false} ComplexGathers(doc: Document, c: Context, v: Value, depth: nat)
    requires Complex(v) && depth <= MAX_DEPTH && WriteComplex(doc, c, v, depth).Ok?
    ensures Gathers(doc, c, WriteComplex(doc, c, v, depth).value.1, Mentioned(v), Inners(v))
    decreases Rank(depth), 0, 0
  {
    hide WriteValues, WriteProperties, Gathers, AllMentioned, PropertiesMentioned, AllInners, PropertiesInners;
    match v
    case StrictArray(items) => AllGather(doc, c, items, depth + 1);
    case Object(ps) => PropertiesGather(doc, c, ps, depth + 1);
    case TypedObject(_, ps) => PropertiesGather(doc, c, ps, depth + 1);
  }

  lemma {:induction false} AllGather(doc: Document, c: Context, vs: seq<Value>, depth: nat)
    requires WriteValues(doc, c, vs, depth).Ok?
    ensures Gathers(doc, c, WriteValues(doc, c, vs, depth).value.1, AllMentioned(vs), AllInners(vs))
    decreases Rank(depth), 3, |vs|
  {
    hide WriteValue, Gathers, Mentioned, Inners;
    if vs == [] {
      GathersNone(doc, c);
    } else {
      ValueGathers(doc, c, vs[0], depth);
      var c1 := WriteValue(doc, c, vs[0], depth).value.1;
      AllGather(doc, c1, vs[1..], depth);
      GathersBoth(doc, c, c1, WriteValues(doc, c1, vs[1..], depth).value.1, Mentioned(vs[0]), AllMentioned(vs[1..]),
          Inners(vs[0]), AllInners(vs[1..]));
    }
  }

  lemma {:induction false} PropertiesGather(doc: Document, c: Context, ps: seq<Property>, depth: nat)
    requires WriteProperties(doc, c, ps, depth).Ok?
    ensures Gathers(doc, c, WriteProperties(doc, c, ps, depth).value.1, PropertiesMentioned(ps), PropertiesInners(ps))
    decreases Rank(depth), 3, |ps|
  {
    hide WriteValue, Gathers, Mentioned, Inners, WriteName;
    if ps == [] {
      GathersNone(doc, c);
    } else {
      ValueGathers(doc, c, ps[0].value, depth);
      var c1 := WriteValue(doc, c, ps[0].value, depth).value.1;
      PropertiesGather(doc, c1, ps[1..], depth);
      GathersBoth(doc, c, c1, WriteProperties(doc, c1, ps[1..], depth).value.1, Mentioned(ps[0].value),
          PropertiesMentioned(ps[1..]), Inners(ps[0].value), PropertiesInners(ps[1..]));
    }
  }

  // ----- what a document reaches --------------------------------------------------------------------------------

  /** The objects that the roots reach. */
  ghost function Met(doc: Document): set<nat> {
    NumberValues(doc, Numbering(map[], [], []), doc.roots).1.refs.Keys
  }

  /** The roots, or an object they reach, hold the embedded value. */
  ghost predicate Reaches(doc: Document, x: A3.Value) {
    x in AllInners(doc.roots) || exists id :: id in Met(doc) && id < |doc.objects| && x in Inners(doc.objects[id])
  }

  /** No reference in the value dangles, and none in what its embedded values reach. */
  ghost predicate Closed(doc: Document, v: Value) {
    && (forall id :: id in Mentioned(v) ==> !Dangling(doc.objects, id))
    && (forall x :: x in Inners(v) ==> C3.ReachClosed(doc.embedded, [x]))
  }

  /** Neither the roots nor the objects they reach hold a dangling reference. */
  ghost predicate ReachClosed(doc: Document) {
    && (forall i :: 0 <= i < |doc.roots| ==> Closed(doc, doc.roots[i]))
    && (forall id :: id in Met(doc) ==> id < |doc.objects| && Closed(doc, doc.objects[id]))
  }

  /** What an embedded value needs of a reader's tables. */
  ghost function InnerNeeds(env: seq<A3.Value>, x: A3.Value): D3.Needs {
    var (u, m) := G3.NumberValue(env, G3.Numbering(map[], []), x);
    D3.Plus(D3.NeedsOf(u), D3.AllNeed(m.objects))
  }

  lemma {:induction false} HeldIn(vs: seq<Value>, i: nat)
    requires i < |vs|
    ensures Mentioned(vs[i]) <= AllMentioned(vs) && Inners(vs[i]) <= AllInners(vs)
    decreases |vs|
  {
    hide Mentioned, Inners;
    if i > 0 {
      HeldIn(vs[1..], i - 1);
    }
  }

  lemma WritableClosed(doc: Document, x: A3.Value)
    requires Writable(doc, x)
    ensures C3.ReachClosed(doc.embedded, [x])
  {
    hide A3.WriteValue, C3.ReachClosed;
    var c := A3.WriteValue(doc.embedded, A3.NewEncodeContext, x, 0).value.1;
    assert [x][1..] == [] && A3.WriteValues(doc.embedded, c, [], 0).Ok?;
    C3.WrittenClosed(doc.embedded, [x], 0);
  }

  lemma RoomExactly(doc: Document, x: A3.Value)
    requires Writable(doc, x)
    ensures Room(doc, x) <==> D3.Tabled(InnerNeeds(doc.embedded, x))
  {
    hide A3.WriteValue, G3.NumberValue, D3.NeedsOf, D3.AllNeed;
    D3.CountsSingle(doc.embedded, x);
  }

  /** The writer ends with exactly the objects and embedded values that the document reaches. */
  lemma Gathered(doc: Document)
    requires EncodeDocument(doc).Ok?
    ensures var c := EncodeDocument(doc).value.1;
            && Gathers(doc, NewContext, c, AllMentioned(doc.roots), AllInners(doc.roots)) && c.refs.Keys == Met(doc)
            && forall x :: Comes(doc, NewContext, c, AllInners(doc.roots), x) <==> Reaches(doc, x)
  {
    hide WriteValues, NumberValues, Gathers, AllMentioned, AllInners, Inners;
    AllGather(doc, NewContext, doc.roots, 0);
    W0.RootsAgain(doc);
    var c := EncodeDocument(doc).value.1;
    assert forall id: nat :: Newly(NewContext, c, id) <==> id in Met(doc);
  }

  /** A document that can be written is closed as far as it reaches. */
  lemma EncodedClosed(doc: Document)
    requires EncodeDocument(doc).Ok?
    ensures ReachClosed(doc)
  {
    hide EncodeDocument, Met, AllMentioned, AllInners, Mentioned, Inners, Writable, Room, Comes, C3.ReachClosed;
    Gathered(doc);
    var c := EncodeDocument(doc).value.1;
    forall x | Reaches(doc, x)
      ensures C3.ReachClosed(doc.embedded, [x])
    {
      WritableClosed(doc, x);
    }
    forall id | id in c.refs
      ensures !Dangling(doc.objects, id) && Mentioned(doc.objects[id]) <= c.refs.Keys
    {
      assert Newly(NewContext, c, id);
    }
    forall i | 0 <= i < |doc.roots|
      ensures Closed(doc, doc.roots[i])
    {
      HeldIn(doc.roots, i);
    }
  }

  /** The tables of a reader suffice if and only if they do for every embedded value reached. */
  lemma TablesExactly(doc: Document)
    requires EncodeDocument(doc).Ok?
    ensures EncodeDocument(doc).value.1.tablesFit <==>
            forall x :: Reaches(doc, x) ==> D3.Tabled(InnerNeeds(doc.embedded, x))
  {
    hide EncodeDocument, Reaches, AllMentioned, AllInners, Mentioned, Writable, Room, Comes, InnerNeeds, D3.Tabled;
    Gathered(doc);
    forall x | Reaches(doc, x)
      ensures Room(doc, x) <==> D3.Tabled(InnerNeeds(doc.embedded, x))
    {
      RoomExactly(doc, x);
    }
  }
}
