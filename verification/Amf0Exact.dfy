/** The exact condition under which an AMF0 document comes back. */
module Amf0Exact {
  import opened Base
  import opened Amf0
  import opened Amf0RoundTrip
  import A3 = Amf3
  import G3 = Amf3Graph
  import R3 = Amf3RoundTrip
  import E3 = Amf3Exact
  import S3 = Amf3Same
  import opened Amf0Same
  import opened Amf0Rewrite
  import C0 = Amf0Closed
  import D3 = Amf3Demand

  /** What the reader holds is well formed. */
  ghost predicate Formed(d: DecodeContext) {
    AllSized(d.objects) && AllWellFormed(d.objects) && R3.AllWellFormed(d.embedded)
  }

  ghost predicate Clean(v: Value) {
    Sized(v) && WellFormed(v)
  }

  /** Moving references does not touch names. */
  lemma {:induction false} RelocateFormed(v: A3.Value, base: nat)
    ensures R3.WellFormed(G3.Relocate(v, base)) <==> R3.WellFormed(v)
    decreases v, 0
  {
    match v {
      case Array(dense, associative) =>
        RelocateAllFormed(dense, base);
        RelocateMembersFormed(associative, base);
      case Object(_, sealed, dynamic) =>
        RelocateMembersFormed(sealed, base);
        if dynamic.Dynamic? {
          RelocateMembersFormed(dynamic.members, base);
        }
      case VectorObject(_, _, values) => RelocateAllFormed(values, base);
      case _ =>
    }
  }

  lemma {:induction false} RelocateAllFormed(vs: seq<A3.Value>, base: nat)
    ensures R3.AllWellFormed(G3.RelocateAll(vs, base)) <==> R3.AllWellFormed(vs)
    decreases vs, 1
  {
    var ws := G3.RelocateAll(vs, base);
    forall i | 0 <= i < |vs|
      ensures R3.WellFormed(ws[i]) <==> R3.WellFormed(vs[i])
    {
      RelocateFormed(vs[i], base);
    }
  }

  lemma {:induction false} RelocateMembersFormed(ms: seq<A3.Member>, base: nat)
    ensures R3.MembersWellFormed(G3.RelocateMembers(ms, base)) <==> R3.MembersWellFormed(ms)
    ensures R3.Named(G3.RelocateMembers(ms, base)) <==> R3.Named(ms)
    decreases ms, 1
  {
    var ws := G3.RelocateMembers(ms, base);
    forall i | 0 <= i < |ms|
      ensures R3.WellFormed(ws[i].value) <==> R3.WellFormed(ms[i].value)
    {
      RelocateFormed(ms[i].value, base);
    }
  }

  lemma EmbeddedFormed(s: seq<byte>, d: DecodeContext)
    requires Formed(d) && ReadEmbedded(s, d).Ok?
    ensures var (v, _, d') := ReadEmbedded(s, d).value; Clean(v) && Formed(d')
  {
    hide A3.ReadValue, R3.WellFormed;
    var (inner, _, after) := A3.ReadValue(s, A3.NewDecodeContext, 0).value;
    E3.ValueFormed(s, A3.NewDecodeContext, 0);
    RelocateFormed(inner, |d.embedded|);
    RelocateAllFormed(after.objects, |d.embedded|);
  }

  lemma ScalarFormed(marker: byte, s: seq<byte>, d: DecodeContext)
    requires Formed(d) && ReadScalar(marker, s, d).Ok?
    ensures var (v, _, d') := ReadScalar(marker, s, d).value; Clean(v) && Formed(d')
  {
    hide ReadEmbedded, Formed;
    if marker == 0x11 {
      EmbeddedFormed(s, d);
    }
  }

  lemma {:induction false} InsertFormed(ps: seq<Property>, name: Str, value: Value)
    requires PropertiesSized(ps) && PropertiesWellFormed(ps) && Named(ps) && name != [] && Clean(value)
    ensures var qs := Insert(ps, name, value);
            && PropertiesSized(qs) && PropertiesWellFormed(qs) && Named(qs)
            && (forall i :: 0 <= i < |qs| ==>
                 qs[i].name == name || exists j :: 0 <= j < |ps| && ps[j].name == qs[i].name)
    decreases |ps|
  {
    hide Sized, WellFormed;
    if ps != [] && ps[0].name != name {
      InsertFormed(ps[1..], name, value);
    }
  }

  lemma FillFormed(d: DecodeContext, slot: nat, v: Value)
    requires Formed(d) && Clean(v)
    ensures slot < |d.objects| ==> Formed(d.(objects := d.objects[slot := v]))
  {
  }

  lemma {:induction false} NextFormed(s: seq<byte>, d: DecodeContext, depth: nat)
    requires Formed(d) && ReadNext(s, d, depth).Ok?
    ensures var (v, _, d') := ReadNext(s, d, depth).value; (v.Some? ==> Clean(v.value)) && Formed(d')
    decreases |s|, 1, 0
  {
    hide ReadComplex, ReadScalar, Formed;
    if s != [] && s[0] != 0x09 && s[0] != 0x07 {
      if s[0] in {0x03, 0x08, 0x0A, 0x10} {
        var d1 := d.(objects := d.objects + [Null]);
        SlotFormed(d);
        ComplexFormed(s[0], s[1..], d1, depth);
        var (v, _, d') := ReadComplex(s[0], s[1..], d1, depth).value;
        FillFormed(d', |d.objects|, v);
      } else {
        ScalarFormed(s[0], s[1..], d);
      }
    }
  }

  lemma SlotFormed(d: DecodeContext)
    requires Formed(d)
    ensures Formed(d.(objects := d.objects + [Null]))
  {
  }

  lemma {:induction false} ComplexFormed(marker: byte, s: seq<byte>, d: DecodeContext, depth: nat)
    requires marker in {0x03, 0x08, 0x0A, 0x10} && Formed(d) && ReadComplex(marker, s, d, depth).Ok?
    ensures var (v, _, d') := ReadComplex(marker, s, d, depth).value; Clean(v) && Formed(d')
    decreases |s|, 3, 0
  {
    hide ReadItems, ReadProperties, Formed, ReadU16, ReadU32;
    if marker == 0x0A {
      var (n, s1) := ReadU32(s).value;
      ItemsFormed(s1, d, depth + 1, n);
    } else if marker == 0x10 {
      var (n, s1) := ReadU16(s).value;
      PropertiesFormed(Take(s1, n).value.1, d, depth + 1, []);
    } else if marker == 0x08 {
      PropertiesFormed(ReadU32(s).value.1, d, depth + 1, []);
    } else {
      PropertiesFormed(s, d, depth + 1, []);
    }
  }

  lemma {:induction false} ItemsFormed(s: seq<byte>, d: DecodeContext, depth: nat, n: nat)
    requires Formed(d) && ReadItems(s, d, depth, n).Ok?
    ensures var (vs, _, d') := ReadItems(s, d, depth, n).value; AllSized(vs) && AllWellFormed(vs) && Formed(d')
    decreases |s|, 2, n
  {
    hide ReadNext, Formed, Sized, WellFormed;
    if n > 0 {
      NextFormed(s, d, depth);
      var (_, s1, d1) := ReadNext(s, d, depth).value;
      ItemsFormed(s1, d1, depth, n - 1);
    }
  }

  lemma {:induction false} PropertiesFormed(s: seq<byte>, d: DecodeContext, depth: nat, sofar: seq<Property>)
    requires Formed(d) && ReadProperties(s, d, depth, sofar).Ok?
    requires PropertiesSized(sofar) && PropertiesWellFormed(sofar) && Named(sofar)
    ensures var (ps, _, d') := ReadProperties(s, d, depth, sofar).value;
            PropertiesSized(ps) && PropertiesWellFormed(ps) && Named(ps) && Formed(d')
    decreases |s|, 2, 0
  {
    hide ReadNext, Formed, Clean, PropertiesSized, PropertiesWellFormed, Named, Insert, ReadU16;
    var (n, s1) := ReadU16(s).value;
    if n > 0 {
      var (name, s2) := Take(s1, n).value;
      NextFormed(s2, d, depth);
      var (v, s3, d1) := ReadNext(s2, d, depth).value;
      InsertFormed(sofar, name, v.value);
      PropertiesFormed(s3, d1, depth, Insert(sofar, name, v.value));
    }
  }

  lemma {:induction false} RootsFormed(s: seq<byte>, d: DecodeContext, count: nat)
    requires Formed(d) && ReadRoots(s, d, count).Ok?
    ensures var (vs, d') := ReadRoots(s, d, count).value; AllSized(vs) && AllWellFormed(vs) && Formed(d')
    decreases |s|
  {
    hide ReadNext, Formed, Sized, WellFormed;
    NextFormed(s, d, 0);
    var (v, rest, d1) := ReadNext(s, d, 0).value;
    if v.Some? {
      RootsFormed(rest, d1, count + 1);
    }
  }

  /** Whatever the bytes, a decoded document gives every property a name of its own. */
  lemma DecodedWellFormed(bytes: seq<byte>)
    requires DecodeDocument(bytes).Ok?
    ensures WellFormedDocument(DecodeDocument(bytes).value)
  {
    hide ReadRoots, Sized, WellFormed;
    RootsFormed(bytes, NewDecodeContext, 0);
  }

  // ----- what the renumbered document says about the original -----------------------------------

  ghost predicate FormedArenas(n: Numbering) {
    AllSized(n.objects) && AllWellFormed(n.objects) && R3.AllWellFormed(n.embedded)
  }

  lemma EmbeddedGood(env: seq<A3.Value>, inner: A3.Value, w: A3.Value, embedded: seq<A3.Value>)
    requires SameEmbedded(env, inner, w, embedded) && R3.WellFormed(w) && R3.AllWellFormed(embedded)
    ensures EmbeddedFine(env, inner)
  {
    hide R3.WellFormed, S3.Same, S3.SettledAt, G3.NumberValue, G3.Relocate, G3.RelocateAll;
    var base: nat, u, m :| SameBlock(env, inner, w, embedded, base, u, m);
    RelocateFormed(u, base);
    RelocateAllFormed(m.objects, base);
    assert R3.AllWellFormed(embedded[base..base + |m.objects|]);
  }

  /** If what stands for a value is well formed, then so was the value. */
  lemma {:induction false} SameGood(doc: Document, ids: set<nat>, v: Value, w: Value, n: Numbering, lo: nat)
    requires Same(doc, v, w, n, lo) && n.refs.Keys <= ids && FormedArenas(n) && Clean(w)
    ensures Good(doc, ids, v)
    decreases v, 1
  {
    hide SameEmbedded, EmbeddedFine;
    if v.AvmPlus? {
      EmbeddedGood(doc.embedded, v.inner, w.inner, n.embedded);
    } else if !v.Reference? && Complex(v) {
      ShapeGood(doc, ids, v, n.objects[w.id], n, w.id + 1);
    }
  }

  lemma {:induction false} ShapeGood(doc: Document, ids: set<nat>, v: Value, w: Value, n: Numbering, lo: nat)
    requires Complex(v) && SameShape(doc, v, w, n, lo) && n.refs.Keys <= ids && FormedArenas(n) && Clean(w)
    ensures Good(doc, ids, v)
    decreases v, 0
  {
    match v
    case StrictArray(items) => ItemsGoodBack(doc, ids, items, w.items, n, lo);
    case Object(ps) => PropertiesGoodBack(doc, ids, ps, w.properties, n, lo);
    case TypedObject(_, ps) => PropertiesGoodBack(doc, ids, ps, w.properties, n, lo);
  }

  lemma {:induction false} ItemsGoodBack(doc: Document, ids: set<nat>, vs: seq<Value>, ws: seq<Value>, n: Numbering,
          lo: nat)
    requires SameValues(doc, vs, ws, n, lo) && n.refs.Keys <= ids && FormedArenas(n) && AllSized(ws)
             && AllWellFormed(ws)
    ensures AllGood(doc, ids, vs)
    decreases vs, 2
  {
    forall i | 0 <= i < |vs|
      ensures Good(doc, ids, vs[i])
    {
      SameGood(doc, ids, vs[i], ws[i], n, lo);
    }
  }

  lemma {:induction false} PropertiesGoodBack(doc: Document, ids: set<nat>, ps: seq<Property>, ws: seq<Property>,
          n: Numbering, lo: nat)
    requires SameProperties(doc, ps, ws, n, lo) && n.refs.Keys <= ids && FormedArenas(n)
    requires PropertiesSized(ws) && PropertiesWellFormed(ws) && Named(ws)
    ensures PropertiesGood(doc, ids, ps) && Named(ps)
    decreases ps, 2
  {
    forall i | 0 <= i < |ps|
      ensures Good(doc, ids, ps[i].value)
    {
      SameGood(doc, ids, ps[i].value, ws[i].value, n, lo);
    }
  }

  // ----- the exact condition ------------------------------------------------------------------------

  /** The reader has room for the arenas and the roots, and its tables for every embedded value reached. */
  ghost predicate Affordable(doc: Document) {
    && |Renumber(doc).objects| <= MAX_COLLECTION && |Renumber(doc).embedded| <= MAX_COLLECTION
    && |doc.roots| <= MAX_COLLECTION
    && (forall x :: C0.Reaches(doc, x) ==> D3.Tabled(C0.InnerNeeds(doc.embedded, x)))
  }

  /** A document comes back, in first-visit numbering, exactly if every property it reaches has a name
      of its own, its strings are shorter than 2^32 bytes, and the reader has room for it. */
  lemma RoundTripExactly(doc: Document)
    requires EncodeDocument(doc).Ok?
    ensures var read, renumbered := DecodeDocument(EncodeDocument(doc).value.0), Renumber(doc);
            && (read == Ok(renumbered) <==> Affordable(doc) && WellFormedDocument(renumbered))
            && (WellFormedDocument(renumbered) ==> (read.Ok? <==> Affordable(doc)))
  {
    hide DecodeDocument, EncodeDocument, Renumber, WellFormedDocument, C0.Reaches, D3.Tabled, C0.InnerNeeds;
    var bytes := EncodeDocument(doc).value.0;
    RenumberRewrites(doc);
    C0.TablesExactly(doc);
    if WellFormedDocument(Renumber(doc)) {
      var ids := ReachesGood(doc);
      GoodRoundTrip(doc, ids);
    } else if DecodeDocument(bytes).Ok? {
      DecodedWellFormed(bytes);
    }
  }

  lemma RootsKept(doc: Document)
    ensures |Renumber(doc).roots| == |doc.roots|
  {
    hide NumberValues;
  }

  lemma ReachesGood(doc: Document) returns (ids: set<nat>)
    requires WellFormedDocument(Renumber(doc))
    ensures GoodArena(doc, ids) && AllGood(doc, ids, doc.roots)
  {
    hide Renumber, Same, Good, Sized, WellFormed, SameShape;
    var refs := RenumberTracked(doc);
    var doc2 := Renumber(doc);
    var n := Numbering(refs, doc2.objects, doc2.embedded);
    ids := refs.Keys;
    forall id | id in ids
      ensures id < |doc.objects| && Good(doc, ids, doc.objects[id])
    {
      assert SettledAt(doc, n, id);
      ShapeGood(doc, ids, doc.objects[id], n.objects[refs[id]], n, refs[id] + 1);
    }
    forall i | 0 <= i < |doc.roots|
      ensures Good(doc, ids, doc.roots[i])
    {
      SameGood(doc, ids, doc.roots[i], doc2.roots[i], n, 0);
    }
  }

  const NAMELESS := Object([Property([], Null)])

  lemma NamelessWritten()
    ensures EncodeDocument(Document([NAMELESS], [], [])).Ok?
  {
    var doc := Document([NAMELESS], [], []);
    var ps := [Property([], Null)];
    var c := Count(NewContext);
    assert WriteProperties(doc, c, ps[1..], 1).Ok?;
    assert WriteProperties(doc, c, ps, 1).Ok?;
    assert WriteValue(doc, NewContext, NAMELESS, 0).Ok?;
    assert WriteValues(doc, WriteValue(doc, NewContext, NAMELESS, 0).value.1, [NAMELESS][1..], 0).Ok?;
  }

  lemma NamelessNumbered()
    ensures !WellFormedDocument(Renumber(Document([NAMELESS], [], [])))
  {
    var doc := Document([NAMELESS], [], []);
    var start, n := Numbering(map[], [], []), Numbering(map[], [Null], []);
    var ps := [Property([], Null)];
    var (qs, n1) := NumberProperties(doc, n, ps);
    assert qs[0].name == [];
    assert NumberProperties(doc, n, ps[1..]) == ([], n);
    var w := Object(qs);
    assert NumberChildren(doc, n, NAMELESS) == (w, n1);
    assert start.(objects := start.objects + [Null]) == n;
    assert NumberComplex(doc, start, NAMELESS).1.objects[0] == w;
    assert NumberValues(doc, start, [NAMELESS]).1 == NumberValue(doc, start, NAMELESS).1;
    assert !WellFormed(w);
  }

  /** An object with a nameless property is accepted by the writer and does not come back. */
  lemma NamelessLost()
    ensures var doc := Document([NAMELESS], [], []);
            EncodeDocument(doc).Ok? && DecodeDocument(EncodeDocument(doc).value.0) != Ok(Renumber(doc))
  {
    hide *;
    NamelessWritten();
    NamelessNumbered();
    RoundTripExactly(Document([NAMELESS], [], []));
  }

  // ----- writing again what came back ------------------------------------------------------------------

  /** The exact condition for re-encoding what came back: it gives identical bytes if the document has no
      more than 65536 complex values, and is refused otherwise. */
  lemma ReencodeExactly(doc: Document)
    requires EncodeDocument(doc).Ok? && WellFormedDocument(Renumber(doc))
             && DecodeDocument(EncodeDocument(doc).value.0).Ok?
    ensures var bytes := EncodeDocument(doc).value.0;
            var again := EncodeDocument(DecodeDocument(bytes).value);
            (again.Ok? <==> |Renumber(doc).objects| <= ADDRESSABLE) && (again.Ok? ==> again.value.0 == bytes)
  {
    hide EncodeDocument, DecodeDocument, Renumber, WellFormedDocument;
    RoundTripExactly(doc);
    RenumberRewrites(doc);
  }

  const EMPTY := StrictArray([])

  ghost function Empties(k: nat): (vs: seq<Value>)
    ensures |vs| == k && forall i :: 0 <= i < k ==> vs[i] == EMPTY
  {
    if k == 0 then [] else [EMPTY] + Empties(k - 1)
  }

  lemma EmptyWritten(doc: Document, c: Context)
    ensures WriteValue(doc, c, EMPTY, 0).Ok? && WriteValue(doc, c, EMPTY, 0).value.1 == Count(c)
  {
    assert WriteValues(doc, Count(c), [], 1) == Ok(([], Count(c)));
  }

  lemma EmptyNumbered(doc: Document, n: Numbering)
    ensures NumberValue(doc, n, EMPTY) == (Reference(|n.objects|), n.(objects := n.objects + [EMPTY]))
  {
    var n0 := n.(objects := n.objects + [Null]);
    assert NumberValues(doc, n0, []) == ([], n0);
    assert NumberChildren(doc, n0, EMPTY) == (EMPTY, n0);
    assert n0.objects[|n.objects| := EMPTY] == n.objects + [EMPTY];
  }

  lemma {:induction false} EmptiesWritten(doc: Document, c: Context, n: Numbering, k: nat)
    requires AllSized(n.objects) && AllWellFormed(n.objects)
    ensures WriteValues(doc, c, Empties(k), 0).Ok?
    ensures var c' := WriteValues(doc, c, Empties(k), 0).value.1;
            c'.next == c.next + k && c'.embedded == c.embedded && c'.tablesFit == c.tablesFit
    ensures var (ws, n') := NumberValues(doc, n, Empties(k));
            AllSized(ws) && AllWellFormed(ws) && AllSized(n'.objects) && AllWellFormed(n'.objects)
                && n'.embedded == n.embedded
    decreases k
  {
    hide WriteValue, NumberValue, Sized, WellFormed;
    if k > 0 {
      EmptyWritten(doc, c);
      EmptyNumbered(doc, n);
      EmptyFormed();
      var n1 := n.(objects := n.objects + [EMPTY]);
      assert Empties(k)[1..] == Empties(k - 1);
      EmptiesWritten(doc, Count(c), n1, k - 1);
      ReferenceFormed(|n.objects|);
    }
  }

  lemma EmptyFormed()
    ensures Sized(EMPTY) && WellFormed(EMPTY)
  {
  }

  lemma ReferenceFormed(id: nat)
    ensures Sized(Reference(id)) && WellFormed(Reference(id))
  {
  }

  /** A document of 65537 empty arrays is written and read back, but what came back is not written. */
  lemma ReencodeLost()
    ensures var doc := Document(Empties(65537), [], []);
            && EncodeDocument(doc).Ok? && DecodeDocument(EncodeDocument(doc).value.0).Ok?
            && EncodeDocument(DecodeDocument(EncodeDocument(doc).value.0).value).Err?
  {
    hide WriteValues, NumberValues, Empties, Sized, WellFormed, DecodeDocument;
    var doc := Document(Empties(65537), [], []);
    EmptiesWritten(doc, NewContext, Numbering(map[], [], []), 65537);
    RenumberRewrites(doc);
    C0.TablesExactly(doc);
    RoundTripExactly(doc);
    ReencodeExactly(doc);
  }
}
