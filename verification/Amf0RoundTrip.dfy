/** The AMF0 document round trip: decoding what was encoded gives the first-visit renumbering, unless
    the document is too large for the reader. */
module Amf0RoundTrip {
  import opened Base
  import opened Amf0
  import A3 = Amf3
  import G3 = Amf3Graph
  import R3 = Amf3RoundTrip
  import E3 = Amf3Exact

  /** Strings are shorter than 2^32 bytes. */
  ghost predicate Sized(v: Value)
    decreases v, 0
  {
    match v
    case String(s) => |s| < 0x1_0000_0000
    case Xml(s) => |s| < 0x1_0000_0000
    case StrictArray(items) => AllSized(items)
    case Object(ps) => PropertiesSized(ps)
    case TypedObject(_, ps) => PropertiesSized(ps)
    case _ => true
  }

  ghost predicate AllSized(vs: seq<Value>)
    decreases vs, 1
  {
    forall i :: 0 <= i < |vs| ==> Sized(vs[i])
  }

  ghost predicate PropertiesSized(ps: seq<Property>)
    decreases ps, 1
  {
    forall i :: 0 <= i < |ps| ==> Sized(ps[i].value)
  }

  /** Property names are nonempty and distinct, and embedded values are well formed. */
  ghost predicate WellFormed(v: Value)
    decreases v, 0
  {
    match v
    case StrictArray(items) => AllWellFormed(items)
    case Object(ps) => PropertiesWellFormed(ps) && Named(ps)
    case TypedObject(_, ps) => PropertiesWellFormed(ps) && Named(ps)
    case AvmPlus(inner) => R3.WellFormed(inner)
    case _ => true
  }

  ghost predicate AllWellFormed(vs: seq<Value>)
    decreases vs, 1
  {
    forall i :: 0 <= i < |vs| ==> WellFormed(vs[i])
  }

  ghost predicate PropertiesWellFormed(ps: seq<Property>)
    decreases ps, 1
  {
    forall i :: 0 <= i < |ps| ==> WellFormed(ps[i].value)
  }

  ghost predicate Named(ps: seq<Property>) {
    && (forall i :: 0 <= i < |ps| ==> ps[i].name != [])
    && (forall i, j :: 0 <= i < j < |ps| ==> ps[i].name != ps[j].name)
  }

  ghost predicate WellFormedDocument(doc: Document) {
    && AllSized(doc.roots) && AllSized(doc.objects) && AllWellFormed(doc.roots) && AllWellFormed(doc.objects)
    && R3.AllWellFormed(doc.embedded)
  }

  /** The AMF3 objects that an embedded value reaches are well formed. */
  ghost predicate EmbeddedFine(env: seq<A3.Value>, inner: A3.Value) {
    var (u, m) := G3.NumberValue(env, G3.Numbering(map[], []), inner);
    R3.WellFormed(u) && R3.AllWellFormed(m.objects)
  }

  /** The value is well formed and refers only to the objects in `ids`, or to none at all. */
  ghost predicate Good(doc: Document, ids: set<nat>, v: Value)
    decreases v, 0
  {
    match v
    case Reference(id) => id in ids || id >= |doc.objects| || !Complex(doc.objects[id])
    case String(s) => |s| < 0x1_0000_0000
    case Xml(s) => |s| < 0x1_0000_0000
    case StrictArray(items) => AllGood(doc, ids, items)
    case Object(ps) => PropertiesGood(doc, ids, ps) && Named(ps)
    case TypedObject(_, ps) => PropertiesGood(doc, ids, ps) && Named(ps)
    case AvmPlus(inner) => EmbeddedFine(doc.embedded, inner)
    case _ => true
  }

  ghost predicate AllGood(doc: Document, ids: set<nat>, vs: seq<Value>)
    decreases vs, 1
  {
    forall i :: 0 <= i < |vs| ==> Good(doc, ids, vs[i])
  }

  ghost predicate PropertiesGood(doc: Document, ids: set<nat>, ps: seq<Property>)
    decreases ps, 1
  {
    forall i :: 0 <= i < |ps| ==> Good(doc, ids, ps[i].value)
  }

  /** The objects in `ids` are good. */
  ghost predicate GoodArena(doc: Document, ids: set<nat>) {
    forall id :: id in ids ==> id < |doc.objects| && Good(doc, ids, doc.objects[id])
  }

  /** The reader has room for the objects, and for what the embedded values need. */
  ghost predicate Fits(c: Context) {
    c.next <= MAX_COLLECTION && c.embedded <= MAX_COLLECTION && c.tablesFit
  }

  ghost predicate InStep(c: Context, d: DecodeContext) {
    && c.next == |d.objects| && c.embedded == |d.embedded| && Fits(c)
    && (forall id :: id in c.refs ==> c.refs[id] < c.next)
  }

  function At(c: Context, d: DecodeContext): Numbering {
    Numbering(c.refs, d.objects, d.embedded)
  }

  /** Reading gives the numbered value and leaves both sides in step, or fails for lack of room. */
  ghost predicate Back(r: Got<Value>, value: Value, n: Numbering, rest: seq<byte>, c': Context) {
    if Fits(c') then r.Ok? && r.value.0 == value && r.value.1 == rest && InStep(c', r.value.2) && n == At(c', r.value.2)
    else r.Err?
  }

  ghost predicate NextBack(r: Got<Option<Value>>, value: Option<Value>, n: Numbering, rest: seq<byte>, c': Context) {
    if Fits(c') then r.Ok? && r.value.0 == value && r.value.1 == rest && InStep(c', r.value.2) && n == At(c', r.value.2)
    else r.Err?
  }

  ghost predicate ItemsBack(r: Got<seq<Value>>, value: seq<Value>, n: Numbering, rest: seq<byte>, c': Context) {
    if Fits(c') then r.Ok? && r.value.0 == value && r.value.1 == rest && InStep(c', r.value.2) && n == At(c', r.value.2)
    else r.Err?
  }

  ghost predicate PropertiesBack(r: Got<seq<Property>>, value: seq<Property>, n: Numbering, rest: seq<byte>,
          c': Context) {
    if Fits(c') then r.Ok? && r.value.0 == value && r.value.1 == rest && InStep(c', r.value.2) && n == At(c', r.value.2)
    else r.Err?
  }

  // ----- fields --------------------------------------------------------------------------------------

  lemma TakeBack(a: seq<byte>, rest: seq<byte>)
    ensures Take(a + rest, |a|) == Ok((a, rest))
  {
    assert (a + rest)[..|a|] == a && (a + rest)[|a|..] == rest;
  }

  lemma U16Back(n: nat, rest: seq<byte>)
    requires n < 0x1_0000
    ensures ReadU16(Be16(n) + rest) == Ok((n, rest))
  {
    TakeBack(Be16(n), rest);
  }

  lemma U32Back(n: nat, rest: seq<byte>)
    requires n < 0x1_0000_0000
    ensures ReadU32(Be32(n) + rest) == Ok((n, rest))
  {
    TakeBack(Be32(n), rest);
    Be32RoundTrip(n);
  }

  lemma BehindMarker(marker: byte, a: seq<byte>, b: seq<byte>, rest: seq<byte>)
    ensures ([marker] + a + b)[1..] + rest == a + (b + rest)
    ensures ([marker] + a)[1..] + rest == a + rest
  {
    assert ([marker] + a + b)[1..] == a + b;
    assert ([marker] + a)[1..] == a;
  }

  lemma BehindName(marker: byte, a: seq<byte>, b: seq<byte>, c: seq<byte>, rest: seq<byte>)
    ensures ([marker] + (a + b) + c)[1..] + rest == a + (b + (c + rest))
  {
    assert ([marker] + (a + b) + c)[1..] == a + b + c;
  }

  // ----- scalars -------------------------------------------------------------------------------------

  lemma EmbeddedReads(doc: Document, ids: set<nat>, c: Context, d: DecodeContext, inner: A3.Value, rest: seq<byte>)
    requires InStep(c, d) && EmbeddedFine(doc.embedded, inner) && WriteEmbedded(doc.embedded, c, inner).Ok?
    ensures var (out, c') := WriteEmbedded(doc.embedded, c, inner).value;
            var (w, n) := NumberValue(doc, At(c, d), AvmPlus(inner));
            out != [] && out[0] == 0x11 && Back(ReadEmbedded(out[1..] + rest, d), w, n, rest, c')
  {
    hide A3.WriteValue, A3.ReadValue, G3.NumberValue, R3.WellFormed, R3.AllWellFormed, G3.Relocate, G3.RelocateAll,
         WriteValue, ReadNext, NumberComplex;
    E3.SingleExactly(doc.embedded, inner, rest);
    var out := A3.WriteValue(doc.embedded, A3.NewEncodeContext, inner, 0).value.0;
    assert ([0x11] + out)[1..] == out;
  }

  lemma ScalarReads(doc: Document, ids: set<nat>, c: Context, d: DecodeContext, v: Value, depth: nat, rest: seq<byte>)
    requires InStep(c, d) && GoodArena(doc, ids) && Good(doc, ids, v) && !v.Reference? && !Complex(v)
             && WriteValue(doc, c, v, depth).Ok?
    ensures var (out, c') := WriteValue(doc, c, v, depth).value;
            var (w, n) := NumberValue(doc, At(c, d), v);
            out != [] && out[0] !in {0x03, 0x07, 0x08, 0x09, 0x0A, 0x10}
                && Back(ReadScalar(out[0], out[1..] + rest, d), w, n, rest, c')
  {
    hide WriteEmbedded, ReadEmbedded, ReadScalar, Plain, G3.NumberValue, G3.Relocate, G3.RelocateAll, R3.WellFormed;
    if v.AvmPlus? {
      EmbeddedReads(doc, ids, c, d, v.inner, rest);
      assert ReadScalar(0x11, WriteValue(doc, c, v, depth).value.0[1..] + rest, d) ==
          ReadEmbedded(WriteValue(doc, c, v, depth).value.0[1..] + rest, d) by {
        EmbeddedScalar(WriteValue(doc, c, v, depth).value.0[1..] + rest, d);
      }
    } else {
      PlainWrites(doc, c, v, depth);
      PlainReads(v, d, rest);
    }
  }

  lemma EmbeddedScalar(s: seq<byte>, d: DecodeContext)
    ensures ReadScalar(0x11, s, d) == ReadEmbedded(s, d)
  {
  }

  /** The bytes of a value that neither refers to others nor embeds one. */
  ghost function Plain(v: Value): seq<byte>
    requires !v.Reference? && !Complex(v) && !v.AvmPlus? && Sized(v)
  {
    match v
    case Number(bits) => [0x00] + bits
    case Boolean(b) => [0x01, if b then 1 else 0]
    case String(s) => WriteString(s)
    case Null => [0x05]
    case Undefined => [0x06]
    case Date(millis, zone) => [0x0B] + millis + zone
    case Xml(s) => [0x0F] + Length32(s) + s
  }

  lemma PlainWrites(doc: Document, c: Context, v: Value, depth: nat)
    requires !v.Reference? && !Complex(v) && !v.AvmPlus? && Sized(v) && WriteValue(doc, c, v, depth).Ok?
    ensures WriteValue(doc, c, v, depth) == Ok((Plain(v), c))
  {
    hide WriteString, Be32;
  }

  lemma PlainReads(v: Value, d: DecodeContext, rest: seq<byte>)
    requires !v.Reference? && !Complex(v) && !v.AvmPlus? && Sized(v)
    ensures var out := Plain(v);
            out != [] && out[0] !in {0x03, 0x07, 0x08, 0x09, 0x0A, 0x10}
                && ReadScalar(out[0], out[1..] + rest, d) == Ok((v, rest, d))
  {
    hide WriteString, Be32, ReadEmbedded;
    var out := Plain(v);
    match v
    case Number(bits) =>
      BehindMarker(0x00, bits, [], rest);
      TakeBack(bits, rest);
    case Boolean(b) =>
      assert out[1..] == [if b then 1 else 0];
      TakeBack(out[1..], rest);
    case String(s) => TextReads(s, rest);
    case Xml(s) =>
      BehindMarker(0x0F, Length32(s), s, rest);
      U32Back(|s|, s + rest);
      TakeBack(s, rest);
    case Date(millis, zone) =>
      BehindMarker(0x0B, millis, zone, rest);
      TakeBack(millis, zone + rest);
      TakeBack(zone, rest);
    case Null => assert out[1..] + rest == rest;
    case Undefined => assert out[1..] + rest == rest;
  }

  lemma TextReads(s: A3.Str, rest: seq<byte>)
    requires |s| < 0x1_0000_0000
    ensures var out := WriteString(s);
            out != [] && out[0] in {0x02, 0x0C}
                && forall d :: ReadScalar(out[0], out[1..] + rest, d) == Ok((String(s), rest, d))
  {
    var out := WriteString(s);
    if |s| > MAX_SHORT {
      assert out[1..] + rest == Length32(s) + (s + rest);
      U32Back(|s|, s + rest);
    } else {
      assert out[1..] + rest == Be16(|s|) + (s + rest);
      U16Back(|s|, s + rest);
    }
    TakeBack(s, rest);
  }

  // ----- the induction -----------------------------------------------------------------------------------

  lemma Unfit(c: Context, c': Context)
    requires !Fits(c) && c.next <= c'.next && c.embedded <= c'.embedded && (c'.tablesFit ==> c.tablesFit)
    ensures !Fits(c')
  {
  }

  lemma ObjectFine(doc: Document, ids: set<nat>, id: nat)
    requires GoodArena(doc, ids) && Good(doc, ids, Reference(id)) && id < |doc.objects| && Complex(doc.objects[id])
    ensures Good(doc, ids, doc.objects[id])
  {
  }

  // How reading begins, case by case.

  lemma NextReference(index: nat, d: DecodeContext, depth: nat, rest: seq<byte>)
    requires index <= MAX_SHORT && index < |d.objects| && depth <= MAX_DEPTH
    ensures ReadNext([0x07] + Be16(index) + rest, d, depth) == Ok((Some(Reference(index)), rest, d))
  {
    hide ReadU16, Be16;
    var s := [0x07] + Be16(index) + rest;
    assert s[1..] == Be16(index) + rest;
    U16Back(index, rest);
  }

  lemma {:induction false} NextScalar(s: seq<byte>, d: DecodeContext, depth: nat)
    requires s != [] && s[0] !in {0x03, 0x07, 0x08, 0x09, 0x0A, 0x10} && depth <= MAX_DEPTH
    ensures ReadNext(s, d, depth) ==
            match ReadScalar(s[0], s[1..], d)
            case Ok(done) => Ok((Some(done.0), done.1, done.2))
            case Err(e) => Err(e)
  {
    hide ReadScalar;
  }

  lemma {:induction false} NextComplex(s: seq<byte>, d: DecodeContext, depth: nat)
    requires s != [] && s[0] in {0x03, 0x0A, 0x10} && depth <= MAX_DEPTH
    ensures var slot := |d.objects|;
            ReadNext(s, d, depth) ==
            if slot + 1 > MAX_COLLECTION then Err(TooLarge(slot + 1))
            else
              match ReadComplex(s[0], s[1..], d.(objects := d.objects + [Null]), depth)
              case Ok(done) =>
                Ok((Some(Reference(slot)), done.1,
                    if slot < |done.2.objects| then done.2.(objects := done.2.objects[slot := done.0]) else done.2))
              case Err(e) => Err(e)
  {
    hide ReadComplex;
  }

  lemma {:induction false} NextProperty(name: A3.Str, tail: seq<byte>, d: DecodeContext, depth: nat,
          sofar: seq<Property>)
    requires 0 < |name| <= MAX_SHORT && |sofar| < MAX_COLLECTION
    ensures ReadProperties(Be16(|name|) + (name + tail), d, depth, sofar) ==
            match ReadNext(tail, d, depth)
            case Err(e) => Err(e)
            case Ok(done) =>
              if done.0.None? then Err(UnexpectedEof)
                  else ReadProperties(done.1, done.2, depth, Insert(sofar, name, done.0.value))
  {
    hide ReadNext, ReadU16, Be16;
    U16Back(|name|, name + tail);
    TakeBack(name, tail);
  }

  /** In step, except that the slot about to be filled may have been given out. */
  ghost predicate Ahead(c: Context, d: DecodeContext) {
    && c.next == |d.objects| && c.embedded == |d.embedded| && Fits(c)
    && (forall id :: id in c.refs ==> c.refs[id] < c.next + 1)
  }

  lemma AheadNow(c: Context, d: DecodeContext)
    requires InStep(c, d)
    ensures Ahead(c, d)
  {
  }

  lemma AheadAssigned(c: Context, d: DecodeContext, id: nat)
    requires InStep(c, d) && c.next <= MAX_SHORT
    ensures Ahead(Assign(c, id), d) && At(Assign(c, id), d) == At(c, d).(refs := c.refs[id := c.next])
  {
  }

  lemma AheadCounted(c: Context, d: DecodeContext)
    requires Ahead(c, d) && Fits(Count(c))
    ensures InStep(Count(c), d.(objects := d.objects + [Null]))
  {
  }

  lemma KnownReads(c: Context, d: DecodeContext, id: nat, depth: nat, rest: seq<byte>)
    requires InStep(c, d) && id in c.refs && depth <= MAX_DEPTH
    ensures NextBack(ReadNext([0x07] + Be16(c.refs[id]) + rest, d, depth), Some(Reference(c.refs[id])), At(c, d), rest,
            c)
  {
    hide ReadNext, Be16;
    NextReference(c.refs[id], d, depth, rest);
  }

  lemma OpenReference(doc: Document, c: Context, n: Numbering, id: nat, depth: nat)
    requires n.refs == c.refs && |n.objects| == c.next && WriteValue(doc, c, Reference(id), depth).Ok?
    ensures depth <= MAX_DEPTH && id < |doc.objects| && Complex(doc.objects[id])
    ensures id in c.refs ==>
      && WriteValue(doc, c, Reference(id), depth) == Ok(([0x07] + Be16(c.refs[id]), c))
      && NumberValue(doc, n, Reference(id)) == (Reference(c.refs[id]), n)
    ensures id !in c.refs ==>
      && c.next <= MAX_SHORT
      && WriteValue(doc, c, Reference(id), depth) == WriteComplex(doc, Count(Assign(c, id)), doc.objects[id], depth)
      && NumberValue(doc, n, Reference(id)) == NumberComplex(doc, n.(refs := n.refs[id := c.next]), doc.objects[id])
  {
    hide WriteComplex, NumberComplex, Be16, WriteEmbedded, WriteString, G3.NumberValue, G3.RelocateAll;
  }

  lemma OpenComplex(doc: Document, c: Context, n: Numbering, v: Value, depth: nat)
    requires Complex(v) && WriteValue(doc, c, v, depth).Ok?
    ensures depth <= MAX_DEPTH && WriteValue(doc, c, v, depth) == WriteComplex(doc, Count(c), v, depth)
    ensures NumberValue(doc, n, v) == NumberComplex(doc, n, v)
  {
    hide WriteComplex, NumberComplex, WriteEmbedded, WriteString, G3.NumberValue, G3.RelocateAll;
  }

  lemma {:induction false} ValueReads(doc: Document, ids: set<nat>, c: Context, d: DecodeContext, v: Value, depth: nat,
          rest: seq<byte>)
    requires InStep(c, d) && GoodArena(doc, ids) && Good(doc, ids, v) && WriteValue(doc, c, v, depth).Ok?
    ensures var (out, c') := WriteValue(doc, c, v, depth).value;
            var (w, n) := NumberValue(doc, At(c, d), v);
            out != [] && NextBack(ReadNext(out + rest, d, depth), Some(w), n, rest, c')
    decreases Rank(depth), 1, 0
  {
    hide WriteValue, NumberValue, WriteComplex, ReadNext, NumberComplex, Good, AllGood, GoodArena, ReadScalar, Be16,
         Assign, Ahead, Count;
    if v.Reference? {
      OpenReference(doc, c, At(c, d), v.id, depth);
      if v.id in c.refs {
        KnownReads(c, d, v.id, depth, rest);
      } else {
        ObjectFine(doc, ids, v.id);
        AheadAssigned(c, d, v.id);
        SlotReads(doc, ids, Assign(c, v.id), d, doc.objects[v.id], depth, rest);
      }
    } else if Complex(v) {
      OpenComplex(doc, c, At(c, d), v, depth);
      AheadNow(c, d);
      SlotReads(doc, ids, c, d, v, depth, rest);
    } else {
      ScalarReads(doc, ids, c, d, v, depth, rest);
      var out := WriteValue(doc, c, v, depth).value.0;
      var s := out + rest;
      assert s[0] == out[0] && s[1..] == out[1..] + rest;
      ShallowEnough(doc, c, v, depth);
      NextScalar(s, d, depth);
    }
  }

  lemma ShallowEnough(doc: Document, c: Context, v: Value, depth: nat)
    requires WriteValue(doc, c, v, depth).Ok?
    ensures depth <= MAX_DEPTH
  {
    hide WriteComplex;
  }

  /** A complex value takes the next slot on both sides, before its children. */
  lemma {:induction false} SlotReads(doc: Document, ids: set<nat>, c: Context, d: DecodeContext, v: Value, depth: nat,
          rest: seq<byte>)
    requires Ahead(c, d)
    requires GoodArena(doc, ids) && Complex(v) && Good(doc, ids, v) && depth <= MAX_DEPTH
    requires WriteComplex(doc, Count(c), v, depth).Ok?
    ensures var (out, c') := WriteComplex(doc, Count(c), v, depth).value;
            var (w, n) := NumberComplex(doc, At(c, d), v);
            out != [] && NextBack(ReadNext(out + rest, d, depth), Some(w), n, rest, c')
    decreases Rank(depth), 0, 2
  {
    hide WriteComplex, ReadNext, ReadComplex, NumberComplex, NumberChildren, Good, AllGood, GoodArena;
    var c0, d0 := Count(c), d.(objects := d.objects + [Null]);
    var (out, c') := WriteComplex(doc, c0, v, depth).value;
    ComplexMarker(doc, c0, v, depth);
    var s := out + rest;
    assert s[0] == out[0] && s[1..] == out[1..] + rest;
    if !Fits(c0) {
      Unfit(c0, c');
      NextComplex(s, d, depth);
    } else {
      AheadCounted(c, d);
      ComplexReads(doc, ids, c0, d0, v, depth, rest);
      SlotFinish(doc, c, d, v, depth, s, rest, c');
    }
  }

  /** Once the children are read, the value is put into its slot. */
  lemma SlotFinish(doc: Document, c: Context, d: DecodeContext, v: Value, depth: nat, s: seq<byte>, rest: seq<byte>,
          c': Context)
    requires Complex(v) && |d.objects| < MAX_COLLECTION && s != [] && s[0] in {0x03, 0x0A, 0x10} && depth <= MAX_DEPTH
    requires var d0 := d.(objects := d.objects + [Null]);
             var (w, n) := NumberChildren(doc, At(c, d0), v);
             Back(ReadComplex(s[0], s[1..], d0, depth), w, n, rest, c')
    ensures var (w, n) := NumberComplex(doc, At(c, d), v); NextBack(ReadNext(s, d, depth), Some(w), n, rest, c')
  {
    hide ReadNext, ReadComplex, NumberChildren, Fits;
    NextComplex(s, d, depth);
  }

  lemma ComplexMarker(doc: Document, c: Context, v: Value, depth: nat)
    requires Complex(v) && depth <= MAX_DEPTH && WriteComplex(doc, c, v, depth).Ok?
    ensures var out := WriteComplex(doc, c, v, depth).value.0;
            out != [] && out[0] == if v.Object? then 0x03 else if v.StrictArray? then 0x0A else 0x10
  {
    hide WriteValues, WriteProperties, Be32;
  }

  lemma {:induction false} ComplexReads(doc: Document, ids: set<nat>, c: Context, d: DecodeContext, v: Value,
          depth: nat, rest: seq<byte>)
    requires InStep(c, d) && GoodArena(doc, ids) && Complex(v) && Good(doc, ids, v) && depth <= MAX_DEPTH
             && WriteComplex(doc, c, v, depth).Ok?
    ensures var (out, c') := WriteComplex(doc, c, v, depth).value;
            var (w, n) := NumberChildren(doc, At(c, d), v);
            out != [] && out[0] in {0x03, 0x0A, 0x10}
                && Back(ReadComplex(out[0], out[1..] + rest, d, depth), w, n, rest, c')
    decreases Rank(depth), 0, 1
  {
    hide WriteComplex, ReadComplex, NumberChildren, Good, AllGood, GoodArena;
    match v
    case StrictArray(_) => ArrayReads(doc, ids, c, d, v, depth, rest);
    case Object(_) => ObjectReads(doc, ids, c, d, v, depth, rest);
    case TypedObject(_, _) => TypedReads(doc, ids, c, d, v, depth, rest);
  }

  lemma {:induction false} ArrayReads(doc: Document, ids: set<nat>, c: Context, d: DecodeContext, v: Value, depth: nat,
          rest: seq<byte>)
    requires InStep(c, d) && GoodArena(doc, ids) && v.StrictArray? && Good(doc, ids, v) && depth <= MAX_DEPTH
             && WriteComplex(doc, c, v, depth).Ok?
    ensures var (out, c') := WriteComplex(doc, c, v, depth).value;
            var (w, n) := NumberChildren(doc, At(c, d), v);
            out != [] && out[0] == 0x0A && Back(ReadComplex(0x0A, out[1..] + rest, d, depth), w, n, rest, c')
    decreases Rank(depth), 0, 0
  {
    hide WriteValues, WriteProperties, ReadItems, ReadProperties, NumberValues, NumberProperties, Be32, Be16, GoodArena,
         Fits, InStep, AllGood, ReadU32;
    var body := WriteValues(doc, c, v.items, depth + 1).value.0;
    BehindMarker(0x0A, Be32(|v.items|), body, rest);
    U32Back(|v.items|, body + rest);
    ItemsRead(doc, ids, c, d, v.items, depth + 1, rest);
  }

  lemma {:induction false} ObjectReads(doc: Document, ids: set<nat>, c: Context, d: DecodeContext, v: Value,
          depth: nat, rest: seq<byte>)
    requires InStep(c, d) && GoodArena(doc, ids) && v.Object? && Good(doc, ids, v) && depth <= MAX_DEPTH
             && WriteComplex(doc, c, v, depth).Ok?
    ensures var (out, c') := WriteComplex(doc, c, v, depth).value;
            var (w, n) := NumberChildren(doc, At(c, d), v);
            out != [] && out[0] == 0x03 && Back(ReadComplex(0x03, out[1..] + rest, d, depth), w, n, rest, c')
    decreases Rank(depth), 0, 0
  {
    hide WriteValues, WriteProperties, ReadItems, ReadProperties, NumberValues, NumberProperties, Be32, Be16, GoodArena,
         Fits, InStep, PropertiesGood, Named, ReadU16, Apart;
    BehindMarker(0x03, WriteProperties(doc, c, v.properties, depth + 1).value.0, [], rest);
    ApartNone(v.properties);
    PropertiesRead(doc, ids, c, d, v.properties, depth + 1, rest, []);
    var qs := NumberProperties(doc, At(c, d), v.properties).0;
    assert [] + qs == qs;
  }

  lemma {:induction false} TypedReads(doc: Document, ids: set<nat>, c: Context, d: DecodeContext, v: Value, depth: nat,
          rest: seq<byte>)
    requires InStep(c, d) && GoodArena(doc, ids) && v.TypedObject? && Good(doc, ids, v) && depth <= MAX_DEPTH
             && WriteComplex(doc, c, v, depth).Ok?
    ensures var (out, c') := WriteComplex(doc, c, v, depth).value;
            var (w, n) := NumberChildren(doc, At(c, d), v);
            out != [] && out[0] == 0x10 && Back(ReadComplex(0x10, out[1..] + rest, d, depth), w, n, rest, c')
    decreases Rank(depth), 0, 0
  {
    hide WriteValues, WriteProperties, ReadItems, ReadProperties, NumberValues, NumberProperties, Be32, Be16, GoodArena,
         Fits, InStep, PropertiesGood, Named, ReadU16, Apart;
    var name, body := v.className, WriteProperties(doc, c, v.properties, depth + 1).value.0;
    BehindName(0x10, Be16(|name|), name, body, rest);
    U16Back(|name|, name + (body + rest));
    TakeBack(name, body + rest);
    ApartNone(v.properties);
    PropertiesRead(doc, ids, c, d, v.properties, depth + 1, rest, []);
    var qs := NumberProperties(doc, At(c, d), v.properties).0;
    assert [] + qs == qs;
  }

  lemma ApartNone(ps: seq<Property>)
    ensures Apart([], ps)
  {
  }

  lemma {:induction false} ItemsRead(doc: Document, ids: set<nat>, c: Context, d: DecodeContext, vs: seq<Value>,
          depth: nat, rest: seq<byte>)
    requires InStep(c, d) && GoodArena(doc, ids) && AllGood(doc, ids, vs) && WriteValues(doc, c, vs, depth).Ok?
    ensures var (out, c') := WriteValues(doc, c, vs, depth).value;
            var (ws, n) := NumberValues(doc, At(c, d), vs);
            ItemsBack(ReadItems(out + rest, d, depth, |vs|), ws, n, rest, c')
    decreases Rank(depth), 3, |vs|
  {
    hide WriteValue, ReadNext, NumberValue, Good;
    var (out, c') := WriteValues(doc, c, vs, depth).value;
    if vs == [] {
      assert out + rest == rest;
    } else {
      var (first, c1) := WriteValue(doc, c, vs[0], depth).value;
      var (others, c2) := WriteValues(doc, c1, vs[1..], depth).value;
      assert out + rest == first + (others + rest);
      ValueReads(doc, ids, c, d, vs[0], depth, others + rest);
      if !Fits(c1) {
        Unfit(c1, c2);
      } else {
        ItemsRead(doc, ids, c1, ReadNext(first + (others + rest), d, depth).value.2, vs[1..], depth, rest);
      }
    }
  }

  /** No name occurs on both sides. */
  ghost predicate Apart(sofar: seq<Property>, ps: seq<Property>) {
    forall i, j :: 0 <= i < |sofar| && 0 <= j < |ps| ==> sofar[i].name != ps[j].name
  }

  lemma ApartOn(sofar: seq<Property>, ps: seq<Property>, w: Value)
    requires ps != [] && Apart(sofar, ps) && Named(ps)
    ensures Apart(sofar + [Property(ps[0].name, w)], ps[1..]) && Named(ps[1..])
    ensures forall i :: 0 <= i < |sofar| ==> sofar[i].name != ps[0].name
  {
  }

  lemma InsertNew(ps: seq<Property>, name: A3.Str, value: Value)
    requires forall i :: 0 <= i < |ps| ==> ps[i].name != name
    ensures Insert(ps, name, value) == ps + [Property(name, value)]
  {
    if ps != [] {
      InsertNew(ps[1..], name, value);
    }
  }

  lemma OpenProperty(doc: Document, c: Context, n: Numbering, ps: seq<Property>, depth: nat)
    requires ps != [] && WriteProperties(doc, c, ps, depth).Ok?
    ensures |ps[0].name| <= MAX_SHORT
    ensures var first := WriteValue(doc, c, ps[0].value, depth);
            && first.Ok?
            && var rest := WriteProperties(doc, first.value.1, ps[1..], depth);
            && rest.Ok? && Grown(first.value.1, rest)
            && WriteProperties(doc, c, ps, depth) ==
                 Ok((Be16(|ps[0].name|) + ps[0].name + first.value.0 + rest.value.0, rest.value.1))
    ensures var (w, n1) := NumberValue(doc, n, ps[0].value);
            var (qs, n2) := NumberProperties(doc, n1, ps[1..]);
            NumberProperties(doc, n, ps) == ([Property(ps[0].name, w)] + qs, n2)
  {
    hide WriteValue, NumberValue, Be16;
  }

  /** Properties are read after those in `sofar`, whose names are all different from theirs. */
  lemma {:induction false} PropertiesRead(doc: Document, ids: set<nat>, c: Context, d: DecodeContext,
          ps: seq<Property>, depth: nat, rest: seq<byte>, sofar: seq<Property>)
    requires InStep(c, d) && GoodArena(doc, ids) && PropertiesGood(doc, ids, ps) && Named(ps)
    requires WriteProperties(doc, c, ps, depth).Ok? && |sofar| + |ps| <= MAX_COLLECTION && Apart(sofar, ps)
    ensures var (out, c') := WriteProperties(doc, c, ps, depth).value;
            var (qs, n) := NumberProperties(doc, At(c, d), ps);
            PropertiesBack(ReadProperties(out + rest, d, depth, sofar), sofar + qs, n, rest, c')
    decreases Rank(depth), 3, |ps|
  {
    hide WriteValue, ReadNext, WriteProperties, ReadProperties, NumberValue, NumberProperties, Good, PropertiesGood,
         Named, GoodArena, Be16, Insert, Apart;
    if ps == [] {
      NoProperties(doc, c, At(c, d), depth);
      EndRead(d, depth, rest, sofar);
      assert sofar + [] == sofar;
    } else {
      OpenProperty(doc, c, At(c, d), ps, depth);
      PropertyFine(doc, ids, ps);
      var name := ps[0].name;
      var (value, c1) := WriteValue(doc, c, ps[0].value, depth).value;
      var (others, c2) := WriteProperties(doc, c1, ps[1..], depth).value;
      var tail := value + (others + rest);
      Regroup(Be16(|name|), name, value, others, rest);
      NextProperty(name, tail, d, depth, sofar);
      ValueReads(doc, ids, c, d, ps[0].value, depth, others + rest);
      if !Fits(c1) {
        Unfit(c1, c2);
      } else {
        var (w, n) := NumberValue(doc, At(c, d), ps[0].value);
        var grown, d1 := sofar + [Property(name, w)], ReadNext(tail, d, depth).value.2;
        ApartOn(sofar, ps, w);
        InsertNew(sofar, name, w);
        PropertiesRead(doc, ids, c1, d1, ps[1..], depth, rest, grown);
        var qs := NumberProperties(doc, n, ps[1..]).0;
        assert grown + qs == sofar + ([Property(name, w)] + qs);
      }
    }
  }

  lemma Regroup(a: seq<byte>, b: seq<byte>, c: seq<byte>, d: seq<byte>, e: seq<byte>)
    ensures a + b + c + d + e == a + (b + (c + (d + e)))
  {
  }

  lemma PropertyFine(doc: Document, ids: set<nat>, ps: seq<Property>)
    requires ps != [] && PropertiesGood(doc, ids, ps) && Named(ps)
    ensures Good(doc, ids, ps[0].value) && PropertiesGood(doc, ids, ps[1..]) && ps[0].name != []
  {
  }

  lemma NoProperties(doc: Document, c: Context, n: Numbering, depth: nat)
    ensures WriteProperties(doc, c, [], depth) == Ok(([0, 0, 0x09], c)) && NumberProperties(doc, n, []) == ([], n)
  {
  }

  lemma EndRead(d: DecodeContext, depth: nat, rest: seq<byte>, sofar: seq<Property>)
    ensures ReadProperties([0, 0, 0x09] + rest, d, depth, sofar) == Ok((sofar, rest, d))
  {
    var s: seq<byte> := [0, 0, 0x09] + rest;
    assert s == Be16(0) + ([0x09] + rest);
    U16Back(0, [0x09] + rest);
    TakeBack([0x09], rest);
  }

  // ----- documents -----------------------------------------------------------------------------------------

  lemma {:induction false} RootsRead(doc: Document, ids: set<nat>, c: Context, d: DecodeContext, vs: seq<Value>,
          count: nat)
    requires InStep(c, d) && GoodArena(doc, ids) && AllGood(doc, ids, vs) && WriteValues(doc, c, vs, 0).Ok?
    requires count <= MAX_COLLECTION
    ensures var (out, c') := WriteValues(doc, c, vs, 0).value;
            var (ws, n) := NumberValues(doc, At(c, d), vs);
            var r := ReadRoots(out, d, count);
            if Fits(c') && count + |vs| <= MAX_COLLECTION then
              r.Ok? && r.value.0 == ws && n == At(c', r.value.1)
            else r.Err?
    decreases |vs|
  {
    hide WriteValue, ReadNext, NumberValue, Good, AllGood, GoodArena;
    var (out, c') := WriteValues(doc, c, vs, 0).value;
    if vs == [] {
      NothingLeft(d);
    } else {
      FirstFine(doc, ids, vs);
      var (first, c1) := WriteValue(doc, c, vs[0], 0).value;
      var (others, c2) := WriteValues(doc, c1, vs[1..], 0).value;
      ValueReads(doc, ids, c, d, vs[0], 0, others);
      if !Fits(c1) {
        Unfit(c1, c2);
      } else if count < MAX_COLLECTION {
        RootsRead(doc, ids, c1, ReadNext(first + others, d, 0).value.2, vs[1..], count + 1);
      }
    }
  }

  lemma FirstFine(doc: Document, ids: set<nat>, vs: seq<Value>)
    requires vs != [] && AllGood(doc, ids, vs)
    ensures Good(doc, ids, vs[0]) && AllGood(doc, ids, vs[1..])
  {
  }

  lemma NothingLeft(d: DecodeContext)
    ensures ReadNext([], d, 0) == Ok((None, [], d))
  {
  }

  /** A document whose reachable part is good decodes to its first-visit renumbering exactly if the
      reader has room for it. Otherwise decoding reports an error. */
  lemma GoodRoundTrip(doc: Document, ids: set<nat>)
    requires GoodArena(doc, ids) && AllGood(doc, ids, doc.roots) && EncodeDocument(doc).Ok?
    ensures var (bytes, c) := EncodeDocument(doc).value;
            && (DecodeDocument(bytes) == Ok(Renumber(doc)) <==> Fits(c) && |doc.roots| <= MAX_COLLECTION)
            && (DecodeDocument(bytes).Ok? <==> Fits(c) && |doc.roots| <= MAX_COLLECTION)
  {
    hide WriteValues, ReadRoots, NumberValues, GoodArena, AllGood;
    RootsRead(doc, ids, NewContext, NewDecodeContext, doc.roots, 0);
  }
}
