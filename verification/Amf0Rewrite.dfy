/** Numbering and writing a renumbered AMF0 document again: the numbering changes nothing, and the bytes
    are the same unless the document has more complex values than references can address. */
module Amf0Rewrite {
  import opened Base
  import opened Amf0
  import opened Amf0RoundTrip
  import opened Amf0Same
  import A3 = Amf3
  import G3 = Amf3Graph
  import W3 = Amf3Rewrite
  import E3 = Amf3Exact
  import V3 = Amf3Moved

  /** As many complex values as 16-bit references can address. */
  const ADDRESSABLE: nat := 65536

  /** Every slot below `n` refers to itself. */
  ghost predicate Diagonal(refs: map<nat, nat>, n: nat) {
    (forall k :: k in refs <==> 0 <= k < n) && (forall k :: k in refs ==> refs[k] == k)
  }

  /** The writer's state on the renumbered document, at the same point of the walk. */
  ghost predicate Twin(c: Context, d: Context) {
    d.next == c.next && d.embedded == c.embedded && d.tablesFit == c.tablesFit && Diagonal(d.refs, c.next)
  }

  /** The numbering of the renumbered document, at the same point of the walk. */
  ghost predicate Again(n: Numbering, m: Numbering) {
    m.objects == n.objects && m.embedded == n.embedded && Diagonal(m.refs, |n.objects|)
  }

  ghost predicate Aligned(c: Context, n: Numbering) {
    n.refs == c.refs && |n.objects| == c.next && |n.embedded| == c.embedded && Below(n, c.next)
  }

  /** The finished arena holds, in the slot of every numbered object, a complex value. */
  ghost predicate Kinds(objects: seq<Value>, refs: map<nat, nat>, arena: seq<Value>) {
    forall id :: id in refs ==> !Dangling(objects, id) && refs[id] < |arena| && Complex(arena[refs[id]])
  }

  /** What was added between `n` and `n2` is as in the finished document. */
  ghost predicate Filled(arena: Document, n: Numbering, n2: Numbering) {
    && |n2.objects| <= |arena.objects| && n2.embedded <= arena.embedded
    && (forall k :: |n.objects| <= k < |n2.objects| ==> arena.objects[k] == n2.objects[k])
  }

  ghost predicate Carried(doc: Document, arena: Document, w: Written, n: Numbering) {
    w.Ok? && Aligned(w.value.1, n) && Kinds(doc.objects, n.refs, arena.objects)
  }

  /** The same bytes, unless there are too many complex values. */
  ghost predicate Rewritten(w: Written, again: Written) {
    && w.Ok?
    && (if w.value.1.next <= ADDRESSABLE then again.Ok? && again.value.0 == w.value.0 && Twin(w.value.1, again.value.1)
        else again.Err?)
  }

  lemma FilledFirst(doc: Document, arena: Document, n: Numbering, n1: Numbering, n2: Numbering)
    requires Progress(doc, n, n1) && Progress(doc, n1, n2) && Filled(arena, n, n2)
    ensures Filled(arena, n, n1) && Filled(arena, n1, n2)
  {
  }

  // ----- embedded values ------------------------------------------------------------------------------

  /** An embedded value, once renumbered and moved, is numbered and written as before. */
  lemma EmbeddedAgain(env: seq<A3.Value>, arena: seq<A3.Value>, base: nat, inner: A3.Value)
    requires EncodeEmbedded(env, inner).Some?
    requires V3.Holds(arena, G3.NumberValue(env, G3.Numbering(map[], []), inner).1.objects, base)
    ensures var start := G3.Numbering(map[], []);
            var (u, m) := G3.NumberValue(env, start, inner);
            && EncodeEmbedded(env, inner).value.1 == |m.objects|
            && EncodeEmbedded(arena, G3.Relocate(u, base)) == EncodeEmbedded(env, inner)
            && G3.NumberValue(arena, start, G3.Relocate(u, base)).0 == u
            && G3.NumberValue(arena, start, G3.Relocate(u, base)).1.objects == m.objects
  {
    hide A3.WriteValue, G3.NumberValue, G3.Relocate, V3.MovedRefs;
    var start, c := G3.Numbering(map[], []), A3.NewEncodeContext;
    var (u, m) := G3.NumberValue(env, start, inner);
    assert W3.Identity(c) == c && E3.Again(start) == start;
    W3.ValueRewrites(env, m.objects, c, start, inner, 0);
    E3.ValueSettles(env, m.objects, c, start, inner, 0);
    V3.MovedNone(base);
    V3.ValueMoves(m.objects, arena, base, c, start, u, 0);
  }

  lemma OpenAvmPlus(doc: Document, c: Context, inner: A3.Value, depth: nat)
    requires depth <= MAX_DEPTH
    ensures WriteValue(doc, c, AvmPlus(inner), depth) == WriteEmbedded(doc.embedded, c, inner)
  {
    hide WriteEmbedded, WriteComplex;
  }

  lemma EncodedEmbedded(env: seq<A3.Value>, c: Context, inner: A3.Value)
    ensures WriteEmbedded(env, c, inner).Ok? <==> EncodeEmbedded(env, inner).Some?
  {
    hide EncodeEmbedded, Embed;
  }

  lemma EmbeddedWritten(env: seq<A3.Value>, c: Context, inner: A3.Value)
    requires EncodeEmbedded(env, inner).Some?
    ensures var (out, count, fits) := EncodeEmbedded(env, inner).value;
            WriteEmbedded(env, c, inner) == Ok(([0x11] + out, Embed(c, count, fits)))
  {
    hide EncodeEmbedded, Embed;
  }

  lemma NumberAvmPlus(doc: Document, n: Numbering, inner: A3.Value)
    ensures var (u, m) := G3.NumberValue(doc.embedded, G3.Numbering(map[], []), inner);
            NumberValue(doc, n, AvmPlus(inner)) ==
            (AvmPlus(G3.Relocate(u, |n.embedded|)),
                n.(embedded := n.embedded + G3.RelocateAll(m.objects, |n.embedded|)))
  {
    hide G3.NumberValue, G3.Relocate, G3.RelocateAll, NumberComplex;
  }

  lemma HoldsBlock(arena: seq<A3.Value>, before: seq<A3.Value>, objects: seq<A3.Value>)
    requires before + G3.RelocateAll(objects, |before|) <= arena
    ensures V3.Holds(arena, objects, |before|)
  {
    hide G3.Relocate;
    var base := |before|;
    forall id | 0 <= id < |objects|
      ensures arena[base + id] == G3.Relocate(objects[id], base)
    {
      assert (before + G3.RelocateAll(objects, base))[base + id] == G3.RelocateAll(objects, base)[id];
    }
  }

  lemma EmbeddedCarried(doc: Document, arena: Document, c: Context, n: Numbering, inner: A3.Value, block: seq<A3.Value>)
    requires Aligned(c, n) && Kinds(doc.objects, n.refs, arena.objects)
    requires EncodeEmbedded(doc.embedded, inner).Some? && EncodeEmbedded(doc.embedded, inner).value.1 == |block|
    ensures Carried(doc, arena, WriteEmbedded(doc.embedded, c, inner), n.(embedded := n.embedded + block))
  {
    hide EncodeEmbedded, Kinds;
    EmbeddedWritten(doc.embedded, c, inner);
  }

  lemma EmbeddedRewrites(env: seq<A3.Value>, arena: seq<A3.Value>, c: Context, d: Context, inner: A3.Value,
          moved: A3.Value)
    requires Twin(c, d) && c.next <= ADDRESSABLE
    requires EncodeEmbedded(env, inner).Some? && EncodeEmbedded(arena, moved) == EncodeEmbedded(env, inner)
    ensures Rewritten(WriteEmbedded(env, c, inner), WriteEmbedded(arena, d, moved))
  {
    hide EncodeEmbedded, WriteEmbedded, Diagonal;
    EmbeddedWritten(env, c, inner);
    EmbeddedWritten(arena, d, moved);
  }

  /** What one part of the document comes to, and what its renumbered form comes to: `m` is the numbering
      after that, and `again` what it is written as. */
  ghost predicate Repeats(doc: Document, arena: Document, c: Context, w: Written, n: Numbering, m: Numbering,
          again: Written) {
    Carried(doc, arena, w, n) && Again(n, m) && (c.next <= ADDRESSABLE ==> Rewritten(w, again))
  }

  /** The walk over the document and the walk over its renumbered form stand at the same point. */
  ghost predicate Abreast(doc: Document, arena: Document, c: Context, d: Context, n: Numbering, m: Numbering) {
    Aligned(c, n) && Kinds(doc.objects, n.refs, arena.objects) && Again(n, m) && (c.next <= ADDRESSABLE ==> Twin(c, d))
  }

  lemma AvmPlusAgain(doc: Document, arena: Document, c: Context, d: Context, n: Numbering, m: Numbering,
          inner: A3.Value, depth: nat)
    requires Abreast(doc, arena, c, d, n, m) && depth <= MAX_DEPTH
    requires WriteValue(doc, c, AvmPlus(inner), depth).Ok? && Filled(arena, n, NumberValue(doc, n, AvmPlus(inner)).1)
    ensures var (w, n') := NumberValue(doc, n, AvmPlus(inner));
            var (w2, m') := NumberValue(arena, m, w);
            w2 == w && Repeats(doc, arena, c, WriteValue(doc, c, AvmPlus(inner), depth), n', m',
                WriteValue(arena, d, w, depth))
  {
    hide EncodeEmbedded, G3.NumberValue, G3.Relocate, G3.RelocateAll, Kinds, WriteValue, NumberValue, Diagonal,
        Rewritten, Twin,
         WriteEmbedded, Embed, Carried, V3.Holds;
    var base := |n.embedded|;
    var (u, k) := G3.NumberValue(doc.embedded, G3.Numbering(map[], []), inner);
    OpenAvmPlus(doc, c, inner, depth);
    OpenAvmPlus(arena, d, G3.Relocate(u, base), depth);
    EncodedEmbedded(doc.embedded, c, inner);
    NumberAvmPlus(doc, n, inner);
    HoldsBlock(arena.embedded, n.embedded, k.objects);
    EmbeddedAgain(doc.embedded, arena.embedded, base, inner);
    NumberAvmPlus(arena, m, G3.Relocate(u, base));
    EmbeddedCarried(doc, arena, c, n, inner, G3.RelocateAll(k.objects, base));
    if c.next <= ADDRESSABLE {
      EmbeddedRewrites(doc.embedded, arena.embedded, c, d, inner, G3.Relocate(u, base));
    }
  }

  // ----- references and slots ---------------------------------------------------------------------------

  /** A reference to an object that has its slot. */
  lemma KnownAgain(doc: Document, arena: Document, c: Context, d: Context, n: Numbering, m: Numbering, id: nat,
          depth: nat)
    requires Abreast(doc, arena, c, d, n, m) && id in c.refs && WriteValue(doc, c, Reference(id), depth).Ok?
    ensures var slot := c.refs[id];
            && NumberValue(doc, n, Reference(id)) == (Reference(slot), n)
            && NumberValue(arena, m, Reference(slot)) == (Reference(slot), m)
            && Repeats(doc, arena, c, WriteValue(doc, c, Reference(id), depth), n, m,
                 WriteValue(arena, d, Reference(slot), depth))
  {
    hide WriteComplex, NumberComplex, WriteEmbedded, Be16, WriteString, G3.NumberValue;
    assert c.refs[id] in m.refs;
  }

  lemma ScalarAgain(doc: Document, arena: Document, c: Context, d: Context, n: Numbering, m: Numbering, v: Value,
          depth: nat)
    requires Abreast(doc, arena, c, d, n, m) && !v.Reference? && !Complex(v) && !v.AvmPlus?
             && WriteValue(doc, c, v, depth).Ok?
    ensures NumberValue(doc, n, v) == (v, n) && NumberValue(arena, m, v) == (v, m)
    ensures Repeats(doc, arena, c, WriteValue(doc, c, v, depth), n, m, WriteValue(arena, d, v, depth))
  {
    hide WriteComplex, NumberComplex, WriteEmbedded, WriteString, G3.NumberValue, Kinds, Diagonal;
  }

  lemma ChildrenKind(doc: Document, n: Numbering, v: Value)
    requires Complex(v)
    ensures Complex(NumberChildren(doc, n, v).0)
  {
    hide NumberValues, NumberProperties;
  }

  /** An object met for the first time has its kind in the slot it is about to take. */
  lemma SlotKinds(doc: Document, arena: Document, n: Numbering, id: nat)
    requires Kinds(doc.objects, n.refs, arena.objects) && id !in n.refs && !Dangling(doc.objects, id)
    requires Filled(arena, n, NumberComplex(doc, n.(refs := n.refs[id := |n.objects|]), doc.objects[id]).1)
    ensures Kinds(doc.objects, n.refs[id := |n.objects|], arena.objects)
  {
    hide NumberChildren;
    ChildrenKind(doc, Numbering(n.refs[id := |n.objects|], n.objects + [Null], n.embedded), doc.objects[id]);
  }

  /** A reference to the slot that comes next opens it, if it can be addressed. */
  lemma SlotOpens(arena: Document, d: Context, depth: nat)
    requires d.next !in d.refs && d.next < |arena.objects| && Complex(arena.objects[d.next]) && depth <= MAX_DEPTH
    ensures WriteValue(arena, d, Reference(d.next), depth) ==
            if d.next > MAX_SHORT then Err(CollectionTooLarge(d.next))
            else WriteComplex(arena, Count(Assign(d, d.next)), arena.objects[d.next], depth)
  {
    hide WriteComplex;
  }

  lemma SlotNumbers(arena: Document, m: Numbering, slot: nat)
    requires slot == |m.objects| && slot !in m.refs && slot < |arena.objects| && Complex(arena.objects[slot])
    ensures NumberValue(arena, m, Reference(slot)) ==
            NumberComplex(arena, m.(refs := m.refs[slot := slot]), arena.objects[slot])
  {
    hide NumberComplex, G3.NumberValue;
  }

  lemma TwinAssigned(c: Context, d: Context)
    requires Twin(c, d) && c.next <= MAX_SHORT
    ensures d.next !in d.refs && Twin(Count(c), Count(Assign(d, d.next)))
  {
  }

  /** Writing a complex value and writing a reference to its slot come to the same. */
  lemma {:induction false} SlotAgain(doc: Document, arena: Document, c: Context, d: Context, n: Numbering,
          m: Numbering, v: Value, depth: nat)
    requires Complex(v) && n.refs == c.refs && |n.objects| == c.next && |n.embedded| == c.embedded
             && Below(n, c.next + 1)
    requires Kinds(doc.objects, n.refs, arena.objects) && Again(n, m) && (c.next <= ADDRESSABLE ==> Twin(c, d))
             && depth <= MAX_DEPTH
    requires WriteComplex(doc, Count(c), v, depth).Ok? && Filled(arena, n, NumberComplex(doc, n, v).1)
    ensures var (w, n') := NumberComplex(doc, n, v);
            var (w2, m') := NumberValue(arena, m, w);
            w2 == w && Repeats(doc, arena, c, WriteComplex(doc, Count(c), v, depth), n', m',
                WriteValue(arena, d, w, depth))
    decreases Rank(depth), 0, 2
  {
    hide WriteValue, WriteComplex, NumberValue, NumberChildren, Kinds, Diagonal, Twin;
    var slot := c.next;
    var c0, n0 := Count(c), n.(objects := n.objects + [Null]);
    var (w, n1) := NumberChildren(doc, n0, v);
    ChildrenKind(doc, n0, v);
    assert arena.objects[slot] == w;
    var m0 := Numbering(m.refs[slot := slot], n0.objects, n.embedded);
    DiagonalNext(m.refs, slot);
    SlotNumbers(arena, m, slot);
    var d0 := d;
    if c.next <= ADDRESSABLE {
      TwinNext(c, d);
      SlotOpens(arena, d, depth);
      if c.next <= MAX_SHORT {
        TwinAssigned(c, d);
        d0 := Count(Assign(d, slot));
      }
    }
    ChildrenAgain(doc, arena, c0, d0, n0, m0, v, depth);
    NumbersSlot(arena, m.(refs := m.refs[slot := slot]), w);
  }

  lemma NumbersSlot(arena: Document, m: Numbering, v: Value)
    requires Complex(v)
    ensures var (v', m') := NumberChildren(arena, m.(objects := m.objects + [Null]), v);
            NumberComplex(arena, m, v) == (Reference(|m.objects|), m'.(objects := m'.objects[|m.objects| := v']))
  {
    hide NumberChildren;
  }

  lemma TwinNext(c: Context, d: Context)
    requires Twin(c, d)
    ensures d.next == c.next && d.next !in d.refs
  {
  }

  lemma DiagonalNext(refs: map<nat, nat>, n: nat)
    requires Diagonal(refs, n)
    ensures n !in refs && Diagonal(refs[n := n], n + 1)
  {
  }

  lemma {:induction false} ChildrenAgain(doc: Document, arena: Document, c: Context, d: Context, n: Numbering,
          m: Numbering, v: Value, depth: nat)
    requires Complex(v) && depth <= MAX_DEPTH && Abreast(doc, arena, c, d, n, m) && WriteComplex(doc, c, v, depth).Ok?
    requires Filled(arena, n, NumberChildren(doc, n, v).1)
    ensures var (w, n') := NumberChildren(doc, n, v);
            Complex(w) &&
            var (w2, m') := NumberChildren(arena, m, w);
            w2 == w && Repeats(doc, arena, c, WriteComplex(doc, c, v, depth), n', m', WriteComplex(arena, d, w, depth))
    decreases Rank(depth), 0, 1
  {
    hide WriteValues, WriteProperties, NumberValues, NumberProperties, Abreast, Aligned, Kinds, Again, Twin, Be16, Be32;
    match v
    case StrictArray(items) => ValuesAgain(doc, arena, c, d, n, m, items, depth + 1);
    case Object(ps) => PropertiesAgain(doc, arena, c, d, n, m, ps, depth + 1);
    case TypedObject(_, ps) => PropertiesAgain(doc, arena, c, d, n, m, ps, depth + 1);
  }

  /** Once a part is done, the two walks are abreast again. */
  lemma StillAbreast(doc: Document, arena: Document, c: Context, w: Written, n: Numbering, m: Numbering, again: Written)
    requires Repeats(doc, arena, c, w, n, m, again) && c.next <= w.value.1.next
    ensures Abreast(doc, arena, w.value.1, if again.Ok? then again.value.1 else c, n, m)
    ensures c.next <= ADDRESSABLE ==> Rewritten(w, again)
  {
    hide Kinds, Diagonal;
  }

  lemma NothingAgain(doc: Document, arena: Document, c: Context, d: Context, n: Numbering, m: Numbering, out: seq<byte>)
    requires Abreast(doc, arena, c, d, n, m)
    ensures Repeats(doc, arena, c, Ok((out, c)), n, m, Ok((out, d)))
  {
    hide Kinds, Diagonal;
  }

  /** Two parts, one behind the other. */
  lemma BothAgain(doc: Document, arena: Document, c: Context, w1: Written, w2: Written, n: Numbering, m: Numbering,
          a1: Written, a2: Written,
                  first: seq<byte>, again: Written)
    requires w1.Ok? && c.next <= w1.value.1.next && w2.Ok? && w1.value.1.next <= w2.value.1.next
    requires c.next <= ADDRESSABLE ==> Rewritten(w1, a1)
    requires Repeats(doc, arena, w1.value.1, w2, n, m, a2)
    requires again == if a1.Err? then Err(a1.error) else if a2.Err? then Err(a2.error)
             else Ok((first + a1.value.0 + a2.value.0, a2.value.1))
    ensures Repeats(doc, arena, c, Ok((first + w1.value.0 + w2.value.0, w2.value.1)), n, m, again)
  {
    hide Aligned, Kinds, Twin, Again;
  }

  lemma {:induction false} ValuesAgain(doc: Document, arena: Document, c: Context, d: Context, n: Numbering,
          m: Numbering, vs: seq<Value>, depth: nat)
    requires Abreast(doc, arena, c, d, n, m) && WriteValues(doc, c, vs, depth).Ok?
             && Filled(arena, n, NumberValues(doc, n, vs).1)
    ensures var (ws, n') := NumberValues(doc, n, vs);
            var (ws2, m') := NumberValues(arena, m, ws);
            ws2 == ws && Repeats(doc, arena, c, WriteValues(doc, c, vs, depth), n', m',
                WriteValues(arena, d, ws, depth))
    decreases Rank(depth), 3, |vs|
  {
    hide WriteValue, NumberValue, Progress, Abreast, Repeats, Filled;
    if vs == [] {
      NothingAgain(doc, arena, c, d, n, m, []);
    } else {
      AbreastBelow(doc, arena, c, d, n, m);
      ValueSame(doc, n, vs[0]);
      var (first, n1) := NumberValue(doc, n, vs[0]);
      ProgressBelow(doc, n, n1);
      ValuesSame(doc, n1, vs[1..]);
      var (others, n2) := NumberValues(doc, n1, vs[1..]);
      FilledFirst(doc, arena, n, n1, n2);
      ValueAgain(doc, arena, c, d, n, m, vs[0], depth);
      var w1, a1, m1 := WriteValue(doc, c, vs[0], depth), WriteValue(arena, d, first, depth),
          NumberValue(arena, m, first).1;
      StillAbreast(doc, arena, c, w1, n1, m1, a1);
      var d1 := if a1.Ok? then a1.value.1 else c;
      ValuesAgain(doc, arena, w1.value.1, d1, n1, m1, vs[1..], depth);
      var w2, a2 := WriteValues(doc, w1.value.1, vs[1..], depth), WriteValues(arena, d1, others, depth);
      assert ([first] + others)[1..] == others;
      forall a: seq<byte>, b: seq<byte>
        ensures [] + a + b == a + b
      {
      }
      BothAgain(doc, arena, c, w1, w2, n2, NumberValues(arena, m1, others).1, a1, a2, [],
          WriteValues(arena, d, [first] + others, depth));
    }
  }

  lemma {:induction false} PropertiesAgain(doc: Document, arena: Document, c: Context, d: Context, n: Numbering,
          m: Numbering, ps: seq<Property>,
                                           depth: nat)
    requires Abreast(doc, arena, c, d, n, m) && WriteProperties(doc, c, ps, depth).Ok?
             && Filled(arena, n, NumberProperties(doc, n, ps).1)
    ensures var (qs, n') := NumberProperties(doc, n, ps);
            var (qs2, m') := NumberProperties(arena, m, qs);
            qs2 == qs && Repeats(doc, arena, c, WriteProperties(doc, c, ps, depth), n', m',
                WriteProperties(arena, d, qs, depth))
    decreases Rank(depth), 3, |ps|
  {
    hide WriteValue, NumberValue, Progress, Abreast, Repeats, Filled;
    if ps == [] {
      NothingAgain(doc, arena, c, d, n, m, [0, 0, 0x09]);
    } else {
      var name, value := ps[0].name, ps[0].value;
      AbreastBelow(doc, arena, c, d, n, m);
      ValueSame(doc, n, value);
      var (first, n1) := NumberValue(doc, n, value);
      ProgressBelow(doc, n, n1);
      PropertiesSame(doc, n1, ps[1..]);
      var (others, n2) := NumberProperties(doc, n1, ps[1..]);
      FilledFirst(doc, arena, n, n1, n2);
      ValueAgain(doc, arena, c, d, n, m, value, depth);
      var w1, a1, m1 := WriteValue(doc, c, value, depth), WriteValue(arena, d, first, depth),
          NumberValue(arena, m, first).1;
      StillAbreast(doc, arena, c, w1, n1, m1, a1);
      var d1 := if a1.Ok? then a1.value.1 else c;
      PropertiesAgain(doc, arena, w1.value.1, d1, n1, m1, ps[1..], depth);
      var w2, a2 := WriteProperties(doc, w1.value.1, ps[1..], depth), WriteProperties(arena, d1, others, depth);
      var qs := [Property(name, first)] + others;
      assert qs[1..] == others;
      BothAgain(doc, arena, c, w1, w2, n2, NumberProperties(arena, m1, others).1, a1, a2, WriteName(name).value,
          WriteProperties(arena, d, qs, depth));
    }
  }

  lemma {:induction false} ValueAgain(doc: Document, arena: Document, c: Context, d: Context, n: Numbering,
          m: Numbering, v: Value, depth: nat)
    requires Abreast(doc, arena, c, d, n, m) && WriteValue(doc, c, v, depth).Ok?
             && Filled(arena, n, NumberValue(doc, n, v).1)
    ensures var (w, n') := NumberValue(doc, n, v);
            var (w2, m') := NumberValue(arena, m, w);
            w2 == w && Repeats(doc, arena, c, WriteValue(doc, c, v, depth), n', m', WriteValue(arena, d, w, depth))
    decreases Rank(depth), 1, 0
  {
    hide WriteValue, NumberValue, WriteComplex, NumberComplex, Repeats, Filled, Kinds, Diagonal, Twin;
    ShallowEnough(doc, c, v, depth);
    if v.Reference? {
      OpenReference(doc, c, n, v.id, depth);
      if v.id in c.refs {
        KnownAgain(doc, arena, c, d, n, m, v.id, depth);
      } else {
        var c1, n1 := Assign(c, v.id), n.(refs := n.refs[v.id := c.next]);
        SlotKinds(doc, arena, n, v.id);
        FilledSame(arena, n, n1, NumberComplex(doc, n1, doc.objects[v.id]).1);
        TwinAssign(c, d, v.id);
        SlotAgain(doc, arena, c1, d, n1, m, doc.objects[v.id], depth);
        AssignedRepeats(doc, arena, c, v.id, WriteComplex(doc, Count(c1), doc.objects[v.id], depth),
                        NumberComplex(doc, n1, doc.objects[v.id]).1, NumberValue(arena, m, Reference(c.next)).1,
                        WriteValue(arena, d, Reference(c.next), depth));
      }
    } else if Complex(v) {
      OpenComplex(doc, c, n, v, depth);
      SlotAgain(doc, arena, c, d, n, m, v, depth);
    } else if v.AvmPlus? {
      AvmPlusAgain(doc, arena, c, d, n, m, v.inner, depth);
    } else {
      ScalarAgain(doc, arena, c, d, n, m, v, depth);
    }
  }

  lemma FilledSame(arena: Document, n: Numbering, n1: Numbering, n2: Numbering)
    requires Filled(arena, n, n2) && n1.objects == n.objects
    ensures Filled(arena, n1, n2)
  {
  }

  lemma TwinAssign(c: Context, d: Context, id: nat)
    requires c.next <= MAX_SHORT
    ensures Twin(Assign(c, id), d) <==> Twin(c, d)
  {
  }

  lemma AssignedRepeats(doc: Document, arena: Document, c: Context, id: nat, w: Written, n: Numbering, m: Numbering,
          again: Written)
    requires c.next <= MAX_SHORT && Repeats(doc, arena, Assign(c, id), w, n, m, again)
    ensures Repeats(doc, arena, c, w, n, m, again)
  {
    hide Carried, Again, Rewritten;
  }

  lemma AbreastBelow(doc: Document, arena: Document, c: Context, d: Context, n: Numbering, m: Numbering)
    requires Abreast(doc, arena, c, d, n, m)
    ensures Below(n, |n.objects|)
  {
    hide Kinds, Again, Twin;
  }

  // ----- documents ----------------------------------------------------------------------------------------

  lemma RootsAgain(doc: Document)
    requires EncodeDocument(doc).Ok?
    ensures Renumber(Renumber(doc)) == Renumber(doc) && Rewritten(EncodeDocument(doc), EncodeDocument(Renumber(doc)))
    ensures var c := EncodeDocument(doc).value.1;
            && c.next == |Renumber(doc).objects| && c.embedded == |Renumber(doc).embedded|
            && c.refs == NumberValues(doc, Numbering(map[], [], []), doc.roots).1.refs
  {
    hide WriteValues, NumberValues;
    var start := Numbering(map[], [], []);
    var n := NumberValues(doc, start, doc.roots).1;
    ValuesAgain(doc, Renumber(doc), NewContext, NewContext, start, start, doc.roots, 0);
  }

  /** Renumbering an encodable document a second time changes nothing. */
  lemma RenumberSettles(doc: Document)
    requires EncodeDocument(doc).Ok?
    ensures Renumber(Renumber(doc)) == Renumber(doc)
  {
    RootsAgain(doc);
  }

  /** The exact condition for writing the renumbered document: it is written, and then as the very bytes
      of the original, if and only if 16-bit references can address all its complex values. */
  lemma RenumberRewrites(doc: Document)
    requires EncodeDocument(doc).Ok?
    ensures var (bytes, c) := EncodeDocument(doc).value;
            var again := EncodeDocument(Renumber(doc));
            && c.next == |Renumber(doc).objects| && c.embedded == |Renumber(doc).embedded|
            && (again.Ok? <==> |Renumber(doc).objects| <= ADDRESSABLE)
            && (again.Ok? ==> again.value.0 == bytes && (Fits(again.value.1) <==> Fits(c)))
  {
    hide EncodeDocument, Renumber, Diagonal;
    RootsAgain(doc);
  }
}
