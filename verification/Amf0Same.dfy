/** Renumbering an AMF0 document follows its graph: values keep their shape, references still lead to the
    same objects, every object of the arena has a slot of its own, and every embedded AMF3 graph is found
    whole in the arena it was moved to. */
module Amf0Same {
  import opened Amf0
  import A3 = Amf3
  import G3 = Amf3Graph
  import S3 = Amf3Same

  ghost predicate Dangling(objects: seq<Value>, id: nat) {
    id >= |objects| || !Complex(objects[id])
  }

  /** From `base` on, the embedded arena holds the objects of `m`, the numbering of `inner` for itself,
      moved there, and `w` is the moved `u`, which stands for `inner` in that numbering. */
  ghost predicate SameBlock(env: seq<A3.Value>, inner: A3.Value, w: A3.Value, embedded: seq<A3.Value>, base: nat,
          u: A3.Value, m: G3.Numbering) {
    && base + |m.objects| <= |embedded| && embedded[base..base + |m.objects|] == G3.RelocateAll(m.objects, base)
    && w == G3.Relocate(u, base) && (u, m) == G3.NumberValue(env, G3.Numbering(map[], []), inner)
    && S3.Same(env, inner, u, m, 0)
    && (forall id :: id in m.refs ==> S3.SettledAt(env, m, id))
    && (forall a, b :: a in m.refs && b in m.refs && a != b ==> m.refs[a] != m.refs[b])
  }

  ghost predicate SameEmbedded(env: seq<A3.Value>, inner: A3.Value, w: A3.Value, embedded: seq<A3.Value>) {
    exists base: nat, u, m :: SameBlock(env, inner, w, embedded, base, u, m)
  }

  /** `w` stands for `v`: references follow the renumbering `n.refs`, and an inline complex value
      has become a slot of its own, not below `lo`, that holds a value of the same shape. */
  ghost predicate Same(doc: Document, v: Value, w: Value, n: Numbering, lo: nat)
    decreases v, 1
  {
    if v.Reference? then
      (v.id in n.refs && w == Reference(n.refs[v.id])) || (Dangling(doc.objects, v.id) && w == v)
    else if Complex(v) then
      w.Reference? && lo <= w.id < |n.objects| && SameShape(doc, v, n.objects[w.id], n, w.id + 1)
    else if v.AvmPlus? then w.AvmPlus? && SameEmbedded(doc.embedded, v.inner, w.inner, n.embedded)
    else w == v
  }

  ghost predicate SameShape(doc: Document, v: Value, w: Value, n: Numbering, lo: nat)
    decreases v, 0
  {
    match v
    case StrictArray(items) => w.StrictArray? && SameValues(doc, items, w.items, n, lo)
    case Object(ps) => w.Object? && SameProperties(doc, ps, w.properties, n, lo)
    case TypedObject(name, ps) => w.TypedObject? && w.className == name && SameProperties(doc, ps, w.properties, n, lo)
    case _ => w == v
  }

  ghost predicate SameValues(doc: Document, vs: seq<Value>, ws: seq<Value>, n: Numbering, lo: nat)
    decreases vs, 2
  {
    |vs| == |ws| && forall i :: 0 <= i < |vs| ==> Same(doc, vs[i], ws[i], n, lo)
  }

  ghost predicate SameProperties(doc: Document, ps: seq<Property>, ws: seq<Property>, n: Numbering, lo: nat)
    decreases ps, 2
  {
    |ps| == |ws| && forall i :: 0 <= i < |ps| ==> ws[i].name == ps[i].name && Same(doc, ps[i].value, ws[i].value, n, lo)
  }

  // ----- later numbering keeps what is settled ------------------------------------------------

  /** `n2` continues `n` without touching slots from `lo` on. */
  ghost predicate Later(n: Numbering, n2: Numbering, lo: nat) {
    && Extends(n, n2) && n.embedded <= n2.embedded
    && (forall k :: lo <= k < |n.objects| ==> n2.objects[k] == n.objects[k])
  }

  lemma EmbeddedLater(env: seq<A3.Value>, inner: A3.Value, w: A3.Value, embedded: seq<A3.Value>, more: seq<A3.Value>)
    requires SameEmbedded(env, inner, w, embedded) && embedded <= more
    ensures SameEmbedded(env, inner, w, more)
  {
    hide S3.Same, S3.SettledAt, G3.NumberValue;
    var base: nat, u, m :| SameBlock(env, inner, w, embedded, base, u, m);
    assert more[base..base + |m.objects|] == embedded[base..base + |m.objects|];
    assert SameBlock(env, inner, w, more, base, u, m);
  }

  lemma {:induction false} SameLater(doc: Document, v: Value, w: Value, n: Numbering, n2: Numbering, lo: nat)
    requires Same(doc, v, w, n, lo) && Later(n, n2, lo)
    ensures Same(doc, v, w, n2, lo)
    decreases v, 1
  {
    hide SameEmbedded;
    if v.AvmPlus? {
      EmbeddedLater(doc.embedded, v.inner, w.inner, n.embedded, n2.embedded);
    } else if !v.Reference? && Complex(v) {
      ShapeLater(doc, v, n.objects[w.id], n, n2, w.id + 1);
    }
  }

  lemma {:induction false} ShapeLater(doc: Document, v: Value, w: Value, n: Numbering, n2: Numbering, lo: nat)
    requires SameShape(doc, v, w, n, lo) && Later(n, n2, lo)
    ensures SameShape(doc, v, w, n2, lo)
    decreases v, 0
  {
    match v
    case StrictArray(items) => ValuesLater(doc, items, w.items, n, n2, lo);
    case Object(ps) => PropertiesLater(doc, ps, w.properties, n, n2, lo);
    case TypedObject(_, ps) => PropertiesLater(doc, ps, w.properties, n, n2, lo);
    case _ =>
  }

  lemma {:induction false} ValuesLater(doc: Document, vs: seq<Value>, ws: seq<Value>, n: Numbering, n2: Numbering,
          lo: nat)
    requires SameValues(doc, vs, ws, n, lo) && Later(n, n2, lo)
    ensures SameValues(doc, vs, ws, n2, lo)
    decreases vs, 2
  {
    forall i | 0 <= i < |vs|
      ensures Same(doc, vs[i], ws[i], n2, lo)
    {
      SameLater(doc, vs[i], ws[i], n, n2, lo);
    }
  }

  lemma {:induction false} PropertiesLater(doc: Document, ps: seq<Property>, ws: seq<Property>, n: Numbering,
          n2: Numbering, lo: nat)
    requires SameProperties(doc, ps, ws, n, lo) && Later(n, n2, lo)
    ensures SameProperties(doc, ps, ws, n2, lo)
    decreases ps, 2
  {
    forall i | 0 <= i < |ps|
      ensures Same(doc, ps[i].value, ws[i].value, n2, lo)
    {
      SameLater(doc, ps[i].value, ws[i].value, n, n2, lo);
    }
  }

  // ----- numbering settles what it meets ---------------------------------------------------------

  ghost predicate Below(n: Numbering, limit: nat) {
    forall id :: id in n.refs ==> n.refs[id] < limit
  }

  /** An object met between `n` and `n2` shares its slot with no other object. */
  ghost predicate Apart(n: Numbering, n2: Numbering) {
    forall a, b :: a in n2.refs && a !in n.refs && b in n2.refs && a != b ==> n2.refs[a] != n2.refs[b]
  }

  /** The object `id` has a slot of its own, holding a value of its shape. */
  ghost predicate SettledAt(doc: Document, n: Numbering, id: nat) {
    && id in n.refs && !Dangling(doc.objects, id) && n.refs[id] < |n.objects|
    && SameShape(doc, doc.objects[id], n.objects[n.refs[id]], n, n.refs[id] + 1)
  }

  /** Every object met between `n` and `n2` is settled, in a slot not below `lo`. */
  ghost predicate Settles(doc: Document, n: Numbering, n2: Numbering, lo: nat) {
    forall id :: id in n2.refs && id !in n.refs ==> SettledAt(doc, n2, id) && n2.refs[id] >= lo
  }

  /** What holds between the numbering before and after any part of the graph. */
  ghost predicate Progress(doc: Document, n: Numbering, n2: Numbering) {
    && Later(n, n2, 0)
    && Settles(doc, n, n2, |n.objects|)
    && Below(n2, |n2.objects|)
    && Apart(n, n2)
  }

  lemma ProgressNone(doc: Document, n: Numbering)
    requires Below(n, |n.objects|)
    ensures Progress(doc, n, n)
  {
  }

  lemma SettledLater(doc: Document, n: Numbering, n2: Numbering, id: nat, lo: nat)
    requires SettledAt(doc, n, id) && Later(n, n2, lo) && lo <= n.refs[id]
    ensures SettledAt(doc, n2, id)
  {
    ShapeLater(doc, doc.objects[id], n.objects[n.refs[id]], n, n2, n.refs[id] + 1);
  }

  lemma ProgressTransitive(doc: Document, n: Numbering, n1: Numbering, n2: Numbering)
    requires Progress(doc, n, n1) && Progress(doc, n1, n2)
    ensures Progress(doc, n, n2)
  {
    hide SettledAt;
    forall id | id in n2.refs && id !in n.refs
      ensures SettledAt(doc, n2, id) && n2.refs[id] >= |n.objects|
    {
      if id in n1.refs {
        SettledLater(doc, n1, n2, id, 0);
      }
    }
  }

  /** An embedded value becomes a block at the end of the embedded arena. */
  lemma EmbeddedSame(doc: Document, n: Numbering, v: Value)
    requires Below(n, |n.objects|) && v.AvmPlus?
    ensures var (w, n') := NumberValue(doc, n, v);
            Same(doc, v, w, n', |n.objects|) && Progress(doc, n, n')
  {
    hide S3.Same, S3.SettledAt, G3.NumberValue, Settles, Apart;
    var start, base := G3.Numbering(map[], []), |n.embedded|;
    var (u, m) := G3.NumberValue(doc.embedded, start, v.inner);
    S3.ValueSame(doc.embedded, start, v.inner);
    var (w, n') := NumberValue(doc, n, v);
    assert n'.embedded[base..base + |m.objects|] == G3.RelocateAll(m.objects, base);
    assert SameBlock(doc.embedded, v.inner, w.inner, n'.embedded, base, u, m) by {
      assert S3.Settles(doc.embedded, start, m, 0) && S3.Apart(start, m);
    }
    SameRefs(doc, n, n');
  }

  lemma SameRefs(doc: Document, n: Numbering, n2: Numbering)
    requires Below(n, |n.objects|) && n2 == n.(embedded := n2.embedded) && n.embedded <= n2.embedded
    ensures Progress(doc, n, n2)
  {
  }

  lemma {:induction false} ValueSame(doc: Document, n: Numbering, v: Value)
    requires Below(n, |n.objects|)
    ensures var (w, n') := NumberValue(doc, n, v);
            Same(doc, v, w, n', |n.objects|) && Progress(doc, n, n')
    decreases Unvisited(doc.objects, n.refs), v, 2
  {
    hide SameShape, Settles, SettledAt, Apart, SameEmbedded;
    if v.Reference? {
      if v.id !in n.refs && v.id < |doc.objects| && Complex(doc.objects[v.id]) {
        var n1 := n.(refs := n.refs[v.id := |n.objects|]);
        assert v.id in Unvisited(doc.objects, n.refs) && v.id !in Unvisited(doc.objects, n1.refs);
        ComplexSame(doc, n1, doc.objects[v.id]);
        NewReference(doc, n, v.id, NumberComplex(doc, n1, doc.objects[v.id]).1);
      } else {
        ProgressNone(doc, n);
      }
    } else if Complex(v) {
      ComplexSame(doc, n, v);
      InlineProgress(doc, n, NumberComplex(doc, n, v).1);
    } else if v.AvmPlus? {
      EmbeddedSame(doc, n, v);
    } else {
      ProgressNone(doc, n);
    }
  }

  /** What numbering one complex value establishes: it takes slot `|n.objects|`. */
  ghost predicate TakesSlot(doc: Document, n: Numbering, v: Value, n': Numbering) {
    var slot := |n.objects|;
    && Later(n, n', 0) && slot < |n'.objects|
    && SameShape(doc, v, n'.objects[slot], n', slot + 1)
    && Settles(doc, n, n', slot + 1)
    && Below(n', |n'.objects|)
    && Apart(n, n')
  }

  lemma NewReference(doc: Document, n: Numbering, id: nat, n': Numbering)
    requires Below(n, |n.objects|) && id !in n.refs && !Dangling(doc.objects, id)
    requires TakesSlot(doc, n.(refs := n.refs[id := |n.objects|]), doc.objects[id], n')
    ensures Progress(doc, n, n') && id in n'.refs && n'.refs[id] == |n.objects|
  {
    hide SameShape;
    var n1 := n.(refs := n.refs[id := |n.objects|]);
    assert n1.refs[id] == |n.objects|;
    assert SettledAt(doc, n', id);
    forall k | k in n'.refs && k !in n.refs
      ensures SettledAt(doc, n', k) && n'.refs[k] >= |n.objects|
    {
      if k != id {
        assert k !in n1.refs;
      }
    }
    forall a, b | a in n'.refs && a !in n.refs && b in n'.refs && a != b
      ensures n'.refs[a] != n'.refs[b]
    {
      if a in n1.refs && b in n1.refs {
        assert n'.refs[b] == n1.refs[b] == n.refs[b];
      }
    }
  }

  lemma InlineProgress(doc: Document, n: Numbering, n': Numbering)
    requires Later(n, n', 0) && Settles(doc, n, n', |n.objects| + 1) && Below(n', |n'.objects|)
    requires Apart(n, n')
    ensures Progress(doc, n, n')
  {
    hide SettledAt;
  }

  lemma {:induction false} ComplexSame(doc: Document, n: Numbering, v: Value)
    requires Complex(v) && Below(n, |n.objects| + 1)
    ensures TakesSlot(doc, n, v, NumberComplex(doc, n, v).1)
    decreases Unvisited(doc.objects, n.refs), v, 1
  {
    hide SameShape, SettledAt;
    var slot := |n.objects|;
    var n0 := n.(objects := n.objects + [Null]);
    ChildrenSame(doc, n0, v);
    var (w, n1) := NumberChildren(doc, n0, v);
    var n' := n1.(objects := n1.objects[slot := w]);
    ShapeLater(doc, v, w, n1, n', slot + 1);
    forall id | id in n'.refs && id !in n.refs
      ensures SettledAt(doc, n', id) && n'.refs[id] >= slot + 1
    {
      SettledLater(doc, n1, n', id, slot + 1);
    }
  }

  lemma {:induction false} ChildrenSame(doc: Document, n: Numbering, v: Value)
    requires Complex(v) && Below(n, |n.objects|)
    ensures var (w, n') := NumberChildren(doc, n, v);
            SameShape(doc, v, w, n', |n.objects|) && Progress(doc, n, n')
    decreases Unvisited(doc.objects, n.refs), v, 0
  {
    hide Progress, NumberValues, NumberProperties;
    match v
    case StrictArray(items) => ValuesSame(doc, n, items);
    case Object(ps) => PropertiesSame(doc, n, ps);
    case TypedObject(_, ps) => PropertiesSame(doc, n, ps);
  }

  lemma ProgressBelow(doc: Document, n: Numbering, n2: Numbering)
    requires Progress(doc, n, n2)
    ensures Below(n2, |n2.objects|) && |n.objects| <= |n2.objects| && n.embedded <= n2.embedded
  {
  }

  lemma ProgressLater(doc: Document, n: Numbering, n2: Numbering)
    requires Progress(doc, n, n2)
    ensures forall lo: nat :: Later(n, n2, lo)
  {
  }

  lemma ValuesLower(doc: Document, vs: seq<Value>, ws: seq<Value>, n: Numbering, hi: nat, lo: nat)
    requires SameValues(doc, vs, ws, n, hi) && lo <= hi
    ensures SameValues(doc, vs, ws, n, lo)
  {
    forall i | 0 <= i < |vs|
      ensures Same(doc, vs[i], ws[i], n, lo)
    {
      assert Same(doc, vs[i], ws[i], n, hi);
    }
  }

  lemma PropertiesLower(doc: Document, ps: seq<Property>, ws: seq<Property>, n: Numbering, hi: nat, lo: nat)
    requires SameProperties(doc, ps, ws, n, hi) && lo <= hi
    ensures SameProperties(doc, ps, ws, n, lo)
  {
    forall i | 0 <= i < |ps|
      ensures Same(doc, ps[i].value, ws[i].value, n, lo)
    {
      assert Same(doc, ps[i].value, ws[i].value, n, hi);
    }
  }

  lemma {:induction false} ValuesSame(doc: Document, n: Numbering, vs: seq<Value>)
    requires Below(n, |n.objects|)
    ensures var (ws, n') := NumberValues(doc, n, vs);
            SameValues(doc, vs, ws, n', |n.objects|) && Progress(doc, n, n')
    decreases Unvisited(doc.objects, n.refs), vs
  {
    hide Progress, Same;
    if vs == [] {
      ProgressNone(doc, n);
    } else {
      ValueSame(doc, n, vs[0]);
      var (first, n1) := NumberValue(doc, n, vs[0]);
      ExtendsUnvisited(doc.objects, n, n1);
      ProgressBelow(doc, n, n1);
      ValuesSame(doc, n1, vs[1..]);
      var (others, n2) := NumberValues(doc, n1, vs[1..]);
      ProgressTransitive(doc, n, n1, n2);
      ProgressLater(doc, n1, n2);
      SameLater(doc, vs[0], first, n1, n2, |n.objects|);
      ValuesLower(doc, vs[1..], others, n2, |n1.objects|, |n.objects|);
      forall i | 0 <= i < |vs|
        ensures Same(doc, vs[i], ([first] + others)[i], n2, |n.objects|)
      {
        if i > 0 {
          assert vs[i] == vs[1..][i - 1] && ([first] + others)[i] == others[i - 1];
        }
      }
    }
  }

  lemma {:induction false} PropertiesSame(doc: Document, n: Numbering, ps: seq<Property>)
    requires Below(n, |n.objects|)
    ensures var (ws, n') := NumberProperties(doc, n, ps);
            SameProperties(doc, ps, ws, n', |n.objects|) && Progress(doc, n, n')
    decreases Unvisited(doc.objects, n.refs), ps
  {
    hide Progress, Same;
    if ps == [] {
      ProgressNone(doc, n);
    } else {
      ValueSame(doc, n, ps[0].value);
      var (first, n1) := NumberValue(doc, n, ps[0].value);
      ExtendsUnvisited(doc.objects, n, n1);
      ProgressBelow(doc, n, n1);
      PropertiesSame(doc, n1, ps[1..]);
      var (others, n2) := NumberProperties(doc, n1, ps[1..]);
      ProgressTransitive(doc, n, n1, n2);
      ProgressLater(doc, n1, n2);
      SameLater(doc, ps[0].value, first, n1, n2, |n.objects|);
      PropertiesLower(doc, ps[1..], others, n2, |n1.objects|, |n.objects|);
      var ws := [Property(ps[0].name, first)] + others;
      forall i | 0 <= i < |ps|
        ensures ws[i].name == ps[i].name && Same(doc, ps[i].value, ws[i].value, n2, |n.objects|)
      {
        if i > 0 {
          assert ps[i] == ps[1..][i - 1] && ws[i] == others[i - 1];
        }
      }
    }
  }

  // ----- documents -----------------------------------------------------------------------------

  /** `doc2` follows `doc`, whose objects have moved to the slots `refs`: roots stand for roots, every
      moved object keeps its shape, and no two objects of the arena share a slot. */
  ghost predicate Tracked(doc: Document, doc2: Document, refs: map<nat, nat>) {
    var n := Numbering(refs, doc2.objects, doc2.embedded);
    && SameValues(doc, doc.roots, doc2.roots, n, 0)
    && (forall id :: id in refs ==> SettledAt(doc, n, id))
    && (forall a, b :: a in refs && b in refs && a != b ==> refs[a] != refs[b])
  }

  lemma RenumberTracked(doc: Document) returns (refs: map<nat, nat>)
    ensures Tracked(doc, Renumber(doc), refs)
    ensures refs == NumberValues(doc, Numbering(map[], [], []), doc.roots).1.refs
  {
    hide NumberValues, SameValues, SettledAt;
    var start := Numbering(map[], [], []);
    ValuesSame(doc, start, doc.roots);
    var n := NumberValues(doc, start, doc.roots).1;
    refs := n.refs;
    assert n == Numbering(refs, Renumber(doc).objects, Renumber(doc).embedded);
  }
}
