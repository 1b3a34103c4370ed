/** Renumbering an AMF0 document preserves its graph exactly: the slots of the new arena stand, one to
    one, for the complex values that the document reaches, and the embedded arena is laid out in
    blocks, one for each embedded AMF3 value reached, each with the graph of that value. */
module Amf0Places {
  import opened Base
  import opened Amf0
  import S0 = Amf0Same
  import opened Places
  import A3 = Amf3
  import G3 = Amf3Graph
  import P3 = Amf3Places

  // ----- children and labels ------------------------------------------------------------------------------

  ghost function Names(ps: seq<Property>): (r: seq<Str>)
    ensures |r| == |ps|
  {
    if ps == [] then [] else [ps[0].name] + Names(ps[1..])
  }

  ghost function Values(ps: seq<Property>): (r: seq<Value>)
    ensures |r| == |ps|
  {
    if ps == [] then [] else [ps[0].value] + Values(ps[1..])
  }

  ghost function Children(v: Value): seq<Value> {
    match v
    case StrictArray(items) => items
    case Object(ps) => Values(ps)
    case TypedObject(_, ps) => Values(ps)
    case _ => []
  }

  /** The same node, apart from its children. */
  ghost predicate SameLabel(v: Value, w: Value) {
    match v
    case StrictArray(items) => w.StrictArray? && |w.items| == |items|
    case Object(ps) => w.Object? && Names(w.properties) == Names(ps)
    case TypedObject(name, ps) => w.TypedObject? && w.className == name && Names(w.properties) == Names(ps)
    case _ => w == v
  }

  ghost function Down(v: Value, path: seq<nat>): Option<Value>
    decreases |path|
  {
    if path == [] then Some(v)
    else if path[0] < |Children(v)| then Down(Children(v)[path[0]], path[1..])
    else None
  }

  ghost function ValueAt(doc: Document, p: Place): Option<Value> {
    match p.top
    case Some(id) => if id < |doc.objects| then Down(doc.objects[id], p.path) else None
    case None =>
      if p.path == [] || p.path[0] >= |doc.roots| then None else Down(doc.roots[p.path[0]], p.path[1..])
  }

  ghost function ChildrenAt(doc: Document, p: Place): seq<Value> {
    if p == ROOTS then doc.roots
    else if ValueAt(doc, p).Some? then Children(ValueAt(doc, p).value)
    else []
  }

  lemma ChildrenBelow(doc: Document, p: Place)
    requires ValueAt(doc, p).Some?
    ensures ChildrenAt(doc, p) == Children(ValueAt(doc, p).value)
  {
  }

  lemma {:induction false} DownOne(v: Value, path: seq<nat>, k: nat)
    requires Down(v, path).Some? && k < |Children(Down(v, path).value)|
    ensures Down(v, path + [k]) == Some(Children(Down(v, path).value)[k])
    decreases |path|
  {
    hide Children;
    if path == [] {
      assert Down(Children(v)[k], (path + [k])[1..]) == Some(Children(v)[k]);
    } else {
      assert (path + [k])[1..] == path[1..] + [k];
      DownOne(Children(v)[path[0]], path[1..], k);
    }
  }

  lemma ChildAt(doc: Document, p: Place, k: nat)
    requires k < |ChildrenAt(doc, p)|
    ensures ValueAt(doc, Child(p, k)) == Some(ChildrenAt(doc, p)[k])
  {
    hide Children;
    if p == ROOTS {
      assert Child(p, k).path == [k] && [k][1..] == [];
    } else if p.top.Some? {
      DownOne(doc.objects[p.top.value], p.path, k);
    } else {
      assert Child(p, k).path[1..] == p.path[1..] + [k];
      DownOne(doc.roots[p.path[0]], p.path[1..], k);
    }
  }

  // ----- blocks of the embedded arena ---------------------------------------------------------------------

  /** The embedded value at a place, with its own graph: one root and the slots it reaches. */
  datatype Block = Block(place: Place, graph: A3.Document, own: seq<Place>)

  ghost predicate BlockAt(doc: Document, b: Block) {
    && ValueAt(doc, b.place).Some? && ValueAt(doc, b.place).value.AvmPlus? && |b.graph.roots| == 1
    && P3.SameGraph(A3.Document([ValueAt(doc, b.place).value.inner], doc.embedded), b.graph, b.own)
  }

  /** The blocks one behind another, each moved to where it begins. */
  ghost function Laid(blocks: seq<Block>): seq<A3.Value>
    decreases |blocks|
  {
    if blocks == [] then []
    else
      var before := Laid(blocks[..|blocks| - 1]);
      before + G3.RelocateAll(blocks[|blocks| - 1].graph.objects, |before|)
  }

  ghost function Cells(blocks: seq<Block>): (r: seq<Place>)
    ensures |r| == |blocks| && forall i :: 0 <= i < |r| ==> r[i] == blocks[i].place
  {
    seq(|blocks|, i requires 0 <= i < |blocks| => blocks[i].place)
  }

  /** The places of the slots, and the blocks. */
  datatype Trace = Trace(own: seq<Place>, blocks: seq<Block>)

  /** The place is where roots are, or has a slot. */
  ghost predicate Opened(p: Place, own: seq<Place>) {
    p == ROOTS || p in own
  }

  ghost predicate BlockReached(b: Block, own: seq<Place>) {
    exists p, k: nat :: b.place == Child(p, k) && Opened(p, own)
  }

  ghost predicate Continues(t: Trace, t': Trace) {
    t.own <= t'.own && t.blocks <= t'.blocks
  }

  // ----- what stands for what -----------------------------------------------------------------------------

  /** `w` is the root of block `j`, which is for the place `p`. */
  ghost predicate Embeds(w: Value, p: Place, blocks: seq<Block>, j: nat) {
    && j < |blocks| && blocks[j].place == p && |blocks[j].graph.roots| == 1
    && w == AvmPlus(G3.Relocate(blocks[j].graph.roots[0], |Laid(blocks[..j])|))
  }

  /** `w` stands for `v`, which is at place `p`: a reference leads to the slot of its object, an inline
      complex value has become a reference to its own slot, and an embedded value has a block. */
  ghost predicate Stands(doc: Document, v: Value, w: Value, p: Place, t: Trace) {
    if v.Reference? && S0.Dangling(doc.objects, v.id) then w == v
    else if v.Reference? || Complex(v) then
      w.Reference? && w.id < |t.own| && t.own[w.id] == (if v.Reference? then ObjectAt(v.id) else p)
    else if v.AvmPlus? then exists j :: Embeds(w, p, t.blocks, j)
    else w == v
  }

  ghost predicate AllStand(doc: Document, vs: seq<Value>, ws: seq<Value>, p: Place, at: nat, t: Trace) {
    |vs| == |ws| && forall i :: 0 <= i < |vs| ==> Stands(doc, vs[i], ws[i], Child(p, at + i), t)
  }

  ghost predicate NodeAt(doc: Document, w: Value, p: Place, t: Trace) {
    && ValueAt(doc, p).Some? && Complex(ValueAt(doc, p).value) && SameLabel(ValueAt(doc, p).value, w)
    && AllStand(doc, Children(ValueAt(doc, p).value), Children(w), p, 0, t)
  }

  ghost predicate Nodes(doc: Document, objects: seq<Value>, t: Trace, lo: nat) {
    |t.own| == |objects| && forall k :: lo <= k < |t.own| ==> NodeAt(doc, objects[k], t.own[k], t)
  }

  ghost predicate Reached(objects: seq<Value>, ws: seq<Value>, lo: nat) {
    forall k :: lo <= k < |objects| ==> Reference(k) in ws || ReachedFrom(objects, lo, k)
  }

  ghost predicate ReachedFrom(objects: seq<Value>, lo: nat, k: nat)
    requires k < |objects|
  {
    exists j :: lo <= j < k && Reference(k) in Children(objects[j])
  }

  /** `doc2` is the graph of `doc`: its slots stand for different places and hold what is there, its
      roots stand for the roots and reach every slot, and its embedded arena consists of blocks for
      different places below these, each with the graph of the value embedded there. */
  ghost predicate SameGraph(doc: Document, doc2: Document, t: Trace) {
    && Distinct(t.own) && Nodes(doc, doc2.objects, t, 0)
    && AllStand(doc, doc.roots, doc2.roots, ROOTS, 0, t) && Reached(doc2.objects, doc2.roots, 0)
    && Distinct(Cells(t.blocks)) && doc2.embedded == Laid(t.blocks)
    && (forall j :: 0 <= j < |t.blocks| ==> BlockAt(doc, t.blocks[j]) && BlockReached(t.blocks[j], t.own))
  }

  function Origin(v: Value, p: Place): Place {
    if v.Reference? then ObjectAt(v.id) else p
  }

  /** Two values share a slot if and only if they were one and the same value. */
  lemma SharedExactly(doc: Document, t: Trace, v: Value, p: Place, w: Value, v': Value, p': Place, w': Value)
    requires Distinct(t.own) && Stands(doc, v, w, p, t) && Stands(doc, v', w', p', t)
    requires if v.Reference? then !S0.Dangling(doc.objects, v.id) else Complex(v)
    requires if v'.Reference? then !S0.Dangling(doc.objects, v'.id) else Complex(v')
    ensures w == w' <==> Origin(v, p) == Origin(v', p')
  {
    assert w.id != w'.id ==> t.own[w.id] != t.own[w'.id];
  }

  // ----- the walk -------------------------------------------------------------------------------------------

  lemma EmbedsOn(w: Value, p: Place, blocks: seq<Block>, blocks': seq<Block>, j: nat)
    requires Embeds(w, p, blocks, j) && blocks <= blocks'
    ensures Embeds(w, p, blocks', j)
  {
    assert blocks'[..j] == blocks[..j];
  }

  lemma StandsOn(doc: Document, vs: seq<Value>, ws: seq<Value>, p: Place, at: nat, t: Trace, t': Trace)
    requires AllStand(doc, vs, ws, p, at, t) && Continues(t, t')
    ensures AllStand(doc, vs, ws, p, at, t')
  {
    hide Embeds;
    forall i | 0 <= i < |vs|
      ensures Stands(doc, vs[i], ws[i], Child(p, at + i), t')
    {
      assert Stands(doc, vs[i], ws[i], Child(p, at + i), t);
      if vs[i].AvmPlus? {
        var j :| Embeds(ws[i], Child(p, at + i), t.blocks, j);
        EmbedsOn(ws[i], Child(p, at + i), t.blocks, t'.blocks, j);
      }
    }
  }

  lemma NodesOn(doc: Document, objects: seq<Value>, t: Trace, objects': seq<Value>, t': Trace, lo: nat)
    requires Nodes(doc, objects, t, lo) && objects <= objects' && Continues(t, t') && |t'.own| == |objects'|
    requires Nodes(doc, objects', t', |t.own|)
    ensures Nodes(doc, objects', t', lo)
  {
    hide ValueAt, Children, SameLabel, AllStand;
    forall k | lo <= k < |t.own|
      ensures NodeAt(doc, objects'[k], t'.own[k], t')
    {
      assert objects'[k] == objects[k] && t'.own[k] == t.own[k] && NodeAt(doc, objects[k], t.own[k], t);
      StandsOn(doc, Children(ValueAt(doc, t.own[k]).value), Children(objects[k]), t.own[k], 0, t, t');
    }
  }

  lemma ReachedOn(objects: seq<Value>, ws: seq<Value>, objects': seq<Value>, ws': seq<Value>, lo: nat)
    requires lo <= |objects| && objects <= objects' && Reached(objects, ws, lo) && Reached(objects', ws', |objects|)
    ensures Reached(objects', ws + ws', lo)
  {
    hide Children;
    forall k | lo <= k < |objects'|
      ensures Reference(k) in ws + ws' || ReachedFrom(objects', lo, k)
    {
      if k < |objects| && Reference(k) !in ws {
        var j :| lo <= j < k && Reference(k) in Children(objects[j]);
        assert objects'[j] == objects[j];
      } else if k >= |objects| && Reference(k) !in ws' {
        var j :| |objects| <= j < k && Reference(k) in Children(objects'[j]);
      }
    }
  }

  /** The slots and blocks so far stand for what they should. */
  ghost predicate Tracks(doc: Document, n: Numbering, t: Trace) {
    && |t.own| == |n.objects| && Held(n.refs, t.own) && (forall id :: id in n.refs ==> !S0.Dangling(doc.objects, id))
    && Apart(n.refs, Cells(t.blocks)) && n.embedded == Laid(t.blocks)
    && (forall j :: 0 <= j < |t.blocks| ==> BlockAt(doc, t.blocks[j]) && BlockReached(t.blocks[j], t.own))
  }

  ghost predicate BothClear(refs: map<nat, nat>, t: Trace, p: Place, at: nat) {
    Clear(refs, t.own, p, at) && Clear(refs, Cells(t.blocks), p, at)
  }

  ghost predicate BothGained(refs: map<nat, nat>, t: Trace, refs': map<nat, nat>, t': Trace, p: Place, lo: nat,
          hi: nat) {
    && Gained(refs, t.own, refs', t'.own, p, lo, hi) && t.blocks <= t'.blocks
    && Gained(refs, Cells(t.blocks), refs', Cells(t'.blocks), p, lo, hi)
  }

  /** What holds between the numbering before and after some children of `p`, from `at` on. */
  ghost predicate Walked(doc: Document, n: Numbering, t: Trace, vs: seq<Value>, ws: seq<Value>, n': Numbering,
          t': Trace,
          p: Place, at: nat) {
    && Tracks(doc, n', t') && n.objects <= n'.objects
    && BothGained(n.refs, t, n'.refs, t', p, at, at + |vs|)
    && AllStand(doc, vs, ws, p, at, t')
    && Nodes(doc, n'.objects, t', |t.own|) && Reached(n'.objects, ws, |t.own|)
  }

  // ----- numbering is numbering the children in order -------------------------------------------------------

  lemma {:induction false} PropertiesNumbered(doc: Document, n: Numbering, ps: seq<Property>)
    ensures var (qs, n') := NumberProperties(doc, n, ps);
            Names(qs) == Names(ps) && NumberValues(doc, n, Values(ps)) == (Values(qs), n')
    decreases |ps|
  {
    hide NumberValue;
    if ps != [] {
      var (first, n1) := NumberValue(doc, n, ps[0].value);
      PropertiesNumbered(doc, n1, ps[1..]);
      var others := NumberProperties(doc, n1, ps[1..]).0;
      assert ([Property(ps[0].name, first)] + others)[1..] == others;
    }
  }

  lemma ChildrenNumbered(doc: Document, n: Numbering, v: Value)
    requires Complex(v)
    ensures var (w, n') := NumberChildren(doc, n, v);
            Complex(w) && SameLabel(v, w) && NumberValues(doc, n, Children(v)) == (Children(w), n')
  {
    hide NumberValues, NumberProperties, Names, Values;
    match v
    case StrictArray(_) =>
    case Object(ps) => PropertiesNumbered(doc, n, ps);
    case TypedObject(_, ps) => PropertiesNumbered(doc, n, ps);
  }

  // ----- a measure that follows the children ----------------------------------------------------------------

  ghost function Weight(v: Value): nat
    decreases v, 0
  {
    match v
    case StrictArray(items) => 1 + AllWeigh(items)
    case Object(ps) => 1 + PropertiesWeigh(ps)
    case TypedObject(_, ps) => 1 + PropertiesWeigh(ps)
    case _ => 1
  }

  ghost function AllWeigh(vs: seq<Value>): nat
    decreases vs, 1
  {
    if vs == [] then 0 else Weight(vs[0]) + AllWeigh(vs[1..])
  }

  ghost function PropertiesWeigh(ps: seq<Property>): nat
    decreases ps, 1
  {
    if ps == [] then 0 else Weight(ps[0].value) + PropertiesWeigh(ps[1..])
  }

  lemma {:induction false} WeighProperties(ps: seq<Property>)
    ensures PropertiesWeigh(ps) == AllWeigh(Values(ps))
    decreases |ps|
  {
    hide Weight;
    if ps != [] {
      WeighProperties(ps[1..]);
    }
  }

  lemma ChildrenWeigh(v: Value)
    requires Complex(v)
    ensures Weight(v) == 1 + AllWeigh(Children(v))
  {
    hide AllWeigh, PropertiesWeigh;
    match v
    case StrictArray(_) =>
    case Object(ps) => WeighProperties(ps);
    case TypedObject(_, ps) => WeighProperties(ps);
  }

  // ----- the walk, step by step -------------------------------------------------------------------------------

  /** Numbering a complex value that takes the next slot, for the place `q`. */
  ghost predicate Slotted(doc: Document, n: Numbering, t: Trace, v: Value, n': Numbering, t': Trace, q: Place) {
    && Tracks(doc, n', t') && n.objects <= n'.objects
    && BothGained(n.refs, t.(own := t.own + [q]), n'.refs, t', q, 0, |Children(v)|)
    && Nodes(doc, n'.objects, t', |t.own|) && Reached(n'.objects, [Reference(|t.own|)], |t.own|)
  }

  lemma ObjectSlotted(doc: Document, n: Numbering, t: Trace, id: nat, n': Numbering, t': Trace, p: Place, at: nat)
    requires |t.own| == |n.objects| && id !in n.refs && id in n'.refs && !S0.Dangling(doc.objects, id)
    requires Slotted(doc, n.(refs := n.refs[id := |t.own|]), t, doc.objects[id], n', t', ObjectAt(id))
    ensures Walked(doc, n, t, [Reference(id)], [Reference(|t.own|)], n', t', p, at)
  {
    hide Held, Nodes, Reached, Children, Tracks;
    GainedObject(n.refs, t.own, id, n'.refs, t'.own, p, at, |Children(doc.objects[id])|);
    GainedMeeting(n.refs, Cells(t.blocks), id, |t.own|, n'.refs, Cells(t'.blocks), p, at, |Children(doc.objects[id])|);
    assert t'.own[|t.own|] == (t.own + [ObjectAt(id)])[|t.own|];
  }

  lemma InlineSlotted(doc: Document, n: Numbering, t: Trace, v: Value, n': Numbering, t': Trace, p: Place, at: nat)
    requires |t.own| == |n.objects| && !v.Reference? && Complex(v) && Slotted(doc, n, t, v, n', t', Child(p, at))
    ensures Walked(doc, n, t, [v], [Reference(|t.own|)], n', t', p, at)
  {
    hide Held, Nodes, Reached, Children, Tracks;
    GainedInline(n.refs, t.own, n'.refs, t'.own, p, at, |Children(v)|);
    GainedBelow(n.refs, Cells(t.blocks), n'.refs, Cells(t'.blocks), p, at, |Children(v)|);
    assert t'.own[|t.own|] == (t.own + [Child(p, at)])[|t.own|];
  }

  /** A scalar, or a reference that dangles or is known. */
  lemma PlainWalks(doc: Document, n: Numbering, t: Trace, v: Value, p: Place, at: nat)
    requires Tracks(doc, n, t)
    requires if v.Reference? then v.id in n.refs || S0.Dangling(doc.objects, v.id) else !Complex(v) && !v.AvmPlus?
    ensures var (w, n') := NumberValue(doc, n, v); n' == n && Walked(doc, n, t, [v], [w], n, t, p, at)
  {
    hide NumberComplex, Children, Distinct, BlockAt, Laid;
  }

  /** The graph of an embedded value for itself. */
  lemma EmbeddedBlock(doc: Document, inner: A3.Value, q: Place) returns (b: Block)
    requires ValueAt(doc, q) == Some(AvmPlus(inner))
    ensures BlockAt(doc, b) && b.place == q
    ensures (b.graph.roots[0], b.graph.objects) ==
            (var (u, m) := G3.NumberValue(doc.embedded, G3.Numbering(map[], []), inner); (u, m.objects))
  {
    hide P3.SameGraph, ValueAt, G3.NumberValue;
    var single := A3.Document([inner], doc.embedded);
    var own := P3.RenumberSame(single);
    b := Block(q, G3.Renumber(single), own);
    G3.NumberOne(doc.embedded, inner);
  }

  lemma BlockLaid(blocks: seq<Block>, b: Block)
    ensures Laid(blocks + [b]) == Laid(blocks) + G3.RelocateAll(b.graph.objects, |Laid(blocks)|)
    ensures Cells(blocks + [b]) == Cells(blocks) + [b.place]
  {
    assert (blocks + [b])[..|blocks|] == blocks;
  }

  /** An embedded value is laid out behind the blocks so far. */
  lemma EmbeddedWalks(doc: Document, n: Numbering, t: Trace, v: Value, p: Place, at: nat) returns (t': Trace)
    requires Tracks(doc, n, t) && BothClear(n.refs, t, p, at) && v.AvmPlus? && ValueAt(doc, Child(p, at)) == Some(v)
             && Opened(p, t.own)
    ensures var (w, n') := NumberValue(doc, n, v); Walked(doc, n, t, [v], [w], n', t', p, at)
  {
    hide ValueAt, Laid, BlockAt, G3.NumberValue, G3.Relocate, G3.RelocateAll, Held, Apart, Clear, Children, Cells;
    var q := Child(p, at);
    var b := EmbeddedBlock(doc, v.inner, q);
    t' := t.(blocks := t.blocks + [b]);
    BlockLaid(t.blocks, b);
    ChildApart(n.refs, Cells(t.blocks), p, at);
    var (w, n') := NumberValue(doc, n, v);
    assert (t.blocks + [b])[..|t.blocks|] == t.blocks;
    BlockOne(b, doc);
    assert BlockReached(b, t'.own);
    assert Embeds(w, q, t'.blocks, |t.blocks|);
    assert Stands(doc, v, w, q, t');
  }

  lemma BlockOne(b: Block, doc: Document)
    requires BlockAt(doc, b)
    ensures |b.graph.roots| == 1
  {
  }

  lemma {:induction false} ValueWalks(doc: Document, n: Numbering, t: Trace, v: Value, p: Place, at: nat)
      returns (t': Trace)
    requires Tracks(doc, n, t) && BothClear(n.refs, t, p, at) && Opened(p, t.own)
    requires at < |ChildrenAt(doc, p)| && ChildrenAt(doc, p)[at] == v
    ensures var (w, n') := NumberValue(doc, n, v); Walked(doc, n, t, [v], [w], n', t', p, at)
    decreases Unvisited(doc.objects, n.refs), Weight(v), 1
  {
    hide Held, Apart, Clear, Children, ChildrenAt, Weight, NumberComplex, Walked, Slotted, Laid, BlockAt, Cells,
        ValueAt;
    ChildAt(doc, p, at);
    if v.Reference? && v.id !in n.refs && !S0.Dangling(doc.objects, v.id) {
      var n1 := n.(refs := n.refs[v.id := |t.own|]);
      assert v.id in Unvisited(doc.objects, n.refs) && v.id !in Unvisited(doc.objects, n1.refs);
      ObjectHeld(n.refs, t.own, v.id);
      ObjectApart(n.refs, Cells(t.blocks), v.id, |t.own|);
      ObjectValue(doc, v.id);
      t' := SlotWalks(doc, n1, t, doc.objects[v.id], ObjectAt(v.id));
      ObjectSlotted(doc, n, t, v.id, NumberComplex(doc, n1, doc.objects[v.id]).1, t', p, at);
    } else if !v.Reference? && Complex(v) {
      InlineHeld(n.refs, t.own, p, at);
      ClearBelow(n.refs, Cells(t.blocks), p, at);
      t' := SlotWalks(doc, n, t, v, Child(p, at));
      InlineSlotted(doc, n, t, v, NumberComplex(doc, n, v).1, t', p, at);
    } else if v.AvmPlus? {
      t' := EmbeddedWalks(doc, n, t, v, p, at);
    } else {
      t' := t;
      PlainWalks(doc, n, t, v, p, at);
    }
  }

  lemma ObjectValue(doc: Document, id: nat)
    requires id < |doc.objects|
    ensures ValueAt(doc, ObjectAt(id)) == Some(doc.objects[id])
  {
  }

  lemma {:induction false} SlotWalks(doc: Document, n: Numbering, t: Trace, v: Value, q: Place) returns (t': Trace)
    requires Complex(v) && Tracks(doc, n.(objects := n.objects + [Null]), t.(own := t.own + [q]))
             && BothClear(n.refs, t.(own := t.own + [q]), q, 0) && ValueAt(doc, q) == Some(v)
    ensures Slotted(doc, n, t, v, NumberComplex(doc, n, v).1, t', q)
    decreases Unvisited(doc.objects, n.refs), Weight(v), 0
  {
    hide Held, Clear, Children, Weight, AllWeigh, NumberChildren, NumberValues, Walked, Slotted, ValueAt, Laid, BlockAt;
    var n0, t0 := n.(objects := n.objects + [Null]), t.(own := t.own + [q]);
    ChildrenNumbered(doc, n0, v);
    ChildrenWeigh(v);
    ChildrenBelow(doc, q);
    t' := AllWalk(doc, n0, t0, Children(v), q, 0);
    var (w, n1) := NumberChildren(doc, n0, v);
    SlotFilled(doc, n, t, v, w, n1, t', q);
  }

  /** Once its children are numbered, the slot is filled. */
  lemma SlotFilled(doc: Document, n: Numbering, t: Trace, v: Value, w: Value, n1: Numbering, t': Trace, q: Place)
    requires |t.own| == |n.objects| && Complex(v) && ValueAt(doc, q) == Some(v) && SameLabel(v, w)
    requires Walked(doc, n.(objects := n.objects + [Null]), t.(own := t.own + [q]), Children(v), Children(w), n1, t',
             q, 0)
    ensures Slotted(doc, n, t, v, n1.(objects := n1.objects[|t.own| := w]), t', q)
  {
    hide Held, Children, ValueAt, SameLabel, AllStand, Laid, BlockAt, Cells, Apart;
    var slot, n' := |t.own|, n1.(objects := n1.objects[|t.own| := w]);
    assert t'.own[slot] == (t.own + [q])[slot] == q;
    assert n.objects <= n.objects + [Null] <= n1.objects;
    forall k | slot <= k < |t'.own|
      ensures NodeAt(doc, n'.objects[k], t'.own[k], t')
    {
      assert k > slot ==> NodeAt(doc, n1.objects[k], t'.own[k], t');
    }
    forall k | slot <= k < |n'.objects|
      ensures Reference(k) in [Reference(slot)] || ReachedFrom(n'.objects, slot, k)
    {
      if k > slot {
        if Reference(k) in Children(w) {
          assert n'.objects[slot] == w;
        } else {
          var j :| slot + 1 <= j < k && Reference(k) in Children(n1.objects[j]);
          assert n'.objects[j] == n1.objects[j];
        }
      }
    }
  }

  lemma {:induction false} AllWalk(doc: Document, n: Numbering, t: Trace, vs: seq<Value>, p: Place, at: nat)
      returns (t': Trace)
    requires Tracks(doc, n, t) && BothClear(n.refs, t, p, at) && Opened(p, t.own)
    requires at <= |ChildrenAt(doc, p)| && ChildrenAt(doc, p)[at..] == vs
    ensures var (ws, n') := NumberValues(doc, n, vs); Walked(doc, n, t, vs, ws, n', t', p, at)
    decreases Unvisited(doc.objects, n.refs), AllWeigh(vs), 2, |vs|
  {
    hide Held, BothClear, Children, ChildrenAt, Weight, NumberValue, Walked, Tracks;
    if vs == [] {
      t' := t;
      NoneWalk(doc, n, t, p, at);
    } else {
      TracksSize(doc, n, t);
      var t1 := ValueWalks(doc, n, t, vs[0], p, at);
      var (first, n1) := NumberValue(doc, n, vs[0]);
      ExtendsUnvisited(doc.objects, n, n1);
      WalkedOn(doc, n, t, vs[0], first, n1, t1, p, at);
      StillOpened(doc, n, t, vs[0], first, n1, t1, p, at);
      assert ChildrenAt(doc, p)[at + 1..] == vs[1..];
      t' := AllWalk(doc, n1, t1, vs[1..], p, at + 1);
      var (others, n2) := NumberValues(doc, n1, vs[1..]);
      WalkedBoth(doc, n, t, vs[0], first, n1, t1, vs[1..], others, n2, t', p, at);
      assert [vs[0]] + vs[1..] == vs;
    }
  }

  lemma StillOpened(doc: Document, n: Numbering, t: Trace, v: Value, w: Value, n1: Numbering, t1: Trace, p: Place,
          at: nat)
    requires Walked(doc, n, t, [v], [w], n1, t1, p, at) && Opened(p, t.own)
    ensures Opened(p, t1.own)
  {
    hide Tracks, AllStand, Nodes, Reached;
    if p in t.own {
      var k :| 0 <= k < |t.own| && t.own[k] == p;
      assert t1.own[k] == p;
    }
  }

  lemma TracksSize(doc: Document, n: Numbering, t: Trace)
    requires Tracks(doc, n, t)
    ensures |t.own| == |n.objects|
  {
  }

  lemma NoneWalk(doc: Document, n: Numbering, t: Trace, p: Place, at: nat)
    requires Tracks(doc, n, t)
    ensures Walked(doc, n, t, [], [], n, t, p, at)
  {
    hide Held, Children, Laid, BlockAt;
  }

  lemma WalkedOn(doc: Document, n: Numbering, t: Trace, v: Value, w: Value, n1: Numbering, t1: Trace, p: Place, at: nat)
    requires Walked(doc, n, t, [v], [w], n1, t1, p, at) && BothClear(n.refs, t, p, at) && Extends(n, n1)
    ensures Tracks(doc, n1, t1) && BothClear(n1.refs, t1, p, at + 1)
  {
    hide Tracks, Clear, Gained, Nodes, Reached, AllStand;
    GainedClear(n.refs, t.own, n1.refs, t1.own, p, at);
    GainedClear(n.refs, Cells(t.blocks), n1.refs, Cells(t1.blocks), p, at);
  }

  lemma WalkedBoth(doc: Document, n: Numbering, t: Trace, v: Value, w: Value, n1: Numbering, t1: Trace, vs: seq<Value>,
          ws: seq<Value>, n2: Numbering, t2: Trace, p: Place, at: nat)
    requires |t.own| == |n.objects| && Walked(doc, n, t, [v], [w], n1, t1, p, at) && Extends(n, n1)
    requires Walked(doc, n1, t1, vs, ws, n2, t2, p, at + 1) && Extends(n1, n2)
    ensures Walked(doc, n, t, [v] + vs, [w] + ws, n2, t2, p, at)
  {
    hide Held, Apart, Nodes, Reached, Stands, Laid, BlockAt, Cells;
    GainedBoth(n.refs, t.own, n1.refs, t1.own, n2.refs, t2.own, p, at, at + 1, at + 1 + |vs|);
    GainedBoth(n.refs, Cells(t.blocks), n1.refs, Cells(t1.blocks), n2.refs, Cells(t2.blocks), p, at, at + 1,
        at + 1 + |vs|);
    StandsOn(doc, [v], [w], p, at, t1, t2);
    assert |t1.own| == |n1.objects|;
    NodesOn(doc, n1.objects, t1, n2.objects, t2, |t.own|);
    ReachedOn(n1.objects, [w], n2.objects, ws, |t.own|);
    forall i | 0 <= i < |[v] + vs|
      ensures Stands(doc, ([v] + vs)[i], ([w] + ws)[i], Child(p, at + i), t2)
    {
      if i == 0 {
        assert Stands(doc, [v][0], [w][0], Child(p, at + 0), t2);
      } else {
        assert Stands(doc, vs[i - 1], ws[i - 1], Child(p, at + 1 + (i - 1)), t2);
      }
    }
  }

  /** Renumbering gives the same graph. */
  lemma RenumberSame(doc: Document) returns (t: Trace)
    ensures SameGraph(doc, Renumber(doc), t)
  {
    hide NumberValues, Nodes, Reached, AllStand, Gained, Laid, BlockAt, Held, Apart;
    var start, none := Numbering(map[], [], []), Trace([], []);
    NothingTracked(doc);
    assert ChildrenAt(doc, ROOTS)[0..] == doc.roots;
    t := AllWalk(doc, start, none, doc.roots, ROOTS, 0);
    var n := NumberValues(doc, start, doc.roots).1;
    HeldDistinct(n.refs, t.own, Cells(t.blocks));
  }

  lemma NothingTracked(doc: Document)
    ensures Tracks(doc, Numbering(map[], [], []), Trace([], [])) && BothClear(map[], Trace([], []), ROOTS, 0)
  {
  }

  lemma HeldDistinct(refs: map<nat, nat>, own: seq<Place>, cells: seq<Place>)
    requires Held(refs, own) && Apart(refs, cells)
    ensures Distinct(own) && Distinct(cells)
  {
  }
}
