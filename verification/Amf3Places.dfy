/** Renumbering preserves the graph exactly: the slots of the new arena stand, one to one, for the
    complex values that the document reaches, whether they are objects of the old arena or inline. */
module Amf3Places {
  import opened Base
  import opened Amf3
  import opened Amf3Graph
  import opened Amf3RoundTrip
  import opened Amf3Same
  import opened Amf3Rewrite
  import opened Places

  // ----- children and labels ------------------------------------------------------------------------------

  /** The children of a value, in the order in which they are written. */
  ghost function Children(v: Value): (r: seq<Value>) {
    match v
    case Array(dense, associative) => Values(associative) + dense
    case Object(_, sealed, dynamic) => Values(sealed) + (if dynamic.Dynamic? then Values(dynamic.members) else [])
    case VectorObject(_, _, values) => values
    case _ => []
  }

  /** The same node, apart from its children. */
  ghost predicate SameLabel(v: Value, w: Value) {
    match v
    case Array(dense, associative) => w.Array? && |w.dense| == |dense| && Names(w.associative) == Names(associative)
    case Object(name, sealed, dynamic) =>
      && w.Object? && w.className == NormalClass(name) && Names(w.sealed) == Names(sealed)
      && (dynamic.Dynamic? <==> w.dynamic.Dynamic?)
      && (dynamic.Dynamic? ==> Names(w.dynamic.members) == Names(dynamic.members))
    case VectorObject(name, fixed, values) =>
      w.VectorObject? && w.typeName == name && w.fixed == fixed && |w.values| == |values|
    case _ => w == v
  }

  /** The value at the end of a path. */
  ghost function Down(v: Value, path: seq<nat>): Option<Value>
    decreases |path|
  {
    if path == [] then Some(v)
    else if path[0] < |Children(v)| then Down(Children(v)[path[0]], path[1..])
    else None
  }

  ghost function ValueAt(doc: Document, p: Place): Option<Value> {
    match p.top
    case Some(id) => if id < |doc.objects| then Down(doc.objects[id], p.path) else None
    case None =>
      if p.path == [] || p.path[0] >= |doc.roots| then None else Down(doc.roots[p.path[0]], p.path[1..])
  }

  /** What is below a place, as children. */
  ghost function ChildrenAt(doc: Document, p: Place): seq<Value> {
    if p == ROOTS then doc.roots
    else if ValueAt(doc, p).Some? then Children(ValueAt(doc, p).value)
    else []
  }

  lemma ChildrenBelow(doc: Document, p: Place)
    requires ValueAt(doc, p).Some?
    ensures ChildrenAt(doc, p) == Children(ValueAt(doc, p).value)
  {
  }

  lemma {:induction false} DownOne(v: Value, path: seq<nat>, k: nat)
    requires Down(v, path).Some? && k < |Children(Down(v, path).value)|
    ensures Down(v, path + [k]) == Some(Children(Down(v, path).value)[k])
    decreases |path|
  {
    hide Children;
    if path == [] {
      assert Down(Children(v)[k], (path + [k])[1..]) == Some(Children(v)[k]);
    } else {
      assert (path + [k])[1..] == path[1..] + [k];
      DownOne(Children(v)[path[0]], path[1..], k);
    }
  }

  lemma ChildAt(doc: Document, p: Place, k: nat)
    requires k < |ChildrenAt(doc, p)|
    ensures ValueAt(doc, Child(p, k)) == Some(ChildrenAt(doc, p)[k])
  {
    hide Children;
    if p == ROOTS {
      assert Child(p, k).path == [k] && [k][1..] == [];
    } else if p.top.Some? {
      DownOne(doc.objects[p.top.value], p.path, k);
    } else {
      assert Child(p, k).path[1..] == p.path[1..] + [k];
      DownOne(doc.roots[p.path[0]], p.path[1..], k);
    }
  }

  // ----- what stands for what -----------------------------------------------------------------------------

  /** `w` stands for `v`, which is at place `p`: a reference leads to the slot of its object, and an
      inline complex value has become a reference to its own slot. */
  ghost predicate Stands(env: seq<Value>, v: Value, w: Value, p: Place, own: seq<Place>) {
    if v.Reference? && Dangling(env, v.id) then w == v
    else if v.Reference? || Complex(v) then
      w.Reference? && w.id < |own| && own[w.id] == (if v.Reference? then ObjectAt(v.id) else p)
    else w == NormalScalar(v)
  }

  ghost predicate AllStand(env: seq<Value>, vs: seq<Value>, ws: seq<Value>, p: Place, at: nat, own: seq<Place>) {
    |vs| == |ws| && forall i :: 0 <= i < |vs| ==> Stands(env, vs[i], ws[i], Child(p, at + i), own)
  }

  /** A slot holds the value at the place it stands for, with children that stand for its children. */
  ghost predicate NodeAt(doc: Document, w: Value, p: Place, own: seq<Place>) {
    && ValueAt(doc, p).Some? && Complex(ValueAt(doc, p).value) && SameLabel(ValueAt(doc, p).value, w)
    && AllStand(doc.objects, Children(ValueAt(doc, p).value), Children(w), p, 0, own)
  }

  ghost predicate Nodes(doc: Document, objects: seq<Value>, own: seq<Place>, lo: nat) {
    |own| == |objects| && forall k :: lo <= k < |own| ==> NodeAt(doc, objects[k], own[k], own)
  }

  /** Every slot from `lo` on is met in `ws`, or in a slot before it. */
  ghost predicate Reached(objects: seq<Value>, ws: seq<Value>, lo: nat) {
    forall k :: lo <= k < |objects| ==> Reference(k) in ws || ReachedFrom(objects, lo, k)
  }

  ghost predicate ReachedFrom(objects: seq<Value>, lo: nat, k: nat)
    requires k < |objects|
  {
    exists j :: lo <= j < k && Reference(k) in Children(objects[j])
  }

  /** `doc2` is the graph of `doc`: its slots stand for different places and hold what is there, its
      roots stand for the roots, and the roots reach every slot. */
  ghost predicate SameGraph(doc: Document, doc2: Document, own: seq<Place>) {
    && Distinct(own) && Nodes(doc, doc2.objects, own, 0)
    && AllStand(doc.objects, doc.roots, doc2.roots, ROOTS, 0, own)
    && Reached(doc2.objects, doc2.roots, 0)
  }

  /** What a value is: the object it refers to, or itself at its place. */
  function Origin(v: Value, p: Place): Place {
    if v.Reference? then ObjectAt(v.id) else p
  }

  /** Two values share a slot if and only if they were one and the same value. */
  lemma SharedExactly(doc: Document, own: seq<Place>, v: Value, p: Place, w: Value, v': Value, p': Place, w': Value)
    requires Distinct(own) && Stands(doc.objects, v, w, p, own) && Stands(doc.objects, v', w', p', own)
    requires if v.Reference? then !Dangling(doc.objects, v.id) else Complex(v)
    requires if v'.Reference? then !Dangling(doc.objects, v'.id) else Complex(v')
    ensures w == w' <==> Origin(v, p) == Origin(v', p')
  {
    assert w.id != w'.id ==> own[w.id] != own[w'.id];
  }

  // ----- the walk -------------------------------------------------------------------------------------------

  lemma StandsOn(env: seq<Value>, vs: seq<Value>, ws: seq<Value>, p: Place, at: nat, own: seq<Place>, own': seq<Place>)
    requires AllStand(env, vs, ws, p, at, own) && own <= own'
    ensures AllStand(env, vs, ws, p, at, own')
  {
    forall i | 0 <= i < |vs|
      ensures Stands(env, vs[i], ws[i], Child(p, at + i), own')
    {
      assert Stands(env, vs[i], ws[i], Child(p, at + i), own);
    }
  }

  lemma NodesOn(doc: Document, objects: seq<Value>, own: seq<Place>, objects': seq<Value>, own': seq<Place>, lo: nat)
    requires Nodes(doc, objects, own, lo) && objects <= objects' && own <= own' && |own'| == |objects'|
    requires Nodes(doc, objects', own', |own|)
    ensures Nodes(doc, objects', own', lo)
  {
    hide ValueAt, Children, SameLabel, AllStand;
    forall k | lo <= k < |own|
      ensures NodeAt(doc, objects'[k], own'[k], own')
    {
      assert objects'[k] == objects[k] && own'[k] == own[k] && NodeAt(doc, objects[k], own[k], own);
      StandsOn(doc.objects, Children(ValueAt(doc, own[k]).value), Children(objects[k]), own[k], 0, own, own');
    }
  }

  lemma ReachedOn(objects: seq<Value>, ws: seq<Value>, objects': seq<Value>, ws': seq<Value>, lo: nat)
    requires lo <= |objects| && objects <= objects' && Reached(objects, ws, lo) && Reached(objects', ws', |objects|)
    ensures Reached(objects', ws + ws', lo)
  {
    hide Children;
    forall k | lo <= k < |objects'|
      ensures Reference(k) in ws + ws' || ReachedFrom(objects', lo, k)
    {
      if k < |objects| && Reference(k) !in ws {
        var j :| lo <= j < k && Reference(k) in Children(objects[j]);
        assert objects'[j] == objects[j];
      } else if k >= |objects| && Reference(k) !in ws' {
        var j :| |objects| <= j < k && Reference(k) in Children(objects'[j]);
      }
    }
  }

  /** The slots given out so far stand for what they should. */
  ghost predicate Tracks(env: seq<Value>, n: Numbering, own: seq<Place>) {
    |own| == |n.objects| && Held(n.refs, own) && forall id :: id in n.refs ==> !Dangling(env, id)
  }

  /** What holds between the numbering before and after some children of `p`, from `at` on. */
  ghost predicate Walked(doc: Document, n: Numbering, own: seq<Place>, vs: seq<Value>, ws: seq<Value>, n': Numbering,
          own': seq<Place>, p: Place, at: nat) {
    && Tracks(doc.objects, n', own') && n.objects <= n'.objects
    && Gained(n.refs, own, n'.refs, own', p, at, at + |vs|)
    && AllStand(doc.objects, vs, ws, p, at, own')
    && Nodes(doc, n'.objects, own', |own|) && Reached(n'.objects, ws, |own|)
  }

  // ----- numbering is numbering the children in order -------------------------------------------------------

  lemma {:induction false} NumberConcat(env: seq<Value>, n: Numbering, a: seq<Value>, b: seq<Value>)
    ensures var (ws, n1) := NumberValues(env, n, a);
            var (us, n2) := NumberValues(env, n1, b);
            NumberValues(env, n, a + b) == (ws + us, n2)
    decreases |a|
  {
    hide NumberValue;
    if a == [] {
      assert a + b == b;
      var us := NumberValues(env, n, b).0;
      assert [] + us == us;
    } else {
      var (first, n0) := NumberValue(env, n, a[0]);
      assert (a + b)[1..] == a[1..] + b;
      NumberConcat(env, n0, a[1..], b);
      var (ws, n1) := NumberValues(env, n0, a[1..]);
      var us := NumberValues(env, n1, b).0;
      assert [first] + (ws + us) == [first] + ws + us;
    }
  }

  lemma ChildrenNumbered(env: seq<Value>, n: Numbering, v: Value)
    requires Complex(v)
    ensures var (w, n') := NumberChildren(env, n, v);
            Complex(w) && SameLabel(v, w) && NumberValues(env, n, Children(v)) == (Children(w), n')
  {
    hide NumberValues, NumberMembers, Names, Values;
    match v
    case Array(dense, associative) =>
      MembersNumbered(env, n, associative);
      NumberConcat(env, n, Values(associative), dense);
    case Object(_, _, _) => ObjectNumbered(env, n, v);
    case VectorObject(_, _, _) =>
    case Date(_) => NothingNumbered(env, n);
    case Blob(_, _) => NothingNumbered(env, n);
  }

  lemma ObjectNumbered(env: seq<Value>, n: Numbering, v: Value)
    requires v.Object?
    ensures var (w, n') := NumberChildren(env, n, v);
            Complex(w) && SameLabel(v, w) && NumberValues(env, n, Children(v)) == (Children(w), n')
  {
    hide NumberValues, NumberMembers, Names, Values;
    MembersNumbered(env, n, v.sealed);
    var (fixed, n1) := NumberMembers(env, n, v.sealed);
    if v.dynamic.Dynamic? {
      MembersNumbered(env, n1, v.dynamic.members);
      NumberConcat(env, n, Values(v.sealed), Values(v.dynamic.members));
    } else {
      assert Values(v.sealed) + [] == Values(v.sealed) && Values(fixed) + [] == Values(fixed);
    }
  }

  lemma NothingNumbered(env: seq<Value>, n: Numbering)
    ensures NumberValues(env, n, []) == ([], n)
  {
  }

  lemma MembersNumbered(env: seq<Value>, n: Numbering, ms: seq<Member>)
    ensures var (ws, n') := NumberMembers(env, n, ms);
            Names(ws) == Names(ms) && NumberValues(env, n, Values(ms)) == (Values(ws), n')
  {
    SealedNumbered(env, n, ms);
    ZipParts(Names(ms), NumberValues(env, n, Values(ms)).0);
  }

  // ----- a measure that follows the children ----------------------------------------------------------------

  ghost function Weight(v: Value): nat
    decreases v, 0
  {
    match v
    case Array(dense, associative) => 1 + MembersWeigh(associative) + AllWeigh(dense)
    case Object(_, sealed, dynamic) =>
      1 + MembersWeigh(sealed) + (if dynamic.Dynamic? then MembersWeigh(dynamic.members) else 0)
    case VectorObject(_, _, values) => 1 + AllWeigh(values)
    case _ => 1
  }

  ghost function AllWeigh(vs: seq<Value>): nat
    decreases vs, 1
  {
    if vs == [] then 0 else Weight(vs[0]) + AllWeigh(vs[1..])
  }

  ghost function MembersWeigh(ms: seq<Member>): nat
    decreases ms, 1
  {
    if ms == [] then 0 else Weight(ms[0].value) + MembersWeigh(ms[1..])
  }

  lemma {:induction false} WeighConcat(a: seq<Value>, b: seq<Value>)
    ensures AllWeigh(a + b) == AllWeigh(a) + AllWeigh(b)
    decreases |a|
  {
    hide Weight;
    if a == [] {
      assert a + b == b;
    } else {
      assert (a + b)[1..] == a[1..] + b;
      WeighConcat(a[1..], b);
    }
  }

  lemma {:induction false} WeighMembers(ms: seq<Member>)
    ensures MembersWeigh(ms) == AllWeigh(Values(ms))
    decreases |ms|
  {
    hide Weight;
    if ms != [] {
      WeighMembers(ms[1..]);
    }
  }

  lemma ChildrenWeigh(v: Value)
    ensures Weight(v) == 1 + AllWeigh(Children(v))
  {
    hide AllWeigh, MembersWeigh;
    match v
    case Array(dense, associative) =>
      WeighMembers(associative);
      WeighConcat(Values(associative), dense);
    case Object(_, sealed, dynamic) =>
      WeighMembers(sealed);
      if dynamic.Dynamic? {
        WeighMembers(dynamic.members);
        WeighConcat(Values(sealed), Values(dynamic.members));
      } else {
        assert Values(sealed) + [] == Values(sealed);
      }
    case VectorObject(_, _, _) =>
    case _ => WeighNothing();
  }

  lemma WeighNothing()
    ensures AllWeigh([]) == 0
  {
  }

  // ----- the walk, step by step -------------------------------------------------------------------------------

  /** Numbering a complex value that takes the next slot, for the place `q`. */
  ghost predicate Slotted(doc: Document, n: Numbering, own: seq<Place>, v: Value, n': Numbering, own': seq<Place>,
          q: Place) {
    && Tracks(doc.objects, n', own') && n.objects <= n'.objects
    && Gained(n.refs, own + [q], n'.refs, own', q, 0, |Children(v)|)
    && Nodes(doc, n'.objects, own', |own|) && Reached(n'.objects, [Reference(|own|)], |own|)
  }

  lemma ObjectSlotted(doc: Document, n: Numbering, own: seq<Place>, id: nat, n': Numbering, own': seq<Place>, p: Place,
          at: nat)
    requires |own| == |n.objects| && id !in n.refs && id in n'.refs && !Dangling(doc.objects, id)
    requires Slotted(doc, n.(refs := n.refs[id := |own|]), own, doc.objects[id], n', own', ObjectAt(id))
    ensures Walked(doc, n, own, [Reference(id)], [Reference(|own|)], n', own', p, at)
  {
    hide Held, Nodes, Reached, Children;
    GainedObject(n.refs, own, id, n'.refs, own', p, at, |Children(doc.objects[id])|);
    assert own'[|own|] == (own + [ObjectAt(id)])[|own|];
  }

  lemma InlineSlotted(doc: Document, n: Numbering, own: seq<Place>, v: Value, n': Numbering, own': seq<Place>, p: Place,
          at: nat)
    requires |own| == |n.objects| && !v.Reference? && Complex(v) && Slotted(doc, n, own, v, n', own', Child(p, at))
    ensures Walked(doc, n, own, [v], [Reference(|own|)], n', own', p, at)
  {
    hide Held, Nodes, Reached, Children;
    GainedInline(n.refs, own, n'.refs, own', p, at, |Children(v)|);
    assert own'[|own|] == (own + [Child(p, at)])[|own|];
  }

  /** A scalar, or a reference that dangles or is known. */
  lemma PlainWalks(doc: Document, n: Numbering, own: seq<Place>, v: Value, p: Place, at: nat)
    requires Tracks(doc.objects, n, own)
    requires if v.Reference? then v.id in n.refs || Dangling(doc.objects, v.id) else !Complex(v)
    ensures var (w, n') := NumberValue(doc.objects, n, v); n' == n && Walked(doc, n, own, [v], [w], n, own, p, at)
  {
    hide NumberComplex, Children, Distinct;
  }

  lemma {:induction false} ValueWalks(doc: Document, n: Numbering, own: seq<Place>, v: Value, p: Place, at: nat)
      returns (own': seq<Place>)
    requires Tracks(doc.objects, n, own) && Clear(n.refs, own, p, at)
    requires at < |ChildrenAt(doc, p)| && ChildrenAt(doc, p)[at] == v
    ensures var (w, n') := NumberValue(doc.objects, n, v); Walked(doc, n, own, [v], [w], n', own', p, at)
    decreases Unvisited(doc.objects, n.refs), Weight(v), 1
  {
    hide Held, Clear, Children, ChildrenAt, Weight, NumberComplex, Walked, Slotted;
    var env := doc.objects;
    if v.Reference? && v.id !in n.refs && !Dangling(env, v.id) {
      var n1 := n.(refs := n.refs[v.id := |own|]);
      assert v.id in Unvisited(env, n.refs) && v.id !in Unvisited(env, n1.refs);
      ObjectHeld(n.refs, own, v.id);
      own' := SlotWalks(doc, n1, own, env[v.id], ObjectAt(v.id));
      ObjectSlotted(doc, n, own, v.id, NumberComplex(env, n1, env[v.id]).1, own', p, at);
    } else if !v.Reference? && Complex(v) {
      InlineHeld(n.refs, own, p, at);
      ChildAt(doc, p, at);
      own' := SlotWalks(doc, n, own, v, Child(p, at));
      InlineSlotted(doc, n, own, v, NumberComplex(env, n, v).1, own', p, at);
    } else {
      own' := own;
      PlainWalks(doc, n, own, v, p, at);
    }
  }

  lemma {:induction false} SlotWalks(doc: Document, n: Numbering, own: seq<Place>, v: Value, q: Place)
      returns (own': seq<Place>)
    requires Complex(v) && Tracks(doc.objects, n.(objects := n.objects + [Null]), own + [q])
             && Clear(n.refs, own + [q], q, 0) && ValueAt(doc, q) == Some(v)
    ensures Slotted(doc, n, own, v, NumberComplex(doc.objects, n, v).1, own', q)
    decreases Unvisited(doc.objects, n.refs), Weight(v), 0
  {
    hide Held, Clear, Children, Weight, AllWeigh, NumberChildren, NumberValues, Walked, Slotted, ValueAt;
    var n0, own0 := n.(objects := n.objects + [Null]), own + [q];
    ChildrenNumbered(doc.objects, n0, v);
    ChildrenWeigh(v);
    ChildrenBelow(doc, q);
    own' := AllWalk(doc, n0, own0, Children(v), q, 0);
    var (w, n1) := NumberChildren(doc.objects, n0, v);
    SlotFilled(doc, n, own, v, w, n1, own', q);
  }

  /** Once its children are numbered, the slot is filled. */
  lemma SlotFilled(doc: Document, n: Numbering, own: seq<Place>, v: Value, w: Value, n1: Numbering, own': seq<Place>,
          q: Place)
    requires |own| == |n.objects| && Complex(v) && ValueAt(doc, q) == Some(v) && SameLabel(v, w)
    requires Walked(doc, n.(objects := n.objects + [Null]), own + [q], Children(v), Children(w), n1, own', q, 0)
    ensures Slotted(doc, n, own, v, n1.(objects := n1.objects[|own| := w]), own', q)
  {
    hide Held, Children, ValueAt, SameLabel, AllStand;
    var slot, n' := |own|, n1.(objects := n1.objects[|own| := w]);
    assert own'[slot] == (own + [q])[slot] == q;
    assert n.objects <= n.objects + [Null] <= n1.objects;
    forall k | slot <= k < |own'|
      ensures NodeAt(doc, n'.objects[k], own'[k], own')
    {
      assert k > slot ==> NodeAt(doc, n1.objects[k], own'[k], own');
    }
    forall k | slot <= k < |n'.objects|
      ensures Reference(k) in [Reference(slot)] || ReachedFrom(n'.objects, slot, k)
    {
      if k > slot {
        if Reference(k) in Children(w) {
          assert n'.objects[slot] == w;
        } else {
          var j :| slot + 1 <= j < k && Reference(k) in Children(n1.objects[j]);
          assert n'.objects[j] == n1.objects[j];
        }
      }
    }
  }

  lemma {:induction false} AllWalk(doc: Document, n: Numbering, own: seq<Place>, vs: seq<Value>, p: Place, at: nat)
      returns (own': seq<Place>)
    requires Tracks(doc.objects, n, own) && Clear(n.refs, own, p, at)
    requires at <= |ChildrenAt(doc, p)| && ChildrenAt(doc, p)[at..] == vs
    ensures var (ws, n') := NumberValues(doc.objects, n, vs); Walked(doc, n, own, vs, ws, n', own', p, at)
    decreases Unvisited(doc.objects, n.refs), AllWeigh(vs), 2, |vs|
  {
    hide Held, Clear, Children, ChildrenAt, Weight, NumberValue, Walked;
    if vs == [] {
      own' := own;
      NoneWalk(doc, n, own, p, at);
    } else {
      var own1 := ValueWalks(doc, n, own, vs[0], p, at);
      var (first, n1) := NumberValue(doc.objects, n, vs[0]);
      ExtendsUnvisited(doc.objects, n, n1);
      WalkedOn(doc, n, own, vs[0], first, n1, own1, p, at);
      assert ChildrenAt(doc, p)[at + 1..] == vs[1..];
      own' := AllWalk(doc, n1, own1, vs[1..], p, at + 1);
      var (others, n2) := NumberValues(doc.objects, n1, vs[1..]);
      WalkedBoth(doc, n, own, vs[0], first, n1, own1, vs[1..], others, n2, own', p, at);
      assert [vs[0]] + vs[1..] == vs;
    }
  }

  lemma NoneWalk(doc: Document, n: Numbering, own: seq<Place>, p: Place, at: nat)
    requires Tracks(doc.objects, n, own)
    ensures Walked(doc, n, own, [], [], n, own, p, at)
  {
    hide Held, Children;
  }

  lemma WalkedOn(doc: Document, n: Numbering, own: seq<Place>, v: Value, w: Value, n1: Numbering, own1: seq<Place>,
          p: Place, at: nat)
    requires Walked(doc, n, own, [v], [w], n1, own1, p, at) && Clear(n.refs, own, p, at) && Extends(n, n1)
    ensures Tracks(doc.objects, n1, own1) && Clear(n1.refs, own1, p, at + 1)
  {
    hide Held, Clear, Gained, Nodes, Reached, AllStand;
    GainedClear(n.refs, own, n1.refs, own1, p, at);
  }

  lemma WalkedBoth(doc: Document, n: Numbering, own: seq<Place>, v: Value, w: Value, n1: Numbering, own1: seq<Place>,
          vs: seq<Value>, ws: seq<Value>, n2: Numbering, own2: seq<Place>, p: Place, at: nat)
    requires |own| == |n.objects| && Walked(doc, n, own, [v], [w], n1, own1, p, at) && Extends(n, n1)
    requires Walked(doc, n1, own1, vs, ws, n2, own2, p, at + 1) && Extends(n1, n2)
    ensures Walked(doc, n, own, [v] + vs, [w] + ws, n2, own2, p, at)
  {
    hide Held, Nodes, Reached, Stands;
    GainedBoth(n.refs, own, n1.refs, own1, n2.refs, own2, p, at, at + 1, at + 1 + |vs|);
    StandsOn(doc.objects, [v], [w], p, at, own1, own2);
    NodesOn(doc, n1.objects, own1, n2.objects, own2, |own|);
    ReachedOn(n1.objects, [w], n2.objects, ws, |own|);
    forall i | 0 <= i < |[v] + vs|
      ensures Stands(doc.objects, ([v] + vs)[i], ([w] + ws)[i], Child(p, at + i), own2)
    {
      if i == 0 {
        assert Stands(doc.objects, [v][0], [w][0], Child(p, at + 0), own2);
      } else {
        assert Stands(doc.objects, vs[i - 1], ws[i - 1], Child(p, at + 1 + (i - 1)), own2);
      }
    }
  }

  /** Renumbering gives the same graph. */
  lemma RenumberSame(doc: Document) returns (own: seq<Place>)
    ensures SameGraph(doc, Renumber(doc), own)
  {
    hide Held, NumberValues, Nodes, Reached, AllStand, Gained;
    var start := Numbering(map[], []);
    assert Tracks(doc.objects, start, []) by { NothingHeld(); }
    assert ChildrenAt(doc, ROOTS)[0..] == doc.roots;
    own := AllWalk(doc, start, [], doc.roots, ROOTS, 0);
    HeldDistinct(NumberValues(doc.objects, start, doc.roots).1.refs, own);
  }

  lemma NothingHeld()
    ensures Held(map[], [])
  {
  }

  lemma HeldDistinct(refs: map<nat, nat>, own: seq<Place>)
    requires Held(refs, own)
    ensures Distinct(own)
  {
  }
}
