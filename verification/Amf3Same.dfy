/** Renumbering follows the graph: every value keeps its shape, every shared or cyclic reference still
    leads to the same object, and every object of the arena has a slot of its own. */
module Amf3Same {
  import opened Amf3
  import opened Amf3Graph

  ghost predicate Dangling(env: seq<Value>, id: nat) {
    id >= |env| || !Complex(env[id])
  }

  /** `w` stands for `v`: references follow the renumbering `n.refs`, and an inline complex value
      has become a slot of its own, not below `lo`, that holds a value of the same shape. */
  ghost predicate Same(env: seq<Value>, v: Value, w: Value, n: Numbering, lo: nat)
    decreases v, 1
  {
    if v.Reference? then
      (v.id in n.refs && w == Reference(n.refs[v.id])) || (Dangling(env, v.id) && w == v)
    else if Complex(v) then
      w.Reference? && lo <= w.id < |n.objects| && SameShape(env, v, n.objects[w.id], n, w.id + 1)
    else w == NormalScalar(v)
  }

  ghost predicate SameShape(env: seq<Value>, v: Value, w: Value, n: Numbering, lo: nat)
    decreases v, 0
  {
    match v
    case Array(dense, associative) =>
      w.Array? && SameValues(env, dense, w.dense, n, lo) && SameMembers(env, associative, w.associative, n, lo)
    case Object(name, sealed, dynamic) =>
      && w.Object? && w.className == NormalClass(name) && SameMembers(env, sealed, w.sealed, n, lo)
      && (dynamic.Dynamic? <==> w.dynamic.Dynamic?)
      && (dynamic.Dynamic? ==> SameMembers(env, dynamic.members, w.dynamic.members, n, lo))
    case VectorObject(name, fixed, values) =>
      w.VectorObject? && w.typeName == name && w.fixed == fixed && SameValues(env, values, w.values, n, lo)
    case _ => w == v
  }

  ghost predicate SameValues(env: seq<Value>, vs: seq<Value>, ws: seq<Value>, n: Numbering, lo: nat)
    decreases vs, 2
  {
    |vs| == |ws| && forall i :: 0 <= i < |vs| ==> Same(env, vs[i], ws[i], n, lo)
  }

  ghost predicate SameMembers(env: seq<Value>, ms: seq<Member>, ws: seq<Member>, n: Numbering, lo: nat)
    decreases ms, 2
  {
    |ms| == |ws| && forall i :: 0 <= i < |ms| ==> ws[i].name == ms[i].name && Same(env, ms[i].value, ws[i].value, n, lo)
  }

  // ----- later numbering keeps what is settled ------------------------------------------------

  /** `n2` continues `n` without touching slots from `lo` on. */
  ghost predicate Later(n: Numbering, n2: Numbering, lo: nat) {
    && Extends(n, n2)
    && (forall k :: lo <= k < |n.objects| ==> n2.objects[k] == n.objects[k])
  }

  lemma {:induction false} SameLater(env: seq<Value>, v: Value, w: Value, n: Numbering, n2: Numbering, lo: nat)
    requires Same(env, v, w, n, lo) && Later(n, n2, lo)
    ensures Same(env, v, w, n2, lo)
    decreases v, 1
  {
    if !v.Reference? && Complex(v) {
      ShapeLater(env, v, n.objects[w.id], n, n2, w.id + 1);
    }
  }

  lemma {:induction false} ShapeLater(env: seq<Value>, v: Value, w: Value, n: Numbering, n2: Numbering, lo: nat)
    requires SameShape(env, v, w, n, lo) && Later(n, n2, lo)
    ensures SameShape(env, v, w, n2, lo)
    decreases v, 0
  {
    match v
    case Array(dense, associative) =>
      ValuesLater(env, dense, w.dense, n, n2, lo);
      MembersLater(env, associative, w.associative, n, n2, lo);
    case Object(_, sealed, dynamic) =>
      MembersLater(env, sealed, w.sealed, n, n2, lo);
      if dynamic.Dynamic? {
        MembersLater(env, dynamic.members, w.dynamic.members, n, n2, lo);
      }
    case VectorObject(_, _, values) => ValuesLater(env, values, w.values, n, n2, lo);
    case _ =>
  }

  lemma {:induction false} ValuesLater(env: seq<Value>, vs: seq<Value>, ws: seq<Value>, n: Numbering, n2: Numbering,
          lo: nat)
    requires SameValues(env, vs, ws, n, lo) && Later(n, n2, lo)
    ensures SameValues(env, vs, ws, n2, lo)
    decreases vs, 2
  {
    forall i | 0 <= i < |vs|
      ensures Same(env, vs[i], ws[i], n2, lo)
    {
      SameLater(env, vs[i], ws[i], n, n2, lo);
    }
  }

  lemma {:induction false} MembersLater(env: seq<Value>, ms: seq<Member>, ws: seq<Member>, n: Numbering, n2: Numbering,
          lo: nat)
    requires SameMembers(env, ms, ws, n, lo) && Later(n, n2, lo)
    ensures SameMembers(env, ms, ws, n2, lo)
    decreases ms, 2
  {
    forall i | 0 <= i < |ms|
      ensures Same(env, ms[i].value, ws[i].value, n2, lo)
    {
      SameLater(env, ms[i].value, ws[i].value, n, n2, lo);
    }
  }

  // ----- numbering settles what it meets ---------------------------------------------------------

  ghost predicate Below(n: Numbering, limit: nat) {
    forall id :: id in n.refs ==> n.refs[id] < limit
  }

  /** An object met between `n` and `n2` shares its slot with no other object. */
  ghost predicate Apart(n: Numbering, n2: Numbering) {
    forall a, b :: a in n2.refs && a !in n.refs && b in n2.refs && a != b ==> n2.refs[a] != n2.refs[b]
  }

  /** The object `id` has a slot of its own, holding a value of its shape. */
  ghost predicate SettledAt(env: seq<Value>, n: Numbering, id: nat) {
    && id in n.refs && !Dangling(env, id) && n.refs[id] < |n.objects|
    && SameShape(env, env[id], n.objects[n.refs[id]], n, n.refs[id] + 1)
  }

  /** Every object met between `n` and `n2` is settled, in a slot not below `lo`. */
  ghost predicate Settles(env: seq<Value>, n: Numbering, n2: Numbering, lo: nat) {
    forall id :: id in n2.refs && id !in n.refs ==> SettledAt(env, n2, id) && n2.refs[id] >= lo
  }

  /** What holds between the numbering before and after any part of the graph. */
  ghost predicate Progress(env: seq<Value>, n: Numbering, n2: Numbering) {
    && Later(n, n2, 0)
    && Settles(env, n, n2, |n.objects|)
    && Below(n2, |n2.objects|)
    && Apart(n, n2)
  }

  lemma ProgressNone(env: seq<Value>, n: Numbering)
    requires Below(n, |n.objects|)
    ensures Progress(env, n, n)
  {
  }

  lemma SettledLater(env: seq<Value>, n: Numbering, n2: Numbering, id: nat, lo: nat)
    requires SettledAt(env, n, id) && Later(n, n2, lo) && lo <= n.refs[id]
    ensures SettledAt(env, n2, id)
  {
    ShapeLater(env, env[id], n.objects[n.refs[id]], n, n2, n.refs[id] + 1);
  }

  lemma ProgressTransitive(env: seq<Value>, n: Numbering, n1: Numbering, n2: Numbering)
    requires Progress(env, n, n1) && Progress(env, n1, n2)
    ensures Progress(env, n, n2)
  {
    hide SettledAt;
    forall id | id in n2.refs && id !in n.refs
      ensures SettledAt(env, n2, id) && n2.refs[id] >= |n.objects|
    {
      if id in n1.refs {
        SettledLater(env, n1, n2, id, 0);
      }
    }
  }

  lemma {:induction false} ValueSame(env: seq<Value>, n: Numbering, v: Value)
    requires Below(n, |n.objects|)
    ensures var (w, n') := NumberValue(env, n, v);
            Same(env, v, w, n', |n.objects|) && Progress(env, n, n')
    decreases Unvisited(env, n.refs), v, 2
  {
    hide SameShape, Settles, SettledAt, Apart;
    if v.Reference? {
      if v.id !in n.refs && v.id < |env| && Complex(env[v.id]) {
        var n1 := n.(refs := n.refs[v.id := |n.objects|]);
        assert v.id in Unvisited(env, n.refs) && v.id !in Unvisited(env, n1.refs);
        ComplexSame(env, n1, env[v.id]);
        NewReference(env, n, v.id, NumberComplex(env, n1, env[v.id]).1);
      } else {
        ProgressNone(env, n);
      }
    } else if Complex(v) {
      ComplexSame(env, n, v);
      InlineProgress(env, n, NumberComplex(env, n, v).1);
    } else {
      ProgressNone(env, n);
    }
  }

  /** What numbering one complex value establishes: it takes slot `|n.objects|`. */
  ghost predicate TakesSlot(env: seq<Value>, n: Numbering, v: Value, n': Numbering) {
    var slot := |n.objects|;
    && Later(n, n', 0) && slot < |n'.objects|
    && SameShape(env, v, n'.objects[slot], n', slot + 1)
    && Settles(env, n, n', slot + 1)
    && Below(n', |n'.objects|)
    && Apart(n, n')
  }

  lemma NewReference(env: seq<Value>, n: Numbering, id: nat, n': Numbering)
    requires Below(n, |n.objects|) && id !in n.refs && !Dangling(env, id)
    requires TakesSlot(env, n.(refs := n.refs[id := |n.objects|]), env[id], n')
    ensures Progress(env, n, n') && id in n'.refs && n'.refs[id] == |n.objects|
  {
    hide SameShape;
    var n1 := n.(refs := n.refs[id := |n.objects|]);
    assert n1.refs[id] == |n.objects|;
    assert SettledAt(env, n', id);
    forall k | k in n'.refs && k !in n.refs
      ensures SettledAt(env, n', k) && n'.refs[k] >= |n.objects|
    {
      if k != id {
        assert k !in n1.refs;
      }
    }
    forall a, b | a in n'.refs && a !in n.refs && b in n'.refs && a != b
      ensures n'.refs[a] != n'.refs[b]
    {
      if a in n1.refs && b in n1.refs {
        assert n'.refs[b] == n1.refs[b] == n.refs[b];
      }
    }
  }

  lemma InlineProgress(env: seq<Value>, n: Numbering, n': Numbering)
    requires Later(n, n', 0) && Settles(env, n, n', |n.objects| + 1) && Below(n', |n'.objects|)
    requires Apart(n, n')
    ensures Progress(env, n, n')
  {
    hide SettledAt;
  }

  lemma {:induction false} ComplexSame(env: seq<Value>, n: Numbering, v: Value)
    requires Complex(v) && Below(n, |n.objects| + 1)
    ensures TakesSlot(env, n, v, NumberComplex(env, n, v).1)
    decreases Unvisited(env, n.refs), v, 1
  {
    hide SameShape, SettledAt;
    var slot := |n.objects|;
    var n0 := n.(objects := n.objects + [Null]);
    ChildrenSame(env, n0, v);
    var (w, n1) := NumberChildren(env, n0, v);
    var n' := n1.(objects := n1.objects[slot := w]);
    ShapeLater(env, v, w, n1, n', slot + 1);
    forall id | id in n'.refs && id !in n.refs
      ensures SettledAt(env, n', id) && n'.refs[id] >= slot + 1
    {
      SettledLater(env, n1, n', id, slot + 1);
    }
  }

  lemma {:induction false} ChildrenSame(env: seq<Value>, n: Numbering, v: Value)
    requires Complex(v) && Below(n, |n.objects|)
    ensures var (w, n') := NumberChildren(env, n, v);
            SameShape(env, v, w, n', |n.objects|) && Progress(env, n, n')
    decreases Unvisited(env, n.refs), v, 0
  {
    hide Progress;
    match v
    case Array(dense, associative) =>
      MembersSame(env, n, associative);
      var (members, n1) := NumberMembers(env, n, associative);
      ExtendsUnvisited(env, n, n1);
      ProgressBelow(env, n, n1);
      ValuesSame(env, n1, dense);
      var (items, n2) := NumberValues(env, n1, dense);
      ProgressTransitive(env, n, n1, n2);
      ProgressLater(env, n1, n2);
      MembersLater(env, associative, members, n1, n2, |n.objects|);
      ValuesLower(env, dense, items, n2, |n1.objects|, |n.objects|);
    case Object(_, sealed, dynamic) =>
      MembersSame(env, n, sealed);
      var (fixed, n1) := NumberMembers(env, n, sealed);
      ExtendsUnvisited(env, n, n1);
      ProgressBelow(env, n, n1);
      if dynamic.Dynamic? {
        MembersSame(env, n1, dynamic.members);
        var (members, n2) := NumberMembers(env, n1, dynamic.members);
        ProgressTransitive(env, n, n1, n2);
        ProgressLater(env, n1, n2);
        MembersLater(env, sealed, fixed, n1, n2, |n.objects|);
        MembersLower(env, dynamic.members, members, n2, |n1.objects|, |n.objects|);
      }
    case VectorObject(_, _, values) => ValuesSame(env, n, values);
    case Date(_) => ProgressNone(env, n);
    case Blob(_, _) => ProgressNone(env, n);
  }

  lemma ProgressBelow(env: seq<Value>, n: Numbering, n2: Numbering)
    requires Progress(env, n, n2)
    ensures Below(n2, |n2.objects|) && |n.objects| <= |n2.objects|
  {
  }

  lemma ProgressLater(env: seq<Value>, n: Numbering, n2: Numbering)
    requires Progress(env, n, n2)
    ensures forall lo: nat :: Later(n, n2, lo)
  {
  }

  lemma ValuesLower(env: seq<Value>, vs: seq<Value>, ws: seq<Value>, n: Numbering, hi: nat, lo: nat)
    requires SameValues(env, vs, ws, n, hi) && lo <= hi
    ensures SameValues(env, vs, ws, n, lo)
  {
    forall i | 0 <= i < |vs|
      ensures Same(env, vs[i], ws[i], n, lo)
    {
      assert Same(env, vs[i], ws[i], n, hi);
    }
  }

  lemma MembersLower(env: seq<Value>, ms: seq<Member>, ws: seq<Member>, n: Numbering, hi: nat, lo: nat)
    requires SameMembers(env, ms, ws, n, hi) && lo <= hi
    ensures SameMembers(env, ms, ws, n, lo)
  {
    forall i | 0 <= i < |ms|
      ensures Same(env, ms[i].value, ws[i].value, n, lo)
    {
      assert Same(env, ms[i].value, ws[i].value, n, hi);
    }
  }

  lemma {:induction false} ValuesSame(env: seq<Value>, n: Numbering, vs: seq<Value>)
    requires Below(n, |n.objects|)
    ensures var (ws, n') := NumberValues(env, n, vs);
            SameValues(env, vs, ws, n', |n.objects|) && Progress(env, n, n')
    decreases Unvisited(env, n.refs), vs
  {
    hide Progress, Same;
    if vs == [] {
      ProgressNone(env, n);
    } else {
      ValueSame(env, n, vs[0]);
      var (first, n1) := NumberValue(env, n, vs[0]);
      ExtendsUnvisited(env, n, n1);
      ProgressBelow(env, n, n1);
      ValuesSame(env, n1, vs[1..]);
      var (others, n2) := NumberValues(env, n1, vs[1..]);
      ProgressTransitive(env, n, n1, n2);
      ProgressLater(env, n1, n2);
      SameLater(env, vs[0], first, n1, n2, |n.objects|);
      ValuesLower(env, vs[1..], others, n2, |n1.objects|, |n.objects|);
      forall i | 0 <= i < |vs|
        ensures Same(env, vs[i], ([first] + others)[i], n2, |n.objects|)
      {
        if i > 0 {
          assert vs[i] == vs[1..][i - 1] && ([first] + others)[i] == others[i - 1];
        }
      }
    }
  }

  lemma {:induction false} MembersSame(env: seq<Value>, n: Numbering, ms: seq<Member>)
    requires Below(n, |n.objects|)
    ensures var (ws, n') := NumberMembers(env, n, ms);
            SameMembers(env, ms, ws, n', |n.objects|) && Progress(env, n, n')
    decreases Unvisited(env, n.refs), ms
  {
    hide Progress, Same;
    if ms == [] {
      ProgressNone(env, n);
    } else {
      ValueSame(env, n, ms[0].value);
      var (first, n1) := NumberValue(env, n, ms[0].value);
      ExtendsUnvisited(env, n, n1);
      ProgressBelow(env, n, n1);
      MembersSame(env, n1, ms[1..]);
      var (others, n2) := NumberMembers(env, n1, ms[1..]);
      ProgressTransitive(env, n, n1, n2);
      ProgressLater(env, n1, n2);
      SameLater(env, ms[0].value, first, n1, n2, |n.objects|);
      MembersLower(env, ms[1..], others, n2, |n1.objects|, |n.objects|);
      var ws := [Member(ms[0].name, first)] + others;
      forall i | 0 <= i < |ms|
        ensures ws[i].name == ms[i].name && Same(env, ms[i].value, ws[i].value, n2, |n.objects|)
      {
        if i > 0 {
          assert ms[i] == ms[1..][i - 1] && ws[i] == others[i - 1];
        }
      }
    }
  }

  // ----- documents -----------------------------------------------------------------------------

  /** `doc2` follows `doc`, whose objects have moved to the slots `refs`: roots stand for roots, every
      moved object keeps its shape, and no two objects of the arena share a slot. */
  ghost predicate Tracked(doc: Document, doc2: Document, refs: map<nat, nat>) {
    var n := Numbering(refs, doc2.objects);
    && SameValues(doc.objects, doc.roots, doc2.roots, n, 0)
    && (forall id :: id in refs ==> SettledAt(doc.objects, n, id))
    && (forall a, b :: a in refs && b in refs && a != b ==> refs[a] != refs[b])
  }

  lemma RenumberTracked(doc: Document) returns (refs: map<nat, nat>)
    ensures Tracked(doc, Renumber(doc), refs)
    ensures refs == NumberValues(doc.objects, Numbering(map[], []), doc.roots).1.refs
  {
    hide NumberValues, SameValues, SettledAt;
    var start := Numbering(map[], []);
    ValuesSame(doc.objects, start, doc.roots);
    var n := NumberValues(doc.objects, start, doc.roots).1;
    refs := n.refs;
    assert n == Numbering(refs, Renumber(doc).objects);
  }
}
