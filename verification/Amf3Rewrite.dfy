/** Writing the renumbered document gives the very bytes of the original. */
module Amf3Rewrite {
  import opened Base
  import opened Amf3
  import opened Amf3Graph
  import opened Amf3Proofs
  import opened Amf3RoundTrip
  import opened Amf3Same

  ghost function Numbers(n: nat): (s: set<nat>)
    ensures forall k :: k in s <==> 0 <= k < n
  {
    if n == 0 then {} else Numbers(n - 1) + {n - 1}
  }

  /** Every number below `n` stands for itself. */
  ghost function Diagonal(n: nat): (m: map<nat, nat>)
    ensures forall k :: k in m <==> 0 <= k < n
    ensures forall k :: k in m ==> m[k] == k
  {
    map k | k in Numbers(n) :: k
  }

  lemma DiagonalOn(n: nat)
    ensures Diagonal(n + 1) == Diagonal(n)[n := n]
  {
  }

  /** The writer's state on the renumbered document: every slot below `next` refers to itself. */
  ghost function Identity(c: Context): Context
    requires c.next <= MAX_REFERENCES
  {
    c.(refs := Diagonal(c.next))
  }

  ghost predicate Aligned(c: EncodeContext, n: Numbering) {
    n.refs == c.refs && |n.objects| == c.next <= MAX_REFERENCES && Below(n, c.next)
  }

  /** The finished arena holds, in the slot of every numbered object, a value of its kind. */
  ghost predicate Kinds(env: seq<Value>, refs: map<nat, nat>, arena: seq<Value>) {
    forall id :: id in refs ==>
      && !Dangling(env, id) && refs[id] < |arena| && Complex(arena[refs[id]])
      && ObjectMarker(arena[refs[id]]) == ObjectMarker(env[id])
  }

  /** The slots filled between `n` and `n2` are those of the finished arena. */
  ghost predicate Filled(arena: seq<Value>, n: Numbering, n2: Numbering) {
    && |n2.objects| <= |arena|
    && (forall k :: |n.objects| <= k < |n2.objects| ==> arena[k] == n2.objects[k])
  }

  ghost predicate Rewritten(env: seq<Value>, arena: seq<Value>, w: Written, n: Numbering, again: Written) {
    && w.Ok? && Aligned(w.value.1, n) && Kinds(env, n.refs, arena)
    && again == Ok((w.value.0, Identity(w.value.1)))
  }

  lemma FilledFirst(env: seq<Value>, arena: seq<Value>, n: Numbering, n1: Numbering, n2: Numbering)
    requires Progress(env, n, n1) && Progress(env, n1, n2) && Filled(arena, n, n2)
    ensures Filled(arena, n, n1) && Filled(arena, n1, n2)
  {
  }

  lemma ChildrenKind(env: seq<Value>, n: Numbering, v: Value)
    requires Complex(v)
    ensures var w := NumberChildren(env, n, v).0; Complex(w) && ObjectMarker(w) == ObjectMarker(v)
  {
    hide NumberMembers, NumberValues;
  }

  lemma {:induction false} ValueRewrites(env: seq<Value>, arena: seq<Value>, c: Context, n: Numbering, v: Value,
          depth: nat)
    requires Aligned(c, n) && Kinds(env, n.refs, arena) && WriteValue(env, c, v, depth).Ok?
    requires Filled(arena, n, NumberValue(env, n, v).1)
    ensures var (w, n') := NumberValue(env, n, v);
            Rewritten(env, arena, WriteValue(env, c, v, depth), n', WriteValue(arena, Identity(c), w, depth))
    decreases Rank(depth), if v.Reference? then 2 else 1, 1
  {
    hide WriteValue, NumberComplex, WriteU29;
    Opening(env, c, v, depth);
    if v.Reference? {
      if v.id in n.refs {
        ReferenceRewrites(env, arena, c, v.id, depth);
      } else {
        var c1, n1 := c.(refs := c.refs[v.id := c.next]), n.(refs := n.refs[v.id := |n.objects|]);
        SlotKinds(env, arena, n, v.id);
        SlotRewrites(env, arena, c1, n1, env[v.id], depth);
      }
    } else if Complex(v) {
      SlotRewrites(env, arena, c, n, v, depth);
    } else {
      ScalarRewrites(env, arena, c, v, depth);
    }
  }

  /** How writing a value begins. */
  lemma Opening(env: seq<Value>, c: Context, v: Value, depth: nat)
    requires WriteValue(env, c, v, depth).Ok?
    ensures v.Reference? ==> !Dangling(env, v.id)
    ensures v.Reference? && v.id !in c.refs ==>
      c.next < MAX_REFERENCES
          && WriteValue(env, c, v, depth) == WriteValue(env, c.(refs := c.refs[v.id := c.next]), env[v.id], depth)
  {
    hide WriteComplex;
  }

  lemma ReferenceRewrites(env: seq<Value>, arena: seq<Value>, c: Context, id: nat, depth: nat)
    requires c.next <= MAX_REFERENCES && id in c.refs && c.refs[id] < c.next && Kinds(env, c.refs, arena)
    requires WriteValue(env, c, Reference(id), depth).Ok?
    ensures var (out, c') := WriteValue(env, c, Reference(id), depth).value;
            c' == c && WriteValue(arena, Identity(c), Reference(c.refs[id]), depth) == Ok((out, Identity(c)))
  {
    hide WriteComplex, WriteU29, Indexed;
    assert c.refs[id] in Identity(c).refs;
  }

  lemma ScalarRewrites(env: seq<Value>, arena: seq<Value>, c: Context, v: Value, depth: nat)
    requires c.next <= MAX_REFERENCES && !v.Reference? && !Complex(v) && WriteValue(env, c, v, depth).Ok?
    ensures var (out, c') := WriteValue(env, c, v, depth).value;
            && c'.next == c.next && c'.refs == c.refs
            && WriteValue(arena, Identity(c), NormalScalar(v), depth) == Ok((out, Identity(c')))
  {
    hide WriteComplex, WriteString, WriteU29, Indexed;
    if v.String? {
      NameRewrites(c, v.s);
    }
  }

  /** An object met for the first time has its kind in the slot it is about to take. */
  lemma SlotKinds(env: seq<Value>, arena: seq<Value>, n: Numbering, id: nat)
    requires Kinds(env, n.refs, arena) && id !in n.refs && !Dangling(env, id)
    requires Filled(arena, n, NumberValue(env, n, Reference(id)).1)
    ensures Kinds(env, n.refs[id := |n.objects|], arena)
  {
    hide NumberChildren;
    ChildrenKind(env, Numbering(n.refs[id := |n.objects|], n.objects + [Null]), env[id]);
  }

  /** Writing a complex value and writing a reference to its slot give the same bytes. */
  lemma {:induction false} SlotRewrites(env: seq<Value>, arena: seq<Value>, c: Context, n: Numbering, v: Value,
          depth: nat)
    requires Complex(v) && n.refs == c.refs && |n.objects| == c.next && Below(n, c.next + 1)
    requires WriteValue(env, c, v, depth).Ok? && Filled(arena, n, NumberComplex(env, n, v).1)
    requires Kinds(env, n.refs, arena)
    ensures var (w, n') := NumberComplex(env, n, v);
            c.next <= MAX_REFERENCES &&
            Rewritten(env, arena, WriteValue(env, c, v, depth), n', WriteValue(arena, Identity(c), w, depth))
    decreases Rank(depth), 1, 0
  {
    hide WriteComplex, NumberChildren, Kinds;
    var slot := c.next;
    var c0, n0 := c.(next := slot + 1), n.(objects := n.objects + [Null]);
    var (w, n1) := NumberChildren(env, n0, v);
    ChildrenKind(env, n0, v);
    assert arena[slot] == w;
    InlineOpens(env, c, v, depth);
    ChildrenRewrite(env, arena, c0, n0, v, depth);
    SlotOpens(arena, c, depth);
  }

  lemma InlineOpens(env: seq<Value>, c: Context, v: Value, depth: nat)
    requires Complex(v) && WriteValue(env, c, v, depth).Ok?
    ensures c.next < MAX_REFERENCES && depth <= MAX_DEPTH
    ensures var w := WriteComplex(env, c.(next := c.next + 1), v, depth);
            w.Ok? && WriteValue(env, c, v, depth) == Ok(([ObjectMarker(v)] + w.value.0, w.value.1))
  {
    hide WriteComplex;
  }

  lemma SlotOpens(arena: seq<Value>, c: Context, depth: nat)
    requires c.next < |arena| && c.next < MAX_REFERENCES && Complex(arena[c.next]) && depth <= MAX_DEPTH
    ensures var w := WriteComplex(arena, Identity(c.(next := c.next + 1)), arena[c.next], depth);
            w.Ok? ==>
                WriteValue(arena, Identity(c), Reference(c.next), depth) ==
                Ok(([ObjectMarker(arena[c.next])] + w.value.0, w.value.1))
  {
    hide WriteComplex;
    DiagonalOn(c.next);
    var again := Identity(c).(refs := Identity(c).refs[c.next := c.next]);
    assert again.(next := c.next + 1) == Identity(c.(next := c.next + 1));
    assert WriteValue(arena, Identity(c), Reference(c.next), depth) == WriteValue(arena, again, arena[c.next], depth);
  }

  lemma {:induction false} ChildrenRewrite(env: seq<Value>, arena: seq<Value>, c: Context, n: Numbering, v: Value,
          depth: nat)
    requires Complex(v) && depth <= MAX_DEPTH && Aligned(c, n) && Kinds(env, n.refs, arena)
             && WriteComplex(env, c, v, depth).Ok?
    requires Filled(arena, n, NumberChildren(env, n, v).1)
    ensures var (w, n') := NumberChildren(env, n, v);
            Complex(w) && Rewritten(env, arena, WriteComplex(env, c, v, depth), n',
                WriteComplex(arena, Identity(c), w, depth))
    decreases Rank(depth), 0, 1
  {
    hide WriteMembers, WriteValues, WriteTrait, WriteString, NumberMembers, NumberValues, Progress, Kinds, Indexed,
        WriteU29;
    match v
    case Array(dense, associative) =>
      MembersSame(env, n, associative);
      var (members, n1) := NumberMembers(env, n, associative);
      ProgressBelow(env, n, n1);
      ValuesSame(env, n1, dense);
      FilledFirst(env, arena, n, n1, NumberValues(env, n1, dense).1);
      MembersRewrite(env, arena, c, n, associative, depth + 1);
      var c1 := WriteMembers(env, c, associative, depth + 1).value.1;
      ValuesRewrite(env, arena, c1, n1, dense, depth + 1);
    case Object(_, _, _) => ObjectRewrites(env, arena, c, n, v, depth);
    case VectorObject(name, _, values) =>
      NameRewrites(c, name);
      var c1 := WriteString(c, name).value.1;
      ValuesRewrite(env, arena, c1, n, values, depth + 1);
    case Date(_) =>
    case Blob(_, _) =>
  }

  lemma {:induction false} ObjectRewrites(env: seq<Value>, arena: seq<Value>, c: Context, n: Numbering, v: Value,
          depth: nat)
    requires v.Object? && depth <= MAX_DEPTH && Aligned(c, n) && Kinds(env, n.refs, arena)
             && WriteComplex(env, c, v, depth).Ok?
    requires Filled(arena, n, NumberChildren(env, n, v).1)
    ensures var (w, n') := NumberChildren(env, n, v);
            Complex(w) && Rewritten(env, arena, WriteComplex(env, c, v, depth), n',
                WriteComplex(arena, Identity(c), w, depth))
    decreases Rank(depth), 0, 0
  {
    hide WriteMembers, WriteValues, WriteTrait, NumberMembers, NumberValues, Progress, Kinds, Indexed, Names, Values,
        Zip, SameMembers;
    var w := NumberChildren(env, n, v).0;
    var (fixed, n1) := NumberMembers(env, n, v.sealed);
    MembersSame(env, n, v.sealed);
    ProgressBelow(env, n, n1);
    if v.dynamic.Dynamic? {
      MembersSame(env, n1, v.dynamic.members);
      FilledFirst(env, arena, n, n1, NumberMembers(env, n1, v.dynamic.members).1);
    }
    SealedNumbered(env, n, v.sealed);
    ZipParts(Names(v.sealed), NumberValues(env, n, Values(v.sealed)).0);
    assert TraitOf(w) == TraitOf(v);
    TraitRewrites(c, TraitOf(v));
    var c1 := WriteTrait(c, TraitOf(v)).value.1;
    ValuesRewrite(env, arena, c1, n, Values(v.sealed), depth + 1);
    if v.dynamic.Dynamic? {
      var c2 := WriteValues(env, c1, Values(v.sealed), depth + 1).value.1;
      MembersRewrite(env, arena, c2, n1, v.dynamic.members, depth + 1);
    }
  }

  lemma {:induction false} ZipParts(names: seq<Str>, values: seq<Value>)
    requires |names| == |values|
    ensures Names(Zip(names, values)) == names && Values(Zip(names, values)) == values
  {
    if names != [] {
      ZipParts(names[1..], values[1..]);
    }
  }

  /** Strings and traits are written from their own tables, whatever the object table holds. */
  lemma NameRewrites(c: Context, s: Str)
    requires c.next <= MAX_REFERENCES && WriteString(c, s).Ok?
    ensures var (out, c') := WriteString(c, s).value;
            c'.next == c.next && c'.refs == c.refs && WriteString(Identity(c), s) == Ok((out, Identity(c')))
  {
    hide WriteU29;
  }

  lemma {:induction false} NamesRewrite(c: Context, names: seq<Str>)
    requires c.next <= MAX_REFERENCES && WriteStrings(c, names).Ok?
    ensures var (out, c') := WriteStrings(c, names).value;
            c'.next == c.next && c'.refs == c.refs && WriteStrings(Identity(c), names) == Ok((out, Identity(c')))
    decreases |names|
  {
    hide WriteString, Indexed;
    if names != [] {
      NameRewrites(c, names[0]);
      NamesRewrite(WriteString(c, names[0]).value.1, names[1..]);
    }
  }

  lemma TraitRewrites(c: Context, t: Trait)
    requires c.next <= MAX_REFERENCES && |t.names| <= MAX_COLLECTION && WriteTrait(c, t).Ok?
    ensures var (out, c') := WriteTrait(c, t).value;
            c'.next == c.next && c'.refs == c.refs && WriteTrait(Identity(c), t) == Ok((out, Identity(c')))
  {
    hide WriteString, WriteStrings, WriteU29;
    if t !in c.traits {
      NameRewrites(c, t.className);
      NamesRewrite(WriteString(c, t.className).value.1, t.names);
    }
  }

  lemma {:induction false} ValuesRewrite(env: seq<Value>, arena: seq<Value>, c: Context, n: Numbering, vs: seq<Value>,
          depth: nat)
    requires Aligned(c, n) && Kinds(env, n.refs, arena) && WriteValues(env, c, vs, depth).Ok?
    requires Filled(arena, n, NumberValues(env, n, vs).1)
    ensures var (ws, n') := NumberValues(env, n, vs);
            Rewritten(env, arena, WriteValues(env, c, vs, depth), n', WriteValues(arena, Identity(c), ws, depth))
    decreases Rank(depth), 3, |vs|
  {
    hide WriteValue, NumberValue, Progress, Kinds, Indexed;
    if vs != [] {
      ValueSame(env, n, vs[0]);
      var (first, n1) := NumberValue(env, n, vs[0]);
      ProgressBelow(env, n, n1);
      ValuesSame(env, n1, vs[1..]);
      var (others, n2) := NumberValues(env, n1, vs[1..]);
      FilledFirst(env, arena, n, n1, n2);
      ValueRewrites(env, arena, c, n, vs[0], depth);
      var c1 := WriteValue(env, c, vs[0], depth).value.1;
      ValuesRewrite(env, arena, c1, n1, vs[1..], depth);
      assert ([first] + others)[1..] == others;
    }
  }

  lemma {:induction false} MembersRewrite(env: seq<Value>, arena: seq<Value>, c: Context, n: Numbering,
          ms: seq<Member>, depth: nat)
    requires Aligned(c, n) && Kinds(env, n.refs, arena) && WriteMembers(env, c, ms, depth).Ok?
    requires Filled(arena, n, NumberMembers(env, n, ms).1)
    ensures var (ws, n') := NumberMembers(env, n, ms);
            Rewritten(env, arena, WriteMembers(env, c, ms, depth), n', WriteMembers(arena, Identity(c), ws, depth))
    decreases Rank(depth), 3, |ms|
  {
    hide WriteValue, WriteString, NumberValue, Progress, Kinds, Indexed, WriteU29;
    if ms != [] {
      var (name, value) := (ms[0].name, ms[0].value);
      ValueSame(env, n, value);
      var (first, n1) := NumberValue(env, n, value);
      ProgressBelow(env, n, n1);
      MembersSame(env, n1, ms[1..]);
      var (others, n2) := NumberMembers(env, n1, ms[1..]);
      FilledFirst(env, arena, n, n1, n2);
      NameRewrites(c, name);
      var c1 := WriteString(c, name).value.1;
      ValueRewrites(env, arena, c1, n, value, depth);
      var c2 := WriteValue(env, c1, value, depth).value.1;
      MembersRewrite(env, arena, c2, n1, ms[1..], depth);
      assert ([Member(name, first)] + others)[1..] == others;
    }
  }

  /** Encoding the renumbered document gives identical bytes. */
  lemma RenumberRewrites(doc: Document)
    requires EncodeDocument(doc).Ok?
    ensures EncodeDocument(Renumber(doc)).Ok? && EncodeDocument(Renumber(doc)).value.0 == EncodeDocument(doc).value.0
    ensures Fits(EncodeDocument(Renumber(doc)).value.1) <==> Fits(EncodeDocument(doc).value.1)
  {
    hide WriteValues, NumberValues;
    var start := Numbering(map[], []);
    var n := NumberValues(doc.objects, start, doc.roots).1;
    assert Identity(NewEncodeContext) == NewEncodeContext;
    ValuesRewrite(doc.objects, n.objects, NewEncodeContext, start, doc.roots, 0);
  }
}
