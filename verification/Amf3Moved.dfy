/** Moving an AMF3 arena behind another one changes neither what is written nor how it is numbered. */
module Amf3Moved {
  import opened Base
  import opened Amf3
  import opened Amf3Graph
  import opened Amf3RoundTrip

  ghost function Place(id: nat, base: nat): nat {
    id + base
  }

  /** The same objects under their new places. */
  ghost function MovedRefs(refs: map<nat, nat>, base: nat): (m: map<nat, nat>)
  {
    var keys := set id | id in refs :: Place(id, base);
    map k | k in keys :: refs[k - base]
  }

  lemma MovedAt(refs: map<nat, nat>, base: nat, k: nat)
    ensures k in MovedRefs(refs, base) <==> k >= base && k - base in refs
    ensures k in MovedRefs(refs, base) ==> MovedRefs(refs, base)[k] == refs[k - base]
  {
    if k >= base && k - base in refs {
      assert k == Place(k - base, base);
    }
  }

  lemma MovedOne(refs: map<nat, nat>, base: nat, id: nat, slot: nat)
    ensures MovedRefs(refs[id := slot], base) == MovedRefs(refs, base)[id + base := slot]
    ensures id + base in MovedRefs(refs, base) <==> id in refs
    ensures id in refs ==> MovedRefs(refs, base)[id + base] == refs[id]
  {
    hide *;
    MovedAt(refs, base, id + base);
    var a, b := MovedRefs(refs[id := slot], base), MovedRefs(refs, base)[id + base := slot];
    forall k: nat
      ensures k in a <==> k in b
      ensures k in a ==> a[k] == b[k]
    {
      MovedAt(refs[id := slot], base, k);
      MovedAt(refs, base, k);
    }
    assert a == b;
  }

  lemma MovedNone(base: nat)
    ensures MovedRefs(map[], base) == map[]
  {
  }

  ghost function MovedContext(c: Context, base: nat): Context {
    c.(refs := MovedRefs(c.refs, base))
  }

  ghost function MovedNumbering(n: Numbering, base: nat): Numbering {
    n.(refs := MovedRefs(n.refs, base))
  }

  /** The arena holds the objects from `base` on, relocated. */
  ghost predicate Holds(arena: seq<Value>, objects: seq<Value>, base: nat) {
    && base + |objects| <= |arena|
    && (forall id :: 0 <= id < |objects| ==> arena[base + id] == Relocate(objects[id], base))
  }

  ghost predicate Level(c: EncodeContext, n: Numbering) {
    c.refs == n.refs && c.next == |n.objects|
  }

  // ----- names and children -------------------------------------------------------------------------

  lemma {:induction false} MembersMoved(ms: seq<Member>, base: nat)
    ensures Names(RelocateMembers(ms, base)) == Names(ms)
            && Values(RelocateMembers(ms, base)) == RelocateAll(Values(ms), base)
    decreases |ms|
  {
    if ms != [] {
      MembersMoved(ms[1..], base);
    }
  }

  lemma TraitMoved(v: Value, base: nat)
    requires v.Object?
    ensures TraitOf(Relocate(v, base)) == TraitOf(v)
  {
    MembersMoved(v.sealed, base);
  }

  lemma KindMoved(v: Value, base: nat)
    ensures Relocate(v, base).Reference? <==> v.Reference?
    ensures Complex(Relocate(v, base)) <==> Complex(v)
    ensures Complex(v) ==> ObjectMarker(Relocate(v, base)) == ObjectMarker(v)
    ensures !v.Reference? && !Complex(v) ==> Relocate(v, base) == v
  {
  }

  lemma StringMoves(c: Context, s: Str, base: nat)
    requires WriteString(c, s).Ok?
    ensures var (out, c') := WriteString(c, s).value;
            c'.refs == c.refs && c'.next == c.next
                && WriteString(MovedContext(c, base), s) == Ok((out, MovedContext(c', base)))
  {
    hide WriteU29;
  }

  lemma {:induction false} StringsMove(c: Context, names: seq<Str>, base: nat)
    requires WriteStrings(c, names).Ok?
    ensures var (out, c') := WriteStrings(c, names).value;
            c'.refs == c.refs && c'.next == c.next
                && WriteStrings(MovedContext(c, base), names) == Ok((out, MovedContext(c', base)))
    decreases |names|
  {
    hide WriteString, MovedContext, Indexed;
    if names == [] {
    } else {
      StringMoves(c, names[0], base);
      StringsMove(WriteString(c, names[0]).value.1, names[1..], base);
    }
  }

  lemma TraitMoves(c: Context, t: Trait, base: nat)
    requires |t.names| <= MAX_COLLECTION && WriteTrait(c, t).Ok?
    ensures var (out, c') := WriteTrait(c, t).value;
            c'.refs == c.refs && c'.next == c.next
                && WriteTrait(MovedContext(c, base), t) == Ok((out, MovedContext(c', base)))
  {
    hide WriteString, WriteStrings, WriteU29, MovedRefs;
    if t !in c.traits {
      StringMoves(c, t.className, base);
      StringsMove(WriteString(c, t.className).value.1, t.names, base);
    }
  }

  // ----- values ----------------------------------------------------------------------------------------

  /** Writing and numbering go the same way in both places. */
  ghost predicate Moves(w: Written, again: Written, n: Numbering, base: nat) {
    w.Ok? && Level(w.value.1, n) && again == Ok((w.value.0, MovedContext(w.value.1, base)))
  }

  lemma {:induction false} ValueMoves(env: seq<Value>, arena: seq<Value>, base: nat, c: Context, n: Numbering,
          v: Value, depth: nat)
    requires Holds(arena, env, base) && Level(c, n) && WriteValue(env, c, v, depth).Ok?
    ensures var (x, n') := NumberValue(env, n, v);
            && Moves(WriteValue(env, c, v, depth), WriteValue(arena, MovedContext(c, base), Relocate(v, base), depth),
                 n', base)
            && NumberValue(arena, MovedNumbering(n, base), Relocate(v, base)) == (x, MovedNumbering(n', base))
    decreases Rank(depth), if v.Reference? then 2 else 1, 1
  {
    hide WriteValue, NumberValue, NumberComplex, WriteComplex, WriteU29, Relocate, MovedRefs;
    KindMoved(v, base);
    if v.Reference? {
      OpensReference(env, arena, base, c, n, v.id, depth);
      if v.id !in c.refs {
        var c1, n1 := c.(refs := c.refs[v.id := c.next]), n.(refs := n.refs[v.id := c.next]);
        KindMoved(env[v.id], base);
        SlotMoves(env, arena, base, c1, n1, env[v.id], depth);
      }
    } else if Complex(v) {
      NumbersInline(env, n, v);
      NumbersInline(arena, MovedNumbering(n, base), Relocate(v, base));
      SlotMoves(env, arena, base, c, n, v, depth);
    } else {
      ScalarMoves(env, arena, base, c, n, v, depth);
    }
  }

  lemma OpensReference(env: seq<Value>, arena: seq<Value>, base: nat, c: Context, n: Numbering, id: nat, depth: nat)
    requires Holds(arena, env, base) && Level(c, n) && WriteValue(env, c, Reference(id), depth).Ok?
    ensures id < |env| && Complex(env[id]) && Relocate(Reference(id), base) == Reference(id + base)
    ensures id in c.refs ==>
      && Moves(WriteValue(env, c, Reference(id), depth),
           WriteValue(arena, MovedContext(c, base), Reference(id + base), depth), n, base)
      && NumberValue(env, n, Reference(id)) == (Reference(n.refs[id]), n)
      && NumberValue(arena, MovedNumbering(n, base), Reference(id + base)) ==
           (Reference(n.refs[id]), MovedNumbering(n, base))
    ensures id !in c.refs ==>
      var c1, n1 := c.(refs := c.refs[id := c.next]), n.(refs := n.refs[id := c.next]);
      && c.next < MAX_REFERENCES
      && WriteValue(env, c, Reference(id), depth) == WriteValue(env, c1, env[id], depth)
      && NumberValue(env, n, Reference(id)) == NumberComplex(env, n1, env[id])
      && Complex(Relocate(env[id], base))
      && WriteValue(arena, MovedContext(c, base), Reference(id + base), depth) ==
         WriteValue(arena, MovedContext(c1, base), Relocate(env[id], base), depth)
      && NumberValue(arena, MovedNumbering(n, base), Reference(id + base)) ==
         NumberComplex(arena, MovedNumbering(n1, base), Relocate(env[id], base))
  {
    hide WriteComplex, NumberComplex, WriteU29, MovedRefs;
    MovedOne(c.refs, base, id, c.next);
    KindMoved(env[id], base);
    assert arena[base + id] == Relocate(env[id], base);
  }

  lemma ScalarMoves(env: seq<Value>, arena: seq<Value>, base: nat, c: Context, n: Numbering, v: Value, depth: nat)
    requires Level(c, n) && !v.Reference? && !Complex(v) && WriteValue(env, c, v, depth).Ok?
    ensures NumberValue(env, n, v) == (NormalScalar(v), n)
    ensures NumberValue(arena, MovedNumbering(n, base), v) == (NormalScalar(v), MovedNumbering(n, base))
    ensures Moves(WriteValue(env, c, v, depth), WriteValue(arena, MovedContext(c, base), v, depth), n, base)
  {
    hide WriteComplex, WriteString, WriteU29, Indexed, MovedRefs;
    if v.String? {
      StringMoves(c, v.s, base);
    }
  }

  lemma NumbersInline(env: seq<Value>, n: Numbering, v: Value)
    requires Complex(v)
    ensures NumberValue(env, n, v) == NumberComplex(env, n, v)
  {
    hide NumberComplex;
  }

  lemma {:induction false} SlotMoves(env: seq<Value>, arena: seq<Value>, base: nat, c: Context, n: Numbering, v: Value,
          depth: nat)
    requires Complex(v) && Complex(Relocate(v, base)) && Holds(arena, env, base) && Level(c, n)
             && WriteValue(env, c, v, depth).Ok?
    ensures var (x, n') := NumberComplex(env, n, v);
            && Moves(WriteValue(env, c, v, depth), WriteValue(arena, MovedContext(c, base), Relocate(v, base), depth),
                 n', base)
            && NumberComplex(arena, MovedNumbering(n, base), Relocate(v, base)) == (x, MovedNumbering(n', base))
    decreases Rank(depth), 1, 0
  {
    hide WriteValue, WriteComplex, NumberChildren, Relocate, MovedRefs, WriteU29;
    InlineWrites(env, c, v, depth);
    var c0, n0 := c.(next := c.next + 1), n.(objects := n.objects + [Null]);
    ChildrenMove(env, arena, base, c0, n0, v, depth);
    KindMoved(v, base);
    WritesInline(arena, MovedContext(c, base), Relocate(v, base), depth);
    assert MovedContext(c0, base) == MovedContext(c, base).(next := c.next + 1);
    assert MovedNumbering(n0, base) == MovedNumbering(n, base).(objects := n.objects + [Null]);
  }

  lemma InlineWrites(env: seq<Value>, c: Context, v: Value, depth: nat)
    requires Complex(v) && WriteValue(env, c, v, depth).Ok?
    ensures c.next < MAX_REFERENCES && depth <= MAX_DEPTH
    ensures var w := WriteComplex(env, c.(next := c.next + 1), v, depth);
            w.Ok? && WriteValue(env, c, v, depth) == Ok(([ObjectMarker(v)] + w.value.0, w.value.1))
  {
    hide WriteComplex;
  }

  lemma WritesInline(env: seq<Value>, c: Context, v: Value, depth: nat)
    requires Complex(v) && c.next < MAX_REFERENCES && depth <= MAX_DEPTH
             && WriteComplex(env, c.(next := c.next + 1), v, depth).Ok?
    ensures var w := WriteComplex(env, c.(next := c.next + 1), v, depth);
            WriteValue(env, c, v, depth) == Ok(([ObjectMarker(v)] + w.value.0, w.value.1))
  {
    hide WriteComplex;
  }

  lemma {:induction false} ChildrenMove(env: seq<Value>, arena: seq<Value>, base: nat, c: Context, n: Numbering,
          v: Value, depth: nat)
    requires Complex(v) && Complex(Relocate(v, base)) && depth <= MAX_DEPTH && Holds(arena, env, base) && Level(c, n)
    requires WriteComplex(env, c, v, depth).Ok?
    ensures var (x, n') := NumberChildren(env, n, v);
            && Moves(WriteComplex(env, c, v, depth),
                 WriteComplex(arena, MovedContext(c, base), Relocate(v, base), depth), n', base)
            && NumberChildren(arena, MovedNumbering(n, base), Relocate(v, base)) == (x, MovedNumbering(n', base))
    decreases Rank(depth), 0, 1
  {
    hide WriteMembers, WriteValues, WriteTrait, WriteString, NumberMembers, NumberValues, Indexed, WriteU29, MovedRefs,
        RelocateAll, RelocateMembers;
    match v
    case Array(dense, associative) =>
      MembersMove(env, arena, base, c, n, associative, depth + 1);
      var c1, n1 := WriteMembers(env, c, associative, depth + 1).value.1, NumberMembers(env, n, associative).1;
      ValuesMove(env, arena, base, c1, n1, dense, depth + 1);
    case Object(_, _, _) => ObjectMoves(env, arena, base, c, n, v, depth);
    case VectorObject(name, _, values) =>
      StringMoves(c, name, base);
      ValuesMove(env, arena, base, WriteString(c, name).value.1, n, values, depth + 1);
    case Date(_) =>
    case Blob(_, _) =>
  }

  lemma {:induction false} ObjectMoves(env: seq<Value>, arena: seq<Value>, base: nat, c: Context, n: Numbering,
          v: Value, depth: nat)
    requires v.Object? && depth <= MAX_DEPTH && Holds(arena, env, base) && Level(c, n)
             && WriteComplex(env, c, v, depth).Ok?
    ensures var (x, n') := NumberChildren(env, n, v);
            && Moves(WriteComplex(env, c, v, depth),
                 WriteComplex(arena, MovedContext(c, base), Relocate(v, base), depth), n', base)
            && NumberChildren(arena, MovedNumbering(n, base), Relocate(v, base)) == (x, MovedNumbering(n', base))
    decreases Rank(depth), 0, 0
  {
    hide WriteMembers, WriteValues, WriteTrait, NumberMembers, NumberValues, Indexed, MovedRefs, RelocateAll,
        RelocateMembers;
    var moved := RelocateMembers(v.sealed, base);
    TraitMoved(v, base);
    TraitMoves(c, TraitOf(v), base);
    MembersMoved(v.sealed, base);
    var c1 := WriteTrait(c, TraitOf(v)).value.1;
    ValuesMove(env, arena, base, c1, n, Values(v.sealed), depth + 1);
    SealedNumbered(env, n, v.sealed);
    SealedNumbered(arena, MovedNumbering(n, base), moved);
    if v.dynamic.Dynamic? {
      var c2 := WriteValues(env, c1, Values(v.sealed), depth + 1).value.1;
      MembersMove(env, arena, base, c2, NumberMembers(env, n, v.sealed).1, v.dynamic.members, depth + 1);
    }
  }

  lemma {:induction false} ValuesMove(env: seq<Value>, arena: seq<Value>, base: nat, c: Context, n: Numbering,
          vs: seq<Value>, depth: nat)
    requires Holds(arena, env, base) && Level(c, n) && WriteValues(env, c, vs, depth).Ok?
    ensures var (xs, n') := NumberValues(env, n, vs);
            && Moves(WriteValues(env, c, vs, depth),
                 WriteValues(arena, MovedContext(c, base), RelocateAll(vs, base), depth), n', base)
            && NumberValues(arena, MovedNumbering(n, base), RelocateAll(vs, base)) == (xs, MovedNumbering(n', base))
    decreases Rank(depth), 3, |vs|
  {
    hide WriteValue, NumberValue, Indexed, MovedRefs, Relocate;
    if vs != [] {
      ValueMoves(env, arena, base, c, n, vs[0], depth);
      var c1, n1 := WriteValue(env, c, vs[0], depth).value.1, NumberValue(env, n, vs[0]).1;
      ValuesMove(env, arena, base, c1, n1, vs[1..], depth);
      assert RelocateAll(vs, base)[1..] == RelocateAll(vs[1..], base);
    }
  }

  lemma {:induction false} MembersMove(env: seq<Value>, arena: seq<Value>, base: nat, c: Context, n: Numbering,
          ms: seq<Member>, depth: nat)
    requires Holds(arena, env, base) && Level(c, n) && WriteMembers(env, c, ms, depth).Ok?
    ensures var (xs, n') := NumberMembers(env, n, ms);
            && Moves(WriteMembers(env, c, ms, depth),
                 WriteMembers(arena, MovedContext(c, base), RelocateMembers(ms, base), depth), n', base)
            && NumberMembers(arena, MovedNumbering(n, base), RelocateMembers(ms, base)) ==
                 (xs, MovedNumbering(n', base))
    decreases Rank(depth), 3, |ms|
  {
    hide WriteValue, WriteString, NumberValue, Indexed, MovedRefs, Relocate, WriteU29;
    if ms != [] {
      var name, value := ms[0].name, ms[0].value;
      StringMoves(c, name, base);
      var c1 := WriteString(c, name).value.1;
      ValueMoves(env, arena, base, c1, n, value, depth);
      var c2, n1 := WriteValue(env, c1, value, depth).value.1, NumberValue(env, n, value).1;
      MembersMove(env, arena, base, c2, n1, ms[1..], depth);
      assert RelocateMembers(ms, base)[1..] == RelocateMembers(ms[1..], base);
    }
  }
}
