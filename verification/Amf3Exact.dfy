/** Exactly which documents come back: those whose reachable members all have names. */
module Amf3Exact {
  import opened Base
  import opened Amf3
  import opened Amf3Graph
  import opened Amf3Proofs
  import opened Amf3RoundTrip
  import opened Amf3Same
  import opened Amf3Rewrite
  import opened Amf3Demand

  // ----- whatever is read is well formed ---------------------------------------------------

  lemma StringFormed(s: seq<byte>, d: DecodeContext)
    requires ReadString(s, d).Ok?
    ensures ReadString(s, d).value.2.objects == d.objects
  {
  }

  lemma {:induction false} StringsFormed(s: seq<byte>, d: DecodeContext, n: nat)
    requires ReadStrings(s, d, n).Ok?
    ensures ReadStrings(s, d, n).value.2.objects == d.objects
    decreases n
  {
    hide ReadString;
    if n > 0 {
      StringFormed(s, d);
      var (_, s1, d1) := ReadString(s, d).value;
      StringsFormed(s1, d1, n - 1);
    }
  }

  lemma TraitFormed(s: seq<byte>, d: DecodeContext, header: nat)
    requires ReadTrait(s, d, header).Ok?
    ensures ReadTrait(s, d, header).value.2.objects == d.objects
  {
    hide ReadString, ReadStrings;
    if header / 2 % 2 != 0 {
      StringFormed(s, d);
      var (_, s1, d1) := ReadString(s, d).value;
      StringsFormed(s1, d1, header / 16);
    }
  }

  lemma {:induction false} ZipFormed(names: seq<Str>, values: seq<Value>)
    requires |names| == |values| && AllWellFormed(values)
    ensures MembersWellFormed(Zip(names, values))
  {
    hide WellFormed;
    if names != [] {
      ZipFormed(names[1..], values[1..]);
    }
  }

  /** Reserving a slot and filling it later keep the arena well formed. */
  lemma SlotFormed(d: DecodeContext)
    requires AllWellFormed(d.objects)
    ensures AllWellFormed(d.objects + [Null])
  {
  }

  lemma FinishFormed(d: DecodeContext, slot: nat, v: Value)
    requires AllWellFormed(d.objects) && WellFormed(v)
    ensures AllWellFormed(Finish(d, slot, v).1.objects)
  {
    hide WellFormed;
  }

  lemma {:induction false} ValueFormed(s: seq<byte>, d: DecodeContext, depth: nat)
    requires AllWellFormed(d.objects) && ReadValue(s, d, depth).Ok?
    ensures var (v, _, d') := ReadValue(s, d, depth).value; WellFormed(v) && AllWellFormed(d'.objects)
    decreases |s|, 0, 0
  {
    hide ReadU29, ReadString, ReadComplex, AllWellFormed;
    var marker, s1 := s[0], s[1..];
    if marker == 0x06 {
      StringFormed(s1, d);
    } else if marker in {0x07, 0x08, 0x09, 0x0A, 0x0B, 0x0C, 0x10} {
      var (u29, s2) := ReadU29(s1).value;
      if u29 % 2 == 1 {
        ComplexFormed(marker, u29, s2, d, depth);
      }
    }
  }

  lemma {:induction false} ComplexFormed(marker: byte, u29: nat, s: seq<byte>, d: DecodeContext, depth: nat)
    requires marker in {0x07, 0x08, 0x09, 0x0A, 0x0B, 0x0C, 0x10} && u29 % 2 == 1
    requires AllWellFormed(d.objects) && ReadComplex(marker, u29, s, d, depth).Ok?
    ensures var (v, _, d') := ReadComplex(marker, u29, s, d, depth).value; WellFormed(v) && AllWellFormed(d'.objects)
    decreases |s|, 2, 1
  {
    hide ReadString, ReadTrait, ReadValues, ReadMembers, ReadObjectBody, AllWellFormed;
    SlotFormed(d);
    if marker == 0x09 {
      ArrayFormed(u29, s, d, depth);
    } else if marker == 0x0A {
      TraitFormed(s, d, u29);
      var (t, s1, d1) := ReadTrait(s, d, u29).value;
      ObjectFormed(t, s1, d1, depth);
    } else if marker == 0x10 {
      VectorFormed(u29, s, d, depth);
    } else if marker == 0x08 {
      FinishFormed(PushObject(d, Null).value, |d.objects|, Date(Take(s, 8).value.0));
    } else {
      var kind := if marker == 0x07 then XmlDoc else if marker == 0x0B then Xml else ByteArray;
      FinishFormed(PushObject(d, Null).value, |d.objects|, Blob(kind, Take(s, u29 / 2).value.0));
    }
  }

  lemma {:induction false} ArrayFormed(u29: nat, s: seq<byte>, d: DecodeContext, depth: nat)
    requires u29 % 2 == 1 && AllWellFormed(d.objects) && ReadComplex(0x09, u29, s, d, depth).Ok?
    ensures var (v, _, d') := ReadComplex(0x09, u29, s, d, depth).value; WellFormed(v) && AllWellFormed(d'.objects)
    decreases |s|, 2, 0
  {
    hide ReadValues, ReadMembers, AllWellFormed;
    SlotFormed(d);
    var d1 := PushObject(d, Null).value;
    MembersFormed(s, d1, depth + 1, 0, u29 / 2);
    var (members, s1, d2) := ReadMembers(s, d1, depth + 1, 0, u29 / 2).value;
    ValuesFormed(s1, d2, depth + 1, u29 / 2);
    var (items, _, d3) := ReadValues(s1, d2, depth + 1, u29 / 2).value;
    FinishFormed(d3, |d.objects|, Array(items, members));
  }

  lemma {:induction false} VectorFormed(u29: nat, s: seq<byte>, d: DecodeContext, depth: nat)
    requires u29 % 2 == 1 && AllWellFormed(d.objects) && ReadComplex(0x10, u29, s, d, depth).Ok?
    ensures var (v, _, d') := ReadComplex(0x10, u29, s, d, depth).value; WellFormed(v) && AllWellFormed(d'.objects)
    decreases |s|, 2, 0
  {
    hide ReadString, ReadValues, AllWellFormed;
    var (flag, s1) := Take(s, 1).value;
    StringFormed(s1, d);
    var (name, s2, d1) := ReadString(s1, d).value;
    SlotFormed(d1);
    var d2 := PushObject(d1, Null).value;
    ValuesFormed(s2, d2, depth + 1, u29 / 2);
    var (items, _, d3) := ReadValues(s2, d2, depth + 1, u29 / 2).value;
    FinishFormed(d3, |d.objects|, VectorObject(name, flag[0] != 0, items));
  }

  lemma {:induction false} ObjectFormed(t: Trait, s: seq<byte>, d: DecodeContext, depth: nat)
    requires AllWellFormed(d.objects) && ReadObjectBody(t, s, d, depth).Ok?
    ensures var (v, _, d') := ReadObjectBody(t, s, d, depth).value; WellFormed(v) && AllWellFormed(d'.objects)
    decreases |s|, 2, 0
  {
    hide ReadValues, ReadMembers, AllWellFormed, MembersWellFormed;
    SlotFormed(d);
    var d1 := PushObject(d, Null).value;
    ValuesFormed(s, d1, depth + 1, |t.names|);
    var (fixed, s1, d2) := ReadValues(s, d1, depth + 1, |t.names|).value;
    ZipFormed(t.names, fixed);
    var name := if t.className == [] then None else Some(t.className);
    if t.dynamic {
      MembersFormed(s1, d2, depth + 1, 0, 0);
      var (members, _, d3) := ReadMembers(s1, d2, depth + 1, 0, 0).value;
      FinishFormed(d3, |d.objects|, Object(name, Zip(t.names, fixed), Dynamic(members)));
    } else {
      FinishFormed(d2, |d.objects|, Object(name, Zip(t.names, fixed), NotDynamic));
    }
  }

  lemma {:induction false} ValuesFormed(s: seq<byte>, d: DecodeContext, depth: nat, n: nat)
    requires AllWellFormed(d.objects) && ReadValues(s, d, depth, n).Ok?
    ensures var (vs, _, d') := ReadValues(s, d, depth, n).value; AllWellFormed(vs) && AllWellFormed(d'.objects)
    decreases |s|, 1, n
  {
    hide ReadValue, WellFormed;
    if n > 0 {
      ValueFormed(s, d, depth);
      var (first, s1, d1) := ReadValue(s, d, depth).value;
      ValuesFormed(s1, d1, depth, n - 1);
    }
  }

  lemma {:induction false} MembersFormed(s: seq<byte>, d: DecodeContext, depth: nat, count: nat, dense: nat)
    requires AllWellFormed(d.objects) && ReadMembers(s, d, depth, count, dense).Ok?
    ensures var (ms, _, d') := ReadMembers(s, d, depth, count, dense).value;
            MembersWellFormed(ms) && Named(ms) && AllWellFormed(d'.objects)
    decreases |s|, 1, 0
  {
    hide ReadValue, ReadString, WellFormed, AllWellFormed;
    StringFormed(s, d);
    var (name, s1, d1) := ReadString(s, d).value;
    if name != [] {
      ValueFormed(s1, d1, depth);
      var (value, s2, d2) := ReadValue(s1, d1, depth).value;
      MembersFormed(s2, d2, depth, count + 1, dense);
    }
  }

  lemma {:induction false} RootsFormed(s: seq<byte>, d: DecodeContext, count: nat)
    requires AllWellFormed(d.objects) && ReadRoots(s, d, count).Ok?
    ensures var (vs, d') := ReadRoots(s, d, count).value; AllWellFormed(vs) && AllWellFormed(d'.objects)
    decreases |s|
  {
    hide ReadValue, WellFormed;
    if s != [] {
      ValueFormed(s, d, 0);
      var (_, s1, d1) := ReadValue(s, d, 0).value;
      RootsFormed(s1, d1, count + 1);
    }
  }

  /** Whatever the bytes, a decoded document names every member. */
  lemma DecodedWellFormed(bytes: seq<byte>)
    requires DecodeDocument(bytes).Ok?
    ensures WellFormedDocument(DecodeDocument(bytes).value)
  {
    hide ReadRoots, WellFormed;
    RootsFormed(bytes, NewDecodeContext, 0);
  }

  // ----- a renumbered document is its own renumbering ------------------------------------------

  /** The numbering of the renumbered document, at the same point of the walk. */
  ghost function Again(n: Numbering): Numbering {
    Numbering(Diagonal(|n.objects|), n.objects)
  }

  lemma {:induction false} ValueSettles(env: seq<Value>, arena: seq<Value>, c: Context, n: Numbering, v: Value,
          depth: nat)
    requires Aligned(c, n) && Kinds(env, n.refs, arena) && WriteValue(env, c, v, depth).Ok?
    requires Filled(arena, n, NumberValue(env, n, v).1)
    ensures var (w, n') := NumberValue(env, n, v);
            NumberValue(arena, Again(n), w) == (w, Again(n'))
    decreases Rank(depth), if v.Reference? then 2 else 1, 1
  {
    hide WriteValue, NumberComplex, Kinds;
    Opening(env, c, v, depth);
    if v.Reference? {
      if v.id in n.refs {
        assert n.refs[v.id] in Again(n).refs;
      } else {
        var c1, n1 := c.(refs := c.refs[v.id := c.next]), n.(refs := n.refs[v.id := |n.objects|]);
        SlotKinds(env, arena, n, v.id);
        SlotSettles(env, arena, c1, n1, env[v.id], depth);
        assert Again(n1) == Again(n);
      }
    } else if Complex(v) {
      SlotSettles(env, arena, c, n, v, depth);
    }
  }

  lemma {:induction false} SlotSettles(env: seq<Value>, arena: seq<Value>, c: Context, n: Numbering, v: Value,
          depth: nat)
    requires Complex(v) && n.refs == c.refs && |n.objects| == c.next && Below(n, c.next + 1)
    requires WriteValue(env, c, v, depth).Ok? && Filled(arena, n, NumberComplex(env, n, v).1)
    requires Kinds(env, n.refs, arena)
    ensures var (w, n') := NumberComplex(env, n, v);
            NumberValue(arena, Again(n), w) == (w, Again(n'))
    decreases Rank(depth), 1, 0
  {
    hide WriteComplex, WriteValue, NumberChildren, Kinds;
    var slot := c.next;
    var c0, n0 := c.(next := slot + 1), n.(objects := n.objects + [Null]);
    var (w, n1) := NumberChildren(env, n0, v);
    ChildrenKind(env, n0, v);
    InlineOpens(env, c, v, depth);
    ChildrenSettle(env, arena, c0, n0, v, depth);
    SlotAgain(arena, n, w, n1);
  }

  lemma SlotAgain(arena: seq<Value>, n: Numbering, w: Value, n1: Numbering)
    requires |n.objects| < |arena| && arena[|n.objects|] == w && Complex(w) && |n.objects| < |n1.objects|
    requires NumberChildren(arena, Again(n.(objects := n.objects + [Null])), w) == (w, Again(n1))
    ensures NumberValue(arena, Again(n), Reference(|n.objects|)) ==
            (Reference(|n.objects|), Again(n1.(objects := n1.objects[|n.objects| := w])))
  {
    hide NumberChildren;
    var slot := |n.objects|;
    assert slot !in Again(n).refs;
    var m := Again(n).(refs := Again(n).refs[slot := slot]);
    assert m.(objects := m.objects + [Null]) == Again(n.(objects := n.objects + [Null]));
  }

  lemma {:induction false} ChildrenSettle(env: seq<Value>, arena: seq<Value>, c: Context, n: Numbering, v: Value,
          depth: nat)
    requires Complex(v) && depth <= MAX_DEPTH && Aligned(c, n) && Kinds(env, n.refs, arena)
             && WriteComplex(env, c, v, depth).Ok?
    requires Filled(arena, n, NumberChildren(env, n, v).1)
    ensures var (w, n') := NumberChildren(env, n, v);
            Complex(w) && NumberChildren(arena, Again(n), w) == (w, Again(n'))
    decreases Rank(depth), 0, 1
  {
    hide WriteMembers, WriteValues, WriteTrait, WriteString, NumberMembers, NumberValues, Progress, Kinds, Indexed,
        WriteU29;
    match v
    case Array(dense, associative) =>
      MembersSame(env, n, associative);
      var (members, n1) := NumberMembers(env, n, associative);
      ProgressBelow(env, n, n1);
      ValuesSame(env, n1, dense);
      FilledFirst(env, arena, n, n1, NumberValues(env, n1, dense).1);
      MembersRewrite(env, arena, c, n, associative, depth + 1);
      var c1 := WriteMembers(env, c, associative, depth + 1).value.1;
      MembersSettle(env, arena, c, n, associative, depth + 1);
      ValuesSettle(env, arena, c1, n1, dense, depth + 1);
    case Object(_, _, _) => ObjectSettles(env, arena, c, n, v, depth);
    case VectorObject(name, _, values) =>
      NameRewrites(c, name);
      ValuesSettle(env, arena, WriteString(c, name).value.1, n, values, depth + 1);
    case Date(_) =>
    case Blob(_, _) =>
  }

  lemma {:induction false} ObjectSettles(env: seq<Value>, arena: seq<Value>, c: Context, n: Numbering, v: Value,
          depth: nat)
    requires v.Object? && depth <= MAX_DEPTH && Aligned(c, n) && Kinds(env, n.refs, arena)
             && WriteComplex(env, c, v, depth).Ok?
    requires Filled(arena, n, NumberChildren(env, n, v).1)
    ensures var (w, n') := NumberChildren(env, n, v);
            Complex(w) && NumberChildren(arena, Again(n), w) == (w, Again(n'))
    decreases Rank(depth), 0, 0
  {
    hide WriteMembers, WriteValues, WriteTrait, NumberMembers, NumberValues, Progress, Kinds, Indexed;
    var (fixed, n1) := NumberMembers(env, n, v.sealed);
    MembersSame(env, n, v.sealed);
    ProgressBelow(env, n, n1);
    if v.dynamic.Dynamic? {
      MembersSame(env, n1, v.dynamic.members);
      FilledFirst(env, arena, n, n1, NumberMembers(env, n1, v.dynamic.members).1);
    }
    SealedNumbered(env, n, v.sealed);
    TraitRewrites(c, TraitOf(v));
    var c1 := WriteTrait(c, TraitOf(v)).value.1;
    ValuesSettle(env, arena, c1, n, Values(v.sealed), depth + 1);
    SealedAgain(arena, n, Names(v.sealed), NumberValues(env, n, Values(v.sealed)).0, n1);
    if v.dynamic.Dynamic? {
      ValuesRewrite(env, arena, c1, n, Values(v.sealed), depth + 1);
      var c2 := WriteValues(env, c1, Values(v.sealed), depth + 1).value.1;
      MembersSettle(env, arena, c2, n1, v.dynamic.members, depth + 1);
    }
  }

  lemma SealedAgain(arena: seq<Value>, n: Numbering, names: seq<Str>, ws: seq<Value>, n1: Numbering)
    requires |names| == |ws| && NumberValues(arena, Again(n), ws) == (ws, Again(n1))
    ensures NumberMembers(arena, Again(n), Zip(names, ws)) == (Zip(names, ws), Again(n1))
  {
    ZipParts(names, ws);
    SealedNumbered(arena, Again(n), Zip(names, ws));
  }

  lemma {:induction false} ValuesSettle(env: seq<Value>, arena: seq<Value>, c: Context, n: Numbering, vs: seq<Value>,
          depth: nat)
    requires Aligned(c, n) && Kinds(env, n.refs, arena) && WriteValues(env, c, vs, depth).Ok?
    requires Filled(arena, n, NumberValues(env, n, vs).1)
    ensures var (ws, n') := NumberValues(env, n, vs);
            NumberValues(arena, Again(n), ws) == (ws, Again(n'))
    decreases Rank(depth), 3, |vs|
  {
    hide WriteValue, NumberValue, Progress, Kinds, Indexed;
    if vs != [] {
      ValueSame(env, n, vs[0]);
      var (first, n1) := NumberValue(env, n, vs[0]);
      ProgressBelow(env, n, n1);
      ValuesSame(env, n1, vs[1..]);
      var (others, n2) := NumberValues(env, n1, vs[1..]);
      FilledFirst(env, arena, n, n1, n2);
      ValueRewrites(env, arena, c, n, vs[0], depth);
      ValueSettles(env, arena, c, n, vs[0], depth);
      ValuesSettle(env, arena, WriteValue(env, c, vs[0], depth).value.1, n1, vs[1..], depth);
      assert ([first] + others)[1..] == others;
    }
  }

  lemma {:induction false} MembersSettle(env: seq<Value>, arena: seq<Value>, c: Context, n: Numbering, ms: seq<Member>,
          depth: nat)
    requires Aligned(c, n) && Kinds(env, n.refs, arena) && WriteMembers(env, c, ms, depth).Ok?
    requires Filled(arena, n, NumberMembers(env, n, ms).1)
    ensures var (ws, n') := NumberMembers(env, n, ms);
            NumberMembers(arena, Again(n), ws) == (ws, Again(n'))
    decreases Rank(depth), 3, |ms|
  {
    hide WriteValue, WriteString, NumberValue, Progress, Kinds, Indexed, WriteU29;
    if ms != [] {
      var (name, value) := (ms[0].name, ms[0].value);
      ValueSame(env, n, value);
      var (first, n1) := NumberValue(env, n, value);
      ProgressBelow(env, n, n1);
      MembersSame(env, n1, ms[1..]);
      var (others, n2) := NumberMembers(env, n1, ms[1..]);
      FilledFirst(env, arena, n, n1, n2);
      NameRewrites(c, name);
      var c1 := WriteString(c, name).value.1;
      ValueRewrites(env, arena, c1, n, value, depth);
      ValueSettles(env, arena, c1, n, value, depth);
      MembersSettle(env, arena, WriteValue(env, c1, value, depth).value.1, n1, ms[1..], depth);
      assert ([Member(name, first)] + others)[1..] == others;
    }
  }

  /** Renumbering an encodable document a second time changes nothing. */
  lemma RenumberSettles(doc: Document)
    requires EncodeDocument(doc).Ok?
    ensures Renumber(Renumber(doc)) == Renumber(doc)
  {
    hide WriteValues, NumberValues;
    var start := Numbering(map[], []);
    var n := NumberValues(doc.objects, start, doc.roots).1;
    ValuesSettle(doc.objects, n.objects, NewEncodeContext, start, doc.roots, 0);
    assert Again(start) == start;
  }

  /** One value on its own comes back, if what it reaches is well formed. */
  lemma SingleExactly(env: seq<Value>, v: Value, rest: seq<byte>)
    requires WriteValue(env, NewEncodeContext, v, 0).Ok?
    requires var (u, m) := NumberValue(env, Numbering(map[], []), v); WellFormed(u) && AllWellFormed(m.objects)
    ensures var (out, c) := WriteValue(env, NewEncodeContext, v, 0).value;
            var (u, m) := NumberValue(env, Numbering(map[], []), v);
            var r := ReadValue(out + rest, NewDecodeContext, 0);
            if Fits(c) then
              r.Ok? && r.value.0 == u && r.value.1 == rest && r.value.2.objects == m.objects && c.next == |m.objects|
            else r.Err?
  {
    hide WriteValue, ReadValue, NumberValue, WellFormed;
    var start := Numbering(map[], []);
    var (u, m) := NumberValue(env, start, v);
    assert Identity(NewEncodeContext) == NewEncodeContext && Again(start) == start;
    ValueRewrites(env, m.objects, NewEncodeContext, start, v, 0);
    ValueSettles(env, m.objects, NewEncodeContext, start, v, 0);
    SingleRoundTrip(m.objects, u, rest);
  }

  // ----- the exact condition -----------------------------------------------------------------------

  /** What the reader's tables and its count of roots allow. */
  ghost predicate Affordable(doc: Document) {
    Tabled(DocumentNeeds(doc)) && |doc.roots| <= MAX_COLLECTION
  }

  /** A document comes back, in first-visit numbering, exactly if every member it reaches has a
      name and its distinct strings, traits and roots are within the reader's tables. */
  lemma RoundTripExactly(doc: Document)
    requires EncodeDocument(doc).Ok?
    ensures var read, renumbered := DecodeDocument(EncodeDocument(doc).value.0), Renumber(doc);
            && (read == Ok(renumbered) <==> Affordable(renumbered) && WellFormedDocument(renumbered))
            && (WellFormedDocument(renumbered) ==> (read.Ok? <==> Affordable(renumbered)))
  {
    hide DecodeDocument, EncodeDocument, Renumber, WellFormedDocument, DocumentNeeds, Tabled;
    var bytes := EncodeDocument(doc).value.0;
    var renumbered := Renumber(doc);
    RenumberRewrites(doc);
    RenumberSettles(doc);
    CountsNeeds(doc);
    assert |renumbered.roots| == |doc.roots| by { RootsKept(doc); }
    if WellFormedDocument(renumbered) {
      DocumentRoundTrip(renumbered);
    } else if DecodeDocument(bytes).Ok? {
      DecodedWellFormed(bytes);
    }
  }

  lemma RootsKept(doc: Document)
    ensures |Renumber(doc).roots| == |doc.roots|
  {
    hide NumberValues;
  }

  /** Re-encoding whatever came back gives identical bytes. */
  lemma ReencodeIdentical(doc: Document)
    requires EncodeDocument(doc).Ok? && WellFormedDocument(Renumber(doc))
             && DecodeDocument(EncodeDocument(doc).value.0).Ok?
    ensures var bytes := EncodeDocument(doc).value.0;
            var again := EncodeDocument(DecodeDocument(bytes).value);
            again.Ok? && again.value.0 == bytes
  {
    hide EncodeDocument, DecodeDocument, Renumber, WellFormedDocument;
    RoundTripExactly(doc);
    RenumberRewrites(doc);
  }

  const NAMELESS := Array([], [Member([], Null)])

  lemma NamelessWritten()
    ensures EncodeDocument(Document([NAMELESS], [])).Ok?
  {
    hide NumberValue;
    var ms := [Member([], Null)];
    var c := NewEncodeContext.(next := 1);
    assert WriteMembers([], c, ms[1..], 1).Ok?;
    assert WriteMembers([], c, ms, 1).Ok?;
    assert WriteValue([], NewEncodeContext, NAMELESS, 0).Ok?;
    assert WriteValues([], WriteValue([], NewEncodeContext, NAMELESS, 0).value.1, [NAMELESS][1..], 0).Ok?;
  }

  lemma NamelessNumbered()
    ensures !WellFormedDocument(Renumber(Document([NAMELESS], [])))
  {
    var start, n := Numbering(map[], []), Numbering(map[], [Null]);
    var ms := [Member([], Null)];
    var (members, n1) := NumberMembers([], n, ms);
    assert members[0].name == [];
    assert NumberMembers([], n, ms[1..]) == ([], n);
    assert NumberValues([], n1, []) == ([], n1);
    var w := Array([], members);
    assert NumberChildren([], n, NAMELESS) == (w, n1);
    assert start.(objects := start.objects + [Null]) == n;
    assert NumberComplex([], start, NAMELESS).1.objects[0] == w;
    assert NumberValues([], start, [NAMELESS]).1 == NumberValue([], start, NAMELESS).1;
    assert !WellFormed(w);
  }

  /** An array with a nameless member is accepted by the writer and does not come back. */
  lemma NamelessLost()
    ensures var doc := Document([NAMELESS], []);
            EncodeDocument(doc).Ok? && DecodeDocument(EncodeDocument(doc).value.0) != Ok(Renumber(doc))
  {
    hide *;
    NamelessWritten();
    NamelessNumbered();
    RoundTripExactly(Document([NAMELESS], []));
  }
}
