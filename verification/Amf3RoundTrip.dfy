/** The document round trip: decoding what was encoded gives the first-visit renumbering, unless
    the document holds more distinct strings or traits than the tables have room for. */
module Amf3RoundTrip {
  import opened Base
  import opened Amf3
  import opened Amf3Graph
  import opened Amf3Proofs

  /** Member names are nonempty, since the empty name ends a member list. */
  ghost predicate Named(ms: seq<Member>) {
    forall i :: 0 <= i < |ms| ==> ms[i].name != []
  }

  ghost predicate WellFormed(v: Value)
    decreases v, 0
  {
    match v
    case Array(dense, associative) => AllWellFormed(dense) && MembersWellFormed(associative) && Named(associative)
    case Object(_, sealed, dynamic) =>
      && MembersWellFormed(sealed)
      && (dynamic.Dynamic? ==> MembersWellFormed(dynamic.members) && Named(dynamic.members))
    case VectorObject(_, _, values) => AllWellFormed(values)
    case _ => true
  }

  ghost predicate AllWellFormed(vs: seq<Value>)
    decreases vs, 1
  {
    forall i :: 0 <= i < |vs| ==> WellFormed(vs[i])
  }

  ghost predicate MembersWellFormed(ms: seq<Member>)
    decreases ms, 1
  {
    forall i :: 0 <= i < |ms| ==> WellFormed(ms[i].value)
  }

  // ----- what reading must give --------------------------------------------------------

  ghost predicate Mirror(c: EncodeContext, d: DecodeContext) {
    Tables(c, d) && c.next == |d.objects| <= MAX_REFERENCES
  }

  function At(c: EncodeContext, d: DecodeContext): Numbering {
    Numbering(c.refs, d.objects)
  }

  /** Every slot handed out lies in the arena. */
  ghost predicate Assigned(c: EncodeContext) {
    forall id :: id in c.refs ==> c.refs[id] < c.next
  }

  /** The reader's state mirrors the writer's, and its arena is the numbering so far. */
  ghost predicate InStep(c: EncodeContext, d: DecodeContext, n: Numbering) {
    Mirror(c, d) && Assigned(c) && n == At(c, d)
  }

  ghost predicate ValueBack(r: ReadOne, numbered: (Value, Numbering), rest: seq<byte>, c': EncodeContext) {
    if Fits(c') then
      r.Ok? && r.value.0 == numbered.0 && r.value.1 == rest && InStep(c', r.value.2, numbered.1)
    else r == Err(TooManyReferences)
  }

  ghost predicate ValuesBack(r: Result<(seq<Value>, seq<byte>, DecodeContext), DecodeError>,
          numbered: (seq<Value>, Numbering),
                             rest: seq<byte>, c': EncodeContext) {
    if Fits(c') then
      r.Ok? && r.value.0 == numbered.0 && r.value.1 == rest && InStep(c', r.value.2, numbered.1)
    else r == Err(TooManyReferences)
  }

  ghost predicate MembersBack(r: Result<(seq<Member>, seq<byte>, DecodeContext), DecodeError>,
          numbered: (seq<Member>, Numbering),
                              rest: seq<byte>, c': EncodeContext) {
    if Fits(c') then
      r.Ok? && r.value.0 == numbered.0 && r.value.1 == rest && InStep(c', r.value.2, numbered.1)
    else r == Err(TooManyReferences)
  }

  // ----- scalars ------------------------------------------------------------------------

  lemma ScalarReads(env: seq<Value>, c: Context, d: DecodeContext, v: Value, depth: nat, rest: seq<byte>)
    requires Mirror(c, d) && Assigned(c) && !v.Reference? && !Complex(v) && WriteValue(env, c, v, depth).Ok?
    ensures var (out, c') := WriteValue(env, c, v, depth).value;
            ValueBack(ReadValue(out + rest, d, depth), NumberValue(env, At(c, d), v), rest, c')
  {
    hide WriteU29, ReadU29, Indexed, Tables, ReadString, WriteString, Fits;
    TablesFit(c, d);
    var (out, c') := WriteValue(env, c, v, depth).value;
    var s := out + rest;
    if v.Integer? && InRange(v.i) {
      IntegerRoundTrip(v.i);
      assert s[1..] == WriteU29(IntegerBits(v.i)) + rest;
      U29RoundTrip(IntegerBits(v.i), rest);
    } else if v.Integer? || v.Double? {
      var bits := if v.Integer? then DoubleOf(v.i) else v.bits;
      assert s[1..] == bits + rest;
      assert s[1..][..8] == bits && s[1..][8..] == rest;
    } else if v.String? {
      assert s[1..] == WriteString(c, v.s).value.0 + rest;
      StringReads(c, d, v.s, rest);
      StringKeeps(c, v.s);
    } else {
      assert s[1..] == rest;
    }
  }

  // ----- references and complex values ----------------------------------------------------

  lemma OpenComplex(v: Value, header: nat, tail: seq<byte>, d: DecodeContext, depth: nat)
    requires Complex(v) && header < 0x2000_0000 && header % 2 == 1 && depth <= MAX_DEPTH
    ensures ObjectMarker(v) in {0x07, 0x08, 0x09, 0x0A, 0x0B, 0x0C, 0x10}
    ensures ReadValue([ObjectMarker(v)] + (WriteU29(header) + tail), d, depth) ==
            ReadComplex(ObjectMarker(v), header, tail, d, depth)
  {
    hide WriteU29, ReadU29, ReadComplex;
    var s := [ObjectMarker(v)] + (WriteU29(header) + tail);
    assert s[1..] == WriteU29(header) + tail;
    U29RoundTrip(header, tail);
  }

  lemma ReferenceReads(v: Value, index: nat, d: DecodeContext, depth: nat, rest: seq<byte>)
    requires Complex(v) && index < |d.objects| <= MAX_REFERENCES && depth <= MAX_DEPTH
    ensures ReadValue([ObjectMarker(v)] + WriteU29(2 * index) + rest, d, depth) == Ok((Reference(index), rest, d))
  {
    hide WriteU29, ReadU29, ReadComplex;
    var s := [ObjectMarker(v)] + WriteU29(2 * index) + rest;
    assert s[1..] == WriteU29(2 * index) + rest;
    U29RoundTrip(2 * index, rest);
  }

  /** Values with no children: their bytes are read, then they take the next slot. */
  lemma LeafReads(env: seq<Value>, c: Context, d: DecodeContext, v: Value, depth: nat, rest: seq<byte>)
    requires Mirror(c, d) && (v.Date? || v.Blob?) && depth <= MAX_DEPTH && c.next < MAX_REFERENCES
    requires Assigned(c.(next := c.next + 1)) && WriteComplex(env, c.(next := c.next + 1), v, depth).Ok?
    ensures var (out, c') := WriteComplex(env, c.(next := c.next + 1), v, depth).value;
            ValueBack(ReadValue([ObjectMarker(v)] + (out + rest), d, depth), NumberComplex(env, At(c, d), v), rest, c')
  {
    hide WriteU29, ReadU29, Indexed, Tables, Fits;
    TablesFit(c, d);
    var (out, c') := WriteComplex(env, c.(next := c.next + 1), v, depth).value;
    var body := if v.Date? then v.millis else v.bytes;
    var header := if v.Date? then 1 else 2 * |v.bytes| + 1;
    assert out + rest == WriteU29(header) + (body + rest);
    OpenComplex(v, header, body + rest, d, depth);
    assert (body + rest)[..|body|] == body && (body + rest)[|body|..] == rest;
    assert (d.objects + [Null])[|d.objects| := v] == d.objects + [v];
    assert Tables(c, d) ==>
        Tables(c', d.(objects := d.objects + [v])) by { TablesOnly(c, d, c', d.(objects := d.objects + [v])); }
    assert Fits(c) ==> Fits(c') by { FitsOnly(c, c'); }
  }

  /** The tables do not depend on the object side of the contexts. */
  lemma TablesOnly(c: EncodeContext, d: DecodeContext, c': EncodeContext, d': DecodeContext)
    requires c'.strings == c.strings && c'.traits == c.traits && c'.stringDemand == c.stringDemand
             && c'.traitDemand == c.traitDemand
    requires d'.strings == d.strings && d'.traits == d.traits
    ensures Tables(c, d) <==> Tables(c', d')
  {
  }

  lemma FitsOnly(c: EncodeContext, c': EncodeContext)
    requires c'.stringDemand == c.stringDemand && c'.traitDemand == c.traitDemand
    ensures Fits(c) <==> Fits(c')
  {
  }

  // ----- the induction -----------------------------------------------------------------------

  lemma {:induction false} ValueReads(env: seq<Value>, c: Context, d: DecodeContext, v: Value, depth: nat,
          rest: seq<byte>)
    requires AllWellFormed(env) && WellFormed(v) && Mirror(c, d) && Assigned(c) && WriteValue(env, c, v, depth).Ok?
    ensures var (out, c') := WriteValue(env, c, v, depth).value;
            ValueBack(ReadValue(out + rest, d, depth), NumberValue(env, At(c, d), v), rest, c')
    decreases Rank(depth), if v.Reference? then 2 else 1, 0
  {
    hide WriteComplex, ReadValue, Tables, Fits, WellFormed, NumberComplex;
    TablesFit(c, d);
    var (out, c') := WriteValue(env, c, v, depth).value;
    if v.Reference? {
      var target := env[v.id];
      if v.id in c.refs {
        ReferenceReads(target, c.refs[v.id], d, depth, rest);
      } else {
        var c1 := c.(refs := c.refs[v.id := c.next]);
        TablesOnly(c, d, c1, d);
        assert WellFormed(target);
        ComplexReads(env, c1, d, target, depth, rest);
        assert out + rest ==
            [ObjectMarker(target)] + (WriteComplex(env, c1.(next := c1.next + 1), target, depth).value.0 + rest);
      }
    } else if Complex(v) {
      ComplexReads(env, c, d, v, depth, rest);
      assert out + rest == [ObjectMarker(v)] + (WriteComplex(env, c.(next := c.next + 1), v, depth).value.0 + rest);
    } else {
      ScalarReads(env, c, d, v, depth, rest);
    }
  }

  lemma {:induction false} ComplexReads(env: seq<Value>, c: Context, d: DecodeContext, v: Value, depth: nat,
          rest: seq<byte>)
    requires AllWellFormed(env) && WellFormed(v) && Complex(v) && depth <= MAX_DEPTH && c.next < MAX_REFERENCES
    requires Mirror(c, d) && Assigned(c.(next := c.next + 1)) && WriteComplex(env, c.(next := c.next + 1), v, depth).Ok?
    ensures var (out, c') := WriteComplex(env, c.(next := c.next + 1), v, depth).value;
            ValueBack(ReadValue([ObjectMarker(v)] + (out + rest), d, depth), NumberComplex(env, At(c, d), v), rest, c')
    decreases Rank(depth), 0, 2
  {
    hide WriteComplex, ReadValue, Indexed, Tables, Fits, NumberComplex;
    match v
    case Array(_, _) => ArrayReads(env, c, d, v, depth, rest);
    case Object(_, _, _) => ObjectReads(env, c, d, v, depth, rest);
    case VectorObject(_, _, _) => VectorReads(env, c, d, v, depth, rest);
    case Date(_) => LeafReads(env, c, d, v, depth, rest);
    case Blob(_, _) => LeafReads(env, c, d, v, depth, rest);
  }

  lemma {:induction false} ArrayReads(env: seq<Value>, c: Context, d: DecodeContext, v: Value, depth: nat,
          rest: seq<byte>)
    requires AllWellFormed(env) && WellFormed(v) && v.Array? && depth <= MAX_DEPTH && c.next < MAX_REFERENCES
    requires Mirror(c, d) && Assigned(c.(next := c.next + 1)) && WriteComplex(env, c.(next := c.next + 1), v, depth).Ok?
    ensures var (out, c') := WriteComplex(env, c.(next := c.next + 1), v, depth).value;
            ValueBack(ReadValue([ObjectMarker(v)] + (out + rest), d, depth), NumberComplex(env, At(c, d), v), rest, c')
    decreases Rank(depth), 0, 1
  {
    hide WriteMembers, WriteValues, ReadMembers, ReadValues, NumberMembers, NumberValues, ReadValue, WriteU29, Tables,
        Fits;
    var c0, d0 := c.(next := c.next + 1), d.(objects := d.objects + [Null]);
    var (out, c') := WriteComplex(env, c0, v, depth).value;
    var (members, c1) := WriteMembers(env, c0, v.associative, depth + 1).value;
    var (items, c2) := WriteValues(env, c1, v.dense, depth + 1).value;
    var header := 2 * |v.dense| + 1;
    var tail := members + (items + rest);
    assert out + rest == WriteU29(header) + tail;
    OpenComplex(v, header, tail, d, depth);
    TablesOnly(c, d, c0, d0);
    MembersRead(env, c0, d0, v.associative, depth + 1, items + rest, 0, |v.dense|);
    if !Fits(c1) {
      Unfit(c1, c2);
    } else {
      var d1 := ReadMembers(tail, d0, depth + 1, 0, |v.dense|).value.2;
      ValuesRead(env, c1, d1, v.dense, depth + 1, rest);
      if Fits(c2) {
        var d2 := ReadValues(items + rest, d1, depth + 1, |v.dense|).value.2;
        TablesFinish(c2, d2, |d.objects|, NumberChildren(env, At(c0, d0), v).0);
      }
    }
  }

  lemma TablesFinish(c: EncodeContext, d: DecodeContext, slot: nat, v: Value)
    requires Tables(c, d)
    ensures Tables(c, Finish(d, slot, v).1)
  {
  }

  lemma {:induction false} VectorReads(env: seq<Value>, c: Context, d: DecodeContext, v: Value, depth: nat,
          rest: seq<byte>)
    requires AllWellFormed(env) && WellFormed(v) && v.VectorObject? && depth <= MAX_DEPTH && c.next < MAX_REFERENCES
    requires Mirror(c, d) && Assigned(c.(next := c.next + 1)) && WriteComplex(env, c.(next := c.next + 1), v, depth).Ok?
    ensures var (out, c') := WriteComplex(env, c.(next := c.next + 1), v, depth).value;
            ValueBack(ReadValue([ObjectMarker(v)] + (out + rest), d, depth), NumberComplex(env, At(c, d), v), rest, c')
    decreases Rank(depth), 0, 1
  {
    hide WriteString, WriteValues, ReadString, ReadValues, NumberValues, ReadValue, WriteU29, Tables, Fits;
    var c0 := c.(next := c.next + 1);
    var (out, c') := WriteComplex(env, c0, v, depth).value;
    var (name, c1) := WriteString(c0, v.typeName).value;
    var (items, c2) := WriteValues(env, c1, v.values, depth + 1).value;
    var header := 2 * |v.values| + 1;
    var flag: seq<byte> := [if v.fixed then 1 else 0];
    var tail := flag + (name + (items + rest));
    assert out + rest == WriteU29(header) + tail;
    OpenComplex(v, header, tail, d, depth);
    assert tail[..1] == flag && tail[1..] == name + (items + rest);
    TablesOnly(c, d, c0, d);
    StringReads(c0, d, v.typeName, items + rest);
    StringKeeps(c0, v.typeName);
    if !Fits(c1) {
      Unfit(c1, c2);
    } else {
      var d1 := ReadString(name + (items + rest), d).value.2;
      var d2 := d1.(objects := d1.objects + [Null]);
      TablesOnly(c1, d1, c1, d2);
      ValuesRead(env, c1, d2, v.values, depth + 1, rest);
      if Fits(c2) {
        var d3 := ReadValues(items + rest, d2, depth + 1, |v.values|).value.2;
        TablesFinish(c2, d3, |d.objects|, NumberChildren(env, At(c1, d2), v).0);
      }
    }
  }

  lemma {:induction false} SealedRead(env: seq<Value>, c: Context, d: DecodeContext, v: Value, depth: nat,
          rest: seq<byte>)
    requires AllWellFormed(env) && v.Object? && WellFormed(v) && Mirror(c, d) && Assigned(c)
    requires WriteValues(env, c, Values(v.sealed), depth).Ok?
    ensures var (out, c') := WriteValues(env, c, Values(v.sealed), depth).value;
            var r := ReadValues(out + rest, d, depth, |v.sealed|);
            var (fixed, n) := NumberMembers(env, At(c, d), v.sealed);
            if Fits(c') then
              r.Ok? && Zip(Names(v.sealed), r.value.0) == fixed && r.value.1 == rest && InStep(c', r.value.2, n)
            else r == Err(TooManyReferences)
    decreases Rank(depth), 4, 0
  {
    hide WriteValues, ReadValues, NumberMembers, NumberValues, Tables, Fits, WellFormed;
    SealedWellFormed(v);
    ValuesRead(env, c, d, Values(v.sealed), depth, rest);
    SealedNumbered(env, At(c, d), v.sealed);
  }

  /** The values of an object whose trait both sides know. `c` counts the object already. */
  lemma {:induction false} ObjectBodyReads(env: seq<Value>, c: Context, d: DecodeContext, v: Value, depth: nat,
          rest: seq<byte>)
    requires AllWellFormed(env) && WellFormed(v) && v.Object? && depth <= MAX_DEPTH && |d.objects| < MAX_REFERENCES
    requires Tables(c, d) && c.next == |d.objects| + 1 && Assigned(c)
             && WriteValues(env, c, Values(v.sealed), depth + 1).Ok?
    requires v.dynamic.Dynamic? ==>
      |v.dynamic.members| <= MAX_COLLECTION
          && WriteMembers(env, WriteValues(env, c, Values(v.sealed), depth + 1).value.1, v.dynamic.members,
          depth + 1).Ok?
    ensures var (fixed, c2) := WriteValues(env, c, Values(v.sealed), depth + 1).value;
            var (members, c') := if v.dynamic.Dynamic? then WriteMembers(env, c2, v.dynamic.members, depth + 1).value
                else ([], c2);
            ValueBack(ReadObjectBody(TraitOf(v), fixed + (members + rest), d, depth), NumberComplex(env, At(c, d), v),
                rest, c')
    decreases Rank(depth), 0, 0
  {
    hide WriteMembers, WriteValues, ReadMembers, ReadValues, NumberMembers, NumberValues, Tables, Fits, WellFormed;
    var (fixed, c2) := WriteValues(env, c, Values(v.sealed), depth + 1).value;
    var (members, c') := if v.dynamic.Dynamic? then WriteMembers(env, c2, v.dynamic.members, depth + 1).value
        else ([], c2);
    var after := fixed + (members + rest);
    var d2 := d.(objects := d.objects + [Null]);
    TablesOnly(c, d, c, d2);
    SealedRead(env, c, d2, v, depth + 1, members + rest);
    if !Fits(c2) {
      Unfit(c2, c');
    } else {
      var d3 := ReadValues(after, d2, depth + 1, |v.sealed|).value.2;
      if v.dynamic.Dynamic? {
        DynamicWellFormed(v);
        MembersRead(env, c2, d3, v.dynamic.members, depth + 1, rest, 0, 0);
        if Fits(c') {
          var d4 := ReadMembers(members + rest, d3, depth + 1, 0, 0).value.2;
          TablesFinish(c', d4, |d.objects|, NumberChildren(env, At(c, d2), v).0);
        }
      } else {
        assert members + rest == rest;
        TablesFinish(c', d3, |d.objects|, NumberChildren(env, At(c, d2), v).0);
      }
    }
  }

  lemma {:induction false} ObjectReads(env: seq<Value>, c: Context, d: DecodeContext, v: Value, depth: nat,
          rest: seq<byte>)
    requires AllWellFormed(env) && WellFormed(v) && v.Object? && depth <= MAX_DEPTH && c.next < MAX_REFERENCES
    requires Mirror(c, d) && Assigned(c.(next := c.next + 1)) && WriteComplex(env, c.(next := c.next + 1), v, depth).Ok?
    ensures var (out, c') := WriteComplex(env, c.(next := c.next + 1), v, depth).value;
            ValueBack(ReadValue([ObjectMarker(v)] + (out + rest), d, depth), NumberComplex(env, At(c, d), v), rest, c')
    decreases Rank(depth), 0, 1
  {
    hide WriteTrait, WriteMembers, WriteValues, ReadTrait, ReadObjectBody, NumberComplex, ReadValue, ReadU29, WriteU29,
        Tables, Fits, WellFormed;
    var c0 := c.(next := c.next + 1);
    var t := TraitOf(v);
    var (out, c') := WriteComplex(env, c0, v, depth).value;
    var (header, c1) := WriteTrait(c0, t).value;
    var (fixed, c2) := WriteValues(env, c1, Values(v.sealed), depth + 1).value;
    var members := if v.dynamic.Dynamic? then WriteMembers(env, c2, v.dynamic.members, depth + 1).value.0 else [];
    var after := fixed + (members + rest);
    assert out + rest == header + after;
    TablesOnly(c, d, c0, d);
    var u29, tail := TraitReads(c0, d, t, after);
    TraitKeeps(c0, t);
    OpenObject(v, out + rest, u29, tail, d, depth);
    if !Fits(c1) {
      Unfit(c1, c');
    } else {
      ObjectBodyReads(env, c1, ReadTrait(tail, d, u29).value.2, v, depth, rest);
    }
  }

  lemma OpenObject(v: Value, s: seq<byte>, header: nat, tail: seq<byte>, d: DecodeContext, depth: nat)
    requires v.Object? && ReadU29(s) == Ok((header, tail)) && header % 2 == 1 && depth <= MAX_DEPTH
    ensures ReadValue([ObjectMarker(v)] + s, d, depth) == ReadComplex(0x0A, header, tail, d, depth)
  {
    hide ReadU29, ReadComplex;
    assert ([ObjectMarker(v)] + s)[1..] == s;
  }

  lemma {:induction false} ValuesWellFormed(ms: seq<Member>)
    requires MembersWellFormed(ms)
    ensures AllWellFormed(Values(ms))
    decreases |ms|
  {
    hide WellFormed;
    if ms != [] {
      ValuesWellFormed(ms[1..]);
    }
  }

  lemma SealedWellFormed(v: Value)
    requires v.Object? && WellFormed(v)
    ensures AllWellFormed(Values(v.sealed))
  {
    ValuesWellFormed(v.sealed);
  }

  lemma DynamicWellFormed(v: Value)
    requires v.Object? && v.dynamic.Dynamic? && WellFormed(v)
    ensures MembersWellFormed(v.dynamic.members) && Named(v.dynamic.members)
  {
  }

  /** Numbering members is numbering their values under the same names. */
  lemma {:induction false} SealedNumbered(env: seq<Value>, n: Numbering, ms: seq<Member>)
    ensures var (values, n') := NumberValues(env, n, Values(ms));
            NumberMembers(env, n, ms) == (Zip(Names(ms), values), n')
    decreases |ms|
  {
    hide NumberValue;
    if ms != [] {
      var n1 := NumberValue(env, n, ms[0].value).1;
      SealedNumbered(env, n1, ms[1..]);
    }
  }

  lemma {:induction false} ValuesRead(env: seq<Value>, c: Context, d: DecodeContext, vs: seq<Value>, depth: nat,
          rest: seq<byte>)
    requires AllWellFormed(env) && AllWellFormed(vs) && Mirror(c, d) && Assigned(c)
             && WriteValues(env, c, vs, depth).Ok?
    ensures var (out, c') := WriteValues(env, c, vs, depth).value;
            ValuesBack(ReadValues(out + rest, d, depth, |vs|), NumberValues(env, At(c, d), vs), rest, c')
    decreases Rank(depth), 3, |vs|
  {
    hide WriteValue, ReadValue, NumberValue, Indexed, Tables, Fits, WellFormed;
    TablesFit(c, d);
    var (out, c') := WriteValues(env, c, vs, depth).value;
    if vs == [] {
      assert out + rest == rest;
    } else {
      var (first, c1) := WriteValue(env, c, vs[0], depth).value;
      var (others, c2) := WriteValues(env, c1, vs[1..], depth).value;
      assert out + rest == first + (others + rest);
      ValueReads(env, c, d, vs[0], depth, others + rest);
      if !Fits(c1) {
        Unfit(c1, c2);
      } else {
        var d1 := ReadValue(first + (others + rest), d, depth).value.2;
        ValuesRead(env, c1, d1, vs[1..], depth, rest);
      }
    }
  }

  lemma {:induction false} MembersRead(env: seq<Value>, c: Context, d: DecodeContext, ms: seq<Member>, depth: nat,
          rest: seq<byte>, count: nat, dense: nat)
    requires AllWellFormed(env) && MembersWellFormed(ms) && Named(ms) && Mirror(c, d) && Assigned(c)
             && WriteMembers(env, c, ms, depth).Ok?
    requires count + |ms| + dense <= MAX_COLLECTION
    ensures var (out, c') := WriteMembers(env, c, ms, depth).value;
            MembersBack(ReadMembers(out + rest, d, depth, count, dense), NumberMembers(env, At(c, d), ms), rest, c')
    decreases Rank(depth), 3, |ms|
  {
    hide WriteValue, ReadValue, NumberValue, WriteString, ReadString, Indexed, Tables, Fits, WellFormed;
    TablesFit(c, d);
    var (out, c') := WriteMembers(env, c, ms, depth).value;
    if ms == [] {
      EmptyNameReads(c, d, rest);
    } else {
      var (name, c1) := WriteString(c, ms[0].name).value;
      var (value, c2) := WriteValue(env, c1, ms[0].value, depth).value;
      var (others, c3) := WriteMembers(env, c2, ms[1..], depth).value;
      var tail := value + (others + rest);
      assert out + rest == name + tail;
      StringReads(c, d, ms[0].name, tail);
      StringKeeps(c, ms[0].name);
      if !Fits(c1) {
        Unfit(c1, c3);
      } else {
        var d1 := ReadString(name + tail, d).value.2;
        ValueReads(env, c1, d1, ms[0].value, depth, others + rest);
        if !Fits(c2) {
          Unfit(c2, c3);
        } else {
          var d2 := ReadValue(tail, d1, depth).value.2;
          MembersRead(env, c2, d2, ms[1..], depth, rest, count + 1, dense);
        }
      }
    }
  }

  lemma EmptyNameReads(c: Context, d: DecodeContext, rest: seq<byte>)
    requires Tables(c, d)
    ensures ReadString(WriteU29(1) + rest, d) == Ok(([], rest, d))
  {
    U29RoundTrip(1, rest);
  }

  // ----- documents -----------------------------------------------------------------------------

  lemma {:induction false} RootsRead(env: seq<Value>, c: Context, d: DecodeContext, vs: seq<Value>, count: nat)
    requires AllWellFormed(env) && AllWellFormed(vs) && Mirror(c, d) && Assigned(c) && WriteValues(env, c, vs, 0).Ok?
    requires count <= MAX_COLLECTION
    ensures var (out, c') := WriteValues(env, c, vs, 0).value;
            var r := ReadRoots(out, d, count);
            if Fits(c') && count + |vs| <= MAX_COLLECTION then
              r.Ok? && r.value.0 == NumberValues(env, At(c, d), vs).0
                  && InStep(c', r.value.1, NumberValues(env, At(c, d), vs).1)
            else r.Err?
    decreases |vs|
  {
    hide WriteValue, ReadValue, NumberValue, Indexed, Tables, Fits, WellFormed;
    TablesFit(c, d);
    var (out, c') := WriteValues(env, c, vs, 0).value;
    if vs != [] {
      var (first, c1) := WriteValue(env, c, vs[0], 0).value;
      var (others, c2) := WriteValues(env, c1, vs[1..], 0).value;
      ValueReads(env, c, d, vs[0], 0, others);
      NothingToRead(d);
      if !Fits(c1) {
        Unfit(c1, c2);
      } else if count < MAX_COLLECTION {
        RootsRead(env, c1, ReadValue(first + others, d, 0).value.2, vs[1..], count + 1);
      }
    }
  }

  lemma NothingToRead(d: DecodeContext)
    ensures ReadValue([], d, 0) == Err(UnexpectedEof)
  {
  }

  ghost predicate WellFormedDocument(doc: Document) {
    AllWellFormed(doc.objects) && AllWellFormed(doc.roots)
  }

  /** Every encoded document, shared and cyclic ones included, decodes to its first-visit
      renumbering exactly if it holds no more than the allowed number of distinct strings,
      distinct traits and roots. Otherwise decoding reports an error. */
  lemma DocumentRoundTrip(doc: Document)
    requires WellFormedDocument(doc) && EncodeDocument(doc).Ok?
    ensures var (bytes, c) := EncodeDocument(doc).value;
            && (DecodeDocument(bytes) == Ok(Renumber(doc)) <==> Fits(c) && |doc.roots| <= MAX_COLLECTION)
            && (DecodeDocument(bytes).Ok? <==> Fits(c) && |doc.roots| <= MAX_COLLECTION)
  {
    hide WriteValues, ReadRoots, NumberValues;
    var c, d := NewEncodeContext, NewDecodeContext;
    assert Tables(c, d);
    RootsRead(doc.objects, c, d, doc.roots, 0);
  }

  /** One value on its own, with other bytes behind it: it is read back as its renumbering, and the
      bytes behind it are left alone. */
  lemma SingleRoundTrip(env: seq<Value>, v: Value, rest: seq<byte>)
    requires AllWellFormed(env) && WellFormed(v) && WriteValue(env, NewEncodeContext, v, 0).Ok?
    ensures var (out, c) := WriteValue(env, NewEncodeContext, v, 0).value;
            var (w, n) := NumberValue(env, Numbering(map[], []), v);
            var r := ReadValue(out + rest, NewDecodeContext, 0);
            if Fits(c) then
              r.Ok? && r.value.0 == w && r.value.1 == rest && r.value.2.objects == n.objects && c.next == |n.objects|
            else r.Err?
  {
    hide WriteValue, ReadValue, NumberValue, WellFormed;
    var c, d := NewEncodeContext, NewDecodeContext;
    assert Tables(c, d);
    assert At(c, d) == Numbering(map[], []);
    ValueReads(env, c, d, v, 0, rest);
  }
}
