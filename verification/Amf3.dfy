/** AMF3 values, the document writer and the document reader, with their reference tables. */
module Amf3 {
  import opened Base

  /** Strings are their UTF-8 bytes; doubles are their eight bytes. */
  type Str = seq<byte>
  type Bits = s: seq<byte> | |s| == 8 witness [0, 0, 0, 0, 0, 0, 0, 0]

  type i32 = x: int | -0x8000_0000 <= x < 0x8000_0000

  const MAX_DEPTH: nat := 64
  const MAX_COLLECTION: nat := 100000
  const MAX_STRING: nat := 4 * 1024 * 1024
  const MAX_BYTEARRAY: nat := 10 * 1024 * 1024
  const MAX_REFERENCES: nat := 100000

  datatype BlobKind = XmlDoc | Xml | ByteArray

  datatype Member = Member(name: Str, value: Value)

  /** No dynamic members and dynamic but empty are different on the wire. */
  datatype Dynamics = NotDynamic | Dynamic(members: seq<Member>)

  datatype Value =
    | Reference(id: nat)
    | Undefined
    | Null
    | Boolean(b: bool)
    | Integer(i: i32)
    | Double(bits: Bits)
    | String(s: Str)
    | Date(millis: Bits)
    | Blob(kind: BlobKind, bytes: seq<byte>)
    | Array(dense: seq<Value>, associative: seq<Member>)
    | Object(className: Option<Str>, sealed: seq<Member>, dynamic: Dynamics)
    | VectorObject(typeName: Str, fixed: bool, values: seq<Value>)

  /** Values that live in the object table. */
  predicate Complex(v: Value) {
    v.Date? || v.Blob? || v.Array? || v.Object? || v.VectorObject?
  }

  function BlobMarker(kind: BlobKind): byte {
    match kind
    case XmlDoc => 0x07
    case Xml => 0x0B
    case ByteArray => 0x0C
  }

  function BlobLimit(kind: BlobKind): nat {
    if kind == ByteArray then MAX_BYTEARRAY else MAX_STRING
  }

  function ObjectMarker(v: Value): byte
    requires Complex(v)
  {
    match v
    case Date(_) => 0x08
    case Blob(kind, _) => BlobMarker(kind)
    case Array(_, _) => 0x09
    case Object(_, _, _) => 0x0A
    case VectorObject(_, _, _) => 0x10
  }

  // ----- variable-length integers -----------------------------------------------------

  function WriteU29(n: nat): (s: seq<byte>)
    requires n < 0x2000_0000
    ensures 1 <= |s| <= 4
  {
    if n < 0x80 then [n]
    else if n < 0x4000 then [n / 0x80 + 0x80, n % 0x80]
    else if n < 0x20_0000 then [n / 0x4000 + 0x80, n / 0x80 % 0x80 + 0x80, n % 0x80]
    else [n / 0x40_0000 + 0x80, n / 0x8000 % 0x80 + 0x80, n / 0x100 % 0x80 + 0x80, n % 0x100]
  }

  datatype DecodeError =
    | UnexpectedEof
    | UnknownMarker(marker: byte)
    | BadStringReference(index: nat)
    | BadObjectReference(index: nat)
    | BadTraitReference(index: nat)
    | StringTooLong(length: nat)
    | ByteArrayTooLong(length: nat)
    | CollectionTooLarge(count: nat)
    | DepthLimit
    | TooManyReferences
    | ExternalizableUnsupported

  function ReadU29(s: seq<byte>): (r: Result<(nat, seq<byte>), DecodeError>)
    ensures r.Ok? ==> r.value.0 < 0x2000_0000 && |r.value.1| < |s|
  {
    if |s| == 0 then Err(UnexpectedEof)
    else if s[0] < 0x80 then Ok((s[0], s[1..]))
    else if |s| == 1 then Err(UnexpectedEof)
    else if s[1] < 0x80 then Ok(((s[0] as int - 0x80) * 0x80 + s[1] as int, s[2..]))
    else if |s| == 2 then Err(UnexpectedEof)
    else if s[2] < 0x80 then Ok(((s[0] as int - 0x80) * 0x4000 + (s[1] as int - 0x80) * 0x80 + s[2] as int, s[3..]))
    else if |s| == 3 then Err(UnexpectedEof)
    else Ok(((s[0] as int - 0x80) * 0x40_0000 + (s[1] as int - 0x80) * 0x8000 + (s[2] as int - 0x80) * 0x100
             + s[3] as int, s[4..]))
  }

  predicate InRange(i: int) {
    -0x1000_0000 <= i < 0x1000_0000
  }

  function IntegerBits(i: i32): nat {
    i as int % 0x2000_0000
  }

  function Power2(e: nat): (p: nat)
    ensures p > 0
  {
    if e == 0 then 1 else 2 * Power2(e - 1)
  }

  /** Position of the highest set bit of a positive number. */
  function Exponent(n: nat): (e: nat)
    requires n > 0
    ensures Power2(e) <= n < 2 * Power2(e)
  {
    if n < 2 then 0 else 1 + Exponent(n / 2)
  }

  function Be64(n: nat): Bits {
    [n / 0x100_0000_0000_0000 % 0x100, n / 0x1_0000_0000_0000 % 0x100, n / 0x100_0000_0000 % 0x100,
        n / 0x1_0000_0000 % 0x100,
     n / 0x100_0000 % 0x100, n / 0x1_0000 % 0x100, n / 0x100 % 0x100, n % 0x100]
  }

  /** The double that equals a nonzero 32-bit integer. */
  function DoubleOf(i: i32): Bits
    requires i != 0
  {
    var size := if i < 0 then -(i as int) else i as int;
    var e := Exponent(size);
    var fraction := (size - Power2(e)) * 0x10_0000_0000_0000 / Power2(e);
    var sign := if i < 0 then 0x8000_0000_0000_0000 else 0;
    var bits := sign + (1023 + e) * 0x10_0000_0000_0000 + fraction;
    Be64(bits)
  }

  function U29ToInteger(raw: nat): int
    requires raw < 0x2000_0000
  {
    if raw >= 0x1000_0000 then raw - 0x2000_0000 else raw
  }

  // ----- writer ------------------------------------------------------------------------

  datatype Trait = Trait(className: Str, names: seq<Str>, dynamic: bool)

  /** Writer tables. The two demand sets record the distinct strings and traits met so far,
      whether or not the tables had room for them. */
  datatype EncodeContext = EncodeContext(
    refs: map<nat, nat>,
    next: nat,
    strings: map<Str, nat>,
    traits: map<Trait, nat>,
    stringDemand: set<Str>,
    traitDemand: set<Trait>)

  const NewEncodeContext := EncodeContext(map[], 0, map[], map[], {}, {})

  datatype EncodeError =
    | InvalidReference(id: nat)
    | StringTooLongToWrite(length: nat)
    | ByteArrayTooLongToWrite(length: nat)
    | CollectionTooLargeToWrite(count: nat)
    | DepthLimitToWrite

  /** Intern a string, unless the table is full. */
  function InternString(c: EncodeContext, s: Str): EncodeContext {
    var met := c.(stringDemand := c.stringDemand + {s});
    if |c.strings| >= MAX_REFERENCES then met else met.(strings := c.strings[s := |c.strings|])
  }

  function InternTrait(c: EncodeContext, t: Trait): EncodeContext {
    var met := c.(traitDemand := c.traitDemand + {t});
    if |c.traits| >= MAX_REFERENCES then met else met.(traits := c.traits[t := |c.traits|])
  }

  /** Table indices stay below the limit, so that they fit the integers that carry them. */
  predicate Indexed(c: EncodeContext) {
    && (forall s :: s in c.strings ==> c.strings[s] < MAX_REFERENCES)
    && (forall t :: t in c.traits ==> c.traits[t] < MAX_REFERENCES)
    && (forall id :: id in c.refs ==> c.refs[id] < MAX_REFERENCES)
  }

  type Context = c: EncodeContext | Indexed(c) witness NewEncodeContext

  type Written = Result<(seq<byte>, Context), EncodeError>

  /** Writing only ever adds to what the tables have met. */
  predicate Grown(c: EncodeContext, w: Written) {
    w.Ok? ==> c.stringDemand <= w.value.1.stringDemand && c.traitDemand <= w.value.1.traitDemand
  }

  function WriteString(c: Context, s: Str): (w: Written)
    ensures Grown(c, w)
  {
    if |s| > MAX_STRING then Err(StringTooLongToWrite(|s|))
    else if s == [] then Ok((WriteU29(1), c))
    else if s in c.strings then Ok((WriteU29(2 * c.strings[s]), c))
    else Ok((WriteU29(2 * |s| + 1) + s, InternString(c, s)))
  }

  function WriteStrings(c: Context, names: seq<Str>): (w: Written)
    ensures Grown(c, w)
    decreases |names|
  {
    if names == [] then Ok(([], c))
    else
      var (first, c1) :- WriteString(c, names[0]);
      var (rest, c2) :- WriteStrings(c1, names[1..]);
      Ok((first + rest, c2))
  }

  function Names(members: seq<Member>): (r: seq<Str>)
    ensures |r| == |members|
  {
    if members == [] then [] else [members[0].name] + Names(members[1..])
  }

  function Values(members: seq<Member>): (r: seq<Value>)
    ensures |r| == |members|
  {
    if members == [] then [] else [members[0].value] + Values(members[1..])
  }

  function TraitOf(v: Value): Trait
    requires v.Object?
  {
    Trait(if v.className.Some? then v.className.value else [], Names(v.sealed), v.dynamic.Dynamic?)
  }

  /** Object header: a trait reference, or the trait inline. */
  function WriteTrait(c: Context, t: Trait): (w: Written)
    ensures Grown(c, w)
    requires |t.names| <= MAX_COLLECTION
  {
    if t in c.traits then Ok((WriteU29(4 * c.traits[t] + 1), c))
    else
      var (name, c1) :- WriteString(c, t.className);
      var (names, c2) :- WriteStrings(c1, t.names);
      Ok((WriteU29(16 * |t.names| + (if t.dynamic then 8 else 0) + 3) + name + names, InternTrait(c2, t)))
  }

  function Rank(depth: nat): nat {
    if depth > MAX_DEPTH then 0 else MAX_DEPTH + 1 - depth
  }

  /** Write one value; complex values met through a reference are written once. */
  function WriteValue(env: seq<Value>, c: Context, v: Value, depth: nat): (w: Written)
    ensures Grown(c, w)
    decreases Rank(depth), if v.Reference? then 2 else 1, 0
  {
    if depth > MAX_DEPTH then Err(DepthLimitToWrite)
    else if v.Reference? then
      if v.id >= |env| || !Complex(env[v.id]) then Err(InvalidReference(v.id))
      else if v.id in c.refs then Ok(([ObjectMarker(env[v.id])] + WriteU29(2 * c.refs[v.id]), c))
      else if c.next >= MAX_REFERENCES then Err(CollectionTooLargeToWrite(c.next + 1))
      else WriteValue(env, c.(refs := c.refs[v.id := c.next]), env[v.id], depth)
    else if Complex(v) then
      if c.next >= MAX_REFERENCES then Err(CollectionTooLargeToWrite(c.next + 1))
      else
        var (out, c') :- WriteComplex(env, c.(next := c.next + 1), v, depth);
        Ok(([ObjectMarker(v)] + out, c'))
    else
      match v
      case Undefined => Ok(([0x00], c))
      case Null => Ok(([0x01], c))
      case Boolean(b) => Ok(([if b then 0x03 else 0x02], c))
      case Integer(i) =>
        // Integers beyond 29 bits travel as doubles.
        if InRange(i) then Ok(([0x04] + WriteU29(IntegerBits(i)), c)) else Ok(([0x05] + DoubleOf(i), c))
      case Double(bits) => Ok(([0x05] + bits, c))
      case String(s) =>
        var (out, c') :- WriteString(c, s);
        Ok(([0x06] + out, c'))
  }

  function WriteArray(env: seq<Value>, c: Context, v: Value, depth: nat): (w: Written)
    requires v.Array? && depth <= MAX_DEPTH
    ensures Grown(c, w)
    decreases Rank(depth), 0, 0
  {
    if |v.dense| + |v.associative| > MAX_COLLECTION then Err(CollectionTooLargeToWrite(|v.dense| + |v.associative|))
    else
      var (members, c1) :- WriteMembers(env, c, v.associative, depth + 1);
      var (items, c2) :- WriteValues(env, c1, v.dense, depth + 1);
      Ok((WriteU29(2 * |v.dense| + 1) + members + items, c2))
  }

  function WriteVector(env: seq<Value>, c: Context, v: Value, depth: nat): (w: Written)
    requires v.VectorObject? && depth <= MAX_DEPTH
    ensures Grown(c, w)
    decreases Rank(depth), 0, 0
  {
    if |v.values| > MAX_COLLECTION then Err(CollectionTooLargeToWrite(|v.values|))
    else
      var (typeName, c1) :- WriteString(c, v.typeName);
      var (items, c2) :- WriteValues(env, c1, v.values, depth + 1);
      Ok((WriteU29(2 * |v.values| + 1) + [if v.fixed then 1 else 0] + typeName + items, c2))
  }

  function WriteObject(env: seq<Value>, c: Context, v: Value, depth: nat): (w: Written)
    requires v.Object? && depth <= MAX_DEPTH
    ensures Grown(c, w)
    decreases Rank(depth), 0, 0
  {
    if |v.sealed| > MAX_COLLECTION then Err(CollectionTooLargeToWrite(|v.sealed|))
    else if v.dynamic.Dynamic?
        && |v.dynamic.members| > MAX_COLLECTION then Err(CollectionTooLargeToWrite(|v.dynamic.members|))
    else
      var (header, c1) :- WriteTrait(c, TraitOf(v));
      var (fixed, c2) :- WriteValues(env, c1, Values(v.sealed), depth + 1);
      if v.dynamic.NotDynamic? then Ok((header + fixed, c2))
      else
        var (members, c3) :- WriteMembers(env, c2, v.dynamic.members, depth + 1);
        Ok((header + fixed + members, c3))
  }

  /** The body of a complex value, after its marker. */
  function WriteComplex(env: seq<Value>, c: Context, v: Value, depth: nat): (w: Written)
    ensures Grown(c, w)
    requires Complex(v) && depth <= MAX_DEPTH
    decreases Rank(depth), 0, 1
  {
    match v
    case Date(bits) => Ok((WriteU29(1) + bits, c))
    case Blob(kind, bytes) =>
      if |bytes| > BlobLimit(kind) then
        Err(if kind == ByteArray then ByteArrayTooLongToWrite(|bytes|) else StringTooLongToWrite(|bytes|))
      else Ok((WriteU29(2 * |bytes| + 1) + bytes, c))
    case Array(_, _) => WriteArray(env, c, v, depth)
    case Object(_, _, _) => WriteObject(env, c, v, depth)
    case VectorObject(_, _, _) => WriteVector(env, c, v, depth)
  }

  function WriteValues(env: seq<Value>, c: Context, vs: seq<Value>, depth: nat): (w: Written)
    ensures Grown(c, w)
    decreases Rank(depth), 3, |vs|
  {
    if vs == [] then Ok(([], c))
    else
      var (first, c1) :- WriteValue(env, c, vs[0], depth);
      var (rest, c2) :- WriteValues(env, c1, vs[1..], depth);
      Ok((first + rest, c2))
  }

  /** Named members, ended by the empty name. */
  function WriteMembers(env: seq<Value>, c: Context, ms: seq<Member>, depth: nat): (w: Written)
    ensures Grown(c, w)
    decreases Rank(depth), 3, |ms|
  {
    if ms == [] then Ok((WriteU29(1), c))
    else
      var (name, c1) :- WriteString(c, ms[0].name);
      var (value, c2) :- WriteValue(env, c1, ms[0].value, depth);
      var (rest, c3) :- WriteMembers(env, c2, ms[1..], depth);
      Ok((name + value + rest, c3))
  }

  /** Roots and the arena of complex values they refer to. */
  datatype Document = Document(roots: seq<Value>, objects: seq<Value>)

  function EncodeDocument(doc: Document): Written {
    WriteValues(doc.objects, NewEncodeContext, doc.roots, 0)
  }

  // ----- reader --------------------------------------------------------------------------

  datatype DecodeContext = DecodeContext(strings: seq<Str>, objects: seq<Value>, traits: seq<Trait>)

  const NewDecodeContext := DecodeContext([], [], [])

  type ReadStr = Result<(Str, seq<byte>, DecodeContext), DecodeError>
  type ReadOne = Result<(Value, seq<byte>, DecodeContext), DecodeError>

  function Take(s: seq<byte>, n: nat): Result<(seq<byte>, seq<byte>), DecodeError> {
    if n > |s| then Err(UnexpectedEof) else Ok((s[..n], s[n..]))
  }

  function ReadString(s: seq<byte>, d: DecodeContext): (r: ReadStr)
    ensures r.Ok? ==> |r.value.1| < |s|
  {
    var (u29, rest) :- ReadU29(s);
    if u29 % 2 == 0 then
      if u29 / 2 < |d.strings| then Ok((d.strings[u29 / 2], rest, d)) else Err(BadStringReference(u29 / 2))
    else if u29 / 2 > MAX_STRING then Err(StringTooLong(u29 / 2))
    else if u29 / 2 == 0 then Ok(([], rest, d))
    else
      var (bytes, rest) :- Take(rest, u29 / 2);
      if |d.strings| >= MAX_REFERENCES then Err(TooManyReferences)
      else Ok((bytes, rest, d.(strings := d.strings + [bytes])))
  }

  function ReadStrings(s: seq<byte>, d: DecodeContext, n: nat): (r: Result<(seq<Str>, seq<byte>, DecodeContext),
          DecodeError>)
    ensures r.Ok? ==> |r.value.1| <= |s| && |r.value.0| == n
    decreases n
  {
    if n == 0 then Ok(([], s, d))
    else
      var (first, s1, d1) :- ReadString(s, d);
      var (others, s2, d2) :- ReadStrings(s1, d1, n - 1);
      Ok(([first] + others, s2, d2))
  }

  /** Reserve a slot, so that references to an enclosing value resolve. */
  function PushObject(d: DecodeContext, v: Value): Result<DecodeContext, DecodeError> {
    if |d.objects| >= MAX_REFERENCES then Err(TooManyReferences) else Ok(d.(objects := d.objects + [v]))
  }

  function Finish(d: DecodeContext, slot: nat, v: Value): (Value, DecodeContext) {
    if slot < |d.objects| then (Reference(slot), d.(objects := d.objects[slot := v])) else (Reference(slot), d)
  }

  function ReadTrait(s: seq<byte>, d: DecodeContext, header: nat): (r: Result<(Trait, seq<byte>, DecodeContext),
          DecodeError>)
    ensures r.Ok? ==> |r.value.1| <= |s|
  {
    if header / 2 % 2 == 0 then
      if header / 4 < |d.traits| then Ok((d.traits[header / 4], s, d)) else Err(BadTraitReference(header / 4))
    else if header / 4 % 2 == 1 then Err(ExternalizableUnsupported)
    else if header / 16 > MAX_COLLECTION then Err(CollectionTooLarge(header / 16))
    else
      var (name, s1, d1) :- ReadString(s, d);
      var (names, s2, d2) :- ReadStrings(s1, d1, header / 16);
      if |d2.traits| >= MAX_REFERENCES then Err(TooManyReferences)
      else
        var t := Trait(name, names, header / 8 % 2 == 1);
        Ok((t, s2, d2.(traits := d2.traits + [t])))
  }

  function ReadValue(s: seq<byte>, d: DecodeContext, depth: nat): (r: ReadOne)
    ensures r.Ok? ==> |r.value.1| < |s|
    decreases |s|, 0, 0
  {
    if depth > MAX_DEPTH then Err(DepthLimit)
    else if s == [] then Err(UnexpectedEof)
    else
      var marker, s1 := s[0], s[1..];
      if marker == 0x00 then Ok((Undefined, s1, d))
      else if marker == 0x01 then Ok((Null, s1, d))
      else if marker == 0x02 then Ok((Boolean(false), s1, d))
      else if marker == 0x03 then Ok((Boolean(true), s1, d))
      else if marker == 0x04 then
        var (raw, s2) :- ReadU29(s1);
        Ok((Integer(U29ToInteger(raw)), s2, d))
      else if marker == 0x05 then
        var (bits, s2) :- Take(s1, 8);
        Ok((Double(bits), s2, d))
      else if marker == 0x06 then
        var (str, s2, d2) :- ReadString(s1, d);
        Ok((String(str), s2, d2))
      else if marker in {0x07, 0x08, 0x09, 0x0A, 0x0B, 0x0C, 0x10} then
        var (u29, s2) :- ReadU29(s1);
        if u29 % 2 == 0 then
          if u29 / 2 < |d.objects| then Ok((Reference(u29 / 2), s2, d)) else Err(BadObjectReference(u29 / 2))
        else ReadComplex(marker, u29, s2, d, depth)
      else Err(UnknownMarker(marker))
  }

  /** The values of an object whose trait is known. */
  function ReadObjectBody(t: Trait, s: seq<byte>, d: DecodeContext, depth: nat): (r: ReadOne)
    ensures r.Ok? ==> |r.value.1| <= |s|
    decreases |s|, 2, 0
  {
    var slot := |d.objects|;
    var d1 :- PushObject(d, Null);
    var (fixed, s1, d2) :- ReadValues(s, d1, depth + 1, |t.names|);
    var name := if t.className == [] then None else Some(t.className);
    if t.dynamic then
      var (members, s2, d3) :- ReadMembers(s1, d2, depth + 1, 0, 0);
      var (v, d4) := Finish(d3, slot, Object(name, Zip(t.names, fixed), Dynamic(members)));
      Ok((v, s2, d4))
    else
      var (v, d3) := Finish(d2, slot, Object(name, Zip(t.names, fixed), NotDynamic));
      Ok((v, s1, d3))
  }

  /** An inline complex value, after its marker and header integer. */
  function ReadComplex(marker: byte, u29: nat, s: seq<byte>, d: DecodeContext, depth: nat): (r: ReadOne)
    requires marker in {0x07, 0x08, 0x09, 0x0A, 0x0B, 0x0C, 0x10} && u29 % 2 == 1
    ensures r.Ok? ==> |r.value.1| <= |s|
    decreases |s|, 2, 1
  {
    var slot := |d.objects|;
    if marker == 0x08 then
      var (bits, s1) :- Take(s, 8);
      var d1 :- PushObject(d, Null);
      var (v, d2) := Finish(d1, slot, Date(bits));
      Ok((v, s1, d2))
    else if marker == 0x09 then
      if u29 / 2 > MAX_COLLECTION then Err(CollectionTooLarge(u29 / 2))
      else
        var d1 :- PushObject(d, Null);
        var (members, s1, d2) :- ReadMembers(s, d1, depth + 1, 0, u29 / 2);
        var (items, s2, d3) :- ReadValues(s1, d2, depth + 1, u29 / 2);
        var (v, d4) := Finish(d3, slot, Array(items, members));
        Ok((v, s2, d4))
    else if marker == 0x0A then
      var (t, s1, d1) :- ReadTrait(s, d, u29);
      ReadObjectBody(t, s1, d1, depth)
    else if marker == 0x10 then
      if u29 / 2 > MAX_COLLECTION then Err(CollectionTooLarge(u29 / 2))
      else
        var (flag, s1) :- Take(s, 1);
        var (name, s2, d1) :- ReadString(s1, d);
        var d2 :- PushObject(d1, Null);
        var (items, s3, d3) :- ReadValues(s2, d2, depth + 1, u29 / 2);
        var (v, d4) := Finish(d3, slot, VectorObject(name, flag[0] != 0, items));
        Ok((v, s3, d4))
    else
      var kind := if marker == 0x07 then XmlDoc else if marker == 0x0B then Xml else ByteArray;
      if u29 / 2 > BlobLimit(kind) then
        Err(if kind == ByteArray then ByteArrayTooLong(u29 / 2) else StringTooLong(u29 / 2))
      else
        var (bytes, s1) :- Take(s, u29 / 2);
        var d1 :- PushObject(d, Null);
        var (v, d2) := Finish(d1, slot, Blob(kind, bytes));
        Ok((v, s1, d2))
  }

  function Zip(names: seq<Str>, values: seq<Value>): seq<Member>
    requires |names| == |values|
  {
    if names == [] then [] else [Member(names[0], values[0])] + Zip(names[1..], values[1..])
  }

  function ReadValues(s: seq<byte>, d: DecodeContext, depth: nat,
          n: nat): (r: Result<(seq<Value>, seq<byte>, DecodeContext), DecodeError>)
    ensures r.Ok? ==> |r.value.1| <= |s| && |r.value.0| == n
    decreases |s|, 1, n
  {
    if n == 0 then Ok(([], s, d))
    else
      var (first, s1, d1) :- ReadValue(s, d, depth);
      var (others, s2, d2) :- ReadValues(s1, d1, depth, n - 1);
      Ok(([first] + others, s2, d2))
  }

  /** Members up to the empty name; `count` have been read before, beside `dense` other items. */
  function ReadMembers(s: seq<byte>, d: DecodeContext, depth: nat, count: nat,
          dense: nat): (r: Result<(seq<Member>, seq<byte>, DecodeContext), DecodeError>)
    ensures r.Ok? ==> |r.value.1| <= |s|
    decreases |s|, 1, 0
  {
    var (name, s1, d1) :- ReadString(s, d);
    if name == [] then Ok(([], s1, d1))
    else if count >= MAX_COLLECTION then Err(CollectionTooLarge(count + 1))
    else
      var (value, s2, d2) :- ReadValue(s1, d1, depth);
      if count + 1 + dense > MAX_COLLECTION then Err(CollectionTooLarge(count + 1 + dense))
      else
        var (others, s3, d3) :- ReadMembers(s2, d2, depth, count + 1, dense);
        Ok(([Member(name, value)] + others, s3, d3))
  }

  /** Read values until the input ends. */
  function ReadRoots(s: seq<byte>, d: DecodeContext, count: nat): Result<(seq<Value>, DecodeContext), DecodeError>
    decreases |s|
  {
    if s == [] then Ok(([], d))
    else
      var (v, s1, d1) :- ReadValue(s, d, 0);
      if count >= MAX_COLLECTION then Err(CollectionTooLarge(count + 1))
      else
        var (others, d2) :- ReadRoots(s1, d1, count + 1);
        Ok(([v] + others, d2))
  }

  function DecodeDocument(s: seq<byte>): Result<Document, DecodeError> {
    var (roots, d) :- ReadRoots(s, NewDecodeContext, 0);
    Ok(Document(roots, d.objects))
  }
}
