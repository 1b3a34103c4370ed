/** AMF0 values, with AMF3 values embedded in them: the document writer, the document reader, and
    first-visit renumbering. */
module Amf0 {
  import opened Base
  import A3 = Amf3
  import G3 = Amf3Graph

  type Str = A3.Str
  type Bits = A3.Bits
  type Zone = s: seq<byte> | |s| == 2 witness [0, 0]

  const MAX_DEPTH: nat := 64
  const MAX_COLLECTION: nat := 100000
  const MAX_SHORT: nat := 65535

  datatype Property = Property(name: Str, value: Value)

  datatype Value =
    | Reference(id: nat)
    | Number(bits: Bits)
    | Boolean(b: bool)
    | String(s: Str)
    | Object(properties: seq<Property>)
    | TypedObject(className: Str, properties: seq<Property>)
    | StrictArray(items: seq<Value>)
    | Null
    | Undefined
    | Date(millis: Bits, zone: Zone)
    | Xml(s: Str)
    | AvmPlus(inner: A3.Value)

  predicate Complex(v: Value) {
    v.Object? || v.TypedObject? || v.StrictArray?
  }

  /** Roots, the arena of complex values, and the arena of embedded AMF3 values. */
  datatype Document = Document(roots: seq<Value>, objects: seq<Value>, embedded: seq<A3.Value>)

  function Be16(n: nat): (s: seq<byte>)
    requires n < 0x1_0000
    ensures |s| == 2
  {
    [n / 256, n % 256]
  }

  // ----- writer --------------------------------------------------------------------------------------

  /** References are written as 16-bit numbers. */
  type u16 = x: int | 0 <= x <= MAX_SHORT

  /** Object numbers. The last two fields record what the embedded AMF3 values need of a reader. */
  datatype Context = Context(refs: map<nat, u16>, next: nat, embedded: nat, tablesFit: bool)

  const NewContext := Context(map[], 0, 0, true)

  /** One more complex value has been met. */
  function Count(c: Context): Context {
    c.(next := c.next + 1)
  }

  /** The object is the next complex value to come. */
  function Assign(c: Context, id: nat): Context
    requires c.next <= MAX_SHORT
  {
    c.(refs := c.refs[id := c.next])
  }

  datatype EncodeError =
    InvalidReference(id: nat) | StringTooLong | DepthLimit | CollectionTooLarge(count: nat) | EmbeddedAmf3

  type Written = Result<(seq<byte>, Context), EncodeError>

  predicate Grown(c: Context, w: Written) {
    w.Ok? ==> c.next <= w.value.1.next && c.embedded <= w.value.1.embedded && (w.value.1.tablesFit ==> c.tablesFit)
  }

  function Rank(depth: nat): nat {
    if depth > MAX_DEPTH then 0 else MAX_DEPTH + 1 - depth
  }

  function WriteName(s: Str): Result<seq<byte>, EncodeError> {
    if |s| > MAX_SHORT then Err(StringTooLong) else Ok(Be16(|s|) + s)
  }

  /** Lengths are cut to 32 bits. */
  function Length32(s: Str): seq<byte> {
    Be32(|s| % 0x1_0000_0000)
  }

  function WriteString(s: Str): seq<byte> {
    if |s| > MAX_SHORT then [0x0C] + Length32(s) + s else [0x02] + Be16(|s|) + s
  }

  /** A reader's AMF3 tables have room for what was met. */
  predicate TablesFit(c: A3.EncodeContext) {
    |c.stringDemand| <= A3.MAX_REFERENCES && |c.traitDemand| <= A3.MAX_REFERENCES
  }

  /** The context after an embedded value with `count` objects of its own. */
  function Embed(c: Context, count: nat, fits: bool): Context {
    c.(embedded := c.embedded + count, tablesFit := c.tablesFit && fits)
  }

  /** An embedded value is one AMF3 document of its own: its bytes, the number of its objects, and
      whether a reader's tables have room for it. */
  function EncodeEmbedded(embedded: seq<A3.Value>, inner: A3.Value): Option<(seq<byte>, nat, bool)> {
    match A3.WriteValue(embedded, A3.NewEncodeContext, inner, 0)
    case Err(_) => None
    case Ok((out, after)) => Some((out, after.next, TablesFit(after)))
  }

  function WriteEmbedded(embedded: seq<A3.Value>, c: Context, inner: A3.Value): (w: Written)
    ensures Grown(c, w)
  {
    match EncodeEmbedded(embedded, inner)
    case None => Err(EmbeddedAmf3)
    case Some((out, count, fits)) => Ok(([0x11] + out, Embed(c, count, fits)))
  }

  function WriteValue(doc: Document, c: Context, v: Value, depth: nat): (w: Written)
    ensures Grown(c, w)
    decreases Rank(depth), 1, 0
  {
    if depth > MAX_DEPTH then Err(DepthLimit)
    else if v.Reference? then
      if v.id >= |doc.objects| || !Complex(doc.objects[v.id]) then Err(InvalidReference(v.id))
      else if v.id in c.refs then Ok(([0x07] + Be16(c.refs[v.id]), c))
      else if c.next > MAX_SHORT then Err(CollectionTooLarge(c.next))
      else WriteComplex(doc, Count(Assign(c, v.id)), doc.objects[v.id], depth)
    else if Complex(v) then WriteComplex(doc, Count(c), v, depth)
    else
      match v
      case Number(bits) => Ok(([0x00] + bits, c))
      case Boolean(b) => Ok(([0x01, if b then 1 else 0], c))
      case String(s) => Ok((WriteString(s), c))
      case Null => Ok(([0x05], c))
      case Undefined => Ok(([0x06], c))
      case Date(millis, zone) => Ok(([0x0B] + millis + zone, c))
      case Xml(s) => Ok(([0x0F] + Length32(s) + s, c))
      case AvmPlus(inner) => WriteEmbedded(doc.embedded, c, inner)
  }

  function WriteComplex(doc: Document, c: Context, v: Value, depth: nat): (w: Written)
    requires Complex(v) && depth <= MAX_DEPTH
    ensures Grown(c, w)
    decreases Rank(depth), 0, 0
  {
    match v
    case StrictArray(items) =>
      if |items| > MAX_COLLECTION then Err(CollectionTooLarge(|items|))
      else
        var (out, c') :- WriteValues(doc, c, items, depth + 1);
        Ok(([0x0A] + Be32(|items|) + out, c'))
    case Object(properties) =>
      if |properties| > MAX_COLLECTION then Err(CollectionTooLarge(|properties|))
      else
        var (out, c') :- WriteProperties(doc, c, properties, depth + 1);
        Ok(([0x03] + out, c'))
    case TypedObject(name, properties) =>
      var head :- WriteName(name);
      if |properties| > MAX_COLLECTION then Err(CollectionTooLarge(|properties|))
      else
        var (out, c') :- WriteProperties(doc, c, properties, depth + 1);
        Ok(([0x10] + head + out, c'))
  }

  function WriteValues(doc: Document, c: Context, vs: seq<Value>, depth: nat): (w: Written)
    ensures Grown(c, w)
    decreases Rank(depth), 3, |vs|
  {
    if vs == [] then Ok(([], c))
    else
      var (first, c1) :- WriteValue(doc, c, vs[0], depth);
      var (rest, c2) :- WriteValues(doc, c1, vs[1..], depth);
      Ok((first + rest, c2))
  }

  /** Properties, ended by an empty name and the end marker. */
  function WriteProperties(doc: Document, c: Context, ps: seq<Property>, depth: nat): (w: Written)
    ensures Grown(c, w)
    decreases Rank(depth), 3, |ps|
  {
    if ps == [] then Ok(([0, 0, 0x09], c))
    else
      var name :- WriteName(ps[0].name);
      var (value, c1) :- WriteValue(doc, c, ps[0].value, depth);
      var (rest, c2) :- WriteProperties(doc, c1, ps[1..], depth);
      Ok((name + value + rest, c2))
  }

  function EncodeDocument(doc: Document): Written {
    WriteValues(doc, NewContext, doc.roots, 0)
  }

  // ----- reader --------------------------------------------------------------------------------------

  datatype DecodeContext = DecodeContext(objects: seq<Value>, embedded: seq<A3.Value>)

  const NewDecodeContext := DecodeContext([], [])

  datatype DecodeError =
    | UnexpectedEof
    | UnknownMarker(marker: byte)
    | BadReference(index: nat)
    | EmptyPropertyName
    | TooDeep
    | TooLarge(count: nat)
    | BadEmbedded(error: A3.DecodeError)

  type Got<T> = Result<(T, seq<byte>, DecodeContext), DecodeError>

  function Take(s: seq<byte>, n: nat): (r: Result<(seq<byte>, seq<byte>), DecodeError>)
    ensures r.Ok? ==> |r.value.0| == n && |r.value.1| + n == |s|
  {
    if n > |s| then Err(UnexpectedEof) else Ok((s[..n], s[n..]))
  }

  function ReadU16(s: seq<byte>): (r: Result<(nat, seq<byte>), DecodeError>)
    ensures r.Ok? ==> |r.value.1| < |s|
  {
    var (b, rest) :- Take(s, 2);
    Ok((256 * b[0] as int + b[1] as int, rest))
  }

  function ReadU32(s: seq<byte>): (r: Result<(nat, seq<byte>), DecodeError>)
    ensures r.Ok? ==> |r.value.1| < |s|
  {
    var (b, rest) :- Take(s, 4);
    Ok((FromBe32(b), rest))
  }

  /** Set a property; a name met again keeps its place and gets the new value. */
  function Insert(ps: seq<Property>, name: Str, value: Value): seq<Property> {
    if ps == [] then [Property(name, value)]
    else if ps[0].name == name then [Property(name, value)] + ps[1..]
    else [ps[0]] + Insert(ps[1..], name, value)
  }

  /** One AMF3 value with tables of its own; its arena is appended to ours. */
  function ReadEmbedded(s: seq<byte>, d: DecodeContext): (r: Got<Value>)
    ensures r.Ok? ==> |r.value.1| <= |s|
  {
    match A3.ReadValue(s, A3.NewDecodeContext, 0)
    case Err(e) => Err(BadEmbedded(e))
    case Ok((inner, rest, after)) =>
      var base := |d.embedded|;
      if base + |after.objects| > MAX_COLLECTION then Err(TooLarge(base + |after.objects|))
      else Ok((AvmPlus(G3.Relocate(inner, base)), rest,
          d.(embedded := d.embedded + G3.RelocateAll(after.objects, base))))
  }

  function ReadScalar(marker: byte, s: seq<byte>, d: DecodeContext): (r: Got<Value>)
    ensures r.Ok? ==> |r.value.1| <= |s|
  {
    if marker == 0x00 then
      var (bits, rest) :- Take(s, 8);
      Ok((Number(bits), rest, d))
    else if marker == 0x01 then
      var (b, rest) :- Take(s, 1);
      Ok((Boolean(b[0] == 1), rest, d))
    else if marker == 0x02 then
      var (n, s1) :- ReadU16(s);
      var (bytes, rest) :- Take(s1, n);
      Ok((String(bytes), rest, d))
    else if marker == 0x05 then Ok((Null, s, d))
    else if marker == 0x06 then Ok((Undefined, s, d))
    else if marker == 0x0B then
      var (millis, s1) :- Take(s, 8);
      var (zone, rest) :- Take(s1, 2);
      Ok((Date(millis, zone), rest, d))
    else if marker == 0x0C || marker == 0x0F then
      var (n, s1) :- ReadU32(s);
      var (bytes, rest) :- Take(s1, n);
      Ok((if marker == 0x0C then String(bytes) else Xml(bytes), rest, d))
    else if marker == 0x11 then ReadEmbedded(s, d)
    else Err(UnknownMarker(marker))
  }

  /** The next value; none at the end of the input and at an end marker. */
  function ReadNext(s: seq<byte>, d: DecodeContext, depth: nat): (r: Got<Option<Value>>)
    ensures r.Ok? ==> |r.value.1| <= |s| && (r.value.0.Some? ==> |r.value.1| < |s|)
    decreases |s|, 1, 0
  {
    if depth > MAX_DEPTH then Err(TooDeep)
    else if s == [] then Ok((None, s, d))
    else if s[0] == 0x09 then Ok((None, s[1..], d))
    else if s[0] == 0x07 then
      var (index, rest) :- ReadU16(s[1..]);
      if index >= |d.objects| then Err(BadReference(index)) else Ok((Some(Reference(index)), rest, d))
    else if s[0] in {0x03, 0x08, 0x0A, 0x10} then
      var slot := |d.objects|;
      if slot + 1 > MAX_COLLECTION then Err(TooLarge(slot + 1))
      else
        var (v, rest, d') :- ReadComplex(s[0], s[1..], d.(objects := d.objects + [Null]), depth);
        Ok((Some(Reference(slot)), rest, if slot < |d'.objects| then d'.(objects := d'.objects[slot := v]) else d'))
    else
      var (v, rest, d') :- ReadScalar(s[0], s[1..], d);
      Ok((Some(v), rest, d'))
  }

  function ReadComplex(marker: byte, s: seq<byte>, d: DecodeContext, depth: nat): (r: Got<Value>)
    requires marker in {0x03, 0x08, 0x0A, 0x10}
    ensures r.Ok? ==> |r.value.1| <= |s|
    decreases |s|, 3, 0
  {
    if marker == 0x0A then
      var (n, s1) :- ReadU32(s);
      if n > MAX_COLLECTION then Err(TooLarge(n))
      else
        var (items, rest, d') :- ReadItems(s1, d, depth + 1, n);
        Ok((StrictArray(items), rest, d'))
    else if marker == 0x10 then
      var (n, s1) :- ReadU16(s);
      var (name, s2) :- Take(s1, n);
      var (ps, rest, d') :- ReadProperties(s2, d, depth + 1, []);
      Ok((TypedObject(name, ps), rest, d'))
    else if marker == 0x08 then
      var (n, s1) :- ReadU32(s);
      if n > MAX_COLLECTION then Err(TooLarge(n))
      else
        var (ps, rest, d') :- ReadProperties(s1, d, depth + 1, []);
        Ok((Object(ps), rest, d'))
    else
      var (ps, rest, d') :- ReadProperties(s, d, depth + 1, []);
      Ok((Object(ps), rest, d'))
  }

  function ReadItems(s: seq<byte>, d: DecodeContext, depth: nat, n: nat): (r: Got<seq<Value>>)
    ensures r.Ok? ==> |r.value.1| <= |s| && |r.value.0| == n
    decreases |s|, 2, n
  {
    if n == 0 then Ok(([], s, d))
    else
      var (v, s1, d1) :- ReadNext(s, d, depth);
      if v.None? then Err(UnexpectedEof)
      else
        var (others, s2, d2) :- ReadItems(s1, d1, depth, n - 1);
        Ok(([v.value] + others, s2, d2))
  }

  function ReadProperties(s: seq<byte>, d: DecodeContext, depth: nat, sofar: seq<Property>): (r: Got<seq<Property>>)
    ensures r.Ok? ==> |r.value.1| <= |s|
    decreases |s|, 2, 0
  {
    var (n, s1) :- ReadU16(s);
    if n == 0 then
      var (end, rest) :- Take(s1, 1);
      if end[0] != 0x09 then Err(EmptyPropertyName) else Ok((sofar, rest, d))
    else
      var (name, s2) :- Take(s1, n);
      var (v, s3, d1) :- ReadNext(s2, d, depth);
      if v.None? then Err(UnexpectedEof)
      else if |sofar| + 1 > MAX_COLLECTION then Err(TooLarge(|sofar| + 1))
      else ReadProperties(s3, d1, depth, Insert(sofar, name, v.value))
  }

  function ReadRoots(s: seq<byte>, d: DecodeContext, count: nat): Result<(seq<Value>, DecodeContext), DecodeError>
    decreases |s|
  {
    var (v, rest, d1) :- ReadNext(s, d, 0);
    if v.None? then Ok(([], d1))
    else if count + 1 > MAX_COLLECTION then Err(TooLarge(count + 1))
    else
      var (others, d2) :- ReadRoots(rest, d1, count + 1);
      Ok(([v.value] + others, d2))
  }

  function DecodeDocument(s: seq<byte>): Result<Document, DecodeError> {
    var (roots, d) :- ReadRoots(s, NewDecodeContext, 0);
    Ok(Document(roots, d.objects, d.embedded))
  }

  // ----- renumbering -----------------------------------------------------------------------------------

  /** Slots given out so far, and the two arenas built so far. */
  datatype Numbering = Numbering(refs: map<nat, nat>, objects: seq<Value>, embedded: seq<A3.Value>)

  ghost function Unvisited(objects: seq<Value>, refs: map<nat, nat>): set<nat> {
    set id | 0 <= id < |objects| && id !in refs
  }

  ghost predicate Extends(n: Numbering, n': Numbering) {
    && (forall id :: id in n.refs ==> id in n'.refs && n'.refs[id] == n.refs[id])
    && |n.objects| <= |n'.objects|
  }

  lemma ExtendsUnvisited(objects: seq<Value>, n: Numbering, n': Numbering)
    requires Extends(n, n')
    ensures Unvisited(objects, n'.refs) <= Unvisited(objects, n.refs)
  {
  }

  ghost function NumberValue(doc: Document, n: Numbering, v: Value): (r: (Value, Numbering))
    ensures Extends(n, r.1)
    decreases Unvisited(doc.objects, n.refs), v, 2
  {
    if v.Reference? then
      if v.id in n.refs then (Reference(n.refs[v.id]), n)
      else if v.id < |doc.objects| && Complex(doc.objects[v.id]) then
        var n1 := n.(refs := n.refs[v.id := |n.objects|]);
        assert v.id in Unvisited(doc.objects, n.refs) && v.id !in Unvisited(doc.objects, n1.refs);
        NumberComplex(doc, n1, doc.objects[v.id])
      else (v, n)
    else if Complex(v) then NumberComplex(doc, n, v)
    else if v.AvmPlus? then
      var (w, after) := G3.NumberValue(doc.embedded, G3.Numbering(map[], []), v.inner);
      var base := |n.embedded|;
      (AvmPlus(G3.Relocate(w, base)), n.(embedded := n.embedded + G3.RelocateAll(after.objects, base)))
    else (v, n)
  }

  ghost function NumberComplex(doc: Document, n: Numbering, v: Value): (r: (Value, Numbering))
    requires Complex(v)
    ensures Extends(n, r.1) && r.0 == Reference(|n.objects|) && |n.objects| < |r.1.objects|
    decreases Unvisited(doc.objects, n.refs), v, 1
  {
    var slot := |n.objects|;
    var (v', n') := NumberChildren(doc, n.(objects := n.objects + [Null]), v);
    (Reference(slot), n'.(objects := n'.objects[slot := v']))
  }

  ghost function NumberChildren(doc: Document, n: Numbering, v: Value): (r: (Value, Numbering))
    requires Complex(v)
    ensures Extends(n, r.1)
    decreases Unvisited(doc.objects, n.refs), v, 0
  {
    match v
    case StrictArray(items) =>
      var (ws, n1) := NumberValues(doc, n, items);
      (StrictArray(ws), n1)
    case Object(ps) =>
      var (qs, n1) := NumberProperties(doc, n, ps);
      (Object(qs), n1)
    case TypedObject(name, ps) =>
      var (qs, n1) := NumberProperties(doc, n, ps);
      (TypedObject(name, qs), n1)
  }

  ghost function NumberValues(doc: Document, n: Numbering, vs: seq<Value>): (r: (seq<Value>, Numbering))
    ensures Extends(n, r.1) && |r.0| == |vs|
    decreases Unvisited(doc.objects, n.refs), vs
  {
    if vs == [] then ([], n)
    else
      var (first, n1) := NumberValue(doc, n, vs[0]);
      ExtendsUnvisited(doc.objects, n, n1);
      var (others, n2) := NumberValues(doc, n1, vs[1..]);
      ([first] + others, n2)
  }

  ghost function NumberProperties(doc: Document, n: Numbering, ps: seq<Property>): (r: (seq<Property>, Numbering))
    ensures Extends(n, r.1) && |r.0| == |ps| && forall i :: 0 <= i < |ps| ==> r.0[i].name == ps[i].name
    decreases Unvisited(doc.objects, n.refs), ps
  {
    if ps == [] then ([], n)
    else
      var (first, n1) := NumberValue(doc, n, ps[0].value);
      ExtendsUnvisited(doc.objects, n, n1);
      var (others, n2) := NumberProperties(doc, n1, ps[1..]);
      ([Property(ps[0].name, first)] + others, n2)
  }

  ghost function Renumber(doc: Document): Document {
    var (roots, n) := NumberValues(doc, Numbering(map[], [], []), doc.roots);
    Document(roots, n.objects, n.embedded)
  }
}
