/** The AMF3 reader as it runs: a cursor moves over the input, and the string, object and trait
    tables grow in place. Proved against the reading functions of `Amf3`. */
module Amf3ReaderModule {
  import opened Base
  import opened Amf3

  type Got<T> = Result<T, DecodeError>

  /** The reader has done what the function describes: the same value, the same input left and the
      same tables, or the same error. */
  ghost predicate Took<T>(f: Result<(T, seq<byte>, DecodeContext), DecodeError>, r: Got<T>, rest: seq<byte>,
          tables: DecodeContext) {
    match f
    case Ok(done) => r == Ok(done.0) && rest == done.1 && tables == done.2
    case Err(e) => r == Err(e)
  }

  /** Put the items read before in front. */
  ghost function Behind<T>(items: seq<T>, f: Result<(seq<T>, seq<byte>, DecodeContext), DecodeError>): Result<(seq<T>,
          seq<byte>, DecodeContext), DecodeError> {
    match f
    case Ok(done) => Ok((items + done.0, done.1, done.2))
    case Err(e) => Err(e)
  }

  lemma BehindNone<T>(f: Result<(seq<T>, seq<byte>, DecodeContext), DecodeError>)
    ensures Behind([], f) == f
  {
    if f.Ok? {
      assert [] + f.value.0 == f.value.0;
    }
  }

  lemma BehindMore<T>(a: seq<T>, b: seq<T>, f: Result<(seq<T>, seq<byte>, DecodeContext), DecodeError>)
    ensures Behind(a, Behind(b, f)) == Behind(a + b, f)
  {
    if f.Ok? {
      assert a + (b + f.value.0) == a + b + f.value.0;
    }
  }

  class Reader {
    var rest: seq<byte>
    var strings: seq<Str>
    var objects: seq<Value>
    var traits: seq<Trait>

    function Tables(): DecodeContext
      reads this
    {
      DecodeContext(strings, objects, traits)
    }

    constructor (input: seq<byte>)
      ensures rest == input && Tables() == NewDecodeContext
    {
      rest, strings, objects, traits := input, [], [], [];
    }

    method GetByte() returns (r: Got<byte>)
      modifies this`rest
      ensures old(rest) == [] ==> r == Err(UnexpectedEof) && rest == old(rest)
      ensures old(rest) != [] ==> r == Ok(old(rest)[0]) && rest == old(rest)[1..]
    {
      if rest == [] {
        return Err(UnexpectedEof);
      }
      r, rest := Ok(rest[0]), rest[1..];
    }

    /** At most four bytes, the fourth carrying eight bits. */
    method GetU29() returns (r: Got<nat>)
      modifies this`rest
      ensures match ReadU29(old(rest))
              case Ok(done) => r == Ok(done.0) && rest == done.1
              case Err(e) => r == Err(e)
    {
      ghost var s := rest;
      var value := 0;
      var i := 0;
      while i < 4
        invariant 0 <= i <= 4 && i <= |s| && rest == s[i..]
        invariant forall k :: 0 <= k < i ==> s[k] >= 0x80
        invariant i == 0 ==> value == 0
        invariant i == 1 ==> value == s[0] as int - 0x80
        invariant i == 2 ==> value == (s[0] as int - 0x80) * 0x80 + (s[1] as int - 0x80)
        invariant i == 3 ==> value == (s[0] as int - 0x80) * 0x4000 + (s[1] as int - 0x80) * 0x80 + (s[2] as int - 0x80)
        invariant i < 4
      {
        var b :- GetByte();
        if i == 3 {
          return Ok(value * 0x100 + b as int);
        }
        if b < 0x80 {
          return Ok(value * 0x80 + b as int);
        }
        value := value * 0x80 + (b as int - 0x80);
        i := i + 1;
      }
      assert false;
      return Err(UnexpectedEof);
    }

    method GetBytes(n: nat) returns (r: Got<seq<byte>>)
      modifies this`rest
      ensures match Take(old(rest), n)
              case Ok(done) => r == Ok(done.0) && rest == done.1
              case Err(e) => r == Err(e)
    {
      if n > |rest| {
        return Err(UnexpectedEof);
      }
      r, rest := Ok(rest[..n]), rest[n..];
    }

    method GetString() returns (r: Got<Str>)
      modifies this`rest, this`strings
      ensures Took(ReadString(old(rest), old(Tables())), r, rest, Tables())
    {
      hide ReadU29;
      var u29 :- GetU29();
      if u29 % 2 == 0 {
        return if u29 / 2 < |strings| then Ok(strings[u29 / 2]) else Err(BadStringReference(u29 / 2));
      }
      if u29 / 2 > MAX_STRING {
        return Err(StringTooLong(u29 / 2));
      }
      if u29 / 2 == 0 {
        return Ok([]);
      }
      var bytes :- GetBytes(u29 / 2);
      if |strings| >= MAX_REFERENCES {
        return Err(TooManyReferences);
      }
      strings := strings + [bytes];
      return Ok(bytes);
    }

    method GetStrings(n: nat) returns (r: Got<seq<Str>>)
      modifies this`rest, this`strings
      ensures Took(ReadStrings(old(rest), old(Tables()), n), r, rest, Tables())
    {
      hide ReadString;
      ghost var all := ReadStrings(rest, Tables(), n);
      var names: seq<Str> := [];
      BehindNone(all);
      for i := 0 to n
        invariant all == Behind(names, ReadStrings(rest, Tables(), n - i))
      {
        var name :- GetString();
        BehindMore(names, [name], ReadStrings(rest, Tables(), n - i - 1));
        names := names + [name];
      }
      assert names + [] == names;
      return Ok(names);
    }

    /** Reserve the next slot. */
    method Reserve() returns (r: Got<nat>)
      modifies this`objects
      ensures match PushObject(old(Tables()), Null)
              case Ok(d) => r == Ok(old(|objects|)) && Tables() == d
              case Err(e) => r == Err(e)
    {
      if |objects| >= MAX_REFERENCES {
        return Err(TooManyReferences);
      }
      r, objects := Ok(|objects|), objects + [Null];
    }

    method Install(slot: nat, v: Value) returns (w: Value)
      modifies this`objects
      ensures (w, Tables()) == Finish(old(Tables()), slot, v)
    {
      if slot < |objects| {
        objects := objects[slot := v];
      }
      return Reference(slot);
    }

    method GetTrait(header: nat) returns (r: Got<Trait>)
      modifies this`rest, this`strings, this`traits
      ensures Took(ReadTrait(old(rest), old(Tables()), header), r, rest, Tables())
    {
      hide ReadString, ReadStrings;
      if header / 2 % 2 == 0 {
        return if header / 4 < |traits| then Ok(traits[header / 4]) else Err(BadTraitReference(header / 4));
      }
      if header / 4 % 2 == 1 {
        return Err(ExternalizableUnsupported);
      }
      if header / 16 > MAX_COLLECTION {
        return Err(CollectionTooLarge(header / 16));
      }
      var name :- GetString();
      var names :- GetStrings(header / 16);
      if |traits| >= MAX_REFERENCES {
        return Err(TooManyReferences);
      }
      var t := Trait(name, names, header / 8 % 2 == 1);
      traits := traits + [t];
      return Ok(t);
    }

    method GetValue(depth: nat) returns (r: Got<Value>)
      modifies this
      ensures Took(ReadValue(old(rest), old(Tables()), depth), r, rest, Tables())
      decreases |rest|, 0, 0
    {
      hide ReadComplex, ReadString, ReadU29;
      if depth > MAX_DEPTH {
        return Err(DepthLimit);
      }
      var marker :- GetByte();
      if marker == 0x00 {
        return Ok(Undefined);
      } else if marker == 0x01 {
        return Ok(Null);
      } else if marker == 0x02 {
        return Ok(Boolean(false));
      } else if marker == 0x03 {
        return Ok(Boolean(true));
      } else if marker == 0x04 {
        var raw :- GetU29();
        return Ok(Integer(U29ToInteger(raw)));
      } else if marker == 0x05 {
        var bits :- GetBytes(8);
        return Ok(Double(bits));
      } else if marker == 0x06 {
        var s :- GetString();
        return Ok(String(s));
      } else if marker in {0x07, 0x08, 0x09, 0x0A, 0x0B, 0x0C, 0x10} {
        var u29 :- GetU29();
        if u29 % 2 == 0 {
          return if u29 / 2 < |objects| then Ok(Reference(u29 / 2)) else Err(BadObjectReference(u29 / 2));
        }
        r := GetComplex(marker, u29, depth);
      } else {
        return Err(UnknownMarker(marker));
      }
    }

    method GetComplex(marker: byte, u29: nat, depth: nat) returns (r: Got<Value>)
      requires marker in {0x07, 0x08, 0x09, 0x0A, 0x0B, 0x0C, 0x10} && u29 % 2 == 1
      modifies this
      ensures Took(ReadComplex(marker, u29, old(rest), old(Tables()), depth), r, rest, Tables())
      decreases |rest|, 2, 1
    {
      hide ReadComplex;
      if marker == 0x09 {
        r := GetArray(u29, depth);
      } else if marker == 0x0A {
        r := GetObject(u29, depth);
      } else if marker == 0x10 {
        r := GetVector(u29, depth);
      } else {
        r := GetLeaf(marker, u29, depth);
      }
    }

    method GetLeaf(marker: byte, u29: nat, depth: nat) returns (r: Got<Value>)
      requires marker in {0x07, 0x08, 0x0B, 0x0C} && u29 % 2 == 1
      modifies this
      ensures Took(ReadComplex(marker, u29, old(rest), old(Tables()), depth), r, rest, Tables())
    {
      if marker == 0x08 {
        var millis :- GetBytes(8);
        var slot :- Reserve();
        var v := Install(slot, Date(millis));
        return Ok(v);
      }
      var kind := if marker == 0x07 then XmlDoc else if marker == 0x0B then Xml else ByteArray;
      if u29 / 2 > BlobLimit(kind) {
        return Err(if kind == ByteArray then ByteArrayTooLong(u29 / 2) else StringTooLong(u29 / 2));
      }
      var bytes :- GetBytes(u29 / 2);
      var slot :- Reserve();
      var v := Install(slot, Blob(kind, bytes));
      return Ok(v);
    }

    method GetArray(u29: nat, depth: nat) returns (r: Got<Value>)
      requires u29 % 2 == 1
      modifies this
      ensures Took(ReadComplex(0x09, u29, old(rest), old(Tables()), depth), r, rest, Tables())
      decreases |rest|, 2, 0
    {
      hide ReadMembers, ReadValues;
      if u29 / 2 > MAX_COLLECTION {
        return Err(CollectionTooLarge(u29 / 2));
      }
      var slot :- Reserve();
      var members :- GetMembers(depth + 1, u29 / 2);
      var items :- GetValues(depth + 1, u29 / 2);
      var v := Install(slot, Array(items, members));
      return Ok(v);
    }

    method GetVector(u29: nat, depth: nat) returns (r: Got<Value>)
      requires u29 % 2 == 1
      modifies this
      ensures Took(ReadComplex(0x10, u29, old(rest), old(Tables()), depth), r, rest, Tables())
      decreases |rest|, 2, 0
    {
      hide ReadString, ReadValues;
      if u29 / 2 > MAX_COLLECTION {
        return Err(CollectionTooLarge(u29 / 2));
      }
      var flag :- GetBytes(1);
      var name :- GetString();
      var slot :- Reserve();
      var items :- GetValues(depth + 1, u29 / 2);
      var v := Install(slot, VectorObject(name, flag[0] != 0, items));
      return Ok(v);
    }

    method GetObject(u29: nat, depth: nat) returns (r: Got<Value>)
      requires u29 % 2 == 1
      modifies this
      ensures Took(ReadComplex(0x0A, u29, old(rest), old(Tables()), depth), r, rest, Tables())
      decreases |rest|, 2, 0
    {
      hide ReadTrait, ReadMembers, ReadValues;
      var t :- GetTrait(u29);
      var slot :- Reserve();
      var fixed :- GetValues(depth + 1, |t.names|);
      var name := if t.className == [] then None else Some(t.className);
      var dynamic := NotDynamic;
      if t.dynamic {
        var members :- GetMembers(depth + 1, 0);
        dynamic := Dynamic(members);
      }
      var v := Install(slot, Object(name, Zip(t.names, fixed), dynamic));
      return Ok(v);
    }

    method GetValues(depth: nat, n: nat) returns (r: Got<seq<Value>>)
      modifies this
      ensures Took(ReadValues(old(rest), old(Tables()), depth, n), r, rest, Tables())
      decreases |rest|, 1, n
    {
      hide ReadValue;
      ghost var all := ReadValues(rest, Tables(), depth, n);
      var items: seq<Value> := [];
      BehindNone(all);
      for i := 0 to n
        invariant all == Behind(items, ReadValues(rest, Tables(), depth, n - i))
        invariant |rest| <= old(|rest|)
      {
        var item :- GetValue(depth);
        BehindMore(items, [item], ReadValues(rest, Tables(), depth, n - i - 1));
        items := items + [item];
      }
      assert items + [] == items;
      return Ok(items);
    }

    /** Members up to the empty name, beside `dense` other items of the same collection. */
    method GetMembers(depth: nat, dense: nat) returns (r: Got<seq<Member>>)
      modifies this
      ensures Took(ReadMembers(old(rest), old(Tables()), depth, 0, dense), r, rest, Tables())
      decreases |rest|, 1, 0
    {
      hide ReadValue, ReadString;
      ghost var all := ReadMembers(rest, Tables(), depth, 0, dense);
      var members: seq<Member> := [];
      BehindNone(all);
      while true
        invariant all == Behind(members, ReadMembers(rest, Tables(), depth, |members|, dense))
        invariant |rest| <= old(|rest|)
        decreases |rest|
      {
        var name :- GetString();
        if name == [] {
          break;
        }
        if |members| >= MAX_COLLECTION {
          return Err(CollectionTooLarge(|members| + 1));
        }
        var value :- GetValue(depth);
        if |members| + 1 + dense > MAX_COLLECTION {
          return Err(CollectionTooLarge(|members| + 1 + dense));
        }
        BehindMore(members, [Member(name, value)], ReadMembers(rest, Tables(), depth, |members| + 1, dense));
        members := members + [Member(name, value)];
      }
      assert members + [] == members;
      return Ok(members);
    }
  }

  /** What is still to be read decides the document, given the roots read so far. */
  ghost predicate RootsLeft(input: seq<byte>, roots: seq<Value>, rest: seq<byte>, tables: DecodeContext) {
    DecodeDocument(input) ==
      match ReadRoots(rest, tables, |roots|)
      case Ok(done) => Ok(Document(roots + done.0, done.1.objects))
      case Err(e) => Err(e)
  }

  lemma RootsNone(input: seq<byte>)
    ensures RootsLeft(input, [], input, NewDecodeContext)
  {
    hide ReadRoots;
    var r := ReadRoots(input, NewDecodeContext, 0);
    if r.Ok? {
      assert [] + r.value.0 == r.value.0;
    }
  }

  lemma RootsMore(input: seq<byte>, roots: seq<Value>, v: Value, rest: seq<byte>, tables: DecodeContext)
    ensures RootsLeft(input, roots + [v], rest, tables) <==>
            DecodeDocument(input) ==
              match ReadRoots(rest, tables, |roots| + 1)
              case Ok(done) => Ok(Document(roots + ([v] + done.0), done.1.objects))
              case Err(e) => Err(e)
  {
    hide ReadRoots;
    var r := ReadRoots(rest, tables, |roots| + 1);
    if r.Ok? {
      assert roots + [v] + r.value.0 == roots + ([v] + r.value.0);
    }
  }

  /** Read roots until the input ends. */
  method Decode(input: seq<byte>) returns (r: Got<Document>)
    ensures r == DecodeDocument(input)
  {
    hide ReadValue;
    var reader := new Reader(input);
    var roots: seq<Value> := [];
    RootsNone(input);
    while reader.rest != []
      invariant RootsLeft(input, roots, reader.rest, reader.Tables())
      decreases |reader.rest|
    {
      var v :- reader.GetValue(0);
      if |roots| >= MAX_COLLECTION {
        return Err(CollectionTooLarge(|roots| + 1));
      }
      RootsMore(input, roots, v, reader.rest, reader.Tables());
      roots := roots + [v];
    }
    assert roots + [] == roots;
    return Ok(Document(roots, reader.objects));
  }
}
