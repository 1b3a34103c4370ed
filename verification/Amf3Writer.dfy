/** The AMF3 writer as it runs: bytes are pushed to an output buffer and the reference tables are
    updated in place. Proved against the writing functions of `Amf3`. */
module Amf3WriterModule {
  import opened Base
  import opened Amf3

  datatype Done = Pass | Fail(error: EncodeError) {
    predicate IsFailure() {
      Fail?
    }

    function PropagateFailure(): Done
      requires IsFailure()
    {
      this
    }
  }

  /** What writing `w` leaves behind: its bytes at the end of the buffer and its tables, or its
      error with the earlier bytes still in place. */
  ghost predicate Wrote(before: seq<byte>, w: Written, r: Done, out: seq<byte>, tables: EncodeContext) {
    match w
    case Ok(done) => r == Pass && out == before + done.0 && tables == done.1
    case Err(e) => r == Fail(e) && before <= out
  }

  /** The result of writing more, after `bytes`. */
  ghost function After(bytes: seq<byte>, w: Written): Written {
    match w
    case Ok(done) => Ok((bytes + done.0, done.1))
    case Err(e) => Err(e)
  }

  lemma AfterNone(w: Written)
    ensures After([], w) == w
  {
    if w.Ok? {
      assert [] + w.value.0 == w.value.0;
    }
  }

  lemma AfterMore(a: seq<byte>, b: seq<byte>, w: Written)
    ensures After(a, After(b, w)) == After(a + b, w)
  {
    if w.Ok? {
      assert a + (b + w.value.0) == a + b + w.value.0;
    }
  }

  class Writer {
    var out: seq<byte>
    var refs: map<nat, nat>
    var next: nat
    var strings: map<Str, nat>
    var traits: map<Trait, nat>
    ghost var stringDemand: set<Str>
    ghost var traitDemand: set<Trait>

    ghost function Tables(): EncodeContext
      reads this
    {
      EncodeContext(refs, next, strings, traits, stringDemand, traitDemand)
    }

    ghost predicate Valid()
      reads this
    {
      Indexed(Tables())
    }

    constructor (output: seq<byte>)
      ensures Valid() && out == output && Tables() == NewEncodeContext
    {
      out := output;
      refs, next, strings, traits := map[], 0, map[], map[];
      stringDemand, traitDemand := {}, {};
    }

    method Push(bytes: seq<byte>)
      modifies this`out
      ensures out == old(out) + bytes
    {
      out := out + bytes;
    }

    method PutU29(value: nat)
      requires value < 0x2000_0000
      modifies this`out
      ensures out == old(out) + WriteU29(value)
    {
      if value < 0x80 {
        Push([value]);
      } else if value < 0x4000 {
        Push([value / 0x80 + 0x80]);
        Push([value % 0x80]);
      } else if value < 0x20_0000 {
        Push([value / 0x4000 + 0x80]);
        Push([value / 0x80 % 0x80 + 0x80]);
        Push([value % 0x80]);
      } else {
        Push([value / 0x40_0000 + 0x80]);
        Push([value / 0x8000 % 0x80 + 0x80]);
        Push([value / 0x100 % 0x80 + 0x80]);
        Push([value % 0x100]);
      }
    }

    method StringRef(s: Str) returns (index: Option<nat>)
      requires Valid()
      ensures index == (if s in strings then Some(strings[s]) else None)
      ensures index.Some? ==> index.value < MAX_REFERENCES
    {
      return if s in strings then Some(strings[s]) else None;
    }

    method TraitRef(t: Trait) returns (index: Option<nat>)
      requires Valid()
      ensures index == (if t in traits then Some(traits[t]) else None)
      ensures index.Some? ==> index.value < MAX_REFERENCES
    {
      return if t in traits then Some(traits[t]) else None;
    }

    method InternString(s: Str)
      requires Valid()
      modifies this`strings, this`stringDemand
      ensures Valid() && Tables() == Amf3.InternString(old(Tables()), s)
    {
      stringDemand := stringDemand + {s};
      if |strings| >= MAX_REFERENCES {
        return;
      }
      strings := strings[s := |strings|];
    }

    method InternTrait(t: Trait)
      requires Valid()
      modifies this`traits, this`traitDemand
      ensures Valid() && Tables() == Amf3.InternTrait(old(Tables()), t)
    {
      traitDemand := traitDemand + {t};
      if |traits| >= MAX_REFERENCES {
        return;
      }
      traits := traits[t := |traits|];
    }

    method PutString(s: Str) returns (r: Done)
      requires Valid()
      modifies this
      ensures Valid() && Wrote(old(out), WriteString(old(Tables()), s), r, out, Tables())
    {
      hide WriteU29, Indexed, Amf3.InternString;
      if |s| > MAX_STRING {
        return Fail(StringTooLongToWrite(|s|));
      }
      if s == [] {
        PutU29(1);
        return Pass;
      }
      var index := StringRef(s);
      if index.Some? {
        PutU29(2 * index.value);
        return Pass;
      }
      PutU29(2 * |s| + 1);
      Push(s);
      InternString(s);
      return Pass;
    }

    method PutStrings(names: seq<Str>) returns (r: Done)
      requires Valid()
      modifies this
      ensures Valid() && Wrote(old(out), WriteStrings(old(Tables()), names), r, out, Tables())
    {
      hide WriteString, Indexed;
      ghost var start, all := Tables(), WriteStrings(Tables(), names);
      ghost var done: seq<byte> := [];
      var i := 0;
      AfterNone(all);
      assert names[0..] == names;
      while i < |names|
        invariant 0 <= i <= |names| && Valid() && out == old(out) + done
        invariant all == After(done, WriteStrings(Tables(), names[i..]))
      {
        ghost var w := WriteString(Tables(), names[i]);
        assert names[i..][0] == names[i] && names[i..][1..] == names[i + 1..];
        :- PutString(names[i]);
        AfterMore(done, w.value.0, WriteStrings(Tables(), names[i + 1..]));
        done := done + w.value.0;
        i := i + 1;
      }
      return Pass;
    }

    method PutTrait(t: Trait) returns (r: Done)
      requires Valid() && |t.names| <= MAX_COLLECTION
      modifies this
      ensures Valid() && Wrote(old(out), WriteTrait(old(Tables()), t), r, out, Tables())
    {
      hide WriteString, WriteStrings, WriteU29, Indexed, Amf3.InternTrait;
      var index := TraitRef(t);
      if index.Some? {
        PutU29(4 * index.value + 1);
        return Pass;
      }
      PutU29(16 * |t.names| + (if t.dynamic then 8 else 0) + 3);
      :- PutString(t.className);
      :- PutStrings(t.names);
      InternTrait(t);
      return Pass;
    }

    method PutValue(env: seq<Value>, v: Value, depth: nat) returns (r: Done)
      requires Valid()
      modifies this
      ensures Valid() && Wrote(old(out), WriteValue(env, old(Tables()), v, depth), r, out, Tables())
      decreases Rank(depth), if v.Reference? then 2 else 1, 1
    {
      hide WriteComplex, WriteString, WriteU29;
      if depth > MAX_DEPTH {
        return Fail(DepthLimitToWrite);
      }
      if v.Reference? {
        r := PutReference(env, v.id, depth);
        return r;
      }
      if !Complex(v) {
        r := PutScalar(env, v, depth);
        return r;
      }
      if next >= MAX_REFERENCES {
        return Fail(CollectionTooLargeToWrite(next + 1));
      }
      next := next + 1;
      r := PutComplex(env, v, depth);
    }

    method PutReference(env: seq<Value>, id: nat, depth: nat) returns (r: Done)
      requires Valid() && depth <= MAX_DEPTH
      modifies this
      ensures Valid() && Wrote(old(out), WriteValue(env, old(Tables()), Reference(id), depth), r, out, Tables())
      decreases Rank(depth), 2, 0
    {
      hide WriteComplex, WriteString, WriteU29;
      if id >= |env| || !Complex(env[id]) {
        return Fail(InvalidReference(id));
      }
      if id in refs {
        Push([ObjectMarker(env[id])]);
        PutU29(2 * refs[id]);
        return Pass;
      }
      if next >= MAX_REFERENCES {
        return Fail(CollectionTooLargeToWrite(next + 1));
      }
      refs := refs[id := next];
      r := PutValue(env, env[id], depth);
    }

    method PutScalar(env: seq<Value>, v: Value, depth: nat) returns (r: Done)
      requires Valid() && !v.Reference? && !Complex(v) && depth <= MAX_DEPTH
      modifies this
      ensures Valid() && Wrote(old(out), WriteValue(env, old(Tables()), v, depth), r, out, Tables())
    {
      hide WriteComplex, WriteString, WriteU29, Indexed;
      match v {
      case Undefined => Push([0x00]);
      case Null => Push([0x01]);
      case Boolean(b) => Push([if b then 0x03 else 0x02]);
      case Integer(i) =>
        if InRange(i) {
          Push([0x04]);
          PutU29(IntegerBits(i));
        } else {
          Push([0x05]);
          Push(DoubleOf(i));
        }
      case Double(bits) =>
        Push([0x05]);
        Push(bits);
      case String(s) =>
        Push([0x06]);
        :- PutString(s);
      }
      return Pass;
    }

    method PutComplex(env: seq<Value>, v: Value, depth: nat) returns (r: Done)
      requires Valid() && Complex(v) && depth <= MAX_DEPTH
      modifies this
      ensures Valid() && Wrote(old(out), After([ObjectMarker(v)], WriteComplex(env, old(Tables()), v, depth)), r, out,
              Tables())
      decreases Rank(depth), 0, 1
    {
      hide WriteComplex, Indexed;
      match v
      case Date(_) => r := PutLeaf(env, v, depth);
      case Blob(_, _) => r := PutLeaf(env, v, depth);
      case Array(_, _) => r := PutArray(env, v, depth);
      case Object(_, _, _) => r := PutObject(env, v, depth);
      case VectorObject(_, _, _) => r := PutVector(env, v, depth);
    }

    method PutLeaf(env: seq<Value>, v: Value, depth: nat) returns (r: Done)
      requires Valid() && (v.Date? || v.Blob?) && depth <= MAX_DEPTH
      modifies this
      ensures Valid() && Wrote(old(out), After([ObjectMarker(v)], WriteComplex(env, old(Tables()), v, depth)), r, out,
              Tables())
    {
      hide WriteU29, Indexed;
      if v.Date? {
        Push([ObjectMarker(v)]);
        PutU29(1);
        Push(v.millis);
      } else {
        if |v.bytes| > BlobLimit(v.kind) {
          return Fail(if v.kind == ByteArray then ByteArrayTooLongToWrite(|v.bytes|)
              else StringTooLongToWrite(|v.bytes|));
        }
        Push([ObjectMarker(v)]);
        PutU29(2 * |v.bytes| + 1);
        Push(v.bytes);
      }
      return Pass;
    }

    method PutArray(env: seq<Value>, v: Value, depth: nat) returns (r: Done)
      requires Valid() && v.Array? && depth <= MAX_DEPTH
      modifies this
      ensures Valid() && Wrote(old(out), After([ObjectMarker(v)], WriteComplex(env, old(Tables()), v, depth)), r, out,
              Tables())
      decreases Rank(depth), 0, 0
    {
      hide WriteMembers, WriteValues, WriteU29, Indexed;
      if |v.dense| + |v.associative| > MAX_COLLECTION {
        return Fail(CollectionTooLargeToWrite(|v.dense| + |v.associative|));
      }
      Push([ObjectMarker(v)]);
      PutU29(2 * |v.dense| + 1);
      :- PutMembers(env, v.associative, depth + 1);
      :- PutValues(env, v.dense, depth + 1);
      return Pass;
    }

    method PutVector(env: seq<Value>, v: Value, depth: nat) returns (r: Done)
      requires Valid() && v.VectorObject? && depth <= MAX_DEPTH
      modifies this
      ensures Valid() && Wrote(old(out), After([ObjectMarker(v)], WriteComplex(env, old(Tables()), v, depth)), r, out,
              Tables())
      decreases Rank(depth), 0, 0
    {
      hide WriteValues, WriteString, WriteU29, Indexed;
      if |v.values| > MAX_COLLECTION {
        return Fail(CollectionTooLargeToWrite(|v.values|));
      }
      Push([ObjectMarker(v)]);
      PutU29(2 * |v.values| + 1);
      Push([if v.fixed then 1 else 0]);
      :- PutString(v.typeName);
      :- PutValues(env, v.values, depth + 1);
      return Pass;
    }

    method PutObject(env: seq<Value>, v: Value, depth: nat) returns (r: Done)
      requires Valid() && v.Object? && depth <= MAX_DEPTH
      modifies this
      ensures Valid() && Wrote(old(out), After([ObjectMarker(v)], WriteComplex(env, old(Tables()), v, depth)), r, out,
              Tables())
      decreases Rank(depth), 0, 0
    {
      hide WriteMembers, WriteValues, WriteTrait, Indexed;
      if |v.sealed| > MAX_COLLECTION {
        return Fail(CollectionTooLargeToWrite(|v.sealed|));
      }
      if v.dynamic.Dynamic? && |v.dynamic.members| > MAX_COLLECTION {
        return Fail(CollectionTooLargeToWrite(|v.dynamic.members|));
      }
      Push([ObjectMarker(v)]);
      :- PutTrait(TraitOf(v));
      :- PutValues(env, Values(v.sealed), depth + 1);
      if v.dynamic.Dynamic? {
        :- PutMembers(env, v.dynamic.members, depth + 1);
      }
      return Pass;
    }

    method PutValues(env: seq<Value>, vs: seq<Value>, depth: nat) returns (r: Done)
      requires Valid()
      modifies this
      ensures Valid() && Wrote(old(out), WriteValues(env, old(Tables()), vs, depth), r, out, Tables())
      decreases Rank(depth), 3, |vs|
    {
      hide WriteValue, Indexed;
      ghost var all := WriteValues(env, Tables(), vs, depth);
      ghost var done: seq<byte> := [];
      var i := 0;
      AfterNone(all);
      assert vs[0..] == vs;
      while i < |vs|
        invariant 0 <= i <= |vs| && Valid() && out == old(out) + done
        invariant all == After(done, WriteValues(env, Tables(), vs[i..], depth))
      {
        ghost var w := WriteValue(env, Tables(), vs[i], depth);
        assert vs[i..][0] == vs[i] && vs[i..][1..] == vs[i + 1..];
        :- PutValue(env, vs[i], depth);
        AfterMore(done, w.value.0, WriteValues(env, Tables(), vs[i + 1..], depth));
        done := done + w.value.0;
        i := i + 1;
      }
      return Pass;
    }

    method PutMembers(env: seq<Value>, ms: seq<Member>, depth: nat) returns (r: Done)
      requires Valid()
      modifies this
      ensures Valid() && Wrote(old(out), WriteMembers(env, old(Tables()), ms, depth), r, out, Tables())
      decreases Rank(depth), 3, |ms|
    {
      hide WriteValue, WriteString, WriteU29, Indexed;
      ghost var all := WriteMembers(env, Tables(), ms, depth);
      ghost var done: seq<byte> := [];
      var i := 0;
      AfterNone(all);
      assert ms[0..] == ms;
      while i < |ms|
        invariant 0 <= i <= |ms| && Valid() && out == old(out) + done
        invariant all == After(done, WriteMembers(env, Tables(), ms[i..], depth))
      {
        ghost var name := WriteString(Tables(), ms[i].name);
        assert ms[i..][0] == ms[i] && ms[i..][1..] == ms[i + 1..];
        :- PutString(ms[i].name);
        ghost var value := WriteValue(env, Tables(), ms[i].value, depth);
        :- PutValue(env, ms[i].value, depth);
        ghost var pair := name.value.0 + value.value.0;
        AfterMore(done, pair, WriteMembers(env, Tables(), ms[i + 1..], depth));
        done := done + pair;
        i := i + 1;
      }
      PutU29(1);
      return Pass;
    }
  }

  /** Append a document to `output`; on failure the output is unchanged. */
  method EncodeInto(doc: Document, output: seq<byte>) returns (out: seq<byte>, r: Done)
    ensures match EncodeDocument(doc)
            case Ok(done) => r == Pass && out == output + done.0
            case Err(e) => r == Fail(e) && out == output
  {
    hide WriteValue, Indexed;
    var writer := new Writer(output);
    ghost var all := EncodeDocument(doc);
    ghost var done: seq<byte> := [];
    var i := 0;
    AfterNone(all);
    assert doc.roots[0..] == doc.roots;
    while i < |doc.roots|
      invariant 0 <= i <= |doc.roots| && writer.Valid() && writer.out == output + done
      invariant all == After(done, WriteValues(doc.objects, writer.Tables(), doc.roots[i..], 0))
    {
      ghost var w := WriteValue(doc.objects, writer.Tables(), doc.roots[i], 0);
      assert doc.roots[i..][0] == doc.roots[i] && doc.roots[i..][1..] == doc.roots[i + 1..];
      r := writer.PutValue(doc.objects, doc.roots[i], 0);
      if r.Fail? {
        return writer.out[..|output|], r;
      }
      AfterMore(done, w.value.0, WriteValues(doc.objects, writer.Tables(), doc.roots[i + 1..], 0));
      done := done + w.value.0;
      i := i + 1;
    }
    return writer.out, Pass;
  }
}
