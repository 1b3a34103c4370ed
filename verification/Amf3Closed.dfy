/** What a value refers to, and that a document that can be written refers to nothing that is not there,
    as far as it is reached. */
module Amf3Closed {
  import opened Amf3
  import opened Amf3Graph
  import opened Amf3Same
  import opened Amf3Rewrite
  import D3 = Amf3Demand

  /** The objects that a value refers to itself, not through other objects. */
  ghost function Mentioned(v: Value): set<nat>
    decreases v, 0
  {
    match v
    case Reference(id) => {id}
    case Array(dense, associative) => MembersMentioned(associative) + AllMentioned(dense)
    case Object(_, sealed, dynamic) =>
      MembersMentioned(sealed) + (if dynamic.Dynamic? then MembersMentioned(dynamic.members) else {})
    case VectorObject(_, _, values) => AllMentioned(values)
    case _ => {}
  }

  ghost function AllMentioned(vs: seq<Value>): set<nat>
    decreases vs, 1
  {
    if vs == [] then {} else Mentioned(vs[0]) + AllMentioned(vs[1..])
  }

  ghost function MembersMentioned(ms: seq<Member>): set<nat>
    decreases ms, 1
  {
    if ms == [] then {} else Mentioned(ms[0].value) + MembersMentioned(ms[1..])
  }

  /** No reference in the value dangles. */
  ghost predicate Closed(env: seq<Value>, v: Value) {
    forall id :: id in Mentioned(v) ==> !Dangling(env, id)
  }

  // ----- the writer meets what is mentioned -----------------------------------------------------------------

  /** From `c` to `c'` the writer has met `ids`, and all that the objects newly met mention. */
  ghost predicate Gathers(env: seq<Value>, c: EncodeContext, c': EncodeContext, ids: set<nat>) {
    && c.refs.Keys <= c'.refs.Keys && ids <= c'.refs.Keys
    && (forall id :: id in c'.refs && id !in c.refs ==> !Dangling(env, id) && Mentioned(env[id]) <= c'.refs.Keys)
  }

  lemma GathersNone(env: seq<Value>, c: EncodeContext, c': EncodeContext)
    requires c'.refs == c.refs
    ensures Gathers(env, c, c', {})
  {
  }

  lemma GathersBoth(env: seq<Value>, c: EncodeContext, c1: EncodeContext, c2: EncodeContext, a: set<nat>, b: set<nat>)
    requires Gathers(env, c, c1, a) && Gathers(env, c1, c2, b)
    ensures Gathers(env, c, c2, a + b)
  {
    hide Mentioned;
  }

  lemma StringRefs(c: Context, s: Str)
    requires WriteString(c, s).Ok?
    ensures WriteString(c, s).value.1.refs == c.refs
  {
    hide WriteU29;
  }

  lemma {:induction false} StringsRefs(c: Context, names: seq<Str>)
    requires WriteStrings(c, names).Ok?
    ensures WriteStrings(c, names).value.1.refs == c.refs
    decreases |names|
  {
    hide WriteString;
    if names != [] {
      StringRefs(c, names[0]);
      StringsRefs(WriteString(c, names[0]).value.1, names[1..]);
    }
  }

  lemma TraitRefs(c: Context, t: Trait)
    requires |t.names| <= MAX_COLLECTION && WriteTrait(c, t).Ok?
    ensures WriteTrait(c, t).value.1.refs == c.refs
  {
    hide WriteString, WriteStrings, WriteU29;
    if t !in c.traits {
      StringRefs(c, t.className);
      StringsRefs(WriteString(c, t.className).value.1, t.names);
    }
  }

  lemma PlainGathers(env: seq<Value>, c: Context, v: Value, depth: nat)
    requires WriteValue(env, c, v, depth).Ok?
    requires if v.Reference? then v.id in c.refs else !Complex(v)
    ensures Gathers(env, c, WriteValue(env, c, v, depth).value.1, Mentioned(v))
  {
    hide WriteComplex, WriteU29, WriteString, Indexed;
    if v.String? {
      StringRefs(c, v.s);
    }
  }

  lemma MeetingGathers(env: seq<Value>, c: EncodeContext, id: nat, c': EncodeContext)
    requires !Dangling(env, id) && Gathers(env, c.(refs := c.refs[id := c.next]), c', Mentioned(env[id]))
    ensures Gathers(env, c, c', {id})
  {
    hide Mentioned;
    assert id in c.refs[id := c.next].Keys;
  }

  lemma {:induction false} ValueGathers(env: seq<Value>, c: Context, v: Value, depth: nat)
    requires WriteValue(env, c, v, depth).Ok?
    ensures Gathers(env, c, WriteValue(env, c, v, depth).value.1, Mentioned(v))
    decreases Rank(depth), if v.Reference? then 2 else 1, 1
  {
    hide WriteValue, WriteComplex, Gathers;
    Opening(env, c, v, depth);
    if v.Reference? && v.id !in c.refs {
      var c1 := c.(refs := c.refs[v.id := c.next]);
      ValueGathers(env, c1, env[v.id], depth);
      MeetingGathers(env, c, v.id, WriteValue(env, c1, env[v.id], depth).value.1);
    } else if Complex(v) {
      InlineOpens(env, c, v, depth);
      var c0 := c.(next := c.next + 1);
      ComplexGathers(env, c0, v, depth);
      SameGathers(env, c, c0, WriteComplex(env, c0, v, depth).value.1, Mentioned(v));
    } else {
      PlainGathers(env, c, v, depth);
    }
  }

  lemma {:induction false} ComplexGathers(env: seq<Value>, c: Context, v: Value, depth: nat)
    requires Complex(v) && depth <= MAX_DEPTH && WriteComplex(env, c, v, depth).Ok?
    ensures Gathers(env, c, WriteComplex(env, c, v, depth).value.1, Mentioned(v))
    decreases Rank(depth), 0, 1
  {
    hide WriteMembers, WriteValues, WriteString, WriteTrait, WriteU29, Indexed, Gathers, AllMentioned, MembersMentioned;
    match v
    case Array(dense, associative) =>
      MembersGather(env, c, associative, depth + 1);
      var c1 := WriteMembers(env, c, associative, depth + 1).value.1;
      AllGather(env, c1, dense, depth + 1);
      GathersBoth(env, c, c1, WriteValues(env, c1, dense, depth + 1).value.1, MembersMentioned(associative),
          AllMentioned(dense));
    case Object(_, _, _) => ObjectGathers(env, c, v, depth);
    case VectorObject(name, _, values) =>
      StringRefs(c, name);
      var c1 := WriteString(c, name).value.1;
      AllGather(env, c1, values, depth + 1);
      SameGathers(env, c, c1, WriteValues(env, c1, values, depth + 1).value.1, AllMentioned(values));
    case Date(_) => GathersNone(env, c, c);
    case Blob(_, _) => GathersNone(env, c, c);
  }

  lemma SameGathers(env: seq<Value>, c: EncodeContext, c1: EncodeContext, c': EncodeContext, ids: set<nat>)
    requires c1.refs == c.refs && Gathers(env, c1, c', ids)
    ensures Gathers(env, c, c', ids)
  {
  }

  lemma {:induction false} ObjectGathers(env: seq<Value>, c: Context, v: Value, depth: nat)
    requires v.Object? && depth <= MAX_DEPTH && WriteObject(env, c, v, depth).Ok?
    ensures Gathers(env, c, WriteObject(env, c, v, depth).value.1, Mentioned(v))
    decreases Rank(depth), 0, 0
  {
    hide WriteMembers, WriteValues, WriteTrait, Indexed, Gathers, AllMentioned, MembersMentioned;
    TraitRefs(c, TraitOf(v));
    var c1 := WriteTrait(c, TraitOf(v)).value.1;
    AllGather(env, c1, Values(v.sealed), depth + 1);
    var c2 := WriteValues(env, c1, Values(v.sealed), depth + 1).value.1;
    ValuesMentioned(v.sealed);
    SameGathers(env, c, c1, c2, MembersMentioned(v.sealed));
    if v.dynamic.Dynamic? {
      MembersGather(env, c2, v.dynamic.members, depth + 1);
      GathersBoth(env, c, c2, WriteMembers(env, c2, v.dynamic.members, depth + 1).value.1, MembersMentioned(v.sealed),
          MembersMentioned(v.dynamic.members));
    } else {
      assert MembersMentioned(v.sealed) + {} == MembersMentioned(v.sealed);
    }
  }

  lemma {:induction false} ValuesMentioned(ms: seq<Member>)
    ensures AllMentioned(Values(ms)) == MembersMentioned(ms)
    decreases |ms|
  {
    hide Mentioned;
    if ms != [] {
      ValuesMentioned(ms[1..]);
    }
  }

  lemma {:induction false} AllGather(env: seq<Value>, c: Context, vs: seq<Value>, depth: nat)
    requires WriteValues(env, c, vs, depth).Ok?
    ensures Gathers(env, c, WriteValues(env, c, vs, depth).value.1, AllMentioned(vs))
    decreases Rank(depth), 3, |vs|
  {
    hide WriteValue, Indexed, Gathers, Mentioned;
    if vs == [] {
      GathersNone(env, c, c);
    } else {
      ValueGathers(env, c, vs[0], depth);
      var c1 := WriteValue(env, c, vs[0], depth).value.1;
      AllGather(env, c1, vs[1..], depth);
      GathersBoth(env, c, c1, WriteValues(env, c1, vs[1..], depth).value.1, Mentioned(vs[0]), AllMentioned(vs[1..]));
    }
  }

  lemma {:induction false} MembersGather(env: seq<Value>, c: Context, ms: seq<Member>, depth: nat)
    requires WriteMembers(env, c, ms, depth).Ok?
    ensures Gathers(env, c, WriteMembers(env, c, ms, depth).value.1, MembersMentioned(ms))
    decreases Rank(depth), 3, |ms|
  {
    hide WriteValue, WriteString, WriteU29, Indexed, Gathers, Mentioned;
    if ms == [] {
      GathersNone(env, c, c);
    } else {
      StringRefs(c, ms[0].name);
      var c1 := WriteString(c, ms[0].name).value.1;
      ValueGathers(env, c1, ms[0].value, depth);
      var c2 := WriteValue(env, c1, ms[0].value, depth).value.1;
      SameGathers(env, c, c1, c2, Mentioned(ms[0].value));
      MembersGather(env, c2, ms[1..], depth);
      GathersBoth(env, c, c2, WriteMembers(env, c2, ms[1..], depth).value.1, Mentioned(ms[0].value),
          MembersMentioned(ms[1..]));
    }
  }

  // ----- closed as far as it is reached -----------------------------------------------------------------------

  /** The objects that some values reach. */
  ghost function Met(env: seq<Value>, vs: seq<Value>): set<nat> {
    NumberValues(env, Numbering(map[], []), vs).1.refs.Keys
  }

  /** Neither these values nor the objects they reach hold a dangling reference. */
  ghost predicate ReachClosed(env: seq<Value>, vs: seq<Value>) {
    && (forall i :: 0 <= i < |vs| ==> Closed(env, vs[i]))
    && (forall id :: id in Met(env, vs) ==> id < |env| && Closed(env, env[id]))
  }

  lemma {:induction false} MentionedIn(vs: seq<Value>, i: nat)
    requires i < |vs|
    ensures Mentioned(vs[i]) <= AllMentioned(vs)
    decreases |vs|
  {
    hide Mentioned;
    if i > 0 {
      MentionedIn(vs[1..], i - 1);
    }
  }

  /** Values that can be written are closed as far as they reach. */
  lemma WrittenClosed(env: seq<Value>, vs: seq<Value>, depth: nat)
    requires WriteValues(env, NewEncodeContext, vs, depth).Ok?
    ensures ReachClosed(env, vs)
  {
    hide WriteValues, NumberValues, AllMentioned, Mentioned, D3.AllNeed, D3.Notes, D3.SlotsNeed;
    AllGather(env, NewEncodeContext, vs, depth);
    var c := WriteValues(env, NewEncodeContext, vs, depth).value.1;
    D3.ValuesWalked(env, NewEncodeContext, Numbering(map[], []), vs, depth);
    assert c.refs == NumberValues(env, Numbering(map[], []), vs).1.refs;
    forall i | 0 <= i < |vs|
      ensures Closed(env, vs[i])
    {
      MentionedIn(vs, i);
    }
  }
}
