/** What a document needs of a reader's tables, said of the document itself: the distinct strings and
    the distinct traits of everything it reaches. */
module Amf3Demand {
  import opened Amf3
  import opened Amf3Graph
  import opened Amf3Proofs
  import opened Amf3RoundTrip
  import opened Amf3Same
  import opened Amf3Rewrite

  datatype Needs = Needs(strings: set<Str>, traits: set<Trait>)

  const NONE := Needs({}, {})

  ghost function Plus(a: Needs, b: Needs): Needs {
    Needs(a.strings + b.strings, a.traits + b.traits)
  }

  /** The empty string never enters the string table. */
  ghost function NameNeeds(s: Str): Needs {
    Needs(if s == [] then {} else {s}, {})
  }

  ghost function NamesNeed(names: seq<Str>): Needs {
    if names == [] then NONE else Plus(NameNeeds(names[0]), NamesNeed(names[1..]))
  }

  /** What writing `v` puts into the tables, without what is behind its references. */
  ghost function NeedsOf(v: Value): Needs
    decreases v, 0
  {
    match v
    case String(s) => NameNeeds(s)
    case Array(dense, associative) => Plus(MembersNeed(associative), AllNeed(dense))
    case Object(_, sealed, dynamic) =>
      var fixed := Plus(HeadNeeds(TraitOf(v)), MembersNeed(sealed));
      if dynamic.Dynamic? then Plus(fixed, MembersNeed(dynamic.members)) else fixed
    case VectorObject(name, _, values) => Plus(NameNeeds(name), AllNeed(values))
    case _ => NONE
  }

  /** A trait as such, apart from the names of its members. */
  ghost function HeadNeeds(t: Trait): Needs {
    Plus(NameNeeds(t.className), Needs({}, {t}))
  }

  ghost function TraitNeeds(t: Trait): Needs {
    Plus(HeadNeeds(t), NamesNeed(t.names))
  }

  ghost function AllNeed(vs: seq<Value>): Needs
    decreases vs, 1
  {
    if vs == [] then NONE else Plus(NeedsOf(vs[0]), AllNeed(vs[1..]))
  }

  ghost function MembersNeed(ms: seq<Member>): Needs
    decreases ms, 1
  {
    if ms == [] then NONE
    else Plus(Plus(NameNeeds(ms[0].name), NeedsOf(ms[0].value)), MembersNeed(ms[1..]))
  }

  ghost function DocumentNeeds(doc: Document): Needs {
    Plus(AllNeed(doc.roots), AllNeed(doc.objects))
  }

  /** Both tables of a reader hold what `needs` says. */
  ghost predicate Tabled(needs: Needs) {
    |needs.strings| <= MAX_REFERENCES && |needs.traits| <= MAX_REFERENCES
  }

  // ----- needs add up ------------------------------------------------------------------------------------

  lemma PlusTurns(a: Needs, b: Needs, c: Needs)
    ensures Plus(Plus(a, b), c) == Plus(a, Plus(b, c)) == Plus(Plus(a, c), b)
    ensures Plus(a, b) == Plus(b, a) && Plus(a, NONE) == a
  {
  }

  lemma {:induction false} AllNeedJoined(a: seq<Value>, b: seq<Value>)
    ensures AllNeed(a + b) == Plus(AllNeed(a), AllNeed(b))
    decreases |a|
  {
    hide Plus, NeedsOf;
    PlusTurns(AllNeed(b), NONE, NONE);
    if a == [] {
      assert a + b == b;
    } else {
      assert (a + b)[1..] == a[1..] + b;
      AllNeedJoined(a[1..], b);
      PlusTurns(NeedsOf(a[0]), AllNeed(a[1..]), AllNeed(b));
    }
  }

  /** Named values need their names and themselves. */
  lemma {:induction false} ZipNeeds(names: seq<Str>, values: seq<Value>)
    requires |names| == |values|
    ensures MembersNeed(Zip(names, values)) == Plus(NamesNeed(names), AllNeed(values))
    decreases |names|
  {
    hide Plus, NeedsOf, NameNeeds;
    if names == [] {
      PlusTurns(NONE, NONE, NONE);
    } else {
      ZipNeeds(names[1..], values[1..]);
      var a, b, c, d := NameNeeds(names[0]), NeedsOf(values[0]), NamesNeed(names[1..]), AllNeed(values[1..]);
      assert Zip(names, values)[1..] == Zip(names[1..], values[1..]);
      PlusTurns(Plus(a, b), c, d);
      PlusTurns(a, b, c);
      PlusTurns(Plus(a, c), b, d);
    }
  }

  // ----- what the writer notes ---------------------------------------------------------------------------

  ghost function Noted(c: EncodeContext): Needs {
    Needs(c.stringDemand, c.traitDemand)
  }

  /** Whatever is in the tables has been noted, and a trait with its names. */
  ghost predicate Covered(c: EncodeContext) {
    && (forall s :: s in c.strings ==> Plus(Noted(c), NameNeeds(s)) == Noted(c))
    && (forall t :: t in c.traits ==> Plus(Noted(c), TraitNeeds(t)) == Noted(c))
  }

  /** From `c` to `c'` exactly `needs` was noted. */
  ghost predicate Notes(c: EncodeContext, c': EncodeContext, needs: Needs) {
    Noted(c') == Plus(Noted(c), needs) && Covered(c')
  }

  lemma CoveredMore(c: EncodeContext, c': EncodeContext, needs: Needs)
    requires Covered(c) && c'.strings == c.strings && c'.traits == c.traits && Noted(c') == Plus(Noted(c), needs)
    ensures Covered(c')
  {
    hide Noted, Plus, NameNeeds, TraitNeeds;
    forall s | s in c'.strings
      ensures Plus(Noted(c'), NameNeeds(s)) == Noted(c')
    {
      PlusTurns(Noted(c), needs, NameNeeds(s));
    }
    forall t | t in c'.traits
      ensures Plus(Noted(c'), TraitNeeds(t)) == Noted(c')
    {
      PlusTurns(Noted(c), needs, TraitNeeds(t));
    }
  }

  lemma NotesNone(c: EncodeContext)
    requires Covered(c)
    ensures Notes(c, c, NONE)
  {
    PlusTurns(Noted(c), NONE, NONE);
  }

  lemma NotesBoth(c: EncodeContext, c1: EncodeContext, c2: EncodeContext, a: Needs, b: Needs)
    requires Notes(c, c1, a) && Notes(c1, c2, b)
    ensures Notes(c, c2, Plus(a, b))
  {
    hide Noted, Plus, Covered;
    PlusTurns(Noted(c), a, b);
  }

  lemma StringAdded(c: EncodeContext, s: Str)
    requires Covered(c) && s != []
    ensures Notes(c, InternString(c, s), NameNeeds(s))
  {
    hide TraitNeeds;
    var met := c.(stringDemand := c.stringDemand + {s});
    assert Noted(met) == Plus(Noted(c), NameNeeds(s));
    CoveredMore(c, met, NameNeeds(s));
  }

  lemma StringNoted(c: Context, s: Str)
    requires Covered(c) && WriteString(c, s).Ok?
    ensures Notes(c, WriteString(c, s).value.1, NameNeeds(s))
  {
    hide WriteU29, Covered, InternString, Noted, Plus, Indexed;
    if s == [] {
      NotesNone(c);
    } else if s in c.strings {
      Known(c, s);
    } else {
      StringAdded(c, s);
    }
  }

  lemma Known(c: EncodeContext, s: Str)
    requires Covered(c) && s in c.strings
    ensures Notes(c, c, NameNeeds(s))
  {
  }

  lemma {:induction false} StringsNoted(c: Context, names: seq<Str>)
    requires Covered(c) && WriteStrings(c, names).Ok?
    ensures Notes(c, WriteStrings(c, names).value.1, NamesNeed(names))
    decreases |names|
  {
    hide WriteString, Covered, Noted, Plus, NameNeeds, Indexed;
    if names == [] {
      NotesNone(c);
    } else {
      StringNoted(c, names[0]);
      var c1 := WriteString(c, names[0]).value.1;
      StringsNoted(c1, names[1..]);
      NotesBoth(c, c1, WriteStrings(c1, names[1..]).value.1, NameNeeds(names[0]), NamesNeed(names[1..]));
    }
  }

  lemma TraitAdded(c: EncodeContext, c': EncodeContext, t: Trait)
    requires Notes(c, c', Plus(NameNeeds(t.className), NamesNeed(t.names)))
    ensures Notes(c, InternTrait(c', t), TraitNeeds(t))
  {
    hide NamesNeed, NameNeeds, Plus, Covered;
    var met := c'.(traitDemand := c'.traitDemand + {t});
    var name, names, self := NameNeeds(t.className), NamesNeed(t.names), Needs({}, {t});
    assert Noted(met) == Plus(Noted(c'), self) by { PlusOne(c'.stringDemand, c'.traitDemand, t); }
    CoveredMore(c', met, self);
    PlusTurns(Noted(c), Plus(name, names), self);
    PlusTurns(name, names, self);
    PlusTurns(Noted(c), TraitNeeds(t), TraitNeeds(t));
    PlusTwice(TraitNeeds(t));
    TraitCovered(met, t);
  }

  lemma PlusOne(strings: set<Str>, traits: set<Trait>, t: Trait)
    ensures Plus(Needs(strings, traits), Needs({}, {t})) == Needs(strings, traits + {t})
  {
  }

  lemma PlusTwice(a: Needs)
    ensures Plus(a, a) == a
  {
  }

  lemma TraitCovered(c: EncodeContext, t: Trait)
    requires Covered(c) && Plus(Noted(c), TraitNeeds(t)) == Noted(c)
    ensures Covered(c.(traits := c.traits[t := |c.traits|]))
  {
    hide Plus, TraitNeeds, NameNeeds;
    var c' := c.(traits := c.traits[t := |c.traits|]);
    assert Noted(c') == Noted(c);
  }

  lemma TraitNoted(c: Context, t: Trait)
    requires |t.names| <= MAX_COLLECTION && Covered(c) && WriteTrait(c, t).Ok?
    ensures Notes(c, WriteTrait(c, t).value.1, TraitNeeds(t))
  {
    hide WriteString, WriteStrings, WriteU29, NameNeeds, NamesNeed, TraitNeeds, Plus, Noted, InternTrait, Indexed;
    if t !in c.traits {
      hide Covered;
      StringNoted(c, t.className);
      var c1 := WriteString(c, t.className).value.1;
      StringsNoted(c1, t.names);
      var c2 := WriteStrings(c1, t.names).value.1;
      NotesBoth(c, c1, c2, NameNeeds(t.className), NamesNeed(t.names));
      TraitAdded(c, c2, t);
    }
  }

  // ----- and what the numbering has met ------------------------------------------------------------------

  /** What the slots given out between `n` and `n'` need. */
  ghost function SlotsNeed(n: Numbering, n': Numbering): Needs
    requires |n.objects| <= |n'.objects|
  {
    AllNeed(n'.objects[|n.objects|..])
  }

  lemma SlotsNone(n: Numbering)
    ensures SlotsNeed(n, n) == NONE
  {
  }

  lemma SlotsBoth(n: Numbering, n1: Numbering, n2: Numbering)
    requires Later(n, n1, 0) && Later(n1, n2, 0)
    ensures SlotsNeed(n, n2) == Plus(SlotsNeed(n, n1), SlotsNeed(n1, n2))
  {
    hide AllNeed, Plus;
    assert n2.objects[|n.objects|..] == n1.objects[|n.objects|..] + n2.objects[|n1.objects|..];
    AllNeedJoined(n1.objects[|n.objects|..], n2.objects[|n1.objects|..]);
  }

  lemma SlotsFirst(n: Numbering, w: Value, n1: Numbering)
    requires |n.objects| < |n1.objects|
    ensures SlotsNeed(n, n1.(objects := n1.objects[|n.objects| := w])) ==
            Plus(NeedsOf(w), SlotsNeed(n.(objects := n.objects + [Null]), n1))
  {
    hide NeedsOf, Plus;
    var slot := |n.objects|;
    assert n1.objects[slot := w][slot..][1..] == n1.objects[slot + 1..];
  }

  /** The walk so far: writer and numbering agree, and the writer noted `own` and what the slots need. */
  ghost predicate Walked(c: EncodeContext, n: Numbering, c': EncodeContext, n': Numbering, own: Needs) {
    Aligned(c', n') && Later(n, n', 0) && Notes(c, c', Plus(own, SlotsNeed(n, n')))
  }

  lemma WalkedNone(c: EncodeContext, n: Numbering, c': EncodeContext, own: Needs)
    requires Aligned(c, n) && c'.refs == c.refs && c'.next == c.next && Notes(c, c', own)
    ensures Walked(c, n, c', n, own)
  {
    hide Notes, Plus;
    SlotsNone(n);
    PlusTurns(own, NONE, NONE);
  }

  lemma WalkedBoth(c: EncodeContext, n: Numbering, c1: EncodeContext, n1: Numbering, c2: EncodeContext, n2: Numbering,
          a: Needs, b: Needs)
    requires Walked(c, n, c1, n1, a) && Walked(c1, n1, c2, n2, b)
    ensures Walked(c, n, c2, n2, Plus(a, b))
  {
    hide Notes, Plus, SlotsNeed, Aligned;
    SlotsBoth(n, n1, n2);
    var p, q := SlotsNeed(n, n1), SlotsNeed(n1, n2);
    NotesBoth(c, c1, c2, Plus(a, p), Plus(b, q));
    PlusTurns(Plus(a, p), b, q);
    PlusTurns(a, p, b);
    PlusTurns(Plus(a, b), p, q);
  }

  // ----- along the whole document ------------------------------------------------------------------------

  lemma ScalarWalked(env: seq<Value>, c: Context, n: Numbering, v: Value, depth: nat)
    requires Aligned(c, n) && Covered(c) && WriteValue(env, c, v, depth).Ok?
    requires if v.Reference? then v.id in n.refs else !Complex(v)
    ensures var (w, n') := NumberValue(env, n, v);
            Walked(c, n, WriteValue(env, c, v, depth).value.1, n', NeedsOf(w))
  {
    hide Covered, Plus, Noted, Indexed, WriteComplex, NumberComplex, WriteString, NameNeeds, Walked;
    NotesNone(c);
    if v.String? {
      StringNoted(c, v.s);
      NameRewrites(c, v.s);
    }
    var c' := WriteValue(env, c, v, depth).value.1;
    WalkedNone(c, n, c', NeedsOf(NormalScalar(v)));
  }

  lemma ReferenceWalked(c: EncodeContext, n: Numbering, id: nat, c': EncodeContext, n': Numbering)
    requires Aligned(c, n) && id !in n.refs
    requires Walked(c.(refs := c.refs[id := c.next]), n.(refs := n.refs[id := |n.objects|]), c', n', NONE)
    ensures Walked(c, n, c', n', NONE)
  {
    hide Covered, Plus;
    var n1 := n.(refs := n.refs[id := |n.objects|]);
    assert forall k :: k in n.refs ==> k in n1.refs && n1.refs[k] == n.refs[k];
  }

  lemma SlotFilled(c: EncodeContext, n: Numbering, w: Value, c': EncodeContext, n1: Numbering)
    requires Walked(c.(next := c.next + 1), n.(objects := n.objects + [Null]), c', n1, NeedsOf(w))
    ensures Walked(c, n, c', n1.(objects := n1.objects[|n.objects| := w]), NONE)
  {
    hide Covered, Plus, NeedsOf, SlotsNeed;
    SlotsFirst(n, w, n1);
    var n0, n' := n.(objects := n.objects + [Null]), n1.(objects := n1.objects[|n.objects| := w]);
    PlusTurns(SlotsNeed(n, n'), NONE, NONE);
    PlusTurns(NONE, SlotsNeed(n, n'), NONE);
    forall k | 0 <= k < |n.objects|
      ensures n'.objects[k] == n.objects[k]
    {
      assert n1.objects[k] == n0.objects[k];
    }
  }

  lemma {:induction false} ValueWalked(env: seq<Value>, c: Context, n: Numbering, v: Value, depth: nat)
    requires Aligned(c, n) && Covered(c) && WriteValue(env, c, v, depth).Ok?
    ensures var (w, n') := NumberValue(env, n, v);
            Walked(c, n, WriteValue(env, c, v, depth).value.1, n', NeedsOf(w))
    decreases Rank(depth), if v.Reference? then 2 else 1, 1
  {
    hide WriteValue, NumberComplex, Walked, Plus, NameNeeds, TraitNeeds;
    Opening(env, c, v, depth);
    if v.Reference? && v.id !in n.refs {
      var c1, n1 := c.(refs := c.refs[v.id := c.next]), n.(refs := n.refs[v.id := |n.objects|]);
      assert Noted(c1) == Noted(c);
      SlotWalked(env, c1, n1, env[v.id], depth);
      ReferenceWalked(c, n, v.id, WriteValue(env, c1, env[v.id], depth).value.1, NumberComplex(env, n1, env[v.id]).1);
    } else if !v.Reference? && Complex(v) {
      SlotWalked(env, c, n, v, depth);
    } else {
      ScalarWalked(env, c, n, v, depth);
    }
  }

  lemma {:induction false} SlotWalked(env: seq<Value>, c: Context, n: Numbering, v: Value, depth: nat)
    requires Complex(v) && n.refs == c.refs && |n.objects| == c.next && Below(n, c.next + 1)
    requires Covered(c) && WriteValue(env, c, v, depth).Ok?
    ensures Walked(c, n, WriteValue(env, c, v, depth).value.1, NumberComplex(env, n, v).1, NONE)
    decreases Rank(depth), 1, 0
  {
    hide WriteComplex, WriteValue, NumberChildren, Walked, Plus, NameNeeds, TraitNeeds;
    var c0, n0 := c.(next := c.next + 1), n.(objects := n.objects + [Null]);
    InlineOpens(env, c, v, depth);
    assert Noted(c0) == Noted(c);
    ChildrenWalked(env, c0, n0, v, depth);
    var (w, n1) := NumberChildren(env, n0, v);
    SlotFilled(c, n, w, WriteComplex(env, c0, v, depth).value.1, n1);
  }

  lemma {:induction false} ChildrenWalked(env: seq<Value>, c: Context, n: Numbering, v: Value, depth: nat)
    requires Complex(v) && depth <= MAX_DEPTH && Aligned(c, n) && Covered(c) && WriteComplex(env, c, v, depth).Ok?
    ensures var (w, n') := NumberChildren(env, n, v);
            Walked(c, n, WriteComplex(env, c, v, depth).value.1, n', NeedsOf(w))
    decreases Rank(depth), 0, 1
  {
    hide WriteMembers, WriteValues, WriteObject, WriteString, NumberMembers, NumberValues, Indexed, WriteU29;
    hide Walked, Covered, Plus, NameNeeds, AllNeed, MembersNeed, HeadNeeds;
    match v
    case Array(dense, associative) =>
      MembersWalked(env, c, n, associative, depth + 1);
      var (members, n1) := NumberMembers(env, n, associative);
      var c1 := WriteMembers(env, c, associative, depth + 1).value.1;
      WalkedOn(c, n, c1, n1, MembersNeed(members));
      ValuesWalked(env, c1, n1, dense, depth + 1);
      var (items, n2) := NumberValues(env, n1, dense);
      WalkedBoth(c, n, c1, n1, WriteValues(env, c1, dense, depth + 1).value.1, n2, MembersNeed(members),
          AllNeed(items));
    case Object(_, _, _) => ObjectWalked(env, c, n, v, depth);
    case VectorObject(name, _, values) =>
      StringNoted(c, name);
      NameRewrites(c, name);
      var c1 := WriteString(c, name).value.1;
      WalkedNone(c, n, c1, NameNeeds(name));
      WalkedOn(c, n, c1, n, NameNeeds(name));
      ValuesWalked(env, c1, n, values, depth + 1);
      var (items, n1) := NumberValues(env, n, values);
      WalkedBoth(c, n, c1, n, WriteValues(env, c1, values, depth + 1).value.1, n1, NameNeeds(name), AllNeed(items));
    case Date(_) =>
      NotesNone(c);
      WalkedNone(c, n, c, NONE);
    case Blob(_, _) =>
      NotesNone(c);
      WalkedNone(c, n, c, NONE);
  }

  lemma WalkedOn(c: EncodeContext, n: Numbering, c': EncodeContext, n': Numbering, own: Needs)
    requires Walked(c, n, c', n', own)
    ensures Aligned(c', n') && Covered(c')
  {
  }

  lemma {:induction false} ObjectWalked(env: seq<Value>, c: Context, n: Numbering, v: Value, depth: nat)
    requires v.Object? && depth <= MAX_DEPTH && Aligned(c, n) && Covered(c) && WriteObject(env, c, v, depth).Ok?
    ensures var (w, n') := NumberChildren(env, n, v);
            Walked(c, n, WriteObject(env, c, v, depth).value.1, n', NeedsOf(w))
    decreases Rank(depth), 0, 0
  {
    hide WriteMembers, WriteValues, WriteTrait, NumberMembers, NumberValues, Indexed;
    hide Walked, Covered, Plus, AllNeed, MembersNeed, HeadNeeds, TraitNeeds;
    var t := TraitOf(v);
    TraitNoted(c, t);
    TraitRewrites(c, t);
    var c1 := WriteTrait(c, t).value.1;
    WalkedNone(c, n, c1, TraitNeeds(t));
    WalkedOn(c, n, c1, n, TraitNeeds(t));
    ValuesWalked(env, c1, n, Values(v.sealed), depth + 1);
    var (values, n1) := NumberValues(env, n, Values(v.sealed));
    var c2 := WriteValues(env, c1, Values(v.sealed), depth + 1).value.1;
    WalkedBoth(c, n, c1, n, c2, n1, TraitNeeds(t), AllNeed(values));
    SealedNumbered(env, n, v.sealed);
    SealedNeed(t, values);
    var fixed := Plus(HeadNeeds(t), MembersNeed(Zip(t.names, values)));
    WalkedOn(c, n, c2, n1, fixed);
    TraitKept(v, NumberChildren(env, n, v).0, values);
    if v.dynamic.Dynamic? {
      MembersWalked(env, c2, n1, v.dynamic.members, depth + 1);
      var (members, n2) := NumberMembers(env, n1, v.dynamic.members);
      WalkedBoth(c, n, c2, n1, WriteMembers(env, c2, v.dynamic.members, depth + 1).value.1, n2, fixed,
          MembersNeed(members));
    }
  }

  lemma SealedNeed(t: Trait, values: seq<Value>)
    requires |t.names| == |values|
    ensures Plus(TraitNeeds(t), AllNeed(values)) == Plus(HeadNeeds(t), MembersNeed(Zip(t.names, values)))
  {
    hide Plus, HeadNeeds, AllNeed, MembersNeed, NamesNeed;
    ZipNeeds(t.names, values);
    PlusTurns(HeadNeeds(t), NamesNeed(t.names), AllNeed(values));
  }

  /** Numbering an object's members keeps its trait. */
  lemma TraitKept(v: Value, w: Value, values: seq<Value>)
    requires v.Object? && w.Object? && w.className == NormalClass(v.className)
             && w.dynamic.Dynamic? == v.dynamic.Dynamic?
    requires |values| == |v.sealed| && w.sealed == Zip(Names(v.sealed), values)
    ensures TraitOf(w) == TraitOf(v)
  {
    ZipParts(Names(v.sealed), values);
  }

  lemma {:induction false} ValuesWalked(env: seq<Value>, c: Context, n: Numbering, vs: seq<Value>, depth: nat)
    requires Aligned(c, n) && Covered(c) && WriteValues(env, c, vs, depth).Ok?
    ensures var (ws, n') := NumberValues(env, n, vs);
            Walked(c, n, WriteValues(env, c, vs, depth).value.1, n', AllNeed(ws))
    decreases Rank(depth), 3, |vs|
  {
    hide WriteValue, NumberValue, Indexed, Walked, Covered, Plus, NeedsOf;
    if vs == [] {
      NotesNone(c);
      WalkedNone(c, n, c, NONE);
    } else {
      ValueWalked(env, c, n, vs[0], depth);
      var (first, n1) := NumberValue(env, n, vs[0]);
      var c1 := WriteValue(env, c, vs[0], depth).value.1;
      WalkedOn(c, n, c1, n1, NeedsOf(first));
      ValuesWalked(env, c1, n1, vs[1..], depth);
      var (others, n2) := NumberValues(env, n1, vs[1..]);
      WalkedBoth(c, n, c1, n1, WriteValues(env, c1, vs[1..], depth).value.1, n2, NeedsOf(first), AllNeed(others));
      assert ([first] + others)[1..] == others;
    }
  }

  lemma {:induction false} MembersWalked(env: seq<Value>, c: Context, n: Numbering, ms: seq<Member>, depth: nat)
    requires Aligned(c, n) && Covered(c) && WriteMembers(env, c, ms, depth).Ok?
    ensures var (ws, n') := NumberMembers(env, n, ms);
            Walked(c, n, WriteMembers(env, c, ms, depth).value.1, n', MembersNeed(ws))
    decreases Rank(depth), 3, |ms|
  {
    hide WriteValue, WriteString, NumberValue, Indexed, WriteU29, Walked, Covered, Plus, NeedsOf, NameNeeds;
    if ms == [] {
      NotesNone(c);
      WalkedNone(c, n, c, NONE);
    } else {
      var (name, value) := (ms[0].name, ms[0].value);
      StringNoted(c, name);
      NameRewrites(c, name);
      var c1 := WriteString(c, name).value.1;
      WalkedNone(c, n, c1, NameNeeds(name));
      WalkedOn(c, n, c1, n, NameNeeds(name));
      ValueWalked(env, c1, n, value, depth);
      var (first, n1) := NumberValue(env, n, value);
      var c2 := WriteValue(env, c1, value, depth).value.1;
      WalkedBoth(c, n, c1, n, c2, n1, NameNeeds(name), NeedsOf(first));
      var own := Plus(NameNeeds(name), NeedsOf(first));
      WalkedOn(c, n, c2, n1, own);
      MembersWalked(env, c2, n1, ms[1..], depth);
      var (others, n2) := NumberMembers(env, n1, ms[1..]);
      WalkedBoth(c, n, c2, n1, WriteMembers(env, c2, ms[1..], depth).value.1, n2, own, MembersNeed(others));
      assert ([Member(name, first)] + others)[1..] == others;
    }
  }

  /** The writer counts exactly the distinct strings and traits that the renumbered document holds. */
  lemma CountsNeeds(doc: Document)
    requires EncodeDocument(doc).Ok?
    ensures Noted(EncodeDocument(doc).value.1) == DocumentNeeds(Renumber(doc))
    ensures Fits(EncodeDocument(doc).value.1) <==> Tabled(DocumentNeeds(Renumber(doc)))
  {
    hide WriteValues, NumberValues, AllNeed;
    var start := Numbering(map[], []);
    ValuesWalked(doc.objects, NewEncodeContext, start, doc.roots, 0);
    var (roots, n) := NumberValues(doc.objects, start, doc.roots);
    assert n.objects[|start.objects|..] == n.objects;
    PlusTurns(NONE, DocumentNeeds(Renumber(doc)), NONE);
  }

  /** The same for a value on its own. */
  lemma CountsSingle(env: seq<Value>, v: Value)
    requires WriteValue(env, NewEncodeContext, v, 0).Ok?
    ensures var (u, m) := NumberValue(env, Numbering(map[], []), v);
            Noted(WriteValue(env, NewEncodeContext, v, 0).value.1) == Plus(NeedsOf(u), AllNeed(m.objects))
  {
    hide WriteValue, NumberValue, AllNeed, NeedsOf;
    var start := Numbering(map[], []);
    ValueWalked(env, NewEncodeContext, start, v, 0);
    var (u, m) := NumberValue(env, start, v);
    assert m.objects[|start.objects|..] == m.objects;
    PlusTurns(NONE, Plus(NeedsOf(u), AllNeed(m.objects)), NONE);
  }
}
