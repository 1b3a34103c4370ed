/** AMF3 values as graph expansion sees them, and what the codec does to the trees they unfold to:
    nothing but the normal form of integers and class names. */
module Amf3Tree {
  import opened Base
  import opened Amf3
  import opened Amf3Graph
  import opened Amf3Same
  import opened Amf3Moved
  import opened Amf3Closed
  import opened Graph
  import A0 = Amf0
  import R3 = Amf3RoundTrip
  import E3 = Amf3Exact

  /** What a node is: an AMF3 or an AMF0 value without its children. */
  datatype Kind = Amf3Node(v: Value) | Amf0Node(w: A0.Value)

  /** Storage sizes of a value and of a named value. */
  datatype Sizes = Sizes(value: nat, member: nat)

  // ----- values as trees -------------------------------------------------------------------------------

  function Hollows(n: nat): (r: seq<Value>)
    ensures |r| == n
  {
    if n == 0 then [] else Hollows(n - 1) + [Null]
  }

  function HollowMembers(ms: seq<Member>): (r: seq<Member>)
    ensures |r| == |ms|
  {
    if ms == [] then [] else [Member(ms[0].name, Null)] + HollowMembers(ms[1..])
  }

  /** A value without its children. */
  function Hollow(v: Value): Value {
    match v
    case Array(dense, associative) => Array(Hollows(|dense|), HollowMembers(associative))
    case Object(name, sealed, dynamic) =>
      Object(name, HollowMembers(sealed),
          if dynamic.Dynamic? then Dynamic(HollowMembers(dynamic.members)) else NotDynamic)
    case VectorObject(name, fixed, values) => VectorObject(name, fixed, Hollows(|values|))
    case _ => v
  }

  function NameBytes(ms: seq<Member>): nat {
    if ms == [] then 0 else |ms[0].name| + NameBytes(ms[1..])
  }

  function Pairs(ms: seq<Member>, sizes: Sizes): nat {
    |ms| * sizes.member + NameBytes(ms)
  }

  /** The heap bytes a value holds itself. */
  function HeapBytes(v: Value, sizes: Sizes): nat {
    match v
    case String(s) => |s|
    case Blob(_, bytes) => |bytes|
    case Array(dense, associative) => |dense| * sizes.value + Pairs(associative, sizes)
    case Object(name, sealed, dynamic) =>
      (if name.Some? then |name.value| else 0) + Pairs(sealed,
          sizes) + (if dynamic.Dynamic? then Pairs(dynamic.members, sizes) else 0)
    case VectorObject(name, _, values) => |name| + |values| * sizes.value
    case _ => 0
  }

  function AsTree(v: Value, sizes: Sizes): (t: Tree<Kind>)
    ensures v.Reference? <==> t.Ref?
    decreases v, 0
  {
    match v
    case Reference(id) => Ref(Inner(id))
    case Array(dense, associative) =>
        Node(Amf3Node(Hollow(v)), HeapBytes(v, sizes), Trees(dense, sizes) + MemberTrees(associative, sizes))
    case Object(_, sealed, dynamic) =>
      Node(Amf3Node(Hollow(v)), HeapBytes(v, sizes),
           MemberTrees(sealed, sizes) + (if dynamic.Dynamic? then MemberTrees(dynamic.members, sizes) else []))
    case VectorObject(_, _, values) => Node(Amf3Node(Hollow(v)), HeapBytes(v, sizes), Trees(values, sizes))
    case _ => Node(Amf3Node(Hollow(v)), HeapBytes(v, sizes), [])
  }

  function Trees(vs: seq<Value>, sizes: Sizes): (r: seq<Tree<Kind>>)
    ensures |r| == |vs| && forall i :: 0 <= i < |vs| ==> r[i] == AsTree(vs[i], sizes)
    decreases vs, 1
  {
    if vs == [] then [] else [AsTree(vs[0], sizes)] + Trees(vs[1..], sizes)
  }

  function MemberTrees(ms: seq<Member>, sizes: Sizes): (r: seq<Tree<Kind>>)
    ensures |r| == |ms| && forall i :: 0 <= i < |ms| ==> r[i] == AsTree(ms[i].value, sizes)
    decreases ms, 1
  {
    if ms == [] then [] else [AsTree(ms[0].value, sizes)] + MemberTrees(ms[1..], sizes)
  }

  // ----- moving an arena ---------------------------------------------------------------------------------

  function Shift<L>(t: Tree<L>, base: nat): Tree<L>
    decreases t, 0
  {
    match t
    case Ref(id) => Ref(if id.Inner? then Inner(id.index + base) else id)
    case Node(kind, heap, children) => Node(kind, heap, ShiftAll(children, base))
  }

  function ShiftAll<L>(ts: seq<Tree<L>>, base: nat): (r: seq<Tree<L>>)
    ensures |r| == |ts| && forall i :: 0 <= i < |ts| ==> r[i] == Shift(ts[i], base)
    decreases ts, 1
  {
    if ts == [] then [] else [Shift(ts[0], base)] + ShiftAll(ts[1..], base)
  }

  /** Appended to another arena and moved along, a graph unfolds to what it did before. */
  lemma {:induction false} ShiftUnfolds<L>(prefix: seq<Tree<L>>, objects: seq<Tree<L>>, v: Tree<L>, t: Tree<L>)
    ensures Unfolds(Arenas([], prefix + ShiftAll(objects, |prefix|)), Shift(v, |prefix|), t) <==>
            Unfolds(Arenas([], objects), v, t)
    decreases t
  {
    var base := |prefix|;
    var before, moved := Arenas([], objects), Arenas([], prefix + ShiftAll(objects, base));
    var n := Resolve(before, v);
    if n.Node? {
      assert Resolve(moved, Shift(v, base)) == Shift(n, base);
      if t.Node? && |t.children| == |n.children| {
        forall i | 0 <= i < |t.children|
          ensures Unfolds(moved, Shift(n, base).children[i], t.children[i]) <==>
                  Unfolds(before, n.children[i], t.children[i])
        {
          ShiftUnfolds(prefix, objects, n.children[i], t.children[i]);
        }
      }
    } else {
      assert Resolve(moved, Shift(v, base)).Ref?;
    }
  }

  lemma {:induction false} RelocateMembersHollow(ms: seq<Member>, base: nat)
    ensures HollowMembers(RelocateMembers(ms, base)) == HollowMembers(ms)
            && NameBytes(RelocateMembers(ms, base)) == NameBytes(ms)
    decreases |ms|
  {
    if ms != [] {
      RelocateMembersHollow(ms[1..], base);
    }
  }

  lemma RelocateHollow(v: Value, base: nat, sizes: Sizes)
    requires !v.Reference?
    ensures var w := Relocate(v, base); Hollow(w) == Hollow(v) && HeapBytes(w, sizes) == HeapBytes(v, sizes)
  {
    hide HollowMembers, NameBytes, Pairs, Hollows;
    match v
    case Array(_, associative) =>
      RelocateMembersHollow(associative, base);
      PairsSame(associative, RelocateMembers(associative, base), sizes);
    case Object(_, sealed, dynamic) =>
      RelocateMembersHollow(sealed, base);
      PairsSame(sealed, RelocateMembers(sealed, base), sizes);
      if dynamic.Dynamic? {
        RelocateMembersHollow(dynamic.members, base);
        PairsSame(dynamic.members, RelocateMembers(dynamic.members, base), sizes);
      }
    case _ =>
  }

  lemma PairsSame(ms: seq<Member>, ws: seq<Member>, sizes: Sizes)
    requires |ms| == |ws| && NameBytes(ms) == NameBytes(ws)
    ensures Pairs(ms, sizes) == Pairs(ws, sizes)
  {
  }

  /** Relocating a value shifts its tree. */
  lemma {:induction false} RelocateShifts(v: Value, base: nat, sizes: Sizes)
    ensures AsTree(Relocate(v, base), sizes) == Shift(AsTree(v, sizes), base)
    decreases v, 0
  {
    hide Hollow, HeapBytes;
    if !v.Reference? {
      RelocateHollow(v, base, sizes);
    }
    match v
    case Array(dense, associative) =>
      RelocateAllShifts(dense, base, sizes);
      RelocateMembersShift(associative, base, sizes);
      ShiftConcat(Trees(dense, sizes), MemberTrees(associative, sizes), base);
    case Object(_, sealed, dynamic) =>
      RelocateMembersShift(sealed, base, sizes);
      if dynamic.Dynamic? {
        RelocateMembersShift(dynamic.members, base, sizes);
        ShiftConcat(MemberTrees(sealed, sizes), MemberTrees(dynamic.members, sizes), base);
      } else {
        ShiftConcat(MemberTrees(sealed, sizes), [], base);
      }
    case VectorObject(_, _, values) => RelocateAllShifts(values, base, sizes);
    case _ =>
  }

  lemma ShiftConcat<L>(a: seq<Tree<L>>, b: seq<Tree<L>>, base: nat)
    ensures ShiftAll(a + b, base) == ShiftAll(a, base) + ShiftAll(b, base)
  {
  }

  lemma {:induction false} RelocateAllShifts(vs: seq<Value>, base: nat, sizes: Sizes)
    ensures Trees(RelocateAll(vs, base), sizes) == ShiftAll(Trees(vs, sizes), base)
    decreases vs, 1
  {
    forall i | 0 <= i < |vs|
      ensures AsTree(Relocate(vs[i], base), sizes) == Shift(AsTree(vs[i], sizes), base)
    {
      RelocateShifts(vs[i], base, sizes);
    }
  }

  lemma {:induction false} RelocateMembersShift(ms: seq<Member>, base: nat, sizes: Sizes)
    ensures MemberTrees(RelocateMembers(ms, base), sizes) == ShiftAll(MemberTrees(ms, sizes), base)
    decreases ms, 1
  {
    forall i | 0 <= i < |ms|
      ensures AsTree(Relocate(ms[i].value, base), sizes) == Shift(AsTree(ms[i].value, sizes), base)
    {
      RelocateShifts(ms[i].value, base, sizes);
    }
  }

  /** An embedded AMF3 document keeps, in the arena it is appended to, every tree it unfolded to. */
  lemma EmbeddingKeepsTrees(arena: seq<Value>, doc: Document, v: Value, sizes: Sizes, t: Tree<Kind>)
    ensures Unfolds(Arenas([], Trees(arena + RelocateAll(doc.objects, |arena|), sizes)),
            AsTree(Relocate(v, |arena|), sizes), t) <==>
            Unfolds(Arenas([], Trees(doc.objects, sizes)), AsTree(v, sizes), t)
  {
    var base := |arena|;
    RelocateShifts(v, base, sizes);
    RelocateAllShifts(doc.objects, base, sizes);
    assert Trees(arena + RelocateAll(doc.objects, base), sizes) ==
        Trees(arena, sizes) + ShiftAll(Trees(doc.objects, sizes), base);
    ShiftUnfolds(Trees(arena, sizes), Trees(doc.objects, sizes), AsTree(v, sizes), t);
  }

  // ----- renumbering keeps the trees -------------------------------------------------------------------

  /** Integers beyond 29 bits are doubles, and an empty class name is none. */
  function NormalKind(k: Kind): Kind {
    match k
    case Amf3Node(v) =>
      Amf3Node(match v
               case Integer(_) => NormalScalar(v)
               case Object(name, sealed, dynamic) => Object(NormalClass(name), sealed, dynamic)
               case _ => v)
    case Amf0Node(_) => k
  }

  function Normal(t: Tree<Kind>): Tree<Kind>
    decreases t, 0
  {
    match t
    case Ref(_) => t
    case Node(kind, heap, children) => Node(NormalKind(kind), heap, NormalAll(children))
  }

  function NormalAll(ts: seq<Tree<Kind>>): (r: seq<Tree<Kind>>)
    ensures |r| == |ts| && forall i :: 0 <= i < |ts| ==> r[i] == Normal(ts[i])
    decreases ts, 1
  {
    if ts == [] then [] else [Normal(ts[0])] + NormalAll(ts[1..])
  }

  lemma NormalNone()
    ensures NormalAll([]) == []
  {
  }

  /** One tree more, of the first `k` of these. */
  lemma NormalOn(ts: seq<Tree<Kind>>, t: Tree<Kind>, us: seq<Tree<Kind>>, k: nat)
    requires k < |us| && NormalAll(ts) == us[..k] && Normal(t) == us[k]
    ensures NormalAll(ts + [t]) == us[..k + 1]
  {
    hide Normal;
  }

  lemma {:induction false} MembersHollow(env: seq<Value>, ms: seq<Member>, ws: seq<Member>, n: Numbering, lo: nat)
    requires SameMembers(env, ms, ws, n, lo)
    ensures HollowMembers(ws) == HollowMembers(ms) && NameBytes(ws) == NameBytes(ms)
    decreases |ms|
  {
    if ms != [] {
      assert SameMembers(env, ms[1..], ws[1..], n, lo);
      MembersHollow(env, ms[1..], ws[1..], n, lo);
    }
  }

  /** Values of the same shape differ in their nodes only by the normal form. */
  lemma ShapeHollow(env: seq<Value>, v: Value, w: Value, n: Numbering, lo: nat, sizes: Sizes)
    requires Complex(v) && SameShape(env, v, w, n, lo)
    ensures Amf3Node(Hollow(w)) == NormalKind(Amf3Node(Hollow(v))) && HeapBytes(w, sizes) == HeapBytes(v, sizes)
  {
    match v
    case Array(_, associative) => MembersHollow(env, associative, w.associative, n, lo);
    case Object(_, sealed, dynamic) =>
      MembersHollow(env, sealed, w.sealed, n, lo);
      if dynamic.Dynamic? {
        MembersHollow(env, dynamic.members, w.dynamic.members, n, lo);
      }
    case _ =>
  }

  /** The children of a value, in visiting order. */
  ghost function Kids(v: Value): (r: seq<Value>) {
    match v
    case Array(dense, associative) => dense + Values(associative)
    case Object(_, sealed, dynamic) => Values(sealed) + (if dynamic.Dynamic? then Values(dynamic.members) else [])
    case VectorObject(_, _, values) => values
    case _ => []
  }

  lemma {:induction false} ValueAt(ms: seq<Member>, i: nat)
    requires i < |ms|
    ensures Values(ms)[i] == ms[i].value
    decreases |ms|
  {
    if i > 0 {
      ValueAt(ms[1..], i - 1);
    }
  }

  lemma KidTrees(v: Value, sizes: Sizes)
    requires !v.Reference?
    ensures var t := AsTree(v, sizes);
            t == Node(Amf3Node(Hollow(v)), HeapBytes(v, sizes), t.children) && |t.children| == |Kids(v)|
            && forall i :: 0 <= i < |Kids(v)| ==> t.children[i] == AsTree(Kids(v)[i], sizes)
  {
    hide Hollow, HeapBytes;
    var t := AsTree(v, sizes);
    forall ms: seq<Member>, i | 0 <= i < |ms|
      ensures Values(ms)[i] == ms[i].value
    {
      ValueAt(ms, i);
    }
  }

  lemma KidsSame(env: seq<Value>, v: Value, w: Value, n: Numbering, lo: nat)
    requires Complex(v) && SameShape(env, v, w, n, lo)
    ensures |Kids(w)| == |Kids(v)| && forall i :: 0 <= i < |Kids(v)| ==> Same(env, Kids(v)[i], Kids(w)[i], n, lo)
  {
    hide Same;
    forall ms: seq<Member>, i | 0 <= i < |ms|
      ensures Values(ms)[i] == ms[i].value
    {
      ValueAt(ms, i);
    }
  }

  /** The numbering has settled every object it knows, in a graph without dangling references. */
  ghost predicate Settled(env: seq<Value>, n: Numbering) {
    forall id :: id in n.refs ==> SettledAt(env, n, id) && Closed(env, env[id])
  }

  lemma ClosedKid(env: seq<Value>, v: Value, i: nat)
    requires Closed(env, v) && i < |Kids(v)|
    ensures Closed(env, Kids(v)[i])
  {
    hide Dangling, AllMentioned, MembersMentioned;
    match v
    case Array(dense, associative) =>
      ValuesMentioned(associative);
      if i < |dense| {
        MentionedIn(dense, i);
      } else {
        MentionedIn(Values(associative), i - |dense|);
      }
    case Object(_, sealed, dynamic) =>
      ValuesMentioned(sealed);
      if i < |sealed| {
        MentionedIn(Values(sealed), i);
      } else {
        ValuesMentioned(dynamic.members);
        MentionedIn(Values(dynamic.members), i - |sealed|);
      }
    case VectorObject(_, _, values) => MentionedIn(values, i);
    case _ =>
  }

  /** Where the renumbered objects are: from `base` on in the inner arena. */
  datatype Site = Site(outer: seq<Tree<Kind>>, arena: seq<Value>, base: nat)

  ghost function At(site: Site, sizes: Sizes): Arenas<Kind> {
    Arenas(site.outer, Trees(site.arena, sizes))
  }

  /** What stands for a value: the object and the slot behind two references, or the value and its
      slot. */
  lemma Behind(env: seq<Value>, outer: seq<Tree<Kind>>, v: Value, w: Value, n: Numbering, lo: nat, sizes: Sizes,
          site: Site)
      returns (x: Value, y: Value, at: nat)
    requires Same(env, v, w, n, lo) && Closed(env, v) && Settled(env, n) && (v.Reference? || Complex(v))
    requires Holds(site.arena, n.objects, site.base)
    ensures Complex(x) && !x.Reference? && SameShape(env, x, y, n, at) && !y.Reference? && Closed(env, x)
    ensures Resolve(Arenas(outer, Trees(env, sizes)), AsTree(v, sizes)) == AsTree(x, sizes)
    ensures Resolve(At(site, sizes), AsTree(Relocate(w, site.base), sizes)) == AsTree(Relocate(y, site.base), sizes)
  {
    hide SameShape, AsTree, Trees, Holds, Settled, Closed, Relocate, At;
    if v.Reference? {
      ReferenceSettled(env, v.id, n);
      x, y, at := env[v.id], n.objects[n.refs[v.id]], n.refs[v.id] + 1;
      ReferenceTree(env, outer, v.id, sizes);
      SlotTree(n.objects, n.refs[v.id], sizes, site);
    } else {
      x, y, at := v, n.objects[w.id], w.id + 1;
      InlineTree(Arenas(outer, Trees(env, sizes)), v, sizes);
      SlotTree(n.objects, w.id, sizes, site);
    }
    ShapeKind(env, x, y, n, at);
  }

  lemma ShapeKind(env: seq<Value>, x: Value, y: Value, n: Numbering, at: nat)
    requires Complex(x) && SameShape(env, x, y, n, at)
    ensures !y.Reference?
  {
  }

  lemma ReferenceSettled(env: seq<Value>, id: nat, n: Numbering)
    requires Closed(env, Reference(id)) && Settled(env, n) && (id in n.refs || Dangling(env, id))
    ensures id in n.refs && SettledAt(env, n, id) && id < |env| && Complex(env[id]) && Closed(env, env[id])
  {
    hide SameShape;
  }

  lemma ReferenceTree(env: seq<Value>, outer: seq<Tree<Kind>>, id: nat, sizes: Sizes)
    requires id < |env|
    ensures Resolve(Arenas(outer, Trees(env, sizes)), AsTree(Reference(id), sizes)) == AsTree(env[id], sizes)
  {
  }

  lemma InlineTree(objects: Arenas<Kind>, v: Value, sizes: Sizes)
    requires !v.Reference?
    ensures Resolve(objects, AsTree(v, sizes)) == AsTree(v, sizes)
  {
  }

  /** The slot at the site is the slot of the numbering, moved. */
  lemma SlotTree(objects: seq<Value>, slot: nat, sizes: Sizes, site: Site)
    requires Holds(site.arena, objects, site.base) && slot < |objects|
    ensures Resolve(At(site, sizes), AsTree(Relocate(Reference(slot), site.base), sizes)) ==
            AsTree(Relocate(objects[slot], site.base), sizes)
  {
    assert site.arena[site.base + slot] == Relocate(objects[slot], site.base);
  }

  lemma ScalarTrees(v: Value, sizes: Sizes)
    requires !v.Reference? && !Complex(v)
    ensures AsTree(v, sizes) == Node(Amf3Node(v), HeapBytes(v, sizes), [])
    ensures AsTree(NormalScalar(v), sizes) == Node(NormalKind(Amf3Node(v)), HeapBytes(v, sizes), [])
  {
  }

  lemma SameScalar(env: seq<Value>, v: Value, w: Value, n: Numbering, lo: nat, base: nat)
    requires Same(env, v, w, n, lo) && !v.Reference? && !Complex(v)
    ensures w == NormalScalar(v) && Relocate(w, base) == w
  {
  }

  /** The children of a moved value are its children, moved. */
  lemma KidsMoved(y: Value, base: nat)
    ensures Kids(Relocate(y, base)) == RelocateAll(Kids(y), base)
  {
    hide RelocateAll, RelocateMembers, Values;
    match y
    case Array(dense, associative) =>
      MembersMoved(associative, base);
      RelocateConcat(dense, Values(associative), base);
    case Object(_, sealed, dynamic) =>
      MembersMoved(sealed, base);
      if dynamic.Dynamic? {
        MembersMoved(dynamic.members, base);
        RelocateConcat(Values(sealed), Values(dynamic.members), base);
      } else {
        assert Values(sealed) + [] == Values(sealed);
        assert RelocateAll(Values(sealed), base) + [] == RelocateAll(Values(sealed), base);
      }
    case VectorObject(_, _, _) =>
    case _ => assert RelocateAll([], base) == [];
  }

  lemma RelocateConcat(a: seq<Value>, b: seq<Value>, base: nat)
    ensures RelocateAll(a + b, base) == RelocateAll(a, base) + RelocateAll(b, base)
  {
  }

  /** A moved slot: its node, and its children moved. */
  lemma MovedTrees(y: Value, base: nat, sizes: Sizes)
    requires !y.Reference?
    ensures var t := AsTree(Relocate(y, base), sizes);
            && t == Node(Amf3Node(Hollow(y)), HeapBytes(y, sizes), t.children) && |t.children| == |Kids(y)|
            && (forall i :: 0 <= i < |Kids(y)| ==> t.children[i] == AsTree(Relocate(Kids(y)[i], base), sizes))
  {
    hide Hollow, HeapBytes, AsTree, Kids;
    KindMoved(y, base);
    RelocateHollow(y, base, sizes);
    KidsMoved(y, base);
    KidTrees(Relocate(y, base), sizes);
  }

  lemma {:induction false} SameUnfolds(env: seq<Value>, outer: seq<Tree<Kind>>, v: Value, w: Value, n: Numbering,
          lo: nat, sizes: Sizes, site: Site,
                                       t: Tree<Kind>)
    requires Same(env, v, w, n, lo) && Closed(env, v) && Settled(env, n)
             && Holds(site.arena, n.objects, site.base)
    requires Unfolds(Arenas(outer, Trees(env, sizes)), AsTree(v, sizes), t)
    ensures Unfolds(At(site, sizes), AsTree(Relocate(w, site.base), sizes), Normal(t))
    decreases t
  {
    hide Same, SameShape, Closed, Settled, AsTree, Trees, Hollow, HeapBytes, NormalKind, Kids, Holds, Relocate, At;
    if !v.Reference? && !Complex(v) {
      SameScalar(env, v, w, n, lo, site.base);
      ScalarTrees(v, sizes);
    } else {
      var x, y, at := Behind(env, outer, v, w, n, lo, sizes, site);
      ShapeHollow(env, x, y, n, at, sizes);
      KidsSame(env, x, y, n, at);
      KidTrees(x, sizes);
      MovedTrees(y, site.base, sizes);
      forall i | 0 <= i < |t.children|
        ensures Unfolds(At(site, sizes), AsTree(Relocate(Kids(y)[i], site.base), sizes), Normal(t.children[i]))
      {
        ClosedKid(env, x, i);
        SameUnfolds(env, outer, Kids(x)[i], Kids(y)[i], n, at, sizes, site, t.children[i]);
      }
    }
  }

  /** And the other way: what unfolds after renumbering did so before. */
  lemma {:induction false} SameUnfoldsBack(env: seq<Value>, outer: seq<Tree<Kind>>, v: Value, w: Value, n: Numbering,
          lo: nat, sizes: Sizes, site: Site,
                                           u: Tree<Kind>) returns (t: Tree<Kind>)
    requires Same(env, v, w, n, lo) && Closed(env, v) && Settled(env, n)
             && Holds(site.arena, n.objects, site.base)
    requires Unfolds(At(site, sizes), AsTree(Relocate(w, site.base), sizes), u)
    ensures Unfolds(Arenas(outer, Trees(env, sizes)), AsTree(v, sizes), t) && Normal(t) == u
    decreases u, 1
  {
    hide Same, SameShape, Closed, Settled, AsTree, Trees, Hollow, HeapBytes, NormalKind, Kids, Holds, Relocate, At;
    if !v.Reference? && !Complex(v) {
      SameScalar(env, v, w, n, lo, site.base);
      ScalarTrees(v, sizes);
      t := AsTree(v, sizes);
    } else {
      var x, y, at := Behind(env, outer, v, w, n, lo, sizes, site);
      ShapeHollow(env, x, y, n, at, sizes);
      KidsSame(env, x, y, n, at);
      KidTrees(x, sizes);
      MovedTrees(y, site.base, sizes);
      var kids := KidsBack(env, outer, x, y, n, at, sizes, site, u, |u.children|);
      t := Node(Amf3Node(Hollow(x)), HeapBytes(x, sizes), kids);
      assert u.children[..|u.children|] == u.children;
    }
  }

  lemma {:induction false} KidsBack(env: seq<Value>, outer: seq<Tree<Kind>>, x: Value, y: Value, n: Numbering, at: nat,
          sizes: Sizes, site: Site,
                                    u: Tree<Kind>, k: nat) returns (kids: seq<Tree<Kind>>)
    requires !x.Reference? && Closed(env, x) && Settled(env, n) && Holds(site.arena, n.objects, site.base)
    requires u.Node? && k <= |u.children| == |Kids(x)| == |Kids(y)|
    requires forall i :: 0 <= i < |Kids(x)| ==> Same(env, Kids(x)[i], Kids(y)[i], n, at)
    requires forall i :: 0 <= i < |Kids(y)| ==>
             Unfolds(At(site, sizes), AsTree(Relocate(Kids(y)[i], site.base), sizes), u.children[i])
    ensures |kids| == k && NormalAll(kids) == u.children[..k]
    ensures forall i :: 0 <= i < k ==> Unfolds(Arenas(outer, Trees(env, sizes)), AsTree(Kids(x)[i], sizes), kids[i])
    decreases u, 0, k
  {
    hide Same, Closed, Settled, AsTree, Trees, Kids, Unfolds, Holds, Relocate, At, NormalAll, Normal;
    if k == 0 {
      kids := [];
      NormalNone();
    } else {
      var before := KidsBack(env, outer, x, y, n, at, sizes, site, u, k - 1);
      ClosedKid(env, x, k - 1);
      var kid := SameUnfoldsBack(env, outer, Kids(x)[k - 1], Kids(y)[k - 1], n, at, sizes, site, u.children[k - 1]);
      kids := before + [kid];
      NormalOn(before, kid, u.children, k - 1);
    }
  }

  /** Root `i` of the document unfolds to `t`. */
  ghost predicate RootUnfolds(doc: Document, i: nat, sizes: Sizes, t: Tree<Kind>) {
    i < |doc.roots| && Unfolds(Arenas([], Trees(doc.objects, sizes)), AsTree(doc.roots[i], sizes), t)
  }

  lemma {:induction false} Unmoved(v: Value)
    ensures Relocate(v, 0) == v
    decreases v, 0
  {
    match v
    case Array(dense, associative) =>
      UnmovedAll(dense);
      UnmovedMembers(associative);
    case Object(_, sealed, dynamic) =>
      UnmovedMembers(sealed);
      if dynamic.Dynamic? {
        UnmovedMembers(dynamic.members);
      }
    case VectorObject(_, _, values) => UnmovedAll(values);
    case _ =>
  }

  lemma {:induction false} UnmovedAll(vs: seq<Value>)
    ensures RelocateAll(vs, 0) == vs
    decreases vs, 1
  {
    forall i | 0 <= i < |vs|
      ensures Relocate(vs[i], 0) == vs[i]
    {
      Unmoved(vs[i]);
    }
  }

  lemma {:induction false} UnmovedMembers(ms: seq<Member>)
    ensures RelocateMembers(ms, 0) == ms
    decreases ms, 1
  {
    forall i | 0 <= i < |ms|
      ensures Relocate(ms[i].value, 0) == ms[i].value
    {
      Unmoved(ms[i].value);
    }
  }

  lemma StaysPut(doc: Document, i: nat)
    requires i < |doc.roots|
    ensures Holds(doc.objects, doc.objects, 0) && Relocate(doc.roots[i], 0) == doc.roots[i]
  {
    hide Relocate;
    Unmoved(doc.roots[i]);
    forall id | 0 <= id < |doc.objects|
      ensures doc.objects[0 + id] == Relocate(doc.objects[id], 0)
    {
      Unmoved(doc.objects[id]);
    }
  }

  /** A document that reaches no dangling reference and its renumbering unfold to the same trees, up to
      normal form. With the round trip, so does whatever was decoded. */
  lemma RenumberKeepsTrees(doc: Document, sizes: Sizes, i: nat)
    requires ReachClosed(doc.objects, doc.roots) && i < |doc.roots|
    ensures forall t :: RootUnfolds(doc, i, sizes, t) ==> RootUnfolds(Renumber(doc), i, sizes, Normal(t))
    ensures forall u :: RootUnfolds(Renumber(doc), i, sizes, u) ==>
            exists t :: RootUnfolds(doc, i, sizes, t) && Normal(t) == u
  {
    hide Renumber, Same, Closed, AsTree, Trees, Unfolds, Normal, SettledAt, Relocate, Holds;
    var refs := RenumberTracked(doc);
    var doc2 := Renumber(doc);
    var n := Numbering(refs, doc2.objects);
    assert Same(doc.objects, doc.roots[i], doc2.roots[i], n, 0);
    var site := Site([], doc2.objects, 0);
    StaysPut(doc2, i);
    forall t | RootUnfolds(doc, i, sizes, t)
      ensures RootUnfolds(doc2, i, sizes, Normal(t))
    {
      SameUnfolds(doc.objects, [], doc.roots[i], doc2.roots[i], n, 0, sizes, site, t);
    }
    forall u | RootUnfolds(doc2, i, sizes, u)
      ensures exists t :: RootUnfolds(doc, i, sizes, t) && Normal(t) == u
    {
      var t := SameUnfoldsBack(doc.objects, [], doc.roots[i], doc2.roots[i], n, 0, sizes, site, u);
      assert RootUnfolds(doc, i, sizes, t) && Normal(t) == u;
    }
  }

  lemma EncodedClosed(doc: Document)
    requires EncodeDocument(doc).Ok?
    ensures ReachClosed(doc.objects, doc.roots)
  {
    hide ReachClosed, WriteValues;
    WrittenClosed(doc.objects, doc.roots, 0);
  }

  /** Expanding a decoded document gives what expanding the encoded one would have given. */
  lemma DecodedKeepsTrees(doc: Document, sizes: Sizes, i: nat)
    requires i < |doc.roots| && R3.WellFormedDocument(Renumber(doc))
    requires EncodeDocument(doc).Ok? && DecodeDocument(EncodeDocument(doc).value.0).Ok?
    ensures var decoded := DecodeDocument(EncodeDocument(doc).value.0).value;
            && (forall t :: RootUnfolds(doc, i, sizes, t) ==> RootUnfolds(decoded, i, sizes, Normal(t)))
            && (forall u :: RootUnfolds(decoded, i, sizes, u) ==>
                 exists t :: RootUnfolds(doc, i, sizes, t) && Normal(t) == u)
  {
    hide EncodeDocument, DecodeDocument, Renumber, RootUnfolds, Normal, R3.WellFormedDocument;
    E3.RoundTripExactly(doc);
    assert ReachClosed(doc.objects, doc.roots) by { EncodedClosed(doc); }
    RenumberKeepsTrees(doc, sizes, i);
  }

  /** The normal form changes neither the size of a tree nor its depth, so the same budgets admit it. */
  lemma {:induction false} NormalCosts(t: Tree<Kind>, depth: int)
    ensures Nodes(Normal(t)) == Nodes(t) && Bytes(Normal(t)) == Bytes(t)
            && (NoDeeper(Normal(t), depth) <==> NoDeeper(t, depth))
    decreases t, 0
  {
    if t.Node? {
      NormalAllCosts(t.children);
      forall i | 0 <= i < |t.children|
        ensures NoDeeper(Normal(t.children[i]), depth - 1) <==> NoDeeper(t.children[i], depth - 1)
      {
        NormalCosts(t.children[i], depth - 1);
      }
    }
  }

  lemma {:induction false} NormalAllCosts(ts: seq<Tree<Kind>>)
    ensures NodesOf(NormalAll(ts)) == NodesOf(ts) && BytesOf(NormalAll(ts)) == BytesOf(ts)
    decreases ts, 1
  {
    if ts != [] {
      NormalCosts(ts[0], 0);
      NormalAllCosts(ts[1..]);
    }
  }
}
