/** AMF0 documents as graph expansion sees them, with their embedded AMF3 arena, and what the codec does
    to the trees they unfold to: nothing but the normal form of embedded integers and class names. */
module Amf0Tree {
  import opened Base
  import opened Amf0
  import opened Amf0Same
  import opened Amf0Closed
  import opened Graph
  import opened Expansion
  import A3 = Amf3
  import G3 = Amf3Graph
  import S3 = Amf3Same
  import T3 = Amf3Tree
  import C3 = Amf3Closed
  import V3 = Amf3Moved
  import R0 = Amf0RoundTrip
  import E0 = Amf0Exact

  type Kind = T3.Kind

  /** Storage sizes of a value, of a named value, and of AMF3 values. */
  datatype Sizes = Sizes(value: nat, member: nat, embedded: T3.Sizes)

  // ----- values as trees -------------------------------------------------------------------------------

  function Hollows(n: nat): (r: seq<Value>)
    ensures |r| == n
  {
    if n == 0 then [] else Hollows(n - 1) + [Null]
  }

  function HollowProperties(ps: seq<Property>): (r: seq<Property>)
    ensures |r| == |ps|
  {
    if ps == [] then [] else [Property(ps[0].name, Null)] + HollowProperties(ps[1..])
  }

  /** A value without its children. */
  function Hollow(v: Value): Value {
    match v
    case StrictArray(items) => StrictArray(Hollows(|items|))
    case Object(ps) => Object(HollowProperties(ps))
    case TypedObject(name, ps) => TypedObject(name, HollowProperties(ps))
    case AvmPlus(_) => AvmPlus(A3.Null)
    case _ => v
  }

  function NameBytes(ps: seq<Property>): nat {
    if ps == [] then 0 else |ps[0].name| + NameBytes(ps[1..])
  }

  /** The heap bytes a value holds itself. */
  function HeapBytes(v: Value, sizes: Sizes): nat {
    match v
    case String(s) => |s|
    case Xml(s) => |s|
    case StrictArray(items) => |items| * sizes.value
    case Object(ps) => |ps| * sizes.member + NameBytes(ps)
    case TypedObject(name, ps) => |name| + |ps| * sizes.member + NameBytes(ps)
    case AvmPlus(_) => sizes.embedded.value
    case _ => 0
  }

  function AsTree(v: Value, sizes: Sizes): (t: Tree<Kind>)
    ensures v.Reference? <==> t.Ref?
    decreases v, 0
  {
    match v
    case Reference(id) => Ref(Outer(id))
    case StrictArray(items) => Node(T3.Amf0Node(Hollow(v)), HeapBytes(v, sizes), Trees(items, sizes))
    case Object(ps) => Node(T3.Amf0Node(Hollow(v)), HeapBytes(v, sizes), PropertyTrees(ps, sizes))
    case TypedObject(_, ps) => Node(T3.Amf0Node(Hollow(v)), HeapBytes(v, sizes), PropertyTrees(ps, sizes))
    case AvmPlus(inner) => Node(T3.Amf0Node(Hollow(v)), HeapBytes(v, sizes), [T3.AsTree(inner, sizes.embedded)])
    case _ => Node(T3.Amf0Node(Hollow(v)), HeapBytes(v, sizes), [])
  }

  function Trees(vs: seq<Value>, sizes: Sizes): (r: seq<Tree<Kind>>)
    ensures |r| == |vs| && forall i :: 0 <= i < |vs| ==> r[i] == AsTree(vs[i], sizes)
    decreases vs, 1
  {
    if vs == [] then [] else [AsTree(vs[0], sizes)] + Trees(vs[1..], sizes)
  }

  function PropertyTrees(ps: seq<Property>, sizes: Sizes): (r: seq<Tree<Kind>>)
    ensures |r| == |ps| && forall i :: 0 <= i < |ps| ==> r[i] == AsTree(ps[i].value, sizes)
    decreases ps, 1
  {
    if ps == [] then [] else [AsTree(ps[0].value, sizes)] + PropertyTrees(ps[1..], sizes)
  }

  /** The arenas of a document, its own and that of the embedded values. */
  function ArenasOf(objects: seq<Value>, embedded: seq<A3.Value>, sizes: Sizes): Arenas<Kind> {
    Arenas(Trees(objects, sizes), T3.Trees(embedded, sizes.embedded))
  }

  // ----- renumbering keeps the trees -------------------------------------------------------------------

  /** The numbering has settled every object it knows, in a graph without dangling references. */
  ghost predicate Settled(doc: Document, n: Numbering) {
    forall id :: id in n.refs ==> SettledAt(doc, n, id) && Closed(doc, doc.objects[id])
  }

  lemma {:induction false} PropertiesHollow(doc: Document, ps: seq<Property>, ws: seq<Property>, n: Numbering, lo: nat)
    requires SameProperties(doc, ps, ws, n, lo)
    ensures HollowProperties(ws) == HollowProperties(ps) && NameBytes(ws) == NameBytes(ps)
    decreases |ps|
  {
    hide Same;
    if ps != [] {
      assert SameProperties(doc, ps[1..], ws[1..], n, lo);
      PropertiesHollow(doc, ps[1..], ws[1..], n, lo);
    }
  }

  lemma ShapeHollow(doc: Document, v: Value, w: Value, n: Numbering, lo: nat, sizes: Sizes)
    requires Complex(v) && SameShape(doc, v, w, n, lo)
    ensures Hollow(w) == Hollow(v) && HeapBytes(w, sizes) == HeapBytes(v, sizes) && !w.Reference? && Complex(w)
  {
    hide Same, HollowProperties, NameBytes, Hollows;
    match v
    case StrictArray(_) =>
    case Object(ps) => PropertiesHollow(doc, ps, w.properties, n, lo);
    case TypedObject(_, ps) => PropertiesHollow(doc, ps, w.properties, n, lo);
  }

  ghost function ValuesOf(ps: seq<Property>): (r: seq<Value>)
    ensures |r| == |ps| && forall i :: 0 <= i < |ps| ==> r[i] == ps[i].value
  {
    seq(|ps|, i requires 0 <= i < |ps| => ps[i].value)
  }

  /** The children of a complex value, in visiting order. */
  ghost function Kids(v: Value): seq<Value> {
    match v
    case StrictArray(items) => items
    case Object(ps) => ValuesOf(ps)
    case TypedObject(_, ps) => ValuesOf(ps)
    case _ => []
  }

  lemma KidTrees(v: Value, sizes: Sizes)
    requires Complex(v)
    ensures var t := AsTree(v, sizes);
            && t == Node(T3.Amf0Node(Hollow(v)), HeapBytes(v, sizes), t.children) && |t.children| == |Kids(v)|
            && (forall i :: 0 <= i < |Kids(v)| ==> t.children[i] == AsTree(Kids(v)[i], sizes))
  {
    hide Hollow, HeapBytes;
  }

  lemma KidsSame(doc: Document, v: Value, w: Value, n: Numbering, lo: nat)
    requires Complex(v) && SameShape(doc, v, w, n, lo)
    ensures |Kids(w)| == |Kids(v)| && forall i :: 0 <= i < |Kids(v)| ==> Same(doc, Kids(v)[i], Kids(w)[i], n, lo)
  {
    hide Same;
  }

  lemma ClosedKid(doc: Document, v: Value, i: nat)
    requires Complex(v) && Closed(doc, v) && i < |Kids(v)|
    ensures Closed(doc, Kids(v)[i])
  {
    hide Dangling, C3.ReachClosed, AllMentioned, PropertiesMentioned, AllInners, PropertiesInners;
    match v
    case StrictArray(items) => HeldIn(items, i);
    case Object(ps) => PropertyHeld(ps, i);
    case TypedObject(_, ps) => PropertyHeld(ps, i);
  }

  lemma {:induction false} PropertyHeld(ps: seq<Property>, i: nat)
    requires i < |ps|
    ensures Mentioned(ps[i].value) <= PropertiesMentioned(ps) && Inners(ps[i].value) <= PropertiesInners(ps)
    decreases |ps|
  {
    hide Mentioned, Inners;
    if i > 0 {
      PropertyHeld(ps[1..], i - 1);
    }
  }

  lemma ClosedInner(doc: Document, inner: A3.Value)
    requires Closed(doc, AvmPlus(inner))
    ensures C3.ReachClosed(doc.embedded, [inner]) && C3.Closed(doc.embedded, inner)
  {
    hide C3.Closed, C3.Met;
    assert inner in Inners(AvmPlus(inner));
    assert [inner][0] == inner;
  }

  /** What stands for a value: the object and the slot behind two references, or the value and its
      slot. */
  lemma Behind(doc: Document, v: Value, w: Value, n: Numbering, lo: nat, sizes: Sizes)
      returns (x: Value, y: Value, at: nat)
    requires Same(doc, v, w, n, lo) && Closed(doc, v) && Settled(doc, n) && (v.Reference? || Complex(v))
    ensures Complex(x) && SameShape(doc, x, y, n, at) && Closed(doc, x)
    ensures Resolve(ArenasOf(doc.objects, doc.embedded, sizes), AsTree(v, sizes)) == AsTree(x, sizes)
    ensures Resolve(ArenasOf(n.objects, n.embedded, sizes), AsTree(w, sizes)) == AsTree(y, sizes)
  {
    hide SameShape, C3.Closed, Closed;
    if v.Reference? {
      NotDangling(doc, v.id);
      assert SettledAt(doc, n, v.id);
      x, y, at := doc.objects[v.id], n.objects[n.refs[v.id]], n.refs[v.id] + 1;
    } else {
      x, y, at := v, n.objects[w.id], w.id + 1;
    }
  }

  lemma NotDangling(doc: Document, id: nat)
    requires Closed(doc, Reference(id))
    ensures !Dangling(doc.objects, id)
  {
    assert id in Mentioned(Reference(id));
  }

  lemma ScalarTree(v: Value, sizes: Sizes)
    requires !v.Reference? && !Complex(v) && !v.AvmPlus?
    ensures AsTree(v, sizes) == Node(T3.Amf0Node(v), HeapBytes(v, sizes), [])
  {
  }

  lemma SameScalar(doc: Document, v: Value, w: Value, n: Numbering, lo: nat)
    requires Same(doc, v, w, n, lo) && !v.Reference? && !Complex(v) && !v.AvmPlus?
    ensures w == v
  {
  }

  /** Where an embedded value was moved to. */
  lemma EmbeddedSite(doc: Document, v: Value, w: Value, n: Numbering, lo: nat, sizes: Sizes)
      returns (u: A3.Value, m: G3.Numbering, site: T3.Site)
    requires Same(doc, v, w, n, lo) && v.AvmPlus? && Closed(doc, v)
    ensures w.AvmPlus? && w.inner == G3.Relocate(u, site.base) && S3.Same(doc.embedded, v.inner, u, m, 0)
    ensures V3.Holds(site.arena, m.objects, site.base) && T3.Settled(doc.embedded, m)
    ensures T3.At(site, sizes.embedded) == ArenasOf(n.objects, n.embedded, sizes)
  {
    hide S3.Same, S3.SettledAt, C3.Closed, Closed, SettledAt, G3.NumberValue, G3.Relocate, G3.RelocateAll, Trees,
        T3.Trees;
    var base: nat;
    base, u, m :| SameBlock(doc.embedded, v.inner, w.inner, n.embedded, base, u, m);
    site := T3.Site(Trees(n.objects, sizes), n.embedded, base);
    ClosedInner(doc, v.inner);
    G3.NumberOne(doc.embedded, v.inner);
    forall id | 0 <= id < |m.objects|
      ensures n.embedded[base + id] == G3.Relocate(m.objects[id], base)
    {
      assert n.embedded[base..base + |m.objects|][id] == G3.RelocateAll(m.objects, base)[id];
    }
  }

  lemma {:induction false} SameUnfolds(doc: Document, v: Value, w: Value, n: Numbering, lo: nat, sizes: Sizes,
          t: Tree<Kind>)
    requires Same(doc, v, w, n, lo) && Closed(doc, v) && Settled(doc, n)
    requires Unfolds(ArenasOf(doc.objects, doc.embedded, sizes), AsTree(v, sizes), t)
    ensures Unfolds(ArenasOf(n.objects, n.embedded, sizes), AsTree(w, sizes), T3.Normal(t))
    decreases t
  {
    hide Same, SameShape, Closed, Settled, AsTree, Trees, T3.AsTree, T3.Trees, Hollow, HeapBytes, Kids, T3.Settled,
        C3.Closed, V3.Holds,
         G3.Relocate, ArenasOf;
    if v.AvmPlus? {
      EmbeddedUnfolds(doc, v, w, n, lo, sizes, t);
    } else if !v.Reference? && !Complex(v) {
      SameScalar(doc, v, w, n, lo);
      ScalarTree(v, sizes);
    } else {
      var x, y, at := Behind(doc, v, w, n, lo, sizes);
      ShapeHollow(doc, x, y, n, at, sizes);
      KidsSame(doc, x, y, n, at);
      KidTrees(x, sizes);
      KidTrees(y, sizes);
      forall i | 0 <= i < |t.children|
        ensures Unfolds(ArenasOf(n.objects, n.embedded, sizes), AsTree(Kids(y)[i], sizes), T3.Normal(t.children[i]))
      {
        ClosedKid(doc, x, i);
        SameUnfolds(doc, Kids(x)[i], Kids(y)[i], n, at, sizes, t.children[i]);
      }
    }
  }

  lemma AvmPlusTree(inner: A3.Value, sizes: Sizes)
    ensures AsTree(AvmPlus(inner), sizes) ==
            Node(T3.Amf0Node(AvmPlus(A3.Null)), sizes.embedded.value, [T3.AsTree(inner, sizes.embedded)])
  {
  }

  lemma EmbeddedUnfolds(doc: Document, v: Value, w: Value, n: Numbering, lo: nat, sizes: Sizes, t: Tree<Kind>)
    requires Same(doc, v, w, n, lo) && v.AvmPlus? && Closed(doc, v) && Settled(doc, n)
    requires Unfolds(ArenasOf(doc.objects, doc.embedded, sizes), AsTree(v, sizes), t)
    ensures Unfolds(ArenasOf(n.objects, n.embedded, sizes), AsTree(w, sizes), T3.Normal(t))
  {
    hide Same, Closed, Settled, AsTree, Trees, T3.AsTree, T3.Trees, T3.Settled, C3.Closed, V3.Holds, G3.Relocate, T3.At;
    var u, m, site := EmbeddedSite(doc, v, w, n, lo, sizes);
    ClosedInner(doc, v.inner);
    AvmPlusTree(v.inner, sizes);
    AvmPlusTree(w.inner, sizes);
    T3.SameUnfolds(doc.embedded, Trees(doc.objects, sizes), v.inner, u, m, 0, sizes.embedded, site, t.children[0]);
  }

  /** And the other way: what unfolds after renumbering did so before. */
  lemma {:induction false} SameUnfoldsBack(doc: Document, v: Value, w: Value, n: Numbering, lo: nat, sizes: Sizes,
          u: Tree<Kind>)
      returns (t: Tree<Kind>)
    requires Same(doc, v, w, n, lo) && Closed(doc, v) && Settled(doc, n)
    requires Unfolds(ArenasOf(n.objects, n.embedded, sizes), AsTree(w, sizes), u)
    ensures Unfolds(ArenasOf(doc.objects, doc.embedded, sizes), AsTree(v, sizes), t) && T3.Normal(t) == u
    decreases u, 1
  {
    hide Same, SameShape, Closed, Settled, AsTree, Trees, T3.AsTree, T3.Trees, Hollow, HeapBytes, Kids, T3.Settled,
        C3.Closed, V3.Holds,
         G3.Relocate, ArenasOf;
    if v.AvmPlus? {
      t := EmbeddedUnfoldsBack(doc, v, w, n, lo, sizes, u);
    } else if !v.Reference? && !Complex(v) {
      SameScalar(doc, v, w, n, lo);
      ScalarTree(v, sizes);
      t := AsTree(v, sizes);
    } else {
      var x, y, at := Behind(doc, v, w, n, lo, sizes);
      ShapeHollow(doc, x, y, n, at, sizes);
      KidsSame(doc, x, y, n, at);
      KidTrees(x, sizes);
      KidTrees(y, sizes);
      var kids := KidsBack(doc, x, y, n, at, sizes, u, |u.children|);
      t := Node(T3.Amf0Node(Hollow(x)), HeapBytes(x, sizes), kids);
      assert u.children[..|u.children|] == u.children;
    }
  }

  lemma {:induction false} KidsBack(doc: Document, x: Value, y: Value, n: Numbering, at: nat, sizes: Sizes,
          u: Tree<Kind>, k: nat)
      returns (kids: seq<Tree<Kind>>)
    requires Complex(x) && Closed(doc, x) && Settled(doc, n) && u.Node?
             && k <= |u.children| == |Kids(x)| == |Kids(y)|
    requires forall i :: 0 <= i < |Kids(x)| ==> Same(doc, Kids(x)[i], Kids(y)[i], n, at)
    requires forall i :: 0 <= i < |Kids(y)| ==>
             Unfolds(ArenasOf(n.objects, n.embedded, sizes), AsTree(Kids(y)[i], sizes), u.children[i])
    ensures |kids| == k && T3.NormalAll(kids) == u.children[..k]
    ensures forall i :: 0 <= i < k ==>
            Unfolds(ArenasOf(doc.objects, doc.embedded, sizes), AsTree(Kids(x)[i], sizes), kids[i])
    decreases u, 0, k
  {
    hide Same, Closed, Settled, AsTree, ArenasOf, Kids, Unfolds, T3.NormalAll, T3.Normal;
    if k == 0 {
      kids := [];
      T3.NormalNone();
    } else {
      var before := KidsBack(doc, x, y, n, at, sizes, u, k - 1);
      ClosedKid(doc, x, k - 1);
      var kid := SameUnfoldsBack(doc, Kids(x)[k - 1], Kids(y)[k - 1], n, at, sizes, u.children[k - 1]);
      kids := before + [kid];
      T3.NormalOn(before, kid, u.children, k - 1);
    }
  }

  lemma EmbeddedUnfoldsBack(doc: Document, v: Value, w: Value, n: Numbering, lo: nat, sizes: Sizes, u: Tree<Kind>)
      returns (t: Tree<Kind>)
    requires Same(doc, v, w, n, lo) && v.AvmPlus? && Closed(doc, v) && Settled(doc, n)
    requires Unfolds(ArenasOf(n.objects, n.embedded, sizes), AsTree(w, sizes), u)
    ensures Unfolds(ArenasOf(doc.objects, doc.embedded, sizes), AsTree(v, sizes), t) && T3.Normal(t) == u
  {
    hide Same, Closed, Settled, AsTree, Trees, T3.AsTree, T3.Trees, T3.Settled, C3.Closed, V3.Holds, G3.Relocate, T3.At;
    var x, m, site := EmbeddedSite(doc, v, w, n, lo, sizes);
    ClosedInner(doc, v.inner);
    AvmPlusTree(v.inner, sizes);
    AvmPlusTree(w.inner, sizes);
    var kid := T3.SameUnfoldsBack(doc.embedded, Trees(doc.objects, sizes), v.inner, x, m, 0, sizes.embedded, site,
        u.children[0]);
    t := Node(u.kind, u.heap, [kid]);
    assert T3.NormalAll([kid]) == [u.children[0]] == u.children;
  }

  // ----- documents ----------------------------------------------------------------------------------------

  /** Root `i` of the document unfolds to `t`. */
  ghost predicate RootUnfolds(doc: Document, i: nat, sizes: Sizes, t: Tree<Kind>) {
    i < |doc.roots| && Unfolds(ArenasOf(doc.objects, doc.embedded, sizes), AsTree(doc.roots[i], sizes), t)
  }

  /** A document that reaches no dangling reference and its renumbering unfold to the same trees, up to
      normal form. */
  lemma RenumberKeepsTrees(doc: Document, sizes: Sizes, i: nat)
    requires ReachClosed(doc) && i < |doc.roots|
    ensures forall t :: RootUnfolds(doc, i, sizes, t) ==> RootUnfolds(Renumber(doc), i, sizes, T3.Normal(t))
    ensures forall u :: RootUnfolds(Renumber(doc), i, sizes, u) ==>
            exists t :: RootUnfolds(doc, i, sizes, t) && T3.Normal(t) == u
  {
    hide Renumber, Same, Closed, AsTree, ArenasOf, Unfolds, T3.Normal, SettledAt, C3.Closed;
    var refs := RenumberTracked(doc);
    var doc2 := Renumber(doc);
    var n := Numbering(refs, doc2.objects, doc2.embedded);
    assert Same(doc, doc.roots[i], doc2.roots[i], n, 0);
    forall t | RootUnfolds(doc, i, sizes, t)
      ensures RootUnfolds(doc2, i, sizes, T3.Normal(t))
    {
      SameUnfolds(doc, doc.roots[i], doc2.roots[i], n, 0, sizes, t);
    }
    forall u | RootUnfolds(doc2, i, sizes, u)
      ensures exists t :: RootUnfolds(doc, i, sizes, t) && T3.Normal(t) == u
    {
      var t := SameUnfoldsBack(doc, doc.roots[i], doc2.roots[i], n, 0, sizes, u);
      assert RootUnfolds(doc, i, sizes, t) && T3.Normal(t) == u;
    }
  }

  /** So do a document and what comes back of it. */
  lemma DecodedKeepsTrees(doc: Document, sizes: Sizes, i: nat)
    requires i < |doc.roots| && R0.WellFormedDocument(Renumber(doc))
    requires EncodeDocument(doc).Ok? && DecodeDocument(EncodeDocument(doc).value.0).Ok?
    ensures var decoded := DecodeDocument(EncodeDocument(doc).value.0).value;
            && (forall t :: RootUnfolds(doc, i, sizes, t) ==> RootUnfolds(decoded, i, sizes, T3.Normal(t)))
            && (forall u :: RootUnfolds(decoded, i, sizes, u) ==>
                 exists t :: RootUnfolds(doc, i, sizes, t) && T3.Normal(t) == u)
  {
    hide EncodeDocument, DecodeDocument, Renumber, RootUnfolds, ReachClosed, T3.Normal, R0.WellFormedDocument,
        E0.Affordable;
    E0.RoundTripExactly(doc);
    EncodedClosed(doc);
    RenumberKeepsTrees(doc, sizes, i);
  }

  /** All roots unfold, to trees that together stay within the limits. */
  ghost predicate Expands(doc: Document, sizes: Sizes, limits: TreeLimits, ts: seq<Tree<Kind>>) {
    && AllUnfold(ArenasOf(doc.objects, doc.embedded, sizes), Trees(doc.roots, sizes), ts)
    && Affordable(ts, limits.maximumNodes, limits.maximumBytes, limits.maximumDepth)
  }

  /** Expansion of a document, embedded values included, under one budget: it succeeds exactly if the
      document expands within the limits, and gives the unfoldings. */
  method ExpandDocument(doc: Document, sizes: Sizes, limits: TreeLimits) returns (r: Result<seq<Tree<Kind>>, TreeError>)
    ensures r.Ok? ==> Expands(doc, sizes, limits, r.value) && forall i :: 0 <= i < |r.value| ==>
            ReferenceFree(r.value[i])
    ensures r.Err? ==>
            Justified(ArenasOf(doc.objects, doc.embedded, sizes), r.error)
            && forall ts :: !Expands(doc, sizes, limits, ts)
  {
    hide AllUnfold, Affordable, ReferenceFree, Justified, AsTree, Trees, ArenasOf;
    r := Expand(Trees(doc.roots, sizes), ArenasOf(doc.objects, doc.embedded, sizes), limits);
  }

  /** What came back expands within the limits exactly if the original does, to the same trees up to
      normal form. */
  lemma DecodedExpands(doc: Document, sizes: Sizes, limits: TreeLimits)
    requires R0.WellFormedDocument(Renumber(doc))
    requires EncodeDocument(doc).Ok? && DecodeDocument(EncodeDocument(doc).value.0).Ok?
    ensures var decoded := DecodeDocument(EncodeDocument(doc).value.0).value;
            && (forall ts :: Expands(doc, sizes, limits, ts) ==> Expands(decoded, sizes, limits, T3.NormalAll(ts)))
            && ((exists us :: Expands(decoded, sizes, limits, us)) ==> exists ts :: Expands(doc, sizes, limits, ts))
  {
    hide EncodeDocument, DecodeDocument, Renumber, R0.WellFormedDocument, E0.Affordable, Expands, ReachClosed;
    E0.RoundTripExactly(doc);
    EncodedClosed(doc);
    var decoded := DecodeDocument(EncodeDocument(doc).value.0).value;
    forall ts | Expands(doc, sizes, limits, ts)
      ensures Expands(decoded, sizes, limits, T3.NormalAll(ts))
    {
      ExpandsOn(doc, sizes, limits, ts);
    }
    if us :| Expands(decoded, sizes, limits, us) {
      var ts := ExpandsBack(doc, sizes, limits, us);
    }
  }

  lemma AffordableNormal(ts: seq<Tree<Kind>>, limits: TreeLimits)
    ensures Affordable(T3.NormalAll(ts), limits.maximumNodes, limits.maximumBytes, limits.maximumDepth) <==>
            Affordable(ts, limits.maximumNodes, limits.maximumBytes, limits.maximumDepth)
  {
    hide NoDeeper;
    T3.NormalAllCosts(ts);
    forall i | 0 <= i < |ts|
      ensures NoDeeper(T3.Normal(ts[i]), limits.maximumDepth) <==> NoDeeper(ts[i], limits.maximumDepth)
    {
      T3.NormalCosts(ts[i], limits.maximumDepth);
    }
  }

  lemma ExpandsOn(doc: Document, sizes: Sizes, limits: TreeLimits, ts: seq<Tree<Kind>>)
    requires ReachClosed(doc) && Expands(doc, sizes, limits, ts)
    ensures Expands(Renumber(doc), sizes, limits, T3.NormalAll(ts))
  {
    hide Renumber, Unfolds, AsTree, ArenasOf, Affordable, ReachClosed, T3.Normal;
    E0.RootsKept(doc);
    AffordableNormal(ts, limits);
    forall i | 0 <= i < |ts|
      ensures RootUnfolds(Renumber(doc), i, sizes, T3.Normal(ts[i]))
    {
      RenumberKeepsTrees(doc, sizes, i);
      assert RootUnfolds(doc, i, sizes, ts[i]);
    }
  }

  lemma ExpandsBack(doc: Document, sizes: Sizes, limits: TreeLimits, us: seq<Tree<Kind>>) returns (ts: seq<Tree<Kind>>)
    requires ReachClosed(doc) && Expands(Renumber(doc), sizes, limits, us)
    ensures Expands(doc, sizes, limits, ts) && T3.NormalAll(ts) == us
  {
    hide Renumber, Unfolds, AsTree, ArenasOf, Affordable, ReachClosed, T3.Normal;
    E0.RootsKept(doc);
    ts := RootsBack(doc, sizes, us, |us|);
    assert us[..|us|] == us;
    AffordableNormal(ts, limits);
    assert forall i :: 0 <= i < |ts| ==> RootUnfolds(doc, i, sizes, ts[i]);
  }

  lemma {:induction false} RootsBack(doc: Document, sizes: Sizes, us: seq<Tree<Kind>>, k: nat)
      returns (ts: seq<Tree<Kind>>)
    requires ReachClosed(doc) && k <= |us| == |doc.roots|
    requires AllUnfold(ArenasOf(Renumber(doc).objects, Renumber(doc).embedded, sizes),
             Trees(Renumber(doc).roots, sizes), us)
    ensures |ts| == k && T3.NormalAll(ts) == us[..k] && forall i :: 0 <= i < k ==> RootUnfolds(doc, i, sizes, ts[i])
    decreases k
  {
    hide Renumber, Unfolds, AsTree, ArenasOf, ReachClosed, T3.Normal, T3.NormalAll;
    if k == 0 {
      ts := [];
      T3.NormalNone();
    } else {
      var before := RootsBack(doc, sizes, us, k - 1);
      E0.RootsKept(doc);
      assert RootUnfolds(Renumber(doc), k - 1, sizes, us[k - 1]);
      RenumberKeepsTrees(doc, sizes, k - 1);
      var t :| RootUnfolds(doc, k - 1, sizes, t) && T3.Normal(t) == us[k - 1];
      ts := before + [t];
      T3.NormalOn(before, t, us, k - 1);
    }
  }
}
