/** Graphs of values held in arenas, and the reference-free trees they unfold to. */
module Graph {

  /** An object of the document's own arena, or of the arena of AMF3 values embedded in it. */
  datatype Id = Outer(index: nat) | Inner(index: nat)

  /** A value as graph traversal sees it: a reference into an arena, or a node with the heap bytes
      it holds itself and its children in visiting order. */
  datatype Tree<L> = Ref(id: Id) | Node(kind: L, heap: nat, children: seq<Tree<L>>)

  datatype Arenas<L> = Arenas(outer: seq<Tree<L>>, inner: seq<Tree<L>>)

  predicate Has<L>(objects: Arenas<L>, id: Id) {
    match id
    case Outer(k) => k < |objects.outer|
    case Inner(k) => k < |objects.inner|
  }

  function Target<L>(objects: Arenas<L>, id: Id): Tree<L>
    requires Has(objects, id)
  {
    match id
    case Outer(k) => objects.outer[k]
    case Inner(k) => objects.inner[k]
  }

  /** What a value stands for: a reference stands for its arena entry. */
  function Resolve<L>(objects: Arenas<L>, v: Tree<L>): Tree<L> {
    if v.Ref? && Has(objects, v.id) then Target(objects, v.id) else v
  }

  /** `t` is the unfolding of `v`: the finite tree with every reference replaced by its target. */
  ghost predicate Unfolds<L>(objects: Arenas<L>, v: Tree<L>, t: Tree<L>)
    decreases t
  {
    var n := Resolve(objects, v);
    && n.Node? && t.Node? && t.kind == n.kind && t.heap == n.heap && |t.children| == |n.children|
    && (forall i :: 0 <= i < |t.children| ==> Unfolds(objects, n.children[i], t.children[i]))
  }

  ghost predicate AllUnfold<L>(objects: Arenas<L>, vs: seq<Tree<L>>, ts: seq<Tree<L>>) {
    |ts| == |vs| && forall i :: 0 <= i < |vs| ==> Unfolds(objects, vs[i], ts[i])
  }

  ghost predicate ReferenceFree<L>(t: Tree<L>)
    decreases t
  {
    t.Node? && forall i :: 0 <= i < |t.children| ==> ReferenceFree(t.children[i])
  }

  function Nodes<L>(t: Tree<L>): (n: nat)
    decreases t
  {
    if t.Ref? then 0 else 1 + NodesOf(t.children)
  }

  function NodesOf<L>(ts: seq<Tree<L>>): nat
    decreases ts
  {
    if ts == [] then 0 else Nodes(ts[0]) + NodesOf(ts[1..])
  }

  function Bytes<L>(t: Tree<L>): nat
    decreases t
  {
    if t.Ref? then 0 else t.heap + BytesOf(t.children)
  }

  function BytesOf<L>(ts: seq<Tree<L>>): nat
    decreases ts
  {
    if ts == [] then 0 else Bytes(ts[0]) + BytesOf(ts[1..])
  }

  /** Every node of `t` lies at most `depth` levels below its root. */
  ghost predicate NoDeeper<L>(t: Tree<L>, depth: int)
    decreases t
  {
    depth >= 0 && (t.Node? ==> forall i :: 0 <= i < |t.children| ==> NoDeeper(t.children[i], depth - 1))
  }

  lemma {:induction false} UnfoldingUnique<L>(objects: Arenas<L>, v: Tree<L>, t: Tree<L>, u: Tree<L>)
    requires Unfolds(objects, v, t) && Unfolds(objects, v, u)
    ensures t == u
    decreases t
  {
    var n := Resolve(objects, v);
    forall i | 0 <= i < |t.children|
      ensures t.children[i] == u.children[i]
    {
      UnfoldingUnique(objects, n.children[i], t.children[i], u.children[i]);
    }
  }

  lemma AllUnique<L>(objects: Arenas<L>, vs: seq<Tree<L>>, ts: seq<Tree<L>>, us: seq<Tree<L>>)
    requires AllUnfold(objects, vs, ts) && AllUnfold(objects, vs, us)
    ensures ts == us
  {
    forall i | 0 <= i < |vs|
      ensures ts[i] == us[i]
    {
      UnfoldingUnique(objects, vs[i], ts[i], us[i]);
    }
  }

  lemma {:induction false} UnfoldingReferenceFree<L>(objects: Arenas<L>, v: Tree<L>, t: Tree<L>)
    requires Unfolds(objects, v, t)
    ensures ReferenceFree(t)
    decreases t
  {
    var n := Resolve(objects, v);
    forall i | 0 <= i < |t.children|
      ensures ReferenceFree(t.children[i])
    {
      UnfoldingReferenceFree(objects, n.children[i], t.children[i]);
    }
  }

  lemma {:induction false} NodesConcat<L>(a: seq<Tree<L>>, b: seq<Tree<L>>)
    ensures NodesOf(a + b) == NodesOf(a) + NodesOf(b) && BytesOf(a + b) == BytesOf(a) + BytesOf(b)
  {
    if a == [] {
      assert a + b == b;
    } else {
      assert (a + b)[1..] == a[1..] + b;
      NodesConcat(a[1..], b);
    }
  }

  /** A prefix of the trees and the next one fit into what all of them need. */
  lemma PrefixFits<L>(ts: seq<Tree<L>>, i: nat)
    requires i < |ts|
    ensures NodesOf(ts[..i]) + Nodes(ts[i]) <= NodesOf(ts) && BytesOf(ts[..i]) + Bytes(ts[i]) <= BytesOf(ts)
  {
    assert ts == ts[..i] + ([ts[i]] + ts[i + 1..]);
    NodesConcat(ts[..i], [ts[i]] + ts[i + 1..]);
  }

  lemma AppendFits<L>(ts: seq<Tree<L>>, t: Tree<L>)
    ensures NodesOf(ts + [t]) == NodesOf(ts) + Nodes(t) && BytesOf(ts + [t]) == BytesOf(ts) + Bytes(t)
  {
    NodesConcat(ts, [t]);
    assert [t][1..] == [];
  }

  // ----- reachability --------------------------------------------------------------------------

  /** The value refers to `id`, itself or somewhere below. */
  ghost predicate Mentions<L>(v: Tree<L>, id: Id)
    decreases v
  {
    if v.Ref? then v.id == id else exists i :: 0 <= i < |v.children| && Mentions(v.children[i], id)
  }

  ghost predicate Edge<L>(objects: Arenas<L>, a: Id, b: Id) {
    Has(objects, a) && Mentions(Target(objects, a), b)
  }

  /** Each object of the chain refers to the next. */
  ghost predicate Chain<L>(objects: Arenas<L>, ids: seq<Id>) {
    forall i :: 0 <= i < |ids| - 1 ==> Edge(objects, ids[i], ids[i + 1])
  }

  /** `id` leads back to itself through at least one reference. */
  ghost predicate OnCycle<L>(objects: Arenas<L>, id: Id) {
    exists ids :: |ids| >= 2 && ids[0] == id && ids[|ids| - 1] == id && Chain(objects, ids)
  }

  /** What a value refers to unfolds within the value's own unfolding. */
  lemma {:induction false} MentionUnfolds<L>(objects: Arenas<L>, v: Tree<L>, t: Tree<L>, id: Id) returns (u: Tree<L>)
    requires Unfolds(objects, v, t) && Mentions(v, id)
    ensures Unfolds(objects, Ref(id), u) && Nodes(u) <= Nodes(t) && (v.Node? ==> Nodes(u) < Nodes(t))
    decreases v
  {
    if v.Ref? {
      u := t;
    } else {
      var i :| 0 <= i < |v.children| && Mentions(v.children[i], id);
      u := MentionUnfolds(objects, v.children[i], t.children[i], id);
      PrefixFits(t.children, i);
    }
  }

  lemma {:induction false} ChainUnfolds<L>(objects: Arenas<L>, ids: seq<Id>, t: Tree<L>) returns (u: Tree<L>)
    requires |ids| >= 2 && Chain(objects, ids) && Unfolds(objects, Ref(ids[0]), t)
    ensures Unfolds(objects, Ref(ids[|ids| - 1]), u) && Nodes(u) < Nodes(t)
    decreases |ids|
  {
    assert Edge(objects, ids[0], ids[1]);
    var first := Target(objects, ids[0]);
    assert Unfolds(objects, first, t);
    u := MentionUnfolds(objects, first, t, ids[1]);
    if |ids| > 2 {
      assert Chain(objects, ids[1..]) by {
        forall i | 0 <= i < |ids[1..]| - 1
          ensures Edge(objects, ids[1..][i], ids[1..][i + 1])
        {
          assert Edge(objects, ids[i + 1], ids[i + 1 + 1]);
        }
      }
      u := ChainUnfolds(objects, ids[1..], u);
    }
  }

  /** An object that leads back to itself unfolds to no finite tree. */
  lemma CycleNeverUnfolds<L>(objects: Arenas<L>, id: Id, t: Tree<L>)
    requires OnCycle(objects, id)
    ensures !Unfolds(objects, Ref(id), t)
  {
    if Unfolds(objects, Ref(id), t) {
      var ids :| |ids| >= 2 && ids[0] == id && ids[|ids| - 1] == id && Chain(objects, ids);
      var u := ChainUnfolds(objects, ids, t);
      UnfoldingUnique(objects, Ref(id), t, u);
    }
  }

  /** Nor does any value that leads to such an object. */
  lemma ReachingCycleNeverUnfolds<L>(objects: Arenas<L>, v: Tree<L>, ids: seq<Id>, t: Tree<L>)
    requires |ids| >= 1 && Mentions(v, ids[0]) && Chain(objects, ids) && OnCycle(objects, ids[|ids| - 1])
    ensures !Unfolds(objects, v, t)
  {
    if Unfolds(objects, v, t) {
      var u := MentionUnfolds(objects, v, t, ids[0]);
      if |ids| >= 2 {
        u := ChainUnfolds(objects, ids, u);
      }
      CycleNeverUnfolds(objects, ids[|ids| - 1], u);
    }
  }
}
