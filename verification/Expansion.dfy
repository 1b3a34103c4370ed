/** Graph-to-tree expansion: the whole budget and the absence of cycles are checked first, then the
    references are replaced in place with no further checks. Both arenas count against one budget;
    since embedded values never refer back, the path of one is a continuation of that of the other. */
module Expansion {
  import opened Base
  import opened Graph

  datatype TreeLimits = TreeLimits(maximumNodes: nat, maximumBytes: nat, maximumDepth: nat)

  datatype TreeError = Cycle(id: Id) | InvalidReference(id: Id) | Limit

  datatype Check = Pass | Fail(error: TreeError) {
    predicate IsFailure() {
      Fail?
    }

    function PropagateFailure(): Check
      requires IsFailure()
    {
      this
    }
  }

  /** The trees fit a budget of nodes and bytes, with `depth` more levels allowed. */
  ghost predicate Affordable<L(!new)>(ts: seq<Tree<L>>, nodes: nat, bytes: nat, depth: int) {
    && NodesOf(ts) <= nodes && BytesOf(ts) <= bytes
    && (forall i :: 0 <= i < |ts| ==> NoDeeper(ts[i], depth))
  }

  ghost predicate AffordableTree<L(!new)>(t: Tree<L>, nodes: nat, bytes: nat, depth: int) {
    Nodes(t) <= nodes && Bytes(t) <= bytes && NoDeeper(t, depth)
  }

  /** No unfolding of the value fits. */
  ghost predicate TooCostly<L(!new)>(objects: Arenas<L>, v: Tree<L>, nodes: nat, bytes: nat, depth: int) {
    forall u :: Unfolds(objects, v, u) ==> !AffordableTree(u, nodes, bytes, depth)
  }

  ghost predicate AllTooCostly<L(!new)>(objects: Arenas<L>, vs: seq<Tree<L>>, nodes: nat, bytes: nat, depth: int) {
    forall us :: AllUnfold(objects, vs, us) ==> !Affordable(us, nodes, bytes, depth)
  }

  /** The error is true of the arena. */
  ghost predicate Justified<L(!new)>(objects: Arenas<L>, e: TreeError) {
    match e
    case Cycle(id) => OnCycle(objects, id)
    case InvalidReference(id) => !Has(objects, id) || Target(objects, id).Ref?
    case Limit => true
  }

  /** Every object on the path refers to the next one, and the last one to whatever `v` does. */
  ghost predicate Leads<L(!new)>(objects: Arenas<L>, path: seq<Id>, v: Tree<L>) {
    && Chain(objects, path)
    && (path != [] ==> forall id :: Mentions(v, id) ==> Edge(objects, path[|path| - 1], id))
  }

  lemma LeadsOn<L(!new)>(objects: Arenas<L>, path: seq<Id>, id: Id)
    requires Leads(objects, path, Ref(id))
    ensures Chain(objects, path + [id])
    ensures Has(objects, id) ==> Leads(objects, path + [id], Target(objects, id))
  {
    var longer := path + [id];
    forall i | 0 <= i < |longer| - 1
      ensures Edge(objects, longer[i], longer[i + 1])
    {
      if i == |path| - 1 {
        assert Mentions(Tree<L>.Ref(id), id);
      } else {
        assert Edge(objects, path[i], path[i + 1]);
      }
    }
  }

  lemma LeadsDown<L(!new)>(objects: Arenas<L>, path: seq<Id>, v: Tree<L>, i: nat)
    requires Leads(objects, path, v) && v.Node? && i < |v.children|
    ensures Leads(objects, path, v.children[i])
  {
    forall id | path != [] && Mentions(v.children[i], id)
      ensures Edge(objects, path[|path| - 1], id)
    {
      assert Mentions(v, id);
    }
  }

  lemma PathCycle<L(!new)>(objects: Arenas<L>, path: seq<Id>, id: Id)
    requires Leads(objects, path, Ref(id)) && id in path
    ensures OnCycle(objects, id)
  {
    LeadsOn(objects, path, id);
    var j :| 0 <= j < |path| && path[j] == id;
    var longer := path + [id];
    var ids := longer[j..];
    forall i | 0 <= i < |ids| - 1
      ensures Edge(objects, ids[i], ids[i + 1])
    {
      assert Edge(objects, longer[j + i], longer[j + i + 1]);
    }
    assert |ids| >= 2 && ids[0] == id && ids[|ids| - 1] == id && Chain(objects, ids);
  }

  /** Children that are affordable make an affordable node, one level up. */
  lemma NodeAffordable<L(!new)>(t: Tree<L>, nodes: nat, bytes: nat, depth: int)
    requires t.Node? && nodes >= 1 && bytes >= t.heap && depth >= 0
    ensures AffordableTree(t, nodes, bytes, depth) <==> Affordable(t.children, nodes - 1, bytes - t.heap, depth - 1)
  {
  }

  /** A reference unfolds as its target does. */
  lemma TargetUnfolds<L(!new)>(objects: Arenas<L>, id: Id, u: Tree<L>)
    requires Has(objects, id) && Target(objects, id).Node?
    ensures Unfolds(objects, Ref(id), u) <==> Unfolds(objects, Target(objects, id), u)
  {
    assert Resolve(objects, Ref(id)) == Resolve(objects, Target(objects, id));
  }

  lemma TargetTooCostly<L(!new)>(objects: Arenas<L>, id: Id, nodes: nat, bytes: nat, depth: int)
    requires Has(objects, id) && Target(objects, id).Node?
    ensures TooCostly(objects, Target(objects, id), nodes, bytes, depth) ==>
            TooCostly(objects, Ref(id), nodes, bytes, depth)
  {
    forall u | Unfolds(objects, Ref(id), u)
      ensures Unfolds(objects, Target(objects, id), u)
    {
      TargetUnfolds(objects, id, u);
    }
  }

  lemma NodeTooCostly<L(!new)>(objects: Arenas<L>, v: Tree<L>, nodes: nat, bytes: nat, depth: int)
    requires v.Node? && nodes >= 1 && bytes >= v.heap && depth >= 0
    ensures AllTooCostly(objects, v.children, nodes - 1, bytes - v.heap, depth - 1) ==>
            TooCostly(objects, v, nodes, bytes, depth)
  {
    forall u | Unfolds(objects, v, u)
      ensures AllUnfold(objects, v.children, u.children)
      ensures AffordableTree(u, nodes, bytes, depth) <==> Affordable(u.children, nodes - 1, bytes - v.heap, depth - 1)
    {
      NodeAffordable(u, nodes, bytes, depth);
    }
  }

  class Validation<L(==,!new)> {
    var path: seq<Id>
    var nodes: nat
    var bytes: nat
    const maximumDepth: nat

    constructor (limits: TreeLimits)
      ensures path == [] && nodes == limits.maximumNodes && bytes == limits.maximumBytes
              && maximumDepth == limits.maximumDepth
    {
      path, nodes, bytes, maximumDepth := [], limits.maximumNodes, limits.maximumBytes, limits.maximumDepth;
    }

    /** Succeeds exactly if `v` unfolds to a tree within the limits left, and pays for that tree. */
    method Validate(objects: Arenas<L>, v: Tree<L>, depth: nat) returns (r: Check, ghost t: Tree<L>)
      requires Leads(objects, path, v)
      modifies this
      ensures path == old(path)
      ensures r.Pass? ==>
        && Unfolds(objects, v, t) && AffordableTree(t, old(nodes), old(bytes), maximumDepth - depth)
        && nodes == old(nodes) - Nodes(t) && bytes == old(bytes) - Bytes(t)
      ensures r.Fail? ==>
        && Justified(objects, r.error)
        && TooCostly(objects, v, old(nodes), old(bytes), maximumDepth - depth)
      decreases maximumDepth - depth, 1, if v.Ref? then 1 else 0
    {
      t := v;
      if depth > maximumDepth {
        return Fail(Limit), t;
      }
      if v.Ref? {
        if v.id in path {
          PathCycle(objects, path, v.id);
          forall u ensures !Unfolds(objects, v, u) {
            CycleNeverUnfolds(objects, v.id, u);
          }
          return Fail(Cycle(v.id)), t;
        }
        if !Has(objects, v.id) || Target(objects, v.id).Ref? {
          return Fail(InvalidReference(v.id)), t;
        }
        hide AffordableTree, TooCostly;
        ghost var nodesLeft, bytesLeft := nodes, bytes;
        LeadsOn(objects, path, v.id);
        path := path + [v.id];
        r, t := Validate(objects, Target(objects, v.id), depth);
        path := path[..|path| - 1];
        assert path == old(path);
        TargetUnfolds(objects, v.id, t);
        TargetTooCostly(objects, v.id, nodesLeft, bytesLeft, maximumDepth - depth);
        return r, t;
      }
      if nodes == 0 {
        return Fail(Limit), t;
      }
      nodes := nodes - 1;
      if bytes < v.heap {
        return Fail(Limit), t;
      }
      bytes := bytes - v.heap;
      ghost var ts;
      r, ts := ValidateChildren(objects, v, depth);
      t := Node(v.kind, v.heap, ts);
      NodeAffordable(t, old(nodes), old(bytes), maximumDepth - depth);
      NodeTooCostly(objects, v, old(nodes), old(bytes), maximumDepth - depth);
    }

    method ValidateChildren(objects: Arenas<L>, v: Tree<L>, depth: nat) returns (r: Check, ghost ts: seq<Tree<L>>)
      requires v.Node? && depth <= maximumDepth && Leads(objects, path, v)
      modifies this
      ensures path == old(path)
      ensures r.Pass? ==>
        && AllUnfold(objects, v.children, ts) && Affordable(ts, old(nodes), old(bytes), maximumDepth - depth - 1)
        && nodes == old(nodes) - NodesOf(ts) && bytes == old(bytes) - BytesOf(ts)
      ensures r.Fail? ==>
        && Justified(objects, r.error)
        && AllTooCostly(objects, v.children, old(nodes), old(bytes), maximumDepth - depth - 1)
      decreases maximumDepth - depth, 0, 0
    {
      hide Unfolds, Nodes, Bytes, NoDeeper, Justified;
      ts := [];
      var i := 0;
      while i < |v.children|
        invariant 0 <= i <= |v.children| && path == old(path)
        invariant AllUnfold(objects, v.children[..i], ts)
                  && Affordable(ts, old(nodes), old(bytes), maximumDepth - depth - 1)
        invariant nodes == old(nodes) - NodesOf(ts) && bytes == old(bytes) - BytesOf(ts)
      {
        LeadsDown(objects, path, v, i);
        ghost var nodesLeft, bytesLeft := nodes, bytes;
        ghost var t;
        r, t := Validate(objects, v.children[i], depth + 1);
        if r.Fail? {
          forall us | AllUnfold(objects, v.children, us)
            ensures !Affordable(us, old(nodes), old(bytes), maximumDepth - depth - 1)
          {
            AllUnique(objects, v.children[..i], ts, us[..i]);
            PrefixFits(us, i);
            assert !AffordableTree(us[i], nodesLeft, bytesLeft, maximumDepth - depth - 1);
          }
          return r, ts;
        }
        AppendFits(ts, t);
        ts := ts + [t];
        i := i + 1;
      }
      assert v.children[..i] == v.children;
      return Pass, ts;
    }
  }

  /** Replace every reference by its target. Nothing is checked: that `v` unfolds is what makes
      the lookups valid and the recursion end. */
  method Install<L(!new)>(objects: Arenas<L>, v: Tree<L>, ghost t: Tree<L>) returns (w: Tree<L>)
    requires Unfolds(objects, v, t)
    ensures w == t
    decreases t
  {
    var value := if v.Ref? then Target(objects, v.id) else v;
    var i := 0;
    while i < |value.children|
      invariant value.Node? && 0 <= i <= |value.children| && |value.children| == |t.children|
      invariant value.kind == t.kind && value.heap == t.heap
      invariant value.children == t.children[..i] + Resolve(objects, v).children[i..]
    {
      var child := Install(objects, value.children[i], t.children[i]);
      value := value.(children := value.children[i := child]);
      i := i + 1;
    }
    return value;
  }

  /** Check all roots against one budget. */
  method ValidateAll<L(==,!new)>(roots: seq<Tree<L>>, objects: Arenas<L>, limits: TreeLimits)
      returns (r: Check, ghost ts: seq<Tree<L>>)
    ensures r.Pass? ==>
      AllUnfold(objects, roots, ts) && Affordable(ts, limits.maximumNodes, limits.maximumBytes, limits.maximumDepth)
    ensures r.Fail? ==>
      && Justified(objects, r.error)
      && AllTooCostly(objects, roots, limits.maximumNodes, limits.maximumBytes, limits.maximumDepth)
  {
    hide Unfolds, Nodes, Bytes, NoDeeper, Justified;
    var validation := new Validation<L>(limits);
    ts := [];
    var i := 0;
    while i < |roots|
      invariant 0 <= i <= |roots| && validation.path == [] && validation.maximumDepth == limits.maximumDepth
      invariant AllUnfold(objects, roots[..i], ts)
                && Affordable(ts, limits.maximumNodes, limits.maximumBytes, limits.maximumDepth)
      invariant validation.nodes == limits.maximumNodes - NodesOf(ts)
                && validation.bytes == limits.maximumBytes - BytesOf(ts)
    {
      ghost var nodesLeft, bytesLeft := validation.nodes, validation.bytes;
      ghost var t;
      r, t := validation.Validate(objects, roots[i], 0);
      if r.Fail? {
        forall us | AllUnfold(objects, roots, us)
          ensures !Affordable(us, limits.maximumNodes, limits.maximumBytes, limits.maximumDepth)
        {
          AllUnique(objects, roots[..i], ts, us[..i]);
          PrefixFits(us, i);
          assert !AffordableTree(us[i], nodesLeft, bytesLeft, limits.maximumDepth);
        }
        return r, ts;
      }
      AppendFits(ts, t);
      ts := ts + [t];
      i := i + 1;
    }
    assert roots[..i] == roots;
    return Pass, ts;
  }

  /** Expansion succeeds exactly if every root unfolds and the unfoldings together stay within the
      limits, and then gives those unfoldings. */
  method Expand<L(==,!new)>(roots: seq<Tree<L>>, objects: Arenas<L>, limits: TreeLimits)
      returns (r: Result<seq<Tree<L>>, TreeError>)
    ensures r.Ok? ==>
      && AllUnfold(objects, roots, r.value) && (forall i :: 0 <= i < |r.value| ==> ReferenceFree(r.value[i]))
      && Affordable(r.value, limits.maximumNodes, limits.maximumBytes, limits.maximumDepth)
    ensures r.Err? ==>
      && Justified(objects, r.error)
      && AllTooCostly(objects, roots, limits.maximumNodes, limits.maximumBytes, limits.maximumDepth)
  {
    hide Unfolds, Affordable, ReferenceFree, Justified;
    var check;
    ghost var ts;
    check, ts := ValidateAll(roots, objects, limits);
    if check.Fail? {
      return Err(check.error);
    }
    var output := roots;
    var i := 0;
    while i < |output|
      invariant 0 <= i <= |output| == |ts|
      invariant output == ts[..i] + roots[i..]
    {
      var tree := Install(objects, output[i], ts[i]);
      output := output[i := tree];
      i := i + 1;
    }
    assert output == ts;
    forall k | 0 <= k < |ts|
      ensures ReferenceFree(ts[k])
    {
      UnfoldingReferenceFree(objects, roots[k], ts[k]);
    }
    return Ok(output);
  }

  /** A root that leads to a cycle is never expanded, whatever the limits. */
  lemma CyclicNeverExpands<L(!new)>(roots: seq<Tree<L>>, objects: Arenas<L>, i: nat, ids: seq<Id>, ts: seq<Tree<L>>)
    requires i < |roots| && |ids| >= 1 && Mentions(roots[i], ids[0]) && Chain(objects, ids)
             && OnCycle(objects, ids[|ids| - 1])
    ensures !AllUnfold(objects, roots, ts)
  {
    if AllUnfold(objects, roots, ts) {
      ReachingCycleNeverUnfolds(objects, roots[i], ids, ts[i]);
    }
  }
}
