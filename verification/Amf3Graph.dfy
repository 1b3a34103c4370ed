/** First-visit renumbering of a document graph: what a document means independently of how its
    arena happens to be laid out. */
module Amf3Graph {
  import opened Base
  import opened Amf3

  /** Slots given to the objects of the source arena so far, and the arena built so far. */
  datatype Numbering = Numbering(refs: map<nat, nat>, objects: seq<Value>)

  ghost function Unvisited(env: seq<Value>, refs: map<nat, nat>): set<nat> {
    set id | 0 <= id < |env| && id !in refs
  }

  ghost predicate Extends(n: Numbering, n': Numbering) {
    && (forall id :: id in n.refs ==> id in n'.refs && n'.refs[id] == n.refs[id])
    && |n.objects| <= |n'.objects|
  }

  lemma ExtendsUnvisited(env: seq<Value>, n: Numbering, n': Numbering)
    requires Extends(n, n')
    ensures Unvisited(env, n'.refs) <= Unvisited(env, n.refs)
  {
  }

  /** An empty class name and no class name are the same on the wire. */
  function NormalClass(name: Option<Str>): Option<Str> {
    if name == Some([]) then None else name
  }

  function NormalScalar(v: Value): Value {
    if v.Integer? && !InRange(v.i) then Double(DoubleOf(v.i)) else v
  }

  /** Number a value: complex values get slots in the order in which they are first met. */
  ghost function NumberValue(env: seq<Value>, n: Numbering, v: Value): (r: (Value, Numbering))
    ensures Extends(n, r.1)
    decreases Unvisited(env, n.refs), v, 2
  {
    if v.Reference? then
      if v.id in n.refs then (Reference(n.refs[v.id]), n)
      else if v.id < |env| && Complex(env[v.id]) then
        var n1 := n.(refs := n.refs[v.id := |n.objects|]);
        assert v.id in Unvisited(env, n.refs) && v.id !in Unvisited(env, n1.refs);
        NumberComplex(env, n1, env[v.id])
      else (v, n)
    else if Complex(v) then NumberComplex(env, n, v)
    else (NormalScalar(v), n)
  }

  /** A complex value takes the next slot, then its children are numbered in wire order. */
  ghost function NumberComplex(env: seq<Value>, n: Numbering, v: Value): (r: (Value, Numbering))
    requires Complex(v)
    ensures Extends(n, r.1) && r.0 == Reference(|n.objects|) && |n.objects| < |r.1.objects|
    decreases Unvisited(env, n.refs), v, 1
  {
    var slot := |n.objects|;
    var (v', n') := NumberChildren(env, n.(objects := n.objects + [Null]), v);
    (Reference(slot), n'.(objects := n'.objects[slot := v']))
  }

  ghost function NumberChildren(env: seq<Value>, n: Numbering, v: Value): (r: (Value, Numbering))
    requires Complex(v)
    ensures Extends(n, r.1)
    decreases Unvisited(env, n.refs), v, 0
  {
    match v
    case Array(dense, associative) =>
      var (members, n1) := NumberMembers(env, n, associative);
      ExtendsUnvisited(env, n, n1);
      var (items, n2) := NumberValues(env, n1, dense);
      (Array(items, members), n2)
    case Object(name, sealed, dynamic) =>
      var (fixed, n1) := NumberMembers(env, n, sealed);
      ExtendsUnvisited(env, n, n1);
      if dynamic.NotDynamic? then (Object(NormalClass(name), fixed, NotDynamic), n1)
      else
        var (members, n2) := NumberMembers(env, n1, dynamic.members);
        (Object(NormalClass(name), fixed, Dynamic(members)), n2)
    case VectorObject(name, fixed, values) =>
      var (items, n1) := NumberValues(env, n, values);
      (VectorObject(name, fixed, items), n1)
    case Date(_) => (v, n)
    case Blob(_, _) => (v, n)
  }

  ghost function NumberValues(env: seq<Value>, n: Numbering, vs: seq<Value>): (r: (seq<Value>, Numbering))
    ensures Extends(n, r.1) && |r.0| == |vs|
    decreases Unvisited(env, n.refs), vs
  {
    if vs == [] then ([], n)
    else
      var (first, n1) := NumberValue(env, n, vs[0]);
      ExtendsUnvisited(env, n, n1);
      var (others, n2) := NumberValues(env, n1, vs[1..]);
      ([first] + others, n2)
  }

  ghost function NumberMembers(env: seq<Value>, n: Numbering, ms: seq<Member>): (r: (seq<Member>, Numbering))
    ensures Extends(n, r.1) && |r.0| == |ms|
    decreases Unvisited(env, n.refs), ms
  {
    if ms == [] then ([], n)
    else
      var (first, n1) := NumberValue(env, n, ms[0].value);
      ExtendsUnvisited(env, n, n1);
      var (others, n2) := NumberMembers(env, n1, ms[1..]);
      ([Member(ms[0].name, first)] + others, n2)
  }

  /** The document whose arena holds every complex value in first-visit order. */
  ghost function Renumber(doc: Document): Document {
    var (roots, n) := NumberValues(doc.objects, Numbering(map[], []), doc.roots);
    Document(roots, n.objects)
  }

  lemma NumberOne(env: seq<Value>, v: Value)
    ensures var (u, m) := NumberValue(env, Numbering(map[], []), v);
            NumberValues(env, Numbering(map[], []), [v]) == ([u], m)
  {
    hide NumberValue;
    var (u, m) := NumberValue(env, Numbering(map[], []), v);
    assert [v][1..] == [] && NumberValues(env, m, []) == ([], m);
    assert [u] + [] == [u];
  }

  // ----- moving an arena -------------------------------------------------------------------------------

  /** Move references by `base`, when one AMF3 arena is appended to another. */
  function Relocate(v: Value, base: nat): Value
    decreases v, 0
  {
    match v
    case Reference(id) => Reference(id + base)
    case Array(dense, associative) => Array(RelocateAll(dense, base), RelocateMembers(associative, base))
    case Object(name, sealed, dynamic) =>
      Object(name, RelocateMembers(sealed, base),
                if dynamic.Dynamic? then Dynamic(RelocateMembers(dynamic.members, base)) else NotDynamic)
    case VectorObject(name, fixed, values) => VectorObject(name, fixed, RelocateAll(values, base))
    case _ => v
  }

  function RelocateAll(vs: seq<Value>, base: nat): (r: seq<Value>)
    ensures |r| == |vs| && forall i :: 0 <= i < |vs| ==> r[i] == Relocate(vs[i], base)
    decreases vs, 1
  {
    if vs == [] then [] else [Relocate(vs[0], base)] + RelocateAll(vs[1..], base)
  }

  function RelocateMembers(ms: seq<Member>, base: nat): (r: seq<Member>)
    ensures |r| == |ms| && forall i :: 0 <= i < |ms| ==> r[i] == Member(ms[i].name, Relocate(ms[i].value, base))
    decreases ms, 1
  {
    if ms == [] then [] else [Member(ms[0].name, Relocate(ms[0].value, base))] + RelocateMembers(ms[1..], base)
  }
}
