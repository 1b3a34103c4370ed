/** Places of values in a document, and the places that slots of an arena stand for. */
module Places {
  import opened Base

  /** Where a value is: below an object of the arena, or below the roots, at the end of a path. */
  datatype Place = Place(top: Option<nat>, path: seq<nat>)

  const ROOTS := Place(None, [])

  function ObjectAt(id: nat): Place {
    Place(Some(id), [])
  }

  function Child(p: Place, k: nat): Place {
    Place(p.top, p.path + [k])
  }

  /** `q` is below `p`, in a child from `lo` up to `hi`. */
  ghost predicate Within(q: Place, p: Place, lo: nat, hi: nat) {
    q.top == p.top && |p.path| < |q.path| && p.path <= q.path && lo <= q.path[|p.path|] < hi
  }

  ghost predicate Beyond(q: Place, p: Place, lo: nat) {
    q.top == p.top && |p.path| < |q.path| && p.path <= q.path && lo <= q.path[|p.path|]
  }

  /** The place is below an object first met between `refs` and `refs'`. */
  ghost predicate Newly(q: Place, refs: map<nat, nat>, refs': map<nat, nat>) {
    q.top.Some? && q.top.value in refs' && q.top.value !in refs
  }

  ghost predicate Distinct(own: seq<Place>) {
    forall i, j :: 0 <= i < j < |own| ==> own[i] != own[j]
  }

  /** Different places, none of them below an object not met yet. */
  ghost predicate Apart(refs: map<nat, nat>, own: seq<Place>) {
    Distinct(own) && forall k :: 0 <= k < |own| && own[k].top.Some? ==> own[k].top.value in refs
  }

  /** The slots stand for different places, those of known objects for the objects. */
  ghost predicate Held(refs: map<nat, nat>, own: seq<Place>) {
    Apart(refs, own) && forall id :: id in refs ==> refs[id] < |own| && own[refs[id]] == ObjectAt(id)
  }

  /** Nothing at or behind child `at` of `p` has a slot yet. */
  ghost predicate Clear(refs: map<nat, nat>, own: seq<Place>, p: Place, at: nat) {
    && (p.top.Some? ==> p.top.value in refs)
    && (forall k :: 0 <= k < |own| ==> !Beyond(own[k], p, at))
  }

  /** What has got a slot since is below children from `lo` up to `hi`, or below objects newly met. */
  ghost predicate Gained(refs: map<nat, nat>, own: seq<Place>, refs': map<nat, nat>, own': seq<Place>, p: Place,
          lo: nat, hi: nat) {
    && own <= own'
    && (forall k :: |own| <= k < |own'| ==> Within(own'[k], p, lo, hi) || Newly(own'[k], refs, refs'))
  }

  lemma ChildWithin(p: Place, k: nat)
    ensures Within(Child(p, k), p, k, k + 1) && Beyond(Child(p, k), p, k)
  {
  }

  lemma Deeper(q: Place, p: Place, k: nat, lo: nat)
    requires Beyond(q, Child(p, k), lo)
    ensures Within(q, p, k, k + 1) && Beyond(q, p, k)
  {
    assert Child(p, k).path[|p.path|] == k;
    assert p.path <= Child(p, k).path <= q.path;
  }

  /** Another place behind those that have been met. */
  lemma ChildApart(refs: map<nat, nat>, own: seq<Place>, p: Place, at: nat)
    requires Apart(refs, own) && Clear(refs, own, p, at)
    ensures Apart(refs, own + [Child(p, at)])
            && Gained(refs, own, refs, own + [Child(p, at)], p, at, at + 1)
  {
    ChildWithin(p, at);
  }

  lemma ClearBelow(refs: map<nat, nat>, own: seq<Place>, p: Place, at: nat)
    requires Clear(refs, own, p, at)
    ensures Clear(refs, own, Child(p, at), 0)
  {
    forall k | 0 <= k < |own|
      ensures !Beyond(own[k], Child(p, at), 0)
    {
      if Beyond(own[k], Child(p, at), 0) {
        Deeper(own[k], p, at, 0);
      }
    }
  }

  /** A first look at an object. */
  lemma ObjectApart(refs: map<nat, nat>, own: seq<Place>, id: nat, slot: nat)
    requires Apart(refs, own) && id !in refs
    ensures Apart(refs[id := slot], own) && Clear(refs[id := slot], own, ObjectAt(id), 0)
  {
  }

  lemma GainedBelow(refs: map<nat, nat>, own: seq<Place>, refs': map<nat, nat>, own': seq<Place>, p: Place, at: nat,
          hi: nat)
    requires Gained(refs, own, refs', own', Child(p, at), 0, hi)
    ensures Gained(refs, own, refs', own', p, at, at + 1)
  {
    forall k | |own| <= k < |own'|
      ensures Within(own'[k], p, at, at + 1) || Newly(own'[k], refs, refs')
    {
      if Within(own'[k], Child(p, at), 0, hi) {
        Deeper(own'[k], p, at, 0);
      }
    }
  }

  lemma GainedMeeting(refs: map<nat, nat>, own: seq<Place>, id: nat, slot: nat, refs': map<nat, nat>, own': seq<Place>,
          p: Place, at: nat, hi: nat)
    requires id !in refs && id in refs' && Gained(refs[id := slot], own, refs', own', ObjectAt(id), 0, hi)
    ensures Gained(refs, own, refs', own', p, at, at + 1)
  {
  }

  /** An inline value takes the next slot. */
  lemma InlineHeld(refs: map<nat, nat>, own: seq<Place>, p: Place, at: nat)
    requires Held(refs, own) && Clear(refs, own, p, at)
    ensures Held(refs, own + [Child(p, at)]) && Clear(refs, own + [Child(p, at)], Child(p, at), 0)
  {
    var q := Child(p, at);
    var own' := own + [q];
    ChildWithin(p, at);
    forall k | 0 <= k < |own'|
      ensures !Beyond(own'[k], q, 0)
    {
      if Beyond(own'[k], q, 0) {
        Deeper(own'[k], p, at, 0);
      }
    }
  }

  /** An object met for the first time takes the next slot. */
  lemma ObjectHeld(refs: map<nat, nat>, own: seq<Place>, id: nat)
    requires Held(refs, own) && id !in refs
    ensures Held(refs[id := |own|], own + [ObjectAt(id)])
            && Clear(refs[id := |own|], own + [ObjectAt(id)], ObjectAt(id), 0)
  {
  }

  lemma GainedInline(refs: map<nat, nat>, own: seq<Place>, refs': map<nat, nat>, own': seq<Place>, p: Place, at: nat,
          hi: nat)
    requires Gained(refs, own + [Child(p, at)], refs', own', Child(p, at), 0, hi)
    ensures Gained(refs, own, refs', own', p, at, at + 1)
  {
    ChildWithin(p, at);
    assert own <= own + [Child(p, at)];
    forall k | |own| <= k < |own'|
      ensures Within(own'[k], p, at, at + 1) || Newly(own'[k], refs, refs')
    {
      if k == |own| {
        assert own'[k] == Child(p, at);
      } else if Within(own'[k], Child(p, at), 0, hi) {
        Deeper(own'[k], p, at, 0);
      }
    }
  }

  lemma GainedObject(refs: map<nat, nat>, own: seq<Place>, id: nat, refs': map<nat, nat>, own': seq<Place>, p: Place,
          at: nat, hi: nat)
    requires id !in refs && id in refs'
             && Gained(refs[id := |own|], own + [ObjectAt(id)], refs', own', ObjectAt(id), 0, hi)
    ensures Gained(refs, own, refs', own', p, at, at + 1)
  {
    assert own <= own + [ObjectAt(id)];
    forall k | |own| <= k < |own'|
      ensures Newly(own'[k], refs, refs')
    {
      if k == |own| {
        assert own'[k] == ObjectAt(id);
      }
    }
  }

  lemma GainedBoth(refs: map<nat, nat>, own: seq<Place>, refs1: map<nat, nat>, own1: seq<Place>, refs2: map<nat, nat>,
          own2: seq<Place>, p: Place, lo: nat, mid: nat, hi: nat)
    requires Gained(refs, own, refs1, own1, p, lo, mid) && Gained(refs1, own1, refs2, own2, p, mid, hi)
             && lo <= mid <= hi
    requires forall id :: id in refs ==> id in refs1
    requires forall id :: id in refs1 ==> id in refs2
    ensures Gained(refs, own, refs2, own2, p, lo, hi)
  {
    forall k | |own| <= k < |own2|
      ensures Within(own2[k], p, lo, hi) || Newly(own2[k], refs, refs2)
    {
      if k < |own1| {
        assert own2[k] == own1[k];
      }
    }
  }

  /** What has got a slot leaves the children behind clear. */
  lemma GainedClear(refs: map<nat, nat>, own: seq<Place>, refs': map<nat, nat>, own': seq<Place>, p: Place, at: nat)
    requires Clear(refs, own, p, at) && Gained(refs, own, refs', own', p, at, at + 1)
    requires forall id :: id in refs ==> id in refs'
    ensures Clear(refs', own', p, at + 1)
  {
    forall k | 0 <= k < |own'|
      ensures !Beyond(own'[k], p, at + 1)
    {
      if k < |own| {
        assert own'[k] == own[k] && !Beyond(own[k], p, at);
      }
    }
  }
}
