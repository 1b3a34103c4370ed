/** The generational arena of stream handles. A handle names a slot and the generation in which the
    slot was given out, so a handle outlives its stream without ever naming another one. */
module StreamsModule {
  import opened Base

  datatype Handle = Handle(session: nat, slot: nat, generation: nat)

  datatype Entry<T> = Entry(wire: Option<u32>, state: T)

  datatype Slot<T> = Slot(generation: nat, entry: Option<Entry<T>>)

  const MAX_GENERATION: nat := 0xffff_ffff

  // ----- the live entries ------------------------------------------------------------------------

  predicate Occupied<T>(session: nat, slots: seq<Slot<T>>, h: Handle) {
    && h.session == session && h.slot < |slots|
    && slots[h.slot].generation == h.generation && slots[h.slot].entry.Some?
  }

  ghost function HandleAt<T>(session: nat, slots: seq<Slot<T>>, k: nat): Handle
    requires k < |slots|
  {
    Handle(session, k, slots[k].generation)
  }

  /** The handles that resolve, with what they resolve to. */
  ghost function LiveIn<T>(session: nat, slots: seq<Slot<T>>): map<Handle, Entry<T>> {
    map h | h in (set k | 0 <= k < |slots| :: HandleAt(session, slots, k))
        && slots[h.slot].entry.Some? :: slots[h.slot].entry.value
  }

  lemma LiveExactly<T>(session: nat, slots: seq<Slot<T>>, h: Handle)
    ensures h in LiveIn(session, slots) <==> Occupied(session, slots, h)
    ensures Occupied(session, slots, h) ==> LiveIn(session, slots)[h] == slots[h.slot].entry.value
  {
    if Occupied(session, slots, h) {
      assert h == HandleAt(session, slots, h.slot);
    }
  }

  lemma LiveAll<T>(session: nat, slots: seq<Slot<T>>)
    ensures forall h: Handle :: h in LiveIn(session, slots) <==> Occupied(session, slots, h)
    ensures forall h: Handle :: Occupied(session, slots, h) ==> LiveIn(session, slots)[h] == slots[h.slot].entry.value
  {
    hide LiveIn;
    forall h: Handle
      ensures h in LiveIn(session, slots) <==> Occupied(session, slots, h)
      ensures Occupied(session, slots, h) ==> LiveIn(session, slots)[h] == slots[h.slot].entry.value
    {
      LiveExactly(session, slots, h);
    }
  }

  lemma LiveSet<T>(session: nat, slots: seq<Slot<T>>, k: nat, s: Slot<T>)
    requires k < |slots| && s.entry.Some? && (slots[k].entry.Some? ==> s.generation == slots[k].generation)
    ensures LiveIn(session, slots[k := s]) == LiveIn(session, slots)[Handle(session, k, s.generation) := s.entry.value]
  {
    hide LiveIn;
    LiveAll(session, slots);
    LiveAll(session, slots[k := s]);
  }

  lemma LiveClear<T>(session: nat, slots: seq<Slot<T>>, k: nat)
    requires k < |slots|
    ensures LiveIn(session, slots[k := slots[k].(entry := None)]) ==
            LiveIn(session, slots) - {HandleAt(session, slots, k)}
  {
    hide LiveIn;
    LiveAll(session, slots);
    LiveAll(session, slots[k := slots[k].(entry := None)]);
  }

  lemma LivePush<T>(session: nat, slots: seq<Slot<T>>, generation: nat)
    ensures LiveIn(session, slots + [Slot(generation, None)]) == LiveIn(session, slots)
  {
    hide LiveIn;
    LiveAll(session, slots);
    LiveAll(session, slots + [Slot(generation, None)]);
  }

  lemma LiveNone<T>(session: nat)
    ensures LiveIn<T>(session, []) == map[]
  {
    hide LiveIn;
    LiveAll<T>(session, []);
  }

  /** The number of occupied slots is the number of handles that resolve. */
  lemma {:induction false} LiveCount<T>(session: nat, slots: seq<Slot<T>>, n: nat)
    requires n <= |slots|
    ensures |LiveIn(session, slots[..n])| == CountSome(slots[..n])
    decreases n
  {
    hide LiveIn;
    if n == 0 {
      LiveNone<T>(session);
      assert slots[..0] == [];
    } else {
      LiveCount(session, slots, n - 1);
      var before, last := slots[..n - 1], slots[n - 1];
      assert slots[..n][..n - 1] == before;
      var grown := before + [Slot(last.generation, None)];
      LivePush(session, before, last.generation);
      if last.entry.Some? {
        assert slots[..n] == grown[n - 1 := last];
        LiveSet(session, grown, n - 1, last);
        var h := Handle(session, n - 1, last.generation);
        LiveExactly(session, before, h);
        Added(LiveIn(session, before), h, last.entry.value);
      } else {
        assert slots[..n] == grown;
      }
    }
  }

  function CountSome<T>(slots: seq<Slot<T>>): nat {
    if slots == [] then 0
    else CountSome(slots[..|slots| - 1]) + (if slots[|slots| - 1].entry.Some? then 1 else 0)
  }

  // ----- the wire index ----------------------------------------------------------------------------

  /** The index leads from each wire ID to the live entry that has it, and to no other. */
  ghost predicate Inverse<T>(byWire: map<u32, Handle>, live: map<Handle, Entry<T>>) {
    && (forall w :: w in byWire ==> byWire[w] in live && live[byWire[w]].wire == Some(w))
    && (forall h :: h in live && live[h].wire.Some? ==> live[h].wire.value in byWire && byWire[live[h].wire.value] == h)
  }

  lemma InverseInsert<T>(byWire: map<u32, Handle>, live: map<Handle, Entry<T>>, h: Handle, e: Entry<T>)
    requires Inverse(byWire, live) && (h in live ==> live[h].wire.None?) && (e.wire.Some? ==> e.wire.value !in byWire)
    ensures Inverse(if e.wire.Some? then byWire[e.wire.value := h] else byWire, live[h := e])
  {
  }

  lemma InverseRemove<T>(byWire: map<u32, Handle>, live: map<Handle, Entry<T>>, h: Handle)
    requires Inverse(byWire, live) && h in live
    ensures Inverse(if live[h].wire.Some? then byWire - {live[h].wire.value} else byWire, live - {h})
  {
  }

  // ----- the arena -------------------------------------------------------------------------------

  class Streams<T> {
    const session: nat
    var slots: seq<Slot<T>>
    var byWire: map<u32, Handle>
    /** Every handle ever given out. */
    ghost var issued: set<Handle>

    ghost function Live(): map<Handle, Entry<T>>
      reads this
    {
      LiveIn(session, slots)
    }

    /** Whatever resolves was given out, and no handle given out is ahead of its slot. */
    ghost predicate Valid()
      reads this
    {
      && (forall h :: h in Live() ==> h in issued)
      && (forall h :: h in issued ==>
            h.session == session && h.slot < |slots| && 1 <= h.generation <= slots[h.slot].generation)
      && (forall k :: 0 <= k < |slots| ==> slots[k].generation <= MAX_GENERATION)
    }

    /** The wire index is the inverse of the wire IDs of the live entries. */
    ghost predicate Indexed()
      reads this
    {
      Inverse(byWire, Live())
    }

    constructor (session: nat)
      ensures Valid() && Indexed() && Live() == map[] && issued == {} && slots == [] && this.session == session
    {
      this.session, slots, byWire, issued := session, [], map[], {};
      new;
      LiveNone<T>(session);
    }

    /** The first free slot whose generation can still grow, or a new one. */
    method Vacancy() returns (slot: nat)
      requires Valid()
      modifies this`slots
      ensures Valid() && Live() == old(Live()) && |slots| <= old(|slots|) + 1
      ensures slot < |slots| && slots[slot].entry.None? && slots[slot].generation < MAX_GENERATION
    {
      hide LiveIn;
      slot := 0;
      while slot < |slots| && !(slots[slot].entry.None? && slots[slot].generation < MAX_GENERATION)
        invariant 0 <= slot <= |slots|
      {
        slot := slot + 1;
      }
      if slot == |slots| {
        LivePush(session, slots, 0);
        slots := slots + [Slot(0, None)];
      }
    }

    /** Give out a handle that was never given out before. */
    method Insert(state: T, wire: Option<u32>) returns (h: Handle)
      requires Valid() && |slots| <= 0xffff_ffff
      modifies this
      ensures Valid() && h !in old(issued) && h !in old(Live()) && issued == old(issued) + {h}
      ensures Live() == old(Live())[h := Entry(wire, state)] && |slots| <= old(|slots|) + 1
      ensures byWire == if wire.Some? then old(byWire)[wire.value := h] else old(byWire)
      ensures old(Indexed()) && (wire.Some? ==> wire.value !in old(byWire)) ==> Indexed()
    {
      hide LiveIn, Inverse;
      ghost var live, index := Live(), byWire;
      var slot := Vacancy();
      var generation := slots[slot].generation + 1;
      h := Handle(session, slot, generation);
      assert h !in issued;
      LiveSet(session, slots, slot, Slot(generation, Some(Entry(wire, state))));
      slots := slots[slot := Slot(generation, Some(Entry(wire, state)))];
      issued := issued + {h};
      if wire.Some? {
        byWire := byWire[wire.value := h];
      }
      if Inverse(index, live) && (wire.Some? ==> wire.value !in index) {
        InverseInsert(index, live, h, Entry(wire, state));
      }
    }

    method Get(h: Handle) returns (e: Option<Entry<T>>)
      ensures e == if h in Live() then Some(Live()[h]) else None
    {
      LiveExactly(session, slots, h);
      if h.session != session || h.slot >= |slots| || slots[h.slot].generation != h.generation {
        return None;
      }
      return slots[h.slot].entry;
    }

    /** Change the state of a live stream. */
    method SetState(h: Handle, state: T)
      requires Valid() && h in Live()
      modifies this`slots
      ensures Valid() && Live() == old(Live())[h := old(Live())[h].(state := state)] && |slots| == old(|slots|)
      ensures old(Indexed()) ==> Indexed()
    {
      hide LiveIn;
      LiveExactly(session, slots, h);
      var s := Slot(h.generation, Some(slots[h.slot].entry.value.(state := state)));
      LiveSet(session, slots, h.slot, s);
      slots := slots[h.slot := s];
    }

    /** A removed handle does not resolve again: it stays among those given out. */
    method Remove(h: Handle) returns (e: Option<Entry<T>>)
      requires Valid()
      modifies this`slots, this`byWire
      ensures Valid() && Live() == old(Live()) - {h} && |slots| == old(|slots|)
      ensures e == if h in old(Live()) then Some(old(Live())[h]) else None
      ensures byWire == if e.Some? && e.value.wire.Some? then old(byWire) - {e.value.wire.value} else old(byWire)
      ensures old(Indexed()) ==> Indexed()
    {
      hide LiveIn, Inverse;
      ghost var live := Live();
      LiveExactly(session, slots, h);
      var found := Get(h);
      if found.None? {
        assert live - {h} == live;
        return None;
      }
      e := slots[h.slot].entry;
      LiveClear(session, slots, h.slot);
      slots := slots[h.slot := slots[h.slot].(entry := None)];
      if Inverse(byWire, live) {
        InverseRemove(byWire, live, h);
      }
      if e.value.wire.Some? {
        byWire := byWire - {e.value.wire.value};
      }
    }

    method Bind(h: Handle, wire: u32)
      requires Valid() && h in Live()
      modifies this`slots, this`byWire
      ensures Valid() && Live() == old(Live())[h := old(Live())[h].(wire := Some(wire))] && |slots| == old(|slots|)
      ensures byWire == old(byWire)[wire := h]
      ensures old(Indexed()) && old(Live())[h].wire.None? && wire !in old(byWire) ==> Indexed()
    {
      hide LiveIn;
      LiveExactly(session, slots, h);
      var s := Slot(h.generation, Some(slots[h.slot].entry.value.(wire := Some(wire))));
      LiveSet(session, slots, h.slot, s);
      slots := slots[h.slot := s];
      byWire := byWire[wire := h];
    }

    /** The live stream that has the wire ID, if there is one. */
    method Find(wire: u32) returns (h: Option<Handle>)
      ensures Indexed() ==> forall k :: h == Some(k) <==> k in Live() && Live()[k].wire == Some(wire)
      ensures h.Some? <==> wire in byWire
    {
      return if wire in byWire then Some(byWire[wire]) else None;
    }

    /** The number of live entries. */
    method Count() returns (n: nat)
      ensures n == |Live()|
    {
      n := 0;
      var k := 0;
      while k < |slots|
        invariant 0 <= k <= |slots| && n == CountSome(slots[..k])
      {
        assert slots[..k + 1][..k] == slots[..k];
        n := n + (if slots[k].entry.Some? then 1 else 0);
        k := k + 1;
      }
      assert slots[..k] == slots;
      LiveCount(session, slots, k);
    }
  }

  // ----- whole runs --------------------------------------------------------------------------------

  /** What a session does with its arena; streams are named by the order in which they were made. */
  datatype Operation<T> =
    | Insert(state: T, initial: Option<u32>)
    | Bind(stream: nat, wire: u32)
    | Remove(stream: nat)

  /** The streams made so far, in order; a removed one is none. */
  type World<T> = seq<Option<Entry<T>>>

  predicate Bound<T>(s: Option<Entry<T>>, wire: u32) {
    s.Some? && s.value.wire == Some(wire)
  }

  predicate InUse<T>(world: World<T>, wire: u32) {
    exists i :: 0 <= i < |world| && Bound(world[i], wire)
  }

  /** What an operation means. A session binds only a live stream that has no wire ID, and only to a
      wire ID that is not in use. */
  function Evolve<T>(world: World<T>, op: Operation<T>): World<T> {
    match op
    case Insert(state, wire) =>
      if wire.Some? && InUse(world, wire.value) then world else world + [Some(Entry(wire, state))]
    case Bind(i, wire) =>
      if i < |world| && world[i].Some? && world[i].value.wire.None? && !InUse(world, wire)
      then world[i := Some(world[i].value.(wire := Some(wire)))] else world
    case Remove(i) => if i < |world| then world[i := None] else world
  }

  function Evolved<T>(ops: seq<Operation<T>>): World<T> {
    if ops == [] then [] else Evolve(Evolved(ops[..|ops| - 1]), ops[|ops| - 1])
  }

  /** The operations remove a stream that has been made by then. */
  predicate Removes<T>(ops: seq<Operation<T>>, i: nat) {
    exists k :: 0 <= k < |ops| && RemovesAt(ops, i, k)
  }

  predicate RemovesAt<T>(ops: seq<Operation<T>>, i: nat, k: nat)
    requires k < |ops|
  {
    ops[k].Remove? && ops[k].stream == i && i < |Evolved(ops[..k])|
  }

  /** A stream is gone exactly if it was removed, and then for good. */
  lemma {:induction false} GoneExactly<T>(ops: seq<Operation<T>>, i: nat)
    requires i < |Evolved(ops)|
    ensures Evolved(ops)[i].None? <==> Removes(ops, i)
    decreases |ops|
  {
    var n := |ops| - 1;
    var init := ops[..n];
    assert forall k :: 0 <= k < n ==> init[..k] == ops[..k];
    assert forall k :: 0 <= k < n ==> (RemovesAt(ops, i, k) <==> RemovesAt(init, i, k));
    if i < |Evolved(init)| {
      GoneExactly(init, i);
    } else {
      assert forall k :: 0 <= k < n ==> |Evolved(ops[..k])| <= |Evolved(init)| by {
        forall k | 0 <= k < n ensures |Evolved(ops[..k])| <= |Evolved(init)| { NeverFewer(init, k); }
      }
    }
    assert RemovesAt(ops, i, n) <==> ops[n] == Operation<T>.Remove(i) && i < |Evolved(init)|;
  }

  lemma {:induction false} NeverFewer<T>(ops: seq<Operation<T>>, k: nat)
    requires k <= |ops|
    ensures |Evolved(ops[..k])| <= |Evolved(ops)|
    decreases |ops|
  {
    if k < |ops| {
      var init := ops[..|ops| - 1];
      assert init[..k] == ops[..k];
      NeverFewer(init, k);
    } else {
      assert ops[..k] == ops;
    }
  }

  /** No two live streams share a wire ID. */
  lemma {:induction false} WiresDiffer<T>(ops: seq<Operation<T>>, i: nat, j: nat, wire: u32)
    requires i < |Evolved(ops)| && j < |Evolved(ops)| && Bound(Evolved(ops)[i], wire) && Bound(Evolved(ops)[j], wire)
    ensures i == j
    decreases |ops|
  {
    var world := Evolved(ops[..|ops| - 1]);
    if i < |world| && j < |world| && Bound(world[i], wire) && Bound(world[j], wire) {
      WiresDiffer(ops[..|ops| - 1], i, j, wire);
    }
  }

  /** The handles given out are distinct and stand for the streams of `world`, in order. */
  ghost predicate Stands<T>(issued: set<Handle>, live: map<Handle, Entry<T>>, given: seq<Handle>, world: World<T>) {
    && |given| == |world|
    && (forall i, j :: 0 <= i < j < |given| ==> given[i] != given[j])
    && (forall i :: 0 <= i < |given| ==> given[i] in issued && (given[i] in live <==> world[i].Some?))
    && (forall i :: 0 <= i < |given| && world[i].Some? ==> live[given[i]] == world[i].value)
    && (forall h :: h in live ==> h in given)
  }

  lemma InUseBound<T>(issued: set<Handle>, live: map<Handle, Entry<T>>, given: seq<Handle>, world: World<T>,
          byWire: map<u32, Handle>, wire: u32)
    requires Stands(issued, live, given, world) && Inverse(byWire, live)
    ensures InUse(world, wire) <==> wire in byWire
  {
    if wire in byWire {
      var i :| 0 <= i < |given| && given[i] == byWire[wire];
      assert Bound(world[i], wire);
    }
  }

  lemma StandsInsert<T>(issued: set<Handle>, live: map<Handle, Entry<T>>, given: seq<Handle>, world: World<T>,
          h: Handle, e: Entry<T>)
    requires Stands(issued, live, given, world) && h !in issued
    ensures Stands(issued + {h}, live[h := e], given + [h], world + [Some(e)])
  {
  }

  lemma StandsBind<T>(issued: set<Handle>, live: map<Handle, Entry<T>>, given: seq<Handle>, world: World<T>, i: nat,
          e: Entry<T>)
    requires Stands(issued, live, given, world) && i < |given| && world[i].Some?
    ensures Stands(issued, live[given[i] := e], given, world[i := Some(e)])
  {
  }

  lemma StandsRemove<T>(issued: set<Handle>, live: map<Handle, Entry<T>>, given: seq<Handle>, world: World<T>, i: nat)
    requires Stands(issued, live, given, world) && i < |given|
    ensures Stands(issued, live - {given[i]}, given, world[i := None])
  {
  }

  /** Carry out one operation, with the checks that sessions make. */
  method Perform<T>(arena: Streams<T>, op: Operation<T>, given: seq<Handle>, ghost world: World<T>)
      returns (given': seq<Handle>)
    requires arena.Valid() && arena.Indexed() && |arena.slots| < 0xffff_ffff
    requires Stands(arena.issued, arena.Live(), given, world)
    modifies arena
    ensures arena.Valid() && arena.Indexed() && |arena.slots| <= old(|arena.slots|) + 1
    ensures Stands(arena.issued, arena.Live(), given', Evolve(world, op)) && given <= given'
  {
    hide LiveIn, Inverse, InUse, Stands, Streams.Live, Streams.Valid;
    StandsFor(arena, given, world);
    match op
    case Insert(state, initial) => given' := Make(arena, state, initial, given, world);
    case Bind(i, wire) =>
      given' := given;
      InUseBound(arena.issued, arena.Live(), given, world, arena.byWire, wire);
      if i < |given| {
        var entry := arena.Get(given[i]);
        var user := arena.Find(wire);
        if entry.Some? && entry.value.wire.None? && user.None? {
          StandsBind(arena.issued, arena.Live(), given, world, i, entry.value.(wire := Some(wire)));
          arena.Bind(given[i], wire);
        }
      }
    case Remove(i) =>
      given' := given;
      if i < |given| {
        StandsRemove(arena.issued, arena.Live(), given, world, i);
        var _ := arena.Remove(given[i]);
      }
  }

  lemma StandsFor<T>(arena: Streams<T>, given: seq<Handle>, world: World<T>)
    requires Stands(arena.issued, arena.Live(), given, world)
    ensures |given| == |world| && forall i :: 0 <= i < |given| ==>
              (given[i] in arena.Live() <==> world[i].Some?)
                  && (world[i].Some? ==> arena.Live()[given[i]] == world[i].value)
  {
    hide LiveIn;
  }

  method Make<T>(arena: Streams<T>, state: T, initial: Option<u32>, given: seq<Handle>, ghost world: World<T>)
      returns (given': seq<Handle>)
    requires arena.Valid() && arena.Indexed() && |arena.slots| < 0xffff_ffff
    requires Stands(arena.issued, arena.Live(), given, world)
    modifies arena
    ensures arena.Valid() && arena.Indexed() && |arena.slots| <= old(|arena.slots|) + 1
    ensures Stands(arena.issued, arena.Live(), given', Evolve(world, Insert(state, initial))) && given <= given'
  {
    hide LiveIn, Inverse, InUse, Stands, Streams.Live, Streams.Valid;
    if initial.Some? {
      InUseBound(arena.issued, arena.Live(), given, world, arena.byWire, initial.value);
      var user := arena.Find(initial.value);
      if user.Some? {
        return given;
      }
    }
    ghost var issued, live := arena.issued, arena.Live();
    var h := arena.Insert(state, initial);
    StandsInsert(issued, live, given, world, h, Entry(initial, state));
    return given + [h];
  }

  /** The lookup of a wire ID gave the handle of the live stream that has it, or none if none has. */
  ghost predicate Finds<T>(user: Option<Handle>, given: seq<Handle>, world: World<T>, wire: u32)
    requires |world| <= |given|
  {
    forall h :: user == Some(h) <==> exists i :: 0 <= i < |world| && given[i] == h && Bound(world[i], wire)
  }

  lemma FindsLater<T>(user: Option<Handle>, given: seq<Handle>, given': seq<Handle>, world: World<T>, wire: u32)
    requires |world| <= |given| && given <= given' && Finds(user, given, world, wire)
    ensures Finds(user, given', world, wire)
  {
    assert forall i :: 0 <= i < |world| ==> given'[i] == given[i];
  }

  /** Look up every handle given out so far, and one wire ID. */
  method Survey<T>(arena: Streams<T>, given: seq<Handle>, wire: u32, ghost world: World<T>)
      returns (seen: World<T>, user: Option<Handle>)
    requires arena.Valid() && arena.Indexed() && Stands(arena.issued, arena.Live(), given, world)
    ensures seen == world && Finds(user, given, world, wire)
  {
    hide LiveIn, Inverse;
    seen := [];
    for n := 0 to |given|
      invariant seen == world[..n]
    {
      var entry := arena.Get(given[n]);
      seen := seen + [entry];
    }
    user := arena.Find(wire);
    forall h
      ensures user == Some(h) <==> exists i :: 0 <= i < |world| && given[i] == h && Bound(world[i], wire)
    {
      if user == Some(h) {
        var i :| 0 <= i < |given| && given[i] == h;
        assert Bound(world[i], wire);
      }
    }
  }

  /** After each of the first operations, everything was looked up and found as it should be. */
  ghost predicate Surveyed<T>(ops: seq<Operation<T>>, wire: u32, given: seq<Handle>, seen: seq<World<T>>,
          users: seq<Option<Handle>>) {
    && 0 < |seen| == |users| <= |ops| + 1
    && (forall n :: 0 <= n < |seen| ==> seen[n] == Evolved(ops[..n]) && |seen[n]| <= |given|)
    && (forall n :: 0 <= n < |seen| ==> Finds(users[n], given, seen[n], wire))
  }

  lemma SurveyedOn<T>(ops: seq<Operation<T>>, wire: u32, given: seq<Handle>, seen: seq<World<T>>,
          users: seq<Option<Handle>>,
                      given': seq<Handle>, world: World<T>, user: Option<Handle>)
    requires Surveyed(ops, wire, given, seen, users) && |seen| <= |ops| && given <= given'
    requires world == Evolved(ops[..|seen|]) && |world| <= |given'| && Finds(user, given', world, wire)
    ensures Surveyed(ops, wire, given', seen + [world], users + [user])
  {
    hide Finds;
    forall n | 0 <= n < |seen|
      ensures Finds(users[n], given', seen[n], wire)
    {
      FindsLater(users[n], given, given', seen[n], wire);
    }
  }

  /** Over any run, and after every operation of it: no handle is given out twice, each resolves to
      its own stream as the operations made it until that is removed and never after, and the index
      finds for any wire ID the one live stream that has it. */
  method Replay<T>(ops: seq<Operation<T>>, wire: u32)
      returns (given: seq<Handle>, seen: seq<World<T>>, users: seq<Option<Handle>>)
    requires |ops| <= 0xffff_ffff
    ensures |given| == |Evolved(ops)| && forall i, j :: 0 <= i < j < |given| ==> given[i] != given[j]
    ensures |seen| == |ops| + 1 && Surveyed(ops, wire, given, seen, users)
  {
    hide LiveIn, Inverse, Evolve, Bound, Finds, Surveyed, Streams.Live, Streams.Valid;
    var arena := new Streams<T>(0);
    StandsNone<T>();
    assert ops[..0] == [];
    var world, user := Survey(arena, [], wire, []);
    given, seen, users := [], [world], [user];
    SurveyedFirst(ops, wire, user);
    for n := 0 to |ops|
      invariant arena.Valid() && arena.Indexed() && |arena.slots| <= n
      invariant Stands(arena.issued, arena.Live(), given, Evolved(ops[..n]))
      invariant |seen| == n + 1 && Surveyed(ops, wire, given, seen, users)
    {
      assert ops[..n + 1][..n] == ops[..n];
      ghost var before := given;
      given := Perform(arena, ops[n], given, Evolved(ops[..n]));
      world, user := Survey(arena, given, wire, Evolved(ops[..n + 1]));
      SurveyedOn(ops, wire, before, seen, users, given, world, user);
      seen, users := seen + [world], users + [user];
    }
    assert ops[..|ops|] == ops;
  }

  lemma StandsNone<T>()
    ensures Stands<T>({}, map[], [], [])
  {
  }

  lemma SurveyedFirst<T>(ops: seq<Operation<T>>, wire: u32, user: Option<Handle>)
    requires Finds<T>(user, [], [], wire)
    ensures Surveyed(ops, wire, [], [[]], [user])
  {
  }
}
