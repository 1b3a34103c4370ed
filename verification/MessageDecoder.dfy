/** The owned message decoder: segmented or contiguous assembly with exact byte accounting. */
module MessageDecoderModule {
  import opened Base
  import opened ChunkMachine
  import opened ChunkMachineProofs
  import opened ChunkParserModule
  import opened MessageMachine
  import opened Sums

  /** Input handed to the decoder. Owned input is kept as segments, borrowed input is copied. */
  datatype Input = Owned(bytes: seq<byte>) | Borrowed(bytes: seq<byte>) {
    function Advance(n: nat): Input
      requires n <= |bytes|
    {
      if Owned? then Owned(bytes[n..]) else Borrowed(bytes[n..])
    }
  }

  /** A decoded message whose body is a list of nonempty segments. */
  datatype Decoded = Decoded(timestamp: u32, typeId: byte, streamId: u32, payload: seq<seq<byte>>) {
    function Whole(): RawMessage {
      RawMessage(timestamp, typeId, streamId, Flatten(payload))
    }
  }

  function NonemptySegment(data: seq<byte>): (s: seq<seq<byte>>)
    ensures Flatten(s) == data
    ensures [] !in s
  {
    if data == [] then [] else
      assert Flatten([data][1..]) == [];
      [data]
  }

  datatype Assembly = Segmented(segments: seq<seq<byte>>) | Contiguous(data: seq<byte>, capacity: nat) {
    function Bytes(): seq<byte> {
      match this
      case Segmented(s) => Flatten(s)
      case Contiguous(d, _) => d
    }
    function Len(): nat {
      |Bytes()|
    }
    function Reserved(): nat {
      match this
      case Segmented(s) => |Flatten(s)|
      case Contiguous(_, c) => c
    }
    function Finish(): (s: seq<seq<byte>>)
      ensures Flatten(s) == Bytes()
    {
      match this
      case Segmented(s) => s
      case Contiguous(d, _) => NonemptySegment(d)
    }
  }

  // ----- accounting ----------------------------------------------------------

  ghost function BodiesOf(partials: map<nat, Assembly>): Bodies {
    map c | c in partials :: partials[c].Bytes()
  }

  ghost function Lens(partials: map<nat, Assembly>): map<nat, nat> {
    map c | c in partials :: partials[c].Len()
  }

  ghost function Reserves(partials: map<nat, Assembly>): map<nat, nat> {
    map c | c in partials :: partials[c].Reserved()
  }

  /** A segmented body has nonempty segments within the descriptor limit; a contiguous body fits its allocation. */
  ghost predicate AssemblyOk(a: Assembly, limits: Limits) {
    match a
    case Segmented(s) => [] !in s && |s| <= limits.maxFragments
    case Contiguous(d, c) => |d| <= c
  }

  ghost predicate Books(partials: map<nat, Assembly>, buffered: nat, reserved: nat, limits: Limits) {
    && (forall c :: c in partials ==> AssemblyOk(partials[c], limits))
    && buffered == Sum(Lens(partials))
    && reserved == Sum(Reserves(partials))
    && reserved <= limits.maxBuffered
  }

  /** A contiguous body was allocated for the length its message announces. */
  ghost predicate Sized(st: State, partials: map<nat, Assembly>) {
    forall c :: c in partials && partials[c].Contiguous? ==>
      c in st.streams && partials[c].capacity == st.streams[c].header.length
  }

  /** The bytes held never exceed the bytes reserved, nor the configured maximum. */
  lemma BufferedWithinReserved(partials: map<nat, Assembly>, buffered: nat, reserved: nat, limits: Limits)
    requires Books(partials, buffered, reserved, limits)
    ensures buffered <= reserved <= limits.maxBuffered
  {
    forall c | c in partials
      ensures Lens(partials)[c] <= Reserves(partials)[c]
    {
      assert AssemblyOk(partials[c], limits);
    }
    SumBelow(Lens(partials), Reserves(partials));
  }

  lemma LensSet(partials: map<nat, Assembly>, c: nat, a: Assembly)
    ensures Sum(Lens(partials[c := a])) == Sum(Lens(partials - {c})) + a.Len()
  {
    SumSet(Lens(partials), c, a.Len());
    assert Lens(partials[c := a]) == Lens(partials)[c := a.Len()];
    assert Lens(partials) - {c} == Lens(partials - {c});
  }

  lemma ReservesSet(partials: map<nat, Assembly>, c: nat, a: Assembly)
    ensures Sum(Reserves(partials[c := a])) == Sum(Reserves(partials - {c})) + a.Reserved()
  {
    SumSet(Reserves(partials), c, a.Reserved());
    assert Reserves(partials[c := a]) == Reserves(partials)[c := a.Reserved()];
    assert Reserves(partials) - {c} == Reserves(partials - {c});
  }

  lemma BooksSplit(partials: map<nat, Assembly>, c: nat)
    requires c in partials
    ensures Sum(Lens(partials)) == Sum(Lens(partials - {c})) + partials[c].Len()
    ensures Sum(Reserves(partials)) == Sum(Reserves(partials - {c})) + partials[c].Reserved()
  {
    LensSet(partials, c, partials[c]);
    ReservesSet(partials, c, partials[c]);
    assert partials[c := partials[c]] == partials;
  }

  function LenAt(partials: map<nat, Assembly>, c: nat): nat {
    if c in partials then partials[c].Len() else 0
  }

  function ReservedAt(partials: map<nat, Assembly>, c: nat): nat {
    if c in partials then partials[c].Reserved() else 0
  }

  /** Replacing or adding one body changes the totals by just the difference. */
  lemma BooksReplace(partials: map<nat, Assembly>, buffered: nat, reserved: nat, limits: Limits, c: nat, a: Assembly)
    requires Books(partials, buffered, reserved, limits) && AssemblyOk(a, limits)
    requires reserved - ReservedAt(partials, c) + a.Reserved() <= limits.maxBuffered
    ensures buffered >= LenAt(partials, c) && reserved >= ReservedAt(partials, c)
    ensures Books(partials[c := a], buffered - LenAt(partials, c) + a.Len(),
            reserved - ReservedAt(partials, c) + a.Reserved(), limits)
  {
    LensSet(partials, c, a);
    ReservesSet(partials, c, a);
    if c in partials {
      BooksSplit(partials, c);
    } else {
      assert partials - {c} == partials;
    }
  }

  lemma BooksRemove(partials: map<nat, Assembly>, buffered: nat, reserved: nat, limits: Limits, c: nat)
    requires Books(partials, buffered, reserved, limits) && c in partials
    ensures buffered >= partials[c].Len() && reserved >= partials[c].Reserved()
    ensures Books(partials - {c}, buffered - partials[c].Len(), reserved - partials[c].Reserved(), limits)
  {
    BooksSplit(partials, c);
  }

  /** Limits under which no check of the decoder itself can fire. */
  ghost predicate Ample(limits: Limits) {
    && limits.maxPartial >= limits.maxTracked
    && limits.maxBuffered >= limits.maxTracked * limits.maxMessageSize
    && limits.maxFragments >= limits.maxMessageSize
  }

  lemma {:induction false} FlattenBounds(s: seq<seq<byte>>)
    requires [] !in s
    ensures |s| <= |Flatten(s)|
  {
    if s != [] {
      FlattenBounds(s[1..]);
    }
  }

  // ----- one fragment ----------------------------------------------------------

  /** What is known about the partial messages when a fragment arrives. */
  ghost predicate Arrives(before: State, after: State, partials: map<nat, Assembly>, f: Fragment) {
    && Valid(before) && Valid(after) && after.limits == before.limits
    && Mirrors(before, BodiesOf(partials)) && Sized(before, partials)
    && Delivers(before, after, f)
  }

  /** The fragment continues the stored body exactly where that body ends. */
  lemma ArrivesAtEnd(before: State, after: State, partials: map<nat, Assembly>, f: Fragment)
    requires Arrives(before, after, partials, f)
    ensures f.header.length <= before.limits.maxMessageSize
    ensures f.offset == |Body(BodiesOf(partials), f.header.csid)| && f.offset + |f.data| <= f.header.length
    ensures f.header.csid in partials && partials[f.header.csid].Contiguous? ==>
              partials[f.header.csid].capacity == f.header.length
  {
    var c := f.header.csid;
    assert StreamOk(after.limits, c, after.streams[c]);
    assert c in BodiesOf(partials) <==> c in partials;
  }

  lemma ReservedEach(before: State, partials: map<nat, Assembly>, c: nat)
    requires StreamsOk(before) && Mirrors(before, BodiesOf(partials)) && Sized(before, partials)
    requires c in partials
    ensures c in before.streams
    ensures partials[c].Reserved() <= before.limits.maxMessageSize
  {
    assert c in BodiesOf(partials);
    assert StreamOk(before.limits, c, before.streams[c]);
  }

  lemma OthersFew(before: State, after: State, partials: map<nat, Assembly>, f: Fragment)
    requires Arrives(before, after, partials, f)
    ensures |partials - {f.header.csid}| < before.limits.maxTracked
  {
    var c := f.header.csid;
    var others := partials - {c};
    forall k | k in others
      ensures k in after.streams && k != c
    {
      ReservedEach(before, partials, k);
    }
    assert others.Keys <= after.streams.Keys - {c};
    SubsetSize(others.Keys, after.streams.Keys - {c});
  }

  lemma OthersReserve(before: State, partials: map<nat, Assembly>, c: nat)
    requires StreamsOk(before) && Mirrors(before, BodiesOf(partials)) && Sized(before, partials)
    ensures Sum(Reserves(partials - {c})) <= |partials - {c}| * before.limits.maxMessageSize
  {
    forall k | k in partials - {c}
      ensures partials[k].Reserved() <= before.limits.maxMessageSize
    {
      ReservedEach(before, partials, k);
    }
    ReserveBound(partials - {c}, before.limits.maxMessageSize);
  }

  lemma ReserveBound(some: map<nat, Assembly>, size: nat)
    requires forall k :: k in some ==> some[k].Reserved() <= size
    ensures Sum(Reserves(some)) <= |some| * size
  {
    assert Reserves(some).Keys == some.Keys;
    SumBound(Reserves(some), size);
  }

  /** What is held is at most a whole message on every chunk stream that is tracked. */
  lemma BufferedBound(st: State, partials: map<nat, Assembly>, buffered: nat, reserved: nat)
    requires StreamsOk(st) && |st.streams| <= st.limits.maxTracked && Mirrors(st, BodiesOf(partials))
             && Sized(st, partials)
    requires Books(partials, buffered, reserved, st.limits)
    ensures buffered <= st.limits.maxTracked * st.limits.maxMessageSize
  {
    forall k | k in partials
      ensures k in st.streams && partials[k].Reserved() <= st.limits.maxMessageSize
    {
      ReservedEach(st, partials, k);
    }
    hide Mirrors, Sized, StreamsOk, Sum, Reserves, Lens, BodiesOf;
    ReserveBound(partials, st.limits.maxMessageSize);
    SubsetSize(partials.Keys, st.streams.Keys);
    BufferedWithinReserved(partials, buffered, reserved, st.limits);
    Scaled(|partials|, st.limits.maxTracked, st.limits.maxMessageSize);
  }

  lemma Scaled(a: nat, b: nat, n: nat)
    requires a <= b
    ensures a * n <= b * n
  {
  }

  /** The limit that guards a resource. */
  function LimitOf(limits: Limits, r: Resource): nat {
    match r
    case TrackedStreams => limits.maxTracked
    case MessagePayload => limits.maxMessageSize
    case PartialMessages => limits.maxPartial
    case BufferedBytes => limits.maxBuffered
    case ReservedBytes => limits.maxBuffered
    case PayloadFragments => limits.maxFragments
  }

  /** An honest report: the limit it names is the one configured, and more was attempted. */
  ghost predicate Exceeds(limits: Limits, e: Error) {
    e.LimitExceeded? && e.maximum == LimitOf(limits, e.resource) && e.attempted > e.maximum
  }

  /** Ample limits that leave room for `n` bytes of input besides. */
  ghost predicate Roomy(limits: Limits, n: nat) {
    Ample(limits) && limits.maxTracked * limits.maxMessageSize + n <= limits.maxBuffered
  }

  lemma NotRoomy(limits: Limits, buffered: nat, some: nat, n: nat)
    requires buffered <= limits.maxTracked * limits.maxMessageSize && some <= n
    requires buffered + some > limits.maxBuffered || !Ample(limits)
    ensures !Roomy(limits, n)
  {
    hide Ample;
  }

  lemma RoomForOne(sum: nat, n: nat, tracked: nat, size: nat, maximum: nat)
    requires sum <= n * size && n < tracked && tracked * size <= maximum
    ensures sum + size <= maximum
  {
    assert (n + 1) * size == n * size + size;
    assert (n + 1) * size <= tracked * size;
  }

  /** With ample limits there is room for one more whole message beside the other partial ones. */
  lemma Headroom(before: State, after: State, partials: map<nat, Assembly>, f: Fragment)
    requires Arrives(before, after, partials, f) && Ample(before.limits)
    ensures Sum(Reserves(partials - {f.header.csid})) + before.limits.maxMessageSize <= before.limits.maxBuffered
    ensures |partials - {f.header.csid}| < before.limits.maxPartial
  {
    var c, limits := f.header.csid, before.limits;
    OthersFew(before, after, partials, f);
    OthersReserve(before, partials, c);
    RoomForOne(Sum(Reserves(partials - {c})), |partials - {c}|, limits.maxTracked, limits.maxMessageSize,
        limits.maxBuffered);
  }

  /** With ample limits every check made while accepting a fragment passes. */
  lemma NoLimitFires(before: State, after: State, partials: map<nat, Assembly>, f: Fragment, buffered: nat,
          reserved: nat)
    requires Arrives(before, after, partials, f) && Ample(before.limits)
    requires Books(partials, buffered, reserved, before.limits)
    ensures var c, limits := f.header.csid, before.limits;
            && buffered + |f.data| <= limits.maxBuffered
            && (f.data != [] ==> limits.maxFragments > 0)
            && (c !in partials ==> reserved + f.header.length <= limits.maxBuffered && |partials| < limits.maxPartial)
            && (c in partials && partials[c].Segmented? ==>
                  reserved + |f.data| <= limits.maxBuffered
                      && (f.data != [] ==> |partials[c].segments| < limits.maxFragments))
  {
    hide Arrives, Sum, Lens, Reserves;
    var c, limits := f.header.csid, before.limits;
    ArrivesAtEnd(before, after, partials, f);
    Headroom(before, after, partials, f);
    if c in partials {
      BooksRemove(partials, buffered, reserved, limits, c);
      BufferedWithinReserved(partials - {c}, buffered - partials[c].Len(), reserved - partials[c].Reserved(), limits);
      if partials[c].Segmented? {
        assert AssemblyOk(partials[c], limits);
        FlattenBounds(partials[c].segments);
      }
    } else {
      assert partials - {c} == partials;
      BufferedWithinReserved(partials, buffered, reserved, limits);
    }
  }

  /** Some check made while accepting the fragment fails. */
  ghost predicate Tight(limits: Limits, partials: map<nat, Assembly>, f: Fragment, buffered: nat, reserved: nat) {
    var c := f.header.csid;
    || buffered + |f.data| > limits.maxBuffered
    || (f.data != [] && limits.maxFragments == 0)
    || (c !in partials && (reserved + f.header.length > limits.maxBuffered || |partials| >= limits.maxPartial))
    || (c in partials && partials[c].Segmented? &&
        (reserved + |f.data| > limits.maxBuffered || (f.data != [] && |partials[c].segments| >= limits.maxFragments)))
  }

  lemma TightNotAmple(before: State, after: State, partials: map<nat, Assembly>, f: Fragment, buffered: nat,
          reserved: nat)
    requires Arrives(before, after, partials, f) && Books(partials, buffered, reserved, before.limits)
    requires Tight(before.limits, partials, f, buffered, reserved)
    ensures !Ample(before.limits)
  {
    if Ample(before.limits) {
      NoLimitFires(before, after, partials, f, buffered, reserved);
    }
  }

  function MessagesOf(m: Option<Decoded>): seq<RawMessage> {
    if m.Some? then [m.value.Whole()] else []
  }

  function Deliver(h: MessageHeader, payload: seq<seq<byte>>): Decoded {
    Decoded(h.timestamp, h.typeId, h.streamId, payload)
  }

  /** `next` and `m` are what absorbing the fragment's events makes of `partials`. */
  ghost predicate Absorbed(after: State, partials: map<nat, Assembly>, f: Fragment, next: map<nat, Assembly>,
          m: Option<Decoded>) {
    && Sized(after, next)
    && Absorb(BodiesOf(partials), f.Events()) == (BodiesOf(next), MessagesOf(m))
  }

  lemma SizedOthers(before: State, after: State, partials: map<nat, Assembly>, f: Fragment)
    requires Arrives(before, after, partials, f)
    ensures Sized(after, partials - {f.header.csid})
  {
  }

  lemma StoredAbsorbs(before: State, after: State, partials: map<nat, Assembly>, f: Fragment, body: Assembly)
    requires Arrives(before, after, partials, f)
    requires f.header.csid in partials || !f.IsEnd()
    requires body.Bytes() == Body(BodiesOf(partials), f.header.csid) + f.data
    requires body.Contiguous? ==> body.capacity == f.header.length
    ensures !f.IsEnd() ==> Absorbed(after, partials, f, partials[f.header.csid := body], None)
    ensures f.IsEnd() ==>
            Absorbed(after, partials, f, partials - {f.header.csid}, Some(Deliver(f.header, body.Finish())))
  {
    hide Valid, Mirrors;
    var c := f.header.csid;
    AbsorbFragment(BodiesOf(partials), f.header, f.offset, f.data);
    SizedOthers(before, after, partials, f);
    if f.IsEnd() {
      assert BodiesOf(partials - {c}) == BodiesOf(partials) - {c};
    } else {
      assert BodiesOf(partials[c := body]) == BodiesOf(partials)[c := body.Bytes()];
      var next := partials[c := body];
      forall k | k in next && next[k].Contiguous?
        ensures k in after.streams && next[k].capacity == after.streams[k].header.length
      {
        if k != c {
          assert k in partials - {c};
        }
      }
    }
  }

  lemma WholeAbsorbs(before: State, after: State, partials: map<nat, Assembly>, f: Fragment)
    requires Arrives(before, after, partials, f) && f.IsEnd() && f.header.csid !in partials
    ensures Absorbed(after, partials, f, partials, Some(Deliver(f.header, NonemptySegment(f.data))))
  {
    hide Valid, Mirrors;
    var c := f.header.csid;
    AbsorbFragment(BodiesOf(partials), f.header, f.offset, f.data);
    SizedOthers(before, after, partials, f);
    assert partials - {c} == partials;
    assert BodiesOf(partials) - {c} == BodiesOf(partials);
    assert Body(BodiesOf(partials), c) + f.data == f.data;
  }

  // ----- progress of a decode call ----------------------------------------------

  /** Feeding `taken` completes no message. */
  ghost predicate Quiet(start: State, bodies: Bodies, taken: seq<byte>) {
    var o := Run(start, taken);
    o.Running? && Absorb(bodies, o.events).1 == []
  }

  /** Feeding `taken` leads from `start` and `bodies` to `end` and `next`, completing `messages`:
      at most one, and that one with the last byte. */
  ghost predicate Decodes(start: State, bodies: Bodies, taken: seq<byte>, end: State, next: Bodies,
          messages: seq<RawMessage>) {
    var o := Run(start, taken);
    && o.Running? && o.state == end && Absorb(bodies, o.events) == (next, messages)
    && (messages != [] ==> |messages| == 1 && taken != [] && Quiet(start, bodies, AllButLast(taken)))
  }

  /** Feeding `input` ends in `error` before any message is complete. */
  ghost predicate Fails(start: State, bodies: Bodies, input: seq<byte>, error: Error) {
    var o := Run(start, input);
    o.Stopped? && o.error == error && Absorb(bodies, o.events).1 == []
  }

  lemma DecodesNothing(st: State, bodies: Bodies)
    ensures Decodes(st, bodies, [], st, bodies, [])
  {
  }

  lemma QuietConcat(start: State, bodies: Bodies, t1: seq<byte>, mid: State, held: Bodies, t2: seq<byte>)
    requires Decodes(start, bodies, t1, mid, held, []) && Quiet(mid, held, t2)
    ensures Quiet(start, bodies, t1 + t2)
  {
    RunConcat(start, t1, t2);
    AbsorbConcat(bodies, Run(start, t1).events, Run(mid, t2).events);
  }

  lemma DecodesConcat(start: State, bodies: Bodies, t1: seq<byte>, mid: State, held: Bodies,
                      t2: seq<byte>, end: State, next: Bodies, messages: seq<RawMessage>)
    requires Decodes(start, bodies, t1, mid, held, []) && Decodes(mid, held, t2, end, next, messages)
    ensures Decodes(start, bodies, t1 + t2, end, next, messages)
  {
    RunConcat(start, t1, t2);
    AbsorbConcat(bodies, Run(start, t1).events, Run(mid, t2).events);
    assert [] + messages == messages;
    if messages != [] {
      assert AllButLast(t1 + t2) == t1 + AllButLast(t2);
      QuietConcat(start, bodies, t1, mid, held, AllButLast(t2));
    }
  }

  lemma FailsConcat(start: State, bodies: Bodies, t1: seq<byte>, mid: State, held: Bodies, t2: seq<byte>, error: Error)
    requires Decodes(start, bodies, t1, mid, held, []) && StopsWith(mid, t2, error)
    ensures Fails(start, bodies, t1 + t2, error)
  {
    RunConcat(start, t1, t2);
    assert Run(start, t1).events + [] == Run(start, t1).events;
  }

  lemma NoFragmentKeeps(before: State, taken: seq<byte>, after: State, partials: map<nat, Assembly>)
    requires Valid(before) && Agrees(before, taken, None, after)
    requires Mirrors(before, BodiesOf(partials)) && Sized(before, partials)
    ensures Mirrors(after, BodiesOf(partials)) && Sized(after, partials)
    ensures Decodes(before, BodiesOf(partials), taken, after, BodiesOf(partials), [])
  {
    RunMirrors(before, BodiesOf(partials), taken);
    forall c | c in partials && partials[c].Contiguous?
      ensures c in after.streams && partials[c].capacity == after.streams[c].header.length
    {
      assert c in BodiesOf(partials);
    }
  }

  lemma FragmentKeeps(before: State, taken: seq<byte>, f: Fragment, after: State,
                      partials: map<nat, Assembly>, next: map<nat, Assembly>, m: Option<Decoded>)
    requires Valid(before) && Agrees(before, taken, Some(f), after)
    requires Mirrors(before, BodiesOf(partials))
    requires Absorbed(after, partials, f, next, m)
    ensures Mirrors(after, BodiesOf(next)) && Sized(after, next)
    ensures Decodes(before, BodiesOf(partials), taken, after, BodiesOf(next), MessagesOf(m))
  {
    RunMirrors(before, BodiesOf(partials), taken);
    AbsorbNoEnd(BodiesOf(partials), Run(before, AllButLast(taken)).events);
  }

  lemma {:induction false} AbsorbNoEnd(bodies: Bodies, events: seq<Event>)
    requires NoEnd(events)
    ensures Absorb(bodies, events).1 == []
    decreases |events|
  {
    if events != [] {
      assert events[0].Data?;
      AbsorbNoEnd(bodies[events[0].header.csid := Body(bodies, events[0].header.csid) + [events[0].b]], events[1..]);
    }
  }

  lemma AbortKeeps(st: State, partials: map<nat, Assembly>, csid: nat)
    requires Mirrors(st, BodiesOf(partials)) && Sized(st, partials)
    ensures Mirrors(Aborted(st, csid), BodiesOf(partials - {csid})) && Sized(Aborted(st, csid), partials - {csid})
    ensures BodiesOf(partials - {csid}) == BodiesOf(partials) - {csid}
  {
    forall c | c in partials
      ensures c in BodiesOf(partials)
    {
    }
  }

  lemma SamePartials(a: map<nat, Assembly>, b: map<nat, Assembly>, c: nat)
    requires a - {c} == b - {c} && c in b
    ensures a[c := b[c]] == b
  {
    forall k | k in b && k != c
      ensures k in a && a[k] == b[k]
    {
      assert k in b - {c};
    }
    forall k | k in a && k != c
      ensures k in b
    {
      assert k in a - {c};
    }
  }

  class MessageDecoder {
    const parser: ChunkParser
    var partials: map<nat, Assembly>
    var buffered: nat
    var reserved: nat
    const limits: Limits

    ghost predicate Ok()
      reads this, parser, parser.scratch
    {
      && parser.Ok() && parser.limits == limits
      && Mirrors(parser.View(), BodiesOf(partials))
      && Sized(parser.View(), partials)
      && Books(partials, buffered, reserved, limits)
    }

    constructor (limits: Limits)
      ensures Ok() && this.limits == limits
      ensures parser.View() == Initial(limits) && partials == map[]
      ensures fresh(parser) && fresh(parser.scratch)
    {
      parser := new ChunkParser(limits);
      partials := map[];
      buffered := 0;
      reserved := 0;
      this.limits := limits;
    }

    /** Reserve a body for a message whose first bytes arrive. */
    method OpenBody(f: Fragment, owned: bool) returns (error: Option<Error>)
      requires Books(partials, buffered, reserved, limits) && f.header.csid !in partials
      modifies this`partials, this`reserved
      ensures error.None? ==>
                && Books(partials, buffered, reserved, limits)
                && partials == old(partials)[f.header.csid := if owned then Segmented([])
                     else Contiguous([], f.header.length)]
                && (owned ==> reserved == old(reserved))
      ensures error.Some? ==> Exceeds(limits, error.value)
      ensures error.Some? ==>
                || |old(partials)| >= limits.maxPartial
                || old(reserved) + f.header.length > limits.maxBuffered
    {
      var csid := f.header.csid;
      if |partials| >= limits.maxPartial {
        return Some(LimitExceeded(PartialMessages, |partials| + 1, limits.maxPartial));
      }
      var body;
      if owned {
        body := Segmented([]);
      } else {
        if reserved + f.header.length > limits.maxBuffered {
          return Some(LimitExceeded(ReservedBytes, reserved + f.header.length, limits.maxBuffered));
        }
        body := Contiguous([], f.header.length);
      }
      BooksReplace(partials, buffered, reserved, limits, csid, body);
      reserved := reserved + body.Reserved();
      partials := partials[csid := body];
      return None;
    }

    /** Append a fragment to its body. */
    method ExtendBody(f: Fragment) returns (error: Option<Error>)
      requires Books(partials, buffered, reserved, limits) && f.header.csid in partials
      requires partials[f.header.csid].Contiguous? ==>
               partials[f.header.csid].Len() + |f.data| <= partials[f.header.csid].capacity
      modifies this`partials, this`reserved, this`buffered
      ensures error.None? ==>
                && Books(partials, buffered, reserved, limits)
                && f.header.csid in partials && partials - {f.header.csid} == old(partials) - {f.header.csid}
                && partials[f.header.csid].Bytes() == old(partials)[f.header.csid].Bytes() + f.data
                && (partials[f.header.csid].Contiguous? ==>
                      old(partials)[f.header.csid].Contiguous?
                          && partials[f.header.csid].capacity == old(partials)[f.header.csid].capacity)
      ensures error.Some? ==> Exceeds(limits, error.value)
      ensures error.Some? ==>
                && old(partials)[f.header.csid].Segmented? && f.data != []
                && (|old(partials)[f.header.csid].segments| >= limits.maxFragments
                     || old(reserved) + |f.data| > limits.maxBuffered)
    {
      var csid, n := f.header.csid, |f.data|;
      assert AssemblyOk(partials[csid], limits);
      var body;
      match partials[csid] {
        case Segmented(s) =>
          if n != 0 && |s| >= limits.maxFragments {
            return Some(LimitExceeded(PayloadFragments, |s| + 1, limits.maxFragments));
          }
          if reserved + n > limits.maxBuffered {
            return Some(LimitExceeded(ReservedBytes, reserved + n, limits.maxBuffered));
          }
          FlattenConcat(s, NonemptySegment(f.data));
          body := Segmented(s + NonemptySegment(f.data));
          BooksReplace(partials, buffered, reserved, limits, csid, body);
          reserved := reserved + n;
        case Contiguous(d, capacity) =>
          body := Contiguous(d + f.data, capacity);
          BooksReplace(partials, buffered, reserved, limits, csid, body);
      }
      partials := partials[csid := body];
      buffered := buffered + n;
      return None;
    }

    /** Remove a completed body from the books. */
    method CloseBody(csid: nat) returns (body: Assembly)
      requires Books(partials, buffered, reserved, limits) && csid in partials
      modifies this`partials, this`reserved, this`buffered
      ensures Books(partials, buffered, reserved, limits)
      ensures body == old(partials)[csid] && partials == old(partials) - {csid}
    {
      BooksRemove(partials, buffered, reserved, limits, csid);
      body := partials[csid];
      partials := partials - {csid};
      buffered := buffered - body.Len();
      reserved := reserved - body.Reserved();
    }

    /** Append a fragment to its body, creating the body for the first bytes. */
    method Place(f: Fragment, owned: bool) returns (error: Option<Error>)
      requires Books(partials, buffered, reserved, limits)
      requires |f.data| <= f.header.length
      requires f.header.csid in partials && partials[f.header.csid].Contiguous? ==>
                 && partials[f.header.csid].capacity == f.header.length
                 && partials[f.header.csid].Len() + |f.data| <= f.header.length
      modifies this`partials, this`buffered, this`reserved
      ensures error.None? ==>
                && Books(partials, buffered, reserved, limits)
                && f.header.csid in partials && partials - {f.header.csid} == old(partials) - {f.header.csid}
                && partials[f.header.csid].Bytes() == Body(BodiesOf(old(partials)), f.header.csid) + f.data
                && (partials[f.header.csid].Contiguous? ==> partials[f.header.csid].capacity == f.header.length)
      ensures error.Some? ==>
                Exceeds(limits, error.value) && Tight(limits, old(partials), f, old(buffered), old(reserved))
    {
      hide Books, Exceeds;
      if f.header.csid !in partials {
        error := OpenBody(f, owned);
        if error.Some? {
          return;
        }
        assert partials - {f.header.csid} == old(partials) - {f.header.csid};
        assert partials[f.header.csid].Bytes() == [];
      }
      error := ExtendBody(f);
    }

    /** Store a fragment, and hand out its body when it is complete. */
    method Store(f: Fragment, owned: bool, ghost before: State, ghost after: State)
        returns (r: Result<Option<Decoded>, Error>)
      requires limits == before.limits && Books(partials, buffered, reserved, limits)
      requires Arrives(before, after, partials, f)
      requires f.header.csid in partials || !f.IsEnd()
      modifies this`partials, this`buffered, this`reserved
      ensures r.Ok? ==> Books(partials, buffered, reserved, limits)
      ensures r.Ok? ==> Absorbed(after, old(partials), f, partials, r.value)
      ensures r.Err? ==> Exceeds(limits, r.error) && !Ample(limits)
    {
      var csid := f.header.csid;
      ghost var original, held, kept := partials, buffered, reserved;
      ArrivesAtEnd(before, after, partials, f);
      var error := Place(f, owned);
      if error.Some? {
        TightNotAmple(before, after, original, f, held, kept);
        return Err(error.value);
      }
      StoredAbsorbs(before, after, original, f, partials[csid]);
      if !f.IsEnd() {
        SamePartials(original, partials, csid);
        return Result.Ok(None);
      }
      var body := CloseBody(csid);
      return Result.Ok(Some(Deliver(f.header, body.Finish())));
    }

    /** Take in one fragment, checking the limits in the order the decoder does. */
    method Accept(f: Fragment, owned: bool, ghost before: State, ghost after: State)
        returns (r: Result<Option<Decoded>, Error>)
      requires limits == before.limits && Books(partials, buffered, reserved, limits)
      requires Arrives(before, after, partials, f)
      modifies this`partials, this`buffered, this`reserved
      ensures r.Ok? ==> Books(partials, buffered, reserved, limits)
      ensures r.Ok? ==> Absorbed(after, old(partials), f, partials, r.value)
      ensures r.Err? ==> Exceeds(limits, r.error) && !Ample(limits)
    {
      hide Books, Arrives, Absorbed, Ample;
      var csid, n, complete := f.header.csid, |f.data|, f.IsEnd();
      if buffered + n > limits.maxBuffered {
        TightNotAmple(before, after, partials, f, buffered, reserved);
        return Err(LimitExceeded(BufferedBytes, buffered + n, limits.maxBuffered));
      }
      if owned && n != 0 && limits.maxFragments == 0 && csid !in partials {
        TightNotAmple(before, after, partials, f, buffered, reserved);
        return Err(LimitExceeded(PayloadFragments, 1, 0));
      }
      if complete && csid !in partials {
        if reserved + n > limits.maxBuffered {
          TightNotAmple(before, after, partials, f, buffered, reserved);
          return Err(LimitExceeded(ReservedBytes, reserved + n, limits.maxBuffered));
        }
        WholeAbsorbs(before, after, partials, f);
        return Result.Ok(Some(Deliver(f.header, NonemptySegment(f.data))));
      }
      r := Store(f, owned, before, after);
    }

    method SetChunkSize(size: nat) returns (error: Option<Error>)
      requires Ok()
      modifies parser`chunkSize
      ensures Ok() && partials == old(partials)
      ensures error.None? <==> 0 < size <= 0x7fff_ffff && size <= limits.maxChunkSize
      ensures error.Some? ==> error.value == InvalidMaxChunkSize(size)
      ensures error.None? ==> parser.View() == old(parser.View()).(chunkSize := size)
    {
      error := parser.SetChunkSize(size);
    }

    method AbortChunkStream(csid: nat)
      requires Ok()
      modifies this, parser
      ensures Ok() && parser.View() == Aborted(old(parser.View()), csid)
      ensures BodiesOf(partials) == BodiesOf(old(partials)) - {csid}
    {
      hide Books, Mirrors, Sized, Valid, Aborted;
      AbortKeeps(parser.View(), partials, csid);
      parser.AbortChunkStream(csid);
      if csid in partials {
        var _ := CloseBody(csid);
      } else {
        assert partials - {csid} == partials;
      }
    }

    /** One turn of the decode loop: parse, then store the fragment obtained, if any.
        `hungry` says that the parser took everything and needs more input. */
    method DecodeRound(input: seq<byte>, owned: bool)
        returns (r: Result<Option<Decoded>, Error>, consumed: nat, hungry: bool)
      requires Ok()
      modifies this, parser, parser.scratch
      ensures consumed <= |input|
      ensures r.Ok? ==>
                && Ok()
                && Decodes(old(parser.View()), old(BodiesOf(partials)), input[..consumed],
                           parser.View(), BodiesOf(partials), MessagesOf(r.value))
                && (if hungry then r.value.None? && consumed == |input| else consumed > 0)
      ensures r.Err? ==>
                || StopsWith(old(parser.View()), input, r.error)
                || (Exceeds(limits, r.error) && !Ample(limits))
    {
      hide Decodes, Books, Mirrors, Sized, Valid, Delivers, StopsWith, Run, Absorbed, Ample;
      ghost var before, held := parser.View(), partials;
      var step := parser.Consume(input);
      if step.Err? {
        return Err(step.error), 0, false;
      }
      consumed := step.value.consumed;
      if step.value.fragment.None? {
        NoFragmentKeeps(before, input[..consumed], parser.View(), partials);
        return Result.Ok(None), consumed, true;
      }
      hungry := false;
      var f := step.value.fragment.value;
      r := Accept(f, owned, before, parser.View());
      if r.Ok? {
        FragmentKeeps(before, input[..consumed], f, parser.View(), held, partials, r.value);
      }
    }

    /** Decode until a message completes, the input runs out, or an error occurs. The bytes
        consumed have exactly the effect they have on the byte-at-a-time machine, whether the
        input is owned or borrowed. With ample limits only the machine's own errors occur. */
    method DecodeInput(input: Input) returns (r: Result<Option<Decoded>, Error>, rest: Input)
      requires Ok()
      modifies this, parser, parser.scratch
      ensures |rest.bytes| <= |input.bytes|
      ensures rest == input.Advance(|input.bytes| - |rest.bytes|)
      ensures r.Ok? ==>
                && Ok()
                && Decodes(old(parser.View()), old(BodiesOf(partials)), input.bytes[..|input.bytes| - |rest.bytes|],
                           parser.View(), BodiesOf(partials), MessagesOf(r.value))
                && (r.value.None? ==> rest.bytes == [])
                && (r.value.Some? ==> |rest.bytes| < |input.bytes|)
      ensures r.Err? ==>
                || Fails(old(parser.View()), old(BodiesOf(partials)), input.bytes, r.error)
                || (Exceeds(limits, r.error) && !Ample(limits))
    {
      hide Decodes, Fails, Books, Mirrors, Sized, Valid, StopsWith, Run, Absorb, Ample;
      ghost var start, bodies := parser.View(), BodiesOf(partials);
      var taken: nat := 0;
      rest := input;
      assert input.bytes[..0] == [];
      DecodesNothing(start, bodies);
      while true
        invariant taken + |rest.bytes| == |input.bytes| && rest == input.Advance(taken)
        invariant Ok()
        invariant Decodes(start, bodies, input.bytes[..taken], parser.View(), BodiesOf(partials), [])
        decreases |rest.bytes|
      {
        ghost var before, held, done := parser.View(), BodiesOf(partials), input.bytes[..taken];
        assert done + rest.bytes == input.bytes;
        var consumed, hungry;
        r, consumed, hungry := DecodeRound(rest.bytes, input.Owned?);
        if r.Err? {
          if StopsWith(before, rest.bytes, r.error) {
            FailsConcat(start, bodies, done, before, held, rest.bytes, r.error);
          }
          return;
        }
        DecodesConcat(start, bodies, done, before, held, rest.bytes[..consumed], parser.View(), BodiesOf(partials),
            MessagesOf(r.value));
        taken := taken + consumed;
        assert input.bytes[..taken] == done + rest.bytes[..consumed];
        rest := rest.Advance(consumed);
        if hungry || r.value.Some? {
          return;
        }
      }
    }
  }
}
