/** Properties of the byte-at-a-time chunk machine: composition of runs, header and payload
    stretches in closed form, and the invariant every reachable parser state satisfies. */
module ChunkMachineProofs {
  import opened Base
  import opened ChunkMachine

  // ----- runs compose ----------------------------------------------------

  lemma {:induction false} AfterAfter(e1: seq<Event>, n1: nat, e2: seq<Event>, n2: nat, o: Outcome)
    ensures After(e1, n1, After(e2, n2, o)) == After(e1 + e2, n1 + n2, o)
  {
    match o
    case Running(st, later) => assert e1 + (e2 + later) == e1 + e2 + later;
    case Stopped(e, at, later) => assert e1 + (e2 + later) == e1 + e2 + later;
  }

  /** Feeding `a` then `b` is feeding `a + b`: where the input is cut does not matter. */
  lemma {:induction false} RunConcat(st: State, a: seq<byte>, b: seq<byte>)
    ensures Run(st, a + b) ==
            match Run(st, a)
            case Running(mid, events) => After(events, |a|, Run(mid, b))
            case Stopped(_, _, _) => Run(st, a)
    decreases |a|
  {
    if a == [] {
      assert a + b == b;
      AfterNothing(Run(st, b));
    } else {
      assert (a + b)[1..] == a[1..] + b;
      match Step(st, a[0])
      case Err(_) =>
      case Ok((next, events)) =>
        RunConcat(next, a[1..], b);
        match Run(next, a[1..])
        case Running(mid, later) => AfterAfter(events, 1, later, |a| - 1, Run(mid, b));
        case Stopped(_, _, _) =>
    }
  }

  lemma AfterNothing(o: Outcome)
    ensures After([], 0, o) == o
  {
    match o
    case Running(st, later) => assert [] + later == later;
    case Stopped(e, at, later) => assert [] + later == later;
  }

  lemma RunOne(st: State, b: byte)
    ensures Run(st, [b]) ==
            match Step(st, b)
            case Err(e) => Stopped(e, 0, [])
            case Ok((next, events)) => Running(next, events)
  {
    var s := [b];
    assert s[1..] == [];
    match Step(st, b)
    case Err(_) =>
    case Ok((next, events)) => assert events + [] == events;
  }

  /** A stopped run stops inside its input, and more input changes nothing. */
  lemma {:induction false} StoppedInside(st: State, bytes: seq<byte>)
    requires Run(st, bytes).Stopped?
    ensures Run(st, bytes).at < |bytes|
    decreases |bytes|
  {
    match Step(st, bytes[0])
    case Err(_) =>
    case Ok((next, _)) => StoppedInside(next, bytes[1..]);
  }

  // ----- header stretches ------------------------------------------------

  /** While a header stage is incomplete, further bytes do not change how many it needs. */
  lemma NeededStable(streams: map<nat, Stream>, s: seq<byte>, t: seq<byte>)
    requires HeaderNeeded(streams, s).Ok?
    requires |s + t| < HeaderNeeded(streams, s).value
    ensures HeaderNeeded(streams, s + t) == HeaderNeeded(streams, s)
  {
    if s == [] {
      assert s + t == [];
    } else {
      var u := s + t;
      assert u[0] == s[0];
      var basic := BasicLen(s);
      if |s| >= basic {
        assert Csid(u) == Csid(s);
        if |s| >= basic + BodyLen(Fmt(s)) && Fmt(s) != 3 {
          assert u[basic..][..3] == s[basic..][..3];
          assert FromBe24(u[basic..]) == FromBe24(s[basic..]);
        }
      }
    }
  }

  ghost predicate HeaderFits(streams: map<nat, Stream>, s: seq<byte>) {
    HeaderNeeded(streams, s).Ok? ==> |s| <= HeaderNeeded(streams, s).value
  }

  /** Reaching the needed count leads to a decision or to a stage that needs more. */
  lemma NeededGrows(streams: map<nat, Stream>, s: seq<byte>, t: seq<byte>)
    requires HeaderNeeded(streams, s).Ok?
    requires |s| < HeaderNeeded(streams, s).value && |s + t| <= HeaderNeeded(streams, s).value
    ensures HeaderFits(streams, s + t)
  {
    if |s + t| < HeaderNeeded(streams, s).value {
      NeededStable(streams, s, t);
    } else {
      var u := s + t;
      assert s != [] ==> u[0] == s[0];
      if s != [] && |s| >= BasicLen(s) {
        assert Csid(u) == Csid(s);
        if |s| >= BasicLen(s) + BodyLen(Fmt(s)) && Fmt(s) != 3 {
          assert u[BasicLen(s)..][..3] == s[BasicLen(s)..][..3];
          assert FromBe24(u[BasicLen(s)..]) == FromBe24(s[BasicLen(s)..]);
        }
      }
    }
  }

  /** Outcome of a run that ends with acting on collected header bytes. */
  function Acted(r: Result<(State, seq<Event>), Error>, n: nat): Outcome
    requires r.Err? ==> n > 0
  {
    match r
    case Err(e) => Stopped(e, n - 1, [])
    case Ok((next, events)) => Running(next, events)
  }

  /** Header bytes may be collected in one go up to the next decision. */
  lemma {:induction false} RunHeader(st: State, t: seq<byte>)
    requires st.current.None?
    requires HeaderNeeded(st.streams, st.scratch).Ok?
    requires |st.scratch| < HeaderNeeded(st.streams, st.scratch).value
    requires |st.scratch| + |t| <= HeaderNeeded(st.streams, st.scratch).value
    ensures t == [] ==> Settle(st) == Ok((st, []))
    ensures Run(st, t) == Acted(Settle(st.(scratch := st.scratch + t)), |t|)
    decreases |t|
  {
    hide HeaderNeeded, BeginChunk;
    if t == [] {
      assert st.scratch + t == st.scratch;
      assert st.(scratch := st.scratch) == st;
    } else {
      var st' := st.(scratch := st.scratch + [t[0]]);
      assert Step(st, t[0]) == Settle(st');
      assert st'.scratch + t[1..] == st.scratch + t;
      if |t| == 1 {
        assert t == [t[0]];
        RunOne(st, t[0]);
        assert st'.(scratch := st.scratch + t) == st';
      } else {
        NeededStable(st.streams, st.scratch, [t[0]]);
        assert Settle(st') == Ok((st', []));
        RunHeader(st', t[1..]);
        assert st'.(scratch := st'.scratch + t[1..]) == st.(scratch := st.scratch + t);
        var o := Run(st', t[1..]);
        match o
        case Running(_, later) => assert [] + later == later;
        case Stopped(_, _, later) => assert [] + later == later;
      }
    }
  }

  // ----- payload stretches -----------------------------------------------

  /** Payload bytes may be taken in one go up to the end of the chunk. */
  lemma {:induction false} RunPayload(st: State, data: seq<byte>)
    requires InChunk(st) && 0 < |data| <= st.chunkLeft
    ensures var stream := st.streams[st.current.value];
            Run(st, data) == Running(TakePayload(st, |data|), FragmentEvents(stream.header, stream.received, data))
    decreases |data|
  {
    var stream := st.streams[st.current.value];
    var st' := TakePayload(st, 1);
    var first := FragmentEvents(stream.header, stream.received, [data[0]]);
    assert Step(st, data[0]) == Ok((st', first));
    assert [data[0]][1..] == [];
    if |data| == 1 {
      assert data == [data[0]];
      RunOne(st, data[0]);
    } else {
      RunPayload(st', data[1..]);
      assert FragmentEvents(stream.header, stream.received + 1, []) == [];
      assert first == [Data(stream.header, stream.received, data[0])];
      var s' := st'.streams[st.current.value];
      assert TakePayload(st', |data| - 1).streams == TakePayload(st, |data|).streams;
      assert TakePayload(st', |data| - 1) == TakePayload(st, |data|);
    }
  }

  // ----- invariant -------------------------------------------------------

  ghost predicate StreamOk(limits: Limits, c: nat, s: Stream) {
    && s.header.csid == c
    && s.received <= s.header.length <= limits.maxMessageSize
    && s.header.length <= MAX24
    && (s.active ==> s.received < s.header.length)
  }

  /** Streams whose message will still be incomplete when the current chunk ends. */
  function Unfinished(st: State): set<nat> {
    set c | c in st.streams && st.streams[c].active
            && !(st.current == Some(c) && st.streams[c].header.length == st.streams[c].received + st.chunkLeft)
  }

  /** More header bytes are needed before anything can be decided. */
  ghost predicate HeaderOpen(streams: map<nat, Stream>, s: seq<byte>) {
    HeaderNeeded(streams, s).Ok? && |s| < HeaderNeeded(streams, s).value
  }

  ghost predicate StreamsOk(st: State) {
    forall c :: c in st.streams ==> StreamOk(st.limits, c, st.streams[c])
  }

  ghost predicate Bounded(st: State) {
    && st.chunkSize > 0
    && |st.streams| <= st.limits.maxTracked
    && |Unfinished(st)| <= st.limits.maxPartial
  }

  /** Either a header is being collected, or a chunk with payload left is open. */
  ghost predicate PhaseOk(st: State) {
    match st.current
    case None =>
      && st.chunkLeft == 0
      && HeaderOpen(st.streams, st.scratch)
    case Some(c) =>
      && st.scratch == []
      && c in st.streams && st.streams[c].active
      && 0 < st.chunkLeft <= st.streams[c].header.length - st.streams[c].received
  }

  /** The invariant of every reachable parser state. */
  ghost predicate Valid(st: State) {
    StreamsOk(st) && Bounded(st) && PhaseOk(st)
  }

  lemma InitialValid(limits: Limits)
    ensures Valid(Initial(limits))
  {
    assert Unfinished(Initial(limits)) == {};
  }

  /** What a chunk header that is accepted does to the state, without its byte layout. */
  ghost predicate Opens(st: State, csid: nat, stream: Stream) {
    && stream.active
    && stream.header.csid == csid
    && stream.received <= stream.header.length <= st.limits.maxMessageSize
    && stream.header.length <= MAX24
    && (csid !in st.streams ==> |st.streams| < st.limits.maxTracked)
    && (if csid in st.streams && st.streams[csid].active then
          stream.received == st.streams[csid].received && stream.header == st.streams[csid].header
        else
          && stream.received == 0
          && (stream.header.length > st.chunkSize ==> |ActiveSet(st.streams)| < st.limits.maxPartial))
  }

  lemma BeginChunkOpens(st: State)
    requires forall c :: c in st.streams ==> StreamOk(st.limits, c, st.streams[c])
    requires HeaderComplete(st) && BeginChunk(st).Ok?
    ensures var csid := Csid(st.scratch);
            var next := BeginChunk(st).value;
            && csid in next.streams
            && Opens(st, csid, next.streams[csid])
            && next == Opened(st, csid, next.streams[csid])
  {
    var csid := Csid(st.scratch);
    if csid in st.streams {
      assert StreamOk(st.limits, csid, st.streams[csid]);
    }
  }

  ghost predicate Between(st: State) {
    && st.chunkSize > 0 && st.current.None?
    && (forall c :: c in st.streams ==> StreamOk(st.limits, c, st.streams[c]))
    && |st.streams| <= st.limits.maxTracked
    && |ActiveSet(st.streams)| <= st.limits.maxPartial
  }

  lemma OpenedStreams(st: State, csid: nat, stream: Stream)
    requires Between(st) && Opens(st, csid, stream)
    ensures var next := Opened(st, csid, stream);
            && InChunk(next)
            && |next.streams| <= st.limits.maxTracked
            && ActiveSet(next.streams) == ActiveSet(st.streams) + {csid}
            && (next.chunkLeft == 0 ==> stream.header.length == 0)
  {
    var next := Opened(st, csid, stream);
    if csid in st.streams {
      assert StreamOk(st.limits, csid, st.streams[csid]);
      assert next.streams.Keys == st.streams.Keys;
    } else {
      assert next.streams.Keys == st.streams.Keys + {csid};
    }
  }

  lemma OpenedValid(st: State, csid: nat, stream: Stream)
    requires Between(st) && Opens(st, csid, stream)
    requires Opened(st, csid, stream).chunkLeft > 0
    ensures Valid(Opened(st, csid, stream))
  {
    OpenedStreams(st, csid, stream);
    var next := Opened(st, csid, stream);
    var before := ActiveSet(st.streams);
    if stream.header.length == stream.received + next.chunkLeft {
      assert Unfinished(next) == before - {csid};
      SubsetSize(before - {csid}, before);
    } else {
      assert Unfinished(next) == before + {csid};
      if csid in before {
        assert before + {csid} == before;
      }
    }
  }

  lemma EmptyMessageValid(st: State, csid: nat, stream: Stream)
    requires Between(st) && Opens(st, csid, stream)
    requires Opened(st, csid, stream).chunkLeft == 0
    ensures InChunk(Opened(st, csid, stream)) && stream.header.length == 0
    ensures Valid(TakePayload(Opened(st, csid, stream), 0))
  {
    OpenedStreams(st, csid, stream);
    hide Opens;
    var next := TakePayload(Opened(st, csid, stream), 0);
    assert next.streams.Keys == Opened(st, csid, stream).streams.Keys;
    var before := ActiveSet(st.streams);
    assert Unfinished(next) == before - {csid};
    SubsetSize(before - {csid}, before);
  }

  lemma TakePayloadValid(st: State, n: nat)
    requires Valid(st) && st.current.Some? && 0 < n <= st.chunkLeft
    ensures InChunk(st) && Valid(TakePayload(st, n))
  {
    var c := st.current.value;
    var next := TakePayload(st, n);
    assert next.streams.Keys == st.streams.Keys;
    assert Unfinished(next) == Unfinished(st);
  }

  /** Every accepted byte keeps the invariant. */
  lemma StepValid(st: State, b: byte)
    requires Valid(st) && Step(st, b).Ok?
    ensures Valid(Step(st, b).value.0)
  {
    if st.current.Some? {
      TakePayloadValid(st, 1);
    } else {
      var st' := st.(scratch := st.scratch + [b]);
      assert Unfinished(st) == ActiveSet(st.streams);
      SettleValid(st');
    }
  }

  lemma SettleValid(st: State)
    requires Between(st) && st.chunkLeft == 0 && Settle(st).Ok?
    requires HeaderNeeded(st.streams, st.scratch).Ok? ==> |st.scratch| <= HeaderNeeded(st.streams, st.scratch).value
    ensures Valid(Settle(st).value.0)
  {
    assert Unfinished(st) == ActiveSet(st.streams);
    if HeaderComplete(st) {
      BeginChunkOpens(st);
      var csid := Csid(st.scratch);
      var begun := BeginChunk(st).value;
      if begun.chunkLeft > 0 {
        OpenedValid(st, csid, begun.streams[csid]);
      } else {
        EmptyMessageValid(st, csid, begun.streams[csid]);
      }
    }
  }

  lemma {:induction false} RunValid(st: State, bytes: seq<byte>)
    requires Valid(st) && Run(st, bytes).Running?
    ensures Valid(Run(st, bytes).state)
    decreases |bytes|
  {
    if bytes != [] {
      StepValid(st, bytes[0]);
      RunValid(Step(st, bytes[0]).value.0, bytes[1..]);
    }
  }

  /** Changing the chunk size between any two bytes keeps the invariant. */
  lemma ResizedValid(st: State, size: nat)
    requires Valid(st) && size > 0
    ensures Valid(st.(chunkSize := size))
  {
    assert Unfinished(st.(chunkSize := size)) == Unfinished(st);
  }

  lemma NeededSame(a: map<nat, Stream>, b: map<nat, Stream>, s: seq<byte>)
    requires a.Keys == b.Keys
    requires forall c :: c in a ==> a[c].timeField == b[c].timeField
    ensures HeaderOpen(a, s) == HeaderOpen(b, s)
  {
  }

  lemma AbortedPhase(st: State, csid: nat)
    requires PhaseOk(st)
    ensures PhaseOk(Aborted(st, csid))
  {
    if csid in st.streams && st.current.None? {
      NeededSame(st.streams, Aborted(st, csid).streams, st.scratch);
    }
  }

  lemma AbortedBounded(st: State, csid: nat)
    requires Bounded(st)
    ensures Bounded(Aborted(st, csid))
  {
    var next := Aborted(st, csid);
    assert next.streams.Keys == st.streams.Keys;
    assert Unfinished(next) <= Unfinished(st);
    SubsetSize(Unfinished(next), Unfinished(st));
  }

  /** Aborting a stream between any two bytes keeps the invariant. */
  lemma AbortedValid(st: State, csid: nat)
    requires Valid(st)
    ensures Valid(Aborted(st, csid))
  {
    AbortedPhase(st, csid);
    AbortedBounded(st, csid);
  }

  lemma SubsetSize(a: set<nat>, b: set<nat>)
    requires a <= b
    ensures |a| <= |b|
  {
    assert b == a + (b - a);
  }
}
