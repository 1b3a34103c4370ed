/** Message assembly over the byte-at-a-time chunk machine, and the receiving side of a
    connection, which applies SetChunkSize and Abort between messages. */
module MessageMachine {
  import opened Base
  import opened ChunkMachine
  import opened ChunkMachineProofs

  datatype RawMessage = RawMessage(timestamp: u32, typeId: byte, streamId: u32, data: seq<byte>)

  type Bodies = map<nat, seq<byte>>

  function Body(bodies: Bodies, csid: nat): seq<byte> {
    if csid in bodies then bodies[csid] else []
  }

  function Message(header: MessageHeader, data: seq<byte>): RawMessage {
    RawMessage(header.timestamp, header.typeId, header.streamId, data)
  }

  /** Collect payload bytes per chunk stream and cut off a message at each `End`. */
  function Absorb(bodies: Bodies, events: seq<Event>): (Bodies, seq<RawMessage>)
    decreases |events|
  {
    if events == [] then (bodies, [])
    else
      match events[0]
      case Data(h, _, b) =>
        Absorb(bodies[h.csid := Body(bodies, h.csid) + [b]], events[1..])
      case End(h) =>
        var rest := Absorb(bodies - {h.csid}, events[1..]);
        (rest.0, [Message(h, Body(bodies, h.csid))] + rest.1)
  }

  lemma {:induction false} AbsorbConcat(bodies: Bodies, a: seq<Event>, b: seq<Event>)
    ensures var first := Absorb(bodies, a);
            var second := Absorb(first.0, b);
            Absorb(bodies, a + b) == (second.0, first.1 + second.1)
    decreases |a|
  {
    if a == [] {
      assert a + b == b;
      assert [] + Absorb(bodies, b).1 == Absorb(bodies, b).1;
    } else {
      assert (a + b)[1..] == a[1..] + b;
      match a[0]
      case Data(h, _, x) =>
        AbsorbConcat(bodies[h.csid := Body(bodies, h.csid) + [x]], a[1..], b);
      case End(h) =>
        AbsorbConcat(bodies - {h.csid}, a[1..], b);
        var first := Absorb(bodies, a);
        var rest := Absorb(bodies - {h.csid}, a[1..]);
        var second := Absorb(first.0, b);
        assert [Message(h, Body(bodies, h.csid))] + (rest.1 + second.1) == first.1 + second.1;
    }
  }

  /** A whole fragment is absorbed at once: it extends one body, and closes it at the end. */
  lemma {:induction false} AbsorbFragment(bodies: Bodies, h: MessageHeader, offset: nat, data: seq<byte>)
    requires offset + |data| <= h.length
    ensures var whole := Body(bodies, h.csid) + data;
            Absorb(bodies, FragmentEvents(h, offset, data)) ==
            if offset + |data| == h.length then (bodies - {h.csid}, [Message(h, whole)])
            else if data == [] then (bodies, [])
            else (bodies[h.csid := whole], [])
    decreases |data|
  {
    if data == [] {
      assert Body(bodies, h.csid) + data == Body(bodies, h.csid);
      if offset == h.length {
        var e := FragmentEvents(h, offset, data);
        assert e == [End(h)] && e[1..] == [];
        assert [Message(h, Body(bodies, h.csid))] + [] == [Message(h, Body(bodies, h.csid))];
      }
    } else {
      var next := bodies[h.csid := Body(bodies, h.csid) + [data[0]]];
      var e := FragmentEvents(h, offset, data);
      assert e[1..] == FragmentEvents(h, offset + 1, data[1..]);
      AbsorbFragment(next, h, offset + 1, data[1..]);
      assert Body(next, h.csid) + data[1..] == Body(bodies, h.csid) + data;
      assert next - {h.csid} == bodies - {h.csid};
      if |data| == 1 {
        assert data == [data[0]];
      }
      assert next[h.csid := Body(bodies, h.csid) + data] == bodies[h.csid := Body(bodies, h.csid) + data];
    }
  }

  // ----- bodies mirror the parser ------------------------------------------

  /** A body exists exactly for the open messages with bytes received, and holds just that many. */
  ghost predicate Mirrors(st: State, bodies: Bodies) {
    && (forall c :: c in bodies <==> c in st.streams && st.streams[c].active && st.streams[c].received > 0)
    && (forall c :: c in bodies ==> |bodies[c]| == st.streams[c].received)
  }

  lemma OpenMirrors(st: State, bodies: Bodies)
    requires StreamsOk(st) && Mirrors(st, bodies)
    requires HeaderComplete(st) && BeginChunk(st).Ok?
    ensures Mirrors(BeginChunk(st).value, bodies)
  {
    BeginChunkOpens(st);
  }

  lemma SettleMirrors(st: State, bodies: Bodies)
    requires Between(st) && Mirrors(st, bodies) && Settle(st).Ok?
    ensures var (next, events) := Settle(st).value;
            Mirrors(next, Absorb(bodies, events).0)
  {
    hide BeginChunk, Mirrors;
    if HeaderComplete(st) {
      OpenMirrors(st, bodies);
      BeginChunkOpens(st);
      var csid, begun := Csid(st.scratch), BeginChunk(st).value;
      if begun.chunkLeft == 0 {
        EmptyMirrors(st, bodies, csid, begun.streams[csid]);
      }
    }
  }

  /** A message without payload begins and ends at once. */
  lemma EmptyMirrors(st: State, bodies: Bodies, csid: nat, stream: Stream)
    requires Between(st) && Opens(st, csid, stream) && Opened(st, csid, stream).chunkLeft == 0
    requires Mirrors(Opened(st, csid, stream), bodies)
    ensures InChunk(Opened(st, csid, stream))
    ensures Mirrors(TakePayload(Opened(st, csid, stream), 0),
            Absorb(bodies, FragmentEvents(stream.header, stream.received, [])).0)
  {
    hide Valid, Mirrors, Between, FragmentEvents, Absorb;
    EmptyMessageValid(st, csid, stream);
    AbsorbFragment(bodies, stream.header, stream.received, []);
    EndedMirrors(Opened(st, csid, stream), bodies);
  }

  lemma EndedMirrors(open: State, bodies: Bodies)
    requires InChunk(open) && open.chunkLeft == 0 && Mirrors(open, bodies)
    requires open.streams[open.current.value].received == open.streams[open.current.value].header.length == 0
    ensures bodies - {open.current.value} == bodies && Mirrors(TakePayload(open, 0), bodies)
  {
  }

  lemma PayloadMirrors(st: State, bodies: Bodies, b: byte)
    requires Valid(st) && Mirrors(st, bodies) && st.current.Some?
    ensures var (next, events) := Step(st, b).value;
            Mirrors(next, Absorb(bodies, events).0)
  {
    var c := st.current.value;
    var stream := st.streams[c];
    assert StreamOk(st.limits, c, stream);
    AbsorbFragment(bodies, stream.header, stream.received, [b]);
    assert |Body(bodies, c)| == stream.received;
  }

  /** One byte keeps the bodies in step with the parser. */
  lemma StepMirrors(st: State, bodies: Bodies, b: byte)
    requires Valid(st) && Mirrors(st, bodies) && Step(st, b).Ok?
    ensures var (next, events) := Step(st, b).value;
            Mirrors(next, Absorb(bodies, events).0)
  {
    if st.current.Some? {
      PayloadMirrors(st, bodies, b);
    } else {
      assert Unfinished(st) == ActiveSet(st.streams);
      SettleMirrors(st.(scratch := st.scratch + [b]), bodies);
    }
  }

  /** Over any run, a body exists iff its message is open with bytes received, and its length
      is the parser's count of received bytes. */
  lemma {:induction false} RunMirrors(st: State, bodies: Bodies, bytes: seq<byte>)
    requires Valid(st) && Mirrors(st, bodies) && Run(st, bytes).Running?
    ensures var o := Run(st, bytes);
            Mirrors(o.state, Absorb(bodies, o.events).0)
    decreases |bytes|
  {
    if bytes != [] {
      StepValid(st, bytes[0]);
      StepMirrors(st, bodies, bytes[0]);
      var (next, events) := Step(st, bytes[0]).value;
      RunMirrors(next, Absorb(bodies, events).0, bytes[1..]);
      AbsorbConcat(bodies, events, Run(next, bytes[1..]).events);
    }
  }

  // ----- a message keeps its identity ---------------------------------------

  ghost predicate Ends(events: seq<Event>, csid: nat) {
    exists i :: 0 <= i < |events| && events[i].End? && events[i].header.csid == csid
  }

  ghost predicate KeepsIdentity(st: State, next: State, events: seq<Event>) {
    forall c :: c in st.streams && st.streams[c].active ==>
      || Ends(events, c)
      || (c in next.streams && next.streams[c].active && next.streams[c].header == st.streams[c].header
          && next.streams[c].received >= st.streams[c].received)
  }

  lemma EndsConcat(a: seq<Event>, b: seq<Event>, csid: nat)
    requires Ends(a, csid) || Ends(b, csid)
    ensures Ends(a + b, csid)
  {
    if Ends(a, csid) {
      var i :| 0 <= i < |a| && a[i].End? && a[i].header.csid == csid;
      assert (a + b)[i] == a[i];
    } else {
      var i :| 0 <= i < |b| && b[i].End? && b[i].header.csid == csid;
      assert (a + b)[|a| + i] == b[i];
    }
  }

  lemma IdentityTransitive(a: State, b: State, c: State, e1: seq<Event>, e2: seq<Event>)
    requires KeepsIdentity(a, b, e1) && KeepsIdentity(b, c, e2)
    ensures KeepsIdentity(a, c, e1 + e2)
  {
    forall k | k in a.streams && a.streams[k].active && !Ends(e1 + e2, k)
      ensures c.streams.Keys >= {k} && c.streams[k].active && c.streams[k].header == a.streams[k].header
              && c.streams[k].received >= a.streams[k].received
    {
      if Ends(e1, k) || Ends(e2, k) {
        EndsConcat(e1, e2, k);
      }
    }
  }

  lemma PayloadEnds(h: MessageHeader, offset: nat, b: byte)
    requires offset + 1 == h.length
    ensures Ends(FragmentEvents(h, offset, [b]), h.csid)
  {
    assert [b][1..] == [];
    assert FragmentEvents(h, offset + 1, [])[0] == End(h);
    assert FragmentEvents(h, offset, [b])[1] == End(h);
  }

  lemma StepIdentity(st: State, b: byte)
    requires Valid(st) && Step(st, b).Ok?
    ensures KeepsIdentity(st, Step(st, b).value.0, Step(st, b).value.1)
  {
    var (next, events) := Step(st, b).value;
    if st.current.Some? {
      var c := st.current.value;
      assert StreamOk(st.limits, c, st.streams[c]);
      if !next.streams[c].active {
        PayloadEnds(st.streams[c].header, st.streams[c].received, b);
      }
    } else {
      assert Unfinished(st) == ActiveSet(st.streams);
      var st' := st.(scratch := st.scratch + [b]);
      if HeaderComplete(st') {
        BeginChunkOpens(st');
        var csid, begun := Csid(st'.scratch), BeginChunk(st').value;
        if begun.chunkLeft == 0 {
          EmptyMessageValid(st', csid, begun.streams[csid]);
          assert events[0] == End(begun.streams[csid].header);
          assert Ends(events, csid);
        }
      }
    }
  }

  /** Over any run, an open message keeps its timestamp, type, stream and length until it ends. */
  lemma {:induction false} RunIdentity(st: State, bytes: seq<byte>)
    requires Valid(st) && Run(st, bytes).Running?
    ensures KeepsIdentity(st, Run(st, bytes).state, Run(st, bytes).events)
    decreases |bytes|
  {
    if bytes != [] {
      StepValid(st, bytes[0]);
      StepIdentity(st, bytes[0]);
      var (next, events) := Step(st, bytes[0]).value;
      RunIdentity(next, bytes[1..]);
      var o := Run(next, bytes[1..]);
      IdentityTransitive(st, next, o.state, events, o.events);
    }
  }

  // ----- the receiving side of a connection -----------------------------------

  datatype Receiver = Receiver(parser: State, bodies: Bodies)

  function Fresh(limits: Limits): Receiver {
    Receiver(Initial(limits), map[])
  }

  const TYPE_SET_CHUNK_SIZE: byte := 1
  const TYPE_ABORT: byte := 2

  /** Apply a completed message to the chunk layer before the next byte is parsed. */
  function Control(r: Receiver, m: RawMessage): Result<Receiver, Error> {
    if m.typeId == TYPE_SET_CHUNK_SIZE then
      if |m.data| < 4 || FromBe32(m.data) > 0x7fff_ffff then Err(MalformedControl(m.typeId))
      else
        var size := FromBe32(m.data);
        if size == 0 || size > r.parser.limits.maxChunkSize then Err(InvalidMaxChunkSize(size))
        else Ok(r.(parser := r.parser.(chunkSize := size)))
    else if m.typeId == TYPE_ABORT then
      if |m.data| < 4 then Err(MalformedControl(m.typeId))
      else
        var csid := FromBe32(m.data);
        Ok(Receiver(Aborted(r.parser, csid), r.bodies - {csid}))
    else Ok(r)
  }

  function ControlAll(r: Receiver, messages: seq<RawMessage>): Result<Receiver, Error>
    decreases |messages|
  {
    if messages == [] then Ok(r)
    else
      match Control(r, messages[0])
      case Err(e) => Err(e)
      case Ok(next) => ControlAll(next, messages[1..])
  }

  /** What one byte does: parse it, assemble, and apply the message it completes, if any. */
  function Receive(r: Receiver, b: byte): Result<(Receiver, seq<RawMessage>), Error> {
    match Step(r.parser, b)
    case Err(e) => Err(e)
    case Ok((parser, events)) =>
      var (bodies, messages) := Absorb(r.bodies, events);
      match ControlAll(Receiver(parser, bodies), messages)
      case Err(e) => Err(e)
      case Ok(next) => Ok((next, messages))
  }

  datatype Session =
    | Live(receiver: Receiver, messages: seq<RawMessage>)
    | Dead(error: Error, messages: seq<RawMessage>)

  function Then(messages: seq<RawMessage>, s: Session): Session {
    match s
    case Live(r, later) => Live(r, messages + later)
    case Dead(e, later) => Dead(e, messages + later)
  }

  function ReceiveAll(r: Receiver, bytes: seq<byte>): Session
    decreases |bytes|
  {
    if bytes == [] then Live(r, [])
    else
      match Receive(r, bytes[0])
      case Err(e) => Dead(e, [])
      case Ok((next, messages)) => Then(messages, ReceiveAll(next, bytes[1..]))
  }

  /** Where the transport cuts the stream does not matter to what is received. */
  lemma {:induction false} ReceiveConcat(r: Receiver, a: seq<byte>, b: seq<byte>)
    ensures ReceiveAll(r, a + b) ==
            match ReceiveAll(r, a)
            case Live(mid, messages) => Then(messages, ReceiveAll(mid, b))
            case Dead(_, _) => ReceiveAll(r, a)
    decreases |a|
  {
    if a == [] {
      assert a + b == b;
      ThenNothing(ReceiveAll(r, b));
    } else {
      assert (a + b)[1..] == a[1..] + b;
      match Receive(r, a[0])
      case Err(_) =>
      case Ok((next, messages)) =>
        ReceiveConcat(next, a[1..], b);
        match ReceiveAll(next, a[1..])
        case Live(mid, later) => ThenThen(messages, later, ReceiveAll(mid, b));
        case Dead(_, _) =>
    }
  }

  lemma ThenThen(a: seq<RawMessage>, b: seq<RawMessage>, s: Session)
    ensures Then(a, Then(b, s)) == Then(a + b, s)
  {
    match s
    case Live(r, later) => assert a + (b + later) == a + b + later;
    case Dead(e, later) => assert a + (b + later) == a + b + later;
  }

  lemma ThenNothing(s: Session)
    ensures Then([], s) == s
  {
    match s
    case Live(r, later) => assert [] + later == later;
    case Dead(e, later) => assert [] + later == later;
  }
}
