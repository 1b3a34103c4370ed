/** What the encoder transmits is what a receiver decodes, over every run. */
module RoundTrip {
  import opened Base
  import opened ChunkMachine
  import opened ChunkMachineProofs
  import opened ChunkParserModule
  import opened MessageMachine
  import opened MessageDecoderModule
  import opened Receiving
  import opened ChunkEncoderModule

  // ----- a header is read back -----------------------------------------------------

  /** Every proper prefix of a complete header still needs more bytes. */
  lemma PrefixOpen(streams: map<nat, Stream>, s: seq<byte>, k: nat)
    requires s != [] && HeaderNeeded(streams, s) == Ok(|s|) && k < |s|
    ensures HeaderOpen(streams, s[..k])
  {
    var p := s[..k];
    if k > 0 {
      assert p[0] == s[0];
      if k >= BasicLen(s) {
        assert Csid(p) == Csid(s);
        if k >= BasicLen(s) + BodyLen(Fmt(s)) && Fmt(s) != 3 {
          assert p[BasicLen(s)..][..3] == s[BasicLen(s)..][..3];
          assert FromBe24(p[BasicLen(s)..]) == FromBe24(s[BasicLen(s)..]);
        }
      }
    }
  }

  lemma {:induction false} RunRest(st: State, s: seq<byte>, k: nat)
    requires k < |s| && st.current.None? && st.scratch == s[..k]
    requires HeaderNeeded(st.streams, s) == Ok(|s|)
    ensures Run(st, s[k..]) == Acted(Settle(st.(scratch := s)), |s| - k)
    decreases |s| - k
  {
    var next := st.(scratch := s[..k + 1]);
    assert s[..k + 1] == s[..k] + [s[k]];
    assert s[k..][0] == s[k] && s[k..][1..] == s[k + 1..];
    if k + 1 == |s| {
      assert s[..k + 1] == s;
      assert s[k..] == [s[k]];
      RunOne(st, s[k]);
    } else {
      PrefixOpen(st.streams, s, k + 1);
      assert Settle(next) == Ok((next, []));
      RunRest(next, s, k + 1);
      assert next.(scratch := s) == st.(scratch := s);
      AfterSilent(Run(next, s[k + 1..]), 1);
    }
  }

  lemma AfterSilent(o: Outcome, n: nat)
    ensures After([], n, o) == match o case Running(st, e) => Running(st, e) case Stopped(e, at, ev) =>
            Stopped(e, n + at, ev)
  {
    match o
    case Running(st, later) => assert [] + later == later;
    case Stopped(e, at, later) => assert [] + later == later;
  }

  /** A whole header is acted on exactly when its last byte arrives. */
  lemma RunWholeHeader(st: State, s: seq<byte>)
    requires st.current.None? && st.scratch == [] && s != []
    requires HeaderNeeded(st.streams, s) == Ok(|s|)
    ensures Run(st, s) == Acted(Settle(st.(scratch := s)), |s|)
  {
    assert s[..0] == [] && s[0..] == s;
    RunRest(st, s, 0);
  }

  ghost predicate Sendable(h: ChunkHeader) {
    2 <= h.csid < 64
  }

  /** Fields found at their places in a full header. */
  lemma FullLayout(h: ChunkHeader)
    requires Sendable(h)
    ensures var s := HeaderBytes(h, 0);
            && |s| == (if h.field >= MAX24 then 16 else 12)
            && s[0] == h.csid
            && FromBe24(s[1..]) == Min(h.field, MAX24)
            && FromBe24(s[4..]) == h.length && s[7] == h.typeId && FromLe32(s[8..]) == h.streamId
            && (h.field >= MAX24 ==> FromBe32(s[12..]) == h.field)
  {
    var s := HeaderBytes(h, 0);
    Be24RoundTrip(Min(h.field, MAX24));
    Be24RoundTrip(h.length);
    Le32RoundTrip(h.streamId);
    assert s[1..4] == Be24(Min(h.field, MAX24));
    assert s[4..7] == Be24(h.length);
    assert s[8..12] == Le32(h.streamId);
    if h.field >= MAX24 {
      Be32RoundTrip(h.field);
      assert s[12..] == Be32(h.field);
    }
  }

  lemma DeltaLayout(h: ChunkHeader, fmt: Format)
    requires Sendable(h) && (fmt == 1 || fmt == 2)
    ensures var s := HeaderBytes(h, fmt);
            var body := if fmt == 1 then 7 else 3;
            && |s| == 1 + body + (if h.field >= MAX24 then 4 else 0)
            && s[0] == fmt * 64 + h.csid
            && FromBe24(s[1..]) == Min(h.field, MAX24)
            && (fmt == 1 ==> FromBe24(s[4..]) == h.length && s[7] == h.typeId)
            && (h.field >= MAX24 ==> FromBe32(s[1 + body..]) == h.field)
  {
    var s := HeaderBytes(h, fmt);
    var body := if fmt == 1 then 7 else 3;
    Be24RoundTrip(Min(h.field, MAX24));
    assert s[1..4] == Be24(Min(h.field, MAX24));
    if fmt == 1 {
      Be24RoundTrip(h.length);
      assert s[4..7] == Be24(h.length);
    }
    if h.field >= MAX24 {
      Be32RoundTrip(h.field);
      assert s[1 + body..] == Be32(h.field);
    }
  }

  lemma BareLayout(h: ChunkHeader)
    requires Sendable(h)
    ensures var s := HeaderBytes(h, 3);
            && |s| == 1 + (if h.field >= MAX24 then 4 else 0)
            && s[0] == 192 + h.csid
            && (h.field >= MAX24 ==> FromBe32(s[1..]) == h.field)
  {
    var s := HeaderBytes(h, 3);
    if h.field >= MAX24 {
      Be32RoundTrip(h.field);
      assert s[1..] == Be32(h.field);
    }
  }

  /** The parser's record of the stream agrees with the encoder as far as format `fmt` relies on it. */
  ghost predicate Known(prior: Option<Stream>, h: ChunkHeader, fmt: Format) {
    && (fmt > 0 ==> prior.Some? && prior.value.header.streamId == h.streamId)
    && (fmt > 1 ==> prior.value.header.length == h.length && prior.value.header.typeId == h.typeId)
    && (fmt > 2 ==> prior.value.timeField == h.field)
    && (prior.Some? ==> prior.value.header.csid == h.csid)
  }

  /** Any format is read back to the same time field and the same message attributes. */
  lemma ReadsBack(streams: map<nat, Stream>, h: ChunkHeader, fmt: Format)
    requires Sendable(h) && Known(Lookup(streams, h.csid), h, fmt)
    ensures var s, prior := HeaderBytes(h, fmt), Lookup(streams, h.csid);
            && HeaderNeeded(streams, s) == Ok(|s|)
            && Csid(s) == h.csid && Fmt(s) == fmt
            && ReadTime(s, prior) == h.field
            && ReadHeader(s, prior) ==
               MessageHeader(h.csid, if prior.Some? then prior.value.header.timestamp else 0, h.typeId, h.streamId,
                   h.length)
  {
    if fmt == 0 {
      FullLayout(h);
    } else if fmt == 3 {
      BareLayout(h);
    } else {
      DeltaLayout(h, fmt);
    }
  }

  // ----- one message crosses the wire ----------------------------------------------

  ghost predicate AtRest(st: State) {
    st.current.None? && st.scratch == [] && st.chunkLeft == 0 && st.chunkSize > 0
  }

  /** The resting state in which `k` payload bytes of a message have arrived on its stream. */
  function Arrived(st: State, header: MessageHeader, field: u32, k: nat): State {
    st.(streams := st.streams[header.csid := Stream(header, field, k, k < header.length)])
  }

  lemma {:induction false} FragmentEventsConcat(h: MessageHeader, offset: nat, a: seq<byte>, b: seq<byte>)
    requires offset + |a| < h.length
    ensures FragmentEvents(h, offset, a + b) == FragmentEvents(h, offset, a) + FragmentEvents(h, offset + |a|, b)
    decreases |a|
  {
    if a == [] {
      assert a + b == b;
    } else {
      assert (a + b)[1..] == a[1..] + b;
      FragmentEventsConcat(h, offset + 1, a[1..], b);
    }
  }

  lemma RunOpening(st: State, hb: seq<byte>, csid: nat, stream: Stream)
    requires AtRest(st) && hb != [] && HeaderNeeded(st.streams, hb) == Ok(|hb|)
    requires stream.received <= stream.header.length
    requires BeginChunk(st.(scratch := hb)) == Ok(Opened(st, csid, stream))
    ensures var open := Opened(st, csid, stream);
            Run(st, hb) == if open.chunkLeft > 0 then Running(open, [])
                           else Running(TakePayload(open, 0), FragmentEvents(stream.header, stream.received, []))
  {
    hide BeginChunk, Run, FragmentEvents;
    RunWholeHeader(st, hb);
  }

  lemma TakeArrived(st: State, header: MessageHeader, field: u32, k: nat, n: nat)
    requires AtRest(st) && n == Min(header.length - k, st.chunkSize) && k <= header.length
    ensures var open := Opened(st, header.csid, Stream(header, field, k, true));
            InChunk(open) && TakePayload(open, n) == Arrived(st, header, field, k + n)
  {
  }

  /** A header that opens a chunk, followed by the payload of that chunk. */
  lemma RunChunk(st: State, hb: seq<byte>, header: MessageHeader, field: u32, k: nat, piece: seq<byte>)
    requires AtRest(st) && hb != [] && HeaderNeeded(st.streams, hb) == Ok(|hb|)
    requires k <= header.length && |piece| == Min(header.length - k, st.chunkSize)
    requires BeginChunk(st.(scratch := hb)) == Ok(Opened(st, header.csid, Stream(header, field, k, true)))
    ensures Run(st, hb + piece) == Running(Arrived(st, header, field, k + |piece|), FragmentEvents(header, k, piece))
  {
    hide BeginChunk, Run, HeaderNeeded, FragmentEvents, TakePayload, Arrived;
    var open := Opened(st, header.csid, Stream(header, field, k, true));
    RunOpening(st, hb, header.csid, Stream(header, field, k, true));
    TakeArrived(st, header, field, k, |piece|);
    if piece == [] {
      assert hb + piece == hb;
    } else {
      RunConcat(st, hb, piece);
      RunPayload(open, piece);
      AfterSilent(Run(open, piece), |hb|);
    }
  }

  /** `header` is the message that the chunk header `h` announces. */
  ghost predicate Announces(h: ChunkHeader, header: MessageHeader) {
    && Sendable(h)
    && header == MessageHeader(h.csid, h.timestamp, h.typeId, h.streamId, h.length)
  }

  /** Continuations are bare, or full and then carry the absolute time. */
  ghost predicate Continues(h: ChunkHeader, fmt: Format) {
    fmt == 3 || (fmt == 0 && h.field == h.timestamp)
  }

  /** A continuation header resumes the message where it stands. */
  lemma ContinuationOpens(st: State, h: ChunkHeader, header: MessageHeader, fmt: Format, k: nat)
    requires Announces(h, header) && Continues(h, fmt) && 0 < k < header.length
    requires AtRest(st) && h.csid in st.streams && st.streams[h.csid] == Stream(header, h.field, k, true)
    requires header.length <= st.limits.maxMessageSize
    ensures var hb := HeaderBytes(h, fmt);
            && HeaderNeeded(st.streams, hb) == Ok(|hb|)
            && BeginChunk(st.(scratch := hb)) == Ok(Opened(st, h.csid, Stream(header, h.field, k, true)))
  {
    hide HeaderBytes, ReadHeader, ReadTime;
    ReadsBack(st.streams, h, fmt);
  }

  /** From a header that opens chunk number one or later, the rest of the image delivers the
      rest of the payload. */
  lemma {:induction false} RunImage(st: State, hb: seq<byte>, h: ChunkHeader, header: MessageHeader, fmt: Format,
          k: nat, data: seq<byte>)
    requires AtRest(st) && Announces(h, header) && Continues(h, fmt)
    requires |data| == header.length <= st.limits.maxMessageSize && k <= |data|
    requires hb != [] && HeaderNeeded(st.streams, hb) == Ok(|hb|)
    requires BeginChunk(st.(scratch := hb)) == Ok(Opened(st, h.csid, Stream(header, h.field, k, true)))
    ensures Run(st, Image(hb, HeaderBytes(h, fmt), st.chunkSize, data[k..])) ==
            Running(Arrived(st, header, h.field, |data|), FragmentEvents(header, k, data[k..]))
    decreases |data| - k
  {
    hide BeginChunk, HeaderNeeded, HeaderBytes, Run, FragmentEvents;
    var size, rest := st.chunkSize, data[k..];
    var n := Min(|rest|, size);
    var piece, later := rest[..n], data[k + n..];
    RunChunk(st, hb, header, h.field, k, piece);
    if |rest| <= size {
      assert piece == rest;
    } else {
      var mid := Arrived(st, header, h.field, k + n);
      ContinuationOpens(mid, h, header, fmt, k + n);
      RunImage(mid, HeaderBytes(h, fmt), h, header, fmt, k + n, data);
      var tail := Image(HeaderBytes(h, fmt), HeaderBytes(h, fmt), size, later);
      assert rest[size..] == later && rest == piece + later;
      RunConcat(st, hb + piece, tail);
      FragmentEventsConcat(header, k, piece, later);
      assert Arrived(mid, header, h.field, |data|) == Arrived(st, header, h.field, |data|);
    }
  }

  // ----- the last byte completes the message -----------------------------------------

  lemma StepKeepsSize(st: State, b: byte)
    requires Step(st, b).Ok?
    ensures Step(st, b).value.0.chunkSize == st.chunkSize
  {
  }

  lemma {:induction false} RunKeepsSize(st: State, bytes: seq<byte>)
    requires Run(st, bytes).Running?
    ensures Run(st, bytes).state.chunkSize == st.chunkSize
    decreases |bytes|
  {
    hide Step;
    if bytes != [] {
      StepKeepsSize(st, bytes[0]);
      RunKeepsSize(Step(st, bytes[0]).value.0, bytes[1..]);
    }
  }

  /** A byte that reports nothing leaves the parser inside a header or a chunk. */
  lemma SilentStep(st: State, b: byte)
    requires st.chunkSize > 0 && Step(st, b).Ok? && Step(st, b).value.1 == []
    ensures Step(st, b).value.0.current.Some? || Step(st, b).value.0.scratch != []
  {
  }

  /** A run that ends at rest reports something with its last byte. */
  lemma RestReports(st: State, bytes: seq<byte>)
    requires bytes != [] && st.chunkSize > 0
    requires Run(st, bytes).Running? && AtRest(Run(st, bytes).state)
    ensures var o := Run(st, AllButLast(bytes));
            o.Running? && |o.events| < |Run(st, bytes).events| && o.events <= Run(st, bytes).events
  {
    hide Step;
    var init, last := AllButLast(bytes), bytes[|bytes| - 1];
    assert bytes == init + [last];
    RunConcat(st, init, [last]);
    var mid := Run(st, init).state;
    RunOne(mid, last);
    RunKeepsSize(st, init);
    if Step(mid, last).value.1 == [] {
      SilentStep(mid, last);
    }
  }

  lemma {:induction false} FragmentPrefixNoEnd(h: MessageHeader, offset: nat, data: seq<byte>, events: seq<Event>)
    requires offset + |data| <= h.length
    requires events <= FragmentEvents(h, offset, data) && |events| < |FragmentEvents(h, offset, data)|
    ensures NoEnd(events)
    decreases |data|
  {
    if data != [] && events != [] {
      assert events[0] == FragmentEvents(h, offset, data)[0];
      assert FragmentEvents(h, offset, data)[1..] == FragmentEvents(h, offset + 1, data[1..]);
      FragmentPrefixNoEnd(h, offset + 1, data[1..], events[1..]);
    }
  }

  /** A run from rest to rest that reports one whole message delivers it with its last byte. */
  lemma WholeMessageReceives(st: State, bytes: seq<byte>, end: State, h: MessageHeader, data: seq<byte>)
    requires AtRest(st) && AtRest(end) && bytes != [] && |data| == h.length
    requires Run(st, bytes) == Running(end, FragmentEvents(h, 0, data))
    ensures ReceiveAll(Receiver(st, map[]), bytes) == AfterMessage(Receiver(end, map[]), Message(h, data))
  {
    hide Run, FragmentEvents, Message, ReceiveAll;
    RestReports(st, bytes);
    var early := Run(st, AllButLast(bytes)).events;
    FragmentPrefixNoEnd(h, 0, data, early);
    var none: Bodies := map[];
    AbsorbNoEnd(none, early);
    AbsorbFragment(none, h, 0, data);
    assert Body(none, h.csid) + data == data;
    assert none - {h.csid} == none;
    MessageReceives(st, none, bytes, end, none, Message(h, data));
  }

  // ----- encoder and receiver stay in step ---------------------------------------------

  /** Limits under which every message of the encoder is admitted, sizes aside. */
  ghost predicate Admits(limits: Limits) {
    limits.maxTracked >= 5 && limits.maxPartial >= 1
  }

  /** The record the parser keeps for a header it has seen. */
  ghost predicate Recorded(st: State, h: ChunkHeader) {
    && h.csid in st.streams
    && st.streams[h.csid].header == MessageHeader(h.csid, h.timestamp, h.typeId, h.streamId, h.length)
    && st.streams[h.csid].timeField == h.field
  }

  /** No message is open, and only the chunk streams that encoders use are on record. */
  ghost predicate Resting(r: Receiver) {
    && AtRest(r.parser) && r.bodies == map[] && Admits(r.parser.limits)
    && (forall c :: c in r.parser.streams ==>
         2 <= c <= 6 && !r.parser.streams[c].active && r.parser.streams[c].header.csid == c)
  }

  /** The simulation relation: at rest, same chunk size, no message open, and every header the
      encoder may compress against is on record. */
  ghost predicate Synced(enc: Encoder, r: Receiver) {
    && Resting(r) && r.parser.chunkSize == enc.chunkSize
    && (forall c :: c in enc.slots ==>
         enc.slots[c].csid == c && (!enc.slots[c].droppable ==> Recorded(r.parser, enc.slots[c])))
  }

  lemma FreshSynced(limits: Limits)
    requires Admits(limits)
    ensures Synced(NewEncoder, Fresh(limits))
  {
  }

  lemma FewStreams(streams: map<nat, Stream>, c: nat)
    requires forall k :: k in streams ==> 2 <= k <= 6
    requires 2 <= c <= 6 && c !in streams
    ensures |streams| < 5
  {
    assert streams.Keys <= {2, 3, 4, 5, 6} - {c};
    SubsetSize(streams.Keys, {2, 3, 4, 5, 6} - {c});
  }

  lemma WrapBack(now: u32, before: u32)
    ensures Add32(before, Sub32(now, before)) == now
  {
  }

  lemma FormatKnown(enc: Encoder, r: Receiver, m: RawMessage, options: Options)
    requires Synced(enc, r) && |m.data| <= MAX24
    ensures var h, fmt := NextHeader(enc, m, options), NextFormat(enc, m, options);
            && Known(Lookup(r.parser.streams, h.csid), h, fmt)
            && (fmt > 0 ==>
                h.csid in r.parser.streams
                && Add32(r.parser.streams[h.csid].header.timestamp, h.field) == m.timestamp)
            && (fmt == 0 ==> h.field == m.timestamp)
  {
    if Compressible(enc, m, options) {
      var c := CsidFor(m.typeId);
      assert Recorded(r.parser, enc.slots[c]);
      WrapBack(m.timestamp, enc.slots[c].timestamp);
    }
  }

  /** `h` is the header of `m`, and the time it announces is that of `m` if read against the record. */
  ghost predicate Fitting(r: Receiver, h: ChunkHeader, fmt: Format, m: RawMessage) {
    && Sendable(h) && 2 <= h.csid <= 6 && Known(Lookup(r.parser.streams, h.csid), h, fmt)
    && h.timestamp == m.timestamp && h.typeId == m.typeId && h.streamId == m.streamId && h.length == |m.data|
    && (if fmt == 0 then h.field == m.timestamp
        else h.csid in r.parser.streams && Add32(r.parser.streams[h.csid].header.timestamp, h.field) == m.timestamp)
  }

  /** A header that fits the record opens its message. */
  lemma HeaderOpens(r: Receiver, h: ChunkHeader, fmt: Format, m: RawMessage)
    requires Resting(r) && Fitting(r, h, fmt, m) && |m.data| <= r.parser.limits.maxMessageSize
    ensures var hb := HeaderBytes(h, fmt);
            var header := MessageHeader(h.csid, m.timestamp, m.typeId, m.streamId, |m.data|);
            && HeaderNeeded(r.parser.streams, hb) == Ok(|hb|)
            && BeginChunk(r.parser.(scratch := hb)) == Ok(Opened(r.parser, h.csid, Stream(header, h.field, 0, true)))
  {
    hide HeaderBytes, ReadHeader, ReadTime, HeaderNeeded;
    ReadsBack(r.parser.streams, h, fmt);
    if h.csid !in r.parser.streams {
      FewStreams(r.parser.streams, h.csid);
    }
    assert ActiveSet(r.parser.streams) == {};
  }

  /** The receiver after message `m` has arrived and before it is applied. */
  function Delivered(r: Receiver, h: ChunkHeader, m: RawMessage): Receiver {
    Receiver(Arrived(r.parser, MessageHeader(h.csid, m.timestamp, m.typeId, m.streamId, |m.data|), h.field, |m.data|),
        map[])
  }

  /** A packet whose header fits the record delivers its message, which is then applied. */
  lemma ImageCrosses(r: Receiver, h: ChunkHeader, fmt: Format, later: Format, m: RawMessage)
    requires Resting(r) && Fitting(r, h, fmt, m) && Continues(h, later) && |m.data| <= r.parser.limits.maxMessageSize
    ensures ReceiveAll(r, Image(HeaderBytes(h, fmt), HeaderBytes(h, later), r.parser.chunkSize, m.data)) ==
            AfterMessage(Delivered(r, h, m), m)
  {
    hide HeaderBytes, HeaderNeeded, BeginChunk, Run, ReceiveAll, Known;
    var header := MessageHeader(h.csid, m.timestamp, m.typeId, m.streamId, |m.data|);
    HeaderOpens(r, h, fmt, m);
    assert m.data[0..] == m.data;
    RunImage(r.parser, HeaderBytes(h, fmt), h, header, later, 0, m.data);
    var image := Image(HeaderBytes(h, fmt), HeaderBytes(h, later), r.parser.chunkSize, m.data);
    WholeMessageReceives(r.parser, image, Arrived(r.parser, header, h.field, |m.data|), header, m.data);
    assert r == Receiver(r.parser, map[]);
    assert Message(header, m.data) == m;
  }

  /** One packet, sent whole, delivers its message and is then applied. */
  lemma PacketCrosses(enc: Encoder, r: Receiver, m: RawMessage, options: Options)
    requires Synced(enc, r) && |m.data| <= MAX24 && |m.data| <= r.parser.limits.maxMessageSize
    ensures var plan := Encode(enc, m, options).value.1;
            ReceiveAll(r, Wire(plan)) == AfterMessage(Delivered(r, NextHeader(enc, m, options), m), m)
  {
    hide HeaderBytes, HeaderNeeded, BeginChunk, Run, ReceiveAll, Known;
    FormatKnown(enc, r, m, options);
    ImageCrosses(r, NextHeader(enc, m, options), NextFormat(enc, m, options), if options.full then 0 else 3, m);
  }

  // ----- runs --------------------------------------------------------------------------

  datatype Action =
    | Send(m: RawMessage, options: Options, sent: bool)
    | Resize(size: u32, time: u32)

  function MessageOf(a: Action): RawMessage {
    if a.Send? then a.m else ChunkSizeMessage(a.size, a.time)
  }

  function Perform(enc: Encoder, a: Action): Result<(Encoder, Plan), EncodeError> {
    if a.Send? then Encode(enc, a.m, a.options) else EncodeChunkSize(enc, a.size, a.time)
  }

  /** True if the action puts a packet on the wire. */
  predicate Transmits(enc: Encoder, a: Action) {
    Perform(enc, a).Ok? && (a.Send? ==> a.sent)
  }

  function EncoderAfter(enc: Encoder, a: Action): Encoder {
    if Perform(enc, a).Ok? then Perform(enc, a).value.0 else enc
  }

  lemma ActionKeepsSize(enc: Encoder, a: Action)
    requires enc.chunkSize > 0
    ensures EncoderAfter(enc, a).chunkSize > 0
    ensures Perform(enc, a).Ok? ==> Perform(enc, a).value.1.chunkSize > 0
  {
  }

  /** The bytes that leave during a run of the encoder. */
  function Transmitted(enc: Encoder, actions: seq<Action>): seq<byte>
    requires enc.chunkSize > 0
    decreases |actions|
  {
    if actions == [] then []
    else
      ActionKeepsSize(enc, actions[0]);
      (if Transmits(enc, actions[0]) then Wire(Perform(enc, actions[0]).value.1) else [])
      + Transmitted(EncoderAfter(enc, actions[0]), actions[1..])
  }

  /** The messages of the packets that leave during a run. */
  function Messages(enc: Encoder, actions: seq<Action>): seq<RawMessage>
    decreases |actions|
  {
    if actions == [] then []
    else
      (if Transmits(enc, actions[0]) then [MessageOf(actions[0])] else [])
      + Messages(EncoderAfter(enc, actions[0]), actions[1..])
  }

  function EncoderAtEnd(enc: Encoder, actions: seq<Action>): Encoder
    decreases |actions|
  {
    if actions == [] then enc else EncoderAtEnd(EncoderAfter(enc, actions[0]), actions[1..])
  }

  /** A packet is withheld only if it may be dropped. A transmitted message is within the
      receiver's size limits, and a control message sent as ordinary data is well formed and
      does not contradict the chunk size the encoder is using. */
  ghost predicate Proper(enc: Encoder, limits: Limits, a: Action) {
    && (a.Send? && !a.options.droppable ==> a.sent)
    && (Transmits(enc, a) ==> |MessageOf(a).data| <= limits.maxMessageSize)
    && (a.Resize? && Transmits(enc, a) ==> a.size <= limits.maxChunkSize)
    && (a.Send? && Transmits(enc, a) && a.m.typeId == TYPE_SET_CHUNK_SIZE ==>
          |a.m.data| >= 4 && FromBe32(a.m.data) == enc.chunkSize <= Min(limits.maxChunkSize, 0x7fff_ffff))
    && (a.Send? && Transmits(enc, a) && a.m.typeId == TYPE_ABORT ==> |a.m.data| >= 4)
  }

  ghost predicate ProperRun(enc: Encoder, limits: Limits, actions: seq<Action>)
    decreases |actions|
  {
    actions == [] || (Proper(enc, limits, actions[0]) && ProperRun(EncoderAfter(enc, actions[0]), limits, actions[1..]))
  }

  /** A packet that is encoded but never sent leaves the two sides in step, as its slot is
      then not compressed against. */
  lemma DroppedSynced(enc: Encoder, r: Receiver, a: Action)
    requires Synced(enc, r) && Proper(enc, r.parser.limits, a) && !Transmits(enc, a)
    ensures Synced(EncoderAfter(enc, a), r)
  {
  }

  lemma DeliveredSynced(enc: Encoder, r: Receiver, m: RawMessage, options: Options)
    requires Synced(enc, r) && |m.data| <= MAX24
    ensures Synced(Encode(enc, m, options).value.0, Delivered(r, NextHeader(enc, m, options), m))
  {
    hide HeaderBytes;
  }

  lemma ControlSynced(enc: Encoder, r: Receiver, m: RawMessage)
    requires Synced(enc, r)
    requires m.typeId == TYPE_SET_CHUNK_SIZE ==>
               |m.data| >= 4 && 0 < FromBe32(m.data) <= Min(r.parser.limits.maxChunkSize, 0x7fff_ffff)
    requires m.typeId == TYPE_ABORT ==> |m.data| >= 4
    ensures Control(r, m).Ok?
    ensures Synced(if m.typeId == TYPE_SET_CHUNK_SIZE then enc.(chunkSize := FromBe32(m.data)) else enc,
            Control(r, m).value)
  {
  }

  /** One action keeps the two sides in step and delivers its message, if it is sent. */
  lemma ActionSynced(enc: Encoder, r: Receiver, a: Action)
    requires Synced(enc, r) && Proper(enc, r.parser.limits, a) && Transmits(enc, a)
    ensures enc.chunkSize > 0 && Perform(enc, a).value.1.chunkSize > 0
    ensures var s := ReceiveAll(r, Wire(Perform(enc, a).value.1));
            && s.Live? && s.messages == [MessageOf(a)]
            && Synced(EncoderAfter(enc, a), s.receiver) && s.receiver.parser.limits == r.parser.limits
  {
    hide HeaderBytes, ReceiveAll, Wire, Run;
    var m := MessageOf(a);
    var options := if a.Send? then a.options else Options(true, false);
    var plain := Encode(enc, m, options).value.0;
    assert Perform(enc, a).value.1 == Encode(enc, m, options).value.1;
    PacketCrosses(enc, r, m, options);
    DeliveredSynced(enc, r, m, options);
    if a.Resize? {
      Be32RoundTrip(a.size);
    }
    ControlSynced(plain, Delivered(r, NextHeader(enc, m, options), m), m);
  }

  /** Over every proper run of sends and chunk-size changes, whatever droppable packets are
      withheld, the receiver decodes exactly the transmitted messages in order, and ends in
      step with the encoder. */
  lemma {:induction false} RunRoundTrip(enc: Encoder, r: Receiver, actions: seq<Action>)
    requires Synced(enc, r) && ProperRun(enc, r.parser.limits, actions)
    ensures enc.chunkSize > 0
    ensures var s := ReceiveAll(r, Transmitted(enc, actions));
            && s.Live? && s.messages == Messages(enc, actions)
            && Synced(EncoderAtEnd(enc, actions), s.receiver) && s.receiver.parser.limits == r.parser.limits
    decreases |actions|
  {
    hide ReceiveAll, Wire, Perform, Synced, Proper;
    assert enc.chunkSize > 0 by { SyncedSize(enc, r); }
    if actions == [] {
      NothingReceived(r);
    } else {
      var a, rest := actions[0], actions[1..];
      var next := EncoderAfter(enc, a);
      if Transmits(enc, a) {
        ActionSynced(enc, r, a);
        var w := Wire(Perform(enc, a).value.1);
        var mid := ReceiveAll(r, w).receiver;
        SyncedSize(next, mid);
        RunRoundTrip(next, mid, rest);
        ReceiveConcat(r, w, Transmitted(next, rest));
      } else {
        DroppedSynced(enc, r, a);
        SyncedSize(next, r);
        RunRoundTrip(next, r, rest);
        assert [] + Transmitted(next, rest) == Transmitted(next, rest);
        assert [] + Messages(next, rest) == Messages(next, rest);
      }
    }
  }

  lemma SyncedSize(enc: Encoder, r: Receiver)
    requires Synced(enc, r)
    ensures enc.chunkSize > 0
  {
  }

  /** A connection from its start: the peer decodes exactly what was transmitted. */
  lemma ConnectionRoundTrip(limits: Limits, actions: seq<Action>)
    requires Admits(limits) && ProperRun(NewEncoder, limits, actions)
    ensures var s := ReceiveAll(Fresh(limits), Transmitted(NewEncoder, actions));
            s.Live? && s.messages == Messages(NewEncoder, actions)
  {
    FreshSynced(limits);
    RunRoundTrip(NewEncoder, Fresh(limits), actions);
  }

  /** The same, through the owned decoder and however the transport cuts the bytes. */
  method ConnectionDecodes(limits: Limits, ghost actions: seq<Action>, pieces: seq<Input>)
      returns (messages: seq<Decoded>)
    requires Admits(limits) && Ample(limits) && ProperRun(NewEncoder, limits, actions)
    requires AllBytes(pieces) == Transmitted(NewEncoder, actions)
    ensures Wholes(messages) == Messages(NewEncoder, actions)
  {
    var decoder := new MessageDecoder(limits);
    assert Held(decoder) == Fresh(limits);
    ConnectionRoundTrip(limits, actions);
    var error;
    messages, error := ReceivePieces(decoder, pieces);
  }
}
