/** What happens when a packet does not leave in the order in which it was encoded. The server
    encodes its control preamble when it is created but releases it with the answer to `connect`,
    and it encodes the reset status of a play answer last but emits it first. */
module Overtaking {
  import opened Base
  import opened ChunkMachine
  import opened ChunkMachineProofs
  import opened MessageMachine
  import opened MessageDecoderModule
  import opened Receiving
  import opened ChunkEncoderModule
  import opened RoundTrip

  // ----- one packet, read by a peer with any history ----------------------------------------------------

  const Compressed := Options(false, false)

  /** The encoder after a compressed message. */
  function Having(enc: Encoder, m: RawMessage): Encoder {
    EncoderAfter(enc, Send(m, Compressed, true))
  }

  function Bytes(enc: Encoder, m: RawMessage): seq<byte>
    requires |m.data| <= MAX24 && enc.chunkSize > 0
  {
    Wire(Encode(enc, m, Compressed).value.1)
  }

  /** A compressed header on a chunk stream that the receiver has not seen stops it. */
  lemma UnseenStops(st: State, h: ChunkHeader, fmt: Format, rest: seq<byte>)
    requires st.current.None? && st.scratch == [] && Sendable(h) && fmt >= 1 && h.csid !in st.streams
    ensures var o := Run(st, HeaderBytes(h, fmt) + rest);
            o.Stopped? && o.error == NoPreviousChunk(h.csid) && o.events == []
  {
    var s := HeaderBytes(h, fmt);
    if fmt == 3 {
      BareLayout(h);
      assert Settle(st.(scratch := st.scratch + [s[0]])) == Err(NoPreviousChunk(h.csid));
      assert (s + rest)[0] == s[0];
    } else {
      DeltaLayout(h, fmt);
      assert Csid(s) == h.csid;
      RunWholeHeader(st, s);
      RunConcat(st, s, rest);
    }
  }

  /** A compressed packet on such a chunk stream ends the connection. */
  lemma UnseenDies(r: Receiver, enc: Encoder, m: RawMessage, options: Options)
    requires AtRest(r.parser) && |m.data| <= MAX24 && enc.chunkSize > 0
    requires Compressible(enc, m, options) && CsidFor(m.typeId) !in r.parser.streams
    ensures ReceiveAll(r, Wire(Encode(enc, m, options).value.1)) == Dead(NoPreviousChunk(CsidFor(m.typeId)), [])
  {
    hide HeaderBytes, ReceiveAll;
    var plan := Encode(enc, m, options).value.1;
    var header, fmt := NextHeader(enc, m, options), NextFormat(enc, m, options);
    var wire := Wire(plan);
    var rest := wire[|plan.first|..];
    assert wire == plan.first + rest;
    UnseenStops(r.parser, header, fmt, rest);
    FailureReceives(r.parser, r.bodies, wire, NoPreviousChunk(header.csid));
  }

  /** The packet is cut into chunks as the receiver expects it. */
  predicate SameChunks(r: Receiver, enc: Encoder, m: RawMessage) {
    enc.chunkSize > 0 && (enc.chunkSize == r.parser.chunkSize || |m.data| <= Min(enc.chunkSize, r.parser.chunkSize))
  }

  /** What a packet is taken for if its header leaves out the message stream and the absolute time:
      these come from the receiver's own record. */
  ghost function ReadAs(r: Receiver, enc: Encoder, m: RawMessage): RawMessage
    requires CsidFor(m.typeId) in r.parser.streams && CsidFor(m.typeId) in enc.slots
  {
    var record, slot := r.parser.streams[CsidFor(m.typeId)].header, enc.slots[CsidFor(m.typeId)];
    RawMessage(Add32(record.timestamp, Sub32(m.timestamp, slot.timestamp)), m.typeId, record.streamId, m.data)
  }

  lemma SameImage(header: seq<byte>, later: seq<byte>, a: nat, b: nat, data: seq<byte>)
    requires a > 0 && b > 0 && (a == b || |data| <= Min(a, b))
    ensures Image(header, later, a, data) == Image(header, later, b, data)
  {
  }

  lemma {:induction false} ImagePrefix(header: seq<byte>, later: seq<byte>, size: nat, data: seq<byte>, k: nat)
      returns (rest: seq<byte>)
    requires size > 0 && k <= |data|
    ensures Image(header, later, size, data) == Image(header, later, size, data[..k]) + rest
    decreases |data|
  {
    var image, short := Image(header, later, size, data), Image(header, later, size, data[..k]);
    if k <= size {
      assert short == header + data[..k];
      rest := image[|header| + k..];
      assert image[..|header| + k] == short;
      assert image == image[..|header| + k] + rest;
    } else {
      rest := ImagePrefix(later, later, size, data[size..], k - size);
      assert data[..k][..size] == data[..size] && data[..k][size..] == data[size..][..k - size];
    }
  }

  lemma SameHeader(h: ChunkHeader, k: ChunkHeader, fmt: Format)
    requires h.csid < 64 && fmt >= 1 && k == h.(timestamp := k.timestamp, streamId := k.streamId)
    ensures HeaderBytes(h, fmt) == HeaderBytes(k, fmt)
  {
  }

  /** A packet compressed to format 1 is read without an error by any receiver that has some record on
      its chunk stream, as a message of the stream and near the time of that record. */
  lemma DeltaReads(r: Receiver, enc: Encoder, m: RawMessage)
    requires Resting(r) && SameChunks(r, enc, m) && |m.data| <= MAX24 && |m.data| <= r.parser.limits.maxMessageSize
    requires NextFormat(enc, m, Compressed) == 1 && CsidFor(m.typeId) in r.parser.streams
    ensures var seen := ReadAs(r, enc, m);
            ReceiveAll(r, Wire(Encode(enc, m, Compressed).value.1)) ==
            AfterMessage(Delivered(r, NextHeader(enc, m, Compressed), seen), seen)
  {
    hide HeaderBytes, ReceiveAll;
    var h, seen := NextHeader(enc, m, Compressed), ReadAs(r, enc, m);
    var k := h.(timestamp := seen.timestamp, streamId := seen.streamId);
    SameHeader(h, k, 1);
    SameHeader(h, k, 3);
    SameImage(HeaderBytes(h, 1), HeaderBytes(h, 3), enc.chunkSize, r.parser.chunkSize, m.data);
    ImageCrosses(r, k, 1, 3, seen);
  }

  lemma WrapExactly(record: u32, slot: u32, now: u32)
    ensures Add32(record, Sub32(now, slot)) == now <==> record == slot
  {
  }

  /** The time that the header of `m` gives if read against the peer's record: a format 3 header
      leaves even the time step to it. */
  function TimeRead(r: Receiver, enc: Encoder, m: RawMessage): u32
    requires |m.data| <= MAX24 && CsidFor(m.typeId) in r.parser.streams
  {
    var record := r.parser.streams[CsidFor(m.typeId)];
    Add32(record.header.timestamp,
        if NextFormat(enc, m, Compressed) == 3 then record.timeField else NextHeader(enc, m, Compressed).field)
  }

  /** The peer's record on the chunk stream of `m` supplies what the header of `m` leaves out. */
  predicate SameBase(r: Receiver, enc: Encoder, m: RawMessage)
    requires |m.data| <= MAX24
  {
    var c, fmt := CsidFor(m.typeId), NextFormat(enc, m, Compressed);
    && c in r.parser.streams && r.parser.streams[c].header.streamId == m.streamId && TimeRead(r, enc, m) == m.timestamp
    && (fmt >= 2 ==> r.parser.streams[c].header.length == |m.data| && r.parser.streams[c].header.typeId == m.typeId)
  }

  /** The peer finds the end of the header: it expects an extended time where there is one. */
  predicate Framed(r: Receiver, enc: Encoder, m: RawMessage)
    requires |m.data| <= MAX24
  {
    var c, field := CsidFor(m.typeId), NextHeader(enc, m, Compressed).field;
    && (NextFormat(enc, m, Compressed) == 3 && c in r.parser.streams ==>
          r.parser.streams[c].timeField == field || (r.parser.streams[c].timeField < MAX24 && field < MAX24))
    && (NextFormat(enc, m, Compressed) >= 2 && c in r.parser.streams ==>
          r.parser.streams[c].header.length <= Min(MAX24, r.parser.limits.maxMessageSize))
  }

  ghost predicate ReceivedAs(r: Receiver, bytes: seq<byte>, m: RawMessage) {
    var s := ReceiveAll(r, bytes);
    s.Live? && s.messages == [m]
  }

  /** Cut or padded to a length. */
  function Resized(data: seq<byte>, n: nat): (d: seq<byte>)
    ensures |d| == n
  {
    if n <= |data| then data[..n] else data + seq(n - |data|, i => 0)
  }

  /** A packet compressed to format 2 or 3, as a receiver reads it that has some record on its chunk
      stream. */
  lemma RecordReads(r: Receiver, enc: Encoder, m: RawMessage)
      returns (seen: RawMessage, s: Session, short: seq<byte>, rest: seq<byte>)
    requires Resting(r) && SameChunks(r, enc, m) && |m.data| <= MAX24
    requires NextFormat(enc, m, Compressed) >= 2 && CsidFor(m.typeId) in r.parser.streams && Framed(r, enc, m)
    ensures var record := r.parser.streams[CsidFor(m.typeId)].header;
            seen == RawMessage(TimeRead(r, enc, m), record.typeId, record.streamId, Resized(m.data, record.length))
    ensures s.messages == (if s.Live? then [seen] else [])
            && (s.Dead? ==> seen.typeId in {TYPE_SET_CHUNK_SIZE, TYPE_ABORT})
    ensures |seen.data| == |m.data| ==> rest == []
    ensures if |seen.data| <= |m.data| then Bytes(enc, m) == short + rest && ReceiveAll(r, short) == s
            else Bytes(enc, m) == short && ReceiveAll(r, short + rest) == s
  {
    hide ReceiveAll;
    var fmt, h, record := NextFormat(enc, m, Compressed), NextHeader(enc, m, Compressed),
        r.parser.streams[CsidFor(m.typeId)];
    var field := if fmt == 3 then record.timeField else h.field;
    seen := RawMessage(TimeRead(r, enc, m), record.header.typeId, record.header.streamId,
        Resized(m.data, record.header.length));
    var k := ChunkHeader(h.csid, seen.timestamp, field, |seen.data|, seen.typeId, seen.streamId, false);
    var first, later := HeaderBytes(h, fmt), HeaderBytes(h, 3);
    assert HeaderBytes(k, fmt) == first && HeaderBytes(k, 3) == later;
    ImageCrosses(r, k, fmt, 3, seen);
    s := AfterMessage(Delivered(r, k, seen), seen);
    var size := r.parser.chunkSize;
    SameImage(first, later, enc.chunkSize, size, m.data);
    if |seen.data| <= |m.data| {
      short := Image(first, later, size, seen.data);
      rest := ImagePrefix(first, later, size, m.data, |seen.data|);
    } else {
      assert seen.data[..|m.data|] == m.data;
      short := Image(first, later, size, m.data);
      rest := ImagePrefix(first, later, size, seen.data, |m.data|);
    }
    if |seen.data| == |m.data| {
      assert seen.data == m.data;
      assert |short + rest| == |short|;
    }
  }

  lemma RecordExactly(r: Receiver, enc: Encoder, m: RawMessage)
    requires Resting(r) && SameChunks(r, enc, m) && |m.data| <= MAX24 && |m.data| <= r.parser.limits.maxMessageSize
    requires m.typeId != TYPE_SET_CHUNK_SIZE && m.typeId != TYPE_ABORT
    requires NextFormat(enc, m, Compressed) >= 2 && CsidFor(m.typeId) in r.parser.streams && Framed(r, enc, m)
    ensures ReceivedAs(r, Bytes(enc, m), m) <==> SameBase(r, enc, m)
  {
    hide ReceiveAll, Bytes, NextFormat;
    var seen, s, short, rest := RecordReads(r, enc, m);
    if |seen.data| == |m.data| {
      assert short + rest == short && seen.data == m.data;
      assert seen == m <==> SameBase(r, enc, m);
      assert [seen] == [m] <==> [seen][0] == [m][0];
    } else {
      ReceiveConcat(r, short, rest);
      var got := ReceiveAll(r, Bytes(enc, m));
      assert got.Live? && got.messages != [] ==> s.messages != [] && got.messages[0] == s.messages[0];
    }
  }

  /** The exact condition for a packet out of order. A full packet is always received as what it is. A
      compressed one is if and only if the peer has a record on its chunk stream that supplies the
      right message stream and time, and whatever else the header leaves out. */
  lemma OutOfOrderExactly(r: Receiver, enc: Encoder, m: RawMessage)
    requires Resting(r) && SameChunks(r, enc, m) && |m.data| <= MAX24 && |m.data| <= r.parser.limits.maxMessageSize
    requires m.typeId != TYPE_SET_CHUNK_SIZE && m.typeId != TYPE_ABORT && Framed(r, enc, m)
    ensures ReceivedAs(r, Wire(Encode(enc, m, Compressed).value.1), m) <==>
            !Compressible(enc, m, Compressed) || SameBase(r, enc, m)
  {
    hide HeaderBytes, ReceiveAll, Resting;
    if !Compressible(enc, m, Compressed) {
      FullReads(r, enc, m, Compressed);
    } else if CsidFor(m.typeId) !in r.parser.streams {
      assert AtRest(r.parser) by { assert Resting(r); RestingRests(r); }
      UnseenDies(r, enc, m, Compressed);
    } else if NextFormat(enc, m, Compressed) == 1 {
      DeltaReads(r, enc, m);
    } else {
      RecordExactly(r, enc, m);
    }
  }

  lemma RestingRests(r: Receiver)
    requires Resting(r)
    ensures AtRest(r.parser)
  {
  }

  lemma FullReads(r: Receiver, enc: Encoder, m: RawMessage, options: Options)
    requires Resting(r) && SameChunks(r, enc, m) && |m.data| <= MAX24 && |m.data| <= r.parser.limits.maxMessageSize
    requires !Compressible(enc, m, options)
    ensures ReceiveAll(r, Wire(Encode(enc, m, options).value.1)) ==
            AfterMessage(Delivered(r, NextHeader(enc, m, options), m), m)
  {
    hide HeaderBytes, ReceiveAll;
    var h, later := NextHeader(enc, m, options), if options.full then 0 else 3;
    SameImage(HeaderBytes(h, 0), HeaderBytes(h, later), enc.chunkSize, r.parser.chunkSize, m.data);
    ImageCrosses(r, h, 0, later, m);
  }

  // ----- the preamble of a server ---------------------------------------------------------------------------

  /** What a server encodes when it is created, each with a full header: its chunk size, window, the
      begin of stream 0, the peer's bandwidth, and on request `onBWDone`. */
  datatype Preamble = Preamble(chunkSize: u32, windowSize: u32, bandwidth: u32, done: Option<seq<byte>>,
          times: seq<u32>)

  function Full(m: RawMessage): Action {
    Send(m, Options(true, false), true)
  }

  function PreambleActions(p: Preamble): seq<Action>
    requires |p.times| == 4
  {
    [Resize(p.chunkSize, 0),
     Full(RawMessage(p.times[0], 5, 0, Be32(p.windowSize))),
     Full(RawMessage(p.times[1], 4, 0, [0, 0] + Be32(0))),
     Full(RawMessage(p.times[2], 6, 0, Be32(p.bandwidth) + [2]))]
    + (if p.done.Some? then [Full(RawMessage(p.times[3], 20, 0, p.done.value))] else [])
  }

  /** The peer's decoder admits the preamble. */
  predicate Welcome(limits: Limits, p: Preamble) {
    && |p.times| == 4 && 0 < p.chunkSize <= 0x7fff_ffff && p.chunkSize <= limits.maxChunkSize
    && limits.maxMessageSize >= 6
    && (p.done.Some? ==> |p.done.value| <= MAX24 && |p.done.value| <= limits.maxMessageSize)
  }

  /** Everything is sent, within the peer's limits, and does not imitate the chunk layer. */
  predicate Plainly(limits: Limits, a: Action) {
    && |MessageOf(a).data| <= limits.maxMessageSize && (a.Resize? ==> a.size <= limits.maxChunkSize)
    && (a.Send? ==> a.sent && a.m.typeId != TYPE_SET_CHUNK_SIZE && a.m.typeId != TYPE_ABORT)
  }

  lemma {:induction false} PlainlyProper(enc: Encoder, limits: Limits, actions: seq<Action>)
    requires forall i :: 0 <= i < |actions| ==> Plainly(limits, actions[i])
    ensures ProperRun(enc, limits, actions)
    decreases |actions|
  {
    if actions != [] {
      PlainlyProper(EncoderAfter(enc, actions[0]), limits, actions[1..]);
    }
  }

  lemma AtEndFirst(enc: Encoder, a: Action, later: seq<Action>)
    ensures EncoderAtEnd(enc, [a] + later) == EncoderAtEnd(EncoderAfter(enc, a), later)
  {
    assert ([a] + later)[1..] == later;
  }

  /** After its preamble an encoder relies on chunk stream 2, and on 6 if `onBWDone` was sent. */
  lemma AfterPreamble(p: Preamble)
    requires |p.times| == 4 && 0 < p.chunkSize <= 0x7fff_ffff && (p.done.Some? ==> |p.done.value| <= MAX24)
    ensures var enc := EncoderAtEnd(NewEncoder, PreambleActions(p));
            && enc.chunkSize == p.chunkSize && enc.slots.Keys == (if p.done.Some? then {2, 6} else {2})
            && forall c :: c in enc.slots ==> enc.slots[c].streamId == 0 && !enc.slots[c].droppable
  {
    hide HeaderBytes, NextFormat;
    var acts := PreambleActions(p);
    var e1 := EncoderAfter(NewEncoder, acts[0]);
    var e2 := EncoderAfter(e1, acts[1]);
    var e3 := EncoderAfter(e2, acts[2]);
    var e4 := EncoderAfter(e3, acts[3]);
    assert acts == [acts[0]] + ([acts[1]] + ([acts[2]] + ([acts[3]] + acts[4..])));
    AtEndFirst(NewEncoder, acts[0], [acts[1]] + ([acts[2]] + ([acts[3]] + acts[4..])));
    AtEndFirst(e1, acts[1], [acts[2]] + ([acts[3]] + acts[4..]));
    AtEndFirst(e2, acts[2], [acts[3]] + acts[4..]);
    AtEndFirst(e3, acts[3], acts[4..]);
    assert e4.slots.Keys == {2};
    if p.done.Some? {
      assert acts[4..] == [acts[4]] + [];
      AtEndFirst(e4, acts[4], []);
    }
  }

  /** The exact condition: a message encoded behind the preamble that a new peer gets before it is
      received if and only if it is on a message stream or a chunk stream that the preamble did not
      use. */
  lemma PreambleOvertaken(limits: Limits, p: Preamble, m: RawMessage)
    requires Admits(limits) && Welcome(limits, p) && (p.chunkSize == 128 || |m.data| <= Min(128, p.chunkSize))
             && |m.data| <= MAX24 && |m.data| <= limits.maxMessageSize
    requires m.typeId != TYPE_SET_CHUNK_SIZE && m.typeId != TYPE_ABORT
    ensures var enc := EncoderAtEnd(NewEncoder, PreambleActions(p));
            && enc.chunkSize > 0
            && (ReceivedAs(Fresh(limits), Wire(Encode(enc, m, Compressed).value.1), m) <==>
                !(m.streamId == 0 && (CsidFor(m.typeId) == 2 || (p.done.Some? && CsidFor(m.typeId) == 6))))
  {
    hide ReceiveAll, HeaderBytes, NextFormat, PreambleActions;
    AfterPreamble(p);
    FreshSynced(limits);
    OutOfOrderExactly(Fresh(limits), EncoderAtEnd(NewEncoder, PreambleActions(p)), m);
  }

  /** An acknowledgement that a server sends before it answers the connect is such a message. */
  lemma AcknowledgementDies(limits: Limits, p: Preamble, sequence: u32, time: u32)
    requires |p.times| == 4 && 0 < p.chunkSize <= 0x7fff_ffff && (p.done.Some? ==> |p.done.value| <= MAX24)
    ensures var enc := EncoderAtEnd(NewEncoder, PreambleActions(p));
            && enc.chunkSize > 0
            && ReceiveAll(Fresh(limits),
                 Wire(Encode(enc, RawMessage(time, 3, 0, Be32(sequence)), Compressed).value.1)) ==
               Dead(NoPreviousChunk(2), [])
  {
    hide ReceiveAll, HeaderBytes, NextFormat, PreambleActions;
    AfterPreamble(p);
    UnseenDies(Fresh(limits), EncoderAtEnd(NewEncoder, PreambleActions(p)), RawMessage(time, 3, 0, Be32(sequence)),
        Compressed);
  }

  /** If the preamble leaves first, it and what follows are received. */
  lemma PreambleInOrder(limits: Limits, p: Preamble, m: RawMessage)
    requires Admits(limits) && Welcome(limits, p) && |m.data| <= limits.maxMessageSize
    requires m.typeId != TYPE_SET_CHUNK_SIZE && m.typeId != TYPE_ABORT
    ensures var actions := PreambleActions(p) + [Send(m, Compressed, true)];
            Yields(Fresh(limits), Transmitted(NewEncoder, actions), Messages(NewEncoder, actions))
  {
    hide ReceiveAll, Transmitted, Messages;
    var actions := PreambleActions(p) + [Send(m, Compressed, true)];
    PlainlyProper(NewEncoder, limits, actions);
    ConnectionRoundTrip(limits, actions);
  }

  // ----- the answer to a play request -----------------------------------------------------------------------

  /** Bodies and times of the five messages that answer a play request on a stream. */
  datatype PlayAnswer = PlayAnswer(id: u32, amf3: bool, times: seq<u32>, start: seq<byte>, access: seq<byte>,
          data: seq<byte>, reset: seq<byte>)

  function CommandType(a: PlayAnswer): byte {
    if a.amf3 then 17 else 20
  }

  function DataType(a: PlayAnswer): byte {
    if a.amf3 then 15 else 18
  }

  /** The time of the message that the reset status is compressed against: in AMF3 framing the data
      messages are on the chunk stream of commands as well. */
  function Latest(a: PlayAnswer): u32
    requires |a.times| == 5
  {
    if a.amf3 then a.times[3] else a.times[1]
  }

  function BeginOf(a: PlayAnswer): RawMessage
    requires |a.times| == 5
  {
    RawMessage(a.times[0], 4, a.id, [0, 0] + Be32(a.id))
  }

  function StartOf(a: PlayAnswer): RawMessage
    requires |a.times| == 5
  {
    RawMessage(a.times[1], CommandType(a), a.id, a.start)
  }

  function AccessOf(a: PlayAnswer): RawMessage
    requires |a.times| == 5
  {
    RawMessage(a.times[2], DataType(a), a.id, a.access)
  }

  function DataOf(a: PlayAnswer): RawMessage
    requires |a.times| == 5
  {
    RawMessage(a.times[3], DataType(a), a.id, a.data)
  }

  function ResetOf(a: PlayAnswer): RawMessage
    requires |a.times| == 5
  {
    RawMessage(a.times[4], CommandType(a), a.id, a.reset)
  }

  /** Every body fits. That of the start status describes the stream, so it is longer than the reset. */
  predicate Playable(limits: Limits, a: PlayAnswer) {
    && |a.times| == 5 && |a.reset| < |a.start| <= MAX24 && |a.start| <= limits.maxMessageSize
    && 6 <= limits.maxMessageSize
    && |a.access| <= MAX24 && |a.access| <= limits.maxMessageSize && |a.data| <= MAX24
    && |a.data| <= limits.maxMessageSize
  }

  /** What is emitted: encoded as begin, start, access, data, reset, but the reset leaves first. */
  function Emitted(enc: Encoder, a: PlayAnswer): seq<byte>
    requires |a.times| == 5 && enc.chunkSize > 0
    requires |a.start| <= MAX24 && |a.access| <= MAX24 && |a.data| <= MAX24 && |a.reset| <= MAX24
  {
    var e1 := Having(enc, BeginOf(a));
    var e2 := Having(e1, StartOf(a));
    var e3 := Having(e2, AccessOf(a));
    var e4 := Having(e3, DataOf(a));
    Bytes(e4, ResetOf(a)) + (Bytes(enc,
        BeginOf(a)) + (Bytes(e1, StartOf(a)) + (Bytes(e2, AccessOf(a)) + Bytes(e3, DataOf(a)))))
  }

  ghost predicate Yields(r: Receiver, bytes: seq<byte>, messages: seq<RawMessage>) {
    var s := ReceiveAll(r, bytes);
    s.Live? && s.messages == messages
  }

  /** What the first packet is taken for decides what the first message is. */
  lemma YieldsFirst(r: Receiver, a: seq<byte>, mid: Receiver, x: RawMessage, b: seq<byte>, y: RawMessage,
          ys: seq<RawMessage>)
    requires ReceiveAll(r, a) == Live(mid, [x])
    ensures Yields(r, a + b, [y] + ys) <==> x == y && Yields(mid, b, ys)
  {
    hide ReceiveAll;
    ReceiveConcat(r, a, b);
    var s := ReceiveAll(mid, b);
    assert ([x] + s.messages)[0] == x && ([x] + s.messages)[1..] == s.messages;
    assert ([y] + ys)[0] == y && ([y] + ys)[1..] == ys;
  }

  /** The header that `m` would be compressed against, if any, is on record. */
  ghost predicate OnRecord(r: Receiver, enc: Encoder, m: RawMessage) {
    var c := CsidFor(m.typeId);
    c in enc.slots && !enc.slots[c].droppable ==> enc.slots[c].csid == c && RoundTrip.Recorded(r.parser, enc.slots[c])
  }

  predicate Ordinarily(r: Receiver, m: RawMessage) {
    |m.data| <= MAX24 && |m.data| <= r.parser.limits.maxMessageSize && m.typeId != TYPE_SET_CHUNK_SIZE
        && m.typeId != TYPE_ABORT
  }

  ghost function Hearing(r: Receiver, enc: Encoder, m: RawMessage): Receiver
    requires |m.data| <= MAX24
  {
    Delivered(r, NextHeader(enc, m, Compressed), m)
  }

  lemma InTurn(r: Receiver, enc: Encoder, m: RawMessage)
    requires Resting(r) && enc.chunkSize == r.parser.chunkSize && OnRecord(r, enc, m) && Ordinarily(r, m)
    ensures ReceiveAll(r, Bytes(enc, m)) == Live(Hearing(r, enc, m), [m])
  {
    hide HeaderBytes, ReceiveAll;
    var h, fmt := NextHeader(enc, m, Compressed), NextFormat(enc, m, Compressed);
    if Compressible(enc, m, Compressed) {
      WrapBack(m.timestamp, enc.slots[h.csid].timestamp);
    }
    ImageCrosses(r, h, fmt, 3, m);
  }

  /** A message changes the record and the slot of its own chunk stream, and nothing else. */
  lemma ElsewhereSame(r: Receiver, enc: Encoder, m: RawMessage)
    requires Resting(r) && |m.data| <= MAX24
    ensures var r', enc' := Hearing(r, enc, m), Having(enc, m);
            && Resting(r') && r'.parser.chunkSize == r.parser.chunkSize && enc'.chunkSize == enc.chunkSize
            && r'.parser.limits == r.parser.limits
            && (forall c :: c != CsidFor(m.typeId) ==>
                  (c in r'.parser.streams <==> c in r.parser.streams)
                      && (c in r.parser.streams ==> r'.parser.streams[c] == r.parser.streams[c]))
            && (forall c :: c != CsidFor(m.typeId) ==>
                 (c in enc'.slots <==> c in enc.slots) && (c in enc.slots ==> enc'.slots[c] == enc.slots[c]))
            && CsidFor(m.typeId) in enc'.slots && enc'.slots[CsidFor(m.typeId)] == NextHeader(enc, m, Compressed)
            && RoundTrip.Recorded(r'.parser, NextHeader(enc, m, Compressed))
  {
    hide HeaderBytes;
  }

  /** The reset status as the first packet of a play answer. It is received without an error if there
      is a record on the chunk stream of commands: as a message of the stream of that record. */
  lemma ResetRead(r: Receiver, enc: Encoder, a: PlayAnswer)
    requires Synced(enc, r) && Playable(r.parser.limits, a)
    ensures var e := Having(Having(Having(Having(enc, BeginOf(a)), StartOf(a)), AccessOf(a)), DataOf(a));
            && e.chunkSize == enc.chunkSize && Compressible(e, ResetOf(a), Compressed)
            && NextFormat(e, ResetOf(a), Compressed) == 1
            && e.slots[6].timestamp == Latest(a)
            && (6 !in r.parser.streams ==> ReceiveAll(r, Bytes(e, ResetOf(a))) == Dead(NoPreviousChunk(6), []))
            && (6 in r.parser.streams ==>
                  && ReceiveAll(r, Bytes(e, ResetOf(a))) ==
                     Live(Delivered(r, NextHeader(e, ResetOf(a), Compressed), ReadAs(r, e, ResetOf(a))),
                         [ReadAs(r, e, ResetOf(a))])
                  && ReadAs(r, e, ResetOf(a)).streamId == r.parser.streams[6].header.streamId
                  && (ReadAs(r, e, ResetOf(a)) == ResetOf(a) <==>
                      r.parser.streams[6].header.streamId == a.id
                          && r.parser.streams[6].header.timestamp == Latest(a)))
  {
    hide HeaderBytes, ReceiveAll;
    var e1 := Having(enc, BeginOf(a));
    var e2 := Having(e1, StartOf(a));
    var e3 := Having(e2, AccessOf(a));
    var e := Having(e3, DataOf(a));
    assert e2.slots[6] == NextHeader(e1, StartOf(a), Compressed);
    if a.amf3 {
      assert e.slots[6] == NextHeader(e3, DataOf(a), Compressed);
    } else {
      assert e3.slots[6] == e2.slots[6] && e.slots[6] == e2.slots[6];
    }
    if 6 in r.parser.streams {
      DeltaReads(r, e, ResetOf(a));
      WrapExactly(r.parser.streams[6].header.timestamp, Latest(a), a.times[4]);
    } else {
      UnseenDies(r, e, ResetOf(a), Compressed);
    }
  }

  /** The two data messages at the end are received in any case. */
  lemma DataYields(r: Receiver, enc: Encoder, a: PlayAnswer)
    requires Resting(r) && enc.chunkSize == r.parser.chunkSize && Playable(r.parser.limits, a)
             && OnRecord(r, enc, AccessOf(a))
    ensures Yields(r, Bytes(enc, AccessOf(a)) + Bytes(Having(enc, AccessOf(a)), DataOf(a)), [AccessOf(a)] + [DataOf(a)])
  {
    hide ReceiveAll, HeaderBytes, Bytes;
    InTurn(r, enc, AccessOf(a));
    ElsewhereSame(r, enc, AccessOf(a));
    var r1, e1 := Hearing(r, enc, AccessOf(a)), Having(enc, AccessOf(a));
    InTurn(r1, e1, DataOf(a));
    YieldsFirst(r, Bytes(enc, AccessOf(a)), r1, AccessOf(a), Bytes(e1, DataOf(a)), AccessOf(a), [DataOf(a)]);
  }

  /** The start status behind a reset that was read as what it is. */
  lemma StartYields(r: Receiver, enc: Encoder, a: PlayAnswer)
    requires Resting(r) && enc.chunkSize == r.parser.chunkSize && Playable(r.parser.limits, a)
    requires 6 in r.parser.streams && r.parser.streams[6].header.streamId == a.id
             && r.parser.streams[6].header.timestamp == a.times[4]
    requires NextFormat(enc, StartOf(a), Compressed) <= 1
    requires !a.amf3 ==> OnRecord(r, Having(enc, StartOf(a)), AccessOf(a))
    requires Compressible(enc, StartOf(a), Compressed) ==> enc.slots[6].timestamp == Latest(a)
    ensures var e := Having(enc, StartOf(a));
            e.chunkSize > 0 &&
            (Yields(r, Bytes(enc, StartOf(a)) + (Bytes(e, AccessOf(a)) + Bytes(Having(e, AccessOf(a)), DataOf(a))),
                    [StartOf(a)] + ([AccessOf(a)] + [DataOf(a)]))
             <==> (Compressible(enc, StartOf(a), Compressed) ==> a.times[4] == Latest(a)))
  {
    hide ReceiveAll, HeaderBytes, Bytes, NextFormat, OnRecord;
    var m, e := StartOf(a), Having(enc, StartOf(a));
    var rest := Bytes(e, AccessOf(a)) + Bytes(Having(e, AccessOf(a)), DataOf(a));
    var h := NextHeader(enc, m, Compressed);
    var seen := if Compressible(enc, m, Compressed) then ReadAs(r, enc, m) else m;
    var mid := Delivered(r, h, seen);
    StartRead(r, enc, a);
    YieldsFirst(r, Bytes(enc, m), mid, seen, rest, m, [AccessOf(a)] + [DataOf(a)]);
    if seen == m {
      ElsewhereSame(r, enc, m);
      AccessOnRecord(r, mid, e, h, a);
      DataYields(mid, e, a);
    }
  }

  /** In AMF0 framing the data messages are elsewhere; in AMF3 framing they follow the start status. */
  lemma AccessOnRecord(r: Receiver, mid: Receiver, e: Encoder, h: ChunkHeader, a: PlayAnswer)
    requires |a.times| == 5 && 6 in e.slots && e.slots[6] == h && h.csid == 6 && RoundTrip.Recorded(mid.parser, h)
    requires !a.amf3 ==> OnRecord(r, e, AccessOf(a))
    requires 3 in r.parser.streams ==> 3 in mid.parser.streams && mid.parser.streams[3] == r.parser.streams[3]
    ensures OnRecord(mid, e, AccessOf(a))
  {
    if !a.amf3 {
      SameRecord(r, mid, e, AccessOf(a));
    }
  }

  lemma SameRecord(r: Receiver, r': Receiver, enc: Encoder, m: RawMessage)
    requires OnRecord(r, enc, m)
    requires CsidFor(m.typeId) in r.parser.streams ==>
               CsidFor(m.typeId) in r'.parser.streams
                   && r'.parser.streams[CsidFor(m.typeId)] == r.parser.streams[CsidFor(m.typeId)]
    ensures OnRecord(r', enc, m)
  {
  }

  lemma StartRead(r: Receiver, enc: Encoder, a: PlayAnswer)
    requires Resting(r) && enc.chunkSize == r.parser.chunkSize && Playable(r.parser.limits, a)
    requires 6 in r.parser.streams && r.parser.streams[6].header.streamId == a.id
             && r.parser.streams[6].header.timestamp == a.times[4]
    requires NextFormat(enc, StartOf(a), Compressed) <= 1
    requires Compressible(enc, StartOf(a), Compressed) ==> enc.slots[6].timestamp == Latest(a)
    ensures var m := StartOf(a);
            var seen := if Compressible(enc, m, Compressed) then ReadAs(r, enc, m) else m;
            && ReceiveAll(r, Bytes(enc, m)) == Live(Delivered(r, NextHeader(enc, m, Compressed), seen), [seen])
            && (seen == m <==> (Compressible(enc, m, Compressed) ==> a.times[4] == Latest(a)))
  {
    hide ReceiveAll, HeaderBytes;
    var m := StartOf(a);
    if Compressible(enc, m, Compressed) {
      DeltaReads(r, enc, m);
      WrapExactly(a.times[4], Latest(a), a.times[1]);
    } else {
      FullReads(r, enc, m, Compressed);
    }
  }

  /** The record is that of the reset status. */
  ghost predicate HasReset(r: Receiver, a: PlayAnswer)
    requires |a.times| == 5 && |a.reset| <= MAX24
  {
    && 6 in r.parser.streams
    && r.parser.streams[6].header == MessageHeader(6, a.times[4], CommandType(a), a.id, |a.reset|)
    && r.parser.streams[6].timeField == Sub32(a.times[4], Latest(a))
  }

  /** A start status whose header leaves out everything, against a record of the right time, carries no
      extended time, and none is expected. */
  predicate Reframed(enc: Encoder, a: PlayAnswer)
    requires |a.times| == 5 && |a.start| <= MAX24
  {
    NextFormat(enc, StartOf(a), Compressed) == 3 && enc.slots[6].timestamp == Latest(a) ==>
      Sub32(a.times[4], Latest(a)) < MAX24 && Sub32(a.times[1], Latest(a)) < MAX24
  }

  /** A start status whose header also leaves out its length is cut to that of the reset before it. */
  lemma TruncatedFails(r: Receiver, enc: Encoder, a: PlayAnswer, more: seq<byte>, later: seq<RawMessage>)
    requires Resting(r) && enc.chunkSize == r.parser.chunkSize && Playable(r.parser.limits, a) && HasReset(r, a)
    requires NextFormat(enc, StartOf(a), Compressed) >= 2 && enc.slots[6].timestamp == Latest(a) && Reframed(enc, a)
    ensures !Yields(r, Bytes(enc, StartOf(a)) + more, [StartOf(a)] + later)
  {
    hide ReceiveAll, HeaderBytes, Bytes;
    var seen, s, taken, rest := RecordReads(r, enc, StartOf(a));
    assert Bytes(enc, StartOf(a)) + more == taken + (rest + more);
    YieldsFirst(r, taken, s.receiver, seen, rest + more, StartOf(a), later);
  }

  /** The client's record on the chunk stream of commands is of the same stream and moment. */
  predicate Undisturbed(r: Receiver, enc: Encoder, a: PlayAnswer)
    requires |a.times| == 5 && |a.start| <= MAX24
  {
    && 6 in r.parser.streams && r.parser.streams[6].header.streamId == a.id
    && r.parser.streams[6].header.timestamp == Latest(a)
    && (Compressible(enc, StartOf(a), Compressed) ==>
         a.times[4] == Latest(a) && NextFormat(enc, StartOf(a), Compressed) == 1)
  }

  /** The exact condition for the answer as the server emits it: a client in step with the server's
      encoder receives the five messages if and only if what it last got on the chunk stream of
      commands was on the same stream and of the time that the reset status is compressed against,
      and was not as long as the start status if that is compressed against it. A client that plays
      a new stream got its number on stream 0. */
  lemma EmittedExactly(r: Receiver, enc: Encoder, a: PlayAnswer)
    requires Synced(enc, r) && Playable(r.parser.limits, a)
    requires Reframed(enc, a)
    ensures Yields(r, Emitted(enc, a),
            [ResetOf(a)] + ([BeginOf(a)] + ([StartOf(a)] + ([AccessOf(a)] + [DataOf(a)])))) <==>
            Undisturbed(r, enc, a)
  {
    hide ReceiveAll, HeaderBytes, Bytes, NextFormat, ReadAs, OnRecord;
    var e1 := Having(enc, BeginOf(a));
    var e2 := Having(e1, StartOf(a));
    var e3 := Having(e2, AccessOf(a));
    var e4 := Having(e3, DataOf(a));
    var tail := Bytes(e1, StartOf(a)) + (Bytes(e2, AccessOf(a)) + Bytes(e3, DataOf(a)));
    var rest := Bytes(enc, BeginOf(a)) + tail;
    ResetRead(r, enc, a);
    if 6 !in r.parser.streams {
      ReceiveConcat(r, Bytes(e4, ResetOf(a)), rest);
    } else {
      var seen := ReadAs(r, e4, ResetOf(a));
      var r1 := Delivered(r, NextHeader(e4, ResetOf(a), Compressed), seen);
      YieldsFirst(r, Bytes(e4, ResetOf(a)), r1, seen, rest, ResetOf(a),
          [BeginOf(a)] + ([StartOf(a)] + ([AccessOf(a)] + [DataOf(a)])));
      if seen == ResetOf(a) {
        AfterReset(r, r1, enc, e4, a);
        if NextFormat(enc, StartOf(a), Compressed) <= 1 {
          FormatCompressible(enc, StartOf(a));
          BeginYields(r1, enc, a, tail);
        } else {
          FormatCompressible(enc, StartOf(a));
          BeginFails(r1, enc, a, tail);
        }
      }
    }
  }

  /** After the reset was read right, everything but chunk stream 6 is as the encoder left it. */
  lemma AfterReset(r: Receiver, r1: Receiver, enc: Encoder, e4: Encoder, a: PlayAnswer)
    requires Synced(enc, r) && Playable(r.parser.limits, a)
             && r1 == Delivered(r, NextHeader(e4, ResetOf(a), Compressed), ResetOf(a))
    requires Compressible(e4, ResetOf(a), Compressed) && e4.slots[6].timestamp == Latest(a)
    ensures Resting(r1) && r1.parser.chunkSize == enc.chunkSize && r1.parser.limits == r.parser.limits
    ensures HasReset(r1, a)
    ensures OnRecord(r1, enc, BeginOf(a)) && (!a.amf3 ==> OnRecord(r1, enc, AccessOf(a)))
    ensures 6 in enc.slots && !enc.slots[6].droppable ==>
            6 in r.parser.streams && r.parser.streams[6].header.timestamp == enc.slots[6].timestamp
  {
  }

  lemma FormatCompressible(enc: Encoder, m: RawMessage)
    requires |m.data| <= MAX24
    ensures Compressible(enc, m, Compressed) <==> NextFormat(enc, m, Compressed) >= 1
  {
  }

  lemma BeginFails(r: Receiver, enc: Encoder, a: PlayAnswer, tail: seq<byte>)
    requires Resting(r) && r.parser.chunkSize == enc.chunkSize && Playable(r.parser.limits, a) && HasReset(r, a)
    requires OnRecord(r, enc, BeginOf(a)) && NextFormat(enc, StartOf(a), Compressed) >= 2
    requires enc.slots[6].timestamp == Latest(a) && Reframed(enc, a)
    requires var e1 := Having(enc, BeginOf(a)); var e2 := Having(e1, StartOf(a));
             tail == Bytes(e1, StartOf(a)) + (Bytes(e2, AccessOf(a)) + Bytes(Having(e2, AccessOf(a)), DataOf(a)))
    ensures !Yields(r, Bytes(enc, BeginOf(a)) + tail, [BeginOf(a)] + ([StartOf(a)] + ([AccessOf(a)] + [DataOf(a)])))
  {
    hide ReceiveAll, HeaderBytes, Bytes;
    var e1 := Having(enc, BeginOf(a));
    var e2 := Having(e1, StartOf(a));
    var r1 := Hearing(r, enc, BeginOf(a));
    InTurn(r, enc, BeginOf(a));
    ElsewhereSame(r, enc, BeginOf(a));
    TruncatedFails(r1, e1, a, Bytes(e2, AccessOf(a)) + Bytes(Having(e2, AccessOf(a)), DataOf(a)),
        [AccessOf(a)] + [DataOf(a)]);
    YieldsFirst(r, Bytes(enc, BeginOf(a)), r1, BeginOf(a), tail, BeginOf(a),
        [StartOf(a)] + ([AccessOf(a)] + [DataOf(a)]));
  }

  lemma BeginYields(r: Receiver, enc: Encoder, a: PlayAnswer, tail: seq<byte>)
    requires Resting(r) && r.parser.chunkSize == enc.chunkSize && Playable(r.parser.limits, a)
    requires 6 in r.parser.streams && r.parser.streams[6].header.streamId == a.id
             && r.parser.streams[6].header.timestamp == a.times[4]
    requires OnRecord(r, enc, BeginOf(a)) && (!a.amf3 ==> OnRecord(r, enc, AccessOf(a)))
             && NextFormat(enc, StartOf(a), Compressed) <= 1
    requires Compressible(enc, StartOf(a), Compressed) ==> enc.slots[6].timestamp == Latest(a)
    requires var e1 := Having(enc, BeginOf(a)); var e2 := Having(e1, StartOf(a));
             tail == Bytes(e1, StartOf(a)) + (Bytes(e2, AccessOf(a)) + Bytes(Having(e2, AccessOf(a)), DataOf(a)))
    ensures Yields(r, Bytes(enc, BeginOf(a)) + tail, [BeginOf(a)] + ([StartOf(a)] + ([AccessOf(a)] + [DataOf(a)]))) <==>
            (Compressible(enc, StartOf(a), Compressed) ==> a.times[4] == Latest(a))
  {
    hide ReceiveAll, HeaderBytes, Bytes;
    var e1 := Having(enc, BeginOf(a));
    var r1 := Hearing(r, enc, BeginOf(a));
    InTurn(r, enc, BeginOf(a));
    ElsewhereSame(r, enc, BeginOf(a));
    ElsewhereSame(r1, e1, StartOf(a));
    YieldsFirst(r, Bytes(enc, BeginOf(a)), r1, BeginOf(a), tail, BeginOf(a),
        [StartOf(a)] + ([AccessOf(a)] + [DataOf(a)]));
    StartYields(r1, e1, a);
  }

  /** Encoded in the order in which they leave, the five are received by any client in step. */
  lemma PlayInOrder(r: Receiver, enc: Encoder, a: PlayAnswer)
    requires Synced(enc, r) && Playable(r.parser.limits, a)
    ensures var actions := [Send(ResetOf(a), Compressed, true), Send(BeginOf(a), Compressed, true),
            Send(StartOf(a), Compressed, true),
                            Send(AccessOf(a), Compressed, true), Send(DataOf(a), Compressed, true)];
            enc.chunkSize > 0 && Yields(r, Transmitted(enc, actions),
                [ResetOf(a), BeginOf(a), StartOf(a), AccessOf(a), DataOf(a)])
  {
    hide ReceiveAll, Transmitted, HeaderBytes, NextFormat;
    var ms := [ResetOf(a), BeginOf(a), StartOf(a), AccessOf(a), DataOf(a)];
    var actions := [Send(ms[0], Compressed, true), Send(ms[1], Compressed, true), Send(ms[2], Compressed, true),
                    Send(ms[3], Compressed, true), Send(ms[4], Compressed, true)];
    PlainlyProper(enc, r.parser.limits, actions);
    RunRoundTrip(enc, r, actions);
    SentAll(enc, actions, ms);
  }

  lemma {:induction false} SentAll(enc: Encoder, actions: seq<Action>, ms: seq<RawMessage>)
    requires |actions| == |ms| && forall i :: 0 <= i < |ms| ==>
             actions[i] == Send(ms[i], Compressed, true) && |ms[i].data| <= MAX24
    ensures Messages(enc, actions) == ms
    decreases |ms|
  {
    hide HeaderBytes, NextFormat;
    if ms != [] {
      SentAll(EncoderAfter(enc, actions[0]), actions[1..], ms[1..]);
      assert ms == [ms[0]] + ms[1..];
    }
  }
}
