/** What a client decodes after it has received the answer to a play request. Its record of the chunk
    stream of commands is then not the one the server goes on from: that is of the reset status, which
    was encoded last and left first. */
module AfterPlay {
  import opened Base
  import opened ChunkMachine
  import opened MessageMachine
  import opened ChunkEncoderModule
  import opened RoundTrip
  import opened Overtaking

  // ----- in step but for the chunk stream of commands -----------------------------------------------------

  /** The encoder as if it had sent nothing on chunk stream 6. */
  function Forget(enc: Encoder): Encoder {
    enc.(slots := enc.slots - {6})
  }

  /** The two sides are in step everywhere but on chunk stream 6. */
  ghost predicate Aside(enc: Encoder, r: Receiver) {
    Synced(Forget(enc), r)
  }

  lemma AsideHears(enc: Encoder, r: Receiver, m: RawMessage)
    requires Aside(enc, r) && |m.data| <= MAX24
    ensures Aside(Having(enc, m), Hearing(r, enc, m)) && Hearing(r, enc, m).parser.limits == r.parser.limits
  {
    hide HeaderBytes, NextFormat;
    ElsewhereSame(r, enc, m);
    var enc', r' := Having(enc, m), Hearing(r, enc, m);
    forall c | c in Forget(enc').slots
      ensures enc'.slots[c].csid == c && (!enc'.slots[c].droppable ==> RoundTrip.Recorded(r'.parser, enc'.slots[c]))
    {
      if c != CsidFor(m.typeId) {
        assert enc'.slots[c] == Forget(enc).slots[c];
      }
    }
  }

  lemma AsideEncodes(enc: Encoder, r: Receiver, m: RawMessage)
    requires Aside(enc, r) && |m.data| <= MAX24 && CsidFor(m.typeId) == 6
    ensures Aside(Having(enc, m), r)
  {
    hide HeaderBytes, NextFormat;
    ElsewhereSame(r, enc, m);
    forall c | c in Forget(Having(enc, m)).slots
      ensures c in Forget(enc).slots && Having(enc, m).slots[c] == Forget(enc).slots[c]
    {
    }
  }

  lemma AsideReads(enc: Encoder, r: Receiver, other: Encoder, m: RawMessage)
    requires Aside(enc, r) && |m.data| <= MAX24 && CsidFor(m.typeId) == 6
    ensures Aside(enc, Hearing(r, other, m)) && Hearing(r, other, m).parser.limits == r.parser.limits
    ensures Hearing(r, other, m).parser.streams[6].header ==
            MessageHeader(6, m.timestamp, m.typeId, m.streamId, |m.data|)
  {
    hide HeaderBytes, NextFormat;
    ElsewhereSame(r, other, m);
    var r' := Hearing(r, other, m);
    forall c | c in Forget(enc).slots && !Forget(enc).slots[c].droppable
      ensures RoundTrip.Recorded(r'.parser, Forget(enc).slots[c])
    {
      assert RoundTrip.Recorded(r.parser, Forget(enc).slots[c]);
    }
  }

  /** Elsewhere, the next message is received. */
  lemma AsideTurn(enc: Encoder, r: Receiver, m: RawMessage)
    requires Aside(enc, r) && Ordinarily(r, m) && CsidFor(m.typeId) != 6
    ensures enc.chunkSize > 0 && ReceiveAll(r, Bytes(enc, m)) == Live(Hearing(r, enc, m), [m])
  {
    hide ReceiveAll, Bytes, HeaderBytes, NextFormat;
    var c := CsidFor(m.typeId);
    assert c in enc.slots ==> c in Forget(enc).slots && enc.slots[c] == Forget(enc).slots[c];
    InTurn(r, enc, m);
  }

  // ----- the answer, packet by packet ---------------------------------------------------------------------

  lemma ThenReceives(r: Receiver, a: seq<byte>, mid: Receiver, x: RawMessage, b: seq<byte>, last: Receiver,
          ys: seq<RawMessage>)
    requires ReceiveAll(r, a) == Live(mid, [x]) && ReceiveAll(mid, b) == Live(last, ys)
    ensures ReceiveAll(r, a + b) == Live(last, [x] + ys)
  {
    hide ReceiveAll;
    ReceiveConcat(r, a, b);
  }

  lemma SyncedAside(enc: Encoder, r: Receiver)
    requires Synced(enc, r)
    ensures Aside(enc, r)
  {
  }

  /** The two data messages, and what is then on record for commands. */
  lemma DataTaken(r: Receiver, enc: Encoder, a: PlayAnswer) returns (last: Receiver)
    requires Aside(enc, r) && Playable(r.parser.limits, a) && 6 in r.parser.streams && OnRecord(r, enc, AccessOf(a))
    ensures enc.chunkSize > 0
    ensures ReceiveAll(r, Bytes(enc, AccessOf(a)) + Bytes(Having(enc, AccessOf(a)), DataOf(a))) ==
            Live(last, [AccessOf(a)] + [DataOf(a)])
    ensures Aside(Having(Having(enc, AccessOf(a)), DataOf(a)), last) && last.parser.limits == r.parser.limits
    ensures 6 in last.parser.streams
    ensures last.parser.streams[6].header ==
            if a.amf3 then MessageHeader(6, a.times[3], DataType(a), a.id, |a.data|) else r.parser.streams[6].header
  {
    hide ReceiveAll, HeaderBytes, Bytes, NextFormat, Aside;
    var e1, r1 := Having(enc, AccessOf(a)), Hearing(r, enc, AccessOf(a));
    AsideResting(enc, r);
    InTurn(r, enc, AccessOf(a));
    ElsewhereSame(r, enc, AccessOf(a));
    AsideHears(enc, r, AccessOf(a));
    InTurn(r1, e1, DataOf(a));
    ElsewhereSame(r1, e1, DataOf(a));
    AsideHears(e1, r1, DataOf(a));
    last := Hearing(r1, e1, DataOf(a));
    ThenReceives(r, Bytes(enc, AccessOf(a)), r1, AccessOf(a), Bytes(e1, DataOf(a)), last, [DataOf(a)]);
  }

  lemma AsideResting(enc: Encoder, r: Receiver)
    requires Aside(enc, r)
    ensures Resting(r) && r.parser.chunkSize == enc.chunkSize > 0
  {
  }

  /** The start status, read as what it is, and the data messages. */
  lemma StartTaken(r: Receiver, enc: Encoder, a: PlayAnswer) returns (last: Receiver)
    requires Aside(enc, r) && Playable(r.parser.limits, a)
    requires 6 in r.parser.streams && r.parser.streams[6].header.streamId == a.id
             && r.parser.streams[6].header.timestamp == a.times[4] && NextFormat(enc, StartOf(a), Compressed) <= 1
    requires Compressible(enc, StartOf(a), Compressed) ==>
             enc.slots[6].timestamp == Latest(a) && a.times[4] == Latest(a)
    ensures var e := Having(enc, StartOf(a));
            && enc.chunkSize > 0 && e.chunkSize > 0
            && ReceiveAll(r, Bytes(enc,
                 StartOf(a)) + (Bytes(e, AccessOf(a)) + Bytes(Having(e, AccessOf(a)), DataOf(a)))) ==
               Live(last, [StartOf(a)] + ([AccessOf(a)] + [DataOf(a)]))
            && Aside(Having(Having(e, AccessOf(a)), DataOf(a)), last)
    ensures last.parser.limits == r.parser.limits && 6 in last.parser.streams
    ensures last.parser.streams[6].header ==
            if a.amf3 then MessageHeader(6, a.times[3], DataType(a), a.id, |a.data|)
            else MessageHeader(6, a.times[1], CommandType(a), a.id, |a.start|)
  {
    hide ReceiveAll, HeaderBytes, Bytes, NextFormat, OnRecord, Aside;
    var m, e := StartOf(a), Having(enc, StartOf(a));
    AsideResting(enc, r);
    StartRead(r, enc, a);
    var mid := Hearing(r, enc, m);
    ElsewhereSame(r, enc, m);
    AsideHears(enc, r, m);
    NextOnRecord(e, mid, NextHeader(enc, m, Compressed), a);
    last := DataTaken(mid, e, a);
    ThenReceives(r, Bytes(enc, m), mid, m, Bytes(e, AccessOf(a)) + Bytes(Having(e, AccessOf(a)), DataOf(a)), last,
        [AccessOf(a)] + [DataOf(a)]);
  }

  lemma NextOnRecord(enc: Encoder, r: Receiver, h: ChunkHeader, a: PlayAnswer)
    requires Aside(enc, r) && |a.times| == 5 && 6 in enc.slots && enc.slots[6] == h && h.csid == 6
             && RoundTrip.Recorded(r.parser, h)
    ensures OnRecord(r, enc, AccessOf(a))
  {
    var c := CsidFor(AccessOf(a).typeId);
    assert c != 6 && c in enc.slots ==> c in Forget(enc).slots && enc.slots[c] == Forget(enc).slots[c];
  }

  /** The encoder after the answer. */
  function Answered(enc: Encoder, a: PlayAnswer): Encoder
    requires |a.times| == 5
  {
    Having(Having(Having(Having(Having(enc, BeginOf(a)), StartOf(a)), AccessOf(a)), DataOf(a)), ResetOf(a))
  }

  /** What a client has on record for commands once it has the answer. */
  function LastCommand(a: PlayAnswer): MessageHeader
    requires |a.times| == 5
  {
    if a.amf3 then MessageHeader(6, a.times[3], DataType(a), a.id, |a.data|)
    else MessageHeader(6, a.times[1], CommandType(a), a.id, |a.start|)
  }

  /** What is in force once the answer has been received: the two sides are in step everywhere but on the
      chunk stream of commands, where they have different messages on record. */
  ghost predicate Played(enc: Encoder, r: Receiver, a: PlayAnswer)
    requires |a.times| == 5
  {
    && Aside(enc, r) && 6 in r.parser.streams && r.parser.streams[6].header == LastCommand(a)
    && 6 in enc.slots && enc.slots[6].timestamp == a.times[4] && enc.slots[6].typeId == CommandType(a)
    && enc.slots[6].streamId == a.id && enc.slots[6].length == |a.reset| && !enc.slots[6].droppable
  }

  lemma BeginTaken(r: Receiver, enc: Encoder, a: PlayAnswer) returns (last: Receiver)
    requires Aside(enc, r) && Playable(r.parser.limits, a)
    requires 6 in r.parser.streams && r.parser.streams[6].header.streamId == a.id
             && r.parser.streams[6].header.timestamp == a.times[4] && NextFormat(enc, StartOf(a), Compressed) <= 1
    requires Compressible(enc, StartOf(a), Compressed) ==>
             enc.slots[6].timestamp == Latest(a) && a.times[4] == Latest(a)
    ensures var e1 := Having(enc, BeginOf(a));
            var e2 := Having(e1, StartOf(a));
            && enc.chunkSize > 0 && e1.chunkSize > 0 && e2.chunkSize > 0
            && ReceiveAll(r, Bytes(enc, BeginOf(a)) + (Bytes(e1, StartOf(a)) + (Bytes(e2, AccessOf(a))
                 + Bytes(Having(e2, AccessOf(a)), DataOf(a))))) ==
               Live(last, [BeginOf(a)] + ([StartOf(a)] + ([AccessOf(a)] + [DataOf(a)])))
            && Aside(Having(Having(e2, AccessOf(a)), DataOf(a)), last)
    ensures last.parser.limits == r.parser.limits && 6 in last.parser.streams
    ensures last.parser.streams[6].header == LastCommand(a)
  {
    hide ReceiveAll, HeaderBytes, Bytes, Aside;
    var e1, r1 := Having(enc, BeginOf(a)), Hearing(r, enc, BeginOf(a));
    AsideResting(enc, r);
    AsideTurn(enc, r, BeginOf(a));
    ElsewhereSame(r, enc, BeginOf(a));
    AsideHears(enc, r, BeginOf(a));
    last := StartTaken(r1, e1, a);
    var e2 := Having(e1, StartOf(a));
    ThenReceives(r, Bytes(enc, BeginOf(a)), r1, BeginOf(a),
        Bytes(e1, StartOf(a)) + (Bytes(e2, AccessOf(a)) + Bytes(Having(e2, AccessOf(a)), DataOf(a))), last,
        [StartOf(a)] + ([AccessOf(a)] + [DataOf(a)]));
  }

  /** A client that receives the answer. */
  lemma AnswerTaken(r: Receiver, enc: Encoder, a: PlayAnswer) returns (last: Receiver)
    requires Synced(enc, r) && Playable(r.parser.limits, a) && Undisturbed(r, enc, a)
    ensures enc.chunkSize > 0
    ensures ReceiveAll(r, Emitted(enc, a)) ==
            Live(last, [ResetOf(a)] + ([BeginOf(a)] + ([StartOf(a)] + ([AccessOf(a)] + [DataOf(a)]))))
    ensures Played(Answered(enc, a), last, a) && last.parser.limits == r.parser.limits
  {
    hide ReceiveAll, HeaderBytes, Bytes, Aside, NextFormat, ReadAs;
    var e1 := Having(enc, BeginOf(a));
    var e2 := Having(e1, StartOf(a));
    var e3 := Having(e2, AccessOf(a));
    var e4 := Having(e3, DataOf(a));
    SyncedAside(enc, r);
    ResetRead(r, enc, a);
    var r1 := Hearing(r, e4, ResetOf(a));
    AsideReads(enc, r, e4, ResetOf(a));
    AfterReset(r, r1, enc, e4, a);
    FormatCompressible(enc, StartOf(a));
    last := BeginTaken(r1, enc, a);
    AsideEncodes(e4, last, ResetOf(a));
    ResetSlot(e4, a);
    ThenReceives(r, Bytes(e4, ResetOf(a)), r1, ResetOf(a),
        Bytes(enc, BeginOf(a)) + (Bytes(e1, StartOf(a)) + (Bytes(e2, AccessOf(a)) + Bytes(e3, DataOf(a)))), last,
        [BeginOf(a)] + ([StartOf(a)] + ([AccessOf(a)] + [DataOf(a)])));
  }

  lemma ResetSlot(enc: Encoder, a: PlayAnswer)
    requires |a.times| == 5 && |a.reset| <= MAX24
    ensures var slots := Having(enc, ResetOf(a)).slots;
            && 6 in slots && slots[6].timestamp == a.times[4] && slots[6].typeId == CommandType(a)
            && slots[6].streamId == a.id && slots[6].length == |a.reset| && !slots[6].droppable
  {
    hide HeaderBytes, NextFormat;
  }

  // ----- what is received then ------------------------------------------------------------------------------

  /** The exact condition for the next message on the chunk stream of commands: it is received if and only
      if its header is full, or it only leaves out the stream and the five messages were stamped alike. */
  lemma NextCommand(r: Receiver, enc: Encoder, a: PlayAnswer, m: RawMessage)
    requires Playable(r.parser.limits, a) && Played(enc, r, a) && Ordinarily(r, m) && CsidFor(m.typeId) == 6
             && Framed(r, enc, m)
    ensures enc.chunkSize > 0
    ensures ReceivedAs(r, Bytes(enc, m), m) <==>
            !Compressible(enc, m, Compressed) || (a.times[4] == Latest(a) && NextFormat(enc, m, Compressed) == 1)
  {
    hide ReceivedAs, HeaderBytes, Wire, Aside;
    AsideResting(enc, r);
    OutOfOrderExactly(r, enc, m);
    WrapExactly(Latest(a), a.times[4], m.timestamp);
  }

  /** With that message the two sides are in step again. */
  lemma BackInStep(r: Receiver, enc: Encoder, a: PlayAnswer, m: RawMessage)
    requires Playable(r.parser.limits, a) && Played(enc, r, a) && Ordinarily(r, m) && CsidFor(m.typeId) == 6
    requires !Compressible(enc, m, Compressed) || (a.times[4] == Latest(a) && NextFormat(enc, m, Compressed) == 1)
    ensures enc.chunkSize > 0 && ReceiveAll(r, Bytes(enc, m)) == Live(Hearing(r, enc, m), [m])
    ensures Synced(Having(enc, m), Hearing(r, enc, m))
  {
    hide ReceiveAll, HeaderBytes, Wire;
    AsideResting(enc, r);
    if Compressible(enc, m, Compressed) {
      WrapExactly(Latest(a), a.times[4], m.timestamp);
      DeltaReads(r, enc, m);
    } else {
      FullReads(r, enc, m, Compressed);
    }
    AsideHears(enc, r, m);
    ElsewhereSame(r, enc, m);
    var enc', r' := Having(enc, m), Hearing(r, enc, m);
    forall c | c in enc'.slots
      ensures enc'.slots[c].csid == c && (!enc'.slots[c].droppable ==> RoundTrip.Recorded(r'.parser, enc'.slots[c]))
    {
      assert c != 6 ==> c in Forget(enc').slots && enc'.slots[c] == Forget(enc').slots[c];
    }
  }

  /** None of the messages is on the chunk stream of commands. */
  predicate Elsewhere(actions: seq<Action>) {
    forall i :: 0 <= i < |actions| ==> CsidFor(MessageOf(actions[i]).typeId) != 6
  }

  /** Two encoders that differ on chunk stream 6 at most. */
  predicate Agree(enc: Encoder, other: Encoder) {
    enc.chunkSize == other.chunkSize && enc.slots - {6} == other.slots - {6}
  }

  lemma AgreeSlots(enc: Encoder, other: Encoder, c: nat)
    requires Agree(enc, other) && c != 6
    ensures (c in enc.slots <==> c in other.slots) && (c in enc.slots ==> enc.slots[c] == other.slots[c])
  {
    assert c in enc.slots <==> c in enc.slots - {6};
    assert c in other.slots <==> c in other.slots - {6};
  }

  lemma AgreeStep(enc: Encoder, other: Encoder, a: Action)
    requires Agree(enc, other) && CsidFor(MessageOf(a).typeId) != 6
    ensures Perform(enc, a).Ok? <==> Perform(other, a).Ok?
    ensures Perform(enc, a).Ok? ==> Perform(enc, a).value.1 == Perform(other, a).value.1
    ensures Agree(EncoderAfter(enc, a), EncoderAfter(other, a))
    ensures 6 in other.slots <==> 6 in EncoderAfter(other, a).slots
    ensures 6 in other.slots ==> EncoderAfter(other, a).slots[6] == other.slots[6]
  {
    hide HeaderBytes;
    var m := MessageOf(a);
    AgreeSlots(enc, other, CsidFor(m.typeId));
    if Perform(enc, a).Ok? {
      var h := NextHeader(enc, m, if a.Send? then a.options else Options(true, false));
      SetElsewhere(enc.slots, CsidFor(m.typeId), h);
      SetElsewhere(other.slots, CsidFor(m.typeId), h);
    }
  }

  lemma SetElsewhere(slots: map<nat, ChunkHeader>, c: nat, h: ChunkHeader)
    requires c != 6
    ensures slots[c := h] - {6} == (slots - {6})[c := h]
  {
  }

  lemma {:induction false} AgreeRun(enc: Encoder, other: Encoder, limits: Limits, actions: seq<Action>)
    requires Agree(enc, other) && Elsewhere(actions) && enc.chunkSize > 0
    ensures Transmitted(enc, actions) == Transmitted(other, actions)
            && Messages(enc, actions) == Messages(other, actions)
    ensures ProperRun(enc, limits, actions) <==> ProperRun(other, limits, actions)
    ensures var last := EncoderAtEnd(other, actions);
            && Agree(EncoderAtEnd(enc, actions), last) && (6 in other.slots <==> 6 in last.slots)
            && (6 in other.slots ==> last.slots[6] == other.slots[6])
    decreases |actions|
  {
    hide Perform, Wire;
    if actions != [] {
      AgreeStep(enc, other, actions[0]);
      ActionKeepsSize(enc, actions[0]);
      ActionKeepsSize(other, actions[0]);
      AgreeRun(EncoderAfter(enc, actions[0]), EncoderAfter(other, actions[0]), limits, actions[1..]);
    }
  }

  /** The encoder as if it went on from what the client has on record. */
  ghost function Level(enc: Encoder, r: Receiver, a: PlayAnswer): Encoder
    requires Playable(r.parser.limits, a) && 6 in r.parser.streams
  {
    var h := LastCommand(a);
    enc.(slots := enc.slots[6 := ChunkHeader(6, h.timestamp, r.parser.streams[6].timeField, h.length, h.typeId,
                                             h.streamId, false)])
  }

  lemma LevelSynced(enc: Encoder, r: Receiver, a: PlayAnswer)
    requires Playable(r.parser.limits, a) && Played(enc, r, a)
    ensures Synced(Level(enc, r, a), r) && Agree(enc, Level(enc, r, a)) && enc.chunkSize > 0
  {
    var other := Level(enc, r, a);
    forall c | c in other.slots
      ensures other.slots[c].csid == c && (!other.slots[c].droppable ==> RoundTrip.Recorded(r.parser, other.slots[c]))
    {
      assert c != 6 ==> c in Forget(enc).slots && other.slots[c] == Forget(enc).slots[c];
    }
  }

  lemma StillPlayed(enc: Encoder, other: Encoder, h: ChunkHeader, r: Receiver, a: PlayAnswer)
    requires |a.times| == 5 && Agree(enc, other) && Synced(other, r) && 6 in other.slots && other.slots[6] == h
    requires !h.droppable && MessageHeader(6, h.timestamp, h.typeId, h.streamId, h.length) == LastCommand(a)
    requires 6 in enc.slots && enc.slots[6].timestamp == a.times[4] && enc.slots[6].typeId == CommandType(a)
             && enc.slots[6].streamId == a.id && enc.slots[6].length == |a.reset| && !enc.slots[6].droppable
    ensures Played(enc, r, a)
  {
    forall c | c in Forget(enc).slots
      ensures Forget(enc).slots[c].csid == c
              && (!Forget(enc).slots[c].droppable ==> RoundTrip.Recorded(r.parser, Forget(enc).slots[c]))
    {
      AgreeSlots(enc, other, c);
    }
  }

  /** Whatever is sent on other chunk streams is received, and changes nothing for the commands. */
  lemma OthersReceived(enc: Encoder, r: Receiver, a: PlayAnswer, actions: seq<Action>)
    requires Playable(r.parser.limits, a) && Played(enc, r, a)
    requires Elsewhere(actions) && ProperRun(enc, r.parser.limits, actions)
    ensures enc.chunkSize > 0
    ensures var s := ReceiveAll(r, Transmitted(enc, actions));
            && s.Live? && s.messages == Messages(enc, actions) && s.receiver.parser.limits == r.parser.limits
            && Played(EncoderAtEnd(enc, actions), s.receiver, a)
  {
    hide ReceiveAll, Transmitted, Messages, ProperRun, EncoderAtEnd, Synced, Aside;
    var other := Level(enc, r, a);
    LevelSynced(enc, r, a);
    AgreeRun(enc, other, r.parser.limits, actions);
    AgreeBack(enc, other);
    AgreeRun(other, enc, r.parser.limits, actions);
    RunRoundTrip(other, r, actions);
    var s := ReceiveAll(r, Transmitted(enc, actions));
    StillPlayed(EncoderAtEnd(enc, actions), EncoderAtEnd(other, actions), other.slots[6], s.receiver, a);
  }

  lemma AgreeBack(enc: Encoder, other: Encoder)
    requires Agree(enc, other)
    ensures Agree(other, enc)
  {
  }
}
