/** What a client makes of the two answers that a server does not hand out in the order in which it
    encoded them: whatever overtakes the preamble, and the answer to a play request. */
module ServerPeer {
  import opened Base
  import opened ChunkMachine
  import opened MessageMachine
  import opened ChunkEncoderModule
  import opened RoundTrip
  import opened SentLog
  import opened Outputs
  import opened Overtaking
  import opened ServerProtocol
  import opened ServerRuns

  lemma MadeFirst(enc: Encoder, acts: seq<Action>)
    requires AllMade(enc, acts) && acts != []
    ensures Perform(enc, acts[0]).Ok? && AllMade(EncoderAfter(enc, acts[0]), acts[1..])
    ensures MadeBy(enc, acts) == [Perform(enc, acts[0]).value.1] + MadeBy(EncoderAfter(enc, acts[0]), acts[1..])
  {
    hide Perform;
  }

  // ----- the preamble -------------------------------------------------------------------------------------

  /** What a session is created with is the preamble. */
  lemma OpeningIsPreamble(config: Config, o: Origin) returns (p: Preamble)
    requires Opening(config, o)
    ensures |p.times| == 4 && o.acts == PreambleActions(p) && p.chunkSize == config.chunkSize
    ensures 0 < p.chunkSize <= 0x7fff_ffff && (p.done.Some? ==> |p.done.value| <= MAX24)
    ensures p.done.Some? <==> config.bwDone
  {
    hide HeaderBytes, NextFormat, NextHeader;
    var acts := o.acts;
    var last := if config.bwDone then acts[4].m.timestamp else 0;
    var done := if config.bwDone then Some(acts[4].m.data) else None;
    p := Preamble(config.chunkSize, config.windowSize, config.bandwidth, done,
                  [acts[1].m.timestamp, acts[2].m.timestamp, acts[3].m.timestamp, last]);
    assert acts == PreambleActions(p);
    MadeFirst(NewEncoder, acts);
    if config.bwDone {
      MadeLast(NewEncoder, acts);
    }
  }

  lemma {:induction false} MadeLast(enc: Encoder, acts: seq<Action>)
    requires AllMade(enc, acts) && acts != [] && acts[|acts| - 1].Send?
    ensures |acts[|acts| - 1].m.data| <= MAX24
    decreases |acts|
  {
    hide HeaderBytes, NextFormat, NextHeader;
    if |acts| > 1 {
      assert acts[1..][|acts| - 2] == acts[|acts| - 1];
      MadeLast(EncoderAfter(enc, acts[0]), acts[1..]);
    }
  }

  /** Nothing has been encoded behind the preamble. */
  ghost predicate Idle(journal: Journal) {
    forall k :: 0 <= k < |journal| ==> journal[k].acts == []
  }

  lemma {:induction false} IdleSends(config: Config, o: Origin, journal: Journal)
    requires Sound(config, o, journal) && Idle(journal)
    ensures PacketsIn(Outs(journal)) == [] && EncoderAt(o, journal, |journal|) == EncoderAtEnd(NewEncoder, o.acts)
    decreases |journal|
  {
    hide Follows, Sound;
    if journal != [] {
      var n := |journal| - 1;
      PrefixSound(config, o, journal, n);
      LastStep(config, o, journal);
      IdleSends(config, o, journal[..n]);
      IdleStep(config, At(o, journal, n), journal[n]);
      PacketsConcat(Outs(journal[..n]), journal[n].outs);
    }
  }

  lemma IdleStep(config: Config, a: Model, r: Record)
    requires Follows(config, a, r) && r.acts == []
    ensures PacketsIn(r.outs) == []
  {
    hide HandleOf, Without, Carries, Reacts, Plays;
    if r.cause.Hear? {
      HearShape(config, a, r);
    }
    if r.outs != [] {
      assert r.outs == [r.outs[0]];
      PacketsOne(r.outs[0]);
    }
  }

  /** A client that has sent a window of bytes before its connection is decided gets an acknowledgement
      as its first packet, and cannot read it. */
  lemma AcknowledgedTooSoon(config: Config, o: Origin, journal: Journal, n: nat, limits: Limits)
    requires Sound(config, o, journal) && n < |journal| && Idle(journal[..n]) && journal[n].cause.Take?
             && journal[n].acts != []
    ensures |journal[n].plans| == 1 && PacketsIn(Outs(journal[..n + 1])) == journal[n].plans
            && journal[n].plans[0].chunkSize > 0
    ensures ReceiveAll(Fresh(limits), Wire(journal[n].plans[0])) == Dead(NoPreviousChunk(2), [])
  {
    hide ReceiveAll, Sound, Wire, HeaderBytes, NextFormat, NextHeader, PreambleActions;
    var first, r := journal[..n + 1], journal[n];
    assert first[..n] == journal[..n];
    PrefixSound(config, o, journal, n + 1);
    PrefixSound(config, o, journal, n);
    LastStep(config, o, first);
    IdleSends(config, o, journal[..n]);
    PacketsConcat(Outs(journal[..n]), r.outs);
    PacketsOne<ServerEvent>(PacketOut(r.plans[0]));
    var p := PreambleOf(config, o, journal);
    var enc := EncoderAtEnd(NewEncoder, o.acts);
    AcknowledgementOf(config, At(o, first, n), r);
    MadeFirst(enc, r.acts);
    var sequence: u32 :| r.acts[0].m.data == Be32(sequence);
    AcknowledgementDies(limits, p, sequence, r.acts[0].m.timestamp);
    assert r.acts[0].m == RawMessage(r.acts[0].m.timestamp, 3, 0, Be32(sequence));
  }

  lemma PreambleOf(config: Config, o: Origin, journal: Journal) returns (p: Preamble)
    requires Sound(config, o, journal)
    ensures |p.times| == 4 && o.acts == PreambleActions(p) && p.chunkSize == config.chunkSize
    ensures 0 < p.chunkSize <= 0x7fff_ffff && (p.done.Some? ==> |p.done.value| <= MAX24)
  {
    hide Opening, IsRun;
    p := OpeningIsPreamble(config, o);
  }

  lemma AcknowledgementOf(config: Config, a: Model, r: Record)
    requires Follows(config, a, r) && r.cause.Take? && r.acts != []
    ensures |r.acts| == 1 && |r.plans| == 1 && r.outs == [PacketOut(r.plans[0])]
    ensures exists sequence: u32 :: Carries(r.acts[0], Acknowledge(sequence), 0)
  {
  }

  // ----- the answer to a play request ---------------------------------------------------------------------

  /** A play request on the stream is accepted and answered. */
  ghost predicate AnswersPlay(a: Model, r: Record, id: u32) {
    && AcceptsPlay(a, r) && !r.faltered && a.requests[r.cause.number].streamId == id
    && |r.acts| == 5 && (forall i :: 0 <= i < 5 ==> r.acts[i].Send?)
  }

  ghost function AnswerOf(a: Model, r: Record, id: u32): (answer: PlayAnswer)
    requires AnswersPlay(a, r, id)
    ensures |answer.times| == 5
  {
    PlayAnswer(id, r.acts[1].m.typeId == 17, [r.acts[0].m.timestamp, r.acts[1].m.timestamp, r.acts[2].m.timestamp,
        r.acts[3].m.timestamp, r.acts[4].m.timestamp],
               r.acts[1].m.data, r.acts[2].m.data, r.acts[3].m.data, r.acts[4].m.data)
  }

  lemma AnswerActs(config: Config, a: Model, r: Record, id: u32)
    requires Follows(config, a, r) && AnswersPlay(a, r, id) && id in a.active
    ensures var p := AnswerOf(a, r, id);
            r.acts == [Send(BeginOf(p), Compressed, true), Send(StartOf(p), Compressed, true),
                Send(AccessOf(p), Compressed, true),
                       Send(DataOf(p), Compressed, true), Send(ResetOf(p), Compressed, true)]
    ensures |r.plans| == 5 &&
            r.outs == [PacketOut(r.plans[4]), PacketOut(r.plans[0]), PacketOut(r.plans[1]), PacketOut(r.plans[2]),
                PacketOut(r.plans[3])]
  {
  }

  /** The bytes of these packets. */
  ghost function AllWires(plans: seq<Plan>): seq<byte>
    requires forall i :: 0 <= i < |plans| ==> plans[i].chunkSize > 0
  {
    if plans == [] then [] else Wire(plans[0]) + AllWires(plans[1..])
  }

  lemma FiveWires(p: seq<Plan>)
    requires |p| == 5 && forall i :: 0 <= i < 5 ==> p[i].chunkSize > 0
    ensures AllWires(p) == Wire(p[0]) + (Wire(p[1]) + (Wire(p[2]) + (Wire(p[3]) + Wire(p[4]))))
  {
    hide Wire;
    assert p[1..][1..] == p[2..] && p[2..][1..] == p[3..] && p[3..][1..] == p[4..] && p[4..][1..] == [];
    assert AllWires(p[4..]) == Wire(p[4]) + AllWires([]);
    assert AllWires(p[3..]) == Wire(p[3]) + AllWires(p[4..]);
    assert AllWires(p[2..]) == Wire(p[2]) + AllWires(p[3..]);
  }

  lemma FivePackets(p: seq<Plan>)
    requires |p| == 5
    ensures PacketsIn<ServerEvent>([PacketOut(p[0]), PacketOut(p[1]), PacketOut(p[2]), PacketOut(p[3]),
            PacketOut(p[4])]) == p
  {
    var outs: seq<Output> := [PacketOut(p[0]), PacketOut(p[1]), PacketOut(p[2]), PacketOut(p[3]), PacketOut(p[4])];
    assert outs[1..][1..] == outs[2..] && outs[2..][1..] == outs[3..] && outs[3..][1..] == outs[4..]
        && outs[4..][1..] == [];
    assert PacketsIn(outs[4..]) == [p[4]] + PacketsIn<ServerEvent>([]);
    assert PacketsIn(outs[3..]) == [p[3]] + PacketsIn(outs[4..]);
    assert PacketsIn(outs[2..]) == [p[2]] + PacketsIn(outs[3..]);
  }

  /** The five packets as the encoder makes them. */
  lemma FiveMade(enc: Encoder, a: PlayAnswer, plans: seq<Plan>, after: Encoder)
    requires enc.chunkSize > 0 && |a.times| == 5
    requires Makes(enc, [Send(BeginOf(a), Compressed, true), Send(StartOf(a), Compressed, true),
             Send(AccessOf(a), Compressed, true),
                         Send(DataOf(a), Compressed, true), Send(ResetOf(a), Compressed, true)], plans, after)
    ensures |a.start| <= MAX24 && |a.access| <= MAX24 && |a.data| <= MAX24 && |a.reset| <= MAX24
    ensures |plans| == 5 && (forall i :: 0 <= i < 5 ==> plans[i].chunkSize > 0)
    ensures AllWires([plans[4], plans[0], plans[1], plans[2], plans[3]]) == Emitted(enc, a)
  {
    hide HeaderBytes, NextFormat, NextHeader, AllMade, MadeBy, Wire, AllWires, EncoderAtEnd;
    var acts := [Send(BeginOf(a), Compressed, true), Send(StartOf(a), Compressed, true),
        Send(AccessOf(a), Compressed, true),
                 Send(DataOf(a), Compressed, true), Send(ResetOf(a), Compressed, true)];
    var e1 := Having(enc, BeginOf(a));
    var e2 := Having(e1, StartOf(a));
    var e3 := Having(e2, AccessOf(a));
    var e4 := Having(e3, DataOf(a));
    MadeFirst(enc, acts);
    MadeFirst(e1, acts[1..]);
    assert acts[1..][1..] == acts[2..];
    MadeFirst(e2, acts[2..]);
    assert acts[2..][1..] == acts[3..];
    MadeFirst(e3, acts[3..]);
    assert acts[3..][1..] == acts[4..];
    MadeFirst(e4, acts[4..]);
    MadeSizes(enc, acts);
    FiveWires([plans[4], plans[0], plans[1], plans[2], plans[3]]);
  }

  /** A play request accepted in a run: what leaves is the answer as analysed for itself. */
  lemma PlayEmits(config: Config, o: Origin, journal: Journal, n: nat, id: u32)
    requires Sound(config, o, journal) && n < |journal| && AnswersPlay(At(o, journal, n), journal[n], id)
    ensures var a, outs := AnswerOf(At(o, journal, n), journal[n], id), journal[n].outs;
            && EncoderAt(o, journal, n).chunkSize > 0
            && |a.start| <= MAX24 && |a.access| <= MAX24 && |a.data| <= MAX24 && |a.reset| <= MAX24
            && (forall i :: 0 <= i < |PacketsIn(outs)| ==> PacketsIn(outs)[i].chunkSize > 0)
            && AllWires(PacketsIn(outs)) == Emitted(EncoderAt(o, journal, n), a)
  {
    hide Sound, AnswersPlay, AnswerOf, Emitted, AllWires, Makes, PacketsIn, Follows;
    var r, e, a := journal[n], EncoderAt(o, journal, n), At(o, journal, n);
    var first := journal[..n + 1];
    PrefixSound(config, o, journal, n + 1);
    LastStep(config, o, first);
    assert At(o, first, n) == a && EncoderAt(o, first, n) == e && first[n] == r;
    PlayedActive(config, o, journal, n, id);
    AnswerActs(config, a, r, id);
    EncoderSizes(config, o, journal, n);
    FiveMade(e, AnswerOf(a, r, id), r.plans, r.encoder);
    FivePackets([r.plans[4], r.plans[0], r.plans[1], r.plans[2], r.plans[3]]);
  }

  lemma PlayedActive(config: Config, o: Origin, journal: Journal, n: nat, id: u32)
    requires Sound(config, o, journal) && n < |journal| && AnswersPlay(At(o, journal, n), journal[n], id)
    ensures id in At(o, journal, n).active
  {
    hide Lawful, Follows, Opening, Encodes;
    RunLawful(config, o, journal, n);
    Concerned(config, At(o, journal, n), journal[n].cause.number, id);
  }

  lemma EncoderSizes(config: Config, o: Origin, journal: Journal, n: nat)
    requires Sound(config, o, journal) && n <= |journal|
    ensures EncoderAt(o, journal, n).chunkSize > 0
  {
    hide Sound, MadeBy, AllMade;
    PrefixSound(config, o, journal, n);
    RunMakes(config, o, journal[..n]);
    AtEndSize(NewEncoder, o.acts + Acts(journal[..n]));
  }

  lemma {:induction false} AtEndSize(enc: Encoder, acts: seq<Action>)
    requires enc.chunkSize > 0
    ensures EncoderAtEnd(enc, acts).chunkSize > 0
    decreases |acts|
  {
    if acts != [] {
      ActionKeepsSize(enc, acts[0]);
      AtEndSize(EncoderAfter(enc, acts[0]), acts[1..]);
    }
  }

  /** The exact condition for a play request that is accepted after a run of orderly steps, all of which
      the client has received: it receives the answer if and only if the last command it got was on
      the same stream and of the same time as the message before the reset status. */
  lemma PlayAnswered(config: Config, o: Origin, journal: Journal, n: nat, id: u32, limits: Limits, keep: seq<bool>)
    requires Sound(config, o, journal) && n < |journal| && AnswersPlay(At(o, journal, n), journal[n], id)
    requires AllOrderly(o, journal[..n]) && At(o, journal, n).held == [] && Admits(limits)
    requires var acts := o.acts + Acts(journal[..n]); Faithful(acts, keep) && WithinLimits(limits, acts)
    requires var a, e := AnswerOf(At(o, journal, n), journal[n], id), EncoderAt(o, journal, n);
             Playable(limits, a) && Reframed(e, a)
    ensures var before, now := PacketsIn(Outs(journal[..n])), PacketsIn(journal[n].outs);
            && |before| == |keep| && (forall i :: 0 <= i < |before| ==> before[i].chunkSize > 0)
            && (forall i :: 0 <= i < |now| ==> now[i].chunkSize > 0)
            && var s := ReceiveAll(Fresh(limits), WiresOf(before, keep));
               var a, e := AnswerOf(At(o, journal, n), journal[n], id), EncoderAt(o, journal, n);
               && s.Live? && Synced(e, s.receiver)
               && (Yields(s.receiver, AllWires(now),
                    [ResetOf(a)] + ([BeginOf(a)] + ([StartOf(a)] + ([AccessOf(a)] + [DataOf(a)])))) <==>
                   Undisturbed(s.receiver, e, a))
  {
    hide Sound, AnswersPlay, AnswerOf, Emitted, AllWires, PacketsIn, WiresOf, ReceiveAll, Synced, Yields, Undisturbed,
        Acts, Outs;
    hide MadeBy, AllMade, EncoderAtEnd, Playable, NextFormat, Reframed;
    var init := journal[..n];
    PrefixSound(config, o, journal, n);
    HandedPackets(config, o, init, Outs(init));
    AllPackets(o.acts + Acts(init), PacketsIn(Outs(init)));
    RunDecodes(config, o, init, Outs(init), limits, keep);
    PlayEmits(config, o, journal, n, id);
    var s := ReceiveAll(Fresh(limits), WiresOf(PacketsIn(Outs(init)), keep));
    EmittedExactly(s.receiver, EncoderAt(o, journal, n), AnswerOf(At(o, journal, n), journal[n], id));
  }

  /** The number of a new stream is sent on stream 0. */
  lemma GivenOnZero(config: Config, a: Model, r: Record, id: u32, e: Encoder)
    requires Lawful(config, a) && Follows(config, a, r) && Gives(a, r, id) && Makes(e, r.acts, r.plans, r.encoder)
    ensures 6 in r.encoder.slots && r.encoder.slots[6].streamId == 0 && !r.encoder.slots[6].droppable
  {
    hide Lawful, EncoderAfter, Follows, AllMade, MadeBy;
    NumberSent(config, a, r, id);
    var act := r.acts[0];
    assert r.acts[1..] == [];
    assert r.encoder == EncoderAtEnd(EncoderAfter(e, act), []) == EncoderAfter(e, act);
    MadeFirst(e, r.acts);
    SlotAfter(e, act);
  }

  lemma NumberSent(config: Config, a: Model, r: Record, id: u32)
    requires Lawful(config, a) && Follows(config, a, r) && Gives(a, r, id)
    ensures |r.acts| == 1 && r.acts[0].Send? && r.acts[0].m.streamId == 0 && CsidFor(r.acts[0].m.typeId) == 6
            && !r.acts[0].options.droppable
  {
    hide Lawful, Parting, Without, HandleOf, Silent, Tells, Plays, Releases, PublishAnswers, PlayAnswers;
    StepGives(config, a, r, id);
  }

  lemma SlotAfter(e: Encoder, a: Action)
    requires a.Send? && Perform(e, a).Ok?
    ensures var c, e' := CsidFor(a.m.typeId), EncoderAfter(e, a);
            c in e'.slots && e'.slots[c].streamId == a.m.streamId && e'.slots[c].droppable == a.options.droppable
  {
    hide HeaderBytes, NextFormat;
  }

  lemma {:induction false} IdleEncoder(config: Config, o: Origin, journal: Journal, k: nat, n: nat)
    requires Sound(config, o, journal) && k <= n <= |journal| && Idle(journal[k..n])
    ensures EncoderAt(o, journal, n) == EncoderAt(o, journal, k)
    decreases n
  {
    hide Follows, Opening;
    if k < n {
      assert journal[k..n][..n - 1 - k] == journal[k..n - 1] && journal[k..n][n - 1 - k] == journal[n - 1];
      IdleEncoder(config, o, journal, k, n - 1);
      assert Encodes(o, journal, n - 1);
    }
  }

  /** Every client that plays the stream it was just given fails to receive the answer. */
  lemma NewStreamLost(config: Config, o: Origin, journal: Journal, k: nat, n: nat, id: u32, limits: Limits,
          keep: seq<bool>)
    requires Sound(config, o, journal) && k < n < |journal| && AnswersPlay(At(o, journal, n), journal[n], id)
    requires Gives(At(o, journal, k), journal[k], id) && Idle(journal[k + 1..n])
    requires AllOrderly(o, journal[..n]) && At(o, journal, n).held == [] && Admits(limits)
    requires var acts := o.acts + Acts(journal[..n]); Faithful(acts, keep) && WithinLimits(limits, acts)
    requires Playable(limits, AnswerOf(At(o, journal, n), journal[n], id))
    ensures var before, now := PacketsIn(Outs(journal[..n])), PacketsIn(journal[n].outs);
            && |before| == |keep| && (forall i :: 0 <= i < |before| ==> before[i].chunkSize > 0)
            && (forall i :: 0 <= i < |now| ==> now[i].chunkSize > 0)
            && var s := ReceiveAll(Fresh(limits), WiresOf(before, keep));
               var a := AnswerOf(At(o, journal, n), journal[n], id);
               && s.Live?
               && !Yields(s.receiver, AllWires(now),
                    [ResetOf(a)] + ([BeginOf(a)] + ([StartOf(a)] + ([AccessOf(a)] + [DataOf(a)]))))
  {
    hide AnswersPlay, AnswerOf, AllWires, PacketsIn, WiresOf, ReceiveAll, Yields, Acts, Outs, Lawful, Follows, Opening;
    hide MadeBy, AllMade, EncoderAtEnd, NextFormat, Makes, Orderly, StartOf, ResetOf, BeginOf, AccessOf, DataOf, Gives;
    var b := At(o, journal, k);
    RunLawful(config, o, journal, k);
    NextGrows(config, o, journal, 0, k);
    assert Encodes(o, journal, k);
    StepGives(config, b, journal[k], id);
    GivenOnZero(config, b, journal[k], id, EncoderAt(o, journal, k));
    IdleEncoder(config, o, journal, k + 1, n);
    var a, e := AnswerOf(At(o, journal, n), journal[n], id), EncoderAt(o, journal, n);
    assert a.id == id by { AnswerId(At(o, journal, n), journal[n], id); }
    NotReframed(e, a);
    PlayAnswered(config, o, journal, n, id, limits, keep);
  }

  lemma AnswerId(a: Model, r: Record, id: u32)
    requires AnswersPlay(a, r, id)
    ensures AnswerOf(a, r, id).id == id
  {
  }

  /** A header for another stream is never one that leaves out the stream. */
  lemma NotReframed(enc: Encoder, a: PlayAnswer)
    requires |a.times| == 5 && |a.start| <= MAX24 && 6 in enc.slots && enc.slots[6].streamId != a.id
    ensures NextFormat(enc, StartOf(a), Compressed) == 0
  {
  }

  lemma AllPackets(acts: seq<Action>, plans: seq<Plan>)
    requires AllMade(NewEncoder, acts) && plans == MadeBy(NewEncoder, acts)
    ensures |plans| == |acts| && acts[..|plans|] == acts
  {
    hide MadeBy, AllMade;
    assert |MadeBy(NewEncoder, acts)| == |acts|;
  }
}
