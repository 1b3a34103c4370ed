/** A run in which a client fails to receive the answer to its play request: connect, accept,
    createStream, play, accept. Every server has one. */
module PlayRun {
  import opened Base
  import opened ChunkMachine
  import opened MessageMachine
  import opened ChunkEncoderModule
  import opened RoundTrip
  import opened SentLog
  import opened StreamsModule
  import opened Outputs
  import opened Overtaking
  import opened ServerProtocol
  import opened ServerRuns
  import opened ServerPeer

  /** A server that takes a request and a stream at a time, and whose preamble can be written. */
  ghost predicate Serving(config: Config) {
    && config.windowSize > 0 && 0 < config.chunkSize <= 0x7fff_ffff && config.maxStreams > 0 && config.maxRequests > 0
  }

  // ----- encoding -----------------------------------------------------------------------------------------

  ghost predicate Small(a: Action, most: nat) {
    if a.Resize? then 0 < a.size <= most && a.size <= 0x7fff_ffff
    else |a.m.data| <= 6 && a.m.typeId != TYPE_SET_CHUNK_SIZE && a.m.typeId != TYPE_ABORT
  }

  ghost predicate AllSmall(acts: seq<Action>, most: nat) {
    forall i :: 0 <= i < |acts| ==> Small(acts[i], most)
  }

  lemma {:induction false} SmallMade(enc: Encoder, acts: seq<Action>, most: nat)
    requires AllSmall(acts, most)
    ensures Makes(enc, acts, MadeBy(enc, acts), EncoderAtEnd(enc, acts))
    decreases |acts|
  {
    hide HeaderBytes, NextFormat, NextHeader;
    if acts != [] {
      SmallMade(EncoderAfter(enc, acts[0]), acts[1..], most);
    }
  }

  ghost function Packets(plans: seq<Plan>): (outs: seq<Output>)
    ensures |outs| == |plans| && PacketsIn(outs) == plans
  {
    if plans == [] then [] else [PacketOut(plans[0])] + Packets(plans[1..])
  }

  // ----- the run ------------------------------------------------------------------------------------------

  /** The session as it is made. */
  lemma Opened(config: Config) returns (o: Origin)
    requires Serving(config)
    ensures Opening(config, o) && AllSmall(o.acts, config.chunkSize)
  {
    var done := if config.bwDone then Some([]) else None;
    var acts := PreambleActions(Preamble(config.chunkSize, config.windowSize, config.bandwidth, done, [0, 0, 0, 0]));
    SmallMade(NewEncoder, acts, config.chunkSize);
    o := Origin(acts, Packets(MadeBy(NewEncoder, acts)));
  }

  /** A run so far: sound, orderly, and with small messages only. */
  ghost predicate Fine(config: Config, o: Origin, journal: Journal) {
    Sound(config, o, journal) && AllOrderly(o, journal) && AllSmall(o.acts + Acts(journal), config.chunkSize)
  }

  lemma FineOn(config: Config, o: Origin, journal: Journal, r: Record)
    requires Fine(config, o, journal) && Follows(config, At(o, journal, |journal|), r)
             && AllSmall(r.acts, config.chunkSize)
    requires Orderly(At(o, journal, |journal|), r) && r.plans == MadeBy(EncoderAt(o, journal, |journal|), r.acts)
             && r.encoder == EncoderAtEnd(EncoderAt(o, journal, |journal|), r.acts)
    ensures Fine(config, o, journal + [r])
  {
    hide Follows, Makes, Sound, Orderly, Small, MadeBy, EncoderAtEnd, Acts, AllOrderly;
    SmallMade(EncoderAt(o, journal, |journal|), r.acts, config.chunkSize);
    SoundOn(config, o, journal, r);
    OrderlyOn(o, journal, r);
    JournalAppend(o, journal, r);
    assert o.acts + (Acts(journal) + r.acts) == o.acts + Acts(journal) + r.acts;
  }

  lemma OrderlyOn(o: Origin, journal: Journal, r: Record)
    requires AllOrderly(o, journal) && Orderly(At(o, journal, |journal|), r)
    ensures AllOrderly(o, journal + [r])
  {
    hide Orderly;
    forall n | 0 <= n < |journal| + 1
      ensures Orderly(At(o, journal + [r], n), (journal + [r])[n])
    {
      assert At(o, journal + [r], n) == At(o, journal, n);
    }
  }

  ghost function Say(typeId: byte, streamId: u32, data: seq<byte>): Action {
    Send(RawMessage(0, typeId, streamId, data), Options(false, false), true)
  }

  /** A step that sends these messages, in the order in which they were encoded, behind others. */
  ghost function Sends(cause: Cause, acts: seq<Action>, held: seq<Output>, after: Model, e: Encoder): Record {
    var plans := MadeBy(e, acts);
    Record(cause, acts, plans, held + Packets(plans), false, after, EncoderAtEnd(e, acts))
  }

  /** A step that only tells the application something. */
  ghost function Says(cause: Cause, event: ServerEvent, after: Model, e: Encoder): Record {
    Record(cause, [], [], [EventOut(event)], false, after, e)
  }

  const KEY: seq<byte> := []
  const FIRST := Handle(0, 0, 1)

  ghost function Connecting(o: Origin): Model {
    Start(o).(requests := map[0 := ConnectionRequest(KEY)])
  }

  ghost function Connected(o: Origin): Model {
    Start(o).(app := Some(KEY), held := [])
  }

  ghost function Given(o: Origin): Model {
    Connected(o).(next := 2, active := map[1 := Created], handles := map[1 := FIRST], issued := {FIRST})
  }

  ghost function Asking(o: Origin): Model {
    Given(o).(requests := map[0 := PlayRequested(KEY, 1)])
  }

  lemma Connect(config: Config, o: Origin) returns (journal: Journal)
    requires Serving(config) && Opening(config, o) && AllSmall(o.acts, config.chunkSize)
    ensures Fine(config, o, journal) && |journal| == 2 && At(o, journal, 2) == Connected(o)
  {
    hide Makes, Opening, MadeBy, EncoderAtEnd;
    var e := EncoderAtEnd(NewEncoder, o.acts);
    assert o.acts + [] == o.acts;
    assert Fine(config, o, []);
    var asked := Says(Hear(ServerProtocol.Connect(Some(KEY))), ConnectionRequested(0), Connecting(o), e);
    NothingMade(e);
    FineOn(config, o, [], asked);
    var answer := [Say(20, 0, [])];
    SmallMade(e, answer, config.chunkSize);
    var accepted := Sends(Accept(0), answer, o.held, Connected(o), e);
    assert Connected(o).requests == Connecting(o).requests - {0};
    FineOn(config, o, [asked], accepted);
    journal := [asked] + [accepted];
  }

  lemma NothingMade(e: Encoder)
    ensures MadeBy(e, []) == [] && EncoderAtEnd(e, []) == e
  {
  }

  /** The step that gives the client a stream, and the one in which it asks to play it. */
  ghost function Give(o: Origin, e: Encoder): Record {
    Sends(Hear(CreateStream), [Say(20, 0, [])], [], Given(o), e)
  }

  ghost function Ask(o: Origin, e: Encoder): Record {
    Says(Hear(Play(1, Usable(KEY))), PlayStreamRequested(FIRST, 1, 0), Asking(o), e)
  }

  lemma GiveFollows(config: Config, o: Origin, e: Encoder)
    requires Serving(config)
    ensures var r := Give(o, e);
            Follows(config, Connected(o), r) && Orderly(Connected(o), r) && AllSmall(r.acts, config.chunkSize)
    ensures Gives(Connected(o), Give(o, e), 1)
  {
    hide MadeBy, EncoderAtEnd, Makes;
    var r := Give(o, e);
    MadeCount(e, r.acts, config.chunkSize);
    assert Packets(r.plans) == [PacketOut(r.plans[0])];
    assert Answers(r, Number(1), 0);
    assert FIRST !in Connected(o).issued;
    assert Given(o) == Connected(o).(next := 2, active := Connected(o).active[1 := Created],
        handles := Connected(o).handles[1 := FIRST], issued := Connected(o).issued + {FIRST});
  }

  lemma AskFollows(config: Config, o: Origin, e: Encoder)
    requires Serving(config)
    ensures Follows(config, Given(o), Ask(o, e)) && Orderly(Given(o), Ask(o, e))
  {
    assert Tells(Ask(o, e), PlayStreamRequested(HandleOf(Given(o), 1), 1, 0));
    assert Asking(o) == Given(o).(requests := Given(o).requests[0 := PlayRequested(KEY, 1)]);
  }

  lemma Create(config: Config, o: Origin, journal: Journal) returns (journal': Journal)
    requires Serving(config) && Fine(config, o, journal) && At(o, journal, |journal|) == Connected(o)
    ensures Fine(config, o, journal') && |journal'| == |journal| + 2 && At(o, journal', |journal'|) == Asking(o)
    ensures Gives(At(o, journal', |journal|), journal'[|journal|], 1) && journal'[|journal| + 1].acts == []
  {
    hide MadeBy, EncoderAtEnd, Fine, Follows, Orderly, Gives, Connected, Given, Asking;
    var e := EncoderAt(o, journal, |journal|);
    var given := Give(o, e);
    GiveFollows(config, o, e);
    FineOn(config, o, journal, given);
    var asked := Ask(o, given.encoder);
    AskFollows(config, o, given.encoder);
    NothingMade(given.encoder);
    FineOn(config, o, journal + [given], asked);
    journal' := journal + [given] + [asked];
    assert At(o, journal', |journal|) == At(o, journal, |journal|);
  }

  /** The answer to the play request, in AMF0 framing. */
  ghost function Answer(o: Origin, e: Encoder): Record {
    var acts := [Say(4, 1, [0, 0] + Be32(1)), Say(20, 1, [0]), Say(18, 1, []), Say(18, 1, []), Say(20, 1, [])];
    var p := MadeBy(e, acts);
    Record(Accept(0), acts, p,
           if |p| == 5 then [PacketOut(p[4]), PacketOut(p[0]), PacketOut(p[1]), PacketOut(p[2]), PacketOut(p[3])]
               else [],
           false, Given(o).(active := map[1 := Playing(KEY)]), EncoderAtEnd(e, acts))
  }

  lemma AnswerCarries(config: Config, o: Origin, e: Encoder)
    ensures var r := Answer(o, e); PlayAnswers(r, 1) && AllSmall(r.acts, config.chunkSize)
  {
    hide MadeBy, EncoderAtEnd, Makes, Be32;
    MadeCount(e, Answer(o, e).acts, config.chunkSize);
  }

  lemma AnswerFollows(config: Config, o: Origin, e: Encoder)
    ensures var r := Answer(o, e);
            && Follows(config, Asking(o), r) && AllSmall(r.acts, config.chunkSize) && AnswersPlay(Asking(o), r, 1)
            && AnswerOf(Asking(o), r, 1) == PlayAnswer(1, false, [0, 0, 0, 0, 0], [0], [], [], [])
  {
    hide MadeBy, EncoderAtEnd, PlayAnswers, AllSmall, Be32;
    AnswerCarries(config, o, e);
    assert Answer(o, e).after.requests == Asking(o).requests - {0};
  }

  lemma Played(config: Config, o: Origin, journal: Journal)
    requires Fine(config, o, journal) && At(o, journal, |journal|) == Asking(o)
    ensures var r := Answer(o, EncoderAt(o, journal, |journal|));
            && Sound(config, o, journal + [r]) && AnswersPlay(Asking(o), r, 1)
            && AnswerOf(Asking(o), r, 1) == PlayAnswer(1, false, [0, 0, 0, 0, 0], [0], [], [], [])
  {
    hide Makes, MadeBy, EncoderAtEnd, Sound, Follows, AnswersPlay, AnswerOf, Asking;
    var e := EncoderAt(o, journal, |journal|);
    var r := Answer(o, e);
    AnswerFollows(config, o, e);
    SmallMade(e, r.acts, config.chunkSize);
    SoundOn(config, o, journal, r);
  }

  lemma MadeCount(e: Encoder, acts: seq<Action>, most: nat)
    requires AllSmall(acts, most)
    ensures |MadeBy(e, acts)| == |acts|
  {
    SmallMade(e, acts, most);
  }

  lemma SmallWithin(acts: seq<Action>, limits: Limits, most: nat)
    requires AllSmall(acts, most) && limits.maxMessageSize >= 6 && limits.maxChunkSize >= most
    ensures WithinLimits(limits, acts)
  {
  }

  /** Whatever its settings, a server has a run in which a client that connects, creates a stream and
      plays it receives everything but the answer to the play request. */
  lemma PlayLost(config: Config, limits: Limits) returns (o: Origin, journal: Journal, keep: seq<bool>)
    requires Serving(config) && Admits(limits) && limits.maxMessageSize >= 6 && limits.maxChunkSize >= config.chunkSize
    ensures Sound(config, o, journal) && |journal| == 5 && AnswersPlay(At(o, journal, 4), journal[4], 1)
    ensures var before, now := PacketsIn(Outs(journal[..4])), PacketsIn(journal[4].outs);
            && |before| == |keep| && (forall i :: 0 <= i < |keep| ==> keep[i])
            && (forall i :: 0 <= i < |before| ==> before[i].chunkSize > 0)
            && (forall i :: 0 <= i < |now| ==> now[i].chunkSize > 0)
            && var s := ReceiveAll(Fresh(limits), WiresOf(before, keep));
               var a := AnswerOf(At(o, journal, 4), journal[4], 1);
               && s.Live?
               && !Yields(s.receiver, AllWires(now),
                    [ResetOf(a)] + ([BeginOf(a)] + ([StartOf(a)] + ([AccessOf(a)] + [DataOf(a)]))))
  {
    hide Sound, AnswersPlay, AnswerOf, AllOrderly, AllWires, PacketsIn, WiresOf, ReceiveAll, Yields, Acts, Outs,
        Opening;
    o := Opened(config);
    var first := Connect(config, o);
    var init := Create(config, o, first);
    Played(config, o, init);
    journal := init + [Answer(o, EncoderAt(o, init, 4))];
    assert journal[..4] == init && At(o, journal, 4) == Asking(o);
    assert journal[3..4] == [init[3]];
    assert At(o, journal, 2) == At(o, init, 2) && journal[2] == init[2];
    var acts := o.acts + Acts(init);
    keep := seq(|acts|, _ => true);
    assert WithinLimits(limits, acts) by { SmallWithin(acts, limits, config.chunkSize); }
    NewStreamLost(config, o, journal, 2, 4, 1, limits, keep);
  }
}
