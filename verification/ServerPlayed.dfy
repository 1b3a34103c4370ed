/** What a client decodes of a server run after it has received the answer to a play request. */
module ServerPlayed {
  import opened Base
  import opened MessageMachine
  import opened ChunkEncoderModule
  import opened RoundTrip
  import opened SentLog
  import opened Outputs
  import opened Overtaking
  import opened AfterPlay
  import opened ServerProtocol
  import opened ServerRuns
  import opened ServerPeer

  lemma FiveEncoded(enc: Encoder, a: PlayAnswer)
    requires |a.times| == 5
    ensures EncoderAtEnd(enc, [Send(BeginOf(a), Compressed, true), Send(StartOf(a), Compressed, true),
            Send(AccessOf(a), Compressed, true), Send(DataOf(a), Compressed, true),
                Send(ResetOf(a), Compressed, true)]) ==
            Answered(enc, a)
  {
    hide EncoderAfter, BeginOf, StartOf, AccessOf, DataOf, ResetOf;
    var s1, s2, s3 := Send(BeginOf(a), Compressed, true), Send(StartOf(a), Compressed, true),
        Send(AccessOf(a), Compressed, true);
    var s4, s5 := Send(DataOf(a), Compressed, true), Send(ResetOf(a), Compressed, true);
    var e1 := EncoderAfter(enc, s1);
    var e2 := EncoderAfter(e1, s2);
    var e3 := EncoderAfter(e2, s3);
    var e4 := EncoderAfter(e3, s4);
    assert [s5][1..] == [] && EncoderAtEnd(EncoderAfter(e4, s5), []) == EncoderAfter(e4, s5);
    AtEndFirst(e4, s5, []);
    assert [s5] + [] == [s5];
    AtEndFirst(e3, s4, [s5]);
    AtEndFirst(e2, s3, [s4] + [s5]);
    AtEndFirst(e1, s2, [s3] + ([s4] + [s5]));
    AtEndFirst(enc, s1, [s2] + ([s3] + ([s4] + [s5])));
    assert [s1] + ([s2] + ([s3] + ([s4] + [s5]))) == [s1, s2, s3, s4, s5];
  }

  /** A client that receives the answer to a play request in a run, and how the two sides then stand. */
  lemma AnswerReceived(config: Config, o: Origin, journal: Journal, n: nat, id: u32, r: Receiver)
      returns (last: Receiver)
    requires Sound(config, o, journal) && n < |journal| && AnswersPlay(At(o, journal, n), journal[n], id)
    requires var a, e := AnswerOf(At(o, journal, n), journal[n], id), EncoderAt(o, journal, n);
             Synced(e, r) && Playable(r.parser.limits, a) && Undisturbed(r, e, a)
    ensures var a, now := AnswerOf(At(o, journal, n), journal[n], id), PacketsIn(journal[n].outs);
            && (forall i :: 0 <= i < |now| ==> now[i].chunkSize > 0)
            && ReceiveAll(r, AllWires(now)) ==
               Live(last, [ResetOf(a)] + ([BeginOf(a)] + ([StartOf(a)] + ([AccessOf(a)] + [DataOf(a)]))))
            && Played(EncoderAt(o, journal, n + 1), last, a) && last.parser.limits == r.parser.limits
  {
    hide AnswersPlay, AnswerOf, AllWires, PacketsIn, ReceiveAll, Synced, Undisturbed, Follows, Opening, Emitted, Played,
        MadeBy, AllMade, EncoderAtEnd, Answered, BeginOf, StartOf, AccessOf, DataOf, ResetOf;
    var a, e := AnswerOf(At(o, journal, n), journal[n], id), EncoderAt(o, journal, n);
    PlayEmits(config, o, journal, n, id);
    PlayedActive(config, o, journal, n, id);
    assert Encodes(o, journal, n);
    AnswerActs(config, At(o, journal, n), journal[n], id);
    FiveEncoded(e, a);
    last := AnswerTaken(r, e, a);
  }

  // ----- the steps after it ---------------------------------------------------------------------------------

  /** Steps that leave their packets in the order in which they were made, with nothing held back. */
  ghost predicate Direct(o: Origin, journal: Journal, n: nat, k: nat)
    requires n <= k <= |journal|
  {
    At(o, journal, n).held == [] && forall i :: n <= i < k ==> Orderly(At(o, journal, i), journal[i])
  }

  lemma {:induction false} NothingHeld(config: Config, o: Origin, journal: Journal, n: nat, k: nat)
    requires Sound(config, o, journal) && n <= k <= |journal| && Direct(o, journal, n, k)
    ensures At(o, journal, k).held == []
    decreases k
  {
    hide Follows, Opening, Makes, Orderly;
    if n < k {
      NothingHeld(config, o, journal, n, k - 1);
      HeldNothing(config, At(o, journal, k - 1), journal[k - 1]);
    }
  }

  lemma HeldNothing(config: Config, a: Model, r: Record)
    requires Follows(config, a, r) && a.held == []
    ensures r.after.held == []
  {
    hide Answers, Silent, Tells, Parting, PublishAnswers, PlayAnswers, Without, HandleOf, Releases;
  }

  /** The packets of such steps are those of the encoder, in order. */
  lemma {:induction false} DirectMakes(config: Config, o: Origin, journal: Journal, n: nat, k: nat)
    requires Sound(config, o, journal) && n <= k <= |journal| && Direct(o, journal, n, k)
    ensures var later := journal[n..k];
            && Makes(EncoderAt(o, journal, n), Acts(later), Plans(later), EncoderAt(o, journal, k))
            && PacketsIn(Outs(later)) == Plans(later)
    decreases k
  {
    hide Sound, Direct, Follows, Makes, Orderly, PacketsIn, Acts, Plans, Outs;
    if n == k {
      MakesNothing(EncoderAt(o, journal, n));
      assert journal[n..k] == [];
      NoSteps();
    } else {
      DirectLess(o, journal, n, k);
      DirectMakes(config, o, journal, n, k - 1);
      NothingHeld(config, o, journal, n, k - 1);
      assert journal[n..k] == journal[n..k - 1] + [journal[k - 1]];
      StepOf(config, o, journal, k - 1);
      DirectOn(config, o, EncoderAt(o, journal, n), journal[n..k - 1], EncoderAt(o, journal, k - 1),
          At(o, journal, k - 1), journal[k - 1]);
    }
  }

  lemma DirectLess(o: Origin, journal: Journal, n: nat, k: nat)
    requires n < k <= |journal| && Direct(o, journal, n, k)
    ensures Direct(o, journal, n, k - 1) && Orderly(At(o, journal, k - 1), journal[k - 1])
  {
    hide Orderly;
  }

  lemma StepOf(config: Config, o: Origin, journal: Journal, i: nat)
    requires Sound(config, o, journal) && i < |journal|
    ensures Follows(config, At(o, journal, i), journal[i])
            && Makes(EncoderAt(o, journal, i), journal[i].acts, journal[i].plans, journal[i].encoder)
  {
    hide Follows, Makes, Opening;
    assert Encodes(o, journal, i);
  }

  lemma DirectOn(config: Config, o: Origin, e: Encoder, later: Journal, mid: Encoder, a: Model, r: Record)
    requires Makes(e, Acts(later), Plans(later), mid) && PacketsIn(Outs(later)) == Plans(later)
    requires Follows(config, a, r) && Orderly(a, r) && a.held == [] && Makes(mid, r.acts, r.plans, r.encoder)
    ensures Makes(e, Acts(later + [r]), Plans(later + [r]), r.encoder)
            && PacketsIn(Outs(later + [r])) == Plans(later + [r])
  {
    hide Follows, Makes, Orderly, Straight, PacketsIn, Acts, Plans, Outs;
    JournalAppend(o, later, r);
    MakesConcat(e, Acts(later), Plans(later), mid, r.acts, r.plans, r.encoder);
    StepStraight(config, a, r);
    HeldNothing(config, a, r);
    StraightPlain(a, r);
    PacketsConcat(Outs(later), r.outs);
  }

  lemma NoSteps()
    ensures Acts([]) == [] && Plans([]) == [] && PacketsIn(Outs([])) == []
  {
    PacketsNone<ServerEvent>();
  }

  lemma StraightPlain(a: Model, r: Record)
    requires Straight(a, r) && a.held == [] && r.after.held == []
    ensures PacketsIn(r.outs) == r.plans
  {
    PacketsNone<ServerEvent>();
    assert PacketsIn(r.outs) + [] == PacketsIn(r.outs) && [] + r.plans == r.plans;
  }

  lemma {:induction false} ChosenElsewhere(actions: seq<Action>, keep: seq<bool>)
    requires |keep| == |actions| && Elsewhere(actions)
    ensures Elsewhere(Chosen(actions, keep))
    decreases |actions|
  {
    if actions != [] {
      ChosenElsewhere(actions[1..], keep[1..]);
    }
  }

  /** After the answer, whatever the server sends on other chunk streams is received, less what is dropped,
      and the two sides stand as before. */
  lemma OthersDecoded(config: Config, o: Origin, journal: Journal, n: nat, k: nat, a: PlayAnswer, r: Receiver,
          keep: seq<bool>)
    requires Sound(config, o, journal) && n <= k <= |journal| && Direct(o, journal, n, k)
    requires Playable(r.parser.limits, a) && Played(EncoderAt(o, journal, n), r, a)
    requires var acts := Acts(journal[n..k]);
             Elsewhere(acts) && Faithful(acts, keep) && WithinLimits(r.parser.limits, acts)
    ensures var packets := PacketsIn(Outs(journal[n..k]));
            && |packets| == |keep| && (forall i :: 0 <= i < |packets| ==> packets[i].chunkSize > 0)
            && var s := ReceiveAll(r, WiresOf(packets, keep));
               && s.Live? && s.messages == KeptMessages(Acts(journal[n..k]), keep)
               && Played(EncoderAt(o, journal, k), s.receiver, a) && s.receiver.parser.limits == r.parser.limits
  {
    hide Sound, Direct, Acts, Outs, Plans, PacketsIn, WiresOf, ReceiveAll, KeptMessages, Played, Elsewhere, MadeBy,
        AllMade, EncoderAtEnd, Chosen, ProperRun, Playable;
    var acts, e := Acts(journal[n..k]), EncoderAt(o, journal, n);
    DirectMakes(config, o, journal, n, k);
    EncoderSizes(config, o, journal, n);
    ChosenTransmits(e, acts, keep);
    ChosenElsewhere(acts, keep);
    MadeAll(e, acts);
    ChosenProperRun(e, r.parser.limits, acts, keep);
    OthersReceived(e, r, a, Chosen(acts, keep));
  }

  lemma MadeAll(e: Encoder, acts: seq<Action>)
    requires AllMade(e, acts)
    ensures |MadeBy(e, acts)| == |acts|
  {
  }

  /** The exact condition for the next command: the client receives it if and only if its header is full,
      or leaves out the stream only and the answer was stamped all alike. */
  lemma CommandDecoded(config: Config, o: Origin, journal: Journal, k: nat, a: PlayAnswer, r: Receiver, m: RawMessage)
    requires Sound(config, o, journal) && k < |journal| && Direct(o, journal, k, k + 1)
    requires Playable(r.parser.limits, a) && Played(EncoderAt(o, journal, k), r, a)
    requires journal[k].acts == [Send(m, Compressed, true)] && CsidFor(m.typeId) == 6
             && Ordinarily(r, m) && Framed(r, EncoderAt(o, journal, k), m)
    ensures var packets, e := PacketsIn(journal[k].outs), EncoderAt(o, journal, k);
            && |packets| == 1 && packets[0].chunkSize > 0
            && (ReceivedAs(r, Wire(packets[0]), m) <==>
                !Compressible(e, m, Compressed) || (a.times[4] == Latest(a) && NextFormat(e, m, Compressed) == 1))
  {
    hide Sound, Direct, Played, ReceivedAs, Wire, Framed, NextFormat, Playable, PacketsIn, HeaderBytes, NextHeader;
    var e := EncoderAt(o, journal, k);
    StepMakes(config, o, journal, k);
    MadeFirst(e, journal[k].acts);
    EncoderSizes(config, o, journal, k);
    assert journal[k].acts[1..] == [];
    NextCommand(r, e, a, m);
  }

  lemma StepMakes(config: Config, o: Origin, journal: Journal, k: nat)
    requires Sound(config, o, journal) && k < |journal| && Direct(o, journal, k, k + 1)
    ensures AllMade(EncoderAt(o, journal, k), journal[k].acts)
            && PacketsIn(journal[k].outs) == MadeBy(EncoderAt(o, journal, k), journal[k].acts)
  {
    hide Follows, Opening, Orderly, Straight, PacketsIn, MadeBy, AllMade, EncoderAtEnd;
    var b, r := At(o, journal, k), journal[k];
    assert Encodes(o, journal, k);
    assert Follows(config, b, r) && Orderly(b, r);
    StepStraight(config, b, r);
    HeldNothing(config, b, r);
    StraightPlain(b, r);
  }
}
