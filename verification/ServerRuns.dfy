/** What holds over every run of a server session: when media is reported, where requests and IDs come
    from, and what a client makes of the packets. */
module ServerRuns {
  import opened Base
  import opened ChunkMachine
  import opened MessageMachine
  import opened ChunkEncoderModule
  import opened RoundTrip
  import opened SentLog
  import opened StreamsModule
  import opened Acks
  import opened Outputs
  import opened ServerProtocol

  // ----- publishing -----------------------------------------------------------------------------------

  /** The step accepts a publish on the stream. */
  predicate Grants(a: Model, r: Record, id: u32) {
    && r.cause.Accept? && r.cause.number in a.requests && a.requests[r.cause.number].PublishRequested?
    && a.requests[r.cause.number].streamId == id
  }

  /** The step closes or deletes the stream, or accepts playback on it. */
  predicate Ends(a: Model, r: Record, id: u32) {
    || r.cause == Hear(CloseStream(Some(id)))
    || r.cause == Hear(DeleteStream(Some(id)))
    || (&& r.cause.Accept? && r.cause.number in a.requests && a.requests[r.cause.number].PlayRequested?
        && a.requests[r.cause.number].streamId == id)
  }

  function StateOf(a: Model, id: u32): Option<StreamState> {
    if id in a.active then Some(a.active[id]) else None
  }

  /** The state that the accepted request asks for. */
  function Granted(a: Model, r: Record, id: u32): Option<StreamState>
    requires Grants(a, r, id)
  {
    var q := a.requests[r.cause.number];
    Some(Publishing(q.key, q.mode))
  }

  lemma HearPublishing(config: Config, a: Model, r: Record, id: u32)
    requires Lawful(config, a) && Follows(config, a, r) && r.cause.Hear?
    ensures IsPublishing(r.after, id) <==> IsPublishing(a, id) && !Ends(a, r, id)
    ensures IsPublishing(r.after, id) ==> r.after.active[id] == a.active[id]
  {
    hide Answers, Silent, Tells, Parting, HandleOf, Without, Lawful, Farewells;
    LawfulAir(config, a, id);
    match r.cause.message
    case Connect(_) =>
    case CreateStream => assert r.after.active == a.active[a.next := Created];
    case CloseStream(argument) =>
    case DeleteStream(argument) =>
    case _ =>
  }

  lemma LawfulAir(config: Config, a: Model, id: u32)
    requires Lawful(config, a)
    ensures a.next !in a.active && (IsPublishing(a, id) ==> a.app.Some?)
  {
  }

  /** A step makes the stream publish if it accepts that, and ends it if it closes or deletes the
      stream or gives it to playback, even if the answer to that cannot be written. */
  lemma StepPublishing(config: Config, a: Model, r: Record, id: u32)
    requires Lawful(config, a) && Follows(config, a, r)
    ensures IsPublishing(r.after, id) <==> Grants(a, r, id) || (IsPublishing(a, id) && !Ends(a, r, id))
    ensures Grants(a, r, id) ==> StateOf(r.after, id) == Granted(a, r, id)
    ensures IsPublishing(r.after, id) && !Grants(a, r, id) ==> r.after.active[id] == a.active[id]
  {
    hide Answers, Silent, Tells, Parting, HandleOf, Reacts, Lawful, Tally, Releases, PublishAnswers, PlayAnswers;
    if r.cause.Hear? {
      HearPublishing(config, a, r, id);
    } else if r.cause.Accept? && !a.requests[r.cause.number].ConnectionRequest? {
      Concerned(config, a, r.cause.number, a.requests[r.cause.number].streamId);
    }
  }

  /** Step `j` was the last to accept a publish on the stream, and no step since has ended it. */
  ghost predicate Since(o: Origin, journal: Journal, j: nat, n: nat, id: u32)
    requires n <= |journal|
  {
    && j < n && Grants(At(o, journal, j), journal[j], id)
    && (forall k :: j < k < n ==>
         !Grants(At(o, journal, k), journal[k], id) && !Ends(At(o, journal, k), journal[k], id))
  }

  /** A stream is publishing if and only if its publish was accepted and nothing has ended it since. */
  lemma {:induction false} PublishingExactly(config: Config, o: Origin, journal: Journal, n: nat, id: u32)
    requires IsRun(config, o, journal) && n <= |journal|
    ensures IsPublishing(At(o, journal, n), id) <==> exists j: nat :: Since(o, journal, j, n, id)
    ensures forall j: nat :: Since(o, journal, j, n, id) ==>
            StateOf(At(o, journal, n), id) == Granted(At(o, journal, j), journal[j], id)
    decreases n
  {
    hide Follows, Lawful, Grants, Ends, IsPublishing, StateOf, Since, Granted;
    if n == 0 {
      NothingPublished(o, journal, id);
    } else {
      PublishingExactly(config, o, journal, n - 1, id);
      RunLawful(config, o, journal, n - 1);
      var a, r := At(o, journal, n - 1), journal[n - 1];
      assert Follows(config, a, r);
      StepPublishing(config, a, r, id);
      SincePublished(o, journal, n, id);
      StateKept(a, r, id);
      if Grants(a, r, id) {
        assert Since(o, journal, n - 1, n, id);
      } else if IsPublishing(a, id) && !Ends(a, r, id) {
        var j: nat :| Since(o, journal, j, n - 1, id);
        assert Since(o, journal, j, n, id);
      }
    }
  }

  lemma NothingPublished(o: Origin, journal: Journal, id: u32)
    ensures !IsPublishing(Start(o), id) && forall j: nat :: !Since(o, journal, j, 0, id)
  {
  }

  lemma StateKept(a: Model, r: Record, id: u32)
    requires IsPublishing(r.after, id) ==>
             Grants(a, r, id) || (IsPublishing(a, id) && r.after.active[id] == a.active[id])
    ensures IsPublishing(r.after, id) && !Grants(a, r, id) ==> StateOf(r.after, id) == StateOf(a, id)
  {
  }

  lemma SincePublished(o: Origin, journal: Journal, n: nat, id: u32)
    requires 0 < n <= |journal|
    ensures var a, r := At(o, journal, n - 1), journal[n - 1];
            && (Grants(a, r, id) ==>
                 Since(o, journal, n - 1, n, id) && forall j: nat :: Since(o, journal, j, n, id) ==> j == n - 1)
            && (!Grants(a, r, id) && !Ends(a, r, id) ==>
                  forall j: nat :: Since(o, journal, j, n, id) <==> Since(o, journal, j, n - 1, id))
            && (!Grants(a, r, id) && Ends(a, r, id) ==> forall j: nat :: !Since(o, journal, j, n, id))
  {
    hide Grants, Ends;
    forall j: nat | Since(o, journal, j, n, id) && j != n - 1
      ensures Since(o, journal, j, n - 1, id)
      ensures !Grants(At(o, journal, n - 1), journal[n - 1], id) && !Ends(At(o, journal, n - 1), journal[n - 1], id)
    {
    }
  }

  /** Media on a stream is reported, under its handle and the key that was accepted, if and only if the stream has been
      accepted for publishing and nothing has ended that since; otherwise it is passed over. */
  lemma ReportedExactly(config: Config, o: Origin, journal: Journal, n: nat, id: u32)
    requires IsRun(config, o, journal) && n < |journal| && journal[n].cause == Hear(Media(id))
    ensures journal[n].outs != [] <==> exists j: nat :: Since(o, journal, j, n, id)
    ensures forall j: nat :: Since(o, journal, j, n, id) ==>
              journal[n].outs == [EventOut(MediaReceived(HandleOf(At(o, journal, n), id), id,
                                                         Granted(At(o, journal, j), journal[j], id).value.key))]
  {
    var a, r := At(o, journal, n), journal[n];
    RunLawful(config, o, journal, n);
    PublishingExactly(config, o, journal, n, id);
    hide Since, Grants, Ends;
    assert Follows(config, a, r);
    if IsPublishing(a, id) {
      assert r.outs == [EventOut(MediaReceived(HandleOf(a, id), id, a.active[id].key))];
    }
  }

  // ----- requests and IDs -------------------------------------------------------------------------------

  /** The step puts the request to the application, under this number. */
  ghost predicate Asks(r: Record, number: nat, q: Request) {
    && r.cause.Hear? && |r.outs| == 1 && r.outs[0].EventOut?
    && (match q
        case ConnectionRequest(_) => r.outs[0].event == ConnectionRequested(number)
        case PublishRequested(_, _, id) =>
          exists h :: r.outs[0].event == PublishStreamRequested(h, id, number) && id in r.after.handles
              && r.after.handles[id] == h
        case PlayRequested(_, id) =>
          exists h :: r.outs[0].event == PlayStreamRequested(h, id, number) && id in r.after.handles
              && r.after.handles[id] == h)
  }

  /** A request that a step leaves open was open before, or is put to the application by it. */
  lemma StepAsks(config: Config, a: Model, r: Record, number: nat)
    requires Lawful(config, a) && Follows(config, a, r) && number in r.after.requests
    ensures || (number in a.requests && a.requests[number] == r.after.requests[number])
            || Asks(r, number, r.after.requests[number])
  {
    hide Answers, Silent, Parting, Tally, Releases, PublishAnswers, PlayAnswers, Lawful, Reacts;
    if r.cause.Hear? {
      HearAsks(config, a, r, number);
    }
  }

  lemma HearAsks(config: Config, a: Model, r: Record, number: nat)
    requires Lawful(config, a) && Follows(config, a, r) && r.cause.Hear? && number in r.after.requests
    ensures || (number in a.requests && a.requests[number] == r.after.requests[number])
            || Asks(r, number, r.after.requests[number])
  {
    hide Answers, Silent, Parting, Lawful, Asks;
    match r.cause.message
    case Connect(name) =>
      var n: nat :| r.after == a.(requests := a.requests[n := ConnectionRequest(name.value)])
          && Tells(r, ConnectionRequested(n));
      ToldAsks(config, a, r, n, ConnectionRequest(name.value), ConnectionRequested(n));
    case Publish(id, arguments) =>
      if arguments.Usable? && Names(a, Some(id)) {
        var q := PublishRequested(arguments.value.0, arguments.value.1, id);
        var n: nat :| r.after == a.(requests := a.requests[n := q])
            && Tells(r, PublishStreamRequested(HandleOf(a, id), id, n));
        ToldAsks(config, a, r, n, q, PublishStreamRequested(HandleOf(a, id), id, n));
      }
    case Play(id, arguments) =>
      if arguments.Usable? && Names(a, Some(id)) {
        var q := PlayRequested(arguments.value, id);
        var n: nat :| r.after == a.(requests := a.requests[n := q])
            && Tells(r, PlayStreamRequested(HandleOf(a, id), id, n));
        ToldAsks(config, a, r, n, q, PlayStreamRequested(HandleOf(a, id), id, n));
      }
    case _ =>
  }

  lemma ToldAsks(config: Config, a: Model, r: Record, n: nat, q: Request, event: ServerEvent)
    requires Lawful(config, a) && r.cause.Hear? && Tells(r, event) && r.after.handles == a.handles
    requires match q
             case ConnectionRequest(_) => event == ConnectionRequested(n)
             case PublishRequested(_, _, id) => id in a.active
                 && event == PublishStreamRequested(HandleOf(a, id), id, n)
             case PlayRequested(_, id) => id in a.active && event == PlayStreamRequested(HandleOf(a, id), id, n)
    ensures Asks(r, n, q)
  {
    hide Standing, OnAir;
  }

  /** Every open request was put to the application by some step of the run. */
  lemma {:induction false} AskedBefore(config: Config, o: Origin, journal: Journal, n: nat, number: nat)
      returns (p: nat)
    requires IsRun(config, o, journal) && n <= |journal| && number in At(o, journal, n).requests
    ensures p < n && Asks(journal[p], number, At(o, journal, n).requests[number])
    decreases n
  {
    hide Follows, Lawful, Asks;
    RunLawful(config, o, journal, n - 1);
    var a, r := At(o, journal, n - 1), journal[n - 1];
    StepAsks(config, a, r, number);
    if Asks(r, number, r.after.requests[number]) {
      p := n - 1;
    } else {
      p := AskedBefore(config, o, journal, n - 1, number);
    }
  }

  /** No accepted request is about a stream that has gone. */
  lemma NeverInactive(config: Config, o: Origin, journal: Journal, n: nat, id: u32)
    requires IsRun(config, o, journal) && n < |journal| && journal[n].cause.Accept?
    requires Concerns(At(o, journal, n).requests[journal[n].cause.number], id)
    ensures id in At(o, journal, n).active && id in journal[n].after.active
  {
    hide Lawful, PublishAnswers, PlayAnswers, Silent, Releases;
    assert Follows(config, At(o, journal, n), journal[n]);
    RunLawful(config, o, journal, n);
    Concerned(config, At(o, journal, n), journal[n].cause.number, id);
  }

  /** The step gives this ID to a new stream. */
  predicate Gives(a: Model, r: Record, id: u32) {
    id !in a.active && id in r.after.active
  }

  lemma StepGives(config: Config, a: Model, r: Record, id: u32)
    requires Lawful(config, a) && Follows(config, a, r)
    ensures a.next <= r.after.next && a.issued <= r.after.issued
    ensures Gives(a, r, id) ==>
            id == a.next && r.after.next == id + 1 && id in r.after.handles && r.after.handles[id] !in a.issued
  {
    hide Answers, Silent, Tells, Parting, Tally, Releases, PublishAnswers, PlayAnswers, Without, Standing, OnAir,
        Reacts, Lawful;
    if r.cause.Hear? {
      HearGives(config, a, r, id);
    } else if r.cause.Accept? && !a.requests[r.cause.number].ConnectionRequest? {
      Concerned(config, a, r.cause.number, a.requests[r.cause.number].streamId);
    }
  }

  lemma HearGives(config: Config, a: Model, r: Record, id: u32)
    requires Lawful(config, a) && Follows(config, a, r) && r.cause.Hear?
    ensures a.next <= r.after.next && a.issued <= r.after.issued
    ensures Gives(a, r, id) ==>
            id == a.next && r.after.next == id + 1 && id in r.after.handles && r.after.handles[id] !in a.issued
  {
    hide Answers, Silent, Tells, Parting, Without, Lawful, IsPublishing;
    LawfulAir(config, a, id);
  }

  lemma {:induction false} NextGrows(config: Config, o: Origin, journal: Journal, i: nat, j: nat)
    requires IsRun(config, o, journal) && i <= j <= |journal|
    ensures At(o, journal, i).next <= At(o, journal, j).next && At(o, journal, i).issued <= At(o, journal, j).issued
    decreases j
  {
    hide Follows, Lawful;
    if i < j {
      NextGrows(config, o, journal, i, j - 1);
      RunLawful(config, o, journal, j - 1);
      StepGives(config, At(o, journal, j - 1), journal[j - 1], 0);
    }
  }

  /** No ID and no handle is ever given to two streams. */
  lemma NeverGivenTwice(config: Config, o: Origin, journal: Journal, i: nat, j: nat, id: u32, k: u32)
    requires IsRun(config, o, journal) && i < j < |journal|
    requires Gives(At(o, journal, i), journal[i], id) && Gives(At(o, journal, j), journal[j], k)
    ensures id < k && id in journal[i].after.handles && k in journal[j].after.handles
            && journal[i].after.handles[id] != journal[j].after.handles[k]
  {
    hide Follows, Lawful, Gives;
    RunLawful(config, o, journal, i);
    RunLawful(config, o, journal, j);
    StepGives(config, At(o, journal, i), journal[i], id);
    StepGives(config, At(o, journal, j), journal[j], k);
    NextGrows(config, o, journal, i + 1, j);
    GivenHandle(config, o, journal, i, id);
  }

  lemma GivenHandle(config: Config, o: Origin, journal: Journal, i: nat, id: u32)
    requires IsRun(config, o, journal) && i < |journal| && id in journal[i].after.handles
    ensures journal[i].after.handles[id] in journal[i].after.issued
  {
    hide Follows;
    RunLawful(config, o, journal, i + 1);
  }

  // ----- packets and outputs of a run -------------------------------------------------------------------

  ghost function Acts(journal: Journal): seq<Action> {
    if journal == [] then [] else Acts(journal[..|journal| - 1]) + journal[|journal| - 1].acts
  }

  ghost function Plans(journal: Journal): seq<Plan> {
    if journal == [] then [] else Plans(journal[..|journal| - 1]) + journal[|journal| - 1].plans
  }

  ghost function Outs(journal: Journal): seq<Output> {
    if journal == [] then [] else Outs(journal[..|journal| - 1]) + journal[|journal| - 1].outs
  }

  ghost predicate Encodes(o: Origin, journal: Journal, n: nat)
    requires n < |journal|
  {
    Makes(EncoderAt(o, journal, n), journal[n].acts, journal[n].plans, journal[n].encoder)
  }

  /** A run from a preamble, in which one encoder makes every packet. */
  ghost predicate Sound(config: Config, o: Origin, journal: Journal) {
    && Opening(config, o) && IsRun(config, o, journal)
    && (forall n :: 0 <= n < |journal| ==> Encodes(o, journal, n))
  }

  lemma JournalAppend(o: Origin, journal: Journal, r: Record)
    ensures Acts(journal + [r]) == Acts(journal) + r.acts && Plans(journal + [r]) == Plans(journal) + r.plans
    ensures Outs(journal + [r]) == Outs(journal) + r.outs
    ensures At(o, journal + [r], |journal| + 1) == r.after && EncoderAt(o, journal + [r], |journal| + 1) == r.encoder
  {
    assert (journal + [r])[..|journal|] == journal;
  }

  lemma SoundOn(config: Config, o: Origin, journal: Journal, r: Record)
    requires Sound(config, o, journal) && Follows(config, At(o, journal, |journal|), r)
    requires Makes(EncoderAt(o, journal, |journal|), r.acts, r.plans, r.encoder)
    ensures Sound(config, o, journal + [r])
  {
    hide Follows, Makes, Opening;
    forall n | 0 <= n < |journal| + 1
      ensures Follows(config, At(o, journal + [r], n), (journal + [r])[n]) && Encodes(o, journal + [r], n)
    {
      assert At(o, journal + [r], n) == At(o, journal, n) && EncoderAt(o, journal + [r], n) == EncoderAt(o, journal, n);
      assert n < |journal| ==> Encodes(o, journal, n) && (journal + [r])[n] == journal[n];
    }
  }

  lemma PrefixSound(config: Config, o: Origin, journal: Journal, n: nat)
    requires Sound(config, o, journal) && n <= |journal|
    ensures Sound(config, o, journal[..n]) && At(o, journal[..n], n) == At(o, journal, n)
    ensures EncoderAt(o, journal[..n], n) == EncoderAt(o, journal, n)
  {
    hide Follows, Makes, Opening;
    var init := journal[..n];
    forall k | 0 <= k < n
      ensures Follows(config, At(o, init, k), init[k]) && Encodes(o, init, k)
    {
      assert At(o, init, k) == At(o, journal, k) && EncoderAt(o, init, k) == EncoderAt(o, journal, k)
          && init[k] == journal[k];
      assert Encodes(o, journal, k);
    }
  }

  lemma LastStep(config: Config, o: Origin, journal: Journal)
    requires Sound(config, o, journal) && journal != []
    ensures var n := |journal| - 1;
            Follows(config, At(o, journal, n), journal[n])
                && Makes(EncoderAt(o, journal, n), journal[n].acts, journal[n].plans, journal[n].encoder)
  {
    hide Follows, Makes, Opening;
    assert Encodes(o, journal, |journal| - 1);
  }

  /** The packets of the preamble and of the steps are those of one encoder, in order. */
  lemma {:induction false} RunMakes(config: Config, o: Origin, journal: Journal)
    requires Sound(config, o, journal)
    ensures Makes(NewEncoder, o.acts + Acts(journal), PacketsIn(o.held) + Plans(journal),
            EncoderAt(o, journal, |journal|))
    decreases |journal|
  {
    hide Follows, Makes, Sound, PacketsIn;
    if journal == [] {
      assert o.acts + Acts(journal) == o.acts && PacketsIn(o.held) + Plans(journal) == PacketsIn(o.held);
      OpeningMakes(config, o, journal);
    } else {
      var n := |journal| - 1;
      var init, r := journal[..n], journal[n];
      PrefixSound(config, o, journal, n);
      LastStep(config, o, journal);
      RunMakes(config, o, init);
      MakesConcat(NewEncoder, o.acts + Acts(init), PacketsIn(o.held) + Plans(init), EncoderAt(o, journal, n), r.acts,
          r.plans, r.encoder);
      assert o.acts + Acts(journal) == o.acts + Acts(init) + r.acts;
      assert PacketsIn(o.held) + Plans(journal) == PacketsIn(o.held) + Plans(init) + r.plans;
    }
  }

  lemma OpeningMakes(config: Config, o: Origin, journal: Journal)
    requires Sound(config, o, journal)
    ensures Makes(NewEncoder, o.acts, PacketsIn(o.held), EncoderAt(o, journal, 0))
  {
    hide Makes, IsRun;
  }

  // ----- acknowledgements -----------------------------------------------------------------------------------

  /** The bytes taken in during a run. */
  ghost function TakenIn(journal: Journal): nat {
    if journal == [] then 0
    else TakenIn(journal[..|journal| - 1]) + (if journal[|journal| - 1].cause.Take? then
        journal[|journal| - 1].cause.count else 0)
  }

  lemma CounterKept(config: Config, a: Model, r: Record)
    requires Follows(config, a, r) && !r.cause.Take?
    ensures r.after.counter == a.counter
  {
    hide Answers, Silent, Tells, Parting, Tally, Releases, PublishAnswers, PlayAnswers, Without, HandleOf;
  }

  lemma TakeCounts(config: Config, a: Model, r: Record)
    requires Follows(config, a, r) && r.cause.Take?
    ensures r.after.counter.received == (a.counter.received + r.cause.count) % WRAP64
    ensures r.acts != [] ==> Answers(r, Acknowledge((a.counter.received + r.cause.count) % WRAP64 % WRAP32), 0)
  {
    hide Answers;
  }

  lemma {:induction false} RunCounts(config: Config, o: Origin, journal: Journal, n: nat)
    requires IsRun(config, o, journal) && n <= |journal|
    ensures At(o, journal, n).counter.received == TakenIn(journal[..n]) % WRAP64
    decreases n
  {
    hide Follows, Tally;
    if n > 0 {
      var a, r := At(o, journal, n - 1), journal[n - 1];
      RunCounts(config, o, journal, n - 1);
      assert journal[..n][..n - 1] == journal[..n - 1];
      assert Follows(config, a, r);
      if r.cause.Take? {
        TakeCounts(config, a, r);
        ModAdd(TakenIn(journal[..n - 1]), r.cause.count, WRAP64);
      } else {
        CounterKept(config, a, r);
      }
    }
  }

  /** Every acknowledgement of a run carries the total of the bytes taken in, modulo 2^32. */
  lemma AcknowledgesTotal(config: Config, o: Origin, journal: Journal, n: nat)
    requires IsRun(config, o, journal) && n < |journal| && journal[n].cause.Take? && journal[n].acts != []
    ensures Answers(journal[n], Acknowledge((TakenIn(journal[..n]) + journal[n].cause.count) % WRAP32), 0)
  {
    hide Follows, Tally, TakenIn, Answers;
    var total, count := TakenIn(journal[..n]), journal[n].cause.count;
    RunCounts(config, o, journal, n);
    assert Follows(config, At(o, journal, n), journal[n]);
    TakeCounts(config, At(o, journal, n), journal[n]);
    ModAdd(total, count, WRAP64);
    ModNested(total + count);
  }

  // ----- order --------------------------------------------------------------------------------------------

  predicate DecidesConnection(a: Model, r: Record) {
    (r.cause.Accept? || r.cause.Reject?) && r.cause.number in a.requests
        && a.requests[r.cause.number].ConnectionRequest?
  }

  predicate AcceptsPlay(a: Model, r: Record) {
    r.cause.Accept? && r.cause.number in a.requests && a.requests[r.cause.number].PlayRequested?
  }

  /** A step whose packets leave in the order in which they were made: nothing is lost on the way, it
      is not the answer to a play request, and while the preamble is held back there is no other
      packet than the answer that releases it. */
  predicate Orderly(a: Model, r: Record) {
    && (r.faltered ==> r.acts == [] && !(r.cause.Reject? && DecidesConnection(a, r)))
    && (!r.faltered ==> !AcceptsPlay(a, r))
    && (a.held != [] && r.acts != [] ==> DecidesConnection(a, r))
  }

  /** The packets that leave in a step and those still held back are those held back before and those
      the step makes, in that order. */
  ghost predicate Straight(a: Model, r: Record) {
    PacketsIn(r.outs) + PacketsIn(r.after.held) == PacketsIn(a.held) + r.plans
  }

  lemma SilentStraight(a: Model, r: Record)
    requires r.plans == [] && r.after.held == a.held && (forall i :: 0 <= i < |r.outs| ==> !r.outs[i].PacketOut?)
             && |r.outs| <= 1
    ensures Straight(a, r)
  {
    if r.outs != [] {
      assert r.outs == [r.outs[0]];
      PacketsOne(r.outs[0]);
    }
  }

  lemma AnswerStraight(a: Model, r: Record)
    requires |r.plans| == 1 && r.outs == [PacketOut(r.plans[0])] && a.held == [] && r.after.held == []
    ensures Straight(a, r)
  {
    PacketsOne<ServerEvent>(PacketOut(r.plans[0]));
    assert PacketsIn(r.outs) == r.plans && PacketsIn<ServerEvent>([]) == [];
  }

  lemma ReleaseStraight(a: Model, r: Record)
    requires |r.plans| == 1 && r.outs == a.held + [PacketOut(r.plans[0])] && r.after.held == []
    ensures Straight(a, r)
  {
    PacketsConcat(a.held, [PacketOut(r.plans[0])]);
    PacketsOne<ServerEvent>(PacketOut(r.plans[0]));
    assert r.plans == [r.plans[0]] && PacketsIn<ServerEvent>([]) == [];
  }

  lemma PublishStraight(a: Model, r: Record)
    requires |r.plans| == 2 && r.outs == [PacketOut(r.plans[0]), PacketOut(r.plans[1])] && a.held == []
             && r.after.held == []
    ensures Straight(a, r)
  {
    PacketsConcat<ServerEvent>([PacketOut(r.plans[0])], [PacketOut(r.plans[1])]);
    PacketsOne<ServerEvent>(PacketOut(r.plans[0]));
    PacketsOne<ServerEvent>(PacketOut(r.plans[1]));
    assert r.outs == [PacketOut(r.plans[0])] + [PacketOut(r.plans[1])];
    assert r.plans == [r.plans[0]] + [r.plans[1]] && PacketsIn<ServerEvent>([]) == [];
  }

  ghost predicate Quiet(a: Model, r: Record) {
    r.plans == [] && r.after.held == a.held && (forall i :: 0 <= i < |r.outs| ==> !r.outs[i].PacketOut?)
        && |r.outs| <= 1
  }

  ghost predicate Single(r: Record) {
    |r.acts| == 1 && |r.plans| == 1 && r.outs == [PacketOut(r.plans[0])]
  }

  lemma HearShape(config: Config, a: Model, r: Record)
    requires Follows(config, a, r) && r.cause.Hear?
    ensures r.after.held == a.held && (Quiet(a, r) || Single(r))
  {
    hide HandleOf, Without, Answers, Tells, Silent, Quiet, Single, Parting;
    assert r.after.held == a.held;
    HeldShape(a, r);
    match r.cause.message
    case Connect(_) =>
    case CreateStream =>
    case CloseStream(argument) => assert Names(a, argument) ==> r.outs == Parting(a, argument.value);
    case DeleteStream(argument) => assert Names(a, argument) ==> r.outs == Parting(a, argument.value);
    case Publish(_, _) =>
    case Play(_, _) =>
    case Media(_) =>
    case PingHeard(_) =>
    case WindowHeard(_) =>
  }

  lemma HeldShape(a: Model, r: Record)
    requires r.after.held == a.held
    ensures forall reply, id: u32 :: Answers(r, reply, id) ==> Single(r)
    ensures forall event :: Tells(r, event) ==> Quiet(a, r)
    ensures Silent(r) ==> Quiet(a, r)
    ensures forall id :: id in a.active && r.plans == [] && r.outs == Parting(a, id) ==> Quiet(a, r)
    ensures r.plans == [] && r.outs == [] ==> Quiet(a, r)
  {
    hide HandleOf, Carries;
  }

  /** Every orderly step sends its packets straight on. */
  lemma StepStraight(config: Config, a: Model, r: Record)
    requires Follows(config, a, r) && Orderly(a, r)
    ensures Straight(a, r)
  {
    hide HandleOf, Without, Carries, Reacts, Straight, Tally, Plays;
    if r.cause.Hear? {
      HearShape(config, a, r);
    }
    if |r.plans| == 2 {
      PublishStraight(a, r);
    } else if r.plans == [] {
      SilentStraight(a, r);
    } else if DecidesConnection(a, r) {
      ReleaseStraight(a, r);
    } else {
      AnswerStraight(a, r);
    }
  }

  ghost predicate AllOrderly(o: Origin, journal: Journal) {
    forall n :: 0 <= n < |journal| ==> Orderly(At(o, journal, n), journal[n])
  }

  lemma {:induction false} InOrder(config: Config, o: Origin, journal: Journal)
    requires Sound(config, o, journal) && AllOrderly(o, journal)
    ensures PacketsIn(Outs(journal)) + PacketsIn(At(o, journal, |journal|).held) == PacketsIn(o.held) + Plans(journal)
    decreases |journal|
  {
    hide Follows, Makes, Sound, PacketsIn, Orderly;
    if journal == [] {
      PacketsNone<ServerEvent>();
      assert PacketsIn(o.held) + Plans(journal) == [] + PacketsIn(o.held);
    } else {
      var n := |journal| - 1;
      var init, r := journal[..n], journal[n];
      PrefixSound(config, o, journal, n);
      PrefixOrderly(o, journal, n);
      LastStep(config, o, journal);
      InOrder(config, o, init);
      StepStraight(config, At(o, journal, n), r);
      PacketsConcat(Outs(init), r.outs);
      Regroup(PacketsIn(Outs(init)), PacketsIn(r.outs), PacketsIn(r.after.held), PacketsIn(At(o, journal, n).held),
          r.plans,
              PacketsIn(o.held), Plans(init));
    }
  }

  lemma PrefixOrderly(o: Origin, journal: Journal, n: nat)
    requires AllOrderly(o, journal) && n <= |journal|
    ensures AllOrderly(o, journal[..n])
  {
    hide Orderly;
    forall k | 0 <= k < n
      ensures Orderly(At(o, journal[..n], k), journal[..n][k])
    {
      assert At(o, journal[..n], k) == At(o, journal, k);
    }
  }

  lemma Regroup<T>(before: seq<T>, now: seq<T>, held': seq<T>, held: seq<T>, plans: seq<T>, first: seq<T>,
          earlier: seq<T>)
    requires now + held' == held + plans && before + held == first + earlier
    ensures before + now + held' == first + (earlier + plans)
  {
    calc {
      before + now + held';
      before + (now + held');
      before + (held + plans);
      before + held + plans;
      first + earlier + plans;
      first + (earlier + plans);
    }
  }

  lemma HandedPackets(config: Config, o: Origin, journal: Journal, handed: seq<Output>)
    requires Sound(config, o, journal) && AllOrderly(o, journal) && handed <= Outs(journal)
    ensures var acts := o.acts + Acts(journal);
            && AllMade(NewEncoder, acts) && Ordinary(acts) && PacketsIn(handed) <= MadeBy(NewEncoder, acts)
            && |PacketsIn(handed)| <= |acts|
            && (handed == Outs(journal) && At(o, journal, |journal|).held == [] ==>
                  PacketsIn(handed) == MadeBy(NewEncoder, acts)
                      && EncoderAtEnd(NewEncoder, acts) == EncoderAt(o, journal, |journal|))
  {
    hide MadeBy, AllMade, PacketsIn, Acts, Plans, Outs, Sound;
    var outs, held := Outs(journal), At(o, journal, |journal|).held;
    RunMakes(config, o, journal);
    InOrder(config, o, journal);
    assert outs == handed + outs[|handed|..];
    PacketsConcat(handed, outs[|handed|..]);
    PacketsNone<ServerEvent>();
    assert PacketsIn(outs) <= PacketsIn(outs) + PacketsIn(held);
  }

  /** Whatever left in a run of orderly steps, less some droppable packets, the client decodes to exactly
      the messages of the preamble and of the steps, in order. If everything left, it is in step with the
      server's encoder. */
  lemma RunDecodes(config: Config, o: Origin, journal: Journal, handed: seq<Output>, limits: Limits, keep: seq<bool>)
    requires Sound(config, o, journal) && AllOrderly(o, journal) && handed <= Outs(journal) && Admits(limits)
    requires |PacketsIn(handed)| <= |o.acts + Acts(journal)|
    requires var acts := (o.acts + Acts(journal))[..|PacketsIn(handed)|];
             Faithful(acts, keep)
             && WithinLimits(limits, acts)
    ensures forall i :: 0 <= i < |PacketsIn(handed)| ==> PacketsIn(handed)[i].chunkSize > 0
    ensures var s := ReceiveAll(Fresh(limits), WiresOf(PacketsIn(handed), keep));
            && s.Live? && s.messages == KeptMessages((o.acts + Acts(journal))[..|PacketsIn(handed)|], keep)
            && s.receiver.parser.limits == limits
            && (handed == Outs(journal) && At(o, journal, |journal|).held == [] ==>
                 Synced(EncoderAt(o, journal, |journal|), s.receiver))
  {
    hide ReceiveAll, WiresOf, KeptMessages, MadeBy, AllMade, PacketsIn, Acts, Outs, Sound, Synced, EncoderAtEnd;
    var acts := o.acts + Acts(journal);
    HandedPackets(config, o, journal, handed);
    OrdinaryProper(limits, acts, |PacketsIn(handed)|, keep);
    ReleasedDecodes(limits, acts, PacketsIn(handed), keep);
    assert acts[..|acts|] == acts;
  }
}
