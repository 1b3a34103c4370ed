/** The server session as an object: it decodes nothing itself, but answers the messages a client sends
    and carries out the decisions of the application. Every step is proved to be one of the protocol. */
module ServerModule {
  import opened Base
  import opened ChunkMachine
  import opened MessageMachine
  import opened ChunkEncoderModule
  import opened RoundTrip
  import opened SentLog
  import opened StreamsModule
  import opened Acks
  import opened Outputs
  import opened ServerProtocol
  import opened ServerRuns

  const NUMBERS: nat := 0x1_0000_0000

  lemma MakesOne(enc: Encoder, a: Action, after: Encoder, plan: Plan)
    requires RoundTrip.Perform(enc, a) == Ok((after, plan))
    requires a.Send? ==> a.m.typeId != TYPE_SET_CHUNK_SIZE && a.m.typeId != TYPE_ABORT
    ensures Makes(enc, [a], [plan], after)
  {
    hide RoundTrip.Perform, Makes;
    MakesNothing(enc);
    MakesOn(enc, [], [], enc, a);
    assert [] + [a] == [a] && [] + [plan] == [plan];
  }

  // ----- bodies ---------------------------------------------------------------------------------------

  /** The message type for the AMF version in use. */
  function TypeFor(r: Reply, amf3: bool): (t: byte)
    ensures t in TypesOf(r)
  {
    match r
    case Acknowledge(_) => 3
    case StreamBegin(_) => 4
    case Ping => 4
    case Pong(_) => 4
    case WindowSize(_) => 5
    case Bandwidth(_) => 6
    case SampleAccess => if amf3 then 15 else 18
    case DataStart => if amf3 then 15 else 18
    case _ => if amf3 then 17 else 20
  }

  /** Write a reply: control messages always, commands and data if their values can be written. */
  method Write(reply: Reply) returns (data: Option<seq<byte>>)
    ensures data.Some? ==> ServerProtocol.Body(reply, data.value)
    ensures reply.Acknowledge? || reply.WindowSize? || reply.StreamBegin? || reply.Bandwidth? ==>
            data.Some? && |data.value| <= 6
  {
    match reply
    case Acknowledge(n) => return Some(Be32(n));
    case WindowSize(n) => return Some(Be32(n));
    case StreamBegin(id) => return Some([0, 0] + Be32(id));
    case Bandwidth(n) => return Some(Be32(n) + [2]);
    case _ => data := *;
  }

  // ----- steps as the protocol has them ---------------------------------------------------------------

  lemma TakeFollows(config: Config, a: Model, count: nat, acts: seq<Action>, plans: seq<Plan>, outs: seq<Output>,
          e: Encoder)
    requires WindowOf(config, a) > 0
    requires var r := Record(Take(count), acts, plans, outs, false,
             a.(counter := Tally(a.counter, count, WindowOf(config, a)).0), e);
             match Tally(a.counter, count, WindowOf(config, a)).1
             case None => Silent(r)
             case Some(sequence) => Answers(r, Acknowledge(sequence), 0)
    ensures Follows(config, a,
            Record(Take(count), acts, plans, outs, false,
            a.(counter := Tally(a.counter, count, WindowOf(config, a)).0), e))
  {
    hide Answers, Silent, Tally;
  }

  lemma HearFollows(config: Config, a: Model, m: Incoming, r: Record)
    requires r.cause == Hear(m) && !r.faltered && Reacts(config, a, m, r)
    ensures Follows(config, a, r)
  {
    hide Reacts;
  }

  lemma ConnectFollows(config: Config, a: Model, n: nat, r: Record)
    requires r.cause == Accept(n) && n in a.requests && a.requests[n].ConnectionRequest?
             && Connects(a, n, a.requests[n].app, r)
    ensures Follows(config, a, r)
  {
    hide Connects;
  }

  lemma PublishFollows(config: Config, a: Model, n: nat, r: Record)
    requires r.cause == Accept(n) && n in a.requests && a.requests[n].PublishRequested?
    requires var q := a.requests[n];
             if q.streamId in a.active then
               && r.after == a.(requests := a.requests - {n},
                    active := a.active[q.streamId := Publishing(q.key, q.mode)])
               && PublishAnswers(r, q.streamId)
             else Misses(a, n, r)
    ensures Follows(config, a, r)
  {
    hide PublishAnswers, Misses;
  }

  lemma PlayFollows(config: Config, a: Model, n: nat, r: Record)
    requires r.cause == Accept(n) && n in a.requests && a.requests[n].PlayRequested?
    requires var q := a.requests[n];
             if q.streamId in a.active then
               && r.after == a.(requests := a.requests - {n}, active := a.active[q.streamId := Playing(q.key)])
               && PlayAnswers(r, q.streamId)
             else Misses(a, n, r)
    ensures Follows(config, a, r)
  {
    hide PlayAnswers, Misses;
  }

  lemma RejectFollows(config: Config, a: Model, n: nat, r: Record)
    requires r.cause == Reject(n) && n in a.requests
    requires var q := a.requests[n];
             && r.after == (if q.ConnectionRequest? then a.(requests := a.requests - {n}, held := [])
                  else a.(requests := a.requests - {n}))
             && (if r.faltered then Silent(r)
                 else if q.ConnectionRequest? then Releases(a, r, CommandError)
                 else Answers(r, Rejection, q.streamId))
    ensures Follows(config, a, r)
  {
    hide Silent, Releases, Answers;
  }

  lemma PingFollows(config: Config, a: Model, r: Record)
    requires r.cause == PingPeer && !r.faltered && a.app.Some? && r.after == a && Answers(r, Ping, 0)
    ensures Follows(config, a, r)
  {
    hide Answers;
  }

  lemma CompleteFollows(config: Config, a: Model, h: Handle, id: u32, r: Record)
    requires r.cause == Complete(h) && Plays(a, h, id) && r.after == a.(active := a.active[id := Completed])
    requires if r.faltered then Silent(r) else Answers(r, PlayComplete, id)
    ensures Follows(config, a, r)
  {
    hide Silent, Answers;
  }

  lemma DeliverFollows(config: Config, a: Model, h: Handle, id: u32, typeId: byte, timestamp: u32, data: seq<byte>,
          droppable: bool, plan: Plan, e: Encoder)
    requires Plays(a, h, id) && (typeId in {8, 9} || (typeId in {15, 18} && !droppable))
    ensures Follows(config, a, Record(Deliver(h, typeId, timestamp, data, droppable),
                                      [Send(RawMessage(timestamp, typeId, id, data), Options(false, droppable), true)],
                                      [plan], [PacketOut(plan)], false, a, e))
  {
  }

  /** What a call for input hands out: an output that was waiting, or the first one of a decode step. */
  datatype Received = Waiting(output: Output) | Decoded(first: Option<Output>)

  function OutputsOf(r: Received): seq<Output> {
    match r
    case Waiting(output) => [output]
    case Decoded(first) => if first.Some? then [first.value] else []
  }

  /** A decode step: its bytes are counted, and then its message is handled. */
  ghost predicate Handles(config: Config, o: Origin, journal: Journal, consumed: nat, m: Option<Incoming>,
          journal': Journal,
                          r: Result<Received, SessionError>)
  {
    if r.Ok? then
      && r.value.Decoded?
      && exists mid ::
          Grown(journal, mid, Take(consumed), false)
          && (if m.None? then journal' == mid else Grown(mid, journal', Hear(m.value), false))
    else
      || (journal' == journal && Excuse(r.error))
      || (Grown(journal, journal', Take(consumed), false) && m.Some?
           && Faulty(config, At(o, journal', |journal'|), m.value, r.error))
  }

  /** One step more. */
  ghost predicate Grown(journal: Journal, journal': Journal, cause: Cause, faltered: bool) {
    && |journal'| == |journal| + 1 && journal'[..|journal|] == journal
    && journal'[|journal|].cause == cause && journal'[|journal|].faltered == faltered
  }

  // ----- the session ------------------------------------------------------------------------------------

  class ServerSession {
    const config: Config
    const streams: Streams<()>
    var failed: bool
    var app: Option<seq<byte>>
    var active: Active
    var requests: Requests
    var nextStream: u32
    var nextRequest: u32
    var peerWindow: Option<u32>
    var counter: Counter
    /** Control packets held back until the connection is decided. */
    var held: seq<Output>
    var encoder: Encoder
    var pending: seq<Output>

    /** The preamble, the steps so far, and the outputs handed out. */
    ghost const origin: Origin
    ghost var journal: Journal
    ghost var handed: seq<Output>

    ghost function Now(): Model
      reads this`app, this`active, this`requests, this`nextStream, this`peerWindow, this`counter, this`held, streams
    {
      Model(app, active, requests, streams.byWire, streams.issued, nextStream, peerWindow, counter, held)
    }

    /** Every handle is bound, and there were never more of them than IDs given. */
    ghost predicate Steady()
      reads this`nextStream, streams
    {
      && streams.Valid() && streams.Indexed() && |streams.slots| < nextStream
      && (forall h :: h in streams.Live() ==> streams.Live()[h].wire.Some?)
    }

    /** The journal is a run of the protocol that leads to the present state. */
    ghost predicate Recorded()
      reads this`app, this`active, this`requests, this`nextStream, this`peerWindow, this`counter, this`held,
          this`encoder, this`journal, streams
    {
      && Sound(config, origin, journal)
      && At(origin, journal, |journal|) == Now() && EncoderAt(origin, journal, |journal|) == encoder
    }

    ghost predicate Ready()
      reads this`app, this`active, this`requests, this`nextStream, this`peerWindow, this`counter, this`held,
          this`encoder, this`journal, streams
    {
      Steady() && Recorded()
    }

    /** Outputs are handed out in the order of the steps that had them. */
    ghost predicate Valid()
      reads this, streams
    {
      if failed then Sound(config, origin, journal) && pending == [] && handed <= Outs(journal)
      else Ready() && Outs(journal) == handed + pending
    }

    constructor (config: Config, encoder: Encoder, held: seq<Output>, ghost origin: Origin)
      requires Opening(config, origin) && held == origin.held && encoder == EncoderAtEnd(NewEncoder, origin.acts)
      ensures Valid() && !failed && this.config == config && this.origin == origin
      ensures journal == [] && handed == [] && pending == [] && fresh(streams)
    {
      this.config, this.encoder, this.held, this.origin := config, encoder, held, origin;
      streams := new Streams<()>(0);
      failed, app, active, requests := false, None, map[], map[];
      nextStream, nextRequest, peerWindow, counter := 1, 0, None, NewCounter;
      pending, journal, handed := [], [], [];
      new;
      hide Opening, LiveIn;
      assert streams.byWire == map[];
    }

    lemma ReadyLawful()
      requires Ready()
      ensures Lawful(config, Now())
    {
      hide Lawful, Follows, Opening, Encodes;
      RunLawful(config, origin, journal, |journal|);
    }

    /** Enter a step into the journal and queue its outputs. */
    method Conclude(ghost cause: Cause, ghost acts: seq<Action>, ghost plans: seq<Plan>, outs: seq<Output>,
            ghost faltered: bool)
      requires !failed && Steady() && Sound(config, origin, journal) && Outs(journal) == handed + pending
      requires Follows(config, At(origin, journal, |journal|),
               Record(cause, acts, plans, outs, faltered, Now(), encoder))
      requires Makes(EncoderAt(origin, journal, |journal|), acts, plans, encoder)
      modifies this`journal, this`pending
      ensures Valid() && Grown(old(journal), journal, cause, faltered) && pending == old(pending) + outs
    {
      hide Follows, Makes, Sound, Outs, Steady, Now;
      ghost var r := Record(cause, acts, plans, outs, faltered, Now(), encoder);
      SoundOn(config, origin, journal, r);
      JournalAppend(origin, journal, r);
      assert handed + (pending + outs) == handed + pending + outs;
      journal := journal + [r];
      pending := pending + outs;
    }

    // ----- sending ------------------------------------------------------------------------------------

    /** Encode a reply, stamped with the time of day. */
    method Issue(reply: Reply, streamId: u32) returns (r: Result<Plan, SessionError>, ghost a: Action)
      modifies this`encoder
      ensures r.Ok? ==> Carries(a, reply, streamId) && Makes(old(encoder), [a], [r.value], encoder)
      ensures r.Err? ==> encoder == old(encoder) && Excuse(r.error)
    {
      hide Makes, Carries, TypeFor;
      var amf3: bool := *;
      r, a := IssueIn(reply, streamId, amf3);
    }

    /** Encode a reply in the framing of an AMF version. */
    method IssueIn(reply: Reply, streamId: u32, amf3: bool) returns (r: Result<Plan, SessionError>, ghost a: Action)
      modifies this`encoder
      ensures r.Ok? ==> Carries(a, reply, streamId) && Makes(old(encoder), [a], [r.value], encoder)
      ensures r.Ok? ==> a.m.typeId == TypeFor(reply, amf3)
      ensures r.Err? ==> encoder == old(encoder) && Excuse(r.error)
    {
      hide NextHeader, NextFormat, HeaderBytes, Makes;
      var now: u32 := *;
      var body := Write(reply);
      a := Resize(1, 0);
      if body.None? {
        return Err(Unwritable), a;
      }
      var m := RawMessage(now, TypeFor(reply, amf3), streamId, body.value);
      a := Send(m, Options(false, false), true);
      match Encode(encoder, m, Options(false, false))
      case Err(e) => return Err(EncodeFailed(e)), a;
      case Ok((next, plan)) =>
        MakesOne(encoder, a, next, plan);
        encoder := next;
        return Ok(plan), a;
    }

    /** Encode a reply behind others of the same step. */
    method IssueNext(reply: Reply, streamId: u32, amf3: bool, ghost before: Encoder, ghost acts: seq<Action>,
            ghost plans: seq<Plan>)
        returns (r: Result<Plan, SessionError>, ghost a: Action)
      requires Makes(before, acts, plans, encoder)
      modifies this`encoder
      ensures r.Ok? ==> Carries(a, reply, streamId) && Makes(before, acts + [a], plans + [r.value], encoder)
      ensures r.Ok? ==> a.m.typeId == TypeFor(reply, amf3)
      ensures r.Err? ==> encoder == old(encoder) && Excuse(r.error)
    {
      hide Makes, TypeFor;
      r, a := IssueIn(reply, streamId, amf3);
      if r.Ok? {
        MakesConcat(before, acts, plans, old(encoder), [a], [r.value], encoder);
      }
    }

    // ----- decisions of the application -----------------------------------------------------------------

    /** Accept a request. It is never refused because its stream has gone. */
    method AcceptRequest(number: nat) returns (error: Option<SessionError>)
      requires Valid()
      modifies this`app, this`requests, this`active, this`held, this`encoder, this`pending, this`journal
      ensures Valid()
      ensures error.None? ==> !failed && Grown(old(journal), journal, Accept(number), false)
      ensures error.Some? ==>
        if failed then error.value == SessionFailed && journal == old(journal) && pending == old(pending)
        else if number !in old(requests) then error.value == InvalidRequestId && journal == old(journal)
            && pending == old(pending)
        else Grown(old(journal), journal, Accept(number), true) && Excuse(error.value) && pending == old(pending)
    {
      hide Lawful, Sound, Grown, Outs, LiveIn, Streams.Live, Streams.Valid, Streams.Indexed;
      if failed {
        return Some(SessionFailed);
      }
      if number !in requests {
        return Some(InvalidRequestId);
      }
      var q := requests[number];
      assert q.ConnectionRequest? || q.streamId in active by {
        ReadyLawful();
        if !q.ConnectionRequest? {
          Concerned(config, Now(), number, q.streamId);
        }
      }
      match q
      case ConnectionRequest(_) => error := AcceptConnection(number);
      case PublishRequested(_, _, _) => error := AcceptPublish(number);
      case PlayRequested(_, _) => error := AcceptPlay(number);
    }

    method AcceptConnection(number: nat) returns (error: Option<SessionError>)
      requires !failed && Ready() && Outs(journal) == handed + pending && number in requests
               && requests[number].ConnectionRequest?
      modifies this`app, this`requests, this`held, this`encoder, this`pending, this`journal
      ensures Valid() && Grown(old(journal), journal, Accept(number), error.Some?)
      ensures error.Some? ==> Excuse(error.value) && pending == old(pending)
    {
      hide Follows, Carries, Makes, Sound, Outs, LiveIn, Streams.Live, Streams.Valid, Streams.Indexed, Grown, Excuse;
      ghost var before := Now();
      app := Some(requests[number].app);
      requests := requests - {number};
      var r, a := Issue(ConnectAnswer, 0);
      if r.Err? {
        MakesNothing(encoder);
        ConnectFollows(config, before, number, Record(Accept(number), [], [], [], true, Now(), encoder));
        Conclude(Accept(number), [], [], [], true);
        assert pending == old(pending);
        return Some(r.error);
      }
      var outs := held + [PacketOut(r.value)];
      held := [];
      ConnectFollows(config, before, number, Record(Accept(number), [a], [r.value], outs, false, Now(), encoder));
      Conclude(Accept(number), [a], [r.value], outs, false);
      return None;
    }

    method AcceptPublish(number: nat) returns (error: Option<SessionError>)
      requires !failed && Ready() && Outs(journal) == handed + pending && number in requests
               && requests[number].PublishRequested?
      modifies this`requests, this`active, this`encoder, this`pending, this`journal
      ensures Valid() && Grown(old(journal), journal, Accept(number), error.Some?)
      ensures error.Some? ==> pending == old(pending)
      ensures var id := old(requests)[number].streamId;
              (id !in old(active) <==> error == Some(InactiveStream(id)))
                  && (error.Some? && id in old(active) ==> Excuse(error.value))
    {
      hide Follows, Carries, Makes, Sound, Outs, LiveIn, Streams.Live, Streams.Valid, Streams.Indexed, Grown;
      ghost var before := Now();
      var q := requests[number];
      requests := requests - {number};
      MakesNothing(encoder);
      if q.streamId !in active {
        PublishFollows(config, before, number, Record(Accept(number), [], [], [], true, Now(), encoder));
        Conclude(Accept(number), [], [], [], true);
        return Some(InactiveStream(q.streamId));
      }
      active := active[q.streamId := Publishing(q.key, q.mode)];
      ghost var e := encoder;
      var begin, a := Issue(StreamBegin(q.streamId), q.streamId);
      if begin.Err? {
        PublishFollows(config, before, number, Record(Accept(number), [], [], [], true, Now(), encoder));
        Conclude(Accept(number), [], [], [], true);
        return Some(begin.error);
      }
      var amf3: bool := *;
      var status, b := IssueNext(PublishStart, q.streamId, amf3, e, [a], [begin.value]);
      if status.Err? {
        PublishFollows(config, before, number, Record(Accept(number), [a], [begin.value], [], true, Now(), encoder));
        Conclude(Accept(number), [a], [begin.value], [], true);
        return Some(status.error);
      }
      var outs := [PacketOut(begin.value), PacketOut(status.value)];
      ghost var acts, plans := [a] + [b], [begin.value] + [status.value];
      PublishFollows(config, before, number, Record(Accept(number), acts, plans, outs, false, Now(), encoder));
      Conclude(Accept(number), acts, plans, outs, false);
      return None;
    }

    /** The five packets that answer a play request, in the order in which they are encoded. */
    method EncodePlay(id: u32)
        returns (r: Result<seq<Plan>, SessionError>, ghost acts: seq<Action>, ghost plans: seq<Plan>)
      modifies this`encoder
      ensures Makes(old(encoder), acts, plans, encoder) && |acts| == |plans|
      ensures r.Ok? ==>
        && r.value == plans && |plans| == 5
        && Carries(acts[0], StreamBegin(id), id) && Carries(acts[1], PlayStart, id)
        && Carries(acts[2], SampleAccess, id)
        && Carries(acts[3], DataStart, id) && Carries(acts[4], PlayReset, id) && OneFraming(acts)
      ensures r.Err? ==>
        |acts| < 5 && Excuse(r.error) && forall i :: 0 <= i < |acts| ==> Carries(acts[i], PlayReply(i, id), id)
    {
      hide Makes, ServerProtocol.Body;
      ghost var e := encoder;
      var amf3: bool := *;
      acts, plans := [], [];
      MakesNothing(encoder);
      var begin, a := IssueNext(StreamBegin(id), id, amf3, e, acts, plans);
      if begin.Err? {
        return Err(begin.error), acts, plans;
      }
      acts, plans := acts + [a], plans + [begin.value];
      var start, b := IssueNext(PlayStart, id, amf3, e, acts, plans);
      if start.Err? {
        return Err(start.error), acts, plans;
      }
      acts, plans := acts + [b], plans + [start.value];
      var access, c := IssueNext(SampleAccess, id, amf3, e, acts, plans);
      if access.Err? {
        return Err(access.error), acts, plans;
      }
      acts, plans := acts + [c], plans + [access.value];
      var data, d := IssueNext(DataStart, id, amf3, e, acts, plans);
      if data.Err? {
        return Err(data.error), acts, plans;
      }
      acts, plans := acts + [d], plans + [data.value];
      var reset, f := IssueNext(PlayReset, id, amf3, e, acts, plans);
      if reset.Err? {
        return Err(reset.error), acts, plans;
      }
      acts, plans := acts + [f], plans + [reset.value];
      return Ok([begin.value, start.value, access.value, data.value, reset.value]), acts, plans;
    }

    method AcceptPlay(number: nat) returns (error: Option<SessionError>)
      requires !failed && Ready() && Outs(journal) == handed + pending && number in requests
               && requests[number].PlayRequested?
      modifies this`requests, this`active, this`encoder, this`pending, this`journal
      ensures Valid() && Grown(old(journal), journal, Accept(number), error.Some?)
      ensures error.Some? ==> pending == old(pending)
      ensures var id := old(requests)[number].streamId;
              (id !in old(active) <==> error == Some(InactiveStream(id)))
                  && (error.Some? && id in old(active) ==> Excuse(error.value))
    {
      hide Follows, Carries, Makes, Sound, Outs, LiveIn, Streams.Live, Streams.Valid, Streams.Indexed, Grown;
      ghost var before := Now();
      var q := requests[number];
      requests := requests - {number};
      if q.streamId !in active {
        MakesNothing(encoder);
        PlayFollows(config, before, number, Record(Accept(number), [], [], [], true, Now(), encoder));
        Conclude(Accept(number), [], [], [], true);
        return Some(InactiveStream(q.streamId));
      }
      active := active[q.streamId := Playing(q.key)];
      var r, acts, plans := EncodePlay(q.streamId);
      if r.Err? {
        PlayFollows(config, before, number, Record(Accept(number), acts, plans, [], true, Now(), encoder));
        Conclude(Accept(number), acts, plans, [], true);
        return Some(r.error);
      }
      var p := r.value;
      var outs := [PacketOut(p[4]), PacketOut(p[0]), PacketOut(p[1]), PacketOut(p[2]), PacketOut(p[3])];
      PlayFollows(config, before, number, Record(Accept(number), acts, plans, outs, false, Now(), encoder));
      Conclude(Accept(number), acts, plans, outs, false);
      return None;
    }

    /** Reject a request. A refused connection also gets the control packets held back for it. */
    method RejectRequest(number: nat) returns (error: Option<SessionError>)
      requires Valid()
      modifies this`requests, this`held, this`encoder, this`pending, this`journal
      ensures Valid()
      ensures error.None? ==> !failed && Grown(old(journal), journal, Reject(number), false)
      ensures error.Some? ==>
        if failed then error.value == SessionFailed && journal == old(journal) && pending == old(pending)
        else if number !in old(requests) then error.value == InvalidRequestId && journal == old(journal)
            && pending == old(pending)
        else Grown(old(journal), journal, Reject(number), true) && Excuse(error.value) && pending == old(pending)
    {
      hide Follows, Carries, Makes, Sound, Outs, LiveIn, Streams.Live, Streams.Valid, Streams.Indexed, Grown, Excuse;
      if failed {
        return Some(SessionFailed);
      }
      if number !in requests {
        return Some(InvalidRequestId);
      }
      ghost var before := Now();
      var q := requests[number];
      requests := requests - {number};
      var outs: seq<Output> := [];
      if q.ConnectionRequest? {
        outs, held := held, [];
      }
      var r, a := Issue(if q.ConnectionRequest? then CommandError else Rejection,
          if q.ConnectionRequest? then 0 else q.streamId);
      if r.Err? {
        MakesNothing(encoder);
        RejectFollows(config, before, number, Record(Reject(number), [], [], [], true, Now(), encoder));
        Conclude(Reject(number), [], [], [], true);
        return Some(r.error);
      }
      outs := outs + [PacketOut(r.value)];
      RejectFollows(config, before, number, Record(Reject(number), [a], [r.value], outs, false, Now(), encoder));
      Conclude(Reject(number), [a], [r.value], outs, false);
      return None;
    }

    // ----- packets that leave at once -----------------------------------------------------------------

    /** Hand out everything that waits. */
    method HandOver()
      requires Valid() && !failed
      modifies this`pending, this`handed
      ensures Valid() && pending == [] && handed == old(handed) + old(pending)
    {
      hide Sound, Outs, Steady, Recorded;
      handed, pending := handed + pending, [];
      assert handed + [] == handed;
    }

    /** The ID of the stream that has the handle. */
    method WireOf(stream: Handle) returns (id: Option<u32>)
      requires Ready()
      ensures id.None? ==> Unknown(Now(), stream)
      ensures id.Some? ==> id.value in streams.byWire && streams.byWire[id.value] == stream && id.value in active
    {
      hide Sound, LiveIn, Streams.Live, Streams.Valid;
      var entry := streams.Get(stream);
      assert active.Keys == streams.byWire.Keys by {
        ReadyLawful();
        hide Standing, OnAir;
      }
      return if entry.None? then None else entry.value.wire;
    }

    lemma KnownHandle(stream: Handle, id: u32)
      requires id in streams.byWire && streams.byWire[id] == stream
      ensures !Unknown(Now(), stream)
    {
    }

    /** End playback on a stream that is playing. */
    method CompletePlayback(stream: Handle) returns (r: Result<Plan, SessionError>)
      requires Valid()
      modifies this`active, this`encoder, this`pending, this`handed, this`journal
      ensures Valid()
      ensures r.Ok? ==>
        && !failed && Grown(old(journal), journal, Complete(stream), false)
        && old(pending) == pending == [] && handed == old(handed) + [PacketOut(r.value)]
      ensures r.Err? ==> handed == old(handed) && pending == old(pending)
      ensures r.Err? ==>
        if failed then r.error == SessionFailed && journal == old(journal)
        else
          || (journal == old(journal) && CompleteDenied(old(Now()), old(pending) != [], stream, r.error))
          || (Grown(old(journal), journal, Complete(stream), true) && Excuse(r.error))
    {
      hide Follows, Carries, Makes, Sound, Outs, LiveIn, Streams.Live, Streams.Valid, Streams.Indexed, Grown, Unknown;
      if failed {
        return Err(SessionFailed);
      }
      if pending != [] {
        return Err(PendingOutput);
      }
      if app.None? {
        return Err(NotConnected);
      }
      var id := WireOf(stream);
      if id.None? {
        return Err(InvalidHandle);
      }
      KnownHandle(stream, id.value);
      if !active[id.value].Playing? {
        return Err(InactiveStream(id.value));
      }
      r := FinishPlayback(stream, id.value);
    }

    method FinishPlayback(stream: Handle, id: u32) returns (r: Result<Plan, SessionError>)
      requires !failed && Ready() && Outs(journal) == handed + pending && pending == [] && Plays(Now(), stream, id)
      modifies this`active, this`encoder, this`pending, this`handed, this`journal
      ensures Valid() && Grown(old(journal), journal, Complete(stream), r.Err?) && pending == []
      ensures r.Ok? ==> handed == old(handed) + [PacketOut(r.value)]
      ensures r.Err? ==> handed == old(handed) && Excuse(r.error)
    {
      hide Follows, Carries, Makes, Sound, Outs, LiveIn, Streams.Live, Streams.Valid, Streams.Indexed, Grown, Plays;
      ghost var before := Now();
      active := active[id := Completed];
      ghost var a;
      r, a := Issue(PlayComplete, id);
      if r.Err? {
        MakesNothing(encoder);
        CompleteFollows(config, before, stream, id, Record(Complete(stream), [], [], [], true, Now(), encoder));
        Conclude(Complete(stream), [], [], [], true);
        return;
      }
      CompleteFollows(config, before, stream, id,
          Record(Complete(stream), [a], [r.value], [PacketOut(r.value)], false, Now(), encoder));
      Conclude(Complete(stream), [a], [r.value], [PacketOut(r.value)], false);
      HandOver();
    }

    /** Send media or script data on a stream that is playing. */
    method SendMessage(stream: Handle, typeId: byte, timestamp: u32, data: seq<byte>, droppable: bool)
        returns (r: Result<Plan, SessionError>)
      requires Valid() && (typeId in {8, 9} || (typeId in {15, 18} && !droppable))
      modifies this`encoder, this`pending, this`handed, this`journal
      ensures Valid()
      ensures r.Ok? ==>
        && !failed && Grown(old(journal), journal, Deliver(stream, typeId, timestamp, data, droppable), false)
        && old(pending) == pending == [] && handed == old(handed) + [PacketOut(r.value)]
      ensures r.Err? ==> journal == old(journal) && handed == old(handed) && pending == old(pending)
      ensures r.Err? ==> if failed then r.error == SessionFailed
              else DeliverDenied(Now(), pending != [], stream, data, r.error)
    {
      hide Follows, Carries, Makes, Sound, Outs, LiveIn, Streams.Live, Streams.Valid, Streams.Indexed, Grown, Unknown;
      if failed {
        return Err(SessionFailed);
      }
      if pending != [] {
        return Err(PendingOutput);
      }
      if app.None? {
        return Err(NotConnected);
      }
      var id := WireOf(stream);
      if id.None? {
        return Err(InvalidHandle);
      }
      KnownHandle(stream, id.value);
      if !active[id.value].Playing? {
        return Err(NotPlaying);
      }
      r := Transmit(stream, id.value, typeId, timestamp, data, droppable);
    }

    method Transmit(stream: Handle, id: u32, typeId: byte, timestamp: u32, data: seq<byte>, droppable: bool)
        returns (r: Result<Plan, SessionError>)
      requires !failed && Ready() && Outs(journal) == handed + pending && pending == [] && Plays(Now(), stream, id)
      requires typeId in {8, 9} || (typeId in {15, 18} && !droppable)
      modifies this`encoder, this`pending, this`handed, this`journal
      ensures Valid() && pending == []
      ensures r.Ok? ==>
        Grown(old(journal), journal, Deliver(stream, typeId, timestamp, data, droppable), false)
            && handed == old(handed) + [PacketOut(r.value)]
      ensures r.Err? ==> journal == old(journal) && handed == old(handed) && |data| > MAX24 && r.error.EncodeFailed?
    {
      hide Follows, Carries, Makes, Sound, Outs, LiveIn, Streams.Live, Streams.Valid, Streams.Indexed, Grown, Plays,
          NextHeader, NextFormat;
      var m := RawMessage(timestamp, typeId, id, data);
      ghost var a := Send(m, Options(false, droppable), true);
      match Encode(encoder, m, Options(false, droppable))
      case Err(e) => return Err(EncodeFailed(e));
      case Ok((next, plan)) =>
        MakesOne(encoder, a, next, plan);
        encoder := next;
        DeliverFollows(config, Now(), stream, id, typeId, timestamp, data, droppable, plan, encoder);
        Conclude(Deliver(stream, typeId, timestamp, data, droppable), [a], [plan], [PacketOut(plan)], false);
        HandOver();
        return Ok(plan);
    }

    method SendPing() returns (r: Result<Plan, SessionError>)
      requires Valid()
      modifies this`encoder, this`pending, this`handed, this`journal
      ensures Valid()
      ensures r.Ok? ==>
        && !failed && Grown(old(journal), journal, PingPeer, false)
        && old(pending) == pending == [] && handed == old(handed) + [PacketOut(r.value)]
      ensures r.Err? ==> journal == old(journal) && handed == old(handed) && pending == old(pending)
      ensures r.Err? ==> if failed then r.error == SessionFailed else PingDenied(Now(), pending != [], r.error)
    {
      hide Follows, Carries, Makes, Sound, Outs, LiveIn, Streams.Live, Streams.Valid, Streams.Indexed, Grown;
      if failed {
        return Err(SessionFailed);
      }
      if pending != [] {
        return Err(PendingOutput);
      }
      if app.None? {
        return Err(NotConnected);
      }
      ghost var a;
      r, a := Issue(Ping, 0);
      if r.Ok? {
        PingFollows(config, Now(), Record(PingPeer, [a], [r.value], [PacketOut(r.value)], false, Now(), encoder));
        Conclude(PingPeer, [a], [r.value], [PacketOut(r.value)], false);
        HandOver();
      }
    }

    // ----- messages of the client -----------------------------------------------------------------------

    /** Count the bytes of a decode step, and acknowledge if the window is full. */
    method Count(consumed: nat) returns (error: Option<SessionError>)
      requires !failed && Ready() && Outs(journal) == handed + pending
      modifies this`counter, this`encoder, this`pending, this`journal
      ensures error.None? ==> Valid() && Grown(old(journal), journal, Take(consumed), false)
      ensures error.Some? ==> journal == old(journal) && Excuse(error.value)
    {
      hide Follows, Carries, Makes, Sound, Outs, LiveIn, Streams.Live, Streams.Valid, Streams.Indexed, Grown, Tally;
      ghost var before := Now();
      WindowPositive();
      var window := if peerWindow.Some? then peerWindow.value else config.windowSize;
      var (next, sequence) := Tally(counter, consumed, window);
      if sequence.None? {
        counter := next;
        MakesNothing(encoder);
        TakeFollows(config, before, consumed, [], [], [], encoder);
        Conclude(Take(consumed), [], [], [], false);
        return None;
      }
      var r, a := Issue(Acknowledge(sequence.value), 0);
      if r.Err? {
        return Some(r.error);
      }
      counter := next;
      TakeFollows(config, before, consumed, [a], [r.value], [PacketOut(r.value)], encoder);
      Conclude(Take(consumed), [a], [r.value], [PacketOut(r.value)], false);
      return None;
    }

    lemma WindowPositive()
      requires Ready()
      ensures config.windowSize > 0 && (peerWindow.Some? ==> peerWindow.value > 0)
    {
      hide Matching, Standing, OnAir, IsRun, Encodes, Makes, Fully;
      ReadyLawful();
    }

    /** Record a request for the application to decide, under the next number. */
    method Ask(q: Request) returns (r: Result<nat, SessionError>)
      modifies this`requests, this`nextRequest
      ensures r.Ok? ==>
              old(|requests|) < config.maxRequests && r.value == old(nextRequest)
              && requests == old(requests)[r.value := q]
      ensures r.Err? ==> old(|requests|) >= config.maxRequests && r.error == TooManyRequests
      ensures nextRequest == (old(nextRequest) + 1) % NUMBERS
    {
      var number := nextRequest;
      nextRequest := (nextRequest + 1) % NUMBERS;
      if |requests| >= config.maxRequests {
        return Err(TooManyRequests);
      }
      requests := requests[number := q];
      return Ok(number);
    }

    /** Enter a step that only tells the application something. */
    method Tell(ghost m: Incoming, outs: seq<Output>)
      requires !failed && Steady() && Sound(config, origin, journal) && Outs(journal) == handed + pending
      requires EncoderAt(origin, journal, |journal|) == encoder
      requires Reacts(config, At(origin, journal, |journal|), m, Record(Hear(m), [], [], outs, false, Now(), encoder))
      modifies this`journal, this`pending
      ensures Valid() && Grown(old(journal), journal, Hear(m), false)
    {
      hide Follows, Makes, Sound, Outs, Steady, Grown, Reacts, Now;
      MakesNothing(encoder);
      HearFollows(config, At(origin, journal, |journal|), m, Record(Hear(m), [], [], outs, false, Now(), encoder));
      Conclude(Hear(m), [], [], outs, false);
    }

    /** Answer a message with one reply. */
    method Answer(ghost m: Incoming, reply: Reply, streamId: u32) returns (error: Option<SessionError>)
      requires !failed && Steady() && Sound(config, origin, journal) && Outs(journal) == handed + pending
      requires EncoderAt(origin, journal, |journal|) == encoder
      requires forall r: Record :: r.cause == Hear(m) && r.after == Now() && Answers(r, reply, streamId) ==>
               Reacts(config, At(origin, journal, |journal|), m, r)
      modifies this`encoder, this`journal, this`pending
      ensures error.None? ==> Valid() && Grown(old(journal), journal, Hear(m), false)
      ensures error.Some? ==> journal == old(journal) && Excuse(error.value)
    {
      hide Follows, Makes, Sound, Outs, Steady, Grown, Reacts, Now, Carries;
      var r, a := Issue(reply, streamId);
      if r.Err? {
        return Some(r.error);
      }
      ghost var record := Record(Hear(m), [a], [r.value], [PacketOut(r.value)], false, Now(), encoder);
      assert Answers(record, reply, streamId);
      HearFollows(config, At(origin, journal, |journal|), m, record);
      Conclude(Hear(m), [a], [r.value], [PacketOut(r.value)], false);
      return None;
    }

    method OnConnect(name: Option<seq<byte>>) returns (error: Option<SessionError>)
      requires !failed && Ready() && Outs(journal) == handed + pending
      modifies this`requests, this`nextRequest, this`pending, this`journal
      ensures error.None? ==> Valid() && Grown(old(journal), journal, Hear(Connect(name)), false)
      ensures error.Some? ==> journal == old(journal) && Faulty(config, old(Now()), Connect(name), error.value)
    {
      hide Follows, Makes, Sound, Outs, LiveIn, Streams.Live, Streams.Valid, Streams.Indexed, Grown;
      if name.None? {
        return Some(NoAppName);
      }
      var r := Ask(ConnectionRequest(name.value));
      if r.Err? {
        return Some(r.error);
      }
      Tell(Connect(name), [EventOut(ConnectionRequested(r.value))]);
      return None;
    }

    /** A new stream gets an ID that was never given before. */
    method OnCreateStream() returns (error: Option<SessionError>)
      requires !failed && Ready() && Outs(journal) == handed + pending
      modifies this`active, this`nextStream, this`encoder, this`pending, this`journal, streams
      ensures error.None? ==> Valid() && Grown(old(journal), journal, Hear(CreateStream), false)
      ensures error.Some? ==> journal == old(journal) && Faulty(config, old(Now()), CreateStream, error.value)
    {
      hide Follows, Makes, Sound, Outs, LiveIn, Streams.Live, Streams.Valid, Streams.Indexed, Grown, Excuse, Answers;
      if |active| >= config.maxStreams {
        return Some(TooManyStreams);
      }
      var id := nextStream;
      if id == 0xffff_ffff {
        return Some(StreamIdsExhausted);
      }
      NextUnused();
      nextStream := nextStream + 1;
      active := active[id := Created];
      var h := streams.Insert((), Some(id));
      error := Answer(CreateStream, Number(id), 0);
    }

    lemma NextUnused()
      requires Ready()
      ensures nextStream !in streams.byWire
    {
      hide Standing, OnAir, Sound;
      ReadyLawful();
    }

    /** The handle of an active stream. */
    method HandleFor(id: u32) returns (h: Option<Handle>)
      requires Ready()
      ensures h.Some? <==> id in active
      ensures h.Some? ==> id in streams.byWire && h.value == streams.byWire[id] && h.value == HandleOf(Now(), id)
    {
      hide Sound, LiveIn, Streams.Live, Streams.Valid;
      h := streams.Find(id);
      assert active.Keys == streams.byWire.Keys by {
        ReadyLawful();
        hide Standing, OnAir;
      }
    }

    method OnCloseStream(argument: Option<u32>)
      requires !failed && Ready() && Outs(journal) == handed + pending
      modifies this`active, this`pending, this`journal
      ensures Valid() && Grown(old(journal), journal, Hear(CloseStream(argument)), false)
    {
      hide Follows, Makes, Sound, Outs, LiveIn, Streams.Live, Streams.Valid, Streams.Indexed, Grown, Farewells;
      if app.None? || argument.None? || argument.value !in active {
        Tell(CloseStream(argument), []);
        return;
      }
      var id := argument.value;
      var h := HandleFor(id);
      var outs := Farewells(active[id], h.value, id);
      active := active[id := Created];
      Tell(CloseStream(argument), outs);
    }

    /** A deleted stream takes its requests and its handle with it. */
    method OnDeleteStream(argument: Option<u32>)
      requires !failed && Ready() && Outs(journal) == handed + pending
      modifies this`active, this`requests, this`pending, this`journal, streams
      ensures Valid() && Grown(old(journal), journal, Hear(DeleteStream(argument)), false)
    {
      hide Follows, Makes, Sound, Outs, LiveIn, Streams.Live, Streams.Valid, Grown, Farewells, Without;
      if app.None? || argument.None? || argument.value !in active {
        Tell(DeleteStream(argument), []);
        return;
      }
      var id := argument.value;
      var h := HandleFor(id);
      var outs := Farewells(active[id], h.value, id);
      active := active - {id};
      requests := Without(requests, id);
      var _ := streams.Remove(h.value);
      Tell(DeleteStream(argument), outs);
    }

    /** A publish command: refused, or put to the application. */
    method OnPublish(id: u32, arguments: Arguments<(seq<byte>, PublishMode)>) returns (error: Option<SessionError>)
      requires !failed && Ready() && Outs(journal) == handed + pending
      modifies this`requests, this`nextRequest, this`encoder, this`pending, this`journal
      ensures error.None? ==> Valid() && Grown(old(journal), journal, Hear(Publish(id, arguments)), false)
      ensures error.Some? ==> journal == old(journal) && Faulty(config, old(Now()), Publish(id, arguments), error.value)
    {
      hide Follows, Makes, Sound, Outs, LiveIn, Streams.Live, Streams.Valid, Streams.Indexed, Grown, Excuse, Answers,
          HandleOf;
      var h := HandleFor(id);
      if arguments.TooFew? || app.None? || h.None? || arguments.Malformed? {
        error := Answer(Publish(id, arguments), CommandError, id);
        return;
      }
      var r := Ask(PublishRequested(arguments.value.0, arguments.value.1, id));
      if r.Err? {
        return Some(r.error);
      }
      Tell(Publish(id, arguments), [EventOut(PublishStreamRequested(h.value, id, r.value))]);
      return None;
    }

    method OnPlay(id: u32, arguments: Arguments<seq<byte>>) returns (error: Option<SessionError>)
      requires !failed && Ready() && Outs(journal) == handed + pending
      modifies this`requests, this`nextRequest, this`encoder, this`pending, this`journal
      ensures error.None? ==> Valid() && Grown(old(journal), journal, Hear(Play(id, arguments)), false)
      ensures error.Some? ==> journal == old(journal) && Faulty(config, old(Now()), Play(id, arguments), error.value)
    {
      hide Follows, Makes, Sound, Outs, LiveIn, Streams.Live, Streams.Valid, Streams.Indexed, Grown, Excuse, Answers,
          HandleOf;
      var h := HandleFor(id);
      if arguments.TooFew? || app.None? || h.None? || arguments.Malformed? {
        error := Answer(Play(id, arguments), CommandError, id);
        return;
      }
      var r := Ask(PlayRequested(arguments.value, id));
      if r.Err? {
        return Some(r.error);
      }
      Tell(Play(id, arguments), [EventOut(PlayStreamRequested(h.value, id, r.value))]);
      return None;
    }

    /** Audio, video or script data: reported only on a publishing stream. */
    method OnMedia(id: u32)
      requires !failed && Ready() && Outs(journal) == handed + pending
      modifies this`pending, this`journal
      ensures Valid() && Grown(old(journal), journal, Hear(Media(id)), false)
    {
      hide Follows, Makes, Sound, Outs, LiveIn, Streams.Live, Streams.Valid, Streams.Indexed, Grown, HandleOf;
      if app.None? || id !in active || !active[id].Publishing? {
        Tell(Media(id), []);
        return;
      }
      var h := HandleFor(id);
      Tell(Media(id), [EventOut(MediaReceived(h.value, id, active[id].key))]);
    }

    /** Handle a message of the client. */
    method Heed(m: Incoming) returns (error: Option<SessionError>)
      requires !failed && Ready() && Outs(journal) == handed + pending
      modifies this`active, this`requests, this`nextStream, this`nextRequest, this`peerWindow, this`encoder,
          this`pending, this`journal, streams
      ensures error.None? ==> Valid() && Grown(old(journal), journal, Hear(m), false)
      ensures error.Some? ==> journal == old(journal) && Faulty(config, old(Now()), m, error.value)
    {
      hide Follows, Makes, Sound, Outs, LiveIn, Streams.Live, Streams.Valid, Streams.Indexed, Grown, Answers, Steady;
      error := None;
      match m
      case Connect(name) => error := OnConnect(name);
      case CreateStream => error := OnCreateStream();
      case CloseStream(argument) => OnCloseStream(argument);
      case DeleteStream(argument) => OnDeleteStream(argument);
      case Publish(id, arguments) => error := OnPublish(id, arguments);
      case Play(id, arguments) => error := OnPlay(id, arguments);
      case Media(id) => OnMedia(id);
      case PingHeard(time) => error := Answer(m, Pong(time), 0);
      case WindowHeard(size) =>
        if size == 0 {
          return Some(ZeroWindow);
        }
        peerWindow := Some(size);
        Tell(m, []);
    }

    // ----- input -------------------------------------------------------------------------------------------

    /** Hand out the first output that waits. */
    method Pop() returns (output: Output)
      requires Valid() && pending != []
      modifies this`pending, this`handed
      ensures Valid() && [output] + pending == old(pending) && handed == old(handed) + [output]
    {
      hide Ready, Sound, Outs;
      output := pending[0];
      assert pending == [output] + pending[1..];
      assert handed + ([output] + pending[1..]) == handed + [output] + pending[1..];
      handed, pending := handed + [output], pending[1..];
    }

    /** An input error ends the session. */
    method Fail()
      requires Sound(config, origin, journal) && handed <= Outs(journal)
      modifies this`failed, this`pending
      ensures Valid() && failed
    {
      failed, pending := true, [];
    }

    lemma Parts()
      requires Valid()
      ensures Sound(config, origin, journal) && handed <= Outs(journal)
      ensures !failed ==> Outs(journal) == handed + pending && At(origin, journal, |journal|) == Now()
    {
      hide Sound, Outs, Steady;
    }

    /** One call for input. What waits is handed out first. Otherwise the next decode step, which took in
        `consumed` bytes and gave the message `m` if any, is counted and handled. An error ends the
        session, and what was not handed out is discarded. */
    method Receive(consumed: nat, m: Option<Incoming>) returns (r: Result<Received, SessionError>)
      requires Valid()
      modifies this`failed, this`active, this`requests, this`nextStream, this`nextRequest, this`peerWindow,
          this`counter, this`encoder,
               this`pending, this`journal, this`handed, streams
      ensures Valid() && (failed <==> old(failed) || (r.Err? && !old(failed)))
      ensures r.Ok? ==> !failed && handed == old(handed) + OutputsOf(r.value)
      ensures r.Err? ==> handed == old(handed)
      ensures old(failed) ==> r == Err(SessionFailed) && journal == old(journal)
      ensures !old(failed) && old(pending) != [] ==>
              r.Ok? && r.value == Waiting(old(pending)[0]) && journal == old(journal)
      ensures !old(failed) && old(pending) == [] ==> Handles(config, origin, old(journal), consumed, m, journal, r)
    {
      hide Follows, Makes, Sound, Outs, Grown, Ready, Faulty, Excuse, Now;
      if failed {
        return Err(SessionFailed);
      }
      if pending != [] {
        var output := Pop();
        return Ok(Waiting(output));
      }
      Parts();
      var error := Count(consumed);
      if error.Some? {
        Fail();
        return Err(error.value);
      }
      Parts();
      ghost var mid := journal;
      if m.Some? {
        error := Heed(m.value);
        if error.Some? {
          Fail();
          return Err(error.value);
        }
      }
      if pending == [] {
        return Ok(Decoded(None));
      }
      var output := Pop();
      return Ok(Decoded(Some(output)));
    }
  }

  // ----- creation ---------------------------------------------------------------------------------------

  /** Encode a reply of the preamble, with a full header and in AMF0. */
  method EncodeFully(enc: Encoder, reply: Reply) returns (r: Result<(Encoder, Plan), SessionError>, ghost a: Action)
    ensures r.Ok? ==> Fully(a, reply) && (reply.BwDone? ==> a.m.typeId == 20) && Makes(enc, [a], [r.value.1], r.value.0)
    ensures r.Err? ==>
            Excuse(r.error)
            && !(reply.Acknowledge? || reply.WindowSize? || reply.StreamBegin? || reply.Bandwidth?)
  {
    hide NextHeader, NextFormat, HeaderBytes, Makes;
    var now: u32 := *;
    var body := Write(reply);
    a := Resize(1, 0);
    if body.None? {
      return Err(Unwritable), a;
    }
    var m := RawMessage(now, TypeFor(reply, false), 0, body.value);
    a := Send(m, Options(true, false), true);
    match Encode(enc, m, Options(true, false))
    case Err(e) => return Err(EncodeFailed(e)), a;
    case Ok((next, plan)) =>
      MakesOne(enc, a, next, plan);
      return Ok((next, plan)), a;
  }

  predicate Acceptable(config: Config) {
    config.windowSize > 0 && 0 < config.chunkSize <= 0x7fff_ffff
  }

  /** Encode the preamble. */
  method Prepare(config: Config) returns (r: Result<(Encoder, seq<Output>), SessionError>, ghost o: Origin)
    requires config.windowSize > 0
    ensures r.Ok? ==> Opening(config, o) && r.value.0 == EncoderAtEnd(NewEncoder, o.acts) && r.value.1 == o.held
    ensures r.Ok? ==> Acceptable(config)
    ensures r.Err? ==> Excuse(r.error) && (config.bwDone || !Acceptable(config))
  {
    hide NextHeader, NextFormat, HeaderBytes, Makes, Fully, PacketsIn;
    o := Origin([], []);
    var e0, p0;
    match EncodeChunkSize(NewEncoder, config.chunkSize, 0) {
      case Err(e) => return Err(EncodeFailed(e)), o;
      case Ok((next, plan)) => e0, p0 := next, plan;
    }
    MakesOne(NewEncoder, Resize(config.chunkSize, 0), e0, p0);
    var window, a := EncodeFully(e0, WindowSize(config.windowSize));
    MakesConcat(NewEncoder, [Resize(config.chunkSize, 0)], [p0], e0, [a], [window.value.1], window.value.0);
    var begin, b := EncodeFully(window.value.0, StreamBegin(0));
    var bandwidth, c := EncodeFully(begin.value.0, Bandwidth(config.bandwidth));
    MakesConcat(window.value.0, [b], [begin.value.1], begin.value.0, [c], [bandwidth.value.1], bandwidth.value.0);
    ghost var acts := [Resize(config.chunkSize, 0)] + [a] + ([b] + [c]);
    ghost var plans := [p0] + [window.value.1] + ([begin.value.1] + [bandwidth.value.1]);
    MakesConcat(NewEncoder, [Resize(config.chunkSize, 0)] + [a], [p0] + [window.value.1], window.value.0,
                [b] + [c], [begin.value.1] + [bandwidth.value.1], bandwidth.value.0);
    var held := [PacketOut(p0), PacketOut(window.value.1), PacketOut(begin.value.1), PacketOut(bandwidth.value.1)];
    FourPackets(p0, window.value.1, begin.value.1, bandwidth.value.1);
    if !config.bwDone {
      o := Origin(acts, held);
      OpeningFour(config, o, bandwidth.value.0);
      return Ok((bandwidth.value.0, held)), o;
    }
    var done, d := EncodeFully(bandwidth.value.0, BwDone);
    if done.Err? {
      return Err(done.error), o;
    }
    MakesConcat(NewEncoder, acts, plans, bandwidth.value.0, [d], [done.value.1], done.value.0);
    PacketsConcat(held, [PacketOut(done.value.1)]);
    PacketsOne<ServerEvent>(PacketOut(done.value.1));
    o := Origin(acts + [d], held + [PacketOut(done.value.1)]);
    OpeningFour(config, o, done.value.0);
    return Ok((done.value.0, held + [PacketOut(done.value.1)])), o;
  }

  lemma FourPackets(a: Plan, b: Plan, c: Plan, d: Plan)
    ensures PacketsIn<ServerEvent>([PacketOut(a), PacketOut(b), PacketOut(c), PacketOut(d)]) == [a] + [b] + ([c] + [d])
  {
    var outs: seq<Output> := [PacketOut(a), PacketOut(b), PacketOut(c), PacketOut(d)];
    assert outs[1..][1..] == outs[2..] && outs[2..][1..] == outs[3..] && outs[3..][1..] == [];
    assert PacketsIn(outs[3..]) == [d] + PacketsIn<ServerEvent>([]);
    assert PacketsIn(outs[2..]) == [c] + PacketsIn(outs[3..]);
  }

  lemma OpeningFour(config: Config, o: Origin, e: Encoder)
    requires Makes(NewEncoder, o.acts, PacketsIn(o.held), e) && config.windowSize > 0
    requires |o.acts| == (if config.bwDone then 5 else 4) && o.acts[0] == Resize(config.chunkSize, 0)
    requires Fully(o.acts[1], WindowSize(config.windowSize)) && Fully(o.acts[2], StreamBegin(0))
             && Fully(o.acts[3], Bandwidth(config.bandwidth))
    requires config.bwDone ==> Fully(o.acts[4], BwDone) && o.acts[4].m.typeId == 20
    ensures Opening(config, o) && e == EncoderAtEnd(NewEncoder, o.acts)
  {
    hide Fully, PacketsIn, AllMade, MadeBy;
  }

  /** A session is made unless its settings are out of range or its preamble cannot be written. */
  method Open(config: Config) returns (r: Result<ServerSession, SessionError>)
    ensures r.Ok? ==>
      && fresh(r.value) && fresh(r.value.streams) && r.value.Valid() && !r.value.failed && r.value.config == config
      && r.value.journal == [] && r.value.handed == [] && r.value.pending == [] && Acceptable(config)
    ensures r.Err? ==> if config.windowSize == 0 then r.error == ZeroWindow
            else Excuse(r.error)
                 && (config.bwDone || !Acceptable(config))
  {
    hide Opening;
    if config.windowSize == 0 {
      return Err(ZeroWindow);
    }
    var prepared, o := Prepare(config);
    if prepared.Err? {
      return Err(prepared.error);
    }
    var session := new ServerSession(config, prepared.value.0, prepared.value.1, o);
    return Ok(session);
  }

  // ----- whole runs ---------------------------------------------------------------------------------------

  datatype Step =
    | DoReceive(consumed: nat, message: Option<Incoming>)
    | DoAccept(number: nat)
    | DoReject(number: nat)
    | DoComplete(stream: Handle)
    | DoSend(stream: Handle, typeId: byte, timestamp: u32, data: seq<byte>, droppable: bool)
    | DoPing

  datatype Outcome = Done | Sent(packet: Plan) | Handed(received: Received) | Denied(error: SessionError)

  /** The steps so far, the outputs handed out, and whether the session has failed. */
  datatype Log = Log(journal: Journal, handed: seq<Output>, failed: bool)

  const NewLog := Log([], [], false)

  ghost predicate Kept(config: Config, o: Origin, log: Log) {
    Sound(config, o, log.journal) && log.handed <= Outs(log.journal)
  }

  /** Something waits to be handed out. */
  ghost predicate Waits(log: Log) {
    log.handed != Outs(log.journal)
  }

  /** The step happened, and this was handed out. */
  ghost predicate Steps(a: Log, b: Log, cause: Cause, faltered: bool, outputs: seq<Output>) {
    Grown(a.journal, b.journal, cause, faltered) && b.handed == a.handed + outputs && b.failed == a.failed
  }

  /** What may come of a decision on a request. */
  ghost predicate Decides(o: Origin, a: Log, number: nat, cause: Cause, outcome: Outcome, b: Log) {
    match outcome
    case Done => Steps(a, b, cause, false, [])
    case Denied(e) =>
      if number !in At(o, a.journal, |a.journal|).requests then e == InvalidRequestId && b == a
      else Excuse(e) && Steps(a, b, cause, true, [])
    case _ => false
  }

  /** What may come of a step. */
  ghost predicate Serves(config: Config, o: Origin, a: Log, step: Step, outcome: Outcome, b: Log) {
    var now := At(o, a.journal, |a.journal|);
    if a.failed then outcome == Denied(SessionFailed) && b == a
    else
      match step
      case DoAccept(n) => Decides(o, a, n, Accept(n), outcome, b)
      case DoReject(n) => Decides(o, a, n, Reject(n), outcome, b)
      case DoComplete(h) =>
        (match outcome
         case Sent(p) => !Waits(a) && Steps(a, b, Complete(h), false, [PacketOut(p)])
         case Denied(e) => (b == a && CompleteDenied(now, Waits(a), h, e))
             || (Excuse(e) && Steps(a, b, Complete(h), true, []))
         case _ => false)
      case DoSend(h, typeId, timestamp, data, droppable) =>
        (match outcome
         case Sent(p) => !Waits(a) && Steps(a, b, Deliver(h, typeId, timestamp, data, droppable), false, [PacketOut(p)])
         case Denied(e) => b == a && DeliverDenied(now, Waits(a), h, data, e)
         case _ => false)
      case DoPing =>
        (match outcome
         case Sent(p) => !Waits(a) && Steps(a, b, PingPeer, false, [PacketOut(p)])
         case Denied(e) => b == a && PingDenied(now, Waits(a), e)
         case _ => false)
      case DoReceive(consumed, m) =>
        if Waits(a) then outcome.Handed? && outcome.received.Waiting?
            && b == a.(handed := a.handed + OutputsOf(outcome.received))
        else
          match outcome
          case Handed(received) =>
            Handles(config, o, a.journal, consumed, m, b.journal, Ok(received))
                && b.handed == a.handed + OutputsOf(received) && !b.failed
          case Denied(e) => Handles(config, o, a.journal, consumed, m, b.journal, Err(e)) && b.handed == a.handed
              && b.failed
          case _ => false
  }

  ghost function Past(session: ServerSession): Log
    reads session
  {
    Log(session.journal, session.handed, session.failed)
  }

  lemma SessionKept(session: ServerSession)
    requires session.Valid()
    ensures Kept(session.config, session.origin, Past(session))
    ensures !session.failed ==>
              && At(session.origin, session.journal, |session.journal|) == session.Now()
              && (Waits(Past(session)) <==> session.pending != [])
  {
    hide Sound, Outs, ServerSession.Steady;
    assert |session.handed + session.pending| == |session.handed| + |session.pending|;
    assert session.handed + [] == session.handed;
  }

  /** Carry out one step. */
  method Perform(session: ServerSession, step: Step) returns (outcome: Outcome)
    requires session.Valid()
    requires step.DoSend? ==> step.typeId in {8, 9} || (step.typeId in {15, 18} && !step.droppable)
    modifies session, session.streams
    ensures session.Valid()
    ensures Serves(session.config, session.origin, old(Past(session)), step, outcome, Past(session))
  {
    hide Sound, Outs, ServerSession.Valid, Grown, Excuse, CompleteDenied, DeliverDenied, PingDenied, Handles, Waits;
    SessionKept(session);
    ghost var before := Past(session);
    assert before.handed + [] == before.handed;
    match step
    case DoReceive(consumed, m) =>
      var r := session.Receive(consumed, m);
      outcome := if r.Ok? then Handed(r.value) else Denied(r.error);
    case DoAccept(n) =>
      var error := session.AcceptRequest(n);
      outcome := if error.None? then Done else Denied(error.value);
    case DoReject(n) =>
      var error := session.RejectRequest(n);
      outcome := if error.None? then Done else Denied(error.value);
    case DoComplete(h) =>
      var r := session.CompletePlayback(h);
      outcome := if r.Ok? then Sent(r.value) else Denied(r.error);
    case DoSend(h, typeId, timestamp, data, droppable) =>
      var r := session.SendMessage(h, typeId, timestamp, data, droppable);
      outcome := if r.Ok? then Sent(r.value) else Denied(r.error);
    case DoPing =>
      var r := session.SendPing();
      outcome := if r.Ok? then Sent(r.value) else Denied(r.error);
  }

  function Leaves(o: Outcome): seq<Output> {
    match o
    case Sent(packet) => [PacketOut(packet)]
    case Handed(received) => OutputsOf(received)
    case _ => []
  }

  /** The outputs that left with these outcomes, in order. */
  function Left(outcomes: seq<Outcome>): seq<Output> {
    if outcomes == [] then [] else Left(outcomes[..|outcomes| - 1]) + Leaves(outcomes[|outcomes| - 1])
  }

  lemma ServesLeft(config: Config, o: Origin, a: Log, step: Step, outcome: Outcome, b: Log)
    requires Serves(config, o, a, step, outcome, b)
    ensures b.handed == a.handed + Leaves(outcome)
  {
    hide Grown, Outs, CompleteDenied, DeliverDenied, PingDenied, Handles, Waits, Excuse;
    assert a.handed + [] == a.handed;
  }

  /** The log after each step: every step is served, and everything is kept throughout. */
  ghost predicate Served(config: Config, o: Origin, steps: seq<Step>, outcomes: seq<Outcome>, logs: seq<Log>) {
    && |outcomes| <= |steps| && |logs| == |outcomes| + 1 && logs[0] == NewLog
    && (forall i :: 0 <= i < |outcomes| ==> Serves(config, o, logs[i], steps[i], outcomes[i], logs[i + 1]))
    && (forall i :: 0 <= i < |logs| ==> Kept(config, o, logs[i]))
  }

  lemma ServedOn(config: Config, o: Origin, steps: seq<Step>, outcomes: seq<Outcome>, logs: seq<Log>, outcome: Outcome,
          b: Log)
    requires Served(config, o, steps, outcomes, logs) && |outcomes| < |steps| && Kept(config, o, b)
    requires Serves(config, o, logs[|outcomes|], steps[|outcomes|], outcome, b)
    ensures Served(config, o, steps, outcomes + [outcome], logs + [b])
  {
    hide Serves, Kept;
  }

  /** Every state is lawful; media is reported exactly on streams that were accepted for publishing and
      not ended since; and no ID is given to two streams. */
  ghost predicate WellRun(config: Config, o: Origin, journal: Journal) {
    && (forall n :: 0 <= n <= |journal| ==> Lawful(config, At(o, journal, n)))
    && (forall n, id :: 0 <= n < |journal| && journal[n].cause == Hear(Media(id)) ==>
          (journal[n].outs != [] <==> exists j: nat :: Since(o, journal, j, n, id)))
    && (forall i, j, id :: 0 <= i < j < |journal| && Gives(At(o, journal, i), journal[i], id) ==>
         !Gives(At(o, journal, j), journal[j], id))
  }

  lemma KeptWellRun(config: Config, o: Origin, log: Log)
    requires Kept(config, o, log)
    ensures WellRun(config, o, log.journal)
  {
    hide Lawful, Follows, Opening, Encodes, Since, Gives, Outs;
    var journal := log.journal;
    forall n | 0 <= n <= |journal|
      ensures Lawful(config, At(o, journal, n))
    {
      RunLawful(config, o, journal, n);
    }
    forall n, id | 0 <= n < |journal| && journal[n].cause == Hear(Media(id))
      ensures journal[n].outs != [] <==> exists j: nat :: Since(o, journal, j, n, id)
    {
      ReportedExactly(config, o, journal, n, id);
    }
    forall i, j, id | 0 <= i < j < |journal| && Gives(At(o, journal, i), journal[i], id)
      ensures !Gives(At(o, journal, j), journal[j], id)
    {
      if Gives(At(o, journal, j), journal[j], id) {
        NeverGivenTwice(config, o, journal, i, j, id, id);
      }
    }
  }

  /** If every step was orderly, then whatever a client with limits `limits` gets of these outputs, in
      order and less some droppable packets, it decodes exactly the messages that were encoded. */
  ghost predicate Decodable(limits: Limits, o: Origin, journal: Journal, outputs: seq<Output>) {
    var sent, acts := PacketsIn(outputs), o.acts + Acts(journal);
    AllOrderly(o, journal) ==>
      && |sent| <= |acts| && (forall i :: 0 <= i < |sent| ==> sent[i].chunkSize > 0)
      && (WithinLimits(limits, acts[..|sent|]) ==>
            forall keep :: Faithful(acts[..|sent|], keep) ==> DecodesKept(limits, acts[..|sent|], sent, keep))
  }

  ghost predicate DecodesKept(limits: Limits, acts: seq<Action>, sent: seq<Plan>, keep: seq<bool>)
    requires |keep| == |sent| == |acts| && forall i :: 0 <= i < |sent| ==> sent[i].chunkSize > 0
  {
    var s := ReceiveAll(Fresh(limits), WiresOf(sent, keep));
    s.Live? && s.messages == KeptMessages(acts, keep)
  }

  lemma KeptDecodable(config: Config, o: Origin, log: Log, limits: Limits)
    requires Kept(config, o, log) && Admits(limits)
    ensures Decodable(limits, o, log.journal, log.handed)
  {
    hide ReceiveAll, WiresOf, KeptMessages, Sound, Outs, Acts, PacketsIn, MadeBy, AllMade, AllOrderly, EncoderAtEnd;
    if AllOrderly(o, log.journal) {
      HandedPackets(config, o, log.journal, log.handed);
      MadeSizes(NewEncoder, o.acts + Acts(log.journal));
      var sent := PacketsIn(log.handed);
      var acts := (o.acts + Acts(log.journal))[..|sent|];
      forall keep | WithinLimits(limits, acts) && Faithful(acts, keep)
        ensures |keep| == |acts| && DecodesKept(limits, acts, sent, keep)
      {
        RunDecodes(config, o, log.journal, log.handed, limits, keep);
      }
    }
  }

  /** Over every run of a server session, whatever the client sends and the application decides. Every
      step has the effect that the protocol gives it, or is refused for a reason; that a stream has
      gone is never the reason for refusing to accept a request. Outputs leave in the order of the
      steps. Every state is lawful, media is reported exactly where it was accepted, no ID is given
      twice, and a run of orderly steps is decoded as it was encoded. */
  method Run(config: Config, steps: seq<Step>, ghost limits: Limits)
      returns (open: bool, outcomes: seq<Outcome>, ghost o: Origin, ghost logs: seq<Log>)
    requires Admits(limits)
    requires forall i :: 0 <= i < |steps| && steps[i].DoSend? ==>
             steps[i].typeId in {8, 9} || (steps[i].typeId in {15, 18} && !steps[i].droppable)
    ensures open ==> Acceptable(config)
    ensures Acceptable(config) && !config.bwDone ==> open
    ensures open ==>
      && |outcomes| == |steps| && Served(config, o, steps, outcomes, logs) && logs[|steps|].handed == Left(outcomes)
      && WellRun(config, o, logs[|steps|].journal) && Decodable(limits, o, logs[|steps|].journal, Left(outcomes))
  {
    hide Decodable, Kept, Serves, ServerSession.Valid, WellRun, Served;
    outcomes, logs, o := [], [NewLog], Origin([], []);
    var made := Open(config);
    open := made.Ok?;
    if !open {
      return;
    }
    var session := made.value;
    o := session.origin;
    ServedNone(session, steps);
    for n := 0 to |steps|
      invariant session.Valid() && session.config == config && session.origin == o
      invariant |outcomes| == n && |logs| == n + 1 && logs[n] == Past(session) && logs[n].handed == Left(outcomes)
      invariant Served(config, o, steps, outcomes, logs)
    {
      var outcome := Perform(session, steps[n]);
      SessionKept(session);
      ServesLeft(config, o, logs[n], steps[n], outcome, Past(session));
      ServedOn(config, o, steps, outcomes, logs, outcome, Past(session));
      assert (outcomes + [outcome])[..n] == outcomes;
      outcomes, logs := outcomes + [outcome], logs + [Past(session)];
    }
    SessionKept(session);
    KeptWellRun(config, o, Past(session));
    KeptDecodable(config, o, Past(session), limits);
  }

  lemma ServedNone(session: ServerSession, steps: seq<Step>)
    requires session.Valid() && Past(session) == NewLog
    ensures Served(session.config, session.origin, steps, [], [NewLog])
  {
    hide Kept, ServerSession.Valid;
    SessionKept(session);
  }
}
