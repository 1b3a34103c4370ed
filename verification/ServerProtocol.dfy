/** The server side of a session as a transition system: what each message of the client, each
    decode step and each decision of the application does, which packets it has encoded and what it
    hands out. A run is a journal of such steps; the laws of runs are proved here. */
module ServerProtocol {
  import opened Base
  import opened ChunkMachine
  import opened MessageMachine
  import opened ChunkEncoderModule
  import opened RoundTrip
  import opened SentLog
  import opened StreamsModule
  import opened Acks
  import opened Outputs

  // ----- messages of the session layer ------------------------------------------------------------

  datatype PublishMode = LiveMode | RecordMode | AppendMode

  datatype StreamState = Created | Publishing(key: seq<byte>, mode: PublishMode) | Playing(key: seq<byte>) | Completed

  datatype Request =
    | ConnectionRequest(app: seq<byte>)
    | PublishRequested(key: seq<byte>, mode: PublishMode, streamId: u32)
    | PlayRequested(key: seq<byte>, streamId: u32)

  /** Messages a server sends on its own behalf. */
  datatype Reply =
    | Acknowledge(sequence: u32)
    | WindowSize(size: u32)
    | StreamBegin(id: u32)
    | Bandwidth(size: u32)
    | BwDone
    | ConnectAnswer
    | Number(id: u32)
    | CommandError
    | Rejection
    | PublishStart
    | PlayStart
    | PlayReset
    | PlayComplete
    | SampleAccess
    | DataStart
    | Ping
    | Pong(time: Option<u32>)

  /** Commands and data have one type for each AMF version that may frame them. */
  function TypesOf(r: Reply): set<byte> {
    match r
    case Acknowledge(_) => {3}
    case StreamBegin(_) => {4}
    case Ping => {4}
    case Pong(_) => {4}
    case WindowSize(_) => {5}
    case Bandwidth(_) => {6}
    case SampleAccess => {15, 18}
    case DataStart => {15, 18}
    case _ => {17, 20}
  }

  /** Bodies of control messages; those of commands are left open. */
  predicate Body(r: Reply, data: seq<byte>) {
    match r
    case Acknowledge(n) => data == Be32(n)
    case WindowSize(n) => data == Be32(n)
    case StreamBegin(id) => data == [0, 0] + Be32(id)
    case Bandwidth(n) => data == Be32(n) + [2]
    case _ => true
  }

  /** Arguments of a publish or play command: too few, of the wrong kind, or usable. */
  datatype Arguments<T> = TooFew | Malformed | Usable(value: T)

  datatype Incoming =
    | Connect(app: Option<seq<byte>>)
    | CreateStream
    | CloseStream(argument: Option<u32>)
    | DeleteStream(argument: Option<u32>)
    | Publish(streamId: u32, publishing: Arguments<(seq<byte>, PublishMode)>)
    | Play(streamId: u32, playing: Arguments<seq<byte>>)
    | Media(streamId: u32)
    | PingHeard(time: Option<u32>)
    | WindowHeard(size: u32)

  datatype ServerEvent =
    | ConnectionRequested(request: nat)
    | PublishStreamRequested(stream: Handle, streamId: u32, request: nat)
    | PlayStreamRequested(stream: Handle, streamId: u32, request: nat)
    | PublishStreamFinished(stream: Handle, streamId: u32, key: seq<byte>)
    | PlayStreamFinished(stream: Handle, streamId: u32, key: seq<byte>)
    | MediaReceived(stream: Handle, streamId: u32, key: seq<byte>)

  type Output = SessionOutput<ServerEvent>

  datatype SessionError =
    | SessionFailed
    | ZeroWindow
    | NoAppName
    | Unwritable
    | EncodeFailed(error: EncodeError)
    | TooManyStreams
    | TooManyRequests
    | StreamIdsExhausted
    | InvalidRequestId
    | InvalidHandle
    | NotPlaying
    | NotConnected
    | PendingOutput
    | InactiveStream(streamId: u32)

  datatype Config = Config(maxStreams: nat, maxRequests: nat, chunkSize: u32, windowSize: u32, bandwidth: u32,
          bwDone: bool)

  // ----- states and steps -----------------------------------------------------------------------------

  type Active = map<u32, StreamState>
  type Requests = map<nat, Request>

  /** `held` are the control packets kept back until the connection is decided. */
  datatype Model = Model(
    app: Option<seq<byte>>,
    active: Active,
    requests: Requests,
    handles: map<u32, Handle>,
    issued: set<Handle>,
    next: nat,
    window: Option<u32>,
    counter: Counter,
    held: seq<Output>)

  /** The preamble: what was encoded when the session was created, and the packets it made. */
  datatype Origin = Origin(acts: seq<Action>, held: seq<Output>)

  ghost predicate Fully(a: Action, reply: Reply) {
    && a.Send? && a.sent && a.options == Options(true, false)
    && a.m.typeId in TypesOf(reply) && a.m.streamId == 0 && Body(reply, a.m.data)
  }

  /** Chunk size, window, the begin of stream 0, the peer's bandwidth, and on request `onBWDone`. */
  ghost predicate Opening(config: Config, o: Origin) {
    && config.windowSize > 0 && |o.acts| == (if config.bwDone then 5 else 4) && o.acts[0] == Resize(config.chunkSize, 0)
    && Fully(o.acts[1], WindowSize(config.windowSize)) && Fully(o.acts[2], StreamBegin(0))
    && Fully(o.acts[3], Bandwidth(config.bandwidth))
    && (config.bwDone ==> Fully(o.acts[4], BwDone) && o.acts[4].m.typeId == 20)
    && Makes(NewEncoder, o.acts, PacketsIn(o.held), EncoderAtEnd(NewEncoder, o.acts))
  }

  function Start(o: Origin): Model {
    Model(None, map[], map[], map[], {}, 1, None, NewCounter, o.held)
  }

  datatype Cause =
    | Take(count: nat)
    | Hear(message: Incoming)
    | Accept(number: nat)
    | Reject(number: nat)
    | Complete(stream: Handle)
    | Deliver(stream: Handle, typeId: byte, timestamp: u32, data: seq<byte>, droppable: bool)
    | PingPeer

  /** A step: its cause, what it had encoded, the packets this made, its outputs, whether it faltered
      because a reply could not be written, and the state and the encoder after it. */
  datatype Record = Record(
    cause: Cause,
    acts: seq<Action>,
    plans: seq<Plan>,
    outs: seq<Output>,
    faltered: bool,
    after: Model,
    encoder: Encoder)

  type Journal = seq<Record>

  function At(o: Origin, journal: Journal, n: nat): Model
    requires n <= |journal|
  {
    if n == 0 then Start(o) else journal[n - 1].after
  }

  function EncoderAt(o: Origin, journal: Journal, n: nat): Encoder
    requires n <= |journal|
  {
    if n == 0 then EncoderAtEnd(NewEncoder, o.acts) else journal[n - 1].encoder
  }

  predicate Concerns(r: Request, id: u32) {
    (r.PublishRequested? && r.streamId == id) || (r.PlayRequested? && r.streamId == id)
  }

  /** Requests that are not about this stream. */
  function Without(requests: Requests, id: u32): Requests {
    map r | r in requests && !Concerns(requests[r], id) :: requests[r]
  }

  function WindowOf(config: Config, a: Model): nat {
    if a.window.Some? then a.window.value else config.windowSize
  }

  ghost predicate Carries(a: Action, reply: Reply, streamId: u32) {
    && a.Send? && a.sent && !a.options.full && !a.options.droppable
    && a.m.typeId in TypesOf(reply) && a.m.streamId == streamId && Body(reply, a.m.data)
  }

  /** One reply, handed out. */
  ghost predicate Answers(r: Record, reply: Reply, streamId: u32) {
    |r.acts| == 1 && |r.plans| == 1 && Carries(r.acts[0], reply, streamId) && r.outs == [PacketOut(r.plans[0])]
  }

  ghost predicate Silent(r: Record) {
    r.acts == [] && r.plans == [] && r.outs == []
  }

  ghost predicate Tells(r: Record, event: ServerEvent) {
    r.acts == [] && r.plans == [] && r.outs == [EventOut(event)]
  }

  /** What the application is told when a stream is closed or deleted. */
  function Farewells(s: StreamState, h: Handle, id: u32): seq<Output> {
    match s
    case Publishing(key, _) => [EventOut(PublishStreamFinished(h, id, key))]
    case Playing(key) => [EventOut(PlayStreamFinished(h, id, key))]
    case _ => []
  }

  ghost predicate Follows(config: Config, a: Model, r: Record) {
    match r.cause
    case Take(count) =>
      var window := WindowOf(config, a);
      && !r.faltered && window > 0 && r.after == a.(counter := Tally(a.counter, count, window).0)
      && (match Tally(a.counter, count, window).1
          case None => Silent(r)
          case Some(sequence) => Answers(r, Acknowledge(sequence), 0))
    case Hear(m) => !r.faltered && Reacts(config, a, m, r)
    case Accept(n) =>
      n in a.requests &&
      (match a.requests[n]
       case ConnectionRequest(name) => Connects(a, n, name, r)
       case PublishRequested(key, mode, id) =>
         if id in a.active then
           && r.after == a.(requests := a.requests - {n}, active := a.active[id := Publishing(key, mode)])
           && PublishAnswers(r, id)
         else Misses(a, n, r)
       case PlayRequested(key, id) =>
         if id in a.active then
           && r.after == a.(requests := a.requests - {n}, active := a.active[id := Playing(key)])
           && PlayAnswers(r, id)
         else Misses(a, n, r))
    case Reject(n) =>
      n in a.requests &&
      (match a.requests[n]
       case ConnectionRequest(_) =>
         && r.after == a.(requests := a.requests - {n}, held := [])
         && (if r.faltered then Silent(r) else Releases(a, r, CommandError))
       case PublishRequested(_, _, id) =>
         r.after == a.(requests := a.requests - {n}) && (if r.faltered then Silent(r) else Answers(r, Rejection, id))
       case PlayRequested(_, id) =>
         r.after == a.(requests := a.requests - {n}) && (if r.faltered then Silent(r) else Answers(r, Rejection, id)))
    case Complete(h) =>
      exists id :: Plays(a, h, id) && r.after == a.(active := a.active[id := Completed])
                   && (if r.faltered then Silent(r) else Answers(r, PlayComplete, id))
    case Deliver(h, typeId, timestamp, data, droppable) =>
      && !r.faltered && r.after == a && (typeId in {8, 9} || (typeId in {15, 18} && !droppable)) && |r.plans| == 1
      && r.outs == [PacketOut(r.plans[0])]
      && exists id :: Plays(a, h, id)
                      && r.acts == [Send(RawMessage(timestamp, typeId, id, data), Options(false, droppable), true)]
    case PingPeer => !r.faltered && a.app.Some? && r.after == a && Answers(r, Ping, 0)
  }

  /** The stream of the request has gone. */
  ghost predicate Misses(a: Model, n: nat, r: Record) {
    r.faltered && r.after == a.(requests := a.requests - {n}) && Silent(r)
  }

  /** The stream of the handle plays. */
  predicate Plays(a: Model, h: Handle, id: u32) {
    a.app.Some? && id in a.handles && a.handles[id] == h && id in a.active && a.active[id].Playing?
  }

  /** The packets held back leave, and the answer behind them. */
  ghost predicate Releases(a: Model, r: Record, reply: Reply) {
    |r.acts| == 1 && |r.plans| == 1 && Carries(r.acts[0], reply, 0) && r.outs == a.held + [PacketOut(r.plans[0])]
  }

  /** A connection counts as accepted even if the answer could not be written. */
  ghost predicate Connects(a: Model, n: nat, name: seq<byte>, r: Record) {
    if r.faltered then r.after == a.(app := Some(name), requests := a.requests - {n}) && Silent(r)
    else r.after == a.(app := Some(name), requests := a.requests - {n}, held := []) && Releases(a, r, ConnectAnswer)
  }

  /** If the answer to a publish request cannot be written in full, what was encoded of it is lost. */
  ghost predicate PublishAnswers(r: Record, id: u32) {
    && |r.plans| == |r.acts|
    && (if r.faltered then |r.acts| < 2 && (r.acts != [] ==> Carries(r.acts[0], StreamBegin(id), id)) && r.outs == []
        else
          && |r.acts| == 2 && Carries(r.acts[0], StreamBegin(id), id) && Carries(r.acts[1], PublishStart, id)
          && r.outs == [PacketOut(r.plans[0]), PacketOut(r.plans[1])])
  }

  /** Both commands and both data messages are in the framing of the same AMF version. */
  predicate OneFraming(acts: seq<Action>)
    requires |acts| == 5 && forall i :: 0 <= i < 5 ==> acts[i].Send?
  {
    && acts[4].m.typeId == acts[1].m.typeId && acts[3].m.typeId == acts[2].m.typeId
    && (acts[1].m.typeId == 17 <==> acts[2].m.typeId == 15)
  }

  /** The answer to a play request, in the order in which it is encoded. */
  function PlayReply(i: nat, id: u32): Reply {
    if i == 0 then StreamBegin(id) else if i == 1 then PlayStart else if i == 2 then SampleAccess
    else if i == 3 then DataStart else PlayReset
  }

  /** The answer to a play request is handed out in another order than it was encoded. */
  ghost predicate PlayAnswers(r: Record, id: u32) {
    && |r.plans| == |r.acts|
    && (if r.faltered then
          |r.acts| < 5 && (forall i :: 0 <= i < |r.acts| ==> Carries(r.acts[i], PlayReply(i, id), id)) && r.outs == []
        else
          && |r.acts| == 5
          && Carries(r.acts[0], StreamBegin(id), id) && Carries(r.acts[1], PlayStart, id)
          && Carries(r.acts[2], SampleAccess, id)
          && Carries(r.acts[3], DataStart, id) && Carries(r.acts[4], PlayReset, id) && OneFraming(r.acts)
          && r.outs == [PacketOut(r.plans[4]), PacketOut(r.plans[0]), PacketOut(r.plans[1]), PacketOut(r.plans[2]),
               PacketOut(r.plans[3])])
  }

  /** What a message of the client does. */
  ghost predicate Reacts(config: Config, a: Model, m: Incoming, r: Record) {
    var b := r.after;
    match m
    case Connect(name) =>
      && name.Some? && |a.requests| < config.maxRequests
      && exists n: nat ::
          b == a.(requests := a.requests[n := ConnectionRequest(name.value)])
          && Tells(r, ConnectionRequested(n))
    case CreateStream =>
      && |a.active| < config.maxStreams && a.next < 0xffff_ffff && Answers(r, Number(a.next), 0)
      && exists h :: h !in a.issued &&
           b == a.(next := a.next + 1, active := a.active[a.next := Created], handles := a.handles[a.next := h],
               issued := a.issued + {h})
    case CloseStream(argument) =>
      && r.acts == [] && r.plans == []
      && (if Names(a, argument) then
            b == a.(active := a.active[argument.value := Created]) && r.outs == Parting(a, argument.value)
          else b == a && r.outs == [])
    case DeleteStream(argument) =>
      && r.acts == [] && r.plans == []
      && (if Names(a, argument) then
            && b == a.(active := a.active - {argument.value}, handles := a.handles - {argument.value},
                 requests := Without(a.requests, argument.value))
            && r.outs == Parting(a, argument.value)
          else b == a && r.outs == [])
    case Publish(id, arguments) =>
      if arguments.Usable? && Names(a, Some(id)) then
        && |a.requests| < config.maxRequests
        && exists n: nat :: b ==
             a.(requests := a.requests[n := PublishRequested(arguments.value.0, arguments.value.1, id)])
                            && Tells(r, PublishStreamRequested(HandleOf(a, id), id, n))
      else b == a && Answers(r, CommandError, id)
    case Play(id, arguments) =>
      if arguments.Usable? && Names(a, Some(id)) then
        && |a.requests| < config.maxRequests
        && exists n: nat :: b == a.(requests := a.requests[n := PlayRequested(arguments.value, id)])
                            && Tells(r, PlayStreamRequested(HandleOf(a, id), id, n))
      else b == a && Answers(r, CommandError, id)
    case Media(id) =>
      && b == a
      && (if a.app.Some? && IsPublishing(a, id) then Tells(r, MediaReceived(HandleOf(a, id), id, a.active[id].key))
           else Silent(r))
    case PingHeard(time) => b == a && Answers(r, Pong(time), 0)
    case WindowHeard(size) => size > 0 && b == a.(window := Some(size)) && Silent(r)
  }

  /** A connected session has this stream. */
  predicate Names(a: Model, argument: Option<u32>) {
    a.app.Some? && argument.Some? && argument.value in a.active
  }

  predicate IsPublishing(a: Model, id: u32) {
    id in a.active && a.active[id].Publishing?
  }

  function HandleOf(a: Model, id: u32): Handle {
    if id in a.handles then a.handles[id] else Handle(0, 0, 0)
  }

  function Parting(a: Model, id: u32): seq<Output>
    requires id in a.active
  {
    Farewells(a.active[id], HandleOf(a, id), id)
  }

  // ----- every state is lawful --------------------------------------------------------------------------

  /** Streams and handles are one set, with IDs below the next one to give, and handles are distinct. */
  ghost predicate Matching(active: Active, handles: map<u32, Handle>, issued: set<Handle>, next: nat) {
    && active.Keys == handles.Keys
    && (forall id :: id in handles ==> id < next && handles[id] in issued)
    && (forall i, j :: i in handles && j in handles && handles[i] == handles[j] ==> i == j)
  }

  /** Every play or publish request is about a stream that exists. */
  ghost predicate Standing(requests: Requests, active: Active, connected: bool) {
    forall n, id :: n in requests && Concerns(requests[n], id) ==> id in active && connected
  }

  ghost predicate OnAir(active: Active, connected: bool) {
    forall id :: id in active && active[id].Publishing? ==> connected
  }

  /** The laws of a session. Nothing is asked for or published before the connection is accepted. */
  ghost predicate Lawful(config: Config, a: Model) {
    && Matching(a.active, a.handles, a.issued, a.next)
    && Standing(a.requests, a.active, a.app.Some?) && OnAir(a.active, a.app.Some?)
    && |a.active| <= config.maxStreams && |a.requests| <= config.maxRequests
    && (a.window.Some? ==> a.window.value > 0)
  }

  lemma StartLawful(config: Config, o: Origin)
    ensures Lawful(config, Start(o))
  {
  }

  lemma SameSize<K, V>(m: map<K, V>, k: K, v: V)
    requires k in m
    ensures |m[k := v]| == |m| && m[k := v].Keys == m.Keys
  {
    assert m[k := v].Keys == m.Keys;
  }

  lemma FewerRequests(requests: Requests, id: u32)
    ensures |Without(requests, id)| <= |requests|
  {
    var rest := Without(requests, id);
    assert requests.Keys == rest.Keys + (requests.Keys - rest.Keys);
  }

  lemma RequestLawful(config: Config, a: Model, n: nat, q: Request)
    requires Lawful(config, a) && |a.requests| < config.maxRequests
    requires forall id :: Concerns(q, id) ==> id in a.active && a.app.Some?
    ensures Lawful(config, a.(requests := a.requests[n := q]))
  {
    hide Matching, OnAir;
    if n in a.requests {
      SameSize(a.requests, n, q);
    } else {
      Added(a.requests, n, q);
    }
    StandingOn(a.requests, a.active, a.app.Some?, n, q);
  }

  lemma StandingOn(requests: Requests, active: Active, connected: bool, n: nat, q: Request)
    requires Standing(requests, active, connected) && forall id :: Concerns(q, id) ==> id in active && connected
    ensures Standing(requests[n := q], active, connected)
  {
    var more := requests[n := q];
    forall k, id | k in more && Concerns(more[k], id)
      ensures id in active && connected
    {
      assert more[k] == if k == n then q else requests[k];
    }
    assert Standing(more, active, connected);
  }

  lemma StandingStill(requests: Requests, active: Active, more: Active, connected: bool)
    requires Standing(requests, active, connected) && active.Keys <= more.Keys
    ensures Standing(requests, more, connected)
  {
    forall k, id | k in requests && Concerns(requests[k], id)
      ensures id in more && connected
    {
      assert id in active.Keys;
    }
  }

  lemma OnAirStill(active: Active, id: u32, connected: bool)
    requires OnAir(active, connected)
    ensures OnAir(active[id := Created], connected)
  {
    var more := active[id := Created];
    forall k | k in more && more[k].Publishing?
      ensures connected
    {
      assert k in active && active[k] == more[k];
    }
  }

  lemma StandingOff(requests: Requests, active: Active, connected: bool, n: nat)
    requires Standing(requests, active, connected)
    ensures Standing(requests - {n}, active, connected)
  {
    var rest := requests - {n};
    forall k, id | k in rest && Concerns(rest[k], id)
      ensures id in active && connected
    {
      assert rest[k] == requests[k];
    }
  }

  lemma DecidedLawful(config: Config, a: Model, n: nat)
    requires Lawful(config, a)
    ensures Lawful(config, a.(requests := a.requests - {n}))
  {
    hide Matching, OnAir, Standing;
    Fewer(a.requests, n);
    StandingOff(a.requests, a.active, a.app.Some?, n);
  }

  lemma StateLawful(config: Config, a: Model, id: u32, s: StreamState)
    requires Lawful(config, a) && id in a.active && a.app.Some?
    ensures Lawful(config, a.(active := a.active[id := s]))
  {
    hide Standing;
    SameSize(a.active, id, s);
    StandingStill(a.requests, a.active, a.active[id := s], true);
  }

  lemma MatchingOn(active: Active, handles: map<u32, Handle>, issued: set<Handle>, id: u32, h: Handle)
    requires Matching(active, handles, issued, id) && h !in issued
    ensures Matching(active[id := Created], handles[id := h], issued + {h}, id + 1) && id !in active
  {
    assert active[id := Created].Keys == active.Keys + {id};
    assert handles[id := h].Keys == handles.Keys + {id};
  }

  lemma CreatedLawful(config: Config, a: Model, h: Handle)
    requires Lawful(config, a) && |a.active| < config.maxStreams && a.next < 0xffff_ffff && h !in a.issued
    ensures Lawful(config,
            a.(next := a.next + 1, active := a.active[a.next := Created], handles := a.handles[a.next := h],
                              issued := a.issued + {h}))
  {
    hide Matching, Standing, OnAir;
    MatchingOn(a.active, a.handles, a.issued, a.next, h);
    StandingStill(a.requests, a.active, a.active[a.next := Created], a.app.Some?);
    OnAirStill(a.active, a.next, a.app.Some?);
    Added(a.active, a.next, Created);
  }

  lemma MatchingOff(active: Active, handles: map<u32, Handle>, issued: set<Handle>, next: nat, id: u32)
    requires Matching(active, handles, issued, next)
    ensures Matching(active - {id}, handles - {id}, issued, next)
  {
    assert (active - {id}).Keys == active.Keys - {id} && (handles - {id}).Keys == handles.Keys - {id};
  }

  lemma StandingWithout(requests: Requests, active: Active, connected: bool, id: u32)
    requires Standing(requests, active, connected)
    ensures Standing(Without(requests, id), active - {id}, connected)
  {
    var rest := Without(requests, id);
    forall n, k | n in rest && Concerns(rest[n], k)
      ensures k in active - {id} && connected
    {
      assert rest[n] == requests[n] && k != id;
    }
  }

  lemma DeletedLawful(config: Config, a: Model, id: u32)
    requires Lawful(config, a)
    ensures Lawful(config,
            a.(active := a.active - {id}, handles := a.handles - {id}, requests := Without(a.requests, id)))
  {
    hide Matching, Standing, Without;
    MatchingOff(a.active, a.handles, a.issued, a.next, id);
    StandingWithout(a.requests, a.active, a.app.Some?, id);
    FewerRequests(a.requests, id);
    Fewer(a.active, id);
  }

  lemma AppLawful(config: Config, a: Model, app: Option<seq<byte>>, held: seq<Output>)
    requires Lawful(config, a) && (a.app.Some? ==> app.Some?)
    ensures Lawful(config, a.(app := app, held := held))
  {
  }

  lemma OtherLawful(config: Config, a: Model, counter: Counter, window: Option<u32>)
    requires Lawful(config, a) && (window.Some? ==> window.value > 0)
    ensures Lawful(config, a.(counter := counter, window := window))
  {
  }

  lemma ReactsLawful(config: Config, a: Model, m: Incoming, r: Record)
    requires Lawful(config, a) && Reacts(config, a, m, r)
    ensures Lawful(config, r.after)
  {
    hide Lawful, Answers, Tells, Silent, Parting, HandleOf, IsPublishing;
    match m {
      case Connect(name) =>
        var n: nat :| r.after == a.(requests := a.requests[n := ConnectionRequest(name.value)]);
        RequestLawful(config, a, n, ConnectionRequest(name.value));
      case CreateStream =>
        var h :| h !in a.issued &&
          r.after == a.(next := a.next + 1, active := a.active[a.next := Created], handles := a.handles[a.next := h],
              issued := a.issued + {h});
        CreatedLawful(config, a, h);
      case CloseStream(argument) =>
        if Names(a, argument) {
          StateLawful(config, a, argument.value, Created);
        }
      case DeleteStream(argument) =>
        if Names(a, argument) {
          DeletedLawful(config, a, argument.value);
        }
      case Publish(id, arguments) =>
        if arguments.Usable? && Names(a, Some(id)) {
          var q := PublishRequested(arguments.value.0, arguments.value.1, id);
          var n: nat :| r.after == a.(requests := a.requests[n := q]);
          RequestLawful(config, a, n, q);
        }
      case Play(id, arguments) =>
        if arguments.Usable? && Names(a, Some(id)) {
          var q := PlayRequested(arguments.value, id);
          var n: nat :| r.after == a.(requests := a.requests[n := q]);
          RequestLawful(config, a, n, q);
        }
      case WindowHeard(size) => OtherLawful(config, a, a.counter, Some(size));
      case _ =>
    }
  }

  lemma Concerned(config: Config, a: Model, n: nat, id: u32)
    requires Lawful(config, a) && n in a.requests && Concerns(a.requests[n], id)
    ensures id in a.active && a.app.Some?
  {
  }

  lemma DecisionLawful(config: Config, a: Model, n: nat, r: Record)
    requires Lawful(config, a) && Follows(config, a, r) && (r.cause == Accept(n) || r.cause == Reject(n))
    ensures Lawful(config, r.after)
  {
    hide Lawful, Answers, Silent, Releases, PublishAnswers, PlayAnswers, Reacts;
    DecidedLawful(config, a, n);
    var q, b := a.requests[n], a.(requests := a.requests - {n});
    if q.ConnectionRequest? {
      AppLawful(config, b, r.after.app, r.after.held);
    } else {
      Concerned(config, a, n, q.streamId);
      if r.cause.Accept? && q.streamId in a.active {
        StateLawful(config, b, q.streamId, r.after.active[q.streamId]);
      }
    }
  }

  /** Every step keeps the laws. */
  lemma FollowsLawful(config: Config, a: Model, r: Record)
    requires Lawful(config, a) && Follows(config, a, r)
    ensures Lawful(config, r.after)
  {
    hide Lawful, Answers, Silent, Reacts, Tally;
    match r.cause {
      case Take(_) => TakeLawful(config, a, r);
      case Hear(m) => ReactsLawful(config, a, m, r);
      case Accept(n) => DecisionLawful(config, a, n, r);
      case Reject(n) => DecisionLawful(config, a, n, r);
      case Complete(h) =>
        var id :| Plays(a, h, id) && r.after == a.(active := a.active[id := Completed]);
        StateLawful(config, a, id, Completed);
      case _ =>
    }
  }

  lemma TakeLawful(config: Config, a: Model, r: Record)
    requires Lawful(config, a) && Follows(config, a, r) && r.cause.Take?
    ensures Lawful(config, r.after)
  {
    hide Answers, Silent, Tally;
    OtherLawful(config, a, r.after.counter, a.window);
  }

  /** A journal of steps that follow each other from the start. */
  ghost predicate IsRun(config: Config, o: Origin, journal: Journal) {
    forall n :: 0 <= n < |journal| ==> Follows(config, At(o, journal, n), journal[n])
  }

  /** Every state of every run is lawful. */
  lemma {:induction false} RunLawful(config: Config, o: Origin, journal: Journal, n: nat)
    requires IsRun(config, o, journal) && n <= |journal|
    ensures Lawful(config, At(o, journal, n))
    decreases n
  {
    hide Lawful, Follows;
    if n == 0 {
      StartLawful(config, o);
    } else {
      RunLawful(config, o, journal, n - 1);
      FollowsLawful(config, At(o, journal, n - 1), journal[n - 1]);
    }
  }

  // ----- why something is refused ---------------------------------------------------------------------------

  /** A reply cannot be written, or is too long to be sent. */
  predicate Excuse(e: SessionError) {
    e == Unwritable || e.EncodeFailed?
  }

  /** The handle is that of no stream. */
  ghost predicate Unknown(a: Model, h: Handle) {
    forall id :: id in a.handles ==> a.handles[id] != h
  }

  ghost predicate CompleteDenied(a: Model, waiting: bool, h: Handle, e: SessionError) {
    if waiting then e == PendingOutput
    else if a.app.None? then e == NotConnected
    else if Unknown(a, h) then e == InvalidHandle
    else exists id ::
        id in a.handles && a.handles[id] == h && id in a.active && !a.active[id].Playing?
        && e == InactiveStream(id)
  }

  ghost predicate DeliverDenied(a: Model, waiting: bool, h: Handle, data: seq<byte>, e: SessionError) {
    if waiting then e == PendingOutput
    else if a.app.None? then e == NotConnected
    else if Unknown(a, h) then e == InvalidHandle
    else
      || (|data| > MAX24 && e.EncodeFailed?)
      || (exists id :: id in a.handles && a.handles[id] == h && id in a.active && !a.active[id].Playing?
           && e == NotPlaying)
  }

  ghost predicate PingDenied(a: Model, waiting: bool, e: SessionError) {
    if waiting then e == PendingOutput else if a.app.None? then e == NotConnected else Excuse(e)
  }

  /** The message is one that ends the session. */
  ghost predicate Faulty(config: Config, a: Model, m: Incoming, e: SessionError) {
    match m
    case Connect(name) => if name.None? then e == NoAppName
        else e == TooManyRequests
             && |a.requests| >= config.maxRequests
    case CreateStream =>
      if |a.active| >= config.maxStreams then e == TooManyStreams
      else if a.next == 0xffff_ffff then e == StreamIdsExhausted
      else Excuse(e)
    case Publish(id, arguments) =>
      if arguments.Usable? && Names(a, Some(id)) then e == TooManyRequests
          && |a.requests| >= config.maxRequests else Excuse(e)
    case Play(id, arguments) =>
      if arguments.Usable? && Names(a, Some(id)) then e == TooManyRequests
          && |a.requests| >= config.maxRequests else Excuse(e)
    case PingHeard(_) => Excuse(e)
    case WindowHeard(size) => size == 0 && e == ZeroWindow
    case _ => false
  }
}
