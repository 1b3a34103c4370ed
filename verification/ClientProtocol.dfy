/** The client side of a session as a transition system: what each request of the application, each
    decode step and each message of the server does, which packets it makes and which outputs it
    has. A run is a journal of such steps; the laws of runs are proved here. */
module ClientProtocol {
  import opened Base
  import opened ChunkMachine
  import opened MessageMachine
  import opened ChunkEncoderModule
  import opened RoundTrip
  import opened SentLog
  import opened StreamsModule
  import opened ClientState
  import opened Acks
  import opened Outputs

  // ----- messages of the session layer ------------------------------------------------------------

  /** Messages a client sends on its own behalf. */
  datatype Command =
    | Acknowledge(sequence: u32)
    | WindowSize(size: u32)
    | ConnectTo(app: seq<byte>, transaction: nat)
    | NewStream(transaction: nat)
    | DropStream(id: u32)
    | BufferLength(id: u32)
    | Play(key: seq<byte>)
    | Publish(key: seq<byte>, mode: PublishMode)
    | Ping
    | Pong(time: Option<u32>)

  function TypeOf(c: Command): byte {
    match c
    case Acknowledge(_) => 3
    case WindowSize(_) => 5
    case BufferLength(_) => 4
    case Ping => 4
    case Pong(_) => 4
    case _ => 20
  }

  /** Status codes by what they mean for a stream. */
  datatype Code = PlayStarted | PublishStarted | PlayRefused | PublishRefused | PlayEnded | PublishEnded | OtherCode

  /** Messages a client understands, beside those of the chunk layer. A stream number is present
      only if it is an integer from 1 to 2^32 - 1. */
  datatype Inbound =
    | AckHeard(sequence: u32)
    | Success(transaction: nat, number: Option<u32>)
    | Refusal(transaction: nat)
    | Status(code: Option<Code>, isError: bool)
    | OtherCommand
    | PingHeard(time: Option<u32>)
    | PongHeard(time: Option<u32>)
    | OtherControl
    | WindowHeard(size: u32)
    | Unknown

  datatype ClientEvent =
    | ConnectionAccepted
    | ConnectionRejected
    | PlaybackAccepted(stream: Handle)
    | PlaybackRejected(stream: Handle)
    | PlaybackFinished(stream: Handle)
    | PublishAccepted(stream: Handle)
    | PublishRejected(stream: Handle)
    | PublishingFinished(stream: Handle)
    | StatusReceived(about: Option<Handle>)
    | MediaReceived(stream: Handle, message: RawMessage)
    | DataReceived(stream: Handle, message: RawMessage)
    | AcknowledgementReceived(sequence: u32)
    | PongReceived(time: u32)
    | UnknownResult(transaction: nat)
    | UnhandledCommand

  type Output = SessionOutput<ClientEvent>

  datatype SessionError =
    | SessionFailed
    | ZeroSetting
    | DecodeFailed(input: ChunkMachine.Error)
    | EncodeFailed(error: EncodeError)
    | Unwritable
    | Unreadable
    | AlreadyConnected
    | NotConnected
    | TooManyStreams
    | TooManyRequests
    | InvalidHandle
    | NotPublishing
    | NoStreamNumber
    | DuplicateStreamId
    | BadStatus
    | ZeroWindow
    | PendingOutput

  /** Settings, with message bodies written and read by functions of the message layer. */
  datatype Config = Config(
    chunkSize: u32,
    windowSize: u32,
    maxStreams: nat,
    maxRequests: nat,
    limits: Limits,
    body: Command -> Option<seq<byte>>,
    parse: RawMessage -> Option<Inbound>)

  /** The action sends this command on this message stream. */
  ghost predicate Carries(config: Config, a: Action, c: Command, streamId: u32) {
    && a.Send? && a.sent && !a.options.full && !a.options.droppable
    && a.m.typeId == TypeOf(c) && a.m.streamId == streamId && config.body(c) == Some(a.m.data)
  }

  /** One command, and the packet it makes. */
  ghost predicate Issues(config: Config, acts: seq<Action>, outs: seq<Output>, c: Command) {
    |acts| == 1 && Carries(config, acts[0], c, 0) && |outs| == 1 && outs[0].PacketOut?
  }

  // ----- states and steps -----------------------------------------------------------------------------

  datatype Model = Model(
    state: ConnectionState,
    open: Transactions,
    live: Entries,
    issued: set<Handle>,
    window: Option<u32>,
    counter: Counter)

  const Start := Model(Disconnected, map[], map[], {}, None, NewCounter)

  /** A request of the application, the bytes of a decode step, or a message they complete. */
  datatype Cause =
    | AppConnect(app: seq<byte>, transaction: nat)
    | AppCreate(stream: Handle, purpose: Purpose, transaction: nat)
    | AppDelete(stream: Handle)
    | AppSend(stream: Handle, typeId: byte, timestamp: u32, data: seq<byte>, droppable: bool)
    | AppPing
    | Take(count: nat)
    | Hear(message: RawMessage)

  /** A step: its cause, the packets it had encoded, its outputs, and the state after it. */
  datatype Record = Record(cause: Cause, acts: seq<Action>, outs: seq<Output>, after: Model)

  type Journal = seq<Record>

  function At(journal: Journal, n: nat): Model
    requires n <= |journal|
  {
    if n == 0 then Start else journal[n - 1].after
  }

  /** `owner` is the live stream that has the wire ID, if any has. */
  ghost predicate Owns(live: Entries, wire: u32, owner: Option<Handle>) {
    forall h :: owner == Some(h) <==> h in live && live[h].wire == Some(wire)
  }

  /** The window that triggers acknowledgements: the peer's, or else our own. */
  function WindowOf(config: Config, a: Model): nat {
    if a.window.Some? then a.window.value else config.windowSize
  }

  ghost predicate Follows(config: Config, a: Model, r: Record) {
    match r.cause
    case AppConnect(app, t) =>
      && a.state == Disconnected && |a.open| < config.maxRequests && t !in a.open
      && r.after == a.(state := Connecting, open := a.open[t := ConnectionRequested(app)])
      && Issues(config, r.acts, r.outs, ConnectTo(app, t))
    case AppCreate(h, purpose, t) =>
      && a.state == Connected && |a.live| < config.maxStreams && |a.open| < config.maxRequests
      && t !in a.open && h !in a.issued
      && r.after == a.(open := a.open[t := CreateStream(h, purpose)], live := a.live[h := Entry(None, Creating)],
           issued := a.issued + {h})
      && Issues(config, r.acts, r.outs, NewStream(t))
    case AppDelete(h) =>
      && h in a.live && r.after == a.(live := a.live - {h})
      && (match a.live[h].wire
          case None => r.acts == [] && r.outs == []
          case Some(id) => Issues(config, r.acts, r.outs, DropStream(id)))
    case AppSend(h, typeId, timestamp, data, droppable) =>
      && h in a.live && a.live[h].state == Publishing && a.live[h].wire.Some? && typeId in {8, 9, 15, 18}
      && r.after == a && |r.outs| == 1 && r.outs[0].PacketOut?
      && r.acts == [Send(RawMessage(timestamp, typeId, a.live[h].wire.value, data), Options(false, droppable), true)]
    case AppPing => r.after == a && Issues(config, r.acts, r.outs, Ping)
    case Take(count) =>
      var window := WindowOf(config, a);
      && window > 0 && r.after == a.(counter := Tally(a.counter, count, window).0)
      && (match Tally(a.counter, count, window).1
          case None => r.acts == [] && r.outs == []
          case Some(sequence) => Issues(config, r.acts, r.outs, Acknowledge(sequence)))
    case Hear(m) => Reacts(config, a, m, r.acts, r.outs, r.after)
  }

  /** What a message does. Those of the chunk layer concern the decoder alone. */
  ghost predicate Reacts(config: Config, a: Model, m: RawMessage, acts: seq<Action>, outs: seq<Output>, b: Model) {
    if m.typeId == TYPE_SET_CHUNK_SIZE || m.typeId == TYPE_ABORT then b == a && acts == [] && outs == []
    else if m.typeId in {8, 9, 15, 18} then
      && b == a && acts == []
      && exists owner :: Owns(a.live, m.streamId, owner) && outs == MediaOutputs(a.live, owner, m)
    else if m.typeId !in {3, 4, 5, 6, 17, 20} then b == a && acts == [] && outs == [Unhandled(m)]
    else config.parse(m).Some? && Answers(config, a, m, config.parse(m).value, acts, outs, b)
  }

  /** Media is reported on a stream that plays or is about to, script data on any stream. */
  ghost function MediaOutputs(live: Entries, owner: Option<Handle>, m: RawMessage): seq<Output> {
    if owner.None? || owner.value !in live then []
    else if m.typeId == 15 || m.typeId == 18 then [EventOut(DataReceived(owner.value, m))]
    else if live[owner.value].state in {StartingPlayback, Playing} then [EventOut(MediaReceived(owner.value, m))]
    else []
  }

  ghost predicate Answers(config: Config, a: Model, m: RawMessage, inbound: Inbound, acts: seq<Action>,
          outs: seq<Output>, b: Model) {
    match inbound
    case Success(t, number) =>
      if t !in a.open then b == a && acts == [] && outs == [EventOut(UnknownResult(t))]
      else if a.open[t].ConnectionRequested? then
        b == a.(state := Connected, open := a.open - {t}) && Welcomed(config, acts, outs)
      else
        && number.Some? && number.value > 0 && Owns(a.live, number.value, None)
        && Begun(config, a, t, number.value, acts, outs, b)
    case Refusal(t) => acts == [] && Refused(a, t, outs, b)
    case Status(code, isError) =>
      code.Some? && exists owner ::
          Owns(a.live, m.streamId, owner)
          && Told(config, a, m.streamId, owner, code.value, isError, acts, outs, b)
    case PingHeard(time) => b == a && Issues(config, acts, outs, Pong(time))
    case WindowHeard(size) => size > 0 && b == a.(window := Some(size)) && acts == [] && outs == []
    case _ => b == a && acts == [] && outs == PlainOutputs(m, inbound)
  }

  /** An accepted connection: window size, event, chunk size. */
  ghost predicate Welcomed(config: Config, acts: seq<Action>, outs: seq<Output>) {
    && |acts| == 2 && Carries(config, acts[0], WindowSize(config.windowSize), 0)
    && acts[1] == Resize(config.chunkSize, 0)
    && |outs| == 3 && outs[0].PacketOut? && outs[1] == EventOut(ConnectionAccepted) && outs[2].PacketOut?
  }

  /** The number of a new stream. A live stream is bound to it and started; if it was deleted
      meanwhile, the server is told to delete it as well. */
  ghost predicate Begun(config: Config, a: Model, t: nat, number: u32, acts: seq<Action>, outs: seq<Output>, b: Model)
    requires t in a.open && a.open[t].CreateStream?
  {
    var h, purpose, rest := a.open[t].stream, a.open[t].purpose, a.open - {t};
    if h !in a.live then b == a.(open := rest) && Issues(config, acts, outs, DropStream(number))
    else
      && b == a.(open := rest, live := a.live[h := Entry(Some(number), Starting(purpose))])
      && StartCommands(config, purpose, number, acts, outs)
  }

  function Starting(purpose: Purpose): StreamState {
    if purpose.PlayRequest? then StartingPlayback else StartingPublish
  }

  ghost predicate StartCommands(config: Config, purpose: Purpose, number: u32, acts: seq<Action>, outs: seq<Output>) {
    match purpose
    case PlayRequest(key) =>
      && |acts| == 2 && Carries(config, acts[0], BufferLength(number), 0) && Carries(config, acts[1], Play(key), number)
      && |outs| == 2 && outs[0].PacketOut? && outs[1].PacketOut?
    case PublishRequest(key, mode) =>
      |acts| == 1 && Carries(config, acts[0], Publish(key, mode), number) && |outs| == 1 && outs[0].PacketOut?
  }

  /** A refusal. A refused createStream takes its stream along; the application hears of it only if
      it still had the stream. */
  ghost predicate Refused(a: Model, t: nat, outs: seq<Output>, b: Model) {
    if t !in a.open then b == a && outs == [EventOut(UnknownResult(t))]
    else
      match a.open[t]
      case ConnectionRequested(_) =>
        b == a.(state := Disconnected, open := a.open - {t}) && outs == [EventOut(ConnectionRejected)]
      case CreateStream(h, purpose) =>
        && b == a.(open := a.open - {t}, live := a.live - {h})
        && outs == if h in a.live then [EventOut(RejectionOf(h, purpose))] else []
  }

  function RejectionOf(h: Handle, purpose: Purpose): ClientEvent {
    if purpose.PlayRequest? then PlaybackRejected(h) else PublishRejected(h)
  }

  /** How a status ends a stream that is in state `s`, if it does. */
  function Ending(code: Code, isError: bool, s: StreamState, stream: Handle): Option<ClientEvent> {
    if code == PlayRefused && s == StartingPlayback then Some(PlaybackRejected(stream))
    else if code == PublishRefused && s == StartingPublish then Some(PublishRejected(stream))
    else if code == PlayEnded && (s == Playing || s == StartingPlayback) then Some(PlaybackFinished(stream))
    else if code == PublishEnded && (s == Publishing || s == StartingPublish) then Some(PublishingFinished(stream))
    else if isError && s == StartingPlayback then Some(PlaybackRejected(stream))
    else if isError && s == StartingPublish then Some(PublishRejected(stream))
    else None
  }

  /** A status on a message stream: it starts the stream, ends it, or is passed on. */
  ghost predicate Told(config: Config, a: Model, wire: u32, owner: Option<Handle>, code: Code, isError: bool,
                       acts: seq<Action>, outs: seq<Output>, b: Model) {
    if owner.None? || owner.value !in a.live then b == a && acts == [] && outs == [EventOut(StatusReceived(None))]
    else
      var h := owner.value;
      var e := a.live[h];
      if code == PlayStarted && e.state == StartingPlayback then
        b == a.(live := a.live[h := e.(state := Playing)]) && acts == [] && outs == [EventOut(PlaybackAccepted(h))]
      else if code == PublishStarted && e.state == StartingPublish then
        b == a.(live := a.live[h := e.(state := Publishing)]) && acts == [] && outs == [EventOut(PublishAccepted(h))]
      else
        match Ending(code, isError, e.state, h)
        case None => b == a && acts == [] && outs == [EventOut(StatusReceived(owner))]
        case Some(event) =>
          && b == a.(live := a.live - {h}) && |acts| == 1 && Carries(config, acts[0], DropStream(wire), 0)
          && |outs| == 2 && outs[0].PacketOut? && outs[1] == EventOut(event)
  }

  /** Messages that are only passed on. */
  function PlainOutputs(m: RawMessage, inbound: Inbound): seq<Output> {
    match inbound
    case AckHeard(n) => [EventOut(AcknowledgementReceived(n))]
    case PongHeard(time) => [EventOut(PongReceived(if time.Some? then time.value else 0))]
    case OtherCommand => [EventOut(UnhandledCommand)]
    case OtherControl => []
    case _ => [Unhandled(m)]
  }

  // ----- every state is lawful --------------------------------------------------------------------------

  ghost predicate WiresDistinct(live: Entries) {
    forall h, k :: h in live && k in live && live[h].wire.Some? && live[h].wire == live[k].wire ==> h == k
  }

  /** The lifecycle laws hold, wire IDs are distinct, and so are the limits. */
  ghost predicate Lawful(config: Config, a: Model) {
    && a.state != Failed && Lifecycle(a.state, a.open, a.live, a.issued)
    && a.live.Keys <= a.issued && WiresDistinct(a.live)
    && |a.live| <= config.maxStreams && |a.open| <= config.maxRequests
    && (a.window.Some? ==> a.window.value > 0)
  }

  lemma StartLawful(config: Config)
    ensures Lawful(config, Start)
  {
  }

  lemma SameSize<K, V>(m: map<K, V>, k: K, v: V)
    requires k in m
    ensures |m[k := v]| == |m| && m[k := v].Keys == m.Keys
  {
    assert m[k := v].Keys == m.Keys;
  }

  lemma LosesLawful(config: Config, a: Model, h: Handle)
    requires Lawful(config, a)
    ensures Lawful(config, a.(live := a.live - {h}))
  {
    hide Lifecycle;
    LosesStream(a.state, a.open, a.live, a.issued, h);
    Fewer(a.live, h);
  }

  lemma AppLawful(config: Config, a: Model, r: Record)
    requires Lawful(config, a) && Follows(config, a, r) && !r.cause.Take? && !r.cause.Hear?
    ensures Lawful(config, r.after)
  {
    hide Lawful, Issues, Tally, Reacts;
    match r.cause
    case AppConnect(app, t) => ConnectLawful(config, a, app, t);
    case AppCreate(h, purpose, t) => CreateLawful(config, a, h, purpose, t);
    case AppDelete(h) => LosesLawful(config, a, h);
    case AppSend(_, _, _, _, _) =>
    case AppPing =>
  }

  lemma ConnectLawful(config: Config, a: Model, app: seq<byte>, t: nat)
    requires Lawful(config, a) && a.state == Disconnected && |a.open| < config.maxRequests && t !in a.open
    ensures Lawful(config, a.(state := Connecting, open := a.open[t := ConnectionRequested(app)]))
  {
    hide Lifecycle, WiresDistinct;
    BeginsConnecting(a.state, a.open, a.live, a.issued, t, app);
    Added(a.open, t, ConnectionRequested(app));
  }

  lemma CreateLawful(config: Config, a: Model, h: Handle, purpose: Purpose, t: nat)
    requires Lawful(config, a) && |a.live| < config.maxStreams && |a.open| < config.maxRequests && t !in a.open
             && h !in a.issued
    ensures Lawful(config,
            a.(open := a.open[t := CreateStream(h, purpose)], live := a.live[h := Entry(None, Creating)],
            issued := a.issued + {h}))
  {
    hide Lifecycle;
    BeginsStream(a.state, a.open, a.live, a.issued, t, h, purpose);
    Added(a.open, t, CreateStream(h, purpose));
    Added(a.live, h, Entry(None, Creating));
  }

  lemma BegunLawful(config: Config, a: Model, t: nat, number: u32, acts: seq<Action>, outs: seq<Output>, b: Model)
    requires Lawful(config, a) && t in a.open && a.open[t].CreateStream? && Owns(a.live, number, None)
    requires Begun(config, a, t, number, acts, outs, b)
    ensures Lawful(config, b)
  {
    hide Lifecycle, Issues, StartCommands;
    var h, purpose := a.open[t].stream, a.open[t].purpose;
    Fewer(a.open, t);
    assert Names(a.open, t, h);
    if h in a.live {
      var e := Entry(Some(number), Starting(purpose));
      CreateEnds(a.state, a.open, a.live, a.issued, t, h, e);
      SameSize(a.live, h, e);
      forall k | k in a.live
        ensures a.live[k].wire != Some(number)
      {
        assert Option<Handle>.None != Some(k);
      }
    } else {
      CreateEndsUnused(a.state, a.open, a.live, a.issued, t, h);
    }
  }

  lemma RefusedLawful(config: Config, a: Model, t: nat, outs: seq<Output>, b: Model)
    requires Lawful(config, a) && Refused(a, t, outs, b)
    ensures Lawful(config, b)
  {
    hide Lifecycle;
    if t in a.open {
      Fewer(a.open, t);
      if a.open[t].CreateStream? {
        CreateRefused(a.state, a.open, a.live, a.issued, t, a.open[t].stream);
        Fewer(a.live, a.open[t].stream);
      } else {
        ConnectEnds(a.state, a.open, a.live, a.issued, t, Disconnected);
      }
    }
  }

  lemma ToldLawful(config: Config, a: Model, wire: u32, owner: Option<Handle>, code: Code, isError: bool,
          acts: seq<Action>, outs: seq<Output>, b: Model)
    requires Lawful(config, a) && Owns(a.live, wire, owner)
             && Told(config, a, wire, owner, code, isError, acts, outs, b)
    ensures Lawful(config, b)
  {
    hide Lawful, Carries, Ending;
    if owner.Some? {
      var h := owner.value;
      assert h in a.live && a.live[h].wire == Some(wire);
      AdvanceLawful(config, a, h, Playing);
      AdvanceLawful(config, a, h, Publishing);
      LosesLawful(config, a, h);
    }
  }

  lemma AdvanceLawful(config: Config, a: Model, h: Handle, s: StreamState)
    requires Lawful(config, a) && h in a.live && a.live[h].wire.Some? && s != Creating
    ensures Lawful(config, a.(live := a.live[h := a.live[h].(state := s)]))
  {
    BoundStarted(config, a, h);
    hide Lifecycle;
    Advances(a.state, a.open, a.live, a.issued, h, s);
    SameSize(a.live, h, a.live[h].(state := s));
  }

  lemma BoundStarted(config: Config, a: Model, h: Handle)
    requires Lawful(config, a) && h in a.live
    ensures a.live[h].wire.Some? <==> a.live[h].state != Creating
  {
  }

  lemma AnswersLawful(config: Config, a: Model, m: RawMessage, inbound: Inbound, acts: seq<Action>, outs: seq<Output>,
          b: Model)
    requires Lawful(config, a) && Answers(config, a, m, inbound, acts, outs, b)
    ensures Lawful(config, b)
  {
    hide Lawful, Welcomed, Issues, PlainOutputs, Owns, Begun, Refused, Told;
    match inbound {
      case Success(t, number) =>
        if t in a.open {
          if a.open[t].ConnectionRequested? {
            ConnectedLawful(config, a, t);
          } else {
            BegunLawful(config, a, t, number.value, acts, outs, b);
          }
        }
      case Refusal(t) => RefusedLawful(config, a, t, outs, b);
      case Status(code, isError) =>
        var owner :| Owns(a.live, m.streamId, owner)
            && Told(config, a, m.streamId, owner, code.value, isError, acts, outs, b);
        ToldLawful(config, a, m.streamId, owner, code.value, isError, acts, outs, b);
      case WindowHeard(size) => WindowLawful(config, a, size);
      case _ =>
    }
  }

  lemma ConnectedLawful(config: Config, a: Model, t: nat)
    requires Lawful(config, a) && Connects(a.open, t)
    ensures Lawful(config, a.(state := Connected, open := a.open - {t}))
  {
    hide Lifecycle, WiresDistinct;
    Fewer(a.open, t);
    ConnectEnds(a.state, a.open, a.live, a.issued, t, Connected);
  }

  lemma WindowLawful(config: Config, a: Model, size: u32)
    requires Lawful(config, a) && size > 0
    ensures Lawful(config, a.(window := Some(size)))
  {
    hide Lifecycle, WiresDistinct;
  }

  /** Every step keeps the laws. */
  lemma FollowsLawful(config: Config, a: Model, r: Record)
    requires Lawful(config, a) && Follows(config, a, r)
    ensures Lawful(config, r.after)
  {
    hide Lawful, Answers, Issues, Owns, MediaOutputs, Tally;
    if r.cause.Hear? {
      var m := r.cause.message;
      if config.parse(m).Some? && Answers(config, a, m, config.parse(m).value, r.acts, r.outs, r.after) {
        AnswersLawful(config, a, m, config.parse(m).value, r.acts, r.outs, r.after);
      }
    } else if r.cause.Take? {
      CounterLawful(config, a, r.after.counter);
    } else {
      AppLawful(config, a, r);
    }
  }

  lemma CounterLawful(config: Config, a: Model, c: Counter)
    requires Lawful(config, a)
    ensures Lawful(config, a.(counter := c))
  {
  }

  /** A journal of steps that follow each other from the start. */
  ghost predicate IsRun(config: Config, journal: Journal) {
    forall n :: 0 <= n < |journal| ==> Follows(config, At(journal, n), journal[n])
  }

  /** Every state of every run is lawful. */
  lemma {:induction false} RunLawful(config: Config, journal: Journal, n: nat)
    requires IsRun(config, journal) && n <= |journal|
    ensures Lawful(config, At(journal, n))
    decreases n
  {
    hide Lawful, Follows;
    if n == 0 {
      StartLawful(config);
    } else {
      RunLawful(config, journal, n - 1);
      FollowsLawful(config, At(journal, n - 1), journal[n - 1]);
    }
  }

  // ----- no command after removal -----------------------------------------------------------------------

  ghost predicate RemovedAt(journal: Journal, i: nat, h: Handle)
    requires i < |journal|
  {
    h in At(journal, i).live && h !in journal[i].after.live
  }

  /** The step is the answer to the createStream of this stream, which is still there. */
  ghost predicate StartedAt(config: Config, journal: Journal, j: nat, h: Handle)
    requires j < |journal|
  {
    var a, cause := At(journal, j), journal[j].cause;
    && cause.Hear? && config.parse(cause.message).Some? && config.parse(cause.message).value.Success?
    && Names(a.open, config.parse(cause.message).value.transaction, h) && h in a.live
  }

  lemma FollowsIssued(config: Config, a: Model, r: Record, h: Handle)
    requires Follows(config, a, r) && h in a.issued
    ensures h in r.after.issued && (h !in a.live ==> h !in r.after.live)
  {
    hide Carries, Issues, Tally, Ending, PlainOutputs, Welcomed, StartCommands, MediaOutputs;
  }

  lemma {:induction false} GoneStaysGone(config: Config, journal: Journal, i: nat, j: nat, h: Handle)
    requires IsRun(config, journal) && i <= j <= |journal| && h in At(journal, i).issued && h !in At(journal, i).live
    ensures h in At(journal, j).issued && h !in At(journal, j).live
    decreases j
  {
    hide Follows;
    if i < j {
      GoneStaysGone(config, journal, i, j - 1, h);
      FollowsIssued(config, At(journal, j - 1), journal[j - 1], h);
    }
  }

  /** A stream that was removed is never started, even if its slot is in use again. */
  lemma NeverStartedAfterRemoval(config: Config, journal: Journal, i: nat, j: nat, h: Handle)
    requires IsRun(config, journal) && i < j < |journal| && RemovedAt(journal, i, h)
    ensures !StartedAt(config, journal, j, h)
  {
    hide Follows, Lifecycle;
    RunLawful(config, journal, i);
    FollowsIssued(config, At(journal, i), journal[i], h);
    GoneStaysGone(config, journal, i + 1, j, h);
  }

  /** A play or publish command: a command on a message stream of its own. */
  predicate IsCommand(a: Action) {
    a.Send? && a.m.typeId == 20 && a.m.streamId > 0
  }

  /** The only such commands of a run start a stream that is there, on the wire ID it then has. */
  lemma CommandStarts(config: Config, journal: Journal, j: nat, k: nat) returns (h: Handle)
    requires IsRun(config, journal) && j < |journal| && k < |journal[j].acts| && IsCommand(journal[j].acts[k])
    ensures StartedAt(config, journal, j, h)
    ensures h in journal[j].after.live && journal[j].after.live[h].wire == Some(journal[j].acts[k].m.streamId)
    ensures forall i :: 0 <= i < j ==> !RemovedAt(journal, i, h)
  {
    var a, r := At(journal, j), journal[j];
    h := CommandOf(config, a, r, k);
    assert StartedAt(config, journal, j, h);
    forall i | 0 <= i < j
      ensures !RemovedAt(journal, i, h)
    {
      hide Follows, StartedAt, RemovedAt;
      if RemovedAt(journal, i, h) {
        NeverStartedAfterRemoval(config, journal, i, j, h);
      }
    }
  }

  lemma CommandOf(config: Config, a: Model, r: Record, k: nat) returns (h: Handle)
    requires Follows(config, a, r) && k < |r.acts| && IsCommand(r.acts[k])
    ensures r.cause.Hear? && config.parse(r.cause.message).Some? && config.parse(r.cause.message).value.Success?
    ensures Names(a.open, config.parse(r.cause.message).value.transaction, h) && h in a.live
    ensures h in r.after.live && r.after.live[h].wire == Some(r.acts[k].m.streamId)
  {
    hide Tally, Ending, PlainOutputs, MediaOutputs, Owns;
    var m := r.cause.message;
    var inbound := config.parse(m).value;
    h := a.open[inbound.transaction].stream;
  }

  // ----- packets and outputs of a run -------------------------------------------------------------------

  ghost function Acts(journal: Journal): seq<Action> {
    if journal == [] then [] else Acts(journal[..|journal| - 1]) + journal[|journal| - 1].acts
  }

  ghost function Outs(journal: Journal): seq<Output> {
    if journal == [] then [] else Outs(journal[..|journal| - 1]) + journal[|journal| - 1].outs
  }

  /** The messages of the server handled in a run, and the bytes taken in. */
  ghost function Heard(journal: Journal): seq<RawMessage> {
    if journal == [] then []
    else Heard(journal[..|journal| - 1]) + (if journal[|journal| - 1].cause.Hear? then
        [journal[|journal| - 1].cause.message] else [])
  }

  ghost function TakenIn(journal: Journal): nat {
    if journal == [] then 0
    else TakenIn(journal[..|journal| - 1]) + (if journal[|journal| - 1].cause.Take? then
        journal[|journal| - 1].cause.count else 0)
  }

  lemma JournalAppend(journal: Journal, r: Record)
    ensures Acts(journal + [r]) == Acts(journal) + r.acts && Outs(journal + [r]) == Outs(journal) + r.outs
    ensures Heard(journal + [r]) == Heard(journal) + (if r.cause.Hear? then [r.cause.message] else [])
    ensures TakenIn(journal + [r]) == TakenIn(journal) + (if r.cause.Take? then r.cause.count else 0)
    ensures At(journal + [r], |journal| + 1) == r.after
  {
    assert (journal + [r])[..|journal|] == journal;
  }

  /** A run whose packets are those that one encoder made, in order. */
  ghost predicate Sound(config: Config, journal: Journal) {
    && IsRun(config, journal)
    && AllMade(NewEncoder, Acts(journal)) && Ordinary(Acts(journal))
    && MadeBy(NewEncoder, Acts(journal)) == PacketsIn(Outs(journal))
  }

  lemma SoundOn(config: Config, journal: Journal, r: Record)
    requires Sound(config, journal) && Follows(config, At(journal, |journal|), r)
    requires AllMade(NewEncoder, Acts(journal) + r.acts) && Ordinary(Acts(journal) + r.acts)
    requires MadeBy(NewEncoder, Acts(journal) + r.acts) == MadeBy(NewEncoder, Acts(journal)) + PacketsIn(r.outs)
    ensures Sound(config, journal + [r])
  {
    hide Follows, MadeBy, AllMade, PacketsIn, Acts, Outs;
    JournalAppend(journal, r);
    PacketsConcat(Outs(journal), r.outs);
    forall n | 0 <= n < |journal| + 1
      ensures Follows(config, At(journal + [r], n), (journal + [r])[n])
    {
      assert At(journal + [r], n) == At(journal, n);
    }
  }

  // ----- what runs mean to the server -------------------------------------------------------------------

  lemma HandedPackets(config: Config, journal: Journal, handed: seq<Output>)
    requires Sound(config, journal) && handed <= Outs(journal)
    ensures PacketsIn(handed) <= MadeBy(NewEncoder, Acts(journal)) && |PacketsIn(handed)| <= |Acts(journal)|
    ensures forall i :: 0 <= i < |PacketsIn(handed)| ==> PacketsIn(handed)[i].chunkSize > 0
  {
    hide MadeBy, AllMade, PacketsIn, Acts, Outs, IsRun;
    var outs := Outs(journal);
    assert outs == handed + outs[|handed|..];
    PacketsConcat(handed, outs[|handed|..]);
    MadeSizes(NewEncoder, Acts(journal));
  }

  /** Whatever left in a run, less some droppable packets, the server decodes to exactly the messages
      that the steps of the run had encoded, in order. */
  lemma RunDecodes(config: Config, journal: Journal, handed: seq<Output>, limits: Limits, keep: seq<bool>)
    requires Sound(config, journal) && handed <= Outs(journal) && Admits(limits)
    requires |PacketsIn(handed)| <= |Acts(journal)|
    requires var acts := Acts(journal)[..|PacketsIn(handed)|]; Faithful(acts, keep) && WithinLimits(limits, acts)
    ensures forall i :: 0 <= i < |PacketsIn(handed)| ==> PacketsIn(handed)[i].chunkSize > 0
    ensures var s := ReceiveAll(Fresh(limits), WiresOf(PacketsIn(handed), keep));
            s.Live? && s.messages == KeptMessages(Acts(journal)[..|PacketsIn(handed)|], keep)
  {
    hide ReceiveAll, WiresOf, KeptMessages, MadeBy, AllMade, PacketsIn, Acts, Outs, IsRun;
    HandedPackets(config, journal, handed);
    OrdinaryProper(limits, Acts(journal), |PacketsIn(handed)|, keep);
    ReleasedDecodes(limits, Acts(journal), PacketsIn(handed), keep);
  }

  // ----- acknowledgements of a run ------------------------------------------------------------------------

  /** The decode steps of a run, each with the window then in force. */
  ghost function Tallies(config: Config, journal: Journal): (steps: seq<(nat, nat)>)
    ensures Total(steps) == TakenIn(journal)
  {
    if journal == [] then []
    else
      var n := |journal| - 1;
      var before := Tallies(config, journal[..n]);
      if journal[n].cause.Take? then
        var steps := before + [(journal[n].cause.count, WindowOf(config, At(journal, n)))];
        assert steps[..|before|] == before;
        steps
      else before
  }

  lemma PrefixRuns(config: Config, journal: Journal, n: nat)
    requires IsRun(config, journal) && n <= |journal|
    ensures IsRun(config, journal[..n]) && At(journal[..n], n) == At(journal, n)
  {
    hide Follows;
    var init := journal[..n];
    forall k | 0 <= k < n
      ensures Follows(config, At(init, k), init[k])
    {
      assert At(init, k) == At(journal, k) && init[k] == journal[k];
    }
  }

  lemma TakeCounts(config: Config, a: Model, r: Record)
    requires Follows(config, a, r) && r.cause.Take?
    ensures WindowOf(config, a) > 0 && r.after.counter == Tally(a.counter, r.cause.count, WindowOf(config, a)).0
    ensures r.acts != [] ==>
              && Tally(a.counter, r.cause.count, WindowOf(config, a)).1.Some?
              && Issues(config, r.acts, r.outs,
                   Acknowledge(Tally(a.counter, r.cause.count, WindowOf(config, a)).1.value))
  {
    hide Tally, Issues;
  }

  lemma {:induction false} RunCounts(config: Config, journal: Journal)
    requires IsRun(config, journal)
    ensures forall i :: 0 <= i < |Tallies(config, journal)| ==> Tallies(config, journal)[i].1 > 0
    ensures At(journal, |journal|).counter == TallyAll(NewCounter, Tallies(config, journal))
    decreases |journal|
  {
    hide Tally, Follows, IsRun, TallyAll, Tallies, Total, TakenIn;
    TalliesFirst(config);
    if journal != [] {
      var n := |journal| - 1;
      var init, r := journal[..n], journal[n];
      PrefixRuns(config, journal, n);
      LastFollows(config, journal);
      RunCounts(config, init);
      if r.cause.Take? {
        TakeCounts(config, At(journal, n), r);
        TalliesLast(config, journal);
        TallyLast(Tallies(config, init), r.cause.count, WindowOf(config, At(journal, n)));
      } else {
        TalliesLast(config, journal);
        assert Tallies(config, init) + [] == Tallies(config, init);
        CounterKept(config, At(journal, n), r);
      }
    }
  }

  lemma TalliesFirst(config: Config)
    ensures Tallies(config, []) == [] && TallyAll(NewCounter, []) == NewCounter
  {
  }

  lemma TalliesLast(config: Config, journal: Journal)
    requires journal != []
    ensures var n := |journal| - 1;
            Tallies(config, journal) == Tallies(config, journal[..n]) +
              (if journal[n].cause.Take? then [(journal[n].cause.count, WindowOf(config, At(journal, n)))] else [])
  {
  }

  lemma TallyLast(steps: seq<(nat, nat)>, count: nat, window: nat)
    requires (forall i :: 0 <= i < |steps| ==> steps[i].1 > 0) && window > 0
    ensures var longer := steps + [(count, window)];
            && (forall i :: 0 <= i < |longer| ==> longer[i].1 > 0)
            && TallyAll(NewCounter, longer) == Tally(TallyAll(NewCounter, steps), count, window).0
  {
    hide Tally;
    assert (steps + [(count, window)])[..|steps|] == steps;
  }

  lemma LastFollows(config: Config, journal: Journal)
    requires IsRun(config, journal) && journal != []
    ensures Follows(config, At(journal, |journal| - 1), journal[|journal| - 1])
  {
    hide Follows;
  }

  lemma CounterKept(config: Config, a: Model, r: Record)
    requires Follows(config, a, r) && !r.cause.Take?
    ensures r.after.counter == a.counter
  {
    hide Carries, Issues, Tally, Ending, PlainOutputs, Welcomed, StartCommands, MediaOutputs, Owns;
  }

  /** Every acknowledgement of a run carries the total of the bytes taken in, modulo 2^32. */
  lemma AcknowledgesTotal(config: Config, journal: Journal, n: nat)
    requires IsRun(config, journal) && n < |journal| && journal[n].cause.Take? && journal[n].acts != []
    ensures Issues(config, journal[n].acts, journal[n].outs,
            Acknowledge((TakenIn(journal[..n]) + journal[n].cause.count) % WRAP32))
  {
    hide Tally, Issues, Follows, Tallies, TallyAll, Total;
    var init := journal[..n];
    PrefixRuns(config, journal, n);
    RunCounts(config, init);
    assert Follows(config, At(journal, n), journal[n]);
    TakeCounts(config, At(journal, n), journal[n]);
    SequenceNumberIsTotal(Tallies(config, init), journal[n].cause.count, WindowOf(config, At(journal, n)));
  }

  // ----- why something is refused ---------------------------------------------------------------------------

  /** The command cannot be written, or it is too long to be sent. */
  ghost predicate Excuse(config: Config, c: Command, e: SessionError) {
    match config.body(c)
    case None => e == Unwritable
    case Some(body) => |body| > MAX24 && e.EncodeFailed?
  }

  ghost predicate ConnectDenied(config: Config, a: Model, app: seq<byte>, e: SessionError) {
    if a.state != Disconnected then e == AlreadyConnected
    else if |a.open| >= config.maxRequests then e == TooManyRequests
    else exists t: nat :: Excuse(config, ConnectTo(app, t), e)
  }

  ghost predicate CreateDenied(config: Config, a: Model, e: SessionError) {
    if a.state != Connected then e == NotConnected
    else if |a.live| >= config.maxStreams then e == TooManyStreams
    else if |a.open| >= config.maxRequests then e == TooManyRequests
    else exists t: nat :: Excuse(config, NewStream(t), e)
  }

  ghost predicate DeleteDenied(config: Config, a: Model, h: Handle, e: SessionError) {
    if h !in a.live then e == InvalidHandle
    else a.live[h].wire.Some? && Excuse(config, DropStream(a.live[h].wire.value), e)
  }

  ghost predicate SendDenied(a: Model, waiting: bool, h: Handle, data: seq<byte>, e: SessionError) {
    if waiting then e == PendingOutput
    else if h !in a.live then e == InvalidHandle
    else if a.live[h].state != Publishing then e == NotPublishing
    else |data| > MAX24 && e.EncodeFailed?
  }

  ghost predicate PingDenied(config: Config, waiting: bool, e: SessionError) {
    if waiting then e == PendingOutput else Excuse(config, Ping, e)
  }

  /** The acknowledgement that is due after so many bytes cannot be sent. */
  ghost predicate AckDenied(config: Config, a: Model, consumed: nat, e: SessionError) {
    && WindowOf(config, a) > 0 && Tally(a.counter, consumed, WindowOf(config, a)).1.Some?
    && Excuse(config, Acknowledge(Tally(a.counter, consumed, WindowOf(config, a)).1.value), e)
  }

  /** One of the commands that start a stream cannot be sent. */
  ghost predicate StartDenied(config: Config, purpose: Purpose, number: u32, e: SessionError) {
    match purpose
    case PlayRequest(key) => Excuse(config, BufferLength(number), e) || Excuse(config, Play(key), e)
    case PublishRequest(key, mode) => Excuse(config, Publish(key, mode), e)
  }

  ghost predicate WelcomeDenied(config: Config, e: SessionError) {
    Excuse(config, WindowSize(config.windowSize), e) || (e.EncodeFailed? && !(0 < config.chunkSize <= 0x7fff_ffff))
  }

  /** The number of a new stream is missing or in use, or what is to be sent then cannot be. */
  ghost predicate NumberDenied(config: Config, a: Model, h: Handle, purpose: Purpose, number: Option<u32>,
          e: SessionError) {
    if number.None? || number.value == 0 then e == NoStreamNumber
    else if !Owns(a.live, number.value, None) then e == DuplicateStreamId
    else if h !in a.live then Excuse(config, DropStream(number.value), e)
    else StartDenied(config, purpose, number.value, e)
  }

  /** The message is one that ends the session: it cannot be read, it contradicts what went before, or
      its answer cannot be sent. */
  ghost predicate Faulty(config: Config, a: Model, m: RawMessage, e: SessionError) {
    match config.parse(m)
    case None => e == Unreadable
    case Some(Success(t, number)) =>
      t in a.open &&
      (match a.open[t]
       case ConnectionRequested(_) => WelcomeDenied(config, e)
       case CreateStream(h, purpose) => NumberDenied(config, a, h, purpose, number, e))
    case Some(Status(code, _)) => if code.None? then e == BadStatus else Excuse(config, DropStream(m.streamId), e)
    case Some(PingHeard(time)) => Excuse(config, Pong(time), e)
    case Some(WindowHeard(size)) => e == ZeroWindow && size == 0
    case _ => false
  }
}
