/** The chunk parser as a byte-at-a-time machine.
    This is the reference against which the incremental parser and the decoders are proved. */
module ChunkMachine {
  import opened Base

  datatype Limits = Limits(
    maxChunkSize: nat,
    maxMessageSize: nat,
    maxTracked: nat,
    maxPartial: nat,
    maxBuffered: nat,
    maxFragments: nat)

  datatype MessageHeader = MessageHeader(csid: nat, timestamp: u32, typeId: byte, streamId: u32, length: nat)

  datatype Stream = Stream(header: MessageHeader, timeField: u32, received: nat, active: bool)

  datatype Resource =
    | TrackedStreams | MessagePayload | PartialMessages
    | BufferedBytes | ReservedBytes | PayloadFragments

  datatype Error =
    | NoPreviousChunk(csid: nat)
    | LimitExceeded(resource: Resource, attempted: nat, maximum: nat)
    | LengthBelowBuffered(csid: nat, length: nat, buffered: nat)
    | InvalidContinuation(csid: nat)
    | InvalidMaxChunkSize(size: nat)
    | MalformedControl(typeId: byte)

  /** Parser state. `scratch` holds the bytes of the header being collected. */
  datatype State = State(
    streams: map<nat, Stream>,
    scratch: seq<byte>,
    current: Option<nat>,
    chunkLeft: nat,
    chunkSize: nat,
    limits: Limits)

  /** What the parser reports, one payload byte at a time. `End` closes a message. */
  datatype Event =
    | Data(header: MessageHeader, offset: nat, b: byte)
    | End(header: MessageHeader)

  /** Outcome of feeding bytes: `at` is the index of the byte that revealed the error. */
  datatype Outcome =
    | Running(state: State, events: seq<Event>)
    | Stopped(error: Error, at: nat, events: seq<Event>)

  function Initial(limits: Limits): State {
    State(map[], [], None, 0, 128, limits)
  }

  // ----- header layout ---------------------------------------------------

  function BasicLen(s: seq<byte>): (n: nat)
    requires s != []
  {
    if s[0] % 64 == 0 then 2 else if s[0] % 64 == 1 then 3 else 1
  }

  function Csid(s: seq<byte>): nat
    requires s != [] && |s| >= BasicLen(s)
  {
    if s[0] % 64 == 0 then 64 + s[1] as int
    else if s[0] % 64 == 1 then 64 + s[1] as int + 256 * s[2] as int
    else s[0] % 64
  }

  function Fmt(s: seq<byte>): nat
    requires s != []
  {
    s[0] / 64
  }

  function BodyLen(fmt: nat): nat {
    if fmt == 0 then 11 else if fmt == 1 then 7 else if fmt == 2 then 3 else 0
  }

  /** How many header bytes must be collected before the next decision. */
  function HeaderNeeded(streams: map<nat, Stream>, s: seq<byte>): (r: Result<nat, Error>)
    ensures r.Ok? ==> 1 <= r.value <= 18
  {
    if s == [] then Ok(1) else
    var basic := BasicLen(s);
    if |s| < basic then Ok(basic) else
    var fmt := Fmt(s);
    var body := BodyLen(fmt);
    if |s| < basic + body then Ok(basic + body) else
    if fmt == 3 then
      if Csid(s) !in streams then Err(NoPreviousChunk(Csid(s)))
      else Ok(basic + body + if streams[Csid(s)].timeField >= MAX24 then 4 else 0)
    else
      Ok(basic + body + if FromBe24(s[basic..]) == MAX24 then 4 else 0)
  }

  function ActiveSet(streams: map<nat, Stream>): set<nat> {
    set c | c in streams && streams[c].active
  }

  /** The header fields announced by a complete chunk header, inheriting from `prior`. */
  function ReadHeader(s: seq<byte>, prior: Option<Stream>): MessageHeader
    requires s != [] && |s| >= BasicLen(s) + BodyLen(Fmt(s))
  {
    var basic := BasicLen(s);
    var fmt := Fmt(s);
    var base := if prior.Some? then prior.value.header else MessageHeader(Csid(s), 0, 0, 0, 0);
    var sized := if fmt <= 1 then base.(length := FromBe24(s[basic + 3..]), typeId := s[basic + 6]) else base;
    if fmt == 0 then sized.(streamId := FromLe32(s[basic + 7..])) else sized
  }

  /** The absolute time or delta announced by a complete chunk header. */
  function ReadTime(s: seq<byte>, prior: Option<Stream>): u32
    requires s != [] && |s| >= BasicLen(s) + BodyLen(Fmt(s))
    requires Fmt(s) == 3 ==> prior.Some?
    requires (if Fmt(s) == 3 then prior.value.timeField else FromBe24(s[BasicLen(s)..])) >= MAX24
             ==> |s| >= BasicLen(s) + BodyLen(Fmt(s)) + 4
  {
    var basic := BasicLen(s);
    var fmt := Fmt(s);
    var field := if fmt == 3 then prior.value.timeField else FromBe24(s[basic..]);
    if field >= MAX24 then FromBe32(s[basic + BodyLen(fmt)..]) else field
  }

  ghost predicate HeaderComplete(st: State) {
    var needed := HeaderNeeded(st.streams, st.scratch);
    st.scratch != [] && needed.Ok? && |st.scratch| == needed.value
  }

  function Lookup(streams: map<nat, Stream>, csid: nat): Option<Stream> {
    if csid in streams then Some(streams[csid]) else None
  }

  /** Interpret a complete header: open a message or continue one. */
  function BeginChunk(st: State): Result<State, Error>
    requires HeaderComplete(st)
  {
    var s := st.scratch;
    var csid := Csid(s);
    var fmt := Fmt(s);
    var prior := Lookup(st.streams, csid);
    if fmt != 0 && prior.None? then Err(NoPreviousChunk(csid))
    else if prior.None? && |st.streams| >= st.limits.maxTracked then
      Err(LimitExceeded(TrackedStreams, |st.streams| + 1, st.limits.maxTracked))
    else
    var continuing := prior.Some? && prior.value.active;
    var header := ReadHeader(s, prior);
    if header.length > st.limits.maxMessageSize then
      Err(LimitExceeded(MessagePayload, header.length, st.limits.maxMessageSize))
    else
    var time := ReadTime(s, prior);
    if !continuing then
      var started := header.(timestamp := if fmt == 0 then time else Add32(header.timestamp, time));
      var active := |ActiveSet(st.streams)|;
      if header.length > st.chunkSize && active >= st.limits.maxPartial then
        Err(LimitExceeded(PartialMessages, active + 1, st.limits.maxPartial))
      else
        Ok(Opened(st, csid, Stream(started, time, 0, true)))
    else
      var previous := prior.value;
      if header.length < previous.received then
        Err(LengthBelowBuffered(csid, header.length, previous.received))
      else if header.length != previous.header.length || header.typeId != previous.header.typeId
        || header.streamId != previous.header.streamId || (fmt == 0 && time != previous.header.timestamp) then
        Err(InvalidContinuation(csid))
      else
        Ok(Opened(st, csid, Stream(header, time, previous.received, true)))
  }

  function Opened(st: State, csid: nat, stream: Stream): State
    requires stream.received <= stream.header.length
  {
    State(st.streams[csid := stream], [], Some(csid),
          Min(stream.header.length - stream.received, st.chunkSize), st.chunkSize, st.limits)
  }

  // ----- payload ---------------------------------------------------------

  predicate InChunk(st: State) {
    st.current.Some? && st.current.value in st.streams
    && st.streams[st.current.value].received + st.chunkLeft <= st.streams[st.current.value].header.length
  }

  /** The state after `n` payload bytes of the open chunk. */
  function TakePayload(st: State, n: nat): State
    requires InChunk(st) && n <= st.chunkLeft
  {
    var stream := st.streams[st.current.value];
    var received := stream.received + n;
    st.(streams := st.streams[st.current.value := stream.(received := received, active := stream.active
        && received != stream.header.length)],
        chunkLeft := st.chunkLeft - n,
        current := if st.chunkLeft == n then None else st.current)
  }

  /** Events of a contiguous payload fragment. */
  function FragmentEvents(header: MessageHeader, offset: nat, data: seq<byte>): (events: seq<Event>)
    decreases |data|
  {
    if data == [] then (if offset == header.length then [End(header)] else [])
    else [Data(header, offset, data[0])]
         + FragmentEvents(header, offset + 1, data[1..])
  }

  // ----- the machine -----------------------------------------------------

  /** Act on the collected header bytes, as soon as they are complete. */
  function Settle(st: State): Result<(State, seq<Event>), Error> {
    var needed := HeaderNeeded(st.streams, st.scratch);
    if needed.Err? then Err(needed.error)
    else if |st.scratch| != needed.value || st.scratch == [] then Ok((st, []))
    else
      var begun := BeginChunk(st);
      if begun.Err? then Err(begun.error)
      else if begun.value.chunkLeft > 0 then Ok((begun.value, []))
      else
        // A message without payload ends with its header.
        Ok((TakePayload(begun.value, 0),
            FragmentEvents(begun.value.streams[begun.value.current.value].header,
            begun.value.streams[begun.value.current.value].received, [])))
  }

  function Step(st: State, b: byte): Result<(State, seq<Event>), Error> {
    if st.current.None? then Settle(st.(scratch := st.scratch + [b]))
    else if InChunk(st) && st.chunkLeft > 0 then
      var stream := st.streams[st.current.value];
      Ok((TakePayload(st, 1), FragmentEvents(stream.header, stream.received, [b])))
    else Ok((st, []))
  }

  function After(events: seq<Event>, skipped: nat, o: Outcome): Outcome {
    match o
    case Running(st, later) => Running(st, events + later)
    case Stopped(e, at, later) => Stopped(e, skipped + at, events + later)
  }

  function Run(st: State, bytes: seq<byte>): Outcome
    decreases |bytes|
  {
    if bytes == [] then Running(st, [])
    else
      match Step(st, bytes[0])
      case Err(e) => Stopped(e, 0, [])
      case Ok((next, events)) => After(events, 1, Run(next, bytes[1..]))
  }

  // ----- control ---------------------------------------------------------

  /** Drop a partly received message, and the open chunk if it belongs to it. */
  function Aborted(st: State, csid: nat): State {
    var streams := if csid in st.streams then st.streams[csid := st.streams[csid].(active := false, received := 0)]
        else st.streams;
    if st.current == Some(csid) then st.(streams := streams, current := None, chunkLeft := 0)
    else st.(streams := streams)
  }
}
