/** The client session: bytes come in through the message decoder, the messages they hold are
    acknowledged and handled, and outputs are handed out one at a time. */
module ClientModule {
  import opened Base
  import opened ChunkMachine
  import opened MessageMachine
  import opened MessageDecoderModule
  import opened Receiving
  import opened ChunkEncoderModule
  import opened RoundTrip
  import opened SentLog
  import opened StreamsModule
  import opened ClientState
  import opened Outputs
  import opened ClientProtocol
  import opened Negotiation

  // ----- what is heard ------------------------------------------------------------------------------

  /** Quiet input moves the receiver on and completes no message. */
  lemma HearsNothing(limits: Limits, fed: seq<byte>, heard: seq<RawMessage>, mid: Receiver, taken: seq<byte>,
          end: Receiver)
    requires ReceiveAll(Fresh(limits), fed) == Live(mid, heard)
    requires Decodes(mid.parser, mid.bodies, taken, end.parser, end.bodies, [])
    ensures ReceiveAll(Fresh(limits), fed + taken) == Live(end, heard)
  {
    hide ReceiveAll, Decodes;
    DecodedQuietly(mid.parser, mid.bodies, taken, end.parser, end.bodies);
    ReceiveConcat(Fresh(limits), fed, taken);
    assert heard + [] == heard;
  }

  /** A completed message counts as heard once the chunk layer has been told of it. */
  lemma HearsMessage(limits: Limits, fed: seq<byte>, heard: seq<RawMessage>, mid: Receiver, taken: seq<byte>,
          end: Receiver, m: RawMessage, after: Receiver)
    requires ReceiveAll(Fresh(limits), fed) == Live(mid, heard)
    requires Decodes(mid.parser, mid.bodies, taken, end.parser, end.bodies, [m]) && Control(end, m) == Ok(after)
    ensures ReceiveAll(Fresh(limits), fed + taken) == Live(after, heard + [m])
  {
    hide ReceiveAll, Decodes, Control;
    MessageReceives(mid.parser, mid.bodies, taken, end.parser, end.bodies, m);
    ReceiveConcat(Fresh(limits), fed, taken);
  }

  /** A message that the chunk layer rejects ends what can be received. */
  lemma HearsFault(limits: Limits, fed: seq<byte>, heard: seq<RawMessage>, mid: Receiver, taken: seq<byte>,
          end: Receiver, m: RawMessage, later: seq<byte>)
    requires ReceiveAll(Fresh(limits), fed) == Live(mid, heard)
    requires Decodes(mid.parser, mid.bodies, taken, end.parser, end.bodies, [m]) && Control(end, m).Err?
    ensures ReceiveAll(Fresh(limits), fed + (taken + later)).Dead?
  {
    hide ReceiveAll, Decodes, Control;
    MessageReceives(mid.parser, mid.bodies, taken, end.parser, end.bodies, m);
    ReceiveConcat(mid, taken, later);
    ReceiveConcat(Fresh(limits), fed, taken + later);
  }

  lemma HearsFailure(limits: Limits, fed: seq<byte>, heard: seq<RawMessage>, mid: Receiver, input: seq<byte>,
          error: ChunkMachine.Error)
    requires ReceiveAll(Fresh(limits), fed) == Live(mid, heard) && Fails(mid.parser, mid.bodies, input, error)
    ensures ReceiveAll(Fresh(limits), fed + input).Dead?
  {
    hide ReceiveAll, Fails;
    FailureReceives(mid.parser, mid.bodies, input, error);
    ReceiveConcat(Fresh(limits), fed, input);
  }

  /** `rest` is what is left of `input`. */
  ghost predicate Remains(input: Input, rest: Input) {
    |rest.bytes| <= |input.bytes| && rest == input.Advance(|input.bytes| - |rest.bytes|)
  }

  ghost function Taken(input: Input, rest: Input): seq<byte>
    requires Remains(input, rest)
  {
    input.bytes[..|input.bytes| - |rest.bytes|]
  }

  lemma NothingTaken(input: Input)
    ensures Remains(input, input) && Taken(input, input) == []
  {
  }

  lemma FurtherOn(input: Input, rest: Input, left: Input)
    requires Remains(input, rest) && Remains(rest, left)
    ensures Remains(input, left) && Taken(input, left) == Taken(input, rest) + Taken(rest, left)
  {
  }

  // ----- requests and what comes of them ------------------------------------------------------------

  /** What an application can do with a session. */
  datatype Request =
    | DoConnect(app: seq<byte>)
    | DoCreate(purpose: Purpose)
    | DoDelete(stream: Handle)
    | DoSend(stream: Handle, typeId: byte, timestamp: u32, data: seq<byte>, droppable: bool)
    | DoPing
    | DoReceive(input: Input)

  datatype Outcome =
    | Granted
    | Given(stream: Handle)
    | Sent(packet: Plan)
    | Handed(output: Option<Output>, rest: Input)
    | Denied(error: SessionError)

  /** What has happened in a session: its steps, the bytes taken in, and the outputs handed out. */
  datatype Log = Log(journal: Journal, fed: seq<byte>, handed: seq<Output>, failed: bool)

  const NewLog := Log([], [], [], false)

  function Latest(log: Log): Model {
    At(log.journal, |log.journal|)
  }

  /** The steps are a run of the protocol whose packets one encoder made, outputs are handed out in
      the order of the steps, and the messages handled are those that the bytes hold. */
  ghost predicate Kept(config: Config, log: Log) {
    && Sound(config, log.journal) && log.handed <= Outs(log.journal)
    && (var s := ReceiveAll(Fresh(config.limits), log.fed); s.Live? && s.messages == Heard(log.journal))
    && |log.fed| <= TakenIn(log.journal) && (!log.failed ==> |log.fed| == TakenIn(log.journal))
  }

  /** One step more, with this cause. */
  ghost predicate Steps(a: Log, b: Log, cause: Cause, handed: seq<Output>) {
    Grown(a.journal, b.journal, cause) && b == a.(journal := b.journal, handed := a.handed + handed)
  }

  /** Later steps that all come from input. The bytes of a message are counted, and acknowledged if
      that is due, before the message is handled. */
  ghost predicate Inward(journal: Journal, later: Journal) {
    && journal <= later
    && (forall n :: |journal| <= n < |later| ==> later[n].cause.Take? || later[n].cause.Hear?)
    && (forall n :: |journal| <= n < |later| && later[n].cause.Hear? ==> n > |journal| && later[n - 1].cause.Take?)
  }

  /** The request had this outcome: the step it asks for was made, or it is refused for a reason that
      the state gives. Waiting outputs come first. */
  ghost predicate Serves(config: Config, a: Log, q: Request, o: Outcome, b: Log) {
    if a.failed then o == Denied(SessionFailed) && b == a
    else
      var waiting := a.handed != Outs(a.journal);
      match q
      case DoConnect(app) =>
        if o.Denied? then b == a && ConnectDenied(config, Latest(a), app, o.error)
        else o == Granted && exists t: nat :: Steps(a, b, AppConnect(app, t), [])
      case DoCreate(purpose) =>
        if o.Denied? then b == a && CreateDenied(config, Latest(a), o.error)
        else o.Given? && exists t: nat :: Steps(a, b, AppCreate(o.stream, purpose, t), [])
      case DoDelete(h) =>
        if o.Denied? then b == a && DeleteDenied(config, Latest(a), h, o.error)
        else o == Granted && Steps(a, b, AppDelete(h), [])
      case DoSend(h, typeId, timestamp, data, droppable) =>
        if o.Denied? then b == a && SendDenied(Latest(a), waiting, h, data, o.error)
        else o.Sent? && !waiting && Steps(a, b, AppSend(h, typeId, timestamp, data, droppable), [PacketOut(o.packet)])
      case DoPing =>
        if o.Denied? then b == a && PingDenied(config, waiting, o.error)
        else o.Sent? && !waiting && Steps(a, b, AppPing, [PacketOut(o.packet)])
      case DoReceive(input) =>
        if o.Denied? then Breaks(config, a, input, o.error, b)
        else o.Handed? && Receives(a, input, o.output, o.rest, b)
  }

  ghost predicate Receives(a: Log, input: Input, output: Option<Output>, rest: Input, b: Log) {
    && Remains(input, rest) && !b.failed && Inward(a.journal, b.journal)
    && b.fed == a.fed + Taken(input, rest)
    && b.handed == a.handed + (if output.Some? then [output.value] else [])
    && (a.handed != Outs(a.journal) ==> b.journal == a.journal && rest == input && output.Some?)
    && (output.None? ==> rest.bytes == [] && b.handed == Outs(b.journal))
  }

  /** The session fails: the next bytes cannot be decoded, or the next message ends it. */
  ghost predicate Breaks(config: Config, a: Log, input: Input, e: SessionError, b: Log) {
    && b.failed && Inward(a.journal, b.journal) && b.handed == a.handed
    && a.fed <= b.fed <= a.fed + input.bytes
    && Broken(config, b, (a.fed + input.bytes)[|b.fed|..], e)
  }

  ghost predicate Broken(config: Config, log: Log, bytes: seq<byte>, e: SessionError) {
    || (e.DecodeFailed? && ReceiveAll(Fresh(config.limits), log.fed + bytes).Dead?)
    || (e.DecodeFailed? && Exceeds(config.limits, e.input) && !Ample(config.limits))
    || (exists k: nat :: k <= |bytes| && AckDenied(config, Latest(log), k, e))
    || (exists k, m :: 0 <= k <= |bytes| && NextMessage(config, log, bytes[..k], m)
         && Faulty(config, Latest(log), m, e))
  }

  /** With these bytes the message completes, the next to be handled. */
  ghost predicate NextMessage(config: Config, log: Log, bytes: seq<byte>, m: RawMessage) {
    var s := ReceiveAll(Fresh(config.limits), log.fed + bytes);
    s.Live? && s.messages == Heard(log.journal) + [m]
  }

  lemma InwardNone(journal: Journal)
    ensures Inward(journal, journal)
  {
  }

  lemma InwardOne(start: Journal, journal: Journal, later: Journal, cause: Cause)
    requires Inward(start, journal) && Grown(journal, later, cause) && (cause.Take? || cause.Hear?)
    requires cause.Hear? ==> |journal| > |start| && journal[|journal| - 1].cause.Take?
    ensures Inward(start, later) && journal <= later
    ensures Heard(later) == Heard(journal) + (if cause.Hear? then [cause.message] else [])
    ensures TakenIn(later) == TakenIn(journal) + (if cause.Take? then cause.count else 0)
  {
    hide Heard, TakenIn, Acts, Outs;
    var r := later[|journal|];
    assert later == journal + [r];
    JournalAppend(journal, r);
  }

  lemma HeardOne(journal: Journal, later: Journal, m: RawMessage)
    requires Grown(journal, later, Hear(m))
    ensures Heard(later) == Heard(journal) + [m] && TakenIn(later) == TakenIn(journal)
  {
    hide Heard, TakenIn, Acts, Outs;
    assert later == journal + [later[|journal|]];
    JournalAppend(journal, later[|journal|]);
  }

  lemma LastCause(journal: Journal, later: Journal, cause: Cause)
    requires Grown(journal, later, cause)
    ensures |later| > |journal| && later[|later| - 1].cause == cause
  {
  }

  lemma Faults(config: Config, log: Log, taken: seq<byte>, later: seq<byte>, m: RawMessage, e: SessionError)
    requires
      || (e.DecodeFailed? && ReceiveAll(Fresh(config.limits), log.fed + taken + later).Dead?)
      || (NextMessage(config, log, taken, m) && Faulty(config, Latest(log), m, e))
    ensures Broken(config, log, taken + later, e)
  {
    hide ReceiveAll, NextMessage, Faulty, AckDenied;
    assert log.fed + taken + later == log.fed + (taken + later);
    assert (taken + later)[..|taken|] == taken;
  }

  class ClientSession {
    const core: Negotiator
    const decoder: MessageDecoder

    /** The bytes taken in. */
    ghost var fed: seq<byte>

    ghost function Past(): Log
      reads this, core
    {
      Log(core.journal, fed, core.handed, core.state == Failed)
    }

    /** The messages handled are exactly those the bytes hold, however the bytes were cut. */
    ghost predicate Hearing(bytes: seq<byte>, heard: seq<RawMessage>)
      reads decoder, decoder.parser, decoder.parser.scratch
    {
      && decoder.Ok() && decoder.limits == core.config.limits
      && ReceiveAll(Fresh(core.config.limits), bytes) == Live(Held(decoder), heard)
    }

    /** A completed message is waiting to be handled: once the chunk layer is told of it, it will
        have been heard, unless the chunk layer rejects it. */
    ghost predicate Awaits(bytes: seq<byte>, later: seq<byte>, heard: seq<RawMessage>, m: RawMessage)
      reads decoder, decoder.parser, decoder.parser.scratch
    {
      && decoder.Ok() && decoder.limits == core.config.limits
      && match Control(Held(decoder), m)
         case Ok(next) => ReceiveAll(Fresh(core.config.limits), bytes) == Live(next, heard + [m])
         case Err(_) => ReceiveAll(Fresh(core.config.limits), bytes + later).Dead?
    }

    ghost predicate Valid()
      reads this, core, core.streams, decoder, decoder.parser, decoder.parser.scratch
    {
      core.Valid() && core.config.windowSize > 0 && Kept(core.config, Past())
          && (core.state != Failed ==> Hearing(fed, Heard(core.journal)))
    }

    constructor (config: Config)
      requires config.windowSize > 0 && config.chunkSize > 0
      ensures Valid() && Past() == NewLog && core.config == config && core.drawn == 0
      ensures fresh(core) && fresh(core.streams) && fresh(decoder) && fresh(decoder.parser)
              && fresh(decoder.parser.scratch)
    {
      hide ReceiveAll, MessageDecoder.Ok, Negotiator.Ready;
      core := new Negotiator(config);
      decoder := new MessageDecoder(config.limits);
      fed := [];
      new;
      NothingReceived(Fresh(config.limits));
      FreshHeld(decoder, config.limits);
    }

    /** Decode until a message completes or the input runs out. */
    method Intake(input: Input, ghost heard: seq<RawMessage>)
        returns (r: Result<Option<RawMessage>, SessionError>, rest: Input)
      requires Hearing(fed, heard)
      modifies decoder, decoder.parser, decoder.parser.scratch
      ensures Remains(input, rest)
      ensures r.Ok? && r.value.None? ==> Hearing(fed + Taken(input, rest), heard) && rest.bytes == []
      ensures r.Ok? && r.value.Some? ==>
        Awaits(fed + Taken(input, rest), rest.bytes, heard, r.value.value) && |rest.bytes| < |input.bytes|
      ensures r.Err? ==>
        && r.error.DecodeFailed?
        && (ReceiveAll(Fresh(core.config.limits), fed + input.bytes).Dead?
             || (Exceeds(core.config.limits, r.error.input) && !Ample(core.config.limits)))
    {
      hide ReceiveAll, Decodes, Fails, Ample, Books, Mirrors, Sized, ChunkMachineProofs.Valid, BodiesOf, Control;
      ghost var before, limits := Held(decoder), core.config.limits;
      var decoded;
      decoded, rest := decoder.DecodeInput(input);
      if decoded.Err? {
        if Fails(before.parser, before.bodies, input.bytes, decoded.error) {
          HearsFailure(limits, fed, heard, before, input.bytes, decoded.error);
        }
        return Err(DecodeFailed(decoded.error)), rest;
      }
      ghost var taken, end := Taken(input, rest), Held(decoder);
      if decoded.value.None? {
        HearsNothing(limits, fed, heard, before, taken, end);
        return Result.Ok(None), rest;
      }
      var m := decoded.value.value.Whole();
      if Control(end, m).Ok? {
        HearsMessage(limits, fed, heard, before, taken, end, m, Control(end, m).value);
      } else {
        HearsFault(limits, fed, heard, before, taken, end, m, rest.bytes);
        assert fed + (taken + rest.bytes) == fed + taken + rest.bytes;
      }
      return Result.Ok(Some(m)), rest;
    }

    /** Handle a message: tell the chunk layer, or let the session heed it. */
    method Process(m: RawMessage, ghost bytes: seq<byte>, ghost later: seq<byte>, ghost heard: seq<RawMessage>)
      returns (r: Result<seq<Output>, SessionError>)
      requires core.Ready() && Awaits(bytes, later, heard, m)
      modifies core`state, core`open, core`encoder, core`actions, core`peerWindow, core`journal, core.streams, decoder,
          decoder.parser
      ensures r.Ok? ==>
        && core.Ready() && Grown(old(core.journal), core.journal, Hear(m))
        && Outs(core.journal) == old(Outs(core.journal)) + r.value
        && Hearing(bytes, heard + [m])
      ensures r.Err? ==> core.journal == old(core.journal)
      ensures r.Err? ==>
        || (r.error.DecodeFailed? && ReceiveAll(Fresh(core.config.limits), bytes + later).Dead?)
        || (var s := ReceiveAll(Fresh(core.config.limits), bytes);
            s.Live? && s.messages == heard + [m] && Faulty(core.config, old(core.Now()), m, r.error))
    {
      hide Negotiator.Steady, Negotiator.Recorded, MadeBy, PacketsIn, MessageDecoder.Ok, Negotiator.Logged, ReceiveAll,
          Grown, Outs, Faulty, Sound, Acts,
           Negotiator.Now;
      if m.typeId == TYPE_SET_CHUNK_SIZE || m.typeId == TYPE_ABORT {
        var error := ApplyControl(decoder, m);
        if error.Some? {
          return Err(DecodeFailed(error.value));
        }
        NoteControl(m);
        return Result.Ok([]);
      }
      r := core.Heed(m);
    }

    /** A message of the chunk layer is a step like any other. */
    ghost method NoteControl(m: RawMessage)
      requires core.Ready() && (m.typeId == TYPE_SET_CHUNK_SIZE || m.typeId == TYPE_ABORT)
      modifies core`journal
      ensures core.Ready() && Grown(old(core.journal), core.journal, Hear(m))
              && Outs(core.journal) == old(Outs(core.journal)) + []
    {
      hide Negotiator.Steady, MadeBy, PacketsIn, Negotiator.Logged, Outs, Sound, Acts, Follows;
      core.SteadyLogged();
      PacketsNone<ClientEvent>();
      assert core.actions + [] == core.actions && core.Made() + [] == core.Made();
      HearFollows(core.config, core.Now(), m, [], [], core.Now());
      core.Note(Hear(m), [], []);
    }

    lemma KeptParts()
      requires Valid() && core.state != Failed && core.pending == []
      ensures core.Ready() && core.handed == Outs(core.journal) && Hearing(fed, Heard(core.journal))
              && core.config.windowSize > 0
      ensures Kept(core.config, Past()) && Kept(core.config, Past().(failed := true))
    {
      hide Hearing, Negotiator.Ready, Outs, Sound, Heard, TakenIn, ReceiveAll;
      assert core.handed + [] == core.handed;
    }

    lemma ReadySound()
      requires core.Ready()
      ensures Sound(core.config, core.journal) && At(core.journal, |core.journal|) == core.Now()
    {
      hide Sound, Negotiator.Steady, Acts;
    }

    lemma HearingLive(bytes: seq<byte>, heard: seq<RawMessage>)
      requires Hearing(bytes, heard)
      ensures var s := ReceiveAll(Fresh(core.config.limits), bytes); s.Live? && s.messages == heard
    {
      hide ReceiveAll;
    }

    /** Handle the message, if there is one, and queue the outputs behind the acknowledgement. */
    method Respond(message: Option<RawMessage>, ack: Option<Plan>, ghost taken: seq<byte>, ghost later: seq<byte>,
            ghost heard: seq<RawMessage>)
      returns (error: Option<SessionError>)
      requires core.Ready() && core.pending == [] && core.config.windowSize > 0
      requires if message.Some? then Awaits(fed + taken, later, heard, message.value) else Hearing(fed + taken, heard)
      requires Kept(core.config, Past().(failed := true)) && heard == Heard(core.journal)
               && TakenIn(core.journal) == |fed| + |taken|
      requires Outs(core.journal) == core.handed + AckOutputs(ack)
      modifies this`fed, core`state, core`open, core`encoder, core`actions, core`peerWindow, core`pending, core`journal,
               core.streams, decoder, decoder.parser
      ensures error.Some? ==>
        && core.journal == old(core.journal)
        && fed == old(fed) && Kept(core.config, Past().(failed := true))
        && Broken(core.config, Past().(failed := true), taken + later, error.value)
      ensures error.None? ==> Valid() && core.state != Failed && fed == old(fed) + taken
      ensures error.None? ==>
        if message.Some? then Grown(old(core.journal), core.journal, Hear(message.value))
            else core.journal == old(core.journal)
    {
      hide Hearing, Awaits, Negotiator.Ready, Outs, Sound, Heard, TakenIn, ReceiveAll, Grown, Faulty, Broken;
      ghost var start := core.journal;
      if message.None? {
        Finish(AckOutputs(ack), taken, heard);
        return None;
      }
      var m := message.value;
      ReadySound();
      var handled := Process(m, fed + taken, later, heard);
      if handled.Err? {
        Faults(core.config, Past().(failed := true), taken, later, m, handled.error);
        return Some(handled.error);
      }
      HeardOne(start, core.journal, m);
      assert core.handed + AckOutputs(ack) + handled.value == core.handed + (AckOutputs(ack) + handled.value);
      Finish(AckOutputs(ack) + handled.value, taken, heard + [m]);
      return None;
    }

    /** All that came of the bytes is in the journal: queue it. */
    method Finish(outputs: seq<Output>, ghost taken: seq<byte>, ghost heard: seq<RawMessage>)
      requires core.Ready() && core.pending == [] && core.config.windowSize > 0 && Hearing(fed + taken, heard)
      requires heard == Heard(core.journal) && TakenIn(core.journal) == |fed| + |taken|
               && Outs(core.journal) == core.handed + outputs
      modifies this`fed, core`pending
      ensures Valid() && core.state != Failed && fed == old(fed) + taken
    {
      hide Hearing, Negotiator.Ready, Outs, Sound, Heard, TakenIn, ReceiveAll;
      ReadySound();
      HearingLive(fed + taken, heard);
      fed := fed + taken;
      assert core.handed + [] + outputs == core.handed + outputs;
      core.Enqueue(outputs);
      StillSteady();
    }

    lemma StillSteady()
      requires core.Ready()
      ensures core.state != Failed
    {
      hide Negotiator.Recorded;
    }

    /** One turn: decode, count, and handle at most one message. The count comes first, so that an
        acknowledgement is queued before the outputs of the message that triggered it. */
    method Turn(input: Input) returns (error: Option<SessionError>, rest: Input, more: bool)
      requires Valid() && core.state != Failed && core.pending == []
      modifies this`fed, core`state, core`open, core`encoder, core`actions, core`counter, core`peerWindow,
          core`pending, core`journal,
               core.streams, decoder, decoder.parser, decoder.parser.scratch
      ensures Remains(input, rest) && Inward(old(core.journal), core.journal)
      ensures error.Some? ==>
        && fed == old(fed) && Kept(core.config, Past().(failed := true))
        && Broken(core.config, Past().(failed := true), input.bytes, error.value)
      ensures error.None? ==>
        && Valid() && core.state != Failed
        && fed == old(fed) + Taken(input, rest)
        && (if more then |rest.bytes| < |input.bytes| else rest.bytes == [])
    {
      hide Hearing, Awaits, Negotiator.Ready, Outs, Sound, Heard, TakenIn, ReceiveAll, Grown, Faulty, AckDenied, Ample,
          Valid, Inward, Negotiator.Now;
      ghost var heard, start := Heard(core.journal), core.journal;
      KeptParts();
      var r;
      r, rest := Intake(input, heard);
      more := false;
      InwardNone(start);
      if r.Err? {
        return Some(r.error), rest, more;
      }
      ghost var taken := Taken(input, rest);
      assert taken + rest.bytes == input.bytes;
      ReadySound();
      var account := core.Count(|input.bytes| - |rest.bytes|);
      if account.Err? {
        assert AckDenied(core.config, Latest(Past().(failed := true)), |taken|, account.error);
        return Some(account.error), rest, more;
      }
      ghost var counted := core.journal;
      InwardOne(start, start, counted, Take(|taken|));
      assert heard + [] == heard;
      ReadySound();
      more := r.value.Some?;
      error := Respond(r.value, account.value, taken, rest.bytes, heard);
      if error.None? && r.value.Some? {
        LastCause(start, counted, Take(|taken|));
        InwardOne(start, counted, core.journal, Hear(r.value.value));
      }
    }

    /** Hand out one output, taking in as much input as that needs. `None` means that all input was
        taken in and nothing waits. An input error ends the session. */
    method Receive(input: Input) returns (r: Result<Option<Output>, SessionError>, rest: Input)
      requires Valid()
      modifies this`fed, core`state, core`open, core`encoder, core`actions, core`counter, core`peerWindow,
          core`pending, core`journal,
               core`handed, core.streams, decoder, decoder.parser, decoder.parser.scratch
      ensures Valid()
      ensures Serves(core.config, old(Past()), DoReceive(input),
              if r.Ok? then Handed(r.value, rest) else Denied(r.error), Past())
    {
      hide Hearing, Negotiator.Ready, Sound, Outs, Broken, ReceiveAll, Heard, TakenIn;
      rest := input;
      NothingTaken(input);
      InwardNone(core.journal);
      if core.state == Failed {
        return Err(SessionFailed), rest;
      }
      if core.pending != [] {
        StillWaiting(core.handed, core.pending);
        var output := core.Pop();
        return Result.Ok(output), rest;
      }
      KeptParts();
      r, rest := ReceiveInner(input);
      if r.Err? {
        core.Fail();
      }
    }

    /** Take in input until there is an output. */
    method ReceiveInner(input: Input) returns (r: Result<Option<Output>, SessionError>, rest: Input)
      requires Valid() && core.state != Failed && core.pending == []
      modifies this`fed, core`state, core`open, core`encoder, core`actions, core`counter, core`peerWindow,
          core`pending, core`journal,
               core`handed, core.streams, decoder, decoder.parser, decoder.parser.scratch
      ensures r.Ok? ==> Valid() && Receives(old(Past()), input, r.value, rest, Past())
      ensures r.Err? ==>
        Kept(core.config, Past().(failed := true))
            && Breaks(core.config, old(Past()), input, r.error, Past().(failed := true))
    {
      hide Hearing, Negotiator.Ready, Sound, Outs, Broken, ReceiveAll, Heard, TakenIn, Inward, Remains, Taken, Kept;
      rest := input;
      NothingTaken(input);
      InwardNone(core.journal);
      KeptParts();
      while true
        invariant Valid() && core.state != Failed && core.pending == [] && core.handed == old(core.handed)
        invariant Remains(input, rest) && Inward(old(core.journal), core.journal)
        invariant fed == old(fed) + Taken(input, rest)
        decreases |rest.bytes|
      {
        ghost var before := core.journal;
        var error, left, more := Turn(rest);
        InwardOn(old(core.journal), before, core.journal);
        if error.Some? {
          LeftOver(input, rest, old(fed));
          return Err(error.value), rest;
        }
        FurtherOn(input, rest, left);
        assert old(fed) + Taken(input, rest) + Taken(rest, left) == old(fed) + (Taken(input, rest) + Taken(rest, left));
        rest := left;
        if core.pending != [] {
          ghost var past := Past();
          var output := core.Pop();
          StillKept(core.config, past, Past());
          return Result.Ok(output), rest;
        }
        if !more {
          KeptParts();
          return Result.Ok(None), rest;
        }
      }
    }
  }

  lemma StillWaiting(handed: seq<Output>, pending: seq<Output>)
    requires pending != []
    ensures handed != handed + pending
  {
    assert |handed + pending| > |handed|;
  }

  lemma LeftOver(input: Input, rest: Input, fed: seq<byte>)
    requires Remains(input, rest)
    ensures fed <= fed + Taken(input, rest) <= fed + input.bytes
    ensures (fed + input.bytes)[|fed + Taken(input, rest)|..] == rest.bytes
  {
  }

  lemma StillKept(config: Config, a: Log, b: Log)
    requires Kept(config, a) && b == a.(handed := b.handed) && b.handed <= Outs(b.journal)
    ensures Kept(config, b)
  {
  }

  lemma AppKept(config: Config, a: Log, b: Log, cause: Cause)
    requires Kept(config, a) && Grown(a.journal, b.journal, cause) && !cause.Take? && !cause.Hear?
    requires Sound(config, b.journal) && b.handed <= Outs(b.journal) && b.fed == a.fed && b.failed == a.failed
    ensures Kept(config, b) && Heard(b.journal) == Heard(a.journal)
  {
    hide Sound, Outs, Acts, ReceiveAll, Heard, TakenIn;
    var r := b.journal[|a.journal|];
    assert b.journal == a.journal + [r];
    JournalAppend(a.journal, r);
    assert Heard(a.journal) + [] == Heard(a.journal);
  }

  /** Numbers that were not all drawn yet are free. */
  lemma FreeNumber(core: Negotiator)
    requires core.Valid() && core.state != Failed && core.drawn < NUMBERS - 1
    ensures core.nextTransaction !in core.open && |core.streams.slots| <= 0xffff_ffff
  {
    hide Sound, Outs, Acts;
  }

  lemma ValidParts(core: Negotiator)
    requires core.Valid()
    ensures Sound(core.config, core.journal) && core.handed <= Outs(core.journal)
    ensures core.state != Failed ==>
              && Outs(core.journal) == core.handed + core.pending
              && (core.handed != Outs(core.journal) <==> core.pending != [])
              && At(core.journal, |core.journal|) == core.Now()
  {
    hide Sound, Outs, Acts, Negotiator.Steady;
    assert |core.handed + core.pending| == |core.handed| + |core.pending|;
    assert core.handed + [] == core.handed;
  }

  // ----- whole runs --------------------------------------------------------------------------------

  /** A request that takes no input. */
  method Ask(session: ClientSession, request: Request) returns (outcome: Outcome)
    requires session.Valid() && session.core.drawn < NUMBERS - 1 && !request.DoReceive?
    requires request.DoSend? ==> request.typeId in {8, 9, 15, 18}
    modifies session.core, session.core.streams
    ensures session.Valid() && session.core.drawn <= old(session.core.drawn) + 1
    ensures Serves(session.core.config, old(session.Past()), request, outcome, session.Past())
  {
    hide ClientSession.Hearing, Sound, Outs, ReceiveAll, Heard, TakenIn, Negotiator.Valid, Kept, Grown, Negotiator.Now,
         ConnectDenied, CreateDenied, DeleteDenied, SendDenied, PingDenied;
    var core := session.core;
    ghost var past := session.Past();
    ValidParts(core);
    if core.state == Failed {
      return Denied(SessionFailed);
    }
    FreeNumber(core);
    ghost var cause := AppPing;
    match request {
      case DoConnect(app) =>
        cause := AppConnect(app, core.nextTransaction);
        var error := core.Connect(app);
        outcome := if error.None? then Granted else Denied(error.value);
      case DoCreate(purpose) =>
        ghost var t := core.nextTransaction;
        var r := core.Create(purpose);
        if r.Ok? {
          cause := AppCreate(r.value, purpose, t);
        }
        outcome := if r.Ok? then Given(r.value) else Denied(r.error);
      case DoDelete(stream) =>
        cause := AppDelete(stream);
        var error := core.Delete(stream);
        outcome := if error.None? then Granted else Denied(error.value);
      case DoSend(stream, typeId, timestamp, data, droppable) =>
        cause := AppSend(stream, typeId, timestamp, data, droppable);
        var r := core.SendMessage(stream, typeId, timestamp, data, droppable);
        outcome := if r.Ok? then Sent(r.value) else Denied(r.error);
      case DoPing =>
        var r := core.SendPing();
        outcome := if r.Ok? then Sent(r.value) else Denied(r.error);
    }
    ValidParts(core);
    assert past.handed + [] == past.handed;
    if !outcome.Denied? {
      AppKept(core.config, past, session.Past(), cause);
      assert Steps(past, session.Past(), cause, if outcome.Sent? then [PacketOut(outcome.packet)] else []);
    } else {
      assert session.Past() == past;
    }
  }

  /** Carry out one request. */
  method Perform(session: ClientSession, request: Request) returns (outcome: Outcome)
    requires session.Valid() && session.core.drawn < NUMBERS - 1
    requires request.DoSend? ==> request.typeId in {8, 9, 15, 18}
    modifies session, session.core, session.core.streams, session.decoder, session.decoder.parser,
        session.decoder.parser.scratch
    ensures session.Valid() && session.core.drawn <= old(session.core.drawn) + 1
    ensures Serves(session.core.config, old(session.Past()), request, outcome, session.Past())
  {
    hide ClientSession.Hearing, Sound, Outs, ReceiveAll, Heard, TakenIn, Kept, Serves, Negotiator.Ready;
    match request
    case DoReceive(input) =>
      var r, rest := session.Receive(input);
      outcome := if r.Ok? then Handed(r.value, rest) else Denied(r.error);
    case _ =>
      outcome := Ask(session, request);
  }

  /** The outputs that left with these outcomes, in order. */
  function Left(outcomes: seq<Outcome>): seq<Output> {
    if outcomes == [] then [] else Left(outcomes[..|outcomes| - 1]) + OutputsOf(outcomes[|outcomes| - 1])
  }

  function OutputsOf(o: Outcome): seq<Output> {
    match o
    case Sent(packet) => [PacketOut(packet)]
    case Handed(output, _) => if output.Some? then [output.value] else []
    case _ => []
  }

  lemma ServesLeft(config: Config, a: Log, q: Request, o: Outcome, b: Log)
    requires Serves(config, a, q, o, b)
    ensures b.handed == a.handed + OutputsOf(o)
  {
    hide Grown, Outs, Broken, Inward, ConnectDenied, CreateDenied, DeleteDenied, SendDenied, PingDenied, Remains, Taken;
    assert a.handed + [] == a.handed;
  }

  /** Whatever a server with limits `limits` gets of these outputs, in order and less some droppable
      packets, it decodes exactly the messages that the steps had encoded. */
  ghost predicate Decodable(limits: Limits, journal: Journal, outputs: seq<Output>) {
    var sent := PacketsIn(outputs);
    && |sent| <= |Acts(journal)| && (forall i :: 0 <= i < |sent| ==> sent[i].chunkSize > 0)
    && (WithinLimits(limits, Acts(journal)[..|sent|]) ==>
          forall keep :: Faithful(Acts(journal)[..|sent|], keep) ==>
              DecodesKept(limits, Acts(journal)[..|sent|], sent, keep))
  }

  ghost predicate DecodesKept(limits: Limits, acts: seq<Action>, sent: seq<Plan>, keep: seq<bool>)
    requires |keep| == |sent| == |acts| && forall i :: 0 <= i < |sent| ==> sent[i].chunkSize > 0
  {
    var s := ReceiveAll(Fresh(limits), WiresOf(sent, keep));
    s.Live? && s.messages == KeptMessages(acts, keep)
  }

  lemma KeptDecodable(config: Config, log: Log, limits: Limits)
    requires Kept(config, log) && Admits(limits)
    ensures Decodable(limits, log.journal, log.handed)
  {
    hide ReceiveAll, WiresOf, KeptMessages, Sound, Outs, Acts, PacketsIn, Heard, TakenIn;
    HandedPackets(config, log.journal, log.handed);
    var sent := PacketsIn(log.handed);
    var acts := Acts(log.journal)[..|sent|];
    forall keep | WithinLimits(limits, acts) && Faithful(acts, keep)
      ensures |keep| == |acts| && DecodesKept(limits, acts, sent, keep)
    {
      RunDecodes(config, log.journal, log.handed, limits, keep);
    }
  }

  /** Every state is lawful, and every play or publish command starts a stream that has not been
      removed, on the wire ID the stream then has. */
  ghost predicate WellRun(config: Config, journal: Journal) {
    && (forall n :: 0 <= n <= |journal| ==> Lawful(config, At(journal, n)))
    && (forall j, k :: 0 <= j < |journal| && 0 <= k < |journal[j].acts| && IsCommand(journal[j].acts[k]) ==>
          exists h :: StartsLive(config, journal, j, h, journal[j].acts[k].m.streamId))
  }

  ghost predicate StartsLive(config: Config, journal: Journal, j: nat, h: Handle, wire: u32)
    requires j < |journal|
  {
    && StartedAt(config, journal, j, h) && h in journal[j].after.live && journal[j].after.live[h].wire == Some(wire)
    && (forall i :: 0 <= i < j ==> !RemovedAt(journal, i, h))
  }

  lemma KeptWellRun(config: Config, log: Log)
    requires Kept(config, log)
    ensures WellRun(config, log.journal)
  {
    hide Lawful, Follows, StartedAt, RemovedAt, ReceiveAll, Heard, TakenIn, Acts, Outs;
    var journal := log.journal;
    forall n | 0 <= n <= |journal|
      ensures Lawful(config, At(journal, n))
    {
      RunLawful(config, journal, n);
    }
    forall j, k | 0 <= j < |journal| && 0 <= k < |journal[j].acts| && IsCommand(journal[j].acts[k])
      ensures exists h :: StartsLive(config, journal, j, h, journal[j].acts[k].m.streamId)
    {
      var h := CommandStarts(config, journal, j, k);
      assert StartsLive(config, journal, j, h, journal[j].acts[k].m.streamId);
    }
  }

  /** A session is made for any settings but a zero window or chunk size. */
  method Open(config: Config) returns (r: Result<ClientSession, SessionError>)
    ensures r.Err? <==> config.windowSize == 0 || config.chunkSize == 0
    ensures r.Err? ==> r.error == ZeroSetting
    ensures r.Ok? ==>
      && fresh(r.value) && fresh(r.value.core) && fresh(r.value.core.streams)
      && fresh(r.value.decoder) && fresh(r.value.decoder.parser) && fresh(r.value.decoder.parser.scratch)
      && r.value.Valid() && r.value.Past() == NewLog && r.value.core.config == config && r.value.core.drawn == 0
  {
    if config.windowSize == 0 || config.chunkSize == 0 {
      return Err(ZeroSetting);
    }
    var session := new ClientSession(config);
    return Result.Ok(session);
  }

  /** The log after each request: every request is served, and everything is kept throughout. */
  ghost predicate Served(config: Config, requests: seq<Request>, outcomes: seq<Outcome>, logs: seq<Log>) {
    && |outcomes| <= |requests| && |logs| == |outcomes| + 1 && logs[0] == NewLog
    && (forall i :: 0 <= i < |outcomes| ==> Serves(config, logs[i], requests[i], outcomes[i], logs[i + 1]))
    && (forall i :: 0 <= i < |logs| ==> Kept(config, logs[i]))
  }

  lemma ServedOn(config: Config, requests: seq<Request>, outcomes: seq<Outcome>, logs: seq<Log>, o: Outcome, b: Log)
    requires Served(config, requests, outcomes, logs) && |outcomes| < |requests| && Kept(config, b)
    requires Serves(config, logs[|outcomes|], requests[|outcomes|], o, b)
    ensures Served(config, requests, outcomes + [o], logs + [b])
  {
    hide Serves, Kept;
  }

  /** Over every run of a client session, whatever the application requests and whatever bytes arrive
      in whatever pieces. Every request has the effect that the protocol gives it, or is refused for
      a reason. The messages handled are those in the bytes. What leaves is the outputs of the steps
      in their order, and the server decodes it to exactly the messages encoded. Every state is
      lawful, and no play or publish command is issued for a stream after it was removed. */
  method Run(config: Config, requests: seq<Request>, ghost limits: Limits)
      returns (open: bool, outcomes: seq<Outcome>, ghost logs: seq<Log>)
    requires Admits(limits) && |requests| < NUMBERS - 1
    requires forall i :: 0 <= i < |requests| && requests[i].DoSend? ==> requests[i].typeId in {8, 9, 15, 18}
    ensures open <==> config.windowSize > 0 && config.chunkSize > 0
    ensures open ==>
      && |outcomes| == |requests| && Served(config, requests, outcomes, logs)
      && logs[|requests|].handed == Left(outcomes)
      && WellRun(config, logs[|requests|].journal) && Decodable(limits, logs[|requests|].journal, Left(outcomes))
  {
    hide Decodable, Kept, Serves, ClientSession.Valid, WellRun, Served;
    outcomes, logs := [], [NewLog];
    var made := Open(config);
    open := made.Ok?;
    if !open {
      return;
    }
    var session := made.value;
    ServedNone(session, requests);
    for n := 0 to |requests|
      invariant session.Valid() && session.core.drawn <= n && session.core.config == config
      invariant |outcomes| == n && |logs| == n + 1 && logs[n] == session.Past() && logs[n].handed == Left(outcomes)
      invariant Served(config, requests, outcomes, logs)
    {
      var outcome := Perform(session, requests[n]);
      SessionKept(session);
      ServesLeft(config, logs[n], requests[n], outcome, session.Past());
      ServedOn(config, requests, outcomes, logs, outcome, session.Past());
      assert (outcomes + [outcome])[..n] == outcomes;
      outcomes, logs := outcomes + [outcome], logs + [session.Past()];
    }
    SessionKept(session);
    KeptWellRun(config, session.Past());
    KeptDecodable(config, session.Past(), limits);
  }

  lemma SessionKept(session: ClientSession)
    requires session.Valid()
    ensures Kept(session.core.config, session.Past())
  {
    hide Kept, Negotiator.Valid, ClientSession.Hearing;
  }

  lemma ServedNone(session: ClientSession, requests: seq<Request>)
    requires session.Valid() && session.Past() == NewLog
    ensures Served(session.core.config, requests, [], [NewLog])
  {
    hide Kept, Negotiator.Valid, ClientSession.Hearing;
  }

  function AckOutputs(ack: Option<Plan>): seq<Output> {
    if ack.Some? then [PacketOut(ack.value)] else []
  }

  lemma InwardOn(a: Journal, b: Journal, c: Journal)
    requires Inward(a, b) && Inward(b, c)
    ensures Inward(a, c)
  {
  }

  lemma FreshHeld(d: MessageDecoder, limits: Limits)
    requires d.Ok() && d.parser.View() == Initial(limits) && d.partials == map[]
    ensures Held(d) == Fresh(limits)
  {
  }
}
