/** Connection and stream negotiation of a client session: the commands it sends, the answers it
    handles, and the queue through which its outputs leave. Every step is proved to be one of the
    protocol. */
module Negotiation {
  import opened Base
  import opened ChunkMachine
  import opened MessageMachine
  import opened ChunkEncoderModule
  import opened RoundTrip
  import opened SentLog
  import opened StreamsModule
  import opened ClientState
  import opened Acks
  import opened Outputs
  import opened ClientProtocol

  const NUMBERS: nat := 0x1_0000_0000

  lemma ConnectFollows(config: Config, a: Model, app: seq<byte>, t: nat, act: Action, plan: Plan)
    requires a.state == Disconnected && |a.open| < config.maxRequests && t !in a.open
             && Carries(config, act, ConnectTo(app, t), 0)
    ensures Follows(config, a, Record(AppConnect(app, t), [act], [PacketOut(plan)],
                                      a.(state := Connecting, open := a.open[t := ConnectionRequested(app)])))
  {
    hide Carries;
  }

  lemma CreateFollows(config: Config, a: Model, h: Handle, purpose: Purpose, t: nat, act: Action, plan: Plan)
    requires a.state == Connected && |a.live| < config.maxStreams && |a.open| < config.maxRequests && t !in a.open
             && h !in a.issued
    requires Carries(config, act, NewStream(t), 0)
    ensures Follows(config, a, Record(AppCreate(h, purpose, t), [act], [PacketOut(plan)],
                                      a.(open := a.open[t := CreateStream(h, purpose)],
                                          live := a.live[h := Entry(None, Creating)],
                                         issued := a.issued + {h})))
  {
    hide Carries;
  }

  lemma DeleteFollows(config: Config, a: Model, h: Handle, acts: seq<Action>, outs: seq<Output>)
    requires h in a.live
    requires match a.live[h].wire
             case None => acts == [] && outs == []
             case Some(id) => Issues(config, acts, outs, DropStream(id))
    ensures Follows(config, a, Record(AppDelete(h), acts, outs, a.(live := a.live - {h})))
  {
    hide Issues;
  }

  lemma SendFollows(config: Config, a: Model, h: Handle, typeId: byte, timestamp: u32, data: seq<byte>,
          droppable: bool, plan: Plan)
    requires h in a.live && a.live[h].state == Publishing && a.live[h].wire.Some? && typeId in {8, 9, 15, 18}
    ensures Follows(config, a, Record(AppSend(h, typeId, timestamp, data, droppable),
                                      [Send(RawMessage(timestamp, typeId, a.live[h].wire.value, data),
                                          Options(false, droppable), true)],
                                      [PacketOut(plan)], a))
  {
  }

  lemma PingFollows(config: Config, a: Model, act: Action, plan: Plan)
    requires Carries(config, act, Ping, 0)
    ensures Follows(config, a, Record(AppPing, [act], [PacketOut(plan)], a))
  {
    hide Carries;
  }

  lemma TakeFollows(config: Config, a: Model, count: nat, acts: seq<Action>, outs: seq<Output>)
    requires WindowOf(config, a) > 0
    requires match Tally(a.counter, count, WindowOf(config, a)).1
             case None => acts == [] && outs == []
             case Some(sequence) => Issues(config, acts, outs, Acknowledge(sequence))
    ensures Follows(config, a,
            Record(Take(count), acts, outs, a.(counter := Tally(a.counter, count, WindowOf(config, a)).0)))
  {
    hide Issues, Tally;
  }

  lemma HearFollows(config: Config, a: Model, m: RawMessage, acts: seq<Action>, outs: seq<Output>, b: Model)
    requires Reacts(config, a, m, acts, outs, b)
    ensures Follows(config, a, Record(Hear(m), acts, outs, b))
  {
    hide Reacts;
  }

  lemma Unread(config: Config, a: Model, m: RawMessage)
    requires config.parse(m) == None
    ensures Faulty(config, a, m, Unreadable)
  {
  }

  lemma OwnsOne(live: Entries, wire: u32, h: Handle)
    requires Owns(live, wire, Some(h))
    ensures !Owns(live, wire, None)
  {
    assert Some(h) == Some(h);
    assert h in live && live[h].wire == Some(wire);
  }

  lemma OwnerLives(live: Entries, wire: u32, h: Handle)
    requires Owns(live, wire, Some(h))
    ensures h in live && live[h].wire == Some(wire)
  {
    assert Some(h) == Some(h);
  }

  lemma Unbound(config: Config, a: Model, t: nat)
    requires Lawful(config, a) && t in a.open && a.open[t].CreateStream? && a.open[t].stream in a.live
    ensures a.live[a.open[t].stream].wire.None?
  {
    assert Names(a.open, t, a.open[t].stream);
  }

  lemma Plain(m: RawMessage, inbound: Inbound)
    ensures PacketsIn(PlainOutputs(m, inbound)) == []
  {
    var outputs := PlainOutputs(m, inbound);
    if outputs != [] {
      PacketsOne(outputs[0]);
    }
  }

  /** One step more, with this cause. */
  ghost predicate Grown(journal: Journal, journal': Journal, cause: Cause) {
    |journal'| == |journal| + 1 && journal'[..|journal|] == journal && journal'[|journal|].cause == cause
  }

  class Negotiator {
    const config: Config
    const streams: Streams<StreamState>
    var state: ConnectionState
    var encoder: Encoder
    var pending: seq<Output>
    var nextTransaction: u32
    var open: Transactions
    var peerWindow: Option<u32>
    var counter: Counter

    /** How many transaction numbers have been drawn. */
    ghost var drawn: nat
    /** Every packet the encoder made, the steps so far, and the outputs handed out. */
    ghost var actions: seq<Action>
    ghost var journal: Journal
    ghost var handed: seq<Output>

    ghost function Made(): seq<Plan>
      reads this`actions
    {
      MadeBy(NewEncoder, actions)
    }

    ghost function Now(): Model
      reads this`state, this`open, this`peerWindow, this`counter, streams
    {
      Model(state, open, streams.Live(), streams.issued, peerWindow, counter)
    }

    /** The encoder is where its packets so far have led, and none of them imitates the chunk layer. */
    ghost predicate Logged()
      reads this`actions, this`encoder
    {
      AllMade(NewEncoder, actions) && encoder == EncoderAtEnd(NewEncoder, actions) && Ordinary(actions)
    }

    /** Numbers are drawn in turn, so none is in use twice before they have all been drawn. */
    ghost predicate Numbered()
      reads this`nextTransaction, this`drawn, this`open
    {
      nextTransaction == (drawn + 1) % NUMBERS && (drawn < NUMBERS - 1 ==> forall t :: t in open ==> t <= drawn)
    }

    ghost predicate Steady()
      reads this`actions, this`encoder, this`nextTransaction, this`drawn, this`open, this`state, streams
    {
      && Logged() && Numbered() && state != Failed
      && streams.Valid() && streams.Indexed() && |streams.slots| <= drawn
    }

    /** The journal is a run of the protocol that leads to the present state. */
    ghost predicate Recorded()
      reads this`actions, this`journal, this`state, this`open, this`peerWindow, this`counter, streams
    {
      Sound(config, journal) && At(journal, |journal|) == Now() && Acts(journal) == actions
    }

    ghost predicate Ready()
      reads this`actions, this`encoder, this`nextTransaction, this`drawn, this`journal, this`state, this`open,
          this`peerWindow,
            this`counter, streams
    {
      Steady() && Recorded()
    }

    /** Outputs are handed out in the order of the steps that had them. */
    ghost predicate Valid()
      reads this, streams
    {
      if state == Failed then Sound(config, journal) && pending == [] && handed <= Outs(journal)
      else Ready() && Outs(journal) == handed + pending
    }

    constructor (config: Config)
      ensures Valid() && state == Disconnected && this.config == config
      ensures drawn == 0 && pending == [] && journal == [] && handed == [] && fresh(streams)
    {
      this.config := config;
      streams := new Streams<StreamState>(0);
      state, encoder, pending := Disconnected, NewEncoder, [];
      nextTransaction, open, peerWindow, counter := 1, map[], None, NewCounter;
      drawn, actions, journal, handed := 0, [], [], [];
    }

    lemma ReadyLawful()
      requires Ready()
      ensures Lawful(config, Now())
    {
      hide Lawful, Acts, MadeBy, AllMade, PacketsIn, Outs;
      RunLawful(config, journal, |journal|);
    }

    /** Enter a step into the journal. */
    ghost method Note(cause: Cause, acts: seq<Action>, outs: seq<Output>)
      requires Logged() && Sound(config, journal) && actions == Acts(journal) + acts
      requires Made() == MadeBy(NewEncoder, Acts(journal)) + PacketsIn(outs)
      requires Follows(config, At(journal, |journal|), Record(cause, acts, outs, Now()))
      modifies this`journal
      ensures Recorded() && journal == old(journal) + [Record(cause, acts, outs, Now())]
      ensures Outs(journal) == old(Outs(journal)) + outs
    {
      hide Follows, Acts, Outs, MadeBy, AllMade, PacketsIn, Sound, LiveIn;
      var r := Record(cause, acts, outs, Now());
      SoundOn(config, journal, r);
      JournalAppend(journal, r);
      journal := journal + [r];
    }

    // ----- sending ------------------------------------------------------------------------------------

    method Transmit(m: RawMessage, options: Options) returns (r: Result<Plan, SessionError>)
      requires Logged() && m.typeId != TYPE_SET_CHUNK_SIZE && m.typeId != TYPE_ABORT
      modifies this`encoder, this`actions
      ensures Logged()
      ensures r.Ok? ==> actions == old(actions) + [Send(m, options, true)] && Made() == old(Made()) + [r.value]
      ensures r.Err? ==> actions == old(actions) && r.error.EncodeFailed? && |m.data| > MAX24
    {
      hide NextHeader, NextFormat, HeaderBytes;
      match Encode(encoder, m, options)
      case Err(e) => return Err(EncodeFailed(e));
      case Ok((next, plan)) =>
        MadeAppend(NewEncoder, actions, Send(m, options, true));
        encoder := next;
        actions := actions + [Send(m, options, true)];
        return Ok(plan);
    }

    method AnnounceChunkSize() returns (r: Result<Plan, SessionError>)
      requires Logged()
      modifies this`encoder, this`actions
      ensures Logged()
      ensures r.Ok? ==> actions == old(actions) + [Resize(config.chunkSize, 0)] && Made() == old(Made()) + [r.value]
      ensures r.Err? ==> actions == old(actions) && r.error.EncodeFailed? && !(0 < config.chunkSize <= 0x7fff_ffff)
    {
      hide NextHeader, NextFormat, HeaderBytes;
      match EncodeChunkSize(encoder, config.chunkSize, 0)
      case Err(e) => return Err(EncodeFailed(e));
      case Ok((next, plan)) =>
        MadeAppend(NewEncoder, actions, Resize(config.chunkSize, 0));
        encoder := next;
        actions := actions + [Resize(config.chunkSize, 0)];
        return Ok(plan);
    }

    /** Send a command of the session's own, stamped with the time of day. */
    method Issue(c: Command, streamId: u32) returns (r: Result<Plan, SessionError>, ghost a: Action)
      requires Logged()
      modifies this`encoder, this`actions
      ensures Logged()
      ensures r.Ok? ==>
              actions == old(actions) + [a] && Carries(config, a, c, streamId)
              && Made() == old(Made()) + [r.value]
      ensures r.Err? ==> actions == old(actions) && Excuse(config, c, r.error)
    {
      hide Logged;
      var now: u32 := *;
      a := Resize(1, 0);
      var body := config.body(c);
      if body.None? {
        return Err(Unwritable), a;
      }
      var m := RawMessage(now, TypeOf(c), streamId, body.value);
      r := Transmit(m, Options(false, false));
      a := Send(m, Options(false, false), true);
    }

    /** The next transaction number. */
    method Draw() returns (t: u32)
      requires Numbered()
      modifies this`nextTransaction, this`drawn
      ensures Numbered() && t == old(nextTransaction) && drawn == old(drawn) + 1 && (drawn < NUMBERS - 1 ==> t <= drawn)
    {
      t := nextTransaction;
      nextTransaction := (nextTransaction + 1) % NUMBERS;
      drawn := drawn + 1;
    }

    /** Enter a transaction under a number just drawn. */
    method Enter(t: u32, transaction: Transaction)
      requires Numbered() && (drawn < NUMBERS - 1 ==> t <= drawn)
      modifies this`open
      ensures Numbered() && open == old(open)[t := transaction]
    {
      open := open[t := transaction];
    }

    /** Take a transaction off the list. */
    method Close(t: nat)
      requires Numbered()
      modifies this`open
      ensures Numbered() && open == old(open) - {t}
    {
      open := open - {t};
    }

    /** Enter a step and queue its outputs. */
    method Conclude(ghost cause: Cause, ghost acts: seq<Action>, outs: seq<Output>)
      requires Steady() && Sound(config, journal) && actions == Acts(journal) + acts
      requires Made() == MadeBy(NewEncoder, Acts(journal)) + PacketsIn(outs)
      requires Follows(config, At(journal, |journal|), Record(cause, acts, outs, Now()))
      requires Outs(journal) == handed + pending
      modifies this`journal, this`pending
      ensures Valid() && Grown(old(journal), journal, cause) && pending == old(pending) + outs
    {
      hide Follows, Acts, Outs, MadeBy, AllMade, PacketsIn, Sound, Steady, Recorded, Now;
      SteadyLogged();
      Note(cause, acts, outs);
      Enqueue(outs);
    }

    lemma SteadyLogged()
      requires Steady()
      ensures Logged() && state != Failed
    {
    }

    /** Put an output at the end of the queue. */
    method Enqueue(outputs: seq<Output>)
      requires Ready() && Outs(journal) == handed + pending + outputs
      modifies this`pending
      ensures Valid() && pending == old(pending) + outputs
    {
      hide Steady, Recorded, Outs;
      SteadyLogged();
      assert handed + (pending + outputs) == handed + pending + outputs;
      pending := pending + outputs;
    }

    // ----- requests of the application --------------------------------------------------------------

    /** Ask for a connection to an application. */
    method Connect(app: seq<byte>) returns (error: Option<SessionError>)
      requires Valid() && nextTransaction !in open
      modifies this`state, this`open, this`encoder, this`actions, this`nextTransaction, this`drawn, this`pending,
          this`journal
      ensures Valid() && drawn <= old(drawn) + 1 && (state == Failed <==> old(state) == Failed)
      ensures error.None? ==>
              old(state) != Failed && Grown(old(journal), journal, AppConnect(app, old(nextTransaction)))
      ensures error.Some? ==> journal == old(journal) && pending == old(pending)
      ensures error.Some? ==>
        if old(state) == Failed then error.value == SessionFailed
            else ConnectDenied(config, old(Now()), app, error.value)
    {
      hide Ready, Sound, Excuse, Grown, LiveIn;
      if state == Failed {
        return Some(SessionFailed);
      }
      if state != Disconnected {
        return Some(AlreadyConnected);
      }
      if |open| >= config.maxRequests {
        return Some(TooManyRequests);
      }
      error := AskToConnect(app);
    }

    method AskToConnect(app: seq<byte>) returns (error: Option<SessionError>)
      requires Ready() && Outs(journal) == handed + pending
      requires nextTransaction !in open && state == Disconnected && |open| < config.maxRequests
      modifies this`state, this`open, this`encoder, this`actions, this`nextTransaction, this`drawn, this`pending,
          this`journal
      ensures Valid() && state != Failed && drawn == old(drawn) + 1
      ensures error.None? ==> Grown(old(journal), journal, AppConnect(app, old(nextTransaction)))
      ensures error.Some? ==>
        journal == old(journal) && pending == old(pending)
            && Excuse(config, ConnectTo(app, old(nextTransaction)), error.value)
    {
      hide MadeBy, Logged, Numbered, PacketsIn, Outs, Acts, Sound, Carries, LiveIn, Streams.Live, Streams.Valid,
          Streams.Indexed, Excuse, Follows, Grown;
      ghost var before := Now();
      var t := Draw();
      var r, a := Issue(ConnectTo(app, t), 0);
      if r.Err? {
        return Some(r.error);
      }
      Enter(t, ConnectionRequested(app));
      state := Connecting;
      PacketsOne<ClientEvent>(PacketOut(r.value));
      ConnectFollows(config, before, app, t, a, r.value);
      Conclude(AppConnect(app, t), [a], [PacketOut(r.value)]);
      return None;
    }

    /** Ask for a stream to play or publish on. The handle can be used at once. */
    method Create(purpose: Purpose) returns (r: Result<Handle, SessionError>)
      requires Valid() && nextTransaction !in open && |streams.slots| <= 0xffff_ffff
      modifies this`open, this`encoder, this`actions, this`nextTransaction, this`drawn, this`pending, this`journal,
          streams
      ensures Valid() && drawn <= old(drawn) + 1 && (state == Failed <==> old(state) == Failed)
      ensures r.Ok? ==>
              old(state) != Failed
              && Grown(old(journal), journal, AppCreate(r.value, purpose, old(nextTransaction)))
      ensures r.Err? ==> journal == old(journal) && pending == old(pending)
      ensures r.Err? ==> if old(state) == Failed then r.error == SessionFailed
              else CreateDenied(config, old(Now()), r.error)
    {
      hide Ready, Sound, Excuse, Grown, LiveIn, Streams.Live;
      if state == Failed {
        return Err(SessionFailed);
      }
      if state != Connected {
        return Err(NotConnected);
      }
      var live := streams.Count();
      if live >= config.maxStreams {
        return Err(TooManyStreams);
      }
      if |open| >= config.maxRequests {
        return Err(TooManyRequests);
      }
      r := AskForStream(purpose);
    }

    method AskForStream(purpose: Purpose) returns (r: Result<Handle, SessionError>)
      requires Ready() && Outs(journal) == handed + pending && |streams.slots| <= 0xffff_ffff
      requires nextTransaction !in open && state == Connected && |streams.Live()| < config.maxStreams
               && |open| < config.maxRequests
      modifies this`open, this`encoder, this`actions, this`nextTransaction, this`drawn, this`pending, this`journal,
          streams
      ensures Valid() && drawn == old(drawn) + 1
      ensures r.Ok? ==> Grown(old(journal), journal, AppCreate(r.value, purpose, old(nextTransaction)))
      ensures r.Err? ==>
              journal == old(journal) && pending == old(pending)
              && Excuse(config, NewStream(old(nextTransaction)), r.error)
    {
      hide MadeBy, Logged, Numbered, PacketsIn, Outs, Acts, Sound, Carries, LiveIn, Streams.Live, Streams.Valid,
          Streams.Indexed, Excuse, Follows, Grown;
      ghost var before := Now();
      var t := Draw();
      var issue, a := Issue(NewStream(t), 0);
      if issue.Err? {
        return Err(issue.error);
      }
      var stream := streams.Insert(Creating, None);
      Enter(t, CreateStream(stream, purpose));
      PacketsOne<ClientEvent>(PacketOut(issue.value));
      CreateFollows(config, before, stream, purpose, t, a, issue.value);
      Conclude(AppCreate(stream, purpose, t), [a], [PacketOut(issue.value)]);
      return Ok(stream);
    }

    /** Delete a stream, or cancel its creation. The handle is invalid at once. */
    method Delete(stream: Handle) returns (error: Option<SessionError>)
      requires Valid()
      modifies this`encoder, this`actions, this`pending, this`journal, streams
      ensures Valid() && (state == Failed <==> old(state) == Failed)
      ensures error.None? ==> old(state) != Failed && Grown(old(journal), journal, AppDelete(stream))
      ensures error.Some? ==> journal == old(journal) && pending == old(pending)
      ensures error.Some? ==>
        if old(state) == Failed then error.value == SessionFailed
            else DeleteDenied(config, old(Now()), stream, error.value)
    {
      hide MadeBy, Logged, Numbered, PacketsIn, Outs, Acts, Sound, Carries, LiveIn, Streams.Live, Streams.Valid,
          Streams.Indexed, Excuse, Follows, Grown;
      if state == Failed {
        return Some(SessionFailed);
      }
      ghost var before := Now();
      var entry := streams.Get(stream);
      if entry.None? {
        return Some(InvalidHandle);
      }
      if entry.value.wire.Some? {
        var issue, a := Issue(DropStream(entry.value.wire.value), 0);
        if issue.Err? {
          return Some(issue.error);
        }
        var _ := streams.Remove(stream);
        PacketsOne<ClientEvent>(PacketOut(issue.value));
        DeleteFollows(config, before, stream, [a], [PacketOut(issue.value)]);
        Conclude(AppDelete(stream), [a], [PacketOut(issue.value)]);
      } else {
        var _ := streams.Remove(stream);
        PacketsNone<ClientEvent>();
        DeleteFollows(config, before, stream, [], []);
        assert actions + [] == actions && Made() + [] == Made();
        Conclude(AppDelete(stream), [], []);
      }
      return None;
    }

    /** Send media or script data on a publishing stream, behind everything that waits. */
    method SendMessage(stream: Handle, typeId: byte, timestamp: u32, data: seq<byte>, droppable: bool)
        returns (r: Result<Plan, SessionError>)
      requires Valid() && typeId in {8, 9, 15, 18}
      modifies this`encoder, this`actions, this`journal, this`handed
      ensures Valid()
      ensures r.Ok? ==>
        && old(state) != Failed && Grown(old(journal), journal, AppSend(stream, typeId, timestamp, data, droppable))
        && pending == [] && handed == old(handed) + [PacketOut(r.value)]
      ensures r.Err? ==> journal == old(journal) && handed == old(handed)
      ensures r.Err? ==> if state == Failed then r.error == SessionFailed
              else SendDenied(Now(), pending != [], stream, data, r.error)
    {
      hide MadeBy, Logged, Numbered, PacketsIn, Outs, Acts, Sound, LiveIn, Streams.Live, Streams.Valid,
          Streams.Indexed, Follows;
      if state == Failed {
        return Err(SessionFailed);
      }
      if pending != [] {
        return Err(PendingOutput);
      }
      var entry := streams.Get(stream);
      if entry.None? {
        return Err(InvalidHandle);
      }
      if entry.value.state != Publishing {
        return Err(NotPublishing);
      }
      assert entry.value.wire.Some? by {
        ReadyLawful();
        BoundStarted(config, Now(), stream);
      }
      var m := RawMessage(timestamp, typeId, entry.value.wire.value, data);
      r := Transmit(m, Options(false, droppable));
      if r.Ok? {
        SendFollows(config, Now(), stream, typeId, timestamp, data, droppable, r.value);
        Release(AppSend(stream, typeId, timestamp, data, droppable), Send(m, Options(false, droppable), true), r.value);
      }
    }

    method SendPing() returns (r: Result<Plan, SessionError>)
      requires Valid()
      modifies this`encoder, this`actions, this`journal, this`handed
      ensures Valid()
      ensures r.Ok? ==>
        && old(state) != Failed && Grown(old(journal), journal, AppPing)
        && pending == [] && handed == old(handed) + [PacketOut(r.value)]
      ensures r.Err? ==> journal == old(journal) && handed == old(handed)
      ensures r.Err? ==> if state == Failed then r.error == SessionFailed
              else PingDenied(config, pending != [], r.error)
    {
      hide MadeBy, Logged, Numbered, PacketsIn, Outs, Acts, Sound, LiveIn, Streams.Live, Streams.Valid,
          Streams.Indexed, Follows, Carries, Excuse;
      if state == Failed {
        return Err(SessionFailed);
      }
      if pending != [] {
        return Err(PendingOutput);
      }
      ghost var a;
      r, a := Issue(Ping, 0);
      if r.Ok? {
        PingFollows(config, Now(), a, r.value);
        Release(AppPing, a, r.value);
      }
    }

    /** Enter a step whose packet leaves at once. */
    method Release(ghost cause: Cause, ghost act: Action, plan: Plan)
      requires Steady() && Sound(config, journal) && actions == Acts(journal) + [act] && pending == []
               && Outs(journal) == handed + pending
      requires Made() == MadeBy(NewEncoder, Acts(journal)) + [plan]
      requires Follows(config, At(journal, |journal|), Record(cause, [act], [PacketOut(plan)], Now()))
      modifies this`journal, this`handed
      ensures Valid() && Grown(old(journal), journal, cause) && handed == old(handed) + [PacketOut(plan)]
    {
      hide Follows, Acts, Outs, MadeBy, AllMade, PacketsIn, Sound, Steady, Recorded, Now;
      SteadyLogged();
      PacketsOne<ClientEvent>(PacketOut(plan));
      Note(cause, [act], [PacketOut(plan)]);
      handed := handed + [PacketOut(plan)];
      assert handed + [] == handed;
    }

    // ----- decode steps and messages of the server -------------------------------------------------------

    /** Count the bytes of a decode step, and acknowledge if the window is full. */
    method Count(consumed: nat) returns (r: Result<Option<Plan>, SessionError>)
      requires Ready() && config.windowSize > 0
      modifies this`counter, this`encoder, this`actions, this`journal
      ensures r.Ok? ==>
        && Ready() && Grown(old(journal), journal, Take(consumed))
        && Outs(journal) == old(Outs(journal)) + (if r.value.Some? then [PacketOut(r.value.value)] else [])
      ensures r.Err? ==> journal == old(journal) && AckDenied(config, old(Now()), consumed, r.error)
    {
      hide MadeBy, Logged, Numbered, PacketsIn, Outs, Acts, Sound, LiveIn, Streams.Live, Streams.Valid,
          Streams.Indexed, Follows, Carries, Excuse, Tally;
      ghost var before := Now();
      assert peerWindow.Some? ==> peerWindow.value > 0 by { ReadyLawful(); }
      var window := if peerWindow.Some? then peerWindow.value else config.windowSize;
      var (next, sequence) := Tally(counter, consumed, window);
      if sequence.None? {
        counter := next;
        TakeFollows(config, before, consumed, [], []);
        PacketsNone<ClientEvent>();
        assert actions + [] == actions && Made() + [] == Made();
        Note(Take(consumed), [], []);
        return Ok(None);
      }
      var ack, a := Issue(Acknowledge(sequence.value), 0);
      if ack.Err? {
        return Err(ack.error);
      }
      counter := next;
      TakeFollows(config, before, consumed, [a], [PacketOut(ack.value)]);
      PacketsOne<ClientEvent>(PacketOut(ack.value));
      Note(Take(consumed), [a], [PacketOut(ack.value)]);
      return Ok(Some(ack.value));
    }

    /** The answer to a connect. */
    method OnConnected(t: nat) returns (r: Result<seq<Output>, SessionError>, ghost acts: seq<Action>)
      requires Steady() && Connects(open, t)
      modifies this`state, this`open, this`encoder, this`actions
      ensures r.Ok? ==>
        && Steady() && actions == old(actions) + acts && Made() == old(Made()) + PacketsIn(r.value)
        && Welcomed(config, acts, r.value) && Now() == old(Now()).(state := Connected, open := old(open) - {t})
      ensures r.Err? ==> WelcomeDenied(config, r.error)
    {
      hide MadeBy, Logged, Numbered, PacketsIn, Acts, Sound, Carries, LiveIn, Streams.Live, Streams.Valid,
          Streams.Indexed, Recorded, Excuse;
      acts := [];
      Close(t);
      state := Connected;
      var window, a := Issue(WindowSize(config.windowSize), 0);
      if window.Err? {
        return Err(window.error), acts;
      }
      var size := AnnounceChunkSize();
      if size.Err? {
        return Err(size.error), acts;
      }
      PacketsThree(window.value, ConnectionAccepted, size.value);
      acts := [a] + [Resize(config.chunkSize, 0)];
      return Ok([PacketOut(window.value), EventOut(ConnectionAccepted), PacketOut(size.value)]), acts;
    }

    /** The answer to a createStream: its stream is bound and started, unless it was deleted. */
    method OnCreated(t: nat, number: Option<u32>)
        returns (r: Result<seq<Output>, SessionError>, ghost acts: seq<Action>)
      requires Ready() && t in open && open[t].CreateStream?
      modifies this`open, this`encoder, this`actions, streams
      ensures r.Ok? ==>
        && Steady() && actions == old(actions) + acts && Made() == old(Made()) + PacketsIn(r.value)
        && number.Some? && number.value > 0 && Owns(old(streams.Live()), number.value, None)
        && Begun(config, old(Now()), t, number.value, acts, r.value, Now())
      ensures r.Err? ==>
        NumberDenied(config, old(Now()), old(open)[t].stream, old(open)[t].purpose, number, r.error)
    {
      hide MadeBy, Logged, Numbered, PacketsIn, Acts, Sound, Carries, LiveIn, Streams.Live, Streams.Valid,
          Streams.Indexed, Recorded, Excuse, StartCommands, Owns;
      acts := [];
      ghost var before := Now();
      var stream, purpose := open[t].stream, open[t].purpose;
      if number.None? || number.value == 0 {
        return Err(NoStreamNumber), acts;
      }
      var user := Owner(number.value);
      if user.Some? {
        OwnsOne(streams.Live(), number.value, user.value);
        return Err(DuplicateStreamId), acts;
      }
      var entry := streams.Get(stream);
      if entry.None? {
        Close(t);
        var drop, a := Issue(DropStream(number.value), 0);
        if drop.Err? {
          return Err(drop.error), acts;
        }
        PacketsOne<ClientEvent>(PacketOut(drop.value));
        return Ok([PacketOut(drop.value)]), [a];
      }
      assert entry.value.wire.None? by {
        ReadyLawful();
        Unbound(config, before, t);
      }
      Bring(t, stream, number.value, Starting(purpose));
      r, acts := Command(purpose, number.value);
    }

    /** The live stream with the wire ID. */
    method Owner(wire: u32) returns (owner: Option<Handle>)
      requires streams.Indexed()
      ensures Owns(streams.Live(), wire, owner) && (owner.None? ==> wire !in streams.byWire)
    {
      owner := streams.Find(wire);
    }

    /** Bind a created stream to its wire ID and let it start. */
    method Bring(t: nat, stream: Handle, number: u32, s: StreamState)
      requires Steady() && stream in streams.Live() && streams.Live()[stream].wire.None? && number !in streams.byWire
      modifies this`open, streams
      ensures Steady() && open == old(open) - {t}
              && streams.Live() == old(streams.Live())[stream := Entry(Some(number), s)]
      ensures streams.issued == old(streams.issued)
    {
      hide Logged, Numbered, LiveIn, Streams.Live, Streams.Valid, Streams.Indexed;
      Close(t);
      ghost var live := streams.Live();
      streams.Bind(stream, number);
      streams.SetState(stream, s);
      assert streams.Live() == live[stream := Entry(Some(number), s)];
    }

    /** The commands that start a stream. */
    method Command(purpose: Purpose, number: u32)
        returns (r: Result<seq<Output>, SessionError>, ghost acts: seq<Action>)
      requires Logged()
      modifies this`encoder, this`actions
      ensures Logged()
      ensures r.Ok? ==>
        && actions == old(actions) + acts && Made() == old(Made()) + PacketsIn(r.value)
        && StartCommands(config, purpose, number, acts, r.value)
      ensures r.Err? ==> StartDenied(config, purpose, number, r.error)
    {
      hide MadeBy, AllMade, EncoderAtEnd, PacketsIn, Logged, Carries, Excuse;
      acts := [];
      match purpose
      case PlayRequest(key) =>
        var buffer, a := Issue(BufferLength(number), 0);
        if buffer.Err? {
          return Err(buffer.error), acts;
        }
        var play, b := Issue(Play(key), number);
        if play.Err? {
          return Err(play.error), acts;
        }
        PacketsConcat<ClientEvent>([PacketOut(buffer.value)], [PacketOut(play.value)]);
        PacketsOne<ClientEvent>(PacketOut(buffer.value));
        PacketsOne<ClientEvent>(PacketOut(play.value));
        return Ok([PacketOut(buffer.value)] + [PacketOut(play.value)]), [a] + [b];
      case PublishRequest(key, mode) =>
        var publish, a := Issue(Publish(key, mode), number);
        if publish.Err? {
          return Err(publish.error), acts;
        }
        PacketsOne<ClientEvent>(PacketOut(publish.value));
        return Ok([PacketOut(publish.value)]), [a];
    }

    /** A `_result`. */
    method OnSuccess(m: RawMessage, t: nat, number: Option<u32>)
        returns (r: Result<seq<Output>, SessionError>, ghost acts: seq<Action>)
      requires Ready() && config.parse(m) == Some(Success(t, number))
      modifies this`state, this`open, this`encoder, this`actions, streams
      ensures r.Ok? ==>
        && Steady() && actions == old(actions) + acts && Made() == old(Made()) + PacketsIn(r.value)
        && Answers(config, old(Now()), m, Success(t, number), acts, r.value, Now())
      ensures r.Err? ==> Faulty(config, old(Now()), m, r.error)
    {
      hide MadeBy, Logged, Numbered, PacketsIn, Acts, Sound, Carries, LiveIn, Streams.Live, Streams.Valid,
          Streams.Indexed, Recorded, Excuse, Owns, Begun, Welcomed, Told, Refused;
      if t !in open {
        PacketsOne(EventOut(UnknownResult(t)));
        assert actions + [] == actions && Made() + [] == Made();
        return Ok([EventOut(UnknownResult(t))]), [];
      }
      if open[t].ConnectionRequested? {
        r, acts := OnConnected(t);
      } else {
        r, acts := OnCreated(t, number);
      }
    }

    /** An `_error`. A refused createStream takes its stream along; if that is gone, nobody is told. */
    method OnRefusal(t: nat) returns (outputs: seq<Output>)
      requires Steady()
      modifies this`state, this`open, streams
      ensures Steady() && PacketsIn(outputs) == [] && Refused(old(Now()), t, outputs, Now())
    {
      hide MadeBy, Logged, Numbered, PacketsIn, Acts, Sound, Carries, LiveIn, Streams.Live, Streams.Valid,
          Streams.Indexed, Recorded, Excuse;
      if t !in open {
        PacketsOne(EventOut(UnknownResult(t)));
        return [EventOut(UnknownResult(t))];
      }
      match open[t]
      case ConnectionRequested(_) =>
        PacketsOne(EventOut(ConnectionRejected));
        Close(t);
        state := Disconnected;
        return [EventOut(ConnectionRejected)];
      case CreateStream(stream, purpose) =>
        Close(t);
        var entry := streams.Remove(stream);
        if entry.None? {
          PacketsNone<ClientEvent>();
          return [];
        }
        PacketsOne(EventOut(RejectionOf(stream, purpose)));
        return [EventOut(RejectionOf(stream, purpose))];
    }

    /** An `onStatus` on a message stream: it may start a stream, end it, or be passed on. */
    method OnStatus(wire: u32, code: Code, isError: bool)
        returns (r: Result<seq<Output>, SessionError>, ghost acts: seq<Action>, ghost owner: Option<Handle>)
      requires Steady()
      modifies this`encoder, this`actions, streams
      ensures r.Ok? ==>
        && Steady() && actions == old(actions) + acts && Made() == old(Made()) + PacketsIn(r.value)
        && Owns(old(streams.Live()), wire, owner)
        && Told(config, old(Now()), wire, owner, code, isError, acts, r.value, Now())
      ensures r.Err? ==> Excuse(config, DropStream(wire), r.error)
    {
      hide MadeBy, Logged, Numbered, PacketsIn, Acts, Sound, Carries, LiveIn, Streams.Live, Streams.Valid,
          Streams.Indexed, Recorded, Excuse, Ending, Owns;
      acts := [];
      assert actions + [] == actions && Made() + [] == Made();
      var found := Owner(wire);
      owner := found;
      PacketsOne(EventOut(StatusReceived(found)));
      if found.None? {
        return Ok([EventOut(StatusReceived(None))]), acts, owner;
      }
      var stream := found.value;
      OwnerLives(streams.Live(), wire, stream);
      var entry := streams.Get(stream);
      var s := entry.value.state;
      PacketsOne(EventOut(PlaybackAccepted(stream)));
      PacketsOne(EventOut(PublishAccepted(stream)));
      if code == PlayStarted && s == StartingPlayback {
        streams.SetState(stream, Playing);
        return Ok([EventOut(PlaybackAccepted(stream))]), acts, owner;
      }
      if code == PublishStarted && s == StartingPublish {
        streams.SetState(stream, Publishing);
        return Ok([EventOut(PublishAccepted(stream))]), acts, owner;
      }
      var ending := Ending(code, isError, s, stream);
      if ending.None? {
        return Ok([EventOut(StatusReceived(Some(stream)))]), acts, owner;
      }
      r, acts := End(wire, stream, ending.value);
    }

    /** Delete a stream that a status has ended. */
    method End(wire: u32, stream: Handle, event: ClientEvent)
        returns (r: Result<seq<Output>, SessionError>, ghost acts: seq<Action>)
      requires Steady()
      modifies this`encoder, this`actions, streams
      ensures r.Ok? ==>
        && Steady() && actions == old(actions) + acts && Made() == old(Made()) + PacketsIn(r.value)
        && streams.Live() == old(streams.Live()) - {stream} && streams.issued == old(streams.issued)
        && |acts| == 1 && Carries(config, acts[0], DropStream(wire), 0)
        && |r.value| == 2 && r.value[0].PacketOut? && r.value[1] == EventOut(event)
      ensures r.Err? ==> Excuse(config, DropStream(wire), r.error)
    {
      hide MadeBy, Logged, Numbered, PacketsIn, Acts, Sound, Carries, LiveIn, Streams.Live, Streams.Valid,
          Streams.Indexed, Recorded, Excuse;
      acts := [];
      var drop, a := Issue(DropStream(wire), 0);
      if drop.Err? {
        return Err(drop.error), acts;
      }
      var _ := streams.Remove(stream);
      PacketsConcat<ClientEvent>([PacketOut(drop.value)], [EventOut(event)]);
      PacketsOne<ClientEvent>(PacketOut(drop.value));
      PacketsOne(EventOut(event));
      return Ok([PacketOut(drop.value)] + [EventOut(event)]), [a];
    }

    /** A message of the session layer. */
    method OnInbound(m: RawMessage, inbound: Inbound)
        returns (r: Result<seq<Output>, SessionError>, ghost acts: seq<Action>)
      requires Ready() && config.parse(m) == Some(inbound)
      modifies this`state, this`open, this`encoder, this`actions, this`peerWindow, streams
      ensures r.Ok? ==>
        && Steady() && actions == old(actions) + acts && Made() == old(Made()) + PacketsIn(r.value)
        && Answers(config, old(Now()), m, inbound, acts, r.value, Now())
      ensures r.Err? ==> Faulty(config, old(Now()), m, r.error)
    {
      hide MadeBy, Logged, Numbered, PacketsIn, Acts, Sound, Carries, LiveIn, Streams.Live, Streams.Valid,
          Streams.Indexed, Recorded, Excuse, Owns, Begun, Welcomed, Told, Refused, PlainOutputs;
      acts := [];
      assert actions + [] == actions && Made() + [] == Made();
      match inbound
      case Success(t, number) => r, acts := OnSuccess(m, t, number);
      case Refusal(t) =>
        var outputs := OnRefusal(t);
        return Ok(outputs), acts;
      case Status(code, isError) =>
        if code.None? {
          return Err(BadStatus), acts;
        }
        ghost var owner;
        r, acts, owner := OnStatus(m.streamId, code.value, isError);
      case PingHeard(time) =>
        var pong, a := Issue(Pong(time), 0);
        if pong.Err? {
          return Err(pong.error), acts;
        }
        PacketsOne<ClientEvent>(PacketOut(pong.value));
        return Ok([PacketOut(pong.value)]), [a];
      case WindowHeard(size) =>
        if size == 0 {
          return Err(ZeroWindow), acts;
        }
        peerWindow := Some(size);
        PacketsNone<ClientEvent>();
        return Ok([]), acts;
      case _ =>
        Plain(m, inbound);
        return Ok(PlainOutputs(m, inbound)), acts;
    }

    /** Audio, video or script data: an event for the stream it is about, if that wants it. */
    method OnMedia(m: RawMessage) returns (outputs: seq<Output>, ghost owner: Option<Handle>)
      requires streams.Indexed() && m.typeId in {8, 9, 15, 18}
      ensures PacketsIn(outputs) == []
      ensures Owns(streams.Live(), m.streamId, owner) && outputs == MediaOutputs(streams.Live(), owner, m)
    {
      hide LiveIn, Owns, PacketsIn;
      PacketsNone<ClientEvent>();
      var found := Owner(m.streamId);
      owner := found;
      if found.None? {
        return [], owner;
      }
      OwnerLives(streams.Live(), m.streamId, found.value);
      var entry := streams.Get(found.value);
      PacketsOne(EventOut(DataReceived(found.value, m)));
      PacketsOne(EventOut(MediaReceived(found.value, m)));
      if m.typeId == 15 || m.typeId == 18 {
        return [EventOut(DataReceived(found.value, m))], owner;
      }
      if entry.value.state != StartingPlayback && entry.value.state != Playing {
        return [], owner;
      }
      return [EventOut(MediaReceived(found.value, m))], owner;
    }

    /** Handle a message that is not of the chunk layer. */
    method Heed(m: RawMessage) returns (r: Result<seq<Output>, SessionError>)
      requires Ready() && m.typeId != TYPE_SET_CHUNK_SIZE && m.typeId != TYPE_ABORT
      modifies this`state, this`open, this`encoder, this`actions, this`peerWindow, this`journal, streams
      ensures r.Ok? ==>
              Ready() && Grown(old(journal), journal, Hear(m))
              && Outs(journal) == old(Outs(journal)) + r.value
      ensures r.Err? ==> journal == old(journal) && Faulty(config, old(Now()), m, r.error)
    {
      hide MadeBy, Logged, Numbered, PacketsIn, Acts, Sound, Carries, LiveIn, Streams.Live, Streams.Valid,
          Streams.Indexed, Excuse, Owns, Answers, Faulty, MediaOutputs, Outs, Follows;
      ghost var before, acts := Now(), [];
      PacketsOne<ClientEvent>(Unhandled(m));
      assert actions + [] == actions && Made() + [] == Made();
      if m.typeId in {8, 9, 15, 18} {
        var outputs, owner := OnMedia(m);
        r := Ok(outputs);
        assert Reacts(config, before, m, acts, outputs, Now());
      } else if m.typeId !in {3, 4, 5, 6, 17, 20} {
        r := Ok([Unhandled(m)]);
      } else {
        var inbound := config.parse(m);
        if inbound.None? {
          Unread(config, before, m);
          return Err(Unreadable);
        }
        r, acts := OnInbound(m, inbound.value);
        if r.Err? {
          return;
        }
      }
      HearFollows(config, before, m, acts, r.value, Now());
      SteadyLogged();
      Note(Hear(m), acts, r.value);
    }

    // ----- the output queue ---------------------------------------------------------------------------

    /** Hand out the first output that waits. */
    method Pop() returns (output: Option<Output>)
      requires Valid()
      modifies this`pending, this`handed
      ensures Valid() && (output.None? <==> old(pending) == [])
      ensures output.Some? ==> old(pending) == [output.value] + pending && handed == old(handed) + [output.value]
      ensures output.None? ==> handed == old(handed)
    {
      hide Ready, Sound, Outs;
      if pending == [] {
        return None;
      }
      var first := pending[0];
      assert pending == [first] + pending[1..];
      assert handed + ([first] + pending[1..]) == handed + [first] + pending[1..];
      handed := handed + [first];
      pending := pending[1..];
      return Some(first);
    }

    /** An input error ends the session; what was not handed out is discarded. */
    method Fail()
      requires Sound(config, journal) && handed <= Outs(journal)
      modifies this`state, this`pending
      ensures Valid() && state == Failed
    {
      state, pending := Failed, [];
    }
  }
}
