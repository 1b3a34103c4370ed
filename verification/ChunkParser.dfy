/** The incremental chunk parser, proved to refine the byte-at-a-time machine. */
module ChunkParserModule {
  import opened Base
  import opened ChunkMachine
  import opened ChunkMachineProofs

  /** A payload piece. It may be shorter than a chunk. */
  datatype Fragment = Fragment(header: MessageHeader, offset: nat, data: seq<byte>) {
    predicate IsEnd() {
      offset + |data| == header.length
    }
    function Events(): seq<Event> {
      FragmentEvents(header, offset, data)
    }
  }

  datatype ParseStep = ParseStep(consumed: nat, fragment: Option<Fragment>)

  function EventsOf(fragment: Option<Fragment>): seq<Event> {
    if fragment.Some? then fragment.value.Events() else []
  }

  // ----- relating a partly consumed input to the machine -------------------

  ghost predicate OnlyChanges(start: State, end: State, c: nat) {
    forall k :: k != c ==>
      && (k in end.streams <==> k in start.streams)
      && (k in end.streams ==> end.streams[k] == start.streams[k])
  }

  /** A message on stream `c` continues the one open there, or else starts from nothing. */
  ghost predicate Resumes(start: State, c: nat, header: MessageHeader, received: nat) {
    && header.csid == c
    && if c in start.streams && start.streams[c].active then
         header == start.streams[c].header && received == start.streams[c].received
       else
         received == 0
  }

  function AllButLast<T>(s: seq<T>): seq<T> {
    if s == [] then [] else s[..|s| - 1]
  }

  ghost predicate NoEnd(events: seq<Event>) {
    forall i :: 0 <= i < |events| ==> events[i].Data?
  }

  /** No message ends before the last byte. */
  ghost predicate Prompt(start: State, taken: seq<byte>) {
    var o := Run(start, AllButLast(taken));
    o.Running? && NoEnd(o.events)
  }

  lemma {:induction false} FragmentNoEnd(header: MessageHeader, offset: nat, data: seq<byte>)
    requires offset + |data| < header.length
    ensures NoEnd(FragmentEvents(header, offset, data))
    decreases |data|
  {
    if data != [] {
      FragmentNoEnd(header, offset + 1, data[1..]);
    }
  }

  /** The bytes `taken` since `start` have brought the machine to what `st` stands for:
      header bytes still to be acted on, an open chunk, or an empty message to be closed. */
  ghost predicate Tracks(start: State, taken: seq<byte>, st: State) {
    && TracksRun(start, taken, st) && TracksStreams(start, st)
    && (st.current.None? || st.chunkLeft == 0 ==> Prompt(start, taken))
  }

  /** Only the stream of the open chunk has changed, and it resumes what it was receiving. */
  ghost predicate TracksStreams(start: State, st: State) {
    if st.current.None? then st.streams == start.streams
    else
      && st.current.value in st.streams
      && OnlyChanges(start, st, st.current.value)
      && Resumes(start, st.current.value, st.streams[st.current.value].header, st.streams[st.current.value].received)
  }

  ghost predicate TracksRun(start: State, taken: seq<byte>, st: State) {
    if st.current.None? then
      && Between(st) && st.chunkLeft == 0
      && HeaderFits(st.streams, st.scratch)
      && (taken == [] ==> HeaderOpen(st.streams, st.scratch))
      && (Settle(st).Err? ==> taken != [])
      && Run(start, taken) == Acted(Settle(st), |taken|)
    else if st.chunkLeft > 0 then
      Valid(st) && Run(start, taken) == Running(st, [])
    else
      && st.scratch == [] && taken != []
      && InChunk(st) && Valid(TakePayload(st, 0))
      && var stream := st.streams[st.current.value];
         stream.received == stream.header.length &&
         Run(start, taken) == Running(TakePayload(st, 0), FragmentEvents(stream.header, stream.received, []))
  }

  /** The bytes `taken` since `start` lead to `end` and report just this fragment, if any. */
  ghost predicate Agrees(start: State, taken: seq<byte>, fragment: Option<Fragment>, end: State) {
    && Run(start, taken) == Running(end, EventsOf(fragment))
    && match fragment
       case Some(f) => taken != [] && |f.data| <= |taken| && Delivers(start, end, f) && Prompt(start, taken)
       case None => TracksStreams(start, end)
  }

  /** `step` describes what its consumed prefix of `input` does to the machine. A fragment
      always consumes something, and no fragment means that all input was consumed. */
  ghost predicate AgreesStep(start: State, input: seq<byte>, step: ParseStep, end: State) {
    && step.consumed <= |input|
    && (step.fragment.None? ==> step.consumed == |input|)
    && Agrees(start, input[..step.consumed], step.fragment, end)
  }

  /** The fragment continues its own message at the right offset and leaves other streams alone. */
  ghost predicate Delivers(start: State, end: State, f: Fragment) {
    var c := f.header.csid;
    && OnlyChanges(start, end, c)
    && Resumes(start, c, f.header, f.offset)
    && f.offset + |f.data| <= f.header.length
    && c in end.streams && end.streams[c].header == f.header
    && (f.data == [] ==> f.IsEnd())
  }

  /** Feeding `input` ends in `error` inside the input, before anything is reported. */
  ghost predicate StopsWith(start: State, input: seq<byte>, error: Error) {
    var o := Run(start, input);
    o.Stopped? && o.error == error && o.events == [] && o.at < |input|
  }

  lemma TracksStart(st: State)
    requires Valid(st)
    ensures Tracks(st, [], st)
  {
    if st.current.None? {
      assert Unfinished(st) == ActiveSet(st.streams);
    }
  }

  lemma TracksHeader(start: State, taken: seq<byte>, st: State, more: seq<byte>)
    requires Tracks(start, taken, st) && st.current.None?
    requires HeaderOpen(st.streams, st.scratch)
    requires |st.scratch| + |more| <= HeaderNeeded(st.streams, st.scratch).value
    ensures Tracks(start, taken + more, st.(scratch := st.scratch + more))
  {
    RunHeader(st, more);
    RunConcat(start, taken, more);
    AfterNothing(Run(st, more));
    NeededGrows(st.streams, st.scratch, more);
    if more == [] {
      assert taken + more == taken;
      assert st.(scratch := st.scratch + more) == st;
    } else {
      HeaderPrompt(start, taken, st, more);
    }
  }

  lemma HeaderPrompt(start: State, taken: seq<byte>, st: State, more: seq<byte>)
    requires TracksRun(start, taken, st) && st.current.None?
    requires HeaderOpen(st.streams, st.scratch)
    requires 0 < |more| && |st.scratch| + |more| <= HeaderNeeded(st.streams, st.scratch).value
    ensures Prompt(start, taken + more)
  {
    var some := AllButLast(more);
    assert AllButLast(taken + more) == taken + some;
    RunHeader(st, some);
    NeededStable(st.streams, st.scratch, some);
    RunConcat(start, taken, some);
  }

  /** When the input runs out inside the header, nothing has been reported. */
  lemma TracksIncomplete(start: State, input: seq<byte>, k: nat, st: State)
    requires k <= |input| && Tracks(start, input[..k], st) && st.current.None?
    requires HeaderOpen(st.streams, st.scratch)
    requires |st.scratch| + (|input| - k) < HeaderNeeded(st.streams, st.scratch).value
    ensures var next := st.(scratch := st.scratch + input[k..]);
            Valid(next) && Agrees(start, input, None, next)
  {
    var more := input[k..];
    TracksHeader(start, input[..k], st, more);
    assert input[..k] + more == input;
    NeededStable(st.streams, st.scratch, more);
    var next := st.(scratch := st.scratch + more);
    assert Unfinished(next) == ActiveSet(next.streams);
  }

  lemma HeaderReached(start: State, taken: seq<byte>, st: State)
    requires Tracks(start, taken, st) && st.current.None?
    requires HeaderNeeded(st.streams, st.scratch).Ok? && |st.scratch| >= HeaderNeeded(st.streams, st.scratch).value
    ensures HeaderComplete(st)
  {
  }

  lemma TracksOpen(start: State, taken: seq<byte>, st: State)
    requires Tracks(start, taken, st) && st.current.None?
    requires HeaderComplete(st) && BeginChunk(st).Ok?
    ensures Tracks(start, taken, BeginChunk(st).value)
  {
    BeginChunkOpens(st);
    var csid, next := Csid(st.scratch), BeginChunk(st).value;
    if next.chunkLeft > 0 {
      OpenedValid(st, csid, next.streams[csid]);
    } else {
      EmptyMessageValid(st, csid, next.streams[csid]);
    }
  }

  lemma TracksStop(start: State, input: seq<byte>, k: nat, st: State)
    requires k <= |input| && Tracks(start, input[..k], st)
    requires st.current.None? && Settle(st).Err?
    ensures StopsWith(start, input, Settle(st).error)
  {
    RunConcat(start, input[..k], input[k..]);
    assert input == input[..k] + input[k..];
  }

  /** The fragment handed out when the next `n` bytes belong to the open chunk. */
  function NextFragment(st: State, data: seq<byte>): Fragment
    requires InChunk(st)
  {
    var stream := st.streams[st.current.value];
    Fragment(stream.header, stream.received, data)
  }

  lemma PayloadDelivers(start: State, st: State, data: seq<byte>)
    requires st.current.Some? && TracksStreams(start, st) && InChunk(st)
    requires |data| <= st.chunkLeft
             && (data == [] ==> st.streams[st.current.value].header.length == st.streams[st.current.value].received)
    ensures Delivers(start, TakePayload(st, |data|), NextFragment(st, data))
  {
  }

  lemma PayloadRuns(start: State, taken: seq<byte>, st: State, data: seq<byte>)
    requires TracksRun(start, taken, st) && st.current.Some? && InChunk(st)
    requires |data| <= st.chunkLeft && (data == [] ==> st.chunkLeft == 0)
    ensures Valid(TakePayload(st, |data|))
    ensures Run(start, taken + data) == Running(TakePayload(st, |data|), NextFragment(st, data).Events())
  {
    if data == [] {
      assert taken + data == taken;
    } else {
      TakePayloadValid(st, |data|);
      RunPayload(st, data);
      RunConcat(start, taken, data);
      AfterNothing(Run(st, data));
    }
  }

  lemma PayloadPrompt(start: State, taken: seq<byte>, st: State, data: seq<byte>)
    requires TracksRun(start, taken, st) && st.current.Some? && InChunk(st)
    requires 0 < |data| <= st.chunkLeft
    ensures Prompt(start, taken + data)
  {
    var some := AllButLast(data);
    assert AllButLast(taken + data) == taken + some;
    if some == [] {
      assert taken + some == taken;
    } else {
      PayloadRuns(start, taken, st, some);
      var stream := st.streams[st.current.value];
      FragmentNoEnd(stream.header, stream.received, some);
    }
  }

  /** An open chunk with payload left but no input left reports nothing more. */
  lemma TracksHungry(start: State, taken: seq<byte>, st: State)
    requires Tracks(start, taken, st) && st.current.Some? && st.chunkLeft > 0
    ensures Valid(st) && Agrees(start, taken, None, st)
  {
  }

  lemma TracksPayload(start: State, taken: seq<byte>, st: State, data: seq<byte>)
    requires Tracks(start, taken, st)
    requires st.current.Some? && |data| <= st.chunkLeft && (data == [] ==> st.chunkLeft == 0)
    ensures InChunk(st) && Valid(TakePayload(st, |data|))
    ensures Agrees(start, taken + data, Some(NextFragment(st, data)), TakePayload(st, |data|))
  {
    PayloadDelivers(start, st, data);
    PayloadRuns(start, taken, st, data);
    if data == [] {
      assert taken + data == taken;
    } else {
      PayloadPrompt(start, taken, st, data);
    }
  }

  class ChunkParser {
    var streams: map<nat, Stream>
    const scratch: array<byte>
    var used: nat
    var current: Option<nat>
    var chunkLeft: nat
    var chunkSize: nat
    const limits: Limits

    /** The machine state this object represents. */
    ghost function View(): State
      reads this, scratch
      requires used <= scratch.Length
    {
      State(streams, scratch[..used], current, chunkLeft, chunkSize, limits)
    }

    ghost predicate Ok()
      reads this, scratch
    {
      scratch.Length == 18 && used <= 18 && Valid(View())
    }

    constructor (limits: Limits)
      ensures Ok() && View() == Initial(limits) && fresh(scratch)
    {
      this.streams := map[];
      this.scratch := new byte[18](_ => 0);
      this.used := 0;
      this.current := None;
      this.chunkLeft := 0;
      this.chunkSize := 128;
      this.limits := limits;
      new;
      assert View() == Initial(limits);
      InitialValid(limits);
    }

    method SetChunkSize(size: nat) returns (error: Option<Error>)
      requires Ok()
      modifies this`chunkSize
      ensures Ok()
      ensures error.None? <==> 0 < size <= 0x7fff_ffff && size <= limits.maxChunkSize
      ensures error.Some? ==> error.value == InvalidMaxChunkSize(size) && View() == old(View())
      ensures error.None? ==> View() == old(View()).(chunkSize := size)
    {
      if size == 0 || size > 0x7fff_ffff || size > limits.maxChunkSize {
        return Some(InvalidMaxChunkSize(size));
      }
      chunkSize := size;
      ResizedValid(old(View()), size);
      return None;
    }

    method AbortChunkStream(csid: nat)
      requires Ok()
      modifies this`streams, this`current, this`chunkLeft
      ensures Ok() && View() == Aborted(old(View()), csid)
    {
      if csid in streams {
        streams := streams[csid := streams[csid].(active := false, received := 0)];
      }
      if current == Some(csid) {
        current := None;
        chunkLeft := 0;
      }
      assert View() == Aborted(old(View()), csid);
      AbortedValid(old(View()), csid);
    }

    /** Interpret the collected header, which must be complete. */
    method OpenChunk() returns (error: Option<Error>)
      requires scratch.Length == 18 && used <= 18 && HeaderComplete(View())
      modifies this`streams, this`current, this`chunkLeft, this`used
      ensures used <= old(used)
      ensures error.Some? ==> BeginChunk(old(View())) == Err(error.value)
      ensures error.None? ==> used == 0 && BeginChunk(old(View())) == Result.Ok(View())
    {
      hide ReadHeader, ReadTime, Add32;
      var s := scratch[..used];
      var csid, fmt := Csid(s), Fmt(s);
      var prior := Lookup(streams, csid);
      if fmt != 0 && prior.None? {
        return Some(NoPreviousChunk(csid));
      }
      if prior.None? && |streams| >= limits.maxTracked {
        return Some(LimitExceeded(TrackedStreams, |streams| + 1, limits.maxTracked));
      }
      var continuing := prior.Some? && prior.value.active;
      var header := ReadHeader(s, prior);
      if header.length > limits.maxMessageSize {
        return Some(LimitExceeded(MessagePayload, header.length, limits.maxMessageSize));
      }
      var time := ReadTime(s, prior);
      if !continuing {
        header := header.(timestamp := if fmt == 0 then time else Add32(header.timestamp, time));
        if header.length > chunkSize {
          var active := |ActiveSet(streams)|;
          if active >= limits.maxPartial {
            return Some(LimitExceeded(PartialMessages, active + 1, limits.maxPartial));
          }
        }
      } else {
        var previous := prior.value;
        if header.length < previous.received {
          return Some(LengthBelowBuffered(csid, header.length, previous.received));
        }
        if header.length != previous.header.length || header.typeId != previous.header.typeId
          || header.streamId != previous.header.streamId || (fmt == 0 && time != previous.header.timestamp) {
          return Some(InvalidContinuation(csid));
        }
      }
      var received := if continuing then prior.value.received else 0;
      chunkLeft := Min(header.length - received, chunkSize);
      current := Some(csid);
      streams := streams[csid := Stream(header, time, received, true)];
      used := 0;
      return None;
    }

    /** Copy header bytes from the front of `input`, up to `needed` in all. */
    method FillScratch(input: seq<byte>, needed: nat) returns (n: nat)
      requires scratch.Length == 18 && used < needed <= 18
      modifies scratch, this`used
      ensures n == Min(needed - old(used), |input|)
      ensures used == old(used) + n
      ensures View() == old(View()).(scratch := old(View()).scratch + input[..n])
    {
      n := Min(needed - used, |input|);
      forall i | 0 <= i < n {
        scratch[used + i] := input[i];
      }
      used := used + n;
      assert scratch[..used] == old(scratch[..used]) + input[..n];
    }

    /** Hand out the next `|data|` payload bytes of the open chunk. */
    method TakeFragment(data: seq<byte>) returns (fragment: Fragment)
      requires scratch.Length == 18 && used <= 18 && InChunk(View()) && |data| <= chunkLeft
      modifies this`streams, this`current, this`chunkLeft
      ensures View() == TakePayload(old(View()), |data|)
      ensures fragment == NextFragment(old(View()), data)
    {
      var csid := current.value;
      var stream := streams[csid];
      fragment := Fragment(stream.header, stream.received, data);
      stream := stream.(received := stream.received + |data|);
      chunkLeft := chunkLeft - |data|;
      if stream.received == stream.header.length {
        stream := stream.(active := false);
      }
      streams := streams[csid := stream];
      if chunkLeft == 0 {
        current := None;
      }
    }

    /** Copy header bytes up to the next decision. `done` says that the input ran out before it. */
    method FillRound(input: seq<byte>, consumed: nat, needed: nat, ghost start: State) returns (n: nat, done: bool)
      requires scratch.Length == 18 && used <= 18 && current.None?
      requires consumed <= |input| && Tracks(start, input[..consumed], View())
      requires HeaderNeeded(streams, scratch[..used]) == Result.Ok(needed) && used < needed
      modifies scratch, this`used
      ensures done ==> Ok() && Agrees(start, input, None, View())
      ensures !done ==>
                && consumed + n <= |input| && old(used) < used <= 18
                && Tracks(start, input[..consumed + n], View())
    {
      hide Tracks, Agrees, Valid, Run, HeaderNeeded;
      ghost var before := View();
      n := FillScratch(input[consumed..], needed);
      done := used < needed;
      if done {
        assert input[consumed..][..n] == input[consumed..];
        TracksIncomplete(start, input, consumed, before);
      } else {
        TracksHeader(start, input[..consumed], before, input[consumed..][..n]);
        assert input[..consumed + n] == input[..consumed] + input[consumed..][..n];
      }
    }

    /** Act on a complete header. */
    method OpenRound(input: seq<byte>, consumed: nat, ghost start: State) returns (error: Option<Error>)
      requires scratch.Length == 18 && used <= 18 && current.None?
      requires consumed <= |input| && Tracks(start, input[..consumed], View())
      requires HeaderNeeded(streams, scratch[..used]).Ok? && used >= HeaderNeeded(streams, scratch[..used]).value
      modifies this`streams, this`current, this`chunkLeft, this`used
      ensures used <= 18
      ensures error.Some? ==> StopsWith(start, input, error.value)
      ensures error.None? ==> current.Some? && Tracks(start, input[..consumed], View())
    {
      hide Tracks, StopsWith, Run;
      HeaderReached(start, input[..consumed], View());
      ghost var before := View();
      error := OpenChunk();
      if error.Some? {
        TracksStop(start, input, consumed, before);
      } else {
        TracksOpen(start, input[..consumed], before);
      }
    }

    /** Take the next payload fragment of the open chunk from `input[consumed..]`. */
    method PayloadRound(input: seq<byte>, consumed: nat, ghost start: State) returns (step: ParseStep)
      requires scratch.Length == 18 && used <= 18 && current.Some?
      requires consumed <= |input| && Tracks(start, input[..consumed], View())
      modifies this`streams, this`current, this`chunkLeft
      ensures Ok() && AgreesStep(start, input, step, View())
    {
      hide Tracks, Agrees, Valid, Run, TakePayload, InChunk;
      var n := Min(chunkLeft, |input| - consumed);
      if n == 0 && chunkLeft > 0 {
        TracksHungry(start, input[..consumed], View());
        return ParseStep(consumed, None);
      }
      var data := input[consumed..consumed + n];
      TracksPayload(start, input[..consumed], View(), data);
      assert input[..consumed + n] == input[..consumed] + data;
      var fragment := TakeFragment(data);
      return ParseStep(consumed + n, Some(fragment));
    }

    /** Take header bytes, then at most one payload fragment, from the front of `input`.
        The consumed bytes have exactly the effect they have on the byte-at-a-time machine. */
    method Consume(input: seq<byte>) returns (r: Result<ParseStep, Error>)
      requires Ok()
      modifies this, scratch
      ensures r.Ok? ==> Ok() && AgreesStep(old(View()), input, r.value, View())
      ensures r.Err? ==> StopsWith(old(View()), input, r.error)
    {
      hide Tracks, Agrees, Valid, StopsWith, Run;
      ghost var start := View();
      var consumed: nat := 0;
      TracksStart(start);
      assert input[..0] == [];
      while current.None?
        invariant consumed <= |input| && used <= 18
        invariant Tracks(start, input[..consumed], View())
        decreases current.None?, 18 - used
      {
        var known := HeaderNeeded(streams, scratch[..used]);
        if known.Err? {
          TracksStop(start, input, consumed, View());
          return Err(known.error);
        }
        if used < known.value {
          var n, done := FillRound(input, consumed, known.value, start);
          if done {
            assert input[..|input|] == input;
            return Result.Ok(ParseStep(|input|, None));
          }
          consumed := consumed + n;
        } else {
          var error := OpenRound(input, consumed, start);
          if error.Some? {
            return Err(error.value);
          }
        }
      }
      var step := PayloadRound(input, consumed, start);
      return Result.Ok(step);
    }
  }
}
