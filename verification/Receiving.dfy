/** Driving the decoders over a cut-up byte stream, applying control messages in between. */
module Receiving {
  import opened Base
  import opened ChunkMachine
  import opened ChunkMachineProofs
  import opened ChunkParserModule
  import opened MessageMachine
  import opened MessageDecoderModule
  import opened ContiguousDecoderModule

  // ----- decode calls in terms of the receiving machine ---------------------------

  lemma {:induction false} QuietReceives(start: State, bodies: Bodies, taken: seq<byte>)
    requires Quiet(start, bodies, taken)
    ensures var o := Run(start, taken);
            ReceiveAll(Receiver(start, bodies), taken) == Live(Receiver(o.state, Absorb(bodies, o.events).0), [])
    decreases |taken|
  {
    if taken != [] {
      var (next, events) := Step(start, taken[0]).value;
      var later := Run(next, taken[1..]).events;
      AbsorbConcat(bodies, events, later);
      var (held, messages) := Absorb(bodies, events);
      assert messages == [];
      QuietReceives(next, held, taken[1..]);
      assert ControlAll(Receiver(next, held), []) == Ok(Receiver(next, held));
    }
  }

  /** The session after one message has been handed out and applied. */
  function AfterMessage(end: Receiver, m: RawMessage): Session {
    match Control(end, m)
    case Err(e) => Dead(e, [])
    case Ok(next) => Live(next, [m])
  }

  lemma ControlOne(r: Receiver, m: RawMessage)
    ensures ControlAll(r, [m]) == Control(r, m)
  {
    assert [m][1..] == [];
    match Control(r, m)
    case Err(_) =>
    case Ok(next) => assert ControlAll(next, []) == Ok(next);
  }

  lemma MessageReceives(start: State, bodies: Bodies, taken: seq<byte>, end: State, next: Bodies, m: RawMessage)
    requires Decodes(start, bodies, taken, end, next, [m])
    ensures ReceiveAll(Receiver(start, bodies), taken) == AfterMessage(Receiver(end, next), m)
  {
    hide Run, Absorb, ReceiveAll, Step, Control, ControlAll;
    var init, last := AllButLast(taken), taken[|taken| - 1];
    assert taken == init + [last];
    QuietReceives(start, bodies, init);
    ReceiveConcat(Receiver(start, bodies), init, [last]);
    var mid := Run(start, init).state;
    var e1 := Run(start, init).events;
    var held := Absorb(bodies, e1).0;
    RunConcat(start, init, [last]);
    RunOne(mid, last);
    var e2 := Step(mid, last).value.1;
    AbsorbConcat(bodies, e1, e2);
    assert [] + Absorb(held, e2).1 == Absorb(held, e2).1;
    LastReceives(mid, held, last, end, next, m);
    ThenNothing(ReceiveAll(Receiver(mid, held), [last]));
  }

  /** The byte that completes a message. */
  lemma LastReceives(mid: State, held: Bodies, last: byte, end: State, next: Bodies, m: RawMessage)
    requires Step(mid, last).Ok? && Step(mid, last).value.0 == end
             && Absorb(held, Step(mid, last).value.1) == (next, [m])
    ensures ReceiveAll(Receiver(mid, held), [last]) == AfterMessage(Receiver(end, next), m)
  {
    hide Step, Absorb, Control;
    ControlOne(Receiver(end, next), m);
    assert [last][1..] == [];
    assert [m] + [] == [m];
  }

  lemma {:induction false} FailureReceives(start: State, bodies: Bodies, input: seq<byte>, error: Error)
    requires Fails(start, bodies, input, error)
    ensures ReceiveAll(Receiver(start, bodies), input) == Dead(error, [])
    decreases |input|
  {
    match Step(start, input[0])
    case Err(_) =>
    case Ok((next, events)) =>
      AbsorbConcat(bodies, events, Run(next, input[1..]).events);
      var (held, messages) := Absorb(bodies, events);
      FailureReceives(next, held, input[1..], error);
      assert ControlAll(Receiver(next, held), []) == Ok(Receiver(next, held));
  }

  // ----- the owned decoder ------------------------------------------------------

  ghost function Held(d: MessageDecoder): Receiver
    reads d, d.parser, d.parser.scratch
    requires d.parser.used <= d.parser.scratch.Length
  {
    Receiver(d.parser.View(), BodiesOf(d.partials))
  }

  function Wholes(messages: seq<Decoded>): seq<RawMessage> {
    if messages == [] then [] else Wholes(messages[..|messages| - 1]) + [messages[|messages| - 1].Whole()]
  }

  function AllBytes(pieces: seq<Input>): seq<byte> {
    if pieces == [] then [] else pieces[0].bytes + AllBytes(pieces[1..])
  }

  /** Apply a completed message to the chunk layer, as a session does before decoding on. */
  method ApplyControl(d: MessageDecoder, m: RawMessage) returns (error: Option<Error>)
    requires d.Ok()
    modifies d, d.parser
    ensures error.None? ==> d.Ok() && Control(old(Held(d)), m) == Result.Ok(Held(d))
    ensures error.Some? ==> Control(old(Held(d)), m) == Err(error.value)
  {
    if m.typeId == TYPE_SET_CHUNK_SIZE {
      if |m.data| < 4 || FromBe32(m.data) > 0x7fff_ffff {
        return Some(MalformedControl(m.typeId));
      }
      error := d.SetChunkSize(FromBe32(m.data));
      return;
    }
    if m.typeId == TYPE_ABORT {
      if |m.data| < 4 {
        return Some(MalformedControl(m.typeId));
      }
      d.AbortChunkStream(FromBe32(m.data));
      return None;
    }
    return None;
  }

  lemma WholesAppend(messages: seq<Decoded>, m: Decoded)
    ensures Wholes(messages + [m]) == Wholes(messages) + [m.Whole()]
  {
    assert (messages + [m])[..|messages|] == messages;
  }

  /** What has been received from `input[..taken]` leads on to what `input[..taken + n]` yields. */
  lemma Onward(start: Receiver, input: seq<byte>, taken: nat, n: nat, mid: Receiver, messages: seq<RawMessage>)
    requires taken + n <= |input|
    requires ReceiveAll(start, input[..taken]) == Live(mid, messages)
    ensures ReceiveAll(start, input[..taken + n]) == Then(messages, ReceiveAll(mid, input[taken..taken + n]))
  {
    hide ReceiveAll;
    assert input[..taken + n] == input[..taken] + input[taken..taken + n];
    ReceiveConcat(start, input[..taken], input[taken..taken + n]);
  }

  lemma DeadStays(start: Receiver, input: seq<byte>, k: nat)
    requires k <= |input| && ReceiveAll(start, input[..k]).Dead?
    ensures ReceiveAll(start, input) == ReceiveAll(start, input[..k])
  {
    assert input == input[..k] + input[k..];
    ReceiveConcat(start, input[..k], input[k..]);
  }

  /** What a part of the input yields is the beginning of what all of it does. */
  lemma SoFar(start: Receiver, input: seq<byte>, k: nat)
    requires k <= |input|
    ensures ReceiveAll(start, input[..k]).messages <= ReceiveAll(start, input).messages
  {
    hide ReceiveAll;
    assert input == input[..k] + input[k..];
    ReceiveConcat(start, input[..k], input[k..]);
  }

  /** Drain one piece of input through the owned decoder. */
  method ReceivePiece(d: MessageDecoder, piece: Input) returns (messages: seq<Decoded>, error: Option<Error>)
    requires d.Ok()
    modifies d, d.parser, d.parser.scratch
    ensures error.None? ==> d.Ok() && ReceiveAll(old(Held(d)), piece.bytes) == Live(Held(d), Wholes(messages))
    ensures error.Some? ==>
              || ReceiveAll(old(Held(d)), piece.bytes) == Dead(error.value, Wholes(messages))
              || (Exceeds(d.limits, error.value) && !Ample(d.limits)
                   && Wholes(messages) <= ReceiveAll(old(Held(d)), piece.bytes).messages)
  {
    hide Decodes, Fails, Quiet, ReceiveAll, Ample, Control, Wholes, Books, Mirrors, Sized, Valid, BodiesOf;
    ghost var start, all := Held(d), piece.bytes;
    messages := [];
    var rest := piece;
    assert all[..0] == [];
    NothingReceived(start);
    while true
      invariant d.Ok()
      invariant |rest.bytes| <= |all| && rest.bytes == all[|all| - |rest.bytes|..]
      invariant ReceiveAll(start, all[..|all| - |rest.bytes|]) == Live(Held(d), Wholes(messages))
      decreases |rest.bytes|
    {
      ghost var before, taken, left := Held(d), |all| - |rest.bytes|, rest.bytes;
      var r, after := d.DecodeInput(rest);
      ghost var n := |rest.bytes| - |after.bytes|;
      assert all[taken..taken + n] == left[..n];
      rest := after;
      if r.Err? {
        if Fails(before.parser, before.bodies, left, r.error) {
          FailureReceives(before.parser, before.bodies, left, r.error);
          Onward(start, all, taken, |left|, before, Wholes(messages));
          assert all[taken..taken + |left|] == left && all[..taken + |left|] == all;
        }
        SoFar(start, all, taken);
        return messages, Some(r.error);
      }
      Onward(start, all, taken, n, before, Wholes(messages));
      if r.value.None? {
        DecodedQuietly(before.parser, before.bodies, left[..n], Held(d).parser, Held(d).bodies);
        assert all[..taken + n] == all;
        return messages, None;
      }
      ghost var end := Held(d);
      MessageReceives(before.parser, before.bodies, left[..n], end.parser, end.bodies, r.value.value.Whole());
      error := ApplyControl(d, r.value.value.Whole());
      if error.Some? {
        DeadStays(start, all, taken + n);
        return;
      }
      WholesAppend(messages, r.value.value);
      messages := messages + [r.value.value];
    }
  }

  lemma NothingReceived(r: Receiver)
    ensures ReceiveAll(r, []) == Live(r, Wholes([]))
  {
  }

  lemma DecodedQuietly(start: State, bodies: Bodies, taken: seq<byte>, end: State, next: Bodies)
    requires Decodes(start, bodies, taken, end, next, [])
    ensures ReceiveAll(Receiver(start, bodies), taken) == Live(Receiver(end, next), [])
  {
    QuietReceives(start, bodies, taken);
  }

  /** The owned decoder receives exactly what the byte-at-a-time machine receives, however the
      stream is cut into owned and borrowed pieces. */
  method ReceivePieces(d: MessageDecoder, pieces: seq<Input>) returns (messages: seq<Decoded>, error: Option<Error>)
    requires d.Ok()
    modifies d, d.parser, d.parser.scratch
    ensures error.None? ==> d.Ok() && ReceiveAll(old(Held(d)), AllBytes(pieces)) == Live(Held(d), Wholes(messages))
    ensures error.Some? ==>
              || ReceiveAll(old(Held(d)), AllBytes(pieces)) == Dead(error.value, Wholes(messages))
              || (Exceeds(d.limits, error.value) && !Ample(d.limits)
                   && Wholes(messages) <= ReceiveAll(old(Held(d)), AllBytes(pieces)).messages)
  {
    hide ReceiveAll, Ample, Books, Mirrors, Sized, Valid, BodiesOf;
    ghost var start := Held(d);
    messages := [];
    NothingReceived(start);
    for i := 0 to |pieces|
      invariant d.Ok()
      invariant ReceiveAll(start, AllBytes(pieces[..i])) == Live(Held(d), Wholes(messages))
    {
      ghost var before := Held(d);
      var more;
      more, error := ReceivePiece(d, pieces[i]);
      AllBytesAppend(pieces, i);
      ReceiveConcat(start, AllBytes(pieces[..i]), pieces[i].bytes);
      WholesConcat(messages, more);
      messages := messages + more;
      if error.Some? {
        AllBytesPrefix(pieces, i + 1);
        if ReceiveAll(before, pieces[i].bytes).Dead? {
          DeadStays(start, AllBytes(pieces), |AllBytes(pieces[..i + 1])|);
        }
        SoFar(start, AllBytes(pieces), |AllBytes(pieces[..i + 1])|);
        return;
      }
    }
    assert pieces[..|pieces|] == pieces;
    error := None;
  }

  lemma {:induction false} WholesConcat(a: seq<Decoded>, b: seq<Decoded>)
    ensures Wholes(a + b) == Wholes(a) + Wholes(b)
    decreases |b|
  {
    if b == [] {
      assert a + b == a;
    } else {
      var n := |b| - 1;
      assert a + b == (a + b[..n]) + [b[n]];
      WholesAppend(a + b[..n], b[n]);
      WholesConcat(a, b[..n]);
    }
  }

  lemma {:induction false} AllBytesConcat(a: seq<Input>, b: seq<Input>)
    ensures AllBytes(a + b) == AllBytes(a) + AllBytes(b)
  {
    if a == [] {
      assert a + b == b;
    } else {
      assert (a + b)[1..] == a[1..] + b;
      AllBytesConcat(a[1..], b);
    }
  }

  lemma AllBytesAppend(pieces: seq<Input>, i: nat)
    requires i < |pieces|
    ensures AllBytes(pieces[..i + 1]) == AllBytes(pieces[..i]) + pieces[i].bytes
  {
    assert pieces[..i + 1] == pieces[..i] + [pieces[i]];
    AllBytesConcat(pieces[..i], [pieces[i]]);
    assert [pieces[i]][1..] == [];
    assert AllBytes([pieces[i]]) == pieces[i].bytes + [];
  }

  lemma AllBytesPrefix(pieces: seq<Input>, i: nat)
    requires i <= |pieces|
    ensures |AllBytes(pieces[..i])| <= |AllBytes(pieces)|
    ensures AllBytes(pieces)[..|AllBytes(pieces[..i])|] == AllBytes(pieces[..i])
  {
    assert pieces == pieces[..i] + pieces[i..];
    AllBytesConcat(pieces[..i], pieces[i..]);
  }

  // ----- the contiguous decoder ---------------------------------------------------

  ghost function HeldBy(d: ContiguousDecoder): Receiver
    reads d, d.parser, d.parser.scratch
    requires d.parser.used <= d.parser.scratch.Length
  {
    Receiver(d.parser.View(), BodiesOf(d.partials))
  }

  method ApplyControlContiguous(d: ContiguousDecoder, m: RawMessage) returns (error: Option<Error>)
    requires d.Ok()
    modifies d`partials, d`buffered, d`reserved, d.parser
    ensures error.None? ==> d.Ok() && Control(old(HeldBy(d)), m) == Result.Ok(HeldBy(d))
    ensures error.Some? ==> Control(old(HeldBy(d)), m) == Err(error.value)
  {
    if m.typeId == TYPE_SET_CHUNK_SIZE {
      if |m.data| < 4 || FromBe32(m.data) > 0x7fff_ffff {
        return Some(MalformedControl(m.typeId));
      }
      error := d.SetChunkSize(FromBe32(m.data));
      return;
    }
    if m.typeId == TYPE_ABORT {
      if |m.data| < 4 {
        return Some(MalformedControl(m.typeId));
      }
      d.AbortChunkStream(FromBe32(m.data));
      return None;
    }
    return None;
  }

  lemma Slices(piece: seq<byte>, taken: nat, n: nat)
    requires taken + n <= |piece|
    ensures piece[taken..][..n] == piece[taken..taken + n] && piece[taken..][n..] == piece[taken + n..]
  {
  }

  lemma PieceFailed(start: Receiver, piece: seq<byte>, taken: nat, before: Receiver, messages: seq<RawMessage>,
          limits: Limits, e: Error)
    requires taken <= |piece| && ReceiveAll(start, piece[..taken]) == Live(before, messages)
    requires ReceiveAll(before, piece[taken..]) == Dead(e, []) || (Exceeds(limits, e) && !Roomy(limits, |piece|))
    ensures
      || ReceiveAll(start, piece) == Dead(e, messages)
      || (Exceeds(limits, e) && !Roomy(limits, |piece|) && messages <= ReceiveAll(start, piece).messages)
  {
    hide ReceiveAll, Roomy;
    var left := piece[taken..];
    Onward(start, piece, taken, |left|, before, messages);
    assert piece[taken..taken + |left|] == left && piece[..taken + |left|] == piece;
  }

  /** Ask for the next message of what is pending and supplied, which is `left`. */
  method Pull(d: ContiguousDecoder, supply: seq<byte>, ghost left: seq<byte>, ghost room: nat)
      returns (r: Result<Option<RawMessage>, Error>, ghost n: nat)
    requires d.Ok() && d.pending + supply == left && |left| <= room
    modifies d, d.parser, d.parser.scratch
    ensures r.Ok? ==>
              && d.Ok() && n <= |left| && d.pending == left[n..]
              && (if r.value.None? then n == |left| && ReceiveAll(old(HeldBy(d)), left[..n]) == Live(HeldBy(d), [])
                  else n > 0 && ReceiveAll(old(HeldBy(d)), left[..n]) == AfterMessage(HeldBy(d), r.value.value))
    ensures r.Err? ==>
            ReceiveAll(old(HeldBy(d)), left) == Dead(r.error, [])
            || (Exceeds(d.limits, r.error) && !Roomy(d.limits, room))
  {
    hide Decodes, Fails, ReceiveAll, Ample, Roomy, Control, Books, Mirrors, Sized, Valid, BodiesOf, AllContiguous;
    ghost var before, buffered := HeldBy(d), d.buffered;
    HeldBound(d);
    n := 0;
    r := d.GetNextMessage(supply);
    if r.Err? {
      if Fails(before.parser, before.bodies, left, r.error) {
        FailureReceives(before.parser, before.bodies, left, r.error);
      } else {
        NotRoomy(d.limits, buffered, |left|, room);
      }
      return;
    }
    n := |left| - |d.pending|;
    ghost var end := HeldBy(d);
    if r.value.None? {
      DecodedQuietly(before.parser, before.bodies, left[..n], end.parser, end.bodies);
    } else {
      MessageReceives(before.parser, before.bodies, left[..n], end.parser, end.bodies, r.value.value);
    }
  }

  /** Supply one piece to the contiguous decoder, then ask with no input until nothing is left. */
  method ReceivePieceContiguous(d: ContiguousDecoder, piece: seq<byte>)
      returns (messages: seq<RawMessage>, error: Option<Error>)
    requires d.Ok() && d.pending == []
    modifies d, d.parser, d.parser.scratch
    ensures error.None? ==> d.Ok() && d.pending == [] && ReceiveAll(old(HeldBy(d)), piece) == Live(HeldBy(d), messages)
    ensures error.Some? ==>
              || ReceiveAll(old(HeldBy(d)), piece) == Dead(error.value, messages)
              || (Exceeds(d.limits, error.value) && !Roomy(d.limits, |piece|)
                   && messages <= ReceiveAll(old(HeldBy(d)), piece).messages)
  {
    hide ReceiveAll, Roomy, Control, Books, Mirrors, Sized, Valid, BodiesOf, AllContiguous;
    ghost var start, taken := HeldBy(d), 0;
    messages := [];
    var supply := piece;
    assert piece[..0] == [] && d.pending + supply == piece[0..];
    NothingReceived(start);
    while true
      invariant d.Ok()
      invariant 0 <= taken <= |piece| && d.pending + supply == piece[taken..]
      invariant ReceiveAll(start, piece[..taken]) == Live(HeldBy(d), messages)
      decreases |piece| - taken
    {
      ghost var before, left := HeldBy(d), piece[taken..];
      var r, n := Pull(d, supply, left, |piece|);
      supply := [];
      if r.Err? {
        PieceFailed(start, piece, taken, before, messages, d.limits, r.error);
        return messages, Some(r.error);
      }
      Slices(piece, taken, n);
      assert d.pending + supply == d.pending;
      Onward(start, piece, taken, n, before, messages);
      taken := taken + n;
      if r.value.None? {
        assert piece[..taken] == piece;
        return messages, None;
      }
      error := ApplyControlContiguous(d, r.value.value);
      if error.Some? {
        DeadStays(start, piece, taken);
        return;
      }
      messages := messages + [r.value.value];
    }
  }

  lemma HeldBound(d: ContiguousDecoder)
    requires d.Ok()
    ensures d.buffered <= d.limits.maxTracked * d.limits.maxMessageSize
  {
    hide Books, Mirrors, Sized;
    BufferedBound(d.parser.View(), d.partials, d.buffered, d.reserved);
  }

  /** The contiguous decoder receives exactly what the byte-at-a-time machine receives, however the
      stream is cut, unless it reports a resource limit. It reports none if its limits leave room for
      the longest piece besides a whole message on every chunk stream. What it handed out before
      that is the beginning of what the uncut stream yields. */
  method ReceivePiecesContiguous(d: ContiguousDecoder, pieces: seq<seq<byte>>)
      returns (messages: seq<RawMessage>, error: Option<Error>)
    requires d.Ok() && d.pending == []
    modifies d, d.parser, d.parser.scratch
    ensures error.None? ==>
            d.Ok() && d.pending == [] && ReceiveAll(old(HeldBy(d)), Flatten(pieces)) == Live(HeldBy(d), messages)
    ensures error.Some? ==>
              || ReceiveAll(old(HeldBy(d)), Flatten(pieces)) == Dead(error.value, messages)
              || (&& Exceeds(d.limits, error.value) && (exists i :: 0 <= i < |pieces| && !Roomy(d.limits, |pieces[i]|))
                  && messages <= ReceiveAll(old(HeldBy(d)), Flatten(pieces)).messages)
  {
    hide ReceiveAll, Books, Mirrors, Sized, Valid, BodiesOf, AllContiguous;
    ghost var start := HeldBy(d);
    messages := [];
    NothingReceived(start);
    for i := 0 to |pieces|
      invariant d.Ok() && d.pending == []
      invariant ReceiveAll(start, Flatten(pieces[..i])) == Live(HeldBy(d), messages)
    {
      ghost var before := HeldBy(d);
      var more;
      more, error := ReceivePieceContiguous(d, pieces[i]);
      FlattenPrefix(pieces, i);
      ReceiveConcat(start, Flatten(pieces[..i]), pieces[i]);
      messages := messages + more;
      if error.Some? {
        if ReceiveAll(before, pieces[i]).Dead? {
          DeadStays(start, Flatten(pieces), |Flatten(pieces[..i + 1])|);
        }
        SoFar(start, Flatten(pieces), |Flatten(pieces[..i + 1])|);
        return;
      }
    }
    assert pieces[..|pieces|] == pieces;
    error := None;
  }

  lemma FlattenPrefix(pieces: seq<seq<byte>>, i: nat)
    requires i < |pieces|
    ensures Flatten(pieces[..i + 1]) == Flatten(pieces[..i]) + pieces[i]
    ensures |Flatten(pieces[..i + 1])| <= |Flatten(pieces)|
    ensures Flatten(pieces)[..|Flatten(pieces[..i + 1])|] == Flatten(pieces[..i + 1])
  {
    assert pieces[..i + 1] == pieces[..i] + [pieces[i]];
    FlattenConcat(pieces[..i], [pieces[i]]);
    var one := [pieces[i]];
    assert one[1..] == [];
    assert Flatten<byte>([]) == [];
    assert Flatten(one) == pieces[i];
    assert pieces == pieces[..i + 1] + pieces[i + 1..];
    FlattenConcat(pieces[..i + 1], pieces[i + 1..]);
  }
}
