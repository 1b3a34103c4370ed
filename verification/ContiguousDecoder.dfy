/** The contiguous compatibility decoder, which keeps unread input itself. */
module ContiguousDecoderModule {
  import opened Base
  import opened ChunkMachine
  import opened ChunkMachineProofs
  import opened ChunkParserModule
  import opened MessageMachine
  import opened MessageDecoderModule

  ghost predicate AllContiguous(partials: map<nat, Assembly>) {
    forall c :: c in partials ==> partials[c].Contiguous?
  }

  function Wrap(m: Option<RawMessage>): Option<Decoded> {
    if m.Some? then Some(Decoded(m.value.timestamp, m.value.typeId, m.value.streamId, NonemptySegment(m.value.data)))
        else None
  }

  function OneOrNone(m: Option<RawMessage>): seq<RawMessage> {
    if m.Some? then [m.value] else []
  }

  class ContiguousDecoder {
    const parser: ChunkParser
    var pending: seq<byte>
    var partials: map<nat, Assembly>
    var buffered: nat
    var reserved: nat
    const limits: Limits

    ghost predicate Ok()
      reads this, parser, parser.scratch
    {
      && parser.Ok() && parser.limits == limits
      && AllContiguous(partials)
      && Mirrors(parser.View(), BodiesOf(partials))
      && Sized(parser.View(), partials)
      && Books(partials, buffered, reserved, limits)
    }

    constructor (limits: Limits)
      ensures Ok() && this.limits == limits
      ensures parser.View() == Initial(limits) && partials == map[] && pending == []
      ensures fresh(parser) && fresh(parser.scratch)
    {
      parser := new ChunkParser(limits);
      pending := [];
      partials := map[];
      buffered := 0;
      reserved := 0;
      this.limits := limits;
    }

    method SetChunkSize(size: nat) returns (error: Option<Error>)
      requires Ok()
      modifies parser`chunkSize
      ensures Ok()
      ensures error.None? <==> 0 < size <= 0x7fff_ffff && size <= limits.maxChunkSize
      ensures error.Some? ==> error.value == InvalidMaxChunkSize(size)
      ensures error.None? ==> parser.View() == old(parser.View()).(chunkSize := size)
    {
      error := parser.SetChunkSize(size);
    }

    method AbortChunkStream(csid: nat)
      requires Ok()
      modifies this`partials, this`buffered, this`reserved, parser
      ensures Ok() && parser.View() == Aborted(old(parser.View()), csid)
      ensures BodiesOf(partials) == BodiesOf(old(partials)) - {csid}
    {
      hide Books, Mirrors, Sized, Valid, Aborted;
      AbortKeeps(parser.View(), partials, csid);
      parser.AbortChunkStream(csid);
      if csid in partials {
        BooksRemove(partials, buffered, reserved, limits, csid);
        buffered := buffered - partials[csid].Len();
        reserved := reserved - partials[csid].Reserved();
        partials := partials - {csid};
      } else {
        assert partials - {csid} == partials;
      }
    }

    /** Copy a fragment into its message allocation; hand out a completed message. */
    method Assemble(f: Fragment, ghost before: State, ghost after: State) returns (r: Result<Option<RawMessage>, Error>)
      requires limits == before.limits && Books(partials, buffered, reserved, limits) && AllContiguous(partials)
      requires Arrives(before, after, partials, f)
      modifies this`partials, this`buffered, this`reserved
      ensures r.Ok? ==> Books(partials, buffered, reserved, limits) && AllContiguous(partials)
      ensures r.Ok? ==> Absorbed(after, old(partials), f, partials, Wrap(r.value))
      ensures r.Err? ==> Exceeds(limits, r.error) && !Ample(limits)
    {
      hide Arrives, Absorbed, Ample, BodiesOf, Books, Body;
      var csid, complete := f.header.csid, f.IsEnd();
      ArrivesInside(before, after, partials, f);
      if f.offset == 0 && complete {
        WholeAbsorbs(before, after, partials, f);
        return Result.Ok(Some(Message(f.header, f.data)));
      }
      ghost var original := partials;
      if csid !in partials {
        if reserved + f.header.length > limits.maxBuffered {
          ReservationFails(before, after, partials, f, buffered, reserved);
          return Err(LimitExceeded(ReservedBytes, reserved + f.header.length, limits.maxBuffered));
        }
        BooksReplace(partials, buffered, reserved, limits, csid, Contiguous([], f.header.length));
        reserved := reserved + f.header.length;
        partials := partials[csid := Contiguous([], f.header.length)];
      }
      var body := Contiguous(partials[csid].data + f.data, partials[csid].capacity);
      BufferedWithinReserved(partials, buffered, reserved, limits);
      BooksReplace(partials, buffered, reserved, limits, csid, body);
      partials := partials[csid := body];
      buffered := buffered + |f.data|;
      assert partials == original[csid := body];
      StoredAbsorbs(before, after, original, f, body);
      if !complete {
        return Result.Ok(None);
      }
      BooksRemove(partials, buffered, reserved, limits, csid);
      buffered := buffered - body.Len();
      reserved := reserved - body.Reserved();
      partials := partials - {csid};
      assert partials == original - {csid};
      return Result.Ok(Some(Message(f.header, body.data)));
    }

    /** One turn of the loop, as in the owned decoder. */
    method DecodeRound(input: seq<byte>) returns (r: Result<Option<RawMessage>, Error>, consumed: nat, hungry: bool)
      requires Ok()
      modifies this`partials, this`buffered, this`reserved, parser, parser.scratch
      ensures consumed <= |input|
      ensures r.Ok? ==>
                && Ok()
                && Decodes(old(parser.View()), old(BodiesOf(partials)), input[..consumed],
                           parser.View(), BodiesOf(partials), OneOrNone(r.value))
                && (if hungry then r.value.None? && consumed == |input| else consumed > 0)
      ensures r.Err? ==>
                || StopsWith(old(parser.View()), input, r.error)
                || (Exceeds(limits, r.error) && !Ample(limits))
    {
      hide Decodes, Books, Mirrors, Sized, Valid, Delivers, StopsWith, Run, Absorbed, Ample, AllContiguous, BodiesOf;
      ghost var before, held := parser.View(), partials;
      var step := parser.Consume(input);
      if step.Err? {
        return Err(step.error), 0, false;
      }
      consumed := step.value.consumed;
      if step.value.fragment.None? {
        NoFragmentKeeps(before, input[..consumed], parser.View(), partials);
        return Result.Ok(None), consumed, true;
      }
      hungry := false;
      var f := step.value.fragment.value;
      r := Assemble(f, before, parser.View());
      if r.Ok? {
        FragmentKeeps(before, input[..consumed], f, parser.View(), held, partials, Wrap(r.value));
        WrapSame(r.value);
      }
    }

    /** Add input and return the next message. What is consumed has exactly the effect it has
        on the byte-at-a-time machine, and what is not consumed stays pending. */
    method GetNextMessage(bytes: seq<byte>) returns (r: Result<Option<RawMessage>, Error>)
      requires Ok()
      modifies this, parser, parser.scratch
      ensures r.Ok? ==>
                && Ok()
                && |pending| <= |old(pending) + bytes|
                && pending == (old(pending) + bytes)[|old(pending) + bytes| - |pending|..]
                && Decodes(old(parser.View()), old(BodiesOf(partials)),
                     (old(pending) + bytes)[..|old(pending) + bytes| - |pending|],
                           parser.View(), BodiesOf(partials), OneOrNone(r.value))
                && (r.value.None? ==> pending == [])
                && (r.value.Some? ==> |pending| < |old(pending)| + |bytes|)
      ensures r.Err? ==>
                || Fails(old(parser.View()), old(BodiesOf(partials)), old(pending) + bytes, r.error)
                || (Exceeds(limits, r.error)
                     && (old(buffered) + |old(pending)| + |bytes| > limits.maxBuffered || !Ample(limits)))
    {
      hide Decodes, Fails, Books, Mirrors, Sized, Valid, StopsWith, Run, Absorb, Ample, AllContiguous;
      ghost var start, bodies := parser.View(), BodiesOf(partials);
      var attempted := buffered + |pending| + |bytes|;
      if attempted > limits.maxBuffered {
        return Err(LimitExceeded(BufferedBytes, attempted, limits.maxBuffered));
      }
      var input := pending + bytes;
      var offset: nat := 0;
      assert input[..0] == [];
      DecodesNothing(start, bodies);
      while true
        invariant offset <= |input|
        invariant Ok()
        invariant Decodes(start, bodies, input[..offset], parser.View(), BodiesOf(partials), [])
        decreases |input| - offset
      {
        ghost var before, held, done := parser.View(), BodiesOf(partials), input[..offset];
        assert done + input[offset..] == input;
        var consumed, hungry;
        r, consumed, hungry := DecodeRound(input[offset..]);
        if r.Err? {
          if StopsWith(before, input[offset..], r.error) {
            FailsConcat(start, bodies, done, before, held, input[offset..], r.error);
          }
          return;
        }
        DecodesConcat(start, bodies, done, before, held, input[offset..][..consumed], parser.View(),
            BodiesOf(partials), OneOrNone(r.value));
        assert input[..offset + consumed] == done + input[offset..][..consumed];
        offset := offset + consumed;
        if hungry || r.value.Some? {
          break;
        }
      }
      pending := input[offset..];
    }
  }

  lemma WrapSame(m: Option<RawMessage>)
    ensures MessagesOf(Wrap(m)) == OneOrNone(m)
  {
  }

  /** The stored body, if any, is contiguous, ends where the fragment starts, and has room for it. */
  lemma ArrivesInside(before: State, after: State, partials: map<nat, Assembly>, f: Fragment)
    requires Arrives(before, after, partials, f) && AllContiguous(partials)
    ensures var c := f.header.csid;
            && f.offset + |f.data| <= f.header.length
            && (if c in partials then
                  && partials[c].Contiguous? && partials[c].capacity == f.header.length
                  && |partials[c].data| == f.offset && f.offset > 0
                  && Body(BodiesOf(partials), c) == partials[c].data
                else f.offset == 0 && Body(BodiesOf(partials), c) == [])
  {
    ArrivesAtEnd(before, after, partials, f);
    assert forall c :: c in partials ==> c in BodiesOf(partials);
  }

  lemma ReservationFails(before: State, after: State, partials: map<nat, Assembly>, f: Fragment, buffered: nat,
          reserved: nat)
    requires Arrives(before, after, partials, f) && Books(partials, buffered, reserved, before.limits)
    requires f.header.csid !in partials && reserved + f.header.length > before.limits.maxBuffered
    ensures !Ample(before.limits)
  {
    TightNotAmple(before, after, partials, f, buffered, reserved);
  }
}
