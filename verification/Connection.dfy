/** A whole connection in one direction, from the encoder at one end to the decoder at the other. */
module Connection {
  import opened Base
  import opened ChunkMachine
  import opened MessageDecoderModule
  import opened Receiving
  import opened ChunkEncoderModule
  import opened PacketModule
  import opened RoundTrip
  import opened SentLog
  import Encoding

  /** What a sender does: encode a message and send or drop its packet, or change the chunk size. */
  datatype Request = SendMessage(m: Decoded, options: Options, sent: bool) | ChangeChunkSize(size: u32, time: u32)

  function ActionOf(r: Request): Action {
    match r
    case SendMessage(m, options, sent) => Send(m.Whole(), options, sent)
    case ChangeChunkSize(size, time) => Resize(size, time)
  }

  function ActionsOf(rs: seq<Request>): (r: seq<Action>)
    ensures |r| == |rs| && forall i :: 0 <= i < |rs| ==> r[i] == ActionOf(rs[i])
  {
    if rs == [] then [] else [ActionOf(rs[0])] + ActionsOf(rs[1..])
  }

  lemma {:induction false} TransmittedAppend(enc: Encoder, actions: seq<Action>, a: Action)
    requires enc.chunkSize > 0
    ensures EncoderAtEnd(enc, actions).chunkSize > 0
    ensures EncoderAtEnd(enc, actions + [a]) == EncoderAfter(EncoderAtEnd(enc, actions), a)
    ensures var mid := EncoderAtEnd(enc, actions);
            Perform(mid, a).Ok? ==> Perform(mid, a).value.1.chunkSize > 0
    ensures var mid := EncoderAtEnd(enc, actions);
            Transmitted(enc, actions + [a]) ==
                Transmitted(enc, actions) + (if Transmits(mid, a) then Wire(Perform(mid, a).value.1) else [])
    decreases |actions|
  {
    hide Perform, Wire;
    var longer := actions + [a];
    if actions == [] {
      assert longer == [a] && longer[1..] == [];
      ActionKeepsSize(enc, a);
    } else {
      assert longer[1..] == actions[1..] + [a];
      ActionKeepsSize(enc, actions[0]);
      TransmittedAppend(EncoderAfter(enc, actions[0]), actions[1..], a);
    }
  }

  /** Carry out one request: the bytes that leave are those of its packet, if it is sent. */
  method Carry(encoder: Encoding.ChunkEncoder, request: Request, bytes: seq<byte>) returns (out: seq<byte>)
    requires encoder.Ok() && (request.SendMessage? ==> [] !in request.m.payload)
    modifies encoder, encoder.previous
    ensures encoder.Ok() && encoder.View() == EncoderAfter(old(encoder.View()), ActionOf(request))
    ensures var a := ActionOf(request);
            out == bytes + (if Transmits(old(encoder.View()), a)
                && Perform(old(encoder.View()), a).value.1.chunkSize > 0
                            then Wire(Perform(old(encoder.View()), a).value.1) else [])
  {
    hide Encode, EncodeChunkSize, Wire, Packet.Ok, Packet.Left;
    match request
    case SendMessage(m, options, sent) =>
      var r := encoder.EncodeMessage(m, options);
      if r.Ok? && sent {
        out := r.value.CopyTo(bytes);
      } else {
        out := bytes;
      }
    case ChangeChunkSize(size, time) =>
      var r := encoder.SetChunkSize(size, time);
      if r.Ok? {
        out := r.value.CopyTo(bytes);
      } else {
        out := bytes;
      }
  }

  method TransmitAll(requests: seq<Request>) returns (bytes: seq<byte>)
    requires forall i :: 0 <= i < |requests| && requests[i].SendMessage? ==> [] !in requests[i].m.payload
    ensures bytes == Transmitted(NewEncoder, ActionsOf(requests))
  {
    hide Perform, Wire, Transmitted, EncoderAtEnd;
    var encoder := new Encoding.ChunkEncoder();
    bytes := [];
    NothingSent();
    for i := 0 to |requests|
      invariant encoder.Ok() && fresh(encoder.previous)
      invariant encoder.View() == EncoderAtEnd(NewEncoder, ActionsOf(requests)[..i])
      invariant bytes == Transmitted(NewEncoder, ActionsOf(requests)[..i])
    {
      ghost var actions := ActionsOf(requests);
      assert actions[..i + 1] == actions[..i] + [actions[i]];
      TransmittedAppend(NewEncoder, actions[..i], actions[i]);
      bytes := Carry(encoder, requests[i], bytes);
    }
    assert ActionsOf(requests)[..|requests|] == ActionsOf(requests);
  }

  lemma NothingSent()
    ensures EncoderAtEnd(NewEncoder, []) == NewEncoder && Transmitted(NewEncoder, []) == []
  {
  }

  /** The size of a piece of input, and whether the decoder may keep it. */
  datatype Cutting = Cutting(size: nat, owned: bool)

  function InputOf(bytes: seq<byte>, owned: bool): (input: Input)
    ensures input.bytes == bytes
  {
    if owned then Owned(bytes) else Borrowed(bytes)
  }

  /** Cut a byte stream into pieces of the given sizes and kinds; what is left over comes last. */
  method Cut(bytes: seq<byte>, cuts: seq<Cutting>, last: bool) returns (pieces: seq<Input>)
    ensures AllBytes(pieces) == bytes && |pieces| == |cuts| + 1
    ensures forall i :: 0 <= i < |cuts| ==> (pieces[i].Owned? <==> cuts[i].owned) && |pieces[i].bytes| <= cuts[i].size
    ensures pieces[|cuts|].Owned? <==> last
  {
    hide AllBytes;
    pieces := [];
    var rest := bytes;
    NoPieces(bytes);
    for i := 0 to |cuts|
      invariant AllBytes(pieces) + rest == bytes && |pieces| == i
      invariant forall k :: 0 <= k < i ==> (pieces[k].Owned? <==> cuts[k].owned) && |pieces[k].bytes| <= cuts[k].size
    {
      var n := Min(cuts[i].size, |rest|);
      var piece := InputOf(rest[..n], cuts[i].owned);
      PieceAdded(pieces, piece);
      Rejoin(AllBytes(pieces), rest, n);
      pieces := pieces + [piece];
      rest := rest[n..];
    }
    PieceAdded(pieces, InputOf(rest, last));
    pieces := pieces + [InputOf(rest, last)];
  }

  lemma NoPieces(bytes: seq<byte>)
    ensures AllBytes([]) + bytes == bytes
  {
  }

  lemma Rejoin(a: seq<byte>, rest: seq<byte>, n: nat)
    requires n <= |rest|
    ensures a + rest[..n] + rest[n..] == a + rest
  {
    assert rest[..n] + rest[n..] == rest;
  }

  lemma PieceAdded(pieces: seq<Input>, p: Input)
    ensures AllBytes(pieces + [p]) == AllBytes(pieces) + p.bytes
  {
    var one := [p];
    AllBytesConcat(pieces, one);
    assert one[1..] == [];
    assert AllBytes(one) == p.bytes + AllBytes(one[1..]);
  }

  /** End to end: for every proper run of requests, with any droppable packets withheld, any chunk-size
      changes, and any cutting of the byte stream into owned and borrowed pieces, the decoder delivers
      exactly the messages of the packets that were sent, in order. */
  method EndToEnd(requests: seq<Request>, limits: Limits, cuts: seq<Cutting>, last: bool)
      returns (messages: seq<Decoded>)
    requires forall i :: 0 <= i < |requests| && requests[i].SendMessage? ==> [] !in requests[i].m.payload
    requires Admits(limits) && Ample(limits) && ProperRun(NewEncoder, limits, ActionsOf(requests))
    ensures Wholes(messages) == Messages(NewEncoder, ActionsOf(requests))
  {
    hide Ample, ProperRun, Transmitted, Messages, Wholes;
    var bytes := TransmitAll(requests);
    var pieces := Cut(bytes, cuts, last);
    messages := ConnectionDecodes(limits, ActionsOf(requests), pieces);
  }
}
