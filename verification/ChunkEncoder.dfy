/** The header-compressing chunk encoder and the flat wire image of the packets it plans. */
module ChunkEncoderModule {
  import opened Base
  import opened MessageMachine

  datatype ChunkHeader = ChunkHeader(
    csid: nat,
    timestamp: u32,
    field: u32,
    length: u24,
    typeId: byte,
    streamId: u32,
    droppable: bool)

  /** 0: full, 1: delta without stream ID, 2: delta only, 3: nothing. */
  type Format = f: nat | f <= 3

  datatype EncodeError = MessageTooLong(size: nat) | InvalidChunkSize(size: nat)

  /** Bytes of one chunk header. */
  function HeaderBytes(h: ChunkHeader, fmt: Format): (s: seq<byte>)
    requires h.csid < 64
    ensures 1 <= |s| <= 18
  {
    BeforeExtended(h, fmt) + (if h.field >= MAX24 then Be32(h.field) else [])
  }

  /** The part of a header before the extended timestamp. */
  function BeforeExtended(h: ChunkHeader, fmt: Format): (s: seq<byte>)
    requires h.csid < 64
    ensures 1 <= |s| <= 14
  {
    [fmt * 64 + h.csid]
    + (if fmt <= 2 then Be24(Min(h.field, MAX24)) else [])
    + (if fmt <= 1 then Be24(h.length) else [])
    + (if fmt <= 1 then [h.typeId] else [])
    + (if fmt == 0 then Le32(h.streamId) else [])
  }

  function CsidFor(typeId: byte): (c: nat)
    ensures 2 <= c <= 6
  {
    if 1 <= typeId <= 6 then 2
    else if typeId == 18 || typeId == 19 then 3
    else if typeId == 9 then 4
    else if typeId == 8 then 5
    else 6
  }

  /** Encoder state: the last header sent on each chunk stream, and the chunk size. */
  datatype Encoder = Encoder(slots: map<nat, ChunkHeader>, chunkSize: nat)

  const NewEncoder := Encoder(map[], 128)

  datatype Options = Options(full: bool, droppable: bool)

  /** A packet as planned: headers, payload and the chunk size in force. */
  datatype Plan = Plan(first: seq<byte>, continuation: seq<byte>, chunkSize: nat, droppable: bool, payload: seq<byte>)

  /** True if the slot's header may be relied on when compressing `m`. */
  predicate Compressible(enc: Encoder, m: RawMessage, options: Options) {
    var c := CsidFor(m.typeId);
    !options.full && c in enc.slots && !enc.slots[c].droppable && enc.slots[c].streamId == m.streamId
  }

  function NextHeader(enc: Encoder, m: RawMessage, options: Options): ChunkHeader
    requires |m.data| <= MAX24
  {
    var c := CsidFor(m.typeId);
    var field := if Compressible(enc, m, options) then Sub32(m.timestamp, enc.slots[c].timestamp) else m.timestamp;
    ChunkHeader(c, m.timestamp, field, |m.data|, m.typeId, m.streamId, options.droppable)
  }

  function NextFormat(enc: Encoder, m: RawMessage, options: Options): Format
    requires |m.data| <= MAX24
  {
    if !Compressible(enc, m, options) then 0
    else
      var previous, header := enc.slots[CsidFor(m.typeId)], NextHeader(enc, m, options);
      if previous.typeId != m.typeId || previous.length != header.length then 1
      else if previous.field != header.field then 2
      else 3
  }

  function Encode(enc: Encoder, m: RawMessage, options: Options): Result<(Encoder, Plan), EncodeError> {
    if |m.data| > MAX24 then Err(MessageTooLong(Min(|m.data|, 0xffff_ffff)))
    else
      var header := NextHeader(enc, m, options);
      Ok((enc.(slots := enc.slots[header.csid := header]),
          Plan(HeaderBytes(header, NextFormat(enc, m, options)),
               HeaderBytes(header, if options.full then 0 else 3),
               enc.chunkSize, options.droppable, m.data)))
  }

  function ChunkSizeMessage(size: u32, time: u32): RawMessage {
    RawMessage(time, TYPE_SET_CHUNK_SIZE, 0, Be32(size))
  }

  function EncodeChunkSize(enc: Encoder, size: u32, time: u32): Result<(Encoder, Plan), EncodeError> {
    if size == 0 || size > 0x7fff_ffff then Err(InvalidChunkSize(size))
    else
      match Encode(enc, ChunkSizeMessage(size, time), Options(true, false))
      case Err(e) => Err(e)
      case Ok((next, plan)) => Ok((next.(chunkSize := size), plan))
  }

  // ----- wire image ------------------------------------------------------------

  /** Chunk-size pieces of the payload, each behind its header. */
  function Image(header: seq<byte>, continuation: seq<byte>, size: nat, payload: seq<byte>): seq<byte>
    requires size > 0
    decreases |payload|
  {
    if |payload| <= size then header + payload
    else header + payload[..size] + Image(continuation, continuation, size, payload[size..])
  }

  function Wire(p: Plan): seq<byte>
    requires p.chunkSize > 0
  {
    Image(p.first, p.continuation, p.chunkSize, p.payload)
  }

  // ----- inline headers ---------------------------------------------------------

  /** A chunk header in a fixed buffer. */
  class InlineHeader {
    const bytes: array<byte>
    var len: nat

    ghost predicate Ok()
      reads this
    {
      bytes.Length == 18 && len <= 18
    }

    ghost function Contents(): seq<byte>
      reads this, bytes
      requires Ok()
    {
      bytes[..len]
    }

    constructor ()
      ensures Ok() && Contents() == [] && fresh(bytes)
    {
      bytes := new byte[18](_ => 0);
      len := 0;
    }

    method Push(more: seq<byte>)
      requires Ok() && len + |more| <= 18
      modifies this`len, bytes
      ensures Ok() && Contents() == old(Contents()) + more
    {
      forall i | 0 <= i < |more| {
        bytes[len + i] := more[i];
      }
      len := len + |more|;
    }
  }

  /** Write a header field by field, in the order of the format. */
  method EncodeHeader(h: ChunkHeader, fmt: Format) returns (s: seq<byte>)
    requires h.csid < 64
    ensures s == HeaderBytes(h, fmt)
  {
    hide Be24, Le32, Be32;
    var out := new InlineHeader();
    out.Push([fmt * 64 + h.csid]);
    ghost var s0 := out.Contents();
    if fmt != 3 {
      out.Push(Be24(Min(h.field, MAX24)));
      if fmt != 2 {
        out.Push(Be24(h.length));
        out.Push([h.typeId]);
        if fmt == 0 {
          out.Push(Le32(h.streamId));
        }
      }
    }
    assert out.Contents() == BeforeExtended(h, fmt);
    if h.field >= MAX24 {
      out.Push(Be32(h.field));
    }
    s := out.bytes[..out.len];
  }
}
