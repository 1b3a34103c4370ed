/** The stateful encoder, one per outbound connection, proved against its functional description. */
module Encoding {
  import opened Base
  import opened MessageMachine
  import opened MessageDecoderModule
  import opened ChunkEncoderModule
  import opened PacketModule

  predicate Filled(slots: seq<Option<ChunkHeader>>, c: nat)
    requires |slots| == 5
  {
    2 <= c <= 6 && slots[c - 2].Some?
  }

  /** The remembered headers by chunk stream ID. */
  ghost function SlotsOf(slots: seq<Option<ChunkHeader>>): map<nat, ChunkHeader>
    requires |slots| == 5
  {
    map c: nat | c <= 6 && Filled(slots, c) :: slots[c - 2].value
  }

  lemma SlotsUpdate(slots: seq<Option<ChunkHeader>>, c: nat, h: ChunkHeader)
    requires |slots| == 5 && 2 <= c <= 6
    ensures SlotsOf(slots[c - 2 := Some(h)]) == SlotsOf(slots)[c := h]
    ensures c in SlotsOf(slots) <==> slots[c - 2].Some?
    ensures c in SlotsOf(slots) ==> SlotsOf(slots)[c] == slots[c - 2].value
  {
  }

  class ChunkEncoder {
    const previous: array<Option<ChunkHeader>>
    var maxChunkSize: nat

    ghost predicate Ok()
      reads this, previous
    {
      previous.Length == 5 && maxChunkSize > 0
    }

    ghost function View(): Encoder
      reads this, previous
      requires Ok()
    {
      Encoder(SlotsOf(previous[..]), maxChunkSize)
    }

    constructor ()
      ensures Ok() && View() == NewEncoder && fresh(previous)
    {
      previous := new Option<ChunkHeader>[5](_ => None);
      maxChunkSize := 128;
    }

    /** Plan a packet for a message and remember its header for the next one. */
    method EncodeMessage(m: Decoded, options: Options) returns (r: Result<Packet, EncodeError>)
      requires Ok() && [] !in m.payload
      modifies previous
      ensures Ok()
      ensures r.Err? ==> View() == old(View()) && Encode(old(View()), m.Whole(), options) == Err(r.error)
      ensures r.Ok? ==>
                && fresh(r.value) && r.value.Ok() && r.value.droppable == options.droppable
                && Encode(old(View()), m.Whole(), options).Ok?
                && var (next, plan) := Encode(old(View()), m.Whole(), options).value;
                   View() == next && plan.chunkSize > 0 && r.value.Left() == Wire(plan)
    {
      hide HeaderBytes, Image, Flatten, SlotsOf;
      var length := |Flatten(m.payload)|;
      if length > MAX24 {
        return Err(MessageTooLong(Min(length, 0xffff_ffff)));
      }
      var csid := CsidFor(m.typeId);
      var slot := previous[csid - 2];
      var header := ChunkHeader(csid, m.timestamp, m.timestamp, length, m.typeId, m.streamId, options.droppable);
      var fmt: Format := 0;
      if slot.Some? && !options.full && !slot.value.droppable && slot.value.streamId == m.streamId {
        header := header.(field := Sub32(m.timestamp, slot.value.timestamp));
        if slot.value.typeId != m.typeId || slot.value.length != length {
          fmt := 1;
        } else if slot.value.field != header.field {
          fmt := 2;
        } else {
          fmt := 3;
        }
      }
      SlotsUpdate(previous[..], csid, header);
      assert header == NextHeader(View(), m.Whole(), options) && fmt == NextFormat(View(), m.Whole(), options);
      var first := EncodeHeader(header, fmt);
      var continuation := EncodeHeader(header, if options.full then 0 else 3);
      previous[csid - 2] := Some(header);
      assert previous[..] == old(previous[..])[csid - 2 := Some(header)];
      var packet := new Packet(Frame(m.payload, first, continuation, maxChunkSize), options.droppable);
      return Result.Ok(packet);
    }

    /** Announce a new chunk size with the old one in force, then adopt it. */
    method SetChunkSize(size: u32, time: u32) returns (r: Result<Packet, EncodeError>)
      requires Ok()
      modifies this, previous
      ensures Ok()
      ensures r.Err? ==> View() == old(View()) && EncodeChunkSize(old(View()), size, time) == Err(r.error)
      ensures r.Ok? ==>
                && fresh(r.value) && r.value.Ok() && !r.value.droppable
                && EncodeChunkSize(old(View()), size, time).Ok?
                && var (next, plan) := EncodeChunkSize(old(View()), size, time).value;
                   View() == next && plan.chunkSize > 0 && r.value.Left() == Wire(plan)
    {
      if size == 0 || size > 0x7fff_ffff {
        return Err(InvalidChunkSize(size));
      }
      var m := Decoded(time, TYPE_SET_CHUNK_SIZE, 0, NonemptySegment(Be32(size)));
      assert m.Whole() == ChunkSizeMessage(size, time);
      r := EncodeMessage(m, Options(true, false));
      if r.Ok? {
        maxChunkSize := size;
      }
    }
  }
}
