/** The tag parser as it runs, on a cursor over a segmented view. What it finds are the parts that the
    bytes of the view alone determine, wherever the segments are cut. */
module FlvCursor {
  import opened Base
  import opened Flv
  import V = PayloadViews

  type View = V.View
  type Found<T> = Result<T, FlvError>

  /** The bytes of a part. */
  ghost function Denote(v: View): seq<byte> {
    if V.Ok(v) then V.Bytes(v) else []
  }

  ghost function PacketBytes(p: Packet<View>): Packet<seq<byte>> {
    match p
    case SequenceStart(d) => SequenceStart(Denote(d))
    case TsSequenceStart(d) => TsSequenceStart(Denote(d))
    case CodedFrames(time, d) => CodedFrames(time, Denote(d))
    case CodedFramesX(d) => CodedFramesX(Denote(d))
    case Metadata(d) => Metadata(Denote(d))
    case Multichannel(n) => Multichannel(n)
    case SequenceEnd => SequenceEnd
    case OtherPacket(t, d) => OtherPacket(t, Denote(d))
  }

  ghost function TrackBytes(t: Track<View>): Track<seq<byte>> {
    Track(t.codec, t.id, PacketBytes(t.packet))
  }

  ghost function TracksBytes(tracks: seq<Track<View>>): seq<Track<seq<byte>>> {
    if tracks == [] then [] else [TrackBytes(tracks[0])] + TracksBytes(tracks[1..])
  }

  lemma {:induction false} TracksAppend(tracks: seq<Track<View>>, t: Track<View>)
    ensures TracksBytes(tracks + [t]) == TracksBytes(tracks) + [TrackBytes(t)]
    decreases |tracks|
  {
    var longer := tracks + [t];
    if tracks == [] {
      assert longer[1..] == [];
    } else {
      assert longer[1..] == tracks[1..] + [t];
      TracksAppend(tracks[1..], t);
    }
  }

  ghost function BodyBytes(b: Body<View>): Body<seq<byte>> {
    match b
    case NoBody => NoBody
    case OnePacket(codec, packet) => OnePacket(codec, PacketBytes(packet))
    case Tracks(tracks) => Tracks(TracksBytes(tracks))
  }

  ghost function TagBytes(t: Tag<View>): Tag<seq<byte>> {
    match t
    case LegacyTag(legacy, data) => LegacyTag(legacy, if data.Some? then Some(Denote(data.value)) else None)
    case Enhanced(frame, header, body) => Enhanced(frame, header, BodyBytes(body))
  }

  /** The method did what the function says: the same value and the same bytes left, or the same error. */
  ghost predicate Reads<T>(f: Read<T>, r: Found<T>, rest: seq<byte>) {
    match f
    case Ok(done) => r == Ok(done.0) && rest == done.1
    case Err(e) => r == Err(e)
  }

  ghost predicate ReadsPart(f: Read<seq<byte>>, r: Found<View>, rest: seq<byte>) {
    match f
    case Ok(done) => r.Ok? && V.Ok(r.value) && V.Bytes(r.value) == done.0 && rest == done.1
    case Err(e) => r == Err(e)
  }

  ghost predicate ReadsPacket(f: Read<Packet<seq<byte>>>, r: Found<Packet<View>>, rest: seq<byte>) {
    match f
    case Ok(done) => r.Ok? && PacketBytes(r.value) == done.0 && rest == done.1
    case Err(e) => r == Err(e)
  }

  class Cursor {
    var raw: View
    var pos: nat

    ghost predicate Valid()
      reads this
    {
      V.Ok(raw) && (if raw.len == 0 then pos == 0 else pos <= |V.Segment(raw, 0)| && pos <= raw.len)
    }

    /** What is still to be parsed. */
    ghost function Rest(): seq<byte>
      reads this
      requires Valid()
    {
      V.Bytes(raw)[pos..]
    }

    constructor (view: View)
      requires V.Ok(view)
      ensures Valid() && Rest() == V.Bytes(view)
    {
      raw, pos := view, 0;
    }

    method Remaining() returns (n: nat)
      requires Valid()
      ensures n == |Rest()|
    {
      return raw.len - pos;
    }

    /** Drop the bytes already read from the view. */
    method Commit()
      requires Valid()
      modifies this
      ensures Valid() && pos == 0 && Rest() == old(Rest())
    {
      if pos != 0 {
        raw := V.Slice(raw, pos, raw.len);
        pos := 0;
      }
    }

    method ReadU8() returns (r: Found<byte>)
      requires Valid()
      modifies this
      ensures Valid() && Reads(U8(old(Rest())), r, Rest())
    {
      hide V.Bytes, V.Segment;
      var left := Remaining();
      if left == 0 {
        return Err(Truncated);
      }
      V.FirstSegment(raw);
      if pos == |V.Segment(raw, 0)| {
        Commit();
        V.FirstSegment(raw);
      }
      var b := V.Segment(raw, 0)[pos];
      pos := pos + 1;
      return Ok(b);
    }

    method ReadU16() returns (r: Found<nat>)
      requires Valid()
      modifies this
      ensures Valid() && Reads(U16(old(Rest())), r, Rest())
    {
      hide Valid, Rest;
      var a :- ReadU8();
      var b :- ReadU8();
      return Ok(256 * a as int + b as int);
    }

    method ReadU24() returns (r: Found<nat>)
      requires Valid()
      modifies this
      ensures Valid() && Reads(U24(old(Rest())), r, Rest())
    {
      hide Valid, Rest;
      var a :- ReadU8();
      var b :- ReadU16();
      return Ok(0x1_0000 * a as int + b);
    }

    method ReadFourCc() returns (r: Found<seq<byte>>)
      requires Valid()
      modifies this
      ensures Valid() && Reads(FourCc(old(Rest())), r, Rest())
    {
      hide Valid, Rest;
      var a :- ReadU8();
      var b :- ReadU8();
      var c :- ReadU8();
      var d :- ReadU8();
      return Ok([a, b, c, d]);
    }

    method TakePart(n: nat) returns (r: Found<View>)
      requires Valid()
      modifies this
      ensures Valid() && ReadsPart(Take(old(Rest()), n), r, Rest())
    {
      hide V.Bytes, V.Segment;
      var left := Remaining();
      if left < n {
        return Err(Truncated);
      }
      Commit();
      var part := V.Slice(raw, 0, n);
      raw := V.Slice(raw, n, raw.len);
      return Ok(part);
    }

    method TakeRest() returns (part: View)
      requires Valid()
      modifies this
      ensures Valid() && V.Ok(part) && V.Bytes(part) == old(Rest()) && Rest() == []
    {
      hide V.Bytes, V.Segment;
      Commit();
      part := raw;
      raw := V.Slice(raw, raw.len, raw.len);
    }

    // ----- enhanced headers --------------------------------------------------------------------------

    method ReadModex() returns (r: Found<(bool, byte)>)
      requires Valid()
      modifies this
      ensures Valid() && Reads(Modex(old(Rest())), r, Rest())
    {
      hide Valid, Rest, U16, V.Bytes, V.Ok;
      var n :- ReadU8();
      var size: nat := n;
      if n == 255 {
        size :- ReadU16();
      }
      var data :- TakePart(size + 1);
      var next :- ReadU8();
      if next / 16 == 0 {
        if data.len < 3 {
          return Err(BadModex);
        }
        return Ok((false, next % 16));
      }
      return Ok((true, next % 16));
    }

    method ReadHeader(kind: Kind, frame: byte, initial: byte) returns (r: Found<Header>)
      requires Valid()
      modifies this
      ensures Valid() && Reads(Flv.ReadHeader(old(Rest()), kind, frame, initial), r, Rest())
    {
      hide Valid, Rest, Modex, FourCc, U8;
      ghost var chain := ModexChain(Rest(), initial, false);
      var packetType, unknown := initial, false;
      while packetType == MODEX
        invariant Valid() && chain == ModexChain(Rest(), packetType, unknown)
        decreases |Rest()|
      {
        var more :- ReadModex();
        packetType, unknown := more.1, unknown || more.0;
      }
      if kind == Video && packetType != 4 && frame == 5 {
        var command :- ReadU8();
        return Ok(Header(packetType, unknown, VideoCommand(command)));
      }
      if packetType == Multitrack(kind) {
        var b :- ReadU8();
        if b % 16 == Multitrack(kind) {
          return Err(NestedMultitrack);
        }
        var content :- ReadContent(b / 16);
        return Ok(Header(b % 16, unknown, content));
      }
      var codec :- ReadFourCc();
      return Ok(Header(packetType, unknown, NoMultitrack(codec)));
    }

    method ReadContent(multitrackType: byte) returns (r: Found<Content>)
      requires Valid()
      modifies this
      ensures Valid() && Reads(MultitrackContent(old(Rest()), multitrackType), r, Rest())
    {
      hide Valid, Rest, FourCc;
      if multitrackType == 2 {
        return Ok(ManyCodecs);
      }
      var codec :- ReadFourCc();
      return Ok(if multitrackType == 0 then OneTrack(codec) else if multitrackType == 1 then ManyTracks(codec)
                else UnknownMultitrack(multitrackType, codec));
    }

    // ----- packets -----------------------------------------------------------------------------------

    method ReadPayload(size: Option<nat>) returns (r: Found<View>)
      requires Valid()
      modifies this
      ensures Valid() && ReadsPart(Flv.Payload(old(Rest()), size), r, Rest())
    {
      hide Valid, Rest, V.Bytes, V.Ok;
      if size.Some? {
        r := TakePart(size.value);
      } else {
        var part := TakeRest();
        r := Ok(part);
      }
    }

    method ReadAudioPacket(packetType: byte, size: Option<nat>) returns (r: Found<Packet<View>>)
      requires Valid()
      modifies this
      ensures Valid() && ReadsPacket(AudioPacket(old(Rest()), packetType, size), r, Rest())
    {
      hide Valid, Rest, U8, Flv.Payload, V.Bytes, V.Ok;
      if packetType == 4 {
        var order :- ReadU8();
        var count :- ReadU8();
        var _ :- TakePart(if order == 2 then count as nat else if order == 1 then 4 else 0);
        return Ok(Multichannel(count));
      }
      if packetType == 2 {
        return Ok(SequenceEnd);
      }
      var data :- ReadPayload(size);
      return Ok(if packetType == 0 then SequenceStart(data) else if packetType == 1 then CodedFrames(0, data)
                else OtherPacket(packetType, data));
    }

    method ReadFramePacket(codec: seq<byte>, size: Option<nat>) returns (r: Found<Packet<View>>)
      requires Valid()
      modifies this
      ensures Valid() && ReadsPacket(FramePacket(old(Rest()), codec, size), r, Rest())
    {
      hide Valid, Rest, U24, Flv.Payload, V.Bytes, V.Ok;
      if codec == AVC || codec == HEVC || codec == VVC {
        var time :- ReadU24();
        if size.Some? && size.value < 3 {
          return Err(ShortFrame);
        }
        var data :- ReadPayload(if size.Some? then Some(size.value - 3) else None);
        return Ok(CodedFrames(SignExtend(time), data));
      }
      var data :- ReadPayload(size);
      return Ok(CodedFrames(0, data));
    }

    method ReadVideoPacket(packetType: byte, codec: seq<byte>, size: Option<nat>) returns (r: Found<Packet<View>>)
      requires Valid()
      modifies this
      ensures Valid() && ReadsPacket(VideoPacket(old(Rest()), packetType, codec, size), r, Rest())
    {
      hide Valid, Rest, Flv.Payload, FramePacket, GoodConfig, V.Bytes, V.Ok;
      if packetType == 2 {
        return Ok(SequenceEnd);
      }
      if packetType == 1 {
        r := ReadFramePacket(codec, size);
        return;
      }
      var data :- ReadPayload(size);
      if packetType == 0 {
        var first := Leading(data);
        if !GoodConfig(codec, data.len, first) {
          return Err(BadConfig);
        }
        return Ok(SequenceStart(data));
      }
      return Ok(if packetType == 4 then Metadata(data) else if packetType == 5 then TsSequenceStart(data)
                else if packetType == 3 then CodedFramesX(data) else OtherPacket(packetType, data));
    }

    /** The first byte of a part, if it has one. */
    method Leading(part: View) returns (b: byte)
      requires V.Ok(part)
      ensures b == FirstByte(V.Bytes(part))
    {
      hide V.Bytes, V.Segment;
      if part.len == 0 {
        return 0;
      }
      V.FirstSegment(part);
      return V.Segment(part, 0)[0];
    }

    method ReadPacket(kind: Kind, packetType: byte, codec: seq<byte>, sized: bool) returns (r: Found<Packet<View>>)
      requires Valid()
      modifies this
      ensures Valid() && ReadsPacket(Flv.ReadPacket(old(Rest()), kind, packetType, codec, sized), r, Rest())
    {
      hide Valid, Rest, U24, AudioPacket, VideoPacket, PacketBytes;
      var size: Option<nat> := None;
      if sized {
        var n :- ReadU24();
        size := Some(n);
      }
      if kind == Audio {
        r := ReadAudioPacket(packetType, size);
      } else {
        r := ReadVideoPacket(packetType, codec, size);
      }
    }

    method ReadTrack(kind: Kind, header: Header) returns (r: Found<Track<View>>)
      requires Valid() && !header.content.VideoCommand? && !header.content.NoMultitrack?
      modifies this
      ensures Valid()
      ensures match Flv.ReadTrack(old(Rest()), kind, header)
              case Ok(done) => r.Ok? && TrackBytes(r.value) == done.0 && Rest() == done.1
              case Err(e) => r == Err(e)
    {
      hide Valid, Rest, U8, FourCc, Flv.ReadPacket, PacketBytes;
      var codec;
      if header.content.ManyCodecs? {
        codec :- ReadFourCc();
      } else {
        codec := header.content.codec;
      }
      var id :- ReadU8();
      var packet :- ReadPacket(kind, header.packetType, codec, !header.content.OneTrack?);
      return Ok(Track(codec, id, packet));
    }

    method ReadTracks(kind: Kind, header: Header) returns (r: Found<seq<Track<View>>>)
      requires Valid() && !header.content.VideoCommand? && !header.content.NoMultitrack?
      modifies this
      ensures Valid()
      ensures match Flv.ReadTracks(old(Rest()), kind, header)
              case Ok(done) => r.Ok? && TracksBytes(r.value) == done.0 && Rest() == done.1
              case Err(e) => r == Err(e)
    {
      hide Valid, Rest, Flv.ReadTrack, TrackBytes;
      ghost var all := Flv.ReadTracks(Rest(), kind, header);
      var tracks := [];
      TracksNone(all);
      while true
        invariant Valid() && TracksLeft(all, tracks, Flv.ReadTracks(Rest(), kind, header))
        decreases |Rest()|
      {
        ghost var before := Rest();
        var track :- ReadTrack(kind, header);
        TracksStep(all, tracks, track, before, kind, header);
        tracks := tracks + [track];
        var left := Remaining();
        if header.content.OneTrack? || left == 0 {
          break;
        }
      }
      return Ok(tracks);
    }
  }

  /** The tracks read so far, followed by those to come, are all. */
  ghost predicate TracksLeft(all: Read<seq<Track<seq<byte>>>>, tracks: seq<Track<View>>,
          later: Read<seq<Track<seq<byte>>>>) {
    match later
    case Ok(done) => all == Ok((TracksBytes(tracks) + done.0, done.1))
    case Err(e) => all == Err(e)
  }

  lemma TracksNone(all: Read<seq<Track<seq<byte>>>>)
    ensures TracksLeft(all, [], all)
  {
    if all.Ok? {
      assert [] + all.value.0 == all.value.0;
    }
  }

  lemma TracksStep(all: Read<seq<Track<seq<byte>>>>, tracks: seq<Track<View>>, track: Track<View>, s: seq<byte>,
          kind: Kind, header: Header)
    requires !header.content.VideoCommand? && !header.content.NoMultitrack?
    requires TracksLeft(all, tracks, Flv.ReadTracks(s, kind, header))
    requires Flv.ReadTrack(s, kind, header).Ok? && Flv.ReadTrack(s, kind, header).value.0 == TrackBytes(track)
    ensures var rest := Flv.ReadTrack(s, kind, header).value.1;
            if header.content.OneTrack? || rest == [] then all == Ok((TracksBytes(tracks + [track]), rest))
            else TracksLeft(all, tracks + [track], Flv.ReadTracks(rest, kind, header))
  {
    hide Flv.ReadTrack, TrackBytes;
    TracksAppend(tracks, track);
    var (one, rest) := Flv.ReadTrack(s, kind, header).value;
    if !(header.content.OneTrack? || rest == []) {
      var later := Flv.ReadTracks(rest, kind, header);
      if later.Ok? {
        assert TracksBytes(tracks) + ([one] + later.value.0) == TracksBytes(tracks) + [one] + later.value.0;
      }
    }
  }

  // ----- tags --------------------------------------------------------------------------------------------

  method ReadBody(cursor: Cursor, kind: Kind, header: Header) returns (r: Found<Body<View>>)
    requires cursor.Valid()
    modifies cursor
    ensures match Flv.ReadBody(old(cursor.Rest()), kind, header)
            case Ok(done) => r.Ok? && BodyBytes(r.value) == done.0
            case Err(e) => r == Err(e)
  {
    hide Cursor.Valid, Cursor.Rest, Flv.ReadTracks, Flv.ReadPacket, PacketBytes, TracksBytes;
    match header.content {
    case VideoCommand(_) => return Ok(NoBody);
    case NoMultitrack(codec) =>
      var packet :- cursor.ReadPacket(kind, header.packetType, codec, false);
      return Ok(OnePacket(codec, packet));
    case _ =>
      var tracks :- cursor.ReadTracks(kind, header);
      return Ok(Tracks(tracks));
    }
  }

  method ReadLegacy(cursor: Cursor, kind: Kind, first: byte) returns (r: Found<Tag<View>>)
    requires cursor.Valid()
    modifies cursor
    ensures match Flv.ReadLegacy(old(cursor.Rest()), kind, first)
            case Ok(tag) => r.Ok? && TagBytes(r.value) == tag
            case Err(e) => r == Err(e)
  {
    hide Cursor.Valid, Cursor.Rest, U8, U24, GoodConfig, V.Bytes, V.Ok;
    if kind == Audio {
      if first / 16 == 10 {
        var packetType :- cursor.ReadU8();
        var data := cursor.TakeRest();
        return Ok(LegacyTag(Aac(first, packetType), Some(data)));
      }
      var data := cursor.TakeRest();
      return Ok(LegacyTag(PlainAudio(first), Some(data)));
    }
    if first % 16 == 7 {
      var packetType :- cursor.ReadU8();
      var time :- cursor.ReadU24();
      var data := cursor.TakeRest();
      if packetType == 0 {
        var leading := cursor.Leading(data);
        if !GoodConfig(AVC, data.len, leading) {
          return Err(BadConfig);
        }
      }
      return Ok(LegacyTag(Avc(first, packetType, AvcTime(packetType, time)), Some(data)));
    }
    if first / 16 % 8 == 5 {
      var command :- cursor.ReadU8();
      return Ok(LegacyTag(LegacyCommand(first, command), None));
    }
    var data := cursor.TakeRest();
    return Ok(LegacyTag(PlainVideo(first), Some(data)));
  }

  /** Parsing a view, however it is segmented, is parsing its bytes: the same tag with the same parts,
      or the same error. */
  method DemuxView(view: View, kind: Kind) returns (r: Found<Tag<View>>)
    requires V.Ok(view)
    ensures match Demux(V.Bytes(view), kind)
            case Ok(tag) => r.Ok? && TagBytes(r.value) == tag
            case Err(e) => r == Err(e)
  {
    hide Cursor.Valid, Cursor.Rest, U8, Flv.ReadLegacy, Flv.ReadHeader, Flv.ReadBody, V.Bytes, V.Ok;
    var cursor := new Cursor(view);
    var first :- cursor.ReadU8();
    if (if kind == Audio then first / 16 != 9 else first < 0x80) {
      r := ReadLegacy(cursor, kind, first);
      return;
    }
    var frame: byte := if kind == Audio then 0 else first / 16 % 8;
    var header :- cursor.ReadHeader(kind, frame, first % 16);
    var body :- ReadBody(cursor, kind, header);
    return Ok(Enhanced(frame, header, body));
  }
}
