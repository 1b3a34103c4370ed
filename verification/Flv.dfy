/** FLV audio and video tags, legacy and enhanced, as functions of their bytes. Payloads are parts of
    the tag; `P` is how a part is held. */
module Flv {
  import opened Base

  datatype FlvError = Truncated | BadModex | NestedMultitrack | BadConfig | ShortFrame

  type Read<T> = Result<(T, seq<byte>), FlvError>

  datatype Kind = Audio | Video

  datatype Packet<P> =
    | SequenceStart(data: P)
    | TsSequenceStart(data: P)
    | CodedFrames(time: int, data: P)
    | CodedFramesX(data: P)
    | Metadata(data: P)
    | Multichannel(count: byte)
    | SequenceEnd
    | OtherPacket(packetType: byte, data: P)

  datatype Content =
    | VideoCommand(command: byte)
    | NoMultitrack(codec: seq<byte>)
    | OneTrack(codec: seq<byte>)
    | ManyTracks(codec: seq<byte>)
    | ManyCodecs
    | UnknownMultitrack(multitrackType: byte, codec: seq<byte>)

  datatype Header = Header(packetType: byte, unknownModex: bool, content: Content)

  datatype Track<P> = Track(codec: seq<byte>, id: byte, packet: Packet<P>)

  datatype Body<P> = NoBody | OnePacket(codec: seq<byte>, packet: Packet<P>) | Tracks(tracks: seq<Track<P>>)

  datatype Legacy = PlainAudio(first: byte) | Aac(first: byte, packetType: byte)
    | PlainVideo(first: byte) | LegacyCommand(first: byte, command: byte) | Avc(first: byte, packetType: byte,
        time: int)

  datatype Tag<P> = LegacyTag(legacy: Legacy, data: Option<P>) | Enhanced(frame: byte, header: Header, body: Body<P>)

  const MODEX: byte := 7

  function Multitrack(kind: Kind): byte {
    if kind == Audio then 5 else 6
  }

  // ----- fields --------------------------------------------------------------------------------------

  function U8(s: seq<byte>): (r: Read<byte>)
    ensures r.Ok? ==> |r.value.1| < |s|
  {
    if s == [] then Err(Truncated) else Ok((s[0], s[1..]))
  }

  function U16(s: seq<byte>): (r: Read<nat>)
    ensures r.Ok? ==> |r.value.1| < |s|
  {
    var (a, s1) :- U8(s);
    var (b, s2) :- U8(s1);
    Ok((256 * a as int + b as int, s2))
  }

  function U24(s: seq<byte>): (r: Read<nat>)
    ensures r.Ok? ==> |r.value.1| < |s| && r.value.0 < 0x100_0000
  {
    var (a, s1) :- U8(s);
    var (b, s2) :- U16(s1);
    Ok((0x1_0000 * a as int + b, s2))
  }

  /** Composition times are signed. */
  function SignExtend(n: nat): int
    requires n < 0x100_0000
  {
    if n >= 0x80_0000 then n - 0x100_0000 else n
  }

  function FourCc(s: seq<byte>): (r: Read<seq<byte>>)
    ensures r.Ok? ==> |r.value.1| < |s|
  {
    var (a, s1) :- U8(s);
    var (b, s2) :- U8(s1);
    var (c, s3) :- U8(s2);
    var (d, s4) :- U8(s3);
    Ok(([a, b, c, d], s4))
  }

  function Take(s: seq<byte>, n: nat): (r: Read<seq<byte>>)
    ensures r.Ok? ==> |r.value.1| <= |s|
  {
    if |s| < n then Err(Truncated) else Ok((s[..n], s[n..]))
  }

  // ----- enhanced headers ----------------------------------------------------------------------------

  /** One modifier extension: whether it is unknown, and the packet type that follows. */
  function Modex(s: seq<byte>): (r: Read<(bool, byte)>)
    ensures r.Ok? ==> |r.value.1| < |s|
  {
    var (n, s1) :- U8(s);
    var (size, s2) :- if n == 255 then U16(s1) else Ok((n as nat, s1));
    var (_, s3) :- Take(s2, size + 1);
    var (next, s4) :- U8(s3);
    if next / 16 == 0 && size + 1 < 3 then Err(BadModex)
    else Ok(((next / 16 != 0, next % 16), s4))
  }

  /** Modifier extensions up to another packet type. */
  function ModexChain(s: seq<byte>, packetType: byte, unknown: bool): (r: Read<(byte, bool)>)
    ensures r.Ok? ==> |r.value.1| <= |s|
    decreases |s|
  {
    if packetType != MODEX then Ok(((packetType, unknown), s))
    else
      var ((more, next), s1) :- Modex(s);
      ModexChain(s1, next, unknown || more)
  }

  function MultitrackContent(s: seq<byte>, multitrackType: byte): (r: Read<Content>)
    ensures r.Ok? ==> |r.value.1| <= |s|
  {
    if multitrackType == 2 then Ok((ManyCodecs, s))
    else
      var (codec, s1) :- FourCc(s);
      Ok((if multitrackType == 0 then OneTrack(codec) else if multitrackType == 1 then ManyTracks(codec)
          else UnknownMultitrack(multitrackType, codec), s1))
  }

  function ReadHeader(s: seq<byte>, kind: Kind, frame: byte, initial: byte): (r: Read<Header>)
    ensures r.Ok? ==> |r.value.1| <= |s|
  {
    var ((packetType, unknown), s1) :- ModexChain(s, initial, false);
    if kind == Video && packetType != 4 && frame == 5 then
      var (command, s2) :- U8(s1);
      Ok((Header(packetType, unknown, VideoCommand(command)), s2))
    else if packetType == Multitrack(kind) then
      var (b, s2) :- U8(s1);
      if b % 16 == Multitrack(kind) then Err(NestedMultitrack)
      else
        var (content, s3) :- MultitrackContent(s2, b / 16);
        Ok((Header(b % 16, unknown, content), s3))
    else
      var (codec, s2) :- FourCc(s1);
      Ok((Header(packetType, unknown, NoMultitrack(codec)), s2))
  }

  // ----- packets ---------------------------------------------------------------------------------------

  /** The payload of a packet: as long as announced, or all that is left. */
  function Payload(s: seq<byte>, size: Option<nat>): (r: Read<seq<byte>>)
    ensures r.Ok? ==> |r.value.1| <= |s|
  {
    if size.Some? then Take(s, size.value) else Ok((s, []))
  }

  const AVC := [0x61, 0x76, 0x63, 0x31]
  const HEVC := [0x68, 0x76, 0x63, 0x31]
  const VVC := [0x76, 0x76, 0x63, 0x31]
  const AV1 := [0x61, 0x76, 0x30, 0x31]

  /** Decoder configuration records are checked for size and first byte. */
  predicate GoodConfig(codec: seq<byte>, length: nat, first: byte) {
    if codec == AVC then length >= 7 && first == 1
    else if codec == HEVC then length >= 23 && first == 1
    else if codec == AV1 then length >= 4 && first >= 0x80
    else true
  }

  function FirstByte(data: seq<byte>): byte {
    if data == [] then 0 else data[0]
  }

  function AudioPacket(s: seq<byte>, packetType: byte, size: Option<nat>): (r: Read<Packet<seq<byte>>>)
    ensures r.Ok? ==> |r.value.1| <= |s|
  {
    if packetType == 4 then
      var (order, s1) :- U8(s);
      var (count, s2) :- U8(s1);
      var (_, s3) :- Take(s2, if order == 2 then count as nat else if order == 1 then 4 else 0);
      Ok((Multichannel(count), s3))
    else if packetType == 2 then Ok((SequenceEnd, s))
    else
      var (data, s1) :- Payload(s, size);
      Ok((if packetType == 0 then SequenceStart(data) else if packetType == 1 then CodedFrames(0, data)
          else OtherPacket(packetType, data), s1))
  }

  function FramePacket(s: seq<byte>, codec: seq<byte>, size: Option<nat>): (r: Read<Packet<seq<byte>>>)
    ensures r.Ok? ==> |r.value.1| <= |s|
  {
    if codec == AVC || codec == HEVC || codec == VVC then
      var (time, s1) :- U24(s);
      if size.Some? && size.value < 3 then Err(ShortFrame)
      else
        var (data, s2) :- Payload(s1, if size.Some? then Some(size.value - 3) else None);
        Ok((CodedFrames(SignExtend(time), data), s2))
    else
      var (data, s1) :- Payload(s, size);
      Ok((CodedFrames(0, data), s1))
  }

  function VideoPacket(s: seq<byte>, packetType: byte, codec: seq<byte>,
          size: Option<nat>): (r: Read<Packet<seq<byte>>>)
    ensures r.Ok? ==> |r.value.1| <= |s|
  {
    if packetType == 2 then Ok((SequenceEnd, s))
    else if packetType == 1 then FramePacket(s, codec, size)
    else
      var (data, s1) :- Payload(s, size);
      if packetType == 0 then
        if GoodConfig(codec, |data|, FirstByte(data)) then Ok((SequenceStart(data), s1)) else Err(BadConfig)
      else
        Ok((if packetType == 4 then Metadata(data) else if packetType == 5 then TsSequenceStart(data)
            else if packetType == 3 then CodedFramesX(data) else OtherPacket(packetType, data), s1))
  }

  /** A packet; in a multitrack tag its size comes first. */
  function ReadPacket(s: seq<byte>, kind: Kind, packetType: byte, codec: seq<byte>,
          sized: bool): (r: Read<Packet<seq<byte>>>)
    ensures r.Ok? ==> |r.value.1| <= |s|
  {
    if sized then
      var (size, s1) :- U24(s);
      if kind == Audio then AudioPacket(s1, packetType, Some(size)) else VideoPacket(s1, packetType, codec, Some(size))
    else if kind == Audio then AudioPacket(s, packetType, None)
    else VideoPacket(s, packetType, codec, None)
  }

  /** One track: its codec, its number and its packet. */
  function ReadTrack(s: seq<byte>, kind: Kind, header: Header): (r: Read<Track<seq<byte>>>)
    requires !header.content.VideoCommand? && !header.content.NoMultitrack?
    ensures r.Ok? ==> |r.value.1| < |s|
  {
    var (codec, s1) :- if header.content.ManyCodecs? then FourCc(s) else Ok((header.content.codec, s));
    var (id, s2) :- U8(s1);
    var (packet, s3) :- ReadPacket(s2, kind, header.packetType, codec, !header.content.OneTrack?);
    Ok((Track(codec, id, packet), s3))
  }

  /** Tracks up to the end of the tag; a single-track tag has just one. */
  function ReadTracks(s: seq<byte>, kind: Kind, header: Header): (r: Read<seq<Track<seq<byte>>>>)
    requires !header.content.VideoCommand? && !header.content.NoMultitrack?
    decreases |s|
  {
    var (track, s1) :- ReadTrack(s, kind, header);
    if header.content.OneTrack? || s1 == [] then Ok(([track], s1))
    else
      var (others, s2) :- ReadTracks(s1, kind, header);
      Ok(([track] + others, s2))
  }

  function ReadBody(s: seq<byte>, kind: Kind, header: Header): Read<Body<seq<byte>>> {
    match header.content
    case VideoCommand(_) => Ok((NoBody, s))
    case NoMultitrack(codec) =>
      var (packet, s1) :- ReadPacket(s, kind, header.packetType, codec, false);
      Ok((OnePacket(codec, packet), s1))
    case _ =>
      var (tracks, s1) :- ReadTracks(s, kind, header);
      Ok((Tracks(tracks), s1))
  }

  // ----- tags --------------------------------------------------------------------------------------------

  /** Sequence headers and ends carry no composition time. */
  function AvcTime(packetType: byte, time: nat): int
    requires time < 0x100_0000
  {
    if packetType == 1 then SignExtend(time) else if packetType == 0 || packetType == 2 then 0 else time
  }

  function ReadLegacy(s: seq<byte>, kind: Kind, first: byte): Result<Tag<seq<byte>>, FlvError> {
    if kind == Audio then
      if first / 16 == 10 then
        var (packetType, s1) :- U8(s);
        Ok(LegacyTag(Aac(first, packetType), Some(s1)))
      else Ok(LegacyTag(PlainAudio(first), Some(s)))
    else if first % 16 == 7 then
      var (packetType, s1) :- U8(s);
      var (time, s2) :- U24(s1);
      if packetType == 0 && !GoodConfig(AVC, |s2|, FirstByte(s2)) then Err(BadConfig)
      else Ok(LegacyTag(Avc(first, packetType, AvcTime(packetType, time)), Some(s2)))
    else if first / 16 % 8 == 5 then
      var (command, _) :- U8(s);
      Ok(LegacyTag(LegacyCommand(first, command), None))
    else Ok(LegacyTag(PlainVideo(first), Some(s)))
  }

  function Demux(s: seq<byte>, kind: Kind): Result<Tag<seq<byte>>, FlvError> {
    var (first, s1) :- U8(s);
    if (if kind == Audio then first / 16 != 9 else first < 0x80) then ReadLegacy(s1, kind, first)
    else
      var frame := if kind == Audio then 0 else first / 16 % 8;
      var (header, s2) :- ReadHeader(s1, kind, frame, first % 16);
      var (body, _) :- ReadBody(s2, kind, header);
      Ok(Enhanced(frame, header, body))
  }
}
