/** Packets: a resumable cursor over headers and segmented payload, proved to walk the flat wire image. */
module PacketModule {
  import opened Base
  import opened ChunkEncoderModule

  /** The immutable part of a packet. The payload is kept as nonempty segments. */
  datatype Frame = Frame(payload: seq<seq<byte>>, first: seq<byte>, continuation: seq<byte>, chunkSize: nat) {
    function Flat(): seq<byte> {
      Flatten(payload)
    }
    function Header(chunk: nat): seq<byte> {
      if chunk == 0 then first else continuation
    }
    ghost predicate Ok() {
      chunkSize > 0 && first != [] && continuation != [] && [] !in payload
    }
    function Whole(): seq<byte>
      requires chunkSize > 0
    {
      Image(first, continuation, chunkSize, Flat())
    }
  }

  datatype CursorState = CursorState(chunk: nat, header: nat, body: nat, segment: nat, offset: nat)

  const AtStart := CursorState(0, 0, 0, 0, 0)

  /** Payload position of a cursor. */
  function Position(f: Frame, s: CursorState): nat {
    s.chunk * f.chunkSize + s.body
  }

  /** Segment and offset denote payload position `pos`. */
  ghost predicate Located(payload: seq<seq<byte>>, segment: nat, offset: nat, pos: nat) {
    && segment <= |payload|
    && |Flatten(payload[..segment])| + offset == pos
    && (if segment < |payload| then offset < |payload[segment]| else offset == 0)
  }

  /** What remains of the image from a cursor that still has something to deliver. */
  ghost function Rest(f: Frame, s: CursorState): seq<byte>
    requires f.chunkSize > 0 && s.chunk * f.chunkSize <= |f.Flat()|
    requires s.header + s.body <= |Image(f.Header(s.chunk), f.continuation, f.chunkSize,
             f.Flat()[s.chunk * f.chunkSize..])|
  {
    Image(f.Header(s.chunk), f.continuation, f.chunkSize, f.Flat()[s.chunk * f.chunkSize..])[s.header + s.body..]
  }

  /** A cursor with `remaining` bytes left stands at the matching place of the image. */
  ghost predicate Stands(f: Frame, s: CursorState, remaining: nat)
    requires f.chunkSize > 0
  {
    && remaining <= |f.Whole()|
    && (remaining > 0 ==>
          && Position(f, s) <= |f.Flat()| && s.body < f.chunkSize
          && Located(f.payload, s.segment, s.offset, Position(f, s))
          && s.header <= |f.Header(s.chunk)| && (s.body > 0 ==> s.header == |f.Header(s.chunk)|)
          && s.header + s.body <= |Image(f.Header(s.chunk), f.continuation, f.chunkSize,
               f.Flat()[s.chunk * f.chunkSize..])|
          && Rest(f, s) == f.Whole()[|f.Whole()| - remaining..])
  }

  // ----- lengths ---------------------------------------------------------------------

  /** Number of chunks a payload needs; an empty payload needs one. */
  function Chunks(length: nat, size: nat): nat
    requires size > 0
  {
    if length == 0 then 1 else (length + size - 1) / size
  }

  lemma ChunksStep(length: nat, size: nat)
    requires 0 < size < length
    ensures Chunks(length, size) == Chunks(length - size, size) + 1
  {
    var x := length - size + size - 1;
    assert (x + size) / size == x / size + 1 by { DivStep(x, size); }
  }

  lemma DivStep(x: nat, d: nat)
    requires d > 0
    ensures (x + d) / d == x / d + 1
  {
    var q, r := x / d, x % d;
    assert x == q * d + r;
    assert x + d == (q + 1) * d + r;
    DivUnique(x + d, d, q + 1, r);
  }

  lemma MulNext(n: nat, d: nat)
    ensures (n + 1) * d == n * d + d
  {
  }

  lemma OneMore(n: nat, k: nat)
    requires n >= 2
    ensures (n - 1) * k == (n - 2) * k + k
  {
  }

  /** The image is the payload plus one first header and a continuation header per further chunk. */
  lemma {:induction false} ImageLength(header: seq<byte>, continuation: seq<byte>, size: nat, payload: seq<byte>)
    requires size > 0
    ensures |Image(header, continuation, size, payload)| ==
            |payload| + |header| + (Chunks(|payload|, size) - 1) * |continuation|
    decreases |payload|
  {
    hide Chunks;
    if |payload| > size {
      ImageLength(continuation, continuation, size, payload[size..]);
      ChunksStep(|payload|, size);
      ChunksPositive(|payload| - size, size);
      OneMore(Chunks(|payload|, size), |continuation|);
    } else {
      SingleChunk(|payload|, size);
    }
  }

  lemma ChunksPositive(length: nat, size: nat)
    requires size > 0
    ensures Chunks(length, size) >= 1
  {
    if length > 0 {
      DivStep(length - 1, size);
    }
  }

  lemma SingleChunk(length: nat, size: nat)
    requires length <= size && size > 0
    ensures Chunks(length, size) == 1
  {
    if length > 0 {
      DivUnique(length + size - 1, size, 1, length - 1);
    }
  }

  // ----- one piece ----------------------------------------------------------------------

  /** Length of the payload piece at a cursor: up to the end of its segment, chunk and payload. */
  function PieceLength(f: Frame, s: CursorState): nat
    requires s.segment < |f.payload| && s.offset <= |f.payload[s.segment]|
    requires s.body <= f.chunkSize && Position(f, s) <= |f.Flat()|
  {
    Min(Min(|f.payload[s.segment]| - s.offset, f.chunkSize - s.body), |f.Flat()| - Position(f, s))
  }

  /** The next contiguous bytes at a cursor that has something left. */
  function Piece(f: Frame, s: CursorState): seq<byte>
    requires s.header >= |f.Header(s.chunk)| ==>
               && s.segment < |f.payload| && s.offset <= |f.payload[s.segment]|
               && s.body <= f.chunkSize && Position(f, s) <= |f.Flat()|
  {
    var h := f.Header(s.chunk);
    if s.header < |h| then h[s.header..]
    else f.payload[s.segment][s.offset..s.offset + PieceLength(f, s)]
  }

  /** The cursor after `n` bytes of its piece. */
  function Move(f: Frame, s: CursorState, n: nat): CursorState {
    if s.header < |f.Header(s.chunk)| then s.(header := s.header + n)
    else
      var body, offset := s.body + n, s.offset + n;
      var full := s.segment < |f.payload| && offset == |f.payload[s.segment]|;
      var t := if full then s.(body := body, segment := s.segment + 1, offset := 0)
          else s.(body := body, offset := offset);
      if body == f.chunkSize then t.(chunk := s.chunk + 1, body := 0, header := 0) else t
  }

  lemma SegmentSlice(payload: seq<seq<byte>>, segment: nat, offset: nat, pos: nat, n: nat)
    requires Located(payload, segment, offset, pos) && segment < |payload| && offset + n <= |payload[segment]|
    ensures pos + n <= |Flatten(payload)|
    ensures Flatten(payload)[pos..pos + n] == payload[segment][offset..offset + n]
  {
    var a, b := payload[..segment], payload[segment..];
    assert payload == a + b;
    FlattenConcat(a, b);
    assert b[0] == payload[segment];
    assert Flatten(payload) == Flatten(a) + (b[0] + Flatten(b[1..]));
  }

  lemma LocatedEnd(payload: seq<seq<byte>>, offset: nat, pos: nat)
    requires Located(payload, |payload|, offset, pos)
    ensures pos == |Flatten(payload)|
  {
    assert payload[..|payload|] == payload;
  }

  lemma LocatedStep(payload: seq<seq<byte>>, segment: nat, offset: nat, pos: nat, n: nat)
    requires [] !in payload
    requires Located(payload, segment, offset, pos) && segment < |payload| && offset + n <= |payload[segment]|
    ensures if offset + n == |payload[segment]| then Located(payload, segment + 1, 0, pos + n)
            else Located(payload, segment, offset + n, pos + n)
  {
    if offset + n == |payload[segment]| {
      assert payload[..segment + 1] == payload[..segment] + [payload[segment]];
      FlattenConcat(payload[..segment], [payload[segment]]);
      var one := [payload[segment]];
      assert one[1..] == [];
      assert Flatten<byte>([]) == [];
      assert Flatten(one) == payload[segment];
    }
  }

  /** How the image starts: its header, then the first chunk of payload. */
  lemma ImageStart(header: seq<byte>, continuation: seq<byte>, size: nat, payload: seq<byte>)
    requires size > 0
    ensures var image, n := Image(header, continuation, size, payload), Min(|payload|, size);
            && |image| >= |header| + n
            && image[..|header|] == header
            && image[|header|..|header| + n] == payload[..n]
            && (|payload| <= size ==> |image| == |header| + n)
            && (|payload| > size ==>
                 image[|header| + size..] == Image(continuation, continuation, size, payload[size..]))
  {
  }

  /** A cursor past its header with something left is inside the payload. */
  lemma InsidePayload(f: Frame, s: CursorState, remaining: nat)
    requires f.Ok() && Stands(f, s, remaining) && remaining > 0 && s.header == |f.Header(s.chunk)|
    ensures Position(f, s) < |f.Flat()|
    ensures s.segment < |f.payload| && s.offset < |f.payload[s.segment]| && PieceLength(f, s) > 0
  {
    var base := s.chunk * f.chunkSize;
    ImageStart(f.Header(s.chunk), f.continuation, f.chunkSize, f.Flat()[base..]);
    assert |Rest(f, s)| == remaining;
    if s.segment == |f.payload| {
      LocatedEnd(f.payload, s.offset, Position(f, s));
    }
  }

  lemma SameTails(a: seq<byte>, i: nat, b: seq<byte>, j: nat, n: nat)
    requires i + n <= |a| && j <= |b| && a[i..] == b[j..]
    ensures j + n <= |b| && b[j..j + n] == a[i..i + n]
  {
    assert |a[i..]| == |b[j..]|;
    assert a[i..][..n] == a[i..i + n];
    assert b[j..][..n] == b[j..j + n];
  }

  lemma HeaderInImage(f: Frame, s: CursorState)
    requires f.chunkSize > 0 && s.chunk * f.chunkSize <= |f.Flat()| && s.header < |f.Header(s.chunk)|
    ensures var h := f.Header(s.chunk);
            var image := Image(h, f.continuation, f.chunkSize, f.Flat()[s.chunk * f.chunkSize..]);
            |image| >= |h| && image[s.header..|h|] == h[s.header..]
  {
    var h := f.Header(s.chunk);
    var tail := f.Flat()[s.chunk * f.chunkSize..];
    var image := Image(h, f.continuation, f.chunkSize, tail);
    ImageStart(h, f.continuation, f.chunkSize, tail);
    assert image[s.header..|h|] == image[..|h|][s.header..];
  }

  lemma PayloadInImage(h: seq<byte>, continuation: seq<byte>, size: nat, flat: seq<byte>, base: nat, body: nat, n: nat)
    requires size > 0 && body + n <= size && base + body + n <= |flat|
    ensures var image := Image(h, continuation, size, flat[base..]);
            |image| >= |h| + body + n && image[|h| + body..|h| + body + n] == flat[base + body..base + body + n]
  {
    hide Image;
    var tail := flat[base..];
    var image := Image(h, continuation, size, tail);
    ImageStart(h, continuation, size, tail);
    var m := Min(|tail|, size);
    SubSlice(image, |h|, |h| + m, body, body + n);
    SubSlice(tail, 0, m, body, body + n);
    SubSlice(flat, base, |flat|, body, body + n);
    assert tail[0..m] == tail[..m];
    assert flat[base..|flat|] == tail;
  }

  lemma SubSlice(s: seq<byte>, a: nat, b: nat, i: nat, j: nat)
    requires a <= b <= |s| && i <= j <= b - a
    ensures s[a..b][i..j] == s[a + i..a + j]
  {
    var part, l, r := s[a..b], s[a..b][i..j], s[a + i..a + j];
    forall k | 0 <= k < |l|
      ensures l[k] == r[k]
    {
      assert l[k] == part[i + k];
      assert r[k] == s[a + i + k];
    }
  }

  lemma PayloadIsNext(f: Frame, s: CursorState, remaining: nat, n: nat)
    requires f.Ok() && Stands(f, s, remaining) && remaining > 0 && s.header == |f.Header(s.chunk)|
    requires s.segment < |f.payload| && s.offset + n <= |f.payload[s.segment]|
    requires s.body + n <= f.chunkSize && Position(f, s) + n <= |f.Flat()|
    ensures n <= remaining
    ensures var from := |f.Whole()| - remaining;
            f.Whole()[from..from + n] == f.payload[s.segment][s.offset..s.offset + n]
  {
    hide Image, Flatten, Located;
    var h, base := f.Header(s.chunk), s.chunk * f.chunkSize;
    var image := Image(h, f.continuation, f.chunkSize, f.Flat()[base..]);
    SegmentSlice(f.payload, s.segment, s.offset, Position(f, s), n);
    PayloadInImage(h, f.continuation, f.chunkSize, f.Flat(), base, s.body, n);
    SameTails(image, |h| + s.body, f.Whole(), |f.Whole()| - remaining, n);
  }

  /** The piece at the cursor is nonempty and is what comes next in the image. */
  lemma PieceIsNext(f: Frame, s: CursorState, remaining: nat)
    requires f.Ok() && Stands(f, s, remaining) && remaining > 0
    ensures s.header >= |f.Header(s.chunk)| ==> s.segment < |f.payload| && s.offset < |f.payload[s.segment]|
    ensures 0 < |Piece(f, s)| <= remaining
    ensures var from := |f.Whole()| - remaining;
            f.Whole()[from..from + |Piece(f, s)|] == Piece(f, s)
  {
    hide Image, Flatten, Located;
    var h := f.Header(s.chunk);
    if s.header < |h| {
      var image := Image(h, f.continuation, f.chunkSize, f.Flat()[s.chunk * f.chunkSize..]);
      HeaderInImage(f, s);
      SameTails(image, s.header, f.Whole(), |f.Whole()| - remaining, |h| - s.header);
    } else {
      InsidePayload(f, s, remaining);
      PayloadIsNext(f, s, remaining, PieceLength(f, s));
    }
  }

  lemma SameTailsFurther(a: seq<byte>, i: nat, b: seq<byte>, j: nat, n: nat)
    requires i + n <= |a| && j + n <= |b| && a[i..] == b[j..]
    ensures a[i + n..] == b[j + n..]
  {
    assert a[i..][n..] == a[i + n..];
    assert b[j..][n..] == b[j + n..];
  }

  lemma MoveInHeader(f: Frame, s: CursorState, remaining: nat, n: nat)
    requires f.Ok() && Stands(f, s, remaining) && remaining > 0 && s.header < |f.Header(s.chunk)|
    requires 0 < n <= |f.Header(s.chunk)| - s.header && n <= remaining
    ensures Stands(f, s.(header := s.header + n), remaining - n)
  {
    hide Image, Flatten;
    var image := Image(f.Header(s.chunk), f.continuation, f.chunkSize, f.Flat()[s.chunk * f.chunkSize..]);
    SameTailsFurther(image, s.header + s.body, f.Whole(), |f.Whole()| - remaining, n);
  }

  lemma MoveInChunk(f: Frame, s: CursorState, remaining: nat, n: nat, segment: nat, offset: nat)
    requires f.Ok() && Stands(f, s, remaining) && s.header == |f.Header(s.chunk)|
    requires 0 < n <= remaining && s.body + n < f.chunkSize && Position(f, s) + n <= |f.Flat()|
    requires Located(f.payload, segment, offset, Position(f, s) + n)
    ensures Stands(f, s.(body := s.body + n, segment := segment, offset := offset), remaining - n)
  {
    hide Image, Flatten, Located;
    var image := Image(f.Header(s.chunk), f.continuation, f.chunkSize, f.Flat()[s.chunk * f.chunkSize..]);
    SameTailsFurther(image, s.header + s.body, f.Whole(), |f.Whole()| - remaining, n);
  }

  lemma MoveToNextChunk(f: Frame, s: CursorState, remaining: nat, n: nat, segment: nat, offset: nat)
    requires f.Ok() && Stands(f, s, remaining) && s.header == |f.Header(s.chunk)|
    requires 0 < n <= remaining && s.body + n == f.chunkSize
    requires Located(f.payload, segment, offset, Position(f, s) + n)
    ensures Stands(f, CursorState(s.chunk + 1, 0, 0, segment, offset), remaining - n)
  {
    hide Image, Flatten, Located, Position;
    if remaining > n {
      PositionBase(f, s);
      var image := Image(f.Header(s.chunk), f.continuation, f.chunkSize, f.Flat()[s.chunk * f.chunkSize..]);
      SameTailsFurther(image, s.header + s.body, f.Whole(), |f.Whole()| - remaining, n);
      NextChunk(f, s.chunk);
      PositionNext(f, s, n, segment, offset);
    }
  }

  lemma PositionBase(f: Frame, s: CursorState)
    ensures s.chunk * f.chunkSize <= Position(f, s)
  {
  }

  lemma PositionNext(f: Frame, s: CursorState, n: nat, segment: nat, offset: nat)
    requires s.body + n == f.chunkSize
    ensures Position(f, CursorState(s.chunk + 1, 0, 0, segment, offset)) == Position(f, s) + n ==
            (s.chunk + 1) * f.chunkSize
  {
    MulNext(s.chunk, f.chunkSize);
  }

  /** Moving over part of the piece leaves the cursor at the matching place further on. */
  lemma MoveStands(f: Frame, s: CursorState, remaining: nat, n: nat)
    requires f.Ok() && Stands(f, s, remaining) && remaining > 0
    requires s.header >= |f.Header(s.chunk)| ==> s.segment < |f.payload| && s.offset < |f.payload[s.segment]|
    requires 0 < n <= |Piece(f, s)| <= remaining
    ensures Stands(f, Move(f, s, n), remaining - n)
  {
    hide Image, Flatten, Located;
    if s.header < |f.Header(s.chunk)| {
      MoveInHeader(f, s, remaining, n);
    } else {
      var next := Move(f, s, n);
      LocatedStep(f.payload, s.segment, s.offset, Position(f, s), n);
      if s.body + n == f.chunkSize {
        MoveToNextChunk(f, s, remaining, n, next.segment, next.offset);
      } else {
        MoveInChunk(f, s, remaining, n, next.segment, next.offset);
      }
    }
  }

  lemma NextChunk(f: Frame, chunk: nat)
    requires f.chunkSize > 0 && chunk * f.chunkSize <= |f.Flat()|
    requires |Image(f.Header(chunk), f.continuation, f.chunkSize,
             f.Flat()[chunk * f.chunkSize..])| > |f.Header(chunk)| + f.chunkSize
    ensures (chunk + 1) * f.chunkSize <= |f.Flat()|
    ensures Image(f.Header(chunk), f.continuation, f.chunkSize,
            f.Flat()[chunk * f.chunkSize..])[|f.Header(chunk)| + f.chunkSize..] ==
            Image(f.continuation, f.continuation, f.chunkSize, f.Flat()[(chunk + 1) * f.chunkSize..])
  {
    hide Image;
    MulNext(chunk, f.chunkSize);
    var base := chunk * f.chunkSize;
    var tail := f.Flat()[base..];
    ImageStart(f.Header(chunk), f.continuation, f.chunkSize, tail);
    assert tail[f.chunkSize..] == f.Flat()[base + f.chunkSize..];
  }

  // ----- the cursor -----------------------------------------------------------------------

  /** A resumable view of a packet. A short write may stop inside a header. */
  class PacketCursor {
    const frame: Frame
    var state: CursorState
    var remaining: nat

    ghost predicate Ok()
      reads this
    {
      frame.Ok() && Stands(frame, state, remaining)
    }

    /** What is still to be delivered. */
    ghost function Left(): seq<byte>
      reads this
      requires Ok()
    {
      frame.Whole()[|frame.Whole()| - remaining..]
    }

    constructor (frame: Frame, state: CursorState, remaining: nat)
      requires frame.Ok() && Stands(frame, state, remaining)
      ensures Ok() && this.frame == frame && this.state == state && this.remaining == remaining
    {
      this.frame := frame;
      this.state := state;
      this.remaining := remaining;
    }

    /** The next contiguous bytes: nonempty and a prefix of what is left. */
    method Current() returns (piece: Option<seq<byte>>)
      requires Ok()
      ensures piece.None? <==> remaining == 0
      ensures piece.Some? ==>
                && 0 < |piece.value| <= remaining && piece.value <= Left()
                && (state.header >= |frame.Header(state.chunk)| ==>
                     state.segment < |frame.payload| && state.offset < |frame.payload[state.segment]|)
                && state.body <= frame.chunkSize && Position(frame, state) <= |frame.Flat()|
                && piece.value == Piece(frame, state)
    {
      hide Image, Flatten, Located, Rest;
      if remaining == 0 {
        return None;
      }
      PieceIsNext(frame, state, remaining);
      var h := frame.Header(state.chunk);
      if state.header < |h| {
        return Some(h[state.header..]);
      }
      var segment := frame.payload[state.segment];
      var n := Min(Min(|segment| - state.offset, frame.chunkSize - state.body),
          |frame.Flat()| - Position(frame, state));
      return Some(segment[state.offset..state.offset + n]);
    }

    /** Step over `n` bytes of the current piece. */
    method Step(n: nat)
      requires Ok() && remaining > 0
      requires state.header >= |frame.Header(state.chunk)| ==>
               state.segment < |frame.payload| && state.offset < |frame.payload[state.segment]|
      requires state.body <= frame.chunkSize && Position(frame, state) <= |frame.Flat()|
      requires 0 < n <= |Piece(frame, state)| <= remaining
      modifies this
      ensures Ok() && remaining == old(remaining) - n
    {
      hide Image, Located, Rest;
      MoveStands(frame, state, remaining, n);
      if state.header < |frame.Header(state.chunk)| {
        state := state.(header := state.header + n);
      } else {
        state := state.(body := state.body + n, offset := state.offset + n);
        if state.offset == |frame.payload[state.segment]| {
          state := state.(segment := state.segment + 1, offset := 0);
        }
        if state.body == frame.chunkSize {
          state := state.(chunk := state.chunk + 1, body := 0, header := 0);
        }
      }
      assert state == Move(frame, old(state), n);
      remaining := remaining - n;
    }

    /** Deliver `count` bytes. */
    method Advance(count: nat)
      requires Ok() && count <= remaining
      modifies this
      ensures Ok() && remaining == old(remaining) - count
      ensures Left() == old(Left())[count..]
    {
      hide Image, Located, Rest, Piece, Position, Flatten;
      var left: nat := count;
      while left > 0
        invariant Ok() && left <= remaining && remaining == old(remaining) - (count - left)
      {
        var piece := Current();
        var n := Min(left, |piece.value|);
        Step(n);
        left := left - n;
      }
      TailFurther(frame.Whole(), |frame.Whole()| - old(remaining), count);
    }

    /** Deliver the whole current piece. */
    method Take() returns (piece: seq<byte>)
      requires Ok() && remaining > 0
      modifies this
      ensures Ok() && piece != [] && remaining == old(remaining) - |piece|
      ensures old(Left()) == piece + Left()
    {
      hide Image, Located, Rest, Piece, Position, Flatten;
      var current := Current();
      piece := current.value;
      Advance(|piece|);
    }

    /** Fill up to `slots` slices for a vectored write, without moving this cursor. They are
        nonempty, and together they are a prefix of what is left; unused slots mean that nothing is. */
    method IoSlices(slots: nat) returns (slices: seq<seq<byte>>)
      requires Ok()
      ensures |slices| <= slots && [] !in slices
      ensures Flatten(slices) <= Left()
      ensures |slices| < slots ==> Flatten(slices) == Left()
    {
      hide Stands, Image, Flatten, Frame.Ok, Frame.Whole;
      EmptyFlatten();
      var walker := new PacketCursor(frame, state, remaining);
      slices := [];
      ghost var all := Left();
      assert Flatten(slices) + walker.Left() == all;
      var slot := 0;
      while slot < slots
        invariant slot <= slots && walker.Ok() && walker.frame == frame
        invariant |slices| <= slot && [] !in slices
        invariant Flatten(slices) + walker.Left() == all
        invariant |slices| < slot ==> walker.remaining == 0
      {
        if walker.remaining != 0 {
          ghost var given := Flatten(slices);
          var piece := walker.Take();
          Regroup(given, piece, walker.Left());
          FlattenSnoc(slices, piece);
          slices := slices + [piece];
        }
        slot := slot + 1;
      }
      assert walker.remaining == 0 ==> walker.Left() == [];
    }
  }

  /** An encoded packet with its write progress. */
  class Packet {
    const frame: Frame
    const droppable: bool
    var state: CursorState
    var remaining: nat

    ghost predicate Ok()
      reads this
    {
      frame.Ok() && Stands(frame, state, remaining)
    }

    ghost function Left(): seq<byte>
      reads this
      requires Ok()
    {
      frame.Whole()[|frame.Whole()| - remaining..]
    }

    constructor (frame: Frame, droppable: bool)
      requires frame.Ok()
      ensures Ok() && this.frame == frame && this.droppable == droppable
      ensures remaining == |frame.Whole()| && Left() == frame.Whole()
    {
      hide Chunks, Image, Stands, Flatten;
      ImageLength(frame.first, frame.continuation, frame.chunkSize, frame.Flat());
      ChunksPositive(|frame.Flat()|, frame.chunkSize);
      StartStands(frame);
      this.frame := frame;
      this.droppable := droppable;
      this.state := AtStart;
      this.remaining := |frame.first| + (Chunks(|frame.Flat()|,
          frame.chunkSize) - 1) * |frame.continuation| + |frame.Flat()|;
    }

    /** Number of wire bytes, including every chunk header. */
    method WireLen() returns (n: nat)
      requires frame.Ok()
      ensures n == |frame.Whole()|
    {
      ImageLength(frame.first, frame.continuation, frame.chunkSize, frame.Flat());
      ChunksPositive(|frame.Flat()|, frame.chunkSize);
      n := |frame.Flat()| + |frame.first| + (Chunks(|frame.Flat()|, frame.chunkSize) - 1) * |frame.continuation|;
    }

    /** True only while a droppable packet is entirely unsent. */
    method CanDrop() returns (b: bool)
      requires Ok()
      ensures b <==> droppable && Left() == frame.Whole()
    {
      var n := WireLen();
      b := droppable && remaining == n;
    }

    method Advance(count: nat)
      requires Ok() && count <= remaining
      modifies this
      ensures Ok() && remaining == old(remaining) - count && Left() == old(Left())[count..]
    {
      hide Stands, Image;
      var cursor := new PacketCursor(frame, state, remaining);
      cursor.Advance(count);
      state, remaining := cursor.state, cursor.remaining;
    }

    method IoSlices(slots: nat) returns (slices: seq<seq<byte>>)
      requires Ok()
      ensures |slices| <= slots && [] !in slices
      ensures Flatten(slices) <= Left()
      ensures |slices| < slots ==> Flatten(slices) == Left()
    {
      hide Stands, Image;
      var cursor := new PacketCursor(frame, state, remaining);
      slices := cursor.IoSlices(slots);
    }

    /** Append what is left to `output`, without moving this packet. */
    method CopyTo(output: seq<byte>) returns (r: seq<byte>)
      requires Ok()
      ensures r == output + Left()
    {
      hide Stands, Image, Frame.Whole;
      var cursor := new PacketCursor(frame, state, remaining);
      r := output;
      while cursor.remaining > 0
        invariant cursor.Ok() && cursor.frame == frame
        invariant r + cursor.Left() == output + Left()
        decreases cursor.remaining
      {
        ghost var sofar := r;
        var piece := cursor.Take();
        Regroup(sofar, piece, cursor.Left());
        r := r + piece;
      }
      assert cursor.Left() == [];
    }
  }

  lemma StartStands(f: Frame)
    requires f.Ok()
    ensures Stands(f, AtStart, |f.Whole()|)
  {
    EmptyFlatten();
    assert f.payload[..0] == [];
    assert f.Flat()[0..] == f.Flat();
  }

  lemma Regroup(a: seq<byte>, b: seq<byte>, c: seq<byte>)
    ensures a + (b + c) == (a + b) + c
  {
  }

  lemma EmptyFlatten()
    ensures Flatten<byte>([]) == []
  {
  }

  lemma TailFurther(s: seq<byte>, i: nat, n: nat)
    requires i + n <= |s|
    ensures s[i..][n..] == s[i + n..]
  {
  }

  lemma FlattenSnoc(s: seq<seq<byte>>, x: seq<byte>)
    ensures Flatten(s + [x]) == Flatten(s) + x
  {
    var one := [x];
    FlattenConcat(s, one);
    assert one[1..] == [];
    assert Flatten<byte>([]) == [];
    assert Flatten(one) == x;
  }
}
