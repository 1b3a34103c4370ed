/** Segmented payloads, and borrowed ranges of them. */
module PayloadViews {
  import opened Base

  /** Segments are never empty; the empty payload has none. */
  ghost predicate Nonempty(source: seq<seq<byte>>) {
    forall i :: 0 <= i < |source| ==> source[i] != []
  }

  /** The position at which segment `k` begins. */
  ghost function Before(source: seq<seq<byte>>, k: nat): nat
    requires k <= |source|
  {
    |Flatten(source[..k])|
  }

  lemma BeforeNext(source: seq<seq<byte>>, k: nat)
    requires k < |source|
    ensures Before(source, k + 1) == Before(source, k) + |source[k]|
    ensures Before(source, k + 1) <= |Flatten(source)|
    ensures Flatten(source)[Before(source, k)..Before(source, k + 1)] == source[k]
  {
    hide Flatten;
    var a, b := source[..k], source[k + 1..];
    assert source == source[..k + 1] + b;
    FlattenConcat(source[..k + 1], b);
    FlattenNext(source, k);
    Middle(Flatten(a), source[k], Flatten(b));
  }

  lemma Middle(a: seq<byte>, s: seq<byte>, b: seq<byte>)
    ensures (a + s + b)[|a|..|a + s|] == s
  {
  }

  lemma {:induction false} BeforeGrows(source: seq<seq<byte>>, j: nat, k: nat)
    requires Nonempty(source) && j <= k <= |source|
    ensures Before(source, j) + (k - j) <= Before(source, k) <= |Flatten(source)|
    decreases k - j
  {
    if j < k {
      BeforeNext(source, j);
      BeforeGrows(source, j + 1, k);
    } else {
      assert source == source[..k] + source[k..];
      FlattenConcat(source[..k], source[k..]);
    }
  }

  lemma BeforeEnds(source: seq<seq<byte>>)
    ensures Before(source, 0) == 0 && Before(source, |source|) == |Flatten(source)|
  {
    assert source[..|source|] == source;
  }

  /** A range from `offset` in segment `first` to `lastEnd` in segment `last`. */
  datatype View = View(source: seq<seq<byte>>, first: nat, offset: nat, last: nat, lastEnd: nat, len: nat)

  ghost function Start(v: View): nat
    requires v.first <= |v.source|
  {
    Before(v.source, v.first) + v.offset
  }

  ghost predicate Ok(v: View) {
    && Nonempty(v.source)
    && (v.len > 0 ==>
          && v.first <= v.last < |v.source| && v.offset < |v.source[v.first]| && 0 < v.lastEnd <= |v.source[v.last]|
          && Start(v) + v.len == Before(v.source, v.last) + v.lastEnd)
  }

  lemma Inside(v: View)
    requires Ok(v) && v.len > 0
    ensures Start(v) + v.len <= |Flatten(v.source)|
  {
    BeforeNext(v.source, v.last);
  }

  /** The bytes that the view stands for. */
  ghost function Bytes(v: View): (s: seq<byte>)
    requires Ok(v)
    ensures |s| == v.len
  {
    if v.len == 0 then []
    else
      Inside(v);
      Flatten(v.source)[Start(v)..Start(v) + v.len]
  }

  function Whole(source: seq<seq<byte>>): (v: View)
    requires Nonempty(source)
    ensures Ok(v) && Bytes(v) == Flatten(source)
  {
    BeforeEnds(source);
    if source == [] then View(source, 0, 0, 0, 0, 0)
    else
      BeforeNext(source, |source| - 1);
      BeforeGrows(source, 0, |source|);
      View(source, 0, 0, |source| - 1, |source[|source| - 1]|, |Flatten(source)|)
  }

  // ----- slicing -------------------------------------------------------------------------------------

  /** Find the segment and offset of a position, going forward from where we are. */
  method Seek(source: seq<seq<byte>>, first: nat, offset: nat, distance: nat) returns (segment: nat, at: nat)
    requires Nonempty(source) && first < |source| && offset < |source[first]|
    requires Before(source, first) + offset + distance < |Flatten(source)|
    ensures first <= segment < |source| && at < |source[segment]|
    ensures Before(source, segment) + at == Before(source, first) + offset + distance
  {
    segment, at := first, offset;
    var skip: nat := distance;
    while skip > 0
      invariant first <= segment < |source| && at < |source[segment]|
      invariant Before(source, segment) + at + skip == Before(source, first) + offset + distance
      decreases skip
    {
      var available := |source[segment]| - at;
      if skip < available {
        at, skip := at + skip, 0;
      } else {
        BeforeNext(source, segment);
        if segment + 1 == |source| {
          BeforeEnds(source);
        }
        skip := skip - available;
        segment, at := segment + 1, 0;
      }
    }
  }

  /** Find the last segment of a range and the end within it. */
  method SeekEnd(source: seq<seq<byte>>, first: nat, start: nat, distance: nat) returns (segment: nat, end: nat)
    requires Nonempty(source) && first < |source| && start < |source[first]| && distance > 0
    requires Before(source, first) + start + distance <= |Flatten(source)|
    ensures first <= segment < |source| && 0 < end <= |source[segment]|
    ensures Before(source, segment) + end == Before(source, first) + start + distance
  {
    segment := first;
    var offset: nat, remaining: nat := start, distance;
    while true
      invariant first <= segment < |source| && offset < |source[segment]| && remaining > 0
      invariant Before(source, segment) + offset + remaining == Before(source, first) + start + distance
      decreases remaining
    {
      var available := |source[segment]| - offset;
      if remaining <= available {
        return segment, offset + remaining;
      }
      BeforeNext(source, segment);
      if segment + 1 == |source| {
        BeforeEnds(source);
      }
      remaining := remaining - available;
      segment, offset := segment + 1, 0;
    }
  }

  lemma NoBytes(out: View, v: View)
    requires Ok(v) && Ok(out) && out.len == 0
    ensures Bytes(out) == [] && forall i :: 0 <= i <= v.len ==> Bytes(v)[i..i] == []
  {
  }

  /** Slicing a view is slicing its bytes. */
  method Slice(v: View, start: nat, end: nat) returns (out: View)
    requires Ok(v) && start <= end <= v.len
    ensures Ok(out) && out.source == v.source && Bytes(out) == Bytes(v)[start..end]
  {
    hide Flatten, Before, Bytes;
    if start == end {
      NoBytes(v.(len := 0), v);
      return v.(len := 0);
    }
    Inside(v);
    var first, offset := Seek(v.source, v.first, v.offset, start);
    out := v.(first := first, offset := offset, len := end - start);
    if end != v.len {
      var last, lastEnd := SeekEnd(v.source, first, offset, end - start);
      out := out.(last := last, lastEnd := lastEnd);
    } else {
      LastAfter(v, first, offset);
    }
    SliceDenotes(v, out, start, end);
  }

  lemma Within(all: seq<byte>, from: nat, len: nat, start: nat, end: nat)
    requires start <= end <= len && from + len <= |all|
    ensures all[from..from + len][start..end] == all[from + start..from + end]
  {
    var a, b := all[from..from + len][start..end], all[from + start..from + end];
    assert |a| == |b|;
    forall i | 0 <= i < |a|
      ensures a[i] == b[i]
    {
    }
  }

  lemma SliceDenotes(v: View, out: View, start: nat, end: nat)
    requires Ok(v) && Ok(out) && out.source == v.source && start < end <= v.len && out.len == end - start
    requires Start(out) == Start(v) + start
    ensures Bytes(out) == Bytes(v)[start..end]
  {
    Inside(v);
    Within(Flatten(v.source), Start(v), v.len, start, end);
  }

  /** A position inside a view is not in a segment behind its last. */
  lemma LastAfter(v: View, segment: nat, at: nat)
    requires Ok(v) && v.len > 0 && segment < |v.source|
    requires Before(v.source, segment) + at < Start(v) + v.len
    ensures segment <= v.last
  {
    if segment > v.last {
      BeforeNext(v.source, v.last);
      BeforeGrows(v.source, v.last + 1, segment);
    }
  }

  // ----- segments ------------------------------------------------------------------------------------

  function SegmentCount(v: View): nat
    requires v.len > 0 ==> v.first <= v.last
  {
    if v.len == 0 then 0 else v.last - v.first + 1
  }

  function Segment(v: View, index: nat): (s: seq<byte>)
    requires Ok(v) && index < SegmentCount(v)
    ensures s != []
  {
    var k := v.first + index;
    var start := if index == 0 then v.offset else 0;
    var end := if k == v.last then v.lastEnd else |v.source[k]|;
    Ordered(v);
    v.source[k][start..end]
  }

  lemma Ordered(v: View)
    requires Ok(v) && v.len > 0
    ensures v.first == v.last ==> v.offset < v.lastEnd
  {
  }

  ghost function Segments(v: View, n: nat): seq<seq<byte>>
    requires Ok(v) && n <= SegmentCount(v)
  {
    if n == 0 then [] else Segments(v, n - 1) + [Segment(v, n - 1)]
  }

  /** Where segment `n` of a view begins in it. */
  ghost function Place(v: View, n: nat): (k: nat)
    requires Ok(v) && n <= SegmentCount(v)
    ensures k <= v.len && (n > 0 && n == SegmentCount(v) ==> k == v.len)
  {
    if n == 0 then 0
    else if n == SegmentCount(v) then v.len
    else
      PlaceInside(v, n);
      Before(v.source, v.first + n) - Start(v)
  }

  lemma PlaceInside(v: View, n: nat)
    requires Ok(v) && 0 < n < SegmentCount(v)
    ensures Start(v) < Before(v.source, v.first + n) < Start(v) + v.len
  {
    BeforeNext(v.source, v.first);
    BeforeGrows(v.source, v.first + 1, v.first + n);
    BeforeGrows(v.source, v.first + n, v.last);
  }

  lemma PlaceStep(v: View, index: nat)
    requires Ok(v) && index < SegmentCount(v)
    ensures Place(v, index + 1) == Place(v, index) + |Segment(v, index)|
    ensures Before(v.source, v.first + index) + (if index == 0 then v.offset else 0) == Start(v) + Place(v, index)
  {
    hide Flatten, Before;
    BeforeNext(v.source, v.first + index);
  }

  lemma SegmentIs(v: View, index: nat)
    requires Ok(v) && index < SegmentCount(v)
    ensures var k := v.first + index;
            var from := if index == 0 then v.offset else 0;
            from + |Segment(v, index)| <= |v.source[k]|
                && Segment(v, index) == v.source[k][from..from + |Segment(v, index)|]
  {
  }

  lemma SegmentAt(v: View, index: nat)
    requires Ok(v) && index < SegmentCount(v)
    ensures Place(v, index) <= Place(v, index + 1)
            && Segment(v, index) == Bytes(v)[Place(v, index)..Place(v, index + 1)]
  {
    hide Flatten, Before, Place, Segment;
    var k := v.first + index;
    var from := if index == 0 then v.offset else 0;
    var all, base, size, place := Flatten(v.source), Before(v.source, k), |Segment(v, index)|, Place(v, index);
    PlaceStep(v, index);
    SegmentIs(v, index);
    BeforeNext(v.source, k);
    Inside(v);
    Within(all, base, |v.source[k]|, from, from + size);
    Within(all, Start(v), v.len, place, place + size);
  }

  lemma {:induction false} SegmentsPrefix(v: View, n: nat)
    requires Ok(v) && n <= SegmentCount(v)
    ensures Flatten(Segments(v, n)) == Bytes(v)[..Place(v, n)]
    decreases n
  {
    hide Flatten, Bytes, Place, Segment;
    if n == 0 {
      NoSegments(v);
    } else {
      SegmentsPrefix(v, n - 1);
      SegmentAt(v, n - 1);
      var before, s := Segments(v, n - 1), Segment(v, n - 1);
      FlattenConcat(before, [s]);
      FlattenOne(s);
    }
  }

  lemma NoSegments(v: View)
    requires Ok(v)
    ensures Flatten(Segments(v, 0)) == [] && Place(v, 0) == 0
  {
  }

  /** The segments of a view, put together, are its bytes. */
  lemma SegmentsDenote(v: View)
    requires Ok(v)
    ensures Flatten(Segments(v, SegmentCount(v))) == Bytes(v)
  {
    SegmentsPrefix(v, SegmentCount(v));
  }

  /** The first segment is where a view begins. */
  lemma FirstSegment(v: View)
    requires Ok(v) && v.len > 0
    ensures 0 < |Segment(v, 0)| <= v.len && Segment(v, 0) == Bytes(v)[..|Segment(v, 0)|]
  {
    SegmentAt(v, 0);
  }

  // ----- building and reading ------------------------------------------------------------------------

  /** A message body that is put together from nonempty segments. */
  class Payload {
    var first: seq<byte>
    var rest: seq<seq<byte>>
    var len: nat

    ghost function Parts(): seq<seq<byte>>
      reads this
    {
      if first == [] then [] else [first] + rest
    }

    ghost predicate Valid()
      reads this
    {
      (first == [] ==> rest == []) && Nonempty(Parts()) && len == |Flatten(Parts())|
    }

    constructor ()
      ensures Valid() && Parts() == []
    {
      first, rest, len := [], [], 0;
    }

    method Push(bytes: seq<byte>)
      requires Valid()
      modifies this
      ensures Valid() && Flatten(Parts()) == old(Flatten(Parts())) + bytes
      ensures Parts() == if bytes == [] then old(Parts()) else old(Parts()) + [bytes]
    {
      if bytes == [] {
        return;
      }
      hide Flatten;
      ghost var before := Parts();
      FlattenConcat(before, [bytes]);
      FlattenOne(bytes);
      len := len + |bytes|;
      if first == [] {
        first := bytes;
      } else {
        rest := rest + [bytes];
      }
      assert Parts() == before + [bytes];
    }
  }

  /** Reads segments in order, at most one of them at a time. */
  class PayloadReader {
    const source: seq<seq<byte>>
    var segment: nat
    var offset: nat
    var remaining: nat

    ghost predicate Valid()
      reads this
    {
      && Nonempty(source) && segment <= |source| && (segment < |source| ==> offset < |source[segment]|)
      && (segment == |source| ==> offset == 0)
      && Before(source, segment) + offset + remaining == |Flatten(source)|
    }

    /** What has not been read yet. */
    ghost function Left(): seq<byte>
      reads this
      requires Valid()
    {
      Flatten(source)[Before(source, segment) + offset..]
    }

    constructor (source: seq<seq<byte>>)
      requires Nonempty(source)
      ensures Valid() && Left() == Flatten(source)
    {
      this.source, segment, offset, remaining := source, 0, 0, |Flatten(source)|;
      new;
      BeforeEnds(source);
    }

    /** Whatever room the caller has, reading goes on where it stopped, and gets something while
        there is something. */
    method Read(room: nat) returns (out: seq<byte>)
      requires Valid()
      modifies this`segment, this`offset, this`remaining
      ensures Valid() && out + Left() == old(Left()) && |out| <= room
      ensures out == [] <==> room == 0 || old(Left()) == []
    {
      hide Flatten, Before;
      if remaining == 0 || room == 0 {
        return [];
      }
      if segment == |source| {
        BeforeEnds(source);
      }
      BeforeNext(source, segment);
      var here := source[segment];
      var n := Min(room, |here| - offset);
      out := here[offset..offset + n];
      Within(Flatten(source), Before(source, segment), |here|, offset, offset + n);
      offset, remaining := offset + n, remaining - n;
      if offset == |here| {
        segment, offset := segment + 1, 0;
      }
    }
  }
}
