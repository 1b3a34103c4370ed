/** Driving the chunk parser over a byte stream that arrives in pieces. */
module Parsing {
  import opened Base
  import opened ChunkMachine
  import opened ChunkMachineProofs
  import opened ChunkParserModule

  /** What a list of fragments reports, byte by byte. */
  ghost function AllEvents(fragments: seq<Fragment>): seq<Event> {
    if fragments == [] then [] else AllEvents(fragments[..|fragments| - 1]) + fragments[|fragments| - 1].Events()
  }

  lemma EventsAppend(fragments: seq<Fragment>, f: Fragment)
    ensures AllEvents(fragments + [f]) == AllEvents(fragments) + f.Events()
  {
    assert (fragments + [f])[..|fragments|] == fragments;
  }

  /** The parser has come to `st`, reporting `fragments`, after `done`. */
  ghost predicate Reached(limits: Limits, done: seq<byte>, st: State, fragments: seq<Fragment>) {
    Run(Initial(limits), done) == Running(st, AllEvents(fragments))
  }

  lemma ReachedOn(limits: Limits, done: seq<byte>, st: State, fragments: seq<Fragment>, taken: seq<byte>,
          fragment: Option<Fragment>, end: State)
    requires Reached(limits, done, st, fragments) && Agrees(st, taken, fragment, end)
    ensures Reached(limits, done + taken, end, if fragment.Some? then fragments + [fragment.value] else fragments)
  {
    hide Run;
    RunConcat(Initial(limits), done, taken);
    if fragment.Some? {
      EventsAppend(fragments, fragment.value);
    } else {
      assert AllEvents(fragments) + [] == AllEvents(fragments);
    }
  }

  /** An error inside a piece is the error of the whole stream, whatever follows. */
  lemma ReachedError(limits: Limits, done: seq<byte>, st: State, fragments: seq<Fragment>, rest: seq<byte>,
          later: seq<byte>, error: Error)
    requires Reached(limits, done, st, fragments) && StopsWith(st, rest, error)
    ensures var o := Run(Initial(limits), done + rest + later);
            o.Stopped? && o.error == error && o.events == AllEvents(fragments) && |done| <= o.at < |done| + |rest|
  {
    hide Run;
    RunConcat(Initial(limits), done, rest);
    RunConcat(Initial(limits), done + rest, later);
    assert AllEvents(fragments) + [] == AllEvents(fragments);
  }

  /** Drain one piece. */
  method ParsePiece(parser: ChunkParser, piece: seq<byte>, ghost limits: Limits, ghost done: seq<byte>,
          before: seq<Fragment>)
    returns (fragments: seq<Fragment>, error: Option<Error>, ghost from: seq<byte>, ghost at: State)
    requires parser.Ok() && Reached(limits, done, parser.View(), before)
    modifies parser, parser.scratch
    ensures error.None? ==> parser.Ok() && Reached(limits, done + piece, parser.View(), fragments)
    ensures error.Some? ==>
      |from| <= |piece| && Reached(limits, done + piece[..|piece| - |from|], at, fragments)
          && StopsWith(at, from, error.value) && from == piece[|piece| - |from|..]
  {
    hide Reached, Agrees, StopsWith, Run, Valid;
    fragments, error := before, None;
    var rest := piece;
    from, at := [], parser.View();
    ghost var taken := 0;
    assert done + piece[..0] == done;
    while true
      invariant parser.Ok() && taken <= |piece| && rest == piece[taken..]
      invariant Reached(limits, done + piece[..taken], parser.View(), fragments)
      decreases |rest|
    {
      ghost var st := parser.View();
      var r := parser.Consume(rest);
      if r.Err? {
        from, at := rest, st;
        return fragments, Some(r.error), from, at;
      }
      var n := r.value.consumed;
      ReachedOn(limits, done + piece[..taken], st, fragments, rest[..n], r.value.fragment, parser.View());
      assert done + piece[..taken] + rest[..n] == done + piece[..taken + n];
      taken := taken + n;
      if r.value.fragment.None? {
        assert piece[..taken] == piece;
        return fragments, None, from, at;
      }
      FragmentTakes(st, rest[..n], r.value.fragment.value, parser.View());
      fragments := fragments + [r.value.fragment.value];
      rest := rest[n..];
    }
  }

  lemma FragmentTakes(start: State, taken: seq<byte>, f: Fragment, end: State)
    requires Agrees(start, taken, Some(f), end)
    ensures taken != []
  {
  }

  /** However a byte stream is cut, the headers, payload bytes and message ends reported, and the
      error if there is one, are those of the whole stream. The error is reported in the piece that
      holds the byte at which the whole stream fails. */
  method ParsePieces(limits: Limits, pieces: seq<seq<byte>>)
      returns (fragments: seq<Fragment>, error: Option<Error>, piece: nat)
    ensures var o := Run(Initial(limits), Flatten(pieces));
            && AllEvents(fragments) == o.events && (error.None? <==> o.Running?)
            && (error.Some? ==>
                  && o.error == error.value && piece < |pieces|
                  && |Flatten(pieces[..piece])| <= o.at < |Flatten(pieces[..piece])| + |pieces[piece]|)
  {
    hide Run, Valid, StopsWith, Flatten;
    var parser := new ChunkParser(limits);
    fragments, error, piece := [], None, 0;
    StartReached(limits, pieces);
    var i := 0;
    while i < |pieces|
      invariant 0 <= i <= |pieces| && parser.Ok() && fresh(parser) && fresh(parser.scratch)
      invariant error.None? && Reached(limits, Flatten(pieces[..i]), parser.View(), fragments)
    {
      ghost var done, from, at := Flatten(pieces[..i]), [], parser.View();
      fragments, error, from, at := ParsePiece(parser, pieces[i], limits, done, fragments);
      if error.Some? {
        FlattenNext(pieces, i);
        ghost var k := |pieces[i]| - |from|;
        assert pieces[i] == pieces[i][..k] + from;
        assert done + pieces[i][..k] + from == done + pieces[i];
        ReachedError(limits, done + pieces[i][..k], at, fragments, from, Flatten(pieces[i + 1..]), error.value);
        piece := i;
        return;
      }
      FlattenNext(pieces, i);
      i := i + 1;
    }
    assert pieces[..i] == pieces;
  }

  lemma StartReached(limits: Limits, pieces: seq<seq<byte>>)
    ensures Reached(limits, Flatten(pieces[..0]), Initial(limits), [])
  {
  }
}
