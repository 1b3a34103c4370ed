/** What a session hands out: packets for the transport and events for the application. */
module Outputs {
  import opened MessageMachine
  import opened ChunkEncoderModule

  datatype SessionOutput<E> = PacketOut(plan: Plan) | EventOut(event: E) | Unhandled(message: RawMessage)

  /** The packets among the outputs, in order. */
  ghost function PacketsIn<E>(outputs: seq<SessionOutput<E>>): seq<Plan> {
    if outputs == [] then []
    else (if outputs[0].PacketOut? then [outputs[0].plan] else []) + PacketsIn(outputs[1..])
  }

  lemma {:induction false} PacketsConcat<E>(a: seq<SessionOutput<E>>, b: seq<SessionOutput<E>>)
    ensures PacketsIn(a + b) == PacketsIn(a) + PacketsIn(b)
  {
    if a == [] {
      assert a + b == b;
    } else {
      var head := if a[0].PacketOut? then [a[0].plan] else [];
      PacketsConcat(a[1..], b);
      calc {
        PacketsIn(a + b);
        { assert (a + b)[0] == a[0] && (a + b)[1..] == a[1..] + b; }
        head + PacketsIn(a[1..] + b);
        head + (PacketsIn(a[1..]) + PacketsIn(b));
        PacketsIn(a) + PacketsIn(b);
      }
    }
  }

  lemma PacketsOne<E>(o: SessionOutput<E>)
    ensures PacketsIn([o]) == if o.PacketOut? then [o.plan] else []
  {
    assert [o][1..] == [];
  }

  lemma PacketsThree<E>(a: Plan, e: E, b: Plan)
    ensures PacketsIn([PacketOut(a), EventOut(e), PacketOut(b)]) == [a] + [b]
  {
    var outputs := [PacketOut(a), EventOut(e), PacketOut(b)];
    assert outputs == [PacketOut(a)] + ([EventOut(e)] + [PacketOut(b)]);
    PacketsConcat([PacketOut(a)], [EventOut(e)] + [PacketOut(b)]);
    PacketsConcat([EventOut(e)], [PacketOut(b)]);
    PacketsOne<E>(PacketOut(a));
    PacketsOne(EventOut(e));
    PacketsOne<E>(PacketOut(b));
  }

  lemma PacketsNone<E>()
    ensures PacketsIn<E>([]) == []
  {
  }
}
