/** The packets an encoder makes over a run, and what a peer decodes when they leave in the order in
    which they were made. */
module SentLog {
  import opened Base
  import opened ChunkMachine
  import opened MessageMachine
  import opened ChunkEncoderModule
  import opened RoundTrip

  /** The packets made by a run of encoder actions, in order. */
  ghost function MadeBy(enc: Encoder, actions: seq<Action>): (plans: seq<Plan>)
    ensures AllMade(enc, actions) ==> |plans| == |actions|
    decreases |actions|
  {
    if actions == [] then []
    else
      (if Perform(enc, actions[0]).Ok? then [Perform(enc, actions[0]).value.1] else [])
      + MadeBy(EncoderAfter(enc, actions[0]), actions[1..])
  }

  /** Every action made a packet. */
  ghost predicate AllMade(enc: Encoder, actions: seq<Action>)
    decreases |actions|
  {
    actions == [] || (Perform(enc, actions[0]).Ok? && AllMade(EncoderAfter(enc, actions[0]), actions[1..]))
  }

  lemma {:induction false} MadeAppend(enc: Encoder, actions: seq<Action>, a: Action)
    requires AllMade(enc, actions) && Perform(EncoderAtEnd(enc, actions), a).Ok?
    ensures AllMade(enc, actions + [a])
    ensures MadeBy(enc, actions + [a]) == MadeBy(enc, actions) + [Perform(EncoderAtEnd(enc, actions), a).value.1]
    ensures EncoderAtEnd(enc, actions + [a]) == Perform(EncoderAtEnd(enc, actions), a).value.0
    decreases |actions|
  {
    hide Perform;
    var longer := actions + [a];
    if actions == [] {
      assert longer == [a] && longer[1..] == [];
      assert MadeBy(EncoderAfter(enc, a), []) == [];
    } else {
      assert longer[1..] == actions[1..] + [a];
      MadeAppend(EncoderAfter(enc, actions[0]), actions[1..], a);
    }
  }

  lemma {:induction false} MadePrefix(enc: Encoder, actions: seq<Action>, k: nat)
    requires AllMade(enc, actions) && k <= |actions|
    ensures AllMade(enc, actions[..k]) && MadeBy(enc, actions[..k]) == MadeBy(enc, actions)[..k]
    decreases k
  {
    hide Perform;
    if k > 0 {
      var next := EncoderAfter(enc, actions[0]);
      MadePrefix(next, actions[1..], k - 1);
      assert actions[..k][1..] == actions[1..][..k - 1];
    }
  }

  // ----- packets that leave --------------------------------------------------------------------

  /** The run with its packets sent or withheld as the transport chooses. */
  ghost function Chosen(actions: seq<Action>, keep: seq<bool>): seq<Action>
    requires |keep| == |actions|
    decreases |actions|
  {
    if actions == [] then []
    else [if actions[0].Send? then actions[0].(sent := keep[0]) else actions[0]] + Chosen(actions[1..], keep[1..])
  }

  /** The bytes of the packets that leave. */
  ghost function WiresOf(plans: seq<Plan>, keep: seq<bool>): seq<byte>
    requires |keep| == |plans| && forall i :: 0 <= i < |plans| ==> plans[i].chunkSize > 0
  {
    if plans == [] then [] else (if keep[0] then Wire(plans[0]) else []) + WiresOf(plans[1..], keep[1..])
  }

  ghost function KeptMessages(actions: seq<Action>, keep: seq<bool>): seq<RawMessage>
    requires |keep| == |actions|
  {
    if actions == [] then []
        else (if keep[0] then [MessageOf(actions[0])] else []) + KeptMessages(actions[1..], keep[1..])
  }

  /** Only packets that may be dropped are withheld. */
  ghost predicate Faithful(actions: seq<Action>, keep: seq<bool>) {
    && |keep| == |actions|
    && (forall i :: 0 <= i < |actions| ==> keep[i] || (actions[i].Send? && actions[i].options.droppable))
  }

  /** Ordinary messages within the peer's limits, and acceptable chunk sizes. */
  ghost predicate Acceptable(limits: Limits, a: Action) {
    && |MessageOf(a).data| <= limits.maxMessageSize
    && (a.Resize? ==> a.size <= limits.maxChunkSize)
    && (a.Send? ==> a.m.typeId != TYPE_SET_CHUNK_SIZE && a.m.typeId != TYPE_ABORT)
  }

  lemma {:induction false} MadeSizes(enc: Encoder, actions: seq<Action>)
    requires enc.chunkSize > 0
    ensures forall i :: 0 <= i < |MadeBy(enc, actions)| ==> MadeBy(enc, actions)[i].chunkSize > 0
    decreases |actions|
  {
    hide Perform;
    if actions != [] {
      ActionKeepsSize(enc, actions[0]);
      MadeSizes(EncoderAfter(enc, actions[0]), actions[1..]);
    }
  }

  lemma SentMatters(enc: Encoder, a: Action, sent: bool)
    requires a.Send?
    ensures Perform(enc, a.(sent := sent)) == Perform(enc, a)
  {
  }

  /** Withholding packets changes neither the packets made nor the messages they carry. */
  lemma {:induction false} ChosenTransmits(enc: Encoder, actions: seq<Action>, keep: seq<bool>)
    requires enc.chunkSize > 0 && AllMade(enc, actions) && Faithful(actions, keep)
    ensures forall i :: 0 <= i < |MadeBy(enc, actions)| ==> MadeBy(enc, actions)[i].chunkSize > 0
    ensures Transmitted(enc, Chosen(actions, keep)) == WiresOf(MadeBy(enc, actions), keep)
    ensures Messages(enc, Chosen(actions, keep)) == KeptMessages(actions, keep)
    ensures EncoderAtEnd(enc, Chosen(actions, keep)) == EncoderAtEnd(enc, actions)
    decreases |actions|
  {
    hide Perform, Wire;
    MadeSizes(enc, actions);
    if actions != [] {
      var a := actions[0];
      var b := if a.Send? then a.(sent := keep[0]) else a;
      if a.Send? {
        SentMatters(enc, a, keep[0]);
      }
      ActionKeepsSize(enc, a);
      var chosen := Chosen(actions, keep);
      assert chosen[0] == b && chosen[1..] == Chosen(actions[1..], keep[1..]);
      var plans := MadeBy(enc, actions);
      assert plans[1..] == MadeBy(EncoderAfter(enc, a), actions[1..]);
      ChosenTransmits(EncoderAfter(enc, a), actions[1..], keep[1..]);
    }
  }

  lemma ChosenProper(enc: Encoder, limits: Limits, a: Action, keep: bool)
    requires Acceptable(limits, a) && (keep || (a.Send? && a.options.droppable))
    ensures Proper(enc, limits, if a.Send? then a.(sent := keep) else a)
  {
  }

  lemma {:induction false} ChosenProperRun(enc: Encoder, limits: Limits, actions: seq<Action>, keep: seq<bool>)
    requires AllMade(enc, actions) && Faithful(actions, keep)
    requires forall i :: 0 <= i < |actions| ==> Acceptable(limits, actions[i])
    ensures ProperRun(enc, limits, Chosen(actions, keep))
    decreases |actions|
  {
    hide Perform, Proper, Acceptable;
    if actions != [] {
      var a := actions[0];
      ChosenProper(enc, limits, a, keep[0]);
      if a.Send? {
        SentMatters(enc, a, keep[0]);
      }
      var chosen := Chosen(actions, keep);
      assert chosen[1..] == Chosen(actions[1..], keep[1..]);
      ChosenProperRun(EncoderAfter(enc, a), limits, actions[1..], keep[1..]);
    }
  }

  /** If the packets of a connection leave in the order in which they were made, except for some
      droppable ones, the peer decodes exactly the messages of those that left, and ends in step
      with the encoder. */
  lemma PeerDecodes(limits: Limits, actions: seq<Action>, keep: seq<bool>)
    requires Admits(limits) && AllMade(NewEncoder, actions) && Faithful(actions, keep)
    requires ProperRun(NewEncoder, limits, Chosen(actions, keep))
    ensures forall i :: 0 <= i < |actions| ==> MadeBy(NewEncoder, actions)[i].chunkSize > 0
    ensures var s := ReceiveAll(Fresh(limits), WiresOf(MadeBy(NewEncoder, actions), keep));
            && s.Live? && s.messages == KeptMessages(actions, keep) && s.receiver.parser.limits == limits
            && Synced(EncoderAtEnd(NewEncoder, actions), s.receiver)
  {
    hide ReceiveAll, Proper, Perform, Synced;
    ChosenTransmits(NewEncoder, actions, keep);
    FreshSynced(limits);
    RunRoundTrip(NewEncoder, Fresh(limits), Chosen(actions, keep));
  }

  /** No message imitates those of the chunk layer. */
  ghost predicate Ordinary(actions: seq<Action>) {
    forall i :: 0 <= i < |actions| && actions[i].Send? ==>
      actions[i].m.typeId != TYPE_SET_CHUNK_SIZE && actions[i].m.typeId != TYPE_ABORT
  }

  /** The peer's limits admit these packets. */
  ghost predicate WithinLimits(limits: Limits, actions: seq<Action>) {
    forall i :: 0 <= i < |actions| ==>
      |MessageOf(actions[i]).data| <= limits.maxMessageSize
          && (actions[i].Resize? ==> actions[i].size <= limits.maxChunkSize)
  }

  /** Ordinary messages within the peer's limits make a proper run, whatever droppable packets are
      withheld. */
  lemma OrdinaryProper(limits: Limits, actions: seq<Action>, k: nat, keep: seq<bool>)
    requires AllMade(NewEncoder, actions) && Ordinary(actions) && k <= |actions|
    requires Faithful(actions[..k], keep) && WithinLimits(limits, actions[..k])
    ensures ProperRun(NewEncoder, limits, Chosen(actions[..k], keep))
  {
    hide Perform, MadeBy, ProperRun;
    var sent := actions[..k];
    MadePrefix(NewEncoder, actions, k);
    forall i | 0 <= i < |sent|
      ensures Acceptable(limits, sent[i])
    {
      assert sent[i] == actions[i];
    }
    ChosenProperRun(NewEncoder, limits, sent, keep);
  }

  /** The same for the packets that have left so far. */
  lemma ReleasedDecodes(limits: Limits, actions: seq<Action>, released: seq<Plan>, keep: seq<bool>)
    requires Admits(limits) && AllMade(NewEncoder, actions) && released <= MadeBy(NewEncoder, actions)
    requires |released| <= |actions| && Faithful(actions[..|released|], keep)
    requires ProperRun(NewEncoder, limits, Chosen(actions[..|released|], keep))
    ensures forall i :: 0 <= i < |released| ==> released[i].chunkSize > 0
    ensures var s := ReceiveAll(Fresh(limits), WiresOf(released, keep));
            && s.Live? && s.messages == KeptMessages(actions[..|released|], keep) && s.receiver.parser.limits == limits
            && Synced(EncoderAtEnd(NewEncoder, actions[..|released|]), s.receiver)
  {
    hide ReceiveAll, Perform, WiresOf, KeptMessages, Synced, ProperRun;
    var sent := actions[..|released|];
    MadePrefix(NewEncoder, actions, |released|);
    assert MadeBy(NewEncoder, sent) == released;
    PeerDecodes(limits, sent, keep);
  }

  // ----- step by step ----------------------------------------------------------------------------

  /** From `before`, these actions make these packets and lead to `after`. */
  ghost predicate Makes(before: Encoder, actions: seq<Action>, plans: seq<Plan>, after: Encoder) {
    && AllMade(before, actions) && Ordinary(actions)
    && plans == MadeBy(before, actions) && after == EncoderAtEnd(before, actions)
  }

  lemma MakesNothing(enc: Encoder)
    ensures Makes(enc, [], [], enc)
  {
  }

  lemma MakesOn(before: Encoder, actions: seq<Action>, plans: seq<Plan>, mid: Encoder, a: Action)
    requires Makes(before, actions, plans, mid) && Perform(mid, a).Ok?
    requires a.Send? ==> a.m.typeId != TYPE_SET_CHUNK_SIZE && a.m.typeId != TYPE_ABORT
    ensures Makes(before, actions + [a], plans + [Perform(mid, a).value.1], Perform(mid, a).value.0)
  {
    hide Perform, AllMade, MadeBy, EncoderAtEnd;
    MadeAppend(before, actions, a);
  }

  lemma {:induction false} MakesConcat(before: Encoder, first: seq<Action>, plans: seq<Plan>, mid: Encoder,
                                       second: seq<Action>, later: seq<Plan>, after: Encoder)
    requires Makes(before, first, plans, mid) && Makes(mid, second, later, after)
    ensures Makes(before, first + second, plans + later, after)
    decreases |second|
  {
    hide Perform;
    if second == [] {
      assert first + second == first && plans + later == plans;
    } else {
      var a := second[0];
      var next := EncoderAfter(mid, a);
      assert second == [a] + second[1..] && first + second == first + [a] + second[1..];
      var p := Perform(mid, a).value.1;
      MakesOn(before, first, plans, mid, a);
      assert later == [p] + MadeBy(next, second[1..]);
      assert plans + later == plans + [p] + MadeBy(next, second[1..]);
      MakesConcat(before, first + [a], plans + [p], next, second[1..], MadeBy(next, second[1..]), after);
    }
  }
}
