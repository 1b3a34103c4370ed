/** The incremental handshake. Random bytes and HMAC-SHA256 are parameters: any bytes, and any
    function to 32-byte digests. */
module HandshakeModule {
  import opened Base

  const PACKET: nat := 1536
  const DIGEST: nat := 32

  type Packet = s: seq<byte> | |s| == 1536 witness seq(1536, _ => 0)
  type Digest = s: seq<byte> | |s| == 32 witness seq(32, _ => 0)

  datatype Role = Server | Client

  function Other(role: Role): Role {
    if role == Server then Client else Server
  }

  /** Random choices, and the keyed digest with the keys of the two roles. */
  datatype Choices = Choices(
    first: seq<byte>,
    second: Packet,
    key: Role -> seq<byte>,
    longKey: Role -> seq<byte>,
    hmac: (seq<byte>, seq<byte>) -> Digest)

  predicate Usable(choices: Choices) {
    |choices.first| == 1524
  }

  // ----- packet 1 and its digest -------------------------------------------------------------------

  function Offset(role: Role, p: Packet): (offset: nat)
    ensures if role == Client then 12 <= offset <= 739 else 776 <= offset <= 1503
  {
    if role == Client then (p[8] as int + p[9] as int + p[10] as int + p[11] as int) % 728 + 12
    else (p[772] as int + p[773] as int + p[774] as int + p[775] as int) % 728 + 776
  }

  /** The packet without the digest at `offset`. */
  function Around(p: Packet, offset: nat): seq<byte>
    requires offset + DIGEST <= PACKET
  {
    p[..offset] + p[offset + DIGEST..]
  }

  function DigestAt(p: Packet, offset: nat): Digest
    requires offset + DIGEST <= PACKET
  {
    p[offset..offset + DIGEST]
  }

  /** Time zero, version, and random bytes up to the last four. */
  function Blank(first: seq<byte>): Packet
    requires |first| == 1524
  {
    [0, 0, 0, 0, 128, 0, 7, 2] + first + [0, 0, 0, 0]
  }

  function Stamp(p: Packet, offset: nat, d: Digest): Packet
    requires offset + DIGEST <= PACKET
  {
    p[..offset] + d + p[offset + DIGEST..]
  }

  /** The packet 1 that a role sends: its digest is written where its own bytes point. */
  function FirstPacket(role: Role, choices: Choices): Packet
    requires Usable(choices)
  {
    var blank := Blank(choices.first);
    var offset := Offset(role, blank);
    Stamp(blank, offset, choices.hmac(choices.key(role), Around(blank, offset)))
  }

  /** The digest of a received packet 1, found where either role would put it. */
  function FindDigest(p: Packet, key: seq<byte>, hmac: (seq<byte>, seq<byte>) -> Digest): Option<Digest> {
    var v1, v2 := Offset(Client, p), Offset(Server, p);
    if hmac(key, Around(p, v1)) == DigestAt(p, v1) then Some(DigestAt(p, v1))
    else if hmac(key, Around(p, v2)) == DigestAt(p, v2) then Some(DigestAt(p, v2))
    else None
  }

  lemma StampKeeps(p: Packet, offset: nat, d: Digest)
    requires offset + DIGEST <= PACKET
    ensures DigestAt(Stamp(p, offset, d), offset) == d && Around(Stamp(p, offset, d), offset) == Around(p, offset)
    ensures forall i :: 0 <= i < PACKET && !(offset <= i < offset + DIGEST) ==> Stamp(p, offset, d)[i] == p[i]
  {
    var s := Stamp(p, offset, d);
    assert s[..offset] == p[..offset] && s[offset + DIGEST..] == p[offset + DIGEST..];
  }

  /** The digest fits, and never overwrites the bytes that point to it. */
  lemma OffsetStable(role: Role, p: Packet, d: Digest)
    ensures Offset(role, p) + DIGEST <= PACKET
    ensures Offset(role, Stamp(p, Offset(role, p), d)) == Offset(role, p)
  {
    StampKeeps(p, Offset(role, p), d);
  }

  /** A packet 1 made by one role is always recognised by the other as one with a digest. */
  lemma DigestRecognised(role: Role, choices: Choices)
    requires Usable(choices)
    ensures FindDigest(FirstPacket(role, choices), choices.key(role), choices.hmac).Some?
  {
    var blank := Blank(choices.first);
    var offset := Offset(role, blank);
    var d := choices.hmac(choices.key(role), Around(blank, offset));
    OffsetStable(role, blank, d);
    StampKeeps(blank, offset, d);
  }

  // ----- the answer ----------------------------------------------------------------------------------

  /** Packet 2: an echo of a packet 1 without digest, or random bytes signed for its digest. */
  function Answer(role: Role, p: Packet, choices: Choices): Packet {
    match FindDigest(p, choices.key(Other(role)), choices.hmac)
    case None => p
    case Some(d) =>
      var body := choices.second[..PACKET - DIGEST];
      body + choices.hmac(choices.hmac(choices.longKey(role), d), body)
  }

  datatype Stage = NeedToSend | Waiting0 | Waiting1 | Waiting2 | Complete

  datatype Error = BadVersion | AlreadyCompleted

  datatype Progress = InProgress(response: seq<byte>) | Completed(response: seq<byte>, remaining: seq<byte>)

  /** All that is sent in answer to `input`, beside the two opening packets. */
  function Response(role: Role, input: seq<byte>, choices: Choices): seq<byte> {
    if |input| >= 1 + PACKET && input[0] == 3 then Answer(role, input[1..1 + PACKET], choices) else []
  }

  predicate Finished(input: seq<byte>) {
    |input| >= 1 + 2 * PACKET && input[0] == 3
  }

  /** Where the handshake stands once packets 0 and 1 are sent and `input` has come in. */
  function StageOf(input: seq<byte>): Stage {
    if |input| < 1 then Waiting0 else if |input| < 1 + PACKET then Waiting1
        else if |input| < 1 + 2 * PACKET then Waiting2 else Complete
  }

  function Unread(input: seq<byte>): seq<byte> {
    match StageOf(input)
    case Waiting1 => input[1..]
    case Waiting2 => input[1 + PACKET..]
    case _ => []
  }

  class Handshake {
    const role: Role
    const choices: Choices
    var stage: Stage
    var buffer: seq<byte>
    var sent: Packet
    /** What has come in, and what went out in answer. */
    ghost var fed: seq<byte>
    ghost var answered: seq<byte>

    ghost predicate Valid()
      reads this
    {
      && Usable(choices)
      && (stage == NeedToSend ==> fed == [] && buffer == [] && answered == [])
      && (stage != NeedToSend ==>
            && stage == StageOf(fed) && buffer == Unread(fed) && (fed != [] ==> fed[0] == 3)
            && sent == FirstPacket(role, choices) && answered == Response(role, fed, choices))
    }

    constructor (role: Role, choices: Choices)
      requires Usable(choices)
      ensures Valid() && stage == NeedToSend && this.role == role && this.choices == choices && fed == []
              && answered == []
    {
      this.role, this.choices, stage, buffer, sent := role, choices, NeedToSend, [], seq(1536, _ => 0);
      fed, answered := [], [];
    }

    /** Packets 0 and 1, which open the handshake. */
    method GenerateOutbound() returns (out: seq<byte>)
      requires Usable(choices) && stage == NeedToSend
      modifies this`stage, this`sent
      ensures stage == Waiting0 && sent == FirstPacket(role, choices) && out == [3] + sent
    {
      var blank := Blank(choices.first);
      var offset := Offset(role, blank);
      sent := Stamp(blank, offset, choices.hmac(choices.key(role), Around(blank, offset)));
      stage := Waiting0;
      return [3] + sent;
    }

    method ParseP0() returns (bad: bool)
      requires stage == Waiting0
      modifies this`stage, this`buffer
      ensures old(buffer) == [] ==> !bad && stage == Waiting0 && buffer == []
      ensures old(buffer) != [] ==>
              buffer == old(buffer)[1..] && (bad <==> old(buffer)[0] != 3) && (!bad ==> stage == Waiting1)
    {
      if |buffer| == 0 {
        return false;
      }
      var command := buffer[0];
      buffer := buffer[1..];
      if command != 3 {
        return true;
      }
      stage := Waiting1;
      return false;
    }

    method ParseP1() returns (out: seq<byte>)
      requires stage == Waiting1
      modifies this`stage, this`buffer
      ensures old(|buffer|) < PACKET ==> out == [] && stage == Waiting1 && buffer == old(buffer)
      ensures old(|buffer|) >= PACKET ==>
        stage == Waiting2 && buffer == old(buffer)[PACKET..] && out == Answer(role, old(buffer)[..PACKET], choices)
    {
      if |buffer| < PACKET {
        return [];
      }
      var received: Packet := buffer[..PACKET];
      buffer := buffer[PACKET..];
      stage := Waiting2;
      var digest := FindDigest(received, choices.key(Other(role)), choices.hmac);
      if digest.None? {
        return received;
      }
      var output: seq<byte> := choices.second;
      var inner := choices.hmac(choices.longKey(role), digest.value);
      var signature := choices.hmac(inner, output[..PACKET - DIGEST]);
      var i := 0;
      while i < DIGEST
        invariant 0 <= i <= DIGEST && |output| == PACKET
        invariant output == choices.second[..PACKET - DIGEST] + signature[..i] + choices.second[PACKET - DIGEST + i..]
      {
        output := output[PACKET - DIGEST + i := signature[i]];
        i := i + 1;
      }
      return output;
    }

    method ParseP2() returns (remaining: seq<byte>)
      requires stage == Waiting2
      modifies this`stage, this`buffer
      ensures old(|buffer|) < PACKET ==> remaining == [] && stage == Waiting2 && buffer == old(buffer)
      ensures old(|buffer|) >= PACKET ==> stage == Complete && buffer == [] && remaining == old(buffer)[PACKET..]
    {
      if |buffer| < PACKET {
        return [];
      }
      remaining := buffer[PACKET..];
      buffer, stage := [], Complete;
    }

    /** Take in some bytes of the peer. What is answered and what is left over depends only on all
        the bytes so far, not on how they were cut. */
    method ProcessBytes(data: seq<byte>) returns (r: Result<Progress, Error>)
      requires Valid()
      modifies this
      ensures r.Err? <==> old(stage) == Complete || (old(fed) + data != [] && (old(fed) + data)[0] != 3)
      ensures r.Err? ==> r.error == if old(stage) == Complete then AlreadyCompleted else BadVersion
      ensures r.Ok? ==>
        && Valid() && stage != NeedToSend && fed == old(fed) + data
        && r.value.response == (if old(stage) == NeedToSend then [3] + sent else []) + answered[|old(answered)|..]
        && old(answered) <= answered
        && (r.value.Completed? <==> Finished(fed)) && (r.value.Completed? <==> stage == Complete)
        && (r.value.Completed? ==> r.value.remaining == fed[1 + 2 * PACKET..])
    {
      hide FirstPacket, Answer, Reading, Soon, StageOf, Unread, Response, Finished, Usable;
      ghost var total := fed + data;
      ghost var opening: seq<byte> := if stage == NeedToSend then [3] + FirstPacket(role, choices) else [];
      AnswersSoFar(role, fed, data, choices);
      buffer := buffer + data;
      var response, leftOver: seq<byte> := [], [];
      ghost var extra: seq<byte> := [];
      if stage == Complete {
        return Err(AlreadyCompleted);
      }
      while true
        invariant Usable(choices) && fed == old(fed) && answered == old(answered)
        invariant stage != Complete && Reading(stage, buffer, total)
                  && (stage != NeedToSend ==> sent == FirstPacket(role, choices))
        invariant response == (if stage == NeedToSend then [] else opening) + extra
        invariant stage == NeedToSend ==> opening == [3] + FirstPacket(role, choices)
        invariant old(answered) + extra == Soon(role, stage, total, choices)
        decreases Left(stage)
      {
        var starting := stage;
        var bad, out;
        ghost var more;
        bad, out, leftOver, more := Round(total);
        if bad {
          return Err(BadVersion);
        }
        assert old(answered) + (extra + more) == (old(answered) + extra) + more;
        assert opening + (extra + more) == (opening + extra) + more;
        response, extra := response + out, extra + more;
        if stage == Complete || starting == stage {
          break;
        }
      }
      AnswersInAll(role, total, choices);
      fed, answered := total, answered + extra;
      return Result.Ok(if stage == Complete then Completed(response, leftOver) else InProgress(response));
    }

    /** One stage: it stays as it is exactly if bytes are missing. */
    method Round(ghost total: seq<byte>) returns (bad: bool, out: seq<byte>, leftOver: seq<byte>, ghost more: seq<byte>)
      requires Usable(choices) && stage != Complete && Reading(stage, buffer, total)
      requires stage != NeedToSend ==> sent == FirstPacket(role, choices)
      modifies this`stage, this`buffer, this`sent
      ensures bad ==> total != [] && total[0] != 3
      ensures !bad ==>
        && stage != NeedToSend && sent == FirstPacket(role, choices)
        && out == (if old(stage) == NeedToSend then [3] + sent else []) + more
        && Soon(role, old(stage), total, choices) + more == Soon(role, stage, total, choices)
        && (total != [] && (stage != Waiting0 || stage == old(stage)) ==> total[0] == 3)
      ensures !bad && stage != Complete ==> Reading(stage, buffer, total)
      ensures !bad && stage == old(stage) ==> stage == StageOf(total) && buffer == Unread(total) && more == []
      ensures !bad && stage != old(stage) ==> Left(stage) < Left(old(stage))
      ensures !bad && stage == Complete ==>
              StageOf(total) == Complete && buffer == [] && leftOver == total[1 + 2 * PACKET..]
    {
      hide FirstPacket, Answer;
      bad, out, leftOver, more := false, [], [], [];
      match stage {
      case NeedToSend =>
        out := GenerateOutbound();
      case Waiting0 =>
        bad := ParseP0();
      case Waiting1 =>
        out := ParseP1();
        more := out;
        assert |total| >= 1 + PACKET ==>
            total[1..][..PACKET] == total[1..1 + PACKET] && total[1..][PACKET..] == total[1 + PACKET..];
      case Waiting2 =>
        leftOver := ParseP2();
        assert |total| >= 1 + 2 * PACKET ==> total[1 + PACKET..][PACKET..] == total[1 + 2 * PACKET..];
      }
    }
  }

  function Left(stage: Stage): nat {
    match stage
    case NeedToSend => 4
    case Waiting0 => 3
    case Waiting1 => 2
    case Waiting2 => 1
    case Complete => 0
  }

  function Consumed(stage: Stage): nat {
    match stage
    case Waiting1 => 1
    case Waiting2 => 1 + PACKET
    case _ => 0
  }

  /** The buffer is what the stages passed have left of all input. */
  ghost predicate Reading(stage: Stage, buffer: seq<byte>, total: seq<byte>) {
    && Consumed(stage) <= |total| && buffer == total[Consumed(stage)..]
    && (stage == Waiting1 || stage == Waiting2 ==> total[0] == 3)
  }

  /** What has been answered by the time a stage is reached. */
  ghost function Soon(role: Role, stage: Stage, total: seq<byte>, choices: Choices): seq<byte> {
    if (stage == Waiting2 || stage == Complete)
        && |total| >= 1 + PACKET then Answer(role, total[1..1 + PACKET], choices) else []
  }

  lemma AnswersSoFar(role: Role, fed: seq<byte>, data: seq<byte>, choices: Choices)
    requires fed != [] ==> fed[0] == 3
    ensures StageOf(fed) != Complete ==>
            Response(role, fed, choices) + [] == Soon(role, StageOf(fed), fed + data, choices)
    ensures StageOf(fed) != Complete ==> Reading(StageOf(fed), Unread(fed) + data, fed + data)
    ensures fed == [] ==>
            Reading(NeedToSend, [] + data, fed + data) && Soon(role, NeedToSend, fed + data, choices) == []
  {
    hide Answer;
    if |fed| >= 1 + PACKET {
      assert (fed + data)[1..1 + PACKET] == fed[1..1 + PACKET];
    }
  }

  lemma AnswersInAll(role: Role, total: seq<byte>, choices: Choices)
    requires total != [] ==> total[0] == 3
    ensures Soon(role, StageOf(total), total, choices) == Response(role, total, choices)
    ensures Finished(total) <==> StageOf(total) == Complete
    ensures StageOf(total) == Complete ==> Unread(total) == []
    ensures StageOf(total) != NeedToSend
  {
    hide Answer;
  }

  // ----- whole handshakes ----------------------------------------------------------------------------

  /** Feed the peer's bytes in any pieces, until the handshake completes or fails. */
  method Feed(role: Role, choices: Choices, pieces: seq<seq<byte>>)
      returns (response: seq<byte>, remaining: Option<seq<byte>>, error: Option<Error>)
    requires Usable(choices)
    ensures var all := Flatten(pieces);
      && (error.Some? <==> all != [] && all[0] != 3) && (error.Some? ==> error.value == BadVersion)
      && (error.None? ==> response == if pieces == [] then []
           else [3] + FirstPacket(role, choices) + Response(role, all, choices))
      && (error.None? ==> remaining == if Finished(all) then Some(all[1 + 2 * PACKET..]) else None)
  {
    hide FirstPacket, Response, Answer, Finished, StageOf, Unread, Flatten;
    var handshake := new Handshake(role, choices);
    response, remaining, error := [], None, None;
    NothingFed(pieces);
    var i := 0;
    while i < |pieces|
      invariant 0 <= i <= |pieces| && handshake.Valid() && handshake.role == role && handshake.choices == choices
      invariant handshake.fed == Flatten(pieces[..i]) && !Finished(handshake.fed) && handshake.stage != Complete
      invariant i == 0 ==> handshake.stage == NeedToSend && response == []
      invariant i > 0 ==>
                handshake.stage != NeedToSend
                && response == [3] + FirstPacket(role, choices) + handshake.answered
    {
      FlattenNext(pieces, i);
      ghost var before := handshake.answered;
      var r := handshake.ProcessBytes(pieces[i]);
      if r.Err? {
        FlattenStarts(pieces, i + 1);
        return response, None, Some(r.error);
      }
      assert handshake.answered == before + handshake.answered[|before|..];
      response := response + r.value.response;
      if r.value.Completed? {
        ghost var fed := handshake.fed;
        assert pieces == pieces[..i + 1] + pieces[i + 1..];
        FlattenConcat(pieces[..i + 1], pieces[i + 1..]);
        Finality(role, fed, Flatten(pieces[i + 1..]), choices);
        return response, Some(r.value.remaining + Flatten(pieces[i + 1..])), None;
      }
      i := i + 1;
    }
    assert pieces[..i] == pieces;
  }

  lemma NothingFed(pieces: seq<seq<byte>>)
    ensures Flatten(pieces[..0]) == [] && !Finished([])
  {
  }

  lemma FlattenStarts(pieces: seq<seq<byte>>, i: nat)
    requires i <= |pieces|
    ensures Flatten(pieces[..i]) <= Flatten(pieces)
  {
    assert pieces == pieces[..i] + pieces[i..];
    FlattenConcat(pieces[..i], pieces[i..]);
  }

  /** Bytes after the end of a handshake change nothing but what is left over. */
  lemma Finality(role: Role, all: seq<byte>, more: seq<byte>, choices: Choices)
    requires Finished(all)
    ensures Finished(all + more) && Response(role, all + more, choices) == Response(role, all, choices)
    ensures (all + more)[1 + 2 * PACKET..] == all[1 + 2 * PACKET..] + more
  {
    hide Answer;
    assert (all + more)[1..1 + PACKET] == all[1..1 + PACKET];
  }

  /** Two sides of this implementation complete a handshake with each other, with nothing left
      over, and each answers the other's digest rather than echoing its packet. */
  lemma BothComplete(client: Choices, server: Choices, atServer: seq<byte>, atClient: seq<byte>)
    requires Usable(client) && Usable(server) && client.hmac == server.hmac && client.key == server.key
    requires atServer == [3] + FirstPacket(Client, client) + Response(Client, atClient, client)
    requires atClient == [3] + FirstPacket(Server, server) + Response(Server, [3] + FirstPacket(Client, client), server)
    ensures Finished(atServer) && Finished(atClient)
    ensures atServer[1 + 2 * PACKET..] == [] && atClient[1 + 2 * PACKET..] == []
    ensures FindDigest(atServer[1..1 + PACKET], server.key(Client), server.hmac).Some?
    ensures FindDigest(atClient[1..1 + PACKET], client.key(Server), client.hmac).Some?
  {
    hide FirstPacket, Answer, FindDigest;
    DigestRecognised(Client, client);
    DigestRecognised(Server, server);
    assert atServer[1..1 + PACKET] == FirstPacket(Client, client);
    assert atClient[1..1 + PACKET] == FirstPacket(Server, server);
  }
}
