/** What a client session keeps track of: its transactions and its streams, and the laws that tie
    them together. */
module ClientState {
  import opened Base
  import opened StreamsModule

  datatype ConnectionState = Disconnected | Connecting | Connected | Failed

  datatype StreamState = Creating | StartingPlayback | Playing | StartingPublish | Publishing

  datatype PublishMode = LiveMode | RecordMode | AppendMode

  datatype Purpose = PlayRequest(key: seq<byte>) | PublishRequest(key: seq<byte>, mode: PublishMode)

  datatype Transaction = ConnectionRequested(app: seq<byte>) | CreateStream(stream: Handle, purpose: Purpose)

  type Transactions = map<nat, Transaction>
  type Entries = map<Handle, Entry<StreamState>>

  /** Transaction `t` is to create the stream `h`. */
  predicate Names(open: Transactions, t: nat, h: Handle) {
    t in open && open[t].CreateStream? && open[t].stream == h
  }

  predicate Connects(open: Transactions, t: nat) {
    t in open && open[t].ConnectionRequested?
  }

  /** At most one transaction is about any one thing. */
  ghost predicate Orderly(open: Transactions, issued: set<Handle>) {
    && (forall t :: t in open && open[t].CreateStream? ==> open[t].stream in issued)
    && (forall t, u, h :: Names(open, t, h) && Names(open, u, h) ==> t == u)
    && (forall t, u :: Connects(open, t) && Connects(open, u) ==> t == u)
  }

  /** A session is connecting iff a connect is outstanding. */
  ghost predicate ConnectionLaw(state: ConnectionState, open: Transactions) {
    state == Connecting <==> exists t :: Connects(open, t)
  }

  /** A live stream is being created iff it has no wire ID iff a createStream for it is outstanding. */
  ghost predicate StreamLaw(open: Transactions, live: Entries) {
    && (forall h :: h in live ==> (live[h].state == Creating <==> live[h].wire.None?))
    && (forall h :: h in live ==> (live[h].state == Creating <==> exists t :: Names(open, t, h)))
  }

  ghost predicate Lifecycle(state: ConnectionState, open: Transactions, live: Entries, issued: set<Handle>) {
    Orderly(open, issued) && ConnectionLaw(state, open) && StreamLaw(open, live)
  }

  // ----- what each change keeps ---------------------------------------------------------------------

  lemma BeginsConnecting(state: ConnectionState, open: Transactions, live: Entries, issued: set<Handle>, t: nat,
          app: seq<byte>)
    requires Lifecycle(state, open, live, issued) && state == Disconnected && t !in open
    ensures Lifecycle(Connecting, open[t := ConnectionRequested(app)], live, issued)
  {
    var grown := open[t := ConnectionRequested(app)];
    assert Connects(grown, t);
    forall h, u
      ensures Names(grown, u, h) <==> Names(open, u, h)
    {
    }
    forall u | Connects(grown, u)
      ensures u == t
    {
      assert u != t ==> Connects(open, u);
    }
    forall h | h in live
      ensures (exists u :: Names(grown, u, h)) <==> (exists u :: Names(open, u, h))
    {
      if u :| Names(open, u, h) {
        assert Names(grown, u, h);
      }
    }
  }

  lemma BeginsStream(state: ConnectionState, open: Transactions, live: Entries, issued: set<Handle>, t: nat, h: Handle,
          purpose: Purpose)
    requires Lifecycle(state, open, live, issued) && h !in issued && t !in open
    ensures Lifecycle(state, open[t := CreateStream(h, purpose)], live[h := Entry(None, Creating)], issued + {h})
  {
    var grown := open[t := CreateStream(h, purpose)];
    assert Names(grown, t, h);
    forall u
      ensures Connects(grown, u) <==> Connects(open, u)
    {
    }
    forall u, k
      ensures Names(grown, u, k) <==> Names(open, u, k) || (u == t && k == h)
    {
    }
    assert forall u :: !Names(open, u, h);
    assert ConnectionLaw(state, grown);
    forall k | k in live && k != h
      ensures (exists u :: Names(grown, u, k)) <==> (exists u :: Names(open, u, k))
    {
      if u :| Names(grown, u, k) {
        assert Names(open, u, k);
      }
      if u :| Names(open, u, k) {
        assert Names(grown, u, k);
      }
    }
  }

  /** Removing a stream leaves its createStream, if any, without a live stream. */
  lemma LosesStream(state: ConnectionState, open: Transactions, live: Entries, issued: set<Handle>, h: Handle)
    requires Lifecycle(state, open, live, issued)
    ensures Lifecycle(state, open, live - {h}, issued)
  {
  }

  lemma ConnectEnds(state: ConnectionState, open: Transactions, live: Entries, issued: set<Handle>, t: nat,
          after: ConnectionState)
    requires Lifecycle(state, open, live, issued) && Connects(open, t) && after != Connecting
    ensures Lifecycle(after, open - {t}, live, issued)
  {
    forall u
      ensures !Connects(open - {t}, u)
    {
      assert Connects(open - {t}, u) ==> Connects(open, u);
    }
    SameNames(open, t);
    NamesKept(open, t, live);
  }

  /** Taking away a connect takes away no createStream. */
  lemma SameNames(open: Transactions, t: nat)
    ensures forall u, h :: Names(open - {t}, u, h) <==> Names(open, u, h) && u != t
  {
  }

  lemma NamesKept(open: Transactions, t: nat, live: Entries)
    requires StreamLaw(open, live) && !(t in open && open[t].CreateStream? && open[t].stream in live)
    ensures StreamLaw(open - {t}, live)
  {
    SameNames(open, t);
    forall h | h in live
      ensures (exists u :: Names(open - {t}, u, h)) <==> (exists u :: Names(open, u, h))
    {
      if u :| Names(open, u, h) {
        assert Names(open - {t}, u, h);
      }
      if u :| Names(open - {t}, u, h) {
        assert Names(open, u, h);
      }
    }
  }

  /** The answer to a createStream whose stream is gone. */
  lemma CreateEndsUnused(state: ConnectionState, open: Transactions, live: Entries, issued: set<Handle>, t: nat,
          h: Handle)
    requires Lifecycle(state, open, live, issued) && Names(open, t, h) && h !in live
    ensures Lifecycle(state, open - {t}, live, issued)
  {
    SameNames(open, t);
    NamesKept(open, t, live);
    ConnectsKept(open, t);
  }

  lemma ConnectsKept(open: Transactions, t: nat)
    requires t in open && open[t].CreateStream?
    ensures forall u :: Connects(open - {t}, u) <==> Connects(open, u)
  {
  }

  /** The answer to the createStream of a live stream, which leaves the creating state. */
  lemma CreateEnds(state: ConnectionState, open: Transactions, live: Entries, issued: set<Handle>, t: nat, h: Handle,
          e: Entry<StreamState>)
    requires Lifecycle(state, open, live, issued) && Names(open, t, h) && h in live
    requires e.wire.Some? && e.state != Creating
    ensures Lifecycle(state, open - {t}, live[h := e], issued)
  {
    SameNames(open, t);
    ConnectsKept(open, t);
    var after := live[h := e];
    forall k | k in after
      ensures after[k].state == Creating <==> exists u :: Names(open - {t}, u, k)
    {
      if k == h {
        assert forall u :: Names(open, u, h) ==> u == t;
      } else {
        if u :| Names(open, u, k) {
          assert Names(open - {t}, u, k);
        }
        if u :| Names(open - {t}, u, k) {
          assert Names(open, u, k);
        }
      }
    }
  }

  /** A createStream that is refused: its stream goes with it. */
  lemma CreateRefused(state: ConnectionState, open: Transactions, live: Entries, issued: set<Handle>, t: nat, h: Handle)
    requires Lifecycle(state, open, live, issued) && Names(open, t, h)
    ensures Lifecycle(state, open - {t}, live - {h}, issued)
  {
    LosesStream(state, open, live, issued, h);
    CreateEndsUnused(state, open, live - {h}, issued, t, h);
  }

  /** A started stream changes between the states of a started stream. */
  lemma Advances(state: ConnectionState, open: Transactions, live: Entries, issued: set<Handle>, h: Handle,
          s: StreamState)
    requires Lifecycle(state, open, live, issued) && h in live && live[h].state != Creating && s != Creating
    ensures Lifecycle(state, open, live[h := live[h].(state := s)], issued)
  {
  }
}
