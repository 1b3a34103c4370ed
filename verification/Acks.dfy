/** Acknowledgement arithmetic (section 5.4.3 of the RTMP 1.0 specification), shared by both session
    kinds: a cumulative byte counter, and a counter of bytes since the last acknowledgement. */
module Acks {
  import opened Base

  const WRAP32: nat := 0x1_0000_0000
  const WRAP64: nat := 0x1_0000_0000_0000_0000

  datatype Counter = Counter(received: nat, since: nat)

  const NewCounter := Counter(0, 0)

  /** Count the bytes one decode step consumed; a sequence number is due when the window is full. */
  function Tally(c: Counter, consumed: nat, window: nat): (Counter, Option<u32>)
    requires window > 0
  {
    var received := (c.received + consumed) % WRAP64;
    var since := (c.since + consumed % WRAP32) % WRAP32;
    if since >= window then (Counter(received, since % window), Some(received % WRAP32))
    else (Counter(received, since), None)
  }

  /** The counters after a run of steps, each with the window then in force. */
  function TallyAll(c: Counter, steps: seq<(nat, nat)>): Counter
    requires forall i :: 0 <= i < |steps| ==> steps[i].1 > 0
    decreases |steps|
  {
    if steps == [] then c
    else Tally(TallyAll(c, steps[..|steps| - 1]), steps[|steps| - 1].0, steps[|steps| - 1].1).0
  }

  function Total(steps: seq<(nat, nat)>): nat {
    if steps == [] then 0 else Total(steps[..|steps| - 1]) + steps[|steps| - 1].0
  }

  /** No step overflows the 32-bit counter of unacknowledged bytes. */
  ghost predicate NoOverflow(c: Counter, steps: seq<(nat, nat)>)
    requires forall i :: 0 <= i < |steps| ==> steps[i].1 > 0
  {
    steps == [] ||
    (NoOverflow(c, steps[..|steps| - 1]) && TallyAll(c, steps[..|steps| - 1]).since + steps[|steps| - 1].0 < WRAP32)
  }

  lemma ModAdd(a: nat, b: nat, m: nat)
    requires m > 0
    ensures (a % m + b) % m == (a + b) % m
  {
    var q := a / m;
    assert a == q * m + a % m;
    ModShift(a % m + b, q, m);
  }

  lemma {:induction false} ModShift(x: nat, q: nat, m: nat)
    requires m > 0
    ensures (q * m + x) % m == x % m
    decreases q
  {
    if q == 0 {
    } else {
      ModShift(x, q - 1, m);
      assert q * m + x == ((q - 1) * m + x) + m;
      ModStep((q - 1) * m + x, m);
    }
  }

  lemma ModStep(y: nat, m: nat)
    requires m > 0
    ensures (y + m) % m == y % m
  {
    var q, r := y / m, y % m;
    assert y + m == (q + 1) * m + r;
    DivUnique(y + m, m, q + 1, r);
  }

  lemma ModNested(x: nat)
    ensures x % WRAP64 % WRAP32 == x % WRAP32
  {
  }

  /** Whatever windows are in force over a run, the cumulative counter is the total, and the 32-bit
      counter since the last acknowledgement is below the window of the last step. */
  lemma {:induction false} RunTallies(steps: seq<(nat, nat)>)
    requires forall i :: 0 <= i < |steps| ==> steps[i].1 > 0
    ensures TallyAll(NewCounter, steps).received == Total(steps) % WRAP64
    ensures steps != [] ==> TallyAll(NewCounter, steps).since < steps[|steps| - 1].1
    decreases |steps|
  {
    if steps != [] {
      var before := steps[..|steps| - 1];
      RunTallies(before);
      ModAdd(Total(before), steps[|steps| - 1].0, WRAP64);
    }
  }

  /** The sequence number of an acknowledgement is the total number of bytes received, modulo 2^32. */
  lemma SequenceNumberIsTotal(steps: seq<(nat, nat)>, consumed: nat, window: nat)
    requires forall i :: 0 <= i < |steps| ==> steps[i].1 > 0
    requires window > 0 && Tally(TallyAll(NewCounter, steps), consumed, window).1.Some?
    ensures Tally(TallyAll(NewCounter, steps), consumed, window).1.value == (Total(steps) + consumed) % WRAP32
  {
    RunTallies(steps);
    ModAdd(Total(steps), consumed, WRAP64);
    ModNested(Total(steps) + consumed);
  }

  lemma TallyUnwrapped(c: Counter, consumed: nat, window: nat)
    requires window > 0 && c.since + consumed < WRAP32
    ensures var sum := c.since + consumed; var (next, ack) := Tally(c, consumed, window);
            (ack.Some? <==> sum >= window) && next.since == if sum >= window then sum % window else sum
  {
  }

  lemma FixedStep(c: Counter, total: nat, consumed: nat, window: nat)
    requires window > 0 && c.since == total % window && c.since + consumed < WRAP32
    ensures Tally(c, consumed, window).0.since == (total + consumed) % window
    ensures Tally(c, consumed, window).1.Some? <==> total % window + consumed >= window
  {
    hide Tally;
    TallyUnwrapped(c, consumed, window);
    ModAdd(total, consumed, window);
    if c.since + consumed < window {
      DivUnique(c.since + consumed, window, 0, c.since + consumed);
    }
  }

  /** With a fixed window, the unacknowledged count is the total modulo the window. */
  lemma {:induction false} FixedWindow(steps: seq<(nat, nat)>, window: nat)
    requires window > 0 && forall i :: 0 <= i < |steps| ==> steps[i].1 == window
    requires NoOverflow(NewCounter, steps)
    ensures TallyAll(NewCounter, steps).since == Total(steps) % window
    decreases |steps|
  {
    hide Tally;
    if steps == [] {
      DivUnique(0, window, 0, 0);
    } else {
      var before := steps[..|steps| - 1];
      FixedWindow(before, window);
      FixedStep(TallyAll(NewCounter, before), Total(before), steps[|steps| - 1].0, window);
    }
  }

  lemma CrossingStep(total: nat, consumed: nat, window: nat)
    requires window > 0
    ensures total % window + consumed >= window <==> (total + consumed) / window > total / window
  {
    var q, r := total / window, total % window;
    assert total == q * window + r;
    if r + consumed < window {
      DivUnique(total + consumed, window, q, r + consumed);
    } else {
      Quotient(total + consumed, window, q + 1);
    }
  }

  lemma Quotient(x: nat, m: nat, q: nat)
    requires m > 0 && x >= q * m
    ensures x / m >= q
  {
    if x / m < q {
      AtLeastOnce(q - x / m, m);
    }
  }

  /** With a fixed window, an acknowledgement is due exactly when the total crosses a multiple of it. */
  lemma AcknowledgesMultiples(steps: seq<(nat, nat)>, consumed: nat, window: nat)
    requires window > 0 && forall i :: 0 <= i < |steps| ==> steps[i].1 == window
    requires NoOverflow(NewCounter, steps + [(consumed, window)])
    ensures Tally(TallyAll(NewCounter, steps), consumed, window).1.Some? <==>
            (Total(steps) + consumed) / window > Total(steps) / window
  {
    hide Tally;
    assert (steps + [(consumed, window)])[..|steps|] == steps;
    FixedWindow(steps, window);
    FixedStep(TallyAll(NewCounter, steps), Total(steps), consumed, window);
    CrossingStep(Total(steps), consumed, window);
  }

  /** The exact condition: a full window is noticed unless the 32-bit counter wraps to below it. */
  lemma NoticedUnlessWrapped(c: Counter, consumed: nat, window: nat)
    requires 0 < window < WRAP32
    ensures (Tally(c, consumed, window).1.Some? <==> c.since + consumed >= window) <==>
            (c.since + consumed < WRAP32 || (c.since + consumed) % WRAP32 >= window)
  {
    ModAdd(consumed, c.since, WRAP32);
    Noticed(c.since + consumed, window);
  }

  lemma Noticed(sum: nat, window: nat)
    requires 0 < window < WRAP32
    ensures (sum % WRAP32 >= window <==> sum >= window) <==> (sum < WRAP32 || sum % WRAP32 >= window)
  {
    if sum < WRAP32 {
      assert sum % WRAP32 == sum;
    }
  }

  /** Such a wrap loses an acknowledgement. A session with the largest window receives one byte less
      than that, then two more. */
  lemma WrapLosesAcknowledgement()
    ensures var c := TallyAll(NewCounter, [(0xffff_fffe, 0xffff_ffff)]);
            c.since + 2 >= 0xffff_ffff && Tally(c, 2, 0xffff_ffff).1 == None
  {
    var steps := [(0xffff_fffe, 0xffff_ffff)];
    assert steps[..0] == [];
  }
}
