/** Bytes, fixed-width big- and little-endian fields, and the failure datatypes used throughout. */
module Base {
  type byte = x: int | 0 <= x < 0x100
  type u24 = x: int | 0 <= x < 0x100_0000
  type u32 = x: int | 0 <= x < 0x1_0000_0000

  /** The 24-bit field value that announces an extended timestamp. */
  const MAX24: u24 := 0xff_ffff

  datatype Option<+T> = None | Some(value: T)

  datatype Result<+T, +E> = Ok(value: T) | Err(error: E) {
    predicate IsFailure() {
      Err?
    }
    function PropagateFailure<U>(): Result<U, E>
      requires Err?
    {
      Err(error)
    }
    function Extract(): T
      requires Ok?
    {
      value
    }
  }

  function Min(a: int, b: int): int {
    if a <= b then a else b
  }

  /** Wrapping 32-bit addition, as `RtmpTimestamp` addition does. */
  function Add32(a: u32, b: u32): u32 {
    (a + b) % 0x1_0000_0000
  }

  /** Wrapping 32-bit subtraction. */
  function Sub32(a: u32, b: u32): u32 {
    (a - b) % 0x1_0000_0000
  }

  function Be24(n: u24): (s: seq<byte>)
    ensures |s| == 3
  {
    [n / 0x1_0000, n / 0x100 % 0x100, n % 0x100]
  }

  function FromBe24(s: seq<byte>): u24
    requires |s| >= 3
  {
    s[0] as int * 0x1_0000 + s[1] as int * 0x100 + s[2] as int
  }

  function Be32(n: u32): (s: seq<byte>)
    ensures |s| == 4
  {
    [n / 0x100_0000, n / 0x1_0000 % 0x100, n / 0x100 % 0x100, n % 0x100]
  }

  function FromBe32(s: seq<byte>): u32
    requires |s| >= 4
  {
    s[0] as int * 0x100_0000 + s[1] as int * 0x1_0000 + s[2] as int * 0x100 + s[3] as int
  }

  function Le32(n: u32): (s: seq<byte>)
    ensures |s| == 4
  {
    [n % 0x100, n / 0x100 % 0x100, n / 0x1_0000 % 0x100, n / 0x100_0000]
  }

  function FromLe32(s: seq<byte>): u32
    requires |s| >= 4
  {
    s[3] as int * 0x100_0000 + s[2] as int * 0x1_0000 + s[1] as int * 0x100 + s[0] as int
  }

  lemma Be24RoundTrip(n: u24)
    ensures FromBe24(Be24(n)) == n
  {
  }

  /** The four base-256 digits of a 32-bit value add up to it. */
  lemma Digits32(n: u32)
    ensures n == n / 0x100_0000 * 0x100_0000 + n / 0x1_0000 % 0x100 * 0x1_0000 + n / 0x100 % 0x100 * 0x100 + n % 0x100
  {
    var a := n / 0x100;
    var b := a / 0x100;
    assert b == n / 0x1_0000;
    assert b / 0x100 == n / 0x100_0000;
    assert n == a * 0x100 + n % 0x100;
    assert a == b * 0x100 + a % 0x100;
    assert b == b / 0x100 * 0x100 + b % 0x100;
  }

  lemma Be32RoundTrip(n: u32)
    ensures FromBe32(Be32(n)) == n
  {
    Digits32(n);
  }

  lemma Le32RoundTrip(n: u32)
    ensures FromLe32(Le32(n)) == n
  {
    Digits32(n);
  }

  /** The concatenation of a sequence of byte pieces. */
  function Flatten<T>(pieces: seq<seq<T>>): seq<T> {
    if pieces == [] then [] else pieces[0] + Flatten(pieces[1..])
  }

  lemma {:induction false} FlattenConcat<T>(a: seq<seq<T>>, b: seq<seq<T>>)
    ensures Flatten(a + b) == Flatten(a) + Flatten(b)
  {
    if a == [] {
      assert a + b == b;
    } else {
      assert (a + b)[1..] == a[1..] + b;
      FlattenConcat(a[1..], b);
    }
  }

  lemma FlattenOne<T>(s: seq<T>)
    ensures Flatten([s]) == s
  {
    var one := [s];
    assert one[1..] == [];
    assert Flatten(one[1..]) == [];
  }

  lemma FlattenNext<T>(pieces: seq<seq<T>>, i: nat)
    requires i < |pieces|
    ensures Flatten(pieces[..i + 1]) == Flatten(pieces[..i]) + pieces[i]
    ensures Flatten(pieces) == Flatten(pieces[..i + 1]) + Flatten(pieces[i + 1..])
  {
    hide Flatten;
    FlattenOne(pieces[i]);
    FlattenConcat(pieces[..i], [pieces[i]]);
    assert pieces[..i + 1] == pieces[..i] + [pieces[i]];
    FlattenConcat(pieces[..i + 1], pieces[i + 1..]);
    assert pieces == pieces[..i + 1] + pieces[i + 1..];
  }

  lemma AtLeastOnce(d: int, m: nat)
    requires d >= 1
    ensures d * m >= m
  {
  }

  /** Quotient and remainder are unique. */
  lemma DivUnique(x: nat, m: nat, q: nat, r: nat)
    requires m > 0 && x == q * m + r && r < m
    ensures x / m == q && x % m == r
  {
    var d := x / m - q;
    assert d * m == r - x % m;
    if d > 0 {
      AtLeastOnce(d, m);
    } else if d < 0 {
      AtLeastOnce(-d, m);
    }
  }

  lemma Added<K, V>(m: map<K, V>, k: K, v: V)
    requires k !in m
    ensures |m[k := v]| == |m| + 1
  {
    assert m[k := v].Keys == m.Keys + {k};
  }

  lemma Fewer<K, V>(m: map<K, V>, k: K)
    ensures |m - {k}| <= |m|
  {
    assert m.Keys == (m - {k}).Keys + (m.Keys * {k});
  }
}
