/** Reading back what was written: tables stay numbered identically on both sides, and the
    document that comes back is the first-visit renumbering of the one that was written. */
module Amf3Proofs {
  import opened Base
  import opened Amf3

  // ----- integers -----------------------------------------------------------------------

  lemma U29RoundTrip(n: nat, rest: seq<byte>)
    requires n < 0x2000_0000
    ensures ReadU29(WriteU29(n) + rest) == Ok((n, rest))
  {
    var s := WriteU29(n) + rest;
    if n < 0x80 {
      assert s[1..] == rest;
    } else if n < 0x4000 {
      assert s[2..] == rest;
    } else if n < 0x20_0000 {
      assert s[3..] == rest;
      assert n == n / 0x4000 * 0x4000 + n / 0x80 % 0x80 * 0x80 + n % 0x80 by { Digits(n); }
    } else {
      assert s[4..] == rest;
      var m := n / 0x100;
      Digits(m);
      assert n == m * 0x100 + n % 0x100;
      assert m / 0x80 == n / 0x8000 && m / 0x4000 == n / 0x40_0000;
    }
  }

  lemma Digits(n: nat)
    ensures n == n / 0x4000 * 0x4000 + n / 0x80 % 0x80 * 0x80 + n % 0x80
  {
    var q := n / 0x80;
    assert n == q * 0x80 + n % 0x80;
    assert q / 0x80 == n / 0x4000;
    assert q == q / 0x80 * 0x80 + q % 0x80;
  }

  lemma IntegerRoundTrip(i: i32)
    requires InRange(i)
    ensures IntegerBits(i) < 0x2000_0000 && U29ToInteger(IntegerBits(i)) == i
  {
  }

  // ----- tables ------------------------------------------------------------------------

  /** Nothing has been dropped from the writer's tables. */
  ghost predicate Fits(c: EncodeContext) {
    |c.stringDemand| <= MAX_REFERENCES && |c.traitDemand| <= MAX_REFERENCES
  }

  /** `numbers` gives every entry of `list` its position, and nothing else. */
  ghost predicate Table<T>(numbers: map<T, nat>, list: seq<T>) {
    && |numbers| == |list|
    && (forall x :: x in numbers ==> numbers[x] < |list| && list[numbers[x]] == x)
  }

  lemma TableAdd<T>(numbers: map<T, nat>, list: seq<T>, x: T)
    requires Table(numbers, list) && x !in numbers
    ensures Table(numbers[x := |numbers|], list + [x])
    ensures |numbers.Keys + {x}| == |list| + 1
  {
    var more := numbers[x := |numbers|];
    assert more.Keys == numbers.Keys + {x};
    forall y | y in more
      ensures more[y] < |list + [x]| && (list + [x])[more[y]] == y
    {
      if y != x {
        assert y in numbers;
      }
    }
  }

  ghost predicate StringTables(c: EncodeContext, d: DecodeContext) {
    c.strings.Keys == c.stringDemand && [] !in c.strings && |d.strings| <= MAX_REFERENCES && Table(c.strings, d.strings)
  }

  ghost predicate TraitTables(c: EncodeContext, d: DecodeContext) {
    c.traits.Keys == c.traitDemand && |d.traits| <= MAX_REFERENCES && Table(c.traits, d.traits)
  }

  /** Writer and reader number strings and traits identically. */
  ghost predicate Tables(c: EncodeContext, d: DecodeContext) {
    StringTables(c, d) && TraitTables(c, d)
  }

  lemma {:induction false} Unfit(c: EncodeContext, c': EncodeContext)
    requires c.stringDemand <= c'.stringDemand && c.traitDemand <= c'.traitDemand && !Fits(c)
    ensures !Fits(c')
  {
    if |c.stringDemand| > MAX_REFERENCES {
      SubsetSmaller(c.stringDemand, c'.stringDemand);
    } else {
      SubsetSmaller(c.traitDemand, c'.traitDemand);
    }
  }

  lemma SubsetSmaller<T>(a: set<T>, b: set<T>)
    requires a <= b
    ensures |a| <= |b|
  {
    assert b == a + (b - a);
  }

  /** What reading a string must give: the string itself, or the table overflow. */
  ghost predicate StringBack(r: ReadStr, s: Str, rest: seq<byte>, c': EncodeContext, d: DecodeContext) {
    if Fits(c') then
      r.Ok? && r.value.0 == s && r.value.1 == rest && Tables(c', r.value.2) && r.value.2.objects == d.objects
    else r == Err(TooManyReferences)
  }

  /** A new string gets the same number on both sides, or overflows both tables' limit. */
  lemma InternStringTables(c: EncodeContext, d: DecodeContext, s: Str)
    requires Tables(c, d) && s != [] && s !in c.strings
    ensures Fits(InternString(c, s)) <==> |d.strings| < MAX_REFERENCES
    ensures Fits(InternString(c, s)) ==> Tables(InternString(c, s), d.(strings := d.strings + [s]))
  {
    hide Table, Indexed, TraitTables, StringTables;
    StringDemand(c, d, s);
    TraitDemand(c, d);
    if |d.strings| < MAX_REFERENCES {
      StringTablesGrow(c, d, s);
      TraitTablesSame(c, d, InternString(c, s), d.(strings := d.strings + [s]));
    }
  }

  lemma StringDemand(c: EncodeContext, d: DecodeContext, s: Str)
    requires StringTables(c, d) && s !in c.strings
    ensures |c.stringDemand| == |c.strings| == |d.strings| && |c.stringDemand + {s}| == |d.strings| + 1
  {
    hide Table;
    TableAdd(c.strings, d.strings, s);
    TableSize(c.strings, d.strings);
  }

  lemma TraitDemand(c: EncodeContext, d: DecodeContext)
    requires Tables(c, d)
    ensures |c.stringDemand| == |c.strings| == |d.strings| <= MAX_REFERENCES
    ensures |c.traitDemand| == |c.traits| == |d.traits| <= MAX_REFERENCES
  {
    hide Table;
    TableSize(c.strings, d.strings);
    TableSize(c.traits, d.traits);
  }

  lemma StringTablesGrow(c: EncodeContext, d: DecodeContext, s: Str)
    requires StringTables(c, d) && s != [] && s !in c.strings && |d.strings| < MAX_REFERENCES
    ensures StringTables(InternString(c, s), d.(strings := d.strings + [s]))
  {
    hide Table;
    StringDemand(c, d, s);
    TableAdd(c.strings, d.strings, s);
  }

  lemma TraitTablesSame(c: EncodeContext, d: DecodeContext, c': EncodeContext, d': DecodeContext)
    requires TraitTables(c, d) && c'.traits == c.traits && c'.traitDemand == c.traitDemand && d'.traits == d.traits
    ensures TraitTables(c', d')
  {
  }

  lemma TableEntry<T>(numbers: map<T, nat>, list: seq<T>, x: T)
    requires Table(numbers, list) && x in numbers
    ensures numbers[x] < |list| && list[numbers[x]] == x
  {
  }

  lemma TableSize<T>(numbers: map<T, nat>, list: seq<T>)
    requires Table(numbers, list)
    ensures |numbers| == |numbers.Keys| == |list|
  {
  }

  lemma StringReads(c: Context, d: DecodeContext, s: Str, rest: seq<byte>)
    requires Tables(c, d) && WriteString(c, s).Ok?
    ensures var (out, c') := WriteString(c, s).value;
            StringBack(ReadString(out + rest, d), s, rest, c', d)
  {
    hide WriteU29, ReadU29, InternString, TraitTables, Indexed, Table;
    var (out, c') := WriteString(c, s).value;
    if s == [] {
      U29RoundTrip(1, rest);
      TablesFit(c, d);
    } else if s in c.strings {
      TableEntry(c.strings, d.strings, s);
      U29RoundTrip(2 * c.strings[s], rest);
      TablesFit(c, d);
    } else {
      assert out + rest == WriteU29(2 * |s| + 1) + (s + rest);
      U29RoundTrip(2 * |s| + 1, s + rest);
      assert (s + rest)[..|s|] == s && (s + rest)[|s|..] == rest;
      InternStringTables(c, d, s);
    }
  }

  lemma TablesFit(c: EncodeContext, d: DecodeContext)
    requires Tables(c, d)
    ensures Fits(c)
  {
  }

  ghost predicate StringsBack(r: Result<(seq<Str>, seq<byte>, DecodeContext), DecodeError>, names: seq<Str>,
          rest: seq<byte>,
                              c': EncodeContext, d: DecodeContext) {
    if Fits(c') then
      r.Ok? && r.value.0 == names && r.value.1 == rest && Tables(c', r.value.2) && r.value.2.objects == d.objects
    else r == Err(TooManyReferences)
  }

  lemma {:induction false} StringsRead(c: Context, d: DecodeContext, names: seq<Str>, rest: seq<byte>)
    requires Tables(c, d) && WriteStrings(c, names).Ok?
    ensures var (out, c') := WriteStrings(c, names).value;
            StringsBack(ReadStrings(out + rest, d, |names|), names, rest, c', d)
    decreases |names|
  {
    hide Indexed, Tables, WriteString, ReadString, Fits;
    TablesFit(c, d);
    var (out, c') := WriteStrings(c, names).value;
    if names == [] {
      assert out + rest == rest;
    } else {
      var (first, c1) := WriteString(c, names[0]).value;
      var (others, c2) := WriteStrings(c1, names[1..]).value;
      assert out + rest == first + (others + rest);
      StringReads(c, d, names[0], others + rest);
      if Fits(c1) {
        var d1 := ReadString(first + (others + rest), d).value.2;
        StringsRead(c1, d1, names[1..], rest);
        assert [names[0]] + names[1..] == names;
      } else {
        Unfit(c1, c2);
      }
    }
  }

  lemma InternTraitTables(c: EncodeContext, d: DecodeContext, t: Trait)
    requires Tables(c, d) && t !in c.traits
    ensures Fits(InternTrait(c, t)) <==> |d.traits| < MAX_REFERENCES
    ensures Fits(InternTrait(c, t)) ==> Tables(InternTrait(c, t), d.(traits := d.traits + [t]))
  {
    hide Table, TraitTables, StringTables;
    TraitDemand(c, d);
    TraitGrows(c, d, t);
    if |d.traits| < MAX_REFERENCES {
      StringTablesSame(c, d, InternTrait(c, t), d.(traits := d.traits + [t]));
    }
  }

  lemma TraitGrows(c: EncodeContext, d: DecodeContext, t: Trait)
    requires TraitTables(c, d) && t !in c.traits
    ensures |c.traitDemand + {t}| == |d.traits| + 1
    ensures |d.traits| < MAX_REFERENCES ==> TraitTables(InternTrait(c, t), d.(traits := d.traits + [t]))
  {
    hide Table;
    TableAdd(c.traits, d.traits, t);
    TableSize(c.traits, d.traits);
  }

  lemma StringTablesSame(c: EncodeContext, d: DecodeContext, c': EncodeContext, d': DecodeContext)
    requires StringTables(c, d) && c'.strings == c.strings && c'.stringDemand == c.stringDemand
             && d'.strings == d.strings
    ensures StringTables(c', d')
  {
  }

  ghost predicate TraitBack(r: Result<(Trait, seq<byte>, DecodeContext), DecodeError>, t: Trait, rest: seq<byte>,
                            c': EncodeContext, d: DecodeContext) {
    if Fits(c') then
      r.Ok? && r.value.0 == t && r.value.1 == rest && Tables(c', r.value.2) && r.value.2.objects == d.objects
    else r == Err(TooManyReferences)
  }

  function TraitHeader(t: Trait): nat {
    16 * |t.names| + (if t.dynamic then 8 else 0) + 3
  }

  lemma TraitHeaderFields(t: Trait)
    ensures var h := TraitHeader(t);
            && h % 2 == 1 && h / 2 % 2 == 1 && h / 4 % 2 == 0 && h / 16 == |t.names|
            && (h / 8 % 2 == 1 <==> t.dynamic)
  {
    HeaderFields(|t.names|, if t.dynamic then 1 else 0);
  }

  lemma HeaderFields(n: nat, dynamic: nat)
    requires dynamic <= 1
    ensures var h := 16 * n + 8 * dynamic + 3;
            h % 2 == 1 && h / 2 % 2 == 1 && h / 4 % 2 == 0 && h / 8 % 2 == dynamic && h / 16 == n
  {
    var h := 16 * n + 8 * dynamic + 3;
    assert h / 2 == 8 * n + 4 * dynamic + 1;
    assert h / 4 == 4 * n + 2 * dynamic;
    assert h / 8 == 2 * n + dynamic;
  }

  /** Strings of an inline trait are read back, then the trait itself is numbered. */
  lemma InlineTraitReads(c: Context, d: DecodeContext, t: Trait, rest: seq<byte>)
    requires Tables(c, d) && |t.names| <= MAX_COLLECTION && t !in c.traits && WriteTrait(c, t).Ok?
    ensures var name := WriteString(c, t.className).value;
            var names := WriteStrings(name.1, t.names).value;
            TraitBack(ReadTrait(name.0 + (names.0 + rest), d, TraitHeader(t)), t, rest, InternTrait(names.1, t), d)
  {
    hide Indexed, Tables, WriteString, WriteStrings, ReadString, ReadStrings, Fits, InternTrait;
    var name := WriteString(c, t.className).value;
    var names := WriteStrings(name.1, t.names).value;
    TraitHeaderFields(t);
    StringReads(c, d, t.className, names.0 + rest);
    InternTraitDemand(names.1, t);
    if !Fits(name.1) {
      Unfit(name.1, names.1);
      Unfit(names.1, InternTrait(names.1, t));
    } else {
      var d1 := ReadString(name.0 + (names.0 + rest), d).value.2;
      StringsRead(name.1, d1, t.names, rest);
      if !Fits(names.1) {
        Unfit(names.1, InternTrait(names.1, t));
      } else {
        var d2 := ReadStrings(names.0 + rest, d1, |t.names|).value.2;
        WriteStringsKeepsTraits(c, t.className, t.names);
        InternTraitTables(names.1, d2, t);
      }
    }
  }

  lemma InternTraitDemand(c: EncodeContext, t: Trait)
    ensures c.stringDemand <= InternTrait(c, t).stringDemand && c.traitDemand <= InternTrait(c, t).traitDemand
  {
  }

  lemma WriteStringsKeepsTraits(c: Context, name: Str, names: seq<Str>)
    requires WriteString(c, name).Ok? && WriteStrings(WriteString(c, name).value.1, names).Ok?
    ensures WriteStrings(WriteString(c, name).value.1, names).value.1.traits == c.traits
  {
    StringsKeep(WriteString(c, name).value.1, names);
  }

  /** Writing strings leaves everything but the string table alone. */
  lemma {:induction false} StringsKeep(c: Context, names: seq<Str>)
    requires WriteStrings(c, names).Ok?
    ensures var c' := WriteStrings(c, names).value.1;
            c'.refs == c.refs && c'.next == c.next && c'.traits == c.traits
    decreases |names|
  {
    if names != [] {
      StringsKeep(WriteString(c, names[0]).value.1, names[1..]);
    }
  }

  lemma StringKeeps(c: Context, s: Str)
    requires WriteString(c, s).Ok?
    ensures var c' := WriteString(c, s).value.1;
            c'.refs == c.refs && c'.next == c.next && c'.traits == c.traits
  {
  }

  lemma TraitKeeps(c: Context, t: Trait)
    requires |t.names| <= MAX_COLLECTION && WriteTrait(c, t).Ok?
    ensures var c' := WriteTrait(c, t).value.1;
            c'.refs == c.refs && c'.next == c.next
  {
    hide WriteString, WriteStrings, Indexed;
    if t !in c.traits {
      StringKeeps(c, t.className);
      StringsKeep(WriteString(c, t.className).value.1, t.names);
    }
  }

  /** The header integer that starts a written trait, and what follows it. */
  lemma TraitReads(c: Context, d: DecodeContext, t: Trait, rest: seq<byte>) returns (header: nat, tail: seq<byte>)
    requires Tables(c, d) && |t.names| <= MAX_COLLECTION && WriteTrait(c, t).Ok?
    ensures var (out, c') := WriteTrait(c, t).value;
            && ReadU29(out + rest) == Ok((header, tail)) && header % 2 == 1
            && TraitBack(ReadTrait(tail, d, header), t, rest, c', d)
  {
    hide Indexed, WriteString, WriteStrings, ReadTrait, Fits, InternTrait, WriteU29, ReadU29, Tables, TraitBack;
    if t in c.traits {
      KnownTraitReads(c, d, t, rest);
      header, tail := 4 * c.traits[t] + 1, rest;
      U29RoundTrip(header, rest);
    } else {
      var name := WriteString(c, t.className).value;
      var names := WriteStrings(name.1, t.names).value;
      header, tail := TraitHeader(t), name.0 + (names.0 + rest);
      TraitHeaderFields(t);
      Gather(WriteU29(header), name.0, names.0, rest);
      U29RoundTrip(header, tail);
      InlineTraitReads(c, d, t, rest);
    }
  }

  lemma Gather(a: seq<byte>, b: seq<byte>, c: seq<byte>, rest: seq<byte>)
    ensures a + b + c + rest == a + (b + (c + rest))
  {
  }

  lemma KnownTraitReads(c: Context, d: DecodeContext, t: Trait, rest: seq<byte>)
    requires Tables(c, d) && t in c.traits
    ensures 4 * c.traits[t] + 1 < 0x2000_0000
    ensures TraitBack(ReadTrait(rest, d, 4 * c.traits[t] + 1), t, rest, c, d)
  {
    hide Table, StringTables, ReadString, ReadStrings;
    TablesFit(c, d);
    TableEntry(c.traits, d.traits, t);
  }
}
