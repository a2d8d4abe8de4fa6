/**
 BR/EDR hop selection without adaptive hopping (Core Specification, Vol 2,
 Part B, section 2.6): the five-bit butterfly permutation, the values derived
 from the address, and the frequency of each clock.
 */
module HopKernel {
  import opened Bits

  const CHANNELS: nat := 79

  // ----- the butterfly

  const INDEX1: seq<nat> := [0, 2, 1, 3, 0, 1, 0, 3, 1, 0, 2, 1, 0, 1]
  const INDEX2: seq<nat> := [1, 3, 2, 4, 4, 3, 2, 4, 4, 3, 4, 3, 3, 2]

  lemma Indices(i: nat)
    requires i < 14
    ensures INDEX1[i] < INDEX2[i] < 5
  {
    if i == 0 {} else if i == 1 {} else if i == 2 {} else if i == 3 {} else if i == 4 {} else if i == 5 {}
    else if i == 6 {}
    else if i == 7 {} else if i == 8 {} else if i == 9 {} else if i == 10 {} else if i == 11 {}
    else if i == 12 {} else {}
  }

  /** Stage i exchanges two bits when its control bit is set. */
  function Stage(z: seq<bool>, p: seq<bool>, i: nat): (r: seq<bool>)
    requires |z| == 5 && |p| == 14 && i < 14
    ensures |r| == 5
  {
    Indices(i);
    var a, b := INDEX1[i], INDEX2[i];
    if p[i] then z[a := z[b]][b := z[a]] else z
  }

  /** Stages n - 1 down to 0. */
  function Butterfly(z: seq<bool>, p: seq<bool>, n: nat): (r: seq<bool>)
    requires |z| == 5 && |p| == 14 && n <= 14
    ensures |r| == 5
    decreases n
  {
    if n == 0 then z else Butterfly(Stage(z, p, n - 1), p, n - 1)
  }

  /** The stages in the opposite order. */
  function Unbutterfly(z: seq<bool>, p: seq<bool>, n: nat): (r: seq<bool>)
    requires |z| == 5 && |p| == 14 && n <= 14
    ensures |r| == 5
    decreases n
  {
    if n == 0 then z else Stage(Unbutterfly(z, p, n - 1), p, n - 1)
  }

  lemma StageTwice(z: seq<bool>, p: seq<bool>, i: nat)
    requires |z| == 5 && |p| == 14 && i < 14
    ensures Stage(Stage(z, p, i), p, i) == z
  {
    Indices(i);
  }

  lemma {:induction false} ButterflyInverse(z: seq<bool>, p: seq<bool>, n: nat)
    requires |z| == 5 && |p| == 14 && n <= 14
    ensures Unbutterfly(Butterfly(z, p, n), p, n) == z
    ensures Butterfly(Unbutterfly(z, p, n), p, n) == z
    decreases n
  {
    if n > 0 {
      StageTwice(z, p, n - 1);
      ButterflyInverse(Stage(z, p, n - 1), p, n - 1);
      var u := Unbutterfly(z, p, n - 1);
      StageTwice(u, p, n - 1);
      ButterflyInverse(z, p, n - 1);
    }
  }

  /** The fourteen control bits. */
  function Control(pHigh: nat, pLow: nat): (p: seq<bool>)
    ensures |p| == 14
  {
    LowBits(pLow, 9) + LowBits(pHigh, 5)
  }

  function FiveBits(z: seq<bool>): (x: nat)
    requires |z| == 5
    ensures x < 32 && LowBits(x, 5) == z
  {
    FromBitsInverse(z);
    assert Pow2(5) == 32;
    FromBits(z)
  }

  /** What perm5 computes. */
  function Permuted(z: nat, pHigh: nat, pLow: nat): (r: nat)
    ensures r < 32
  {
    var p := Control(pHigh, pLow);
    FiveBits(Butterfly(LowBits(z, 5), p, |p|))
  }

  function Unpermuted(z: nat, pHigh: nat, pLow: nat): (r: nat)
    ensures r < 32
  {
    var p := Control(pHigh, pLow);
    FiveBits(Unbutterfly(LowBits(z, 5), p, |p|))
  }

  lemma FiveBitsInjective(x: nat, y: nat)
    requires x < 32 && y < 32 && LowBits(x, 5) == LowBits(y, 5)
    ensures x == y
  {
    assert Pow2(5) == 32;
    LowBitsInjective(x, y, 5);
  }

  /** For every control word the permutation is a bijection on five bits. */
  lemma PermutationBijective(z: nat, pHigh: nat, pLow: nat)
    requires z < 32
    ensures Unpermuted(Permuted(z, pHigh, pLow), pHigh, pLow) == z
    ensures Permuted(Unpermuted(z, pHigh, pLow), pHigh, pLow) == z
  {
    var p := Control(pHigh, pLow);
    ButterflyInverse(LowBits(z, 5), p, |p|);
    FiveBitsInjective(Unpermuted(Permuted(z, pHigh, pLow), pHigh, pLow), z);
    FiveBitsInjective(Permuted(Unpermuted(z, pHigh, pLow), pHigh, pLow), z);
  }

  /** The loops of perm5 that spread the n low bits of x over an array. */
  method SpreadBits(x: nat, n: nat, a: array<bool>, from: nat)
    requires from + n <= a.Length
    modifies a
    ensures a[..] == old(a[..from]) + LowBits(x, n) + old(a[from + n..])
  {
    ghost var was, bits := a[..], LowBits(x, n);
    for i := 0 to n
      invariant forall k :: 0 <= k < a.Length ==>
        a[k] == if from <= k < from + i then bits[k - from] else was[k]
    {
      BitAt(x, n, i);
      a[from + i] := Odd(Shr(x, i));
    }
  }

  /** The butterfly loop of perm5, in place. */
  method RunStages(zBit: array<bool>, p: array<bool>)
    requires zBit.Length == 5 && p.Length == 14 && zBit != p
    modifies zBit
    ensures zBit[..] == Butterfly(old(zBit[..]), p[..], p.Length)
  {
    ghost var control, bits := p[..], zBit[..];
    var n: nat := p.Length;
    while n > 0
      invariant n <= 14 && p[..] == control
      invariant Butterfly(zBit[..], control, n) == Butterfly(bits, control, p.Length)
    {
      n := n - 1;
      Indices(n);
      ghost var before := zBit[..];
      if p[n] {
        var tmp := zBit[INDEX1[n]];
        zBit[INDEX1[n]] := zBit[INDEX2[n]];
        zBit[INDEX2[n]] := tmp;
      }
      assert zBit[..] == Stage(before, control, n);
    }
  }

  lemma {:induction false} FromBitsSnoc(bits: seq<bool>, i: nat)
    requires i < |bits|
    ensures FromBits(bits[..i + 1]) == FromBits(bits[..i]) + Shl(if bits[i] then 1 else 0, i)
    decreases i
  {
    if i > 0 {
      FromBitsSnoc(bits[1..], i - 1);
      assert bits[..i + 1][1..] == bits[1..][..i];
      assert bits[..i][1..] == bits[1..][..i - 1];
    }
  }

  /** The last loop of perm5: the bits of the array as a number. */
  method GatherBits(zBit: array<bool>) returns (out: nat)
    requires zBit.Length == 5
    ensures out == FiveBits(zBit[..])
  {
    ghost var bits := zBit[..];
    hide FromBits, Shl;
    out := 0;
    assert FromBits(bits[..0]) == 0 by { NoBits(bits[..0]); }
    for i := 0 to 5
      invariant out == FromBits(bits[..i])
    {
      FromBitsSnoc(bits, i);
      out := out + Shl(if zBit[i] then 1 else 0, i);
    }
    assert bits[..5] == bits;
  }

  lemma NoBits(bits: seq<bool>)
    requires bits == []
    ensures FromBits(bits) == 0
  {}

  /** perm5 */
  method Perm5(zIn: u8, pHighIn: u8, pLowIn: u16) returns (output: u8)
    ensures output == Permuted(zIn % 32, pHighIn % 32, pLowIn % 512)
  {
    hide LowBits, Butterfly, FiveBits;
    var z, pHigh, pLow := zIn % 32, pHighIn % 32, pLowIn % 512;
    var zBit, p := new bool[5], new bool[14];
    SpreadBits(pLow, 9, p, 0);
    SpreadBits(pHigh, 5, p, 9);
    assert p[..] == Control(pHigh, pLow);
    SpreadBits(z, 5, zBit, 0);
    assert zBit[..] == LowBits(z, 5);
    RunStages(zBit, p);
    output := GatherBits(zBit);
  }

  // ----- the frequency register

  /** bank[i] */
  function Bank(i: nat): nat { 2 * i % CHANNELS }

  /** The 28 address bits that hop selection uses, by the names of the standard. */
  datatype Inputs = Inputs(a1: nat, b: nat, c1: nat, d1: nat, e: nat)

  /** Bits 27-23; 22-19; 8, 6, 4, 2, 0; 18-10; 13, 11, 9, 7, 5, 3, 1. */
  ghost predicate InputsOf(v: Inputs, address: u32) {
    var bits := LowBits(address, 32);
    && v.a1 < 32 && LowBits(v.a1, 5) == bits[23..28]
    && v.b < 16 && LowBits(v.b, 4) == bits[19..23]
    && v.c1 < 32 && LowBits(v.c1, 5) == [bits[0], bits[2], bits[4], bits[6], bits[8]]
    && v.d1 < 512 && LowBits(v.d1, 9) == bits[10..19]
    && v.e < 128 && LowBits(v.e, 7) == [bits[1], bits[3]] + [bits[5], bits[7], bits[9], bits[11], bits[13]]
  }

  // Step by step as in next_hop, from X, the bit Y1, and the clock from bit 7 up.

  function PermInput(v: Inputs, x: nat, high: nat): (z: nat)
    ensures z < 32
  {
    var a := Xor(v.a1, high / 0x4000) % 32;
    Xor((x + a) % 32, v.b) % 32
  }

  function PermHigh(v: Inputs, y1: nat, high: nat): (z: nat)
    ensures z < 32
  {
    var c := Xor(v.c1, high / 0x200) % 32;
    Xor(31 * y1, c) % 32
  }

  function PermLow(v: Inputs, high: nat): nat { Xor(v.d1, high) % 512 }

  function Perm(v: Inputs, x: nat, y1: nat, high: nat): (p: nat)
    ensures p < 32
  {
    Permuted(PermInput(v, x, high), PermHigh(v, y1, high), PermLow(v, high))
  }

  function Offset(v: Inputs, y1: nat, high: nat): nat {
    var y2 := 32 * y1;
    var baseF := 16 * (high % 0x20_0000);
    var f := baseF % 79;
    v.e + f + y2
  }

  function Index(v: Inputs, x: nat, y1: nat, high: nat): (i: nat)
    ensures i < CHANNELS
  {
    (Perm(v, x, y1, high) + Offset(v, y1, high)) % CHANNELS
  }

  /** next_hop, from the precalculated values. */
  function Hop(v: Inputs, clock: u32): (freq: nat)
    ensures 2402 <= freq <= 2480
  {
    2402 + Bank(Index(v, clock / 4 % 32, clock / 2 % 2, clock / 0x80))
  }

  lemma BankInjective(i: nat, j: nat)
    requires i < CHANNELS && j < CHANNELS && Bank(i) == Bank(j)
    ensures i == j
  {}

  lemma XorCancels(x: nat, y: nat, b: nat, n: nat)
    requires x < Pow2(n) && y < Pow2(n) && Xor(x, b) == Xor(y, b)
    ensures x == y
  {
    LowBitsXor(x, b, n);
    LowBitsXor(y, b, n);
    var s, t, r := LowBits(x, n), LowBits(y, n), LowBits(b, n);
    assert forall i :: 0 <= i < n ==> (s[i] != r[i]) == XorBits(s, r)[i] == XorBits(t, r)[i] == (t[i] != r[i]);
    LowBitsInjective(x, y, n);
  }

  lemma XorFive(x: nat, b: nat)
    requires x < 32 && b < 32
    ensures Xor(x, b) % 32 == Xor(x, b)
  {
    assert Pow2(5) == 32;
    XorFits(x, b, 5);
  }

  lemma XorOfFive(x: nat, y: nat, b: nat)
    requires x < 32 && y < 32 && b < 32 && x != y
    ensures Xor(x, b) % 32 != Xor(y, b) % 32
  {
    XorFive(x, b);
    XorFive(y, b);
    if Xor(x, b) == Xor(y, b) {
      assert Pow2(5) == 32;
      XorCancels(x, y, b, 5);
    }
  }

  lemma PermutedDistinct(z1: nat, z2: nat, pHigh: nat, pLow: nat)
    requires z1 < 32 && z2 < 32 && z1 != z2
    ensures Permuted(z1, pHigh, pLow) != Permuted(z2, pHigh, pLow)
  {
    PermutationBijective(z1, pHigh, pLow);
    PermutationBijective(z2, pHigh, pLow);
  }

  lemma SumsDistinct(p1: nat, p2: nat, rest: nat)
    requires p1 < 32 && p2 < 32 && p1 != p2
    ensures (p1 + rest) % CHANNELS != (p2 + rest) % CHANNELS
  {}

  lemma InputDistinct(v: Inputs, x1: nat, x2: nat, high: nat)
    requires v.b < 32 && x1 < 32 && x2 < 32 && x1 != x2
    ensures PermInput(v, x1, high) != PermInput(v, x2, high)
  {
    var a := Xor(v.a1, high / 0x4000) % 32;
    XorOfFive((x1 + a) % 32, (x2 + a) % 32, v.b);
  }

  lemma PermDistinct(v: Inputs, x1: nat, x2: nat, y1: nat, high: nat)
    requires v.b < 32 && x1 < 32 && x2 < 32 && x1 != x2
    ensures Perm(v, x1, y1, high) != Perm(v, x2, y1, high)
  {
    InputDistinct(v, x1, x2, high);
    PermutedDistinct(PermInput(v, x1, high), PermInput(v, x2, high), PermHigh(v, y1, high), PermLow(v, high));
  }

  lemma IndexDistinct(v: Inputs, x1: nat, x2: nat, y1: nat, high: nat)
    requires Perm(v, x1, y1, high) != Perm(v, x2, y1, high)
    ensures Index(v, x1, y1, high) != Index(v, x2, y1, high)
  {
    hide Perm, Offset;
    SumsDistinct(Perm(v, x1, y1, high), Perm(v, x2, y1, high), Offset(v, y1, high));
  }

  /** Two clocks that differ only in bits 2 to 6. */
  predicate SameSegment(clock: nat, other: nat) {
    clock / 0x80 == other / 0x80 && clock % 4 == other % 4
  }

  lemma Fields(clock: nat)
    ensures clock == 0x80 * (clock / 0x80) + 4 * (clock / 4 % 32) + clock % 4
  {
    var q := clock / 4;
    assert q / 32 == clock / 0x80;
  }

  lemma Y1(clock: nat)
    ensures clock / 2 % 2 == clock % 4 / 2
  {}

  /** Within a segment of 32 hops, no frequency comes twice. */
  lemma SegmentDistinct(v: Inputs, clock: u32, other: u32)
    requires v.b < 32 && SameSegment(clock, other) && clock != other
    ensures Hop(v, clock) != Hop(v, other)
  {
    var high, y1 := clock / 0x80, clock / 2 % 2;
    Fields(clock);
    Fields(other);
    Y1(clock);
    Y1(other);
    PermDistinct(v, clock / 4 % 32, other / 4 % 32, y1, high);
    IndexDistinct(v, clock / 4 % 32, other / 4 % 32, y1, high);
    var i1, i2 := Index(v, clock / 4 % 32, y1, high), Index(v, other / 4 % 32, y1, high);
    if Bank(i1) == Bank(i2) {
      BankInjective(i1, i2);
    }
  }

  // ----- precalc and next_hop

  function Unit(b: bool): nat { if b then 1 else 0 }

  lemma {:induction false} ShlUnit(b: bool, i: nat)
    ensures Shl(Unit(b), i) == if b then Shl(1, i) else 0
  {
    ShlZero(i);
  }

  /** One term of the sums in precalc: (address >> s) & (1 << i) is bit s + i, moved to bit i. */
  lemma Term(address: u32, s: nat, i: nat, m: nat)
    requires s + i < 32 && m == Shl(1, i)
    ensures And(Shr(address, s), m) == if LowBits(address, 32)[s + i] then m else 0
  {
    AndBit(Shr(address, s), i);
    ShrTwice(address, s, i);
    BitAt(address, 32, s + i);
    ShlUnit(LowBits(address, 32)[s + i], i);
  }

  lemma FieldAt(address: u32, k: nat, m: nat)
    requires k + m <= 32
    ensures Shr(address, k) % Pow2(m) < Pow2(m)
    ensures LowBits(Shr(address, k) % Pow2(m), m) == LowBits(address, 32)[k..k + m]
  {
    Field(address, k, m);
    LowBitsPrefix(address, k + m, 32);
  }

  lemma Cons(b: bool, rest: seq<bool>)
    ensures FromBits([b] + rest) == Unit(b) + 2 * FromBits(rest)
  {
    assert ([b] + rest)[1..] == rest;
  }

  lemma FiveUnits(b0: bool, b1: bool, b2: bool, b3: bool, b4: bool)
    ensures FromBits([b0, b1, b2, b3, b4]) == Unit(b0) + 2 * Unit(b1) + 4 * Unit(b2) + 8 * Unit(b3) + 16 * Unit(b4)
  {
    Cons(b4, []);
    Cons(b3, [b4]);
    Cons(b2, [b3, b4]);
    Cons(b1, [b2, b3, b4]);
    Cons(b0, [b1, b2, b3, b4]);
    assert [b4] + [] == [b4] && [b3] + [b4] == [b3, b4] && [b2] + [b3, b4] == [b2, b3, b4];
    assert [b1] + [b2, b3, b4] == [b1, b2, b3, b4] && [b0] + [b1, b2, b3, b4] == [b0, b1, b2, b3, b4];
  }

  lemma BitsOfNumber(bits: seq<bool>, n: nat, x: nat)
    requires |bits| == n && x == FromBits(bits)
    ensures x < Pow2(n) && LowBits(x, n) == bits
  {
    FromBitsInverse(bits);
  }

  lemma SevenUnits(b0: bool, b1: bool, rest: seq<bool>)
    ensures FromBits([b0, b1] + rest) == Unit(b0) + 2 * Unit(b1) + 4 * FromBits(rest)
  {
    Cons(b1, rest);
    Cons(b0, [b1] + rest);
    assert [b0] + ([b1] + rest) == [b0, b1] + rest;
  }

  lemma HighOddTerms(address: u32)
    ensures var bits := LowBits(address, 32);
      And(Shr(address, 7), 0x40) + And(Shr(address, 6), 0x20) + And(Shr(address, 5), 0x10)
      + And(Shr(address, 4), 0x08) + And(Shr(address, 3), 0x04)
      == 4 * FromBits([bits[5], bits[7], bits[9], bits[11], bits[13]])
  {
    var bits := LowBits(address, 32);
    Term(address, 7, 6, 0x40); Term(address, 6, 5, 0x20); Term(address, 5, 4, 0x10);
    Term(address, 4, 3, 0x08); Term(address, 3, 2, 0x04);
    FiveUnits(bits[5], bits[7], bits[9], bits[11], bits[13]);
  }

  lemma Shifts(clock: nat)
    ensures clock / 0x20_0000 == clock / 0x80 / 0x4000 && clock / 0x1_0000 == clock / 0x80 / 0x200
  {}

  /** The globals of bluetooth.c that next_hop reads. */
  class HopSelector {
    const bank: array<u8>
    var a1: u8
    var b: u8
    var c1: u8
    var d1: u16
    var e: u8

    constructor ()
      ensures fresh(bank) && bank.Length == CHANNELS
    {
      bank := new u8[CHANNELS];
    }

    function Values(): Inputs
      reads this
    {
      Inputs(a1, b, c1, d1, e)
    }

    ghost predicate Ready()
      reads this, bank
    {
      && bank.Length == CHANNELS
      && (forall i :: 0 <= i < CHANNELS ==> bank[i] == Bank(i))
      && a1 < 32 && b < 32 && c1 < 32
    }

    /** The part of precalc that does not depend on adaptive hopping. */
    method Precalc(address: u32)
      requires bank.Length == CHANNELS
      modifies this, bank
      ensures Ready() && InputsOf(Values(), address)
    {
      for i := 0 to CHANNELS
        invariant forall k :: 0 <= k < i ==> bank[k] == Bank(k)
      {
        bank[i] := i * 2 % CHANNELS;
      }
      FillAddressFields(address);
    }

    method FillAddressFields(address: u32)
      modifies `a1, `b, `c1, `d1, `e
      ensures InputsOf(Values(), address)
    {
      hide LowBits, Shr;
      assert Pow2(5) == 32 && Pow2(4) == 16 && Pow2(9) == 512;
      FieldAt(address, 23, 5);
      FieldAt(address, 19, 4);
      FieldAt(address, 10, 9);
      a1 := Shr(address, 23) % 32;
      b := Shr(address, 19) % 16;
      d1 := Shr(address, 10) % 512;
      c1 := EvenBits(address);
      e := OddBits(address);
    }

    /** c1 in precalc */
    static method EvenBits(address: u32) returns (c1: u8)
      ensures c1 < 32
      ensures LowBits(c1, 5) == var bits := LowBits(address, 32); [bits[0], bits[2], bits[4], bits[6], bits[8]]
    {
      assert Pow2(5) == 32;
      hide LowBits, And, Shr, Pow2;
      ghost var bits := LowBits(address, 32);
      Term(address, 4, 4, 0x10); Term(address, 3, 3, 0x08); Term(address, 2, 2, 0x04); Term(address, 1, 1, 0x02);
      BitAt(address, 32, 0);
      var x := And(Shr(address, 4), 0x10) + And(Shr(address, 3), 0x08) + And(Shr(address, 2), 0x04)
             + And(Shr(address, 1), 0x02) + address % 2;
      FiveUnits(bits[0], bits[2], bits[4], bits[6], bits[8]);
      BitsOfNumber([bits[0], bits[2], bits[4], bits[6], bits[8]], 5, x);
      c1 := x;
    }

    /** e in precalc */
    static method OddBits(address: u32) returns (e: u8)
      ensures e < 128
      ensures LowBits(e, 7) == var bits := LowBits(address, 32);
        [bits[1], bits[3]] + [bits[5], bits[7], bits[9], bits[11], bits[13]]
    {
      ghost var bits := LowBits(address, 32);
      var high := And(Shr(address, 7), 0x40) + And(Shr(address, 6), 0x20) + And(Shr(address, 5), 0x10)
                + And(Shr(address, 4), 0x08) + And(Shr(address, 3), 0x04);
      var x := high + And(Shr(address, 2), 0x02) + And(Shr(address, 1), 0x01);
      ghost var rest := [bits[5], bits[7], bits[9], bits[11], bits[13]];
      HighOddTerms(address);
      Term(address, 2, 1, 0x02);
      Term(address, 1, 0, 0x01);
      SevenUnits(bits[1], bits[3], rest);
      BitsOfNumber([bits[1], bits[3]] + rest, 7, x);
      Pow2Values();
      e := x;
    }

    // next_hop with afh_enabled false: the two inputs of the permutation, then the sum.

    method NextPermInput(clock: u32) returns (z: u8)
      requires a1 < 32 && b < 32
      ensures z == PermInput(Values(), clock / 4 % 32, clock / 0x80)
    {
      var x := clock / 4 % 32;
      var a := Xor(a1, clock / 0x20_0000) % 32;
      XorFive((x + a) % 32, b);
      Shifts(clock);
      z := Xor((x + a) % 32, b);
    }

    method NextPermHigh(clock: u32) returns (z: u8)
      requires c1 < 32
      ensures z == PermHigh(Values(), clock / 2 % 2, clock / 0x80)
    {
      var y1 := clock / 2 % 2;
      var c := Xor(c1, clock / 0x1_0000) % 32;
      XorFive(31 * y1, c);
      Shifts(clock);
      z := Xor(31 * y1, c);
    }

    method NextPerm(clock: u32) returns (perm: u8)
      requires a1 < 32 && b < 32 && c1 < 32
      ensures perm == Perm(Values(), clock / 4 % 32, clock / 2 % 2, clock / 0x80)
    {
      hide Permuted, PermInput, PermHigh, Xor;
      var z := NextPermInput(clock);
      var high := NextPermHigh(clock);
      var d := Xor(d1, clock / 0x80) % 512;
      assert z % 32 == z && high % 32 == high && d % 512 == d;
      perm := Perm5(z, high, d);
    }

    /** The sum in next_hop. */
    method NextIndex(clock: u32, perm: nat) returns (i: nat)
      requires perm == Perm(Values(), clock / 4 % 32, clock / 2 % 2, clock / 0x80)
      ensures i == Index(Values(), clock / 4 % 32, clock / 2 % 2, clock / 0x80)
    {
      hide Perm;
      var y2 := 32 * (clock / 2 % 2);
      var baseF := 16 * (clock / 0x80 % 0x20_0000);
      var f := baseF % 79;
      i := (perm + e + f + y2) % CHANNELS;
    }

    /** next_hop */
    method NextHop(clock: u32) returns (freq: u16)
      requires Ready()
      ensures freq == Hop(Values(), clock)
    {
      var perm := NextPerm(clock);
      var i := NextIndex(clock, perm);
      var nextChannel: nat := bank[i];
      assert nextChannel == Bank(i);
      freq := 2402 + nextChannel;
    }
  }

  /**
   Hop segment: for any address, clocks that differ only in bits 2 to 6 select
   pairwise distinct frequencies between 2402 and 2480 MHz.
   */
  lemma HopSegment(v: Inputs, address: u32, clock: u32, other: u32)
    requires InputsOf(v, address) && SameSegment(clock, other)
    ensures 2402 <= Hop(v, clock) <= 2480
    ensures Hop(v, clock) == Hop(v, other) <==> clock == other
  {
    if clock != other {
      SegmentDistinct(v, clock, other);
    }
  }
}
