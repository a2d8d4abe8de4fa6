/**
 The hop selection kernel as the standard draws it (Core Specification, Vol 2,
 Part B, section 2.6), bit by bit and without the tables and words of the
 program, and the proof that next_hop computes it for every address and clock.
 */
module HopStandard {
  import opened Bits
  import opened HopKernel

  // ----- the permutation

  /** The five bits that the permutation moves, and their exchanges under a control bit. */
  datatype Word = Word(z0: bool, z1: bool, z2: bool, z3: bool, z4: bool) {
    function X01(on: bool): Word { if on then Word(z1, z0, z2, z3, z4) else this }
    function X02(on: bool): Word { if on then Word(z2, z1, z0, z3, z4) else this }
    function X03(on: bool): Word { if on then Word(z3, z1, z2, z0, z4) else this }
    function X04(on: bool): Word { if on then Word(z4, z1, z2, z3, z0) else this }
    function X12(on: bool): Word { if on then Word(z0, z2, z1, z3, z4) else this }
    function X13(on: bool): Word { if on then Word(z0, z3, z2, z1, z4) else this }
    function X14(on: bool): Word { if on then Word(z0, z4, z2, z3, z1) else this }
    function X23(on: bool): Word { if on then Word(z0, z1, z3, z2, z4) else this }
    function X24(on: bool): Word { if on then Word(z0, z1, z4, z3, z2) else this }
    function X34(on: bool): Word { if on then Word(z0, z1, z2, z4, z3) else this }

    function Bits(): (bits: seq<bool>)
      ensures |bits| == 5
    {
      [z0, z1, z2, z3, z4]
    }
  }

  function Named(z: seq<bool>): (w: Word)
    requires |z| == 5
    ensures w.Bits() == z
  {
    Word(z[0], z[1], z[2], z[3], z[4])
  }

  /** The first seven exchanges, controlled by P13 to P7. */
  function FirstHalf(w: Word, p: seq<bool>): Word
    requires |p| == 14
  {
    w.X12(p[13]).X03(p[12]).X13(p[11]).X24(p[10]).X03(p[9]).X14(p[8]).X34(p[7])
  }

  /** The exchanges controlled by P6 to P0. */
  function SecondHalf(w: Word, p: seq<bool>): Word
    requires |p| == 14
  {
    w.X02(p[6]).X13(p[5]).X04(p[4]).X34(p[3]).X12(p[2]).X23(p[1]).X01(p[0])
  }

  /** The butterflies of the standard in their order. */
  function Exchanges(w: Word, p: seq<bool>): Word
    requires |p| == 14
  {
    SecondHalf(FirstHalf(w, p), p)
  }

  /** One stage of the program is one exchange of the standard. */
  lemma StageNamed(z: seq<bool>, p: seq<bool>, i: nat)
    requires |z| == 5 && |p| == 14 && i < 14
    ensures
      var w := Named(z);
      Named(Stage(z, p, i)) ==
        if i == 13 then w.X12(p[i]) else if i == 12 then w.X03(p[i]) else if i == 11 then w.X13(p[i])
        else if i == 10 then w.X24(p[i]) else if i == 9 then w.X03(p[i]) else if i == 8 then w.X14(p[i])
        else if i == 7 then w.X34(p[i]) else if i == 6 then w.X02(p[i]) else if i == 5 then w.X13(p[i])
        else if i == 4 then w.X04(p[i]) else if i == 3 then w.X34(p[i]) else if i == 2 then w.X12(p[i])
        else if i == 1 then w.X23(p[i]) else w.X01(p[i])
  {
    if i == 0 {} else if i == 1 {} else if i == 2 {} else if i == 3 {} else if i == 4 {} else if i == 5 {}
    else if i == 6 {}
    else if i == 7 {} else if i == 8 {} else if i == 9 {} else if i == 10 {} else if i == 11 {}
    else if i == 12 {} else {}
  }

  lemma StageBefore(z: seq<bool>, p: seq<bool>, n: nat)
    requires |z| == 5 && |p| == 14 && 0 < n <= 14
    ensures Butterfly(z, p, n) == Butterfly(Stage(z, p, n - 1), p, n - 1)
  {}

  lemma FirstStages(z: seq<bool>, p: seq<bool>, n: nat) returns (y: seq<bool>)
    requires |z| == 5 && |p| == n == 14
    ensures |y| == 5 && Butterfly(z, p, n) == Butterfly(y, p, n - 7)
    ensures Named(y) == FirstHalf(Named(z), p)
  {
    hide Butterfly, Stage;
    y := z;
    StageBefore(y, p, n); StageNamed(y, p, n - 1); y := Stage(y, p, n - 1);
    StageBefore(y, p, n - 1); StageNamed(y, p, n - 2); y := Stage(y, p, n - 2);
    StageBefore(y, p, n - 2); StageNamed(y, p, n - 3); y := Stage(y, p, n - 3);
    StageBefore(y, p, n - 3); StageNamed(y, p, n - 4); y := Stage(y, p, n - 4);
    StageBefore(y, p, n - 4); StageNamed(y, p, n - 5); y := Stage(y, p, n - 5);
    StageBefore(y, p, n - 5); StageNamed(y, p, n - 6); y := Stage(y, p, n - 6);
    StageBefore(y, p, n - 6); StageNamed(y, p, n - 7); y := Stage(y, p, n - 7);
  }

  lemma LastStages(y: seq<bool>, p: seq<bool>, n: nat) returns (x: seq<bool>)
    requires |y| == 5 && |p| == 14 && n == 7
    ensures |x| == 5 && Butterfly(y, p, n) == x && Named(x) == SecondHalf(Named(y), p)
  {
    hide Stage;
    NoStages(p);
    hide Butterfly;
    x := y;
    StageBefore(x, p, n); StageNamed(x, p, n - 1); x := Stage(x, p, n - 1);
    StageBefore(x, p, n - 1); StageNamed(x, p, n - 2); x := Stage(x, p, n - 2);
    StageBefore(x, p, n - 2); StageNamed(x, p, n - 3); x := Stage(x, p, n - 3);
    StageBefore(x, p, n - 3); StageNamed(x, p, n - 4); x := Stage(x, p, n - 4);
    StageBefore(x, p, n - 4); StageNamed(x, p, n - 5); x := Stage(x, p, n - 5);
    StageBefore(x, p, n - 5); StageNamed(x, p, n - 6); x := Stage(x, p, n - 6);
    StageBefore(x, p, n - 6); StageNamed(x, p, n - 7); x := Stage(x, p, n - 7);
  }

  lemma NoStages(p: seq<bool>)
    requires |p| == 14
    ensures forall z: seq<bool> | |z| == 5 :: Butterfly(z, p, 0) == z
  {}

  /** The loop over the tables makes the exchanges of the standard, for every word and every control bits. */
  lemma ButterflyIsStandard(z: seq<bool>, p: seq<bool>)
    requires |z| == 5 && |p| == 14
    ensures Butterfly(z, p, |p|) == Exchanges(Named(z), p).Bits()
  {
    hide Butterfly, FirstHalf, SecondHalf;
    var y := FirstStages(z, p, |p|);
    var x := LastStages(y, p, |p| - 7);
    assert x == Named(x).Bits();
  }

  /** perm5: the number whose bits are those of z after the exchanges under the control bits, for every control word. */
  lemma PermutedIsStandard(z: nat, pHigh: nat, pLow: nat)
    ensures
      var p := LowBits(pLow, 9) + LowBits(pHigh, 5);
      Permuted(z, pHigh, pLow) == FromBits(Exchanges(Named(LowBits(z, 5)), p).Bits())
  {
    var p := Control(pHigh, pLow);
    ButterflyIsStandard(LowBits(z, 5), p);
    hide Exchanges, Butterfly, LowBits, FromBits;
  }

  // ----- the kernel

  /** One bit five times. */
  function Bits5(b: bool): (bits: seq<bool>)
    ensures |bits| == 5
  {
    [b, b, b, b, b]
  }

  /** The permutation's input: X plus input A, exclusive or input B. */
  function Input(a: seq<bool>, k: seq<bool>): (z: seq<bool>)
    requires |a| == |k| == 32
    ensures |z| == 5
  {
    var inputA := XorBits(a[23..28], k[21..26]);
    XorBits(LowBits(FromBits(k[2..7]) + FromBits(inputA), 5), a[19..23] + [false])
  }

  /** The control bits: P0 to P8 are input D, P9 to P13 input C exclusive or Y1. */
  function ControlBits(a: seq<bool>, k: seq<bool>): (p: seq<bool>)
    requires |a| == |k| == 32
    ensures |p| == 14
  {
    var inputC := XorBits([a[0], a[2], a[4], a[6], a[8]], k[16..21]);
    XorBits(a[10..19], k[7..16]) + XorBits(Bits5(k[1]), inputC)
  }

  /** Inputs E, F and Y2. */
  function Added(a: seq<bool>, k: seq<bool>): nat
    requires |a| == |k| == 32
  {
    FromBits([a[1], a[3]] + [a[5], a[7], a[9], a[11], a[13]]) + 16 * FromBits(k[7..28]) % 79 + if k[1] then 32 else 0
  }

  /** The register of frequencies, in MHz: first the even channels, then the odd ones. */
  function FrequencyOf(i: nat): nat { 2402 + if i < 40 then 2 * i else 2 * i - 79 }

  /** The frequency that the kernel selects. */
  function Selected(address: u32, clock: u32): nat {
    var a, k := LowBits(address, 32), LowBits(clock, 32);
    var i := (FromBits(Exchanges(Named(Input(a, k)), ControlBits(a, k)).Bits()) + Added(a, k)) % 79;
    FrequencyOf(i)
  }

  lemma SelectedUnfolded(address: u32, clock: u32)
    ensures
      var a, k := LowBits(address, 32), LowBits(clock, 32);
      Selected(address, clock)
      == FrequencyOf((FromBits(Exchanges(Named(Input(a, k)), ControlBits(a, k)).Bits()) + Added(a, k)) % 79)
  {
    hide LowBits, FromBits, Exchanges, Named, Input, ControlBits, Added;
  }

  // ----- the fields of the clock

  lemma ShiftedBy2(x: nat)
    ensures Shr(x, 2) == x / 4
  {
    assert Shr(x, 2) == Shr(x / 2, 1) == Shr(x / 2 / 2, 0);
  }

  lemma ShiftedBy7(x: nat)
    ensures Shr(x, 7) == x / 0x80
  {
    var y := x / 4 / 4 / 4;
    assert Shr(y, 1) == Shr(y / 2, 0) == y / 2;
    hide Shr;
    ShiftedBy2(x);
    ShiftedBy2(x / 4);
    ShiftedBy2(x / 4 / 4);
    ShrTwice(x, 2, 5);
    ShrTwice(x / 4, 2, 3);
    ShrTwice(x / 4 / 4, 2, 1);
  }

  /** The shifts of next_hop are divisions. */
  lemma Quotients(x: nat)
    ensures Shr(x, 2) == x / 4 && Shr(x, 7) == x / 0x80
    ensures Shr(x / 0x80, 9) == x / 0x80 / 0x200 && Shr(x / 0x80, 14) == x / 0x80 / 0x4000
  {
    hide Shr;
    var y := x / 0x80;
    ShiftedBy2(x);
    ShiftedBy7(x);
    ShiftedBy7(y);
    ShrTwice(y, 7, 7);
    ShiftedBy7(y / 0x80);
    ShrTwice(y, 7, 2);
    ShiftedBy2(y / 0x80);
  }

  /** A word shifted right has the bits from there on. */
  lemma BitsFrom(x: nat, n: nat, m: nat, w: nat)
    requires n + m <= w
    ensures LowBits(Shr(x, n), m) == LowBits(x, w)[n..n + m]
  {
    ShrBits(x, n, m);
    LowBitsPrefix(x, n + m, w);
  }

  lemma NumberOf(x: nat, n: nat, p: nat)
    requires p == Pow2(n) && x < p
    ensures x == FromBits(LowBits(x, n))
  {
    LowBitsInverse(x, n);
  }

  lemma Powers()
    ensures Pow2(2) == 4 && Pow2(5) == 32 && Pow2(7) == 0x80 && Pow2(9) == 0x200
    ensures Pow2(14) == 0x4000 && Pow2(16) == 0x1_0000 && Pow2(21) == 0x20_0000
  {
    assert Pow2(4) == 16;
    assert Pow2(8) == 0x100;
    assert Pow2(12) == 0x1000;
    assert Pow2(15) == 0x8000;
    assert Pow2(18) == 0x4_0000;
  }

  lemma BitsOfXor(x: nat, y: nat, n: nat, p: nat)
    requires p == Pow2(n)
    ensures Xor(x, y) % p < p
    ensures LowBits(Xor(x, y) % p, n) == XorBits(LowBits(x, n), LowBits(y, n))
  {
    ModBits(Xor(x, y), n, p);
    LowBitsXor(x, y, n);
  }

  /** The clock from bit 7 up, as the program divides it. */
  lemma HighBits(clock: u32)
    ensures
      var k, high := LowBits(clock, 32), clock / 0x80;
      && LowBits(high / 0x4000, 5) == k[21..26] && LowBits(high / 0x200, 5) == k[16..21]
      && LowBits(high, 9) == k[7..16]
      && high % 0x20_0000 == FromBits(k[7..28])
  {
    var high := clock / 0x80;
    Powers();
    hide LowBits, Pow2, FromBits, Shr;
    Quotients(clock);
    ShrTwice(clock, 7, 14);
    ShrTwice(clock, 7, 9);
    BitsFrom(clock, 21, 5, 32);
    BitsFrom(clock, 16, 5, 32);
    BitsFrom(clock, 7, 9, 32);
    BitsFrom(clock, 7, 21, 32);
    ModBits(high, 21, 0x20_0000);
    NumberOf(high % 0x20_0000, 21, 0x20_0000);
  }

  lemma LowFields(clock: u32)
    ensures
      var k := LowBits(clock, 32);
      clock / 4 % 32 == FromBits(k[2..7]) && clock / 2 % 2 == Unit(k[1])
  {
    Powers();
    BitAt(clock, 32, 1);
    assert Shr(clock, 1) == clock / 2;
    hide LowBits, Pow2, FromBits, Shr;
    Quotients(clock);
    BitsFrom(clock, 2, 5, 32);
    ModBits(clock / 4, 5, 32);
    NumberOf(clock / 4 % 32, 5, 32);
  }

  lemma FourAndZero(b: nat)
    requires b < 16
    ensures LowBits(b, 5) == LowBits(b, 4) + [false]
  {
    assert Pow2(4) == 16;
    HighZeros(b, 4, 5);
  }

  /** Input A. */
  lemma InputA(v: Inputs, address: u32, clock: u32)
    requires InputsOf(v, address)
    ensures Xor(v.a1, clock / 0x80 / 0x4000) % 32
      == FromBits(XorBits(LowBits(address, 32)[23..28], LowBits(clock, 32)[21..26]))
  {
    HighBits(clock);
    Powers();
    hide LowBits, Pow2, FromBits, Xor, Selected;
    BitsOfXor(v.a1, clock / 0x80 / 0x4000, 5, 32);
    NumberOf(Xor(v.a1, clock / 0x80 / 0x4000) % 32, 5, 32);
  }

  lemma SumThenXor(x: nat, a: nat, b: nat)
    ensures LowBits(Xor((x + a) % 32, b) % 32, 5) == XorBits(LowBits(x + a, 5), LowBits(b, 5))
  {
    Powers();
    hide LowBits, Pow2, Xor;
    ModBits(x + a, 5, 32);
    BitsOfXor((x + a) % 32, b, 5, 32);
  }

  /** The input of the permutation. */
  lemma InputIsStandard(v: Inputs, address: u32, clock: u32)
    requires InputsOf(v, address)
    ensures LowBits(PermInput(v, clock / 4 % 32, clock / 0x80), 5) == Input(LowBits(address, 32), LowBits(clock, 32))
  {
    InputB(v, address);
    hide *;
    LowFields(clock);
    InputA(v, address, clock);
    SumThenXor(clock / 4 % 32, Xor(v.a1, clock / 0x80 / 0x4000) % 32, v.b);
    PermInputUnfolded(v, clock / 4 % 32, clock / 0x80);
    InputUnfolded(LowBits(address, 32), LowBits(clock, 32));
  }

  lemma InputB(v: Inputs, address: u32)
    requires InputsOf(v, address)
    ensures LowBits(v.b, 5) == LowBits(address, 32)[19..23] + [false]
  {
    FourAndZero(v.b);
    hide LowBits;
  }

  lemma PermInputUnfolded(v: Inputs, x: nat, high: nat)
    ensures PermInput(v, x, high) == Xor((x + Xor(v.a1, high / 0x4000) % 32) % 32, v.b) % 32
  {
    hide Xor;
  }

  lemma InputUnfolded(a: seq<bool>, k: seq<bool>)
    requires |a| == |k| == 32
    ensures Input(a, k)
      == XorBits(LowBits(FromBits(k[2..7]) + FromBits(XorBits(a[23..28], k[21..26])), 5), a[19..23] + [false])
  {
    hide LowBits, FromBits;
  }

  lemma ControlIsStandard(v: Inputs, address: u32, clock: u32)
    requires InputsOf(v, address)
    ensures
      var high := clock / 0x80;
      LowBits(PermLow(v, high), 9) + LowBits(PermHigh(v, clock / 2 % 2, high), 5)
      == ControlBits(LowBits(address, 32), LowBits(clock, 32))
  {
    var k, y1, high := LowBits(clock, 32), clock / 2 % 2, clock / 0x80;
    var c := Xor(v.c1, high / 0x200) % 32;
    HighBits(clock);
    LowFields(clock);
    Powers();
    AllOrNothing(k[1]);
    hide LowBits, Pow2, FromBits, Xor;
    BitsOfXor(v.c1, high / 0x200, 5, 32);
    BitsOfXor(31 * y1, c, 5, 32);
    BitsOfXor(v.d1, high, 9, 512);
  }

  lemma AllOrNothing(b: bool)
    ensures LowBits(31 * Unit(b), 5) == Bits5(b)
  {}

  lemma OffsetIsStandard(v: Inputs, address: u32, clock: u32)
    requires InputsOf(v, address)
    ensures Offset(v, clock / 2 % 2, clock / 0x80) == Added(LowBits(address, 32), LowBits(clock, 32))
  {
    Pow2Values();
    HighBits(clock);
    LowFields(clock);
    hide LowBits, Pow2, FromBits;
    NumberOf(v.e, 7, 128);
  }

  /**
   next_hop selects the frequency of the standard's kernel, for every address and clock: inputs A to F, the exchanges
   in their order, and even channels before odd ones.
   */
  lemma HopIsStandard(v: Inputs, address: u32, clock: u32)
    requires InputsOf(v, address)
    ensures Hop(v, clock) == Selected(address, clock)
  {
    hide *;
    var y1, high := clock / 2 % 2, clock / 0x80;
    InputIsStandard(v, address, clock);
    ControlIsStandard(v, address, clock);
    OffsetIsStandard(v, address, clock);
    PermutedIsStandard(PermInput(v, clock / 4 % 32, high), PermHigh(v, y1, high), PermLow(v, high));
    HopUnfolded(v, clock);
    SelectedUnfolded(address, clock);
  }

  lemma HopUnfolded(v: Inputs, clock: u32)
    ensures
      var y1, high := clock / 2 % 2, clock / 0x80;
      var p := Permuted(PermInput(v, clock / 4 % 32, high), PermHigh(v, y1, high), PermLow(v, high));
      Hop(v, clock) == FrequencyOf((p + Offset(v, y1, high)) % 79)
  {
    hide Permuted, PermInput, PermHigh, PermLow, Offset;
  }
}
