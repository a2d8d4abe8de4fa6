/**
 btle_crcgen_lut: the table-driven CRC computes the bit-serial one.
 */
module CrcLut {
  import opened Bits
  import opened CrcRegister
  import opened CrcWord
  import CrcTable

  /** Taking in bits is exclusive or with them and then as many zero bits. */
  lemma {:induction false} FeedAsXor(r: Register, bits: seq<bool>)
    requires |bits| <= 24
    ensures Run(r, bits) == Run(XorBits(r, bits + Zeros(24 - |bits|)), Zeros(|bits|))
    decreases |bits|
  {
    var x := XorBits(r, bits + Zeros(24 - |bits|));
    if bits == [] {
      assert x == r;
    } else {
      var n := Step(r, bits[0]);
      FeedAsXor(n, bits[1..]);
      assert Step(x, false) == XorBits(n, bits[1..] + Zeros(25 - |bits|));
      assert Zeros(|bits|)[1..] == Zeros(|bits| - 1);
    }
  }

  /** Zero bits shift a register right as long as its low end is empty. */
  lemma {:induction false} ZerosShift(r: Register, n: nat)
    requires n <= 24 && forall i :: 0 <= i < n ==> !r[i]
    ensures Run(r, Zeros(n)) == r[n..] + Zeros(n)
    decreases n
  {
    if n == 0 {
      assert r[0..] + Zeros(0) == r;
    } else {
      var s := Step(r, false);
      assert s == r[1..] + [false];
      ZerosShift(s, n - 1);
      assert Zeros(n)[1..] == Zeros(n - 1);
      assert s[n - 1..] + Zeros(n - 1) == r[n..] + Zeros(n);
    }
  }

  lemma EvenWord(x: nat, n: nat)
    requires n > 0 && 2 * x < Pow2(n)
    ensures LowBits(2 * x, n) == [false] + LowBits(x, n)[..n - 1]
    ensures !LowBits(x, n)[n - 1]
  {
    assert 2 * x / 2 == x && !Odd(2 * x);
    assert LowBits(2 * x, n) == [false] + LowBits(x, n - 1);
    hide LowBits;
    LowBitsPrefix(x, n - 1, n);
    HighZeros(x, n - 1, n);
  }

  /** If r shifts to s, and eight zeros take s to t below the top bit, they take r to t shifted up. */
  lemma ShiftedEntry(r: Register, s: Register, t: Register, n: nat)
    requires r == [false] + s[..23] && !s[23] && !t[23]
    requires t == Run(s, Zeros(n))
    ensures Run(r, Zeros(n)) == [false] + t[..23]
  {
    hide Run, Step, Back;
    ShiftUp(r, s);
    ShiftBack(t);
    OneZero(r);
    var e := Run(r, Zeros(n));
    OneZero(e);
    assert [false] + Zeros(n) == Zeros(n) + [false];
    RunConcat(r, [false], Zeros(n));
    RunConcat(r, Zeros(n), [false]);
    BackUndoesStep(e, false);
  }

  lemma ShiftUp(r: Register, s: Register)
    requires r == [false] + s[..23] && !s[23]
    ensures Step(r, false) == s
  {}

  lemma ShiftBack(t: Register)
    requires !t[23]
    ensures Back(t, false) == [false] + t[..23]
  {}

  lemma OneZero(r: Register)
    ensures Run(r, [false]) == Step(r, false)
  {}

  lemma EvenEntry(k: nat, t: nat)
    requires k < 128 && 2 * t < U24
    requires Register24(t) == Run(Register24(k), Zeros(8))
    ensures Register24(2 * t) == Run(Register24(2 * k), Zeros(8))
  {
    Pow2Values();
    EvenWord(k, 24);
    EvenWord(t, 24);
    ShiftedEntry(Register24(2 * k), Register24(k), Register24(t), 8);
  }

  lemma OneBits(n: nat)
    requires n > 0
    ensures LowBits(1, n) == [true] + Zeros(n - 1)
  {
    LowBitsZero(n - 1);
  }

  lemma {:induction false} EntryDigits()
    ensures LowBits(0x6d3, 11) == [true, true, false, false, true, false, true, true, false, true, true]
  {}

  lemma EntryValues()
    ensures Shl(0x6d3, 6) == 0x01b4c0 && Pow2(11) == 0x800
  {}

  lemma FirstEntryBits()
    ensures Register24(0x01b4c0)
         == Zeros(6) + [true, true, false, false, true, false, true, true, false, true, true] + Zeros(7)
  {
    EntryDigits();
    EntryValues();
    HighZeros(0x6d3, 11, 18);
    ShlBits(0x6d3, 6, 18);
  }

  lemma StepOne()
    ensures Step([true] + Zeros(23), false) == Taps()
  {}

  lemma NextZero(r: Register, n: nat)
    requires n > 0
    ensures Run(r, Zeros(n)) == Run(Step(r, false), Zeros(n - 1))
  {
    assert Zeros(n)[1..] == Zeros(n - 1);
  }

  lemma LowTaps()
    ensures forall i :: 0 <= i < 7 ==> !Taps()[i]
  {}

  lemma TapsShifted()
    ensures Taps()[7..] + Zeros(7)
         == Zeros(6) + [true, true, false, false, true, false, true, true, false, true, true] + Zeros(7)
  {}

  lemma RunOne()
    ensures Run([true] + Zeros(23), Zeros(8))
         == Zeros(6) + [true, true, false, false, true, false, true, true, false, true, true] + Zeros(7)
  {
    StepOne();
    NextZero([true] + Zeros(23), 8);
    LowTaps();
    hide *;
    ZerosShift(Taps(), 7);
    TapsShifted();
  }

  lemma OddWord(x: nat, n: nat)
    ensures LowBits(2 * x + 1, n) == XorBits(LowBits(2 * x, n), LowBits(1, n))
  {
    if n > 0 {
      OneBits(n);
      assert (2 * x + 1) / 2 == x && 2 * x / 2 == x;
    }
  }

  lemma OddEntry(k: nat, t: nat)
    requires Register24(t) == Run(Register24(2 * k), Zeros(8))
    ensures Register24(Xor(t, 0x01b4c0)) == Run(Register24(2 * k + 1), Zeros(8))
  {
    hide LowBits, Run, Xor, Taps;
    var e, one := Register24(2 * k), [true] + Zeros(23);
    assert Register24(0x01b4c0) == Run(one, Zeros(8)) by {
      FirstEntryBits();
      RunOne();
    }
    assert Register24(2 * k + 1) == XorBits(e, one) by {
      OddWord(k, 24);
      OneBits(24);
    }
    RunLinear(e, one, Zeros(8), Zeros(8));
    assert XorBits(Zeros(8), Zeros(8)) == Zeros(8);
    LowBitsXor(t, 0x01b4c0, 24);
  }

  lemma ZeroEntry(n: nat)
    ensures Register24(0) == Run(Register24(0), Zeros(n))
  {
    LowBitsZero(24);
    RunZeros(n);
  }

  /** A table entry is its index after n zero bits; n is 8 throughout. */
  ghost predicate EntryOk(table: seq<u24>, key: nat, n: nat)
    requires key < |table|
  {
    Register24(table[key]) == Run(Register24(key), Zeros(n))
  }

  lemma NextEntries(table: seq<u24>, k: nat, n: nat)
    requires k < 128 && |table| == 256 && CrcTable.BuiltAt(table, k) && n == 8
    requires EntryOk(table, k, n)
    ensures EntryOk(table, 2 * k, n) && EntryOk(table, 2 * k + 1, n)
  {
    EvenEntry(k, table[k]);
    OddEntry(k, table[2 * k]);
  }

  lemma FirstEntry(n: nat)
    ensures EntryOk(CrcTable.Table(), 0, n)
  {
    CrcTable.TableIsBuilt();
    hide CrcTable.BuiltAt, Run, LowBits, CrcTable.Lut, CrcTable.Table;
    ZeroEntry(n);
  }

  /** Every entry of the table is its index after eight zero bits. */
  lemma {:induction false} EntryMeaning(key: nat, n: nat)
    requires key < 256 && n == 8
    ensures EntryOk(CrcTable.Table(), key, n)
    decreases key
  {
    hide *;
    FirstEntry(n);
    if key > 0 {
      var k := key / 2;
      CrcTable.TableAt(k);
      EntryMeaning(k, n);
      NextEntries(CrcTable.Table(), k, n);
    }
  }

  /** Eight bits into a register: the high end shifts down, the low end goes through n zero bits. */
  lemma SplitFeed(r: Register, bits: seq<bool>, low: Register, n: nat)
    requires |bits| == n <= 24
    requires forall i :: 0 <= i < 24 ==> low[i] == (i < n && r[i] != bits[i])
    ensures Run(r, bits) == XorBits(r[n..] + Zeros(n), Run(low, Zeros(n)))
  {
    FeedAsXor(r, bits);
    var x := XorBits(r, bits + Zeros(24 - n));
    var high: Register := Zeros(n) + r[n..];
    assert x == XorBits(high, low);
    RunLinear(high, low, Zeros(n), Zeros(n));
    assert XorBits(Zeros(n), Zeros(n)) == Zeros(n);
    ZerosShift(high, n);
  }

  lemma {:induction false} ShiftDown(x: nat, n: nat, m: nat)
    requires x < Pow2(n) && m <= n
    ensures Shr(x, m) < Pow2(n)
    ensures LowBits(Shr(x, m), n) == LowBits(x, n)[m..] + Zeros(m)
    decreases m
  {
    if m == 0 {
      assert LowBits(x, n)[0..] + Zeros(0) == LowBits(x, n);
    } else {
      Halve(x, n);
      ShiftDown(x / 2, n, m - 1);
      hide LowBits;
      DropOneMore(LowBits(x, n), m);
    }
  }

  lemma DropOneMore(bits: seq<bool>, m: nat)
    requires 1 <= m <= |bits|
    ensures (bits[1..] + [false])[m - 1..] + Zeros(m - 1) == bits[m..] + Zeros(m)
  {}

  lemma ByteShift(state: nat)
    ensures Shr(state, 8) == state / 256
  {
    var x4 := FourHalves(state, 4);
    var x8 := FourHalves(x4, 0);
    assert Shr(x8, 0) == x8;
    hide Shr;
    assert 256 * x8 <= state < 256 * x8 + 256;
  }

  lemma FourHalves(x: nat, n: nat) returns (q: nat)
    ensures Shr(x, n + 4) == Shr(q, n) && 16 * q <= x < 16 * q + 16
  {
    var x1 := x / 2;
    var x2 := x1 / 2;
    var x3 := x2 / 2;
    q := x3 / 2;
    assert Shr(x, n + 4) == Shr(x1, n + 3) == Shr(x2, n + 2);
    assert Shr(x2, n + 2) == Shr(x3, n + 1) == Shr(q, n);
  }

  /** The key of btle_crcgen_lut holds the low bits of the state, exclusive or the data byte. */
  lemma KeyBits(state: u24, b: u8)
    ensures Xor(b, state % 256) < 256
    ensures forall i :: 0 <= i < 24 ==>
      Register24(Xor(b, state % 256))[i] == (i < 8 && Register24(state)[i] != LowBits(b, 8)[i])
  {
    Pow2Values();
    XorFits(b, state % 256, 8);
    HighZeros(Xor(b, state % 256), 8, 24);
    LowBitsXor(b, state % 256, 8);
    LowBitsPrefix(state, 8, 24);
    LowByte(state);
  }

  lemma LowByte(x: nat)
    ensures LowBits(x % 256, 8) == LowBits(x, 8)
  {
    Pow2Values();
    assert x == x % 256 + 256 * (x / 256);
    WithoutHigh(x % 256, x / 256, 8);
  }

  /** One round of btle_crcgen_lut takes in the eight bits of a byte. */
  lemma LutRound(state: u24, b: u8, n: nat)
    requires n == 8
    ensures Xor(b, state % 256) < 256
    ensures Xor(state / 256, CrcTable.Table()[Xor(b, state % 256)]) < U24
    ensures Register24(Xor(state / 256, CrcTable.Table()[Xor(b, state % 256)]))
         == Run(Register24(state), LowBits(b, n))
  {
    hide Xor, LowBits, Run, CrcTable.Lut, CrcTable.IsBuilt;
    KeyBits(state, b);
    var key, table := Xor(b, state % 256), CrcTable.Table();
    EntryMeaning(key, n);
    SplitFeed(Register24(state), LowBits(b, n), Register24(key), n);
    ByteShift(state);
    Pow2Values();
    ShiftDown(state, 24, n);
    LowBitsXor(state / 256, table[key], 24);
    XorFits(state / 256, table[key], 24);
  }

  /** btle_crcgen_lut computes the CRC of btle_calc_crc. */
  method CrcgenLut(crcInit: u32, data: array<u8>, len: nat) returns (state: u32)
    requires len <= data.Length
    ensures state == Crc(crcInit, data[..len])
  {
    state := crcInit % U24;
    ghost var start := Register24(state);
    for i := 0 to len
      invariant state < U24
      invariant Register24(state) == Run(start, DataBits(data[..len][..i]))
    {
      LutRound(state, data[i], 8);
      var key := Xor(data[i], state % 256);
      state := Xor(state / 256, CrcTable.Lut(key));
      NextByte(start, data[..len], i);
    }
    assert data[..len][..len] == data[..len];
    WordOfRegister(state);
  }
}
