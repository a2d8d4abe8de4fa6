/**
 The CRC functions of bluetooth_le.c on machine words, bit by bit and
 backwards. Each is the register machine of CrcRegister on the data bits, least
 significant bit of each byte first.
 */
module CrcWord {
  import opened Bits
  import opened CrcRegister

  function Register24(x: nat): Register { LowBits(x, 24) }

  function Word24(r: Register): (x: u24)
    ensures Register24(x) == r
  {
    FromBitsInverse(r);
    Pow2Values();
    FromBits(r)
  }

  /** The CRC of a packet: the register, started from 24 bits of crcInit, after all data bits. */
  function Crc(crcInit: nat, data: seq<u8>): u24 {
    Word24(Run(Register24(crcInit % U24), DataBits(data)))
  }

  /** The 24 low bits in the opposite order. */
  function Rev24(x: nat): u24 { Word24(Reverse(Register24(x))) }

  // ----- words and registers

  lemma RegisterInjective(x: nat, y: nat)
    requires x < U24 && y < U24 && Register24(x) == Register24(y)
    ensures x == y
  {
    Pow2Values();
    LowBitsInjective(x, y, 24);
  }

  lemma WordOfRegister(x: nat)
    requires x < U24
    ensures Word24(Register24(x)) == x
  {
    RegisterInjective(Word24(Register24(x)), x);
  }

  lemma Rev24Involutive(x: nat)
    requires x < U24
    ensures Rev24(Rev24(x)) == x
  {
    assert Reverse(Reverse(Register24(x))) == Register24(x);
    WordOfRegister(x);
  }

  // ----- the two feedback masks

  lemma {:induction false} ShlBits(x: nat, k: nat, n: nat)
    ensures LowBits(Shl(x, k), k + n) == Zeros(k) + LowBits(x, n)
  {
    if k > 0 {
      ShlBits(x, k - 1, n);
    }
  }

  lemma {:induction false} MaskDigits()
    ensures LowBits(0x2d3, 11) == [true, true, false, false, true, false, true, true, false, true, false]
  {}

  lemma MaskTaps(m: Register)
    requires m == Zeros(13) + [true, true, false, false, true, false, true, true, false, true, false]
    ensures forall i :: 0 <= i < 24 ==> m[i] == (i < 23 && Tap(i))
  {}

  lemma MaskValues()
    ensures Shl(0x2d3, 13) == 0x5a6000 && Shl(0x5a6000, 1) == 0xb4c000
  {}

  lemma ForwardMask()
    ensures forall i :: 0 <= i < 24 ==> Register24(0x5a6000)[i] == (i < 23 && Tap(i))
  {
    MaskDigits();
    MaskValues();
    ShlBits(0x2d3, 13, 11);
    MaskTaps(Register24(0x5a6000));
  }

  lemma BackwardMask()
    ensures forall i :: 0 <= i < 24 ==> Register24(0xb4c000)[i] == (0 < i && Tap(i - 1))
  {
    ForwardMask();
    MaskValues();
    ShlBits(0x5a6000, 1, 23);
    LowBitsPrefix(0x5a6000, 23, 24);
  }

  // ----- btle_calc_crc

  /** One round of the inner loop of btle_calc_crc. */
  function WordStep(state: u24, cur: nat): nat {
    var half := state / 2;
    if Odd(Xor(state, cur)) then Xor(Or(half, Shl(1, 23)), 0x5a6000) else half
  }

  lemma OddXor(x: nat, y: nat)
    ensures Odd(Xor(x, y)) == (Odd(x) != Odd(y))
  {
    if x > 0 || y > 0 {
      var low, high := if Odd(x) != Odd(y) then 1 else 0, Xor(x / 2, y / 2);
      assert Xor(x, y) == low + 2 * high;
      hide Xor;
      Parity(low, high);
    }
  }

  lemma Parity(low: nat, high: nat)
    requires low < 2
    ensures Odd(low + 2 * high) == (low == 1)
  {}

  lemma WordStepMeaning(state: u24, cur: nat)
    ensures WordStep(state, cur) < U24
    ensures Register24(WordStep(state, cur)) == Step(Register24(state), Odd(cur))
  {
    Pow2Values();
    var r := Register24(state);
    var half := state / 2;
    assert r[0] == Odd(state);
    OddXor(state, cur);
    hide LowBits, Or, Xor, Pow2, Shl, Odd, Step;
    Halve(state, 24);
    if Odd(Xor(state, cur)) {
      SetBit(half, 24, 23);
      ForwardMask();
      LowBitsXor(Or(half, Shl(1, 23)), 0x5a6000, 24);
      XorFits(Or(half, Shl(1, 23)), 0x5a6000, 24);
    }
    assert Register24(WordStep(state, cur)) == Step(r, Odd(cur));
  }

  lemma Round(state: u24, cur: nat, n: nat)
    requires n > 0
    ensures WordStep(state, cur) < U24
    ensures Run(Register24(state), LowBits(cur, n))
         == Run(Register24(WordStep(state, cur)), LowBits(cur / 2, n - 1))
  {
    WordStepMeaning(state, cur);
    assert LowBits(cur, n)[1..] == LowBits(cur / 2, n - 1);
  }

  /** Taking in one more byte. */
  lemma NextByte(start: Register, data: seq<u8>, i: nat)
    requires i < |data|
    ensures Run(start, DataBits(data[..i + 1])) == Run(Run(start, DataBits(data[..i])), LowBits(data[i], 8))
  {
    DataBitsSnoc(data, i);
    RunConcat(start, DataBits(data[..i]), LowBits(data[i], 8));
  }

  method CalcCrc(crcInit: u32, data: array<u8>, len: nat) returns (state: u32)
    requires len <= data.Length
    ensures state == Crc(crcInit, data[..len])
  {
    state := crcInit % U24;
    ghost var start := Register24(state);
    for i := 0 to len
      invariant state < U24
      invariant Register24(state) == Run(start, DataBits(data[..len][..i]))
    {
      var cur: nat := data[i];
      ghost var byteEnd := Run(Register24(state), LowBits(cur, 8));
      for j := 0 to 8
        invariant state < U24
        invariant Run(Register24(state), LowBits(cur, 8 - j)) == byteEnd
      {
        Round(state, cur, 8 - j);
        var nextBit := Odd(Xor(state, cur));
        cur := cur / 2;
        var s: nat := state / 2;
        if nextBit {
          s := Or(s, Shl(1, 23));
          s := Xor(s, 0x5a6000);
        }
        state := s;
      }
      NextByte(start, data[..len], i);
    }
    assert data[..len][..len] == data[..len];
    WordOfRegister(state);
  }

  // ----- btle_reverse_crc

  /** One round of the inner loop of btle_reverse_crc. */
  function WordBack(state: u24, bit: nat): nat
    requires bit < 2
  {
    var top := Shr(state, 23);
    var s := Or(2 * state % U24, Xor(top, bit));
    if top != 0 then Xor(s, 0xb4c000) else s
  }

  lemma {:induction false} TopBit(x: nat, n: nat)
    requires n > 0 && x < Pow2(n)
    ensures Shr(x, n - 1) == if LowBits(x, n)[n - 1] then 1 else 0
  {
    if n > 1 {
      TopBit(x / 2, n - 1);
    }
  }

  lemma {:induction false} WithoutTop(x: nat, n: nat)
    requires Pow2(n) <= x
    ensures LowBits(x - Pow2(n), n) == LowBits(x, n)
  {
    if n > 0 {
      WithoutTop(x / 2, n - 1);
    }
  }

  /** x << 1 without the bit that leaves an n-bit word. */
  function Doubled(x: nat, n: nat): (y: nat)
    requires n > 0
  {
    if Pow2(n - 1) <= x then 2 * (x - Pow2(n - 1)) else 2 * x
  }

  lemma DoubledBits(x: nat, n: nat)
    requires n > 0 && x < Pow2(n)
    ensures Doubled(x, n) < Pow2(n)
    ensures LowBits(Doubled(x, n), n) == [false] + LowBits(x, n)[..n - 1]
  {
    LowBitsPrefix(x, n - 1, n);
    if Pow2(n - 1) <= x {
      WithoutTop(x, n - 1);
    }
  }

  /** The register after the shift, before the mask. */
  lemma ShiftIn(x: nat, bit: nat, n: nat)
    requires n > 0 && x < Pow2(n) && bit < 2
    ensures var s := Or(Doubled(x, n), Xor(Shr(x, n - 1), bit));
      s < Pow2(n) && LowBits(s, n) == [LowBits(x, n)[n - 1] != (bit == 1)] + LowBits(x, n)[..n - 1]
  {
    TopBit(x, n);
    DoubledBits(x, n);
    SetBit(Doubled(x, n), n, 0);
  }

  lemma BackByMask(r: Register, c: bool, m: Register)
    requires forall i :: 0 <= i < 24 ==> m[i] == (0 < i && Tap(i - 1))
    ensures var s := [r[23] != c] + r[..23];
      Back(r, c) == if r[23] then XorBits(s, m) else s
  {}

  lemma WordBackMeaning(state: u24, bit: nat)
    requires bit < 2
    ensures WordBack(state, bit) < U24
    ensures Register24(WordBack(state, bit)) == Back(Register24(state), bit == 1)
  {
    Pow2Values();
    var d := 2 * state % U24;
    assert d == Doubled(state, 24);
    hide LowBits, Shr, Or, Xor, Pow2, Back, Doubled;
    ShiftIn(state, bit, 24);
    TopBit(state, 24);
    BackwardMask();
    BackByMask(Register24(state), bit == 1, Register24(0xb4c000));
    var s := Or(d, Xor(Shr(state, 23), bit));
    LowBitsXor(s, 0xb4c000, 24);
    XorFits(s, 0xb4c000, 24);
  }

  /** btle_reverse_crc: the register before the packet, read in the opposite bit order. */
  function ReverseCrc(crc: u24, data: seq<u8>): u24 {
    Word24(Reverse(RunBack(Register24(crc), DataBits(data))))
  }

  /** Taking one more byte back out. */
  lemma PreviousByte(end: Register, data: seq<u8>, i: nat)
    requires i < |data|
    ensures RunBack(end, DataBits(data[i..])) == RunBack(RunBack(end, DataBits(data[i + 1..])), LowBits(data[i], 8))
  {
    assert data[i..][1..] == data[i + 1..];
    RunBackConcat(end, LowBits(data[i], 8), DataBits(data[i + 1..]));
  }

  lemma BackRound(state: u24, from: Register, bits: seq<bool>, k: nat, bit: nat)
    requires k < |bits| && bit < 2 && bits[k] == (bit == 1)
    requires Register24(state) == RunBack(from, bits[k + 1..])
    ensures WordBack(state, bit) < U24
    ensures Register24(WordBack(state, bit)) == RunBack(from, bits[k..])
  {
    WordBackMeaning(state, bit);
    assert bits[k..] == [bits[k]] + bits[k + 1..];
    RunBackConcat(from, [bits[k]], bits[k + 1..]);
    assert RunBack(Register24(state), [bits[k]]) == Back(Register24(state), bits[k]);
  }

  /** The i lowest bits of x have been put, in opposite order, at the top of y. */
  ghost predicate ReversedSoFar(x: nat, y: nat, i: nat, n: nat) {
    y < Pow2(n) && forall k :: 0 <= k < n ==> LowBits(y, n)[k] == (n - i <= k && LowBits(x, n)[n - 1 - k])
  }

  lemma ReverseOneMore(x: nat, y: nat, i: nat, n: nat)
    requires i < n && ReversedSoFar(x, y, i, n)
    ensures ReversedSoFar(x, Or(y, Shl(Shr(x, i) % 2, n - 1 - i)), i + 1, n)
  {
    BitAt(x, n, i);
    SetBit(y, n, n - 1 - i);
  }

  lemma ReverseStart(x: nat, n: nat)
    ensures ReversedSoFar(x, 0, 0, n)
  {
    LowBitsZero(n);
  }

  /** The loop that reverses 24 bits, written out in both btle_reverse_crc and promisc_follow_cb. */
  method ReverseBits24(state: u24) returns (ret: u32)
    ensures ret == Rev24(state)
  {
    var r: nat := 0;
    ReverseStart(state, 24);
    for i := 0 to 24
      invariant ReversedSoFar(state, r, i, 24)
    {
      ReverseOneMore(state, r, i, 24);
      r := Or(r, Shl(Shr(state, i) % 2, 23 - i));
    }
    Pow2Values();
    assert Register24(r) == Reverse(Register24(state));
    WordOfRegister(r);
    ret := r;
  }

  /** btle_reverse_crc on the len bytes that start at `from`. */
  method ReverseCrcWords(crc: u24, data: array<u8>, from: nat, len: nat) returns (ret: u32)
    requires from + len <= data.Length
    ensures ret == ReverseCrc(crc, data[from..from + len])
  {
    hide Shr, Or, Xor, Pow2, DataBits;
    var state: u24 := crc;
    ghost var end, packet := Register24(crc), data[from..from + len];
    var i := len;
    while i > 0
      invariant 0 <= i <= len
      invariant Register24(state) == RunBack(end, DataBits(packet[i..]))
    {
      i := i - 1;
      var cur := data[from + i];
      ghost var byteEnd, bits := Register24(state), LowBits(cur, 8);
      for j := 0 to 8
        invariant Register24(state) == RunBack(byteEnd, bits[8 - j..])
      {
        var bit := Shr(cur, 7 - j) % 2;
        BitAt(cur, 8, 7 - j);
        BackRound(state, byteEnd, bits, 7 - j, bit);
        var topBit := Shr(state, 23);
        var s := 2 * state % U24;
        s := Or(s, Xor(topBit, bit));
        if topBit != 0 {
          s := Xor(s, 0xb4c000);
        }
        state := s;
      }
      PreviousByte(end, packet, i);
    }
    ret := ReverseBits24(state);
    assert packet[0..] == packet;
  }
}
