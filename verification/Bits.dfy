/**
 Machine words as natural numbers, with C's shift and bitwise operators, and
 the bridge from a word to the sequence of its bits (least significant first).
 */
module Bits {

  const U8: nat := 0x100
  const U16: nat := 0x1_0000
  const U24: nat := 0x100_0000
  const U32: nat := 0x1_0000_0000

  type u8 = x: nat | x < 0x100
  type u16 = x: nat | x < 0x1_0000
  type u24 = x: nat | x < 0x100_0000
  type u32 = x: nat | x < 0x1_0000_0000

  predicate Odd(x: nat) { x % 2 == 1 }

  /** x >> n */
  function Shr(x: nat, n: nat): nat { if n == 0 then x else Shr(x / 2, n - 1) }

  /** x << n, before any truncation */
  function Shl(x: nat, n: nat): nat { if n == 0 then x else 2 * Shl(x, n - 1) }

  /** x & y */
  function And(x: nat, y: nat): nat {
    if x == 0 || y == 0 then 0
    else (if Odd(x) && Odd(y) then 1 else 0) + 2 * And(x / 2, y / 2)
  }

  /** x | y */
  function Or(x: nat, y: nat): nat {
    if x == 0 && y == 0 then 0
    else (if Odd(x) || Odd(y) then 1 else 0) + 2 * Or(x / 2, y / 2)
  }

  /** x ^ y */
  function Xor(x: nat, y: nat): nat {
    if x == 0 && y == 0 then 0
    else (if Odd(x) != Odd(y) then 1 else 0) + 2 * Xor(x / 2, y / 2)
  }

  /** The n low bits of x, least significant first. */
  function LowBits(x: nat, n: nat): (bits: seq<bool>)
    ensures |bits| == n
  {
    if n == 0 then [] else [Odd(x)] + LowBits(x / 2, n - 1)
  }

  /** The number whose bits, least significant first, are given. */
  function FromBits(bits: seq<bool>): nat {
    if bits == [] then 0 else (if bits[0] then 1 else 0) + 2 * FromBits(bits[1..])
  }

  function Pow2(n: nat): (p: nat)
    ensures p > 0
  { if n == 0 then 1 else 2 * Pow2(n - 1) }

  /** Pointwise exclusive or. */
  function XorBits(a: seq<bool>, b: seq<bool>): (r: seq<bool>)
    requires |a| == |b|
    ensures |r| == |a| && forall i :: 0 <= i < |a| ==> r[i] == (a[i] != b[i])
  {
    seq(|a|, i requires 0 <= i < |a| => a[i] != b[i])
  }

  function Zeros(n: nat): (r: seq<bool>)
    ensures |r| == n && forall i :: 0 <= i < n ==> !r[i]
  {
    seq(n, _ => false)
  }

  /** Reversal of a bit sequence. */
  function Reverse(bits: seq<bool>): (r: seq<bool>)
    ensures |r| == |bits| && forall i :: 0 <= i < |bits| ==> r[i] == bits[|bits| - 1 - i]
  {
    seq(|bits|, i requires 0 <= i < |bits| => bits[|bits| - 1 - i])
  }

  // ----- words and their bits determine each other

  lemma {:induction false} FromBitsInverse(bits: seq<bool>)
    ensures LowBits(FromBits(bits), |bits|) == bits
    ensures FromBits(bits) < Pow2(|bits|)
  {
    if bits != [] {
      FromBitsInverse(bits[1..]);
      assert bits == [bits[0]] + bits[1..];
    }
  }

  lemma {:induction false} LowBitsInverse(x: nat, n: nat)
    requires x < Pow2(n)
    ensures FromBits(LowBits(x, n)) == x
  {
    if n > 0 {
      LowBitsInverse(x / 2, n - 1);
      assert LowBits(x, n)[1..] == LowBits(x / 2, n - 1);
    }
  }

  lemma LowBitsInjective(x: nat, y: nat, n: nat)
    requires x < Pow2(n) && y < Pow2(n) && LowBits(x, n) == LowBits(y, n)
    ensures x == y
  {
    LowBitsInverse(x, n);
    LowBitsInverse(y, n);
  }

  lemma Pow2Values()
    ensures Pow2(7) == 0x80 && Pow2(8) == U8 && Pow2(16) == U16
    ensures Pow2(23) == 0x80_0000 && Pow2(24) == U24 && Pow2(32) == U32
  {
    assert Pow2(4) == 16;
    assert Pow2(7) == 0x80;
    assert Pow2(10) == 0x400;
    assert Pow2(13) == 0x2000;
    assert Pow2(16) == U16;
    assert Pow2(19) == 0x8_0000;
    assert Pow2(22) == 0x40_0000;
    assert Pow2(25) == 0x200_0000;
    assert Pow2(28) == 0x1000_0000;
    assert Pow2(31) == 0x8000_0000;
  }

  // ----- the operators, bit by bit

  lemma {:induction false} LowBitsXor(x: nat, y: nat, n: nat)
    ensures LowBits(Xor(x, y), n) == XorBits(LowBits(x, n), LowBits(y, n))
  {
    if n > 0 {
      LowBitsXor(x / 2, y / 2, n - 1);
    }
  }

  lemma {:induction false} XorFits(x: nat, y: nat, n: nat)
    requires x < Pow2(n) && y < Pow2(n)
    ensures Xor(x, y) < Pow2(n)
  {
    if n > 0 {
      XorFits(x / 2, y / 2, n - 1);
    }
  }

  lemma {:induction false} LowBitsZero(n: nat)
    ensures LowBits(0, n) == Zeros(n)
  {
    if n > 0 {
      LowBitsZero(n - 1);
    }
  }

  /** Bit i of x, read as (x >> i) & 1. */
  lemma {:induction false} BitAt(x: nat, n: nat, i: nat)
    requires i < n
    ensures LowBits(x, n)[i] == Odd(Shr(x, i))
  {
    if i > 0 {
      BitAt(x / 2, n - 1, i - 1);
    }
  }

  lemma OrOne(x: nat)
    ensures Or(x, 1) == x / 2 * 2 + 1
  {
    OrZero(x / 2);
  }

  lemma OrEven(x: nat, y: nat)
    ensures Or(x, 2 * y) / 2 == Or(x / 2, y) && Odd(Or(x, 2 * y)) == Odd(x)
    ensures Or(x, 2 * y) == x % 2 + 2 * Or(x / 2, y)
  {}

  /** x | (1 << i) sets bit i, and x | (0 << i) changes nothing. */
  lemma {:induction false} SetBit(x: nat, n: nat, i: nat)
    requires i < n && x < Pow2(n)
    ensures LowBits(Or(x, Shl(1, i)), n) == LowBits(x, n)[i := true]
    ensures Or(x, Shl(1, i)) < Pow2(n)
    ensures Or(x, Shl(0, i)) == x
  {
    OrZero(x);
    ShlZero(i);
    if i == 0 {
      OrOne(x);
    } else {
      SetBit(x / 2, n - 1, i - 1);
      OrEven(x, Shl(1, i - 1));
    }
    hide Or;
  }

  lemma {:induction false} OrZero(x: nat)
    ensures Or(x, 0) == x
  {
    if x > 0 {
      OrZero(x / 2);
    }
  }

  lemma {:induction false} ShlZero(i: nat)
    ensures Shl(0, i) == 0
  {
    if i > 0 {
      ShlZero(i - 1);
    }
  }

  /** Shifting a word right drops its lowest bit and brings in a zero. */
  lemma {:induction false} Halve(x: nat, n: nat)
    requires n > 0 && x < Pow2(n)
    ensures x / 2 < Pow2(n)
    ensures LowBits(x / 2, n) == LowBits(x, n)[1..] + [false]
  {
    if n > 1 {
      Halve(x / 2, n - 1);
    }
  }

  lemma {:induction false} LowBitsPrefix(x: nat, m: nat, n: nat)
    requires m <= n
    ensures LowBits(x, n)[..m] == LowBits(x, m)
  {
    if m > 0 {
      LowBitsPrefix(x / 2, m - 1, n - 1);
    }
  }

  /** A word below 2^m has only zeros from bit m on. */
  lemma {:induction false} HighZeros(x: nat, m: nat, n: nat)
    requires m <= n && x < Pow2(m)
    ensures LowBits(x, n) == LowBits(x, m) + Zeros(n - m)
  {
    if m == 0 {
      LowBitsZero(n);
    } else {
      HighZeros(x / 2, m - 1, n - 1);
    }
  }

  // ----- byte strings

  /** The bits of a byte string, least significant bit of each byte first. */
  function DataBits(data: seq<u8>): (bits: seq<bool>)
    ensures |bits| == 8 * |data|
  {
    if data == [] then [] else LowBits(data[0], 8) + DataBits(data[1..])
  }

  lemma {:induction false} DataBitsConcat(a: seq<u8>, b: seq<u8>)
    ensures DataBits(a + b) == DataBits(a) + DataBits(b)
    decreases |a|
  {
    if a == [] {
      assert a + b == b;
    } else {
      assert (a + b)[1..] == a[1..] + b;
      DataBitsConcat(a[1..], b);
    }
  }

  lemma DataBitsSnoc(data: seq<u8>, i: nat)
    requires i < |data|
    ensures DataBits(data[..i + 1]) == DataBits(data[..i]) + LowBits(data[i], 8)
  {
    assert data[..i + 1] == data[..i] + [data[i]];
    DataBitsConcat(data[..i], [data[i]]);
    assert DataBits([data[i]]) == LowBits(data[i], 8);
  }

  lemma {:induction false} DataBitsInjective(a: seq<u8>, b: seq<u8>)
    requires |a| == |b| && DataBits(a) == DataBits(b)
    ensures a == b
    decreases |a|
  {
    if a != [] {
      assert LowBits(a[0], 8) == DataBits(a)[..8] == DataBits(b)[..8] == LowBits(b[0], 8);
      Pow2Values();
      LowBitsInjective(a[0], b[0], 8);
      assert DataBits(a[1..]) == DataBits(a)[8..] == DataBits(b)[8..] == DataBits(b[1..]);
      DataBitsInjective(a[1..], b[1..]);
    }
  }

  // ----- fields of a word

  lemma {:induction false} WithoutHigh(y: nat, q: nat, n: nat)
    ensures LowBits(y + Pow2(n) * q, n) == LowBits(y, n)
  {
    if n > 0 {
      var h := Pow2(n - 1) * q;
      assert y + Pow2(n) * q == y + 2 * h;
      assert (y + 2 * h) / 2 == y / 2 + h;
      WithoutHigh(y / 2, q, n - 1);
    }
  }

  lemma Remainder(x: nat, r: nat, q: nat, n: nat, p: nat)
    requires p == Pow2(n) && x == r + p * q
    ensures LowBits(x, n) == LowBits(r, n)
  {
    WithoutHigh(r, q, n);
  }

  lemma Divide(x: nat, p: nat) returns (q: nat, r: nat)
    requires p > 0
    ensures x == r + p * q && r == x % p && r < p
  {
    q, r := x / p, x % p;
  }

  /** x % 2^n keeps the n low bits. */
  lemma ModBits(x: nat, n: nat, p: nat)
    requires p == Pow2(n)
    ensures x % p < p
    ensures LowBits(x % p, n) == LowBits(x, n)
  {
    var q, r := Divide(x, p);
    Remainder(x, r, q, n, p);
  }

  /** x >> k, read as the bits from k on. */
  lemma {:induction false} ShrBits(x: nat, k: nat, m: nat)
    ensures LowBits(Shr(x, k), m) == LowBits(x, k + m)[k..]
    decreases k
  {
    if k > 0 {
      ShrBits(x / 2, k - 1, m);
      assert LowBits(x, k + m)[k..] == LowBits(x / 2, k - 1 + m)[k - 1..];
    } else {
      assert LowBits(x, m)[0..] == LowBits(x, m);
    }
  }

  /** (x >> k) & (2^m - 1) */
  lemma Field(x: nat, k: nat, m: nat)
    ensures Shr(x, k) % Pow2(m) < Pow2(m)
    ensures LowBits(Shr(x, k) % Pow2(m), m) == LowBits(x, k + m)[k..]
  {
    ModBits(Shr(x, k), m, Pow2(m));
    ShrBits(x, k, m);
  }

  lemma {:induction false} ShrTwice(x: nat, i: nat, j: nat)
    ensures Shr(Shr(x, i), j) == Shr(x, i + j)
    decreases i
  {
    if i > 0 {
      ShrTwice(x / 2, i - 1, j);
    }
  }

  /** x & (1 << i) */
  lemma {:induction false} AndBit(x: nat, i: nat)
    ensures And(x, Shl(1, i)) == Shl(Shr(x, i) % 2, i)
    decreases i
  {
    if i > 0 {
      AndBit(x / 2, i - 1);
      ShlZero(i - 1);
    }
  }
}
