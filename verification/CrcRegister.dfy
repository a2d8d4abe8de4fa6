/**
 The 24-bit CRC shift register of the Bluetooth link layer (Core Specification,
 Vol 6, Part B, section 3.1.1) as a sequence of bits, position 0 first, and the
 algebra of it: the register is linear, can be run backwards, and tells apart
 any two bit streams that differ in a burst of at most 24 bits.
 */
module CrcRegister {
  import opened Bits

  type Register = r: seq<bool> | |r| == 24 witness Zeros(24)

  /** Register position i is fed back: x^(23-i) is a term of x^24 + x^10 + x^9 + x^6 + x^4 + x^3 + x + 1. */
  predicate Tap(i: int) { 23 - i in {0, 1, 3, 4, 6, 9, 10} }

  function Taps(): Register { seq(24, i => Tap(i)) }

  /** One data bit goes in. */
  function Step(r: Register, c: bool): (n: Register)
    ensures forall i :: 0 <= i < 24 ==> n[i] == ((i < 23 && r[i + 1]) != (r[0] != c && Tap(i)))
  {
    seq(24, i requires 0 <= i < 24 => (i < 23 && r[i + 1]) != (r[0] != c && Tap(i)))
  }

  /** The register before a step that took in c. */
  function Back(r: Register, c: bool): (n: Register)
    ensures forall i :: 0 <= i < 24 ==>
      n[i] == if i == 0 then r[23] != c else r[i - 1] != (r[23] && Tap(i - 1))
  {
    seq(24, i requires 0 <= i < 24 => if i == 0 then r[23] != c else r[i - 1] != (r[23] && Tap(i - 1)))
  }

  function Run(r: Register, bits: seq<bool>): Register
    decreases |bits|
  {
    if bits == [] then r else Run(Step(r, bits[0]), bits[1..])
  }

  /** Takes the bits back out, last one first. */
  function RunBack(r: Register, bits: seq<bool>): Register
    decreases |bits|
  {
    if bits == [] then r else RunBack(Back(r, bits[|bits| - 1]), bits[..|bits| - 1])
  }

  // ----- forwards and backwards

  lemma BackUndoesStep(r: Register, c: bool)
    ensures Back(Step(r, c), c) == r
  {
    var n := Step(r, c);
    assert n[23] == (r[0] != c);
  }

  lemma StepUndoesBack(r: Register, c: bool)
    ensures Step(Back(r, c), c) == r
  {
    var n := Back(r, c);
    assert (n[0] != c) == r[23];
  }

  lemma {:induction false} RunConcat(r: Register, a: seq<bool>, b: seq<bool>)
    ensures Run(r, a + b) == Run(Run(r, a), b)
    decreases |a|
  {
    if a == [] {
      assert a + b == b;
    } else {
      assert (a + b)[1..] == a[1..] + b;
      RunConcat(Step(r, a[0]), a[1..], b);
    }
  }

  lemma {:induction false} RunBackConcat(r: Register, a: seq<bool>, b: seq<bool>)
    ensures RunBack(r, a + b) == RunBack(RunBack(r, b), a)
    decreases |b|
  {
    if b == [] {
      assert a + b == a;
    } else {
      var k := |b| - 1;
      assert (a + b)[..|a + b| - 1] == a + b[..k];
      RunBackConcat(Back(r, b[k]), a, b[..k]);
    }
  }

  /** Running backwards over the same bits recovers the register. */
  lemma {:induction false} RunBackUndoesRun(r: Register, bits: seq<bool>)
    ensures RunBack(Run(r, bits), bits) == r
    decreases |bits|
  {
    if bits != [] {
      var k := |bits| - 1;
      assert bits == bits[..k] + [bits[k]];
      RunConcat(r, bits[..k], [bits[k]]);
      BackUndoesStep(Run(r, bits[..k]), bits[k]);
      RunBackUndoesRun(r, bits[..k]);
    }
  }

  lemma {:induction false} RunUndoesRunBack(r: Register, bits: seq<bool>)
    ensures Run(RunBack(r, bits), bits) == r
    decreases |bits|
  {
    if bits != [] {
      var k := |bits| - 1;
      assert bits == bits[..k] + [bits[k]];
      var b := Back(r, bits[k]);
      RunUndoesRunBack(b, bits[..k]);
      RunConcat(RunBack(b, bits[..k]), bits[..k], [bits[k]]);
      StepUndoesBack(r, bits[k]);
    }
  }

  // ----- linearity

  lemma StepLinear(r: Register, s: Register, c: bool, d: bool)
    ensures Step(XorBits(r, s), c != d) == XorBits(Step(r, c), Step(s, d))
  {}

  lemma {:induction false} RunLinear(r: Register, s: Register, a: seq<bool>, b: seq<bool>)
    requires |a| == |b|
    ensures Run(XorBits(r, s), XorBits(a, b)) == XorBits(Run(r, a), Run(s, b))
    decreases |a|
  {
    if a != [] {
      StepLinear(r, s, a[0], b[0]);
      RunLinear(Step(r, a[0]), Step(s, b[0]), a[1..], b[1..]);
      assert XorBits(a, b)[1..] == XorBits(a[1..], b[1..]);
    }
  }

  lemma {:induction false} RunZeros(n: nat)
    ensures Run(Zeros(24), Zeros(n)) == Zeros(24)
  {
    if n > 0 {
      assert Step(Zeros(24), false) == Zeros(24);
      assert Zeros(n)[1..] == Zeros(n - 1);
      RunZeros(n - 1);
    }
  }

  // ----- bursts

  /** At most 24 bits taken out of an empty register stand in it unchanged: nothing reaches the top. */
  lemma {:induction false} BackFromZeros(bits: seq<bool>, r: Register, m: nat)
    requires |bits| + m <= 24
    requires forall i :: m <= i < 24 ==> !r[i]
    ensures RunBack(r, bits) == bits + r[..m] + Zeros(24 - m - |bits|)
    decreases |bits|
  {
    if bits == [] {
      assert r == bits + r[..m] + Zeros(24 - m - |bits|);
    } else {
      var k := |bits| - 1;
      var b := Back(r, bits[k]);
      BackShifts(r, bits[k], m);
      hide Back;
      BackFromZeros(bits[..k], b, m + 1);
      assert bits == bits[..k] + [bits[k]];
      assert bits[..k] + ([bits[k]] + r[..m]) + Zeros(23 - m - k) == bits + r[..m] + Zeros(23 - m - k);
    }
  }

  lemma BackShifts(r: Register, c: bool, m: nat)
    requires m < 24 && forall i :: m <= i < 24 ==> !r[i]
    ensures Back(r, c)[..m + 1] == [c] + r[..m]
    ensures forall i :: m + 1 <= i < 24 ==> !Back(r, c)[i]
  {}

  /** From one register, at most 24 bits are determined by the register they lead to. */
  lemma WindowDetermined(r: Register, w1: seq<bool>, w2: seq<bool>)
    requires |w1| == |w2| <= 24 && Run(r, w1) == Run(r, w2)
    ensures w1 == w2
  {
    var d := XorBits(w1, w2);
    RunLinear(r, r, w1, w2);
    assert XorBits(r, r) == Zeros(24);
    assert XorBits(Run(r, w1), Run(r, w2)) == Zeros(24);
    RunBackUndoesRun(Zeros(24), d);
    BackFromZeros(d, Zeros(24), 0);
    assert forall i :: 0 <= i < |d| ==> d[i] == RunBack(Zeros(24), d)[i];
  }

  /** Burst detection: what comes before and after the window does not matter. */
  lemma BurstTold(r: Register, a: seq<bool>, w1: seq<bool>, w2: seq<bool>, b: seq<bool>)
    requires |w1| == |w2| <= 24 && w1 != w2
    ensures Run(r, a + w1 + b) != Run(r, a + w2 + b)
  {
    var s := Run(r, a);
    RunConcat(r, a + w1, b);
    RunConcat(r, a, w1);
    RunConcat(r, a + w2, b);
    RunConcat(r, a, w2);
    if Run(s, w1) == Run(s, w2) {
      WindowDetermined(s, w1, w2);
      assert false;
    }
    RunBackUndoesRun(Run(s, w1), b);
    RunBackUndoesRun(Run(s, w2), b);
  }

  /** A register fed its own bits empties. */
  lemma {:induction false} SelfFeed(r: Register, n: nat)
    requires n <= 24
    requires forall i :: n <= i < 24 ==> !r[i]
    ensures Run(r, r[..n]) == Zeros(24)
    decreases n
  {
    if n == 0 {
      assert r == Zeros(24);
    } else {
      var s := Step(r, r[0]);
      assert s[..n - 1] == r[1..n];
      assert r[..n][1..] == r[1..n];
      SelfFeed(s, n - 1);
    }
  }

  /** The 25 bits of the generator polynomial leave an empty register empty. */
  lemma PolynomialFromZeros()
    ensures Run(Zeros(24), [true] + Taps()) == Zeros(24)
  {
    assert ([true] + Taps())[1..] == Taps();
    assert Step(Zeros(24), true) == Taps();
    assert Taps()[..24] == Taps();
    SelfFeed(Taps(), 24);
  }

  /** The polynomial's 25 bits leave no trace in any register, so 24 is the best bound. */
  lemma PolynomialUnseen(r: Register, w: seq<bool>, z: seq<bool>)
    requires |w| == |z| == 25 && XorBits(w, z) == [true] + Taps()
    ensures Run(r, w) == Run(r, z)
  {
    var p := [true] + Taps();
    PolynomialFromZeros();
    RunLinear(r, Zeros(24), z, p);
    assert XorBits(r, Zeros(24)) == r;
    assert w == XorBits(z, p) by {
      assert forall i :: 0 <= i < 25 ==> p[i] == (w[i] != z[i]);
    }
    assert XorBits(Run(r, z), Zeros(24)) == Run(r, z);
  }
}
