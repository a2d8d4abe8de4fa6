/** Positional numerals: what a digit string means, and that canonical ones are unique. */
module Numerals {

  function Pow(b: nat, n: nat): nat {
    if n == 0 then 1 else b * Pow(b, n - 1)
  }

  /** The value of a string of digits, most significant first. */
  function Value(ds: seq<nat>, base: nat): nat {
    if ds == [] then 0 else Value(ds[..|ds| - 1], base) * base + ds[|ds| - 1]
  }

  predicate DigitsBelow(ds: seq<nat>, base: nat) {
    forall i :: 0 <= i < |ds| ==> ds[i] < base
  }

  /** The canonical numeral of n: digits below the base, and no leading zero unless it is the only digit. */
  predicate IsNumeral(ds: seq<nat>, base: nat, n: nat) {
    ds != [] && DigitsBelow(ds, base) && (|ds| > 1 ==> ds[0] > 0) && Value(ds, base) == n
  }

  lemma ValueSnoc(ds: seq<nat>, d: nat, base: nat)
    ensures Value(ds + [d], base) == Value(ds, base) * base + d
  {
    assert (ds + [d])[..|ds|] == ds;
  }

  lemma QuotientIs(q: nat, r: nat, b: nat)
    requires r < b
    ensures (q * b + r) / b == q && (q * b + r) % b == r
  {
    var n := q * b + r;
    var x, y := n / b, n % b;
    assert n == x * b + y;
    if x > q {
      MulAtLeast(x - q, b);
      assert false;
    } else if x < q {
      MulAtLeast(q - x, b);
      assert false;
    }
  }

  lemma MulAtLeast(k: nat, b: nat)
    requires k >= 1
    ensures k * b >= b
  {
    assert k * b == (k - 1) * b + b;
  }

  lemma {:induction false} Positive(ds: seq<nat>, base: nat)
    requires ds != [] && ds[0] > 0 && base >= 1
    ensures Value(ds, base) >= Pow(base, |ds| - 1) && Pow(base, |ds| - 1) >= 1
    decreases |ds|
  {
    var n := |ds|;
    if n == 1 {
      assert Value(ds[..0], base) == 0;
    } else {
      Positive(ds[..n - 1], base);
      MulMono(Pow(base, n - 2), Value(ds[..n - 1], base), base);
      MulAtLeast(Pow(base, n - 2), base);
    }
  }

  lemma MulMono(x: nat, y: nat, b: nat)
    requires x <= y
    ensures x * b <= y * b
  {
    assert y * b == x * b + (y - x) * b;
  }

  /** A number has only one canonical numeral. */
  lemma {:induction false} NumeralUnique(ds: seq<nat>, es: seq<nat>, base: nat, n: nat)
    requires base >= 2 && IsNumeral(ds, base, n) && IsNumeral(es, base, n)
    ensures ds == es
    decreases |ds| + |es|
  {
    var d, e := ds[..|ds| - 1], es[..|es| - 1];
    QuotientIs(Value(d, base), ds[|ds| - 1], base);
    QuotientIs(Value(e, base), es[|es| - 1], base);
    assert Value(d, base) == n / base == Value(e, base);
    if d != [] {
      Positive(d, base);
    }
    if e != [] {
      Positive(e, base);
    }
    if d != [] && e != [] {
      NumeralUnique(d, e, base, n / base);
    }
    assert ds == d + [ds[|ds| - 1]] && es == e + [es[|es| - 1]];
  }

  lemma {:induction false} PowMono(b: nat, c: nat, n: nat)
    requires 1 <= b <= c
    ensures 1 <= Pow(b, n) <= Pow(c, n)
  {
    if n > 0 {
      PowMono(b, c, n - 1);
      MulMono(Pow(b, n - 1), Pow(c, n - 1), c);
      MulMono(b, c, Pow(b, n - 1));
      MulAtLeast(b, Pow(b, n - 1));
    }
  }

  lemma {:induction false} PowAdd(b: nat, m: nat, n: nat)
    ensures Pow(b, m + n) == Pow(b, m) * Pow(b, n)
    decreases m
  {
    if m > 0 {
      PowAdd(b, m - 1, n);
      assert Pow(b, m + n) == b * Pow(b, m - 1 + n);
      MulAssoc(b, Pow(b, m - 1), Pow(b, n));
    }
  }

  lemma MulAssoc(x: nat, y: nat, z: nat)
    ensures x * y * z == x * (y * z)
  {}

  /** 8^11 is 2^33 and 10^20 is above 2^64. */
  lemma Capacities(base: nat)
    ensures base >= 8 ==> Pow(base, 11) > 0xFFFF_FFFF
    ensures base >= 10 ==> Pow(base, 20) > 0xFFFF_FFFF_FFFF_FFFF
  {
    if base >= 8 {
      assert Pow(8, 3) == 512;
      PowAdd(8, 4, 4);
      PowAdd(8, 8, 3);
      PowMono(8, base, 11);
    }
    if base >= 10 {
      assert Pow(10, 4) == 10_000;
      PowAdd(10, 4, 4);
      PowAdd(10, 8, 8);
      PowAdd(10, 16, 4);
      PowMono(10, base, 20);
    }
  }
}
