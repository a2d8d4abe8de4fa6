/** Printing and reading numbers, and padding them to a field width. */
module TinyPrintf {
  import opened Numerals

  const U32: nat := 0x1_0000_0000
  const U64: nat := 0x1_0000_0000_0000_0000
  const I31: nat := 0x8000_0000
  const NUL: char := '\0'

  /** struct param; sign is NUL when there is none. The buffer is passed beside it. */
  datatype Param = Param(lz: bool, alt: bool, uc: bool, alignLeft: bool, width: nat, sign: char, base: nat)

  // ----- characters

  function DigitChar(d: nat, uc: bool): (c: char)
    requires d < 16
    ensures A2d(c) == d && c != NUL
  {
    if d < 10 then '0' + d as char else (if uc then 'A' else 'a') + (d - 10) as char
  }

  /** The value of a hexadecimal digit in either case, -1 for any other character. */
  function A2d(ch: char): int {
    if '0' <= ch <= '9' then ch as int - '0' as int
    else if 'a' <= ch <= 'f' then ch as int - 'a' as int + 10
    else if 'A' <= ch <= 'F' then ch as int - 'A' as int + 10
    else -1
  }

  const LOWER: string := "0123456789abcdef"
  const UPPER: string := "0123456789ABCDEF"

  /** Digits are printed in the case asked for, and read in either case; no other character is read as a digit. */
  lemma DigitLetters(d: nat, uc: bool, ch: char)
    requires d < 16
    ensures DigitChar(d, uc) == (if uc then UPPER else LOWER)[d]
    ensures A2d(ch) == d <==> ch == LOWER[d] || ch == UPPER[d]
    ensures A2d(ch) == -1 <==> !exists e: nat :: e < 16 && (ch == LOWER[e] || ch == UPPER[e])
  {
    LettersAt(d);
    if A2d(ch) >= 0 {
      LettersAt(A2d(ch));
    }
    forall e: nat | e < 16 ensures A2d(LOWER[e]) == A2d(UPPER[e]) == e {
      LettersAt(e);
    }
  }

  lemma LettersAt(d: nat)
    requires d < 16
    ensures LOWER[d] == DigitChar(d, false) && UPPER[d] == DigitChar(d, true)
  {
    if d == 0 {} else if d == 1 {} else if d == 2 {} else if d == 3 {} else if d == 4 {} else if d == 5 {}
    else if d == 6 {} else if d == 7 {} else if d == 8 {} else if d == 9 {} else if d == 10 {} else if d == 11 {}
    else if d == 12 {} else if d == 13 {} else if d == 14 {} else {}
  }

  function Text(ds: seq<nat>, uc: bool): (t: string)
    requires DigitsBelow(ds, 16)
    ensures |t| == |ds|
    ensures forall i :: 0 <= i < |t| ==> A2d(t[i]) == ds[i] && t[i] != NUL
  {
    seq(|ds|, i requires 0 <= i < |ds| => DigitChar(ds[i], uc))
  }

  // ----- ui2a, uli2a and ulli2a

  /** C's division and remainder of unsigned words. */
  function Div(x: nat, d: nat): nat
    requires d >= 1
  {
    x / d
  }

  function Mod(x: nat, d: nat): nat
    requires d >= 1
  {
    x % d
  }

  lemma DivMod(x: nat, d: nat)
    requires d >= 1
    ensures x == Div(x, d) * d + Mod(x, d) && Mod(x, d) < d
  {}

  lemma QuotientAtLeast(num: nat, d: nat, base: nat)
    requires d >= 1 && Div(num, d) >= base
    ensures d * base <= num
  {
    DivMod(num, d);
    hide Div, Mod;
    MulMono(base, Div(num, d), d);
  }

  lemma QuotientBelow(num: nat, d: nat, base: nat)
    requires d >= 1 && Div(num, d) < base
    ensures num < d * base
  {
    DivMod(num, d);
    hide Div, Mod;
    MulMono(Div(num, d) + 1, base, d);
  }

  lemma QuotientOfLess(rest: nat, d: nat, base: nat)
    requires d >= 1 && rest < d * base
    ensures Div(rest, d) < base
  {
    if Div(rest, d) >= base {
      QuotientAtLeast(rest, d, base);
      assert false;
    }
  }

  /** Taking the leading digit off what is left keeps the number. */
  lemma TakeDigit(v: nat, rest: nat, d: nat, base: nat)
    requires d >= 1
    ensures (v * base + Div(rest, d)) * d + Mod(rest, d) == v * (d * base) + rest
  {
    DivMod(rest, d);
    hide Div, Mod;
    Distribute(v * base, Div(rest, d), d);
    MulAssoc(v, base, d);
  }

  lemma Distribute(x: nat, y: nat, d: nat)
    ensures (x + y) * d == x * d + y * d
  {}

  lemma PowStep(base: nat, k: nat)
    requires base >= 2 && k > 0
    ensures Pow(base, k - 1) >= 1 && Pow(base, k) == Pow(base, k - 1) * base
    ensures Div(Pow(base, k), base) == Pow(base, k - 1)
  {
    PowMono(1, base, k - 1);
    assert Pow(base, k) == Pow(base, k - 1) * base;
    hide Pow;
    QuotientIs(Pow(base, k - 1), 0, base);
  }

  /** The numbers and bases of the conversions: 32 bits from octal on, 64 bits from decimal on. */
  predicate Convertible(num: nat, base: nat, limit: nat) {
    num < limit && base <= 16 && ((limit == U32 && base >= 8) || (limit == U64 && base >= 10))
  }

  /** How many digits such a number has at most: with its NUL it fits the 12-byte and the 23-byte buffer. */
  function MaxDigits(limit: nat): nat { if limit == U32 then 11 else 20 }

  lemma FewDigits(num: nat, base: nat, limit: nat)
    requires Convertible(num, base, limit)
    ensures num < Pow(base, MaxDigits(limit))
  {
    Capacities(base);
  }

  lemma SmallMod(x: nat, m: nat)
    requires x < m
    ensures x % m == x
  {}

  lemma NextWeight(num: nat, d: nat, base: nat, limit: nat)
    requires base >= 2 && d >= 1 && num < limit && Div(num, d) >= base
    ensures d * base % limit == d * base && d < d * base <= num
  {
    QuotientAtLeast(num, d, base);
    SmallMod(d * base, limit);
    MulMono(2, base, d);
  }

  /** The first loop: d becomes the weight of the leading digit. Its multiplication, done modulo limit, never wraps. */
  method LeadingWeight(num: nat, base: nat, limit: nat) returns (d: nat, ghost k: nat)
    requires base >= 2 && num < limit
    ensures d == Pow(base, k) && d >= 1 && num < d * base && (k == 0 || d <= num)
  {
    d := 1;
    k := 0;
    while Div(num, d) >= base
      invariant d == Pow(base, k) && d >= 1 && (k == 0 || d <= num)
      decreases num - d + 1
    {
      NextWeight(num, d, base, limit);
      d := d * base % limit;
      k := k + 1;
    }
    QuotientBelow(num, d, base);
  }

  lemma LeadingDigit(rest: nat, d: nat)
    requires 1 <= d <= rest
    ensures Div(rest, d) > 0
  {
    if Div(rest, d) == 0 {
      QuotientBelow(rest, d, 1);
      assert false;
    }
  }

  /** ds are the digits printed so far, rest is what is left of num, and d the weight base^k of the next digit. */
  ghost predicate Printing(num: nat, base: nat, ds: seq<nat>, rest: nat, d: nat, k: nat) {
    && d == Pow(base, k) && rest < d * base
    && DigitsBelow(ds, base)
    && Value(ds, base) * (d * base) + rest == num
    && (if ds == [] then k == 0 || d <= rest else ds[0] > 0)
  }

  /** One round of the second loop: a digit is printed, and either the numeral is complete or the printing goes on. */
  lemma NextDigit(num: nat, base: nat, ds: seq<nat>, rest: nat, d: nat, k: nat)
    requires base >= 2 && d >= 1 && Printing(num, base, ds, rest, d, k)
    ensures Div(rest, d) < base && (ds != [] || Div(rest, d) > 0 || Div(d, base) == 0)
    ensures k == 0 ==> Div(d, base) == 0 && IsNumeral(ds + [Div(rest, d)], base, num)
    ensures k > 0 ==> Div(d, base) >= 1 && Printing(num, base, ds + [Div(rest, d)], Mod(rest, d), Div(d, base), k - 1)
  {
    DivMod(rest, d);
    if k > 0 {
      PowStep(base, k);
    } else {
      assert d == 1;
      assert Div(d, base) == 0;
    }
    hide Div, Mod, Pow, Value;
    QuotientOfLess(rest, d, base);
    TakeDigit(Value(ds, base), rest, d, base);
    ValueSnoc(ds, Div(rest, d), base);
    if d <= rest {
      LeadingDigit(rest, d);
    }
  }

  /**
   The numeral printed into the buffer is the canonical one of num, ended by a NUL. ui2a has limit 2^32 and a buffer
   of 12 bytes, or of 23 in a build with long support, in which uli2a and ulli2a may have limit 2^64.
   */
  method Ui2a(num: nat, p: Param, bf: array<char>, limit: nat) returns (ghost ds: seq<nat>)
    requires Convertible(num, p.base, limit) && bf.Length >= if limit == U32 then 12 else 23
    modifies bf
    ensures IsNumeral(ds, p.base, num) && |ds| <= MaxDigits(limit) && DigitsBelow(ds, 16)
    ensures bf[..|ds|] == Text(ds, p.uc) && bf[|ds|] == NUL
  {
    hide Pow, Value, IsNumeral, Printing, Div, Mod;
    var base := p.base;
    var n, rest := 0, num;
    var d;
    ghost var k;
    d, k := LeadingWeight(num, base, limit);
    ghost var top := k;
    WeightBound(num, base, limit, d, k);
    StartPrinting(num, base, d, k);
    ds := [];
    while d != 0
      invariant 0 <= n == |ds| && (d > 0 ==> k + n == top) && n <= top + 1
      invariant DigitsBelow(ds, base)
      invariant d > 0 ==> k >= 0 && Printing(num, base, ds, rest, d, k)
      invariant d == 0 ==> IsNumeral(ds, base, num)
      invariant bf[..n] == Text(ds, p.uc)
      decreases top + 1 - n
    {
      NextDigit(num, base, ds, rest, d, k);
      var dgt := Div(rest, d);
      rest := Mod(rest, d);
      d := Div(d, base);
      if n > 0 || dgt > 0 || d == 0 {
        bf[n] := DigitChar(dgt, p.uc);
        n := n + 1;
      }
      ds := ds + [dgt];
      k := if k > 0 then k - 1 else 0;
    }
    bf[n] := NUL;
  }

  lemma WeightBound(num: nat, base: nat, limit: nat, d: nat, k: nat)
    requires Convertible(num, base, limit) && d == Pow(base, k) && (k == 0 || d <= num)
    ensures k < MaxDigits(limit)
  {
    var m := MaxDigits(limit);
    FewDigits(num, base, limit);
    if k >= m {
      PowAdd(base, k - m, m);
      PowMono(1, base, k - m);
      MulAtLeast(Pow(base, k - m), Pow(base, m));
      assert false;
    }
  }

  lemma StartPrinting(num: nat, base: nat, d: nat, k: nat)
    requires d == Pow(base, k) && num < d * base && (k == 0 || d <= num)
    ensures Printing(num, base, [], num, d, k)
  {}

  // ----- a2u

  /** The characters that a2u takes for digits; its comparison lets a digit equal to the base through. */
  predicate Accepted(ch: char, base: nat) {
    0 <= A2d(ch) <= base
  }

  /** The first position from i on whose character is not accepted. */
  function EndOfDigits(text: string, i: nat, base: nat): (j: nat)
    requires i <= |text|
    ensures i <= j <= |text|
    ensures forall k :: i <= k < j ==> Accepted(text[k], base)
    ensures j < |text| ==> !Accepted(text[j], base)
    decreases |text| - i
  {
    if i < |text| && Accepted(text[i], base) then EndOfDigits(text, i + 1, base) else i
  }

  function DigitsOf(text: string, base: nat): (ds: seq<nat>)
    requires forall k :: 0 <= k < |text| ==> Accepted(text[k], base)
    ensures |ds| == |text|
  {
    seq(|text|, k requires 0 <= k < |text| && Accepted(text[k], base) => A2d(text[k]) as nat)
  }

  /** A string as C has it: the characters up to a NUL, which is the last one here. */
  predicate Terminated(text: string) {
    text != [] && text[|text| - 1] == NUL
  }

  lemma WrapStep(v: nat, base: nat, d: nat)
    ensures (v % U32 * base + d) % U32 == (v * base + d) % U32
  {
    var q, r := v / U32, v % U32;
    assert v == q * U32 + r;
    Distribute(q * U32, r, base);
    assert v * base == q * U32 * base + r * base;
    assert q * U32 * base == q * base * U32;
    AddMultiple(r * base + d, q * base);
  }

  lemma AddMultiple(x: nat, k: nat)
    ensures (k * U32 + x) % U32 == x % U32
  {}

  /**
   ch is the first character and src points behind it. The result is the first character that is not a digit, the
   position behind that one, and the value of the digits modulo 2^32.
   */
  method A2u(ch: char, text: string, src: nat, base: nat) returns (next: char, p: nat, num: nat)
    requires Terminated(text) && 1 <= src <= |text| && ch == text[src - 1]
    ensures
      var j := EndOfDigits(text, src - 1, base);
      && j < |text| && next == text[j] && p == j + 1
      && num == Value(DigitsOf(text[src - 1..j], base), base) % U32
  {
    hide Value;
    next, p, num := ch, src, 0;
    ghost var i, j := src - 1, EndOfDigits(text, src - 1, base);
    ghost var ds: seq<nat> := [];
    assert Value(ds, base) == 0 by { NoDigits(base); }
    assert !Accepted(NUL, base);
    while A2d(next) >= 0
      invariant src <= p <= j + 1 <= |text| && next == text[p - 1]
      invariant ds == DigitsOf(text[i..p - 1], base)
      invariant num == Value(ds, base) % U32
      decreases |text| - p
    {
      var digit := A2d(next);
      if digit > base {
        break;
      }
      WrapStep(Value(ds, base), base, digit);
      ValueSnoc(ds, digit, base);
      assert text[i..p] == text[i..p - 1] + [next];
      ds := ds + [digit];
      num := (num * base + digit) % U32;
      next := text[p];
      p := p + 1;
    }
  }

  lemma NoDigits(base: nat)
    ensures Value([], base) == 0
  {}

  /** What a2u reads from the start of a text: how many digits, and their value. */
  function Read(text: string, base: nat): (nat, nat) {
    var j := EndOfDigits(text, 0, base);
    (j, Value(DigitsOf(text[..j], base), base) % U32)
  }

  lemma {:induction false} EndAfter(text: string, i: nat, j: nat, base: nat)
    requires i <= j <= |text| && forall k :: i <= k < j ==> Accepted(text[k], base)
    ensures EndOfDigits(text, i, base) == EndOfDigits(text, j, base)
    decreases j - i
  {
    if i < j {
      EndAfter(text, i + 1, j, base);
    }
  }

  /**
   A printed numeral is read back, to the same number and up to its own end, exactly when the character behind it
   is not one that a2u accepts.
   */
  lemma ReadsBackExactly(n: nat, base: nat, ds: seq<nat>, uc: bool, rest: string)
    requires n < U32 && 2 <= base && IsNumeral(ds, base, n) && DigitsBelow(ds, 16) && rest != []
    ensures Read(Text(ds, uc) + rest, base) == (|ds|, n) <==> !Accepted(rest[0], base)
  {
    NumeralParts(ds, base, n);
    SmallMod(n, U32);
    hide *;
    var t := Text(ds, uc);
    TextAccepted(ds, uc, base);
    EndBehind(t, rest, base);
    ReadIs(t, rest, base);
  }

  lemma NumeralParts(ds: seq<nat>, base: nat, n: nat)
    requires IsNumeral(ds, base, n)
    ensures Value(ds, base) == n && DigitsBelow(ds, base)
  {
    hide Value;
  }

  /** What is read from a text that goes on behind t. */
  lemma ReadIs(t: string, rest: string, base: nat)
    requires forall k :: 0 <= k < |t| ==> Accepted(t[k], base)
    ensures Read(t + rest, base).0 == EndOfDigits(t + rest, 0, base)
    ensures EndOfDigits(t + rest, 0, base) == |t| ==> Read(t + rest, base).1 == Value(DigitsOf(t, base), base) % U32
  {
    hide Value, DigitsOf, EndOfDigits, Accepted;
    assert (t + rest)[..|t|] == t;
  }

  /** The printed digits are read as themselves. */
  lemma TextAccepted(ds: seq<nat>, uc: bool, base: nat)
    requires DigitsBelow(ds, 16) && DigitsBelow(ds, base)
    ensures forall k :: 0 <= k < |ds| ==> Accepted(Text(ds, uc)[k], base)
    ensures DigitsOf(Text(ds, uc), base) == ds
  {
    hide DigitChar, A2d;
  }

  lemma EndBehind(t: string, rest: string, base: nat)
    requires rest != [] && forall k :: 0 <= k < |t| ==> Accepted(t[k], base)
    ensures EndOfDigits(t + rest, 0, base) == |t| <==> !Accepted(rest[0], base)
  {
    hide A2d, Accepted;
    var text := t + rest;
    EndAfter(text, 0, |t|, base);
    assert text[|t|] == rest[0];
  }

  /** In base 10 the characters that spoil it are the decimal digits and the letter a in either case. */
  lemma AcceptedInDecimal(ch: char)
    ensures Accepted(ch, 10) <==> '0' <= ch <= '9' || ch == 'a' || ch == 'A'
  {}

  /** "1a" reads as 20 in base 10: the a counts as ten units. */
  lemma LetterReadAsTen()
    ensures Read("1a" + [NUL], 10) == (2, 20)
  {
    var text := "1a" + [NUL];
    assert EndOfDigits(text, 2, 10) == 2;
    assert EndOfDigits(text, 1, 10) == 2;
    var ds := DigitsOf(text[..2], 10);
    assert ds == [1] + [10];
    ValueSnoc([1], 10, 10);
    ValueSnoc([], 1, 10);
    assert [] + [1] == [1];
  }

  // ----- putchw

  /** int n = p->width: the conversion to int of a 32-bit word. */
  function AsInt(width: nat): int {
    if width < I31 then width else width - U32
  }

  function Sign(p: Param): string {
    if p.sign == NUL then "" else [p.sign]
  }

  function Prefix(p: Param): string {
    if p.alt && p.base == 16 then ['0', if p.uc then 'X' else 'x'] else if p.alt && p.base == 8 then ['0'] else ""
  }

  /** The mark of the alternate form: 0x or 0X for hexadecimal, 0 for octal. */
  function Mark(p: Param): string {
    if !p.alt then "" else if p.base == 16 then (if p.uc then "0X" else "0x") else if p.base == 8 then "0" else ""
  }

  function Fill(n: int, ch: char): (s: string) {
    seq(if n > 0 then n else 0, _ => ch)
  }

  /** What is left of the width for filling. */
  function Room(p: Param, text: string): int {
    AsInt(p.width) - |text| - |Sign(p)| - |Prefix(p)|
  }

  /** The field: spaces, sign, prefix, zeros, text, spaces, of which at most one kind of filling is there. */
  function Field(p: Param, text: string): string {
    var n := Room(p, text);
    (if !p.lz && !p.alignLeft then Fill(n, ' ') else "") + Sign(p) + Prefix(p)
      + (if p.lz then Fill(n, '0') else "") + text + (if !p.lz && p.alignLeft then Fill(n, ' ') else "")
  }

  /** No decrement of n leaves the range of a 32-bit int; only four widths from 2^31 on can break this. */
  predicate NoUnderflow(p: Param) {
    AsInt(p.width) + I31 >= |Sign(p)| + |Prefix(p)| + 1
  }

  lemma UnderflowsOnlyAt(p: Param)
    requires p.width < U32
    ensures !NoUnderflow(p) <==>
      0x8000_0000 <= p.width <= 0x8000_0000 + |Mark(p)| + if p.sign == NUL then 0 else 1
    ensures |Mark(p)| <= 2
  {}

  /** The field is as long as the width or itself exactly when the width fits an int or is too small to matter. */
  lemma FieldLength(p: Param, text: string)
    requires p.width < U32 && NoUnderflow(p)
    ensures
      var own := |Sign(p)| + |Prefix(p)| + |text|;
      |Field(p, text)| == (if p.width > own then p.width else own) <==> p.width < I31 || p.width <= own
  {}

  /** Without the filling it is sign, prefix and text; the filling is one run, and zeros go between prefix and text. */
  lemma FieldParts(p: Param, text: string)
    ensures
      var n := Room(p, text);
      if p.lz then Field(p, text) == "" + Sign(p) + Prefix(p) + Fill(n, '0') + text
      else if p.alignLeft then Field(p, text) == "" + Sign(p) + Prefix(p) + text + Fill(n, ' ')
      else Field(p, text) == "" + Fill(n, ' ') + Sign(p) + Prefix(p) + text
  {}

  // ----- reading a field

  /** Leading zeros do not change a value. */
  lemma {:induction false} ZerosInFront(zeros: seq<nat>, ds: seq<nat>, base: nat)
    requires forall i :: 0 <= i < |zeros| ==> zeros[i] == 0
    ensures Value(zeros + ds, base) == Value(ds, base)
    decreases |zeros| + |ds|
  {
    if ds != [] {
      var k := |ds| - 1;
      assert (zeros + ds)[..|zeros| + k] == zeros + ds[..k];
      ZerosInFront(zeros, ds[..k], base);
    } else if zeros != [] {
      var k := |zeros| - 1;
      assert zeros + [] == zeros;
      assert zeros[..k] + [] == zeros[..k];
      ZerosInFront(zeros[..k], [], base);
    }
  }

  /** Digits with zeros in front of them, read up to a character that is not one. */
  lemma ZerosRead(k: nat, ds: seq<nat>, uc: bool, base: nat, rest: string)
    requires 2 <= base && DigitsBelow(ds, 16) && DigitsBelow(ds, base) && rest != [] && !Accepted(rest[0], base)
    ensures Read(Fill(k, '0') + Text(ds, uc) + rest, base) == (k + |ds|, Value(ds, base) % U32)
  {
    hide *;
    var all := WithZeros(k, ds, uc, base);
    TextAccepted(all, uc, base);
    EndBehind(Text(all, uc), rest, base);
    ReadIs(Text(all, uc), rest, base);
  }

  lemma WithZeros(k: nat, ds: seq<nat>, uc: bool, base: nat) returns (all: seq<nat>)
    requires 2 <= base && DigitsBelow(ds, 16) && DigitsBelow(ds, base)
    ensures |all| == k + |ds| && DigitsBelow(all, 16) && DigitsBelow(all, base)
    ensures Text(all, uc) == Fill(k, '0') + Text(ds, uc) && Value(all, base) == Value(ds, base)
  {
    var zeros: seq<nat> := seq(k, _ => 0);
    all := zeros + ds;
    ZerosInFront(zeros, ds, base);
    hide A2d, Value;
    assert DigitChar(0, uc) == '0';
    hide DigitChar;
    assert Text(all, uc) == Fill(k, '0') + Text(ds, uc);
  }

  /** How many spaces stand in front. */
  function Indent(p: Param, text: string): nat {
    var n := Room(p, text);
    if !p.lz && !p.alignLeft && n > 0 then n else 0
  }

  /**
   Reading a printed field: behind the spaces stand the sign and the mark of the alternate form, and what follows, zeros
   or not, is read as the number, when the text goes on with a character that a2u does not accept.
   */
  lemma FieldReadsBack(p: Param, ds: seq<nat>, n: nat, rest: string)
    requires 2 <= p.base && IsNumeral(ds, p.base, n) && DigitsBelow(ds, 16) && n < U32
    requires rest != [] && !Accepted(rest[0], p.base)
    ensures
      var f, i := Field(p, Text(ds, p.uc)), Indent(p, Text(ds, p.uc));
      var lead := (if p.sign == NUL then "" else [p.sign]) + Mark(p);
      && i + |lead| <= |f| && (forall k :: 0 <= k < i ==> f[k] == ' ') && f[i..i + |lead|] == lead
      && Read(f[i + |lead|..] + rest, p.base).1 == n
  {
    hide *;
    NumeralParts(ds, p.base, n);
    SmallMod(n, U32);
    MarkIsPrefix(p);
    var text := Text(ds, p.uc);
    var f, i, lead := Field(p, text), Indent(p, text), Sign(p) + Prefix(p);
    var zeros, spaces := Filling(p, text);
    Behind(f, Fill(i, ' '), lead, Fill(zeros, '0') + text + Fill(spaces, ' '));
    Unaccepted(spaces, rest, p.base);
    ZerosRead(zeros, ds, p.uc, p.base, Fill(spaces, ' ') + rest);
    Rejoined(Fill(zeros, '0') + text, Fill(spaces, ' '), rest);
    Spaces(i);
  }

  /** The field by its three fillings, of which at most one is not empty. */
  lemma Filling(p: Param, text: string) returns (zeros: nat, spaces: nat)
    ensures Field(p, text)
      == Fill(Indent(p, text), ' ') + (Sign(p) + Prefix(p)) + (Fill(zeros, '0') + text + Fill(spaces, ' '))
  {
    var n := Room(p, text);
    var some := if n > 0 then n else 0;
    zeros := if p.lz then some else 0;
    spaces := if !p.lz && p.alignLeft then some else 0;
    FieldParts(p, text);
    hide Field, Sign, Prefix;
    assert Fill(0, ' ') == "" && Fill(0, '0') == "";
    assert Fill(n, '0') == Fill(some, '0') && Fill(n, ' ') == Fill(some, ' ');
    Arranged(Sign(p), Prefix(p), text, Fill(some, '0'), Fill(some, ' '));
  }

  lemma Arranged(sign: string, prefix: string, text: string, zeros: string, spaces: string)
    ensures "" + sign + prefix + zeros + text == "" + (sign + prefix) + (zeros + text + "")
    ensures "" + sign + prefix + text + spaces == "" + (sign + prefix) + ("" + text + spaces)
    ensures "" + spaces + sign + prefix + text == spaces + (sign + prefix) + ("" + text + "")
  {}

  lemma Unaccepted(spaces: nat, rest: string, base: nat)
    requires rest != [] && !Accepted(rest[0], base)
    ensures Fill(spaces, ' ') + rest != [] && !Accepted((Fill(spaces, ' ') + rest)[0], base)
  {}

  lemma Rejoined(a: string, b: string, c: string)
    ensures a + (b + c) == a + b + c
  {}

  lemma Spaces(n: nat)
    ensures |Fill(n, ' ')| == n && forall k :: 0 <= k < n ==> Fill(n, ' ')[k] == ' '
  {}

  lemma MarkIsPrefix(p: Param)
    ensures Mark(p) == Prefix(p) && Sign(p) == if p.sign == NUL then "" else [p.sign]
  {}

  lemma Behind(f: string, a: string, b: string, c: string)
    requires f == a + b + c
    ensures |a| + |b| <= |f| && f[|a|..|a| + |b|] == b && f[|a| + |b|..] == c
    ensures forall k :: 0 <= k < |a| ==> f[k] == a[k]
  {}

  // ----- the loops of putchw

  /** The loop while (n-- > 0) putf(putp, ch); n is left one lower than at its end. */
  method Pad(out: string, n: int, ch: char) returns (r: string, left: int)
    ensures r == out + Fill(n, ch)
    ensures left == (if n > 0 then 0 else n) - 1
  {
    r, left := out, n;
    while left > 0
      invariant if n > 0 then 0 <= left <= n && r == out + Fill(n - left, ch) else left == n && r == out
    {
      r := r + [ch];
      left := left - 1;
    }
    left := left - 1;
  }

  /** The first loop of putchw: n goes down with the characters of the text, but not below 0. */
  method CountDown(bf: string, width: int) returns (n: int)
    requires Terminated(bf) && forall i :: 0 <= i < |bf| - 1 ==> bf[i] != NUL
    ensures n == if width <= 0 then width else if width < |bf| then 0 else width - (|bf| - 1)
  {
    n := width;
    var i := 0;
    while bf[i] != NUL && n > 0
      invariant 0 <= i < |bf|
      invariant n == width - i && (if width <= 0 then i == 0 else n >= 0)
      decreases |bf| - i
    {
      i := i + 1;
      n := n - 1;
    }
  }

  method PutString(out: string, bf: string) returns (r: string)
    requires Terminated(bf) && forall i :: 0 <= i < |bf| - 1 ==> bf[i] != NUL
    ensures r == out + bf[..|bf| - 1]
  {
    r := out;
    var i := 0;
    while bf[i] != NUL
      invariant 0 <= i < |bf|
      invariant r == out + bf[..i]
      decreases |bf| - i
    {
      r := r + [bf[i]];
      i := i + 1;
    }
  }

  method PutPrefix(out: string, p: Param) returns (r: string)
    ensures r == out + Sign(p) + Prefix(p)
  {
    r := out;
    if p.sign != NUL {
      r := r + [p.sign];
    }
    if p.alt && p.base == 16 {
      r := r + ['0'];
      r := r + [if p.uc then 'X' else 'x'];
    } else if p.alt && p.base == 8 {
      r := r + ['0'];
    }
  }

  /** The second half of putchw, with n characters of filling. */
  method PutField(p: Param, n: int, bf: string) returns (r: string)
    requires Terminated(bf) && forall i :: 0 <= i < |bf| - 1 ==> bf[i] != NUL
    ensures
      var text := bf[..|bf| - 1];
      if p.lz then r == "" + Sign(p) + Prefix(p) + Fill(n, '0') + text
      else if p.alignLeft then r == "" + Sign(p) + Prefix(p) + text + Fill(n, ' ')
      else r == "" + Fill(n, ' ') + Sign(p) + Prefix(p) + text
  {
    hide *;
    var left := n;
    r := "";
    if !p.lz && !p.alignLeft {
      r, left := Pad(r, left, ' ');
    }
    r := PutPrefix(r, p);
    if p.lz {
      r, left := Pad(r, left, '0');
    }
    r := PutString(r, bf);
    if !p.lz && p.alignLeft {
      r, left := Pad(r, left, ' ');
    }
  }

  /** The characters emitted, or that the counter leaves the range of an int, which C leaves undefined. */
  datatype Output = Emitted(text: string) | Undefined

  /** What is emitted for a buffer that holds a text and a NUL. */
  method Putchw(p: Param, bf: string) returns (r: Output)
    requires Terminated(bf) && p.width < U32
    requires forall i :: 0 <= i < |bf| - 1 ==> bf[i] != NUL
    ensures r == if NoUnderflow(p) then Emitted(Field(p, bf[..|bf| - 1])) else Undefined
  {
    var n := CountDown(bf, AsInt(p.width));
    if p.sign != NUL {
      n := n - 1;
    }
    if p.alt && p.base == 16 {
      n := n - 2;
    } else if p.alt && p.base == 8 {
      n := n - 1;
    }
    // n only goes down, and at last once more in the test of the one loop that fills
    if n - 1 + I31 < 0 {
      return Undefined;
    }
    SameFill(n, Room(p, bf[..|bf| - 1]));
    FieldParts(p, bf[..|bf| - 1]);
    hide *;
    var text := PutField(p, n, bf);
    r := Emitted(text);
  }

  lemma SameFill(n: int, room: int)
    requires n == room || (n <= 0 && room <= 0)
    ensures Fill(n, ' ') == Fill(room, ' ') && Fill(n, '0') == Fill(room, '0')
  {}
}
