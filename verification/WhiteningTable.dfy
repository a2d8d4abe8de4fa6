/**
 The whitening tables of bluetooth_le.h: one period of the whitening sequence,
 and where in it each channel starts; checked against the recurrence and the
 seeds of the shift register that Whitening defines.
 */
module WhiteningTable {
  import opened Bits

  /** whitening[k] is 1; the positions are listed by the rows of the table, 22 to a row. */
  predicate Whitening(k: nat)
    requires k < 127
  {
    if k < 22 then k in {0, 1, 2, 3, 5, 7, 9, 14, 16, 17, 19, 20, 21}
    else if k < 44 then k in {22, 25, 26, 27, 30, 32, 34, 35, 38, 39}
    else if k < 66 then k in {45, 46, 48, 49, 51, 53, 54, 55, 57, 61, 62, 65}
    else if k < 88 then k in {69, 76, 79, 82, 83, 85}
    else if k < 110 then k in {88, 89, 90, 91, 93, 94, 95, 100, 101, 102, 103, 104, 105, 106}
    else k in {110, 111, 112, 114, 115, 119, 121, 124, 126}
  }

  /** whitening_index[channel] */
  function Start(channel: nat): (k: nat)
    requires channel < 40
    ensures k < 127
  {
    if channel == 0 then 70 else if channel == 1 then 62 else
    if channel == 2 then 120 else if channel == 3 then 111 else
    if channel == 4 then 77 else if channel == 5 then 46 else if channel == 6 then 15 else if channel == 7 then 101 else
    if channel == 8 then 66 else if channel == 9 then 39 else
    if channel == 10 then 31 else if channel == 11 then 26 else
    if channel == 12 then 80 else if channel == 13 then 83 else
    if channel == 14 then 125 else if channel == 15 then 89 else
    if channel == 16 then 10 else if channel == 17 then 35 else
    if channel == 18 then 8 else if channel == 19 then 54 else
    if channel == 20 then 122 else if channel == 21 then 17 else
    if channel == 22 then 33 else if channel == 23 then 0 else
    if channel == 24 then 58 else if channel == 25 then 115 else
    if channel == 26 then 6 else if channel == 27 then 94 else
    if channel == 28 then 86 else if channel == 29 then 49 else
    if channel == 30 then 52 else if channel == 31 then 20 else
    if channel == 32 then 40 else if channel == 33 then 27 else
    if channel == 34 then 84 else if channel == 35 then 90 else
    if channel == 36 then 63 else if channel == 37 then 112 else if channel == 38 then 47 else 102
  }

  /** The sequence repeats with period 127. */
  predicate Sequence(k: nat) {
    if k < 127 then Whitening(k) else Sequence(k - 127)
  }

  /** k modulo the period, by subtraction. */
  function Residue(k: nat): (r: nat)
    ensures r == k % 127
    ensures k >= 127 ==> r == Residue(k - 127)
  {
    if k < 127 then k else Residue(k - 127)
  }

  lemma {:induction false} SequenceIsTable(k: nat)
    ensures Sequence(k) == Whitening(Residue(k))
  {
    if k >= 127 {
      SequenceIsTable(k - 127);
    }
  }

  lemma FirstRecurrence(k: nat)
    requires k < 127
    ensures Sequence(k + 7) == (Sequence(k) != Sequence(k + 4))
  {}

  /** Bit k + 7 is the exclusive or of bits k and k + 4. */
  lemma {:induction false} Recurrence(k: nat)
    ensures Sequence(k + 7) == (Sequence(k) != Sequence(k + 4))
  {
    if k < 127 {
      FirstRecurrence(k);
    } else {
      Recurrence(k - 127);
    }
  }

  /**
   The seven bits of w from k on are what a register seeded with channel c puts
   out first: the seed is a one and the channel index, most significant bit first.
   */
  predicate StartsAs(w: nat -> bool, c: nat, k: nat) {
    && w(k) == Odd(c) && w(k + 1) == Odd(c / 2) && w(k + 2) == Odd(c / 4)
    && w(k + 3) == (Odd(c) != Odd(c / 8)) && w(k + 4) == (Odd(c / 2) != Odd(c / 16))
    && w(k + 5) == (Odd(c / 4) != Odd(c / 32)) && w(k + 6) != w(k + 3)
  }

  lemma Seeds0(c: nat) requires 0 <= c < 5 ensures StartsAs(Sequence, c, Start(c)) {}
  lemma Seeds1(c: nat) requires 5 <= c < 10 ensures StartsAs(Sequence, c, Start(c)) {}
  lemma Seeds2(c: nat) requires 10 <= c < 15 ensures StartsAs(Sequence, c, Start(c)) {}
  lemma Seeds3(c: nat) requires 15 <= c < 20 ensures StartsAs(Sequence, c, Start(c)) {}
  lemma Seeds4(c: nat) requires 20 <= c < 25 ensures StartsAs(Sequence, c, Start(c)) {}
  lemma Seeds5(c: nat) requires 25 <= c < 30 ensures StartsAs(Sequence, c, Start(c)) {}
  lemma Seeds6(c: nat) requires 30 <= c < 35 ensures StartsAs(Sequence, c, Start(c)) {}
  lemma Seeds7(c: nat) requires 35 <= c < 40 ensures StartsAs(Sequence, c, Start(c)) {}

  lemma Seeds(c: nat)
    requires c < 40
    ensures StartsAs(Sequence, c, Start(c))
  {
    if c < 5 { Seeds0(c); } else if c < 10 { Seeds1(c); } else if c < 15 { Seeds2(c); } else if c < 20 { Seeds3(c); }
    else if c < 25 { Seeds4(c); } else if c < 30 { Seeds5(c); } else if c < 35 { Seeds6(c); } else { Seeds7(c); }
  }
}
