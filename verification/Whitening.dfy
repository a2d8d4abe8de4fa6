/**
 Data whitening (Core Specification, Vol 6, Part B, section 3.2): the shift
 register x^7 + x^4 + 1 of the standard, and the code that whitens and dewhitens
 packets through a table of its output.
 */
module Whitening {
  import opened Bits
  import opened WhiteningTable
  import opened Channels

  /** Register positions 0 to 6. */
  type Lfsr = s: seq<bool> | |s| == 7 witness Zeros(7)

  /** Position 6 is the output; it is fed back into positions 0 and 4. */
  function Next(s: Lfsr): Lfsr { [s[6], s[0], s[1], s[2], s[3] != s[6], s[4], s[5]] }

  /** Position 0 is one, positions 1 to 6 are the channel index, most significant bit first. */
  function Seed(channel: nat): Lfsr {
    [true, Odd(channel / 32), Odd(channel / 16), Odd(channel / 8), Odd(channel / 4), Odd(channel / 2), Odd(channel)]
  }

  /** The nth bit that the register puts out. */
  function Output(s: Lfsr, n: nat): bool
    decreases n
  {
    if n == 0 then s[6] else Output(Next(s), n - 1)
  }

  /** n whitening bits of a channel, from bit `from` on. */
  function Stream(channel: nat, from: nat, n: nat): (bits: seq<bool>)
    ensures |bits| == n
    ensures forall i :: 0 <= i < n ==> bits[i] == Output(Seed(channel), from + i)
  {
    seq(n, i requires 0 <= i < n => Output(Seed(channel), from + i))
  }

  // ----- the table is the register

  /** The sequence obeys the recurrence of the register at k. */
  predicate ObeysAt(w: nat -> bool, k: nat) { w(k + 7) == (w(k) != w(k + 4)) }

  ghost predicate Obeys(w: nat -> bool) { forall k: nat :: ObeysAt(w, k) }

  /** The register whose next seven outputs are those of w from k on. */
  function StateOf(w: nat -> bool, k: nat): Lfsr {
    [w(k + 6) != w(k + 3), w(k + 5) != w(k + 2), w(k + 4) != w(k + 1), w(k + 3) != w(k), w(k + 2), w(k + 1), w(k)]
  }

  lemma StateMoves(w: nat -> bool, k: nat)
    requires ObeysAt(w, k)
    ensures Next(StateOf(w, k)) == StateOf(w, k + 1)
  {
    assert k + 1 + 6 == k + 7;
    assert k + 1 + 3 == k + 4;
  }

  lemma {:induction false} OutputIsSequence(w: nat -> bool, k: nat, n: nat)
    requires Obeys(w)
    ensures Output(StateOf(w, k), n) == w(k + n)
    decreases n
  {
    if n > 0 {
      StateMoves(w, k);
      OutputIsSequence(w, k + 1, n - 1);
    }
  }

  lemma TableObeys()
    ensures Obeys(Sequence)
  {
    forall k: nat
      ensures ObeysAt(Sequence, k)
    {
      Recurrence(k);
    }
  }

  lemma SeedIsState(w: nat -> bool, channel: nat, k: nat)
    requires channel < 64 && StartsAs(w, channel, k)
    ensures Seed(channel) == StateOf(w, k)
  {}

  lemma SeedOutput(w: nat -> bool, channel: nat, k: nat, n: nat)
    requires channel < 64 && StartsAs(w, channel, k) && Obeys(w)
    ensures Output(Seed(channel), n) == w(k + n)
  {
    SeedIsState(w, channel, k);
    OutputIsSequence(w, k, n);
  }

  /** For every channel and every position, the table entry the code looks up is the register's output. */
  lemma TableIsRegister(channel: nat, n: nat)
    requires channel < 40
    ensures Whitening((Start(channel) + n) % 127) == Output(Seed(channel), n)
  {
    Seeds(channel);
    TableObeys();
    SeedOutput(Sequence, channel, Start(channel), n);
    SequenceIsTable(Start(channel) + n);
  }

  // ----- whitening and dewhitening

  /** On air a byte goes most significant bit first into or out of the radio's buffer. */
  function WireBits(data: seq<u8>): (bits: seq<bool>)
    ensures |bits| == 8 * |data|
  {
    if data == [] then [] else Reverse(LowBits(data[0], 8)) + WireBits(data[1..])
  }

  function Byte(bits: seq<bool>): (b: u8)
    requires |bits| == 8
    ensures LowBits(b, 8) == bits
  {
    FromBitsInverse(bits);
    Pow2Values();
    FromBits(bits)
  }

  function Key(channel: nat, i: nat): (key: seq<bool>)
    ensures |key| == 8
  {
    Stream(channel, 8 * i, 8)
  }

  function DewhitenByte(b: u8, key: seq<bool>): u8
    requires |key| == 8
  {
    Byte(XorBits(Reverse(LowBits(b, 8)), key))
  }

  function WhitenByte(b: u8, key: seq<bool>): u8
    requires |key| == 8
  {
    Byte(Reverse(XorBits(LowBits(b, 8), key)))
  }

  function Dewhitened(data: seq<u8>, channel: nat): (r: seq<u8>)
    ensures |r| == |data|
    ensures forall i :: 0 <= i < |data| ==> r[i] == DewhitenByte(data[i], Key(channel, i))
  {
    seq(|data|, i requires 0 <= i < |data| => DewhitenByte(data[i], Key(channel, i)))
  }

  function Whitened(data: seq<u8>, channel: nat): (r: seq<u8>)
    ensures |r| == |data|
  {
    seq(|data|, i requires 0 <= i < |data| => WhitenByte(data[i], Key(channel, i)))
  }

  lemma ByteInjective(a: u8, b: u8)
    requires LowBits(a, 8) == LowBits(b, 8)
    ensures a == b
  {
    Pow2Values();
    LowBitsInjective(a, b, 8);
  }

  lemma DewhitenUndoesWhiten(b: u8, key: seq<bool>)
    requires |key| == 8
    ensures DewhitenByte(WhitenByte(b, key), key) == b
  {
    var x, w := LowBits(b, 8), WhitenByte(b, key);
    assert LowBits(w, 8) == Reverse(XorBits(x, key));
    assert LowBits(DewhitenByte(w, key), 8) == XorBits(Reverse(LowBits(w, 8)), key) == x;
    ByteInjective(DewhitenByte(w, key), b);
  }

  lemma WhitenUndoesDewhiten(b: u8, key: seq<bool>)
    requires |key| == 8
    ensures WhitenByte(DewhitenByte(b, key), key) == b
  {
    var x, d := LowBits(b, 8), DewhitenByte(b, key);
    assert LowBits(d, 8) == XorBits(Reverse(x), key);
    assert LowBits(WhitenByte(d, key), 8) == Reverse(XorBits(LowBits(d, 8), key)) == x;
    ByteInjective(WhitenByte(d, key), b);
  }

  /** Whitening and dewhitening on one channel undo each other. */
  lemma WhiteningRoundTrip(data: seq<u8>, channel: nat)
    ensures Dewhitened(Whitened(data, channel), channel) == data
    ensures Whitened(Dewhitened(data, channel), channel) == data
  {
    forall i | 0 <= i < |data|
      ensures Dewhitened(Whitened(data, channel), channel)[i] == data[i]
      ensures Whitened(Dewhitened(data, channel), channel)[i] == data[i]
    {
      DewhitenUndoesWhiten(data[i], Key(channel, i));
      WhitenUndoesDewhiten(data[i], Key(channel, i));
    }
  }

  lemma XorConcat(a: seq<bool>, b: seq<bool>, c: seq<bool>, d: seq<bool>)
    requires |a| == |b| && |c| == |d|
    ensures XorBits(a + c, b + d) == XorBits(a, b) + XorBits(c, d)
  {}

  /** Byte by byte, out is data as it comes in, exclusive or the keys from i on. */
  ghost predicate Keyed(data: seq<u8>, out: seq<u8>, channel: nat, i: nat) {
    |out| == |data| &&
    forall k :: 0 <= k < |data| ==>
      LowBits(out[k], 8) == XorBits(Reverse(LowBits(data[k], 8)), Key(channel, i + k))
  }

  lemma KeyedParts(data: seq<u8>, out: seq<u8>, channel: nat, i: nat)
    requires data != [] && Keyed(data, out, channel, i)
    ensures out != [] && LowBits(out[0], 8) == XorBits(Reverse(LowBits(data[0], 8)), Key(channel, i))
    ensures Keyed(data[1..], out[1..], channel, i + 1)
  {
    hide LowBits, Key;
    assert LowBits(out[0], 8) == XorBits(Reverse(LowBits(data[0], 8)), Key(channel, i + 0));
    forall k | 0 <= k < |data[1..]|
      ensures LowBits(out[1..][k], 8) == XorBits(Reverse(LowBits(data[1..][k], 8)), Key(channel, i + 1 + k))
    {
      var m := k + 1;
      assert out[1..][k] == out[m] && data[1..][k] == data[m] && i + 1 + k == i + m;
    }
  }

  lemma StreamParts(channel: nat, i: nat, n: nat)
    ensures Stream(channel, 8 * i, 8 * (n + 1)) == Key(channel, i) + Stream(channel, 8 * (i + 1), 8 * n)
  {
    hide Output, Seed;
  }

  lemma WireParts(data: seq<u8>, out: seq<u8>)
    requires data != [] && out != []
    ensures WireBits(data) == Reverse(LowBits(data[0], 8)) + WireBits(data[1..])
    ensures DataBits(out) == LowBits(out[0], 8) + DataBits(out[1..])
  {}

  lemma {:induction false} StreamOnWire(data: seq<u8>, out: seq<u8>, channel: nat, i: nat)
    requires Keyed(data, out, channel, i)
    ensures |out| == |data|
    ensures DataBits(out) == XorBits(WireBits(data), Stream(channel, 8 * i, 8 * |data|))
    decreases |data|
  {
    if data != [] {
      KeyedParts(data, out, channel, i);
      WireParts(data, out);
      hide *;
      StreamOnWire(data[1..], out[1..], channel, i + 1);
      var n := |data[1..]|;
      StreamParts(channel, i, n);
      XorConcat(Reverse(LowBits(data[0], 8)), Key(channel, i),
                WireBits(data[1..]), Stream(channel, 8 * (i + 1), 8 * n));
    }
  }

  /** The data bits of a dewhitened packet are the bits on air, exclusive or the register's output. */
  lemma DewhiteningIsStreamXor(data: seq<u8>, channel: nat)
    ensures DataBits(Dewhitened(data, channel)) == XorBits(WireBits(data), Stream(channel, 0, 8 * |data|))
  {
    var out := Dewhitened(data, channel);
    DewhitenedKeyed(data, channel);
    hide *;
    StreamOnWire(data, out, channel, 0);
    assert 8 * 0 == 0;
  }

  lemma DewhitenedKeyed(data: seq<u8>, channel: nat)
    ensures Keyed(data, Dewhitened(data, channel), channel, 0)
  {
    hide LowBits, Key, DewhitenByte;
    var out := Dewhitened(data, channel);
    forall k | 0 <= k < |data|
      ensures LowBits(out[k], 8) == XorBits(Reverse(LowBits(data[k], 8)), Key(channel, 0 + k))
    {
      DewhitenedBits(data[k], Key(channel, k));
    }
  }

  lemma DewhitenedBits(b: u8, key: seq<bool>)
    requires |key| == 8
    ensures LowBits(DewhitenByte(b, key), 8) == XorBits(Reverse(LowBits(b, 8)), key)
  {}

  // ----- the loops

  /** x holds the bits of target from lo up to hi, and zeros elsewhere. */
  ghost predicate Holds(x: nat, target: seq<bool>, lo: nat, hi: nat) {
    x < Pow2(|target|) &&
    forall k :: 0 <= k < |target| ==> LowBits(x, |target|)[k] == (lo <= k < hi && target[k])
  }

  lemma HoldsNothing(target: seq<bool>, k: nat)
    ensures Holds(0, target, k, k)
  {
    LowBitsZero(|target|);
  }

  lemma HoldsOneMore(x: nat, target: seq<bool>, lo: nat, hi: nat, i: nat, bit: nat)
    requires Holds(x, target, lo, hi) && lo <= hi <= |target|
    requires i < |target| && (i == hi || i + 1 == lo)
    requires bit == if target[i] then 1 else 0
    ensures Holds(Or(x, Shl(bit, i)), target, if i == hi then lo else i, if i == hi then hi + 1 else hi)
  {
    SetBit(x, |target|, i);
  }

  lemma HoldsAll(x: nat, target: seq<bool>)
    requires |target| == 8 && Holds(x, target, 0, 8)
    ensures x < 256 && x == Byte(target)
  {
    Pow2Values();
    assert LowBits(x, 8) == target;
    ByteInjective(x, Byte(target));
  }

  /** The index into the table for a bit of a packet. */
  function IndexAt(channel: nat, pos: nat): (idx: nat)
    requires channel < 40
    ensures idx < 127
  {
    (Start(channel) + pos) % 127
  }

  lemma NextIndex(channel: nat, pos: nat)
    requires channel < 40
    ensures (IndexAt(channel, pos) + 1) % 127 == IndexAt(channel, pos + 1)
  {
    var x := Start(channel) + pos;
    hide Start;
    Successor127(x, x / 127, x % 127);
  }

  lemma Successor127(x: nat, q: nat, r: nat)
    requires x == 127 * q + r && r < 127
    ensures (r + 1) % 127 == (x + 1) % 127
  {
    if r == 126 {
      assert x + 1 == 127 * (q + 1);
    } else {
      assert x + 1 == 127 * q + (r + 1);
    }
  }

  lemma FirstIndex(channel: nat)
    requires channel < 40
    ensures Start(channel) == IndexAt(channel, 0)
  {}

  /** The whitening bit that the loops look up for bit j of byte i. */
  lemma KeyLookup(channel: nat, i: nat, j: nat, idx: nat)
    requires channel < 40 && j < 8 && idx == IndexAt(channel, 8 * i + j)
    ensures |Key(channel, i)| == 8 && Whitening(idx) == Key(channel, i)[j]
    ensures (idx + 1) % 127 == IndexAt(channel, 8 * i + (j + 1))
  {
    TableIsRegister(channel, 8 * i + j);
    NextIndex(channel, 8 * i + j);
  }

  lemma DewhitenRound(b: u8, o: nat, key: seq<bool>, target: seq<bool>, j: nat, bit: nat)
    requires j < 8 && |key| == 8 && target == XorBits(Reverse(LowBits(b, 8)), key)
    requires Holds(o, target, 0, j)
    requires bit == Xor(Shr(b, 7 - j) % 2, if key[j] then 1 else 0)
    ensures Holds(Or(o, Shl(bit, j)), target, 0, j + 1)
  {
    BitAt(b, 8, 7 - j);
    XorBit(Shr(b, 7 - j) % 2, key[j]);
    ReversedFirst(LowBits(b, 8), key, j);
    hide *;
    HoldsOneMore(o, target, 0, j, j, bit);
  }

  lemma ReversedFirst(x: seq<bool>, key: seq<bool>, j: nat)
    requires |x| == |key| == 8 && j < 8
    ensures |XorBits(Reverse(x), key)| == 8 && XorBits(Reverse(x), key)[j] == (x[7 - j] != key[j])
  {}

  lemma ReversedLast(x: seq<bool>, key: seq<bool>, j: nat)
    requires |x| == |key| == 8 && j < 8
    ensures |Reverse(XorBits(x, key))| == 8 && Reverse(XorBits(x, key))[7 - j] == (x[j] != key[j])
    ensures x[j..][0] == x[j] && x[j..][1..] == x[j + 1..]
  {}

  lemma XorBit(x: nat, key: bool)
    requires x < 2
    ensures Xor(x, if key then 1 else 0) == if (x == 1) != key then 1 else 0
  {}

  lemma DewhitenTarget(b: u8, key: seq<bool>) returns (target: seq<bool>)
    requires |key| == 8
    ensures target == XorBits(Reverse(LowBits(b, 8)), key) && |target| == 8 && DewhitenByte(b, key) == Byte(target)
  {
    target := XorBits(Reverse(LowBits(b, 8)), key);
  }

  /** The inner loop of le_dewhiten and of dewhiten_length. */
  method DewhitenOneByte(b: u8, start: nat, ghost channel: nat, ghost i: nat) returns (out: u8, idx: nat)
    requires channel < 40 && start == IndexAt(channel, 8 * i)
    ensures out == DewhitenByte(b, Key(channel, i))
    ensures idx == IndexAt(channel, 8 * (i + 1))
  {
    hide *;
    idx := start;
    var o: nat := 0;
    ghost var key := Key(channel, i);
    ghost var target := DewhitenTarget(b, key);
    HoldsNothing(target, 0);
    for j := 0 to 8
      invariant idx == IndexAt(channel, 8 * i + j)
      invariant Holds(o, target, 0, j)
    {
      KeyLookup(channel, i, j, idx);
      var bit := Shr(b, 7 - j) % 2;
      bit := Xor(bit, if Whitening(idx) then 1 else 0);
      DewhitenRound(b, o, key, target, j, bit);
      o := Or(o, Shl(bit, j));
      idx := (idx + 1) % 127;
    }
    HoldsAll(o, target);
    out := o;
  }

  lemma DewhitenedPointwise(data: seq<u8>, out: seq<u8>, channel: nat)
    requires |out| == |data|
    requires forall k :: 0 <= k < |data| ==> out[k] == DewhitenByte(data[k], Key(channel, k))
    ensures out == Dewhitened(data, channel)
  {}

  /** le_dewhiten, in place. */
  method LeDewhiten(data: array<u8>, size: nat, channel: u16)
    requires size <= data.Length
    modifies data
    ensures data[..size] == Dewhitened(old(data[..size]), ChannelIndex(channel))
    ensures data[size..] == old(data[size..])
  {
    hide *;
    var c := ChannelIndex(channel);
    var idx := Start(c);
    FirstIndex(c);
    ghost var was := data[..];
    for i := 0 to size
      invariant idx == IndexAt(c, 8 * i)
      invariant forall k :: 0 <= k < i ==> data[k] == DewhitenByte(was[k], Key(c, k))
      invariant forall k :: i <= k < data.Length ==> data[k] == was[k]
    {
      var out;
      out, idx := DewhitenOneByte(data[i], idx, c, i);
      data[i] := out;
    }
    DewhitenedPointwise(was[..size], data[..size], c);
  }

  /** dewhiten_length: the length byte, which is the second byte on air, before the packet is complete. */
  method DewhitenLength(channel: u16, data: u8) returns (out: u8)
    ensures out == DewhitenByte(data, Key(ChannelIndex(channel), 1))
  {
    var idx := Start(ChannelIndex(channel));
    idx := (idx + 8) % 127;
    assert idx == IndexAt(ChannelIndex(channel), 8 * 1);
    hide *;
    out, idx := DewhitenOneByte(data, idx, ChannelIndex(channel), 1);
  }

  /** The length found early is the length found later: byte 1 of the dewhitened packet. */
  lemma LengthAgrees(data: seq<u8>, channel: nat)
    requires |data| >= 2
    ensures Dewhitened(data, channel)[1] == DewhitenByte(data[1], Key(channel, 1))
  {}

  lemma WhitenRound(b: u8, byte: nat, tx: nat, key: seq<bool>, target: seq<bool>, j: nat, bit: nat)
    requires j < 8 && |key| == 8 && target == Reverse(XorBits(LowBits(b, 8), key))
    requires LowBits(byte, 8 - j) == LowBits(b, 8)[j..]
    requires Holds(tx, target, 8 - j, 8)
    requires bit == Xor(byte % 2, if key[j] then 1 else 0)
    ensures LowBits(byte / 2, 8 - (j + 1)) == LowBits(b, 8)[j + 1..]
    ensures Holds(Or(tx, Shl(bit, 7 - j)), target, 8 - (j + 1), 8)
  {
    FirstBit(byte, 8 - j);
    XorBit(byte % 2, key[j]);
    ReversedLast(LowBits(b, 8), key, j);
    hide *;
    HoldsOneMore(tx, target, 8 - j, 8, 7 - j, bit);
  }

  lemma FirstBit(x: nat, n: nat)
    requires n > 0
    ensures LowBits(x, n)[0] == (x % 2 == 1) && LowBits(x / 2, n - 1) == LowBits(x, n)[1..]
  {}

  lemma WhitenTarget(b: u8, key: seq<bool>) returns (target: seq<bool>)
    requires |key| == 8
    ensures target == Reverse(XorBits(LowBits(b, 8), key)) && |target| == 8 && WhitenByte(b, key) == Byte(target)
    ensures LowBits(b, 8 - 0) == LowBits(b, 8)[0..]
  {
    target := Reverse(XorBits(LowBits(b, 8), key));
  }

  /** The inner loop of le_transmit. */
  method WhitenOneByte(b: u8, start: nat, ghost channel: nat, ghost i: nat) returns (out: u8, idx: nat)
    requires channel < 40 && start == IndexAt(channel, 8 * i)
    ensures out == WhitenByte(b, Key(channel, i))
    ensures idx == IndexAt(channel, 8 * (i + 1))
  {
    hide *;
    idx := start;
    var byte: nat, tx: nat := b, 0;
    ghost var key := Key(channel, i);
    ghost var target := WhitenTarget(b, key);
    HoldsNothing(target, 8);
    for j := 0 to 8
      invariant idx == IndexAt(channel, 8 * i + j)
      invariant LowBits(byte, 8 - j) == LowBits(b, 8)[j..]
      invariant Holds(tx, target, 8 - j, 8)
    {
      KeyLookup(channel, i, j, idx);
      var bit := Xor(byte % 2, if Whitening(idx) then 1 else 0);
      WhitenRound(b, byte, tx, key, target, j, bit);
      idx := (idx + 1) % 127;
      byte := byte / 2;
      tx := Or(tx, Shl(bit, 7 - j));
    }
    HoldsAll(tx, target);
    out := tx;
  }

  lemma WhitenedPointwise(data: seq<u8>, out: seq<u8>, channel: nat)
    requires |out| == |data|
    requires forall k :: 0 <= k < |data| ==> out[k] == WhitenByte(data[k], Key(channel, k))
    ensures out == Whitened(data, channel)
  {}

  /** The whitening loop of le_transmit. */
  method WhitenForTransmit(data: array<u8>, len: nat, channel: u16) returns (txbuf: array<u8>)
    requires len <= data.Length && len <= 255
    ensures fresh(txbuf) && txbuf.Length == 255
    ensures txbuf[..len] == Whitened(data[..len], ChannelIndex(channel))
  {
    hide *;
    txbuf := new u8[255];
    var c := ChannelIndex(channel);
    var idx := Start(c);
    FirstIndex(c);
    for i := 0 to len
      invariant idx == IndexAt(c, 8 * i)
      invariant forall k :: 0 <= k < i ==> txbuf[k] == WhitenByte(data[k], Key(c, k))
    {
      var tx;
      tx, idx := WhitenOneByte(data[i], idx, c, i);
      txbuf[i] := tx;
    }
    WhitenedPointwise(data[..len], txbuf[..len], c);
  }
}
