/**
 Bluetooth LE channels: index to frequency and back, the channel map of a
 connection, and hopping (Core Specification, Vol 6, Part B, section 4.5.8.2).
 */
module Channels {
  import opened Bits

  // ----- channel index and physical frequency in MHz

  /** The quotient (channel - 2402) / 2, taken in int towards zero and stored in 16 bits. */
  function Offset(channel: u16): u16 {
    if channel >= 2402 then (channel - 2402) / 2 else (U16 - (2402 - channel) / 2) % U16
  }

  /** btle_channel_index */
  function ChannelIndex(channel: u16): (idx: nat)
    ensures idx < 40
  {
    var c := Offset(channel);
    if c == 0 then 37
    else if c < 12 then c - 1
    else if c == 12 then 38
    else if c < 39 then c - 2
    else 39
  }

  /** btle_channel_index_to_phys */
  function IndexToPhys(idx: u8): (phys: u16)
    ensures 2402 <= phys <= 2480
  {
    if idx < 11 then 2404 + 2 * idx
    else if idx < 37 then 2428 + 2 * (idx - 11)
    else if idx == 37 then 2402
    else if idx == 38 then 2426
    else 2480
  }

  predicate IsLeChannel(channel: u16) { 2402 <= channel <= 2480 && channel % 2 == 0 }

  /** The two maps are inverse to each other on the 40 channels. */
  lemma IndexRoundTrip(idx: u8, channel: u16)
    ensures idx < 40 ==> IsLeChannel(IndexToPhys(idx)) && ChannelIndex(IndexToPhys(idx)) == idx
    ensures IsLeChannel(channel) ==> IndexToPhys(ChannelIndex(channel)) == channel
  {}

  /**
   The channel plan: 37, 38 and 39 are the three advertising channels, and the data channels fill the rest of the band
   in increasing order.
   */
  lemma ChannelPlan(i: u8, j: u8)
    ensures IndexToPhys(37) == 2402 && IndexToPhys(38) == 2426 && IndexToPhys(39) == 2480
    ensures i < 37 ==> IndexToPhys(i) !in {2402, 2426, 2480}
    ensures i < j < 37 ==> IndexToPhys(i) < IndexToPhys(j)
  {}

  // ----- channel maps

  /** le_channel_remapping_t */
  datatype Remapping = Remapping(channelInUse: seq<bool>, remappingIndex: seq<nat>, totalChannels: nat)

  /** The 37 bits of a five-byte channel map. */
  function MapBits(channelMap: seq<u8>): (bits: seq<bool>)
    requires |channelMap| == 5
    ensures |bits| == 37
  {
    DataBits(channelMap)[..37]
  }

  /** The set positions below n, in increasing order. */
  function UsedBelow(bits: seq<bool>, n: nat): (used: seq<nat>)
    requires n <= |bits|
    ensures |used| <= n
    ensures forall i :: 0 <= i < |used| ==> used[i] < n && bits[used[i]]
    ensures forall i, j :: 0 <= i < j < |used| ==> used[i] < used[j]
    ensures forall c :: 0 <= c < n && bits[c] ==> c in used
  {
    if n == 0 then []
    else if bits[n - 1] then UsedBelow(bits, n - 1) + [n - 1]
    else UsedBelow(bits, n - 1)
  }

  /** What le_parse_channel_map stores, the fields it has not reached being zero. */
  ghost predicate ParsedBelow(r: Remapping, bits: seq<bool>, n: nat)
    requires |bits| == 37 && n <= 37
  {
    var used := UsedBelow(bits, n);
    && r.channelInUse == bits[..n] + Zeros(37 - n)
    && r.remappingIndex == used + seq(37 - |used|, _ => 0)
    && r.totalChannels == |used|
  }

  /** The remapping of a channel map: which channels are in use, and their list. */
  function Remap(channelMap: seq<u8>): (r: Remapping)
    requires |channelMap| == 5
    ensures ParsedBelow(r, MapBits(channelMap), 37)
  {
    var bits := MapBits(channelMap);
    var used := UsedBelow(bits, 37);
    Remapping(bits, used + seq(37 - |used|, _ => 0), |used|)
  }

  lemma MapBit(channelMap: seq<u8>, i: nat, j: nat)
    requires |channelMap| == 5 && i < 5 && j < 8 && 8 * i + j < 37
    ensures MapBits(channelMap)[8 * i + j] == LowBits(channelMap[i], 8)[j]
  {
    DataBitsConcat(channelMap[..i], channelMap[i..]);
    assert channelMap == channelMap[..i] + channelMap[i..];
    assert DataBits(channelMap[i..])[j] == LowBits(channelMap[i..][0], 8)[j];
  }

  /** Looking at one more bit of the map. */
  lemma ParseOneMore(r: Remapping, bits: seq<bool>, n: nat)
    requires |bits| == 37 && n < 37 && ParsedBelow(r, bits, n)
    ensures |r.channelInUse| == |r.remappingIndex| == 37 && r.totalChannels < 37
    ensures var s := if bits[n]
        then Remapping(r.channelInUse[n := true], r.remappingIndex[r.totalChannels := n], r.totalChannels + 1)
        else r.(channelInUse := r.channelInUse[n := false]);
      ParsedBelow(s, bits, n + 1)
  {
    assert bits[..n + 1] == bits[..n] + [bits[n]];
    var used, more := UsedBelow(bits, n), UsedBelow(bits, n + 1);
    assert more == if bits[n] then used + [n] else used;
    hide UsedBelow;
    assert bits[..n] + Zeros(37 - n) == (bits[..n] + [false]) + Zeros(37 - (n + 1));
    assert bits[n] ==> (bits[..n] + Zeros(37 - n))[n := true] == bits[..n + 1] + Zeros(37 - (n + 1));
    assert bits[n] ==> (used + seq(37 - |used|, _ => 0))[|used| := n] == more + seq(37 - |more|, _ => 0);
  }

  /** rest is the byte without its j lowest bits. */
  predicate Unread(byte: u8, rest: nat, j: nat)
    requires j <= 8
  {
    LowBits(rest, 8 - j) == LowBits(byte, 8)[j..]
  }

  lemma WholeByte(byte: u8)
    ensures Unread(byte, byte, 0)
  {}

  lemma BitToParse(channelMap: seq<u8>, rest: nat, i: nat, j: nat)
    requires |channelMap| == 5 && i < 5 && j < 8 && 8 * i + j < 37 && Unread(channelMap[i], rest, j)
    ensures Odd(rest) == MapBits(channelMap)[8 * i + j] && Unread(channelMap[i], rest / 2, j + 1)
  {
    MapBit(channelMap, i, j);
    FirstBit(rest, 8 - j);
    hide LowBits, MapBits;
  }

  lemma FirstBit(x: nat, n: nat)
    requires n > 0
    ensures Odd(x) == LowBits(x, n)[0] && LowBits(x / 2, n - 1) == LowBits(x, n)[1..]
  {}

  /** le_parse_channel_map */
  method ParseChannelMap(channelMap: array<u8>) returns (remapping: Remapping)
    requires channelMap.Length == 5
    ensures remapping == Remap(channelMap[..])
  {
    ghost var bits := MapBits(channelMap[..]);
    var inUse, index, total := Zeros(37), seq(37, _ => 0), 0;
    var idx := 0;
    NothingParsed(Remapping(inUse, index, total), bits);
    hide LowBits, ParsedBelow, MapBits, UsedBelow, Unread, Odd;
    for i := 0 to 5
      invariant idx == if i < 5 then 8 * i else 37
      invariant ParsedBelow(Remapping(inUse, index, total), bits, idx)
    {
      var byte: nat := channelMap[i];
      var j := 0;
      WholeByte(channelMap[i]);
      while j < 8
        invariant j <= 8 && idx == 8 * i + j < 37
        invariant Unread(channelMap[i], byte, j)
        invariant ParsedBelow(Remapping(inUse, index, total), bits, idx)
        decreases 8 - j
      {
        BitToParse(channelMap[..], byte, i, j);
        ParseOneMore(Remapping(inUse, index, total), bits, idx);
        if Odd(byte) {
          inUse := inUse[idx := true];
          index := index[total := idx];
          total := total + 1;
        } else {
          inUse := inUse[idx := false];
        }
        byte := byte / 2;
        idx := idx + 1;
        j := j + 1;
        if idx == 37 {
          break;
        }
      }
    }
    remapping := Remapping(inUse, index, total);
    AllParsed(remapping, channelMap[..]);
  }

  lemma NothingParsed(r: Remapping, bits: seq<bool>)
    requires |bits| == 37 && r == Remapping(Zeros(37), seq(37, _ => 0), 0)
    ensures ParsedBelow(r, bits, 0)
  {
    assert Zeros(37) == bits[..0] + Zeros(37);
  }

  lemma AllParsed(r: Remapping, channelMap: seq<u8>)
    requires |channelMap| == 5 && ParsedBelow(r, MapBits(channelMap), 37)
    ensures r == Remap(channelMap)
  {
    var bits := MapBits(channelMap);
    hide MapBits, UsedBelow;
    assert bits[..37] + Zeros(0) == bits;
  }

  /**
   le_map_channel. Of an empty map the list is all zeros, so whatever index the division by zero yields, what is
   read is 0.
   */
  function MapChannel(idx: nat, r: Remapping): (used: nat)
    requires idx < 37 && |r.channelInUse| == |r.remappingIndex| == 37 && r.totalChannels <= 37
  {
    if r.channelInUse[idx] then idx
    else if r.totalChannels == 0 then r.remappingIndex[0]
    else r.remappingIndex[idx % r.totalChannels]
  }

  /** A mapped channel is in use whenever any is, and a channel in use is mapped to itself. */
  lemma MappedIsUsed(channelMap: seq<u8>, idx: nat)
    requires |channelMap| == 5 && idx < 37
    ensures var bits, c := MapBits(channelMap), MapChannel(idx, Remap(channelMap));
      c < 37 && ((exists u :: 0 <= u < 37 && bits[u]) ==> bits[c]) && (bits[idx] ==> c == idx)
  {
    var bits, r := MapBits(channelMap), Remap(channelMap);
    assert bits[..37] == bits;
    if !bits[idx] && r.totalChannels > 0 {
      assert r.remappingIndex[idx % r.totalChannels] == UsedBelow(bits, 37)[idx % r.totalChannels];
    }
  }

  /** The channels below n that are in use. */
  function InUseBelow(bits: seq<bool>, n: nat): set<nat>
    requires n <= |bits|
  {
    set c: nat | c < n && bits[c]
  }

  lemma InUseStep(bits: seq<bool>, n: nat)
    requires 0 < n <= |bits|
    ensures |InUseBelow(bits, n)| == |InUseBelow(bits, n - 1)| + if bits[n - 1] then 1 else 0
  {
    var before := InUseBelow(bits, n - 1);
    assert InUseBelow(bits, n) == if bits[n - 1] then before + {n - 1} else before;
  }

  /** The list of a map has one entry for each channel in use. */
  lemma {:induction false} ListedOnce(bits: seq<bool>, n: nat)
    requires n <= |bits|
    ensures |UsedBelow(bits, n)| == |InUseBelow(bits, n)|
  {
    if n == 0 {
      assert InUseBelow(bits, 0) == {};
    } else {
      ListedOnce(bits, n - 1);
      InUseStep(bits, n);
    }
    hide InUseBelow;
  }

  /** Entry i of the list has i channels in use below it. */
  lemma {:induction false} ListedByRank(bits: seq<bool>, n: nat, i: nat)
    requires n <= |bits| && i < |UsedBelow(bits, n)|
    ensures |InUseBelow(bits, UsedBelow(bits, n)[i])| == i
    decreases n
  {
    hide InUseBelow;
    if i < |UsedBelow(bits, n - 1)| {
      ListedByRank(bits, n - 1, i);
    } else {
      ListedOnce(bits, n - 1);
    }
  }

  /** Two channels in use have different numbers of channels in use below them. */
  lemma RankIsUnique(bits: seq<bool>, c: nat, d: nat)
    requires c < |bits| && d < |bits| && bits[c] && bits[d]
    requires |InUseBelow(bits, c)| == |InUseBelow(bits, d)|
    ensures c == d
  {
    if c < d {
      RankGrows(bits, c, d);
    } else if d < c {
      RankGrows(bits, d, c);
    }
  }

  lemma {:induction false} RankGrows(bits: seq<bool>, c: nat, d: nat)
    requires c < d <= |bits| && bits[c]
    ensures |InUseBelow(bits, c)| < |InUseBelow(bits, d)|
    decreases d
  {
    InUseStep(bits, d);
    if c < d - 1 {
      RankGrows(bits, c, d - 1);
    }
    hide InUseBelow;
  }

  /**
   The rule of the standard (Core Specification, Vol 6, Part B, section 4.5.8.2): a channel in use is kept, and any
   other goes to the one channel in use that has exactly idx mod n channels in use below it, when n channels are in
   use. Of an empty map it is channel 0.
   */
  lemma MappedByRank(channelMap: seq<u8>, idx: nat)
    requires |channelMap| == 5 && idx < 37
    ensures
      var bits, c := MapBits(channelMap), MapChannel(idx, Remap(channelMap));
      var n := |InUseBelow(bits, 37)|;
      && (bits[idx] ==> c == idx)
      && (!bits[idx] && n > 0 ==>
            c < 37 && bits[c] && |InUseBelow(bits, c)| == idx % n
            && forall d :: 0 <= d < 37 && bits[d] && |InUseBelow(bits, d)| == idx % n ==> d == c)
      && (n == 0 ==> c == 0)
  {
    var bits, r := MapBits(channelMap), Remap(channelMap);
    var n, c := |InUseBelow(bits, 37)|, MapChannel(idx, r);
    MappedIsUsed(channelMap, idx);
    ListedOnce(bits, 37);
    assert bits[..37] == bits;
    hide InUseBelow, UsedBelow, MapBits;
    if !bits[idx] && n > 0 {
      var k := idx % n;
      ListedByRank(bits, 37, k);
      assert r.remappingIndex[k] == UsedBelow(bits, 37)[k];
      forall d | 0 <= d < 37 && bits[d] && |InUseBelow(bits, d)| == k ensures d == c {
        RankIsUnique(bits, c, d);
      }
    }
  }

  // ----- hopping

  /** The unmapped channel index after n hops from start. */
  function HopIndex(start: nat, increment: nat, n: nat): (idx: nat)
    ensures idx < 37
  {
    (start + n * increment) % 37
  }

  /** Each hop adds the increment, modulo 37. */
  lemma OneHop(start: nat, increment: nat, n: nat)
    ensures HopIndex(start, increment, 0) == start % 37
    ensures HopIndex(start, increment, n + 1) == (HopIndex(start, increment, n) + increment) % 37
  {
    Distribute(n, 1, increment);
  }

  const INVERSES_0: seq<nat> := [0, 1, 19, 25, 28, 15, 31, 16, 14, 33, 26, 27, 34, 20, 8, 5]
  const INVERSES_1: seq<nat> := [7, 24, 35, 2, 13, 30, 32, 29, 17, 3, 10, 11, 4, 23, 21, 6]
  const INVERSES_2: seq<nat> := [22, 9, 12, 18, 36]

  /** hop_interval_lut */
  function HopIntervalLut(k: nat): nat
    requires k < 37
  {
    if k < 16 then INVERSES_0[k] else if k < 32 then INVERSES_1[k - 16] else INVERSES_2[k - 32]
  }

  predicate Inverses(a: nat, b: nat) { 0 < b < 37 && (a * b) % 37 == 1 }

  lemma LowInverses(k: nat)
    requires 0 < k < 16
    ensures Inverses(k, INVERSES_0[k])
  {
    if k == 1 {} else if k == 2 {} else if k == 3 {} else if k == 4 {} else if k == 5 {} else if k == 6 {}
    else if k == 7 {} else if k == 8 {} else if k == 9 {} else if k == 10 {} else if k == 11 {} else if k == 12 {}
    else if k == 13 {} else if k == 14 {} else {}
  }

  lemma MiddleInverses(k: nat)
    requires k < 16
    ensures Inverses(16 + k, INVERSES_1[k])
  {
    if k == 0 {} else if k == 1 {} else if k == 2 {} else if k == 3 {} else if k == 4 {} else if k == 5 {}
    else if k == 6 {}
    else if k == 7 {} else if k == 8 {} else if k == 9 {} else if k == 10 {} else if k == 11 {} else if k == 12 {}
    else if k == 13 {} else if k == 14 {} else {}
  }

  lemma HighInverses(k: nat)
    requires k < 5
    ensures Inverses(32 + k, INVERSES_2[k])
  {
    if k == 0 {} else if k == 1 {} else if k == 2 {} else if k == 3 {} else {}
  }

  /** hop_interval_lut is inversion modulo 37. */
  lemma LutInverts(k: nat)
    requires 0 < k < 37
    ensures Inverses(k, HopIntervalLut(k))
  {
    if k < 16 {
      LowInverses(k);
    } else if k < 32 {
      MiddleInverses(k - 16);
    } else {
      HighInverses(k - 32);
    }
  }

  lemma Regroup(b: int, k: int, x: int, m: int)
    requires k * b == 37 * m + 1
    ensures b * (k * x) == 37 * (m * x) + x
  {
    calc {
      b * (k * x);
      (k * b) * x;
      (37 * m + 1) * x;
      37 * (m * x) + x;
    }
  }

  /** Modulo 37, multiplication by k is undone by multiplication with its inverse. */
  lemma CancelInverse(b: nat, k: nat, x: int)
    requires (k * b) % 37 == 1
    ensures (b * (k * x)) % 37 == x % 37
  {
    var m := (k * b) / 37;
    Regroup(b, k, x, m);
  }

  lemma MultipleOf37(b: int, y: int, q: int)
    requires y == 37 * q
    ensures (b * y) % 37 == 0
  {
    assert b * y == 37 * (b * q);
  }

  lemma Distribute(x: int, y: int, z: int)
    ensures x * z + y * z == (x + y) * z && z * x == x * z
  {}

  /** If k * d is a multiple of 37 and k has an inverse, then d is a multiple of 37. */
  lemma NoZeroDivisor(b: nat, k: nat, d: nat)
    requires Inverses(k, b) && (k * d) % 37 == 0
    ensures d % 37 == 0
  {
    CancelInverse(b, k, d);
    MultipleOf37(b, k * d, (k * d) / 37);
  }

  lemma NoChange(x: int, y: int)
    requires (x + y) % 37 == x % 37
    ensures y % 37 == 0
  {}

  lemma Commute(x: int, y: int)
    ensures x * y == y * x
  {}

  lemma ReduceFactor(k: int, p: int)
    ensures (k * p) % 37 == (p % 37 * k) % 37
  {
    var q, n := p / 37, p % 37;
    assert k * (37 * q + n) == 37 * (k * q) + n * k;
  }

  lemma SameModPlus(s: int, x: int, y: int)
    requires x % 37 == y % 37
    ensures (s + x) % 37 == (s + y) % 37
  {}

  /** Only the increment modulo 37 matters. */
  lemma ReducedIncrement(start: nat, increment: nat, n: nat)
    ensures HopIndex(start, increment, n) == HopIndex(start, increment % 37, n)
  {
    ReduceFactor(n, increment);
    Commute(n, increment);
    Commute(n, increment % 37);
    SameModPlus(start, n * increment, n * (increment % 37));
  }

  lemma ReducedHopsDistinct(start: nat, increment: nat, i: nat, j: nat)
    requires 0 < increment < 37 && i < j < i + 37
    ensures HopIndex(start, increment, i) != HopIndex(start, increment, j)
  {
    hide HopIntervalLut, Inverses;
    var d := j - i;
    Distribute(i, d, increment);
    assert start + j * increment == (start + i * increment) + increment * d;
    if HopIndex(start, increment, i) == HopIndex(start, increment, j) {
      NoChange(start + i * increment, increment * d);
      LutInverts(increment);
      NoZeroDivisor(HopIntervalLut(increment), increment, d);
      assert false;
    }
  }

  /** Any 37 consecutive hops land on different indices. */
  lemma HopsDistinct(start: nat, increment: nat, i: nat, j: nat)
    requires increment % 37 != 0 && i < j < i + 37
    ensures HopIndex(start, increment, i) != HopIndex(start, increment, j)
  {
    ReducedIncrement(start, increment, i);
    ReducedIncrement(start, increment, j);
    ReducedHopsDistinct(start, increment % 37, i, j);
  }

  /** Every index is reached within 37 hops. */
  lemma HopReaches(start: nat, increment: nat, idx: nat) returns (n: nat)
    requires 0 < increment < 37 && start < 37 && idx < 37
    ensures n < 37 && HopIndex(start, increment, n) == idx
  {
    hide HopIntervalLut, Inverses;
    var x := idx + 37 - start;
    LutInverts(increment);
    n := ReachByInverse(HopIntervalLut(increment), increment, x);
    LandsOn(start, n * increment, idx);
  }

  lemma LandsOn(start: nat, hops: nat, idx: nat)
    requires start < 37 && idx < 37 && hops % 37 == (idx + 37 - start) % 37
    ensures (start + hops) % 37 == idx
  {
    var y := idx + 37 - start;
    SameModPlus(start, hops, y);
    assert start + y == idx + 37;
    OneRound(idx);
  }

  lemma OneRound(idx: nat)
    requires idx < 37
    ensures (idx + 37) % 37 == idx
  {}

  lemma ReachByInverse(b: nat, k: nat, x: nat) returns (n: nat)
    requires Inverses(k, b)
    ensures n < 37 && (n * k) % 37 == x % 37
  {
    n := (b * x) % 37;
    Commute(b, k);
    CancelInverse(k, b, x);
    ReduceFactor(k, b * x);
  }

  /**
   Channel coverage: within any 37 consecutive hops, counted from hop `from`,
   every used channel is tuned to, on its own frequency.
   */
  lemma CoversUsedChannels(channelMap: seq<u8>, start: nat, increment: nat, from: nat, used: nat)
    returns (n: nat)
    requires |channelMap| == 5 && increment % 37 != 0 && used < 37 && MapBits(channelMap)[used]
    ensures from <= n < from + 37
    ensures MapChannel(HopIndex(start, increment, n), Remap(channelMap)) == used
    ensures forall other: u8 :: other < 40 && IndexToPhys(other) == IndexToPhys(used) ==> other == used
  {
    MappedIsUsed(channelMap, used);
    hide MapChannel, Remap, MapBits, HopIndex;
    var i := increment % 37;
    var m := HopReaches(HopIndex(start, i, from), i, used);
    n := from + m;
    HopsAdd(start, i, from, m);
    ReducedIncrement(start, increment, n);
  }

  lemma HopsAdd(start: nat, increment: nat, m: nat, n: nat)
    ensures HopIndex(HopIndex(start, increment, m), increment, n) == HopIndex(start, increment, m + n)
  {
    Distribute(m, n, increment);
  }

  /** The part of le_state_t that hopping changes. */
  class LeHop {
    var channelIdx: u8
    var channelIncrement: u8

    /** btle_next_hop: the frequency of this hop; the state moves on to the next one. */
    method NextHop() returns (phys: u16)
      modifies `channelIdx
      ensures phys == IndexToPhys(old(channelIdx))
      ensures channelIdx == (old(channelIdx) + channelIncrement) % 37
    {
      phys := IndexToPhys(channelIdx);
      channelIdx := (channelIdx + channelIncrement) % 37;
    }
  }
}
