/**
 Promiscuous mode: recovering the CRC initial value, the hop interval and the hop
 increment of a connection from its packets alone.
 */
module Promiscuous {
  import opened Bits
  import opened CrcWord
  import opened CrcLaws
  import opened Channels

  /** 1.25 ms in units of 100 ns. */
  const LE_BASECLK: nat := 12500

  /** CLK100NS counts up to this and starts again at 0. */
  const CLOCK_PERIOD: nat := 3276800000

  /** DIVIDE_ROUND in 32-bit unsigned arithmetic. */
  function DivideRound(n: u32, d: nat): nat
    requires d > 0
  {
    (n + d / 2) % U32 / d
  }

  function Sub32(a: u32, b: u32): u32 { (a + U32 - b) % U32 }

  /** Which function the next packet goes to. */
  datatype Callback = Follow | HopInterval | HopIncrement | ConnectionFollow

  // ----- the hop interval

  /** The state that promisc_recover_hop_interval reads and writes. */
  datatype Interval = Interval(prevClk: u32, smallest: u32, connInterval: u16, consec: int, done: bool)

  /** The time since the last kept packet, by the code's own rollover constant. */
  function ClkDiff(s: Interval, clk: u32): u32 {
    Sub32(if clk < s.prevClk then (clk + 3267800000) % U32 else clk, s.prevClk)
  }

  predicate Kept(s: Interval, clk: u32) { ClkDiff(s, clk) >= 2 * LE_BASECLK }

  function Observed(smallest: u32): u16 { DivideRound(smallest, 37 * LE_BASECLK) % U16 }

  /** promisc_recover_hop_interval at time clk. */
  function IntervalStep(s: Interval, clk: u32): Interval {
    var cur := if clk < s.prevClk then (clk + 3267800000) % U32 else clk;
    var diff := ClkDiff(s, clk);
    if diff < 2 * LE_BASECLK then s
    else
      var smallest := if diff < s.smallest then diff else s.smallest;
      var observed := Observed(smallest);
      if s.connInterval == observed then Interval(cur, smallest, observed, s.consec + 1, s.done || s.consec + 1 == 5)
      else Interval(cur, smallest, observed, 0, s.done)
  }

  /** The smallest delta is within half of 37 base intervals of 37 intervals of length `interval`. */
  predicate Near(smallest: u32, interval: nat) {
    37 * LE_BASECLK * interval - 37 * LE_BASECLK / 2 <= smallest < 37 * LE_BASECLK * interval + 37 * LE_BASECLK / 2
  }

  /** Rounding recovers an interval exactly from the deltas near 37 times it. */
  lemma ObservedExact(smallest: u32, interval: nat)
    requires 6 <= interval <= 3200
    ensures Observed(smallest) == interval <==> Near(smallest, interval)
  {}

  /** The states after each packet of a run. */
  function IntervalRun(s: Interval, clks: seq<u32>): Interval
    decreases |clks|
  {
    if clks == [] then s else IntervalRun(IntervalStep(s, clks[0]), clks[1..])
  }

  /** How many packets of a run are kept. */
  function KeptCount(s: Interval, clks: seq<u32>): (n: nat)
    ensures n <= |clks|
    decreases |clks|
  {
    if clks == [] then 0
    else (if Kept(s, clks[0]) then 1 else 0) + KeptCount(IntervalStep(s, clks[0]), clks[1..])
  }

  /** After each kept packet the smallest delta so far is near. */
  ghost predicate AllNear(s: Interval, clks: seq<u32>, interval: nat)
    decreases |clks|
  {
    clks == [] || ((Kept(s, clks[0]) ==> Near(IntervalStep(s, clks[0]).smallest, interval))
                   && AllNear(IntervalStep(s, clks[0]), clks[1..], interval))
  }

  /** After each kept packet the interval observed is this one. */
  ghost predicate AllObserve(s: Interval, clks: seq<u32>, observed: u16)
    decreases |clks|
  {
    clks == [] || ((Kept(s, clks[0]) ==> Observed(IntervalStep(s, clks[0]).smallest) == observed)
                   && AllObserve(IntervalStep(s, clks[0]), clks[1..], observed))
  }

  lemma {:induction false} NearObserve(s: Interval, clks: seq<u32>, interval: nat)
    requires 6 <= interval <= 3200 && AllNear(s, clks, interval)
    ensures AllObserve(s, clks, interval)
    decreases |clks|
  {
    if clks != [] {
      ObservedExact(IntervalStep(s, clks[0]).smallest, interval);
      NearObserve(IntervalStep(s, clks[0]), clks[1..], interval);
      hide Observed, ClkDiff, Near;
    }
  }

  lemma {:induction false} SettledRun(s: Interval, clks: seq<u32>, observed: u16)
    requires AllObserve(s, clks, observed) && s.connInterval == observed
    ensures
      var t, n := IntervalRun(s, clks), KeptCount(s, clks);
      && t.connInterval == observed && t.consec == s.consec + n
      && (t.done <==> s.done || s.consec < 5 <= s.consec + n)
    decreases |clks|
  {
    if clks != [] {
      SettledRun(IntervalStep(s, clks[0]), clks[1..], observed);
      hide Observed, ClkDiff;
    }
  }

  /** The count of agreements that a first kept packet adds to. */
  function CountFrom(s: Interval, observed: u16): int {
    if s.connInterval == observed then s.consec else -1
  }

  /** With the same interval observed throughout, the phase ends with the packet that makes the agreements 5. */
  lemma {:induction false} Agreeing(s: Interval, clks: seq<u32>, observed: u16)
    requires KeptCount(s, clks) >= 1 && AllObserve(s, clks, observed)
    ensures
      var t, base, n := IntervalRun(s, clks), CountFrom(s, observed), KeptCount(s, clks);
      && t.connInterval == observed && t.consec == base + n
      && (t.done <==> s.done || base < 5 <= base + n)
    decreases |clks|
  {
    var n := IntervalStep(s, clks[0]);
    if Kept(s, clks[0]) {
      SettledRun(n, clks[1..], observed);
    } else {
      Agreeing(n, clks[1..], observed);
    }
    hide Observed, ClkDiff;
  }

  /**
   From the first kept packet on the interval is right. The phase ends with the packet that makes the count of
   agreements 5: from a reset count that is the fifth kept packet if the right interval was stored already, and the
   sixth if not.
   */
  lemma IntervalRecovered(s: Interval, clks: seq<u32>, interval: nat)
    requires 6 <= interval <= 3200 && KeptCount(s, clks) >= 1 && AllNear(s, clks, interval)
    ensures
      var t, base, n := IntervalRun(s, clks), CountFrom(s, interval), KeptCount(s, clks);
      && t.connInterval == interval && t.consec == base + n
      && (t.done <==> s.done || base < 5 <= base + n)
  {
    NearObserve(s, clks, interval);
    Agreeing(s, clks, interval);
    hide AllNear, IntervalRun, KeptCount, AllObserve;
  }

  // ----- an interval of 0

  /** The distances for which the interval observed is 0: below half of 37 units, or so large that the sum wraps. */
  predicate RoundsToZero(smallest: u32) {
    smallest < 37 * LE_BASECLK / 2 || smallest >= U32 - 37 * LE_BASECLK / 2
  }

  lemma ObservedZero(smallest: u32)
    ensures Observed(smallest) == 0 <==> RoundsToZero(smallest)
  {}

  /** After at least one kept packet the interval stored is the one that the smallest distance so far rounds to. */
  lemma {:induction false} StoredIsObserved(s: Interval, clks: seq<u32>)
    requires KeptCount(s, clks) >= 1 || s.connInterval == Observed(s.smallest)
    ensures IntervalRun(s, clks).connInterval == Observed(IntervalRun(s, clks).smallest)
    decreases |clks|
  {
    if clks != [] {
      StoredIsObserved(IntervalStep(s, clks[0]), clks[1..]);
      hide Observed, ClkDiff;
    }
  }

  /** So a run leaves an interval of 0 exactly when its smallest distance rounds to 0. */
  lemma ZeroExactly(s: Interval, clks: seq<u32>)
    requires KeptCount(s, clks) >= 1
    ensures IntervalRun(s, clks).connInterval == 0 <==> RoundsToZero(IntervalRun(s, clks).smallest)
  {
    StoredIsObserved(s, clks);
    ObservedZero(IntervalRun(s, clks).smallest);
    hide Observed, RoundsToZero, IntervalRun, KeptCount;
  }

  lemma {:induction false} CloseStays(s: Interval, clks: seq<u32>)
    requires s.smallest < 37 * LE_BASECLK / 2
    ensures AllObserve(s, clks, 0)
    decreases |clks|
  {
    if clks != [] {
      var n := IntervalStep(s, clks[0]);
      ObservedZero(n.smallest);
      CloseStays(n, clks[1..]);
      hide Observed, ClkDiff;
    }
  }

  /**
   From a reset state, two packets on different visits that are less than half of 37 units apart: the interval is 0
   from then on, and the fifth kept packet ends the phase with it.
   */
  lemma PhaseEndsWithZero(s: Interval, clk: u32, clks: seq<u32>)
    requires s.connInterval == 0 && s.consec == 0 && !s.done
    requires 2 * LE_BASECLK <= ClkDiff(s, clk) < 37 * LE_BASECLK / 2
    ensures
      var t := IntervalRun(s, [clk] + clks);
      t.connInterval == 0 && (t.done <==> 1 + KeptCount(IntervalStep(s, clk), clks) >= 5)
  {
    var n, all := IntervalStep(s, clk), [clk] + clks;
    assert all[0] == clk && all[1..] == clks;
    ObservedZero(n.smallest);
    CloseStays(n, clks);
    hide Observed;
    Agreeing(s, all, 0);
  }

  /** A distance that is too small is never forgotten: no later packet makes the interval right again. */
  lemma {:induction false} SpoiledForever(s: Interval, clks: seq<u32>, interval: nat)
    requires 6 <= interval <= 3200
    requires s.smallest < 37 * LE_BASECLK * interval - 37 * LE_BASECLK / 2 && s.connInterval != interval
    ensures IntervalRun(s, clks).connInterval != interval
    decreases |clks|
  {
    if clks != [] {
      var n := IntervalStep(s, clks[0]);
      ObservedExact(n.smallest, interval);
      SpoiledForever(n, clks[1..], interval);
      hide Observed, ClkDiff;
    }
  }

  /** The distance is the time that passed exactly when the clock did not start again; if it did, 0.9 s are missing. */
  lemma DistanceExact(s: Interval, delay: nat)
    requires s.prevClk < CLOCK_PERIOD && delay < CLOCK_PERIOD
    ensures
      var clk := ClockAfter(s.prevClk, delay);
      && ClkDiff(s, clk) == (if clk < s.prevClk then (delay + U32 - 9_000_000) % U32 else delay)
      && (ClkDiff(s, clk) == delay <==> clk >= s.prevClk)
  {}

  /** The smallest distance is below what rounds to this interval. */
  predicate TooSmall(smallest: u32, interval: nat) {
    smallest < 37 * LE_BASECLK * interval - 37 * LE_BASECLK / 2
  }

  /** A distance across the start of the clock makes the smallest too small exactly from 902.5 ms on, in this range. */
  lemma RolloverExact(s: Interval, delay: nat, interval: nat)
    requires 6 <= interval <= 3200 && (Near(s.smallest, interval) || s.smallest == U32 - 1)
    requires s.prevClk < CLOCK_PERIOD && delay < CLOCK_PERIOD && ClockAfter(s.prevClk, delay) < s.prevClk
    ensures TooSmall(IntervalStep(s, ClockAfter(s.prevClk, delay)).smallest, interval)
      <==> 9_025_000 <= delay < 37 * LE_BASECLK * interval - 37 * LE_BASECLK / 2 + 9_000_000
  {
    DistanceExact(s, delay);
    hide ClkDiff, ClockAfter, Observed;
  }

  /**
   When the clock starts again between two visits that follow each other, the phase is spoiled for good exactly for
   intervals of 20 units or more.
   */
  lemma RolloverSpoils(s: Interval, delay: nat, interval: nat, clks: seq<u32>)
    requires 6 <= interval <= 3200 && (Near(s.smallest, interval) || s.smallest == U32 - 1)
    requires s.prevClk < CLOCK_PERIOD && delay < CLOCK_PERIOD && ClockAfter(s.prevClk, delay) < s.prevClk
    requires 37 * LE_BASECLK * interval - 2 * LE_BASECLK < delay < 37 * LE_BASECLK * interval + 2 * LE_BASECLK
    ensures
      var n := IntervalStep(s, ClockAfter(s.prevClk, delay));
      && (TooSmall(n.smallest, interval) <==> interval >= 20)
      && (interval >= 20 ==> IntervalRun(n, clks).connInterval != interval)
      && (interval < 20 && s.smallest != U32 - 1 ==> n.smallest == s.smallest)
  {
    var clk := ClockAfter(s.prevClk, delay);
    var n := IntervalStep(s, clk);
    RolloverExact(s, delay, interval);
    DistanceExact(s, delay);
    ObservedExact(n.smallest, interval);
    hide ClkDiff, ClockAfter, Observed, IntervalRun;
    if interval >= 20 {
      assert Kept(s, clk) by { assert ClkDiff(s, clk) == delay - 9_000_000; }
      SpoiledForever(n, clks, interval);
    }
  }

  // ----- from the times of packets

  /** A packet: on which visit of the connection to the watched channel it comes, and how long after the anchor. */
  datatype Seen = Seen(visit: nat, offset: nat)

  /** Its time, when the connection comes back to the channel with this period. */
  function TimeOf(p: Seen, start: nat, period: nat): nat { start + period * p.visit + p.offset }

  predicate Follows(p: Seen, q: Seen) {
    && p.offset < 2 * LE_BASECLK && q.offset < 2 * LE_BASECLK
    && (q.visit == p.visit ==> p.offset <= q.offset) && q.visit >= p.visit
  }

  /** The packets after the last one that was kept, in the order of their times. */
  predicate InOrder(last: Seen, ps: seq<Seen>)
    decreases |ps|
  {
    ps == [] || (Follows(last, ps[0]) && InOrder(ps[0], ps[1..]))
  }

  /** The first packet of a later visit is of the very next one. */
  predicate NextSeen(last: Seen, ps: seq<Seen>)
    decreases |ps|
  {
    ps == [] || (if ps[0].visit == last.visit then NextSeen(last, ps[1..]) else ps[0].visit == last.visit + 1)
  }

  /** How many further visits are seen. */
  function Visits(last: Seen, ps: seq<Seen>): nat
    decreases |ps|
  {
    if ps == [] then 0
    else if ps[0].visit == last.visit then Visits(last, ps[1..])
    else 1 + Visits(ps[0], ps[1..])
  }

  predicate Timed(ps: seq<Seen>, clks: seq<u32>, start: nat, period: nat) {
    |ps| == |clks| && forall i :: 0 <= i < |ps| ==> clks[i] == TimeOf(ps[i], start, period)
  }

  lemma TimesApart(last: Seen, p: Seen, start: nat, period: nat)
    requires Follows(last, p)
    ensures TimeOf(p, start, period) - TimeOf(last, start, period)
      == period * (p.visit - last.visit) + (p.offset - last.offset)
    ensures p.visit == last.visit ==> period * (p.visit - last.visit) == 0
    ensures p.visit == last.visit + 1 ==> period * (p.visit - last.visit) == period
    ensures p.visit > last.visit ==> period * (p.visit - last.visit) >= period
  {
    var d := p.visit - last.visit;
    assert period * p.visit == period * last.visit + period * d;
    if d >= 1 {
      assert period * d == period + period * (d - 1);
    }
  }

  /** One packet: it is kept exactly when it is of a later visit, and then the smallest distance is near. */
  lemma OneSeen(s: Interval, clk: u32, last: Seen, p: Seen, start: nat, period: nat, interval: nat)
    requires 6 <= interval <= 3200 && period == 37 * LE_BASECLK * interval && Follows(last, p)
    requires s.prevClk == TimeOf(last, start, period) && clk == TimeOf(p, start, period)
    requires Near(s.smallest, interval) || (s.smallest == U32 - 1 && p.visit <= last.visit + 1)
    ensures Kept(s, clk) <==> p.visit != last.visit
    ensures Kept(s, clk) ==> Near(IntervalStep(s, clk).smallest, interval) && IntervalStep(s, clk).prevClk == clk
    ensures !Kept(s, clk) ==> IntervalStep(s, clk) == s
  {
    TimesApart(last, p, start, period);
    assert ClkDiff(s, clk) == clk - s.prevClk;
    hide TimeOf, Observed;
  }

  lemma OrderSkips(last: Seen, ps: seq<Seen>)
    requires ps != [] && InOrder(last, ps) && ps[0].visit == last.visit
    ensures InOrder(last, ps[1..])
  {}

  /**
   Packets within 2.5 ms of their anchors, of which those of a further visit begin with the next one: exactly one of
   each visit is kept, and every smallest distance is near 37 intervals.
   */
  lemma {:induction false} TimesNear(s: Interval, ps: seq<Seen>, clks: seq<u32>, last: Seen, start: nat, interval: nat)
    requires 6 <= interval <= 3200 && Timed(ps, clks, start, 37 * LE_BASECLK * interval)
    requires s.prevClk == TimeOf(last, start, 37 * LE_BASECLK * interval) && InOrder(last, ps)
    requires Near(s.smallest, interval) || (s.smallest == U32 - 1 && NextSeen(last, ps))
    ensures AllNear(s, clks, interval) && KeptCount(s, clks) == Visits(last, ps)
    decreases |ps|
  {
    hide Near, TimeOf, ClkDiff, Kept, IntervalStep;
    if ps != [] {
      var n := IntervalStep(s, clks[0]);
      OneSeen(s, clks[0], last, ps[0], start, 37 * LE_BASECLK * interval, interval);
      if ps[0].visit == last.visit {
        OrderSkips(last, ps);
        TimesNear(n, ps[1..], clks[1..], last, start, interval);
      } else {
        TimesNear(n, ps[1..], clks[1..], ps[0], start, interval);
      }
    }
  }

  /** So the interval is recovered from the times of the packets alone, once one further visit is seen. */
  lemma IntervalFromTimes(s: Interval, ps: seq<Seen>, clks: seq<u32>, last: Seen, start: nat, interval: nat)
    requires 6 <= interval <= 3200 && Timed(ps, clks, start, 37 * LE_BASECLK * interval)
    requires s.prevClk == TimeOf(last, start, 37 * LE_BASECLK * interval) && InOrder(last, ps)
    requires s.smallest == U32 - 1 && NextSeen(last, ps) && s.consec == 0 && !s.done && Visits(last, ps) >= 1
    ensures
      var t := IntervalRun(s, clks);
      && t.connInterval == interval
      && (t.done <==> Visits(last, ps) >= if s.connInterval == interval then 5 else 6)
  {
    TimesNear(s, ps, clks, last, start, interval);
    IntervalRecovered(s, clks, interval);
    hide AllNear, IntervalRun, KeptCount, TimeOf, Visits;
  }

  // ----- the hop increment

  /** The channels hopped between a packet on index 0 and one on index 1. */
  function ChannelsHopped(firstTs: u32, secondClk: u32, connInterval: u16): nat
    requires connInterval > 0
  {
    var secondTs := if secondClk < firstTs then (secondClk + CLOCK_PERIOD) % U32 else secondClk;
    DivideRound(Sub32(secondTs, firstTs), connInterval * LE_BASECLK)
  }

  /** The clock after `delay` ticks. */
  function ClockAfter(clk: nat, delay: nat): nat { (clk + delay) % CLOCK_PERIOD }

  lemma Elapsed(first: u32, delay: nat)
    requires first < CLOCK_PERIOD && delay < CLOCK_PERIOD
    ensures var second := ClockAfter(first, delay);
      Sub32(if second < first then (second + CLOCK_PERIOD) % U32 else second, first) == delay
  {}

  lemma HoppedIs(first: u32, delay: nat, interval: nat, unit: nat)
    requires 6 <= interval <= 3200 && unit == interval * LE_BASECLK
    requires first < CLOCK_PERIOD && delay < CLOCK_PERIOD
    ensures ChannelsHopped(first, ClockAfter(first, delay), interval) == (delay + unit / 2) / unit
  {
    Elapsed(first, delay);
    NoWrap(delay, unit);
    hide ClockAfter, Sub32, DivideRound;
  }

  lemma NoWrap(n: nat, d: nat)
    requires n < CLOCK_PERIOD && 0 < d <= 3200 * LE_BASECLK
    ensures DivideRound(n, d) == (n + d / 2) / d
  {
    var x := n + d / 2;
    assert x % U32 == x;
  }

  lemma Rounded(delay: nat, unit: nat, hops: nat)
    requires unit > 0 && unit % 2 == 0
    ensures (delay + unit / 2) / unit == hops <==> hops * unit - unit / 2 <= delay < hops * unit + unit / 2
  {
    var x := delay + unit / 2;
    var q := x / unit;
    QuotientIn(x, unit, q, hops);
  }

  /** The quotient is hops exactly when x lies in the hops-th stretch of length unit. */
  lemma QuotientIn(x: nat, unit: nat, q: nat, hops: nat)
    requires unit > 0 && q == x / unit
    ensures q == hops <==> hops * unit <= x < hops * unit + unit
  {
    assert q * unit <= x < q * unit + unit;
    if q < hops {
      Stretch(q, hops, unit);
    } else if q > hops {
      Stretch(hops, q, unit);
    }
  }

  lemma Stretch(p: nat, q: nat, unit: nat)
    requires p < q
    ensures p * unit + unit <= q * unit
  {
    var d := q - p - 1;
    assert q == p + 1 + d;
    Spread(p, d, unit);
  }

  lemma Spread(p: nat, d: nat, unit: nat)
    ensures (p + 1 + d) * unit == p * unit + unit + d * unit
  {
  }

  /** The hops between index 0 and index 1 are the inverse of the increment, and the table turns them back. */
  lemma IncrementFromHops(hops: nat, increment: nat)
    requires 0 < hops < 37 && 0 < increment < 37 && (hops * increment) % 37 == 1
    ensures HopIntervalLut(hops) == increment
  {
    LutInverts(hops);
    InverseUnique(HopIntervalLut(hops), hops, increment);
  }

  lemma InverseUnique(b: nat, k: nat, c: nat)
    requires Inverses(k, b) && c < 37 && (k * c) % 37 == 1
    ensures b == c
  {
    CancelInverse(b, k, c);
    ReduceFactor(b, k * c);
  }

  /**
   For a connection of the given interval and increment, seen on index 0 at clock
   `first` and on index 1 `delay` ticks later, the increment is recovered whenever
   the delay is within half an interval of its true value, across the rollover too.
   */
  lemma IncrementRecovered(first: u32, delay: nat, interval: nat, increment: nat, hops: nat)
    requires 6 <= interval <= 3200 && 0 < increment < 37
    requires 0 < hops < 37 && (hops * increment) % 37 == 1
    requires first < CLOCK_PERIOD && delay < CLOCK_PERIOD
    ensures ChannelsHopped(first, ClockAfter(first, delay), interval) == hops
       <==> hops * (interval * LE_BASECLK) - interval * LE_BASECLK / 2 <= delay
              < hops * (interval * LE_BASECLK) + interval * LE_BASECLK / 2
    ensures ChannelsHopped(first, ClockAfter(first, delay), interval) == hops
       ==> HopIntervalLut(ChannelsHopped(first, ClockAfter(first, delay), interval)) == increment
  {
    hide HopIntervalLut, ChannelsHopped, ClockAfter;
    HoppedIs(first, delay, interval, interval * LE_BASECLK);
    Rounded(delay, interval * LE_BASECLK, hops);
    IncrementFromHops(hops, increment);
  }

  // ----- the callbacks

  /** How the hop increment callback ends: it returns, or divides by an interval of 0, which C leaves undefined. */
  datatype Outcome = Returned | DividedByZero

  /** The part of the firmware's `le` and `le_promisc` state, and the statics, that the three callbacks use. */
  class Promisc {
    var crcVerify: bool
    var crcInit: u32
    var crcInitReversed: u32
    var callback: Callback
    var hopDirectChannel: u16
    var doHop: bool

    // promisc_recover_hop_interval
    var prevClk: u32
    var smallestHopInterval: u32
    var connInterval: u16
    var consecIntervals: int

    // promisc_recover_hop_increment
    var firstTs: u32
    var channelIncrement: u8
    var channelIdx: u8
    var intervalTimer: u16
    var connCount: u16

    function IntervalState(): Interval
      reads this
    {
      Interval(prevClk, smallestHopInterval, connInterval, consecIntervals, callback == HopIncrement)
    }

    /** promisc_follow_cb: an empty data packet gives away the CRC initial value of the connection. */
    method FollowCb(packet: array<u8>)
      requires packet.Length >= 9
      modifies `crcInit, `crcInitReversed, `crcVerify, `callback
      ensures var fires := !old(crcVerify) && packet[4] == 0x01 && packet[5] == 0x00;
        if fires then
          && crcVerify && callback == HopInterval && crcInitReversed < U24
          && Crc(crcInitReversed, packet[4..6]) == 65536 * (packet[8] as int) + 256 * (packet[7] as int) + packet[6]
          && (forall s: u24 :: Crc(s, packet[4..6]) == 65536 * (packet[8] as int) + 256 * (packet[7] as int) + packet[6]
                ==> s == crcInitReversed)
          && crcInit == Rev24(crcInitReversed)
        else unchanged(this)
    {
      if !crcVerify && packet[4] == 0x01 && packet[5] == 0x00 {
        var crc := 65536 * (packet[8] as int) + 256 * (packet[7] as int) + packet[6];
        var i := ReverseCrcWords(crc, packet, 4, 2);
        var r := ReverseBits24(i);
        FoundInitWorks(crc, packet[4..6]);
        forall s: u24 | Crc(s, packet[4..6]) == crc ensures s == r {
          InitOfCrc(s, crc, packet[4..6]);
        }
        Rev24Involutive(i);
        crcInit := i;
        crcInitReversed := r;
        crcVerify := true;
        callback := HopInterval;
      }
    }

    /** promisc_recover_hop_interval when the clock reads clk. */
    method RecoverHopInterval(clk: u32)
      requires callback == HopInterval
      modifies `prevClk, `smallestHopInterval, `connInterval, `consecIntervals, `callback, `hopDirectChannel, `doHop
      ensures IntervalState() == IntervalStep(old(IntervalState()), clk)
      ensures callback == HopInterval || callback == HopIncrement
      ensures callback == HopIncrement ==> hopDirectChannel == 2404 && doHop
    {
      var curClk := clk;
      if curClk < prevClk {
        curClk := (curClk + 3267800000) % U32;
      }
      var clkDiff := Sub32(curClk, prevClk);
      if clkDiff < 2 * LE_BASECLK {
        return;
      }
      if clkDiff < smallestHopInterval {
        smallestHopInterval := clkDiff;
      }
      var obsvHopInterval := DivideRound(smallestHopInterval, 37 * LE_BASECLK) % U16;
      if connInterval == obsvHopInterval {
        consecIntervals := consecIntervals + 1;
        if consecIntervals == 5 {
          callback := HopIncrement;
          hopDirectChannel := 2404;
          doHop := true;
        }
      } else {
        connInterval := obsvHopInterval;
        consecIntervals := 0;
      }
      prevClk := curClk;
    }

    /** promisc_recover_hop_increment for a packet on `channel` when the clock reads clk. */
    method RecoverHopIncrement(channel: u16, clk: u32) returns (outcome: Outcome)
      requires callback == HopIncrement
      modifies `firstTs, `channelIncrement, `channelIdx, `intervalTimer, `connCount
      modifies `callback, `hopDirectChannel, `doHop
      ensures outcome == if channel == 2406 && connInterval == 0 then DividedByZero else Returned
      ensures outcome == DividedByZero ==> unchanged(this)
      ensures channel == 2404 ==> firstTs == clk && hopDirectChannel == 2406 && doHop
      ensures channel != 2404 ==> firstTs == old(firstTs)
      ensures outcome == Returned ==>
        if channel == 2406 && ChannelsHopped(old(firstTs), clk, connInterval) < 37 then
          && callback == ConnectionFollow && !doHop
          && channelIncrement == HopIntervalLut(ChannelsHopped(old(firstTs), clk, connInterval))
          && channelIdx == (1 + channelIncrement) % 37
          && intervalTimer == connInterval / 2 && connCount == 0
        else
          && callback == HopIncrement && channelIncrement == old(channelIncrement) && channelIdx == old(channelIdx)
          && doHop && (channel != 2404 ==> hopDirectChannel == 2404)
    {
      outcome := Returned;
      if channel == 2404 {
        firstTs := clk;
        hopDirectChannel := 2406;
        doHop := true;
      } else if channel == 2406 {
        var secondTs := clk;
        if secondTs < firstTs {
          secondTs := (secondTs + CLOCK_PERIOD) % U32;
        }
        if connInterval * LE_BASECLK == 0 {
          return DividedByZero;
        }
        var channelsHopped := DivideRound(Sub32(secondTs, firstTs), connInterval * LE_BASECLK);
        if channelsHopped < 37 {
          channelIncrement := HopIntervalLut(channelsHopped);
          intervalTimer := connInterval / 2;
          connCount := 0;
          doHop := false;
          channelIdx := (1 + channelIncrement) % 37;
          callback := ConnectionFollow;
          return;
        }
        hopDirectChannel := 2404;
        doHop := true;
      } else {
        hopDirectChannel := 2404;
        doHop := true;
      }
    }
  }
}
