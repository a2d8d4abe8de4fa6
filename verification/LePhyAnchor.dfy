/** The anchor of a connection: dead reckoning in 32-bit time, and how far observations move it off the grid. */
module LePhyAnchor {
  import opened Bits
  import opened RingQueue
  import opened LePhy
  import opened LePhyBuffers
  import opened LePhyFraming
  import opened LePhyRuns
  import opened LePhySchedule

  /** How far `to` lies after `from` on the circle of 2^32 ticks, as a signed number. */
  function Offset(from: u32, to: u32): (d: int)
    ensures -0x8000_0000 <= d < 0x8000_0000 && (from + d) % U32 == to
  {
    var d := if to >= from then to - from else to + U32 - from;
    if d < 0x8000_0000 then d else d - U32
  }

  function Estimate(c: Conn): u32 { Add32(c.lastAnchor, c.connInterval) }

  /** A single packet is taken for the master's exactly when it came at most 2.9 us before or 3 us after it was due. */
  lemma AcceptedWindow(c: Conn, e: ConnEvent)
    requires c.anchorSet && e.numPackets == 1
    ensures ObservedAnchor(c, e).Some? <==> -30 < Offset(Estimate(c), e.anchor) <= 30
  {}

  /**
   One event with at most one packet: the anchor moves by the interval and at most 3 us, without an accepted packet
   exactly by the interval.
   */
  lemma AnchorMoves(c: Conn, e: ConnEvent, now: u32) returns (d: int)
    requires c.anchorSet && e.numPackets <= 1
    ensures AnchorUpdated(c, e, now).anchorSet && AnchorUpdated(c, e, now).connInterval == c.connInterval
    ensures AnchorUpdated(c, e, now).lastAnchor == (c.lastAnchor + c.connInterval + d) % U32
    ensures -30 < d <= 30 && (ObservedAnchor(c, e).None? ==> d == 0)
  {
    if ObservedAnchor(c, e).Some? {
      AcceptedWindow(c, e);
      d := Offset(Estimate(c), e.anchor);
      ModAdd(c.lastAnchor + c.connInterval, d);
    } else {
      d := 0;
    }
  }

  lemma ModAdd(x: int, d: int)
    ensures (x % U32 + d) % U32 == (x + d) % U32
  {}

  /** Two packets: the anchor is the time of the first, whatever was estimated. */
  lemma TwoPackets(c: Conn, e: ConnEvent, now: u32)
    requires e.numPackets == 2
    ensures AnchorUpdated(c, e, now).lastAnchor == e.anchor && AnchorUpdated(c, e, now).anchorSet
  {}

  /** As long as no anchor is accepted, the anchor is that of the event, whatever it was, and counts as heard now. */
  lemma NoAnchorYet(c: Conn, e: ConnEvent, now: u32)
    requires !c.anchorSet && e.numPackets <= 1
    ensures
      var d := AnchorUpdated(c, e, now);
      !d.anchorSet && d.lastAnchor == e.anchor && d.lastPacketTs == now
  {}

  /** After an event the radio is woken 300 us before the next anchor is due. */
  lemma NextWakeUp(s: State, now: u32)
    requires !ClosingRetunes(s, now)
    ensures
      var t := FinishConnEvent(s, now);
      t.mr0On && t.mr0 == Sub32(Estimate(t.conn), 3000)
  {
    hide AnchorUpdated;
  }

  // ----- runs

  /** A step of a kept connection that applies no connection update and closes events with at most one packet only. */
  predicate Steady(s: State, e: Event)
    requires Ready(s) && Enabled(s, e)
  {
    && Following(s) && Following(Step(s, e))
    && (Finishes(s, e) ==> e.Match0? && s.event.numPackets <= 1)
    && (Tunes(s, e) ==> !AtUpdateInstant(s.conn))
    && (Handles(s, e, ConnectReq) ==> !e.doFollow || s.buf.pool[s.buf.main.buf].size != 39)
  }

  ghost predicate SteadyRun(s: State, es: seq<Event>)
    requires Inv(s) && Possible(s, es)
    decreases |es|
  {
    es == [] ||
    (InvReady(s); StepKeeps(s, es[0]); Steady(s, es[0]) && SteadyRun(Step(s, es[0]), es[1..]))
  }

  /** How many of the events that end in a run have an accepted anchor. */
  ghost function Accepted(s: State, es: seq<Event>): nat
    requires Inv(s) && Possible(s, es)
    decreases |es|
  {
    if es == [] then 0
    else
      InvReady(s); StepKeeps(s, es[0]);
      (if Finishes(s, es[0]) && ObservedAnchor(s.conn, s.event).Some? then 1 else 0) + Accepted(Step(s, es[0]), es[1..])
  }

  /** The m-th point of the ideal grid of anchors, with a drift, in 32-bit time. */
  function OnGrid(anchor: nat, m: nat, interval: nat, drift: int): nat {
    (anchor + m * interval + drift) % U32
  }

  lemma OneOnGrid(anchor: nat, interval: nat, d: int)
    ensures OnGrid(anchor, 1, interval, d) == (anchor + interval + d) % U32
  {}

  lemma NoneOnGrid(anchor: u32, interval: nat)
    ensures OnGrid(anchor, 0, interval, 0) == anchor
  {}

  /** What a steady step does to the anchor. */
  lemma StepMoves(s: State, e: Event) returns (d: int)
    requires Ready(s) && Enabled(s, e) && Steady(s, e) && s.conn.anchorSet
    ensures Step(s, e).conn.anchorSet && Step(s, e).conn.connInterval == s.conn.connInterval
    ensures Step(s, e).conn.lastAnchor
      == OnGrid(s.conn.lastAnchor, if Finishes(s, e) then 1 else 0, s.conn.connInterval, d)
    ensures -30 < d <= 30 && (d == 0 || (Finishes(s, e) && ObservedAnchor(s.conn, s.event).Some?))
  {
    hide OnGrid;
    d := 0;
    NoneOnGrid(s.conn.lastAnchor, s.conn.connInterval);
    match e
    case Byte(now, value) => ByteMovesNothing(s, e);
    case Match0(now) =>
      if Finishes(s, e) {
        d := AnchorMoves(MapApplied(s.conn), s.event, now);
        FinishMoves(s, e);
        OneOnGrid(s.conn.lastAnchor, s.conn.connInterval, d);
      } else {
        Mr0MovesNothing(s, e);
      }
    case Loop(_, _) => LoopMovesNothing(s, e);
    case _ => OthersMoveNothing(s, e);
  }

  lemma ByteMovesNothing(s: State, e: Event)
    requires Ready(s) && Enabled(s, e) && Steady(s, e) && e.Byte?
    ensures Step(s, e).conn == s.conn
  {
    hide WithByte, GetCurrent, EnqueueCurrent, FinishConnEvent, CanReceive, ClosingRetunes, PacketDone;
  }

  lemma FinishMoves(s: State, e: Event)
    requires Ready(s) && Enabled(s, e) && Steady(s, e) && e.Match0? && Finishes(s, e)
    ensures
      var c := AnchorUpdated(MapApplied(s.conn), s.event, e.now);
      && Step(s, e).conn.lastAnchor == c.lastAnchor && Step(s, e).conn.anchorSet == c.anchorSet
      && Step(s, e).conn.connInterval == c.connInterval
    ensures ObservedAnchor(MapApplied(s.conn), s.event) == ObservedAnchor(s.conn, s.event)
  {
    hide AnchorUpdated, ClearCurrent;
  }

  lemma Mr0MovesNothing(s: State, e: Event)
    requires Ready(s) && Enabled(s, e) && Steady(s, e) && e.Match0? && !Finishes(s, e)
    ensures Step(s, e).conn.lastAnchor == s.conn.lastAnchor && Step(s, e).conn.anchorSet == s.conn.anchorSet
    ensures Step(s, e).conn.connInterval == s.conn.connInterval
  {
    hide ClearCurrent, MappedPhys, FinishConnEvent;
  }

  lemma LoopMovesNothing(s: State, e: Event)
    requires Ready(s) && Enabled(s, e) && Steady(s, e) && e.Loop?
    ensures Step(s, e).conn.lastAnchor == s.conn.lastAnchor && Step(s, e).conn.anchorSet == s.conn.anchorSet
    ensures Step(s, e).conn.connInterval == s.conn.connInterval
  {
    LoopConn(s, e);
    assert Step(s, e) == MainStep(s, e.passes, e.doFollow);
    hide MainStep, Step, Handles, HandledData, Extract, ParsedTable;
  }

  lemma OthersMoveNothing(s: State, e: Event)
    requires Ready(s) && Enabled(s, e) && (e.Match2? || e.Match3? || e.Cancel?)
    ensures Step(s, e).conn == s.conn
  {
    hide GetCurrent;
  }

  /**
   Over m events with at most one packet each, of which a have an accepted anchor, the anchor moves by m intervals
   and a drift of at most 3 us per accepted anchor, modulo 2^32. Without an accepted anchor it moves exactly.
   */
  lemma {:induction false} DeadReckoning(s: State, es: seq<Event>) returns (drift: int)
    requires Inv(s) && Possible(s, es) && SteadyRun(s, es) && s.conn.anchorSet
    ensures
      var t, m, a := Run(s, es), Ended(s, es), Accepted(s, es);
      && a <= m && -29 * a <= drift <= 30 * a
      && t.conn.anchorSet && t.conn.connInterval == s.conn.connInterval
      && t.conn.lastAnchor == OnGrid(s.conn.lastAnchor, m, s.conn.connInterval, drift)
    decreases |es|
  {
    hide *;
    drift := 0;
    if es == [] {
      NothingRun(s);
      NoneOnGrid(s.conn.lastAnchor, s.conn.connInterval);
    } else {
      Unfolded(s, es);
      var e := es[0];
      var d := StepMoves(s, e);
      var rest := DeadReckoning(Step(s, e), es[1..]);
      drift := d + rest;
      GridAdds(s.conn.lastAnchor, if Finishes(s, e) then 1 else 0, Ended(Step(s, e), es[1..]), s.conn.connInterval,
               d, rest);
    }
  }

  lemma NothingRun(s: State)
    requires Inv(s) && Possible(s, [])
    ensures Run(s, []) == s && Ended(s, []) == 0 && Accepted(s, []) == 0
  {}

  /** The first step of a run, and the rest. */
  lemma Unfolded(s: State, es: seq<Event>)
    requires Inv(s) && Possible(s, es) && SteadyRun(s, es) && es != []
    ensures Ready(s) && Enabled(s, es[0]) && Steady(s, es[0])
    ensures
      var t, rest := Step(s, es[0]), es[1..];
      && Inv(t) && Possible(t, rest) && SteadyRun(t, rest) && Run(s, es) == Run(t, rest)
      && Ended(s, es) == (if Finishes(s, es[0]) then 1 else 0) + Ended(t, rest)
      && Accepted(s, es)
         == (if Finishes(s, es[0]) && ObservedAnchor(s.conn, s.event).Some? then 1 else 0) + Accepted(t, rest)
  {
    InvReady(s);
    StepKeeps(s, es[0]);
    hide Inv, Ready, Enabled, Steady, Step, Finishes, ObservedAnchor, Following;
  }

  lemma GridAdds(anchor: nat, first: nat, m: nat, interval: nat, d: int, rest: int)
    ensures OnGrid(OnGrid(anchor, first, interval, d), m, interval, rest)
      == OnGrid(anchor, first + m, interval, d + rest)
  {
    assert (first + m) * interval == first * interval + m * interval;
    ModAdd(anchor + first * interval + d, m * interval + rest);
  }
}
