/**
 Connection updates over runs: from the bytes of the request to the interval and
 the time-out of the connection at and after its instant, and to the anchors and
 wake-ups that follow from them. Times are in units of 100 ns.
 */
module LePhyUpdates {
  import opened Bits
  import opened Channels
  import opened LePhy
  import opened LePhyRuns
  import opened LePhySchedule
  import opened LePhyAnchor
  import opened LePhyRequests

  // ----- one step

  /** The step keeps the connection, and handles no other connection update. */
  predicate Settled(s: State, e: Event)
    requires Ready(s) && Enabled(s, e)
  {
    Keeps(s, e) && !Handles(s, e, UpdateReq)
  }

  /** The step tunes the event that an update waits for. */
  predicate Applies(s: State, e: Event) { Tunes(s, e) && AtUpdateInstant(s.conn) }

  /** What is in use, and what waits. */
  datatype Parameters = Parameters(
    interval: u32, timeout: u32, pending: bool, nextInterval: u32, nextTimeout: u32, instant: u16,
    winSize: u8, winOffset: u32)

  function Of(c: Conn): Parameters {
    Parameters(c.connInterval, c.supervisionTimeout, c.updatePending, c.updateInterval, c.updateTimeout,
               c.updateInstant, c.winSize, c.winOffset)
  }

  lemma ByteSettled(s: State, e: Event)
    requires Ready(s) && e.Byte? && Enabled(s, e) && Settled(s, e)
    ensures Of(Step(s, e).conn) == Of(s.conn)
  {
    hide WithByte, GetCurrent, EnqueueCurrent, FinishConnEvent, CanReceive, ClosingRetunes, PacketDone;
    var t := StoreByte(s, e.now, e.value);
    assert t.conn == s.conn && t.event == s.event && t.rfChannel == s.rfChannel;
    if PacketDoneIn(t.buf) && IsSecond(t) {
      var u := AfterSecond(t);
      assert u.conn == s.conn;
      CurrentBound(EnqueueCurrent(t.buf));
      FinishSettled(u, e.now);
    }
  }

  lemma FinishSettled(s: State, now: u32)
    requires ClosingRetunes(s, now) ==> s.buf.current.Some? && s.buf.current.value < |s.buf.pool|
    requires Following(FinishConnEvent(s, now))
    ensures Of(FinishConnEvent(s, now).conn) == Of(s.conn)
  {
    hide ClearCurrent, ObservedAnchor;
  }

  lemma TuningSettled(s: State, now: u32)
    requires CanMr0(s, now) && Mr0Tunes(s) && Following(s)
    ensures Mr0(s, now).conn == TunedConn(s.conn)
  {
    hide ClearCurrent, MappedPhys;
  }

  lemma TunedParameters(c: Conn)
    ensures
      var p, d := Of(c), TunedConn(c);
      && Of(d) == (if AtUpdateInstant(c) then p.(interval := p.nextInterval, timeout := p.nextTimeout, pending := false)
                   else p)
      && d.eventCounter == c.eventCounter && (AtUpdateInstant(c) ==> !d.anchorSet)
  {}

  lemma WaitingSettled(s: State, now: u32)
    requires CanMr0(s, now) && WaitsForWindow(s)
    ensures Mr0(s, now).conn == s.conn
  {}

  lemma ClosingSettled(s: State, now: u32)
    requires CanMr0(s, now) && !AtUpdateInstant(s.conn) && s.event.isOpen
    requires Following(Mr0(s, now))
    ensures Of(Mr0(s, now).conn) == Of(s.conn)
  {
    FinishSettled(s.(conn := MapApplied(s.conn)), now);
    hide FinishConnEvent, ClosingRetunes;
  }

  /** A timer match puts a waiting update into force exactly when it tunes the event of the instant. */
  lemma Mr0Settled(s: State, e: Event)
    requires Ready(s) && e.Match0? && Enabled(s, e) && Settled(s, e)
    ensures
      var p, q := Of(s.conn), Of(Step(s, e).conn);
      q == if Applies(s, e) then p.(interval := p.nextInterval, timeout := p.nextTimeout, pending := false) else p
    ensures Tunes(s, e) ==> Step(s, e).conn.eventCounter == s.conn.eventCounter
    ensures Applies(s, e) ==> !Step(s, e).conn.anchorSet
  {
    hide Mr0, CanMr0, Of, TunedConn, Ready, Following, Handles;
    if Tunes(s, e) {
      TuningSettled(s, e.now);
      TunedParameters(s.conn);
    } else if WaitsForWindow(s) {
      WaitingSettled(s, e.now);
    } else {
      ClosingSettled(s, e.now);
    }
  }

  lemma LoopSettled(s: State, e: Event)
    requires Ready(s) && e.Loop? && Enabled(s, e) && Settled(s, e)
    ensures Of(Step(s, e).conn) == Of(s.conn)
  {
    LoopConn(s, e);
    assert Step(s, e) == MainStep(s, e.passes, e.doFollow);
    hide MainStep, Step, KindOf, Extract, ParsedTable;
  }

  lemma StepSettled(s: State, e: Event)
    requires Ready(s) && Enabled(s, e) && Settled(s, e)
    ensures
      var p, q := Of(s.conn), Of(Step(s, e).conn);
      q == if Applies(s, e) then p.(interval := p.nextInterval, timeout := p.nextTimeout, pending := false) else p
    ensures Tunes(s, e) ==> Step(s, e).conn.eventCounter == s.conn.eventCounter
    ensures Applies(s, e) ==> !Step(s, e).conn.anchorSet
  {
    match e
    case Byte(_, _) =>
      ByteSettled(s, e);
      hide Step, Settled, Of;
    case Match0(_) =>
      Mr0Settled(s, e);
      hide Step, Settled, Of;
    case Loop(_, _) =>
      LoopSettled(s, e);
      hide Step, Settled, Of;
    case _ =>
      OthersMoveNothing(s, e);
      hide Step, Settled, Of;
  }

  // ----- runs

  ghost predicate SettledRun(s: State, es: seq<Event>)
    requires Inv(s) && Possible(s, es)
    decreases |es|
  {
    es == [] ||
    (InvReady(s); StepKeeps(s, es[0]); Settled(s, es[0]) && SettledRun(Step(s, es[0]), es[1..]))
  }

  /** Some event with this counter value is tuned during the run. */
  ghost predicate Reaches(s: State, es: seq<Event>, counter: u16)
    requires Inv(s) && Possible(s, es)
  {
    exists i :: 0 <= i < |Openings(s, es)| && Openings(s, es)[i].counter == counter
  }

  /** The first step of such a run, and the rest. */
  lemma SettledUnfolded(s: State, es: seq<Event>, counter: u16)
    requires Inv(s) && Possible(s, es) && SettledRun(s, es) && es != []
    ensures Ready(s) && Enabled(s, es[0]) && Settled(s, es[0])
    ensures
      var t, rest := Step(s, es[0]), es[1..];
      && Inv(t) && Possible(t, rest) && SettledRun(t, rest) && Run(s, es) == Run(t, rest)
      && (Reaches(s, es, counter)
          <==> (Tunes(s, es[0]) && t.conn.eventCounter == counter) || Reaches(t, rest, counter))
  {
    InvReady(s);
    StepKeeps(s, es[0]);
    hide Inv, Ready, Enabled, Settled, Step, Tunes, Run;
    var t, rest := Step(s, es[0]), es[1..];
    var first := if Tunes(s, es[0]) then [OpeningOf(t)] else [];
    assert Openings(s, es) == first + Openings(t, rest);
    hide Openings;
    OneOf(first, Openings(t, rest), counter);
  }

  lemma OneOf(first: seq<Opening>, rest: seq<Opening>, counter: u16)
    requires |first| <= 1
    ensures (exists i :: 0 <= i < |first + rest| && (first + rest)[i].counter == counter)
      <==> (first != [] && first[0].counter == counter) || exists i :: 0 <= i < |rest| && rest[i].counter == counter
  {
    var all := first + rest;
    if first != [] && first[0].counter == counter {
      assert all[0].counter == counter;
    }
    if i :| 0 <= i < |rest| && rest[i].counter == counter {
      assert all[|first| + i].counter == counter;
    }
    if i :| 0 <= i < |all| && all[i].counter == counter {
      assert i < |first| || rest[i - |first|].counter == counter;
    }
  }

  /** What is in force stays in force, and what waits does so until the event of its instant is tuned. */
  lemma {:induction false} ParametersRun(s: State, es: seq<Event>)
    requires Inv(s) && Possible(s, es) && SettledRun(s, es)
    ensures
      var p, q := Of(s.conn), Of(Run(s, es).conn);
      q == if p.pending && Reaches(s, es, p.instant)
           then p.(interval := p.nextInterval, timeout := p.nextTimeout, pending := false) else p
    decreases |es|
  {
    hide *;
    if es == [] {
      NothingReached(s);
    } else {
      var e := es[0];
      SettledUnfolded(s, es, Of(s.conn).instant);
      StepSettled(s, e);
      AppliesExactly(s, e);
      ParametersRun(Step(s, e), es[1..]);
    }
  }

  lemma NothingReached(s: State)
    requires Inv(s) && Possible(s, [])
    ensures Run(s, []) == s && forall counter :: !Reaches(s, [], counter)
  {}

  lemma AppliesExactly(s: State, e: Event)
    ensures Applies(s, e) <==> Of(s.conn).pending && Tunes(s, e) && s.conn.eventCounter == Of(s.conn).instant
  {}

  // ----- from the bytes of the request

  lemma AskedParameters(c: Conn, data: Bytes)
    ensures Asked(c, data) <==>
      Of(c) == Parameters(c.connInterval, c.supervisionTimeout, true, 12500 * Word(data, 6),
                          100000 * Word(data, 10) % 0x1_0000_0000, Word(data, 12), 12500 * data[3] as int % 256,
                          12500 * Word(data, 4))
    ensures InForce(c, data) <==>
      Of(c).interval == 12500 * Word(data, 6) && Of(c).timeout == 100000 * Word(data, 10) % 0x1_0000_0000
      && !Of(c).pending
  {}

  /** The step of the main loop that hands over a connection update. */
  lemma HandledUpdate(s: State, e: Event)
    requires Ready(s) && Enabled(s, e) && e.Loop? && e.passes && s.buf.main.Plain? && IsControl(MainBuf(s), 0, 12)
    ensures
      var c := Step(s, e).conn;
      && Asked(c, MainBuf(s).data) && c.connInterval == s.conn.connInterval
      && c.supervisionTimeout == s.conn.supervisionTimeout && c.lastAnchor == s.conn.lastAnchor
      && c.anchorSet == s.conn.anchorSet
  {
    UpdateAsked(s.(buf := s.buf.(main := Handled(s.buf.main.buf))), MainBuf(s), e.doFollow);
    hide PacketHandler, IsControl, Asked;
  }

  lemma SpelledOut(data: Bytes)
    ensures Word(data, 6) == data[6] as int + 256 * data[7] as int
    ensures Word(data, 10) == data[10] as int + 256 * data[11] as int
    ensures Word(data, 12) == data[12] as int + 256 * data[13] as int
  {}

  lemma ParametersAre(c: Conn)
    ensures Of(c).interval == c.connInterval && Of(c).timeout == c.supervisionTimeout
    ensures Of(c).pending == c.updatePending
  {}

  /** An update that waits, over a run. */
  lemma AskedTakesEffect(u: State, data: Bytes, es: seq<Event>)
    requires Inv(u) && Possible(u, es) && SettledRun(u, es) && Asked(u.conn, data)
    ensures
      var c, reached := Run(u, es).conn, Reaches(u, es, Word(data, 12));
      && c.connInterval == (if reached then 12500 * Word(data, 6) else u.conn.connInterval)
      && c.supervisionTimeout
         == (if reached then 100000 * Word(data, 10) % 0x1_0000_0000 else u.conn.supervisionTimeout)
      && (c.updatePending <==> !reached)
  {
    hide *;
    ParametersRun(u, es);
    AskedParameters(u.conn, data);
    ParametersAre(u.conn);
    ParametersAre(Run(u, es).conn);
  }

  /**
   From the bytes of a connection update: during a run that keeps the connection and handles no other update, the
   interval and the time-out stay as they were until the event with the counter value of the instant is tuned, and are
   those of the request from then on.
   */
  lemma UpdateTakesEffect(s: State, e: Event, es: seq<Event>)
    requires Inv(s) && Ready(s) && Enabled(s, e) && e.Loop? && e.passes && s.buf.main.Plain?
    requires IsControl(MainBuf(s), 0, 12)
    requires Inv(Step(s, e)) && Possible(Step(s, e), es) && SettledRun(Step(s, e), es)
    ensures
      var data, u, c := MainBuf(s).data, Step(s, e), Run(Step(s, e), es).conn;
      var reached := Reaches(u, es, data[12] as int + 256 * data[13] as int);
      && c.connInterval
         == (if reached then 12500 * (data[6] as int + 256 * data[7] as int) else s.conn.connInterval)
      && c.supervisionTimeout
         == (if reached then 100000 * (data[10] as int + 256 * data[11] as int) % 0x1_0000_0000
             else s.conn.supervisionTimeout)
      && (c.updatePending <==> !reached)
  {
    hide *;
    HandledUpdate(s, e);
    SpelledOut(MainBuf(s).data);
    AskedTakesEffect(Step(s, e), MainBuf(s).data, es);
  }

  // ----- the instant, and the anchors behind it

  /**
   The timer at the instant. When the request names a window offset, the first match only waits for the window, 300 us
   before it begins; the channel stays. The next one, or the first without an offset, puts the update into force,
   forgets the old anchor, tunes the event, and gives it until the end of the window and 2.12 ms more. (The window is
   stored in eight bits.)
   */
  lemma InstantTuned(s: State, data: Bytes, now: u32)
    requires CanMr0(s, now) && Following(s) && Asked(s.conn, data) && s.conn.eventCounter == Word(data, 12)
    ensures
      var t := Mr0(s, now);
      t.mr0On && t.event.isOpen && t.conn.lastAnchor == s.conn.lastAnchor &&
      if !s.event.isOpen && Word(data, 4) > 0 then
        && t.conn == s.conn && t.rfChannel == s.rfChannel && t.buf == s.buf
        && t.mr0 == (s.conn.lastAnchor + s.conn.connInterval + 12500 * Word(data, 4) - 3000) % 0x1_0000_0000
      else
        && InForce(t.conn, data) && !t.conn.anchorSet && t.mr2On && !t.rxOn
        && t.mr0 == (s.conn.lastAnchor + 12500 * Word(data, 6) + 12500 * Word(data, 4)
                     + 12500 * data[3] as int % 256 + 21200) % 0x1_0000_0000
  {
    hide ClearCurrent, MappedPhys, Word;
    WholeTurn(s.conn.lastAnchor + s.conn.connInterval + s.conn.winOffset - 3000);
  }

  lemma WholeTurn(x: int)
    ensures (x + 0x1_0000_0000) % 0x1_0000_0000 == x % 0x1_0000_0000
  {}

  /** The closing of an event without a second packet leaves the match 300 us before the next anchor. */
  lemma ClosingWakes(s: State, e: Event)
    requires Ready(s) && Enabled(s, e) && Steady(s, e) && Finishes(s, e)
    ensures
      var t := Step(s, e);
      t.mr0On && t.mr0 == (t.conn.lastAnchor + t.conn.connInterval - 3000) % U32
  {
    hide AnchorUpdated, ClearCurrent;
    var t := Step(s, e);
    WholeTurn(t.conn.lastAnchor + t.conn.connInterval - 3000);
  }

  /**
   Over a steady run and the closing of one more event: the radio is woken 300 us before the grid point of the event
   after that one, give or take the drift of the accepted anchors.
   */
  lemma WakesOnGrid(s: State, es: seq<Event>, e: Event) returns (drift: int)
    requires Inv(s) && Possible(s, es) && SteadyRun(s, es) && s.conn.anchorSet
    requires Ready(Run(s, es)) && Enabled(Run(s, es), e) && Steady(Run(s, es), e) && Finishes(Run(s, es), e)
    ensures -29 * (Accepted(s, es) + 1) <= drift <= 30 * (Accepted(s, es) + 1)
    ensures
      var t := Step(Run(s, es), e);
      t.mr0On && t.mr0 == OnGrid(s.conn.lastAnchor, Ended(s, es) + 2, s.conn.connInterval, drift - 3000)
  {
    hide *;
    var u, m, interval := Run(s, es), Ended(s, es), s.conn.connInterval;
    var before := DeadReckoning(s, es);
    var d := StepMoves(u, e);
    ClosingWakes(u, e);
    drift := before + d;
    GridAdds(s.conn.lastAnchor, m, 1, interval, before, d);
    OneOnGrid(Step(u, e).conn.lastAnchor, interval, -3000);
    GridAdds(s.conn.lastAnchor, m + 1, 1, interval, drift, -3000);
  }

  /**
   A connection update, followed from its bytes to the anchors behind it: once the event of its instant was tuned and
   an anchor was seen, the anchor moves by the requested interval for every event that ends.
   */
  lemma UpdatedGrid(s: State, e: Event, es: seq<Event>, fs: seq<Event>) returns (drift: int)
    requires Inv(s) && Ready(s) && Enabled(s, e) && e.Loop? && e.passes && s.buf.main.Plain?
    requires IsControl(MainBuf(s), 0, 12)
    requires Inv(Step(s, e)) && Possible(Step(s, e), es) && SettledRun(Step(s, e), es)
    requires Reaches(Step(s, e), es, Word(MainBuf(s).data, 12))
    requires
      var u := Run(Step(s, e), es);
      u.conn.anchorSet && Possible(u, fs) && SteadyRun(u, fs)
    ensures
      var u, data := Run(Step(s, e), es), MainBuf(s).data;
      var t, m, a := Run(u, fs), Ended(u, fs), Accepted(u, fs);
      && a <= m && -29 * a <= drift <= 30 * a
      && t.conn.lastAnchor
         == OnGrid(u.conn.lastAnchor, m, 12500 * (data[6] as int + 256 * data[7] as int), drift)
  {
    hide Inv, Ready, Enabled, Step, Run, Possible, SettledRun, Reaches, SteadyRun, IsControl, OnGrid, Accepted, Ended;
    UpdateTakesEffect(s, e, es);
    drift := DeadReckoning(Run(Step(s, e), es), fs);
  }
}
