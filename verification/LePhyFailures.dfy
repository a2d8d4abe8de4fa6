/**
 Runs that leave the schedule: what each failing step does, from any state in
 which all is well, and the wrong tuning that follows it.
 */
module LePhyFailures {
  import opened Bits
  import opened Channels
  import opened Whitening
  import opened RingQueue
  import opened LePhy
  import opened LePhyBuffers
  import opened LePhyFraming
  import opened LePhyRuns
  import opened LePhySchedule

  // ----- the failing steps

  /**
   When the second packet ends while the radio is not tuned to an event, an event is counted that was never tuned;
   unless the hop increment is a multiple of 37, the channel is wrong from then on.
   */
  lemma LatePackets(s: State, n: nat, h: History, e: Event)
    requires Ready(s) && Enabled(s, e) && Keeps(s, e) && Scheduled(s, n, h)
    requires EndsDataPacket(s, e) && s.event.numPackets == 1 && !Tuned(s)
    ensures Finishes(s, e) && !Tunes(s, e)
    ensures NextToTune(Step(s, e), n + 1) == NextToTune(s, n) + 1
    ensures h.hop % 37 != 0 ==> !Scheduled(Step(s, e), n + 1, h)
  {
    LatePacketConn(s, e);
    if h.hop % 37 != 0 {
      NoHop(n, h.hop);
    }
    hide Ready, Enabled, Keeps, Step, TableBefore, AnchorUpdated, EndsDataPacket, PendingAsHandled;
  }

  lemma NoHop(n: nat, hop: nat)
    requires hop % 37 != 0
    ensures n * hop % 37 != (n + 1) * hop % 37
  {
    assert (n + 1) * hop == n * hop + hop;
    NoChange37(n * hop, hop);
  }

  lemma NoChange37(x: nat, y: nat)
    requires y % 37 != 0
    ensures x % 37 != (x + y) % 37
  {}

  /** The state in which the second packet of an event is complete and the event is closed. */
  function SecondIn(s: State, e: Event): State
    requires Ready(s) && Enabled(s, e) && EndsDataPacket(s, e) && s.event.numPackets == 1
  {
    AfterSecond(StoreByte(s, e.now, e.value))
  }

  /** The second packet closes the event, tuned or not. */
  lemma LatePacketConn(s: State, e: Event)
    requires Ready(s) && Enabled(s, e) && EndsDataPacket(s, e) && s.event.numPackets == 1
    requires Following(s)
    ensures Following(Step(s, e)) <==> !ClosingRetunes(SecondIn(s, e), e.now)
    ensures Following(Step(s, e)) ==>
      var t, second := Step(s, e), s.event.(numPackets := 2);
      && t.conn == ClosedConn(s.conn, second, e.now) && !t.event.isOpen
      && t.mr0On && t.buf == SecondIn(s, e).buf
  {
    hide WithByte, GetCurrent, EnqueueCurrent, AnchorUpdated, CanReceive, PacketDone, ClearCurrent;
    var t := StoreByte(s, e.now, e.value);
    assert t.conn == s.conn && t.event == s.event && t.rfChannel == s.rfChannel;
    assert IsSecond(t);
    assert Closed(AfterSecond(t), e.now).conn == ClosedConn(s.conn, s.event.(numPackets := 2), e.now);
    SameAddress(s.conn, s.event.(numPackets := 2), e.now);
  }

  lemma SameAddress(c: Conn, e: ConnEvent, now: u32)
    ensures ClosedConn(c, e, now).accessAddress == c.accessAddress
  {}

  /** A map update at its instant is passed over exactly when a connection update has the same instant. */
  lemma SharedInstant(s: State, now: u32)
    requires CanMr0(s, now) && Mr0Tunes(s)
    requires s.conn.mapPending && s.conn.mapInstant == s.conn.eventCounter
    ensures Misses(s, Match0(now)) <==> AtUpdateInstant(s.conn)
    ensures Mr0(s, now).conn.mapPending <==> AtUpdateInstant(s.conn)
    ensures Mr0(s, now).conn.remapping == if AtUpdateInstant(s.conn) then s.conn.remapping else s.conn.pendingRemapping
  {
    hide ClearCurrent, MappedPhys;
  }

  // ----- what the runs are made of

  /** From a state on schedule, a possible run that keeps the connection opens some event otherwise than planned. */
  ghost predicate Deviates(s: State, es: seq<Event>, n: nat, h: History) {
    && Inv(s) && Possible(s, es) && KeptRun(s, es) && Scheduled(s, n, h)
    && !AllOpenAs(Openings(s, es), NextToTune(s, n), h.(updates := h.updates + Updates(s, es, n)))
  }

  /** The channel that is tuned next. */
  function NextChannel(idx: nat, hop: nat): (r: u8)
    ensures r < 37
  {
    (idx + hop) % 37
  }

  /** A timer match that tunes. */
  lemma Opens(s: State, now: u32)
    requires Inv(s) && Ready(s) && s.mr0On && Mr0Tunes(s) && s.buf.current.Some?
    ensures Enabled(s, Match0(now)) && Tunes(s, Match0(now))
    ensures
      var t := Step(s, Match0(now));
      && Following(t) == Following(s) && t.conn.eventCounter == s.conn.eventCounter
      && (Following(s) ==> (t.conn.channelIdx == NextChannel(s.conn.channelIdx, s.conn.hopIncrement)
                            && t.rfChannel == MappedPhys(t.conn.channelIdx, t.conn.remapping)))
      && t.conn.remapping == (if AtUpdateInstant(s.conn) then s.conn else MapApplied(s.conn)).remapping
  {
    hide ClearCurrent, MappedPhys;
  }

  /** A timer match that closes an open event. */
  lemma Closes(s: State, now: u32)
    requires Inv(s) && Ready(s) && s.mr0On && s.event.isOpen && !AtUpdateInstant(s.conn)
    requires !ClosingRetunes(s.(conn := MapApplied(s.conn)), now)
    ensures Enabled(s, Match0(now)) && Finishes(s, Match0(now)) && !Tunes(s, Match0(now))
    ensures
      var t := Step(s, Match0(now));
      && t.conn == ClosedConn(MapApplied(s.conn), s.event, now) && !t.event.isOpen
      && t.mr0On && t.buf == s.buf
  {
    hide AnchorUpdated, ClearCurrent;
  }

  /** A run taken apart into its first step and the rest. */
  lemma Prefixed(s: State, e: Event, rest: seq<Event>, n: nat)
    requires Inv(s) && Ready(s) && Enabled(s, e) && Inv(Step(s, e)) && Possible(Step(s, e), rest)
    ensures Possible(s, [e] + rest)
    ensures KeptRun(s, [e] + rest) <==> Keeps(s, e) && KeptRun(Step(s, e), rest)
    ensures Openings(s, [e] + rest)
      == (if Tunes(s, e) then [OpeningOf(Step(s, e))] else []) + Openings(Step(s, e), rest)
    ensures Updates(s, [e] + rest, n)
      == UpdatesBy(s, e, n) + Updates(Step(s, e), rest, if Finishes(s, e) then n + 1 else n)
  {
    InvReady(s);
    StepKeeps(s, e);
    assert ([e] + rest)[1..] == rest;
    hide Inv, Ready, Enabled, Step, Keeps, Tunes, UpdatesBy, Finishes;
  }

  lemma NothingLeft(s: State, n: nat)
    requires Inv(s)
    ensures Possible(s, []) && KeptRun(s, []) && Openings(s, []) == [] && Updates(s, [], n) == []
  {}

  // ----- the first tuning of a run is not the expected one

  /** The run is possible and keeps the connection, but its first tuning is not that of event k. */
  ghost predicate OpensWrong(s: State, es: seq<Event>, k: nat, n: nat, h: History) {
    && Inv(s) && Possible(s, es) && KeptRun(s, es) && Openings(s, es) != []
    && !OpensAs(Openings(s, es)[0], k, h.(updates := h.updates + Updates(s, es, n)))
  }

  lemma WrongNow(s: State, now: u32, k: nat, n: nat, h: History)
    requires Inv(s) && Ready(s) && s.mr0On && Mr0Tunes(s) && s.buf.current.Some? && Following(s)
    requires Enabled(s, Match0(now)) && !OpensAs(OpeningOf(Step(s, Match0(now))), k, h)
    ensures OpensWrong(s, [Match0(now)], k, n, h)
  {
    var e := Match0(now);
    Opens(s, now);
    StepKeeps(s, e);
    NothingLeft(Step(s, e), n);
    Prefixed(s, e, [], n);
    TuningIsAll(s, e, n);
    OpeningKeeps(s, now);
    hide *;
    assert [e] + [] == [e];
    assert [OpeningOf(Step(s, e))] + [] == [OpeningOf(Step(s, e))];
    NoUpdates(h, Updates(s, [e], n));
  }

  lemma NoUpdates(h: History, us: seq<Update>)
    ensures us == [] ==> h.(updates := h.updates + us) == h
    ensures us == [] + [] ==> us == []
  {
    assert h.updates + [] == h.updates;
  }

  lemma OpeningKeeps(s: State, now: u32)
    requires Ready(s) && Enabled(s, Match0(now)) && Following(s) && Following(Step(s, Match0(now)))
    ensures Keeps(s, Match0(now))
  {
    hide Step;
  }

  lemma WrongLater(s: State, e: Event, rest: seq<Event>, k: nat, n: nat, h: History)
    requires Inv(s) && Ready(s) && Enabled(s, e) && Keeps(s, e) && !Tunes(s, e)
    requires OpensWrong(Step(s, e), rest, k, if Finishes(s, e) then n + 1 else n,
                        h.(updates := h.updates + UpdatesBy(s, e, n)))
    ensures OpensWrong(s, [e] + rest, k, n, h)
  {
    hide Inv, Ready, Enabled, Keeps, Tunes, Step, Finishes, UpdatesBy, OpensAs, Possible, KeptRun, Openings, Updates;
    var t, m := Step(s, e), if Finishes(s, e) then n + 1 else n;
    Prefixed(s, e, rest, n);
    assert [] + Openings(t, rest) == Openings(t, rest);
    assert (h.updates + UpdatesBy(s, e, n)) + Updates(t, rest, m)
      == h.updates + (UpdatesBy(s, e, n) + Updates(t, rest, m));
  }

  lemma WrongDeviates(s: State, es: seq<Event>, n: nat, h: History)
    requires Scheduled(s, n, h) && OpensWrong(s, es, NextToTune(s, n), n, h)
    ensures Deviates(s, es, n, h)
  {
    hide Inv, Possible, KeptRun, Openings, Updates, Scheduled, OpensAs;
    assert !OpensAs(Openings(s, es)[0], NextToTune(s, n) + 0, h.(updates := h.updates + Updates(s, es, n)));
  }

  lemma NextCounter(n: nat)
    ensures n % U16 != (n + 1) % U16
  {}

  /** A tuning with the counter of another event is wrong for this one. */
  lemma WrongCounter(s: State, now: u32, k: nat, n: nat, h: History)
    requires Inv(s) && Ready(s) && s.mr0On && Mr0Tunes(s) && s.buf.current.Some? && Following(s)
    requires s.conn.eventCounter != k % U16
    ensures OpensWrong(s, [Match0(now)], k, n, h)
  {
    Opens(s, now);
    hide Inv, Ready, Enabled, Step, Mr0Tunes, Tunes, MappedPhys;
    WrongNow(s, now, k, n, h);
  }

  // ----- the failures

  /** After late packets the first tuning is not that of the event that was to be tuned. */
  lemma LatePacketsDeviate(s: State, n: nat, h: History, e: Event, now: u32)
    requires Inv(s) && Ready(s) && Enabled(s, e) && Keeps(s, e) && Scheduled(s, n, h)
    requires EndsDataPacket(s, e) && s.event.numPackets == 1 && !Tuned(s)
    requires Step(s, e).buf.current.Some? && Mr0Tunes(Step(s, e))
    ensures Skips(s, e) && Deviates(s, [e] + [Match0(now)], n, h)
  {
    var t := Step(s, e);
    StepKeeps(s, e);
    InvReady(t);
    LatePackets(s, n, h, e);
    AfterLatePacket(s, n, h, e);
    hide *;
    WrongCounter(t, now, n, n + 1, h.(updates := h.updates + UpdatesBy(s, e, n)));
    WrongLater(s, e, [Match0(now)], n, n, h);
    WrongDeviates(s, [e] + [Match0(now)], n, h);
  }

  lemma AfterLatePacket(s: State, n: nat, h: History, e: Event)
    requires Ready(s) && Enabled(s, e) && Keeps(s, e) && Scheduled(s, n, h)
    requires EndsDataPacket(s, e) && s.event.numPackets == 1 && !Tuned(s)
    ensures Skips(s, e) && NextToTune(s, n) == n
    ensures Following(Step(s, e)) && Step(s, e).mr0On && Step(s, e).conn.eventCounter != n % U16
  {
    LatePacketConn(s, e);
    NextCounter(n);
    hide Step, AnchorUpdated, EndsDataPacket, Ready, Enabled;
    CounterMoves(s.conn, s.event.(numPackets := 2), e.now, n);
  }

  lemma CounterMoves(c: Conn, e: ConnEvent, now: u32, n: nat)
    requires c.eventCounter == n % U16
    ensures ClosedConn(c, e, now).eventCounter == (n + 1) % U16
  {
    hide ObservedAnchor;
  }

  /** A step that handles an update request changes the connection and nothing that the timer handler looks at. */
  lemma RequestStep(s: State, e: Event)
    requires Inv(s) && Ready(s) && Enabled(s, e) && (Handles(s, e, UpdateReq) || Handles(s, e, MapReq))
    ensures
      var t := Step(s, e);
      && Inv(t) && Ready(t) && !Tunes(s, e) && !Finishes(s, e) && Following(t) == Following(s)
      && t.event == s.event && t.mr0On == s.mr0On && t.mr0 == s.mr0
      && t.buf.current == s.buf.current && t.cancelFollow == s.cancelFollow
      && t.conn == (if Handles(s, e, MapReq) then MapUpdate(s.conn, HandledData(s))
                    else ConnectionUpdate(s.conn, HandledData(s)))
    ensures Following(s) ==> Keeps(s, e)
  {
    StepKeeps(s, e);
    InvReady(Step(s, e));
    LoopConn(s, e);
    RequestFrame(s, e);
    RequestFollows(s.conn, HandledData(s));
    assert Step(s, e) == MainStep(s, e.passes, e.doFollow);
    hide Inv, Ready, MainStep, Step, KindOf, MapUpdate, ConnectionUpdate, Extract;
  }

  lemma RequestFollows(c: Conn, data: Bytes)
    ensures MapUpdate(c, data).accessAddress == c.accessAddress
    ensures ConnectionUpdate(c, data).accessAddress == c.accessAddress
  {
    hide Extract, ParsedTable;
  }

  lemma RequestFrame(s: State, e: Event)
    requires Ready(s) && e.Loop? && (Handles(s, e, UpdateReq) || Handles(s, e, MapReq))
    ensures
      var t := MainStep(s, e.passes, e.doFollow);
      t.mr0On == s.mr0On && t.mr0 == s.mr0 && t.buf.current == s.buf.current && t.cancelFollow == s.cancelFollow
  {
    hide KindOf, MapUpdate, ConnectionUpdate, DewhitenedBuf, CanReceive;
  }

  /** An event that is claimed by a connection update after it was tuned is tuned twice. */
  lemma TunedTwiceDeviates(s: State, n: nat, h: History, e: Event, now: u32)
    requires Inv(s) && Ready(s) && Enabled(s, e) && Scheduled(s, n, h) && Handles(s, e, UpdateReq)
    requires Tuned(s) && UpdateInstantOf(s) == s.conn.eventCounter && s.mr0On && s.buf.current.Some?
    ensures Skips(s, e) && Deviates(s, [e] + [Match0(now)], n, h)
  {
    var t := Step(s, e);
    assert Following(s);
    RequestStep(s, e);
    ClaimedEvent(s, t, n, h);
    assert Skips(s, e);
    hide *;
    WrongCounter(t, now, n + 1, n, h.(updates := h.updates + UpdatesBy(s, e, n)));
    WrongLater(s, e, [Match0(now)], n + 1, n, h);
    WrongDeviates(s, [e] + [Match0(now)], n, h);
  }

  lemma ClaimedEvent(s: State, t: State, n: nat, h: History)
    requires Ready(s) && s.buf.main.Plain? && Scheduled(s, n, h) && Tuned(s)
    requires UpdateInstantOf(s) == s.conn.eventCounter
    requires t.conn == ConnectionUpdate(s.conn, HandledData(s)) && t.event == s.event
    ensures NextToTune(s, n) == n + 1 && Mr0Tunes(t) && t.conn.eventCounter != (n + 1) % U16
  {
    NextCounter(n);
    hide Extract, Ready, TableBefore;
  }

  /** An event whose connection update is moved away while its window is waited for is closed untuned. */
  lemma ReplacedDeviates(s: State, n: nat, h: History, e: Event, now: u32, later: u32)
    requires Inv(s) && Ready(s) && Enabled(s, e) && Scheduled(s, n, h) && Handles(s, e, UpdateReq)
    requires s.event.isOpen && !Tuned(s) && UpdateInstantOf(s) != s.conn.eventCounter
    requires s.mr0On && s.buf.current.Some?
    requires
      var t := Step(s, e);
      && !ClosingRetunes(t.(conn := MapApplied(t.conn)), now)
      && WillTune(ClosedConn(MapApplied(t.conn), t.event, now))
    ensures Skips(s, e) && Deviates(s, [e] + ([Match0(now)] + [Match0(later)]), n, h)
  {
    var t := Step(s, e);
    assert Following(s) && Skips(s, e);
    RequestStep(s, e);
    FreedEvent(s, t, n, h);
    Closes(t, now);
    var u := Step(t, Match0(now));
    AfterClosing(t, u, now, n);
    hide *;
    var g := h.(updates := h.updates + UpdatesBy(s, e, n));
    WrongCounter(u, later, n, n + 1, g.(updates := g.updates + UpdatesBy(t, Match0(now), n)));
    WrongLater(t, Match0(now), [Match0(later)], n, n, g);
    WrongLater(s, e, [Match0(now)] + [Match0(later)], n, n, h);
    WrongDeviates(s, [e] + ([Match0(now)] + [Match0(later)]), n, h);
  }

  /** The next timer match of a closed event tunes. */
  predicate WillTune(c: Conn) { !AtUpdateInstant(c) || c.winOffset == 0 }

  lemma FreedEvent(s: State, t: State, n: nat, h: History)
    requires Ready(s) && s.buf.main.Plain? && Scheduled(s, n, h) && s.event.isOpen && !Tuned(s)
    requires UpdateInstantOf(s) != s.conn.eventCounter
    requires t.conn == ConnectionUpdate(s.conn, HandledData(s)) && t.event == s.event
    ensures NextToTune(s, n) == n && !AtUpdateInstant(t.conn) && t.event.isOpen && t.conn.eventCounter == n % U16
  {
    hide Extract, Ready, TableBefore;
  }

  /** The state after an open event was closed: it tunes at its next match, as the next event. */
  lemma AfterClosing(t: State, u: State, now: u32, n: nat)
    requires Inv(t) && Ready(t) && t.mr0On && t.event.isOpen && !AtUpdateInstant(t.conn) && Following(t)
    requires !ClosingRetunes(t.(conn := MapApplied(t.conn)), now)
    requires Enabled(t, Match0(now)) && u == Step(t, Match0(now)) && t.conn.eventCounter == n % U16
    requires WillTune(ClosedConn(MapApplied(t.conn), t.event, now))
    ensures Inv(u) && Ready(u) && Following(u) && Keeps(t, Match0(now)) && Mr0Tunes(u)
    ensures u.conn.eventCounter == (n + 1) % U16 && u.conn.eventCounter != n % U16
  {
    Closes(t, now);
    StepKeeps(t, Match0(now));
    InvReady(u);
    NextCounter(n);
    CounterMoves(MapApplied(t.conn), t.event, now, n);
    SameAddress(MapApplied(t.conn), t.event, now);
    assert Following(u);
    OpeningKeeps(t, now);
    hide Inv, Ready, Enabled, Step, AnchorUpdated, Keeps;
  }

  /**
   The map request of the step names the instant of the open event, that event closes at the given time, and on the
   next channel the new map differs from the old one.
   */
  ghost predicate ClaimsMap(s: State, e: Event, n: nat, h: History, now: u32) {
    && Inv(s) && Ready(s) && Enabled(s, e) && Scheduled(s, n, h) && Handles(s, e, MapReq)
    && Tuned(s) && Extract(HandledData(s), 8, 2) == s.conn.eventCounter && s.mr0On && s.buf.current.Some?
    && var c := MapUpdate(s.conn, HandledData(s));
    && !ClosingRetunes(Step(s, e).(conn := MapApplied(c)), now)
    && WillTune(ClosedConn(MapApplied(c), s.event, now))
    && var idx := NextChannel(s.conn.channelIdx, s.conn.hopIncrement);
    && MappedPhys(idx, s.conn.remapping) != MappedPhys(idx, ParsedTable(HandledData(s)[3..8]))
  }

  lemma ClaimParts(s: State, e: Event, n: nat, h: History, now: u32)
    requires ClaimsMap(s, e, n, h, now)
    ensures Inv(s) && Ready(s) && Enabled(s, e) && Scheduled(s, n, h) && Handles(s, e, MapReq) && s.buf.main.Plain?
    ensures Tuned(s) && Extract(HandledData(s), 8, 2) == s.conn.eventCounter && s.mr0On && s.buf.current.Some?
    ensures Following(s)
    ensures
      var c := MapUpdate(s.conn, HandledData(s));
      && !ClosingRetunes(Step(s, e).(conn := MapApplied(c)), now)
      && WillTune(ClosedConn(MapApplied(c), s.event, now))
    ensures
      var idx := NextChannel(s.conn.channelIdx, s.conn.hopIncrement);
      MappedPhys(idx, s.conn.remapping) != MappedPhys(idx, ParsedTable(HandledData(s)[3..8]))
  {
    hide Inv, Ready, Enabled, Step, Extract, ParsedTable, MappedPhys, MapUpdate, MapApplied, ClosedConn, ClosingRetunes;
    hide WillTune, Tuned, OnPlan, KindOf;
  }

  /** The request and the closing of the event: the state in which the next event is tuned. */
  lemma LateMapTaken(s: State, n: nat, h: History, e: Event, now: u32) returns (v: State)
    requires ClaimsMap(s, e, n, h, now)
    ensures Ready(s) && Enabled(s, e) && Keeps(s, e) && !Tunes(s, e) && !Finishes(s, e) && NextToTune(s, n) == n + 1
    ensures Inv(s) && Scheduled(s, n, h) && s.conn.eventCounter == n % U16
    ensures
      var t := Step(s, e);
      && Inv(t) && Ready(t) && Enabled(t, Match0(now)) && Keeps(t, Match0(now))
      && !Tunes(t, Match0(now)) && Finishes(t, Match0(now)) && v == Step(t, Match0(now))
    ensures Inv(v) && Ready(v) && Following(v) && Mr0Tunes(v) && v.mr0On && v.buf.current.Some?
    ensures v.conn.channelIdx == s.conn.channelIdx && v.conn.hopIncrement == s.conn.hopIncrement
    ensures v.conn.remapping == ParsedTable(HandledData(s)[3..8]) && !v.conn.mapPending
  {
    ClaimParts(s, e, n, h, now);
    hide *;
    var t := Step(s, e);
    RequestStep(s, e);
    ClaimedMap(s, t, n, h);
    Closes(t, now);
    v := Step(t, Match0(now));
    AfterClosing(t, v, now, n);
    ClosingKeepsMap(MapApplied(t.conn), t.event, now);
    SameHop(t.conn);
  }

  /** The next event is tuned with the new map, but the old one is still due. */
  lemma LateMapWrong(s: State, n: nat, h: History, e: Event, now: u32, later: u32, v: State, u: Update)
    requires ClaimsMap(s, e, n, h, now) && Following(v)
    requires u.from == n + 1 && u.instant == n % U16
    requires Inv(v) && Ready(v) && v.mr0On && Mr0Tunes(v) && v.buf.current.Some? && !v.conn.mapPending
    requires v.conn.channelIdx == s.conn.channelIdx && v.conn.hopIncrement == s.conn.hopIncrement
    requires s.buf.main.Plain? && v.conn.remapping == ParsedTable(HandledData(s)[3..8])
    ensures OpensWrong(v, [Match0(later)], n + 1, n + 1, h.(updates := h.updates + [u]))
  {
    hide *;
    Opens(v, later);
    LateMapOpening(s, n, h, e, now, later, v, u);
    WrongNow(v, later, n + 1, n + 1, h.(updates := h.updates + [u]));
  }

  lemma LateMapOpening(s: State, n: nat, h: History, e: Event, now: u32, later: u32, v: State, u: Update)
    requires ClaimsMap(s, e, n, h, now) && Following(v)
    requires u.from == n + 1 && u.instant == n % U16
    requires Inv(v) && Ready(v) && v.mr0On && Mr0Tunes(v) && v.buf.current.Some? && !v.conn.mapPending
    requires v.conn.channelIdx == s.conn.channelIdx && v.conn.hopIncrement == s.conn.hopIncrement
    requires s.buf.main.Plain? && v.conn.remapping == ParsedTable(HandledData(s)[3..8])
    requires Enabled(v, Match0(later))
    ensures !OpensAs(OpeningOf(Step(v, Match0(later))), n + 1, h.(updates := h.updates + [u]))
  {
    ClaimParts(s, e, n, h, now);
    TunedOpen(s);
    SameMap(v.conn);
    hide *;
    Opens(v, later);
    WrongMap(s, v, Step(v, Match0(later)), n, h, u);
  }

  lemma TunedOpen(s: State)
    requires Tuned(s)
    ensures s.event.isOpen && TunedIn(s.conn, true)
  {}

  /** A channel map request for the open event is taken in when the event closes, 65536 events early. */
  lemma LateMapDeviates(s: State, n: nat, h: History, e: Event, now: u32, later: u32)
    requires ClaimsMap(s, e, n, h, now)
    ensures Ready(s) && Enabled(s, e) && Ready(Step(s, e)) && Misses(Step(s, e), Match0(now))
    ensures Deviates(s, [e] + ([Match0(now)] + [Match0(later)]), n, h)
  {
    ClaimParts(s, e, n, h, now);
    MapClaimed(s, e, now);
    hide *;
    var v := LateMapTaken(s, n, h, e, now);
    var t := Step(s, e);
    var u := TakenDown(s, e, n);
    var g := h.(updates := h.updates + [u]);
    LateMapWrong(s, n, h, e, now, later, v, u);
    NoneTakenDown(t, now, n);
    NoUpdates(g, []);
    WrongLater(t, Match0(now), [Match0(later)], n + 1, n, g);
    WrongLater(s, e, [Match0(now)] + [Match0(later)], n + 1, n, h);
    WrongDeviates(s, [e] + ([Match0(now)] + [Match0(later)]), n, h);
  }

  lemma MapClaimed(s: State, e: Event, now: u32)
    requires Inv(s) && Ready(s) && Enabled(s, e) && Handles(s, e, MapReq) && s.buf.main.Plain?
    requires Tuned(s) && Extract(HandledData(s), 8, 2) == s.conn.eventCounter
    ensures Ready(Step(s, e)) && Misses(Step(s, e), Match0(now))
  {
    RequestStep(s, e);
    hide Inv, Ready, Enabled, Step, Extract, ParsedTable, KindOf;
  }

  lemma ScheduledFollows(s: State, n: nat, h: History)
    requires Scheduled(s, n, h)
    ensures Following(s)
  {}

  lemma TakenDown(s: State, e: Event, n: nat) returns (u: Update)
    requires Ready(s) && Handles(s, e, MapReq)
    requires Tuned(s) && s.conn.eventCounter == n % U16 && Extract(HandledData(s), 8, 2) == s.conn.eventCounter
    ensures UpdatesBy(s, e, n) == [u] && u.from == n + 1 && u.instant == n % U16
  {
    u := UpdatesBy(s, e, n)[0];
    hide Extract, ParsedTable, Ready;
  }

  lemma NoneTakenDown(s: State, now: u32, n: nat)
    requires Ready(s)
    ensures UpdatesBy(s, Match0(now), n) == []
  {}

  lemma ClaimedMap(s: State, t: State, n: nat, h: History)
    requires Ready(s) && s.buf.main.Plain? && Scheduled(s, n, h) && Tuned(s)
    requires Extract(HandledData(s), 8, 2) == s.conn.eventCounter
    requires t.conn == MapUpdate(s.conn, HandledData(s)) && t.event == s.event
    ensures NextToTune(s, n) == n + 1 && t.event.isOpen && !AtUpdateInstant(t.conn) && TunedIn(s.conn, true)
    ensures t.conn.eventCounter == n % U16 && s.conn.eventCounter == n % U16 && t.conn.channelIdx == s.conn.channelIdx
    ensures t.conn.hopIncrement == s.conn.hopIncrement && t.conn.remapping == s.conn.remapping
    ensures MapApplied(t.conn).remapping == ParsedTable(HandledData(s)[3..8]) && !MapApplied(t.conn).mapPending
  {
    hide Extract, Ready, TableBefore, ParsedTable;
  }

  /** Closing an event keeps map, channel and increment. */
  lemma ClosingKeepsMap(c: Conn, e: ConnEvent, now: u32)
    ensures
      var d := ClosedConn(c, e, now);
      && d.channelIdx == c.channelIdx && d.hopIncrement == c.hopIncrement
      && d.remapping == c.remapping && d.mapPending == c.mapPending
  {
    hide ObservedAnchor;
  }

  lemma SameMap(c: Conn)
    ensures !c.mapPending ==> MapApplied(c) == c
  {}

  lemma SameHop(c: Conn)
    ensures MapApplied(c).channelIdx == c.channelIdx && MapApplied(c).hopIncrement == c.hopIncrement
  {}

  lemma WrongMap(s: State, v: State, w: State, n: nat, h: History, u: Update)
    requires Scheduled(s, n, h) && s.event.isOpen && TunedIn(s.conn, true) && Following(v)
    requires u.from == n + 1 && u.instant == n % U16
    requires w.conn.channelIdx < 37 && w.conn.remapping == v.conn.remapping
    requires w.rfChannel == MappedPhys(w.conn.channelIdx, w.conn.remapping)
    requires MappedPhys(w.conn.channelIdx, s.conn.remapping) != MappedPhys(w.conn.channelIdx, v.conn.remapping)
    ensures !OpensAs(OpeningOf(w), n + 1, h.(updates := h.updates + [u]))
  {
    OldTableStill(n, h, u);
    PlanTable(s.conn, n, h);
    hide Scheduled, TableAt, TableBefore, EventOf, MappedPhys, Tuned;
  }

  lemma PlanTable(c: Conn, n: nat, h: History)
    requires OnPlan(c, true, n, h) && TunedIn(c, true)
    ensures c.remapping == TableBefore(h.first, h.updates, n + 1)
  {
    hide TableBefore;
  }

  lemma OldTableStill(n: nat, h: History, u: Update)
    requires u.from == n + 1 && u.instant == n % U16
    ensures TableAt(h.first, h.updates + [u], n + 1) == TableBefore(h.first, h.updates, n + 1)
  {
    LaterThanBefore(h.first, h.updates, u, n + 1);
    NotTheNext(n);
    var us := h.updates + [u];
    assert us[|us| - 1] == u;
    TableStep(h.first, us, n + 1);
    hide TableAt, TableBefore, EventOf;
  }

  lemma NotTheNext(n: nat)
    ensures EventOf(n + 1, n % U16) != n + 1
  {
    NextCounter(n);
    hide EventOf;
  }

  /** A map update and a connection update are due, and the new map would lead elsewhere. */
  predicate BothDue(s: State) {
    && Mr0Tunes(s) && AtUpdateInstant(s.conn) && s.conn.mapPending && s.conn.mapInstant == s.conn.eventCounter
    && var idx := NextChannel(s.conn.channelIdx, s.conn.hopIncrement);
    MappedPhys(idx, s.conn.remapping) != MappedPhys(idx, s.conn.pendingRemapping)
  }

  /** Where a map update and a connection update share their instant, the event is opened with the old map. */
  lemma SharedInstantDeviates(s: State, n: nat, h: History, now: u32)
    requires Inv(s) && Ready(s) && Scheduled(s, n, h) && BothDue(s) && s.mr0On && s.buf.current.Some?
    ensures Misses(s, Match0(now)) && Deviates(s, [Match0(now)], n, h)
  {
    SharedInstantWrong(s, n, h, now);
    hide *;
    WrongDeviates(s, [Match0(now)], n, h);
  }

  lemma SharedInstantWrong(s: State, n: nat, h: History, now: u32)
    requires Inv(s) && Ready(s) && Scheduled(s, n, h) && BothDue(s) && s.mr0On && s.buf.current.Some?
    ensures Misses(s, Match0(now)) && NextToTune(s, n) == n && OpensWrong(s, [Match0(now)], n, n, h)
  {
    assert Mr0Tunes(s);
    assert Misses(s, Match0(now)) && Following(s);
    hide *;
    Opens(s, now);
    DueApart(s);
    PassedOver(s, Step(s, Match0(now)), n, h);
    WrongNow(s, now, n, n, h);
  }

  lemma DueApart(s: State)
    requires BothDue(s)
    ensures AtUpdateInstant(s.conn) && s.conn.mapPending && s.conn.mapInstant == s.conn.eventCounter
    ensures
      var idx := NextChannel(s.conn.channelIdx, s.conn.hopIncrement);
      MappedPhys(idx, s.conn.remapping) != MappedPhys(idx, s.conn.pendingRemapping)
  {}

  lemma PassedOver(s: State, t: State, n: nat, h: History)
    requires Scheduled(s, n, h) && AtUpdateInstant(s.conn)
    requires s.conn.mapPending && s.conn.mapInstant == s.conn.eventCounter
    requires t.conn.channelIdx < 37
    requires t.conn.remapping == s.conn.remapping && t.rfChannel == MappedPhys(t.conn.channelIdx, t.conn.remapping)
    requires MappedPhys(t.conn.channelIdx, s.conn.remapping) != MappedPhys(t.conn.channelIdx, s.conn.pendingRemapping)
    ensures NextToTune(s, n) == n && !OpensAs(OpeningOf(t), n, h)
  {
    EventIsNow(h.updates[|h.updates| - 1], n);
    TableStep(h.first, h.updates, n);
    hide TableAt, TableBefore, EventOf, MappedPhys;
  }
}
