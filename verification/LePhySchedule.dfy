/**
 The events of a followed connection: which event is on which channel, and with
 which channel map, as a closed form of the event's number.
 */
module LePhySchedule {
  import opened Bits
  import opened Channels
  import opened RingQueue
  import opened LePhy
  import opened LePhyBuffers
  import opened LePhyFraming
  import opened LePhyRuns

  // ----- channel map updates, by event number

  /** A channel map update: from is the number of the first event that was not yet tuned when it was handled. */
  datatype Update = Update(from: nat, instant: u16, table: Table)

  /** The first event from `from` on whose 16-bit counter is the instant. */
  function EventOf(from: nat, instant: u16): (k: nat)
    ensures k >= from && k % U16 == instant && k < from + U16
    ensures forall j :: from <= j < k ==> j % U16 != instant
  {
    var gap := if instant >= from % U16 then instant - from % U16 else instant + U16 - from % U16;
    CounterReaches(from, instant, gap);
    from + gap
  }

  lemma CounterReaches(from: nat, instant: u16, gap: nat)
    requires gap == if instant >= from % U16 then instant - from % U16 else instant + U16 - from % U16
    ensures (from + gap) % U16 == instant
    ensures forall j :: from <= j < from + gap ==> j % U16 != instant
  {}

  /**
   The map in use for event k: an update holds from its instant on. One that is handled before an earlier one
   has taken effect replaces it.
   */
  function TableAt(first: Table, us: seq<Update>, k: nat): Table
    decreases |us|
  {
    if us == [] then first
    else
      var u, before := us[|us| - 1], us[..|us| - 1];
      if k < u.from then TableAt(first, before, k)
      else if EventOf(u.from, u.instant) <= k then u.table
      else if u.from == 0 then first
      else TableAt(first, before, u.from - 1)
  }

  /** The map in use before event k. */
  function TableBefore(first: Table, us: seq<Update>, k: nat): Table {
    if k == 0 then first else TableAt(first, us, k - 1)
  }

  /** With one update: the old map before the instant, the new one from the instant on. */
  lemma OneUpdate(first: Table, u: Update, k: nat)
    ensures TableAt(first, [u], k) == if k < EventOf(u.from, u.instant) then first else u.table
  {
    assert [u][..0] == [];
    hide EventOf;
    assert TableAt(first, [], k) == first;
    if u.from > 0 {
      assert TableAt(first, [], u.from - 1) == first;
    }
  }

  /** From one event to the next the map changes exactly at the instant of the last update. */
  lemma TableStep(first: Table, us: seq<Update>, k: nat)
    requires us != [] ==> us[|us| - 1].from <= k
    ensures TableAt(first, us, k) ==
      if us != [] && EventOf(us[|us| - 1].from, us[|us| - 1].instant) == k then us[|us| - 1].table
      else TableBefore(first, us, k)
  {
    hide EventOf;
  }

  /** Updates handled later do not matter for earlier events. */
  lemma {:induction false} LaterUpdates(first: Table, us: seq<Update>, vs: seq<Update>, k: nat)
    requires forall i :: 0 <= i < |vs| ==> k < vs[i].from
    ensures TableAt(first, us + vs, k) == TableAt(first, us, k)
    decreases |vs|
  {
    if vs == [] {
      assert us + vs == us;
    } else {
      var n := |vs| - 1;
      assert us + vs == (us + vs[..n]) + [vs[n]];
      assert ((us + vs[..n]) + [vs[n]])[..|us| + n] == us + vs[..n];
      LaterUpdates(first, us, vs[..n], k);
    }
  }

  // ----- the schedule

  /** What a connection starts with, and the updates of its map so far. */
  datatype History = History(hop: nat, first: Table, updates: seq<Update>)

  /** The radio is on the channel of the current event: it is open, and not just waiting for a transmit window. */
  predicate TunedIn(c: Conn, isOpen: bool) { isOpen && !AtUpdateInstant(c) }

  predicate Tuned(s: State) { TunedIn(s.conn, s.event.isOpen) }

  /** The number of the next event to be tuned, when n events are finished. */
  function NextIn(c: Conn, isOpen: bool, n: nat): nat { if TunedIn(c, isOpen) then n + 1 else n }

  function NextToTune(s: State, n: nat): nat { NextIn(s.conn, s.event.isOpen, n) }

  /** The last update handled is the pending one if there is one, and otherwise in effect already. */
  ghost predicate PendingAsHandled(c: Conn, next: nat, us: seq<Update>) {
    && (us != [] ==> us[|us| - 1].from <= next)
    && (if c.mapPending
        then us != [] && us[|us| - 1].instant == c.mapInstant && us[|us| - 1].table == c.pendingRemapping
             && EventOf(us[|us| - 1].from, us[|us| - 1].instant) >= next
        else us != [] ==> EventOf(us[|us| - 1].from, us[|us| - 1].instant) < next)
  }

  /** The connection is where the closed form says after n finished events. */
  ghost predicate OnPlan(c: Conn, isOpen: bool, n: nat, h: History) {
    var next := NextIn(c, isOpen, n);
    && c.eventCounter == n % U16 && c.hopIncrement == h.hop
    && c.channelIdx == next * h.hop % 37
    && c.remapping == TableBefore(h.first, h.updates, next)
    && PendingAsHandled(c, next, h.updates)
  }

  ghost predicate Scheduled(s: State, n: nat, h: History) {
    Following(s) && OnPlan(s.conn, s.event.isOpen, n, h)
  }

  /** The packet a step hands to the packet handler, if it does. */
  predicate Handles(s: State, e: Event, kind: Kind)
    requires Ready(s)
  {
    e.Loop? && e.passes && s.buf.main.Plain? && KindOf(s.buf.pool[s.buf.main.buf]) == kind
  }

  function HandledData(s: State): Bytes
    requires Ready(s) && s.buf.main.Plain?
  {
    s.buf.pool[s.buf.main.buf].data
  }

  predicate EndsDataPacket(s: State, e: Event)
    requires Ready(s) && Enabled(s, e)
  {
    e.Byte? && PacketDoneIn(StoreByte(s, e.now, e.value).buf) && OnDataChannel(s)
  }

  function UpdateInstantOf(s: State): u16
    requires Ready(s) && s.buf.main.Plain?
  {
    Extract(HandledData(s), 12, 2)
  }

  /** The connection is neither given up nor made anew. */
  predicate Keeps(s: State, e: Event)
    requires Ready(s) && Enabled(s, e)
  {
    && Following(s) && Following(Step(s, e))
    && (Handles(s, e, ConnectReq) ==> !e.doFollow || s.buf.pool[s.buf.main.buf].size != 39)
  }

  /**
   The step makes tunings and events fall apart: the second packet of an event ends when the radio is not tuned to
   it, or a connection update in an open event names the instant of that event after it was tuned, or takes it away
   before.
   */
  predicate Skips(s: State, e: Event)
    requires Ready(s) && Enabled(s, e)
  {
    || (EndsDataPacket(s, e) && s.event.numPackets == 1 && !Tuned(s))
    || (Handles(s, e, UpdateReq) && s.event.isOpen && ((UpdateInstantOf(s) == s.conn.eventCounter) == Tuned(s)))
  }

  /**
   The step gets the channel map wrong: at the instant of the pending map the timer handler passes it over in favour
   of a connection update, or it is only now taken in, when the event closes.
   */
  predicate Misses(s: State, e: Event) {
    && e.Match0? && s.conn.mapPending && s.conn.mapInstant == s.conn.eventCounter
    && (if AtUpdateInstant(s.conn) then !WaitsForWindow(s) else s.event.isOpen)
  }

  /** Exactly what the schedule asks of a step beyond being possible. */
  predicate Orderly(s: State, e: Event)
    requires Ready(s) && Enabled(s, e)
  {
    Keeps(s, e) && !Skips(s, e) && !Misses(s, e)
  }

  predicate Finishes(s: State, e: Event)
    requires Ready(s) && Enabled(s, e)
  {
    || (EndsDataPacket(s, e) && s.event.numPackets == 1)
    || (e.Match0? && !AtUpdateInstant(s.conn) && s.event.isOpen)
  }

  predicate Tunes(s: State, e: Event) { e.Match0? && Mr0Tunes(s) }

  function UpdatesBy(s: State, e: Event, n: nat): seq<Update>
    requires Ready(s)
  {
    if Handles(s, e, MapReq)
    then [Update(NextToTune(s, n), Extract(HandledData(s), 8, 2), ParsedTable(HandledData(s)[3..8]))]
    else []
  }

  // ----- a step keeps the schedule

  lemma HopOn(n: nat, hop: nat)
    ensures (n * hop % 37 + hop) % 37 == (n + 1) * hop % 37
  {
    assert (n + 1) * hop == n * hop + hop;
  }

  /** What happens to the connection when the next event is tuned. */
  function TunedConn(c: Conn): Conn {
    Hopped(if AtUpdateInstant(c) then UpdateApplied(c) else MapApplied(c))
  }

  /** Tuning the next event keeps the plan exactly when no map that is due is passed over. */
  lemma TuningExact(c: Conn, isOpen: bool, n: nat, h: History)
    requires OnPlan(c, isOpen, n, h) && !TunedIn(c, isOpen)
    ensures
      var d := TunedConn(c);
      var passedOver := AtUpdateInstant(c) && c.mapPending && c.mapInstant == c.eventCounter;
      && TunedIn(d, true)
      && (OnPlan(d, true, n, h) <==> !passedOver)
      && d.channelIdx == (n + 1) * h.hop % 37
      && (!passedOver ==> d.remapping == TableAt(h.first, h.updates, n))
  {
    HopOn(n, h.hop);
    TableStep(h.first, h.updates, n);
    assert TableBefore(h.first, h.updates, n + 1) == TableAt(h.first, h.updates, n);
    if c.mapPending && c.mapInstant == c.eventCounter {
      EventIsNow(h.updates[|h.updates| - 1], n);
    }
    if c.mapPending && EventOf(h.updates[|h.updates| - 1].from, c.mapInstant) == n {
      assert c.mapInstant == c.eventCounter;
    }
    hide TableAt, TableBefore, EventOf;
  }

  /** Tuning the next event. */
  lemma TunesExact(s: State, n: nat, h: History, now: u32)
    requires Scheduled(s, n, h) && CanMr0(s, now) && Mr0Tunes(s)
    ensures
      var t := Mr0(s, now);
      && Tuned(t) && NextToTune(s, n) == n
      && (Scheduled(t, n, h) <==> !Misses(s, Match0(now)))
      && t.conn.channelIdx == (n + 1) * h.hop % 37
      && (Scheduled(t, n, h) ==> t.rfChannel == MappedPhys(t.conn.channelIdx, TableAt(h.first, h.updates, n)))
  {
    TuningExact(s.conn, s.event.isOpen, n, h);
    hide ClearCurrent, MappedPhys, TableAt, EventOf, OnPlan, MapApplied, UpdateApplied;
    var t := Mr0(s, now);
    assert t.conn == TunedConn(s.conn) && t.event.isOpen;
  }

  /** The first event at the instant is n, when it is not before n and n has the instant's counter value. */
  lemma EventIsNow(u: Update, n: nat)
    requires u.from <= n <= EventOf(u.from, u.instant) && n % U16 == u.instant
    ensures EventOf(u.from, u.instant) == n
  {}

  /** What closing an event does to the connection. */
  function ClosedConn(c: Conn, e: ConnEvent, now: u32): Conn {
    var d := AnchorUpdated(c, e, now);
    d.(eventCounter := (d.eventCounter + 1) % U16)
  }

  lemma ClosingKeepsPlan(c: Conn, e: ConnEvent, n: nat, h: History, now: u32)
    requires OnPlan(c, true, n, h) && TunedIn(c, true)
    ensures OnPlan(ClosedConn(c, e, now), false, n + 1, h)
  {
    hide TableAt, TableBefore, EventOf, ObservedAnchor;
  }

  /** Closing an event without losing the connection. */
  lemma FinishOnSchedule(s: State, n: nat, h: History, now: u32)
    requires Scheduled(s, n, h) && Tuned(s)
    requires ClosingRetunes(s, now) ==> s.buf.current.Some? && s.buf.current.value < |s.buf.pool|
    requires Following(FinishConnEvent(s, now))
    ensures Scheduled(FinishConnEvent(s, now), n + 1, h) && !Tuned(FinishConnEvent(s, now))
  {
    hide ClearCurrent, OnPlan, AnchorUpdated, MappedPhys;
    ClosingKeepsPlan(s.conn, s.event, n, h, now);
    assert Closed(s, now).conn == ClosedConn(s.conn, s.event, now);
  }

  /** A byte keeps the schedule exactly when it does not end a second packet untuned. */
  lemma ByteExact(s: State, n: nat, h: History, e: Event)
    requires Ready(s) && e.Byte? && Enabled(s, e) && Keeps(s, e) && Scheduled(s, n, h)
    ensures OnCourse(s, e, n, h) <==> !Skips(s, e)
  {
    hide OnPlan, WithByte, GetCurrent, EnqueueCurrent, FinishConnEvent, CanReceive, ClosingRetunes, PacketDone;
    hide TunedIn, AtUpdateInstant, Hopped;
    var t := StoreByte(s, e.now, e.value);
    assert t.conn == s.conn && t.event == s.event && t.rfChannel == s.rfChannel;
    assert h.updates + [] == h.updates;
    if PacketDoneIn(t.buf) {
      if IsSecond(t) {
        var u := AfterSecond(t);
        assert u.conn == s.conn && u.event.isOpen == s.event.isOpen;
        CurrentBound(EnqueueCurrent(t.buf));
        FinishCounts(u, n, e.now);
        if Tuned(s) {
          FinishOnSchedule(u, n, h, e.now);
        }
      }
    }
  }

  /** Closing an event counts it; it is the next one to tune then, whether it was tuned or not. */
  lemma FinishCounts(s: State, n: nat, now: u32)
    requires ClosingRetunes(s, now) ==> s.buf.current.Some? && s.buf.current.value < |s.buf.pool|
    requires Following(FinishConnEvent(s, now))
    ensures NextToTune(FinishConnEvent(s, now), n + 1) == n + 1
    ensures NextToTune(s, n) == n + 1 <==> Tuned(s)
  {
    hide ClearCurrent, AnchorUpdated;
  }

  lemma CurrentBound(b: Buffers)
    ensures GetCurrent(b).current.Some? ==> GetCurrent(b).current.value < |GetCurrent(b).pool|
  {}

  /** A timer match that does not tune keeps the schedule exactly when it does not take in a map too late. */
  lemma Mr0Exact(s: State, n: nat, h: History, e: Event)
    requires Ready(s) && e.Match0? && Enabled(s, e) && Keeps(s, e) && Scheduled(s, n, h) && !Tunes(s, e)
    ensures OnCourse(s, e, n, h) <==> !Misses(s, e)
  {
    assert h.updates + [] == h.updates;
    if Finishes(s, e) {
      var u := s.(conn := MapApplied(s.conn));
      assert u == s || Misses(s, e);
      FinishExact(s, n, h, e.now);
      hide OnPlan, FinishConnEvent, ClosingRetunes;
    } else {
      WindowOnPlan(s.conn, n, h);
      hide OnPlan, FinishConnEvent, ClosingRetunes;
    }
  }

  /** Waiting for a window leaves the plan as it is. */
  lemma WindowOnPlan(c: Conn, n: nat, h: History)
    requires AtUpdateInstant(c)
    ensures OnPlan(c, true, n, h) == OnPlan(c, false, n, h)
  {}

  lemma FinishExact(s: State, n: nat, h: History, now: u32)
    requires Scheduled(s, n, h) && Tuned(s)
    requires
      var u := s.(conn := MapApplied(s.conn));
      && (ClosingRetunes(u, now) ==> s.buf.current.Some? && s.buf.current.value < |s.buf.pool|)
      && Following(FinishConnEvent(u, now))
    ensures
      var t := FinishConnEvent(s.(conn := MapApplied(s.conn)), now);
      && NextToTune(t, n + 1) == n + 1
      && (Scheduled(t, n + 1, h) <==> !(s.conn.mapPending && s.conn.mapInstant == s.conn.eventCounter))
  {
    var u := s.(conn := MapApplied(s.conn));
    FinishCounts(u, n, now);
    if s.conn.mapPending && s.conn.mapInstant == s.conn.eventCounter {
      LateMapOffPlan(s.conn, s.event, n, h, now);
      hide OnPlan, AnchorUpdated, ClearCurrent;
      assert Closed(u, now).conn == ClosedConn(u.conn, s.event, now);
    } else {
      assert u == s;
      FinishOnSchedule(s, n, h, now);
    }
  }

  lemma LateMapOffPlan(c: Conn, e: ConnEvent, n: nat, h: History, now: u32)
    requires OnPlan(c, true, n, h) && TunedIn(c, true) && c.mapPending && c.mapInstant == c.eventCounter
    ensures !OnPlan(ClosedConn(MapApplied(c), e, now), false, n + 1, h)
  {
    hide TableAt, TableBefore, EventOf, ObservedAnchor;
  }

  /** A channel map request is always taken down as the last update. */
  lemma MapUpdateKeepsPlan(c: Conn, isOpen: bool, n: nat, h: History, data: Bytes)
    requires OnPlan(c, isOpen, n, h)
    ensures
      var u := Update(NextIn(c, isOpen, n), Extract(data, 8, 2), ParsedTable(data[3..8]));
      OnPlan(MapUpdate(c, data), isOpen, n, h.(updates := h.updates + [u]))
    ensures NextIn(MapUpdate(c, data), isOpen, n) == NextIn(c, isOpen, n)
  {
    var next := NextIn(c, isOpen, n);
    var u := Update(next, Extract(data, 8, 2), ParsedTable(data[3..8]));
    var us := h.updates + [u];
    LaterThanBefore(h.first, h.updates, u, next);
    assert us[|us| - 1] == u;
    hide TableAt, TableBefore, Extract, ParsedTable;
  }

  /** A connection update leaves the next event to tune alone exactly when it neither claims nor frees the open one. */
  lemma UpdateReqExact(c: Conn, isOpen: bool, n: nat, h: History, data: Bytes)
    requires OnPlan(c, isOpen, n, h)
    ensures
      var d := ConnectionUpdate(c, data);
      && (NextIn(d, isOpen, n) == NextIn(c, isOpen, n)
          <==> !(isOpen && ((Extract(data, 12, 2) == c.eventCounter) == TunedIn(c, isOpen))))
      && (NextIn(d, isOpen, n) == NextIn(c, isOpen, n) ==> OnPlan(d, isOpen, n, h))
  {
    hide TableAt, TableBefore, Extract, EventOf;
  }

  /** What a step of the main loop does to the connection, when it handles no CONNECT_REQ. */
  lemma LoopConn(s: State, e: Event)
    requires Ready(s) && e.Loop?
    requires Handles(s, e, ConnectReq) ==> !e.doFollow || s.buf.pool[s.buf.main.buf].size != 39
    ensures MainStep(s, e.passes, e.doFollow).event == s.event
    ensures MainStep(s, e.passes, e.doFollow).conn ==
      if Handles(s, e, MapReq) then MapUpdate(s.conn, HandledData(s))
      else if Handles(s, e, UpdateReq) then ConnectionUpdate(s.conn, HandledData(s))
      else s.conn
  {
    MainStepConn(s, e.passes, e.doFollow);
    hide Ready, MapUpdate, ConnectionUpdate, KindOf, PacketHandler, MainStep;
    if s.buf.main.Plain? && e.passes {
      HandlerConn(s.(buf := s.buf.(main := Handled(s.buf.main.buf))), s.buf.pool[s.buf.main.buf], e.doFollow);
    }
  }

  lemma MainStepConn(s: State, passes: bool, doFollow: bool)
    requires Ready(s)
    ensures s.buf.main.Plain? && passes ==>
      MainStep(s, passes, doFollow)
      == PacketHandler(s.(buf := s.buf.(main := Handled(s.buf.main.buf))), s.buf.pool[s.buf.main.buf], doFollow)
    ensures !(s.buf.main.Plain? && passes) ==>
      MainStep(s, passes, doFollow).conn == s.conn && MainStep(s, passes, doFollow).event == s.event
  {
    hide PacketHandler, DewhitenedBuf, CanReceive;
  }

  lemma HandlerConn(s: State, b: RxBuf, doFollow: bool)
    requires KindOf(b) == ConnectReq ==> !doFollow || b.size != 39
    ensures PacketHandler(s, b, doFollow).event == s.event
    ensures PacketHandler(s, b, doFollow).conn ==
      match KindOf(b)
      case MapReq => MapUpdate(s.conn, b.data)
      case UpdateReq => ConnectionUpdate(s.conn, b.data)
      case _ => s.conn
  {
    hide MapUpdate, ConnectionUpdate, KindOf;
  }

  lemma LoopExact(s: State, n: nat, h: History, e: Event)
    requires Ready(s) && e.Loop? && Enabled(s, e) && Keeps(s, e) && Scheduled(s, n, h)
    ensures OnCourse(s, e, n, h) <==> !Skips(s, e)
  {
    LoopConn(s, e);
    assert Step(s, e) == MainStep(s, e.passes, e.doFollow);
    hide MainStep;
    hide OnPlan, Extract, ParsedTable, CanReceive, Step, CanMain, MapUpdate, ConnectionUpdate, KindOf;
    assert h.updates + [] == h.updates;
    if Handles(s, e, MapReq) {
      MapUpdateKeepsPlan(s.conn, s.event.isOpen, n, h, HandledData(s));
    } else if Handles(s, e, UpdateReq) {
      UpdateReqExact(s.conn, s.event.isOpen, n, h, HandledData(s));
    }
  }

  lemma LaterThanBefore(first: Table, us: seq<Update>, u: Update, k: nat)
    requires u.from == k
    ensures TableBefore(first, us + [u], k) == TableBefore(first, us, k)
  {
    if k > 0 {
      LaterUpdates(first, us, [u], k - 1);
    }
  }

  /** After the step the connection is on schedule again, and one event further exactly if the step tuned one. */
  ghost predicate OnCourse(s: State, e: Event, n: nat, h: History)
    requires Ready(s) && Enabled(s, e)
  {
    var t, m := Step(s, e), if Finishes(s, e) then n + 1 else n;
    && Scheduled(t, m, h.(updates := h.updates + UpdatesBy(s, e, n)))
    && NextToTune(t, m) == NextToTune(s, n) + if Tunes(s, e) then 1 else 0
  }

  /** A step that keeps the connection keeps the schedule exactly when it is orderly. */
  lemma StepExact(s: State, n: nat, h: History, e: Event)
    requires Ready(s) && Enabled(s, e) && Keeps(s, e) && Scheduled(s, n, h)
    ensures OnCourse(s, e, n, h) <==> Orderly(s, e)
  {
    match e
    case Byte(_, _) =>
      ByteExact(s, n, h, e);
      hide OnCourse, Skips, Keeps;
    case Match0(now) =>
      assert !Skips(s, e);
      if Tunes(s, e) {
        TunesAlone(s);
        TunesExact(s, n, h, now);
        assert h.updates + [] == h.updates;
        hide Scheduled, Mr0, Mr0Tunes, Skips, Misses, Keeps;
      } else {
        Mr0Exact(s, n, h, e);
        hide OnCourse, Skips, Misses, Keeps;
      }
    case Loop(_, _) =>
      LoopExact(s, n, h, e);
      hide OnCourse, Skips, Keeps;
    case _ =>
      TimerOnSchedule(s, n, h, e);
      assert h.updates + [] == h.updates;
      hide Scheduled, Keeps;
  }

  /**
   Tunings and events stay in step exactly when the step does not skip: the next event to be tuned moves on by one if
   the step tunes and stays otherwise, whatever the step finishes.
   */
  lemma CountExact(s: State, e: Event, n: nat)
    requires Ready(s) && Enabled(s, e) && Keeps(s, e)
    ensures
      var m := if Finishes(s, e) then n + 1 else n;
      NextToTune(Step(s, e), m) == NextToTune(s, n) + (if Tunes(s, e) then 1 else 0) <==> !Skips(s, e)
  {
    hide Ready, Enabled, Keeps, Skips, Step, NextToTune, Finishes, Mr0Tunes;
    match e
    case Byte(_, _) => ByteCounts(s, e, n);
    case Match0(_) => Mr0Counts(s, e, n);
    case _ => LoopCounts(s, e, n);
  }

  lemma Mr0Counts(s: State, e: Event, n: nat)
    requires Ready(s) && e.Match0? && Enabled(s, e) && Keeps(s, e)
    ensures !Skips(s, e)
    ensures
      NextToTune(Step(s, e), if Finishes(s, e) then n + 1 else n)
      == NextToTune(s, n) + if Tunes(s, e) then 1 else 0
  {
    if Tunes(s, e) {
      TunesAlone(s);
      TuningTunes(s, e.now);
      hide CanMr0, Mr0Tunes, Mr0;
    } else if Finishes(s, e) {
      FinishCounts(s.(conn := MapApplied(s.conn)), n, e.now);
      hide CanMr0, FinishConnEvent, ClosingRetunes;
    } else {
      hide CanMr0, FinishConnEvent, ClosingRetunes;
    }
  }

  lemma TuningTunes(s: State, now: u32)
    requires CanMr0(s, now) && Mr0Tunes(s) && Following(s)
    ensures Tuned(Mr0(s, now)) && !Tuned(s)
  {
    hide ClearCurrent, MappedPhys;
  }

  lemma LoopCounts(s: State, e: Event, n: nat)
    requires Ready(s) && !e.Byte? && !e.Match0? && Enabled(s, e) && Keeps(s, e)
    ensures !Finishes(s, e) && !Tunes(s, e)
    ensures NextToTune(Step(s, e), n) == NextToTune(s, n) <==> !Skips(s, e)
  {
    if e.Loop? {
      LoopConn(s, e);
      assert Step(s, e) == MainStep(s, e.passes, e.doFollow);
      RequestCounts(s.conn, s.event.isOpen, n, if s.buf.main.Plain? then HandledData(s) else NoBytes());
      hide MainStep, KindOf, MapUpdate, ConnectionUpdate, Extract, Step, Ready, Enabled, NoBytes;
    } else {
      hide GetCurrent;
    }
  }

  lemma ByteCounts(s: State, e: Event, n: nat)
    requires Ready(s) && e.Byte? && Enabled(s, e) && Keeps(s, e)
    ensures
      NextToTune(Step(s, e), if Finishes(s, e) then n + 1 else n) == NextToTune(s, n) <==> !Skips(s, e)
  {
    hide WithByte, GetCurrent, EnqueueCurrent, FinishConnEvent, CanReceive, ClosingRetunes, PacketDone;
    hide AtUpdateInstant, Hopped;
    var t := StoreByte(s, e.now, e.value);
    assert t.conn == s.conn && t.event == s.event && t.rfChannel == s.rfChannel;
    if PacketDoneIn(t.buf) && IsSecond(t) {
      var u := AfterSecond(t);
      assert u.conn == s.conn && u.event.isOpen == s.event.isOpen;
      CurrentBound(EnqueueCurrent(t.buf));
      FinishCounts(u, n, e.now);
    }
  }

  /** A map request changes no count; a connection update does when it claims the open event or takes it away. */
  lemma RequestCounts(c: Conn, isOpen: bool, n: nat, data: Bytes)
    ensures NextIn(MapUpdate(c, data), isOpen, n) == NextIn(c, isOpen, n)
    ensures NextIn(ConnectionUpdate(c, data), isOpen, n) == NextIn(c, isOpen, n)
      <==> !(isOpen && ((Extract(data, 12, 2) == c.eventCounter) == TunedIn(c, isOpen)))
  {
    hide Extract, ParsedTable;
  }

  lemma TunesAlone(s: State)
    requires Mr0Tunes(s)
    ensures !AtUpdateInstant(s.conn) ==> !s.event.isOpen
  {}

  /** The other steps change neither the connection nor the event. */
  lemma TimerOnSchedule(s: State, n: nat, h: History, e: Event)
    requires Ready(s) && (e.Match2? || e.Match3? || e.Cancel?) && Enabled(s, e) && Scheduled(s, n, h)
    ensures Scheduled(Step(s, e), n, h) && NextToTune(Step(s, e), n) == NextToTune(s, n)
  {
    hide TableBefore, EventOf, GetCurrent;
  }

  // ----- runs

  /** Every step of the run keeps the connection. */
  ghost predicate KeptRun(s: State, es: seq<Event>)
    requires Inv(s) && Possible(s, es)
    decreases |es|
  {
    es == [] ||
    (InvReady(s); StepKeeps(s, es[0]); Keeps(s, es[0]) && KeptRun(Step(s, es[0]), es[1..]))
  }

  ghost predicate OrderlyRun(s: State, es: seq<Event>)
    requires Inv(s) && Possible(s, es)
    decreases |es|
  {
    es == [] ||
    (InvReady(s); StepKeeps(s, es[0]); Orderly(s, es[0]) && OrderlyRun(Step(s, es[0]), es[1..]))
  }

  /** Every step of the run leaves the connection on schedule. */
  ghost predicate StaysOnCourse(s: State, es: seq<Event>, n: nat, h: History)
    requires Inv(s) && Possible(s, es)
    decreases |es|
  {
    es == [] ||
    (InvReady(s); StepKeeps(s, es[0]);
     OnCourse(s, es[0], n, h)
     && StaysOnCourse(Step(s, es[0]), es[1..], if Finishes(s, es[0]) then n + 1 else n,
                      h.(updates := h.updates + UpdatesBy(s, es[0], n))))
  }

  /** A run that keeps the connection stays on schedule exactly when no step of it skips an event or misses a map. */
  lemma {:induction false} RunExact(s: State, es: seq<Event>, n: nat, h: History)
    requires Inv(s) && Possible(s, es) && KeptRun(s, es) && Scheduled(s, n, h)
    ensures StaysOnCourse(s, es, n, h) <==> OrderlyRun(s, es)
    decreases |es|
  {
    if es != [] {
      InvReady(s);
      StepKeeps(s, es[0]);
      StepExact(s, n, h, es[0]);
      if OnCourse(s, es[0], n, h) {
        CourseScheduled(s, es[0], n, h);
        RunExact(Step(s, es[0]), es[1..], if Finishes(s, es[0]) then n + 1 else n,
                 h.(updates := h.updates + UpdatesBy(s, es[0], n)));
      }
      hide Inv, Ready, Enabled, Orderly, OnCourse, Scheduled, Step, UpdatesBy, Finishes, Keeps;
    }
  }

  lemma CourseScheduled(s: State, e: Event, n: nat, h: History)
    requires Ready(s) && Enabled(s, e) && OnCourse(s, e, n, h)
    ensures Scheduled(Step(s, e), if Finishes(s, e) then n + 1 else n, h.(updates := h.updates + UpdatesBy(s, e, n)))
    ensures NextToTune(Step(s, e), if Finishes(s, e) then n + 1 else n)
      == NextToTune(s, n) + if Tunes(s, e) then 1 else 0
  {
    hide Scheduled, Step, Finishes, UpdatesBy, NextToTune, Tunes;
  }

  /** What the radio is tuned to: the event counter, the unmapped channel, and the frequency. */
  datatype Opening = Opening(counter: u16, channelIdx: u8, frequency: u16)

  function OpeningOf(t: State): Opening { Opening(t.conn.eventCounter, t.conn.channelIdx, t.rfChannel) }

  /** All tunings of a run to data channels, in order. */
  ghost function Openings(s: State, es: seq<Event>): seq<Opening>
    requires Inv(s) && Possible(s, es)
    decreases |es|
  {
    if es == [] then []
    else
      InvReady(s); StepKeeps(s, es[0]);
      var t := Step(s, es[0]);
      (if Tunes(s, es[0]) then [OpeningOf(t)] else []) + Openings(t, es[1..])
  }

  /** All channel map updates handled in a run that starts with n events finished. */
  ghost function Updates(s: State, es: seq<Event>, n: nat): seq<Update>
    requires Inv(s) && Possible(s, es)
    decreases |es|
  {
    if es == [] then []
    else
      InvReady(s); StepKeeps(s, es[0]);
      UpdatesBy(s, es[0], n) + Updates(Step(s, es[0]), es[1..], if Finishes(s, es[0]) then n + 1 else n)
  }

  /** How many events end in a run. */
  ghost function Ended(s: State, es: seq<Event>): nat
    requires Inv(s) && Possible(s, es)
    decreases |es|
  {
    if es == [] then 0
    else InvReady(s); StepKeeps(s, es[0]); (if Finishes(s, es[0]) then 1 else 0) + Ended(Step(s, es[0]), es[1..])
  }

  /** The closed form: what event k is tuned to. */
  ghost predicate OpensAs(o: Opening, k: nat, h: History) {
    && o.counter == k % U16
    && o.channelIdx == (k + 1) * h.hop % 37
    && o.frequency == MappedPhys(o.channelIdx, TableAt(h.first, h.updates, k))
  }

  /** These tunings are those of the events from k on. */
  ghost predicate AllOpenAs(os: seq<Opening>, k: nat, h: History) {
    forall i :: 0 <= i < |os| ==> OpensAs(os[i], k + i, h)
  }

  ghost predicate AllFrom(us: seq<Update>, k: nat) {
    forall i :: 0 <= i < |us| ==> k <= us[i].from
  }

  lemma OneMoreOpening(o: Opening, os: seq<Opening>, k: nat, h: History)
    requires OpensAs(o, k, h) && AllOpenAs(os, k + 1, h)
    ensures AllOpenAs([o] + os, k, h)
  {
    hide OpensAs;
    forall i | 0 <= i < |[o] + os| ensures OpensAs(([o] + os)[i], k + i, h) {
      if i > 0 {
        assert OpensAs(os[i - 1], k + 1 + (i - 1), h);
      }
    }
  }

  /** Every tuning of an orderly run is the one of the closed form, counting from the next event to be tuned. */
  lemma {:induction false} RunOnSchedule(s: State, es: seq<Event>, n: nat, h: History)
    requires Inv(s) && Possible(s, es) && OrderlyRun(s, es) && Scheduled(s, n, h)
    ensures AllFrom(Updates(s, es, n), NextToTune(s, n))
    ensures AllOpenAs(Openings(s, es), NextToTune(s, n), h.(updates := h.updates + Updates(s, es, n)))
    decreases |es|
  {
    hide Inv, Ready, Enabled, Orderly, OnCourse, Keeps, Scheduled, Step, OpensAs;
    hide NextToTune, UpdatesBy, Finishes, Tunes;
    if es != [] {
      var e := es[0];
      InvReady(s);
      StepKeeps(s, e);
      OrderlyKeeps(s, e);
      StepExact(s, n, h, e);
      CourseScheduled(s, e, n, h);
      var t, m := Step(s, e), if Finishes(s, e) then n + 1 else n;
      var g := h.(updates := h.updates + UpdatesBy(s, e, n));
      RunOnSchedule(t, es[1..], m, g);
      var later := Updates(t, es[1..], m);
      assert g.updates + later == h.updates + Updates(s, es, n);
      UpdatesFrom(s, e, n);
      if Tunes(s, e) {
        TuningIsAll(s, e, n);
        assert h.updates + [] == h.updates;
        assert g == h;
        FirstOpening(s, e, n, h, later);
        OneMoreOpening(OpeningOf(t), Openings(t, es[1..]), NextToTune(s, n), h.(updates := h.updates + later));
      } else {
        assert Openings(s, es) == Openings(t, es[1..]);
      }
    }
  }

  /** In an orderly run the events that end and the tunings stay in step: each event is tuned once. */
  lemma {:induction false} EveryEventTuned(s: State, es: seq<Event>, n: nat, h: History)
    requires Inv(s) && Possible(s, es) && OrderlyRun(s, es) && Scheduled(s, n, h)
    ensures NextToTune(Run(s, es), n + Ended(s, es)) == NextToTune(s, n) + |Openings(s, es)|
    decreases |es|
  {
    hide Inv, Ready, Enabled, Orderly, OnCourse, Keeps, Scheduled, Step, NextToTune, UpdatesBy, Finishes, Tunes;
    if es != [] {
      var e := es[0];
      InvReady(s);
      StepKeeps(s, e);
      OrderlyKeeps(s, e);
      StepExact(s, n, h, e);
      CourseScheduled(s, e, n, h);
      EveryEventTuned(Step(s, e), es[1..], if Finishes(s, e) then n + 1 else n,
                      h.(updates := h.updates + UpdatesBy(s, e, n)));
    }
  }

  lemma OrderlyKeeps(s: State, e: Event)
    requires Ready(s) && Enabled(s, e) && Orderly(s, e)
    ensures Keeps(s, e)
  {}

  lemma TuningIsAll(s: State, e: Event, n: nat)
    requires Ready(s) && Enabled(s, e) && Tunes(s, e)
    ensures !Finishes(s, e) && UpdatesBy(s, e, n) == []
  {}

  lemma UpdatesFrom(s: State, e: Event, n: nat)
    requires Ready(s)
    ensures forall i :: 0 <= i < |UpdatesBy(s, e, n)| ==> UpdatesBy(s, e, n)[i].from == NextToTune(s, n)
  {}

  /** The tuning of one step, also seen with all the updates that are handled later. */
  lemma FirstOpening(s: State, e: Event, n: nat, h: History, later: seq<Update>)
    requires Ready(s) && Enabled(s, e) && Orderly(s, e) && Scheduled(s, n, h) && Tunes(s, e)
    requires AllFrom(later, NextToTune(Step(s, e), n))
    ensures
      var t := Step(s, e);
      OpensAs(OpeningOf(t), NextToTune(s, n), h.(updates := h.updates + later))
  {
    TunesAlone(s);
    TunesExact(s, n, h, e.now);
    hide Mr0, TableAt, MappedPhys, CanMr0, TableBefore;
    LaterUpdates(h.first, h.updates, later, n);
  }

  // ----- from the CONNECT_REQ on

  /** What a CONNECT_REQ says about hopping. */
  function HistoryFrom(b: RxBuf): History {
    History(Extract(b.data, 35, 1) % 32, ParsedTable(b.data[30..35]), [])
  }

  function MainBuf(s: State): RxBuf
    requires Ready(s) && s.buf.main.Plain?
  {
    s.buf.pool[s.buf.main.buf]
  }

  /** Nothing of an earlier connection is left in the fields that a CONNECT_REQ does not set. */
  predicate Unused(c: Conn) { c.eventCounter == 0 && c.channelIdx == 0 && !c.mapPending }

  /** An accepted CONNECT_REQ puts the connection on schedule exactly when nothing of an earlier one is left. */
  lemma ConnectOnPlan(s: State, b: RxBuf, doFollow: bool)
    requires !Following(s) && Following(ConnectHandler(s, b, doFollow))
    ensures
      var t := ConnectHandler(s, b, doFollow);
      && NextToTune(t, 0) == 0
      && (Scheduled(t, 0, HistoryFrom(b)) <==> Unused(s.conn))
  {
    hide ParsedTable, Extract, ConnectValid, TableAt;
  }

  lemma ConnectStep(s: State, e: Event)
    requires Ready(s) && Enabled(s, e) && Handles(s, e, ConnectReq)
    ensures Step(s, e) == ConnectHandler(s.(buf := s.buf.(main := Handled(s.buf.main.buf))), MainBuf(s), e.doFollow)
  {
    hide ConnectHandler, KindOf;
    assert KindOf(MainBuf(s)) == ConnectReq;
  }

  /**
   From a connection of which nothing is left: a CONNECT_REQ is accepted, and then runs that are orderly open event k
   with the counter k mod 65536, on the channel (k + 1) * hop mod 37, mapped with the map in use for event k.
   */
  lemma ConnectionOnSchedule(s: State, e: Event, es: seq<Event>)
    requires Inv(s) && Ready(s) && Enabled(s, e) && Handles(s, e, ConnectReq)
    requires !Following(s) && Unused(s.conn) && Following(Step(s, e))
    requires Inv(Step(s, e)) && Possible(Step(s, e), es) && OrderlyRun(Step(s, e), es)
    ensures
      var t := Step(s, e);
      AllOpenAs(Openings(t, es), 0, HistoryFrom(MainBuf(s)).(updates := Updates(t, es, 0)))
  {
    assert s.buf.main.Plain? && e.Loop?;
    hide *;
    var t, h := Step(s, e), HistoryFrom(MainBuf(s));
    ConnectStep(s, e);
    NotYetHandled(s, Handled(s.buf.main.buf));
    ConnectOnPlan(s.(buf := s.buf.(main := Handled(s.buf.main.buf))), MainBuf(s), e.doFollow);
    RunOnSchedule(t, es, 0, h);
    NoUpdatesYet(MainBuf(s), Updates(t, es, 0));
  }

  lemma NotYetHandled(s: State, m: Main)
    ensures s.(buf := s.buf.(main := m)).conn == s.conn
  {}

  lemma NoUpdatesYet(b: RxBuf, us: seq<Update>)
    ensures HistoryFrom(b).updates + us == us
  {
    hide ParsedTable, Extract;
  }
}
