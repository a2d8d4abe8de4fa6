/**
 From the start of the program to a followed connection, and from there one run
 for each way in which a connection leaves its schedule. All runs are on time.
 */
module LePhyExamples {
  import opened Bits
  import opened Channels
  import opened Whitening
  import opened RingQueue
  import opened LePhy
  import opened LePhyBuffers
  import opened LePhyFraming
  import opened LePhyRuns
  import opened LePhySchedule
  import opened LePhyFailures
  import opened LePhyReception
  import opened LePhyRequests

  // ----- the start

  /** The statics as the program finds them, with advertising channel 37 set. */
  ghost predicate Cold(found: State) {
    && |found.buf.pool| == POOL && |found.buf.ring.data| == FIFOSIZE && found.conn == ColdConnection()
    && found.event == ConnEvent(0, 0, false) && !found.mr0On && found.advChannel == 2402
  }

  lemma ColdExists() returns (found: State)
    ensures Cold(found)
  {
    var b := RxBuf(NoBytes(), 0, 0, 0, 0, 0, false);
    found := State(Buffers([b, b, b, b], None, Ring(seq(FIFOSIZE, _ => 0), 0, 0), Idle), ColdConnection(),
                   ConnEvent(0, 0, false), 0, false, 0, false, false, false, false, 2402);
  }

  lemma StartCalm(found: State)
    requires Cold(found)
    ensures
      var s := Start(found);
      && Calm(s) && s.mr2On && s.conn == NoConnection() && s.event == ConnEvent(0, 0, false)
      && s.rfChannel == 2402 && !OnDataChannel(s)
  {
    StartInv(found);
    StartBuffers(found);
    hide Inv, PendingIn, GetCurrent, AllAvailable;
  }

  lemma StartBuffers(found: State)
    requires |found.buf.pool| == POOL
    ensures EmptyCurrent(Start(found).buf) && Start(found).buf.main.Idle?
  {
    assert FirstAvailable(AllAvailable(found.buf.pool), 0) == Some(0);
  }

  // ----- timer steps

  /** The synthesizer locks, and the receiver is switched on. */
  lemma Listen(s: State, t: nat) returns (u: State)
    requires Calm(s) && s.mr2On
    ensures u == s.(rxOn := true, mr2On := false) && Calm(u) && Leads(s, t, [Match2(true)], u, t)
  {
    u := s.(rxOn := true, mr2On := false);
    CalmParts(s);
    hide Calm, Inv, Ready, PendingIn, Leads, EmptyCurrent;
    var e := Match2(true);
    assert Enabled(s, e) && Step(s, e) == u && OnTime(s, e, t) && TimeAfter(e, t) == t;
    hide Enabled, Step, OnTime, TimeAfter;
    LeadsOne(s, t, e);
    StepKeeps(s, e);
    SameBuffers(s, u);
  }

  lemma SameBuffers(s: State, u: State)
    requires Calm(s) && Inv(u) && u.buf == s.buf && !u.cancelFollow
    ensures Calm(u)
  {
    hide Inv, EmptyCurrent;
  }

  /** MR0 fires and opens an event that no update is due for. */
  lemma Open(s: State, t: nat) returns (u: State)
    requires Calm(s) && s.mr0On && t <= s.mr0 && Following(s)
    requires !s.event.isOpen && !AtUpdateInstant(s.conn) && !s.conn.mapPending
    ensures Leads(s, t, [Match0(s.mr0)], u, s.mr0) && Calm(u)
    ensures u.conn == Hopped(s.conn) && u.event == s.event.(isOpen := true) && u.mr2On && !u.rxOn
    ensures u.rfChannel == MappedPhys(u.conn.channelIdx, u.conn.remapping)
    ensures u.mr0On && u.mr0 == (s.mr0 + 24200) % U32
  {
    var e := Match0(s.mr0);
    CalmParts(s);
    hide Calm, Inv, Ready, PendingIn, Leads;
    OpenStep(s);
    u := Step(s, e);
    assert OnTime(s, e, t) && TimeAfter(e, t) == s.mr0;
    hide Enabled, Step, OnTime, TimeAfter, EmptyCurrent, MappedPhys, Hopped;
    LeadsOne(s, t, e);
    TimerKeeps(s, e);
    CalmAgain(u);
  }

  lemma OpenStep(s: State)
    requires Ready(s) && s.mr0On && Following(s) && EmptyCurrent(s.buf) && s.buf.main.Idle? && !s.cancelFollow
    requires !s.event.isOpen && !AtUpdateInstant(s.conn) && !s.conn.mapPending
    ensures
      var e := Match0(s.mr0);
      && Enabled(s, e)
      && var u := Step(s, e);
      && u.conn == Hopped(s.conn) && u.event == s.event.(isOpen := true) && u.mr2On && !u.rxOn
      && u.rfChannel == MappedPhys(u.conn.channelIdx, u.conn.remapping)
      && u.mr0On && u.mr0 == (s.mr0 + 24200) % U32
      && EmptyCurrent(u.buf) && u.buf.main.Idle? && !u.cancelFollow
  {
    hide CanReceive, MappedPhys, NoBytes;
  }

  /** A timer interrupt changes nothing of what waits. */
  lemma TimerKeeps(s: State, e: Event)
    requires Inv(s) && Ready(s) && Enabled(s, e) && e.Match0? && PendingIn(s) == []
    ensures Inv(Step(s, e)) && PendingIn(Step(s, e)) == []
  {
    StepKeeps(s, e);
    assert [] + PendingIn(Step(s, e)) == PendingIn(Step(s, e));
    hide Inv, Ready, Enabled, Step, PendingIn;
  }

  lemma CalmAgain(u: State)
    requires Inv(u) && PendingIn(u) == [] && EmptyCurrent(u.buf) && u.buf.main.Idle? && !u.cancelFollow
    ensures Calm(u)
  {
    hide Inv, PendingIn, EmptyCurrent;
  }

  /** MR0 fires and closes an open event; the connection goes on. */
  lemma Close(s: State, t: nat) returns (u: State)
    requires Calm(s) && s.mr0On && t <= s.mr0
    requires s.event.isOpen && !AtUpdateInstant(s.conn) && !s.conn.mapPending && !ClosingRetunes(s, s.mr0)
    ensures Leads(s, t, [Match0(s.mr0)], u, s.mr0) && Calm(u)
    ensures EventClosed(s, u, s.event, s.mr0) && u.rxOn == s.rxOn
  {
    var e := Match0(s.mr0);
    CalmParts(s);
    hide Calm, Inv, Ready, PendingIn, Leads, EmptyCurrent;
    CloseStep(s);
    u := Step(s, e);
    assert OnTime(s, e, t) && TimeAfter(e, t) == s.mr0;
    hide Enabled, Step, OnTime, TimeAfter, ClosedConn, NextMatch, ClosingRetunes;
    LeadsOne(s, t, e);
    TimerKeeps(s, e);
    CalmAgain(u);
  }

  lemma CloseStep(s: State)
    requires Ready(s) && s.mr0On
    requires s.event.isOpen && !AtUpdateInstant(s.conn) && !s.conn.mapPending && !ClosingRetunes(s, s.mr0)
    ensures
      var e := Match0(s.mr0);
      && Enabled(s, e)
      && var u := Step(s, e);
      && EventClosed(s, u, s.event, s.mr0) && u.rxOn == s.rxOn && u.buf == s.buf && u.cancelFollow == s.cancelFollow
  {
    assert s.(conn := MapApplied(s.conn)) == s;
    FinishGoesOn(s, s.mr0);
    hide CanReceive, ClosedConn, NextMatch, ClosingRetunes, FinishConnEvent;
  }

  // ----- the connection

  /** The channel map with all 37 channels. */
  function AllMap(): seq<u8> { [255, 255, 255, 255, 31] }

  /** A CONNECT_REQ: access address 1, interval 6, no window offset, timeout 100, all channels, hop increment 5. */
  predicate IsConnect(p: seq<u8>) {
    && |p| == 39 && p[0] == 5 && p[1] == 34
    && p[14] == 1 && p[15] == 0 && p[16] == 0 && p[17] == 0
    && p[21] == 1 && p[22] == 0 && p[23] == 0 && p[24] == 6 && p[25] == 0 && p[28] == 100 && p[29] == 0
    && p[30] == 255 && p[31] == 255 && p[32] == 255 && p[33] == 255 && p[34] == 31 && p[35] == 5
  }

  function ConnectByte(i: nat): u8 {
    if i == 0 || i == 35 then 5 else if i == 1 then 34 else if i == 14 || i == 21 then 1 else if i == 24 then 6
    else if i == 28 then 100 else if 30 <= i < 34 then 255 else if i == 34 then 31 else 0
  }

  lemma ConnectReqExists() returns (p: seq<u8>)
    ensures IsConnect(p) && Sendable(p)
  {
    p := seq(39, i requires 0 <= i < 39 => ConnectByte(i));
  }

  lemma PrefixAt(data: Bytes, p: seq<u8>)
    requires |p| <= BUFFER && data[..|p|] == p
    ensures forall i :: 0 <= i < |p| ==> data[i] == p[i]
  {
    forall i | 0 <= i < |p| ensures data[i] == p[i] {
      assert data[..|p|][i] == p[i];
    }
  }

  /** What the fields of the request are read as. */
  lemma ConnectRead(data: Bytes, p: seq<u8>)
    requires IsConnect(p) && data[..39] == p
    ensures data[30..35] == AllMap() && data[0] == 5
    ensures Extract(data, 14, 4) == 1 && Extract(data, 21, 1) == 1 && Extract(data, 22, 2) == 0
    ensures Extract(data, 24, 2) == 6 && Extract(data, 28, 2) == 100 && Extract(data, 35, 1) == 5
  {
    PrefixAt(data, p);
    FourBytes(data, 14);
    OneByte(data, 21);
    TwoBytes(data, 22);
    TwoBytes(data, 24);
    TwoBytes(data, 28);
    OneByte(data, 35);
    hide Extract;
  }

  lemma AllUsed(idx: u8)
    requires 8 <= idx < 16
    ensures MappedPhys(idx, ParsedTable(AllMap())) == IndexToPhys(idx) && ParsedTable(AllMap()).totalChannels > 0
  {
    var bits := MapBits(AllMap());
    MapBit(AllMap(), 1, idx - 8);
    AllOnes(8, idx - 8);
    Pow2Values();
    assert bits[idx];
    assert idx as nat in UsedBelow(bits, 37);
    MappedIsUsed(AllMap(), idx);
    hide MapBits, UsedBelow, LowBits, Pow2;
  }

  lemma {:induction false} AllOnes(n: nat, j: nat)
    requires j < n
    ensures LowBits(Pow2(n) - 1, n)[j]
  {
    var rest := Pow2(n - 1) - 1;
    assert Pow2(n) - 1 == 2 * rest + 1;
    OneInFront(rest, n);
    hide LowBits, Pow2;
    if j > 0 {
      AllOnes(n - 1, j - 1);
    }
  }

  lemma OneInFront(rest: nat, n: nat)
    requires n > 0
    ensures LowBits(2 * rest + 1, n) == [true] + LowBits(rest, n - 1)
  {
    var x := 2 * rest + 1;
    assert x / 2 == rest && Odd(x);
  }

  /** What is remembered of the request. */
  function LinkHistory(): History { History(5, ParsedTable(AllMap()), []) }

  /** The connection that the request asks for, apart from an update: on a channel, with some events counted. */
  ghost predicate OnLink(c: Conn, idx: u8, counter: u16) {
    && c.accessAddress == 1 && c.channelIdx == idx && c.eventCounter == counter && c.hopIncrement == 5
    && c.connInterval == 75_000 && c.supervisionTimeout == 10_000_000
    && c.remapping == LinkHistory().first && !c.mapPending
  }

  ghost predicate IsLink(c: Conn, idx: u8, counter: u16) {
    OnLink(c, idx, counter) && c.winOffset == 0 && !c.updatePending
  }

  /** It is on schedule when it is on the channel of the next event to be tuned. */
  lemma LinkPlan(c: Conn, isOpen: bool, n: nat)
    requires OnLink(c, NextIn(c, isOpen, n) * 5 % 37, n % U16)
    ensures OnPlan(c, isOpen, n, LinkHistory())
  {
    hide ParsedTable, AllMap, TunedIn;
  }

  /** The fields as they are read, before they are scaled. */
  ghost predicate RawLink(c: Conn) {
    && c.accessAddress == 1 && c.winSize == 1 && c.winOffset == 0 && c.connInterval == 6 && c.supervisionTimeout == 100
    && c.hopIncrement == 5
    && c.channelIdx == 0 && c.eventCounter == 0 && !c.updatePending && !c.mapPending && !c.anchorSet
  }

  lemma ReadRaw(c: Conn, data: Bytes, p: seq<u8>)
    requires IsConnect(p) && data[..39] == p && Unused(c) && !c.updatePending && !c.anchorSet
    ensures RawLink(ConnectFields(c, data))
  {
    ConnectRead(data, p);
    hide Extract, IsConnect;
  }

  lemma RawAccepted(c: Conn, map37: seq<u8>)
    requires RawLink(c) && |map37| == 5 && ParsedTable(map37).totalChannels > 0
    ensures ConnectValid(c, map37)
    ensures
      var d := Connected(c, map37);
      && d.accessAddress == 1 && d.channelIdx == 0 && d.eventCounter == 0 && d.hopIncrement == 5
      && d.connInterval == 75_000 && d.supervisionTimeout == 10_000_000 && d.winOffset == 0
      && d.remapping == ParsedTable(map37) && !d.updatePending && !d.mapPending && !d.anchorSet
  {
    hide ParsedTable;
  }

  lemma FreshUnused()
    ensures var c := NoConnection(); Unused(c) && !c.updatePending && !c.anchorSet
  {}

  /** The request is accepted. */
  lemma ConnectRequested(c: Conn, data: Bytes, map37: seq<u8>, p: seq<u8>) returns (d: Conn)
    requires IsConnect(p) && data[..39] == p && Unused(c) && !c.updatePending && !c.anchorSet && map37 == data[30..35]
    ensures |map37| == 5 && ConnectValid(ConnectFields(c, data), map37)
    ensures d == Connected(ConnectFields(c, data), map37) && IsLink(d, 0, 0) && !d.anchorSet
  {
    ConnectRead(data, p);
    AllUsed(10);
    ReadRaw(c, data, p);
    var raw := ConnectFields(c, data);
    hide Extract, ParsedTable, MappedPhys, AllMap, NoChannels, IsConnect, RawLink;
    hide ConnectFields, ConnectValid, Connected;
    RawAccepted(raw, map37);
    d := Connected(raw, map37);
  }

  /** What the handler does with a request that it accepts. */
  lemma ConnectTaken(s: State, b: RxBuf)
    requires b.size == 39 && ConnectValid(ConnectFields(s.conn, b.data), b.data[30..35]) && b.timestamp == 600
    requires Connected(ConnectFields(s.conn, b.data), b.data[30..35]).winOffset == 0
    ensures
      var u := ConnectHandler(s, b, true);
      && u.conn == Connected(ConnectFields(s.conn, b.data), b.data[30..35]) && u.event == ResetEvent(s.event)
      && u.mr0On && u.mr0 == 13_620 && u.rfChannel == s.rfChannel
  {
    hide ConnectValid, ConnectFields, Connected;
  }

  /** The packet handler accepts the request. */
  lemma ConnectAccepted(s: State, b: RxBuf, p: seq<u8>)
    requires IsConnect(p) && b.size == 39 && b.data[..39] == p && b.timestamp == 600 && ChannelIndex(b.channel) == 37
    requires Unused(s.conn) && !s.conn.updatePending && !s.conn.anchorSet
    ensures
      var u := PacketHandler(s, b, true);
      && KindOf(b) == ConnectReq && u == ConnectHandler(s, b, true)
      && IsLink(u.conn, 0, 0) && !u.conn.anchorSet && u.event == ResetEvent(s.event)
      && u.mr0On && u.mr0 == 13_620 && u.rfChannel == s.rfChannel
  {
    ConnectRead(b.data, p);
    var d := ConnectRequested(s.conn, b.data, b.data[30..35], p);
    LinkOffset(d);
    ConnectTaken(s, b);
    assert KindOf(b) == ConnectReq;
    hide KindOf, ConnectHandler, ConnectFields, ConnectValid, Connected, IsLink, IsConnect, Extract, AllMap;
  }

  lemma LinkOffset(c: Conn)
    requires IsLink(c, 0, 0)
    ensures c.winOffset == 0
  {
    hide LinkHistory;
  }

  // ----- to event 0

  /** The request is handled; MR0 is to open event 0. */
  ghost predicate Linked(u: State) {
    && Calm(u) && IsLink(u.conn, 0, 0) && !u.conn.anchorSet && u.event == ConnEvent(0, 0, false)
    && u.mr0On && u.mr0 == 13_620
  }

  /** From the start: the receiver is switched on, 39 bytes come in, and the main loop handles them. */
  lemma ReachLink(found: State) returns (es: seq<Event>, u: State)
    requires Cold(found)
    ensures Leads(Start(found), 0, es, u, 4_040) && Linked(u)
  {
    var s, t0, e := Start(found), 1_000, Loop(true, true);
    StartCalm(found);
    TimesOfConnect(t0);
    hide *;
    var p := ConnectReqExists();
    var s1 := Listen(s, 0);
    Retuned(s, s1);
    LengthOfConnect(p);
    var a, c, m, now;
    a, m, now := PacketReachesHandler(s1, p, t0, 0, e);
    c, u := BroughtHandled(m, p, s1.rfChannel, t0, now, e);
    LinkAccepted(s, s1, m, u, p, t0, now);
    LeadsConcat(s, 0, [Match2(true)], s1, 0, a, m, now);
    LeadsConcat(s, 0, [Match2(true)] + a, m, now, c, u, now);
    es := [Match2(true)] + a + c;
  }

  lemma TimesOfConnect(t0: nat)
    requires t0 == 1_000
    ensures ByteAt(t0, 39) < U32 && ByteAt(t0, 38) == 4_040
  {}

  lemma LengthOfConnect(p: seq<u8>)
    requires IsConnect(p)
    ensures |p| == 39
  {}

  lemma Retuned(s: State, u: State)
    requires u == s.(rxOn := true, mr2On := false)
    ensures u.rxOn && u.conn == s.conn && u.event == s.event && u.rfChannel == s.rfChannel
    ensures u.mr0On == s.mr0On && u.mr0 == s.mr0 && OnDataChannel(u) == OnDataChannel(s) && Following(u) == Following(s)
  {}

  lemma LinkAccepted(s: State, s1: State, m: State, u: State, p: seq<u8>, t0: u32, now: u32)
    requires IsConnect(p) && t0 == 1_000 && s.conn == NoConnection() && s.event == ConnEvent(0, 0, false)
    requires s1.conn == s.conn && s1.event == s.event && s1.rfChannel == 2402 && !OnDataChannel(s1)
    requires Brought(m, p, s1.rfChannel, t0) && AfterFirst(s1, m, t0, now) && Calm(u)
    requires u == PacketHandler(Handing(m), MainBuf(m), true).(buf := u.buf)
    ensures Linked(u)
  {
    BroughtParts(m, p, s1.rfChannel, t0);
    FreshUnused();
    ConnectAccepted(Handing(m), MainBuf(m), p);
    hide Calm, PacketHandler, KindOf, ConnectHandler, IsLink, IsConnect, NoConnection, Inv, Ready, Brought, Unused;
  }

  /** Event 0 is open and tuned, and the receiver is on. */
  ghost predicate InEvent(u: State) {
    && Calm(u) && IsLink(u.conn, 5, 0) && !u.conn.anchorSet && u.event == ConnEvent(0, 0, true)
    && u.mr0On && u.mr0 == 37_820 && u.rxOn && OnDataChannel(u)
    && u.rfChannel == MappedPhys(5, LinkHistory().first)
  }

  /** MR0 fires on time and opens event 0, and the receiver is switched on. */
  lemma ReachEvent(found: State) returns (es: seq<Event>, u: State)
    requires Cold(found)
    ensures Leads(Start(found), 0, es, u, 13_620) && InEvent(u)
  {
    var start := Start(found);
    hide *;
    var a, s := ReachLink(found);
    LinkReady(s);
    var m := Open(s, 4_040);
    var e := Match0(s.mr0);
    u := Listen(m, s.mr0);
    EventOpened(s, m, u);
    LeadsConcat(start, 0, a, s, 4_040, [e], m, s.mr0);
    LeadsConcat(start, 0, a + [e], m, s.mr0, [Match2(true)], u, s.mr0);
    es := a + [e] + [Match2(true)];
  }

  lemma LinkReady(s: State)
    requires Linked(s)
    ensures Calm(s) && s.mr0On && s.mr0 == 13_620 && Following(s)
    ensures !s.event.isOpen && !AtUpdateInstant(s.conn) && !s.conn.mapPending
  {
    hide Calm, LinkHistory;
  }

  lemma EventOpened(s: State, m: State, u: State)
    requires Linked(s) && m.conn == Hopped(s.conn) && m.event == s.event.(isOpen := true) && m.conn.channelIdx < 37
    requires m.rfChannel == MappedPhys(m.conn.channelIdx, m.conn.remapping)
    requires m.mr0On && m.mr0 == (s.mr0 + 24200) % U32
    requires u == m.(rxOn := true, mr2On := false) && Calm(u)
    ensures InEvent(u)
  {
    hide *;
    LinkedTimes(s);
    LinkHops(s.conn);
    LinkParts(m.conn, 5, 0);
    LinkMap(m.conn, 5, 0);
    DataChannels(m.conn.channelIdx, m.conn.remapping);
    Retuned(m, u);
    OnData(u);
    TimeoutAfter(s.mr0);
    OpenedEvent(s.event, m.event);
    InEventIs(u);
  }

  lemma LinkMap(c: Conn, idx: u8, counter: u16)
    requires IsLink(c, idx, counter)
    ensures c.remapping == LinkHistory().first
  {
    hide LinkHistory;
  }

  lemma OnData(u: State)
    ensures OnDataChannel(u) <==> ChannelIndex(u.rfChannel) < 37
  {}

  lemma TimeoutAfter(mr0: u32)
    requires mr0 == 13_620
    ensures (mr0 + 24200) % U32 == 37_820
  {}

  lemma OpenedEvent(e: ConnEvent, d: ConnEvent)
    requires e == ConnEvent(0, 0, false) && d == e.(isOpen := true)
    ensures d == ConnEvent(0, 0, true)
  {}

  lemma InEventIs(u: State)
    requires Calm(u) && IsLink(u.conn, 5, 0) && !u.conn.anchorSet && u.event == ConnEvent(0, 0, true)
    requires u.mr0On && u.mr0 == 37_820 && u.rxOn && OnDataChannel(u)
    requires u.rfChannel == MappedPhys(5, LinkHistory().first)
    ensures InEvent(u)
  {
    hide Calm, IsLink, LinkHistory, MappedPhys;
  }

  lemma LinkedTimes(s: State)
    requires Linked(s)
    ensures IsLink(s.conn, 0, 0) && !s.conn.anchorSet && s.event == ConnEvent(0, 0, false) && s.mr0 == 13_620
  {
    hide Calm, IsLink;
  }

  lemma LinkHops(c: Conn)
    requires IsLink(c, 0, 0)
    ensures IsLink(Hopped(c), 5, 0) && Hopped(c).anchorSet == c.anchorSet && Hopped(c).channelIdx < 37
  {
    hide LinkHistory;
  }

  /** Whatever the map, a mapped channel is a data channel. */
  lemma DataChannels(idx: u8, table: Table)
    requires idx < 37
    ensures ChannelIndex(MappedPhys(idx, table)) < 37
  {
    IndexRoundTrip(MapChannel(idx, table), 2402);
  }

  /** A followed connection is reached, in its event 0, and is where the closed form says. */
  lemma ConnectionReached(found: State) returns (es: seq<Event>, u: State)
    requires Cold(found)
    ensures Leads(Start(found), 0, es, u, 13_620)
    ensures Scheduled(u, 0, LinkHistory()) && Tuned(u) && OpensAs(OpeningOf(u), 0, LinkHistory())
  {
    hide *;
    es, u := ReachEvent(found);
    EventFacts(u);
    FirstSchedule(u);
    OpeningZero(u);
  }

  lemma OpeningZero(u: State)
    requires InEvent(u)
    ensures OpensAs(OpeningOf(u), 0, LinkHistory())
  {
    hide Calm, MappedPhys, ParsedTable, AllMap;
  }

  /**
   A second session on what the first one leaves: when following stops in event 0 and le_phy_main is entered again,
   every CONNECT_REQ that is accepted then starts off schedule.
   */
  lemma SecondSession(found: State) returns (es: seq<Event>, u: State)
    requires Cold(found)
    ensures Leads(Start(found), 0, es, u, 13_620) && |u.buf.pool| == POOL && !Following(Start(u))
    ensures forall s: State, b, doFollow :: s.conn == Start(u).conn && Following(ConnectHandler(s, b, doFollow)) ==>
      !Scheduled(ConnectHandler(s, b, doFollow), 0, HistoryFrom(b))
  {
    es, u := ReachEvent(found);
    EventFacts(u);
    LinkParts(u.conn, 5, 0);
    PoolOfCalm(u);
    hide Leads, InEvent, IsLink, Cold, Calm, ConnectHandler, HistoryFrom, Scheduled, LinkHistory;
    hide GetCurrent, AllAvailable;
    var c := Start(u).conn;
    assert c.channelIdx == 5 && c.accessAddress == 0x8e89bed6;
    forall s: State, b, doFollow | s.conn == c && Following(ConnectHandler(s, b, doFollow))
      ensures !Scheduled(ConnectHandler(s, b, doFollow), 0, HistoryFrom(b))
    {
      ConnectOnPlan(s, b, doFollow);
    }
  }

  lemma PoolOfCalm(s: State)
    requires Calm(s)
    ensures |s.buf.pool| == POOL
  {}

  // ----- packets on the connection

  /** An empty data packet. */
  predicate IsEmpty(p: seq<u8>) { |p| == 5 && p[0] == 1 && p[1] == 0 }

  /** A connection update with this window offset and this instant. */
  predicate IsUpdate(p: seq<u8>, offset: u8, instant: u8) {
    |p| == 17 && p[0] == 3 && p[1] == 12 && p[2] == 0 && p[4] == offset && p[5] == 0 && p[12] == instant && p[13] == 0
  }

  /** A channel map update to channels 0 and 1 at this instant. */
  predicate IsMap(p: seq<u8>, instant: u8) {
    |p| == 13 && p[0] == 3 && p[1] == 8 && p[2] == 1 && p[3] == 3 && p[4] == 0 && p[8] == instant && p[9] == 0
  }

  lemma EmptyExists() returns (p: seq<u8>)
    ensures IsEmpty(p) && Sendable(p)
  {
    p := [1, 0, 0, 0, 0];
  }

  lemma UpdateExists(offset: u8, instant: u8) returns (p: seq<u8>)
    ensures IsUpdate(p, offset, instant) && Sendable(p)
  {
    p := seq(17, i requires 0 <= i < 17 =>
      if i == 0 then 3 else if i == 1 then 12 else if i == 4 then offset else if i == 12 then instant else 0);
  }

  lemma MapExists(instant: u8) returns (p: seq<u8>)
    ensures IsMap(p, instant) && Sendable(p)
  {
    p := seq(13, i requires 0 <= i < 13 =>
      if i == 0 || i == 3 then 3 else if i == 1 then 8 else if i == 2 then 1 else if i == 8 then instant else 0);
  }

  /** What the packet handler takes them for, and what it reads. */
  lemma Kinds(b: RxBuf, p: seq<u8>)
    requires |p| <= BUFFER && b.data[..|p|] == p && ChannelIndex(b.channel) < 37
    ensures IsEmpty(p) ==> KindOf(b) == Other
    ensures forall offset, instant :: IsUpdate(p, offset, instant) ==>
      KindOf(b) == UpdateReq && Extract(b.data, 4, 2) == offset && Extract(b.data, 12, 2) == instant
    ensures forall instant :: IsMap(p, instant) ==>
      KindOf(b) == MapReq && Extract(b.data, 8, 2) == instant && b.data[3] == 3 && b.data[4] == 0
  {
    PrefixAt(b.data, p);
    TwoBytes(b.data, 4);
    TwoBytes(b.data, 12);
    TwoBytes(b.data, 8);
    hide Extract;
  }

  /** A packet comes in during event 0 and is about to be handled. */
  lemma FirstPacket(u: State, p: seq<u8>, t0: u32, e: Event) returns (es: seq<Event>, m: State, now: u32)
    requires InEvent(u) && Sendable(p) && |p| <= 39 && t0 == 14_000 && e.Loop?
    ensures now == ByteAt(t0, |p| - 1) <= 17_100 && Leads(u, 13_620, es, m, now) && Brought(m, p, u.rfChannel, t0)
    ensures IsLink(m.conn, 5, 0) && !m.conn.anchorSet && m.event == ConnEvent(13_600, 1, true)
    ensures m.rfChannel == u.rfChannel && OnDataChannel(m) && m.mr0On && m.mr0 == now + 3_000 && m.mr2On
  {
    PacketTimes(t0, p);
    hide *;
    EventFacts(u);
    es, m, now := PacketReachesHandler(u, p, t0, 13_620, e);
    FirstFields(u, m, t0, now);
  }

  lemma PacketTimes(t0: nat, p: seq<u8>)
    requires t0 <= 41_000 && 5 <= |p| <= 39
    ensures ByteAt(t0, |p|) < U32 && ByteAt(t0, |p| - 1) <= t0 + 3_100
  {}

  lemma EventFacts(u: State)
    requires InEvent(u)
    ensures Calm(u) && u.rxOn && OnDataChannel(u) && IsLink(u.conn, 5, 0) && !u.conn.anchorSet
    ensures u.event == ConnEvent(0, 0, true) && u.event.numPackets == 0 && u.event.isOpen
    ensures u.mr0On && u.mr0 == 37_820
  {
    hide Calm, IsLink;
  }

  lemma FirstFields(u: State, m: State, t0: u32, now: u32)
    requires OnDataChannel(u) && u.event == ConnEvent(0, 0, true) && AfterFirst(u, m, t0, now)
    requires t0 == 14_000 && now <= 17_100
    ensures m.conn == u.conn && m.event == ConnEvent(13_600, 1, true) && m.rfChannel == u.rfChannel && OnDataChannel(m)
    ensures m.mr0On && m.mr0 == now + 3_000 && m.mr2On
  {}

  // ----- an event tuned twice

  lemma TimelyOn(s: State, e: Event, rest: seq<Event>, t: nat)
    requires Inv(s) && Possible(s, [e] + rest) && OnTime(s, e, t)
    ensures Ready(s) && Enabled(s, e) && Inv(Step(s, e)) && Possible(Step(s, e), rest)
    ensures Timely(Step(s, e), rest, TimeAfter(e, t)) ==> Timely(s, [e] + rest, t)
  {
    InvReady(s);
    var es := [e] + rest;
    assert es[0] == e && es[1..] == rest;
    StepKeeps(s, e);
    hide Inv, Ready, Enabled, OnTime, Step;
  }

  lemma TimelyNow(s: State, t: nat)
    requires Inv(s) && Possible(s, [])
    ensures Timely(s, [], t)
  {}

  lemma TimelyOne(s: State, e: Event, t: nat)
    requires Inv(s) && Possible(s, [e]) && OnTime(s, e, t)
    ensures Timely(s, [e], t)
  {
    hide *;
    assert [e] + [] == [e];
    TimelyOn(s, e, [], t);
    TimelyNow(Step(s, e), TimeAfter(e, t));
  }

  lemma TimelyTwo(s: State, e: Event, f: Event, t: nat)
    requires Inv(s) && Possible(s, [e] + [f]) && Ready(s) && Enabled(s, e) && OnTime(s, e, t)
    requires OnTime(Step(s, e), f, TimeAfter(e, t))
    ensures Timely(s, [e] + [f], t)
  {
    hide *;
    TimelyOn(s, e, [f], t);
    TimelyOne(Step(s, e), f, TimeAfter(e, t));
  }

  /** The connection on its way, and what the main loop has at hand. */
  lemma AtHandFacts(m: State, p: seq<u8>, channel: u16, t0: u32, e: Event)
    requires Brought(m, p, channel, t0) && ChannelIndex(channel) < 37 && e == Loop(true, false)
    ensures Inv(m) && Ready(m) && Enabled(m, e) && m.buf.main.Plain? && m.buf.current.Some? && !m.cancelFollow
    ensures HandledData(m) == MainBuf(m).data
    ensures forall offset, instant :: IsUpdate(p, offset, instant) ==>
      Handles(m, e, UpdateReq) && Extract(HandledData(m), 4, 2) == offset && Extract(HandledData(m), 12, 2) == instant
    ensures forall instant :: IsMap(p, instant) ==>
      Handles(m, e, MapReq) && Extract(HandledData(m), 8, 2) == instant
      && HandledData(m)[3] == 3 && HandledData(m)[4] == 0
  {
    BroughtParts(m, p, channel, t0);
    Kinds(MainBuf(m), p);
    hide Inv, Ready, KindOf, Extract, Brought, IsUpdate, IsMap, IsEmpty;
  }

  lemma LinkSchedule(s: State, n: nat)
    requires OnLink(s.conn, NextIn(s.conn, s.event.isOpen, n) * 5 % 37, n % U16)
    ensures Scheduled(s, n, LinkHistory()) && Following(s)
  {
    LinkPlan(s.conn, s.event.isOpen, n);
    hide OnPlan, NextIn;
  }

  lemma FirstSchedule(s: State)
    requires IsLink(s.conn, 5, 0) && s.event.isOpen
    ensures Scheduled(s, 0, LinkHistory()) && Following(s) && Tuned(s) && s.conn.eventCounter == 0
    ensures !s.conn.updatePending && !s.conn.mapPending && s.conn.winOffset == 0
  {
    hide *;
    LinkParts(s.conn, 5, 0);
    OpenIsTuned(s);
    NextAfter(s, 0);
    FiveTimes(1, 5);
    LinkSchedule(s, 0);
  }

  lemma LinkParts(c: Conn, idx: u8, counter: u16)
    requires IsLink(c, idx, counter)
    ensures OnLink(c, idx, counter) && !c.updatePending && !c.mapPending && c.winOffset == 0
    ensures c.eventCounter == counter && c.channelIdx == idx && c.hopIncrement == 5
  {
    hide LinkHistory;
  }

  lemma OpenIsTuned(s: State)
    ensures s.event.isOpen && !s.conn.updatePending ==> Tuned(s)
    ensures !s.event.isOpen || AtUpdateInstant(s.conn) ==> !Tuned(s)
  {}

  lemma NextAfter(s: State, n: nat)
    ensures NextIn(s.conn, s.event.isOpen, n) == if Tuned(s) then n + 1 else n
    ensures n < 2 ==> n % U16 == n
  {}

  lemma FiveTimes(next: nat, idx: nat)
    requires next == 1 && idx == 5
    ensures next * 5 % 37 == idx
  {}

  /** In event 0 comes a connection update with instant 0: at the next match event 0 is tuned again. */
  lemma TunedTwiceRun(found: State) returns (es: seq<Event>, s: State, t: nat, e: Event, now: u32)
    requires Cold(found)
    ensures Leads(Start(found), 0, es, s, t) && Ready(s) && Enabled(s, e) && Skips(s, e)
    ensures Deviates(s, [e] + [Match0(now)], 0, LinkHistory()) && Timely(s, [e] + [Match0(now)], t)
  {
    var start := Start(found);
    e := Loop(true, false);
    hide *;
    var p := UpdateExists(0, 0);
    UpdateLength(p, 0, 0);
    var a, u := ReachEvent(found);
    var b, time;
    b, s, time := FirstPacket(u, p, 14_000, e);
    LeadsConcat(start, 0, a, u, 13_620, b, s, time);
    es, t, now := a + b, time, s.mr0;
    OnData(s);
    AtHandFacts(s, p, u.rfChannel, 14_000, e);
    FirstSchedule(s);
    InstantIs(s, HandledData(s));
    TunedTwiceDeviates(s, 0, LinkHistory(), e, now);
    RequestStep(s, e);
    DeviatesPossible(s, [e] + [Match0(now)], 0, LinkHistory());
    LoopThenMatch(s, Step(s, e), e, now, t);
    TimelyTwo(s, e, Match0(now), t);
  }

  lemma UpdateLength(p: seq<u8>, offset: u8, instant: u8)
    requires IsUpdate(p, offset, instant)
    ensures |p| == 17
  {}

  lemma InstantIs(s: State, data: Bytes)
    requires Ready(s) && s.buf.main.Plain? && HandledData(s) == data
    ensures UpdateInstantOf(s) == Extract(data, 12, 2)
  {}

  lemma DeviatesPossible(s: State, es: seq<Event>, n: nat, h: History)
    requires Deviates(s, es, n, h)
    ensures Inv(s) && Possible(s, es)
  {
    hide Inv, Possible;
  }

  lemma LoopThenMatch(s: State, u: State, e: Event, now: u32, t: nat)
    requires e.Loop? && u.mr0 == now && t <= now
    ensures OnTime(s, e, t) && TimeAfter(e, t) == t && OnTime(u, Match0(now), t)
  {}

  // ----- a map taken in too early

  /** A map of channels 0 and 1 maps the others to these. */
  lemma SmallMap(channelMap: seq<u8>, idx: u8)
    requires |channelMap| == 5 && channelMap[0] == 3 && channelMap[1] == 0 && 8 <= idx < 16
    ensures MappedPhys(idx, ParsedTable(channelMap)) != IndexToPhys(idx)
  {
    MappedIsUsed(channelMap, idx);
    MapBit(channelMap, 0, 0);
    MapBit(channelMap, 1, idx - 8);
    HighZeros(3, 2, 8);
    LowBitsZero(8);
    hide Remap, MapChannel, MapBits, LowBits;
    LowestOfThree();
  }

  lemma LowestOfThree()
    ensures LowBits(3, 2)[0]
  {
    assert LowBits(3, 2) == [true] + LowBits(1, 1);
  }

  /** On the next channel the two maps differ. */
  lemma MapsDiffer(c: Conn, data: Bytes, counter: u16)
    requires OnLink(c, 5, counter) && data[3] == 3 && data[4] == 0
    ensures
      var idx := NextChannel(c.channelIdx, c.hopIncrement);
      MappedPhys(idx, c.remapping) != MappedPhys(idx, ParsedTable(data[3..8]))
  {
    var idx := NextChannel(c.channelIdx, c.hopIncrement);
    assert idx == 10;
    assert data[3..8][0] == 3 && data[3..8][1] == 0;
    SmallMap(data[3..8], idx);
    AllUsed(idx);
    hide AllMap, ParsedTable, MappedPhys, IndexToPhys, NextChannel;
  }

  /** An open event closes at MR0, and the next match is due an interval after the anchor. */
  lemma ClosesAt(t: State, now: u32)
    requires Inv(t) && Ready(t) && t.mr0On && t.event.isOpen && !AtUpdateInstant(t.conn)
    requires !ClosingRetunes(t.(conn := MapApplied(t.conn)), now)
    ensures Enabled(t, Match0(now))
    ensures Step(t, Match0(now)).mr0 == NextMatch(ClosedConn(MapApplied(t.conn), t.event, now))
  {
    FinishGoesOn(t.(conn := MapApplied(t.conn)), now);
    hide Inv, CanReceive, ClosedConn, NextMatch, ClosingRetunes, FinishConnEvent;
  }

  /** Where the connection is after its first event, when that had one packet. */
  lemma FirstAnchor(c: Conn, e: ConnEvent, now: u32)
    requires !c.anchorSet && c.connInterval == 75_000 && e.anchor == 13_600 && e.numPackets <= 1
    ensures NextMatch(ClosedConn(c, e, now)) == 85_600
  {}

  lemma TimelyThree(s: State, e: Event, f: Event, g: Event, t: nat)
    requires Inv(s) && Possible(s, [e] + ([f] + [g])) && Ready(s) && Enabled(s, e) && OnTime(s, e, t)
    requires Ready(Step(s, e)) && Enabled(Step(s, e), f) && OnTime(Step(s, e), f, TimeAfter(e, t))
    requires OnTime(Step(Step(s, e), f), g, TimeAfter(f, TimeAfter(e, t)))
    ensures Timely(s, [e] + ([f] + [g]), t)
  {
    hide *;
    TimelyOn(s, e, [f] + [g], t);
    TimelyTwo(Step(s, e), f, g, TimeAfter(e, t));
  }

  lemma MatchThenMatch(u: State, now: u32, later: u32)
    requires u.mr0 == later && now <= later
    ensures forall t :: TimeAfter(Match0(now), t) == now
    ensures OnTime(u, Match0(later), now)
  {}

  /** What the request makes of the connection of the first event. */
  lemma MapRequested(c: Conn, e: ConnEvent, data: Bytes, now: u32)
    requires IsLink(c, 5, 0) && !c.anchorSet && e == ConnEvent(13_600, 1, true)
    ensures
      var d := MapUpdate(c, data);
      && !AtUpdateInstant(d) && WillTune(ClosedConn(MapApplied(d), e, now))
      && NextMatch(ClosedConn(MapApplied(d), e, now)) == 85_600
  {
    var d := MapApplied(MapUpdate(c, data));
    assert d.connInterval == c.connInterval && d.anchorSet == c.anchorSet && !d.updatePending by {
      hide Extract, ParsedTable, LinkHistory;
    }
    FirstAnchor(d, e, now);
    hide Extract, ParsedTable, LinkHistory, MapApplied, ObservedAnchor, NextMatch;
  }

  lemma Claims(s: State, t: State, data: Bytes, e: Event, n: nat, h: History, now: u32)
    requires Inv(s) && Ready(s) && Enabled(s, e) && Scheduled(s, n, h) && Handles(s, e, MapReq) && s.buf.main.Plain?
    requires Tuned(s) && Extract(data, 8, 2) == s.conn.eventCounter && s.mr0On && s.buf.current.Some?
    requires HandledData(s) == data && t == Step(s, e) && t.conn == MapUpdate(s.conn, data) && t.event == s.event
    requires !ClosingRetunes(t.(conn := MapApplied(t.conn)), now)
    requires WillTune(ClosedConn(MapApplied(t.conn), t.event, now))
    requires
      var idx := NextChannel(s.conn.channelIdx, s.conn.hopIncrement);
      MappedPhys(idx, s.conn.remapping) != MappedPhys(idx, ParsedTable(data[3..8]))
    ensures ClaimsMap(s, e, n, h, now)
  {
    hide Inv, Ready, Enabled, Step, Scheduled, Tuned, Extract, ParsedTable, MappedPhys, MapUpdate, MapApplied, KindOf;
    hide ClosedConn, ClosingRetunes, WillTune, NextChannel;
  }

  lemma MapLength(p: seq<u8>, instant: u8)
    requires IsMap(p, instant)
    ensures |p| == 13
  {}

  lemma OnePacket(u: State, c: Conn, now: u32)
    requires u.event == ConnEvent(13_600, 1, true) && !u.cancelFollow
    ensures !ClosingRetunes(u.(conn := c), now)
  {
    PacketKeepsAlive(u.(conn := c), now);
    hide ClosingRetunes;
  }

  /** In event 0 comes a map update with instant 0: event 0 closes with the new map, and event 1 is tuned with it. */
  lemma LateMapRun(found: State)
    returns (es: seq<Event>, s: State, t: nat, e: Event, now: u32, later: u32)
    requires Cold(found)
    ensures Leads(Start(found), 0, es, s, t) && Ready(s) && Enabled(s, e) && Ready(Step(s, e))
    ensures Misses(Step(s, e), Match0(now))
    ensures Deviates(s, [e] + ([Match0(now)] + [Match0(later)]), 0, LinkHistory())
    ensures Timely(s, [e] + ([Match0(now)] + [Match0(later)]), t)
  {
    var start := Start(found);
    e, later := Loop(true, false), 85_600;
    hide *;
    var p := MapExists(0);
    MapLength(p, 0);
    var a, u := ReachEvent(found);
    var b, time;
    b, s, time := FirstPacket(u, p, 14_000, e);
    LeadsConcat(start, 0, a, u, 13_620, b, s, time);
    es, t, now := a + b, time, s.mr0;
    OnData(s);
    AtHandFacts(s, p, u.rfChannel, 14_000, e);
    FirstSchedule(s);
    RequestStep(s, e);
    KindsApart(s, e);
    var v := Step(s, e);
    MapRequested(s.conn, s.event, HandledData(s), now);
    OnePacket(v, MapApplied(v.conn), now);
    LinkParts(s.conn, 5, 0);
    MapsDiffer(s.conn, HandledData(s), 0);
    Claims(s, v, HandledData(s), e, 0, LinkHistory(), now);
    LateMapDeviates(s, 0, LinkHistory(), e, now, later);
    DeviatesPossible(s, [e] + ([Match0(now)] + [Match0(later)]), 0, LinkHistory());
    LoopThenMatch(s, v, e, now, t);
    ClosesAt(v, now);
    MatchThenMatch(Step(v, Match0(now)), now, later);
    TimelyThree(s, e, Match0(now), Match0(later), t);
  }

  lemma KindsApart(s: State, e: Event)
    requires Ready(s)
    ensures !(Handles(s, e, UpdateReq) && Handles(s, e, MapReq))
  {
    hide KindOf;
  }

  // ----- late packets

  /** Event 0 is closed and none is open, but the receiver is still on. */
  ghost predicate BetweenEvents(u: State) {
    && Calm(u) && IsLink(u.conn, 5, 1) && u.event == ConnEvent(0, 0, false) && u.rxOn && OnDataChannel(u)
  }

  /** Event 0 without a packet: the time at which it closes counts as that of the last one. */
  lemma EmptyEvent(u: State)
    requires InEvent(u)
    ensures !ClosingRetunes(u, 37_820) && IsLink(ClosedConn(u.conn, u.event, 37_820), 5, 1)
    ensures !AtUpdateInstant(u.conn) && !u.conn.mapPending
  {
    hide LinkHistory, Inv, PendingIn, EmptyCurrent;
  }

  lemma ReachBetween(found: State) returns (es: seq<Event>, u: State)
    requires Cold(found)
    ensures Leads(Start(found), 0, es, u, 37_820) && BetweenEvents(u)
  {
    var start := Start(found);
    hide *;
    var a, s := ReachEvent(found);
    EventFacts(s);
    EmptyEvent(s);
    u := Close(s, 13_620);
    LeadsConcat(start, 0, a, s, 13_620, [Match0(s.mr0)], u, s.mr0);
    es := a + [Match0(s.mr0)];
    ClosedBetween(s, u);
  }

  lemma ClosedBetween(s: State, u: State)
    requires Calm(u) && IsLink(ClosedConn(s.conn, s.event, 37_820), 5, 1) && s.event == ConnEvent(0, 0, true)
    requires EventClosed(s, u, s.event, 37_820) && u.rxOn == s.rxOn && s.rxOn && OnDataChannel(s)
    ensures BetweenEvents(u)
  {
    hide Calm, IsLink, ClosedConn, NextMatch;
  }

  lemma BetweenFacts(u: State)
    requires BetweenEvents(u)
    ensures Calm(u) && u.rxOn && OnDataChannel(u) && IsLink(u.conn, 5, 1)
    ensures u.event == ConnEvent(0, 0, false) && u.event.numPackets == 0
  {
    hide Calm, IsLink;
  }

  /** One packet has come in since, and the receiver is on again. */
  ghost predicate OnePacketLate(u: State) {
    && Calm(u) && IsLink(u.conn, 5, 1) && u.event == ConnEvent(39_600, 1, false) && u.rxOn && OnDataChannel(u)
  }

  lemma ReachOneLate(found: State) returns (es: seq<Event>, u: State)
    requires Cold(found)
    ensures Leads(Start(found), 0, es, u, 40_320) && OnePacketLate(u)
  {
    var start, e := Start(found), Loop(true, false);
    hide *;
    var p := EmptyExists();
    EmptyLength(p);
    PacketTimes(40_000, p);
    EmptyTimes(40_000);
    var a, s := ReachBetween(found);
    BetweenFacts(s);
    var b, m, now;
    b, m, now := PacketReachesHandler(s, p, 40_000, 37_820, e);
    var c, v := BroughtHandled(m, p, s.rfChannel, 40_000, now, e);
    EmptyHandled(s, m, v, p, now);
    u := Listen(v, now);
    LateListens(v, u);
    LeadsConcat(start, 0, a, s, 37_820, b, m, now);
    LeadsConcat(start, 0, a + b, m, now, c, v, now);
    LeadsConcat(start, 0, a + b + c, v, now, [Match2(true)], u, now);
    es := a + b + c + [Match2(true)];
  }

  lemma EmptyLength(p: seq<u8>)
    requires IsEmpty(p)
    ensures |p| == 5
  {}

  lemma EmptyTimes(t0: nat)
    ensures ByteAt(t0, 4) == t0 + 320 && ByteAt(t0, 5) == t0 + 400
  {}

  /** The handler passes over an empty packet. */
  lemma EmptyHandled(s: State, m: State, v: State, p: seq<u8>, now: u32)
    requires IsEmpty(p) && BetweenEvents(s) && Brought(m, p, s.rfChannel, 40_000) && AfterFirst(s, m, 40_000, now)
    requires Calm(v) && v == PacketHandler(Handing(m), MainBuf(m), false).(buf := v.buf)
    ensures v.mr2On && IsLink(v.conn, 5, 1) && v.event == ConnEvent(39_600, 1, false) && OnDataChannel(v)
  {
    hide *;
    BroughtParts(m, p, s.rfChannel, 40_000);
    BetweenFacts(s);
    OnData(s);
    Kinds(MainBuf(m), p);
    HandlerByKind(Handing(m), MainBuf(m), false);
    HandingFields(m);
    PassedOver(s, m, v, now);
  }

  lemma HandlerByKind(s: State, b: RxBuf, doFollow: bool)
    ensures KindOf(b) == Other ==> PacketHandler(s, b, doFollow) == s
    ensures KindOf(b) == UpdateReq ==>
      PacketHandler(s, b, doFollow) == s.(conn := ConnectionUpdate(s.conn, b.data))
  {
    hide KindOf, ConnectionUpdate;
  }

  lemma HandingFields(m: State)
    requires m.buf.main.Plain?
    ensures
      var u := Handing(m);
      u.conn == m.conn && u.event == m.event && u.rfChannel == m.rfChannel && u.mr2On == m.mr2On
  {}

  lemma PassedOver(s: State, m: State, v: State, now: u32)
    requires m.buf.main.Plain? && v == Handing(m).(buf := v.buf) && AfterFirst(s, m, 40_000, now)
    requires OnDataChannel(s) && IsLink(s.conn, 5, 1) && s.event == ConnEvent(0, 0, false)
    ensures v.mr2On && IsLink(v.conn, 5, 1) && v.event == ConnEvent(39_600, 1, false) && OnDataChannel(v)
  {
    hide IsLink;
  }

  lemma LateListens(v: State, u: State)
    requires IsLink(v.conn, 5, 1) && v.event == ConnEvent(39_600, 1, false) && OnDataChannel(v)
    requires u == v.(rxOn := true, mr2On := false) && Calm(u)
    ensures OnePacketLate(u)
  {
    hide Calm, IsLink;
  }

  lemma LateFacts(u: State)
    requires OnePacketLate(u)
    ensures Calm(u) && u.rxOn && OnDataChannel(u) && IsLink(u.conn, 5, 1)
    ensures u.event == ConnEvent(39_600, 1, false) && u.event.numPackets == 1 && !u.event.isOpen
  {
    hide Calm, IsLink;
  }

  lemma MidwayFields(u: State, w: seq<u8>, i: nat, t0: u32)
    requires EmptyCurrent(u.buf) && i <= |w| <= BUFFER
    ensures
      var s := Midway(u, w, i, t0);
      s.conn == u.conn && s.event == u.event && s.rfChannel == u.rfChannel && s.cancelFollow == u.cancelFollow
  {
    hide Filled;
  }

  /** Before the end of a second packet between events: the next event is still to be tuned. */
  lemma LateSchedule(s: State)
    requires IsLink(s.conn, 5, 1) && !s.event.isOpen
    ensures Scheduled(s, 1, LinkHistory()) && Following(s) && !Tuned(s)
  {
    hide *;
    LinkParts(s.conn, 5, 1);
    OpenIsTuned(s);
    NextAfter(s, 1);
    FiveTimes(1, 5);
    LinkSchedule(s, 1);
  }

  /** The packet counts event 1, and MR0 is to tune event 2 an interval after the packets before. */
  lemma LateClosing(s: State, u: State, v: State, now: u32)
    requires IsLink(s.conn, 5, 1) && s.event == ConnEvent(39_600, 1, false)
    requires v.conn == s.conn && v.event == s.event
    requires EventClosed(s, u, s.event.(numPackets := 2), now) && OnDataChannel(s)
    ensures u.mr0 == 111_600 && u.mr0On && Mr0Tunes(u) && Following(u)
  {
    hide LinkHistory;
  }

  lemma ByteKeeps(s: State, e: Event)
    requires Ready(s) && e.Byte? && Enabled(s, e) && Following(s) && Following(Step(s, e))
    ensures Keeps(s, e)
  {
    hide Step;
  }

  /** A packet that waits leaves an empty buffer current. */
  lemma WaitsCurrent(u: State, q: Packet)
    requires Waits(u, q)
    ensures u.buf.current.Some?
  {
    hide Inv, PendingIn;
  }

  lemma ByteThenMatch(s: State, u: State, v: nat, now: u32, later: u32, value: u8)
    requires v <= now <= later && u.mr0 == later
    ensures OnTime(s, Byte(now, value), v) && TimeAfter(Byte(now, value), v) == now && OnTime(u, Match0(later), now)
  {}

  /** Two packets come in after event 0 has closed and before event 1 is opened: event 1 is counted, never tuned. */
  lemma LatePacketsRun(found: State) returns (es: seq<Event>, s: State, t: nat, e: Event, later: u32)
    requires Cold(found)
    ensures Leads(Start(found), 0, es, s, t) && Ready(s) && Enabled(s, e) && Skips(s, e)
    ensures Deviates(s, [e] + [Match0(later)], 1, LinkHistory()) && Timely(s, [e] + [Match0(later)], t)
  {
    var start := Start(found);
    hide *;
    var p := EmptyExists();
    EmptyLength(p);
    PacketTimes(41_000, p);
    EmptyTimes(41_000);
    var a, u := ReachOneLate(found);
    LateFacts(u);
    CalmParts(u);
    var w := OnAir(p, u.rfChannel);
    OnAirAnnounces(p, u.rfChannel);
    var v := AllButLast(u, w, 41_000, 40_320);
    var i, now := LastIndex(w, 41_000);
    s, e, t, later := Midway(u, w, i, 41_000), Byte(now, w[i]), v, 111_600;
    es := a + ByteEvents(w, 0, i, 41_000);
    LeadsConcat(start, 0, a, u, 40_320, ByteEvents(w, 0, i, 41_000), s, v);
    MidwayFields(u, w, i, 41_000);
    LastByteCloses(u, w, 41_000, now);
    LateSchedule(s);
    WaitsCurrent(Step(s, e), PacketOf(u, w, 41_000));
    LateClosing(u, Step(s, e), s, now);
    ByteKeeps(s, e);
    LatePacketsDeviate(s, 1, LinkHistory(), e, later);
    DeviatesPossible(s, [e] + [Match0(later)], 1, LinkHistory());
    ByteThenMatch(s, Step(s, e), v, now, later, w[i]);
    TimelyTwo(s, e, Match0(later), t);
  }

  lemma LastIndex(w: seq<u8>, t0: nat) returns (i: nat, now: u32)
    requires |w| == 5 && t0 == 41_000
    ensures i == |w| - 1 && now == ByteAt(t0, i) == 41_320
  {
    i, now := 4, 41_320;
  }

  // ----- two updates

  /** In event 0 a connection update for event 1 has been handled, and the receiver is on again. */
  ghost predicate UpdateAhead(u: State, offset: u8) {
    && Calm(u) && OnLink(u.conn, 5, 0) && UpdateFor(u.conn, offset, 1) && !u.conn.anchorSet
    && u.event == ConnEvent(13_600, 1, true) && u.rxOn && OnDataChannel(u)
  }

  predicate UpdateFor(c: Conn, offset: u8, instant: u16) {
    c.updatePending && c.updateInstant == instant && c.winOffset == offset as nat * 12_500
  }

  lemma ReachUpdate(found: State, offset: u8) returns (es: seq<Event>, u: State)
    requires Cold(found)
    ensures Leads(Start(found), 0, es, u, 15_280) && UpdateAhead(u, offset)
  {
    var start, e := Start(found), Loop(true, false);
    hide *;
    var p := UpdateExists(offset, 1);
    UpdateLength(p, offset, 1);
    UpdateTimes(14_000);
    var a, s := ReachEvent(found);
    var b, m, now;
    b, m, now := FirstPacket(s, p, 14_000, e);
    var c, v := BroughtHandled(m, p, s.rfChannel, 14_000, now, e);
    UpdateHandled(s, m, v, p, offset);
    u := Listen(v, now);
    UpdateListens(v, u, offset);
    LeadsConcat(start, 0, a, s, 13_620, b, m, now);
    LeadsConcat(start, 0, a + b, m, now, c, v, now);
    LeadsConcat(start, 0, a + b + c, v, now, [Match2(true)], u, now);
    es := a + b + c + [Match2(true)];
  }

  lemma UpdateTimes(t0: nat)
    ensures ByteAt(t0, 16) == t0 + 1_280 && ByteAt(t0, 17) == t0 + 1_360
    ensures ByteAt(t0, 12) == t0 + 960 && ByteAt(t0, 13) == t0 + 1_040
  {}

  lemma UpdateHandled(s: State, m: State, v: State, p: seq<u8>, offset: u8)
    requires IsUpdate(p, offset, 1) && Brought(m, p, s.rfChannel, 14_000) && m.rfChannel == s.rfChannel
    requires IsLink(m.conn, 5, 0) && !m.conn.anchorSet && m.event == ConnEvent(13_600, 1, true)
    requires OnDataChannel(m) && m.mr2On
    requires Calm(v) && v == PacketHandler(Handing(m), MainBuf(m), false).(buf := v.buf)
    ensures v.mr2On && OnLink(v.conn, 5, 0) && UpdateFor(v.conn, offset, 1) && !v.conn.anchorSet
    ensures v.event == ConnEvent(13_600, 1, true) && OnDataChannel(v)
  {
    hide *;
    BroughtParts(m, p, s.rfChannel, 14_000);
    OnData(m);
    Kinds(MainBuf(m), p);
    HandlerByKind(Handing(m), MainBuf(m), false);
    HandingFields(m);
    UpdatedLink(m.conn, MainBuf(m).data, 0, offset, 1);
    ConnUpdated(m, v, ConnectionUpdate(m.conn, MainBuf(m).data));
  }

  lemma ConnUpdated(m: State, v: State, c: Conn)
    requires m.buf.main.Plain? && v == Handing(m).(conn := c).(buf := v.buf)
    ensures v.conn == c && v.event == m.event && v.rfChannel == m.rfChannel && v.mr2On == m.mr2On
    ensures OnDataChannel(v) == OnDataChannel(m)
  {}

  /** What the update makes of the connection. */
  lemma UpdatedLink(c: Conn, data: Bytes, counter: u16, offset: u8, instant: u8)
    requires Extract(data, 4, 2) == offset && Extract(data, 12, 2) == instant
    ensures
      var d := ConnectionUpdate(c, data);
      && (IsLink(c, 5, counter) || OnLink(c, 5, counter) ==> OnLink(d, 5, counter))
      && UpdateFor(d, offset, instant) && d.anchorSet == c.anchorSet && d.lastAnchor == c.lastAnchor
      && d.lastPacketTs == c.lastPacketTs
  {
    hide Extract, LinkHistory;
  }

  lemma UpdateListens(v: State, u: State, offset: u8)
    requires OnLink(v.conn, 5, 0) && UpdateFor(v.conn, offset, 1) && !v.conn.anchorSet
    requires v.event == ConnEvent(13_600, 1, true) && OnDataChannel(v)
    requires u == v.(rxOn := true, mr2On := false) && Calm(u)
    ensures UpdateAhead(u, offset)
  {
    hide Calm, OnLink, UpdateFor;
  }

  lemma UpdateFacts(u: State, offset: u8)
    requires UpdateAhead(u, offset)
    ensures Calm(u) && u.rxOn && OnDataChannel(u) && u.event == ConnEvent(13_600, 1, true) && u.event.numPackets == 1
    ensures OnLink(u.conn, 5, 0) && UpdateFor(u.conn, offset, 1) && !u.conn.anchorSet
  {
    hide Calm, OnLink, UpdateFor;
  }

  /** Event 0 was closed by its second packet, which is about to be handled, and the update is due in event 1. */
  ghost predicate UpdateDue(m: State, offset: u8, isOpen: bool, mr0: u32) {
    && OnLink(m.conn, 5, 1) && UpdateFor(m.conn, offset, 1) && m.conn.anchorSet && m.conn.lastAnchor == 13_600
    && m.conn.lastPacketTs <= 17_280 && m.event == ConnEvent(13_600, 0, isOpen) && m.mr0On && m.mr0 == mr0
  }

  lemma ReachSecond(found: State, offset: u8, p: seq<u8>, e: Event)
    returns (es: seq<Event>, m: State, now: u32, channel: u16)
    requires Cold(found) && Sendable(p) && |p| <= 17 && e.Loop?
    ensures Leads(Start(found), 0, es, m, now) && now <= 17_280 && Brought(m, p, channel, 16_000)
    ensures UpdateDue(m, offset, false, 85_600) && ChannelIndex(channel) < 37
  {
    var start := Start(found);
    SecondTimes(16_000, p);
    hide *;
    var a, u := ReachUpdate(found, offset);
    UpdateFacts(u, offset);
    OnData(u);
    var b;
    b, m, now := PacketReachesHandler(u, p, 16_000, 15_280, e);
    channel := u.rfChannel;
    LeadsConcat(start, 0, a, u, 15_280, b, m, now);
    es := a + b;
    UpdateCloses(u, m, offset, now);
  }

  lemma SecondTimes(t0: nat, p: seq<u8>)
    requires t0 == 16_000 && 5 <= |p| <= 17
    ensures ByteAt(t0, |p|) < U32 && ByteAt(t0, |p| - 1) <= 17_280
  {}

  lemma UpdateCloses(u: State, m: State, offset: u8, now: u32)
    requires UpdateAhead(u, offset) && EventClosed(u, m, u.event.(numPackets := 2), now) && now <= 17_280
    ensures UpdateDue(m, offset, false, 85_600)
  {
    UpdateFacts(u, offset);
    SecondAnchor(u.conn, u.event.(numPackets := 2), offset, now);
    hide OnLink, UpdateFor, UpdateAhead, Calm, ClosedConn, NextMatch;
  }

  lemma SecondAnchor(c: Conn, e: ConnEvent, offset: u8, now: u32)
    requires OnLink(c, 5, 0) && UpdateFor(c, offset, 1) && e == ConnEvent(13_600, 2, true)
    ensures
      var d := ClosedConn(c, e, now);
      && OnLink(d, 5, 1) && UpdateFor(d, offset, 1) && d.anchorSet && d.lastAnchor == 13_600 && d.lastPacketTs == now
      && NextMatch(d) == 85_600
  {
    hide LinkHistory;
  }

  lemma DueFacts(m: State, offset: u8, isOpen: bool, mr0: u32)
    requires UpdateDue(m, offset, isOpen, mr0)
    ensures OnLink(m.conn, 5, 1) && UpdateFor(m.conn, offset, 1) && m.conn.anchorSet && m.conn.lastAnchor == 13_600
    ensures m.conn.lastPacketTs <= 17_280 && m.event == ConnEvent(13_600, 0, isOpen) && m.event.isOpen == isOpen
    ensures m.mr0On && m.mr0 == mr0
    ensures AtUpdateInstant(m.conn) && m.conn.eventCounter == 1 && !m.conn.mapPending
  {
    hide LinkHistory;
  }

  /** Event 1 is next to be tuned, whether its window is waited for or not. */
  lemma DueSchedule(m: State, offset: u8, isOpen: bool, mr0: u32)
    requires UpdateDue(m, offset, isOpen, mr0)
    ensures Scheduled(m, 1, LinkHistory()) && Following(m) && !Tuned(m)
  {
    hide *;
    DueFacts(m, offset, isOpen, mr0);
    OpenIsTuned(m);
    NextAfter(m, 1);
    FiveTimes(1, 5);
    LinkSchedule(m, 1);
  }

  // ----- a map and a connection update at one instant

  lemma MapTakenDown(s: State, e: Event, n: nat, h: History)
    requires Inv(s) && Ready(s) && Enabled(s, e) && Keeps(s, e) && Scheduled(s, n, h) && Handles(s, e, MapReq)
    requires !s.event.isOpen && !Finishes(s, e)
    ensures NextToTune(s, n) == n && Scheduled(Step(s, e), n, h.(updates := h.updates + UpdatesBy(s, e, n)))
  {
    LoopExact(s, n, h, e);
    assert !Skips(s, e);
    CourseScheduled(s, e, n, h);
    hide Inv, Ready, Enabled, Keeps, Scheduled, KindOf, Step, UpdatesBy, Finishes, OnCourse, Skips;
  }

  lemma BecomesDue(c: Conn, t: State, data: Bytes)
    requires AtUpdateInstant(c) && c.winOffset == 0
    requires t.conn == MapUpdate(c, data) && Extract(data, 8, 2) == c.eventCounter
    requires
      var idx := NextChannel(c.channelIdx, c.hopIncrement);
      MappedPhys(idx, c.remapping) != MappedPhys(idx, ParsedTable(data[3..8]))
    ensures BothDue(t)
  {
    hide Extract, ParsedTable, MappedPhys, NextChannel;
  }

  lemma NoOffset(c: Conn)
    requires UpdateFor(c, 0, 1)
    ensures c.winOffset == 0
  {}

  /** In event 0 come a connection update and a map update, both for event 1: event 1 is tuned with the old map. */
  lemma SharedInstantRun(found: State) returns (es: seq<Event>, s: State, t: nat, e: Event, now: u32)
    requires Cold(found)
    ensures Leads(Start(found), 0, es, s, t) && Ready(s) && Enabled(s, e) && Misses(Step(s, e), Match0(now))
    ensures Deviates(s, [e] + [Match0(now)], 1, LinkHistory()) && Timely(s, [e] + [Match0(now)], t)
  {
    e := Loop(true, false);
    hide *;
    var p := MapExists(1);
    MapLength(p, 1);
    var time, channel;
    es, s, time, channel := ReachSecond(found, 0, p, e);
    DueFacts(s, 0, false, 85_600);
    DueSchedule(s, 0, false, 85_600);
    AtHandFacts(s, p, channel, 16_000, e);
    RequestStep(s, e);
    KindsApart(s, e);
    t, now := time, s.mr0;
    var g, v := LinkHistory(), Step(s, e);
    g := g.(updates := g.updates + UpdatesBy(s, e, 1));
    MapTakenDown(s, e, 1, LinkHistory());
    NoOffset(s.conn);
    MapsDiffer(s.conn, HandledData(s), 1);
    BecomesDue(s.conn, v, HandledData(s));
    SharedInstantWrong(v, 1, g, now);
    WrongLater(s, e, [Match0(now)], 1, 1, LinkHistory());
    WrongDeviates(s, [e] + [Match0(now)], 1, LinkHistory());
    DeviatesPossible(s, [e] + [Match0(now)], 1, LinkHistory());
    LoopThenMatch(s, v, e, now, t);
    TimelyTwo(s, e, Match0(now), t);
  }

  // ----- an update replaced while its window is waited for

  /** MR0 fires, and the transmit window of event 1 is waited for. */
  lemma WindowOpens(m: State, p: seq<u8>, channel: u16, t0: u32, t: nat) returns (u: State)
    requires Brought(m, p, channel, t0) && UpdateDue(m, 1, false, 85_600) && t <= 85_600
    ensures Leads(m, t, [Match0(m.mr0)], u, 85_600) && Brought(u, p, channel, t0) && UpdateDue(u, 1, true, 98_100)
  {
    var e := Match0(m.mr0);
    BroughtParts(m, p, channel, t0);
    DueFacts(m, 1, false, 85_600);
    hide Inv, Ready, Brought, PendingIn, Leads, EmptyCurrent, UpdateDue, MainBuf;
    WindowStep(m);
    u := Step(m, e);
    assert OnTime(m, e, t) && TimeAfter(e, t) == 85_600;
    hide Enabled, Step, OnTime, TimeAfter, AtUpdateInstant, OnLink, UpdateFor;
    LeadsOne(m, t, e);
    StepKeeps(m, e);
    InvReady(u);
    BroughtStill(m, u, p, channel, t0);
    DueStill(m, u);
  }

  lemma WindowStep(m: State)
    requires Ready(m) && m.mr0On && AtUpdateInstant(m.conn) && UpdateFor(m.conn, 1, 1)
    requires m.event == ConnEvent(13_600, 0, false) && OnLink(m.conn, 5, 1) && m.conn.lastAnchor == 13_600
    ensures Enabled(m, Match0(m.mr0))
    ensures
      var u := Step(m, Match0(m.mr0));
      && u.conn == m.conn && u.event == ConnEvent(13_600, 0, true) && u.mr0On && u.mr0 == 98_100 && u.buf == m.buf
      && u.cancelFollow == m.cancelFollow
  {
    hide CanReceive, LinkHistory;
  }

  lemma BroughtStill(m: State, u: State, p: seq<u8>, channel: u16, t0: u32)
    requires Brought(m, p, channel, t0) && Inv(u) && Ready(u) && u.buf == m.buf && u.cancelFollow == m.cancelFollow
    ensures Brought(u, p, channel, t0)
  {
    hide Inv, Ready, EmptyCurrent;
  }

  lemma DueStill(m: State, u: State)
    requires UpdateDue(m, 1, false, 85_600) && u.conn == m.conn && u.event == ConnEvent(13_600, 0, true)
    requires u.mr0On && u.mr0 == 98_100
    ensures UpdateDue(u, 1, true, 98_100)
  {
    hide OnLink, UpdateFor;
  }

  /** Event 1 closes without having been tuned; the connection goes on, and the next match tunes event 2. */
  lemma FreedCloses(u: State, c: Conn, t: State, now: u32)
    requires now == 98_100 && !t.cancelFollow && t.event == ConnEvent(13_600, 0, true)
    requires OnLink(t.conn, 5, 1) && UpdateFor(t.conn, 0, 5) && t.conn.anchorSet && t.conn.lastAnchor == 13_600
    requires t.conn.lastPacketTs <= 17_280
    ensures !ClosingRetunes(t.(conn := MapApplied(t.conn)), now) && !AtUpdateInstant(t.conn)
    ensures WillTune(ClosedConn(MapApplied(t.conn), t.event, now))
    ensures NextMatch(ClosedConn(MapApplied(t.conn), t.event, now)) == 160_600
  {
    assert MapApplied(t.conn) == t.conn by { hide LinkHistory; }
    hide LinkHistory, MapApplied;
  }

  /**
   In event 0 come two connection updates; while the window of the first is waited for in event 1, the second one
   takes its place: event 1 closes untuned.
   */
  lemma ReplacedRun(found: State)
    returns (es: seq<Event>, s: State, t: nat, e: Event, now: u32, later: u32)
    requires Cold(found)
    ensures Leads(Start(found), 0, es, s, t) && Ready(s) && Enabled(s, e) && Skips(s, e)
    ensures Deviates(s, [e] + ([Match0(now)] + [Match0(later)]), 1, LinkHistory())
    ensures Timely(s, [e] + ([Match0(now)] + [Match0(later)]), t)
  {
    var start := Start(found);
    e, now, later, t := Loop(true, false), 98_100, 160_600, 85_600;
    hide *;
    var p := UpdateExists(0, 5);
    UpdateLength(p, 0, 5);
    var a, m, time, channel;
    a, m, time, channel := ReachSecond(found, 1, p, e);
    s := WindowOpens(m, p, channel, 16_000, time);
    LeadsConcat(start, 0, a, m, time, [Match0(m.mr0)], s, t);
    es := a + [Match0(m.mr0)];
    DueFacts(s, 1, true, now);
    DueSchedule(s, 1, true, now);
    AtHandFacts(s, p, channel, 16_000, e);
    InstantIs(s, HandledData(s));
    RequestStep(s, e);
    KindsApart(s, e);
    var v := Step(s, e);
    UpdatedLink(s.conn, HandledData(s), 1, 0, 5);
    FreedCloses(s, s.conn, v, now);
    ReplacedDeviates(s, 1, LinkHistory(), e, now, later);
    DeviatesPossible(s, [e] + ([Match0(now)] + [Match0(later)]), 1, LinkHistory());
    LoopThenMatch(s, v, e, now, t);
    ClosesAt(v, now);
    MatchThenMatch(Step(v, Match0(now)), now, later);
    TimelyThree(s, e, Match0(now), Match0(later), t);
  }
}
