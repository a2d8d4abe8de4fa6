/**
 The LE connection follower as a state machine: the byte handler, the timer
 handler and the main loop, each step of which is a function of the state.
 Times are in units of 100 ns and wrap around at 2^32.
 */
module LePhy {
  import opened Bits
  import opened Channels
  import opened Whitening
  import opened RingQueue

  const POOL: nat := 4
  const BUFFER: nat := 260
  const ADVERTISING_AA: u32 := 0x8e89bed6
  const RX_WARMUP: u32 := 3000
  const IFS_TIMEOUT: u32 := 3000
  const ANCHOR_EPSILON: u32 := 30
  const MAX_PACKET: u32 := 21200

  function Add32(a: nat, b: nat): u32 { (a + b) % U32 }

  function Sub32(a: u32, b: u32): u32 { if a >= b then a - b else a + U32 - b }

  // ----- buffers

  type Bytes = d: seq<u8> | |d| == BUFFER witness seq(BUFFER, _ => 0)

  /** le_rx_t without the signal strength. */
  datatype RxBuf = RxBuf(
    data: Bytes, size: nat, pos: nat, timestamp: u32, channel: u16, accessAddress: u32, available: bool)

  function NoBytes(): Bytes { seq(BUFFER, _ => 0) }

  /** buffer_clear */
  function Cleared(b: RxBuf): RxBuf {
    b.(pos := 0, size := 0, data := NoBytes())
  }

  datatype Option<T> = None | Some(value: T)

  /**
   Where the main loop is. Advance is between queue_remove's test and its read, Loaded between that read and the
   write of the head; Taken, Plain and Handled follow dewhitening and the packet handler.
   */
  datatype Main =
    | Idle
    | Advance(newhead: nat)
    | Loaded(newhead: nat, buf: nat)
    | Taken(buf: nat)
    | Plain(buf: nat)
    | Handled(buf: nat)

  /** The buffers and everything that points to them. */
  datatype Buffers = Buffers(pool: seq<RxBuf>, current: Option<nat>, ring: Ring<nat>, main: Main)

  function ClearCurrent(b: Buffers): Buffers
    requires b.current.Some? && b.current.value < |b.pool|
  {
    b.(pool := b.pool[b.current.value := Cleared(b.pool[b.current.value])])
  }

  /** The first available buffer from i on. */
  function FirstAvailable(pool: seq<RxBuf>, i: nat): (r: Option<nat>)
    ensures r.Some? ==> i <= r.value < |pool| && pool[r.value].available
    ensures r.None? ==> forall k :: i <= k < |pool| ==> !pool[k].available
    decreases |pool| - i
  {
    if i >= |pool| then None else if pool[i].available then Some(i) else FirstAvailable(pool, i + 1)
  }

  /** current_rxbuf = buffer_get() */
  function GetCurrent(b: Buffers): Buffers {
    match FirstAvailable(b.pool, 0)
    case None => b.(current := None)
    case Some(k) => b.(current := Some(k), pool := b.pool[k := Cleared(b.pool[k]).(available := false)])
  }

  /** queue_insert(&packet_queue, current_rxbuf), its result ignored; the current buffer is then to be replaced. */
  function EnqueueCurrent(b: Buffers): Buffers
    requires b.current.Some? && |b.ring.data| == FIFOSIZE
  {
    b.(ring := Inserted(b.ring, b.current.value).0)
  }

  // ----- the connection

  /** A remapping whose bytes are all zero. */
  function NoChannels(): Remapping {
    Remapping(Zeros(37), seq(37, _ => 0), 0)
  }

  predicate IsTable(r: Remapping) {
    && |r.channelInUse| == |r.remappingIndex| == 37 && r.totalChannels <= 37
    && forall i :: 0 <= i < 37 ==> r.remappingIndex[i] < 37
  }

  type Table = r: Remapping | IsTable(r) witness NoChannels()

  function ParsedTable(channelMap: seq<u8>): Table
    requires |channelMap| == 5
  {
    Remap(channelMap)
  }

  /** le_conn_t, without the reversed CRC initial value. */
  datatype Conn = Conn(
    accessAddress: u32, crcInit: u24,
    channelIdx: u8, hopIncrement: u8, connInterval: u32, supervisionTimeout: u32,
    winSize: u8, winOffset: u32, remapping: Table,
    lastAnchor: u32, anchorSet: bool, lastPacketTs: u32, eventCounter: u16,
    updatePending: bool, updateInterval: u32, updateTimeout: u32, updateInstant: u16,
    mapPending: bool, mapInstant: u16, pendingRemapping: Table)

  /** reset_conn */
  function NoConnection(): Conn {
    Conn(ADVERTISING_AA, 0, 0, 0, 0, 0, 0, 0, NoChannels(), 0, false, 0, 0, false, 0, 0, 0, false, 0, NoChannels())
  }

  datatype ConnEvent = ConnEvent(anchor: u32, numPackets: nat, isOpen: bool)

  function ResetEvent(e: ConnEvent): ConnEvent { e.(numPackets := 0, isOpen := false) }

  // ----- the whole state

  /** mr0 is the match value of timer register MR0; mr2 and mr3 are only armed or not. */
  datatype State = State(
    buf: Buffers, conn: Conn, event: ConnEvent, rfChannel: u16,
    mr0On: bool, mr0: u32, mr2On: bool, mr3On: bool, rxOn: bool,
    cancelFollow: bool, advChannel: u16)

  function SetMatch(s: State, time: nat): State { s.(mr0On := true, mr0 := time % U32) }

  predicate Following(s: State) { s.conn.accessAddress != ADVERTISING_AA }

  predicate OnDataChannel(s: State) { ChannelIndex(s.rfChannel) < 37 }

  /** buffers_init */
  function AllAvailable(pool: seq<RxBuf>): seq<RxBuf> {
    seq(|pool|, i requires 0 <= i < |pool| => pool[i].(available := true))
  }

  /** queue_init */
  function Emptied(ring: Ring<nat>): Ring<nat> { ring.(head := 0, tail := 0) }

  /**
   le_phy_main up to its loop, from the state that the statics and the timer are found in: of the connection only the
   access address is set, and the other fields, the event and the matches of MR0 and MR3 stay as they were.
   */
  function Start(found: State): State
    requires |found.buf.pool| == POOL
  {
    found.(buf := GetCurrent(Buffers(AllAvailable(found.buf.pool), None, Emptied(found.buf.ring), Idle)),
           conn := found.conn.(accessAddress := ADVERTISING_AA), rfChannel := found.advChannel,
           mr2On := true, rxOn := false, cancelFollow := false)
  }

  /** What the statics hold when the program starts. */
  function ColdConnection(): Conn { NoConnection().(accessAddress := 0) }

  // ----- tuning

  function AdvIndex(adv: u16): u8 {
    if adv == 2402 then 37 else if adv == 2426 then 38 else if adv == 2480 then 39 else 37
  }

  /** The hop to the next data channel. */
  function Hopped(c: Conn): Conn {
    c.(channelIdx := (c.channelIdx + c.hopIncrement) % 37)
  }

  function MappedPhys(idx: nat, table: Table): u16
    requires idx < 37
  {
    IndexToPhys(MapChannel(idx, table))
  }

  /** change_channel: it clears the current buffer, so there has to be one. */
  function ChangeChannel(s: State): State
    requires s.buf.current.Some? && s.buf.current.value < |s.buf.pool|
  {
    var conn := if Following(s) then Hopped(s.conn) else s.conn;
    s.(buf := ClearCurrent(s.buf),
       conn := conn,
       rfChannel := if Following(s) then MappedPhys(conn.channelIdx, conn.remapping)
                    else IndexToPhys(AdvIndex(s.advChannel)),
       rxOn := false, mr2On := true)
  }

  // ----- the end of a connection event

  /** The anchor observed in the event, if it is accepted as the master's. */
  function ObservedAnchor(c: Conn, e: ConnEvent): Option<u32> {
    if e.numPackets == 2 then Some(e.anchor)
    else if e.numPackets == 1 && c.anchorSet then
      var delta := Sub32(Add32(c.lastAnchor, c.connInterval), e.anchor);
      if Add32(delta, ANCHOR_EPSILON) < 2 * ANCHOR_EPSILON then Some(e.anchor) else None
    else None
  }

  function AnchorUpdated(c: Conn, e: ConnEvent, now: u32): Conn {
    var d := match ObservedAnchor(c, e)
      case Some(anchor) => c.(lastAnchor := anchor, anchorSet := true)
      case None =>
        if c.anchorSet then c.(lastAnchor := Add32(c.lastAnchor, c.connInterval))
        else c.(lastAnchor := e.anchor, lastPacketTs := now);
    if e.numPackets > 0 then d.(lastPacketTs := now) else d
  }

  /** The state after the anchor update and the event counter, before the next step is decided. */
  function Closed(s: State, now: u32): State {
    var c := AnchorUpdated(s.conn, s.event, now);
    s.(conn := c.(eventCounter := (c.eventCounter + 1) % U16), event := ResetEvent(s.event))
  }

  predicate TimedOut(s: State, now: u32) {
    Sub32(now, s.conn.lastPacketTs) > s.conn.supervisionTimeout
  }

  /** finish_conn_event calls change_channel. */
  predicate ClosingRetunes(s: State, now: u32) {
    TimedOut(Closed(s, now), now) || s.cancelFollow
  }

  function FinishConnEvent(s: State, now: u32): State
    requires ClosingRetunes(s, now) ==> s.buf.current.Some? && s.buf.current.value < |s.buf.pool|
  {
    var t := Closed(s, now);
    if TimedOut(t, now) then ChangeChannel(t.(conn := NoConnection()))
    else if t.cancelFollow then ChangeChannel(t.(cancelFollow := false, conn := NoConnection()))
    else SetMatch(t, t.conn.lastAnchor + t.conn.connInterval + U32 - RX_WARMUP)
  }

  // ----- le_DMA_IRQHandler

  function LengthOf(b: RxBuf): u8 {
    DewhitenByte(b.data[1], Key(ChannelIndex(b.channel), 1))
  }

  /** The length in the header, with two bytes of header and three of CRC. */
  function SizeFromHeader(b: RxBuf): nat { LengthOf(b) as nat + 5 }

  /** The current buffer after one more byte. */
  function WithByte(b: RxBuf, now: u32, value: u8, rfChannel: u16, accessAddress: u32): RxBuf
    requires b.pos < BUFFER
  {
    var c := b.(data := b.data[b.pos := value], pos := b.pos + 1);
    if c.pos == 1 then c.(timestamp := Sub32(now, 400), channel := rfChannel, accessAddress := accessAddress)
    else if c.pos == 2 then c.(size := SizeFromHeader(c))
    else c
  }

  predicate PacketDone(b: RxBuf) { b.pos > 2 && b.pos >= b.size }

  predicate CanReceive(b: Buffers) {
    b.current.Some? && b.current.value < |b.pool| && b.pool[b.current.value].pos < BUFFER
  }

  function CurrentBuf(b: Buffers): RxBuf
    requires b.current.Some? && b.current.value < |b.pool|
  {
    b.pool[b.current.value]
  }

  /** The byte is stored; the first one on a data channel stops the event timer. */
  function StoreByte(s: State, now: u32, value: u8): State
    requires CanReceive(s.buf)
  {
    var k := s.buf.current.value;
    var c := WithByte(s.buf.pool[k], now, value, s.rfChannel, s.conn.accessAddress);
    s.(buf := s.buf.(pool := s.buf.pool[k := c]),
       mr0On := s.mr0On && !(c.pos == 1 && OnDataChannel(s)))
  }

  /** current_rxbuf = buffer_get(), and waiting for a buffer or for the synthesizer. */
  function NextBuffer(s: State): State {
    var buf := GetCurrent(s.buf);
    s.(buf := buf, mr3On := s.mr3On || buf.current.None?, mr2On := s.mr2On || buf.current.Some?)
  }

  /** The packet in the current buffer is queued and, on a data channel, counted. */
  function Enqueued(s: State): State
    requires PacketDoneIn(s.buf) && |s.buf.ring.data| == FIFOSIZE
  {
    s.(buf := EnqueueCurrent(s.buf), rxOn := false,
       event := if OnDataChannel(s) then s.event.(numPackets := s.event.numPackets + 1) else s.event)
  }

  predicate PacketDoneIn(b: Buffers) {
    b.current.Some? && b.current.value < |b.pool| && PacketDone(b.pool[b.current.value])
  }

  /** The second packet of an event has come: the state in which finish_conn_event is called. */
  function AfterSecond(s: State): State
    requires PacketDoneIn(s.buf) && |s.buf.ring.data| == FIFOSIZE
  {
    var t := Enqueued(s);
    t.(buf := GetCurrent(t.buf))
  }

  /** The packet that ends is the second of its event. */
  predicate IsSecond(s: State) { OnDataChannel(s) && s.event.numPackets == 1 }

  /** When the second packet ends the connection, there is a buffer left to retune with. */
  predicate CanFinishSecond(s: State, now: u32)
    requires PacketDoneIn(s.buf) && |s.buf.ring.data| == FIFOSIZE
  {
    IsSecond(s) && ClosingRetunes(AfterSecond(s), now) ==> AfterSecond(s).buf.current.Some?
  }

  function EndPacket(s: State, now: u32): State
    requires PacketDoneIn(s.buf) && |s.buf.ring.data| == FIFOSIZE && CanFinishSecond(s, now)
  {
    if IsSecond(s) then FinishConnEvent(AfterSecond(s), now)
    else
      var t := Enqueued(s);
      if OnDataChannel(s) && t.event.numPackets == 1
      then NextBuffer(SetMatch(t.(event := t.event.(anchor := CurrentBuf(s.buf).timestamp)), now + IFS_TIMEOUT))
      else NextBuffer(t)
  }

  function DmaByte(s: State, now: u32, value: u8): State
    requires CanReceive(s.buf) && |s.buf.ring.data| == FIFOSIZE
    requires PacketDoneIn(StoreByte(s, now, value).buf) ==> CanFinishSecond(StoreByte(s, now, value), now)
  {
    var t := StoreByte(s, now, value);
    if PacketDoneIn(t.buf) then EndPacket(t, now) else t
  }

  // ----- TIMER1_IRQHandler

  predicate AtUpdateInstant(c: Conn) { c.updatePending && c.eventCounter == c.updateInstant }

  /** The first pass of a connection update: wait for the transmit window. */
  predicate WaitsForWindow(s: State) {
    AtUpdateInstant(s.conn) && !s.event.isOpen && s.conn.winOffset > 0
  }

  function UpdateApplied(c: Conn): Conn {
    c.(anchorSet := false, connInterval := c.updateInterval, supervisionTimeout := c.updateTimeout,
       updatePending := false)
  }

  function MapApplied(c: Conn): Conn {
    if c.mapPending && c.eventCounter == c.mapInstant then c.(remapping := c.pendingRemapping, mapPending := false)
    else c
  }

  /** MR0 calls change_channel itself. */
  predicate Mr0Tunes(s: State) {
    if AtUpdateInstant(s.conn) then !WaitsForWindow(s) else !s.event.isOpen
  }

  predicate CanMr0(s: State, now: u32) {
    Mr0Tunes(s) || (!AtUpdateInstant(s.conn) && ClosingRetunes(s.(conn := MapApplied(s.conn)), now)) ==>
      s.buf.current.Some? && s.buf.current.value < |s.buf.pool|
  }

  function Mr0(s: State, now: u32): State
    requires CanMr0(s, now)
  {
    if AtUpdateInstant(s.conn) then
      if WaitsForWindow(s) then
        SetMatch(s.(event := s.event.(isOpen := true)),
                 s.conn.lastAnchor + s.conn.connInterval + s.conn.winOffset + U32 - RX_WARMUP)
      else
        var c := UpdateApplied(s.conn);
        ChangeChannel(SetMatch(s.(conn := c, event := s.event.(isOpen := true)),
                               c.lastAnchor + c.connInterval + c.winOffset + c.winSize + MAX_PACKET))
    else
      var t := s.(conn := MapApplied(s.conn));
      if !t.event.isOpen then
        ChangeChannel(SetMatch(t.(event := t.event.(isOpen := true)), now + MAX_PACKET + RX_WARMUP))
      else FinishConnEvent(t, now)
  }

  function Mr2(s: State, locked: bool): State {
    if locked then s.(rxOn := true, mr2On := false) else s
  }

  function Mr3(s: State, locked: bool): State {
    var buf := GetCurrent(s.buf);
    if buf.current.None? then s.(buf := buf, mr3On := true)
    else if locked then s.(buf := buf, rxOn := true)
    else s.(buf := buf, mr2On := true)
  }

  // ----- packet handlers

  /** extract_field: size bytes from offset on, least significant first. */
  function Extract(data: Bytes, offset: nat, size: nat): (x: nat)
    requires offset + size <= BUFFER && size <= 4
    ensures size == 1 ==> x < U8
    ensures size == 2 ==> x < U16
    ensures size == 3 ==> x < U24
    ensures size == 4 ==> x < U32
    decreases size
  {
    if size == 0 then 0 else data[offset] + 256 * Extract(data, offset + 1, size - 1)
  }

  /** The connection parameters of a CONNECT_REQ before they are scaled and checked. */
  function ConnectFields(c: Conn, data: Bytes): Conn {
    c.(accessAddress := Extract(data, 14, 4), crcInit := Extract(data, 18, 3),
       winSize := Extract(data, 21, 1), winOffset := Extract(data, 22, 2),
       connInterval := Extract(data, 24, 2), supervisionTimeout := Extract(data, 28, 2),
       hopIncrement := Extract(data, 35, 1) % 32)
  }

  /** The checks of a CONNECT_REQ, on the raw fields: interval, window offset, window size, timeout, channel map. */
  predicate ConnectValid(c: Conn, channelMap: seq<u8>)
    requires |channelMap| == 5
  {
    && 6 <= c.connInterval <= 3200
    && c.winOffset * 12500 <= c.connInterval * 12500
    && 12500 <= c.winSize * 12500
    && c.winSize * 12500
       <= (if c.connInterval * 12500 - 12500 > 100_000 then 100_000 else c.connInterval * 12500 - 12500)
    && 1_000_000 <= c.supervisionTimeout * 100_000 % U32 <= 320_000_000
    && ParsedTable(channelMap).totalChannels > 0
  }

  function Connected(c: Conn, channelMap: seq<u8>): Conn
    requires |channelMap| == 5 && ConnectValid(c, channelMap)
  {
    c.(connInterval := c.connInterval * 12500, winOffset := c.winOffset * 12500,
       supervisionTimeout := c.supervisionTimeout * 100_000 % U32, remapping := ParsedTable(channelMap))
  }

  function ConnectHandler(s: State, b: RxBuf, doFollow: bool): State {
    if !doFollow || b.size != 39 then s
    else
      var t := s.(cancelFollow := false);
      var c := ConnectFields(t.conn, b.data);
      var channelMap := b.data[30..35];
      if !ConnectValid(c, channelMap) then t.(conn := NoConnection())
      else
        var d := Connected(c, channelMap);
        SetMatch(t.(conn := d, mr2On := false, event := ResetEvent(t.event)),
                 b.timestamp + 10 * (40 + b.size * 8) + d.winOffset + 12500 - RX_WARMUP)
  }

  function ConnectionUpdate(c: Conn, data: Bytes): Conn {
    c.(winSize := Extract(data, 3, 1) * 12500 % U8,
       winOffset := Extract(data, 4, 2) * 12500,
       updateInterval := Extract(data, 6, 2) * 12500,
       updateTimeout := Extract(data, 10, 2) * 100_000 % U32,
       updateInstant := Extract(data, 12, 2),
       updatePending := true)
  }

  function MapUpdate(c: Conn, data: Bytes): Conn {
    c.(mapPending := true, mapInstant := Extract(data, 8, 2), pendingRemapping := ParsedTable(data[3..8]))
  }

  datatype Kind = ConnectReq | UpdateReq | MapReq | Other

  /** What packet_handler takes a dewhitened packet for. */
  function KindOf(b: RxBuf): Kind {
    if ChannelIndex(b.channel) >= 37 then if b.data[0] % 16 == 5 then ConnectReq else Other
    else if b.data[0] % 4 == 3 && b.data[1] > 0 then
      if b.data[2] == 0 && b.data[1] == 12 then UpdateReq
      else if b.data[2] == 1 && b.data[1] == 8 then MapReq
      else Other
    else Other
  }

  function PacketHandler(s: State, b: RxBuf, doFollow: bool): State {
    match KindOf(b)
    case ConnectReq => ConnectHandler(s, b, doFollow)
    case UpdateReq => s.(conn := ConnectionUpdate(s.conn, b.data))
    case MapReq => s.(conn := MapUpdate(s.conn, b.data))
    case Other => s
  }

  // ----- the main loop

  function DewhitenedBuf(b: RxBuf): RxBuf
    requires b.size <= BUFFER
  {
    b.(data := Dewhitened(b.data[..b.size], ChannelIndex(b.channel)) + b.data[b.size..])
  }

  predicate CanMain(s: State) {
    && |s.buf.ring.data| == FIFOSIZE
    && (s.buf.main.Loaded? || s.buf.main.Taken? || s.buf.main.Plain? || s.buf.main.Handled? ==>
          s.buf.main.buf < |s.buf.pool|)
    && (s.buf.main.Advance? ==> s.buf.main.newhead < FIFOSIZE)
    && (s.buf.main.Taken? ==> s.buf.pool[s.buf.main.buf].size <= BUFFER)
  }

  /** One step of the main loop; passes is the answer of filter_match. */
  function MainStep(s: State, passes: bool, doFollow: bool): State
    requires CanMain(s)
  {
    var b := s.buf;
    match b.main
    case Idle => if b.ring.head == b.ring.tail then s else s.(buf := b.(main := Advance(Succ(b.ring.head))))
    case Advance(newhead) => s.(buf := b.(main := Loaded(newhead, b.ring.data[newhead])))
    case Loaded(newhead, k) => s.(buf := b.(ring := b.ring.(head := newhead), main := Taken(k)))
    case Taken(k) => s.(buf := b.(pool := b.pool[k := DewhitenedBuf(b.pool[k])], main := Plain(k)))
    case Plain(k) =>
      var t := s.(buf := b.(main := Handled(k)));
      if passes then PacketHandler(t, b.pool[k], doFollow) else t
    case Handled(k) => s.(buf := b.(pool := b.pool[k := b.pool[k].(available := true)], main := Idle))
  }

  // ----- steps

  datatype Event =
    | Byte(now: u32, value: u8)
    | Match0(now: u32)
    | Match2(locked: bool)
    | Match3(locked: bool)
    | Loop(passes: bool, doFollow: bool)
    | Cancel

  /** What the handlers take for granted of the state; LePhyRuns.InvReady derives it from the invariant of all runs. */
  predicate Ready(s: State) {
    && CanMain(s)
    && (s.buf.current.Some? ==> s.buf.current.value < |s.buf.pool|)
    && (s.rxOn ==> CanReceive(s.buf))
  }

  /**
   A byte comes only while the receiver is on; a timer interrupt only while its match is armed. As the code has it,
   change_channel is only called when there is a current buffer, and MR3 only serves while one is waited for.
   */
  predicate Enabled(s: State, e: Event)
    requires Ready(s)
  {
    match e
    case Byte(now, value) =>
      s.rxOn && (PacketDoneIn(StoreByte(s, now, value).buf) ==> CanFinishSecond(StoreByte(s, now, value), now))
    case Match0(now) => s.mr0On && CanMr0(s, now)
    case Match2(_) => s.mr2On
    case Match3(_) => s.mr3On && s.buf.current.None?
    case Loop(_, _) => true
    case Cancel => true
  }

  function Step(s: State, e: Event): State
    requires Ready(s) && Enabled(s, e)
  {
    match e
    case Byte(now, value) => DmaByte(s, now, value)
    case Match0(now) => Mr0(s, now)
    case Match2(locked) => Mr2(s, locked)
    case Match3(locked) => Mr3(s, locked)
    case Loop(passes, doFollow) => MainStep(s, passes, doFollow)
    case Cancel => s.(cancelFollow := true)
  }
}
