/**
 What the requests of a connection ask for, by the bytes of their packets: a
 CONNECT_REQ, a connection update and a channel map (Core Specification, Vol 6,
 Part B, sections 2.3.3.1 and 2.4.2). Times are in units of 100 ns.
 */
module LePhyRequests {
  import opened Bits
  import opened Channels
  import opened LePhy

  // ----- numbers in a packet

  /** Two bytes, least significant first. */
  function Word(data: Bytes, o: nat): u16
    requires o + 2 <= BUFFER
  {
    data[o] as int + 256 * data[o + 1] as int
  }

  lemma OneByte(data: Bytes, o: nat)
    requires o < BUFFER
    ensures Extract(data, o, 1) == data[o]
  {
    assert Extract(data, o + 1, 0) == 0;
  }

  lemma TwoBytes(data: Bytes, o: nat)
    requires o + 2 <= BUFFER
    ensures Extract(data, o, 2) == Word(data, o)
  {
    OneByte(data, o + 1);
  }

  lemma ThreeBytes(data: Bytes, o: nat)
    requires o + 3 <= BUFFER
    ensures Extract(data, o, 3) == Word(data, o) + 65536 * data[o + 2] as int
  {
    TwoBytes(data, o + 1);
  }

  lemma FourBytes(data: Bytes, o: nat)
    requires o + 4 <= BUFFER
    ensures Extract(data, o, 4) == Word(data, o) + 65536 * Word(data, o + 2) as int
  {
    ThreeBytes(data, o + 1);
  }

  // ----- control packets on a data channel

  /** A control packet (the low bits of the header are 11) with this opcode and length. */
  predicate IsControl(b: RxBuf, opcode: nat, length: nat) {
    ChannelIndex(b.channel) < 37 && b.data[0] % 4 == 3 && b.data[2] == opcode && b.data[1] == length
  }

  /** A connection update has opcode 0 and 12 bytes, a channel map opcode 1 and 8 bytes, a CONNECT_REQ type 5. */
  lemma KindByBytes(b: RxBuf)
    ensures KindOf(b).UpdateReq? <==> IsControl(b, 0, 12)
    ensures KindOf(b).MapReq? <==> IsControl(b, 1, 8)
    ensures KindOf(b).ConnectReq? <==> ChannelIndex(b.channel) >= 37 && b.data[0] % 16 == 5
  {}

  /** The update that the bytes ask for is noted: it waits for the event of its instant. */
  predicate Asked(c: Conn, data: Bytes) {
    && c.updatePending && c.updateInstant == Word(data, 12)
    && c.updateInterval == 12500 * Word(data, 6) && c.updateTimeout == 100000 * Word(data, 10) % 0x1_0000_0000
    && c.winSize == 12500 * data[3] as int % 256 && c.winOffset == 12500 * Word(data, 4)
  }

  /** The update that the bytes ask for is in force. */
  predicate InForce(c: Conn, data: Bytes) {
    && !c.updatePending && c.connInterval == 12500 * Word(data, 6)
    && c.supervisionTimeout == 100000 * Word(data, 10) % 0x1_0000_0000
  }

  /** A connection update is noted; apart from the window it changes nothing that is in use. */
  lemma UpdateAsked(s: State, b: RxBuf, doFollow: bool)
    requires IsControl(b, 0, 12)
    ensures
      var t := PacketHandler(s, b, doFollow);
      && Asked(t.conn, b.data) && t == s.(conn := t.conn)
      && t.conn == s.conn.(winSize := t.conn.winSize, winOffset := t.conn.winOffset, updatePending := true,
                           updateInterval := t.conn.updateInterval, updateTimeout := t.conn.updateTimeout,
                           updateInstant := t.conn.updateInstant)
  {
    OneByte(b.data, 3);
    TwoBytes(b.data, 4);
    TwoBytes(b.data, 6);
    TwoBytes(b.data, 10);
    TwoBytes(b.data, 12);
    KindByBytes(b);
    hide Extract, KindOf;
  }

  /** A channel map is noted with its instant: bit i of the five bytes stands for channel i. */
  lemma MapAsked(s: State, b: RxBuf, doFollow: bool)
    requires IsControl(b, 1, 8)
    ensures
      var t := PacketHandler(s, b, doFollow);
      && t.conn.mapPending && t.conn.mapInstant == Word(b.data, 8)
      && t.conn.pendingRemapping == Remap(b.data[3..8])
      && t == s.(conn := s.conn.(mapPending := true, mapInstant := t.conn.mapInstant,
                                 pendingRemapping := t.conn.pendingRemapping))
  {
    TwoBytes(b.data, 8);
    KindByBytes(b);
    hide Extract, KindOf, Remap;
  }

  /** No other packet asks for anything. */
  lemma NothingAsked(s: State, b: RxBuf, doFollow: bool)
    requires !IsControl(b, 0, 12) && !IsControl(b, 1, 8)
    requires ChannelIndex(b.channel) >= 37 && b.data[0] % 16 == 5 ==> !doFollow || b.size != 39
    ensures PacketHandler(s, b, doFollow) == s
  {
    KindByBytes(b);
    hide KindOf, ConnectFields, ConnectValid, Connected;
  }

  // ----- the CONNECT_REQ

  predicate IsConnectReq(b: RxBuf) { ChannelIndex(b.channel) >= 37 && b.data[0] % 16 == 5 && b.size == 39 }

  /** Some of the 37 channels is set in the map. */
  ghost predicate SomeChannel(channelMap: seq<u8>)
    requires |channelMap| == 5
  {
    exists i :: 0 <= i < 37 && MapBits(channelMap)[i]
  }

  /**
   What is accepted: an interval of 6 to 3200 units of 1.25 ms, a window offset of at most the interval, a window of
   at least one unit and at most eight, and less than the interval, a time-out of 10 to 3200 units of 10 ms, and a
   channel. Because the time-out is scaled in 32 bits, the units from 42960 to 46149 are accepted, too.
   */
  ghost predicate Acceptable(data: Bytes) {
    && 6 <= Word(data, 24) <= 3200 && Word(data, 22) <= Word(data, 24)
    && 1 <= data[21] <= 8 && data[21] < Word(data, 24)
    && (10 <= Word(data, 28) <= 3200 || 42960 <= Word(data, 28) <= 46149)
    && SomeChannel(data[30..35])
  }

  lemma ChannelCount(channelMap: seq<u8>)
    requires |channelMap| == 5
    ensures ParsedTable(channelMap).totalChannels > 0 <==> SomeChannel(channelMap)
  {
    var bits := MapBits(channelMap);
    var used := UsedBelow(bits, 37);
    hide UsedBelow, MapBits;
    if used != [] {
      assert bits[used[0]];
    }
    if SomeChannel(channelMap) {
      var i :| 0 <= i < 37 && bits[i];
      assert i in used;
    }
  }

  /** The fields of a request as they are read. */
  lemma FieldsRead(c: Conn, data: Bytes)
    ensures ConnectFields(c, data) ==
      c.(accessAddress := Word(data, 14) + 65536 * Word(data, 16), crcInit := Word(data, 18) + 65536 * data[20] as int,
         winSize := data[21], winOffset := Word(data, 22), connInterval := Word(data, 24),
         supervisionTimeout := Word(data, 28), hopIncrement := data[35] % 32)
  {
    FourBytes(data, 14);
    ThreeBytes(data, 18);
    OneByte(data, 21);
    TwoBytes(data, 22);
    TwoBytes(data, 24);
    TwoBytes(data, 28);
    OneByte(data, 35);
    hide Extract;
  }

  lemma TimeoutUnits(w: u16)
    ensures 1_000_000 <= w * 100_000 % U32 <= 320_000_000 <==> 10 <= w <= 3200 || 42960 <= w <= 46149
    ensures w <= 3200 ==> w * 100_000 % U32 == w * 100_000
  {
    if w * 100_000 < U32 {
    } else {
      assert w * 100_000 % U32 == w * 100_000 - U32;
    }
  }

  lemma ValidByBytes(c: Conn, data: Bytes)
    ensures ConnectValid(ConnectFields(c, data), data[30..35]) <==> Acceptable(data)
  {
    FieldsRead(c, data);
    ChannelCount(data[30..35]);
    TimeoutUnits(Word(data, 28));
    hide ConnectFields, ParsedTable, SomeChannel;
  }

  /** The connection that an accepted request makes. */
  ghost predicate AsRequested(c: Conn, data: Bytes) {
    && c.accessAddress == Word(data, 14) + 65536 * Word(data, 16)
    && c.crcInit == Word(data, 18) + 65536 * data[20] as int
    && c.winSize == data[21] && c.winOffset == 12500 * Word(data, 22)
    && c.connInterval == 12500 * Word(data, 24)
    && c.supervisionTimeout == 100000 * Word(data, 28) % 0x1_0000_0000
    && c.hopIncrement == data[35] % 32 && c.remapping == Remap(data[30..35])
  }

  /** What a connection leaves behind when it is given up, or refused: the access address, and zeros. */
  predicate Blank(c: Conn) {
    && c.accessAddress == 0x8e89bed6 && c.crcInit == 0 && c.channelIdx == 0 && c.hopIncrement == 0
    && c.connInterval == 0 && c.supervisionTimeout == 0 && c.winSize == 0 && c.winOffset == 0
    && c.lastAnchor == 0 && c.lastPacketTs == 0 && c.eventCounter == 0 && !c.anchorSet
    && !c.updatePending && c.updateInterval == 0 && c.updateTimeout == 0 && c.updateInstant == 0
    && !c.mapPending && c.mapInstant == 0
    && c.remapping.totalChannels == 0 && c.pendingRemapping.totalChannels == 0
  }

  /**
   A CONNECT_REQ that is to be followed: an acceptable one makes the connection that its bytes describe, with no event
   open and the first match 300 us before the transmit window, which begins 1.25 ms and the offset after the packet,
   of 352 us; any other one clears the connection. What it does not name stays as it was.
   */
  lemma ConnectByBytes(s: State, b: RxBuf)
    requires IsConnectReq(b)
    ensures
      var t := PacketHandler(s, b, true);
      if Acceptable(b.data) then
        && AsRequested(t.conn, b.data)
        && t.conn == s.conn.(accessAddress := t.conn.accessAddress, crcInit := t.conn.crcInit,
                             winSize := t.conn.winSize, winOffset := t.conn.winOffset,
                             connInterval := t.conn.connInterval,
                             supervisionTimeout := t.conn.supervisionTimeout,
                             hopIncrement := t.conn.hopIncrement, remapping := t.conn.remapping)
        && t.mr0On && t.mr0 == (b.timestamp + 3520 + 12500 + 12500 * Word(b.data, 22) - 3000) % 0x1_0000_0000
        && !t.mr2On && !t.event.isOpen && t.event.numPackets == 0 && !t.cancelFollow
      else t == s.(cancelFollow := false, conn := t.conn) && Blank(t.conn)
  {
    KindByBytes(b);
    FieldsRead(s.conn, b.data);
    ValidByBytes(s.conn, b.data);
    hide KindOf, ConnectFields, ConnectValid, Acceptable, Remap;
  }
}
