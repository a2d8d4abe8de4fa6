/**
 From the air to the packet handler: any packet that comes in byte by byte is
 queued, and the main loop hands exactly its bytes to the packet handler. Runs
 are timed here: the clock does not go back, and MR0 fires at its match value.
 */
module LePhyReception {
  import opened Bits
  import opened Channels
  import opened Whitening
  import opened RingQueue
  import opened LePhy
  import opened LePhyBuffers
  import opened LePhyFraming
  import opened LePhyRuns
  import opened LePhySchedule

  // ----- runs in time

  predicate OnTime(s: State, e: Event, t: nat) {
    match e
    case Byte(now, _) => t <= now
    case Match0(now) => t <= now == s.mr0
    case _ => true
  }

  function TimeAfter(e: Event, t: nat): nat {
    match e
    case Byte(now, _) => now
    case Match0(now) => now
    case _ => t
  }

  function EndTime(es: seq<Event>, t: nat): nat {
    if es == [] then t else EndTime(es[1..], TimeAfter(es[0], t))
  }

  /** The run is on time from t on. */
  ghost predicate Timely(s: State, es: seq<Event>, t: nat)
    requires Inv(s) && Possible(s, es)
    decreases |es|
  {
    es == [] ||
    (InvReady(s); StepKeeps(s, es[0]);
     OnTime(s, es[0], t) && Timely(Step(s, es[0]), es[1..], TimeAfter(es[0], t)))
  }

  /** The run is possible and on time, and leads from s at time t to u at time v. */
  ghost predicate Leads(s: State, t: nat, es: seq<Event>, u: State, v: nat) {
    Inv(s) && Possible(s, es) && Timely(s, es, t) && Run(s, es) == u && EndTime(es, t) == v
  }

  lemma LeadsNowhere(s: State, t: nat)
    requires Inv(s)
    ensures Leads(s, t, [], s, t)
  {}

  lemma LeadsKeeps(s: State, t: nat, es: seq<Event>, u: State, v: nat)
    requires Leads(s, t, es, u, v)
    ensures Inv(s) && Ready(s) && Inv(u) && Ready(u)
  {
    hide Inv, Ready, Timely, Run;
    InvReady(s);
    InvReady(u);
  }

  lemma LeadsStep(s: State, t: nat, e: Event, es: seq<Event>, u: State, v: nat)
    requires Inv(s) && Ready(s) && Enabled(s, e) && OnTime(s, e, t)
    requires Leads(Step(s, e), TimeAfter(e, t), es, u, v)
    ensures Leads(s, t, [e] + es, u, v)
  {
    InvReady(s);
    StepKeeps(s, e);
    assert ([e] + es)[1..] == es;
    hide Inv, Ready, Enabled, OnTime, Step;
  }

  lemma LeadsOne(s: State, t: nat, e: Event)
    requires Inv(s) && Ready(s) && Enabled(s, e) && OnTime(s, e, t)
    ensures Leads(s, t, [e], Step(s, e), TimeAfter(e, t))
  {
    StepKeeps(s, e);
    LeadsNowhere(Step(s, e), TimeAfter(e, t));
    hide *;
    LeadsStep(s, t, e, [], Step(s, e), TimeAfter(e, t));
    assert [e] + [] == [e];
  }

  lemma LeadsUnfold(s: State, t: nat, es: seq<Event>, u: State, v: nat)
    requires es != [] && Leads(s, t, es, u, v)
    ensures Inv(s) && Ready(s) && Enabled(s, es[0]) && OnTime(s, es[0], t)
    ensures Leads(Step(s, es[0]), TimeAfter(es[0], t), es[1..], u, v)
  {
    InvReady(s);
    StepKeeps(s, es[0]);
    hide Inv, Ready, Enabled, OnTime, Step;
  }

  lemma LeadsEmpty(s: State, t: nat, m: State, w: nat)
    requires Leads(s, t, [], m, w)
    ensures m == s && w == t
  {}

  lemma {:induction false} LeadsConcat(s: State, t: nat, a: seq<Event>, m: State, w: nat,
                                       b: seq<Event>, u: State, v: nat)
    requires Leads(s, t, a, m, w) && Leads(m, w, b, u, v)
    ensures Leads(s, t, a + b, u, v)
    decreases |a|
  {
    hide *;
    if a == [] {
      LeadsEmpty(s, t, m, w);
      assert [] + b == b;
    } else {
      LeadsUnfold(s, t, a, m, w);
      LeadsConcat(Step(s, a[0]), TimeAfter(a[0], t), a[1..], m, w, b, u, v);
      LeadsStep(s, t, a[0], a[1..] + b, u, v);
      assert [a[0]] + (a[1..] + b) == a + b;
    }
  }

  // ----- the bytes of a packet

  /** When byte i comes in: eight bits at one bit per microsecond. */
  function ByteAt(t0: nat, i: nat): nat { t0 + 80 * i }

  /** The packet has the length that its header says, and fits a buffer. */
  predicate Sendable(p: seq<u8>) { 5 <= |p| <= BUFFER && |p| == p[1] as nat + 5 }

  /** The packet as it is on the air on a channel. */
  function OnAir(p: seq<u8>, rfChannel: u16): seq<u8> { Whitened(p, ChannelIndex(rfChannel)) }

  /** On this channel the second byte announces the length of the whole. */
  predicate Announces(w: seq<u8>, rfChannel: u16) {
    5 <= |w| <= BUFFER && DewhitenByte(w[1], Key(ChannelIndex(rfChannel), 1)) as nat + 5 == |w|
  }

  lemma OnAirAnnounces(p: seq<u8>, rfChannel: u16)
    requires Sendable(p)
    ensures Announces(OnAir(p, rfChannel), rfChannel)
    ensures |OnAir(p, rfChannel)| == |p| && Dewhitened(OnAir(p, rfChannel), ChannelIndex(rfChannel)) == p
  {
    DewhitenUndoesWhiten(p[1], Key(ChannelIndex(rfChannel), 1));
    WhiteningRoundTrip(p, ChannelIndex(rfChannel));
    hide WhitenByte, DewhitenByte, Key, Dewhitened;
  }

  /** The bytes from i up to j, one after the other, for a packet whose first byte is in at t0. */
  function ByteEvents(w: seq<u8>, i: nat, j: nat, t0: nat): (es: seq<Event>)
    requires i <= j <= |w| && ByteAt(t0, |w|) < U32
    decreases j - i
  {
    if i == j then [] else [Byte(ByteAt(t0, i), w[i])] + ByteEvents(w, i + 1, j, t0)
  }

  predicate EmptyCurrent(b: Buffers) {
    b.current.Some? && b.current.value < |b.pool| && b.pool[b.current.value].pos == 0
  }

  /** The buffer with i bytes of a packet. */
  function Filled(c: RxBuf, w: seq<u8>, i: nat, t0: u32, rfChannel: u16, accessAddress: u32): RxBuf
    requires i <= |w| <= BUFFER
  {
    if i == 0 then c
    else RxBuf(w[..i] + c.data[i..], if i == 1 then c.size else |w|, i, Sub32(t0, 400), rfChannel, accessAddress,
               c.available)
  }

  lemma FilledStep(c: RxBuf, w: seq<u8>, i: nat, t0: u32, now: u32, rfChannel: u16, accessAddress: u32)
    requires i < |w| && Announces(w, rfChannel) && c.pos == 0 && (i == 0 ==> now == t0)
    ensures Filled(c, w, i, t0, rfChannel, accessAddress).pos == i
    ensures WithByte(Filled(c, w, i, t0, rfChannel, accessAddress), now, w[i], rfChannel, accessAddress)
      == Filled(c, w, i + 1, t0, rfChannel, accessAddress)
  {
    hide DewhitenByte, Key;
    var b := Filled(c, w, i, t0, rfChannel, accessAddress);
    assert b.pos == i;
    assert b.data[i := w[i]] == w[..i + 1] + c.data[i + 1..];
    if i == 1 {
      assert (w[..2] + c.data[2..])[1] == w[1];
    }
  }

  /** The state after i bytes of a packet, none of which ends it. */
  function Midway(s: State, w: seq<u8>, i: nat, t0: u32): State
    requires EmptyCurrent(s.buf) && i <= |w| <= BUFFER
  {
    var k := s.buf.current.value;
    s.(buf := s.buf.(pool := s.buf.pool[k := Filled(s.buf.pool[k], w, i, t0, s.rfChannel, s.conn.accessAddress)]),
       mr0On := s.mr0On && !(i >= 1 && OnDataChannel(s)))
  }

  lemma MidwayStores(s: State, w: seq<u8>, i: nat, t0: u32, now: u32)
    requires EmptyCurrent(s.buf) && i < |w| && Announces(w, s.rfChannel) && (i == 0 ==> now == t0)
    ensures CanReceive(Midway(s, w, i, t0).buf)
    ensures StoreByte(Midway(s, w, i, t0), now, w[i]) == Midway(s, w, i + 1, t0)
    ensures PacketDoneIn(Midway(s, w, i + 1, t0).buf) <==> i + 1 == |w|
  {
    var k := s.buf.current.value;
    FilledStep(s.buf.pool[k], w, i, t0, now, s.rfChannel, s.conn.accessAddress);
    hide WithByte, Announces;
    var m, n := Midway(s, w, i, t0), Midway(s, w, i + 1, t0);
    assert n.buf.pool[k].pos == i + 1;
    assert m.buf.pool[k := n.buf.pool[k]] == n.buf.pool;
  }

  /** One more byte that does not end the packet. */
  lemma MidwayStep(s: State, w: seq<u8>, i: nat, t0: u32, now: u32)
    requires EmptyCurrent(s.buf) && s.rxOn && i + 1 < |w| && Announces(w, s.rfChannel) && (i == 0 ==> now == t0)
    requires Inv(Midway(s, w, i, t0))
    ensures
      var m, e := Midway(s, w, i, t0), Byte(now, w[i]);
      && Ready(m) && Enabled(m, e) && Step(m, e) == Midway(s, w, i + 1, t0)
      && Inv(Step(m, e)) && PendingIn(Step(m, e)) == PendingIn(m)
  {
    var m, e := Midway(s, w, i, t0), Byte(now, w[i]);
    MidwayStores(s, w, i, t0, now);
    InvReady(m);
    assert m.rxOn;
    hide Inv, Ready, Midway, StoreByte, PacketDoneIn, CanReceive, Announces, PendingIn;
    StepKeeps(m, e);
    assert PendingIn(m) + [] == PendingIn(m) && [] + PendingIn(Step(m, e)) == PendingIn(Step(m, e));
  }

  lemma MidwayStarts(s: State, w: seq<u8>, t0: u32)
    requires EmptyCurrent(s.buf) && |w| <= BUFFER
    ensures Midway(s, w, 0, t0) == s
  {
    var k := s.buf.current.value;
    assert s.buf.pool[k := s.buf.pool[k]] == s.buf.pool;
  }

  lemma NoBytesYet(w: seq<u8>, i: nat, t0: nat)
    requires i <= |w| && ByteAt(t0, |w|) < U32
    ensures ByteEvents(w, i, i, t0) == []
  {}

  lemma NextByteEvent(s: State, w: seq<u8>, i: nat, j: nat, t0: nat, t: nat) returns (now: u32)
    requires i < j <= |w| && ByteAt(t0, |w|) < U32 && t <= ByteAt(t0, i)
    ensures now == ByteAt(t0, i) && now < ByteAt(t0, i + 1) <= ByteAt(t0, |w|) && (i == 0 ==> now == t0)
    ensures ByteEvents(w, i, j, t0) == [Byte(now, w[i])] + ByteEvents(w, i + 1, j, t0)
    ensures OnTime(s, Byte(now, w[i]), t) && TimeAfter(Byte(now, w[i]), t) == now
  {
    now := ByteAt(t0, i);
  }

  /** The bytes from i up to j, before the last. */
  lemma {:induction false} BytesLead(s: State, w: seq<u8>, i: nat, j: nat, t0: u32, t: nat) returns (v: nat)
    requires EmptyCurrent(s.buf) && s.rxOn && i <= j < |w| <= BUFFER && Announces(w, s.rfChannel)
    requires ByteAt(t0, |w|) < U32 && t <= ByteAt(t0, i) && Inv(Midway(s, w, i, t0))
    ensures Leads(Midway(s, w, i, t0), t, ByteEvents(w, i, j, t0), Midway(s, w, j, t0), v)
    ensures v <= ByteAt(t0, j) && Inv(Midway(s, w, j, t0))
    ensures PendingIn(Midway(s, w, j, t0)) == PendingIn(Midway(s, w, i, t0))
    decreases j - i
  {
    hide *;
    var m := Midway(s, w, i, t0);
    if i == j {
      LeadsNowhere(m, t);
      NoBytesYet(w, i, t0);
      v := t;
    } else {
      var now := NextByteEvent(m, w, i, j, t0, t);
      MidwayStep(s, w, i, t0, now);
      v := BytesLead(s, w, i + 1, j, t0, now);
      LeadsStep(m, t, Byte(now, w[i]), ByteEvents(w, i + 1, j, t0), Midway(s, w, j, t0), v);
    }
  }

  // ----- the end of a packet

  /** Nothing waits, nothing is being handled, and the current buffer is empty. */
  ghost predicate Calm(s: State) {
    Inv(s) && !s.cancelFollow && s.buf.main.Idle? && PendingIn(s) == [] && EmptyCurrent(s.buf)
  }

  /** One packet waits; otherwise as before. */
  ghost predicate Waits(s: State, q: Packet) {
    Inv(s) && !s.cancelFollow && s.buf.main.Idle? && PendingIn(s) == [q] && EmptyCurrent(s.buf)
  }

  function PacketOf(s: State, w: seq<u8>, t0: u32): Packet {
    Packet(w, s.rfChannel, Sub32(t0, 400), s.conn.accessAddress)
  }

  /** The full buffer, before it is queued. */
  lemma FullBuffer(s: State, w: seq<u8>, t0: u32)
    requires Calm(s) && Announces(w, s.rfChannel) && Inv(Midway(s, w, |w| - 1, t0))
    ensures
      var b := Midway(s, w, |w|, t0).buf;
      && b.current.Some? && b.current.value < |b.pool| && b.pool[b.current.value].size <= BUFFER
      && PacketIn(b.pool[b.current.value]) == PacketOf(s, w, t0)
      && Conserved(b) && Contents(b.ring) == [] && b.main.Idle?
  {
    var i := |w| - 1;
    var m := Midway(s, w, i, t0);
    var k := s.buf.current.value;
    assert w[..|w|] == w;
    MidwayStores(s, w, i, t0, 0);
    NothingWaits(s);
    StoreSound(m.buf, m.rfChannel, 0, w[i], m.conn.accessAddress);
    hide Conserved, Sound, PendingIn, WithByte, Announces;
    assert StoreByte(m, 0, w[i]).buf == Midway(s, w, |w|, t0).buf;
  }

  lemma NothingWaits(s: State)
    requires Inv(s) && s.buf.main.Idle? && PendingIn(s) == []
    ensures Contents(s.buf.ring) == []
  {
    assert |Pending(s.buf)| == 0;
  }

  /** When it is queued, another one becomes current, and is empty. */
  lemma AnotherCurrent(b: Buffers)
    requires Conserved(b) && b.current.Some? && Contents(b.ring) == [] && b.main.Idle?
    ensures |b.ring.data| == FIFOSIZE && EmptyCurrent(GetCurrent(EnqueueCurrent(b)))
    ensures GetCurrent(EnqueueCurrent(b)).main.Idle?
  {
    var n := HandedOver(b);
    EnqueueKeeps(b);
    NoBufferLeft(n, 0);
    GetIgnoresCurrent(EnqueueCurrent(b));
    hide Conserved;
  }

  /** The last byte of a packet that is not the second of its event. */
  lemma LastByteQueues(s: State, w: seq<u8>, t0: u32, now: u32)
    requires Calm(s) && s.rxOn && Announces(w, s.rfChannel) && Inv(Midway(s, w, |w| - 1, t0))
    requires PendingIn(Midway(s, w, |w| - 1, t0)) == []
    requires OnDataChannel(s) ==> s.event.numPackets == 0
    ensures
      var m, e := Midway(s, w, |w| - 1, t0), Byte(now, w[|w| - 1]);
      && Ready(m) && Enabled(m, e)
      && Waits(Step(m, e), PacketOf(s, w, t0)) && AfterFirst(s, Step(m, e), t0, now)
  {
    var m, e, full := Midway(s, w, |w| - 1, t0), Byte(now, w[|w| - 1]), Midway(s, w, |w|, t0);
    MidwayStores(s, w, |w| - 1, t0, now);
    InvReady(m);
    FullBuffer(s, w, t0);
    AnotherCurrent(full.buf);
    FirstEnds(full, now);
    assert full.conn == s.conn && full.event == s.event && full.rfChannel == s.rfChannel && m.rxOn;
    assert full.buf.current == s.buf.current && full.cancelFollow == s.cancelFollow;
    hide Inv, Ready, Midway, StoreByte, CanReceive, Announces, PendingIn, EndPacket;
    hide GetCurrent, EnqueueCurrent, PacketIn;
    hide Conserved, PacketDone;
    StepKeeps(m, e);
    assert Received(m, e) == [PacketOf(s, w, t0)];
    assert [] + [PacketOf(s, w, t0)] == [PacketOf(s, w, t0)];
    assert [] + PendingIn(Step(m, e)) == PendingIn(Step(m, e));
  }

  /** What a packet that is not the second of its event changes; on a data channel it sets the event's anchor. */
  predicate AfterFirst(s: State, u: State, t0: u32, now: u32) {
    && u.conn == s.conn && u.rfChannel == s.rfChannel && u.advChannel == s.advChannel && !u.rxOn && u.mr2On
    && (if OnDataChannel(s)
        then u.event == ConnEvent(Sub32(t0, 400), 1, s.event.isOpen) && u.mr0On && u.mr0 == (now + 3000) % U32
        else u.event == s.event && u.mr0On == s.mr0On && u.mr0 == s.mr0)
  }

  /** The end of such a packet. */
  lemma FirstEnds(t: State, now: u32)
    requires PacketDoneIn(t.buf) && |t.buf.ring.data| == FIFOSIZE && (OnDataChannel(t) ==> t.event.numPackets == 0)
    ensures !IsSecond(t) && CanFinishSecond(t, now)
    ensures
      var u := EndPacket(t, now);
      && u.conn == t.conn && u.rfChannel == t.rfChannel && u.advChannel == t.advChannel && !u.rxOn
      && u.cancelFollow == t.cancelFollow && u.buf == GetCurrent(EnqueueCurrent(t.buf))
      && (u.buf.current.Some? ==> u.mr2On)
      && (if OnDataChannel(t)
          then u.event == ConnEvent(CurrentBuf(t.buf).timestamp, 1, t.event.isOpen)
               && u.mr0On && u.mr0 == (now + 3000) % U32
          else u.event == t.event && u.mr0On == t.mr0On && u.mr0 == t.mr0)
  {
    hide GetCurrent, EnqueueCurrent, PacketDone;
  }

  /** A connection is not given up right after a packet. */
  lemma PacketKeepsAlive(u: State, now: u32)
    requires u.event.numPackets > 0 && !u.cancelFollow
    ensures !ClosingRetunes(u, now)
  {
    hide ObservedAnchor;
  }

  /** The match that an event leaves behind when the connection goes on. */
  function NextMatch(c: Conn): u32 { (c.lastAnchor + c.connInterval + U32 - 3000) % U32 }

  /** What closing an event changes when the connection goes on. */
  predicate EventClosed(s: State, u: State, e: ConnEvent, now: u32) {
    && u.conn == ClosedConn(s.conn, e, now) && u.event == ResetEvent(e) && u.rfChannel == s.rfChannel
    && u.advChannel == s.advChannel && u.mr0On && u.mr0 == NextMatch(u.conn)
  }

  /** The end of the second packet of an event. */
  lemma SecondEnds(t: State, now: u32)
    requires PacketDoneIn(t.buf) && |t.buf.ring.data| == FIFOSIZE && IsSecond(t) && !t.cancelFollow
    requires GetCurrent(EnqueueCurrent(t.buf)).current.Some?
    ensures CanFinishSecond(t, now)
    ensures
      var u := EndPacket(t, now);
      && EventClosed(t, u, t.event.(numPackets := 2), now) && !u.rxOn && u.cancelFollow == t.cancelFollow
      && u.buf == GetCurrent(EnqueueCurrent(t.buf)) && u.mr2On == t.mr2On
  {
    PacketKeepsAlive(AfterSecond(t), now);
    hide GetCurrent, EnqueueCurrent, PacketDone, AnchorUpdated, ClosingRetunes;
    FinishGoesOn(AfterSecond(t), now);
  }

  lemma FinishGoesOn(s: State, now: u32)
    requires !ClosingRetunes(s, now)
    ensures
      var u := FinishConnEvent(s, now);
      && EventClosed(s, u, s.event, now) && u.buf == s.buf && u.rxOn == s.rxOn && u.mr2On == s.mr2On
      && u.cancelFollow == s.cancelFollow
  {
    hide AnchorUpdated;
  }

  /** The last byte of the second packet of an event. */
  lemma LastByteCloses(s: State, w: seq<u8>, t0: u32, now: u32)
    requires Calm(s) && s.rxOn && Announces(w, s.rfChannel) && Inv(Midway(s, w, |w| - 1, t0))
    requires PendingIn(Midway(s, w, |w| - 1, t0)) == []
    requires OnDataChannel(s) && s.event.numPackets == 1
    ensures
      var m, e := Midway(s, w, |w| - 1, t0), Byte(now, w[|w| - 1]);
      && Ready(m) && Enabled(m, e) && EndsDataPacket(m, e)
      && Waits(Step(m, e), PacketOf(s, w, t0))
      && EventClosed(s, Step(m, e), s.event.(numPackets := 2), now) && !Step(m, e).rxOn
  {
    var m, e, full := Midway(s, w, |w| - 1, t0), Byte(now, w[|w| - 1]), Midway(s, w, |w|, t0);
    MidwayStores(s, w, |w| - 1, t0, now);
    InvReady(m);
    FullBuffer(s, w, t0);
    AnotherCurrent(full.buf);
    assert full.conn == s.conn && full.event == s.event && full.rfChannel == s.rfChannel && m.rxOn;
    assert full.buf.current == s.buf.current && full.cancelFollow == s.cancelFollow && full.advChannel == s.advChannel;
    assert m.rfChannel == s.rfChannel;
    SecondEnds(full, now);
    hide Inv, Ready, Midway, StoreByte, CanReceive, Announces, PendingIn, EndPacket;
    hide GetCurrent, EnqueueCurrent, PacketIn;
    hide Conserved, PacketDone, ClosedConn, NextMatch;
    StepKeeps(m, e);
    assert Received(m, e) == [PacketOf(s, w, t0)];
    assert [] + [PacketOf(s, w, t0)] == [PacketOf(s, w, t0)];
    assert [] + PendingIn(Step(m, e)) == PendingIn(Step(m, e));
  }

  // ----- whole packets

  lemma CalmParts(s: State)
    requires Calm(s)
    ensures Inv(s) && Ready(s) && PendingIn(s) == [] && EmptyCurrent(s.buf) && s.buf.main.Idle? && !s.cancelFollow
  {
    InvReady(s);
    hide Inv, Ready, PendingIn, EmptyCurrent;
  }

  /** All bytes but the last. */
  lemma AllButLast(s: State, w: seq<u8>, t0: u32, t: nat) returns (v: nat)
    requires Calm(s) && s.rxOn && Announces(w, s.rfChannel) && t <= t0 && ByteAt(t0, |w|) < U32
    ensures Leads(s, t, ByteEvents(w, 0, |w| - 1, t0), Midway(s, w, |w| - 1, t0), v) && v <= ByteAt(t0, |w| - 1)
    ensures Inv(Midway(s, w, |w| - 1, t0)) && PendingIn(Midway(s, w, |w| - 1, t0)) == []
  {
    assert 1 <= |w| <= BUFFER && ByteAt(t0, 0) == t0;
    hide *;
    CalmParts(s);
    MidwayStarts(s, w, t0);
    v := BytesLead(s, w, 0, |w| - 1, t0, t);
  }

  /** A packet that is not the second of its event comes in. */
  lemma FirstReceived(s: State, w: seq<u8>, t0: u32, t: nat) returns (es: seq<Event>, u: State, now: u32)
    requires Calm(s) && s.rxOn && Announces(w, s.rfChannel) && t <= t0 && ByteAt(t0, |w|) < U32
    requires OnDataChannel(s) ==> s.event.numPackets == 0
    ensures now == ByteAt(t0, |w| - 1) && Leads(s, t, es, u, now)
    ensures Waits(u, PacketOf(s, w, t0)) && AfterFirst(s, u, t0, now)
  {
    assert 1 <= |w|;
    now := ByteAt(t0, |w| - 1);
    hide *;
    var v := AllButLast(s, w, t0, t);
    LastByteQueues(s, w, t0, now);
    es, u := LastByte(s, w, t0, t, v, now);
  }

  /** The bytes before the last one, and that one. */
  lemma LastByte(s: State, w: seq<u8>, t0: u32, t: nat, v: nat, now: u32) returns (es: seq<Event>, u: State)
    requires EmptyCurrent(s.buf) && 1 <= |w| <= BUFFER && ByteAt(t0, |w|) < U32 && v <= now
    requires Leads(s, t, ByteEvents(w, 0, |w| - 1, t0), Midway(s, w, |w| - 1, t0), v)
    requires Ready(Midway(s, w, |w| - 1, t0)) && Enabled(Midway(s, w, |w| - 1, t0), Byte(now, w[|w| - 1]))
    ensures u == Step(Midway(s, w, |w| - 1, t0), Byte(now, w[|w| - 1])) && Leads(s, t, es, u, now)
  {
    var m, e := Midway(s, w, |w| - 1, t0), Byte(now, w[|w| - 1]);
    u, es := Step(m, e), ByteEvents(w, 0, |w| - 1, t0) + [e];
    assert OnTime(m, e, v) && TimeAfter(e, v) == now;
    hide *;
    LeadsKeeps(s, t, ByteEvents(w, 0, |w| - 1, t0), m, v);
    LeadsOne(m, v, e);
    LeadsConcat(s, t, ByteEvents(w, 0, |w| - 1, t0), m, v, [e], u, now);
  }

  /** The second packet of an event comes in. */
  lemma SecondReceived(s: State, w: seq<u8>, t0: u32, t: nat) returns (es: seq<Event>, u: State, now: u32)
    requires Calm(s) && s.rxOn && Announces(w, s.rfChannel) && t <= t0 && ByteAt(t0, |w|) < U32
    requires OnDataChannel(s) && s.event.numPackets == 1
    ensures now == ByteAt(t0, |w| - 1) && Leads(s, t, es, u, now)
    ensures Waits(u, PacketOf(s, w, t0)) && EventClosed(s, u, s.event.(numPackets := 2), now) && !u.rxOn
  {
    assert 1 <= |w|;
    now := ByteAt(t0, |w| - 1);
    hide *;
    var v := AllButLast(s, w, t0, t);
    LastByteCloses(s, w, t0, now);
    es, u := LastByte(s, w, t0, t, v, now);
  }

  // ----- the main loop

  /** The main loop has the dewhitened packet, and is about to hand it to the packet handler. */
  ghost predicate AtHand(u: State, q: Packet) {
    && Inv(u) && Ready(u) && !u.cancelFollow && PendingIn(u) == [] && EmptyCurrent(u.buf) && u.buf.main.Plain?
    && MainBuf(u).size == |q.bytes| && MainBuf(u).channel == q.channel && MainBuf(u).timestamp == q.timestamp
    && |q.bytes| <= BUFFER && MainBuf(u).data[..|q.bytes|] == Dewhitened(q.bytes, ChannelIndex(q.channel))
  }

  lemma LoopOn(s: State, t: nat, e: Event) returns (u: State)
    requires Inv(s) && e.Loop?
    ensures Ready(s) && u == MainStep(s, e.passes, e.doFollow) && Inv(u) && Ready(u) && Leads(s, t, [e], u, t)
    ensures PendingIn(s) == Processed(s, e) + PendingIn(u)
  {
    InvReady(s);
    StepKeeps(s, e);
    LeadsOne(s, t, e);
    u := Step(s, e);
    InvReady(u);
    assert PendingIn(s) + [] == PendingIn(s);
    hide Inv, Ready, MainStep, PendingIn, Processed, Leads;
  }

  /** The state in which the oldest packet is dewhitened. */
  function Dewhitening(s: State): State
    requires |s.buf.ring.data| == FIFOSIZE && s.buf.ring.head < FIFOSIZE && Oldest(s.buf.ring) < |s.buf.pool|
    requires s.buf.pool[Oldest(s.buf.ring)].size <= BUFFER
  {
    var k := Oldest(s.buf.ring);
    s.(buf := s.buf.(pool := s.buf.pool[k := DewhitenedBuf(s.buf.pool[k])],
                     ring := Advanced(s.buf.ring), main := Plain(k)))
  }

  lemma FourMains(s: State, t1: State, t2: State, t3: State, t4: State, e: Event)
    requires e.Loop? && CanMain(s) && s.buf.main.Idle?
    requires s.buf.ring.head != s.buf.ring.tail && s.buf.ring.head < FIFOSIZE
    requires Oldest(s.buf.ring) < |s.buf.pool| && s.buf.pool[Oldest(s.buf.ring)].size <= BUFFER
    requires Ready(s) && t1 == MainStep(s, e.passes, e.doFollow)
    requires Ready(t1) && t2 == MainStep(t1, e.passes, e.doFollow)
    requires Ready(t2) && t3 == MainStep(t2, e.passes, e.doFollow)
    requires Ready(t3) && t4 == MainStep(t3, e.passes, e.doFollow)
    ensures t4 == Dewhitening(s)
    ensures Processed(s, e) == Processed(t1, e) == Processed(t2, e) == []
    ensures Processed(t3, e) == [PacketIn(s.buf.pool[Oldest(s.buf.ring)])]
  {
    hide DewhitenedBuf, PacketIn, CanReceive;
  }

  /** The oldest packet that waits. */
  lemma OldestWaits(s: State, q: Packet)
    requires Waits(s, q)
    ensures Ready(s) && Inv(s) && s.buf.main.Idle? && |s.buf.pool| == POOL
    ensures s.buf.ring.head != s.buf.ring.tail && s.buf.ring.head < FIFOSIZE && |s.buf.ring.data| == FIFOSIZE
    ensures Oldest(s.buf.ring) < |s.buf.pool| && s.buf.pool[Oldest(s.buf.ring)].size <= BUFFER
    ensures PacketIn(s.buf.pool[Oldest(s.buf.ring)]) == q
    ensures EmptyCurrent(s.buf) && s.buf.current.value != Oldest(s.buf.ring)
  {
    InvReady(s);
    var k := Oldest(s.buf.ring);
    FirstPending(s, q);
    CurrentApart(s.buf);
    hide Sound, PendingIn, Ready, Pending, Complete;
  }

  lemma FirstPending(s: State, q: Packet)
    requires Inv(s) && s.buf.main.Idle? && PendingIn(s) == [q]
    ensures Valid(s.buf.ring) && s.buf.ring.head != s.buf.ring.tail && |s.buf.pool| == POOL
    ensures Oldest(s.buf.ring) in Pending(s.buf) && Oldest(s.buf.ring) < POOL
    ensures s.buf.pool[Oldest(s.buf.ring)].size <= BUFFER && PacketIn(s.buf.pool[Oldest(s.buf.ring)]) == q
  {
    var ids := Pending(s.buf);
    assert |ids| == 1;
    RemoveTakesOldest(s.buf.ring);
    assert ids[0] == Oldest(s.buf.ring);
    assert ids[0] in ids;
    assert PendingIn(s)[0] == PacketAt(s.buf.pool, ids, 0);
    hide DewhitenByte, Contents;
  }

  /** Four steps of the main loop take the packet that waits and dewhiten it. */
  lemma TakenUp(s: State, q: Packet, t: nat, e: Event) returns (es: seq<Event>, u: State)
    requires Waits(s, q) && e.Loop?
    ensures Leads(s, t, es, u, t) && AtHand(u, q) && u == s.(buf := u.buf)
  {
    hide *;
    OldestWaits(s, q);
    var t1 := LoopOn(s, t, e);
    var t2 := LoopOn(t1, t, e);
    var t3 := LoopOn(t2, t, e);
    u := LoopOn(t3, t, e);
    ReadyMain(s);
    FourMains(s, t1, t2, t3, u, e);
    LeadsConcat(s, t, [e], t1, t, [e], t2, t);
    LeadsConcat(s, t, [e] + [e], t2, t, [e], t3, t);
    es := [e] + [e] + [e] + [e];
    LeadsConcat(s, t, [e] + [e] + [e], t3, t, [e], u, t);
    WaitingParts(s, q);
    FourthLeft(PendingIn(s), PendingIn(t1), PendingIn(t2), PendingIn(t3), PendingIn(u), q);
    DewhitenedAtHand(s, u, q);
  }

  lemma WaitingParts(s: State, q: Packet)
    requires Waits(s, q)
    ensures Inv(s) && PendingIn(s) == [q] && !s.cancelFollow
  {
    hide Inv, PendingIn;
  }

  lemma ReadyMain(s: State)
    requires Ready(s)
    ensures CanMain(s)
  {
    hide CanMain;
  }

  lemma FourthLeft<T>(p0: seq<T>, p1: seq<T>, p2: seq<T>, p3: seq<T>, p4: seq<T>, q: T)
    requires p0 == [q] && p0 == [] + p1 && p1 == [] + p2 && p2 == [] + p3 && p3 == [q] + p4
    ensures p4 == []
  {
    assert |p4| == 0;
  }

  lemma DewhitenedAtHand(s: State, u: State, q: Packet)
    requires Inv(u) && Ready(u) && PendingIn(u) == [] && EmptyCurrent(s.buf) && |s.buf.pool| == POOL
    requires |s.buf.ring.data| == FIFOSIZE && s.buf.ring.head < FIFOSIZE && Oldest(s.buf.ring) < |s.buf.pool|
    requires s.buf.pool[Oldest(s.buf.ring)].size <= BUFFER && PacketIn(s.buf.pool[Oldest(s.buf.ring)]) == q
    requires s.buf.current.value != Oldest(s.buf.ring) && u == Dewhitening(s) && !s.cancelFollow
    ensures AtHand(u, q) && u == s.(buf := u.buf)
  {
    hide Inv, Ready, PendingIn, Dewhitened;
    var b := s.buf.pool[Oldest(s.buf.ring)];
    assert DewhitenedBuf(b).data[..b.size] == Dewhitened(b.data[..b.size], ChannelIndex(b.channel));
  }

  /** The state in which the packet handler is called. */
  function Handing(u: State): State
    requires u.buf.main.Plain?
  {
    u.(buf := u.buf.(main := Handled(u.buf.main.buf)))
  }

  /** The two steps that hand the packet over and release its buffer; with e.passes set the packet handler sees it. */
  lemma HandedOn(u: State, q: Packet, t: nat, e: Event) returns (es: seq<Event>, v: State)
    requires AtHand(u, q) && e.Loop? && e.passes
    ensures Leads(u, t, es, v, t) && Calm(v)
    ensures
      var w := PacketHandler(Handing(u), MainBuf(u), e.doFollow);
      v == w.(buf := v.buf)
  {
    AtHandParts(u, q);
    hide *;
    var m := LoopOn(u, t, e);
    v := LoopOn(m, t, e);
    es := [e] + [e];
    LeadsConcat(u, t, [e], m, t, [e], v, t);
    TwoMains(u, m, v, e);
    NothingLeft(PendingIn(u), PendingIn(m), PendingIn(v));
    BackToCalm(u, v, e);
  }

  lemma AtHandParts(u: State, q: Packet)
    requires AtHand(u, q)
    ensures Inv(u) && Ready(u) && u.buf.main.Plain? && EmptyCurrent(u.buf) && PendingIn(u) == [] && !u.cancelFollow
  {
    hide Inv, Ready, PendingIn, Dewhitened, EmptyCurrent;
  }

  lemma NothingLeft<T>(p0: seq<T>, p1: seq<T>, p2: seq<T>)
    requires p0 == [] && p0 == [] + p1 && p1 == [] + p2
    ensures p2 == []
  {
    assert |p2| == 0;
  }

  lemma TwoMains(u: State, m: State, v: State, e: Event)
    requires e.Loop? && e.passes && Ready(u) && u.buf.main.Plain? && m == MainStep(u, e.passes, e.doFollow)
    requires Ready(m) && v == MainStep(m, e.passes, e.doFollow)
    ensures Processed(u, e) == Processed(m, e) == []
    ensures v == PacketHandler(Handing(u), MainBuf(u), e.doFollow).(buf := v.buf)
    ensures v.buf.main.Idle? && v.buf.current == u.buf.current && |v.buf.pool| == |u.buf.pool|
    ensures forall x :: 0 <= x < |u.buf.pool| ==> v.buf.pool[x].pos == u.buf.pool[x].pos
  {
    var k := u.buf.main.buf;
    HandlerFrame(Handing(u), u.buf.pool[k], e.doFollow);
    hide PacketHandler, CanReceive;
  }

  lemma BackToCalm(u: State, v: State, e: Event)
    requires e.Loop? && Ready(u) && EmptyCurrent(u.buf) && !u.cancelFollow && u.buf.main.Plain?
    requires Inv(v) && PendingIn(v) == [] && v == PacketHandler(Handing(u), MainBuf(u), e.doFollow).(buf := v.buf)
    requires v.buf.main.Idle? && v.buf.current == u.buf.current && |v.buf.pool| == |u.buf.pool|
    requires forall x :: 0 <= x < |u.buf.pool| ==> v.buf.pool[x].pos == u.buf.pool[x].pos
    ensures Calm(v)
  {
    HandlerCancels(Handing(u), MainBuf(u), e.doFollow);
    hide Inv, PendingIn, PacketHandler, Ready;
  }

  lemma HandlerCancels(s: State, b: RxBuf, doFollow: bool)
    requires !s.cancelFollow
    ensures !PacketHandler(s, b, doFollow).cancelFollow
  {
    hide KindOf, ConnectValid, ConnectFields, Connected, ConnectionUpdate, MapUpdate;
  }

  // ----- from the air to the handler

  /** What is about to be handed to the packet handler are these bytes, received on this channel from t0 on. */
  ghost predicate Brought(u: State, p: seq<u8>, channel: u16, t0: u32) {
    && Inv(u) && Ready(u) && !u.cancelFollow && PendingIn(u) == [] && EmptyCurrent(u.buf) && u.buf.main.Plain?
    && MainBuf(u).size == |p| <= BUFFER && MainBuf(u).channel == channel && MainBuf(u).timestamp == Sub32(t0, 400)
    && MainBuf(u).data[..|p|] == p
  }

  lemma BroughtParts(u: State, p: seq<u8>, channel: u16, t0: u32)
    requires Brought(u, p, channel, t0)
    ensures Inv(u) && Ready(u) && u.buf.main.Plain? && !u.cancelFollow && EmptyCurrent(u.buf)
    ensures |p| <= BUFFER && MainBuf(u).size == |p| && MainBuf(u).channel == channel
    ensures MainBuf(u).timestamp == Sub32(t0, 400) && MainBuf(u).data[..|p|] == p
  {
    hide Inv, Ready, PendingIn, EmptyCurrent;
  }

  /**
   Every packet that is sent on the channel listened to, when nothing waits, reaches the packet handler byte for
   byte. The first of an event sets the anchor and a time-out, the second closes the event.
   */
  lemma PacketReachesHandler(s: State, p: seq<u8>, t0: u32, t: nat, e: Event)
    returns (es: seq<Event>, u: State, now: u32)
    requires Calm(s) && s.rxOn && Sendable(p) && t <= t0 && ByteAt(t0, |p|) < U32 && e.Loop?
    requires OnDataChannel(s) ==> s.event.numPackets <= 1
    ensures now == ByteAt(t0, |p| - 1) && Leads(s, t, es, u, now) && Brought(u, p, s.rfChannel, t0)
    ensures
      if OnDataChannel(s) && s.event.numPackets == 1
      then EventClosed(s, u, s.event.(numPackets := 2), now) && !u.rxOn
      else AfterFirst(s, u, t0, now)
  {
    assert 1 <= |p|;
    hide *;
    var w, q := OnAir(p, s.rfChannel), PacketOf(s, OnAir(p, s.rfChannel), t0);
    OnAirAnnounces(p, s.rfChannel);
    var a, m;
    if OnDataChannel(s) && s.event.numPackets == 1 {
      a, m, now := SecondReceived(s, w, t0, t);
    } else {
      a, m, now := FirstReceived(s, w, t0, t);
    }
    var b;
    b, u := TakenUp(m, q, now, e);
    LeadsConcat(s, t, a, m, now, b, u, now);
    es := a + b;
    SameSteps(s, m, u, t0, now);
    BroughtBytes(s, u, p, w, t0);
  }

  lemma SameSteps(s: State, m: State, u: State, t0: u32, now: u32)
    requires u == m.(buf := u.buf)
    ensures AfterFirst(s, m, t0, now) ==> AfterFirst(s, u, t0, now)
    ensures EventClosed(s, m, s.event.(numPackets := 2), now) && !m.rxOn ==>
      EventClosed(s, u, s.event.(numPackets := 2), now) && !u.rxOn
  {
    hide ClosedConn, NextMatch;
  }

  lemma BroughtBytes(s: State, u: State, p: seq<u8>, w: seq<u8>, t0: u32)
    requires AtHand(u, PacketOf(s, w, t0)) && |w| == |p| && Dewhitened(w, ChannelIndex(s.rfChannel)) == p
    ensures Brought(u, p, s.rfChannel, t0)
  {
    hide Inv, Ready, PendingIn, EmptyCurrent, Dewhitened;
  }

  /** The packet handler gets it, and its buffer is free again. */
  lemma BroughtHandled(u: State, p: seq<u8>, channel: u16, t0: u32, t: nat, e: Event) returns (es: seq<Event>, v: State)
    requires Brought(u, p, channel, t0) && e.Loop? && e.passes
    ensures Leads(u, t, es, v, t) && Calm(v)
    ensures
      var w := PacketHandler(Handing(u), MainBuf(u), e.doFollow);
      v == w.(buf := v.buf)
  {
    var q := AsPacket(u, p, channel, t0);
    hide *;
    es, v := HandedOn(u, q, t, e);
  }

  lemma AsPacket(u: State, p: seq<u8>, channel: u16, t0: u32) returns (q: Packet)
    requires Brought(u, p, channel, t0)
    ensures AtHand(u, q)
  {
    q := Packet(Whitened(p, ChannelIndex(channel)), channel, Sub32(t0, 400), 0);
    WhiteningRoundTrip(p, ChannelIndex(channel));
    hide Inv, Ready, PendingIn, EmptyCurrent, Dewhitened, Whitened;
  }
}
