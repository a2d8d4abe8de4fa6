/**
 The follower as the firmware has it: globals that the handlers update. Each
 handler does what its step function says.
 */
module LePhyDevice {
  import opened Bits
  import opened Channels
  import opened Whitening
  import opened RingQueue
  import opened LePhy
  import opened LePhyBuffers
  import opened LePhyFraming
  import opened LePhyRuns

  class Follower {
    const pool: array<RxBuf>
    const queue: Queue<nat>
    var current: Option<nat>
    ghost var main: Main
    var conn: Conn
    var event: ConnEvent
    var rfChannel: u16
    var mr0On: bool
    var mr0: u32
    var mr2On: bool
    var mr3On: bool
    var rxOn: bool
    var cancelFollow: bool
    var advChannel: u16

    ghost predicate Good()
      reads this, queue
    {
      pool.Length == POOL && queue.Good() && (current.Some? ==> current.value < POOL)
    }

    ghost function BufValue(): Buffers
      reads this, pool, queue, queue.data
      requires Good()
    {
      Buffers(pool[..], current, queue.Value(), main)
    }

    /** The state of the follower. */
    ghost function Value(): State
      reads this, pool, queue, queue.data
      requires Good()
    {
      State(BufValue(), conn, event, rfChannel, mr0On, mr0, mr2On, mr3On, rxOn, cancelFollow, advChannel)
    }

    /** The statics when the program starts: all zero. */
    constructor (buffers: array<RxBuf>, adv: u16)
      requires buffers.Length == POOL
      ensures Good() && pool == buffers && fresh(queue) && fresh(queue.data)
      ensures conn == ColdConnection() && event == ConnEvent(0, 0, false) && !mr0On && !mr3On && advChannel == adv
    {
      pool := buffers;
      queue := new Queue(0);
      current := None;
      main := Idle;
      conn := ColdConnection();
      event := ConnEvent(0, 0, false);
      rfChannel := 0;
      mr0On, mr0, mr2On, mr3On, rxOn := false, 0, false, false, false;
      cancelFollow := false;
      advChannel := adv;
    }

    /** le_phy_main up to its loop, whatever an earlier session has left. */
    method Enter()
      requires Good()
      modifies this, pool, queue`head, queue`tail
      ensures Good() && main.Idle? && Value() == Start(old(Value()))
      ensures Inv(Value()) && PendingIn(Value()) == []
    {
      ghost var found := Value();
      StartInv(found);
      hide GetCurrent, Inv, PendingIn, AllAvailable;
      PrepareBuffers();
      rfChannel := advChannel;
      conn := conn.(accessAddress := ADVERTISING_AA);
      mr2On, rxOn := true, false;
      cancelFollow := false;
    }

    // ----- buffers

    /** All buffers free, the queue empty, and one buffer current. */
    method PrepareBuffers()
      requires Good()
      modifies this`main, this`current, pool, queue`head, queue`tail
      ensures Good() && main.Idle?
      ensures BufValue() == GetCurrent(Buffers(AllAvailable(old(pool[..])), None, Emptied(old(queue.Value())), Idle))
    {
      hide GetCurrent, AllAvailable;
      main := Idle;
      BuffersInit();
      queue.Init();
      current := None;
      NewCurrent();
    }

    method BuffersInit()
      requires Good()
      modifies pool
      ensures pool[..] == AllAvailable(old(pool[..]))
    {
      for i := 0 to pool.Length
        invariant forall k :: 0 <= k < i ==> pool[k] == old(pool[k]).(available := true)
        invariant forall k :: i <= k < pool.Length ==> pool[k] == old(pool[k])
      {
        pool[i] := pool[i].(available := true);
      }
    }

    method BufferClear(k: nat)
      requires Good() && k < POOL
      modifies pool
      ensures pool[..] == old(pool[..])[k := Cleared(old(pool[k]))]
    {
      pool[k] := pool[k].(pos := 0, size := 0, data := NoBytes());
    }

    method BufferGet() returns (buf: Option<nat>)
      requires Good()
      modifies pool
      ensures buf == FirstAvailable(old(pool[..]), 0)
      ensures match buf
        case None => pool[..] == old(pool[..])
        case Some(k) => k < POOL && pool[..] == old(pool[..])[k := Cleared(old(pool[k])).(available := false)]
    {
      for i := 0 to pool.Length
        invariant pool[..] == old(pool[..])
        invariant FirstAvailable(pool[..], 0) == FirstAvailable(pool[..], i)
      {
        if pool[i].available {
          pool[i] := pool[i].(available := false);
          BufferClear(i);
          return Some(i);
        }
      }
      return None;
    }

    /** current_rxbuf = buffer_get() */
    method NewCurrent()
      requires Good()
      modifies pool, this`current
      ensures Good() && BufValue() == GetCurrent(old(BufValue()))
    {
      current := BufferGet();
    }

    // ----- tuning and timers

    method SetMatch(time: nat)
      requires Good()
      modifies this`mr0On, this`mr0
      ensures Good() && Value() == LePhy.SetMatch(old(Value()), time)
    {
      mr0On, mr0 := true, time % U32;
    }

    method ChangeChannel()
      requires Good() && current.Some?
      modifies this, pool
      ensures Good() && current == old(current) && main == old(main) && Value() == LePhy.ChangeChannel(old(Value()))
    {
      rxOn := false;
      BufferClear(current.value);
      var channelIdx: u8 := 0;
      if conn.accessAddress == ADVERTISING_AA {
        if advChannel == 2402 {
          channelIdx := 37;
        } else if advChannel == 2426 {
          channelIdx := 38;
        } else if advChannel == 2480 {
          channelIdx := 39;
        } else {
          channelIdx := 37;
        }
      } else {
        conn := conn.(channelIdx := (conn.channelIdx + conn.hopIncrement) % 37);
        channelIdx := MapChannel(conn.channelIdx, conn.remapping);
      }
      rfChannel := IndexToPhys(channelIdx);
      mr2On := true;
    }

    method FinishConnEvent(now: u32)
      requires Good() && (ClosingRetunes(Value(), now) ==> current.Some?)
      modifies this, pool
      ensures Good() && current == old(current) && main == old(main)
      ensures Value() == LePhy.FinishConnEvent(old(Value()), now)
    {
      UpdateAnchor(now);
      event := event.(numPackets := 0, isOpen := false);
      conn := conn.(eventCounter := (conn.eventCounter + 1) % U16);
      assert Value() == Closed(old(Value()), now);
      if Sub32(now, conn.lastPacketTs) > conn.supervisionTimeout {
        conn := NoConnection();
        ChangeChannel();
      } else if cancelFollow {
        cancelFollow := false;
        conn := NoConnection();
        ChangeChannel();
      } else {
        SetMatch(conn.lastAnchor + conn.connInterval + U32 - RX_WARMUP);
      }
    }

    /** The first half of finish_conn_event. */
    method UpdateAnchor(now: u32)
      modifies this`conn
      ensures conn == AnchorUpdated(old(conn), event, now)
    {
      var lastAnchor: u32, lastAnchorSet := 0, false;
      if event.numPackets == 2 {
        lastAnchor, lastAnchorSet := event.anchor, true;
      } else if event.numPackets == 1 && conn.anchorSet {
        var estimated := Add32(conn.lastAnchor, conn.connInterval);
        var delta := Sub32(estimated, event.anchor);
        delta := Add32(delta, ANCHOR_EPSILON);
        if delta < 2 * ANCHOR_EPSILON {
          lastAnchor, lastAnchorSet := event.anchor, true;
        }
      }
      if lastAnchorSet {
        conn := conn.(lastAnchor := lastAnchor, anchorSet := true);
      } else if conn.anchorSet {
        conn := conn.(lastAnchor := Add32(conn.lastAnchor, conn.connInterval));
      } else {
        conn := conn.(lastAnchor := event.anchor, lastPacketTs := now);
      }
      if event.numPackets > 0 {
        conn := conn.(lastPacketTs := now);
      }
    }

    // ----- le_DMA_IRQHandler

    /** The first half: the byte, the first byte's bookkeeping, and the size. */
    method ReceiveByte(now: u32, value: u8)
      requires Good() && CanReceive(BufValue())
      modifies this`mr0On, pool
      ensures Good() && Value() == StoreByte(old(Value()), now, value)
    {
      hide DewhitenByte;
      var k := current.value;
      var pos := pool[k].pos;
      pool[k] := pool[k].(data := pool[k].data[pos := value]);
      pos := pos + 1;
      pool[k] := pool[k].(pos := pos);
      if pos == 1 {
        pool[k] := pool[k].(timestamp := Sub32(now, 400), channel := rfChannel, accessAddress := conn.accessAddress);
        if ChannelIndex(rfChannel) < 37 {
          mr0On := false;
        }
      }
      if pos == 2 {
        var length := DewhitenLength(pool[k].channel, pool[k].data[1]);
        pool[k] := pool[k].(size := length as nat + 2 + 3);
      }
    }

    /** The receiver is stopped and the packet queued. */
    method QueuePacket()
      requires Good() && PacketDoneIn(BufValue())
      modifies this`rxOn, queue`tail, queue.data
      ensures Good() && BufValue() == EnqueueCurrent(old(BufValue())) && !rxOn
    {
      hide PacketDone, Inserted;
      rxOn := false;
      var _ := queue.Insert(current.value);
    }

    /** A new current buffer, and waiting for one or for the synthesizer. */
    method ResumeReception()
      requires Good()
      modifies this, pool
      ensures Good() && main == old(main) && Value() == NextBuffer(old(Value()))
    {
      hide GetCurrent;
      NewCurrent();
      if current.None? {
        mr3On := true;
      } else {
        mr2On := true;
      }
    }

    /** The second half, when the packet is complete. */
    method FinishPacket(now: u32)
      requires Good() && PacketDoneIn(BufValue()) && CanFinishSecond(Value(), now)
      modifies this, pool, queue`tail, queue.data
      ensures Good() && main == old(main) && Value() == EndPacket(old(Value()), now)
    {
      hide ClosingRetunes, LePhy.FinishConnEvent, PacketDone, GetCurrent, EnqueueCurrent, NextBuffer;
      var anchor := pool[current.value].timestamp;
      QueuePacket();
      if ChannelIndex(rfChannel) < 37 {
        event := event.(numPackets := event.numPackets + 1);
        if event.numPackets == 1 {
          event := event.(anchor := anchor);
          SetMatch(now + IFS_TIMEOUT);
        } else if event.numPackets == 2 {
          NewCurrent();
          assert Value() == AfterSecond(old(Value()));
          FinishConnEvent(now);
          return;
        }
      }
      ResumeReception();
    }

    method LeDmaIrqHandler(now: u32, value: u8)
      requires Good() && CanReceive(BufValue())
      requires PacketDoneIn(StoreByte(Value(), now, value).buf) ==> CanFinishSecond(StoreByte(Value(), now, value), now)
      modifies this, pool, queue`tail, queue.data
      ensures Good() && main == old(main) && Value() == DmaByte(old(Value()), now, value)
    {
      hide StoreByte, CanFinishSecond, EndPacket;
      ReceiveByte(now, value);
      if pool[current.value].pos > 2 && pool[current.value].pos >= pool[current.value].size {
        FinishPacket(now);
      }
    }

    // ----- TIMER1_IRQHandler

    method ConnectionEvent(now: u32)
      requires Good() && CanMr0(Value(), now)
      modifies this, pool
      ensures Good() && current == old(current) && main == old(main) && Value() == Mr0(old(Value()), now)
    {
      hide ClosingRetunes, LePhy.FinishConnEvent, LePhy.ChangeChannel;
      if conn.updatePending && conn.eventCounter == conn.updateInstant {
        if !event.isOpen && conn.winOffset > 0 {
          SetMatch(conn.lastAnchor + conn.connInterval + conn.winOffset + U32 - RX_WARMUP);
          event := event.(isOpen := true);
        } else {
          event := event.(isOpen := true);
          conn := conn.(anchorSet := false, connInterval := conn.updateInterval,
                        supervisionTimeout := conn.updateTimeout, updatePending := false);
          SetMatch(conn.lastAnchor + conn.connInterval + conn.winOffset + conn.winSize + MAX_PACKET);
          ChangeChannel();
        }
        return;
      }
      if conn.mapPending && conn.eventCounter == conn.mapInstant {
        conn := conn.(remapping := conn.pendingRemapping, mapPending := false);
      }
      if !event.isOpen {
        event := event.(isOpen := true);
        SetMatch(now + MAX_PACKET + RX_WARMUP);
        ChangeChannel();
      } else {
        FinishConnEvent(now);
      }
    }

    method SynthesizerCheck(locked: bool)
      requires Good()
      modifies this`rxOn, this`mr2On
      ensures Good() && Value() == Mr2(old(Value()), locked)
    {
      if locked {
        rxOn := true;
        mr2On := false;
      }
    }

    method BufferCheck(locked: bool)
      requires Good()
      modifies this, pool
      ensures Good() && main == old(main) && Value() == Mr3(old(Value()), locked)
    {
      hide GetCurrent;
      NewCurrent();
      if current.None? {
        mr3On := true;
      } else if locked {
        rxOn := true;
      } else {
        mr2On := true;
      }
    }

    // ----- any interrupt

    /** The handlers one by one keep the invariant, and queue the packet received behind those that wait. */
    method Interrupt(e: Event)
      requires Good() && Inv(Value()) && Ready(Value()) && Enabled(Value(), e) && !e.Loop?
      modifies this, pool, queue`tail, queue.data
      ensures Good() && main == old(main) && Value() == Step(old(Value()), e)
      ensures Inv(Value()) && PendingIn(Value()) == PendingIn(old(Value())) + Received(old(Value()), e)
    {
      StepKeeps(Value(), e);
      NothingProcessed(Value(), e);
      hide Inv, Ready, Enabled, PendingIn, Received, DmaByte, Mr0, Mr2, Mr3;
      hide CanReceive, CanFinishSecond, StoreByte, CanMr0;
      match e
      case Byte(now, value) => LeDmaIrqHandler(now, value);
      case Match0(now) => ConnectionEvent(now);
      case Match2(locked) => SynthesizerCheck(locked);
      case Match3(locked) => BufferCheck(locked);
      case Cancel => cancelFollow := true;
    }

    // ----- packet handlers

    method ExtractField(b: RxBuf, offset: nat, size: nat) returns (ret: nat)
      requires 1 <= size <= 4 && offset + size <= BUFFER
      ensures ret == Extract(b.data, offset, size)
    {
      hide Extract, Placed;
      ret := 0;
      var i: nat, weight: nat := 0, 1;
      NothingRead(b.data, offset, size);
      while i < size
        invariant 0 <= i <= size
        invariant Placed(ret, weight, Extract(b.data, offset + i, size - i)) == Extract(b.data, offset, size)
      {
        NextField(b.data, offset + i, size - i, ret, weight);
        ret := ret + (b.data[offset + i] as nat) * weight;
        weight := weight * 256;
        i := i + 1;
      }
      AllRead(b.data, offset + size, ret, weight);
    }

    /** The fields of the CONNECT_REQ are stored as they are. */
    method ReadConnectFields(b: RxBuf)
      modifies this`conn
      ensures conn == ConnectFields(old(conn), b.data)
    {
      var accessAddress := ExtractField(b, 14, 4);
      var crcInit := ExtractField(b, 18, 3);
      var winSize := ExtractField(b, 21, 1);
      var winOffset := ExtractField(b, 22, 2);
      var interval := ExtractField(b, 24, 2);
      var timeout := ExtractField(b, 28, 2);
      var hop := ExtractField(b, 35, 1);
      Fields(b.data);
      hide Extract;
      conn := conn.(accessAddress := accessAddress, crcInit := crcInit, winSize := winSize, winOffset := winOffset,
                    connInterval := interval, supervisionTimeout := timeout, hopIncrement := hop % 32);
    }

    /** They are scaled one after the other, each followed by its check; after one that fails the rest is left alone. */
    method ScaleAndCheck(b: RxBuf) returns (ok: bool)
      requires conn.winOffset < U16 && conn.supervisionTimeout < U16
      modifies this`conn
      ensures ok <==> ConnectValid(old(conn), b.data[30..35])
      ensures ok ==> conn == Connected(old(conn), b.data[30..35])
    {
      hide Remap, IsTable;
      ok := false;
      if conn.connInterval < 6 || conn.connInterval > 3200 {
        return;
      }
      conn := conn.(connInterval := conn.connInterval * 12500);
      conn := conn.(winOffset := conn.winOffset * 12500);
      if conn.winOffset > conn.connInterval {
        return;
      }
      var size := conn.winSize as nat * 12500;
      var maxSize := conn.connInterval - 12500;
      if maxSize > 100_000 {
        maxSize := 100_000;
      }
      if size < 12500 || size > maxSize {
        return;
      }
      conn := conn.(supervisionTimeout := conn.supervisionTimeout * 100_000 % U32);
      if conn.supervisionTimeout < 1_000_000 || conn.supervisionTimeout > 320_000_000 {
        return;
      }
      conn := conn.(remapping := ParsedTable(b.data[30..35]));
      ok := conn.remapping.totalChannels != 0;
    }

    method LeConnectHandler(b: RxBuf, doFollow: bool)
      requires Good()
      modifies this
      ensures Good() && current == old(current) && main == old(main)
      ensures Value() == ConnectHandler(old(Value()), b, doFollow)
    {
      hide ConnectFields, ConnectValid, Connected, NoConnection, ParsedTable, Extract;
      if !doFollow {
        return;
      }
      if b.size != 2 + 6 + 6 + 22 + 3 {
        return;
      }
      if cancelFollow {
        cancelFollow := false;
      }
      ReadConnectFields(b);
      RawBounds(old(conn), b.data);
      var ok := ScaleAndCheck(b);
      if !ok {
        conn := NoConnection();
        return;
      }
      mr2On := false;
      event := event.(numPackets := 0, isOpen := false);
      SetMatch(b.timestamp + 10 * (40 + b.size * 8) + conn.winOffset + 12500 - RX_WARMUP);
    }

    method ConnectionUpdateHandler(b: RxBuf)
      modifies this`conn
      ensures conn == ConnectionUpdate(old(conn), b.data)
    {
      hide Extract;
      var winSize := ExtractField(b, 3, 1);
      var winOffset := ExtractField(b, 4, 2);
      var interval := ExtractField(b, 6, 2);
      var timeout := ExtractField(b, 10, 2);
      var instant := ExtractField(b, 12, 2);
      conn := conn.(winSize := winSize * 12500 % U8, winOffset := winOffset * 12500, updateInterval := interval * 12500,
                    updateTimeout := timeout * 100_000 % U32, updateInstant := instant);
      conn := conn.(updatePending := true);
    }

    method ChannelMapUpdateHandler(b: RxBuf)
      modifies this`conn
      ensures conn == MapUpdate(old(conn), b.data)
    {
      hide Extract;
      conn := conn.(mapPending := true);
      var instant := ExtractField(b, 8, 2);
      conn := conn.(mapInstant := instant);
      conn := conn.(pendingRemapping := ParsedTable(b.data[3..8]));
    }

    method PacketHandler(b: RxBuf, doFollow: bool)
      requires Good()
      modifies this
      ensures Good() && current == old(current) && main == old(main)
      ensures Value() == LePhy.PacketHandler(old(Value()), b, doFollow)
    {
      hide ConnectHandler, ConnectionUpdate, MapUpdate;
      if ChannelIndex(b.channel) >= 37 {
        if b.data[0] % 16 == 5 {
          LeConnectHandler(b, doFollow);
        }
      } else {
        if b.data[0] % 4 == 3 && b.data[1] > 0 {
          if b.data[2] == 0 {
            if b.data[1] == 12 {
              ConnectionUpdateHandler(b);
            }
          } else if b.data[2] == 1 {
            if b.data[1] == 8 {
              ChannelMapUpdateHandler(b);
            }
          }
        }
      }
    }

    // ----- the main loop

    method BufferRelease(k: nat)
      requires Good() && k < POOL
      modifies pool
      ensures pool[..] == old(pool[..])[k := old(pool[k]).(available := true)]
    {
      pool[k] := pool[k].(available := true);
    }

    method DewhitenBuffer(k: nat)
      requires Good() && k < POOL && pool[k].size <= BUFFER
      modifies pool
      ensures pool[..] == old(pool[..])[k := DewhitenedBuf(old(pool[k]))]
    {
      hide Dewhitened;
      ghost var b := pool[k];
      var source := pool[k].data;
      var data := new u8[BUFFER](i requires 0 <= i < |source| => source[i]);
      assert data[..] == source;
      LeDewhiten(data, pool[k].size, pool[k].channel);
      assert data[..] == data[..b.size] + data[b.size..];
      pool[k] := pool[k].(data := data[..]);
    }

    /** The packet is dewhitened, handled and released. */
    method DealWith(k: nat, passes: bool, doFollow: bool)
      requires Good() && k < POOL && pool[k].size <= BUFFER
      modifies this, pool
      ensures Good() && main.Idle? && Value() == DealtWith(old(Value()), k, passes, doFollow)
    {
      hide DewhitenedBuf, LePhy.PacketHandler, Dewhitened;
      DewhitenBuffer(k);
      main := Handled(k);
      if passes {
        PacketHandler(pool[k], doFollow);
      }
      BufferRelease(k);
      main := Idle;
    }

    /** One turn of the loop of le_phy_main, when nothing interrupts it: the oldest packet is dealt with. */
    method MainTurn(passes: bool, doFollow: bool)
      requires Good() && main.Idle? && Inv(Value())
      modifies this, pool, queue`head
      ensures Good() && main.Idle? && CanTurn(old(Value())) && Value() == Turn(old(Value()), passes, doFollow)
      ensures Inv(Value()) && PendingIn(old(Value())) == TurnedOver(old(Value())) + PendingIn(Value())
    {
      TurnKeeps(Value(), passes, doFollow);
      hide Inv, PendingIn, TurnedOver, PacketIn;
      hide DealtWith;
      var ok, packet := queue.Remove();
      if ok {
        DealWith(packet[0], passes, doFollow);
      }
    }
  }

  /** The queue holds a buffer of the pool with a packet that fits, or nothing. */
  predicate CanTurn(s: State) {
    && |s.buf.ring.data| == FIFOSIZE && s.buf.ring.head < FIFOSIZE
    && (s.buf.ring.head != s.buf.ring.tail ==>
          Oldest(s.buf.ring) < |s.buf.pool| && s.buf.pool[Oldest(s.buf.ring)].size <= BUFFER)
  }

  function Turn(s: State, passes: bool, doFollow: bool): State
    requires CanTurn(s)
  {
    if s.buf.ring.head == s.buf.ring.tail then s
    else DealtWith(s.(buf := s.buf.(ring := Advanced(s.buf.ring))), Oldest(s.buf.ring), passes, doFollow)
  }

  function DealtWith(s: State, k: nat, passes: bool, doFollow: bool): State
    requires k < |s.buf.pool| && s.buf.pool[k].size <= BUFFER
  {
    var b := DewhitenedBuf(s.buf.pool[k]);
    var t := s.(buf := s.buf.(pool := s.buf.pool[k := b], main := Handled(k)));
    HandlerFrame(t, b, doFollow);
    Released(if passes then LePhy.PacketHandler(t, b, doFollow) else t, k)
  }

  function Released(s: State, k: nat): State
    requires k < |s.buf.pool|
  {
    s.(buf := s.buf.(pool := s.buf.pool[k := s.buf.pool[k].(available := true)], main := Idle))
  }

  function Times(e: Event, n: nat): seq<Event> {
    if n == 0 then [] else [e] + Times(e, n - 1)
  }

  /** The packet that a turn deals with, as it was received. */
  function TurnedOver(s: State): seq<Packet>
    requires CanTurn(s)
  {
    if s.buf.ring.head == s.buf.ring.tail then [] else [PacketIn(s.buf.pool[Oldest(s.buf.ring)])]
  }

  lemma NothingProcessed(s: State, e: Event)
    requires Ready(s)
    ensures !e.Loop? ==> Processed(s, e) == []
    ensures e.Loop? && Enabled(s, e) ==> Received(s, e) == []
  {}

  /** A turn of the loop keeps the invariant, and deals with the packet that waits longest, if any. */
  lemma TurnKeeps(s: State, passes: bool, doFollow: bool)
    requires Inv(s) && s.buf.main.Idle?
    ensures CanTurn(s) && Inv(Turn(s, passes, doFollow))
    ensures PendingIn(s) == TurnedOver(s) + PendingIn(Turn(s, passes, doFollow))
  {
    hide Inv, PendingIn, Released, DewhitenedBuf, LePhy.PacketHandler, PacketIn;
    CanAlwaysTurn(s);
    if s.buf.ring.head != s.buf.ring.tail {
      TurnIsSixSteps(s, passes, doFollow);
    }
  }

  /** A turn of the loop is six of its steps with nothing in between. */
  lemma TurnIsSixSteps(s: State, passes: bool, doFollow: bool)
    requires Inv(s) && s.buf.main.Idle? && s.buf.ring.head != s.buf.ring.tail
    ensures CanTurn(s)
    ensures
      var es := Times(Loop(passes, doFollow), 6);
      Possible(s, es) && Run(s, es) == Turn(s, passes, doFollow)
    ensures
      var t := Turn(s, passes, doFollow);
      Inv(t) && PendingIn(s) == TurnedOver(s) + PendingIn(t)
  {
    hide *;
    CanAlwaysTurn(s);
    var e := Loop(passes, doFollow);
    var t1 := OneStep(s, e, 5);
    var t2 := OneStep(t1, e, 4);
    var t3 := OneStep(t2, e, 3);
    var t4 := OneStep(t3, e, 2);
    var t5 := OneStep(t4, e, 1);
    var t6 := OneStep(t5, e, 0);
    NoStep(t6, e);
    SixSteps(s, t1, t2, t3, t4, t5, t6, passes, doFollow);
    SixMains(s, t1, t2, t3, t4, t5, e);
    OneOfSix(PendingIn(s), PendingIn(t1), PendingIn(t2), PendingIn(t3), PendingIn(t4), PendingIn(t5), PendingIn(t6),
             TurnedOver(s));
  }

  lemma OneOfSix<T>(p0: seq<T>, p1: seq<T>, p2: seq<T>, p3: seq<T>, p4: seq<T>, p5: seq<T>, p6: seq<T>, q: seq<T>)
    requires p0 == [] + p1 && p1 == [] + p2 && p2 == [] + p3 && p3 == q + p4 && p4 == [] + p5 && p5 == [] + p6
    ensures p0 == q + p6
  {}

  /** Of the six steps only the fourth dewhitens a packet. */
  lemma SixMains(s: State, t1: State, t2: State, t3: State, t4: State, t5: State, e: Event)
    requires e.Loop? && CanTurn(s) && s.buf.main.Idle? && s.buf.ring.head != s.buf.ring.tail
    requires Ready(s) && t1 == MainStep(s, e.passes, e.doFollow)
    requires Ready(t1) && t2 == MainStep(t1, e.passes, e.doFollow)
    requires Ready(t2) && t3 == MainStep(t2, e.passes, e.doFollow)
    requires Ready(t3) && t4 == MainStep(t3, e.passes, e.doFollow)
    requires Ready(t4) && t5 == MainStep(t4, e.passes, e.doFollow)
    requires Ready(t5)
    ensures Processed(s, e) == Processed(t1, e) == Processed(t2, e) == Processed(t4, e) == Processed(t5, e) == []
    ensures Processed(t3, e) == TurnedOver(s)
  {
    hide DewhitenedBuf, LePhy.PacketHandler, PacketIn, CanReceive;
    if e.passes {
      HandlerFrame(t4.(buf := t4.buf.(main := Handled(t4.buf.main.buf))), t4.buf.pool[t4.buf.main.buf], e.doFollow);
    }
  }

  lemma CanAlwaysTurn(s: State)
    requires Inv(s)
    ensures CanTurn(s)
  {
    if s.buf.ring.head != s.buf.ring.tail {
      RemoveTakesOldest(s.buf.ring);
      assert Contents(s.buf.ring)[0] == Oldest(s.buf.ring);
      assert Oldest(s.buf.ring) in Pending(s.buf);
    }
    hide DewhitenByte;
  }

  lemma SixSteps(s: State, t1: State, t2: State, t3: State, t4: State, t5: State, t6: State,
                 passes: bool, doFollow: bool)
    requires CanTurn(s) && s.buf.main.Idle? && s.buf.ring.head != s.buf.ring.tail
    requires CanMain(s) && t1 == MainStep(s, passes, doFollow)
    requires CanMain(t1) && t2 == MainStep(t1, passes, doFollow)
    requires CanMain(t2) && t3 == MainStep(t2, passes, doFollow)
    requires CanMain(t3) && t4 == MainStep(t3, passes, doFollow)
    requires CanMain(t4) && t5 == MainStep(t4, passes, doFollow)
    requires CanMain(t5) && t6 == MainStep(t5, passes, doFollow)
    ensures t6 == Turn(s, passes, doFollow)
  {
    hide DewhitenedBuf, LePhy.PacketHandler;
    var k := Oldest(s.buf.ring);
    HandlerFrame(s.(buf := Buffers(s.buf.pool[k := DewhitenedBuf(s.buf.pool[k])], s.buf.current,
                                   Advanced(s.buf.ring), Handled(k))),
                 DewhitenedBuf(s.buf.pool[k]), doFollow);
  }

  lemma NoStep(s: State, e: Event)
    requires Inv(s)
    ensures Possible(s, Times(e, 0)) && Run(s, Times(e, 0)) == s
  {}

  lemma OneStep(s: State, e: Event, n: nat) returns (t: State)
    requires Inv(s) && e.Loop?
    ensures CanMain(s) && t == MainStep(s, e.passes, e.doFollow) && Inv(t)
    ensures Ready(s) && Ready(t) && PendingIn(s) == Processed(s, e) + PendingIn(t)
    ensures Possible(t, Times(e, n)) ==> Possible(s, Times(e, n + 1)) && Run(s, Times(e, n + 1)) == Run(t, Times(e, n))
  {
    InvReady(s);
    StepKeeps(s, e);
    t := Step(s, e);
    InvReady(t);
    NothingProcessed(s, e);
    assert PendingIn(s) + [] == PendingIn(s);
    assert Times(e, n + 1)[1..] == Times(e, n);
    hide MainStep, Inv, PendingIn, Ready, Processed, Received;
  }

  /** What has been read, and the rest at its place. */
  function Placed(ret: nat, weight: nat, rest: nat): nat { ret + weight * rest }

  lemma NothingRead(data: Bytes, offset: nat, size: nat)
    requires offset + size <= BUFFER && size <= 4
    ensures Placed(0, 1, Extract(data, offset, size)) == Extract(data, offset, size)
  {
    hide Extract;
  }

  lemma AllRead(data: Bytes, offset: nat, ret: nat, weight: nat)
    requires offset <= BUFFER
    ensures Placed(ret, weight, Extract(data, offset, 0)) == ret
  {}

  lemma NextField(data: Bytes, offset: nat, size: nat, ret: nat, weight: nat)
    requires 1 <= size <= 4 && offset + size <= BUFFER
    ensures Placed(ret + (data[offset] as nat) * weight, weight * 256, Extract(data, offset + 1, size - 1))
      == Placed(ret, weight, Extract(data, offset, size))
  {
    var rest := Extract(data, offset + 1, size - 1);
    assert Extract(data, offset, size) == data[offset] + 256 * rest;
    hide Extract;
    Split(weight, data[offset], rest);
  }

  lemma Split(weight: nat, x: nat, rest: nat)
    ensures weight * (x + 256 * rest) == x * weight + weight * 256 * rest
  {}

  lemma RawBounds(c: Conn, data: Bytes)
    ensures ConnectFields(c, data).winOffset < U16
    ensures ConnectFields(c, data).supervisionTimeout < U16
  {
    Fields(data);
    hide Extract;
  }

  lemma Fields(data: Bytes)
    ensures Extract(data, 14, 4) < U32 && Extract(data, 18, 3) < U24 && Extract(data, 21, 1) < U8
    ensures Extract(data, 22, 2) < U16 && Extract(data, 24, 2) < U16 && Extract(data, 28, 2) < U16
    ensures Extract(data, 35, 1) < U8
  {}
}
