/**
 What every run of the follower keeps, whatever the interleaving of bytes, timer
 interrupts and steps of the main loop: no buffer is lost or used twice, every
 byte has its place, and packets are handled in the order of their reception.
 */
module LePhyRuns {
  import opened Bits
  import opened Channels
  import opened Whitening
  import opened RingQueue
  import opened LePhy
  import opened LePhyBuffers
  import opened LePhyFraming

  /** The receiver is not on while the synthesizer is waited for, and both need a current buffer. */
  predicate RadioOk(s: State) {
    && (s.rxOn ==> !s.mr2On)
    && (s.rxOn || s.mr2On ==> s.buf.current.Some?)
  }

  ghost predicate Inv(s: State) {
    Sound(s.buf, s.rfChannel) && RadioOk(s)
  }

  ghost function PendingIn(s: State): seq<Packet>
    requires Inv(s)
  {
    PendingPackets(s.buf)
  }

  lemma InvReady(s: State)
    requires Inv(s)
    ensures Ready(s)
  {
    if s.buf.main.Taken? {
      assert Pending(s.buf)[0] == s.buf.main.buf;
      assert s.buf.main.buf in Pending(s.buf);
    }
    if s.buf.main.Loaded? {
      assert Contents(s.buf.ring)[0] == Oldest(s.buf.ring);
      assert s.buf.main.buf in Held(s.buf);
    }
  }

  /** The packet that a step receives, if any. */
  function Received(s: State, e: Event): seq<Packet>
    requires Ready(s) && Enabled(s, e)
  {
    if e.Byte? && PacketDoneIn(StoreByte(s, e.now, e.value).buf) then
      var c := CurrentBuf(StoreByte(s, e.now, e.value).buf);
      if c.size <= BUFFER then [PacketIn(c)] else []
    else []
  }

  /** The packet that a step of the main loop dewhitens, as it was received. */
  function Processed(s: State, e: Event): seq<Packet>
    requires Ready(s)
  {
    if e.Loop? && s.buf.main.Taken? then [PacketIn(s.buf.pool[s.buf.main.buf])] else []
  }

  // ----- the parts of a step

  lemma ChangeChannelKeeps(s: State)
    requires Conserved(s.buf) && Waiting(s.buf) && s.buf.current.Some?
    ensures s.buf.current.value < |s.buf.pool|
    ensures Inv(ChangeChannel(s)) && PendingIn(ChangeChannel(s)) == PendingPackets(s.buf)
  {
    CurrentApart(s.buf);
    var t := ChangeChannel(s);
    ClearSound(s.buf, t.rfChannel);
    hide MappedPhys, Hopped, AdvIndex, Sound, PendingPackets, Conserved, Waiting;
  }

  lemma FinishKeeps(s: State, now: u32)
    requires Inv(s) && (ClosingRetunes(s, now) ==> s.buf.current.Some? && s.buf.current.value < |s.buf.pool|)
    ensures Inv(FinishConnEvent(s, now)) && PendingIn(FinishConnEvent(s, now)) == PendingIn(s)
  {
    var t := Closed(s, now);
    if TimedOut(t, now) {
      ChangeChannelKeeps(t.(conn := NoConnection()));
    } else if t.cancelFollow {
      ChangeChannelKeeps(t.(cancelFollow := false, conn := NoConnection()));
    }
    hide Sound, PendingPackets, TimedOut, AnchorUpdated;
  }

  lemma Mr0Keeps(s: State, now: u32)
    requires Inv(s) && CanMr0(s, now)
    ensures Inv(Mr0(s, now)) && PendingIn(Mr0(s, now)) == PendingIn(s)
  {
    if AtUpdateInstant(s.conn) {
      if !WaitsForWindow(s) {
        var c := UpdateApplied(s.conn);
        ChangeChannelKeeps(SetMatch(s.(conn := c, event := s.event.(isOpen := true)),
                                    c.lastAnchor + c.connInterval + c.winOffset + c.winSize + MAX_PACKET));
      }
    } else {
      var t := s.(conn := MapApplied(s.conn));
      if !t.event.isOpen {
        ChangeChannelKeeps(SetMatch(t.(event := t.event.(isOpen := true)), now + MAX_PACKET + RX_WARMUP));
      } else {
        FinishKeeps(t, now);
      }
    }
    hide Sound, PendingPackets, FinishConnEvent, ChangeChannel, ClosingRetunes;
  }

  lemma Mr3Keeps(s: State, locked: bool)
    requires Inv(s) && s.buf.current.None?
    ensures Inv(Mr3(s, locked)) && PendingIn(Mr3(s, locked)) == PendingIn(s)
  {
    GetSound(s.buf, s.rfChannel);
    hide Sound, PendingPackets, GetCurrent;
  }

  /** Queueing the packet in the current buffer and getting another. */
  lemma QueuedAndReplaced(b: Buffers, rfChannel: u16)
    requires Conserved(b) && Waiting(b) && b.current.Some? && b.current.value < |b.pool|
    requires Complete(CurrentBuf(b))
    ensures |b.ring.data| == FIFOSIZE
    ensures
      var n := GetCurrent(EnqueueCurrent(b));
      && Sound(n, rfChannel) && PendingPackets(n) == PendingPackets(b) + [PacketIn(CurrentBuf(b))]
      && (n.current.Some? ==> n.current.value < |n.pool|)
  {
    PoolSize(b);
    EnqueueSound(b);
    GetSound(HandedOver(b), rfChannel);
    var n := GetCurrent(EnqueueCurrent(b));
    GetIgnoresCurrent(EnqueueCurrent(b));
    hide Sound, PendingPackets, Conserved, Waiting, GetCurrent, EnqueueCurrent;
    assert n == GetCurrent(HandedOver(b));
    if n.current.Some? {
      CurrentInPool(n, rfChannel);
    }
  }

  /** A packet has come in completely: it is queued behind the others, and reception goes on or the event is closed. */
  lemma EndPacketKeeps(s: State, now: u32)
    requires Conserved(s.buf) && Waiting(s.buf) && RadioOk(s) && s.rxOn
    requires s.buf.current.Some? && s.buf.current.value < |s.buf.pool| && Complete(CurrentBuf(s.buf))
    requires PacketDoneIn(s.buf) && |s.buf.ring.data| == FIFOSIZE && CanFinishSecond(s, now)
    ensures Inv(EndPacket(s, now))
    ensures PendingIn(EndPacket(s, now)) == PendingPackets(s.buf) + [PacketIn(CurrentBuf(s.buf))]
  {
    hide Sound, PendingPackets, Conserved, Waiting, GetCurrent, EnqueueCurrent, HandedOver, Complete, PacketIn;
    hide PacketDone, FinishConnEvent, ClosingRetunes;
    QueuedAndReplaced(s.buf, s.rfChannel);
    if IsSecond(s) {
      FinishKeeps(AfterSecond(s), now);
    }
  }

  lemma GetIgnoresCurrent(b: Buffers)
    ensures GetCurrent(b) == GetCurrent(b.(current := None))
  {}

  lemma CurrentInPool(b: Buffers, rfChannel: u16)
    requires Sound(b, rfChannel) && b.current.Some?
    ensures b.current.value < |b.pool|
  {}

  lemma ByteKeeps(s: State, now: u32, value: u8)
    requires Inv(s) && Ready(s) && Enabled(s, Event.Byte(now, value))
    ensures
      var e := Event.Byte(now, value);
      var t := Step(s, e);
      && Inv(t) && PendingIn(t) == PendingIn(s) + Received(s, e)
  {
    StoreSound(s.buf, s.rfChannel, now, value, s.conn.accessAddress);
    var t := StoreByte(s, now, value);
    if PacketDoneIn(t.buf) {
      assert Complete(CurrentBuf(t.buf));
      EndPacketKeeps(t, now);
    }
    hide Sound, PendingPackets, Conserved, Waiting, EndPacket, WithByte, CanFinishSecond;
  }

  /** The packet handler touches neither buffers nor receiver, except that it may stop waiting for the synthesizer. */
  lemma HandlerFrame(s: State, b: RxBuf, doFollow: bool)
    ensures
      var t := PacketHandler(s, b, doFollow);
      && t.buf == s.buf && t.rfChannel == s.rfChannel && t.rxOn == s.rxOn && (t.mr2On ==> s.mr2On)
      && t.advChannel == s.advChannel && t.mr3On == s.mr3On
  {
    hide ConnectValid, ConnectFields, Connected, ConnectionUpdate, MapUpdate, Extract;
  }

  /** The three steps of taking the oldest packet from the queue. */
  lemma RemoveKeeps(b: Buffers, rfChannel: u16, n: Buffers)
    requires Sound(b, rfChannel)
    requires match b.main
      case Idle => b.ring.head != b.ring.tail && n == b.(main := Advance(Succ(b.ring.head)))
      case Advance(newhead) =>
        |b.ring.data| == FIFOSIZE && newhead < FIFOSIZE && n == b.(main := Loaded(newhead, b.ring.data[newhead]))
      case Loaded(newhead, k) => n == b.(ring := b.ring.(head := newhead), main := Taken(k))
      case _ => false
    ensures Sound(n, rfChannel) && PendingPackets(n) == PendingPackets(b)
  {
    match b.main
    case Idle => AdvanceKeeps(b);
    case Advance(_) => LoadKeeps(b);
    case Loaded(_, k) => CommitKeeps(b); assert Pending(n) == Pending(b);
    hide Sound, PendingPackets, Conserved;
    assert Conserved(n);
    PoolSize(b);
    PoolSize(n);
    SameWaiting(b, n, rfChannel);
  }

  lemma LoopKeeps(s: State, passes: bool, doFollow: bool)
    requires Inv(s) && Ready(s)
    ensures
      var t := MainStep(s, passes, doFollow);
      && Inv(t) && PendingIn(s) == Processed(s, Loop(passes, doFollow)) + PendingIn(t)
  {
    hide Sound, PendingPackets, DewhitenedBuf, PacketHandler, PacketIn, CanReceive;
    hide Conserved, Waiting, Complete, Inserted;
    var b, rf := s.buf, s.rfChannel;
    match b.main
    case Idle =>
      if b.ring.head != b.ring.tail {
        RemoveKeeps(b, rf, b.(main := Advance(Succ(b.ring.head))));
      }
    case Advance(newhead) =>
      RemoveKeeps(b, rf, b.(main := Loaded(newhead, b.ring.data[newhead])));
    case Loaded(newhead, k) =>
      RemoveKeeps(b, rf, b.(ring := b.ring.(head := newhead), main := Taken(k)));
    case Taken(k) =>
      DewhitenSound(b, rf);
    case Plain(k) =>
      HandleSound(b, rf);
      HandlerFrame(s.(buf := b.(main := Handled(k))), b.pool[k], doFollow);
    case Handled(k) =>
      ReleaseSound(b, rf);
  }

  lemma HandleSound(b: Buffers, rfChannel: u16)
    requires Sound(b, rfChannel) && b.main.Plain?
    ensures
      var n := b.(main := Handled(b.main.buf));
      Sound(n, rfChannel) && PendingPackets(n) == PendingPackets(b)
  {
    var n := b.(main := Handled(b.main.buf));
    WorkKeeps(b, Handled(b.main.buf));
    assert Pending(n) == Pending(b);
    hide Sound, PendingPackets, Conserved, Pending;
    SameWaiting(b, n, rfChannel);
  }

  // ----- one step, and runs

  /**
   One step: the invariant is kept, and the packets still waiting are those waiting before, plus the one
   received, less the one processed, in order.
   */
  lemma StepKeeps(s: State, e: Event)
    requires Inv(s) && Ready(s) && Enabled(s, e)
    ensures Inv(Step(s, e))
    ensures PendingIn(s) + Received(s, e) == Processed(s, e) + PendingIn(Step(s, e))
  {
    hide DmaByte, Mr0, Mr3, MainStep, Sound, PendingPackets, PacketIn;
    hide CanReceive, CanFinishSecond, CanMr0, CanMain, StoreByte;
    match e
    case Byte(now, value) => ByteKeeps(s, now, value);
    case Match0(now) => Mr0Keeps(s, now);
    case Match2(locked) =>
    case Match3(locked) => Mr3Keeps(s, locked);
    case Loop(passes, doFollow) => LoopKeeps(s, passes, doFollow);
    case Cancel =>
  }

  /** The events of a run, each enabled when its turn comes. */
  ghost predicate Possible(s: State, es: seq<Event>)
    requires Inv(s)
    decreases |es|
  {
    InvReady(s);
    es == [] || (Enabled(s, es[0]) && (StepKeeps(s, es[0]); Possible(Step(s, es[0]), es[1..])))
  }

  ghost function Run(s: State, es: seq<Event>): (t: State)
    requires Inv(s) && Possible(s, es)
    ensures Inv(t)
    decreases |es|
  {
    if es == [] then s else InvReady(s); StepKeeps(s, es[0]); Run(Step(s, es[0]), es[1..])
  }

  /** All packets received during a run, in order. */
  ghost function AllReceived(s: State, es: seq<Event>): seq<Packet>
    requires Inv(s) && Possible(s, es)
    decreases |es|
  {
    if es == [] then [] else InvReady(s); StepKeeps(s, es[0]); Received(s, es[0]) + AllReceived(Step(s, es[0]), es[1..])
  }

  /** All packets the main loop dewhitens during a run, in order. */
  ghost function AllProcessed(s: State, es: seq<Event>): seq<Packet>
    requires Inv(s) && Possible(s, es)
    decreases |es|
  {
    if es == [] then []
    else InvReady(s); StepKeeps(s, es[0]); Processed(s, es[0]) + AllProcessed(Step(s, es[0]), es[1..])
  }

  lemma {:induction false} RunConserves(s: State, es: seq<Event>)
    requires Inv(s) && Possible(s, es)
    ensures PendingIn(s) + AllReceived(s, es) == AllProcessed(s, es) + PendingIn(Run(s, es))
    decreases |es|
  {
    if es == [] {
      assert PendingIn(s) + [] == [] + PendingIn(s);
    } else {
      InvReady(s);
      StepKeeps(s, es[0]);
      hide *;
      var t := Step(s, es[0]);
      RunConserves(t, es[1..]);
      RunUnfolded(s, es);
      Chained(PendingIn(s), Received(s, es[0]), AllReceived(t, es[1..]), Processed(s, es[0]), AllProcessed(t, es[1..]),
              PendingIn(t), PendingIn(Run(t, es[1..])));
    }
  }

  lemma RunUnfolded(s: State, es: seq<Event>)
    requires Inv(s) && Possible(s, es) && es != []
    ensures Ready(s) && Enabled(s, es[0]) && Inv(Step(s, es[0])) && Possible(Step(s, es[0]), es[1..])
    ensures
      var t := Step(s, es[0]);
      && Run(s, es) == Run(t, es[1..])
      && AllReceived(s, es) == Received(s, es[0]) + AllReceived(t, es[1..])
      && AllProcessed(s, es) == Processed(s, es[0]) + AllProcessed(t, es[1..])
  {
    InvReady(s);
    StepKeeps(s, es[0]);
    hide Inv, Ready, Enabled, Step, Received, Processed;
  }

  lemma Chained<T>(p: seq<T>, r: seq<T>, rs: seq<T>, q: seq<T>, qs: seq<T>, mid: seq<T>, end: seq<T>)
    requires p + r == q + mid && mid + rs == qs + end
    ensures p + (r + rs) == (q + qs) + end
  {
    assert p + (r + rs) == (p + r) + rs;
    assert (q + mid) + rs == q + (mid + rs);
    assert q + (qs + end) == (q + qs) + end;
  }

  /**
   Whatever is found, the follower starts with one current buffer and three available ones. It is about to listen to
   the advertising channel and follows nothing; what else the statics and the timer hold stays.
   */
  lemma StartInv(found: State)
    requires |found.buf.pool| == POOL && |found.buf.ring.data| == FIFOSIZE
    ensures Inv(Start(found)) && PendingIn(Start(found)) == [] && Contents(Start(found).buf.ring) == []
    ensures
      var s := Start(found);
      && s.rfChannel == found.advChannel && s.mr2On && !s.rxOn && !s.cancelFollow && !Following(s)
      && s.buf.current == Some(0) && (forall k :: 1 <= k < 4 ==> s.buf.pool[k].available)
      && s == found.(buf := s.buf, conn := found.conn.(accessAddress := 0x8e89bed6), rfChannel := s.rfChannel,
                     mr2On := true, rxOn := false, cancelFollow := false)
  {
    var b := Buffers(AllAvailable(found.buf.pool), None, Emptied(found.buf.ring), Idle);
    assert Held(b) == [] && Pending(b) == [];
    GetSound(b, found.advChannel);
    GetKeeps(b);
  }

  /**
   From every start, for every run: each buffer is in exactly one place, the queue has room for every packet, and
   what the main loop has dewhitened is a prefix of what was received; the rest is waiting in order.
   */
  lemma EveryRun(found: State, es: seq<Event>)
    requires |found.buf.pool| == POOL && |found.buf.ring.data| == FIFOSIZE
    requires Inv(Start(found)) && Possible(Start(found), es)
    ensures
      var s := Start(found);
      var t := Run(s, es);
      && Conserved(t.buf)
      && (t.buf.current.Some? ==> Inserted(t.buf.ring, t.buf.current.value).1)
      && AllReceived(s, es) == AllProcessed(s, es) + PendingIn(t)
  {
    var s := Start(found);
    StartInv(found);
    RunConserves(s, es);
    RoomInQueue(Run(s, es).buf);
    assert [] + AllReceived(s, es) == AllReceived(s, es);
  }

  /** In every reachable state: where the next byte goes, and what the main loop finds. */
  lemma BytesInPlace(s: State)
    requires Inv(s)
    ensures s.rxOn ==> CanReceive(s.buf)
    ensures s.buf.current.Some? && s.buf.current.value < POOL && CurrentBuf(s.buf).pos >= 2 ==>
      5 <= CurrentBuf(s.buf).size <= 260 && CurrentBuf(s.buf).pos < CurrentBuf(s.buf).size
    ensures forall k :: k in Contents(s.buf.ring) ==>
      k < POOL && 5 <= s.buf.pool[k].pos == s.buf.pool[k].size <= 260
    ensures s.buf.main.Plain? || s.buf.main.Handled? ==>
      s.buf.main.buf < POOL && s.buf.pool[s.buf.main.buf].data[1] as nat + 5 == s.buf.pool[s.buf.main.buf].size
  {
    InvReady(s);
    forall k | k in Contents(s.buf.ring)
      ensures k < POOL && 5 <= s.buf.pool[k].pos == s.buf.pool[k].size <= 260
    {
      assert k in Pending(s.buf);
    }
  }

  /** buffer_get comes back empty exactly when all four buffers are with the main loop and in the queue. */
  lemma NoBufferLeft(b: Buffers, rfChannel: u16)
    requires Conserved(b) && b.current.None?
    ensures GetCurrent(b).current.None? <==> |MainHeld(b.main)| + |Contents(b.ring)| == 4
  {
    GetKeeps(b);
    RoomInQueue(b);
    if GetCurrent(b).current.Some? {
      RoomInQueue(GetCurrent(b));
    }
  }
}
