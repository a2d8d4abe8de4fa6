/**
 When a connection is given up: exactly when it was silent for longer than its
 supervision time-out, or the host asked for it; where the radio goes then; and
 how reception resumes after it ran out of buffers.
 */
module LePhySilence {
  import opened Bits
  import opened Channels
  import opened LePhy
  import opened LePhyBuffers
  import opened LePhyFraming
  import opened LePhyRuns
  import opened LePhySchedule
  import opened LePhyAnchor
  import opened LePhyFailures
  import opened LePhyReception
  import opened LePhyRequests
  import opened LePhyUpdates

  /** How much later one time is than another, on a clock of 2^32 ticks. */
  function Elapsed(from: u32, to: u32): u32 { (to as int - from as int) % 0x1_0000_0000 }

  /** The step closes an event that counts as a sign of life: one with packets, or any while no anchor is set. */
  predicate Alive(s: State, e: Event)
    requires Ready(s) && Enabled(s, e)
  {
    Finishes(s, e) && (e.Byte? || s.event.numPackets > 0 || !s.conn.anchorSet)
  }

  /** No CONNECT_REQ is being dealt with. */
  predicate NoRequest(s: State, e: Event)
    requires Ready(s)
  {
    Handles(s, e, ConnectReq) ==> !e.doFollow || s.buf.pool[s.buf.main.buf].size != 39
  }

  /** Too long ago. */
  predicate TooLong(last: u32, now: u32, timeout: u32) { Elapsed(last, now) > timeout }

  // ----- closing an event

  lemma ElapsedIsSub(from: u32, to: u32)
    ensures Sub32(to, from) == Elapsed(from, to) && Elapsed(to, to) == 0
  {}

  lemma LastPacket(c: Conn, e: ConnEvent, now: u32)
    ensures ClosedConn(c, e, now).lastPacketTs == if e.numPackets > 0 || !c.anchorSet then now else c.lastPacketTs
    ensures ClosedConn(c, e, now).supervisionTimeout == c.supervisionTimeout
  {}

  /** Where the radio listens for advertising: on the channel that was asked for, if it is one of the three. */
  lemma AdvertisingFrequency(adv: u16)
    ensures IndexToPhys(AdvIndex(adv)) == if adv in {2402, 2426, 2480} then adv else 2402
  {}

  /** The connection is gone, and the radio is being tuned to the advertising channel with an empty buffer. */
  predicate Back(s: State, t: State) {
    && Blank(t.conn) && !t.event.isOpen && t.event.numPackets == 0
    && t.rfChannel == (if s.advChannel in {2402, 2426, 2480} then s.advChannel else 2402)
    && t.mr2On && !t.rxOn && EmptyCurrent(t.buf)
  }

  lemma ClosingEnds(s: State, now: u32)
    requires ClosingRetunes(s, now) ==> s.buf.current.Some? && s.buf.current.value < |s.buf.pool|
    requires Following(s)
    ensures
      var t, heard := FinishConnEvent(s, now), s.event.numPackets > 0 || !s.conn.anchorSet;
      var silent := !heard && TooLong(s.conn.lastPacketTs, now, s.conn.supervisionTimeout);
      && (Following(t) <==> !silent && !s.cancelFollow)
      && (!Following(t) ==> Back(s, t) && (t.cancelFollow <==> s.cancelFollow && silent))
      && (Following(t) ==> t.conn.lastPacketTs == if heard then now else s.conn.lastPacketTs)
  {
    var c := ClosedConn(s.conn, s.event, now);
    assert Closed(s, now) == s.(conn := c, event := ResetEvent(s.event));
    LastPacket(s.conn, s.event, now);
    SameAddress(s.conn, s.event, now);
    ElapsedIsSub(c.lastPacketTs, now);
    ElapsedIsSub(s.conn.lastPacketTs, now);
    AdvertisingFrequency(s.advChannel);
    ClearedEmpty(s.buf);
    hide Closed, ClosedConn, Sub32, Elapsed, AdvIndex, IndexToPhys, ClearCurrent, EmptyCurrent;
  }

  lemma ClearedEmpty(b: Buffers)
    ensures b.current.Some? && b.current.value < |b.pool| ==> EmptyCurrent(ClearCurrent(b))
  {}

  // ----- any step

  function TimeOf(e: Event): u32
    requires e.Byte? || e.Match0?
  {
    e.now
  }

  /** The step closes an event in which nothing was heard, too long after the last sign of life. */
  predicate Silent(s: State, e: Event, last: u32)
    requires Ready(s) && Enabled(s, e)
  {
    Finishes(s, e) && !Alive(s, e) && TooLong(last, TimeOf(e), s.conn.supervisionTimeout)
  }

  /** What a step makes of a followed connection. */
  ghost predicate Told(s: State, e: Event)
    requires Ready(s) && Enabled(s, e)
  {
    var t := Step(s, e);
    && (Following(t) <==> !Silent(s, e, s.conn.lastPacketTs) && !(Finishes(s, e) && s.cancelFollow))
    && (!Following(t) ==> Back(s, t) && (t.cancelFollow <==> s.cancelFollow && Silent(s, e, s.conn.lastPacketTs)))
    && (Following(t) ==> t.conn.lastPacketTs == if Alive(s, e) then TimeOf(e) else s.conn.lastPacketTs)
  }

  lemma TimerTells(s: State, e: Event)
    requires Ready(s) && e.Match0? && Enabled(s, e) && Following(s) && Finishes(s, e)
    ensures Told(s, e)
  {
    var u := s.(conn := MapApplied(s.conn));
    ClosingEnds(u, e.now);
    assert Step(s, e) == FinishConnEvent(u, e.now);
    hide FinishConnEvent, Ready, Step, Back, TooLong, ClosingRetunes;
  }

  lemma OtherMatchTells(s: State, e: Event)
    requires Ready(s) && e.Match0? && Enabled(s, e) && Following(s) && !Finishes(s, e)
    ensures Told(s, e)
  {
    hide Mr0, CanMr0, Ready, Back, TunedConn;
    if Tunes(s, e) {
      TuningSettled(s, e.now);
      TunedAlive(s.conn);
    } else {
      WaitingSettled(s, e.now);
    }
  }

  lemma TunedAlive(c: Conn)
    ensures TunedConn(c).accessAddress == c.accessAddress && TunedConn(c).lastPacketTs == c.lastPacketTs
  {}

  lemma ByteTells(s: State, e: Event)
    requires Ready(s) && e.Byte? && Enabled(s, e) && Following(s)
    ensures Told(s, e)
  {
    hide WithByte, GetCurrent, EnqueueCurrent, FinishConnEvent, CanReceive, ClosingRetunes, PacketDone, Back, TooLong;
    var t := StoreByte(s, e.now, e.value);
    assert t.conn == s.conn && t.event == s.event && t.rfChannel == s.rfChannel && t.advChannel == s.advChannel;
    assert t.cancelFollow == s.cancelFollow;
    if PacketDoneIn(t.buf) && IsSecond(t) {
      var u := AfterSecond(t);
      assert u.conn == s.conn && u.advChannel == s.advChannel && u.cancelFollow == s.cancelFollow;
      assert u.event.numPackets == 2;
      CurrentBound(EnqueueCurrent(t.buf));
      ClosingEnds(u, e.now);
      SameAdv(s, u, FinishConnEvent(u, e.now));
    }
  }

  lemma SameAdv(s: State, u: State, t: State)
    requires u.advChannel == s.advChannel
    ensures Back(u, t) <==> Back(s, t)
  {}

  lemma LoopTells(s: State, e: Event)
    requires Ready(s) && e.Loop? && Enabled(s, e) && Following(s) && NoRequest(s, e)
    ensures Told(s, e)
  {
    LoopConn(s, e);
    assert Step(s, e) == MainStep(s, e.passes, e.doFollow);
    hide MainStep, Step, KindOf, Extract, ParsedTable, Back;
  }

  /** A step that deals with no CONNECT_REQ gives the connection up exactly when it was silent too long or cancelled. */
  lemma StepTells(s: State, e: Event)
    requires Ready(s) && Enabled(s, e) && Following(s) && NoRequest(s, e)
    ensures Told(s, e)
  {
    match e
    case Byte(_, _) => ByteTells(s, e); hide Told;
    case Match0(_) => if Finishes(s, e) { TimerTells(s, e); } else { OtherMatchTells(s, e); } hide Told;
    case Loop(_, _) => LoopTells(s, e); hide Told;
    case _ => OthersMoveNothing(s, e); hide Back;
  }

  // ----- runs

  /** No step of the run deals with a CONNECT_REQ, and the connection is followed throughout. */
  ghost predicate FollowedRun(s: State, es: seq<Event>)
    requires Inv(s) && Possible(s, es)
    decreases |es|
  {
    Following(s) &&
    (es == [] ||
     (InvReady(s); StepKeeps(s, es[0]); NoRequest(s, es[0]) && FollowedRun(Step(s, es[0]), es[1..])))
  }

  /** When there was the last sign of life in a run, and before it at time t. */
  ghost function LastAlive(s: State, es: seq<Event>, t: u32): u32
    requires Inv(s) && Possible(s, es)
    decreases |es|
  {
    if es == [] then t
    else
      InvReady(s); StepKeeps(s, es[0]);
      LastAlive(Step(s, es[0]), es[1..], if Alive(s, es[0]) then TimeOf(es[0]) else t)
  }

  lemma FollowedUnfolded(s: State, es: seq<Event>, t: u32)
    requires Inv(s) && Possible(s, es) && FollowedRun(s, es) && es != []
    ensures Ready(s) && Enabled(s, es[0]) && NoRequest(s, es[0]) && Following(s)
    ensures
      var u, rest := Step(s, es[0]), es[1..];
      && Inv(u) && Possible(u, rest) && FollowedRun(u, rest) && Run(s, es) == Run(u, rest) && Following(u)
      && LastAlive(s, es, t) == LastAlive(u, rest, if Alive(s, es[0]) then TimeOf(es[0]) else t)
  {
    InvReady(s);
    StepKeeps(s, es[0]);
    hide Inv, Ready, Enabled, NoRequest, Step, Alive, Following;
  }

  lemma {:induction false} LastAliveStored(s: State, es: seq<Event>)
    requires Inv(s) && Possible(s, es) && FollowedRun(s, es)
    ensures Following(Run(s, es)) && Run(s, es).conn.lastPacketTs == LastAlive(s, es, s.conn.lastPacketTs)
    decreases |es|
  {
    hide *;
    if es == [] {
      NothingHappened(s);
    } else {
      FollowedUnfolded(s, es, s.conn.lastPacketTs);
      StepTells(s, es[0]);
      ToldStored(s, es[0]);
      LastAliveStored(Step(s, es[0]), es[1..]);
    }
  }

  lemma NothingHappened(s: State)
    requires Inv(s) && Possible(s, []) && FollowedRun(s, [])
    ensures Run(s, []) == s && Following(s) && LastAlive(s, [], s.conn.lastPacketTs) == s.conn.lastPacketTs
  {}

  lemma ToldStored(s: State, e: Event)
    requires Ready(s) && Enabled(s, e) && Told(s, e) && Following(Step(s, e))
    ensures Step(s, e).conn.lastPacketTs == if Alive(s, e) then TimeOf(e) else s.conn.lastPacketTs
  {
    hide Step, Back, Alive;
  }

  /**
   After any run in which a connection was followed, the next step that deals with no CONNECT_REQ gives it up exactly
   when it closes an event and either nothing was heard in it and the last sign of life of the whole run is longer ago
   than the supervision time-out, or following was cancelled. The connection is then blank, and the radio is being
   tuned to the advertising channel.
   */
  lemma GivenUpExactly(s: State, es: seq<Event>, e: Event)
    requires Inv(s) && Possible(s, es) && FollowedRun(s, es)
    requires Ready(Run(s, es)) && Enabled(Run(s, es), e) && NoRequest(Run(s, es), e)
    ensures
      var u := Run(s, es);
      var t, silent := Step(u, e), Silent(u, e, LastAlive(s, es, s.conn.lastPacketTs));
      && (!Following(t) <==> silent || (Finishes(u, e) && u.cancelFollow))
      && (!Following(t) ==> Back(u, t))
  {
    hide *;
    LastAliveStored(s, es);
    StepTells(Run(s, es), e);
    ToldEnd(Run(s, es), e);
  }

  lemma ToldEnd(u: State, e: Event)
    requires Ready(u) && Enabled(u, e) && Told(u, e)
    ensures !Following(Step(u, e)) <==> Silent(u, e, u.conn.lastPacketTs) || (Finishes(u, e) && u.cancelFollow)
    ensures !Following(Step(u, e)) ==> Back(u, Step(u, e))
  {
    hide Step, Back, Silent, Finishes, Following;
  }

  // ----- a connection that is never heard

  /** No CONNECT_REQ is dealt with, nothing is cancelled, and an event that ends had at most one packet. */
  predicate Unheard(s: State, e: Event)
    requires Ready(s) && Enabled(s, e)
  {
    NoRequest(s, e) && !e.Cancel? && (Finishes(s, e) ==> e.Match0? && s.event.numPackets <= 1)
  }

  /** A followed connection without an anchor, not cancelled. */
  predicate Lost(s: State) { Following(s) && !s.conn.anchorSet && !s.cancelFollow }

  lemma LostTimer(s: State, e: Event)
    requires Ready(s) && e.Match0? && Enabled(s, e) && Lost(s) && Unheard(s, e)
    ensures !Step(s, e).conn.anchorSet && !Step(s, e).cancelFollow
  {
    if Finishes(s, e) {
      ClosingLost(s.(conn := MapApplied(s.conn)), e.now);
      hide FinishConnEvent, ClosingRetunes, Ready;
    } else {
      hide FinishConnEvent, ClosingRetunes, Ready, ClearCurrent, MappedPhys;
    }
  }

  lemma ClosingLost(s: State, now: u32)
    requires ClosingRetunes(s, now) ==> s.buf.current.Some? && s.buf.current.value < |s.buf.pool|
    requires s.event.numPackets <= 1 && !s.conn.anchorSet && !s.cancelFollow
    ensures !FinishConnEvent(s, now).conn.anchorSet && !FinishConnEvent(s, now).cancelFollow
  {
    NoAnchorYet(s.conn, s.event, now);
    hide AnchorUpdated, ClearCurrent;
  }

  lemma LostByte(s: State, e: Event)
    requires Ready(s) && e.Byte? && Enabled(s, e) && Lost(s) && Unheard(s, e)
    ensures !Step(s, e).conn.anchorSet && !Step(s, e).cancelFollow
  {
    hide WithByte, GetCurrent, EnqueueCurrent, FinishConnEvent, CanReceive, ClosingRetunes, PacketDone;
    var t := StoreByte(s, e.now, e.value);
    assert t.conn == s.conn && t.event == s.event && t.rfChannel == s.rfChannel && t.cancelFollow == s.cancelFollow;
  }

  lemma LostLoop(s: State, e: Event)
    requires Ready(s) && e.Loop? && Enabled(s, e) && Lost(s) && Unheard(s, e)
    ensures !Step(s, e).conn.anchorSet && !Step(s, e).cancelFollow
  {
    LoopConn(s, e);
    LoopCancels(s, e);
    assert Step(s, e) == MainStep(s, e.passes, e.doFollow);
    hide MainStep, Step, KindOf, Extract, ParsedTable, Ready;
  }

  lemma LoopCancels(s: State, e: Event)
    requires Ready(s) && e.Loop? && !s.cancelFollow
    ensures !MainStep(s, e.passes, e.doFollow).cancelFollow
  {
    if s.buf.main.Plain? {
      HandlerCancels(s.(buf := s.buf.(main := Handled(s.buf.main.buf))), s.buf.pool[s.buf.main.buf], e.doFollow);
    }
    hide PacketHandler, DewhitenedBuf, CanReceive;
  }

  lemma LostStep(s: State, e: Event)
    requires Ready(s) && Enabled(s, e) && Lost(s) && Unheard(s, e)
    ensures Lost(Step(s, e))
  {
    hide *;
    LostParts(s, e);
    StepTells(s, e);
    ToldEnd(s, e);
    match e
    case Byte(_, _) => LostByte(s, e); LostAgain(Step(s, e));
    case Match0(_) => LostTimer(s, e); LostAgain(Step(s, e));
    case Loop(_, _) => LostLoop(s, e); LostAgain(Step(s, e));
    case _ => LostOthers(s, e); LostAgain(Step(s, e));
  }

  lemma LostParts(s: State, e: Event)
    requires Ready(s) && Enabled(s, e) && Lost(s) && Unheard(s, e)
    ensures NoRequest(s, e) && Following(s) && !Silent(s, e, s.conn.lastPacketTs) && !s.cancelFollow
  {
    hide Finishes, Ready, Enabled, NoRequest, TooLong;
  }

  lemma LostAgain(t: State)
    requires Following(t) && !t.conn.anchorSet && !t.cancelFollow
    ensures Lost(t)
  {}

  lemma LostOthers(s: State, e: Event)
    requires Ready(s) && Enabled(s, e) && (e.Match2? || e.Match3? || e.Cancel?) && Lost(s) && Unheard(s, e)
    ensures !Step(s, e).conn.anchorSet && !Step(s, e).cancelFollow
  {
    OthersMoveNothing(s, e);
    hide GetCurrent;
  }

  ghost predicate UnheardRun(s: State, es: seq<Event>)
    requires Inv(s) && Possible(s, es)
    decreases |es|
  {
    es == [] ||
    (InvReady(s); StepKeeps(s, es[0]); Unheard(s, es[0]) && UnheardRun(Step(s, es[0]), es[1..]))
  }

  lemma UnheardUnfolded(s: State, es: seq<Event>)
    requires Inv(s) && Possible(s, es) && UnheardRun(s, es) && es != []
    ensures Ready(s) && Enabled(s, es[0]) && Unheard(s, es[0])
    ensures
      var u, rest := Step(s, es[0]), es[1..];
      Inv(u) && Possible(u, rest) && UnheardRun(u, rest) && Run(s, es) == Run(u, rest)
  {
    InvReady(s);
    StepKeeps(s, es[0]);
    hide Inv, Ready, Enabled, Unheard, Step;
  }

  /**
   Until an anchor is seen the supervision time-out does nothing: a connection in which no event has two packets is
   followed for ever, however long it is silent.
   */
  lemma {:induction false} FollowedForever(s: State, es: seq<Event>)
    requires Inv(s) && Possible(s, es) && UnheardRun(s, es) && Lost(s)
    ensures Lost(Run(s, es))
    decreases |es|
  {
    hide *;
    if es == [] {
      NothingRun(s);
    } else {
      UnheardUnfolded(s, es);
      LostStep(s, es[0]);
      FollowedForever(Step(s, es[0]), es[1..]);
    }
  }

  // ----- after running out of buffers

  predicate SomeAvailable(b: Buffers) { exists k :: 0 <= k < |b.pool| && b.pool[k].available }

  lemma BufferGot(b: Buffers)
    ensures if SomeAvailable(b) then EmptyCurrent(GetCurrent(b)) && b.pool[GetCurrent(b).current.value].available
            else GetCurrent(b) == b.(current := None)
    ensures !b.current.Some? && !SomeAvailable(b) ==> GetCurrent(b) == b
    ensures !SomeAvailable(b) ==> !SomeAvailable(GetCurrent(b))
  {}

  /**
   When a packet ends that is not the second of its event, the receiver is switched off and waits: with an empty buffer
   for the synthesizer, or, when none is left, for a buffer.
   */
  lemma PacketEndWaits(s: State, e: Event)
    requires Ready(s) && e.Byte? && Enabled(s, e) && PacketDoneIn(StoreByte(s, e.now, e.value).buf)
    requires OnDataChannel(s) ==> s.event.numPackets != 1
    ensures
      var t := Step(s, e);
      !t.rxOn &&
      if t.buf.current.Some? then t.mr2On && EmptyCurrent(t.buf) else t.mr3On && !SomeAvailable(t.buf)
  {
    hide WithByte, GetCurrent, EnqueueCurrent, CanReceive, PacketDone, SomeAvailable, EmptyCurrent;
    var u := StoreByte(s, e.now, e.value);
    assert u.event == s.event && u.rfChannel == s.rfChannel;
    BufferGot(EnqueueCurrent(u.buf));
  }

  lemma NotListening(s: State)
    requires Inv(s) && s.buf.current.None?
    ensures !s.rxOn && !s.mr2On
  {
    hide Sound;
  }

  lemma EmptyReceives(s: State)
    requires Inv(s) && Ready(s) && s.buf.current.None? && SomeAvailable(s.buf)
    requires Enabled(s, Match3(false))
    ensures Ready(Step(s, Match3(false)))
  {
    StepKeeps(s, Match3(false));
    InvReady(Step(s, Match3(false)));
    hide Inv, Ready, Step;
  }

  /**
   While the receiver waits for a buffer: as soon as one is available, the next check takes it, empty, and reception
   goes on at once if the synthesizer is locked, and otherwise when it is; until then nothing changes.
   */
  lemma ReceptionResumes(s: State)
    requires Inv(s) && Ready(s) && s.mr3On && s.buf.current.None?
    ensures Enabled(s, Match3(true)) && Enabled(s, Match3(false))
    ensures
      var a, b := Step(s, Match3(true)), Step(s, Match3(false));
      if SomeAvailable(s.buf) then
        && a.rxOn && EmptyCurrent(a.buf) && s.buf.pool[a.buf.current.value].available
        && b.mr2On && !b.rxOn && b.buf == a.buf
        && Ready(b) && Enabled(b, Match2(true)) && Step(b, Match2(true)) == a
        && Enabled(b, Match2(false)) && Step(b, Match2(false)) == b
      else a == s && b == s
  {
    BufferGot(s.buf);
    NotListening(s);
    if SomeAvailable(s.buf) {
      assert Enabled(s, Match3(false));
      EmptyReceives(s);
    }
    hide CanReceive, Inv, GetCurrent, SomeAvailable, CanMain, Ready;
  }
}
