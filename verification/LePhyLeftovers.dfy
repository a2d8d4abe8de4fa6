/**
 Nothing of an earlier packet is left in a buffer: in every run, what lies behind
 the bytes received so far is zero in each buffer that is in use.
 */
module LePhyLeftovers {
  import opened Bits
  import opened Whitening
  import opened RingQueue
  import opened LePhy
  import opened LePhyBuffers
  import opened LePhyFraming
  import opened LePhyRuns
  import opened LePhySchedule

  /** A buffer in use has zeros behind what was received. */
  predicate Clean(c: RxBuf) {
    !c.available ==> forall i :: c.pos <= i < BUFFER ==> c.data[i] == 0
  }

  predicate AllClean(pool: seq<RxBuf>) {
    forall k :: 0 <= k < |pool| ==> Clean(pool[k])
  }

  lemma PutClean(pool: seq<RxBuf>, k: nat, c: RxBuf)
    requires AllClean(pool) && k < |pool| && Clean(c)
    ensures AllClean(pool[k := c])
  {
    hide Clean;
  }

  lemma ClearedClean(c: RxBuf, available: bool)
    ensures Clean(Cleared(c).(available := available))
  {}

  lemma ByteClean(c: RxBuf, now: u32, value: u8, rfChannel: u16, accessAddress: u32)
    requires Clean(c) && c.pos < BUFFER
    ensures Clean(WithByte(c, now, value, rfChannel, accessAddress))
  {
    hide LengthOf;
  }

  lemma DewhitenedClean(c: RxBuf)
    requires Clean(c) && c.size <= c.pos && c.size <= BUFFER
    ensures Clean(DewhitenedBuf(c))
  {
    hide Dewhitened;
  }

  lemma GetClean(b: Buffers)
    requires AllClean(b.pool)
    ensures AllClean(GetCurrent(b).pool)
  {
    hide Clean, Cleared;
    var f := FirstAvailable(b.pool, 0);
    if f.Some? {
      ClearedClean(b.pool[f.value], false);
      PutClean(b.pool, f.value, Cleared(b.pool[f.value]).(available := false));
    }
  }

  lemma ClearClean(b: Buffers)
    requires AllClean(b.pool) && b.current.Some? && b.current.value < |b.pool|
    ensures AllClean(ClearCurrent(b).pool)
  {
    var k := b.current.value;
    ClearedClean(b.pool[k], b.pool[k].available);
    PutClean(b.pool, k, Cleared(b.pool[k]));
    hide Clean, AllClean;
  }

  // ----- the steps

  lemma FinishPool(s: State, now: u32)
    requires ClosingRetunes(s, now) ==> s.buf.current.Some? && s.buf.current.value < |s.buf.pool|
    ensures FinishConnEvent(s, now).buf == if ClosingRetunes(s, now) then ClearCurrent(s.buf) else s.buf
  {
    hide AnchorUpdated, ClearCurrent;
  }

  lemma Mr0Pool(s: State, now: u32)
    requires CanMr0(s, now)
    ensures
      var b := Mr0(s, now).buf;
      b == s.buf || (s.buf.current.Some? && s.buf.current.value < |s.buf.pool| && b == ClearCurrent(s.buf))
  {
    var t := s.(conn := MapApplied(s.conn));
    if !AtUpdateInstant(s.conn) && s.event.isOpen {
      FinishPool(t, now);
      hide FinishConnEvent, ClosingRetunes, ClearCurrent;
    } else {
      hide FinishConnEvent, ClosingRetunes, ClearCurrent, MappedPhys;
    }
  }

  lemma TimerClean(s: State, e: Event)
    requires Ready(s) && Enabled(s, e) && (e.Match0? || e.Match2? || e.Match3? || e.Cancel?) && AllClean(s.buf.pool)
    ensures AllClean(Step(s, e).buf.pool)
  {
    hide AllClean, Ready, CanMr0, Mr0, ClearCurrent, GetCurrent;
    match e
    case Match0(now) =>
      Mr0Pool(s, now);
      if s.buf.current.Some? && s.buf.current.value < |s.buf.pool| {
        ClearClean(s.buf);
      }
    case Match3(_) => GetClean(s.buf);
    case _ =>
  }

  lemma ByteStepClean(s: State, e: Event)
    requires Ready(s) && Enabled(s, e) && e.Byte? && AllClean(s.buf.pool)
    ensures AllClean(Step(s, e).buf.pool)
  {
    var t, k := StoreByte(s, e.now, e.value), s.buf.current.value;
    ByteClean(s.buf.pool[k], e.now, e.value, s.rfChannel, s.conn.accessAddress);
    hide Clean, WithByte, Ready, PacketDone;
    PutClean(s.buf.pool, k, WithByte(s.buf.pool[k], e.now, e.value, s.rfChannel, s.conn.accessAddress));
    hide AllClean;
    if PacketDoneIn(t.buf) {
      EndClean(t, e.now);
    }
    hide EndPacket, CanFinishSecond;
  }

  lemma EndClean(s: State, now: u32)
    requires PacketDoneIn(s.buf) && |s.buf.ring.data| == FIFOSIZE && CanFinishSecond(s, now) && AllClean(s.buf.pool)
    ensures AllClean(EndPacket(s, now).buf.pool)
  {
    hide AllClean, GetCurrent, EnqueueCurrent, PacketDone, FinishConnEvent, ClosingRetunes, ClearCurrent;
    var q := EnqueueCurrent(s.buf);
    QueuedPool(s.buf);
    GetClean(q);
    CurrentBound(q);
    if IsSecond(s) {
      var u := AfterSecond(s);
      FinishPool(u, now);
      if ClosingRetunes(u, now) {
        ClearClean(u.buf);
      }
    }
  }

  lemma QueuedPool(b: Buffers)
    requires b.current.Some? && |b.ring.data| == FIFOSIZE
    ensures EnqueueCurrent(b).pool == b.pool
  {}

  lemma TakenComplete(s: State)
    requires Inv(s) && s.buf.main.Taken?
    ensures s.buf.main.buf < |s.buf.pool| && s.buf.pool[s.buf.main.buf].size == s.buf.pool[s.buf.main.buf].pos <= BUFFER
  {
    assert Pending(s.buf)[0] == s.buf.main.buf;
    assert s.buf.main.buf in Pending(s.buf);
  }

  lemma LoopClean(s: State, e: Event)
    requires Inv(s) && Ready(s) && e.Loop? && AllClean(s.buf.pool)
    ensures AllClean(MainStep(s, e.passes, e.doFollow).buf.pool)
  {
    hide Inv, Clean, PacketHandler, DewhitenedBuf, CanReceive;
    match s.buf.main
    case Taken(k) =>
      TakenComplete(s);
      DewhitenedClean(s.buf.pool[k]);
      PutClean(s.buf.pool, k, DewhitenedBuf(s.buf.pool[k]));
    case Plain(k) => HandlerFrame(s.(buf := s.buf.(main := Handled(k))), s.buf.pool[k], e.doFollow);
    case Handled(k) =>
      FreeClean(s.buf.pool[k]);
      PutClean(s.buf.pool, k, s.buf.pool[k].(available := true));
    case _ =>
  }

  lemma FreeClean(c: RxBuf)
    ensures Clean(c.(available := true))
  {}

  lemma StepClean(s: State, e: Event)
    requires Inv(s) && Ready(s) && Enabled(s, e) && AllClean(s.buf.pool)
    ensures AllClean(Step(s, e).buf.pool)
  {
    match e
    case Byte(_, _) => ByteStepClean(s, e); hide Step, AllClean;
    case Loop(_, _) =>
      LoopClean(s, e);
      assert Step(s, e) == MainStep(s, e.passes, e.doFollow);
      hide Step, AllClean, MainStep;
    case _ => TimerClean(s, e); hide Step, AllClean;
  }

  // ----- runs

  lemma {:induction false} RunClean(s: State, es: seq<Event>)
    requires Inv(s) && Possible(s, es) && AllClean(s.buf.pool)
    ensures AllClean(Run(s, es).buf.pool)
    decreases |es|
  {
    hide *;
    if es == [] {
      NoSteps(s);
    } else {
      RunUnfolded(s, es);
      StepClean(s, es[0]);
      RunClean(Step(s, es[0]), es[1..]);
    }
  }

  lemma NoSteps(s: State)
    requires Inv(s) && Possible(s, [])
    ensures Run(s, []) == s
  {}

  lemma StartClean(found: State)
    requires |found.buf.pool| == POOL
    ensures AllClean(Start(found).buf.pool)
  {
    assert AllClean(AllAvailable(found.buf.pool));
    GetClean(Buffers(AllAvailable(found.buf.pool), None, Emptied(found.buf.ring), Idle));
    hide AllClean, GetCurrent;
  }

  /**
   From every start, for every run: each buffer in use has only zeros behind the bytes received into it, whatever
   packets were in it before.
   */
  lemma NothingLeftOver(found: State, es: seq<Event>, k: nat, i: nat)
    requires |found.buf.pool| == POOL && |found.buf.ring.data| == FIFOSIZE
    requires Inv(Start(found)) && Possible(Start(found), es)
    ensures
      var pool := Run(Start(found), es).buf.pool;
      k < |pool| && !pool[k].available && pool[k].pos <= i < 260 ==> pool[k].data[i] == 0
  {
    StartClean(found);
    RunClean(Start(found), es);
    hide Run, Start, Inv, Possible;
  }
}
