/**
 The device as its host sees it, in the numbers of the USB DFU class
 specification 1.1 (sections 3 and 6.1): which requests are accepted, and what
 GETSTATUS and GETSTATE answer after any run from power-on.
 */
module DfuReplies {
  import opened Bits
  import opened Flash
  import opened Dfu
  import opened DfuRuns

  // ----- questions

  /** DFU_GETSTATUS is request 3 with value 0 and length 6, DFU_GETSTATE request 5 with value 0 and length 1. */
  predicate AsksStatus(r: Request) { WellFormed(r) && r.setup == Setup(3, 0, 6) }

  predicate AsksState(r: Request) { WellFormed(r) && r.setup == Setup(5, 0, 1) }

  /** The state number that a GETSTATE would be answered with. */
  function Number(d: Device): u8 { StateCode(d.state) }

  lemma NumberIsAnswer(d: Device, query: Request)
    requires AsksState(query)
    ensures Handle(d, query) == (d, Reply(true, [Number(d)]))
  {}

  function PowerOn(m: Memory): Device { Device(DFUIDLE, OK, true, m) }

  /** What a device can be found in: a serving one is idle, between blocks, waiting to be asked, or in error. */
  predicate Usual(d: Device) {
    Consistent(d) && Number(d) in {1, 2, 3, 5, 6, 10}
  }

  lemma UsualStep(d: Device, r: Request)
    requires InDfuMode(d) && Usual(d) && WellFormed(r)
    ensures Usual(Handle(d, r).0)
  {
    hide Write, ValidAddress;
  }

  lemma {:induction false} UsualRun(d: Device, rs: seq<Request>)
    requires AllWellFormed(rs) && Usual(d)
    ensures Usual(Run(d, rs))
    decreases |rs|
  {
    if rs != [] && InDfuMode(d) {
      UsualStep(d, rs[0]);
      UsualRun(Handle(d, rs[0]).0, rs[1..]);
      hide Handle;
    }
  }

  /**
   GETSTATUS after any run from power-on, while the device serves: six bytes; the status is 0 exactly when the state
   is not 10; the three bytes of the timeout spell 20, least significant first; the state is 2, 5 or 10; a GETSTATE
   that follows answers the same number, and asking again gives the same reply.
   */
  lemma StatusReply(m: Memory, rs: seq<Request>, ask: Request, query: Request)
    requires AllWellFormed(rs) && AsksStatus(ask) && AsksState(query) && InDfuMode(Run(PowerOn(m), rs))
    ensures
      var d := Run(PowerOn(m), rs);
      var (e, reply) := Handle(d, ask);
      var b := reply.bytes;
      && reply.ok && |b| == 6 && b[5] == 0
      && (b[0] == 0 <==> b[4] != 10) && b[4] in {2, 5, 10}
      && b[1] as int + 256 * b[2] as int + 65536 * b[3] as int == 20
      && e.mem == d.mem && Handle(e, query) == (e, Reply(true, [b[4]])) && Handle(e, ask) == (e, reply)
  {
    UsualRun(PowerOn(m), rs);
    hide Run;
    ReplyOf(Run(PowerOn(m), rs), ask, query);
  }

  lemma ReplyOf(d: Device, ask: Request, query: Request)
    requires AsksStatus(ask) && AsksState(query) && InDfuMode(d) && Usual(d)
    ensures
      var (e, reply) := Handle(d, ask);
      var b := reply.bytes;
      && reply.ok && |b| == 6 && b[5] == 0
      && (b[0] == 0 <==> b[4] != 10) && b[4] in {2, 5, 10}
      && b[1] as int + 256 * b[2] as int + 65536 * b[3] as int == 20
      && e.mem == d.mem && Handle(e, query) == (e, Reply(true, [b[4]])) && Handle(e, ask) == (e, reply)
  {
    NumberIsAnswer(Handle(d, ask).0, query);
  }

  // ----- which requests are accepted

  /** The block's flash write succeeds: it exists, and the calls that are made go well. */
  predicate Stores(block: u16, iap: Iap) {
    && block < 2048 && iap.prepareCopy
    && ((if block < 256 then block % 16 == 0 else block % 128 == 0) ==> iap.prepareErase && iap.erase)
  }

  lemma BlockPlace(block: u16)
    ensures SectorExists(SectorNumber(block * 256)) <==> block < 2048
    ensures AtSectorBoundary(block * 256) <==> if block < 256 then block % 16 == 0 else block % 128 == 0
  {}

  lemma StoresExactly(m: Memory, block: u16, data: seq<u8>, iap: Iap)
    requires |data| == 256
    ensures Write(m, block * 256, data, iap).1 <==> Stores(block, iap)
  {
    BlockPlace(block);
    BlockInSector(block * 256, block * 256);
    hide Programmed, Erased, SectorNumber, SectorExists, AtSectorBoundary;
  }

  /** When a request is accepted, by the state number before it. */
  predicate Acceptable(n: u8, r: Request) {
    var s := r.setup;
    || (s.bRequest == 0 && s.wLength == 0 && s.wValue <= 15000)
    || (s.bRequest == 1 && s.wLength == 0 && n == 5)
    || (s.bRequest == 1 && s.wLength == 256 && n in {2, 5} && s.wValue >= 64 && Stores(s.wValue, r.iap))
    || (s.bRequest == 2 && s.wLength == 256 && n in {2, 9} && s.wValue < 2048)
    || (s.bRequest == 3 && s.wLength == 6 && s.wValue == 0)
    || (s.bRequest == 4 && s.wLength == 0 && s.wValue == 0 && n == 10)
    || (s.bRequest == 5 && s.wLength == 1 && s.wValue == 0)
    || (s.bRequest == 6 && s.wLength == 0 && s.wValue == 0 && n != 10)
  }

  lemma AcceptedExactly(d: Device, r: Request)
    requires WellFormed(r)
    ensures Handle(d, r).1.ok <==> Acceptable(Number(d), r)
  {
    StoresExactly(d.mem, r.setup.wValue, r.data, r.iap);
    hide Write, Stores;
  }

  /** The status that a refused request leaves: stalled, write protected, programming failed, address, or unknown. */
  function WhyRefused(n: u8, s: Setup): u8 {
    if s.bRequest == 1 && s.wLength == 0 then 15
    else if s.bRequest == 1 && s.wLength == 256 then if n !in {2, 5} then 15 else if s.wValue < 64 then 3 else 6
    else if s.bRequest == 2 && s.wLength == 256 then if n !in {2, 9} then 15 else 8
    else 14
  }

  // ----- what a request does to the answer

  /** The answer to GETSTATUS after a request. */
  ghost predicate Answers(d: Device, ask: Request, status: u8, state: u8)
    requires AsksStatus(ask)
  {
    var b := Handle(d, ask).1.bytes;
    |b| == 6 && b[0] == status && b[4] == state
  }

  /** GETSTATUS tells the status, and the state after it has released a device that waits for it. */
  lemma AnswerNow(d: Device, ask: Request, status: u8)
    requires AsksStatus(ask) && status == StatusCode(d.status)
    ensures Answers(d, ask, status, if Number(d) == 3 then 5 else if Number(d) == 6 then 2 else Number(d))
  {}

  /** The state and status numbers that a request leaves. */
  ghost predicate Leaves(e: Device, state: u8, status: u8) { Number(e) == state && StatusCode(e.status) == status }

  lemma DownloadLeaves(d: Device, r: Request)
    requires InDfuMode(d) && Usual(d) && WellFormed(r) && r.setup.bRequest == 1
    ensures
      var (e, reply) := Handle(d, r);
      if reply.ok then
        (r.setup.wLength == 256 ==> Leaves(e, 3, 0)) && (r.setup.wLength == 0 ==> Leaves(e, 6, 0))
      else Leaves(e, 10, WhyRefused(Number(d), r.setup))
  {
    hide Write;
  }

  lemma OthersLeave(d: Device, r: Request)
    requires InDfuMode(d) && Usual(d) && WellFormed(r) && r.setup.bRequest != 1
    ensures
      var (e, reply) := Handle(d, r);
      var kind := r.setup.bRequest;
      && (reply.ok && kind in {2, 4, 6} ==> Leaves(e, 2, 0))
      && (reply.ok && kind == 0 ==> Number(e) == 1)
      && (!reply.ok && kind in {0, 2, 4, 5, 6} ==> Leaves(e, 10, WhyRefused(Number(d), r.setup)))
      && (kind > 6 || (kind == 3 && !reply.ok) || (kind == 5 && reply.ok) ==> e == d)
  {}

  /** Asked twice in a row, the device answers the same. */
  lemma AskedAgain(d: Device, r: Request, ask: Request)
    requires WellFormed(r) && r.setup.bRequest == 3 && Handle(d, r).1.ok && AsksStatus(ask)
    ensures Handle(Handle(d, r).0, ask).1 == Handle(d, r).1
  {}

  lemma AnswerAfter(d: Device, r: Request, ask: Request)
    requires InDfuMode(d) && Usual(d) && WellFormed(r) && AsksStatus(ask)
    ensures
      var (e, reply) := Handle(d, r);
      var kind := r.setup.bRequest;
      && (reply.ok && kind == 1 && r.setup.wLength == 256 ==> Number(e) == 3 && Answers(e, ask, 0, 5))
      && (reply.ok && kind == 1 && r.setup.wLength == 0 ==> Number(e) == 6 && Answers(e, ask, 0, 2))
      && (reply.ok && kind in {2, 4, 6} ==> Number(e) == 2 && Answers(e, ask, 0, 2))
      && (reply.ok && kind == 0 ==> Number(e) == 1)
      && (!reply.ok && kind in {0, 1, 2, 4, 5, 6} ==>
            Number(e) == 10 && Answers(e, ask, WhyRefused(Number(d), r.setup), 10))
      && (kind > 6 || (kind == 3 && !reply.ok) || (kind == 5 && reply.ok) ==> e == d)
      && (kind == 3 && reply.ok ==> Handle(e, ask).1 == reply)
  {
    hide Handle, InDfuMode, Usual, Number, StatusCode, Answers, WhyRefused;
    var e := Handle(d, r).0;
    if r.setup.bRequest == 1 {
      DownloadLeaves(d, r);
    } else {
      OthersLeave(d, r);
      if r.setup.bRequest == 3 && Handle(d, r).1.ok {
        AskedAgain(d, r, ask);
      }
    }
    AnswerNow(e, ask, StatusCode(e.status));
  }

  /** Only the numbers 2 and above are served. */
  lemma ServedExactly(d: Device)
    ensures InDfuMode(d) <==> Number(d) >= 2
  {}

  /**
   After any run from power-on and one more request, GETSTATUS answers: after a block write, status 0 and state 5;
   after the empty download that ends a transfer, and after an upload, CLRSTATUS or ABORT, status 0 and state 2;
   after a refused request the status that tells why, which is not 0, and state 10. Bad GETSTATUS requests, requests of
   other numbers and GETSTATE leave the answer as it is. An accepted DETACH ends the service.
   */
  lemma AnswerOnRuns(m: Memory, rs: seq<Request>, r: Request, ask: Request)
    requires AllWellFormed(rs) && WellFormed(r) && AsksStatus(ask) && InDfuMode(Run(PowerOn(m), rs))
    ensures
      var d := Run(PowerOn(m), rs);
      var (e, reply) := Handle(d, r);
      var kind, length := r.setup.bRequest, r.setup.wLength;
      && (reply.ok <==> Acceptable(Number(d), r))
      && (reply.ok && kind == 1 && length == 256 ==> Number(e) == 3 && Answers(e, ask, 0, 5))
      && (reply.ok && kind == 1 && length == 0 ==> Number(e) == 6 && Answers(e, ask, 0, 2))
      && (reply.ok && kind in {2, 4, 6} ==> Number(e) == 2 && Answers(e, ask, 0, 2))
      && (reply.ok && kind == 0 ==> Number(e) == 1 && !InDfuMode(e))
      && (!reply.ok && kind in {0, 1, 2, 4, 5, 6} ==>
            WhyRefused(Number(d), r.setup) != 0 && Number(e) == 10
            && Answers(e, ask, WhyRefused(Number(d), r.setup), 10))
      && (kind > 6 || (kind == 3 && !reply.ok) || (kind == 5 && reply.ok) ==> e == d)
      && (kind == 3 && reply.ok ==> Handle(e, ask).1 == reply)
  {
    UsualRun(PowerOn(m), rs);
    var d := Run(PowerOn(m), rs);
    hide Run, Handle, Acceptable, Answers, InDfuMode, Usual, Number;
    AcceptedExactly(d, r);
    AnswerAfter(d, r, ask);
    ServedExactly(Handle(d, r).0);
  }

  // ----- the timeout of an untouched device

  /** A request that sets no state of an idle device: any GETSTATUS, a good GETSTATE, or no DFU request. */
  predicate Touchless(r: Request) {
    r.setup.bRequest == 3 || (r.setup.bRequest == 5 && r.setup.wValue == 0 && r.setup.wLength == 1)
    || r.setup.bRequest > 6
  }

  /** The bootloader may give up waiting for a host exactly while only such requests have come. */
  lemma {:induction false} VirginExactly(d: Device, rs: seq<Request>)
    requires AllWellFormed(rs) && d.state == DFUIDLE && d.virginity
    ensures Run(d, rs).virginity <==> forall i :: 0 <= i < |rs| ==> Touchless(rs[i])
    decreases |rs|
  {
    if rs != [] {
      var e, more := Handle(d, rs[0]).0, rs[1..];
      VirginStep(d, rs[0]);
      assert Run(d, rs) == Run(e, more);
      hide Handle, Touchless, Run;
      assert forall i :: 0 < i < |rs| ==> rs[i] == more[i - 1];
      if Touchless(rs[0]) {
        VirginExactly(d, more);
        if forall i :: 0 <= i < |more| ==> Touchless(more[i]) {
          assert forall i :: 0 <= i < |rs| ==> Touchless(rs[i]);
        } else {
          var i :| 0 <= i < |more| && !Touchless(more[i]);
          assert more[i] == rs[i + 1];
        }
      } else {
        TouchedStays(e, more);
      }
    }
  }

  lemma VirginStep(d: Device, r: Request)
    requires WellFormed(r) && d.state == DFUIDLE && d.virginity
    ensures if Touchless(r) then Handle(d, r).0 == d else !Handle(d, r).0.virginity
  {
    hide Write, ValidAddress;
  }

  lemma {:induction false} TouchedStays(d: Device, rs: seq<Request>)
    requires AllWellFormed(rs) && !d.virginity
    ensures !Run(d, rs).virginity
    decreases |rs|
  {
    if rs != [] && InDfuMode(d) {
      TouchedStep(d, rs[0]);
      TouchedStays(Handle(d, rs[0]).0, rs[1..]);
      hide Handle;
    }
  }

  lemma TouchedStep(d: Device, r: Request)
    requires WellFormed(r) && !d.virginity
    ensures !Handle(d, r).0.virginity
  {
    hide Write, ValidAddress;
  }
}
