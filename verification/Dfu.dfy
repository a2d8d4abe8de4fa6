/**
 The DFU request handlers of the bootloader (USB DFU class specification 1.1,
 section 6 and Appendix A): a state machine over the flash.
 */
module Dfu {
  import opened Bits
  import opened Flash

  datatype Status =
    | OK | ERRTARGET | ERRFILE | ERRWRITE | ERRERASE | ERRCHECK_ERASED | ERRPROG | ERRVERIFY
    | ERRADDRESS | ERRNOTDONE | ERRFIRMWARE | ERRVENDOR | ERRUSBR | ERRPOR | ERRUNKNOWN | ERRSTALLEDPKT

  datatype State =
    | APPIDLE | APPDETACH | DFUIDLE | DFUDNLOAD_SYNC | DFUDNBUSY | DFUDNLOAD_IDLE | DFUMANIFEST_SYNC
    | DFUMANIFEST | DFUMANIFEST_WAIT_RESET | DFUUPLOAD_IDLE | DFUERROR

  function StatusCode(s: Status): u8 {
    match s
    case OK => 0x00 case ERRTARGET => 0x01 case ERRFILE => 0x02 case ERRWRITE => 0x03
    case ERRERASE => 0x04 case ERRCHECK_ERASED => 0x05 case ERRPROG => 0x06 case ERRVERIFY => 0x07
    case ERRADDRESS => 0x08 case ERRNOTDONE => 0x09 case ERRFIRMWARE => 0x0A case ERRVENDOR => 0x0B
    case ERRUSBR => 0x0C case ERRPOR => 0x0D case ERRUNKNOWN => 0x0E case ERRSTALLEDPKT => 0x0F
  }

  function StateCode(s: State): u8 {
    match s
    case APPIDLE => 0x00 case APPDETACH => 0x01 case DFUIDLE => 0x02 case DFUDNLOAD_SYNC => 0x03
    case DFUDNBUSY => 0x04 case DFUDNLOAD_IDLE => 0x05 case DFUMANIFEST_SYNC => 0x06 case DFUMANIFEST => 0x07
    case DFUMANIFEST_WAIT_RESET => 0x08 case DFUUPLOAD_IDLE => 0x09 case DFUERROR => 0x0A
  }

  const DETACH: u8 := 0
  const DNLOAD: u8 := 1
  const UPLOAD: u8 := 2
  const GETSTATUS: u8 := 3
  const CLRSTATUS: u8 := 4
  const GETSTATE: u8 := 5
  const ABORT: u8 := 6

  const TRANSFER_SIZE: nat := 0x100
  const DETACH_TIMEOUT_MS: nat := 15000
  const POLL_TIMEOUT: nat := 20

  datatype Setup = Setup(bRequest: u8, wValue: u16, wLength: u16)

  /** A request: its setup packet, the 256 bytes that came with a download, and how the IAP calls turn out. */
  datatype Request = Request(setup: Setup, data: seq<u8>, iap: Iap)

  /** The device as the host can observe it. */
  datatype Device = Device(state: State, status: Status, virginity: bool, mem: Memory)

  /** Whether the request is accepted, and the bytes sent back. */
  datatype Reply = Reply(ok: bool, bytes: seq<u8>)

  predicate InDfuMode(d: Device) { StateCode(d.state) >= StateCode(DFUIDLE) }

  predicate WritePermitted(address: nat) { address >= 0x4000 }

  function WithState(d: Device, s: State): Device { d.(state := s, virginity := false) }

  function Failed(d: Device, s: Status): (Device, Reply) {
    ((if d.state != APPIDLE && d.state != APPDETACH then WithState(d, DFUERROR) else d).(status := s), Reply(false, []))
  }

  const ACCEPTED: Reply := Reply(true, [])

  function OnDetach(d: Device, s: Setup): (Device, Reply) {
    if s.wLength == 0 && s.wValue <= DETACH_TIMEOUT_MS then (WithState(d, APPDETACH), ACCEPTED)
    else Failed(d, ERRUNKNOWN)
  }

  function OnDnload(d: Device, s: Setup, data: seq<u8>, iap: Iap): (Device, Reply)
    requires |data| == TRANSFER_SIZE
  {
    if s.wLength == 0 then
      if d.state != DFUDNLOAD_IDLE then Failed(d, ERRSTALLEDPKT)
      else (WithState(d, DFUMANIFEST_SYNC), ACCEPTED)
    else if s.wLength == TRANSFER_SIZE then
      if d.state != DFUIDLE && d.state != DFUDNLOAD_IDLE then Failed(d, ERRSTALLEDPKT)
      else
        var address := s.wValue * TRANSFER_SIZE;
        if WritePermitted(address) then
          var (mem, ok) := Write(d.mem, address, data, iap);
          if ok then (WithState(d.(mem := mem), DFUDNLOAD_SYNC), ACCEPTED)
          else Failed(d.(mem := mem), ERRPROG)
        else Failed(d, ERRWRITE)
    else Failed(d, ERRUNKNOWN)
  }

  function OnUpload(d: Device, s: Setup): (Device, Reply) {
    if s.wLength == TRANSFER_SIZE then
      if d.state != DFUIDLE && d.state != DFUUPLOAD_IDLE then Failed(d, ERRSTALLEDPKT)
      else
        var address := s.wValue * TRANSFER_SIZE;
        if ValidAddress(address) && ValidAddress(address + TRANSFER_SIZE - 1)
        then (WithState(d, DFUIDLE), Reply(true, d.mem[address..address + TRANSFER_SIZE]))
        else Failed(d, ERRADDRESS)
    else Failed(d, ERRUNKNOWN)
  }

  function OnGetStatus(d: Device, s: Setup): (Device, Reply) {
    if s.wValue == 0 && s.wLength == 6 then
      var n := if d.state == DFUDNLOAD_SYNC then WithState(d, DFUDNLOAD_IDLE)
               else if d.state == DFUMANIFEST_SYNC then WithState(d, DFUIDLE)
               else d;
      var poll := [POLL_TIMEOUT % 256, POLL_TIMEOUT / 256 % 256, POLL_TIMEOUT / 65536 % 256];
      (n, Reply(true, [StatusCode(n.status), poll[0], poll[1], poll[2], StateCode(n.state), 0]))
    else (d, Reply(false, []))
  }

  function OnClrStatus(d: Device, s: Setup): (Device, Reply) {
    if s.wValue == 0 && s.wLength == 0 && d.state == DFUERROR then (WithState(d.(status := OK), DFUIDLE), ACCEPTED)
    else Failed(d, ERRUNKNOWN)
  }

  function OnGetState(d: Device, s: Setup): (Device, Reply) {
    if s.wValue == 0 && s.wLength == 1 then (d, Reply(true, [StateCode(d.state)]))
    else Failed(d, ERRUNKNOWN)
  }

  function OnAbort(d: Device, s: Setup): (Device, Reply) {
    if s.wValue == 0 && s.wLength == 0 && d.state != DFUERROR then (WithState(d, DFUIDLE), ACCEPTED)
    else Failed(d, ERRUNKNOWN)
  }

  predicate WellFormed(r: Request) { |r.data| == TRANSFER_SIZE }

  /** DFU::request_handler */
  function Handle(d: Device, r: Request): (Device, Reply)
    requires WellFormed(r)
  {
    var s := r.setup;
    if s.bRequest == DETACH then OnDetach(d, s)
    else if s.bRequest == DNLOAD then OnDnload(d, s, r.data, r.iap)
    else if s.bRequest == UPLOAD then OnUpload(d, s)
    else if s.bRequest == GETSTATUS then OnGetStatus(d, s)
    else if s.bRequest == CLRSTATUS then OnClrStatus(d, s)
    else if s.bRequest == GETSTATE then OnGetState(d, s)
    else if s.bRequest == ABORT then OnAbort(d, s)
    else (d, Reply(false, []))
  }

  /** The device after a run of requests; like run_bootloader, it stops serving when it leaves DFU mode. */
  function Run(d: Device, rs: seq<Request>): Device
    requires forall i :: 0 <= i < |rs| ==> WellFormed(rs[i])
    decreases |rs|
  {
    if rs == [] || !InDfuMode(d) then d else Run(Handle(d, rs[0]).0, rs[1..])
  }

  // ----- what every run keeps

  /** In DFU mode the state is DFUERROR exactly when the status is not OK. */
  predicate Consistent(d: Device) {
    InDfuMode(d) ==> (d.state == DFUERROR <==> d.status != OK)
  }

  lemma StepKeeps(d: Device, r: Request)
    requires InDfuMode(d) && Consistent(d) && WellFormed(r)
    ensures Consistent(Handle(d, r).0)
    ensures Handle(d, r).0.mem[..0x4000] == d.mem[..0x4000]
    ensures d.state == DFUERROR ==> Handle(d, r).0.mem == d.mem
    ensures d.state == DFUERROR && Handle(d, r).0.state != DFUERROR ==>
      Handle(d, r).1.ok && r.setup.bRequest in {CLRSTATUS, DETACH}
    ensures !Handle(d, r).1.ok && r.setup.bRequest != GETSTATUS && r.setup.bRequest <= ABORT ==>
      Handle(d, r).0.state == DFUERROR
  {
    var s := r.setup;
    if s.bRequest == DNLOAD && s.wLength == TRANSFER_SIZE {
      var address := s.wValue * TRANSFER_SIZE;
      if WritePermitted(address) {
        forall x | 0 <= x < 0x4000
          ensures Write(d.mem, address, r.data, r.iap).0[x] == d.mem[x]
        {
          BootloaderKept(d.mem, address, r.data, r.iap, x);
        }
      }
    }
  }

  /** No run of requests changes a byte of the bootloader, whatever the IAP calls do; the invariant holds throughout. */
  lemma {:induction false} RunSafe(d: Device, rs: seq<Request>)
    requires forall i :: 0 <= i < |rs| ==> WellFormed(rs[i])
    requires Consistent(d)
    ensures Consistent(Run(d, rs)) && Run(d, rs).mem[..0x4000] == d.mem[..0x4000]
    decreases |rs|
  {
    if rs != [] && InDfuMode(d) {
      StepKeeps(d, rs[0]);
      RunSafe(Handle(d, rs[0]).0, rs[1..]);
    }
  }

  /** In DFUERROR the flash stands still until an accepted CLRSTATUS. */
  lemma {:induction false} ErrorFreezesFlash(d: Device, rs: seq<Request>)
    requires forall i :: 0 <= i < |rs| ==> WellFormed(rs[i])
    requires Consistent(d) && d.state == DFUERROR
    requires forall i :: 0 <= i < |rs| ==> rs[i].setup.bRequest != CLRSTATUS
    ensures Run(d, rs).mem == d.mem && Run(d, rs).state in {DFUERROR, APPDETACH}
    decreases |rs|
  {
    if rs != [] {
      StepKeeps(d, rs[0]);
      var n := Handle(d, rs[0]).0;
      if n.state == DFUERROR {
        ErrorFreezesFlash(n, rs[1..]);
      } else {
        assert Run(n, rs[1..]) == n;
      }
    }
  }

  // ----- the object

  /** DFU: each request handler does to the fields, the buffer and the flash what Handle says. */
  class DFU {
    const flash: FlashDevice
    var status: Status
    var state: State
    var virginity: bool

    ghost predicate Valid() {
      flash.mem.Length == SIZE
    }

    ghost function Value(): Device
      reads this, flash.mem
      requires Valid()
    {
      Device(state, status, virginity, flash.mem[..])
    }

    constructor (flash: FlashDevice)
      requires flash.mem.Length == SIZE
      ensures Valid() && this.flash == flash
      ensures Value() == Device(DFUIDLE, OK, true, flash.mem[..])
    {
      this.flash := flash;
      status, state, virginity := OK, DFUIDLE, true;
    }

    method SetState(newState: State)
      requires Valid()
      modifies `state, `virginity
      ensures Value() == WithState(old(Value()), newState)
    {
      state, virginity := newState, false;
    }

    method Error(newStatus: Status) returns (ok: bool)
      requires Valid()
      modifies `state, `virginity, `status
      ensures (Value(), Reply(ok, [])) == Failed(old(Value()), newStatus)
    {
      if state != APPIDLE && state != APPDETACH {
        SetState(DFUERROR);
      }
      status := newStatus;
      ok := false;
    }

    method RequestDetach(setup: Setup) returns (ok: bool)
      requires Valid()
      modifies this
      ensures (Value(), Reply(ok, [])) == OnDetach(old(Value()), setup)
    {
      if setup.wLength == 0 && setup.wValue <= DETACH_TIMEOUT_MS {
        SetState(APPDETACH);
        ok := true;
      } else {
        ok := Error(ERRUNKNOWN);
      }
    }

    method RequestDnload(setup: Setup, buffer: array<u8>, iap: Iap) returns (ok: bool)
      requires Valid() && buffer.Length == TRANSFER_SIZE && buffer != flash.mem
      modifies this, flash.mem
      ensures (Value(), Reply(ok, [])) == OnDnload(old(Value()), setup, buffer[..], iap)
    {
      assert buffer[..TRANSFER_SIZE] == buffer[..];
      if setup.wLength == 0 {
        if state != DFUDNLOAD_IDLE {
          ok := Error(ERRSTALLEDPKT);
          return;
        }
        SetState(DFUMANIFEST_SYNC);
        ok := true;
      } else if setup.wLength == TRANSFER_SIZE {
        if state != DFUIDLE && state != DFUDNLOAD_IDLE {
          ok := Error(ERRSTALLEDPKT);
          return;
        }
        var address := setup.wValue * TRANSFER_SIZE;
        if WritePermitted(address) {
          ok := flash.WriteBlock(address, buffer, iap);
          if ok {
            SetState(DFUDNLOAD_SYNC);
          } else {
            ok := Error(ERRPROG);
          }
        } else {
          ok := Error(ERRWRITE);
        }
      } else {
        ok := Error(ERRUNKNOWN);
      }
    }

    method RequestUpload(setup: Setup, buffer: array<u8>) returns (ok: bool, length: nat)
      requires Valid() && buffer.Length == TRANSFER_SIZE && buffer != flash.mem
      modifies this, buffer
      ensures length <= buffer.Length
      ensures (Value(), Reply(ok, buffer[..length])) == OnUpload(old(Value()), setup)
    {
      length := 0;
      if setup.wLength == TRANSFER_SIZE {
        if state != DFUIDLE && state != DFUUPLOAD_IDLE {
          ok := Error(ERRSTALLEDPKT);
          return;
        }
        var address := setup.wValue * TRANSFER_SIZE;
        if ValidAddress(address) && ValidAddress(address + TRANSFER_SIZE - 1) {
          forall i | 0 <= i < buffer.Length {
            buffer[i] := flash.mem[address + i];
          }
          length := TRANSFER_SIZE;
          SetState(DFUIDLE);
          ok := true;
          assert buffer[..length] == old(flash.mem[..])[address..address + TRANSFER_SIZE];
        } else {
          ok := Error(ERRADDRESS);
        }
      } else {
        ok := Error(ERRUNKNOWN);
      }
    }

    method RequestGetStatus(setup: Setup, buffer: array<u8>) returns (ok: bool, length: nat)
      requires Valid() && buffer.Length == TRANSFER_SIZE && buffer != flash.mem
      modifies this, buffer
      ensures length <= buffer.Length
      ensures (Value(), Reply(ok, buffer[..length])) == OnGetStatus(old(Value()), setup)
    {
      length := 0;
      if setup.wValue == 0 && setup.wLength == 6 {
        if state == DFUDNLOAD_SYNC {
          SetState(DFUDNLOAD_IDLE);
        } else if state == DFUMANIFEST_SYNC {
          SetState(DFUIDLE);
        }
        buffer[0] := StatusCode(status);
        buffer[1] := POLL_TIMEOUT % 256;
        buffer[2] := POLL_TIMEOUT / 256 % 256;
        buffer[3] := POLL_TIMEOUT / 65536 % 256;
        buffer[4] := StateCode(state);
        buffer[5] := 0;
        length := 6;
        ok := true;
        assert buffer[..length] == OnGetStatus(old(Value()), setup).1.bytes;
      } else {
        ok := false;
      }
    }

    method RequestClrStatus(setup: Setup) returns (ok: bool)
      requires Valid()
      modifies this
      ensures (Value(), Reply(ok, [])) == OnClrStatus(old(Value()), setup)
    {
      if setup.wValue == 0 && setup.wLength == 0 {
        if state == DFUERROR {
          status := OK;
          SetState(DFUIDLE);
          ok := true;
        } else {
          ok := Error(ERRUNKNOWN);
        }
      } else {
        ok := Error(ERRUNKNOWN);
      }
    }

    method RequestGetState(setup: Setup, buffer: array<u8>) returns (ok: bool, length: nat)
      requires Valid() && buffer.Length == TRANSFER_SIZE && buffer != flash.mem
      modifies this, buffer
      ensures length <= buffer.Length
      ensures (Value(), Reply(ok, buffer[..length])) == OnGetState(old(Value()), setup)
    {
      length := 0;
      if setup.wValue == 0 && setup.wLength == 1 {
        buffer[0] := StateCode(state);
        length := 1;
        ok := true;
        assert buffer[..length] == [StateCode(state)];
      } else {
        ok := Error(ERRUNKNOWN);
      }
    }

    method RequestAbort(setup: Setup) returns (ok: bool)
      requires Valid()
      modifies this
      ensures (Value(), Reply(ok, [])) == OnAbort(old(Value()), setup)
    {
      if setup.wValue == 0 && setup.wLength == 0 {
        if state != DFUERROR {
          SetState(DFUIDLE);
          ok := true;
        } else {
          ok := Error(ERRUNKNOWN);
        }
      } else {
        ok := Error(ERRUNKNOWN);
      }
    }

    /** DFU::request_handler; the reply is the first length bytes of the buffer. */
    method RequestHandler(setup: Setup, buffer: array<u8>, iap: Iap) returns (ok: bool, length: nat)
      requires Valid() && buffer.Length == TRANSFER_SIZE && buffer != flash.mem
      modifies this, flash.mem, buffer
      ensures length <= buffer.Length
      ensures (Value(), Reply(ok, buffer[..length])) ==
        Handle(old(Value()), Request(setup, old(buffer[..]), iap))
    {
      length := 0;
      if setup.bRequest == DETACH {
        ok := RequestDetach(setup);
      } else if setup.bRequest == DNLOAD {
        ok := RequestDnload(setup, buffer, iap);
      } else if setup.bRequest == UPLOAD {
        ok, length := RequestUpload(setup, buffer);
      } else if setup.bRequest == GETSTATUS {
        ok, length := RequestGetStatus(setup, buffer);
      } else if setup.bRequest == CLRSTATUS {
        ok := RequestClrStatus(setup);
      } else if setup.bRequest == GETSTATE {
        ok, length := RequestGetState(setup, buffer);
      } else if setup.bRequest == ABORT {
        ok := RequestAbort(setup);
      } else {
        ok := false;
      }
    }
  }
}
