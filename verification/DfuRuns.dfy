/**
 Whole DFU sessions: what keeps two block writes apart, and that a sequential
 download followed by an upload gives the image back.
 */
module DfuRuns {
  import opened Bits
  import opened Flash
  import opened Dfu

  ghost predicate AllWellFormed(rs: seq<Request>) {
    forall i :: 0 <= i < |rs| ==> WellFormed(rs[i])
  }

  /** The request is a block write, and the device accepts it. */
  predicate BlockWrite(d: Device, r: Request)
    requires WellFormed(r)
  {
    InDfuMode(d) && r.setup.bRequest == DNLOAD && r.setup.wLength == TRANSFER_SIZE && Handle(d, r).1.ok
  }

  /** Some request of one of these kinds is accepted during the run. */
  ghost predicate Accepts(d: Device, rs: seq<Request>, kinds: set<u8>)
    requires AllWellFormed(rs)
    decreases |rs|
  {
    rs != [] && InDfuMode(d) &&
    ((rs[0].setup.bRequest in kinds && Handle(d, rs[0]).1.ok) || Accepts(Handle(d, rs[0]).0, rs[1..], kinds))
  }

  // ----- two block writes

  /** The states in which no block write is accepted and that only these three requests lead out of. */
  predicate Waiting(d: Device) {
    d.state in {DFUDNLOAD_SYNC, DFUERROR, APPDETACH}
  }

  lemma {:induction false} WaitsForRelease(d: Device, rs: seq<Request>)
    requires AllWellFormed(rs) && Waiting(d)
    requires !Accepts(d, rs, {GETSTATUS, ABORT, CLRSTATUS})
    ensures Waiting(Run(d, rs))
    decreases |rs|
  {
    if rs != [] && InDfuMode(d) {
      WaitsForRelease(Handle(d, rs[0]).0, rs[1..]);
    }
  }

  /** Without an accepted CLRSTATUS an error is never left. */
  lemma {:induction false} WaitsForStatusOrAbort(d: Device, rs: seq<Request>)
    requires AllWellFormed(rs) && Waiting(d)
    requires !Accepts(d, rs, {CLRSTATUS}) && !Accepts(d, rs, {GETSTATUS, ABORT})
    ensures Waiting(Run(d, rs))
    decreases |rs|
  {
    if rs != [] && InDfuMode(d) {
      WaitsForStatusOrAbort(Handle(d, rs[0]).0, rs[1..]);
    }
  }

  /**
   Between two accepted block writes there is an accepted GETSTATUS, ABORT or
   CLRSTATUS; when no CLRSTATUS is accepted in between, it is a GETSTATUS or an ABORT.
   */
  lemma WritesAreSeparated(d: Device, first: Request, between: seq<Request>, second: Request)
    requires WellFormed(first) && AllWellFormed(between) && WellFormed(second)
    requires BlockWrite(d, first) && BlockWrite(Run(Handle(d, first).0, between), second)
    ensures Accepts(Handle(d, first).0, between, {GETSTATUS, ABORT, CLRSTATUS})
    ensures !Accepts(Handle(d, first).0, between, {CLRSTATUS}) ==>
      Accepts(Handle(d, first).0, between, {GETSTATUS, ABORT})
  {
    var e := Handle(d, first).0;
    assert Waiting(e);
    if !Accepts(e, between, {GETSTATUS, ABORT, CLRSTATUS}) {
      WaitsForRelease(e, between);
      assert false;
    }
    if !Accepts(e, between, {CLRSTATUS}) && !Accepts(e, between, {GETSTATUS, ABORT}) {
      WaitsForStatusOrAbort(e, between);
      assert false;
    }
  }

  /** Some block write is accepted during the run. */
  ghost predicate Writes(d: Device, rs: seq<Request>)
    requires AllWellFormed(rs)
    decreases |rs|
  {
    rs != [] && InDfuMode(d) && (BlockWrite(d, rs[0]) || Writes(Handle(d, rs[0]).0, rs[1..]))
  }

  /** What leaves an idle device idle: an upload in range, a good GETSTATE, a bad GETSTATUS, or no DFU request. */
  predicate Quiet(r: Request) {
    var s := r.setup;
    || (s.bRequest == UPLOAD && s.wLength == TRANSFER_SIZE
        && ValidAddress(s.wValue * TRANSFER_SIZE) && ValidAddress(s.wValue * TRANSFER_SIZE + TRANSFER_SIZE - 1))
    || (s.bRequest == GETSTATE && s.wValue == 0 && s.wLength == 1)
    || (s.bRequest == GETSTATUS && !(s.wValue == 0 && s.wLength == 6))
    || s.bRequest > ABORT
  }

  ghost predicate AllQuiet(rs: seq<Request>) {
    forall i :: 0 <= i < |rs| ==> Quiet(rs[i])
  }

  /** A CLRSTATUS is accepted during the run, and only quiet requests follow it. */
  ghost predicate ClearedLast(d: Device, rs: seq<Request>)
    requires AllWellFormed(rs)
    decreases |rs|
  {
    rs != [] && InDfuMode(d) &&
    ((rs[0].setup.bRequest == CLRSTATUS && Handle(d, rs[0]).1.ok && AllQuiet(rs[1..]))
     || ClearedLast(Handle(d, rs[0]).0, rs[1..]))
  }

  /** What leads to the idle state, and keeps it, without a block write, a GETSTATUS or an ABORT. */
  lemma IdleStep(d: Device, r: Request)
    requires WellFormed(r) && InDfuMode(d) && (Waiting(d) || d.state == DFUIDLE) && !BlockWrite(d, r)
    requires !(r.setup.bRequest in {GETSTATUS, ABORT} && Handle(d, r).1.ok)
    ensures
      var e := Handle(d, r).0;
      && (Waiting(e) || e.state == DFUIDLE)
      && (e.state == DFUIDLE <==>
          (d.state == DFUIDLE && Quiet(r)) || (r.setup.bRequest == CLRSTATUS && Handle(d, r).1.ok))
  {
    hide Write, ValidAddress;
  }

  lemma {:induction false} IdleExactly(d: Device, rs: seq<Request>)
    requires AllWellFormed(rs) && (Waiting(d) || d.state == DFUIDLE)
    requires !Accepts(d, rs, {GETSTATUS, ABORT}) && !Writes(d, rs)
    ensures Run(d, rs).state == DFUIDLE <==> (d.state == DFUIDLE && AllQuiet(rs)) || ClearedLast(d, rs)
    decreases |rs|
  {
    if rs != [] && InDfuMode(d) {
      IdleStep(d, rs[0]);
      IdleExactly(Handle(d, rs[0]).0, rs[1..]);
      assert AllQuiet(rs) <==> Quiet(rs[0]) && AllQuiet(rs[1..]) by { FirstQuiet(rs); }
      hide Handle, Quiet, AllQuiet;
    }
  }

  lemma FirstQuiet(rs: seq<Request>)
    requires rs != []
    ensures AllQuiet(rs) <==> Quiet(rs[0]) && AllQuiet(rs[1..])
  {
    hide Quiet;
    if Quiet(rs[0]) && AllQuiet(rs[1..]) {
      forall i | 0 <= i < |rs| ensures Quiet(rs[i]) {
        assert i > 0 ==> rs[i] == rs[1..][i - 1];
      }
    }
    if AllQuiet(rs) {
      forall i | 0 <= i < |rs[1..]| ensures Quiet(rs[1..][i]) {
        assert rs[1..][i] == rs[i + 1];
      }
    }
  }

  /**
   After an accepted block write and requests among which no GETSTATUS, no ABORT and no further block write is
   accepted, the device is ready exactly when a CLRSTATUS was accepted and only quiet requests came after it; then
   it accepts exactly the block writes that its policy and its flash allow.
   */
  lemma SeparationExact(d: Device, first: Request, between: seq<Request>, second: Request)
    requires WellFormed(first) && AllWellFormed(between) && WellFormed(second) && BlockWrite(d, first)
    requires !Accepts(Handle(d, first).0, between, {GETSTATUS, ABORT}) && !Writes(Handle(d, first).0, between)
    requires second.setup.bRequest == DNLOAD && second.setup.wLength == TRANSFER_SIZE
    ensures
      var e := Handle(d, first).0;
      var f, address := Run(e, between), second.setup.wValue * TRANSFER_SIZE;
      && (f.state == DFUIDLE <==> ClearedLast(e, between))
      && (BlockWrite(f, second) <==>
          ClearedLast(e, between) && WritePermitted(address) && Write(f.mem, address, second.data, second.iap).1)
  {
    var e := Handle(d, first).0;
    assert e.state == DFUDNLOAD_SYNC;
    IdleExactly(e, between);
    NeverReady(e, between);
    WriteAccepted(Run(e, between), second);
    hide Handle, Run, ClearedLast, BlockWrite, Write;
  }

  lemma {:induction false} NeverReady(d: Device, rs: seq<Request>)
    requires AllWellFormed(rs) && (Waiting(d) || d.state == DFUIDLE)
    requires !Accepts(d, rs, {GETSTATUS, ABORT}) && !Writes(d, rs)
    ensures Waiting(Run(d, rs)) || Run(d, rs).state == DFUIDLE
    decreases |rs|
  {
    if rs != [] && InDfuMode(d) {
      IdleStep(d, rs[0]);
      NeverReady(Handle(d, rs[0]).0, rs[1..]);
      hide Handle;
    }
  }

  lemma WriteAccepted(d: Device, r: Request)
    requires WellFormed(r) && r.setup.bRequest == DNLOAD && r.setup.wLength == TRANSFER_SIZE
    requires Waiting(d) || d.state == DFUIDLE
    ensures BlockWrite(d, r) <==>
      d.state == DFUIDLE && WritePermitted(r.setup.wValue * TRANSFER_SIZE)
      && Write(d.mem, r.setup.wValue * TRANSFER_SIZE, r.data, r.iap).1
  {
    hide Write;
  }

  /** The setup packet that CLRSTATUS wants. */
  const CLEAR: Setup := Setup(CLRSTATUS, 0, 0)

  /** The shortest such runs: after any refused request, CLRSTATUS alone makes the device ready. */
  lemma ErrorThenClear(d: Device, first: Request, refused: Request, clear: Request, second: Request)
    requires WellFormed(first) && WellFormed(refused) && WellFormed(clear) && WellFormed(second)
    requires BlockWrite(d, first)
    requires refused.setup.bRequest in {DETACH, DNLOAD, UPLOAD, CLRSTATUS, GETSTATE, ABORT}
    requires !Handle(Handle(d, first).0, refused).1.ok
    requires clear.setup == CLEAR
    requires second.setup.bRequest == DNLOAD && second.setup.wLength == TRANSFER_SIZE
    ensures
      var e := Handle(d, first).0;
      var f := Run(e, [refused, clear]);
      && !Accepts(e, [refused, clear], {GETSTATUS, ABORT})
      && f.state == DFUIDLE
      && (BlockWrite(f, second) <==>
          WritePermitted(second.setup.wValue * TRANSFER_SIZE)
          && Write(f.mem, second.setup.wValue * TRANSFER_SIZE, second.data, second.iap).1)
  {
    var e := Handle(d, first).0;
    RefusedThenCleared(e, refused, clear);
    hide Handle, Run, Accepts, ClearedLast, BlockWrite, Write, Writes;
    SeparationExact(d, first, [refused, clear], second);
  }

  lemma RefusedThenCleared(e: Device, refused: Request, clear: Request)
    requires WellFormed(refused) && WellFormed(clear) && InDfuMode(e)
    requires refused.setup.bRequest in {DETACH, DNLOAD, UPLOAD, CLRSTATUS, GETSTATE, ABORT}
    requires !Handle(e, refused).1.ok && clear.setup == CLEAR
    ensures
      var rs := [refused, clear];
      AllWellFormed(rs) && ClearedLast(e, rs) && !Accepts(e, rs, {GETSTATUS, ABORT}) && !Writes(e, rs)
  {
    var rs, g := [refused, clear], Handle(e, refused).0;
    assert g.state == DFUERROR by { hide Write; }
    var f := Handle(g, clear).0;
    hide Handle, Write;
    assert rs[1..] == [clear] && [clear][1..] == [];
    assert AllQuiet([]);
    assert ClearedLast(g, [clear]);
    assert !Accepts(f, [], {GETSTATUS, ABORT}) && !Writes(f, []);
    assert !Accepts(g, [clear], {GETSTATUS, ABORT}) && !Writes(g, [clear]);
  }

  /** One such run: a write, a second write at once, which is refused, CLRSTATUS, and the write again. */
  lemma WritesWithoutStatusOrAbort(d: Device, block: seq<u8>)
    requires d.state == DFUIDLE && |block| == TRANSFER_SIZE
    ensures
      var w := Request(Setup(DNLOAD, 0x40, TRANSFER_SIZE), block, ALL_WELL);
      var c := Request(CLEAR, block, ALL_WELL);
      && BlockWrite(d, w)
      && !Accepts(Handle(d, w).0, [w, c], {GETSTATUS, ABORT})
      && BlockWrite(Run(Handle(d, w).0, [w, c]), w)
  {
    var w := Request(Setup(DNLOAD, 0x40, TRANSFER_SIZE), block, ALL_WELL);
    var c := Request(CLEAR, block, ALL_WELL);
    BlockInSector(0x4000, 0x4000);
    ErrorThenClear(d, w, w, c, w);
  }

  // ----- download, manifest, upload

  function Download(image: seq<u8>, block: nat): (rs: seq<Request>)
    requires |image| % TRANSFER_SIZE == 0 && block * TRANSFER_SIZE + |image| <= SIZE
    ensures AllWellFormed(rs)
    decreases |image|
  {
    if image == [] then []
    else
      var data := image[..TRANSFER_SIZE];
      [Request(Setup(DNLOAD, block, TRANSFER_SIZE), data, ALL_WELL), AskStatus()]
        + Download(image[TRANSFER_SIZE..], block + 1)
  }

  function Blank(): seq<u8> { seq(TRANSFER_SIZE, _ => 0) }

  function AskStatus(): Request { Request(Setup(GETSTATUS, 0, 6), Blank(), ALL_WELL) }

  /** The end of the transfer: a download of no bytes, and the status request that finishes it. */
  function Manifest(): (rs: seq<Request>)
    ensures AllWellFormed(rs)
  {
    [Request(Setup(DNLOAD, 0, 0), Blank(), ALL_WELL), AskStatus()]
  }

  function Upload(block: nat, count: nat): (rs: seq<Request>)
    requires (block + count) * TRANSFER_SIZE <= SIZE
    ensures AllWellFormed(rs)
    decreases count
  {
    if count == 0 then []
    else [Request(Setup(UPLOAD, block, TRANSFER_SIZE), Blank(), ALL_WELL)] + Upload(block + 1, count - 1)
  }

  /** All the bytes the device sends back during a run. */
  function Sent(d: Device, rs: seq<Request>): seq<u8>
    requires AllWellFormed(rs)
    decreases |rs|
  {
    if rs == [] || !InDfuMode(d) then []
    else Handle(d, rs[0]).1.bytes + Sent(Handle(d, rs[0]).0, rs[1..])
  }

  lemma {:induction false} RunConcat(d: Device, a: seq<Request>, b: seq<Request>)
    requires AllWellFormed(a) && AllWellFormed(b)
    ensures Run(d, a + b) == Run(Run(d, a), b)
    decreases |a|
  {
    if a == [] {
      assert a + b == b;
    } else if InDfuMode(d) {
      assert (a + b)[1..] == a[1..] + b;
      RunConcat(Handle(d, a[0]).0, a[1..], b);
    }
  }

  /** What the flash holds after an image was written from address on, over the old contents. */
  function Flashed(m: Memory, address: nat, image: seq<u8>, x: nat): u8
    requires address + |image| <= SIZE && x < SIZE
  {
    if address <= x < address + |image| then image[x - address]
    else if x >= address && image != [] && SectorNumber(x) == SectorNumber(address + |image| - 1) then 0xFF
    else m[x]
  }

  lemma SectorsInOrder(x: nat, y: nat)
    requires x <= y
    ensures SectorNumber(x) <= SectorNumber(y)
  {}

  /** One block of the download: the write is accepted, and the status request makes the device ready again. */
  lemma OneBlock(d: Device, image: seq<u8>, block: nat)
    requires |image| % TRANSFER_SIZE == 0 && image != [] && block * TRANSFER_SIZE + |image| <= SIZE
    requires block * TRANSFER_SIZE >= 0x4000 && d.state in {DFUIDLE, DFUDNLOAD_IDLE}
    requires Writable(d.mem, block * TRANSFER_SIZE)
    ensures
      var w := Write(d.mem, block * TRANSFER_SIZE, image[..TRANSFER_SIZE], ALL_WELL);
      var e := Device(DFUDNLOAD_IDLE, d.status, false, w.0);
      Run(d, Download(image, block)) == Run(e, Download(image[TRANSFER_SIZE..], block + 1))
  {
    var rs, r, rest := Download(image, block), WriteRequest(image, block), Download(image[TRANSFER_SIZE..], block + 1);
    assert rs == [r, AskStatus()] + rest;
    BlockThenStatus(d, r, image[..TRANSFER_SIZE]);
    hide *;
    RunTwo(d, r, AskStatus(), rest);
  }

  function WriteRequest(image: seq<u8>, block: nat): (r: Request)
    requires |image| >= TRANSFER_SIZE && block < U16
    ensures WellFormed(r)
  {
    Request(Setup(DNLOAD, block, TRANSFER_SIZE), image[..TRANSFER_SIZE], ALL_WELL)
  }

  lemma BlockThenStatus(d: Device, r: Request, data: seq<u8>)
    requires |data| == TRANSFER_SIZE && r.setup.wValue * TRANSFER_SIZE >= 0x4000
    requires r == Request(Setup(DNLOAD, r.setup.wValue, TRANSFER_SIZE), data, ALL_WELL)
    requires d.state in {DFUIDLE, DFUDNLOAD_IDLE} && (r.setup.wValue + 1) * TRANSFER_SIZE <= SIZE
    requires Writable(d.mem, r.setup.wValue * TRANSFER_SIZE)
    ensures InDfuMode(d) && InDfuMode(Handle(d, r).0)
    ensures Handle(Handle(d, r).0, AskStatus()).0
      == Device(DFUDNLOAD_IDLE, d.status, false, Write(d.mem, r.setup.wValue * TRANSFER_SIZE, data, ALL_WELL).0)
  {
    BlockWritten(d.mem, r.setup.wValue * TRANSFER_SIZE, data, 0);
    hide Write, Writable;
  }

  lemma RunTwo(d: Device, r: Request, q: Request, rest: seq<Request>)
    requires WellFormed(r) && WellFormed(q) && AllWellFormed(rest)
    requires InDfuMode(d) && InDfuMode(Handle(d, r).0)
    ensures AllWellFormed([r, q] + rest)
    ensures Run(d, [r, q] + rest) == Run(Handle(Handle(d, r).0, q).0, rest)
  {
    var rs := [r, q] + rest;
    assert rs[1..] == [q] + rest && rs[1..][1..] == rest;
    hide Handle, InDfuMode;
  }

  /** The blocks of the image written one after the other. */
  function Stored(m: Memory, address: nat, image: seq<u8>): Memory
    requires address % TRANSFER_SIZE == 0 && |image| % TRANSFER_SIZE == 0
    decreases |image|
  {
    if image == [] then m
    else Stored(Write(m, address, image[..TRANSFER_SIZE], ALL_WELL).0, address + TRANSFER_SIZE, image[TRANSFER_SIZE..])
  }

  lemma FlashedStep(m0: Memory, m1: Memory, address: nat, image: seq<u8>, x: nat)
    requires |image| >= TRANSFER_SIZE && address + |image| <= SIZE && x < SIZE
    requires m1[x] == if x < address then m0[x]
                      else if x < address + TRANSFER_SIZE then image[x - address]
                      else if SectorNumber(x) == SectorNumber(address) then 0xFF
                      else m0[x]
    requires address % TRANSFER_SIZE == 0
    ensures Flashed(m1, address + TRANSFER_SIZE, image[TRANSFER_SIZE..], x) == Flashed(m0, address, image, x)
  {
    if x >= address + |image| {
      BlockInSector(address, address + TRANSFER_SIZE - 1);
      SectorsInOrder(address, address + |image| - 1);
      SectorsInOrder(address + |image| - 1, x);
    }
  }

  lemma NextBlock(address: nat, image: seq<u8>)
    requires address % TRANSFER_SIZE == 0 && |image| % TRANSFER_SIZE == 0 && image != []
    ensures |image| >= TRANSFER_SIZE && |image[TRANSFER_SIZE..]| == |image| - TRANSFER_SIZE
    ensures (address + TRANSFER_SIZE) % TRANSFER_SIZE == 0 && |image[TRANSFER_SIZE..]| % TRANSFER_SIZE == 0
  {}

  lemma BlockStored(m: Memory, address: nat, image: seq<u8>, x: nat)
    requires address % TRANSFER_SIZE == 0 && |image| >= TRANSFER_SIZE && address + |image| <= SIZE && x < SIZE
    requires Writable(m, address)
    ensures
      var n := Write(m, address, image[..TRANSFER_SIZE], ALL_WELL).0;
      && Writable(n, address + TRANSFER_SIZE)
      && Flashed(n, address + TRANSFER_SIZE, image[TRANSFER_SIZE..], x) == Flashed(m, address, image, x)
  {
    var data := image[..TRANSFER_SIZE];
    var n := Write(m, address, data, ALL_WELL).0;
    assert Writable(n, address + TRANSFER_SIZE) by { StaysWritable(m, address, data); }
    BlockWritten(m, address, data, x);
    FlashedStep(m, n, address, image, x);
  }

  lemma {:induction false} StoredBytes(m: Memory, address: nat, image: seq<u8>, x: nat)
    requires address % TRANSFER_SIZE == 0 && |image| % TRANSFER_SIZE == 0 && address + |image| <= SIZE && x < SIZE
    requires Writable(m, address)
    ensures Stored(m, address, image)[x] == Flashed(m, address, image, x)
    decreases |image|
  {
    if image != [] {
      NextBlock(address, image);
      BlockStored(m, address, image, x);
      var n := Write(m, address, image[..TRANSFER_SIZE], ALL_WELL).0;
      StoredBytes(n, address + TRANSFER_SIZE, image[TRANSFER_SIZE..], x);
    }
  }

  /** The device after a download that went well. */
  function Downloaded(d: Device, image: seq<u8>, block: nat): Device
    requires |image| % TRANSFER_SIZE == 0
  {
    if image == [] then d
    else Device(DFUDNLOAD_IDLE, d.status, false, Stored(d.mem, block * TRANSFER_SIZE, image))
  }

  lemma DownloadedStep(d: Device, image: seq<u8>, block: nat, m: Memory, rest: seq<u8>)
    requires |image| % TRANSFER_SIZE == 0 && image != [] && rest == image[TRANSFER_SIZE..]
    requires m == Write(d.mem, block * TRANSFER_SIZE, image[..TRANSFER_SIZE], ALL_WELL).0
    ensures |rest| % TRANSFER_SIZE == 0
    ensures Downloaded(Device(DFUDNLOAD_IDLE, d.status, false, m), rest, block + 1) == Downloaded(d, image, block)
  {
    NextBlock(block * TRANSFER_SIZE, image);
    assert Stored(d.mem, block * TRANSFER_SIZE, image) == Stored(m, (block + 1) * TRANSFER_SIZE, rest);
  }

  lemma {:induction false} DownloadStores(d: Device, image: seq<u8>, block: nat)
    requires |image| % TRANSFER_SIZE == 0 && block * TRANSFER_SIZE + |image| <= SIZE
    requires block * TRANSFER_SIZE >= 0x4000 && d.state in {DFUIDLE, DFUDNLOAD_IDLE}
    requires Writable(d.mem, block * TRANSFER_SIZE)
    ensures Run(d, Download(image, block)) == Downloaded(d, image, block)
    decreases |image|
  {
    hide *;
    if image == [] {
      NothingStored(d, image, block);
    } else {
      OneBlock(d, image, block);
      var m := AfterBlock(d, image, block);
      var rest := image[TRANSFER_SIZE..];
      DownloadedStep(d, image, block, m, rest);
      DownloadStores(Device(DFUDNLOAD_IDLE, d.status, false, m), rest, block + 1);
    }
  }

  lemma DownloadedByte(d: Device, image: seq<u8>, block: nat, x: nat)
    requires |image| % TRANSFER_SIZE == 0 && block * TRANSFER_SIZE + |image| <= SIZE && x < SIZE
    requires block * TRANSFER_SIZE >= 0x4000 && d.state in {DFUIDLE, DFUDNLOAD_IDLE}
    requires Writable(d.mem, block * TRANSFER_SIZE)
    ensures Run(d, Download(image, block)).mem[x] == Flashed(d.mem, block * TRANSFER_SIZE, image, x)
  {
    DownloadStores(d, image, block);
    StoredBytes(d.mem, block * TRANSFER_SIZE, image, x);
    hide Run, Download, Flashed, Writable;
  }

  lemma NothingStored(d: Device, image: seq<u8>, block: nat)
    requires image == [] && block * TRANSFER_SIZE <= SIZE
    ensures Run(d, Download(image, block)) == d && Downloaded(d, image, block) == d
  {}

  /** The next block is where the last one ended, and may be written. */
  lemma AfterBlock(d: Device, image: seq<u8>, block: nat) returns (m: Memory)
    requires |image| % TRANSFER_SIZE == 0 && image != [] && block * TRANSFER_SIZE + |image| <= SIZE
    requires block * TRANSFER_SIZE >= 0x4000 && Writable(d.mem, block * TRANSFER_SIZE)
    ensures |image| >= TRANSFER_SIZE && |image[TRANSFER_SIZE..]| % TRANSFER_SIZE == 0
    ensures 0x4000 <= (block + 1) * TRANSFER_SIZE && (block + 1) * TRANSFER_SIZE + |image[TRANSFER_SIZE..]| <= SIZE
    ensures m == Write(d.mem, block * TRANSFER_SIZE, image[..TRANSFER_SIZE], ALL_WELL).0
    ensures Writable(m, (block + 1) * TRANSFER_SIZE)
  {
    m := Write(d.mem, block * TRANSFER_SIZE, image[..TRANSFER_SIZE], ALL_WELL).0;
    NextBlock(block * TRANSFER_SIZE, image);
    StaysWritable(d.mem, block * TRANSFER_SIZE, image[..TRANSFER_SIZE]);
    hide Write, Writable;
  }

  /**
   A sequential download of 256-byte blocks from a sector boundary at 0x4000 or
   above up to at most the end of the flash, with GETSTATUS after each block and
   the IAP calls succeeding: the flash then holds the image; below it nothing
   changed, the rest of its last sector is erased, and every other byte is as before.
   */
  lemma DownloadCorrect(d: Device, image: seq<u8>, block: nat)
    requires |image| % TRANSFER_SIZE == 0 && block * TRANSFER_SIZE + |image| <= SIZE
    requires block * TRANSFER_SIZE >= 0x4000 && AtSectorBoundary(block * TRANSFER_SIZE) && d.state == DFUIDLE
    ensures
      var address := block * TRANSFER_SIZE;
      var mem := Run(d, Download(image, block)).mem;
      && mem[address..address + |image|] == image
      && mem[..address] == d.mem[..address]
      && (forall x :: address + |image| <= x < SIZE ==>
            mem[x] == if image != [] && SectorNumber(x) == SectorNumber(address + |image| - 1) then 0xFF else d.mem[x])
  {
    forall x | 0 <= x < SIZE
      ensures Run(d, Download(image, block)).mem[x] == Flashed(d.mem, block * TRANSFER_SIZE, image, x)
    {
      DownloadedByte(d, image, block, x);
    }
    hide Run, Download, SectorNumber, Writable;
  }

  /** From an idle device, uploading sends the stored bytes in order and changes nothing but the virginity. */
  lemma {:induction false} UploadReads(d: Device, block: nat, count: nat)
    requires (block + count) * TRANSFER_SIZE <= SIZE && d.state == DFUIDLE
    ensures Sent(d, Upload(block, count)) == d.mem[block * TRANSFER_SIZE..(block + count) * TRANSFER_SIZE]
    ensures Run(d, Upload(block, count)).mem == d.mem && Run(d, Upload(block, count)).state == DFUIDLE
    decreases count
  {
    if count > 0 {
      var rs := Upload(block, count);
      assert rs[1..] == Upload(block + 1, count - 1);
      var e := Handle(d, rs[0]).0;
      assert e == d.(virginity := false);
      UploadReads(e, block + 1, count - 1);
    }
  }

  /** Download an image, finish the transfer, upload as many blocks: the device is idle and sent the image. */
  lemma SessionRoundTrip(d: Device, image: seq<u8>, block: nat)
    requires |image| % TRANSFER_SIZE == 0 && image != [] && block * TRANSFER_SIZE + |image| <= SIZE
    requires block * TRANSFER_SIZE >= 0x4000 && AtSectorBoundary(block * TRANSFER_SIZE)
    requires d.state == DFUIDLE && d.status == OK
    ensures
      var e := Run(d, Download(image, block) + Manifest());
      && e.state == DFUIDLE && e.status == OK && e.mem == Run(d, Download(image, block)).mem
      && Sent(e, Upload(block, |image| / TRANSFER_SIZE)) == image
  {
    var down := Run(d, Download(image, block));
    DownloadStores(d, image, block);
    RunConcat(d, Download(image, block), Manifest());
    ManifestEnds(down);
    DownloadCorrect(d, image, block);
    UploadReads(Run(down, Manifest()), block, |image| / TRANSFER_SIZE);
  }

  lemma ManifestEnds(d: Device)
    requires d.state == DFUDNLOAD_IDLE
    ensures Run(d, Manifest()) == Device(DFUIDLE, d.status, false, d.mem)
  {
    var rs := Manifest();
    assert rs[1..] == [AskStatus()];
    assert [AskStatus()][1..] == [];
    var mid := Handle(d, rs[0]).0;
    assert Run(mid, rs[1..]) == Run(Handle(mid, AskStatus()).0, []);
  }
}
