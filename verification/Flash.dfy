/**
 The flash of the LPC17xx as the bootloader writes it: 16 sectors of 4 KiB, then
 14 of 32 KiB. Erasing sets a sector to ones; programming can only clear bits.
 */
module Flash {
  import opened Bits

  const SIZE: nat := 0x8_0000

  /** The contents of the whole flash. */
  type Memory = m: seq<u8> | |m| == SIZE witness seq(SIZE, _ => 0)

  function SectorSize(address: nat): (size: nat)
    ensures size > 0
  {
    if address < 0x1_0000 then 4096 else 32768
  }

  function SectorNumber(address: nat): nat {
    if address < 0x1_0000 then address / 4096 else 14 + address / 32768
  }

  /** Where a sector begins: 16 of 4 KiB, then those of 32 KiB. */
  function SectorStart(sector: nat): nat { if sector < 16 then 4096 * sector else 0x1_0000 + 32768 * (sector - 16) }

  /** The sectors lie one after the other: an address is in the one that begins at or before it, before the next. */
  lemma SectorLayout(address: nat)
    ensures
      var n := SectorNumber(address);
      && SectorStart(n) <= address < SectorStart(n + 1)
      && (AtSectorBoundary(address) <==> address == SectorStart(n))
      && (address < SIZE <==> n < 30)
  {}

  /** address & (sector_size(address) - 1) is 0 */
  predicate AtSectorBoundary(address: nat) { address % SectorSize(address) == 0 }

  predicate ValidAddress(address: nat) { address < SIZE }

  /** The outcomes of the four calls into the IAP ROM; a call on a sector that does not exist fails anyway. */
  datatype Iap = Iap(prepareErase: bool, erase: bool, prepareCopy: bool, copy: bool)

  const ALL_WELL: Iap := Iap(true, true, true, true)

  predicate SectorExists(sector: nat) { sector < 30 }

  /** IAP command 52: all bytes of the sector become ones. */
  function Erased(m: Memory, sector: nat): (r: Memory)
    ensures forall x :: 0 <= x < SIZE ==> r[x] == if SectorNumber(x) == sector then 0xFF else m[x]
  {
    seq(SIZE, x requires 0 <= x < SIZE => if SectorNumber(x) == sector then 0xFF else m[x])
  }

  function AndByte(a: u8, b: u8): u8 {
    AndSmall(a, b, 8);
    Pow2Values();
    And(a, b)
  }

  lemma {:induction false} AndSmall(a: nat, b: nat, n: nat)
    requires a < Pow2(n)
    ensures And(a, b) < Pow2(n)
  {
    if n > 0 && a > 0 && b > 0 {
      AndSmall(a / 2, b / 2, n - 1);
    }
  }

  /** Programming an erased byte stores the value itself. */
  lemma ProgramErased(b: u8)
    ensures AndByte(0xFF, b) == b
  {
    Pow2Values();
    AndOnes(b, 8, 0xFF);
  }

  lemma {:induction false} AndOnes(b: nat, n: nat, ones: nat)
    requires b < Pow2(n) && ones == Pow2(n) - 1
    ensures And(ones, b) == b
    decreases n
  {
    if n > 0 && b > 0 {
      AndOnes(b / 2, n - 1, ones / 2);
    }
  }

  /** Programming leaves exactly those bits set that were set and are set in the data. */
  lemma {:induction false} AndClears(a: nat, b: nat, n: nat, i: nat)
    requires i < n
    ensures LowBits(And(a, b), n)[i] == (LowBits(a, n)[i] && LowBits(b, n)[i])
    decreases n
  {
    if a == 0 || b == 0 {
      LowBitsZero(n);
    } else {
      var low, rest := if Odd(a) && Odd(b) then 1 else 0, And(a / 2, b / 2);
      assert And(a, b) == low + 2 * rest;
      hide And;
      assert And(a, b) / 2 == rest && Odd(And(a, b)) == (low == 1);
      if i > 0 {
        AndClears(a / 2, b / 2, n - 1, i - 1);
      }
    }
  }

  lemma ProgramClears(a: u8, b: u8, i: nat)
    requires i < 8
    ensures LowBits(AndByte(a, b), 8)[i] == (LowBits(a, 8)[i] && LowBits(b, 8)[i])
  {
    AndClears(a, b, 8, i);
  }

  /** IAP command 51: bits of the data that are zero become zero in flash. */
  function Programmed(m: Memory, address: nat, data: seq<u8>): (r: Memory)
    requires address + |data| <= SIZE
    ensures forall x :: 0 <= x < SIZE ==>
      r[x] == if address <= x < address + |data| then AndByte(m[x], data[x - address]) else m[x]
  {
    seq(SIZE, x requires 0 <= x < SIZE =>
      if address <= x < address + |data| then AndByte(m[x], data[x - address]) else m[x])
  }

  /** Flash::write: the new contents, and whether it reports success. The result of the copy is not looked at. */
  function Write(m: Memory, address: nat, data: seq<u8>, iap: Iap): (Memory, bool)
    requires address % 256 == 0 && |data| == 256
  {
    var sector := SectorNumber(address);
    var erases := AtSectorBoundary(address);
    if !SectorExists(sector) || (erases && !(iap.prepareErase && iap.erase)) then (m, false)
    else
      var m1 := if erases then Erased(m, sector) else m;
      if !iap.prepareCopy then (m1, false)
      else (if iap.copy then Programmed(m1, address, data) else m1, true)
  }

  /**
   Whatever the IAP calls do, byte by byte: the sector of the block is erased when the block begins it and both erase
   calls go well; then the block is programmed, when its own calls do; no other byte changes.
   */
  lemma WriteExactly(m: Memory, address: nat, data: seq<u8>, iap: Iap, x: nat)
    requires address % 256 == 0 && |data| == 256 && x < SIZE
    ensures
      var sector := SectorNumber(address);
      var erased := address == SectorStart(sector) && iap.prepareErase && iap.erase;
      var reached := sector < 30 && (address == SectorStart(sector) ==> erased);
      var before := if sector < 30 && erased && SectorNumber(x) == sector then 0xFF else m[x];
      Write(m, address, data, iap).0[x] ==
        if reached && iap.prepareCopy && iap.copy && address <= x < address + 256
        then AndByte(before, data[x - address]) else before
  {
    SectorLayout(address);
    BlockInSector(address, address);
    hide AndByte, SectorNumber, SectorStart;
  }

  /** A 256-byte block never crosses a sector. */
  lemma BlockInSector(address: nat, x: nat)
    requires address % 256 == 0 && address <= x < address + 256
    ensures SectorNumber(x) == SectorNumber(address)
    ensures SectorExists(SectorNumber(address)) <==> address < SIZE
    ensures address < SIZE ==> address + 256 <= SIZE
  {}

  /** The rest of the sector, from address on, is erased. */
  ghost predicate RestErased(m: Memory, address: nat) {
    forall x :: address <= x < SIZE && SectorNumber(x) == SectorNumber(address) ==> m[x] == 0xFF
  }

  /** A block may be written at address: the write erases the sector itself, or its rest is still erased. */
  ghost predicate Writable(m: Memory, address: nat) {
    AtSectorBoundary(address) || RestErased(m, address)
  }

  /** The memory that a block is programmed into. */
  function Prepared(m: Memory, address: nat): Memory {
    if AtSectorBoundary(address) then Erased(m, SectorNumber(address)) else m
  }

  lemma PreparedErased(m: Memory, address: nat, x: nat)
    requires Writable(m, address) && address <= x < SIZE
    ensures Prepared(m, address)[x] == if SectorNumber(x) == SectorNumber(address) then 0xFF else m[x]
  {}

  lemma PreparedBelow(m: Memory, address: nat, x: nat)
    requires x < address < SIZE
    ensures Prepared(m, address)[x] == m[x]
  {
    if AtSectorBoundary(address) {
      LowerSector(x, address);
    }
  }

  /** Writing one block in sequence: what each byte of the flash becomes. */
  lemma BlockWritten(m: Memory, address: nat, data: seq<u8>, x: nat)
    requires address % 256 == 0 && address < SIZE && |data| == 256 && Writable(m, address) && x < SIZE
    ensures Write(m, address, data, ALL_WELL).1
    ensures Write(m, address, data, ALL_WELL).0[x] ==
      if x < address then m[x]
      else if x < address + 256 then data[x - address]
      else if SectorNumber(x) == SectorNumber(address) then 0xFF
      else m[x]
  {
    BlockInSector(address, address);
    assert Write(m, address, data, ALL_WELL) == (Programmed(Prepared(m, address), address, data), true);
    if x < address {
      PreparedBelow(m, address, x);
    } else {
      PreparedErased(m, address, x);
      if x < address + 256 {
        BlockInSector(address, x);
        ProgramErased(data[x - address]);
      }
    }
  }

  /** After it, the next block may be written. */
  lemma StaysWritable(m: Memory, address: nat, data: seq<u8>)
    requires address % 256 == 0 && address < SIZE && |data| == 256 && Writable(m, address)
    ensures Writable(Write(m, address, data, ALL_WELL).0, address + 256)
  {
    NextAddress(address);
    forall x | address + 256 <= x < SIZE
               && SectorNumber(x) == SectorNumber(address + 256) && !AtSectorBoundary(address + 256)
      ensures Write(m, address, data, ALL_WELL).0[x] == 0xFF
    {
      BlockWritten(m, address, data, x);
    }
  }

  /** Nothing below a sector boundary is in the sector above it. */
  lemma LowerSector(x: nat, address: nat)
    requires x < address && AtSectorBoundary(address)
    ensures SectorNumber(x) != SectorNumber(address)
  {}

  /** The next block is in the same sector, or at the start of a sector. */
  lemma NextAddress(address: nat)
    requires address % 256 == 0
    ensures AtSectorBoundary(address + 256) || SectorNumber(address + 256) == SectorNumber(address)
  {}

  /** The bootloader occupies the sectors below 0x4000; writes from there on leave it alone. */
  lemma BootloaderKept(m: Memory, address: nat, data: seq<u8>, iap: Iap, x: nat)
    requires address % 256 == 0 && |data| == 256 && address >= 0x4000 && x < 0x4000
    ensures Write(m, address, data, iap).0[x] == m[x]
  {
    BlockInSector(address, address);
  }

  /** The device. */
  class FlashDevice {
    const mem: array<u8>

    constructor (contents: Memory)
      ensures fresh(mem) && mem.Length == SIZE && mem[..] == contents
    {
      mem := new u8[SIZE](i requires 0 <= i < SIZE => contents[i]);
    }

    method EraseSector(sector: nat)
      requires mem.Length == SIZE
      modifies mem
      ensures mem[..] == Erased(old(mem[..]), sector)
    {
      forall x | 0 <= x < mem.Length && SectorNumber(x) == sector {
        mem[x] := 0xFF;
      }
    }

    method CopyRamToFlash(address: nat, source: array<u8>)
      requires mem.Length == SIZE && source.Length >= 256 && address + 256 <= SIZE && source != mem
      modifies mem
      ensures mem[..] == Programmed(old(mem[..]), address, source[..256])
    {
      forall x | address <= x < address + 256 {
        mem[x] := AndByte(mem[x], source[x - address]);
      }
    }

    /** Flash::write */
    method WriteBlock(address: nat, source: array<u8>, iap: Iap) returns (ok: bool)
      requires mem.Length == SIZE && source.Length >= 256 && source != mem && address % 256 == 0
      modifies mem
      ensures (mem[..], ok) == Write(old(mem[..]), address, source[..256], iap)
    {
      var sector := SectorNumber(address);
      BlockInSector(address, address);
      var result := true;
      if AtSectorBoundary(address) {
        result := iap.prepareErase && SectorExists(sector);
        if result {
          result := iap.erase;
          if result {
            EraseSector(sector);
          }
        }
      }
      if result {
        result := iap.prepareCopy && SectorExists(sector);
      }
      if result && iap.copy {
        CopyRamToFlash(address, source);
      }
      ok := result;
    }
  }
}
