/**
 The advertising frame from sender to receiver: built by bt_slave_le, whitened
 by le_transmit, dewhitened by le_dewhiten, and checked as in bt_le_sync.
 */
module Frame {
  import opened Bits
  import opened CrcRegister
  import opened CrcWord
  import opened CrcLaws
  import CrcLut
  import opened Whitening

  /** The three CRC bytes of a packet, low byte first. */
  function CrcBytes(crc: u24): (bytes: seq<u8>)
    ensures |bytes| == 3
  {
    [crc % 256, crc / 256 % 256, crc / 65536]
  }

  /** The 24-bit number that three bytes spell, low byte first. */
  function WireCrc(bytes: seq<u8>): (crc: u24)
    requires |bytes| == 3
  {
    65536 * (bytes[2] as int) + 256 * (bytes[1] as int) + bytes[0]
  }

  function Reversed(s: seq<u8>): (r: seq<u8>)
    ensures |r| == |s|
  {
    seq(|s|, i requires 0 <= i < |s| => s[|s| - 1 - i])
  }

  /** Header, address in reverse byte order, advertising data. */
  function Body(mac: seq<u8>, adv: seq<u8>): seq<u8>
    requires |mac| == 6 && |adv| <= 21
  {
    [0x00, 6 + |adv|] + Reversed(mac) + adv
  }

  /** The frame that bt_slave_le hands to le_transmit. */
  function AdvFrame(mac: seq<u8>, adv: seq<u8>, crcInit: u32): (f: seq<u8>)
    requires |mac| == 6 && |adv| <= 21
    ensures |f| == 11 + |adv|
  {
    Body(mac, adv) + CrcBytes(Crc(crcInit, Body(mac, adv)))
  }

  lemma BodyAt(mac: seq<u8>, adv: seq<u8>, k: nat)
    requires |mac| == 6 && |adv| <= 21 && k < 8 + |adv|
    ensures Body(mac, adv)[k] ==
      if k == 0 then 0 else if k == 1 then 6 + |adv| else if k < 8 then mac[7 - k] else adv[k - 8]
  {}

  /** The header, address and data stores of bt_slave_le. */
  method FillBody(advInd: array<u8>, mac: array<u8>, advData: array<u8>, advLen: nat)
    requires advInd.Length == 32 && mac.Length == 6 && advLen <= advData.Length && advLen <= 21
    requires advInd != mac && advInd != advData && advInd[0] == 0
    modifies advInd
    ensures advInd[..8 + advLen] == Body(mac[..], advData[..advLen])
  {
    ghost var m, d := mac[..], advData[..advLen];
    advInd[1] := 6 + advLen;
    for i := 0 to 6
      invariant advInd[0] == 0 && advInd[1] == 6 + advLen
      invariant forall k :: 2 <= k < 2 + i ==> advInd[k] == m[7 - k]
    {
      advInd[i + 2] := mac[5 - i];
    }
    for i := 0 to advLen
      invariant advInd[0] == 0 && advInd[1] == 6 + advLen
      invariant forall k :: 2 <= k < 8 ==> advInd[k] == m[7 - k]
      invariant forall k :: 8 <= k < 8 + i ==> advInd[k] == d[k - 8]
    {
      advInd[8 + i] := advData[i];
    }
    forall k | 0 <= k < 8 + advLen
      ensures advInd[k] == Body(m, d)[k]
    {
      BodyAt(m, d, k);
    }
  }

  /** The last three stores of bt_slave_le. */
  method AppendCrc(advInd: array<u8>, len: nat, crc: u24)
    requires len + 3 <= advInd.Length
    modifies advInd
    ensures advInd[..len + 3] == old(advInd[..len]) + CrcBytes(crc)
  {
    advInd[len] := crc % 256;
    advInd[len + 1] := crc / 256 % 256;
    advInd[len + 2] := crc / 65536 % 256;
  }

  const LE_ADV_MAX_LEN: nat := 255

  /** How building the frame ends: refused as too long, with stores behind the frame buffer, or with the frame. */
  datatype AdvOutcome = Refused | Overrun | Built

  /**
   bt_slave_le up to the transmission. Its test lets 255 bytes of data through, but its frame buffer has 32 bytes:
   with 22 or more bytes of data, data or CRC do not fit.
   */
  method BuildAdvInd(mac: array<u8>, advData: array<u8>, advLen: nat, crcInitReversed: u32)
    returns (outcome: AdvOutcome, advInd: array<u8>, advIndLen: u8)
    requires mac.Length == 6 && advData.Length == LE_ADV_MAX_LEN
    ensures outcome == if advLen > LE_ADV_MAX_LEN then Refused else if advLen > 21 then Overrun else Built
    ensures outcome.Built? ==> fresh(advInd) && advInd.Length == 32 && advIndLen == 8 + advLen
    ensures outcome.Built? ==>
      advInd[..advIndLen + 3] == AdvFrame(mac[..], advData[..advLen], crcInitReversed)
  {
    advInd := new u8[32](_ => 0);
    advIndLen := 0;
    if advLen > LE_ADV_MAX_LEN {
      outcome := Refused;
      return;
    }
    if 8 + advLen > advInd.Length {
      outcome := Overrun;
      return;
    }
    advIndLen := 8 + advLen;
    if advIndLen + 3 > advInd.Length {
      outcome := Overrun;
      return;
    }
    outcome := Built;
    FillBody(advInd, mac, advData, advLen);
    var calcCrc := CalcCrc(crcInitReversed, advInd, advIndLen);
    AppendCrc(advInd, advIndLen, calcCrc);
  }

  // ----- the receiver

  /** The length field of a packet covers header and payload. */
  function PacketLength(p: seq<u8>): nat
    requires |p| >= 2
  {
    p[1] % 64 + 2
  }

  /** The packets that bt_le_sync lets through when it verifies CRCs. */
  predicate Accepts(crcInit: u32, p: seq<u8>) {
    && |p| >= 2
    && var len := PacketLength(p);
    && len <= 39 && len + 3 <= |p|
    && Crc(crcInit, p[..len]) == WireCrc(p[len..len + 3])
  }

  /** The length and CRC tests of bt_le_sync on its receive buffer, which holds any packet of up to 39 + 3 bytes. */
  method CheckPacket(p: array<u8>, crcInitReversed: u32) returns (ok: bool)
    requires p.Length >= 42
    ensures ok == Accepts(crcInitReversed, p[..])
  {
    var len: nat := p[1] % 64 + 2;
    if len > 39 {
      return false;
    }
    var calcCrc := CrcLut.CrcgenLut(crcInitReversed, p, len);
    var wireCrc := 65536 * (p[len + 2] as int) + 256 * (p[len + 1] as int) + p[len];
    ok := calcCrc == wireCrc;
    assert p[..][..len] == p[..len];
  }

  lemma CrcBytesSpell(crc: u24)
    ensures WireCrc(CrcBytes(crc)) == crc
  {}

  /** A body of up to 39 bytes whose six length bits tell its length, followed by its CRC, passes the check. */
  lemma OwnCrcAccepted(crcInit: u32, body: seq<u8>)
    requires 2 <= |body| <= 39 && body[1] % 64 + 2 == |body|
    ensures Accepts(crcInit, body + CrcBytes(Crc(crcInit, body)))
  {
    var crc := Crc(crcInit, body);
    var f := body + CrcBytes(crc);
    assert f[..|body|] == body && f[|body|..|body| + 3] == CrcBytes(crc);
    CrcBytesSpell(crc);
  }

  /** Over-the-air round trip: the frame comes back byte for byte and passes the check. */
  lemma OverTheAir(mac: seq<u8>, adv: seq<u8>, crcInit: u32, channel: nat)
    requires |mac| == 6 && |adv| <= 21
    ensures var f := AdvFrame(mac, adv, crcInit);
      Dewhitened(Whitened(f, channel), channel) == f && Accepts(crcInit, f)
  {
    WhiteningRoundTrip(AdvFrame(mac, adv, crcInit), channel);
    OwnCrcAccepted(crcInit, Body(mac, adv));
  }

  /** The number that bytes spell, first byte least significant. */
  function Spelled(bytes: seq<u8>): nat {
    if bytes == [] then 0 else bytes[0] + 256 * Spelled(bytes[1..])
  }

  /** The number that bytes spell, first byte most significant, as an address is written. */
  function Written(bytes: seq<u8>): nat {
    if bytes == [] then 0 else 256 * Written(bytes[..|bytes| - 1]) + bytes[|bytes| - 1]
  }

  lemma {:induction false} ReversedSpells(s: seq<u8>)
    ensures Spelled(Reversed(s)) == Written(s)
    decreases |s|
  {
    if s != [] {
      var k := |s| - 1;
      ReversedSpells(s[..k]);
      assert Reversed(s)[0] == s[k];
      assert Reversed(s)[1..] == Reversed(s[..k]);
    }
  }

  /**
   What a receiver reads in the frame: an ADV_IND with a public address, the six length bits, the address as a number
   with its least significant byte on air first, the advertising data, and a CRC that empties the register.
   */
  lemma FrameRead(mac: seq<u8>, adv: seq<u8>, crcInit: u32)
    requires |mac| == 6 && |adv| <= 21
    ensures
      var f := AdvFrame(mac, adv, crcInit);
      && f[0] == 0 && f[1] % 64 == 6 + |adv| && |f| == f[1] % 64 + 5
      && Spelled(f[2..8]) == Written(mac) && f[8..8 + |adv|] == adv
      && Run(Register24(crcInit % U24), DataBits(f)) == Zeros(24)
  {
    var f := AdvFrame(mac, adv, crcInit);
    assert f[2..8] == Reversed(mac) && f[8..8 + |adv|] == adv;
    ReversedSpells(mac);
    OwnCrcAccepted(crcInit, Body(mac, adv));
    AcceptsIffEmptied(crcInit, f);
    assert f[..|f|] == f;
    hide Spelled, Written, Reversed, Accepts, Crc, Run, DataBits, LowBits;
  }

  // ----- errors on air

  lemma {:induction false} BitsOfParts(y: nat, q: nat, n: nat, m: nat)
    requires y < Pow2(n)
    ensures LowBits(y + Pow2(n) * q, n + m) == LowBits(y, n) + LowBits(q, m)
  {
    if n > 0 {
      var h := Pow2(n - 1) * q;
      assert y + Pow2(n) * q == y + 2 * h;
      assert (y + 2 * h) / 2 == y / 2 + h;
      BitsOfParts(y / 2, q, n - 1, m);
    }
  }

  lemma WireCrcBits(bytes: seq<u8>)
    requires |bytes| == 3
    ensures DataBits(bytes) == Register24(WireCrc(bytes))
  {
    Pow2Values();
    hide LowBits, Pow2;
    var b0, b1, b2 := bytes[0], bytes[1], bytes[2];
    BitsOfParts(b0, b1 + 256 * (b2 as int), 8, 16);
    BitsOfParts(b1, b2, 8, 8);
    assert bytes == [b0] + ([b1] + [b2]);
    DataBitsConcat([b0], [b1] + [b2]);
    DataBitsConcat([b1], [b2]);
  }

  /** A register is emptied by exactly one sequence of 24 bits: its own. */
  lemma EmptiedBy(r: Register, w: Register)
    ensures Run(r, w) == Zeros(24) <==> r == w
  {
    assert r[..24] == r;
    SelfFeed(r, 24);
    if Run(r, w) == Zeros(24) {
      WindowDetermined(r, w, r);
    }
  }

  /**
   For every packet: the check passes exactly when the six length bits announce at most 37 bytes, all of them and the
   CRC are there, and together they empty the register.
   */
  lemma AcceptsExactly(crcInit: u32, p: seq<u8>)
    requires |p| >= 2
    ensures Accepts(crcInit, p) <==>
      p[1] % 64 <= 37 && p[1] % 64 + 5 <= |p|
      && Run(Register24(crcInit % U24), DataBits(p[..p[1] % 64 + 5])) == Zeros(24)
  {
    if p[1] % 64 <= 37 && p[1] % 64 + 5 <= |p| {
      AcceptsIffEmptied(crcInit, p);
      assert p[..p[1] % 64 + 5] == p[..PacketLength(p) + 3];
    }
    hide Crc, Run, DataBits, LowBits, WireCrc;
  }

  /** The check passes exactly when the whole packet, CRC included, empties the register. */
  lemma AcceptsIffEmptied(crcInit: u32, p: seq<u8>)
    requires |p| >= 2 && PacketLength(p) <= 39 && PacketLength(p) + 3 <= |p|
    ensures Accepts(crcInit, p)
       <==> Run(Register24(crcInit % U24), DataBits(p[..PacketLength(p) + 3])) == Zeros(24)
  {
    var len, start := PacketLength(p), Register24(crcInit % U24);
    var body, crc := p[..len], p[len..len + 3];
    assert p[..len + 3] == body + crc;
    DataBitsConcat(body, crc);
    RunConcat(start, DataBits(body), DataBits(crc));
    WireCrcBits(crc);
    EmptiedBy(Run(start, DataBits(body)), Register24(WireCrc(crc)));
    var own := Crc(crcInit, body);
    if Register24(own) == Register24(WireCrc(crc)) {
      RegisterInjective(own, WireCrc(crc));
    }
  }

  /** On air the two transmissions agree on every bit outside [lo, lo + 24). */
  ghost predicate AirBurst(a: seq<u8>, b: seq<u8>, lo: nat) {
    |a| == |b| &&
    forall i :: 0 <= i < 8 * |a| && !(lo <= i < lo + 24) ==> WireBits(a)[i] == WireBits(b)[i]
  }

  lemma BurstDewhitened(a: seq<u8>, b: seq<u8>, channel: nat, lo: nat)
    requires AirBurst(a, b, lo)
    ensures DifferWithin(Dewhitened(a, channel), Dewhitened(b, channel), lo, 24)
  {
    DewhiteningIsStreamXor(a, channel);
    DewhiteningIsStreamXor(b, channel);
  }

  /** Two packets that both empty the register have the same CRC. */
  lemma SameCrc(crcInit: u32, p: seq<u8>, q: seq<u8>)
    requires |p| >= 2 && |p| == |q| == PacketLength(p) + 3 == PacketLength(q) + 3
    requires Accepts(crcInit, p) && Accepts(crcInit, q)
    ensures Crc(crcInit, p) == Crc(crcInit, q)
  {
    assert p[..PacketLength(p) + 3] == p && q[..PacketLength(q) + 3] == q;
    AcceptsIffEmptied(crcInit, p);
    AcceptsIffEmptied(crcInit, q);
  }

  /**
   A complete frame hit on air by one burst of at most 24 bits, anywhere from the
   header to the CRC, is rejected, unless the burst changed the length field.
   */
  lemma BurstRejected(crcInit: u32, f: seq<u8>, received: seq<u8>, channel: nat, lo: nat)
    requires Accepts(crcInit, f) && |f| == PacketLength(f) + 3
    requires received != Whitened(f, channel) && AirBurst(received, Whitened(f, channel), lo)
    ensures var p := Dewhitened(received, channel);
      PacketLength(p) == PacketLength(f) ==> !Accepts(crcInit, p)
  {
    var p := Dewhitened(received, channel);
    WhiteningRoundTrip(f, channel);
    WhiteningRoundTrip(received, channel);
    BurstDewhitened(received, Whitened(f, channel), channel, lo);
    BurstDetected(crcInit, p, f, lo);
    if PacketLength(p) == PacketLength(f) && Accepts(crcInit, p) {
      SameCrc(crcInit, p, f);
      assert false;
    }
  }
}
