/**
 What the link-layer CRC promises about packets: it can be undone to recover
 the initial value, and it sees every short burst of errors.
 */
module CrcLaws {
  import opened Bits
  import opened CrcRegister
  import opened CrcWord

  /** Running the CRC backwards over the packet yields the initial value, bit-reversed. */
  lemma ReversalRecoversInit(crcInit: nat, data: seq<u8>)
    ensures ReverseCrc(Crc(crcInit, data), data) == Rev24(crcInit % U24)
  {
    RunBackUndoesRun(Register24(crcInit % U24), DataBits(data));
  }

  /** The initial value that running backwards finds does lead to the given CRC. */
  lemma FoundInitWorks(crc: u24, data: seq<u8>)
    ensures Crc(Rev24(ReverseCrc(crc, data)), data) == crc
  {
    hide RunBack, Run, DataBits, Register24, Word24;
    var r := RunBack(Register24(crc), DataBits(data));
    var found := Rev24(ReverseCrc(crc, data));
    assert Register24(found) == Reverse(Reverse(r)) == r;
    RunUndoesRunBack(Register24(crc), DataBits(data));
    WordOfRegister(crc);
  }

  /** Exactly one 24-bit initial value leads to a given CRC, and running backwards finds it. */
  lemma InitOfCrc(crcInit: u24, crc: u24, data: seq<u8>)
    ensures Crc(crcInit, data) == crc <==> crcInit == Rev24(ReverseCrc(crc, data))
  {
    hide Crc, Rev24, ReverseCrc;
    if Crc(crcInit, data) == crc {
      ReversalRecoversInit(crcInit, data);
      Rev24Involutive(crcInit);
    }
    FoundInitWorks(crc, data);
  }

  /** The two packets agree on every bit outside [lo, lo + width). */
  ghost predicate DifferWithin(a: seq<u8>, b: seq<u8>, lo: nat, width: nat) {
    |a| == |b| &&
    forall i :: 0 <= i < 8 * |a| && !(lo <= i < lo + width) ==> DataBits(a)[i] == DataBits(b)[i]
  }

  /** Two different packets that differ only within 24 consecutive bits have different CRCs. */
  lemma BurstDetected(crcInit: nat, a: seq<u8>, b: seq<u8>, lo: nat)
    requires a != b && DifferWithin(a, b, lo, 24)
    ensures Crc(crcInit, a) != Crc(crcInit, b)
  {
    var x, y, r := DataBits(a), DataBits(b), Register24(crcInit % U24);
    if x == y {
      DataBitsInjective(a, b);
      assert false;
    }
    var n := |x|;
    var from := if lo < n then lo else n;
    var to := if lo + 24 < n then lo + 24 else n;
    assert x[..from] == y[..from];
    assert x[to..] == y[to..];
    assert x == x[..from] + x[from..to] + x[to..];
    assert y == y[..from] + y[from..to] + y[to..];
    BurstTold(r, x[..from], x[from..to], y[from..to], x[to..]);
  }

  const SILENT: seq<u8> := [0x00, 0x00, 0x00, 0x00]
  const POLYNOMIAL: seq<u8> := [0x01, 0xc0, 0xb4, 0x01]

  lemma FourBytes(a: u8, b: u8, c: u8, d: u8)
    ensures DataBits([a, b, c, d]) == LowBits(a, 8) + LowBits(b, 8) + LowBits(c, 8) + LowBits(d, 8)
  {
    hide LowBits;
    assert [a, b, c, d][1..] == [b, c, d];
    assert [b, c, d][1..] == [c, d];
    assert [c, d][1..] == [d];
    assert DataBits([d]) == LowBits(d, 8);
    assert DataBits([c, d]) == LowBits(c, 8) + DataBits([d]);
    assert DataBits([b, c, d]) == LowBits(b, 8) + DataBits([c, d]);
  }

  lemma Digits01()
    ensures LowBits(0x01, 8) == [true] + Zeros(7)
  {
    LowBitsZero(7);
  }

  lemma DigitsC0()
    ensures LowBits(0xc0, 8) == Zeros(6) + [true, true]
  {
    assert LowBits(0x3, 2) == [true, true];
    assert LowBits(0xc, 4) == [false, false] + LowBits(0x3, 2);
    assert LowBits(0x30, 6) == [false, false] + LowBits(0xc, 4);
  }

  lemma DigitsB4()
    ensures LowBits(0xb4, 8) == [false, false, true, false, true, true, false, true]
  {
    assert LowBits(0x2, 2) == [false, true];
    assert LowBits(0xb, 4) == [true, true] + LowBits(0x2, 2);
    assert LowBits(0x2d, 6) == [true, false] + LowBits(0xb, 4);
  }

  lemma SilentBits()
    ensures DataBits(SILENT) == Zeros(32)
  {
    FourBytes(0, 0, 0, 0);
    LowBitsZero(8);
    hide *;
    assert Zeros(8) + Zeros(8) + Zeros(8) + Zeros(8) == Zeros(32);
  }

  lemma PolynomialBits()
    ensures DataBits(POLYNOMIAL) == [true] + Taps() + Zeros(7)
  {
    hide LowBits, DataBits, Taps;
    FourBytes(0x01, 0xc0, 0xb4, 0x01);
    Digits01();
    DigitsC0();
    DigitsB4();
    JoinedDigits();
  }

  lemma JoinedDigits()
    ensures ([true] + Zeros(7)) + (Zeros(6) + [true, true]) + [false, false, true, false, true, true, false, true]
      + ([true] + Zeros(7)) == [true] + Taps() + Zeros(7)
  {}

  /** 24 is the best bound: these two packets differ within 25 bits and no initial value tells them apart. */
  lemma LongerBurstMissed(crcInit: nat)
    ensures DifferWithin(SILENT, POLYNOMIAL, 0, 25) && SILENT != POLYNOMIAL
    ensures Crc(crcInit, SILENT) == Crc(crcInit, POLYNOMIAL)
  {
    SilentBits();
    PolynomialBits();
    hide LowBits, DataBits, Run, Word24;
    var x, y, r := DataBits(POLYNOMIAL), DataBits(SILENT), Register24(crcInit % U24);
    assert x[25..] == y[25..] == Zeros(7);
    assert XorBits(x[..25], y[..25]) == [true] + Taps();
    PolynomialUnseen(r, x[..25], y[..25]);
    RunConcat(r, x[..25], x[25..]);
    RunConcat(r, y[..25], y[25..]);
    assert x == x[..25] + x[25..] && y == y[..25] + y[25..];
    assert SILENT[0] != POLYNOMIAL[0];
  }
}
