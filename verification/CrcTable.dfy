/**
 The 256-entry table of btle_crcgen_lut, with the check that it is built by
 doubling and by exclusive or with its entry 1. What an entry means is proved
 in CrcLut.
 */
module CrcTable {
  import opened Bits

  const ROW_0: seq<u24> := [
    0x000000, 0x01b4c0, 0x036980, 0x02dd40, 0x06d300, 0x0767c0, 0x05ba80, 0x040e40,
    0x0da600, 0x0c12c0, 0x0ecf80, 0x0f7b40, 0x0b7500, 0x0ac1c0, 0x081c80, 0x09a840
  ]
  const ROW_1: seq<u24> := [
    0x1b4c00, 0x1af8c0, 0x182580, 0x199140, 0x1d9f00, 0x1c2bc0, 0x1ef680, 0x1f4240,
    0x16ea00, 0x175ec0, 0x158380, 0x143740, 0x103900, 0x118dc0, 0x135080, 0x12e440
  ]
  const ROW_2: seq<u24> := [
    0x369800, 0x372cc0, 0x35f180, 0x344540, 0x304b00, 0x31ffc0, 0x332280, 0x329640,
    0x3b3e00, 0x3a8ac0, 0x385780, 0x39e340, 0x3ded00, 0x3c59c0, 0x3e8480, 0x3f3040
  ]
  const ROW_3: seq<u24> := [
    0x2dd400, 0x2c60c0, 0x2ebd80, 0x2f0940, 0x2b0700, 0x2ab3c0, 0x286e80, 0x29da40,
    0x207200, 0x21c6c0, 0x231b80, 0x22af40, 0x26a100, 0x2715c0, 0x25c880, 0x247c40
  ]
  const ROW_4: seq<u24> := [
    0x6d3000, 0x6c84c0, 0x6e5980, 0x6fed40, 0x6be300, 0x6a57c0, 0x688a80, 0x693e40,
    0x609600, 0x6122c0, 0x63ff80, 0x624b40, 0x664500, 0x67f1c0, 0x652c80, 0x649840
  ]
  const ROW_5: seq<u24> := [
    0x767c00, 0x77c8c0, 0x751580, 0x74a140, 0x70af00, 0x711bc0, 0x73c680, 0x727240,
    0x7bda00, 0x7a6ec0, 0x78b380, 0x790740, 0x7d0900, 0x7cbdc0, 0x7e6080, 0x7fd440
  ]
  const ROW_6: seq<u24> := [
    0x5ba800, 0x5a1cc0, 0x58c180, 0x597540, 0x5d7b00, 0x5ccfc0, 0x5e1280, 0x5fa640,
    0x560e00, 0x57bac0, 0x556780, 0x54d340, 0x50dd00, 0x5169c0, 0x53b480, 0x520040
  ]
  const ROW_7: seq<u24> := [
    0x40e400, 0x4150c0, 0x438d80, 0x423940, 0x463700, 0x4783c0, 0x455e80, 0x44ea40,
    0x4d4200, 0x4cf6c0, 0x4e2b80, 0x4f9f40, 0x4b9100, 0x4a25c0, 0x48f880, 0x494c40
  ]
  const ROW_8: seq<u24> := [
    0xda6000, 0xdbd4c0, 0xd90980, 0xd8bd40, 0xdcb300, 0xdd07c0, 0xdfda80, 0xde6e40,
    0xd7c600, 0xd672c0, 0xd4af80, 0xd51b40, 0xd11500, 0xd0a1c0, 0xd27c80, 0xd3c840
  ]
  const ROW_9: seq<u24> := [
    0xc12c00, 0xc098c0, 0xc24580, 0xc3f140, 0xc7ff00, 0xc64bc0, 0xc49680, 0xc52240,
    0xcc8a00, 0xcd3ec0, 0xcfe380, 0xce5740, 0xca5900, 0xcbedc0, 0xc93080, 0xc88440
  ]
  const ROW_10: seq<u24> := [
    0xecf800, 0xed4cc0, 0xef9180, 0xee2540, 0xea2b00, 0xeb9fc0, 0xe94280, 0xe8f640,
    0xe15e00, 0xe0eac0, 0xe23780, 0xe38340, 0xe78d00, 0xe639c0, 0xe4e480, 0xe55040
  ]
  const ROW_11: seq<u24> := [
    0xf7b400, 0xf600c0, 0xf4dd80, 0xf56940, 0xf16700, 0xf0d3c0, 0xf20e80, 0xf3ba40,
    0xfa1200, 0xfba6c0, 0xf97b80, 0xf8cf40, 0xfcc100, 0xfd75c0, 0xffa880, 0xfe1c40
  ]
  const ROW_12: seq<u24> := [
    0xb75000, 0xb6e4c0, 0xb43980, 0xb58d40, 0xb18300, 0xb037c0, 0xb2ea80, 0xb35e40,
    0xbaf600, 0xbb42c0, 0xb99f80, 0xb82b40, 0xbc2500, 0xbd91c0, 0xbf4c80, 0xbef840
  ]
  const ROW_13: seq<u24> := [
    0xac1c00, 0xada8c0, 0xaf7580, 0xaec140, 0xaacf00, 0xab7bc0, 0xa9a680, 0xa81240,
    0xa1ba00, 0xa00ec0, 0xa2d380, 0xa36740, 0xa76900, 0xa6ddc0, 0xa40080, 0xa5b440
  ]
  const ROW_14: seq<u24> := [
    0x81c800, 0x807cc0, 0x82a180, 0x831540, 0x871b00, 0x86afc0, 0x847280, 0x85c640,
    0x8c6e00, 0x8ddac0, 0x8f0780, 0x8eb340, 0x8abd00, 0x8b09c0, 0x89d480, 0x886040
  ]
  const ROW_15: seq<u24> := [
    0x9a8400, 0x9b30c0, 0x99ed80, 0x985940, 0x9c5700, 0x9de3c0, 0x9f3e80, 0x9e8a40,
    0x972200, 0x9696c0, 0x944b80, 0x95ff40, 0x91f100, 0x9045c0, 0x929880, 0x932c40
  ]

  function Row(r: nat): (row: seq<u24>)
    requires r < 16
    ensures |row| == 16
  {
    if r == 0 then ROW_0
    else if r == 1 then ROW_1
    else if r == 2 then ROW_2
    else if r == 3 then ROW_3
    else if r == 4 then ROW_4
    else if r == 5 then ROW_5
    else if r == 6 then ROW_6
    else if r == 7 then ROW_7
    else if r == 8 then ROW_8
    else if r == 9 then ROW_9
    else if r == 10 then ROW_10
    else if r == 11 then ROW_11
    else if r == 12 then ROW_12
    else if r == 13 then ROW_13
    else if r == 14 then ROW_14
    else ROW_15
  }

  /** btle_crc_lut[key] */
  function Lut(key: nat): u24
    requires key < 256
  {
    Row(key / 16)[key % 16]
  }

  /** w == x ^ y, read bit by bit down to bit n. */
  ghost predicate IsXor(w: nat, x: nat, y: nat, n: nat) {
    if n == 0 then w == Xor(x, y)
    else Odd(w) == (Odd(x) != Odd(y)) && IsXor(w / 2, x / 2, y / 2, n - 1)
  }

  lemma {:induction false} IsXorMeaning(w: nat, x: nat, y: nat, n: nat)
    ensures IsXor(w, x, y, n) <==> w == Xor(x, y)
  {
    if n > 0 {
      IsXorMeaning(w / 2, x / 2, y / 2, n - 1);
    }
  }

  // ----- exclusive or by fields: a zero field is kept, an all-ones field is complemented

  lemma KeepOne(x: nat, y: nat, a: nat)
    requires a < 2
    ensures Xor(2 * x + a, 2 * y) == 2 * Xor(x, y) + a
  {
    assert (2 * x + a) / 2 == x && 2 * y / 2 == y;
  }

  lemma FlipOne(x: nat, y: nat, a: nat)
    requires a < 2
    ensures Xor(2 * x + a, 2 * y + 1) == 2 * Xor(x, y) + 1 - a
  {
    assert (2 * x + a) / 2 == x && (2 * y + 1) / 2 == y;
  }

  lemma KeepTwo(x: nat, y: nat, a: nat)
    requires a < 4
    ensures Xor(4 * x + a, 4 * y) == 4 * Xor(x, y) + a
  {
    hide Xor;
    KeepOne(x, y, a / 2);
    KeepOne(2 * x + a / 2, 2 * y, a % 2);
  }

  lemma FlipTwo(x: nat, y: nat, a: nat)
    requires a < 4
    ensures Xor(4 * x + a, 4 * y + 3) == 4 * Xor(x, y) + 3 - a
  {
    hide Xor;
    FlipOne(x, y, a / 2);
    FlipOne(2 * x + a / 2, 2 * y + 1, a % 2);
  }

  lemma {:induction false} XorZero(x: nat)
    ensures Xor(x, 0) == x
  {
    if x > 0 {
      XorZero(x / 2);
    }
  }

  lemma UpperFields(a: nat, b: nat, c: nat, d: nat, e: nat)
    requires b < 4 && c < 2 && d < 4 && e < 2
    ensures Xor(64 * a + 16 * b + 8 * c + 2 * d + e, 0x36) == 64 * a + 16 * (3 - b) + 8 * c + 2 * (3 - d) + e
  {
    hide Xor;
    var y := 0x3;
    assert Xor(8 * a + 2 * b + c, 2 * y) == 8 * a + 2 * (3 - b) + c by {
      XorZero(a);
      FlipTwo(a, 0, b);
      KeepOne(4 * a + b, y, c);
    }
    FlipTwo(8 * a + 2 * b + c, 2 * y, d);
    KeepOne(32 * a + 8 * b + 4 * c + d, 8 * y + 3, e);
  }

  lemma LowerFields(x: nat, f: nat, g: nat, h: nat)
    requires f < 2 && g < 4 && h < 4
    ensures Xor(32 * x + 16 * f + 4 * g + h, 0x6d3) == 32 * Xor(x, 0x36) + 16 * (1 - f) + 4 * g + 3 - h
  {
    hide Xor;
    FlipOne(x, 0x36, f);
    KeepTwo(2 * x + f, 0x6d, g);
    FlipTwo(8 * x + 4 * f + g, 0x1b4, h);
  }

  lemma SixZeros(x: nat, y: nat)
    ensures Xor(64 * x, 64 * y) == 64 * Xor(x, y)
  {
    hide Xor;
    assert Xor(16 * x, 16 * y) == 16 * Xor(x, y) by {
      KeepTwo(x, y, 0);
      KeepTwo(4 * x, 4 * y, 0);
    }
    KeepTwo(16 * x, 16 * y, 0);
  }

  lemma FieldsXor(v: nat, w: nat, a: nat, b: nat, c: nat, d: nat, e: nat, f: nat, g: nat, h: nat)
    requires b < 4 && c < 2 && d < 4 && e < 2 && f < 2 && g < 4 && h < 4
    requires v == 0x20000 * a + 0x8000 * b + 0x4000 * c + 0x1000 * d + 0x800 * e + 0x400 * f + 0x100 * g + 0x40 * h
    requires w == 0x20000 * a + 0x8000 * (3 - b) + 0x4000 * c + 0x1000 * (3 - d)
      + 0x800 * e + 0x400 * (1 - f) + 0x100 * g + 0x40 * (3 - h)
    ensures w == Xor(v, 0x01b4c0)
  {
    hide Xor;
    var x := 64 * a + 16 * b + 8 * c + 2 * d + e;
    UpperFields(a, b, c, d, e);
    LowerFields(x, f, g, h);
    var z := 32 * x + 16 * f + 4 * g + h;
    calc {
      w;
      64 * (32 * Xor(x, 0x36) + 16 * (1 - f) + 4 * g + 3 - h);
      64 * Xor(z, 0x6d3);
      { SixZeros(z, 0x6d3); }
      Xor(64 * z, 64 * 0x6d3);
      { assert 64 * z == v; }
      Xor(v, 0x01b4c0);
    }
  }

  /** v ^ 0x01b4c0, given the fields of v that the constant keeps or complements. */
  lemma Fields(v: nat, w: nat, a: nat, b: nat, c: nat, d: nat, e: nat, f: nat, g: nat, h: nat, n: nat)
    requires b < 4 && c < 2 && d < 4 && e < 2 && f < 2 && g < 4 && h < 4
    requires v == 0x20000 * a + 0x8000 * b + 0x4000 * c + 0x1000 * d + 0x800 * e + 0x400 * f + 0x100 * g + 0x40 * h
    requires w == 0x20000 * a + 0x8000 * (3 - b) + 0x4000 * c + 0x1000 * (3 - d)
      + 0x800 * e + 0x400 * (1 - f) + 0x100 * g + 0x40 * (3 - h)
    ensures IsXor(w, v, 0x01b4c0, n)
  {
    FieldsXor(v, w, a, b, c, d, e, f, g, h);
    IsXorMeaning(w, v, 0x01b4c0, n);
  }

  /** Entries 2j and 2j+1 of row r come from one entry of row r/2. */
  ghost predicate PairOf(r: nat, j: nat, n: nat)
    requires r < 16 && j < 8
  {
    PairIn(Row(r), Row(r / 2)[8 * (r % 2) + j], j, n)
  }

  ghost predicate PairIn(row: seq<u24>, entry: u24, j: nat, n: nat)
    requires |row| == 16 && j < 8
  {
    row[2 * j] == 2 * entry && IsXor(row[2 * j + 1], row[2 * j], 0x01b4c0, n)
  }

  ghost predicate PairsOf(r: nat, n: nat)
    requires r < 16
  {
    forall j :: 0 <= j < 8 ==> PairOf(r, j, n)
  }

  lemma Row0(n: nat)
    ensures PairsOf(0, n)
  {
    Fields(ROW_0[0], ROW_0[1], 0, 0, 0, 0, 0, 0, 0, 0, n);
    Fields(ROW_0[2], ROW_0[3], 1, 2, 1, 2, 1, 0, 1, 2, n);
    Fields(ROW_0[4], ROW_0[5], 3, 1, 1, 1, 0, 0, 3, 0, n);
    Fields(ROW_0[6], ROW_0[7], 2, 3, 0, 3, 1, 0, 2, 2, n);
    Fields(ROW_0[8], ROW_0[9], 6, 3, 0, 2, 0, 1, 2, 0, n);
    Fields(ROW_0[10], ROW_0[11], 7, 1, 1, 0, 1, 1, 3, 2, n);
    Fields(ROW_0[12], ROW_0[13], 5, 2, 1, 3, 0, 1, 1, 0, n);
    Fields(ROW_0[14], ROW_0[15], 4, 0, 0, 1, 1, 1, 0, 2, n);
  }

  lemma Row1(n: nat)
    ensures PairsOf(1, n)
  {
    Fields(ROW_1[0], ROW_1[1], 13, 2, 1, 0, 1, 1, 0, 0, n);
    Fields(ROW_1[2], ROW_1[3], 12, 0, 0, 2, 0, 1, 1, 2, n);
    Fields(ROW_1[4], ROW_1[5], 14, 3, 0, 1, 1, 1, 3, 0, n);
    Fields(ROW_1[6], ROW_1[7], 15, 1, 1, 3, 0, 1, 2, 2, n);
    Fields(ROW_1[8], ROW_1[9], 11, 1, 1, 2, 1, 0, 2, 0, n);
    Fields(ROW_1[10], ROW_1[11], 10, 3, 0, 0, 0, 0, 3, 2, n);
    Fields(ROW_1[12], ROW_1[13], 8, 0, 0, 3, 1, 0, 1, 0, n);
    Fields(ROW_1[14], ROW_1[15], 9, 2, 1, 1, 0, 0, 0, 2, n);
  }

  lemma Row2(n: nat)
    ensures PairsOf(2, n)
  {
    Fields(ROW_2[0], ROW_2[1], 27, 1, 0, 1, 1, 0, 0, 0, n);
    Fields(ROW_2[2], ROW_2[3], 26, 3, 1, 3, 0, 0, 1, 2, n);
    Fields(ROW_2[4], ROW_2[5], 24, 0, 1, 0, 1, 0, 3, 0, n);
    Fields(ROW_2[6], ROW_2[7], 25, 2, 0, 2, 0, 0, 2, 2, n);
    Fields(ROW_2[8], ROW_2[9], 29, 2, 0, 3, 1, 1, 2, 0, n);
    Fields(ROW_2[10], ROW_2[11], 28, 0, 1, 1, 0, 1, 3, 2, n);
    Fields(ROW_2[12], ROW_2[13], 30, 3, 1, 2, 1, 1, 1, 0, n);
    Fields(ROW_2[14], ROW_2[15], 31, 1, 0, 0, 0, 1, 0, 2, n);
  }

  lemma Row3(n: nat)
    ensures PairsOf(3, n)
  {
    Fields(ROW_3[0], ROW_3[1], 22, 3, 1, 1, 0, 1, 0, 0, n);
    Fields(ROW_3[2], ROW_3[3], 23, 1, 0, 3, 1, 1, 1, 2, n);
    Fields(ROW_3[4], ROW_3[5], 21, 2, 0, 0, 0, 1, 3, 0, n);
    Fields(ROW_3[6], ROW_3[7], 20, 0, 1, 2, 1, 1, 2, 2, n);
    Fields(ROW_3[8], ROW_3[9], 16, 0, 1, 3, 0, 0, 2, 0, n);
    Fields(ROW_3[10], ROW_3[11], 17, 2, 0, 1, 1, 0, 3, 2, n);
    Fields(ROW_3[12], ROW_3[13], 19, 1, 0, 2, 0, 0, 1, 0, n);
    Fields(ROW_3[14], ROW_3[15], 18, 3, 1, 0, 1, 0, 0, 2, n);
  }

  lemma Row4(n: nat)
    ensures PairsOf(4, n)
  {
    Fields(ROW_4[0], ROW_4[1], 54, 2, 0, 3, 0, 0, 0, 0, n);
    Fields(ROW_4[2], ROW_4[3], 55, 0, 1, 1, 1, 0, 1, 2, n);
    Fields(ROW_4[4], ROW_4[5], 53, 3, 1, 2, 0, 0, 3, 0, n);
    Fields(ROW_4[6], ROW_4[7], 52, 1, 0, 0, 1, 0, 2, 2, n);
    Fields(ROW_4[8], ROW_4[9], 48, 1, 0, 1, 0, 1, 2, 0, n);
    Fields(ROW_4[10], ROW_4[11], 49, 3, 1, 3, 1, 1, 3, 2, n);
    Fields(ROW_4[12], ROW_4[13], 51, 0, 1, 0, 0, 1, 1, 0, n);
    Fields(ROW_4[14], ROW_4[15], 50, 2, 0, 2, 1, 1, 0, 2, n);
  }

  lemma Row5(n: nat)
    ensures PairsOf(5, n)
  {
    Fields(ROW_5[0], ROW_5[1], 59, 0, 1, 3, 1, 1, 0, 0, n);
    Fields(ROW_5[2], ROW_5[3], 58, 2, 0, 1, 0, 1, 1, 2, n);
    Fields(ROW_5[4], ROW_5[5], 56, 1, 0, 2, 1, 1, 3, 0, n);
    Fields(ROW_5[6], ROW_5[7], 57, 3, 1, 0, 0, 1, 2, 2, n);
    Fields(ROW_5[8], ROW_5[9], 61, 3, 1, 1, 1, 0, 2, 0, n);
    Fields(ROW_5[10], ROW_5[11], 60, 1, 0, 3, 0, 0, 3, 2, n);
    Fields(ROW_5[12], ROW_5[13], 62, 2, 0, 0, 1, 0, 1, 0, n);
    Fields(ROW_5[14], ROW_5[15], 63, 0, 1, 2, 0, 0, 0, 2, n);
  }

  lemma Row6(n: nat)
    ensures PairsOf(6, n)
  {
    Fields(ROW_6[0], ROW_6[1], 45, 3, 0, 2, 1, 0, 0, 0, n);
    Fields(ROW_6[2], ROW_6[3], 44, 1, 1, 0, 0, 0, 1, 2, n);
    Fields(ROW_6[4], ROW_6[5], 46, 2, 1, 3, 1, 0, 3, 0, n);
    Fields(ROW_6[6], ROW_6[7], 47, 0, 0, 1, 0, 0, 2, 2, n);
    Fields(ROW_6[8], ROW_6[9], 43, 0, 0, 0, 1, 1, 2, 0, n);
    Fields(ROW_6[10], ROW_6[11], 42, 2, 1, 2, 0, 1, 3, 2, n);
    Fields(ROW_6[12], ROW_6[13], 40, 1, 1, 1, 1, 1, 1, 0, n);
    Fields(ROW_6[14], ROW_6[15], 41, 3, 0, 3, 0, 1, 0, 2, n);
  }

  lemma Row7(n: nat)
    ensures PairsOf(7, n)
  {
    Fields(ROW_7[0], ROW_7[1], 32, 1, 1, 2, 0, 1, 0, 0, n);
    Fields(ROW_7[2], ROW_7[3], 33, 3, 0, 0, 1, 1, 1, 2, n);
    Fields(ROW_7[4], ROW_7[5], 35, 0, 0, 3, 0, 1, 3, 0, n);
    Fields(ROW_7[6], ROW_7[7], 34, 2, 1, 1, 1, 1, 2, 2, n);
    Fields(ROW_7[8], ROW_7[9], 38, 2, 1, 0, 0, 0, 2, 0, n);
    Fields(ROW_7[10], ROW_7[11], 39, 0, 0, 2, 1, 0, 3, 2, n);
    Fields(ROW_7[12], ROW_7[13], 37, 3, 0, 1, 0, 0, 1, 0, n);
    Fields(ROW_7[14], ROW_7[15], 36, 1, 1, 3, 1, 0, 0, 2, n);
  }

  lemma Row8(n: nat)
    ensures PairsOf(8, n)
  {
    Fields(ROW_8[0], ROW_8[1], 109, 0, 1, 2, 0, 0, 0, 0, n);
    Fields(ROW_8[2], ROW_8[3], 108, 2, 0, 0, 1, 0, 1, 2, n);
    Fields(ROW_8[4], ROW_8[5], 110, 1, 0, 3, 0, 0, 3, 0, n);
    Fields(ROW_8[6], ROW_8[7], 111, 3, 1, 1, 1, 0, 2, 2, n);
    Fields(ROW_8[8], ROW_8[9], 107, 3, 1, 0, 0, 1, 2, 0, n);
    Fields(ROW_8[10], ROW_8[11], 106, 1, 0, 2, 1, 1, 3, 2, n);
    Fields(ROW_8[12], ROW_8[13], 104, 2, 0, 1, 0, 1, 1, 0, n);
    Fields(ROW_8[14], ROW_8[15], 105, 0, 1, 3, 1, 1, 0, 2, n);
  }

  lemma Row9(n: nat)
    ensures PairsOf(9, n)
  {
    Fields(ROW_9[0], ROW_9[1], 96, 2, 0, 2, 1, 1, 0, 0, n);
    Fields(ROW_9[2], ROW_9[3], 97, 0, 1, 0, 0, 1, 1, 2, n);
    Fields(ROW_9[4], ROW_9[5], 99, 3, 1, 3, 1, 1, 3, 0, n);
    Fields(ROW_9[6], ROW_9[7], 98, 1, 0, 1, 0, 1, 2, 2, n);
    Fields(ROW_9[8], ROW_9[9], 102, 1, 0, 0, 1, 0, 2, 0, n);
    Fields(ROW_9[10], ROW_9[11], 103, 3, 1, 2, 0, 0, 3, 2, n);
    Fields(ROW_9[12], ROW_9[13], 101, 0, 1, 1, 1, 0, 1, 0, n);
    Fields(ROW_9[14], ROW_9[15], 100, 2, 0, 3, 0, 0, 0, 2, n);
  }

  lemma Row10(n: nat)
    ensures PairsOf(10, n)
  {
    Fields(ROW_10[0], ROW_10[1], 118, 1, 1, 3, 1, 0, 0, 0, n);
    Fields(ROW_10[2], ROW_10[3], 119, 3, 0, 1, 0, 0, 1, 2, n);
    Fields(ROW_10[4], ROW_10[5], 117, 0, 0, 2, 1, 0, 3, 0, n);
    Fields(ROW_10[6], ROW_10[7], 116, 2, 1, 0, 0, 0, 2, 2, n);
    Fields(ROW_10[8], ROW_10[9], 112, 2, 1, 1, 1, 1, 2, 0, n);
    Fields(ROW_10[10], ROW_10[11], 113, 0, 0, 3, 0, 1, 3, 2, n);
    Fields(ROW_10[12], ROW_10[13], 115, 3, 0, 0, 1, 1, 1, 0, n);
    Fields(ROW_10[14], ROW_10[15], 114, 1, 1, 2, 0, 1, 0, 2, n);
  }

  lemma Row11(n: nat)
    ensures PairsOf(11, n)
  {
    Fields(ROW_11[0], ROW_11[1], 123, 3, 0, 3, 0, 1, 0, 0, n);
    Fields(ROW_11[2], ROW_11[3], 122, 1, 1, 1, 1, 1, 1, 2, n);
    Fields(ROW_11[4], ROW_11[5], 120, 2, 1, 2, 0, 1, 3, 0, n);
    Fields(ROW_11[6], ROW_11[7], 121, 0, 0, 0, 1, 1, 2, 2, n);
    Fields(ROW_11[8], ROW_11[9], 125, 0, 0, 1, 0, 0, 2, 0, n);
    Fields(ROW_11[10], ROW_11[11], 124, 2, 1, 3, 1, 0, 3, 2, n);
    Fields(ROW_11[12], ROW_11[13], 126, 1, 1, 0, 0, 0, 1, 0, n);
    Fields(ROW_11[14], ROW_11[15], 127, 3, 0, 2, 1, 0, 0, 2, n);
  }

  lemma Row12(n: nat)
    ensures PairsOf(12, n)
  {
    Fields(ROW_12[0], ROW_12[1], 91, 2, 1, 1, 0, 0, 0, 0, n);
    Fields(ROW_12[2], ROW_12[3], 90, 0, 0, 3, 1, 0, 1, 2, n);
    Fields(ROW_12[4], ROW_12[5], 88, 3, 0, 0, 0, 0, 3, 0, n);
    Fields(ROW_12[6], ROW_12[7], 89, 1, 1, 2, 1, 0, 2, 2, n);
    Fields(ROW_12[8], ROW_12[9], 93, 1, 1, 3, 0, 1, 2, 0, n);
    Fields(ROW_12[10], ROW_12[11], 92, 3, 0, 1, 1, 1, 3, 2, n);
    Fields(ROW_12[12], ROW_12[13], 94, 0, 0, 2, 0, 1, 1, 0, n);
    Fields(ROW_12[14], ROW_12[15], 95, 2, 1, 0, 1, 1, 0, 2, n);
  }

  lemma Row13(n: nat)
    ensures PairsOf(13, n)
  {
    Fields(ROW_13[0], ROW_13[1], 86, 0, 0, 1, 1, 1, 0, 0, n);
    Fields(ROW_13[2], ROW_13[3], 87, 2, 1, 3, 0, 1, 1, 2, n);
    Fields(ROW_13[4], ROW_13[5], 85, 1, 1, 0, 1, 1, 3, 0, n);
    Fields(ROW_13[6], ROW_13[7], 84, 3, 0, 2, 0, 1, 2, 2, n);
    Fields(ROW_13[8], ROW_13[9], 80, 3, 0, 3, 1, 0, 2, 0, n);
    Fields(ROW_13[10], ROW_13[11], 81, 1, 1, 1, 0, 0, 3, 2, n);
    Fields(ROW_13[12], ROW_13[13], 83, 2, 1, 2, 1, 0, 1, 0, n);
    Fields(ROW_13[14], ROW_13[15], 82, 0, 0, 0, 0, 0, 0, 2, n);
  }

  lemma Row14(n: nat)
    ensures PairsOf(14, n)
  {
    Fields(ROW_14[0], ROW_14[1], 64, 3, 1, 0, 1, 0, 0, 0, n);
    Fields(ROW_14[2], ROW_14[3], 65, 1, 0, 2, 0, 0, 1, 2, n);
    Fields(ROW_14[4], ROW_14[5], 67, 2, 0, 1, 1, 0, 3, 0, n);
    Fields(ROW_14[6], ROW_14[7], 66, 0, 1, 3, 0, 0, 2, 2, n);
    Fields(ROW_14[8], ROW_14[9], 70, 0, 1, 2, 1, 1, 2, 0, n);
    Fields(ROW_14[10], ROW_14[11], 71, 2, 0, 0, 0, 1, 3, 2, n);
    Fields(ROW_14[12], ROW_14[13], 69, 1, 0, 3, 1, 1, 1, 0, n);
    Fields(ROW_14[14], ROW_14[15], 68, 3, 1, 1, 0, 1, 0, 2, n);
  }

  lemma Row15(n: nat)
    ensures PairsOf(15, n)
  {
    Fields(ROW_15[0], ROW_15[1], 77, 1, 0, 0, 0, 1, 0, 0, n);
    Fields(ROW_15[2], ROW_15[3], 76, 3, 1, 2, 1, 1, 1, 2, n);
    Fields(ROW_15[4], ROW_15[5], 78, 0, 1, 1, 0, 1, 3, 0, n);
    Fields(ROW_15[6], ROW_15[7], 79, 2, 0, 3, 1, 1, 2, 2, n);
    Fields(ROW_15[8], ROW_15[9], 75, 2, 0, 2, 0, 0, 2, 0, n);
    Fields(ROW_15[10], ROW_15[11], 74, 0, 1, 0, 1, 0, 3, 2, n);
    Fields(ROW_15[12], ROW_15[13], 72, 3, 1, 3, 0, 0, 1, 0, n);
    Fields(ROW_15[14], ROW_15[15], 73, 1, 0, 1, 1, 0, 0, 2, n);
  }

  lemma AnyRow(r: nat, n: nat)
    requires r < 16
    ensures PairsOf(r, n)
  {
    if r == 0 {
      Row0(n);
    } else if r == 1 {
      Row1(n);
    } else if r == 2 {
      Row2(n);
    } else if r == 3 {
      Row3(n);
    } else if r == 4 {
      Row4(n);
    } else if r == 5 {
      Row5(n);
    } else if r == 6 {
      Row6(n);
    } else if r == 7 {
      Row7(n);
    } else if r == 8 {
      Row8(n);
    } else if r == 9 {
      Row9(n);
    } else if r == 10 {
      Row10(n);
    } else if r == 11 {
      Row11(n);
    } else if r == 12 {
      Row12(n);
    } else if r == 13 {
      Row13(n);
    } else if r == 14 {
      Row14(n);
    } else if r == 15 {
      Row15(n);
    }
  }

  lemma Pair(k: nat, n: nat)
    requires k < 128
    ensures Lut(2 * k) == 2 * Lut(k)
    ensures Lut(2 * k + 1) == Xor(Lut(2 * k), 0x01b4c0)
  {
    hide Xor, Row, IsXor;
    var r, j := k / 8, k % 8;
    assert 2 * k / 16 == r && 2 * k % 16 == 2 * j && (2 * k + 1) / 16 == r && (2 * k + 1) % 16 == 2 * j + 1;
    assert k / 16 == r / 2 && k % 16 == 8 * (r % 2) + j;
    assert PairOf(r, j, n) by {
      AnyRow(r, n);
    }
    IsXorMeaning(Lut(2 * k + 1), Lut(2 * k), 0x01b4c0, n);
  }

  function Table(): (t: seq<u24>)
    ensures |t| == 256
  {
    seq(256, key requires 0 <= key < 256 => Lut(key))
  }

  ghost predicate BuiltAt(t: seq<nat>, k: nat)
    requires |t| == 256 && k < 128
  {
    t[2 * k] == 2 * t[k] && t[2 * k + 1] == Xor(t[2 * k], 0x01b4c0)
  }

  /** A table that grows by doubling and by exclusive or with 0x01b4c0. */
  ghost predicate IsBuilt(t: seq<nat>) {
    && |t| == 256
    && t[0] == 0
    && forall k :: 0 <= k < 128 ==> BuiltAt(t, k)
  }

  lemma TableAt(k: nat)
    requires k < 128
    ensures BuiltAt(Table(), k)
  {
    Pair(k, 24);
  }

  lemma TableIsBuilt()
    ensures IsBuilt(Table())
  {
    assert Table()[0] == Lut(0) == 0;
    forall k | 0 <= k < 128
      ensures BuiltAt(Table(), k)
    {
      TableAt(k);
    }
  }
}
