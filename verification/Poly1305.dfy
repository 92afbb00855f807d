/** Poly1305 as the portable code of driver/crypto.c computes it, in five limbs of 26 bits, against
    the definition in section 2.5 of RFC 8439. */
module Poly1305 {
  import opened Words

  // ---------------------------------------------------------------- the definition

  const P: nat := 0x4_0000_0000_0000_0000_0000_0000_0000_0000 - 5

  const BLOCK_SIZE: nat := 16

  /** Byte i of r with the bits cleared that the clamp clears. */
  function ClampByte(b: byte, i: nat): byte {
    if i == 3 || i == 7 || i == 11 || i == 15 then b % 16
    else if i == 4 || i == 8 || i == 12 then b - b % 4
    else b
  }

  function Clamp(k: seq<byte>): seq<byte>
  {
    seq(|k|, i requires 0 <= i < |k| => ClampByte(k[i], i))
  }

  /** A block of up to 16 bytes as a number, with a bit set beyond its end. */
  function BlockVal(b: seq<byte>): nat {
    Le(b) + Pow256(|b|)
  }

  /** The accumulator after one block. */
  function Step(r: nat, acc: nat, block: seq<byte>): nat {
    (acc + BlockVal(block)) * r % P
  }

  /** The accumulator after the message. */
  function Eval(r: nat, acc: nat, msg: seq<byte>): nat
    decreases |msg|
  {
    if msg == [] then acc
    else if |msg| < BLOCK_SIZE then Step(r, acc, msg)
    else Eval(r, Step(r, acc, msg[..BLOCK_SIZE]), msg[BLOCK_SIZE..])
  }

  /** The tag of a message under a 32-byte key. */
  function Tag(key: seq<byte>, msg: seq<byte>): seq<byte>
    requires |key| == 32
  {
    LeBytes((Eval(Le(Clamp(key[..16])), 0, msg) + Le(key[16..])) % TWO128, 16)
  }

  /** Whole blocks first, then the rest. */
  lemma {:induction false} EvalConcat(r: nat, acc: nat, a: seq<byte>, b: seq<byte>)
    requires |a| % BLOCK_SIZE == 0
    ensures Eval(r, acc, a + b) == Eval(r, Eval(r, acc, a), b)
    decreases |a|
  {
    hide Step;
    if a == [] {
      assert a + b == b;
    } else {
      assert (a + b)[..BLOCK_SIZE] == a[..BLOCK_SIZE] && (a + b)[BLOCK_SIZE..] == a[BLOCK_SIZE..] + b;
      EvalConcat(r, Step(r, acc, a[..BLOCK_SIZE]), a[BLOCK_SIZE..], b);
    }
  }

  // ---------------------------------------------------------------- limbs

  const X2: nat := 0x10_0000_0000_0000
  const X3: nat := 0x4000_0000_0000_0000_0000
  const X4: nat := 0x100_0000_0000_0000_0000_0000_0000

  datatype Limbs = Limbs(a0: nat, a1: nat, a2: nat, a3: nat, a4: nat)

  function Val(l: Limbs): nat {
    l.a0 + TWO26 * l.a1 + X2 * l.a2 + X3 * l.a3 + X4 * l.a4
  }

  /** What every block leaves behind, and every block may start from. */
  predicate Reduced(h: Limbs) {
    h.a0 < TWO26 && h.a1 < TWO26 + 64 && h.a2 < TWO26 && h.a3 < TWO26 && h.a4 < TWO26
  }

  /** The limbs of a clamped r. */
  predicate Clamped(r: Limbs) {
    r.a0 < TWO26 && r.a1 <= 0x3ff_ff03 && r.a2 <= 0x3ff_c0ff && r.a3 <= 0x3f0_3fff && r.a4 <= 0x0f_ffff
  }

  /** A state with a block added: H4 has room for the bit beyond the block. */
  predicate Loaded(h: Limbs) {
    h.a0 < 2 * TWO26 && h.a1 < 2 * TWO26 + 64 && h.a2 < 2 * TWO26 && h.a3 < 2 * TWO26 && h.a4 < TWO26 + 0x200_0000
  }

  // ---------------------------------------------------------------- h *= r

  /** D0 to D4 over the integers; the code computes them in 64 bits. */
  function Products(h: Limbs, r: Limbs, s1: nat, s2: nat, s3: nat, s4: nat): Limbs {
    Limbs(
      h.a0 * r.a0 + h.a1 * s4 + h.a2 * s3 + h.a3 * s2 + h.a4 * s1,
      h.a0 * r.a1 + h.a1 * r.a0 + h.a2 * s4 + h.a3 * s3 + h.a4 * s2,
      h.a0 * r.a2 + h.a1 * r.a1 + h.a2 * r.a0 + h.a3 * s4 + h.a4 * s3,
      h.a0 * r.a3 + h.a1 * r.a2 + h.a2 * r.a1 + h.a3 * r.a0 + h.a4 * s4,
      h.a0 * r.a4 + h.a1 * r.a3 + h.a2 * r.a2 + h.a3 * r.a1 + h.a4 * r.a0)
  }

  lemma Row(h: nat, r: Limbs)
    ensures h * Val(r) == h * r.a0 + TWO26 * (h * r.a1) + X2 * (h * r.a2) + X3 * (h * r.a3) + X4 * (h * r.a4)
  {
  }

  lemma Rows(h: Limbs, v: nat)
    ensures Val(h) * v == h.a0 * v + TWO26 * (h.a1 * v) + X2 * (h.a2 * v) + X3 * (h.a3 * v) + X4 * (h.a4 * v)
  {
  }

  lemma TimesFive(h: nat, r: nat)
    ensures h * (r * 5) == 5 * (h * r)
  {
  }

  /** Folding the high half of the school-book product: 2^130 is 5 modulo p. */
  lemma Fold(
    p00: nat, p01: nat, p02: nat, p03: nat, p04: nat, p10: nat, p11: nat, p12: nat, p13: nat, p14: nat,
    p20: nat, p21: nat, p22: nat, p23: nat, p24: nat, p30: nat, p31: nat, p32: nat, p33: nat, p34: nat,
    p40: nat, p41: nat, p42: nat, p43: nat, p44: nat)
    ensures (p00 + TWO26 * p01 + X2 * p02 + X3 * p03 + X4 * p04)
         + TWO26 * (p10 + TWO26 * p11 + X2 * p12 + X3 * p13 + X4 * p14)
         + X2 * (p20 + TWO26 * p21 + X2 * p22 + X3 * p23 + X4 * p24)
         + X3 * (p30 + TWO26 * p31 + X2 * p32 + X3 * p33 + X4 * p34)
         + X4 * (p40 + TWO26 * p41 + X2 * p42 + X3 * p43 + X4 * p44)
      == (p00 + 5 * p14 + 5 * p23 + 5 * p32 + 5 * p41)
         + TWO26 * (p01 + p10 + 5 * p24 + 5 * p33 + 5 * p42)
         + X2 * (p02 + p11 + p20 + 5 * p34 + 5 * p43)
         + X3 * (p03 + p12 + p21 + p30 + 5 * p44)
         + X4 * (p04 + p13 + p22 + p31 + p40)
         + P * (p14 + p23 + p32 + p41 + TWO26 * (p24 + p33 + p42) + X2 * (p34 + p43) + X3 * p44)
  {
  }

  /** The product limb by limb. */
  function RowSum(h: Limbs, r: Limbs): nat {
    (h.a0 * r.a0 + TWO26 * (h.a0 * r.a1) + X2 * (h.a0 * r.a2) + X3 * (h.a0 * r.a3) + X4 * (h.a0 * r.a4))
    + TWO26 * (h.a1 * r.a0 + TWO26 * (h.a1 * r.a1) + X2 * (h.a1 * r.a2) + X3 * (h.a1 * r.a3) + X4 * (h.a1 * r.a4))
    + X2 * (h.a2 * r.a0 + TWO26 * (h.a2 * r.a1) + X2 * (h.a2 * r.a2) + X3 * (h.a2 * r.a3) + X4 * (h.a2 * r.a4))
    + X3 * (h.a3 * r.a0 + TWO26 * (h.a3 * r.a1) + X2 * (h.a3 * r.a2) + X3 * (h.a3 * r.a3) + X4 * (h.a3 * r.a4))
    + X4 * (h.a4 * r.a0 + TWO26 * (h.a4 * r.a1) + X2 * (h.a4 * r.a2) + X3 * (h.a4 * r.a3) + X4 * (h.a4 * r.a4))
  }

  /** What is folded down from above 2^130. */
  function Folded(h: Limbs, r: Limbs): nat {
    h.a1 * r.a4 + h.a2 * r.a3 + h.a3 * r.a2 + h.a4 * r.a1
    + TWO26 * (h.a2 * r.a4 + h.a3 * r.a3 + h.a4 * r.a2)
    + X2 * (h.a3 * r.a4 + h.a4 * r.a3)
    + X3 * (h.a4 * r.a4)
  }

  lemma RowSumVal(h: Limbs, r: Limbs)
    ensures Val(h) * Val(r) == RowSum(h, r)
  {
    Rows(h, Val(r));
    Row(h.a0, r); Row(h.a1, r); Row(h.a2, r); Row(h.a3, r); Row(h.a4, r);
    hide Val;
  }

  lemma FoldedVal(h: Limbs, r: Limbs)
    ensures RowSum(h, r) == Val(Products(h, r, r.a1 * 5, r.a2 * 5, r.a3 * 5, r.a4 * 5)) + P * Folded(h, r)
  {
    TimesFive(h.a1, r.a4); TimesFive(h.a2, r.a3); TimesFive(h.a3, r.a2); TimesFive(h.a4, r.a1);
    TimesFive(h.a2, r.a4); TimesFive(h.a3, r.a3); TimesFive(h.a4, r.a2);
    TimesFive(h.a3, r.a4); TimesFive(h.a4, r.a3); TimesFive(h.a4, r.a4);
    Fold(h.a0 * r.a0, h.a0 * r.a1, h.a0 * r.a2, h.a0 * r.a3, h.a0 * r.a4, h.a1 * r.a0, h.a1 * r.a1, h.a1 *
         r.a2, h.a1 * r.a3, h.a1 * r.a4, h.a2 * r.a0, h.a2 * r.a1, h.a2 * r.a2, h.a2 * r.a3, h.a2 * r.a4,
         h.a3 * r.a0, h.a3 * r.a1, h.a3 * r.a2, h.a3 * r.a3, h.a3 * r.a4, h.a4 * r.a0, h.a4 * r.a1, h.a4 *
         r.a2, h.a4 * r.a3, h.a4 * r.a4);
  }

  /** The five sums are the product, up to a multiple of p. */
  lemma ProductsVal(h: Limbs, r: Limbs)
    ensures exists k: nat ::
      Val(h) * Val(r) == Val(Products(h, r, r.a1 * 5, r.a2 * 5, r.a3 * 5, r.a4 * 5)) + P * k
  {
    hide Val, RowSum, Products, Folded;
    RowSumVal(h, r);
    FoldedVal(h, r);
  }

  // ---------------------------------------------------------------- bounds

  /** No sum overflows, and no carry is truncated. */
  lemma ProductsBound(h: Limbs, r: Limbs)
    requires Loaded(h) && Clamped(r)
    ensures var d := Products(h, r, r.a1 * 5, r.a2 * 5, r.a3 * 5, r.a4 * 5);
      && d.a0 < 30 * X2 && d.a1 < 22 * X2 && d.a2 < 14 * X2 && d.a3 < 9 * X2 && d.a4 < 31 * 0x4_0000_0000_0000
  {
    var m: nat, m1: nat, m4: nat := 2 * TWO26 - 1, 2 * TWO26 + 63, TWO26 + 0x1ff_ffff;
    MulBound(h.a0, r.a0, m, 0x3ff_ffff); MulBound(h.a1, r.a4 * 5, m1, 5 * 0x0f_ffff);
    MulBound(h.a2, r.a3 * 5, m, 5 * 0x3f0_3fff); MulBound(h.a3, r.a2 * 5, m, 5 * 0x3ff_c0ff);
    MulBound(h.a4, r.a1 * 5, m4, 5 * 0x3ff_ff03);
    MulBound(h.a0, r.a1, m, 0x3ff_ff03); MulBound(h.a1, r.a0, m1, 0x3ff_ffff);
    MulBound(h.a2, r.a4 * 5, m, 5 * 0x0f_ffff); MulBound(h.a3, r.a3 * 5, m, 5 * 0x3f0_3fff);
    MulBound(h.a4, r.a2 * 5, m4, 5 * 0x3ff_c0ff);
    MulBound(h.a0, r.a2, m, 0x3ff_c0ff); MulBound(h.a1, r.a1, m1, 0x3ff_ff03); MulBound(h.a2, r.a0, m, 0x3ff_ffff);
    MulBound(h.a3, r.a4 * 5, m, 5 * 0x0f_ffff); MulBound(h.a4, r.a3 * 5, m4, 5 * 0x3f0_3fff);
    MulBound(h.a0, r.a3, m, 0x3f0_3fff); MulBound(h.a1, r.a2, m1, 0x3ff_c0ff); MulBound(h.a2, r.a1, m, 0x3ff_ff03);
    MulBound(h.a3, r.a0, m, 0x3ff_ffff); MulBound(h.a4, r.a4 * 5, m4, 5 * 0x0f_ffff);
    MulBound(h.a0, r.a4, m, 0x0f_ffff); MulBound(h.a1, r.a3, m1, 0x3f0_3fff); MulBound(h.a2, r.a2, m, 0x3ff_c0ff);
    MulBound(h.a3, r.a1, m, 0x3ff_ff03); MulBound(h.a4, r.a0, m4, 0x3ff_ffff);
  }

  // ---------------------------------------------------------------- the partial reduction

  /** (UINT32)X & 0x3ffffff */
  function Low26(x: nat): (y: nat)
    ensures y < TWO26
  {
    U32(x) % TWO26
  }

  /** The carries of one round, with every truncation the code makes. */
  function Carry(d: Limbs): Limbs {
    var c0 := U32(d.a0 / TWO26);
    var d1 := U64(d.a1 + c0);
    var c1 := U32(d1 / TWO26);
    var d2 := U64(d.a2 + c1);
    var c2 := U32(d2 / TWO26);
    var d3 := U64(d.a3 + c2);
    var c3 := U32(d3 / TWO26);
    var d4 := U64(d.a4 + c3);
    var c4 := U32(d4 / TWO26);
    var h0 := U32(Low26(d.a0) + U32(c4 * 5));
    Limbs(h0 % TWO26, U32(Low26(d1) + h0 / TWO26), Low26(d2), Low26(d3), Low26(d4))
  }

  /** One carry: nothing is truncated. */
  lemma CarryOut(d: nat)
    requires d < TWO26 * TWO32
    ensures U64(d) == d && U32(d / TWO26) == d / TWO26 && Low26(d) == d % TWO26
    ensures d == TWO26 * (d / TWO26) + d % TWO26
  {
  }

  /** The carries over the integers. */
  lemma CarryIs(d: Limbs, c0: nat, c1: nat, c2: nat, c3: nat, c4: nat, g0: nat)
    requires d.a0 < 30 * X2 && d.a1 < 22 * X2 && d.a2 < 14 * X2 && d.a3 < 9 * X2 && d.a4 < 31 * 0x4_0000_0000_0000
    requires c0 == d.a0 / TWO26 && c1 == (d.a1 + c0) / TWO26 && c2 == (d.a2 + c1) / TWO26
    requires c3 == (d.a3 + c2) / TWO26 && c4 == (d.a4 + c3) / TWO26 && g0 == d.a0 % TWO26 + 5 * c4
    ensures g0 / TWO26 < 64
    ensures Carry(d) == Limbs(g0 % TWO26, (d.a1 + c0) % TWO26 + g0 / TWO26,
                              (d.a2 + c1) % TWO26, (d.a3 + c2) % TWO26, (d.a4 + c3) % TWO26)
  {
    CarrySizes(d, c0, c1, c2, c3, c4);
    CarryFrom(d, d.a1 + c0, d.a2 + c1, d.a3 + c2, d.a4 + c3, c0, c1, c2, c3, c4, g0);
  }

  lemma CarryFrom(d: Limbs, d1: nat, d2: nat, d3: nat, d4: nat, c0: nat, c1: nat, c2: nat, c3: nat, c4: nat, g0: nat)
    requires d1 == d.a1 + c0 && d2 == d.a2 + c1 && d3 == d.a3 + c2 && d4 == d.a4 + c3
    requires d.a0 < TWO26 * TWO32 && d1 < TWO26 * TWO32 && d2 < TWO26 * TWO32 && d3 < TWO26 * TWO32 && d4 < TWO26 * TWO32
    requires c0 == d.a0 / TWO26 && c1 == d1 / TWO26 && c2 == d2 / TWO26 && c3 == d3 / TWO26 && c4 == d4 / TWO26
    requires c4 <= 31 * 0x100_0000 + 10 && g0 == d.a0 % TWO26 + 5 * c4
    ensures g0 / TWO26 < 64
    ensures Carry(d) == Limbs(g0 % TWO26, d1 % TWO26 + g0 / TWO26, d2 % TWO26, d3 % TWO26, d4 % TWO26)
  {
    hide Low26, U64, U32;
    CarryOut(d.a0);
    CarryOut(d1);
    CarryOut(d2);
    CarryOut(d3);
    CarryOut(d4);
    LastCarry(d.a0 % TWO26, c4, d1 % TWO26, g0);
  }

  lemma LastCarry(r0: nat, c4: nat, r1: nat, g0: nat)
    requires r0 < TWO26 && r1 < TWO26 && c4 <= 31 * 0x100_0000 + 10 && g0 == r0 + 5 * c4
    ensures g0 / TWO26 < 64 && U32(c4 * 5) == 5 * c4 && U32(r0 + 5 * c4) == g0 && U32(r1 + g0 / TWO26) == r1 + g0 / TWO26
  {
  }

  lemma Small32(x: nat)
    requires x < TWO32
    ensures U32(x) == x
  {
  }

  lemma CarrySizes(d: Limbs, c0: nat, c1: nat, c2: nat, c3: nat, c4: nat)
    requires d.a0 < 30 * X2 && d.a1 < 22 * X2 && d.a2 < 14 * X2 && d.a3 < 9 * X2 && d.a4 < 31 * 0x4_0000_0000_0000
    requires c0 == d.a0 / TWO26 && c1 == (d.a1 + c0) / TWO26 && c2 == (d.a2 + c1) / TWO26
    requires c3 == (d.a3 + c2) / TWO26 && c4 == (d.a4 + c3) / TWO26
    ensures d.a1 + c0 < TWO26 * TWO32 && d.a2 + c1 < TWO26 * TWO32 && d.a3 + c2 < TWO26 * TWO32 && d.a4 + c3 < TWO26 * TWO32
    ensures c4 <= 31 * 0x100_0000 + 10
  {
  }

  /** Moving carries up keeps the value; the last one comes back five times. */
  lemma CarryMoves(d: Limbs, r: Limbs, c0: nat, c1: nat, c2: nat, c3: nat, c4: nat, e: nat)
    requires d.a0 == TWO26 * c0 + r.a0 && d.a1 + c0 == TWO26 * c1 + r.a1 && d.a2 + c1 == TWO26 * c2 + r.a2
    requires d.a3 + c2 == TWO26 * c3 + r.a3 && d.a4 + c3 == TWO26 * c4 + r.a4
    requires r.a0 + 5 * c4 >= TWO26 * e
    ensures Val(d) == Val(Limbs(r.a0 + 5 * c4 - TWO26 * e, r.a1 + e, r.a2, r.a3, r.a4)) + P * c4
  {
  }

  lemma CarryVal(d: Limbs)
    requires d.a0 < 30 * X2 && d.a1 < 22 * X2 && d.a2 < 14 * X2 && d.a3 < 9 * X2 && d.a4 < 31 * 0x4_0000_0000_0000
    ensures Reduced(Carry(d))
    ensures exists k: nat :: Val(d) == Val(Carry(d)) + P * k
  {
    var c0 := d.a0 / TWO26;
    var c1 := (d.a1 + c0) / TWO26;
    var c2 := (d.a2 + c1) / TWO26;
    var c3 := (d.a3 + c2) / TWO26;
    var c4 := (d.a4 + c3) / TWO26;
    var r := Limbs(d.a0 % TWO26, (d.a1 + c0) % TWO26, (d.a2 + c1) % TWO26, (d.a3 + c2) % TWO26, (d.a4 + c3) % TWO26);
    var g0 := r.a0 + 5 * c4;
    CarryIs(d, c0, c1, c2, c3, c4, g0);
    hide Carry;
    CarryMoves(d, r, c0, c1, c2, c3, c4, g0 / TWO26);
    hide Val;
    assert Val(d) == Val(Carry(d)) + P * c4;
  }

  // ---------------------------------------------------------------- h += m

  function Absorb(h: Limbs, m: seq<byte>, hibit: nat): Limbs
    requires |m| >= BLOCK_SIZE
  {
    Limbs(
      U32(h.a0 + Le32(m, 0) % TWO26),
      U32(h.a1 + Le32(m, 3) / 4 % TWO26),
      U32(h.a2 + Le32(m, 6) / 16 % TWO26),
      U32(h.a3 + Le32(m, 9) / 64 % TWO26),
      U32(h.a4 + Or(Le32(m, 12) / 256, hibit)))
  }

  lemma Le16(m: seq<byte>)
    requires |m| == 16
    ensures Le(m) == Le32(m, 0) + TWO32 * Le32(m, 4) + TWO64 * Le32(m, 8) + TWO64 * TWO32 * Le32(m, 12)
  {
    LeFour(m);
    LeFour(m[4..]);
    LeFour(m[8..]);
    LeFour(m[12..]);
    assert m[4..][4..] == m[8..] && m[8..][4..] == m[12..] && m[12..][4..] == [];
    assert Le(m[12..]) == Le32(m, 12);
  }

  /** Four bytes from inside a number, shifted down by 2, 4 or 6 and cut to 26 bits. */
  lemma Limb1(b: byte, x: nat)
    requires x < 0x100_0000
    ensures ((b as nat) + 0x100 * x) / 4 % TWO26 == (b as nat) / 4 + 64 * (x % 0x10_0000)
  {
  }

  lemma Limb2(b: byte, x: nat)
    requires x < 0x100_0000
    ensures ((b as nat) + 0x100 * x) / 16 % TWO26 == (b as nat) / 16 + 16 * (x % 0x40_0000)
  {
  }

  lemma Limb3(b: byte, x: nat)
    requires x < 0x100_0000
    ensures ((b as nat) + 0x100 * x) / 64 % TWO26 == (b as nat) / 64 + 4 * x
  {
  }

  lemma Pow2Is()
    ensures Pow2(24) == 0x100_0000 && Pow2(26) == TWO26 && Pow2(8) == 0x100
  {
    assert Pow2(4) == 16 && Pow2(8) == 16 * Pow2(4) && Pow2(12) == 16 * Pow2(8) && Pow2(16) == 16 * Pow2(12);
    assert Pow2(20) == 16 * Pow2(16) && Pow2(24) == 16 * Pow2(20) && Pow2(26) == 4 * Pow2(24);
  }

  /** The top limb with the bit beyond the block. */
  lemma TopLimb(m: seq<byte>, pad: nat)
    requires |m| >= 16 && pad <= 1
    ensures Or(Le32(m, 12) / 256, pad * 0x100_0000)
         == (m[13] as nat) + 0x100 * (m[14] as nat) + 0x1_0000 * (m[15] as nat) + 0x100_0000 * pad
  {
    hide Or, Pow2;
    Pow2Is();
    Twelfth(m[12], m[13], m[14], m[15]);
    OrShift(Le32(m, 12) / 256, pad, 24);
  }

  /** The low bits of three bytes. */
  lemma Cut(x: nat, y: nat, z: nat, k: nat)
    requires x < 256 && y < 256 && z < 256 && (k == 16 || k == 64)
    ensures (x + 0x100 * y + 0x1_0000 * z) % (0x1_0000 * k) == x + 0x100 * y + 0x1_0000 * (z % k)
  {
    ModUnique(x + 0x100 * y + 0x1_0000 * z, 0x1_0000 * k, z / k, x + 0x100 * y + 0x1_0000 * (z % k));
  }

  lemma FirstLimb(x: nat, y: nat, z: nat, w: nat)
    requires x < 256 && y < 256 && z < 256 && w < 256
    ensures (x + 0x100 * y + 0x1_0000 * z + 0x100_0000 * w) % TWO26 == x + 0x100 * y + 0x1_0000 * z + 0x100_0000 * (w % 4)
  {
  }

  lemma LowLimbs(m: seq<byte>)
    requires |m| >= 16
    ensures Le32(m, 0) % TWO26
         == (m[0] as nat) + 0x100 * (m[1] as nat) + 0x1_0000 * (m[2] as nat) + 0x100_0000 * ((m[3] as nat) % 4)
    ensures Le32(m, 3) / 4 % TWO26
         == (m[3] as nat) / 4 + 64 * ((m[4] as nat) + 0x100 * (m[5] as nat) + 0x1_0000 * ((m[6] as nat) % 16))
    ensures Le32(m, 6) / 16 % TWO26
         == (m[6] as nat) / 16 + 16 * ((m[7] as nat) + 0x100 * (m[8] as nat) + 0x1_0000 * ((m[9] as nat) % 64))
    ensures Le32(m, 9) / 64 % TWO26
         == (m[9] as nat) / 64 + 4 * ((m[10] as nat) + 0x100 * (m[11] as nat) + 0x1_0000 * (m[12] as nat))
  {
    FirstLimb(m[0], m[1], m[2], m[3]);
    SecondLimb(m);
    ThirdLimb(m);
    FourthLimb(m);
    hide Le32;
  }

  lemma SecondLimb(m: seq<byte>)
    requires |m| >= 16
    ensures Le32(m, 3) / 4 % TWO26
         == (m[3] as nat) / 4 + 64 * ((m[4] as nat) + 0x100 * (m[5] as nat) + 0x1_0000 * ((m[6] as nat) % 16))
  {
    var x := (m[4] as nat) + 0x100 * (m[5] as nat) + 0x1_0000 * (m[6] as nat);
    assert Le32(m, 3) == (m[3] as nat) + 0x100 * x;
    Limb1(m[3], x);
    Cut(m[4], m[5], m[6], 16);
    hide Le32;
  }

  lemma ThirdLimb(m: seq<byte>)
    requires |m| >= 16
    ensures Le32(m, 6) / 16 % TWO26
         == (m[6] as nat) / 16 + 16 * ((m[7] as nat) + 0x100 * (m[8] as nat) + 0x1_0000 * ((m[9] as nat) % 64))
  {
    var x := (m[7] as nat) + 0x100 * (m[8] as nat) + 0x1_0000 * (m[9] as nat);
    assert Le32(m, 6) == (m[6] as nat) + 0x100 * x;
    Limb2(m[6], x);
    Cut(m[7], m[8], m[9], 64);
    hide Le32;
  }

  lemma FourthLimb(m: seq<byte>)
    requires |m| >= 16
    ensures Le32(m, 9) / 64 % TWO26
         == (m[9] as nat) / 64 + 4 * ((m[10] as nat) + 0x100 * (m[11] as nat) + 0x1_0000 * (m[12] as nat))
  {
    var x := (m[10] as nat) + 0x100 * (m[11] as nat) + 0x1_0000 * (m[12] as nat);
    assert Le32(m, 9) == (m[9] as nat) + 0x100 * x;
    Limb3(m[9], x);
    hide Le32;
  }

  /** PadBit << 24 */
  function Hibit(pad: nat): nat {
    U32(pad * 0x100_0000)
  }

  lemma HibitIs(pad: nat)
    requires pad <= 1
    ensures Hibit(pad) == pad * 0x100_0000
  {
  }

  /** Adding a block adds its number, and the state stays small enough to multiply. */
  lemma AbsorbVal(h: Limbs, m: seq<byte>, pad: nat)
    requires Reduced(h) && |m| == 16 && pad <= 1
    ensures Loaded(Absorb(h, m, Hibit(pad)))
    ensures Val(Absorb(h, m, Hibit(pad))) == Val(h) + Le(m) + TWO128 * pad
  {
    LowLimbs(m);
    TopLimb(m, pad);
    Le16(m);
    HibitIs(pad);
    hide Or, Le, Hibit;
    var l := Limbs(Le32(m, 0) % TWO26, Le32(m, 3) / 4 % TWO26, Le32(m, 6) / 16 % TWO26, Le32(m, 9) / 64 % TWO26,
                   Or(Le32(m, 12) / 256, Hibit(pad)));
    assert l.a4 < 0x200_0000;
    AbsorbAdds(h, m, pad, l);
    BytesVal(m, l, pad);
  }

  lemma AbsorbAdds(h: Limbs, m: seq<byte>, pad: nat, l: Limbs)
    requires Reduced(h) && |m| == 16
    requires l == Limbs(Le32(m, 0) % TWO26, Le32(m, 3) / 4 % TWO26, Le32(m, 6) / 16 % TWO26, Le32(m, 9) / 64 % TWO26,
                        Or(Le32(m, 12) / 256, Hibit(pad))) && l.a4 < 0x200_0000
    ensures Absorb(h, m, Hibit(pad)) == Limbs(h.a0 + l.a0, h.a1 + l.a1, h.a2 + l.a2, h.a3 + l.a3, h.a4 + l.a4)
    ensures Loaded(Absorb(h, m, Hibit(pad)))
  {
    hide Or, Le32;
    Small32(h.a0 + l.a0); Small32(h.a1 + l.a1); Small32(h.a2 + l.a2); Small32(h.a3 + l.a3); Small32(h.a4 + l.a4);
    hide U32;
  }

  lemma BytesVal(m: seq<byte>, l: Limbs, pad: nat)
    requires |m| == 16
    requires l.a0 == (m[0] as nat) + 0x100 * (m[1] as nat) + 0x1_0000 * (m[2] as nat) + 0x100_0000 * ((m[3] as nat) % 4)
    requires l.a1 == (m[3] as nat) / 4 + 64 * ((m[4] as nat) + 0x100 * (m[5] as nat) + 0x1_0000 * ((m[6] as nat) % 16))
    requires l.a2 == (m[6] as nat) / 16 + 16 * ((m[7] as nat) + 0x100 * (m[8] as nat) + 0x1_0000 * ((m[9] as nat) % 64))
    requires l.a3 == (m[9] as nat) / 64 + 4 * ((m[10] as nat) + 0x100 * (m[11] as nat) + 0x1_0000 * (m[12] as nat))
    requires l.a4 == (m[13] as nat) + 0x100 * (m[14] as nat) + 0x1_0000 * (m[15] as nat) + 0x100_0000 * pad
    ensures Val(l) == Le32(m, 0) + TWO32 * Le32(m, 4) + TWO64 * Le32(m, 8) + TWO64 * TWO32 * Le32(m, 12) + TWO128 * pad
  {
  }

  // ---------------------------------------------------------------- a block

  function Times5(r: Limbs): (nat, nat, nat, nat) {
    (r.a1 * 5, r.a2 * 5, r.a3 * 5, r.a4 * 5)
  }

  /** What the code makes of the state and one block. */
  function Round(h: Limbs, r: Limbs, s: (nat, nat, nat, nat), m: seq<byte>, pad: nat): Limbs
    requires |m| >= BLOCK_SIZE
  {
    var d := Products(Absorb(h, m, Hibit(pad)), r, s.0, s.1, s.2, s.3);
    Carry(Limbs(U64(d.a0), U64(d.a1), U64(d.a2), U64(d.a3), U64(d.a4)))
  }

  /** Small sums are not truncated to 64 bits. */
  lemma Small64(x: nat)
    requires x < TWO64
    ensures U64(x) == x
  {
  }

  lemma RoundIs(h: Limbs, r: Limbs, m: seq<byte>, pad: nat, a: Limbs, d: Limbs)
    requires Clamped(r) && |m| == 16 && pad <= 1
    requires a == Absorb(h, m, Hibit(pad)) && Loaded(a)
    requires d == Products(a, r, r.a1 * 5, r.a2 * 5, r.a3 * 5, r.a4 * 5)
    ensures Round(h, r, Times5(r), m, pad) == Carry(d)
  {
    ProductsBound(a, r);
    hide Products, Absorb, Carry, U32;
    Small64(d.a0); Small64(d.a1); Small64(d.a2); Small64(d.a3); Small64(d.a4);
    hide U64;
  }

  lemma RoundMod(a: nat, r: nat, d: nat, c: nat, k1: nat, k2: nat, x: nat, y: nat)
    requires a * r == d + P * k1 && d == c + P * k2 && a == x + y
    ensures c % P == (x % P + y) * r % P
  {
    ModAdd(d, k1, P);
    ModAdd(c, k2, P);
    ModSum(x, y, r, P);
  }

  /** One block: bounds are kept, nothing overflows, and the state moves as the definition says. */
  lemma RoundVal(h: Limbs, r: Limbs, m: seq<byte>, pad: nat)
    requires Reduced(h) && Clamped(r) && |m| == 16 && pad <= 1
    ensures Reduced(Round(h, r, Times5(r), m, pad))
    ensures Val(Round(h, r, Times5(r), m, pad)) % P == (Val(h) % P + (Le(m) + TWO128 * pad)) * Val(r) % P
  {
    hide Val, Products, Absorb, Carry, Le, Reduced, Loaded, Clamped, Hibit, Round, Times5, P, TWO128;
    var a := Absorb(h, m, Hibit(pad));
    var d := Products(a, r, r.a1 * 5, r.a2 * 5, r.a3 * 5, r.a4 * 5);
    AbsorbVal(h, m, pad);
    RoundIs(h, r, m, pad, a, d);
    ProductsBound(a, r);
    ProductsVal(a, r);
    CarryVal(d);
    var k1: nat :| Val(a) * Val(r) == Val(d) + P * k1;
    var k2: nat :| Val(d) == Val(Carry(d)) + P * k2;
    RoundMod(Val(a), Val(r), Val(d), Val(Carry(d)), k1, k2, Val(h), Le(m) + TWO128 * pad);
  }

  lemma ModSum(x: nat, y: nat, r: nat, m: nat)
    requires m > 0
    ensures (x % m + y) * r % m == (x + y) * r % m
  {
    ModAdd(x % m + y, x / m, m);
    assert x + y == x % m + y + m * (x / m);
    ModMul(x + y, x % m + y, r, m);
  }

  // ---------------------------------------------------------------- the last reduction

  predicate Tight(h: Limbs) {
    h.a0 < TWO26 && h.a1 < TWO26 && h.a2 < TWO26 && h.a3 < TWO26 && h.a4 < TWO26
  }

  /** The full carry at the start of EmitCore. */
  function FullCarry(h: Limbs): Limbs {
    var h2 := U32(h.a2 + h.a1 / TWO26);
    var h3 := U32(h.a3 + h2 / TWO26);
    var h4 := U32(h.a4 + h3 / TWO26);
    var h0 := U32(h.a0 + U32(h4 / TWO26 * 5));
    Limbs(h0 % TWO26, U32(h.a1 % TWO26 + h0 / TWO26), h2 % TWO26, h3 % TWO26, h4 % TWO26)
  }

  /** After it every limb is below 2^26, H1 too: it can only take a carry after it has given one. */
  lemma FullCarryVal(h: Limbs)
    requires Reduced(h)
    ensures Tight(FullCarry(h)) && Val(FullCarry(h)) % P == Val(h) % P
  {
    hide FullCarry, U32, Val, Tight, P;
    var c1 := h.a1 / TWO26;
    var c2 := (h.a2 + c1) / TWO26;
    var c3 := (h.a3 + c2) / TWO26;
    var c4 := (h.a4 + c3) / TWO26;
    FullCarryIs(h, c1, c2, c3, c4);
    FullCarryMoves(h, c1, c2, c3, c4, FullCarry(h));
    PIsPositive();
    ModAdd(Val(FullCarry(h)), c4, P);
  }

  lemma PIsPositive()
    ensures P > 0
  {
  }

  /** Nothing is cut off. */
  lemma FullCarryIs(h: Limbs, c1: nat, c2: nat, c3: nat, c4: nat)
    requires Reduced(h) && c1 == h.a1 / TWO26 && c2 == (h.a2 + c1) / TWO26 && c3 == (h.a3 + c2) / TWO26 && c4 == (h.a4 + c3) / TWO26
    ensures FullCarry(h) == Limbs((h.a0 + c4 * 5) % TWO26, h.a1 % TWO26 + (h.a0 + c4 * 5) / TWO26,
                                  (h.a2 + c1) % TWO26, (h.a3 + c2) % TWO26, (h.a4 + c3) % TWO26)
  {
    hide U32, Val;
    Small32(h.a2 + c1);
    Small32(h.a3 + c2);
    Small32(h.a4 + c3);
    Small32(c4 * 5);
    Small32(h.a0 + c4 * 5);
    Small32(h.a1 % TWO26 + (h.a0 + c4 * 5) / TWO26);
  }

  lemma FullCarryMoves(h: Limbs, c1: nat, c2: nat, c3: nat, c4: nat, f: Limbs)
    requires Reduced(h) && c1 == h.a1 / TWO26 && c2 == (h.a2 + c1) / TWO26 && c3 == (h.a3 + c2) / TWO26
    requires c4 == (h.a4 + c3) / TWO26
    requires f == Limbs((h.a0 + c4 * 5) % TWO26, h.a1 % TWO26 + (h.a0 + c4 * 5) / TWO26,
                        (h.a2 + c1) % TWO26, (h.a3 + c2) % TWO26, (h.a4 + c3) % TWO26)
    ensures Tight(f) && Val(h) == Val(f) + P * c4
  {
    assert c4 <= c3 <= c2 <= c1 <= 1;
  }

  /** h + 5 - 2^130, in 32-bit arithmetic. */
  function Minus(h: Limbs): Limbs {
    var g0 := U32(h.a0 + 5);
    var g1 := U32(h.a1 + g0 / TWO26);
    var g2 := U32(h.a2 + g1 / TWO26);
    var g3 := U32(h.a3 + g2 / TWO26);
    Limbs(g0 % TWO26, g1 % TWO26, g2 % TWO26, g3 % TWO26, U32(h.a4 + g3 / TWO26 + (TWO32 - TWO26)))
  }

  /** (H & Mask) | G */
  function Blend(h: nat, g: nat, mask: nat): nat
    requires mask < TWO32
  {
    Or(And(h, TWO32 - 1 - mask), And(g, mask))
  }

  function Select(h: Limbs): Limbs {
    var g := Minus(h);
    var mask := U32(g.a4 / 0x8000_0000 + (TWO32 - 1));
    Limbs(Blend(h.a0, g.a0, mask), Blend(h.a1, g.a1, mask), Blend(h.a2, g.a2, mask),
          Blend(h.a3, g.a3, mask), Blend(h.a4, g.a4, mask))
  }

  lemma AndOnes(x: nat)
    requires x < TWO32
    ensures And(x, TWO32 - 1) == x && And(x, 0) == 0
  {
    Pow2Is();
    assert Pow2(28) == 4 * Pow2(26) && Pow2(32) == 16 * Pow2(28);
    AndLow(x, 32);
  }

  /** A mask of ones takes g, a mask of zeros takes h. */
  lemma BlendPicks(h: nat, g: nat)
    requires h < TWO32 && g < TWO32
    ensures Blend(h, g, 0) == h && Blend(h, g, TWO32 - 1) == g
  {
    AndOnes(h);
    AndOnes(g);
  }

  lemma MinusVal(h: Limbs)
    requires Tight(h)
    ensures var g := Minus(h);
      && g.a0 < TWO26 && g.a1 < TWO26 && g.a2 < TWO26 && g.a3 < TWO26 && g.a4 < TWO32
      && (if Val(h) < P then g.a4 / 0x8000_0000 == 1 else g.a4 < TWO26 && Val(g) == Val(h) - P)
  {
    hide U32;
    var c0 := (h.a0 + 5) / TWO26;
    var c1 := (h.a1 + c0) / TWO26;
    var c2 := (h.a2 + c1) / TWO26;
    var c3 := (h.a3 + c2) / TWO26;
    Small32(h.a0 + 5); Small32(h.a1 + c0); Small32(h.a2 + c1); Small32(h.a3 + c2);
    MinusMoves(h, c0, c1, c2, c3);
    Wrap(h.a4 + c3);
    var g := Minus(h);
    assert g == Limbs((h.a0 + 5) % TWO26, (h.a1 + c0) % TWO26, (h.a2 + c1) % TWO26, (h.a3 + c2) % TWO26,
                      U32(h.a4 + c3 + (TWO32 - TWO26)));
    hide Minus;
    MinusSign(h, g, h.a4 + c3);
  }

  /** The top limb goes negative in 32 bits exactly if h < p. */
  lemma Wrap(x: nat)
    requires x <= TWO26
    ensures var y := U32(x + (TWO32 - TWO26)); if x < TWO26 then y == x + (TWO32 - TWO26) else y == 0
  {
  }

  lemma MinusSign(h: Limbs, g: Limbs, top: nat)
    requires g.a0 < TWO26 && g.a1 < TWO26 && g.a2 < TWO26 && g.a3 < TWO26 && top <= TWO26
    requires g.a4 == if top < TWO26 then top + (TWO32 - TWO26) else 0
    requires Val(h) + 5 == g.a0 + TWO26 * g.a1 + X2 * g.a2 + X3 * g.a3 + X4 * top
    ensures g.a4 < TWO32
    ensures if Val(h) < P then g.a4 / 0x8000_0000 == 1 else g.a4 < TWO26 && Val(g) == Val(h) - P
  {
  }

  lemma MinusMoves(h: Limbs, c0: nat, c1: nat, c2: nat, c3: nat)
    requires Tight(h) && c0 == (h.a0 + 5) / TWO26 && c1 == (h.a1 + c0) / TWO26 && c2 == (h.a2 + c1) / TWO26 && c3 == (h.a3 + c2) / TWO26
    ensures Val(h) + 5 == (h.a0 + 5) % TWO26 + TWO26 * ((h.a1 + c0) % TWO26) + X2 * ((h.a2 + c1) % TWO26)
                          + X3 * ((h.a3 + c2) % TWO26) + X4 * (h.a4 + c3)
    ensures c3 <= 1
  {
  }

  lemma SelectIs(h: Limbs)
    requires Tight(h)
    ensures Select(h) == if Val(h) < P then h else Minus(h)
  {
    var g := Minus(h);
    MinusVal(h);
    BlendPicks(h.a0, g.a0); BlendPicks(h.a1, g.a1); BlendPicks(h.a2, g.a2); BlendPicks(h.a3, g.a3); BlendPicks(h.a4, g.a4);
    hide Blend, Minus, Val;
    MaskIs(g.a4);
    hide U32;
  }

  lemma MaskIs(x: nat)
    requires x < TWO32
    ensures x / 0x8000_0000 == 1 ==> U32(x / 0x8000_0000 + (TWO32 - 1)) == 0
    ensures x < TWO26 ==> U32(x / 0x8000_0000 + (TWO32 - 1)) == TWO32 - 1
  {
  }

  /** The selected value is the residue of h. */
  lemma SelectVal(h: Limbs)
    requires Tight(h)
    ensures Tight(Select(h)) && Val(Select(h)) == Val(h) % P
  {
    SelectIs(h);
    MinusVal(h);
    TightVal(h);
    hide Select, Minus, Val, P;
    ModTop(Val(h));
  }

  lemma ModTop(x: nat)
    requires x < P + 5
    ensures x % P == if x < P then x else x - P
  {
    if x >= P { ModUnique(x, P, 1, x - P); }
  }

  lemma TightVal(h: Limbs)
    requires Tight(h)
    ensures Val(h) < P + 5
  {
  }

  // ---------------------------------------------------------------- the tag

  /** Four 32-bit words of the low 128 bits. */
  function Pack(h: Limbs): (nat, nat, nat, nat) {
    (U32(Or(h.a0, U32(h.a1 * TWO26))),
     U32(Or(h.a1 / 0x40, U32(h.a2 * 0x10_0000))),
     U32(Or(h.a2 / 0x1000, U32(h.a3 * 0x4000))),
     U32(Or(h.a3 / 0x4_0000, U32(h.a4 * 0x100))))
  }

  function Quad(w: (nat, nat, nat, nat)): nat {
    w.0 + TWO32 * w.1 + TWO64 * w.2 + TWO64 * TWO32 * w.3
  }

  /** A limb shifted up in 32 bits, or-ed with what fits below it. */
  lemma OrWord(lo: nat, hi: nat, k: nat, p: nat, room: nat)
    requires p == Pow2(k) && p * room == TWO32 && lo < p && hi < room
    ensures Or(lo, p * hi) == lo + p * hi < TWO32
  {
    OrShift(lo, hi, k);
    MulBound(p, hi, p, room - 1);
    assert p * (room - 1) == p * room - p;
  }

  lemma Word0(lo: nat, hi: nat)
    requires lo < TWO26
    ensures U32(Or(lo, U32(hi * TWO26))) == lo + TWO26 * (hi % 0x40)
  {
    Pow2Is();
    hide Or, Pow2;
    assert U32(hi * TWO26) == TWO26 * (hi % 0x40);
    OrWord(lo, hi % 0x40, 26, TWO26, 0x40);
  }

  lemma Word1(lo: nat, hi: nat)
    requires lo < 0x10_0000
    ensures U32(Or(lo, U32(hi * 0x10_0000))) == lo + 0x10_0000 * (hi % 0x1000)
  {
    Pow2Is();
    assert Pow2(26) == 64 * Pow2(20);
    hide Or, Pow2;
    assert U32(hi * 0x10_0000) == 0x10_0000 * (hi % 0x1000);
    OrWord(lo, hi % 0x1000, 20, 0x10_0000, 0x1000);
  }

  lemma Word2(lo: nat, hi: nat)
    requires lo < 0x4000
    ensures U32(Or(lo, U32(hi * 0x4000))) == lo + 0x4000 * (hi % 0x4_0000)
  {
    Pow2Is();
    assert Pow2(14) == 64 * Pow2(8);
    hide Or, Pow2;
    assert U32(hi * 0x4000) == 0x4000 * (hi % 0x4_0000);
    OrWord(lo, hi % 0x4_0000, 14, 0x4000, 0x4_0000);
  }

  lemma Word3(lo: nat, hi: nat)
    requires lo < 0x100
    ensures U32(Or(lo, U32(hi * 0x100))) == lo + 0x100 * (hi % 0x100_0000)
  {
    Pow2Is();
    hide Or, Pow2;
    assert U32(hi * 0x100) == 0x100 * (hi % 0x100_0000);
    OrWord(lo, hi % 0x100_0000, 8, 0x100, 0x100_0000);
  }

  /** The words are the low 128 bits. */
  lemma PackVal(h: Limbs)
    requires Tight(h)
    ensures var w := Pack(h);
      && w.0 < TWO32 && w.1 < TWO32 && w.2 < TWO32 && w.3 < TWO32
      && Quad(w) == Val(h) % TWO128
  {
    Word0(h.a0, h.a1);
    Word1(h.a1 / 0x40, h.a2);
    Word2(h.a2 / 0x1000, h.a3);
    Word3(h.a3 / 0x4_0000, h.a4);
    hide Or;
    var w := Pack(h);
    PackSum(h, w);
    ModUnique(Val(h), TWO128, h.a4 / 0x100_0000, Quad(w));
  }

  lemma PackSum(h: Limbs, w: (nat, nat, nat, nat))
    requires Tight(h)
    requires w.0 == h.a0 + TWO26 * (h.a1 % 0x40) && w.1 == h.a1 / 0x40 + 0x10_0000 * (h.a2 % 0x1000)
    requires w.2 == h.a2 / 0x1000 + 0x4000 * (h.a3 % 0x4_0000) && w.3 == h.a3 / 0x4_0000 + 0x100 * (h.a4 % 0x100_0000)
    ensures w.0 < TWO32 && w.1 < TWO32 && w.2 < TWO32 && w.3 < TWO32
    ensures Val(h) == Quad(w) + TWO128 * (h.a4 / 0x100_0000) && Quad(w) < TWO128
  {
  }

  /** 128-bit addition with carries in 64-bit words. */
  function AddWords(h: (nat, nat, nat, nat), n: (nat, nat, nat, nat)): (nat, nat, nat, nat) {
    var f0 := U64(h.0 + n.0);
    var f1 := U64(h.1 + n.1 + f0 / TWO32);
    var f2 := U64(h.2 + n.2 + f1 / TWO32);
    var f3 := U64(h.3 + n.3 + f2 / TWO32);
    (U32(f0), U32(f1), U32(f2), U32(f3))
  }

  predicate Words4(w: (nat, nat, nat, nat)) {
    w.0 < TWO32 && w.1 < TWO32 && w.2 < TWO32 && w.3 < TWO32
  }

  lemma AddWordsVal(h: (nat, nat, nat, nat), n: (nat, nat, nat, nat))
    requires Words4(h) && Words4(n)
    ensures Words4(AddWords(h, n)) && Quad(AddWords(h, n)) == (Quad(h) + Quad(n)) % TWO128
  {
    var f0 := h.0 + n.0;
    var f1 := h.1 + n.1 + f0 / TWO32;
    var f2 := h.2 + n.2 + f1 / TWO32;
    var f3 := h.3 + n.3 + f2 / TWO32;
    Small64(f0); Small64(f1); Small64(f2); Small64(f3);
    hide U64;
    var s := (f0 % TWO32, f1 % TWO32, f2 % TWO32, f3 % TWO32);
    assert AddWords(h, n) == s;
    hide AddWords;
    assert Quad(h) + Quad(n) == TWO128 * (f3 / TWO32) + Quad(s);
    ModUnique(Quad(h) + Quad(n), TWO128, f3 / TWO32, Quad(s));
  }

  /** PutUnalignedLe32, four times. */
  function PutWords(w: (nat, nat, nat, nat)): seq<byte> {
    LeBytes(w.0, 4) + LeBytes(w.1, 4) + LeBytes(w.2, 4) + LeBytes(w.3, 4)
  }

  lemma TimesPower(p: nat, y: nat)
    ensures (256 * p) * y == 256 * (p * y)
  {
  }

  lemma FirstByte(x: nat, z: nat)
    ensures (x + 256 * z) / 256 == x / 256 + z && (x + 256 * z) % 256 == x % 256
  {
  }

  lemma {:induction false} LeBytesConcat(x: nat, y: nat, n: nat, m: nat)
    requires x < Pow256(n)
    ensures LeBytes(x + Pow256(n) * y, n + m) == LeBytes(x, n) + LeBytes(y, m)
    decreases n
  {
    if n > 0 {
      var p := Pow256(n - 1);
      TimesPower(p, y);
      LeBytesConcat(x / 256, y, n - 1, m);
      FirstByte(x, p * y);
    }
  }

  lemma PutWordsVal(w: (nat, nat, nat, nat))
    requires Words4(w)
    ensures PutWords(w) == LeBytes(Quad(w), 16)
  {
    hide LeBytes;
    var z: nat := w.2 + TWO32 * w.3;
    var y: nat := w.1 + TWO32 * z;
    WordFirst(w.2, w.3, 4);
    WordFirst(w.1, z, 8);
    WordFirst(w.0, y, 12);
    assert Quad(w) == w.0 + TWO32 * y;
  }

  lemma WordFirst(x: nat, rest: nat, n: nat)
    requires x < TWO32
    ensures LeBytes(x + TWO32 * rest, 4 + n) == LeBytes(x, 4) + LeBytes(rest, n)
  {
    assert Pow256(4) == TWO32;
    LeBytesConcat(x, rest, 4, n);
  }

  // ---------------------------------------------------------------- the key

  /** R as InitCore computes it. */
  function InitR(k: seq<byte>): Limbs
    requires |k| >= 16
  {
    Limbs(And(Le32(k, 0), 0x3ff_ffff), And(Le32(k, 3) / 4, 0x3ff_ff03), And(Le32(k, 6) / 16, 0x3ff_c0ff),
          And(Le32(k, 9) / 64, 0x3f0_3fff), And(Le32(k, 12) / 256, 0x0f_ffff))
  }

  /** A mask with a low run of ones, c, and a high run of ones, d. */
  lemma TwoRuns(lo: nat, hi: nat, c: nat, d: nat, low: nat, high: nat, at: nat, p: nat)
    requires p == Pow2(at) && low <= at && lo < p && c == Pow2(low) - 1 && d == Pow2(high) - 1
    ensures And(lo + p * hi, c + p * d) == lo % (c + 1) + p * (hi % (d + 1))
  {
    PowMonotone(low, at);
    AndSplit(lo, hi, c, d, at);
    AndLow(lo, low);
    AndLow(hi, high);
    hide And, Pow2;
  }

  lemma {:induction false} PowMonotone(a: nat, b: nat)
    requires a <= b
    ensures Pow2(a) <= Pow2(b)
  {
    if a < b { PowMonotone(a, b - 1); }
  }

  lemma PowValues()
    ensures Pow2(2) == 4 && Pow2(6) == 0x40 && Pow2(8) == 0x100 && Pow2(12) == 0x1000 && Pow2(14) == 0x4000
    ensures Pow2(18) == 0x4_0000 && Pow2(20) == 0x10_0000 && Pow2(26) == TWO26
  {
    assert Pow2(2) == 4 && Pow2(6) == 16 * Pow2(2) && Pow2(8) == 4 * Pow2(6) && Pow2(12) == 16 * Pow2(8);
    assert Pow2(14) == 4 * Pow2(12) && Pow2(18) == 16 * Pow2(14) && Pow2(20) == 4 * Pow2(18);
    assert Pow2(26) == 64 * Pow2(20);
  }

  lemma Mask1(x: nat, lo: nat, hi: nat)
    requires lo < 0x100 && x == lo + 0x100 * hi
    ensures And(x, 0x3ff_ff03) == lo % 4 + 0x100 * (hi % 0x4_0000)
  {
    PowValues();
    TwoRuns(lo, hi, 3, 0x3_ffff, 2, 18, 8, 0x100);
  }

  lemma Mask2(x: nat, lo: nat, hi: nat)
    requires lo < 0x4000 && x == lo + 0x4000 * hi
    ensures And(x, 0x3ff_c0ff) == lo % 0x100 + 0x4000 * (hi % 0x1000)
  {
    PowValues();
    TwoRuns(lo, hi, 0xff, 0xfff, 8, 12, 14, 0x4000);
  }

  lemma Mask3(x: nat, lo: nat, hi: nat)
    requires lo < 0x10_0000 && x == lo + 0x10_0000 * hi
    ensures And(x, 0x3f0_3fff) == lo % 0x4000 + 0x10_0000 * (hi % 0x40)
  {
    PowValues();
    TwoRuns(lo, hi, 0x3fff, 0x3f, 14, 6, 20, 0x10_0000);
  }

  lemma KeyLimb0(k: seq<byte>)
    requires |k| == 16
    ensures And(Le32(k, 0), 0x3ff_ffff)
         == (k[0] as nat) + 0x100 * (k[1] as nat) + 0x1_0000 * (k[2] as nat) + 0x100_0000 * ((k[3] as nat) % 4)
  {
    PowValues();
    AndLow(Le32(k, 0), 26);
    FirstLimb(k[0], k[1], k[2], k[3]);
    hide And;
  }

  lemma KeyLimb1(k: seq<byte>)
    requires |k| == 16
    ensures And(Le32(k, 3) / 4, 0x3ff_ff03)
         == (k[3] as nat) / 4 % 4 + 0x100 * ((k[4] as nat) / 4 + 0x40 * (k[5] as nat) + 0x4000 * ((k[6] as nat) % 16))
  {
    hide And;
    Third(k[3], k[4], k[5], k[6]);
  }

  lemma Third(b3: nat, b4: nat, b5: nat, b6: nat)
    requires b3 < 256 && b4 < 256 && b5 < 256 && b6 < 256
    ensures And((b3 + 0x100 * b4 + 0x1_0000 * b5 + 0x100_0000 * b6) / 4, 0x3ff_ff03)
         == b3 / 4 % 4 + 0x100 * (b4 / 4 + 0x40 * b5 + 0x4000 * (b6 % 16))
  {
    hide And;
    var lo, hi := b3 / 4 + 0x40 * (b4 % 4), b4 / 4 + 0x40 * b5 + 0x4000 * b6;
    ThirdParts(b3, b4, b5, b6);
    Mask1(lo + 0x100 * hi, lo, hi);
  }

  lemma ThirdParts(b3: nat, b4: nat, b5: nat, b6: nat)
    requires b3 < 256 && b4 < 256 && b5 < 256 && b6 < 256
    ensures var lo, hi := b3 / 4 + 0x40 * (b4 % 4), b4 / 4 + 0x40 * b5 + 0x4000 * b6;
      && (b3 + 0x100 * b4 + 0x1_0000 * b5 + 0x100_0000 * b6) / 4 == lo + 0x100 * hi
      && lo % 4 == b3 / 4 % 4
      && hi % 0x4_0000 == b4 / 4 + 0x40 * b5 + 0x4000 * (b6 % 16)
  {
  }

  lemma KeyLimb2(k: seq<byte>)
    requires |k| == 16
    ensures And(Le32(k, 6) / 16, 0x3ff_c0ff)
         == (k[6] as nat) / 16 + 16 * ((k[7] as nat) % 16) + 0x4000 * ((k[8] as nat) / 4 + 0x40 * ((k[9] as nat) % 64))
  {
    hide And;
    Sixth(k[6], k[7], k[8], k[9]);
  }

  lemma Sixth(b6: nat, b7: nat, b8: nat, b9: nat)
    requires b6 < 256 && b7 < 256 && b8 < 256 && b9 < 256
    ensures And((b6 + 0x100 * b7 + 0x1_0000 * b8 + 0x100_0000 * b9) / 16, 0x3ff_c0ff)
         == b6 / 16 + 16 * (b7 % 16) + 0x4000 * (b8 / 4 + 0x40 * (b9 % 64))
  {
    hide And;
    var lo, hi := b6 / 16 + 16 * b7 + 0x1000 * (b8 % 4), b8 / 4 + 0x40 * b9;
    SixthParts(b6, b7, b8, b9);
    Mask2(lo + 0x4000 * hi, lo, hi);
  }

  lemma SixthParts(b6: nat, b7: nat, b8: nat, b9: nat)
    requires b6 < 256 && b7 < 256 && b8 < 256 && b9 < 256
    ensures var lo, hi := b6 / 16 + 16 * b7 + 0x1000 * (b8 % 4), b8 / 4 + 0x40 * b9;
      && (b6 + 0x100 * b7 + 0x1_0000 * b8 + 0x100_0000 * b9) / 16 == lo + 0x4000 * hi
      && lo % 0x100 == b6 / 16 + 16 * (b7 % 16)
      && hi % 0x1000 == b8 / 4 + 0x40 * (b9 % 64)
  {
  }

  lemma KeyLimb3(k: seq<byte>)
    requires |k| == 16
    ensures And(Le32(k, 9) / 64, 0x3f0_3fff)
         == (k[9] as nat) / 64 + 4 * (k[10] as nat) + 0x400 * ((k[11] as nat) % 16) + 0x10_0000 * ((k[12] as nat) / 4)
  {
    hide And;
    Ninth(k[9], k[10], k[11], k[12]);
  }

  lemma Ninth(b9: nat, b10: nat, b11: nat, b12: nat)
    requires b9 < 256 && b10 < 256 && b11 < 256 && b12 < 256
    ensures And((b9 + 0x100 * b10 + 0x1_0000 * b11 + 0x100_0000 * b12) / 64, 0x3f0_3fff)
         == b9 / 64 + 4 * b10 + 0x400 * (b11 % 16) + 0x10_0000 * (b12 / 4)
  {
    hide And;
    var lo, hi := b9 / 64 + 4 * b10 + 0x400 * b11 + 0x4_0000 * (b12 % 4), b12 / 4;
    NinthParts(b9, b10, b11, b12);
    Mask3(lo + 0x10_0000 * hi, lo, hi);
  }

  lemma NinthParts(b9: nat, b10: nat, b11: nat, b12: nat)
    requires b9 < 256 && b10 < 256 && b11 < 256 && b12 < 256
    ensures var lo, hi := b9 / 64 + 4 * b10 + 0x400 * b11 + 0x4_0000 * (b12 % 4), b12 / 4;
      && (b9 + 0x100 * b10 + 0x1_0000 * b11 + 0x100_0000 * b12) / 64 == lo + 0x10_0000 * hi
      && lo % 0x4000 == b9 / 64 + 4 * b10 + 0x400 * (b11 % 16)
      && lo < 0x10_0000 && hi % 0x40 == hi
  {
  }

  lemma Twelfth(b12: nat, b13: nat, b14: nat, b15: nat)
    requires b12 < 256
    ensures (b12 + 0x100 * b13 + 0x1_0000 * b14 + 0x100_0000 * b15) / 256 == b13 + 0x100 * b14 + 0x1_0000 * b15
  {
  }

  lemma KeyLimb4(k: seq<byte>)
    requires |k| == 16
    ensures And(Le32(k, 12) / 256, 0x0f_ffff)
         == (k[13] as nat) + 0x100 * (k[14] as nat) + 0x1_0000 * ((k[15] as nat) % 16)
  {
    PowValues();
    AndLow(Le32(k, 12) / 256, 20);
    hide And, Pow2;
    Twelfth(k[12], k[13], k[14], k[15]);
    Cut(k[13], k[14], k[15], 16);
  }

  /** The masked limbs are the clamped key. */
  lemma InitVal(k: seq<byte>)
    requires |k| == 16
    ensures Clamped(InitR(k)) && Val(InitR(k)) == Le(Clamp(k))
  {
    KeyLimb0(k); KeyLimb1(k); KeyLimb2(k); KeyLimb3(k); KeyLimb4(k);
    hide And, Le32;
    ClampLimbs(k, InitR(k));
    BytesVal(Clamp(k), InitR(k), 0);
    Le16(Clamp(k));
    hide Le;
  }

  lemma ClampLimbs(k: seq<byte>, l: Limbs)
    requires |k| == 16
    requires l.a0 == (k[0] as nat) + 0x100 * (k[1] as nat) + 0x1_0000 * (k[2] as nat) + 0x100_0000 * ((k[3] as nat) % 4)
    requires l.a1 == (k[3] as nat) / 4 % 4 + 0x100 * ((k[4] as nat) / 4 + 0x40 * (k[5] as nat) + 0x4000 * ((k[6] as nat) % 16))
    requires l.a2 == (k[6] as nat) / 16 + 16 * ((k[7] as nat) % 16) + 0x4000 * ((k[8] as nat) / 4 + 0x40 * ((k[9] as nat) % 64))
    requires l.a3 == (k[9] as nat) / 64 + 4 * (k[10] as nat) + 0x400 * ((k[11] as nat) % 16) + 0x10_0000 * ((k[12] as nat) / 4)
    requires l.a4 == (k[13] as nat) + 0x100 * (k[14] as nat) + 0x1_0000 * ((k[15] as nat) % 16)
    ensures Clamped(l)
    ensures var m := Clamp(k);
      && l.a0 == (m[0] as nat) + 0x100 * (m[1] as nat) + 0x1_0000 * (m[2] as nat) + 0x100_0000 * ((m[3] as nat) % 4)
      && l.a1 == (m[3] as nat) / 4 + 64 * ((m[4] as nat) + 0x100 * (m[5] as nat) + 0x1_0000 * ((m[6] as nat) % 16))
      && l.a2 == (m[6] as nat) / 16 + 16 * ((m[7] as nat) + 0x100 * (m[8] as nat) + 0x1_0000 * ((m[9] as nat) % 64))
      && l.a3 == (m[9] as nat) / 64 + 4 * ((m[10] as nat) + 0x100 * (m[11] as nat) + 0x1_0000 * (m[12] as nat))
      && l.a4 == (m[13] as nat) + 0x100 * (m[14] as nat) + 0x1_0000 * (m[15] as nat) + 0x100_0000 * 0
  {
    hide Clamp;
    ClampBytes(k);
    ClampLane1(k[3], k[4], k[5], k[6]);
    ClampLane2(k[6], k[7], k[8], k[9]);
    ClampLane3(k[9], k[10], k[11], k[12]);
    ClampEnds(l, k[0], k[1], k[2], k[3], k[13], k[14], k[15]);
  }

  lemma ClampLane1(b3: nat, b4: nat, b5: nat, b6: nat)
    requires b3 < 256 && b4 < 256 && b5 < 256 && b6 < 256
    ensures b3 / 4 % 4 + 0x100 * (b4 / 4 + 0x40 * b5 + 0x4000 * (b6 % 16))
         == (b3 % 16) / 4 + 64 * ((b4 - b4 % 4) + 0x100 * b5 + 0x1_0000 * (b6 % 16)) <= 0x3ff_ff03
  {
    Lanes(b3 / 4 % 4, b4 / 4, b5, b6 % 16);
  }

  lemma ClampLane2(b6: nat, b7: nat, b8: nat, b9: nat)
    requires b6 < 256 && b7 < 256 && b8 < 256 && b9 < 256
    ensures b6 / 16 + 16 * (b7 % 16) + 0x4000 * (b8 / 4 + 0x40 * (b9 % 64))
         == b6 / 16 + 16 * ((b7 % 16) + 0x100 * (b8 - b8 % 4) + 0x1_0000 * (b9 % 64)) <= 0x3ff_c0ff
  {
    Lanes2(b6 / 16, b7 % 16, b8 / 4, b9 % 64);
  }

  lemma ClampLane3(b9: nat, b10: nat, b11: nat, b12: nat)
    requires b9 < 256 && b10 < 256 && b11 < 256 && b12 < 256
    ensures b9 / 64 + 4 * b10 + 0x400 * (b11 % 16) + 0x10_0000 * (b12 / 4)
         == b9 / 64 + 4 * (b10 + 0x100 * (b11 % 16) + 0x1_0000 * (b12 - b12 % 4)) <= 0x3f0_3fff
  {
    Lanes3(b9 / 64, b10, b11 % 16, b12 / 4);
  }

  lemma ClampEnds(l: Limbs, b0: nat, b1: nat, b2: nat, b3: nat, b13: nat, b14: nat, b15: nat)
    requires b0 < 256 && b1 < 256 && b2 < 256 && b3 < 256 && b13 < 256 && b14 < 256 && b15 < 256
    requires l.a0 == b0 + 0x100 * b1 + 0x1_0000 * b2 + 0x100_0000 * (b3 % 4)
    requires l.a4 == b13 + 0x100 * b14 + 0x1_0000 * (b15 % 16)
    ensures l.a0 < TWO26 && l.a4 <= 0x0f_ffff && b3 % 16 % 4 == b3 % 4
  {
  }

  lemma ClampBytes(k: seq<byte>)
    requires |k| == 16
    ensures var m := Clamp(k);
      && m[0] == k[0] && m[1] == k[1] && m[2] == k[2] && m[3] == k[3] % 16 && m[4] == k[4] - k[4] % 4
      && m[5] == k[5] && m[6] == k[6] && m[7] == k[7] % 16 && m[8] == k[8] - k[8] % 4 && m[9] == k[9]
      && m[10] == k[10] && m[11] == k[11] % 16 && m[12] == k[12] - k[12] % 4 && m[13] == k[13]
      && m[14] == k[14] && m[15] == k[15] % 16
  {
    ClampBits(k[3]); ClampBits(k[4]); ClampBits(k[7]); ClampBits(k[8]);
    ClampBits(k[11]); ClampBits(k[12]); ClampBits(k[15]);
  }

  lemma Lanes(x: nat, y: nat, z: nat, w: nat)
    requires x < 4 && y < 64 && z < 256 && w < 16
    ensures x + 0x100 * (y + 0x40 * z + 0x4000 * w) == x + 64 * (4 * y + 0x100 * z + 0x1_0000 * w) <= 0x3ff_ff03
  {
  }

  lemma Lanes2(x: nat, y: nat, z: nat, w: nat)
    requires x < 16 && y < 16 && z < 64 && w < 64
    ensures x + 16 * y + 0x4000 * (z + 0x40 * w) == x + 16 * (y + 0x100 * (4 * z) + 0x1_0000 * w) <= 0x3ff_c0ff
  {
  }

  lemma Lanes3(x: nat, y: nat, z: nat, w: nat)
    requires x < 4 && y < 256 && z < 16 && w < 64
    ensures x + 4 * y + 0x400 * z + 0x10_0000 * w == x + 4 * (y + 0x100 * z + 0x1_0000 * (4 * w)) <= 0x3f0_3fff
  {
  }

  lemma ClampBits(b: byte)
    ensures b % 16 % 4 == b % 4 && (b % 16) / 4 == b / 4 % 4 && b - b % 4 == 4 * (b / 4)
  {
  }
}
