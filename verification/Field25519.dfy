/** The field of integers modulo 2^255 - 19 in ten limbs of 26 and 25 bits, as the portable code of
    driver/crypto.c computes in it (section 4.1 of RFC 7748 gives the field). */
module Field25519 {
  import opened Words

  const P: nat := 0x7fff_ffff_ffff_ffff_ffff_ffff_ffff_ffff_ffff_ffff_ffff_ffff_ffff_ffff_ffff_ffed

  const TWO255: nat := 0x8000_0000_0000_0000_0000_0000_0000_0000_0000_0000_0000_0000_0000_0000_0000_0000

  // The weights of limbs 1 to 9.
  const W1: nat := 0x400_0000
  const W2: nat := 0x8_0000_0000_0000
  const W3: nat := 0x2000_0000_0000_0000_0000
  const W4: nat := 0x40_0000_0000_0000_0000_0000_0000
  const W5: nat := 0x1_0000_0000_0000_0000_0000_0000_0000_0000
  const W6: nat := 0x200_0000_0000_0000_0000_0000_0000_0000_0000_0000
  const W7: nat := 0x8_0000_0000_0000_0000_0000_0000_0000_0000_0000_0000_0000
  const W8: nat := 0x1000_0000_0000_0000_0000_0000_0000_0000_0000_0000_0000_0000_0000
  const W9: nat := 0x40_0000_0000_0000_0000_0000_0000_0000_0000_0000_0000_0000_0000_0000_0000

  datatype Limbs = Limbs(a0: nat, a1: nat, a2: nat, a3: nat, a4: nat, a5: nat, a6: nat, a7: nat, a8: nat, a9: nat)

  function Val(l: Limbs): nat {
    l.a0 + W1 * l.a1 + W2 * l.a2 + W3 * l.a3 + W4 * l.a4 + W5 * l.a5 + W6 * l.a6 + W7 * l.a7 + W8 * l.a8 + W9 * l.a9
  }

  /** An Fe: 1.125 * 2^26 and 1.125 * 2^25. */
  predicate Tight(l: Limbs) {
    && l.a0 <= 0x480_0000 && l.a1 <= 0x240_0000 && l.a2 <= 0x480_0000 && l.a3 <= 0x240_0000 && l.a4 <= 0x480_0000
    && l.a5 <= 0x240_0000 && l.a6 <= 0x480_0000 && l.a7 <= 0x240_0000 && l.a8 <= 0x480_0000 && l.a9 <= 0x240_0000
  }

  /** An FeLoose: 3.375 * 2^26 and 3.375 * 2^25. */
  predicate Loose(l: Limbs) {
    && l.a0 <= 0xd80_0000 && l.a1 <= 0x6c0_0000 && l.a2 <= 0xd80_0000 && l.a3 <= 0x6c0_0000 && l.a4 <= 0xd80_0000
    && l.a5 <= 0x6c0_0000 && l.a6 <= 0xd80_0000 && l.a7 <= 0x6c0_0000 && l.a8 <= 0xd80_0000 && l.a9 <= 0x6c0_0000
  }

  // ---------------------------------------------------------------- the school-book product

  /** Row i holds the products of limb i of one factor with the limbs of the other. */
  datatype Rows = Rows(r0: Limbs, r1: Limbs, r2: Limbs, r3: Limbs, r4: Limbs, r5: Limbs, r6: Limbs, r7: Limbs, r8: Limbs, r9: Limbs)

  /** (UINT64)X * Y */
  function Wide(x: nat, y: nat): nat {
    x * y
  }

  function Scale(x: nat, g: Limbs): Limbs {
    Limbs(Wide(x, g.a0), Wide(x, g.a1), Wide(x, g.a2), Wide(x, g.a3), Wide(x, g.a4), Wide(x, g.a5), Wide(x, g.a6), Wide(x, g.a7), Wide(x, g.a8), Wide(x, g.a9))
  }

  function Table(f: Limbs, g: Limbs): Rows {
    Rows(Scale(f.a0, g), Scale(f.a1, g), Scale(f.a2, g), Scale(f.a3, g), Scale(f.a4, g), Scale(f.a5, g), Scale(f.a6, g), Scale(f.a7, g), Scale(f.a8, g), Scale(f.a9, g))
  }

  /** Columns 0 to 9; a product of two odd limbs counts twice. */
  function Low(r: Rows): Limbs {
    Limbs(
      r.r0.a0,
      r.r0.a1 + r.r1.a0,
      r.r0.a2 + 2 * r.r1.a1 + r.r2.a0,
      r.r0.a3 + r.r1.a2 + r.r2.a1 + r.r3.a0,
      r.r0.a4 + 2 * r.r1.a3 + r.r2.a2 + 2 * r.r3.a1 + r.r4.a0,
      r.r0.a5 + r.r1.a4 + r.r2.a3 + r.r3.a2 + r.r4.a1 + r.r5.a0,
      r.r0.a6 + 2 * r.r1.a5 + r.r2.a4 + 2 * r.r3.a3 + r.r4.a2 + 2 * r.r5.a1 + r.r6.a0,
      r.r0.a7 + r.r1.a6 + r.r2.a5 + r.r3.a4 + r.r4.a3 + r.r5.a2 + r.r6.a1 + r.r7.a0,
      r.r0.a8 + 2 * r.r1.a7 + r.r2.a6 + 2 * r.r3.a5 + r.r4.a4 + 2 * r.r5.a3 + r.r6.a2 + 2 * r.r7.a1 + r.r8.a0,
      r.r0.a9 + r.r1.a8 + r.r2.a7 + r.r3.a6 + r.r4.a5 + r.r5.a4 + r.r6.a3 + r.r7.a2 + r.r8.a1 + r.r9.a0)
  }

  /** Columns 10 to 18. */
  function High(r: Rows): Limbs {
    Limbs(
      2 * r.r1.a9 + r.r2.a8 + 2 * r.r3.a7 + r.r4.a6 + 2 * r.r5.a5 + r.r6.a4 + 2 * r.r7.a3 + r.r8.a2 + 2 * r.r9.a1,
      r.r2.a9 + r.r3.a8 + r.r4.a7 + r.r5.a6 + r.r6.a5 + r.r7.a4 + r.r8.a3 + r.r9.a2,
      2 * r.r3.a9 + r.r4.a8 + 2 * r.r5.a7 + r.r6.a6 + 2 * r.r7.a5 + r.r8.a4 + 2 * r.r9.a3,
      r.r4.a9 + r.r5.a8 + r.r6.a7 + r.r7.a6 + r.r8.a5 + r.r9.a4,
      2 * r.r5.a9 + r.r6.a8 + 2 * r.r7.a7 + r.r8.a6 + 2 * r.r9.a5,
      r.r6.a9 + r.r7.a8 + r.r8.a7 + r.r9.a6,
      2 * r.r7.a9 + r.r8.a8 + 2 * r.r9.a7,
      r.r8.a9 + r.r9.a8,
      2 * r.r9.a9,
      0)
  }

  lemma ScaleVal(x: nat, g: Limbs)
    ensures Val(Scale(x, g)) == x * Val(g)
  {
  }

  lemma Distribute(f: Limbs, v: nat)
    ensures Val(f) * v == f.a0 * v + W1 * (f.a1 * v) + W2 * (f.a2 * v) + W3 * (f.a3 * v) + W4 * (f.a4 * v) + W5 * (f.a5 * v) + W6 * (f.a6 * v) + W7 * (f.a7 * v) + W8 * (f.a8 * v) + W9 * (f.a9 * v)
  {
  }

  const Zero: Limbs := Limbs(0, 0, 0, 0, 0, 0, 0, 0, 0, 0)

  function Plus(f: Limbs, g: Limbs): Limbs {
    Limbs(f.a0 + g.a0, f.a1 + g.a1, f.a2 + g.a2, f.a3 + g.a3, f.a4 + g.a4, f.a5 + g.a5, f.a6 + g.a6, f.a7 + g.a7, f.a8 + g.a8, f.a9 + g.a9)
  }

  lemma PlusVal(f: Limbs, g: Limbs)
    ensures Val(Plus(f, g)) == Val(f) + Val(g)
  {
  }

  lemma Columns0to3(r0: Limbs, r1: Limbs, r2: Limbs, r3: Limbs, r: Rows)
    requires r == Rows(r0, r1, r2, r3, Zero, Zero, Zero, Zero, Zero, Zero)
    ensures Val(r0) + W1 * Val(r1) + W2 * Val(r2) + W3 * Val(r3) == Val(Low(r)) + TWO255 * Val(High(r))
  {
  }

  lemma Columns4to6(r4: Limbs, r5: Limbs, r6: Limbs, r: Rows)
    requires r == Rows(Zero, Zero, Zero, Zero, r4, r5, r6, Zero, Zero, Zero)
    ensures W4 * Val(r4) + W5 * Val(r5) + W6 * Val(r6) == Val(Low(r)) + TWO255 * Val(High(r))
  {
  }

  lemma Columns7to9(r7: Limbs, r8: Limbs, r9: Limbs, r: Rows)
    requires r == Rows(Zero, Zero, Zero, Zero, Zero, Zero, Zero, r7, r8, r9)
    ensures W7 * Val(r7) + W8 * Val(r8) + W9 * Val(r9) == Val(Low(r)) + TWO255 * Val(High(r))
  {
  }

  /** The columns have the weights of the limbs; those from 10 on weigh 2^255 more. */
  lemma Columns(r: Rows)
    ensures Val(r.r0) + W1 * Val(r.r1) + W2 * Val(r.r2) + W3 * Val(r.r3) + W4 * Val(r.r4) + W5 * Val(r.r5) + W6 * Val(r.r6) + W7 * Val(r.r7) + W8 * Val(r.r8) + W9 * Val(r.r9)
         == Val(Low(r)) + TWO255 * Val(High(r))
  {
    var x := Rows(r.r0, r.r1, r.r2, r.r3, Zero, Zero, Zero, Zero, Zero, Zero);
    var y := Rows(Zero, Zero, Zero, Zero, r.r4, r.r5, r.r6, Zero, Zero, Zero);
    var z := Rows(Zero, Zero, Zero, Zero, Zero, Zero, Zero, r.r7, r.r8, r.r9);
    Columns0to3(r.r0, r.r1, r.r2, r.r3, x);
    Columns4to6(r.r4, r.r5, r.r6, y);
    Columns7to9(r.r7, r.r8, r.r9, z);
    Split(r, x, y, z);
    hide Val, Low, High, Plus;
    PlusVal(Low(x), Low(y));
    PlusVal(Plus(Low(x), Low(y)), Low(z));
    PlusVal(High(x), High(y));
    PlusVal(Plus(High(x), High(y)), High(z));
  }

  lemma Split(r: Rows, x: Rows, y: Rows, z: Rows)
    requires x == Rows(r.r0, r.r1, r.r2, r.r3, Zero, Zero, Zero, Zero, Zero, Zero)
    requires y == Rows(Zero, Zero, Zero, Zero, r.r4, r.r5, r.r6, Zero, Zero, Zero)
    requires z == Rows(Zero, Zero, Zero, Zero, Zero, Zero, Zero, r.r7, r.r8, r.r9)
    ensures Low(r) == Plus(Plus(Low(x), Low(y)), Low(z)) && High(r) == Plus(Plus(High(x), High(y)), High(z))
  {
  }

  lemma ProductVal(f: Limbs, g: Limbs)
    ensures Val(f) * Val(g) == Val(Low(Table(f, g))) + TWO255 * Val(High(Table(f, g)))
  {
    ScaleVal(f.a0, g); ScaleVal(f.a1, g); ScaleVal(f.a2, g); ScaleVal(f.a3, g); ScaleVal(f.a4, g); ScaleVal(f.a5, g); ScaleVal(f.a6, g); ScaleVal(f.a7, g); ScaleVal(f.a8, g); ScaleVal(f.a9, g);
    Distribute(f, Val(g));
    Columns(Table(f, g));
    hide Val, Low, High, Scale;
  }

  // ---------------------------------------------------------------- bounds

  predicate EvenRow(l: Limbs) {
    && l.a0 <= 0xb6_4000_0000_0000 && l.a1 <= 0x5b_2000_0000_0000 && l.a2 <= 0xb6_4000_0000_0000
    && l.a3 <= 0x5b_2000_0000_0000 && l.a4 <= 0xb6_4000_0000_0000 && l.a5 <= 0x5b_2000_0000_0000
    && l.a6 <= 0xb6_4000_0000_0000 && l.a7 <= 0x5b_2000_0000_0000 && l.a8 <= 0xb6_4000_0000_0000
    && l.a9 <= 0x5b_2000_0000_0000
  }

  predicate OddRow(l: Limbs) {
    && l.a0 <= 0x5b_2000_0000_0000 && l.a1 <= 0x2d_9000_0000_0000 && l.a2 <= 0x5b_2000_0000_0000
    && l.a3 <= 0x2d_9000_0000_0000 && l.a4 <= 0x5b_2000_0000_0000 && l.a5 <= 0x2d_9000_0000_0000
    && l.a6 <= 0x5b_2000_0000_0000 && l.a7 <= 0x2d_9000_0000_0000 && l.a8 <= 0x5b_2000_0000_0000
    && l.a9 <= 0x2d_9000_0000_0000
  }

  lemma EvenRowBound(x: nat, g: Limbs)
    requires x <= 0xd80_0000 && Loose(g)
    ensures EvenRow(Scale(x, g))
  {
    MulBound(x, g.a0, 0xd80_0000, 0xd80_0000); MulBound(x, g.a1, 0xd80_0000, 0x6c0_0000); MulBound(x, g.a2, 0xd80_0000, 0xd80_0000); MulBound(x, g.a3, 0xd80_0000, 0x6c0_0000); MulBound(x, g.a4, 0xd80_0000, 0xd80_0000);
    MulBound(x, g.a5, 0xd80_0000, 0x6c0_0000); MulBound(x, g.a6, 0xd80_0000, 0xd80_0000); MulBound(x, g.a7, 0xd80_0000, 0x6c0_0000); MulBound(x, g.a8, 0xd80_0000, 0xd80_0000); MulBound(x, g.a9, 0xd80_0000, 0x6c0_0000);
  }

  lemma OddRowBound(x: nat, g: Limbs)
    requires x <= 0x6c0_0000 && Loose(g)
    ensures OddRow(Scale(x, g))
  {
    MulBound(x, g.a0, 0x6c0_0000, 0xd80_0000); MulBound(x, g.a1, 0x6c0_0000, 0x6c0_0000); MulBound(x, g.a2, 0x6c0_0000, 0xd80_0000); MulBound(x, g.a3, 0x6c0_0000, 0x6c0_0000); MulBound(x, g.a4, 0x6c0_0000, 0xd80_0000);
    MulBound(x, g.a5, 0x6c0_0000, 0x6c0_0000); MulBound(x, g.a6, 0x6c0_0000, 0xd80_0000); MulBound(x, g.a7, 0x6c0_0000, 0x6c0_0000); MulBound(x, g.a8, 0x6c0_0000, 0xd80_0000); MulBound(x, g.a9, 0x6c0_0000, 0x6c0_0000);
  }

  predicate Bounded(r: Rows) {
    && EvenRow(r.r0) && OddRow(r.r1) && EvenRow(r.r2) && OddRow(r.r3) && EvenRow(r.r4) && OddRow(r.r5) && EvenRow(r.r6) && OddRow(r.r7) && EvenRow(r.r8) && OddRow(r.r9)
  }

  lemma TableBound(f: Limbs, g: Limbs)
    requires Loose(f) && Loose(g)
    ensures Bounded(Table(f, g))
  {
    EvenRowBound(f.a0, g); OddRowBound(f.a1, g); EvenRowBound(f.a2, g); OddRowBound(f.a3, g); EvenRowBound(f.a4, g); OddRowBound(f.a5, g); EvenRowBound(f.a6, g); OddRowBound(f.a7, g); EvenRowBound(f.a8, g); OddRowBound(f.a9, g);
    hide EvenRow, OddRow, Scale;
  }

  /** Bounds of the columns: low plus nineteen times high stays below 2^63. */
  predicate LowBound(l: Limbs) {
    && l.a0 <= 0xb6_4000_0000_0000 && l.a1 <= 0xb6_4000_0000_0000 && l.a2 <= 0x1c7_a000_0000_0000
    && l.a3 <= 0x16c_8000_0000_0000 && l.a4 <= 0x2d9_0000_0000_0000 && l.a5 <= 0x222_c000_0000_0000
    && l.a6 <= 0x3ea_6000_0000_0000 && l.a7 <= 0x2d9_0000_0000_0000 && l.a8 <= 0x4fb_c000_0000_0000
    && l.a9 <= 0x38f_4000_0000_0000
  }

  predicate HighBound(l: Limbs) {
    && l.a0 <= 0x4a0_a000_0000_0000 && l.a1 <= 0x2d9_0000_0000_0000 && l.a2 <= 0x38f_4000_0000_0000
    && l.a3 <= 0x222_c000_0000_0000 && l.a4 <= 0x27d_e000_0000_0000 && l.a5 <= 0x16c_8000_0000_0000
    && l.a6 <= 0x16c_8000_0000_0000 && l.a7 <= 0xb6_4000_0000_0000 && l.a8 <= 0x5b_2000_0000_0000
    && l.a9 <= 0x0
  }

  lemma ColumnBound(r: Rows)
    requires Bounded(r)
    ensures LowBound(Low(r)) && HighBound(High(r))
  {
  }

  // ---------------------------------------------------------------- the columns of FeMulImpl and FeSqrImpl

  /** X40 to X49. */
  function MulLow(f: Limbs, g: Limbs): Limbs {
    Limbs(
      U64(Wide(f.a0, g.a0)),
      U64(Wide(f.a1, g.a0) + Wide(f.a0, g.a1)),
      U64(Wide(f.a1, U32(2 * g.a1)) + Wide(f.a2, g.a0) + Wide(f.a0, g.a2)),
      U64(Wide(f.a2, g.a1) + Wide(f.a1, g.a2) + Wide(f.a3, g.a0) + Wide(f.a0, g.a3)),
      U64(Wide(f.a2, g.a2) + 2 * (Wide(f.a3, g.a1) + Wide(f.a1, g.a3)) + Wide(f.a4, g.a0) + Wide(f.a0, g.a4)),
      U64(Wide(f.a3, g.a2) + Wide(f.a2, g.a3) + Wide(f.a4, g.a1) + Wide(f.a1, g.a4) + Wide(f.a5, g.a0) + Wide(f.a0,
        g.a5)),
      U64(2 * (Wide(f.a3, g.a3) + Wide(f.a5, g.a1) + Wide(f.a1, g.a5)) + Wide(f.a4, g.a2) + Wide(f.a2, g.a4) +
        Wide(f.a6, g.a0) + Wide(f.a0, g.a6)),
      U64(Wide(f.a4, g.a3) + Wide(f.a3, g.a4) + Wide(f.a5, g.a2) + Wide(f.a2, g.a5) + Wide(f.a6, g.a1) + Wide(f.a1,
        g.a6) + Wide(f.a7, g.a0) + Wide(f.a0, g.a7)),
      U64(Wide(f.a4, g.a4) + 2 * (Wide(f.a5, g.a3) + Wide(f.a3, g.a5) + Wide(f.a7, g.a1) + Wide(f.a1, g.a7)) +
        Wide(f.a6, g.a2) + Wide(f.a2, g.a6) + Wide(f.a8, g.a0) + Wide(f.a0, g.a8)),
      U64(Wide(f.a5, g.a4) + Wide(f.a4, g.a5) + Wide(f.a6, g.a3) + Wide(f.a3, g.a6) + Wide(f.a7, g.a2) + Wide(f.a2,
        g.a7) + Wide(f.a8, g.a1) + Wide(f.a1, g.a8) + Wide(f.a9, g.a0) + Wide(f.a0, g.a9)))
  }

  /** X50 to X58. */
  function MulHigh(f: Limbs, g: Limbs): Limbs {
    Limbs(
      U64(2 * (Wide(f.a5, g.a5) + Wide(f.a7, g.a3) + Wide(f.a3, g.a7) + Wide(f.a9, g.a1) + Wide(f.a1, g.a9)) +
        Wide(f.a6, g.a4) + Wide(f.a4, g.a6) + Wide(f.a8, g.a2) + Wide(f.a2, g.a8)),
      U64(Wide(f.a6, g.a5) + Wide(f.a5, g.a6) + Wide(f.a7, g.a4) + Wide(f.a4, g.a7) + Wide(f.a8, g.a3) + Wide(f.a3,
        g.a8) + Wide(f.a9, g.a2) + Wide(f.a2, g.a9)),
      U64(Wide(f.a6, g.a6) + 2 * (Wide(f.a7, g.a5) + Wide(f.a5, g.a7) + Wide(f.a9, g.a3) + Wide(f.a3, g.a9)) +
        Wide(f.a8, g.a4) + Wide(f.a4, g.a8)),
      U64(Wide(f.a7, g.a6) + Wide(f.a6, g.a7) + Wide(f.a8, g.a5) + Wide(f.a5, g.a8) + Wide(f.a9, g.a4) + Wide(f.a4,
        g.a9)),
      U64(2 * (Wide(f.a7, g.a7) + Wide(f.a9, g.a5) + Wide(f.a5, g.a9)) + Wide(f.a8, g.a6) + Wide(f.a6, g.a8)),
      U64(Wide(f.a8, g.a7) + Wide(f.a7, g.a8) + Wide(f.a9, g.a6) + Wide(f.a6, g.a9)),
      U64(Wide(f.a8, g.a8) + 2 * (Wide(f.a9, g.a7) + Wide(f.a7, g.a9))),
      U64(Wide(f.a9, g.a8) + Wide(f.a8, g.a9)),
      U64(Wide(f.a9, U32(2 * g.a9))),
      0)
  }

  /** X19 to X28. */
  function SqrLow(f: Limbs): Limbs {
    Limbs(
      U64(Wide(f.a0, f.a0)),
      U64(Wide(U32(2 * f.a0), f.a1)),
      U64(2 * (Wide(f.a1, f.a1) + Wide(f.a0, f.a2))),
      U64(2 * (Wide(f.a1, f.a2) + Wide(f.a0, f.a3))),
      U64(Wide(f.a2, f.a2) + Wide(U32(4 * f.a1), f.a3) + Wide(U32(2 * f.a0), f.a4)),
      U64(2 * (Wide(f.a2, f.a3) + Wide(f.a1, f.a4) + Wide(f.a0, f.a5))),
      U64(2 * (Wide(f.a3, f.a3) + Wide(f.a2, f.a4) + Wide(f.a0, f.a6) + Wide(U32(2 * f.a1), f.a5))),
      U64(2 * (Wide(f.a3, f.a4) + Wide(f.a2, f.a5) + Wide(f.a1, f.a6) + Wide(f.a0, f.a7))),
      U64(Wide(f.a4, f.a4) + (2 * (Wide(f.a2, f.a6) + Wide(f.a0, f.a8) + 2 * (Wide(f.a1, f.a7) + Wide(f.a3,
        f.a5))))),
      U64(2 * (Wide(f.a4, f.a5) + Wide(f.a3, f.a6) + Wide(f.a2, f.a7) + Wide(f.a1, f.a8) + Wide(f.a0, f.a9))))
  }

  /** X29 to X37. */
  function SqrHigh(f: Limbs): Limbs {
    Limbs(
      U64(2 * (Wide(f.a5, f.a5) + Wide(f.a4, f.a6) + Wide(f.a2, f.a8) + 2 * (Wide(f.a3, f.a7) + Wide(f.a1, f.a9)))),
      U64(2 * (Wide(f.a5, f.a6) + Wide(f.a4, f.a7) + Wide(f.a3, f.a8) + Wide(f.a2, f.a9))),
      U64(Wide(f.a6, f.a6) + (2 * (Wide(f.a4, f.a8) + 2 * (Wide(f.a5, f.a7) + Wide(f.a3, f.a9))))),
      U64(2 * (Wide(f.a6, f.a7) + Wide(f.a5, f.a8) + Wide(f.a4, f.a9))),
      U64(2 * (Wide(f.a7, f.a7) + Wide(f.a6, f.a8) + Wide(U32(2 * f.a5), f.a9))),
      U64(2 * (Wide(f.a7, f.a8) + Wide(f.a6, f.a9))),
      U64(Wide(f.a8, f.a8) + Wide(U32(4 * f.a7), f.a9)),
      U64(Wide(U32(2 * f.a8), f.a9)),
      U64(Wide(U32(2 * f.a9), f.a9)),
      0)
  }

  lemma Small32(x: nat)
    requires x < TWO32
    ensures U32(x) == x
  {
  }

  lemma Small64(x: nat)
    requires x < TWO64
    ensures U64(x) == x
  {
  }

  lemma WideTwice(x: nat, y: nat)
    ensures Wide(x, 2 * y) == 2 * Wide(x, y) && Wide(2 * x, y) == 2 * Wide(x, y) && Wide(4 * x, y) == 4 * Wide(x, y)
  {
  }

  /** The columns of FeMulImpl: nothing overflows 64 bits. */
  lemma MulColumns(f: Limbs, g: Limbs)
    requires Loose(f) && Loose(g)
    ensures MulLow(f, g) == Low(Table(f, g)) && MulHigh(f, g) == High(Table(f, g))
    ensures LowBound(MulLow(f, g)) && HighBound(MulHigh(f, g))
  {
    TableBound(f, g);
    ColumnBound(Table(f, g));
    Small32(2 * g.a1);
    Small32(2 * g.a9);
    WideTwice(f.a1, g.a1);
    WideTwice(f.a9, g.a9);
    hide Wide, U32, EvenRow, OddRow;
    var l, h := Low(Table(f, g)), High(Table(f, g));
    Small64(l.a0); Small64(l.a1); Small64(l.a2); Small64(l.a3); Small64(l.a4); Small64(l.a5); Small64(l.a6); Small64(l.a7); Small64(l.a8); Small64(l.a9);
    Small64(h.a0); Small64(h.a1); Small64(h.a2); Small64(h.a3); Small64(h.a4); Small64(h.a5); Small64(h.a6); Small64(h.a7); Small64(h.a8); Small64(h.a9);
    hide U64;
  }

  lemma WideSwap(x: nat, y: nat)
    ensures Wide(x, y) == Wide(y, x)
  {
  }

  predicate SymmetricRows(r: Rows) {
    && r.r1.a0 == r.r0.a1 && r.r2.a0 == r.r0.a2 && r.r3.a0 == r.r0.a3
    && r.r4.a0 == r.r0.a4 && r.r5.a0 == r.r0.a5 && r.r6.a0 == r.r0.a6
    && r.r7.a0 == r.r0.a7 && r.r8.a0 == r.r0.a8 && r.r9.a0 == r.r0.a9
    && r.r2.a1 == r.r1.a2 && r.r3.a1 == r.r1.a3 && r.r4.a1 == r.r1.a4
    && r.r5.a1 == r.r1.a5 && r.r6.a1 == r.r1.a6 && r.r7.a1 == r.r1.a7
    && r.r8.a1 == r.r1.a8 && r.r9.a1 == r.r1.a9 && r.r3.a2 == r.r2.a3
    && r.r4.a2 == r.r2.a4 && r.r5.a2 == r.r2.a5 && r.r6.a2 == r.r2.a6
    && r.r7.a2 == r.r2.a7 && r.r8.a2 == r.r2.a8 && r.r9.a2 == r.r2.a9
    && r.r4.a3 == r.r3.a4 && r.r5.a3 == r.r3.a5 && r.r6.a3 == r.r3.a6
    && r.r7.a3 == r.r3.a7 && r.r8.a3 == r.r3.a8 && r.r9.a3 == r.r3.a9
    && r.r5.a4 == r.r4.a5 && r.r6.a4 == r.r4.a6 && r.r7.a4 == r.r4.a7
    && r.r8.a4 == r.r4.a8 && r.r9.a4 == r.r4.a9 && r.r6.a5 == r.r5.a6
    && r.r7.a5 == r.r5.a7 && r.r8.a5 == r.r5.a8 && r.r9.a5 == r.r5.a9
    && r.r7.a6 == r.r6.a7 && r.r8.a6 == r.r6.a8 && r.r9.a6 == r.r6.a9
    && r.r8.a7 == r.r7.a8 && r.r9.a7 == r.r7.a9 && r.r9.a8 == r.r8.a9
  }

  /** The square of the limbs is symmetric. */
  lemma Symmetric(f: Limbs)
    ensures SymmetricRows(Table(f, f))
  {
    WideSwap(f.a0, f.a1); WideSwap(f.a0, f.a2); WideSwap(f.a0, f.a3); WideSwap(f.a0, f.a4); WideSwap(f.a0, f.a5); WideSwap(f.a0, f.a6); WideSwap(f.a0, f.a7); WideSwap(f.a0, f.a8); WideSwap(f.a0, f.a9);
    WideSwap(f.a1, f.a2); WideSwap(f.a1, f.a3); WideSwap(f.a1, f.a4); WideSwap(f.a1, f.a5); WideSwap(f.a1, f.a6); WideSwap(f.a1, f.a7); WideSwap(f.a1, f.a8); WideSwap(f.a1, f.a9);
    WideSwap(f.a2, f.a3); WideSwap(f.a2, f.a4); WideSwap(f.a2, f.a5); WideSwap(f.a2, f.a6); WideSwap(f.a2, f.a7); WideSwap(f.a2, f.a8); WideSwap(f.a2, f.a9);
    WideSwap(f.a3, f.a4); WideSwap(f.a3, f.a5); WideSwap(f.a3, f.a6); WideSwap(f.a3, f.a7); WideSwap(f.a3, f.a8); WideSwap(f.a3, f.a9);
    WideSwap(f.a4, f.a5); WideSwap(f.a4, f.a6); WideSwap(f.a4, f.a7); WideSwap(f.a4, f.a8); WideSwap(f.a4, f.a9);
    WideSwap(f.a5, f.a6); WideSwap(f.a5, f.a7); WideSwap(f.a5, f.a8); WideSwap(f.a5, f.a9);
    WideSwap(f.a6, f.a7); WideSwap(f.a6, f.a8); WideSwap(f.a6, f.a9);
    WideSwap(f.a7, f.a8); WideSwap(f.a7, f.a9);
    WideSwap(f.a8, f.a9);
    hide Wide;
  }

  lemma SqrLowColumns(f: Limbs)
    requires Loose(f)
    ensures SqrLow(f) == MulLow(f, f)
  {
    MulColumns(f, f);
    Symmetric(f);
    Small32(2 * f.a0); Small32(2 * f.a1); Small32(4 * f.a1);
    WideTwice(f.a0, f.a1); WideTwice(f.a1, f.a3); WideTwice(f.a0, f.a4); WideTwice(f.a1, f.a5);
    hide Wide, U32, MulLow, MulHigh, High;
    var l := Low(Table(f, f));
    Small64(l.a0); Small64(l.a1); Small64(l.a2); Small64(l.a3); Small64(l.a4); Small64(l.a5); Small64(l.a6); Small64(l.a7); Small64(l.a8); Small64(l.a9);
    hide U64;
  }

  lemma SqrHighColumns(f: Limbs)
    requires Loose(f)
    ensures SqrHigh(f) == MulHigh(f, f)
  {
    MulColumns(f, f);
    Symmetric(f);
    Small32(2 * f.a5); Small32(4 * f.a7); Small32(2 * f.a8); Small32(2 * f.a9);
    WideTwice(f.a5, f.a9); WideTwice(f.a7, f.a9); WideTwice(f.a8, f.a9); WideTwice(f.a9, f.a9);
    hide Wide, U32, MulLow, MulHigh, Low;
    var h := High(Table(f, f));
    Small64(h.a0); Small64(h.a1); Small64(h.a2); Small64(h.a3); Small64(h.a4); Small64(h.a5); Small64(h.a6); Small64(h.a7); Small64(h.a8);
    hide U64;
  }

  // ---------------------------------------------------------------- the reduction

  /** X48 + (X58 << 4) + (X58 << 1) + X58 */
  function Fold(l: nat, h: nat): nat {
    U64(U64(U64(l + U64(h * 16)) + U64(h * 2)) + h)
  }

  function FoldAll(l: Limbs, h: Limbs): Limbs {
    Limbs(Fold(l.a0, h.a0), Fold(l.a1, h.a1), Fold(l.a2, h.a2), Fold(l.a3, h.a3), Fold(l.a4, h.a4), Fold(l.a5, h.a5), Fold(l.a6, h.a6), Fold(l.a7, h.a7), Fold(l.a8, h.a8), l.a9)
  }

  function Low26(x: nat): (y: nat)
    ensures y < 0x400_0000
  {
    U32(x) % 0x400_0000
  }

  function Low25(x: nat): (y: nat)
    ensures y < 0x200_0000
  {
    U32(x) % 0x200_0000
  }

  /** The carries, once around and twice into limbs 1 and 2. */
  function Carry(t: Limbs): Limbs {
    var t1 := U64(t.a0 / 0x400_0000 + t.a1);
    var t2 := U64(t1 / 0x200_0000 + t.a2);
    var t3 := U64(t2 / 0x400_0000 + t.a3);
    var t4 := U64(t3 / 0x200_0000 + t.a4);
    var t5 := U64(t4 / 0x400_0000 + t.a5);
    var t6 := U64(t5 / 0x200_0000 + t.a6);
    var t7 := U64(t6 / 0x400_0000 + t.a7);
    var t8 := U64(t7 / 0x200_0000 + t.a8);
    var t9 := U64(t8 / 0x400_0000 + t.a9);
    var x := U64(Low26(t.a0) + U64(0x13 * (t9 / 0x200_0000)));
    var y := U32(U32(x / 0x400_0000) + Low25(t1));
    Limbs(Low26(x), y % 0x200_0000, U32(y / 0x200_0000 + Low26(t2)), Low25(t3), Low26(t4), Low25(t5),
          Low26(t6), Low25(t7), Low26(t8), Low25(t9))
  }

  function FeMul(f: Limbs, g: Limbs): Limbs {
    Carry(FoldAll(MulLow(f, g), MulHigh(f, g)))
  }

  function FeSqr(f: Limbs): Limbs {
    Carry(FoldAll(SqrLow(f), SqrHigh(f)))
  }

  predicate FoldBound(t: Limbs) {
    && t.a0 <= 0x58a2_2000_0000_0000 && t.a1 <= 0x36d1_4000_0000_0000 && t.a2 <= 0x4569_6000_0000_0000
    && t.a3 <= 0x2a00_c000_0000_0000 && t.a4 <= 0x3230_a000_0000_0000 && t.a5 <= 0x1d30_4000_0000_0000
    && t.a6 <= 0x1ef7_e000_0000_0000 && t.a7 <= 0x105f_c000_0000_0000 && t.a8 <= 0xbbf_2000_0000_0000
    && t.a9 <= 0x38f_4000_0000_0000
  }

  lemma FoldIs(l: nat, h: nat)
    requires l + 19 * h < TWO64
    ensures Fold(l, h) == l + 19 * h
  {
    Small64(h * 16); Small64(l + h * 16); Small64(h * 2); Small64(l + h * 16 + h * 2); Small64(l + 19 * h);
    hide U64;
  }

  /** 2^255 is 19 modulo p. */
  lemma FoldVal(l: Limbs, h: Limbs)
    requires LowBound(l) && HighBound(h)
    ensures FoldBound(FoldAll(l, h)) && Val(l) + TWO255 * Val(h) == Val(FoldAll(l, h)) + P * Val(h)
  {
    FoldIs(l.a0, h.a0); FoldIs(l.a1, h.a1); FoldIs(l.a2, h.a2); FoldIs(l.a3, h.a3); FoldIs(l.a4, h.a4); FoldIs(l.a5, h.a5); FoldIs(l.a6, h.a6); FoldIs(l.a7, h.a7); FoldIs(l.a8, h.a8);
    hide Fold;
  }

  /** One carry: the quotient goes up, the rest stays. */
  lemma CarryOut(t: nat)
    requires t < TWO64
    ensures U64(t) == t && Low26(t) == t % 0x400_0000 && Low25(t) == t % 0x200_0000
    ensures t == 0x400_0000 * (t / 0x400_0000) + t % 0x400_0000 && t == 0x200_0000 * (t / 0x200_0000) + t % 0x200_0000
  {
    Small64(t);
    Nested26(t);
    Nested25(t);
    hide U64, Low26, Low25;
  }

  lemma Nested26(t: nat)
    ensures Low26(t) == t % 0x400_0000
  {
    assert t == TWO32 * (t / TWO32) + U32(t);
  }

  lemma Nested25(t: nat)
    ensures Low25(t) == t % 0x200_0000
  {
    assert t == TWO32 * (t / TWO32) + U32(t);
  }

  /** The carries over the integers. */
  lemma CarrySizes(t: Limbs, t1: nat, t2: nat, t3: nat, t4: nat, t5: nat, t6: nat, t7: nat, t8: nat, t9: nat, c0: nat, c1: nat, c2: nat, c3: nat, c4: nat, c5: nat, c6: nat, c7: nat, c8: nat, c9: nat)
    requires FoldBound(t) && c0 == t.a0 / 0x400_0000
    requires t1 == c0 + t.a1 && c1 == t1 / 0x200_0000 && t2 == c1 + t.a2 && c2 == t2 / 0x400_0000 && t3 == c2 + t.a3 && c3 == t3 / 0x200_0000 && t4 == c3 + t.a4 && c4 == t4 / 0x400_0000 && t5 == c4 + t.a5 && c5 == t5 / 0x200_0000
    requires t6 == c5 + t.a6 && c6 == t6 / 0x400_0000 && t7 == c6 + t.a7 && c7 == t7 / 0x200_0000 && t8 == c7 + t.a8 && c8 == t8 / 0x400_0000 && t9 == c8 + t.a9 && c9 == t9 / 0x200_0000
    ensures t1 < TWO64 && t2 < TWO64 && t3 < TWO64 && t4 < TWO64 && t5 < TWO64 && t6 < TWO64 && t7 < TWO64 && t8 < TWO64 && t9 < TWO64 && t.a0 < TWO64 && c9 <= 0x1_c7a0_0177
  {
    assert c0 <= 0x16_2888_0000 && c1 <= 0x1b_68a0_0b14 && c2 <= 0x11_5a58_06da;
    assert c3 <= 0x15_0060_08ad && c4 <= 0xc_8c28_0540 && c5 <= 0xe_9820_0646;
    assert c6 <= 0x7_bdf8_03a6 && c7 <= 0x8_2fe0_03de && c8 <= 0x2_efc8_020b;
  }

  /** The last two carries. */
  lemma LastCarries(r0: nat, r1: nat, r2: nat, c9: nat, x: nat, y: nat)
    requires r0 < 0x400_0000 && r1 < 0x200_0000 && r2 < 0x400_0000 && c9 <= 0x1_c7a0_0177
    requires x == r0 + 0x13 * c9 && y == x / 0x400_0000 + r1
    ensures x < TWO64 && U64(0x13 * c9) == 0x13 * c9 && U64(x) == x && U32(x / 0x400_0000) == x / 0x400_0000
    ensures U32(y) == y && y / 0x200_0000 <= 1 && U32(y / 0x200_0000 + r2) == y / 0x200_0000 + r2
  {
    Small64(0x13 * c9); Small64(x); Small32(x / 0x400_0000); Small32(y); Small32(y / 0x200_0000 + r2);
    hide U32, U64;
  }

  lemma CarryIs(t: Limbs, t1: nat, t2: nat, t3: nat, t4: nat, t5: nat, t6: nat, t7: nat, t8: nat, t9: nat, c0: nat, c1: nat, c2: nat, c3: nat, c4: nat, c5: nat, c6: nat, c7: nat, c8: nat, c9: nat, x: nat, y: nat)
    requires t1 == c0 + t.a1 && c1 == t1 / 0x200_0000 && t2 == c1 + t.a2 && c2 == t2 / 0x400_0000 && t3 == c2 + t.a3 && c3 == t3 / 0x200_0000 && t4 == c3 + t.a4 && c4 == t4 / 0x400_0000 && t5 == c4 + t.a5 && c5 == t5 / 0x200_0000
    requires t6 == c5 + t.a6 && c6 == t6 / 0x400_0000 && t7 == c6 + t.a7 && c7 == t7 / 0x200_0000 && t8 == c7 + t.a8 && c8 == t8 / 0x400_0000 && t9 == c8 + t.a9 && c9 == t9 / 0x200_0000
    requires t.a0 < TWO64 && c0 == t.a0 / 0x400_0000 && t1 < TWO64 && t2 < TWO64 && t3 < TWO64 && t4 < TWO64 && t5 < TWO64 && t6 < TWO64 && t7 < TWO64 && t8 < TWO64 && t9 < TWO64 && c9 <= 0x1_c7a0_0177
    requires x == t.a0 % 0x400_0000 + 0x13 * c9 && y == x / 0x400_0000 + t1 % 0x200_0000
    ensures y / 0x200_0000 <= 1
    ensures Carry(t) == Limbs(x % 0x400_0000, y % 0x200_0000, y / 0x200_0000 + t2 % 0x400_0000, t3 % 0x200_0000, t4 % 0x400_0000, t5 % 0x200_0000, t6 % 0x400_0000, t7 % 0x200_0000, t8 % 0x400_0000, t9 % 0x200_0000)
  {
    hide Low26, Low25, U32, U64;
    CarryOut(t.a0);
    CarryOut(t1); CarryOut(t2); CarryOut(t3); CarryOut(t4); CarryOut(t5); CarryOut(t6); CarryOut(t7); CarryOut(t8); CarryOut(t9);
    LastCarries(t.a0 % 0x400_0000, t1 % 0x200_0000, t2 % 0x400_0000, c9, x, y);
    CarryOut(x);
  }

  /** Moving carries up keeps the value; what leaves the top comes back nineteen times. */
  lemma CarryMoves(t: Limbs, r: Limbs, c0: nat, c1: nat, c2: nat, c3: nat, c4: nat, c5: nat, c6: nat, c7: nat, c8: nat, c9: nat, d: nat, e: nat)
    requires t.a0 == 0x400_0000 * c0 + r.a0
    requires c0 + t.a1 == 0x200_0000 * c1 + r.a1 && c1 + t.a2 == 0x400_0000 * c2 + r.a2 && c2 + t.a3 == 0x200_0000 * c3 + r.a3 && c3 + t.a4 == 0x400_0000 * c4 + r.a4 && c4 + t.a5 == 0x200_0000 * c5 + r.a5
    requires c5 + t.a6 == 0x400_0000 * c6 + r.a6 && c6 + t.a7 == 0x200_0000 * c7 + r.a7 && c7 + t.a8 == 0x400_0000 * c8 + r.a8 && c8 + t.a9 == 0x200_0000 * c9 + r.a9
    requires r.a0 + 0x13 * c9 >= 0x400_0000 * d && d + r.a1 >= 0x200_0000 * e
    ensures Val(t) == Val(Limbs(r.a0 + 0x13 * c9 - 0x400_0000 * d, d + r.a1 - 0x200_0000 * e, e + r.a2,
                                r.a3, r.a4, r.a5, r.a6, r.a7, r.a8, r.a9)) + P * c9
  {
  }

  lemma Quotient26(t: nat) returns (q: nat, r: nat)
    ensures q == t / 0x400_0000 && r == t % 0x400_0000 && t == 0x400_0000 * q + r
  {
    q, r := t / 0x400_0000, t % 0x400_0000;
  }

  lemma Quotient25(t: nat) returns (q: nat, r: nat)
    ensures q == t / 0x200_0000 && r == t % 0x200_0000 && t == 0x200_0000 * q + r
  {
    q, r := t / 0x200_0000, t % 0x200_0000;
  }

  lemma CarryEnds(t: Limbs, r: Limbs, c0: nat, c1: nat, c2: nat, c3: nat, c4: nat, c5: nat, c6: nat, c7: nat, c8: nat, c9: nat, x0: nat, d: nat, y1: nat, e: nat)
    requires t.a0 == 0x400_0000 * c0 + r.a0
    requires c0 + t.a1 == 0x200_0000 * c1 + r.a1 && c1 + t.a2 == 0x400_0000 * c2 + r.a2 && c2 + t.a3 == 0x200_0000 * c3 + r.a3 && c3 + t.a4 == 0x400_0000 * c4 + r.a4 && c4 + t.a5 == 0x200_0000 * c5 + r.a5
    requires c5 + t.a6 == 0x400_0000 * c6 + r.a6 && c6 + t.a7 == 0x200_0000 * c7 + r.a7 && c7 + t.a8 == 0x400_0000 * c8 + r.a8 && c8 + t.a9 == 0x200_0000 * c9 + r.a9
    requires r.a0 < 0x400_0000 && r.a1 < 0x200_0000 && r.a2 < 0x400_0000 && r.a3 < 0x200_0000 && r.a4 < 0x400_0000 && r.a5 < 0x200_0000 && r.a6 < 0x400_0000 && r.a7 < 0x200_0000 && r.a8 < 0x400_0000 && r.a9 < 0x200_0000 && e <= 1
    requires r.a0 + 0x13 * c9 == 0x400_0000 * d + x0 && x0 < 0x400_0000 && d + r.a1 == 0x200_0000 * e + y1 && y1 < 0x200_0000
    ensures var f := Limbs(x0, y1, e + r.a2, r.a3, r.a4, r.a5, r.a6, r.a7, r.a8, r.a9); Tight(f) && Val(t) == Val(f) + P * c9
  {
    CarryMoves(t, r, c0, c1, c2, c3, c4, c5, c6, c7, c8, c9, d, e);
    hide Val;
  }

  lemma CarryVal(t: Limbs) returns (k: nat)
    requires FoldBound(t)
    ensures Tight(Carry(t)) && Val(t) == Val(Carry(t)) + P * k
  {
    var c0, r0 := Quotient26(t.a0);
    var t1 := c0 + t.a1; var c1, r1 := Quotient25(t1);
    var t2 := c1 + t.a2; var c2, r2 := Quotient26(t2);
    var t3 := c2 + t.a3; var c3, r3 := Quotient25(t3);
    var t4 := c3 + t.a4; var c4, r4 := Quotient26(t4);
    var t5 := c4 + t.a5; var c5, r5 := Quotient25(t5);
    var t6 := c5 + t.a6; var c6, r6 := Quotient26(t6);
    var t7 := c6 + t.a7; var c7, r7 := Quotient25(t7);
    var t8 := c7 + t.a8; var c8, r8 := Quotient26(t8);
    var t9 := c8 + t.a9; var c9, r9 := Quotient25(t9);
    var x := r0 + 0x13 * c9;
    var d, x0 := Quotient26(x);
    var y := d + r1;
    var e, y1 := Quotient25(y);
    CarrySizes(t, t1, t2, t3, t4, t5, t6, t7, t8, t9, c0, c1, c2, c3, c4, c5, c6, c7, c8, c9);
    CarryIs(t, t1, t2, t3, t4, t5, t6, t7, t8, t9, c0, c1, c2, c3, c4, c5, c6, c7, c8, c9, x, y);
    hide Carry, FoldBound, Val;
    CarryEnds(t, Limbs(r0, r1, r2, r3, r4, r5, r6, r7, r8, r9), c0, c1, c2, c3, c4, c5, c6, c7, c8, c9, x0, d, y1, e);
    k := c9;
  }

  lemma ModChain(product: nat, low: nat, high: nat, t: nat, c: nat, k: nat)
    requires product == low + TWO255 * high && low + TWO255 * high == t + P * high && t == c + P * k
    ensures c % P == product % P
  {
    ModAdd(t, high, P);
    ModAdd(c, k, P);
  }

  /** Within the loose bounds FeMulImpl overflows nowhere, its result is tight, and it is the product. */
  lemma MulVal(f: Limbs, g: Limbs)
    requires Loose(f) && Loose(g)
    ensures Tight(FeMul(f, g)) && Val(FeMul(f, g)) % P == Val(f) * Val(g) % P
  {
    var l, h := MulLow(f, g), MulHigh(f, g);
    var t := FoldAll(l, h);
    MulColumns(f, g);
    ProductVal(f, g);
    FoldVal(l, h);
    var k := CarryVal(t);
    FeMulIs(f, g);
    hide *;
    ModChain(Val(f) * Val(g), Val(l), Val(h), Val(t), Val(Carry(t)), k);
  }

  lemma FeMulIs(f: Limbs, g: Limbs)
    ensures FeMul(f, g) == Carry(FoldAll(MulLow(f, g), MulHigh(f, g)))
  {
  }

  /** FeSqrImpl is FeMulImpl with equal factors, limb for limb. */
  lemma SqrIsMul(f: Limbs)
    requires Loose(f)
    ensures FeSqr(f) == FeMul(f, f)
  {
    SqrLowColumns(f);
    SqrHighColumns(f);
    hide SqrLow, SqrHigh, MulLow, MulHigh, Carry, FoldAll;
  }
}
