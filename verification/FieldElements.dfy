/** Addition, subtraction and the encoding of field elements in driver/crypto.c. */
module FieldElements {
  import opened Words
  import opened Field25519

  // ---------------------------------------------------------------- sums and differences

  function FeAdd(f: Limbs, g: Limbs): Limbs {
    Limbs(U32(f.a0 + g.a0), U32(f.a1 + g.a1), U32(f.a2 + g.a2), U32(f.a3 + g.a3), U32(f.a4 + g.a4), U32(f.a5 + g.a5), U32(f.a6 + g.a6), U32(f.a7 + g.a7), U32(f.a8 + g.a8), U32(f.a9 + g.a9))
  }

  lemma AddVal(f: Limbs, g: Limbs)
    requires Tight(f) && Tight(g)
    ensures Loose(FeAdd(f, g)) && Val(FeAdd(f, g)) == Val(f) + Val(g)
  {
    Small32(f.a0 + g.a0); Small32(f.a1 + g.a1); Small32(f.a2 + g.a2); Small32(f.a3 + g.a3); Small32(f.a4 + g.a4); Small32(f.a5 + g.a5); Small32(f.a6 + g.a6); Small32(f.a7 + g.a7); Small32(f.a8 + g.a8); Small32(f.a9 + g.a9);
    hide U32, Val;
    assert FeAdd(f, g) == Plus(f, g);
    PlusVal(f, g);
    hide FeAdd;
  }

  /** (K + X) - Y in 32 bits */
  function Sub(k: nat, x: nat, y: nat): nat
    requires y < TWO32
  {
    U32(U32(k + x) + (TWO32 - y))
  }

  /** 2 p, limb by limb, keeps every difference positive. */
  function FeSub(f: Limbs, g: Limbs): Limbs
    requires Tight(g)
  {
    Limbs(Sub(0x7ff_ffda, f.a0, g.a0), Sub(0x3ff_fffe, f.a1, g.a1), Sub(0x7ff_fffe, f.a2, g.a2), Sub(0x3ff_fffe, f.a3, g.a3), Sub(0x7ff_fffe, f.a4, g.a4), Sub(0x3ff_fffe, f.a5, g.a5), Sub(0x7ff_fffe, f.a6, g.a6), Sub(0x3ff_fffe, f.a7, g.a7), Sub(0x7ff_fffe, f.a8, g.a8), Sub(0x3ff_fffe, f.a9, g.a9))
  }

  lemma SubIs(k: nat, x: nat, y: nat)
    requires k + x < TWO32 && y <= k
    ensures Sub(k, x, y) == k + x - y
  {
    Small32(k + x);
    ModUnique(k + x + (TWO32 - y), TWO32, 1, k + x - y);
  }

  lemma SubVal(f: Limbs, g: Limbs)
    requires Tight(f) && Tight(g)
    ensures Loose(FeSub(f, g)) && Val(FeSub(f, g)) == Val(f) + 2 * P - Val(g)
  {
    SubIs(0x7ff_ffda, f.a0, g.a0); SubIs(0x3ff_fffe, f.a1, g.a1); SubIs(0x7ff_fffe, f.a2, g.a2); SubIs(0x3ff_fffe, f.a3, g.a3); SubIs(0x7ff_fffe, f.a4, g.a4); SubIs(0x3ff_fffe, f.a5, g.a5); SubIs(0x7ff_fffe, f.a6, g.a6); SubIs(0x3ff_fffe, f.a7, g.a7); SubIs(0x7ff_fffe, f.a8, g.a8); SubIs(0x3ff_fffe, f.a9, g.a9);
    hide Sub;
  }

  // ---------------------------------------------------------------- FeFreeze

  /** X = A - B - C in 32 bits. */
  function Difference(c: nat, a: nat, b: nat): nat
    requires b + c <= TWO32
  {
    U32(a + (TWO32 - b - c))
  }

  function Sub26(c: nat, a: nat, b: nat): (nat, nat)
    requires b + c <= TWO32
  {
    (Difference(c, a, b) % 0x400_0000, Difference(c, a, b) / 0x8000_0000)
  }

  function Sub25(c: nat, a: nat, b: nat): (nat, nat)
    requires b + c <= TWO32
  {
    (Difference(c, a, b) % 0x200_0000, Difference(c, a, b) / 0x8000_0000)
  }

  function Add26(c: nat, a: nat, b: nat): (nat, nat) {
    (U32(a + b + c) % 0x400_0000, U32(a + b + c) / 0x400_0000 % 2)
  }

  function Add25(c: nat, a: nat, b: nat): (nat, nat) {
    (U32(a + b + c) % 0x200_0000, U32(a + b + c) / 0x200_0000 % 2)
  }

  lemma DifferenceIs(c: nat, a: nat, b: nat)
    requires b + c <= 0x400_0000 && a <= 0x480_0000
    ensures Difference(c, a, b) == if a >= b + c then a - b - c else a + (TWO32 - b - c)
  {
    if a >= b + c { ModUnique(a + (TWO32 - b - c), TWO32, 1, a - b - c); }
    else { Small32(a + (TWO32 - b - c)); }
  }

  /** The low bits and the borrow of a limb. */
  lemma Sub26Is(c: nat, a: nat, b: nat)
    requires c <= 1 && 0x3ff_ffed <= b <= 0x3ff_ffff && a <= 0x480_0000
    ensures var s := Sub26(c, a, b); s.0 < 0x400_0000 && s.1 <= 1 && s.0 + b + c == a + 0x400_0000 * s.1
  {
    DifferenceIs(c, a, b);
    hide Difference;
  }

  lemma Sub25Is(c: nat, a: nat, b: nat)
    requires c <= 1 && b == 0x1ff_ffff && a <= 0x240_0000
    ensures var s := Sub25(c, a, b); s.0 < 0x200_0000 && s.1 <= 1 && s.0 + b + c == a + 0x200_0000 * s.1
  {
    DifferenceIs(c, a, b);
    hide Difference;
  }

  lemma Add26Is(c: nat, a: nat, b: nat)
    requires c <= 1 && a < 0x400_0000 && b < 0x400_0000
    ensures var s := Add26(c, a, b); s.0 < 0x400_0000 && s.1 <= 1 && s.0 + 0x400_0000 * s.1 == a + b + c
  {
    Small32(a + b + c);
    hide U32;
  }

  lemma Add25Is(c: nat, a: nat, b: nat)
    requires c <= 1 && a < 0x200_0000 && b < 0x200_0000
    ensures var s := Add25(c, a, b); s.0 < 0x200_0000 && s.1 <= 1 && s.0 + 0x200_0000 * s.1 == a + b + c
  {
    Small32(a + b + c);
    hide U32;
  }

  /** Limbs of exactly 26 and 25 bits. */
  predicate Exact(l: Limbs) {
    l.a0 < 0x400_0000 && l.a1 < 0x200_0000 && l.a2 < 0x400_0000 && l.a3 < 0x200_0000 && l.a4 < 0x400_0000
    && l.a5 < 0x200_0000 && l.a6 < 0x400_0000 && l.a7 < 0x200_0000 && l.a8 < 0x400_0000 && l.a9 < 0x200_0000
  }

  /** In minus p, limb by limb, and the last borrow. */
  function MinusP(f: Limbs): (Limbs, nat)
    requires Tight(f)
  {
    Sub26Is(0, f.a0, 0x3ff_ffed);
    var s0 := Sub26(0, f.a0, 0x3ff_ffed);
    Sub25Is(s0.1, f.a1, 0x1ff_ffff);
    var s1 := Sub25(s0.1, f.a1, 0x1ff_ffff);
    Sub26Is(s1.1, f.a2, 0x3ff_ffff);
    var s2 := Sub26(s1.1, f.a2, 0x3ff_ffff);
    Sub25Is(s2.1, f.a3, 0x1ff_ffff);
    var s3 := Sub25(s2.1, f.a3, 0x1ff_ffff);
    Sub26Is(s3.1, f.a4, 0x3ff_ffff);
    var s4 := Sub26(s3.1, f.a4, 0x3ff_ffff);
    Sub25Is(s4.1, f.a5, 0x1ff_ffff);
    var s5 := Sub25(s4.1, f.a5, 0x1ff_ffff);
    Sub26Is(s5.1, f.a6, 0x3ff_ffff);
    var s6 := Sub26(s5.1, f.a6, 0x3ff_ffff);
    Sub25Is(s6.1, f.a7, 0x1ff_ffff);
    var s7 := Sub25(s6.1, f.a7, 0x1ff_ffff);
    Sub26Is(s7.1, f.a8, 0x3ff_ffff);
    var s8 := Sub26(s7.1, f.a8, 0x3ff_ffff);
    Sub25Is(s8.1, f.a9, 0x1ff_ffff);
    var s9 := Sub25(s8.1, f.a9, 0x1ff_ffff);
    (Limbs(s0.0, s1.0, s2.0, s3.0, s4.0, s5.0, s6.0, s7.0, s8.0, s9.0), s9.1)
  }

  lemma MinusPVal(f: Limbs)
    requires Tight(f)
    ensures Exact(MinusP(f).0) && MinusP(f).1 <= 1
    ensures Val(MinusP(f).0) + P == Val(f) + TWO255 * MinusP(f).1
  {
    Sub26Is(0, f.a0, 0x3ff_ffed);
    var s0 := Sub26(0, f.a0, 0x3ff_ffed);
    Sub25Is(s0.1, f.a1, 0x1ff_ffff);
    var s1 := Sub25(s0.1, f.a1, 0x1ff_ffff);
    Sub26Is(s1.1, f.a2, 0x3ff_ffff);
    var s2 := Sub26(s1.1, f.a2, 0x3ff_ffff);
    Sub25Is(s2.1, f.a3, 0x1ff_ffff);
    var s3 := Sub25(s2.1, f.a3, 0x1ff_ffff);
    Sub26Is(s3.1, f.a4, 0x3ff_ffff);
    var s4 := Sub26(s3.1, f.a4, 0x3ff_ffff);
    Sub25Is(s4.1, f.a5, 0x1ff_ffff);
    var s5 := Sub25(s4.1, f.a5, 0x1ff_ffff);
    Sub26Is(s5.1, f.a6, 0x3ff_ffff);
    var s6 := Sub26(s5.1, f.a6, 0x3ff_ffff);
    Sub25Is(s6.1, f.a7, 0x1ff_ffff);
    var s7 := Sub25(s6.1, f.a7, 0x1ff_ffff);
    Sub26Is(s7.1, f.a8, 0x3ff_ffff);
    var s8 := Sub26(s7.1, f.a8, 0x3ff_ffff);
    Sub25Is(s8.1, f.a9, 0x1ff_ffff);
    var s9 := Sub25(s8.1, f.a9, 0x1ff_ffff);
    hide Sub26, Sub25;
    assert MinusP(f) == (Limbs(s0.0, s1.0, s2.0, s3.0, s4.0, s5.0, s6.0, s7.0, s8.0, s9.0), s9.1);
    hide MinusP;
  }

  /** Out: p added back under a mask. */
  function PlusMasked(l: Limbs, mask: nat): (Limbs, nat) {
    var s0 := Add26(0, l.a0, And(0x3ff_ffed, mask));
    var s1 := Add25(s0.1, l.a1, And(0x1ff_ffff, mask));
    var s2 := Add26(s1.1, l.a2, And(0x3ff_ffff, mask));
    var s3 := Add25(s2.1, l.a3, And(0x1ff_ffff, mask));
    var s4 := Add26(s3.1, l.a4, And(0x3ff_ffff, mask));
    var s5 := Add25(s4.1, l.a5, And(0x1ff_ffff, mask));
    var s6 := Add26(s5.1, l.a6, And(0x3ff_ffff, mask));
    var s7 := Add25(s6.1, l.a7, And(0x1ff_ffff, mask));
    var s8 := Add26(s7.1, l.a8, And(0x3ff_ffff, mask));
    var s9 := Add25(s8.1, l.a9, And(0x1ff_ffff, mask));
    (Limbs(s0.0, s1.0, s2.0, s3.0, s4.0, s5.0, s6.0, s7.0, s8.0, s9.0), s9.1)
  }

  /** The limbs of p under a mask, or of 0. */
  predicate Masked(mask: nat, on: nat) {
    && And(0x3ff_ffed, mask) == 0x3ff_ffed * on && And(0x1ff_ffff, mask) == 0x1ff_ffff * on && And(0x3ff_ffff, mask) == 0x3ff_ffff * on
  }

  lemma PlusMaskedVal(l: Limbs, mask: nat, on: nat)
    requires Exact(l) && on <= 1 && Masked(mask, on)
    ensures Exact(PlusMasked(l, mask).0) && PlusMasked(l, mask).1 <= 1
    ensures Val(PlusMasked(l, mask).0) + TWO255 * PlusMasked(l, mask).1 == Val(l) + P * on
  {
    hide And;
    Add26Is(0, l.a0, And(0x3ff_ffed, mask));
    var s0 := Add26(0, l.a0, And(0x3ff_ffed, mask));
    Add25Is(s0.1, l.a1, And(0x1ff_ffff, mask));
    var s1 := Add25(s0.1, l.a1, And(0x1ff_ffff, mask));
    Add26Is(s1.1, l.a2, And(0x3ff_ffff, mask));
    var s2 := Add26(s1.1, l.a2, And(0x3ff_ffff, mask));
    Add25Is(s2.1, l.a3, And(0x1ff_ffff, mask));
    var s3 := Add25(s2.1, l.a3, And(0x1ff_ffff, mask));
    Add26Is(s3.1, l.a4, And(0x3ff_ffff, mask));
    var s4 := Add26(s3.1, l.a4, And(0x3ff_ffff, mask));
    Add25Is(s4.1, l.a5, And(0x1ff_ffff, mask));
    var s5 := Add25(s4.1, l.a5, And(0x1ff_ffff, mask));
    Add26Is(s5.1, l.a6, And(0x3ff_ffff, mask));
    var s6 := Add26(s5.1, l.a6, And(0x3ff_ffff, mask));
    Add25Is(s6.1, l.a7, And(0x1ff_ffff, mask));
    var s7 := Add25(s6.1, l.a7, And(0x1ff_ffff, mask));
    Add26Is(s7.1, l.a8, And(0x3ff_ffff, mask));
    var s8 := Add26(s7.1, l.a8, And(0x3ff_ffff, mask));
    Add25Is(s8.1, l.a9, And(0x1ff_ffff, mask));
    var s9 := Add25(s8.1, l.a9, And(0x1ff_ffff, mask));
    hide Add26, Add25;
    assert PlusMasked(l, mask) == (Limbs(s0.0, s1.0, s2.0, s3.0, s4.0, s5.0, s6.0, s7.0, s8.0, s9.0), s9.1);
    hide PlusMasked;
  }

  /** All ones if t is not 0: the mask picks nz, otherwise z. */
  function Cmovznz32(t: nat, z: nat, nz: nat): nat {
    var m := if t != 0 then TWO32 - 1 else 0;
    Or(And(nz, m), And(z, TWO32 - 1 - m))
  }

  lemma PowThirtyTwo()
    ensures Pow2(32) == TWO32
  {
    assert Pow2(4) == 16 && Pow2(8) == 16 * Pow2(4) && Pow2(12) == 16 * Pow2(8) && Pow2(16) == 16 * Pow2(12);
    assert Pow2(20) == 16 * Pow2(16) && Pow2(24) == 16 * Pow2(20) && Pow2(28) == 16 * Pow2(24) && Pow2(32) == 16 * Pow2(28);
  }

  lemma MaskIs(borrow: nat)
    requires borrow <= 1
    ensures Masked(Cmovznz32(borrow, 0, TWO32 - 1), borrow)
  {
    hide And, Or;
    Cmovznz(borrow);
    AndWord(0x3ff_ffed);
    AndWord(0x1ff_ffff);
    AndWord(0x3ff_ffff);
  }

  lemma AndWord(x: nat)
    requires x < TWO32
    ensures And(x, TWO32 - 1) == x && And(x, 0) == 0
  {
    PowThirtyTwo();
    AndLow(x, 32);
    AndLow(x, 0);
    hide And;
  }

  lemma Cmovznz(borrow: nat)
    requires borrow <= 1
    ensures Cmovznz32(borrow, 0, TWO32 - 1) == if borrow == 0 then 0 else TWO32 - 1
  {
    AndWord(TWO32 - 1);
    AndWord(0);
  }

  function FeFreeze(f: Limbs): Limbs
    requires Tight(f)
  {
    PlusMasked(MinusP(f).0, Cmovznz32(MinusP(f).1, 0, TWO32 - 1)).0
  }

  /** FeFreeze gives the residue, in exact limbs. */
  lemma FreezeVal(f: Limbs)
    requires Tight(f)
    ensures Exact(FeFreeze(f)) && Val(FeFreeze(f)) == Val(f) % P
  {
    var m := MinusP(f);
    MinusPVal(f);
    MaskIs(m.1);
    PlusMaskedVal(m.0, Cmovznz32(m.1, 0, TWO32 - 1), m.1);
    ExactVal(m.0);
    ExactVal(FeFreeze(f));
    TightVal(f);
    hide *;
    FreezeMod(Val(f), Val(m.0), m.1, Val(FeFreeze(f)), PlusMasked(m.0, Cmovznz32(m.1, 0, TWO32 - 1)).1);
  }

  lemma FreezeMod(v: nat, low: nat, borrow: nat, res: nat, carry: nat)
    requires v < 2 * P && low < TWO255 && res < TWO255 && borrow <= 1 && carry <= 1
    requires low + P == v + TWO255 * borrow && res + TWO255 * carry == low + P * borrow
    ensures res == v % P
  {
    if borrow == 0 { ModUnique(v, P, 1, v - P); } else { ModUnique(v, P, 0, v); }
  }

  lemma ExactVal(l: Limbs)
    requires Exact(l)
    ensures Val(l) < TWO255
  {
  }

  lemma TightVal(l: Limbs)
    requires Tight(l)
    ensures Val(l) < 2 * P
  {
  }

  // ---------------------------------------------------------------- bytes

  /** Four expressions, each cut to a byte. */
  function Bytes4(a: nat, b: nat, c: nat, d: nat): (s: seq<byte>)
    ensures |s| == 4
  {
    [a % 256, b % 256, c % 256, d % 256]
  }

  /** lo | (hi << k) in 32 bits */
  function Glue(lo: nat, hi: nat, k: nat): nat {
    Or(lo, U32(hi * Pow2(k)))
  }

  /** The 32 bytes of exact limbs, as FeTobytes stores them. */
  function Pack(h: Limbs): (s: seq<byte>)
    ensures |s| == 32
  {
    hide Bytes4, Glue;
    Bytes4(h.a0, h.a0 / 0x100, h.a0 / 0x1_0000, Glue(h.a0 / 0x100_0000, h.a1, 2))
    + Bytes4(h.a1 / 0x40, h.a1 / 0x4000, Glue(h.a1 / 0x40_0000, h.a2, 3), h.a2 / 0x20)
    + Bytes4(h.a2 / 0x2000, Glue(h.a2 / 0x20_0000, h.a3, 5), h.a3 / 8, h.a3 / 0x800)
    + Bytes4(Glue(h.a3 / 0x8_0000, h.a4, 6), h.a4 / 4, h.a4 / 0x400, h.a4 / 0x4_0000)
    + Bytes4(h.a5, h.a5 / 0x100, h.a5 / 0x1_0000, Glue(h.a5 / 0x100_0000, h.a6, 1))
    + Bytes4(h.a6 / 0x80, h.a6 / 0x8000, Glue(h.a6 / 0x80_0000, h.a7, 3), h.a7 / 0x20)
    + Bytes4(h.a7 / 0x2000, Glue(h.a7 / 0x20_0000, h.a8, 4), h.a8 / 0x10, h.a8 / 0x1000)
    + Bytes4(Glue(h.a8 / 0x10_0000, h.a9, 6), h.a9 / 4, h.a9 / 0x400, h.a9 / 0x4_0000)
  }

  function FeTobytes(f: Limbs): (s: seq<byte>)
    requires Tight(f)
    ensures |s| == 32
  {
    Pack(FeFreeze(f))
  }

  lemma PowSmall()
    ensures Pow2(1) == 2 && Pow2(2) == 4 && Pow2(3) == 8 && Pow2(4) == 0x10 && Pow2(5) == 0x20 && Pow2(6) == 0x40
    ensures Pow2(7) == 0x80 && Pow2(13) == 0x2000 && Pow2(19) == 0x8_0000 && Pow2(20) == 0x10_0000
  {
    assert Pow2(3) == 8 && Pow2(5) == 4 * Pow2(3) && Pow2(7) == 4 * Pow2(5) && Pow2(10) == 8 * Pow2(7);
    assert Pow2(13) == 8 * Pow2(10) && Pow2(16) == 8 * Pow2(13) && Pow2(19) == 8 * Pow2(16);
  }

  /** Nothing is shifted out, and the bits do not mix. */
  lemma Glue1(lo: nat, hi: nat)
    requires lo < 2 && hi < 0x400_0000
    ensures Glue(lo, hi, 1) == lo + 2 * hi
  {
    PowSmall();
    Small32(hi * 2);
    OrShift(lo, hi, 1);
    hide Or, Pow2, U32;
  }

  lemma Glue2(lo: nat, hi: nat)
    requires lo < 4 && hi < 0x400_0000
    ensures Glue(lo, hi, 2) == lo + 4 * hi
  {
    PowSmall();
    Small32(hi * 4);
    OrShift(lo, hi, 2);
    hide Or, Pow2, U32;
  }

  lemma Glue3(lo: nat, hi: nat)
    requires lo < 8 && hi < 0x400_0000
    ensures Glue(lo, hi, 3) == lo + 8 * hi
  {
    PowSmall();
    Small32(hi * 8);
    OrShift(lo, hi, 3);
    hide Or, Pow2, U32;
  }

  lemma Glue4(lo: nat, hi: nat)
    requires lo < 16 && hi < 0x400_0000
    ensures Glue(lo, hi, 4) == lo + 16 * hi
  {
    PowSmall();
    Small32(hi * 16);
    OrShift(lo, hi, 4);
    hide Or, Pow2, U32;
  }

  lemma Glue5(lo: nat, hi: nat)
    requires lo < 32 && hi < 0x400_0000
    ensures Glue(lo, hi, 5) == lo + 32 * hi
  {
    PowSmall();
    Small32(hi * 32);
    OrShift(lo, hi, 5);
    hide Or, Pow2, U32;
  }

  lemma Glue6(lo: nat, hi: nat)
    requires lo < 64 && hi < 0x400_0000
    ensures Glue(lo, hi, 6) == lo + 64 * hi
  {
    PowSmall();
    Small32(hi * 64);
    OrShift(lo, hi, 6);
    hide Or, Pow2, U32;
  }

  /** The byte at a seam: the low part keeps its bits, the high part gives the others. */
  lemma SeamByte(lo: nat, y: nat, p: nat, room: nat)
    requires (p == 2 && room == 128) || (p == 4 && room == 64) || (p == 8 && room == 32)
          || (p == 16 && room == 16) || (p == 32 && room == 8) || (p == 64 && room == 4)
    requires lo < p
    ensures (lo + p * y) % 256 == lo + p * (y % room)
  {
    SeamDigits(y, p, room);
    SeamSum(lo, y, p, room, y / room, y % room);
    hide *;
  }

  lemma SeamDigits(y: nat, p: nat, room: nat)
    requires (p == 2 && room == 128) || (p == 4 && room == 64) || (p == 8 && room == 32)
          || (p == 16 && room == 16) || (p == 32 && room == 8) || (p == 64 && room == 4)
    ensures room * p == 256 && y == room * (y / room) + y % room
  {
  }

  lemma SeamSum(lo: nat, y: nat, p: nat, room: nat, q: nat, r: nat)
    requires p > 0 && room > 0 && room * p == 256 && y == room * q + r && r < room && lo < p
    ensures (lo + p * y) % 256 == lo + p * r
  {
    Products(p, room, y, q, r);
    hide *;
    ModUnique(lo + p * y, 256, q, lo + p * r);
  }

  /** Two digits, of base d and of base b, are one of base b * d. */
  lemma TwoDigits(y: nat, d: nat, b: nat)
    requires d > 0 && b > 0
    ensures b * d > 0 && y % (b * d) == y % d + d * (y / d % b) && y / (b * d) == y / d / b
  {
    var q, r := y / d, y % d;
    var q2, r2 := q / b, q % b;
    Products(d, b, q, q2, r2);
    hide *;
    ModUnique(y, b * d, q2, d * r2 + r);
  }

  lemma Products(d: nat, b: nat, y: nat, q: nat, r: nat)
    requires d > 0 && b > 0 && r < b && y == b * q + r
    ensures d * y == (b * d) * q + d * r && d * r + d <= b * d && b * d > 0
  {
    assert d * (b * q) == (b * d) * q;
    assert d * (b * q + r) == d * (b * q) + d * r;
    MulBound(d, r + 1, d, b);
    assert d * (r + 1) == d * r + d;
  }

  lemma Digits2(y: nat, d: nat)
    requires d == 4 || d == 8 || d == 16 || d == 32
    ensures y % (256 * d) == y % d + d * (y / d % 256)
  {
    TwoDigits(y, d, 256);
  }

  lemma Digits3(y: nat, d: nat)
    requires d == 4 || d == 8 || d == 16
    ensures y % (0x1_0000 * d) == y % d + d * (y / d % 256) + 256 * d * (y / (256 * d) % 256)
  {
    TwoDigits(y, d, 256);
    TwoDigits(y, 256 * d, 256);
  }

  lemma Top24(x: nat)
    ensures x % 256 + 0x100 * (x / 0x100 % 256) + 0x1_0000 * (x / 0x1_0000 % 256) + 0x100_0000 * (x / 0x100_0000) == x
  {
    TwoDigits(x, 256, 256);
    TwoDigits(x, 0x1_0000, 256);
  }

  lemma Top16(x: nat)
    ensures x % 256 + 0x100 * (x / 0x100 % 256) + 0x1_0000 * (x / 0x1_0000) == x
  {
  }

  lemma Nest(x: nat, a: nat, b: nat)
    requires a > 0 && b > 0
    ensures b * a > 0 && x / a / b == x / (b * a)
  {
    TwoDigits(x, a, b);
  }

  /** Words 0 and 4: 24 bits of a limb, then the seam. */
  lemma SeamLast(x: nat, y: nat, p: nat, room: nat, g: nat)
    requires (p == 2 && room == 128) || (p == 4 && room == 64)
    requires x < 0x100_0000 * p && g == x / 0x100_0000 + p * y
    ensures Le32(Bytes4(x, x / 0x100, x / 0x1_0000, g), 0) == x + 0x100_0000 * p * (y % room)
  {
    SeamByte(x / 0x100_0000, y, p, room);
    Top24(x);
    if p == 2 {} else {}
  }

  /** Words 1 and 5: 16 bits left of a limb, the seam, 8 bits. */
  lemma SeamThird(x: nat, y: nat, g: nat)
    requires x < 0x8_0000 && g == x / 0x1_0000 + 8 * y
    ensures Le32(Bytes4(x, x / 0x100, g, y / 0x20), 0) == x + 0x8_0000 * (y % 0x2000)
  {
    SeamByte(x / 0x1_0000, y, 8, 32);
    Top16(x);
    Digits2(y, 32);
  }

  /** Words 2 and 6: 8 bits left of a limb, the seam, 16 bits. */
  lemma SeamSecond(x: nat, y: nat, p: nat, room: nat, g: nat)
    requires (p == 32 && room == 8) || (p == 16 && room == 16)
    requires x < 256 * p && g == x / 0x100 + p * y
    ensures Le32(Bytes4(x, g, y / room, y / (256 * room)), 0) == x + 256 * p * (y % (0x1_0000 * room))
  {
    SeamByte(x / 0x100, y, p, room);
    Digits3(y, room);
    if p == 32 {} else {}
  }

  lemma BytesWord(a: nat, b: nat, c: nat, d: nat)
    ensures Le32(Bytes4(a, b, c, d), 0) == a % 256 + 0x100 * (b % 256) + 0x1_0000 * (c % 256) + 0x100_0000 * (d % 256)
  {
  }

  /** Words 3 and 7: the seam first. */
  lemma SeamFirst(x: nat, y: nat, g: nat)
    requires x < 64 && y < 0x400_0000 && g == x + 64 * y
    ensures Le32(Bytes4(g, y / 4, y / 0x400, y / 0x4_0000), 0) == x + 64 * y
  {
    hide *;
    SeamByte(x, y, 64, 4);
    FourDigits(y);
    BytesWord(g, y / 4, y / 0x400, y / 0x4_0000);
    SeamFirstSum(x, y, y % 4, y / 4 % 256, y / 0x400 % 256, y / 0x4_0000 % 256);
  }

  lemma SeamFirstSum(x: nat, y: nat, d0: nat, d1: nat, d2: nat, d3: nat)
    requires y == d0 + 4 * d1 + 0x400 * d2 + 0x4_0000 * d3
    ensures x + 64 * d0 + 0x100 * d1 + 0x1_0000 * d2 + 0x100_0000 * d3 == x + 64 * y
  {
  }

  lemma FourDigits(y: nat)
    requires y < 0x400_0000
    ensures y == y % 4 + 4 * (y / 4 % 256) + 0x400 * (y / 0x400 % 256) + 0x4_0000 * (y / 0x4_0000 % 256)
  {
    Digits3(y, 4);
    assert y / 0x4_0000 < 256;
  }

  /** The eight 32-bit words of the encoding. */
  lemma PackWords(h: Limbs)
    requires Exact(h)
    ensures var s := Pack(h);
      && Le32(s, 0) == h.a0 + 0x400_0000 * (h.a1 % 0x40)
      && Le32(s, 4) == h.a1 / 0x40 + 0x8_0000 * (h.a2 % 0x2000)
      && Le32(s, 8) == h.a2 / 0x2000 + 0x2000 * (h.a3 % 0x8_0000)
      && Le32(s, 12) == h.a3 / 0x8_0000 + 0x40 * h.a4
      && Le32(s, 16) == h.a5 + 0x200_0000 * (h.a6 % 0x80)
      && Le32(s, 20) == h.a6 / 0x80 + 0x8_0000 * (h.a7 % 0x2000)
      && Le32(s, 24) == h.a7 / 0x2000 + 0x1000 * (h.a8 % 0x10_0000)
      && Le32(s, 28) == h.a8 / 0x10_0000 + 0x40 * h.a9
  {
    hide Bytes4, Glue;
    PackWords0(h); PackWords1(h); PackWords2(h); PackWords3(h);
    PackWords4(h); PackWords5(h); PackWords6(h); PackWords7(h);
  }

  lemma PackWords0(h: Limbs)
    requires Exact(h)
    ensures Le32(Bytes4(h.a0, h.a0 / 0x100, h.a0 / 0x1_0000, Glue(h.a0 / 0x100_0000, h.a1, 2)), 0) == h.a0 + 0x400_0000 * (h.a1 % 0x40)
  {
    hide Bytes4, Glue;
    Glue2(h.a0 / 0x100_0000, h.a1);
    SeamLast(h.a0, h.a1, 4, 64, Glue(h.a0 / 0x100_0000, h.a1, 2));
  }

  lemma PackWords1(h: Limbs)
    requires Exact(h)
    ensures Le32(Bytes4(h.a1 / 0x40, h.a1 / 0x4000, Glue(h.a1 / 0x40_0000, h.a2, 3), h.a2 / 0x20), 0)
         == h.a1 / 0x40 + 0x8_0000 * (h.a2 % 0x2000)
  {
    hide Bytes4, Glue;
    Nest(h.a1, 0x40, 0x100);
    Nest(h.a1, 0x40, 0x1_0000);
    Glue3(h.a1 / 0x40_0000, h.a2);
    SeamThird(h.a1 / 0x40, h.a2, Glue(h.a1 / 0x40_0000, h.a2, 3));
  }

  lemma PackWords2(h: Limbs)
    requires Exact(h)
    ensures Le32(Bytes4(h.a2 / 0x2000, Glue(h.a2 / 0x20_0000, h.a3, 5), h.a3 / 8, h.a3 / 0x800), 0)
         == h.a2 / 0x2000 + 0x2000 * (h.a3 % 0x8_0000)
  {
    hide Bytes4, Glue;
    Nest(h.a2, 0x2000, 0x100);
    Glue5(h.a2 / 0x20_0000, h.a3);
    SeamSecond(h.a2 / 0x2000, h.a3, 32, 8, Glue(h.a2 / 0x20_0000, h.a3, 5));
  }

  lemma PackWords3(h: Limbs)
    requires Exact(h)
    ensures Le32(Bytes4(Glue(h.a3 / 0x8_0000, h.a4, 6), h.a4 / 4, h.a4 / 0x400, h.a4 / 0x4_0000), 0) == h.a3 / 0x8_0000 + 0x40 * h.a4
  {
    hide Bytes4, Glue;
    Glue6(h.a3 / 0x8_0000, h.a4);
    SeamFirst(h.a3 / 0x8_0000, h.a4, Glue(h.a3 / 0x8_0000, h.a4, 6));
  }

  lemma PackWords4(h: Limbs)
    requires Exact(h)
    ensures Le32(Bytes4(h.a5, h.a5 / 0x100, h.a5 / 0x1_0000, Glue(h.a5 / 0x100_0000, h.a6, 1)), 0) == h.a5 + 0x200_0000 * (h.a6 % 0x80)
  {
    hide Bytes4, Glue;
    Glue1(h.a5 / 0x100_0000, h.a6);
    SeamLast(h.a5, h.a6, 2, 128, Glue(h.a5 / 0x100_0000, h.a6, 1));
  }

  lemma PackWords5(h: Limbs)
    requires Exact(h)
    ensures Le32(Bytes4(h.a6 / 0x80, h.a6 / 0x8000, Glue(h.a6 / 0x80_0000, h.a7, 3), h.a7 / 0x20), 0)
         == h.a6 / 0x80 + 0x8_0000 * (h.a7 % 0x2000)
  {
    hide Bytes4, Glue;
    Nest(h.a6, 0x80, 0x100);
    Nest(h.a6, 0x80, 0x1_0000);
    Glue3(h.a6 / 0x80_0000, h.a7);
    SeamThird(h.a6 / 0x80, h.a7, Glue(h.a6 / 0x80_0000, h.a7, 3));
  }

  lemma PackWords6(h: Limbs)
    requires Exact(h)
    ensures Le32(Bytes4(h.a7 / 0x2000, Glue(h.a7 / 0x20_0000, h.a8, 4), h.a8 / 0x10, h.a8 / 0x1000), 0)
         == h.a7 / 0x2000 + 0x1000 * (h.a8 % 0x10_0000)
  {
    hide Bytes4, Glue;
    Nest(h.a7, 0x2000, 0x100);
    Glue4(h.a7 / 0x20_0000, h.a8);
    SeamSecond(h.a7 / 0x2000, h.a8, 16, 16, Glue(h.a7 / 0x20_0000, h.a8, 4));
  }

  lemma PackWords7(h: Limbs)
    requires Exact(h)
    ensures Le32(Bytes4(Glue(h.a8 / 0x10_0000, h.a9, 6), h.a9 / 4, h.a9 / 0x400, h.a9 / 0x4_0000), 0) == h.a8 / 0x10_0000 + 0x40 * h.a9
  {
    hide Bytes4, Glue;
    Glue6(h.a8 / 0x10_0000, h.a9);
    SeamFirst(h.a8 / 0x10_0000, h.a9, Glue(h.a8 / 0x10_0000, h.a9, 6));
  }

  /** The number of 32 bytes, word by word. */
  lemma Le32Words(s: seq<byte>)
    requires |s| == 32
    ensures Le(s) == Le32(s, 0) + TWO32 * Le32(s, 4) + TWO64 * Le32(s, 8) + TWO64 * TWO32 * Le32(s, 12) + TWO128 * Le32(s, 16)
      + TWO128 * TWO32 * Le32(s, 20) + TWO128 * TWO64 * Le32(s, 24) + TWO128 * TWO64 * TWO32 * Le32(s, 28)
  {
    LeSixteen(s);
    LastSixteen(s);
    UpperWords(Le32(s, 16), Le32(s, 20), Le32(s, 24), Le32(s, 28));
    hide *;
  }

  lemma UpperWords(a: nat, b: nat, c: nat, d: nat)
    ensures TWO128 * (a + TWO32 * b + TWO64 * c + TWO64 * TWO32 * d)
      == TWO128 * a + TWO128 * TWO32 * b + TWO128 * TWO64 * c + TWO128 * TWO64 * TWO32 * d
  {
  }

  lemma LastSixteen(s: seq<byte>)
    requires |s| == 32
    ensures Le(s[16..]) == Le32(s, 16) + TWO32 * Le32(s, 20) + TWO64 * Le32(s, 24) + TWO64 * TWO32 * Le32(s, 28)
  {
    var r := s[16..];
    LeSixteen(r);
    assert r[16..] == [];
    LeNone();
    assert r[4..] == s[20..] && r[8..] == s[24..] && r[12..] == s[28..];
    Le32At(s, 16); Le32At(s, 20); Le32At(s, 24); Le32At(s, 28);
    Le32At(r, 4); Le32At(r, 8); Le32At(r, 12);
    hide Le, Le32;
  }

  lemma LeSixteen(s: seq<byte>)
    requires |s| >= 16
    ensures Le(s) == Le32(s, 0) + TWO32 * Le32(s, 4) + TWO64 * Le32(s, 8) + TWO64 * TWO32 * Le32(s, 12) + TWO128 * Le(s[16..])
  {
    assert s[4..][4..] == s[8..] && s[8..][4..] == s[12..] && s[12..][4..] == s[16..];
    LeFour(s); LeFour(s[4..]); LeFour(s[8..]); LeFour(s[12..]);
    Le32At(s, 4); Le32At(s, 8); Le32At(s, 12);
    hide Le, Le32;
  }

  lemma LeNone()
    ensures Le([]) == 0
  {
  }

  lemma Le32At(s: seq<byte>, i: nat)
    requires i + 4 <= |s|
    ensures Le32(s[i..], 0) == Le32(s, i)
  {
  }

  /** Words cut from limbs carry their value. */
  lemma WordsVal(h: Limbs)
    ensures Val(h) ==
      (h.a0 + 0x400_0000 * (h.a1 % 0x40)) + TWO32 * (h.a1 / 0x40 + 0x8_0000 * (h.a2 % 0x2000))
      + TWO64 * (h.a2 / 0x2000 + 0x2000 * (h.a3 % 0x8_0000)) + TWO64 * TWO32 * (h.a3 / 0x8_0000 + 0x40 * h.a4)
      + TWO128 * (h.a5 + 0x200_0000 * (h.a6 % 0x80)) + TWO128 * TWO32 * (h.a6 / 0x80 + 0x8_0000 * (h.a7 % 0x2000))
      + TWO128 * TWO64 * (h.a7 / 0x2000 + 0x1000 * (h.a8 % 0x10_0000)) + TWO128 * TWO64 * TWO32 * (h.a8 / 0x10_0000 + 0x40 * h.a9)
  {
    assert h.a1 == 0x40 * (h.a1 / 0x40) + h.a1 % 0x40 && h.a2 == 0x2000 * (h.a2 / 0x2000) + h.a2 % 0x2000;
    assert h.a3 == 0x8_0000 * (h.a3 / 0x8_0000) + h.a3 % 0x8_0000 && h.a6 == 0x80 * (h.a6 / 0x80) + h.a6 % 0x80;
    assert h.a7 == 0x2000 * (h.a7 / 0x2000) + h.a7 % 0x2000 && h.a8 == 0x10_0000 * (h.a8 / 0x10_0000) + h.a8 % 0x10_0000;
  }

  lemma PackVal(h: Limbs)
    requires Exact(h)
    ensures Le(Pack(h)) == Val(h)
  {
    PackWords(h);
    hide Val, Le, Le32, Pack;
    WordsVal(h);
    Le32Words(Pack(h));
  }

  /** FeTobytes stores the residue. */
  lemma TobytesVal(f: Limbs)
    requires Tight(f)
    ensures Le(FeTobytes(f)) == Val(f) % P
  {
    FreezeVal(f);
    hide FeFreeze, Val, Le, Pack;
    PackVal(FeFreeze(f));
  }

  // ---------------------------------------------------------------- FeFrombytes

  /** The ten limbs cut from eight words; the top bit of the last word is ignored. */
  function FeFrombytes(s: seq<byte>): Limbs
    requires |s| == 32
  {
    Limbs(Le32(s, 0) % 0x400_0000,
          Or(Le32(s, 0) / 0x400_0000, U32(Le32(s, 4) % 0x8_0000 * 0x40)),
          Or(Le32(s, 4) / 0x8_0000, U32(Le32(s, 8) % 0x2000 * 0x2000)),
          Or(Le32(s, 8) / 0x2000, U32(Le32(s, 12) % 0x40 * 0x8_0000)),
          Le32(s, 12) / 0x40,
          Le32(s, 16) % 0x200_0000,
          Or(Le32(s, 16) / 0x200_0000, U32(Le32(s, 20) % 0x8_0000 * 0x80)),
          Or(Le32(s, 20) / 0x8_0000, U32(Le32(s, 24) % 0x1000 * 0x2000)),
          Or(Le32(s, 24) / 0x1000, U32(Le32(s, 28) % 0x40 * 0x10_0000)),
          Le32(s, 28) / 0x40 % 0x200_0000)
  }

  lemma OrParts(lo: nat, hi: nat, k: nat, p: nat)
    requires (k == 6 && p == 0x40 && hi < 0x8_0000) || (k == 13 && p == 0x2000 && hi < 0x2000)
          || (k == 19 && p == 0x8_0000 && hi < 0x40) || (k == 7 && p == 0x80 && hi < 0x8_0000)
          || (k == 20 && p == 0x10_0000 && hi < 0x40)
    requires lo < p
    ensures Or(lo, U32(hi * p)) == lo + p * hi
  {
    PowSmall();
    if k == 6 { Small32(hi * 0x40); } else if k == 13 { Small32(hi * 0x2000); } else if k == 19 { Small32(hi * 0x8_0000); }
    else if k == 7 { Small32(hi * 0x80); } else { Small32(hi * 0x10_0000); }
    OrShift(lo, hi, k);
    hide Or, Pow2, U32;
  }

  /** The limbs cut from words, as numbers. */
  lemma FrombytesLimbs(s: seq<byte>)
    requires |s| == 32
    ensures FeFrombytes(s) == Limbs(
      Le32(s, 0) % 0x400_0000, Le32(s, 0) / 0x400_0000 + 0x40 * (Le32(s, 4) % 0x8_0000),
      Le32(s, 4) / 0x8_0000 + 0x2000 * (Le32(s, 8) % 0x2000), Le32(s, 8) / 0x2000 + 0x8_0000 * (Le32(s, 12) % 0x40),
      Le32(s, 12) / 0x40, Le32(s, 16) % 0x200_0000, Le32(s, 16) / 0x200_0000 + 0x80 * (Le32(s, 20) % 0x8_0000),
      Le32(s, 20) / 0x8_0000 + 0x2000 * (Le32(s, 24) % 0x1000), Le32(s, 24) / 0x1000 + 0x10_0000 * (Le32(s, 28) % 0x40),
      Le32(s, 28) / 0x40 % 0x200_0000)
    ensures Exact(FeFrombytes(s))
  {
    OrParts(Le32(s, 0) / 0x400_0000, Le32(s, 4) % 0x8_0000, 6, 0x40);
    OrParts(Le32(s, 4) / 0x8_0000, Le32(s, 8) % 0x2000, 13, 0x2000);
    OrParts(Le32(s, 8) / 0x2000, Le32(s, 12) % 0x40, 19, 0x8_0000);
    OrParts(Le32(s, 16) / 0x200_0000, Le32(s, 20) % 0x8_0000, 7, 0x80);
    OrParts(Le32(s, 20) / 0x8_0000, Le32(s, 24) % 0x1000, 13, 0x2000);
    OrParts(Le32(s, 24) / 0x1000, Le32(s, 28) % 0x40, 20, 0x10_0000);
    hide Or, Le32, U32;
  }

  /** Limbs cut from words carry their value, up to the top bit. */
  lemma LimbsVal(w0: nat, w1: nat, w2: nat, w3: nat, w4: nat, w5: nat, w6: nat, w7: nat)
    requires w7 < TWO32
    ensures w0 + TWO32 * w1 + TWO64 * w2 + TWO64 * TWO32 * w3 + TWO128 * w4 + TWO128 * TWO32 * w5 + TWO128 * TWO64 * w6 + TWO128 * TWO64 * TWO32 * w7
      == Val(Limbs(w0 % 0x400_0000, w0 / 0x400_0000 + 0x40 * (w1 % 0x8_0000), w1 / 0x8_0000 + 0x2000 * (w2 % 0x2000),
                   w2 / 0x2000 + 0x8_0000 * (w3 % 0x40), w3 / 0x40, w4 % 0x200_0000, w4 / 0x200_0000 + 0x80 * (w5 % 0x8_0000),
                   w5 / 0x8_0000 + 0x2000 * (w6 % 0x1000), w6 / 0x1000 + 0x10_0000 * (w7 % 0x40), w7 / 0x40 % 0x200_0000))
         + TWO255 * (w7 / 0x8000_0000)
  {
    assert w7 / 0x40 == w7 / 0x40 % 0x200_0000 + 0x200_0000 * (w7 / 0x8000_0000);
  }

  /** FeFrombytes reads the number modulo 2^255. */
  lemma FrombytesVal(s: seq<byte>)
    requires |s| == 32
    ensures Exact(FeFrombytes(s)) && Val(FeFrombytes(s)) == Le(s) % TWO255
  {
    FrombytesLimbs(s);
    Le32Words(s);
    hide FeFrombytes, Le, Le32, Or;
    LimbsVal(Le32(s, 0), Le32(s, 4), Le32(s, 8), Le32(s, 12), Le32(s, 16), Le32(s, 20), Le32(s, 24), Le32(s, 28));
    ExactVal(FeFrombytes(s));
    hide Val;
    ModUnique(Le(s), TWO255, Le32(s, 28) / 0x8000_0000, Val(FeFrombytes(s)));
  }

  lemma ExactTight(l: Limbs)
    requires Exact(l)
    ensures Tight(l)
  {
  }

  /** Storing what was read gives the number, without its top bit, modulo p; reading what was stored
      gives the residue. */
  lemma BytesRoundTrip(s: seq<byte>, f: Limbs)
    requires |s| == 32 && Tight(f)
    ensures Tight(FeFrombytes(s)) && Le(FeTobytes(FeFrombytes(s))) == Le(s) % TWO255 % P
    ensures Val(FeFrombytes(FeTobytes(f))) == Val(f) % P
  {
    FrombytesVal(s);
    ExactTight(FeFrombytes(s));
    TobytesVal(FeFrombytes(s));
    FrombytesVal(FeTobytes(f));
    TobytesVal(f);
    hide FeFrombytes, FeTobytes, Val, Le, Exact, Tight;
    ModUnique(Val(f) % P, TWO255, 0, Val(f) % P);
  }
}
