/** FeLooseInvert of driver/crypto.c: a chain of squarings and products that raises to p - 2. */
module FieldInvert {
  import opened Words
  import opened Field25519

  function Pow(x: nat, e: nat): nat {
    if e == 0 then 1 else x * Pow(x, e - 1)
  }

  lemma {:induction false} PowPlus(x: nat, a: nat, b: nat)
    ensures Pow(x, a + b) == Pow(x, a) * Pow(x, b)
    decreases a
  {
    if a > 0 {
      PowPlus(x, a - 1, b);
      Associate(x, Pow(x, a - 1), Pow(x, b));
    }
  }

  lemma Associate(x: nat, y: nat, z: nat)
    ensures x * (y * z) == (x * y) * z
  {
  }

  /** f holds z to the e. */
  ghost predicate Holds(f: Limbs, z: nat, e: nat) {
    Val(f) % P == Pow(z, e) % P
  }

  lemma ModTimes(a: nat, b: nat, c: nat, d: nat, m: nat)
    requires m > 0 && a % m == c % m && b % m == d % m
    ensures a * b % m == c * d % m
  {
    ModMul(a, c, b, m);
    ModMul(b, d, c, m);
    assert a * b == b * a && c * b == b * c && c * d == d * c;
  }

  lemma MulHolds(h: Limbs, f: Limbs, g: Limbs, z: nat, a: nat, b: nat)
    requires Val(h) % P == Val(f) * Val(g) % P && Holds(f, z, a) && Holds(g, z, b)
    ensures Holds(h, z, a + b)
  {
    PowPlus(z, a, b);
    ModTimes(Val(f), Val(g), Pow(z, a), Pow(z, b), P);
    hide Val, Pow;
  }

  lemma TightLoose(f: Limbs)
    requires Tight(f)
    ensures Loose(f)
  {
  }

  /** FeSqTl or FeSqTt, then n - 1 rounds of FeSqTt. */
  method Square(f: Limbs, n: nat, ghost z: nat, ghost e: nat) returns (h: Limbs)
    requires Loose(f) && Holds(f, z, e) && n >= 1
    ensures Tight(h) && Holds(h, z, e * Pow2(n))
  {
    hide FeSqr, FeMul, Holds, Loose, Tight;
    SqrIsMul(f);
    MulVal(f, f);
    MulHolds(FeMul(f, f), f, f, z, e, e);
    h := FeSqr(f);
    ghost var x: nat := e + e;
    assert Pow2(1) == 2;
    for i := 1 to n
      invariant Tight(h) && Holds(h, z, x) && x == e * Pow2(i)
    {
      TightLoose(h);
      SqrIsMul(h);
      MulVal(h, h);
      MulHolds(FeMul(h, h), h, h, z, x, x);
      h := FeSqr(h);
      Doubled(e, i);
      x := x + x;
    }
  }

  lemma Doubled(e: nat, i: nat)
    ensures e * Pow2(i) + e * Pow2(i) == e * Pow2(i + 1)
  {
  }

  method Times(f: Limbs, g: Limbs, ghost z: nat, ghost a: nat, ghost b: nat) returns (h: Limbs)
    requires Loose(f) && Tight(g) && Holds(f, z, a) && Holds(g, z, b)
    ensures Tight(h) && Holds(h, z, a + b)
  {
    TightLoose(g);
    h := FeMul(f, g);
    MulVal(f, g);
    MulHolds(h, f, g, z, a, b);
  }

  lemma Powers()
    ensures Pow2(1) == 2 && Pow2(2) == 4 && Pow2(5) == 32 && Pow2(10) == 0x400 && Pow2(20) == 0x10_0000
    ensures Pow2(50) == 0x4_0000_0000_0000 && Pow2(100) == 0x10_0000_0000_0000_0000_0000_0000
  {
    assert Pow2(1) == 2 && Pow2(2) == 4 && Pow2(3) == 8 && Pow2(5) == 4 * Pow2(3);
    hide Pow2;
    PowSumIs(5, 5, 32, 32);
    PowSumIs(10, 10, 0x400, 0x400);
    PowSumIs(20, 20, 0x10_0000, 0x10_0000);
    PowSumIs(40, 10, 0x100_0000_0000, 0x400);
    PowSumIs(50, 50, 0x4_0000_0000_0000, 0x4_0000_0000_0000);
  }

  lemma PowSumIs(a: nat, b: nat, x: nat, y: nat)
    requires Pow2(a) == x && Pow2(b) == y
    ensures Pow2(a + b) == x * y
  {
    PowSum(a, b);
  }

  lemma {:induction false} PowSum(a: nat, b: nat)
    ensures Pow2(a + b) == Pow2(a) * Pow2(b)
    decreases a
  {
    if a > 0 {
      PowSum(a - 1, b);
      Associate(2, Pow2(a - 1), Pow2(b));
    }
  }

  lemma HoldsItself(l: Limbs)
    ensures Holds(l, Val(l), 1)
  {
    assert Pow(Val(l), 1) == Val(l) * Pow(Val(l), 0);
  }

  /** The chain raises to exactly p - 2. */
  method FeLooseInvert(l: Limbs) returns (out: Limbs)
    requires Loose(l)
    ensures Tight(out) && Holds(out, Val(l), P - 2)
  {
    hide Holds, Loose, Tight, Pow, Pow2, Val;
    ghost var z := Val(l);
    Powers();
    HoldsItself(l);
    var t0 := Square(l, 1, z, 1);
    TightLoose(t0);
    var t1 := Square(t0, 2, z, 2);
    t1 := Times(l, t1, z, 1, 8);
    t0 := Times(t0, t1, z, 2, 9);
    TightLoose(t0);
    var t2 := Square(t0, 1, z, 11);
    TightLoose(t1);
    t1 := Times(t1, t2, z, 9, 22);
    TightLoose(t1);
    t2 := Square(t1, 5, z, 31);
    t1 := Grow(t2, t1, z, 31, 0x3e0);
    t2 := Square(t1, 10, z, 0x3ff);
    t2 := Grow(t2, t1, z, 0x3ff, 0xffc00);
    var t3 := Square(t2, 20, z, 0xf_ffff);
    t2 := Grow(t3, t2, z, 0xf_ffff, 0xff_fff0_0000);
    t2 := Square(t2, 10, z, 0xff_ffff_ffff);
    t1 := Grow(t2, t1, z, 0x3ff, 0x3_ffff_ffff_fc00);
    t2 := Square(t1, 50, z, 0x3_ffff_ffff_ffff);
    t2 := Grow(t2, t1, z, 0x3_ffff_ffff_ffff, 0x3_ffff_ffff_ffff * 0x4_0000_0000_0000);
    t3 := Square(t2, 100, z, 0xf_ffff_ffff_ffff_ffff_ffff_ffff);
    t2 := Grow(t3, t2, z, 0xf_ffff_ffff_ffff_ffff_ffff_ffff, 0xf_ffff_ffff_ffff_ffff_ffff_ffff * 0x10_0000_0000_0000_0000_0000_0000);
    t2 := Square(t2, 50, z, 0xff_ffff_ffff_ffff_ffff_ffff_ffff_ffff_ffff_ffff_ffff_ffff_ffff);
    t1 := Grow(t2, t1, z, 0x3_ffff_ffff_ffff, 0xff_ffff_ffff_ffff_ffff_ffff_ffff_ffff_ffff_ffff_ffff_ffff_ffff * 0x4_0000_0000_0000);
    t1 := Square(t1, 5, z, 0x3ff_ffff_ffff_ffff_ffff_ffff_ffff_ffff_ffff_ffff_ffff_ffff_ffff_ffff_ffff_ffff);
    TightLoose(t1);
    out := Times(t1, t0, z, 0x3ff_ffff_ffff_ffff_ffff_ffff_ffff_ffff_ffff_ffff_ffff_ffff_ffff_ffff_ffff_ffff * 32, 11);
  }

  /** A product of two tight factors, ready to be squared. */
  method Grow(f: Limbs, g: Limbs, ghost z: nat, ghost b: nat, ghost a: nat) returns (h: Limbs)
    requires Tight(f) && Tight(g) && Holds(f, z, a) && Holds(g, z, b)
    ensures Tight(h) && Loose(h) && Holds(h, z, a + b)
  {
    hide Holds, Loose, Tight;
    TightLoose(f);
    h := Times(f, g, z, a, b);
    TightLoose(h);
  }
}
