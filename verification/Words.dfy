/** Machine words as natural numbers: little-endian bytes, truncation and the bitwise operators. */
module Words {
  type byte = b: int | 0 <= b < 256

  const TWO26: nat := 0x400_0000
  const TWO32: nat := 0x1_0000_0000
  const TWO64: nat := 0x1_0000_0000_0000_0000
  const TWO128: nat := 0x1_0000_0000_0000_0000_0000_0000_0000_0000

  function U32(x: nat): (w: nat)
    ensures w < TWO32
  {
    x % TWO32
  }

  function U64(x: nat): nat {
    x % TWO64
  }

  function Pow256(n: nat): (p: nat)
    ensures p > 0
  {
    if n == 0 then 1 else 256 * Pow256(n - 1)
  }

  /** The number a sequence of bytes stands for, least significant first. */
  function Le(s: seq<byte>): nat {
    if s == [] then 0 else s[0] + 256 * Le(s[1..])
  }

  /** n bytes of a number. */
  function LeBytes(x: nat, n: nat): (s: seq<byte>)
    ensures |s| == n
  {
    if n == 0 then [] else [x % 256] + LeBytes(x / 256, n - 1)
  }

  lemma {:induction false} LeBound(s: seq<byte>)
    ensures Le(s) < Pow256(|s|)
  {
    if s != [] { LeBound(s[1..]); }
  }

  lemma {:induction false} LeConcat(a: seq<byte>, b: seq<byte>)
    ensures Le(a + b) == Le(a) + Pow256(|a|) * Le(b)
  {
    if a == [] {
      assert a + b == b;
    } else {
      LeConcat(a[1..], b);
      assert (a + b)[1..] == a[1..] + b;
      Shifted(Pow256(|a| - 1), Le(b));
      assert Pow256(|a|) == 256 * Pow256(|a| - 1);
    }
  }

  /** The bytes of the number that bytes stand for are those bytes. */
  lemma {:induction false} LeBytesLe(b: seq<byte>)
    ensures LeBytes(Le(b), |b|) == b
  {
    if b != [] {
      ModUnique(Le(b), 256, Le(b[1..]), b[0]);
      LeBytesLe(b[1..]);
    }
  }

  /** A number that fits its bytes is read back from them. */
  lemma {:induction false} LeLeBytes(x: nat, n: nat)
    requires x < Pow256(n)
    ensures Le(LeBytes(x, n)) == x
  {
    if n > 0 {
      LeLeBytes(x / 256, n - 1);
      assert LeBytes(x, n)[1..] == LeBytes(x / 256, n - 1);
    }
  }

  lemma PowersOf256()
    ensures Pow256(4) == TWO32 && Pow256(8) == TWO64
  {
    assert Pow256(4) == TWO32;
  }

  lemma Shifted(p: nat, x: nat)
    ensures (256 * p) * x == 256 * (p * x)
  {
  }

  /** GetUnalignedLe32 */
  function Le32(s: seq<byte>, i: nat): (x: nat)
    requires i + 4 <= |s|
    ensures x < TWO32
  {
    var b0: nat, b1: nat, b2: nat, b3: nat := s[i], s[i + 1], s[i + 2], s[i + 3];
    b0 + 0x100 * b1 + 0x1_0000 * b2 + 0x100_0000 * b3
  }

  lemma LeFour(m: seq<byte>)
    requires |m| >= 4
    ensures Le(m) == Le32(m, 0) + TWO32 * Le(m[4..])
  {
    assert m == m[..4] + m[4..];
    LeConcat(m[..4], m[4..]);
    Le4(m[..4]);
    assert Pow256(4) == TWO32;
  }

  lemma Le4(m: seq<byte>)
    requires |m| == 4
    ensures Le(m) == Le32(m, 0)
  {
    assert m[1..][1..] == m[2..] && m[2..][1..] == m[3..] && m[3..][1..] == [];
    assert Le(m[3..]) == m[3] as nat;
    assert Le(m[2..]) == m[2] as nat + 256 * Le(m[3..]);
    assert Le(m[1..]) == m[1] as nat + 256 * Le(m[2..]);
  }

  function And(x: nat, y: nat): nat {
    if x == 0 || y == 0 then 0 else 2 * And(x / 2, y / 2) + (x % 2) * (y % 2)
  }

  function Or(x: nat, y: nat): nat {
    if x == 0 then y else if y == 0 then x
    else 2 * Or(x / 2, y / 2) + if x % 2 == 1 || y % 2 == 1 then 1 else 0
  }

  function Pow2(n: nat): (p: nat)
    ensures p > 0
  {
    if n == 0 then 1 else 2 * Pow2(n - 1)
  }

  /** A mask of low ones keeps the low bits. */
  lemma {:induction false} AndLow(x: nat, k: nat)
    ensures And(x, Pow2(k) - 1) == x % Pow2(k)
  {
    if k > 0 {
      AndLow(x / 2, k - 1);
      HalfMod(x, Pow2(k - 1));
      assert (2 * Pow2(k - 1) - 1) / 2 == Pow2(k - 1) - 1;
    }
  }

  lemma MulBound(a: nat, b: nat, x: nat, y: nat)
    requires a <= x && b <= y
    ensures 0 <= a * b <= x * y
  {
    assert a * b <= a * y by { assert a * (y - b) >= 0; }
    assert a * y <= x * y by { assert (x - a) * y >= 0; }
  }

  lemma HalfMod(x: nat, p: nat)
    requires p > 0
    ensures x % (2 * p) == 2 * (x / 2 % p) + x % 2
  {
    var q, r := x / 2 / p, x / 2 % p;
    assert x == 2 * (p * q + r) + x % 2 == (2 * p) * q + (2 * r + x % 2);
    ModUnique(x, 2 * p, q, 2 * r + x % 2);
  }

  lemma ModUnique(x: nat, m: nat, q: nat, r: nat)
    requires m > 0 && x == m * q + r && r < m
    ensures x / m == q && x % m == r
  {
    var q', r' := x / m, x % m;
    assert x == m * q' + r';
    if q' > q {
      MulBound(m, q + 1, m, q');
    } else if q' < q {
      MulBound(m, q' + 1, m, q);
    }
  }

  lemma ModAdd(x: nat, k: nat, m: nat)
    requires m > 0
    ensures (x + m * k) % m == x % m
  {
    ModUnique(x + m * k, m, x / m + k, x % m);
  }

  lemma Spread(m: nat, a: nat, c: nat, r: nat)
    ensures (c + m * a) * r == c * r + m * (a * r)
  {
  }

  lemma ModMul(x: nat, y: nat, r: nat, m: nat)
    requires m > 0 && x % m == y % m
    ensures x * r % m == y * r % m
  {
    var a, b, c := x / m, y / m, x % m;
    Spread(m, a, c, r);
    Spread(m, b, c, r);
    ModAdd(c * r, a * r, m);
    ModAdd(c * r, b * r, m);
    assert x == c + m * a && y == c + m * b;
  }

  lemma TwiceTimes(q: nat, p: nat, b: nat)
    requires q == 2 * p
    ensures q * b == 2 * (p * b)
  {
  }

  /** Bits below and from k on do not mix. */
  lemma {:induction false} AndSplit(a: nat, b: nat, c: nat, d: nat, k: nat)
    requires a < Pow2(k) && c < Pow2(k)
    ensures And(a + Pow2(k) * b, c + Pow2(k) * d) == And(a, c) + Pow2(k) * And(b, d)
    decreases k
  {
    if k > 0 {
      AndSplit(a / 2, b, c / 2, d, k - 1);
      AndSplitStep(a, b, c, d, Pow2(k), Pow2(k - 1));
    } else {
      assert a == 0 && c == 0;
    }
  }

  lemma AndSplitStep(a: nat, b: nat, c: nat, d: nat, q: nat, p: nat)
    requires q == 2 * p && And(a / 2 + p * b, c / 2 + p * d) == And(a / 2, c / 2) + p * And(b, d)
    ensures And(a + q * b, c + q * d) == And(a, c) + q * And(b, d)
  {
    hide And;
    TwiceTimes(q, p, b);
    TwiceTimes(q, p, d);
    TwiceTimes(q, p, And(b, d));
    AndDouble(a, c, p * b, p * d, p * And(b, d), a + q * b, c + q * d);
  }

  lemma AndDouble(a: nat, c: nat, x: nat, y: nat, z: nat, u: nat, v: nat)
    requires And(a / 2 + x, c / 2 + y) == And(a / 2, c / 2) + z && u == a + 2 * x && v == c + 2 * y
    ensures And(u, v) == And(a, c) + 2 * z
  {
    AndHalves(u, v);
    AndHalves(a, c);
    hide And;
    assert u / 2 == a / 2 + x && v / 2 == c / 2 + y;
    assert u % 2 == a % 2 && v % 2 == c % 2;
  }

  lemma AndHalves(x: nat, y: nat)
    ensures And(x, y) == 2 * And(x / 2, y / 2) + (x % 2) * (y % 2)
  {
  }

  /** Or of numbers without common bits is their sum. */
  lemma {:induction false} OrShift(a: nat, b: nat, k: nat)
    requires a < Pow2(k)
    ensures Or(a, Pow2(k) * b) == a + Pow2(k) * b
    decreases k
  {
    if k > 0 && a > 0 && b > 0 {
      var p := Pow2(k - 1);
      assert Pow2(k) * b == 2 * (p * b);
      OrShift(a / 2, b, k - 1);
      assert (2 * (p * b)) / 2 == p * b;
    }
  }
}
