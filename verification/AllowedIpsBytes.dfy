/** Keys as driver/allowedips.c stores them: the bytes of an address, swapped on a little-endian
    machine so that words compare numerically, and the bit arithmetic on them. */
module AllowedIpsBytes {
  import opened AllowedIps
  import opened AllowedIpsUpdates

  type Byte = bv8

  /** 4 bytes of IPv4 or 16 bytes of IPv6. */
  type Address = s: seq<Byte> | |s| == 4 || |s| == 16 witness [0, 0, 0, 0]

  /** (Byte >> Shift) & 1 */
  function Bit(b: Byte, shift: nat): bool
    requires shift < 8
  {
    (b >> shift) & 1 == 1
  }

  function BitOf(b: Byte, i: nat): bool
    requires i < 8
  {
    Bit(b, 7 - i)
  }

  /** The bits of an address, most significant first. */
  function KeyOf(ip: seq<Byte>): (k: Key)
    ensures |k| == 8 * |ip|
  {
    seq(8 * |ip|, i requires 0 <= i < 8 * |ip| => BitOf(ip[i / 8], i % 8))
  }

  /** The width of the words an address is read in. */
  function Word(n: nat): nat {
    if n == 4 then 4 else 8
  }

  /** Where byte i of an address is in memory. */
  function Place(n: nat, i: nat): nat {
    i / Word(n) * Word(n) + (Word(n) - 1 - i % Word(n))
  }

  lemma PlaceInside(n: nat, i: nat)
    requires (n == 4 || n == 16) && i < n
    ensures Place(n, i) < n && Place(n, Place(n, i)) == i
  {
  }

  /** SwapEndian: every big-endian word becomes a word of the machine. */
  function SwapEndian(ip: Address): (d: Address)
    ensures |d| == |ip|
  {
    seq(|ip|, i requires 0 <= i < |ip| => (PlaceInside(|ip|, i); ip[Place(|ip|, i)]))
  }

  lemma SwapTwice(ip: Address)
    ensures SwapEndian(SwapEndian(ip)) == ip
  {
    var d := SwapEndian(ip);
    forall i | 0 <= i < |ip| ensures SwapEndian(d)[i] == ip[i] {
      PlaceInside(|ip|, i);
      PlaceInside(|ip|, Place(|ip|, i));
    }
  }

  // ---------------------------------------------------------------- Choose

  /** BitAtA and BitAtB as CopyAndAssignCidr computes them for a node of n bytes. */
  function BitAtA(cidr: nat, n: nat): bv8
    requires cidr <= 128 && (n == 4 || n == 16)
  {
    ((cidr / 8) as bv8) ^ (((n - 1) % 8) as bv8)
  }

  function BitAtB(cidr: nat): nat {
    7 - cidr % 8
  }

  lemma XorPlaces(n: nat, i: nat)
    requires (n == 4 || n == 16) && i < n
    ensures ((i as bv8) ^ (((n - 1) % 8) as bv8)) as nat == Place(n, i)
  {
    if n == 4 {
      assert (n - 1) % 8 == 3;
      if i == 0 {} else if i == 1 {} else if i == 2 {} else { assert i == 3; }
    } else {
      assert (n - 1) % 8 == 7;
      XorSeven(i);
    }
  }

  lemma XorSeven(i: nat)
    requires i < 16
    ensures ((i as bv8) ^ 7) as nat == i / 8 * 8 + (7 - i % 8)
  {
    if i < 8 {
      if i == 0 {} else if i == 1 {} else if i == 2 {} else if i == 3 {}
      else if i == 4 {} else if i == 5 {} else if i == 6 {} else { assert i == 7; }
    } else {
      if i == 8 {} else if i == 9 {} else if i == 10 {} else if i == 11 {}
      else if i == 12 {} else if i == 13 {} else if i == 14 {} else { assert i == 15; }
    }
  }

  lemma BitAtAPlace(n: nat, cidr: nat)
    requires (n == 4 || n == 16) && cidr < 8 * n
    ensures BitAtA(cidr, n) as nat == Place(n, cidr / 8)
  {
    XorPlaces(n, cidr / 8);
  }

  /** The byte and the bit Choose reads are the bit of the address after the prefix. */
  lemma ChooseReads(ip: Address, cidr: nat)
    requires cidr < 8 * |ip|
    ensures BitAtA(cidr, |ip|) as nat < |ip|
    ensures Bit(SwapEndian(ip)[BitAtA(cidr, |ip|) as nat], BitAtB(cidr)) == KeyOf(ip)[cidr]
  {
    hide Bit, BitAtA, Place, Word;
    BitAtAPlace(|ip|, cidr);
    PlaceInside(|ip|, cidr / 8);
  }

  // ---------------------------------------------------------------- CommonBits

  /** The number a sequence of bits stands for. */
  function Val(s: Key): nat {
    if s == [] then 0 else 2 * Val(s[..|s| - 1]) + if s[|s| - 1] then 1 else 0
  }

  /** FindLastSet: the position of the highest bit that is set, counted from 1; 0 if there is none. */
  function FindLastSet(x: nat): nat {
    if x == 0 then 0 else 1 + FindLastSet(x / 2)
  }

  function Zeros(s: Key): (z: nat)
    ensures z <= |s| && (forall i :: 0 <= i < z ==> !s[i]) && (z < |s| ==> s[z])
  {
    if s == [] || s[0] then 0 else 1 + Zeros(s[1..])
  }

  lemma {:induction false} ZerosPrefix(s: Key)
    requires s != []
    ensures Zeros(s) == if Zeros(s[..|s| - 1]) < |s| - 1 then Zeros(s[..|s| - 1])
                        else if s[|s| - 1] then |s| - 1 else |s|
  {
    var p, z, y := s[..|s| - 1], Zeros(s[..|s| - 1]), Zeros(s);
    assert forall i :: 0 <= i < |p| ==> p[i] == s[i];
  }

  lemma {:induction false} FindLastSetZeros(s: Key)
    ensures FindLastSet(Val(s)) == |s| - Zeros(s) && (Val(s) == 0 <==> Zeros(s) == |s|)
  {
    if s != [] {
      FindLastSetZeros(s[..|s| - 1]);
      ZerosPrefix(s);
    }
  }

  function Xor(a: Key, b: Key): Key
    requires |a| == |b|
  {
    seq(|a|, i requires 0 <= i < |a| => a[i] != b[i])
  }

  /** Where the bits first differ is where the number of the difference has its highest bit. */
  lemma FirstDifference(a: Key, b: Key)
    requires |a| == |b|
    ensures |a| - FindLastSet(Val(Xor(a, b))) == Common(a, b)
  {
    FindLastSetZeros(Xor(a, b));
    ZerosCommon(a, b);
  }

  lemma ZerosAtMost(a: Key, b: Key)
    requires |a| == |b|
    ensures Zeros(Xor(a, b)) <= Common(a, b)
  {
    var c := Common(a, b);
    if c < |a| { assert Xor(a, b)[c]; }
  }

  lemma ZerosAtLeast(a: Key, b: Key)
    requires |a| == |b|
    ensures Zeros(Xor(a, b)) >= Common(a, b)
  {
    var c := Common(a, b);
    assert forall i :: 0 <= i < c ==> a[..c][i] == b[..c][i];
    assert forall i :: 0 <= i < c ==> a[i] == b[i];
    ZerosCount(Xor(a, b), c);
  }

  lemma ZerosCount(s: Key, c: nat)
    requires c <= |s| && forall i :: 0 <= i < c ==> !s[i]
    ensures Zeros(s) >= c
  {
  }

  lemma ZerosCommon(a: Key, b: Key)
    requires |a| == |b|
    ensures Zeros(Xor(a, b)) == Common(a, b)
  {
    ZerosAtMost(a, b);
    ZerosAtLeast(a, b);
    hide Zeros, Xor, Common;
  }

  // ---------------------------------------------------------------- words in memory

  /** The number of a byte. */
  function ByteVal(b: Byte): nat {
    Val([BitOf(b, 0), BitOf(b, 1), BitOf(b, 2), BitOf(b, 3), BitOf(b, 4), BitOf(b, 5), BitOf(b, 6), BitOf(b, 7)])
  }

  /** A word as a little-endian machine reads it. */
  function Load(mem: seq<Byte>): nat {
    if mem == [] then 0 else ByteVal(mem[0]) + 256 * Load(mem[1..])
  }

  /** x ^ y */
  function XorWord(x: nat, y: nat): nat {
    if x == 0 && y == 0 then 0 else 2 * XorWord(x / 2, y / 2) + if x % 2 != y % 2 then 1 else 0
  }

  lemma {:induction false} XorVal(a: Key, b: Key)
    requires |a| == |b|
    ensures Val(Xor(a, b)) == XorWord(Val(a), Val(b))
  {
    if a != [] {
      var x, y := a[..|a| - 1], b[..|b| - 1];
      XorVal(x, y);
      assert Xor(a, b)[..|a| - 1] == Xor(x, y);
      assert Val(a) / 2 == Val(x) && Val(b) / 2 == Val(y);
    }
  }

  /** A byte in front of others has the highest weight. */
  lemma {:induction false} ValFront(a: Key, b: Key, w: nat)
    requires w == Weight(|b|)
    ensures Val(a + b) == w * Val(a) + Val(b)
    decreases |b|
  {
    if b == [] {
      assert a + b == a;
    } else {
      var c, v := b[..|b| - 1], Weight(|b| - 1);
      ValFront(a, c, v);
      assert (a + b)[..|a + b| - 1] == a + c && (a + b)[|a + b| - 1] == b[|b| - 1];
      Doubled(v, Val(a), w);
    }
  }

  lemma Doubled(v: nat, x: nat, w: nat)
    requires w == 2 * v
    ensures w * x == 2 * (v * x)
  {
  }

  function Weight(n: nat): nat {
    if n == 0 then 1 else 2 * Weight(n - 1)
  }

  lemma KeyOfByte(b: Byte)
    ensures Val(KeyOf([b])) == ByteVal(b)
  {
    hide BitOf, Val;
    assert KeyOf([b]) == [BitOf(b, 0), BitOf(b, 1), BitOf(b, 2), BitOf(b, 3), BitOf(b, 4), BitOf(b, 5), BitOf(b, 6), BitOf(b, 7)];
  }

  lemma KeyOfConcat(x: seq<Byte>, y: seq<Byte>)
    ensures KeyOf(x + y) == KeyOf(x) + KeyOf(y)
  {
    hide BitOf;
  }

  function Reverse(s: seq<Byte>): (r: seq<Byte>)
    ensures |r| == |s| && forall i :: 0 <= i < |s| ==> r[i] == s[|s| - 1 - i]
  {
    if s == [] then [] else Reverse(s[1..]) + [s[0]]
  }

  /** The bytes of an address backwards, read as a word, are the number of its bits. */
  lemma {:induction false} LoadReversed(s: seq<Byte>)
    ensures Load(Reverse(s)) == Val(KeyOf(s))
    decreases |s|
  {
    if s != [] {
      var n := |s| - 1;
      var front, last := s[..n], s[n];
      LoadReversed(front);
      assert Reverse(s) == [last] + Reverse(front);
      assert Reverse(s)[0] == last && Reverse(s)[1..] == Reverse(front);
      KeyOfConcat(front, [last]);
      assert s == front + [last];
      KeyOfByte(last);
      assert Weight(8) == 256 by { WeightEight(); }
      ValFront(KeyOf(front), KeyOf([last]), 256);
      hide KeyOf, Reverse, ByteVal, Val;
    }
  }

  lemma WeightEight()
    ensures Weight(8) == 256
  {
    assert Weight(4) == 16;
  }

  /** The word that stands for an IPv4 address in a node. */
  lemma StoredWord32(ip: Address)
    requires |ip| == 4
    ensures Load(SwapEndian(ip)) == Val(KeyOf(ip))
  {
    assert SwapEndian(ip) == Reverse(ip);
    LoadReversed(ip);
  }

  /** The two words that stand for an IPv6 address. */
  lemma StoredWord128(ip: Address)
    requires |ip| == 16
    ensures Load(SwapEndian(ip)[..8]) == Val(KeyOf(ip)[..64]) && Load(SwapEndian(ip)[8..]) == Val(KeyOf(ip)[64..])
  {
    SwapHalves(ip);
    LoadReversed(ip[..8]);
    LoadReversed(ip[8..]);
    hide KeyOf, SwapEndian, Reverse, Load, Val;
    assert ip == ip[..8] + ip[8..];
    KeyOfConcat(ip[..8], ip[8..]);
  }

  lemma PlaceHalf(i: nat)
    requires i < 16
    ensures Place(16, i) == if i < 8 then 7 - i else 23 - i
  {
  }

  lemma SwapHalves(ip: Address)
    requires |ip| == 16
    ensures SwapEndian(ip)[..8] == Reverse(ip[..8]) && SwapEndian(ip)[8..] == Reverse(ip[8..])
  {
    hide Place;
    forall i: nat | i < 16 ensures SwapEndian(ip)[i] == ip[if i < 8 then 7 - i else 23 - i] { PlaceHalf(i); }
    hide SwapEndian, Reverse;
    assert forall i :: 0 <= i < 8 ==> Reverse(ip[..8])[i] == ip[7 - i];
    assert forall i :: 0 <= i < 8 ==> Reverse(ip[8..])[i] == ip[15 - i];
  }

  /** CommonBits on the words in memory: 32 less the highest bit in which they differ. */
  lemma CommonBits32(a: Address, b: Address)
    requires |a| == |b| == 4
    ensures 32 - FindLastSet(XorWord(Load(SwapEndian(a)), Load(SwapEndian(b)))) == Common(KeyOf(a), KeyOf(b))
  {
    StoredWord32(a);
    StoredWord32(b);
    XorVal(KeyOf(a), KeyOf(b));
    FirstDifference(KeyOf(a), KeyOf(b));
  }

  /** FindLastSet128 on the two halves. */
  function FindLastSet128(a: nat, b: nat): nat {
    if a != 0 then FindLastSet(a) + 64 else FindLastSet(b)
  }

  lemma TwoHalves(x: Key)
    requires |x| == 128
    ensures 128 - FindLastSet128(Val(x[..64]), Val(x[64..])) == Zeros(x)
  {
    FindLastSetZeros(x[..64]);
    FindLastSetZeros(x[64..]);
    ZerosHalves(x);
    hide Zeros, Val, FindLastSet;
  }

  lemma ZerosHalves(x: Key)
    requires |x| == 128
    ensures Zeros(x) == if Zeros(x[..64]) < 64 then Zeros(x[..64]) else 64 + Zeros(x[64..])
  {
    assert x == x[..64] + x[64..];
    ZerosConcat(x[..64], x[64..]);
  }

  lemma {:induction false} ZerosConcat(a: Key, b: Key)
    ensures Zeros(a + b) == if Zeros(a) < |a| then Zeros(a) else |a| + Zeros(b)
  {
    if a == [] {
      assert a + b == b;
    } else if !a[0] {
      ZerosConcat(a[1..], b);
      assert (a + b)[1..] == a[1..] + b;
    }
  }

  lemma CommonBits128(a: Address, b: Address)
    requires |a| == |b| == 16
    ensures var (x, y) := (SwapEndian(a), SwapEndian(b));
      128 - FindLastSet128(XorWord(Load(x[..8]), Load(y[..8])), XorWord(Load(x[8..]), Load(y[8..]))) == Common(KeyOf(a), KeyOf(b))
  {
    hide BitOf, Load, Val, XorWord, Zeros, Common, KeyOf, SwapEndian, FindLastSet128;
    StoredWord128(a);
    StoredWord128(b);
    var k, l := KeyOf(a), KeyOf(b);
    XorVal(k[..64], l[..64]);
    XorVal(k[64..], l[64..]);
    TwoHalves(Xor(k, l));
    ZerosCommon(k, l);
    assert Xor(k, l)[..64] == Xor(k[..64], l[..64]) && Xor(k, l)[64..] == Xor(k[64..], l[64..]);
  }

  // ---------------------------------------------------------------- AllowedIpsReadNode

  /** All bits from bit k on. */
  function From(k: nat): Byte
    requires k < 8
  {
    0xFF << k
  }

  /** ~0U << (-Cidr % 8U), in the byte it is applied to. */
  function Mask(cidr: nat): Byte {
    From((8 - cidr % 8) % 8)
  }

  function ZeroBytes(n: nat): (z: seq<Byte>)
    ensures |z| == n && forall i :: 0 <= i < n ==> z[i] == 0
  {
    seq(n, i => 0)
  }

  function Clip(b: Byte, cidr: nat): Byte {
    b & Mask(cidr)
  }

  /** A byte of the address after masking: bit r of byte j. */
  lemma MaskedBit(b: Byte, cidr: nat, j: nat, r: nat)
    requires r < 8
    ensures var cidrBytes := (cidr + 7) / 8;
      BitOf(if j >= cidrBytes then 0 else if j == cidrBytes - 1 then Clip(b, cidr) else b, r)
      == (8 * j + r < cidr && BitOf(b, r))
  {
    hide BitOf, Mask;
    var cidrBytes := (cidr + 7) / 8;
    if j >= cidrBytes { ZeroBit(r); } else if j == cidrBytes - 1 { MaskBit(b, cidr, r); }
  }

  function MaskedByte(b: Byte, cidr: nat, j: nat): Byte {
    var cidrBytes := (cidr + 7) / 8;
    if j >= cidrBytes then 0 else if j == cidrBytes - 1 then Clip(b, cidr) else b
  }

  lemma MaskedKey(s: seq<Byte>, ip: seq<Byte>, cidr: nat)
    requires |ip| == |s| && forall j :: 0 <= j < |s| ==> ip[j] == MaskedByte(s[j], cidr, j)
    ensures forall i :: 0 <= i < 8 * |s| ==> KeyOf(ip)[i] == (i < cidr && KeyOf(s)[i])
  {
    hide BitOf, Mask;
    forall i | 0 <= i < 8 * |s| ensures KeyOf(ip)[i] == (i < cidr && KeyOf(s)[i]) {
      var j, r := i / 8, i % 8;
      MaskedBit(s[j], cidr, j, r);
      assert ip[j] == MaskedByte(s[j], cidr, j);
      assert KeyOf(ip)[i] == BitOf(ip[j], r) && KeyOf(s)[i] == BitOf(s[j], r);
    }
  }

  /** The prefix of a node as an address: the stored bits swapped back, cleared after the prefix. */
  method ReadNode(bits: Address, cidr: nat) returns (ip: Address)
    requires cidr <= 8 * |bits|
    ensures |ip| == |bits|
    ensures forall i :: 0 <= i < 8 * |bits| ==> KeyOf(ip)[i] == (i < cidr && KeyOf(SwapEndian(bits))[i])
  {
    hide BitOf, Clip, SwapEndian, KeyOf, ZeroBytes, Place;
    var cidrBytes := (cidr + 7) / 8;
    assert cidrBytes <= |bits| && (cidr != 0 ==> cidrBytes > 0);
    var swapped := SwapEndian(bits);
    var cleared := swapped[..cidrBytes] + ZeroBytes(|bits| - cidrBytes);
    if cidr != 0 {
      cleared := cleared[cidrBytes - 1 := Clip(cleared[cidrBytes - 1], cidr)];
    }
    MaskedKey(swapped, cleared, cidr);
    ip := cleared;
  }

  lemma ZeroBit(i: nat)
    requires i < 8
    ensures !BitOf(0, i)
  {
  }

  lemma MaskBit(b: Byte, cidr: nat, i: nat)
    requires 0 < cidr && i < 8
    ensures BitOf(b & Mask(cidr), i) == (BitOf(b, i) && (cidr % 8 == 0 || i < cidr % 8))
  {
    hide BitOf, From;
    var r: nat := cidr % 8;
    var k: nat := if r == 0 then 0 else 8 - r;
    MaskBy(b, k, i);
    MaskShift(cidr, k);
    hide Mask;
  }

  lemma MaskShift(cidr: nat, k: nat)
    requires k == if cidr % 8 == 0 then 0 else 8 - cidr % 8
    ensures Mask(cidr) == From(k)
  {
    hide From;
  }

  lemma MaskBy(b: Byte, k: nat, i: nat)
    requires k < 8 && i < 8
    ensures BitOf(b & From(k), i) == (BitOf(b, i) && i < 8 - k)
  {
  }
}
