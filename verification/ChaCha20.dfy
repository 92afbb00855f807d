/** ChaCha20 as the portable code of driver/crypto.c computes it, and the stream it is a piece of
    (sections 2.3 and 2.4 of RFC 8439). */
module ChaCha20 {
  import opened Words

  const CHACHA20_BLOCK_SIZE: nat := 64

  /** Constant, Key and Counter, sixteen 32-bit words. */
  type Word = x: int | 0 <= x < TWO32

  type State = s: seq<Word> | |s| == 16 witness seq(16, i => 0)

  function Xor(x: nat, y: nat): nat {
    if x == 0 then y else if y == 0 then x else 2 * Xor(x / 2, y / 2) + (x % 2 + y % 2) % 2
  }

  /** Xor is its own inverse. */
  lemma {:induction false} XorXor(x: nat, y: nat)
    ensures Xor(Xor(x, y), y) == x
    decreases x + y
  {
    hide Xor;
    if x == 0 || y == 0 {
      XorSelf(y);
      XorNone(x);
      XorNone(y);
      XorNone(0);
    } else {
      var z, h := Xor(x, y), Xor(x / 2, y / 2);
      XorXor(x / 2, y / 2);
      XorHalves(x, y);
      XorHalves(z, y);
      ParityTwice(x % 2, y % 2);
      assert z / 2 == h && z % 2 == (x % 2 + y % 2) % 2;
    }
  }

  lemma XorNone(x: nat)
    ensures Xor(x, 0) == x && Xor(0, x) == x
  {
  }

  lemma ParityTwice(a: nat, b: nat)
    requires a < 2 && b < 2
    ensures ((a + b) % 2 + b) % 2 == a
  {
  }

  lemma {:induction false} XorSelf(y: nat)
    ensures Xor(y, y) == 0
  {
    if y != 0 { XorSelf(y / 2); }
  }

  lemma XorHalves(x: nat, y: nat)
    ensures Xor(x, y) == 2 * Xor(x / 2, y / 2) + (x % 2 + y % 2) % 2
  {
  }

  lemma {:induction false} XorBound(x: nat, y: nat, k: nat)
    requires x < Pow2(k) && y < Pow2(k)
    ensures Xor(x, y) < Pow2(k)
    decreases k
  {
    if x != 0 && y != 0 {
      assert Pow2(k) == 2 * Pow2(k - 1);
      XorBound(x / 2, y / 2, k - 1);
    }
  }

  function XorByte(a: byte, b: byte): byte {
    assert Pow2(4) == 16 && Pow2(8) == 16 * Pow2(4);
    XorBound(a, b, 8);
    Xor(a, b)
  }

  // ---------------------------------------------------------------- the block function

  /** One column of the sixteen words a block is worked out on, and all four of them. */
  datatype Column = Column(a: bv32, b: bv32, c: bv32, d: bv32)

  datatype Matrix = Matrix(c0: Column, c1: Column, c2: Column, c3: Column)

  /** QUARTER_ROUND */
  function QuarterRound(x: Column): Column {
    var a := x.a + x.b;
    var d := (x.d ^ a).RotateLeft(16);
    var c := x.c + d;
    var b := (x.b ^ c).RotateLeft(12);
    var a := a + b;
    var d := (d ^ a).RotateLeft(8);
    var c := c + d;
    Column(a, (b ^ c).RotateLeft(7), c, d)
  }

  function Four(x: Matrix): Matrix {
    Matrix(QuarterRound(x.c0), QuarterRound(x.c1), QuarterRound(x.c2), QuarterRound(x.c3))
  }

  /** The diagonals as columns. */
  function Diagonals(x: Matrix): Matrix {
    Matrix(
      Column(x.c0.a, x.c1.b, x.c2.c, x.c3.d), Column(x.c1.a, x.c2.b, x.c3.c, x.c0.d),
      Column(x.c2.a, x.c3.b, x.c0.c, x.c1.d), Column(x.c3.a, x.c0.b, x.c1.c, x.c2.d))
  }

  /** The columns again. */
  function Columns(x: Matrix): Matrix {
    Matrix(
      Column(x.c0.a, x.c3.b, x.c2.c, x.c1.d), Column(x.c1.a, x.c0.b, x.c3.c, x.c2.d),
      Column(x.c2.a, x.c1.b, x.c0.c, x.c3.d), Column(x.c3.a, x.c2.b, x.c1.c, x.c0.d))
  }

  function DoubleRound(x: Matrix): Matrix {
    Columns(Four(Diagonals(Four(x))))
  }

  function Rounds(x: Matrix, n: nat): Matrix
    decreases n
  {
    hide DoubleRound;
    if n == 0 then x else Rounds(DoubleRound(x), n - 1)
  }

  function Bits(x: Word): bv32 {
    x as bv32
  }

  function Load(s: State): Matrix {
    Matrix(
      Column(Bits(s[0]), Bits(s[4]), Bits(s[8]), Bits(s[12])), Column(Bits(s[1]), Bits(s[5]), Bits(s[9]), Bits(s[13])),
      Column(Bits(s[2]), Bits(s[6]), Bits(s[10]), Bits(s[14])), Column(Bits(s[3]), Bits(s[7]), Bits(s[11]), Bits(s[15])))
  }

  function Plus(x: Column, y: Column): Column {
    Column(x.a + y.a, x.b + y.b, x.c + y.c, x.d + y.d)
  }

  function Sum(x: Matrix, y: Matrix): Matrix {
    Matrix(Plus(x.c0, y.c0), Plus(x.c1, y.c1), Plus(x.c2, y.c2), Plus(x.c3, y.c3))
  }

  /** CpuToLe32 */
  function Le32Bytes(x: bv32): (b: seq<byte>)
    ensures |b| == 4
  {
    LeBytes(x as nat, 4)
  }

  function Row(w: bv32, x: bv32, y: bv32, z: bv32): (b: seq<byte>)
    ensures |b| == 16
  {
    Le32Bytes(w) + Le32Bytes(x) + Le32Bytes(y) + Le32Bytes(z)
  }

  /** The words in their order, row by row. */
  function Serialize(x: Matrix): (b: seq<byte>)
    ensures |b| == CHACHA20_BLOCK_SIZE
  {
    Row(x.c0.a, x.c1.a, x.c2.a, x.c3.a) + Row(x.c0.b, x.c1.b, x.c2.b, x.c3.b)
    + Row(x.c0.c, x.c1.c, x.c2.c, x.c3.c) + Row(x.c0.d, x.c1.d, x.c2.d, x.c3.d)
  }

  /** The 64 bytes of stream of a state. */
  function Block(s: State): (b: seq<byte>)
    ensures |b| == CHACHA20_BLOCK_SIZE
  {
    hide Rounds, Serialize, Load;
    Serialize(Sum(Rounds(Load(s), 10), Load(s)))
  }

  /** n blocks further on; the counter is one 32-bit word. */
  function Skip(s: State, n: nat): State {
    s[12 := U32(s[12] + n)]
  }

  function Init(key: seq<byte>, nonce: nat): State
    requires |key| == 32
  {
    [0x61707865, 0x3320646e, 0x79622d32, 0x6b206574,
     Le32(key, 0), Le32(key, 4), Le32(key, 8), Le32(key, 12), Le32(key, 16), Le32(key, 20), Le32(key, 24), Le32(key, 28),
     0, 0, U32(nonce), U32(nonce / TWO32)]
  }

  lemma SkipSkip(s: State, n: nat, m: nat)
    ensures Skip(Skip(s, n), m) == Skip(s, n + m)
  {
    assert U32(U32(s[12] + n) + m) == U32(s[12] + (n + m));
  }

  // ---------------------------------------------------------------- the stream

  /** Byte i of the stream from state s on. */
  function Stream(s: State, i: nat): byte {
    Block(Skip(s, i / CHACHA20_BLOCK_SIZE))[i % CHACHA20_BLOCK_SIZE]
  }

  /** Data xor-ed with the stream from position `at` on. */
  function Mix(s: State, at: nat, data: seq<byte>): (d: seq<byte>)
    ensures |d| == |data|
  {
    hide XorByte, Stream;
    seq(|data|, i requires 0 <= i < |data| => XorByte(data[i], Stream(s, at + i)))
  }

  lemma MixConcat(s: State, at: nat, mid: nat, a: seq<byte>, b: seq<byte>)
    requires mid == at + |a|
    ensures Mix(s, at, a + b) == Mix(s, at, a) + Mix(s, mid, b)
  {
    hide Stream, XorByte;
    var whole, parts := Mix(s, at, a + b), Mix(s, at, a) + Mix(s, mid, b);
    forall i | 0 <= i < |a + b| ensures whole[i] == parts[i] {
      if i >= |a| { assert at + i == mid + (i - |a|); }
    }
  }

  /** Decryption is encryption. */
  lemma MixMix(s: State, at: nat, data: seq<byte>)
    ensures Mix(s, at, Mix(s, at, data)) == data
  {
    hide Stream;
    forall i | 0 <= i < |data| ensures Mix(s, at, Mix(s, at, data))[i] == data[i] {
      XorXor(data[i], Stream(s, at + i));
    }
  }

  lemma StreamBlock(s: State, n: nat, j: nat)
    requires j < CHACHA20_BLOCK_SIZE
    ensures Stream(s, CHACHA20_BLOCK_SIZE * n + j) == Block(Skip(s, n))[j]
  {
    hide Block, Skip;
    assert (CHACHA20_BLOCK_SIZE * n + j) / CHACHA20_BLOCK_SIZE == n && (CHACHA20_BLOCK_SIZE * n + j) % CHACHA20_BLOCK_SIZE == j;
  }

  /** XorCpy */
  function XorCpy(a: seq<byte>, b: seq<byte>): (d: seq<byte>)
    requires |a| <= |b|
    ensures |d| == |a|
  {
    seq(|a|, i requires 0 <= i < |a| => XorByte(a[i], b[i]))
  }

  /** Xor with a piece of block n. */
  lemma XorBlock(s: State, n: nat, from: nat, data: seq<byte>)
    requires from + |data| <= CHACHA20_BLOCK_SIZE
    ensures XorCpy(data, Block(Skip(s, n))[from..]) == Mix(s, CHACHA20_BLOCK_SIZE * n + from, data)
  {
    hide Block, Skip, Stream, XorByte;
    forall i | 0 <= i < |data|
      ensures XorCpy(data, Block(Skip(s, n))[from..])[i] == Mix(s, CHACHA20_BLOCK_SIZE * n + from, data)[i]
    {
      StreamBlock(s, n, from + i);
      assert CHACHA20_BLOCK_SIZE * n + from + i == CHACHA20_BLOCK_SIZE * n + (from + i);
    }
  }

  /** Blocks used up by n bytes. */
  function Blocks(n: nat): (b: nat)
    ensures 64 * b - 64 < n <= 64 * b
  {
    (n + 63) / CHACHA20_BLOCK_SIZE
  }

  class ChaCha20Ctx {
    var state: State

    constructor (key: seq<byte>, nonce: nat)
      requires |key| == 32
      ensures state == Init(key, nonce)
    {
      state := Init(key, nonce);
    }

    method NextBlock() returns (b: seq<byte>)
      modifies this
      ensures b == Block(old(state)) && state == Skip(old(state), 1)
    {
      hide Block;
      b := Block(state);
      var counter: nat := state[12];
      state := state[12 := U32(counter + 1)];
    }

    /** Whole blocks, then what is left of one; the rest of that block is lost. */
    method Crypt(input: seq<byte>) returns (out: seq<byte>)
      modifies this
      ensures out == Mix(old(state), 0, input) && state == Skip(old(state), Blocks(|input|))
    {
      hide Block, Skip, Mix;
      ghost var s, n := state, 0;
      var rest := input;
      out := [];
      SkipNone(s);
      MixNone(s, 0);
      while |rest| >= CHACHA20_BLOCK_SIZE
        invariant 64 * n + |rest| == |input| && rest == input[64 * n..]
        invariant state == Skip(s, n) && out == Mix(s, 0, input[..64 * n])
      {
        var piece := rest[..CHACHA20_BLOCK_SIZE];
        XorBlock(s, n, 0, piece);
        SkipSkip(s, n, 1);
        MixConcat(s, 0, 64 * n, input[..64 * n], piece);
        assert input[..64 * (n + 1)] == input[..64 * n] + piece;
        var b := NextBlock();
        assert b[0..] == b;
        out := out + XorCpy(piece, b);
        rest := rest[CHACHA20_BLOCK_SIZE..];
        n := n + 1;
      }
      assert input == input[..64 * n] + rest;
      MixConcat(s, 0, 64 * n, input[..64 * n], rest);
      if |rest| > 0 {
        XorBlock(s, n, 0, rest);
        SkipSkip(s, n, 1);
        var b := NextBlock();
        assert b[0..] == b;
        out := out + XorCpy(rest, b);
      } else {
        assert rest == [];
        MixNone(s, 64 * n);
      }
      BlocksIs(|input|, n, |rest|);
    }
  }

  lemma SkipNone(s: State)
    ensures Skip(s, 0) == s
  {
  }

  lemma MixNone(s: State, at: nat)
    ensures Mix(s, at, []) == []
  {
  }

  lemma BlocksIs(len: nat, n: nat, rest: nat)
    requires len == 64 * n + rest && rest < 64
    ensures Blocks(len) == if rest > 0 then n + 1 else n
  {
  }
}
