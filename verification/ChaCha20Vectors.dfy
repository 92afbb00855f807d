/** Published values of ChaCha20, from RFC 8439. Each block gives the matrix after the columns and after
    the diagonals of its ten double rounds. */
module ChaCha20Vectors {
  import opened Words
  import opened ChaCha20

  /** The example of section 2.1.1. */
  lemma QuarterVector()
    ensures QuarterRound(Column(0x11111111, 0x01020304, 0x9b8d6f43, 0x01234567))
         == Column(0xea2a92f4, 0xcb1cf8ce, 0x4581472e, 0x5881c4bb)
  {
  }

  lemma Rounded(x: Matrix, n: nat, y: Matrix, z: Matrix)
    requires n > 0 && Four(x) == y && Four(Diagonals(y)) == z
    ensures Rounds(x, n) == Rounds(Columns(z), n - 1)
  {
    hide Four, Diagonals, Columns;
  }

  lemma RoundsNone(x: Matrix)
    ensures Rounds(x, 0) == x
  {
  }

  lemma BitsOf(w: bv32)
    ensures w as nat < TWO32 && Bits(w as nat) == w
  {
    Fits(w);
  }

  lemma Fits(w: bv32)
    ensures w as nat < TWO32
  {
  }

  lemma Loads(w: Word, x: Word, y: Word, z: Word, c: Column)
    requires w == c.a as nat && x == c.b as nat && y == c.c as nat && z == c.d as nat
    ensures Column(Bits(w), Bits(x), Bits(y), Bits(z)) == c
  {
    hide Bits;
    BitsOf(c.a);
    BitsOf(c.b);
    BitsOf(c.c);
    BitsOf(c.d);
  }

  lemma LoadIs(s: State, w0: Word, w1: Word, w2: Word, w3: Word, w4: Word, w5: Word, w6: Word, w7: Word,
               w8: Word, w9: Word, w10: Word, w11: Word, w12: Word, w13: Word, w14: Word, w15: Word)
    requires s == [w0, w1, w2, w3, w4, w5, w6, w7, w8, w9, w10, w11, w12, w13, w14, w15]
    ensures Load(s) == Matrix(
      Column(Bits(w0), Bits(w4), Bits(w8), Bits(w12)), Column(Bits(w1), Bits(w5), Bits(w9), Bits(w13)),
      Column(Bits(w2), Bits(w6), Bits(w10), Bits(w14)), Column(Bits(w3), Bits(w7), Bits(w11), Bits(w15)))
  {
    hide Bits;
  }

  lemma WordBytes(x: bv32, b0: byte, b1: byte, b2: byte, b3: byte)
    requires x as nat == b0 + 0x100 * b1 + 0x1_0000 * b2 + 0x100_0000 * b3
    ensures Le32Bytes(x) == [b0, b1, b2, b3]
  {
    FourBytes(x as nat, [b0, b1, b2, b3]);
  }

  lemma FourBytes(x: nat, b: seq<byte>)
    requires |b| == 4 && x == Le32(b, 0)
    ensures LeBytes(x, 4) == b
  {
    Le4(b);
    LeBytesLe(b);
  }

  const EXAMPLE: State := [
    0x61707865, 0x3320646e, 0x79622d32, 0x6b206574, 0x03020100, 0x07060504, 0x0b0a0908, 0x0f0e0d0c,
    0x13121110, 0x17161514, 0x1b1a1918, 0x1f1e1d1c, 0x00000001, 0x09000000, 0x4a000000, 0x00000000]

  const EXAMPLE_BLOCK: seq<byte> :=
    ([0x10, 0xf1, 0xe7, 0xe4] + [0xd1, 0x3b, 0x59, 0x15] + [0x50, 0x0f, 0xdd, 0x1f] + [0xa3, 0x20, 0x71, 0xc4])
    + ([0xc7, 0xd1, 0xf4, 0xc7] + [0x33, 0xc0, 0x68, 0x03] + [0x04, 0x22, 0xaa, 0x9a] + [0xc3, 0xd4, 0x6c, 0x4e])
    + ([0xd2, 0x82, 0x64, 0x46] + [0x07, 0x9f, 0xaa, 0x09] + [0x14, 0xc2, 0xd7, 0x05] + [0xd9, 0x8b, 0x02, 0xa2])
    + ([0xb5, 0x12, 0x9c, 0xd1] + [0xde, 0x16, 0x4e, 0xb9] + [0xcb, 0xd0, 0x83, 0xe8] + [0xa2, 0x50, 0x3c, 0x4e])

  const EXAMPLE_BEGIN: Matrix := Matrix(
      Column(0x61707865, 0x03020100, 0x13121110, 0x00000001), Column(0x3320646e, 0x07060504, 0x17161514, 0x09000000),
      Column(0x79622d32, 0x0b0a0908, 0x1b1a1918, 0x4a000000), Column(0x6b206574, 0x0f0e0d0c, 0x1f1e1d1c, 0x00000000))

  const EXAMPLE_END: Matrix := Matrix(
      Column(0x837778ab, 0xc4f2d0c7, 0x335271c2, 0xd19c12b4), Column(0xe238d763, 0xfc62bb2f, 0xf29489f3, 0xb04e16de),
      Column(0xa67ae21e, 0x8fa018fc, 0xeabda8fc, 0x9e83d0cb), Column(0x5950bb2f, 0x3f5ec7b7, 0x82e46ebd, 0x4e3c50a2))

  lemma ExampleRounds()
    ensures Rounds(EXAMPLE_BEGIN, 10) == Rounds(EXAMPLE_END, 0)
  {
    hide Rounds;
    Rounded(EXAMPLE_BEGIN, 10, Matrix(
        Column(0xabbaa25c, 0x3a465196, 0x6b3ca454, 0xdec62ed2), Column(0x1efa51ea, 0x1c7e64f6, 0x08eb14b1, 0x8862cc77),
        Column(0x7354fbdf, 0xb12fb628, 0xbf8a9ac9, 0x6e35b345), Column(0x83d2dc69, 0xf05b6976, 0xe444df3b, 0x52a647f1)), Matrix(
        Column(0xcd52e917, 0x5c2e187a, 0xf1a1bdf5, 0xf173888d), Column(0x85ab03b4, 0xc95eb461, 0x761246ca, 0x6b0d58a3),
        Column(0xb3457395, 0x316c801a, 0x7bf7d740, 0x6798471a), Column(0xf96de7dd, 0xc4b7cd22, 0x7eddd644, 0xd737f167)));
    Rounded(Matrix(
        Column(0xcd52e917, 0xc4b7cd22, 0x7bf7d740, 0x6b0d58a3), Column(0x85ab03b4, 0x5c2e187a, 0x7eddd644, 0x6798471a),
        Column(0xb3457395, 0xc95eb461, 0xf1a1bdf5, 0xd737f167), Column(0xf96de7dd, 0x316c801a, 0x761246ca, 0xf173888d)), 9, Matrix(
        Column(0xe3e1111b, 0xd65b5b5b, 0xe67aec54, 0x7be81c0d), Column(0xa6291491, 0xf56af099, 0xf7a52d82, 0x1d92d0fd),
        Column(0x5a82b80c, 0x4ccc8103, 0xdb470914, 0x13139f8c), Column(0x4500fd45, 0xc94d29e2, 0xdfb40f1d, 0x7a26ecaa)), Matrix(
        Column(0xcf1a7584, 0x7974b81c, 0xcd3c9aa0, 0x04d6ee22), Column(0x048927ec, 0x378dcfb4, 0x79fc89c7, 0x10aef18d),
        Column(0x54051fda, 0xcd47fd0e, 0x2dafb216, 0x16218765), Column(0xc244ff28, 0x901d2f40, 0x27c89cd6, 0x68f76705)));
    Rounded(Matrix(
        Column(0xcf1a7584, 0x901d2f40, 0x2dafb216, 0x10aef18d), Column(0x048927ec, 0x7974b81c, 0x27c89cd6, 0x16218765),
        Column(0x54051fda, 0x378dcfb4, 0xcd3c9aa0, 0x68f76705), Column(0xc244ff28, 0xcd47fd0e, 0x79fc89c7, 0x04d6ee22)), 8, Matrix(
        Column(0xa22695f2, 0x1ece4458, 0xf2d36da6, 0x6fda6bf7), Column(0xa908cf6c, 0xe82b726f, 0xf4dab980, 0x65a4b0ce),
        Column(0xe6ae05b2, 0x5a21ab90, 0x7baf5573, 0x25e6d76e), Column(0xfe0ff04b, 0x87698c64, 0xa78c270d, 0x1b7b11ec)), Matrix(
        Column(0x03a14032, 0xa09b33dd, 0xc20e01b6, 0x2cd11b1a), Column(0x66b15927, 0xa5daaf88, 0x72cd6b74, 0xba35d777),
        Column(0x9d6b6b42, 0x2fd91a73, 0xc90c6b18, 0xb360f1bf), Column(0xb84c4109, 0xa7143ae0, 0x5a202413, 0x8178315b)));
    Rounded(Matrix(
        Column(0x03a14032, 0xa7143ae0, 0xc90c6b18, 0xba35d777), Column(0x66b15927, 0xa09b33dd, 0x5a202413, 0xb360f1bf),
        Column(0x9d6b6b42, 0xa5daaf88, 0xc20e01b6, 0x8178315b), Column(0xb84c4109, 0x2fd91a73, 0x72cd6b74, 0x2cd11b1a)), 7, Matrix(
        Column(0xfecd0838, 0xcedf6624, 0x1d8a33ea, 0xa818b852), Column(0x160ab468, 0xb11de6c4, 0x87dc1ca9, 0xb100446a),
        Column(0x9a0ddf4e, 0xbd7810ef, 0x89bd34a5, 0x9c1d70b1), Column(0xbac7154a, 0xd22b5643, 0x5505ef62, 0xa1d1befa)), Matrix(
        Column(0x9a2d3589, 0x5e5993f7, 0x04fef5aa, 0x2b3bb2ca), Column(0x0b23fc4e, 0x9904c2e7, 0xf8933f72, 0x2687d476),
        Column(0x40af3b6b, 0x0d334718, 0xe46c6354, 0x54e65231), Column(0xceea8144, 0x0a1bffc6, 0xc9503229, 0x3594ffc5)));
    Rounded(Matrix(
        Column(0x9a2d3589, 0x0a1bffc6, 0xe46c6354, 0x2687d476), Column(0x0b23fc4e, 0x5e5993f7, 0xc9503229, 0x54e65231),
        Column(0x40af3b6b, 0x9904c2e7, 0x04fef5aa, 0x3594ffc5), Column(0xceea8144, 0x0d334718, 0xf8933f72, 0x2b3bb2ca)), 6, Matrix(
        Column(0x85e7824a, 0x1c133ea1, 0xa3a66a86, 0xde008464), Column(0x4940cd9e, 0xbba40b0f, 0xc0b4754f, 0x34f0058b),
        Column(0xfbe7684b, 0x9413992a, 0x771b4ecb, 0x70846cfa), Column(0x7335d03d, 0xa4ab2040, 0x165151a1, 0xa3271b09)), Matrix(
        Column(0xc53318c5, 0x6088d379, 0x71669aca, 0x63fa6953), Column(0xca325d96, 0xc0f0e9bd, 0x975c171d, 0x9e5ec228),
        Column(0x7e7d11cb, 0xe310cdb9, 0xae2ca8db, 0x7d85a9f3), Column(0x3404e2ca, 0x26d7cf73, 0x42f67c72, 0x201d0756)));
    Rounded(Matrix(
        Column(0xc53318c5, 0x26d7cf73, 0xae2ca8db, 0x9e5ec228), Column(0xca325d96, 0x6088d379, 0x42f67c72, 0x7d85a9f3),
        Column(0x7e7d11cb, 0xc0f0e9bd, 0x71669aca, 0x201d0756), Column(0x3404e2ca, 0xe310cdb9, 0x975c171d, 0x63fa6953)), 5, Matrix(
        Column(0x9950b826, 0x2121065a, 0x19078de2, 0x40ca72b3), Column(0xcac7ccc6, 0xc12bdadb, 0x178ecc02, 0x3b9bf852),
        Column(0x84a67673, 0xcae3acd1, 0xe6adbdb2, 0x78690378), Column(0xdb3109a6, 0x594616cb, 0x52a9d50e, 0xe17d4902)), Matrix(
        Column(0x04a3131a, 0xbf8a4465, 0x61599491, 0xa0a81bde), Column(0x66176309, 0xf77dd720, 0x918512dc, 0x33b6686d),
        Column(0x0415bab1, 0xfc0bdc90, 0x07d13aca, 0x795cc671), Column(0x61b880a2, 0x36cc86c7, 0xeb0be9af, 0xc0049972)));
    Rounded(Matrix(
        Column(0x04a3131a, 0x36cc86c7, 0x07d13aca, 0x33b6686d), Column(0x66176309, 0xbf8a4465, 0xeb0be9af, 0x795cc671),
        Column(0x0415bab1, 0xf77dd720, 0x61599491, 0xc0049972), Column(0x61b880a2, 0xfc0bdc90, 0x918512dc, 0xa0a81bde)), 4, Matrix(
        Column(0x57c5e6da, 0x8e85d82f, 0x434b4749, 0x49ee03a6), Column(0x35ce46a8, 0xb4819d06, 0x1d459c00, 0xd11a5554),
        Column(0x0c041bb9, 0xb63be200, 0x111cfe2c, 0xa7202e04), Column(0xfa91df79, 0xacd221e4, 0x55942604, 0x7d2215bc)), Matrix(
        Column(0x9b70f51f, 0x6a4c50ae, 0xd3fde99e, 0x2c847a0d), Column(0x7ea8ac11, 0x19212a5a, 0x26acc13d, 0xa609f555),
        Column(0x21e54da9, 0x9b032958, 0xd839165e, 0x2c246549), Column(0xca393b2f, 0x93b08686, 0x4c06e28a, 0x95151853)));
    Rounded(Matrix(
        Column(0x9b70f51f, 0x93b08686, 0xd839165e, 0xa609f555), Column(0x7ea8ac11, 0x6a4c50ae, 0x4c06e28a, 0x2c246549),
        Column(0x21e54da9, 0x19212a5a, 0xd3fde99e, 0x95151853), Column(0xca393b2f, 0x9b032958, 0x26acc13d, 0x2c847a0d)), 3, Matrix(
        Column(0xc0b18aee, 0xdeb54e9c, 0xa82d65d4, 0x4103c64e), Column(0x087445ba, 0x802c883b, 0x687f11eb, 0x82816a91),
        Column(0x36e52ad9, 0x06e86889, 0xe9d36207, 0xb584ca56), Column(0xa777426a, 0x3c002680, 0x4242ddae, 0xfd0bd2b9)), Matrix(
        Column(0xca5c85dd, 0x712aa9ff, 0x779c27e7, 0xcc38080b), Column(0x93a4f90e, 0x279a61e8, 0x54077e08, 0xa9b751fb),
        Column(0xd9f0df58, 0x970f72bd, 0x1c25931a, 0x382f3ce2), Column(0x26dd82dd, 0x982563f8, 0x5180bb10, 0x8db1757d)));
    Rounded(Matrix(
        Column(0xca5c85dd, 0x982563f8, 0x1c25931a, 0xa9b751fb), Column(0x93a4f90e, 0x712aa9ff, 0x5180bb10, 0x382f3ce2),
        Column(0xd9f0df58, 0x279a61e8, 0x779c27e7, 0x8db1757d), Column(0x26dd82dd, 0x970f72bd, 0x54077e08, 0xcc38080b)), 2, Matrix(
        Column(0x765c6e9c, 0x9046ecaa, 0x46fa091e, 0x72a5aace), Column(0x5ab09b11, 0x7b88d882, 0x5117e9b5, 0x5fa7f1c5),
        Column(0x3ee7da04, 0xb9b577dd, 0x862ff22b, 0xda563e0a), Column(0x37c31203, 0x156de7ed, 0xa3fcc7a6, 0x5263d7ca)), Matrix(
        Column(0xb6b87de6, 0x98e18fa3, 0x83e2f5d7, 0x6cde6026), Column(0x9a016148, 0x5ffbe8fc, 0x7d24b98b, 0x21078b22),
        Column(0x93859815, 0xf7154b8b, 0x28c1fcb3, 0xb193e7a3), Column(0x4915e6cc, 0xdc33c122, 0xc4b38f9d, 0xb2f49389)));
    Rounded(Matrix(
        Column(0xb6b87de6, 0xdc33c122, 0x28c1fcb3, 0x21078b22), Column(0x9a016148, 0x98e18fa3, 0xc4b38f9d, 0xb193e7a3),
        Column(0x93859815, 0x5ffbe8fc, 0x83e2f5d7, 0xb2f49389), Column(0x4915e6cc, 0xf7154b8b, 0x7d24b98b, 0x6cde6026)), 1, Matrix(
        Column(0x8a07ff15, 0x913768fe, 0x0a39aedc, 0x2d4cfe3e), Column(0x0cadc51c, 0x442a0c0c, 0xc1428029, 0xe5466d1b),
        Column(0x017c8da9, 0x598fe3bb, 0x7b48135f, 0xe4ccdc13), Column(0x4afbe5df, 0x47d18828, 0x5a5f1098, 0x8ac92a18)), Matrix(
        Column(0x837778ab, 0xfc62bb2f, 0xeabda8fc, 0x4e3c50a2), Column(0xe238d763, 0x8fa018fc, 0x82e46ebd, 0xd19c12b4),
        Column(0xa67ae21e, 0x3f5ec7b7, 0x335271c2, 0xb04e16de), Column(0x5950bb2f, 0xc4f2d0c7, 0xf29489f3, 0x9e83d0cb)));
  }

  lemma ExampleLoad()
    ensures Load(EXAMPLE) == EXAMPLE_BEGIN
  {
    hide Bits, Load;
    LoadIs(EXAMPLE, 0x61707865, 0x3320646e, 0x79622d32, 0x6b206574, 0x03020100, 0x07060504, 0x0b0a0908, 0x0f0e0d0c,
      0x13121110, 0x17161514, 0x1b1a1918, 0x1f1e1d1c, 0x00000001, 0x09000000, 0x4a000000, 0x00000000);
    Loads(0x61707865, 0x03020100, 0x13121110, 0x00000001, Column(0x61707865, 0x03020100, 0x13121110, 0x00000001));
    Loads(0x3320646e, 0x07060504, 0x17161514, 0x09000000, Column(0x3320646e, 0x07060504, 0x17161514, 0x09000000));
    Loads(0x79622d32, 0x0b0a0908, 0x1b1a1918, 0x4a000000, Column(0x79622d32, 0x0b0a0908, 0x1b1a1918, 0x4a000000));
    Loads(0x6b206574, 0x0f0e0d0c, 0x1f1e1d1c, 0x00000000, Column(0x6b206574, 0x0f0e0d0c, 0x1f1e1d1c, 0x00000000));
  }

  lemma ExampleBytes()
    ensures Serialize(Sum(EXAMPLE_END, EXAMPLE_BEGIN)) == EXAMPLE_BLOCK
  {
    hide Le32Bytes;
    WordBytes(0xe4e7f110, 0x10, 0xf1, 0xe7, 0xe4);
    WordBytes(0x15593bd1, 0xd1, 0x3b, 0x59, 0x15);
    WordBytes(0x1fdd0f50, 0x50, 0x0f, 0xdd, 0x1f);
    WordBytes(0xc47120a3, 0xa3, 0x20, 0x71, 0xc4);
    WordBytes(0xc7f4d1c7, 0xc7, 0xd1, 0xf4, 0xc7);
    WordBytes(0x0368c033, 0x33, 0xc0, 0x68, 0x03);
    WordBytes(0x9aaa2204, 0x04, 0x22, 0xaa, 0x9a);
    WordBytes(0x4e6cd4c3, 0xc3, 0xd4, 0x6c, 0x4e);
    WordBytes(0x466482d2, 0xd2, 0x82, 0x64, 0x46);
    WordBytes(0x09aa9f07, 0x07, 0x9f, 0xaa, 0x09);
    WordBytes(0x05d7c214, 0x14, 0xc2, 0xd7, 0x05);
    WordBytes(0xa2028bd9, 0xd9, 0x8b, 0x02, 0xa2);
    WordBytes(0xd19c12b5, 0xb5, 0x12, 0x9c, 0xd1);
    WordBytes(0xb94e16de, 0xde, 0x16, 0x4e, 0xb9);
    WordBytes(0xe883d0cb, 0xcb, 0xd0, 0x83, 0xe8);
    WordBytes(0x4e3c50a2, 0xa2, 0x50, 0x3c, 0x4e);
  }

  /** The example of section 2.3.2. */
  lemma ExampleBlock()
    ensures Block(EXAMPLE) == EXAMPLE_BLOCK
  {
    hide Load, Sum, Rounds, Serialize, EXAMPLE, EXAMPLE_BEGIN, EXAMPLE_END, EXAMPLE_BLOCK;
    ExampleLoad();
    ExampleRounds();
    RoundsNone(EXAMPLE_END);
    ExampleBytes();
  }

  const ZERO: State := [
    0x61707865, 0x3320646e, 0x79622d32, 0x6b206574, 0x00000000, 0x00000000, 0x00000000, 0x00000000,
    0x00000000, 0x00000000, 0x00000000, 0x00000000, 0x00000000, 0x00000000, 0x00000000, 0x00000000]

  const ZERO_BLOCK: seq<byte> :=
    ([0x76, 0xb8, 0xe0, 0xad] + [0xa0, 0xf1, 0x3d, 0x90] + [0x40, 0x5d, 0x6a, 0xe5] + [0x53, 0x86, 0xbd, 0x28])
    + ([0xbd, 0xd2, 0x19, 0xb8] + [0xa0, 0x8d, 0xed, 0x1a] + [0xa8, 0x36, 0xef, 0xcc] + [0x8b, 0x77, 0x0d, 0xc7])
    + ([0xda, 0x41, 0x59, 0x7c] + [0x51, 0x57, 0x48, 0x8d] + [0x77, 0x24, 0xe0, 0x3f] + [0xb8, 0xd8, 0x4a, 0x37])
    + ([0x6a, 0x43, 0xb8, 0xf4] + [0x15, 0x18, 0xa1, 0x1c] + [0xc3, 0x87, 0xb6, 0x69] + [0xb2, 0xee, 0x65, 0x86])

  const ZERO_BEGIN: Matrix := Matrix(
      Column(0x61707865, 0x00000000, 0x00000000, 0x00000000), Column(0x3320646e, 0x00000000, 0x00000000, 0x00000000),
      Column(0x79622d32, 0x00000000, 0x00000000, 0x00000000), Column(0x6b206574, 0x00000000, 0x00000000, 0x00000000))

  const ZERO_END: Matrix := Matrix(
      Column(0x4c704011, 0xb819d2bd, 0x7c5941da, 0xf4b8436a), Column(0x5d1d8d32, 0x1aed8da0, 0x8d485751, 0x1ca11815),
      Column(0x6c08300e, 0xccef36a8, 0x3fe02477, 0x69b687c3), Column(0xbd9d20df, 0xc70d778b, 0x374ad8b8, 0x8665eeb2))

  lemma ZeroRounds()
    ensures Rounds(ZERO_BEGIN, 10) == Rounds(ZERO_END, 0)
  {
    hide Rounds;
    Rounded(ZERO_BEGIN, 10, Matrix(
        Column(0xb7877feb, 0x4a7d5c86, 0x5a83fd3f, 0xe21e9bcf), Column(0x16526ab4, 0xfae0ea21, 0xa0c7c792, 0x3c599472),
        Column(0xa0f85005, 0x66e11e68, 0xf75be0ef, 0xca29678d), Column(0xb1d26bcb, 0xe3a851a6, 0x0b7556f4, 0xa600ebd4)), Matrix(
        Column(0xe45fd249, 0x86bf4098, 0x00fa16bc, 0x87c62165), Column(0x1bb820a6, 0x460b500a, 0x8a08812a, 0x6bbf8b09),
        Column(0xe31a88ea, 0xfa169886, 0x538dca0e, 0xc33013d6), Column(0xe667a9fe, 0x2a3bf673, 0x0c439641, 0xbb9f9849)));
    Rounded(Matrix(
        Column(0xe45fd249, 0x2a3bf673, 0x538dca0e, 0x6bbf8b09), Column(0x1bb820a6, 0x86bf4098, 0x0c439641, 0xc33013d6),
        Column(0xe31a88ea, 0x460b500a, 0x00fa16bc, 0xbb9f9849), Column(0xe667a9fe, 0xfa169886, 0x8a08812a, 0x87c62165)), 9, Matrix(
        Column(0x9c2fe493, 0x287e635e, 0x31c4e711, 0x9a81b7df), Column(0xede870d7, 0x2643df1a, 0x7f3d8827, 0x0011909f),
        Column(0xf8bd996f, 0x2a5faac7, 0x41c37f2e, 0x000bd5b8), Column(0xd7848403, 0x65f2f4d2, 0x53cda496, 0x65e3bbb4)), Matrix(
        Column(0xb20e0da6, 0x0e8a389f, 0xd1875d88, 0x17aa36ca), Column(0x21219e43, 0x7919a4b4, 0x602bb1ec, 0x601c8a8d),
        Column(0x79c69196, 0x323f2639, 0x69727d19, 0x18cf3767), Column(0x8eb9d107, 0x28bfa54e, 0x12e796ec, 0x60d10ebc)));
    Rounded(Matrix(
        Column(0xb20e0da6, 0x28bfa54e, 0x69727d19, 0x601c8a8d), Column(0x21219e43, 0x0e8a389f, 0x12e796ec, 0x18cf3767),
        Column(0x79c69196, 0x7919a4b4, 0xd1875d88, 0x60d10ebc), Column(0x8eb9d107, 0x323f2639, 0x602bb1ec, 0x17aa36ca)), 8, Matrix(
        Column(0x13f7fb89, 0x83ec4004, 0x302d9015, 0x8e41582b), Column(0x9f18d690, 0x911eb07e, 0x924ec2ce, 0x9de1f47e),
        Column(0x37910d80, 0x56bbff1b, 0x721da0c8, 0x679fb10f), Column(0x5be96878, 0xc2e1700f, 0x8575b3d8, 0x63bf2a9a)), Matrix(
        Column(0x0287a2a1, 0x37ccb7a7, 0x131f6ff5, 0x1a640884), Column(0xd2dc39ef, 0x1fe6c459, 0x6f38a9cc, 0x5c427a5f),
        Column(0xf2ecf51e, 0xe5f95617, 0xd7b18523, 0x1d928d7b), Column(0xc3876afe, 0x9276b821, 0xa0952ff2, 0xf4d2b4da)));
    Rounded(Matrix(
        Column(0x0287a2a1, 0x9276b821, 0xd7b18523, 0x5c427a5f), Column(0xd2dc39ef, 0x37ccb7a7, 0xa0952ff2, 0x1d928d7b),
        Column(0xf2ecf51e, 0x1fe6c459, 0x131f6ff5, 0xf4d2b4da), Column(0xc3876afe, 0xe5f95617, 0x6f38a9cc, 0x1a640884)), 7, Matrix(
        Column(0x345e4165, 0x43602812, 0xbbd926f3, 0xc389d914), Column(0xf9b1a43a, 0x9efa8aca, 0x7a3547b1, 0x5cb30085),
        Column(0xcbeead69, 0x8126a76e, 0x6418bebc, 0x434b68c6), Column(0xda3b3ee8, 0xf68a0869, 0xe35769c3, 0xaa8d0c13)), Matrix(
        Column(0xce7e87d9, 0x3b7f9ace, 0x6753449f, 0x42fe0c0e), Column(0xa31ffb1b, 0x88e11b18, 0x19566d45, 0xa3424a31),
        Column(0x6f562e4d, 0x1e1a71ef, 0x72e14c98, 0x01b086da), Column(0x3684a3ab, 0xc30e842c, 0x416f21b9, 0xb8fd7b38)));
    Rounded(Matrix(
        Column(0xce7e87d9, 0xc30e842c, 0x72e14c98, 0xa3424a31), Column(0xa31ffb1b, 0x3b7f9ace, 0x416f21b9, 0x01b086da),
        Column(0x6f562e4d, 0x88e11b18, 0x6753449f, 0xb8fd7b38), Column(0x3684a3ab, 0x1e1a71ef, 0x19566d45, 0x42fe0c0e)), 6, Matrix(
        Column(0x5141c3a6, 0x592fefc8, 0x2f06e87e, 0x75f16917), Column(0xa841fce6, 0xb2562f07, 0xc6c6caa3, 0x7223c9bb),
        Column(0x121e5a7a, 0x96124e62, 0xdccb3589, 0x431ab020), Column(0x63c3a869, 0xc60f77c2, 0x8aa88c20, 0x57be087a)), Matrix(
        Column(0x4e03490c, 0xea7c9cf0, 0xabbfaf66, 0xd41d25b4), Column(0x97eebef9, 0xb3a3e583, 0x5efd347a, 0xb1f55cb5),
        Column(0xf682bb04, 0xe5bad8a8, 0x4f9f9d79, 0x05110aed), Column(0x2f47e3b0, 0x50b4761b, 0x44f52393, 0x561c5907)));
    Rounded(Matrix(
        Column(0x4e03490c, 0x50b4761b, 0x4f9f9d79, 0xb1f55cb5), Column(0x97eebef9, 0xea7c9cf0, 0x44f52393, 0x05110aed),
        Column(0xf682bb04, 0xb3a3e583, 0xabbfaf66, 0x561c5907), Column(0x2f47e3b0, 0xe5bad8a8, 0x5efd347a, 0xd41d25b4)), 5, Matrix(
        Column(0xfa61c55f, 0x58f7f63e, 0x271be9d4, 0xf3ea1d19), Column(0xd5eb33e1, 0x68c8b4eb, 0x85ae4691, 0xefb49b84),
        Column(0xdf08d1f5, 0xc625d40c, 0x2d6e7ac6, 0x882dcf26), Column(0x47d5ce2d, 0x951cd101, 0x31f92877, 0x390f32de)), Matrix(
        Column(0x092a7c36, 0x1474e049, 0x3428e82c, 0xbe261341), Column(0x20d8f099, 0xa589007e, 0x798cfaac, 0x2c9f623a),
        Column(0x996bf24f, 0x5f15ae2e, 0x79f86405, 0x1969dea0), Column(0x6a62c0eb, 0xbbc32904, 0xc0e37ad2, 0x2fe80b61)));
    Rounded(Matrix(
        Column(0x092a7c36, 0xbbc32904, 0x79f86405, 0x2c9f623a), Column(0x20d8f099, 0x1474e049, 0xc0e37ad2, 0x1969dea0),
        Column(0x996bf24f, 0xa589007e, 0x3428e82c, 0x2fe80b61), Column(0x6a62c0eb, 0x5f15ae2e, 0x798cfaac, 0xbe261341)), 4, Matrix(
        Column(0x6b44e4ed, 0xa969c811, 0x8505ec23, 0x440c9fac), Column(0x49b9ce97, 0xb1d3c46f, 0xcb085a3d, 0xfbe2b347),
        Column(0x1e885b52, 0xc6105546, 0x521f482f, 0x244a4ee7), Column(0xd73ab9c8, 0xbb210d2a, 0x58b408b5, 0x62ce96ab)), Matrix(
        Column(0x6ddf4b98, 0x46da35f5, 0xba4b1657, 0x28344e52), Column(0x5fde0110, 0x31fb36ca, 0xc4702b5e, 0xaf4ad6e3),
        Column(0xd9ddb632, 0x70e56323, 0x46d58770, 0xe6947902), Column(0x7418250b, 0xdda3ea19, 0xc0c8e4e6, 0x2681e5bb)));
    Rounded(Matrix(
        Column(0x6ddf4b98, 0xdda3ea19, 0x46d58770, 0xaf4ad6e3), Column(0x5fde0110, 0x46da35f5, 0xc0c8e4e6, 0xe6947902),
        Column(0xd9ddb632, 0x31fb36ca, 0xba4b1657, 0x2681e5bb), Column(0x7418250b, 0x70e56323, 0xc4702b5e, 0x28344e52)), 3, Matrix(
        Column(0x03e54529, 0xd42130ac, 0xe1ca4d19, 0xb7a1e0e0), Column(0x47c6ab85, 0xdadd4db8, 0xd0bbce1b, 0xc1eba909),
        Column(0xa3309c22, 0x0a083e56, 0x3b43bf5a, 0x77b17baa), Column(0x7eadd7ce, 0xdbd83fe2, 0x5c07ffdf, 0xd11b07b8)), Matrix(
        Column(0xf6eb4385, 0x60cd994d, 0x82e92b96, 0xb24c5c63), Column(0x0f5070cf, 0xad805036, 0xd0da8654, 0x6b96a006),
        Column(0x824ac4d4, 0x89d591ce, 0x9e5243f3, 0x477a37f7), Column(0xff026184, 0x71db97dd, 0x16d0ee25, 0xd244fa8c)));
    Rounded(Matrix(
        Column(0xf6eb4385, 0x71db97dd, 0x9e5243f3, 0x6b96a006), Column(0x0f5070cf, 0x60cd994d, 0x16d0ee25, 0x477a37f7),
        Column(0x824ac4d4, 0xad805036, 0x82e92b96, 0xd244fa8c), Column(0xff026184, 0x89d591ce, 0xd0da8654, 0xb24c5c63)), 2, Matrix(
        Column(0x45d0c1e8, 0xb88c8389, 0xce78ff81, 0xb4c2b83e), Column(0x8bea4d63, 0xfd373c26, 0x56362d3f, 0x017a07b6),
        Column(0x375c5309, 0x47c90125, 0x4d1eaffd, 0xdaae86d8), Column(0x6dea03ef, 0x2b92965f, 0x5b4535b1, 0xdb3974c2)), Matrix(
        Column(0x0a49d0bb, 0x390f8b4d, 0x5d33cdbb, 0x85488580), Column(0xfd73bfeb, 0x0a23271f, 0x17d4372d, 0xc5d89a0b),
        Column(0xc24392d4, 0x0e051682, 0x5b48a341, 0x9df1402c), Column(0xe110766d, 0x7c188159, 0x0861dff7, 0xb08ab5e0)));
    Rounded(Matrix(
        Column(0x0a49d0bb, 0x7c188159, 0x5b48a341, 0xc5d89a0b), Column(0xfd73bfeb, 0x390f8b4d, 0x0861dff7, 0x9df1402c),
        Column(0xc24392d4, 0x0a23271f, 0x5d33cdbb, 0xb08ab5e0), Column(0xe110766d, 0x0e051682, 0x17d4372d, 0x85488580)), 1, Matrix(
        Column(0x7cdc780b, 0x6cdeac08, 0xe6a398af, 0xc33bb1b4), Column(0xc6858ddf, 0x4fbdc89a, 0xa49d3936, 0x9126adcd),
        Column(0x13424029, 0x2fc4f87e, 0xba840fc6, 0x513cc51f), Column(0x5a860fe3, 0xecee94b0, 0x0aa95fdd, 0xe965be53)), Matrix(
        Column(0x4c704011, 0x1aed8da0, 0x3fe02477, 0x8665eeb2), Column(0x5d1d8d32, 0xccef36a8, 0x374ad8b8, 0xf4b8436a),
        Column(0x6c08300e, 0xc70d778b, 0x7c5941da, 0x1ca11815), Column(0xbd9d20df, 0xb819d2bd, 0x8d485751, 0x69b687c3)));
  }

  lemma ZeroLoad()
    ensures Load(ZERO) == ZERO_BEGIN
  {
    hide Bits, Load;
    LoadIs(ZERO, 0x61707865, 0x3320646e, 0x79622d32, 0x6b206574, 0x00000000, 0x00000000, 0x00000000, 0x00000000,
      0x00000000, 0x00000000, 0x00000000, 0x00000000, 0x00000000, 0x00000000, 0x00000000, 0x00000000);
    Loads(0x61707865, 0x00000000, 0x00000000, 0x00000000, Column(0x61707865, 0x00000000, 0x00000000, 0x00000000));
    Loads(0x3320646e, 0x00000000, 0x00000000, 0x00000000, Column(0x3320646e, 0x00000000, 0x00000000, 0x00000000));
    Loads(0x79622d32, 0x00000000, 0x00000000, 0x00000000, Column(0x79622d32, 0x00000000, 0x00000000, 0x00000000));
    Loads(0x6b206574, 0x00000000, 0x00000000, 0x00000000, Column(0x6b206574, 0x00000000, 0x00000000, 0x00000000));
  }

  lemma ZeroBytes()
    ensures Serialize(Sum(ZERO_END, ZERO_BEGIN)) == ZERO_BLOCK
  {
    hide Le32Bytes;
    WordBytes(0xade0b876, 0x76, 0xb8, 0xe0, 0xad);
    WordBytes(0x903df1a0, 0xa0, 0xf1, 0x3d, 0x90);
    WordBytes(0xe56a5d40, 0x40, 0x5d, 0x6a, 0xe5);
    WordBytes(0x28bd8653, 0x53, 0x86, 0xbd, 0x28);
    WordBytes(0xb819d2bd, 0xbd, 0xd2, 0x19, 0xb8);
    WordBytes(0x1aed8da0, 0xa0, 0x8d, 0xed, 0x1a);
    WordBytes(0xccef36a8, 0xa8, 0x36, 0xef, 0xcc);
    WordBytes(0xc70d778b, 0x8b, 0x77, 0x0d, 0xc7);
    WordBytes(0x7c5941da, 0xda, 0x41, 0x59, 0x7c);
    WordBytes(0x8d485751, 0x51, 0x57, 0x48, 0x8d);
    WordBytes(0x3fe02477, 0x77, 0x24, 0xe0, 0x3f);
    WordBytes(0x374ad8b8, 0xb8, 0xd8, 0x4a, 0x37);
    WordBytes(0xf4b8436a, 0x6a, 0x43, 0xb8, 0xf4);
    WordBytes(0x1ca11815, 0x15, 0x18, 0xa1, 0x1c);
    WordBytes(0x69b687c3, 0xc3, 0x87, 0xb6, 0x69);
    WordBytes(0x8665eeb2, 0xb2, 0xee, 0x65, 0x86);
  }

  lemma ZeroBlock()
    ensures Block(ZERO) == ZERO_BLOCK
  {
    hide Load, Sum, Rounds, Serialize, ZERO, ZERO_BEGIN, ZERO_END, ZERO_BLOCK;
    ZeroLoad();
    ZeroRounds();
    RoundsNone(ZERO_END);
    ZeroBytes();
  }

  lemma ZeroInit()
    ensures Init(seq(32, i => 0), 0) == ZERO
  {
    var key := seq(32, i => 0);
    forall i: nat | i + 4 <= 32 ensures Le32(key, i) == 0 {}
  }

  /** The first test vector of appendix A.1: zero key, zero nonce, block 0. */
  lemma ZeroVector()
    ensures Block(Init(seq(32, i => 0), 0)) == ZERO_BLOCK
  {
    hide Block, Init, ZERO, ZERO_BLOCK;
    ZeroInit();
    ZeroBlock();
  }
}
