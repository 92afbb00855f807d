/** A published value of the whole AEAD (driver/selftest/chacha20poly1305.c). */
module ChaCha20Poly1305Vectors {
  import opened Words
  import opened ChaCha20
  import opened ChaCha20Vectors
  import opened ChaCha20Poly1305
  import Poly1305

  const KEY: seq<byte> := [0x4b, 0x28, 0x4b, 0xa3, 0x7b, 0xbe, 0xe9, 0xf8, 0x31, 0x80, 0x82, 0xd7, 0xd8, 0xe8, 0xb5, 0xa1,
    0xe2, 0x18, 0x18, 0x8a, 0x9c, 0xfa, 0xa3, 0x3d, 0x25, 0x71, 0x3e, 0x40, 0xbc, 0x54, 0x7a, 0x3e]

  const NONCE: nat := 0xc4c4c628291f32d2

  const AD: seq<byte> := [0x6a, 0xe2, 0xad, 0x3f, 0x88, 0x39, 0x5a, 0x40]

  const OPENING: State := [
    0x61707865, 0x3320646e, 0x79622d32, 0x6b206574, 0xa34b284b, 0xf8e9be7b, 0xd7828031, 0xa1b5e8d8,
    0x8a1818e2, 0x3da3fa9c, 0x403e7125, 0x3e7a54bc, 0x00000000, 0x00000000, 0x291f32d2, 0xc4c4c628]

  const OPENING_BLOCK: seq<byte> :=
    ([0xee, 0x2d, 0x2b, 0xcc] + [0x7a, 0x5f, 0x3c, 0x6f] + [0xff, 0x39, 0xfe, 0x4e] + [0x80, 0x49, 0xb1, 0xda])
    + ([0xc7, 0xa3, 0xf3, 0x81] + [0x36, 0xfa, 0x8f, 0x32] + [0xa7, 0xa7, 0xed, 0x64] + [0x93, 0xaa, 0xd1, 0xf4])
    + ([0x81, 0xe3, 0xa8, 0x91] + [0x14, 0xa0, 0x6c, 0x30] + [0x3e, 0x02, 0x89, 0x10] + [0x2a, 0xe9, 0x7e, 0x95])
    + ([0x70, 0x2d, 0x74, 0x2b] + [0x4f, 0x06, 0x29, 0x76] + [0x97, 0x34, 0xee, 0x1a] + [0x84, 0xf2, 0x0a, 0x3e])

  const OPENING_BEGIN: Matrix := Matrix(
      Column(0x61707865, 0xa34b284b, 0x8a1818e2, 0x00000000), Column(0x3320646e, 0xf8e9be7b, 0x3da3fa9c, 0x00000000),
      Column(0x79622d32, 0xd7828031, 0x403e7125, 0x291f32d2), Column(0x6b206574, 0xa1b5e8d8, 0x3e7a54bc, 0xc4c4c628))

  const OPENING_END: Matrix := Matrix(
      Column(0x6abab589, 0xdea87b7c, 0x0790ca9f, 0x2b742d70), Column(0x3c1bfb0c, 0x39a63bbb, 0xf2c8a578, 0x7629064f),
      Column(0xd59c0ccd, 0x8d6b2776, 0xd04a9119, 0xf1cf01c5), Column(0x6f90e40c, 0x531bc1bb, 0x5704946e, 0x79462c5c))

  lemma OpeningRounds()
    ensures Rounds(OPENING_BEGIN, 10) == Rounds(OPENING_END, 0)
  {
    hide Rounds;
    Rounded(OPENING_BEGIN, 10, Matrix(
        Column(0x38190948, 0x45bcd6f0, 0xd3d61135, 0xa90df398), Column(0x7597fc6f, 0x68293dcb, 0xdf5d8bfd, 0x7ed06557),
        Column(0x2795bde9, 0x0176af69, 0x04b3fdd8, 0x24c412b8), Column(0xbc17b4c2, 0x8d45ba4a, 0x3a5bed02, 0x737cd034)), Matrix(
        Column(0xcf102652, 0x8e7128fe, 0xd3d13d6e, 0x37f56c58), Column(0x1d557516, 0x0094ba07, 0xa847e04a, 0x15ab1545),
        Column(0xaaec1ffa, 0x00359846, 0x7a10ccf7, 0x88d5f1b7), Column(0xb8545f8f, 0x4ec1f9b0, 0xd6e2502e, 0x5e7a9f21)));
    Rounded(Matrix(
        Column(0xcf102652, 0x4ec1f9b0, 0x7a10ccf7, 0x15ab1545), Column(0x1d557516, 0x8e7128fe, 0xd6e2502e, 0x88d5f1b7),
        Column(0xaaec1ffa, 0x0094ba07, 0xd3d13d6e, 0x5e7a9f21), Column(0xb8545f8f, 0x00359846, 0xa847e04a, 0x37f56c58)), 9, Matrix(
        Column(0x809e2e1b, 0x591b1e75, 0x887e3825, 0xd92662b5), Column(0xf1829aa3, 0xc26fa816, 0x683f23df, 0x21b9b09e),
        Column(0x1417cb87, 0x53209f9c, 0x5030b0b9, 0x373e7d51), Column(0xc801fc13, 0x986d93ef, 0xd048df19, 0x8c736f53)), Matrix(
        Column(0x058ff2f0, 0x2989261a, 0xf6d10ef3, 0xed3d8ebc), Column(0x82d361fe, 0x7fefe3de, 0x82cff878, 0x59fc7bda),
        Column(0x61ee4d76, 0x27f0f7e5, 0x7f270fef, 0x06c04a8e), Column(0x53649318, 0xed06d35f, 0x8d9d7536, 0xbd853b34)));
    Rounded(Matrix(
        Column(0x058ff2f0, 0xed06d35f, 0x7f270fef, 0x59fc7bda), Column(0x82d361fe, 0x2989261a, 0x8d9d7536, 0x06c04a8e),
        Column(0x61ee4d76, 0x7fefe3de, 0xf6d10ef3, 0xbd853b34), Column(0x53649318, 0x27f0f7e5, 0x82cff878, 0xed3d8ebc)), 8, Matrix(
        Column(0x9917336a, 0xea6b330c, 0xbf54bb7d, 0x82980024), Column(0x7ff90fb3, 0x22e40a36, 0xbfd94f8f, 0x6fa52fbd),
        Column(0xca673941, 0x0fc0f1f0, 0x0896860e, 0x07651ac0), Column(0x92e5e50b, 0x0a543c1e, 0x2b84f276, 0xa4736396)), Matrix(
        Column(0x46f541e2, 0x6885f650, 0x2a2b0fae, 0xc35e6a18), Column(0x40a083cf, 0x3e377af2, 0x549aecd9, 0x278eed41),
        Column(0x0963c665, 0x8e507457, 0x9bb4f1ee, 0x817d7b53), Column(0x3cfe0aa4, 0xc6d44629, 0xec215a01, 0x2970903e)));
    Rounded(Matrix(
        Column(0x46f541e2, 0xc6d44629, 0x9bb4f1ee, 0x278eed41), Column(0x40a083cf, 0x6885f650, 0xec215a01, 0x817d7b53),
        Column(0x0963c665, 0x3e377af2, 0x2a2b0fae, 0x2970903e), Column(0x3cfe0aa4, 0x8e507457, 0x549aecd9, 0xc35e6a18)), 7, Matrix(
        Column(0xc36b546d, 0xee455ccb, 0x227d46db, 0x217e2aa6), Column(0x3067427d, 0xcbb069cf, 0x18d7a88d, 0x2b6a2631),
        Column(0x77e1fdb1, 0x30b2b2da, 0x8427d93f, 0x88935aa6), Column(0xa35a6d6d, 0x744e697d, 0x22e372a0, 0xb9657db7)), Matrix(
        Column(0xc582e6fc, 0xf25c81b3, 0x518391c3, 0x09d08206), Column(0xc137c87d, 0xa08f01d4, 0xc95ccd25, 0xc6881a1e),
        Column(0x22a4e8ab, 0x5c3f7294, 0x1eccff98, 0xbb2ff163), Column(0x9b74eeab, 0xdc266bce, 0x946d68a4, 0xeaf7a70b)));
    Rounded(Matrix(
        Column(0xc582e6fc, 0xdc266bce, 0x1eccff98, 0xc6881a1e), Column(0xc137c87d, 0xf25c81b3, 0x946d68a4, 0xbb2ff163),
        Column(0x22a4e8ab, 0xa08f01d4, 0x518391c3, 0xeaf7a70b), Column(0x9b74eeab, 0x5c3f7294, 0xc95ccd25, 0x09d08206)), 6, Matrix(
        Column(0x1280ce82, 0x4e38d5e6, 0xbc4b0a13, 0x54a9a35a), Column(0x82a31609, 0x68f420f8, 0x3fdf2398, 0xf01eb239),
        Column(0x4ed91e66, 0xc53736e3, 0x4c2f5d8a, 0xad37a203), Column(0x93464049, 0xe293f9db, 0x2c54f8f9, 0x7fbe2d70)), Matrix(
        Column(0x4f9fb5e6, 0xe02446bb, 0xa3ea8ee1, 0x95b12c8d), Column(0x0b834a7f, 0x667261c9, 0x51641950, 0x35590ce4),
        Column(0x3492f086, 0xe80cb0a9, 0x50f5c124, 0xea31f59e), Column(0x1d1f81d2, 0x3cb0950e, 0x27d90a89, 0x33cd9aa9)));
    Rounded(Matrix(
        Column(0x4f9fb5e6, 0x3cb0950e, 0x50f5c124, 0x35590ce4), Column(0x0b834a7f, 0xe02446bb, 0x27d90a89, 0xea31f59e),
        Column(0x3492f086, 0x667261c9, 0xa3ea8ee1, 0x33cd9aa9), Column(0x1d1f81d2, 0xe80cb0a9, 0x51641950, 0x95b12c8d)), 5, Matrix(
        Column(0xfb4285af, 0xd88d28c3, 0xe94320ea, 0x523ca6bd), Column(0x8051d7ff, 0x7c98630b, 0x82537603, 0xf5d669e4),
        Column(0xd06b52f9, 0xd6b435e7, 0xfacb68c1, 0x8dfa3118), Column(0x66c07c00, 0x69877063, 0xa7474765, 0x36ec9d78)), Matrix(
        Column(0xd48aa97b, 0xed1bacf2, 0xb975f798, 0x48e84da1), Column(0xbe9d9627, 0x5170fabf, 0x193569b4, 0xc6931d15),
        Column(0x03c9a303, 0x5ee58866, 0x056b14b7, 0x716f27a9), Column(0x5f5540cd, 0x931fc743, 0xa721a384, 0x8ef27aca)));
    Rounded(Matrix(
        Column(0xd48aa97b, 0x931fc743, 0x056b14b7, 0xc6931d15), Column(0xbe9d9627, 0xed1bacf2, 0xa721a384, 0x716f27a9),
        Column(0x03c9a303, 0x5170fabf, 0xb975f798, 0x8ef27aca), Column(0x5f5540cd, 0x5ee58866, 0x193569b4, 0x48e84da1)), 4, Matrix(
        Column(0xfed5aebe, 0x0681c1b3, 0xf1263d83, 0x7e0f8793), Column(0x48e3d185, 0xfbaff561, 0x5eddd186, 0x530b532c),
        Column(0x37d89cd2, 0x2c089049, 0x70c5ee30, 0xd0471ad0), Column(0x9cc8d565, 0xb10dd614, 0xf7ec179e, 0x5a23b718)), Matrix(
        Column(0x22411ba5, 0x99f2c0f6, 0xca889207, 0x46bb0331), Column(0x9018f0f2, 0xb7de699f, 0x244333f7, 0x45fa1176),
        Column(0xbbdcbd25, 0x00c41afd, 0x28f7c20a, 0x1606c89a), Column(0x1b9ca5ba, 0x9779459c, 0x417cfc29, 0x54d6b796)));
    Rounded(Matrix(
        Column(0x22411ba5, 0x9779459c, 0x28f7c20a, 0x45fa1176), Column(0x9018f0f2, 0x99f2c0f6, 0x417cfc29, 0x1606c89a),
        Column(0xbbdcbd25, 0xb7de699f, 0xca889207, 0x54d6b796), Column(0x1b9ca5ba, 0x00c41afd, 0x244333f7, 0x46bb0331)), 3, Matrix(
        Column(0x2977c226, 0x69a2235b, 0xd96e24a3, 0x403e6659), Column(0x0997b419, 0xfda74bbf, 0xa0774ca6, 0xe5881470),
        Column(0xc0c9e584, 0x498e02dd, 0xf79da2c5, 0x9bc2e951), Column(0xf5a3bf27, 0x76babc6a, 0x0daf8b08, 0x25e5fc36)), Matrix(
        Column(0xa5ff0f32, 0xcf37af35, 0x157e6e13, 0x2c0dc854), Column(0x5cf5a073, 0x6ef7e918, 0x391206af, 0x5ab3688c),
        Column(0x9c310189, 0x261221ad, 0x3ee07bd8, 0xafd38529), Column(0xf26d4ee0, 0xf90abc7c, 0x6ad57926, 0xbe8a67f9)));
    Rounded(Matrix(
        Column(0xa5ff0f32, 0xf90abc7c, 0x3ee07bd8, 0x5ab3688c), Column(0x5cf5a073, 0xcf37af35, 0x6ad57926, 0xafd38529),
        Column(0x9c310189, 0x6ef7e918, 0x157e6e13, 0xbe8a67f9), Column(0xf26d4ee0, 0x261221ad, 0x391206af, 0x2c0dc854)), 2, Matrix(
        Column(0x3ee8ad5e, 0xd963cf99, 0xac6c262f, 0xca68e49d), Column(0x414e6f4e, 0x31590488, 0x0543adaf, 0xcfecb08b),
        Column(0x17d3c763, 0x719cc691, 0x2e49e54f, 0x8b72c19a), Column(0xaa283e0c, 0xaeba2639, 0xe2f5b933, 0xf10a7e12)), Matrix(
        Column(0xe662dedc, 0x5e689af1, 0x949dfdc3, 0x965f9729), Column(0x025db239, 0xb84869cd, 0xd402ec89, 0x1fcabad3),
        Column(0x5728880f, 0xcf03f4ec, 0x49049d9a, 0x3f816e0a), Column(0x9b1f4e33, 0x2d624573, 0xf1c98404, 0x2046cd57)));
    Rounded(Matrix(
        Column(0xe662dedc, 0x2d624573, 0x49049d9a, 0x1fcabad3), Column(0x025db239, 0x5e689af1, 0xf1c98404, 0x3f816e0a),
        Column(0x5728880f, 0xb84869cd, 0x949dfdc3, 0x2046cd57), Column(0x9b1f4e33, 0xcf03f4ec, 0xd402ec89, 0x965f9729)), 1, Matrix(
        Column(0x4292d0fb, 0x581914ec, 0xf67d9e85, 0x0edcf4dc), Column(0x7861f1d2, 0x81ee0720, 0x569878a6, 0x41ae955b),
        Column(0x23c43872, 0x099bc71a, 0x20407118, 0x4f17441f), Column(0x0c01d992, 0x40a0d73f, 0xdf5fd7dd, 0x3725eed8)), Matrix(
        Column(0x6abab589, 0x39a63bbb, 0xd04a9119, 0x79462c5c), Column(0x3c1bfb0c, 0x8d6b2776, 0x5704946e, 0x2b742d70),
        Column(0xd59c0ccd, 0x531bc1bb, 0x0790ca9f, 0x7629064f), Column(0x6f90e40c, 0xdea87b7c, 0xf2c8a578, 0xf1cf01c5)));
  }

  lemma OpeningLoad()
    ensures Load(OPENING) == OPENING_BEGIN
  {
    hide Bits, Load;
    LoadIs(OPENING, 0x61707865, 0x3320646e, 0x79622d32, 0x6b206574, 0xa34b284b, 0xf8e9be7b, 0xd7828031, 0xa1b5e8d8,
      0x8a1818e2, 0x3da3fa9c, 0x403e7125, 0x3e7a54bc, 0x00000000, 0x00000000, 0x291f32d2, 0xc4c4c628);
    Loads(0x61707865, 0xa34b284b, 0x8a1818e2, 0x00000000, Column(0x61707865, 0xa34b284b, 0x8a1818e2, 0x00000000));
    Loads(0x3320646e, 0xf8e9be7b, 0x3da3fa9c, 0x00000000, Column(0x3320646e, 0xf8e9be7b, 0x3da3fa9c, 0x00000000));
    Loads(0x79622d32, 0xd7828031, 0x403e7125, 0x291f32d2, Column(0x79622d32, 0xd7828031, 0x403e7125, 0x291f32d2));
    Loads(0x6b206574, 0xa1b5e8d8, 0x3e7a54bc, 0xc4c4c628, Column(0x6b206574, 0xa1b5e8d8, 0x3e7a54bc, 0xc4c4c628));
  }

  lemma OpeningBytes()
    ensures Serialize(Sum(OPENING_END, OPENING_BEGIN)) == OPENING_BLOCK
  {
    hide Le32Bytes;
    WordBytes(0xcc2b2dee, 0xee, 0x2d, 0x2b, 0xcc);
    WordBytes(0x6f3c5f7a, 0x7a, 0x5f, 0x3c, 0x6f);
    WordBytes(0x4efe39ff, 0xff, 0x39, 0xfe, 0x4e);
    WordBytes(0xdab14980, 0x80, 0x49, 0xb1, 0xda);
    WordBytes(0x81f3a3c7, 0xc7, 0xa3, 0xf3, 0x81);
    WordBytes(0x328ffa36, 0x36, 0xfa, 0x8f, 0x32);
    WordBytes(0x64eda7a7, 0xa7, 0xa7, 0xed, 0x64);
    WordBytes(0xf4d1aa93, 0x93, 0xaa, 0xd1, 0xf4);
    WordBytes(0x91a8e381, 0x81, 0xe3, 0xa8, 0x91);
    WordBytes(0x306ca014, 0x14, 0xa0, 0x6c, 0x30);
    WordBytes(0x1089023e, 0x3e, 0x02, 0x89, 0x10);
    WordBytes(0x957ee92a, 0x2a, 0xe9, 0x7e, 0x95);
    WordBytes(0x2b742d70, 0x70, 0x2d, 0x74, 0x2b);
    WordBytes(0x7629064f, 0x4f, 0x06, 0x29, 0x76);
    WordBytes(0x1aee3497, 0x97, 0x34, 0xee, 0x1a);
    WordBytes(0x3e0af284, 0x84, 0xf2, 0x0a, 0x3e);
  }

  /** Block 0, of which the first half is the key of the tag. */
  lemma OpeningBlock()
    ensures Block(OPENING) == OPENING_BLOCK
  {
    hide Load, Sum, Rounds, Serialize, OPENING, OPENING_BEGIN, OPENING_END, OPENING_BLOCK;
    OpeningLoad();
    OpeningRounds();
    RoundsNone(OPENING_END);
    OpeningBytes();
  }

  const MESSAGE: State := [
    0x61707865, 0x3320646e, 0x79622d32, 0x6b206574, 0xa34b284b, 0xf8e9be7b, 0xd7828031, 0xa1b5e8d8,
    0x8a1818e2, 0x3da3fa9c, 0x403e7125, 0x3e7a54bc, 0x00000001, 0x00000000, 0x291f32d2, 0xc4c4c628]

  const MESSAGE_BLOCK: seq<byte> :=
    ([0x13, 0xc4, 0x5d, 0x54] + [0xbb, 0xdb, 0x1f, 0x7e] + [0xd0, 0x17, 0x57, 0x98] + [0xba, 0x5d, 0xf8, 0xd2])
    + ([0x1f, 0x52, 0x88, 0x45] + [0xae, 0xcd, 0x06, 0x95] + [0x2b, 0x8f, 0x89, 0x37] + [0x5a, 0xce, 0x26, 0xdd])
    + ([0xde, 0x6a, 0x74, 0x1a] + [0x06, 0x52, 0x99, 0xbf] + [0xa6, 0x4e, 0x08, 0x83] + [0xb0, 0x36, 0x38, 0xf1])
    + ([0x54, 0x2b, 0xaf, 0x56] + [0x9a, 0x44, 0xc4, 0x14] + [0x7b, 0x0d, 0xe7, 0xb3] + [0xcd, 0xdf, 0xcb, 0xe7])

  const MESSAGE_BEGIN: Matrix := Matrix(
      Column(0x61707865, 0xa34b284b, 0x8a1818e2, 0x00000001), Column(0x3320646e, 0xf8e9be7b, 0x3da3fa9c, 0x00000000),
      Column(0x79622d32, 0xd7828031, 0x403e7125, 0x291f32d2), Column(0x6b206574, 0xa1b5e8d8, 0x3e7a54bc, 0xc4c4c628))

  const MESSAGE_END: Matrix := Matrix(
      Column(0xf2ed4bae, 0xa23d29d4, 0x905c51fc, 0x56af2b53), Column(0x4aff774d, 0x9c1d0f33, 0x81f5576a, 0x14c4449a),
      Column(0x1ef4ea9e, 0x60070efa, 0x42c9dd81, 0x8ac7daa9), Column(0x67d7f846, 0x3b70e582, 0xb2bde1f4, 0x230719a5))

  lemma MessageRounds()
    ensures Rounds(MESSAGE_BEGIN, 10) == Rounds(MESSAGE_END, 0)
  {
    hide Rounds;
    Rounded(MESSAGE_BEGIN, 10, Matrix(
        Column(0x28190948, 0xc53cdef8, 0xd2d71125, 0xa80df388), Column(0x7597fc6f, 0x68293dcb, 0xdf5d8bfd, 0x7ed06557),
        Column(0x2795bde9, 0x0176af69, 0x04b3fdd8, 0x24c412b8), Column(0xbc17b4c2, 0x8d45ba4a, 0x3a5bed02, 0x737cd034)), Matrix(
        Column(0xbe102652, 0x3649007f, 0xd3a14d3f, 0x37c56c29), Column(0x1d457515, 0x3015bb87, 0xa856e24a, 0x15aa1645),
        Column(0x9af3200a, 0x193db037, 0x8825dcb7, 0x97ea0187), Column(0x504bee0f, 0xae4585b3, 0xa9abd15e, 0x494b9fd1)));
    Rounded(Matrix(
        Column(0xbe102652, 0xae4585b3, 0x8825dcb7, 0x15aa1645), Column(0x1d457515, 0x3649007f, 0xa9abd15e, 0x97ea0187),
        Column(0x9af3200a, 0x3015bb87, 0xd3a14d3f, 0x494b9fd1), Column(0x504bee0f, 0x193db037, 0xa856e24a, 0x37c56c29)), 9, Matrix(
        Column(0xa9860ac7, 0xf4e8059a, 0x08d98ec9, 0xc6733813), Column(0xbcea4853, 0x080f9abf, 0x174bcd8a, 0xf98c37c8),
        Column(0x12492e10, 0x673853b3, 0x218e22d8, 0x09ac5356), Column(0x2893b685, 0x52892794, 0x97af0a70, 0xfce8c9da)), Matrix(
        Column(0x10444de4, 0xa2d0c7fd, 0xa5eb09d1, 0x1800997c), Column(0xf019c1d5, 0x0faa6d46, 0x47e87115, 0x0c238454),
        Column(0x558d8940, 0x70bce15e, 0x4c5a4a5e, 0xe1141e37), Column(0xebfb7b46, 0xbde6213b, 0xb9047365, 0xb26f9104)));
    Rounded(Matrix(
        Column(0x10444de4, 0xbde6213b, 0x4c5a4a5e, 0x0c238454), Column(0xf019c1d5, 0xa2d0c7fd, 0xb9047365, 0xe1141e37),
        Column(0x558d8940, 0x0faa6d46, 0xa5eb09d1, 0xb26f9104), Column(0xebfb7b46, 0x70bce15e, 0x47e87115, 0x1800997c)), 8, Matrix(
        Column(0xd10037c3, 0xa70f02c0, 0x839bd6a1, 0x4bf5ca3a), Column(0x24f478f5, 0xfe8e1af9, 0x61f4f316, 0x110b0bb3),
        Column(0xddfee6b2, 0xac9de7f8, 0x899fcbe3, 0x7c31eaba), Column(0x2201947b, 0x6c273191, 0xe79179b4, 0xd9d0c3e7)), Matrix(
        Column(0x1f19e103, 0x3cd8c409, 0x5df23fcf, 0x42f75d8e), Column(0x20d094dc, 0x24fe256b, 0x9977cfa5, 0x070ebb8a),
        Column(0xfa2c17fd, 0xee7e86e1, 0x73d902b7, 0xdc4cd0e9), Column(0x63c00ec2, 0xcefe695d, 0x21328b55, 0x41bbe31e)));
    Rounded(Matrix(
        Column(0x1f19e103, 0xcefe695d, 0x73d902b7, 0x070ebb8a), Column(0x20d094dc, 0x3cd8c409, 0x21328b55, 0xdc4cd0e9),
        Column(0xfa2c17fd, 0x24fe256b, 0x5df23fcf, 0x41bbe31e), Column(0x63c00ec2, 0xee7e86e1, 0x9977cfa5, 0x42f75d8e)), 7, Matrix(
        Column(0xc6415513, 0xab7ddbe4, 0x117ff104, 0xabbc0537), Column(0xda3c9243, 0xe0c56952, 0xd952b38c, 0x3013a652),
        Column(0x8adaeef1, 0x54279ec1, 0xe918feb4, 0xacb06054), Column(0xf8a78ea0, 0x15d8b1a5, 0xec43499e, 0x8a9e6930)), Matrix(
        Column(0x5b58a06f, 0xd6e0e93c, 0xcdfc23d8, 0x0d8df78c), Column(0x437fa849, 0xdf8bd43c, 0x6ca460ed, 0x4c2d9177),
        Column(0x63b3b16f, 0x3320e826, 0x8f665109, 0x7721cf65), Column(0x9aa1bf79, 0xd37e2251, 0x55daa8b1, 0x71b7ec90)));
    Rounded(Matrix(
        Column(0x5b58a06f, 0xd37e2251, 0x8f665109, 0x4c2d9177), Column(0x437fa849, 0xd6e0e93c, 0x55daa8b1, 0x7721cf65),
        Column(0x63b3b16f, 0xdf8bd43c, 0xcdfc23d8, 0x71b7ec90), Column(0x9aa1bf79, 0x3320e826, 0x6ca460ed, 0x0d8df78c)), 6, Matrix(
        Column(0x683c15c6, 0xf8d11cab, 0x6e94f13f, 0x8b773d3b), Column(0xda2d77aa, 0x0d73a99f, 0x81d60176, 0xcd1aeb84),
        Column(0x0b655436, 0xdded24ae, 0x959e14c2, 0x5e66be62), Column(0x5a545098, 0x6ca85fc4, 0x0448f846, 0x4790d70a)), Matrix(
        Column(0x6499ae9c, 0x20029d0d, 0xf4a9ea0d, 0xf69ca30c), Column(0xc90c73dc, 0x0e854f82, 0x14ecdd1b, 0x6f40b168),
        Column(0x37a6deb5, 0x73313f10, 0x9f7f48c5, 0xd86ba26f), Column(0xb4469805, 0xd6bff16e, 0xbc8c5520, 0x67954667)));
    Rounded(Matrix(
        Column(0x6499ae9c, 0xd6bff16e, 0x9f7f48c5, 0x6f40b168), Column(0xc90c73dc, 0x20029d0d, 0xbc8c5520, 0xd86ba26f),
        Column(0x37a6deb5, 0x0e854f82, 0xf4a9ea0d, 0x67954667), Column(0xb4469805, 0x73313f10, 0x14ecdd1b, 0xf69ca30c)), 5, Matrix(
        Column(0x2234a66f, 0x878aba70, 0x07d41311, 0x56f27633), Column(0xeac7a5da, 0x8fe816d8, 0xb0a744dc, 0x4194be58),
        Column(0x3a70735e, 0x845b1fc4, 0x7d4cf318, 0x2052e752), Column(0xa07946b8, 0x4fb6bcc8, 0xe99e02da, 0x609753d4)), Matrix(
        Column(0x3f547b87, 0x5f361a5f, 0x3389d274, 0xc7a90cd1), Column(0x7159a72f, 0xee6efec9, 0x91ea3c6c, 0xf49effc2),
        Column(0xd047fdc4, 0xd4cdde44, 0xcf895622, 0x3936775e), Column(0xe7782232, 0x1fc81c93, 0x994bb133, 0x022a6401)));
    Rounded(Matrix(
        Column(0x3f547b87, 0x1fc81c93, 0xcf895622, 0xf49effc2), Column(0x7159a72f, 0x5f361a5f, 0x994bb133, 0x3936775e),
        Column(0xd047fdc4, 0xee6efec9, 0x3389d274, 0x022a6401), Column(0xe7782232, 0xd4cdde44, 0x91ea3c6c, 0xc7a90cd1)), 4, Matrix(
        Column(0x00f00aa4, 0xe82d40e0, 0x6003280b, 0x28a12667), Column(0x789af280, 0x1e722419, 0x9a37d4ba, 0x4a1b39ce),
        Column(0x45d48eb4, 0xaa92e551, 0x2448b7ed, 0x583228dd), Column(0x82a7f51b, 0xa0ac262c, 0x9f20ace9, 0x008ef48e)), Matrix(
        Column(0xbe9e3cbd, 0x51939e9a, 0xab9f293d, 0xad235164), Column(0x69001b75, 0x9af8d481, 0x46e7b20d, 0xb610f998),
        Column(0xc5a959b9, 0x07291bd5, 0x7526f6ee, 0x87f52248), Column(0x9f494bf2, 0x51846a09, 0x26d71d23, 0x6f791582)));
    Rounded(Matrix(
        Column(0xbe9e3cbd, 0x51846a09, 0x7526f6ee, 0xb610f998), Column(0x69001b75, 0x51939e9a, 0x26d71d23, 0x87f52248),
        Column(0xc5a959b9, 0x9af8d481, 0xab9f293d, 0x6f791582), Column(0x9f494bf2, 0x07291bd5, 0x46e7b20d, 0xad235164)), 3, Matrix(
        Column(0x2f953f16, 0xb62ce05f, 0xa01ec190, 0xcb992470), Column(0x96d4f8f7, 0x516abfc7, 0x52e3eb97, 0x93c5910e),
        Column(0x5f7bc614, 0xfc4fd32a, 0xab21087c, 0xc3c9cf64), Column(0xe0db1f71, 0xfb34cf67, 0xf59ede34, 0x781420d6)), Matrix(
        Column(0xfcea0c61, 0x65c30688, 0x6b218b89, 0xe1f48a22), Column(0x91827e3c, 0xa58538a7, 0xb116b86a, 0xd3268179),
        Column(0x5ef6bb75, 0x20575296, 0x28068b5f, 0x8372005a), Column(0xe10ba32b, 0xc9c2b684, 0x43902636, 0xbff7e5d1)));
    Rounded(Matrix(
        Column(0xfcea0c61, 0xc9c2b684, 0x28068b5f, 0xd3268179), Column(0x91827e3c, 0x65c30688, 0x43902636, 0x8372005a),
        Column(0x5ef6bb75, 0xa58538a7, 0x6b218b89, 0xbff7e5d1), Column(0xe10ba32b, 0x20575296, 0xb116b86a, 0xe1f48a22)), 2, Matrix(
        Column(0xc8139d0b, 0x26fc297d, 0xfb2b2274, 0x8f88818b), Column(0xd113dfa2, 0x0a3a8e46, 0x55da2fc2, 0x8dab9555),
        Column(0xac7721b2, 0x39542248, 0x378985d2, 0xba9a3ebd), Column(0xde1c56cb, 0x04cbd5f6, 0x30b0f6a1, 0xffb65da1)), Matrix(
        Column(0x0626f595, 0x4575bf5b, 0x8552213a, 0xd6d86d70), Column(0x70549a6e, 0xef49fac1, 0xe6320b71, 0x351f8ef0),
        Column(0xe9edad56, 0x0855a32b, 0x6eba1ee8, 0x1091bf8b), Column(0x417c136b, 0x0fa53051, 0x9e7cd943, 0x89ace9ff)));
    Rounded(Matrix(
        Column(0x0626f595, 0x0fa53051, 0x6eba1ee8, 0x351f8ef0), Column(0x70549a6e, 0x4575bf5b, 0x9e7cd943, 0x1091bf8b),
        Column(0xe9edad56, 0xef49fac1, 0x8552213a, 0x89ace9ff), Column(0x417c136b, 0x0855a32b, 0xe6320b71, 0xd6d86d70)), 1, Matrix(
        Column(0x66cac74d, 0x24bff7d3, 0xf6b7de88, 0xdce79ecd), Column(0x61e6b5e5, 0x66309cc2, 0x28d03d25, 0xa410be87),
        Column(0x11e8ea9e, 0xa29ad17f, 0xc7f47725, 0x00ba0550), Column(0x1a66d33a, 0x78e14fc9, 0x4264de3b, 0x804c33c1)), Matrix(
        Column(0xf2ed4bae, 0x9c1d0f33, 0x42c9dd81, 0x230719a5), Column(0x4aff774d, 0x60070efa, 0xb2bde1f4, 0x56af2b53),
        Column(0x1ef4ea9e, 0x3b70e582, 0x905c51fc, 0x14c4449a), Column(0x67d7f846, 0xa23d29d4, 0x81f5576a, 0x8ac7daa9)));
  }

  lemma MessageLoad()
    ensures Load(MESSAGE) == MESSAGE_BEGIN
  {
    hide Bits, Load;
    LoadIs(MESSAGE, 0x61707865, 0x3320646e, 0x79622d32, 0x6b206574, 0xa34b284b, 0xf8e9be7b, 0xd7828031, 0xa1b5e8d8,
      0x8a1818e2, 0x3da3fa9c, 0x403e7125, 0x3e7a54bc, 0x00000001, 0x00000000, 0x291f32d2, 0xc4c4c628);
    Loads(0x61707865, 0xa34b284b, 0x8a1818e2, 0x00000001, Column(0x61707865, 0xa34b284b, 0x8a1818e2, 0x00000001));
    Loads(0x3320646e, 0xf8e9be7b, 0x3da3fa9c, 0x00000000, Column(0x3320646e, 0xf8e9be7b, 0x3da3fa9c, 0x00000000));
    Loads(0x79622d32, 0xd7828031, 0x403e7125, 0x291f32d2, Column(0x79622d32, 0xd7828031, 0x403e7125, 0x291f32d2));
    Loads(0x6b206574, 0xa1b5e8d8, 0x3e7a54bc, 0xc4c4c628, Column(0x6b206574, 0xa1b5e8d8, 0x3e7a54bc, 0xc4c4c628));
  }

  lemma MessageBytes()
    ensures Serialize(Sum(MESSAGE_END, MESSAGE_BEGIN)) == MESSAGE_BLOCK
  {
    hide Le32Bytes;
    WordBytes(0x545dc413, 0x13, 0xc4, 0x5d, 0x54);
    WordBytes(0x7e1fdbbb, 0xbb, 0xdb, 0x1f, 0x7e);
    WordBytes(0x985717d0, 0xd0, 0x17, 0x57, 0x98);
    WordBytes(0xd2f85dba, 0xba, 0x5d, 0xf8, 0xd2);
    WordBytes(0x4588521f, 0x1f, 0x52, 0x88, 0x45);
    WordBytes(0x9506cdae, 0xae, 0xcd, 0x06, 0x95);
    WordBytes(0x37898f2b, 0x2b, 0x8f, 0x89, 0x37);
    WordBytes(0xdd26ce5a, 0x5a, 0xce, 0x26, 0xdd);
    WordBytes(0x1a746ade, 0xde, 0x6a, 0x74, 0x1a);
    WordBytes(0xbf995206, 0x06, 0x52, 0x99, 0xbf);
    WordBytes(0x83084ea6, 0xa6, 0x4e, 0x08, 0x83);
    WordBytes(0xf13836b0, 0xb0, 0x36, 0x38, 0xf1);
    WordBytes(0x56af2b54, 0x54, 0x2b, 0xaf, 0x56);
    WordBytes(0x14c4449a, 0x9a, 0x44, 0xc4, 0x14);
    WordBytes(0xb3e70d7b, 0x7b, 0x0d, 0xe7, 0xb3);
    WordBytes(0xe7cbdfcd, 0xcd, 0xdf, 0xcb, 0xe7);
  }

  /** Block 1, from which the message is mixed. */
  lemma MessageBlock()
    ensures Block(MESSAGE) == MESSAGE_BLOCK
  {
    hide Load, Sum, Rounds, Serialize, MESSAGE, MESSAGE_BEGIN, MESSAGE_END, MESSAGE_BLOCK;
    MessageLoad();
    MessageRounds();
    RoundsNone(MESSAGE_END);
    MessageBytes();
  }

  const CLAMPED: seq<byte> := [0xee, 0x2d, 0x2b, 0x0c] + [0x78, 0x5f, 0x3c, 0x0f] + [0xfc, 0x39, 0xfe, 0x0e] + [0x80, 0x49, 0xb1, 0x0a]
  const R: seq<byte> := [0xee, 0x2d, 0x2b, 0xcc] + [0x7a, 0x5f, 0x3c, 0x6f] + [0xff, 0x39, 0xfe, 0x4e] + [0x80, 0x49, 0xb1, 0xda]

  const PAD: seq<byte> := [0xc7, 0xa3, 0xf3, 0x81] + [0x36, 0xfa, 0x8f, 0x32] + [0xa7, 0xa7, 0xed, 0x64] + [0x93, 0xaa, 0xd1, 0xf4]

  lemma StartInit()
    ensures Init(KEY, NONCE) == OPENING
  {
    var k := KEY;
    assert Le32(k, 0) == OPENING[4] && Le32(k, 4) == OPENING[5] && Le32(k, 8) == OPENING[6] && Le32(k, 12) == OPENING[7];
    assert Le32(k, 16) == OPENING[8] && Le32(k, 20) == OPENING[9] && Le32(k, 24) == OPENING[10] && Le32(k, 28) == OPENING[11];
    assert U32(NONCE) == OPENING[14] && U32(NONCE / TWO32) == OPENING[15];
  }

  lemma StartFirst()
    ensures First(KEY, NONCE) == MESSAGE
  {
    StartInit();
    hide Init;
  }

  lemma Halves(a: seq<byte>, b: seq<byte>, c: seq<byte>, d: seq<byte>)
    requires |a| == |b| == 16
    ensures (a + b + c + d)[..32] == a + b
  {
  }

  lemma OpeningHalf()
    ensures OPENING_BLOCK[..32] == R + PAD
  {
    Halves(OPENING_BLOCK[..16], OPENING_BLOCK[16..32], OPENING_BLOCK[32..48], OPENING_BLOCK[48..]);
  }

  lemma TagKey()
    ensures PolyKey(KEY, NONCE) == R + PAD
  {
    PolyKeyIs(KEY, NONCE);
    StartInit();
    OpeningBlock();
    OpeningHalf();
    hide Block, PolyKey, Init, KEY, NONCE, OPENING, OPENING_BLOCK, R, PAD;
  }

  lemma FirstByte()
    ensures MESSAGE_BLOCK[0] == 0x13
  {
  }

  lemma Mixed()
    ensures XorByte(0xa4, 0x13) == 0xb7
  {
    hide Xor;
    XorHalves(0xa4, 0x13);
    XorHalves(0x52, 0x09);
    XorHalves(0x29, 0x04);
    XorHalves(0x14, 0x02);
    XorHalves(0x0a, 0x01);
    XorNone(0x05);
  }

  lemma Cipher()
    ensures Mix(First(KEY, NONCE), 0, [0xa4]) == [0xb7]
  {
    hide Block, First, Init, KEY, NONCE, MESSAGE, MESSAGE_BLOCK, XorByte;
    StartFirst();
    MessageBlock();
    SkipNone(MESSAGE);
    FirstByte();
    Mixed();
  }

  lemma ClampedR()
    ensures Poly1305.Clamp(R) == CLAMPED
  {
    Poly1305.ClampBytes(R);
    hide Poly1305.Clamp;
  }

  lemma ClampedValue()
    ensures Le(CLAMPED) == 0xab149800efe39fc0f3c5f780c2b2dee
  {
    Poly1305.Le16(CLAMPED);
    hide Le;
  }

  lemma PadValue()
    ensures Le(PAD) == 0xf4d1aa9364eda7a7328ffa3681f3a3c7
  {
    Poly1305.Le16(PAD);
    hide Le;
  }

  // ---------------------------------------------------------------- the tag

  const ASSOCIATED: seq<byte> := AD + [0, 0, 0, 0] + [0, 0, 0, 0]

  const CIPHERTEXT: seq<byte> := [0xb7, 0, 0, 0] + [0, 0, 0, 0] + [0, 0, 0, 0] + [0, 0, 0, 0]

  const LENGTHS: seq<byte> := [8, 0, 0, 0] + [0, 0, 0, 0] + [1, 0, 0, 0] + [0, 0, 0, 0]

  lemma Authenticated()
    ensures MacData(AD, [0xb7]) == ASSOCIATED + CIPHERTEXT + LENGTHS
  {
    assert LeBytes(8, 8) == [8, 0, 0, 0] + [0, 0, 0, 0] && LeBytes(1, 8) == [1, 0, 0, 0] + [0, 0, 0, 0] by {
      SmallBytes(8);
      SmallBytes(1);
    }
    assert AD + Pad(|AD|) == ASSOCIATED;
    assert [0xb7] + Pad(1) == CIPHERTEXT;
    hide AD, ASSOCIATED, CIPHERTEXT, LeBytes, Pad;
  }

  lemma SmallBytes(x: byte)
    ensures LeBytes(x, 8) == [x, 0, 0, 0] + [0, 0, 0, 0]
  {
    LeBytesLe([x, 0, 0, 0] + [0, 0, 0, 0]);
    LeConcat([x], [0, 0, 0] + [0, 0, 0, 0]);
  }

  /** One block of sixteen bytes, with the quotient by P given. */
  lemma StepIs(r: nat, acc: nat, block: seq<byte>, value: nat, q: nat, next: nat)
    requires |block| == 16 && Le(block) == value
    requires (acc + (value + TWO128)) * r == Poly1305.P * q + next && next < Poly1305.P
    ensures Poly1305.Step(r, acc, block) == next
  {
    assert Pow256(16) == TWO128 by { PowSixteen(); }
    ModUnique((acc + (value + TWO128)) * r, Poly1305.P, q, next);
    hide Le, Pow256;
  }

  lemma PowSixteen()
    ensures Pow256(16) == TWO128
  {
    assert Pow256(4) == TWO32;
    assert Pow256(8) == TWO32 * Pow256(4);
    assert Pow256(12) == TWO32 * Pow256(8);
  }

  lemma BlockValues()
    ensures Le(ASSOCIATED) == 0x405a39883fade26a && Le(CIPHERTEXT) == 0xb7 && Le(LENGTHS) == 0x1_0000_0000_0000_0008
  {
    Poly1305.Le16(ASSOCIATED);
    Poly1305.Le16(CIPHERTEXT);
    Poly1305.Le16(LENGTHS);
    hide Le;
  }

  const KEYED: nat := 0xab149800efe39fc0f3c5f780c2b2dee

  lemma Sizes()
    ensures |R| == |PAD| == |ASSOCIATED| == |CIPHERTEXT| == |LENGTHS| == 16
  {
  }

  lemma AfterAssociated()
    ensures Poly1305.Step(KEYED, 0, ASSOCIATED) == 0x225482a990adbfcbd7aa4549699b1f371
  {
    hide Poly1305.Step, Le, ASSOCIATED;
    Sizes();
    BlockValues();
    StepIs(KEYED, 0, ASSOCIATED, 0x405a39883fade26a, 0x2ac526003bf8e7f047b1da4c4495d61, 0x225482a990adbfcbd7aa4549699b1f371);
  }

  lemma AfterCiphertext()
    ensures Poly1305.Step(KEYED, 0x225482a990adbfcbd7aa4549699b1f371, CIPHERTEXT) == 0x359066ee15d81ed73b1bb4601af88e8d7
  {
    hide Poly1305.Step, Le, CIPHERTEXT;
    Sizes();
    BlockValues();
    StepIs(KEYED, 0x225482a990adbfcbd7aa4549699b1f371, CIPHERTEXT, 0xb7,
           0x8689ff0f5686c3af9702460ed1760bb, 0x359066ee15d81ed73b1bb4601af88e8d7);
  }

  lemma AfterLengths()
    ensures Poly1305.Step(KEYED, 0x359066ee15d81ed73b1bb4601af88e8d7, LENGTHS) == 0x194db040dcca703e73b228a79d7800c54
  {
    hide Poly1305.Step, Le, LENGTHS;
    Sizes();
    BlockValues();
    StepIs(KEYED, 0x359066ee15d81ed73b1bb4601af88e8d7, LENGTHS, 0x1_0000_0000_0000_0008,
           0xb9f4355c45f86404d1211b8cd90ab9a, 0x194db040dcca703e73b228a79d7800c54);
  }

  lemma Evaluated()
    ensures Poly1305.Eval(KEYED, 0, ASSOCIATED + CIPHERTEXT + LENGTHS) == 0x194db040dcca703e73b228a79d7800c54
  {
    hide Poly1305.Eval, Poly1305.Step, ASSOCIATED, CIPHERTEXT, LENGTHS, KEYED;
    Sizes();
    AfterAssociated();
    AfterCiphertext();
    AfterLengths();
    ThreeBlocks(KEYED, ASSOCIATED, CIPHERTEXT, LENGTHS);
  }

  lemma ThreeBlocks(r: nat, a: seq<byte>, b: seq<byte>, c: seq<byte>)
    requires |a| == 16 && |b| == 16 && |c| == 16
    ensures Poly1305.Eval(r, 0, a + b + c) == Poly1305.Step(r, Poly1305.Step(r, Poly1305.Step(r, 0, a), b), c)
  {
    Poly1305.EvalConcat(r, 0, a + b, c);
    Poly1305.EvalConcat(r, 0, a, b);
    OneBlock(r, 0, a);
    OneBlock(r, Poly1305.Step(r, 0, a), b);
    OneBlock(r, Poly1305.Step(r, Poly1305.Step(r, 0, a), b), c);
    hide Poly1305.Eval, Poly1305.Step;
  }

  lemma OneBlock(r: nat, acc: nat, a: seq<byte>)
    requires |a| == 16
    ensures Poly1305.Eval(r, acc, a) == Poly1305.Step(r, acc, a)
  {
    assert a[..16] == a && a[16..] == [];
    hide Poly1305.Step;
  }

  const TAG: seq<byte> := [0x1b, 0xb0, 0x73, 0x59] + [0xb0, 0x84, 0xb2, 0x6d] + [0x8e, 0xab, 0x94, 0x31] + [0xa1, 0xae, 0xac, 0x89]

  lemma TagBytes()
    ensures LeBytes((0x194db040dcca703e73b228a79d7800c54 + 0xf4d1aa9364eda7a7328ffa3681f3a3c7) % TWO128, 16) == TAG
  {
    Poly1305.Le16(TAG);
    LeBytesLe(TAG);
    hide Le, LeBytes;
  }

  lemma TagIs()
    ensures Poly1305.Tag(R + PAD, ASSOCIATED + CIPHERTEXT + LENGTHS) == TAG
  {
    hide Poly1305.Eval, Poly1305.Clamp, Le, LeBytes, R, PAD, CLAMPED, ASSOCIATED, CIPHERTEXT, LENGTHS, TAG, TWO128;
    Sizes();
    assert (R + PAD)[..16] == R && (R + PAD)[16..] == PAD;
    ClampedR();
    ClampedValue();
    PadValue();
    Evaluated();
    TagBytes();
  }

  /** One byte with eight bytes of associated data. */
  lemma SealedAs()
    ensures Seal(KEY, NONCE, AD, [0xa4])
         == [0xb7] + ([0x1b, 0xb0, 0x73, 0x59] + [0xb0, 0x84, 0xb2, 0x6d] + [0x8e, 0xab, 0x94, 0x31] + [0xa1, 0xae, 0xac, 0x89])
  {
    hide KEY, NONCE, AD, PolyKey, First, Mix, MacData, Poly1305.Tag, R, PAD, ASSOCIATED, CIPHERTEXT, LENGTHS;
    TagKey();
    Cipher();
    Authenticated();
    TagIs();
  }
}
