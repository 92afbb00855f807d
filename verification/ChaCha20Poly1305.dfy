/** The AEAD of driver/crypto.c over one buffer and over buffers scattered in an MDL chain (section 2.8
    of RFC 8439, with a 64-bit nonce). */
module ChaCha20Poly1305 {
  import opened Words
  import opened ChaCha20
  import Poly1305
  import Poly1305Ctx

  const POLY1305_MAC_SIZE: nat := 16

  // ---------------------------------------------------------------- the definition

  function Zeros(n: nat): (z: seq<byte>)
    ensures |z| == n
  {
    seq(n, i => 0)
  }

  /** (0x10 - Len) & 0xf zeros: up to the next multiple of 16. */
  function Pad(n: nat): (z: seq<byte>)
    ensures |z| < 16 && (n + |z|) % 16 == 0
    ensures forall i :: 0 <= i < |z| ==> z[i] == 0
  {
    Zeros((16 - n % 16) % 16)
  }

  function MacData(ad: seq<byte>, c: seq<byte>): seq<byte> {
    ad + Pad(|ad|) + c + Pad(|c|) + (LeBytes(|ad|, 8) + LeBytes(|c|, 8))
  }

  /** The first half of block 0 is the key of the tag. */
  function PolyKey(key: seq<byte>, nonce: nat): (k: seq<byte>)
    requires |key| == 32
    ensures |k| == 32
  {
    Mix(Init(key, nonce), 0, Zeros(32))
  }

  /** The message stream starts at block 1. */
  function First(key: seq<byte>, nonce: nat): (s: State)
    requires |key| == 32
  {
    Skip(Init(key, nonce), 1)
  }

  function Seal(key: seq<byte>, nonce: nat, ad: seq<byte>, msg: seq<byte>): seq<byte>
    requires |key| == 32
  {
    var c := Mix(First(key, nonce), 0, msg);
    c + Poly1305.Tag(PolyKey(key, nonce), MacData(ad, c))
  }

  datatype Option<+T> = None | Some(value: T)

  function Open(key: seq<byte>, nonce: nat, ad: seq<byte>, src: seq<byte>): Option<seq<byte>>
    requires |key| == 32
  {
    if |src| < POLY1305_MAC_SIZE then None
    else
      var c := src[..|src| - POLY1305_MAC_SIZE];
      if Poly1305.Tag(PolyKey(key, nonce), MacData(ad, c)) == src[|src| - POLY1305_MAC_SIZE..]
      then Some(Mix(First(key, nonce), 0, c)) else None
  }

  /** What was sealed opens to what it was. */
  lemma OpenSeal(key: seq<byte>, nonce: nat, ad: seq<byte>, msg: seq<byte>)
    requires |key| == 32
    ensures Open(key, nonce, ad, Seal(key, nonce, ad, msg)) == Some(msg)
  {
    var s := First(key, nonce);
    var c := Mix(s, 0, msg);
    var t := Poly1305.Tag(PolyKey(key, nonce), MacData(ad, c));
    assert (c + t)[..|c + t| - 16] == c && (c + t)[|c + t| - 16..] == t;
    MixMix(s, 0, msg);
    hide Mix, Poly1305.Tag, PolyKey, First;
  }

  /** Nothing opens but what was sealed with this key and nonce over this data, and that to what it was. */
  lemma OpenIff(key: seq<byte>, nonce: nat, ad: seq<byte>, src: seq<byte>, msg: seq<byte>)
    requires |key| == 32
    ensures Open(key, nonce, ad, src) == Some(msg) <==> src == Seal(key, nonce, ad, msg)
  {
    hide Open, Seal;
    OpenSeal(key, nonce, ad, msg);
    if Open(key, nonce, ad, src) == Some(msg) { SealOpen(key, nonce, ad, src); }
  }

  lemma SealOpen(key: seq<byte>, nonce: nat, ad: seq<byte>, src: seq<byte>)
    requires |key| == 32 && Open(key, nonce, ad, src).Some?
    ensures src == Seal(key, nonce, ad, Open(key, nonce, ad, src).value)
  {
    hide Mix, Poly1305.Tag, PolyKey, First, MacData;
    MixMix(First(key, nonce), 0, src[..|src| - 16]);
    assert src == src[..|src| - 16] + src[|src| - 16..];
  }

  // ---------------------------------------------------------------- which blocks are used

  /** The key of the tag is the first half of block 0. */
  lemma PolyKeyIs(key: seq<byte>, nonce: nat)
    requires |key| == 32
    ensures PolyKey(key, nonce) == Block(Init(key, nonce))[..32]
  {
    hide Block, Init, XorByte;
    var s := Init(key, nonce);
    SkipNone(s);
    forall i | 0 <= i < 32 ensures PolyKey(key, nonce)[i] == Block(s)[i] {
      XorZero(Block(s)[i]);
    }
  }

  lemma XorZero(b: byte)
    ensures XorByte(0, b) == b
  {
  }

  /** Byte i of the message is mixed from the block after block i / 64, whose counter is zero, as it is for
      block 0, exactly if the 32 bits of the counter have wrapped: never in the first 64 * (2^32 - 1) bytes. */
  lemma MessageBlocks(key: seq<byte>, nonce: nat, ad: seq<byte>, msg: seq<byte>, i: nat)
    requires |key| == 32 && i < |msg|
    ensures var s := Skip(Init(key, nonce), 1 + i / 64);
      && Seal(key, nonce, ad, msg)[i] == XorByte(msg[i], Block(s)[i % 64])
      && Init(key, nonce)[12] == 0
      && s[12] == U32(1 + i / 64)
      && (i < 64 * (TWO32 - 1) ==> s[12] != 0)
  {
    hide Block, XorByte, PolyKey, MacData, Poly1305.Tag;
    SkipSkip(Init(key, nonce), 1, i / 64);
    assert Init(key, nonce)[12] == 0;
    hide Init;
  }

  // ---------------------------------------------------------------- one buffer

  /** The key block and the additional data. */
  method Begin(ad: seq<byte>, nonce: nat, key: seq<byte>) returns (chacha: ChaCha20Ctx, poly: Poly1305Ctx.Poly1305Ctx)
    requires |key| == 32
    ensures fresh(chacha) && fresh(poly) && poly.Valid()
    ensures chacha.state == First(key, nonce) && poly.key == PolyKey(key, nonce) && poly.fed == ad + Pad(|ad|)
  {
    hide Mix, Skip;
    chacha := new ChaCha20Ctx(key, nonce);
    var block0 := chacha.Crypt(Zeros(32));
    assert Blocks(32) == 1;
    poly := new Poly1305Ctx.Poly1305Ctx(block0);
    poly.Update(ad);
    poly.Update(Pad(|ad|));
    assert [] + ad + Pad(|ad|) == ad + Pad(|ad|);
  }

  /** The padding and the lengths, then the tag. */
  method Finish(poly: Poly1305Ctx.Poly1305Ctx, ghost ad: seq<byte>, adLen: nat, ghost c: seq<byte>, cLen: nat) returns (mac: seq<byte>)
    requires poly.Valid() && poly.fed == ad + Pad(|ad|) + c && adLen == |ad| && cLen == |c|
    modifies poly
    ensures |poly.key| == 32 && poly.key == old(poly.key) && mac == Poly1305.Tag(poly.key, MacData(ad, c))
  {
    poly.Update(Pad(cLen));
    poly.Update(LeBytes(adLen, 8) + LeBytes(cLen, 8));
    mac := poly.Final();
  }

  method Encrypt(src: seq<byte>, ad: seq<byte>, nonce: nat, key: seq<byte>) returns (dst: seq<byte>)
    requires |key| == 32
    ensures dst == Seal(key, nonce, ad, src)
  {
    hide Mix, PolyKey, First, Poly1305.Tag, MacData;
    var chacha, poly := Begin(ad, nonce, key);
    dst := chacha.Crypt(src);
    poly.Update(dst);
    var mac := Finish(poly, ad, |ad|, dst, |src|);
    dst := dst + mac;
  }

  method Decrypt(src: seq<byte>, ad: seq<byte>, nonce: nat, key: seq<byte>) returns (ok: bool, dst: seq<byte>)
    requires |key| == 32
    ensures (if ok then Some(dst) else None) == Open(key, nonce, ad, src)
  {
    hide Mix, PolyKey, First, Poly1305.Tag, MacData;
    dst := [];
    if |src| < POLY1305_MAC_SIZE { return false, []; }
    var chacha, poly := Begin(ad, nonce, key);
    var c := src[..|src| - POLY1305_MAC_SIZE];
    poly.Update(c);
    var mac := Finish(poly, ad, |ad|, c, |c|);
    ok := mac == src[|src| - POLY1305_MAC_SIZE..];
    if ok { dst := chacha.Crypt(c); }
  }

  // ---------------------------------------------------------------- a piece of a scattered message

  /** The context after 64 * n + from bytes; a block begun is kept in `stream`. */
  ghost predicate Synced(state: State, s: State, n: nat, from: nat, stream: seq<byte>) {
    && from < CHACHA20_BLOCK_SIZE
    && state == Skip(s, if from == 0 then n else n + 1)
    && (from != 0 ==> stream == Block(Skip(s, n)))
  }

  lemma MixSkip(s: State, n: nat, data: seq<byte>)
    ensures Mix(Skip(s, n), 0, data) == Mix(s, CHACHA20_BLOCK_SIZE * n, data)
  {
    hide Stream, XorByte;
    forall i | 0 <= i < |data| ensures Mix(Skip(s, n), 0, data)[i] == Mix(s, CHACHA20_BLOCK_SIZE * n, data)[i] {
      StreamSkip(s, n, i);
      assert 0 + i == i;
    }
  }

  lemma StreamSkip(s: State, n: nat, i: nat)
    ensures Stream(Skip(s, n), i) == Stream(s, CHACHA20_BLOCK_SIZE * n + i)
  {
    hide Block;
    var q, j := i / CHACHA20_BLOCK_SIZE, i % CHACHA20_BLOCK_SIZE;
    SkipSkip(s, n, q);
    assert CHACHA20_BLOCK_SIZE * n + i == CHACHA20_BLOCK_SIZE * (n + q) + j;
    StreamBlock(s, n + q, j);
  }

  /** Position `from` in block n. */
  function Pos(n: nat, from: nat): nat {
    CHACHA20_BLOCK_SIZE * n + from
  }

  method MixWhole(chacha: ChaCha20Ctx, data: seq<byte>, ghost s: State, ghost n: nat, ghost k: nat) returns (out: seq<byte>)
    requires chacha.state == Skip(s, n) && |data| == CHACHA20_BLOCK_SIZE * k
    modifies chacha
    ensures out == Mix(s, Pos(n, 0), data) && chacha.state == Skip(s, n + k)
  {
    hide Mix, Block;
    MixSkip(s, n, data);
    SkipSkip(s, n, k);
    assert Blocks(|data|) == k;
    hide Skip;
    out := chacha.Crypt(data);
  }

  method MixTail(chacha: ChaCha20Ctx, data: seq<byte>, ghost s: State, ghost n: nat) returns (out: seq<byte>, stream: seq<byte>)
    requires chacha.state == Skip(s, n) && |data| < CHACHA20_BLOCK_SIZE
    modifies chacha
    ensures out == Mix(s, Pos(n, 0), data) && chacha.state == Skip(s, n + 1) && stream == Block(Skip(s, n))
  {
    hide Mix, Block;
    XorBlock(s, n, 0, data);
    SkipSkip(s, n, 1);
    hide Skip;
    stream := chacha.NextBlock();
    assert stream[0..] == stream;
    out := XorCpy(data, stream);
  }

  /** Xor of the next bytes: what is left of a block, whole blocks, the start of a block. */
  method MixPiece(chacha: ChaCha20Ctx, stream: seq<byte>, leftover: nat, buf: seq<byte>, ghost s: State, ghost n: nat, ghost from: nat)
    returns (out: seq<byte>, stream': seq<byte>, leftover': nat, ghost n': nat, ghost from': nat)
    requires Synced(chacha.state, s, n, from, stream) && leftover == Leftover(from)
    modifies chacha
    ensures out == Mix(s, Pos(n, from), buf)
    ensures Synced(chacha.state, s, n', from', stream') && leftover' == Leftover(from')
    ensures from' < CHACHA20_BLOCK_SIZE && Pos(n', from') == Pos(n, from) + |buf|
  {
    hide Block, Skip, Mix;
    var l := if |buf| < leftover then |buf| else leftover;
    var head, rest := buf[..l], buf[l..];
    assert buf == head + rest;
    MixConcat(s, Pos(n, from), Pos(n, from) + l, head, rest);
    var first := [];
    stream', leftover', n', from' := stream, leftover, n, from;
    if leftover != 0 {
      XorBlock(s, n, from, head);
      first := XorCpy(head, stream[CHACHA20_BLOCK_SIZE - leftover..]);
      leftover' := leftover - l;
      from' := from + l;
      if from' == CHACHA20_BLOCK_SIZE { n', from' := n + 1, 0; }
    } else {
      MixNone(s, Pos(n, from));
    }
    assert first == Mix(s, Pos(n, from), head);
    if |rest| == 0 {
      MixNone(s, Pos(n, from) + l);
      return first, stream', leftover', n', from';
    }
    out, stream', leftover', n', from' := MixOn(chacha, stream', rest, s, n');
    out := first + out;
  }

  /** The same, at the start of a block. */
  method MixOn(chacha: ChaCha20Ctx, stream: seq<byte>, rest: seq<byte>, ghost s: State, ghost n: nat)
    returns (out: seq<byte>, stream': seq<byte>, leftover': nat, ghost n': nat, ghost from': nat)
    requires chacha.state == Skip(s, n)
    modifies chacha
    ensures out == Mix(s, Pos(n, 0), rest)
    ensures Synced(chacha.state, s, n', from', stream') && leftover' == Leftover(from')
    ensures Pos(n', from') == Pos(n, 0) + |rest|
  {
    hide Block, Skip, Mix;
    var l := |rest| - |rest| % CHACHA20_BLOCK_SIZE;
    ghost var k := |rest| / CHACHA20_BLOCK_SIZE;
    var whole, tail := rest[..l], rest[l..];
    assert rest == whole + tail;
    MixConcat(s, Pos(n, 0), Pos(n + k, 0), whole, tail);
    MixNone(s, Pos(n, 0));
    MixNone(s, Pos(n + k, 0));
    out, stream', n', from' := [], stream, n + k, |tail|;
    if l >= CHACHA20_BLOCK_SIZE { out := MixWhole(chacha, whole, s, n, k); }
    if |tail| > 0 {
      var last;
      last, stream' := MixTail(chacha, tail, s, n + k);
      out := out + last;
    }
    leftover' := if |tail| == 0 then 0 else CHACHA20_BLOCK_SIZE - |tail|;
  }

  /** Bytes left of a block of which `from` have been used. */
  function Leftover(from: nat): nat
    requires from <= CHACHA20_BLOCK_SIZE
  {
    if from == 0 then 0 else CHACHA20_BLOCK_SIZE - from
  }

  // ---------------------------------------------------------------- scattered messages

  /** The buffers of an MDL chain, in order; some may be empty. */
  type Chain = seq<seq<byte>>

  function Flat(chain: Chain): seq<byte> {
    if chain == [] then [] else chain[0] + Flat(chain[1..])
  }

  /** What follows position `off` of buffer i. */
  function From(chain: Chain, i: nat, off: nat): seq<byte>
    requires i < |chain| ==> off <= |chain[i]|
    requires i <= |chain|
  {
    if i == |chain| then [] else chain[i][off..] + Flat(chain[i + 1..])
  }

  lemma FlatFrom(chain: Chain, i: nat)
    requires i <= |chain|
    ensures Flat(chain[i..]) == From(chain, i, 0)
  {
    if i < |chain| { assert chain[i..][1..] == chain[i + 1..] && chain[i][0..] == chain[i]; }
  }

  /** len bytes further on in the same buffer, and at its end in the next. */
  lemma FromMoves(chain: Chain, i: nat, off: nat, len: nat)
    requires i < |chain| && off + len <= |chain[i]|
    ensures From(chain, i, off) == chain[i][off..off + len] + From(chain, i, off + len)
    ensures off + len == |chain[i]| ==> From(chain, i, off + len) == From(chain, i + 1, 0)
  {
    FlatFrom(chain, i + 1);
    hide Flat;
    var a, b, c := chain[i][off..off + len], chain[i][off + len..], Flat(chain[i + 1..]);
    assert chain[i][off..] == a + b;
    assert (a + b) + c == a + (b + c);
    if off + len == |chain[i]| { assert b == []; assert b + c == c; }
  }

  /** The walk to the buffer that holds the start; the start must be inside the chain. */
  method Locate(chain: Chain, offset: nat) returns (i: nat, off: nat)
    requires offset < |Flat(chain)|
    ensures i < |chain| && off < |chain[i]| && From(chain, i, off) == Flat(chain)[offset..]
  {
    i, off := 0, offset;
    FlatFrom(chain, 0);
    assert chain[0..] == chain;
    assert From(chain, 0, 0)[off..] == Flat(chain)[offset..];
    while off >= |chain[i]|
      invariant i < |chain| && off < |From(chain, i, 0)| && From(chain, i, 0)[off..] == Flat(chain)[offset..]
      decreases |chain| - i
    {
      FromMoves(chain, i, 0, |chain[i]|);
      assert chain[i][0..|chain[i]|] == chain[i];
      assert (chain[i] + From(chain, i + 1, 0))[off..] == From(chain, i + 1, 0)[off - |chain[i]|..];
      off := off - |chain[i]|;
      i := i + 1;
    }
    FromMoves(chain, i, 0, off);
  }

  /** How far a scattered message has been worked off. */
  ghost predicate Walked(chain: Chain, i: nat, off: nat, data: seq<byte>, done: nat) {
    && i <= |chain| && (i < |chain| ==> off <= |chain[i]|) && done <= |data|
    && From(chain, i, off) == data[done..]
  }

  /** The next buffer's share of the message. */
  lemma WalkOn(chain: Chain, i: nat, off: nat, data: seq<byte>, done: nat, remaining: nat, off': nat, done': nat)
    requires Walked(chain, i, off, data, done) && i < |chain| && off <= off' && off' - off == done' - done
    requires off' == if |chain[i]| - off < remaining then |chain[i]| else off + remaining
    ensures done' <= |data| && chain[i][off..off'] == data[done..done']
    ensures Walked(chain, i, off', data, done')
    ensures done' - done < remaining ==> Walked(chain, i + 1, 0, data, done')
  {
    var len := off' - off;
    FromMoves(chain, i, off, len);
    var a, rest, d := chain[i][off..off'], From(chain, i, off'), data[done..];
    hide From;
    assert d == a + rest && |d| == |data| - done;
    SplitAt(data, done, done', a, rest);
  }

  lemma SplitAt(data: seq<byte>, done: nat, done': nat, a: seq<byte>, rest: seq<byte>)
    requires done <= done' && |a| == done' - done && done <= |data| && data[done..] == a + rest
    ensures done' <= |data| && data[done..done'] == a && data[done'..] == rest
  {
    assert |data[done..]| == |data| - done;
    assert data[done..][..|a|] == data[done..done'] && data[done..][|a|..] == data[done'..];
    assert (a + rest)[..|a|] == a && (a + rest)[|a|..] == rest;
  }

  /** At the end of the chain the message is used up. */
  lemma WalkedOut(chain: Chain, off: nat, data: seq<byte>, done: nat)
    requires Walked(chain, |chain|, off, data, done)
    ensures done == |data|
  {
    assert |data[done..]| == |data| - done;
  }

  /** The context after `done` bytes. */
  ghost predicate InStep(state: State, s: State, done: nat, stream: seq<byte>, leftover: nat) {
    && Synced(state, s, done / CHACHA20_BLOCK_SIZE, done % CHACHA20_BLOCK_SIZE, stream)
    && leftover == Leftover(done % CHACHA20_BLOCK_SIZE)
  }

  /** One buffer of the chain: its share of the message is mixed, and the walk gets on. */
  method MixBuffer(chacha: ChaCha20Ctx, stream: seq<byte>, leftover: nat, chain: Chain, i: nat, off: nat, len: nat, remaining: nat,
                   ghost s: State, ghost data: seq<byte>, ghost done: nat, ghost done': nat)
    returns (out: seq<byte>, stream': seq<byte>, leftover': nat)
    requires i < |chain| && Walked(chain, i, off, data, done)
    requires len == (if |chain[i]| - off < remaining then |chain[i]| - off else remaining) && done' == done + len
    requires InStep(chacha.state, s, done, stream, leftover)
    modifies chacha
    ensures done' <= |data| && off + len <= |chain[i]| && chain[i][off..off + len] == data[done..done']
    ensures Walked(chain, i, off + len, data, done')
    ensures len < remaining ==> Walked(chain, i + 1, 0, data, done')
    ensures |out| == len && Mix(s, 0, data[..done']) == Mix(s, 0, data[..done]) + out
    ensures InStep(chacha.state, s, done', stream', leftover')
  {
    hide Mix, Skip, Block, Flat, From, Leftover, Synced;
    WalkOn(chain, i, off, data, done, remaining, off + len, done');
    MixGrows(s, data, done, done');
    hide Walked;
    ghost var n': nat, from': nat;
    ghost var n: nat, from: nat := done / CHACHA20_BLOCK_SIZE, done % CHACHA20_BLOCK_SIZE;
    assert Pos(n, from) == done;
    out, stream', leftover', n', from' := MixPiece(chacha, stream, leftover, chain[i][off..off + len], s, n, from);
    assert n' == done' / CHACHA20_BLOCK_SIZE && from' == done' % CHACHA20_BLOCK_SIZE;
  }

  /** The loop of EncryptMdl. */
  method EncryptChain(chacha: ChaCha20Ctx, poly: Poly1305Ctx.Poly1305Ctx, chain: Chain, start: nat, startOff: nat, srcLen: nat,
                      ghost s: State, ghost data: seq<byte>)
    returns (ok: bool, dst: seq<byte>)
    requires poly.Valid() && chacha.state == s && InStep(s, s, 0, [], 0)
    requires start < |chain| && Walked(chain, start, startOff, data, 0)
    modifies chacha, poly
    ensures poly.Valid() && poly.key == old(poly.key) && poly.fed == old(poly.fed) + dst
    ensures ok <==> srcLen <= |data|
    ensures ok ==> dst == Mix(s, 0, data[..srcLen])
  {
    hide *;
    var i: nat, off: nat := start, startOff;
    ghost var done: nat := 0;
    var stream: seq<byte>, leftover: nat, remaining: nat := [], 0, srcLen;
    dst := [];
    MixNone(s, 0);
    assert data[..0] == [];
    Reassociate(poly.fed, [], []);
    while remaining != 0
      invariant done + remaining == srcLen && Walked(chain, i, off, data, done) && InStep(chacha.state, s, done, stream, leftover)
      invariant i <= |chain| && done <= |data| && dst == Mix(s, 0, data[..done])
      invariant poly.Valid() && poly.key == old(poly.key) && poly.fed == old(poly.fed) + dst
      decreases |chain| - i
    {
      if i == |chain| {
        WalkedOut(chain, off, data, done);
        return false, dst;
      }
      WalkedIn(chain, i, off, data, done);
      var len: nat := if |chain[i]| - off < remaining then |chain[i]| - off else remaining;
      var out;
      out, stream, leftover := MixBuffer(chacha, stream, leftover, chain, i, off, len, remaining, s, data, done, done + len);
      poly.Update(out);
      Reassociate(old(poly.fed), dst, out);
      dst := dst + out;
      remaining, done := remaining - len, done + len;
      if remaining == 0 { break; }
      i, off := i + 1, 0;
    }
    return true, dst;
  }

  method EncryptMdl(chain: Chain, srcLen: nat, srcOffset: nat, ad: seq<byte>, nonce: nat, key: seq<byte>)
    returns (ok: bool, dst: seq<byte>)
    requires |key| == 32 && srcOffset < |Flat(chain)|
    ensures ok <==> srcOffset + srcLen <= |Flat(chain)|
    ensures ok ==> dst == Seal(key, nonce, ad, Flat(chain)[srcOffset..srcOffset + srcLen])
  {
    ghost var data := Flat(chain)[srcOffset..];
    SliceOf(Flat(chain), srcOffset, srcLen);
    hide *;
    var chacha, poly := Begin(ad, nonce, key);
    var i: nat, off: nat := Locate(chain, srcOffset);
    StartWalked(chain, i, off, data, First(key, nonce), key, nonce);
    ok, dst := EncryptChain(chacha, poly, chain, i, off, srcLen, First(key, nonce), data);
    if !ok { return; }
    var mac := Finish(poly, ad, |ad|, dst, srcLen);
    SealIs(key, nonce, ad, data[..srcLen], dst, mac);
    dst := dst + mac;
  }

  lemma SealIs(key: seq<byte>, nonce: nat, ad: seq<byte>, msg: seq<byte>, c: seq<byte>, mac: seq<byte>)
    requires |key| == 32 && c == Mix(First(key, nonce), 0, msg) && mac == Poly1305.Tag(PolyKey(key, nonce), MacData(ad, c))
    ensures c + mac == Seal(key, nonce, ad, msg)
  {
  }

  lemma SliceOf(flat: seq<byte>, offset: nat, len: nat)
    requires offset < |flat|
    ensures |flat[offset..]| == |flat| - offset
    ensures offset + len <= |flat| ==> flat[offset..][..len] == flat[offset..offset + len]
  {
  }

  lemma StartWalked(chain: Chain, i: nat, off: nat, data: seq<byte>, s: State, key: seq<byte>, nonce: nat)
    requires i < |chain| && off < |chain[i]| && From(chain, i, off) == data && |key| == 32 && s == First(key, nonce)
    ensures Walked(chain, i, off, data, 0) && Mix(s, 0, data[..0]) == []
    ensures InStep(s, s, 0, [], 0)
  {
    assert data[0..] == data && data[..0] == [];
    MixNone(s, 0);
    SkipNone(s);
  }

  lemma WalkedIn(chain: Chain, i: nat, off: nat, data: seq<byte>, done: nat)
    requires Walked(chain, i, off, data, done) && i < |chain|
    ensures off <= |chain[i]|
  {
  }

  lemma Reassociate(a: seq<byte>, b: seq<byte>, c: seq<byte>)
    ensures (a + b) + c == a + (b + c) && a + [] == a
  {
  }

  lemma MixGrows(s: State, data: seq<byte>, done: nat, done': nat)
    requires done <= done' <= |data|
    ensures Mix(s, 0, data[..done']) == Mix(s, 0, data[..done]) + Mix(s, done, data[done..done'])
  {
    hide Mix;
    assert data[..done'] == data[..done] + data[done..done'];
    MixConcat(s, 0, done, data[..done], data[done..done']);
  }

  /** The loop of DecryptMdl; it stops in the buffer where the message ends. */
  method DecryptChain(chacha: ChaCha20Ctx, poly: Poly1305Ctx.Poly1305Ctx, chain: Chain, start: nat, startOff: nat, total: nat,
                      ghost s: State, ghost data: seq<byte>)
    returns (ok: bool, dst: seq<byte>, i: nat, off: nat)
    requires poly.Valid() && chacha.state == s && InStep(s, s, 0, [], 0)
    requires start < |chain| && Walked(chain, start, startOff, data, 0)
    modifies chacha, poly
    ensures poly.Valid() && poly.key == old(poly.key)
    ensures ok <==> total <= |data|
    ensures ok ==> poly.fed == old(poly.fed) + data[..total] && dst == Mix(s, 0, data[..total])
    ensures ok ==> i < |chain| && Walked(chain, i, off, data, total)
  {
    hide *;
    i, off := start, startOff;
    ghost var done: nat := 0;
    var stream: seq<byte>, leftover: nat, remaining: nat := [], 0, total;
    dst := [];
    MixNone(s, 0);
    assert data[..0] == [];
    Reassociate(poly.fed, [], []);
    while true
      invariant done + remaining == total && Walked(chain, i, off, data, done) && InStep(chacha.state, s, done, stream, leftover)
      invariant i <= |chain| && done <= |data| && dst == Mix(s, 0, data[..done])
      invariant i == |chain| ==> remaining > 0
      invariant poly.Valid() && poly.key == old(poly.key) && poly.fed == old(poly.fed) + data[..done]
      decreases |chain| - i
    {
      if i == |chain| {
        WalkedOut(chain, off, data, done);
        return false, dst, i, off;
      }
      WalkedIn(chain, i, off, data, done);
      var len: nat := if |chain[i]| - off < remaining then |chain[i]| - off else remaining;
      var out;
      poly.Update(chain[i][off..off + len]);
      out, stream, leftover := MixBuffer(chacha, stream, leftover, chain, i, off, len, remaining, s, data, done, done + len);
      Extend(old(poly.fed), data, done, done + len);
      dst := dst + out;
      remaining, done := remaining - len, done + len;
      if remaining == 0 {
        off := off + len;
        break;
      }
      i, off := i + 1, 0;
    }
    ok := true;
  }

  lemma Extend(a: seq<byte>, data: seq<byte>, done: nat, done': nat)
    requires done <= done' <= |data|
    ensures a + data[..done] + data[done..done'] == a + data[..done']
  {
  }

  /** MemCopyFromMdl */
  method CopyFromMdl(chain: Chain, start: nat, offset: nat, size: nat) returns (ok: bool, bytes: seq<byte>)
    requires start < |chain| && offset <= |chain[start]|
    ensures ok <==> 0 < |From(chain, start, offset)| && size <= |From(chain, start, offset)|
    ensures ok ==> bytes == From(chain, start, offset)[..size]
  {
    hide From, Flat;
    ghost var all := From(chain, start, offset);
    var i: nat, off: nat := start, offset;
    bytes := [];
    while off >= |chain[i]|
      invariant i < |chain| && off <= |chain[i]| && From(chain, i, off) == all
      decreases |chain| - i
    {
      FromMoves(chain, i, off, |chain[i]| - off);
      assert chain[i][off..] == [];
      off := 0;
      i := i + 1;
      if i == |chain| {
        FromEnd(chain, off);
        return false, bytes;
      }
    }
    FromMoves(chain, i, off, |chain[i]| - off);
    var left: nat := size;
    while left != 0
      invariant i <= |chain| && (i < |chain| ==> off <= |chain[i]|)
      invariant left + |bytes| == size && all == bytes + From(chain, i, off)
      decreases |chain| - i
    {
      if i == |chain| {
        FromEnd(chain, off);
        return false, bytes;
      }
      var cur: nat := if |chain[i]| - off < left then |chain[i]| - off else left;
      FromMoves(chain, i, off, cur);
      Reassociate(bytes, chain[i][off..off + cur], From(chain, i, off + cur));
      bytes := bytes + chain[i][off..off + cur];
      left := left - cur;
      if left == 0 {
        off := off + cur;
        break;
      }
      i, off := i + 1, 0;
    }
    ok := true;
  }

  lemma FromEnd(chain: Chain, off: nat)
    ensures From(chain, |chain|, off) == []
  {
  }

  method DecryptMdl(chain: Chain, srcLen: nat, srcOffset: nat, ad: seq<byte>, nonce: nat, key: seq<byte>)
    returns (ok: bool, dst: seq<byte>)
    requires |key| == 32 && (srcLen >= POLY1305_MAC_SIZE ==> srcOffset < |Flat(chain)|)
    ensures ok <==> srcOffset + srcLen <= |Flat(chain)| && Open(key, nonce, ad, Flat(chain)[srcOffset..srcOffset + srcLen]).Some?
    ensures ok ==> dst == Open(key, nonce, ad, Flat(chain)[srcOffset..srcOffset + srcLen]).value
  {
    hide Flat, Open;
    if srcLen < POLY1305_MAC_SIZE {
      if srcOffset + srcLen <= |Flat(chain)| { TooShort(key, nonce, ad, Flat(chain), srcOffset, srcLen); }
      return false, [];
    }
    ok, dst := DecryptLong(chain, srcLen, srcOffset, ad, nonce, key);
  }

  lemma TooShort(key: seq<byte>, nonce: nat, ad: seq<byte>, flat: seq<byte>, from: nat, len: nat)
    requires |key| == 32 && len < POLY1305_MAC_SIZE && from + len <= |flat|
    ensures Open(key, nonce, ad, flat[from..from + len]).None?
  {
  }

  method DecryptLong(chain: Chain, srcLen: nat, srcOffset: nat, ad: seq<byte>, nonce: nat, key: seq<byte>)
    returns (ok: bool, dst: seq<byte>)
    requires |key| == 32 && srcOffset < |Flat(chain)| && srcLen >= POLY1305_MAC_SIZE
    ensures ok <==> srcOffset + srcLen <= |Flat(chain)| && Open(key, nonce, ad, Flat(chain)[srcOffset..srcOffset + srcLen]).Some?
    ensures ok ==> dst == Open(key, nonce, ad, Flat(chain)[srcOffset..srcOffset + srcLen]).value
  {
    ghost var data := Flat(chain)[srcOffset..];
    SliceOf(Flat(chain), srcOffset, srcLen);
    var total: nat := srcLen - POLY1305_MAC_SIZE;
    assert 0 < |data|;
    hide *;
    var chacha, poly := Begin(ad, nonce, key);
    var i: nat, off: nat := Locate(chain, srcOffset);
    StartWalked(chain, i, off, data, First(key, nonce), key, nonce);
    ok, dst, i, off := DecryptChain(chacha, poly, chain, i, off, total, First(key, nonce), data);
    if !ok { return; }
    var mac := Finish(poly, ad, |ad|, data[..total], total);
    WalkedIn(chain, i, off, data, total);
    var theirs;
    ok, theirs := CopyFromMdl(chain, i, off, POLY1305_MAC_SIZE);
    OpenIs(chain, i, off, data, key, nonce, ad, srcLen, total, dst, mac);
    if !ok { return; }
    ok := mac == theirs;
  }

  /** What the comparison of the tags decides. */
  lemma OpenIs(chain: Chain, i: nat, off: nat, data: seq<byte>, key: seq<byte>, nonce: nat, ad: seq<byte>, srcLen: nat, total: nat, dst: seq<byte>, mac: seq<byte>)
    requires |key| == 32 && srcLen == total + POLY1305_MAC_SIZE && i < |chain| && Walked(chain, i, off, data, total)
    requires dst == Mix(First(key, nonce), 0, data[..total]) && mac == Poly1305.Tag(PolyKey(key, nonce), MacData(ad, data[..total]))
    ensures srcLen <= |data| <==> POLY1305_MAC_SIZE <= |From(chain, i, off)|
    ensures srcLen <= |data| ==>
      Open(key, nonce, ad, data[..srcLen])
      == if mac == From(chain, i, off)[..POLY1305_MAC_SIZE] then Some(dst) else None
  {
    hide Mix, First, Poly1305.Tag, PolyKey, MacData, From;
    assert |data[total..]| == |data| - total;
    if srcLen <= |data| {
      var src := data[..srcLen];
      assert src[..|src| - POLY1305_MAC_SIZE] == data[..total];
      assert src[|src| - POLY1305_MAC_SIZE..] == data[total..][..POLY1305_MAC_SIZE];
    }
  }
}
