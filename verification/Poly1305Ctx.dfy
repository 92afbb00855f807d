/** The buffered interface of Poly1305 in driver/crypto.c: any way of cutting the message into updates
    gives the tag of the whole message. */
module Poly1305Ctx {
  import opened Words
  import opened Poly1305

  /** The accumulator after whole blocks that carry the given bit beyond their end. */
  function EvalBlocks(r: nat, acc: nat, input: seq<byte>, pad: nat): nat
    decreases |input|
  {
    if |input| < BLOCK_SIZE then acc
    else EvalBlocks(r, (acc + (Le(input[..BLOCK_SIZE]) + TWO128 * pad)) * r % P, input[BLOCK_SIZE..], pad)
  }

  lemma Pow16()
    ensures Pow256(16) == TWO128
  {
    assert Pow256(4) == TWO32 && Pow256(8) == TWO32 * Pow256(4) && Pow256(12) == TWO32 * Pow256(8) && Pow256(16) == TWO32 * Pow256(12);
  }

  lemma {:induction false} EvalBlocksIsEval(r: nat, acc: nat, input: seq<byte>)
    requires |input| % BLOCK_SIZE == 0
    ensures EvalBlocks(r, acc, input, 1) == Eval(r, acc, input)
    decreases |input|
  {
    if |input| >= BLOCK_SIZE {
      Pow16();
      assert Step(r, acc, input[..BLOCK_SIZE]) == (acc + (Le(input[..BLOCK_SIZE]) + TWO128 * 1)) * r % P;
      EvalBlocksIsEval(r, Step(r, acc, input[..BLOCK_SIZE]), input[BLOCK_SIZE..]);
    }
  }

  /** The last block, filled up with a one and zeros. */
  function Padded(tail: seq<byte>): seq<byte>
    requires |tail| < BLOCK_SIZE
  {
    tail + [1] + Zeros(BLOCK_SIZE - 1 - |tail|)
  }

  function Zeros(n: nat): (z: seq<byte>)
    ensures |z| == n && forall i :: 0 <= i < n ==> z[i] == 0
  {
    seq(n, i => 0)
  }

  lemma {:induction false} LeZeros(n: nat)
    ensures Le(Zeros(n)) == 0
  {
    if n > 0 {
      assert Zeros(n)[1..] == Zeros(n - 1);
      LeZeros(n - 1);
    }
  }

  lemma PaddedVal(tail: seq<byte>)
    requires |tail| < BLOCK_SIZE
    ensures |Padded(tail)| == BLOCK_SIZE && Le(Padded(tail)) == BlockVal(tail)
  {
    var n := BLOCK_SIZE - 1 - |tail|;
    LeZeros(n);
    assert ([1] + Zeros(n))[1..] == Zeros(n);
    assert Le([1] + Zeros(n)) == 1;
    LeConcat(tail, [1] + Zeros(n));
    assert Padded(tail) == tail + ([1] + Zeros(n));
  }

  class Poly1305Ctx {
    var h: Limbs
    var r: Limbs
    var s: (nat, nat, nat, nat)
    var nonce: (nat, nat, nat, nat)
    var data: seq<byte>
    var num: nat
    ghost var key: seq<byte>
    ghost var fed: seq<byte>

    ghost predicate Valid()
      reads this
    {
      && |key| == 32 && |data| == BLOCK_SIZE && num < BLOCK_SIZE && num <= |fed|
      && Keyed(key, r, s, nonce) && Reduced(h)
      && Whole(fed[..|fed| - num]) && data[..num] == fed[|fed| - num..]
      && Val(h) % P == Eval(Val(r), 0, fed[..|fed| - num])
    }

    /** Poly1305Init and Poly1305InitCore. */
    constructor (k: seq<byte>)
      requires |k| == 32
      ensures Valid() && key == k && fed == []
    {
      nonce := (Le32(k, 16), Le32(k, 20), Le32(k, 24), Le32(k, 28));
      r := InitR(k[..16]);
      s := Times5(InitR(k[..16]));
      h := Limbs(0, 0, 0, 0, 0);
      data := Zeros(BLOCK_SIZE);
      num := 0;
      key, fed := k, [];
      new;
      InitKeyed(k);
    }

    /** Whole blocks of input, each with the bit beyond its end set or not. */
    method BlocksCore(input: seq<byte>, pad: nat)
      requires pad <= 1 && Clamped(r) && s == Times5(r) && Reduced(h)
      modifies this`h
      ensures Reduced(h)
      ensures Val(h) % P == EvalBlocks(Val(r), old(Val(h)) % P, input, pad)
    {
      var rest := input;
      while |rest| >= BLOCK_SIZE
        invariant Reduced(h)
        invariant EvalBlocks(Val(r), Val(h) % P, rest, pad) == EvalBlocks(Val(r), old(Val(h)) % P, input, pad)
        decreases |rest|
      {
        RoundVal(h, r, rest[..BLOCK_SIZE], pad);
        RoundPrefix(h, r, rest, pad);
        hide Round, Val, Reduced, Clamped, Le;
        h := Round(h, r, s, rest, pad);
        rest := rest[BLOCK_SIZE..];
      }
    }

    /** Everything so far was whole blocks. */
    ghost predicate Between(whole: seq<byte>)
      reads this
    {
      && |key| == 32 && |data| == BLOCK_SIZE && Keyed(key, r, s, nonce) && Reduced(h)
      && Whole(whole) && Val(h) % P == Eval(Val(r), 0, whole)
    }

    method Update(input: seq<byte>)
      requires Valid()
      modifies this
      ensures Valid() && key == old(key) && fed == old(fed) + input
    {
      hide Whole, Keyed, Reduced, Eval, Val, P;
      ghost var whole, tail := fed[..|fed| - num], fed[|fed| - num..];
      assert fed == whole + tail;
      if num == 0 {
        UpdateBlocks(whole, input);
        return;
      }
      var rem := BLOCK_SIZE - num;
      if |input| < rem {
        Stash(whole, tail, input);
        return;
      }
      data := data[..num] + input[..rem];
      WholeBlock(data);
      Feed(whole, data);
      assert whole + data + input[rem..] == fed + input by { assert input == input[..rem] + input[rem..]; }
      UpdateBlocks(whole + data, input[rem..]);
    }

    /** The input does not fill the buffer. */
    method Stash(ghost whole: seq<byte>, ghost tail: seq<byte>, input: seq<byte>)
      requires Between(whole) && num + |input| < BLOCK_SIZE && data[..num] == tail && fed == whole + tail
      modifies `data, `num, `fed
      ensures Valid() && fed == old(fed) + input
    {
      hide Whole, Keyed, Reduced, Eval, Val, P;
      data := data[..num] + input + data[num + |input|..];
      num := num + |input|;
      fed := fed + input;
      assert fed == whole + (tail + input) && |tail + input| == num;
      assert fed[..|fed| - num] == whole && fed[|fed| - num..] == tail + input;
    }

    /** Nothing is in the buffer: the whole blocks are absorbed, and the rest is kept. */
    method UpdateBlocks(ghost whole: seq<byte>, input: seq<byte>)
      requires Between(whole)
      modifies this
      ensures Valid() && key == old(key) && fed == whole + input
    {
      hide Whole, Keyed, Reduced, Eval, Val, P;
      var left := |input| % BLOCK_SIZE;
      var blocks, last := input[..|input| - left], input[|input| - left..];
      WholeRest(input, left);
      FeedSome(whole, blocks);
      data := last + data[left..];
      num := left;
      fed := whole + input;
      assert fed == whole + blocks + last;
      assert fed[..|fed| - num] == whole + blocks && fed[|fed| - num..] == last;
    }

    method FeedSome(ghost whole: seq<byte>, blocks: seq<byte>)
      requires |key| == 32 && Keyed(key, r, s, nonce) && Reduced(h) && Whole(whole) && Whole(blocks)
      requires Val(h) % P == Eval(Val(r), 0, whole)
      modifies this`h
      ensures Reduced(h) && Val(h) % P == Eval(Val(r), 0, whole + blocks) && Whole(whole + blocks)
    {
      hide Keyed, Reduced, Eval, Val, P;
      if |blocks| >= BLOCK_SIZE {
        Feed(whole, blocks);
      } else {
        assert blocks == [] by { assert |blocks| % BLOCK_SIZE == 0; }
        assert whole + blocks == whole;
      }
    }

    /** Whole blocks after whole blocks. */
    method Feed(ghost whole: seq<byte>, input: seq<byte>)
      requires |key| == 32 && Keyed(key, r, s, nonce) && Reduced(h) && Whole(whole) && Whole(input)
      requires Val(h) % P == Eval(Val(r), 0, whole)
      modifies this`h
      ensures Reduced(h) && Val(h) % P == Eval(Val(r), 0, whole + input) && Whole(whole + input)
    {
      WholeConcat(whole, input);
      EvalConcat(Val(r), 0, whole, input);
      EvalBlocksIsEval(Val(r), Val(h) % P, input);
      hide Eval, EvalBlocks, Val, P, Clamped, Reduced;
      BlocksCore(input, 1);
    }

    method Final() returns (mac: seq<byte>)
      requires Valid()
      modifies this
      ensures key == old(key) && |key| == 32 && fed == old(fed) && mac == Tag(key, fed)
    {
      ghost var whole, tail := fed[..|fed| - num], fed[|fed| - num..];
      EvalConcat(Val(r), 0, whole, tail);
      assert fed == whole + tail;
      ghost var acc := Val(h) % P;
      assert Clamped(r) && s == Times5(r);
      hide Eval, EvalBlocks, Val, P, Clamped, Reduced, Keyed, Emit, Tag, Times5;
      if num != 0 {
        FillUp(tail);
        LastBlock(Val(r), acc, tail);
        BlocksCore(data, 0);
      } else {
        EvalNothing(Val(r), acc);
      }
      mac := Emit(h, nonce);
      EmitTag(key, r, s, nonce, h, fed);
    }

    /** A one, then zeros. */
    method FillUp(ghost tail: seq<byte>)
      requires 0 < num < BLOCK_SIZE == |data| && data[..num] == tail
      modifies this`data, this`num
      ensures data == Padded(tail)
    {
      ghost var n := num;
      data := data[num := 1];
      num := num + 1;
      while num < BLOCK_SIZE
        invariant n < num <= BLOCK_SIZE == |data|
        invariant data[..n] == tail && data[n] == 1 && forall i :: n < i < num ==> data[i] == 0
      {
        data := data[num := 0];
        num := num + 1;
      }
    }
  }

  predicate Whole(s: seq<byte>) {
    |s| % BLOCK_SIZE == 0
  }

  lemma WholeConcat(a: seq<byte>, b: seq<byte>)
    requires Whole(a) && Whole(b)
    ensures Whole(a + b)
  {
  }

  lemma WholeBlock(a: seq<byte>)
    requires |a| == BLOCK_SIZE
    ensures Whole(a)
  {
  }

  lemma WholeRest(rest: seq<byte>, left: nat)
    requires left == |rest| % BLOCK_SIZE
    ensures left < BLOCK_SIZE && left <= |rest| && Whole(rest[..|rest| - left])
  {
  }

  lemma EvalNothing(r: nat, acc: nat)
    ensures Eval(r, acc, []) == acc
  {
  }

  /** EmitCore. */
  function Emit(h: Limbs, nonce: (nat, nat, nat, nat)): seq<byte> {
    PutWords(AddWords(Pack(Select(FullCarry(h))), nonce))
  }

  lemma EmitVal(h: Limbs, nonce: (nat, nat, nat, nat))
    requires Reduced(h) && Words4(nonce)
    ensures Emit(h, nonce) == LeBytes((Val(h) % P + Quad(nonce)) % TWO128, 16)
  {
    hide FullCarry, Select, Pack, AddWords, PutWords, Val, Quad, LeBytes, Reduced;
    var f := FullCarry(h);
    FullCarryVal(h);
    SelectVal(f);
    PackVal(Select(f));
    AddWordsVal(Pack(Select(f)), nonce);
    PutWordsVal(AddWords(Pack(Select(f)), nonce));
    AddMod(Val(h) % P, Quad(nonce));
  }

  lemma EmitTag(key: seq<byte>, r: Limbs, s: (nat, nat, nat, nat), nonce: (nat, nat, nat, nat), h: Limbs, fed: seq<byte>)
    requires |key| == 32 && Keyed(key, r, s, nonce) && Reduced(h) && Val(h) % P == Eval(Val(r), 0, fed)
    ensures Emit(h, nonce) == Tag(key, fed)
  {
    hide Eval, Val, P, Reduced, Emit;
    EmitVal(h, nonce);
  }

  lemma AddMod(x: nat, y: nat)
    ensures (x % TWO128 + y) % TWO128 == (x + y) % TWO128
  {
  }

  ghost predicate Keyed(key: seq<byte>, r: Limbs, s: (nat, nat, nat, nat), nonce: (nat, nat, nat, nat))
    requires |key| == 32
  {
    && Clamped(r) && s == Times5(r) && Val(r) == Le(Clamp(key[..16]))
    && Words4(nonce) && Quad(nonce) == Le(key[16..])
  }

  lemma InitKeyed(k: seq<byte>)
    requires |k| == 32
    ensures Keyed(k, InitR(k[..16]), Times5(InitR(k[..16])), (Le32(k, 16), Le32(k, 20), Le32(k, 24), Le32(k, 28)))
    ensures Reduced(Limbs(0, 0, 0, 0, 0)) && Val(Limbs(0, 0, 0, 0, 0)) == 0
  {
    InitVal(k[..16]);
    Le16(k[16..]);
    hide InitR, Clamp, Le;
  }

  lemma RoundPrefix(h: Limbs, r: Limbs, m: seq<byte>, pad: nat)
    requires |m| >= BLOCK_SIZE
    ensures Round(h, r, Times5(r), m, pad) == Round(h, r, Times5(r), m[..BLOCK_SIZE], pad)
  {
    hide Products, Carry, Or;
  }

  lemma LastBlock(r: nat, acc: nat, tail: seq<byte>)
    requires 0 < |tail| < BLOCK_SIZE
    ensures EvalBlocks(r, acc, Padded(tail), 0) == Eval(r, acc, tail)
  {
    PaddedVal(tail);
    var m := Padded(tail);
    assert m[..BLOCK_SIZE] == m && m[BLOCK_SIZE..] == [];
    var x := (acc + (Le(m) + TWO128 * 0)) * r % P;
    assert EvalBlocks(r, x, [], 0) == x;
    assert Eval(r, acc, tail) == Step(r, acc, tail);
  }
}
