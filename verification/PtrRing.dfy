/** PTR_RING of driver/containers.h: producer and consumer each hold their own lock and share only the
    slots of the ring, which the consumer clears late and downwards. */
module PtrRing {
  type Item = x: nat | x > 0 witness 1

  const NULL: nat := 0

  /** What a producer inside Produce, and a consumer inside Consume, has got to. */
  datatype Producing = Outside | Checked(item: Item)

  datatype Consuming = Between | Taken(item: Item) | Clearing(item: Item, at: int)

  /** The history is what was stored and what was taken out, in order, and `lap`, the number stored
      before the lap that the consumer is in. */
  datatype Ring = Ring(
    size: nat, batch: nat, queue: seq<nat>, producer: nat, head: nat, tail: nat,
    p: Producing, c: Consuming,
    produced: seq<Item>, consumed: seq<Item>, lap: nat)

  /** __PtrRingSetSize, for a cache line of so many bytes. */
  function Batch(size: nat, line: nat): nat {
    var batch := line * 2 / 8;
    if batch > size / 2 || batch == 0 then 1 else batch
  }

  function Init(size: nat, line: nat): Ring {
    Ring(size, Batch(size, line), seq(size, _ => NULL), 0, 0, 0, Outside, Between, [], [], 0)
  }

  // ---------------------------------------------------------------- steps

  datatype Step = Check(item: Item) | Store | Peek | Decide | Clear | Finish

  predicate Can(r: Ring, a: Step) {
    match a
    case Check(_) => r.p.Outside?
    case Store => r.p.Checked? && r.producer < |r.queue|
    case Peek => r.c.Between?
    case Decide => r.c.Taken?
    case Clear => r.c.Clearing? && r.c.at >= r.tail && 0 <= r.c.at < |r.queue|
    case Finish => r.c.Clearing? && r.c.at < r.tail
  }

  predicate Refuses(r: Ring) {
    r.size == 0 || r.producer >= |r.queue| || r.queue[r.producer] != NULL
  }

  /** What Peek reads. */
  function Peeked(r: Ring): nat {
    if r.size == 0 || r.head >= |r.queue| then NULL else r.queue[r.head]
  }

  function Next(r: Ring, a: Step): Ring
    requires Can(r, a)
  {
    match a
    case Check(item) => if Refuses(r) then r else r.(p := Checked(item))
    case Store =>
      r.(queue := r.queue[r.producer := r.p.item], produced := r.produced + [r.p.item], p := Outside,
         producer := if r.producer + 1 >= r.size then 0 else r.producer + 1)
    case Peek =>
      if Peeked(r) == NULL then r else r.(c := Taken(Peeked(r)), consumed := r.consumed + [Peeked(r)])
    case Decide =>
      if r.head + 1 - r.tail >= r.batch || r.head + 1 >= r.size then r.(c := Clearing(r.c.item, r.head))
      else r.(head := r.head + 1, c := Between)
    case Clear => r.(queue := r.queue[r.c.at := NULL], c := r.c.(at := r.c.at - 1))
    case Finish =>
      if r.head + 1 >= r.size then r.(head := 0, tail := 0, lap := r.lap + r.size, c := Between)
      else r.(head := r.head + 1, tail := r.head + 1, c := Between)
  }

  // ---------------------------------------------------------------- the invariant

  /** From here on slots hold what they should: once the last store of a clearing is done, the tail has
      moved for the producer although the field has not. */
  function Edge(r: Ring): nat {
    if r.c.Clearing? && r.c.at < r.tail then r.head + 1 else r.tail
  }

  /** The number of the item that slot x is for. */
  function Number(lap: nat, size: nat, edge: nat, x: nat): nat {
    if x >= edge then lap + x else lap + size + x
  }

  /** The slot for item n, at most two laps on. */
  function Place(lap: nat, size: nat, n: nat): int {
    if n < lap + size then n - lap else if n < lap + 2 * size then n - lap - size else n - lap - 2 * size
  }

  /** Slot x has been cleared although the tail has not moved yet. */
  predicate Cleared(r: Ring, x: nat) {
    r.c.Clearing? && r.c.at >= r.tail && r.c.at < x <= r.head
  }

  /** A slot holds its item if that was stored and not cleared, and is empty otherwise. */
  ghost predicate Slots(r: Ring) {
    && |r.queue| == r.size
    && forall x :: 0 <= x < r.size ==>
         r.queue[x] == var n := Number(r.lap, r.size, Edge(r), x);
                       if n < |r.produced| && !Cleared(r, x) then r.produced[n] else NULL
  }

  ghost predicate Indices(r: Ring) {
    && r.batch >= 1
    && (r.size == 0 ==> r.p.Outside? && r.c.Between? && r.produced == [] && r.lap == r.head == r.tail == r.producer == 0)
    && (r.size > 0 ==> r.tail <= r.head < r.size)
    && r.head - r.tail < r.batch
    && (r.c.Clearing? ==> r.tail - 1 <= r.c.at <= r.head)
    && (r.c.Clearing? ==> r.head + 1 - r.tail >= r.batch || r.head + 1 == r.size)
  }

  ghost predicate History(r: Ring) {
    && |r.consumed| == r.lap + r.head + (if r.c.Between? then 0 else 1)
    && |r.consumed| <= |r.produced| <= r.lap + Edge(r) + r.size
    && r.consumed == r.produced[..|r.consumed|]
    && (!r.c.Between? ==> r.c.item == r.consumed[|r.consumed| - 1])
    && (r.size > 0 ==> r.producer == Place(r.lap, r.size, |r.produced|))
    && (r.p.Checked? ==> |r.produced| < r.lap + Edge(r) + r.size)
  }

  ghost predicate Inv(r: Ring) {
    Slots(r) && Indices(r) && History(r)
  }

  lemma InitKeeps(size: nat, line: nat)
    ensures Inv(Init(size, line))
  {
  }

  /** How many slots the consumer is done with but has not cleared. */
  function Stale(r: Ring): int {
    |r.consumed| - (r.lap + Edge(r))
  }

  /** Items stored and not taken out, with the one that is being taken out. */
  function Live(r: Ring): int {
    |r.produced| - (r.lap + r.head)
  }

  /** A producer is refused exactly if live and stale slots fill the ring, and then there are at least
      Size - (Batch - 1) live ones. */
  lemma CheckKeeps(r: Ring, item: Item)
    requires Inv(r) && r.p.Outside?
    ensures Inv(Next(r, Check(item)))
    ensures Refuses(r) <==> |r.produced| - |r.consumed| + Stale(r) == r.size
    ensures Refuses(r) ==> Live(r) >= r.size - (r.batch - 1)
  {
    if r.size > 0 && |r.produced| == r.lap + Edge(r) + r.size {
      assert Number(r.lap, r.size, Edge(r), r.producer) == |r.produced| - r.size;
    }
  }

  lemma StoreKeeps(r: Ring)
    requires Inv(r) && Can(r, Store)
    ensures Inv(Next(r, Store))
  {
    StoreSlots(r);
    hide Slots;
  }

  lemma StoreSlots(r: Ring)
    requires Inv(r) && Can(r, Store)
    ensures Slots(Next(r, Store))
  {
  }

  lemma PeekKeeps(r: Ring)
    requires Inv(r) && r.c.Between?
    ensures Inv(Next(r, Peek)) && (Peeked(r) == NULL <==> r.produced == r.consumed)
  {
  }

  lemma DecideKeeps(r: Ring)
    requires Inv(r) && r.c.Taken?
    ensures Inv(Next(r, Decide))
  {
  }

  lemma ClearKeeps(r: Ring)
    requires Inv(r) && Can(r, Clear)
    ensures Inv(Next(r, Clear))
  {
  }

  lemma FinishKeeps(r: Ring)
    requires Inv(r) && Can(r, Finish)
    ensures Inv(Next(r, Finish))
  {
  }

  lemma StepKeeps(r: Ring, a: Step)
    requires Inv(r) && Can(r, a)
    ensures Inv(Next(r, a))
  {
    match a
    case Check(item) => CheckKeeps(r, item);
    case Store => StoreKeeps(r);
    case Peek => PeekKeeps(r);
    case Decide => DecideKeeps(r);
    case Clear => ClearKeeps(r);
    case Finish => FinishKeeps(r);
    hide Inv, Next;
  }

  // ---------------------------------------------------------------- whole runs

  ghost predicate Lawful(r: Ring, run: seq<Step>)
    decreases run
  {
    run != [] ==> Can(r, run[0]) && Lawful(Next(r, run[0]), run[1..])
  }

  ghost function After(r: Ring, run: seq<Step>): Ring
    requires Lawful(r, run)
    decreases run
  {
    if run == [] then r else After(Next(r, run[0]), run[1..])
  }

  lemma {:induction false} RunKeeps(r: Ring, run: seq<Step>)
    requires Inv(r) && Lawful(r, run)
    ensures Inv(After(r, run))
    decreases run
  {
    hide Inv, Next, Can;
    if run != [] {
      StepKeeps(r, run[0]);
      RunKeeps(Next(r, run[0]), run[1..]);
    }
  }

  /** However producers and consumers interleave, what came out is what went in, in order, without loss
      or repetition; a consumer finds nothing exactly if there is nothing; a producer is refused exactly
      if the ring is full of live and stale slots; the stale slots, and no others, hold items already
      taken out; and neither is ever in the other's way half way through. */
  lemma FirstInFirstOut(size: nat, line: nat, run: seq<Step>)
    requires Lawful(Init(size, line), run)
    ensures var r := After(Init(size, line), run);
      && r.consumed <= r.produced
      && (r.c.Between? ==> (Peeked(r) == NULL <==> r.consumed == r.produced))
      && (r.c.Between? && Peeked(r) != NULL ==> Peeked(r) == r.produced[|r.consumed|])
      && (Refuses(r) <==> |r.produced| - |r.consumed| + Stale(r) == r.size)
      && (Refuses(r) ==> Live(r) >= r.size - (r.batch - 1))
      && (r.c.Between? ==> Stale(r) == r.head - r.tail < r.batch)
      && (r.p.Checked? ==> Can(r, Store) && !Refuses(r))
  {
    InitKeeps(size, line);
    hide After, Lawful, Next, Init;
    RunKeeps(Init(size, line), run);
    var r := After(Init(size, line), run);
    Facts(r);
  }

  /** Between two calls of the consumer the slots from its tail up to its head, and no others, hold
      items that were taken out already. */
  lemma StaleSlots(size: nat, line: nat, run: seq<Step>, x: nat)
    requires Lawful(Init(size, line), run) && After(Init(size, line), run).c.Between?
    requires x < |After(Init(size, line), run).queue|
    ensures var r := After(Init(size, line), run);
      if r.tail <= x < r.head then r.lap + x < |r.consumed| && r.queue[x] == r.consumed[r.lap + x]
      else r.queue[x] == NULL || exists n :: |r.consumed| <= n < |r.produced| && r.queue[x] == r.produced[n]
  {
    InitKeeps(size, line);
    hide After, Lawful, Next, Init;
    RunKeeps(Init(size, line), run);
    var r := After(Init(size, line), run);
    var n := Number(r.lap, r.size, Edge(r), x);
    assert n < |r.produced| ==> r.queue[x] == r.produced[n];
  }

  lemma InRange(r: Ring)
    requires Inv(r)
    ensures r.producer < r.size == |r.queue| || r.size == 0 == |r.queue|
  {
  }

  lemma Facts(r: Ring)
    requires Inv(r)
    ensures r.consumed <= r.produced
    ensures r.c.Between? ==> (Peeked(r) == NULL <==> r.consumed == r.produced)
    ensures r.c.Between? && Peeked(r) != NULL ==> |r.consumed| < |r.produced| && Peeked(r) == r.produced[|r.consumed|]
    ensures Refuses(r) <==> |r.produced| - |r.consumed| + Stale(r) == r.size
    ensures Refuses(r) ==> Live(r) >= r.size - (r.batch - 1)
    ensures r.c.Between? ==> Stale(r) == r.head - r.tail < r.batch
    ensures r.p.Checked? ==> Can(r, Store) && !Refuses(r)
  {
    hide Slots, Inv, Refuses;
    ConsumerFacts(r);
    RefusedFacts(r);
  }

  lemma ConsumerFacts(r: Ring)
    requires Inv(r)
    ensures r.consumed <= r.produced
    ensures r.c.Between? ==> (Peeked(r) == NULL <==> r.consumed == r.produced)
    ensures r.c.Between? && Peeked(r) != NULL ==> |r.consumed| < |r.produced| && Peeked(r) == r.produced[|r.consumed|]
    ensures r.c.Between? ==> Stale(r) == r.head - r.tail < r.batch
  {
    if r.c.Between? { PeekKeeps(r); }
  }

  lemma RefusedFacts(r: Ring)
    requires Inv(r)
    ensures Refuses(r) <==> |r.produced| - |r.consumed| + Stale(r) == r.size
    ensures Refuses(r) ==> Live(r) >= r.size - (r.batch - 1)
    ensures r.p.Checked? ==> Can(r, Store) && !Refuses(r)
  {
    var s := r.(p := Outside);
    CheckKeeps(s, 1);
  }

  // ---------------------------------------------------------------- the fields

  /** The slots with those from lo up to hi cleared. */
  function Blanked(queue: seq<nat>, lo: int, hi: int): seq<nat> {
    seq(|queue|, x requires 0 <= x < |queue| => if lo <= x <= hi then NULL else queue[x])
  }

  lemma NoneBlanked(queue: seq<nat>, hi: int)
    ensures Blanked(queue, hi + 1, hi) == queue
  {
  }

  lemma OneBlanked(queue: seq<nat>, lo: int, hi: int)
    requires 0 <= lo <= hi && lo < |queue|
    ensures |Blanked(queue, lo + 1, hi)| == |queue| && Blanked(queue, lo + 1, hi)[lo := NULL] == Blanked(queue, lo, hi)
  {
  }

  class PtrRing {
    const size: nat
    const batch: nat
    const queue: array<nat>
    var producer: nat
    var consumerHead: nat
    var consumerTail: nat
    ghost var produced: seq<Item>
    ghost var consumed: seq<Item>
    ghost var lap: nat

    ghost function Now(): Ring
      reads this, queue
    {
      Ring(size, batch, queue[..], producer, consumerHead, consumerTail, Outside, Between, produced, consumed, lap)
    }

    ghost predicate Valid()
      reads this, queue
    {
      Inv(Now()) && consumed <= produced
    }

    /** The items in the ring, oldest first. */
    ghost function Contents(): seq<Item>
      reads this, queue
      requires Valid()
    {
      produced[|consumed|..]
    }

    constructor (size: nat, line: nat)
      ensures Valid() && fresh(queue) && Contents() == []
      ensures this.size == size && batch == Batch(size, line)
      ensures line == 64 ==> batch == if size >= 32 then 16 else 1
    {
      this.size := size;
      batch := Batch(size, line);
      queue := new nat[size](_ => NULL);
      producer, consumerHead, consumerTail, lap := 0, 0, 0, 0;
      produced, consumed := [], [];
      new;
      InitKeeps(size, line);
      assert queue[..] == seq(size, _ => NULL);
      assert Now() == Init(size, line);
    }

    method Produce(item: Item) returns (ok: bool)
      requires Valid()
      modifies queue, `producer, `produced
      ensures Valid() && Contents() == if ok then old(Contents()) + [item] else old(Contents())
      ensures !ok <==> old(|Contents()| + consumerHead - consumerTail) == size
      ensures !ok ==> |old(Contents())| >= size - (batch - 1)
    {
      Facts(Now());
      InRange(Now());
      Pushed(produced, consumed, item);
      hide Inv, Edge;
      if size == 0 || queue[producer] != NULL { return false; }
      Store(item);
      ok := true;
    }

    method Store(item: Item)
      requires Inv(Now()) && !Refuses(Now())
      modifies queue, `producer, `produced
      ensures Inv(Now()) && produced == old(produced) + [item]
    {
      StoreAt(Now(), item);
      hide Inv;
      ghost var s := Now().(queue := queue[..][producer := item], produced := produced + [item],
                            producer := if producer + 1 >= size then 0 else producer + 1);
      queue[producer] := item;
      producer := producer + 1;
      if producer >= size { producer := 0; }
      produced := produced + [item];
      assert Now() == s;
    }

    method Peek() returns (item: nat)
      requires Valid()
      ensures item == if Contents() == [] then NULL else Contents()[0]
    {
      PeekKeeps(Now());
      Facts(Now());
      if size != 0 { return queue[consumerHead]; }
      item := NULL;
    }

    method Consume() returns (item: nat)
      requires Valid()
      modifies queue, `consumerHead, `consumerTail, `consumed, `lap
      ensures Valid()
      ensures old(Contents()) == [] ==> item == NULL && Contents() == []
      ensures old(Contents()) != [] ==> [item] + Contents() == old(Contents())
    {
      ghost var r := Now();
      PeekKeeps(r);
      item := Peek();
      if item != NULL { Popped(produced, consumed, item); }
      hide Inv;
      if item != NULL {
        consumed := consumed + [item];
        DiscardOne(Next(r, Step.Peek));
      }
    }

    /** Slots are cleared from the head down to the tail. */
    method ClearDown()
      requires consumerTail <= consumerHead < queue.Length
      modifies queue
      ensures queue[..] == Blanked(old(queue[..]), consumerTail, consumerHead)
    {
      NoneBlanked(queue[..], consumerHead);
      hide Blanked;
      var head: int := consumerHead;
      while head >= consumerTail
        invariant consumerTail - 1 <= head <= consumerHead
        invariant queue[..] == Blanked(old(queue[..]), head + 1, consumerHead)
        decreases head - consumerTail + 1
      {
        OneBlanked(old(queue[..]), head, consumerHead);
        queue[head] := NULL;
        head := head - 1;
      }
    }

    /** `r` is the ring with the item at the head taken but not discarded. The slots from the tail up to the
        head are cleared when there are enough of them or the lap ends; no other slot changes. */
    method DiscardOne(ghost r: Ring)
      requires Inv(r) && r.c.Taken? && r == Now().(c := r.c)
      modifies queue, `consumerHead, `consumerTail, `lap
      ensures Valid()
      ensures var next := old(consumerHead) + 1;
        var clears := next - old(consumerTail) >= batch || next >= size;
        && queue[..] == (if clears then Blanked(old(queue[..]), old(consumerTail), old(consumerHead)) else old(queue[..]))
        && consumerHead == (if next >= size then 0 else next)
        && consumerTail == (if next >= size then 0 else if clears then next else old(consumerTail))
    {
      DecideKeeps(r);
      Prefix(r);
      hide Inv, Blanked;
      var next := consumerHead + 1;
      ghost var s := Next(r, Decide);
      if next - consumerTail >= batch || next >= size {
        ClearingEnds(s);
        ClearDown();
        s := Next(SlotsCleared(s, s.tail - 1), Finish);
        consumerTail := next;
      }
      if next >= size {
        lap := lap + size;
        next := 0;
        consumerTail := 0;
      }
      consumerHead := next;
      assert Now() == s;
    }
  }

  /** Both steps of a producer that nobody interrupts. */
  lemma StoreAt(r: Ring, item: Item)
    requires Inv(r) && r.p.Outside? && !Refuses(r)
    ensures Inv(r.(queue := r.queue[r.producer := item], produced := r.produced + [item],
                   producer := if r.producer + 1 >= r.size then 0 else r.producer + 1))
  {
    CheckKeeps(r, item);
    hide Inv;
    StoreKeeps(Next(r, Check(item)));
  }

  lemma Pushed(p: seq<Item>, c: seq<Item>, item: Item)
    requires c <= p
    ensures c <= p + [item] && (p + [item])[|c|..] == p[|c|..] + [item]
  {
  }

  lemma Popped(p: seq<Item>, c: seq<Item>, item: Item)
    requires c <= p && |c| < |p| && p[|c|] == item
    ensures c + [item] <= p && [item] + p[|c + [item]|..] == p[|c|..]
  {
  }

  /** A clearing that has come down to slot x. */
  function SlotsCleared(r: Ring, x: int): Ring
    requires r.c.Clearing?
  {
    r.(queue := Blanked(r.queue, x + 1, r.head), c := r.c.(at := x))
  }

  lemma {:induction false} ClearingKeeps(r: Ring, x: int)
    requires Inv(r) && r.c.Clearing? && r.c.at == r.head && r.tail - 1 <= x <= r.head
    ensures Inv(SlotsCleared(r, x))
    decreases r.head - x
  {
    if x == r.head {
      NoneBlanked(r.queue, x);
    } else {
      ClearingKeeps(r, x + 1);
      var s := SlotsCleared(r, x + 1);
      assert x + 1 < |r.queue|;
      OneBlanked(r.queue, x + 1, r.head);
      ClearKeeps(s);
      hide Inv, Blanked;
      assert Next(s, Clear) == SlotsCleared(r, x);
    }
  }

  lemma ClearingEnds(r: Ring)
    requires Inv(r) && r.c.Clearing? && r.c.at == r.head
    ensures r.tail <= r.head < |r.queue| && Inv(Next(SlotsCleared(r, r.tail - 1), Finish))
  {
    ClearingKeeps(r, r.tail - 1);
    FinishKeeps(SlotsCleared(r, r.tail - 1));
    hide SlotsCleared;
  }

  lemma Prefix(r: Ring)
    requires Inv(r)
    ensures r.consumed <= r.produced
  {
  }
}
