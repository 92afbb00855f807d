/** The per-peer queue of driver/queueing.c: many producers, one consumer, a stub node, and links
    that are stored only after the head has been exchanged.

    Every shared-memory access is one step, so any interleaving is a sequence of actions. */
module PrevQueue {
  const MAX_QUEUED_PACKETS: int := 1024

  type ThreadId = nat

  datatype Option<+T> = None | Some(value: T)

  /** The stub, or a packet named by its peer and its number. */
  datatype Ptr = Stub | Nbl(peer: nat, id: nat)

  /** Head, Tail and the Next links; a pointer without an entry in `link` has a NULL link.
      The other four fields are history, never read by a step that models code: `hist` lists every
      pointer ever exchanged into Head, `base` is the position in it that Tail points at, `pos` is
      where a pointer was last put, and `owed` says who has yet to store the link to a position
      (None is the consumer). Positions in `hist` never move. */
  datatype Chain = Chain(
    head: Ptr, tail: Ptr, link: map<Ptr, Ptr>,
    hist: seq<Ptr>, base: nat, pos: map<Ptr, nat>, owed: map<nat, Option<ThreadId>>)

  /** Where a producer stands inside PrevQueueEnqueue. */
  datatype Producer =
    | Idle
    | Counted(nbl: Ptr)                             // Count incremented, own link not cleared yet
    | Cleared(nbl: Ptr)                             // own link cleared, Head not exchanged yet
    | Swapped(nbl: Ptr, prev: Ptr, at: nat)         // Head exchanged, link of prev not stored yet

  /** Where the consumer stands inside PrevQueueDequeue. */
  datatype Consumer =
    | Rest
    | Reading                                       // moved past the stub, about to read tail's link
    | Comparing                                     // saw no link, about to read Head
    | Clearing                                      // Head was tail, about to clear the stub's link
    | Swapping                                      // about to exchange the stub into Head
    | Linking(prev: Ptr, at: nat)                   // about to store the link to the stub
    | Rereading                                     // about to read tail's link once more
    | Decrementing(item: Ptr)                       // Tail moved, Count not yet decremented
    | Returned(result: Option<Ptr>)

  /** `holder` and `returned` are history: who holds a packet, and what the consumer got so far. */
  datatype Queue = Queue(
    chain: Chain,
    count: int,
    producers: map<ThreadId, Producer>,             // threads without an entry are Idle
    consumer: Consumer,
    holder: map<Ptr, ThreadId>,
    returned: seq<Ptr>)

  const Empty: Queue :=
    Queue(Chain(Stub, Stub, map[], [Stub], 0, map[Stub := 0], map[]), 0, map[], Rest, map[], [])

  // ---------------------------------------------------------------- steps

  function Exchange(c: Chain, p: Ptr, who: Option<ThreadId>): Chain {
    c.(head := p, hist := c.hist + [p], pos := c.pos[p := |c.hist|], owed := c.owed[|c.hist| := who])
  }

  function StoreNext(c: Chain, prev: Ptr, p: Ptr, at: nat): Chain {
    c.(link := c.link[prev := p], owed := c.owed - {at})
  }

  function ClearNext(c: Chain, p: Ptr): Chain {
    c.(link := c.link - {p})
  }

  /** Tail moves on along its link. */
  function Advance(c: Chain): Chain
    requires c.tail in c.link
  {
    c.(tail := c.link[c.tail], base := c.base + 1)
  }

  datatype Action =
    | Refuse(t: ThreadId)                           // Count was at its limit
    | Count(t: ThreadId, nbl: Ptr)
    | ClearLink(t: ThreadId)
    | SwapHead(t: ThreadId)
    | StoreLink(t: ThreadId)
    | Consume                                       // the consumer's next access, whatever it is
    | Acknowledge                                   // the caller takes the returned value

  function Pc(q: Queue, t: ThreadId): Producer {
    if t in q.producers then q.producers[t] else Idle
  }

  /** p is not between Tail and Head. */
  predicate OffChain(c: Chain, p: Ptr) {
    p in c.pos ==> c.pos[p] < c.base
  }

  /** A caller hands over a packet that is in no queue and in nobody else's hands. */
  predicate Unqueued(q: Queue, nbl: Ptr) {
    nbl.Nbl? && OffChain(q.chain, nbl) && nbl !in q.holder
  }

  predicate Enabled(q: Queue, a: Action) {
    match a
    case Refuse(t) => Pc(q, t).Idle? && q.count == MAX_QUEUED_PACKETS
    case Count(t, nbl) => Pc(q, t).Idle? && q.count != MAX_QUEUED_PACKETS && Unqueued(q, nbl)
    case ClearLink(t) => Pc(q, t).Counted?
    case SwapHead(t) => Pc(q, t).Cleared?
    case StoreLink(t) => Pc(q, t).Swapped?
    case Consume => !q.consumer.Returned?
    case Acknowledge => q.consumer.Returned?
  }

  /** Dequeue's three exits that take the packet at Tail. */
  function TakeTail(q: Queue): Queue
    requires q.chain.tail in q.chain.link
  {
    q.(chain := Advance(q.chain), consumer := Decrementing(q.chain.tail))
  }

  /** One shared access of PrevQueueDequeue, with the private work that follows it. */
  function ConsumeStep(q: Queue): Queue {
    match q.consumer
    case Rest =>
      if q.chain.tail.Stub? then
        if Stub in q.chain.link then q.(chain := Advance(q.chain), consumer := Reading)
        else q.(consumer := Returned(None))
      else if q.chain.tail in q.chain.link then TakeTail(q)
      else q.(consumer := Comparing)
    case Reading =>
      if q.chain.tail in q.chain.link then TakeTail(q) else q.(consumer := Comparing)
    case Comparing =>
      if q.chain.head != q.chain.tail then q.(consumer := Returned(None)) else q.(consumer := Clearing)
    case Clearing => q.(chain := ClearNext(q.chain, Stub), consumer := Swapping)
    case Swapping =>
      q.(chain := Exchange(q.chain, Stub, None), consumer := Linking(q.chain.head, |q.chain.hist|))
    case Linking(prev, at) => q.(chain := StoreNext(q.chain, prev, Stub, at), consumer := Rereading)
    case Rereading =>
      if q.chain.tail in q.chain.link then TakeTail(q) else q.(consumer := Returned(None))
    case Decrementing(item) =>
      q.(count := q.count - 1, returned := q.returned + [item], consumer := Returned(Some(item)))
    case Returned(_) => q
  }

  function ProducerStep(q: Queue, t: ThreadId): Queue {
    match Pc(q, t)
    case Idle => q
    case Counted(nbl) => q.(chain := ClearNext(q.chain, nbl), producers := q.producers[t := Cleared(nbl)])
    case Cleared(nbl) =>
      q.(chain := Exchange(q.chain, nbl, Some(t)),
         producers := q.producers[t := Swapped(nbl, q.chain.head, |q.chain.hist|)])
    case Swapped(nbl, prev, at) =>
      q.(chain := StoreNext(q.chain, prev, nbl, at), producers := q.producers - {t}, holder := q.holder - {nbl})
  }

  function Apply(q: Queue, a: Action): Queue {
    match a
    case Refuse(t) => q
    case Count(t, nbl) =>
      q.(count := q.count + 1, producers := q.producers[t := Counted(nbl)], holder := q.holder[nbl := t])
    case ClearLink(t) => ProducerStep(q, t)
    case SwapHead(t) => ProducerStep(q, t)
    case StoreLink(t) => ProducerStep(q, t)
    case Consume => ConsumeStep(q)
    case Acknowledge => q.(consumer := Rest)
  }

  // ---------------------------------------------------------------- what a queue holds

  /** The packets among the pointers of s, in order. */
  function Items(s: seq<Ptr>): seq<Ptr> {
    if s == [] then []
    else if s[|s| - 1].Nbl? then Items(s[..|s| - 1]) + [s[|s| - 1]]
    else Items(s[..|s| - 1])
  }

  /** The packets in the queue, oldest first: the value of the abstract FIFO. */
  function Contents(c: Chain): seq<Ptr>
    requires c.base <= |c.hist|
  {
    Items(c.hist[c.base..])
  }

  /** Producers past the counter and before the exchange. */
  function Waiting(producers: map<ThreadId, Producer>): set<ThreadId> {
    set t | t in producers && (producers[t].Counted? || producers[t].Cleared?)
  }

  // ---------------------------------------------------------------- the chain

  ghost predicate LinkFits(c: Chain, i: nat)
    requires i + 1 < |c.hist|
  {
    if c.hist[i] in c.link then c.link[c.hist[i]] == c.hist[i + 1] else i + 1 in c.owed
  }

  /** hist[base..] runs from Tail to Head without a repetition; a link missing in it is owed. */
  ghost predicate ChainInv(c: Chain) {
    && c.base < |c.hist|
    && c.hist[c.base] == c.tail
    && c.hist[|c.hist| - 1] == c.head
    && c.head !in c.link
    && (forall i :: c.base <= i < |c.hist| ==> c.hist[i] in c.pos && c.pos[c.hist[i]] == i)
    && (forall p :: p in c.pos ==> c.pos[p] < |c.hist| && c.hist[c.pos[p]] == p)
    && (forall i: nat :: c.base <= i < |c.hist| - 1 ==> LinkFits(c, i))
    && (forall i :: i in c.owed ==> c.base < i < |c.hist| && c.hist[i - 1] !in c.link)
  }

  /** `who` owes the link from prev to ptr. */
  ghost predicate Owes(c: Chain, who: Option<ThreadId>, ptr: Ptr, prev: Ptr, at: nat) {
    && at in c.owed && c.owed[at] == who
    && 0 < at < |c.hist| && c.hist[at] == ptr && c.hist[at - 1] == prev
  }

  lemma ExchangeKeeps(c: Chain, p: Ptr, who: Option<ThreadId>)
    requires ChainInv(c) && OffChain(c, p) && p !in c.link
    ensures ChainInv(Exchange(c, p, who))
    ensures Owes(Exchange(c, p, who), who, p, c.head, |c.hist|)
  {
    hide LinkFits;
    ExchangeLinks(c, p, who);
  }

  lemma ExchangeLinks(c: Chain, p: Ptr, who: Option<ThreadId>)
    requires ChainInv(c) && OffChain(c, p) && p !in c.link
    ensures var c' := Exchange(c, p, who); forall i: nat :: c'.base <= i < |c'.hist| - 1 ==> LinkFits(c', i)
  {
    var c' := Exchange(c, p, who);
    forall i: nat | c'.base <= i < |c'.hist| - 1 ensures LinkFits(c', i) {
      if i < |c.hist| - 1 { assert LinkFits(c, i); }
    }
  }

  lemma StoreNextLinks(c: Chain, who: Option<ThreadId>, prev: Ptr, p: Ptr, at: nat)
    requires ChainInv(c) && Owes(c, who, p, prev, at)
    ensures var c' := StoreNext(c, prev, p, at); forall i: nat :: c'.base <= i < |c'.hist| - 1 ==> LinkFits(c', i)
  {
    var c' := StoreNext(c, prev, p, at);
    forall i: nat | c'.base <= i < |c'.hist| - 1 ensures LinkFits(c', i) {
      assert LinkFits(c, i);
    }
  }

  lemma StoreNextKeeps(c: Chain, who: Option<ThreadId>, prev: Ptr, p: Ptr, at: nat)
    requires ChainInv(c) && Owes(c, who, p, prev, at)
    ensures ChainInv(StoreNext(c, prev, p, at))
  {
    hide LinkFits;
    StoreNextLinks(c, who, prev, p, at);
    var c' := StoreNext(c, prev, p, at);
    forall i | i in c'.owed ensures c'.base < i < |c'.hist| && c'.hist[i - 1] !in c'.link {
      assert c.pos[c.hist[i - 1]] == i - 1;
    }
  }

  lemma ClearNextKeeps(c: Chain, p: Ptr)
    requires ChainInv(c) && OffChain(c, p)
    ensures ChainInv(ClearNext(c, p))
  {
    var c' := ClearNext(c, p);
    forall i: nat | c'.base <= i < |c'.hist| - 1 ensures LinkFits(c', i) {
      assert LinkFits(c, i);
    }
  }

  lemma AdvanceKeeps(c: Chain)
    requires ChainInv(c) && c.tail in c.link
    ensures ChainInv(Advance(c)) && OffChain(Advance(c), c.tail)
  {
    var c' := Advance(c);
    assert LinkFits(c, c.base);
    forall i: nat | c'.base <= i < |c'.hist| - 1 ensures LinkFits(c', i) {
      assert LinkFits(c, i);
    }
  }

  // ---------------------------------------------------------------- the queue

  ghost predicate ProducerFits(c: Chain, t: ThreadId, p: Producer) {
    && !p.Idle?
    && p.nbl.Nbl?
    && (if p.Swapped? then Owes(c, Some(t), p.nbl, p.prev, p.at) else OffChain(c, p.nbl))
    && (p.Cleared? ==> p.nbl !in c.link)
  }

  ghost predicate ProducerInv(q: Queue) {
    forall t :: t in q.producers ==> ProducerFits(q.chain, t, q.producers[t])
  }

  ghost predicate HolderInv(q: Queue) {
    && (forall t :: t in q.producers && !q.producers[t].Idle? ==>
          q.producers[t].nbl in q.holder && q.holder[q.producers[t].nbl] == t)
    && (forall n :: n in q.holder ==> !Pc(q, q.holder[n]).Idle? && Pc(q, q.holder[n]).nbl == n)
  }

  /** Whoever owes a link is about to store it. */
  ghost predicate OwedInv(q: Queue) {
    forall i :: i in q.chain.owed ==>
      match q.chain.owed[i]
      case Some(t) => Pc(q, t).Swapped? && Pc(q, t).at == i
      case None => q.consumer.Linking? && q.consumer.at == i
  }

  /** The stub is exchanged into Head only while it is off the chain. */
  ghost predicate ConsumerInv(q: Queue) {
    match q.consumer
    case Rest => true
    case Reading => q.chain.tail.Nbl? && OffChain(q.chain, Stub)
    case Comparing => q.chain.tail.Nbl?
    case Clearing => q.chain.tail.Nbl? && OffChain(q.chain, Stub)
    case Swapping => q.chain.tail.Nbl? && OffChain(q.chain, Stub) && Stub !in q.chain.link
    case Linking(prev, at) => q.chain.tail.Nbl? && Owes(q.chain, None, Stub, prev, at)
    case Rereading => q.chain.tail.Nbl? && q.chain.base + 1 < |q.chain.hist|
    case Decrementing(item) => item.Nbl?
    case Returned(result) =>
      result.Some? ==> result.value.Nbl? && q.returned != [] && q.returned[|q.returned| - 1] == result.value
  }

  function InFlight(q: Queue): nat {
    |Waiting(q.producers)| + (if q.consumer.Decrementing? then 1 else 0)
  }

  ghost predicate CountInv(q: Queue)
    requires q.chain.base <= |q.chain.hist|
  {
    q.count == |Contents(q.chain)| + InFlight(q) <= MAX_QUEUED_PACKETS
  }

  ghost predicate OrderInv(q: Queue)
    requires q.chain.base <= |q.chain.hist|
  {
    q.returned + (if q.consumer.Decrementing? then [q.consumer.item] else [])
      == Items(q.chain.hist[..q.chain.base])
  }

  ghost predicate Inv(q: Queue) {
    && ChainInv(q.chain) && ProducerInv(q) && HolderInv(q) && OwedInv(q) && ConsumerInv(q)
    && CountInv(q) && OrderInv(q)
  }

  // ---------------------------------------------------------------- what a step leaves alone

  lemma OthersKeepExchange(c: Chain, p: Ptr, who: Option<ThreadId>, u: ThreadId, o: Producer)
    requires ChainInv(c) && ProducerFits(c, u, o) && o.nbl != p
    ensures ProducerFits(Exchange(c, p, who), u, o)
  {
  }

  lemma OthersKeepStore(c: Chain, who: Option<ThreadId>, prev: Ptr, p: Ptr, at: nat, u: ThreadId, o: Producer)
    requires ChainInv(c) && Owes(c, who, p, prev, at) && ProducerFits(c, u, o) && who != Some(u)
    ensures ProducerFits(StoreNext(c, prev, p, at), u, o)
  {
    assert c.pos[c.hist[at - 1]] == at - 1;
  }

  lemma OthersKeepAdvance(c: Chain, u: ThreadId, o: Producer)
    requires ChainInv(c) && c.tail in c.link && ProducerFits(c, u, o)
    ensures ProducerFits(Advance(c), u, o)
  {
  }

  // ---------------------------------------------------------------- contents and order

  lemma {:induction false} ItemsConcat(a: seq<Ptr>, b: seq<Ptr>)
    ensures Items(a + b) == Items(a) + Items(b)
  {
    if b == [] {
      assert a + b == a;
    } else {
      ItemsConcat(a, b[..|b| - 1]);
      assert (a + b)[..|a + b| - 1] == a + b[..|b| - 1];
    }
  }

  lemma ItemsOne(p: Ptr)
    ensures Items([p]) == if p.Nbl? then [p] else []
  {
    assert [p][..0] == [];
  }

  /** The exchange of Head is where a packet enters the FIFO; the stub never counts. */
  lemma ExchangeContents(c: Chain, p: Ptr, who: Option<ThreadId>)
    requires c.base <= |c.hist|
    ensures Contents(Exchange(c, p, who)) == Contents(c) + if p.Nbl? then [p] else []
    ensures Items(Exchange(c, p, who).hist[..c.base]) == Items(c.hist[..c.base])
  {
    ItemsOne(p);
    ItemsConcat(c.hist[c.base..], [p]);
    assert (c.hist + [p])[c.base..] == c.hist[c.base..] + [p];
    assert (c.hist + [p])[..c.base] == c.hist[..c.base];
  }

  lemma SplitAt(s: seq<Ptr>, i: nat)
    requires i < |s|
    ensures s[i..] == [s[i]] + s[i + 1..] && s[..i + 1] == s[..i] + [s[i]]
  {
  }

  /** The move of Tail is where the oldest packet leaves it. */
  lemma AdvanceContents(c: Chain)
    requires ChainInv(c) && c.tail in c.link
    ensures var front := if c.tail.Nbl? then [c.tail] else [];
      && Contents(c) == front + Contents(Advance(c))
      && Items(Advance(c).hist[..c.base + 1]) == Items(c.hist[..c.base]) + front
  {
    ItemsOne(c.tail);
    assert c.base < |c.hist| && c.tail == c.hist[c.base];
    hide Items, ChainInv;
    SplitAt(c.hist, c.base);
    ItemsConcat([c.tail], c.hist[c.base + 1..]);
    ItemsConcat(c.hist[..c.base], [c.tail]);
  }

  // ---------------------------------------------------------------- the producers' bookkeeping

  /** Thread t moves on with the packet it already holds. */
  lemma HolderMoves(q: Queue, q': Queue, t: ThreadId, p: Producer)
    requires HolderInv(q) && t in q.producers && !q.producers[t].Idle?
    requires !p.Idle? && p.nbl == q.producers[t].nbl
    requires q'.producers == q.producers[t := p] && q'.holder == q.holder
    ensures HolderInv(q')
  {
  }

  lemma HolderEnters(q: Queue, q': Queue, t: ThreadId, n: Ptr)
    requires HolderInv(q) && Pc(q, t).Idle? && n !in q.holder
    requires q'.producers == q.producers[t := Counted(n)] && q'.holder == q.holder[n := t]
    ensures HolderInv(q')
  {
  }

  lemma HolderLeaves(q: Queue, q': Queue, t: ThreadId)
    requires HolderInv(q) && t in q.producers && !q.producers[t].Idle?
    requires q'.producers == q.producers - {t} && q'.holder == q.holder - {q.producers[t].nbl}
    ensures HolderInv(q')
  {
  }

  /** The number of threads between increment and exchange changes only by thread t. */
  lemma WaitingSet(m: map<ThreadId, Producer>, t: ThreadId, p: Producer)
    ensures |Waiting(m[t := p])| == |Waiting(m - {t})| + if p.Counted? || p.Cleared? then 1 else 0
  {
    var w, w' := Waiting(m - {t}), Waiting(m[t := p]);
    assert t !in w && (t in w' <==> p.Counted? || p.Cleared?);
    assert forall u :: u != t ==> (u in w <==> u in w');
    hide Waiting;
    if t in w' { assert w' == w + {t}; } else { assert w' == w; }
  }

  lemma WaitingPc(q: Queue, t: ThreadId)
    ensures |Waiting(q.producers)| ==
      |Waiting(q.producers - {t})| + if Pc(q, t).Counted? || Pc(q, t).Cleared? then 1 else 0
  {
    if t in q.producers {
      WaitingSet(q.producers, t, q.producers[t]);
      assert q.producers[t := q.producers[t]] == q.producers;
    } else {
      assert q.producers - {t} == q.producers;
    }
  }

  // ---------------------------------------------------------------- every step keeps the invariant

  lemma CountKeeps(q: Queue, t: ThreadId, nbl: Ptr)
    requires Inv(q) && Enabled(q, Count(t, nbl))
    ensures Inv(Apply(q, Count(t, nbl)))
  {
    hide Items, Owes, ChainInv, Waiting;
    var q' := Apply(q, Count(t, nbl));
    WaitingPc(q, t);
    WaitingSet(q.producers, t, Counted(nbl));
    HolderEnters(q, q', t, nbl);
  }

  lemma ClearLinkProducers(q: Queue, t: ThreadId)
    requires Pc(q, t).Counted? && ProducerInv(q)
    ensures ProducerInv(Apply(q, ClearLink(t)))
  {
    var q' := Apply(q, ClearLink(t));
    forall u | u in q'.producers ensures ProducerFits(q'.chain, u, q'.producers[u]) {
      assert ProducerFits(q.chain, u, q.producers[u]);
    }
  }

  lemma ClearLinkKeeps(q: Queue, t: ThreadId)
    requires Inv(q) && Enabled(q, ClearLink(t))
    ensures Inv(Apply(q, ClearLink(t)))
  {
    hide Items, ChainInv, HolderInv, Waiting;
    var q' := Apply(q, ClearLink(t));
    assert ProducerFits(q.chain, t, q.producers[t]);
    ClearNextKeeps(q.chain, q.producers[t].nbl);
    WaitingPc(q, t);
    WaitingSet(q.producers, t, q'.producers[t]);
    HolderMoves(q, q', t, q'.producers[t]);
    ClearLinkProducers(q, t);
  }

  lemma SwapHeadProducers(q: Queue, t: ThreadId)
    requires Pc(q, t).Cleared? && ChainInv(q.chain) && ProducerInv(q) && HolderInv(q)
    requires Owes(Apply(q, SwapHead(t)).chain, Some(t), q.producers[t].nbl, q.chain.head, |q.chain.hist|)
    ensures ProducerInv(Apply(q, SwapHead(t)))
  {
    var q' := Apply(q, SwapHead(t));
    var n := q.producers[t].nbl;
    hide ChainInv;
    forall u | u in q'.producers ensures ProducerFits(q'.chain, u, q'.producers[u]) {
      assert ProducerFits(q.chain, t, q.producers[t]);
      if u != t { OthersKeepExchange(q.chain, n, Some(t), u, q.producers[u]); }
    }
  }

  lemma SwapHeadTally(q: Queue, t: ThreadId)
    requires Pc(q, t).Cleared? && q.producers[t].nbl.Nbl? && q.chain.base <= |q.chain.hist|
    requires CountInv(q) && OrderInv(q)
    ensures CountInv(Apply(q, SwapHead(t))) && OrderInv(Apply(q, SwapHead(t)))
    ensures Contents(Apply(q, SwapHead(t)).chain) == Contents(q.chain) + [Pc(q, t).nbl]
  {
    hide Items, Waiting, Contents;
    var q' := Apply(q, SwapHead(t));
    ExchangeContents(q.chain, q.producers[t].nbl, Some(t));
    WaitingPc(q, t);
    WaitingSet(q.producers, t, q'.producers[t]);
  }

  lemma BaseIn(c: Chain)
    requires ChainInv(c)
    ensures c.base < |c.hist|
  {
  }

  lemma SwapHeadOwed(q: Queue, t: ThreadId)
    requires Pc(q, t).Cleared? && OwedInv(q)
    ensures OwedInv(Apply(q, SwapHead(t)))
  {
  }

  /** The head exchange is where a packet enters the FIFO. */
  lemma SwapHeadKeeps(q: Queue, t: ThreadId)
    requires Inv(q) && Enabled(q, SwapHead(t))
    ensures Inv(Apply(q, SwapHead(t)))
    ensures Contents(Apply(q, SwapHead(t)).chain) == Contents(q.chain) + [Pc(q, t).nbl]
  {
    hide Items, ChainInv, HolderInv, OwedInv, CountInv, OrderInv, Waiting, Contents;
    var q' := Apply(q, SwapHead(t));
    var n := q.producers[t].nbl;
    assert ProducerFits(q.chain, t, q.producers[t]);
    ExchangeKeeps(q.chain, n, Some(t));
    HolderMoves(q, q', t, q'.producers[t]);
    SwapHeadProducers(q, t);
    BaseIn(q.chain);
    SwapHeadTally(q, t);
    SwapHeadOwed(q, t);
  }

  lemma StoreLinkProducers(q: Queue, t: ThreadId)
    requires Pc(q, t).Swapped? && ChainInv(q.chain) && ProducerInv(q)
    ensures ProducerInv(Apply(q, StoreLink(t)))
  {
    var q' := Apply(q, StoreLink(t));
    var p := q.producers[t];
    hide ChainInv;
    forall u | u in q'.producers ensures ProducerFits(q'.chain, u, q'.producers[u]) {
      assert ProducerFits(q.chain, t, p);
      OthersKeepStore(q.chain, Some(t), p.prev, p.nbl, p.at, u, q.producers[u]);
    }
  }

  lemma StoreLinkConsumer(q: Queue, t: ThreadId)
    requires Pc(q, t).Swapped? && ChainInv(q.chain) && ConsumerInv(q)
    requires ProducerFits(q.chain, t, q.producers[t])
    ensures ConsumerInv(Apply(q, StoreLink(t)))
  {
    var p := q.producers[t];
    assert q.chain.pos[q.chain.hist[p.at - 1]] == p.at - 1;
  }

  lemma StoreLinkKeeps(q: Queue, t: ThreadId)
    requires Inv(q) && Enabled(q, StoreLink(t))
    ensures Inv(Apply(q, StoreLink(t)))
  {
    hide Items, ChainInv, HolderInv, Waiting;
    var q' := Apply(q, StoreLink(t));
    var p := q.producers[t];
    assert ProducerFits(q.chain, t, p);
    StoreNextKeeps(q.chain, Some(t), p.prev, p.nbl, p.at);
    WaitingPc(q, t);
    HolderLeaves(q, q', t);
    StoreLinkProducers(q, t);
    StoreLinkConsumer(q, t);
  }

  lemma ConsumeChain(q: Queue)
    requires ChainInv(q.chain) && ConsumerInv(q) && Enabled(q, Consume)
    ensures ChainInv(Apply(q, Consume).chain)
  {
    var c := q.chain;
    if c.tail in c.link { AdvanceKeeps(c); }
    if q.consumer.Clearing? { ClearNextKeeps(c, Stub); }
    if q.consumer.Swapping? { ExchangeKeeps(c, Stub, None); }
    if q.consumer.Linking? { StoreNextKeeps(c, None, q.consumer.prev, Stub, q.consumer.at); }
  }

  lemma ConsumeProducers(q: Queue)
    requires ChainInv(q.chain) && ProducerInv(q) && ConsumerInv(q) && Enabled(q, Consume)
    ensures ProducerInv(Apply(q, Consume))
  {
    hide ChainInv;
    var q' := Apply(q, Consume);
    forall u | u in q'.producers ensures ProducerFits(q'.chain, u, q'.producers[u]) {
      assert ProducerFits(q.chain, u, q.producers[u]);
      match q.consumer
      case Rest => if q.chain.tail in q.chain.link { OthersKeepAdvance(q.chain, u, q.producers[u]); }
      case Reading => if q.chain.tail in q.chain.link { OthersKeepAdvance(q.chain, u, q.producers[u]); }
      case Rereading => if q.chain.tail in q.chain.link { OthersKeepAdvance(q.chain, u, q.producers[u]); }
      case Swapping => OthersKeepExchange(q.chain, Stub, None, u, q.producers[u]);
      case Linking(prev, at) => OthersKeepStore(q.chain, None, prev, Stub, at, u, q.producers[u]);
      case _ =>
    }
  }

  lemma RestConsumer(q: Queue)
    requires ChainInv(q.chain) && ConsumerInv(q) && Enabled(q, Consume)
    requires q.consumer.Rest? || q.consumer.Reading? || q.consumer.Rereading? || q.consumer.Decrementing?
    ensures ConsumerInv(Apply(q, Consume))
  {
    if q.chain.tail in q.chain.link { assert LinkFits(q.chain, q.chain.base); }
  }

  lemma StubConsumer(q: Queue)
    requires ChainInv(q.chain) && ConsumerInv(q) && Enabled(q, Consume)
    requires q.consumer.Comparing? || q.consumer.Clearing? || q.consumer.Swapping? || q.consumer.Linking?
    ensures ConsumerInv(Apply(q, Consume))
  {
    if q.consumer.Swapping? { ExchangeKeeps(q.chain, Stub, None); }
  }

  lemma ConsumeConsumer(q: Queue)
    requires ChainInv(q.chain) && ConsumerInv(q) && Enabled(q, Consume)
    ensures ConsumerInv(Apply(q, Consume))
  {
    hide ChainInv, ConsumerInv, Apply;
    match q.consumer
    case Comparing => StubConsumer(q);
    case Clearing => StubConsumer(q);
    case Swapping => StubConsumer(q);
    case Linking(_, _) => StubConsumer(q);
    case _ => RestConsumer(q);
  }

  lemma TakeTailTally(q: Queue)
    requires ChainInv(q.chain) && CountInv(q) && OrderInv(q) && !q.consumer.Decrementing?
    requires q.chain.tail in q.chain.link && q.chain.tail.Nbl?
    ensures TakeTail(q).chain.base <= |TakeTail(q).chain.hist|
    ensures CountInv(TakeTail(q)) && OrderInv(TakeTail(q))
  {
    AdvanceContents(q.chain);
    hide Items, ChainInv, Contents;
  }

  lemma PassStubTally(q: Queue)
    requires ChainInv(q.chain) && CountInv(q) && OrderInv(q) && q.consumer.Rest?
    requires q.chain.tail in q.chain.link && q.chain.tail.Stub?
    ensures Apply(q, Consume).chain.base <= |Apply(q, Consume).chain.hist|
    ensures CountInv(Apply(q, Consume)) && OrderInv(Apply(q, Consume))
  {
    AdvanceContents(q.chain);
    hide Items, ChainInv, Contents;
  }

  lemma SwapStubTally(q: Queue)
    requires ChainInv(q.chain) && CountInv(q) && OrderInv(q) && q.consumer.Swapping?
    ensures Apply(q, Consume).chain.base <= |Apply(q, Consume).chain.hist|
    ensures CountInv(Apply(q, Consume)) && OrderInv(Apply(q, Consume))
  {
    ExchangeContents(q.chain, Stub, None);
    hide Items, ChainInv, Contents;
  }

  lemma ConsumeTally(q: Queue)
    requires ChainInv(q.chain) && ConsumerInv(q) && CountInv(q) && OrderInv(q) && Enabled(q, Consume)
    requires ChainInv(Apply(q, Consume).chain)
    ensures CountInv(Apply(q, Consume)) && OrderInv(Apply(q, Consume))
  {
    hide Items, ChainInv;
    if q.consumer.Swapping? {
      SwapStubTally(q);
    } else if q.chain.tail in q.chain.link && q.consumer.Rest? && q.chain.tail.Stub? {
      PassStubTally(q);
    } else if q.chain.tail in q.chain.link && (q.consumer.Rest? || q.consumer.Reading? || q.consumer.Rereading?) {
      TakeTailTally(q);
    }
  }

  lemma ConsumeHolder(q: Queue)
    requires HolderInv(q)
    ensures HolderInv(Apply(q, Consume))
  {
    hide ConsumeStep;
    ConsumeRest(q);
  }

  /** Only the chain, the count and the consumer's own fields change. */
  lemma ConsumeRest(q: Queue)
    ensures ConsumeStep(q).producers == q.producers && ConsumeStep(q).holder == q.holder
  {
    hide TakeTail, Advance, ClearNext, StoreNext, Exchange;
    if q.chain.tail in q.chain.link { TakeTailRest(q); }
  }

  lemma TakeTailRest(q: Queue)
    requires q.chain.tail in q.chain.link
    ensures var q' := TakeTail(q);
      q'.producers == q.producers && q'.holder == q.holder && q'.chain == Advance(q.chain) && q'.consumer.Decrementing?
    ensures Advance(q.chain).owed == q.chain.owed
  {
  }

  lemma ConsumeOwed(q: Queue)
    requires ChainInv(q.chain) && OwedInv(q) && ConsumerInv(q) && Enabled(q, Consume)
    ensures OwedInv(Apply(q, Consume))
  {
    hide ChainInv, OwedInv, ConsumerInv, ConsumeStep;
    if q.consumer.Swapping? { SwapStubOwed(q); }
    else if q.consumer.Linking? { LinkStubOwed(q); }
    else { PlainOwed(q); }
  }

  lemma SwapStubOwed(q: Queue)
    requires OwedInv(q) && q.consumer.Swapping?
    ensures OwedInv(ConsumeStep(q))
  {
  }

  lemma LinkStubOwed(q: Queue)
    requires OwedInv(q) && q.consumer.Linking?
    ensures OwedInv(ConsumeStep(q))
  {
  }

  /** The other accesses leave the links that are owed alone, and none is the consumer's. */
  lemma PlainOwed(q: Queue)
    requires OwedInv(q) && !q.consumer.Swapping? && !q.consumer.Linking?
    ensures OwedInv(ConsumeStep(q))
  {
    hide ConsumeStep;
    PlainLinks(q);
  }

  lemma PlainLinks(q: Queue)
    requires !q.consumer.Swapping? && !q.consumer.Linking?
    ensures var q' := ConsumeStep(q);
      q'.chain.owed == q.chain.owed && q'.producers == q.producers && !q'.consumer.Linking?
  {
    hide TakeTail, Advance, StoreNext, Exchange;
    if q.chain.tail in q.chain.link { TakeTailRest(q); }
  }

  lemma ConsumeKeeps(q: Queue)
    requires Inv(q) && Enabled(q, Consume)
    ensures Inv(Apply(q, Consume))
  {
    hide ChainInv, ProducerInv, HolderInv, OwedInv, ConsumerInv, CountInv, OrderInv, Items, Contents, ConsumeStep;
    ConsumeChain(q);
    ConsumeProducers(q);
    ConsumeConsumer(q);
    ConsumeTally(q);
    ConsumeHolder(q);
    ConsumeOwed(q);
  }

  lemma StepKeeps(q: Queue, a: Action)
    requires Inv(q) && Enabled(q, a)
    ensures Inv(Apply(q, a))
  {
    hide ChainInv, ProducerInv, HolderInv, OwedInv, CountInv, OrderInv, Items, Contents, ConsumeStep, ProducerStep;
    match a
    case Refuse(t) =>
    case Count(t, nbl) => CountKeeps(q, t, nbl);
    case ClearLink(t) => ClearLinkKeeps(q, t);
    case SwapHead(t) => SwapHeadKeeps(q, t);
    case StoreLink(t) => StoreLinkKeeps(q, t);
    case Consume => ConsumeKeeps(q);
    case Acknowledge => AcknowledgeKeeps(q);
  }

  lemma AcknowledgeKeeps(q: Queue)
    requires Inv(q) && Enabled(q, Acknowledge)
    ensures Inv(Apply(q, Acknowledge))
  {
    hide ChainInv, ProducerFits, Items, Contents, Waiting;
  }

  // ---------------------------------------------------------------- runs

  ghost predicate Legal(q: Queue, run: seq<Action>)
    decreases run
  {
    run != [] ==> Enabled(q, run[0]) && Legal(Apply(q, run[0]), run[1..])
  }

  ghost function Run(q: Queue, run: seq<Action>): Queue
    decreases run
  {
    if run == [] then q else Run(Apply(q, run[0]), run[1..])
  }

  lemma EmptyInv()
    ensures Inv(Empty)
  {
    assert Waiting(Empty.producers) == {};
    assert [Stub][0..] == [Stub] && [Stub][..0] == [];
    ItemsOne(Stub);
  }

  lemma {:induction false} RunKeeps(q: Queue, run: seq<Action>)
    requires Inv(q) && Legal(q, run)
    ensures Inv(Run(q, run))
    decreases run
  {
    hide Inv, Apply;
    if run != [] {
      StepKeeps(q, run[0]);
      RunKeeps(Apply(q, run[0]), run[1..]);
    }
  }

  /** The packets a run puts into the queue, in the order of the head exchanges. */
  ghost function Entered(q: Queue, run: seq<Action>): seq<Ptr>
    decreases run
  {
    if run == [] then []
    else
      (if run[0].SwapHead? && Pc(q, run[0].t).Cleared? then [Pc(q, run[0].t).nbl] else [])
      + Entered(Apply(q, run[0]), run[1..])
  }

  /** The packets a run hands to the consumer. */
  ghost function Got(q: Queue, run: seq<Action>): seq<Ptr>
    decreases run
  {
    if run == [] then []
    else
      (if run[0].Acknowledge? && q.consumer.Returned? && q.consumer.result.Some? then [q.consumer.result.value] else [])
      + Got(Apply(q, run[0]), run[1..])
  }

  /** What the consumer has acknowledged. */
  function Taken(q: Queue): seq<Ptr> {
    if q.consumer.Returned? && q.consumer.result.Some? && q.returned != []
    then q.returned[..|q.returned| - 1] else q.returned
  }

  lemma StepEntered(q: Queue, a: Action)
    requires Inv(q) && Enabled(q, a)
    ensures Items(Apply(q, a).chain.hist) == Items(q.chain.hist) + Entered(q, [a])
  {
    hide ChainInv, HolderInv, OwedInv, ConsumerInv, CountInv, OrderInv, Items;
    assert Entered(Apply(q, a), [a][1..]) == [];
    if a.SwapHead? {
      var n := Pc(q, a.t).nbl;
      assert ProducerFits(q.chain, a.t, q.producers[a.t]);
      ItemsConcat(q.chain.hist, [n]);
      ItemsOne(n);
    } else if a.Consume? && q.consumer.Swapping? {
      ItemsConcat(q.chain.hist, [Stub]);
      ItemsOne(Stub);
    } else {
      assert Apply(q, a).chain.hist == q.chain.hist;
    }
  }

  lemma StepTaken(q: Queue, a: Action)
    requires Inv(q) && Enabled(q, a)
    ensures Taken(Apply(q, a)) == Taken(q) + Got(q, [a])
  {
    hide ChainInv, ProducerInv, HolderInv, OwedInv, CountInv, OrderInv, Items;
    if a.Consume? && q.consumer.Decrementing? {
      assert (q.returned + [q.consumer.item])[..|q.returned|] == q.returned;
    }
  }

  lemma {:induction false} RunHistory(q: Queue, run: seq<Action>)
    requires Inv(q) && Legal(q, run)
    ensures Items(Run(q, run).chain.hist) == Items(q.chain.hist) + Entered(q, run)
    ensures Taken(Run(q, run)) == Taken(q) + Got(q, run)
    decreases run
  {
    hide Inv, Items, Taken, Enabled, Apply;
    if run != [] {
      StepKeeps(q, run[0]);
      StepEntered(q, run[0]);
      StepTaken(q, run[0]);
      RunHistory(Apply(q, run[0]), run[1..]);
      assert Entered(q, [run[0]]) + Entered(Apply(q, run[0]), run[1..]) == Entered(q, run);
      assert Got(q, [run[0]]) + Got(Apply(q, run[0]), run[1..]) == Got(q, run);
    }
  }

  lemma TakenSplit(q: Queue)
    requires q.chain.base <= |q.chain.hist| && ConsumerInv(q) && OrderInv(q)
    ensures Items(q.chain.hist) == Taken(q) + Unacknowledged(q) + Contents(q.chain)
  {
    var c := q.chain;
    assert c.hist == c.hist[..c.base] + c.hist[c.base..];
    ItemsConcat(c.hist[..c.base], c.hist[c.base..]);
    hide Items;
    if q.consumer.Returned? && q.consumer.result.Some? {
      assert q.returned == q.returned[..|q.returned| - 1] + [q.consumer.result.value];
    }
  }

  /** In every interleaving the consumer gets the packets in the order of the head exchanges, none
      lost, none twice; the counter is what the queue holds plus what is on its way in or out. */
  lemma RunIsFifo(run: seq<Action>)
    requires Legal(Empty, run)
    ensures var q := Run(Empty, run);
      && q.chain.base <= |q.chain.hist|
      && Entered(Empty, run) == Got(Empty, run) + Unacknowledged(q) + Contents(q.chain)
      && q.count == |Contents(q.chain)| + InFlight(q) <= MAX_QUEUED_PACKETS
  {
    hide Items, Run, Entered, Got, Contents, Unacknowledged, InFlight, Legal;
    var q := Run(Empty, run);
    EmptyInv();
    RunKeeps(Empty, run);
    RunHistory(Empty, run);
    TakenSplit(q);
    ItemsOne(Stub);
    assert Items(Empty.chain.hist) == [] && Taken(Empty) == [];
    assert Items(q.chain.hist) == [] + Entered(Empty, run) == Entered(Empty, run);
    assert Taken(q) == [] + Got(Empty, run) == Got(Empty, run);
  }

  /** A packet that has left the chain and not yet reached the caller. */
  function Unacknowledged(q: Queue): seq<Ptr> {
    match q.consumer
    case Decrementing(item) => [item]
    case Returned(Some(p)) => [p]
    case _ => []
  }

  // ---------------------------------------------------------------- when Dequeue returns NULL

  /** Nothing to take, or a producer is between its exchange and its link store. */
  ghost predicate Gap(q: Queue) {
    q.chain.base <= |q.chain.hist| && (Contents(q.chain) == [] || MidLink(q))
  }

  ghost predicate MidLink(q: Queue) {
    exists t :: t in q.producers && q.producers[t].Swapped?
  }

  /** What a call in progress knows: unless it has seen a producer mid-link, it will return NULL only
      on an empty queue. */
  ghost predicate CallFits(q: Queue, seen: bool) {
    seen ||
    match q.consumer
    case Comparing => q.chain.base + 1 == |q.chain.hist|
    case Clearing => q.chain.base + 1 == |q.chain.hist|
    case Swapping => q.chain.base + 1 == |q.chain.hist|
    case Linking(prev, at) => at == q.chain.base + 1
    case Rereading => q.chain.tail in q.chain.link
    case Returned(result) => result.None? ==> q.chain.base <= |q.chain.hist| && Contents(q.chain) == []
    case _ => true
  }

  /** A missing link at Tail means Tail is Head, or a producer is about to store that link. */
  lemma TailUnlinked(q: Queue)
    requires ChainInv(q.chain) && OwedInv(q)
    requires q.chain.tail !in q.chain.link && !q.consumer.Linking?
    ensures q.chain.base + 1 == |q.chain.hist| || MidLink(q)
  {
    if q.chain.base + 1 < |q.chain.hist| {
      assert LinkFits(q.chain, q.chain.base);
      assert q.chain.base + 1 in q.chain.owed;
    }
  }

  lemma OnlyTail(q: Queue)
    requires ChainInv(q.chain) && q.chain.base + 1 == |q.chain.hist|
    ensures Contents(q.chain) == if q.chain.tail.Nbl? then [q.chain.tail] else []
  {
    assert q.chain.hist[q.chain.base..] == [q.chain.tail];
    ItemsOne(q.chain.tail);
  }

  /** An access that finds Tail unlinked leaves the chain as it was and has seen why. */
  lemma CallUnlinked(q: Queue, seen: bool)
    requires ChainInv(q.chain) && OwedInv(q) && Enabled(q, Consume) && CallFits(q, seen)
    requires q.chain.tail !in q.chain.link && !q.consumer.Linking? && !q.consumer.Swapping? && !q.consumer.Clearing?
    ensures CallFits(Apply(q, Consume), seen || MidLink(Apply(q, Consume)))
  {
    var q' := Apply(q, Consume);
    assert q'.producers == q.producers && q'.chain == q.chain;
    assert MidLink(q) ==> MidLink(q');
    TailUnlinked(q);
    if q.chain.base + 1 == |q.chain.hist| { OnlyTail(q); }
    hide Items, OwedInv, Contents;
  }

  lemma CallConsume(q: Queue, seen: bool)
    requires ChainInv(q.chain) && OwedInv(q) && ConsumerInv(q) && Enabled(q, Consume) && CallFits(q, seen)
    ensures CallFits(Apply(q, Consume), seen || MidLink(Apply(q, Consume)))
  {
    hide Items, OwedInv, Contents, LinkFits;
    if q.chain.tail !in q.chain.link && !q.consumer.Linking? && !q.consumer.Swapping? && !q.consumer.Clearing? {
      CallUnlinked(q, seen);
    }
  }

  lemma CallStep(q: Queue, a: Action, seen: bool)
    requires Inv(q) && Enabled(q, a) && !a.Acknowledge? && CallFits(q, seen)
    ensures CallFits(Apply(q, a), seen || MidLink(Apply(q, a)))
  {
    hide Items, HolderInv, CountInv, OrderInv, ConsumeStep;
    var q' := Apply(q, a);
    match a
    case ClearLink(t) => assert ProducerFits(q.chain, t, q.producers[t]);
    case SwapHead(t) => assert t in q'.producers && q'.producers[t].Swapped?; assert MidLink(q');
    case Consume => CallConsume(q, seen);
    case _ =>
  }

  /** Some state of the run, from the first to the last, has a gap. */
  ghost predicate SeesGap(q: Queue, run: seq<Action>)
    decreases run
  {
    Gap(q) || (run != [] && SeesGap(Apply(q, run[0]), run[1..]))
  }

  ghost predicate OneCall(run: seq<Action>) {
    forall i :: 0 <= i < |run| ==> !run[i].Acknowledge?
  }

  lemma {:induction false} CallRun(q: Queue, run: seq<Action>, seen: bool)
    requires Inv(q) && Legal(q, run) && OneCall(run)
    requires CallFits(q, seen) && (Gap(q) ==> seen)
    ensures CallFits(Run(q, run), seen || SeesGap(q, run))
    ensures Gap(Run(q, run)) ==> SeesGap(q, run)
    decreases run
  {
    hide Inv, Apply, Enabled;
    if run != [] {
      CallStep(q, run[0], seen);
      StepKeeps(q, run[0]);
      var q' := Apply(q, run[0]);
      CallMonotone(q', seen);
      hide Gap, CallFits;
      CallRun(q', run[1..], seen || Gap(q'));
      assert SeesGap(q', run[1..]) ==> SeesGap(q, run);
      assert Gap(q') ==> SeesGap(q', run[1..]);
    }
  }

  lemma CallMonotone(q: Queue, seen: bool)
    requires Inv(q) && CallFits(q, seen || MidLink(q))
    ensures CallFits(q, seen || Gap(q))
  {
  }

  /** A Dequeue call that returns NULL overlaps an instant at which the queue was empty or a
      producer was between its head exchange and its link store. */
  lemma NullIsExcused(before: seq<Action>, call: seq<Action>)
    requires Legal(Empty, before) && Run(Empty, before).consumer.Rest?
    requires Legal(Run(Empty, before), call) && OneCall(call)
    requires Run(Run(Empty, before), call).consumer == Returned(None)
    ensures SeesGap(Run(Empty, before), call)
  {
    var q := Run(Empty, before);
    EmptyInv();
    RunKeeps(Empty, before);
    hide Run, Legal, SeesGap, Inv;
    CallRun(q, call, Gap(q));
  }

  /** At the instant of the return itself there may be no gap: exactly when the call leaves through
      the comparison with Head and the producer it overlapped has stored its link meanwhile. */
  lemma NullAtReturn(q: Queue)
    requires Inv(q) && Enabled(q, Consume) && Apply(q, Consume).consumer == Returned(None)
    ensures Gap(Apply(q, Consume)) <==> !(q.consumer.Comparing? && !MidLink(q))
  {
    hide Items, HolderInv, CountInv, OrderInv, ProducerInv;
    var q' := Apply(q, Consume);
    assert q'.chain == q.chain && q'.producers == q.producers;
    assert MidLink(q) <==> MidLink(q');
    if q.consumer.Comparing? {
      TailContents(q.chain);
    } else {
      TailUnlinked(q);
      if q.chain.base + 1 == |q.chain.hist| { OnlyTail(q); }
    }
  }

  lemma TailContents(c: Chain)
    requires ChainInv(c) && c.tail.Nbl?
    ensures Contents(c) != []
  {
    assert c.hist[c.base..] == [c.tail] + c.hist[c.base + 1..];
    ItemsConcat([c.tail], c.hist[c.base + 1..]);
    ItemsOne(c.tail);
  }

  lemma {:induction false} Extend(q: Queue, run: seq<Action>, a: Action)
    requires Legal(q, run) && Enabled(Run(q, run), a)
    ensures Legal(q, run + [a]) && Run(q, run + [a]) == Apply(Run(q, run), a)
    decreases run
  {
    hide Enabled, Apply;
    if run == [] {
      assert run + [a] == [a] && [a][1..] == [];
    } else {
      Extend(Apply(q, run[0]), run[1..], a);
      assert (run + [a])[1..] == run[1..] + [a];
    }
  }

  ghost predicate Reachable(q: Queue) {
    exists run :: Legal(Empty, run) && Run(Empty, run) == q
  }

  lemma ReachableStep(q: Queue, a: Action)
    requires Reachable(q) && Enabled(q, a)
    ensures Reachable(Apply(q, a))
  {
    hide Enabled, Apply;
    var run :| Legal(Empty, run) && Run(Empty, run) == q;
    Extend(Empty, run, a);
  }

  /** A whole enqueue, with nothing in between. */
  lemma ReachableEnqueue(q: Queue, n: Ptr)
    requires Reachable(q) && Enabled(q, Count(0, n))
    ensures var c := Exchange(ClearNext(q.chain, n), n, Some(0));
      Reachable(q.(chain := StoreNext(c, q.chain.head, n, |q.chain.hist|), count := q.count + 1,
                   producers := q.producers - {0}, holder := q.holder - {n}))
  {
    hide Reachable;
    var q1 := Apply(q, Count(0, n));
    var q2 := Apply(q1, ClearLink(0));
    var q3 := Apply(q2, SwapHead(0));
    var q4 := Apply(q3, StoreLink(0));
    ReachableStep(q, Count(0, n));
    ReachableStep(q1, ClearLink(0));
    ReachableStep(q2, SwapHead(0));
    ReachableStep(q3, StoreLink(0));
    assert q.producers - {0} == q4.producers;
    assert q.holder - {n} == q4.holder;
  }

  /** Such a return happens: a producer enqueues a packet in full between the consumer's read of the
      missing link and its read of Head. */
  lemma NullWithoutGap()
    ensures exists q ::
      Reachable(q) && Enabled(q, Consume) && Apply(q, Consume).consumer == Returned(None) && !Gap(Apply(q, Consume))
  {
    hide Items;
    assert Legal(Empty, []) && Run(Empty, []) == Empty;
    assert Reachable(Empty);
    hide Reachable;
    var a, b := Nbl(0, 0), Nbl(0, 1);
    var none: map<ThreadId, Producer>, free: map<Ptr, ThreadId> := map[], map[];
    ReachableEnqueue(Empty, a);
    var q1 := Queue(Chain(a, Stub, map[Stub := a], [Stub, a], 0, map[Stub := 0, a := 1], map[]), 1, none, Rest, free, []);
    assert Reachable(q1) by { assert Empty.chain.link - {a} == map[]; }
    ReachableStep(q1, Consume);
    var q2 := Apply(q1, Consume);
    ReachableStep(q2, Consume);
    var q3 := Apply(q2, Consume);
    assert q3.consumer == Comparing;
    ReachableEnqueue(q3, b);
    var q4 := Queue(Chain(b, a, map[Stub := a, a := b], [Stub, a, b], 1, map[Stub := 0, a := 1, b := 2], map[]),
                    2, none, Comparing, free, []);
    assert Reachable(q4) by { assert q3.chain.link - {b} == q3.chain.link; }
    ItemsConcat([a], [b]);
    ItemsOne(a);
    assert q4.chain.hist[1..] == [a] + [b];
    assert Contents(q4.chain) != [];
    assert Apply(q4, Consume).chain == q4.chain;
    assert !Gap(Apply(q4, Consume));
  }
}
