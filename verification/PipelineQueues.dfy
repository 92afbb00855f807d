/** The per-peer queues inside the pipeline: every queue keeps the invariant of its own module, its
    producers are the threads that carry its packets, and no packet enters a queue twice. */
module PipelineQueues {
  import opened PrevQueue
  import opened Pipeline
  import opened PipelineCustody
  import opened PipelineService

  // ---------------------------------------------------------------- what a step does to threads and places

  /** The packet whose place a step changes, and its new place. */
  function Settle(s: State, a: Step): Option<(Ptr, Place)>
    requires Can(s, a)
  {
    match a
    case Insert(t, n) => Some((n, Entering(t)))
    case Enqueue(t) => EnqueueSettle(s, t, s.threads[t].nbl, s.threads[t].batch)
    case Mark(t, ok) =>
      var b := s.batches[s.threads[t].batch];
      Some((b.items[b.marked], Marked(t)))
    case Wake(t) => Some((s.threads[t].nbl, Told))
    case _ => None
  }

  function EnqueueSettle(s: State, t: ThreadId, n: Ptr, k: nat): Option<(Ptr, Place)>
    requires n.Nbl? && k < |s.batches|
  {
    match EnqueueAction(Q(s, n.peer), t, n)
    case Refuse(_) => Some((n, Dropped))
    case StoreLink(_) => Some((n, Chained(k, |s.batches[k].items|)))
    case _ => None
  }

  function Settled(places: map<Ptr, Place>, change: Option<(Ptr, Place)>): map<Ptr, Place> {
    if change.None? then places else places[change.value.0 := change.value.1]
  }

  /** Only thread t moves; a thread that stays inside PrevQueueEnqueue does not. */
  ghost predicate OnlyMoves(s: State, s': State, t: ThreadId, stays: bool) {
    && (forall u :: u != t ==> (u in s'.threads <==> u in s.threads))
    && (forall u :: u != t && u in s.threads ==> s'.threads[u] == s.threads[u])
    && (stays ==> s'.threads == s.threads)
  }

  ghost predicate Fits(s: State, s': State, t: ThreadId, stays: bool, change: Option<(Ptr, Place)>) {
    OnlyMoves(s, s', t, stays) && s'.place == Settled(s.place, change)
  }

  lemma GotoFits(s: State, t: ThreadId, th: Thread)
    ensures Fits(s, Goto(s, t, th), t, false, None)
  {
  }

  lemma LeaveFits(s: State, t: ThreadId)
    ensures Fits(s, Leave(s, t), t, false, None)
  {
  }

  lemma LeaveOwnedFits(s: State, t: ThreadId, k: nat, o: Owner)
    requires k < |s.batches|
    ensures Fits(s, Leave(Owned(s, k, o), t), t, false, None)
  {
  }

  lemma GotoOwnedFits(s: State, t: ThreadId, k: nat, o: Owner, th: Thread)
    requires k < |s.batches|
    ensures Fits(s, Goto(Owned(s, k, o), t, th), t, false, None)
  {
  }

  lemma AcceptedFits(s: State, t: ThreadId, k: nat)
    requires k < |s.batches|
    ensures Fits(s, Accepted(s, t, k), t, false, None)
  {
  }

  lemma FetchedFits(s: State, t: ThreadId)
    requires s.ring != [] && s.ring[0] < |s.batches|
    ensures Fits(s, Fetched(s, t), t, false, None)
  {
  }

  lemma RefusedFits(s: State, t: ThreadId, n: Ptr, k: nat)
    ensures Fits(s, Refused(s, t, n, k), t, false, Some((n, Dropped)))
  {
  }

  lemma ProducedFits(s: State, t: ThreadId, p: nat, access: Action)
    ensures Fits(s, Produced(s, p, access), t, true, None)
  {
    hide Apply;
  }

  lemma LinkedFits(s: State, t: ThreadId, n: Ptr, k: nat)
    requires n.Nbl? && k < |s.batches|
    ensures Fits(s, Linked(s, t, n, k), t, false, Some((n, Chained(k, |s.batches[k].items|))))
  {
    hide Apply;
  }

  lemma PoppedFits(s: State, t: ThreadId, final: bool)
    requires s.serial.list != []
    ensures Fits(s, Popped(s, t, final), t, false, None)
  {
  }

  lemma ConsumedFits(s: State, t: ThreadId, p: nat)
    ensures Fits(s, Consumed(s, p), t, true, None)
  {
    hide Apply;
  }

  lemma GotNullFits(s: State, t: ThreadId, p: nat, th: Thread)
    ensures Fits(s, GotNull(s, t, p, th), t, false, None)
  {
    hide Apply;
  }

  lemma GotItemFits(s: State, t: ThreadId, p: nat, n: Ptr, th: Thread)
    ensures Fits(s, GotItem(s, t, p, n, th), t, false, None)
  {
    hide Apply;
  }

  lemma ReleasedFits(s: State, t: ThreadId, p: nat, n: Ptr, good: bool, th: Thread)
    ensures Fits(s, Released(s, t, p, n, good, th), t, false, None)
  {
  }

  predicate Finishes(access: Action) {
    access.Refuse? || access.StoreLink?
  }

  /** The thread keeps its place in its call: one more access inside PrevQueueEnqueue or Dequeue. */
  predicate Stays(s: State, a: Step)
    requires Can(s, a)
  {
    match a
    case Enqueue(t) => !Finishes(EnqueueAction(Q(s, s.threads[t].nbl.peer), t, s.threads[t].nbl))
    case _ => false
  }

  lemma EnqueueFits(s: State, t: ThreadId, n: Ptr, k: nat)
    requires n.Nbl? && k < |s.batches|
    ensures Fits(s, EnqueueStep(s, t, n, k), t, !Finishes(EnqueueAction(Q(s, n.peer), t, n)), EnqueueSettle(s, t, n, k))
  {
    hide Fits, Apply, Q, Refused, Produced, Linked, Pc;
    RefusedFits(s, t, n, k);
    LinkedFits(s, t, n, k);
    ProducedFits(s, t, n.peer, EnqueueAction(Q(s, n.peer), t, n));
  }

  lemma FitsMore(s: State, s': State, t: ThreadId, change: Option<(Ptr, Place)>)
    requires Fits(s, s', t, true, change)
    ensures Fits(s, s', t, false, change)
  {
  }

  lemma PeekFits(s: State, t: ThreadId, p: nat, budget: nat, final: bool)
    ensures Fits(s, PeekStep(s, t, p, budget, final), t, false, None)
  {
    hide Fits, Q, Consumed, GotNull, GotItem;
    ConsumedFits(s, t, p);
    FitsMore(s, Consumed(s, p), t, None);
    var c := Q(s, p).consumer;
    if c.Returned? && c.result.None? { GotNullFits(s, t, p, Retiring(p, false, final)); }
    if c.Returned? && c.result.Some? { GotItemFits(s, t, p, c.result.value, Judging(p, budget, final)); }
  }

  lemma JudgeFits(s: State, t: ThreadId, p: nat, budget: nat, final: bool, valid: bool)
    requires p in s.peeked && s.peeked[p] in s.crypt
    ensures Fits(s, JudgeStep(s, t, p, budget, final, valid), t, false, None)
  {
    hide Fits, Goto, Released;
    GotoFits(s, t, Retiring(p, false, final));
    GotoFits(s, t, Retiring(p, true, final));
    if budget > 0 { ReleasedFits(s, t, p, s.peeked[p], GoesUp(s, s.peeked[p], valid), Peeking(p, budget - 1, final)); }
  }

  lemma ServeFits(s: State, t: ThreadId, final: bool)
    ensures Fits(s, ServeStep(s, t, final), t, false, None)
  {
    hide Fits, Popped, Leave, Goto;
    if s.serial.list != [] { PoppedFits(s, t, final); }
    LeaveFits(s, t);
    GotoFits(s, t, Fetching);
  }

  lemma HandFits(s: State, t: ThreadId, k: nat, ok: bool)
    requires k < |s.batches|
    ensures Fits(s, HandStep(s, t, k, ok), t, false, None)
  {
    hide Fits, Accepted, Leave, Goto;
    LeaveOwnedFits(s, t, k, Gone);
    AcceptedFits(s, t, k);
    GotoFits(s, t, Marking(k, false));
  }

  lemma EndFits(s: State, t: ThreadId, k: nat, worker: bool)
    requires k < |s.batches|
    ensures Fits(s, EndStep(s, t, k, worker), t, false, None)
  {
    hide Fits, Goto;
    GotoOwnedFits(s, t, k, Gone, Serving(false));
    GotoOwnedFits(s, t, k, Gone, Bumping);
  }

  lemma FetchFits(s: State, t: ThreadId)
    requires s.ring != [] ==> s.ring[0] < |s.batches|
    ensures Fits(s, FetchStep(s, t), t, false, None)
  {
    hide Fits, Goto, Fetched;
    GotoFits(s, t, Serving(true));
    if s.ring != [] { FetchedFits(s, t); }
  }

  lemma StepFits(s: State, a: Step)
    requires Can(s, a)
    ensures Fits(s, Next(s, a), a.t, Stays(s, a), Settle(s, a))
  {
    hide EnqueueStep, HandStep, EndStep, FetchStep, ServeStep, PeekStep, JudgeStep, EnqueueSettle, EnqueueAction;
    match a
    case Enqueue(t) => EnqueueFits(s, t, s.threads[t].nbl, s.threads[t].batch);
    case Hand(t, ok) => HandFits(s, t, s.threads[t].batch, ok);
    case EndBatch(t) => EndFits(s, t, s.threads[t].batch, s.threads[t].worker);
    case Fetch(t) => FetchFits(s, t);
    case Serve(t) => ServeFits(s, t, s.threads[t].final);
    case Peek(t) => PeekFits(s, t, s.threads[t].peer, s.threads[t].budget, s.threads[t].final);
    case Judge(t, valid) => JudgeFits(s, t, s.threads[t].peer, s.threads[t].budget, s.threads[t].final, valid);
    case _ =>
  }

  // ---------------------------------------------------------------- the invariant

  /** The producers of p's queue are threads inside PrevQueueEnqueue with a packet of p. */
  ghost predicate Homed(s: State, p: nat, q: Queue) {
    forall t :: t in q.producers ==>
      && !q.producers[t].Idle? && t in s.threads && s.threads[t].Enqueuing?
      && s.threads[t].nbl == q.producers[t].nbl && s.threads[t].nbl.Nbl? && s.threads[t].nbl.peer == p
  }

  /** A packet that has been exchanged into p's queue. */
  ghost predicate LodgedAs(s: State, p: nat, q: Queue, n: Ptr) {
    && n.Nbl? && n.peer == p && n in s.place
    && match s.place[n]
       case Entering(t) => Pc(q, t).Swapped? && Pc(q, t).nbl == n
       case Dropped => false
       case _ => true
  }

  ghost predicate Lodged(s: State, p: nat, q: Queue) {
    forall n :: n in q.chain.pos && n.Nbl? ==> LodgedAs(s, p, q, n)
  }

  /** No packet was ever exchanged into Head twice. */
  ghost predicate Once(c: Chain) {
    forall i :: 0 <= i < |c.hist| ==> c.hist[i] in c.pos && (c.hist[i].Nbl? ==> c.pos[c.hist[i]] == i)
  }

  ghost predicate QueueFits(s: State, p: nat) {
    var q := Q(s, p);
    Inv(q) && Once(q.chain) && Homed(s, p, q) && Lodged(s, p, q)
  }

  /** A packet past its inserter was put into its peer's queue. */
  ghost predicate Present(s: State) {
    forall n :: n in s.place && !s.place[n].Entering? && !s.place[n].Dropped? ==>
      n.Nbl? && n in Q(s, n.peer).chain.pos
  }

  ghost predicate Queues(s: State) {
    (forall p: nat :: QueueFits(s, p)) && Present(s)
  }

  // ---------------------------------------------------------------- accesses

  /** The packet an access puts into the queue. */
  function Puts(q: Queue, access: Action): Option<Ptr> {
    if access.SwapHead? && Pc(q, access.t).Cleared? then Some(Pc(q, access.t).nbl) else None
  }

  /** What an access does to the packets ever exchanged, and to the producers. */
  ghost predicate AccessFits(q: Queue, q': Queue, access: Action) {
    && (forall n: Ptr :: n.Nbl? ==> (n in q'.chain.pos <==> n in q.chain.pos || Puts(q, access) == Some(n)))
    && match access
       case Count(t, n) => q'.producers == q.producers[t := Counted(n)]
       case ClearLink(t) => Pc(q, t).Counted? && q'.producers == q.producers[t := Cleared(Pc(q, t).nbl)]
       case SwapHead(t) =>
         && Pc(q, t).Cleared?
         && q'.producers == q.producers[t := Swapped(Pc(q, t).nbl, q.chain.head, |q.chain.hist|)]
       case StoreLink(t) => Pc(q, t).Swapped? && q'.producers == q.producers - {t}
       case _ => q'.producers == q.producers
  }

  lemma AccessEffect(q: Queue, access: Action)
    requires Enabled(q, access)
    ensures AccessFits(q, Apply(q, access), access)
  {
  }

  lemma ExchangeOnce(c: Chain, p: Ptr, who: Option<ThreadId>)
    requires Once(c) && (p.Nbl? ==> p !in c.pos)
    ensures Once(Exchange(c, p, who))
  {
  }

  /** Only the two exchanges lengthen the history of the chain. */
  lemma SameHistory(q: Queue, access: Action)
    requires Enabled(q, access) && !access.SwapHead? && !(access.Consume? && q.consumer.Swapping?)
    ensures Apply(q, access).chain.hist == q.chain.hist && Apply(q, access).chain.pos == q.chain.pos
  {
    if access.Consume? { ConsumeHistory(q); }
    hide ConsumeStep, Pc;
  }

  lemma ConsumeHistory(q: Queue)
    requires !q.consumer.Swapping?
    ensures ConsumeStep(q).chain.hist == q.chain.hist && ConsumeStep(q).chain.pos == q.chain.pos
  {
    hide TakeTail, Advance, ClearNext, StoreNext, Exchange;
    if q.chain.tail in q.chain.link { TakeHistory(q); }
    ClearHistory(q.chain);
    if q.consumer.Linking? { StoreHistory(q.chain, q.consumer.prev, q.consumer.at); }
  }

  lemma TakeHistory(q: Queue)
    requires q.chain.tail in q.chain.link
    ensures TakeTail(q).chain.hist == q.chain.hist && TakeTail(q).chain.pos == q.chain.pos
    ensures Advance(q.chain).hist == q.chain.hist && Advance(q.chain).pos == q.chain.pos
  {
  }

  lemma ClearHistory(c: Chain)
    ensures ClearNext(c, Stub).hist == c.hist && ClearNext(c, Stub).pos == c.pos
  {
  }

  lemma StoreHistory(c: Chain, prev: Ptr, at: nat)
    ensures StoreNext(c, prev, Stub, at).hist == c.hist && StoreNext(c, prev, Stub, at).pos == c.pos
  {
  }

  lemma AccessOnce(q: Queue, access: Action)
    requires Enabled(q, access) && Once(q.chain)
    requires Puts(q, access).Some? ==> Puts(q, access).value !in q.chain.pos
    ensures Once(Apply(q, access).chain)
  {
    if access.SwapHead? {
      ExchangeOnce(q.chain, Pc(q, access.t).nbl, Some(access.t));
    } else if access.Consume? && q.consumer.Swapping? {
      ExchangeOnce(q.chain, Stub, None);
    } else {
      SameHistory(q, access);
      hide Apply, Enabled;
    }
  }

  // ---------------------------------------------------------------- every step keeps it

  /** A packet about to enter p's queue has not been there, and nobody else carries it. */
  lemma NotYetQueued(s: State, t: ThreadId, n: Ptr, q: Queue)
    requires CarrierInv(s) && t in s.threads && s.threads[t].Enqueuing? && s.threads[t].nbl == n && n.Nbl?
    requires Homed(s, n.peer, q) && Lodged(s, n.peer, q) && HolderInv(q) && !Pc(q, t).Swapped?
    ensures n !in q.chain.pos
    ensures Pc(q, t).Idle? ==> n !in q.holder
  {
    CarrierOf(s, t);
    assert n in q.chain.pos ==> LodgedAs(s, n.peer, q, n);
    if Pc(q, t).Idle? && n in q.holder {
      var u := q.holder[n];
      assert Pc(q, u).nbl == n;
      CarrierOf(s, u);
    }
  }

  lemma AccessEnabled(s: State, t: ThreadId, n: Ptr, q: Queue)
    requires CarrierInv(s) && t in s.threads && s.threads[t].Enqueuing? && s.threads[t].nbl == n && n.Nbl?
    requires Homed(s, n.peer, q) && Lodged(s, n.peer, q) && HolderInv(q)
    ensures Enabled(q, EnqueueAction(q, t, n))
  {
    if Pc(q, t).Idle? { NotYetQueued(s, t, n, q); }
  }

  /** A thread that carries a packet may make its next access. */
  lemma EnqueueEnabled(s: State, t: ThreadId)
    requires Custody(s) && Can(s, Enqueue(t)) && QueueFits(s, s.threads[t].nbl.peer)
    ensures Enabled(Q(s, s.threads[t].nbl.peer), EnqueueAction(Q(s, s.threads[t].nbl.peer), t, s.threads[t].nbl))
  {
    var n := s.threads[t].nbl;
    hide ChainInv, ProducerInv, HolderInv, OwedInv, ConsumerInv, CountInv, OrderInv, Once, Homed, Lodged, CarrierInv, BatchInv, PlaceInv, Enabled, EnqueueAction;
    AccessEnabled(s, t, n, Q(s, n.peer));
  }

  /** A step that lets q alone, made by a thread that is not one of its producers. */
  lemma RestQueue(s: State, s': State, r: nat, q: Queue, t: ThreadId, change: Option<(Ptr, Place)>)
    requires Fits(s, s', t, false, change)
    requires Homed(s, r, q) && Lodged(s, r, q) && t !in q.producers
    requires change.Some? && (change.value.1.Entering? || change.value.1.Dropped?) ==> change.value.0 !in q.chain.pos
    ensures Homed(s', r, q) && Lodged(s', r, q)
  {
    forall n | n in q.chain.pos && n.Nbl? ensures LodgedAs(s', r, q, n) {
      assert LodgedAs(s, r, q, n);
    }
  }

  /** The consumer's accesses. */
  lemma ServedQueue(s: State, p: nat, q: Queue, q': Queue, access: Action)
    requires AccessFits(q, q', access) && (access.Consume? || access.Acknowledge?)
    requires Homed(s, p, q) && Lodged(s, p, q)
    ensures Homed(s, p, q') && Lodged(s, p, q')
  {
    forall n | n in q'.chain.pos && n.Nbl? ensures LodgedAs(s, p, q', n) {
      assert LodgedAs(s, p, q, n);
    }
  }

  /** t's accesses on the way in. */
  lemma EnteredQueue(s: State, s': State, t: ThreadId, n: Ptr, q: Queue, q': Queue, access: Action)
    requires Fits(s, s', t, true, None)
    requires t in s.threads && CarrierFits(s, t, s.threads[t]) && s.threads[t].Enqueuing? && s.threads[t].nbl == n && n.Nbl?
    requires access == Count(t, n) || access == ClearLink(t) || access == SwapHead(t)
    requires AccessFits(q, q', access) && Homed(s, n.peer, q) && Lodged(s, n.peer, q)
    requires Enabled(q, access)
    ensures Homed(s', n.peer, q') && Lodged(s', n.peer, q')
  {
    forall m | m in q'.chain.pos && m.Nbl? ensures LodgedAs(s', n.peer, q', m) {
      if m in q.chain.pos { assert LodgedAs(s, n.peer, q, m); }
    }
  }

  /** t's last access: its packet now belongs to a chain. */
  lemma LeftQueue(s: State, s': State, t: ThreadId, n: Ptr, k: nat, j: nat, q: Queue, q': Queue)
    requires Fits(s, s', t, false, Some((n, Chained(k, j))))
    requires t in s.threads && CarrierFits(s, t, s.threads[t]) && s.threads[t].Enqueuing? && s.threads[t].nbl == n && n.Nbl?
    requires AccessFits(q, q', StoreLink(t)) && Homed(s, n.peer, q) && Lodged(s, n.peer, q)
    ensures Homed(s', n.peer, q') && Lodged(s', n.peer, q')
  {
    forall m | m in q'.chain.pos && m.Nbl? ensures LodgedAs(s', n.peer, q', m) {
      assert LodgedAs(s, n.peer, q, m);
    }
  }

  /** Only a thread inside PrevQueueEnqueue is a producer, and of one queue only. */
  lemma NotProducer(s: State, t: ThreadId, r: nat, q: Queue)
    requires Homed(s, r, q)
    requires t in s.threads && s.threads[t].Enqueuing? ==> s.threads[t].nbl.Nbl? && s.threads[t].nbl.peer != r
    ensures t !in q.producers
  {
  }

  lemma TouchedEnabled(s: State, a: Step)
    requires Custody(s) && Queues(s) && Can(s, a) && Touch(s, a).Some?
    ensures Enabled(Q(s, Touch(s, a).value.0), Touch(s, a).value.1)
  {
    hide Custody, Inv, Once, Homed, Lodged, Present, EnqueueAction, Q;
    if a.Enqueue? { EnqueueEnabled(s, a.t); }
  }

  /** The queue itself. */
  lemma QueueCore(s: State, a: Step, r: nat)
    requires Custody(s) && Queues(s) && Can(s, a)
    ensures Inv(Q(Next(s, a), r)) && Once(Q(Next(s, a), r).chain)
  {
    hide Inv, Once, Homed, Present, Next, Can, Touch, Enabled, Apply, Puts, Custody, Q;
    StepTouches(s, a, r);
    assert QueueFits(s, r);
    if Touch(s, a).Some? && Touch(s, a).value.0 == r {
      var q, access := Q(s, r), Touch(s, a).value.1;
      TouchedEnabled(s, a);
      StepKeeps(q, access);
      PutsFresh(s, a);
      AccessOnce(q, access);
    }
  }

  lemma PutsFresh(s: State, a: Step)
    requires Custody(s) && Queues(s) && Can(s, a) && Touch(s, a).Some?
    ensures var q := Q(s, Touch(s, a).value.0);
      Puts(q, Touch(s, a).value.1).Some? ==> Puts(q, Touch(s, a).value.1).value !in q.chain.pos
  {
    hide Once, ChainInv, ProducerInv, OwedInv, ConsumerInv, CountInv, OrderInv, BatchInv, PlaceInv, Lodged, Present, Q;
    if a.Enqueue? {
      var n := s.threads[a.t].nbl;
      var q := Q(s, n.peer);
      assert QueueFits(s, n.peer);
      if Pc(q, a.t).Cleared? { NotYetQueued(s, a.t, n, q); }
    }
  }

  lemma SettleNew(s: State, a: Step, r: nat, q: Queue)
    requires CarrierInv(s) && Lodged(s, r, q) && HolderInv(q) && Homed(s, r, q) && Can(s, a)
    requires a.Enqueue? ==> Q(s, r) == q
    requires Settle(s, a).Some? && (Settle(s, a).value.1.Entering? || Settle(s, a).value.1.Dropped?)
    ensures Settle(s, a).value.0 !in q.chain.pos
  {
    hide Q, HolderInv;
    var n := Settle(s, a).value.0;
    assert n in q.chain.pos && n.Nbl? ==> LodgedAs(s, r, q, n);
    if a.Enqueue? && n.peer == r { NotYetQueued(s, a.t, n, q); }
  }

  lemma UntouchedHome(s: State, a: Step, r: nat)
    requires Custody(s) && QueueFits(s, r) && Can(s, a)
    requires Touch(s, a).Some? ==> Touch(s, a).value.0 != r
    ensures Homed(Next(s, a), r, Q(s, r)) && Lodged(Next(s, a), r, Q(s, r))
  {
    hide Homed, Lodged, Next, EnqueueSettle, EnqueueAction, Once, ChainInv, ProducerInv, HolderInv, OwedInv, ConsumerInv, CountInv, OrderInv, CarrierInv, BatchInv, PlaceInv, Fits, Q;
    StepFits(s, a);
    if Stays(s, a) { FitsMore(s, Next(s, a), a.t, Settle(s, a)); }
    NotProducer(s, a.t, r, Q(s, r));
    if Settle(s, a).Some? && (Settle(s, a).value.1.Entering? || Settle(s, a).value.1.Dropped?) {
      SettleNew(s, a, r, Q(s, r));
    }
    hide Settle;
    RestQueue(s, Next(s, a), r, Q(s, r), a.t, Settle(s, a));
  }

  lemma EnqueueHome(s: State, t: ThreadId)
    requires Custody(s) && Can(s, Enqueue(t)) && QueueFits(s, s.threads[t].nbl.peer)
    ensures var n := s.threads[t].nbl;
      var q' := Apply(Q(s, n.peer), EnqueueAction(Q(s, n.peer), t, n));
      Homed(Next(s, Enqueue(t)), n.peer, q') && Lodged(Next(s, Enqueue(t)), n.peer, q')
  {
    hide Homed, Lodged, Next, Once, ChainInv, ProducerInv, OwedInv, ConsumerInv, CountInv, OrderInv, BatchInv, PlaceInv, Fits, Q, Apply, AccessFits, Enabled;
    var n := s.threads[t].nbl;
    var q := Q(s, n.peer);
    var access := EnqueueAction(q, t, n);
    StepFits(s, Enqueue(t));
    EnqueueEnabled(s, t);
    AccessEffect(q, access);
    CarrierOf(s, t);
    var s', q' := Next(s, Enqueue(t)), Apply(q, access);
    if access.Refuse? {
      IdleNotProducer(s, n.peer, q, t);
      RefuseSame(q, t);
      SettleNew(s, Enqueue(t), n.peer, q);
      RestQueue(s, s', n.peer, q, t, Some((n, Dropped)));
    } else if access.StoreLink? {
      LeftQueue(s, s', t, n, s.threads[t].batch, |s.batches[s.threads[t].batch].items|, q, q');
    } else {
      EnteredQueue(s, s', t, n, q, q', access);
    }
  }

  lemma RefuseSame(q: Queue, t: ThreadId)
    ensures Apply(q, Refuse(t)) == q
  {
  }

  lemma IdleNotProducer(s: State, r: nat, q: Queue, t: ThreadId)
    requires Homed(s, r, q) && Pc(q, t).Idle?
    ensures t !in q.producers
  {
  }

  lemma PeekHome(s: State, t: ThreadId)
    requires Custody(s) && Queues(s) && Can(s, Peek(t))
    ensures var q' := Apply(Q(s, s.threads[t].peer), Touch(s, Peek(t)).value.1);
      Homed(Next(s, Peek(t)), s.threads[t].peer, q') && Lodged(Next(s, Peek(t)), s.threads[t].peer, q')
  {
    hide Custody, Homed, Lodged, Present, Next, Once, Inv, Fits, Q, Apply, AccessFits, Enabled;
    var p := s.threads[t].peer;
    var q, access := Q(s, p), Touch(s, Peek(t)).value.1;
    TouchedEnabled(s, Peek(t));
    AccessEffect(q, access);
    assert QueueFits(s, p);
    ServedQueue(s, p, q, Apply(q, access), access);
    StepFits(s, Peek(t));
    NotProducer(s, t, p, Apply(q, access));
    RestQueue(s, Next(s, Peek(t)), p, Apply(q, access), t, None);
  }

  lemma QueueHome(s: State, a: Step, r: nat)
    requires Custody(s) && Queues(s) && Can(s, a)
    ensures Homed(Next(s, a), r, Q(Next(s, a), r)) && Lodged(Next(s, a), r, Q(Next(s, a), r))
  {
    hide Custody, Homed, Lodged, Present, Next, Once, Inv, Q, Apply, EnqueueAction;
    assert QueueFits(s, r);
    StepTouches(s, a, r);
    if Touch(s, a).None? || Touch(s, a).value.0 != r { UntouchedHome(s, a, r); }
    else if a.Enqueue? { EnqueueHome(s, a.t); }
    else { PeekHome(s, a.t); }
  }

  /** Packets stay among those ever exchanged. */
  lemma PosGrows(s: State, a: Step, r: nat, n: Ptr)
    requires Custody(s) && Queues(s) && Can(s, a) && n.Nbl? && n in Q(s, r).chain.pos
    ensures n in Q(Next(s, a), r).chain.pos
  {
    hide Custody, Queues, Next, Q, Apply, EnqueueAction, Enabled;
    StepTouches(s, a, r);
    if Touch(s, a).Some? && Touch(s, a).value.0 == r {
      TouchedEnabled(s, a);
      AccessEffect(Q(s, r), Touch(s, a).value.1);
    }
  }

  lemma PresentKeeps(s: State, a: Step)
    requires Custody(s) && Queues(s) && Can(s, a)
    ensures Present(Next(s, a))
  {
    hide Custody, Next, Q, Apply, EnqueueAction, Enabled, Inv, Once, Homed, Lodged, Can, Settle;
    StepFits(s, a);
    var s' := Next(s, a);
    forall n | n in s'.place && !s'.place[n].Entering? && !s'.place[n].Dropped?
      ensures n.Nbl? && n in Q(s', n.peer).chain.pos
    {
      SettledPresent(s, a, n);
      PosGrows(s, a, n.peer, n);
    }
  }

  lemma SettledPresent(s: State, a: Step, n: Ptr)
    requires Custody(s) && Queues(s) && Can(s, a) && n in Settled(s.place, Settle(s, a))
    requires var pl := Settled(s.place, Settle(s, a))[n]; !pl.Entering? && !pl.Dropped?
    ensures n.Nbl? && n in Q(s, n.peer).chain.pos
  {
    hide Q, Once, ChainInv, HolderInv, OwedInv, ConsumerInv, CountInv, OrderInv, Homed, Lodged;
    if Settle(s, a).Some? && Settle(s, a).value.0 == n {
      match a
      case Enqueue(t) => LinkedPresent(s, t);
      case Mark(t, ok) => assert BatchFits(s, s.threads[t].batch);
      case Wake(t) => CarrierOf(s, t);
      case _ =>
    }
  }

  lemma LinkedPresent(s: State, t: ThreadId)
    requires Custody(s) && Queues(s) && Can(s, Enqueue(t)) && Pc(Q(s, s.threads[t].nbl.peer), t).Swapped?
    ensures s.threads[t].nbl in Q(s, s.threads[t].nbl.peer).chain.pos
  {
    hide Q, Custody, HolderInv, OwedInv, ConsumerInv, CountInv, OrderInv, Lodged, Present;
    var p := s.threads[t].nbl.peer;
    var q := Q(s, p);
    assert QueueFits(s, p);
    assert ProducerFits(q.chain, t, q.producers[t]);
  }

  lemma QueuesKeep(s: State, a: Step)
    requires Custody(s) && Queues(s) && Can(s, a)
    ensures Queues(Next(s, a))
  {
    var s' := Next(s, a);
    hide Custody, Homed, Lodged, Present, Next, Once, Inv, Q, Can;
    PresentKeeps(s, a);
    forall p: nat ensures QueueFits(s', p) {
      QueueCore(s, a, p);
      QueueHome(s, a, p);
    }
  }
}
