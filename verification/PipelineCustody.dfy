/** Who is responsible for every packet and every chain: an uncrypted packet is in its inserter's
    hands or in a chain somebody holds, a packet whose state is stored is told to the list of peers
    or about to be. */
module PipelineCustody {
  import opened PrevQueue
  import opened PeerSerial
  import opened Pipeline

  // ---------------------------------------------------------------- the invariant

  function BatchOf(th: Thread): Option<nat> {
    match th
    case Inserting(k) => Some(k)
    case Enqueuing(_, k) => Some(k)
    case Marking(k, _) => Some(k)
    case Waking(_, k, _) => Some(k)
    case _ => None
  }

  function PeerOf(th: Thread): Option<nat> {
    match th
    case Peeking(p, _, _) => Some(p)
    case Judging(p, _, _) => Some(p)
    case Retiring(p, _, _) => Some(p)
    case _ => None
  }

  ghost predicate PlacedAt(s: State, n: Ptr, place: Place) {
    n in s.place && s.place[n] == place
  }

  /** A thread holds the chain it works on. */
  ghost predicate CarrierFits(s: State, t: ThreadId, th: Thread) {
    && (BatchOf(th).Some? ==> BatchOf(th).value < |s.batches| && s.batches[BatchOf(th).value].owner == By(t))
    && (match th
        case Inserting(k) => s.batches[k].marked == 0
        case Enqueuing(n, k) => s.batches[k].marked == 0 && n.Nbl? && PlacedAt(s, n, Entering(t))
        case Waking(n, k, _) => n.Nbl? && PlacedAt(s, n, Marked(t))
        case _ => true)
  }

  ghost predicate CarrierInv(s: State) {
    forall t :: t in s.threads ==> CarrierFits(s, t, s.threads[t])
  }

  /** Packets of a chain not yet marked are where the history says, and somebody has the chain. */
  ghost predicate BatchFits(s: State, k: nat)
    requires k < |s.batches|
  {
    var b := s.batches[k];
    && b.marked <= |b.items|
    && (forall j :: b.marked <= j < |b.items| ==> PlacedAt(s, b.items[j], Chained(k, j)))
    && match b.owner
       case By(t) => t in s.threads && BatchOf(s.threads[t]) == Some(k)
       case InRing => k in s.ring
       case Gone => b.marked == |b.items|
  }

  ghost predicate BatchInv(s: State) {
    && (forall k :: 0 <= k < |s.batches| ==> BatchFits(s, k))
    && (forall i :: 0 <= i < |s.ring| ==> s.ring[i] < |s.batches| && s.batches[s.ring[i]].owner == InRing)
    && (forall i, j :: 0 <= i < j < |s.ring| ==> s.ring[i] != s.ring[j])
  }

  /** An uncrypted packet is in its inserter's hands or in a chain; a stored state is told or about to be. */
  ghost predicate PlaceFits(s: State, n: Ptr, place: Place) {
    && n.Nbl?
    && n in s.crypt
    && match place
       case Entering(t) => s.crypt[n].Uncrypted? && t in s.threads && s.threads[t].Enqueuing? && s.threads[t].nbl == n
       case Chained(k, j) => s.crypt[n].Uncrypted?
           && k < |s.batches| && s.batches[k].marked <= j < |s.batches[k].items| && s.batches[k].items[j] == n
       case Marked(t) => !s.crypt[n].Uncrypted? && t in s.threads && s.threads[t].Waking? && s.threads[t].nbl == n
       case Told => !s.crypt[n].Uncrypted?
       case Dropped => true
  }

  ghost predicate PlaceInv(s: State) {
    forall n :: n in s.place ==> PlaceFits(s, n, s.place[n])
  }

  ghost predicate Custody(s: State) {
    CarrierInv(s) && BatchInv(s) && PlaceInv(s)
  }

  // ---------------------------------------------------------------- chains and places

  /** The threads after t has moved to th, or has left. */
  function Moved(m: map<ThreadId, Thread>, t: ThreadId, th: Option<Thread>): map<ThreadId, Thread> {
    match th
    case None => m - {t}
    case Some(x) => m[t := x]
  }

  /** Only t moves, and it neither holds nor takes a chain. */
  ghost predicate MovesEmptyHanded(s: State, s': State, t: ThreadId, th: Option<Thread>) {
    && s'.threads == Moved(s.threads, t, th)
    && (t in s.threads ==> BatchOf(s.threads[t]).None?)
    && (th.Some? ==> BatchOf(th.value).None?)
    && s'.batches == s.batches && s'.ring == s.ring && s'.place == s.place && s'.crypt == s.crypt
  }

  lemma CustodyUntouched(s: State, s': State, t: ThreadId, th: Option<Thread>)
    requires Custody(s) && MovesEmptyHanded(s, s', t, th)
    ensures Custody(s')
  {
    forall k | 0 <= k < |s'.batches| ensures BatchFits(s', k) { assert BatchFits(s, k); }
    forall n | n in s'.place ensures PlaceFits(s', n, s'.place[n]) { assert PlaceFits(s, n, s.place[n]); }
  }

  lemma BeginCarrier(s: State, t: ThreadId)
    requires Custody(s) && Can(s, Begin(t))
    ensures CarrierInv(Next(s, Begin(t)))
  {
    hide InsertStep, EnqueueStep, HandStep, MarkStep, WakeStep, EndStep, FetchStep, ServeStep, PeekStep, JudgeStep, RetireStep;
    hide BatchInv, PlaceInv, Apply;
    var s' := Next(s, Begin(t));
    forall u | u in s'.threads ensures CarrierFits(s', u, s'.threads[u]) {
      if u in s.threads { assert CarrierFits(s, u, s.threads[u]); }
    }
  }

  lemma BeginBatch(s: State, t: ThreadId)
    requires Custody(s) && Can(s, Begin(t))
    ensures BatchInv(Next(s, Begin(t)))
  {
    hide InsertStep, EnqueueStep, HandStep, MarkStep, WakeStep, EndStep, FetchStep, ServeStep, PeekStep, JudgeStep, RetireStep;
    hide PlaceInv, Apply;
    var s' := Next(s, Begin(t));
    forall k | 0 <= k < |s'.batches| ensures BatchFits(s', k) {
      if k < |s.batches| { assert BatchFits(s, k); }
    }
  }

  lemma BeginPlace(s: State, t: ThreadId)
    requires Custody(s) && Can(s, Begin(t))
    ensures PlaceInv(Next(s, Begin(t)))
  {
    hide InsertStep, EnqueueStep, HandStep, MarkStep, WakeStep, EndStep, FetchStep, ServeStep, PeekStep, JudgeStep, RetireStep;
    hide BatchInv, Apply;
    var s' := Next(s, Begin(t));
    forall m | m in s'.place ensures PlaceFits(s', m, s'.place[m]) {
      if m in s.place { assert PlaceFits(s, m, s.place[m]); }
    }
  }

  lemma InsertCarrier(s: State, t: ThreadId, n: Ptr)
    requires Custody(s) && Can(s, Insert(t, n))
    ensures CarrierInv(Next(s, Insert(t, n)))
  {
    hide BeginStep, EnqueueStep, HandStep, MarkStep, WakeStep, EndStep, FetchStep, ServeStep, PeekStep, JudgeStep, RetireStep;
    hide BatchInv, PlaceInv, Apply;
    var s' := Next(s, Insert(t, n));
    forall u | u in s'.threads ensures CarrierFits(s', u, s'.threads[u]) {
      if u in s.threads { assert CarrierFits(s, u, s.threads[u]); }
    }
  }

  lemma InsertBatch(s: State, t: ThreadId, n: Ptr)
    requires Custody(s) && Can(s, Insert(t, n))
    ensures BatchInv(Next(s, Insert(t, n)))
  {
    hide BeginStep, EnqueueStep, HandStep, MarkStep, WakeStep, EndStep, FetchStep, ServeStep, PeekStep, JudgeStep, RetireStep;
    hide PlaceInv, Apply;
    var s' := Next(s, Insert(t, n));
    forall k | 0 <= k < |s'.batches| ensures BatchFits(s', k) {
      if k < |s.batches| { assert BatchFits(s, k); }
      if t in s.threads { assert CarrierFits(s, t, s.threads[t]); }
    }
  }

  lemma InsertPlace(s: State, t: ThreadId, n: Ptr)
    requires Custody(s) && Can(s, Insert(t, n))
    ensures PlaceInv(Next(s, Insert(t, n)))
  {
    hide BeginStep, EnqueueStep, HandStep, MarkStep, WakeStep, EndStep, FetchStep, ServeStep, PeekStep, JudgeStep, RetireStep;
    hide BatchInv, Apply;
    var s' := Next(s, Insert(t, n));
    forall m | m in s'.place ensures PlaceFits(s', m, s'.place[m]) {
      if m in s.place { assert PlaceFits(s, m, s.place[m]); }
      if t in s.threads { assert CarrierFits(s, t, s.threads[t]); }
    }
  }

  lemma RefuseCarrier(s: State, t: ThreadId)
    requires Custody(s) && Can(s, Enqueue(t))
    requires Pc(Q(s, s.threads[t].nbl.peer), t).Idle? && Q(s, s.threads[t].nbl.peer).count == MAX_QUEUED_PACKETS
    ensures CarrierInv(Next(s, Enqueue(t)))
  {
    hide BeginStep, InsertStep, HandStep, MarkStep, WakeStep, EndStep, FetchStep, ServeStep, PeekStep, JudgeStep, RetireStep;
    hide BatchInv, PlaceInv, Apply;
    var s' := Next(s, Enqueue(t));
    forall u | u in s'.threads ensures CarrierFits(s', u, s'.threads[u]) {
      if u in s.threads { assert CarrierFits(s, u, s.threads[u]); }
    }
  }

  lemma RefuseBatch(s: State, t: ThreadId)
    requires Custody(s) && Can(s, Enqueue(t))
    requires Pc(Q(s, s.threads[t].nbl.peer), t).Idle? && Q(s, s.threads[t].nbl.peer).count == MAX_QUEUED_PACKETS
    ensures BatchInv(Next(s, Enqueue(t)))
  {
    hide BeginStep, InsertStep, HandStep, MarkStep, WakeStep, EndStep, FetchStep, ServeStep, PeekStep, JudgeStep, RetireStep;
    hide PlaceInv, Apply;
    var s' := Next(s, Enqueue(t));
    forall k | 0 <= k < |s'.batches| ensures BatchFits(s', k) {
      if k < |s.batches| { assert BatchFits(s, k); }
      if t in s.threads { assert CarrierFits(s, t, s.threads[t]); }
    }
  }

  lemma RefusePlace(s: State, t: ThreadId)
    requires Custody(s) && Can(s, Enqueue(t))
    requires Pc(Q(s, s.threads[t].nbl.peer), t).Idle? && Q(s, s.threads[t].nbl.peer).count == MAX_QUEUED_PACKETS
    ensures PlaceInv(Next(s, Enqueue(t)))
  {
    hide BeginStep, InsertStep, HandStep, MarkStep, WakeStep, EndStep, FetchStep, ServeStep, PeekStep, JudgeStep, RetireStep;
    hide BatchInv, Apply;
    var s' := Next(s, Enqueue(t));
    forall m | m in s'.place ensures PlaceFits(s', m, s'.place[m]) {
      if m in s.place { assert PlaceFits(s, m, s.place[m]); }
      if t in s.threads { assert CarrierFits(s, t, s.threads[t]); }
    }
  }

  lemma StoreCarrier(s: State, t: ThreadId)
    requires Custody(s) && Can(s, Enqueue(t))
    requires Pc(Q(s, s.threads[t].nbl.peer), t).Swapped?
    ensures CarrierInv(Next(s, Enqueue(t)))
  {
    hide BeginStep, InsertStep, HandStep, MarkStep, WakeStep, EndStep, FetchStep, ServeStep, PeekStep, JudgeStep, RetireStep;
    hide BatchInv, PlaceInv, Apply;
    var s' := Next(s, Enqueue(t));
    forall u | u in s'.threads ensures CarrierFits(s', u, s'.threads[u]) {
      if u in s.threads { assert CarrierFits(s, u, s.threads[u]); }
    }
  }

  lemma StoreBatch(s: State, t: ThreadId)
    requires Custody(s) && Can(s, Enqueue(t))
    requires Pc(Q(s, s.threads[t].nbl.peer), t).Swapped?
    ensures BatchInv(Next(s, Enqueue(t)))
  {
    hide BeginStep, InsertStep, HandStep, MarkStep, WakeStep, EndStep, FetchStep, ServeStep, PeekStep, JudgeStep, RetireStep;
    hide PlaceInv, Apply;
    var s' := Next(s, Enqueue(t));
    forall k | 0 <= k < |s'.batches| ensures BatchFits(s', k) {
      if k < |s.batches| { assert BatchFits(s, k); }
      if t in s.threads { assert CarrierFits(s, t, s.threads[t]); }
    }
  }

  lemma StorePlace(s: State, t: ThreadId)
    requires Custody(s) && Can(s, Enqueue(t))
    requires Pc(Q(s, s.threads[t].nbl.peer), t).Swapped?
    ensures PlaceInv(Next(s, Enqueue(t)))
  {
    hide BeginStep, InsertStep, HandStep, MarkStep, WakeStep, EndStep, FetchStep, ServeStep, PeekStep, JudgeStep, RetireStep;
    hide BatchInv, Apply;
    var s' := Next(s, Enqueue(t));
    forall m | m in s'.place ensures PlaceFits(s', m, s'.place[m]) {
      if m in s.place { assert PlaceFits(s, m, s.place[m]); }
      if t in s.threads { assert CarrierFits(s, t, s.threads[t]); }
    }
  }

  lemma MarkCarrier(s: State, t: ThreadId, ok: bool)
    requires Custody(s) && Can(s, Mark(t, ok))
    ensures CarrierInv(Next(s, Mark(t, ok)))
  {
    hide BeginStep, InsertStep, EnqueueStep, HandStep, WakeStep, EndStep, FetchStep, ServeStep, PeekStep, JudgeStep, RetireStep;
    var s' := Next(s, Mark(t, ok));
    var n := s.batches[s.threads[t].batch].items[s.batches[s.threads[t].batch].marked];
    assert BatchFits(s, s.threads[t].batch);
    assert PlaceFits(s, n, s.place[n]);
    assert CarrierFits(s, t, s.threads[t]);
    hide PlaceInv;
    forall u | u in s'.threads ensures CarrierFits(s', u, s'.threads[u]) {
      assert CarrierFits(s, u, s.threads[u]);
    }
  }

  lemma MarkBatch(s: State, t: ThreadId, ok: bool)
    requires Custody(s) && Can(s, Mark(t, ok))
    ensures BatchInv(Next(s, Mark(t, ok)))
  {
    hide BeginStep, InsertStep, EnqueueStep, HandStep, WakeStep, EndStep, FetchStep, ServeStep, PeekStep, JudgeStep, RetireStep;
    hide PlaceInv, CarrierInv;
    var s' := Next(s, Mark(t, ok));
    assert BatchFits(s, s.threads[t].batch);
    forall k | 0 <= k < |s'.batches| ensures BatchFits(s', k) {
      assert BatchFits(s, k);
    }
  }

  lemma MarkPlace(s: State, t: ThreadId, ok: bool)
    requires Custody(s) && Can(s, Mark(t, ok))
    ensures PlaceInv(Next(s, Mark(t, ok)))
  {
    hide BeginStep, InsertStep, EnqueueStep, HandStep, WakeStep, EndStep, FetchStep, ServeStep, PeekStep, JudgeStep, RetireStep;
    hide CarrierInv;
    var s' := Next(s, Mark(t, ok));
    var n := s.batches[s.threads[t].batch].items[s.batches[s.threads[t].batch].marked];
    assert BatchFits(s, s.threads[t].batch);
    assert PlaceFits(s, n, s.place[n]);
    forall m | m in s'.place ensures PlaceFits(s', m, s'.place[m]) {
      assert PlaceFits(s, m, s.place[m]);
    }
  }

  lemma WakeCarrier(s: State, t: ThreadId)
    requires Custody(s) && Can(s, Wake(t))
    ensures CarrierInv(Next(s, Wake(t)))
  {
    hide BeginStep, InsertStep, EnqueueStep, HandStep, MarkStep, EndStep, FetchStep, ServeStep, PeekStep, JudgeStep, RetireStep;
    hide BatchInv, PlaceInv, Apply;
    var s' := Next(s, Wake(t));
    forall u | u in s'.threads ensures CarrierFits(s', u, s'.threads[u]) {
      if u in s.threads { assert CarrierFits(s, u, s.threads[u]); }
    }
  }

  lemma WakeBatch(s: State, t: ThreadId)
    requires Custody(s) && Can(s, Wake(t))
    ensures BatchInv(Next(s, Wake(t)))
  {
    hide BeginStep, InsertStep, EnqueueStep, HandStep, MarkStep, EndStep, FetchStep, ServeStep, PeekStep, JudgeStep, RetireStep;
    hide PlaceInv, Apply;
    var s' := Next(s, Wake(t));
    forall k | 0 <= k < |s'.batches| ensures BatchFits(s', k) {
      if k < |s.batches| { assert BatchFits(s, k); }
      if t in s.threads { assert CarrierFits(s, t, s.threads[t]); }
    }
  }

  lemma WakePlace(s: State, t: ThreadId)
    requires Custody(s) && Can(s, Wake(t))
    ensures PlaceInv(Next(s, Wake(t)))
  {
    hide BeginStep, InsertStep, EnqueueStep, HandStep, MarkStep, EndStep, FetchStep, ServeStep, PeekStep, JudgeStep, RetireStep;
    hide BatchInv, Apply;
    var s' := Next(s, Wake(t));
    forall m | m in s'.place ensures PlaceFits(s', m, s'.place[m]) {
      if m in s.place { assert PlaceFits(s, m, s.place[m]); }
      if t in s.threads { assert CarrierFits(s, t, s.threads[t]); }
    }
  }

  /** t moves and chain k changes hands; nothing happens to the packets. */
  ghost predicate PassesOn(s: State, s': State, t: ThreadId, th: Option<Thread>, k: nat, owner: Owner) {
    && k < |s.batches|
    && s'.batches == s.batches[k := s.batches[k].(owner := owner)]
    && s'.place == s.place && s'.crypt == s.crypt
    && s'.threads == Moved(s.threads, t, th)
    && (t in s.threads ==> !s.threads[t].Enqueuing? && !s.threads[t].Waking?)
  }

  lemma PassedPlaces(s: State, s': State, t: ThreadId, th: Option<Thread>, k: nat, owner: Owner)
    requires PlaceInv(s) && PassesOn(s, s', t, th, k, owner)
    ensures PlaceInv(s')
  {
    forall m | m in s'.place ensures PlaceFits(s', m, s'.place[m]) {
      assert PlaceFits(s, m, s.place[m]);
    }
  }

  lemma PassedCarriers(s: State, s': State, t: ThreadId, th: Option<Thread>, k: nat, owner: Owner)
    requires CarrierInv(s) && PassesOn(s, s', t, th, k, owner)
    requires s.batches[k].owner == By(t) || s.batches[k].owner == InRing
    requires th.Some? ==> CarrierFits(s', t, th.value)
    ensures CarrierInv(s')
  {
    forall u | u in s'.threads ensures CarrierFits(s', u, s'.threads[u]) {
      if u != t { assert CarrierFits(s, u, s.threads[u]); }
    }
  }

  lemma PassedBatches(s: State, s': State, t: ThreadId, th: Option<Thread>, k: nat, owner: Owner)
    requires BatchInv(s) && PassesOn(s, s', t, th, k, owner)
    requires t in s.threads && BatchOf(s.threads[t]).Some? ==> BatchOf(s.threads[t]).value == k
    requires match owner
             case By(u) => u == t && th.Some? && BatchOf(th.value) == Some(k)
             case InRing => k in s'.ring
             case Gone => s.batches[k].marked == |s.batches[k].items|
    requires forall i :: i in s.ring && i != k ==> i in s'.ring
    ensures forall i :: 0 <= i < |s'.batches| ==> BatchFits(s', i)
  {
    forall i | 0 <= i < |s'.batches| ensures BatchFits(s', i) {
      assert BatchFits(s, i);
    }
  }

  lemma CarrierOf(s: State, t: ThreadId)
    requires CarrierInv(s) && t in s.threads
    ensures CarrierFits(s, t, s.threads[t])
  {
  }

  /** t gives chain k away: to the ring, or to nobody once all of it is marked. */
  lemma GivenAway(s: State, s': State, t: ThreadId, th: Option<Thread>, k: nat, owner: Owner)
    requires Custody(s) && PassesOn(s, s', t, th, k, owner)
    requires t in s.threads && BatchOf(s.threads[t]) == Some(k) && s.batches[k].owner == By(t)
    requires th.Some? ==> BatchOf(th.value).None?
    requires match owner
             case By(u) => false
             case InRing => s'.ring == s.ring + [k]
             case Gone => s'.ring == s.ring && s.batches[k].marked == |s.batches[k].items|
    ensures Custody(s')
  {
    hide CarrierInv, PlaceInv, BatchFits;
    PassedPlaces(s, s', t, th, k, owner);
    PassedCarriers(s, s', t, th, k, owner);
    PassedBatches(s, s', t, th, k, owner);
  }

  lemma EmptyPasses(s: State, t: ThreadId, k: nat, ok: bool)
    requires k < |s.batches| && s.batches[k].items == [] && t in s.threads && s.threads[t].Inserting?
    ensures PassesOn(s, HandStep(s, t, k, ok), t, None, k, Gone) && HandStep(s, t, k, ok).ring == s.ring
  {
  }

  lemma AcceptedPasses(s: State, t: ThreadId, k: nat)
    requires k < |s.batches| && s.batches[k].items != [] && t in s.threads && s.threads[t].Inserting?
    ensures PassesOn(s, HandStep(s, t, k, true), t, Some(Bumping), k, InRing) && HandStep(s, t, k, true).ring == s.ring + [k]
  {
  }

  lemma HandCustody(s: State, t: ThreadId, ok: bool)
    requires Custody(s) && Can(s, Hand(t, ok))
    ensures Custody(Next(s, Hand(t, ok)))
  {
    hide HandStep, BeginStep, InsertStep, EnqueueStep, MarkStep, WakeStep, EndStep, FetchStep, ServeStep, PeekStep, JudgeStep, RetireStep;
    hide BatchInv, PlaceInv, PassesOn;
    var s', k := Next(s, Hand(t, ok)), s.threads[t].batch;
    CarrierOf(s, t);
    BatchStart(s, k);
    hide CarrierInv;
    if s.batches[k].items == [] { EmptyPasses(s, t, k, ok); GivenAway(s, s', t, None, k, Gone); }
    else if ok { AcceptedPasses(s, t, k); GivenAway(s, s', t, Some(Bumping), k, InRing); }
    else { HandBack(s, t); }
  }

  lemma BatchStart(s: State, k: nat)
    requires BatchInv(s) && k < |s.batches|
    ensures s.batches[k].marked <= |s.batches[k].items|
  {
    assert BatchFits(s, k);
  }

  /** The ring refuses the chain: its inserter keeps it and marks the packets itself. */
  lemma HandBack(s: State, t: ThreadId)
    requires Custody(s) && Can(s, Hand(t, false)) && s.batches[s.threads[t].batch].items != []
    ensures Custody(Next(s, Hand(t, false)))
  {
    hide BeginStep, InsertStep, EnqueueStep, MarkStep, WakeStep, EndStep, FetchStep, ServeStep, PeekStep, JudgeStep, RetireStep;
    hide CarrierInv, PlaceInv, BatchFits;
    var s', k := Next(s, Hand(t, false)), s.threads[t].batch;
    CarrierOf(s, t);
    assert s'.batches == s.batches[k := s.batches[k].(owner := By(t))];
    PassedPlaces(s, s', t, Some(Marking(k, false)), k, By(t));
    PassedCarriers(s, s', t, Some(Marking(k, false)), k, By(t));
    PassedBatches(s, s', t, Some(Marking(k, false)), k, By(t));
  }

  lemma FetchCustody(s: State, t: ThreadId)
    requires Custody(s) && Can(s, Fetch(t)) && s.ring != []
    ensures Custody(Next(s, Fetch(t)))
  {
    hide BeginStep, InsertStep, EnqueueStep, HandStep, MarkStep, WakeStep, EndStep, ServeStep, PeekStep, JudgeStep, RetireStep;
    hide CarrierInv, PlaceInv, BatchFits;
    var s', k := Next(s, Fetch(t)), s.ring[0];
    var th := Some(Marking(k, true));
    PassedPlaces(s, s', t, th, k, By(t));
    PassedCarriers(s, s', t, th, k, By(t));
    PassedBatches(s, s', t, th, k, By(t));
  }

  function EndTarget(worker: bool): Thread {
    if worker then Serving(false) else Bumping
  }

  lemma EndPasses(s: State, t: ThreadId, k: nat, worker: bool)
    requires k < |s.batches| && t in s.threads && s.threads[t].Marking?
    ensures PassesOn(s, EndStep(s, t, k, worker), t, Some(EndTarget(worker)), k, Gone)
    ensures EndStep(s, t, k, worker).ring == s.ring
  {
  }

  lemma EndCustody(s: State, t: ThreadId)
    requires Custody(s) && Can(s, EndBatch(t))
    ensures Custody(Next(s, EndBatch(t)))
  {
    hide BatchInv, PlaceInv, PassesOn, BeginStep, InsertStep, EnqueueStep, HandStep, MarkStep, WakeStep, EndStep, FetchStep, ServeStep, PeekStep, JudgeStep, RetireStep;
    var k := s.threads[t].batch;
    CarrierOf(s, t);
    hide CarrierInv;
    EndPasses(s, t, k, s.threads[t].worker);
    GivenAway(s, Next(s, EndBatch(t)), t, Some(EndTarget(s.threads[t].worker)), k, Gone);
  }

  lemma FetchAnyCustody(s: State, t: ThreadId)
    requires Custody(s) && Can(s, Fetch(t))
    ensures Custody(Next(s, Fetch(t)))
  {
    hide BeginStep, InsertStep, EnqueueStep, HandStep, MarkStep, WakeStep, EndStep, ServeStep, PeekStep, JudgeStep, RetireStep;
    hide Custody;
    if s.ring == [] { CustodyUntouched(s, Goto(s, t, Serving(true)), t, Some(Serving(true))); } else { FetchCustody(s, t); }
  }

  lemma SleepCustody(s: State, a: Step, t: ThreadId)
    requires Custody(s) && Can(s, a) && (a == Bump(t) || a == Rouse(t))
    ensures Custody(Next(s, a))
  {
    hide BeginStep, InsertStep, EnqueueStep, HandStep, MarkStep, WakeStep, EndStep, FetchStep, ServeStep, PeekStep, JudgeStep, RetireStep;
    hide Custody;
    CustodyUntouched(s, Next(s, a), t, if a.Bump? then None else Some(Fetching));
  }

  function ServeTarget(s: State, final: bool): Option<Thread> {
    if s.serial.list != [] then Some(Started(s, s.serial.list[0], final))
    else if final then None
    else Some(Fetching)
  }

  function PeekTarget(p: nat, budget: nat, final: bool, result: Option<Ptr>): Thread {
    if result.None? then Retiring(p, false, final) else Judging(p, budget, final)
  }

  function JudgeTarget(s: State, p: nat, budget: nat, final: bool): Thread
    requires p in s.peeked && s.peeked[p] in s.crypt
  {
    if s.crypt[s.peeked[p]].Uncrypted? then Retiring(p, false, final)
    else if budget == 0 then Retiring(p, true, final)
    else Peeking(p, budget - 1, final)
  }

  lemma GotoMoves(s: State, t: ThreadId, th: Thread)
    requires t in s.threads && BatchOf(s.threads[t]).None? && BatchOf(th).None?
    ensures MovesEmptyHanded(s, Goto(s, t, th), t, Some(th))
  {
  }

  lemma PoppedMoves(s: State, t: ThreadId, final: bool)
    requires t in s.threads && BatchOf(s.threads[t]).None? && s.serial.list != []
    ensures MovesEmptyHanded(s, Popped(s, t, final), t, Some(Started(s, s.serial.list[0], final)))
  {
  }

  lemma GotNullMoves(s: State, t: ThreadId, p: nat, th: Thread)
    requires t in s.threads && BatchOf(s.threads[t]).None? && BatchOf(th).None?
    ensures MovesEmptyHanded(s, GotNull(s, t, p, th), t, Some(th))
  {
    hide Apply, Q;
  }

  lemma GotMoves(s: State, t: ThreadId, p: nat, n: Ptr, th: Thread)
    requires t in s.threads && BatchOf(s.threads[t]).None? && BatchOf(th).None?
    ensures MovesEmptyHanded(s, GotItem(s, t, p, n, th), t, Some(th))
  {
    hide Apply, Q;
  }

  lemma ReleasedMoves(s: State, t: ThreadId, p: nat, n: Ptr, good: bool, th: Thread)
    requires t in s.threads && BatchOf(s.threads[t]).None? && BatchOf(th).None?
    ensures MovesEmptyHanded(s, Released(s, t, p, n, good, th), t, Some(th))
  {
  }

  lemma ServeMoves(s: State, t: ThreadId, final: bool)
    requires t in s.threads && s.threads[t].Serving?
    ensures MovesEmptyHanded(s, ServeStep(s, t, final), t, ServeTarget(s, final))
  {
    hide Popped, Goto;
    if s.serial.list != [] { PoppedMoves(s, t, final); } else { GotoMoves(s, t, Fetching); }
  }

  lemma PeekMoves(s: State, t: ThreadId, p: nat, budget: nat, final: bool)
    requires t in s.threads && s.threads[t].Peeking? && Q(s, p).consumer.Returned?
    ensures MovesEmptyHanded(s, PeekStep(s, t, p, budget, final), t,
                             Some(PeekTarget(p, budget, final, Q(s, p).consumer.result)))
  {
    hide Q, GotNull, GotItem, Consumed;
    if Q(s, p).consumer.result.None? { GotNullMoves(s, t, p, Retiring(p, false, final)); }
    else { GotMoves(s, t, p, Q(s, p).consumer.result.value, Judging(p, budget, final)); }
  }

  lemma JudgeMoves(s: State, t: ThreadId, p: nat, budget: nat, final: bool, valid: bool)
    requires t in s.threads && s.threads[t].Judging? && p in s.peeked && s.peeked[p] in s.crypt
    ensures MovesEmptyHanded(s, JudgeStep(s, t, p, budget, final, valid), t, Some(JudgeTarget(s, p, budget, final)))
  {
    hide Goto, Released;
    if s.crypt[s.peeked[p]].Uncrypted? { GotoMoves(s, t, Retiring(p, false, final)); }
    else if budget == 0 { GotoMoves(s, t, Retiring(p, true, final)); }
    else { ReleasedMoves(s, t, p, s.peeked[p], GoesUp(s, s.peeked[p], valid), Peeking(p, budget - 1, final)); }
  }

  lemma ServeCustody(s: State, t: ThreadId)
    requires Custody(s) && Can(s, Serve(t))
    ensures Custody(Next(s, Serve(t)))
  {
    hide Custody, MovesEmptyHanded, ServeTarget, BeginStep, InsertStep, EnqueueStep, HandStep, MarkStep, WakeStep, EndStep, FetchStep, ServeStep, PeekStep, JudgeStep, RetireStep;
    ServeMoves(s, t, s.threads[t].final);
    CustodyUntouched(s, Next(s, Serve(t)), t, ServeTarget(s, s.threads[t].final));
  }

  lemma PeekConsumes(s: State, t: ThreadId, p: nat, budget: nat, final: bool)
    requires !Q(s, p).consumer.Returned?
    ensures PeekStep(s, t, p, budget, final) == Consumed(s, p)
    ensures Consumed(s, p) == s.(queues := Consumed(s, p).queues)
  {
    hide Apply, Q;
  }

  lemma PeekCustody(s: State, t: ThreadId)
    requires Custody(s) && Can(s, Peek(t))
    ensures Custody(Next(s, Peek(t)))
  {
    hide Q, Custody, MovesEmptyHanded, PeekTarget, BeginStep, InsertStep, EnqueueStep, HandStep, MarkStep, WakeStep, EndStep, FetchStep, ServeStep, PeekStep, JudgeStep, RetireStep;
    var th := s.threads[t];
    if Q(s, th.peer).consumer.Returned? {
      PeekMoves(s, t, th.peer, th.budget, th.final);
      CustodyUntouched(s, Next(s, Peek(t)), t, Some(PeekTarget(th.peer, th.budget, th.final, Q(s, th.peer).consumer.result)));
    } else {
      PeekConsumes(s, t, th.peer, th.budget, th.final);
      QueuesApart(s, Next(s, Peek(t)));
    }
  }

  lemma JudgeCustody(s: State, t: ThreadId, valid: bool)
    requires Custody(s) && Can(s, Judge(t, valid))
    ensures Custody(Next(s, Judge(t, valid)))
  {
    hide Custody, MovesEmptyHanded, JudgeTarget, BeginStep, InsertStep, EnqueueStep, HandStep, MarkStep, WakeStep, EndStep, FetchStep, ServeStep, PeekStep, JudgeStep, RetireStep;
    var th := s.threads[t];
    JudgeMoves(s, t, th.peer, th.budget, th.final, valid);
    CustodyUntouched(s, Next(s, Judge(t, valid)), t, Some(JudgeTarget(s, th.peer, th.budget, th.final)));
  }

  lemma RetireCustody(s: State, t: ThreadId)
    requires Custody(s) && Can(s, Retire(t))
    ensures Custody(Next(s, Retire(t)))
  {
    hide BeginStep, InsertStep, EnqueueStep, HandStep, MarkStep, WakeStep, EndStep, FetchStep, ServeStep, PeekStep, JudgeStep;
    hide Custody, Retired;
    CustodyUntouched(s, Next(s, Retire(t)), t, Some(Serving(s.threads[t].final)));
  }

  lemma CustodyKeeps(s: State, a: Step)
    requires Custody(s) && Can(s, a)
    ensures Custody(Next(s, a))
  {
    hide BeginStep, InsertStep, EnqueueStep, HandStep, MarkStep, WakeStep, EndStep, FetchStep, ServeStep, PeekStep, JudgeStep, RetireStep;
    hide Custody, Next, Can;
    match a
    case Begin(t) => BeginCustody(s, t);
    case Insert(t, n) => InsertCustody(s, t, n);
    case Enqueue(t) => EnqueueCustody(s, t);
    case Hand(t, ok) => HandCustody(s, t, ok);
    case Mark(t, ok) => MarkCustody(s, t, ok);
    case Wake(t) => WakeCustody(s, t);
    case EndBatch(t) => EndCustody(s, t);
    case Fetch(t) => FetchAnyCustody(s, t);
    case Bump(t) => SleepCustody(s, a, t);
    case Rouse(t) => SleepCustody(s, a, t);
    case Serve(t) => ServeCustody(s, t);
    case Peek(t) => PeekCustody(s, t);
    case Judge(t, valid) => JudgeCustody(s, t, valid);
    case Retire(t) => RetireCustody(s, t);
  }

  lemma BeginCustody(s: State, t: ThreadId)
    requires Custody(s) && Can(s, Begin(t))
    ensures Custody(Next(s, Begin(t)))
  {
    hide InsertStep, EnqueueStep, HandStep, MarkStep, WakeStep, EndStep, FetchStep, ServeStep, PeekStep, JudgeStep, RetireStep;
    hide CarrierInv, BatchInv, PlaceInv, Next;
    BeginCarrier(s, t);
    BeginBatch(s, t);
    BeginPlace(s, t);
  }

  lemma InsertCustody(s: State, t: ThreadId, n: Ptr)
    requires Custody(s) && Can(s, Insert(t, n))
    ensures Custody(Next(s, Insert(t, n)))
  {
    hide BeginStep, EnqueueStep, HandStep, MarkStep, WakeStep, EndStep, FetchStep, ServeStep, PeekStep, JudgeStep, RetireStep;
    hide CarrierInv, BatchInv, PlaceInv, Next;
    InsertCarrier(s, t, n);
    InsertBatch(s, t, n);
    InsertPlace(s, t, n);
  }

  lemma MarkCustody(s: State, t: ThreadId, ok: bool)
    requires Custody(s) && Can(s, Mark(t, ok))
    ensures Custody(Next(s, Mark(t, ok)))
  {
    hide BeginStep, InsertStep, EnqueueStep, HandStep, WakeStep, EndStep, FetchStep, ServeStep, PeekStep, JudgeStep, RetireStep;
    hide CarrierInv, BatchInv, PlaceInv, Next;
    MarkCarrier(s, t, ok);
    MarkBatch(s, t, ok);
    MarkPlace(s, t, ok);
  }

  lemma WakeCustody(s: State, t: ThreadId)
    requires Custody(s) && Can(s, Wake(t))
    ensures Custody(Next(s, Wake(t)))
  {
    hide BeginStep, InsertStep, EnqueueStep, HandStep, MarkStep, EndStep, FetchStep, ServeStep, PeekStep, JudgeStep, RetireStep;
    hide CarrierInv, BatchInv, PlaceInv, Next;
    WakeCarrier(s, t);
    WakeBatch(s, t);
    WakePlace(s, t);
  }

  lemma EnqueueCustody(s: State, t: ThreadId)
    requires Custody(s) && Can(s, Enqueue(t))
    ensures Custody(Next(s, Enqueue(t)))
  {
    hide BeginStep, InsertStep, HandStep, MarkStep, WakeStep, EndStep, FetchStep, ServeStep, PeekStep, JudgeStep, RetireStep;
    hide CarrierInv, BatchInv, PlaceInv, Apply, Pc, Q, Next, EnqueueStep;
    var q := Q(s, s.threads[t].nbl.peer);
    if Pc(q, t).Idle? && q.count == MAX_QUEUED_PACKETS {
      RefuseCarrier(s, t); RefuseBatch(s, t); RefusePlace(s, t);
    } else if Pc(q, t).Swapped? {
      StoreCarrier(s, t); StoreBatch(s, t); StorePlace(s, t);
    } else {
      AccessCustody(s, t);
    }
  }

  /** An access inside PrevQueueEnqueue. */
  lemma AccessCustody(s: State, t: ThreadId)
    requires Custody(s) && Can(s, Enqueue(t))
    requires var q := Q(s, s.threads[t].nbl.peer);
      !(Pc(q, t).Idle? && q.count == MAX_QUEUED_PACKETS) && !Pc(q, t).Swapped?
    ensures Custody(Next(s, Enqueue(t)))
  {
    hide Custody, Apply, Pc, Q, BeginStep, InsertStep, HandStep, MarkStep, WakeStep, EndStep, FetchStep, ServeStep, PeekStep, JudgeStep, RetireStep;
    QueuesApart(s, Next(s, Enqueue(t)));
  }

  lemma QueuesApart(s: State, s': State)
    requires Custody(s) && s' == s.(queues := s'.queues)
    ensures Custody(s')
  {
    forall k | 0 <= k < |s'.batches| ensures BatchFits(s', k) { assert BatchFits(s, k); }
    forall m | m in s'.place ensures PlaceFits(s', m, s'.place[m]) { assert PlaceFits(s, m, s.place[m]); }
  }
}
