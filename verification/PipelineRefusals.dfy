/** What becomes of a chain that the ring refuses (PacketConsumeData of driver/receive.c). */
module PipelineRefusals {
  import opened PrevQueue
  import opened PeerSerial
  import opened Pipeline
  import opened PipelineCustody
  import opened PipelineRuns

  /** t marks chain k on its own account, not as a worker. */
  ghost predicate Refusing(s: State, t: ThreadId, k: nat) {
    && t in s.threads
    && match s.threads[t]
       case Marking(b, worker) => b == k && !worker
       case Waking(_, b, worker) => b == k && !worker
       case _ => false
  }

  ghost predicate IsDead(s: State, n: Ptr) {
    n in s.place && n in s.crypt && s.crypt[n].Dead?
  }

  /** Chain k, of these packets, is still t's or done with; those marked are dead. */
  ghost predicate Dying(s: State, t: ThreadId, k: nat, items: seq<Ptr>) {
    && k < |s.batches|
    && var b := s.batches[k];
    && b.items == items && b.marked <= |items|
    && (forall j :: 0 <= j < b.marked ==> IsDead(s, items[j]))
    && (if b.owner == Gone then b.marked == |items| else b.owner == By(t) && Refusing(s, t, k))
  }

  lemma NextIsUncrypted(s: State, t: ThreadId)
    requires Custody(s) && Can(s, Mark(t, false))
    ensures var b := s.batches[s.threads[t].batch];
      b.owner == By(t) && b.items[b.marked] in s.crypt && s.crypt[b.items[b.marked]].Uncrypted?
  {
    assert CarrierFits(s, t, s.threads[t]);
    var k := s.threads[t].batch;
    assert BatchFits(s, k);
    var n := s.batches[k].items[s.batches[k].marked];
    assert PlacedAt(s, n, Chained(k, s.batches[k].marked));
    assert PlaceFits(s, n, s.place[n]);
  }

  /** u marks a packet: one of this chain if it is t, and never one that is dead. */
  lemma MarkDying(s: State, u: ThreadId, ok: bool, t: ThreadId, k: nat, items: seq<Ptr>)
    requires Custody(s) && Can(s, Mark(u, ok)) && Dying(s, t, k, items)
    ensures Dying(Next(s, Mark(u, ok)), t, k, items)
  {
    hide CarrierInv, BatchInv, PlaceInv, BeginStep, InsertStep, EnqueueStep, HandStep, WakeStep, EndStep, FetchStep, ServeStep, PeekStep, JudgeStep, RetireStep;
    NextIsUncrypted(s, u);
  }

  lemma WakeDying(s: State, u: ThreadId, t: ThreadId, k: nat, items: seq<Ptr>)
    requires Can(s, Wake(u)) && Dying(s, t, k, items)
    ensures Dying(Next(s, Wake(u)), t, k, items)
  {
    hide Enqueued, BeginStep, InsertStep, EnqueueStep, HandStep, MarkStep, EndStep, FetchStep, ServeStep, PeekStep, JudgeStep, RetireStep;
  }

  /** A chain begins or a packet is offered. */
  lemma OfferDying(s: State, a: Step, t: ThreadId, k: nat, items: seq<Ptr>)
    requires (a.Begin? || a.Insert?) && Can(s, a) && Dying(s, t, k, items)
    ensures Dying(Next(s, a), t, k, items)
  {
    hide EnqueueStep, HandStep, MarkStep, WakeStep, EndStep, FetchStep, ServeStep, PeekStep, JudgeStep, RetireStep;
  }

  lemma LinkedDying(s: State, u: ThreadId, n: Ptr, b: nat, t: ThreadId, k: nat, items: seq<Ptr>)
    requires n.Nbl? && Dying(s, t, k, items)
    requires u in s.threads && s.threads[u].Enqueuing? && b < |s.batches| && s.batches[b].owner == By(u)
    ensures Dying(Linked(s, u, n, b), t, k, items) && Dying(Refused(s, u, n, b), t, k, items)
  {
    hide Apply, Q;
  }

  lemma ProducedDying(s: State, p: nat, access: Action, t: ThreadId, k: nat, items: seq<Ptr>)
    requires Dying(s, t, k, items)
    ensures Dying(Produced(s, p, access), t, k, items)
  {
    hide Apply, Q;
  }

  lemma EnqueueDying(s: State, u: ThreadId, t: ThreadId, k: nat, items: seq<Ptr>)
    requires Custody(s) && Can(s, Enqueue(u)) && Dying(s, t, k, items)
    ensures Dying(Next(s, Enqueue(u)), t, k, items)
  {
    var n := s.threads[u].nbl;
    CarrierOf(s, u);
    LinkedDying(s, u, n, s.threads[u].batch, t, k, items);
    ProducedDying(s, n.peer, Count(u, n), t, k, items);
    ProducedDying(s, n.peer, ClearLink(u), t, k, items);
    ProducedDying(s, n.peer, SwapHead(u), t, k, items);
    hide Custody, Dying, Produced, Linked, Refused, Apply, Pc, Q, BeginStep, InsertStep, HandStep, MarkStep, WakeStep, EndStep, FetchStep, ServeStep, PeekStep, JudgeStep, RetireStep;
  }

  /** Another chain changes hands, or t is done with this one. */
  lemma PassedDying(s: State, s': State, u: ThreadId, th: Option<Thread>, b: nat, owner: Owner, t: ThreadId, k: nat, items: seq<Ptr>)
    requires PassesOn(s, s', u, th, b, owner) && Dying(s, t, k, items)
    requires s.batches[b].owner != Gone && (s.batches[b].owner == By(t) ==> u == t)
    requires u == t && u in s.threads ==> BatchOf(s.threads[u]).None? || BatchOf(s.threads[u]) == Some(b)
    requires b == k ==> owner == Gone && s.batches[b].marked == |s.batches[b].items|
    ensures Dying(s', t, k, items)
  {
  }

  lemma MovedDying(s: State, s': State, u: ThreadId, th: Option<Thread>, t: ThreadId, k: nat, items: seq<Ptr>)
    requires MovesEmptyHanded(s, s', u, th) && Dying(s, t, k, items)
    ensures Dying(s', t, k, items)
  {
  }

  lemma RingHeld(s: State, u: ThreadId)
    requires Custody(s) && Can(s, Fetch(u)) && s.ring != []
    ensures s.batches[s.ring[0]].owner == InRing
  {
  }

  /** What u gives away, or keeps, is its own. */
  lemma LeftDying(s: State, u: ThreadId, b: nat, t: ThreadId, k: nat, items: seq<Ptr>)
    requires Dying(s, t, k, items)
    requires u in s.threads && s.threads[u] == Inserting(b) && b < |s.batches| && s.batches[b].owner == By(u)
    ensures Dying(Leave(Owned(s, b, Gone), u), t, k, items)
  {
  }

  lemma AcceptedDying(s: State, u: ThreadId, b: nat, t: ThreadId, k: nat, items: seq<Ptr>)
    requires Dying(s, t, k, items)
    requires u in s.threads && s.threads[u] == Inserting(b) && b < |s.batches| && s.batches[b].owner == By(u)
    ensures Dying(Accepted(s, u, b), t, k, items)
  {
  }

  lemma KeptDying(s: State, u: ThreadId, b: nat, t: ThreadId, k: nat, items: seq<Ptr>)
    requires Dying(s, t, k, items)
    requires u in s.threads && s.threads[u] == Inserting(b) && b < |s.batches| && s.batches[b].owner == By(u)
    ensures Dying(Goto(s, u, Marking(b, false)), t, k, items)
  {
  }

  lemma HandDying(s: State, u: ThreadId, ok: bool, t: ThreadId, k: nat, items: seq<Ptr>)
    requires Custody(s) && Can(s, Hand(u, ok)) && Dying(s, t, k, items)
    ensures Dying(Next(s, Hand(u, ok)), t, k, items)
  {
    CarrierOf(s, u);
    LeftDying(s, u, s.threads[u].batch, t, k, items);
    AcceptedDying(s, u, s.threads[u].batch, t, k, items);
    KeptDying(s, u, s.threads[u].batch, t, k, items);
    hide Custody, Dying, Accepted, Goto, Owned, Leave, BeginStep, InsertStep, EnqueueStep, MarkStep, WakeStep, EndStep, FetchStep, ServeStep, PeekStep, JudgeStep, RetireStep;
  }

  lemma EndDying(s: State, u: ThreadId, t: ThreadId, k: nat, items: seq<Ptr>)
    requires Custody(s) && Can(s, EndBatch(u)) && Dying(s, t, k, items)
    ensures Dying(Next(s, EndBatch(u)), t, k, items)
  {
    CarrierOf(s, u);
    EndPasses(s, u, s.threads[u].batch, s.threads[u].worker);
    PassedDying(s, EndStep(s, u, s.threads[u].batch, s.threads[u].worker), u, Some(EndTarget(s.threads[u].worker)),
                s.threads[u].batch, Gone, t, k, items);
    hide Custody, Dying, PassesOn, BeginStep, InsertStep, EnqueueStep, HandStep, MarkStep, WakeStep, EndStep, FetchStep, ServeStep, PeekStep, JudgeStep, RetireStep;
  }

  lemma FetchDying(s: State, u: ThreadId, t: ThreadId, k: nat, items: seq<Ptr>)
    requires Custody(s) && Can(s, Fetch(u)) && Dying(s, t, k, items)
    ensures Dying(Next(s, Fetch(u)), t, k, items)
  {
    if s.ring != [] { RingHeld(s, u); }
    hide Custody, BeginStep, InsertStep, EnqueueStep, HandStep, MarkStep, WakeStep, EndStep, ServeStep, PeekStep, JudgeStep, RetireStep;
  }

  /** The steps at the ring's signal and in the release loop hold no chain. */
  lemma LoopDying(s: State, a: Step, t: ThreadId, k: nat, items: seq<Ptr>)
    requires Custody(s) && Can(s, a) && Dying(s, t, k, items)
    requires a.Bump? || a.Rouse? || a.Serve? || a.Retire?
    ensures Dying(Next(s, a), t, k, items)
  {
    hide Custody, Dying, Popped, ServeTarget, BeginStep, InsertStep, EnqueueStep, HandStep, MarkStep, WakeStep, EndStep, FetchStep, ServeStep, PeekStep, JudgeStep, Retired;
    var th := if a.Bump? then None else if a.Rouse? then Some(Fetching)
      else if a.Retire? then Some(Serving(s.threads[a.t].final)) else ServeTarget(s, s.threads[a.t].final);
    if a.Serve? { ServeMoves(s, a.t, s.threads[a.t].final); }
    MovedDying(s, Next(s, a), a.t, th, t, k, items);
  }

  lemma PeekDying(s: State, u: ThreadId, t: ThreadId, k: nat, items: seq<Ptr>)
    requires Can(s, Peek(u)) && Dying(s, t, k, items)
    ensures Dying(Next(s, Peek(u)), t, k, items)
  {
    hide Q, MovesEmptyHanded, PeekTarget, BeginStep, InsertStep, EnqueueStep, HandStep, MarkStep, WakeStep, EndStep, FetchStep, ServeStep, PeekStep, JudgeStep, RetireStep;
    var th := s.threads[u];
    if Q(s, th.peer).consumer.Returned? {
      PeekMoves(s, u, th.peer, th.budget, th.final);
      hide Dying;
      MovedDying(s, Next(s, Peek(u)), u, Some(PeekTarget(th.peer, th.budget, th.final, Q(s, th.peer).consumer.result)), t, k, items);
    } else {
      PeekConsumes(s, u, th.peer, th.budget, th.final);
    }
  }

  lemma JudgeDying(s: State, u: ThreadId, valid: bool, t: ThreadId, k: nat, items: seq<Ptr>)
    requires Can(s, Judge(u, valid)) && Dying(s, t, k, items)
    ensures Dying(Next(s, Judge(u, valid)), t, k, items)
  {
    hide Dying, MovesEmptyHanded, JudgeTarget, BeginStep, InsertStep, EnqueueStep, HandStep, MarkStep, WakeStep, EndStep, FetchStep, ServeStep, PeekStep, JudgeStep, RetireStep;
    var th := s.threads[u];
    JudgeMoves(s, u, th.peer, th.budget, th.final, valid);
    MovedDying(s, Next(s, Judge(u, valid)), u, Some(JudgeTarget(s, th.peer, th.budget, th.final)), t, k, items);
  }

  lemma DyingKeeps(s: State, a: Step, t: ThreadId, k: nat, items: seq<Ptr>)
    requires Custody(s) && Can(s, a) && Dying(s, t, k, items)
    ensures Dying(Next(s, a), t, k, items)
  {
    hide Custody, Next, Can, Dying;
    match a
    case Begin(_) => OfferDying(s, a, t, k, items);
    case Insert(_, _) => OfferDying(s, a, t, k, items);
    case Enqueue(u) => EnqueueDying(s, u, t, k, items);
    case Hand(u, ok) => HandDying(s, u, ok, t, k, items);
    case Mark(u, ok) => MarkDying(s, u, ok, t, k, items);
    case Wake(u) => WakeDying(s, u, t, k, items);
    case EndBatch(u) => EndDying(s, u, t, k, items);
    case Fetch(u) => FetchDying(s, u, t, k, items);
    case Peek(u) => PeekDying(s, u, t, k, items);
    case Judge(u, valid) => JudgeDying(s, u, valid, t, k, items);
    case _ => LoopDying(s, a, t, k, items);
  }

  lemma {:induction false} DyingRun(s: State, run: seq<Step>, t: ThreadId, k: nat, items: seq<Ptr>)
    requires Good(s) && Lawful(s, run) && Dying(s, t, k, items)
    ensures Dying(After(s, run), t, k, items)
    decreases run
  {
    if run != [] {
      assert Custody(s);
      hide Next, Good, Can, Dying;
      GoodKeeps(s, run[0]);
      DyingKeeps(s, run[0], t, k, items);
      DyingRun(Next(s, run[0]), run[1..], t, k, items);
    }
  }

  /** After a refusal the chain never leaves the thread that made it: whatever else happens, every packet
      the thread has marked is DEAD, and when the marking is over every packet of the chain is. */
  lemma RefusedAreDead(run: seq<Step>, t: ThreadId, rest: seq<Step>)
    requires Lawful(Init, run) && Can(After(Init, run), Hand(t, false))
    requires var s := After(Init, run); s.batches[s.threads[t].batch].items != []
    requires Lawful(Next(After(Init, run), Hand(t, false)), rest)
    ensures var s := After(Init, run);
      var k := s.threads[t].batch;
      var end := After(Next(s, Hand(t, false)), rest);
      && Dying(end, t, k, s.batches[k].items)
      && (end.batches[k].owner == Gone ==> forall n :: n in s.batches[k].items ==> IsDead(end, n))
  {
    var s := After(Init, run);
    var k := s.threads[t].batch;
    ReachedGood(run, 0);
    GoodKeeps(s, Hand(t, false));
    assert Dying(Next(s, Hand(t, false)), t, k, s.batches[k].items) by {
      HandedBack(s, t);
    }
    hide Good, Lawful, After, Next, Can;
    DyingRun(Next(s, Hand(t, false)), rest, t, k, s.batches[k].items);
  }

  lemma HandedBack(s: State, t: ThreadId)
    requires Good(s) && Can(s, Hand(t, false)) && s.batches[s.threads[t].batch].items != []
    ensures Dying(Next(s, Hand(t, false)), t, s.threads[t].batch, s.batches[s.threads[t].batch].items)
  {
    assert Custody(s) && CarrierFits(s, t, s.threads[t]);
    assert BatchFits(s, s.threads[t].batch);
  }
}
