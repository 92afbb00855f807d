/** The release of packets: in the order in which they entered the queue, and only once their state
    is stored. */
module PipelineRelease {
  import opened PrevQueue
  import opened Pipeline
  import opened PipelineCustody
  import opened PipelineService
  import opened PipelineQueues

  // ---------------------------------------------------------------- steps that only move their thread

  /** No state, list, runner or release changes. */
  ghost predicate Keeps(s: State, s': State) {
    s'.crypt == s.crypt && s'.serial == s.serial && s'.runner == s.runner && s'.peeked == s.peeked && s'.out == s.out && s'.ends == s.ends
  }

  predicate Quiet(s: State, a: Step)
    requires Can(s, a)
  {
    match a
    case Insert(_, _) => false
    case Mark(_, _) => false
    case Wake(_) => false
    case Serve(_) => s.serial.list == []
    case Peek(t) => Delivers(s, s.threads[t].peer).None?
    case Judge(t, _) => s.crypt[s.peeked[s.threads[t].peer]].Uncrypted? || s.threads[t].budget == 0
    case Retire(_) => false
    case _ => true
  }

  /** What Dequeue on p's queue has returned. */
  function Delivers(s: State, p: nat): Option<Ptr> {
    if Q(s, p).consumer.Returned? then Q(s, p).consumer.result else None
  }

  lemma GotoKeeps(s: State, t: ThreadId, th: Thread)
    ensures Keeps(s, Goto(s, t, th)) && Keeps(s, Leave(s, t))
  {
  }

  lemma OwnedKeeps(s: State, t: ThreadId, k: nat, o: Owner, th: Thread)
    requires k < |s.batches|
    ensures Keeps(s, Goto(Owned(s, k, o), t, th)) && Keeps(s, Leave(Owned(s, k, o), t))
  {
  }

  lemma AcceptedKeeps(s: State, t: ThreadId, k: nat)
    requires k < |s.batches|
    ensures Keeps(s, Accepted(s, t, k))
  {
  }

  lemma FetchedKeeps(s: State, t: ThreadId)
    requires s.ring != [] && s.ring[0] < |s.batches|
    ensures Keeps(s, Fetched(s, t))
  {
  }

  lemma InsertingKeeps(s: State, t: ThreadId, n: Ptr, k: nat, access: Action)
    requires n.Nbl? && k < |s.batches|
    ensures Keeps(s, Refused(s, t, n, k)) && Keeps(s, Produced(s, n.peer, access)) && Keeps(s, Linked(s, t, n, k))
  {
    hide Apply;
  }

  lemma ConsumingKeeps(s: State, t: ThreadId, p: nat, th: Thread)
    ensures Keeps(s, Consumed(s, p)) && Keeps(s, GotNull(s, t, p, th))
  {
    hide Apply;
  }

  lemma EnqueueKeeps(s: State, t: ThreadId, n: Ptr, k: nat)
    requires n.Nbl? && k < |s.batches|
    ensures Keeps(s, EnqueueStep(s, t, n, k))
  {
    hide Keeps, Q, Pc, Refused, Produced, Linked;
    InsertingKeeps(s, t, n, k, EnqueueAction(Q(s, n.peer), t, n));
  }

  lemma HandKeeps(s: State, t: ThreadId, k: nat, ok: bool)
    requires k < |s.batches|
    ensures Keeps(s, HandStep(s, t, k, ok))
  {
    hide Keeps, Goto, Leave, Owned, Accepted;
    OwnedKeeps(s, t, k, Gone, Bumping);
    AcceptedKeeps(s, t, k);
    GotoKeeps(s, t, Marking(k, false));
  }

  lemma EndKeeps(s: State, t: ThreadId, k: nat, worker: bool)
    requires k < |s.batches|
    ensures Keeps(s, EndStep(s, t, k, worker))
  {
    hide Keeps, Goto, Owned;
    OwnedKeeps(s, t, k, Gone, Serving(false));
    OwnedKeeps(s, t, k, Gone, Bumping);
  }

  lemma FetchKeeps(s: State, t: ThreadId)
    requires s.ring != [] ==> s.ring[0] < |s.batches|
    ensures Keeps(s, FetchStep(s, t))
  {
    hide Keeps, Goto, Fetched;
    GotoKeeps(s, t, Serving(true));
    if s.ring != [] { FetchedKeeps(s, t); }
  }

  lemma PeekKeeps(s: State, t: ThreadId, p: nat, budget: nat, final: bool)
    requires Delivers(s, p).None?
    ensures Keeps(s, PeekStep(s, t, p, budget, final))
  {
    hide Keeps, Q, Consumed, GotNull;
    ConsumingKeeps(s, t, p, Retiring(p, false, final));
  }

  lemma BeginKeeps(s: State, t: ThreadId)
    ensures Keeps(s, BeginStep(s, t)) && Keeps(s, Leave(s, t).(signal := true)) && Keeps(s, Goto(s, t, Fetching).(signal := false))
  {
  }

  lemma JudgeKeeps(s: State, t: ThreadId, p: nat, budget: nat, final: bool, valid: bool)
    requires p in s.peeked && s.peeked[p] in s.crypt
    requires s.crypt[s.peeked[p]].Uncrypted? || budget == 0
    ensures Keeps(s, JudgeStep(s, t, p, budget, final, valid))
  {
    hide Keeps, Goto;
    GotoKeeps(s, t, Retiring(p, false, final));
    GotoKeeps(s, t, Retiring(p, true, final));
  }

  lemma ServeKeeps(s: State, t: ThreadId, final: bool)
    requires s.serial.list == []
    ensures Keeps(s, ServeStep(s, t, final))
  {
    hide Keeps, Goto, Leave;
    GotoKeeps(s, t, Fetching);
  }

  lemma QuietKeeps(s: State, a: Step)
    requires Can(s, a) && Quiet(s, a)
    ensures Keeps(s, Next(s, a))
  {
    hide BeginStep, InsertStep, EnqueueStep, HandStep, MarkStep, WakeStep, EndStep, FetchStep, ServeStep, PeekStep, JudgeStep, RetireStep, Keeps;
    BeginKeeps(s, a.t);
    match a
    case Enqueue(t) => EnqueueKeeps(s, t, s.threads[t].nbl, s.threads[t].batch);
    case Hand(t, ok) => HandKeeps(s, t, s.threads[t].batch, ok);
    case EndBatch(t) => EndKeeps(s, t, s.threads[t].batch, s.threads[t].worker);
    case Fetch(t) => FetchKeeps(s, t);
    case Serve(t) => ServeKeeps(s, t, s.threads[t].final);
    case Peek(t) => PeekKeeps(s, t, s.threads[t].peer, s.threads[t].budget, s.threads[t].final);
    case Judge(t, valid) => JudgeKeeps(s, t, s.threads[t].peer, s.threads[t].budget, s.threads[t].final, valid);
    case _ =>
  }

  // ---------------------------------------------------------------- the invariant

  /** What Dequeue handed out is what was released and what is peeked. */
  ghost predicate Handled(s: State, p: nat) {
    Taken(Q(s, p)) == Out(s, p) + Peeked(s, p)
  }

  ghost predicate Sound(s: State, n: Ptr) {
    n in s.crypt && !s.crypt[n].Uncrypted?
  }

  ghost predicate OutFits(s: State, p: nat) {
    forall i :: 0 <= i < |Out(s, p)| ==> Sound(s, Out(s, p)[i])
  }

  ghost predicate Release(s: State) {
    (forall p: nat :: Handled(s, p)) && (forall p: nat :: OutFits(s, p))
  }

  // ---------------------------------------------------------------- what is taken was put in

  lemma {:induction false} ItemsFrom(s: seq<Ptr>, n: Ptr)
    requires n in Items(s)
    ensures n in s && n.Nbl?
  {
    if s[|s| - 1].Nbl? && n == s[|s| - 1] {} else { ItemsFrom(s[..|s| - 1], n); }
  }

  /** A packet handed out by Dequeue is one that was exchanged into Head. */
  lemma TakenLodged(s: State, p: nat, n: Ptr)
    requires QueueFits(s, p) && n in Taken(Q(s, p))
    ensures n in Q(s, p).chain.pos && LodgedAs(s, p, Q(s, p), n)
  {
    var q := Q(s, p);
    hide Q, ProducerInv, HolderInv, OwedInv, CountInv, ConsumerInv, Items, LodgedAs;
    assert n in Items(q.chain.hist[..q.chain.base]);
    ItemsFrom(q.chain.hist[..q.chain.base], n);
  }

  // ---------------------------------------------------------------- every step keeps it

  /** The packet a step hands to the release loop. */
  function Delivered(s: State, a: Step, r: nat): seq<Ptr>
    requires Can(s, a)
  {
    if a.Peek? && s.threads[a.t].peer == r && Delivers(s, r).Some? then [Delivers(s, r).value] else []
  }

  lemma TouchedTaken(s: State, a: Step, r: nat)
    requires Custody(s) && Queues(s) && Can(s, a)
    ensures Taken(Q(Next(s, a), r)) == Taken(Q(s, r)) + Delivered(s, a, r)
  {
    hide Custody, Next, Q, Apply, Enabled, Once, Homed, Lodged, Present, Inv, Taken;
    StepTouches(s, a, r);
    assert QueueFits(s, r);
    if Touch(s, a).Some? && Touch(s, a).value.0 == r {
      var access := Touch(s, a).value.1;
      TouchedEnabled(s, a);
      StepTaken(Q(s, r), access);
      GotOne(Q(s, r), access);
    }
  }

  lemma GotOne(q: Queue, access: Action)
    ensures Got(q, [access])
      == if access.Acknowledge? && q.consumer.Returned? && q.consumer.result.Some? then [q.consumer.result.value] else []
  {
    assert [access][1..] == [];
    hide Apply;
  }

  lemma QuietDelivers(s: State, a: Step, r: nat)
    requires Can(s, a) && Quiet(s, a)
    ensures Delivered(s, a, r) == []
  {
  }

  lemma PoppedOut(s: State, t: ThreadId, final: bool)
    requires s.serial.list != []
    ensures Popped(s, t, final).out == s.out && Popped(s, t, final).peeked == s.peeked && Popped(s, t, final).crypt == s.crypt
    ensures Popped(s, t, final).ends == s.ends
  {
  }

  lemma GotItemOut(s: State, t: ThreadId, p: nat, n: Ptr, th: Thread, r: nat)
    requires p !in s.peeked
    ensures var s' := GotItem(s, t, p, n, th);
      Out(s', r) + Peeked(s', r) == Out(s, r) + Peeked(s, r) + (if r == p then [n] else [])
  {
    hide Apply;
  }

  lemma ReleasedOut(s: State, t: ThreadId, p: nat, good: bool, th: Thread, r: nat)
    requires p in s.peeked
    ensures var s' := Released(s, t, p, s.peeked[p], good, th); Out(s', r) + Peeked(s', r) == Out(s, r) + Peeked(s, r)
  {
  }

  lemma PeekOut(s: State, t: ThreadId, r: nat)
    requires Service(s) && Can(s, Peek(t)) && Delivers(s, s.threads[t].peer).Some?
    ensures Out(Next(s, Peek(t)), r) + Peeked(Next(s, Peek(t)), r) == Out(s, r) + Peeked(s, r) + Delivered(s, Peek(t), r)
  {
    hide BeginStep, InsertStep, EnqueueStep, HandStep, MarkStep, WakeStep, EndStep, FetchStep, ServeStep, JudgeStep, RetireStep;
    hide Q, GotItem, Consumed, GotNull;
    var th := s.threads[t];
    assert ServerFits(s, t, th);
    GotItemOut(s, t, th.peer, Delivers(s, th.peer).value, Judging(th.peer, th.budget, th.final), r);
  }

  lemma JudgeOut(s: State, t: ThreadId, p: nat, budget: nat, final: bool, valid: bool, r: nat)
    requires p in s.peeked && s.peeked[p] in s.crypt && budget > 0 && !s.crypt[s.peeked[p]].Uncrypted?
    ensures var s' := JudgeStep(s, t, p, budget, final, valid); Out(s', r) + Peeked(s', r) == Out(s, r) + Peeked(s, r)
  {
    hide Released, Goto, Out, Peeked;
    ReleasedOut(s, t, p, GoesUp(s, s.peeked[p], valid), Peeking(p, budget - 1, final), r);
  }

  /** A packet moves from Dequeue to Peeked, or from Peeked to the released ones. */
  lemma OutStep(s: State, a: Step, r: nat)
    requires Service(s) && Can(s, a)
    ensures Out(Next(s, a), r) + Peeked(Next(s, a), r) == Out(s, r) + Peeked(s, r) + Delivered(s, a, r)
  {
    if Quiet(s, a) {
      hide Next, Quiet, Delivered, Service, Can;
      QuietKeeps(s, a);
      QuietDelivers(s, a, r);
    } else if a.Peek? {
      PeekOut(s, a.t, r);
    } else if a.Judge? {
      hide BeginStep, InsertStep, EnqueueStep, HandStep, MarkStep, WakeStep, EndStep, FetchStep, PeekStep, ServeStep, JudgeStep, RetireStep, Q;
      JudgeOut(s, a.t, s.threads[a.t].peer, s.threads[a.t].budget, s.threads[a.t].final, a.valid, r);
    } else {
      hide BeginStep, EnqueueStep, HandStep, EndStep, FetchStep, PeekStep, JudgeStep, Service, Q, Popped;
      if a.Serve? { PoppedOut(s, a.t, s.threads[a.t].final); }
    }
  }

  lemma HandledKeeps(s: State, a: Step, r: nat)
    requires Custody(s) && Service(s) && Queues(s) && Can(s, a) && Handled(s, r)
    ensures Handled(Next(s, a), r)
  {
    hide Custody, Service, Queues, Can, Next, Q, Taken, Out, Peeked, Delivered;
    TouchedTaken(s, a, r);
    OutStep(s, a, r);
  }

  // ---------------------------------------------------------------- released packets keep their state

  /** A stored state stays stored. */
  lemma SoundKeeps(s: State, a: Step, n: Ptr)
    requires Can(s, a) && Sound(s, n) && (a.Insert? ==> n in s.place)
    ensures Sound(Next(s, a), n)
  {
    if Quiet(s, a) {
      hide Next, Quiet, Can;
      QuietKeeps(s, a);
    } else {
      hide BeginStep, EnqueueStep, HandStep, EndStep, FetchStep, PeekStep, JudgeStep, Q, Popped;
      match a
      case Serve(t) => PoppedOut(s, t, s.threads[t].final);
      case Peek(t) => PeekCrypt(s, t, s.threads[t].peer, s.threads[t].budget, s.threads[t].final);
      case Judge(t, valid) => JudgeCrypt(s, t, s.threads[t].peer, s.threads[t].budget, s.threads[t].final, valid);
      case _ =>
    }
  }

  lemma OutcomeCrypt(s: State, t: ThreadId, p: nat, n: Ptr, good: bool, th: Thread)
    ensures GotItem(s, t, p, n, th).crypt == s.crypt && GotItem(s, t, p, n, th).out == s.out
    ensures GotItem(s, t, p, n, th).ends == s.ends
    ensures Released(s, t, p, n, good, th).crypt == s.crypt
  {
    hide Apply;
  }

  lemma PeekCrypt(s: State, t: ThreadId, p: nat, budget: nat, final: bool)
    ensures PeekStep(s, t, p, budget, final).crypt == s.crypt && PeekStep(s, t, p, budget, final).out == s.out
    ensures PeekStep(s, t, p, budget, final).ends == s.ends
  {
    hide GotItem, GotNull, Consumed, Q;
    ConsumingKeeps(s, t, p, Retiring(p, false, final));
    if Delivers(s, p).Some? { OutcomeCrypt(s, t, p, Delivers(s, p).value, false, Judging(p, budget, final)); }
  }

  lemma JudgeCrypt(s: State, t: ThreadId, p: nat, budget: nat, final: bool, valid: bool)
    requires p in s.peeked && s.peeked[p] in s.crypt
    ensures JudgeStep(s, t, p, budget, final, valid).crypt == s.crypt
  {
    hide Goto, Released;
    GotoKeeps(s, t, Retiring(p, false, final));
    GotoKeeps(s, t, Retiring(p, true, final));
    if budget > 0 { OutcomeCrypt(s, t, p, s.peeked[p], GoesUp(s, s.peeked[p], valid), Peeking(p, budget - 1, final)); }
  }

  lemma OutLodged(s: State, r: nat, i: nat)
    requires Queues(s) && Handled(s, r) && i < |Out(s, r)|
    ensures Out(s, r)[i] in s.place
  {
    hide Inv, Once, Homed, Lodged, Q, Taken, Out;
    assert QueueFits(s, r);
    assert Out(s, r)[i] in Taken(Q(s, r)) by { assert Taken(Q(s, r))[i] == Out(s, r)[i]; }
    TakenLodged(s, r, Out(s, r)[i]);
  }

  /** Every release is one packet whose state is stored. */
  lemma OutGrows(s: State, a: Step, r: nat)
    requires Service(s) && Can(s, a)
    ensures Out(Next(s, a), r) == Out(s, r)
         || (!a.Insert? && exists n :: Sound(s, n) && Out(Next(s, a), r) == Out(s, r) + [n])
  {
    if Quiet(s, a) {
      hide Next, Quiet, Can, Service;
      QuietKeeps(s, a);
    } else {
      hide BeginStep, EnqueueStep, HandStep, EndStep, FetchStep, PeekStep, JudgeStep, Q, Popped, Service;
      match a
      case Serve(t) => PoppedOut(s, t, s.threads[t].final);
      case Peek(t) => PeekCrypt(s, t, s.threads[t].peer, s.threads[t].budget, s.threads[t].final);
      case Judge(t, valid) => ReleaseGrows(s, t, s.threads[t].peer, s.threads[t].budget, s.threads[t].final, valid, r);
      case _ =>
    }
  }

  lemma ReleaseGrows(s: State, t: ThreadId, p: nat, budget: nat, final: bool, valid: bool, r: nat)
    requires p in s.peeked && s.peeked[p] in s.crypt && budget > 0 && !s.crypt[s.peeked[p]].Uncrypted?
    ensures Sound(s, s.peeked[p])
    ensures Out(JudgeStep(s, t, p, budget, final, valid), r) == Out(s, r) + if r == p then [s.peeked[p]] else []
  {
  }

  lemma OutFitsKeeps(s: State, a: Step, r: nat)
    requires Service(s) && Queues(s) && Can(s, a) && Handled(s, r) && OutFits(s, r)
    ensures OutFits(Next(s, a), r)
  {
    hide Service, Queues, Can, Next, Handled, Out;
    OutGrows(s, a, r);
    var s' := Next(s, a);
    forall i | 0 <= i < |Out(s', r)| ensures Sound(s', Out(s', r)[i]) {
      var n := Out(s', r)[i];
      if i < |Out(s, r)| { OutLodged(s, r, i); }
      SoundKeeps(s, a, n);
    }
  }

  lemma ReleaseKeeps(s: State, a: Step)
    requires Custody(s) && Service(s) && Queues(s) && Release(s) && Can(s, a)
    ensures Release(Next(s, a))
  {
    hide Custody, Service, Queues, Can, Next, Handled, OutFits;
    forall p: nat ensures Handled(Next(s, a), p) { HandledKeeps(s, a, p); }
    forall p: nat ensures OutFits(Next(s, a), p) { OutFitsKeeps(s, a, p); }
  }
}
