/** The list of peers with work, and the threads that serve them: one thread at most serves a peer. */
module PipelineService {
  import opened PrevQueue
  import opened Pipeline
  import opened PipelineCustody

  // ---------------------------------------------------------------- the list and its servers

  /** A serving thread is the runner of its peer, and has looked at Peeked. */
  ghost predicate ServerFits(s: State, t: ThreadId, th: Thread) {
    && (PeerOf(th).Some? ==> PeerOf(th).value in s.runner && s.runner[PeerOf(th).value] == t)
    && (th.Peeking? ==> th.peer !in s.peeked)
    && (th.Judging? ==> th.peer in s.peeked)
  }

  /** A peer is idle, on the list once, or served by exactly one thread. */
  ghost predicate ListInv(s: State) {
    && (forall i, j :: 0 <= i < j < |s.serial.list| ==> s.serial.list[i] != s.serial.list[j])
    && (forall i :: 0 <= i < |s.serial.list| ==> s.serial.list[i] in s.serial.busy && s.serial.list[i] !in s.runner)
    && (forall p :: p in s.serial.busy ==> p in s.serial.list || p in s.runner)
    && (forall p :: p in s.serial.requeue ==> p in s.serial.busy)
  }

  ghost predicate RunnerInv(s: State) {
    forall p :: p in s.runner ==>
      p in s.serial.busy && s.runner[p] in s.threads && PeerOf(s.threads[s.runner[p]]) == Some(p)
  }

  /** Only a thread inside Dequeue leaves a queue's consumer in the middle of something. */
  ghost predicate RestInv(s: State) {
    forall p :: p in s.queues && !s.queues[p].consumer.Rest? ==>
      p in s.runner && s.runner[p] in s.threads && s.threads[s.runner[p]].Peeking?
  }

  ghost predicate ServerInv(s: State) {
    forall t :: t in s.threads ==> ServerFits(s, t, s.threads[t])
  }

  ghost predicate Service(s: State) {
    ListInv(s) && RunnerInv(s) && RestInv(s) && ServerInv(s)
  }

  /** Only t moves, and it neither serves nor takes a peer. */
  ghost predicate MovesUnserving(s: State, s': State, t: ThreadId, th: Option<Thread>) {
    && s'.threads == Moved(s.threads, t, th)
    && (t in s.threads ==> PeerOf(s.threads[t]).None?)
    && (th.Some? ==> PeerOf(th.value).None?)
    && s'.serial == s.serial && s'.runner == s.runner && s'.peeked == s.peeked
    && (forall p :: p in s'.queues ==> s'.queues[p].consumer == Q(s, p).consumer)
  }

  lemma ServiceUntouched(s: State, s': State, t: ThreadId, th: Option<Thread>)
    requires Service(s) && MovesUnserving(s, s', t, th)
    ensures Service(s')
  {
    forall p | p in s'.queues && !s'.queues[p].consumer.Rest?
      ensures p in s'.runner && s'.runner[p] in s'.threads && s'.threads[s'.runner[p]].Peeking?
    {
      assert p in s.queues;
    }
    forall u | u in s'.threads ensures ServerFits(s', u, s'.threads[u]) {
      if u != t { assert ServerFits(s, u, s.threads[u]); }
    }
  }

  lemma WakeService(s: State, t: ThreadId, n: Ptr, k: nat, worker: bool)
    requires Service(s) && n.Nbl? && t in s.threads && PeerOf(s.threads[t]).None?
    ensures Service(WakeStep(s, t, n, k, worker))
  {
    var s' := WakeStep(s, t, n, k, worker);
    forall u | u in s'.threads ensures ServerFits(s', u, s'.threads[u]) {
      assert ServerFits(s, u, s.threads[u]);
    }
  }

  lemma PoppedRest(s: State, t: ThreadId, final: bool)
    requires Service(s) && s.serial.list != [] && t in s.threads && PeerOf(s.threads[t]).None?
    ensures RestInv(Popped(s, t, final))
  {
    assert s.serial.list[0] !in s.runner;
    hide ServerInv;
  }

  lemma PoppedService(s: State, t: ThreadId, final: bool)
    requires Service(s) && s.serial.list != [] && t in s.threads && PeerOf(s.threads[t]).None?
    ensures Service(Popped(s, t, final))
  {
    hide Popped, ListInv, RunnerInv, RestInv, ServerInv;
    PoppedList(s, t, final);
    PoppedRunners(s, t, final);
    PoppedRest(s, t, final);
    PoppedServers(s, t, final);
  }

  lemma PoppedList(s: State, t: ThreadId, final: bool)
    requires Service(s) && s.serial.list != []
    ensures ListInv(Popped(s, t, final))
  {
    hide RestInv, ServerInv, RunnerInv;
  }

  lemma PoppedRunners(s: State, t: ThreadId, final: bool)
    requires Service(s) && s.serial.list != [] && t in s.threads && PeerOf(s.threads[t]).None?
    ensures RunnerInv(Popped(s, t, final))
  {
    hide RestInv, ServerInv;
  }

  lemma PoppedServers(s: State, t: ThreadId, final: bool)
    requires Service(s) && s.serial.list != [] && t in s.threads && PeerOf(s.threads[t]).None?
    ensures ServerInv(Popped(s, t, final))
  {
    hide RestInv;
    var s' := Popped(s, t, final);
    forall u | u in s'.threads ensures ServerFits(s', u, s'.threads[u]) {
      assert ServerFits(s, u, s.threads[u]);
    }
  }

  /** The server of p moves on, Peeked of p may change, nothing else. */
  lemma ServerMoves(s: State, s': State, t: ThreadId, p: nat, th: Thread)
    requires Service(s) && t in s.threads && PeerOf(s.threads[t]) == Some(p) && PeerOf(th) == Some(p)
    requires s'.threads == s.threads[t := th] && s'.serial == s.serial && s'.runner == s.runner
    requires s'.peeked - {p} == s.peeked - {p}
    requires th.Peeking? ==> p !in s'.peeked
    requires th.Judging? ==> p in s'.peeked
    requires forall r :: r in s'.queues && r != p ==> s'.queues[r].consumer == Q(s, r).consumer
    requires p in s'.queues && !s'.queues[p].consumer.Rest? ==> th.Peeking?
    ensures Service(s')
  {
    assert ServerFits(s, t, s.threads[t]);
    forall u | u in s'.threads ensures ServerFits(s', u, s'.threads[u]) {
      assert ServerFits(s, u, s.threads[u]);
      if u != t && PeerOf(s.threads[u]).Some? {
        var r := PeerOf(s.threads[u]).value;
        assert r != p;
        assert r in s.peeked <==> r in s.peeked - {p};
        assert r in s'.peeked <==> r in s'.peeked - {p};
      }
    }
    forall r | r in s'.queues && !s'.queues[r].consumer.Rest?
      ensures r in s'.runner && s'.runner[r] in s'.threads && s'.threads[s'.runner[r]].Peeking?
    {
      if r != p { assert r in s.queues; }
    }
  }

  lemma RetireService(s: State, t: ThreadId, p: nat, more: bool, final: bool)
    requires Service(s) && t in s.threads && s.threads[t] == Retiring(p, more, final)
    ensures Service(RetireStep(s, t, p, more, final))
  {
    var s' := RetireStep(s, t, p, more, final);
    assert ServerFits(s, t, s.threads[t]);
    forall u | u in s'.threads ensures ServerFits(s', u, s'.threads[u]) {
      assert ServerFits(s, u, s.threads[u]);
    }
  }

  /** A step that touches neither the list nor a queue. */
  ghost predicate MovesSpare(s: State, s': State, t: ThreadId, th: Option<Thread>) {
    && s'.threads == Moved(s.threads, t, th)
    && (t in s.threads ==> PeerOf(s.threads[t]).None?)
    && (th.Some? ==> PeerOf(th.value).None?)
    && s'.serial == s.serial && s'.runner == s.runner && s'.peeked == s.peeked && s'.queues == s.queues
    && s'.out == s.out
  }

  lemma SpareService(s: State, s': State, t: ThreadId, th: Option<Thread>)
    requires Service(s) && MovesSpare(s, s', t, th)
    ensures Service(s')
  {
    hide Service;
    ServiceUntouched(s, s', t, th);
  }

  /** Where a step that touches neither the list nor a queue leaves its thread. */
  function SpareTarget(s: State, a: Step): Option<Thread>
    requires Can(s, a) && SpareStep(a)
  {
    match a
    case Begin(t) => Some(Inserting(|s.batches|))
    case Insert(t, n) => Some(Enqueuing(n, s.threads[t].batch))
    case Hand(t, ok) =>
      var k := s.threads[t].batch;
      if s.batches[k].items == [] then None else if ok then Some(Bumping) else Some(Marking(k, false))
    case Mark(t, ok) =>
      var b := s.batches[s.threads[t].batch];
      Some(Waking(b.items[b.marked], s.threads[t].batch, s.threads[t].worker))
    case EndBatch(t) => Some(EndTarget(s.threads[t].worker))
    case Bump(t) => None
    case Rouse(t) => Some(Fetching)
    case Fetch(t) => if s.ring == [] then Some(Serving(true)) else Some(Marking(s.ring[0], true))
  }

  predicate SpareStep(a: Step) {
    a.Begin? || a.Insert? || a.Hand? || a.Mark? || a.EndBatch? || a.Bump? || a.Rouse? || a.Fetch?
  }

  lemma GotoSpare(s: State, t: ThreadId, th: Thread)
    requires t in s.threads && PeerOf(s.threads[t]).None? && PeerOf(th).None?
    ensures MovesSpare(s, Goto(s, t, th), t, Some(th))
  {
  }

  lemma LeaveSpare(s: State, t: ThreadId, k: nat)
    requires t in s.threads && PeerOf(s.threads[t]).None? && k < |s.batches|
    ensures MovesSpare(s, Leave(Owned(s, k, Gone), t), t, None)
  {
  }

  lemma AcceptedSpare(s: State, t: ThreadId, k: nat)
    requires t in s.threads && PeerOf(s.threads[t]).None? && k < |s.batches|
    ensures MovesSpare(s, Accepted(s, t, k), t, Some(Bumping))
  {
  }

  lemma FetchedSpare(s: State, t: ThreadId)
    requires t in s.threads && PeerOf(s.threads[t]).None? && s.ring != [] && s.ring[0] < |s.batches|
    ensures MovesSpare(s, Fetched(s, t), t, Some(Marking(s.ring[0], true)))
  {
  }

  lemma HandMoves(s: State, t: ThreadId, ok: bool)
    requires Can(s, Hand(t, ok))
    ensures MovesSpare(s, HandStep(s, t, s.threads[t].batch, ok), t, SpareTarget(s, Hand(t, ok)))
  {
    hide MovesSpare, Goto, Leave, Owned, Accepted;
    var k := s.threads[t].batch;
    LeaveSpare(s, t, k);
    AcceptedSpare(s, t, k);
    GotoSpare(s, t, Marking(k, false));
  }

  lemma FetchMoves(s: State, t: ThreadId)
    requires Can(s, Fetch(t))
    ensures MovesSpare(s, FetchStep(s, t), t, SpareTarget(s, Fetch(t)))
  {
    hide MovesSpare, Goto, Fetched;
    GotoSpare(s, t, Serving(true));
    if s.ring != [] { FetchedSpare(s, t); }
  }

  lemma EndMoves(s: State, t: ThreadId)
    requires Can(s, EndBatch(t))
    ensures MovesSpare(s, EndStep(s, t, s.threads[t].batch, s.threads[t].worker), t, SpareTarget(s, EndBatch(t)))
  {
  }

  lemma SpareMoves(s: State, a: Step)
    requires Can(s, a) && SpareStep(a)
    ensures MovesSpare(s, Next(s, a), a.t, SpareTarget(s, a))
  {
    hide EnqueueStep, HandStep, EndStep, FetchStep, WakeStep, ServeStep, PeekStep, JudgeStep, RetireStep;
    match a
    case Hand(t, ok) => HandMoves(s, t, ok);
    case Fetch(t) => FetchMoves(s, t);
    case EndBatch(t) => EndMoves(s, t);
    case _ =>
  }

  // ---------------------------------------------------------------- what a step does to a queue

  /** The queue a step works on, and its access there. */
  function Touch(s: State, a: Step): Option<(nat, Action)>
    requires Can(s, a)
  {
    match a
    case Enqueue(t) =>
      var p := s.threads[t].nbl.peer;
      Some((p, EnqueueAction(Q(s, p), t, s.threads[t].nbl)))
    case Peek(t) =>
      var p := s.threads[t].peer;
      Some((p, if Q(s, p).consumer.Returned? then Acknowledge else Consume))
    case _ => None
  }

  function EnqueueAction(q: Queue, t: ThreadId, n: Ptr): Action {
    match Pc(q, t)
    case Idle => if q.count == MAX_QUEUED_PACKETS then Refuse(t) else Count(t, n)
    case Counted(_) => ClearLink(t)
    case Cleared(_) => SwapHead(t)
    case Swapped(_, _, _) => StoreLink(t)
  }

  /** The queue of r after the step. */
  function Touched(s: State, a: Step, r: nat): Queue
    requires Can(s, a)
  {
    if Touch(s, a).Some? && Touch(s, a).value.0 == r then Apply(Q(s, r), Touch(s, a).value.1) else Q(s, r)
  }

  lemma EnqueueTouches(s: State, t: ThreadId, r: nat)
    requires Can(s, Enqueue(t))
    ensures Q(EnqueueStep(s, t, s.threads[t].nbl, s.threads[t].batch), r) == Touched(s, Enqueue(t), r)
  {
    hide Apply, Pc, Produced, Linked, Refused, Q, Touched;
    var n, k := s.threads[t].nbl, s.threads[t].batch;
    var q := Q(s, n.peer);
    RefusedTouches(s, t, n, k, r);
    ProducedTouches(s, n.peer, EnqueueAction(q, t, n), r);
    LinkedTouches(s, t, n, k, r);
    assert Touched(s, Enqueue(t), r) == if n.peer == r then Apply(q, EnqueueAction(q, t, n)) else Q(s, r) by {
      TouchedBy(s, Enqueue(t), r);
    }
  }

  lemma TouchedBy(s: State, a: Step, r: nat)
    requires Can(s, a)
    ensures Touched(s, a, r)
         == if Touch(s, a).Some? && Touch(s, a).value.0 == r then Apply(Q(s, r), Touch(s, a).value.1) else Q(s, r)
  {
  }

  lemma RefusedTouches(s: State, t: ThreadId, n: Ptr, k: nat, r: nat)
    ensures Q(Refused(s, t, n, k), r) == Q(s, r)
    ensures Apply(Q(s, r), Refuse(t)) == Q(s, r)
  {
    hide ProducerStep, ConsumeStep;
  }

  lemma ProducedTouches(s: State, p: nat, access: Action, r: nat)
    ensures Q(Produced(s, p, access), r) == if r == p then Apply(Q(s, r), access) else Q(s, r)
  {
    hide Apply;
  }

  lemma LinkedTouches(s: State, t: ThreadId, n: Ptr, k: nat, r: nat)
    requires n.Nbl? && k < |s.batches|
    ensures Q(Linked(s, t, n, k), r) == if r == n.peer then Apply(Q(s, r), StoreLink(t)) else Q(s, r)
  {
    hide Apply;
  }

  lemma PeekTouches(s: State, t: ThreadId, p: nat, budget: nat, final: bool, r: nat)
    ensures Q(PeekStep(s, t, p, budget, final), r)
      == if r == p then Apply(Q(s, r), if Q(s, p).consumer.Returned? then Acknowledge else Consume) else Q(s, r)
  {
    hide Apply;
  }

  lemma JudgeTouches(s: State, t: ThreadId, p: nat, budget: nat, final: bool, valid: bool, r: nat)
    requires p in s.peeked && s.peeked[p] in s.crypt
    ensures Q(JudgeStep(s, t, p, budget, final, valid), r) == Q(s, r)
  {
    hide Released;
    if budget > 0 { ReleasedTouches(s, t, p, s.peeked[p], GoesUp(s, s.peeked[p], valid), Peeking(p, budget - 1, final)); }
  }

  lemma ReleasedTouches(s: State, t: ThreadId, p: nat, n: Ptr, good: bool, th: Thread)
    ensures Released(s, t, p, n, good, th).queues == s.queues
  {
  }

  lemma StepTouches(s: State, a: Step, r: nat)
    requires Can(s, a)
    ensures Q(Next(s, a), r) == Touched(s, a, r)
  {
    hide BeginStep, InsertStep, HandStep, MarkStep, EndStep, FetchStep, EnqueueStep, PeekStep, JudgeStep, Apply, EnqueueAction, Popped;
    if SpareStep(a) {
      SpareMoves(s, a);
      assert Next(s, a).queues == s.queues;
    }
    match a
    case Enqueue(t) => EnqueueTouches(s, t, r);
    case Peek(t) => PeekTouches(s, t, s.threads[t].peer, s.threads[t].budget, s.threads[t].final, r);
    case Judge(t, valid) => JudgeTouches(s, t, s.threads[t].peer, s.threads[t].budget, s.threads[t].final, valid, r);
    case Serve(t) => ServeTouches(s, t, s.threads[t].final, r);
    case _ =>
  }

  lemma PoppedTouches(s: State, t: ThreadId, final: bool)
    requires s.serial.list != []
    ensures Popped(s, t, final).queues == s.queues
  {
  }

  lemma ServeTouches(s: State, t: ThreadId, final: bool, r: nat)
    ensures Q(ServeStep(s, t, final), r) == Q(s, r)
  {
    hide Popped;
    if s.serial.list != [] { PoppedTouches(s, t, final); }
  }

  // ---------------------------------------------------------------- every step keeps it

  lemma RefusedUnserving(s: State, t: ThreadId, n: Ptr, k: nat)
    requires t in s.threads && PeerOf(s.threads[t]).None?
    ensures MovesUnserving(s, Refused(s, t, n, k), t, Some(Inserting(k)))
  {
  }

  /** Producers leave the consumer alone. */
  lemma ProducedUnserving(s: State, t: ThreadId, p: nat, access: Action)
    requires t in s.threads && PeerOf(s.threads[t]).None?
    requires !access.Consume? && !access.Acknowledge?
    ensures MovesUnserving(s, Produced(s, p, access), t, Some(s.threads[t]))
  {
    ProducerAlone(Q(s, p), access);
    hide Apply;
  }

  lemma ProducerAlone(q: Queue, access: Action)
    requires !access.Consume? && !access.Acknowledge?
    ensures Apply(q, access).consumer == q.consumer
  {
    hide ConsumeStep;
  }

  lemma LinkedUnserving(s: State, t: ThreadId, n: Ptr, k: nat)
    requires n.Nbl? && k < |s.batches|
    requires t in s.threads && PeerOf(s.threads[t]).None?
    ensures MovesUnserving(s, Linked(s, t, n, k), t, Some(Inserting(k)))
  {
    ProducerAlone(Q(s, n.peer), StoreLink(t));
    hide Apply;
  }

  lemma EnqueueService(s: State, t: ThreadId)
    requires Service(s) && Can(s, Enqueue(t))
    ensures Service(EnqueueStep(s, t, s.threads[t].nbl, s.threads[t].batch))
  {
    var n, k := s.threads[t].nbl, s.threads[t].batch;
    hide Service, MovesUnserving, Apply, Q, Refused, Produced, Linked;
    var q := Q(s, n.peer);
    if Pc(q, t).Idle? && q.count == MAX_QUEUED_PACKETS {
      RefusedUnserving(s, t, n, k);
      ServiceUntouched(s, Refused(s, t, n, k), t, Some(Inserting(k)));
    } else if Pc(q, t).Swapped? {
      LinkedUnserving(s, t, n, k);
      ServiceUntouched(s, Linked(s, t, n, k), t, Some(Inserting(k)));
    } else {
      var access := EnqueueAction(q, t, n);
      ProducedUnserving(s, t, n.peer, access);
      ServiceUntouched(s, Produced(s, n.peer, access), t, Some(s.threads[t]));
    }
  }

  lemma ConsumedService(s: State, t: ThreadId, p: nat)
    requires Service(s) && t in s.threads && s.threads[t].Peeking? && s.threads[t].peer == p
    ensures Service(Consumed(s, p))
  {
    assert ServerFits(s, t, s.threads[t]);
    assert Consumed(s, p).threads == s.threads[t := s.threads[t]];
    hide Service, Apply;
    ServerMoves(s, Consumed(s, p), t, p, s.threads[t]);
  }

  lemma GotNullService(s: State, t: ThreadId, p: nat, final: bool)
    requires Service(s) && t in s.threads && PeerOf(s.threads[t]) == Some(p)
    requires Q(s, p).consumer.Returned?
    ensures Service(GotNull(s, t, p, Retiring(p, false, final)))
  {
    hide Service;
    ServerMoves(s, GotNull(s, t, p, Retiring(p, false, final)), t, p, Retiring(p, false, final));
  }

  lemma GotItemService(s: State, t: ThreadId, p: nat, n: Ptr, budget: nat, final: bool)
    requires Service(s) && t in s.threads && PeerOf(s.threads[t]) == Some(p)
    ensures Service(GotItem(s, t, p, n, Judging(p, budget, final)))
  {
    hide Service;
    var s' := GotItem(s, t, p, n, Judging(p, budget, final));
    assert s'.peeked - {p} == s.peeked - {p};
    ServerMoves(s, s', t, p, Judging(p, budget, final));
  }

  lemma PeekService(s: State, t: ThreadId)
    requires Service(s) && Can(s, Peek(t))
    ensures Service(PeekStep(s, t, s.threads[t].peer, s.threads[t].budget, s.threads[t].final))
  {
    hide Service, Consumed, GotNull, GotItem;
    var th := s.threads[t];
    var c := Q(s, th.peer).consumer;
    if !c.Returned? { ConsumedService(s, t, th.peer); }
    else if c.result.None? { GotNullService(s, t, th.peer, th.final); }
    else { GotItemService(s, t, th.peer, c.result.value, th.budget, th.final); }
  }

  /** The server of p has p's queue at rest unless it is inside Dequeue. */
  lemma AtRest(s: State, t: ThreadId, p: nat)
    requires Service(s) && t in s.threads && PeerOf(s.threads[t]) == Some(p) && !s.threads[t].Peeking?
    ensures Q(s, p).consumer.Rest?
  {
    assert ServerFits(s, t, s.threads[t]);
  }

  lemma TurnedService(s: State, t: ThreadId, p: nat, more: bool, final: bool)
    requires Service(s) && t in s.threads && PeerOf(s.threads[t]) == Some(p) && !s.threads[t].Peeking?
    ensures Service(Goto(s, t, Retiring(p, more, final)))
  {
    AtRest(s, t, p);
    hide Service;
    ServerMoves(s, Goto(s, t, Retiring(p, more, final)), t, p, Retiring(p, more, final));
  }

  lemma ReleasedService(s: State, t: ThreadId, p: nat, n: Ptr, good: bool, budget: nat, final: bool)
    requires Service(s) && t in s.threads && PeerOf(s.threads[t]) == Some(p)
    ensures Service(Released(s, t, p, n, good, Peeking(p, budget, final)))
  {
    hide Service;
    ServerMoves(s, Released(s, t, p, n, good, Peeking(p, budget, final)), t, p, Peeking(p, budget, final));
  }

  lemma JudgeService(s: State, t: ThreadId, valid: bool)
    requires Service(s) && Can(s, Judge(t, valid))
    ensures Service(JudgeStep(s, t, s.threads[t].peer, s.threads[t].budget, s.threads[t].final, valid))
  {
    hide Service, Goto, Released;
    var th := s.threads[t];
    var n := s.peeked[th.peer];
    if s.crypt[n].Uncrypted? { TurnedService(s, t, th.peer, false, th.final); }
    else if th.budget == 0 { TurnedService(s, t, th.peer, true, th.final); }
    else { ReleasedService(s, t, th.peer, n, GoesUp(s, n, valid), th.budget - 1, th.final); }
  }

  lemma ServeService(s: State, t: ThreadId)
    requires Service(s) && Can(s, Serve(t))
    ensures Service(ServeStep(s, t, s.threads[t].final))
  {
    hide Service, Popped;
    if s.serial.list != [] { PoppedService(s, t, s.threads[t].final); }
    else { SpareService(s, ServeStep(s, t, s.threads[t].final), t, if s.threads[t].final then None else Some(Fetching)); }
  }

  lemma ServiceKeeps(s: State, a: Step)
    requires Service(s) && Can(s, a)
    ensures Service(Next(s, a))
  {
    hide Service, MovesSpare, BeginStep, InsertStep, EnqueueStep, HandStep, MarkStep, WakeStep, EndStep, FetchStep, ServeStep, PeekStep, JudgeStep, RetireStep;
    match a
    case Enqueue(t) => EnqueueService(s, t);
    case Wake(t) => WakeService(s, t, s.threads[t].nbl, s.threads[t].batch, s.threads[t].worker);
    case Serve(t) => ServeService(s, t);
    case Peek(t) => PeekService(s, t);
    case Judge(t, valid) => JudgeService(s, t, valid);
    case Retire(t) => RetireService(s, t, s.threads[t].peer, s.threads[t].more, s.threads[t].final);
    case _ =>
      SpareMoves(s, a);
      SpareService(s, Next(s, a), a.t, SpareTarget(s, a));
  }

  /** At most one thread runs a peer's release loop. */
  lemma OneServer(s: State, t: ThreadId, u: ThreadId)
    requires Service(s) && t in s.threads && u in s.threads
    requires PeerOf(s.threads[t]).Some? && PeerOf(s.threads[t]) == PeerOf(s.threads[u])
    ensures t == u
  {
    assert ServerFits(s, t, s.threads[t]) && ServerFits(s, u, s.threads[u]);
  }
}
