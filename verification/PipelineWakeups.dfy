/** No wakeup is lost: a peer that is about to be left alone has an empty queue, or somebody is still
    to report one of its packets, or has asked for another round. */
module PipelineWakeups {
  import opened PrevQueue
  import opened PeerSerial
  import opened Pipeline
  import opened PipelineCustody
  import opened PipelineService
  import opened PipelineQueues
  import opened PipelineRelease

  // ---------------------------------------------------------------- what a step does to the list

  function SerialAfter(s: State, a: Step): Serial
    requires Can(s, a)
  {
    match a
    case Wake(t) => Enqueued(s.serial, s.threads[t].nbl.peer, true)
    case Serve(t) => if s.serial.list == [] then s.serial else Dequeued(s.serial)
    case Retire(t) => Retired(s.serial, s.threads[t].peer, s.threads[t].more)
    case _ => s.serial
  }

  function RunnerAfter(s: State, a: Step): map<nat, ThreadId>
    requires Can(s, a)
  {
    match a
    case Serve(t) => if s.serial.list == [] then s.runner else s.runner[s.serial.list[0] := t]
    case Retire(t) => s.runner - {s.threads[t].peer}
    case _ => s.runner
  }

  lemma OutcomeSerial(s: State, t: ThreadId, p: nat, n: Ptr, good: bool, th: Thread)
    ensures GotItem(s, t, p, n, th).serial == s.serial && GotItem(s, t, p, n, th).runner == s.runner
    ensures Released(s, t, p, n, good, th).serial == s.serial && Released(s, t, p, n, good, th).runner == s.runner
    ensures Released(s, t, p, n, good, th).peeked == s.peeked - {p}
  {
    hide Apply;
  }

  lemma PoppedSerial(s: State, t: ThreadId, final: bool)
    requires s.serial.list != []
    ensures Popped(s, t, final).serial == Dequeued(s.serial)
    ensures Popped(s, t, final).runner == s.runner[s.serial.list[0] := t]
  {
  }

  lemma PeekSerial(s: State, t: ThreadId, p: nat, budget: nat, final: bool)
    ensures PeekStep(s, t, p, budget, final).serial == s.serial && PeekStep(s, t, p, budget, final).runner == s.runner
  {
    hide GotItem, GotNull, Consumed, Q;
    ConsumingKeeps(s, t, p, Retiring(p, false, final));
    if Delivers(s, p).Some? { OutcomeSerial(s, t, p, Delivers(s, p).value, false, Judging(p, budget, final)); }
  }

  lemma JudgeSerial(s: State, t: ThreadId, p: nat, budget: nat, final: bool, valid: bool)
    requires p in s.peeked && s.peeked[p] in s.crypt
    ensures JudgeStep(s, t, p, budget, final, valid).serial == s.serial && JudgeStep(s, t, p, budget, final, valid).runner == s.runner
  {
    hide Goto, Released;
    GotoKeeps(s, t, Retiring(p, false, final));
    GotoKeeps(s, t, Retiring(p, true, final));
    if budget > 0 { OutcomeSerial(s, t, p, s.peeked[p], GoesUp(s, s.peeked[p], valid), Peeking(p, budget - 1, final)); }
  }

  lemma StepSerial(s: State, a: Step)
    requires Can(s, a)
    ensures Next(s, a).serial == SerialAfter(s, a) && Next(s, a).runner == RunnerAfter(s, a)
  {
    if Quiet(s, a) {
      hide Next, Enqueued, Dequeued, Retired;
      QuietKeeps(s, a);
    } else {
      hide BeginStep, EnqueueStep, HandStep, EndStep, FetchStep, PeekStep, JudgeStep, Q, Popped, Enqueued, Dequeued, Retired;
      match a
      case Serve(t) => PoppedSerial(s, t, s.threads[t].final);
      case Peek(t) => PeekSerial(s, t, s.threads[t].peer, s.threads[t].budget, s.threads[t].final);
      case Judge(t, valid) => JudgeSerial(s, t, s.threads[t].peer, s.threads[t].budget, s.threads[t].final, valid);
      case _ =>
    }
  }

  // ---------------------------------------------------------------- the invariant

  /** About to leave its peer off the list unless somebody asks for more. */
  predicate Quits(th: Thread) {
    th.Retiring? && !th.more
  }

  /** Nobody looks at p's queue any more. */
  ghost predicate Idle(s: State, p: nat) {
    p !in s.serial.busy || (p in s.runner && s.runner[p] in s.threads && Quits(s.threads[s.runner[p]]))
  }

  /** Somebody has yet to report packet n of p. */
  ghost predicate Pending(s: State, p: nat, n: Ptr) {
    n.Nbl? && n.peer == p && n in Q(s, p).chain.pos && n in s.place && !s.place[n].Told?
  }

  ghost predicate Woken(s: State, p: nat) {
    p in s.serial.requeue || exists n :: Pending(s, p, n)
  }

  ghost predicate Drained(s: State, p: nat) {
    Q(s, p).chain.base <= |Q(s, p).chain.hist| && Contents(Q(s, p).chain) == [] && p !in s.peeked
  }

  /** A Dequeue in progress that will return NULL with packets left in the queue overlaps somebody
      who will report one of them. */
  ghost predicate NullFits(s: State, p: nat) {
    CallFits(Q(s, p), Woken(s, p))
  }

  ghost predicate IdleFits(s: State, p: nat) {
    Idle(s, p) ==> Woken(s, p) || Drained(s, p)
  }

  ghost predicate Wakeups(s: State) {
    (forall p: nat :: NullFits(s, p)) && (forall p: nat :: IdleFits(s, p))
  }

  // ---------------------------------------------------------------- what keeps a peer woken

  lemma PendingKeeps(s: State, a: Step, p: nat, n: Ptr)
    requires Custody(s) && Queues(s) && Can(s, a) && Pending(s, p, n) && Settle(s, a) != Some((n, Told))
    ensures Pending(Next(s, a), p, n)
  {
    hide Custody, Queues, Next, Can, Q, OnlyMoves;
    hide Settle;
    PosGrows(s, a, p, n);
    StepFits(s, a);
  }

  predicate WakeOf(s: State, a: Step, p: nat)
    requires Can(s, a)
  {
    a.Wake? && s.threads[a.t].nbl.peer == p
  }

  predicate RetireOf(s: State, a: Step, p: nat)
    requires Can(s, a)
  {
    a.Retire? && s.threads[a.t].peer == p
  }

  lemma TellsOwn(s: State, a: Step, n: Ptr, p: nat)
    requires Can(s, a) && Settle(s, a) == Some((n, Told)) && n.Nbl? && n.peer == p
    ensures WakeOf(s, a, p)
  {
    hide EnqueueAction;
  }

  lemma WokenKeeps(s: State, a: Step, p: nat)
    requires Custody(s) && Queues(s) && Can(s, a) && Woken(s, p)
    requires !WakeOf(s, a, p) && (RetireOf(s, a, p) ==> p !in s.serial.requeue)
    ensures Woken(Next(s, a), p)
  {
    hide Custody, Queues, Next, Can, Q, OnlyMoves;
    if p in s.serial.requeue {
      StepSerial(s, a);
    } else {
      hide WakeOf, RetireOf, Settle;
      var n :| Pending(s, p, n);
      if Settle(s, a) == Some((n, Told)) { TellsOwn(s, a, n, p); }
      PendingKeeps(s, a, p, n);
    }
  }

  /** A producer about to store its link has its packet in the queue and in its hands. */
  lemma MidLinkWakes(s: State, p: nat)
    requires Custody(s) && Queues(s) && MidLink(Q(s, p))
    ensures Woken(s, p)
  {
    hide Custody, HolderInv, OwedInv, ConsumerInv, CountInv, OrderInv, Lodged, Present, Q;
    var q := Q(s, p);
    var t :| t in q.producers && q.producers[t].Swapped?;
    assert QueueFits(s, p);
    assert ProducerFits(q.chain, t, q.producers[t]);
    var n := q.producers[t].nbl;
    SwappedPending(s, p, t, n);
  }

  lemma SwappedPending(s: State, p: nat, t: ThreadId, n: Ptr)
    requires Custody(s) && t in s.threads && s.threads[t].Enqueuing? && s.threads[t].nbl == n
    requires n.Nbl? && n.peer == p && n in Q(s, p).chain.pos
    ensures Pending(s, p, n)
  {
    CarrierOf(s, t);
  }

  // ---------------------------------------------------------------- a Dequeue in progress

  lemma SeenMore(q: Queue, seen: bool, more: bool)
    requires CallFits(q, seen) && (seen ==> more)
    ensures CallFits(q, more)
  {
  }

  lemma RestCall(q: Queue, seen: bool)
    requires q.consumer.Rest?
    ensures CallFits(q, seen)
  {
  }

  lemma TouchedNull(s: State, a: Step, p: nat)
    requires Custody(s) && Queues(s) && Can(s, a) && NullFits(s, p)
    requires Queues(Next(s, a)) && Custody(Next(s, a))
    requires Touch(s, a).Some? && Touch(s, a).value.0 == p
    ensures NullFits(Next(s, a), p)
  {
    hide Custody, Next, Can, Q, Inv, Once, Homed, Lodged, Present, Woken, CallFits, Enabled, MidLink, EnqueueAction;
    var q, access := Q(s, p), Touch(s, a).value.1;
    var s', q' := Next(s, a), Apply(q, access);
    StepTouches(s, a, p);
    TouchedEnabled(s, a);
    assert QueueFits(s, p);
    if access.Acknowledge? {
      RestCall(q', Woken(s', p));
    } else {
      hide Apply;
      CallStep(q, access, Woken(s, p));
      if MidLink(q') { MidLinkWakes(s', p); }
      if Woken(s, p) { WokenKeeps(s, a, p); }
      SeenMore(q', Woken(s, p) || MidLink(q'), Woken(s', p));
    }
  }

  /** When a peer stops being woken, no Dequeue is in progress there. */
  lemma WokenLost(s: State, a: Step, p: nat)
    requires Service(s) && Can(s, a) && (WakeOf(s, a, p) || RetireOf(s, a, p))
    ensures Q(s, p).consumer.Rest? || p in Next(s, a).serial.requeue
  {
    hide Next, ServerInv;
    StepSerial(s, a);
    if RetireOf(s, a, p) { AtRest(s, a.t, p); }
  }

  lemma UntouchedNull(s: State, a: Step, p: nat)
    requires Custody(s) && Service(s) && Queues(s) && Can(s, a) && NullFits(s, p)
    requires Touch(s, a).None? || Touch(s, a).value.0 != p
    ensures NullFits(Next(s, a), p)
  {
    hide Custody, Service, Next, Can, Q, Queues, CallFits, WakeOf, RetireOf;
    StepTouches(s, a, p);
    if WakeOf(s, a, p) || RetireOf(s, a, p) {
      WokenLost(s, a, p);
      if Q(s, p).consumer.Rest? { RestCall(Q(s, p), Woken(Next(s, a), p)); }
      else { SeenMore(Q(s, p), Woken(s, p), Woken(Next(s, a), p)); }
    } else {
      if Woken(s, p) { WokenKeeps(s, a, p); }
      SeenMore(Q(s, p), Woken(s, p), Woken(Next(s, a), p));
    }
  }

  // ---------------------------------------------------------------- a peer about to be left alone

  /** A retiring thread whose flag was not raised leaves those who are still to report. */
  lemma IdleWoken(s: State, a: Step, p: nat)
    requires Custody(s) && Service(s) && Queues(s) && Can(s, a)
    requires Woken(s, p) && Idle(Next(s, a), p)
    ensures Woken(Next(s, a), p)
  {
    hide Custody, Next, Queues, ServerInv, RestInv;
    StepSerial(s, a);
    if WakeOf(s, a, p) { IdleWake(s, a, p); }
    else if RetireOf(s, a, p) && p in s.serial.requeue { IdleRetire(s, a, p); }
    else { WokenKeeps(s, a, p); }
  }

  lemma IdleWake(s: State, a: Step, p: nat)
    requires Service(s) && Can(s, a) && WakeOf(s, a, p) && Idle(Next(s, a), p)
    ensures Woken(Next(s, a), p)
  {
    hide Next, ServerInv, RestInv;
    StepSerial(s, a);
  }

  lemma IdleRetire(s: State, a: Step, p: nat)
    requires Service(s) && Can(s, a) && RetireOf(s, a, p) && p in s.serial.requeue
    ensures !Idle(Next(s, a), p)
  {
    hide Next, ServerInv, RestInv;
    StepSerial(s, a);
  }

  /** Only the thread that serves a peer makes it idle. */
  lemma BecomesIdle(s: State, a: Step, p: nat)
    requires Service(s) && Can(s, a) && Idle(Next(s, a), p) && !Idle(s, p)
    ensures (a.Peek? || a.Judge?) && s.threads[a.t].peer == p
  {
    hide Next, RestInv;
    StepSerial(s, a);
    StepFits(s, a);
    if a.Retire? { assert ServerFits(s, a.t, s.threads[a.t]); }
    if a.Serve? { NotQuitting(s, a); }
    if a.Peek? || a.Judge? { assert ServerFits(s, a.t, s.threads[a.t]); }
  }

  lemma NotQuitting(s: State, a: Step)
    requires Can(s, a) && a.Serve? && a.t in Next(s, a).threads
    ensures !Quits(Next(s, a).threads[a.t])
  {
    hide BeginStep, InsertStep, EnqueueStep, HandStep, MarkStep, WakeStep, EndStep, FetchStep, PeekStep, JudgeStep, RetireStep;
    hide Popped, Goto, Leave;
    ServeMoves(s, a.t, s.threads[a.t].final);
  }

  /** No thread takes packets from an idle peer's queue. */
  lemma IdleUnserved(s: State, t: ThreadId, p: nat)
    requires Service(s) && Idle(s, p) && t in s.threads && PeerOf(s.threads[t]) == Some(p)
    ensures Quits(s.threads[t])
  {
    assert ServerFits(s, t, s.threads[t]);
  }

  /** An access of a producer leaves the contents alone or leaves it mid-link. */
  lemma EntersMidLink(q: Queue, access: Action)
    requires Enabled(q, access) && !access.Consume? && !access.Acknowledge? && q.chain.base <= |q.chain.hist|
    ensures MidLink(Apply(q, access)) || (Apply(q, access).chain.base <= |Apply(q, access).chain.hist|
              && Contents(Apply(q, access).chain) == Contents(q.chain))
  {
    hide ConsumeStep, Items;
    if access.SwapHead? {
      assert Apply(q, access).producers[access.t].Swapped?;
    }
  }

  lemma SpareDrained(s: State, a: Step, p: nat)
    requires Custody(s) && Service(s) && Queues(s) && Can(s, a) && Idle(s, p) && Drained(s, p)
    requires Custody(Next(s, a)) && Queues(Next(s, a))
    ensures Woken(Next(s, a), p) || Drained(Next(s, a), p)
  {
    hide Custody, Service, Next, Q, Queues, Contents, Apply, Enabled, MidLink, Idle, Woken, EnqueueAction;
    StepTouches(s, a, p);
    PeekedIdle(s, a, p);
    if Touch(s, a).Some? && Touch(s, a).value.0 == p {
      if a.Peek? { IdleUnserved(s, a.t, p); }
      var q, access := Q(s, p), Touch(s, a).value.1;
      TouchedEnabled(s, a);
      NotServing(s, a.t, p);
      EntersMidLink(q, access);
      if MidLink(Apply(q, access)) { MidLinkWakes(Next(s, a), p); }
    }
  }

  lemma NotServing(s: State, t: ThreadId, p: nat)
    requires Can(s, Enqueue(t))
    ensures !EnqueueAction(Q(s, s.threads[t].nbl.peer), t, s.threads[t].nbl).Consume?
    ensures !EnqueueAction(Q(s, s.threads[t].nbl.peer), t, s.threads[t].nbl).Acknowledge?
  {
  }

  /** Peeked grows only where the peer is served. */
  lemma PeekedIdle(s: State, a: Step, p: nat)
    requires Service(s) && Can(s, a) && Idle(s, p) && p !in s.peeked
    ensures p !in Next(s, a).peeked
  {
    if Quiet(s, a) {
      hide Next, Quiet, Can, Service;
      QuietKeeps(s, a);
    } else {
      hide BeginStep, EnqueueStep, HandStep, EndStep, FetchStep, PeekStep, JudgeStep, Q, Popped, Service, Idle;
      match a
      case Serve(t) => PoppedOut(s, t, s.threads[t].final);
      case Peek(t) =>
        if s.threads[t].peer == p { IdleUnserved(s, t, p); }
        PeekPeeked(s, t, s.threads[t].peer, s.threads[t].budget, s.threads[t].final);
      case Judge(t, valid) => JudgePeeked(s, t, s.threads[t].peer, s.threads[t].budget, s.threads[t].final, valid, p);
      case _ =>
    }
  }

  lemma PeekPeeked(s: State, t: ThreadId, p: nat, budget: nat, final: bool)
    ensures PeekStep(s, t, p, budget, final).peeked - {p} == s.peeked - {p}
    ensures Delivers(s, p).None? ==> PeekStep(s, t, p, budget, final).peeked == s.peeked
  {
    hide GotItem, GotNull, Consumed, Q;
    ConsumingKeeps(s, t, p, Retiring(p, false, final));
    if Delivers(s, p).Some? { ItemPeeked(s, t, p, Delivers(s, p).value, Judging(p, budget, final)); }
  }

  lemma ItemPeeked(s: State, t: ThreadId, p: nat, n: Ptr, th: Thread)
    ensures GotItem(s, t, p, n, th).peeked - {p} == s.peeked - {p}
  {
    hide Apply;
  }

  lemma JudgePeeked(s: State, t: ThreadId, p: nat, budget: nat, final: bool, valid: bool, r: nat)
    requires p in s.peeked && s.peeked[p] in s.crypt && r !in s.peeked
    ensures r !in JudgeStep(s, t, p, budget, final, valid).peeked
  {
    hide Goto, Released;
    GotoKeeps(s, t, Retiring(p, false, final));
    GotoKeeps(s, t, Retiring(p, true, final));
    if budget > 0 { OutcomeSerial(s, t, p, s.peeked[p], GoesUp(s, s.peeked[p], valid), Peeking(p, budget - 1, final)); }
  }

  /** Dequeue has returned NULL. */
  lemma NullQuits(s: State, a: Step, p: nat)
    requires Custody(s) && Service(s) && Queues(s) && Can(s, a) && NullFits(s, p)
    requires a.Peek? && s.threads[a.t].peer == p && Q(s, p).consumer == Returned(None)
    ensures Woken(Next(s, a), p) || Drained(Next(s, a), p)
  {
    hide Custody, Service, Next, Q, Queues, Contents, Apply, Woken, EnqueueAction;
    if Woken(s, p) {
      WokenKeeps(s, a, p);
    } else {
      StepTouches(s, a, p);
      Acknowledged(Q(s, p));
      PeekingEmpty(s, a.t, p);
      PeekPeeked(s, a.t, p, s.threads[a.t].budget, s.threads[a.t].final);
      PeekNext(s, a);
    }
  }

  lemma Acknowledged(q: Queue)
    ensures Apply(q, Acknowledge).chain == q.chain
  {
  }

  lemma PeekingEmpty(s: State, t: ThreadId, p: nat)
    requires Service(s) && t in s.threads && s.threads[t].Peeking? && s.threads[t].peer == p
    ensures p !in s.peeked
  {
    assert ServerFits(s, t, s.threads[t]);
  }

  lemma PeekNext(s: State, a: Step)
    requires Can(s, a) && a.Peek?
    ensures Next(s, a) == PeekStep(s, a.t, s.threads[a.t].peer, s.threads[a.t].budget, s.threads[a.t].final)
  {
    hide BeginStep, InsertStep, EnqueueStep, HandStep, MarkStep, WakeStep, EndStep, FetchStep, ServeStep, PeekStep, JudgeStep, RetireStep;
  }

  /** The head of the queue is not crypted yet: its worker is still to report it. */
  lemma UncryptedQuits(s: State, a: Step, p: nat)
    requires Custody(s) && Queues(s) && Handled(s, p) && Can(s, a)
    requires a.Judge? && s.threads[a.t].peer == p && s.crypt[s.peeked[p]].Uncrypted?
    ensures Woken(s, p) && Woken(Next(s, a), p)
  {
    hide CarrierInv, BatchInv, Next, Inv, Once, Homed, Lodged, Present, Q;
    var n := s.peeked[p];
    assert QueueFits(s, p);
    assert n in Taken(Q(s, p)) by { assert Peeked(s, p)[0] == n; }
    TakenLodged(s, p, n);
    assert PlaceFits(s, n, s.place[n]);
    assert Pending(s, p, n);
    hide Pending, PlaceInv;
    WokenKeeps(s, a, p);
  }

  lemma JudgeFull(s: State, a: Step, p: nat)
    requires Service(s) && Can(s, a) && a.Judge? && s.threads[a.t].peer == p && Idle(Next(s, a), p)
    ensures s.crypt[s.peeked[p]].Uncrypted?
  {
    hide BeginStep, InsertStep, EnqueueStep, HandStep, MarkStep, WakeStep, EndStep, FetchStep, ServeStep, PeekStep, RetireStep;
    hide Goto, Released, ListInv, RestInv;
    var th := s.threads[a.t];
    JudgeMoves(s, a.t, p, th.budget, th.final, a.valid);
    JudgeSerial(s, a.t, p, th.budget, th.final, a.valid);
    assert ServerFits(s, a.t, th);
    hide JudgeStep;
  }

  lemma PeekFull(s: State, a: Step, p: nat)
    requires Service(s) && Can(s, a) && a.Peek? && s.threads[a.t].peer == p && Idle(Next(s, a), p)
    ensures Q(s, p).consumer == Returned(None)
  {
    hide BeginStep, InsertStep, EnqueueStep, HandStep, MarkStep, WakeStep, EndStep, FetchStep, ServeStep, JudgeStep, RetireStep;
    hide GotItem, GotNull, Consumed, ListInv, RestInv, Q, Apply;
    var th := s.threads[a.t];
    PeekSerial(s, a.t, p, th.budget, th.final);
    assert ServerFits(s, a.t, th);
    if Q(s, p).consumer.Returned? { PeekMoves(s, a.t, p, th.budget, th.final); }
    else { PeekConsumes(s, a.t, p, th.budget, th.final); }
    hide PeekStep;
  }

  lemma IdleKeeps(s: State, a: Step, p: nat)
    requires Custody(s) && Service(s) && Queues(s) && Release(s) && Can(s, a) && NullFits(s, p) && IdleFits(s, p)
    requires Custody(Next(s, a)) && Queues(Next(s, a))
    ensures IdleFits(Next(s, a), p)
  {
    hide Custody, Service, Next, Queues, Handled, OutFits, Woken, Drained, Idle, NullFits, Can;
    if Idle(Next(s, a), p) {
      if Idle(s, p) {
        if Woken(s, p) { IdleWoken(s, a, p); } else { SpareDrained(s, a, p); }
      } else {
        BecomesIdle(s, a, p);
        if a.Peek? { PeekFull(s, a, p); NullQuits(s, a, p); }
        else { assert Handled(s, p); JudgeFull(s, a, p); UncryptedQuits(s, a, p); }
      }
    }
  }

  lemma NullKeeps(s: State, a: Step, p: nat)
    requires Custody(s) && Service(s) && Queues(s) && Can(s, a) && NullFits(s, p)
    requires Custody(Next(s, a)) && Queues(Next(s, a))
    ensures NullFits(Next(s, a), p)
  {
    hide Custody, Service, Next, Queues, NullFits, Can;
    if Touch(s, a).Some? && Touch(s, a).value.0 == p { TouchedNull(s, a, p); } else { UntouchedNull(s, a, p); }
  }

  lemma WakeupsKeep(s: State, a: Step)
    requires Custody(s) && Service(s) && Queues(s) && Release(s) && Wakeups(s) && Can(s, a)
    requires Custody(Next(s, a)) && Queues(Next(s, a))
    ensures Wakeups(Next(s, a))
  {
    hide Custody, Service, Next, Queues, Release, NullFits, IdleFits, Can;
    forall p: nat ensures NullFits(Next(s, a), p) { NullKeeps(s, a, p); }
    forall p: nat ensures IdleFits(Next(s, a), p) { IdleKeeps(s, a, p); }
  }
}
