/** Work is always attended to: while a peer is on the list or a chain is in the ring, a worker is
    awake or about to be woken. Every thread inside a call has a next step. */
module PipelineProgress {
  import opened PrevQueue
  import opened Pipeline
  import opened PipelineCustody
  import opened PipelineService
  import opened PipelineQueues
  import opened PipelineRelease
  import opened PipelineWakeups

  // ---------------------------------------------------------------- where a step leaves its thread

  function Target(s: State, a: Step): Option<Thread>
    requires Can(s, a)
  {
    match a
    case Enqueue(t) => Some(if Stays(s, a) then s.threads[t] else Inserting(s.threads[t].batch))
    case Wake(t) => Some(Marking(s.threads[t].batch, s.threads[t].worker))
    case Serve(t) => ServeTarget(s, s.threads[t].final)
    case Peek(t) =>
      var th, c := s.threads[t], Q(s, s.threads[t].peer).consumer;
      Some(if c.Returned? then PeekTarget(th.peer, th.budget, th.final, c.result) else th)
    case Judge(t, _) => Some(JudgeTarget(s, s.threads[t].peer, s.threads[t].budget, s.threads[t].final))
    case Retire(t) => Some(Serving(s.threads[t].final))
    case _ => SpareTarget(s, a)
  }

  function RingAfter(s: State, a: Step): seq<nat>
    requires Can(s, a)
  {
    match a
    case Hand(t, accepted) =>
      if accepted && s.batches[s.threads[t].batch].items != [] then s.ring + [s.threads[t].batch] else s.ring
    case Fetch(t) => if s.ring == [] then [] else s.ring[1..]
    case _ => s.ring
  }

  function SignalAfter(s: State, a: Step): bool
    requires Can(s, a)
  {
    a.Bump? || (s.signal && !a.Rouse?)
  }

  ghost predicate Leads(s: State, s': State, t: ThreadId, th: Option<Thread>, signal: bool, ring: seq<nat>) {
    s'.threads == Moved(s.threads, t, th) && s'.signal == signal && s'.ring == ring
  }

  lemma GotoLeads(s: State, t: ThreadId, th: Thread)
    ensures Leads(s, Goto(s, t, th), t, Some(th), s.signal, s.ring)
    ensures Leads(s, Leave(s, t), t, None, s.signal, s.ring)
    ensures Leads(s, Leave(s, t).(signal := true), t, None, true, s.ring)
    ensures Leads(s, Goto(s, t, th).(signal := false), t, Some(th), false, s.ring)
  {
  }

  lemma OwnedLeads(s: State, t: ThreadId, k: nat, o: Owner, th: Thread)
    requires k < |s.batches|
    ensures Leads(s, Goto(Owned(s, k, o), t, th), t, Some(th), s.signal, s.ring)
    ensures Leads(s, Leave(Owned(s, k, o), t), t, None, s.signal, s.ring)
  {
  }

  lemma AcceptedLeads(s: State, t: ThreadId, k: nat)
    requires k < |s.batches|
    ensures Leads(s, Accepted(s, t, k), t, Some(Bumping), s.signal, s.ring + [k])
  {
  }

  lemma FetchedLeads(s: State, t: ThreadId)
    requires s.ring != [] && s.ring[0] < |s.batches|
    ensures Leads(s, Fetched(s, t), t, Some(Marking(s.ring[0], true)), s.signal, s.ring[1..])
  {
  }

  lemma RefusedLeads(s: State, t: ThreadId, n: Ptr, k: nat)
    ensures Leads(s, Refused(s, t, n, k), t, Some(Inserting(k)), s.signal, s.ring)
  {
  }

  lemma ProducedLeads(s: State, t: ThreadId, p: nat, access: Action)
    requires t in s.threads
    ensures Leads(s, Produced(s, p, access), t, Some(s.threads[t]), s.signal, s.ring)
  {
    hide Apply;
  }

  lemma LinkedLeads(s: State, t: ThreadId, n: Ptr, k: nat)
    requires n.Nbl? && k < |s.batches|
    ensures Leads(s, Linked(s, t, n, k), t, Some(Inserting(k)), s.signal, s.ring)
  {
    hide Apply;
  }

  lemma PoppedLeads(s: State, t: ThreadId, final: bool)
    requires s.serial.list != []
    ensures Leads(s, Popped(s, t, final), t, Some(Started(s, s.serial.list[0], final)), s.signal, s.ring)
  {
  }

  lemma ConsumedLeads(s: State, t: ThreadId, p: nat)
    requires t in s.threads
    ensures Leads(s, Consumed(s, p), t, Some(s.threads[t]), s.signal, s.ring)
  {
    hide Apply;
  }

  lemma TakenLeads(s: State, t: ThreadId, p: nat, n: Ptr, good: bool, th: Thread)
    ensures Leads(s, GotNull(s, t, p, th), t, Some(th), s.signal, s.ring)
    ensures Leads(s, GotItem(s, t, p, n, th), t, Some(th), s.signal, s.ring)
    ensures Leads(s, Released(s, t, p, n, good, th), t, Some(th), s.signal, s.ring)
  {
    hide Apply;
  }

  lemma EnqueueLeads(s: State, t: ThreadId)
    requires Can(s, Enqueue(t))
    ensures Leads(s, EnqueueStep(s, t, s.threads[t].nbl, s.threads[t].batch), t, Target(s, Enqueue(t)), s.signal, s.ring)
  {
    hide Leads, Apply, Q, Refused, Produced, Linked, Pc;
    var n, k := s.threads[t].nbl, s.threads[t].batch;
    RefusedLeads(s, t, n, k);
    LinkedLeads(s, t, n, k);
    ProducedLeads(s, t, n.peer, EnqueueAction(Q(s, n.peer), t, n));
  }

  lemma HandLeads(s: State, t: ThreadId, ok: bool)
    requires Can(s, Hand(t, ok))
    ensures Leads(s, HandStep(s, t, s.threads[t].batch, ok), t, Target(s, Hand(t, ok)), s.signal, RingAfter(s, Hand(t, ok)))
  {
    hide Leads, Accepted, Goto, Leave, Owned;
    var k := s.threads[t].batch;
    OwnedLeads(s, t, k, Gone, Bumping);
    AcceptedLeads(s, t, k);
    GotoLeads(s, t, Marking(k, false));
  }

  lemma EndLeads(s: State, t: ThreadId)
    requires Can(s, EndBatch(t))
    ensures Leads(s, EndStep(s, t, s.threads[t].batch, s.threads[t].worker), t, Target(s, EndBatch(t)), s.signal, s.ring)
  {
    hide Leads, Goto, Owned;
    OwnedLeads(s, t, s.threads[t].batch, Gone, Serving(false));
    OwnedLeads(s, t, s.threads[t].batch, Gone, Bumping);
  }

  lemma FetchLeads(s: State, t: ThreadId)
    requires Can(s, Fetch(t))
    ensures Leads(s, FetchStep(s, t), t, Target(s, Fetch(t)), s.signal, RingAfter(s, Fetch(t)))
  {
    hide Leads, Goto, Fetched;
    GotoLeads(s, t, Serving(true));
    if s.ring != [] { FetchedLeads(s, t); }
  }

  lemma ServeLeads(s: State, t: ThreadId)
    requires Can(s, Serve(t))
    ensures Leads(s, ServeStep(s, t, s.threads[t].final), t, Target(s, Serve(t)), s.signal, s.ring)
  {
    hide Leads, Goto, Leave, Popped;
    GotoLeads(s, t, Fetching);
    if s.serial.list != [] { PoppedLeads(s, t, s.threads[t].final); }
  }

  lemma PeekLeads(s: State, t: ThreadId)
    requires Can(s, Peek(t))
    ensures Leads(s, PeekStep(s, t, s.threads[t].peer, s.threads[t].budget, s.threads[t].final), t,
                  Target(s, Peek(t)), s.signal, s.ring)
  {
    hide Leads, Q, GotItem, GotNull, Consumed;
    var th := s.threads[t];
    var c := Q(s, th.peer).consumer;
    ConsumedLeads(s, t, th.peer);
    TakenLeads(s, t, th.peer, Stub, false, Retiring(th.peer, false, th.final));
    if c.Returned? && c.result.Some? { TakenLeads(s, t, th.peer, c.result.value, false, Judging(th.peer, th.budget, th.final)); }
  }

  lemma JudgeLeads(s: State, t: ThreadId, valid: bool)
    requires Can(s, Judge(t, valid))
    ensures Leads(s, JudgeStep(s, t, s.threads[t].peer, s.threads[t].budget, s.threads[t].final, valid), t,
                  Target(s, Judge(t, valid)), s.signal, s.ring)
  {
    hide Leads, Goto, Released;
    var th := s.threads[t];
    GotoLeads(s, t, Retiring(th.peer, false, th.final));
    GotoLeads(s, t, Retiring(th.peer, true, th.final));
    if th.budget > 0 { TakenLeads(s, t, th.peer, s.peeked[th.peer], GoesUp(s, s.peeked[th.peer], valid), Peeking(th.peer, th.budget - 1, th.final)); }
  }

  lemma StepLeads(s: State, a: Step)
    requires Can(s, a)
    ensures Leads(s, Next(s, a), a.t, Target(s, a), SignalAfter(s, a), RingAfter(s, a))
  {
    hide EnqueueStep, HandStep, EndStep, FetchStep, ServeStep, PeekStep, JudgeStep;
    match a
    case Enqueue(t) => EnqueueLeads(s, t);
    case Hand(t, ok) => HandLeads(s, t, ok);
    case EndBatch(t) => EndLeads(s, t);
    case Fetch(t) => FetchLeads(s, t);
    case Serve(t) => ServeLeads(s, t);
    case Peek(t) => PeekLeads(s, t);
    case Judge(t, valid) => JudgeLeads(s, t, valid);
    case _ => QuietLeads(s, a);
  }

  lemma QuietLeads(s: State, a: Step)
    requires Can(s, a)
    requires a.Begin? || a.Insert? || a.Mark? || a.Wake? || a.Bump? || a.Rouse? || a.Retire?
    ensures Leads(s, Next(s, a), a.t, Target(s, a), SignalAfter(s, a), RingAfter(s, a))
  {
    hide EnqueueStep, HandStep, EndStep, FetchStep, ServeStep, PeekStep, JudgeStep;
  }

  // ---------------------------------------------------------------- the invariant

  /** The thread will look at the list before it goes to sleep, or wake a worker that will. */
  predicate SeesList(th: Thread) {
    !th.Inserting? && !th.Enqueuing?
  }

  /** The thread will look at the ring before it goes to sleep, or wake a worker that will. */
  predicate SeesRing(th: Thread) {
    match th
    case Inserting(_) => false
    case Enqueuing(_, _) => false
    case Serving(final) => !final
    case Peeking(_, _, final) => !final
    case Judging(_, _, final) => !final
    case Retiring(_, _, final) => !final
    case _ => true
  }

  ghost predicate ListSeen(s: State) {
    s.serial.list == [] || s.signal || exists t :: t in s.threads && SeesList(s.threads[t])
  }

  ghost predicate RingSeen(s: State) {
    s.ring == [] || s.signal || exists t :: t in s.threads && SeesRing(s.threads[t])
  }

  lemma ListKept(s: State, a: Step)
    requires Can(s, a) && ListSeen(s)
    ensures ListSeen(Next(s, a))
  {
    hide Next, Q;
    StepLeads(s, a);
    StepSerial(s, a);
    var s' := Next(s, a);
    if s'.serial.list != [] && !s'.signal {
      if a.Wake? || a.Retire? || a.Rouse? || (a.t in s.threads && SeesList(s.threads[a.t])) {
        assert a.t in s'.threads && SeesList(s'.threads[a.t]);
      } else {
        var t :| t in s.threads && SeesList(s.threads[t]);
        assert t in s'.threads && SeesList(s'.threads[t]);
      }
    }
  }

  lemma RingKept(s: State, a: Step)
    requires Can(s, a) && RingSeen(s)
    ensures RingSeen(Next(s, a))
  {
    hide Next, Q;
    StepLeads(s, a);
    var s' := Next(s, a);
    if s'.ring != [] && !s'.signal {
      if (a.Hand? && s'.ring != s.ring) || a.Rouse? || (a.t in s.threads && SeesRing(s.threads[a.t])) {
        assert a.t in s'.threads && SeesRing(s'.threads[a.t]);
      } else {
        var t :| t in s.threads && SeesRing(s.threads[t]);
        assert t in s'.threads && SeesRing(s'.threads[t]);
      }
    }
  }

  // ---------------------------------------------------------------- no thread is stuck

  /** What a thread inside a call does next. */
  function Onward(s: State, t: ThreadId): Step
    requires t in s.threads
  {
    match s.threads[t]
    case Inserting(_) => Hand(t, true)
    case Enqueuing(_, _) => Enqueue(t)
    case Marking(k, _) =>
      if k < |s.batches| && s.batches[k].marked == |s.batches[k].items| then EndBatch(t) else Mark(t, true)
    case Waking(_, _, _) => Wake(t)
    case Bumping => Bump(t)
    case Fetching => Fetch(t)
    case Serving(_) => Serve(t)
    case Peeking(_, _, _) => Peek(t)
    case Judging(_, _, _) => Judge(t, true)
    case Retiring(_, _, _) => Retire(t)
  }

  lemma NextExists(s: State, t: ThreadId)
    requires Custody(s) && Service(s) && Queues(s) && Release(s) && t in s.threads
    ensures Can(s, Onward(s, t))
  {
    hide Inv, Once, Homed, Lodged, Present, ListInv, RunnerInv, RestInv, OutFits, Q, Taken;
    CarrierOf(s, t);
    match s.threads[t]
    case Marking(k, _) => BatchStart(s, k);
    case Judging(p, _, _) =>
      assert ServerFits(s, t, s.threads[t]);
      assert QueueFits(s, p) && Handled(s, p);
      assert s.peeked[p] in Taken(Q(s, p)) by { assert Peeked(s, p)[0] == s.peeked[p]; }
      TakenLodged(s, p, s.peeked[p]);
      assert PlaceFits(s, s.peeked[p], s.place[s.peeked[p]]);
    case _ =>
  }
}
