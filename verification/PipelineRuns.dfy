/** What the pipeline promises over all runs, for any number of threads, peers and packets. */
module PipelineRuns {
  import opened PrevQueue
  import opened Pipeline
  import opened PipelineCustody
  import opened PipelineService
  import opened PipelineQueues
  import opened PipelineRelease
  import opened PipelineWakeups
  import opened PipelineProgress

  ghost predicate Good(s: State) {
    Custody(s) && Service(s) && Queues(s) && Release(s) && Wakeups(s) && ListSeen(s) && RingSeen(s)
  }

  lemma InitGood()
    ensures Good(Init)
  {
    hide Items, Inv;
    EmptyInv();
    ItemsOne(Stub);
    assert Contents(PrevQueue.Empty.chain) == [] by { assert [Stub][0..] == [Stub]; }
    forall p: nat ensures QueueFits(Init, p) { assert Inv(Q(Init, p)); }
    hide Contents;
    forall p: nat ensures NullFits(Init, p) && IdleFits(Init, p) {}
  }

  lemma GoodKeeps(s: State, a: Step)
    requires Good(s) && Can(s, a)
    ensures Good(Next(s, a))
  {
    hide Custody, Service, Queues, Release, Wakeups, ListSeen, RingSeen, Next, Can;
    CustodyKeeps(s, a);
    ServiceKeeps(s, a);
    QueuesKeep(s, a);
    ReleaseKeeps(s, a);
    WakeupsKeep(s, a);
    ListKept(s, a);
    RingKept(s, a);
  }

  // ---------------------------------------------------------------- runs

  ghost predicate Lawful(s: State, run: seq<Step>)
    decreases run
  {
    run != [] ==> Can(s, run[0]) && Lawful(Next(s, run[0]), run[1..])
  }

  ghost function After(s: State, run: seq<Step>): State
    requires Lawful(s, run)
    decreases run
  {
    if run == [] then s else After(Next(s, run[0]), run[1..])
  }

  /** The packet a step exchanges into the head of p's queue. */
  ghost function Entry(s: State, a: Step, p: nat): seq<Ptr>
    requires Can(s, a)
  {
    if Touch(s, a).Some? && Touch(s, a).value.0 == p && Puts(Q(s, p), Touch(s, a).value.1).Some?
    then [Puts(Q(s, p), Touch(s, a).value.1).value] else []
  }

  /** The packet of p a step releases. */
  ghost function Exit(s: State, a: Step, p: nat): seq<Ptr>
    requires Can(s, a)
  {
    if a.Judge? && s.threads[a.t].peer == p && !Quiet(s, a) then [s.peeked[p]] else []
  }

  /** The packets that enter p's queue during a run, in the order of the head exchanges. */
  ghost function Entries(s: State, run: seq<Step>, p: nat): seq<Ptr>
    requires Lawful(s, run)
    decreases run
  {
    if run == [] then [] else Entry(s, run[0], p) + Entries(Next(s, run[0]), run[1..], p)
  }

  /** The packets of p released during a run, in the order of their release. */
  ghost function Exits(s: State, run: seq<Step>, p: nat): seq<Ptr>
    requires Lawful(s, run)
    decreases run
  {
    if run == [] then [] else Exit(s, run[0], p) + Exits(Next(s, run[0]), run[1..], p)
  }

  lemma EntryStep(s: State, a: Step, p: nat)
    requires Good(s) && Can(s, a)
    ensures Items(Q(Next(s, a), p).chain.hist) == Items(Q(s, p).chain.hist) + Entry(s, a, p)
  {
    hide Next, Q, Custody, Service, Queues, Release, Wakeups, ListSeen, RingSeen, Apply, Enabled, Items, EnqueueAction, Can;
    StepTouches(s, a, p);
    if Touch(s, a).Some? && Touch(s, a).value.0 == p {
      TouchedEnabled(s, a);
      assert QueueFits(s, p) by { QueueOf(s, p); }
      hide Once, Inv, Homed, Lodged;
      StepEntered(Q(s, p), Touch(s, a).value.1);
      EnteredOne(Q(s, p), Touch(s, a).value.1);
    }
  }

  lemma QueueOf(s: State, p: nat)
    requires Queues(s)
    ensures QueueFits(s, p)
  {
  }

  lemma EnteredOne(q: Queue, access: Action)
    ensures Entered(q, [access]) == if Puts(q, access).Some? then [Puts(q, access).value] else []
  {
    hide Apply;
    assert [access][1..] == [];
  }

  lemma ExitStep(s: State, a: Step, p: nat)
    requires Can(s, a)
    ensures Out(Next(s, a), p) == Out(s, p) + Exit(s, a, p)
  {
    if Quiet(s, a) {
      hide Next, Can;
      QuietKeeps(s, a);
    } else {
      hide BeginStep, EnqueueStep, HandStep, EndStep, FetchStep, PeekStep, JudgeStep, Q, Popped;
      match a
      case Serve(t) => PoppedOut(s, t, s.threads[t].final);
      case Peek(t) => PeekCrypt(s, t, s.threads[t].peer, s.threads[t].budget, s.threads[t].final);
      case Judge(t, valid) => ReleaseGrows(s, t, s.threads[t].peer, s.threads[t].budget, s.threads[t].final, valid, p);
      case _ =>
    }
  }

  lemma {:induction false} RunGood(s: State, run: seq<Step>, p: nat)
    requires Good(s) && Lawful(s, run)
    ensures Good(After(s, run))
    ensures Items(Q(After(s, run), p).chain.hist) == Items(Q(s, p).chain.hist) + Entries(s, run, p)
    ensures Out(After(s, run), p) == Out(s, p) + Exits(s, run, p)
    decreases run
  {
    hide Next, Good, Can, Q, Out, Items, Entry, Exit;
    if run != [] {
      GoodKeeps(s, run[0]);
      EntryStep(s, run[0], p);
      ExitStep(s, run[0], p);
      RunGood(Next(s, run[0]), run[1..], p);
    }
  }

  lemma ReachedGood(run: seq<Step>, p: nat)
    requires Lawful(Init, run)
    ensures Good(After(Init, run))
    ensures Items(Q(After(Init, run), p).chain.hist) == Entries(Init, run, p)
    ensures Out(After(Init, run), p) == Exits(Init, run, p)
  {
    InitGood();
    ItemsOne(Stub);
    hide Good, Items, Lawful, After, Entries, Exits;
    RunGood(Init, run, p);
  }

  // ---------------------------------------------------------------- each packet once

  predicate Distinct(s: seq<Ptr>) {
    forall i, j :: 0 <= i < j < |s| ==> s[i] != s[j]
  }

  lemma {:induction false} ItemsOnce(c: Chain, k: nat)
    requires Once(c) && k <= |c.hist|
    ensures Distinct(Items(c.hist[..k]))
    ensures forall n :: n in Items(c.hist[..k]) ==> n.Nbl? && n in c.pos && c.pos[n] < k
    ensures forall n :: n in c.hist[..k] && n.Nbl? ==> n in Items(c.hist[..k])
  {
    if k > 0 {
      ItemsOnce(c, k - 1);
      assert c.hist[..k][..k - 1] == c.hist[..k - 1];
      assert c.hist[..k] == c.hist[..k - 1] + [c.hist[k - 1]];
    }
  }

  lemma DistinctPrefix(a: seq<Ptr>, b: seq<Ptr>)
    requires Distinct(a + b)
    ensures Distinct(a)
  {
    forall i, j | 0 <= i < j < |a| ensures a[i] != a[j] {
      assert (a + b)[i] == a[i] && (a + b)[j] == a[j];
    }
  }

  // ---------------------------------------------------------------- the theorems

  /** In every interleaving the packets of a peer are released in the order of the head exchanges,
      each once, none while its state is UNCRYPTED; those not released are peeked, on their way out
      of Dequeue, or in the queue, which holds 1024 at most. */
  lemma ReleasedInOrder(run: seq<Step>, p: nat)
    requires Lawful(Init, run)
    ensures var s := After(Init, run); var q := Q(s, p);
      && q.chain.base <= |q.chain.hist|
      && Entries(Init, run, p) == Exits(Init, run, p) + Peeked(s, p) + Unacknowledged(q) + Contents(q.chain)
      && Distinct(Entries(Init, run, p)) && Distinct(Exits(Init, run, p))
      && (forall n :: n in Exits(Init, run, p) ==> Sound(s, n))
      && q.count == |Contents(q.chain)| + InFlight(q) <= MAX_QUEUED_PACKETS
  {
    hide *;
    ReachedGood(run, p);
    var s := After(Init, run);
    GoodQueue(s, p);
    var rest := Peeked(s, p) + Unacknowledged(Q(s, p)) + Contents(Q(s, p).chain);
    assert Entries(Init, run, p) == Exits(Init, run, p) + rest;
    DistinctPrefix(Exits(Init, run, p), rest);
  }

  lemma GoodQueue(s: State, p: nat)
    requires Good(s)
    ensures var q := Q(s, p);
      && q.chain.base <= |q.chain.hist|
      && Items(q.chain.hist) == Out(s, p) + Peeked(s, p) + Unacknowledged(q) + Contents(q.chain)
      && Distinct(Items(q.chain.hist))
      && (forall n :: n in Out(s, p) ==> Sound(s, n))
      && q.count == |Contents(q.chain)| + InFlight(q) <= MAX_QUEUED_PACKETS
  {
    hide Custody, Service, Present, Wakeups, ListSeen, RingSeen, Homed, Lodged, Items, Contents, Unacknowledged, Sound, Q, Out, Taken, InFlight, HolderInv, OwedInv, ProducerInv, Once;
    var q := Q(s, p);
    assert QueueFits(s, p) && Handled(s, p) && OutFits(s, p);
    TakenSplit(q);
    ItemsOnce(q.chain, |q.chain.hist|);
    assert q.chain.hist[..|q.chain.hist|] == q.chain.hist;
    forall n | n in Out(s, p) ensures Sound(s, n) {
      var i :| 0 <= i < |Out(s, p)| && Out(s, p)[i] == n;
    }
  }

  /** At most one thread runs a peer's release loop. */
  lemma OneReleaser(run: seq<Step>, t: ThreadId, u: ThreadId)
    requires Lawful(Init, run)
    requires var s := After(Init, run);
      t in s.threads && u in s.threads && PeerOf(s.threads[t]).Some? && PeerOf(s.threads[t]) == PeerOf(s.threads[u])
    ensures t == u
  {
    ReachedGood(run, 0);
    hide After, Lawful, Service;
    OneServer(After(Init, run), t, u);
  }

  /** Nobody works on p's packets, and all of them have left UNCRYPTED. */
  ghost predicate AtPeace(s: State, p: nat) {
    && (forall t :: t in s.threads ==>
          && PeerOf(s.threads[t]) != Some(p)
          && (s.threads[t].Enqueuing? || s.threads[t].Waking? ==> s.threads[t].nbl.Nbl? && s.threads[t].nbl.peer != p))
    && (forall n :: n in Peeked(s, p) || (Q(s, p).chain.base <= |Q(s, p).chain.hist| && n in Contents(Q(s, p).chain)) ==>
          Sound(s, n))
  }

  /** A packet that was exchanged into p's queue is released, peeked, on its way out or queued. */
  lemma WhereIs(s: State, p: nat, n: Ptr)
    requires Good(s) && n.Nbl? && n in Q(s, p).chain.pos && Q(s, p).consumer.Rest?
    ensures Q(s, p).chain.base <= |Q(s, p).chain.hist|
    ensures n in Out(s, p) || n in Peeked(s, p) || n in Contents(Q(s, p).chain)
  {
    GoodQueue(s, p);
    hide Custody, Service, Release, Present, Wakeups, ListSeen, RingSeen, Homed, Lodged, Items, Contents, Sound, Q, Out, HolderInv, OwedInv, ProducerInv, CountInv, OrderInv, Once;
    var c := Q(s, p).chain;
    assert QueueFits(s, p);
    ItemsOnce(c, |c.hist|);
    assert c.hist[..|c.hist|] == c.hist;
    assert c.hist[c.pos[n]] == n;
  }

  lemma Unserved(s: State, p: nat)
    requires Service(s) && (forall t :: t in s.threads ==> PeerOf(s.threads[t]) != Some(p)) && p !in s.serial.list
    ensures p !in s.serial.busy && p !in s.serial.requeue && Q(s, p).consumer.Rest?
  {
  }

  lemma NothingPending(s: State, p: nat, n: Ptr)
    requires Good(s) && AtPeace(s, p) && Q(s, p).consumer.Rest?
    ensures !Pending(s, p, n)
  {
    if Pending(s, p, n) {
      WhereIs(s, p, n);
      GoodQueue(s, p);
      PendingUncrypted(s, p, n);
      hide Custody, Service, Queues, Release, Wakeups, ListSeen, RingSeen, Pending, Contents, Items, Q, Out;
      assert false;
    }
  }

  lemma PendingUncrypted(s: State, p: nat, n: Ptr)
    requires Custody(s) && Queues(s) && Pending(s, p, n)
    requires forall t :: t in s.threads && (s.threads[t].Enqueuing? || s.threads[t].Waking?) ==>
      s.threads[t].nbl.Nbl? && s.threads[t].nbl.peer != p
    ensures !Sound(s, n)
  {
    hide CarrierInv, BatchInv, Inv, Once, Homed, Present, Q;
    assert PlaceFits(s, n, s.place[n]);
    assert QueueFits(s, p);
    assert LodgedAs(s, p, Q(s, p), n);
  }

  /** No packet is stranded: once nobody works on a peer's packets and all of them have left
      UNCRYPTED, its queue is empty or the peer is on the list. */
  lemma NotStranded(run: seq<Step>, p: nat)
    requires Lawful(Init, run) && AtPeace(After(Init, run), p)
    ensures var s := After(Init, run); p in s.serial.list || Exits(Init, run, p) == Entries(Init, run, p)
  {
    var s := After(Init, run);
    ReachedGood(run, p);
    hide After, Lawful, Entries, Exits;
    if p !in s.serial.list {
      PeaceDrained(s, p);
      GoodQueue(s, p);
      RestHoldsNothing(s, p);
    }
  }

  lemma RestHoldsNothing(s: State, p: nat)
    requires Drained(s, p) && Q(s, p).consumer.Rest?
    ensures Peeked(s, p) == [] && Unacknowledged(Q(s, p)) == [] && Contents(Q(s, p).chain) == []
  {
  }

  lemma PeaceDrained(s: State, p: nat)
    requires Good(s) && AtPeace(s, p) && p !in s.serial.list
    ensures Drained(s, p) && Q(s, p).consumer.Rest?
  {
    assert forall t :: t in s.threads ==> PeerOf(s.threads[t]) != Some(p);
    assert Service(s);
    Unserved(s, p);
    assert IdleFits(s, p);
    hide Custody, Service, Queues, Release, Wakeups, ListSeen, RingSeen, AtPeace, Drained, Pending;
    forall n ensures !Pending(s, p, n) { NothingPending(s, p, n); }
  }

  /** A peer that nobody serves, or whose server is about to retire it without a further round, has
      nothing left, or another round was asked for, or somebody is still to report one of its packets. */
  lemma LeftAlone(run: seq<Step>, p: nat)
    requires Lawful(Init, run) && PipelineWakeups.Idle(After(Init, run), p)
    ensures var s := After(Init, run);
      Drained(s, p) || p in s.serial.requeue || exists n :: Pending(s, p, n)
  {
    ReachedGood(run, p);
    hide After, Lawful, Custody, Service, Queues, Release, ListSeen, RingSeen, PipelineWakeups.Idle, Drained, Pending;
    assert IdleFits(After(Init, run), p);
  }

  // ---------------------------------------------------------------- when everything has come to rest

  lemma AllGone(s: State)
    requires Good(s) && s.threads == map[] && !s.signal
    ensures forall k :: 0 <= k < |s.batches| ==> s.batches[k].marked == |s.batches[k].items|
  {
    hide Service, Queues, Release, Wakeups, CarrierInv, PlaceInv;
    forall k | 0 <= k < |s.batches| ensures s.batches[k].marked == |s.batches[k].items| {
      assert BatchFits(s, k);
    }
  }

  lemma RestPlaces(s: State, n: Ptr)
    requires Good(s) && s.threads == map[] && !s.signal && n in s.place
    ensures s.place[n].Told? || s.place[n].Dropped?
  {
    hide Service, Queues, Release, Wakeups, CarrierInv;
    AllGone(s);
    assert PlaceFits(s, n, s.place[n]);
  }

  lemma RestPeace(s: State, p: nat)
    requires Good(s) && s.threads == map[] && !s.signal
    ensures s.serial.list == [] && Drained(s, p) && Q(s, p).consumer.Rest?
  {
    assert s.serial.list == [];
    assert Service(s) && IdleFits(s, p);
    Unserved(s, p);
    hide Custody, Service, Queues, Release, Wakeups, ListSeen, RingSeen, Drained, Q;
    forall n ensures !Pending(s, p, n) { if n in s.place { RestPlaces(s, n); RestLodged(s, p, n); } }
  }

  lemma RestLodged(s: State, p: nat, n: Ptr)
    requires Good(s) && n in s.place && (s.place[n].Told? || s.place[n].Dropped?)
    ensures !Pending(s, p, n)
  {
    hide Custody, Service, Release, Wakeups, ListSeen, RingSeen, Inv, Once, Homed, Q;
    assert QueueFits(s, p);
    assert n in Q(s, p).chain.pos && n.Nbl? ==> LodgedAs(s, p, Q(s, p), n);
  }

  /** Nothing is forgotten: when no thread is inside a call and no worker has been signalled, every
      packet that entered a queue has been released, and every packet ever offered either entered
      its peer's queue or was refused by the counter. */
  lemma RestReleasesAll(run: seq<Step>, p: nat)
    requires Lawful(Init, run)
    requires After(Init, run).threads == map[] && !After(Init, run).signal
    ensures Exits(Init, run, p) == Entries(Init, run, p)
    ensures forall n :: n in After(Init, run).place && n.Nbl? && n.peer == p && !After(Init, run).place[n].Dropped? ==>
              n in Exits(Init, run, p)
  {
    var s := After(Init, run);
    ReachedGood(run, p);
    hide After, Lawful, Entries, Exits;
    RestPeace(s, p);
    GoodQueue(s, p);
    RestHoldsNothing(s, p);
    assert Exits(Init, run, p) == Entries(Init, run, p);
    forall n | n in s.place && n.Nbl? && n.peer == p && !s.place[n].Dropped? ensures n in Exits(Init, run, p) {
      RestPlaces(s, n);
      PresentAt(s, n);
      WhereIs(s, p, n);
    }
  }

  lemma PresentAt(s: State, n: Ptr)
    requires Good(s) && n in s.place && s.place[n].Told? && n.Nbl?
    ensures n in Q(s, n.peer).chain.pos
  {
  }

  /** No thread is ever stuck inside a call. */
  lemma NobodyStuck(run: seq<Step>, t: ThreadId)
    requires Lawful(Init, run) && t in After(Init, run).threads
    ensures Can(After(Init, run), Onward(After(Init, run), t))
  {
    ReachedGood(run, 0);
    hide After, Lawful, Custody, Service, Queues, Release, Wakeups, Can, Onward;
    NextExists(After(Init, run), t);
  }
}
