/** The work of driver/rcu.c ends: once sections are closed and nothing more is handed in, every callback
    runs and every caller of RcuSynchronize returns. */
module RcuEnds {
  import opened Rcu

  /** What a round can take, from its beginning. */
  function RoundCost(cpus: nat): nat {
    5 * cpus + 6
  }

  function SyncLeft(cpus: nat, r: Round): int {
    match r.sync
    case Free => 0
    case Looping(_, cpu) => 5 * (cpus - cpu) + 4
    case Inserting(_, cpu) => 5 * (cpus - cpu) + 3
    case Undoing(_, cpu) => 5 * (cpus - cpu) + 2
    case Waiting(_) => 2
    case Done(_) => 1
  }

  /** The loop over the processors does not leave them. */
  predicate Within(s: State) {
    match s.round.sync
    case Looping(_, cpu) => cpu <= s.cpus
    case Inserting(_, cpu) => cpu < s.cpus
    case Undoing(_, cpu) => cpu < s.cpus
    case _ => true
  }

  lemma WithinKept(s: State, a: Step)
    requires Within(s) && Can(s, a)
    ensures Within(Next(s, a))
  {
  }

  /** Of the present round. */
  function RoundLeft(s: State): int {
    SyncLeft(s.cpus, s.round) + 2 * |s.round.queued| + |s.round.running|
    + (if s.round.sync.Free? || s.round.event then 0 else 1)
  }

  /** The callers whose round has not begun. */
  function Unserved(s: State): set<nat> {
    set id | id in s.callers && (s.round.sync.Free? || s.round.sync.who != Caller(id))
  }

  /** Of the thread that runs callbacks, apart from its present round and the callbacks. */
  function ThreadLeft(s: State): int {
    match s.thread
    case Idle => if s.pending then RoundCost(s.cpus) + 5 else 0
    case Woken => RoundCost(s.cpus) + 4
    case Syncing =>
      (if !s.round.sync.Free? && s.round.sync.who.Cleaner? then 2 else RoundCost(s.cpus) + 3)
      + (if s.pending then RoundCost(s.cpus) + 5 else 0)
    case Calling => 1 + if s.pending then RoundCost(s.cpus) + 5 else 0
  }

  function Product(n: nat, cost: nat): nat {
    n * cost
  }

  function Left(s: State): int {
    Product(|Unserved(s)|, RoundCost(s.cpus) + 1) + RoundLeft(s) + ThreadLeft(s) + |s.list| + |s.batch|
  }

  lemma ProductStep(n: nat, cost: nat)
    ensures Product(n + 1, cost) == Product(n, cost) + cost
  {
  }

  /** The thread's own steps. */
  lemma ThreadLowers(s: State, a: Step)
    requires Inv(s) && Can(s, a) && (a.Wake? || a.Take? || a.RunOne? || a.LoopOver?)
    ensures Left(Next(s, a)) < Left(s)
  {
    var s' := Next(s, a);
    assert Unserved(s') == Unserved(s);
    hide Sections, Covered, Quiet, Unserved, Product;
  }

  lemma BeginLowers(s: State, who: Who)
    requires Inv(s) && Can(s, Begin(who))
    ensures Left(Next(s, Begin(who))) < Left(s)
  {
    var s' := Next(s, Begin(who));
    if who.Cleaner? {
      assert Unserved(s') == Unserved(s);
    } else {
      assert Unserved(s) == Unserved(s') + {who.id} && who.id !in Unserved(s');
      ProductStep(|Unserved(s')|, RoundCost(s.cpus) + 1);
    }
    hide Sections, Covered, Quiet, Unserved, Product;
  }

  lemma ReturnLowers(s: State)
    requires Inv(s) && Can(s, Return)
    ensures Left(Next(s, Return)) < Left(s)
  {
    var s' := Next(s, Return);
    assert Unserved(s') == Unserved(s);
    hide Sections, Covered, Quiet, Unserved, Product;
  }

  predicate InRound(a: Step) {
    a.Count? || a.Insert? || a.Undo? || a.StartTick? || a.DecrementTick? || a.Signal? || a.Final? || a.WaitOver?
  }

  lemma SyncLowers(s: State, a: Step)
    requires Within(s) && Can(s, a) && (a.Count? || a.Insert? || a.Undo? || a.Final? || a.WaitOver?)
    ensures RoundLeft(Next(s, a)) < RoundLeft(s)
  {
  }

  lemma StartLowers(s: State, cpu: nat)
    requires Counts(s) && Can(s, StartTick(cpu))
    ensures RoundLeft(Next(s, StartTick(cpu))) < RoundLeft(s)
  {
    var r, r' := s.round, Next(s, StartTick(cpu)).round;
    assert cpu !in r.running;
    hide Counts, Can, Visited;
    assert r'.queued + {cpu} == r.queued && r'.running == r.running + {cpu};
  }

  lemma DecrementLowers(s: State, cpu: nat)
    requires Can(s, DecrementTick(cpu))
    ensures RoundLeft(Next(s, DecrementTick(cpu))) < RoundLeft(s)
  {
    var r, r' := s.round, Next(s, DecrementTick(cpu)).round;
    assert r'.running + {cpu} == r.running;
  }

  lemma SignalLowers(s: State)
    requires Counts(s) && Can(s, Signal)
    ensures RoundLeft(Next(s, Signal)) < RoundLeft(s)
  {
    hide Visited, Own;
  }

  /** The steps within a round leave the rest alone. */
  lemma RoundLowers(s: State, a: Step)
    requires Inv(s) && Within(s) && Can(s, a) && InRound(a)
    ensures Left(Next(s, a)) < Left(s)
  {
    hide Counts, Sections, InOrder, Covered, Handed, Quiet, Within, Can, Next, RoundLeft, Product, RoundCost, Unserved, ThreadLeft;
    RoundOnly(s, a);
    match a
    case StartTick(cpu) => StartLowers(s, cpu);
    case DecrementTick(cpu) => DecrementLowers(s, cpu);
    case Signal => SignalLowers(s);
    case _ => SyncLowers(s, a);
  }

  lemma RoundOnly(s: State, a: Step)
    requires Can(s, a) && InRound(a)
    ensures var s' := Next(s, a);
      && s'.cpus == s.cpus && s'.thread == s.thread && s'.pending == s.pending && s'.list == s.list && s'.batch == s.batch
      && Unserved(s') == Unserved(s) && ThreadLeft(s') == ThreadLeft(s)
  {
    hide RoundCost;
  }

  /** Whatever the driver does next, there is less left to do. */
  lemma WorkLowers(s: State, a: Step)
    requires Inv(s) && Within(s) && Works(a) && Can(s, a)
    ensures Left(Next(s, a)) < Left(s)
  {
    hide Inv, Within, Can, Next, Left;
    match a
    case Wake => ThreadLowers(s, a);
    case Take => ThreadLowers(s, a);
    case RunOne => ThreadLowers(s, a);
    case LoopOver => ThreadLowers(s, a);
    case Begin(who) => BeginLowers(s, who);
    case Return => ReturnLowers(s);
    case _ => RoundLowers(s, a);
  }

  // ---------------------------------------------------------------- runs of the driver alone

  lemma LeftIsNat(s: State)
    requires Within(s)
    ensures Left(s) >= 0
  {
    ProductIsNat(|Unserved(s)|, RoundCost(s.cpus) + 1);
    hide Product, Unserved;
  }

  lemma ProductIsNat(n: nat, cost: nat)
    ensures Product(n, cost) >= 0
  {
  }

  /** No run of the driver alone is longer than what was left to do. */
  lemma {:induction false} WorkEnds(s: State, run: seq<Step>)
    requires Inv(s) && Within(s) && Lawful(s, run) && (forall a :: a in run ==> Works(a))
    ensures |run| <= Left(s)
    decreases run
  {
    hide Inv, Within, Can, Next, Left, Works;
    LeftIsNat(s);
    if run != [] {
      WorkLowers(s, run[0]);
      StepKeeps(s, run[0]);
      WithinKept(s, run[0]);
      WorkEnds(Next(s, run[0]), run[1..]);
    }
  }

  lemma {:induction false} RunWithin(s: State, run: seq<Step>)
    requires Within(s) && Lawful(s, run)
    ensures Within(After(s, run))
    decreases run
  {
    hide Within, Can, Next;
    if run != [] {
      WithinKept(s, run[0]);
      RunWithin(Next(s, run[0]), run[1..]);
    }
  }

  lemma StillClosed(s: State, a: Step)
    requires Works(a) && Can(s, a)
    ensures Next(s, a).open == s.open && Next(s, a).since == s.since
  {
  }

  lemma {:induction false} StaysClosed(s: State, run: seq<Step>)
    requires Lawful(s, run) && (forall a :: a in run ==> Works(a))
    ensures After(s, run).open == s.open && After(s, run).since == s.since
    decreases run
  {
    hide Can, Next, Works;
    if run != [] {
      StillClosed(s, run[0]);
      StaysClosed(Next(s, run[0]), run[1..]);
    }
  }

  /** In every reachable state with all sections closed: whatever the driver does from there, without
      anything more being handed in, it comes to an end within so many steps, and at the end every
      callback has run and every caller of RcuSynchronize has returned. */
  lemma AllRun(cpus: nat, before: seq<Step>, run: seq<Step>)
    requires Lawful(Boot(cpus), before)
    requires Lawful(After(Boot(cpus), before), run) && (forall a :: a in run ==> Works(a))
    requires After(Boot(cpus), before).open == map[]
    ensures var s := After(Boot(cpus), before);
      var end := After(s, run);
      && |run| <= Left(s)
      && ((forall a :: Works(a) ==> !Can(end, a)) ==>
            |end.ran| == |s.since| && end.list == end.batch == [] && end.callers == map[])
  {
    BootKeeps(cpus);
    assert Within(Boot(cpus));
    hide Lawful, After, Can, Left, Works, Boot, Inv, Within;
    RunWithin(Boot(cpus), before);
    RunKeeps(Boot(cpus), before);
    var s := After(Boot(cpus), before);
    RunKeeps(s, run);
    WorkEnds(s, run);
    StaysClosed(s, run);
    var end := After(s, run);
    AllInOrder(end);
    if |end.ran| < |end.since| || end.callers != map[] { NobodyStuck(end); }
  }

  lemma AllInOrder(s: State)
    requires Inv(s)
    ensures |s.ran| + |s.batch| + |s.list| == |s.since|
  {
    hide Sections, Covered, Quiet, Handed, Counts;
  }
}
