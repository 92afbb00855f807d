/** The grace period of driver/rcu.c as steps of readers, of callers of RcuCall, RcuBarrier and
    RcuSynchronize, of the deferred routine on each processor, and of the thread that runs callbacks.
    A deferred routine cannot start on a processor inside a read-side section. */
module Rcu {
  /** Who holds the push lock of RcuSynchronize. */
  datatype Who = Cleaner | Caller(id: nat)

  /** Where the holder is: at the head of its loop, after counting a processor but before queueing its
      deferred routine, after failing to queue it, waiting for the event, or about to return. */
  datatype Sync =
    | Free
    | Looping(who: Who, cpu: nat)
    | Inserting(who: Who, cpu: nat)
    | Undoing(who: Who, cpu: nat)
    | Waiting(who: Who)
    | Done(who: Who)

  datatype Thread = Idle | Woken | Syncing | Calling

  /** Sections and callbacks are numbered as they begin. For each callback, and each caller in
      RcuSynchronize, the sections that were open when it was handed in are remembered; so are the
      sections open when the present round began, and the processors it, or the last round of the
      cleaner, could not queue a routine on. */
  datatype State = State(
    cpus: nat, open: map<nat, nat>, sections: nat,
    since: seq<set<nat>>, list: seq<nat>, pending: bool, thread: Thread, batch: seq<nat>, ran: seq<nat>,
    callers: map<nat, set<nat>>, missed: set<nat>, round: Round)

  datatype Round = Round(
    sync: Sync, due: set<nat>, skipped: set<nat>,
    refs: int, queued: set<nat>, running: set<nat>, signalling: bool, event: bool)

  function Boot(cpus: nat): State {
    State(cpus, map[], 0, [], [], false, Idle, [], [], map[], {}, Round(Free, {}, {}, 0, {}, {}, false, false))
  }

  datatype Step =
    | Enter(cpu: nat)
    | Leave(section: nat)
    | Post
    | Wake
    | Take
    | CallSynchronize(id: nat)
    | Begin(who: Who)
    | Count(ok: bool)
    | Insert
    | Undo
    | StartTick(cpu: nat)
    | DecrementTick(cpu: nat)
    | Signal
    | Final
    | WaitOver
    | Return
    | RunOne
    | LoopOver

  predicate Can(s: State, a: Step) {
    match a
    case Enter(cpu) => cpu < s.cpus
    case Leave(section) => section in s.open
    case Post => true
    case Wake => s.thread.Idle? && s.pending
    case Take => s.thread.Woken?
    case CallSynchronize(id) => id !in s.callers
    case Begin(who) => s.round.sync.Free? && (if who.Cleaner? then s.thread.Syncing? else who.id in s.callers)
    case Count(ok) => s.round.sync.Looping? && s.round.sync.cpu < s.cpus
    case Insert => s.round.sync.Inserting?
    case Undo => s.round.sync.Undoing?
    case StartTick(cpu) => cpu in s.round.queued && forall section :: section in s.open ==> s.open[section] != cpu
    case DecrementTick(cpu) => cpu in s.round.running
    case Signal => s.round.signalling
    case Final => s.round.sync.Looping? && s.round.sync.cpu >= s.cpus
    case WaitOver => s.round.sync.Waiting? && s.round.event
    case Return => s.round.sync.Done?
    case RunOne => s.thread.Calling? && s.batch != []
    case LoopOver => s.thread.Calling? && s.batch == []
  }

  function Next(s: State, a: Step): State
    requires Can(s, a)
  {
    match a
    case Enter(cpu) => s.(open := s.open[s.sections := cpu], sections := s.sections + 1)
    case Leave(section) => s.(open := s.open - {section})
    case Post => s.(list := s.list + [|s.since|], since := s.since + [s.open.Keys], pending := true)
    case Wake => s.(thread := Woken)
    case Take => s.(batch := s.list, list := [], pending := false, thread := Syncing)
    case CallSynchronize(id) => s.(callers := s.callers[id := s.open.Keys])
    case Begin(who) => s.(round := s.round.(sync := Looping(who, 0), due := s.open.Keys, skipped := {}, refs := 1, event := false))
    case Return =>
      if s.round.sync.who.Cleaner? then s.(round := s.round.(sync := Free), thread := Calling, missed := s.round.skipped)
      else s.(round := s.round.(sync := Free), callers := s.callers - {s.round.sync.who.id})
    case RunOne => s.(ran := s.ran + [s.batch[0]], batch := s.batch[1..])
    case LoopOver => s.(thread := Idle)
    case _ => s.(round := NextRound(s.round, a))
  }

  /** The steps of RcuSynchronize after the lock, and of ProcessorTick. */
  function NextRound(r: Round, a: Step): Round
    requires a.Count? || a.Final? ==> r.sync.Looping?
    requires a.Insert? ==> r.sync.Inserting?
    requires a.Undo? ==> r.sync.Undoing?
    requires a.WaitOver? ==> r.sync.Waiting?
  {
    match a
    case Count(ok) =>
      if ok then r.(sync := Inserting(r.sync.who, r.sync.cpu), refs := r.refs + 1)
      else r.(sync := Looping(r.sync.who, r.sync.cpu + 1), skipped := r.skipped + {r.sync.cpu})
    case Insert =>
      if r.sync.cpu in r.queued then r.(sync := Undoing(r.sync.who, r.sync.cpu))
      else r.(sync := Looping(r.sync.who, r.sync.cpu + 1), queued := r.queued + {r.sync.cpu})
    case Undo => r.(sync := Looping(r.sync.who, r.sync.cpu + 1), refs := r.refs - 1)
    case StartTick(cpu) => r.(queued := r.queued - {cpu}, running := r.running + {cpu})
    case DecrementTick(cpu) => r.(running := r.running - {cpu}, refs := r.refs - 1, signalling := r.signalling || r.refs == 1)
    case Signal => r.(signalling := false, event := true)
    case Final => r.(refs := r.refs - 1, sync := if r.refs == 1 then Done(r.sync.who) else Waiting(r.sync.who))
    case WaitOver => r.(sync := Done(r.sync.who))
    case _ => r
  }

  // ---------------------------------------------------------------- the invariant

  ghost predicate Sections(s: State) {
    && (forall x :: x in s.open ==> x < s.sections && s.open[x] < s.cpus)
    && (forall cb, x :: 0 <= cb < |s.since| && x in s.since[cb] ==> x < s.sections)
    && (forall id, x :: id in s.callers && x in s.callers[id] ==> x < s.sections)
    && (forall x :: x in s.round.due ==> x < s.sections)
  }

  function Numbers(n: nat): (r: seq<nat>)
    ensures |r| == n && forall i :: 0 <= i < n ==> r[i] == i
  {
    seq(n, i => i)
  }

  /** Every callback handed in is run, about to be run, or listed, in the order they came. */
  ghost predicate InOrder(s: State) {
    && s.ran + s.batch + s.list == Numbers(|s.since|)
    && (forall cb :: cb in s.batch || cb in s.list ==> cb < |s.since|)
    && (s.list != [] ==> s.pending)
    && (s.thread.Idle? || s.thread.Woken? ==> s.batch == [])
  }

  /** The references that the round holds itself. */
  function Own(sync: Sync): int {
    match sync
    case Looping(_, _) => 1
    case Inserting(_, _) => 2
    case Undoing(_, _) => 2
    case _ => 0
  }

  /** The processors that the round has been at. */
  predicate Visited(s: State, cpu: nat) {
    match s.round.sync
    case Free => false
    case Looping(_, here) => cpu < here
    case Inserting(_, here) => cpu < here
    case Undoing(_, here) => cpu < here
    case _ => true
  }

  /** The count is that of the routines still to report; the event comes with the last. */
  ghost predicate Counts(s: State) {
    && s.round.refs == Own(s.round.sync) + |s.round.queued| + |s.round.running|
    && s.round.queued !! s.round.running
    && (forall cpu :: cpu in s.round.queued || cpu in s.round.running ==> Visited(s, cpu))
    && !s.round.sync.Undoing?
    && (s.round.sync.Free? || s.round.sync.Done? ==> s.round.refs == 0)
    && (s.round.signalling ==> s.round.sync.Waiting? && s.round.refs == 0)
    && (s.round.event && s.round.sync.Waiting? ==> s.round.refs == 0 && !s.round.signalling)
    && (s.round.sync.Waiting? && s.round.refs == 0 ==> s.round.event || s.round.signalling)
    && (s.round.sync.Looping? || s.round.sync.Inserting? ==> !s.round.event)
  }

  /** The sections that were open when the round began and still are. */
  ghost predicate Covered(s: State) {
    !s.round.sync.Free? ==>
      forall x :: x in s.round.due && x in s.open ==> !Visited(s, s.open[x]) || s.open[x] in s.round.queued || s.open[x] in s.round.skipped
  }

  /** Section x was open when the callback was handed in, and still is. */
  ghost predicate Waits(s: State, cb: nat, x: nat) {
    cb < |s.since| && x in s.since[cb] && x in s.open
  }

  /** What was handed in before the round began waits for the round's sections only. */
  ghost predicate Handed(s: State) {
    && (!s.round.sync.Free? && s.round.sync.who.Cleaner? ==> s.thread.Syncing?)
    && (!s.round.sync.Free? && s.round.sync.who.Caller? ==> s.round.sync.who.id in s.callers)
    && (!s.round.sync.Free? && s.round.sync.who.Cleaner? ==>
          forall cb, x :: cb in s.batch && Waits(s, cb, x) ==> x in s.round.due)
    && (!s.round.sync.Free? && s.round.sync.who.Caller? ==> forall x :: x in s.callers[s.round.sync.who.id] && x in s.open ==> x in s.round.due)
  }

  ghost predicate Quiet(s: State) {
    s.thread.Calling? ==>
      forall cb, x :: cb in s.batch && Waits(s, cb, x) ==> s.open[x] in s.missed
  }

  ghost predicate Inv(s: State) {
    Sections(s) && InOrder(s) && Counts(s) && Covered(s) && Handed(s) && Quiet(s)
  }

  // ---------------------------------------------------------------- every step keeps it

  lemma SectionsMove(s: State, a: Step)
    requires Sections(s) && Can(s, a) && (a.Enter? || a.Leave? || a.Post?)
    ensures Sections(Next(s, a))
  {
  }

  lemma SectionsStay(s: State, a: Step)
    requires Sections(s) && Can(s, a) && !a.Enter? && !a.Leave? && !a.Post?
    ensures Sections(Next(s, a))
  {
  }

  lemma SectionsKept(s: State, a: Step)
    requires Sections(s) && Can(s, a)
    ensures Sections(Next(s, a))
  {
    hide Sections, Next;
    if a.Enter? || a.Leave? || a.Post? { SectionsMove(s, a); } else { SectionsStay(s, a); }
  }

  lemma PostInOrder(s: State)
    requires InOrder(s)
    ensures InOrder(Next(s, Post))
  {
    var s' := Next(s, Post);
    assert s'.ran + s'.batch + s'.list == (s.ran + s.batch + s.list) + [|s.since|];
  }

  lemma TakeInOrder(s: State)
    requires InOrder(s) && s.thread.Woken?
    ensures InOrder(Next(s, Take))
  {
    var s' := Next(s, Take);
    assert s'.ran + s'.batch + s'.list == s.ran + s.batch + s.list;
  }

  lemma RunInOrder(s: State)
    requires InOrder(s) && Can(s, RunOne)
    ensures InOrder(Next(s, RunOne))
  {
    var s' := Next(s, RunOne);
    assert s'.ran + s'.batch + s'.list == s.ran + s.batch + s.list;
    forall cb | cb in s'.batch ensures cb in s.batch {}
  }

  lemma LeavesOrder(s: State, a: Step)
    requires Can(s, a) && !a.Post? && !a.Take? && !a.RunOne?
    requires s.thread.Idle? || s.thread.Woken? ==> s.batch == []
    ensures var s' := Next(s, a);
      && s'.ran == s.ran && s'.batch == s.batch && s'.list == s.list && s'.since == s.since
      && s'.pending == s.pending && (s'.thread.Idle? || s'.thread.Woken? ==> s.batch == [])
  {
  }

  lemma InOrderKept(s: State, a: Step)
    requires InOrder(s) && Can(s, a)
    ensures InOrder(Next(s, a))
  {
    hide Next;
    match a
    case Post => PostInOrder(s);
    case Take => TakeInOrder(s);
    case RunOne => RunInOrder(s);
    case _ =>
      LeavesOrder(s, a);
      hide InOrder;
      SameOrder(s, Next(s, a));
  }

  lemma SameOrder(s: State, s': State)
    requires InOrder(s) && s'.ran == s.ran && s'.batch == s.batch && s'.list == s.list && s'.since == s.since
    requires s'.pending == s.pending && (s'.thread.Idle? || s'.thread.Woken? ==> s.batch == [])
    ensures InOrder(s')
  {
  }

  lemma TickCounts(s: State, a: Step)
    requires Counts(s) && Can(s, a) && (a.StartTick? || a.DecrementTick? || a.Signal?)
    ensures Counts(Next(s, a))
  {
  }

  lemma InsertCounts(s: State)
    requires Counts(s) && s.round.sync.Inserting?
    ensures Counts(Next(s, Insert))
  {
    var cpu := s.round.sync.cpu;
    assert cpu !in s.round.queued && cpu !in s.round.running;
    assert |s.round.queued + {cpu}| == |s.round.queued| + 1;
  }

  lemma LoopCounts(s: State, a: Step)
    requires Counts(s) && Can(s, a) && (a.Count? || a.Final? || a.WaitOver?)
    ensures Counts(Next(s, a))
  {
  }

  lemma CallCounts(s: State, a: Step)
    requires Counts(s) && Can(s, a) && Next(s, a).round == s.round
    ensures Counts(Next(s, a))
  {
  }

  lemma LockCounts(s: State, a: Step)
    requires Counts(s) && Can(s, a) && (a.Begin? || a.Return?)
    ensures Counts(Next(s, a))
  {
    assert s.round.queued == {} && s.round.running == {};
  }

  lemma CountsKept(s: State, a: Step)
    requires Counts(s) && Can(s, a)
    ensures Counts(Next(s, a))
  {
    assert !s.round.sync.Undoing?;
    hide Counts;
    if a.StartTick? || a.DecrementTick? || a.Signal? { TickCounts(s, a); }
    else if a.Count? || a.Final? || a.WaitOver? { LoopCounts(s, a); }
    else if a.Insert? { InsertCounts(s); }
    else if a.Begin? || a.Return? { LockCounts(s, a); }
    else { CallCounts(s, a); }
  }

  /** When the round is over its sections are closed but for those on skipped processors. */
  lemma RoundOver(s: State)
    requires Counts(s) && Covered(s) && s.round.sync.Done?
    ensures forall x :: x in s.round.due && x in s.open ==> s.open[x] in s.round.skipped
  {
    assert s.round.queued == {};
  }

  /** A routine that starts on a processor shows that no section is open there. */
  lemma TickCovers(s: State, cpu: nat)
    requires Covered(s) && Can(s, StartTick(cpu))
    ensures Covered(Next(s, StartTick(cpu)))
  {
  }

  lemma LoopCovers(s: State, a: Step)
    requires Covered(s) && Counts(s) && Sections(s) && Can(s, a) && (a.Count? || a.Insert? || a.Final?)
    ensures Covered(Next(s, a))
  {
    assert forall x :: x in s.open ==> s.open[x] < s.cpus;
    hide Counts, Sections;
  }

  lemma OtherCovers(s: State, a: Step)
    requires Covered(s) && Counts(s) && Sections(s) && Can(s, a)
    requires !a.Begin? && !a.StartTick? && !a.Count? && !a.Insert? && !a.Final?
    ensures Covered(Next(s, a))
  {
    assert !s.round.sync.Undoing?;
    var r := Next(s, a);
    assert forall x :: x in s.round.due ==> x < s.sections;
    assert r.round.due == s.round.due && r.round.queued == s.round.queued && r.round.skipped == s.round.skipped;
    assert !r.round.sync.Free? ==> !s.round.sync.Free? && forall cpu :: Visited(r, cpu) ==> Visited(s, cpu);
    assert forall x :: x in r.open && x < s.sections ==> x in s.open && r.open[x] == s.open[x];
    hide Counts, Sections, Visited, Can, Next;
  }

  lemma BeginCovers(s: State, who: Who)
    requires Can(s, Begin(who))
    ensures Covered(Next(s, Begin(who)))
  {
  }

  lemma CoveredKept(s: State, a: Step)
    requires Covered(s) && Counts(s) && Sections(s) && Can(s, a)
    ensures Covered(Next(s, a))
  {
    hide Covered, Counts, Sections, Next;
    match a
    case Begin(who) => BeginCovers(s, who);
    case StartTick(cpu) => TickCovers(s, cpu);
    case Count(_) => LoopCovers(s, a);
    case Insert => LoopCovers(s, a);
    case Final => LoopCovers(s, a);
    case _ => OtherCovers(s, a);
  }

  /** Sections are not opened again, so nothing comes to wait for more. */
  lemma WaitsLess(s: State, a: Step, cb: nat, x: nat)
    requires Sections(s) && Can(s, a) && cb < |s.since| && Waits(Next(s, a), cb, x)
    ensures Waits(s, cb, x) && Next(s, a).open[x] == s.open[x]
  {
  }

  lemma BeginHanded(s: State, who: Who)
    requires Sections(s) && Can(s, Begin(who))
    ensures Handed(Next(s, Begin(who)))
  {
  }

  lemma BatchWaits(s: State, a: Step)
    requires Sections(s) && InOrder(s) && Can(s, a)
    ensures forall cb, x :: cb in Next(s, a).batch && Waits(Next(s, a), cb, x) ==> Waits(s, cb, x) && Next(s, a).open[x] == s.open[x]
  {
    InOrderKept(s, a);
    hide Waits;
    forall cb, x | cb in Next(s, a).batch && Waits(Next(s, a), cb, x)
      ensures Waits(s, cb, x) && Next(s, a).open[x] == s.open[x]
    {
      assert cb < |s.since|;
      WaitsLess(s, a, cb, x);
    }
  }

  lemma HandedKept(s: State, a: Step)
    requires Sections(s) && InOrder(s) && Handed(s) && Can(s, a)
    ensures Handed(Next(s, a))
  {
    BatchWaits(s, a);
    if a.Begin? { BeginHanded(s, a.who); }
    hide Waits, InOrder;
  }

  lemma QuietKept(s: State, a: Step)
    requires Inv(s) && Can(s, a)
    ensures Quiet(Next(s, a))
  {
    if a.Return? { RoundOver(s); }
    BatchWaits(s, a);
    hide Counts, Covered, InOrder, Sections, Waits;
  }

  lemma StepKeeps(s: State, a: Step)
    requires Inv(s) && Can(s, a)
    ensures Inv(Next(s, a))
  {
    SectionsKept(s, a);
    InOrderKept(s, a);
    CountsKept(s, a);
    CoveredKept(s, a);
    HandedKept(s, a);
    QuietKept(s, a);
    hide Sections, InOrder, Counts, Covered, Handed, Quiet;
  }

  // ---------------------------------------------------------------- whole runs

  ghost predicate Lawful(s: State, run: seq<Step>)
    decreases run
  {
    run != [] ==> Can(s, run[0]) && Lawful(Next(s, run[0]), run[1..])
  }

  ghost function After(s: State, run: seq<Step>): State
    requires Lawful(s, run)
    decreases run
  {
    if run == [] then s else After(Next(s, run[0]), run[1..])
  }

  lemma {:induction false} RunKeeps(s: State, run: seq<Step>)
    requires Inv(s) && Lawful(s, run)
    ensures Inv(After(s, run))
    decreases run
  {
    hide Inv, Next, Can;
    if run != [] {
      StepKeeps(s, run[0]);
      RunKeeps(Next(s, run[0]), run[1..]);
    }
  }

  lemma BootKeeps(cpus: nat)
    ensures Inv(Boot(cpus))
  {
  }

  /** Every callback runs exactly once and in the order of the calls: what ran is a prefix of what was
      handed in. So RcuBarrier, which waits until its own callback ran, returns only after every earlier
      one. None is forgotten: when the thread waits for work and has none, all have run. */
  lemma CallbacksRunOnce(cpus: nat, run: seq<Step>)
    requires Lawful(Boot(cpus), run)
    ensures var s := After(Boot(cpus), run);
      && s.ran <= Numbers(|s.since|)
      && (forall cb, earlier :: cb in s.ran && 0 <= earlier < cb ==> earlier in s.ran)
      && (s.thread.Idle? && !s.pending ==> s.ran == Numbers(|s.since|))
  {
    BootKeeps(cpus);
    RunKeeps(Boot(cpus), run);
    var s := After(Boot(cpus), run);
    assert InOrder(s);
    var all := Numbers(|s.since|);
    hide After, Sections, Counts, Covered, Handed, Quiet, Inv, Lawful, Boot;
    assert all[..|s.ran|] == s.ran;
    assert forall i :: 0 <= i < |s.ran| ==> s.ran[i] == i;
    forall cb, earlier | cb in s.ran && 0 <= earlier < cb ensures earlier in s.ran {
      assert s.ran[earlier] == earlier;
    }
  }

  /** A callback that runs, and a caller that RcuSynchronize lets go, find no section open that was open
      when they came, except on a processor on which no deferred routine could be queued. */
  lemma GracePeriod(cpus: nat, run: seq<Step>, x: nat)
    requires Lawful(Boot(cpus), run)
    ensures var s := After(Boot(cpus), run);
      && (Can(s, RunOne) && s.batch[0] < |s.since| && x in s.since[s.batch[0]] && x in s.open ==> s.open[x] in s.missed)
      && (s.round.sync.Done? && s.round.sync.who.Caller? && s.round.sync.who.id in s.callers && x in s.callers[s.round.sync.who.id] && x in s.open ==>
            s.open[x] in s.round.skipped)
      && (Can(s, RunOne) ==> s.batch[0] < |s.since|)
      && (s.round.sync.Done? && s.round.sync.who.Caller? ==> s.round.sync.who.id in s.callers)
  {
    BootKeeps(cpus);
    RunKeeps(Boot(cpus), run);
    var s := After(Boot(cpus), run);
    if s.round.sync.Done? { RoundOver(s); }
    if Can(s, RunOne) { assert s.batch[0] in s.batch; assert Waits(s, s.batch[0], x) ==> s.open[x] in s.missed; }
    hide After, Sections, Counts, Covered, Lawful, Boot;
  }

  /** The routine of a processor is never still queued from an earlier round. */
  lemma NeverQueuedTwice(cpus: nat, run: seq<Step>)
    requires Lawful(Boot(cpus), run)
    ensures var s := After(Boot(cpus), run); s.round.sync.Inserting? ==> s.round.sync.cpu !in s.round.queued && s.round.sync.cpu !in s.round.running
  {
    BootKeeps(cpus);
    RunKeeps(Boot(cpus), run);
  }

  // ---------------------------------------------------------------- when a grace period is too short

  /** A callback is about to run, or a caller about to leave RcuSynchronize, although a section is still
      open that was open when it came. */
  ghost predicate TooEarly(s: State) {
    || (Can(s, RunOne) && s.batch[0] < |s.since| && exists x :: x in s.since[s.batch[0]] && x in s.open)
    || (s.round.sync.Done? && s.round.sync.who.Caller? && s.round.sync.who.id in s.callers
        && exists x :: x in s.callers[s.round.sync.who.id] && x in s.open)
  }

  /** The processors on which a run could not queue the routine. */
  ghost function Skipped(s: State, run: seq<Step>): set<nat>
    requires Lawful(s, run)
    decreases run
  {
    if run == [] then {}
    else (if run[0] == Count(false) then {s.round.sync.cpu} else {}) + Skipped(Next(s, run[0]), run[1..])
  }

  lemma StepSkips(s: State, a: Step)
    requires Can(s, a)
    ensures var r := s.missed + s.round.skipped + if a == Count(false) then {s.round.sync.cpu} else {};
      Next(s, a).missed <= r && Next(s, a).round.skipped <= r
  {
  }

  lemma {:induction false} SkippedCovers(s: State, run: seq<Step>)
    requires Lawful(s, run)
    ensures After(s, run).missed + After(s, run).round.skipped <= s.missed + s.round.skipped + Skipped(s, run)
    decreases run
  {
    hide Can, Next;
    if run != [] {
      StepSkips(s, run[0]);
      SkippedCovers(Next(s, run[0]), run[1..]);
    }
  }

  ghost predicate CanBeTooEarly(s: State, skipped: set<nat>) {
    exists run :: Lawful(s, run) && Skipped(s, run) <= skipped && TooEarly(After(s, run))
  }

  lemma OnlyIfSkipped(cpus: nat, skipped: set<nat>)
    requires CanBeTooEarly(Boot(cpus), skipped)
    ensures exists cpu :: cpu in skipped && cpu < cpus
  {
    var s0 := Boot(cpus);
    var run :| Lawful(s0, run) && Skipped(s0, run) <= skipped && TooEarly(After(s0, run));
    assert s0.missed == {} && s0.round.skipped == {} && s0.cpus == cpus;
    SkippedCovers(s0, run);
    CpusStay(s0, run);
    BootKeeps(cpus);
    RunKeeps(s0, run);
    var s := After(s0, run);
    var x: nat := TooEarlySection(s);
    hide After, Lawful, TooEarly, Boot;
    GracePeriod(cpus, run, x);
    assert s.open[x] in skipped && s.open[x] < cpus;
  }

  lemma TooEarlySection(s: State) returns (x: nat)
    requires Inv(s) && TooEarly(s)
    ensures x in s.open && s.open[x] < s.cpus
    ensures || (Can(s, RunOne) && s.batch[0] < |s.since| && x in s.since[s.batch[0]])
            || (s.round.sync.Done? && s.round.sync.who.Caller? && s.round.sync.who.id in s.callers && x in s.callers[s.round.sync.who.id])
  {
    assert Sections(s);
    hide Inv, Sections;
    if Can(s, RunOne) && s.batch[0] < |s.since| && exists y :: y in s.since[s.batch[0]] && y in s.open {
      x :| x in s.since[s.batch[0]] && x in s.open;
    } else {
      x :| x in s.callers[s.round.sync.who.id] && x in s.open;
    }
    OpenFits(s, x);
  }

  lemma OpenFits(s: State, x: nat)
    requires Sections(s) && x in s.open
    ensures s.open[x] < s.cpus
  {
  }

  lemma {:induction false} CpusStay(s: State, run: seq<Step>)
    requires Lawful(s, run)
    ensures After(s, run).cpus == s.cpus
    decreases run
  {
    if run != [] {
      assert Next(s, run[0]).cpus == s.cpus;
      CpusStay(Next(s, run[0]), run[1..]);
    }
  }

  lemma Sooner(s: State, a: Step, skipped: set<nat>)
    requires Can(s, a) && (a == Count(false) ==> s.round.sync.cpu in skipped)
    requires CanBeTooEarly(Next(s, a), skipped)
    ensures CanBeTooEarly(s, skipped)
  {
    hide TooEarly, Next;
    var run :| Lawful(Next(s, a), run) && Skipped(Next(s, a), run) <= skipped && TooEarly(After(Next(s, a), run));
    assert ([a] + run)[1..] == run;
    assert Lawful(s, [a] + run) && Skipped(s, [a] + run) <= skipped && TooEarly(After(s, [a] + run));
  }

  lemma AlreadyTooEarly(s: State, skipped: set<nat>)
    requires s.thread.Calling? && s.batch == [0] && |s.since| == 1 && 0 in s.since[0] && 0 in s.open
    ensures CanBeTooEarly(s, skipped)
  {
    assert TooEarly(s);
    hide TooEarly;
    assert Lawful(s, []) && Skipped(s, []) <= skipped && After(s, []) == s;
  }

  /** The cleaner's round for callback 0, while section 0 stays open on `cpu`. */
  ghost predicate LateRound(s: State, cpu: nat) {
    && s.thread.Syncing? && s.batch == [0] && |s.since| == 1 && 0 in s.since[0] && s.open == map[0 := cpu]
    && s.round.sync.Looping? && s.round.sync.who.Cleaner? && s.round.sync.cpu <= s.cpus
    && s.round.refs == 1 && s.round.queued == {} && s.round.running == {} && !s.round.signalling
  }

  /** The other processors run their routines at once. */
  lemma Awaited(s: State, cpu: nat, skipped: set<nat>)
    requires LateRound(s, cpu) && s.round.sync.cpu < s.cpus && s.round.sync.cpu != cpu
    requires forall s' :: LateRound(s', cpu) && s'.cpus == s.cpus && s'.round.sync.cpu == s.round.sync.cpu + 1 ==> CanBeTooEarly(s', skipped)
    ensures CanBeTooEarly(s, skipped)
  {
    hide CanBeTooEarly;
    var c := s.round.sync.cpu;
    var s1 := Next(s, Count(true));
    var s2 := Next(s1, Insert);
    var s3 := Next(s2, StartTick(c));
    var s4 := Next(s3, DecrementTick(c));
    assert LateRound(s4, cpu) && s4.cpus == s.cpus && s4.round.sync.cpu == c + 1;
    Sooner(s3, DecrementTick(c), skipped);
    Sooner(s2, StartTick(c), skipped);
    Sooner(s1, Insert, skipped);
    Sooner(s, Count(true), skipped);
  }

  lemma RoundEnds(s: State, cpu: nat, skipped: set<nat>)
    requires LateRound(s, cpu) && s.round.sync.cpu == s.cpus
    ensures CanBeTooEarly(s, skipped)
  {
    hide CanBeTooEarly;
    var s1 := Next(s, Final);
    var s2 := Next(s1, Return);
    AlreadyTooEarly(s2, skipped);
    Sooner(s1, Return, skipped);
    Sooner(s, Final, skipped);
  }

  lemma {:induction false} LateRoundEnds(s: State, cpu: nat, skipped: set<nat>)
    requires LateRound(s, cpu) && cpu in skipped
    ensures CanBeTooEarly(s, skipped)
    decreases s.cpus - s.round.sync.cpu
  {
    hide CanBeTooEarly;
    if s.round.sync.cpu == s.cpus {
      RoundEnds(s, cpu, skipped);
    } else if s.round.sync.cpu == cpu {
      LateRoundEnds(Next(s, Count(false)), cpu, skipped);
      Sooner(s, Count(false), skipped);
    } else {
      forall s' | LateRound(s', cpu) && s'.cpus == s.cpus && s'.round.sync.cpu == s.round.sync.cpu + 1
        ensures CanBeTooEarly(s', skipped)
      {
        LateRoundEnds(s', cpu, skipped);
      }
      Awaited(s, cpu, skipped);
    }
  }

  lemma IfSkipped(cpus: nat, skipped: set<nat>, cpu: nat)
    requires cpu in skipped && cpu < cpus
    ensures CanBeTooEarly(Boot(cpus), skipped)
  {
    hide CanBeTooEarly;
    var s1 := Next(Boot(cpus), Enter(cpu));
    var s2 := Next(s1, Post);
    var s3 := Next(s2, Wake);
    var s4 := Next(s3, Take);
    var s5 := Next(s4, Begin(Cleaner));
    assert s1.open == map[0 := cpu] && s4.batch == [0] && s4.since == [s1.open.Keys];
    LateRoundEnds(s5, cpu, skipped);
    Sooner(s4, Begin(Cleaner), skipped);
    Sooner(s3, Take, skipped);
    Sooner(s2, Wake, skipped);
    Sooner(s1, Post, skipped);
    Sooner(Boot(cpus), Enter(cpu), skipped);
  }

  /** Exactly when a grace period can be too short: for any number of processors, a run in which the
      routine fails to be queued on processors of a given set only can let a callback or a caller go
      while a section that was open before it is still open, if and only if there is a processor in the
      set. A run in which it never fails cannot. */
  lemma TooEarlyIff(cpus: nat, skipped: set<nat>)
    ensures CanBeTooEarly(Boot(cpus), skipped) <==> exists cpu :: cpu in skipped && cpu < cpus
  {
    hide CanBeTooEarly;
    if cpu :| cpu in skipped && cpu < cpus {
      IfSkipped(cpus, skipped, cpu);
    }
    if CanBeTooEarly(Boot(cpus), skipped) {
      OnlyIfSkipped(cpus, skipped);
    }
  }

  // ---------------------------------------------------------------- the round ends

  /** Something the driver itself can do next. */
  predicate Works(a: Step) {
    !a.Enter? && !a.Leave? && !a.Post? && !a.CallSynchronize?
  }

  ghost function AnyCaller(s: State): Who
    requires s.callers != map[]
  {
    var id: nat :| id in s.callers;
    Caller(id)
  }

  /** As long as a callback has not run or a caller of RcuSynchronize has not returned, and whenever all
      sections are closed, some thread or routine can go on: no wake-up is lost, whichever of the last routine and the loop itself drops the last
      reference. */
  lemma NobodyStuck(s: State)
    requires Inv(s) && s.open == map[] && (|s.ran| < |s.since| || s.callers != map[])
    ensures exists a :: Works(a) && Can(s, a)
  {
    hide Sections, Covered, Quiet;
    if s.round.queued != {} {
      var cpu :| cpu in s.round.queued;
      assert Can(s, StartTick(cpu)) && Works(StartTick(cpu));
    } else if s.round.running != {} {
      var cpu :| cpu in s.round.running;
      assert Can(s, DecrementTick(cpu)) && Works(DecrementTick(cpu));
    } else {
      var a := match s.round.sync
        case Free => (match s.thread
                      case Idle => if s.pending then Wake else Begin(AnyCaller(s))
                      case Woken => Take
                      case Syncing => Begin(Cleaner)
                      case Calling => if s.batch != [] then RunOne else LoopOver)
        case Looping(_, cpu) => if cpu < s.cpus then Count(true) else Final
        case Inserting(_, _) => Insert
        case Undoing(_, _) => Undo
        case Waiting(_) => if s.round.signalling then Signal else WaitOver
        case Done(_) => Return;
      assert Works(a) && Can(s, a);
    }
  }
}
