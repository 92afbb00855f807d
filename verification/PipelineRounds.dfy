/** One peer cannot keep a thread to itself: how much is released between taking a peer off the list and
    retiring it, and in which order peers are taken (PacketPeerRxWork and ProcessPerPeerWork of
    driver/receive.c, driver/queueing.h). */
module PipelineRounds {
  import opened PrevQueue
  import opened Pipeline
  import opened PipelineCustody
  import opened PipelineService
  import opened PipelineQueues
  import opened PipelineRelease
  import opened PipelineWakeups
  import opened PipelineProgress
  import opened PipelineRuns

  /** What a thread may still release of the peer it serves. */
  function Left(th: Thread): nat {
    match th
    case Peeking(_, budget, _) => budget
    case Judging(_, budget, _) => budget
    case _ => 0
  }

  lemma OwnStep(s: State, a: Step, p: nat)
    requires Can(s, a) && !a.Retire? && a.t in s.threads && PeerOf(s.threads[a.t]) == Some(p)
    ensures Target(s, a).Some? && PeerOf(Target(s, a).value) == Some(p)
    ensures |Exit(s, a, p)| + Left(Target(s, a).value) <= Left(s.threads[a.t])
  {
    hide Q, Pc, Stays, SpareTarget;
  }

  lemma OthersExit(s: State, a: Step, t: ThreadId, p: nat)
    requires Service(s) && Can(s, a) && a.t != t && t in s.threads && PeerOf(s.threads[t]) == Some(p)
    ensures Exit(s, a, p) == []
  {
    if a.Judge? && s.threads[a.t].peer == p { OneServer(s, t, a.t); }
    hide Service, Q, Quiet;
  }

  /** The thread that serves p releases at most one packet and has that much less left; nobody else
      releases any of p's. */
  lemma RoundStep(s: State, a: Step, t: ThreadId, p: nat)
    requires Service(s) && Can(s, a) && a != Retire(t)
    requires t in s.threads && PeerOf(s.threads[t]) == Some(p)
    ensures var s' := Next(s, a);
      && t in s'.threads && PeerOf(s'.threads[t]) == Some(p)
      && |Exit(s, a, p)| + Left(s'.threads[t]) <= Left(s.threads[t])
  {
    hide Service, Next, Can, Exit, Target, Left, PeerOf;
    StepLeads(s, a);
    if a.t == t { OwnStep(s, a, p); } else { OthersExit(s, a, t, p); }
  }

  lemma {:induction false} RoundRun(s: State, run: seq<Step>, t: ThreadId, p: nat)
    requires Good(s) && Lawful(s, run) && Retire(t) !in run
    requires t in s.threads && PeerOf(s.threads[t]) == Some(p)
    ensures |Exits(s, run, p)| <= Left(s.threads[t])
    decreases run
  {
    if run != [] {
      assert Service(s);
      hide Next, Good, Can, Service, Exit, Left, PeerOf;
      RoundStep(s, run[0], t, p);
      GoodKeeps(s, run[0]);
      assert forall a :: a in run[1..] ==> a in run;
      RoundRun(Next(s, run[0]), run[1..], t, p);
    }
  }

  lemma TakenUp(s: State, t: ThreadId)
    requires Can(s, Serve(t)) && s.serial.list != []
    ensures var s' := Next(s, Serve(t));
      t in s'.threads && PeerOf(s'.threads[t]) == Some(s.serial.list[0]) && Left(s'.threads[t]) <= 256
  {
    StepLeads(s, Serve(t));
    hide Next;
  }

  /** Once a thread has taken a peer off the list, at most 256 of the peer's packets are released, by
      whomever, until the thread retires the peer. */
  lemma RoundBounded(run: seq<Step>, t: ThreadId, rest: seq<Step>)
    requires Lawful(Init, run) && Can(After(Init, run), Serve(t)) && After(Init, run).serial.list != []
    requires Lawful(Next(After(Init, run), Serve(t)), rest) && Retire(t) !in rest
    ensures |Exits(Next(After(Init, run), Serve(t)), rest, After(Init, run).serial.list[0])| <= 256
  {
    var s := After(Init, run);
    ReachedGood(run, 0);
    GoodKeeps(s, Serve(t));
    TakenUp(s, t);
    hide Lawful, After, Good, Exits, Next, Can, Left, PeerOf;
    RoundRun(Next(s, Serve(t)), rest, t, s.serial.list[0]);
  }

  // ---------------------------------------------------------------- whose turn it is

  /** The peer that joins the list: one reported that was idle, or one retired that has more work or was
      reported meanwhile. */
  ghost function Joins(s: State, a: Step): seq<nat>
    requires Can(s, a)
  {
    match a
    case Wake(t) => if s.threads[t].nbl.peer in s.serial.busy then [] else [s.threads[t].nbl.peer]
    case Retire(t) =>
      if s.threads[t].more || s.threads[t].peer in s.serial.requeue then [s.threads[t].peer] else []
    case _ => []
  }

  /** The peer a thread begins to serve. */
  ghost function Turn(s: State, a: Step): seq<nat>
    requires Can(s, a)
  {
    var after := Next(s, a).threads;
    if a.Serve? && a.t in after && PeerOf(after[a.t]).Some? then [PeerOf(after[a.t]).value] else []
  }

  ghost function Joined(s: State, run: seq<Step>): seq<nat>
    requires Lawful(s, run)
    decreases run
  {
    if run == [] then [] else Joins(s, run[0]) + Joined(Next(s, run[0]), run[1..])
  }

  ghost function Turns(s: State, run: seq<Step>): seq<nat>
    requires Lawful(s, run)
    decreases run
  {
    if run == [] then [] else Turn(s, run[0]) + Turns(Next(s, run[0]), run[1..])
  }

  lemma TurnIs(s: State, a: Step)
    requires Can(s, a)
    ensures Turn(s, a) == if a.Serve? && s.serial.list != [] then [s.serial.list[0]] else []
  {
    if a.Serve? { StepLeads(s, a); }
    hide Next;
  }

  lemma TurnStep(s: State, a: Step)
    requires Can(s, a)
    ensures s.serial.list + Joins(s, a) == Turn(s, a) + Next(s, a).serial.list
  {
    StepSerial(s, a);
    TurnIs(s, a);
    hide Next, Turn;
  }

  lemma {:induction false} TurnRun(s: State, run: seq<Step>)
    requires Lawful(s, run)
    ensures s.serial.list + Joined(s, run) == Turns(s, run) + After(s, run).serial.list
    decreases run
  {
    hide Next, Can, Joins, Turn;
    if run != [] {
      var s1 := Next(s, run[0]);
      TurnStep(s, run[0]);
      TurnRun(s1, run[1..]);
      calc {
        s.serial.list + (Joins(s, run[0]) + Joined(s1, run[1..]));
        (s.serial.list + Joins(s, run[0])) + Joined(s1, run[1..]);
        (Turn(s, run[0]) + s1.serial.list) + Joined(s1, run[1..]);
        Turn(s, run[0]) + (s1.serial.list + Joined(s1, run[1..]));
        Turn(s, run[0]) + (Turns(s1, run[1..]) + After(s1, run[1..]).serial.list);
      }
    }
  }

  /** Peers are served in the order in which they joined the list, and those that have not been wait on it. */
  lemma ServedInOrder(run: seq<Step>)
    requires Lawful(Init, run)
    ensures Joined(Init, run) == Turns(Init, run) + After(Init, run).serial.list
  {
    hide Lawful, Joined, Turns, After;
    TurnRun(Init, run);
    assert [] + Joined(Init, run) == Joined(Init, run);
  }
}
