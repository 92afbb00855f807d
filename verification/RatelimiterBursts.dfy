/** Runs in which more packets of an address get through at one instant than the burst. */
module RatelimiterBursts {
  import opened Ratelimiter
  import opened RatelimiterFits
  import opened RatelimiterIdeal
  import opened RatelimiterSeen
  import opened RatelimiterRate

  /** The run leads there and lets n packets through. */
  ghost predicate Lets(s: State, run: seq<Step>, s': State, ip: Source, n: nat) {
    Lawful(s, run) && After(s, run) == s' && PassedIn(s, run, ip) == n
  }

  lemma LetsNone(s: State, ip: Source)
    ensures Lets(s, [], s, ip, 0)
  {
  }

  lemma LetsStep(s: State, a: Step, ip: Source)
    requires Can(s, a)
    ensures Lets(s, [a], Next(s, a), ip, Passed(s, a, ip))
  {
    assert [a][1..] == [];
    hide Can, Next, Passed;
    LetsNone(Next(s, a), ip);
  }

  lemma {:induction false} LetsJoined(s: State, x: seq<Step>, s1: State, m: nat, y: seq<Step>, s2: State, n: nat, ip: Source)
    requires Lets(s, x, s1, ip, m) && Lets(s1, y, s2, ip, n)
    ensures Lets(s, x + y, s2, ip, m + n)
    decreases x
  {
    hide Can, Next, Passed;
    if x == [] {
      assert x + y == y;
    } else {
      assert (x + y)[1..] == x[1..] + y;
      LetsJoined(Next(s, x[0]), x[1..], s1, PassedIn(Next(s, x[0]), x[1..], ip), y, s2, n, ip);
    }
  }

  /** Three steps of which only the last may let a packet through. */
  lemma LetsThree(s: State, a: Step, b: Step, c: Step, s': State, ip: Source)
    requires Can(s, a) && Can(Next(s, a), b) && Can(Next(Next(s, a), b), c) && Next(Next(Next(s, a), b), c) == s'
    requires Passed(s, a, ip) == Passed(Next(s, a), b, ip) == 0
    ensures Lets(s, [a, b, c], s', ip, Passed(Next(Next(s, a), b), c, ip))
  {
    hide Can, Next, Passed, Lets;
    var s1 := Next(s, a);
    var s2 := Next(s1, b);
    LetsStep(s, a, ip);
    LetsStep(s1, b, ip);
    LetsStep(s2, c, ip);
    LetsJoined(s1, [b], s2, 0, [c], s', Passed(s2, c, ip), ip);
    LetsJoined(s, [a], s1, 0, [b] + [c], s', Passed(s2, c, ip), ip);
    assert [a, b, c] == [a] + ([b] + [c]);
  }

  lemma LetsTwo(s: State, a: Step, b: Step, s': State, ip: Source)
    requires Can(s, a) && Can(Next(s, a), b) && Next(Next(s, a), b) == s'
    ensures Lets(s, [a, b], s', ip, Passed(s, a, ip) + Passed(Next(s, a), b, ip))
  {
    hide Can, Next, Passed, Lets;
    LetsStep(s, a, ip);
    LetsStep(Next(s, a), b, ip);
    LetsJoined(s, [a], Next(s, a), Passed(s, a, ip), [b], s', Passed(Next(s, a), b, ip), ip);
    assert [a, b] == [a] + [b];
  }

  // ---------------------------------------------------------------- callers that nobody interrupts

  lemma CallLets(s: State, u: ThreadId, ip: Source, e: nat)
    requires Front(s, ip, e) && u !in s.threads
    ensures Lets(s, Call(u, ip), Drawn(s, e), ip, if Draw(s.entries[e].bucket, s.now).1 then 1 else 0)
  {
    hide Draw, Of, Lets;
    var s2 := Next(Next(s, Enter(u, ip)), Probe(u));
    assert Next(s2, Take(u)).threads == s.threads;
    LetsThree(s, Enter(u, ip), Probe(u), Take(u), Drawn(s, e), ip);
  }

  lemma FirstLets(s: State, u: ThreadId, ip: Source)
    requires !ip.Other? && Of(s, s.chain, ip) == [] && u !in s.threads && s.total < MAX_ENTRIES
    ensures Lets(s, FirstCall(u, ip), s.(total := s.total + 1, threads := s.threads[u := Counted(ip, true)]), ip, 0)
  {
    hide Draw, Of, Lets;
    var s' := s.(total := s.total + 1, threads := s.threads[u := Counted(ip, true)]);
    var s2 := Next(Next(s, Enter(u, ip)), Probe(u));
    assert Next(s2, Count(u)).threads == s'.threads;
    LetsThree(s, Enter(u, ip), Probe(u), Count(u), s', ip);
  }

  lemma EnteringLets(s: State, u: ThreadId, ip: Source)
    requires u in s.threads && s.threads[u] == Counted(ip, true) && !s.sweeper.Condemning?
    ensures Lets(s, Entering(u), Linked(Filling(s, ip), |s.entries|).(threads := s.threads - {u}), ip, 1)
  {
    hide Lets;
    var s' := Linked(Filling(s, ip), |s.entries|).(threads := s.threads - {u});
    assert Next(Next(s, Fill(u)), Insert(u)).threads == s'.threads;
    LetsTwo(s, Fill(u), Insert(u), s', ip);
  }

  /** Entry e with n packets in it. */
  function Holds(s: State, ip: Source, e: nat, n: nat): State
    requires e < |s.entries| && n <= PACKETS_BURSTABLE
  {
    s.(entries := s.entries[e := Entry(ip, Bucket(s.now, n * PACKET_COST))])
  }

  /** They are let through one after the other. */
  lemma {:induction false} DrainLets(s: State, u: ThreadId, ip: Source, e: nat, n: nat) returns (run: seq<Step>)
    requires Front(s, ip, e) && u !in s.threads && s.now < CLOCK_END && n <= PACKETS_BURSTABLE
    requires s == Holds(s, ip, e, n)
    ensures Lets(s, run, Holds(s, ip, e, 0), ip, n)
    decreases n
  {
    LetsNone(s, ip);
    run := [];
    if n > 0 {
      CallLets(s, u, ip, e);
      FilledIs(s.entries[e].bucket, s.now);
      OfDrawn(s, e, s.chain, ip);
      var s' := Drawn(s, e);
      assert s' == Holds(s, ip, e, n - 1);
      hide Lets, Draw, Of, Filled;
      var rest := DrainLets(s', u, ip, e, n - 1);
      LetsJoined(s, Call(u, ip), s', 1, rest, Holds(s', ip, e, 0), n - 1, ip);
      run := Call(u, ip) + rest;
    }
  }

  /** Five packets of an address that has no entry in the list. */
  lemma FiveLets(s: State, u: ThreadId, ip: Source) returns (run: seq<Step>)
    requires !ip.Other? && Of(s, s.chain, ip) == [] && u !in s.threads && s.total < MAX_ENTRIES && s.now < CLOCK_END
    requires !s.sweeper.Condemning?
    ensures Lets(s, run, Used(s, ip), ip, 5)
  {
    var n := |s.entries|;
    var s1 := s.(total := s.total + 1, threads := s.threads[u := Counted(ip, true)]);
    var s2 := Linked(Filling(s1, ip), n).(threads := s1.threads - {u});
    FirstLets(s, u, ip);
    EnteringLets(s1, u, ip);
    assert s2.threads == s.threads && s2 == Holds(s2, ip, n, 4) && Used(s, ip) == Holds(s2, ip, n, 0);
    assert Of(s2, s2.chain, ip)[0] == n;
    hide Lets, Of, Draw;
    var draws := DrainLets(s2, u, ip, n, 4);
    LetsJoined(s1, Entering(u), s2, 1, draws, Used(s, ip), 4, ip);
    LetsJoined(s, FirstCall(u, ip), s1, 0, Entering(u) + draws, Used(s, ip), 5, ip);
    run := FirstCall(u, ip) + (Entering(u) + draws);
  }

  /** There is a new entry, in front, with nothing in it. */
  function Used(s: State, ip: Source): State {
    s.(entries := s.entries + [Entry(ip, Bucket(s.now, 0))], chain := [|s.entries|] + s.chain, total := s.total + 1)
  }

  // ---------------------------------------------------------------- six at one instant

  lemma StartReached(t: uint64)
    requires t < CLOCK_END
    ensures Reached(Init.(now := t))
  {
    LetsStep(Init, Tick(t), V4(0));
  }

  /** Two callers that overlap and both find nothing: both fill an entry and put it into the list, and the
      one in front lets four more through. */
  lemma TwoFirstPackets(ip: Source, t: uint64) returns (run: seq<Step>)
    requires !ip.Other? && t < CLOCK_END
    ensures Reached(Init.(now := t))
    ensures var s := Init.(now := t); Lawful(s, run) && After(s, run).now == t && PassedIn(s, run, ip) == 6
  {
    StartReached(t);
    var s := Init.(now := t);
    var s2 := BothCounted(s, ip);
    var s4 := Filling(Filling(s2, ip), ip).(threads := map[1 := Pending(0), 2 := Pending(1)]);
    var s6 := s4.(chain := [1, 0], threads := map[]);
    BothFill(s2, s4, ip);
    BothInsert(s4, s6, ip);
    assert Of(s6, [1, 0], ip)[0] == 1;
    hide Lets, Of;
    var draws := DrainLets(s6, 3, ip, 1, 4);
    var end := Holds(s6, ip, 1, 0);
    var calls := FirstCall(1, ip) + FirstCall(2, ip);
    LetsJoined(s4, [Insert(1), Insert(2)], s6, 0, draws, end, 4, ip);
    LetsJoined(s2, [Fill(1), Fill(2)], s4, 2, [Insert(1), Insert(2)] + draws, end, 4, ip);
    LetsJoined(s, calls, s2, 0, [Fill(1), Fill(2)] + ([Insert(1), Insert(2)] + draws), end, 6, ip);
    run := calls + ([Fill(1), Fill(2)] + ([Insert(1), Insert(2)] + draws));
    LetsEnd(s, run, end, ip, 6);
  }

  lemma LetsEnd(s: State, run: seq<Step>, s': State, ip: Source, n: nat)
    requires Lets(s, run, s', ip, n)
    ensures Lawful(s, run) && After(s, run) == s' && PassedIn(s, run, ip) == n
  {
  }

  /** Callers 1 and 2 have both missed and counted. */
  lemma BothCounted(s: State, ip: Source) returns (s2: State)
    requires !ip.Other? && s.chain == [] && s.threads == map[] && s.total == 0
    ensures s2 == s.(total := 2, threads := map[1 := Counted(ip, true), 2 := Counted(ip, true)])
    ensures Lets(s, FirstCall(1, ip) + FirstCall(2, ip), s2, ip, 0)
  {
    var s1 := s.(total := 1, threads := s.threads[1 := Counted(ip, true)]);
    s2 := s1.(total := 2, threads := s1.threads[2 := Counted(ip, true)]);
    FirstLets(s, 1, ip);
    FirstLets(s1, 2, ip);
    hide Lets;
    LetsJoined(s, FirstCall(1, ip), s1, 0, FirstCall(2, ip), s2, 0, ip);
  }

  lemma BothFill(s: State, s': State, ip: Source)
    requires s.threads == map[1 := Counted(ip, true), 2 := Counted(ip, true)] && s.entries == []
    requires s' == Filling(Filling(s, ip), ip).(threads := map[1 := Pending(0), 2 := Pending(1)])
    ensures Lets(s, [Fill(1), Fill(2)], s', ip, 2)
  {
    hide Lets;
    assert Next(Next(s, Fill(1)), Fill(2)).threads == s'.threads;
    LetsTwo(s, Fill(1), Fill(2), s', ip);
  }

  lemma BothInsert(s: State, s': State, ip: Source)
    requires s.threads == map[1 := Pending(0), 2 := Pending(1)] && s.chain == [] && !s.sweeper.Condemning?
    requires s' == s.(chain := [1, 0], threads := map[])
    ensures Lets(s, [Insert(1), Insert(2)], s', ip, 0)
  {
    hide Lets;
    assert Next(Next(s, Insert(1)), Insert(2)).threads == s'.threads;
    LetsTwo(s, Insert(1), Insert(2), s', ip);
  }

  /** A sweep takes out what it has found idle. */
  lemma SweepLets(s: State, e: nat, s': State, ip: Source)
    requires s.sweeper.Sweeping? && e in s.chain && e < |s.entries| && Stale(s.entries[e].bucket, s.sweeper.reading)
    requires s' == Unlinked(s, e)
    ensures Lets(s, [Judge(e), Unlink], s', ip, 0)
  {
    hide Lets, Without;
    LetsTwo(s, Judge(e), Unlink, s', ip);
  }

  /** One entry, with nothing in it, and a sweep that read the clock before. */
  predicate Drained(s: State, ip: Source) {
    && s.entries == [Entry(ip, Bucket(s.now, 0))] && s.chain == [0] && s.total == 1 && s.threads == map[]
    && s.sweeper.Sweeping? && s.sweeper.reading < s.now < CLOCK_END && !ip.Other?
  }

  lemma RefusedLets(s: State, ip: Source)
    requires Drained(s, ip)
    ensures Lets(s, Call(1, ip), Drawn(s, 0), ip, 0)
  {
    assert Of(s, [0], ip) == [0];
    CallLets(s, 1, ip, 0);
    FilledIs(s.entries[0].bucket, s.now);
  }

  lemma ForgottenLets(s: State, ip: Source)
    requires Drained(s, ip)
    ensures var s' := Unlinked(s, 0);
      Lets(s, [Judge(0), Unlink], s', ip, 0) && s'.chain == [] && Of(s', s'.chain, ip) == []
  {
    assert [0][1..] == [];
    StaleIff(s.entries[0].bucket, s.sweeper.reading);
    SweepLets(s, 0, Unlinked(s, 0), ip);
  }

  lemma SixthLets(s: State, ip: Source) returns (run: seq<Step>, s': State)
    requires Drained(s, ip)
    ensures Lets(s, run, s', ip, 1) && s'.now == s.now
  {
    hide Lets, Of, Draw, Stale;
    ForgottenLets(s, ip);
    var s2 := Unlinked(s, 0);
    var s3 := s2.(total := 2, threads := s2.threads[1 := Counted(ip, true)]);
    s' := Linked(Filling(s3, ip), 1).(threads := s3.threads - {1});
    FirstLets(s2, 1, ip);
    EnteringLets(s3, 1, ip);
    LetsJoined(s2, FirstCall(1, ip), s3, 0, Entering(1), s', 1, ip);
    LetsJoined(s, [Judge(0), Unlink], s2, 0, FirstCall(1, ip) + Entering(1), s', 1, ip);
    run := [Judge(0), Unlink] + (FirstCall(1, ip) + Entering(1));
  }

  /** A sweep that read the clock before: five packets, then their entry is forgotten and a sixth gets
      through; without the sweep it would not. */
  lemma LateSweepForgets(ip: Source, reading: uint64, t: uint64) returns (five: seq<Step>, sixth: seq<Step>)
    requires !ip.Other? && reading < t < CLOCK_END
    ensures var s := Init.(now := t, sweeper := Sweeping(reading));
      && Reached(s) && Lawful(s, five) && After(s, five).now == t && PassedIn(s, five, ip) == 5
      && var s' := After(s, five);
      && Lawful(s', Call(1, ip)) && PassedIn(s', Call(1, ip), ip) == 0
      && Lawful(s', sixth) && After(s', sixth).now == t && PassedIn(s', sixth, ip) == 1
  {
    hide Lets, Of, Draw, Stale, Reached, Lawful, After, PassedIn;
    var s := Init.(now := t, sweeper := Sweeping(reading));
    LateReached(reading, t);
    NoneOf(s, ip);
    five := FiveLets(s, 1, ip);
    var s1 := Used(s, ip);
    LetsEnd(s, five, s1, ip, 5);
    RefusedLets(s1, ip);
    LetsEnd(s1, Call(1, ip), Drawn(s1, 0), ip, 0);
    var end;
    sixth, end := SixthLets(s1, ip);
    LetsEnd(s1, sixth, end, ip, 1);
  }

  lemma NoneOf(s: State, ip: Source)
    ensures Of(s, [], ip) == []
  {
  }

  lemma LateReached(reading: uint64, t: uint64)
    requires reading < t < CLOCK_END
    ensures Reached(Init.(now := t, sweeper := Sweeping(reading)))
  {
    LetsThree(Init, Tick(reading), Read, Tick(t), Init.(now := t, sweeper := Sweeping(reading)), V4(0));
  }

  /** A full entry that has been idle for over a second, found by a caller. */
  function Idle(ip: Source, t: uint64): State {
    Init.(now := t, entries := [Entry(ip, Bucket(0, TOKEN_MAX - PACKET_COST))], chain := [0], total := 1)
  }

  lemma IdleReached(ip: Source, t: uint64)
    requires !ip.Other? && t < CLOCK_END
    ensures Reached(Idle(ip, t))
  {
    var s1 := Init.(total := 1, threads := map[1 := Counted(ip, true)]);
    var s2 := Linked(Filling(s1, ip), 0).(threads := s1.threads - {1});
    FirstLets(Init, 1, ip);
    EnteringLets(s1, 1, ip);
    LetsStep(s2, Tick(t), ip);
    assert Next(s2, Tick(t)) == Idle(ip, t);
    hide Lets;
    LetsJoined(s1, Entering(1), s2, 1, [Tick(t)], Idle(ip, t), 0, ip);
    LetsJoined(Init, FirstCall(1, ip), s1, 0, Entering(1) + [Tick(t)], Idle(ip, t), 1, ip);
    LetsEnd(Init, FirstCall(1, ip) + (Entering(1) + [Tick(t)]), Idle(ip, t), ip, 1);
  }

  /** A sweep with the present reading between the walk of a caller and its draw: it takes out an entry that
      is full, the caller draws on it all the same, and five more get through. */
  lemma SweptWhileHeld(ip: Source, t: uint64) returns (run: seq<Step>)
    requires !ip.Other? && SYS_TIME_UNITS_PER_SEC < t < CLOCK_END
    ensures var s := Idle(ip, t);
      Reached(s) && Full(s.entries[0].bucket, t) && Lawful(s, run) && After(s, run).now == t && PassedIn(s, run, ip) == 6
  {
    var s := Idle(ip, t);
    IdleReached(ip, t);
    FilledIs(s.entries[0].bucket, t);
    FullDraw(s.entries[0].bucket, t);
    StaleIff(s.entries[0].bucket, t);
    assert Of(s, [0], ip) == [0];
    var s1 := s.(threads := map[1 := Holding(ip, 0, 0)], sweeper := Sweeping(t));
    LetsThree(s, Enter(1, ip), Probe(1), Read, s1, ip);
    var s2 := Unlinked(s1, 0);
    SweepLets(s1, 0, s2, ip);
    var s3 := Next(s2, Take(1));
    LetsStep(s2, Take(1), ip);
    assert s3.chain == [] && s3.threads == map[];
    hide Lets, Of, Draw, Stale, Filled;
    var five := FiveLets(s3, 2, ip);
    var end := Used(s3, ip);
    LetsJoined(s2, [Take(1)], s3, 1, five, end, 5, ip);
    LetsJoined(s1, [Judge(0), Unlink], s2, 0, [Take(1)] + five, end, 6, ip);
    LetsJoined(s, [Enter(1, ip), Probe(1), Read], s1, 0, [Judge(0), Unlink] + ([Take(1)] + five), end, 6, ip);
    run := [Enter(1, ip), Probe(1), Read] + ([Judge(0), Unlink] + ([Take(1)] + five));
    LetsEnd(s, run, end, ip, 6);
  }

  /** A run can disturb an address and still give it the ideal answers, if nobody comes to notice: two
      callers that fill an entry each, and nothing more. */
  lemma NobodyNotices(ip: Source, t: uint64) returns (run: seq<Step>)
    requires !ip.Other? && t < CLOCK_END
    ensures var s := Init.(now := t);
      Reached(s) && Lawful(s, run) && !Undisturbed(s, run, ip) && Agrees(Untouched, s, run, ip)
  {
    hide Lawful, After, Agrees, Undisturbed, IdealAfter, Draw, Filled, Reached, Of;
    StartReached(t);
    var s := Init.(now := t);
    var s1 := s.(total := 1, threads := s.threads[1 := Counted(ip, true)]);
    var s2 := s1.(total := 2, threads := s1.threads[2 := Counted(ip, true)]);
    NoneOf(s, ip);
    NoneOf(s1, ip);
    FirstCallIs(Untouched, s, 1, ip);
    FirstCallIs(Untouched, s1, 2, ip);
    BothAgree(s2, ip);
    AgreesJoined(Untouched, s1, FirstCall(2, ip), [Fill(1)] + [Fill(2)], ip);
    Joined(s1, FirstCall(2, ip), [Fill(1)] + [Fill(2)]);
    run := FirstCall(1, ip) + (FirstCall(2, ip) + ([Fill(1)] + [Fill(2)]));
    AgreesJoined(Untouched, s, FirstCall(1, ip), FirstCall(2, ip) + ([Fill(1)] + [Fill(2)]), ip);
  }

  lemma BothAgree(s: State, ip: Source)
    requires s.threads == map[1 := Counted(ip, true), 2 := Counted(ip, true)] && s.entries == [] && s.retired == [] && s.now < CLOCK_END
    ensures var run := [Fill(1)] + [Fill(2)];
      Lawful(s, run) && !Undisturbed(s, run, ip) && Agrees(Untouched, s, run, ip)
  {
    hide Lawful, After, Agrees, Undisturbed, IdealAfter, Draw, Filled;
    var s3 := Next(s, Fill(1));
    var b := Draw(Untouched, s.now).0;
    FilledIsMax(s.now);
    DrawIs(Untouched, s.now);
    DrawIs(b, s.now);
    OneStep(Untouched, s, Fill(1), ip);
    OneStep(b, s3, Fill(2), ip);
    assert Owns(s3, 0, ip);
    AgreesJoined(Untouched, s, [Fill(1)], [Fill(2)], ip);
    Joined(s, [Fill(1)], [Fill(2)]);
  }

  lemma FilledIsMax(now: uint64)
    requires now < CLOCK_END
    ensures Filled(Untouched, now) == TOKEN_MAX
  {
    FilledIs(Untouched, now);
  }
}
