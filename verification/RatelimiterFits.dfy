/** What every run of the limiter keeps: where an entry can be, what callers and the sweep know of it, and
    what TotalEntries counts. */
module RatelimiterFits {
  import opened Ratelimiter

  // ---------------------------------------------------------------- lists

  lemma {:induction false} OfIn(s: State, ids: seq<nat>, ip: Source)
    ensures forall e :: e in Of(s, ids, ip) <==> e in ids && IsOf(s, e, ip)
  {
    if ids != [] { OfIn(s, ids[1..], ip); }
  }

  lemma {:induction false} WithoutIn(ids: seq<nat>, e: nat)
    ensures forall x :: x in Without(ids, e) <==> x in ids && x != e
  {
    if ids != [] { WithoutIn(ids[1..], e); }
  }

  lemma FirstIn(ids: seq<nat>)
    ensures ids != [] ==> ids[0] in ids
  {
  }

  // ---------------------------------------------------------------- the invariant

  /** A caller that knows an entry since then will not see it freed. */
  ghost predicate Known(s: State, e: nat, ip: Source, since: nat) {
    && s.freed <= since <= |s.retired|
    && IsOf(s, e, ip) && (e in s.chain || e in s.retired[since..])
  }

  ghost predicate ThreadFits(s: State, th: Thread) {
    match th
    case Walking(ip, left, since) => s.freed <= since <= |s.retired| && forall e :: e in left ==> Known(s, e, ip, since)
    case Holding(ip, e, since) => Known(s, e, ip, since)
    case Pending(e) => e < |s.entries| && e !in s.chain && e !in s.retired
    case _ => true
  }

  ghost predicate Waits(s: State, e: nat) {
    exists t :: t in s.threads && s.threads[t] == Pending(e)
  }

  ghost predicate EntriesFit(s: State) {
    && s.now < CLOCK_END
    && (forall e :: 0 <= e < |s.entries| ==> Sane(s.entries[e].bucket, s.now))
    && (forall e :: 0 <= e < |s.entries| ==> e in s.chain || e in s.retired || Waits(s, e))
  }

  ghost predicate ListsFit(s: State) {
    && (forall e :: e in s.chain ==> e < |s.entries| && e !in s.retired)
    && (forall e :: e in s.retired ==> e < |s.entries|)
    && (forall i, j :: 0 <= i < j < |s.retired| ==> s.retired[i] != s.retired[j])
    && s.freed <= |s.retired|
  }

  ghost predicate ThreadsFit(s: State) {
    && (forall t :: t in s.threads ==> ThreadFits(s, s.threads[t]))
    && (forall t, u :: t in s.threads && u in s.threads && s.threads[t].Pending? && s.threads[t] == s.threads[u] ==> t == u)
  }

  /** What was judged was idle, or has been drawn on since. */
  ghost predicate SweeperFits(s: State) {
    match s.sweeper
    case Resting => true
    case Sweeping(r) => r <= s.now
    case Condemning(r, e) =>
      && r <= s.now && e < |s.entries| && e in s.chain
      && (Stale(s.entries[e].bucket, r) || s.entries[e].bucket.lastTime >= r)
  }

  ghost predicate Fits(s: State) {
    EntriesFit(s) && ListsFit(s) && ThreadsFit(s) && SweeperFits(s)
  }

  // ---------------------------------------------------------------- every step keeps it

  /** Only t moves. */
  ghost predicate Moves(s: State, s': State, t: ThreadId) {
    && s'.now == s.now && s'.chain == s.chain && s'.retired == s.retired && s'.freed == s.freed && s'.sweeper == s.sweeper
    && (forall u :: u != t ==> (u in s.threads <==> u in s'.threads))
    && (forall u :: u != t && u in s.threads ==> s'.threads[u] == s.threads[u])
  }

  /** t is not about to insert an entry, before or after, and the entries stay. */
  lemma MoveFits(s: State, s': State, t: ThreadId)
    requires Fits(s) && Moves(s, s', t) && s'.entries == s.entries
    requires t in s.threads ==> !s.threads[t].Pending?
    requires t in s'.threads ==> !s'.threads[t].Pending? && ThreadFits(s', s'.threads[t])
    ensures Fits(s')
  {
    forall e | 0 <= e < |s'.entries| ensures e in s'.chain || e in s'.retired || Waits(s', e) {
      if e !in s.chain && e !in s.retired {
        var u :| u in s.threads && s.threads[u] == Pending(e);
        assert u != t;
      }
    }
    forall u | u in s'.threads ensures ThreadFits(s', s'.threads[u]) {
      if u != t { SameKnown(s, s', s.threads[u]); }
    }
  }

  lemma SameKnown(s: State, s': State, th: Thread)
    requires ThreadFits(s, th)
    requires s'.chain == s.chain && s'.retired == s.retired && s'.freed == s.freed && |s'.entries| >= |s.entries|
    requires forall e :: 0 <= e < |s.entries| ==> s'.entries[e].ip == s.entries[e].ip
    ensures ThreadFits(s', th)
  {
  }

  lemma TickFits(s: State, to: uint64)
    requires Fits(s) && Can(s, Tick(to))
    ensures Fits(Next(s, Tick(to)))
  {
    var s' := Next(s, Tick(to));
    forall u | u in s'.threads ensures ThreadFits(s', s'.threads[u]) { SameKnown(s, s', s.threads[u]); }
    forall e | 0 <= e < |s'.entries| ensures e in s'.chain || e in s'.retired || Waits(s', e) {
      if e !in s.chain && e !in s.retired { var u :| u in s.threads && s.threads[u] == Pending(e); assert u in s'.threads; }
    }
  }

  lemma EnterFits(s: State, t: ThreadId, ip: Source)
    requires Fits(s) && Can(s, Enter(t, ip))
    ensures Fits(Next(s, Enter(t, ip)))
  {
    OfIn(s, s.chain, ip);
    var s' := Next(s, Enter(t, ip));
    assert ThreadFits(s', s'.threads[t]) by { hide Of; }
    hide Fits, ThreadFits, Of;
    MoveFits(s, s', t);
  }

  lemma ProbeFits(s: State, t: ThreadId)
    requires Fits(s) && Can(s, Probe(t))
    ensures Fits(Next(s, Probe(t)))
  {
    var s', th := Next(s, Probe(t)), s.threads[t];
    assert ThreadFits(s, th);
    if th.left != [] {
      assert th.left[0] in th.left && Known(s, th.left[0], th.ip, th.since);
      assert forall e :: e in th.left[1..] ==> e in th.left;
    }
    SameKnown(s, s', th);
    assert ThreadFits(s', s'.threads[t]);
    hide Fits, ThreadFits;
    MoveFits(s, s', t);
  }

  lemma PlainFits(s: State, a: Step)
    requires Fits(s) && (a.Count? || a.Undo?) && Can(s, a)
    ensures Fits(Next(s, a))
  {
    hide Fits;
    MoveFits(s, Next(s, a), a.t);
  }

  /** A draw puts the entry's clock at now. */
  lemma TakeFits(s: State, t: ThreadId)
    requires Fits(s) && Can(s, Take(t))
    ensures Fits(Next(s, Take(t)))
  {
    var e := s.threads[t].entry;
    var s1, s' := Drawn(s, e), Next(s, Take(t));
    DrawIs(s.entries[e].bucket, s.now);
    hide Draw, Stale, Filled;
    forall u | u in s1.threads ensures ThreadFits(s1, s1.threads[u]) { SameKnown(s, s1, s.threads[u]); }
    forall x | 0 <= x < |s1.entries| ensures x in s1.chain || x in s1.retired || Waits(s1, x) {
      if x !in s.chain && x !in s.retired { var u :| u in s.threads && s.threads[u] == Pending(x); assert u in s1.threads; }
    }
    DrawnTime(s, e);
    assert Fits(s1);
    hide Fits;
    MoveFits(s1, s', t);
  }

  lemma DrawnTime(s: State, e: nat)
    requires e < |s.entries|
    ensures Drawn(s, e).entries[e].bucket.lastTime == s.now
  {
  }

  lemma FillFits(s: State, t: ThreadId)
    requires Fits(s) && Can(s, Fill(t))
    ensures Fits(Next(s, Fill(t)))
  {
    var s', n := Next(s, Fill(t)), |s.entries|;
    hide Stale;
    assert s'.threads[t] == Pending(n);
    forall u | u in s'.threads ensures ThreadFits(s', s'.threads[u]) {
      if u != t { assert ThreadFits(s, s.threads[u]); SameKnown(s, s', s.threads[u]); }
    }
    assert forall u :: u in s.threads ==> ThreadFits(s, s.threads[u]);
    forall x | 0 <= x < |s'.entries| ensures x in s'.chain || x in s'.retired || Waits(s', x) {
      if x == n { assert t in s'.threads; }
      else if x !in s.chain && x !in s.retired {
        var u :| u in s.threads && s.threads[u] == Pending(x);
        assert u in s'.threads && s'.threads[u] == Pending(x);
      }
    }
  }

  lemma InsertFits(s: State, t: ThreadId)
    requires Fits(s) && Can(s, Insert(t))
    ensures Fits(Next(s, Insert(t)))
  {
    var s', n := Next(s, Insert(t)), s.threads[t].entry;
    hide Stale;
    assert ThreadFits(s, s.threads[t]);
    assert s'.chain[0] == n && forall e :: e in s'.chain <==> e == n || e in s.chain;
    forall u | u in s'.threads ensures ThreadFits(s', s'.threads[u]) { assert ThreadFits(s, s.threads[u]); }
    forall x | 0 <= x < |s'.entries| ensures x in s'.chain || x in s'.retired || Waits(s', x) {
      if x != n && x !in s.chain && x !in s.retired {
        var u :| u in s.threads && s.threads[u] == Pending(x);
        assert u in s'.threads && s'.threads[u] == Pending(x);
      }
    }
  }

  lemma JudgeFits(s: State, a: Step)
    requires Fits(s) && (a.Read? || a.Judge?) && Can(s, a)
    ensures Fits(Next(s, a))
  {
    var s' := Next(s, a);
    hide Stale;
    forall u | u in s'.threads ensures ThreadFits(s', s'.threads[u]) { SameKnown(s, s', s.threads[u]); }
    forall x | 0 <= x < |s'.entries| ensures x in s'.chain || x in s'.retired || Waits(s', x) {
      if x !in s.chain && x !in s.retired { var u :| u in s.threads && s.threads[u] == Pending(x); assert u in s'.threads; }
    }
  }

  lemma UnlinkedKnown(s: State, s': State, x: nat, ip: Source, since: nat)
    requires Known(s, x, ip, since) && s'.entries == s.entries && s'.freed == s.freed
    requires s.sweeper.Condemning? && s' == Next(s, Unlink)
    ensures Known(s', x, ip, since)
  {
    var e := s.sweeper.entry;
    WithoutIn(s.chain, e);
    assert s'.retired[since..] == s.retired[since..] + [e];
    hide Without;
    if x == e && x in s.chain { assert x in s'.retired[since..]; }
  }

  lemma UnlinkFits(s: State)
    requires Fits(s) && Can(s, Unlink)
    ensures Fits(Next(s, Unlink))
  {
    var s', e := Next(s, Unlink), s.sweeper.entry;
    WithoutIn(s.chain, e);
    hide Without, Stale;
    forall u | u in s'.threads ensures ThreadFits(s', s'.threads[u]) { UnlinkedThread(s, s', u); }
    forall x | 0 <= x < |s'.entries| ensures x in s'.chain || x in s'.retired || Waits(s', x) {
      if x != e && x !in s.chain && x !in s.retired { var u :| u in s.threads && s.threads[u] == Pending(x); assert u in s'.threads; }
    }
  }

  lemma UnlinkedThread(s: State, s': State, u: ThreadId)
    requires Fits(s) && Can(s, Unlink) && s' == Next(s, Unlink) && u in s.threads
    ensures ThreadFits(s', s.threads[u])
  {
    WithoutIn(s.chain, s.sweeper.entry);
    var th := s.threads[u];
    assert ThreadFits(s, th);
    hide Without, Stale, Known, EntriesFit, SweeperFits;
    match th
    case Walking(ip, left, since) => forall e | e in left ensures Known(s', e, ip, since) { UnlinkedKnown(s, s', e, ip, since); }
    case Holding(ip, e, since) => UnlinkedKnown(s, s', e, ip, since);
    case Pending(e) => assert SweeperFits(s);
    case _ =>
  }

  lemma FreeFits(s: State)
    requires Fits(s) && Can(s, Free)
    ensures Fits(Next(s, Free))
  {
    var s' := Next(s, Free);
    hide Stale;
    forall u | u in s'.threads ensures ThreadFits(s', s'.threads[u]) { assert ThreadFits(s, s.threads[u]); }
    forall x | 0 <= x < |s'.entries| ensures x in s'.chain || x in s'.retired || Waits(s', x) {
      if x !in s.chain && x !in s.retired { var u :| u in s.threads && s.threads[u] == Pending(x); assert u in s'.threads; }
    }
  }

  lemma StepFits(s: State, a: Step)
    requires Fits(s) && Can(s, a)
    ensures Fits(Next(s, a))
  {
    hide Fits, Next, Can;
    match a
    case Tick(to) => TickFits(s, to);
    case Enter(t, ip) => EnterFits(s, t, ip);
    case Probe(t) => ProbeFits(s, t);
    case Take(t) => TakeFits(s, t);
    case Count(t) => PlainFits(s, a);
    case Undo(t) => PlainFits(s, a);
    case Fill(t) => FillFits(s, t);
    case Insert(t) => InsertFits(s, t);
    case Read => JudgeFits(s, a);
    case Judge(e) => JudgeFits(s, a);
    case Unlink => UnlinkFits(s);
    case Free => FreeFits(s);
  }

  // ---------------------------------------------------------------- TotalEntries

  /** The callers between their increment and the allocation, or the decrement. */
  function Counting(s: State): set<ThreadId> {
    set t | t in s.threads && s.threads[t].Counted?
  }

  function Accepted(s: State): set<ThreadId> {
    set t | t in s.threads && s.threads[t].Counted? && s.threads[t].ok
  }

  function Refused(s: State): set<ThreadId> {
    set t | t in s.threads && s.threads[t].Counted? && !s.threads[t].ok
  }

  /** The entries that have not been freed and the callers that are counting; what has been accepted is
      within the limit. */
  ghost predicate Totals(s: State) {
    && s.total == |s.entries| - s.freed + |Counting(s)|
    && |s.entries| - s.freed + |Accepted(s)| <= MAX_ENTRIES
  }

  lemma CountingSplit(s: State)
    ensures |Counting(s)| == |Accepted(s)| + |Refused(s)|
  {
    assert Counting(s) == Accepted(s) + Refused(s);
  }

  /** t starts or stops counting. */
  lemma CountTotals(s: State, t: ThreadId)
    requires Totals(s) && Can(s, Count(t))
    ensures Totals(Next(s, Count(t)))
  {
    var s' := Next(s, Count(t));
    CountingSplit(s);
    assert Counting(s') == Counting(s) + {t};
    assert Accepted(s') == if s.total + 1 <= MAX_ENTRIES then Accepted(s) + {t} else Accepted(s);
  }

  lemma UncountTotals(s: State, a: Step)
    requires Totals(s) && (a.Undo? || a.Fill?) && Can(s, a)
    ensures Totals(Next(s, a))
  {
    var s' := Next(s, a);
    StopsCounting(s, s', a.t);
    hide Counting, Accepted;
  }

  lemma StopsCounting(s: State, s': State, t: ThreadId)
    requires t in s.threads && s.threads[t].Counted? && (t in s'.threads ==> !s'.threads[t].Counted?)
    requires forall u :: u != t ==> (u in s.threads <==> u in s'.threads)
    requires forall u :: u != t && u in s.threads ==> s'.threads[u] == s.threads[u]
    ensures |Counting(s)| == |Counting(s')| + 1
    ensures |Accepted(s)| == |Accepted(s')| + if s.threads[t].ok then 1 else 0
  {
    assert Counting(s) == Counting(s') + {t} && t !in Counting(s');
    assert Accepted(s) == if s.threads[t].ok then Accepted(s') + {t} else Accepted(s');
  }

  lemma StepTotals(s: State, a: Step)
    requires Totals(s) && Can(s, a)
    ensures Totals(Next(s, a))
  {
    match a
    case Count(t) => CountTotals(s, t);
    case Undo(t) => UncountTotals(s, a);
    case Fill(t) => UncountTotals(s, a);
    case _ =>
      hide Draw, Stale, Of, Without;
      assert Counting(Next(s, a)) == Counting(s) && Accepted(Next(s, a)) == Accepted(s);
  }

  lemma {:induction false} Distinct(ids: seq<nat>, n: nat)
    requires forall i, j :: 0 <= i < j < |ids| ==> ids[i] != ids[j]
    requires forall e :: e in ids ==> e < n
    ensures |ids| <= n
    decreases n
  {
    if ids != [] {
      assert ids[0] in ids;
      if n - 1 in ids {
        var i :| 0 <= i < |ids| && ids[i] == n - 1;
        var rest := ids[..i] + ids[i + 1..];
        assert forall e :: e in rest ==> e in ids;
        Distinct(rest, n - 1);
      } else {
        Distinct(ids, n - 1);
      }
    }
  }

  // ---------------------------------------------------------------- runs

  ghost predicate Sound(s: State) {
    Fits(s) && Totals(s)
  }

  lemma InitSound()
    ensures Sound(Init)
  {
  }

  lemma StepSound(s: State, a: Step)
    requires Sound(s) && Can(s, a)
    ensures Sound(Next(s, a))
  {
    hide Fits, Totals, Can, Next;
    StepFits(s, a);
    StepTotals(s, a);
  }

  lemma {:induction false} RunSound(s: State, run: seq<Step>)
    requires Sound(s) && Lawful(s, run)
    ensures Sound(After(s, run))
    decreases run
  {
    hide Sound, Can, Next;
    if run != [] {
      StepSound(s, run[0]);
      RunSound(Next(s, run[0]), run[1..]);
    }
  }

  lemma ReachedSound(run: seq<Step>)
    requires Lawful(Init, run)
    ensures Sound(After(Init, run))
  {
    hide Lawful, After;
    InitSound();
    RunSound(Init, run);
  }

  /** TotalEntries is the number of entries allocated and not yet freed, and of the callers that have
      incremented it and not yet allocated one or undone it; it is above the limit by at most the
      callers that are about to undo it. */
  lemma TotalWithin(run: seq<Step>)
    requires Lawful(Init, run)
    ensures var s := After(Init, run);
      && s.freed <= |s.retired| <= |s.entries|
      && s.total == (|s.entries| - s.freed) + |Counting(s)|
      && s.total <= MAX_ENTRIES + |Refused(s)|
  {
    ReachedSound(run);
    var s := After(Init, run);
    hide After, Lawful;
    CountingSplit(s);
    Distinct(s.retired, |s.entries|);
  }

  /** n callers of n addresses that have all incremented it. */
  lemma {:induction false} Crowd(n: nat) returns (run: seq<Step>)
    ensures Lawful(Init, run)
    ensures var s := After(Init, run); s.total == n && s.entries == [] && s.chain == [] && forall t :: t in s.threads ==> t < n
    decreases n
  {
    run := [];
    if n > 0 {
      var before := Crowd(n - 1);
      var s, t := After(Init, before), n - 1;
      var calls := [Enter(t, V4(0)), Probe(t), Count(t)];
      hide Lawful, After;
      CrowdStep(s, t);
      Joined(Init, before, calls);
      run := before + calls;
    }
  }

  lemma CrowdStep(s: State, t: ThreadId)
    requires s.entries == [] && s.chain == [] && t !in s.threads
    ensures var calls := [Enter(t, V4(0)), Probe(t), Count(t)];
      && Lawful(s, calls)
      && var s' := After(s, calls);
         s'.total == s.total + 1 && s'.entries == [] && s'.chain == [] && s'.threads.Keys == s.threads.Keys + {t}
  {
    var calls := [Enter(t, V4(0)), Probe(t), Count(t)];
    assert calls[1..] == [Probe(t), Count(t)] && calls[1..][1..] == [Count(t)] && calls[1..][1..][1..] == [];
    var s1 := Next(s, Enter(t, V4(0)));
    var s2 := Next(s1, Probe(t));
    var s3 := Next(s2, Count(t));
    assert Lawful(s3, []) && After(s3, []) == s3;
    assert Lawful(s2, [Count(t)]) && After(s2, [Count(t)]) == s3;
    assert Lawful(s1, calls[1..]) && After(s1, calls[1..]) == s3;
    assert Lawful(s, calls) && After(s, calls) == s3;
  }

  lemma {:induction false} Joined(s: State, x: seq<Step>, y: seq<Step>)
    requires Lawful(s, x)
    ensures Lawful(s, x + y) <==> Lawful(After(s, x), y)
    ensures Lawful(s, x + y) ==> After(s, x + y) == After(After(s, x), y)
    decreases x
  {
    hide Can, Next;
    if x == [] {
      assert x + y == y;
    } else {
      assert (x + y)[1..] == x[1..] + y;
      Joined(Next(s, x[0]), x[1..], y);
    }
  }

  /** So the counter does go above the limit, by any number. */
  lemma TotalExceeds(more: nat) returns (run: seq<Step>)
    ensures Lawful(Init, run) && After(Init, run).total == MAX_ENTRIES + more
  {
    run := Crowd(MAX_ENTRIES + more);
  }

  /** What a caller has found, or has still to look at, has not been freed; and the sweep only takes out
      what is in the list. */
  lemma NotFreed(run: seq<Step>, t: ThreadId, e: nat)
    requires Lawful(Init, run) && t in After(Init, run).threads
    requires match After(Init, run).threads[t]
             case Walking(_, left, _) => e in left
             case Holding(_, entry, _) => entry == e
             case Pending(entry) => entry == e
             case _ => false
    ensures var s := After(Init, run); e < |s.entries| && s.freed <= |s.retired| && e !in s.retired[..s.freed]
  {
    ReachedSound(run);
    var s := After(Init, run);
    hide After, Lawful, EntriesFit, SweeperFits, Totals;
    var th := s.threads[t];
    assert ThreadFits(s, th);
    if th.Walking? { assert Known(s, e, th.ip, th.since); }
  }

  /** The next step of a caller, or of the sweep that it waits for. */
  function Onward(s: State, t: ThreadId): Step
    requires t in s.threads
  {
    match s.threads[t]
    case Walking(_, _, _) => Probe(t)
    case Holding(_, _, _) => Take(t)
    case Missed(_) => Count(t)
    case Counted(_, ok) => if ok then Fill(t) else Undo(t)
    case Pending(_) => if s.sweeper.Condemning? then Unlink else Insert(t)
  }

  /** No caller is ever stuck, and one that counted can always undo it. */
  lemma NobodyStuck(run: seq<Step>, t: ThreadId)
    requires Lawful(Init, run) && t in After(Init, run).threads
    ensures var s := After(Init, run); Can(s, Onward(s, t)) && (s.threads[t].Counted? ==> Can(s, Undo(t)))
  {
    ReachedSound(run);
    var s := After(Init, run);
    hide After, Lawful, SweeperFits;
    assert ThreadFits(s, s.threads[t]);
    Distinct(s.retired, |s.entries|);
    if s.threads[t].Counted? { assert t in Counting(s); }
  }
}
