/** When the limiter answers as one bucket for every address would, which nothing ever forgets: exactly as
    long as no entry is filled while its address has one, and none is taken out of the list while a caller
    has yet to draw on it or before it is full again. */
module RatelimiterIdeal {
  import opened Ratelimiter
  import opened RatelimiterFits

  // ---------------------------------------------------------------- while nothing disturbs it

  /** The address has one entry, which is the ideal bucket, or none, and then the bucket is full. */
  ghost predicate Good(s: State, b: Bucket, ip: Source) {
    && Fits(s) && Sane(b, s.now)
    && (forall e: nat, f: nat :: Owns(s, e, ip) && Owns(s, f, ip) ==> e == f)
    && (forall e: nat :: Owns(s, e, ip) ==> s.entries[e].bucket == b)
    && ((exists e: nat :: Owns(s, e, ip)) || Full(b, s.now))
    && (forall t :: t in s.threads && s.threads[t].Holding? && s.threads[t].ip == ip ==> s.threads[t].entry in s.chain)
  }

  lemma TickGood(s: State, b: Bucket, ip: Source, to: uint64)
    requires Good(s, b, ip) && Can(s, Tick(to))
    ensures Good(Next(s, Tick(to)), b, ip)
  {
    TickFits(s, to);
    FullLater(b, s.now, to);
    hide Fits, Full, Filled;
    assert forall e: nat :: Owns(Next(s, Tick(to)), e, ip) <==> Owns(s, e, ip);
  }

  /** A step that leaves the entries of the address, and those who hold them, alone. */
  lemma ElsewhereGood(s: State, s': State, b: Bucket, ip: Source)
    requires Good(s, b, ip) && Fits(s') && s'.now == s.now
    requires forall e: nat :: Owns(s', e, ip) <==> Owns(s, e, ip)
    requires |s'.entries| >= |s.entries| && forall e: nat :: Owns(s, e, ip) ==> s'.entries[e].bucket == s.entries[e].bucket
    requires forall t :: t in s'.threads && s'.threads[t].Holding? && s'.threads[t].ip == ip ==> s'.threads[t].entry in s'.chain
    ensures Good(s', b, ip)
  {
    hide Fits, Full;
    if e: nat :| Owns(s, e, ip) { assert Owns(s', e, ip); }
  }

  lemma PlainGood(s: State, a: Step, b: Bucket, ip: Source)
    requires Good(s, b, ip) && Can(s, a)
    requires a.Enter? || a.Probe? || a.Count? || a.Undo? || a.Insert? || a.Read? || a.Judge? || a.Free?
    ensures Good(Next(s, a), b, ip)
  {
    StepFits(s, a);
    hide Fits, Full, Of, Stale;
    ElsewhereGood(s, Next(s, a), b, ip);
  }

  /** Whoever draws for the address draws on its entry. */
  lemma OwnTakeGood(s: State, t: ThreadId, b: Bucket, ip: Source)
    requires Good(s, b, ip) && Can(s, Take(t)) && s.threads[t].ip == ip
    ensures Good(Next(s, Take(t)), Draw(b, s.now).0, ip) && Right(b, s, Take(t), ip)
  {
    var s', e := Next(s, Take(t)), s.threads[t].entry;
    StepFits(s, Take(t));
    assert ThreadFits(s, s.threads[t]) && Owns(s, e, ip);
    DrawIs(b, s.now);
    hide Fits, Full, Draw, Filled, Known;
    assert forall x: nat :: Owns(s', x, ip) <==> Owns(s, x, ip);
    assert Owns(s', e, ip);
  }

  lemma TakeGood(s: State, t: ThreadId, b: Bucket, ip: Source)
    requires Good(s, b, ip) && Can(s, Take(t))
    ensures Good(Next(s, Take(t)), Ideal(b, s, Take(t), ip), ip) && Right(b, s, Take(t), ip)
  {
    var s', e := Next(s, Take(t)), s.threads[t].entry;
    if s.threads[t].ip == ip {
      hide Good, Draw;
      OwnTakeGood(s, t, b, ip);
    } else {
      StepFits(s, Take(t));
      assert ThreadFits(s, s.threads[t]);
      assert !IsOf(s, e, ip);
      hide Fits, Full, Draw, Known;
      ElsewhereGood(s, s', b, ip);
    }
  }

  lemma OwnFillGood(s: State, t: ThreadId, b: Bucket, ip: Source)
    requires Good(s, b, ip) && Can(s, Fill(t)) && !Disturbs(s, Fill(t), ip) && s.threads[t].ip == ip
    ensures Good(Next(s, Fill(t)), Draw(b, s.now).0, ip) && Right(b, s, Fill(t), ip)
  {
    var s', n := Next(s, Fill(t)), |s.entries|;
    StepFits(s, Fill(t));
    NotYetRetired(s);
    DrawIs(b, s.now);
    assert forall e: nat :: !Owns(s, e, ip);
    assert Full(b, s.now);
    FullDraw(b, s.now);
    hide Fits, Filled, Full, Draw;
    assert forall e: nat :: Owns(s', e, ip) <==> e == n;
    assert Owns(s', n, ip) && s'.entries[n].bucket == Draw(b, s.now).0;
  }

  lemma FillGood(s: State, t: ThreadId, b: Bucket, ip: Source)
    requires Good(s, b, ip) && Can(s, Fill(t)) && !Disturbs(s, Fill(t), ip)
    ensures Good(Next(s, Fill(t)), Ideal(b, s, Fill(t), ip), ip) && Right(b, s, Fill(t), ip)
  {
    if s.threads[t].ip == ip {
      hide Good, Draw;
      OwnFillGood(s, t, b, ip);
    } else {
      StepFits(s, Fill(t));
      hide Fits, Full, Draw;
      ElsewhereGood(s, Next(s, Fill(t)), b, ip);
    }
  }

  lemma NotYetRetired(s: State)
    requires Fits(s)
    ensures |s.entries| !in s.retired && |s.entries| !in s.chain
  {
  }

  lemma UnlinkGood(s: State, b: Bucket, ip: Source)
    requires Good(s, b, ip) && Can(s, Unlink) && !Disturbs(s, Unlink, ip)
    ensures Good(Next(s, Unlink), b, ip)
  {
    var s', e := Next(s, Unlink), s.sweeper.entry;
    StepFits(s, Unlink);
    WithoutIn(s.chain, e);
    assert forall x: nat :: Owns(s', x, ip) <==> Owns(s, x, ip) && x != e;
    assert SweeperFits(s) && ListsFit(s);
    forall t | t in s'.threads && s'.threads[t].Holding? && s'.threads[t].ip == ip
      ensures s'.threads[t].entry in s'.chain
    {
      assert ThreadFits(s, s.threads[t]);
      assert s.threads[t].entry == e ==> Held(s, e);
    }
    hide Fits, Full, Stale, Without;
    if x: nat :| Owns(s', x, ip) { assert x != e; } else { assert Owns(s, e, ip) || !IsOf(s, e, ip); }
  }

  lemma StepGood(s: State, a: Step, b: Bucket, ip: Source)
    requires Good(s, b, ip) && Can(s, a) && !Disturbs(s, a, ip)
    ensures Good(Next(s, a), Ideal(b, s, a, ip), ip) && Right(b, s, a, ip)
  {
    hide Good, Next, Can, Disturbs, Draw;
    match a
    case Tick(to) => TickGood(s, b, ip, to);
    case Take(t) => TakeGood(s, t, b, ip);
    case Fill(t) => FillGood(s, t, b, ip);
    case Unlink => UnlinkGood(s, b, ip);
    case _ => PlainGood(s, a, b, ip);
  }

  lemma {:induction false} RunGood(s: State, run: seq<Step>, b: Bucket, ip: Source)
    requires Good(s, b, ip) && Lawful(s, run) && Undisturbed(s, run, ip)
    ensures Good(After(s, run), IdealAfter(b, s, run, ip), ip) && Agrees(b, s, run, ip)
    decreases run
  {
    hide Good, Next, Can, Disturbs, Ideal, Right;
    if run != [] {
      StepGood(s, run[0], b, ip);
      RunGood(Next(s, run[0]), run[1..], Ideal(b, s, run[0], ip), ip);
    }
  }

  lemma InitGood(ip: Source)
    ensures Good(Init, Untouched, ip) && Sound(Init)
  {
    InitSound();
    FilledIs(Untouched, 0);
    assert forall e: nat :: !Owns(Init, e, ip);
  }

  /** However callers, sweeps with any clock reading and grace periods interleave: as long as nothing
      disturbs the address, its packets get the answers of the ideal bucket. */
  lemma SweepsUnobservable(run: seq<Step>, ip: Source)
    requires Lawful(Init, run) && Undisturbed(Init, run, ip)
    ensures Agrees(Untouched, Init, run, ip)
  {
    InitGood(ip);
    hide Good, Lawful, Undisturbed, Agrees, After, IdealAfter;
    RunGood(Init, run, Untouched, ip);
  }

  // ---------------------------------------------------------------- runs one after the other

  lemma {:induction false} AgreesJoined(b: Bucket, s: State, x: seq<Step>, y: seq<Step>, ip: Source)
    requires Lawful(s, x) && Lawful(After(s, x), y)
    ensures Lawful(s, x + y)
    ensures Agrees(b, s, x + y, ip) <==> Agrees(b, s, x, ip) && Agrees(IdealAfter(b, s, x, ip), After(s, x), y, ip)
    ensures Undisturbed(s, x + y, ip) <==> Undisturbed(s, x, ip) && Undisturbed(After(s, x), y, ip)
    ensures IdealAfter(b, s, x + y, ip) == IdealAfter(IdealAfter(b, s, x, ip), After(s, x), y, ip)
    decreases x
  {
    hide Can, Next, Right, Ideal, Disturbs;
    if x == [] {
      assert x + y == y;
    } else {
      assert (x + y)[1..] == x[1..] + y;
      AgreesJoined(Ideal(b, s, x[0], ip), Next(s, x[0]), x[1..], y, ip);
    }
  }

  /** A run of one step. */
  lemma OneStep(b: Bucket, s: State, a: Step, ip: Source)
    requires Can(s, a)
    ensures Lawful(s, [a]) && After(s, [a]) == Next(s, a)
    ensures Agrees(b, s, [a], ip) <==> Right(b, s, a, ip)
    ensures Undisturbed(s, [a], ip) <==> !Disturbs(s, a, ip)
    ensures IdealAfter(b, s, [a], ip) == Ideal(b, s, a, ip)
  {
    assert [a][1..] == [];
    hide Can, Next, Right, Ideal, Disturbs;
    assert Lawful(Next(s, a), []) && After(Next(s, a), []) == Next(s, a);
  }

  /** An undisturbed run leads to the state, and the ideal bucket is this then. */
  ghost predicate Leads(run: seq<Step>, s: State, b: Bucket, ip: Source) {
    Lawful(Init, run) && Undisturbed(Init, run, ip) && After(Init, run) == s && IdealAfter(Untouched, Init, run, ip) == b
  }

  ghost predicate Reachable(s: State, b: Bucket, ip: Source) {
    exists run :: Leads(run, s, b, ip)
  }

  lemma ReachedGood(s: State, b: Bucket, ip: Source)
    requires Reachable(s, b, ip)
    ensures Good(s, b, ip) && Sound(s)
  {
    var run :| Leads(run, s, b, ip);
    InitGood(ip);
    hide Good, Lawful, After, Undisturbed, IdealAfter, Sound;
    RunGood(Init, run, Untouched, ip);
    RunSound(Init, run);
  }
}
