/** How many packets of an address get through in a stretch of time, whatever happens in it. */
module RatelimiterRate {
  import opened Ratelimiter
  import opened RatelimiterFits
  import opened RatelimiterIdeal

  // ---------------------------------------------------------------- what the next packet would find

  /** About to be put into the list. */
  predicate Waiting(s: State, e: nat, ip: Source) {
    Owns(s, e, ip) && e !in s.chain
  }

  /** The first of the entries below n that wait, or n. */
  function Least(s: State, n: nat, ip: Source): (e: nat)
    ensures e <= n && (e < n ==> Waiting(s, e, ip))
    ensures forall x: nat :: x < e ==> !Waiting(s, x, ip)
  {
    if n == 0 then 0
    else
      var e := Least(s, n - 1, ip);
      if e < n - 1 || Waiting(s, e, ip) then e else n
  }

  /** The entry in front, or else one that waits, or else none. */
  function Current(s: State, ip: Source): nat {
    if Of(s, s.chain, ip) != [] then Of(s, s.chain, ip)[0] else Least(s, |s.entries|, ip)
  }

  function Tokens(s: State, ip: Source): nat {
    if Current(s, ip) < |s.entries| then Filled(s.entries[Current(s, ip)].bucket, s.now) else TOKEN_MAX
  }

  lemma TokensAtMost(s: State, ip: Source)
    ensures Tokens(s, ip) <= TOKEN_MAX
  {
  }

  lemma {:induction false} OfSame(s: State, s': State, ids: seq<nat>, ip: Source)
    requires forall e :: e in ids ==> (IsOf(s, e, ip) <==> IsOf(s', e, ip))
    ensures Of(s', ids, ip) == Of(s, ids, ip)
  {
    if ids != [] { OfSame(s, s', ids[1..], ip); }
  }

  lemma {:induction false} OfWithout(s: State, ids: seq<nat>, e: nat, ip: Source)
    ensures Of(s, Without(ids, e), ip) == Without(Of(s, ids, ip), e)
  {
    if ids != [] {
      var x, rest := ids[0], ids[1..];
      OfWithout(s, rest, e, ip);
      assert ([x] + Without(rest, e))[1..] == Without(rest, e) && [] + Without(rest, e) == Without(rest, e);
      assert ([x] + Of(s, rest, ip))[1..] == Of(s, rest, ip) && [] + Of(s, rest, ip) == Of(s, rest, ip);
    }
  }

  lemma LeastIs(s: State, n: nat, ip: Source, e: nat)
    requires e <= n && (e < n ==> Waiting(s, e, ip)) && forall x: nat :: x < e ==> !Waiting(s, x, ip)
    ensures Least(s, n, ip) == e
  {
    var l := Least(s, n, ip);
    assert l < n ==> Waiting(s, l, ip);
  }

  lemma CurrentIsOf(s: State, ip: Source)
    requires ListsFit(s)
    ensures Current(s, ip) <= |s.entries|
    ensures Current(s, ip) < |s.entries| ==> IsOf(s, Current(s, ip), ip) && Owns(s, Current(s, ip), ip)
    ensures Of(s, s.chain, ip) != [] ==> Current(s, ip) in s.chain && Current(s, ip) < |s.entries|
  {
    OfIn(s, s.chain, ip);
    FirstIn(Of(s, s.chain, ip));
  }

  /** Nothing happens to the entries of the address. */
  lemma CurrentSame(s: State, s': State, ip: Source)
    requires s'.chain == s.chain && s'.retired == s.retired && |s'.entries| == |s.entries|
    requires forall e :: 0 <= e < |s.entries| ==> s'.entries[e].ip == s.entries[e].ip
    ensures Current(s', ip) == Current(s, ip) && Of(s', s'.chain, ip) == Of(s, s.chain, ip)
  {
    OfSame(s, s', s.chain, ip);
    assert forall x: nat :: Waiting(s', x, ip) <==> Waiting(s, x, ip);
    LeastIs(s', |s.entries|, ip, Least(s, |s.entries|, ip));
  }

  // ---------------------------------------------------------------- the packets that a step lets through

  function Passed(s: State, a: Step, ip: Source): nat {
    if Answers(s, a, ip) && Allows(s, a) then 1 else 0
  }

  predicate InFront(s: State, ip: Source, e: nat) {
    Of(s, s.chain, ip) != [] && Of(s, s.chain, ip)[0] == e
  }

  ghost predicate Another(s: State, e: nat, ip: Source) {
    exists x: nat :: x != e && Owns(s, x, ip)
  }

  /** The packets that a step can cost above the rate: a draw on an entry that is not in front, and an
      entry filled while there is another, one; an entry put in front of another, and one taken from the
      front before it is full, a burst. */
  ghost function Extra(s: State, a: Step, ip: Source): nat {
    match a
    case Take(t) =>
      if t in s.threads && s.threads[t].Holding? && s.threads[t].ip == ip && !InFront(s, ip, s.threads[t].entry) then 1 else 0
    case Fill(t) =>
      if t in s.threads && s.threads[t].Counted? && s.threads[t].ip == ip && Another(s, |s.entries|, ip) then 1 else 0
    case Insert(t) =>
      if t in s.threads && s.threads[t].Pending? && IsOf(s, s.threads[t].entry, ip) && Another(s, s.threads[t].entry, ip)
      then PACKETS_BURSTABLE else 0
    case Unlink =>
      if s.sweeper.Condemning? && IsOf(s, s.sweeper.entry, ip) && InFront(s, ip, s.sweeper.entry)
         && !Full(s.entries[s.sweeper.entry].bucket, s.now)
      then PACKETS_BURSTABLE else 0
    case _ => 0
  }

  /** No step makes more tokens than time has passed, but for what is extra. */
  ghost predicate Pays(s: State, a: Step, ip: Source)
    requires Can(s, a)
  {
    Tokens(Next(s, a), ip) + Cost(Passed(s, a, ip)) <= Tokens(s, ip) + (Next(s, a).now - s.now) + Cost(Extra(s, a, ip))
  }

  /** The tokens that n packets use. */
  function Cost(n: nat): nat {
    n * PACKET_COST
  }

  lemma Costs(m: nat, n: nat)
    ensures Cost(m + n) == Cost(m) + Cost(n) && Cost(0) == 0 && Cost(1) == PACKET_COST && Cost(PACKETS_BURSTABLE) == TOKEN_MAX
  {
  }

  lemma TickPays(s: State, to: uint64, ip: Source)
    requires Fits(s) && Can(s, Tick(to))
    ensures Pays(s, Tick(to), ip)
  {
    var s' := Next(s, Tick(to));
    CurrentSame(s, s', ip);
    Costs(0, 0);
    assert EntriesFit(s);
    var e := Current(s, ip);
    if e < |s.entries| { FullLater(s.entries[e].bucket, s.now, to); }
    hide Current, Filled, Cost;
  }

  lemma PlainPays(s: State, a: Step, ip: Source)
    requires Fits(s) && Can(s, a)
    requires a.Enter? || a.Probe? || a.Count? || a.Undo? || a.Read? || a.Judge? || a.Free?
    ensures Pays(s, a, ip)
  {
    hide Current, Filled, Cost, Of, Stale;
    CurrentSame(s, Next(s, a), ip);
    Costs(0, 0);
  }

  lemma TakePays(s: State, t: ThreadId, ip: Source)
    requires Fits(s) && Can(s, Take(t))
    ensures Pays(s, Take(t), ip)
  {
    var s', e := Next(s, Take(t)), s.threads[t].entry;
    assert ThreadFits(s, s.threads[t]) && EntriesFit(s) && ListsFit(s);
    CurrentSame(s, s', ip);
    CurrentIsOf(s, ip);
    DrawIs(s.entries[e].bucket, s.now);
    Costs(0, 0);
    InFrontIs(s, ip, e);
    hide Current, Filled, Cost, Fits, ThreadFits, EntriesFit, ListsFit, Draw, InFront;
  }

  lemma InFrontIs(s: State, ip: Source, e: nat)
    ensures InFront(s, ip, e) ==> Current(s, ip) == e
  {
  }

  lemma FillCurrent(s: State, t: ThreadId, ip: Source)
    requires Fits(s) && Can(s, Fill(t))
    ensures var s', n := Next(s, Fill(t)), |s.entries|;
      Current(s', ip) == if Current(s, ip) < n then Current(s, ip) else if s.threads[t].ip == ip then n else n + 1
  {
    var s', n := Next(s, Fill(t)), |s.entries|;
    assert ListsFit(s);
    NotYetRetired(s);
    CurrentIsOf(s, ip);
    OfSame(s, s', s.chain, ip);
    assert forall x: nat :: x < n ==> (Waiting(s', x, ip) <==> Waiting(s, x, ip));
    hide Fits, ListsFit, Of, Draw;
    var l := Least(s, n, ip);
    LeastIs(s', n + 1, ip, if l < n then l else if s.threads[t].ip == ip then n else n + 1);
  }

  lemma FillPays(s: State, t: ThreadId, ip: Source)
    requires Fits(s) && Can(s, Fill(t))
    ensures Pays(s, Fill(t), ip)
  {
    hide Filled, Cost, Fits, Current, Owns, Of;
    FillCurrent(s, t, ip);
    FitsLists(s);
    CurrentIsOf(s, ip);
    Costs(0, 0);
    NewTokens(s.now, s);
  }

  lemma FitsLists(s: State)
    requires Fits(s)
    ensures ListsFit(s)
  {
  }

  lemma NewTokens(now: uint64, s: State)
    requires Fits(s) && now == s.now
    ensures Filled(Bucket(now, TOKEN_MAX - PACKET_COST), now) + PACKET_COST == TOKEN_MAX
  {
    FilledIs(Bucket(now, TOKEN_MAX - PACKET_COST), now);
  }

  lemma InsertCurrent(s: State, t: ThreadId, ip: Source)
    requires Fits(s) && Can(s, Insert(t))
    ensures var s', e := Next(s, Insert(t)), s.threads[t].entry;
      && (IsOf(s, e, ip) ==> Current(s', ip) == e && (!Another(s, e, ip) ==> Current(s, ip) == e))
      && (!IsOf(s, e, ip) ==> Current(s', ip) == Current(s, ip))
  {
    var s', e := Next(s, Insert(t)), s.threads[t].entry;
    assert ThreadFits(s, s.threads[t]) && ListsFit(s);
    CurrentIsOf(s, ip);
    OfSame(s, s', s.chain, ip);
    assert s'.chain[0] == e && s'.chain[1..] == s.chain && forall x :: x in s'.chain <==> x == e || x in s.chain;
    if IsOf(s, e, ip) {
      assert Owns(s, e, ip) && Waiting(s, e, ip);
    } else {
      assert forall x: nat :: Waiting(s', x, ip) <==> Waiting(s, x, ip);
      LeastIs(s', |s.entries|, ip, Least(s, |s.entries|, ip));
    }
    hide Fits, ThreadFits, ListsFit, Least;
  }

  lemma InsertPays(s: State, t: ThreadId, ip: Source)
    requires Fits(s) && Can(s, Insert(t))
    ensures Pays(s, Insert(t), ip)
  {
    hide Filled, Cost, Fits, Current, Of, Another;
    InsertCurrent(s, t, ip);
    TokensAtMost(Next(s, Insert(t)), ip);
    Costs(0, 0);
  }

  lemma UnlinkCurrent(s: State, ip: Source)
    requires Fits(s) && Can(s, Unlink)
    ensures var e := s.sweeper.entry;
      if IsOf(s, e, ip) && InFront(s, ip, e) then Current(s, ip) == e else Current(Next(s, Unlink), ip) == Current(s, ip)
  {
    hide Fits, SweeperFits, ListsFit, Least, Of, Without;
    var s', e := Next(s, Unlink), s.sweeper.entry;
    OfIn(s, s.chain, ip);
    UnlinkFront(s, ip);
    UnlinkWaiting(s, ip);
    if !IsOf(s, e, ip) { LeastIs(s', |s.entries|, ip, Least(s, |s.entries|, ip)); }
  }

  lemma UnlinkFront(s: State, ip: Source)
    requires Fits(s) && Can(s, Unlink)
    ensures s.sweeper.entry in s.chain
    ensures Of(Next(s, Unlink), Next(s, Unlink).chain, ip) == Without(Of(s, s.chain, ip), s.sweeper.entry)
    ensures !IsOf(s, s.sweeper.entry, ip) ==> Without(Of(s, s.chain, ip), s.sweeper.entry) == Of(s, s.chain, ip)
    ensures var ids := Of(s, s.chain, ip);
      ids != [] && ids[0] != s.sweeper.entry ==> Without(ids, s.sweeper.entry) != [] && Without(ids, s.sweeper.entry)[0] == ids[0]
  {
    var s', e := Next(s, Unlink), s.sweeper.entry;
    assert SweeperFits(s);
    OfIn(s, s.chain, ip);
    hide Fits, SweeperFits, Of, Without;
    OfWithout(s, s.chain, e, ip);
    OfSame(s, s', s'.chain, ip);
    NotIn(Of(s, s.chain, ip), e);
  }

  lemma UnlinkWaiting(s: State, ip: Source)
    requires Fits(s) && Can(s, Unlink)
    ensures !IsOf(s, s.sweeper.entry, ip) ==> forall x: nat :: Waiting(Next(s, Unlink), x, ip) <==> Waiting(s, x, ip)
  {
    WithoutIn(s.chain, s.sweeper.entry);
    hide Fits, Without;
  }

  lemma UnlinkPays(s: State, ip: Source)
    requires Fits(s) && Can(s, Unlink)
    ensures Pays(s, Unlink, ip)
  {
    hide Filled, Cost, Fits, Current, Of, InFront, Without;
    UnlinkCurrent(s, ip);
    TokensAtMost(Next(s, Unlink), ip);
    Costs(0, 0);
  }

  lemma {:induction false} NotIn(ids: seq<nat>, e: nat)
    ensures e !in ids ==> Without(ids, e) == ids
    ensures ids != [] && ids[0] != e ==> Without(ids, e) != [] && Without(ids, e)[0] == ids[0]
  {
    if ids != [] { NotIn(ids[1..], e); }
  }

  lemma StepPays(s: State, a: Step, ip: Source)
    requires Fits(s) && Can(s, a)
    ensures Pays(s, a, ip)
  {
    hide Fits, Can, Pays;
    match a
    case Tick(to) => TickPays(s, to, ip);
    case Take(t) => TakePays(s, t, ip);
    case Fill(t) => FillPays(s, t, ip);
    case Insert(t) => InsertPays(s, t, ip);
    case Unlink => UnlinkPays(s, ip);
    case _ => PlainPays(s, a, ip);
  }

  // ---------------------------------------------------------------- any stretch of any run

  ghost function PassedIn(s: State, run: seq<Step>, ip: Source): nat
    requires Lawful(s, run)
    decreases run
  {
    if run == [] then 0 else Passed(s, run[0], ip) + PassedIn(Next(s, run[0]), run[1..], ip)
  }

  ghost function ExtraIn(s: State, run: seq<Step>, ip: Source): nat
    requires Lawful(s, run)
    decreases run
  {
    if run == [] then 0 else Extra(s, run[0], ip) + ExtraIn(Next(s, run[0]), run[1..], ip)
  }

  lemma {:induction false} RunPays(s: State, run: seq<Step>, ip: Source)
    requires Fits(s) && Lawful(s, run)
    ensures s.now <= After(s, run).now
    ensures Tokens(After(s, run), ip) + Cost(PassedIn(s, run, ip))
      <= Tokens(s, ip) + (After(s, run).now - s.now) + Cost(ExtraIn(s, run, ip))
    decreases run
  {
    hide Fits, Can, Next, Passed, Extra, Tokens, Cost;
    Costs(0, 0);
    if run != [] {
      var s' := Next(s, run[0]);
      StepPays(s, run[0], ip);
      StepFits(s, run[0]);
      ClockOn(s, run[0]);
      RunPays(s', run[1..], ip);
      Costs(Passed(s, run[0], ip), PassedIn(s', run[1..], ip));
      Costs(Extra(s, run[0], ip), ExtraIn(s', run[1..], ip));
    }
  }

  lemma ClockOn(s: State, a: Step)
    requires Can(s, a)
    ensures s.now <= Next(s, a).now
  {
  }

  ghost predicate Reached(s: State) {
    exists run :: Lawful(Init, run) && After(Init, run) == s
  }

  lemma ReachedFits(s: State)
    requires Reached(s)
    ensures Fits(s)
  {
    var before :| Lawful(Init, before) && After(Init, before) == s;
    hide Lawful, After, Fits, Totals;
    ReachedSound(before);
  }

  /** In any stretch of any run, after anything at all: of one address there get through at most the burst,
      the rate times the length, and what is extra. */
  lemma RateBound(s: State, run: seq<Step>, ip: Source)
    requires Reached(s) && Lawful(s, run)
    ensures s.now <= After(s, run).now
    ensures PassedIn(s, run, ip) <= PACKETS_BURSTABLE + (After(s, run).now - s.now) / PACKET_COST + ExtraIn(s, run, ip)
  {
    hide Lawful, After, Fits, Totals, Tokens, Cost, PassedIn, ExtraIn, Reached;
    ReachedFits(s);
    RunPays(s, run, ip);
    TokensAtMost(s, ip);
    Divided(PassedIn(s, run, ip), After(s, run).now - s.now, ExtraIn(s, run, ip));
  }

  lemma Divided(n: nat, d: nat, extra: nat)
    requires Cost(n) <= TOKEN_MAX + d + Cost(extra)
    ensures n <= PACKETS_BURSTABLE + d / PACKET_COST + extra
  {
  }

  // ---------------------------------------------------------------- undisturbed

  lemma GoodFront(s: State, b: Bucket, ip: Source, e: nat)
    requires Good(s, b, ip) && e in s.chain && IsOf(s, e, ip)
    ensures InFront(s, ip, e)
  {
    OfIn(s, s.chain, ip);
    FirstIn(Of(s, s.chain, ip));
    assert ListsFit(s);
    hide Of, EntriesFit, ThreadsFit, SweeperFits;
    assert e in Of(s, s.chain, ip) && Owns(s, e, ip) && Owns(s, Of(s, s.chain, ip)[0], ip);
  }

  lemma GoodNoExtra(s: State, a: Step, b: Bucket, ip: Source)
    requires Good(s, b, ip) && Can(s, a) && !Disturbs(s, a, ip)
    ensures Extra(s, a, ip) == 0
  {
    match a
    case Take(t) =>
      if s.threads[t].ip == ip {
        assert ThreadFits(s, s.threads[t]);
        GoodFront(s, b, ip, s.threads[t].entry);
      }
    case Insert(t) =>
      var e := s.threads[t].entry;
      assert ThreadFits(s, s.threads[t]);
      assert IsOf(s, e, ip) ==> Owns(s, e, ip);
    case _ =>
  }

  lemma {:induction false} RunNoExtra(s: State, run: seq<Step>, b: Bucket, ip: Source)
    requires Good(s, b, ip) && Lawful(s, run) && Undisturbed(s, run, ip)
    ensures ExtraIn(s, run, ip) == 0
    decreases run
  {
    hide Good, Can, Next, Extra, Disturbs, Ideal, Right;
    if run != [] {
      GoodNoExtra(s, run[0], b, ip);
      StepGood(s, run[0], b, ip);
      RunNoExtra(Next(s, run[0]), run[1..], Ideal(b, s, run[0], ip), ip);
    }
  }

  /** So the rate is kept as long as nothing disturbs the address. */
  lemma RateHolds(s: State, b: Bucket, run: seq<Step>, ip: Source)
    requires Reachable(s, b, ip) && Lawful(s, run) && Undisturbed(s, run, ip)
    ensures s.now <= After(s, run).now
    ensures PassedIn(s, run, ip) <= PACKETS_BURSTABLE + (After(s, run).now - s.now) / PACKET_COST
  {
    ReachedGood(s, b, ip);
    GoodReached(s, b, ip);
    hide Reachable, Good, Lawful, After, Undisturbed, Reached, PassedIn, ExtraIn;
    RunNoExtra(s, run, b, ip);
    RateBound(s, run, ip);
  }

  lemma GoodReached(s: State, b: Bucket, ip: Source)
    requires Reachable(s, b, ip)
    ensures Reached(s)
  {
    var run :| Leads(run, s, b, ip);
    hide Lawful, After, Undisturbed, IdealAfter;
  }
}
