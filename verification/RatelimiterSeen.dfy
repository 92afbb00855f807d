/** Whatever disturbs an address can be noticed: some callers, who disturb nothing themselves, get answers
    that the ideal bucket would not give. */
module RatelimiterSeen {
  import opened Words
  import opened Ratelimiter
  import opened RatelimiterFits
  import opened RatelimiterIdeal

  ghost predicate Differs(b: Bucket, s: State, run: seq<Step>, ip: Source) {
    Lawful(s, run) && Undisturbed(s, run, ip) && !Agrees(b, s, run, ip)
  }

  /** No undisturbed continuation shows a difference to the ideal bucket. */
  ghost predicate NeverDiffers(b: Bucket, s: State, ip: Source) {
    forall run :: !Differs(b, s, run, ip)
  }

  lemma DiffersLater(b: Bucket, s: State, x: seq<Step>, y: seq<Step>, ip: Source)
    requires Lawful(s, x) && Undisturbed(s, x, ip) && Differs(IdealAfter(b, s, x, ip), After(s, x), y, ip)
    ensures Differs(b, s, x + y, ip)
  {
    hide Lawful, After, Agrees, Undisturbed, IdealAfter;
    AgreesJoined(b, s, x, y, ip);
  }

  lemma NewCaller(keys: set<ThreadId>) returns (u: ThreadId)
    ensures u !in keys && forall k :: k in keys ==> k < u
    decreases keys
  {
    if keys == {} { return 0; }
    var k :| k in keys;
    var v := NewCaller(keys - {k});
    u := if v <= k then k + 1 else v;
    assert forall j :: j in keys ==> j == k || j in keys - {k};
  }

  // ---------------------------------------------------------------- one caller after the other

  /** The entry that a new caller finds. */
  predicate Front(s: State, ip: Source, e: nat) {
    !ip.Other? && e in s.chain && e < |s.entries| && Of(s, s.chain, ip) != [] && Of(s, s.chain, ip)[0] == e
  }

  function Call(u: ThreadId, ip: Source): seq<Step> {
    [Enter(u, ip), Probe(u), Take(u)]
  }

  /** A caller that nobody interrupts and that finds an entry. */
  lemma CallIs(b: Bucket, s: State, u: ThreadId, ip: Source, e: nat)
    requires Front(s, ip, e) && u !in s.threads
    ensures Lawful(s, Call(u, ip)) && After(s, Call(u, ip)) == Drawn(s, e) && Undisturbed(s, Call(u, ip), ip)
    ensures Agrees(b, s, Call(u, ip), ip) <==> Draw(s.entries[e].bucket, s.now).1 == Draw(b, s.now).1
    ensures IdealAfter(b, s, Call(u, ip), ip) == Draw(b, s.now).0
  {
    hide Draw, Of, Lawful, After, Agrees, Undisturbed, IdealAfter;
    var s1 := Next(s, Enter(u, ip));
    var s2 := Next(s1, Probe(u));
    OneStep(b, s, Enter(u, ip), ip);
    OneStep(b, s1, Probe(u), ip);
    OneStep(b, s2, Take(u), ip);
    assert Call(u, ip) == [Enter(u, ip)] + ([Probe(u)] + [Take(u)]);
    AgreesJoined(b, s1, [Probe(u)], [Take(u)], ip);
    Joined(s1, [Probe(u)], [Take(u)]);
    AgreesJoined(b, s, [Enter(u, ip)], [Probe(u)] + [Take(u)], ip);
    Joined(s, [Enter(u, ip)], [Probe(u)] + [Take(u)]);
    assert Next(s2, Take(u)).threads == s.threads;
  }

  lemma {:induction false} OfDrawn(s: State, e: nat, ids: seq<nat>, ip: Source)
    requires e < |s.entries|
    ensures Of(Drawn(s, e), ids, ip) == Of(s, ids, ip)
  {
    hide Draw;
    if ids != [] { OfDrawn(s, e, ids[1..], ip); }
  }

  /** The packets that tokens pay for. */
  function Worth(tokens: nat): nat {
    tokens / PACKET_COST
  }

  lemma WorthFalls(tokens: nat)
    ensures tokens < PACKET_COST <==> Worth(tokens) == 0
    ensures tokens >= PACKET_COST ==> Worth(tokens - PACKET_COST) == Worth(tokens) - 1
  {
    assert PACKET_COST == 500_000;
    var q, r := tokens / 500_000, tokens % 500_000;
    if tokens >= 500_000 { ModUnique(tokens - 500_000, 500_000, q - 1, r); }
  }

  /** If the entry has a packet more in it than the ideal bucket, that many packets show it. */
  lemma {:induction false} DrawsDiffer(b: Bucket, s: State, u: ThreadId, ip: Source, e: nat) returns (run: seq<Step>)
    requires Front(s, ip, e) && u !in s.threads && Sane(b, s.now) && Sane(s.entries[e].bucket, s.now)
    requires Worth(Filled(b, s.now)) < Worth(Filled(s.entries[e].bucket, s.now))
    ensures Differs(b, s, run, ip)
    decreases Filled(b, s.now)
  {
    hide Worth, Draw, Filled, Of, Lawful, After, Agrees, Undisturbed, IdealAfter, Sane;
    CallIs(b, s, u, ip, e);
    DrawIs(b, s.now);
    DrawIs(s.entries[e].bucket, s.now);
    WorthFalls(Filled(b, s.now));
    WorthFalls(Filled(s.entries[e].bucket, s.now));
    run := Call(u, ip);
    if Agrees(b, s, run, ip) {
      OfDrawn(s, e, s.chain, ip);
      var rest := DrawsDiffer(Draw(b, s.now).0, Drawn(s, e), u, ip, e);
      DiffersLater(b, s, run, rest, ip);
      run := run + rest;
    }
  }

  function FirstCall(u: ThreadId, ip: Source): seq<Step> {
    [Enter(u, ip), Probe(u), Count(u)]
  }

  function Entering(u: ThreadId): seq<Step> {
    [Fill(u), Insert(u)]
  }

  /** A caller that nobody interrupts and that finds none. */
  lemma FirstCallIs(b: Bucket, s: State, u: ThreadId, ip: Source)
    requires !ip.Other? && Of(s, s.chain, ip) == [] && u !in s.threads && s.total < MAX_ENTRIES
    ensures Lawful(s, FirstCall(u, ip)) && Agrees(b, s, FirstCall(u, ip), ip) && Undisturbed(s, FirstCall(u, ip), ip)
    ensures IdealAfter(b, s, FirstCall(u, ip), ip) == b
    ensures After(s, FirstCall(u, ip)) == s.(total := s.total + 1, threads := s.threads[u := Counted(ip, true)])
  {
    hide Draw, Of, Lawful, After, Agrees, Undisturbed, IdealAfter;
    var s1 := Next(s, Enter(u, ip));
    var s2 := Next(s1, Probe(u));
    OneStep(b, s, Enter(u, ip), ip);
    OneStep(b, s1, Probe(u), ip);
    OneStep(b, s2, Count(u), ip);
    assert FirstCall(u, ip) == [Enter(u, ip)] + ([Probe(u)] + [Count(u)]);
    AgreesJoined(b, s1, [Probe(u)], [Count(u)], ip);
    Joined(s1, [Probe(u)], [Count(u)]);
    AgreesJoined(b, s, [Enter(u, ip)], [Probe(u)] + [Count(u)], ip);
    Joined(s, [Enter(u, ip)], [Probe(u)] + [Count(u)]);
    assert Next(s2, Count(u)).threads == s.threads[u := Counted(ip, true)];
  }

  /** It fills an entry and puts it into the list. */
  lemma EnteringIs(b: Bucket, s: State, u: ThreadId, ip: Source)
    requires u in s.threads && s.threads[u] == Counted(ip, true) && !s.sweeper.Condemning?
    ensures var s' := Linked(Filling(s, ip), |s.entries|).(threads := s.threads - {u});
      && Lawful(s, Entering(u)) && After(s, Entering(u)) == s'
    ensures Agrees(b, s, Entering(u), ip) <==> Draw(b, s.now).1
    ensures Undisturbed(s, Entering(u), ip) <==> forall e: nat :: !Owns(s, e, ip)
    ensures IdealAfter(b, s, Entering(u), ip) == Draw(b, s.now).0
  {
    hide Draw, Lawful, After, Agrees, Undisturbed, IdealAfter;
    var s1 := Next(s, Fill(u));
    OneStep(b, s, Fill(u), ip);
    OneStep(Ideal(b, s, Fill(u), ip), s1, Insert(u), ip);
    assert Entering(u) == [Fill(u)] + [Insert(u)];
    AgreesJoined(b, s, [Fill(u)], [Insert(u)], ip);
    Joined(s, [Fill(u)], [Insert(u)]);
    assert Next(s1, Insert(u)).threads == s.threads - {u};
  }

  // ---------------------------------------------------------------- waiting until sections end

  /** Sections that end, increments that are undone, entries that are freed: the clock, the list and the
      sweep stay, no entry is filled, and the ideal bucket does not gain. */
  ghost predicate Settles(b: Bucket, s: State, run: seq<Step>, ip: Source) {
    && Lawful(s, run) && Undisturbed(s, run, ip) && Sound(After(s, run))
    && var s', b' := After(s, run), IdealAfter(b, s, run, ip);
    && s'.now == s.now && s'.chain == s.chain && s'.retired == s.retired && s'.sweeper == s.sweeper
    && |s'.entries| == |s.entries| && (forall e :: 0 <= e < |s.entries| ==> s'.entries[e].ip == s.entries[e].ip)
    && Sane(b', s.now) && Filled(b', s.now) <= Filled(b, s.now)
  }

  lemma SettlesNot(b: Bucket, s: State, ip: Source)
    requires Sound(s) && Sane(b, s.now)
    ensures Settles(b, s, [], ip) && After(s, []) == s && IdealAfter(b, s, [], ip) == b
  {
  }

  lemma SettlesJoined(b: Bucket, s: State, x: seq<Step>, y: seq<Step>, ip: Source)
    requires Settles(b, s, x, ip) && Settles(IdealAfter(b, s, x, ip), After(s, x), y, ip)
    ensures Settles(b, s, x + y, ip) && After(s, x + y) == After(After(s, x), y)
    ensures IdealAfter(b, s, x + y, ip) == IdealAfter(IdealAfter(b, s, x, ip), After(s, x), y, ip)
  {
    hide Lawful, After, Agrees, Undisturbed, IdealAfter, Sound, Sane, Filled;
    AgreesJoined(b, s, x, y, ip);
    Joined(s, x, y);
  }

  lemma SettlesStep(b: Bucket, s: State, a: Step, ip: Source)
    requires Sound(s) && Sane(b, s.now) && Can(s, a) && (a.Probe? || a.Take? || a.Undo? || a.Free?)
    ensures Settles(b, s, [a], ip) && After(s, [a]) == Next(s, a) && IdealAfter(b, s, [a], ip) == Ideal(b, s, a, ip)
  {
    hide Lawful, After, Agrees, Undisturbed, IdealAfter, Sound, Sane, Filled, Draw;
    OneStep(b, s, a, ip);
    StepSound(s, a);
    DrawIs(b, s.now);
  }

  predicate Settled(th: Thread) {
    th.Missed? || th.Pending? || (th.Counted? && th.ok)
  }

  function Left(th: Thread): nat {
    match th
    case Walking(_, left, _) => |left| + 3
    case Holding(_, _, _) => 2
    case _ => 1
  }

  /** The step with which a caller settles. */
  lemma SettlingStep(s: State, t: ThreadId) returns (a: Step)
    requires Sound(s) && t in s.threads && !Settled(s.threads[t])
    ensures Can(s, a) && (a.Probe? || a.Take? || a.Undo?) && a.t == t
    ensures var s' := Next(s, a);
      && s'.freed == s.freed && (forall u :: u != t ==> (u in s.threads <==> u in s'.threads))
      && (forall u :: u != t && u in s.threads ==> s'.threads[u] == s.threads[u])
      && (t in s'.threads ==> Left(s'.threads[t]) < Left(s.threads[t]))
  {
    assert ThreadFits(s, s.threads[t]);
    Distinct(s.retired, |s.entries|);
    if s.threads[t].Counted? { assert t in Counting(s); }
    hide EntriesFit, SweeperFits, Draw;
    a := Onward(s, t);
  }

  lemma {:induction false} SettleOne(b: Bucket, s: State, t: ThreadId, ip: Source) returns (run: seq<Step>)
    requires Sound(s) && Sane(b, s.now) && t in s.threads
    ensures Settles(b, s, run, ip)
    ensures var s' := After(s, run);
      && s'.freed == s.freed && s'.threads.Keys <= s.threads.Keys
      && (forall u :: u != t && u in s'.threads ==> s'.threads[u] == s.threads[u])
      && (t in s'.threads ==> Settled(s'.threads[t]))
    decreases Left(s.threads[t])
  {
    hide Lawful, After, Undisturbed, IdealAfter, Sound, Sane, Filled, Settles, Next, Can, Ideal;
    SettlesNot(b, s, ip);
    run := [];
    if !Settled(s.threads[t]) {
      var a := SettlingStep(s, t);
      SettlesStep(b, s, a, ip);
      run := [a];
      SettledSound(b, s, run, ip);
      var s', b' := Next(s, a), Ideal(b, s, a, ip);
      if t in s'.threads {
        var rest := SettleOne(b', s', t, ip);
        SettlesJoined(b, s, run, rest, ip);
        run := run + rest;
      }
    }
  }

  lemma SettledSound(b: Bucket, s: State, run: seq<Step>, ip: Source)
    requires Settles(b, s, run, ip)
    ensures Lawful(s, run) && Sound(After(s, run)) && Sane(IdealAfter(b, s, run, ip), After(s, run).now)
  {
  }

  lemma {:induction false} SettleAll(b: Bucket, s: State, todo: set<ThreadId>, ip: Source) returns (run: seq<Step>)
    requires Sound(s) && Sane(b, s.now)
    requires forall t :: t in s.threads && t !in todo ==> Settled(s.threads[t])
    ensures Settles(b, s, run, ip)
    ensures After(s, run).freed == s.freed
    ensures forall t :: t in After(s, run).threads ==> Settled(After(s, run).threads[t])
    decreases |todo|
  {
    hide Lawful, After, Undisturbed, IdealAfter, Sound, Sane, Filled, Settles, Next, Can, Ideal;
    SettlesNot(b, s, ip);
    run := [];
    if todo != {} {
      var t :| t in todo;
      if t in s.threads { run := SettleOne(b, s, t, ip); }
      SettledSound(b, s, run, ip);
      var rest := SettleAll(IdealAfter(b, s, run, ip), After(s, run), todo - {t}, ip);
      SettlesJoined(b, s, run, rest, ip);
      run := run + rest;
    }
  }

  /** With every section ended all the entries that were taken out are freed. */
  lemma {:induction false} FreeAll(b: Bucket, s: State, ip: Source) returns (run: seq<Step>)
    requires Sound(s) && Sane(b, s.now) && forall t :: t in s.threads ==> Settled(s.threads[t])
    ensures Settles(b, s, run, ip) && s.freed <= |s.retired|
    ensures After(s, run).total == s.total - (|s.retired| - s.freed)
    decreases |s.retired| - s.freed
  {
    assert ListsFit(s);
    Distinct(s.retired, |s.entries|);
    assert s.total >= |s.entries| - s.freed;
    SettlesNot(b, s, ip);
    hide Lawful, After, Undisturbed, IdealAfter, Sound, Sane, Filled, Settles;
    run := [];
    if s.freed < |s.retired| {
      SettlesStep(b, s, Free, ip);
      SettledSound(b, s, [Free], ip);
      var rest := FreeAll(b, Next(s, Free), ip);
      SettlesJoined(b, s, [Free], rest, ip);
      run := [Free] + rest;
    }
  }

  /** If an entry waits to be freed, there will be room for another. */
  lemma MakeRoom(b: Bucket, s: State, ip: Source) returns (run: seq<Step>)
    requires Sound(s) && Sane(b, s.now) && s.freed < |s.retired|
    ensures Settles(b, s, run, ip) && After(s, run).total < MAX_ENTRIES
  {
    hide Lawful, After, Undisturbed, IdealAfter, Fits, Sane, Filled, Settles;
    var settle := SettleAll(b, s, s.threads.Keys, ip);
    SettledSound(b, s, settle, ip);
    var s1, b1 := After(s, settle), IdealAfter(b, s, settle, ip);
    SettledTotal(s1);
    var frees := FreeAll(b1, s1, ip);
    SettledSame(b, s, settle, ip);
    SettlesJoined(b, s, settle, frees, ip);
    run := settle + frees;
  }

  lemma SettledSame(b: Bucket, s: State, run: seq<Step>, ip: Source)
    requires Settles(b, s, run, ip)
    ensures After(s, run).retired == s.retired
  {
  }

  lemma SettledTotal(s: State)
    requires Sound(s) && forall t :: t in s.threads ==> Settled(s.threads[t])
    ensures s.total <= MAX_ENTRIES
  {
    assert Counting(s) == Accepted(s);
  }

  // ---------------------------------------------------------------- an entry taken out too early

  lemma Linkless(s: State, ip: Source)
    requires Sound(s) && forall e: nat :: !Owns(s, e, ip)
    ensures Of(s, s.chain, ip) == []
  {
    OfIn(s, s.chain, ip);
    assert ListsFit(s);
    hide Of, EntriesFit, ThreadsFit, SweeperFits, Totals;
    assert forall e: nat :: e in Of(s, s.chain, ip) ==> Owns(s, e, ip);
    FirstIn(Of(s, s.chain, ip));
  }

  /** A new entry has four packets in it. */
  lemma EnteringDiffers(b: Bucket, s: State, u: ThreadId, ip: Source) returns (run: seq<Step>)
    requires Sane(b, s.now) && Filled(b, s.now) < TOKEN_MAX && forall e: nat :: !Owns(s, e, ip)
    requires u in s.threads && s.threads[u] == Counted(ip, true) && !s.sweeper.Condemning? && !ip.Other?
    ensures Differs(b, s, run, ip)
  {
    EnteringIs(b, s, u, ip);
    DrawIs(b, s.now);
    run := Entering(u);
    if Draw(b, s.now).1 {
      var s', b', n := After(s, run), Draw(b, s.now).0, |s.entries|;
      FilledIs(s'.entries[n].bucket, s'.now);
      FourLeft(Filled(b, s.now));
      assert s'.chain[0] == n && Of(s', s'.chain, ip)[0] == n;
      hide Worth, Draw, Filled, Of, Lawful, After, Agrees, Undisturbed, IdealAfter;
      var rest := DrawsDiffer(b', s', u, ip, n);
      DiffersLater(b, s, run, rest, ip);
      run := run + rest;
    }
  }

  lemma FourLeft(tokens: nat)
    requires PACKET_COST <= tokens < TOKEN_MAX
    ensures Worth(tokens - PACKET_COST) < Worth(TOKEN_MAX - PACKET_COST)
  {
  }

  /** An address without an entry whose bucket is not full. */
  lemma OpenDiffers(b: Bucket, s: State, ip: Source) returns (run: seq<Step>)
    requires Sound(s) && Sane(b, s.now) && Filled(b, s.now) < TOKEN_MAX && !ip.Other?
    requires !s.sweeper.Condemning? && s.freed < |s.retired| && forall e: nat :: !Owns(s, e, ip)
    ensures Differs(b, s, run, ip)
  {
    var room := MakeRoom(b, s, ip);
    var s1, b1 := After(s, room), IdealAfter(b, s, room, ip);
    assert forall e: nat :: Owns(s1, e, ip) <==> Owns(s, e, ip);
    Linkless(s1, ip);
    var u := NewCaller(s1.threads.Keys);
    FirstCallIs(b1, s1, u, ip);
    var s2 := After(s1, FirstCall(u, ip));
    assert forall e: nat :: Owns(s2, e, ip) <==> Owns(s1, e, ip);
    hide Draw, Filled, Of, Lawful, After, Agrees, Undisturbed, IdealAfter, Sound;
    var rest := EnteringDiffers(b1, s2, u, ip);
    DiffersLater(b1, s1, FirstCall(u, ip), rest, ip);
    DiffersLater(b, s, room, FirstCall(u, ip) + rest, ip);
    run := room + (FirstCall(u, ip) + rest);
  }

  /** What the sweep takes out belonged to the address, and the address has nothing then. */
  lemma UnlinkLeaves(b: Bucket, s: State, ip: Source)
    requires Good(s, b, ip) && Can(s, Unlink) && IsOf(s, s.sweeper.entry, ip)
    ensures var s' := Next(s, Unlink);
      && (forall e: nat :: !Owns(s', e, ip)) && s'.freed < |s'.retired| && !s'.sweeper.Condemning?
      && s'.now == s.now && s'.entries == s.entries && s'.threads == s.threads
      && s.entries[s.sweeper.entry].bucket == b
  {
    var e := s.sweeper.entry;
    assert SweeperFits(s) && ListsFit(s) && Owns(s, e, ip);
    hide EntriesFit, ThreadsFit, SweeperFits, Without, Full;
    forall x: nat ensures !Owns(Next(s, Unlink), x, ip) { if Owns(s, x, ip) { assert x == e; } }
  }

  /** Whoever holds it draws on what has been forgotten. */
  lemma HeldDiffers(b: Bucket, s: State, ip: Source, t: ThreadId) returns (run: seq<Step>)
    requires Sound(s) && Sane(b, s.now) && !ip.Other?
    requires !s.sweeper.Condemning? && s.freed < |s.retired| && forall e: nat :: !Owns(s, e, ip)
    requires t in s.threads && s.threads[t].Holding? && IsOf(s, s.threads[t].entry, ip)
    ensures Differs(b, s, run, ip)
  {
    var a := Take(t);
    assert ThreadFits(s, s.threads[t]);
    OneStep(b, s, a, ip);
    StepSound(s, a);
    DrawIs(b, s.now);
    var s', b' := Next(s, a), Ideal(b, s, a, ip);
    assert forall e: nat :: Owns(s', e, ip) <==> Owns(s, e, ip);
    hide Draw, Filled, Of, Lawful, After, Agrees, Undisturbed, IdealAfter, Sound, ThreadFits;
    var rest := OpenDiffers(b', s', ip);
    DiffersLater(b, s, [a], rest, ip);
    run := [a] + rest;
  }

  lemma UnlinkDiffers(b: Bucket, s: State, ip: Source) returns (run: seq<Step>)
    requires Good(s, b, ip) && Sound(s) && Can(s, Unlink) && Disturbs(s, Unlink, ip) && !ip.Other?
    ensures Differs(b, Next(s, Unlink), run, ip)
  {
    var s', e := Next(s, Unlink), s.sweeper.entry;
    UnlinkLeaves(b, s, ip);
    StepSound(s, Unlink);
    hide Lawful, After, Agrees, Undisturbed, IdealAfter, Sound, Fits;
    if Held(s, e) {
      var t :| t in s.threads && s.threads[t].Holding? && s.threads[t].entry == e;
      run := HeldDiffers(b, s', ip, t);
    } else {
      FilledIs(b, s.now);
      run := OpenDiffers(b, s', ip);
    }
  }

  // ---------------------------------------------------------------- a second entry

  /** The first of an address that has one entry. */
  lemma OnlyFront(s: State, ip: Source, e: nat)
    requires ListsFit(s) && e in s.chain && IsOf(s, e, ip) && !ip.Other?
    requires forall x: nat :: Owns(s, x, ip) && x in s.chain ==> x == e
    ensures Front(s, ip, e)
  {
    OfIn(s, s.chain, ip);
    hide Of;
    assert e in Of(s, s.chain, ip);
    var x := Of(s, s.chain, ip)[0];
    assert x in Of(s, s.chain, ip);
  }

  /** The packet was not taken from the entry that is there. */
  lemma LinkedDiffers(b: Bucket, s: State, ip: Source, e: nat) returns (run: seq<Step>)
    requires Sound(s) && Sane(b, s.now) && !ip.Other? && e in s.chain && IsOf(s, e, ip)
    requires forall x: nat :: Owns(s, x, ip) && x in s.chain ==> x == e
    requires Filled(s.entries[e].bucket, s.now) == Filled(b, s.now) + PACKET_COST
    ensures Differs(b, s, run, ip)
  {
    OnlyFront(s, ip, e);
    assert EntriesFit(s);
    WorthFalls(Filled(s.entries[e].bucket, s.now));
    hide Lawful, After, Agrees, Undisturbed, IdealAfter, Sound, Of, Filled, Worth, EntriesFit;
    var u := NewCaller(s.threads.Keys);
    run := DrawsDiffer(b, s, u, ip, e);
  }

  /** If the one that is there has yet to be put into the list, it is. */
  lemma PendingDiffers(b: Bucket, s: State, ip: Source, v: ThreadId, e: nat) returns (run: seq<Step>)
    requires Sound(s) && Sane(b, s.now) && !ip.Other? && IsOf(s, e, ip) && !s.sweeper.Condemning?
    requires v in s.threads && s.threads[v] == Pending(e)
    requires forall x: nat :: Owns(s, x, ip) ==> x !in s.chain
    requires Filled(s.entries[e].bucket, s.now) == Filled(b, s.now) + PACKET_COST
    ensures Differs(b, s, run, ip)
  {
    var a := Insert(v);
    OneStep(b, s, a, ip);
    StepSound(s, a);
    var s' := Next(s, a);
    assert s'.chain[0] == e && forall x :: x in s'.chain <==> x == e || x in s.chain;
    hide Lawful, After, Agrees, Undisturbed, IdealAfter, Sound, Filled;
    var rest := LinkedDiffers(b, s', ip, e);
    DiffersLater(b, s, [a], rest, ip);
    run := [a] + rest;
  }

  /** The sweep first takes out what it has condemned, which is of another address. */
  lemma WaitingDiffers(b: Bucket, s: State, ip: Source, v: ThreadId, e: nat) returns (run: seq<Step>)
    requires Sound(s) && Sane(b, s.now) && !ip.Other? && IsOf(s, e, ip)
    requires v in s.threads && s.threads[v] == Pending(e)
    requires forall x: nat :: Owns(s, x, ip) ==> x !in s.chain
    requires Filled(s.entries[e].bucket, s.now) == Filled(b, s.now) + PACKET_COST
    ensures Differs(b, s, run, ip)
  {
    if !s.sweeper.Condemning? {
      run := PendingDiffers(b, s, ip, v, e);
    } else {
      var a, f := Unlink, s.sweeper.entry;
      OtherCondemned(s, ip);
      OneStep(b, s, a, ip);
      StepSound(s, a);
      WithoutIn(s.chain, f);
      hide Lawful, After, Agrees, Undisturbed, IdealAfter, Sound, Filled, Without;
      var rest := PendingDiffers(b, Next(s, a), ip, v, e);
      DiffersLater(b, s, [a], rest, ip);
      run := [a] + rest;
    }
  }

  lemma OtherCondemned(s: State, ip: Source)
    requires Sound(s) && s.sweeper.Condemning? && forall x: nat :: Owns(s, x, ip) ==> x !in s.chain
    ensures !IsOf(s, s.sweeper.entry, ip)
  {
    assert SweeperFits(s) && ListsFit(s);
    hide EntriesFit, ThreadsFit, SweeperFits;
    var f := s.sweeper.entry;
    assert f in s.chain && f !in s.retired;
    assert !Owns(s, f, ip);
  }

  lemma FillDiffers(b: Bucket, s: State, ip: Source, t: ThreadId) returns (run: seq<Step>)
    requires Good(s, b, ip) && Sound(s) && Can(s, Fill(t)) && Disturbs(s, Fill(t), ip) && !ip.Other?
    requires Right(b, s, Fill(t), ip)
    ensures Differs(Draw(b, s.now).0, Next(s, Fill(t)), run, ip)
  {
    var e: nat :| Owns(s, e, ip);
    var s', b' := Next(s, Fill(t)), Draw(b, s.now).0;
    StepSound(s, Fill(t));
    DrawIs(b, s.now);
    NotYetRetired(s);
    assert EntriesFit(s);
    forall x: nat | Owns(s', x, ip) && x != |s.entries| ensures x == e { assert Owns(s, x, ip); }
    hide Lawful, After, Agrees, Undisturbed, IdealAfter, Sound, Filled, Draw, ThreadsFit, ListsFit, SweeperFits;
    if e in s.chain {
      run := LinkedDiffers(b', s', ip, e);
    } else {
      assert Waits(s, e);
      var v :| v in s.threads && s.threads[v] == Pending(e);
      run := WaitingDiffers(b', s', ip, v, e);
    }
  }

  // ---------------------------------------------------------------- exactly then

  lemma GoodNeverDiffers(b: Bucket, s: State, ip: Source)
    requires Good(s, b, ip)
    ensures NeverDiffers(b, s, ip)
  {
    hide Good, Lawful, After, Undisturbed, IdealAfter, Agrees;
    forall run ensures !Differs(b, s, run, ip) {
      if Lawful(s, run) && Undisturbed(s, run, ip) { RunGood(s, run, b, ip); }
    }
  }

  /** In every state that the address has not been disturbed in: a step disturbs it if and only if the step
      itself, or some undisturbed continuation, does not answer as the ideal bucket. */
  lemma DisturbanceIff(s: State, a: Step, b: Bucket, ip: Source)
    requires Reachable(s, b, ip) && Can(s, a) && !ip.Other?
    ensures !Disturbs(s, a, ip) <==> Right(b, s, a, ip) && NeverDiffers(Ideal(b, s, a, ip), Next(s, a), ip)
  {
    ReachedGood(s, b, ip);
    GoodIff(s, a, b, ip);
  }

  lemma GoodIff(s: State, a: Step, b: Bucket, ip: Source)
    requires Good(s, b, ip) && Sound(s) && Can(s, a) && !ip.Other?
    ensures !Disturbs(s, a, ip) <==> Right(b, s, a, ip) && NeverDiffers(Ideal(b, s, a, ip), Next(s, a), ip)
  {
    hide Good, Sound, Lawful, After, Undisturbed, IdealAfter, Agrees, Differs, Draw;
    if !Disturbs(s, a, ip) {
      hide Next, Can, Disturbs, Right, Ideal;
      StepGood(s, a, b, ip);
      GoodNeverDiffers(Ideal(b, s, a, ip), Next(s, a), ip);
    } else if a.Unlink? {
      var run := UnlinkDiffers(b, s, ip);
    } else if Right(b, s, a, ip) {
      var run := FillDiffers(b, s, ip, a.t);
    }
  }

  /** The same of whole runs: a run does not disturb the address if and only if at every point of it all
      answers so far, and all that any undisturbed continuation would get, are those of the ideal bucket. */
  lemma RunIff(run: seq<Step>, ip: Source)
    requires Lawful(Init, run) && !ip.Other?
    ensures Undisturbed(Init, run, ip) <==> forall n :: 0 <= n <= |run| ==> Faithful(Untouched, Init, run, n, ip)
  {
    InitGood(ip);
    hide Good, Sound, Lawful, Undisturbed, Faithful;
    RunIffFrom(Init, run, Untouched, ip);
  }

  ghost predicate Faithful(b: Bucket, s: State, run: seq<Step>, n: nat, ip: Source)
    requires n <= |run|
  {
    Lawful(s, run[..n]) && Agrees(b, s, run[..n], ip) && NeverDiffers(IdealAfter(b, s, run[..n], ip), After(s, run[..n]), ip)
  }

  lemma FaithfulLater(b: Bucket, s: State, run: seq<Step>, n: nat, ip: Source)
    requires 0 < n <= |run| && Can(s, run[0])
    ensures Faithful(b, s, run, n, ip) <==> Right(b, s, run[0], ip) && Faithful(Ideal(b, s, run[0], ip), Next(s, run[0]), run[1..], n - 1, ip)
  {
    assert run[..n][1..] == run[1..][..n - 1] && run[..n][0] == run[0];
    hide Can, Next, Right, Ideal, NeverDiffers;
  }

  lemma FaithfulFirst(b: Bucket, s: State, run: seq<Step>, ip: Source)
    ensures Faithful(b, s, run, 0, ip) <==> NeverDiffers(b, s, ip)
  {
    assert run[..0] == [];
    hide NeverDiffers;
  }

  lemma {:induction false} RunIffFrom(s: State, run: seq<Step>, b: Bucket, ip: Source)
    requires Good(s, b, ip) && Sound(s) && Lawful(s, run) && !ip.Other?
    ensures Undisturbed(s, run, ip) <==> forall n :: 0 <= n <= |run| ==> Faithful(b, s, run, n, ip)
    decreases run
  {
    hide Good, Sound, Can, Next, Right, Ideal, NeverDiffers, Faithful, Disturbs;
    FaithfulFirst(b, s, run, ip);
    GoodNeverDiffers(b, s, ip);
    if run != [] {
      var a := run[0];
      var s', b' := Next(s, a), Ideal(b, s, a, ip);
      GoodIff(s, a, b, ip);
      forall n | 0 < n <= |run|
        ensures Faithful(b, s, run, n, ip) <==> Right(b, s, a, ip) && Faithful(b', s', run[1..], n - 1, ip)
      {
        FaithfulLater(b, s, run, n, ip);
      }
      FaithfulFirst(b', s', run[1..], ip);
      if !Disturbs(s, a, ip) {
        StepGood(s, a, b, ip);
        StepSound(s, a);
        RunIffFrom(s', run[1..], b', ip);
        Shifted(b, s, run, b', s', ip);
      } else {
        assert !Faithful(b, s, run, 1, ip);
      }
    }
  }

  lemma Shifted(b: Bucket, s: State, run: seq<Step>, b': Bucket, s': State, ip: Source)
    requires run != [] && Faithful(b, s, run, 0, ip)
    requires forall n :: 0 < n <= |run| ==> (Faithful(b, s, run, n, ip) <==> Faithful(b', s', run[1..], n - 1, ip))
    ensures (forall n :: 0 <= n <= |run| ==> Faithful(b, s, run, n, ip))
       <==> (forall n :: 0 <= n <= |run[1..]| ==> Faithful(b', s', run[1..], n, ip))
  {
    hide Faithful;
    forall n | 0 <= n <= |run[1..]| ensures Faithful(b, s, run, n + 1, ip) <==> Faithful(b', s', run[1..], n, ip) {}
  }

  /** When taking out a condemned entry is noticed: exactly if a caller that found it has yet to draw on it,
      or it was used since the sweep read the clock and is not full again. */
  lemma SweepSeenIff(s: State, b: Bucket, ip: Source)
    requires Reachable(s, b, ip) && !ip.Other? && Can(s, Unlink) && IsOf(s, s.sweeper.entry, ip)
    ensures var e := s.sweeper.entry;
      NeverDiffers(b, Next(s, Unlink), ip)
      <==> !Held(s, e) && (s.entries[e].bucket.lastTime < s.sweeper.reading || Full(s.entries[e].bucket, s.now))
  {
    ReachedGood(s, b, ip);
    GoodIff(s, Unlink, b, ip);
    CondemnedIsFull(s);
    hide Reachable, Good, Sound, NeverDiffers, Full, Held;
  }

  lemma CondemnedIsFull(s: State)
    requires Sound(s) && s.sweeper.Condemning?
    ensures var e := s.sweeper.entry;
      e < |s.entries| && (s.entries[e].bucket.lastTime < s.sweeper.reading ==> Full(s.entries[e].bucket, s.now))
  {
    var e := s.sweeper.entry;
    assert SweeperFits(s) && EntriesFit(s);
    hide ThreadsFit, ListsFit, Stale, Full;
    if s.entries[e].bucket.lastTime < s.sweeper.reading { StaleIsFull(s.entries[e].bucket, s.sweeper.reading, s.now); }
  }
}
