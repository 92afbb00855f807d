/** The hash chains and the counter of driver/ratelimiter.c, section by section, proved against the steps of
    Ratelimiter. */
module RatelimiterTable {
  import opened Ratelimiter
  import opened RatelimiterFits
  import opened RatelimiterIdeal
  import opened RatelimiterSeen

  /** TableV4 followed by TableV6. */
  function Place(hash: Source -> nat, ip: Source): (i: nat)
    ensures i < 2 * TABLE_SIZE
  {
    (if ip.V6? then TABLE_SIZE else 0) + hash(ip) % TABLE_SIZE
  }

  predicate Belongs(hash: Source -> nat, entries: seq<Entry>, e: nat, i: nat) {
    e < |entries| && Place(hash, entries[e].ip) == i
  }

  /** Those of the list that belong to chain i. */
  function Chain(hash: Source -> nat, entries: seq<Entry>, ids: seq<nat>, i: nat): seq<nat> {
    if ids == [] then []
    else (if Belongs(hash, entries, ids[0], i) then [ids[0]] else []) + Chain(hash, entries, ids[1..], i)
  }

  function Keep(ids: seq<nat>, gone: set<nat>): seq<nat> {
    if ids == [] then [] else (if ids[0] in gone then [] else [ids[0]]) + Keep(ids[1..], gone)
  }

  // ---------------------------------------------------------------- the lists

  lemma {:induction false} ChainIn(hash: Source -> nat, entries: seq<Entry>, ids: seq<nat>, i: nat)
    ensures forall e :: e in Chain(hash, entries, ids, i) <==> e in ids && Belongs(hash, entries, e, i)
  {
    hide Belongs;
    if ids != [] { ChainIn(hash, entries, ids[1..], i); }
  }

  lemma {:induction false} ChainSame(hash: Source -> nat, entries: seq<Entry>, after: seq<Entry>, ids: seq<nat>, i: nat)
    requires forall e :: e in ids ==> (Belongs(hash, entries, e, i) <==> Belongs(hash, after, e, i))
    ensures Chain(hash, after, ids, i) == Chain(hash, entries, ids, i)
  {
    hide Belongs;
    if ids != [] { ChainSame(hash, entries, after, ids[1..], i); }
  }

  /** Every entry of an address is in its chain. */
  lemma {:induction false} OfChain(hash: Source -> nat, s: State, ids: seq<nat>, ip: Source)
    ensures Of(s, Chain(hash, s.entries, ids, Place(hash, ip)), ip) == Of(s, ids, ip)
  {
    hide Place;
    if ids != [] {
      var e, rest := ids[0], Chain(hash, s.entries, ids[1..], Place(hash, ip));
      OfChain(hash, s, ids[1..], ip);
      assert ([e] + rest)[1..] == rest && [] + rest == rest;
    }
  }

  lemma OfNone(s: State, ip: Source)
    ensures Of(s, [], ip) == []
  {
  }

  lemma OfStep(s: State, ids: seq<nat>, j: nat, ip: Source)
    requires j < |ids|
    ensures Of(s, ids[j..], ip) == if IsOf(s, ids[j], ip) then [ids[j]] + Of(s, ids[j + 1..], ip) else Of(s, ids[j + 1..], ip)
  {
    assert ids[j..][0] == ids[j] && ids[j..][1..] == ids[j + 1..];
  }

  lemma {:induction false} WithoutChain(hash: Source -> nat, entries: seq<Entry>, ids: seq<nat>, e: nat, i: nat)
    ensures Chain(hash, entries, Without(ids, e), i) == Without(Chain(hash, entries, ids, i), e)
  {
    hide Belongs;
    if ids != [] {
      var x, rest := ids[0], ids[1..];
      WithoutChain(hash, entries, rest, e, i);
      assert ([x] + Without(rest, e))[1..] == Without(rest, e) && [] + Without(rest, e) == Without(rest, e);
      var tail := Chain(hash, entries, rest, i);
      assert ([x] + tail)[1..] == tail && [] + tail == tail;
    }
  }

  lemma WithoutStep(ids: seq<nat>, j: nat, e: nat)
    requires j < |ids|
    ensures Without(ids[j..], e) == (if ids[j] == e then [] else [ids[j]]) + Without(ids[j + 1..], e)
  {
    assert ids[j..][0] == ids[j] && ids[j..][1..] == ids[j + 1..];
  }

  lemma {:induction false} WithoutNone(ids: seq<nat>, e: nat)
    requires e !in ids
    ensures Without(ids, e) == ids
  {
    if ids != [] { WithoutNone(ids[1..], e); }
  }

  lemma {:induction false} KeepNone(ids: seq<nat>)
    ensures Keep(ids, {}) == ids
  {
    if ids != [] { KeepNone(ids[1..]); }
  }

  lemma {:induction false} KeepMore(ids: seq<nat>, gone: set<nat>, e: nat)
    ensures Without(Keep(ids, gone), e) == Keep(ids, gone + {e})
  {
    if ids != [] {
      var x, rest := ids[0], Keep(ids[1..], gone);
      KeepMore(ids[1..], gone, e);
      assert ([x] + rest)[1..] == rest && [] + rest == rest;
    }
  }

  lemma {:induction false} KeepIn(ids: seq<nat>, gone: set<nat>)
    ensures forall e :: e in Keep(ids, gone) <==> e in ids && e !in gone
  {
    if ids != [] { KeepIn(ids[1..], gone); }
  }

  /** No entry is twice in the list. */
  predicate Unique(ids: seq<nat>) {
    ids != [] ==> ids[0] !in ids[1..] && Unique(ids[1..])
  }

  lemma UniqueMore(ids: seq<nat>, e: nat)
    requires Unique(ids) && e !in ids
    ensures Unique([e] + ids)
  {
    assert ([e] + ids)[1..] == ids;
  }

  lemma {:induction false} UniqueChain(hash: Source -> nat, entries: seq<Entry>, ids: seq<nat>, i: nat)
    requires Unique(ids)
    ensures Unique(Chain(hash, entries, ids, i))
  {
    hide Belongs;
    if ids != [] {
      UniqueChain(hash, entries, ids[1..], i);
      ChainIn(hash, entries, ids[1..], i);
      var rest := Chain(hash, entries, ids[1..], i);
      assert ([ids[0]] + rest)[1..] == rest && [] + rest == rest;
    }
  }

  lemma {:induction false} UniqueWithout(ids: seq<nat>, e: nat)
    requires Unique(ids)
    ensures Unique(Without(ids, e))
  {
    if ids != [] {
      UniqueWithout(ids[1..], e);
      WithoutIn(ids[1..], e);
      var rest := Without(ids[1..], e);
      assert ([ids[0]] + rest)[1..] == rest && [] + rest == rest;
    }
  }

  lemma {:induction false} UniqueAt(ids: seq<nat>, j: nat)
    requires Unique(ids) && j < |ids|
    ensures ids[j] !in ids[..j]
  {
    if j > 0 {
      UniqueAt(ids[1..], j - 1);
      assert ids[1..][j - 1] == ids[j] && ids[1..][..j - 1] == ids[1..j] && ids[..j] == [ids[0]] + ids[1..j];
    }
  }

  // ---------------------------------------------------------------- a call that nobody interrupts

  /** RatelimiterAllow from beginning to end; `room` is whether memory could be had. */
  function Alone(s: State, ip: Source, room: bool): (State, bool) {
    var found := Of(s, s.chain, ip);
    if ip.Other? then (s, false)
    else if found != [] && found[0] < |s.entries| then (Drawn(s, found[0]), Draw(s.entries[found[0]].bucket, s.now).1)
    else if s.total + 1 > MAX_ENTRIES || !room then (s, false)
    else (Linked(Filling(s, ip), |s.entries|).(total := s.total + 1), true)
  }

  /** It is what the steps of one caller come to. */
  lemma AloneIsCall(s: State, u: ThreadId, ip: Source, room: bool) returns (run: seq<Step>)
    requires ListsFit(s) && u !in s.threads && !ip.Other? && !s.sweeper.Condemning?
    ensures Lawful(s, run) && After(s, run) == Alone(s, ip, room).0
    ensures forall a :: a in run ==> (a.Enter? || a.Probe? || a.Take? || a.Count? || a.Undo? || a.Fill? || a.Insert?) && a.t == u
  {
    OfIn(s, s.chain, ip);
    FirstIn(Of(s, s.chain, ip));
    hide Of, Draw, Lawful, After;
    if Of(s, s.chain, ip) != [] {
      CallIs(Untouched, s, u, ip, Of(s, s.chain, ip)[0]);
      run := Call(u, ip);
    } else {
      run := FirstAlone(s, u, ip, room);
    }
  }

  lemma FirstAlone(s: State, u: ThreadId, ip: Source, room: bool) returns (run: seq<Step>)
    requires u !in s.threads && !ip.Other? && !s.sweeper.Condemning? && Of(s, s.chain, ip) == []
    ensures Lawful(s, run) && After(s, run) == Alone(s, ip, room).0
    ensures forall a :: a in run ==> (a.Enter? || a.Probe? || a.Take? || a.Count? || a.Undo? || a.Fill? || a.Insert?) && a.t == u
  {
    var s1 := s.(total := s.total + 1, threads := s.threads[u := Counted(ip, s.total + 1 <= MAX_ENTRIES)]);
    MissedCall(s, u, ip);
    hide Of, Draw, Lawful, After;
    if s.total + 1 <= MAX_ENTRIES && room {
      EnteringIs(Untouched, s1, u, ip);
      Joined(s, FirstCall(u, ip), Entering(u));
      assert s1.threads - {u} == s.threads;
      run := FirstCall(u, ip) + Entering(u);
    } else {
      OneStep(Untouched, s1, Undo(u), ip);
      Joined(s, FirstCall(u, ip), [Undo(u)]);
      assert Next(s1, Undo(u)).threads == s.threads;
      run := FirstCall(u, ip) + [Undo(u)];
    }
  }

  lemma MissedCall(s: State, u: ThreadId, ip: Source)
    requires u !in s.threads && !ip.Other? && Of(s, s.chain, ip) == []
    ensures Lawful(s, FirstCall(u, ip))
    ensures After(s, FirstCall(u, ip))
         == s.(total := s.total + 1, threads := s.threads[u := Counted(ip, s.total + 1 <= MAX_ENTRIES)])
  {
    hide Of, Lawful, After;
    var s1 := Next(s, Enter(u, ip));
    var s2 := Next(s1, Probe(u));
    OneStep(Untouched, s, Enter(u, ip), ip);
    OneStep(Untouched, s1, Probe(u), ip);
    OneStep(Untouched, s2, Count(u), ip);
    assert FirstCall(u, ip) == [Enter(u, ip)] + ([Probe(u)] + [Count(u)]);
    Joined(s1, [Probe(u)], [Count(u)]);
    Joined(s, [Enter(u, ip)], [Probe(u)] + [Count(u)]);
    assert Next(s2, Count(u)).threads == s.threads[u := Counted(ip, s.total + 1 <= MAX_ENTRIES)];
  }

  /** Without an entry and without room the answer is no, and nothing changes. */
  lemma FullRefuses(s: State, ip: Source, room: bool)
    requires Of(s, s.chain, ip) == []
    ensures Alone(s, ip, room).1 <==> !ip.Other? && s.total < MAX_ENTRIES && room
    ensures !Alone(s, ip, room).1 ==> Alone(s, ip, room).0 == s
  {
  }

  // ---------------------------------------------------------------- the fields

  class Table {
    const hash: Source -> nat
    const chains: array<seq<nat>>
    var entries: seq<Entry>
    var totalEntries: nat
    ghost var chain: seq<nat>
    ghost var retired: seq<nat>
    ghost var freed: nat

    ghost function At(now: uint64): State
      reads this
    {
      State(now, entries, chain, retired, freed, totalEntries, Resting, map[])
    }

    ghost predicate Valid()
      reads this, chains
    {
      && chains.Length == 2 * TABLE_SIZE
      && (forall i :: 0 <= i < 2 * TABLE_SIZE ==> chains[i] == Chain(hash, entries, chain, i))
      && (forall e :: e in chain ==> e < |entries|) && Unique(chain)
    }

    constructor (hash: Source -> nat)
      ensures Valid() && At(0) == Init && this.hash == hash && fresh(chains)
    {
      this.hash := hash;
      chains := new seq<nat>[2 * TABLE_SIZE](_ => []);
      entries, totalEntries := [], 0;
      chain, retired, freed := [], [], 0;
    }

    /** The walk over the chain. */
    method Find(ip: Source) returns (found: bool, e: nat)
      requires Valid()
      ensures var ids := Of(At(0), chain, ip); found == (ids != []) && (found ==> e == ids[0] && e < |entries|)
    {
      var c := chains[Place(hash, ip)];
      ghost var s := At(0);
      OfChain(hash, s, chain, ip);
      ChainIn(hash, entries, chain, Place(hash, ip));
      OfNone(s, ip);
      hide Place, Of, Chain;
      assert c[0..] == c;
      var j := 0;
      while j < |c|
        invariant j <= |c| && Of(s, c[j..], ip) == Of(s, chain, ip)
      {
        assert c[j] in c;
        OfStep(s, c, j, ip);
        if entries[c[j]].ip == ip { return true, c[j]; }
        j := j + 1;
      }
      assert c[j..] == [];
      return false, 0;
    }

    /** The section under the lock of the entry. */
    method Redraw(e: nat, now: uint64) returns (ret: bool)
      requires Valid() && e < |entries|
      modifies `entries
      ensures Valid() && At(now) == Drawn(old(At(now)), e) && ret == Draw(old(entries[e]).bucket, now).1
    {
      var (bucket, allowed) := Draw(entries[e].bucket, now);
      ret := allowed;
      ghost var before := entries;
      entries := entries[e := entries[e].(bucket := bucket)];
      hide Place, Draw;
      forall i | 0 <= i < 2 * TABLE_SIZE ensures chains[i] == Chain(hash, entries, chain, i) {
        ChainSame(hash, before, entries, chain, i);
      }
    }

    /** A new entry that nothing points at yet. */
    method Allocate(ip: Source, now: uint64) returns (e: nat)
      requires Valid()
      modifies `entries
      ensures Valid() && At(now) == Filling(old(At(now)), ip) && e == |old(entries)|
    {
      e := |entries|;
      ghost var before := entries;
      entries := entries + [Entry(ip, Bucket(now, TOKEN_MAX - PACKET_COST))];
      hide Place;
      forall i | 0 <= i < 2 * TABLE_SIZE ensures chains[i] == Chain(hash, entries, chain, i) {
        ChainSame(hash, before, entries, chain, i);
      }
    }

    /** The section under the lock of the table. */
    method HlistAddHeadRcu(e: nat, now: uint64)
      requires Valid() && e < |entries| && e !in chain
      modifies `chain, chains
      ensures Valid() && At(now) == Linked(old(At(now)), e)
    {
      hide Place;
      var i := Place(hash, entries[e].ip);
      chains[i] := [e] + chains[i];
      assert ([e] + chain)[1..] == chain;
      UniqueMore(chain, e);
      chain := [e] + chain;
    }

    method EntryUninit(e: nat, now: uint64)
      requires Valid() && e < |entries|
      modifies `chain, `retired, chains
      ensures Valid() && At(now) == Unlinked(old(At(now)), e)
      ensures chains[Place(hash, entries[e].ip)] == Without(old(chains[Place(hash, entries[e].ip)]), e)
      ensures forall i :: 0 <= i < chains.Length && i != Place(hash, entries[e].ip) ==> chains[i] == old(chains[i])
    {
      hide Place;
      var i := Place(hash, entries[e].ip);
      ghost var before := chain;
      chains[i] := Remove(chains[i], e);
      chain, retired := Without(chain, e), retired + [e];
      WithoutIn(before, e);
      UniqueWithout(before, e);
      forall k | 0 <= k < 2 * TABLE_SIZE ensures chains[k] == Chain(hash, entries, chain, k) {
        WithoutChain(hash, entries, before, e, k);
        ChainIn(hash, entries, before, k);
        if k != i { WithoutNone(Chain(hash, entries, before, k), e); }
      }
    }

    /** HlistDelRcu */
    method Remove(c: seq<nat>, e: nat) returns (rest: seq<nat>)
      ensures rest == Without(c, e)
    {
      hide Without;
      rest := [];
      var j := 0;
      assert c[0..] == c;
      while j < |c|
        invariant j <= |c| && rest + Without(c[j..], e) == Without(c, e)
      {
        WithoutStep(c, j, e);
        if c[j] != e { rest := rest + [c[j]]; }
        j := j + 1;
      }
      WithoutNone(c[j..], e);
    }

    method JudgeEntry(e: nat, reading: uint64, now: uint64, ghost before: seq<nat>, ghost was: seq<nat>, ghost gone: set<nat>)
      requires Valid() && e < |entries| && e !in gone && Gone(before, was, chain, retired, gone)
      modifies `chain, `retired, chains
      ensures Valid()
      ensures Gone(before, was, chain, retired, if Stale(entries[e].bucket, reading) then gone + {e} else gone)
      ensures forall k :: 0 <= k < chains.Length && k != Place(hash, entries[e].ip) ==> chains[k] == old(chains[k])
    {
      hide Place, Stale, Gone, Chain;
      if Stale(entries[e].bucket, reading) {
        GoneMore(before, was, chain, retired, gone, e);
        EntryUninit(e, now);
      }
    }

    /** The stale entries of one chain, under the lock of the table. */
    method SweepChain(i: nat, reading: uint64, now: uint64, ghost before: seq<nat>, ghost was: seq<nat>, ghost gone: set<nat>)
      requires Valid() && i < 2 * TABLE_SIZE && Gone(before, was, chain, retired, gone)
      modifies `chain, `retired, chains
      ensures Valid() && Gone(before, was, chain, retired, gone + Staled(entries, old(chains[i]), reading))
      ensures forall k :: 0 <= k < chains.Length && k != i ==> chains[k] == old(chains[k])
    {
      hide Place, Stale, Gone, Chain;
      var c, j := chains[i], 0;
      UniqueChain(hash, entries, chain, i);
      ChainIn(hash, entries, chain, i);
      StillThere(before, was, chain, retired, gone);
      ghost var more := gone;
      while j < |c|
        invariant j <= |c| && Valid() && more == gone + Staled(entries, c[..j], reading)
        invariant Gone(before, was, chain, retired, more)
        invariant forall k :: 0 <= k < chains.Length && k != i ==> chains[k] == old(chains[k])
      {
        UniqueAt(c, j);
        assert c[j] in c && c[..j + 1] == c[..j] + [c[j]];
        StaledMore(entries, c[..j], c[j], reading);
        JudgeEntry(c[j], reading, now, before, was, more);
        if Stale(entries[c[j]].bucket, reading) { more := more + {c[j]}; }
        j := j + 1;
      }
      assert c[..j] == c;
    }

    /** One sweep of RatelimiterGcEntries that nobody interrupts: of the list there is left what is not
        stale, in its order, and all else has been given to RcuCall, once. */
    method RatelimiterGcEntries(reading: uint64, now: uint64)
      requires Valid()
      modifies `chain, `retired, chains
      ensures Valid() && Gone(old(chain), old(retired), chain, retired, Staled(entries, old(chain), reading))
    {
      hide Place, Stale, Gone, Chain, Belongs;
      ghost var before, was, gone := chain, retired, {};
      GoneNone(before, was);
      var i := 0;
      while i < TABLE_SIZE
        invariant i <= TABLE_SIZE && Valid() && Gone(before, was, chain, retired, gone)
        invariant forall k :: i <= k < TABLE_SIZE || TABLE_SIZE + i <= k < 2 * TABLE_SIZE ==> chains[k] == Chain(hash, entries, before, k)
        invariant forall e :: e in gone <==> e in Staled(entries, before, reading) && Swept(hash, entries, e, i)
      {
        SweepChain(i, reading, now, before, was, gone);
        gone := gone + Staled(entries, Chain(hash, entries, before, i), reading);
        SweepChain(TABLE_SIZE + i, reading, now, before, was, gone);
        gone := gone + Staled(entries, Chain(hash, entries, before, TABLE_SIZE + i), reading);
        SweptMore(hash, entries, before, reading, i);
        i := i + 1;
      }
      SweptAll(hash, entries, before, reading);
      assert gone == Staled(entries, before, reading);
    }

    method RatelimiterAllow(ip: Source, now: uint64, room: bool) returns (ret: bool)
      requires Valid()
      modifies this, chains
      ensures Valid() && (At(now), ret) == Alone(old(At(now)), ip, room)
    {
      hide Draw, Of, Place;
      if ip.Other? { return false; }
      OfNow(At(0), now, ip);
      var found, e := Find(ip);
      if found {
        ret := Redraw(e, now);
        return;
      }
      totalEntries := totalEntries + 1;
      if totalEntries > MAX_ENTRIES || !room {
        totalEntries := totalEntries - 1;
        return false;
      }
      e := Allocate(ip, now);
      HlistAddHeadRcu(e, now);
      ret := true;
    }
  }

  /** From a list `before`, with `was` retired, these have been taken out. */
  ghost predicate Gone(before: seq<nat>, was: seq<nat>, chain: seq<nat>, retired: seq<nat>, gone: set<nat>) {
    && chain == Keep(before, gone)
    && (forall e :: e in retired <==> e in was || e in gone) && |retired| == |was| + |gone|
  }

  lemma GoneNone(ids: seq<nat>, was: seq<nat>)
    ensures Gone(ids, was, ids, was, {})
  {
    KeepNone(ids);
  }

  lemma GoneMore(before: seq<nat>, was: seq<nat>, chain: seq<nat>, retired: seq<nat>, gone: set<nat>, e: nat)
    requires Gone(before, was, chain, retired, gone) && e !in gone
    ensures Gone(before, was, Without(chain, e), retired + [e], gone + {e})
  {
    KeepMore(before, gone, e);
  }

  lemma StillThere(before: seq<nat>, was: seq<nat>, chain: seq<nat>, retired: seq<nat>, gone: set<nat>)
    requires Gone(before, was, chain, retired, gone)
    ensures forall e :: e in chain ==> e in before && e !in gone
  {
    KeepIn(before, gone);
  }

  /** The entry belongs to one of the chains below i, of either table. */
  predicate Swept(hash: Source -> nat, entries: seq<Entry>, e: nat, i: nat) {
    e < |entries| && var k := Place(hash, entries[e].ip); k < i || TABLE_SIZE <= k < TABLE_SIZE + i
  }

  lemma SweptMore(hash: Source -> nat, entries: seq<Entry>, ids: seq<nat>, reading: uint64, i: nat)
    requires i < TABLE_SIZE
    ensures forall e :: e in Staled(entries, ids, reading) && Swept(hash, entries, e, i + 1) <==>
      || (e in Staled(entries, ids, reading) && Swept(hash, entries, e, i))
      || e in Staled(entries, Chain(hash, entries, ids, i), reading)
      || e in Staled(entries, Chain(hash, entries, ids, TABLE_SIZE + i), reading)
  {
    ChainIn(hash, entries, ids, i);
    ChainIn(hash, entries, ids, TABLE_SIZE + i);
    hide Place, Stale, Chain;
  }

  lemma SweptAll(hash: Source -> nat, entries: seq<Entry>, ids: seq<nat>, reading: uint64)
    ensures forall e :: e in Staled(entries, ids, reading) ==> Swept(hash, entries, e, TABLE_SIZE)
  {
    forall e | e in Staled(entries, ids, reading) ensures Swept(hash, entries, e, TABLE_SIZE) {
      var k := Place(hash, entries[e].ip);
    }
  }

  /** The entries of a chain that a sweep takes out. */
  function Staled(entries: seq<Entry>, ids: seq<nat>, reading: uint64): set<nat> {
    set e | e in ids && e < |entries| && Stale(entries[e].bucket, reading)
  }

  lemma StaledMore(entries: seq<Entry>, ids: seq<nat>, e: nat, reading: uint64)
    requires e < |entries| && e !in ids
    ensures var more := Staled(entries, ids + [e], reading);
      if Stale(entries[e].bucket, reading) then more == Staled(entries, ids, reading) + {e} && e !in Staled(entries, ids, reading)
      else more == Staled(entries, ids, reading)
  {
    hide Stale;
  }

  /** Whose an entry is does not depend on the time. */
  lemma {:induction false} OfAt(s: State, now: uint64, ids: seq<nat>, ip: Source)
    ensures Of(s.(now := now), ids, ip) == Of(s, ids, ip)
  {
    if ids != [] { OfAt(s, now, ids[1..], ip); }
  }

  lemma OfNow(s: State, now: uint64, ip: Source)
    ensures Of(s.(now := now), s.chain, ip) == Of(s, s.chain, ip)
  {
    OfAt(s, now, s.chain, ip);
  }
}
