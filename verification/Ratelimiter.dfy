/** The token buckets of driver/ratelimiter.c as callers on several threads, the sweep, and the callbacks
    that free entries see them. A step is one read of a list, one atomic increment, or one section under
    a lock; an entry's number says when it was allocated. */
module Ratelimiter {
  import opened Words

  const SYS_TIME_UNITS_PER_SEC: nat := 10_000_000
  const PACKETS_PER_SECOND: nat := 20
  const PACKETS_BURSTABLE: nat := 5
  const PACKET_COST: nat := SYS_TIME_UNITS_PER_SEC / PACKETS_PER_SECOND
  const TOKEN_MAX: nat := PACKET_COST * PACKETS_BURSTABLE
  const TABLE_SIZE: nat := 8192
  const MAX_ENTRIES: nat := TABLE_SIZE * 8

  /** The clock does not come near the end of its 64 bits. */
  const CLOCK_END: nat := 0x8000_0000_0000_0000

  /** An IPv4 address, the first half of an IPv6 address, or neither. */
  datatype Source = V4(ip: nat) | V6(prefix: nat) | Other

  type uint64 = x: int | 0 <= x < TWO64

  datatype Bucket = Bucket(lastTime: uint64, tokens: uint64)

  // ---------------------------------------------------------------- one bucket

  /** The unsigned arithmetic of 64 bits. */
  function Plus(x: uint64, y: uint64): uint64 {
    if x + y < TWO64 then x + y else x + y - TWO64
  }

  function Minus(x: uint64, y: uint64): uint64 {
    if x >= y then x - y else x - y + TWO64
  }

  function Filled(b: Bucket, now: uint64): nat {
    var tokens := Minus(Plus(b.tokens, now), b.lastTime);
    if tokens < TOKEN_MAX then tokens else TOKEN_MAX
  }

  /** What one packet does to a bucket. */
  function Draw(b: Bucket, now: uint64): (Bucket, bool) {
    var tokens := Filled(b, now);
    if tokens >= PACKET_COST then (Bucket(now, tokens - PACKET_COST), true) else (Bucket(now, tokens), false)
  }

  predicate Stale(b: Bucket, reading: uint64) {
    Minus(reading, b.lastTime) > SYS_TIME_UNITS_PER_SEC
  }

  predicate Sane(b: Bucket, now: uint64) {
    b.lastTime <= now < CLOCK_END && b.tokens <= TOKEN_MAX
  }

  /** The bucket holds all that it can, and so does it from then on. */
  predicate Full(b: Bucket, now: uint64) {
    Filled(b, now) == TOKEN_MAX
  }

  lemma FilledIs(b: Bucket, now: uint64)
    requires Sane(b, now)
    ensures Filled(b, now) == if b.tokens + now - b.lastTime < TOKEN_MAX then b.tokens + now - b.lastTime else TOKEN_MAX
  {
  }

  lemma FullLater(b: Bucket, now: uint64, t: uint64)
    requires Sane(b, now) && now <= t < CLOCK_END
    ensures Full(b, now) ==> Full(b, t)
    ensures Filled(b, now) <= Filled(b, t) <= Filled(b, now) + (t - now)
  {
    FilledIs(b, now);
    FilledIs(b, t);
  }

  /** Drawing again at once. */
  lemma DrawIs(b: Bucket, now: uint64)
    requires Sane(b, now)
    ensures var (b', ret) := Draw(b, now);
      && Sane(b', now) && ret == (Filled(b, now) >= PACKET_COST)
      && Filled(b', now) == (if ret then Filled(b, now) - PACKET_COST else Filled(b, now)) < TOKEN_MAX
  {
    FilledIs(b, now);
    FilledIs(Draw(b, now).0, now);
  }

  lemma FullDraw(b: Bucket, now: uint64)
    requires Full(b, now)
    ensures Draw(b, now) == (Bucket(now, TOKEN_MAX - PACKET_COST), true)
  {
  }

  /** Whether a sweep drops an entry, at any time at all: those idle for over a second, and those that
      were used after the sweep read the clock. */
  lemma StaleIff(b: Bucket, reading: uint64)
    requires b.lastTime < CLOCK_END && reading < CLOCK_END
    ensures Stale(b, reading) <==> reading > b.lastTime + SYS_TIME_UNITS_PER_SEC || reading < b.lastTime
  {
  }

  lemma StaleIsFull(b: Bucket, reading: uint64, now: uint64)
    requires Sane(b, now) && b.lastTime < reading <= now && Stale(b, reading)
    ensures Full(b, now)
  {
    StaleIff(b, reading);
    FilledIs(b, now);
  }

  // ---------------------------------------------------------------- entries, callers and the sweep

  type ThreadId = nat

  datatype Entry = Entry(ip: Source, bucket: Bucket)

  /** Where a caller of RatelimiterAllow stands; threads without an entry are outside any call. `left` are
      the entries of the address that were in the list when the walk began and are still ahead, and
      `since` is how many entries had been given to RcuCall when the section began. */
  datatype Thread =
    | Walking(ip: Source, left: seq<nat>, since: nat)
    | Holding(ip: Source, entry: nat, since: nat)             // found, about to take its lock
    | Missed(ip: Source)                                      // about to increment TotalEntries
    | Counted(ip: Source, ok: bool)                           // below the limit, or about to undo it
    | Pending(entry: nat)                                     // filled, about to be put into the list

  /** The sweep holds the lock of the table while it has an entry condemned. */
  datatype Sweeper = Resting | Sweeping(reading: uint64) | Condemning(reading: uint64, entry: nat)

  /** Every entry ever allocated; those in the list, the last one put in first; those taken out of it, in
      that order, of which the first `freed` have been freed. */
  datatype State = State(
    now: uint64, entries: seq<Entry>, chain: seq<nat>, retired: seq<nat>, freed: nat, total: nat,
    sweeper: Sweeper, threads: map<ThreadId, Thread>)

  const Init: State := State(0, [], [], [], 0, 0, Resting, map[])

  predicate IsOf(s: State, e: nat, ip: Source) {
    e < |s.entries| && s.entries[e].ip == ip
  }

  /** The entries of an address among some. */
  function Of(s: State, ids: seq<nat>, ip: Source): seq<nat> {
    if ids == [] then [] else (if IsOf(s, ids[0], ip) then [ids[0]] else []) + Of(s, ids[1..], ip)
  }

  function Without(ids: seq<nat>, e: nat): seq<nat> {
    if ids == [] then [] else (if ids[0] == e then [] else [ids[0]]) + Without(ids[1..], e)
  }

  /** The caller is between RcuReadLock and RcuReadUnlock. */
  predicate Reading(th: Thread) {
    th.Walking? || th.Holding?
  }

  // ---------------------------------------------------------------- steps

  datatype Step =
    | Tick(to: uint64)
    | Enter(t: ThreadId, ip: Source)
    | Probe(t: ThreadId)              // the next entry of the walk, or its end
    | Take(t: ThreadId)               // the section under the entry's lock
    | Count(t: ThreadId)
    | Undo(t: ThreadId)               // over the limit, or the allocation failed
    | Fill(t: ThreadId)
    | Insert(t: ThreadId)
    | Read                            // the sweep reads the clock
    | Judge(e: nat)
    | Unlink
    | Free                            // EntryFree of the next entry, after its grace period


  /** The first `n + 1` entries taken out may be freed: every section that was open then has ended. */
  ghost predicate Graced(s: State, n: nat) {
    forall t :: t in s.threads && Reading(s.threads[t]) ==> s.threads[t].since > n
  }

  ghost predicate Can(s: State, a: Step) {
    match a
    case Tick(to) => s.now <= to < CLOCK_END
    case Enter(t, ip) => t !in s.threads && !ip.Other?
    case Probe(t) => t in s.threads && s.threads[t].Walking?
    case Take(t) => t in s.threads && s.threads[t].Holding? && s.threads[t].entry < |s.entries|
    case Count(t) => t in s.threads && s.threads[t].Missed?
    case Undo(t) => t in s.threads && s.threads[t].Counted? && s.total > 0
    case Fill(t) => t in s.threads && s.threads[t].Counted? && s.threads[t].ok
    case Insert(t) => t in s.threads && s.threads[t].Pending? && !s.sweeper.Condemning?
    case Read => !s.sweeper.Condemning?
    case Judge(e) => s.sweeper.Sweeping? && e in s.chain && e < |s.entries|
    case Unlink => s.sweeper.Condemning?
    case Free => s.freed < |s.retired| && s.total > 0 && Graced(s, s.freed)
  }

  function Goto(s: State, t: ThreadId, th: Thread): State {
    s.(threads := s.threads[t := th])
  }

  function Leave(s: State, t: ThreadId): State {
    s.(threads := s.threads - {t})
  }

  function EnterStep(s: State, t: ThreadId, ip: Source): State {
    Goto(s, t, Walking(ip, Of(s, s.chain, ip), |s.retired|))
  }

  /** An entry that has been taken out of the list is passed over. */
  function ProbeStep(s: State, t: ThreadId, th: Thread): State
    requires th.Walking?
  {
    if th.left == [] then Goto(s, t, Missed(th.ip))
    else if th.left[0] in s.chain then Goto(s, t, Holding(th.ip, th.left[0], th.since))
    else Goto(s, t, th.(left := th.left[1..]))
  }

  /** The section under the lock of entry e. */
  function Drawn(s: State, e: nat): State
    requires e < |s.entries|
  {
    s.(entries := s.entries[e := s.entries[e].(bucket := Draw(s.entries[e].bucket, s.now).0)])
  }

  function CountStep(s: State, t: ThreadId, ip: Source): State {
    Goto(s, t, Counted(ip, s.total + 1 <= MAX_ENTRIES)).(total := s.total + 1)
  }

  /** A new entry, from which its packet has been taken already. */
  function Filling(s: State, ip: Source): State {
    s.(entries := s.entries + [Entry(ip, Bucket(s.now, TOKEN_MAX - PACKET_COST))])
  }

  function Linked(s: State, e: nat): State {
    s.(chain := [e] + s.chain)
  }

  /** EntryUninit */
  function Unlinked(s: State, e: nat): State {
    s.(chain := Without(s.chain, e), retired := s.retired + [e])
  }

  function JudgeStep(s: State, e: nat): State
    requires s.sweeper.Sweeping? && e < |s.entries|
  {
    if Stale(s.entries[e].bucket, s.sweeper.reading) then s.(sweeper := Condemning(s.sweeper.reading, e)) else s
  }

  function Next(s: State, a: Step): State
    requires Can(s, a)
  {
    match a
    case Tick(to) => s.(now := to)
    case Enter(t, ip) => EnterStep(s, t, ip)
    case Probe(t) => ProbeStep(s, t, s.threads[t])
    case Take(t) => Leave(Drawn(s, s.threads[t].entry), t)
    case Count(t) => CountStep(s, t, s.threads[t].ip)
    case Undo(t) => Leave(s, t).(total := s.total - 1)
    case Fill(t) => Goto(Filling(s, s.threads[t].ip), t, Pending(|s.entries|))
    case Insert(t) => Leave(Linked(s, s.threads[t].entry), t)
    case Read => s.(sweeper := Sweeping(s.now))
    case Judge(e) => JudgeStep(s, e)
    case Unlink => Unlinked(s, s.sweeper.entry).(sweeper := Sweeping(s.sweeper.reading))
    case Free => s.(freed := s.freed + 1, total := s.total - 1)
  }

  ghost predicate Lawful(s: State, run: seq<Step>)
    decreases run
  {
    run != [] ==> Can(s, run[0]) && Lawful(Next(s, run[0]), run[1..])
  }

  ghost function After(s: State, run: seq<Step>): State
    requires Lawful(s, run)
    decreases run
  {
    if run == [] then s else After(Next(s, run[0]), run[1..])
  }

  // ---------------------------------------------------------------- answers

  /** The step answers a packet of this address, and not for want of room. A caller that fills an entry is
      sure to return TRUE. */
  predicate Answers(s: State, a: Step, ip: Source) {
    && (a.Take? || a.Fill?) && a.t in s.threads
    && (s.threads[a.t].Holding? || s.threads[a.t].Counted?) && s.threads[a.t].ip == ip
  }

  predicate Allows(s: State, a: Step) {
    a.Fill? || (a.Take? && a.t in s.threads && s.threads[a.t].Holding? && s.threads[a.t].entry < |s.entries|
      && Draw(s.entries[s.threads[a.t].entry].bucket, s.now).1)
  }

  /** The limiter it stands for has one bucket for every address, full until it is first drawn from. */
  const Untouched: Bucket := Bucket(0, TOKEN_MAX)

  function Ideal(b: Bucket, s: State, a: Step, ip: Source): Bucket {
    if Answers(s, a, ip) then Draw(b, s.now).0 else b
  }

  /** The step answers as the ideal bucket would. */
  predicate Right(b: Bucket, s: State, a: Step, ip: Source) {
    Answers(s, a, ip) ==> Allows(s, a) == Draw(b, s.now).1
  }

  ghost predicate Agrees(b: Bucket, s: State, run: seq<Step>, ip: Source)
    requires Lawful(s, run)
    decreases run
  {
    run != [] ==> Right(b, s, run[0], ip) && Agrees(Ideal(b, s, run[0], ip), Next(s, run[0]), run[1..], ip)
  }

  ghost function IdealAfter(b: Bucket, s: State, run: seq<Step>, ip: Source): Bucket
    requires Lawful(s, run)
    decreases run
  {
    if run == [] then b else IdealAfter(Ideal(b, s, run[0], ip), Next(s, run[0]), run[1..], ip)
  }

  // ---------------------------------------------------------------- what makes a difference

  /** In the list or about to be put there. */
  predicate Owns(s: State, e: nat, ip: Source) {
    IsOf(s, e, ip) && e !in s.retired
  }

  ghost predicate Held(s: State, e: nat) {
    exists t :: t in s.threads && s.threads[t].Holding? && s.threads[t].entry == e
  }

  /** An entry is filled although its address has one, or an entry is taken out of the list while a caller
      that found it has yet to draw on it, or before it is full again. */
  ghost predicate Disturbs(s: State, a: Step, ip: Source) {
    match a
    case Fill(t) => t in s.threads && s.threads[t].Counted? && s.threads[t].ip == ip && exists e: nat :: Owns(s, e, ip)
    case Unlink => s.sweeper.Condemning? && IsOf(s, s.sweeper.entry, ip)
        && (Held(s, s.sweeper.entry) || !Full(s.entries[s.sweeper.entry].bucket, s.now))
    case _ => false
  }

  ghost predicate Undisturbed(s: State, run: seq<Step>, ip: Source)
    requires Lawful(s, run)
    decreases run
  {
    run != [] ==> !Disturbs(s, run[0], ip) && Undisturbed(Next(s, run[0]), run[1..], ip)
  }
}
