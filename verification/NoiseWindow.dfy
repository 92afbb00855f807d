/** NoiseHandshakeConsumeInitiation checks an initiation under the handshake's lock and stores it under the
    lock taken again. What several threads can do in between. */
module NoiseWindow {
  import opened NoiseHandshake

  type ThreadId = nat

  /** Threads that have checked an initiation, and its timestamp, but not stored it. */
  datatype Window = Window(hand: Hand, passed: map<ThreadId, nat>)

  /** Everything else under the lock leaves the last timestamp and the last consumption alone. */
  datatype Step =
    | Check(t: ThreadId, stamp: nat, now: int)
    | Store(t: ThreadId, chain: Term, hash: Term, m: Initiation, later: int)
    | Elsewhere(hand: Hand)

  predicate Can(s: Window, a: Step) {
    match a
    case Check(t, _, _) => t !in s.passed
    case Store(t, _, _, _, _) => t in s.passed
    case Elsewhere(h) => h.latest == s.hand.latest && h.consumption == s.hand.consumption
  }

  function Next(s: Window, a: Step): Window
    requires Can(s, a)
  {
    match a
    case Check(t, stamp, now) => if Passes(s.hand, stamp, now) then s.(passed := s.passed[t := stamp]) else s
    case Store(t, chain, hash, m, later) =>
      Window(StoreInitiation(s.hand, chain, hash, m, s.passed[t], later), s.passed - {t})
    case Elsewhere(h) => s.(hand := h)
  }

  ghost predicate Lawful(s: Window, run: seq<Step>)
    decreases run
  {
    run != [] ==> Can(s, run[0]) && Lawful(Next(s, run[0]), run[1..])
  }

  ghost function After(s: Window, run: seq<Step>): Window
    requires Lawful(s, run)
    decreases run
  {
    if run == [] then s else After(Next(s, run[0]), run[1..])
  }

  /** An initiation at least as late as this is stored in the run. */
  ghost predicate Stores(s: Window, run: seq<Step>, stamp: nat)
    requires Lawful(s, run)
    decreases run
  {
    run != [] && ((run[0].Store? && s.passed[run[0].t] >= stamp) || Stores(Next(s, run[0]), run[1..], stamp))
  }

  lemma {:induction false} StoredIff(s: Window, run: seq<Step>, stamp: nat)
    requires Lawful(s, run)
    ensures After(s, run).hand.latest >= stamp <==> s.hand.latest >= stamp || Stores(s, run, stamp)
    decreases run
  {
    if run != [] { StoredIff(Next(s, run[0]), run[1..], stamp); }
  }

  /** An initiation is stored in the run at this time or later. */
  ghost predicate StoresAt(s: Window, run: seq<Step>, time: int)
    requires Lawful(s, run)
    decreases run
  {
    run != [] && ((run[0].Store? && run[0].later >= time) || StoresAt(Next(s, run[0]), run[1..], time))
  }

  /** The time from which the next initiation is measured is that of the latest one stored. */
  lemma {:induction false} ConsumedIff(s: Window, run: seq<Step>, time: int)
    requires Lawful(s, run)
    ensures After(s, run).hand.consumption >= time <==> s.hand.consumption >= time || StoresAt(s, run, time)
    decreases run
  {
    if run != [] { ConsumedIff(Next(s, run[0]), run[1..], time); }
  }

  lemma {:induction false} StillPassed(s: Window, run: seq<Step>, t: ThreadId, stamp: nat)
    requires Lawful(s, run) && t in s.passed && s.passed[t] == stamp && !Stores(s, run, stamp)
    ensures t in After(s, run).passed && After(s, run).passed[t] == stamp
    decreases run
  {
    if run != [] { StillPassed(Next(s, run[0]), run[1..], t, stamp); }
  }

  /** When an initiation that one thread has found new passes the check of another, whatever happened in
      between: exactly if nothing as late has been stored, the first thread included, and the last one
      stored is long enough ago. */
  lemma TwiceIff(s: Window, t: ThreadId, stamp: nat, now: int, between: seq<Step>, now': int)
    requires Can(s, Check(t, stamp, now)) && Passes(s.hand, stamp, now)
    requires Lawful(Next(s, Check(t, stamp, now)), between)
    ensures var s1 := Next(s, Check(t, stamp, now));
      var s2 := After(s1, between);
      && (Passes(s2.hand, stamp, now')
          <==> !Stores(s1, between, stamp) && s2.hand.consumption + ONE_SECOND / INITIATIONS_PER_SECOND <= now')
      && (Passes(s2.hand, stamp, now') ==> t in s2.passed)
  {
    var s1 := Next(s, Check(t, stamp, now));
    StoredIff(s1, between, stamp);
    hide Lawful, After, Stores;
    if !Stores(s1, between, stamp) { StillPassed(s1, between, t, stamp); }
  }
}
