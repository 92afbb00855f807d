/** What becomes of every packet, told from the steps of a run: which state is stored, and whether the
    packet goes up the stack or is freed. */
module PipelineVerdicts {
  import opened PrevQueue
  import opened Pipeline
  import opened PipelineCustody
  import opened PipelineQueues
  import opened PipelineRelease
  import opened PipelineProgress
  import opened PipelineRuns
  import opened PipelineRefusals

  // ---------------------------------------------------------------- the history

  /** The chain in t's hands comes from the ring: since it last began one of its own t has fetched. */
  predicate FromRing(run: seq<Step>, t: ThreadId)
    decreases |run|
  {
    run != [] &&
    var a := run[|run| - 1];
    a == Fetch(t) || (a != Begin(t) && FromRing(run[..|run| - 1], t))
  }

  /** Step a, after these steps, stores the state of packet n. */
  ghost predicate Marks(before: seq<Step>, a: Step, n: Ptr) {
    && a.Mark? && Lawful(Init, before) && Can(After(Init, before), a)
    && Upcoming(After(Init, before), a.t) == n
  }

  /** The next packet of the chain in t's hands. */
  ghost function Upcoming(s: State, t: ThreadId): Ptr
    requires Can(s, Mark(t, true))
  {
    var b := s.batches[s.threads[t].batch];
    b.items[b.marked]
  }

  /** A worker that fetched n's chain succeeds in decrypting it. */
  ghost predicate Decrypts(before: seq<Step>, a: Step, n: Ptr) {
    Marks(before, a, n) && a.ok && FromRing(before, a.t)
  }

  ghost predicate Offered(run: seq<Step>, n: Ptr) {
    exists i: nat :: i < |run| && run[i].Insert? && run[i].nbl == n
  }

  ghost predicate Decrypted(run: seq<Step>, n: Ptr) {
    exists i: nat :: i < |run| && Decrypts(run[..i], run[i], n)
  }

  /** n's state was stored by a worker that could not decrypt it or by a thread whose chain was refused. */
  ghost predicate Rejected(run: seq<Step>, n: Ptr) {
    exists i: nat :: i < |run| && Marks(run[..i], run[i], n) && !Decrypts(run[..i], run[i], n)
  }

  /** Step a releases packet n of peer p, and its nonce is accepted if it is asked for. */
  ghost predicate Admits(before: seq<Step>, a: Step, p: nat, n: Ptr) {
    && a.Judge? && a.valid && Lawful(Init, before) && Can(After(Init, before), a)
    && Exit(After(Init, before), a, p) == [n]
  }

  ghost predicate Admitted(run: seq<Step>, p: nat, n: Ptr) {
    exists i: nat :: i < |run| && Admits(run[..i], run[i], p, n)
  }

  // ---------------------------------------------------------------- one step longer

  lemma {:induction false} OneMore(s: State, run: seq<Step>, a: Step)
    requires Lawful(s, run + [a])
    ensures Lawful(s, run) && Can(After(s, run), a) && After(s, run + [a]) == Next(After(s, run), a)
    decreases run
  {
    hide Next, Can;
    if run == [] {
      assert (run + [a])[1..] == [];
    } else {
      assert (run + [a])[1..] == run[1..] + [a];
      OneMore(Next(s, run[0]), run[1..], a);
    }
  }

  lemma HistorySnoc(run: seq<Step>, a: Step, p: nat, n: Ptr)
    ensures Offered(run + [a], n) == (Offered(run, n) || (a.Insert? && a.nbl == n))
    ensures Decrypted(run + [a], n) == (Decrypted(run, n) || Decrypts(run, a, n))
    ensures Rejected(run + [a], n) == (Rejected(run, n) || (Marks(run, a, n) && !Decrypts(run, a, n)))
    ensures Admitted(run + [a], p, n) == (Admitted(run, p, n) || Admits(run, a, p, n))
  {
    hide Decrypts, Marks, Admits;
    var longer := run + [a];
    assert longer[|run|] == a && longer[..|run|] == run;
    assert forall i: nat :: i < |run| ==> longer[i] == run[i] && longer[..i] == run[..i];
  }

  lemma FromRingSnoc(run: seq<Step>, a: Step, t: ThreadId)
    ensures FromRing(run + [a], t) == (a == Fetch(t) || (a != Begin(t) && FromRing(run, t)))
  {
    assert (run + [a])[..|run|] == run;
  }

  // ---------------------------------------------------------------- which threads are workers

  /** Whether a thread with a chain has it from the ring. */
  function Role(th: Thread): Option<bool> {
    match th
    case Inserting(_) => Some(false)
    case Enqueuing(_, _) => Some(false)
    case Marking(_, worker) => Some(worker)
    case Waking(_, _, worker) => Some(worker)
    case _ => None
  }

  ghost predicate Roles(s: State, run: seq<Step>) {
    forall t :: t in s.threads && Role(s.threads[t]).Some? ==> Role(s.threads[t]) == Some(FromRing(run, t))
  }

  lemma TargetRole(s: State, a: Step)
    requires Can(s, a) && Target(s, a).Some? && Role(Target(s, a).value).Some?
    ensures Role(Target(s, a).value) ==
      if a.Begin? then Some(false) else if a.Fetch? then Some(true)
      else if a.t in s.threads then Role(s.threads[a.t]) else None
    ensures !a.Begin? ==> a.t in s.threads
  {
    hide Q, Pc;
  }

  lemma RolesKeep(s: State, run: seq<Step>, a: Step)
    requires Can(s, a) && Roles(s, run)
    ensures Roles(Next(s, a), run + [a])
  {
    hide Next, Can, Target, Role;
    StepLeads(s, a);
    var s' := Next(s, a);
    forall t | t in s'.threads && Role(s'.threads[t]).Some? ensures Role(s'.threads[t]) == Some(FromRing(run + [a], t)) {
      FromRingSnoc(run, a, t);
      hide FromRing;
      if t == a.t { TargetRole(s, a); }
    }
  }

  // ---------------------------------------------------------------- what a step stores

  lemma CryptStep(s: State, a: Step)
    requires Can(s, a)
    ensures Next(s, a).crypt == match a
      case Insert(_, n) => s.crypt[n := Uncrypted]
      case Mark(t, ok) => s.crypt[Upcoming(s, t) := if ok && s.threads[t].worker then Crypted else Dead]
      case _ => s.crypt
  {
    if Quiet(s, a) {
      hide Next, Quiet, Can;
      QuietKeeps(s, a);
    } else {
      hide BeginStep, EnqueueStep, HandStep, EndStep, FetchStep, PeekStep, JudgeStep, Q, Popped;
      match a
      case Serve(t) => PoppedOut(s, t, s.threads[t].final);
      case Peek(t) => PeekCrypt(s, t, s.threads[t].peer, s.threads[t].budget, s.threads[t].final);
      case Judge(t, valid) => JudgeCrypt(s, t, s.threads[t].peer, s.threads[t].budget, s.threads[t].final, valid);
      case _ =>
    }
  }

  lemma PlacesStay(s: State, a: Step, n: Ptr)
    requires Can(s, a)
    ensures n in s.place ==> n in Next(s, a).place
    ensures a.Insert? ==> a.nbl !in s.place && a.nbl in Next(s, a).place
  {
    hide Next;
    StepFits(s, a);
  }

  /** What is stored for n is what the run says. */
  ghost predicate Stored(s: State, run: seq<Step>, n: Ptr) {
    && (n in s.crypt <==> Offered(run, n))
    && (n in s.crypt && s.crypt[n].Crypted? <==> Decrypted(run, n))
    && (n in s.crypt && s.crypt[n].Dead? <==> Rejected(run, n))
    && (n in s.crypt ==> n in s.place)
  }

  /** A worker's marking decrypts if it succeeds; the packet was UNCRYPTED. */
  lemma MarkTold(run: seq<Step>, a: Step, n: Ptr)
    requires Lawful(Init, run) && a.Mark? && Can(After(Init, run), a)
    requires Custody(After(Init, run)) && Roles(After(Init, run), run)
    ensures var s := After(Init, run);
      && (Marks(run, a, n) <==> n == Upcoming(s, a.t))
      && (Decrypts(run, a, n) <==> n == Upcoming(s, a.t) && a.ok && s.threads[a.t].worker)
      && Upcoming(s, a.t) in s.crypt && s.crypt[Upcoming(s, a.t)].Uncrypted?
  {
    NextIsUncrypted(After(Init, run), a.t);
    hide After, Lawful, FromRing, Custody;
  }

  lemma OnlyMarks(run: seq<Step>, a: Step, n: Ptr)
    ensures Marks(run, a, n) ==> a.Mark?
    ensures Decrypts(run, a, n) ==> Marks(run, a, n)
  {
  }

  lemma StoredKeeps(run: seq<Step>, a: Step, n: Ptr)
    requires Lawful(Init, run) && Can(After(Init, run), a)
    requires Custody(After(Init, run)) && Roles(After(Init, run), run) && Stored(After(Init, run), run, n)
    ensures Stored(Next(After(Init, run), a), run + [a], n)
  {
    hide Next, Can, Lawful, After, Custody, Roles, Upcoming, Offered, Decrypted, Rejected, Admitted, Marks, Decrypts, Admits;
    hide Good, BatchInv, CarrierInv, PlaceInv, FromRing;
    var s := After(Init, run);
    OnlyMarks(run, a, n);
    HistorySnoc(run, a, 0, n);
    CryptStep(s, a);
    PlacesStay(s, a, n);
    if a.Mark? { MarkTold(run, a, n); }
  }

  lemma {:induction false} AlwaysStored(run: seq<Step>, n: Ptr)
    requires Lawful(Init, run)
    ensures var s := After(Init, run); Good(s) && Roles(s, run) && Stored(s, run, n)
    decreases |run|
  {
    hide Next, Can, Good, Stored;
    if run == [] {
      InitGood();
      NothingStored(n);
    } else {
      var before, a := run[..|run| - 1], run[|run| - 1];
      assert run == before + [a];
      OneMore(Init, before, a);
      AlwaysStored(before, n);
      GoodKeeps(After(Init, before), a);
      RolesKeep(After(Init, before), before, a);
      assert Custody(After(Init, before)) by { GoodCustody(After(Init, before)); }
      StoredKeeps(before, a, n);
    }
  }

  lemma NothingStored(n: Ptr)
    ensures Stored(Init, [], n)
  {
  }

  lemma GoodCustody(s: State)
    requires Good(s)
    ensures Custody(s)
  {
  }

  /** The state of a packet is CRYPTED exactly if a worker that took its chain from the ring decrypted it,
      DEAD exactly if it was marked in any other way, and UNCRYPTED exactly if it was offered and not marked. */
  lemma StateIff(run: seq<Step>, n: Ptr)
    requires Lawful(Init, run)
    ensures var crypt := After(Init, run).crypt;
      && (n in crypt <==> Offered(run, n))
      && (n in crypt && crypt[n].Crypted? <==> Decrypted(run, n))
      && (n in crypt && crypt[n].Dead? <==> Rejected(run, n))
      && (n in crypt && crypt[n].Uncrypted? <==> Offered(run, n) && forall i: nat :: i < |run| ==> !Marks(run[..i], run[i], n))
  {
    AlwaysStored(run, n);
    hide Lawful, After, Offered, Marks, Decrypts;
  }

  /** No packet is marked twice. */
  lemma MarkedOnce(run: seq<Step>, i: nat, j: nat, n: Ptr)
    requires Lawful(Init, run) && i < |run| && j < |run|
    requires Marks(run[..i], run[i], n) && Marks(run[..j], run[j], n)
    ensures i == j
  {
    if i < j { MarkedBefore(run, i, j, n); }
    if j < i { MarkedBefore(run, j, i, n); }
  }

  lemma MarkedBefore(run: seq<Step>, i: nat, j: nat, n: Ptr)
    requires i < j < |run| && Marks(run[..j], run[j], n)
    ensures !Marks(run[..i], run[i], n)
  {
    var before, a := run[..j], run[j];
    assert before[..i] == run[..i] && before[i] == run[i];
    StateIff(before, n);
    AlwaysStored(before, n);
    GoodCustody(After(Init, before));
    MarkTold(before, a, n);
    hide Lawful, After, Decrypts, Offered;
  }

  // ---------------------------------------------------------------- delivered or freed

  /** The packets of ns that are in `keep`, in their order. */
  ghost function Only(ns: seq<Ptr>, keep: iset<Ptr>): seq<Ptr> {
    if ns == [] then []
    else Only(ns[..|ns| - 1], keep) + if ns[|ns| - 1] in keep then [ns[|ns| - 1]] else []
  }

  lemma {:induction false} OnlySame(ns: seq<Ptr>, keep: iset<Ptr>, other: iset<Ptr>)
    requires forall n :: n in ns ==> (n in keep <==> n in other)
    ensures Only(ns, keep) == Only(ns, other)
    decreases |ns|
  {
    if ns != [] { OnlySame(ns[..|ns| - 1], keep, other); }
  }

  lemma OnlySnoc(ns: seq<Ptr>, e: seq<Ptr>, keep: iset<Ptr>)
    requires |e| <= 1
    ensures Only(ns + e, keep) == Only(ns, keep) + if e != [] && e[0] in keep then e else []
  {
    if e == [] { assert ns + e == ns; } else { assert (ns + e)[..|ns|] == ns; }
  }

  /** A worker decrypted it and CounterValidate accepts its nonce. */
  ghost function Passing(run: seq<Step>, p: nat): iset<Ptr> {
    iset n | Decrypted(run, n) && Admitted(run, p, n)
  }

  ghost function Failing(run: seq<Step>, p: nat): iset<Ptr> {
    iset n | !(Decrypted(run, n) && Admitted(run, p, n))
  }

  ghost predicate Sorted(s: State, run: seq<Step>, p: nat) {
    && Of(s.ends.up, p) == Only(Out(s, p), Passing(run, p))
    && Of(s.ends.freed, p) == Only(Out(s, p), Failing(run, p))
    && (forall n :: Admitted(run, p, n) ==> n in Out(s, p))
  }

  /** Every other step leaves alone what was released. */
  lemma EndsStay(s: State, a: Step)
    requires Can(s, a) && !(a.Judge? && !Quiet(s, a))
    ensures Next(s, a).ends == s.ends
  {
    if Quiet(s, a) {
      hide Next, Quiet, Can;
      QuietKeeps(s, a);
    } else {
      hide BeginStep, EnqueueStep, HandStep, EndStep, FetchStep, PeekStep, JudgeStep, Q, Popped;
      match a
      case Serve(t) => PoppedOut(s, t, s.threads[t].final);
      case Peek(t) => PeekCrypt(s, t, s.threads[t].peer, s.threads[t].budget, s.threads[t].final);
      case _ =>
    }
  }

  lemma JudgedEnds(s: State, t: ThreadId, p: nat, budget: nat, final: bool, valid: bool, r: nat)
    requires p in s.peeked && s.peeked[p] in s.crypt && budget > 0 && !s.crypt[s.peeked[p]].Uncrypted?
    ensures var n, e := s.peeked[p], JudgeStep(s, t, p, budget, final, valid).ends;
      && Of(e.up, r) == Of(s.ends.up, r) + (if r == p && s.crypt[n].Crypted? && valid then [n] else [])
      && Of(e.freed, r) == Of(s.ends.freed, r) + if r == p && !(s.crypt[n].Crypted? && valid) then [n] else []
  {
  }

  /** A packet released has its state stored; it goes up exactly if it is CRYPTED and its nonce accepted. */
  lemma EndsStep(s: State, a: Step, p: nat)
    requires Can(s, a)
    ensures var e, s' := Exit(s, a, p), Next(s, a);
      && |e| <= 1 && (e != [] ==> a.Judge? && e[0] in s.crypt)
      && var good := e != [] && s.crypt[e[0]].Crypted? && a.valid;
      && Of(s'.ends.up, p) == Of(s.ends.up, p) + (if good then e else [])
      && Of(s'.ends.freed, p) == Of(s.ends.freed, p) + if good then [] else e
  {
    if a.Judge? && !Quiet(s, a) {
      hide BeginStep, EnqueueStep, HandStep, EndStep, FetchStep, PeekStep, JudgeStep, Q, Popped;
      JudgedEnds(s, a.t, s.threads[a.t].peer, s.threads[a.t].budget, s.threads[a.t].final, a.valid, p);
    } else {
      EndsStay(s, a);
    }
  }

  lemma AdmittedSnoc(run: seq<Step>, a: Step, p: nat, n: Ptr)
    requires Lawful(Init, run) && Can(After(Init, run), a)
    ensures Admitted(run + [a], p, n)
         == (Admitted(run, p, n) || (a.Judge? && a.valid && Exit(After(Init, run), a, p) == [n]))
  {
    HistorySnoc(run, a, p, n);
    hide Lawful, After, Exit, Can, Admitted;
  }

  /** A packet released before does not change its state any more. */
  lemma OutSettled(run: seq<Step>, a: Step, p: nat, n: Ptr)
    requires Lawful(Init, run) && Can(After(Init, run), a)
    requires n in Out(After(Init, run), p) || !a.Mark?
    ensures Decrypted(run + [a], n) == Decrypted(run, n)
    ensures var s := After(Init, run); Decrypted(run, n) == (n in s.crypt && s.crypt[n].Crypted?)
  {
    var s := After(Init, run);
    HistorySnoc(run, a, p, n);
    AlwaysStored(run, n);
    OnlyMarks(run, a, n);
    GoodQueue(s, p);
    GoodCustody(s);
    if a.Mark? { MarkTold(run, a, n); }
    hide Lawful, After, Decrypted, Decrypts, Marks, Upcoming, Good, Custody, Roles, Can;
  }

  /** What is released now was not released before. */
  lemma OutOnce(run: seq<Step>, a: Step, p: nat, n: Ptr)
    requires Lawful(Init, run + [a]) && Lawful(Init, run) && Can(After(Init, run), a)
    requires After(Init, run + [a]) == Next(After(Init, run), a)
    requires Exit(After(Init, run), a, p) == [n]
    ensures n !in Out(After(Init, run), p)
  {
    hide Lawful, After, Next, Can, Exit, Exits, Entries, Good, Out, Unacknowledged, Contents;
    var s := After(Init, run);
    ReleasedInOrder(run + [a], p);
    ReachedGood(run + [a], p);
    ExitStep(s, a, p);
    var out := Out(s, p) + [n];
    assert Distinct(out);
    assert out[|out| - 1] == n;
    forall i | 0 <= i < |Out(s, p)| ensures Out(s, p)[i] != n { assert out[i] == Out(s, p)[i]; }
  }

  /** One more release, of a packet that is kept or not. */
  lemma OnlyStep(ns: seq<Ptr>, e: seq<Ptr>, keep: iset<Ptr>, keep': iset<Ptr>)
    requires |e| <= 1 && forall n :: n in ns ==> (n in keep <==> n in keep')
    ensures Only(ns + e, keep') == Only(ns, keep) + if e != [] && e[0] in keep' then e else []
  {
    OnlySame(ns, keep, keep');
    OnlySnoc(ns, e, keep');
  }

  /** Of what was released nothing changes; what is released now is sorted by its state and its nonce. */
  lemma PassingStep(run: seq<Step>, a: Step, p: nat, n: Ptr)
    requires Lawful(Init, run + [a]) && Lawful(Init, run) && Can(After(Init, run), a)
    requires After(Init, run + [a]) == Next(After(Init, run), a)
    requires forall m :: Admitted(run, p, m) ==> m in Out(After(Init, run), p)
    ensures var s, e := After(Init, run), Exit(After(Init, run), a, p);
      && (Admitted(run + [a], p, n) ==> n in Out(s, p) + e)
      && (n in Out(s, p) ==> (n in Passing(run + [a], p) <==> n in Passing(run, p)))
      && (e == [n] ==> a.Judge? && n in s.crypt && (n in Passing(run + [a], p) <==> s.crypt[n].Crypted? && a.valid))
  {
    hide Lawful, After, Next, Can, Exit, Decrypted, Admitted, Out;
    var s, e := After(Init, run), Exit(After(Init, run), a, p);
    AdmittedSnoc(run, a, p, n);
    EndsStep(s, a, p);
    if e == [n] { OutOnce(run, a, p, n); }
    if n in Out(s, p) || !a.Mark? { OutSettled(run, a, p, n); }
  }

  lemma SortedKeeps(run: seq<Step>, a: Step, p: nat)
    requires Lawful(Init, run + [a]) && Lawful(Init, run) && Can(After(Init, run), a)
    requires After(Init, run + [a]) == Next(After(Init, run), a)
    requires Sorted(After(Init, run), run, p)
    ensures Sorted(Next(After(Init, run), a), run + [a], p)
  {
    hide Lawful, After, Next, Can, Exit, Decrypted, Admitted, Out, Only, Passing, Failing;
    var s, e := After(Init, run), Exit(After(Init, run), a, p);
    EndsStep(s, a, p);
    ExitStep(s, a, p);
    forall n
      ensures Admitted(run + [a], p, n) ==> n in Out(s, p) + e
      ensures n in Out(s, p) ==> (n in Passing(run + [a], p) <==> n in Passing(run, p))
      ensures e == [n] ==> (n in Passing(run + [a], p) <==> s.crypt[n].Crypted? && a.valid)
    {
      PassingStep(run, a, p, n);
    }
    Complement(run, p);
    Complement(run + [a], p);
    OnlyStep(Out(s, p), e, Passing(run, p), Passing(run + [a], p));
    OnlyStep(Out(s, p), e, Failing(run, p), Failing(run + [a], p));
    if e != [] { assert e == [e[0]]; }
  }

  lemma Complement(run: seq<Step>, p: nat)
    ensures forall n :: n in Failing(run, p) <==> n !in Passing(run, p)
  {
    hide Decrypted, Admitted;
  }

  lemma NothingSorted(p: nat)
    ensures Sorted(Init, [], p)
  {
  }

  lemma {:induction false} AlwaysSorted(run: seq<Step>, p: nat)
    requires Lawful(Init, run)
    ensures Sorted(After(Init, run), run, p)
    decreases |run|
  {
    hide Next, Can, Sorted;
    if run == [] {
      NothingSorted(p);
    } else {
      var before, a := run[..|run| - 1], run[|run| - 1];
      assert run == before + [a];
      OneMore(Init, before, a);
      AlwaysSorted(before, p);
      SortedKeeps(before, a, p);
    }
  }

  /** Of the packets released for a peer, in the order in which they entered its queue, exactly those that a
      worker decrypted and whose nonce is accepted go up the stack, and all others are freed. */
  lemma DeliveredInOrder(run: seq<Step>, p: nat)
    requires Lawful(Init, run)
    ensures |Exits(Init, run, p)| <= |Entries(Init, run, p)|
    ensures var released, ends := Entries(Init, run, p)[..|Exits(Init, run, p)|], After(Init, run).ends;
      && Of(ends.up, p) == Only(released, iset n | Decrypted(run, n) && Admitted(run, p, n))
      && Of(ends.freed, p) == Only(released, iset n | !(Decrypted(run, n) && Admitted(run, p, n)))
  {
    hide Lawful, Entries, Exits, After, Decrypted, Admitted, Only, Good, Contents, Unacknowledged;
    ReleasedInOrder(run, p);
    ReachedGood(run, p);
    AlwaysSorted(run, p);
    var released := Exits(Init, run, p);
    assert Entries(Init, run, p)[..|released|] == released;
  }

  /** When everything has come to rest, no packet that decrypted and has a fresh nonce is missing above. */
  lemma RestDelivers(run: seq<Step>, p: nat)
    requires Lawful(Init, run)
    requires After(Init, run).threads == map[] && !After(Init, run).signal
    ensures Of(After(Init, run).ends.up, p)
         == Only(Entries(Init, run, p), iset n | Decrypted(run, n) && Admitted(run, p, n))
  {
    hide Lawful, Entries, Exits, After, Decrypted, Admitted, Only;
    RestReleasesAll(run, p);
    DeliveredInOrder(run, p);
    assert Entries(Init, run, p)[..|Entries(Init, run, p)|] == Entries(Init, run, p);
  }
}
