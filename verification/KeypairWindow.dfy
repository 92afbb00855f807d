/** NoiseHandshakeBeginSession takes two locks one after the other: a keypair is put into its slot under
    the first and into the index table under the second. What can happen in between. */
module KeypairWindow {
  import opened Keypairs

  /** While the handshake's lock is held no other session begins and the handshake keeps its index. */
  predicate Between(a: Step) {
    a.Received? || a.ClearAll? || a.GetOne? || a.PutOne?
  }

  function Added(s: Session, k: Id, initiator: bool): Session {
    AddNew(Create(s, k, initiator), k)
  }

  /** Keypair k waits for its index: in its slot, or in none as all the slots are empty. */
  ghost predicate Waits(s: Session, k: Id, cleared: bool, hashed: map<Entry, nat>) {
    && Inv(s) && Shrinks(hashed, s.hashed, k) && k in s.initiator
    && if cleared then s.current == s.previous == s.next == None
       else s.next == Some(k) || (s.current == Some(k) && s.next == None)
  }

  lemma EvictCreated(s: Session, a: Option<Id>)
    ensures Evict(s, a).initiator == s.initiator
  {
  }

  lemma AddedCreated(s: Session, k: Id, initiator: bool)
    ensures k in Added(s, k, initiator).initiator
  {
    var c := Create(s, k, initiator);
    EvictCreated(c.(next := None, previous := s.next), s.current);
    EvictCreated(Evict(c.(next := None, previous := s.next), s.current), s.previous);
    EvictCreated(c.(previous := s.current), s.previous);
    EvictCreated(c.(next := Some(k)), s.next);
    EvictCreated(Evict(c.(next := Some(k)), s.next).(previous := None), s.previous);
    EvictOthersSlots(c.(next := None, previous := s.next), s.current);
    EvictOthersSlots(c.(next := Some(k)), s.next);
    hide Evict;
  }

  lemma AddedWaits(s: Session, k: Id, initiator: bool)
    requires Inv(s) && k !in s.initiator
    ensures Waits(Added(s, k, initiator), k, false, s.hashed)
  {
    if initiator {
      if s.next.Some? { AddOverNext(s, k); } else { AddOverNone(s, k); }
    } else {
      AddResponder(s, k);
    }
    AddKeepsTable(s, k, initiator);
    AddedCreated(s, k, initiator);
    hide AddNew, Inv, Shrinks;
  }

  lemma DropOthers(s: Session, j: Id, k: Id, hashed: map<Entry, nat>)
    requires j in s.refs && Shrinks(hashed, s.hashed, k)
    ensures Shrinks(hashed, Drop(s, j).hashed, k)
    ensures var s' := Drop(s, j); s'.current == s.current && s'.previous == s.previous && s'.next == s.next
  {
  }

  lemma ClearWaits(s: Session, k: Id, cleared: bool, hashed: map<Entry, nat>)
    requires Waits(s, k, cleared, hashed)
    ensures Waits(Clear(s), k, true, hashed)
  {
    ClearKeeps(s);
    hide Inv, Shrinks, Evict;
    var s0 := s.(next := None);
    ShrinksOn(s0, s.next, hashed, k);
    var s1 := Evict(s0, s.next);
    ShrinksOn(s1.(previous := None), s1.previous, hashed, k);
    var s2 := Evict(s1.(previous := None), s1.previous);
    ShrinksOn(s2.(current := None), s2.current, hashed, k);
  }

  lemma ShrinksOn(s: Session, a: Option<Id>, hashed: map<Entry, nat>, k: Id)
    requires Shrinks(hashed, s.hashed, k)
    ensures var s' := Evict(s, a);
      && Shrinks(hashed, s'.hashed, k) && s'.initiator == s.initiator
      && s'.current == s.current && s'.previous == s.previous && s'.next == s.next
  {
    EvictShrinks(s, a, hashed, k);
    EvictCreated(s, a);
    EvictOthersSlots(s, a);
    hide Evict, Shrinks;
  }

  lemma ConfirmWaits(s: Session, j: Id, k: Id, cleared: bool, hashed: map<Entry, nat>)
    requires Waits(s, k, cleared, hashed)
    ensures Waits(Confirm(s, j), k, cleared, hashed)
  {
    ConfirmKeeps(s, j);
    hide Inv, Shrinks, Evict;
    EvictShrinks(s.(previous := s.current), s.previous, hashed, k);
  }

  lemma StepWaits(s: Session, a: Step, k: Id, cleared: bool, hashed: map<Entry, nat>)
    requires Waits(s, k, cleared, hashed) && Between(a) && Can(s, a)
    ensures Waits(Next(s, a), k, cleared || a.ClearAll?, hashed)
  {
    StepKeeps(s, a);
    hide Inv, Evict, Confirm, Clear;
    match a
    case Received(j) => ConfirmWaits(s, j, k, cleared, hashed);
    case ClearAll => ClearWaits(s, k, cleared, hashed);
    case PutOne(j) => DropOthers(s, j, k, hashed);
    case GetOne(j) =>
  }

  lemma {:induction false} WindowWaits(s: Session, window: seq<Step>, k: Id, cleared: bool, hashed: map<Entry, nat>)
    requires Waits(s, k, cleared, hashed) && Lawful(s, window) && (forall a :: a in window ==> Between(a))
    ensures Waits(After(s, window), k, cleared || ClearAll in window, hashed)
    decreases window
  {
    hide Waits, Next, Can;
    if window != [] {
      StepWaits(s, window[0], k, cleared, hashed);
      WindowWaits(Next(s, window[0]), window[1..], k, cleared || window[0].ClearAll?, hashed);
    }
  }

  /** The index of the handshake leads to k. That is in a slot, and the invariant of sessions holds, just
      when the slots were not cleared; otherwise k has the references that were got, and is freed if there
      are none, and its index leads to it all the same. */
  ghost predicate Ends(e: Session, k: Id, cleared: bool, hashed: map<Entry, nat>) {
    && (Handshake in hashed ==> Finds(e, hashed[Handshake], Keypair(k)))
    && Slots(e.current, e.previous, e.next, k) == (if cleared then 0 else 1)
    && (Inv(e) <==> !cleared || Handshake !in hashed)
    && (cleared ==> if Gets(e, k) == 0 then k in e.freed else k in e.refs && e.refs[k] == Gets(e, k))
  }

  /** Whatever falls between the two sections, what comes of it depends only on whether
      NoiseKeypairsClear did. */
  lemma WindowIff(run: seq<Step>, k: Id, initiator: bool, window: seq<Step>)
    requires Lawful(Blank, run) && k !in After(Blank, run).initiator
    requires Lawful(Added(After(Blank, run), k, initiator), window) && forall a :: a in window ==> Between(a)
    ensures var s := After(Blank, run);
      var w := After(Added(s, k, initiator), window);
      Ends(Replace(w, Handshake, Keypair(k)), k, ClearAll in window, s.hashed)
  {
    hide After, Lawful, Added, Ends, Waits, Inv, Replace;
    var s := After(Blank, run);
    BlankFits();
    RunKeeps(Blank, run);
    AddedWaits(s, k, initiator);
    WindowWaits(Added(s, k, initiator), window, k, false, s.hashed);
    WaitsOver(After(Added(s, k, initiator), window), k, ClearAll in window, s.hashed);
  }

  lemma WaitsOver(w: Session, k: Id, cleared: bool, hashed: map<Entry, nat>)
    requires Waits(w, k, cleared, hashed)
    ensures Ends(Replace(w, Handshake, Keypair(k)), k, cleared, hashed)
  {
    if !cleared { ReplaceKeeps(w, k); }
    assert RefFits(w, k);
  }

  /** Without anything in between it is the one step of sessions. */
  lemma WindowClosed(s: Session, k: Id, initiator: bool)
    requires k !in s.initiator
    ensures Replace(After(Added(s, k, initiator), []), Handshake, Keypair(k)) == Next(s, BeginSession(k, initiator))
  {
  }
}
