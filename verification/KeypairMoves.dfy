/** What each operation on the slots does to every keypair: which ones are given up, and that all others
    keep their references and their indices (driver/noise.c). */
module KeypairMoves {
  import opened Keypairs

  /** An entry has the same index in both, or none. */
  ghost predicate Indices(s: Session, s': Session, e: Entry) {
    (e in s'.hashed <==> e in s.hashed) && (e in s.hashed ==> s'.hashed[e] == s.hashed[e])
  }

  /** Keypair j has the same references and the same index in both. */
  ghost predicate Same(s: Session, s': Session, j: Id) {
    && (j in s'.refs <==> j in s.refs) && (j in s.refs ==> s'.refs[j] == s.refs[j])
    && Indices(s, s', Keypair(j))
    && (j in s'.freed <==> j in s.freed)
  }

  /** Keypair j has lost its index and one reference, and is freed if that was its last. */
  ghost predicate Lost(s: Session, s': Session, j: Id) {
    && Keypair(j) !in s'.hashed && j in s.refs
    && (if s.refs[j] == 1 then j !in s'.refs && j in s'.freed
        else j in s'.refs && s'.refs[j] == s.refs[j] - 1 && (j in s'.freed <==> j in s.freed))
  }

  /** The keypairs of `gone` have been given up; the others, but for a new one, are as they were. */
  ghost predicate GivesUp(s: Session, s': Session, gone: set<Id>, added: Option<Id>) {
    && (forall j: nat :: j in gone ==> Lost(s, s', j))
    && (forall j: nat :: j !in gone && added != Some(j) ==> Same(s, s', j))
  }

  function Ids(slot: Option<Id>): set<Id> {
    if slot.Some? then {slot.value} else {}
  }

  lemma EvictGives(s: Session, a: Option<Id>)
    requires a.Some? ==> a.value in s.refs
    ensures GivesUp(s, Evict(s, a), Ids(a), None)
    ensures Indices(s, Evict(s, a), Handshake)
  {
  }

  lemma GivesBoth(s: Session, m: Session, s': Session, a: set<Id>, b: set<Id>)
    requires GivesUp(s, m, a, None) && GivesUp(m, s', b, None) && a !! b
    ensures GivesUp(s, s', a + b, None)
  {
    forall j: nat | j in a + b ensures Lost(s, s', j) {
      if j in a { assert Lost(s, m, j) && Same(m, s', j); } else { assert Same(s, m, j) && Lost(m, s', j); }
    }
    forall j: nat | j !in a + b ensures Same(s, s', j) { assert Same(s, m, j) && Same(m, s', j); }
  }

  /** A keypair in a slot has a reference. */
  lemma SlotHeld(s: Session, k: Id)
    requires Refs(s) && (s.current == Some(k) || s.previous == Some(k) || s.next == Some(k))
    ensures k in s.refs
  {
    assert RefFits(s, k);
  }

  lemma SlotsApart(s: Session)
    requires Inv(s)
    ensures Ids(s.current) !! Ids(s.previous) && Ids(s.current) !! Ids(s.next) && Ids(s.previous) !! Ids(s.next)
    ensures forall k: nat :: k in Ids(s.current) + Ids(s.previous) + Ids(s.next) ==> k in s.refs
  {
    hide Reachable, Indexed, FreedOnce, Confirmed;
    forall k: nat | k in Ids(s.current) + Ids(s.previous) + Ids(s.next) ensures k in s.refs { SlotHeld(s, k); }
  }

  /** Two keypairs are given up, whatever happens to the slots in between. */
  lemma EvictTwo(s: Session, s0: Session, s1: Session, a: Option<Id>, b: Option<Id>)
    requires s0.refs == s.refs && s0.hashed == s.hashed && s0.freed == s.freed
    requires s1.refs == Evict(s0, a).refs && s1.hashed == Evict(s0, a).hashed && s1.freed == Evict(s0, a).freed
    requires Ids(a) !! Ids(b) && (a.Some? ==> a.value in s.refs) && (b.Some? ==> b.value in s.refs)
    ensures GivesUp(s, Evict(s1, b), Ids(a) + Ids(b), None)
    ensures Indices(s, Evict(s1, b), Handshake)
  {
    EvictGives(s0, a);
    hide Evict;
    assert b.Some? ==> Same(s0, Evict(s0, a), b.value);
    EvictGives(s1, b);
    Reread(s0, Evict(s0, a), s, s1, Ids(a));
    GivesBoth(s, s1, Evict(s1, b), Ids(a), Ids(b));
  }

  /** Only the counts, the table and what was freed matter. */
  lemma Reread(s: Session, s': Session, r: Session, r': Session, gone: set<Id>)
    requires GivesUp(s, s', gone, None)
    requires r.refs == s.refs && r.hashed == s.hashed && r.freed == s.freed
    requires r'.refs == s'.refs && r'.hashed == s'.hashed && r'.freed == s'.freed
    ensures GivesUp(r, r', gone, None)
  {
    forall j: nat | j in gone ensures Lost(r, r', j) { assert Lost(s, s', j); }
    forall j: nat | j !in gone ensures Same(r, r', j) { assert Same(s, s', j); }
  }

  // ---------------------------------------------------------------- the operations

  /** The first packet under the next keypair: it becomes current, the current one previous, and only the
      previous one is given up. */
  lemma ConfirmMoves(s: Session, k: Id)
    requires Inv(s)
    ensures var s' := Confirm(s, k);
      if s.next == Some(k)
      then s'.current == Some(k) && s'.previous == s.current && s'.next == None && GivesUp(s, s', Ids(s.previous), None)
           && Indices(s, s', Handshake)
      else s' == s
  {
    if s.next == Some(k) {
      SlotsApart(s);
      var s0 := s.(previous := s.current);
      EvictOthersSlots(s0, s.previous);
      EvictGives(s0, s.previous);
      hide Evict, Inv;
      Reread(s0, Evict(s0, s.previous), s, Confirm(s, k), Ids(s.previous));
      hide GivesUp;
    }
  }

  /** Clearing gives up what is in the slots. */
  lemma ClearMoves(s: Session)
    requires Inv(s)
    ensures var s' := Clear(s);
      && s'.current == None && s'.previous == None && s'.next == None
      && GivesUp(s, s', Ids(s.next) + Ids(s.previous) + Ids(s.current), None)
      && Indices(s, s', Handshake)
  {
    SlotsApart(s);
    var s1 := Evict(s.(next := None), s.next);
    var s2 := Evict(s1.(previous := None), s1.previous);
    EvictOthersSlots(s.(next := None), s.next);
    EvictOthersSlots(s1.(previous := None), s1.previous);
    EvictOthersSlots(s2.(current := None), s2.current);
    EvictTwo(s, s.(next := None), s1.(previous := None), s.next, s.previous);
    hide Inv, Evict;
    var gone := Ids(s.next) + Ids(s.previous);
    assert s.current.Some? ==> Same(s, s2, s.current.value);
    EvictGives(s2.(current := None), s.current);
    Reread(s2.(current := None), Clear(s), s2, Clear(s), Ids(s.current));
    GivesBoth(s, s2, Clear(s), gone, Ids(s.current));
    hide GivesUp;
  }

  /** What a new keypair pushes out: as the initiator the current and the previous one if one was waiting to
      be confirmed, and otherwise the previous one; as the responder the waiting and the previous one. */
  function Displaced(s: Session, initiator: bool): set<Id> {
    if !initiator then Ids(s.next) + Ids(s.previous)
    else if s.next.Some? then Ids(s.current) + Ids(s.previous)
    else Ids(s.previous)
  }

  /** From c to s' only these keypairs were given up. */
  ghost predicate Adds(c: Session, s': Session, gone: set<Id>) {
    GivesUp(c, s', gone, None) && Indices(c, s', Handshake) && s'.initiator == c.initiator
  }

  lemma AddsResponder(s: Session, k: Id)
    requires Inv(s) && k !in s.initiator
    ensures Adds(Create(s, k, false), AddNew(Create(s, k, false), k), Ids(s.next) + Ids(s.previous))
  {
    SlotsApart(s);
    var c := Create(s, k, false);
    var m := Evict(c.(next := Some(k)), s.next);
    EvictAside(c.(next := Some(k)), s.next);
    EvictAside(m.(previous := None), s.previous);
    hide Inv, Evict, GivesUp, Indices;
    EvictTwo(c, c.(next := Some(k)), m.(previous := None), s.next, s.previous);
  }

  lemma AddsOverNext(s: Session, k: Id)
    requires Inv(s) && k !in s.initiator && s.next.Some?
    ensures Adds(Create(s, k, true), AddNew(Create(s, k, true), k), Ids(s.current) + Ids(s.previous))
  {
    SlotsApart(s);
    var c := Create(s, k, true);
    var c1 := c.(next := None, previous := s.next);
    EvictAside(c1, s.current);
    EvictAside(Evict(c1, s.current), s.previous);
    hide Inv, Evict, GivesUp, Indices;
    EvictTwo(c, c1, Evict(c1, s.current), s.current, s.previous);
    Slotless(c, Evict(Evict(c1, s.current), s.previous), AddNew(c, k), Ids(s.current) + Ids(s.previous));
  }

  lemma AddsOverNone(s: Session, k: Id)
    requires Inv(s) && k !in s.initiator && s.next.None?
    ensures Adds(Create(s, k, true), AddNew(Create(s, k, true), k), Ids(s.previous))
  {
    SlotsApart(s);
    var c := Create(s, k, true);
    var c1 := c.(previous := s.current);
    EvictAside(c1, s.previous);
    EvictGives(c1, s.previous);
    hide Inv, Evict, GivesUp;
    Reread(c1, Evict(c1, s.previous), c, AddNew(c, k), Ids(s.previous));
  }

  lemma Slotless(c: Session, m: Session, s': Session, gone: set<Id>)
    requires GivesUp(c, m, gone, None) && Indices(c, m, Handshake) && m.initiator == c.initiator
    requires s'.refs == m.refs && s'.hashed == m.hashed && s'.freed == m.freed && s'.initiator == m.initiator
    ensures Adds(c, s', gone)
  {
    Reread(c, m, c, s', gone);
    hide GivesUp;
  }

  lemma AddMoves(s: Session, k: Id, initiator: bool)
    requires Inv(s) && k !in s.initiator
    ensures Adds(Create(s, k, initiator), AddNew(Create(s, k, initiator), k), Displaced(s, initiator))
  {
    hide Inv, Adds, AddNew, Create;
    if !initiator { AddsResponder(s, k); } else if s.next.Some? { AddsOverNext(s, k); } else { AddsOverNone(s, k); }
  }

  lemma EvictAside(s: Session, a: Option<Id>)
    ensures Evict(s, a).initiator == s.initiator
    ensures Evict(s, a).current == s.current && Evict(s, a).previous == s.previous && Evict(s, a).next == s.next
  {
  }

  lemma NotDisplaced(s: Session, k: Id, initiator: bool)
    requires Inv(s) && k !in s.initiator
    ensures k !in Displaced(s, initiator)
  {
    CreateFits(s, k, initiator);
  }

  /** With the new keypair k left out, nothing else happened to keypairs. */
  lemma ReplaceMoves(s: Session, m: Session, k: Id, initiator: bool, gone: set<Id>)
    requires Adds(Create(s, k, initiator), m, gone) && k !in gone && Keypair(k) !in m.hashed
    ensures var s' := Replace(m, Handshake, Keypair(k));
      && GivesUp(s, s', gone, Some(k))
      && k in s'.refs && s'.refs[k] == 1 && k in s'.initiator && s'.initiator[k] == initiator
      && Handshake !in s'.hashed && (Keypair(k) in s'.hashed <==> Handshake in s.hashed)
      && (Handshake in s.hashed ==> s'.hashed[Keypair(k)] == s.hashed[Handshake])
  {
    var c, s' := Create(s, k, initiator), Replace(m, Handshake, Keypair(k));
    assert Same(c, m, k);
    forall j: nat | j in gone ensures Lost(s, s', j) { assert Lost(c, m, j); }
    forall j: nat | j !in gone && j != k ensures Same(s, s', j) { assert Same(c, m, j); }
  }

  /** A new keypair has one reference and the index of the handshake, which leaves the table; only what it
      displaces is given up. */
  lemma BeginMoves(s: Session, k: Id, initiator: bool)
    requires Inv(s) && k !in s.initiator
    ensures var s' := Begin(s, k, initiator);
      && Rotated(s, s', k, initiator) && GivesUp(s, s', Displaced(s, initiator), Some(k))
      && k in s'.refs && s'.refs[k] == 1 && k in s'.initiator && s'.initiator[k] == initiator
      && Handshake !in s'.hashed && (Keypair(k) in s'.hashed <==> Handshake in s.hashed)
      && (Handshake in s.hashed ==> s'.hashed[Keypair(k)] == s.hashed[Handshake])
  {
    hide Inv, AddNew, Replace, GivesUp, Displaced, Rotated, Adds;
    BeginKeeps(s, k, initiator);
    AddMoves(s, k, initiator);
    AddKeepsTable(s, k, initiator);
    NotDisplaced(s, k, initiator);
    ReplaceMoves(s, AddNew(Create(s, k, initiator), k), k, initiator, Displaced(s, initiator));
  }
}
