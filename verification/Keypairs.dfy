/** The three keypair slots of a peer, their reference counts, and the entries of the peer in the index
    table (driver/noise.c, driver/interlocked.h, driver/peerlookup.c). Each operation is one step. */
module Keypairs {
  type Id = nat

  datatype Option<+T> = None | Some(value: T)

  /** What an index leads to: the peer's handshake or one of its keypairs. */
  datatype Entry = Handshake | Keypair(id: Id)

  /** The slots, the keypairs that have not been freed with their reference counts, and the index of
      every entry that is hashed. The other fields are history: how often a keypair is held by a get
      that has not been put, the keypairs freed so far, and those that were confirmed. */
  datatype Session = Session(
    current: Option<Id>, previous: Option<Id>, next: Option<Id>,
    refs: map<Id, int>, initiator: map<Id, bool>, hashed: map<Entry, nat>,
    gets: map<Id, nat>, freed: seq<Id>, confirmed: set<Id>)

  const Blank: Session := Session(None, None, None, map[], map[], map[], map[], [], {})

  function Gets(s: Session, k: Id): nat {
    if k in s.gets then s.gets[k] else 0
  }

  // ---------------------------------------------------------------- the index table

  function Unhash(s: Session, e: Entry): Session {
    s.(hashed := s.hashed - {e})
  }

  /** IndexHashtableInsert: `index` is the number that was found unused. */
  function Insert(s: Session, e: Entry, index: nat): Session {
    Unhash(s, e).(hashed := (s.hashed - {e})[e := index])
  }

  /** IndexHashtableReplace: nothing happens if the old entry is not hashed. */
  function Replace(s: Session, was: Entry, now: Entry): Session {
    if was in s.hashed then s.(hashed := (s.hashed - {was})[now := s.hashed[was]]) else s
  }

  predicate Finds(s: Session, index: nat, e: Entry) {
    e in s.hashed && s.hashed[e] == index
  }

  predicate Unused(s: Session, index: nat) {
    forall e :: e in s.hashed ==> s.hashed[e] != index
  }

  // ---------------------------------------------------------------- references

  function Free(s: Session, k: Id): Session {
    Unhash(s, Keypair(k)).(refs := s.refs - {k}, freed := s.freed + [k])
  }

  /** KrefPut */
  function Drop(s: Session, k: Id): Session
    requires k in s.refs
  {
    if s.refs[k] == 1 then Free(s, k) else s.(refs := s.refs[k := s.refs[k] - 1])
  }

  /** NoiseKeypairPut with UnreferenceNow, for a slot's keypair. */
  function Evict(s: Session, k: Option<Id>): Session {
    if k.Some? && k.value in s.refs then Drop(Unhash(s, Keypair(k.value)), k.value) else s
  }

  /** NoiseKeypairGet: fails on a keypair without references. */
  function Get(s: Session, k: Id): Session {
    if k in s.refs then s.(refs := s.refs[k := s.refs[k] + 1], gets := s.gets[k := Gets(s, k) + 1]) else s
  }

  /** NoiseKeypairPut of a keypair that was got. */
  function Put(s: Session, k: Id): Session
    requires k in s.refs && Gets(s, k) > 0
  {
    Drop(s, k).(gets := s.gets[k := Gets(s, k) - 1])
  }

  // ---------------------------------------------------------------- the slots

  function Create(s: Session, k: Id, initiator: bool): Session {
    s.(refs := s.refs[k := 1], initiator := s.initiator[k := initiator])
  }

  /** AddNewKeypair */
  function AddNew(s: Session, k: Id): Session
    requires k in s.initiator
  {
    if s.initiator[k] then
      if s.next.Some? then
        Evict(Evict(s.(next := None, previous := s.next), s.current), s.previous).(current := Some(k))
      else
        Evict(s.(previous := s.current), s.previous).(current := Some(k))
    else
      Evict(Evict(s.(next := Some(k)), s.next).(previous := None), s.previous)
  }

  /** NoiseHandshakeBeginSession, once the handshake is complete and the keypair allocated. */
  function Begin(s: Session, k: Id, initiator: bool): Session {
    Replace(AddNew(Create(s, k, initiator), k), Handshake, Keypair(k))
  }

  /** NoiseReceivedWithKeypair */
  function Confirm(s: Session, k: Id): Session {
    if s.next == Some(k) then
      Evict(s.(previous := s.current), s.previous).(current := Some(k), next := None, confirmed := s.confirmed + {k})
    else s
  }

  /** NoiseKeypairsClear */
  function Clear(s: Session): Session {
    var s1 := Evict(s.(next := None), s.next);
    var s2 := Evict(s1.(previous := None), s1.previous);
    Evict(s2.(current := None), s2.current)
  }

  // ---------------------------------------------------------------- the invariant

  function Holds(slot: Option<Id>, k: Id): int {
    if slot == Some(k) then 1 else 0
  }

  function Slots(current: Option<Id>, previous: Option<Id>, next: Option<Id>, k: Id): int {
    Holds(current, k) + Holds(previous, k) + Holds(next, k)
  }

  /** A keypair has `held` references, `slots` of them from slots and the others from gets. */
  predicate Counted(refs: map<Id, int>, k: Id, slots: int, gets: nat) {
    if k in refs then refs[k] == slots + gets && refs[k] > 0 else slots == 0 && gets == 0
  }

  /** A keypair has one reference for every slot and every get, and at least one until it is freed. */
  ghost predicate RefFits(s: Session, k: Id) {
    Counted(s.refs, k, Slots(s.current, s.previous, s.next, k), Gets(s, k))
  }

  ghost predicate Refs(s: Session) {
    forall k: nat :: RefFits(s, k)
  }

  ghost predicate Apart(s: Session) {
    && (s.current.Some? ==> s.current != s.previous && s.current != s.next)
    && (s.previous.Some? ==> s.previous != s.next)
  }

  /** A keypair that an index leads to is in a slot. */
  ghost predicate Reachable(s: Session) {
    forall k: nat :: Keypair(k) in s.hashed ==> Slots(s.current, s.previous, s.next, k) == 1
  }

  /** Different entries have different indices. */
  ghost predicate Indexed(hashed: map<Entry, nat>) {
    forall e, f :: e in hashed && f in hashed && hashed[e] == hashed[f] ==> e == f
  }

  /** No keypair is freed twice; what is freed is not in use and was in use. */
  ghost predicate FreedOnce(s: Session) {
    && (forall i, j :: 0 <= i < j < |s.freed| ==> s.freed[i] != s.freed[j])
    && (forall k :: k in s.freed ==> k in s.initiator && k !in s.refs)
    && (forall k :: k in s.initiator ==> k in s.refs || k in s.freed)
    && (forall k :: k in s.refs ==> k in s.initiator)
  }

  /** A keypair made as the responder becomes current only after a packet was received with it. */
  ghost predicate Confirmed(s: Session) {
    s.current.Some? ==> s.current.value in s.initiator && (s.initiator[s.current.value] || s.current.value in s.confirmed)
  }

  ghost predicate Inv(s: Session) {
    Refs(s) && Apart(s) && Reachable(s) && Indexed(s.hashed) && FreedOnce(s) && Confirmed(s)
  }

  // ---------------------------------------------------------------- steps and runs

  datatype Step =
    | BeginSession(k: Id, initiator: bool)
    | Received(k: Id)
    | ClearAll
    | GetOne(k: Id)
    | PutOne(k: Id)
    | InsertHandshake(index: nat)
    | RemoveHandshake

  predicate Can(s: Session, a: Step) {
    match a
    case BeginSession(k, _) => k !in s.initiator
    case PutOne(k) => k in s.refs && Gets(s, k) > 0
    case InsertHandshake(index) => Unused(s, index)
    case _ => true
  }

  function Next(s: Session, a: Step): Session
    requires Can(s, a)
  {
    match a
    case BeginSession(k, initiator) => Begin(s, k, initiator)
    case Received(k) => Confirm(s, k)
    case ClearAll => Clear(s)
    case GetOne(k) => Get(s, k)
    case PutOne(k) => Put(s, k)
    case InsertHandshake(index) => Insert(s, Handshake, index)
    case RemoveHandshake => Unhash(s, Handshake)
  }

  // ---------------------------------------------------------------- what giving up references does

  /** The references of keypairs a and b are about to be given up: they are in no slot any more but
      their counts still include it. */
  ghost predicate Loose(s: Session, a: Option<Id>, b: Option<Id>) {
    && (forall k: nat :: if a == Some(k) || b == Some(k)
                         then Slots(s.current, s.previous, s.next, k) == 0 && Counted(s.refs, k, 1, Gets(s, k))
                         else RefFits(s, k))
    && (forall k: nat :: Keypair(k) in s.hashed && a != Some(k) && b != Some(k) ==>
          Slots(s.current, s.previous, s.next, k) == 1)
  }

  lemma DropKeeps(s: Session, k: Id, b: Option<Id>)
    requires Loose(s, Some(k), b) && b != Some(k)
    ensures k in s.refs && Loose(Drop(Unhash(s, Keypair(k)), k), None, b)
  {
    hide Slots;
    assert Counted(s.refs, k, 1, Gets(s, k));
    var s' := Drop(Unhash(s, Keypair(k)), k);
    forall j: nat ensures if b == Some(j)
                          then Slots(s'.current, s'.previous, s'.next, j) == 0 && Counted(s'.refs, j, 1, Gets(s', j))
                          else RefFits(s', j)
    {
      if b != Some(j) && j != k { assert RefFits(s, j); }
    }
  }

  /** Evicting makes it whole: the keypair leaves the table at once, and is freed with its last reference. */
  lemma EvictKeeps(s: Session, a: Option<Id>, b: Option<Id>)
    requires Loose(s, a, b) && (a.Some? ==> a != b)
    ensures Loose(Evict(s, a), None, b)
  {
    if a.Some? { DropKeeps(s, a.value, b); }
    hide Loose, Drop;
  }

  lemma LooseSwap(s: Session, a: Option<Id>)
    requires Loose(s, None, a)
    ensures Loose(s, a, None)
  {
    hide Slots, RefFits;
  }

  lemma EvictBoth(s: Session, a: Option<Id>, b: Option<Id>)
    requires Loose(s, a, b) && (a.Some? ==> a != b)
    ensures Refs(Evict(Evict(s, a), b)) && Reachable(Evict(Evict(s, a), b))
  {
    var s1 := Evict(s, a);
    var s2 := Evict(s1, b);
    EvictKeeps(s, a, b);
    LooseSwap(s1, b);
    EvictKeeps(s1, b, None);
    hide Evict, RefFits;
    assert Loose(s2, None, None);
    forall k: nat ensures RefFits(s2, k) {}
  }

  /** The other families: eviction frees what is in use, and only shortens the table. */
  lemma EvictOthers(s: Session, a: Option<Id>)
    requires FreedOnce(s) && Indexed(s.hashed)
    ensures FreedOnce(Evict(s, a)) && Indexed(Evict(s, a).hashed)
    ensures var s' := Evict(s, a);
      && s'.current == s.current && s'.previous == s.previous && s'.next == s.next
      && s'.initiator == s.initiator && s'.confirmed == s.confirmed && s'.gets == s.gets
  {
  }

  function Reslot(s: Session, current: Option<Id>, previous: Option<Id>, next: Option<Id>, confirmed: set<Id>): Session {
    s.(current := current, previous := previous, next := next, confirmed := confirmed)
  }

  lemma DropSlots(s: Session, k: Id, current: Option<Id>, previous: Option<Id>, next: Option<Id>, confirmed: set<Id>)
    requires k in s.refs
    ensures Drop(Reslot(s, current, previous, next, confirmed), k) == Reslot(Drop(s, k), current, previous, next, confirmed)
  {
  }

  /** Evicting does not look at the slots. */
  lemma EvictSlots(s: Session, a: Option<Id>, current: Option<Id>, previous: Option<Id>, next: Option<Id>, confirmed: set<Id>)
    ensures Evict(Reslot(s, current, previous, next, confirmed), a)
         == Reslot(Evict(s, a), current, previous, next, confirmed)
  {
    if a.Some? && a.value in s.refs {
      DropSlots(Unhash(s, Keypair(a.value)), a.value, current, previous, next, confirmed);
    }
    hide Drop;
  }

  // ---------------------------------------------------------------- every step keeps the invariant

  /** The slots after an assignment lack a and b and hold k if it is new. */
  ghost predicate Reslots(s: Session, s': Session, a: Option<Id>, b: Option<Id>, k: Option<Id>) {
    && (forall j: nat :: Slots(s'.current, s'.previous, s'.next, j)
          == Slots(s.current, s.previous, s.next, j) - Holds(a, j) - Holds(b, j) + Holds(k, j))
    && (forall j: nat :: a == Some(j) || b == Some(j) ==> Slots(s.current, s.previous, s.next, j) == 1 && k != Some(j))
    && s'.hashed == s.hashed && s'.gets == s.gets
    && s'.refs == (if k.Some? then s.refs[k.value := 1] else s.refs)
    && (k.Some? ==> k.value !in s.refs)
  }

  lemma ReslotsLoose(s: Session, s': Session, a: Option<Id>, b: Option<Id>, k: Option<Id>)
    requires Refs(s) && Reachable(s) && Reslots(s, s', a, b, k) && (a.Some? ==> a != b)
    ensures Loose(s', a, b)
  {
    hide Slots;
    forall j: nat ensures if a == Some(j) || b == Some(j)
                          then Slots(s'.current, s'.previous, s'.next, j) == 0 && Counted(s'.refs, j, 1, Gets(s', j))
                          else RefFits(s', j)
    {
      assert RefFits(s, j);
    }
    forall j: nat | Keypair(j) in s'.hashed && a != Some(j) && b != Some(j)
      ensures Slots(s'.current, s'.previous, s'.next, j) == 1
    {
      assert RefFits(s, j);
    }
  }

  /** An operation that assigns the slots and gives up a and b. */
  lemma SwitchKeeps(s: Session, s0: Session, a: Option<Id>, b: Option<Id>, k: Option<Id>)
    requires Inv(s) && Reslots(s, s0, a, b, k) && (a.Some? ==> a != b)
    requires Apart(s0) && Confirmed(s0) && FreedOnce(s0) && Indexed(s0.hashed)
    ensures Inv(Evict(Evict(s0, a), b))
    ensures var s' := Evict(Evict(s0, a), b); s'.current == s0.current && s'.previous == s0.previous && s'.next == s0.next
  {
    ReslotsLoose(s, s0, a, b, k);
    EvictBoth(s0, a, b);
    EvictOthers(s0, a);
    EvictOthers(Evict(s0, a), b);
    hide Evict, Loose, Refs, Reachable, Indexed, FreedOnce, Reslots;
  }

  lemma CreateFits(s: Session, k: Id, initiator: bool)
    requires Inv(s) && k !in s.initiator
    ensures FreedOnce(Create(s, k, initiator)) && k !in s.refs
    ensures s.current != Some(k) && s.previous != Some(k) && s.next != Some(k)
  {
    assert RefFits(s, k);
    hide Apart, Reachable, Indexed, Confirmed;
  }

  /** Where a new keypair leaves the slots: the initiator uses it at once and keeps the unconfirmed one,
      or else the one it replaces; the responder waits, and gives up the previous one. */
  predicate Rotated(s: Session, s': Session, k: Id, initiator: bool) {
    if initiator then s'.current == Some(k) && s'.previous == (if s.next.Some? then s.next else s.current) && s'.next == None
    else s'.current == s.current && s'.previous == None && s'.next == Some(k)
  }

  /** As the initiator, over a next keypair that was never confirmed: it becomes the previous one. */
  lemma AddOverNext(s: Session, k: Id)
    requires Inv(s) && k !in s.initiator && s.next.Some?
    ensures Inv(AddNew(Create(s, k, true), k)) && Rotated(s, AddNew(Create(s, k, true), k), k, true)
  {
    CreateFits(s, k, true);
    var c := Create(s, k, true);
    var s0 := c.(current := Some(k), previous := s.next, next := None);
    var mid := c.(next := None, previous := s.next);
    EvictSlots(mid, s.current, Some(k), s.next, None, s.confirmed);
    EvictSlots(Evict(mid, s.current), s.previous, Some(k), s.next, None, s.confirmed);
    EvictOthersSlots(mid, s.current);
    EvictOthersSlots(Evict(mid, s.current), s.previous);
    hide Evict, Refs, Reachable, Indexed, FreedOnce;
    assert AddNew(c, k) == Evict(Evict(s0, s.current), s.previous);
    hide AddNew;
    SwitchKeeps(s, s0, s.current, s.previous, Some(k));
  }

  lemma AddOverNone(s: Session, k: Id)
    requires Inv(s) && k !in s.initiator && s.next.None?
    ensures Inv(AddNew(Create(s, k, true), k)) && Rotated(s, AddNew(Create(s, k, true), k), k, true)
  {
    CreateFits(s, k, true);
    var c := Create(s, k, true);
    var s0 := c.(current := Some(k), previous := s.current, next := None);
    EvictSlots(c.(previous := s.current), s.previous, Some(k), s.current, None, s.confirmed);
    EvictOthersSlots(c.(previous := s.current), s.previous);
    EvictNone(s0);
    hide Evict, Refs, Reachable, Indexed, FreedOnce;
    assert AddNew(c, k) == Evict(Evict(s0, None), s.previous);
    hide AddNew;
    SwitchKeeps(s, s0, None, s.previous, Some(k));
  }

  lemma EvictNone(s: Session)
    ensures Evict(s, None) == s
  {
  }

  lemma EvictOthersSlots(s: Session, a: Option<Id>)
    ensures Evict(s, a).current == s.current && Evict(s, a).previous == s.previous && Evict(s, a).next == s.next
    ensures Evict(s, a).confirmed == s.confirmed
  {
  }

  lemma AddResponder(s: Session, k: Id)
    requires Inv(s) && k !in s.initiator
    ensures Inv(AddNew(Create(s, k, false), k)) && Rotated(s, AddNew(Create(s, k, false), k), k, false)
  {
    CreateFits(s, k, false);
    var c := Create(s, k, false);
    var s0 := c.(next := Some(k), previous := None);
    var mid := c.(next := Some(k));
    EvictSlots(mid, s.next, s.current, None, Some(k), s.confirmed);
    EvictOthersSlots(mid, s.next);
    hide Evict;
    assert AddNew(c, k) == Evict(Evict(s0, s.next), s.previous);
    hide AddNew, Refs, Reachable, Indexed, FreedOnce;
    SwitchKeeps(s, s0, s.next, s.previous, Some(k));
  }

  lemma ConfirmKeeps(s: Session, k: Id)
    requires Inv(s)
    ensures Inv(Confirm(s, k))
    ensures s.next == Some(k) ==>
      var s' := Confirm(s, k); s'.current == Some(k) && s'.previous == s.current && s'.next == None
  {
    if s.next == Some(k) {
      assert RefFits(s, k);
      var s0 := s.(current := Some(k), previous := s.current, next := None, confirmed := s.confirmed + {k});
      EvictSlots(s.(previous := s.current), s.previous, Some(k), s.current, None, s.confirmed + {k});
      EvictOthersSlots(s.(previous := s.current), s.previous);
      EvictNone(s0);
      hide Evict;
      assert Confirm(s, k) == Evict(Evict(s0, None), s.previous);
      hide Confirm, Refs, Reachable, Indexed;
      SwitchKeeps(s, s0, None, s.previous, None);
    }
  }

  lemma ClearNext(s: Session)
    requires Inv(s)
    ensures Inv(Evict(s.(next := None), s.next))
  {
    var s0 := s.(next := None);
    EvictNone(s0);
    hide Evict, Refs, Reachable, Indexed;
    SwitchKeeps(s, s0, None, s.next, None);
  }

  lemma ClearPrevious(s: Session)
    requires Inv(s)
    ensures Inv(Evict(s.(previous := None), s.previous))
  {
    var s0 := s.(previous := None);
    EvictNone(s0);
    hide Evict, Refs, Reachable, Indexed;
    SwitchKeeps(s, s0, None, s.previous, None);
  }

  lemma ClearCurrent(s: Session)
    requires Inv(s)
    ensures Inv(Evict(s.(current := None), s.current))
  {
    var s0 := s.(current := None);
    EvictNone(s0);
    hide Evict, Refs, Reachable, Indexed;
    SwitchKeeps(s, s0, None, s.current, None);
  }

  lemma ClearKeeps(s: Session)
    requires Inv(s)
    ensures Inv(Clear(s))
  {
    hide Inv, Evict;
    ClearNext(s);
    var s1 := Evict(s.(next := None), s.next);
    ClearPrevious(s1);
    var s2 := Evict(s1.(previous := None), s1.previous);
    ClearCurrent(s2);
  }

  lemma GetKeeps(s: Session, k: Id)
    requires Inv(s)
    ensures Inv(Get(s, k))
  {
    hide Slots;
    forall j: nat ensures RefFits(Get(s, k), j) { assert RefFits(s, j); }
  }

  lemma SlotsCount(current: Option<Id>, previous: Option<Id>, next: Option<Id>, k: Id)
    ensures 0 <= Slots(current, previous, next, k) <= 3
  {
  }

  lemma PutKeeps(s: Session, k: Id)
    requires Inv(s) && Can(s, PutOne(k))
    ensures Inv(Put(s, k))
  {
    assert RefFits(s, k);
    SlotsCount(s.current, s.previous, s.next, k);
    hide Slots;
    forall j: nat ensures RefFits(Put(s, k), j) { assert RefFits(s, j); }
  }

  /** The new keypair takes the index of the handshake, or is not in the table. */
  lemma ReplaceKeeps(s: Session, k: Id)
    requires Inv(s) && Keypair(k) !in s.hashed && Slots(s.current, s.previous, s.next, k) == 1
    ensures Inv(Replace(s, Handshake, Keypair(k)))
    ensures Handshake in s.hashed ==> Finds(Replace(s, Handshake, Keypair(k)), s.hashed[Handshake], Keypair(k))
  {
    hide Slots;
    forall j: nat ensures RefFits(Replace(s, Handshake, Keypair(k)), j) { assert RefFits(s, j); }
  }

  lemma BeginKeeps(s: Session, k: Id, initiator: bool)
    requires Inv(s) && k !in s.initiator
    ensures Inv(Begin(s, k, initiator)) && Rotated(s, Begin(s, k, initiator), k, initiator)
    ensures Handshake in s.hashed ==> Finds(Begin(s, k, initiator), s.hashed[Handshake], Keypair(k))
  {
    if initiator {
      if s.next.Some? { AddOverNext(s, k); } else { AddOverNone(s, k); }
    } else {
      AddResponder(s, k);
    }
    var s' := AddNew(Create(s, k, initiator), k);
    AddKeepsTable(s, k, initiator);
    NewSlot(s', k);
    hide AddNew, Inv;
    ReplaceKeeps(s', k);
  }

  lemma NewSlot(s: Session, k: Id)
    requires Apart(s) && (s.current == Some(k) || s.next == Some(k))
    ensures Slots(s.current, s.previous, s.next, k) == 1
  {
  }

  /** The table lost only keypairs, and does not have k. */
  predicate Shrinks(was: map<Entry, nat>, now: map<Entry, nat>, k: Id) {
    && Keypair(k) !in now
    && (Handshake in now <==> Handshake in was)
    && (Handshake in was ==> now[Handshake] == was[Handshake])
  }

  lemma EvictShrinks(s: Session, a: Option<Id>, was: map<Entry, nat>, k: Id)
    requires Shrinks(was, s.hashed, k)
    ensures Shrinks(was, Evict(s, a).hashed, k)
  {
  }

  /** Adding a keypair takes keypairs out of the table and leaves the handshake where it is. */
  lemma AddKeepsTable(s: Session, k: Id, initiator: bool)
    requires Inv(s) && k !in s.initiator
    ensures Shrinks(s.hashed, AddNew(Create(s, k, initiator), k).hashed, k)
  {
    assert RefFits(s, k);
    CreateFits(s, k, initiator);
    hide Evict, Refs, Indexed, FreedOnce, Confirmed, Apart;
    var c := Create(s, k, initiator);
    if initiator && s.next.Some? {
      EvictShrinks(c.(next := None, previous := s.next), s.current, s.hashed, k);
      EvictShrinks(Evict(c.(next := None, previous := s.next), s.current), s.previous, s.hashed, k);
    } else if initiator {
      EvictShrinks(c.(previous := s.current), s.previous, s.hashed, k);
    } else {
      EvictShrinks(c.(next := Some(k)), s.next, s.hashed, k);
      EvictShrinks(Evict(c.(next := Some(k)), s.next).(previous := None), s.previous, s.hashed, k);
    }
  }

  lemma InsertKeeps(s: Session, index: nat)
    requires Inv(s) && Unused(s, index)
    ensures Inv(Insert(s, Handshake, index))
  {
    hide Slots;
    forall j: nat ensures RefFits(Insert(s, Handshake, index), j) { assert RefFits(s, j); }
  }

  lemma UnhashKeeps(s: Session)
    requires Inv(s)
    ensures Inv(Unhash(s, Handshake))
  {
    hide Slots;
    forall j: nat ensures RefFits(Unhash(s, Handshake), j) { assert RefFits(s, j); }
  }

  lemma StepKeeps(s: Session, a: Step)
    requires Inv(s) && Can(s, a)
    ensures Inv(Next(s, a))
  {
    hide Inv, Begin, Confirm, Clear, Get, Put, Insert, Unhash;
    match a
    case BeginSession(k, initiator) => BeginKeeps(s, k, initiator);
    case Received(k) => ConfirmKeeps(s, k);
    case ClearAll => ClearKeeps(s);
    case GetOne(k) => GetKeeps(s, k);
    case PutOne(k) => PutKeeps(s, k);
    case InsertHandshake(index) => InsertKeeps(s, index);
    case RemoveHandshake => UnhashKeeps(s);
  }

  ghost predicate Lawful(s: Session, run: seq<Step>)
    decreases run
  {
    run != [] ==> Can(s, run[0]) && Lawful(Next(s, run[0]), run[1..])
  }

  ghost function After(s: Session, run: seq<Step>): Session
    requires Lawful(s, run)
    decreases run
  {
    if run == [] then s else After(Next(s, run[0]), run[1..])
  }

  lemma {:induction false} RunKeeps(s: Session, run: seq<Step>)
    requires Inv(s) && Lawful(s, run)
    ensures Inv(After(s, run))
    decreases run
  {
    hide Inv, Next, Can;
    if run != [] {
      StepKeeps(s, run[0]);
      RunKeeps(Next(s, run[0]), run[1..]);
    }
  }

  /** Over any run: the count of a keypair is the slots that hold it and the gets outstanding, and it
      is freed, once, when that is nothing; the slots are distinct; an index leads only to the
      handshake or to a keypair in a slot, which can then be got; and a keypair made as the responder
      is current only after a packet was received with it. */
  lemma SessionsFit(run: seq<Step>, k: Id, index: nat)
    requires Lawful(Blank, run)
    ensures var s := After(Blank, run);
      && (k in s.refs ==> s.refs[k] == Slots(s.current, s.previous, s.next, k) + Gets(s, k) && s.refs[k] > 0)
      && (k in s.initiator && Slots(s.current, s.previous, s.next, k) + Gets(s, k) == 0 <==> k in s.freed)
      && (forall i, j :: 0 <= i < j < |s.freed| ==> s.freed[i] != s.freed[j])
      && Apart(s) && Confirmed(s)
      && (Finds(s, index, Keypair(k)) ==>
            Slots(s.current, s.previous, s.next, k) == 1 && k in s.refs && Gets(Get(s, k), k) == Gets(s, k) + 1)
  {
    BlankFits();
    hide After, Lawful;
    RunKeeps(Blank, run);
    var s := After(Blank, run);
    hide Slots;
    assert RefFits(s, k);
  }

  lemma BlankFits()
    ensures Inv(Blank)
  {
    forall k: nat ensures RefFits(Blank, k) {}
  }
}
