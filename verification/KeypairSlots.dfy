/** The slots and counts of Keypairs as the fields that driver/noise.c overwrites under its locks. */
module KeypairSlots {
  import opened Keypairs
  import opened KeypairMoves

  class PeerKeypairs {
    var current: Option<Id>
    var previous: Option<Id>
    var next: Option<Id>
    var refs: map<Id, int>
    var initiator: map<Id, bool>
    var hashed: map<Entry, nat>
    ghost var gets: map<Id, nat>
    ghost var freed: seq<Id>
    ghost var confirmed: set<Id>

    ghost function Now(): Session
      reads this
    {
      Session(current, previous, next, refs, initiator, hashed, gets, freed, confirmed)
    }

    constructor ()
      ensures Now() == Blank && Inv(Now())
    {
      current, previous, next := None, None, None;
      refs, initiator, hashed := map[], map[], map[];
      gets, freed, confirmed := map[], [], {};
      new;
      BlankFits();
    }

    method IndexHashtableRemove(e: Entry)
      modifies `hashed
      ensures Now() == Unhash(old(Now()), e)
    {
      hashed := hashed - {e};
    }

    /** `index` is the random number that was found unused. */
    method IndexHashtableInsert(e: Entry, index: nat)
      modifies `hashed
      ensures Now() == Insert(old(Now()), e, index)
    {
      hashed := hashed - {e};
      hashed := hashed[e := index];
    }

    method IndexHashtableReplace(was: Entry, now: Entry) returns (ret: bool)
      modifies `hashed
      ensures Now() == Replace(old(Now()), was, now) && ret == (was in old(hashed))
    {
      ret := was in hashed;
      if !ret { return; }
      var index := hashed[was];
      hashed := (hashed - {was})[now := index];
    }

    method KeypairFreeKref(k: Id)
      modifies `hashed, `refs, `freed
      ensures Now() == Free(old(Now()), k)
    {
      IndexHashtableRemove(Keypair(k));
      refs, freed := refs - {k}, freed + [k];
    }

    method NoiseKeypairPut(keypair: Option<Id>, unreferenceNow: bool)
      requires keypair.Some? ==> keypair.value in refs
      modifies `hashed, `refs, `freed
      ensures unreferenceNow ==> Now() == Evict(old(Now()), keypair)
      ensures !unreferenceNow ==> Now() == if keypair.Some? then Drop(old(Now()), keypair.value) else old(Now())
    {
      if keypair.None? { return; }
      if unreferenceNow { IndexHashtableRemove(Keypair(keypair.value)); }
      var left := refs[keypair.value] - 1;
      if left == 0 { KeypairFreeKref(keypair.value); } else { refs := refs[keypair.value := left]; }
    }

    /** Fails on a keypair whose last reference is gone. */
    method NoiseKeypairGet(keypair: Option<Id>) returns (got: Option<Id>)
      requires Inv(Now())
      modifies `refs, `gets
      ensures Inv(Now()) && (keypair.None? ==> Now() == old(Now()))
      ensures keypair.Some? ==> Now() == Get(old(Now()), keypair.value)
      ensures got == if keypair.Some? && keypair.value in old(refs) then keypair else None
    {
      if keypair.Some? { GetKeeps(Now(), keypair.value); }
      if keypair.None? || keypair.value !in refs { return None; }
      gets := gets[keypair.value := Gets(Now(), keypair.value) + 1];
      refs := refs[keypair.value := refs[keypair.value] + 1];
      got := keypair;
    }

    /** Giving back a keypair that was got. */
    method PutBack(k: Id)
      requires Inv(Now()) && k in refs && Gets(Now(), k) > 0
      modifies `hashed, `refs, `freed, `gets
      ensures Now() == Put(old(Now()), k) && Inv(Now())
      ensures k in freed <==> old(refs[k]) == 1
    {
      PutKeeps(Now(), k);
      Unfreed(Now(), k);
      ghost var left := Gets(Now(), k) - 1;
      NoiseKeypairPut(Some(k), false);
      gets := gets[k := left];
    }

    method NoiseKeypairsClear()
      requires Inv(Now())
      modifies `current, `previous, `next, `hashed, `refs, `freed
      ensures Now() == Clear(old(Now())) && Inv(Now())
      ensures current == None && previous == None && next == None
    {
      hide Evict, Inv;
      ghost var was := Now();
      ClearKeeps(was);
      var last := next;
      SlotsHeld(Now());
      ClearNext(Now());
      next := None;
      NoiseKeypairPut(last, true);
      EvictOthersSlots(was.(next := None), last);

      last := previous;
      ghost var s1 := Now();
      SlotsHeld(s1);
      ClearPrevious(s1);
      previous := None;
      NoiseKeypairPut(last, true);
      EvictOthersSlots(s1.(previous := None), last);

      last := current;
      ghost var s2 := Now();
      SlotsHeld(s2);
      current := None;
      NoiseKeypairPut(last, true);
    }

    /** The three slots are read first; what is given up is given up before the last slot is assigned. */
    method AddNewKeypair(k: Id)
      requires k in initiator
      requires Held(Now(), current) && Held(Now(), previous) && Held(Now(), next)
      requires current.Some? ==> current != previous
      requires next.Some? ==> next != previous
      modifies `current, `previous, `next, `hashed, `refs, `freed
      ensures Now() == AddNew(old(Now()), k)
    {
      hide Evict;
      var previousKeypair, nextKeypair, currentKeypair := previous, next, current;
      if initiator[k] {
        if nextKeypair.Some? {
          next := None;
          previous := nextKeypair;
          EvictHolds(Now(), currentKeypair, previousKeypair);
          NoiseKeypairPut(currentKeypair, true);
        } else {
          previous := currentKeypair;
        }
        NoiseKeypairPut(previousKeypair, true);
        current := Some(k);
      } else {
        next := Some(k);
        EvictHolds(Now(), nextKeypair, previousKeypair);
        NoiseKeypairPut(nextKeypair, true);
        previous := None;
        NoiseKeypairPut(previousKeypair, true);
      }
    }

    method NoiseReceivedWithKeypair(k: Id) returns (isNew: bool)
      requires Inv(Now())
      modifies `current, `previous, `next, `hashed, `refs, `freed, `confirmed
      ensures Now() == Confirm(old(Now()), k) && Inv(Now()) && isNew == (old(next) == Some(k))
      ensures isNew ==> current == Some(k) && previous == old(current) && next == None
      ensures isNew ==> GivesUp(old(Now()), Now(), Ids(old(previous)), None)
      ensures !isNew ==> Now() == old(Now())
    {
      ConfirmKeeps(Now(), k);
      ConfirmMoves(Now(), k);
      SlotsHeld(Now());
      hide Evict, Inv, GivesUp;
      isNew := next == Some(k);
      if !isNew { return; }
      var last := previous;
      ghost var s0 := Now().(previous := current);
      previous := current;
      NoiseKeypairPut(last, true);
      EvictOthersSlots(s0, last);
      current := Some(k);
      next := None;
      confirmed := confirmed + {k};
    }

    /** The new keypair is created with one reference, takes its slot, and takes the handshake's index. */
    method AddAndReplace(k: Id, iAmTheInitiator: bool) returns (ret: bool)
      requires Inv(Now()) && k !in initiator
      modifies this
      ensures Now() == Begin(old(Now()), k, iAmTheInitiator) && Inv(Now()) && ret == (Handshake in old(hashed))
    {
      ghost var was := Now();
      BeginKeeps(was, k, iAmTheInitiator);
      SlotsHeld(was);
      AddKeepsTable(was, k, iAmTheInitiator);
      CreateFits(was, k, iAmTheInitiator);
      hide Inv, AddNew;
      refs, initiator := refs[k := 1], initiator[k := iAmTheInitiator];
      AddNewKeypair(k);
      ret := IndexHashtableReplace(Handshake, Keypair(k));
    }
  }

  /** A slot holds nothing or a keypair with references. */
  ghost predicate Held(s: Session, slot: Option<Id>) {
    slot.Some? ==> slot.value in s.refs
  }

  lemma SlotsHeld(s: Session)
    requires Inv(s)
    ensures Held(s, s.current) && Held(s, s.previous) && Held(s, s.next)
  {
    if s.current.Some? { assert RefFits(s, s.current.value); }
    if s.previous.Some? { assert RefFits(s, s.previous.value); }
    if s.next.Some? { assert RefFits(s, s.next.value); }
    hide Reachable, Indexed, FreedOnce, Confirmed;
  }

  lemma EvictHolds(s: Session, a: Option<Id>, b: Option<Id>)
    requires Held(s, b) && (a.Some? ==> a != b)
    ensures Held(Evict(s, a), b)
  {
  }

  lemma Unfreed(s: Session, k: Id)
    requires Inv(s) && k in s.refs
    ensures k !in s.freed
  {
    hide Refs, Apart, Reachable, Indexed, Confirmed;
  }
}
