/** Lookups that run while an update is under way: the update makes one store after the other, the
    reader one read after the other, in any interleaving. */
module AllowedIpsReaders {
  import opened AllowedIps

  // ---------------------------------------------------------------- a reader

  /** Where a lookup stands. */
  datatype Reader =
    | Start                                           // about to read the root
    | Testing(n: Id, found: Option<Id>)               // about to read n's Peer
    | Stepping(n: Id, found: Option<Id>)              // about to read n's child on the key's side
    | Ending(found: Option<Id>)                       // about to read the Peer of what was found
    | Answered(answer: Option<Peer>)

  /** The nodes a reader may stand on. */
  ghost predicate Knows(h: Heap, known: set<Id>, k: Key, r: Reader) {
    match r
    case Testing(n, _) => n in known && Walkable(h, Some(n), k)
    case Stepping(n, _) => n in known && Walkable(h, Some(n), k) && h.tag[n].cidr < |k|
    case _ => true
  }

  ghost predicate Readable(h: Heap, k: Key, r: Reader) {
    Knows(h, h.tag.Keys, k, r)
  }

  /** The next read of a lookup; `alive` says whether the peer found can still be referenced. */
  ghost function Read(h: Heap, k: Key, r: Reader, alive: bool): Reader
    requires Searchable(h) && Readable(h, k, r)
  {
    match r
    case Start => if Root(h, k).None? then Ending(None) else Testing(Root(h, k).value, None)
    case Testing(n, found) =>
      if !Matches(h.tag[n], k) then Ending(found)
      else
        var found' := if n in h.peer then Some(n) else found;
        if h.tag[n].cidr == |k| then Ending(found') else Stepping(n, found')
    case Stepping(n, found) =>
      if Descend(h, n, k).None? then Ending(found) else Testing(Descend(h, n, k).value, found)
    case Ending(found) =>
      if found.None? then Answered(None)
      else if found.value in h.peer && alive then Answered(Some(h.peer[found.value]))
      else Start
    case Answered(_) => r
  }

  /** The node the walk would find if the heap stayed as it is. */
  ghost function Outcome(h: Heap, k: Key, r: Reader): Option<Id>
    requires Searchable(h) && Readable(h, k, r)
  {
    match r
    case Start => Search(h, k)
    case Testing(n, found) => Find(h, Some(n), k, found)
    case Stepping(n, found) => Find(h, Descend(h, n, k), k, found)
    case Ending(found) => found
    case Answered(_) => None
  }

  predicate Walks(r: Reader) {
    r.Start? || r.Testing? || r.Stepping?
  }

  lemma ReadKeepsOutcome(h: Heap, k: Key, r: Reader, alive: bool)
    requires Searchable(h) && Readable(h, k, r) && Walks(r)
    ensures Readable(h, k, Read(h, k, r, alive)) && !Read(h, k, r, alive).Answered?
    ensures Outcome(h, k, Read(h, k, r, alive)) == Outcome(h, k, r)
  {
  }

  // ---------------------------------------------------------------- depth

  /** How deep the place is that a reader is about to read; a walk only goes deeper. */
  ghost function Depth(h: Heap, k: Key, r: Reader): int
    requires Readable(h, k, r)
  {
    match r
    case Start => 0
    case Testing(n, _) => 2 * h.tag[n].cidr + 1
    case Stepping(n, _) => 2 * h.tag[n].cidr + 2
    case _ => 2 * |k| + 3
  }

  lemma ReadDeepens(h: Heap, k: Key, r: Reader, alive: bool)
    requires Searchable(h) && Readable(h, k, r) && Walks(r)
    ensures Readable(h, k, Read(h, k, r, alive)) && Depth(h, k, Read(h, k, r, alive)) > Depth(h, k, r)
  {
    if r.Stepping? {
      var s := At(r.n, Choose(h.tag[r.n], k));
      if s in h.kid { assert LinkFits(h, s); }
    }
  }

  // ---------------------------------------------------------------- one store

  ghost predicate Closed(h: Heap, known: set<Id>) {
    && known <= h.tag.Keys
    && forall s :: s in h.kid && (s.Top? || s.node in known) ==> h.kid[s] in known
  }

  /** The two heaps agree about the known nodes except in one place, at the given depth; a depth of -1
      means that no reader can tell them apart. */
  ghost predicate Agree(h: Heap, h': Heap, known: set<Id>, depth: int) {
    && known <= h.tag.Keys && known <= h'.tag.Keys
    && (forall n :: n in known ==> h'.tag[n] == h.tag[n])
    && (depth != 0 ==> forall w :: Kid(h', Top(w)) == Kid(h, Top(w)))
    && (forall n :: n in known && depth != 2 * h.tag[n].cidr + 1 ==> (n in h'.peer <==> n in h.peer))
    && (forall n, b :: n in known && depth != 2 * h.tag[n].cidr + 2 ==> Kid(h', At(n, b)) == Kid(h, At(n, b)))
  }

  /** A reader whose next read is elsewhere reads the same. */
  lemma ReadAgrees(h: Heap, h': Heap, known: set<Id>, depth: int, k: Key, r: Reader, alive: bool)
    requires Searchable(h) && Searchable(h') && Agree(h, h', known, depth)
    requires Knows(h, known, k, r) && Walks(r) && Readable(h, k, r) && depth != Depth(h, k, r)
    ensures Readable(h', k, r) && Read(h', k, r, alive) == Read(h, k, r, alive)
  {
    assert Kid(h', Top(|k|)) == Kid(h, Top(|k|)) || depth == 0;
  }

  lemma {:induction false} FindAgrees(h: Heap, h': Heap, known: set<Id>, depth: int, n: Option<Id>, k: Key, found: Option<Id>)
    requires Searchable(h) && Searchable(h') && Agree(h, h', known, depth) && Closed(h, known)
    requires Walkable(h, n, k) && (n.Some? ==> n.value in known && depth < 2 * h.tag[n.value].cidr + 1)
    ensures Walkable(h', n, k) && Find(h', n, k, found) == Find(h, n, k, found)
    decreases Below(h, n, k)
  {
    if n.Some? && Matches(h.tag[n.value], k) && h.tag[n.value].cidr < |k| {
      var s := At(n.value, Choose(h.tag[n.value], k));
      assert Kid(h', s) == Kid(h, s);
      if s in h.kid { assert LinkFits(h, s); }
      FindAgrees(h, h', known, depth, Descend(h, n.value, k), k, if n.value in h.peer then n else found);
    }
  }

  /** A store above the reader does not change what it will find. */
  lemma OutcomeAgrees(h: Heap, h': Heap, known: set<Id>, depth: int, k: Key, r: Reader)
    requires Searchable(h) && Searchable(h') && Agree(h, h', known, depth) && Closed(h, known)
    requires Knows(h, known, k, r) && Readable(h, k, r) && depth < Depth(h, k, r)
    ensures Readable(h', k, r) && Outcome(h', k, r) == Outcome(h, k, r)
  {
    match r
    case Start =>
      assert Kid(h', Top(|k|)) == Kid(h, Top(|k|));
      if Top(|k|) in h.kid { assert LinkFits(h, Top(|k|)); }
      FindAgrees(h, h', known, depth, Root(h, k), k, None);
    case Testing(n, found) => FindAgrees(h, h', known, depth, Some(n), k, found);
    case Stepping(n, found) =>
      var s := At(n, Choose(h.tag[n], k));
      assert Kid(h', s) == Kid(h, s);
      if s in h.kid { assert LinkFits(h, s); }
      FindAgrees(h, h', known, depth, Descend(h, n, k), k, found);
    case _ =>
  }

  // ---------------------------------------------------------------- a sequence of stores

  /** What an update does, seen by readers: the heaps it passes through, the nodes readers may stand on
      in each, and the depth of each store. */
  datatype Update = Update(heaps: seq<Heap>, known: seq<set<Id>>, depths: seq<int>)

  ghost predicate HeapFits(u: Update, i: nat)
    requires i < |u.heaps| && |u.known| == |u.heaps|
  {
    Searchable(u.heaps[i]) && Closed(u.heaps[i], u.known[i])
  }

  ghost predicate StoreFits(u: Update, i: nat)
    requires i < |u.depths| && |u.known| == |u.heaps| == |u.depths| + 1
  {
    Agree(u.heaps[i], u.heaps[i + 1], u.known[i], u.depths[i]) && u.known[i] <= u.known[i + 1]
  }

  /** The stores that readers can see go upwards. */
  ghost predicate Upwards(u: Update) {
    && |u.known| == |u.heaps| == |u.depths| + 1
    && (forall i :: 0 <= i < |u.heaps| ==> HeapFits(u, i))
    && (forall i :: 0 <= i < |u.depths| ==> StoreFits(u, i) && u.depths[i] >= -1)
    && (forall i, j :: 0 <= i < j < |u.depths| && u.depths[i] >= 0 ==> u.depths[i] > u.depths[j])
  }

  ghost predicate KnownAt(u: Update, i: nat, k: Key, r: Reader)
    requires Upwards(u) && i < |u.heaps|
  {
    Knows(u.heaps[i], u.known[i], k, r)
  }

  /** What is known stays known, with the same label. */
  lemma {:induction false} KnownLater(u: Update, i: nat, j: nat, k: Key, r: Reader)
    requires Upwards(u) && i <= j < |u.heaps| && KnownAt(u, i, k, r)
    ensures KnownAt(u, j, k, r) && Readable(u.heaps[i], k, r) && Readable(u.heaps[j], k, r)
    ensures Depth(u.heaps[j], k, r) == Depth(u.heaps[i], k, r)
    decreases j
  {
    assert HeapFits(u, i) && HeapFits(u, j);
    if i < j {
      KnownLater(u, i, j - 1, k, r);
      assert StoreFits(u, j - 1);
    }
  }

  lemma ReadKnown(u: Update, i: nat, k: Key, r: Reader, alive: bool)
    requires Upwards(u) && i < |u.heaps| && KnownAt(u, i, k, r)
    ensures HeapFits(u, i) && Readable(u.heaps[i], k, r) && KnownAt(u, i, k, Read(u.heaps[i], k, r, alive))
  {
    assert HeapFits(u, i);
    var h := u.heaps[i];
    if Top(|k|) in h.kid { assert LinkFits(h, Top(|k|)); }
    if r.Stepping? && At(r.n, Choose(h.tag[r.n], k)) in h.kid { assert LinkFits(h, At(r.n, Choose(h.tag[r.n], k))); }
  }

  /** Stores elsewhere do not change what the reader reads next. */
  lemma {:induction false} ReadLater(u: Update, i: nat, j: nat, k: Key, r: Reader, alive: bool)
    requires Upwards(u) && i <= j < |u.heaps| && KnownAt(u, i, k, r) && Walks(r)
    requires Readable(u.heaps[i], k, r) && forall x :: i <= x < j ==> u.depths[x] != Depth(u.heaps[i], k, r)
    ensures HeapFits(u, i) && HeapFits(u, j) && Readable(u.heaps[j], k, r)
    ensures Read(u.heaps[j], k, r, alive) == Read(u.heaps[i], k, r, alive)
    decreases j
  {
    assert HeapFits(u, i) && HeapFits(u, j);
    if i < j {
      ReadLater(u, i, j - 1, k, r, alive);
      KnownLater(u, i, j - 1, k, r);
      assert StoreFits(u, j - 1);
      ReadAgrees(u.heaps[j - 1], u.heaps[j], u.known[j - 1], u.depths[j - 1], k, r, alive);
    }
  }

  ghost function OutcomeAt(u: Update, i: nat, k: Key, r: Reader): Option<Id>
    requires Upwards(u) && i < |u.heaps| && Readable(u.heaps[i], k, r)
  {
    assert HeapFits(u, i);
    Outcome(u.heaps[i], k, r)
  }

  /** The outcomes of a reader, from heap i on, are all a or b. */
  ghost predicate Sure(u: Update, i: nat, k: Key, r: Reader, a: Option<Id>, b: Option<Id>)
    requires Upwards(u) && i < |u.heaps|
  {
    forall j :: i <= j < |u.heaps| ==>
      Readable(u.heaps[j], k, r) && (OutcomeAt(u, j, k, r) == a || OutcomeAt(u, j, k, r) == b)
  }

  /** A read that comes after the stores it could have seen. */
  lemma ReadPast(u: Update, i: nat, j: nat, k: Key, r: Reader, alive: bool, a: Option<Id>, b: Option<Id>)
    requires Upwards(u) && i <= j < |u.heaps| && KnownAt(u, i, k, r) && Walks(r)
    requires Sure(u, i, k, r, a, b) && HeapFits(u, i) && Readable(u.heaps[i], k, r)
    requires forall x :: i <= x < j ==> u.depths[x] != Depth(u.heaps[i], k, r)
    ensures var r' := Read(u.heaps[i], k, r, alive);
      Readable(u.heaps[j], k, r') && (OutcomeAt(u, j, k, r') == a || OutcomeAt(u, j, k, r') == b)
  {
    ReadKnown(u, i, k, r, alive);
    KnownLater(u, i, j, k, r);
    KnownLater(u, i, j, k, Read(u.heaps[i], k, r, alive));
    ReadLater(u, i, j, k, r, alive);
    assert HeapFits(u, j);
    ReadKeepsOutcome(u.heaps[j], k, r, alive);
    assert OutcomeAt(u, j, k, r) == a || OutcomeAt(u, j, k, r) == b;
    hide Upwards, KnownAt, Outcome, Read, Depth, HeapFits;
  }

  /** A store above what a reader still has to read does not change its outcome. */
  lemma SameOutcome(u: Update, i: nat, j: nat, k: Key, r: Reader)
    requires Upwards(u) && i < j < |u.heaps| && KnownAt(u, i, k, r) && HeapFits(u, i) && Readable(u.heaps[i], k, r)
    requires Readable(u.heaps[j - 1], k, r) && Readable(u.heaps[j], k, r) && u.depths[j - 1] < Depth(u.heaps[i], k, r)
    ensures OutcomeAt(u, j, k, r) == OutcomeAt(u, j - 1, k, r)
  {
    assert HeapFits(u, j - 1) && StoreFits(u, j - 1) && HeapFits(u, j);
    KnownLater(u, i, j - 1, k, r);
    OutcomeAgrees(u.heaps[j - 1], u.heaps[j], u.known[j - 1], u.depths[j - 1], k, r);
  }

  lemma {:induction false} ReadOutcome(u: Update, i: nat, j: nat, k: Key, r: Reader, alive: bool, a: Option<Id>, b: Option<Id>)
    requires Upwards(u) && i <= j < |u.heaps| && KnownAt(u, i, k, r) && Walks(r)
    requires Sure(u, i, k, r, a, b) && HeapFits(u, i) && Readable(u.heaps[i], k, r)
    ensures var r' := Read(u.heaps[i], k, r, alive);
      Readable(u.heaps[j], k, r') && (OutcomeAt(u, j, k, r') == a || OutcomeAt(u, j, k, r') == b)
    decreases j
  {
    assert Searchable(u.heaps[i]);
    hide Sure, OutcomeAt, Read, Depth, KnownAt, HeapFits, Readable, Searchable;
    var r' := Read(u.heaps[i], k, r, alive);
    ReadKnown(u, i, k, r, alive);
    KnownLater(u, i, j, k, r');
    if i < j && u.depths[j - 1] < Depth(u.heaps[i], k, r') {
      ReadOutcome(u, i, j - 1, k, r, alive, a, b);
      hide Upwards;
      SameOutcome(u, i, j, k, r');
    } else {
      StoresPast(u, i, j, k, r, alive);
      hide Upwards;
      ReadPast(u, i, j, k, r, alive, a, b);
    }
  }

  /** If the last store is below where a read leads, no store was where it was made. */
  lemma StoresPast(u: Update, i: nat, j: nat, k: Key, r: Reader, alive: bool)
    requires Upwards(u) && i <= j < |u.heaps| && HeapFits(u, i) && Readable(u.heaps[i], k, r) && Walks(r)
    requires Readable(u.heaps[i], k, Read(u.heaps[i], k, r, alive))
    requires i < j ==> u.depths[j - 1] >= Depth(u.heaps[i], k, Read(u.heaps[i], k, r, alive))
    ensures forall x :: i <= x < j ==> u.depths[x] != Depth(u.heaps[i], k, r)
  {
    ReadDeepens(u.heaps[i], k, r, alive);
    assert Depth(u.heaps[i], k, r) >= 0;
    hide Read, Readable, HeapFits, Depth;
    assert forall x :: i <= x < j ==> u.depths[x] < 0 || u.depths[x] >= u.depths[j - 1];
  }

  // ---------------------------------------------------------------- a whole lookup

  /** Before the update a lookup finds node a, after it node b; in between one of the two; the peer
      read from either is the one it had before, the one it has after, or none. */
  ghost predicate Answers(u: Update, k: Key, a: Option<Id>, b: Option<Id>, before: Option<Peer>, after: Option<Peer>)
    requires Upwards(u)
  {
    && (forall j :: 0 <= j < |u.heaps| ==> OutcomeAt(u, j, k, Start) == a || OutcomeAt(u, j, k, Start) == b)
    && (forall j :: 0 <= j < |u.heaps| ==> PeerFits(u, j, a, before, after) && PeerFits(u, j, b, before, after))
  }

  ghost predicate PeerFits(u: Update, j: nat, n: Option<Id>, before: Option<Peer>, after: Option<Peer>)
    requires j < |u.heaps|
  {
    var q := PeerOf(u.heaps[j], n);
    if n.None? then before.None? || after.None? else q.None? || q == before || q == after
  }

  /** One read of a lookup: which heap it meets, and whether the peer it finds is still alive. */
  datatype Moment = Moment(heap: nat, alive: bool)

  ghost predicate Ordered(u: Update, run: seq<Moment>, i: nat) {
    && (forall x :: 0 <= x < |run| ==> i <= run[x].heap < |u.heaps|)
    && (forall x, y :: 0 <= x < y < |run| ==> run[x].heap <= run[y].heap)
  }

  ghost predicate Safe(u: Update, i: nat, k: Key, r: Reader, a: Option<Id>, b: Option<Id>, before: Option<Peer>, after: Option<Peer>)
    requires Upwards(u) && i < |u.heaps|
  {
    && KnownAt(u, i, k, r)
    && (if r.Answered? then r.answer == before || r.answer == after else Sure(u, i, k, r, a, b))
  }

  /** The lookup from r on, meeting the heaps of the run. */
  ghost function Lookup(u: Update, k: Key, r: Reader, run: seq<Moment>, i: nat): Reader
    requires Upwards(u) && Ordered(u, run, i) && i < |u.heaps| && KnownAt(u, i, k, r)
    decreases run
  {
    if run == [] then r
    else
      var j := run[0].heap;
      KnownLater(u, i, j, k, r);
      ReadKnown(u, j, k, r, run[0].alive);
      Lookup(u, k, Read(u.heaps[j], k, r, run[0].alive), run[1..], j)
  }

  lemma SafeLater(u: Update, i: nat, j: nat, k: Key, r: Reader, a: Option<Id>, b: Option<Id>, before: Option<Peer>, after: Option<Peer>)
    requires Upwards(u) && i <= j < |u.heaps| && Safe(u, i, k, r, a, b, before, after)
    ensures Safe(u, j, k, r, a, b, before, after)
  {
    KnownLater(u, i, j, k, r);
  }

  lemma SafeStart(u: Update, i: nat, k: Key, a: Option<Id>, b: Option<Id>, before: Option<Peer>, after: Option<Peer>)
    requires Upwards(u) && i < |u.heaps| && Answers(u, k, a, b, before, after)
    ensures Safe(u, i, k, Start, a, b, before, after)
  {
  }

  lemma SafeRead(u: Update, i: nat, k: Key, r: Reader, alive: bool, a: Option<Id>, b: Option<Id>, before: Option<Peer>, after: Option<Peer>)
    requires Upwards(u) && i < |u.heaps| && Safe(u, i, k, r, a, b, before, after) && Answers(u, k, a, b, before, after)
    requires Searchable(u.heaps[i]) && Readable(u.heaps[i], k, r)
    ensures Safe(u, i, k, Read(u.heaps[i], k, r, alive), a, b, before, after)
  {
    ReadKnown(u, i, k, r, alive);
    var r' := Read(u.heaps[i], k, r, alive);
    if Walks(r) {
      forall j | i <= j < |u.heaps|
        ensures Readable(u.heaps[j], k, r') && (OutcomeAt(u, j, k, r') == a || OutcomeAt(u, j, k, r') == b)
      {
        ReadOutcome(u, i, j, k, r, alive, a, b);
      }
    } else if r.Ending? {
      assert OutcomeAt(u, i, k, r) == r.found;
      hide Upwards;
      assert PeerFits(u, i, a, before, after) && PeerFits(u, i, b, before, after);
    }
  }

  /** A lookup that overlaps one update, read by read and store by store, returns what it would have
      returned before the update or what it returns after it. */
  lemma {:induction false} LookupIsAtomic(u: Update, k: Key, r: Reader, run: seq<Moment>, i: nat,
                                          a: Option<Id>, b: Option<Id>, before: Option<Peer>, after: Option<Peer>)
    requires Upwards(u) && Ordered(u, run, i) && i < |u.heaps|
    requires Safe(u, i, k, r, a, b, before, after) && Answers(u, k, a, b, before, after)
    ensures Lookup(u, k, r, run, i).Answered? ==>
              Lookup(u, k, r, run, i).answer == before || Lookup(u, k, r, run, i).answer == after
    decreases run
  {
    if run != [] {
      var j := run[0].heap;
      SafeLater(u, i, j, k, r, a, b, before, after);
      ReadKnown(u, j, k, r, run[0].alive);
      SafeRead(u, j, k, r, run[0].alive, a, b, before, after);
      LookupIsAtomic(u, k, Read(u.heaps[j], k, r, run[0].alive), run[1..], j, a, b, before, after);
    }
  }
}
