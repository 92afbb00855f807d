/** Every lookup that overlaps one Add or one RemoveNode returns what the map gives before the update
    or what it gives after it. */
module AllowedIpsAtomic {
  import opened AllowedIps
  import opened AllowedIpsUpdates
  import opened AllowedIpsReaders

  // ---------------------------------------------------------------- what readers see of a store

  /** The depth of the place a store changes, -1 if readers cannot get there. */
  function DepthOf(h: Heap, st: Store, known: set<Id>): int {
    match st
    case SetPeer(n, _) => if n in known && n in h.tag then 2 * h.tag[n].cidr + 1 else -1
    case SetKid(Top(_), _) => 0
    case SetKid(At(n, _), _) => if n in known && n in h.tag then 2 * h.tag[n].cidr + 2 else -1
    case _ => -1
  }

  /** A visible link makes everything labelled so far reachable. */
  function KnownAfter(h: Heap, st: Store, known: set<Id>): set<Id> {
    if st.SetKid? && DepthOf(h, st, known) >= 0 then h.tag.Keys else known
  }

  /** A store that keeps every walk safe. */
  ghost predicate StoreOk(h: Heap, st: Store, known: set<Id>) {
    match st
    case SetTag(n, l) => n !in h.tag
    case Discard(n) => n !in known && (forall s :: s in h.kid ==> h.kid[s] != n && s != At(n, false) && s != At(n, true))
    case SetKid(s, c) => c.Some? ==> LinkFits(h.(kid := h.kid[s := c.value]), s)
    case _ => true
  }

  ghost predicate StoresOk(h: Heap, stores: seq<Store>, known: set<Id>)
    decreases stores
  {
    stores != [] ==> StoreOk(h, stores[0], known) && StoresOk(Do(h, stores[0]), stores[1..], KnownAfter(h, stores[0], known))
  }

  ghost function KnownAll(h: Heap, stores: seq<Store>, known: set<Id>): set<Id>
    decreases stores
  {
    if stores == [] then known else KnownAll(Do(h, stores[0]), stores[1..], KnownAfter(h, stores[0], known))
  }

  /** The update as readers see it. */
  ghost function Observe(h: Heap, stores: seq<Store>, known: set<Id>): (u: Update)
    ensures |u.heaps| == |stores| + 1 == |u.known| && |u.depths| == |stores|
    ensures u.heaps[0] == h && u.known[0] == known && u.heaps[|stores|] == DoAll(h, stores)
    decreases stores
  {
    if stores == [] then Update([h], [known], [])
    else
      var u := Observe(Do(h, stores[0]), stores[1..], KnownAfter(h, stores[0], known));
      Update([h] + u.heaps, [known] + u.known, [DepthOf(h, stores[0], known)] + u.depths)
  }

  lemma StoreSearchable(h: Heap, st: Store, known: set<Id>)
    requires Searchable(h) && Closed(h, known) && StoreOk(h, st, known)
    ensures Searchable(Do(h, st))
  {
    var h' := Do(h, st);
    forall s | s in h'.kid ensures LinkFits(h', s) {
      if s in h.kid { assert LinkFits(h, s); }
      if st.Discard? { assert s.At? ==> s != At(st.n, s.bit); }
    }
  }

  lemma StoreCloses(h: Heap, st: Store, known: set<Id>)
    requires Searchable(h) && Closed(h, known) && StoreOk(h, st, known)
    ensures Closed(Do(h, st), KnownAfter(h, st, known))
  {
    var h', known' := Do(h, st), KnownAfter(h, st, known);
    forall s | s in h'.kid && (s.Top? || s.node in known') ensures h'.kid[s] in known' {
      if s in h.kid { assert LinkFits(h, s); }
      if st.SetKid? && st.slot == s { assert LinkFits(h.(kid := h.kid[s := st.kid.value]), s); }
    }
  }

  lemma StoreAgrees(h: Heap, st: Store, known: set<Id>)
    requires Closed(h, known) && StoreOk(h, st, known)
    ensures Agree(h, Do(h, st), known, DepthOf(h, st, known))
    ensures known <= KnownAfter(h, st, known) && DepthOf(h, st, known) >= -1
  {
    match st
    case SetKid(s, c) => hide Searchable;
    case _ => hide LinkFits;
  }

  /** Everything Upwards asks for except the order of the depths. */
  ghost predicate Sound(u: Update) {
    && |u.known| == |u.heaps| == |u.depths| + 1
    && (forall i :: 0 <= i < |u.heaps| ==> HeapFits(u, i))
    && (forall i :: 0 <= i < |u.depths| ==> StoreFits(u, i) && u.depths[i] >= -1)
  }

  lemma {:induction false} ObserveSound(h: Heap, stores: seq<Store>, known: set<Id>)
    requires Searchable(h) && Closed(h, known) && StoresOk(h, stores, known)
    ensures Sound(Observe(h, stores, known))
    decreases stores
  {
    var u := Observe(h, stores, known);
    if stores != [] {
      var rest := Observe(Do(h, stores[0]), stores[1..], KnownAfter(h, stores[0], known));
      StoreSearchable(h, stores[0], known);
      StoreAgrees(h, stores[0], known);
      StoreCloses(h, stores[0], known);
      ObserveSound(Do(h, stores[0]), stores[1..], KnownAfter(h, stores[0], known));
      forall i | 0 <= i < |u.heaps| ensures HeapFits(u, i) {
        if i > 0 { assert HeapFits(rest, i - 1); }
      }
      forall i | 0 <= i < |u.depths| ensures StoreFits(u, i) && u.depths[i] >= -1 {
        if i > 0 { assert StoreFits(rest, i - 1); }
      }
    }
  }

  lemma {:induction false} HeapAt(h: Heap, stores: seq<Store>, known: set<Id>, i: nat)
    requires i <= |stores|
    ensures Observe(h, stores, known).heaps[i] == DoAll(h, stores[..i])
    decreases stores
  {
    if i > 0 {
      HeapAt(Do(h, stores[0]), stores[1..], KnownAfter(h, stores[0], known), i - 1);
      assert stores[..i][1..] == stores[1..][..i - 1];
    }
  }

  // ---------------------------------------------------------------- peers along the way

  /** All stores to a Peer field are to that of z and write v. */
  ghost predicate OnlyPeer(stores: seq<Store>, z: Id, v: Option<Peer>) {
    forall i :: 0 <= i < |stores| ==>
      && (stores[i].SetPeer? ==> stores[i].n == z && stores[i].peer == v)
      && (stores[i].Discard? ==> stores[i].n == z)
  }

  lemma {:induction false} PeerPath(h: Heap, stores: seq<Store>, z: Id, v: Option<Peer>, x: Id)
    requires OnlyPeer(stores, z, v)
    ensures var q := PeerOf(DoAll(h, stores), Some(x));
      if x == z then q == PeerOf(h, Some(z)) || q == v || q.None? else q == PeerOf(h, Some(x))
    decreases stores
  {
    if stores != [] {
      assert stores[0].SetPeer? ==> stores[0].n == z && stores[0].peer == v;
      assert stores[0].Discard? ==> stores[0].n == z;
      PeerPath(Do(h, stores[0]), stores[1..], z, v, x);
    }
  }

  /** Only one peer changes, and only under a lookup that finds its node before and after. */
  ghost predicate PeerTurns(h: Heap, h': Heap, z: Id, v: Option<Peer>, a: Option<Id>, b: Option<Id>) {
    && (a == Some(z) ==> b == a || v.None?)
    && (b == Some(z) ==> PeerOf(h', b) == v && (a == b || PeerOf(h, b).None?))
  }

  lemma PeersAnswer(h: Heap, stores: seq<Store>, known: set<Id>, z: Id, v: Option<Peer>, a: Option<Id>, b: Option<Id>, j: nat)
    requires OnlyPeer(stores, z, v) && j <= |stores| && PeerTurns(h, DoAll(h, stores), z, v, a, b)
    ensures var u := Observe(h, stores, known); var before, after := PeerOf(h, a), PeerOf(DoAll(h, stores), b);
      PeerFits(u, j, a, before, after) && PeerFits(u, j, b, before, after)
  {
    HeapAt(h, stores, known, j);
    assert OnlyPeer(stores[..j], z, v);
    if a.Some? { PeerPath(h, stores[..j], z, v, a.value); PeerPath(h, stores, z, v, a.value); }
    if b.Some? { PeerPath(h, stores[..j], z, v, b.value); PeerPath(h, stores, z, v, b.value); }
  }

  // ---------------------------------------------------------------- visible stores go upwards

  /** The visible stores have strictly falling depths, all in [bottom, top). */
  ghost predicate Falling(h: Heap, stores: seq<Store>, known: set<Id>, top: int, bottom: int)
    decreases stores
  {
    if stores == [] then bottom <= top
    else
      var d := DepthOf(h, stores[0], known);
      && StoreOk(h, stores[0], known)
      && (d >= 0 ==> bottom <= d < top)
      && Falling(Do(h, stores[0]), stores[1..], KnownAfter(h, stores[0], known), if d >= 0 then d else top, bottom)
  }

  lemma {:induction false} FallingConcat(h: Heap, a: seq<Store>, b: seq<Store>, known: set<Id>, top: int, mid: int, bottom: int)
    requires Falling(h, a, known, top, mid) && Falling(DoAll(h, a), b, KnownAll(h, a, known), mid, bottom)
    ensures Falling(h, a + b, known, top, bottom)
    ensures KnownAll(h, a + b, known) == KnownAll(DoAll(h, a), b, KnownAll(h, a, known))
    decreases a
  {
    if a == [] {
      assert a + b == b;
      FallingWider(h, b, known, mid, top, bottom);
    } else {
      assert (a + b)[1..] == a[1..] + b;
      var d := DepthOf(h, a[0], known);
      FallingConcat(Do(h, a[0]), a[1..], b, KnownAfter(h, a[0], known), if d >= 0 then d else top, mid, bottom);
      FallingRange(Do(h, a[0]), a[1..], KnownAfter(h, a[0], known), if d >= 0 then d else top, mid);
      FallingRange(DoAll(h, a), b, KnownAll(h, a, known), mid, bottom);
    }
  }

  lemma {:induction false} FallingRange(h: Heap, a: seq<Store>, known: set<Id>, top: int, bottom: int)
    requires Falling(h, a, known, top, bottom)
    ensures bottom <= top
    decreases a
  {
    if a != [] {
      FallingRange(Do(h, a[0]), a[1..], KnownAfter(h, a[0], known), if DepthOf(h, a[0], known) >= 0 then DepthOf(h, a[0], known) else top, bottom);
    }
  }

  lemma {:induction false} FallingWider(h: Heap, a: seq<Store>, known: set<Id>, top: int, top': int, bottom: int)
    requires Falling(h, a, known, top, bottom) && top <= top'
    ensures Falling(h, a, known, top', bottom)
    decreases a
  {
    if a != [] && DepthOf(h, a[0], known) < 0 {
      FallingWider(Do(h, a[0]), a[1..], KnownAfter(h, a[0], known), top, top', bottom);
    }
  }

  lemma {:induction false} FallingUpwards(h: Heap, stores: seq<Store>, known: set<Id>, top: int, bottom: int)
    requires Searchable(h) && Closed(h, known) && Falling(h, stores, known, top, bottom)
    ensures StoresOk(h, stores, known) && Upwards(Observe(h, stores, known))
    ensures forall d :: d in Observe(h, stores, known).depths ==> d < top || d == -1
    decreases stores
  {
    if stores != [] {
      var d := DepthOf(h, stores[0], known);
      var h', known' := Do(h, stores[0]), KnownAfter(h, stores[0], known);
      StoreSearchable(h, stores[0], known);
      StoreCloses(h, stores[0], known);
      FallingUpwards(h', stores[1..], known', if d >= 0 then d else top, bottom);
      var rest, u := Observe(h', stores[1..], known'), Observe(h, stores, known);
      forall i, j | 0 <= i < j < |u.depths| && u.depths[i] >= 0 ensures u.depths[i] > u.depths[j] {
        if i == 0 { assert rest.depths[j - 1] in rest.depths; }
      }
    }
    ObserveSound(h, stores, known);
  }

  /** No store is visible. */
  ghost predicate Mute(h: Heap, stores: seq<Store>, known: set<Id>)
    decreases stores
  {
    stores != [] ==>
      StoreOk(h, stores[0], known) && DepthOf(h, stores[0], known) == -1 && Mute(Do(h, stores[0]), stores[1..], known)
  }

  lemma {:induction false} MuteFalls(h: Heap, stores: seq<Store>, known: set<Id>, top: int)
    requires Mute(h, stores, known)
    ensures Falling(h, stores, known, top, top) && KnownAll(h, stores, known) == known
    decreases stores
  {
    if stores != [] { MuteFalls(Do(h, stores[0]), stores[1..], known, top); }
  }

  lemma {:induction false} MuteConcat(h: Heap, a: seq<Store>, b: seq<Store>, known: set<Id>)
    requires Mute(h, a, known) && Mute(DoAll(h, a), b, known)
    ensures Mute(h, a + b, known)
    decreases a
  {
    if a == [] {
      assert a + b == b;
    } else {
      assert (a + b)[1..] == a[1..] + b;
      MuteConcat(Do(h, a[0]), a[1..], b, known);
    }
  }

  // ---------------------------------------------------------------- what a lookup finds along the way

  /** After each of the stores a lookup that meets no further store finds a or b. */
  ghost predicate Either(h: Heap, stores: seq<Store>, k: Key, a: Option<Id>, b: Option<Id>)
    decreases stores
  {
    && Searchable(h) && (Search(h, k) == a || Search(h, k) == b)
    && (stores != [] ==> Either(Do(h, stores[0]), stores[1..], k, a, b))
  }

  lemma {:induction false} EitherConcat(h: Heap, x: seq<Store>, y: seq<Store>, k: Key, a: Option<Id>, b: Option<Id>)
    requires Either(h, x, k, a, b) && Either(DoAll(h, x), y, k, a, b)
    ensures Either(h, x + y, k, a, b)
    decreases x
  {
    hide Search, Searchable, Do;
    if x == [] {
      assert x + y == y;
    } else {
      assert (x + y)[1..] == x[1..] + y;
      EitherConcat(Do(h, x[0]), x[1..], y, k, a, b);
    }
  }

  lemma {:induction false} EitherMute(h: Heap, x: seq<Store>, known: set<Id>, k: Key, a: Option<Id>, b: Option<Id>)
    requires Searchable(h) && Closed(h, known) && Mute(h, x, known) && (Search(h, k) == a || Search(h, k) == b)
    ensures Either(h, x, k, a, b) && Searchable(DoAll(h, x)) && Closed(DoAll(h, x), known)
    ensures Search(DoAll(h, x), k) == Search(h, k)
    decreases x
  {
    if x != [] {
      var h' := Do(h, x[0]);
      StoreSearchable(h, x[0], known);
      StoreCloses(h, x[0], known);
      StoreAgrees(h, x[0], known);
      OutcomeAgrees(h, h', known, -1, k, Start);
      EitherMute(h', x[1..], known, k, a, b);
    }
  }

  lemma EitherOne(h: Heap, st: Store, k: Key, a: Option<Id>, b: Option<Id>)
    requires Searchable(h) && Searchable(Do(h, st)) && (Search(h, k) == a || Search(h, k) == b)
    requires Search(Do(h, st), k) == a || Search(Do(h, st), k) == b
    ensures Either(h, [st], k, a, b)
  {
    assert [st][1..] == [];
    assert Either(Do(h, st), [], k, a, b);
  }

  lemma {:induction false} EitherAt(h: Heap, stores: seq<Store>, known: set<Id>, k: Key, a: Option<Id>, b: Option<Id>, j: nat)
    requires Either(h, stores, k, a, b) && Upwards(Observe(h, stores, known)) && j <= |stores|
    ensures var u := Observe(h, stores, known); OutcomeAt(u, j, k, Start) == a || OutcomeAt(u, j, k, Start) == b
  {
    HeapAt(h, stores, known, j);
    EitherPrefix(h, stores, k, a, b, j);
  }

  lemma {:induction false} EitherPrefix(h: Heap, stores: seq<Store>, k: Key, a: Option<Id>, b: Option<Id>, j: nat)
    requires Either(h, stores, k, a, b) && j <= |stores|
    ensures var h' := DoAll(h, stores[..j]); Searchable(h') && (Search(h', k) == a || Search(h', k) == b)
    decreases stores
  {
    if j > 0 {
      EitherPrefix(Do(h, stores[0]), stores[1..], k, a, b, j - 1);
      assert stores[..j][1..] == stores[1..][..j - 1];
    }
  }

  /** The three conditions under which overlapping lookups cannot tell an update from an atomic one. */
  lemma UpdateIsAtomic(h: Heap, stores: seq<Store>, known: set<Id>, top: int, z: Id, v: Option<Peer>, k: Key,
                       a: Option<Id>, b: Option<Id>, run: seq<Moment>)
    requires Searchable(h) && Closed(h, known) && Falling(h, stores, known, top, 0)
    requires OnlyPeer(stores, z, v) && PeerTurns(h, DoAll(h, stores), z, v, a, b)
    requires Either(h, stores, k, a, b)
    requires Ordered(Observe(h, stores, known), run, 0)
    ensures var u := Observe(h, stores, known);
      && Upwards(u)
      && (Lookup(u, k, Start, run, 0).Answered? ==>
            Lookup(u, k, Start, run, 0).answer == PeerOf(h, a) || Lookup(u, k, Start, run, 0).answer == PeerOf(DoAll(h, stores), b))
  {
    var u := Observe(h, stores, known);
    var before, after := PeerOf(h, a), PeerOf(DoAll(h, stores), b);
    FallingUpwards(h, stores, known, top, 0);
    hide Falling, OnlyPeer, PeerTurns, Either, Upwards;
    forall j | 0 <= j < |u.heaps|
      ensures OutcomeAt(u, j, k, Start) == a || OutcomeAt(u, j, k, Start) == b
      ensures PeerFits(u, j, a, before, after) && PeerFits(u, j, b, before, after)
    {
      EitherAt(h, stores, known, k, a, b, j);
      PeersAnswer(h, stores, known, z, v, a, b, j);
    }
    SafeStart(u, 0, k, a, b, before, after);
    LookupIsAtomic(u, k, Start, run, 0, a, b, before, after);
  }
}
