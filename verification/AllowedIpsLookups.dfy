/** Add and RemoveNode are atomic for lookups. */
module AllowedIpsLookups {
  import opened AllowedIps
  import opened AllowedIpsUpdates
  import opened AllowedIpsReaders
  import opened AllowedIpsAtomic

  // ---------------------------------------------------------------- what Add prepares out of sight

  lemma MuteOne(h: Heap, st: Store, known: set<Id>)
    requires StoreOk(h, st, known) && DepthOf(h, st, known) == -1
    ensures Mute(h, [st], known)
  {
    assert [st][1..] == [];
    assert Mute(Do(h, st), [], known);
  }

  lemma MuteTwo(h: Heap, x: Store, y: Store, known: set<Id>)
    requires StoreOk(h, x, known) && DepthOf(h, x, known) == -1
    requires StoreOk(Do(h, x), y, known) && DepthOf(Do(h, x), y, known) == -1
    ensures Mute(h, [x, y], known)
  {
    assert [x, y][1..] == [y];
    MuteOne(Do(h, x), y, known);
  }

  lemma MutePrepare(h: Heap, n: Id, l: Label, q: Peer, known: set<Id>)
    requires n !in h.tag && n !in known
    ensures Mute(h, Prepare(n, l, q), known)
  {
    assert Prepare(n, l, q) == [SetPeer(n, Some(q))] + [Enlist(n, q), SetTag(n, l)];
    MuteOne(h, SetPeer(n, Some(q)), known);
    DoOne(h, SetPeer(n, Some(q)));
    MuteTwo(Do(h, SetPeer(n, Some(q))), Enlist(n, q), SetTag(n, l), known);
    MuteConcat(h, [SetPeer(n, Some(q))], [Enlist(n, q), SetTag(n, l)], known);
  }

  lemma MuteHang(h: Heap, m: Id, b: bool, d: Id, known: set<Id>)
    requires m !in known && d in h.tag && m in h.tag && Extends(h.tag[d], h.tag[m], b)
    ensures Mute(h, Connect(At(m, b), d), known)
  {
    MuteTwo(h, SetUp(d, At(m, b)), SetKid(At(m, b), Some(d)), known);
  }

  /** The last link of Add is the one store that readers see. */
  lemma PublishFalls(h: Heap, s: Slot, y: Id, known: set<Id>, top: int)
    requires y in h.tag && h.tag[y].cidr <= |h.tag[y].bits|
    requires match s
             case Top(w) => w == |h.tag[y].bits|
             case At(p, b) => p in known && p in h.tag && Extends(h.tag[y], h.tag[p], b)
    requires top > (if s.Top? then 0 else 2 * h.tag[s.node].cidr + 2)
    ensures Falling(h, Connect(s, y), known, top, 0)
  {
    var h1 := Do(h, SetUp(y, s));
    assert Connect(s, y)[1..] == [SetKid(s, Some(y))] && [SetKid(s, Some(y))][1..] == [];
    assert Falling(Do(h1, SetKid(s, Some(y))), [], KnownAfter(h1, SetKid(s, Some(y)), known), DepthOf(h1, SetKid(s, Some(y)), known), 0);
    assert Falling(h1, [SetKid(s, Some(y))], known, top, 0);
  }

  /** Whatever is prepared out of sight and published by one link is atomic for lookups. */
  lemma PublishEither(h: Heap, x: seq<Store>, s: Slot, y: Id, known: set<Id>, k: Key, top: int)
    requires Searchable(h) && Closed(h, known) && Mute(h, x, known)
    requires Falling(DoAll(h, x), Connect(s, y), known, top, 0) && Searchable(DoAll(h, x + Connect(s, y)))
    ensures Falling(h, x + Connect(s, y), known, top, 0)
    ensures Either(h, x + Connect(s, y), k, Search(h, k), Search(DoAll(h, x + Connect(s, y)), k))
  {
    var a, b := Search(h, k), Search(DoAll(h, x + Connect(s, y)), k);
    var h1 := DoAll(h, x);
    MuteFalls(h, x, known, top);
    FallingConcat(h, x, Connect(s, y), known, top, top, 0);
    EitherMute(h, x, known, k, a, b);
    DoAllConcat(h, x, Connect(s, y));
    DoConnect(h1, s, y);
    MuteOne(h1, SetUp(y, s), known);
    EitherMute(h1, [SetUp(y, s)], known, k, a, b);
    DoOne(h1, SetUp(y, s));
    EitherOne(Do(h1, SetUp(y, s)), SetKid(s, Some(y)), k, a, b);
    EitherConcat(h1, [SetUp(y, s)], [SetKid(s, Some(y))], k, a, b);
    assert Connect(s, y) == [SetUp(y, s)] + [SetKid(s, Some(y))];
    EitherConcat(h, x, Connect(s, y), k, a, b);
  }

  /** What atomicity asks of the stores of an update, apart from the peers. */
  ghost predicate Lookable(h: Heap, stores: seq<Store>, width: nat, k: Key) {
    && Falling(h, stores, h.tag.Keys, 2 * width + 3, 0)
    && Searchable(h) && Searchable(DoAll(h, stores))
    && Either(h, stores, k, Search(h, k), Search(DoAll(h, stores), k))
  }

  lemma TrieClosed(h: Heap, at: Index)
    requires Trie(h, at)
    ensures Searchable(h) && Closed(h, h.tag.Keys)
  {
    forall s | s in h.kid ensures h.kid[s] in h.tag { assert LinkFits(h, s); }
  }

  ghost predicate Publishable(h: Heap, x: seq<Store>, s: Slot, y: Id, l: Label) {
    var h1 := DoAll(h, x);
    && Mute(h, x, h.tag.Keys)
    && y in h1.tag && h1.tag[y].cidr <= |h1.tag[y].bits| == |l.bits|
    && match s
       case Top(w) => w == |h1.tag[y].bits|
       case At(p, b) => p in h.tag && p in h1.tag && Extends(h1.tag[y], h1.tag[p], b)
  }

  lemma PublishLookable(h: Heap, at: Index, x: seq<Store>, s: Slot, y: Id, l: Label, at': Index, k: Key)
    requires Trie(h, at) && Publishable(h, x, s, y, l) && Trie(DoAll(h, x + Connect(s, y)), at')
    ensures Lookable(h, x + Connect(s, y), |l.bits|, k)
  {
    TrieClosed(h, at);
    TrieClosed(DoAll(h, x + Connect(s, y)), at');
    hide Trie, Mute, Connect;
    PublishFalls(DoAll(h, x), s, y, h.tag.Keys, 2 * |l.bits| + 3);
    hide Publishable;
    PublishEither(h, x, s, y, h.tag.Keys, k, 2 * |l.bits| + 3);
  }

  lemma AttachPublishable(h: Heap, at: Index, l: Label, q: Peer, a: Id, s: Slot)
    requires Spare(h, at, l, s) && a !in h.tag
    ensures Publishable(h, Prepare(a, l, q), s, a, l)
  {
    MutePrepare(h, a, l, q, h.tag.Keys);
    DoPrepare(h, a, l, q);
    hide Mute, Prepare;
  }

  lemma WedgePublishable(h: Heap, at: Index, l: Label, q: Peer, a: Id, s: Slot)
    requires Spare(h, at, l, s) && a !in h.tag && s in h.kid && Fork(h, at, l, s) == l.cidr
    ensures Publishable(h, Prepare(a, l, q) + Connect(At(a, Side(h, at, l, s)), h.kid[s]), s, a, l)
  {
    var d, c1 := h.kid[s], Connect(At(a, Side(h, at, l, s)), h.kid[s]);
    var h1 := WithPeer(Tagged(h, a, l), a, q);
    MutePrepare(h, a, l, q, h.tag.Keys);
    DoPrepare(h, a, l, q);
    MuteHang(h1, a, Side(h, at, l, s), d, h.tag.Keys);
    DoConnect(h1, At(a, Side(h, at, l, s)), d);
    hide Mute, Prepare, Connect;
    DoAllConcat(h, Prepare(a, l, q), c1);
    MuteConcat(h, Prepare(a, l, q), c1, h.tag.Keys);
  }

  /** The stores of a split before its last link. */
  ghost function SplitPrepared(h: Heap, at: Index, l: Label, q: Peer, a: Id, m: Id, s: Slot): seq<Store>
    requires Spare(h, at, l, s) && s in h.kid
  {
    Prepare(a, l, q) + [SetTag(m, ForkLabel(h, at, l, s))]
      + Connect(At(m, Side(h, at, l, s)), h.kid[s]) + Connect(At(m, !Side(h, at, l, s)), a)
  }

  lemma MuteLabels(h: Heap, l: Label, q: Peer, a: Id, m: Id, lm: Label, known: set<Id>)
    requires a !in h.tag && a !in known && m !in h.tag && a != m
    ensures Mute(h, Prepare(a, l, q) + [SetTag(m, lm)], known)
    ensures DoAll(h, Prepare(a, l, q) + [SetTag(m, lm)]) == Tagged(WithPeer(Tagged(h, a, l), a, q), m, lm)
  {
    var h1 := WithPeer(Tagged(h, a, l), a, q);
    MutePrepare(h, a, l, q, known);
    DoPrepare(h, a, l, q);
    MuteOne(h1, SetTag(m, lm), known);
    DoOne(h1, SetTag(m, lm));
    hide Mute, Prepare;
    DoAllConcat(h, Prepare(a, l, q), [SetTag(m, lm)]);
    MuteConcat(h, Prepare(a, l, q), [SetTag(m, lm)], known);
  }

  lemma MuteChildren(h: Heap, m: Id, side: bool, d: Id, a: Id, known: set<Id>)
    requires m !in known && d in h.tag && a in h.tag && m in h.tag
    requires Extends(h.tag[d], h.tag[m], side) && Extends(h.tag[a], h.tag[m], !side)
    ensures Mute(h, Connect(At(m, side), d) + Connect(At(m, !side), a), known)
    ensures DoAll(h, Connect(At(m, side), d) + Connect(At(m, !side), a)) == Hang(Hang(h, At(m, side), d), At(m, !side), a)
  {
    var h3 := Hang(h, At(m, side), d);
    MuteHang(h, m, side, d, known);
    DoConnect(h, At(m, side), d);
    MuteHang(h3, m, !side, a, known);
    DoConnect(h3, At(m, !side), a);
    hide Mute, Connect;
    DoAllConcat(h, Connect(At(m, side), d), Connect(At(m, !side), a));
    MuteConcat(h, Connect(At(m, side), d), Connect(At(m, !side), a), known);
  }

  lemma MuteSplit(h: Heap, l: Label, q: Peer, a: Id, m: Id, lm: Label, side: bool, d: Id, known: set<Id>)
    requires a !in h.tag && a !in known && m !in h.tag && m !in known && a != m && d in h.tag
    requires Extends(h.tag[d], lm, side) && Extends(l, lm, !side)
    ensures var x := Prepare(a, l, q) + [SetTag(m, lm)] + Connect(At(m, side), d) + Connect(At(m, !side), a);
      Mute(h, x, known) && DoAll(h, x).tag == h.tag[a := l][m := lm]
  {
    var x := Prepare(a, l, q) + [SetTag(m, lm)];
    var c1, c2 := Connect(At(m, side), d), Connect(At(m, !side), a);
    MuteLabels(h, l, q, a, m, lm, known);
    MuteChildren(Tagged(WithPeer(Tagged(h, a, l), a, q), m, lm), m, side, d, a, known);
    hide Mute, Prepare, Connect, DoAll;
    DoAllConcat(h, x, c1 + c2);
    MuteConcat(h, x, c1 + c2, known);
    assert x + (c1 + c2) == x + c1 + c2;
  }

  lemma SplitSides(h: Heap, at: Index, l: Label, s: Slot)
    requires Trie(h, at) && Spare(h, at, l, s) && s in h.kid && Fork(h, at, l, s) < l.cidr
    ensures h.kid[s] in h.tag && Extends(h.tag[h.kid[s]], ForkLabel(h, at, l, s), Side(h, at, l, s))
    ensures Extends(l, ForkLabel(h, at, l, s), !Side(h, at, l, s))
    ensures Offers(h, at, s, ForkLabel(h, at, l, s)) && (s.At? ==> s.node in h.tag)
  {
    ForkOffers(h, at, s, l);
    ForkIs(h, at, l, s);
    ForkBits(h, at, l, s);
    hide Trie, Fork;
  }

  lemma PublishableFrom(h: Heap, at: Index, x: seq<Store>, s: Slot, m: Id, lm: Label, a: Id, l: Label)
    requires Mute(h, x, h.tag.Keys) && DoAll(h, x).tag == h.tag[a := l][m := lm] && a !in h.tag && m !in h.tag
    requires Offers(h, at, s, lm) && |lm.bits| == |l.bits|
    ensures Publishable(h, x, s, m, l)
  {
    hide Mute, DoAll;
  }

  lemma SplitPublishable(h: Heap, at: Index, l: Label, q: Peer, a: Id, m: Id, s: Slot)
    requires Trie(h, at) && Spare(h, at, l, s) && a !in h.tag && m !in h.tag && a != m
    requires s in h.kid && Fork(h, at, l, s) < l.cidr
    ensures Publishable(h, SplitPrepared(h, at, l, q, a, m, s), s, m, l)
  {
    SplitSides(h, at, l, s);
    hide Mute, Prepare, Connect, DoAll, Trie, Spare, Fork, Side, Extends, Live, Hang, Tagged, WithPeer;
    MuteSplit(h, l, q, a, m, ForkLabel(h, at, l, s), Side(h, at, l, s), h.kid[s], h.tag.Keys);
    hide Publishable, Offers;
    PublishableFrom(h, at, SplitPrepared(h, at, l, q, a, m, s), s, m, ForkLabel(h, at, l, s), a, l);
  }

  /** A failed second allocation is invisible. */
  lemma UndoLookable(h: Heap, at: Index, l: Label, q: Peer, a: Id, k: Key, width: nat)
    requires Trie(h, at) && a !in h.tag
    ensures Lookable(h, Prepare(a, l, q) + [Delist(a), Discard(a)], width, k)
  {
    var top := 2 * width + 3;
    var h1, known := WithPeer(Tagged(h, a, l), a, q), h.tag.Keys;
    var x, y := Prepare(a, l, q), [Delist(a), Discard(a)];
    TrieClosed(h, at);
    FreshNode(h, at, a);
    MutePrepare(h, a, l, q, known);
    DoPrepare(h, a, l, q);
    MuteTwo(h1, Delist(a), Discard(a), known);
    DoUndo(h, a, l, q);
    hide Mute, Prepare, Trie;
    MuteConcat(h, x, y, known);
    MuteFalls(h, x + y, known, top);
    FallingLower(h, x + y, known, top, top, 0);
    EitherMute(h, x + y, known, k, Search(h, k), Search(h, k));
  }

  lemma {:induction false} FallingLower(h: Heap, a: seq<Store>, known: set<Id>, top: int, bottom: int, bottom': int)
    requires Falling(h, a, known, top, bottom) && bottom' <= bottom
    ensures Falling(h, a, known, top, bottom')
    decreases a
  {
    if a != [] {
      var d := DepthOf(h, a[0], known);
      FallingLower(Do(h, a[0]), a[1..], KnownAfter(h, a[0], known), if d >= 0 then d else top, bottom, bottom');
    }
  }

  lemma UnderOnly(h: Heap, at: Index, l: Label, q: Peer, a: Id, b: Option<Id>, s: Slot)
    requires Spare(h, at, l, s)
    ensures OnlyPeer(AddUnder(h, at, l, q, a, b, s).stores, a, Some(q))
  {
    hide Spare, Fork;
  }

  lemma UnderLookable(h: Heap, at: Index, l: Label, q: Peer, a: Id, b: Option<Id>, s: Slot, k: Key)
    requires Trie(h, at) && Spare(h, at, l, s) && Allocates(h, Some(a), b)
    ensures Lookable(h, AddUnder(h, at, l, q, a, b, s).stores, |l.bits|, k)
  {
    var at' := UnderIndex(h, at, l, a, if b.Some? then b.value else 0, s);
    UnderFits(h, at, l, q, a, b, s);
    if s in h.kid { ForkIs(h, at, l, s); ForkBits(h, at, l, s); }
    hide Trie, Spare, Fork, Lookable, Publishable, Prepare, Connect, DoAll, UnderIndex;
    if s !in h.kid {
      AttachPublishable(h, at, l, q, a, s);
      PublishLookable(h, at, Prepare(a, l, q), s, a, l, at', k);
    } else if Fork(h, at, l, s) == l.cidr {
      WedgePublishable(h, at, l, q, a, s);
      PublishLookable(h, at, Prepare(a, l, q) + Connect(At(a, Side(h, at, l, s)), h.kid[s]), s, a, l, at', k);
    } else if b.None? {
      UndoLookable(h, at, l, q, a, k, |l.bits|);
    } else {
      SplitPublishable(h, at, l, q, a, b.value, s);
      PublishLookable(h, at, SplitPrepared(h, at, l, q, a, b.value, s), s, b.value, l, at', k);
    }
  }

  // ---------------------------------------------------------------- Add

  /** A lookup finds nodes that carry a peer. */
  lemma SearchCarries(h: Heap, at: Index, k: Key)
    requires Linked(h, at)
    ensures Search(h, k).Some? ==> PeerOf(h, Search(h, k)).Some?
  {
    SearchIsRoute(h, at, k);
  }

  /** A visible store, then stores nobody sees. */
  lemma StrikeFalls(h: Heap, st: Store, x: seq<Store>, known: set<Id>, top: int)
    requires StoreOk(h, st, known) && 0 <= DepthOf(h, st, known) < top
    requires KnownAfter(h, st, known) == known && Mute(Do(h, st), x, known)
    ensures Falling(h, [st] + x, known, top, 0)
  {
    var d := DepthOf(h, st, known);
    MuteFalls(Do(h, st), x, known, d);
    FallingLower(Do(h, st), x, known, d, d, 0);
    assert ([st] + x)[1..] == x;
  }

  lemma StrikeEither(h: Heap, st: Store, x: seq<Store>, known: set<Id>, k: Key, a: Option<Id>, b: Option<Id>)
    requires Searchable(h) && (Search(h, k) == a || Search(h, k) == b)
    requires Searchable(Do(h, st)) && (Search(Do(h, st), k) == a || Search(Do(h, st), k) == b)
    requires Closed(Do(h, st), known) && Mute(Do(h, st), x, known)
    ensures Either(h, [st] + x, k, a, b)
  {
    DoOne(h, st);
    EitherOne(h, st, k, a, b);
    EitherMute(Do(h, st), x, known, k, a, b);
    EitherConcat(h, [st], x, k, a, b);
  }

  lemma ReplaceFalls(h: Heap, n: Id, q: Peer, top: int)
    requires n in h.tag && top > 2 * h.tag[n].cidr + 1
    ensures Falling(h, [SetPeer(n, Some(q)), Delist(n), Enlist(n, q)], h.tag.Keys, top, 0)
  {
    var st, x := SetPeer(n, Some(q)), [Delist(n), Enlist(n, q)];
    MuteTwo(Do(h, st), Delist(n), Enlist(n, q), h.tag.Keys);
    assert [SetPeer(n, Some(q)), Delist(n), Enlist(n, q)] == [st] + x;
    hide Mute, Falling;
    StrikeFalls(h, st, x, h.tag.Keys, top);
  }

  lemma ReplaceEither(h: Heap, at: Index, n: Id, q: Peer, k: Key)
    requires Trie(h, at) && Trie(WithPeer(h, n, q), at)
    ensures Either(h, [SetPeer(n, Some(q)), Delist(n), Enlist(n, q)], k, Search(h, k), Search(WithPeer(h, n, q), k))
  {
    hide Linked, Compact, Listed, Mute, Either, Closed, Find, Search, Searchable;
    var st, x := SetPeer(n, Some(q)), [Delist(n), Enlist(n, q)];
    var h1, h', known := Do(h, st), WithPeer(h, n, q), h.tag.Keys;
    TrieClosed(h, at);
    LinkedSame(h, h1, at);
    LinkedSearchable(h1, at);
    LinkedSearchable(h', at);
    SearchSame(h1, h', at, k);
    MuteTwo(h1, Delist(n), Enlist(n, q), known);
    StoreCloses(h, st, known);
    assert [SetPeer(n, Some(q)), Delist(n), Enlist(n, q)] == [st] + x;
    StrikeEither(h, st, x, known, k, Search(h, k), Search(h', k));
  }

  lemma LinkedSearchable(h: Heap, at: Index)
    requires Linked(h, at)
    ensures Searchable(h)
  {
  }

  lemma ReplaceOnly(n: Id, q: Peer)
    ensures OnlyPeer([SetPeer(n, Some(q)), Delist(n), Enlist(n, q)], n, Some(q))
  {
  }

  lemma ReplaceLookable(h: Heap, at: Index, n: Id, q: Peer, k: Key, width: nat)
    requires Trie(h, at) && Trie(WithPeer(h, n, q), at) && n in h.tag && h.tag[n].cidr <= width
    ensures Lookable(h, [SetPeer(n, Some(q)), Delist(n), Enlist(n, q)], width, k)
  {
    DoReplace(h, n, q);
    ReplaceFalls(h, n, q, 2 * width + 3);
    ReplaceEither(h, at, n, q, k);
    hide Falling, Either, WithPeer, Do, DoAll;
  }

  lemma SearchSame(h: Heap, h': Heap, at: Index, k: Key)
    requires Linked(h, at) && Linked(h', at) && h'.kid == h.kid && h'.tag == h.tag && h'.peer.Keys == h.peer.Keys
    ensures Search(h', k) == Search(h, k)
  {
    SearchBest(h, at, k);
    SearchBest(h', at, k);
    BestSame(h, h', at, k, |k|);
  }

  lemma {:induction false} BestSame(h: Heap, h': Heap, at: Index, k: Key, i: nat)
    requires i <= |k| && h'.peer.Keys == h.peer.Keys
    ensures Best(h', at, k, 0, i) == Best(h, at, k, 0, i)
  {
    if i > 0 { BestSame(h, h', at, k, i - 1); }
  }

  /** The one peer an update writes, and what it writes. */
  ghost function Written(h: Heap, at: Index, k0: Key, cidr: nat, q: Peer, a: Option<Id>): Id
    requires Linked(h, at) && cidr <= |k0|
  {
    if Top(|k0|) in h.kid && Spotted(h, k0, cidr).exact then
      SpottedFinds(h, at, k0, cidr);
      Spotted(h, k0, cidr).node.value
    else if a.Some? then a.value else 0
  }

  lemma FirstLookable(h: Heap, at: Index, l: Label, q: Peer, a: Id, at': Index, k: Key)
    requires Trie(h, at) && a !in h.tag && l.cidr <= |l.bits| && Top(|l.bits|) !in h.kid
    requires Trie(DoAll(h, Prepare(a, l, q) + Connect(Top(|l.bits|), a)), at')
    ensures Lookable(h, Prepare(a, l, q) + Connect(Top(|l.bits|), a), |l.bits|, k)
    ensures OnlyPeer(Prepare(a, l, q) + Connect(Top(|l.bits|), a), a, Some(q))
  {
    EmptyIsSpare(h, at, l);
    AttachPublishable(h, at, l, q, a, Top(|l.bits|));
    hide Trie, Publishable, Lookable, DoAll;
    PublishLookable(h, at, Prepare(a, l, q), Top(|l.bits|), a, l, at', k);
  }

  /** The three shapes of Add's stores. */
  lemma AddStores(h: Heap, at: Index, k0: Key, cidr: nat, q: Peer, a: Option<Id>, b: Option<Id>)
    requires Trie(h, at) && cidr <= |k0|
    ensures var stores, l := Add(h, at, k0, cidr, Some(q), a, b).stores, Label(cidr, k0);
      if Top(|k0|) in h.kid && Spotted(h, k0, cidr).exact then
        var n := Written(h, at, k0, cidr, q, a);
        && Add(h, at, k0, cidr, Some(q), a, b).status.Success?
        && stores == [SetPeer(n, Some(q)), Delist(n), Enlist(n, q)]
        && n in h.tag && h.tag[n].cidr <= |k0| && DoAll(h, stores) == WithPeer(h, n, q)
      else
        && Written(h, at, k0, cidr, q, a) == (if a.Some? then a.value else 0)
        && (a.None? ==> stores == [])
        && (a.Some? && Top(|k0|) !in h.kid ==>
              && Add(h, at, k0, cidr, Some(q), a, b).status.Success?
              && stores == Prepare(a.value, l, q) + Connect(Top(|k0|), a.value))
        && (a.Some? && Top(|k0|) in h.kid ==>
              var spot := Spotted(h, k0, cidr);
              && (spot.node.Some? ==> spot.node.value in h.tag && h.tag[spot.node.value].cidr < |k0|)
              && Spare(h, at, l, SlotAt(h, spot.node, k0))
              && stores == AddUnder(h, at, l, q, a.value, b, SlotAt(h, spot.node, k0)).stores)
  {
    hide Prepare, Connect, AddUnder, Spare, DoAll;
    if Top(|k0|) in h.kid {
      if Spotted(h, k0, cidr).exact {
        SpottedFinds(h, at, k0, cidr);
        DoReplace(h, Spotted(h, k0, cidr).node.value, q);
      } else {
        SpotIsSpare(h, at, k0, cidr);
      }
    }
  }

  /** What lookups may make of Add's stores. */
  ghost predicate AddSeen(h: Heap, at: Index, k0: Key, cidr: nat, q: Peer, a: Option<Id>, b: Option<Id>, k: Key)
    requires Trie(h, at) && cidr <= |k0|
  {
    && Lookable(h, Add(h, at, k0, cidr, Some(q), a, b).stores, |k0|, k)
    && OnlyPeer(Add(h, at, k0, cidr, Some(q), a, b).stores, Written(h, at, k0, cidr, q, a), Some(q))
  }

  lemma ExactSeen(h: Heap, at: Index, k0: Key, cidr: nat, q: Peer, a: Option<Id>, b: Option<Id>, k: Key)
    requires Trie(h, at) && Allocates(h, a, b) && cidr <= |k0| && Top(|k0|) in h.kid && Spotted(h, k0, cidr).exact
    ensures AddSeen(h, at, k0, cidr, q, a, b, k)
  {
    AddStores(h, at, k0, cidr, q, a, b);
    AddUpdates(h, at, k0, cidr, Some(q), a, b);
    hide Trie, Lookable, OnlyPeer, DoAll, Add, Spotted, Written, WithPeer;
    ReplaceOnly(Written(h, at, k0, cidr, q, a), q);
    ReplaceLookable(h, at, Written(h, at, k0, cidr, q, a), q, k, |k0|);
  }

  lemma FirstSeen(h: Heap, at: Index, k0: Key, cidr: nat, q: Peer, a: Option<Id>, b: Option<Id>, k: Key)
    requires Trie(h, at) && Allocates(h, a, b) && cidr <= |k0| && Top(|k0|) !in h.kid && a.Some?
    ensures AddSeen(h, at, k0, cidr, q, a, b, k)
  {
    AddStores(h, at, k0, cidr, q, a, b);
    AddUpdates(h, at, k0, cidr, Some(q), a, b);
    hide Trie, Lookable, OnlyPeer, DoAll, Add, Connect, Prepare, Written;
    FirstLookable(h, at, Label(cidr, k0), q, a.value, AddIndex(h, at, k0, cidr, a.value, if b.Some? then b.value else 0), k);
  }

  lemma UnderStores(h: Heap, at: Index, k0: Key, cidr: nat, q: Peer, a: Option<Id>, b: Option<Id>) returns (s: Slot)
    requires Trie(h, at) && cidr <= |k0| && a.Some? && Top(|k0|) in h.kid && !Spotted(h, k0, cidr).exact
    ensures Spare(h, at, Label(cidr, k0), s)
    ensures Add(h, at, k0, cidr, Some(q), a, b).stores == AddUnder(h, at, Label(cidr, k0), q, a.value, b, s).stores
    ensures Written(h, at, k0, cidr, q, a) == a.value
  {
    AddStores(h, at, k0, cidr, q, a, b);
    hide Add, AddUnder, Spare, Written, Spotted;
    s := SlotAt(h, Spotted(h, k0, cidr).node, k0);
  }

  lemma UnderSeen(h: Heap, at: Index, k0: Key, cidr: nat, q: Peer, a: Option<Id>, b: Option<Id>, k: Key)
    requires Trie(h, at) && Allocates(h, a, b) && cidr <= |k0| && a.Some?
    requires Top(|k0|) in h.kid && !Spotted(h, k0, cidr).exact
    ensures AddSeen(h, at, k0, cidr, q, a, b, k)
  {
    var s := UnderStores(h, at, k0, cidr, q, a, b);
    var l := Label(cidr, k0);
    hide Trie, Lookable, OnlyPeer, Add, AddUnder, Spare, Written;
    UnderOnly(h, at, l, q, a.value, b, s);
    UnderLookable(h, at, l, q, a.value, b, s, k);
  }

  lemma AddLookable(h: Heap, at: Index, k0: Key, cidr: nat, q: Peer, a: Option<Id>, b: Option<Id>, k: Key)
    requires Trie(h, at) && Allocates(h, a, b) && cidr <= |k0|
    ensures AddSeen(h, at, k0, cidr, q, a, b, k)
  {
    if Top(|k0|) in h.kid && Spotted(h, k0, cidr).exact { ExactSeen(h, at, k0, cidr, q, a, b, k); }
    else if a.None? {
      NothingLookable(h, at, k, |k0|, 0, Some(q));
      AddStores(h, at, k0, cidr, q, a, b);
      hide Trie, Lookable, OnlyPeer, Add, Written, Spotted;
    }
    else if Top(|k0|) !in h.kid { FirstSeen(h, at, k0, cidr, q, a, b, k); }
    else { UnderSeen(h, at, k0, cidr, q, a, b, k); }
  }

  lemma NothingLookable(h: Heap, at: Index, k: Key, width: nat, z: Id, v: Option<Peer>)
    requires Trie(h, at)
    ensures Lookable(h, [], width, k) && OnlyPeer([], z, v)
  {
  }

  lemma AddTurns(h: Heap, at: Index, k0: Key, cidr: nat, q: Peer, a: Option<Id>, b: Option<Id>, k: Key, at': Index)
    requires Trie(h, at) && Allocates(h, a, b) && cidr <= |k0|
    requires var h' := DoAll(h, Add(h, at, k0, cidr, Some(q), a, b).stores); Trie(h', at')
    ensures var h' := DoAll(h, Add(h, at, k0, cidr, Some(q), a, b).stores);
      a.Some? || (Top(|k0|) in h.kid && Spotted(h, k0, cidr).exact) ==>
      PeerTurns(h, h', Written(h, at, k0, cidr, q, a), Some(q), Search(h, k), Search(h', k))
  {
    var stores, z := Add(h, at, k0, cidr, Some(q), a, b).stores, Written(h, at, k0, cidr, q, a);
    if Top(|k0|) in h.kid && Spotted(h, k0, cidr).exact {
      AddStores(h, at, k0, cidr, q, a, b);
      hide Add, Trie, Spotted, Written, PeerTurns;
      ExactTurns(h, at, z, q, k, at');
    } else if a.Some? {
      AddStores(h, at, k0, cidr, q, a, b);
      AddLookable(h, at, k0, cidr, q, a, b, k);
      hide Add, Trie, Spotted, Lookable, Written, PeerTurns, OnlyPeer, AddUnder, Prepare, Connect;
      NewTurns(h, at, stores, a.value, q, k, at');
    }
  }

  /** Peers change only where a lookup finds the same node before and after. */
  lemma ExactTurns(h: Heap, at: Index, n: Id, q: Peer, k: Key, at': Index)
    requires Trie(h, at) && Trie(WithPeer(h, n, q), at')
    ensures PeerTurns(h, WithPeer(h, n, q), n, Some(q), Search(h, k), Search(WithPeer(h, n, q), k))
  {
    hide Linked, Compact, Listed, Searchable, Search;
    SearchCarries(h, at, k);
    if n in h.peer { ReplacedSearch(h, at, n, q, k, at'); }
  }

  lemma NewTurns(h: Heap, at: Index, stores: seq<Store>, n: Id, q: Peer, k: Key, at': Index)
    requires Trie(h, at) && n !in h.tag && OnlyPeer(stores, n, Some(q)) && Trie(DoAll(h, stores), at')
    ensures PeerTurns(h, DoAll(h, stores), n, Some(q), Search(h, k), Search(DoAll(h, stores), k))
  {
    SearchCarries(h, at, k);
    SearchCarries(DoAll(h, stores), at', k);
    TrieFresh(h, at, n);
    PeerPath(h, stores, n, Some(q), n);
    hide Trie, OnlyPeer;
  }

  lemma ReplacedSearch(h: Heap, at: Index, n: Id, q: Peer, k: Key, at': Index)
    requires Trie(h, at) && n in h.peer && Trie(WithPeer(h, n, q), at')
    ensures Search(WithPeer(h, n, q), k) == Search(h, k)
  {
    LinkedSame(h, WithPeer(h, n, q), at);
    SearchSame(h, WithPeer(h, n, q), at, k);
  }

  /** A lookup that overlaps an Add, in any interleaving of its reads with the stores of the Add, gives
      what the map gives without the new entry, or, if the Add succeeds, with it. */
  lemma AddIsAtomic(h: Heap, at: Index, k0: Key, cidr: nat, q: Option<Peer>, a: Option<Id>, b: Option<Id>, k: Key, run: seq<Moment>)
    requires Trie(h, at) && Allocates(h, a, b)
    requires Ordered(Observe(h, Add(h, at, k0, cidr, q, a, b).stores, h.tag.Keys), run, 0)
    ensures var plan := Add(h, at, k0, cidr, q, a, b); var u := Observe(h, plan.stores, h.tag.Keys);
      && Upwards(u)
      && var r := Lookup(u, k, Start, run, 0);
         r.Answered? ==>
           || r.answer == Route(Table(h, at), k)
           || (plan.status.Success? && r.answer == Route(Table(h, at)[Net(|k0|, k0[..cidr]) := q.value], k))
  {
    var plan := Add(h, at, k0, cidr, q, a, b);
    var h' := DoAll(h, plan.stores);
    TrieClosed(h, at);
    if cidr > |k0| || q.None? {
      NothingAtomic(h, at, k, run);
    } else if a.None? && !(Top(|k0|) in h.kid && Spotted(h, k0, cidr).exact) {
      AddStores(h, at, k0, cidr, q.value, a, b);
      hide Add, Trie, Table, Observe;
      NothingAtomic(h, at, k, run);
    } else {
      AddUpdates(h, at, k0, cidr, q, a, b);
      var at' := if plan.status.Success? then AddIndex(h, at, k0, cidr, if a.Some? then a.value else 0, if b.Some? then b.value else 0) else at;
      hide Add, Trie, DoAll, AddIndex, Table, Observe;
      AddLookable(h, at, k0, cidr, q.value, a, b, k);
      AddTurns(h, at, k0, cidr, q.value, a, b, k, at');
      LookableAtomic(h, at, at', plan.stores, |k0|, Written(h, at, k0, cidr, q.value, a), q, k, run);
    }
  }

  lemma NothingAtomic(h: Heap, at: Index, k: Key, run: seq<Moment>)
    requires Trie(h, at) && Ordered(Observe(h, [], h.tag.Keys), run, 0)
    ensures var u := Observe(h, [], h.tag.Keys);
      Upwards(u) && (Lookup(u, k, Start, run, 0).Answered? ==> Lookup(u, k, Start, run, 0).answer == Route(Table(h, at), k))
  {
    var v := PeerOf(h, Some(0));
    NothingLookable(h, at, k, 0, 0, v);
    hide Lookable, OnlyPeer;
    LookableAtomic(h, at, at, [], 0, 0, v, k, run);
  }

  lemma LookableAtomic(h: Heap, at: Index, at': Index, stores: seq<Store>, width: nat, z: Id, v: Option<Peer>, k: Key, run: seq<Moment>)
    requires Trie(h, at) && Trie(DoAll(h, stores), at') && Lookable(h, stores, width, k) && OnlyPeer(stores, z, v)
    requires PeerTurns(h, DoAll(h, stores), z, v, Search(h, k), Search(DoAll(h, stores), k))
    requires Ordered(Observe(h, stores, h.tag.Keys), run, 0)
    ensures var u := Observe(h, stores, h.tag.Keys);
      && Upwards(u)
      && var r := Lookup(u, k, Start, run, 0);
         r.Answered? ==> r.answer == Route(Table(h, at), k) || r.answer == Route(Table(DoAll(h, stores), at'), k)
  {
    TrieClosed(h, at);
    hide OnlyPeer, PeerTurns, Falling, Either, Table, Route, Upwards;
    UpdateIsAtomic(h, stores, h.tag.Keys, 2 * width + 3, z, v, k, Search(h, k), Search(DoAll(h, stores), k), run);
    SearchIsRoute(h, at, k);
    SearchIsRoute(DoAll(h, stores), at', k);
  }

  // ---------------------------------------------------------------- RemoveNode

  /** Without nodes that carry no peer a lookup finds the same. */
  lemma {:induction false} BestForgets(h: Heap, h': Heap, at: Index, p: Net, k: Key, i: nat)
    requires i <= |k| && h'.peer == h.peer && (p in at ==> at[p] !in h.peer)
    ensures Best(h', at - {p}, k, 0, i) == Best(h, at, k, 0, i)
  {
    if i > 0 { BestForgets(h, h', at, p, k, i - 1); }
  }

  lemma SplicedSearch(h: Heap, at: Index, n: Id, k: Key)
    requires Linked(h, at) && Live(h, at, n) && n !in h.peer
    requires !(At(n, false) in h.kid && At(n, true) in h.kid)
    ensures n in h.up && Searchable(Spliced(h, n)) && Search(Spliced(h, n), k) == Search(h, k)
  {
    SpliceKeeps(h, at, n);
    BestForgets(h, Spliced(h, n), at, NetOf(h.tag[n]), k, |k|);
    SearchBest(h, at, k);
    hide Linked, Spliced, Best;
    SearchBest(Spliced(h, n), at - {NetOf(h.tag[n])}, k);
  }

  ghost function SlotDepth(h: Heap, s: Slot): int
    requires s.At? ==> s.node in h.tag
  {
    if s.Top? then 0 else 2 * h.tag[s.node].cidr + 2
  }

  /** What lookups may make of some of the stores of RemoveNode. */
  ghost predicate Seen(h: Heap, stores: seq<Store>, known: set<Id>, top: int, bottom: int, k: Key, a: Option<Id>, b: Option<Id>) {
    && Falling(h, stores, known, top, bottom) && KnownAll(h, stores, known) == known
    && Either(h, stores, k, a, b)
  }

  lemma SeenConcat(h: Heap, x: seq<Store>, y: seq<Store>, known: set<Id>, top: int, mid: int, bottom: int, k: Key, a: Option<Id>, b: Option<Id>)
    requires Seen(h, x, known, top, mid, k, a, b) && Seen(DoAll(h, x), y, known, mid, bottom, k, a, b)
    ensures Seen(h, x + y, known, top, bottom, k, a, b)
  {
    FallingConcat(h, x, y, known, top, mid, bottom);
    EitherConcat(h, x, y, k, a, b);
  }

  lemma SeenMute(h: Heap, x: seq<Store>, known: set<Id>, top: int, k: Key, a: Option<Id>, b: Option<Id>)
    requires Searchable(h) && Closed(h, known) && Mute(h, x, known) && (Search(h, k) == a || Search(h, k) == b)
    ensures Seen(h, x, known, top, top, k, a, b)
  {
    MuteFalls(h, x, known, top);
    EitherMute(h, x, known, k, a, b);
  }

  lemma SeenStrike(h: Heap, st: Store, known: set<Id>, top: int, d: int, k: Key, a: Option<Id>, b: Option<Id>)
    requires StoreOk(h, st, known) && DepthOf(h, st, known) == d && 0 <= d < top && KnownAfter(h, st, known) == known
    requires Searchable(h) && Searchable(Do(h, st))
    requires (Search(h, k) == a || Search(h, k) == b) && (Search(Do(h, st), k) == a || Search(Do(h, st), k) == b)
    ensures Seen(h, [st], known, top, d, k, a, b)
  {
    assert [st][1..] == [];
    assert Falling(Do(h, st), [], known, d, d);
    EitherOne(h, st, k, a, b);
  }

  /** The parent pointer is seen by no lookup. */
  lemma UnlinkFirst(h: Heap, n: Id, s: Slot, c: Option<Id>)
    ensures var x := if c.Some? then [SetUp(c.value, s)] else [];
      && Mute(h, x, h.tag.Keys) && DoAll(h, x).tag == h.tag && DoAll(h, x).kid == h.kid
  {
    if c.Some? { MuteOne(h, SetUp(c.value, s), h.tag.Keys); DoOne(h, SetUp(c.value, s)); }
  }

  /** The stores that take node n, which has one child at most and no peer, out of the trie. */
  lemma UnlinkSeen(h: Heap, at: Index, n: Id, top: int, k: Key, a: Option<Id>, b: Option<Id>)
    requires Linked(h, at) && Live(h, at, n) && n in h.up && (h.up[n].At? ==> h.up[n].node in h.tag) && n !in h.peer
    requires !(At(n, false) in h.kid && At(n, true) in h.kid) && SlotDepth(h, h.up[n]) < top
    requires Closed(h, h.tag.Keys) && (Search(h, k) == a || Search(h, k) == b)
    ensures Seen(h, Unlink(n, h.up[n], Only(h, n)), h.tag.Keys, top, SlotDepth(h, h.up[n]), k, a, b)
  {
    var s, c, known := h.up[n], Only(h, n), h.tag.Keys;
    var x := if c.Some? then [SetUp(c.value, s)] else [];
    var st := SetKid(s, c);
    var h1 := DoAll(h, x);
    UnlinkFirst(h, n, s, c);
    SpliceLinkFits(h, at, n);
    hide Linked, Mute, Falling, Either, Find, DoAll, Spliced, Live, KnownAll;
    SplicedSearch(h, at, n, k);
    DoUnlink(h, n);
    DoAllConcat(h, x, [st]);
    DoOne(h1, st);
    EitherMute(h, x, known, k, a, b);
    SeenMute(h, x, known, top, k, a, b);
    SeenStrike(h1, st, known, top, SlotDepth(h, s), k, a, b);
    SeenConcat(h, x, [st], known, top, top, SlotDepth(h, s), k, a, b);
  }

  lemma SpliceLinkFits(h: Heap, at: Index, n: Id)
    requires Linked(h, at) && Live(h, at, n) && n in h.up
    ensures Only(h, n).Some? ==> LinkFits(h.(kid := h.kid[h.up[n] := Only(h, n).value]), h.up[n])
  {
    assert NodeFits(h, at, n);
    SpliceLinks(h, at, n);
    assert h.up[n] in Spliced(h, n).kid ==> LinkFits(Spliced(h, n), h.up[n]);
  }

  /** The peer goes first. */
  lemma ClearSeen(h: Heap, at: Index, n: Id, top: int, d: int, k: Key, a: Option<Id>, b: Option<Id>)
    requires Trie(h, at) && Live(h, at, n) && d == 2 * h.tag[n].cidr + 1 && d < top
    requires Search(h, k) == a && Searchable(Cleared(h, n)) && Search(Cleared(h, n), k) == b
    ensures Seen(h, [Delist(n), SetPeer(n, None)], h.tag.Keys, top, d, k, a, b)
  {
    hide Linked, Compact, Listed, NetFits, NodeFits;
    var known := h.tag.Keys;
    var h1 := Do(h, Delist(n));
    TrieClosed(h, at);
    MuteOne(h, Delist(n), known);
    DoOne(h, Delist(n));
    var st := SetPeer(n, None);
    assert Do(h1, st) == Cleared(h, n);
    assert [Delist(n), st] == [Delist(n)] + [st];
    assert StoreOk(h1, st, known) && DepthOf(h1, st, known) == d && KnownAfter(h1, st, known) == known;
    hide Trie, Live, Mute, Falling, Either, Find, Seen, StoreOk, DepthOf, KnownAfter, Cleared;
    EitherMute(h, [Delist(n)], known, k, a, b);
    SeenMute(h, [Delist(n)], known, top, k, a, b);
    SeenStrike(h1, st, known, top, d, k, a, b);
    SeenConcat(h, [Delist(n)], [st], known, top, top, d, k, a, b);
  }

  /** Node n leaves the trie and is handed to RCU. */
  lemma CutSeen(h: Heap, at: Index, n: Id, top: int, k: Key, a: Option<Id>, b: Option<Id>)
    requires Linked(h, at) && Live(h, at, n) && n in h.up && (h.up[n].At? ==> h.up[n].node in h.tag) && n !in h.peer
    requires !(At(n, false) in h.kid && At(n, true) in h.kid) && SlotDepth(h, h.up[n]) < top
    requires Closed(h, h.tag.Keys) && (Search(h, k) == a || Search(h, k) == b)
    ensures Seen(h, Unlink(n, h.up[n], Only(h, n)) + [Retire(n)], h.tag.Keys, top, SlotDepth(h, h.up[n]), k, a, b)
    ensures DoAll(h, Unlink(n, h.up[n], Only(h, n)) + [Retire(n)]) == Spliced(h, n)
    ensures Closed(Spliced(h, n), h.tag.Keys) && Searchable(Spliced(h, n)) && Search(Spliced(h, n), k) == Search(h, k)
  {
    var x, known, d := Unlink(n, h.up[n], Only(h, n)), h.tag.Keys, SlotDepth(h, h.up[n]);
    SplicedSearch(h, at, n, k);
    SplicedClosed(h, at, n);
    DoUnlink(h, n);
    DoAllConcat(h, x, [Retire(n)]);
    DoOne(Spliced(h, n), Retire(n));
    MuteOne(Spliced(h, n), Retire(n), known);
    UnlinkSeen(h, at, n, top, k, a, b);
    hide Linked, Live, Mute, Seen, Find, DoAll, Spliced, Unlink, Only;
    SeenMute(Spliced(h, n), [Retire(n)], known, d, k, a, b);
    SeenConcat(h, x, [Retire(n)], known, top, d, d, k, a, b);
  }

  lemma SplicedClosed(h: Heap, at: Index, n: Id)
    requires Linked(h, at) && Live(h, at, n) && n in h.up
    ensures Closed(Spliced(h, n), h.tag.Keys)
  {
    assert NodeFits(h, at, n);
    SpliceLinks(h, at, n);
    forall s | s in Spliced(h, n).kid ensures Spliced(h, n).kid[s] in h.tag { assert LinkFits(Spliced(h, n), s); }
  }

  lemma ClearedTrie(h: Heap, at: Index, n: Id)
    requires Trie(h, at) && Live(h, at, n)
    ensures var h1 := Cleared(h, n);
      && Linked(h1, at) && Live(h1, at, n) && n !in h1.peer && Searchable(h1) && Closed(h1, h1.tag.Keys)
      && n in h1.up && (h1.up[n].At? ==> Live(h1, at, h1.up[n].node) && h1.tag[h1.up[n].node].cidr < h1.tag[n].cidr)
  {
    ClearedLinked(h, at, n);
    TrieClosed(h, at);
    assert NodeFits(h, at, n) && LinkFits(h, h.up[n]);
  }

  /** After the leaf is cut its parent can be cut too. */
  lemma LeafCutTrie(h: Heap, at: Index, n: Id)
    requires Trie(h, at) && Live(h, at, n) && n in h.up && FreesParent(h, n)
    ensures var p, h2, at1 := h.up[n].node, Spliced(Cleared(h, n), n), at - {NetOf(h.tag[n])};
      && Linked(h2, at1) && Live(h2, at1, p) && p !in h2.peer && h2.tag == h.tag
      && !(At(p, false) in h2.kid && At(p, true) in h2.kid)
      && p in h.up && p in h2.up && h2.up[p] == h.up[p] && Only(h2, p) == Kid(h, At(p, !h.up[n].bit))
      && (h.up[p].At? ==> h.up[p].node in h.tag && h.tag[h.up[p].node].cidr < h.tag[p].cidr)
  {
    var p, h1 := h.up[n].node, Cleared(h, n);
    ClearedTrie(h, at, n);
    SpliceKeeps(h1, at, n);
    LeafCut(h, at, n);
    SiblingOf(h, at, n);
    assert LinkFits(h, At(p, h.up[n].bit)) && NodeFits(h, at, p) && LinkFits(h, h.up[p]);
    assert NetOf(h.tag[p]) != NetOf(h.tag[n]);
    hide Linked, Compact, Listed;
  }

  /** RemoveNode without the parent. */
  lemma RemoveLeafSeen(h: Heap, at: Index, n: Id, top: int, k: Key)
    requires Trie(h, at) && Live(h, at, n) && n in h.up && top > 2 * |h.tag[n].bits| + 2
    requires !(At(n, false) in h.kid && At(n, true) in h.kid)
    ensures var h1 := Cleared(h, n);
      && (h.up[n].At? ==> h.up[n].node in h.tag)
      && Searchable(h1) && Searchable(Spliced(h1, n)) && Search(Spliced(h1, n), k) == Search(h1, k)
      && Closed(Spliced(h1, n), h.tag.Keys)
      && Seen(h, [Delist(n), SetPeer(n, None)] + (Unlink(n, h.up[n], Only(h, n)) + [Retire(n)]), h.tag.Keys, top,
              SlotDepth(h, h.up[n]), k, Search(h, k), Search(h1, k))
      && DoAll(h, [Delist(n), SetPeer(n, None)] + (Unlink(n, h.up[n], Only(h, n)) + [Retire(n)])) == Spliced(h1, n)
  {
    var h1, known, d := Cleared(h, n), h.tag.Keys, 2 * h.tag[n].cidr + 1;
    var clear, cut := [Delist(n), SetPeer(n, None)], Unlink(n, h.up[n], Only(h, n)) + [Retire(n)];
    ClearedTrie(h, at, n);
    assert SlotDepth(h1, h1.up[n]) == SlotDepth(h, h.up[n]) && Only(h1, n) == Only(h, n);
    DoClear(h, n);
    DoAllConcat(h, clear, cut);
    hide Trie, Linked, Find, Seen, DoAll, Unlink, Only, Spliced;
    var a, b := Search(h, k), Search(h1, k);
    ClearSeen(h, at, n, top, d, k, a, b);
    CutSeen(h1, at, n, d, k, a, b);
    SeenConcat(h, clear, cut, known, top, d, SlotDepth(h, h.up[n]), k, a, b);
  }

  /** RemoveNode with the parent. */
  lemma RemoveParentSeen(h: Heap, at: Index, n: Id, first: seq<Store>, top: int, k: Key, a: Option<Id>, b: Option<Id>)
    requires Trie(h, at) && Live(h, at, n) && n in h.up && FreesParent(h, n) && h.up[n].node in h.tag && h.up[n].node in h.up
    requires var h2 := Spliced(Cleared(h, n), n);
      && DoAll(h, first) == h2 && Searchable(h2) && Search(h2, k) == b && Closed(h2, h.tag.Keys)
    requires Seen(h, first, h.tag.Keys, top, SlotDepth(h, h.up[n]), k, a, b)
    ensures var p := h.up[n].node; (h.up[p].At? ==> h.up[p].node in h.tag)
    ensures var p := h.up[n].node; var h3 := Spliced(Spliced(Cleared(h, n), n), p);
      && Searchable(h3) && Search(h3, k) == b
      && Seen(h, first + (Unlink(p, h.up[p], Kid(h, At(p, !h.up[n].bit))) + [Retire(p)]), h.tag.Keys, top,
              SlotDepth(h, h.up[p]), k, a, b)
  {
    var p, h2, at1 := h.up[n].node, Spliced(Cleared(h, n), n), at - {NetOf(h.tag[n])};
    LeafCutTrie(h, at, n);
    assert SlotDepth(h2, h2.up[p]) == SlotDepth(h, h.up[p]) && SlotDepth(h, h.up[p]) < SlotDepth(h, h.up[n]);
    hide Trie, Linked, Find, Seen, DoAll, Unlink, Only, Spliced, Cleared, Live;
    CutSeen(h2, at1, p, SlotDepth(h, h.up[n]), k, a, b);
    SeenConcat(h, first, Unlink(p, h.up[p], Kid(h, At(p, !h.up[n].bit))) + [Retire(p)], h.tag.Keys, top,
               SlotDepth(h, h.up[n]), SlotDepth(h, h.up[p]), k, a, b);
  }

  /** RemoveNode's stores, grouped. */
  lemma RemoveStores(h: Heap, at: Index, n: Id)
    requires Trie(h, at) && Live(h, at, n)
    ensures n in h.up
    ensures var clear := [Delist(n), SetPeer(n, None)];
      var cut := Unlink(n, h.up[n], Only(h, n)) + [Retire(n)];
      if At(n, false) in h.kid && At(n, true) in h.kid then RemoveNode(h, at, n) == clear
      else if !FreesParent(h, n) then RemoveNode(h, at, n) == clear + cut
      else
        var p := h.up[n].node;
        && p in h.tag && p in h.up
        && RemoveNode(h, at, n) == clear + cut + (Unlink(p, h.up[p], Kid(h, At(p, !h.up[n].bit))) + [Retire(p)])
  {
    assert NodeFits(h, at, n);
    if FreesParent(h, n) { assert NodeFits(h, at, h.up[n].node); }
    hide Linked, Compact, Listed, Unlink;
  }

  lemma RemoveOnly(h: Heap, at: Index, n: Id)
    requires Trie(h, at) && Live(h, at, n)
    ensures OnlyPeer(RemoveNode(h, at, n), n, None)
  {
    hide Linked, Compact, Listed;
  }

  lemma RemoveSeen(h: Heap, at: Index, n: Id, k: Key)
    requires Trie(h, at) && Live(h, at, n)
    ensures Lookable(h, RemoveNode(h, at, n), |h.tag[n].bits|, k)
  {
    RemoveUpdates(h, at, n);
    DoRemove(h, at, n);
    RemoveStores(h, at, n);
    ClearedTrie(h, at, n);
    var top := 2 * |h.tag[n].bits| + 3;
    var stores, h', h1 := RemoveNode(h, at, n), Removed(h, at, n), Cleared(h, n);
    TrieClosed(h, at);
    TrieClosed(h', RemoveIndex(h, at, n));
    var a, b := Search(h, k), Search(h1, k);
    var clear, cut := [Delist(n), SetPeer(n, None)], Unlink(n, h.up[n], Only(h, n)) + [Retire(n)];
    if At(n, false) in h.kid && At(n, true) in h.kid {
      hide Linked, Compact, Listed, Seen, RemoveNode;
      var d := 2 * h.tag[n].cidr + 1;
      ClearSeen(h, at, n, top, d, k, a, b);
      SeenLookable(h, stores, top, d, |h.tag[n].bits|, k, a, b, h');
    } else if !FreesParent(h, n) {
      hide Linked, Compact, Listed, Seen, RemoveNode, Unlink;
      RemoveLeafSeen(h, at, n, top, k);
      SeenLookable(h, stores, top, SlotDepth(h, h.up[n]), |h.tag[n].bits|, k, a, b, h');
    } else {
      hide Linked, Compact, Listed, Seen, RemoveNode, Unlink;
      RemoveLeafSeen(h, at, n, top, k);
      RemoveParentSeen(h, at, n, clear + cut, top, k, a, b);
      SeenLookable(h, stores, top, SlotDepth(h, h.up[h.up[n].node]), |h.tag[n].bits|, k, a, b, h');
    }
  }

  lemma SeenLookable(h: Heap, stores: seq<Store>, top: int, bottom: int, width: nat, k: Key, a: Option<Id>, b: Option<Id>, h': Heap)
    requires Searchable(h) && Searchable(h') && Seen(h, stores, h.tag.Keys, top, bottom, k, a, b)
    requires DoAll(h, stores) == h' && Search(h, k) == a && Search(h', k) == b
    requires top == 2 * width + 3 && bottom >= 0
    ensures Lookable(h, stores, width, k)
  {
    FallingLower(h, stores, h.tag.Keys, top, bottom, 0);
  }

  /** A lookup that overlaps a RemoveNode gives what the map gives with the prefix or without it. */
  lemma RemoveIsAtomic(h: Heap, at: Index, n: Id, k: Key, run: seq<Moment>)
    requires Trie(h, at) && Live(h, at, n)
    requires Ordered(Observe(h, RemoveNode(h, at, n), h.tag.Keys), run, 0)
    ensures var u := Observe(h, RemoveNode(h, at, n), h.tag.Keys);
      && Upwards(u)
      && var r := Lookup(u, k, Start, run, 0);
         r.Answered? ==>
           r.answer == Route(Table(h, at), k) || r.answer == Route(Table(h, at) - {NetOf(h.tag[n])}, k)
  {
    var stores, at' := RemoveNode(h, at, n), RemoveIndex(h, at, n);
    var h' := DoAll(h, stores);
    RemoveUpdates(h, at, n);
    RemoveOnly(h, at, n);
    RemoveSeen(h, at, n, k);
    SearchCarries(h', at', k);
    assert n !in h'.peer;
    hide RemoveNode, RemoveIndex, Trie, Linked, Lookable, OnlyPeer, Table, Observe, Search, DoAll;
    LookableAtomic(h, at, at', stores, |h.tag[n].bits|, n, None, k, run);
  }
}
