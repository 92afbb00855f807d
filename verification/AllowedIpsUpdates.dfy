/** Add and RemoveNode of driver/allowedips.c as the sequences of stores they make, and what they do to
    the trie and to the map it stands for. */
module AllowedIpsUpdates {
  import opened AllowedIps

  // ---------------------------------------------------------------- stores

  datatype Store =
    | SetTag(n: Id, tag: Label)                       // Cidr, Bits and Bitlen of a node nobody sees yet
    | SetPeer(n: Id, peer: Option<Peer>)
    | SetUp(n: Id, slot: Slot)
    | SetKid(slot: Slot, kid: Option<Id>)
    | Enlist(n: Id, owner: Peer)
    | Delist(n: Id)
    | Discard(n: Id)                                  // back to the lookaside list, nobody has seen it
    | Retire(n: Id)                                   // freed after a grace period; readers may stay on it

  function Put<K, V>(m: map<K, V>, k: K, v: Option<V>): map<K, V> {
    if v.Some? then m[k := v.value] else m - {k}
  }

  function Do(h: Heap, st: Store): Heap {
    match st
    case SetTag(n, tag) => h.(tag := h.tag[n := tag])
    case SetPeer(n, q) => h.(peer := Put(h.peer, n, q))
    case SetUp(n, s) => h.(up := h.up[n := s])
    case SetKid(s, n) => h.(kid := Put(h.kid, s, n))
    case Enlist(n, q) => h.(on := h.on[n := q])
    case Delist(n) => h.(on := h.on - {n})
    case Discard(n) => h.(tag := h.tag - {n}, peer := h.peer - {n})
    case Retire(n) => h
  }

  function DoAll(h: Heap, stores: seq<Store>): Heap
    decreases stores
  {
    if stores == [] then h else DoAll(Do(h, stores[0]), stores[1..])
  }

  lemma {:induction false} DoAllConcat(h: Heap, a: seq<Store>, b: seq<Store>)
    ensures DoAll(h, a + b) == DoAll(DoAll(h, a), b)
    decreases a
  {
    if a == [] {
      assert a + b == b;
    } else {
      DoAllConcat(Do(h, a[0]), a[1..], b);
      assert (a + b)[1..] == a[1..] + b;
    }
  }

  lemma DoOne(h: Heap, x: Store)
    ensures DoAll(h, [x]) == Do(h, x)
  {
    assert [x][1..] == [];
  }

  lemma DoTwo(h: Heap, x: Store, y: Store)
    ensures DoAll(h, [x, y]) == Do(Do(h, x), y)
  {
    assert [x, y] == [x] + [y];
    DoAllConcat(h, [x], [y]);
    DoOne(h, x);
    DoOne(Do(h, x), y);
  }

  /** ConnectNode: the parent pointer, then the link. */
  function Connect(s: Slot, n: Id): seq<Store> {
    [SetUp(n, s), SetKid(s, Some(n))]
  }

  function Hang(h: Heap, s: Slot, n: Id): Heap {
    h.(up := h.up[n := s], kid := h.kid[s := n])
  }

  lemma DoConnect(h: Heap, s: Slot, n: Id)
    ensures DoAll(h, Connect(s, n)) == Hang(h, s, n)
  {
    DoTwo(h, SetUp(n, s), SetKid(s, Some(n)));
  }

  // ---------------------------------------------------------------- placement

  /** What NodePlacement returns. */
  datatype Spot = Spot(node: Option<Id>, exact: bool)

  ghost function Place(h: Heap, n: Option<Id>, k: Key, cidr: nat, parent: Option<Id>): Spot
    requires Searchable(h) && Walkable(h, n, k) && cidr <= |k|
    decreases Below(h, n, k)
  {
    if n.None? || h.tag[n.value].cidr > cidr || !Matches(h.tag[n.value], k) then Spot(parent, false)
    else if h.tag[n.value].cidr == cidr then Spot(n, true)
    else Place(h, Descend(h, n.value, k), k, cidr, n)
  }

  /** The slot where a prefix of k belongs whose nearest linked prefix is node. */
  function SlotAt(h: Heap, node: Option<Id>, k: Key): Slot
    requires node.Some? ==> node.value in h.tag && h.tag[node.value].cidr < |k|
  {
    if node.None? then Top(|k|) else At(node.value, Choose(h.tag[node.value], k))
  }

  /** A linked node whose prefix is a proper prefix of k's first cidr bits. */
  ghost predicate Over(h: Heap, at: Index, node: Option<Id>, k: Key, cidr: nat) {
    node.Some? ==>
      && Live(h, at, node.value) && |h.tag[node.value].bits| == |k|
      && h.tag[node.value].cidr < cidr && Matches(h.tag[node.value], k)
  }

  ghost predicate Placed(h: Heap, at: Index, k: Key, cidr: nat, spot: Spot)
    requires cidr <= |k|
  {
    if spot.exact then
      && spot.node.Some? && Live(h, at, spot.node.value) && NetOf(h.tag[spot.node.value]) == Net(|k|, k[..cidr])
    else
      && Net(|k|, k[..cidr]) !in at
      && Over(h, at, spot.node, k, cidr)
      && var s := SlotAt(h, spot.node, k);
         s in h.kid ==> Live(h, at, h.kid[s]) && |h.tag[h.kid[s]].bits| == |k| && (h.tag[h.kid[s]].cidr > cidr || !Matches(h.tag[h.kid[s]], k))
  }

  lemma {:induction false} PlaceFinds(h: Heap, at: Index, n: Option<Id>, k: Key, cidr: nat, parent: Option<Id>)
    requires Linked(h, at) && Walkable(h, n, k) && cidr <= |k|
    requires Over(h, at, parent, k, cidr)
    requires n == Kid(h, SlotAt(h, parent, k))
    requires Ahead(h, at, n, k, if parent.None? then 0 else h.tag[parent.value].cidr + 1)
    ensures Placed(h, at, k, cidr, Place(h, n, k, cidr, parent))
    decreases Below(h, n, k)
  {
    if n.None? || h.tag[n.value].cidr > cidr || !Matches(h.tag[n.value], k) {
      assert Net(|k|, k[..cidr]) !in at;
    } else if h.tag[n.value].cidr < cidr {
      DescendAhead(h, at, n.value, k);
      PlaceFinds(h, at, Descend(h, n.value, k), k, cidr, n);
    }
  }

  lemma RootAhead(h: Heap, at: Index, k: Key)
    requires Linked(h, at)
    ensures Ahead(h, at, Root(h, k), k, 0)
  {
    var n := Root(h, k);
    if n.Some? { assert LinkFits(h, Top(|k|)) && SlotFits(h, at, Top(|k|)); }
    forall l | 0 <= l <= |k| && Net(|k|, k[..l]) in at
      ensures n.Some? && h.tag[n.value].cidr <= l && Matches(h.tag[n.value], k)
    {
      RootLeads(h, at, k, l);
    }
  }

  ghost function Spotted(h: Heap, k: Key, cidr: nat): Spot
    requires Searchable(h) && cidr <= |k|
  {
    Place(h, Root(h, k), k, cidr, None)
  }

  /** NodePlacement finds the prefix itself exactly if it is linked, otherwise the node it belongs under. */
  lemma SpottedFinds(h: Heap, at: Index, k: Key, cidr: nat)
    requires Linked(h, at) && cidr <= |k|
    ensures Placed(h, at, k, cidr, Spotted(h, k, cidr))
  {
    RootAhead(h, at, k);
    PlaceFinds(h, at, Root(h, k), k, cidr, None);
  }

  // ---------------------------------------------------------------- the structural changes

  /** A free slot under which a node labelled l belongs. */
  ghost predicate Offers(h: Heap, at: Index, s: Slot, l: Label) {
    && l.cidr <= |l.bits|
    && match s
       case Top(w) => w == |l.bits|
       case At(p, b) => Live(h, at, p) && Extends(l, h.tag[p], b)
  }

  function Tagged(h: Heap, n: Id, l: Label): Heap {
    h.(tag := h.tag[n := l])
  }

  lemma LiveTagged(h: Heap, h': Heap, at: Index, at': Index, n: Id, l: Label)
    requires Linked(h, at) && n !in h.tag && h'.tag == h.tag[n := l] && l.cidr <= |l.bits| && NetOf(l) !in at
    requires at' == at[NetOf(l) := n]
    ensures forall m :: Live(h', at', m) <==> Live(h, at, m) || m == n
    ensures forall p :: p in at' ==> NetFits(h', at', p)
  {
    assert forall p :: p in at ==> NetFits(h, at, p);
  }

  /** A new leaf in a free slot. */
  lemma AttachKeeps(h: Heap, at: Index, s: Slot, n: Id, l: Label)
    requires Linked(h, at) && Offers(h, at, s, l) && s !in h.kid && n !in h.tag && NetOf(l) !in at
    ensures Linked(Hang(Tagged(h, n, l), s, n), at[NetOf(l) := n])
  {
    var h', at' := Hang(Tagged(h, n, l), s, n), at[NetOf(l) := n];
    LiveTagged(h, h', at, at', n, l);
    forall t | t in h'.kid ensures LinkFits(h', t) {
      if t in h.kid { assert LinkFits(h, t); }
    }
    forall m | Live(h', at', m) ensures NodeFits(h', at', m) {
      if m != n { assert NodeFits(h, at, m); }
    }
    forall t | t in h'.kid ensures SlotFits(h', at', t) {
      if t in h.kid { assert SlotFits(h, at, t) && LinkFits(h, t); }
    }
  }

  /** A new node between a slot and the node d there, with d on side b. */
  function Wedged(h: Heap, s: Slot, n: Id, l: Label, b: bool, d: Id): Heap {
    Hang(Hang(Tagged(h, n, l), At(n, b), d), s, n)
  }

  lemma WedgeLinks(h: Heap, at: Index, s: Slot, n: Id, l: Label, b: bool)
    requires Searchable(h) && Offers(h, at, s, l) && s in h.kid && n !in h.tag
    requires h.kid[s] in h.tag && Extends(h.tag[h.kid[s]], l, b)
    ensures Searchable(Wedged(h, s, n, l, b, h.kid[s]))
  {
    var h' := Wedged(h, s, n, l, b, h.kid[s]);
    forall t | t in h'.kid ensures LinkFits(h', t) {
      if t in h.kid { assert LinkFits(h, t); }
    }
  }

  lemma WedgeNodes(h: Heap, at: Index, s: Slot, n: Id, l: Label, b: bool)
    requires Linked(h, at) && Offers(h, at, s, l) && s in h.kid && n !in h.tag && NetOf(l) !in at
    ensures var h', at' := Wedged(h, s, n, l, b, h.kid[s]), at[NetOf(l) := n];
      forall m :: Live(h', at', m) ==> NodeFits(h', at', m)
  {
    var h', at', d := Wedged(h, s, n, l, b, h.kid[s]), at[NetOf(l) := n], h.kid[s];
    LiveTagged(h, h', at, at', n, l);
    assert SlotFits(h, at, s);
    forall m | Live(h', at', m) ensures NodeFits(h', at', m) {
      if m != n { assert NodeFits(h, at, m); }
    }
  }

  lemma WedgeSlots(h: Heap, at: Index, s: Slot, n: Id, l: Label, b: bool)
    requires Linked(h, at) && Offers(h, at, s, l) && s in h.kid && n !in h.tag && NetOf(l) !in at
    ensures var h', at' := Wedged(h, s, n, l, b, h.kid[s]), at[NetOf(l) := n];
      forall t :: t in h'.kid ==> SlotFits(h', at', t)
  {
    var h', at', d := Wedged(h, s, n, l, b, h.kid[s]), at[NetOf(l) := n], h.kid[s];
    LiveTagged(h, h', at, at', n, l);
    assert SlotFits(h, at, s);
    forall t | t in h'.kid ensures SlotFits(h', at', t) {
      if t in h.kid { assert SlotFits(h, at, t) && LinkFits(h, t); }
    }
  }

  lemma WedgeKeeps(h: Heap, at: Index, s: Slot, n: Id, l: Label, b: bool)
    requires Linked(h, at) && Offers(h, at, s, l) && s in h.kid && n !in h.tag && NetOf(l) !in at
    requires h.kid[s] in h.tag && Extends(h.tag[h.kid[s]], l, b)
    ensures Linked(Wedged(h, s, n, l, b, h.kid[s]), at[NetOf(l) := n])
  {
    var h', at' := Wedged(h, s, n, l, b, h.kid[s]), at[NetOf(l) := n];
    LiveTagged(h, h', at, at', n, l);
    WedgeLinks(h, at, s, n, l, b);
    WedgeNodes(h, at, s, n, l, b);
    WedgeSlots(h, at, s, n, l, b);
    hide Searchable, NetFits, NodeFits, SlotFits, Wedged;
  }

  /** The only child of a node, or NULL. */
  function Only(h: Heap, n: Id): Option<Id> {
    Kid(h, At(n, At(n, false) !in h.kid))
  }

  /** Node n gives its place to its only child or to nothing. */
  function Spliced(h: Heap, n: Id): Heap
    requires n in h.up
  {
    var c := Only(h, n);
    h.(up := if c.Some? then h.up[c.value := h.up[n]] else h.up, kid := Put(h.kid, h.up[n], c))
  }

  lemma LiveSpliced(h: Heap, h': Heap, at: Index, n: Id)
    requires Linked(h, at) && Live(h, at, n) && h'.tag == h.tag
    ensures forall m :: Live(h', at - {NetOf(h.tag[n])}, m) <==> Live(h, at, m) && m != n
    ensures forall p :: p in at - {NetOf(h.tag[n])} ==> NetFits(h', at - {NetOf(h.tag[n])}, p)
  {
    assert forall p :: p in at ==> NetFits(h, at, p);
  }

  /** Where the only child hangs. */
  function OnlySlot(h: Heap, n: Id): Slot {
    At(n, At(n, false) !in h.kid)
  }

  lemma SpliceLinks(h: Heap, at: Index, n: Id)
    requires Searchable(h) && Live(h, at, n) && NodeFits(h, at, n)
    ensures Searchable(Spliced(h, n))
  {
    var h' := Spliced(h, n);
    assert LinkFits(h, h.up[n]);
    if Only(h, n).Some? { assert LinkFits(h, OnlySlot(h, n)); }
    forall t | t in h'.kid ensures LinkFits(h', t) {
      if t in h.kid { assert LinkFits(h, t); }
    }
  }

  lemma SpliceNodes(h: Heap, at: Index, n: Id)
    requires Linked(h, at) && Live(h, at, n) && n in h.up
    requires !(At(n, false) in h.kid && At(n, true) in h.kid)
    ensures forall m :: Live(Spliced(h, n), at - {NetOf(h.tag[n])}, m) ==> NodeFits(Spliced(h, n), at - {NetOf(h.tag[n])}, m)
  {
    var h', at' := Spliced(h, n), at - {NetOf(h.tag[n])};
    LiveSpliced(h, h', at, n);
    assert NodeFits(h, at, n) && LinkFits(h, h.up[n]);
    if Only(h, n).Some? { assert SlotFits(h, at, OnlySlot(h, n)) && LinkFits(h, OnlySlot(h, n)); }
    forall m | Live(h', at', m) ensures NodeFits(h', at', m) {
      assert NodeFits(h, at, m);
    }
  }

  lemma SpliceSlots(h: Heap, at: Index, n: Id)
    requires Linked(h, at) && Live(h, at, n) && n in h.up
    requires !(At(n, false) in h.kid && At(n, true) in h.kid)
    ensures forall t :: t in Spliced(h, n).kid ==> SlotFits(Spliced(h, n), at - {NetOf(h.tag[n])}, t)
  {
    var h', at' := Spliced(h, n), at - {NetOf(h.tag[n])};
    LiveSpliced(h, h', at, n);
    assert NodeFits(h, at, n) && LinkFits(h, h.up[n]);
    if Only(h, n).Some? { assert SlotFits(h, at, OnlySlot(h, n)) && LinkFits(h, OnlySlot(h, n)); }
    forall t | t in h'.kid ensures SlotFits(h', at', t) {
      if t in h.kid { assert SlotFits(h, at, t) && LinkFits(h, t); }
    }
  }

  lemma SpliceKeeps(h: Heap, at: Index, n: Id)
    requires Linked(h, at) && Live(h, at, n)
    requires !(At(n, false) in h.kid && At(n, true) in h.kid)
    ensures n in h.up && Linked(Spliced(h, n), at - {NetOf(h.tag[n])})
  {
    assert NodeFits(h, at, n);
    LiveSpliced(h, Spliced(h, n), at, n);
    SpliceLinks(h, at, n);
    SpliceNodes(h, at, n);
    SpliceSlots(h, at, n);
    hide Searchable, NetFits, NodeFits, SlotFits, Spliced;
  }

  // ---------------------------------------------------------------- Add

  /** CommonBits: the length of the longest common prefix. */
  function Common(a: Key, b: Key): (c: nat)
    requires |a| == |b|
    ensures c <= |a| && a[..c] == b[..c] && (c < |a| ==> a[c] != b[c])
  {
    if a == [] || a[0] != b[0] then 0
    else
      var c := Common(a[1..], b[1..]);
      PrefixCons(a, c);
      PrefixCons(b, c);
      c + 1
  }

  lemma PrefixCons(a: Key, c: nat)
    requires c < |a|
    ensures a[..c + 1] == [a[0]] + a[1..][..c]
  {
  }

  /** PrefixMatches compares the common bits with Cidr. */
  lemma MatchesCommon(l: Label, k: Key)
    requires l.cidr <= |l.bits| == |k|
    ensures Matches(l, k) <==> Common(l.bits, k) >= l.cidr
  {
    var c := Common(l.bits, k);
    if c >= l.cidr {
      assert l.bits[..l.cidr] == l.bits[..c][..l.cidr] && k[..l.cidr] == k[..c][..l.cidr];
    } else {
      assert l.bits[..l.cidr][c] == l.bits[c] && k[..l.cidr][c] == k[c];
    }
  }

  datatype Status = Success | InvalidParameter | InsufficientResources

  /** The result of an update and the stores it made, in order. */
  datatype Plan = Plan(status: Status, stores: seq<Store>)

  function Prepare(n: Id, l: Label, q: Peer): seq<Store> {
    [SetPeer(n, Some(q)), Enlist(n, q), SetTag(n, l)]
  }

  /** Where a new prefix that is not linked belongs. */
  ghost predicate Spare(h: Heap, at: Index, l: Label, s: Slot) {
    && Searchable(h) && Offers(h, at, s, l) && NetOf(l) !in at
    && (s in h.kid ==> Live(h, at, h.kid[s]) && |h.tag[h.kid[s]].bits| == |l.bits|
                       && (h.tag[h.kid[s]].cidr > l.cidr || !Matches(h.tag[h.kid[s]], l.bits)))
  }

  lemma SpotIsSpare(h: Heap, at: Index, k: Key, cidr: nat)
    requires Linked(h, at) && cidr <= |k| && !Spotted(h, k, cidr).exact
    ensures Placed(h, at, k, cidr, Spotted(h, k, cidr))
    ensures Spare(h, at, Label(cidr, k), SlotAt(h, Spotted(h, k, cidr).node, k))
  {
    SpottedFinds(h, at, k, cidr);
  }

  /** Add; `a` and `b` are what its first and its second allocation return. */
  ghost function Add(h: Heap, at: Index, k: Key, cidr: nat, q: Option<Peer>, a: Option<Id>, b: Option<Id>): Plan
    requires Linked(h, at)
  {
    if cidr > |k| || q.None? then Plan(InvalidParameter, [])
    else
      var l := Label(cidr, k);
      if Top(|k|) !in h.kid then
        if a.None? then Plan(InsufficientResources, [])
        else Plan(Success, Prepare(a.value, l, q.value) + Connect(Top(|k|), a.value))
      else
        var spot := Spotted(h, k, cidr);
        if spot.exact then
          SpottedFinds(h, at, k, cidr);
          Plan(Success, [SetPeer(spot.node.value, q), Delist(spot.node.value), Enlist(spot.node.value, q.value)])
        else if a.None? then Plan(InsufficientResources, [])
        else
          SpotIsSpare(h, at, k, cidr);
          AddUnder(h, at, l, q.value, a.value, b, SlotAt(h, spot.node, k))
  }

  /** The rest of Add: the new node goes into its slot or above the node there. */
  ghost function AddUnder(h: Heap, at: Index, l: Label, q: Peer, a: Id, b: Option<Id>, s: Slot): Plan
    requires Spare(h, at, l, s)
  {
    if s !in h.kid then Plan(Success, Prepare(a, l, q) + Connect(s, a))
    else
      var d := h.kid[s];
      var bits := h.tag[d].bits;
      var c := Fork(h, at, l, s);
      if c == l.cidr then
        Plan(Success, Prepare(a, l, q) + Connect(At(a, bits[c]), d) + Connect(s, a))
      else if b.None? then Plan(InsufficientResources, Prepare(a, l, q) + [Delist(a), Discard(a)])
      else
        Plan(Success, Prepare(a, l, q) + [SetTag(b.value, Label(c, l.bits))]
                      + Connect(At(b.value, bits[c]), d) + Connect(At(b.value, l.bits[c]), a) + Connect(s, b.value))
  }

  /** Where the new prefix and the node in its slot part. */
  ghost function Fork(h: Heap, at: Index, l: Label, s: Slot): (c: nat)
    requires Spare(h, at, l, s) && s in h.kid
    ensures c <= l.cidr && c < h.tag[h.kid[s]].cidr && l.bits[..c] == h.tag[h.kid[s]].bits[..c]
    ensures c < l.cidr ==> l.bits[c] != h.tag[h.kid[s]].bits[c]
  {
    var bits := h.tag[h.kid[s]].bits;
    MatchesCommon(h.tag[h.kid[s]], l.bits);
    var common := Common(bits, l.bits);
    if l.cidr < common then
      assert bits[..common][..l.cidr] == bits[..l.cidr] && l.bits[..common][..l.cidr] == l.bits[..l.cidr];
      l.cidr
    else common
  }

  // ---------------------------------------------------------------- what Add leaves behind

  function WithPeer(h: Heap, n: Id, q: Peer): Heap {
    h.(peer := h.peer[n := q], on := h.on[n := q])
  }

  lemma DoPrepare(h: Heap, n: Id, l: Label, q: Peer)
    ensures DoAll(h, Prepare(n, l, q)) == WithPeer(Tagged(h, n, l), n, q)
  {
    assert Prepare(n, l, q) == [SetPeer(n, Some(q)), Enlist(n, q)] + [SetTag(n, l)];
    DoAllConcat(h, [SetPeer(n, Some(q)), Enlist(n, q)], [SetTag(n, l)]);
    DoTwo(h, SetPeer(n, Some(q)), Enlist(n, q));
    DoOne(DoAll(h, [SetPeer(n, Some(q)), Enlist(n, q)]), SetTag(n, l));
  }

  lemma DoAttach(h: Heap, s: Slot, n: Id, l: Label, q: Peer)
    ensures DoAll(h, Prepare(n, l, q) + Connect(s, n)) == WithPeer(Hang(Tagged(h, n, l), s, n), n, q)
  {
    DoAllConcat(h, Prepare(n, l, q), Connect(s, n));
    DoPrepare(h, n, l, q);
    DoConnect(WithPeer(Tagged(h, n, l), n, q), s, n);
  }

  lemma DoWedge(h: Heap, s: Slot, n: Id, l: Label, b: bool, d: Id, q: Peer)
    ensures DoAll(h, Prepare(n, l, q) + Connect(At(n, b), d) + Connect(s, n)) == WithPeer(Wedged(h, s, n, l, b, d), n, q)
  {
    DoAllConcat(h, Prepare(n, l, q) + Connect(At(n, b), d), Connect(s, n));
    DoAllConcat(h, Prepare(n, l, q), Connect(At(n, b), d));
    DoPrepare(h, n, l, q);
    var h1 := WithPeer(Tagged(h, n, l), n, q);
    DoConnect(h1, At(n, b), d);
    DoConnect(Hang(h1, At(n, b), d), s, n);
  }

  /** A branching node m above d, and the new node n on its other side. */
  function Split(h: Heap, s: Slot, m: Id, lm: Label, side: bool, d: Id, n: Id, l: Label): Heap {
    Hang(Tagged(Wedged(h, s, m, lm, side, d), n, l), At(m, !side), n)
  }

  lemma DoSplit(h: Heap, s: Slot, m: Id, lm: Label, side: bool, d: Id, n: Id, l: Label, q: Peer)
    requires m != n && n != d && m != d && s != At(m, side) && s != At(m, !side)
    ensures DoAll(h, Prepare(n, l, q) + [SetTag(m, lm)] + Connect(At(m, side), d) + Connect(At(m, !side), n) + Connect(s, m))
         == WithPeer(Split(h, s, m, lm, side, d, n, l), n, q)
  {
    var x1 := Prepare(n, l, q);
    var x2 := x1 + [SetTag(m, lm)];
    var x3 := x2 + Connect(At(m, side), d);
    var x4 := x3 + Connect(At(m, !side), n);
    DoAllConcat(h, x4, Connect(s, m));
    DoAllConcat(h, x3, Connect(At(m, !side), n));
    DoAllConcat(h, x2, Connect(At(m, side), d));
    DoAllConcat(h, x1, [SetTag(m, lm)]);
    DoPrepare(h, n, l, q);
    var h1 := WithPeer(Tagged(h, n, l), n, q);
    DoOne(h1, SetTag(m, lm));
    var h2 := Tagged(h1, m, lm);
    DoConnect(h2, At(m, side), d);
    var h3 := Hang(h2, At(m, side), d);
    DoConnect(h3, At(m, !side), n);
    var h4 := Hang(h3, At(m, !side), n);
    DoConnect(h4, s, m);
    SplitCommutes(h, s, m, lm, side, d, n, l, q);
  }

  lemma MapSwap<K, V>(m: map<K, V>, a: K, x: V, b: K, y: V)
    requires a != b
    ensures m[a := x][b := y] == m[b := y][a := x]
  {
  }

  lemma SplitCommutes(h: Heap, s: Slot, m: Id, lm: Label, side: bool, d: Id, n: Id, l: Label, q: Peer)
    requires m != n && s != At(m, !side)
    ensures var h1 := WithPeer(Tagged(h, n, l), n, q);
      Hang(Hang(Hang(Tagged(h1, m, lm), At(m, side), d), At(m, !side), n), s, m)
      == WithPeer(Split(h, s, m, lm, side, d, n, l), n, q)
  {
    MapSwap(h.tag, n, l, m, lm);
    MapSwap(h.up[d := At(m, side)], n, At(m, !side), m, s);
    MapSwap(h.kid[At(m, side) := d], At(m, !side), n, s, m);
  }

  /** The failed allocation of a branching node leaves no trace. */
  lemma DoUndo(h: Heap, n: Id, l: Label, q: Peer)
    requires n !in h.tag && n !in h.peer && n !in h.on
    ensures DoAll(h, Prepare(n, l, q) + [Delist(n), Discard(n)]) == h
  {
    DoAllConcat(h, Prepare(n, l, q), [Delist(n), Discard(n)]);
    DoPrepare(h, n, l, q);
    DoTwo(WithPeer(Tagged(h, n, l), n, q), Delist(n), Discard(n));
    assert h.tag[n := l] - {n} == h.tag && h.peer[n := q] - {n} == h.peer && h.on[n := q] - {n} == h.on;
  }

  lemma DoReplace(h: Heap, n: Id, q: Peer)
    ensures DoAll(h, [SetPeer(n, Some(q)), Delist(n), Enlist(n, q)]) == WithPeer(h, n, q)
  {
    assert [SetPeer(n, Some(q)), Delist(n), Enlist(n, q)] == [SetPeer(n, Some(q)), Delist(n)] + [Enlist(n, q)];
    DoAllConcat(h, [SetPeer(n, Some(q)), Delist(n)], [Enlist(n, q)]);
    DoTwo(h, SetPeer(n, Some(q)), Delist(n));
    DoOne(DoAll(h, [SetPeer(n, Some(q)), Delist(n)]), Enlist(n, q));
    assert (h.on - {n})[n := q] == h.on[n := q];
  }

  // ---------------------------------------------------------------- Add keeps the trie and updates the map

  /** Links and labels decide what is linked; peers do not. */
  lemma LinkedSame(h: Heap, h': Heap, at: Index)
    requires Linked(h, at) && h'.kid == h.kid && h'.tag == h.tag && h'.up == h.up
    ensures Linked(h', at)
  {
    assert forall n :: Live(h', at, n) <==> Live(h, at, n);
    forall t | t in h'.kid ensures LinkFits(h', t) && SlotFits(h', at, t) { assert LinkFits(h, t) && SlotFits(h, at, t); }
    forall p | p in at ensures NetFits(h', at, p) { assert NetFits(h, at, p); }
    forall n | Live(h', at, n) ensures NodeFits(h', at, n) { assert NodeFits(h, at, n); }
  }

  lemma LinkedWithPeer(h: Heap, at: Index, n: Id, q: Peer)
    requires Linked(h, at)
    ensures Linked(WithPeer(h, n, q), at)
  {
    LinkedSame(h, WithPeer(h, n, q), at);
  }

  /** A node nobody knows. */
  lemma FreshNode(h: Heap, at: Index, n: Id)
    requires Trie(h, at) && n !in h.tag
    ensures n !in h.peer && n !in h.on && !Live(h, at, n) && (forall b :: At(n, b) !in h.kid)
    ensures forall s :: s in h.kid ==> h.kid[s] != n
    ensures forall p :: p in at ==> at[p] != n
  {
    assert forall s :: s in h.kid ==> LinkFits(h, s);
    assert forall p :: p in at ==> NetFits(h, at, p);
  }

  lemma CompactGrown(h: Heap, at: Index, h': Heap, at': Index, n: Id)
    requires Compact(h, at) && h.kid.Keys <= h'.kid.Keys && h.peer.Keys <= h'.peer.Keys
    requires forall m :: Live(h', at', m) ==> Live(h, at, m) || m in h'.peer || (At(m, false) in h'.kid && At(m, true) in h'.kid)
    ensures Compact(h', at')
  {
    forall m | Live(h', at', m) ensures Branches(h', m) {
      if Live(h, at, m) { assert Branches(h, m); }
    }
  }

  /** A new linked node n with peer q. */
  ghost predicate Grows(h: Heap, at: Index, h': Heap, at': Index, n: Id, p: Net, q: Peer) {
    && p !in at && at' == at[p := n]
    && h'.peer == h.peer[n := q] && h'.on == h.on[n := q]
    && (forall m :: Live(h', at', m) <==> Live(h, at, m) || m == n)
  }

  lemma TableGrown(h: Heap, at: Index, h': Heap, at': Index, n: Id, p: Net, q: Peer)
    requires Listed(h, at) && Grows(h, at, h', at', n, p, q) && (forall r :: r in at ==> at[r] != n)
    ensures Listed(h', at') && Table(h', at') == Table(h, at)[p := q]
  {
    hide Listed, Table, Live;
    ListGrown(h, at, h', at', n, p, q);
    MapGrown(h, at, h', n, p, q);
  }

  lemma ListGrown(h: Heap, at: Index, h': Heap, at': Index, n: Id, p: Net, q: Peer)
    requires Listed(h, at) && Grows(h, at, h', at', n, p, q)
    ensures Listed(h', at')
  {
    hide Live;
  }

  lemma MapGrown(h: Heap, at: Index, h': Heap, n: Id, p: Net, q: Peer)
    requires p !in at && h'.peer == h.peer[n := q] && (forall r :: r in at ==> at[r] != n)
    ensures Table(h', at[p := n]) == Table(h, at)[p := q]
  {
    var at' := at[p := n];
    forall r | r in at' && r != p ensures at'[r] in h'.peer <==> at[r] in h.peer { assert at'[r] == at[r] != n; }
  }

  lemma AttachTrie(h: Heap, at: Index, s: Slot, n: Id, l: Label, q: Peer)
    requires Trie(h, at) && Spare(h, at, l, s) && s !in h.kid && n !in h.tag
    ensures var h', at' := WithPeer(Hang(Tagged(h, n, l), s, n), n, q), at[NetOf(l) := n];
      Trie(h', at') && Table(h', at') == Table(h, at)[NetOf(l) := q]
  {
    hide Linked, Compact, Listed, Table, Live;
    var h1, at' := Hang(Tagged(h, n, l), s, n), at[NetOf(l) := n];
    var h' := WithPeer(h1, n, q);
    FreshNode(h, at, n);
    AttachKeeps(h, at, s, n, l);
    LinkedWithPeer(h1, at', n, q);
    LiveTagged(h, h', at, at', n, l);
    CompactGrown(h, at, h', at', n);
    TableGrown(h, at, h', at', n, NetOf(l), q);
  }

  lemma SlotLinks(h: Heap, at: Index, s: Slot)
    requires Linked(h, at) && s in h.kid
    ensures LinkFits(h, s)
  {
  }

  lemma WedgeTrie(h: Heap, at: Index, s: Slot, n: Id, l: Label, q: Peer)
    requires Trie(h, at) && Spare(h, at, l, s) && s in h.kid && n !in h.tag && Fork(h, at, l, s) == l.cidr
    ensures var d := h.kid[s]; var h', at' := WithPeer(Wedged(h, s, n, l, h.tag[d].bits[l.cidr], d), n, q), at[NetOf(l) := n];
      Trie(h', at') && Table(h', at') == Table(h, at)[NetOf(l) := q]
  {
    hide Linked, Compact, Listed, Table, Live;
    SlotLinks(h, at, s);
    var d := h.kid[s];
    var b := h.tag[d].bits[l.cidr];
    var h1, at' := Wedged(h, s, n, l, b, d), at[NetOf(l) := n];
    var h' := WithPeer(h1, n, q);
    FreshNode(h, at, n);
    WedgeKeeps(h, at, s, n, l, b);
    LinkedWithPeer(h1, at', n, q);
    LiveTagged(h, h', at, at', n, l);
    CompactGrown(h, at, h', at', n);
    TableGrown(h, at, h', at', n, NetOf(l), q);
  }

  /** The branching node's label: it is not linked yet, and both sides extend it. */
  lemma ForkOffers(h: Heap, at: Index, s: Slot, l: Label)
    requires Linked(h, at) && Spare(h, at, l, s) && s in h.kid && Fork(h, at, l, s) < l.cidr
    ensures var c := Fork(h, at, l, s); var lm, d := Label(c, l.bits), h.kid[s];
      && Offers(h, at, s, lm) && NetOf(lm) !in at
      && Extends(h.tag[d], lm, h.tag[d].bits[c]) && Extends(l, lm, l.bits[c])
  {
    var c := Fork(h, at, l, s);
    var lm, d := Label(c, l.bits), h.kid[s];
    var k := h.tag[d].bits;
    assert LinkFits(h, s) && SlotFits(h, at, s);
    if NetOf(lm) in at {
      assert k[..c] == l.bits[..c];
      match s {
        case Top(_) => RootLeads(h, at, k, c);
        case At(p, _) =>
          if c > h.tag[p].cidr { ChildLeads(h, at, p, k, c); }
      }
    }
    if s.At? { ParentShort(h, at, s, l); }
  }

  lemma ParentShort(h: Heap, at: Index, s: Slot, l: Label)
    requires Linked(h, at) && Spare(h, at, l, s) && s in h.kid && s.At? && Fork(h, at, l, s) < l.cidr
    ensures h.tag[s.node].cidr < Fork(h, at, l, s)
  {
    assert LinkFits(h, s);
    var c, p, d := Fork(h, at, l, s), h.tag[s.node], h.tag[h.kid[s]];
    assert l.bits[..p.cidr] == d.bits[..p.cidr];
  }

  /** The label of the branching node. */
  ghost function ForkLabel(h: Heap, at: Index, l: Label, s: Slot): Label
    requires Spare(h, at, l, s) && s in h.kid
  {
    Label(Fork(h, at, l, s), l.bits)
  }

  /** The side of the branching node on which the old node goes. */
  ghost function Side(h: Heap, at: Index, l: Label, s: Slot): bool
    requires Spare(h, at, l, s) && s in h.kid
  {
    h.tag[h.kid[s]].bits[Fork(h, at, l, s)]
  }

  ghost function Forked(h: Heap, at: Index, l: Label, s: Slot, m: Id): Heap
    requires Spare(h, at, l, s) && s in h.kid
  {
    Wedged(h, s, m, ForkLabel(h, at, l, s), Side(h, at, l, s), h.kid[s])
  }

  ghost function Splitted(h: Heap, at: Index, l: Label, s: Slot, m: Id, n: Id): Heap
    requires Spare(h, at, l, s) && s in h.kid
  {
    Split(h, s, m, ForkLabel(h, at, l, s), Side(h, at, l, s), h.kid[s], n, l)
  }

  lemma ForkLinked(h: Heap, at: Index, s: Slot, m: Id, l: Label, at1: Index)
    requires Trie(h, at) && Spare(h, at, l, s) && s in h.kid && Fork(h, at, l, s) < l.cidr && m !in h.tag
    requires at1 == at[NetOf(ForkLabel(h, at, l, s)) := m]
    ensures Linked(Forked(h, at, l, s, m), at1) && NetOf(ForkLabel(h, at, l, s)) !in at && NetOf(l) !in at1
    ensures Offers(Forked(h, at, l, s, m), at1, At(m, !Side(h, at, l, s)), l)
    ensures forall x :: Live(Forked(h, at, l, s, m), at1, x) <==> Live(h, at, x) || x == m
  {
    var lm, b := ForkLabel(h, at, l, s), Side(h, at, l, s);
    ForkOffers(h, at, s, l);
    WedgeKeeps(h, at, s, m, lm, b);
    LiveTagged(h, Forked(h, at, l, s, m), at, at1, m, lm);
    assert NetOf(lm).path != NetOf(l).path;
  }

  lemma SplitLinked(h: Heap, at: Index, s: Slot, m: Id, n: Id, l: Label, at1: Index, at': Index)
    requires Trie(h, at) && Spare(h, at, l, s) && s in h.kid && Fork(h, at, l, s) < l.cidr
    requires m !in h.tag && n !in h.tag && m != n
    requires at1 == at[NetOf(ForkLabel(h, at, l, s)) := m] && at' == at1[NetOf(l) := n]
    ensures Linked(Splitted(h, at, l, s, m, n), at')
    ensures forall x :: Live(Splitted(h, at, l, s, m, n), at', x) <==> Live(h, at, x) || x == m || x == n
  {
    FreshNode(h, at, m);
    ForkLinked(h, at, s, m, l, at1);
    var h1, b := Forked(h, at, l, s, m), Side(h, at, l, s);
    assert At(m, !b) !in h1.kid && n !in h1.tag;
    hide Spare, Fork, Offers;
    AttachKeeps(h1, at1, At(m, !b), n, l);
    LiveTagged(h1, Splitted(h, at, l, s, m, n), at1, at', n, l);
  }

  lemma SplitBranches(h: Heap, at: Index, s: Slot, m: Id, n: Id, l: Label, q: Peer, at': Index)
    requires Compact(h, at) && Spare(h, at, l, s) && s in h.kid
    requires forall x :: Live(Splitted(h, at, l, s, m, n), at', x) <==> Live(h, at, x) || x == m || x == n
    ensures Compact(WithPeer(Splitted(h, at, l, s, m, n), n, q), at')
  {
    var h' := WithPeer(Splitted(h, at, l, s, m, n), n, q);
    LivePeerless(Splitted(h, at, l, s, m, n), h', at');
    hide Spare, Fork, Live, Side, ForkLabel;
    assert At(m, Side(h, at, l, s)) in h'.kid && At(m, !Side(h, at, l, s)) in h'.kid;
    hide Compact;
    CompactGrown(h, at, h', at', n);
  }

  /** Splitting is growing twice: by a node without a peer, then by the new node. */
  lemma TableTwice(h: Heap, at: Index, h1: Heap, at1: Index, h2: Heap, at': Index, m: Id, n: Id, pm: Net, p: Net, q: Peer)
    requires Listed(h, at) && n !in h.peer && m !in h.peer && (forall r :: r in at ==> at[r] != n) && m != n
    requires pm !in at && p !in at1 && at1 == at[pm := m] && at' == at1[p := n]
    requires h1.peer == h.peer == h2.peer && h1.on == h.on == h2.on
    requires forall x :: Live(h1, at1, x) <==> Live(h, at, x) || x == m
    requires forall x :: Live(h2, at', x) <==> Live(h, at, x) || x == m || x == n
    ensures Listed(WithPeer(h2, n, q), at') && Table(WithPeer(h2, n, q), at') == Table(h, at)[p := q]
  {
    var h' := WithPeer(h2, n, q);
    LivePeerless(h2, h', at');
    hide Live, Table, Listed;
    assert Grows(h1, at1, h', at', n, p, q);
    assert forall r :: r in at1 ==> at1[r] != n;
    hide WithPeer, Grows;
    assert Listed(h1, at1) by { TableIdle(h, at, h1, at1, m, pm); }
    TableGrown(h1, at1, h', at', n, p, q);
    assert Table(h1, at1) == Table(h, at) by { TableIdle(h, at, h1, at1, m, pm); }
  }

  lemma SplitTrie(h: Heap, at: Index, s: Slot, m: Id, n: Id, l: Label, q: Peer, at': Index)
    requires Trie(h, at) && Spare(h, at, l, s) && s in h.kid && Fork(h, at, l, s) < l.cidr
    requires m !in h.tag && n !in h.tag && m != n
    requires at' == at[NetOf(ForkLabel(h, at, l, s)) := m][NetOf(l) := n]
    ensures var h' := WithPeer(Splitted(h, at, l, s, m, n), n, q);
      Trie(h', at') && Table(h', at') == Table(h, at)[NetOf(l) := q]
  {
    var at1 := at[NetOf(ForkLabel(h, at, l, s)) := m];
    FreshNode(h, at, m);
    FreshNode(h, at, n);
    ForkLinked(h, at, s, m, l, at1);
    SplitLinked(h, at, s, m, n, l, at1, at');
    hide Linked, Compact, Listed, Live, Table, Spare;
    LinkedWithPeer(Splitted(h, at, l, s, m, n), at', n, q);
    SplitBranches(h, at, s, m, n, l, q, at');
    TableTwice(h, at, Forked(h, at, l, s, m), at1, Splitted(h, at, l, s, m, n), at', m, n,
               NetOf(ForkLabel(h, at, l, s)), NetOf(l), q);
  }

  lemma LivePeerless(h: Heap, h': Heap, at: Index)
    requires h'.tag == h.tag
    ensures forall x :: Live(h', at, x) <==> Live(h, at, x)
  {
  }

  /** A new linked node without a peer changes nothing in the map. */
  lemma TableIdle(h: Heap, at: Index, h': Heap, at': Index, m: Id, p: Net)
    requires Listed(h, at) && p !in at && at' == at[p := m] && m !in h.peer
    requires h'.peer == h.peer && h'.on == h.on
    requires forall x :: Live(h', at', x) <==> Live(h, at, x) || x == m
    ensures Listed(h', at') && Table(h', at') == Table(h, at)
  {
  }

  lemma TableReplaced(h: Heap, at: Index, n: Id, p: Net, q: Peer)
    requires Listed(h, at) && Live(h, at, n) && NetOf(h.tag[n]) == p
    requires forall r :: r in at && at[r] == n ==> r == p
    ensures Listed(WithPeer(h, n, q), at) && Table(WithPeer(h, n, q), at) == Table(h, at)[p := q]
  {
    LivePeerless(h, WithPeer(h, n, q), at);
  }

  lemma ReplaceTrie(h: Heap, at: Index, n: Id, p: Net, q: Peer)
    requires Trie(h, at) && Live(h, at, n) && NetOf(h.tag[n]) == p
    ensures Trie(WithPeer(h, n, q), at) && Table(WithPeer(h, n, q), at) == Table(h, at)[p := q]
  {
    LinkedWithPeer(h, at, n, q);
    LivePeerless(h, WithPeer(h, n, q), at);
    forall r | r in at && at[r] == n ensures r == p { assert NetFits(h, at, r); }
    hide Linked, Compact, Listed, Table;
    TableReplaced(h, at, n, p, q);
    hide Live;
    CompactGrown(h, at, WithPeer(h, n, q), at, n);
  }

  /** The linked prefixes after Add. */
  ghost function AddIndex(h: Heap, at: Index, k: Key, cidr: nat, a: Id, b: Id): Index
    requires Linked(h, at) && cidr <= |k|
  {
    var l := Label(cidr, k);
    if Top(|k|) !in h.kid then at[NetOf(l) := a]
    else if Spotted(h, k, cidr).exact then at
    else
      SpotIsSpare(h, at, k, cidr);
      UnderIndex(h, at, l, a, b, SlotAt(h, Spotted(h, k, cidr).node, k))
  }

  ghost function UnderIndex(h: Heap, at: Index, l: Label, a: Id, b: Id, s: Slot): Index
    requires Spare(h, at, l, s)
  {
    if s in h.kid && Fork(h, at, l, s) < l.cidr then at[NetOf(Label(Fork(h, at, l, s), l.bits)) := b][NetOf(l) := a]
    else at[NetOf(l) := a]
  }

  /** What an allocation may return: NULL, or a node that is not in use. */
  ghost predicate Allocates(h: Heap, a: Option<Id>, b: Option<Id>) {
    && (a.Some? ==> a.value !in h.tag)
    && (b.Some? ==> b.value !in h.tag && a != b)
  }

  ghost predicate AddFits(h: Heap, at: Index, h': Heap, at': Index, status: Status, p: Net, q: Peer) {
    if status.Success? then Trie(h', at') && Table(h', at') == Table(h, at)[p := q] else h' == h
  }

  lemma UnderFits(h: Heap, at: Index, l: Label, q: Peer, a: Id, b: Option<Id>, s: Slot)
    requires Trie(h, at) && Spare(h, at, l, s) && Allocates(h, Some(a), b)
    ensures var plan := AddUnder(h, at, l, q, a, b, s); var m := if b.Some? then b.value else 0;
      AddFits(h, at, DoAll(h, plan.stores), UnderIndex(h, at, l, a, m, s), plan.status, NetOf(l), q)
  {
    hide Prepare, Connect, Fork, Trie, Hang, Wedged, Split, WithPeer, Tagged;
    if s !in h.kid {
      DoAttach(h, s, a, l, q);
      AttachTrie(h, at, s, a, l, q);
    } else {
      var d := h.kid[s];
      var c := Fork(h, at, l, s);
      ForkBits(h, at, l, s);
      if c == l.cidr {
        DoWedge(h, s, a, l, h.tag[d].bits[c], d, q);
        WedgeTrie(h, at, s, a, l, q);
      } else if b.None? {
        TrieFresh(h, at, a);
        DoUndo(h, a, l, q);
      } else {
        TrieSlot(h, at, s, b.value);
        DoSplit(h, s, b.value, Label(c, l.bits), h.tag[d].bits[c], d, a, l, q);
        SplitTrie(h, at, s, b.value, a, l, q, UnderIndex(h, at, l, a, b.value, s));
      }
    }
  }

  lemma ForkBits(h: Heap, at: Index, l: Label, s: Slot)
    requires Spare(h, at, l, s) && s in h.kid
    ensures var c := Fork(h, at, l, s); c < |h.tag[h.kid[s]].bits| && (c < l.cidr ==> l.bits[c] == !h.tag[h.kid[s]].bits[c])
    ensures Fork(h, at, l, s) <= l.cidr
  {
  }

  lemma ForkIs(h: Heap, at: Index, l: Label, s: Slot)
    requires Spare(h, at, l, s) && s in h.kid
    ensures var bits := h.tag[h.kid[s]].bits;
      |bits| == |l.bits| &&
      var common := Common(bits, l.bits);
      && Fork(h, at, l, s) == (if l.cidr < common then l.cidr else common)
      && Fork(h, at, l, s) < |bits| && Side(h, at, l, s) == bits[Fork(h, at, l, s)]
  {
  }

  lemma TrieFresh(h: Heap, at: Index, n: Id)
    requires Trie(h, at) && n !in h.tag
    ensures n !in h.peer && n !in h.on
  {
    FreshNode(h, at, n);
  }

  lemma TrieSlot(h: Heap, at: Index, s: Slot, m: Id)
    requires Trie(h, at) && s in h.kid && m !in h.tag
    ensures h.kid[s] in h.tag && (forall b :: s != At(m, b))
  {
    FreshNode(h, at, m);
    assert LinkFits(h, s);
  }

  /** What each way through AddUnder makes of the heap. */
  lemma UnderHeap(h: Heap, at: Index, l: Label, q: Peer, a: Id, b: Option<Id>, s: Slot)
    requires Trie(h, at) && Spare(h, at, l, s) && Allocates(h, Some(a), b)
    ensures var plan := AddUnder(h, at, l, q, a, b, s); var h' := DoAll(h, plan.stores);
      if s !in h.kid then plan.status.Success? && h' == Hang(WithPeer(Tagged(h, a, l), a, q), s, a)
      else
        var d, c, side := h.kid[s], Fork(h, at, l, s), Side(h, at, l, s);
        if c == l.cidr then
          plan.status.Success? && h' == Hang(Hang(WithPeer(Tagged(h, a, l), a, q), At(a, side), d), s, a)
        else if b.None? then plan.status.InsufficientResources? && h' == h
        else
          && plan.status.Success?
          && h' == Hang(Hang(Hang(Tagged(WithPeer(Tagged(h, a, l), a, q), b.value, Label(c, l.bits)),
                                  At(b.value, side), d), At(b.value, !side), a), s, b.value)
  {
    hide Prepare, Connect, Trie, Fork, Split;
    if s !in h.kid {
      DoAttach(h, s, a, l, q);
    } else {
      var d, c := h.kid[s], Fork(h, at, l, s);
      ForkBits(h, at, l, s);
      if c == l.cidr {
        DoWedge(h, s, a, l, h.tag[d].bits[c], d, q);
      } else if b.None? {
        TrieFresh(h, at, a);
        DoUndo(h, a, l, q);
      } else {
        TrieSlot(h, at, s, b.value);
        TrieSlot(h, at, s, a);
        hide Hang, Tagged, WithPeer;
        DoSplit(h, s, b.value, Label(c, l.bits), h.tag[d].bits[c], d, a, l, q);
        SplitCommutes(h, s, b.value, Label(c, l.bits), h.tag[d].bits[c], d, a, l, q);
      }
    }
  }

  /** What Add does with good arguments. */
  ghost predicate AddDone(h: Heap, at: Index, k: Key, cidr: nat, q: Peer, a: Option<Id>, b: Option<Id>)
    requires Linked(h, at) && cidr <= |k|
  {
    var plan := Add(h, at, k, cidr, Some(q), a, b);
    var h' := DoAll(h, plan.stores);
    var at' := AddIndex(h, at, k, cidr, if a.Some? then a.value else 0, if b.Some? then b.value else 0);
    && !plan.status.InvalidParameter?
    && (plan.status.InsufficientResources? ==> a.None? || b.None?)
    && AddFits(h, at, h', at', plan.status, Net(|k|, k[..cidr]), q)
  }

  lemma AddToEmpty(h: Heap, at: Index, k: Key, cidr: nat, q: Peer, a: Option<Id>, b: Option<Id>)
    requires Trie(h, at) && Allocates(h, a, b) && cidr <= |k| && Top(|k|) !in h.kid
    ensures AddDone(h, at, k, cidr, q, a, b)
  {
    if a.Some? {
      var l := Label(cidr, k);
      EmptyIsSpare(h, at, l);
      DoAttach(h, Top(|k|), a.value, l, q);
      AttachTrie(h, at, Top(|k|), a.value, l, q);
      hide Trie, DoAll, Prepare, Connect, Hang, Tagged, WithPeer, Table;
    }
  }

  lemma AddExact(h: Heap, at: Index, k: Key, cidr: nat, q: Peer, a: Option<Id>, b: Option<Id>)
    requires Trie(h, at) && Allocates(h, a, b) && cidr <= |k| && Top(|k|) in h.kid && Spotted(h, k, cidr).exact
    ensures AddDone(h, at, k, cidr, q, a, b)
  {
    SpottedFinds(h, at, k, cidr);
    DoReplace(h, Spotted(h, k, cidr).node.value, q);
    ReplaceTrie(h, at, Spotted(h, k, cidr).node.value, Net(|k|, k[..cidr]), q);
    hide Trie, DoAll, Table, Spotted;
  }

  lemma AddBetween(h: Heap, at: Index, k: Key, cidr: nat, q: Peer, a: Option<Id>, b: Option<Id>)
    requires Trie(h, at) && Allocates(h, a, b) && cidr <= |k| && Top(|k|) in h.kid && !Spotted(h, k, cidr).exact
    ensures AddDone(h, at, k, cidr, q, a, b)
  {
    if a.Some? {
      SpotIsSpare(h, at, k, cidr);
      hide AddDone;
      AddAt(h, at, k, cidr, q, a.value, b, SlotAt(h, Spotted(h, k, cidr).node, k));
    } else {
      hide Trie, Table, Spotted;
    }
  }

  lemma AddAt(h: Heap, at: Index, k: Key, cidr: nat, q: Peer, a: Id, b: Option<Id>, s: Slot)
    requires Trie(h, at) && Linked(h, at) && Allocates(h, Some(a), b)
    requires cidr <= |k| && Top(|k|) in h.kid && !Spotted(h, k, cidr).exact
    requires var node := Spotted(h, k, cidr).node;
      (node.Some? ==> node.value in h.tag && h.tag[node.value].cidr < |k|) && s == SlotAt(h, node, k)
    requires Spare(h, at, Label(cidr, k), s)
    ensures AddDone(h, at, k, cidr, q, Some(a), b)
  {
    hide Trie, Linked, DoAll, UnderIndex, AddUnder, Table, Spotted, Add, AddIndex, SlotAt, Spare, Fork, Allocates;
    AddIsUnder(h, at, k, cidr, q, a, b, s);
    UnderStatus(h, at, Label(cidr, k), q, a, b, s);
    UnderFits(h, at, Label(cidr, k), q, a, b, s);
  }

  lemma UnderStatus(h: Heap, at: Index, l: Label, q: Peer, a: Id, b: Option<Id>, s: Slot)
    requires Spare(h, at, l, s)
    ensures var status := AddUnder(h, at, l, q, a, b, s).status;
      !status.InvalidParameter? && (status.InsufficientResources? ==> b.None?)
  {
    hide Fork, Prepare, Connect;
  }

  lemma AddIsUnder(h: Heap, at: Index, k: Key, cidr: nat, q: Peer, a: Id, b: Option<Id>, s: Slot)
    requires Linked(h, at) && cidr <= |k| && Top(|k|) in h.kid && !Spotted(h, k, cidr).exact
    requires var node := Spotted(h, k, cidr).node;
      (node.Some? ==> node.value in h.tag && h.tag[node.value].cidr < |k|) && s == SlotAt(h, node, k)
    requires Spare(h, at, Label(cidr, k), s)
    ensures Add(h, at, k, cidr, Some(q), Some(a), b) == AddUnder(h, at, Label(cidr, k), q, a, b, s)
    ensures forall m :: AddIndex(h, at, k, cidr, a, m) == UnderIndex(h, at, Label(cidr, k), a, m, s)
  {
    hide Linked, Spotted, SlotAt, UnderIndex, AddUnder, Spare;
  }

  /** Add inserts the prefix into the map, or changes nothing; it fails on bad arguments and on
      failed allocations only. */
  lemma AddUpdates(h: Heap, at: Index, k: Key, cidr: nat, q: Option<Peer>, a: Option<Id>, b: Option<Id>)
    requires Trie(h, at) && Allocates(h, a, b)
    ensures var plan := Add(h, at, k, cidr, q, a, b); var h' := DoAll(h, plan.stores);
      && (plan.status.InvalidParameter? <==> cidr > |k| || q.None?)
      && (plan.status.InsufficientResources? ==> a.None? || b.None?)
      && (!plan.status.Success? ==> h' == h)
      && (plan.status.Success? ==>
            var at' := AddIndex(h, at, k, cidr, if a.Some? then a.value else 0, if b.Some? then b.value else 0);
            Trie(h', at') && Table(h', at') == Table(h, at)[Net(|k|, k[..cidr]) := q.value])
  {
    if cidr <= |k| && q.Some? {
      hide Trie, DoAll, Table, Spotted, Add, AddIndex;
      if Top(|k|) !in h.kid {
        AddToEmpty(h, at, k, cidr, q.value, a, b);
      } else if Spotted(h, k, cidr).exact {
        AddExact(h, at, k, cidr, q.value, a, b);
      } else {
        AddBetween(h, at, k, cidr, q.value, a, b);
      }
      assert AddDone(h, at, k, cidr, q.value, a, b);
    }
  }

  lemma EmptyIsSpare(h: Heap, at: Index, l: Label)
    requires Linked(h, at) && l.cidr <= |l.bits| && Top(|l.bits|) !in h.kid
    ensures Spare(h, at, l, Top(|l.bits|))
  {
    if NetOf(l) in at { RootLeads(h, at, l.bits, l.cidr); }
  }

  // ---------------------------------------------------------------- RemoveNode

  /** The stores that put c, or nothing, in the place of n: the parent pointer of c, then the link. */
  function Unlink(n: Id, s: Slot, c: Option<Id>): seq<Store> {
    (if c.Some? then [SetUp(c.value, s)] else []) + [SetKid(s, c)]
  }

  /** The parent goes too: it carries no peer and n was its other child. */
  predicate FreesParent(h: Heap, n: Id)
    requires n in h.up
  {
    At(n, false) !in h.kid && At(n, true) !in h.kid && h.up[n].At? && h.up[n].node !in h.peer
  }

  ghost function RemoveNode(h: Heap, at: Index, n: Id): seq<Store>
    requires Trie(h, at) && Live(h, at, n)
  {
    assert NodeFits(h, at, n);
    var clear := [Delist(n), SetPeer(n, None)];
    if At(n, false) in h.kid && At(n, true) in h.kid then clear
    else
      var cut := clear + Unlink(n, h.up[n], Only(h, n));
      if !FreesParent(h, n) then cut + [Retire(n)]
      else
        var p := h.up[n].node;
        assert NodeFits(h, at, p);
        cut + [Retire(n)] + Unlink(p, h.up[p], Kid(h, At(p, !h.up[n].bit))) + [Retire(p)]
  }

  function Cleared(h: Heap, n: Id): Heap {
    h.(peer := h.peer - {n}, on := h.on - {n})
  }

  lemma DoClear(h: Heap, n: Id)
    ensures DoAll(h, [Delist(n), SetPeer(n, None)]) == Cleared(h, n)
  {
    DoTwo(h, Delist(n), SetPeer(n, None));
  }

  lemma DoUnlink(h: Heap, n: Id)
    requires n in h.up
    ensures DoAll(h, Unlink(n, h.up[n], Only(h, n))) == Spliced(h, n)
  {
    var c, s := Only(h, n), h.up[n];
    if c.Some? {
      assert Unlink(n, s, c) == [SetUp(c.value, s), SetKid(s, c)];
      DoTwo(h, SetUp(c.value, s), SetKid(s, c));
    } else {
      assert Unlink(n, s, c) == [SetKid(s, c)];
      DoOne(h, SetKid(s, c));
    }
  }

  /** The linked prefixes after RemoveNode. */
  ghost function RemoveIndex(h: Heap, at: Index, n: Id): Index
    requires Trie(h, at) && Live(h, at, n)
  {
    assert NodeFits(h, at, n);
    if At(n, false) in h.kid && At(n, true) in h.kid then at
    else if !FreesParent(h, n) then at - {NetOf(h.tag[n])}
    else at - {NetOf(h.tag[n])} - {NetOf(h.tag[h.up[n].node])}
  }

  /** The heap after RemoveNode. */
  ghost function Removed(h: Heap, at: Index, n: Id): Heap
    requires Trie(h, at) && Live(h, at, n)
  {
    assert NodeFits(h, at, n);
    var h1 := Cleared(h, n);
    if At(n, false) in h.kid && At(n, true) in h.kid then h1
    else if !FreesParent(h, n) then Spliced(h1, n)
    else
      assert NodeFits(h, at, h.up[n].node);
      Spliced(Spliced(h1, n), h.up[n].node)
  }

  lemma ClearedLinked(h: Heap, at: Index, n: Id)
    requires Linked(h, at)
    ensures Linked(Cleared(h, n), at)
  {
    LinkedSame(h, Cleared(h, n), at);
  }

  /** A peerless parent has another child beside the leaf n. */
  lemma SiblingOf(h: Heap, at: Index, n: Id)
    requires Trie(h, at) && Live(h, at, n) && n in h.up && FreesParent(h, n)
    ensures var p, b := h.up[n].node, h.up[n].bit;
      && Live(h, at, p) && p in h.up && p != n && h.up[p] != h.up[n]
      && At(p, b) in h.kid && h.kid[At(p, b)] == n && At(p, !b) in h.kid
      && h.kid[At(p, !b)] != n && h.kid[At(p, !b)] != p && Live(h, at, h.kid[At(p, !b)])
  {
    var p, b := h.up[n].node, h.up[n].bit;
    assert NodeFits(h, at, n) && NodeFits(h, at, p) && Branches(h, p);
    assert LinkFits(h, At(p, b)) && LinkFits(h, At(p, !b)) && SlotFits(h, at, At(p, !b)) && LinkFits(h, h.up[p]);
  }

  lemma DoRemove(h: Heap, at: Index, n: Id)
    requires Trie(h, at) && Live(h, at, n)
    ensures DoAll(h, RemoveNode(h, at, n)) == Removed(h, at, n)
  {
    assert NodeFits(h, at, n);
    hide Linked, Compact, Listed, Do, DoAll;
    var clear := [Delist(n), SetPeer(n, None)];
    DoClear(h, n);
    if !(At(n, false) in h.kid && At(n, true) in h.kid) {
      var cut := clear + Unlink(n, h.up[n], Only(h, n));
      DoFirstCut(h, n, cut);
      if FreesParent(h, n) { DoRemoveParent(h, at, n, cut + [Retire(n)]); }
    }
  }

  lemma DoFirstCut(h: Heap, n: Id, cut: seq<Store>)
    requires n in h.up && cut == [Delist(n), SetPeer(n, None)] + Unlink(n, h.up[n], Only(h, n))
    ensures DoAll(h, cut + [Retire(n)]) == Spliced(Cleared(h, n), n)
  {
    var clear, h1 := [Delist(n), SetPeer(n, None)], Cleared(h, n);
    DoClear(h, n);
    DoUnlink(h1, n);
    DoAllConcat(h, clear, Unlink(n, h.up[n], Only(h, n)));
    DoAllConcat(h, cut, [Retire(n)]);
    DoOne(Spliced(h1, n), Retire(n));
    hide DoAll;
  }

  /** After the leaf is cut, its parent is a node with one child. */
  lemma LeafCut(h: Heap, at: Index, n: Id)
    requires Trie(h, at) && Live(h, at, n) && n in h.up && FreesParent(h, n)
    ensures var p, h2 := h.up[n].node, Spliced(Cleared(h, n), n);
      && p in h.up && p in h2.up && h2.up[p] == h.up[p] && p != n
      && Only(h2, p) == Kid(h, At(p, !h.up[n].bit)) && At(p, h.up[n].bit) !in h2.kid && At(p, !h.up[n].bit) in h2.kid
      && h.up[p] in h2.kid && h.up[p] != h.up[n]
  {
    SiblingOf(h, at, n);
    assert NodeFits(h, at, h.up[n].node);
    hide Trie, Live, SlotFits, NodeFits, LinkFits;
  }

  lemma DoCut(h: Heap, first: seq<Store>, h2: Heap, p: Id, s: Slot, c: Option<Id>)
    requires DoAll(h, first) == h2 && p in h2.up && h2.up[p] == s && Only(h2, p) == c
    ensures DoAll(h, first + Unlink(p, s, c) + [Retire(p)]) == Spliced(h2, p)
  {
    hide Spliced, Unlink, Only;
    DoUnlink(h2, p);
    DoAllConcat(h, first, Unlink(p, s, c));
    DoAllConcat(h, first + Unlink(p, s, c), [Retire(p)]);
    DoOne(Spliced(h2, p), Retire(p));
  }

  lemma DoRemoveParent(h: Heap, at: Index, n: Id, first: seq<Store>)
    requires Trie(h, at) && Live(h, at, n) && n in h.up && FreesParent(h, n) && h.up[n].node in h.up
    requires DoAll(h, first) == Spliced(Cleared(h, n), n)
    ensures var p := h.up[n].node;
      DoAll(h, first + Unlink(p, h.up[p], Kid(h, At(p, !h.up[n].bit))) + [Retire(p)])
      == Spliced(Spliced(Cleared(h, n), n), p)
  {
    LeafCut(h, at, n);
    hide *;
    var p := h.up[n].node;
    DoCut(h, first, Spliced(Cleared(h, n), n), p, h.up[p], Kid(h, At(p, !h.up[n].bit)));
  }

  // ---------------------------------------------------------------- RemoveNode keeps the trie and updates the map

  /** The map loses the prefix of n when n loses its peer. */
  lemma TableCleared(h: Heap, at: Index, n: Id)
    requires Trie(h, at) && Live(h, at, n)
    ensures Table(Cleared(h, n), at) == Table(h, at) - {NetOf(h.tag[n])}
  {
    forall p | p in at ensures at[p] == n <==> p == NetOf(h.tag[n]) { assert NetFits(h, at, p); }
    hide Linked, Compact, NetFits, Listed, Live;
  }

  lemma ListCleared(h: Heap, at: Index, n: Id)
    requires Trie(h, at) && Live(h, at, n)
    ensures Cleared(h, n).on == Cleared(h, n).peer
    ensures forall m :: m in Cleared(h, n).peer ==> Live(h, at, m) && m != n
  {
    hide Linked, Compact, Live;
  }

  /** Nodes without a peer do not matter to the map. */
  lemma TableForgets(h: Heap, h': Heap, at: Index, p: Net)
    requires h'.peer == h.peer && (p in at ==> at[p] !in h.peer)
    ensures Table(h', at - {p}) == Table(h, at)
  {
  }

  lemma RemovedLinked(h: Heap, at: Index, n: Id)
    requires Trie(h, at) && Live(h, at, n)
    ensures Linked(Removed(h, at, n), RemoveIndex(h, at, n))
  {
    assert NodeFits(h, at, n);
    ClearedLinked(h, at, n);
    var h1 := Cleared(h, n);
    LivePeerless(h, h1, at);
    if !(At(n, false) in h.kid && At(n, true) in h.kid) {
      SpliceKeeps(h1, at, n);
      if FreesParent(h, n) { SecondSplice(h, at, n); }
    }
  }

  lemma SecondSplice(h: Heap, at: Index, n: Id)
    requires Trie(h, at) && Live(h, at, n) && n in h.up && FreesParent(h, n)
    requires Linked(Spliced(Cleared(h, n), n), at - {NetOf(h.tag[n])})
    ensures var p := h.up[n].node;
      && p in h.tag && h.tag[p].cidr <= |h.tag[p].bits| && p in h.up
      && Linked(Spliced(Spliced(Cleared(h, n), n), p), at - {NetOf(h.tag[n])} - {NetOf(h.tag[p])})
  {
    var p := h.up[n].node;
    var h2 := Spliced(Cleared(h, n), n);
    LeafCut(h, at, n);
    SiblingOf(h, at, n);
    assert LinkFits(h, At(p, h.up[n].bit));
    assert NetOf(h.tag[p]) != NetOf(h.tag[n]) && h2.tag == h.tag;
    assert Live(h2, at - {NetOf(h.tag[n])}, p);
    hide Linked, Compact, Listed, Cleared, Spliced;
    SpliceKeeps(h2, at - {NetOf(h.tag[n])}, p);
  }

  lemma RemovedTable(h: Heap, at: Index, n: Id)
    requires Trie(h, at) && Live(h, at, n)
    ensures Table(Removed(h, at, n), RemoveIndex(h, at, n)) == Table(h, at) - {NetOf(h.tag[n])}
  {
    assert NodeFits(h, at, n);
    var h1 := Cleared(h, n);
    TableCleared(h, at, n);
    ListCleared(h, at, n);
    if !(At(n, false) in h.kid && At(n, true) in h.kid) {
      var at1 := at - {NetOf(h.tag[n])};
      TableForgets(h1, Spliced(h1, n), at, NetOf(h.tag[n]));
      if FreesParent(h, n) {
        SiblingOf(h, at, n);
        var p := h.up[n].node;
        hide Trie, Table;
        TableForgets(Spliced(h1, n), Spliced(Spliced(h1, n), p), at1, NetOf(h.tag[p]));
      }
    }
  }

  lemma RemovedLive(h: Heap, at: Index, n: Id)
    requires Trie(h, at) && Live(h, at, n)
    ensures var h', at' := Removed(h, at, n), RemoveIndex(h, at, n);
      && h'.peer == h.peer - {n} && h'.on == h'.peer
      && (forall m :: Live(h', at', m) ==> Live(h, at, m))
      && (forall m :: Live(h, at, m) && m != n && m in h.peer ==> Live(h', at', m))
  {
    assert NodeFits(h, at, n);
    forall p | p in at && at[p] == n ensures p == NetOf(h.tag[n]) { assert NetFits(h, at, p); }
    hide Linked, Compact;
  }

  /** Which nodes have lost a child: none that stays linked without a peer. */
  lemma RemovedBranches(h: Heap, at: Index, n: Id, m: Id)
    requires Trie(h, at) && Live(h, at, n) && Live(Removed(h, at, n), RemoveIndex(h, at, n), m)
    ensures Branches(Removed(h, at, n), m)
  {
    hide Linked, Compact, Listed;
    LiveAround(h, at, n);
    RemovedLive(h, at, n);
    LiveAround(h, at, m);
    if n in h.up && FreesParent(h, n) && !(At(n, false) in h.kid && At(n, true) in h.kid) {
      LeafCut(h, at, n);
    }
  }

  lemma LiveAround(h: Heap, at: Index, n: Id)
    requires Trie(h, at) && Live(h, at, n)
    ensures NodeFits(h, at, n) && Branches(h, n)
  {
  }

  lemma RemovedTags(h: Heap, at: Index, n: Id)
    requires Trie(h, at) && Live(h, at, n)
    ensures Removed(h, at, n).tag == h.tag
  {
    hide Trie, Live;
  }

  /** RemoveNode takes the node's prefix out of the map and keeps the trie compact. */
  lemma RemoveUpdates(h: Heap, at: Index, n: Id)
    requires Trie(h, at) && Live(h, at, n)
    ensures var h', at' := DoAll(h, RemoveNode(h, at, n)), RemoveIndex(h, at, n);
      && Trie(h', at') && Table(h', at') == Table(h, at) - {NetOf(h.tag[n])}
      && h'.on == h.on - {n} && h'.tag == h.tag
      && (forall m :: Live(h, at, m) && m in h'.on ==> Live(h', at', m))
  {
    hide Linked, Table, Live, RemoveNode, RemoveIndex, Removed, DoAll, Branches;
    DoRemove(h, at, n);
    RemovedLinked(h, at, n);
    RemovedTable(h, at, n);
    RemovedLive(h, at, n);
    RemovedTags(h, at, n);
    forall m | Live(Removed(h, at, n), RemoveIndex(h, at, n), m) ensures Branches(Removed(h, at, n), m) {
      RemovedBranches(h, at, n, m);
    }
  }

  /** What each way through Add makes of the heap. */
  lemma AddPlan(h: Heap, at: Index, k: Key, cidr: nat, q: Option<Peer>, a: Option<Id>, b: Option<Id>)
    requires Trie(h, at) && cidr <= |k| && q.Some?
    ensures var plan := Add(h, at, k, cidr, q, a, b); var h', l := DoAll(h, plan.stores), Label(cidr, k);
      if Top(|k|) !in h.kid then
        if a.None? then plan.status.InsufficientResources? && h' == h
        else plan.status.Success? && h' == Hang(WithPeer(Tagged(h, a.value, l), a.value, q.value), Top(|k|), a.value)
      else
        var spot := Spotted(h, k, cidr);
        if spot.exact then
          spot.node.Some? && plan.status.Success? && h' == WithPeer(h, spot.node.value, q.value)
        else if a.None? then plan.status.InsufficientResources? && h' == h
        else
          && (spot.node.Some? ==> spot.node.value in h.tag && h.tag[spot.node.value].cidr < |k|)
          && Spare(h, at, l, SlotAt(h, spot.node, k))
          && plan == AddUnder(h, at, l, q.value, a.value, b, SlotAt(h, spot.node, k))
  {
    hide Hang, WithPeer, Tagged, AddUnder, Spare, Prepare, Connect;
    var l := Label(cidr, k);
    if Top(|k|) !in h.kid {
      if a.Some? { DoAttach(h, Top(|k|), a.value, l, q.value); HangTagged(h, Top(|k|), a.value, l, q.value); }
    } else if Spotted(h, k, cidr).exact {
      SpottedFinds(h, at, k, cidr);
      DoReplace(h, Spotted(h, k, cidr).node.value, q.value);
    } else {
      SpotIsSpare(h, at, k, cidr);
    }
  }

  lemma HangTagged(h: Heap, s: Slot, n: Id, l: Label, q: Peer)
    ensures WithPeer(Hang(Tagged(h, n, l), s, n), n, q) == Hang(WithPeer(Tagged(h, n, l), n, q), s, n)
  {
  }
}
