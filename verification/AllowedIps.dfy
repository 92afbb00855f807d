/** The allowed-IPs tries of driver/allowedips.c: path-compressed binary tries over a heap of nodes,
    and the plain map from prefixes to peers that they stand for.

    Both tries of a table live in one heap. Addresses are sequences of bits, most significant first;
    their length tells the tries apart. */
module AllowedIps {
  type Id = nat                                       // the address of a node

  type Peer = nat

  type Key = seq<bool>

  datatype Option<+T> = None | Some(value: T)

  /** A pointer to a pointer to a node: the root of the trie of a width, or a Bit field. */
  datatype Slot = Top(width: nat) | At(node: Id, bit: bool)

  /** Cidr and Bits of a node; Bitlen is the length of Bits. */
  datatype Label = Label(cidr: nat, bits: Key)

  /** Memory, field by field. A slot without an entry is NULL, as is the Peer of a node without an
      entry; `up` is ParentBitPacked and `on` the peer on whose AllowedIpsList a node is. */
  datatype Heap = Heap(
    kid: map<Slot, Id>, peer: map<Id, Peer>, tag: map<Id, Label>, up: map<Id, Slot>, on: map<Id, Peer>)

  const Blank: Heap := Heap(map[], map[], map[], map[], map[])

  function Kid(h: Heap, s: Slot): Option<Id> {
    if s in h.kid then Some(h.kid[s]) else None
  }

  // ---------------------------------------------------------------- prefixes

  /** A prefix: the width of its trie and its significant bits. */
  datatype Net = Net(width: nat, path: Key)

  function NetOf(l: Label): Net
    requires l.cidr <= |l.bits|
  {
    Net(|l.bits|, l.bits[..l.cidr])
  }

  predicate Matches(l: Label, k: Key)
    requires l.cidr <= |l.bits| == |k|
  {
    l.bits[..l.cidr] == k[..l.cidr]
  }

  /** The bit of the key that decides which child to follow; there is none below a full-length prefix. */
  function Choose(l: Label, k: Key): bool
    requires l.cidr < |k|
  {
    k[l.cidr]
  }

  /** c may hang below p on side b. */
  predicate Extends(c: Label, p: Label, b: bool) {
    p.cidr < c.cidr <= |c.bits| == |p.bits| && c.bits[..p.cidr] == p.bits[..p.cidr] && c.bits[p.cidr] == b
  }

  // ---------------------------------------------------------------- search

  ghost predicate LinkFits(h: Heap, s: Slot)
    requires s in h.kid
  {
    && h.kid[s] in h.tag
    && h.tag[h.kid[s]].cidr <= |h.tag[h.kid[s]].bits|
    && match s
       case Top(w) => |h.tag[h.kid[s]].bits| == w
       case At(n, b) => n in h.tag && Extends(h.tag[h.kid[s]], h.tag[n], b)
  }

  /** Every link leads to a longer prefix on the right side: enough for walks to be safe. */
  ghost predicate Searchable(h: Heap) {
    forall s :: s in h.kid ==> LinkFits(h, s)
  }

  /** n is NULL or a node whose key is as long as k. */
  ghost predicate Walkable(h: Heap, n: Option<Id>, k: Key) {
    n.Some? ==> n.value in h.tag && h.tag[n.value].cidr <= |h.tag[n.value].bits| == |k|
  }

  ghost function Below(h: Heap, n: Option<Id>, k: Key): nat
    requires Walkable(h, n, k)
  {
    if n.None? then 0 else |k| + 1 - h.tag[n.value].cidr
  }

  /** FindNode from node n on, with `found` found so far. */
  ghost function Find(h: Heap, n: Option<Id>, k: Key, found: Option<Id>): Option<Id>
    requires Searchable(h) && Walkable(h, n, k)
    decreases Below(h, n, k)
  {
    if n.None? || !Matches(h.tag[n.value], k) then found
    else
      var found' := if n.value in h.peer then n else found;
      if h.tag[n.value].cidr == |k| then found'
      else Find(h, Descend(h, n.value, k), k, found')
  }

  ghost function Descend(h: Heap, n: Id, k: Key): (m: Option<Id>)
    requires Searchable(h) && Walkable(h, Some(n), k) && h.tag[n].cidr < |k|
    ensures Walkable(h, m, k) && Below(h, m, k) < Below(h, Some(n), k)
  {
    assert At(n, Choose(h.tag[n], k)) in h.kid ==> LinkFits(h, At(n, Choose(h.tag[n], k)));
    Kid(h, At(n, Choose(h.tag[n], k)))
  }

  ghost function Root(h: Heap, k: Key): (m: Option<Id>)
    requires Searchable(h)
    ensures Walkable(h, m, k)
  {
    assert Top(|k|) in h.kid ==> LinkFits(h, Top(|k|));
    Kid(h, Top(|k|))
  }

  /** What FindNode returns for an address. */
  ghost function Search(h: Heap, k: Key): Option<Id>
    requires Searchable(h)
  {
    Find(h, Root(h, k), k, None)
  }

  // ---------------------------------------------------------------- the map of prefixes

  /** History: the linked nodes by their prefixes. */
  type Index = map<Net, Id>

  /** n is linked. */
  predicate Live(h: Heap, at: Index, n: Id) {
    n in h.tag && h.tag[n].cidr <= |h.tag[n].bits| && NetOf(h.tag[n]) in at && at[NetOf(h.tag[n])] == n
  }

  ghost predicate NetFits(h: Heap, at: Index, p: Net)
    requires p in at
  {
    Live(h, at, at[p]) && NetOf(h.tag[at[p]]) == p
  }

  /** A linked node's parent pointer names the slot that points at the node. */
  ghost predicate NodeFits(h: Heap, at: Index, n: Id) {
    && n in h.up && h.up[n] in h.kid && h.kid[h.up[n]] == n
    && (h.up[n].At? ==> Live(h, at, h.up[n].node))
  }

  /** What the slot of a linked node or a root points at is linked there. */
  ghost predicate SlotFits(h: Heap, at: Index, s: Slot)
    requires s in h.kid
  {
    s.Top? || Live(h, at, s.node) ==> Live(h, at, h.kid[s]) && h.kid[s] in h.up && h.up[h.kid[s]] == s
  }

  ghost predicate Linked(h: Heap, at: Index) {
    && Searchable(h)
    && (forall p :: p in at ==> NetFits(h, at, p))
    && (forall n :: Live(h, at, n) ==> NodeFits(h, at, n))
    && (forall s :: s in h.kid ==> SlotFits(h, at, s))
  }

  /** A linked node without a peer branches. */
  ghost predicate Branches(h: Heap, n: Id) {
    n in h.peer || (At(n, false) in h.kid && At(n, true) in h.kid)
  }

  ghost predicate Compact(h: Heap, at: Index) {
    forall n :: Live(h, at, n) ==> Branches(h, n)
  }

  /** The list of a peer holds the nodes that carry it; nodes not linked carry none. */
  ghost predicate Listed(h: Heap, at: Index) {
    h.on == h.peer && forall n :: n in h.peer ==> Live(h, at, n)
  }

  /** A trie between two updates. */
  ghost predicate Trie(h: Heap, at: Index) {
    Linked(h, at) && Compact(h, at) && Listed(h, at)
  }

  /** The map a trie stands for. */
  function Table(h: Heap, at: Index): map<Net, Peer> {
    map p | p in at && at[p] in h.peer :: h.peer[at[p]]
  }

  /** The longest prefix of k, of i bits at most, that is in the table. */
  function Longest(table: map<Net, Peer>, k: Key, i: nat): Option<Net>
    requires i <= |k|
  {
    if Net(|k|, k[..i]) in table then Some(Net(|k|, k[..i]))
    else if i == 0 then None
    else Longest(table, k, i - 1)
  }

  /** The peer a plain map gives for an address. */
  function Route(table: map<Net, Peer>, k: Key): Option<Peer> {
    var p := Longest(table, k, |k|);
    if p.Some? && p.value in table then Some(table[p.value]) else None
  }

  /** The entry for the first i bits of k decides: it is there, and none for more bits is. */
  predicate Decides(table: map<Net, Peer>, k: Key, i: nat) {
    i <= |k| && Net(|k|, k[..i]) in table && forall j :: i < j <= |k| ==> Net(|k|, k[..j]) !in table
  }

  lemma {:induction false} LongestDecides(table: map<Net, Peer>, k: Key, i: nat)
    requires i <= |k| && forall j :: i < j <= |k| ==> Net(|k|, k[..j]) !in table
    ensures var p := Longest(table, k, i);
      if p.None? then forall j :: 0 <= j <= |k| ==> Net(|k|, k[..j]) !in table
      else exists j: nat :: Decides(table, k, j) && p.value == Net(|k|, k[..j])
  {
    if Net(|k|, k[..i]) in table {
      assert Decides(table, k, i);
    } else if i > 0 {
      LongestDecides(table, k, i - 1);
    }
  }

  /** What the map gives is the peer of a prefix of the address that is stored, while no longer one is;
      it gives none exactly if none is stored. */
  lemma RouteIsLongest(table: map<Net, Peer>, k: Key, q: Peer)
    ensures Route(table, k) == Some(q) <==> exists i: nat :: Decides(table, k, i) && table[Net(|k|, k[..i])] == q
    ensures Route(table, k) == None <==> forall i :: 0 <= i <= |k| ==> Net(|k|, k[..i]) !in table
  {
    LongestDecides(table, k, |k|);
    var p := Longest(table, k, |k|);
    hide Longest;
    if p.Some? {
      var j: nat :| Decides(table, k, j) && p.value == Net(|k|, k[..j]);
      forall i: nat | Decides(table, k, i) ensures i == j {}
    }
  }

  // ---------------------------------------------------------------- search finds the longest prefix

  /** If a prefix of k longer than n's is linked, n has a child on k's side, no longer than it. */
  lemma {:induction false} ChildLeads(h: Heap, at: Index, n: Id, k: Key, l: nat)
    requires Linked(h, at) && Live(h, at, n) && |h.tag[n].bits| == |k| && Matches(h.tag[n], k)
    requires h.tag[n].cidr < l <= |k| && Net(|k|, k[..l]) in at
    ensures var s := At(n, Choose(h.tag[n], k));
      s in h.kid && Live(h, at, h.kid[s]) && |h.tag[h.kid[s]].bits| == |k|
      && h.tag[h.kid[s]].cidr <= l && Matches(h.tag[h.kid[s]], k)
    decreases l
  {
    var m := at[Net(|k|, k[..l])];
    assert NetFits(h, at, Net(|k|, k[..l]));
    assert NodeFits(h, at, m) && LinkFits(h, h.up[m]);
    assert Net(|k|, k[..h.tag[n].cidr]) == NetOf(h.tag[n]);
    if h.up[m].Top? {
      RootLeads(h, at, k, h.tag[n].cidr);
      assert false;
    } else {
      var p := h.up[m].node;
      assert k[..l][..h.tag[p].cidr] == k[..h.tag[p].cidr];
      assert Matches(h.tag[p], k);
      assert k[..l][h.tag[p].cidr] == k[h.tag[p].cidr];
      assert Net(|k|, k[..h.tag[p].cidr]) == NetOf(h.tag[p]);
      if h.tag[p].cidr > h.tag[n].cidr {
        ChildLeads(h, at, n, k, h.tag[p].cidr);
      } else if h.tag[p].cidr < h.tag[n].cidr {
        ChildLeads(h, at, p, k, h.tag[n].cidr);
        assert false;
      }
    }
  }

  /** What is known of the node of a prefix. */
  lemma Around(h: Heap, at: Index, p: Net)
    requires Linked(h, at) && p in at
    ensures NetFits(h, at, p) && NodeFits(h, at, at[p]) && LinkFits(h, h.up[at[p]])
  {
  }

  /** If any prefix of k is linked, the root matches k and is no longer than it. */
  lemma {:induction false} RootLeads(h: Heap, at: Index, k: Key, l: nat)
    requires Linked(h, at) && l <= |k| && Net(|k|, k[..l]) in at
    ensures Top(|k|) in h.kid && Live(h, at, h.kid[Top(|k|)]) && |h.tag[h.kid[Top(|k|)]].bits| == |k|
    ensures h.tag[h.kid[Top(|k|)]].cidr <= l && Matches(h.tag[h.kid[Top(|k|)]], k)
    decreases l
  {
    hide Linked;
    var m := at[Net(|k|, k[..l])];
    Around(h, at, Net(|k|, k[..l]));
    assert |h.tag[m].bits[..h.tag[m].cidr]| == |k[..l]|;
    if h.up[m].At? {
      var p := h.up[m].node;
      assert k[..l][..h.tag[p].cidr] == k[..h.tag[p].cidr];
      assert Net(|k|, k[..h.tag[p].cidr]) == NetOf(h.tag[p]);
      RootLeads(h, at, k, h.tag[p].cidr);
    }
  }

  /** Every linked prefix of k of at least lo bits is at n or below, and n is on the way to it. */
  ghost predicate Ahead(h: Heap, at: Index, n: Option<Id>, k: Key, lo: nat) {
    && (n.Some? ==> Live(h, at, n.value) && |h.tag[n.value].bits| == |k| && lo <= h.tag[n.value].cidr)
    && forall l :: lo <= l <= |k| && Net(|k|, k[..l]) in at ==>
         n.Some? && h.tag[n.value].cidr <= l && Matches(h.tag[n.value], k)
  }

  /** The longest prefix of k with a peer, of at least lo bits. */
  ghost function Best(h: Heap, at: Index, k: Key, lo: nat, i: nat): Option<Id>
    requires i <= |k|
  {
    if i < lo then None
    else if Net(|k|, k[..i]) in at && at[Net(|k|, k[..i])] in h.peer then Some(at[Net(|k|, k[..i])])
    else if i == 0 then None
    else Best(h, at, k, lo, i - 1)
  }

  /** Splitting the range of lengths at c. */
  lemma {:induction false} BestSplit(h: Heap, at: Index, k: Key, lo: nat, c: nat, i: nat)
    requires lo <= c <= i <= |k|
    ensures Best(h, at, k, lo, i) == if Best(h, at, k, c + 1, i).Some? then Best(h, at, k, c + 1, i) else Best(h, at, k, lo, c)
    decreases i
  {
    if i > c { BestSplit(h, at, k, lo, c, i - 1); }
  }

  lemma {:induction false} BestNone(h: Heap, at: Index, k: Key, lo: nat, i: nat)
    requires i <= |k|
    requires forall l :: lo <= l <= i ==> Net(|k|, k[..l]) !in at
    ensures Best(h, at, k, lo, i) == None
  {
    if i >= lo && i > 0 { BestNone(h, at, k, lo, i - 1); }
  }

  lemma {:induction false} FindBest(h: Heap, at: Index, n: Option<Id>, k: Key, found: Option<Id>, lo: nat)
    requires Linked(h, at) && Walkable(h, n, k) && Ahead(h, at, n, k, lo) && lo <= |k| + 1
    ensures Find(h, n, k, found) == if Best(h, at, k, lo, |k|).Some? then Best(h, at, k, lo, |k|) else found
    decreases Below(h, n, k)
  {
    if n.None? || !Matches(h.tag[n.value], k) {
      BestNone(h, at, k, lo, |k|);
    } else {
      var c := h.tag[n.value].cidr;
      assert Net(|k|, k[..c]) == NetOf(h.tag[n.value]);
      BestSplit(h, at, k, lo, c, |k|);
      BestAt(h, at, k, lo, c);
      if c < |k| {
        var m := Descend(h, n.value, k);
        DescendAhead(h, at, n.value, k);
        FindBest(h, at, m, k, if n.value in h.peer then n else found, c + 1);
      }
    }
  }

  lemma BestAt(h: Heap, at: Index, k: Key, lo: nat, c: nat)
    requires lo <= c <= |k| && Net(|k|, k[..c]) in at
    requires forall l :: lo <= l < c ==> Net(|k|, k[..l]) !in at
    ensures Best(h, at, k, lo, c) == if at[Net(|k|, k[..c])] in h.peer then Some(at[Net(|k|, k[..c])]) else None
  {
    if c > 0 { BestNone(h, at, k, lo, c - 1); }
  }

  lemma DescendAhead(h: Heap, at: Index, n: Id, k: Key)
    requires Linked(h, at) && Live(h, at, n) && |h.tag[n].bits| == |k| && Matches(h.tag[n], k) && h.tag[n].cidr < |k|
    ensures Ahead(h, at, Descend(h, n, k), k, h.tag[n].cidr + 1)
  {
    var m := Descend(h, n, k);
    var s := At(n, Choose(h.tag[n], k));
    if s in h.kid { assert LinkFits(h, s) && SlotFits(h, at, s); }
    forall l | h.tag[n].cidr + 1 <= l <= |k| && Net(|k|, k[..l]) in at
      ensures m.Some? && h.tag[m.value].cidr <= l && Matches(h.tag[m.value], k)
    {
      ChildLeads(h, at, n, k, l);
    }
  }

  /** FindNode returns the node of the longest linked prefix that has a peer. */
  lemma SearchBest(h: Heap, at: Index, k: Key)
    requires Linked(h, at)
    ensures Search(h, k) == Best(h, at, k, 0, |k|)
  {
    var n := Root(h, k);
    if n.Some? { assert LinkFits(h, Top(|k|)) && SlotFits(h, at, Top(|k|)); }
    forall l | 0 <= l <= |k| && Net(|k|, k[..l]) in at
      ensures n.Some? && h.tag[n.value].cidr <= l && Matches(h.tag[n.value], k)
    {
      RootLeads(h, at, k, l);
    }
    FindBest(h, at, n, k, None, 0);
  }

  lemma {:induction false} BestLongest(h: Heap, at: Index, k: Key, i: nat)
    requires i <= |k|
    ensures var b, p := Best(h, at, k, 0, i), Longest(Table(h, at), k, i);
      && (b.Some? <==> p.Some?)
      && (b.Some? ==> p.value in Table(h, at) && b.value in h.peer && h.peer[b.value] == Table(h, at)[p.value])
  {
    if i > 0 { BestLongest(h, at, k, i - 1); }
  }

  function PeerOf(h: Heap, n: Option<Id>): Option<Peer> {
    if n.Some? && n.value in h.peer then Some(h.peer[n.value]) else None
  }

  /** A lookup in the trie gives what the plain map gives: the peer of the longest matching prefix. */
  lemma SearchIsRoute(h: Heap, at: Index, k: Key)
    requires Linked(h, at)
    ensures PeerOf(h, Search(h, k)) == Route(Table(h, at), k)
    ensures Search(h, k).Some? <==> Route(Table(h, at), k).Some?
  {
    SearchBest(h, at, k);
    BestLongest(h, at, k, |k|);
  }
}
