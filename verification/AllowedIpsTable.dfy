/** The allowed-IPs table as driver/allowedips.c changes it, node by node, in place. */
module AllowedIpsTable {
  import opened AllowedIps
  import opened AllowedIpsUpdates

  lemma TrieLinked(h: Heap, at: Index)
    requires Trie(h, at)
    ensures Linked(h, at)
  {
  }

  /** The node of a placement is that of the prefix, and carries its peer. */
  lemma SpottedIs(h: Heap, at: Index, k: Key, cidr: nat)
    requires Trie(h, at) && cidr <= |k|
    ensures var spot, p := Spotted(h, k, cidr), Net(|k|, k[..cidr]);
      && (spot.exact ==>
            && spot.node.Some? && Live(h, at, spot.node.value) && spot.node.value in h.tag
            && NetOf(h.tag[spot.node.value]) == p)
      && (if spot.exact && PeerOf(h, spot.node).Some? then p in Table(h, at) && Table(h, at)[p] == PeerOf(h, spot.node).value
          else p !in Table(h, at))
      && (Top(|k|) !in h.kid ==> !spot.exact)
  {
    SpottedFinds(h, at, k, cidr);
    hide Linked, Compact, Listed;
  }

  class AllowedIpsTable {
    var mem: Heap                                     // the nodes and the two roots
    ghost var at: Index

    ghost predicate Valid()
      reads this
    {
      Trie(mem, at)
    }

    /** The map from prefixes to peers that the table stands for. */
    ghost function Map(): map<Net, Peer>
      reads this
    {
      Table(mem, at)
    }

    constructor ()
      ensures Valid() && Map() == map[]
    {
      mem, at := Blank, map[];
    }

    method FindNode(k: Key) returns (found: Option<Id>)
      requires Valid()
      ensures found == Search(mem, k)
    {
      var node := Kid(mem, Top(|k|));
      found := None;
      while node.Some? && Common(mem.tag[node.value].bits, k) >= mem.tag[node.value].cidr
        invariant Walkable(mem, node, k)
        invariant Find(mem, node, k, found) == Search(mem, k)
        decreases Below(mem, node, k)
      {
        MatchesCommon(mem.tag[node.value], k);
        if node.value in mem.peer { found := node; }
        if mem.tag[node.value].cidr == |k| { return; }
        ghost var next := Descend(mem, node.value, k);
        node := Kid(mem, At(node.value, Choose(mem.tag[node.value], k)));
        assert node == next;
      }
      if node.Some? { MatchesCommon(mem.tag[node.value], k); }
    }

    /** The peer of the longest prefix in the table that matches the address. */
    method Lookup(k: Key) returns (q: Option<Peer>)
      requires Valid()
      ensures q == Route(Map(), k)
    {
      var node := FindNode(k);
      SearchIsRoute(mem, at, k);
      q := PeerOf(mem, node);
    }

    method NodePlacement(k: Key, cidr: nat) returns (node: Option<Id>, exact: bool)
      requires Valid() && cidr <= |k|
      ensures Spot(node, exact) == Spotted(mem, k, cidr)
    {
      var cur := Kid(mem, Top(|k|));
      node, exact := None, false;
      while cur.Some? && mem.tag[cur.value].cidr <= cidr && Common(mem.tag[cur.value].bits, k) >= mem.tag[cur.value].cidr
        invariant Walkable(mem, cur, k) && !exact
        invariant Place(mem, cur, k, cidr, node) == Spotted(mem, k, cidr)
        decreases Below(mem, cur, k)
      {
        MatchesCommon(mem.tag[cur.value], k);
        node := cur;
        if mem.tag[cur.value].cidr == cidr {
          exact := true;
          return;
        }
        ghost var next := Descend(mem, cur.value, k);
        cur := Kid(mem, At(cur.value, Choose(mem.tag[cur.value], k)));
        assert cur == next;
      }
      if cur.Some? { MatchesCommon(mem.tag[cur.value], k); }
    }

    method ConnectNode(s: Slot, n: Id)
      modifies this
      ensures mem == Hang(old(mem), s, n) && at == old(at)
    {
      mem := mem.(up := mem.up[n := s]);
      mem := mem.(kid := mem.kid[s := n]);
    }

    /** A new node gets its peer, goes on the peer's list and is labelled; nothing points at it yet. */
    method Introduce(n: Id, l: Label, q: Peer)
      modifies this
      ensures mem == WithPeer(Tagged(old(mem), n, l), n, q) && at == old(at)
    {
      mem := mem.(peer := mem.peer[n := q]);
      mem := mem.(on := mem.on[n := q]);
      mem := mem.(tag := mem.tag[n := l]);
    }

    /** A linked node changes its peer, and its list. */
    method Reassign(n: Id, q: Peer)
      modifies this
      ensures mem == WithPeer(old(mem), n, q) && at == old(at)
    {
      mem := mem.(peer := mem.peer[n := q]);
      mem := mem.(on := mem.on - {n});
      mem := mem.(on := mem.on[n := q]);
      assert mem.on == old(mem).on[n := q];
    }

    /** The part of Add that follows a failed exact match: the new node goes into slot s, or between
        s and the node there, or beside that node below a new branching node. */
    method AddUnder(l: Label, q: Peer, a: Id, b: Option<Id>, s: Slot) returns (status: Status)
      requires Valid() && Spare(mem, at, l, s) && Allocates(mem, Some(a), b)
      modifies this
      ensures at == old(at)
      ensures var plan := AllowedIpsUpdates.AddUnder(old(mem), old(at), l, q, a, b, s);
        status == plan.status && mem == DoAll(old(mem), plan.stores)
    {
      hide Trie, Spare, Fork, AllowedIpsUpdates.AddUnder, DoAll, Side;
      ghost var h := mem;
      UnderHeap(h, at, l, q, a, b, s);
      TrieFresh(h, at, a);
      if s in h.kid { TrieSlot(h, at, s, a); ForkBits(h, at, l, s); ForkIs(h, at, l, s); }
      Introduce(a, l, q);
      if s !in mem.kid {
        ConnectNode(s, a);
        return Success;
      }
      var d := mem.kid[s];
      var bits := mem.tag[d].bits;
      var common := Common(bits, l.bits);
      var c := if l.cidr < common then l.cidr else common;
      if l.cidr == c {
        ConnectNode(At(a, bits[c]), d);
        ConnectNode(s, a);
        return Success;
      }
      if b.None? {
        mem := mem.(on := mem.on - {a});
        mem := mem.(tag := mem.tag - {a}, peer := mem.peer - {a});
        assert mem.on == h.on && mem.tag == h.tag && mem.peer == h.peer;
        return InsufficientResources;
      }
      mem := mem.(tag := mem.tag[b.value := Label(c, l.bits)]);
      ConnectNode(At(b.value, bits[c]), d);
      ConnectNode(At(b.value, l.bits[c]), a);
      ConnectNode(s, b.value);
      return Success;
    }

    method AddNode(k: Key, cidr: nat, q: Peer, a: Option<Id>, b: Option<Id>) returns (status: Status)
      requires Valid() && Allocates(mem, a, b) && cidr <= |k|
      modifies this
      ensures at == old(at)
      ensures var plan := AllowedIpsUpdates.Add(old(mem), old(at), k, cidr, Some(q), a, b);
        status == plan.status && mem == DoAll(old(mem), plan.stores)
    {
      ghost var h := mem;
      AddPlan(h, at, k, cidr, Some(q), a, b);
      hide Trie, DoAll, AllowedIpsUpdates.AddUnder, AllowedIpsUpdates.Add, Spare, Hang, WithPeer, Tagged;
      var l := Label(cidr, k);
      if Top(|k|) !in mem.kid {
        if a.None? { return InsufficientResources; }
        Introduce(a.value, l, q);
        ConnectNode(Top(|k|), a.value);
        return Success;
      }
      var node, exact := NodePlacement(k, cidr);
      if exact {
        Reassign(node.value, q);
        return Success;
      }
      if a.None? { return InsufficientResources; }
      var s := if node.None? then Top(|k|) else At(node.value, Choose(mem.tag[node.value], k));
      status := AddUnder(l, q, a.value, b, s);
    }

    /** Insert a prefix; `a` and `b` are what the first and the second allocation return. */
    method Add(k: Key, cidr: nat, q: Option<Peer>, a: Option<Id>, b: Option<Id>) returns (status: Status)
      requires Valid() && Allocates(mem, a, b)
      modifies this
      ensures Valid()
      ensures status.InvalidParameter? <==> cidr > |k| || q.None?
      ensures status.InsufficientResources? ==> a.None? || b.None?
      ensures if status.Success? then Map() == old(Map())[Net(|k|, k[..cidr]) := q.value]
              else mem == old(mem) && Map() == old(Map())
    {
      hide Trie, Allocates, DoAll, AllowedIpsUpdates.Add, AddIndex, Table, Linked, NetOf;
      AddUpdates(mem, at, k, cidr, q, a, b);
      if cidr > |k| || q.None? { return InvalidParameter; }
      TrieLinked(mem, at);
      ghost var at' := AddIndex(mem, at, k, cidr, if a.Some? then a.value else 0, if b.Some? then b.value else 0);
      status := AddNode(k, cidr, q.value, a, b);
      if status == Success { at := at'; }
    }

    /** The child's parent pointer, then the link that pointed at the node it replaces. */
    method PutInPlace(s: Slot, c: Option<Id>)
      modifies this
      ensures mem == old(mem).(up := if c.Some? then old(mem).up[c.value := s] else old(mem).up, kid := Put(old(mem).kid, s, c))
      ensures at == old(at)
    {
      if c.Some? { mem := mem.(up := mem.up[c.value := s]); }
      mem := mem.(kid := Put(mem.kid, s, c));
    }

    /** The stores of RemoveNode. */
    method CutNode(n: Id)
      requires Valid() && Live(mem, at, n)
      modifies this
      ensures mem == Removed(old(mem), old(at), n) && at == old(at)
    {
      ghost var h := mem;
      assert NodeFits(h, at, n);
      if FreesParent(h, n) && !(At(n, false) in h.kid && At(n, true) in h.kid) {
        LeafCut(h, at, n);
        SiblingOf(h, at, n);
      }
      NotOwnKid(h, at, n);
      hide Trie, NodeFits, Live;
      mem := mem.(on := mem.on - {n});
      mem := mem.(peer := mem.peer - {n});
      if At(n, false) in mem.kid && At(n, true) in mem.kid { return; }
      var child := Kid(mem, At(n, At(n, false) !in mem.kid));
      var s := mem.up[n];
      PutInPlace(s, child);
      var freeParent := At(n, false) !in mem.kid && At(n, true) !in mem.kid && s.At? && s.node !in mem.peer;
      if !freeParent { return; }
      child := Kid(mem, At(s.node, !s.bit));
      PutInPlace(mem.up[s.node], child);
    }

    method RemoveNode(n: Id)
      requires Valid() && Live(mem, at, n)
      modifies this
      ensures Valid() && Map() == old(Map()) - {NetOf(old(mem).tag[n])}
      ensures mem.on == old(mem).on - {n} && mem.tag == old(mem).tag
      ensures forall m :: m in mem.on ==> Live(mem, at, m)
    {
      ghost var h, at' := mem, RemoveIndex(mem, at, n);
      RemoveUpdates(h, at, n);
      DoRemove(h, at, n);
      hide RemoveIndex, Removed, Table, AllowedIpsUpdates.RemoveNode, DoAll, Linked, Compact;
      CutNode(n);
      at := at';
    }

    method Remove(k: Key, cidr: nat, q: Option<Peer>) returns (status: Status)
      requires Valid()
      modifies this
      ensures Valid()
      ensures status == if cidr > |k| then InvalidParameter else Success
      ensures Map() ==
        if cidr <= |k| && Net(|k|, k[..cidr]) in old(Map()) && q == Some(old(Map())[Net(|k|, k[..cidr])])
        then old(Map()) - {Net(|k|, k[..cidr])} else old(Map())
    {
      hide Trie, Table, Linked, NetOf, PeerOf, Spotted, Live;
      if cidr > |k| { return InvalidParameter; }
      ghost var p := Net(|k|, k[..cidr]);
      SpottedIs(mem, at, k, cidr);
      if Top(|k|) !in mem.kid { return Success; }
      var node, exact := NodePlacement(k, cidr);
      if !exact || q != PeerOf(mem, node) { return Success; }
      assert p !in Map() ==> Map() - {p} == Map();
      RemoveNode(node.value);
      return Success;
    }

    /** All prefixes of a peer, in whatever order its list holds them. */
    method RemoveByPeer(q: Peer)
      requires Valid()
      modifies this
      ensures Valid()
      ensures Map() == map p | p in old(Map()) && old(Map())[p] != q :: old(Map())[p]
    {
      hide Trie, Table, Live;
      var rest := set n | n in mem.on && mem.on[n] == q;
      while rest != {}
        invariant Valid() && rest == set n | n in mem.on && mem.on[n] == q
        invariant forall p :: p in Map() ==> p in old(Map()) && Map()[p] == old(Map())[p]
        invariant forall p :: p in old(Map()) && old(Map())[p] != q ==> p in Map()
        decreases |rest|
      {
        var n :| n in rest;
        OnlyItsOwn(mem, at, n, q);
        RemoveNode(n);
        rest := rest - {n};
      }
      forall n | n in mem.on ensures mem.on[n] != q { assert n !in rest; }
      NoneLeft(mem, at, q);
    }
  }

  /** The slot of a linked node is not one of its own. */
  lemma NotOwnKid(h: Heap, at: Index, n: Id)
    requires Trie(h, at) && Live(h, at, n)
    ensures n in h.up && forall b :: h.up[n] != At(n, b)
  {
    assert NodeFits(h, at, n) && LinkFits(h, h.up[n]);
  }

  /** A node on q's list carries q; its prefix is mapped to q. */
  lemma OnlyItsOwn(h: Heap, at: Index, n: Id, q: Peer)
    requires Trie(h, at) && n in h.on && h.on[n] == q
    ensures Live(h, at, n) && NetOf(h.tag[n]) in Table(h, at) && Table(h, at)[NetOf(h.tag[n])] == q
  {
  }

  lemma NoneLeft(h: Heap, at: Index, q: Peer)
    requires Trie(h, at) && forall n :: n in h.on ==> h.on[n] != q
    ensures forall p :: p in Table(h, at) ==> Table(h, at)[p] != q
  {
  }
}
