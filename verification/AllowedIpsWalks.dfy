/** The two walks over a whole trie in driver/allowedips.c, depth first with a stack of 129 entries. */
module AllowedIpsWalks {
  import opened AllowedIps

  const STACK_ENTRIES: nat := 129

  predicate Distinct(s: seq<Id>) {
    forall i, j :: 0 <= i < j < |s| ==> s[i] != s[j]
  }

  /** A node of the trie of width w. */
  ghost predicate In(h: Heap, at: Index, w: nat, n: Id) {
    Live(h, at, n) && |h.tag[n].bits| == w
  }

  /** The entries of the stack get longer prefixes from bottom to top. */
  ghost predicate StackFits(h: Heap, at: Index, w: nat, stack: seq<Id>) {
    forall i :: 0 <= i < |stack| ==> In(h, at, w, stack[i]) && i <= h.tag[stack[i]].cidr
  }

  /** Everything is done, on the stack, or below a node on the stack, and nothing is there twice. */
  ghost predicate WalkFits(h: Heap, at: Index, w: nat, stack: seq<Id>, done: seq<Id>) {
    && StackFits(h, at, w, stack)
    && Distinct(stack) && Distinct(done) && (forall n :: n in stack ==> n !in done)
    && (forall n :: n in done ==> In(h, at, w, n))
    && (forall n :: n in stack || n in done ==> n in h.up && (h.up[n].Top? || h.up[n].node in done))
    && (forall s :: s in h.kid && s.At? && s.node in done ==> h.kid[s] in done || h.kid[s] in stack)
    && (Top(w) in h.kid ==> h.kid[Top(w)] in done || h.kid[Top(w)] in stack)
  }

  function Kids(h: Heap, n: Id): seq<Id> {
    (if At(n, false) in h.kid then [h.kid[At(n, false)]] else [])
    + (if At(n, true) in h.kid then [h.kid[At(n, true)]] else [])
  }

  lemma KidsFit(h: Heap, at: Index, w: nat, n: Id)
    requires Linked(h, at) && In(h, at, w, n)
    ensures Distinct(Kids(h, n)) && (forall b :: At(n, b) in h.kid ==> h.kid[At(n, b)] in Kids(h, n))
    ensures forall c :: c in Kids(h, n) ==>
      In(h, at, w, c) && h.tag[c].cidr > h.tag[n].cidr && c in h.up && h.up[c].At? && h.up[c].node == n
  {
    forall b | At(n, b) in h.kid
      ensures In(h, at, w, h.kid[At(n, b)]) && h.tag[h.kid[At(n, b)]].cidr > h.tag[n].cidr
      ensures h.kid[At(n, b)] in h.up && h.up[h.kid[At(n, b)]] == At(n, b)
    {
      assert LinkFits(h, At(n, b)) && SlotFits(h, at, At(n, b));
    }
    hide Linked, Live;
  }

  lemma WalkStack(h: Heap, at: Index, w: nat, stack: seq<Id>, n: Id)
    requires StackFits(h, at, w, stack + [n]) && In(h, at, w, n)
    requires forall c :: c in Kids(h, n) ==> In(h, at, w, c) && h.tag[c].cidr > h.tag[n].cidr
    ensures StackFits(h, at, w, stack + Kids(h, n))
  {
    var s, t := stack + [n], stack + Kids(h, n);
    assert s[|stack|] == n;
    forall i | 0 <= i < |t| ensures In(h, at, w, t[i]) && i <= h.tag[t[i]].cidr {
      if i < |stack| { assert s[i] == t[i]; } else { assert t[i] in Kids(h, n); }
    }
  }

  lemma DistinctConcat(a: seq<Id>, b: seq<Id>)
    requires Distinct(a) && Distinct(b) && forall n :: n in a ==> n !in b
    ensures Distinct(a + b)
  {
    forall i, j | 0 <= i < j < |a + b| ensures (a + b)[i] != (a + b)[j] {
      if i < |a| { assert a[i] in a; }
      if j >= |a| { assert b[j - |a|] in b; }
    }
  }

  lemma DistinctPop(a: seq<Id>, n: Id)
    requires Distinct(a + [n])
    ensures Distinct(a) && n !in a
  {
    assert (a + [n])[|a|] == n;
    forall i, j | 0 <= i < j < |a| ensures a[i] != a[j] { assert (a + [n])[i] != (a + [n])[j]; }
    forall i | 0 <= i < |a| ensures a[i] != n { assert (a + [n])[i] != (a + [n])[|a|]; }
  }

  /** One round: the top entry is done and its children take its place. */
  lemma WalkStep(h: Heap, at: Index, w: nat, stack: seq<Id>, n: Id, done: seq<Id>)
    requires Linked(h, at) && WalkFits(h, at, w, stack + [n], done)
    ensures WalkFits(h, at, w, stack + Kids(h, n), done + [n])
  {
    hide Linked, In, Live, Kids;
    var k := Kids(h, n);
    assert (stack + [n])[|stack|] == n;
    KidsFit(h, at, w, n);
    WalkStack(h, at, w, stack, n);
    DistinctPop(stack, n);
    forall c | c in k ensures c !in stack && c !in done && c != n { assert n !in done; }
    DistinctConcat(stack, k);
    DistinctConcat(done, [n]);
    hide StackFits, Distinct;
  }

  /** The stack never holds more entries than the key has lengths. */
  lemma StackBound(h: Heap, at: Index, w: nat, stack: seq<Id>)
    requires StackFits(h, at, w, stack)
    ensures |stack| <= w + 1
  {
    if stack != [] { assert In(h, at, w, stack[|stack| - 1]); }
  }

  /** With an empty stack every node has been done. */
  lemma {:induction false} WalkEnd(h: Heap, at: Index, w: nat, done: seq<Id>, n: Id)
    requires Linked(h, at) && WalkFits(h, at, w, [], done) && In(h, at, w, n)
    ensures n in done
    decreases h.tag[n].cidr
  {
    assert NodeFits(h, at, n) && LinkFits(h, h.up[n]);
    if h.up[n].At? { WalkEnd(h, at, w, done, h.up[n].node); }
  }

  lemma WalkDone(h: Heap, at: Index, w: nat, done: seq<Id>)
    requires Linked(h, at) && WalkFits(h, at, w, [], done)
    ensures Distinct(done) && forall n :: n in done <==> In(h, at, w, n)
  {
    forall n | In(h, at, w, n) ensures n in done { WalkEnd(h, at, w, done, n); }
  }

  lemma WalkStart(h: Heap, at: Index, w: nat)
    requires Linked(h, at) && Top(w) in h.kid
    ensures WalkFits(h, at, w, [h.kid[Top(w)]], [])
  {
    assert LinkFits(h, Top(w)) && SlotFits(h, at, Top(w));
  }

  ghost function Undone(at: Index, done: seq<Id>): set<Id> {
    set p | p in at && at[p] !in done :: at[p]
  }

  /** PushRcu. */
  method Push(stack: array<Id>, kid: Option<Id>, len: nat) returns (len': nat)
    requires kid.Some? ==> len < stack.Length
    requires len <= stack.Length
    modifies stack
    ensures len' == (if kid.Some? then len + 1 else len) && len' <= stack.Length
    ensures stack[..len'] == old(stack[..len]) + if kid.Some? then [kid.value] else []
  {
    len' := len;
    if kid.Some? {
      stack[len] := kid.value;
      len' := len + 1;
    }
  }

  /** RootFreeRcu: every node of the trie is freed, each once; no read or write leaves the stack. */
  method RootFreeRcu(h: Heap, ghost at: Index, w: nat, root: Id) returns (freed: seq<Id>)
    requires Trie(h, at) && w < STACK_ENTRIES && Top(w) in h.kid && h.kid[Top(w)] == root
    ensures Distinct(freed) && forall n :: n in freed <==> In(h, at, w, n)
  {
    hide Linked, Compact, Listed, In, WalkFits;
    var stack := new Id[STACK_ENTRIES];
    stack[0] := root;
    var len := 1;
    freed := [];
    WalkStart(h, at, w);
    assert stack[..1] == [root];
    while len > 0
      invariant len <= STACK_ENTRIES && WalkFits(h, at, w, stack[..len], freed)
      decreases Undone(at, freed)
    {
      ghost var rest, was := stack[..len - 1], freed;
      len := len - 1;
      var node := stack[len];
      assert stack[..len + 1] == rest + [node];
      WalkStep(h, at, w, rest, node, freed);
      WalkRoom(h, at, w, rest, node, freed);
      len := Push(stack, Kid(h, At(node, false)), len);
      len := Push(stack, Kid(h, At(node, true)), len);
      freed := freed + [node];
      assert stack[..len] == rest + Kids(h, node);
    }
    assert stack[..0] == [];
    WalkDone(h, at, w, freed);
  }

  /** The children of the top entry still fit, and the walk gets on. */
  lemma WalkRoom(h: Heap, at: Index, w: nat, stack: seq<Id>, n: Id, done: seq<Id>)
    requires Linked(h, at) && WalkFits(h, at, w, stack + [n], done) && w < STACK_ENTRIES
    ensures |stack| + |Kids(h, n)| <= STACK_ENTRIES
    ensures Undone(at, done + [n]) < Undone(at, done)
  {
    assert (stack + [n])[|stack|] == n;
    KidsFit(h, at, w, n);
    WalkStack(h, at, w, stack, n);
    StackBound(h, at, w, stack + Kids(h, n));
    assert NetOf(h.tag[n]) in at && at[NetOf(h.tag[n])] == n;
    assert n in Undone(at, done) && n !in Undone(at, done + [n]);
  }

  /** RootRemovePeerLists: the nodes of the trie leave the lists of their peers, no others do. */
  method RootRemovePeerLists(h: Heap, ghost at: Index, w: nat, root: Id) returns (on: map<Id, Peer>)
    requires Trie(h, at) && w < STACK_ENTRIES && Top(w) in h.kid && h.kid[Top(w)] == root
    ensures forall n :: n in on <==> n in h.on && !In(h, at, w, n)
    ensures forall n :: n in on ==> on[n] == h.on[n]
  {
    hide Linked, Compact, Live, WalkFits;
    var stack := new Id[STACK_ENTRIES];
    stack[0] := root;
    var len := 1;
    on := h.on;
    ghost var done := [];
    WalkStart(h, at, w);
    assert stack[..1] == [root];
    while len > 0
      invariant len <= STACK_ENTRIES && WalkFits(h, at, w, stack[..len], done)
      invariant forall n :: n in on <==> n in h.on && n !in done
      invariant forall n :: n in on ==> on[n] == h.on[n]
      decreases Undone(at, done)
    {
      ghost var rest := stack[..len - 1];
      len := len - 1;
      var node := stack[len];
      assert stack[..len + 1] == rest + [node];
      WalkStep(h, at, w, rest, node, done);
      WalkRoom(h, at, w, rest, node, done);
      len := Push(stack, Kid(h, At(node, false)), len);
      len := Push(stack, Kid(h, At(node, true)), len);
      if node in h.peer { on := on - {node}; }
      done := done + [node];
      assert stack[..len] == rest + Kids(h, node);
    }
    assert stack[..0] == [];
    WalkDone(h, at, w, done);
  }
}
