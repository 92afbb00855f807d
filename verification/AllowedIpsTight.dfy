/** The stack of driver/allowedips.c has not one entry too many: after some run of inserts a walk fills it. */
module AllowedIpsTight {
  import opened AllowedIps
  import opened AllowedIpsUpdates
  import opened AllowedIpsWalks

  function Ones(n: nat): (k: Key)
    ensures |k| == n && forall i :: 0 <= i < n ==> k[i]
  {
    seq(n, _ => true)
  }

  /** An address of w bits that starts with i ones and, if it is not all ones, a zero. */
  function Fan(w: nat, i: nat): (k: Key)
    ensures i <= w ==> |k| == w && k[..i] == Ones(i) && (i < w ==> !k[i])
  {
    if i < w then Ones(i) + [false] + Ones(w - i - 1) else Ones(w)
  }

  /** The prefixes of ones up to length n, and those with one more bit that is zero. */
  ghost predicate Combed(at: Index, w: nat, n: nat) {
    && (forall i :: 0 <= i <= n <= w ==> Net(w, Ones(w)[..i]) in at)
    && (forall i :: 0 <= i < n <= w ==> Net(w, Fan(w, i)[..i + 1]) in at)
  }

  lemma {:induction false} FreshId(s: set<Id>) returns (n: Id)
    ensures forall m :: m in s ==> m < n
    decreases s
  {
    n := 0;
    if s != {} {
      var x :| x in s;
      n := FreshId(s - {x});
      assert forall m :: m in s ==> m == x || m in s - {x};
      if n <= x { n := x + 1; }
    }
  }

  lemma Insert(h: Heap, at: Index, k: Key, cidr: nat, a: Id, b: Id)
    requires Trie(h, at) && Linked(h, at) && Allocates(h, Some(a), Some(b)) && cidr <= |k|
    ensures var h' := DoAll(h, Add(h, at, k, cidr, Some(0), Some(a), Some(b)).stores);
      var at' := AddIndex(h, at, k, cidr, a, b);
      Trie(h', at') && Table(h', at') == Table(h, at)[Net(|k|, k[..cidr]) := 0]
  {
    hide Trie, Linked, Allocates, DoAll, Add, AddIndex, Table;
    AddUpdates(h, at, k, cidr, Some(0), Some(a), Some(b));
  }

  lemma FreshPair(h: Heap) returns (a: Id)
    ensures Allocates(h, Some(a), Some(a + 1))
  {
    a := FreshId(h.tag.Keys);
  }

  lemma IsLinked(h: Heap, at: Index)
    requires Trie(h, at)
    ensures Linked(h, at)
  {
  }

  lemma Inserted(h: Heap, at: Index, k: Key, cidr: nat) returns (h': Heap, at': Index)
    requires Trie(h, at) && cidr <= |k|
    ensures Trie(h', at') && Table(h', at') == Table(h, at)[Net(|k|, k[..cidr]) := 0]
  {
    IsLinked(h, at);
    hide *;
    var a := FreshPair(h);
    Insert(h, at, k, cidr, a, a + 1);
    h' := DoAll(h, Add(h, at, k, cidr, Some(0), Some(a), Some(a + 1)).stores);
    at' := AddIndex(h, at, k, cidr, a, a + 1);
  }

  /** A run of inserts that makes a comb. */
  lemma {:induction false} Comb(w: nat, n: nat) returns (h: Heap, at: Index)
    requires n <= w
    ensures Trie(h, at) && Combed(Table(h, at), w, n)
    decreases n
  {
    hide Trie, Table;
    if n == 0 {
      BlankTrie();
      h, at := Inserted(Blank, map[], Ones(w), 0);
    } else {
      h, at := Comb(w, n - 1);
      h, at := Inserted(h, at, Fan(w, n - 1), n);
      h, at := Inserted(h, at, Ones(w), n);
    }
  }

  lemma BlankTrie()
    ensures Trie(Blank, map[])
  {
  }

  lemma TableInIndex(h: Heap, at: Index, w: nat, n: nat)
    requires Combed(Table(h, at), w, n)
    ensures Combed(at, w, n)
  {
  }

  /** What the walk has on its stack after some rounds. */
  ghost function StackAfter(h: Heap, stack: seq<Id>, rounds: nat): seq<Id>
    decreases rounds
  {
    if rounds == 0 || stack == [] then stack
    else StackAfter(h, stack[..|stack| - 1] + Kids(h, stack[|stack| - 1]), rounds - 1)
  }

  /** The node of i ones has a child on either side, the longer one being the node of i + 1 ones. */
  lemma Tooth(h: Heap, at: Index, w: nat, i: nat)
    requires Linked(h, at) && Combed(at, w, w) && i < w
    ensures var n := at[Net(w, Ones(w)[..i])];
      |Kids(h, n)| == 2 && Kids(h, n)[1] == at[Net(w, Ones(w)[..i + 1])]
  {
    var k, f := Ones(w), Fan(w, i);
    var n := at[Net(w, k[..i])];
    assert NetFits(h, at, Net(w, k[..i]));
    assert h.tag[n].cidr == i && h.tag[n].bits[..i] == k[..i] == f[..i];
    ChildLeads(h, at, n, k, i + 1);
    ChildLeads(h, at, n, f, i + 1);
    assert LinkFits(h, At(n, true));
    var c := h.kid[At(n, true)];
    assert h.tag[c].cidr == i + 1 && NetOf(h.tag[c]) == Net(w, k[..i + 1]);
  }

  lemma {:induction false} Fills(h: Heap, at: Index, w: nat, i: nat, rest: seq<Id>)
    requires Linked(h, at) && Combed(at, w, w) && i <= w
    ensures |StackAfter(h, rest + [at[Net(w, Ones(w)[..i])]], w - i)| == |rest| + 1 + (w - i)
    decreases w - i
  {
    hide Linked, Kids;
    if i < w {
      var n := at[Net(w, Ones(w)[..i])];
      Tooth(h, at, w, i);
      var k := Kids(h, n);
      Fills(h, at, w, i + 1, rest + [k[0]]);
      assert (rest + [n])[..|rest|] == rest && rest + k == rest + [k[0]] + [k[1]];
    }
  }

  /** Some trie of addresses of w bits makes the walk hold w + 1 entries at once: with 128 bits the
      stack of 129 entries is full. */
  lemma StackIsTight() returns (h: Heap, at: Index)
    ensures Trie(h, at) && Top(128) in h.kid
    ensures |StackAfter(h, [h.kid[Top(128)]], 128)| == STACK_ENTRIES
  {
    h, at := Comb(128, 128);
    TableInIndex(h, at, 128, 128);
    var k := Ones(128);
    RootLeads(h, at, k, 0);
    assert NetOf(h.tag[h.kid[Top(128)]]) == Net(128, k[..0]);
    hide Trie, Linked, Combed, StackAfter;
    assert [] + [h.kid[Top(128)]] == [h.kid[Top(128)]];
    Fills(h, at, 128, 0, []);
  }
}
