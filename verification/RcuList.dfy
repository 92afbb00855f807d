/** The callback list of driver/rcu.c: the links that __RcuCall stores under the lock, and how the
    cleaning thread detaches and walks them. */
module RcuList {
  type Callback = nat

  datatype Link = Null | To(cb: Callback)

  datatype Kind = Call | Free | Sync

  class Cleanup {
    var head: Link
    var tail: Link
    var next: map<Callback, Link>
    var kind: map<Callback, Kind>
    var workPending: bool
    ghost var pending: seq<Callback>

    /** The list is the chain from head to tail through the links. */
    ghost predicate Valid()
      reads this
    {
      && (forall i, j :: 0 <= i < j < |pending| ==> pending[i] != pending[j])
      && Chain(pending, head)
      && (if pending == [] then tail == Null else tail == To(pending[|pending| - 1]))
      && (pending != [] ==> workPending)
    }

    ghost predicate Chain(list: seq<Callback>, first: Link)
      reads this
    {
      && first == (if list == [] then Null else To(list[0]))
      && forall i :: 0 <= i < |list| ==>
           list[i] in next && list[i] in kind && next[list[i]] == if i + 1 < |list| then To(list[i + 1]) else Null
    }

    constructor ()
      ensures Valid() && pending == [] && !workPending
    {
      head, tail, next, kind, workPending, pending := Null, Null, map[], map[], false, [];
    }

    /** The caller's callback is not on the list already. */
    method RcuCall(cb: Callback, k: Kind)
      requires Valid() && cb !in pending
      modifies this
      ensures Valid() && pending == old(pending) + [cb] && workPending
      ensures kind == old(kind)[cb := k] && next.Keys == old(next.Keys) + {cb}
      ensures forall other :: other in old(next) && other != cb && other !in old(pending) ==> next[other] == old(next[other])
    {
      kind := kind[cb := k];
      next := next[cb := Null];
      if tail.To? { next := next[tail.cb := To(cb)]; } else { head := To(cb); }
      tail := To(cb);
      pending := pending + [cb];
      workPending := true;
    }

    /** The thread takes the whole list. */
    method Detach() returns (first: Link, ghost list: seq<Callback>)
      requires Valid()
      modifies this
      ensures Valid() && pending == [] && !workPending
      ensures list == old(pending) && Chain(list, first) && next == old(next) && kind == old(kind)
      ensures forall i, j :: 0 <= i < j < |list| ==> list[i] != list[j]
    {
      first, list := head, pending;
      head, tail, pending := Null, Null, [];
      workPending := false;
    }

    /** The next link is read before the callback runs, because running it may free it. */
    method RunAll(first: Link, ghost list: seq<Callback>) returns (ran: seq<(Callback, Kind)>)
      requires Chain(list, first)
      requires forall i, j :: 0 <= i < j < |list| ==> list[i] != list[j]
      modifies `next
      ensures |ran| == |list| && forall i :: 0 <= i < |list| ==> list[i] in kind && ran[i] == (list[i], kind[list[i]])
      ensures next == old(next) - (set cb | cb in list)
    {
      var at := first;
      ran := [];
      while at.To?
        invariant |ran| <= |list| && (at.To? <==> |ran| < |list|) && (at.To? ==> at.cb == list[|ran|])
        invariant forall i :: 0 <= i < |ran| ==> list[i] in kind && ran[i] == (list[i], kind[list[i]])
        invariant forall i :: |ran| <= i < |list| ==>
          list[i] in next && list[i] in kind && next[list[i]] == if i + 1 < |list| then To(list[i + 1]) else Null
        invariant next == old(next) - (set cb | cb in list[..|ran|])
        decreases |list| - |ran|
      {
        var after := next[at.cb];
        ghost var n := |ran|;
        assert after == if n + 1 < |list| then To(list[n + 1]) else Null;
        ran := ran + [(at.cb, kind[at.cb])];
        next := next - {at.cb};
        assert list[..n + 1] == list[..n] + [list[n]];
        at := after;
      }
      assert list[..|ran|] == list;
    }
  }
}
