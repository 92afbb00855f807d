/** The list of peers with work to release (driver/queueing.h): a singly linked list threaded through
    the peers' entries, whose Next field doubles as the busy mark. Each method is one section under
    the list's lock. */
module PeerSerial {
  type Entry = nat

  /** The value of a list of entries: who waits on it in order, whose Next is not NULL (waiting or
      being served), and whose Requeue flag is set. */
  datatype Serial = Serial(list: seq<Entry>, busy: set<Entry>, requeue: set<Entry>)

  function Enqueued(s: Serial, item: Entry, maybeRequeue: bool): Serial {
    if item in s.busy then (if maybeRequeue then s.(requeue := s.requeue + {item}) else s)
    else s.(list := s.list + [item], busy := s.busy + {item})
  }

  function Retired(s: Serial, item: Entry, forceMore: bool): Serial {
    if item in s.requeue || forceMore then s.(list := s.list + [item], requeue := s.requeue - {item})
    else s.(busy := s.busy - {item})
  }

  function Dequeued(s: Serial): Serial
    requires s.list != []
  {
    s.(list := s.list[1..])
  }

  datatype Link = Null | Busy | To(entry: Entry)

  datatype LastSlot = FirstField | NextField(entry: Entry)

  /** First, Last and the entries' Next and Requeue fields, as in PEER_SERIAL and PEER_SERIAL_ENTRY. */
  class PeerSerialList {
    var first: Link
    var last: LastSlot
    var next: map<Entry, Link>
    var requeue: set<Entry>
    ghost var list: seq<Entry>

    ghost predicate Valid()
      reads this
    {
      && (forall e :: e in next ==> !next[e].Null?)
      && (forall i, j :: 0 <= i < j < |list| ==> list[i] != list[j])
      && (forall i :: 0 <= i < |list| ==> list[i] in next)
      && first == (if list == [] then Busy else To(list[0]))
      && last == (if list == [] then FirstField else NextField(list[|list| - 1]))
      && (forall i :: 0 <= i < |list| - 1 ==> next[list[i]] == To(list[i + 1]))
      && (list != [] ==> next[list[|list| - 1]] == Busy)
    }

    ghost function Value(): Serial
      reads this
    {
      Serial(list, next.Keys, requeue)
    }

    constructor ()
      ensures Valid() && Value() == Serial([], {}, {})
    {
      first, last, next, requeue, list := Busy, FirstField, map[], {}, [];
    }

    /** The store through Last. */
    method Append(item: Entry)
      requires Valid() && item !in list
      modifies this
      ensures Valid() && Value() == old(Value()).(list := old(list) + [item], busy := old(next.Keys) + {item})
    {
      next := next[item := Busy];
      match last {
        case FirstField => first := To(item);
        case NextField(e) => next := next[e := To(item)];
      }
      last := NextField(item);
      list := list + [item];
      assert next.Keys == old(next.Keys) + {item};
    }

    method EnqueueIfNotBusy(item: Entry, maybeRequeue: bool) returns (added: bool)
      requires Valid()
      modifies this
      ensures Valid() && Value() == Enqueued(old(Value()), item, maybeRequeue)
      ensures added <==> item !in old(Value()).busy
      ensures list == old(list) + (if added then [item] else []) && next.Keys == old(next.Keys) + {item}
      ensures requeue == old(requeue) + if !added && maybeRequeue then {item} else {}
    {
      if item in next {
        if maybeRequeue { requeue := requeue + {item}; }
        return false;
      }
      Append(item);
      return true;
    }

    /** The caller serves `item`, so it is busy and not on the list. */
    method MaybeRetire(item: Entry, forceMore: bool) returns (again: bool)
      requires Valid() && item in next && item !in list
      modifies this
      ensures Valid() && Value() == Retired(old(Value()), item, forceMore)
      ensures again <==> item in Value().list
      ensures again <==> item in old(requeue) || forceMore
      ensures list == old(list) + (if again then [item] else []) && requeue == old(requeue) - {item}
      ensures next.Keys == if again then old(next.Keys) else old(next.Keys) - {item}
    {
      var asked := item in requeue;
      next := next - {item};
      requeue := requeue - {item};
      again := asked || forceMore;
      if again {
        Append(item);
        assert next.Keys == old(next.Keys);
      } else {
        assert next.Keys == old(next.Keys) - {item};
      }
    }

    method Dequeue() returns (e: Link)
      requires Valid()
      modifies this
      ensures Valid()
      ensures if old(list) == [] then e == Null && Value() == old(Value())
              else e == To(old(list)[0]) && Value() == Dequeued(old(Value()))
      ensures old(list) != [] ==> list == old(list)[1..] && next.Keys == old(next.Keys) && requeue == old(requeue)
    {
      if first == Busy { return Null; }
      e := first;
      first := next[e.entry];
      if first == Busy { last := FirstField; }
      list := list[1..];
    }
  }
}
