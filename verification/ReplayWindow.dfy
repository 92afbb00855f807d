/** The replay window of driver/receive.c: a circular bitmap of 128 words that forgets the oldest word
    when the counter moves on (section 2 of RFC 6479). */
module ReplayWindow {
  import opened Words

  const BITS_PER_POINTER: nat := 64
  const COUNTER_BITS_TOTAL: nat := 8192
  const COUNTER_WINDOW_SIZE: nat := COUNTER_BITS_TOTAL - BITS_PER_POINTER
  const REJECT_AFTER_MESSAGES: nat := (TWO64 - 1) - COUNTER_WINDOW_SIZE - 1
  const WORDS: nat := COUNTER_BITS_TOTAL / BITS_PER_POINTER

  // ---------------------------------------------------------------- bits of a word

  predicate Bit(word: nat, b: nat) {
    if b == 0 then word % 2 == 1 else Bit(word / 2, b - 1)
  }

  function SetBit(word: nat, b: nat): nat {
    if b == 0 then word - word % 2 + 1 else 2 * SetBit(word / 2, b - 1) + word % 2
  }

  lemma {:induction false} SetBitSets(word: nat, b: nat, c: nat)
    ensures Bit(SetBit(word, b), c) == (c == b || Bit(word, c))
    decreases b
  {
    if b > 0 && c > 0 { SetBitSets(word / 2, b - 1, c - 1); }
  }

  lemma {:induction false} ZeroHasNoBits(b: nat)
    ensures !Bit(0, b)
  {
    if b > 0 { ZeroHasNoBits(b - 1); }
  }

  function Slot(w: nat): (r: nat)
    ensures r < WORDS
  {
    w % WORDS
  }

  lemma SlotsApart(v: nat, w: nat)
    requires v < w < v + WORDS
    ensures Slot(v) != Slot(w)
  {
  }

  function WordOf(t: nat): nat { t / BITS_PER_POINTER }

  /** Whether message t - 1 is marked. */
  predicate Marked(words: seq<nat>, t: nat)
    requires |words| == WORDS
  {
    Bit(words[Slot(WordOf(t))], t % BITS_PER_POINTER)
  }

  /** The last 128 words up to the counter's agree with what was accepted. */
  ghost predicate Agrees(words: seq<nat>, counter: nat, seen: set<nat>) {
    && |words| == WORDS
    && forall t: nat :: Kept(counter, t) ==> (Marked(words, t) <==> t > 0 && t - 1 in seen)
  }

  /** The counter is one more than the greatest message accepted. */
  ghost predicate Tells(words: seq<nat>, counter: nat, seen: set<nat>) {
    && Agrees(words, counter, seen)
    && (forall n :: n in seen ==> n < counter)
    && (counter > 0 ==> counter - 1 in seen)
    && counter <= REJECT_AFTER_MESSAGES
  }

  predicate Kept(counter: nat, t: nat) {
    WordOf(counter) - WORDS < WordOf(t) <= WordOf(counter)
  }

  /** What the window accepts. */
  predicate Acceptable(n: nat, seen: set<nat>) {
    n < REJECT_AFTER_MESSAGES && n !in seen && forall m :: m in seen ==> m <= n + COUNTER_WINDOW_SIZE
  }

  lemma AcceptableByCounter(words: seq<nat>, counter: nat, seen: set<nat>, n: nat)
    requires Tells(words, counter, seen)
    ensures Acceptable(n, seen) <==> n < REJECT_AFTER_MESSAGES && n + 1 + COUNTER_WINDOW_SIZE >= counter && n !in seen
  {
    if counter > 0 { assert counter - 1 in seen; }
  }

  /** The `top` words after the current one are clear, and those before them are as they were. */
  ghost predicate Cleared(words: seq<nat>, after: seq<nat>, current: nat, top: nat) {
    && |words| == |after| == WORDS
    && (forall w :: current < w <= current + top ==> after[Slot(w)] == 0)
    && (forall w :: current + top - WORDS < w <= current && w >= 0 ==> after[Slot(w)] == words[Slot(w)])
  }

  class ReplayCounter {
    var counter: nat
    const backtrack: array<nat>
    ghost var seen: set<nat>

    ghost predicate Valid()
      reads this, backtrack
    {
      Tells(backtrack[..], counter, seen)
    }

    lemma Sized()
      requires Valid()
      ensures backtrack.Length == WORDS
    {
    }

    constructor ()
      ensures Valid() && seen == {} && counter == 0 && fresh(backtrack)
    {
      counter, seen := 0, {};
      backtrack := new nat[WORDS](_ => 0);
      new;
      forall t: nat ensures !Marked(backtrack[..], t) { ZeroHasNoBits(t % BITS_PER_POINTER); }
    }

    /** Clears the words after the current one, going round. */
    method ClearWords(current: nat, top: nat)
      requires top <= WORDS == backtrack.Length
      modifies backtrack
      ensures Cleared(old(backtrack[..]), backtrack[..], current, top)
    {
      hide Slot;
      ghost var words := backtrack[..];
      var i: nat := 1;
      while i <= top
        invariant 1 <= i <= top + 1
        invariant forall w :: current < w < current + i ==> backtrack[Slot(w)] == 0
        invariant forall w :: current + top - WORDS < w <= current && w >= 0 ==> backtrack[Slot(w)] == words[Slot(w)]
      {
        forall w | current + top - WORDS < w <= current && w >= 0 ensures Slot(w) != Slot(i + current) {
          SlotsApart(w, i + current);
        }
        backtrack[Slot(i + current)] := 0;
        i := i + 1;
      }
    }

    /** Exactly the messages below the limit that are not too old and were never accepted before are
        accepted. */
    method CounterValidate(theirs: nat) returns (ret: bool)
      requires Valid() && theirs < TWO64
      modifies this, backtrack
      ensures Valid()
      ensures ret == Acceptable(theirs, old(seen))
      ensures ret == (theirs < REJECT_AFTER_MESSAGES && theirs + 1 + COUNTER_WINDOW_SIZE >= old(counter) && theirs !in old(seen))
      ensures seen == if ret then old(seen) + {theirs} else old(seen)
      ensures counter == if ret && theirs + 1 > old(counter) then theirs + 1 else old(counter)
    {
      hide Agrees, Kept, Slot, WordOf, Bit, SetBit, Acceptable, U64, Cleared;
      assert |backtrack[..]| == WORDS by { Sized(); }
      AcceptableByCounter(backtrack[..], counter, seen, theirs);
      Limits(backtrack[..], counter, seen, theirs);
      if counter >= REJECT_AFTER_MESSAGES + 1 || theirs >= REJECT_AFTER_MESSAGES { return false; }
      var their: nat := U64(theirs + 1);
      if U64(COUNTER_WINDOW_SIZE + their) < counter { return false; }
      var index: nat := WordOf(their);
      ghost var words := backtrack[..];
      if their > counter {
        var current: nat := WordOf(counter);
        Grows(counter, their);
        ClearWords(current, if index - current < WORDS then index - current else WORDS);
        MovedOn(words, backtrack[..], counter, their, seen);
        words := backtrack[..];
        counter := their;
      }
      index := Slot(index);
      InWindow(counter, their);
      Marks(words, counter, seen, their);
      ret := !Bit(backtrack[index], their % BITS_PER_POINTER);
      backtrack[index] := SetBit(backtrack[index], their % BITS_PER_POINTER);
      assert backtrack[..] == words[index := SetBit(words[index], their % BITS_PER_POINTER)];
      seen := seen + {theirs};
    }
  }

  /** Below the limit neither sum wraps. */
  lemma Limits(words: seq<nat>, counter: nat, seen: set<nat>, theirs: nat)
    requires Tells(words, counter, seen) && theirs < TWO64
    ensures counter < REJECT_AFTER_MESSAGES + 1
    ensures theirs < REJECT_AFTER_MESSAGES ==>
      U64(theirs + 1) == theirs + 1 && U64(COUNTER_WINDOW_SIZE + (theirs + 1)) == COUNTER_WINDOW_SIZE + theirs + 1
  {
  }

  lemma InWindow(counter: nat, their: nat)
    requires their <= counter <= their + COUNTER_WINDOW_SIZE
    ensures Kept(counter, their)
  {
  }

  lemma Grows(counter: nat, their: nat)
    requires their > counter
    ensures WordOf(counter) <= WordOf(their)
  {
  }

  /** Every word past the current one has the slot of one of the next 128. */
  lemma Wraps(current: nat, w: nat, near: nat)
    requires current < w && near == current + 1 + (w - current - 1) % WORDS
    ensures Slot(near) == Slot(w) && current < near <= current + WORDS && near <= w
  {
    var k := (w - current - 1) / 128;
    assert w == near + 128 * k;
    assert near % 128 == w % 128;
  }

  lemma MovedOn(words: seq<nat>, after: seq<nat>, counter: nat, their: nat, seen: set<nat>)
    requires Tells(words, counter, seen) && their > counter && WordOf(counter) <= WordOf(their)
    requires var (current, index) := (WordOf(counter), WordOf(their));
      Cleared(words, after, current, if index - current < WORDS then index - current else WORDS)
    ensures Agrees(after, their, seen)
  {
    forall t: nat | Kept(their, t) ensures Marked(after, t) <==> t > 0 && t - 1 in seen {
      if WordOf(t) <= WordOf(counter) {
        assert after[Slot(WordOf(t))] == words[Slot(WordOf(t))];
        assert Kept(counter, t);
      } else {
        var current: nat, w: nat := WordOf(counter), WordOf(t);
        var near: nat := current + 1 + (w - current - 1) % WORDS;
        Wraps(current, w, near);
        assert after[Slot(near)] == 0;
        ZeroHasNoBits(t % BITS_PER_POINTER);
      }
    }
  }

  lemma Marks(words: seq<nat>, counter: nat, seen: set<nat>, their: nat)
    requires Agrees(words, counter, seen) && Kept(counter, their) && their > 0
    ensures Marked(words, their) <==> their - 1 in seen
    ensures var w := Slot(WordOf(their));
      Agrees(words[w := SetBit(words[w], their % BITS_PER_POINTER)], counter, seen + {their - 1})
  {
    var slot := Slot(WordOf(their));
    var after := words[slot := SetBit(words[slot], their % BITS_PER_POINTER)];
    forall t: nat | Kept(counter, t) ensures Marked(after, t) <==> t > 0 && t - 1 in seen + {their - 1} {
      assert Marked(words, t) <==> t > 0 && t - 1 in seen;
      SetBitSets(words[slot], their % BITS_PER_POINTER, t % BITS_PER_POINTER);
      if WordOf(t) < WordOf(their) {
        SlotsApart(WordOf(t), WordOf(their));
      } else if WordOf(t) > WordOf(their) {
        SlotsApart(WordOf(their), WordOf(t));
      } else {
        SameWord(t, their);
      }
    }
  }

  lemma SameWord(t: nat, their: nat)
    requires WordOf(t) == WordOf(their)
    ensures t == their <==> t % BITS_PER_POINTER == their % BITS_PER_POINTER
  {
  }

  function Accepted(messages: seq<nat>, rets: seq<bool>): set<nat>
    requires |rets| <= |messages|
  {
    set j | 0 <= j < |rets| && rets[j] :: messages[j]
  }

  /** Below the limit, and neither equal to nor a window behind any message accepted before it. */
  predicate Fresh(messages: seq<nat>, rets: seq<bool>, i: nat)
    requires i <= |rets| <= |messages| && i < |messages|
  {
    && messages[i] < REJECT_AFTER_MESSAGES
    && forall j :: 0 <= j < i && rets[j] ==> messages[j] != messages[i] && messages[j] <= messages[i] + COUNTER_WINDOW_SIZE
  }

  lemma AcceptedStep(messages: seq<nat>, rets: seq<bool>, ret: bool)
    requires |rets| < |messages|
    ensures Acceptable(messages[|rets|], Accepted(messages, rets)) <==> Fresh(messages, rets, |rets|)
    ensures Accepted(messages, rets + [ret]) == Accepted(messages, rets) + if ret then {messages[|rets|]} else {}
    ensures forall i :: 0 <= i <= |rets| ==> Fresh(messages, rets + [ret], i) == Fresh(messages, rets, i)
  {
    var seen := Accepted(messages, rets);
    if Acceptable(messages[|rets|], seen) {
      forall j | 0 <= j < |rets| && rets[j]
        ensures messages[j] != messages[|rets|] && messages[j] <= messages[|rets|] + COUNTER_WINDOW_SIZE
      {
        assert messages[j] in seen;
      }
    }
    var after := rets + [ret];
    assert forall j :: 0 <= j < |rets| ==> after[j] == rets[j];
    forall n | n in seen ensures n in Accepted(messages, after) {
      var j :| 0 <= j < |rets| && rets[j] && messages[j] == n;
      assert after[j];
    }
    if ret { assert after[|rets|]; }
  }

  /** Any sequence of messages, from the beginning: the answers are exactly which are fresh. */
  method ValidateAll(messages: seq<nat>) returns (rets: seq<bool>)
    requires forall i :: 0 <= i < |messages| ==> messages[i] < TWO64
    ensures |rets| == |messages|
    ensures forall i :: 0 <= i < |messages| ==> rets[i] == Fresh(messages, rets, i)
  {
    hide Fresh, Accepted, Acceptable, Tells;
    var window := new ReplayCounter();
    rets := [];
    assert window.seen == Accepted(messages, rets) by { NoneAccepted(messages); }
    while |rets| < |messages|
      invariant window.Valid() && fresh(window) && fresh(window.backtrack) && |rets| <= |messages|
      invariant window.seen == Accepted(messages, rets)
      invariant forall i :: 0 <= i < |rets| ==> rets[i] == Fresh(messages, rets, i)
    {
      var ret := window.CounterValidate(messages[|rets|]);
      AcceptedStep(messages, rets, ret);
      rets := rets + [ret];
    }
  }

  lemma NoneAccepted(messages: seq<nat>)
    ensures Accepted(messages, []) == {}
  {
  }
}
