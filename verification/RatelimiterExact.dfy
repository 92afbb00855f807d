/** Which packets of an address pass, without a bucket: exactly those with which no stretch of time sees
    more than five packets and one for every twentieth of a second. */
module RatelimiterExact {
  import opened Ratelimiter
  import opened RatelimiterIdeal

  /** How many of these answers are TRUE. */
  function Passed(rets: seq<bool>, from: nat, to: nat): nat
    requires to <= |rets|
  {
    if to <= from then 0 else Passed(rets, from, to - 1) + if rets[to - 1] then 1 else 0
  }

  lemma {:induction false} PassedBefore(rets: seq<bool>, ret: bool, from: nat, to: nat)
    requires to <= |rets|
    ensures Passed(rets + [ret], from, to) == Passed(rets, from, to)
  {
    if to > from { PassedBefore(rets, ret, from, to - 1); }
  }

  /** The bucket after packets at these times, and the answers to them. */
  function BucketAfter(times: seq<uint64>): Bucket
    decreases |times|
  {
    if times == [] then Untouched else Draw(BucketAfter(times[..|times| - 1]), times[|times| - 1]).0
  }

  function Verdicts(times: seq<uint64>): (rets: seq<bool>)
    ensures |rets| == |times|
    decreases |times|
  {
    if times == [] then []
    else Verdicts(times[..|times| - 1]) + [Draw(BucketAfter(times[..|times| - 1]), times[|times| - 1]).1]
  }

  predicate Arrivals(times: seq<uint64>) {
    && (forall i :: 0 <= i < |times| ==> times[i] < CLOCK_END)
    && (forall i, j :: 0 <= i < j < |times| ==> times[i] <= times[j])
  }

  /** What a full bucket would hold at time `last` if the first j packets had never been. */
  function Room(times: seq<uint64>, rets: seq<bool>, j: nat, n: nat, last: uint64): int
    requires j <= n <= |rets| && j < |times|
  {
    2_500_000 + last - times[j] - 500_000 * Passed(rets, j, n)
  }

  /** Before the last of these packets, with the first j left out, for every j. */
  function Rooms(times: seq<uint64>): (rooms: seq<int>)
    ensures |rooms| == |times|
  {
    if times == [] then []
    else
      var n := |times| - 1;
      seq(|times|, j requires 0 <= j < |times| => Room(times, Verdicts(times), j, n, times[n]))
  }

  predicate Least(rooms: seq<int>, level: int) {
    (forall j :: 0 <= j < |rooms| ==> level <= rooms[j]) && level in rooms
  }

  /** All grow by d, and there is a new one. */
  lemma LeastGrows(rooms: seq<int>, level: int, d: int, longer: seq<int>, top: int)
    requires Least(rooms, level) && |longer| == |rooms| + 1
    requires (forall j :: 0 <= j < |rooms| ==> longer[j] == rooms[j] + d) && longer[|rooms|] == top
    ensures Least(longer, if level + d < top then level + d else top)
  {
    var j :| 0 <= j < |rooms| && rooms[j] == level;
    assert longer[j] == level + d;
  }

  lemma VerdictsNext(times: seq<uint64>, next: uint64)
    ensures Verdicts(times + [next]) == Verdicts(times) + [Draw(BucketAfter(times), next).1]
  {
    assert (times + [next])[..|times|] == times;
    hide Draw, BucketAfter;
  }

  lemma RoomLater(times: seq<uint64>, last: uint64, next: uint64, j: nat)
    requires j < |times|
    ensures var rets, longer := Verdicts(times), Verdicts(times + [next]);
      Room(times + [next], longer, j, |times|, next)
        == Room(times, rets, j, |times| - 1, last) + (next - last) - if rets[|times| - 1] then 500_000 else 0
  {
    hide Verdicts, Draw;
    VerdictsNext(times, next);
    PassedBefore(Verdicts(times), Draw(BucketAfter(times), next).1, j, |times|);
  }

  lemma DrawnLevel(b: Bucket, last: uint64, next: uint64)
    requires Sane(b, last) && last <= next < CLOCK_END
    ensures var (b', ret) := Draw(b, last);
      && Sane(b', next) && ret == (Filled(b, last) >= 500_000)
      && var left := Filled(b, last) - (if ret then 500_000 else 0) + (next - last);
         Filled(b', next) == if left < 2_500_000 then left else 2_500_000
  {
    DrawIs(b, last);
    FilledIs(b, last);
    FilledIs(Draw(b, last).0, last);
    FilledIs(Draw(b, last).0, next);
  }

  lemma FirstLevel(times: seq<uint64>)
    requires |times| == 1 && Arrivals(times)
    ensures var before := BucketAfter(times[..0]);
      Sane(before, times[0]) && Least(Rooms(times), Filled(before, times[0]))
  {
    FilledIs(Untouched, times[0]);
    assert times[..0] == [];
    assert Rooms(times) == [2_500_000];
    hide Filled, Draw;
  }

  lemma {:induction false} LevelIs(times: seq<uint64>)
    requires times != [] && Arrivals(times)
    ensures var before, last := BucketAfter(times[..|times| - 1]), times[|times| - 1];
      Sane(before, last) && Least(Rooms(times), Filled(before, last))
    decreases |times|
  {
    var n := |times| - 1;
    hide Filled, Draw, Sane, Least, Rooms, Verdicts, BucketAfter;
    if n == 0 {
      FirstLevel(times);
    } else {
      LevelIs(times[..n]);
      LevelNext(times[..n], times[n]);
      assert times == times[..n] + [times[n]];
    }
  }

  lemma LastVerdict(times: seq<uint64>)
    requires times != []
    ensures Verdicts(times)[|times| - 1] == Draw(BucketAfter(times[..|times| - 1]), times[|times| - 1]).1
    ensures BucketAfter(times) == Draw(BucketAfter(times[..|times| - 1]), times[|times| - 1]).0
  {
    hide Draw;
  }

  /** One packet later every room has grown by the time and shrunk by what passed, and there is a new one. */
  lemma RoomsNext(times: seq<uint64>, next: uint64)
    requires times != []
    ensures var n, d := |times|, (next - times[|times| - 1]) - if Verdicts(times)[|times| - 1] then 500_000 else 0;
      && (forall j :: 0 <= j < n ==> Rooms(times + [next])[j] == Rooms(times)[j] + d)
      && Rooms(times + [next])[n] == 2_500_000
  {
    hide Verdicts;
    var n, d := |times|, (next - times[|times| - 1]) - if Verdicts(times)[|times| - 1] then 500_000 else 0;
    forall j | 0 <= j < n ensures Rooms(times + [next])[j] == Rooms(times)[j] + d {
      RoomLater(times, times[n - 1], next, j);
    }
  }

  lemma LevelNext(times: seq<uint64>, next: uint64)
    requires times != [] && times[|times| - 1] <= next < CLOCK_END
    requires var before, last := BucketAfter(times[..|times| - 1]), times[|times| - 1];
      Sane(before, last) && Least(Rooms(times), Filled(before, last))
    ensures Sane(BucketAfter(times), next) && Least(Rooms(times + [next]), Filled(BucketAfter(times), next))
  {
    hide Draw, Filled, Sane, Least, BucketAfter, Verdicts, Rooms;
    var n := |times|;
    var before, last := BucketAfter(times[..n - 1]), times[n - 1];
    LastVerdict(times);
    DrawnLevel(before, last, next);
    RoomsNext(times, next);
    var d := (next - last) - if Verdicts(times)[n - 1] then 500_000 else 0;
    LeastGrows(Rooms(times), Filled(before, last), d, Rooms(times + [next]), 2_500_000);
  }

  // ---------------------------------------------------------------- the answers

  lemma {:induction false} VerdictsPrefix(times: seq<uint64>, n: nat)
    requires n <= |times|
    ensures Verdicts(times)[..n] == Verdicts(times[..n])
    decreases |times|
  {
    hide Draw, BucketAfter;
    if n < |times| {
      VerdictsPrefix(times[..|times| - 1], n);
      assert times[..|times| - 1][..n] == times[..n];
    } else {
      assert times[..n] == times;
    }
  }

  lemma {:induction false} PassedPrefix(rets: seq<bool>, n: nat, from: nat, to: nat)
    requires to <= n <= |rets|
    ensures Passed(rets[..n], from, to) == Passed(rets, from, to)
  {
    if to > from { PassedPrefix(rets, n, from, to - 1); }
  }

  /** Packet i passes exactly if with it no stretch of packets up to it has more than five and one for
      every 50 ms: the stretch from packet j on has those that passed before i, and i itself. */
  lemma VerdictIff(times: seq<uint64>, i: nat)
    requires Arrivals(times) && i < |times|
    ensures Verdicts(times)[i] <==>
      forall j: nat :: j <= i ==> 500_000 * (Passed(Verdicts(times), j, i) + 1) <= 2_500_000 + (times[i] - times[j])
  {
    hide Verdicts, BucketAfter, Draw, Filled, Passed, Rooms;
    var upto, rets := times[..i + 1], Verdicts(times);
    VerdictsPrefix(times, i + 1);
    assert rets[..i + 1][i] == rets[i];
    LevelIs(upto);
    LastVerdict(upto);
    DrawnLevel(BucketAfter(upto[..i]), times[i], times[i]);
    forall j: nat | j <= i
      ensures Rooms(upto)[j] == 2_500_000 + (times[i] - times[j]) - 500_000 * Passed(rets, j, i)
    {
      PassedPrefix(rets, i + 1, j, i);
      RoomsAt(upto, j);
    }
  }

  lemma RoomsAt(times: seq<uint64>, j: nat)
    requires j < |times|
    ensures var n := |times| - 1;
      Rooms(times)[j] == 2_500_000 + times[n] - times[j] - 500_000 * Passed(Verdicts(times), j, n)
  {
  }

  // ---------------------------------------------------------------- over runs

  /** When the packets of the address were answered, and how. */
  ghost function Asked(s: State, run: seq<Step>, ip: Source): seq<uint64>
    requires Lawful(s, run)
    decreases run
  {
    if run == [] then [] else (if Answers(s, run[0], ip) then [s.now] else []) + Asked(Next(s, run[0]), run[1..], ip)
  }

  ghost function Answered(s: State, run: seq<Step>, ip: Source): seq<bool>
    requires Lawful(s, run)
    decreases run
  {
    if run == [] then []
    else (if Answers(s, run[0], ip) then [Allows(s, run[0])] else []) + Answered(Next(s, run[0]), run[1..], ip)
  }

  lemma ClockStep(s: State, a: Step)
    requires Can(s, a) && s.now < CLOCK_END
    ensures s.now <= Next(s, a).now < CLOCK_END
  {
  }

  lemma {:induction false} AskedArrive(s: State, run: seq<Step>, ip: Source)
    requires Lawful(s, run) && s.now < CLOCK_END
    ensures Arrivals(Asked(s, run, ip)) && forall i :: 0 <= i < |Asked(s, run, ip)| ==> s.now <= Asked(s, run, ip)[i]
    decreases run
  {
    hide Can, Next, Answers;
    if run != [] {
      ClockStep(s, run[0]);
      AskedArrive(Next(s, run[0]), run[1..], ip);
    }
  }

  lemma {:induction false} RunVerdicts(past: seq<uint64>, s: State, run: seq<Step>, ip: Source)
    requires Lawful(s, run) && Agrees(BucketAfter(past), s, run, ip)
    ensures Verdicts(past + Asked(s, run, ip)) == Verdicts(past) + Answered(s, run, ip)
    decreases run
  {
    hide Can, Next, Answers, Allows, Draw, BucketAfter, Verdicts;
    if run == [] {
      assert past + [] == past;
    } else if Answers(s, run[0], ip) {
      var rest := Asked(Next(s, run[0]), run[1..], ip);
      BucketNext(past, s.now);
      VerdictsNext(past, s.now);
      RunVerdicts(past + [s.now], Next(s, run[0]), run[1..], ip);
      assert past + ([s.now] + rest) == past + [s.now] + rest;
    } else {
      assert Asked(s, run, ip) == Asked(Next(s, run[0]), run[1..], ip);
      assert Answered(s, run, ip) == Answered(Next(s, run[0]), run[1..], ip);
      RunVerdicts(past, Next(s, run[0]), run[1..], ip);
    }
  }

  lemma BucketNext(times: seq<uint64>, next: uint64)
    ensures BucketAfter(times + [next]) == Draw(BucketAfter(times), next).0
  {
    assert (times + [next])[..|times|] == times;
    hide Draw;
  }

  /** In every run of callers and sweeps that does not disturb an address, packet i of it passes exactly if
      with it no stretch of its packets sees more than five and one for every 50 ms. */
  lemma AnsweredIff(run: seq<Step>, ip: Source, i: nat)
    requires Lawful(Init, run) && Undisturbed(Init, run, ip) && i < |Asked(Init, run, ip)|
    ensures var (times, rets) := (Asked(Init, run, ip), Answered(Init, run, ip));
      && |rets| == |times|
      && (rets[i] <==> forall j: nat :: j <= i ==> 500_000 * (Passed(rets, j, i) + 1) <= 2_500_000 + (times[i] as int - times[j]))
  {
    hide Lawful, Undisturbed, Asked, Answered, Agrees, Verdicts, Passed, Arrivals;
    SweepsUnobservable(run, ip);
    AskedArrive(Init, run, ip);
    assert BucketAfter([]) == Untouched;
    RunVerdicts([], Init, run, ip);
    NoVerdicts();
    assert [] + Asked(Init, run, ip) == Asked(Init, run, ip);
    assert [] + Answered(Init, run, ip) == Answered(Init, run, ip);
    VerdictIff(Asked(Init, run, ip), i);
  }

  lemma NoVerdicts()
    ensures Verdicts([]) == []
  {
  }
}
