/** The receive pipeline of one device: inserting threads, decrypt workers, the per-peer queues, the
    device ring, the crypt-state flags and the list of peers with work (driver/receive.c,
    driver/queueing.h).

    A step is one shared-memory access or one section under a lock. Threads are anonymous: any thread
    may take either role. Decryption is an arbitrary outcome, a ring that refuses a chain may do so
    at any time. */
module Pipeline {
  import opened PrevQueue
  import opened PeerSerial

  const BUDGET: nat := 256

  datatype Crypt = Uncrypted | Crypted | Dead

  /** Where a thread stands; threads without an entry are outside any call. */
  datatype Thread =
    | Inserting(batch: nat)                                   // PacketConsumeData, between two packets
    | Enqueuing(nbl: Ptr, batch: nat)                         // inside PrevQueueEnqueue
    | Marking(batch: nat, worker: bool)                       // about to store the next packet's state
    | Waking(nbl: Ptr, batch: nat, worker: bool)              // state stored, serial list not told yet
    | Bumping                                                 // about to signal the workers
    | Fetching                                                // about to consume from the ring
    | Serving(final: bool)                                    // about to take a peer off the list
    | Peeking(peer: nat, budget: nat, final: bool)            // inside PrevQueueDequeue
    | Judging(peer: nat, budget: nat, final: bool)            // about to read the peeked packet's state
    | Retiring(peer: nat, more: bool, final: bool)            // about to retire the peer

  /** Who has a chain of packets on its way to the workers. */
  datatype Owner = By(t: ThreadId) | InRing | Gone

  /** A chain of packets: those before `marked` have had their state stored. */
  datatype Batch = Batch(items: seq<Ptr>, marked: nat, owner: Owner)

  /** History: where the duty to wake the packet's peer rests. */
  datatype Place =
    | Entering(t: ThreadId)
    | Chained(batch: nat, index: nat)
    | Marked(t: ThreadId)
    | Told
    | Dropped

  /** What was released, peer by peer: it went up the stack or it was freed. */
  datatype Ends = Ends(up: map<nat, seq<Ptr>>, freed: map<nat, seq<Ptr>>)

  datatype State = State(
    queues: map<nat, Queue>,
    peeked: map<nat, Ptr>,
    crypt: map<Ptr, Crypt>,
    batches: seq<Batch>,
    ring: seq<nat>,
    signal: bool,
    serial: Serial,
    threads: map<ThreadId, Thread>,
    place: map<Ptr, Place>,                                   // history
    runner: map<nat, ThreadId>,                               // history: who serves a peer
    out: map<nat, seq<Ptr>>,                                  // history: what has been released,
    ends: Ends)                                               // history: what became of it

  const Init: State :=
    State(map[], map[], map[], [], [], false, Serial([], {}, {}), map[], map[], map[], map[], Ends(map[], map[]))

  function Q(s: State, p: nat): Queue {
    if p in s.queues then s.queues[p] else PrevQueue.Empty
  }

  function Of(m: map<nat, seq<Ptr>>, p: nat): seq<Ptr> {
    if p in m then m[p] else []
  }

  function Out(s: State, p: nat): seq<Ptr> {
    Of(s.out, p)
  }

  function Peeked(s: State, p: nat): seq<Ptr> {
    if p in s.peeked then [s.peeked[p]] else []
  }

  // ---------------------------------------------------------------- steps

  datatype Step =
    | Begin(t: ThreadId)
    | Insert(t: ThreadId, nbl: Ptr)
    | Enqueue(t: ThreadId)                // the next access of PrevQueueEnqueue
    | Hand(t: ThreadId, accepted: bool)   // the chain goes to the ring, or the ring refuses it
    | Mark(t: ThreadId, ok: bool)
    | Wake(t: ThreadId)
    | EndBatch(t: ThreadId)
    | Bump(t: ThreadId)
    | Rouse(t: ThreadId)
    | Fetch(t: ThreadId)
    | Serve(t: ThreadId)
    | Peek(t: ThreadId)
    | Judge(t: ThreadId, valid: bool)     // valid: what CounterValidate says, if it is asked
    | Retire(t: ThreadId)

  /** t is at a place in its call; the second half of a guard is a fact NextExists proves. */
  predicate Can(s: State, a: Step) {
    match a
    case Begin(t) => t !in s.threads
    case Insert(t, nbl) => t in s.threads && s.threads[t].Inserting? && nbl.Nbl? && nbl !in s.place
    case Enqueue(t) => t in s.threads && s.threads[t].Enqueuing?
        && s.threads[t].nbl.Nbl? && s.threads[t].batch < |s.batches|
    case Hand(t, _) => t in s.threads && s.threads[t].Inserting?
        && s.threads[t].batch < |s.batches|
    case Mark(t, _) => t in s.threads && s.threads[t].Marking?
        && s.threads[t].batch < |s.batches|
        && s.batches[s.threads[t].batch].marked < |s.batches[s.threads[t].batch].items|
    case Wake(t) => t in s.threads && s.threads[t].Waking?
        && s.threads[t].nbl.Nbl?
    case EndBatch(t) => t in s.threads && s.threads[t].Marking?
        && s.threads[t].batch < |s.batches|
        && s.batches[s.threads[t].batch].marked == |s.batches[s.threads[t].batch].items|
    case Bump(t) => t in s.threads && s.threads[t].Bumping?
    case Rouse(t) => t !in s.threads && s.signal
    case Fetch(t) => t in s.threads && s.threads[t].Fetching?
        && (s.ring != [] ==> s.ring[0] < |s.batches|)
    case Serve(t) => t in s.threads && s.threads[t].Serving?
    case Peek(t) => t in s.threads && s.threads[t].Peeking?
    case Judge(t, _) => t in s.threads && s.threads[t].Judging?
        && s.threads[t].peer in s.peeked && s.peeked[s.threads[t].peer] in s.crypt
    case Retire(t) => t in s.threads && s.threads[t].Retiring?
  }

  function Goto(s: State, t: ThreadId, th: Thread): State {
    s.(threads := s.threads[t := th])
  }

  function Leave(s: State, t: ThreadId): State {
    s.(threads := s.threads - {t})
  }

  function Owned(s: State, k: nat, owner: Owner): State
    requires k < |s.batches|
  {
    s.(batches := s.batches[k := s.batches[k].(owner := owner)])
  }

  /** One access of PrevQueueEnqueue by t, which carries nbl for chain k. */
  function EnqueueStep(s: State, t: ThreadId, nbl: Ptr, k: nat): State
    requires nbl.Nbl? && k < |s.batches|
  {
    var p := nbl.peer;
    var q := Q(s, p);
    match Pc(q, t)
    case Idle =>
      if q.count == MAX_QUEUED_PACKETS then Refused(s, t, nbl, k)
      else Produced(s, p, Count(t, nbl))
    case Counted(_) => Produced(s, p, ClearLink(t))
    case Cleared(_) => Produced(s, p, SwapHead(t))
    case Swapped(_, _, _) => Linked(s, t, nbl, k)
  }

  /** PrevQueueEnqueue returns FALSE. */
  function Refused(s: State, t: ThreadId, nbl: Ptr, k: nat): State {
    Goto(s, t, Inserting(k)).(place := s.place[nbl := Dropped])
  }

  function Produced(s: State, p: nat, access: Action): State {
    s.(queues := s.queues[p := Apply(Q(s, p), access)])
  }

  /** PrevQueueEnqueue returns TRUE: the packet joins the inserter's chain. */
  function Linked(s: State, t: ThreadId, nbl: Ptr, k: nat): State
    requires nbl.Nbl? && k < |s.batches|
  {
    Goto(s, t, Inserting(k)).(
      queues := s.queues[nbl.peer := Apply(Q(s, nbl.peer), StoreLink(t))],
      batches := s.batches[k := s.batches[k].(items := s.batches[k].items + [nbl])],
      place := s.place[nbl := Chained(k, |s.batches[k].items|)])
  }

  /** One access of PrevQueueDequeue by t, which serves p, or the return to the release loop. */
  function PeekStep(s: State, t: ThreadId, p: nat, budget: nat, final: bool): State {
    var c := Q(s, p).consumer;
    if !c.Returned? then Consumed(s, p)
    else if c.result.None? then GotNull(s, t, p, Retiring(p, false, final))
    else GotItem(s, t, p, c.result.value, Judging(p, budget, final))
  }

  /** Dequeue makes its next access. */
  function Consumed(s: State, p: nat): State {
    s.(queues := s.queues[p := Apply(Q(s, p), Consume)])
  }

  /** Dequeue has returned NULL. */
  function GotNull(s: State, t: ThreadId, p: nat, th: Thread): State {
    Goto(s, t, th).(queues := s.queues[p := Apply(Q(s, p), Acknowledge)])
  }

  /** Dequeue has returned n: it is now Peeked. */
  function GotItem(s: State, t: ThreadId, p: nat, n: Ptr, th: Thread): State {
    Goto(s, t, th).(queues := s.queues[p := Apply(Q(s, p), Acknowledge)], peeked := s.peeked[p := n])
  }

  function Started(s: State, p: nat, final: bool): Thread {
    if p in s.peeked then Judging(p, BUDGET, final) else Peeking(p, BUDGET, final)
  }

  /** t takes the first peer off the list. */
  function Popped(s: State, t: ThreadId, final: bool): State
    requires s.serial.list != []
  {
    var p := s.serial.list[0];
    Goto(s, t, Started(s, p, final)).(serial := Dequeued(s.serial), runner := s.runner[p := t])
  }

  /** Where t goes from the end of an empty list: back to the ring, or to sleep. */
  function ServeStep(s: State, t: ThreadId, final: bool): State {
    if s.serial.list != [] then Popped(s, t, final)
    else if final then Leave(s, t)
    else Goto(s, t, Fetching)
  }

  function Ended(e: Ends, p: nat, n: Ptr, good: bool): Ends {
    if good then e.(up := e.up[p := Of(e.up, p) + [n]]) else e.(freed := e.freed[p := Of(e.freed, p) + [n]])
  }

  /** The peeked packet n leaves the queue: it goes up the stack or is freed. */
  function Released(s: State, t: ThreadId, p: nat, n: Ptr, good: bool, th: Thread): State {
    Goto(s, t, th).(
      peeked := s.peeked - {p},
      out := s.out[p := Out(s, p) + [n]],
      ends := Ended(s.ends, p, n, good))
  }

  /** The packet decrypted and its nonce is accepted. */
  predicate GoesUp(s: State, n: Ptr, valid: bool) {
    n in s.crypt && s.crypt[n].Crypted? && valid
  }

  function JudgeStep(s: State, t: ThreadId, p: nat, budget: nat, final: bool, valid: bool): State
    requires p in s.peeked && s.peeked[p] in s.crypt
  {
    if s.crypt[s.peeked[p]].Uncrypted? then Goto(s, t, Retiring(p, false, final))
    else if budget == 0 then Goto(s, t, Retiring(p, true, final))
    else Released(s, t, p, s.peeked[p], GoesUp(s, s.peeked[p], valid), Peeking(p, budget - 1, final))
  }

  function BeginStep(s: State, t: ThreadId): State {
    Goto(s, t, Inserting(|s.batches|)).(batches := s.batches + [Batch([], 0, By(t))])
  }

  function InsertStep(s: State, t: ThreadId, nbl: Ptr): State
    requires Can(s, Insert(t, nbl))
  {
    Goto(s, t, Enqueuing(nbl, s.threads[t].batch)).(
      crypt := s.crypt[nbl := Uncrypted], place := s.place[nbl := Entering(t)])
  }

  function HandStep(s: State, t: ThreadId, k: nat, accepted: bool): State
    requires k < |s.batches|
  {
    if s.batches[k].items == [] then Leave(Owned(s, k, Gone), t)
    else if accepted then Accepted(s, t, k)
    else Goto(s, t, Marking(k, false))
  }

  /** The ring takes chain k. */
  function Accepted(s: State, t: ThreadId, k: nat): State
    requires k < |s.batches|
  {
    Goto(Owned(s, k, InRing), t, Bumping).(ring := s.ring + [k])
  }

  /** The state of the chain's next packet is stored: CRYPTED, or DEAD if it fails to decrypt or the
      ring refused it. */
  function MarkStep(s: State, t: ThreadId, k: nat, worker: bool, ok: bool): State
    requires k < |s.batches| && s.batches[k].marked < |s.batches[k].items|
  {
    var b := s.batches[k];
    var n := b.items[b.marked];
    Goto(s, t, Waking(n, k, worker)).(
      crypt := s.crypt[n := if ok && worker then Crypted else Dead],
      batches := s.batches[k := b.(marked := b.marked + 1)],
      place := s.place[n := Marked(t)])
  }

  function WakeStep(s: State, t: ThreadId, n: Ptr, k: nat, worker: bool): State
    requires n.Nbl?
  {
    Goto(s, t, Marking(k, worker)).(
      serial := Enqueued(s.serial, n.peer, true), place := s.place[n := Told])
  }

  function EndStep(s: State, t: ThreadId, k: nat, worker: bool): State
    requires k < |s.batches|
  {
    if worker then Goto(Owned(s, k, Gone), t, Serving(false)) else Goto(Owned(s, k, Gone), t, Bumping)
  }

  function FetchStep(s: State, t: ThreadId): State
    requires s.ring != [] ==> s.ring[0] < |s.batches|
  {
    if s.ring == [] then Goto(s, t, Serving(true))
    else Fetched(s, t)
  }

  function Fetched(s: State, t: ThreadId): State
    requires s.ring != [] && s.ring[0] < |s.batches|
  {
    Goto(Owned(s, s.ring[0], By(t)), t, Marking(s.ring[0], true)).(ring := s.ring[1..])
  }

  function RetireStep(s: State, t: ThreadId, p: nat, more: bool, final: bool): State {
    Goto(s, t, Serving(final)).(serial := Retired(s.serial, p, more), runner := s.runner - {p})
  }

  function Next(s: State, a: Step): State
    requires Can(s, a)
  {
    match a
    case Begin(t) => BeginStep(s, t)
    case Insert(t, nbl) => InsertStep(s, t, nbl)
    case Enqueue(t) => EnqueueStep(s, t, s.threads[t].nbl, s.threads[t].batch)
    case Hand(t, accepted) => HandStep(s, t, s.threads[t].batch, accepted)
    case Mark(t, ok) => MarkStep(s, t, s.threads[t].batch, s.threads[t].worker, ok)
    case Wake(t) => WakeStep(s, t, s.threads[t].nbl, s.threads[t].batch, s.threads[t].worker)
    case EndBatch(t) => EndStep(s, t, s.threads[t].batch, s.threads[t].worker)
    case Bump(t) => Leave(s, t).(signal := true)
    case Rouse(t) => Goto(s, t, Fetching).(signal := false)
    case Fetch(t) => FetchStep(s, t)
    case Serve(t) => ServeStep(s, t, s.threads[t].final)
    case Peek(t) => PeekStep(s, t, s.threads[t].peer, s.threads[t].budget, s.threads[t].final)
    case Judge(t, valid) => JudgeStep(s, t, s.threads[t].peer, s.threads[t].budget, s.threads[t].final, valid)
    case Retire(t) => RetireStep(s, t, s.threads[t].peer, s.threads[t].more, s.threads[t].final)
  }
}
