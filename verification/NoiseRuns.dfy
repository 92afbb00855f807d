/** Two devices, each with any number of peers, that exchange an initiation and a response. */
module NoiseRuns {
  import opened Keypairs
  import opened NoiseHandshake

  datatype Keys = Keys(sending: Term, receiving: Term, remoteIndex: nat)

  datatype Peer = Peer(hand: Hand, session: Session, keys: map<Id, Keys>)

  datatype Device = Device(identity: Option<Secret>, peers: map<Point, Peer>)

  function DeriveKeys(chain: Term, initiator: bool, remoteIndex: nat): Keys {
    if initiator then Keys(First(chain, Nothing), Second(chain, Nothing), remoteIndex)
    else Keys(Second(chain, Nothing), First(chain, Nothing), remoteIndex)
  }

  /** NoiseHandshakeBeginSession; it reports whether the keypair took the handshake's index. */
  function BeginSession(p: Peer, k: Id): (Peer, bool) {
    if p.hand.state != CreatedResponse && p.hand.state != ConsumedResponse then (p, false) else
    var initiator := p.hand.state == ConsumedResponse;
    (Peer(HandshakeZero(p.hand), Begin(p.session, k, initiator),
          p.keys[k := DeriveKeys(p.hand.chain, initiator, p.hand.remoteIndex)]),
     Handshake in p.session.hashed)
  }

  /** The two keys of a session over its chaining key: who sent the initiation sends with the first output
      of the key derivation and receives with the second, and the other the other way round. */
  ghost predicate Splits(keys: Keys, chain: Term, initiator: bool) {
    var (first, second) := if initiator then (keys.sending, keys.receiving) else (keys.receiving, keys.sending);
    && first == Hmac(Hmac(chain, Nothing), Octet(1))
    && second == Hmac(Hmac(chain, Nothing), Cat(first, Octet(2)))
  }

  /** What a session begins with, for the initiator, whose handshake is in ConsumedResponse, and for the
      responder, whose handshake is in CreatedResponse; of the handshake nothing is left but what outlives it. */
  lemma SessionKeys(p: Peer, k: Id)
    ensures var keys := BeginSession(p, k).0.keys;
      && (p.hand.state == ConsumedResponse ==>
            k in keys && Splits(keys[k], p.hand.chain, true) && keys[k].remoteIndex == p.hand.remoteIndex)
      && (p.hand.state == CreatedResponse ==>
            k in keys && Splits(keys[k], p.hand.chain, false) && keys[k].remoteIndex == p.hand.remoteIndex)
      && (p.hand.state == ConsumedResponse || p.hand.state == CreatedResponse ==>
            BeginSession(p, k).0.hand == Hand(Zeroed, 0, LowOrder, Zero, Zero, 0, p.hand.latest, p.hand.consumption,
                                              p.hand.remoteStatic, p.hand.staticStatic, p.hand.psk))
      && (p.hand.state != ConsumedResponse && p.hand.state != CreatedResponse ==> BeginSession(p, k) == (p, false))
  {
  }

  lemma DerivedSplits(chain: Term, index: nat)
    ensures Splits(DeriveKeys(chain, true, index), chain, true) && Splits(DeriveKeys(chain, false, index), chain, false)
    ensures DeriveKeys(chain, true, index).sending == DeriveKeys(chain, false, index).receiving
    ensures DeriveKeys(chain, true, index).receiving == DeriveKeys(chain, false, index).sending
  {
  }

  /** The outputs of the key derivation for any chaining keys and inputs: no two of different number are
      equal, and two of one number are only if both arguments are. */
  lemma OutputsApart(c: Term, x: Term, d: Term, y: Term)
    ensures First(c, x) != Second(d, y) && First(c, x) != Third(d, y) && Second(c, x) != Third(d, y)
    ensures First(c, x) == First(d, y) <==> c == d && x == y
    ensures Second(c, x) == Second(d, y) <==> c == d && x == y
    ensures Third(c, x) == Third(d, y) <==> c == d && x == y
  {
  }

  /** Whenever two handshakes begin sessions, what the one sends with is what the other receives with just
      when both had one chaining key and opposite roles; nobody can open what he sealed himself. */
  lemma KeysMatchIff(p: Peer, k: Id, q: Peer, l: Id)
    requires p.hand.state == CreatedResponse || p.hand.state == ConsumedResponse
    requires q.hand.state == CreatedResponse || q.hand.state == ConsumedResponse
    ensures var (a, b) := (BeginSession(p, k).0.keys, BeginSession(q, l).0.keys);
      && k in a && l in b
      && (a[k].sending == b[l].receiving <==> p.hand.chain == q.hand.chain && p.hand.state != q.hand.state)
      && (a[k].receiving == b[l].sending <==> p.hand.chain == q.hand.chain && p.hand.state != q.hand.state)
      && a[k].sending != a[k].receiving
  {
    OutputsApart(p.hand.chain, Nothing, q.hand.chain, Nothing);
    OutputsApart(p.hand.chain, Nothing, p.hand.chain, Nothing);
    OutputsApart(q.hand.chain, Nothing, p.hand.chain, Nothing);
    hide First, Second, Begin;
  }

  /** PacketSendHandshakeInitiation */
  function SendInitiation(d: Device, to: Point, e: Secret, stamp: nat, index: nat): (Device, Option<Initiation>)
    requires to in d.peers
  {
    var p := d.peers[to];
    var (h, m) := CreateInitiation(p.hand, d.identity, e, stamp, index);
    var session := if m.Some? then Insert(p.session, Handshake, index) else p.session;
    (d.(peers := d.peers[to := p.(hand := h, session := session)]), m)
  }

  /** NoiseHandshakeConsumeInitiation: the peer is found by the key that was sealed. */
  function ReceiveInitiation(d: Device, m: Initiation, now: int, later: int): (Device, Option<Point>) {
    match OpenStatic(d.identity, m)
    case None => (d, None)
    case Some((from, t)) =>
      if from !in d.peers then (d, None) else
      match ConsumeInitiation(d.peers[from].hand, t, m, now, later)
      case None => (d, None)
      case Some(h) => (d.(peers := d.peers[from := d.peers[from].(hand := h)]), Some(from))
  }

  /** PacketSendHandshakeResponse: the response is sent only if the session began. */
  function SendResponse(d: Device, to: Point, e: Secret, index: nat, k: Id): (Device, Option<Response>)
    requires to in d.peers
  {
    var p := d.peers[to];
    var (h, m) := CreateResponse(p.hand, e, index);
    if m.None? then (d.(peers := d.peers[to := p.(hand := h)]), None) else
    var (q, begun) := BeginSession(p.(hand := h, session := Insert(p.session, Handshake, index)), k);
    (d.(peers := d.peers[to := q]), if begun then m else None)
  }

  ghost predicate Owns(d: Device, p: Point, index: nat) {
    p in d.peers && Finds(d.peers[p].session, index, Handshake)
  }

  /** IndexHashtableLookup of a handshake */
  ghost function Owner(d: Device, index: nat): (r: Option<Point>)
    ensures r.Some? <==> exists p :: Owns(d, p, index)
    ensures r.Some? ==> Owns(d, r.value, index)
  {
    if p :| Owns(d, p, index) then Some(p) else None
  }

  /** NoiseHandshakeConsumeResponse, then NoiseHandshakeBeginSession */
  ghost function ReceiveResponse(d: Device, m: Response, k: Id): (Device, Option<Point>) {
    match Owner(d, m.receiver)
    case None => (d, None)
    case Some(from) =>
      match ConsumeResponse(d.peers[from].hand, d.identity, m)
      case None => (d, None)
      case Some(h) =>
        var (q, begun) := BeginSession(d.peers[from].(hand := h), k);
        (d.(peers := d.peers[from := q]), Some(from))
  }

  // ---------------------------------------------------------------- an unmodified run

  /** The device's key is `me`, and it has the peer whose key is `other`, as NoiseHandshakeInit sets it up. */
  predicate Knows(d: Device, me: Secret, other: Secret, psk: Term) {
    && d.identity == Some(me) && Public(other) in d.peers
    && var h := d.peers[Public(other)].hand;
       h.remoteStatic == Public(other) && h.staticStatic == Curve25519(me, Public(other)) && h.psk == psk
  }

  /** The index is not in use for any peer, and the keypair is new. */
  ghost predicate Ready(d: Device, p: Point, index: nat, k: Id) {
    && (forall q :: q in d.peers ==> Unused(d.peers[q].session, index))
    && p in d.peers && Inv(d.peers[p].session) && k !in d.peers[p].session.initiator
  }

  lemma InitiationArrives(i: Device, r: Device, a: Secret, b: Secret, psk: Term,
                          e: Secret, stamp: nat, x: nat, now: int, later: int)
    requires Knows(i, a, b, psk) && Knows(r, b, a, psk)
    requires var h := r.peers[Public(a)].hand;
      stamp > h.latest && h.consumption + ONE_SECOND / INITIATIONS_PER_SECOND <= now
    ensures var (i', m) := SendInitiation(i, Public(b), e, stamp, x);
      && m.Some?
      && var (r', from) := ReceiveInitiation(r, m.value, now, later);
      && from == Some(Public(a))
      && var (h, g) := (i'.peers[Public(b)].hand, r'.peers[Public(a)].hand);
      && h.state == CreatedInitiation && h.ephemeral == e && g.state == ConsumedInitiation
      && g.remoteEphemeral == Public(e) && g.remoteIndex == x && Reached(h) == Reached(g)
      && r' == r.(peers := r.peers[Public(a) := r.peers[Public(a)].(hand := g)]) && Knows(r', b, a, psk)
      && i' == i.(peers := i.peers[Public(b) := i.peers[Public(b)].(hand := h, session := Insert(i.peers[Public(b)].session, Handshake, x))])
      && Knows(i', a, b, psk)
  {
    DhCommutes(a, b);
    DhCommutes(e, b);
    var (i', m) := SendInitiation(i, Public(b), e, stamp, x);
    hide Insert, DhKey, MixDh, MixHash, MixEphemeral, Start, Curve25519;
  }

  /** Two handshakes that reached the same transcript: the response of the one is accepted by the other. */
  lemma ResponseArrives(h: Hand, g: Hand, a: Secret, e: Secret, f: Secret, y: nat)
    requires h.state == CreatedInitiation && g.state == ConsumedInitiation && Reached(h) == Reached(g)
    requires h.ephemeral == e && g.remoteEphemeral == Public(e) && g.remoteStatic == Public(a) && h.psk == g.psk
    ensures var (g', m) := CreateResponse(g, f, y);
      && m.Some? && m.value.receiver == g.remoteIndex
      && g' == At(g, Reached(g')).(ephemeral := f, state := CreatedResponse)
      && var h' := ConsumeResponse(h, Some(a), m.value);
      && h'.Some?
      && h'.value.state == ConsumedResponse && h'.value.remoteIndex == y && Reached(h'.value) == Reached(g')
  {
    DhCommutes(e, f);
    DhCommutes(a, f);
    hide MixPsk, PskKey, MixDh, MixHash, MixEphemeral;
  }

  lemma BeginsAt(s: Session, k: Id, index: nat, initiator: bool)
    requires Inv(s) && k !in s.initiator && Finds(s, index, Handshake)
    ensures Finds(Begin(s, k, initiator), index, Keypair(k)) && Inv(Begin(s, k, initiator))
    ensures if initiator then Begin(s, k, true).current == Some(k) else Begin(s, k, false).next == Some(k)
  {
    BeginKeeps(s, k, initiator);
    hide Begin, Inv;
  }

  /** Until the response comes, only the peer that was written to answers to the index. */
  lemma OnlyOwner(d: Device, p: Point, h: Hand, index: nat, k: Id)
    requires Ready(d, p, index, k)
    ensures Owner(d.(peers := d.peers[p := d.peers[p].(hand := h, session := Insert(d.peers[p].session, Handshake, index))]), index) == Some(p)
  {
    var d' := d.(peers := d.peers[p := d.peers[p].(hand := h, session := Insert(d.peers[p].session, Handshake, index))]);
    assert Owns(d', p, index);
    hide Inv;
    forall q | Owns(d', q, index) ensures q == p {}
  }

  /** The responder's half: its session begins under the index it sends. */
  lemma Responds(r: Device, p: Point, h: Hand, e: Secret, y: nat, l: Id)
    requires Ready(r, p, y, l) && CreateResponse(h, e, y).1.Some? && CreateResponse(h, e, y).0.state == CreatedResponse
    requires r.peers[p].hand == h
    ensures var (r', m) := SendResponse(r, p, e, y, l);
      && m == CreateResponse(h, e, y).1 && p in r'.peers
      && var q := r'.peers[p];
      && var g := CreateResponse(h, e, y).0;
      && l in q.keys && q.keys[l] == DeriveKeys(g.chain, false, g.remoteIndex)
      && Finds(q.session, y, Keypair(l)) && q.session.next == Some(l) && q.hand == HandshakeZero(q.hand) && Inv(q.session)
  {
    var s := Insert(r.peers[p].session, Handshake, y);
    InsertKeeps(r.peers[p].session, y);
    BeginsAt(s, l, y, false);
    hide CreateResponse, Begin, Inv, Insert, DeriveKeys;
  }

  /** The initiator's half. */
  lemma Finishes(i: Device, p: Point, h: Hand, x: nat, k: Id, m: Response)
    requires Ready(i, p, x, k) && m.receiver == x
    requires ConsumeResponse(h, i.identity, m).Some? && ConsumeResponse(h, i.identity, m).value.state == ConsumedResponse
    ensures var i1 := i.(peers := i.peers[p := i.peers[p].(hand := h, session := Insert(i.peers[p].session, Handshake, x))]);
      && var (i2, back) := ReceiveResponse(i1, m, k);
      && back == Some(p) && p in i2.peers
      && var q := i2.peers[p];
      && var g := ConsumeResponse(h, i.identity, m).value;
      && k in q.keys && q.keys[k] == DeriveKeys(g.chain, true, g.remoteIndex)
      && Finds(q.session, x, Keypair(k)) && q.session.current == Some(k) && q.hand == HandshakeZero(q.hand) && Inv(q.session)
  {
    var s := Insert(i.peers[p].session, Handshake, x);
    InsertKeeps(i.peers[p].session, x);
    BeginsAt(s, k, x, true);
    OnlyOwner(i, p, h, x, k);
    hide ConsumeResponse, Begin, Inv, Insert, Owner, DeriveKeys;
  }

  /** After an unmodified run both sides have a keypair: what one sends with the other receives with,
      and the remote index of each leads, at the other, to that other's new keypair. The initiator's is
      current at once; the responder's waits to be confirmed. Neither handshake can be continued. */
  lemma HandshakeAgrees(i: Device, r: Device, a: Secret, b: Secret, psk: Term,
                        e: Secret, stamp: nat, x: nat, k: Id, now: int, later: int, f: Secret, y: nat, l: Id)
    requires Knows(i, a, b, psk) && Knows(r, b, a, psk)
    requires Ready(i, Public(b), x, k) && Ready(r, Public(a), y, l)
    requires var h := r.peers[Public(a)].hand;
      stamp > h.latest && h.consumption + ONE_SECOND / INITIATIONS_PER_SECOND <= now
    ensures var (i1, m) := SendInitiation(i, Public(b), e, stamp, x);
      && m.Some?
      && var (r1, from) := ReceiveInitiation(r, m.value, now, later);
      && from == Some(Public(a)) && Public(a) in r1.peers
      && var (r2, n) := SendResponse(r1, Public(a), f, y, l);
      && n.Some?
      && var (i2, back) := ReceiveResponse(i1, n.value, k);
      && back == Some(Public(b)) && Public(b) in i2.peers && Public(a) in r2.peers
      && var (p, q) := (i2.peers[Public(b)], r2.peers[Public(a)]);
      && k in p.keys && l in q.keys
      && p.keys[k].sending == q.keys[l].receiving && p.keys[k].receiving == q.keys[l].sending
      && var chain := CreateResponse(r1.peers[Public(a)].hand, f, y).0.chain;
      && Splits(p.keys[k], chain, true) && Splits(q.keys[l], chain, false)
      && Finds(q.session, p.keys[k].remoteIndex, Keypair(l)) && Finds(p.session, q.keys[l].remoteIndex, Keypair(k))
      && p.session.current == Some(k) && q.session.next == Some(l)
      && p.hand == HandshakeZero(p.hand) && q.hand == HandshakeZero(q.hand)
      && Inv(p.session) && Inv(q.session)
  {
    InitiationArrives(i, r, a, b, psk, e, stamp, x, now, later);
    var (i1, m) := SendInitiation(i, Public(b), e, stamp, x);
    var (r1, from) := ReceiveInitiation(r, m.value, now, later);
    var (h, g) := (i1.peers[Public(b)].hand, r1.peers[Public(a)].hand);
    ResponseArrives(h, g, a, e, f, y);
    var n := CreateResponse(g, f, y).1.value;
    Responds(r1, Public(a), g, f, y, l);
    Finishes(i, Public(b), h, x, k, n);
    DerivedSplits(CreateResponse(g, f, y).0.chain, x);
    DerivedSplits(CreateResponse(g, f, y).0.chain, y);
    hide Splits, DeriveKeys, SendInitiation, ReceiveInitiation, SendResponse, ReceiveResponse, CreateResponse, ConsumeResponse, Finds, Inv, Ready;
  }
}
