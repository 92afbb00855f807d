/** The handshake of driver/noise.c over symbolic cryptography: hashes and ciphertexts are free terms,
    and a point is the product of the secrets that made it, so the agreed point does not depend on
    the order. A peer here is its handshake, the keys of its keypairs, and its session of Keypairs. */
module NoiseHandshake {
  import opened Keypairs

  type Secret = nat

  /** Curve25519 yields zero, which the driver refuses, exactly on points of low order. */
  datatype Point = Point(factors: multiset<Secret>) | LowOrder

  datatype Term =
    | Zero
    | Nothing
    | Name(text: string)
    | Octet(value: nat)
    | Stamp(time: nat)
    | Psk(id: nat)
    | Pt(point: Point)
    | Cat(first: Term, second: Term)
    | Blake(input: Term)
    | Hmac(key: Term, input: Term)
    | Aead(key: Term, plain: Term, ad: Term)

  function Curve25519(secret: Secret, point: Point): Option<Point> {
    match point
    case Point(factors) => Some(Point(factors + multiset{secret}))
    case LowOrder => None
  }

  /** Curve25519GeneratePublic */
  function Public(secret: Secret): Point {
    Point(multiset{secret})
  }

  lemma DhCommutes(x: Secret, y: Secret)
    ensures Curve25519(x, Public(y)) == Curve25519(y, Public(x))
  {
    assert multiset{x} + multiset{y} == multiset{y} + multiset{x};
  }

  // ---------------------------------------------------------------- key derivation (RFC 5869, section 2)

  function Extract(chain: Term, data: Term): Term { Hmac(chain, data) }

  function First(chain: Term, data: Term): Term { Hmac(Extract(chain, data), Octet(1)) }

  function Second(chain: Term, data: Term): Term {
    Hmac(Extract(chain, data), Cat(First(chain, data), Octet(2)))
  }

  function Third(chain: Term, data: Term): Term {
    Hmac(Extract(chain, data), Cat(Second(chain, data), Octet(3)))
  }

  function MixHash(hash: Term, data: Term): Term { Blake(Cat(hash, data)) }

  // ---------------------------------------------------------------- the parts of a message

  datatype Transcript = Transcript(chain: Term, hash: Term)

  /** The initial chaining key, and the hash over it, the identifier and the responder's static key. */
  function Start(responder: Point): Transcript {
    var chain := Blake(Name("Noise_IKpsk2_25519_ChaChaPoly_BLAKE2s"));
    Transcript(chain, MixHash(MixHash(chain, Name("WireGuard v1 zx2c4 Jason@zx2c4.com")), Pt(responder)))
  }

  function MixEphemeral(t: Transcript, e: Point): Transcript {
    Transcript(First(t.chain, Pt(e)), MixHash(t.hash, Pt(e)))
  }

  function MixDh(t: Transcript, dh: Point): Transcript { t.(chain := First(t.chain, Pt(dh))) }

  function DhKey(t: Transcript, dh: Point): Term { Second(t.chain, Pt(dh)) }

  function MixPsk(t: Transcript, psk: Term): Transcript {
    Transcript(First(t.chain, psk), MixHash(t.hash, Second(t.chain, psk)))
  }

  function PskKey(t: Transcript, psk: Term): Term { Third(t.chain, psk) }

  function Seal(key: Term, t: Transcript, plain: Term): Term { Aead(key, plain, t.hash) }

  function Sealed(t: Transcript, cipher: Term): Transcript { t.(hash := MixHash(t.hash, cipher)) }

  /** Only what was sealed with this key over this hash opens. */
  function Open(key: Term, t: Transcript, cipher: Term): Option<Term> {
    if cipher.Aead? && cipher.key == key && cipher.ad == t.hash then Some(cipher.plain) else None
  }

  // ---------------------------------------------------------------- messages and handshakes

  datatype Initiation = Initiation(sender: nat, ephemeral: Point, sealedKey: Term, timestamp: Term)

  datatype Response = Response(sender: nat, receiver: nat, ephemeral: Point, nothing: Term)

  datatype State = Zeroed | CreatedInitiation | ConsumedInitiation | CreatedResponse | ConsumedResponse

  /** The last three never change. `staticStatic` is absent when it was stored as zero. */
  datatype Hand = Hand(
    state: State, ephemeral: Secret, remoteEphemeral: Point, hash: Term, chain: Term, remoteIndex: nat,
    latest: nat, consumption: int, remoteStatic: Point, staticStatic: Option<Point>, psk: Term)

  const ONE_SECOND: int := 10_000_000
  const INITIATIONS_PER_SECOND: int := 50

  function Reached(h: Hand): Transcript { Transcript(h.chain, h.hash) }

  function At(h: Hand, t: Transcript): Hand { h.(chain := t.chain, hash := t.hash) }

  function HandshakeZero(h: Hand): Hand {
    h.(state := Zeroed, ephemeral := 0, remoteEphemeral := LowOrder, hash := Zero, chain := Zero, remoteIndex := 0)
  }

  /** The transcript after the sealed static key, and that; after the timestamp. */
  function SendStatic(h: Hand, me: Secret, e: Secret, es: Point): (Transcript, Term) {
    var t := MixEphemeral(Start(h.remoteStatic), Public(e));
    var sealedKey := Seal(DhKey(t, es), t, Pt(Public(me)));
    (Sealed(MixDh(t, es), sealedKey), sealedKey)
  }

  /** What fails half way has overwritten the secret, the hash and the chaining key all the same. */
  function CreateInitiation(h: Hand, identity: Option<Secret>, e: Secret, stamp: nat, index: nat): (Hand, Option<Initiation>) {
    if identity.None? then (h, None) else
    match Curve25519(e, h.remoteStatic)
    case None => (At(h, MixEphemeral(Start(h.remoteStatic), Public(e))).(ephemeral := e), None)
    case Some(es) =>
      var (t, sealedKey) := SendStatic(h, identity.value, e, es);
      if h.staticStatic.None? then (At(h, t).(ephemeral := e), None) else
      var timestamp := Seal(DhKey(t, h.staticStatic.value), t, Stamp(stamp));
      (At(h, Sealed(MixDh(t, h.staticStatic.value), timestamp)).(ephemeral := e, state := CreatedInitiation),
       Some(Initiation(index, Public(e), sealedKey, timestamp)))
  }

  /** Who sent an initiation, and the transcript up to there. What is sealed there is a point by its size. */
  function OpenStatic(identity: Option<Secret>, m: Initiation): Option<(Point, Transcript)> {
    if identity.None? then None else
    match Curve25519(identity.value, m.ephemeral)
    case None => None
    case Some(es) =>
      var t := MixEphemeral(Start(Public(identity.value)), m.ephemeral);
      match Open(DhKey(t, es), t, m.sealedKey)
      case Some(Pt(s)) => Some((s, Sealed(MixDh(t, es), m.sealedKey)))
      case _ => None
  }

  /** The timestamp must be later than any accepted, and the last one accepted long enough ago. */
  predicate Passes(h: Hand, stamp: nat, now: int) {
    stamp > h.latest && h.consumption + ONE_SECOND / INITIATIONS_PER_SECOND <= now
  }

  /** What an accepted initiation leaves in the handshake. */
  function StoreInitiation(h: Hand, chain: Term, hash: Term, m: Initiation, stamp: nat, later: int): Hand {
    At(h, Transcript(chain, hash)).(
      remoteEphemeral := m.ephemeral, latest := if stamp > h.latest then stamp else h.latest, remoteIndex := m.sender,
      consumption := if h.consumption < later then later else h.consumption, state := ConsumedInitiation)
  }

  /** An initiation for this handshake, both sections under its lock taken together. */
  function ConsumeInitiation(h: Hand, t: Transcript, m: Initiation, now: int, later: int): Option<Hand> {
    if h.staticStatic.None? then None else
    match Open(DhKey(t, h.staticStatic.value), t, m.timestamp)
    case Some(Stamp(stamp)) =>
      if !Passes(h, stamp, now) then None
      else
        var after := Sealed(MixDh(t, h.staticStatic.value), m.timestamp);
        Some(StoreInitiation(h, after.chain, after.hash, m, stamp, later))
    case _ => None
  }

  /** The transcript after both agreed points. */
  function Agree(t: Transcript, e: Point, ee: Point, se: Point): Transcript {
    MixDh(MixDh(MixEphemeral(t, e), ee), se)
  }

  function CreateResponse(h: Hand, e: Secret, index: nat): (Hand, Option<Response>) {
    if h.state != ConsumedInitiation then (h, None) else
    var t0 := MixEphemeral(Reached(h), Public(e));
    match Curve25519(e, h.remoteEphemeral)
    case None => (At(h, t0).(ephemeral := e), None)
    case Some(ee) =>
      match Curve25519(e, h.remoteStatic)
      case None => (At(h, MixDh(t0, ee)).(ephemeral := e), None)
      case Some(se) =>
        var t := Agree(Reached(h), Public(e), ee, se);
        var nothing := Seal(PskKey(t, h.psk), MixPsk(t, h.psk), Nothing);
        (At(h, Sealed(MixPsk(t, h.psk), nothing)).(ephemeral := e, state := CreatedResponse),
         Some(Response(index, h.remoteIndex, Public(e), nothing)))
  }

  function ConsumeResponse(h: Hand, identity: Option<Secret>, m: Response): Option<Hand> {
    if identity.None? || h.state != CreatedInitiation then None else
    match Curve25519(h.ephemeral, m.ephemeral)
    case None => None
    case Some(ee) =>
      match Curve25519(identity.value, m.ephemeral)
      case None => None
      case Some(se) =>
        var t := Agree(Reached(h), m.ephemeral, ee, se);
        if Open(PskKey(t, h.psk), MixPsk(t, h.psk), m.nothing).None? then None
        else Some(At(h, Sealed(MixPsk(t, h.psk), m.nothing)).(
          remoteEphemeral := m.ephemeral, remoteIndex := m.sender, state := ConsumedResponse))
  }

  // ---------------------------------------------------------------- agreement on what was sealed

  /** Agreeing with a secret undoes no other: equal agreed points come from equal points. */
  lemma DhCancels(x: Secret, y: Secret, point: Point)
    requires Curve25519(x, point) == Curve25519(y, Public(x))
    ensures point == Public(y)
  {
    var m := point.factors;
    assert m + multiset{x} == multiset{x} + multiset{y};
    assert m == (m + multiset{x}) - multiset{x};
    assert multiset{y} == (multiset{x} + multiset{y}) - multiset{x};
  }

  /** Whether an initiation is accepted, whatever was done to it on the way, if its timestamp was sealed
      by a handshake: just when that handshake was begun with this device's key over the ephemeral and
      the sealed key that arrived, the peer filed under the sealed key shares the static secret, the
      timestamp is new and it is not too soon. Both sides then have the same transcript. The sender's
      index is not protected. */
  lemma InitiationAgreement(h: Hand, me: Secret, e: Secret, stamp: nat, index: nat,
                            r: Hand, b: Secret, m: Initiation, now: int, later: int)
    requires CreateInitiation(h, Some(me), e, stamp, index).1.Some?
    requires m.timestamp == CreateInitiation(h, Some(me), e, stamp, index).1.value.timestamp
    ensures var (g, sent) := CreateInitiation(h, Some(me), e, stamp, index);
      var got := OpenStatic(Some(b), m);
      && (got.Some? && ConsumeInitiation(r, got.value.1, m, now, later).Some?
          <==> && h.remoteStatic == Public(b) && m.ephemeral == Public(e) && m.sealedKey == sent.value.sealedKey
               && r.staticStatic == h.staticStatic
               && stamp > r.latest && r.consumption + ONE_SECOND / INITIATIONS_PER_SECOND <= now)
      && (got.Some? && ConsumeInitiation(r, got.value.1, m, now, later).Some? ==>
            && got.value.0 == Public(me)
            && var after := ConsumeInitiation(r, got.value.1, m, now, later).value;
            && after.latest == stamp && Reached(after) == Reached(g)
            && after.consumption == (if r.consumption < later then later else r.consumption)
            && after.state == ConsumedInitiation && after.remoteEphemeral == m.ephemeral && after.remoteIndex == m.sender
            && after.ephemeral == r.ephemeral && after.remoteStatic == r.remoteStatic
            && after.staticStatic == r.staticStatic && after.psk == r.psk)
  {
    if h.remoteStatic == Public(b) { DhCommutes(e, b); }
  }

  /** Whether a response is accepted, if what it seals was sealed by a responder: just when the responder
      had the same transcript and preshared key, this handshake's ephemeral and this device's static key,
      and its own ephemeral arrived. Both sides then have equal hashes and chaining keys. */
  lemma ResponseAgreement(h: Hand, a: Secret, m: Response, r: Hand, e: Secret, index: nat)
    requires CreateResponse(r, e, index).1.Some?
    requires m.nothing == CreateResponse(r, e, index).1.value.nothing
    ensures ConsumeResponse(h, Some(a), m).Some?
      <==> && h.state == CreatedInitiation && m.ephemeral == Public(e) && h.psk == r.psk && Reached(h) == Reached(r)
           && r.remoteEphemeral == Public(h.ephemeral) && r.remoteStatic == Public(a)
    ensures ConsumeResponse(h, Some(a), m).Some? ==>
      var after := ConsumeResponse(h, Some(a), m).value;
      && Reached(after) == Reached(CreateResponse(r, e, index).0)
      && after == h.(chain := after.chain, hash := after.hash, remoteEphemeral := m.ephemeral, remoteIndex := m.sender,
                     state := ConsumedResponse)
  {
    DhCommutes(h.ephemeral, e);
    DhCommutes(a, e);
    if Curve25519(e, r.remoteEphemeral) == Curve25519(h.ephemeral, Public(e)) { DhCancels(e, h.ephemeral, r.remoteEphemeral); }
    if Curve25519(e, r.remoteStatic) == Curve25519(a, Public(e)) { DhCancels(e, a, r.remoteStatic); }
  }
}
