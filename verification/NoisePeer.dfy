/** The fields of a handshake that driver/noise.c overwrites step by step, proved against NoiseHandshake
    and NoiseRuns. */
module NoisePeer {
  import opened Keypairs
  import opened KeypairSlots
  import opened NoiseHandshake
  import opened NoiseRuns

  /** HKDF: each output is the keyed hash of the one before and its number. */
  method Kdf(data: Term, chain: Term) returns (first: Term, second: Term, third: Term)
    ensures first == First(chain, data) && second == Second(chain, data) && third == Third(chain, data)
  {
    var secret := Hmac(chain, data);
    first := Hmac(secret, Octet(1));
    second := Hmac(secret, Cat(first, Octet(2)));
    third := Hmac(secret, Cat(second, Octet(3)));
  }

  class AwgPeer {
    var state: State
    var ephemeralPrivate: Secret
    var remoteEphemeral: Point
    var hash: Term
    var chainingKey: Term
    var remoteIndex: nat
    var latestTimestamp: nat
    var lastInitiationConsumption: int
    const remoteStatic: Point
    const staticStatic: Option<Point>
    const presharedKey: Term
    const keypairs: PeerKeypairs
    var keys: map<Id, Keys>

    ghost function Handshake(): Hand
      reads this
    {
      Hand(state, ephemeralPrivate, remoteEphemeral, hash, chainingKey, remoteIndex,
           latestTimestamp, lastInitiationConsumption, remoteStatic, staticStatic, presharedKey)
    }

    ghost function Now(): Peer
      reads this, keypairs
    {
      Peer(Handshake(), keypairs.Now(), keys)
    }

    /** NoiseHandshakeInit; the static secret is kept as absent if either key is missing or of low order. */
    constructor (identity: Option<Secret>, remote: Point, psk: Term)
      ensures fresh(keypairs) && Now().session == Blank && Now().keys == map[] && Now().hand.state == Zeroed
      ensures remoteStatic == remote && presharedKey == psk && latestTimestamp == 0
      ensures staticStatic == if identity.Some? then Curve25519(identity.value, remote) else None
    {
      state, ephemeralPrivate, remoteEphemeral, hash, chainingKey := Zeroed, 0, LowOrder, Zero, Zero;
      remoteIndex, latestTimestamp, lastInitiationConsumption := 0, 0, 0;
      remoteStatic, presharedKey, keys := remote, psk, map[];
      staticStatic := if identity.Some? then Curve25519(identity.value, remote) else None;
      keypairs := new PeerKeypairs();
    }

    method NoiseHandshakeClear()
      modifies this, keypairs
      ensures Now() == old(Now()).(hand := HandshakeZero(old(Handshake())), session := Unhash(old(keypairs.Now()), Entry.Handshake))
      ensures Entry.Handshake !in keypairs.hashed && state == Zeroed && chainingKey == Zero && ephemeralPrivate == 0
    {
      keypairs.IndexHashtableRemove(Entry.Handshake);
      Clear();
    }

    method Clear()
      modifies this
      ensures Handshake() == HandshakeZero(old(Handshake())) && keys == old(keys)
    {
      ephemeralPrivate, remoteEphemeral, hash, chainingKey := 0, LowOrder, Zero, Zero;
      remoteIndex := 0;
      state := Zeroed;
    }

    method MixEphemeral(e: Point)
      modifies `hash, `chainingKey
      ensures Reached(Handshake()) == NoiseHandshake.MixEphemeral(old(Reached(Handshake())), e)
    {
      hash := MixHash(hash, Pt(e));
      var first, _, _ := Kdf(Pt(e), chainingKey);
      chainingKey := first;
    }

    method MixDh(private: Secret, public: Point) returns (ok: bool, key: Term)
      modifies `chainingKey
      ensures ok == Curve25519(private, public).Some?
      ensures ok ==> var t := old(Reached(Handshake())); var dh := Curve25519(private, public).value;
        Reached(Handshake()) == NoiseHandshake.MixDh(t, dh) && key == DhKey(t, dh)
      ensures !ok ==> chainingKey == old(chainingKey)
    {
      key := Zero;
      match Curve25519(private, public)
      case None => return false, key;
      case Some(dh) =>
        var first, second, _ := Kdf(Pt(dh), chainingKey);
        chainingKey, key := first, second;
        ok := true;
    }

    method MixPrecomputedDh() returns (ok: bool, key: Term)
      modifies `chainingKey
      ensures ok == staticStatic.Some?
      ensures ok ==> var t := old(Reached(Handshake()));
        Reached(Handshake()) == NoiseHandshake.MixDh(t, staticStatic.value) && key == DhKey(t, staticStatic.value)
      ensures !ok ==> Handshake() == old(Handshake())
    {
      key := Zero;
      if staticStatic.None? { return false, key; }
      var first, second, _ := Kdf(Pt(staticStatic.value), chainingKey);
      chainingKey, key := first, second;
      ok := true;
    }

    method MixPsk() returns (key: Term)
      modifies `hash, `chainingKey
      ensures var t := old(Reached(Handshake()));
        Reached(Handshake()) == NoiseHandshake.MixPsk(t, presharedKey) && key == PskKey(t, presharedKey)
    {
      var first, second, third := Kdf(presharedKey, chainingKey);
      chainingKey, key := first, third;
      hash := MixHash(hash, second);
    }

    method HandshakeInit()
      modifies `hash, `chainingKey
      ensures Reached(Handshake()) == Start(remoteStatic)
    {
      chainingKey := Blake(Name("Noise_IKpsk2_25519_ChaChaPoly_BLAKE2s"));
      hash := MixHash(chainingKey, Name("WireGuard v1 zx2c4 Jason@zx2c4.com"));
      hash := MixHash(hash, Pt(remoteStatic));
    }

    method MessageEncrypt(plain: Term, key: Term) returns (cipher: Term)
      modifies `hash
      ensures cipher == Seal(key, old(Reached(Handshake())), plain)
      ensures Reached(Handshake()) == Sealed(old(Reached(Handshake())), cipher)
    {
      cipher := Aead(key, plain, hash);
      hash := MixHash(hash, cipher);
    }

    /** The tokens e, es and s of NoiseHandshakeCreateInitiation. */
    method CreateStatic(me: Secret, e: Secret) returns (ok: bool, encryptedStatic: Term)
      modifies this
      ensures ok == Curve25519(e, remoteStatic).Some? && keys == old(keys)
      ensures !ok ==> Handshake() == At(old(Handshake()), NoiseHandshake.MixEphemeral(Start(remoteStatic), Public(e))).(ephemeral := e)
      ensures ok ==> var (t, cipher) := SendStatic(old(Handshake()), me, e, Curve25519(e, remoteStatic).value);
        encryptedStatic == cipher && Handshake() == At(old(Handshake()), t).(ephemeral := e)
    {
      hide First, DhKey, NoiseHandshake.MixPsk, PskKey, NoiseHandshake.MixEphemeral, Start, Sealed, Insert, Curve25519;
      encryptedStatic := Zero;
      HandshakeInit();
      ephemeralPrivate := e;
      MixEphemeral(Public(e));
      var key;
      ok, key := MixDh(ephemeralPrivate, remoteStatic);
      if !ok { return; }
      encryptedStatic := MessageEncrypt(Pt(Public(me)), key);
    }

    method NoiseHandshakeCreateInitiation(identity: Option<Secret>, e: Secret, stamp: nat, index: nat) returns (m: Option<Initiation>)
      modifies this, keypairs
      ensures (Handshake(), m) == CreateInitiation(old(Handshake()), identity, e, stamp, index) && keys == old(keys)
      ensures keypairs.Now() == if m.Some? then Insert(old(keypairs.Now()), Entry.Handshake, index) else old(keypairs.Now())
    {
      hide First, DhKey, NoiseHandshake.MixPsk, PskKey, NoiseHandshake.MixEphemeral, Start, Sealed, Insert, Curve25519, SendStatic;
      m := None;
      if identity.None? { return; }
      var ok, encryptedStatic := CreateStatic(identity.value, e);
      if !ok { return; }
      var key;
      ok, key := MixPrecomputedDh();
      if !ok { return; }
      var encryptedTimestamp := MessageEncrypt(Stamp(stamp), key);

      keypairs.IndexHashtableInsert(Entry.Handshake, index);
      state := CreatedInitiation;
      m := Some(Initiation(index, Public(e), encryptedStatic, encryptedTimestamp));
    }

    method NoiseHandshakeCreateResponse(e: Secret, index: nat) returns (m: Option<Response>)
      modifies this, keypairs
      ensures (Handshake(), m) == CreateResponse(old(Handshake()), e, index) && keys == old(keys)
      ensures keypairs.Now() == if m.Some? then Insert(old(keypairs.Now()), Entry.Handshake, index) else old(keypairs.Now())
    {
      m := None;
      hide First, DhKey, NoiseHandshake.MixPsk, PskKey, NoiseHandshake.MixEphemeral, Start, Sealed, Insert, Curve25519;
      if state != ConsumedInitiation { return; }
      var receiver := remoteIndex;
      ephemeralPrivate := e;
      MixEphemeral(Public(e));
      var ok, key := MixDh(ephemeralPrivate, remoteEphemeral);
      if !ok { return; }
      ok, key := MixDh(ephemeralPrivate, remoteStatic);
      if !ok { return; }

      key := MixPsk();
      var encryptedNothing := MessageEncrypt(Nothing, key);

      keypairs.IndexHashtableInsert(Entry.Handshake, index);
      state := CreatedResponse;
      m := Some(Response(index, receiver, Public(e), encryptedNothing));
    }

    /** The second half of NoiseHandshakeConsumeInitiation, for the peer that was found. */
    method AcceptInitiation(m: Initiation, after: Transcript, now: int, later: int) returns (ret: Option<AwgPeer>)
      modifies this
      ensures match ConsumeInitiation(old(Handshake()), after, m, now, later)
        case None => ret == None && Handshake() == old(Handshake())
        case Some(h) => ret == Some(this) && Handshake() == h
      ensures keys == old(keys)
    {
      hide First, Second, HandshakeZero;
      ret := None;
      if staticStatic.None? { return; }
      var first, second, _ := Kdf(Pt(staticStatic.value), after.chain);
      var t := Open(second, after, m.timestamp);
      if t.None? || !t.value.Stamp? { return; }
      var replayAttack := t.value.time <= latestTimestamp;
      var floodAttack := lastInitiationConsumption + ONE_SECOND / INITIATIONS_PER_SECOND > now;
      if replayAttack || floodAttack { return; }

      remoteEphemeral := m.ephemeral;
      if t.value.time > latestTimestamp { latestTimestamp := t.value.time; }
      hash, chainingKey := MixHash(after.hash, m.timestamp), first;
      remoteIndex := m.sender;
      if lastInitiationConsumption < later { lastInitiationConsumption := later; }
      state := ConsumedInitiation;
      ret := Some(this);
    }

    /** `created` is whether the keypair could be allocated, `inUse` whether the peer is not going away;
        the handshake is zeroed before the second is asked. */
    method NoiseHandshakeBeginSession(k: Id, created: bool, inUse: bool) returns (ret: bool)
      requires Inv(keypairs.Now()) && k !in keypairs.initiator
      modifies this, keypairs
      ensures Inv(keypairs.Now())
      ensures created && inUse ==> (Now(), ret) == NoiseRuns.BeginSession(old(Now()), k)
      ensures created && inUse && old(state) == ConsumedResponse ==>
        k in keys && NoiseRuns.Splits(keys[k], old(chainingKey), true)
      ensures created && inUse && old(state) == CreatedResponse ==>
        k in keys && NoiseRuns.Splits(keys[k], old(chainingKey), false)
      ensures !created ==> Now() == old(Now()) && !ret
      ensures created && !inUse && old(state) in {CreatedResponse, ConsumedResponse} ==>
        Now() == old(Now()).(hand := HandshakeZero(old(Handshake()))) && !ret
    {
      if state != CreatedResponse && state != ConsumedResponse { return false; }
      if !created { return false; }
      var iAmTheInitiator, index := state == ConsumedResponse, remoteIndex;
      var first, second, _ := Kdf(Nothing, chainingKey);
      var sending, receiving := first, second;
      if !iAmTheInitiator { sending, receiving := second, first; }
      Clear();
      ret := false;
      if inUse {
        keys := keys[k := Keys(sending, receiving, index)];
        ret := keypairs.AddAndReplace(k, iAmTheInitiator);
      }
    }
  }

  class AwgDevice {
    var identity: Option<Secret>
    var peers: map<Point, AwgPeer>

    constructor (identity: Option<Secret>)
      ensures this.identity == identity && peers == map[]
    {
      this.identity, peers := identity, map[];
    }

    /** The first half: whose initiation it says it is. */
    method OpenInitiation(m: Initiation) returns (ret: Option<AwgPeer>, t: Transcript)
      ensures match OpenStatic(identity, m)
        case None => ret == None
        case Some((from, after)) => t == after && ret == if from in peers then Some(peers[from]) else None
    {
      ret, t := None, Transcript(Zero, Zero);
      if identity.None? { return; }
      t := Start(Public(identity.value));
      t := MixEphemeral(t, m.ephemeral);
      var dh := Curve25519(identity.value, m.ephemeral);
      if dh.None? { return; }
      var first, second, _ := Kdf(Pt(dh.value), t.chain);
      var s := Open(second, t, m.sealedKey);
      t := t.(chain := first, hash := MixHash(t.hash, m.sealedKey));
      if s.None? || !s.value.Pt? || s.value.point !in peers { return; }
      ret := Some(peers[s.value.point]);
    }

    /** Everything is computed aside; only a peer whose initiation is accepted changes. */
    method NoiseHandshakeConsumeInitiation(m: Initiation, now: int, later: int) returns (ret: Option<AwgPeer>)
      modifies peers.Values
      ensures match OpenStatic(identity, m)
        case None => ret == None
        case Some((from, t)) =>
          if from !in peers then ret == None else
          match ConsumeInitiation(old(peers[from].Handshake()), t, m, now, later)
          case None => ret == None
          case Some(h) => ret == Some(peers[from]) && peers[from].Handshake() == h && peers[from].keys == old(peers[from].keys)
      ensures forall p :: p in peers.Values && Some(p) != ret ==> p.Handshake() == old(p.Handshake()) && p.keys == old(p.keys)
    {
      hide OpenStatic, MixDh, DhKey, MixEphemeral, Start;
      ret := None;
      var found, t := OpenInitiation(m);
      if found.None? { return; }
      ret := found.value.AcceptInitiation(m, t, now, later);
    }

    /** `found` is the peer whose handshake the receiver's index leads to. */
    method NoiseHandshakeConsumeResponse(m: Response, found: Option<AwgPeer>) returns (ret: Option<AwgPeer>)
      modifies if found.Some? then {found.value} else {}
      ensures found.None? ==> ret == None
      ensures found.Some? ==>
        match ConsumeResponse(old(found.value.Handshake()), identity, m)
        case None => ret == None && found.value.Now() == old(found.value.Now())
        case Some(h) => ret == found && found.value.Handshake() == h && found.value.keys == old(found.value.keys)
    {
      ret := None;
      if identity.None? || found.None? { return; }
      var peer := found.value;
      if peer.state != CreatedInitiation { return; }
      var t := MixEphemeral(Transcript(peer.chainingKey, peer.hash), m.ephemeral);
      var ee := Curve25519(peer.ephemeralPrivate, m.ephemeral);
      if ee.None? { return; }
      var first, second, third := Kdf(Pt(ee.value), t.chain);
      t := t.(chain := first);
      var se := Curve25519(identity.value, m.ephemeral);
      if se.None? { return; }
      first, second, third := Kdf(Pt(se.value), t.chain);
      t := t.(chain := first);
      first, second, third := Kdf(peer.presharedKey, t.chain);
      t := t.(chain := first, hash := MixHash(t.hash, second));
      if Open(third, t, m.nothing).None? { return; }
      t := t.(hash := MixHash(t.hash, m.nothing));

      peer.remoteEphemeral, peer.hash, peer.chainingKey := m.ephemeral, t.hash, t.chain;
      peer.remoteIndex := m.sender;
      peer.state := ConsumedResponse;
      ret := found;
    }
  }
}
