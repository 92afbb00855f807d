/** The handshake as the Noise Protocol Framework defines it (revision 34: sections 4.3, 5.2, 7.5 and 9),
    told token by token, and the proof that the driver's messages, transcripts and keys are those of
    Noise_IKpsk2. */
module NoisePattern {
  import opened Keypairs
  import opened NoiseHandshake
  import opened NoiseRuns

  // ---------------------------------------------------------------- the framework

  /** Output number n of HKDF with this temporary key. */
  function Hkdf(temp: Term, n: nat): Term
    requires n > 0
  {
    if n == 1 then Hmac(temp, Octet(1)) else Hmac(temp, Cat(Hkdf(temp, n - 1), Octet(n)))
  }

  /** Chaining key, cipher key and hash. */
  datatype Symmetric = Symmetric(ck: Term, k: Term, h: Term)

  function MixIn(s: Symmetric, data: Term): Symmetric {
    s.(h := Blake(Cat(s.h, data)))
  }

  function MixKey(s: Symmetric, data: Term): Symmetric {
    var temp := Hmac(s.ck, data);
    s.(ck := Hkdf(temp, 1), k := Hkdf(temp, 2))
  }

  function MixKeyAndHash(s: Symmetric, data: Term): Symmetric {
    var temp := Hmac(s.ck, data);
    MixIn(s, Hkdf(temp, 2)).(ck := Hkdf(temp, 1), k := Hkdf(temp, 3))
  }

  function Encrypted(s: Symmetric, plain: Term): Term {
    Aead(s.k, plain, s.h)
  }

  /** A token of a message with what it stands for: an ephemeral or static key, an agreed point, a psk. */
  datatype Token = E(ephemeral: Point) | S(identity: Point) | Dh(agreed: Point) | Psk(key: Term)

  /** The state after a token; with a psk in the pattern an ephemeral key is also mixed into the key. */
  function Advance(s: Symmetric, token: Token): Symmetric {
    match token
    case E(p) => MixKey(MixIn(s, Pt(p)), Pt(p))
    case S(p) => MixIn(s, Encrypted(s, Pt(p)))
    case Dh(p) => MixKey(s, Pt(p))
    case Psk(key) => MixKeyAndHash(s, key)
  }

  function Tokens(s: Symmetric, tokens: seq<Token>): Symmetric
    decreases |tokens|
  {
    if tokens == [] then s else Tokens(Advance(s, tokens[0]), tokens[1..])
  }

  /** A message ends with its payload. */
  function Message(s: Symmetric, tokens: seq<Token>, payload: Term): Symmetric {
    var t := Tokens(s, tokens);
    MixIn(t, Encrypted(t, payload))
  }

  /** The state before the first message: name, prologue, and the responder's static key. */
  function Initial(responder: Point): Symmetric {
    var name := Blake(Name("Noise_IKpsk2_25519_ChaChaPoly_BLAKE2s"));
    MixIn(MixIn(Symmetric(name, Zero, name), Name("WireGuard v1 zx2c4 Jason@zx2c4.com")), Pt(responder))
  }

  // ---------------------------------------------------------------- the driver's messages

  lemma OneToken(s: Symmetric, token: Token, rest: seq<Token>)
    ensures Tokens(s, [token] + rest) == Tokens(Advance(s, token), rest)
  {
    assert ([token] + rest)[1..] == rest;
    hide Advance;
  }

  lemma FourTokens(s: Symmetric, a: Token, b: Token, c: Token, d: Token)
    ensures Tokens(s, [a, b]) == Advance(Advance(s, a), b)
    ensures Tokens(s, [a, b, c, d]) == Advance(Advance(Advance(Advance(s, a), b), c), d)
  {
    hide Advance;
    var u := Advance(Advance(s, a), b);
    assert [a, b, c, d] == [a] + ([b] + ([c] + ([d] + []))) && [a, b] == [a] + ([b] + []);
    OneToken(s, a, [b] + ([c] + ([d] + [])));
    OneToken(Advance(s, a), b, [c] + ([d] + []));
    OneToken(u, c, [d] + []);
    OneToken(Advance(u, c), d, []);
    OneToken(s, a, [b] + []);
    OneToken(Advance(s, a), b, []);
  }

  /** An initiation is the first message of the pattern: e, es, s, ss, and the timestamp as payload. */
  lemma InitiationIsNoise(h: Hand, me: Secret, e: Secret, stamp: nat, index: nat)
    requires Curve25519(e, h.remoteStatic).Some? && h.staticStatic.Some?
    ensures var s := Initial(h.remoteStatic);
      var es, ss := Curve25519(e, h.remoteStatic).value, h.staticStatic.value;
      var tokens := [E(Public(e)), Dh(es), S(Public(me)), Dh(ss)];
      var after := Message(s, tokens, Stamp(stamp));
      CreateInitiation(h, Some(me), e, stamp, index)
        == (h.(ephemeral := e, state := CreatedInitiation, chain := after.ck, hash := after.h),
            Some(Initiation(index, Public(e), Encrypted(Tokens(s, [E(Public(e)), Dh(es)]), Pt(Public(me))),
                            Encrypted(Tokens(s, tokens), Stamp(stamp)))))
  {
    FourTokens(Initial(h.remoteStatic), E(Public(e)), Dh(Curve25519(e, h.remoteStatic).value), S(Public(me)), Dh(h.staticStatic.value));
    hide Tokens;
  }

  /** A response is the second message: e, ee, se, psk, and no payload. */
  lemma ResponseIsNoise(h: Hand, k: Term, e: Secret, index: nat)
    requires h.state == ConsumedInitiation && Curve25519(e, h.remoteEphemeral).Some? && Curve25519(e, h.remoteStatic).Some?
    ensures var s := Symmetric(h.chain, k, h.hash);
      var ee, se := Curve25519(e, h.remoteEphemeral).value, Curve25519(e, h.remoteStatic).value;
      var tokens := [E(Public(e)), Dh(ee), Dh(se), Token.Psk(h.psk)];
      var after := Message(s, tokens, Nothing);
      CreateResponse(h, e, index)
        == (h.(ephemeral := e, state := CreatedResponse, chain := after.ck, hash := after.h),
            Some(Response(index, h.remoteIndex, Public(e), Encrypted(Tokens(s, tokens), Nothing))))
  {
    FourTokens(Symmetric(h.chain, k, h.hash), E(Public(e)), Dh(Curve25519(e, h.remoteEphemeral).value), Dh(Curve25519(e, h.remoteStatic).value), Token.Psk(h.psk));
    hide Tokens;
  }

  /** Without a static key, with a point of low order or with a zero static secret there is no initiation;
      the handshake then has not moved on. */
  lemma NoInitiation(h: Hand, identity: Option<Secret>, e: Secret, stamp: nat, index: nat)
    ensures var (g, m) := CreateInitiation(h, identity, e, stamp, index);
      && (m.None? <==> identity.None? || h.remoteStatic.LowOrder? || h.staticStatic.None?)
      && (m.None? ==> g == h.(ephemeral := g.ephemeral, chain := g.chain, hash := g.hash))
      && (identity.None? ==> g == h)
  {
    hide MixEphemeral, Start;
  }

  /** There is no response but to an initiation consumed before, and none over a point of low order. */
  lemma NoResponse(h: Hand, e: Secret, index: nat)
    ensures var (g, m) := CreateResponse(h, e, index);
      && (m.None? <==> h.state != ConsumedInitiation || h.remoteEphemeral.LowOrder? || h.remoteStatic.LowOrder?)
      && (m.None? ==> g == h.(ephemeral := g.ephemeral, chain := g.chain, hash := g.hash))
      && (h.state != ConsumedInitiation ==> g == h)
  {
    hide MixEphemeral, MixDh, MixPsk, PskKey;
  }

  // ---------------------------------------------------------------- both messages

  /** The point two secrets agree on. */
  function Shared(x: Secret, y: Secret): Point {
    Point(multiset{x, y})
  }

  /** The pattern between an initiator with secrets a and e and a responder with secrets b and f. */
  function Exchange(a: Secret, e: Secret, b: Secret, f: Secret, psk: Term, stamp: nat): Symmetric {
    var first := [E(Public(e)), Dh(Shared(e, b)), S(Public(a)), Dh(Shared(a, b))];
    var second := [E(Public(f)), Dh(Shared(e, f)), Dh(Shared(a, f)), Token.Psk(psk)];
    Message(Message(Initial(Public(b)), first, Stamp(stamp)), second, Nothing)
  }

  lemma SharedIs(x: Secret, y: Secret)
    ensures Curve25519(x, Public(y)) == Some(Shared(x, y)) && Curve25519(y, Public(x)) == Some(Shared(x, y))
  {
    assert multiset{x} + multiset{y} == multiset{x, y} == multiset{y} + multiset{x};
  }

  /** The chaining key with which the responder answers an unmodified initiation is the pattern's. */
  lemma ChainIsNoise(h: Hand, g: Hand, a: Secret, b: Secret, psk: Term, e: Secret, stamp: nat, x: nat, f: Secret, y: nat)
    requires h.remoteStatic == Public(b) && h.staticStatic == Curve25519(a, Public(b))
    requires g.state == ConsumedInitiation && g.remoteEphemeral == Public(e) && g.remoteStatic == Public(a) && g.psk == psk
    requires Reached(g) == Reached(CreateInitiation(h, Some(a), e, stamp, x).0)
    ensures var (after, end) := (CreateResponse(g, f, y).0, Exchange(a, e, b, f, psk, stamp));
      after.chain == end.ck && after.hash == end.h
  {
    SharedIs(e, b);
    SharedIs(a, b);
    SharedIs(e, f);
    SharedIs(a, f);
    InitiationIsNoise(h, a, e, stamp, x);
    var first := [E(Public(e)), Dh(Shared(e, b)), S(Public(a)), Dh(Shared(a, b))];
    ResponseIsNoise(g, Message(Initial(Public(b)), first, Stamp(stamp)).k, f, y);
    hide Message, CreateResponse, CreateInitiation, Tokens, Initial;
  }

  /** After an unmodified run both sides have what the pattern's Split gives: the initiator sends with its
      first output and receives with its second, the responder the other way round. */
  lemma KeysAreSplit(i: Device, r: Device, a: Secret, b: Secret, psk: Term,
                     e: Secret, stamp: nat, x: nat, k: Id, now: int, later: int, f: Secret, y: nat, l: Id)
    requires Knows(i, a, b, psk) && Knows(r, b, a, psk)
    requires Ready(i, Public(b), x, k) && Ready(r, Public(a), y, l)
    requires var h := r.peers[Public(a)].hand;
      stamp > h.latest && h.consumption + ONE_SECOND / INITIATIONS_PER_SECOND <= now
    ensures var (i1, m) := SendInitiation(i, Public(b), e, stamp, x);
      && m.Some?
      && var (r1, from) := ReceiveInitiation(r, m.value, now, later);
      && Public(a) in r1.peers
      && var (r2, n) := SendResponse(r1, Public(a), f, y, l);
      && n.Some?
      && var (i2, back) := ReceiveResponse(i1, n.value, k);
      && Public(b) in i2.peers && Public(a) in r2.peers
      && var (mine, yours) := (i2.peers[Public(b)].keys, r2.peers[Public(a)].keys);
      && k in mine && l in yours
      && var temp := Hmac(Exchange(a, e, b, f, psk, stamp).ck, Nothing);
      && mine[k].sending == Hkdf(temp, 1) && mine[k].receiving == Hkdf(temp, 2)
      && yours[l].receiving == Hkdf(temp, 1) && yours[l].sending == Hkdf(temp, 2)
  {
    HandshakeAgrees(i, r, a, b, psk, e, stamp, x, k, now, later, f, y, l);
    InitiationArrives(i, r, a, b, psk, e, stamp, x, now, later);
    var (i1, m) := SendInitiation(i, Public(b), e, stamp, x);
    var (r1, from) := ReceiveInitiation(r, m.value, now, later);
    ChainIsNoise(i.peers[Public(b)].hand, r1.peers[Public(a)].hand, a, b, psk, e, stamp, x, f, y);
    hide ReceiveInitiation, SendResponse, ReceiveResponse, CreateResponse, Exchange, Finds, Inv, Ready, HandshakeZero;
  }
}
