/** The layout of the handshake messages (driver/messages.h): what each sender writes, and that a receiver
    that knows only the configured sizes gets it back. */
module WireMessages {
  import opened Words
  import opened WireFormat
  import opened WireParsing

  datatype Message =
    | HandshakeInitiation(sender: nat, ephemeral: Bytes, sealedKey: Bytes, timestamp: Bytes, mac1: Bytes, mac2: Bytes)
    | HandshakeResponse(sender: nat, receiver: nat, ephemeral: Bytes, nothing: Bytes, mac1: Bytes, mac2: Bytes)
    | HandshakeCookie(receiver: nat, nonce: Bytes, cookie: Bytes)

  /** Indices have 32 bits; a ciphertext has 16 bytes more than what it hides. */
  predicate Shaped(m: Message) {
    match m
    case HandshakeInitiation(sender, ephemeral, sealedKey, timestamp, mac1, mac2) =>
      sender < TWO32 && |ephemeral| == 32 && |sealedKey| == 48 && |timestamp| == 28 && |mac1| == 16 && |mac2| == 16
    case HandshakeResponse(sender, receiver, ephemeral, nothing, mac1, mac2) =>
      sender < TWO32 && receiver < TWO32 && |ephemeral| == 32 && |nothing| == 16 && |mac1| == 16 && |mac2| == 16
    case HandshakeCookie(receiver, nonce, cookie) =>
      receiver < TWO32 && |nonce| == 24 && |cookie| == 32
  }

  /** What the senders write, field by field. */
  function Written(m: Message): Bytes {
    match m
    case HandshakeInitiation(sender, ephemeral, sealedKey, timestamp, mac1, mac2) =>
      [1, 0, 0, 0] + (LeBytes(sender, 4) + (ephemeral + (sealedKey + (timestamp + (mac1 + mac2)))))
    case HandshakeResponse(sender, receiver, ephemeral, nothing, mac1, mac2) =>
      [2, 0, 0, 0] + (LeBytes(sender, 4) + (LeBytes(receiver, 4) + (ephemeral + (nothing + (mac1 + mac2)))))
    case HandshakeCookie(receiver, nonce, cookie) =>
      [3, 0, 0, 0] + (LeBytes(receiver, 4) + (nonce + cookie))
  }

  function KindOf(m: Message): Kind {
    match m
    case HandshakeInitiation(_, _, _, _, _, _) => Initiation
    case HandshakeResponse(_, _, _, _, _, _) => Response
    case HandshakeCookie(_, _, _) => Cookie
  }

  /** What a receiver reads, offset by offset. */
  function Read(kind: Kind, b: Bytes): (m: Message)
    requires |b| == SizeOf(kind)
  {
    match kind
    case Initiation => HandshakeInitiation(Le(b[4..8]), b[8..40], b[40..88], b[88..116], b[116..132], b[132..148])
    case Response => HandshakeResponse(Le(b[4..8]), Le(b[8..12]), b[12..44], b[44..60], b[60..76], b[76..92])
    case Cookie => HandshakeCookie(Le(b[4..8]), b[8..32], b[32..64])
  }

  lemma TypeWritten(t: byte, rest: Bytes)
    ensures Le32([t, 0, 0, 0] + rest, 0) == t
  {
  }

  /** A message has the size and the type that receivers look for. */
  lemma WrittenIs(m: Message)
    requires Shaped(m)
    ensures |Written(m)| == SizeOf(KindOf(m)) && Le32(Written(m), 0) == TypeOf(KindOf(m))
  {
    hide LeBytes;
    match m
    case HandshakeInitiation(sender, ephemeral, sealedKey, timestamp, mac1, mac2) =>
      TypeWritten(1, LeBytes(sender, 4) + (ephemeral + (sealedKey + (timestamp + (mac1 + mac2)))));
    case HandshakeResponse(sender, receiver, ephemeral, nothing, mac1, mac2) =>
      TypeWritten(2, LeBytes(sender, 4) + (LeBytes(receiver, 4) + (ephemeral + (nothing + (mac1 + mac2)))));
    case HandshakeCookie(receiver, nonce, cookie) =>
      TypeWritten(3, LeBytes(receiver, 4) + (nonce + cookie));
  }

  /** The first field is at its offset, and what follows is after it. */
  lemma Field(b: Bytes, at: nat, field: Bytes, rest: Bytes)
    requires at <= |b| && b[at..] == field + rest
    ensures at + |field| <= |b| && b[at..at + |field|] == field && b[at + |field|..] == rest
  {
    assert b[at..][..|field|] == field && b[at..][|field|..] == rest;
  }

  lemma ReadCookie(m: Message)
    requires Shaped(m) && m.HandshakeCookie?
    ensures |Written(m)| == SizeOf(Cookie) && Read(Cookie, Written(m)) == m
  {
    WrittenIs(m);
    var b := Written(m);
    PowersOf256();
    LeLeBytes(m.receiver, 4);
    hide LeBytes, Le;
    Field(b, 0, [3, 0, 0, 0], LeBytes(m.receiver, 4) + (m.nonce + m.cookie));
    Field(b, 4, LeBytes(m.receiver, 4), m.nonce + m.cookie);
    Field(b, 8, m.nonce, m.cookie);
    assert b[32..64] == b[32..];
  }

  lemma ReadInitiation(m: Message)
    requires Shaped(m) && m.HandshakeInitiation?
    ensures |Written(m)| == SizeOf(Initiation) && Read(Initiation, Written(m)) == m
  {
    WrittenIs(m);
    var b := Written(m);
    PowersOf256();
    LeLeBytes(m.sender, 4);
    hide LeBytes, Le;
    var macs := m.mac1 + m.mac2;
    Field(b, 0, [1, 0, 0, 0], LeBytes(m.sender, 4) + (m.ephemeral + (m.sealedKey + (m.timestamp + macs))));
    Field(b, 4, LeBytes(m.sender, 4), m.ephemeral + (m.sealedKey + (m.timestamp + macs)));
    Field(b, 8, m.ephemeral, m.sealedKey + (m.timestamp + macs));
    Field(b, 40, m.sealedKey, m.timestamp + macs);
    Field(b, 88, m.timestamp, macs);
    Field(b, 116, m.mac1, m.mac2);
    assert b[132..148] == b[132..];
  }

  lemma ReadResponse(m: Message)
    requires Shaped(m) && m.HandshakeResponse?
    ensures |Written(m)| == SizeOf(Response) && Read(Response, Written(m)) == m
  {
    WrittenIs(m);
    var b := Written(m);
    PowersOf256();
    LeLeBytes(m.sender, 4);
    LeLeBytes(m.receiver, 4);
    hide LeBytes, Le;
    var macs := m.mac1 + m.mac2;
    Field(b, 0, [2, 0, 0, 0], LeBytes(m.sender, 4) + (LeBytes(m.receiver, 4) + (m.ephemeral + (m.nothing + macs))));
    Field(b, 4, LeBytes(m.sender, 4), LeBytes(m.receiver, 4) + (m.ephemeral + (m.nothing + macs)));
    Field(b, 8, LeBytes(m.receiver, 4), m.ephemeral + (m.nothing + macs));
    Field(b, 12, m.ephemeral, m.nothing + macs);
    Field(b, 44, m.nothing, macs);
    Field(b, 60, m.mac1, m.mac2);
    assert b[76..92] == b[76..];
  }

  /** What a sender writes and frames, a receiver takes for what it is and reads field by field as it was, if
      all of it is in the first buffer; otherwise it is dropped. */
  lemma MessageArrives(sizes: Sizes, m: Message, prng: Bytes, mdl: Bytes, offset: nat)
    requires Sound(sizes) && Shaped(m) && |prng| == Total(sizes, KindOf(m)) - SizeOf(KindOf(m))
    requires Carries(mdl, offset, prng + Written(m))
    ensures var r := Classify(sizes, |prng + Written(m)|, mdl, offset);
      if offset + Total(sizes, KindOf(m)) <= |mdl|
      then r.Handshake? && r.kind == KindOf(m) && |r.message| == SizeOf(r.kind) && Read(r.kind, r.message) == m
      else r == Dropped
  {
    WrittenIs(m);
    HandshakeParsedBack(sizes, KindOf(m), prng, Written(m), mdl, offset);
    match m
    case HandshakeInitiation(_, _, _, _, _, _) => ReadInitiation(m);
    case HandshakeResponse(_, _, _, _, _, _) => ReadResponse(m);
    case HandshakeCookie(_, _, _) => ReadCookie(m);
    hide Written, Read, Classify, Shaped, SizeOf, TypeOf, Sound;
  }
}
