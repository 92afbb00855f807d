/** Framing (driver/send.c) and telling apart (driver/receive.c) under a sound configuration. */
module WireParsing {
  import opened Words
  import opened WireFormat

  type Bytes = seq<byte>

  // ---------------------------------------------------------------- sending

  function AlignUp(x: nat, to: nat): nat
    requires to > 0
  {
    (x + to - 1) / to * to
  }

  /** PacketSendHandshakeInitiation, -Response and -Cookie: the message is aligned in its buffer, and the
      random bytes end where it begins. */
  method FrameHandshake(sizes: Sizes, kind: Kind, prng: Bytes, message: Bytes) returns (packet: Bytes, messageOffset: nat)
    requires Sound(sizes) && |message| == SizeOf(kind) && |prng| == Total(sizes, kind) - SizeOf(kind)
    ensures packet == prng + message && |packet| == Total(sizes, kind) && messageOffset % 4 == 0
  {
    var packetSize: nat := Total(sizes, kind);
    var prefixSize: nat := packetSize - SizeOf(kind);
    var bufferSize: nat := AlignUp(packetSize, 4);
    messageOffset := bufferSize - SizeOf(kind);
    var payloadOffset: nat := messageOffset - prefixSize;
    var buffer := new byte[bufferSize];
    forall i | 0 <= i < prefixSize { buffer[payloadOffset + i] := prng[i]; }
    forall i | 0 <= i < SizeOf(kind) { buffer[messageOffset + i] := message[i]; }
    packet := buffer[payloadOffset..payloadOffset + packetSize];
  }

  // ---------------------------------------------------------------- receiving

  datatype Parsed = Dropped | Handshake(kind: Kind, message: Bytes) | Data(header: Bytes, offset: nat, length: nat)

  /** The kind whose total the length is. */
  function KindFor(sizes: Sizes, length: nat): Option<Kind> {
    if length == sizes.initiation then Some(Initiation)
    else if length == sizes.response then Some(Response)
    else if length == sizes.cookie then Some(Cookie)
    else None
  }

  function TryData(sizes: Sizes, length: nat, src: Bytes, offset: nat): Parsed {
    if length < sizes.data + MESSAGE_MINIMUM_LENGTH || |src| < sizes.data + MESSAGE_DATA_SIZE then Dropped
    else if Le32(src, sizes.data) != MESSAGE_TYPE_DATA then Dropped
    else Data(src[sizes.data..sizes.data + MESSAGE_DATA_SIZE], offset + sizes.data, length - sizes.data)
  }

  /** PrepareNetBufferListHeader: `length` bytes from `offset` on, of which the first buffer has some. */
  function Classify(sizes: Sizes, length: nat, mdl: Bytes, offset: nat): Parsed
    requires Sound(sizes)
  {
    if length < MESSAGE_HEADER_SIZE || offset > |mdl| || |mdl| - offset < MESSAGE_HEADER_SIZE then Dropped else
    var src := mdl[offset..];
    match KindFor(sizes, length)
    case None => TryData(sizes, length, src, offset)
    case Some(kind) =>
      if |src| < length then Dropped else
      var at := Total(sizes, kind) - SizeOf(kind);
      SizesSmall();
      if Le32(src, at) != TypeOf(kind) then TryData(sizes, length, src, offset)
      else Handshake(kind, src[at..at + SizeOf(kind)])
  }

  lemma SizesSmall()
    ensures SizeOf(Initiation) == 148 && SizeOf(Response) == 92 && SizeOf(Cookie) == 64
  {
  }

  lemma KindForIff(sizes: Sizes, length: nat, kind: Kind)
    requires Sound(sizes)
    ensures KindFor(sizes, length) == Some(kind) <==> length == Total(sizes, kind)
  {
    ValidatedIff(sizes);
  }

  /** The first buffer holds the packet from `offset` on, as far as it goes. */
  ghost predicate Carries(mdl: Bytes, offset: nat, packet: Bytes) {
    forall i: nat :: i < |packet| && offset + i < |mdl| ==> mdl[offset + i] == packet[i]
  }

  lemma CarriesSlice(mdl: Bytes, offset: nat, packet: Bytes, a: nat, b: nat)
    requires Carries(mdl, offset, packet) && a <= b <= |packet| && offset + b <= |mdl|
    ensures mdl[offset..][a..b] == packet[a..b]
  {
    forall i | a <= i < b ensures mdl[offset..][i] == packet[i] {
      assert mdl[offset + i] == packet[i];
    }
  }

  lemma TypeCarried(mdl: Bytes, offset: nat, packet: Bytes, at: nat)
    requires Carries(mdl, offset, packet) && at + 4 <= |packet| && offset + at + 4 <= |mdl|
    ensures Le32(mdl[offset..], at) == Le32(packet, at)
  {
    CarriesSlice(mdl, offset, packet, at, at + 4);
    TypeInHeader(mdl[offset..], at);
    TypeInHeader(packet, at);
  }

  /** A framed handshake message comes back as it was exactly if all of it is in the first buffer, and is
      dropped otherwise. */
  lemma HandshakeParsedBack(sizes: Sizes, kind: Kind, prng: Bytes, message: Bytes, mdl: Bytes, offset: nat)
    requires Sound(sizes) && |message| == SizeOf(kind) && |prng| == Total(sizes, kind) - SizeOf(kind)
    requires Le32(message, 0) == TypeOf(kind) && Carries(mdl, offset, prng + message)
    ensures Classify(sizes, Total(sizes, kind), mdl, offset)
      == if offset + Total(sizes, kind) <= |mdl| then Handshake(kind, message) else Dropped
  {
    var total, packet, at := Total(sizes, kind), prng + message, |prng|;
    KindForIff(sizes, total, kind);
    SizesSmall();
    if offset + total <= |mdl| {
      CarriesSlice(mdl, offset, packet, at, total);
      assert packet[at..total] == message;
      TypeInHeader(mdl[offset..], at);
      assert mdl[offset..][at..at + 4] == message[..4];
      TypeInHeader(message, 0);
    }
  }

  /** The datagram can be taken for a handshake message, or is dropped because it could be. */
  ghost predicate Collides(sizes: Sizes, packet: Bytes, available: int)
    requires Sound(sizes)
  {
    exists kind :: |packet| == Total(sizes, kind) &&
      (available < |packet| || TypeAt(packet, Total(sizes, kind) - SizeOf(kind)) == TypeOf(kind))
  }

  function TypeAt(packet: Bytes, at: nat): nat {
    if at + 4 <= |packet| then Le32(packet, at) else 0
  }

  /** A framed data message comes back as data exactly if its headers are in the first buffer and it does
      not collide: its length is no handshake total, or all of it is in the first buffer and the type of
      that handshake does not stand where its header would be. */
  lemma DataParsedBack(sizes: Sizes, prng: Bytes, body: Bytes, mdl: Bytes, offset: nat)
    requires Sound(sizes) && |prng| == sizes.data && |body| >= MESSAGE_MINIMUM_LENGTH
    requires Le32(body, 0) == MESSAGE_TYPE_DATA && Carries(mdl, offset, prng + body)
    ensures Classify(sizes, |prng + body|, mdl, offset) == Data(body[..MESSAGE_DATA_SIZE], offset + sizes.data, |body|)
      <==> !Collides(sizes, prng + body, |mdl| - offset) && offset + sizes.data + MESSAGE_DATA_SIZE <= |mdl|
    ensures Collides(sizes, prng + body, |mdl| - offset) || offset + sizes.data + MESSAGE_DATA_SIZE > |mdl| ==>
      !Classify(sizes, |prng + body|, mdl, offset).Data?
  {
    var packet := prng + body;
    if offset + MESSAGE_HEADER_SIZE <= |mdl| {
      if offset + sizes.data + MESSAGE_DATA_SIZE <= |mdl| { TryDataFinds(sizes, prng, body, mdl, offset); }
      ClassifyIs(sizes, packet, mdl, offset);
      hide Classify, Collides;
    } else {
      hide TryData, KindFor, Collides;
    }
  }

  /** Whether a packet is tried as data depends on what it collides with. */
  lemma ClassifyIs(sizes: Sizes, packet: Bytes, mdl: Bytes, offset: nat)
    requires Sound(sizes) && Carries(mdl, offset, packet)
    requires offset + MESSAGE_HEADER_SIZE <= |mdl| && |packet| >= MESSAGE_HEADER_SIZE
    ensures Collides(sizes, packet, |mdl| - offset) ==> !Classify(sizes, |packet|, mdl, offset).Data?
    ensures !Collides(sizes, packet, |mdl| - offset) ==>
      Classify(sizes, |packet|, mdl, offset) == TryData(sizes, |packet|, mdl[offset..], offset)
  {
    hide TryData, TypeOf;
    match KindFor(sizes, |packet|)
    case None =>
      forall kind ensures |packet| != Total(sizes, kind) { KindForIff(sizes, |packet|, kind); }
    case Some(kind) =>
      KindForIff(sizes, |packet|, kind);
      forall other | |packet| == Total(sizes, other) ensures other == kind { KindForIff(sizes, |packet|, other); }
      SizesSmall();
      if |mdl| - offset >= |packet| {
        TypeCarried(mdl, offset, packet, Total(sizes, kind) - SizeOf(kind));
      }
  }

  lemma TryDataFinds(sizes: Sizes, prng: Bytes, body: Bytes, mdl: Bytes, offset: nat)
    requires |prng| == sizes.data && |body| >= MESSAGE_MINIMUM_LENGTH && Le32(body, 0) == MESSAGE_TYPE_DATA
    requires offset + sizes.data + MESSAGE_DATA_SIZE <= |mdl| && Carries(mdl, offset, prng + body)
    ensures TryData(sizes, |prng + body|, mdl[offset..], offset) == Data(body[..MESSAGE_DATA_SIZE], offset + sizes.data, |body|)
  {
    var at := |prng|;
    CarriesSlice(mdl, offset, prng + body, at, at + MESSAGE_DATA_SIZE);
    assert (prng + body)[at..at + MESSAGE_DATA_SIZE] == body[..MESSAGE_DATA_SIZE];
    TypeInHeader(mdl[offset..], at);
    assert mdl[offset..][at..at + 4] == mdl[offset..][at..at + MESSAGE_DATA_SIZE][..4] == body[..4];
    TypeInHeader(body, 0);
  }

  lemma SliceSlice(s: Bytes, offset: nat, a: nat, b: nat)
    requires a <= b && offset + b <= |s|
    ensures s[offset..][a..b] == s[offset + a..offset + b]
  {
  }

  lemma TypeInHeader(src: Bytes, at: nat)
    requires at + 4 <= |src|
    ensures Le32(src[at..at + 4], 0) == Le32(src, at)
  {
  }

  // ---------------------------------------------------------------- in place

  class Datagram {
    const mdl: array<byte>
    var offset: nat
    var length: nat
    var header: Bytes
    var dataLength: nat

    constructor (mdl: array<byte>, offset: nat, length: nat)
      ensures this.mdl == mdl && this.offset == offset && this.length == length
    {
      this.mdl, this.offset, this.length, header, dataLength := mdl, offset, length, [], 0;
    }

    /** The bytes of the first buffer from the datagram's first. */
    ghost function Src(): Bytes
      reads this, mdl
      requires offset <= mdl.Length
    {
      mdl[offset..]
    }

    method HandshakeHeader(sizes: Sizes, kind: Kind) returns (ok: bool)
      requires Sound(sizes) && SizeOf(kind) >= 4 && Total(sizes, kind) >= SizeOf(kind) && offset + Total(sizes, kind) <= mdl.Length
      modifies `header, `dataLength
      ensures var at := Total(sizes, kind) - SizeOf(kind);
        && ok == (Le32(Src(), at) == TypeOf(kind))
        && (ok ==> header == Src()[at..at + SizeOf(kind)] && dataLength == SizeOf(kind))
    {
      hide SizeOf, TypeOf, Sound, Total;
      var message: nat := offset + (Total(sizes, kind) - SizeOf(kind));
      header := mdl[message..message + MESSAGE_HEADER_SIZE];
      ghost var src, whole, at := Src(), mdl[..], message - offset;
      assert src == whole[offset..];
      SliceSlice(whole, offset, at, at + 4);
      assert header == src[at..at + 4];
      TypeInHeader(src, at);
      ok := Le32(header, 0) == TypeOf(kind);
      if ok {
        header := header + mdl[message + MESSAGE_HEADER_SIZE..message + SizeOf(kind)];
        SliceSlice(whole, offset, at, at + SizeOf(kind));
        assert header == src[at..at + SizeOf(kind)];
        dataLength := SizeOf(kind);
      }
    }

    method DataHeader(sizes: Sizes) returns (ok: bool)
      requires offset <= mdl.Length
      modifies this
      ensures match TryData(sizes, old(length), old(Src()), old(offset))
        case Data(head, from, len) => ok && header == head && offset == from && length == len
        case _ => !ok
    {
      var mdlLen: nat := mdl.Length - offset;
      ghost var src, whole, from := Src(), mdl[..], offset;
      assert src == whole[from..];
      if length < sizes.data + MESSAGE_MINIMUM_LENGTH || mdlLen < sizes.data + MESSAGE_DATA_SIZE { return false; }
      offset := offset + sizes.data;
      length := length - sizes.data;
      header := mdl[offset..offset + MESSAGE_HEADER_SIZE];
      SliceSlice(whole, from, sizes.data, sizes.data + 4);
      assert header == src[sizes.data..sizes.data + 4];
      TypeInHeader(src, sizes.data);
      if Le32(header, 0) != MESSAGE_TYPE_DATA { return false; }
      header := header + mdl[offset + MESSAGE_HEADER_SIZE..offset + MESSAGE_DATA_SIZE];
      SliceSlice(whole, from, sizes.data, sizes.data + MESSAGE_DATA_SIZE);
      assert header == src[sizes.data..sizes.data + MESSAGE_DATA_SIZE];
      ok := true;
    }

    method PrepareNetBufferListHeader(sizes: Sizes) returns (ok: bool)
      requires Sound(sizes)
      modifies this
      ensures match old(Classify(sizes, length, mdl[..], offset))
        case Dropped => !ok
        case Handshake(kind, message) =>
          ok && header == message && dataLength == SizeOf(kind) && offset == old(offset) && length == old(length)
        case Data(head, from, len) => ok && header == head && offset == from && length == len
    {
      SizesSmall();
      if length < MESSAGE_HEADER_SIZE || offset > mdl.Length { return false; }
      if mdl.Length - offset < MESSAGE_HEADER_SIZE { return false; }
      assert Src() == mdl[..][offset..];
      var kind := KindFor(sizes, length);
      if kind.Some? { KindForIff(sizes, length, kind.value); }
      hide TryData, KindFor, Le32, SizeOf, TypeOf, Sound;
      if kind.Some? {
        if mdl.Length - offset < length { return false; }
        ok := HandshakeHeader(sizes, kind.value);
        if ok { return; }
      }
      ok := DataHeader(sizes);
    }
  }
}
