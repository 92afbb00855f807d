/** Data messages of driver/send.c: padding, nonces, and the encryption of a packet whose last buffer is
    cut and followed by padding while it is encrypted. */
module WireData {
  import opened Words
  import opened WireFormat
  import opened WireParsing
  import opened ReplayWindow
  import Keypairs
  import Aead = ChaCha20Poly1305

  const MESSAGE_PADDING_MULTIPLE: nat := 16

  /** CalculateNblPadding */
  function Padding(len: nat, mtu: nat): nat {
    if mtu == 0 then AlignUp(len, MESSAGE_PADDING_MULTIPLE) - len else
    var unit := if len > mtu then len % mtu else len;
    var aligned := AlignUp(unit, MESSAGE_PADDING_MULTIPLE);
    (if mtu < aligned then mtu else aligned) - unit
  }

  /** The padding fits the bytes that are there for it; it fills up the last unit to the next multiple of 16,
      or to the MTU if that comes first. */
  lemma PaddingFits(len: nat, mtu: nat)
    ensures Padding(len, mtu) < MESSAGE_PADDING_MULTIPLE
    ensures mtu == 0 ==> (len + Padding(len, mtu)) % MESSAGE_PADDING_MULTIPLE == 0
    ensures var unit := if mtu > 0 && len > mtu then len % mtu else len;
      forall x :: unit <= x < unit + Padding(len, mtu) ==> x % MESSAGE_PADDING_MULTIPLE != 0
    ensures mtu > 0 ==> var unit := if len > mtu then len % mtu else len;
      unit + Padding(len, mtu) <= mtu && (unit + Padding(len, mtu) == mtu || (unit + Padding(len, mtu)) % MESSAGE_PADDING_MULTIPLE == 0)
  {
    Aligned(len);
    if mtu > 0 { Aligned(if len > mtu then len % mtu else len); }
    hide AlignUp;
  }

  lemma Aligned(x: nat)
    ensures x <= AlignUp(x, MESSAGE_PADDING_MULTIPLE) < x + MESSAGE_PADDING_MULTIPLE
    ensures AlignUp(x, MESSAGE_PADDING_MULTIPLE) % MESSAGE_PADDING_MULTIPLE == 0
    ensures forall y :: x <= y < AlignUp(x, MESSAGE_PADDING_MULTIPLE) ==> y % MESSAGE_PADDING_MULTIPLE != 0
  {
    assert AlignUp(x, 16) == (x + 15) / 16 * 16;
  }

  // ---------------------------------------------------------------- one packet

  function Header(remoteIndex: nat, nonce: nat): (h: Bytes)
    ensures |h| == MESSAGE_DATA_SIZE
  {
    LeBytes(MESSAGE_TYPE_DATA, 4) + LeBytes(remoteIndex, 4) + LeBytes(nonce, 8)
  }

  function Zeros(n: nat): Bytes { seq(n, _ => 0) }

  /** A data message for some bytes, padded. */
  function DataMessage(key: Bytes, remoteIndex: nat, nonce: nat, plain: Bytes): Bytes
    requires |key| == 32
  {
    Header(remoteIndex, nonce) + Aead.Seal(key, nonce, [], plain)
  }

  class NetBuffer {
    var chain: Aead.Chain
    var dataLength: nat
    const mdlOffset: nat

    constructor (chain: Aead.Chain, dataLength: nat, mdlOffset: nat)
      ensures this.chain == chain && this.dataLength == dataLength && this.mdlOffset == mdlOffset
    {
      this.chain, this.dataLength, this.mdlOffset := chain, dataLength, mdlOffset;
    }

    /** The buffer that the data ends in, and how much of it is needed. */
    method FindLast() returns (ok: bool, last: nat, needed: nat)
      requires chain != [] && mdlOffset <= |chain[0]|
      ensures ok <==> mdlOffset + dataLength <= |Aead.Flat(chain)|
      ensures ok ==> last < |chain| && needed <= |chain[last]|
      ensures ok ==> Aead.Flat(chain[..last] + [chain[last][..needed]]) == Aead.Flat(chain)[..mdlOffset + dataLength]
    {
      var offset: nat, remaining: nat := mdlOffset, dataLength;
      last, needed := 0, 0;
      FlatSplit(chain, 0);
      while true
        invariant last < |chain| && offset <= |chain[last]|
        invariant |Aead.Flat(chain[..last])| + offset + remaining == mdlOffset + dataLength
        invariant Aead.Flat(chain) == Aead.Flat(chain[..last]) + Aead.Flat(chain[last..])
        decreases |chain| - last
      {
        needed := remaining + offset;
        var here: nat := if |chain[last]| - offset < remaining then |chain[last]| - offset else remaining;
        remaining := remaining - here;
        CutHere(chain, last, needed);
        if remaining == 0 { return true, last, needed; }
        FlatSplit(chain, last + 1);
        if last + 1 == |chain| { return false, last, needed; }
        offset := 0;
        last := last + 1;
      }
    }

    /** Fails, changing nothing, exactly if the buffers are shorter than the data they should hold. The
        chain is as it was afterwards. */
    method EncryptPacket(prng: Bytes, key: Bytes, remoteIndex: nat, nonce: nat, mtu: nat) returns (ok: bool, packet: Bytes)
      requires chain != [] && mdlOffset <= |chain[0]| && mdlOffset < |Aead.Flat(chain)| && |key| == 32
      modifies this
      ensures chain == old(chain) && dataLength == old(dataLength)
      ensures ok <==> mdlOffset + dataLength <= |Aead.Flat(chain)|
      ensures ok ==> packet == prng + DataMessage(key, remoteIndex, nonce,
        Aead.Flat(chain)[mdlOffset..mdlOffset + dataLength] + Zeros(Padding(dataLength, mtu)))
      ensures ok && remoteIndex < TWO32 && nonce < TWO64 ==>
        var m := packet[|prng|..];
        |m| >= 16 && Le(m[..4]) == 4 && Le(m[4..8]) == remoteIndex && Le(m[8..16]) == nonce
    {
      hide Padding, LeBytes, Aead.Seal, Header, Aead.Flat, Le;
      if remoteIndex < TWO32 && nonce < TWO64 { HeaderReads(remoteIndex, nonce); }
      var paddingLen: nat := Padding(dataLength, mtu);
      var before, length := chain, dataLength;
      packet := prng + Header(remoteIndex, nonce);
      if paddingLen > 0 {
        var found, last, needed := FindLast();
        if !found { return false, packet; }
        chain := chain[..last] + [chain[last][..needed]] + [Zeros(paddingLen)];
        dataLength := dataLength + paddingLen;
        Padded(before, last, needed, mdlOffset, length, paddingLen);
      }
      ghost var padded := Aead.Flat(chain);
      ghost var plain := if mdlOffset + length <= |Aead.Flat(before)|
        then Aead.Flat(before)[mdlOffset..mdlOffset + length] + Zeros(paddingLen) else [];
      assert mdlOffset + length <= |Aead.Flat(before)| ==> padded[mdlOffset..mdlOffset + dataLength] == plain;
      var sealed;
      ok, sealed := Aead.EncryptMdl(chain, dataLength, mdlOffset, [], nonce, key);
      packet := packet + sealed;
      chain, dataLength := before, length;
      HeaderAhead(prng, Header(remoteIndex, nonce), sealed);
    }
  }

  lemma HeaderAhead(prng: Bytes, h: Bytes, rest: Bytes)
    requires |h| == 16
    ensures prng + h + rest == prng + (h + rest)
    ensures var m := (prng + h + rest)[|prng|..];
      |m| >= 16 && m[..4] == h[..4] && m[4..8] == h[4..8] && m[8..16] == h[8..]
  {
    assert (prng + h + rest)[|prng|..] == h + rest;
  }

  lemma {:induction false} FlatConcat(a: Aead.Chain, b: Aead.Chain)
    ensures Aead.Flat(a + b) == Aead.Flat(a) + Aead.Flat(b)
  {
    if a == [] {
      assert a + b == b;
    } else {
      FlatConcat(a[1..], b);
      assert (a + b)[1..] == a[1..] + b && (a + b)[0] == a[0];
      Associates(a[0], Aead.Flat(a[1..]), Aead.Flat(b));
    }
  }

  lemma Associates(x: Bytes, y: Bytes, z: Bytes)
    ensures x + (y + z) == (x + y) + z
  {
  }

  lemma FlatSplit(chain: Aead.Chain, i: nat)
    requires i <= |chain|
    ensures Aead.Flat(chain) == Aead.Flat(chain[..i]) + Aead.Flat(chain[i..])
  {
    FlatConcat(chain[..i], chain[i..]);
    assert chain == chain[..i] + chain[i..];
  }

  lemma FlatOne(s: Bytes)
    ensures Aead.Flat([s]) == s
  {
    assert [s][1..] == [];
  }

  /** The chain up to buffer i, of which only `needed` bytes are kept. */
  lemma CutHere(chain: Aead.Chain, i: nat, needed: nat)
    requires i < |chain|
    ensures |Aead.Flat(chain[..i + 1])| == |Aead.Flat(chain[..i])| + |chain[i]| <= |Aead.Flat(chain)|
    ensures needed <= |chain[i]| ==>
      Aead.Flat(chain[..i] + [chain[i][..needed]]) == Aead.Flat(chain)[..|Aead.Flat(chain[..i])| + needed]
  {
    FlatSplit(chain, i);
    FlatSplit(chain, i + 1);
    assert chain[..i + 1] == chain[..i] + [chain[i]];
    FlatConcat(chain[..i], [chain[i]]);
    FlatOne(chain[i]);
    if needed <= |chain[i]| {
      FlatConcat(chain[..i], [chain[i][..needed]]);
      FlatOne(chain[i][..needed]);
    }
  }

  lemma Padded(chain: Aead.Chain, last: nat, needed: nat, offset: nat, length: nat, n: nat)
    requires last < |chain| && needed <= |chain[last]| && offset + length <= |Aead.Flat(chain)|
    requires Aead.Flat(chain[..last] + [chain[last][..needed]]) == Aead.Flat(chain)[..offset + length]
    ensures var padded := Aead.Flat(chain[..last] + [chain[last][..needed]] + [Zeros(n)]);
      && |padded| == offset + length + n
      && padded[offset..offset + (length + n)] == Aead.Flat(chain)[offset..offset + length] + Zeros(n)
  {
    FlatConcat(chain[..last] + [chain[last][..needed]], [Zeros(n)]);
    FlatOne(Zeros(n));
  }

  // ---------------------------------------------------------------- nonces

  class SendingKey {
    var sendingCounter: nat
    var isValid: bool
    ghost var used: set<nat>

    /** The nonces handed out under this key are all below the counter. */
    ghost predicate Valid()
      reads this
    {
      forall n :: n in used ==> n < sendingCounter
    }

    constructor ()
      ensures Valid() && isValid && used == {} && sendingCounter == 0
    {
      sendingCounter, isValid, used := 0, true, {};
    }

    /** One nonce for each packet of a batch, or the key is given up: never one twice, and none that a
        receiver must refuse. */
    method AssignNonces(packets: nat) returns (ok: bool, nonces: seq<nat>)
      requires Valid()
      modifies this
      ensures Valid() && ok == (old(sendingCounter) + packets <= REJECT_AFTER_MESSAGES || packets == 0)
      ensures ok ==> |nonces| == packets && forall i :: 0 <= i < packets ==> nonces[i] == old(sendingCounter) + i
      ensures forall n :: n in nonces ==> n !in old(used) && n in used && n < REJECT_AFTER_MESSAGES
      ensures old(used) <= used && isValid == (old(isValid) && ok)
    {
      nonces := [];
      while |nonces| < packets
        invariant |nonces| <= packets && Valid() && isValid == old(isValid) && old(used) <= used
        invariant sendingCounter == old(sendingCounter) + |nonces|
        invariant |nonces| > 0 ==> sendingCounter <= REJECT_AFTER_MESSAGES
        invariant forall i :: 0 <= i < |nonces| ==> nonces[i] == old(sendingCounter) + i && nonces[i] in used
      {
        var nonce := sendingCounter;
        sendingCounter := sendingCounter + 1;
        if nonce >= REJECT_AFTER_MESSAGES {
          isValid := false;
          return false, nonces;
        }
        used := used + {nonce};
        nonces := nonces + [nonce];
      }
      ok := true;
    }
  }

  /** Several senders that increment one counter, in any order: `run` names the sender of each increment. */
  function Given(run: seq<nat>, first: nat, sender: nat): seq<nat>
    decreases run
  {
    if run == [] then []
    else (if run[0] == sender then [first] else []) + Given(run[1..], first + 1, sender)
  }

  /** Each sender gets increasing nonces, and no two senders the same one. */
  lemma {:induction false} NoncesApart(run: seq<nat>, first: nat, s: nat, t: nat)
    ensures forall i :: 0 <= i < |Given(run, first, s)| ==> first <= Given(run, first, s)[i] < first + |run|
    ensures forall i, j :: 0 <= i < j < |Given(run, first, s)| ==> Given(run, first, s)[i] < Given(run, first, s)[j]
    ensures s != t ==> forall n :: n in Given(run, first, s) ==> n !in Given(run, first, t)
    decreases run
  {
    if run != [] {
      NoncesApart(run[1..], first + 1, s, t);
      NoncesApart(run[1..], first + 1, t, s);
    }
  }

  // ---------------------------------------------------------------- from end to end

  lemma TypeIsFirst(remoteIndex: nat, nonce: nat, rest: Bytes)
    ensures Le32(Header(remoteIndex, nonce) + rest, 0) == MESSAGE_TYPE_DATA
  {
    var h := LeBytes(MESSAGE_TYPE_DATA, 4);
    assert h == [4, 0, 0, 0] by {
      assert LeBytes(0, 1) == [0] + LeBytes(0, 0);
      assert LeBytes(0, 2) == [0] + LeBytes(0, 1);
      assert LeBytes(0, 3) == [0] + LeBytes(0, 2);
    }
    var m := Header(remoteIndex, nonce) + rest;
    assert m[0] == h[0] && m[1] == h[1] && m[2] == h[2] && m[3] == h[3];
  }

  lemma SealLength(key: Bytes, nonce: nat, plain: Bytes)
    requires |key| == 32
    ensures |Aead.Seal(key, nonce, [], plain)| == |plain| + 16
  {
  }

  lemma MessageParts(key: Bytes, remoteIndex: nat, nonce: nat, plain: Bytes)
    requires |key| == 32
    ensures var m := DataMessage(key, remoteIndex, nonce, plain);
      && |m| >= MESSAGE_MINIMUM_LENGTH && Le32(m, 0) == MESSAGE_TYPE_DATA
      && m[..MESSAGE_DATA_SIZE] == Header(remoteIndex, nonce) && m[MESSAGE_DATA_SIZE..] == Aead.Seal(key, nonce, [], plain)
  {
    SealLength(key, nonce, plain);
    TypeIsFirst(remoteIndex, nonce, Aead.Seal(key, nonce, [], plain));
    hide Aead.Seal, Header;
  }

  /** The first buffer of a chain holds the packet as far as it goes. */
  lemma FirstCarries(chain: Aead.Chain, offset: nat, packet: Bytes)
    requires chain != [] && offset + |packet| <= |Aead.Flat(chain)|
    requires Aead.Flat(chain)[offset..offset + |packet|] == packet
    ensures Carries(chain[0], offset, packet)
  {
    var flat := Aead.Flat(chain);
    forall i: nat | i < |packet| && offset + i < |chain[0]| ensures chain[0][offset + i] == packet[i] {
      assert flat[offset..offset + |packet|][i] == flat[offset + i];
    }
  }

  /** What the receiver reads in a header: the type, the index of its keypair, and the nonce. */
  lemma HeaderReads(remoteIndex: nat, nonce: nat)
    requires remoteIndex < TWO32 && nonce < TWO64
    ensures var h := Header(remoteIndex, nonce);
      Le(h[..4]) == 4 && Le(h[4..8]) == remoteIndex && Le(h[8..]) == nonce
  {
    PowersOf256();
    LeLeBytes(MESSAGE_TYPE_DATA, 4);
    LeLeBytes(remoteIndex, 4);
    LeLeBytes(nonce, 8);
    var h := Header(remoteIndex, nonce);
    assert h[..4] == LeBytes(MESSAGE_TYPE_DATA, 4) && h[4..8] == LeBytes(remoteIndex, 4) && h[8..] == LeBytes(nonce, 8);
    hide LeBytes, Le, Pow256;
  }

  /** A framed data message, wherever its buffers are cut: it is found with its header exactly if the
      headers are in the first buffer and it does not collide, and what follows opens to the data. */
  lemma DataArrives(sizes: Sizes, prng: Bytes, key: Bytes, remoteIndex: nat, nonce: nat, plain: Bytes,
                    chain: Aead.Chain, offset: nat)
    requires Sound(sizes) && |prng| == sizes.data && |key| == 32 && chain != []
    requires var packet := prng + DataMessage(key, remoteIndex, nonce, plain);
      offset + |packet| <= |Aead.Flat(chain)| && Aead.Flat(chain)[offset..offset + |packet|] == packet
    ensures var m := DataMessage(key, remoteIndex, nonce, plain); var from := offset + sizes.data;
      var r := Classify(sizes, |prng + m|, chain[0], offset);
      && |m| >= MESSAGE_MINIMUM_LENGTH && from + |m| <= |Aead.Flat(chain)|
      && (Arrives(sizes, prng + m, |chain[0]| - offset) <==> r == Data(Header(remoteIndex, nonce), from, |m|))
      && (Arrives(sizes, prng + m, |chain[0]| - offset) <==> r.Data?)
      && (r.Data? ==> |r.header| == 16)
      && (r.Data? && remoteIndex < TWO32 && nonce < TWO64 ==>
            Le(r.header[..4]) == 4 && Le(r.header[4..8]) == remoteIndex && Le(r.header[8..]) == nonce)
      && Aead.Open(key, nonce, [], Aead.Flat(chain)[from + MESSAGE_DATA_SIZE..from + |m|]) == Aead.Option.Some(plain)
  {
    hide Aead.Seal, Aead.Open, Header, Collides, Classify, DataMessage, Sound, Le32, Le;
    var m, flat := DataMessage(key, remoteIndex, nonce, plain), Aead.Flat(chain);
    MessageParts(key, remoteIndex, nonce, plain);
    FirstCarries(chain, offset, prng + m);
    DataParsedBack(sizes, prng, m, chain[0], offset);
    Inner(flat, offset, prng, m);
    Aead.OpenSeal(key, nonce, [], plain);
    if remoteIndex < TWO32 && nonce < TWO64 { HeaderReads(remoteIndex, nonce); }
  }

  lemma Inner(flat: Bytes, offset: nat, prng: Bytes, m: Bytes)
    requires |m| >= MESSAGE_DATA_SIZE && offset + |prng + m| <= |flat| && flat[offset..offset + |prng + m|] == prng + m
    ensures flat[offset + |prng| + MESSAGE_DATA_SIZE..offset + |prng| + |m|] == m[MESSAGE_DATA_SIZE..]
  {
    var p, from := prng + m, |prng| + MESSAGE_DATA_SIZE;
    assert p[from..|p|] == m[MESSAGE_DATA_SIZE..];
    assert flat[offset..offset + |p|][from..|p|] == flat[offset + from..offset + |p|];
  }

  /** The headers are in the first buffer, and nothing else claims the packet. */
  ghost predicate Arrives(sizes: Sizes, packet: Bytes, available: int)
    requires Sound(sizes)
  {
    !Collides(sizes, packet, available) && sizes.data + MESSAGE_DATA_SIZE <= available
  }

  /** The receiving half of a keypair, with the counter of the messages received; `expired` says whether
      it is older than REJECT_AFTER_TIME. */
  datatype Receiving = Receiving(key: Bytes, isValid: bool, expired: bool, counter: nat)

  predicate Usable(r: Receiving) {
    r.isValid && !r.expired && r.counter < REJECT_AFTER_MESSAGES
  }

  /** The nonce is read from the header. A key that cannot be used any more is marked so. */
  method DecryptPacket(chain: Aead.Chain, header: Bytes, from: nat, length: nat, keypair: Option<Receiving>)
    returns (data: Option<Bytes>, after: Option<Receiving>)
    requires |header| == MESSAGE_DATA_SIZE && length >= MESSAGE_MINIMUM_LENGTH && from + length <= |Aead.Flat(chain)|
    requires keypair.Some? ==> |keypair.value.key| == 32
    ensures keypair.None? || !Usable(keypair.value) ==> data == None
    ensures keypair.Some? && Usable(keypair.value) ==>
      var plain := Aead.Open(keypair.value.key, Le(header[8..]), [], Aead.Flat(chain)[from + MESSAGE_DATA_SIZE..from + length]);
      data == if plain.Some? then Some(plain.value) else None
    ensures after == if keypair.Some? && !Usable(keypair.value) then Some(keypair.value.(isValid := false)) else keypair
  {
    hide Aead.Open, Aead.Flat, Le;
    data, after := None, keypair;
    if keypair.None? { return; }
    var r := keypair.value;
    if !r.isValid || r.expired || r.counter >= REJECT_AFTER_MESSAGES {
      after := Some(r.(isValid := false));
      return;
    }
    var start: nat := from + MESSAGE_DATA_SIZE;
    var ok, dst := Aead.DecryptMdl(chain, length - MESSAGE_DATA_SIZE, start, [], Le(header[8..]), r.key);
    assert start + (length - MESSAGE_DATA_SIZE) == from + length;
    if ok { data := Some(dst); }
  }

  /** IndexHashtableLookup of a keypair */
  method IndexHashtableLookup(session: Keypairs.Session, index: nat) returns (found: Option<Keypairs.Id>)
    ensures found.Some? ==> Keypairs.Finds(session, index, Keypairs.Keypair(found.value))
    ensures found.None? ==> forall k :: !Keypairs.Finds(session, index, Keypairs.Keypair(k))
  {
    if entry :| entry in session.hashed && entry.Keypair? && session.hashed[entry] == index {
      return Some(entry.id);
    }
    found := None;
  }

  /** An index leads to one keypair, and that has a reference. */
  lemma FoundOnce(session: Keypairs.Session, index: nat, k: Keypairs.Id)
    requires Keypairs.Inv(session) && Keypairs.Finds(session, index, Keypairs.Keypair(k))
    ensures k in session.refs
    ensures forall j :: Keypairs.Finds(session, index, Keypairs.Keypair(j)) ==> j == k
  {
    assert Keypairs.RefFits(session, k);
  }

  /** PrepareNetBufferListHeader, the lookup of PacketConsumeData and DecryptPacket on the datagram of a
      data message. Nobody says which keypair it is for but the index in its header. */
  method ReceiveData(sizes: Sizes, chain: Aead.Chain, offset: nat, length: nat,
                     session: Keypairs.Session, keys: map<Keypairs.Id, Receiving>,
                     ghost prng: Bytes, ghost key: Bytes, ghost remoteIndex: nat, ghost nonce: nat, ghost plain: Bytes)
    returns (data: Option<Bytes>)
    requires Sound(sizes) && |prng| == sizes.data && |key| == 32 && chain != [] && remoteIndex < TWO32 && nonce < TWO64
    requires Keypairs.Inv(session) && forall k :: k in session.refs ==> k in keys && |keys[k].key| == 32
    requires var packet := prng + DataMessage(key, remoteIndex, nonce, plain);
      length == |packet| && offset + length <= |Aead.Flat(chain)| && Aead.Flat(chain)[offset..offset + length] == packet
    ensures (forall k :: !Keypairs.Finds(session, remoteIndex, Keypairs.Keypair(k))) ==> data == None
    ensures forall k :: Keypairs.Finds(session, remoteIndex, Keypairs.Keypair(k)) && k in keys && keys[k].key == key ==>
      data == if Usable(keys[k]) && Arrives(sizes, prng + DataMessage(key, remoteIndex, nonce, plain), |chain[0]| - offset)
              then Some(plain) else None
  {
    hide *;
    DataArrives(sizes, prng, key, remoteIndex, nonce, plain, chain, offset);
    var parsed := Classify(sizes, length, chain[0], offset);
    forall k | Keypairs.Finds(session, remoteIndex, Keypairs.Keypair(k))
      ensures k in session.refs && forall j :: Keypairs.Finds(session, remoteIndex, Keypairs.Keypair(j)) ==> j == k
    {
      FoundOnce(session, remoteIndex, k);
    }
    data := None;
    if parsed.Data? {
      var found := IndexHashtableLookup(session, Le(parsed.header[4..8]));
      if found.Some? && found.value in session.refs {
        var after;
        data, after := DecryptPacket(chain, parsed.header, parsed.offset, parsed.length, Some(keys[found.value]));
      }
    }
  }
}
