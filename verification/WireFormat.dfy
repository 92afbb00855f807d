/** Junk-prefixed messages: the configured sizes (driver/ioctl.c, driver/sizes.h, driver/junk.h), how
    messages are framed (driver/send.c) and how datagrams are told apart (driver/receive.c). */
module WireFormat {
  import opened Words

  datatype Kind = Initiation | Response | Cookie

  const MESSAGE_HEADER_SIZE: nat := 4
  const MESSAGE_DATA_SIZE: nat := 16
  const MESSAGE_MINIMUM_LENGTH: nat := 32
  const MESSAGE_TYPE_DATA: nat := 4
  const MAX_PREFIX_SIZE_DATA: nat := 4096
  const MAX_JUNK_COUNT: nat := 128

  type ushort = x: int | 0 <= x < 0x1_0000

  /** sizeof the message, without a prefix: header, indices, keys, ciphertexts with their tags, and the
      two checks of the first two kinds. */
  function SizeOf(kind: Kind): nat {
    match kind
    case Initiation => 4 + 4 + 32 + (32 + 16) + (12 + 16) + 32
    case Response => 4 + 4 + 4 + 32 + 16 + 32
    case Cookie => 4 + 4 + 24 + (16 + 16)
  }

  function TypeOf(kind: Kind): nat {
    match kind
    case Initiation => 1
    case Response => 2
    case Cookie => 3
  }

  // ---------------------------------------------------------------- the configuration

  /** The first three are whole messages with their prefixes; the last is a prefix only. */
  datatype Sizes = Sizes(initiation: ushort, response: ushort, cookie: ushort, data: ushort)

  datatype Junk = Junk(count: ushort, min: ushort, max: ushort)

  datatype Option<+T> = None | Some(value: T)

  /** The fields of a request that are flagged as set. */
  datatype Request = Request(
    junkCount: Option<ushort>, junkMin: Option<ushort>, junkMax: Option<ushort>,
    initiation: Option<ushort>, response: Option<ushort>, cookie: Option<ushort>, data: Option<ushort>,
    listenPort: bool, privateKey: bool, peers: nat)

  function Total(sizes: Sizes, kind: Kind): nat {
    match kind
    case Initiation => sizes.initiation
    case Response => sizes.response
    case Cookie => sizes.cookie
  }

  /** The sum is kept in 16 bits. */
  function Merged(was: ushort, prefix: Option<ushort>, size: nat): ushort {
    if prefix.Some? then (prefix.value + size) % 0x1_0000 else was
  }

  function MergePrefixSizes(was: Sizes, r: Request): Sizes {
    Sizes(Merged(was.initiation, r.initiation, SizeOf(Initiation)), Merged(was.response, r.response, SizeOf(Response)),
          Merged(was.cookie, r.cookie, SizeOf(Cookie)), if r.data.Some? then r.data.value else was.data)
  }

  predicate ValidatePrefixSizes(sizes: Sizes) {
    && sizes.initiation >= SizeOf(Initiation) && sizes.response >= SizeOf(Response) && sizes.cookie >= SizeOf(Cookie)
    && sizes.data <= MAX_PREFIX_SIZE_DATA
    && sizes.initiation != sizes.response && sizes.initiation != sizes.cookie && sizes.response != sizes.cookie
  }

  function MergeJunkPackets(was: Junk, r: Request): Junk {
    Junk(if r.junkCount.Some? then r.junkCount.value else was.count,
         if r.junkMin.Some? then r.junkMin.value else was.min, if r.junkMax.Some? then r.junkMax.value else was.max)
  }

  predicate ValidateJunkPackets(junk: Junk) {
    junk.count <= MAX_JUNK_COUNT && junk.min <= junk.max
  }

  /** What the receive path relies on. */
  ghost predicate Sound(sizes: Sizes) {
    && (forall kind :: Total(sizes, kind) >= SizeOf(kind))
    && (forall kind, other :: Total(sizes, kind) == Total(sizes, other) ==> kind == other)
    && sizes.data <= MAX_PREFIX_SIZE_DATA
  }

  /** A merged total passes only if the sum did not wrap: a wrapped sum is below the size it started from. */
  lemma UnwrappedIff(prefix: ushort, kind: Kind)
    ensures Merged(0, Some(prefix), SizeOf(kind)) >= SizeOf(kind) <==> prefix + SizeOf(kind) < 0x1_0000
    ensures Merged(0, Some(prefix), SizeOf(kind)) >= SizeOf(kind) <==> Merged(0, Some(prefix), SizeOf(kind)) == prefix + SizeOf(kind)
  {
  }

  /** The sizes a request asks for, without wrapping. */
  function Wanted(was: Sizes, r: Request, kind: Kind): nat {
    var prefix := match kind case Initiation => r.initiation case Response => r.response case Cookie => r.cookie;
    if prefix.Some? then prefix.value + SizeOf(kind) else Total(was, kind)
  }

  lemma MergedIs(was: Sizes, r: Request, kind: Kind)
    requires Total(was, kind) >= SizeOf(kind)
    ensures Total(MergePrefixSizes(was, r), kind) >= SizeOf(kind) <==> Wanted(was, r, kind) < 0x1_0000
    ensures Wanted(was, r, kind) < 0x1_0000 ==> Total(MergePrefixSizes(was, r), kind) == Wanted(was, r, kind)
  {
  }

  /** What a request asks for can be had: three different totals of 16 bits, and a short data prefix. */
  ghost predicate Possible(was: Sizes, r: Request) {
    && (forall kind :: Wanted(was, r, kind) < 0x1_0000)
    && (forall kind, other :: Wanted(was, r, kind) == Wanted(was, r, other) ==> kind == other)
    && (r.data.Some? ==> r.data.value <= MAX_PREFIX_SIZE_DATA)
  }

  /** A request passes exactly if what it asks for can be had, and then that is what it gets. */
  lemma AcceptedIff(was: Sizes, r: Request)
    requires Sound(was)
    ensures ValidatePrefixSizes(MergePrefixSizes(was, r)) <==> Possible(was, r)
    ensures Possible(was, r) ==> forall kind :: Total(MergePrefixSizes(was, r), kind) == Wanted(was, r, kind)
    ensures Possible(was, r) ==> Sound(MergePrefixSizes(was, r))
  {
    var now := MergePrefixSizes(was, r);
    forall kind ensures Total(now, kind) >= SizeOf(kind) <==> Wanted(was, r, kind) < 0x1_0000 {
      MergedIs(was, r, kind);
    }
    forall kind ensures Wanted(was, r, kind) < 0x1_0000 ==> Total(now, kind) == Wanted(was, r, kind) {
      MergedIs(was, r, kind);
    }
    ValidatedIff(now);
    hide Wanted, SizeOf, MergePrefixSizes, ValidatePrefixSizes;
    assert now.data == if r.data.Some? then r.data.value else was.data by { DataMerged(was, r); }
  }

  lemma DataMerged(was: Sizes, r: Request)
    ensures MergePrefixSizes(was, r).data == if r.data.Some? then r.data.value else was.data
  {
  }

  /** The checks are what the receive path relies on. */
  lemma ValidatedIff(sizes: Sizes)
    ensures ValidatePrefixSizes(sizes) <==> Sound(sizes)
  {
    if ValidatePrefixSizes(sizes) {
      forall kind ensures Total(sizes, kind) >= SizeOf(kind) {}
      forall kind, other | Total(sizes, kind) == Total(sizes, other) ensures kind == other {}
    }
    if Sound(sizes) {
      assert Total(sizes, Initiation) >= SizeOf(Initiation);
      assert Total(sizes, Response) >= SizeOf(Response);
      assert Total(sizes, Cookie) >= SizeOf(Cookie);
    }
  }

  /** What AWG_IOCTL_GET reports of the sizes: prefixes, and only those there are. */
  function Reported(sizes: Sizes): Request
    requires Sound(sizes)
  {
    var prefix := (kind: Kind) requires Total(sizes, kind) >= SizeOf(kind) =>
      if Total(sizes, kind) > SizeOf(kind) then Some(Total(sizes, kind) - SizeOf(kind)) else None;
    Request(None, None, None, prefix(Initiation), prefix(Response), prefix(Cookie),
            if sizes.data != 0 then Some(sizes.data) else None, false, false, 0)
  }

  /** Setting what was reported gives a new device the same sizes, and changes nothing on the old one. */
  lemma ReportedIsRestored(sizes: Sizes)
    requires Sound(sizes)
    ensures MergePrefixSizes(Sizes(148, 92, 64, 0), Reported(sizes)) == sizes
    ensures MergePrefixSizes(sizes, Reported(sizes)) == sizes
  {
    assert Total(sizes, Initiation) >= SizeOf(Initiation) && Total(sizes, Response) >= SizeOf(Response) && Total(sizes, Cookie) >= SizeOf(Cookie);
  }

  // ---------------------------------------------------------------- the device

  class Device {
    var sizes: Sizes
    var junk: Junk

    constructor ()
      ensures Sound(sizes) && ValidateJunkPackets(junk)
      ensures sizes == Sizes(148, 92, 64, 0)
    {
      sizes := Sizes(SizeOf(Initiation), SizeOf(Response), SizeOf(Cookie), 0);
      junk := Junk(0, 0, 0);
      new;
      ValidatedIff(sizes);
    }

    /** The other parts of a request can fail on their own: the port and the key before the sizes are
        stored, the peers after. */
    method SetInterface(r: Request, listens: bool, keyed: bool, added: nat) returns (ok: bool)
      requires Sound(sizes) && ValidateJunkPackets(junk)
      modifies this
      ensures Sound(sizes) && ValidateJunkPackets(junk)
      ensures var asked := Possible(old(sizes), r) && ValidateJunkPackets(MergeJunkPackets(old(junk), r))
          && (r.listenPort ==> listens) && (r.privateKey ==> keyed);
        && ok == (asked && added >= r.peers)
        && (if asked then (forall kind :: Total(sizes, kind) == Wanted(old(sizes), r, kind))
                          && sizes.data == (if r.data.Some? then r.data.value else old(sizes.data))
                          && junk == MergeJunkPackets(old(junk), r)
            else sizes == old(sizes) && junk == old(junk))
    {
      AcceptedIff(sizes, r);
      DataMerged(sizes, r);
      hide Possible, Sound, Wanted, MergePrefixSizes, ValidatePrefixSizes;
      var proposedJunk := junk;
      var hasJunk := r.junkCount.Some? || r.junkMin.Some? || r.junkMax.Some?;
      if hasJunk {
        proposedJunk := MergeJunkPackets(junk, r);
        if !ValidateJunkPackets(proposedJunk) { return false; }
      }
      var proposedSizes := sizes;
      var hasSizes := r.initiation.Some? || r.response.Some? || r.cookie.Some? || r.data.Some?;
      if !hasSizes { NothingAsked(sizes, r); }
      if hasSizes {
        proposedSizes := MergePrefixSizes(sizes, r);
        if !ValidatePrefixSizes(proposedSizes) { return false; }
      }
      if r.listenPort && !listens { return false; }
      if r.privateKey && !keyed { return false; }
      if hasJunk { junk := proposedJunk; }
      if hasSizes { sizes := proposedSizes; }
      var i := 0;
      while i < r.peers
        invariant 0 <= i <= r.peers && i <= added
      {
        if i >= added { return false; }
        i := i + 1;
      }
      ok := true;
    }
  }

  lemma NothingAsked(was: Sizes, r: Request)
    requires r.initiation.None? && r.response.None? && r.cookie.None? && r.data.None?
    ensures MergePrefixSizes(was, r) == was
    ensures Sound(was) ==> Possible(was, r)
  {
    if Sound(was) { ValidatedIff(was); AcceptedIff(was, r); }
  }

  // ---------------------------------------------------------------- junk datagrams

  /** The length of a junk datagram for a 16-bit draw, in the driver's 32 and 16 bits. */
  function JunkLength(junk: Junk, draw: ushort): (len: ushort) {
    var range := (junk.max - junk.min + 1) % TWO32;
    (junk.min + (((draw * range) % TWO32) / 0x1_0000) % 0x1_0000) % 0x1_0000
  }

  /** Nothing wraps, and the length is in range. */
  lemma JunkInRange(junk: Junk, draw: ushort, range: nat)
    requires ValidateJunkPackets(junk) && range == junk.max - junk.min + 1
    ensures JunkLength(junk, draw) == junk.min + (draw * range) / 0x1_0000 <= junk.max
  {
    DivBound(draw, range);
    var product: nat := draw * range;
    Small(range);
    Small(product);
    Narrow(junk.min, product / 0x1_0000);
  }

  lemma Small(x: nat)
    requires x < TWO32
    ensures x % TWO32 == x
  {
  }

  lemma Narrow(min: nat, more: nat)
    requires min + more < 0x1_0000
    ensures (min + more % 0x1_0000) % 0x1_0000 == min + more
  {
  }

  lemma DivBound(draw: ushort, range: nat)
    requires 0 < range <= 0x1_0000
    ensures 0 <= draw * range < TWO32 && (draw * range) / 0x1_0000 < range
  {
    MulBound(draw, range, 0xFFFF, range);
  }

  /** Every length in the range is drawn by something. */
  lemma JunkReaches(junk: Junk, len: ushort) returns (draw: ushort)
    requires ValidateJunkPackets(junk) && junk.min <= len <= junk.max
    ensures JunkLength(junk, draw) == len
  {
    var range: nat, k: nat := junk.max - junk.min + 1, len - junk.min;
    var d: nat := (k * 0x1_0000 + range - 1) / range;
    Rounded(k, range, d);
    draw := d;
    JunkInRange(junk, draw, range);
    hide JunkLength;
  }

  lemma Rounded(k: nat, range: nat, d: nat)
    requires k < range <= 0x1_0000 && d == (k * 0x1_0000 + range - 1) / range
    ensures d < 0x1_0000 && (d * range) / 0x1_0000 == k
  {
    var x := k * 0x1_0000 + range - 1;
    assert d * range <= x < d * range + range;
    if d >= 0x1_0000 { MulBound(0x1_0000, range, d, range); }
    ModUnique(d * range, 0x1_0000, k, d * range - k * 0x1_0000);
  }
}
