/** Packets and their bytes: encoding and decoding undo each other, in both directions. */
module PacketHeader {
  import opened Transport
  import opened ByteOrder
  import opened PacketFlags

  const MAGIC := 0x4E4C
  const VERSION := 3

  datatype Header = Header(
    flags: Flags,
    src: nat,
    dst: nat,
    sq: nat,
    fragIndex: nat,
    fragCount: nat,
    tag: nat,
    totalLength: nat)
  {
    /** Data that is whole, or the fragment with index 0: only here the tag is on the wire. */
    predicate StartsMessage() { flags.kind == Data && (!flags.fragmented || fragIndex == 0) }

    predicate StartsFragmentedMessage() { flags.fragmented && fragIndex == 0 }

    /** Every field fits its width on the wire. */
    predicate Fits() {
      src < U32 && dst < U32 && sq < U64 && fragIndex < U16 && fragCount < U16 && tag < U32 && totalLength < U32
    }

    /** What a receiver sees: the fields that do not travel keep their initial zero. */
    function Canonical(): Header {
      Header(flags, src, dst, sq,
             if flags.fragmented then fragIndex else 0,
             if flags.fragmented then fragCount else 0,
             if StartsMessage() then tag else 0,
             if StartsFragmentedMessage() then totalLength else 0)
    }

    function EncodedSize(): nat {
      BASE_HEADER + (if flags.fragmented then 4 else 0) + (if StartsMessage() then 4 else 0)
      + (if StartsFragmentedMessage() then 4 else 0)
    }
  }

  datatype Packet = Packet(header: Header, body: seq<byte>)

  // --- Encoding ---------------------------------------------------------------

  function EncodeBase(h: Header): (out: seq<byte>)
    ensures |out| == BASE_HEADER
  {
    Write16(MAGIC) + [VERSION, Raw(h.flags)] + Write32(h.src) + Write32(h.dst) + Write64(h.sq)
  }

  function EncodeExtensions(h: Header): (out: seq<byte>)
    ensures |out| == h.EncodedSize() - BASE_HEADER
  {
    (if h.flags.fragmented then Write16(h.fragIndex) + Write16(h.fragCount) else [])
    + (if h.StartsMessage() then Write32(h.tag) else [])
    + (if h.StartsFragmentedMessage() then Write32(h.totalLength) else [])
  }

  function EncodePacket(p: Packet): (out: seq<byte>)
    ensures |out| == p.header.EncodedSize() + |p.body|
  {
    EncodeBase(p.header) + EncodeExtensions(p.header) + p.body
  }

  // --- Decoding ---------------------------------------------------------------

  function DecodeBase(d: seq<byte>): Option<Header> {
    if |d| < BASE_HEADER || Read16(d[..2]) != MAGIC || d[2] != VERSION then None
    else
      var flags := FromRaw(d[3]);
      if !IsValid(flags) || flags.kind == Beacon then None
      else
        var h := Header(flags, Read32(d[4..8]), Read32(d[8..12]), Read64(d[12..20]), 0, 0, 0, 0);
        if h.src == 0 || (flags.kind == Data && h.sq == 0) then None else Some(h)
  }

  /** The fragment fields that follow the base header. */
  function DecodeFragment(h: Header, d: seq<byte>): Option<Header>
    requires |d| >= BASE_HEADER
  {
    if !h.flags.fragmented then Some(h)
    else if |d| < BASE_HEADER + 4 then None
    else
      var g := h.(fragIndex := Read16(d[20..22]), fragCount := Read16(d[22..24]));
      if g.fragCount < 2 || g.fragCount > FragmentsOf(MaxMessageSize(g.flags.lane)) || g.fragIndex >= g.fragCount then None
      else if g.flags.last != (g.fragIndex + 1 == g.fragCount) then None
      else Some(g)
  }

  function DecodeTag(h: Header, d: seq<byte>, at: nat): Option<Header>
    requires at <= |d|
  {
    if !h.StartsMessage() then Some(h)
    else if |d| < at + 4 then None
    else Some(h.(tag := Read32(d[at..at + 4])))
  }

  function DecodeLength(h: Header, d: seq<byte>, at: nat): Option<Header>
    requires at <= |d|
  {
    if !h.StartsFragmentedMessage() then Some(h)
    else if |d| < at + 4 then None
    else
      var g := h.(totalLength := Read32(d[at..at + 4]));
      if g.totalLength > MaxMessageSize(g.flags.lane) || FragmentsOf(g.totalLength) != g.fragCount then None
      else Some(g)
  }

  /** Reads the fields that the flags announce; the rest of the datagram is the body. */
  function DecodeHeader(d: seq<byte>): Option<Packet> {
    var base := DecodeBase(d);
    if base.None? then None else
    var fragment := DecodeFragment(base.value, d);
    if fragment.None? then None else
    var at := BASE_HEADER + (if fragment.value.flags.fragmented then 4 else 0);
    var tagged := DecodeTag(fragment.value, d, at);
    if tagged.None? then None else
    var at' := at + (if tagged.value.StartsMessage() then 4 else 0);
    var whole := DecodeLength(tagged.value, d, at');
    if whole.None? then None else
    Some(Packet(whole.value, d[whole.value.EncodedSize()..]))
  }

  /** The lengths a body may have, by the kind and the place of the fragment. */
  predicate IsBodySizeValid(h: Header, size: nat) {
    match h.flags.kind
    case Data =>
      if !h.flags.fragmented then size <= MAX_FRAGMENT
      else if h.flags.last then 0 < size <= MAX_FRAGMENT
      else size == MAX_FRAGMENT
    case Ping => size == 0
    case Ack => true
    case Beacon => true
  }

  function DecodePacket(d: seq<byte>): Option<Packet> {
    if |d| > MAX_DATAGRAM then None
    else
      var p := DecodeHeader(d);
      if p.None? || !IsBodySizeValid(p.value.header, |p.value.body|) then None else p
  }

  // --- Round trips ------------------------------------------------------------

  /** What the decoder is to accept, said without it. */
  predicate WellFormed(p: Packet) {
    var h := p.header;
    && IsValid(h.flags) && h.flags.kind != Beacon
    && h.src != 0
    && (h.flags.kind == Data ==> h.sq != 0)
    && (h.flags.fragmented ==>
          && 2 <= h.fragCount <= FragmentsOf(MaxMessageSize(h.flags.lane))
          && h.fragIndex < h.fragCount
          && (h.flags.last <==> h.fragIndex + 1 == h.fragCount))
    && (h.StartsFragmentedMessage() ==>
          h.totalLength <= MaxMessageSize(h.flags.lane) && FragmentsOf(h.totalLength) == h.fragCount)
    && IsBodySizeValid(h, |p.body|)
    && h.EncodedSize() + |p.body| <= MAX_DATAGRAM
  }

  /** Where the fields of an encoded base header are. */
  lemma BaseFields(h: Header, rest: seq<byte>)
    requires h.Fits()
    ensures var d := EncodeBase(h) + rest;
            && Read16(d[..2]) == MAGIC && d[2] == VERSION && FromRaw(d[3]) == h.flags
            && Read32(d[4..8]) == h.src && Read32(d[8..12]) == h.dst && Read64(d[12..20]) == h.sq
  {
    var d := EncodeBase(h) + rest;
    assert d[..2] == Write16(MAGIC);
    assert d[4..8] == Write32(h.src);
    assert d[8..12] == Write32(h.dst);
    assert d[12..20] == Write64(h.sq);
    RoundTrip16(MAGIC);
    RawRoundTrip(h.flags);
    RoundTrip32(h.src);
    RoundTrip32(h.dst);
    RoundTrip64(h.sq);
  }

  lemma BaseRoundTrip(h: Header, rest: seq<byte>)
    requires h.Fits()
    requires IsValid(h.flags) && h.flags.kind != Beacon && h.src != 0 && (h.flags.kind == Data ==> h.sq != 0)
    ensures DecodeBase(EncodeBase(h) + rest) == Some(Header(h.flags, h.src, h.dst, h.sq, 0, 0, 0, 0))
  {
    BaseFields(h, rest);
  }

  lemma ExtensionFields(h: Header, body: seq<byte>)
    requires h.Fits()
    ensures var d := EncodePacket(Packet(h, body));
            && d[h.EncodedSize()..] == body
            && (h.flags.fragmented ==> Read16(d[20..22]) == h.fragIndex && Read16(d[22..24]) == h.fragCount)
            && var at := BASE_HEADER + (if h.flags.fragmented then 4 else 0);
            && (h.StartsMessage() ==> Read32(d[at..at + 4]) == h.tag)
            && var at' := at + (if h.StartsMessage() then 4 else 0);
            && (h.StartsFragmentedMessage() ==> Read32(d[at'..at' + 4]) == h.totalLength)
  {
    var d := EncodePacket(Packet(h, body));
    var at := BASE_HEADER + (if h.flags.fragmented then 4 else 0);
    var at' := at + (if h.StartsMessage() then 4 else 0);
    assert d[h.EncodedSize()..] == body;
    if h.flags.fragmented {
      assert d[20..22] == Write16(h.fragIndex);
      assert d[22..24] == Write16(h.fragCount);
      RoundTrip16(h.fragIndex);
      RoundTrip16(h.fragCount);
    }
    if h.StartsMessage() {
      assert d[at..at + 4] == Write32(h.tag);
      RoundTrip32(h.tag);
    }
    if h.StartsFragmentedMessage() {
      assert d[at'..at' + 4] == Write32(h.totalLength);
      RoundTrip32(h.totalLength);
    }
  }

  /** Everything well formed decodes to exactly what was sent, less the fields that do not travel. */
  lemma PacketRoundTrip(p: Packet)
    requires p.header.Fits() && WellFormed(p)
    ensures |EncodePacket(p)| <= MAX_DATAGRAM
    ensures DecodePacket(EncodePacket(p)) == Some(Packet(p.header.Canonical(), p.body))
  {
    HeaderRoundTrip(p);
    hide EncodePacket, DecodeHeader;
  }

  lemma HeaderRoundTrip(p: Packet)
    requires p.header.Fits() && WellFormed(p)
    ensures DecodeHeader(EncodePacket(p)) == Some(Packet(p.header.Canonical(), p.body))
  {
    var h, d := p.header, EncodePacket(p);
    assert d == EncodeBase(h) + (EncodeExtensions(h) + p.body);
    BaseRoundTrip(h, EncodeExtensions(h) + p.body);
    ExtensionFields(h, p.body);
    hide EncodePacket, DecodeBase, FragmentsOf, Read16, Read32, MaxMessageSize, IsValid;
    var base := DecodeBase(d).value;
    assert DecodeFragment(base, d) == Some(base.(fragIndex := h.Canonical().fragIndex, fragCount := h.Canonical().fragCount));
    var fragment := DecodeFragment(base, d).value;
    var at := BASE_HEADER + (if h.flags.fragmented then 4 else 0);
    assert DecodeTag(fragment, d, at) == Some(fragment.(tag := h.Canonical().tag));
    var at' := at + (if h.StartsMessage() then 4 else 0);
    assert DecodeLength(fragment.(tag := h.Canonical().tag), d, at') == Some(h.Canonical());
  }

  /** A decoded base header is the one those twenty bytes encode. */
  lemma BaseRewrite(d: seq<byte>)
    requires DecodeBase(d).Some?
    ensures var h := DecodeBase(d).value;
            h.Fits() && IsValid(h.flags) && h.flags.kind != Beacon && h.src != 0 && (h.flags.kind == Data ==> h.sq != 0)
            && EncodeBase(h) == d[..BASE_HEADER]
  {
    var h := DecodeBase(d).value;
    Rewrite16(d[..2]);
    FromRawRoundTrip(d[3]);
    Rewrite32(d[4..8]);
    Rewrite32(d[8..12]);
    Rewrite64(d[12..20]);
    assert d[..BASE_HEADER] == d[..2] + [d[2], d[3]] + d[4..8] + d[8..12] + d[12..20];
  }

  /** The decoded extensions are the ones the bytes after the base header encode. */
  lemma ExtensionRewrite(d: seq<byte>, base: Header)
    requires DecodeBase(d) == Some(base) && base.Fits() && DecodeHeader(d).Some?
    ensures var h := DecodeHeader(d).value.header;
            && h.Fits() && h.EncodedSize() <= |d|
            && EncodeExtensions(h) == d[BASE_HEADER..h.EncodedSize()]
  {
    var fragment := DecodeFragment(base, d).value;
    var at := BASE_HEADER + (if fragment.flags.fragmented then 4 else 0);
    var e0 := if fragment.flags.fragmented then Write16(fragment.fragIndex) + Write16(fragment.fragCount) else [];
    assert e0 == d[BASE_HEADER..at] by {
      if fragment.flags.fragmented {
        Rewrite16(d[20..22]);
        Rewrite16(d[22..24]);
      }
    }
    var tagged := DecodeTag(fragment, d, at).value;
    var at' := at + (if tagged.StartsMessage() then 4 else 0);
    var e1 := if tagged.StartsMessage() then Write32(tagged.tag) else [];
    assert e1 == d[at..at'] by {
      if tagged.StartsMessage() { Rewrite32(d[at..at + 4]); }
    }
    var whole := DecodeLength(tagged, d, at').value;
    var end := at' + (if whole.StartsFragmentedMessage() then 4 else 0);
    var e2 := if whole.StartsFragmentedMessage() then Write32(whole.totalLength) else [];
    assert e2 == d[at'..end] by {
      if whole.StartsFragmentedMessage() { Rewrite32(d[at'..at' + 4]); }
    }
    assert DecodeHeader(d).value.header == whole && end == whole.EncodedSize();
    assert EncodeExtensions(whole) == e0 + e1 + e2;
    Pieces(d, BASE_HEADER, at, at', end);
  }

  lemma Pieces(d: seq<byte>, a: nat, b: nat, c: nat, e: nat)
    requires a <= b <= c <= e <= |d|
    ensures d[a..e] == d[a..b] + d[b..c] + d[c..e]
  {
  }

  /** Re-encoding any datagram the decoder accepts gives the same bytes. */
  lemma PacketRewrite(d: seq<byte>)
    requires DecodePacket(d).Some?
    ensures var p := DecodePacket(d).value;
            p.header.Fits() && WellFormed(p) && p.header == p.header.Canonical() && EncodePacket(p) == d
  {
    BaseRewrite(d);
    var base := DecodeBase(d).value;
    ExtensionRewrite(d, base);
    var p := DecodePacket(d).value;
    SameBase(d, base);
    var end := p.header.EncodedSize();
    hide EncodeBase, EncodeExtensions, DecodeBase;
    Pieces(d, 0, BASE_HEADER, end, |d|);
    assert d[0..|d|] == d && d[0..BASE_HEADER] == d[..BASE_HEADER] && d[end..|d|] == d[end..];
  }

  lemma SameBase(d: seq<byte>, base: Header)
    requires DecodeBase(d) == Some(base) && DecodeHeader(d).Some?
    ensures EncodeBase(DecodeHeader(d).value.header) == EncodeBase(base)
  {
    hide DecodeBase, Write16, Write32, Write64, Read16, Read32;
  }

  // --- The encoder as the source writes it: into a buffer -----------------------

  /** Behind what was written so far. */
  method Append(out: array<byte>, at: nat, bytes: seq<byte>)
    requires at + |bytes| <= out.Length
    modifies out
    ensures out[..at + |bytes|] == old(out[..at]) + bytes
    ensures out[at + |bytes|..] == old(out[at + |bytes|..])
  {
    for i := 0 to |bytes|
      invariant out[..at] == old(out[..at])
      invariant out[at..at + i] == bytes[..i]
      invariant out[at + |bytes|..] == old(out[at + |bytes|..])
    {
      out[at + i] := bytes[i];
    }
    assert out[..at + |bytes|] == out[..at] + out[at..at + |bytes|];
  }

  /** What is left alone behind a place is left alone behind a later one. */
  lemma RestStays(a: seq<byte>, b: seq<byte>, at: nat, later: nat)
    requires |a| == |b| && at <= later <= |a| && a[at..] == b[at..]
    ensures a[later..] == b[later..]
  {
    assert a[later..] == a[at..][later - at..] && b[later..] == b[at..][later - at..];
  }

  method AppendIf(condition: bool, out: array<byte>, at: nat, bytes: seq<byte>, ghost before: seq<byte>) returns (end: nat)
    requires at + |bytes| <= out.Length == |before| && out[at..] == before[at..]
    modifies out
    ensures end == (if condition then at + |bytes| else at)
    ensures out[..end] == old(out[..at]) + (if condition then bytes else [])
    ensures out[end..] == before[end..]
  {
    end := at;
    if condition {
      RestStays(out[..], before, at, at + |bytes|);
      Append(out, at, bytes);
      end := at + |bytes|;
    }
  }

  /** Writes the header into the buffer and returns its size: the bytes are the encoding, the rest is left alone. */
  method EncodeHeader(h: Header, out: array<byte>) returns (size: nat)
    requires out.Length >= MAX_HEADER
    modifies out
    ensures size == h.EncodedSize() <= MAX_HEADER
    ensures out[..size] == EncodeBase(h) + EncodeExtensions(h)
    ensures out[size..] == old(out[size..])
  {
    hide EncodeBase, Write16, Write32;
    ghost var before := out[..];
    Append(out, 0, EncodeBase(h));
    size := AppendIf(h.flags.fragmented, out, BASE_HEADER, Write16(h.fragIndex) + Write16(h.fragCount), before);
    size := AppendIf(h.StartsMessage(), out, size, Write32(h.tag), before);
    size := AppendIf(h.StartsFragmentedMessage(), out, size, Write32(h.totalLength), before);
  }
}
