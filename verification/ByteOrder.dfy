/** Big-endian numbers of the wire format. */
module ByteOrder {
  import opened Transport

  // Writing keeps the low bytes of a number, like the fixed-width types of the source

  function Write16(v: nat): (out: seq<byte>)
    ensures |out| == 2
  {
    [v / 256 % 256, v % 256]
  }

  function Read16(s: seq<byte>): (v: nat)
    requires |s| == 2
    ensures v < U16
  {
    (s[0] as int) * 256 + s[1]
  }

  function Write32(v: nat): (out: seq<byte>)
    ensures |out| == 4
  {
    Write16(v / U16) + Write16(v % U16)
  }

  function Read32(s: seq<byte>): (v: nat)
    requires |s| == 4
    ensures v < U32
  {
    Read16(s[..2]) * U16 + Read16(s[2..])
  }

  function Write64(v: nat): (out: seq<byte>)
    ensures |out| == 8
  {
    Write32(v / U32) + Write32(v % U32)
  }

  function Read64(s: seq<byte>): (v: nat)
    requires |s| == 8
    ensures v < U64
  {
    Read32(s[..4]) * U32 + Read32(s[4..])
  }

  lemma RoundTrip16(v: nat)
    requires v < U16
    ensures Read16(Write16(v)) == v
  {
  }

  /** What is written is read back. */
  lemma RoundTrip32(v: nat)
    requires v < U32
    ensures Read32(Write32(v)) == v
  {
    var w := Write32(v);
    assert w[..2] == Write16(v / U16) && w[2..] == Write16(v % U16);
    RoundTrip16(v / U16);
    RoundTrip16(v % U16);
  }

  lemma RoundTrip64(v: nat)
    requires v < U64
    ensures Read64(Write64(v)) == v
  {
    var w := Write64(v);
    assert w[..4] == Write32(v / U32) && w[4..] == Write32(v % U32);
    RoundTrip32(v / U32);
    RoundTrip32(v % U32);
  }

  lemma Rewrite16(s: seq<byte>)
    requires |s| == 2
    ensures Write16(Read16(s)) == s
  {
  }

  /** What is read is written back: no two byte strings stand for one number. */
  lemma Rewrite32(s: seq<byte>)
    requires |s| == 4
    ensures Write32(Read32(s)) == s
  {
    var hi, lo := Read16(s[..2]), Read16(s[2..]);
    assert Read32(s) / U16 == hi && Read32(s) % U16 == lo;
    Rewrite16(s[..2]);
    Rewrite16(s[2..]);
    assert s == s[..2] + s[2..];
  }

  lemma Rewrite64(s: seq<byte>)
    requires |s| == 8
    ensures Write64(Read64(s)) == s
  {
    var hi, lo := Read32(s[..4]), Read32(s[4..]);
    assert Read64(s) / U32 == hi && Read64(s) % U32 == lo;
    Rewrite32(s[..4]);
    Rewrite32(s[4..]);
    assert s == s[..4] + s[4..];
  }
}
