/** The flags byte of a packet: kind in bits 0-1, lane in bits 2-3, then fragmented, last fragment, paused, encrypted. */
module PacketFlags {
  import opened Transport

  datatype Kind = Data | Ack | Ping | Beacon

  datatype Flags = Flags(kind: Kind, lane: Lane, fragmented: bool, last: bool, paused: bool, encrypted: bool)

  function DataFlags(lane: Lane): Flags { Flags(Data, lane, false, false, false, false) }

  function AckFlags(lane: Lane, paused: bool): Flags { Flags(Ack, lane, false, false, paused, false) }

  function PingFlags(lane: Lane): Flags { Flags(Ping, lane, false, false, false, false) }

  function SetFragment(f: Flags, fragmented: bool, last: bool): Flags {
    f.(fragmented := fragmented, last := fragmented && last)
  }

  function KindBits(k: Kind): nat { match k case Data => 0 case Ack => 1 case Ping => 2 case Beacon => 3 }

  function LaneBits(l: Lane): nat { match l case Control => 0 case Reliable => 1 case Bulk => 2 case Media => 3 }

  function Bit(on: bool): nat { if on then 1 else 0 }

  function Raw(f: Flags): byte {
    KindBits(f.kind) + 4 * LaneBits(f.lane) + 16 * Bit(f.fragmented) + 32 * Bit(f.last) + 64 * Bit(f.paused)
    + 128 * Bit(f.encrypted)
  }

  function FromRaw(raw: byte): Flags {
    var kind := if raw % 4 == 0 then Data else if raw % 4 == 1 then Ack else if raw % 4 == 2 then Ping else Beacon;
    var bits := raw / 4 % 4;
    var lane := if bits == 0 then Control else if bits == 1 then Reliable else if bits == 2 then Bulk else Media;
    Flags(kind, lane, raw / 16 % 2 == 1, raw / 32 % 2 == 1, raw / 64 % 2 == 1, raw / 128 == 1)
  }

  /** The combinations that mean something; the decoder drops everything else. */
  predicate IsValid(f: Flags) {
    && !f.encrypted
    && (f.last ==> f.fragmented)
    && (f.fragmented ==> f.kind == Data)
    && (f.paused ==> f.kind == Ack)
    && (f.kind == Ack || f.kind == Ping ==> f.lane != Media)
    && (f.kind == Beacon ==> f.lane == Control && !f.fragmented && !f.last && !f.paused)
  }

  /** The packing is a bijection between flags and bytes: one direction, field by field ... */
  lemma RawRoundTrip(f: Flags)
    ensures FromRaw(Raw(f)) == f
  {
    var k, l := KindBits(f.kind), LaneBits(f.lane);
    var rest := Bit(f.fragmented) + 2 * Bit(f.last) + 4 * Bit(f.paused) + 8 * Bit(f.encrypted);
    Unpacked(Raw(f), k, l, rest);
    UnpackedBits(Bit(f.fragmented), Bit(f.last), Bit(f.paused), Bit(f.encrypted));
  }

  lemma Unpacked(raw: int, k: int, l: int, rest: int)
    requires 0 <= k < 4 && 0 <= l < 4 && 0 <= rest < 16 && raw == k + 4 * l + 16 * rest
    ensures raw % 4 == k && raw / 4 % 4 == l && raw / 16 == rest
    ensures raw / 32 == rest / 2 && raw / 64 == rest / 4 && raw / 128 == rest / 8
  {
  }

  lemma UnpackedBits(a: int, b: int, c: int, d: int)
    requires 0 <= a < 2 && 0 <= b < 2 && 0 <= c < 2 && 0 <= d < 2
    ensures var rest := a + 2 * b + 4 * c + 8 * d;
      rest % 2 == a && rest / 2 % 2 == b && rest / 4 % 2 == c && rest / 8 == d
  {
  }

  lemma Nibbles(raw: int)
    requires 0 <= raw < 256
    ensures raw == raw % 4 + 4 * (raw / 4 % 4) + 16 * (raw / 16) && 0 <= raw / 16 < 16
    ensures raw / 32 == raw / 16 / 2 && raw / 64 == raw / 16 / 4 && raw / 128 == raw / 16 / 8
  {
  }

  lemma NibbleBits(q: int)
    requires 0 <= q < 16
    ensures q == q % 2 + 2 * (q / 2 % 2) + 4 * (q / 4 % 2) + 8 * (q / 8) && 0 <= q / 8 < 2
  {
  }

  lemma FieldBits(raw: byte)
    ensures var f := FromRaw(raw);
      && KindBits(f.kind) == raw % 4 && LaneBits(f.lane) == raw / 4 % 4
      && Bit(f.fragmented) == raw / 16 % 2 && Bit(f.last) == raw / 32 % 2 && Bit(f.paused) == raw / 64 % 2
      && f.encrypted == (raw / 128 == 1)
  {
  }

  /** ... and back: a byte is the sum of its fields. */
  lemma FromRawRoundTrip(raw: byte)
    ensures Raw(FromRaw(raw)) == raw
  {
    FieldBits(raw);
    Nibbles(raw);
    NibbleBits(raw / 16);
    hide FromRaw;
  }
}
