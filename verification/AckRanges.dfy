/** Sets of seqs as ranges, the fewest possible, and the Ack bodies they travel in. */
module AckRanges {
  import opened Transport
  import opened ByteOrder

  const ACK_FIELDS := 8
  const RANGE_SIZE := 10
  const MAX_ACK_RANGES := 117

  datatype SeqRange = SeqRange(first: nat, count: nat) {
    function Last(): int { first + count - 1 }

    predicate Holds(q: nat) { first <= q <= Last() }

    /** Not empty, from 1 on and without wrapping around. */
    predicate Proper() { 1 <= count < U16 && 1 <= first && first + count - 1 < U64 }
  }

  predicate AllProper(ranges: seq<SeqRange>) {
    forall i :: 0 <= i < |ranges| ==> ranges[i].Proper()
  }

  datatype AckBody = AckBody(serial: nat, mediaReceived: nat, ranges: seq<SeqRange>)

  predicate Covered(ranges: seq<SeqRange>, q: nat) {
    exists i :: 0 <= i < |ranges| && ranges[i].Holds(q)
  }

  // --- Wire form --------------------------------------------------------------

  function EncodeRanges(ranges: seq<SeqRange>): (out: seq<byte>)
    ensures |out| == RANGE_SIZE * |ranges|
  {
    if ranges == [] then []
    else Write64(ranges[0].first) + Write16(ranges[0].count) + EncodeRanges(ranges[1..])
  }

  /** The two counters, then the leading ranges up to the limit. */
  function EncodeAck(ack: AckBody, maxRanges: nat): (out: seq<byte>)
    ensures |out| <= ACK_FIELDS + RANGE_SIZE * maxRanges
  {
    Write32(ack.serial) + Write32(ack.mediaReceived) + EncodeRanges(ack.ranges[..Min(|ack.ranges|, maxRanges)])
  }

  function DecodeRanges(s: seq<byte>): Option<seq<SeqRange>>
    requires |s| % RANGE_SIZE == 0
  {
    if s == [] then Some([])
    else
      var r := SeqRange(Read64(s[..8]), Read16(s[8..10]));
      if !r.Proper() then None
      else
        var rest := DecodeRanges(s[10..]);
        if rest.None? then None else Some([r] + rest.value)
  }

  /** Fails on a length that leaves a partial range over, and on ranges that are not proper. */
  function DecodeAck(s: seq<byte>): Option<AckBody> {
    if |s| < ACK_FIELDS || (|s| - ACK_FIELDS) % RANGE_SIZE != 0 then None
    else
      var ranges := DecodeRanges(s[8..]);
      if ranges.None? then None else Some(AckBody(Read32(s[..4]), Read32(s[4..8]), ranges.value))
  }

  lemma {:induction false} RangesRoundTrip(ranges: seq<SeqRange>)
    requires AllProper(ranges)
    ensures DecodeRanges(EncodeRanges(ranges)) == Some(ranges)
  {
    if ranges != [] {
      var s := EncodeRanges(ranges);
      assert s[..8] == Write64(ranges[0].first) && s[8..10] == Write16(ranges[0].count);
      assert s[10..] == EncodeRanges(ranges[1..]);
      RoundTrip64(ranges[0].first);
      RoundTrip16(ranges[0].count);
      RangesRoundTrip(ranges[1..]);
      assert ranges == [ranges[0]] + ranges[1..];
    }
  }

  /** A body read back is the one written, cut to the ranges that fit. */
  lemma AckRoundTrip(ack: AckBody, maxRanges: nat)
    requires ack.serial < U32 && ack.mediaReceived < U32
    requires AllProper(ack.ranges)
    ensures DecodeAck(EncodeAck(ack, maxRanges)) == Some(ack.(ranges := ack.ranges[..Min(|ack.ranges|, maxRanges)]))
  {
    var kept := ack.ranges[..Min(|ack.ranges|, maxRanges)];
    var s := EncodeAck(ack, maxRanges);
    assert s[..4] == Write32(ack.serial) && s[4..8] == Write32(ack.mediaReceived);
    assert s[8..] == EncodeRanges(kept);
    RoundTrip32(ack.serial);
    RoundTrip32(ack.mediaReceived);
    RangesRoundTrip(kept);
  }

  /** Everything the decoder accepts encodes back to the same bytes. */
  lemma {:induction false} RangesRewrite(s: seq<byte>)
    requires |s| % RANGE_SIZE == 0 && DecodeRanges(s).Some?
    ensures AllProper(DecodeRanges(s).value) && EncodeRanges(DecodeRanges(s).value) == s
  {
    if s != [] {
      RangesRewrite(s[10..]);
      Rewrite64(s[..8]);
      Rewrite16(s[8..10]);
      var ranges := DecodeRanges(s).value;
      assert ranges[1..] == DecodeRanges(s[10..]).value;
      assert s == s[..8] + s[8..10] + s[10..];
    }
  }

  // --- From seqs to ranges ------------------------------------------------------

  predicate Ascending(s: seq<nat>) {
    forall i, j :: 0 <= i < j < |s| ==> s[i] < s[j]
  }

  ghost function Elements(s: seq<nat>): set<nat> { set q | q in s }

  /** The elements of a set below a bound, in ascending order. */
  function Below(S: set<nat>, bound: nat): (s: seq<nat>)
    ensures Ascending(s) && (forall q :: q in s <==> q in S && q < bound)
  {
    if bound == 0 then []
    else if bound - 1 in S then
      var lower := Below(S, bound - 1);
      assert forall i :: 0 <= i < |lower| ==> lower[i] in lower;
      lower + [bound - 1]
    else Below(S, bound - 1)
  }

  /** One more seq, not below any before it. */
  function Extend(ranges: seq<SeqRange>, q: nat): seq<SeqRange> {
    if ranges != [] && q <= ranges[|ranges| - 1].Last() then ranges
    else if ranges != [] && q == ranges[|ranges| - 1].Last() + 1 && ranges[|ranges| - 1].count < U16 - 1 then
      var r := ranges[|ranges| - 1];
      ranges[..|ranges| - 1] + [r.(count := r.count + 1)]
    else ranges + [SeqRange(q, 1)]
  }

  function RangesOf(s: seq<nat>): seq<SeqRange> {
    if s == [] then [] else Extend(RangesOf(s[..|s| - 1]), s[|s| - 1])
  }

  /** Ascending, no two of them touching unless the earlier one is as long as a range can be. */
  predicate Normal(ranges: seq<SeqRange>) {
    && (forall i :: 0 <= i < |ranges| ==> 1 <= ranges[i].count < U16)
    && (forall i, j :: 0 <= i < j < |ranges| ==> ranges[i].Last() < ranges[j].first)
    && (forall i, j :: 0 <= i < j < |ranges| && ranges[i].Last() + 1 == ranges[j].first ==> ranges[i].count == U16 - 1)
  }

  lemma ExtendCovers(ranges: seq<SeqRange>, q: nat, x: nat)
    requires Normal(ranges)
    requires ranges != [] ==> ranges[|ranges| - 1].Last() < q
    ensures Covered(Extend(ranges, q), x) <==> Covered(ranges, x) || x == q
  {
    var r, n := Extend(ranges, q), |ranges|;
    assert r[|r| - 1].Holds(q);
    if Covered(ranges, x) {
      var i :| 0 <= i < n && ranges[i].Holds(x);
      assert r[i].Holds(x);
    }
    if Covered(r, x) && x != q {
      var i :| 0 <= i < |r| && r[i].Holds(x);
      assert i < n && ranges[i].Holds(x);
    }
  }

  lemma LengthenedNormal(ranges: seq<SeqRange>)
    requires Normal(ranges) && ranges != [] && ranges[|ranges| - 1].count < U16 - 1
    ensures var last := ranges[|ranges| - 1]; Normal(ranges[..|ranges| - 1] + [last.(count := last.count + 1)])
  {
  }

  lemma AppendedNormal(ranges: seq<SeqRange>, q: nat)
    requires Normal(ranges)
    requires ranges != [] ==> ranges[|ranges| - 1].Last() < q
    requires ranges != [] && ranges[|ranges| - 1].Last() + 1 == q ==> ranges[|ranges| - 1].count == U16 - 1
    ensures Normal(ranges + [SeqRange(q, 1)])
  {
    var n := |ranges|;
    forall i | 0 <= i < n - 1
      ensures ranges[i].Last() + 1 < q
    {
      assert ranges[i].Last() < ranges[n - 1].first;
    }
  }

  lemma ExtendKeeps(ranges: seq<SeqRange>, q: nat)
    requires Normal(ranges)
    requires ranges != [] ==> ranges[|ranges| - 1].Last() < q
    ensures var r := Extend(ranges, q); Normal(r) && r != [] && r[|r| - 1].Last() == q
  {
    var n := |ranges|;
    assert n > 0 ==> ranges[n - 1].count < U16;
    hide Normal;
    if n > 0 && q == ranges[n - 1].Last() + 1 && ranges[n - 1].count < U16 - 1 {
      LengthenedNormal(ranges);
    } else {
      AppendedNormal(ranges, q);
    }
  }

  lemma {:induction false} RangesNormal(s: seq<nat>)
    requires Ascending(s)
    ensures var r := RangesOf(s);
            Normal(r) && (s != [] <==> r != []) && (s != [] ==> r[|r| - 1].Last() == s[|s| - 1])
  {
    if s != [] {
      var n := |s| - 1;
      RangesNormal(s[..n]);
      ExtendKeeps(RangesOf(s[..n]), s[n]);
    }
  }

  /** The ranges name exactly the seqs. */
  lemma {:induction false} RangesCover(s: seq<nat>, q: nat)
    requires Ascending(s)
    ensures Covered(RangesOf(s), q) <==> q in s
  {
    if s != [] {
      var n := |s| - 1;
      RangesNormal(s[..n]);
      RangesCover(s[..n], q);
      ExtendCovers(RangesOf(s[..n]), s[n], q);
      assert s == s[..n] + [s[n]];
    }
  }

  /** Ranges of seqs are proper. */
  lemma RangesProper(s: seq<nat>)
    requires Ascending(s) && forall q :: q in s ==> 1 <= q < U64
    ensures AllProper(RangesOf(s))
  {
    RangesNormal(s);
    var ranges := RangesOf(s);
    forall i | 0 <= i < |ranges|
      ensures ranges[i].Proper()
    {
      var r := ranges[i];
      assert ranges[i].Holds(r.first) && ranges[i].Holds(r.Last());
      RangesCover(s, r.first);
      RangesCover(s, r.Last());
    }
  }

  /** A range within the set that holds the first seq of a normal range does not reach beyond that range. */
  lemma StaysWithin(ranges: seq<SeqRange>, r: SeqRange, i: nat)
    requires Normal(ranges) && i < |ranges|
    requires 1 <= r.count < U16
    requires forall q: nat :: r.Holds(q) ==> Covered(ranges, q)
    requires r.Holds(ranges[i].first)
    ensures r.Last() <= ranges[i].Last()
  {
    var q := ranges[i].Last() + 1;
    assert r.Holds(q) ==> Covered(ranges, q);
  }

  lemma DistinctBounded(picks: seq<nat>, bound: nat)
    requires forall i :: 0 <= i < |picks| ==> picks[i] < bound
    requires forall i, j :: 0 <= i < j < |picks| ==> picks[i] != picks[j]
    ensures |picks| <= bound
  {
    if |picks| > 0 {
      assert picks[0] < bound;
      // Take the largest value out of the picks, wherever it stands
      if exists i :: 0 <= i < |picks| && picks[i] == bound - 1 {
        var i :| 0 <= i < |picks| && picks[i] == bound - 1;
        DistinctBounded(picks[..i] + picks[i + 1..], bound - 1);
      } else {
        DistinctBounded(picks, bound - 1);
      }
    }
  }

  /** No list of ranges that covers the same seqs is shorter. */
  lemma FewestRanges(s: seq<nat>, cover: seq<SeqRange>)
    requires Ascending(s)
    requires forall i :: 0 <= i < |cover| ==> 1 <= cover[i].count < U16
    requires forall q: nat :: Covered(cover, q) <==> q in s
    ensures |RangesOf(s)| <= |cover|
  {
    RangesNormal(s);
    var ranges := RangesOf(s);
    forall q: nat
      ensures Covered(ranges, q) <==> q in s
    {
      RangesCover(s, q);
    }
    forall i | 0 <= i < |ranges|
      ensures Covered(cover, ranges[i].first)
    {
      assert ranges[i].Holds(ranges[i].first);
      assert Covered(ranges, ranges[i].first);
    }
    var picks := Picks(ranges, cover);
    forall i, j | 0 <= i < j < |picks|
      ensures picks[i] != picks[j]
    {
      var r := cover[picks[i]];
      forall q: nat | r.Holds(q)
        ensures Covered(ranges, q)
      {
        assert Covered(cover, q);
      }
      StaysWithin(ranges, r, i);
      assert ranges[i].Last() < ranges[j].first;
    }
    DistinctBounded(picks, |cover|);
  }

  /** For every range, one of the cover that holds its first seq. */
  ghost function Picks(ranges: seq<SeqRange>, cover: seq<SeqRange>): (picks: seq<nat>)
    requires forall i :: 0 <= i < |ranges| ==> Covered(cover, ranges[i].first)
    ensures |picks| == |ranges|
    ensures forall i :: 0 <= i < |ranges| ==> picks[i] < |cover| && cover[picks[i]].Holds(ranges[i].first)
  {
    if ranges == [] then []
    else
      var n := |ranges| - 1;
      assert Covered(cover, ranges[n].first);
      var k :| 0 <= k < |cover| && cover[k].Holds(ranges[n].first);
      Picks(ranges[..n], cover) + [k]
  }

  predicate NotDescending(s: seq<nat>) {
    forall i, j :: 0 <= i <= j < |s| ==> s[i] <= s[j]
  }

  /** Where a seq belongs among sorted ones: behind everything that is not greater. */
  function PlaceOf(s: seq<nat>, q: nat): (at: nat)
    requires NotDescending(s)
    ensures at <= |s|
    ensures (forall i :: 0 <= i < at ==> s[i] <= q) && (forall i :: at <= i < |s| ==> q < s[i])
  {
    if s == [] || s[|s| - 1] <= q then |s| else PlaceOf(s[..|s| - 1], q)
  }

  function Place(s: seq<nat>, q: nat): (r: seq<nat>)
    requires NotDescending(s)
    ensures NotDescending(r)
  {
    s[..PlaceOf(s, q)] + [q] + s[PlaceOf(s, q)..]
  }

  lemma PlaceElements(s: seq<nat>, q: nat)
    requires NotDescending(s)
    ensures Elements(Place(s, q)) == Elements(s) + {q}
  {
    var at := PlaceOf(s, q);
    assert Elements(s) == Elements(s[..at]) + Elements(s[at..]) by { assert s == s[..at] + s[at..]; }
  }

  /** std::sort, for which any sorting of the seqs would do. */
  method Sort(seqs: seq<nat>) returns (sorted: seq<nat>)
    ensures NotDescending(sorted) && Elements(sorted) == Elements(seqs)
  {
    sorted := [];
    for i := 0 to |seqs|
      invariant NotDescending(sorted) && Elements(sorted) == Elements(seqs[..i])
    {
      PlaceElements(sorted, seqs[i]);
      sorted := Place(sorted, seqs[i]);
      assert Elements(seqs[..i + 1]) == Elements(seqs[..i]) + {seqs[i]};
    }
    assert seqs[..|seqs|] == seqs;
  }

  lemma InitOf(s: seq<nat>, q: nat)
    requires Ascending(s) && s != []
    ensures Ascending(s[..|s| - 1])
    ensures q in s ==> q <= s[|s| - 1]
    ensures q in s[..|s| - 1] <==> q in s && q != s[|s| - 1]
  {
    assert s == s[..|s| - 1] + [s[|s| - 1]];
  }

  /** Ascending seqs are determined by the set they form. */
  lemma {:induction false} AscendingIsUnique(s: seq<nat>, S: set<nat>, bound: nat)
    requires Ascending(s) && (forall q :: q in s <==> q in S && q < bound)
    ensures s == Below(S, bound)
  {
    hide Ascending;
    assert s == [] || s[0] in s;
    if bound == 0 {
    } else if bound - 1 in S {
      var n := |s| - 1;
      assert bound - 1 in s && s[n] in s;
      InitOf(s, bound - 1);
      assert s == s[..n] + [s[n]];
      forall q: nat ensures q in s[..n] <==> q in S && q < bound - 1 { InitOf(s, q); }
      AscendingIsUnique(s[..n], S, bound - 1);
    } else {
      AscendingIsUnique(s, S, bound - 1);
    }
  }

  function Dedup(s: seq<nat>): seq<nat> {
    if |s| < 2 then s
    else if s[|s| - 2] == s[|s| - 1] then Dedup(s[..|s| - 1])
    else Dedup(s[..|s| - 1]) + [s[|s| - 1]]
  }

  lemma {:induction false} DedupAscends(s: seq<nat>)
    requires NotDescending(s)
    ensures var d := Dedup(s); Ascending(d) && (s != [] ==> d != [] && d[|d| - 1] == s[|s| - 1])
  {
    if |s| >= 2 {
      DedupAscends(s[..|s| - 1]);
    }
  }

  lemma {:induction false} DedupMembers(s: seq<nat>, q: nat)
    ensures q in Dedup(s) <==> q in s
  {
    if |s| >= 2 {
      DedupMembers(s[..|s| - 1], q);
      assert s == s[..|s| - 1] + [s[|s| - 1]];
    }
  }

  lemma RangesMore(s: seq<nat>, q: nat)
    ensures RangesOf(s + [q]) == Extend(RangesOf(s), q)
  {
    assert (s + [q])[..|s|] == s;
  }

  /** Duplicates make no difference to the ranges. */
  lemma {:induction false} DedupRanges(s: seq<nat>)
    requires NotDescending(s)
    ensures RangesOf(Dedup(s)) == RangesOf(s)
  {
    hide NotDescending, Ascending, Normal, RangesOf;
    if |s| >= 2 {
      var init, q := s[..|s| - 1], s[|s| - 1];
      assert s == init + [q];
      InitNotDescending(s);
      DedupRanges(init);
      DedupAscends(init);
      RangesNormal(Dedup(init));
      RangesMore(init, q);
      RangesMore(Dedup(init), q);
    }
  }

  lemma InitNotDescending(s: seq<nat>)
    requires NotDescending(s) && |s| >= 2
    ensures NotDescending(s[..|s| - 1])
  {
  }

  /** What the loop over the sorted seqs gives is what the set they form gives. */
  lemma SortedRanges(seqs: seq<nat>, sorted: seq<nat>, bound: nat)
    requires forall q :: q in seqs ==> q < bound
    requires NotDescending(sorted) && Elements(sorted) == Elements(seqs)
    ensures RangesOf(sorted) == RangesOf(Below(Elements(seqs), bound))
  {
    hide NotDescending, Ascending, RangesOf, Dedup, Below;
    DedupRanges(sorted);
    DedupAscends(sorted);
    forall q: nat
      ensures q in Dedup(sorted) <==> q in Elements(seqs) && q < bound
    {
      DedupMembers(sorted, q);
      assert q in sorted <==> q in Elements(sorted);
    }
    AscendingIsUnique(Dedup(sorted), Elements(seqs), bound);
  }

  lemma NoRanges()
    ensures RangesOf([]) == []
  {
  }

  method ExtendBy(ranges: seq<SeqRange>, q: nat) returns (r: seq<SeqRange>)
    ensures r == Extend(ranges, q)
  {
    if ranges != [] && q <= ranges[|ranges| - 1].Last() {
      return ranges; // a duplicate
    }
    if ranges != [] && q == ranges[|ranges| - 1].Last() + 1 && ranges[|ranges| - 1].count < U16 - 1 {
      var back := ranges[|ranges| - 1];
      r := ranges[..|ranges| - 1] + [back.(count := back.count + 1)];
    } else {
      r := ranges + [SeqRange(q, 1)];
    }
  }

  /** The seqs as ranges: those of the set they form, in whatever order and however often they were given. */
  method ToRanges(seqs: seq<nat>, ghost bound: nat) returns (ranges: seq<SeqRange>)
    requires forall q :: q in seqs ==> q < bound
    ensures ranges == RangesOf(Below(Elements(seqs), bound))
  {
    var sorted := seqs;
    if !NotDescending(seqs) {
      sorted := Sort(seqs);
    }
    SortedRanges(seqs, sorted, bound);
    hide NotDescending, Below, Extend, RangesOf;
    assert RangesOf([]) == [] by { NoRanges(); }
    ranges := [];
    for i := 0 to |sorted|
      invariant ranges == RangesOf(sorted[..i])
    {
      assert sorted[..i + 1] == sorted[..i] + [sorted[i]];
      RangesMore(sorted[..i], sorted[i]);
      ranges := ExtendBy(ranges, sorted[i]);
    }
    assert sorted[..|sorted|] == sorted;
  }
}
