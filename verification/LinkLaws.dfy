/** What every operation of a link does, in terms of its fields alone. */
module LinkLaws {
  import opened Transport
  import opened AckRanges
  import opened PacketFlags
  import opened PacketHeader
  import opened SequenceBuffer
  import opened Fragments
  import opened MessageAssembler
  import opened MediaAssembler
  import opened RttEstimator
  import opened LinkModel
  import opened LinkLedger

  // --- The datagram on offer -------------------------------------------------------------------------

  /** A packet in the queue was declared lost and not acknowledged since. */
  ghost predicate StillLost(s: SendSide, i: nat) {
    i < |s.lost| && s.lost[i] in s.inFlight && s.inFlight[s.lost[i]].lost
  }

  ghost predicate FirstLost(s: SendSide, i: nat) { StillLost(s, i) && forall j: nat :: j < i ==> !StillLost(s, j) }

  ghost predicate Resends(s: SendSide) { exists i: nat :: StillLost(s, i) }

  /** When a lane has a datagram on offer. */
  ghost predicate MaySend(l: Link, lane: Lane, offered: Option<Message>) {
    !l.failed &&
    if lane == Media then l.mediaCursor.Some? || offered.Some?
    else
      var s := SendOf(l.out, lane);
      && !s.peerPaused
      && (Resends(s) || s.nextSendSeq - s.sendBase < Window(lane))
      && (lane != Control ==> SendOf(l.out, Reliable).onTheWire + SendOf(l.out, Bulk).onTheWire < l.out.cwnd.Floor)
      && (Resends(s) || s.cursor.Some? || offered.Some?)
  }

  /** The first packet that waits to be sent again; only then the message that was begun, and only then a new one. */
  ghost predicate OnOffer(l: Link, lane: Lane, offered: Option<Message>, r: Peeked) {
    var s := SendOf(l.out, lane);
    if !MaySend(l, lane, offered) then r.datagram == None && !r.took
    else if lane == Media then
      && r.took == l.mediaCursor.None?
      && r.datagram == Some(DataPacket(l, Media, l.nextMediaSeq, NextFragment(l.mediaCursor, offered)))
    else if Resends(s) then
      !r.took && exists i: nat :: FirstLost(s, i) && r.datagram == Some(DataPacket(l, lane, s.lost[i], s.inFlight[s.lost[i]].fragment))
    else
      && r.took == s.cursor.None?
      && r.datagram == Some(DataPacket(l, lane, s.nextSendSeq, NextFragment(s.cursor, offered)))
  }

  /** The fragment a cursor stands at, or else the first one of a message. */
  ghost function NextFragment(cursor: Option<Cursor>, offered: Option<Message>): Fragment {
    FragmentAt(if cursor.Some? then cursor.value else CursorFor(if offered.Some? then offered.value else Message(0, [])))
  }

  /** Acknowledged seqs in front of it do not count. */
  lemma {:induction false} FirstOfLive(s: SendSide, lost: seq<nat>, from: nat)
    requires from <= |s.lost| && lost == s.lost[from..] && forall j: nat :: j < from ==> !StillLost(s, j)
    ensures LiveLost(s, lost) == [] <==> !Resends(s)
    ensures LiveLost(s, lost) != [] ==> exists i: nat :: FirstLost(s, i) && s.lost[i] == LiveLost(s, lost)[0]
    decreases |lost|
  {
    if lost == [] {
      assert !Resends(s);
    } else if WaitsAsLost(s, lost[0]) {
      assert FirstLost(s, from);
    } else {
      assert !StillLost(s, from);
      FirstOfLive(s, lost[1..], from + 1);
    }
  }

  lemma Trimmed(o: Outbound, lane: Lane)
    ensures var s, o' := SendOf(o, lane), DropDead(o, lane);
      && SendOf(o', lane) == s.(lost := SendOf(o', lane).lost) && OnWire(o') == OnWire(o) && o'.cwnd == o.cwnd
      && (SendOf(o', lane).lost == [] <==> !Resends(s))
      && (Resends(s) ==> exists i: nat :: FirstLost(s, i) && s.lost[i] == SendOf(o', lane).lost[0])
  {
    var s := SendOf(o, lane);
    FirstOfLive(s, s.lost, 0);
    hide FirstLost, Resends, LiveLost;
    assert lane !in o.sends ==> s.lost == [];
  }

  /** In every state of a link, a peek offers exactly what may be sent. */
  lemma PeekLaw(l: Link, lane: Lane, offered: Option<Message>)
    ensures OnOffer(l, lane, offered, Peek(l, lane, offered))
  {
    hide FirstLost, Resends, DropDead, DataPacket, FragmentAt, OnWire;
    Trimmed(l.out, lane);
    assert OnWire(l.out) == SendOf(l.out, Reliable).onTheWire + SendOf(l.out, Bulk).onTheWire by { WireOf(l.out); }
    hide PeekLane;
  }

  lemma WireOf(o: Outbound)
    ensures OnWire(o) == SendOf(o, Reliable).onTheWire + SendOf(o, Bulk).onTheWire
  {
  }

  /** Pending is what is in flight and what is still being cut up; Media has only the latter. */
  lemma PendingLaw(l: Link, lane: Lane)
    ensures HasPending(l, lane) <==>
      if lane == Media then l.mediaCursor.Some? else SendOf(l.out, lane).cursor.Some? || exists q :: q in SendOf(l.out, lane).inFlight
  {
    var m := SendOf(l.out, lane).inFlight;
    if |m| > 0 {
      assert m.Keys != {};
    } else {
      assert m == map[];
    }
  }

  /** A new link has sent nothing, and its window is the fixed one or the initial one, the latter between 8 and 256. */
  lemma NewLaw(t: Timings, localId: nat, budget: Option<Budget>)
    ensures var l := NewLink(t, localId, budget);
      && (t.fixedCwnd > 0 ==> l.out.cwnd == t.fixedCwnd as real)
      && (t.fixedCwnd == 0 ==> 8.0 <= l.out.cwnd <= 256.0 && (8 <= t.initialCwnd <= 256 ==> l.out.cwnd == t.initialCwnd as real))
      && (t.fixedCwnd == 0 && t.initialCwnd < 8 ==> l.out.cwnd == 8.0) && l.out.recoveryStart == 0 && l.out.sends == map[]
      && (t.fixedCwnd == 0 && t.initialCwnd > 256 ==> l.out.cwnd == 256.0) && l.out.rtt.rto == l.out.rtt.Clamp(t.initialRto)
  {
  }

  // --- What an Ack releases --------------------------------------------------------------------------

  /** The packets in flight that an Ack names. */
  ghost function NamedBy(s: SendSide, upTo: nat, ranges: seq<SeqRange>): set<nat> {
    set q | q in s.inFlight && Named(upTo, ranges, q)
  }

  /** Those of some packets that were sent after a transmission. */
  ghost function SentAfter(s: SendSide, seqs: set<nat>, transmission: nat): set<nat> {
    set q | q in seqs && q in s.inFlight && s.inFlight[q].transmission > transmission
  }

  ghost predicate SentOnce(s: SendSide, q: nat) { q in s.inFlight && s.inFlight[q].transmissions == 1 }

  /** When the youngest of those was sent that were sent only once: nothing else can be measured. */
  ghost predicate Youngest(s: SendSide, seqs: set<nat>, at: Option<int>) {
    && (at.None? ==> forall q :: q in seqs ==> !SentOnce(s, q))
    && (at.Some? ==> exists q :: q in seqs && SentOnce(s, q) && s.inFlight[q].sentAt == at.value)
    && (at.Some? ==> forall q :: q in seqs && SentOnce(s, q) ==> s.inFlight[q].sentAt <= at.value)
  }

  ghost predicate Tallied(s: SendSide, a: Release, recovery: nat) {
    var released := s.inFlight.Keys - a.send.inFlight.Keys;
    && LeftOf(s, a)
    && a.acked == |released| && a.counted == |SentAfter(s, released, recovery)| && Youngest(s, released, a.sampleSentAt)
  }

  lemma YoungestMore(s: SendSide, seqs: set<nat>, at: Option<int>, q: nat)
    requires Youngest(s, seqs, at) && q in s.inFlight
    ensures Youngest(s, seqs + {q}, if SentOnce(s, q) && (at.None? || s.inFlight[q].sentAt > at.value)
                                    then Some(s.inFlight[q].sentAt) else at)
  {
    assert q in seqs + {q};
    if at.Some? {
      var x :| x in seqs && SentOnce(s, x) && s.inFlight[x].sentAt == at.value;
      assert x in seqs + {q};
    }
  }

  lemma OneMore(s: SendSide, seqs: set<nat>, q: nat, recovery: nat)
    requires q in s.inFlight && q !in seqs
    ensures |SentAfter(s, seqs + {q}, recovery)|
         == |SentAfter(s, seqs, recovery)| + (if s.inFlight[q].transmission > recovery then 1 else 0)
  {
    var was, now := SentAfter(s, seqs, recovery), SentAfter(s, seqs + {q}, recovery);
    assert now == if s.inFlight[q].transmission > recovery then was + {q} else was;
  }

  ghost predicate LeftOf(s: SendSide, a: Release) {
    forall q :: q in a.send.inFlight ==> q in s.inFlight && a.send.inFlight[q] == s.inFlight[q]
  }

  lemma OneReleased(s: SendSide, a: Release, q: nat, recovery: nat)
    requires LeftOf(s, a) && q in a.send.inFlight
    ensures var b, was := ReleaseOne(a, q, recovery), s.inFlight.Keys - a.send.inFlight.Keys;
      && LeftOf(s, b) && s.inFlight.Keys - b.send.inFlight.Keys == was + {q} && q !in was && q in s.inFlight
      && b.acked == a.acked + 1 && b.counted == a.counted + (if s.inFlight[q].transmission > recovery then 1 else 0)
      && b.sampleSentAt == if SentOnce(s, q) && (a.sampleSentAt.None? || s.inFlight[q].sentAt > a.sampleSentAt.value)
                           then Some(s.inFlight[q].sentAt) else a.sampleSentAt
  {
    assert ReleaseOne(a, q, recovery).send.inFlight == a.send.inFlight - {q};
  }

  lemma TallyOne(s: SendSide, a: Release, q: nat, recovery: nat)
    requires Tallied(s, a, recovery)
    ensures Tallied(s, ReleaseOne(a, q, recovery), recovery)
  {
    if q in a.send.inFlight {
      hide Youngest, SentAfter, ReleaseOne, LeftOf;
      var was := s.inFlight.Keys - a.send.inFlight.Keys;
      OneReleased(s, a, q, recovery);
      assert |was + {q}| == |was| + 1;
      OneMore(s, was, q, recovery);
      YoungestMore(s, was, a.sampleSentAt, q);
    }
  }

  lemma {:induction false} TallySpan(s: SendSide, a: Release, lo: nat, hi: int, recovery: nat)
    requires Tallied(s, a, recovery)
    ensures Tallied(s, ReleaseSpan(a, lo, hi, recovery), recovery)
    decreases hi - lo + 1
  {
    hide Tallied, ReleaseOne;
    if lo <= hi {
      TallyOne(s, a, lo, recovery);
      TallySpan(s, ReleaseOne(a, lo, recovery), lo + 1, hi, recovery);
    }
  }

  lemma {:induction false} TallyRanges(s: SendSide, a: Release, ranges: seq<SeqRange>, recovery: nat)
    requires Tallied(s, a, recovery)
    ensures Tallied(s, ReleaseRanges(a, ranges, recovery), recovery)
    decreases |ranges|
  {
    hide Tallied, ReleaseSpan;
    if ranges != [] {
      var r := ranges[0];
      var lo, hi := Max(r.first, a.send.sendBase), Min(r.Last(), a.send.nextSendSeq - 1);
      TallySpan(s, a, lo, hi, recovery);
      TallyRanges(s, ReleaseSpan(a, lo, hi, recovery), ranges[1..], recovery);
    }
  }

  lemma TallyStart(o: Outbound, lane: Lane)
    ensures Tallied(SendOf(o, lane), StartRelease(o, lane), o.recoveryStart)
  {
    var s := SendOf(o, lane);
    assert s.inFlight.Keys - s.inFlight.Keys == {};
    assert SentAfter(s, {}, o.recoveryStart) == {};
  }

  lemma AckTallied(o: Outbound, lane: Lane, upTo: nat, ranges: seq<SeqRange>)
    ensures Tallied(SendOf(o, lane), AckedBy(o, lane, upTo, ranges), o.recoveryStart)
  {
    hide Tallied, ReleaseSpan, ReleaseRanges;
    TallyStart(o, lane);
    var s, a := SendOf(o, lane), StartRelease(o, lane);
    var lo, hi := a.send.sendBase, Min(upTo, a.send.nextSendSeq - 1);
    TallySpan(s, a, lo, hi, o.recoveryStart);
    TallyRanges(s, ReleaseSpan(a, lo, hi, o.recoveryStart), ranges, o.recoveryStart);
  }

  /** An Ack counts the packets it names and those of them that are younger than the last reduction, and times the youngest. */
  lemma AckTally(o: Outbound, lane: Lane, upTo: nat, ranges: seq<SeqRange>)
    requires LaneOk(SendOf(o, lane), lane)
    ensures var a, s := AckedBy(o, lane, upTo, ranges), SendOf(o, lane);
      && a.acked == |NamedBy(s, upTo, ranges)| && a.counted == |SentAfter(s, NamedBy(s, upTo, ranges), o.recoveryStart)|
      && Youngest(s, NamedBy(s, upTo, ranges), a.sampleSentAt)
  {
    hide ReleaseOk, LaneOk, AckedBy, Youngest, SentAfter, Named, SendOf;
    AckReleasesNamed(o, lane, upTo, ranges);
    AckTallied(o, lane, upTo, ranges);
    var s := SendOf(o, lane);
    assert s.inFlight.Keys - AckedBy(o, lane, upTo, ranges).send.inFlight.Keys == NamedBy(s, upTo, ranges);
  }

  // --- What a sweep declares lost ----------------------------------------------------------------------

  /** The packet was on the wire before, and is declared lost after. */
  ghost predicate BecameLost(o: Outbound, o': Outbound, k: Lane, q: nat) {
    Unmarked(o, k, q) && Has(o', k, q) && Entry(o', k, q).lost
  }

  ghost predicate FindsLoss(o: Outbound, o': Outbound) { exists k, q :: BecameLost(o, o', k, q) }

  /** One of the losses counts against the window: sent under it, and after it was last reduced. */
  ghost predicate LossCounts(o: Outbound, o': Outbound) {
    exists k, q :: BecameLost(o, o', k, q) && k != Control && Entry(o, k, q).transmission > o.recoveryStart
  }

  ghost predicate Overdue(e: InFlight, largestAcked: nat, mode: Sweep) {
    match mode
    case ByAcks => e.transmission + 3 <= largestAcked
    case ByTime(now, timeout) => e.sentAt + timeout <= now
  }

  ghost predicate OnlyOverdue(o: Outbound, o': Outbound, mode: Sweep) {
    forall k, q :: BecameLost(o, o', k, q) ==> Overdue(Entry(o, k, q), o.largestAcked, mode)
  }

  /** Halved and not below 8, once for all losses that count. */
  ghost predicate WindowAfterLoss(o: Outbound, o': Outbound) {
    if LossCounts(o, o') && o.fixedCwnd == 0
    then o'.cwnd == (if o.cwnd > 16.0 then o.cwnd / 2.0 else 8.0) && o'.recoveryStart == o.transmissions
    else o'.cwnd == o.cwnd && o'.recoveryStart == o.recoveryStart
  }

  lemma MarkedFirst(o: Outbound, r: SentRecord, o': Outbound)
    requires Live(o, r) && Swept(MarkLost(o, r), o')
    ensures Swept(o, o') && BecameLost(o, o', r.lane, r.sq)
    ensures forall k, q :: BecameLost(o, o', k, q) <==> BecameLost(MarkLost(o, r), o', k, q) || (k == r.lane && q == r.sq)
  {
    MarkLostEntries(o, r);
    MarkLostSwept(o, r);
    SweptTrans(o, MarkLost(o, r), o');
    assert Unmarked(o, r.lane, r.sq) && Has(MarkLost(o, r), r.lane, r.sq) && !Unmarked(MarkLost(o, r), r.lane, r.sq);
    hide MarkLost, Live;
  }

  lemma MarkedWindow(o: Outbound, r: SentRecord, o': Outbound)
    requires Live(o, r) && Swept(MarkLost(o, r), o') && Numbered(o) && r.lane != Media
    requires WindowAfterLoss(MarkLost(o, r), o')
    ensures WindowAfterLoss(o, o')
  {
    var o1 := MarkLost(o, r);
    MarkLostEntries(o, r);
    MarkedFirst(o, r, o');
    if Reduces(o, r) {
      assert LossCounts(o, o');
      assert !LossCounts(o1, o');
    } else {
      assert o.fixedCwnd == 0 ==> (LossCounts(o, o') <==> LossCounts(o1, o'));
    }
  }

  lemma SweepMarked(o: Outbound, rest: Outbound, r: SentRecord, o': Outbound, mode: Sweep)
    requires rest == o.(sent := rest.sent) && Live(o, r) && !Keeps(o, r, mode) && Ordered(o)
    requires var o1 := MarkLost(rest, r); Swept(o1, o') && OnlyOverdue(o1, o', mode) && WindowAfterLoss(o1, o')
    ensures Swept(o, o') && OnlyOverdue(o, o', mode) && FindsLoss(o, o') && WindowAfterLoss(o, o')
  {
    hide Swept, WindowAfterLoss, BecameLost, Ordered, MarkLost, OnlyOverdue;
    OrderedRest(o, rest, r);
    OrderedParts(rest);
    SweptOfRest(o, rest, o', mode);
    MarkedWindow(rest, r, o');
    MarkedFirst(rest, r, o');
    MarkedOverdue(rest, r, o', mode);
  }

  lemma OrderedParts(o: Outbound)
    requires Ordered(o)
    ensures Numbered(o)
  {
  }

  lemma MarkedOverdue(o: Outbound, r: SentRecord, o': Outbound, mode: Sweep)
    requires Live(o, r) && !Keeps(o, r, mode) && OnlyOverdue(MarkLost(o, r), o', mode)
    requires forall k, q :: BecameLost(o, o', k, q) <==> BecameLost(MarkLost(o, r), o', k, q) || (k == r.lane && q == r.sq)
    ensures OnlyOverdue(o, o', mode)
  {
    assert Overdue(Entry(o, r.lane, r.sq), o.largestAcked, mode);
    MarkLostEntries(o, r);
    assert MarkLost(o, r).largestAcked == o.largestAcked;
    hide Live, MarkLost;
    var o1 := MarkLost(o, r);
    forall k, q | BecameLost(o, o', k, q)
      ensures Overdue(Entry(o, k, q), o.largestAcked, mode)
    {
      if BecameLost(o1, o', k, q) { assert Entry(o1, k, q).sentAt == Entry(o, k, q).sentAt; }
    }
  }

  ghost predicate Ordered(o: Outbound) { Numbered(o) && LanesOk(o) }

  lemma OrderedRest(o: Outbound, rest: Outbound, r: SentRecord)
    requires Ordered(o) && rest == o.(sent := rest.sent)
    ensures Ordered(rest) && (Live(o, r) ==> Live(rest, r) && Ordered(MarkLost(rest, r)) && r.lane != Media)
    ensures Live(rest, r) ==> MarkLost(rest, r).sent == rest.sent
  {
    hide LaneOk;
    assert forall k, q :: Has(rest, k, q) ==> Has(o, k, q) && Entry(rest, k, q) == Entry(o, k, q);
    if Live(o, r) {
      MarkLostLanes(rest, r);
      MarkLostEntries(rest, r);
      LaneIsNotMedia(o, r.lane);
    }
  }

  lemma LaneIsNotMedia(o: Outbound, lane: Lane)
    requires LanesOk(o) && lane in o.sends
    ensures lane != Media
  {
  }

  lemma SweptNone(o: Outbound, mode: Sweep)
    ensures Swept(o, o) && OnlyOverdue(o, o, mode) && !FindsLoss(o, o) && WindowAfterLoss(o, o)
  {
  }

  /** A sweep takes nothing out of flight, declares nothing lost but what is overdue, and tells whether there was any. */
  lemma {:induction false} SweepLaw(o: Outbound, mode: Sweep)
    requires Ordered(o)
    ensures var (o', losses) := SweepLog(o, mode);
      Swept(o, o') && OnlyOverdue(o, o', mode) && (losses <==> FindsLoss(o, o')) && WindowAfterLoss(o, o')
    decreases |o.sent|
  {
    hide Ordered, Swept, OnlyOverdue, FindsLoss, WindowAfterLoss, Live, Keeps, MarkLost;
    SweptNone(o, mode);
    if o.sent != [] {
      var r, rest := o.sent[0], o.(sent := o.sent[1..]);
      OrderedRest(o, rest, r);
      if !Live(o, r) {
        SweepLaw(rest, mode);
        SweptOfRest(o, rest, SweepLog(rest, mode).0, mode);
      } else if !Keeps(o, r, mode) {
        SweepLaw(MarkLost(rest, r), mode);
        SweepMarked(o, rest, r, SweepLog(o, mode).0, mode);
      }
    }
  }

  /** The log itself says nothing about the packets. */
  lemma SweptOfRest(o: Outbound, rest: Outbound, o': Outbound, mode: Sweep)
    requires rest == o.(sent := rest.sent)
    ensures Swept(o, o') <==> Swept(rest, o')
    ensures forall k, q :: BecameLost(o, o', k, q) <==> BecameLost(rest, o', k, q)
    ensures WindowAfterLoss(o, o') <==> WindowAfterLoss(rest, o')
    ensures FindsLoss(o, o') <==> FindsLoss(rest, o')
    ensures OnlyOverdue(o, o', mode) <==> OnlyOverdue(rest, o', mode)
  {
  }

  /** What is found lost queues up behind what was lost before. */
  lemma {:induction false} SweepQueues(o: Outbound, mode: Sweep, k: Lane)
    ensures SendOf(o, k).lost <= SendOf(SweepLog(o, mode).0, k).lost
    decreases |o.sent|
  {
    hide Keeps, Live;
    if o.sent != [] {
      var r, rest := o.sent[0], o.(sent := o.sent[1..]);
      if !Live(o, r) {
        SweepQueues(rest, mode, k);
      } else if !Keeps(o, r, mode) {
        LiveRest(o, rest, r);
        MarkQueues(rest, r, k);
        SweepQueues(MarkLost(rest, r), mode, k);
      }
    }
  }

  lemma LiveRest(o: Outbound, rest: Outbound, r: SentRecord)
    requires Live(o, r) && rest == o.(sent := rest.sent)
    ensures Live(rest, r) && MarkLost(rest, r).sent == rest.sent
  {
  }

  lemma MarkQueues(o: Outbound, r: SentRecord, k: Lane)
    requires Live(o, r)
    ensures SendOf(MarkLost(o, r), k).lost == SendOf(o, k).lost + if k == r.lane then [r.sq] else []
  {
  }

  // --- What an Ack does --------------------------------------------------------------------------------

  /** In flight is what was and is not named; lost is what was and what three later transmissions overtook. */
  ghost predicate FlightAfterAck(o: Outbound, lane: Lane, named: set<nat>, o': Outbound) {
    && (forall k, q :: Has(o', k, q) <==> Has(o, k, q) && !(k == lane && q in named))
    && (forall k, q :: Has(o', k, q) ==> Entry(o', k, q) == Entry(o, k, q).(lost := Entry(o', k, q).lost))
    && (forall k, q :: Has(o', k, q) ==>
          (Entry(o', k, q).lost <==> Entry(o, k, q).lost || Entry(o, k, q).transmission + 3 <= o'.largestAcked))
  }

  /** An Ack that finds no loss lets the window grow by 1 / cwnd for every packet that counts, up to 256. */
  ghost predicate WindowAfterAck(o: Outbound, lane: Lane, named: set<nat>, o': Outbound) {
    if FindsLoss(o, o') || o.fixedCwnd > 0 || lane == Control then WindowAfterLoss(o, o')
    else
      o.cwnd > 0.0 &&
      var w := o.cwnd + |SentAfter(SendOf(o, lane), named, o.recoveryStart)| as real / o.cwnd;
      o'.cwnd == (if w < 256.0 then w else 256.0) && o'.recoveryStart == o.recoveryStart
  }

  /** What it names ends the backoff, and its youngest packet that was sent once is the measurement. */
  ghost predicate TimesAfterAck(o: Outbound, lane: Lane, named: set<nat>, now: int, o': Outbound) {
    && o'.timeoutsInARow == (if named == {} then o.timeoutsInARow else 0)
    && exists at :: Youngest(SendOf(o, lane), named, at)
         && o'.rtt == if at.Some? then AddSample(o.rtt, now - at.value) else o.rtt
  }

  /** Where the pause is noted, and nothing else. */
  lemma NoteQuiet(o: Outbound, lane: Lane, serial: nat, paused: bool, now: int)
    ensures var o1 := NotePause(o, lane, serial, paused, now);
      && o1 == o.(sends := o1.sends, stalledSince := o1.stalledSince)
      && SendOf(o1, lane).inFlight == SendOf(o, lane).inFlight
  {
    hide Waiting, AcceptsSerial;
  }

  /** Where the released packets are taken out. */
  lemma WrittenBack(o: Outbound, lane: Lane, a: Release, named: set<nat>, now: int)
    requires forall q :: q in a.send.inFlight <==> q in SendOf(o, lane).inFlight && q !in named
    requires forall q :: q in a.send.inFlight ==> a.send.inFlight[q] == SendOf(o, lane).inFlight[q]
    ensures var w := WriteBack(o, lane, a, now);
      && (forall k, q :: Has(w, k, q) <==> Has(o, k, q) && !(k == lane && q in named))
      && (forall k, q :: Has(w, k, q) ==> Entry(w, k, q) == Entry(o, k, q))
  {
    hide LowestUnacked, AddSample;
  }

  /** The sweep behind an Ack, seen from before the Ack. */
  lemma SweptAfterAck(o: Outbound, w: Outbound, o': Outbound, lane: Lane, named: set<nat>)
    requires forall k, q :: Has(w, k, q) <==> Has(o, k, q) && !(k == lane && q in named)
    requires forall k, q :: Has(w, k, q) ==> Entry(w, k, q) == Entry(o, k, q)
    requires Swept(w, o') && OnlyOverdue(w, o', ByAcks) && AllKept(o', ByAcks) && o'.largestAcked == w.largestAcked
    ensures FlightAfterAck(o, lane, named, o')
    ensures forall k, q :: BecameLost(o, o', k, q) <==> BecameLost(w, o', k, q)
  {
  }

  /** The link without what an Ack names, before it looks for losses. */
  ghost function Relieved(o: Outbound, lane: Lane, upTo: nat, paused: bool, ack: AckBody, now: int): Outbound {
    var o1 := NotePause(o, lane, ack.serial, paused, now);
    WriteBack(o1, lane, AckedBy(o1, lane, upTo, ack.ranges), now)
  }

  lemma RelievedFlight(o: Outbound, lane: Lane, upTo: nat, paused: bool, ack: AckBody, now: int, clock: int)
    requires Ledger(o) && Timed(o, clock) && lane != Media
    ensures var w, named := Relieved(o, lane, upTo, paused, ack, now), NamedBy(SendOf(o, lane), upTo, ack.ranges);
      && Books(w) && Timed(w, clock)
      && (forall k, q :: Has(w, k, q) <==> Has(o, k, q) && !(k == lane && q in named))
      && (forall k, q :: Has(w, k, q) ==> Entry(w, k, q) == Entry(o, k, q))
  {
    hide LaneOk, Named, NotePause, AckedBy, WriteBack;
    var o1 := NotePause(o, lane, ack.serial, paused, now);
    NoteQuiet(o, lane, ack.serial, paused, now);
    NotePauseKeeps(o, lane, ack.serial, paused, now);
    SameFlightTimed(o, o1, clock);
    SendOfOk(o1, lane);
    var a, named := AckedBy(o1, lane, upTo, ack.ranges), NamedBy(SendOf(o, lane), upTo, ack.ranges);
    AckReleasesNamed(o1, lane, upTo, ack.ranges);
    WriteBackKeeps(o1, lane, a, now, clock);
    WrittenBack(o1, lane, a, named, now);
    hide Books, Timed, LargestOk;
  }

  lemma RelievedCounters(o: Outbound, lane: Lane, upTo: nat, paused: bool, ack: AckBody, now: int)
    requires LaneOk(SendOf(NotePause(o, lane, ack.serial, paused, now), lane), lane)
    ensures var w, named := Relieved(o, lane, upTo, paused, ack, now), NamedBy(SendOf(o, lane), upTo, ack.ranges);
      && w.cwnd == o.cwnd && w.recoveryStart == o.recoveryStart && w.fixedCwnd == o.fixedCwnd
      && w.transmissions == o.transmissions && TimesAfterAck(o, lane, named, now, w)
  {
    hide LaneOk, Named, NotePause, AckedBy, LowestUnacked, AddSample, SentAfter;
    var o1 := NotePause(o, lane, ack.serial, paused, now);
    NoteQuiet(o, lane, ack.serial, paused, now);
    AckTally(o1, lane, upTo, ack.ranges);
    var a, named := AckedBy(o1, lane, upTo, ack.ranges), NamedBy(SendOf(o, lane), upTo, ack.ranges);
    assert NamedBy(SendOf(o1, lane), upTo, ack.ranges) == named;
    SameYoungest(SendOf(o1, lane), SendOf(o, lane), named, a.sampleSentAt);
    hide Youngest;
  }

  lemma SameYoungest(s: SendSide, s': SendSide, seqs: set<nat>, at: Option<int>)
    requires s'.inFlight == s.inFlight && Youngest(s, seqs, at)
    ensures Youngest(s', seqs, at)
  {
    assert forall q :: SentOnce(s', q) <==> SentOnce(s, q);
  }

  /** The latest transmission that was ever acknowledged. */
  ghost predicate LargestAfterAck(o: Outbound, lane: Lane, named: set<nat>, o': Outbound) {
    && o.largestAcked <= o'.largestAcked
    && (forall q :: q in named && Has(o, lane, q) ==> Entry(o, lane, q).transmission <= o'.largestAcked)
    && (o'.largestAcked == o.largestAcked || exists q :: q in named && Has(o, lane, q) && Entry(o, lane, q).transmission == o'.largestAcked)
  }

  lemma SameLosses(o: Outbound, w: Outbound, o': Outbound)
    requires forall k, q :: BecameLost(o, o', k, q) <==> BecameLost(w, o', k, q)
    requires forall k, q :: Has(w, k, q) ==> Has(o, k, q) && Entry(w, k, q) == Entry(o, k, q)
    requires w.cwnd == o.cwnd && w.recoveryStart == o.recoveryStart && w.fixedCwnd == o.fixedCwnd
    requires w.transmissions == o.transmissions
    ensures FindsLoss(o, o') <==> FindsLoss(w, o')
    ensures WindowAfterLoss(w, o') ==> WindowAfterLoss(o, o')
  {
    assert forall k, q :: BecameLost(w, o', k, q) ==> Has(w, k, q);
    assert LossCounts(o, o') <==> LossCounts(w, o');
  }

  /** All but the clocks and the window is as the sweep left it. */
  lemma SameAfter(o: Outbound, o2: Outbound, o': Outbound, lane: Lane, named: set<nat>)
    requires o'.sends == o2.sends && o'.largestAcked == o2.largestAcked && FlightAfterAck(o, lane, named, o2)
    ensures FlightAfterAck(o, lane, named, o') && (FindsLoss(o, o') <==> FindsLoss(o, o2))
    ensures LossCounts(o, o') <==> LossCounts(o, o2)
  {
    assert forall k, q :: Has(o', k, q) <==> Has(o2, k, q);
    assert forall k, q :: BecameLost(o, o', k, q) <==> BecameLost(o, o2, k, q);
  }

  lemma AckSweep(o: Outbound, lane: Lane, upTo: nat, paused: bool, ack: AckBody, now: int, clock: int)
    requires Ledger(o) && Timed(o, clock) && lane != Media
    ensures var w, named := Relieved(o, lane, upTo, paused, ack, now), NamedBy(SendOf(o, lane), upTo, ack.ranges);
      var (o2, losses) := SweepLog(w, ByAcks);
      && FlightAfterAck(o, lane, named, o2) && (losses <==> FindsLoss(o, o2)) && WindowAfterLoss(o, o2)
      && o2.timeoutsInARow == w.timeoutsInARow && o2.rtt == w.rtt && o2.largestAcked == w.largestAcked
      && o2.fixedCwnd == o.fixedCwnd
  {
    var w, named := Relieved(o, lane, upTo, paused, ack, now), NamedBy(SendOf(o, lane), upTo, ack.ranges);
    RelievedFlight(o, lane, upTo, paused, ack, now, clock);
    NotePauseKeeps(o, lane, ack.serial, paused, now);
    SendOfOk(NotePause(o, lane, ack.serial, paused, now), lane);
    RelievedCounters(o, lane, upTo, paused, ack, now);
    assert Ordered(w);
    hide Relieved, Books, LaneOk, Ordered, Timed, NamedBy, Ledger, NotePause, TimesAfterAck;
    SweepLaw(w, ByAcks);
    SweepKeeps(w, ByAcks, clock);
    var o2 := SweepLog(w, ByAcks).0;
    hide SweepLog, FrontLive;
    SweptAfterAck(o, w, o2, lane, named);
    SameLosses(o, w, o2);
  }

  lemma RelievedLargest(o: Outbound, lane: Lane, upTo: nat, paused: bool, ack: AckBody, now: int)
    requires LaneOk(SendOf(NotePause(o, lane, ack.serial, paused, now), lane), lane)
    ensures LargestAfterAck(o, lane, NamedBy(SendOf(o, lane), upTo, ack.ranges), Relieved(o, lane, upTo, paused, ack, now))
  {
    hide LaneOk, Named, NotePause, AckedBy, LowestUnacked, AddSample;
    var o1 := NotePause(o, lane, ack.serial, paused, now);
    NoteQuiet(o, lane, ack.serial, paused, now);
    AckReleasesNamed(o1, lane, upTo, ack.ranges);
    var s, a, named := SendOf(o, lane), AckedBy(o1, lane, upTo, ack.ranges), NamedBy(SendOf(o, lane), upTo, ack.ranges);
    if a.largestAcked != o.largestAcked {
      var q :| WasLargest(SendOf(o1, lane), a, q);
      assert q in named && Has(o, lane, q) && Entry(o, lane, q).transmission == a.largestAcked;
    }
  }

  lemma AckShape(o: Outbound, lane: Lane, upTo: nat, paused: bool, ack: AckBody, now: int)
    ensures var o', w := HandleAck(o, lane, upTo, paused, ack, now), Relieved(o, lane, upTo, paused, ack, now);
      var (o2, losses) := SweepLog(w, ByAcks);
      var counted := AckedBy(NotePause(o, lane, ack.serial, paused, now), lane, upTo, ack.ranges).counted;
      && o'.sends == o2.sends && o'.largestAcked == o2.largestAcked && o'.rtt == o2.rtt
      && o'.timeoutsInARow == o2.timeoutsInARow && o'.recoveryStart == o2.recoveryStart
      && o'.cwnd == if lane != Control && lane != Media && !losses && counted > 0 && o.fixedCwnd == 0
                    then Grown(o2.cwnd, counted) else o2.cwnd
  {
    hide NotePause, AckedBy, WriteBack, SweepLog, Waiting, Grown;
  }

  lemma AckCounts(o: Outbound, lane: Lane, upTo: nat, paused: bool, ack: AckBody, now: int)
    requires LaneOk(SendOf(NotePause(o, lane, ack.serial, paused, now), lane), lane)
    ensures AckedBy(NotePause(o, lane, ack.serial, paused, now), lane, upTo, ack.ranges).counted
         == |SentAfter(SendOf(o, lane), NamedBy(SendOf(o, lane), upTo, ack.ranges), o.recoveryStart)|
  {
    hide LaneOk, Named, NotePause, AckedBy, Youngest;
    var o1 := NotePause(o, lane, ack.serial, paused, now);
    NoteQuiet(o, lane, ack.serial, paused, now);
    AckTally(o1, lane, upTo, ack.ranges);
    var named := NamedBy(SendOf(o, lane), upTo, ack.ranges);
    assert NamedBy(SendOf(o1, lane), upTo, ack.ranges) == named;
    assert SentAfter(SendOf(o1, lane), named, o.recoveryStart) == SentAfter(SendOf(o, lane), named, o.recoveryStart);
  }

  lemma GrownIs(o: Outbound, counted: nat)
    requires WindowBounds(o) && o.fixedCwnd == 0
    ensures var w := o.cwnd + counted as real / o.cwnd; Grown(o.cwnd, counted) == if w < 256.0 then w else 256.0
    ensures counted == 0 ==> Grown(o.cwnd, counted) == o.cwnd
    ensures o.cwnd > 0.0
  {
  }

  lemma NotedLane(o: Outbound, lane: Lane, serial: nat, paused: bool, now: int)
    requires Ledger(o) && lane != Media
    ensures LaneOk(SendOf(NotePause(o, lane, serial, paused, now), lane), lane) && WindowBounds(o)
  {
    NotePauseKeeps(o, lane, serial, paused, now);
    SendOfOk(NotePause(o, lane, serial, paused, now), lane);
  }

  lemma WindowOf(o: Outbound, lane: Lane, upTo: nat, paused: bool, ack: AckBody, now: int, clock: int)
    requires Ledger(o) && Timed(o, clock) && lane != Media
    ensures WindowAfterAck(o, lane, NamedBy(SendOf(o, lane), upTo, ack.ranges), HandleAck(o, lane, upTo, paused, ack, now))
  {
    hide Ledger, Timed, HandleAck, SweepLog, Relieved, FlightAfterAck, NamedBy, SentAfter, NotePause, AckedBy, Grown, LaneOk,
         SendOf, WindowBounds, BecameLost;
    var named, o' := NamedBy(SendOf(o, lane), upTo, ack.ranges), HandleAck(o, lane, upTo, paused, ack, now);
    NotedLane(o, lane, ack.serial, paused, now);
    AckSweep(o, lane, upTo, paused, ack, now, clock);
    AckShape(o, lane, upTo, paused, ack, now);
    AckCounts(o, lane, upTo, paused, ack, now);
    if o.fixedCwnd == 0 { GrownIs(o, |SentAfter(SendOf(o, lane), named, o.recoveryStart)|); }
    SameAfter(o, SweepLog(Relieved(o, lane, upTo, paused, ack, now), ByAcks).0, o', lane, named);
  }

  // --- The pause of a lane -------------------------------------------------------------------------------

  /** The serial is less than half of all serials ahead. */
  ghost predicate Newer(serial: nat, s: SendSide) { s.ackSerial.None? || 0 < (serial - s.ackSerial.value) % U32 < 0x8000_0000 }

  /** An Ack that is newer than all before it tells whether its lane is paused. A pause that begins sets the time of the first
      probe: a timeout in whole milliseconds from now, and not less than 50. */
  ghost predicate PauseAfterAck(o: Outbound, lane: Lane, serial: nat, paused: bool, now: int, o': Outbound) {
    forall k :: SamePause(if k == lane then PausedBy(SendOf(o, k), o.rtt.rto, serial, paused, now) else SendOf(o, k), SendOf(o', k))
  }

  ghost predicate SamePause(s: SendSide, s': SendSide) {
    s'.ackSerial == s.ackSerial && s'.peerPaused == s.peerPaused && s'.probeInterval == s.probeInterval && s'.probeAt == s.probeAt
  }

  /** The lane as the Ack leaves its pause. */
  ghost function PausedBy(s: SendSide, rto: int, serial: nat, paused: bool, now: int): SendSide {
    if !Newer(serial, s) then s
    else if paused == s.peerPaused then s.(ackSerial := Some(serial))
    else
      var interval := if paused then Max(rto / 1000 * 1000, 50_000) else s.probeInterval;
      s.(ackSerial := Some(serial), peerPaused := paused, probeInterval := interval,
         probeAt := if paused then Some(now + interval) else None)
  }

  lemma ClockKeepsSends(o: Outbound, now: int, progress: bool)
    ensures UpdateProgressClock(o, now, progress).sends == o.sends
  {
    hide Waiting;
  }

  lemma NotePauses(o: Outbound, lane: Lane, serial: nat, paused: bool, now: int, k: Lane)
    ensures SendOf(NotePause(o, lane, serial, paused, now), k)
         == if k == lane then PausedBy(SendOf(o, lane), o.rtt.rto, serial, paused, now) else SendOf(o, k)
  {
    hide UpdateProgressClock;
    var s := SendOf(o, lane);
    var o0 := WithSend(o, lane, s.(ackSerial := Some(serial)));
    ClockKeepsSends(WithSend(o0, lane, PausedSend(SendOf(o0, lane), paused, o.rtt.rto, now)), now, false);
  }

  lemma AckPauses(o: Outbound, lane: Lane, upTo: nat, paused: bool, ack: AckBody, now: int)
    requires LaneOk(SendOf(NotePause(o, lane, ack.serial, paused, now), lane), lane)
    ensures PauseAfterAck(o, lane, ack.serial, paused, now, HandleAck(o, lane, upTo, paused, ack, now))
  {
    hide LaneOk, NotePause, AckedBy, WriteBack, SweepLog, PausedBy, HandleAck, Relieved, ReleaseOk;
    var o1, o' := NotePause(o, lane, ack.serial, paused, now), HandleAck(o, lane, upTo, paused, ack, now);
    var a := AckedBy(o1, lane, upTo, ack.ranges);
    var w := WriteBack(o1, lane, a, now);
    ReleasesOnly(o1, lane, upTo, ack.ranges);
    WrittenPauses(o1, lane, a, now);
    SweepSends(w, ByAcks);
    AckShape(o, lane, upTo, paused, ack, now);
    assert Relieved(o, lane, upTo, paused, ack, now) == w by { RelievedIs(o, lane, upTo, paused, ack, now); }
    forall k
      ensures SamePause(if k == lane then PausedBy(SendOf(o, k), o.rtt.rto, ack.serial, paused, now) else SendOf(o, k), SendOf(o', k))
    {
      NotePauses(o, lane, ack.serial, paused, now, k);
      assert SameSend(SendOf(w, k), SendOf(SweepLog(w, ByAcks).0, k));
    }
  }

  lemma RelievedIs(o: Outbound, lane: Lane, upTo: nat, paused: bool, ack: AckBody, now: int)
    ensures var o1 := NotePause(o, lane, ack.serial, paused, now);
      Relieved(o, lane, upTo, paused, ack, now) == WriteBack(o1, lane, AckedBy(o1, lane, upTo, ack.ranges), now)
  {
    hide NotePause, AckedBy, WriteBack;
  }

  lemma ReleasesOnly(o: Outbound, lane: Lane, upTo: nat, ranges: seq<SeqRange>)
    requires LaneOk(SendOf(o, lane), lane)
    ensures ReleasedFrom(SendOf(o, lane), AckedBy(o, lane, upTo, ranges).send)
  {
    hide LaneOk, AckedBy;
    AckReleasesNamed(o, lane, upTo, ranges);
  }

  lemma WrittenPauses(o: Outbound, lane: Lane, a: Release, now: int)
    requires ReleasedFrom(SendOf(o, lane), a.send)
    ensures forall k :: SamePause(SendOf(o, k), SendOf(WriteBack(o, lane, a, now), k))
  {
    hide LowestUnacked, AddSample;
  }

  // --- The stall clock -----------------------------------------------------------------------------------

  /** Something waits for an acknowledgement on a lane that is not paused. */
  ghost predicate Unanswered(o: Outbound) { exists k, q :: k != Media && Has(o, k, q) && !SendOf(o, k).peerPaused }

  /** The clock runs while something waits, and starts over with every acknowledgement. */
  ghost predicate StallAfter(o: Outbound, progress: bool, now: int, o': Outbound) {
    o'.stalledSince ==
      if !Unanswered(o') then None else if progress || o.stalledSince.None? then Some(now) else o.stalledSince
  }

  lemma WaitingIs(o: Outbound)
    ensures Waiting(o) <==> Unanswered(o)
  {
    LaneWaitsIs(o, Control);
    LaneWaitsIs(o, Reliable);
    LaneWaitsIs(o, Bulk);
    hide LaneWaits;
  }

  lemma LaneWaitsIs(o: Outbound, lane: Lane)
    ensures LaneWaits(o, lane) <==> exists q :: Has(o, lane, q) && !SendOf(o, lane).peerPaused
  {
    var m := SendOf(o, lane).inFlight;
    assert forall q :: q in m ==> Has(o, lane, q);
    if |m| > 0 {
      assert m.Keys != {};
      var q :| q in m;
    } else {
      assert m == map[];
    }
  }

  lemma NoteStall(o: Outbound, lane: Lane, serial: nat, paused: bool, now: int)
    ensures var o1 := NotePause(o, lane, serial, paused, now);
      Waiting(o1) ==> o1.stalledSince == o.stalledSince || (o.stalledSince.None? && o1.stalledSince == Some(now))
  {
    var o0 := WithSend(o, lane, SendOf(o, lane).(ackSerial := Some(serial)));
    var o2 := WithSend(o0, lane, PausedSend(SendOf(o0, lane), paused, o0.rtt.rto, now));
    SameWaiting(o2, UpdateProgressClock(o2, now, false));
    hide Waiting, AcceptsSerial, PausedSend;
  }

  lemma RelievedWaits(o: Outbound, lane: Lane, a: Release, now: int)
    requires forall q :: q in a.send.inFlight ==> q in SendOf(o, lane).inFlight
    requires a.send.peerPaused == SendOf(o, lane).peerPaused && Waiting(WriteBack(o, lane, a, now))
    ensures Waiting(o)
  {
    hide Waiting, LowestUnacked, AddSample;
    var w := WriteBack(o, lane, a, now);
    WaitingIs(w);
    WaitingIs(o);
    var k, q :| k != Media && Has(w, k, q) && !SendOf(w, k).peerPaused;
    assert Has(o, k, q) && SendOf(o, k).peerPaused == SendOf(w, k).peerPaused;
  }

  lemma AckMoves(o: Outbound, lane: Lane, upTo: nat, ranges: seq<SeqRange>)
    requires LaneOk(SendOf(o, lane), lane)
    ensures var s, a := SendOf(o, lane), AckedBy(o, lane, upTo, ranges);
      && (a.acked > 0 <==> NamedBy(s, upTo, ranges) != {}) && a.send.peerPaused == s.peerPaused
      && (forall q :: q in a.send.inFlight ==> q in s.inFlight)
  {
    hide LaneOk, AckedBy, Named, Youngest, SentAfter, SendOf;
    AckTally(o, lane, upTo, ranges);
    ReleasesOnly(o, lane, upTo, ranges);
  }

  lemma AckStall(o: Outbound, lane: Lane, upTo: nat, paused: bool, ack: AckBody, now: int)
    requires LaneOk(SendOf(NotePause(o, lane, ack.serial, paused, now), lane), lane)
    ensures StallAfter(o, NamedBy(SendOf(o, lane), upTo, ack.ranges) != {}, now, HandleAck(o, lane, upTo, paused, ack, now))
  {
    hide LaneOk, NotePause, AckedBy, WriteBack, Waiting, SweepLog, Unanswered, Grown, NamedBy, SendOf;
    var o1, o' := NotePause(o, lane, ack.serial, paused, now), HandleAck(o, lane, upTo, paused, ack, now);
    var a := AckedBy(o1, lane, upTo, ack.ranges);
    var w := WriteBack(o1, lane, a, now);
    NoteStall(o, lane, ack.serial, paused, now);
    NoteQuiet(o, lane, ack.serial, paused, now);
    SameNamed(SendOf(o, lane), SendOf(o1, lane), upTo, ack.ranges);
    AckMoves(o1, lane, upTo, ack.ranges);
    SweepSends(w, ByAcks);
    SweptWaiting(w, SweepLog(w, ByAcks).0);
    SweepStall(w, ByAcks);
    if Waiting(w) { RelievedWaits(o1, lane, a, now); }
    WrittenStall(o1, lane, a, now);
    WaitingIs(o');
    SameWaiting(SweepLog(w, ByAcks).0, o');
  }

  lemma SameNamed(s: SendSide, s': SendSide, upTo: nat, ranges: seq<SeqRange>)
    requires s'.inFlight == s.inFlight
    ensures NamedBy(s', upTo, ranges) == NamedBy(s, upTo, ranges)
  {
    hide Named;
  }

  lemma SameWaiting(o: Outbound, o': Outbound)
    requires o'.sends == o.sends
    ensures Waiting(o') <==> Waiting(o)
  {
  }

  lemma WrittenStall(o: Outbound, lane: Lane, a: Release, now: int)
    ensures WriteBack(o, lane, a, now).stalledSince == o.stalledSince
  {
  }

  lemma {:induction false} SweepStall(o: Outbound, mode: Sweep)
    ensures SweepLog(o, mode).0.stalledSince == o.stalledSince
    decreases |o.sent|
  {
    hide Keeps;
    if o.sent != [] {
      var r, rest := o.sent[0], o.(sent := o.sent[1..]);
      if !Live(o, r) { SweepStall(rest, mode); } else { SweepStall(MarkLost(rest, r), mode); }
    }
  }

  // --- All of it ----------------------------------------------------------------------------------------

  ghost predicate AfterAck(o: Outbound, lane: Lane, upTo: nat, paused: bool, ack: AckBody, now: int, o': Outbound) {
    var named := NamedBy(SendOf(o, lane), upTo, ack.ranges);
    && FlightAfterAck(o, lane, named, o') && LargestAfterAck(o, lane, named, o') && WindowAfterAck(o, lane, named, o')
    && TimesAfterAck(o, lane, named, now, o') && StallAfter(o, named != {}, now, o')
    && PauseAfterAck(o, lane, ack.serial, paused, now, o')
  }

  /** In every state a link can get into, whatever the Ack claims. */
  lemma AckLaw(o: Outbound, lane: Lane, upTo: nat, paused: bool, ack: AckBody, now: int, clock: int)
    requires Ledger(o) && Timed(o, clock) && lane != Media
    ensures AfterAck(o, lane, upTo, paused, ack, now, HandleAck(o, lane, upTo, paused, ack, now))
  {
    hide Ledger, Timed, HandleAck, SweepLog, Relieved, FlightAfterAck, NamedBy, NotePause, AckedBy, LaneOk, WindowAfterAck,
         WindowAfterLoss, FindsLoss, Youngest, WindowBounds, StallAfter, PauseAfterAck;
    var named, o' := NamedBy(SendOf(o, lane), upTo, ack.ranges), HandleAck(o, lane, upTo, paused, ack, now);
    WindowOf(o, lane, upTo, paused, ack, now, clock);
    NotedLane(o, lane, ack.serial, paused, now);
    AckStall(o, lane, upTo, paused, ack, now);
    AckPauses(o, lane, upTo, paused, ack, now);
    AckSweep(o, lane, upTo, paused, ack, now, clock);
    AckShape(o, lane, upTo, paused, ack, now);
    RelievedCounters(o, lane, upTo, paused, ack, now);
    RelievedLargest(o, lane, upTo, paused, ack, now);
    SameAfter(o, SweepLog(Relieved(o, lane, upTo, paused, ack, now), ByAcks).0, o', lane, named);
  }

  // --- What the timer does -------------------------------------------------------------------------------

  /** An acknowledgement, or anything at all, was missing for too long. */
  ghost predicate TooLong(l: Link, now: int) {
    || (l.out.stalledSince.Some? && l.out.stalledSince.value + l.timings.peerTimeout <= now)
    || (l.lastReceived.Some? && l.lastReceived.value + l.timings.peerTimeout <= now)
  }

  /** A paused lane is asked about when its time came, and the peer as such when it was silent and not asked for a while. */
  ghost predicate AskedAbout(l: Link, lane: Lane, now: int) {
    || (lane != Media && SendOf(l.out, lane).peerPaused && SendOf(l.out, lane).probeAt.Some?
        && SendOf(l.out, lane).probeAt.value <= now)
    || (lane == Control && SilentForAWhile(l, now))
  }

  ghost predicate SilentForAWhile(l: Link, now: int) {
    l.lastReceived.Some? && l.remoteId.Some?
    && l.lastReceived.value + l.timings.keepAlive <= now && l.pingedAt + l.timings.keepAlive <= now
  }

  /** The time between two probes of a lane doubles, up to the longest timeout. */
  ghost predicate ProbesAfterTimer(o: Outbound, maxRto: int, now: int, o': Outbound) {
    forall k ::
      var s, s' := SendOf(o, k), SendOf(o', k);
      && s'.peerPaused == s.peerPaused && s'.ackSerial == s.ackSerial
      && if k != Media && s.peerPaused && s.probeAt.Some? && s.probeAt.value <= now
         then s'.probeInterval == Min(2 * s.probeInterval, maxRto) && s'.probeAt == Some(now + s'.probeInterval)
         else s'.probeInterval == s.probeInterval && s'.probeAt == s.probeAt
  }

  /** In flight is what was; lost is what was and what waited for the timeout, which doubles with every round of losses. */
  ghost predicate FlightAfterTimer(o: Outbound, now: int, o': Outbound) {
    && (forall k, q :: Has(o', k, q) <==> Has(o, k, q))
    && (forall k, q :: Has(o', k, q) ==> Entry(o', k, q) == Entry(o, k, q).(lost := Entry(o', k, q).lost))
    && (forall k, q :: Has(o', k, q) ==>
          (Entry(o', k, q).lost <==>
             Entry(o, k, q).lost || Entry(o, k, q).sentAt + Min(o.rtt.rto * Pow2(o.timeoutsInARow), o.rtt.maxRto) <= now))
    && o'.timeoutsInARow == (if FindsLoss(o, o') && o.timeoutsInARow < 16 then o.timeoutsInARow + 1 else o.timeoutsInARow)
    && o'.rtt == o.rtt && o'.largestAcked == o.largestAcked
  }

  lemma ProbeShape(o: Outbound, lane: Lane, maxRto: int, now: int)
    requires lane != Media
    ensures var o' := ProbeLane(o, lane, maxRto, now);
      && o' == o.(sends := o'.sends) && (forall k :: SendOf(o', k).inFlight == SendOf(o, k).inFlight)
      && (forall k :: k != lane ==> SendOf(o', k) == SendOf(o, k))
      && SendOf(o', lane) == if ProbeDue(o, lane, now) then ProbedSend(SendOf(o, lane), maxRto, now) else SendOf(o, lane)
  {
  }

  lemma ProbesShape(o: Outbound, maxRto: int, now: int)
    ensures var o1 := ProbeLane(o, Control, maxRto, now);
      var o' := ProbeLane(ProbeLane(o1, Reliable, maxRto, now), Bulk, maxRto, now);
      && o' == o.(sends := o'.sends) && (forall k :: SendOf(o', k).inFlight == SendOf(o, k).inFlight)
      && ProbesAfterTimer(o, maxRto, now, o')
  {
    hide ProbeLane, SendOf;
    ProbeShape(o, Control, maxRto, now);
    var o1 := ProbeLane(o, Control, maxRto, now);
    ProbeShape(o1, Reliable, maxRto, now);
    ProbeShape(ProbeLane(o1, Reliable, maxRto, now), Bulk, maxRto, now);
  }

  lemma SweptAfterTimer(o: Outbound, o1: Outbound, o': Outbound, now: int, timeout: int)
    requires Swept(o, o1) && OnlyOverdue(o, o1, ByTime(now, timeout)) && AllKept(o1, ByTime(now, timeout))
    requires forall k :: SendOf(o', k).inFlight == SendOf(o1, k).inFlight
    ensures forall k, q :: Has(o', k, q) <==> Has(o, k, q)
    ensures forall k, q :: Has(o', k, q) ==> Entry(o', k, q) == Entry(o, k, q).(lost := Entry(o', k, q).lost)
    ensures forall k, q :: Has(o', k, q) ==>
      (Entry(o', k, q).lost <==> Entry(o, k, q).lost || Entry(o, k, q).sentAt + timeout <= now)
    ensures (FindsLoss(o, o') <==> FindsLoss(o, o1)) && (LossCounts(o, o') <==> LossCounts(o, o1))
  {
    assert forall k, q :: Has(o', k, q) <==> q in SendOf(o', k).inFlight;
    assert forall k, q :: Has(o1, k, q) <==> q in SendOf(o1, k).inFlight;
    assert forall k, q :: Has(o', k, q) ==> Has(o1, k, q) && Entry(o', k, q) == Entry(o1, k, q);
    assert forall k, q :: BecameLost(o, o', k, q) <==> BecameLost(o, o1, k, q);
  }

  lemma TimerParts(o: Outbound)
    requires Ledger(o)
    ensures Books(o) && Ordered(o) && Timeout(o) == Min(o.rtt.rto * Pow2(o.timeoutsInARow), o.rtt.maxRto)
  {
    TimeoutBounds(o.rtt, o.timeoutsInARow);
  }

  lemma ExpireShape(o: Outbound, maxRto: int, now: int)
    ensures var (o1, expired) := SweepLog(o, ByTime(now, Timeout(o))); var o' := TimedOut(o, maxRto, now);
      && (forall k :: SendOf(o', k).inFlight == SendOf(o1, k).inFlight) && ProbesAfterTimer(o1, maxRto, now, o')
      && o'.cwnd == o1.cwnd && o'.recoveryStart == o1.recoveryStart && o'.rtt == o1.rtt && o'.largestAcked == o1.largestAcked
      && o'.timeoutsInARow == if expired && o1.timeoutsInARow < 16 then o1.timeoutsInARow + 1 else o1.timeoutsInARow
  {
    hide SweepLog, ProbeLane, Timeout;
    var o1, e := SweepLog(o, ByTime(now, Timeout(o))).0, Expire(o, now);
    ProbesShape(e, maxRto, now);
    assert forall k :: SendOf(e, k) == SendOf(o1, k);
    hide SendOf;
  }

  lemma OutAfterTimer(o: Outbound, maxRto: int, now: int, clock: int)
    requires Ledger(o) && Timed(o, clock)
    ensures var o' := TimedOut(o, maxRto, now);
      FlightAfterTimer(o, now, o') && WindowAfterLoss(o, o') && ProbesAfterTimer(o, maxRto, now, o')
  {
    hide Ledger, Books, Ordered, Timed, FrontLive, TimedOut, Swept, SweptSends, AllKept, OnlyOverdue, ProbesAfterTimer, FindsLoss,
         LossCounts, Has, Timeout, SweepLog, SendOf;
    var timeout, o' := Timeout(o), TimedOut(o, maxRto, now);
    TimerParts(o);
    ExpireShape(o, maxRto, now);
    SweepLaw(o, ByTime(now, timeout));
    SweepKeeps(o, ByTime(now, timeout), clock);
    SweepSends(o, ByTime(now, timeout));
    var o1 := SweepLog(o, ByTime(now, timeout)).0;
    SweptAfterTimer(o, o1, o', now, timeout);
    ProbesThroughSweep(o, o1, maxRto, now, o');
  }

  /** A sweep leaves the probes alone. */
  lemma ProbesThroughSweep(o: Outbound, o1: Outbound, maxRto: int, now: int, o': Outbound)
    requires SweptSends(o, o1) && ProbesAfterTimer(o1, maxRto, now, o')
    ensures ProbesAfterTimer(o, maxRto, now, o')
  {
    assert forall k :: SameSend(SendOf(o, k), SendOf(o1, k));
  }

  /** Nothing is left of the streams but what they delivered, and what they reserved is given back. */
  ghost predicate GivesUp(l: Link, l': Link) {
    && l'.failed && l'.inb.delivered == l.inb.delivered
    && l'.out.sends == map[] && l'.out.sent == [] && l'.inb.recvs == map[] && l'.pendingAcks == []
    && l'.ackDue == {} && l'.pingDue == {} && l'.mediaCursor == None && l'.out.stalledSince == None && l'.lastReceived == None
    && (l.inb.budget.Some? <==> l'.inb.budget.Some?)
    && (l.inb.budget.Some? ==>
          l'.inb.budget.value == l.inb.budget.value.(used := l.inb.budget.value.used
            - Reserved(RecvOf(l.inb, Control).assembler) - Reserved(RecvOf(l.inb, Reliable).assembler)
            - Reserved(RecvOf(l.inb, Bulk).assembler)))
  }

  ghost predicate AfterTimer(l: Link, now: int, l': Link) {
    && l' == l.(out := l'.out, pingDue := l'.pingDue, pingedAt := l'.pingedAt)
    && (forall lane :: lane in l'.pingDue <==> lane in l.pingDue || AskedAbout(l, lane, now))
    && l'.pingedAt == (if SilentForAWhile(l, now) then now else l.pingedAt)
    && FlightAfterTimer(l.out, now, l'.out) && WindowAfterLoss(l.out, l'.out)
    && ProbesAfterTimer(l.out, l.timings.maxRto, now, l'.out)
  }

  lemma FailGivesUp(l: Link)
    ensures GivesUp(l, Fail(l))
  {
  }

  lemma TimerShape(l: Link, now: int)
    requires !l.failed && !TooLong(l, now)
    ensures var l' := OnTimer(l, now);
      && l' == l.(out := TimedOut(l.out, l.timings.maxRto, now), pingDue := l'.pingDue, pingedAt := l'.pingedAt)
      && (forall lane :: lane in l'.pingDue <==> lane in l.pingDue || AskedAbout(l, lane, now))
      && l'.pingedAt == (if SilentForAWhile(l, now) then now else l.pingedAt)
  {
    hide TimedOut, SendOf, Fail;
  }

  /** In every state a link can get into. */
  lemma TimerLaw(l: Link, now: int, clock: int)
    requires Ledger(l.out) && Timed(l.out, clock)
    ensures var l' := OnTimer(l, now);
      if l.failed then l' == l else if TooLong(l, now) then GivesUp(l, l') else AfterTimer(l, now, l')
  {
    hide Ledger, Timed, TimedOut, FlightAfterTimer, WindowAfterLoss, ProbesAfterTimer, Fail, GivesUp;
    if !l.failed && !TooLong(l, now) {
      hide OnTimer, AskedAbout, SilentForAWhile;
      TimerShape(l, now);
      OutAfterTimer(l.out, l.timings.maxRto, now, clock);
    } else {
      FailGivesUp(l);
    }
  }

  /** A link that is supervised from now on fails after the peer timeout from now, and asks after the keep-alive time, unless it
      hears something before. */
  lemma SuperviseLaw(l: Link, now: int, later: int)
    ensures var l' := Supervise(l, now);
      && l' == l.(lastReceived := l'.lastReceived, pingedAt := l'.pingedAt)
      && (SilentForAWhile(l', later) <==> l.remoteId.Some? && now + l.timings.keepAlive <= later)
      && (l.out.stalledSince.None? ==> (TooLong(l', later) <==> now + l.timings.peerTimeout <= later))
  {
  }

  // --- What is answered ----------------------------------------------------------------------------------

  /** The kinds and lanes of some packets, in their order. */
  ghost function KindsOf(packets: seq<Packet>): seq<(Kind, Lane)> {
    seq(|packets|, i requires 0 <= i < |packets| => (packets[i].header.flags.kind, packets[i].header.flags.lane))
  }

  ghost function DueOn(l: Link, lane: Lane): seq<(Kind, Lane)> {
    (if lane in l.ackDue then [(Ack, lane)] else []) + (if lane in l.pingDue then [(Ping, lane)] else [])
  }

  /** A Ping says nothing but which link it goes to. */
  ghost predicate PingsPlain(l: Link, packets: seq<Packet>) {
    forall p :: p in packets && p.header.flags.kind == Ping ==>
      && p.body == [] && p.header.src == l.localId && p.header.sq == 0
      && p.header.dst == if l.remoteId.Some? then l.remoteId.value else 0
  }

  lemma KindsJoin(a: seq<Packet>, b: seq<Packet>)
    ensures KindsOf(a + b) == KindsOf(a) + KindsOf(b)
  {
  }

  lemma LaneAnswers(l: Link, lane: Lane)
    requires PingsPlain(l, l.pendingAcks)
    ensures var l' := AnswerLane(l, lane);
      && KindsOf(l'.pendingAcks) == KindsOf(l.pendingAcks) + DueOn(l, lane) && PingsPlain(l', l'.pendingAcks)
      && l'.ackDue == l.ackDue && l'.pingDue == l.pingDue && l'.localId == l.localId && l'.remoteId == l.remoteId
  {
    hide RetryRefused, AckPacket, KindsOf, PingPacket;
    var l1 := if lane in l.ackDue then MakeAck(l, lane) else l;
    if lane in l.ackDue {
      var l0 := l.(inb := RetryRefused(l.inb, lane), ackSerial := (l.ackSerial + 1) % U32);
      KindsJoin(l.pendingAcks, [AckPacket(l0, lane, l0.ackSerial)]);
      BuiltKinds(l0, lane);
    }
    if lane in l.pingDue {
      KindsJoin(l1.pendingAcks, [PingPacket(l, lane)]);
      BuiltKinds(l, lane);
    }
  }

  lemma BuiltKinds(l: Link, lane: Lane)
    ensures KindsOf([AckPacket(l, lane, l.ackSerial)]) == [(Ack, lane)] && KindsOf([PingPacket(l, lane)]) == [(Ping, lane)]
    ensures AckPacket(l, lane, l.ackSerial).header.flags.kind == Ack && PingsPlain(l, [PingPacket(l, lane)])
  {
    hide EncodeAck, WaitingRanges, RecvOf;
  }

  /** With nothing left to send, exactly what is due is built: lane by lane, first the Ack and then the Ping. */
  lemma AnswersLaw(l: Link)
    requires !l.failed && l.pendingAcks == []
    ensures var l' := PeekAck(l);
      && KindsOf(l'.pendingAcks) == DueOn(l, Control) + DueOn(l, Reliable) + DueOn(l, Bulk)
      && PingsPlain(l, l'.pendingAcks) && l'.ackDue == {} && l'.pingDue == {}
  {
    hide AnswerLane, KindsOf, DueOn;
    var l1 := AnswerLane(l, Control);
    var l2 := AnswerLane(l1, Reliable);
    LaneAnswers(l, Control);
    LaneAnswers(l1, Reliable);
    LaneAnswers(l2, Bulk);
    SameDue(l, l1, Reliable);
    SameDue(l, l2, Bulk);
    NoKinds();
  }

  /** How many Pings of the lane are among some packets. */
  ghost function Pings(kinds: seq<(Kind, Lane)>, lane: Lane): nat { multiset(kinds)[(Ping, lane)] }

  lemma DuePings(l: Link, lane: Lane, k: Lane)
    ensures Pings(DueOn(l, k), lane) == if k == lane && lane in l.pingDue then 1 else 0
  {
  }

  lemma PingsAdd(a: seq<(Kind, Lane)>, b: seq<(Kind, Lane)>, lane: Lane)
    ensures Pings(a + b, lane) == Pings(a, lane) + Pings(b, lane)
  {
    assert multiset(a + b) == multiset(a) + multiset(b);
  }

  /** Behind the timer, with nothing left to send: one Ping for every lane that was to be asked about, and for no other. */
  lemma PingsFollow(l: Link, now: int, clock: int, lane: Lane)
    requires Ledger(l.out) && Timed(l.out, clock) && !l.failed && !TooLong(l, now) && l.pendingAcks == [] && lane != Media
    ensures Pings(KindsOf(PeekAck(OnTimer(l, now)).pendingAcks), lane)
         == if lane in l.pingDue || AskedAbout(l, lane, now) then 1 else 0
  {
    hide Ledger, Timed, OnTimer, PeekAck, KindsOf, DueOn, TooLong, AskedAbout, FlightAfterTimer, WindowAfterLoss, ProbesAfterTimer;
    TimerLaw(l, now, clock);
    var l' := OnTimer(l, now);
    AnswersLaw(l');
    DuePings(l', lane, Control);
    DuePings(l', lane, Reliable);
    DuePings(l', lane, Bulk);
    PingsAdd(DueOn(l', Control), DueOn(l', Reliable), lane);
    PingsAdd(DueOn(l', Control) + DueOn(l', Reliable), DueOn(l', Bulk), lane);
    hide Pings;
  }

  lemma SameDue(l: Link, l': Link, lane: Lane)
    requires l'.ackDue == l.ackDue && l'.pingDue == l.pingDue
    ensures DueOn(l', lane) == DueOn(l, lane)
  {
  }

  lemma NoKinds()
    ensures KindsOf([]) == []
  {
  }

  // --- What a Data packet does ---------------------------------------------------------------------------

  /** The packet starts a message there is no room for. */
  ghost predicate NoRoom(budget: Option<Budget>, h: Header) {
    budget.Some? && h.flags.fragmented && h.fragIndex == 0 && budget.value.used + h.totalLength > budget.value.limit
  }

  /** Nothing is left behind that could be taken: the next packet is missing, or was refused for want of room. */
  ghost predicate Exhausted(c: Intake) {
    c.recv.nextExpected in c.recv.reorder ==>
      var h := c.recv.reorder[c.recv.nextExpected].header;
      c.recv.budgetPaused && c.recv.refusedLength == h.totalLength && NoRoom(c.budget, h)
  }

  /** What was next in order left the buffer, and nothing else. */
  ghost predicate TookNext(c: Intake, c': Intake) {
    && c.recv.nextExpected <= c'.recv.nextExpected && Exhausted(c')
    && (forall k :: c.recv.nextExpected <= k < c'.recv.nextExpected ==> k in c.recv.reorder)
    && (forall k :: k in c'.recv.reorder <==> k in c.recv.reorder && !(c.recv.nextExpected <= k < c'.recv.nextExpected))
    && (forall k :: k in c'.recv.reorder ==> c'.recv.reorder[k] == c.recv.reorder[k])
  }

  lemma TookOneMore(c: Intake, c1: Intake, c': Intake)
    requires var q := c.recv.nextExpected;
      q in c.recv.reorder && c1.recv.reorder == c.recv.reorder - {q} && c1.recv.nextExpected == q + 1
    requires TookNext(c1, c')
    ensures TookNext(c, c')
  {
    hide Exhausted;
    var q := c.recv.nextExpected;
    forall k
      ensures c.recv.nextExpected <= k < c'.recv.nextExpected ==> k in c.recv.reorder
      ensures k in c'.recv.reorder <==> k in c.recv.reorder && !(q <= k < c'.recv.nextExpected)
      ensures k in c'.recv.reorder ==> c'.recv.reorder[k] == c.recv.reorder[k]
    {
      assert k in c1.recv.reorder <==> k in c.recv.reorder && k != q;
    }
  }

  lemma RefusedLaw(c: Intake, lane: Lane, p: Packet)
    ensures var (c', ok) := AcceptInOrder(c, lane, p);
      && (ok <==> !NoRoom(c.budget, p.header)) && c'.recv.nextExpected == c.recv.nextExpected && c'.recv.reorder == c.recv.reorder
      && (!ok ==> c' == c.(recv := c.recv.(budgetPaused := true, refusedLength := p.header.totalLength)))
  {
    hide Accept;
  }

  lemma {:induction false} DrainLaw(c: Intake, lane: Lane)
    ensures TookNext(c, Drain(c, lane))
    decreases |c.recv.reorder|
  {
    hide AcceptInOrder, NoRoom;
    var q := c.recv.nextExpected;
    if q in c.recv.reorder {
      RefusedLaw(c, lane, c.recv.reorder[q]);
      var (c1, ok) := AcceptInOrder(c, lane, c.recv.reorder[q]);
      if ok {
        hide TookNext;
        var c2 := c1.(recv := c1.recv.(reorder := c1.recv.reorder - {q}, nextExpected := q + 1));
        assert c2.recv.reorder.Keys == c.recv.reorder.Keys - {q};
        DrainLaw(c2, lane);
        TookOneMore(c, c2, Drain(c, lane));
      }
    }
  }

  /** A lane that refused a message tries again once there is room for it. */
  ghost predicate TriesAgain(c: Intake) {
    c.recv.budgetPaused && (c.budget.None? || c.budget.value.used + c.recv.refusedLength <= c.budget.value.limit)
  }

  ghost predicate AfterRetry(c: Intake, c': Intake) { if TriesAgain(c) then TookNext(c, c') else c' == c }

  ghost predicate AfterData(c: Intake, lane: Lane, p: Packet, c': Intake) {
    var q := p.header.sq;
    if q < c.recv.nextExpected || q >= c.recv.nextExpected + Window(lane) || q in c.recv.reorder then c' == c
    else if q > c.recv.nextExpected then c' == c.(recv := c.recv.(reorder := c.recv.reorder[q := p]))
    else if NoRoom(c.budget, p.header) then
      c' == c.(recv := c.recv.(budgetPaused := true, refusedLength := p.header.totalLength))
    else TookNext(c.(recv := c.recv.(reorder := c.recv.reorder[q := p])), c') && q < c'.recv.nextExpected
  }

  lemma RetryLaw(c: Intake, lane: Lane)
    ensures AfterRetry(c, Retried(c, lane))
  {
    DrainLaw(c.(recv := c.recv.(budgetPaused := false)), lane);
    hide Drain;
  }

  lemma DataLaw(c: Intake, lane: Lane, p: Packet)
    requires InWindow(c.recv.reorder, c.recv.nextExpected, Window(lane))
    ensures AfterData(c, lane, p, TakeData(c, lane, p))
  {
    hide Drain, Accept, RingInsert;
    var q := p.header.sq;
    if !OutOfWindow(c, lane, q) && !Duplicate(c, q) {
      if q != c.recv.nextExpected {
        NoEviction(c.recv.reorder, Window(lane), c.recv.nextExpected, q, p);
      } else if HasRoomFor(c.budget, p.header) {
        var c1 := Taken(c, lane, p);
        var c2 := c1.(recv := c1.recv.(nextExpected := q + 1));
        DrainLaw(c2, lane);
        assert c.recv.reorder[q := p] - {q} == c.recv.reorder;
        TookOneMore(c.(recv := c.recv.(reorder := c.recv.reorder[q := p])), c2, TakeData(c, lane, p));
      }
    }
  }

  // --- What every packet does ----------------------------------------------------------------------------

  /** Addressed to another link, or from another one than the link talks to. */
  ghost predicate Foreign(l: Link, h: Header) {
    || (h.dst != 0 && h.dst != l.localId)
    || (l.remoteId.Some? && h.src != l.remoteId.value)
  }

  ghost predicate InWindows(i: Inbound) {
    forall lane :: lane != Media ==> InWindow(RecvOf(i, lane).reorder, RecvOf(i, lane).nextExpected, Window(lane))
  }

  /** The lane went through a retry and took the packet; the other lanes did nothing. */
  ghost predicate LaneAfterData(i: Inbound, lane: Lane, p: Packet, i': Inbound) {
    && (exists c :: AfterRetry(IntakeOf(i, lane), c) && AfterData(c, lane, p, IntakeOf(i', lane)))
    && (forall k :: k != lane ==> RecvOf(i', k) == RecvOf(i, k)) && i'.media == i.media && i'.mediaReceived == i.mediaReceived
  }

  /** Due is an Ack for everything below the upper end of the window, new or not, and for a refused message that gets its turn. */
  ghost predicate DueAfterData(l: Link, lane: Lane, q: nat, l': Link) {
    var c := IntakeOf(l.inb, lane);
    l'.ackDue == l.ackDue + if q < c.recv.nextExpected + Window(lane) || TriesAgain(c) then {lane} else {}
  }

  /** The packet is counted, and what it completes is delivered behind what waits. */
  ghost predicate MediaTaken(i: Inbound, p: Packet, i': Inbound) {
    var (media, message) := AcceptMedia(i.media, p.header, p.body);
    && i'.mediaReceived == (i.mediaReceived + 1) % U32 && i'.media == media && i'.recvs == i.recvs && i'.budget == i.budget
    && i'.delivered == i.delivered + if message.Some? then [LaneMessage(Media, message.value)] else []
  }

  ghost predicate AfterPacket(l: Link, p: Packet, now: int, l': Link) {
    var lane := p.header.flags.lane;
    && l'.remoteId == Some(p.header.src) && l'.lastReceived == (if l.lastReceived.Some? then Some(now) else None)
    && l' == l.(remoteId := l'.remoteId, lastReceived := l'.lastReceived, out := l'.out, inb := l'.inb, ackDue := l'.ackDue)
    && match p.header.flags.kind
       case Data =>
         && l'.out == l.out
         && (lane != Media ==> LaneAfterData(l.inb, lane, p, l'.inb) && DueAfterData(l, lane, p.header.sq, l'))
         && (lane == Media ==> l'.ackDue == l.ackDue && MediaTaken(l.inb, p, l'.inb))
       case Ack =>
         && l'.inb == l.inb && l'.ackDue == l.ackDue
         && (!((lane in l.out.sends || lane in l.inb.recvs) && DecodeAck(p.body).Some?) ==> l'.out == l.out)
       case Ping => l'.out == l.out && l'.inb == l.inb && l'.ackDue == l.ackDue + {lane}
       case Beacon => l'.out == l.out && l'.inb == l.inb && l'.ackDue == l.ackDue
  }

  lemma RetriedWindow(c: Intake, lane: Lane)
    requires InWindow(c.recv.reorder, c.recv.nextExpected, Window(lane))
    ensures var c' := Retried(c, lane); InWindow(c'.recv.reorder, c'.recv.nextExpected, Window(lane))
  {
    RetryLaw(c, lane);
    hide Retried, Exhausted;
  }

  lemma HandleDataLaw(l: Link, lane: Lane, p: Packet)
    requires InWindows(l.inb) && lane != Media
    ensures LaneAfterData(l.inb, lane, p, HandleData(l.inb, lane, p))
    ensures DueAfterData(l, lane, p.header.sq, l.(ackDue := l.ackDue + DueForData(l.inb, lane, p)))
  {
    hide Retried, TakeData, AfterData, AfterRetry;
    var c := IntakeOf(l.inb, lane);
    RetryLaw(c, lane);
    RetriedWindow(c, lane);
    DataLaw(Retried(c, lane), lane, p);
    DueLaw(c, lane, p.header.sq);
  }

  lemma DueLaw(c: Intake, lane: Lane, q: nat)
    ensures (!OutOfWindow(Retried(c, lane), lane, q) || MayRetry(c)) <==>
      q < c.recv.nextExpected + Window(lane) || TriesAgain(c)
  {
    hide Drain;
  }

  /** Packets of other links change nothing; whatever else arrives shows that the peer is alive, and does its work. */
  lemma ReceiveLaw(l: Link, p: Packet, now: int)
    requires InWindows(l.inb)
    ensures if l.failed || Foreign(l, p.header) then OnPacket(l, p, now) == l else AfterPacket(l, p, now, OnPacket(l, p, now))
  {
    hide HandleData, HandleAck, AcceptMedia, DecodeAck, DueForData, InWindows, LaneAfterData;
    if p.header.flags.lane != Media { HandleDataLaw(l, p.header.flags.lane, p); }
  }

  /** An Ack that can be read, on a lane that exists. */
  lemma ReceiveAckLaw(l: Link, p: Packet, now: int, clock: int)
    requires !l.failed && !Foreign(l, p.header) && p.header.flags.kind == Ack && DecodeAck(p.body).Some?
    requires var lane := p.header.flags.lane; lane != Media && (lane in l.out.sends || lane in l.inb.recvs)
    requires Ledger(l.out) && Timed(l.out, clock)
    ensures AfterAck(l.out, p.header.flags.lane, p.header.sq, p.header.flags.paused, DecodeAck(p.body).value, now,
                     OnPacket(l, p, now).out)
  {
    var ack := DecodeAck(p.body).value;
    AckLaw(l.out, p.header.flags.lane, p.header.sq, p.header.flags.paused, ack, now, clock);
    hide Ledger, Timed, HandleAck, DecodeAck, AfterAck;
  }
}
