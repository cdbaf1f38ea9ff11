/** The books of the sending half: what every operation of a link keeps, whatever packets arrive. */
module LinkLedger {
  import opened Transport
  import opened AckRanges
  import opened SequenceBuffer
  import opened Fragments
  import opened RttEstimator
  import opened LinkModel

  // --- The invariant -------------------------------------------------------------------------

  ghost predicate Has(o: Outbound, lane: Lane, q: nat) { lane in o.sends && q in o.sends[lane].inFlight }

  ghost function Entry(o: Outbound, lane: Lane, q: nat): InFlight
    requires Has(o, lane, q)
  {
    o.sends[lane].inFlight[q]
  }

  /** The packet is on the wire as far as the link knows. */
  ghost predicate Unmarked(o: Outbound, lane: Lane, q: nat) { Has(o, lane, q) && !Entry(o, lane, q).lost }

  ghost function RecordOf(o: Outbound, lane: Lane, q: nat): SentRecord
    requires Has(o, lane, q)
  {
    SentRecord(Entry(o, lane, q).transmission, q, lane)
  }

  ghost function UnmarkedSeqs(m: map<nat, InFlight>): set<nat> { set q | q in m && !m[q].lost }

  ghost predicate Distinct(s: seq<nat>) { forall i, j :: 0 <= i < j < |s| ==> s[i] != s[j] }

  /** All unacknowledged seqs lie within one window. */
  ghost predicate WindowOk(s: SendSide, lane: Lane) {
    && 1 <= s.sendBase <= s.nextSendSeq <= s.sendBase + Window(lane)
    && forall q :: q in s.inFlight ==> s.sendBase <= q < s.nextSendSeq
  }

  /** A packet marked as lost waits in the queue exactly once; whatever else is in there was acknowledged. */
  ghost predicate LostOk(s: SendSide) {
    && Distinct(s.lost)
    && (forall q :: q in s.lost ==> q < s.nextSendSeq && (q in s.inFlight ==> s.inFlight[q].lost))
    && (forall q :: q in s.inFlight && s.inFlight[q].lost ==> q in s.lost)
  }

  ghost predicate CountOk(s: SendSide) { s.onTheWire == |UnmarkedSeqs(s.inFlight)| }

  ghost predicate CursorOk(s: SendSide) { s.cursor.Some? ==> s.cursor.value.next < s.cursor.value.count }

  ghost predicate ProbeOk(s: SendSide) { s.probeAt.Some? <==> s.peerPaused }

  ghost predicate LaneOk(s: SendSide, lane: Lane) {
    lane != Media && WindowOk(s, lane) && LostOk(s) && CountOk(s) && CursorOk(s) && ProbeOk(s)
  }

  ghost predicate LanesOk(o: Outbound) { forall lane :: lane in o.sends ==> LaneOk(o.sends[lane], lane) }

  /** The log is in the order of transmission. */
  ghost predicate LogOk(sent: seq<SentRecord>, transmissions: nat) {
    && (forall i, j :: 0 <= i < j < |sent| ==> sent[i].transmission < sent[j].transmission)
    && (forall i :: 0 <= i < |sent| ==> sent[i].transmission <= transmissions)
  }

  /** Every packet that is not marked as lost has its record. */
  ghost predicate Recorded(o: Outbound) { forall lane, q :: Unmarked(o, lane, q) ==> RecordOf(o, lane, q) in o.sent }

  ghost predicate Numbered(o: Outbound) {
    forall lane, q :: Has(o, lane, q) ==> 1 <= Entry(o, lane, q).transmission <= o.transmissions
  }

  /** The congestion window, and the Reliable and Bulk packets on the wire under it. */
  ghost predicate WindowBounds(o: Outbound) {
    if o.fixedCwnd > 0 then o.cwnd == o.fixedCwnd as real
    else MIN_CWND as real <= o.cwnd <= MAX_CWND as real && OnWire(o) <= MAX_CWND
  }

  ghost predicate CountersOk(o: Outbound) {
    o.largestAcked <= o.transmissions && o.recoveryStart <= o.transmissions && o.rtt.Valid()
  }

  /** Everything but the front of the log and the stall clock, which are only right between operations. */
  ghost predicate Books(o: Outbound) {
    LanesOk(o) && LogOk(o.sent, o.transmissions) && Recorded(o) && Numbered(o) && WindowBounds(o) && CountersOk(o)
  }

  ghost predicate FrontLive(o: Outbound) { o.sent != [] ==> Live(o, o.sent[0]) }

  ghost predicate StallOk(o: Outbound) { o.stalledSince.Some? <==> Waiting(o) }

  ghost predicate Ledger(o: Outbound) { Books(o) && FrontLive(o) && StallOk(o) }

  /** Send times follow the order of transmission and none is ahead of the clock. */
  ghost predicate Timed(o: Outbound, clock: int) {
    && (forall lane, q :: Unmarked(o, lane, q) ==> Entry(o, lane, q).sentAt <= clock)
    && (forall lane, q, lane', q' :: Unmarked(o, lane, q) && Unmarked(o, lane', q')
          && Entry(o, lane, q).transmission <= Entry(o, lane', q').transmission
          ==> Entry(o, lane, q).sentAt <= Entry(o, lane', q').sentAt)
  }

  lemma NewOutboundOk(t: Timings, clock: int)
    requires 0 < t.minRto <= t.maxRto
    ensures Ledger(NewOutbound(t)) && Timed(NewOutbound(t), clock)
  {
  }

  lemma SendOfOk(o: Outbound, lane: Lane)
    requires LanesOk(o) && lane != Media
    ensures LaneOk(SendOf(o, lane), lane)
  {
  }

  // --- One lane changed -------------------------------------------------------------------------

  lemma WithSendEntries(o: Outbound, lane: Lane, s: SendSide, k: Lane, q: nat)
    ensures var o' := WithSend(o, lane, s);
            && (Has(o', k, q) <==> if k == lane then q in s.inFlight else Has(o, k, q))
            && (Has(o', k, q) ==> Entry(o', k, q) == if k == lane then s.inFlight[q] else Entry(o, k, q))
  {
  }

  /** The queue without the seqs that were acknowledged while they waited. */
  lemma {:induction false} LiveLostKeeps(s: SendSide, lost: seq<nat>)
    requires Distinct(lost)
    ensures var r := LiveLost(s, lost);
            && Distinct(r) && (forall q :: q in r ==> q in lost)
            && (forall q :: q in lost && WaitsAsLost(s, q) ==> q in r)
  {
    if lost != [] && !WaitsAsLost(s, lost[0]) {
      LiveLostKeeps(s, lost[1..]);
      assert lost == [lost[0]] + lost[1..];
    }
  }

  lemma NextLostOk(s: SendSide, lane: Lane)
    requires LaneOk(s, lane)
    ensures LaneOk(NextLost(s), lane)
  {
    LiveLostKeeps(s, s.lost);
  }

  /** The same packets are in flight on every lane. */
  ghost predicate SameFlight(o: Outbound, o': Outbound) {
    && (forall k, q :: Has(o', k, q) ==> Has(o, k, q) && Entry(o', k, q) == Entry(o, k, q))
    && (forall k, q :: Has(o, k, q) ==> Has(o', k, q))
  }

  lemma SameFlightRecorded(o: Outbound, o': Outbound)
    requires SameFlight(o, o') && o'.sent == o.sent && Recorded(o)
    ensures Recorded(o')
  {
    forall k, q | Unmarked(o', k, q)
      ensures RecordOf(o', k, q) in o'.sent
    {
      assert Unmarked(o, k, q);
    }
  }

  lemma SameFlightTimed(o: Outbound, o': Outbound, clock: int)
    requires SameFlight(o, o') && Timed(o, clock)
    ensures Timed(o', clock)
  {
    assert forall k, q :: Unmarked(o', k, q) ==> Unmarked(o, k, q);
  }

  /** A lane that changed nothing but its queue, its cursor or its pause leaves the books right. */
  lemma LaneChangeKeeps(o: Outbound, lane: Lane, s: SendSide)
    requires Books(o) && LaneOk(s, lane) && s.inFlight == SendOf(o, lane).inFlight && s.onTheWire == SendOf(o, lane).onTheWire
    ensures Books(WithSend(o, lane, s)) && SameFlight(o, WithSend(o, lane, s))
    ensures FrontLive(o) ==> FrontLive(WithSend(o, lane, s))
  {
    var o' := WithSend(o, lane, s);
    forall k, q
      ensures Has(o', k, q) ==> Has(o, k, q) && Entry(o', k, q) == Entry(o, k, q)
      ensures Has(o, k, q) ==> Has(o', k, q)
    {
      WithSendEntries(o, lane, s, k, q);
    }
    SameFlightRecorded(o, o');
  }

  lemma LaneChangeWaits(o: Outbound, lane: Lane, s: SendSide)
    requires s.inFlight == SendOf(o, lane).inFlight && s.peerPaused == SendOf(o, lane).peerPaused
    ensures Waiting(WithSend(o, lane, s)) <==> Waiting(o)
  {
    var o' := WithSend(o, lane, s);
    assert LaneWaits(o', Control) <==> LaneWaits(o, Control);
    assert LaneWaits(o', Reliable) <==> LaneWaits(o, Reliable);
    assert LaneWaits(o', Bulk) <==> LaneWaits(o, Bulk);
  }

  /** ... and all is right with the ledger when the pause did not change either. */
  lemma LaneTouchKeeps(o: Outbound, lane: Lane, s: SendSide)
    requires Ledger(o) && LaneOk(s, lane) && s.inFlight == SendOf(o, lane).inFlight && s.onTheWire == SendOf(o, lane).onTheWire
    requires s.peerPaused == SendOf(o, lane).peerPaused
    ensures Ledger(WithSend(o, lane, s)) && SameFlight(o, WithSend(o, lane, s))
  {
    hide LaneOk, Books, SameFlight, FrontLive, Waiting;
    LaneChangeKeeps(o, lane, s);
    LaneChangeWaits(o, lane, s);
  }

  /** The lanes and the log are the same. */
  ghost predicate SameLanes(o: Outbound, o': Outbound) {
    && o'.sends == o.sends && o'.sent == o.sent && o'.transmissions == o.transmissions && o'.largestAcked == o.largestAcked
    && o'.recoveryStart == o.recoveryStart && o'.rtt == o.rtt && o'.fixedCwnd == o.fixedCwnd
  }

  lemma SameLanesFlight(o: Outbound, o': Outbound)
    requires SameLanes(o, o')
    ensures SameFlight(o, o') && (FrontLive(o) ==> FrontLive(o')) && (Waiting(o') <==> Waiting(o)) && OnWire(o') == OnWire(o)
  {
  }

  lemma SameLanesBooks(o: Outbound, o': Outbound)
    requires SameLanes(o, o') && Books(o) && WindowBounds(o')
    ensures Books(o')
  {
    SameLanesFlight(o, o');
    SameFlightRecorded(o, o');
    hide LaneOk, WindowBounds;
  }

  lemma ClockKeeps(o: Outbound, now: int, progress: bool)
    requires Books(o)
    ensures var o' := UpdateProgressClock(o, now, progress);
            Books(o') && StallOk(o') && SameFlight(o, o') && (FrontLive(o) ==> FrontLive(o'))
  {
    hide SameFlight, FrontLive, LanesOk, LogOk, Recorded, Numbered, CountersOk;
    var o' := UpdateProgressClock(o, now, progress);
    SameLanesFlight(o, o');
    SameLanesBooks(o, o');
  }

  // --- Peek and commit ----------------------------------------------------------------------------

  /** A datagram is on offer: what the last peek of the lane found. */
  ghost predicate Ready(o: Outbound, lane: Lane) {
    && lane != Media && !HeldBack(o, lane) && FrontWaits(SendOf(o, lane))
    && (SendOf(o, lane).lost == [] ==> SendOf(o, lane).cursor.Some?)
  }

  lemma DropDeadKeeps(o: Outbound, lane: Lane)
    requires Ledger(o)
    ensures Ledger(DropDead(o, lane)) && SameFlight(o, DropDead(o, lane))
  {
    if lane in o.sends {
      NextLostOk(o.sends[lane], lane);
      LaneTouchKeeps(o, lane, NextLost(SendOf(o, lane)));
    }
  }

  lemma FirstCursorKeeps(o: Outbound, lane: Lane, c: Cursor)
    requires Ledger(o) && lane != Media && c.next < c.count
    ensures var o' := WithSend(o, lane, SendOf(o, lane).(cursor := Some(c))); Ledger(o') && SameFlight(o, o')
  {
    hide FrontLive, StallOk, Recorded, Numbered, LogOk, WindowBounds, CountersOk, SameFlight;
    SendOfOk(o, lane);
    NewCursorOk(SendOf(o, lane), lane, c);
    hide LaneOk;
    LaneTouchKeeps(o, lane, SendOf(o, lane).(cursor := Some(c)));
  }

  lemma NewCursorOk(s: SendSide, lane: Lane, c: Cursor)
    requires LaneOk(s, lane) && c.next < c.count
    ensures LaneOk(s.(cursor := Some(c)), lane)
  {
  }

  /** A peek touches no packet: what is in flight, on the wire and in the log stays. If a datagram is on offer, commit
      will find it. */
  lemma PeekLaneKeeps(o: Outbound, lane: Lane, offered: Option<Message>)
    requires Ledger(o) && lane != Media
    ensures var o' := PeekLane(o, lane, offered);
            && Ledger(o') && SameFlight(o, o') && o'.sent == o.sent && o'.transmissions == o.transmissions
            && (!OfferOf(DropDead(o, lane), lane, offered).0.Nothing? ==> Ready(o', lane))
  {
    hide Ledger;
    var o1 := DropDead(o, lane);
    DropDeadKeeps(o, lane);
    if OfferOf(o1, lane, offered).1 {
      FirstCursorKeeps(o1, lane, CursorFor(offered.value));
    }
  }

  /** The packet of the seq is on the wire, before the stall clock is looked at. */
  ghost function PutOnWire(o: Outbound, lane: Lane, s: SendSide, q: nat): Outbound {
    o.(sends := o.sends[lane := s], transmissions := o.transmissions + 1,
       sent := o.sent + [SentRecord(o.transmissions + 1, q, lane)])
  }

  /** The one entry that changed: it was not on the wire before and is now, as the latest transmission. */
  ghost predicate NewlyOnWire(o: Outbound, lane: Lane, s: SendSide, q: nat) {
    && q in s.inFlight && !s.inFlight[q].lost && s.inFlight[q].transmission == o.transmissions + 1
    && (q in SendOf(o, lane).inFlight ==> SendOf(o, lane).inFlight[q].lost)
    && (forall k :: k != q ==> (k in s.inFlight <==> k in SendOf(o, lane).inFlight))
    && (forall k :: k != q && k in s.inFlight ==> s.inFlight[k] == SendOf(o, lane).inFlight[k])
  }

  lemma PutOnWireEntries(o: Outbound, lane: Lane, s: SendSide, q: nat, k: Lane, x: nat)
    requires NewlyOnWire(o, lane, s, q) && (k != lane || x != q)
    ensures var o' := PutOnWire(o, lane, s, q);
            && (Has(o', k, x) <==> Has(o, k, x))
            && (Has(o, k, x) ==> Entry(o', k, x) == Entry(o, k, x))
  {
  }

  lemma PutOnWireRecorded(o: Outbound, lane: Lane, s: SendSide, q: nat)
    requires NewlyOnWire(o, lane, s, q) && Recorded(o) && Numbered(o)
    ensures Recorded(PutOnWire(o, lane, s, q)) && Numbered(PutOnWire(o, lane, s, q))
  {
    var o' := PutOnWire(o, lane, s, q);
    hide NewlyOnWire;
    forall k, x
      ensures Has(o', k, x) ==> 1 <= Entry(o', k, x).transmission <= o'.transmissions
      ensures Unmarked(o', k, x) ==> RecordOf(o', k, x) in o'.sent
    {
      if k == lane && x == q {
        assert NewlyAt(o, lane, s, q) by { NewlyFacts(o, lane, s, q); }
        assert o'.sent[|o.sent|] == SentRecord(o.transmissions + 1, q, lane);
      } else {
        PutOnWireEntries(o, lane, s, q, k, x);
        assert Unmarked(o', k, x) ==> Unmarked(o, k, x) && RecordOf(o', k, x) == RecordOf(o, k, x);
      }
    }
  }

  ghost predicate NewlyAt(o: Outbound, lane: Lane, s: SendSide, q: nat) {
    q in s.inFlight && !s.inFlight[q].lost && s.inFlight[q].transmission == o.transmissions + 1
  }

  lemma NewlyFacts(o: Outbound, lane: Lane, s: SendSide, q: nat)
    requires NewlyOnWire(o, lane, s, q)
    ensures NewlyAt(o, lane, s, q)
  {
  }

  lemma PutOnWireFront(o: Outbound, lane: Lane, s: SendSide, q: nat)
    requires NewlyOnWire(o, lane, s, q) && FrontLive(o)
    ensures FrontLive(PutOnWire(o, lane, s, q))
  {
    if o.sent != [] {
      var r := o.sent[0];
      assert Has(o, r.lane, r.sq);
      if r.lane != lane || r.sq != q {
        PutOnWireEntries(o, lane, s, q, r.lane, r.sq);
      }
      assert PutOnWire(o, lane, s, q).sent[0] == r;
    }
  }

  lemma PutOnWireTimed(o: Outbound, lane: Lane, s: SendSide, q: nat, clock: int)
    requires NewlyOnWire(o, lane, s, q) && Numbered(o) && Timed(o, clock) && s.inFlight[q].sentAt >= clock
    ensures Timed(PutOnWire(o, lane, s, q), s.inFlight[q].sentAt)
  {
    var o' := PutOnWire(o, lane, s, q);
    forall k, x
      ensures Unmarked(o', k, x) && !(k == lane && x == q) ==> Unmarked(o, k, x) && Entry(o', k, x) == Entry(o, k, x)
    {
      if k != lane || x != q {
        PutOnWireEntries(o, lane, s, q, k, x);
      }
    }
  }

  lemma PutOnWireKeeps(o: Outbound, lane: Lane, s: SendSide, q: nat)
    requires Books(o) && FrontLive(o) && LaneOk(s, lane) && NewlyOnWire(o, lane, s, q)
    requires CongestionOpen(o, lane) && s.onTheWire == SendOf(o, lane).onTheWire + 1
    ensures Books(PutOnWire(o, lane, s, q)) && FrontLive(PutOnWire(o, lane, s, q))
  {
    hide LaneOk, Recorded, Numbered, NewlyOnWire, FrontLive;
    PutOnWireRecorded(o, lane, s, q);
    PutOnWireFront(o, lane, s, q);
  }

  // Sending a packet again

  /** The stream after the packet at the front of its queue went out again. */
  ghost function SentAgain(s: SendSide, e: InFlight): SendSide
    requires s.lost != []
  {
    s.(lost := s.lost[1..], inFlight := s.inFlight[s.lost[0] := e], onTheWire := s.onTheWire + 1)
  }

  lemma SentAgainCount(s: SendSide, q: nat, e: InFlight)
    requires q in s.inFlight && s.inFlight[q].lost && !e.lost
    ensures |UnmarkedSeqs(s.inFlight[q := e])| == |UnmarkedSeqs(s.inFlight)| + 1
  {
    assert UnmarkedSeqs(s.inFlight[q := e]) == UnmarkedSeqs(s.inFlight) + {q};
  }

  lemma SentAgainOk(s: SendSide, lane: Lane, e: InFlight)
    requires LaneOk(s, lane) && s.lost != [] && WaitsAsLost(s, s.lost[0]) && !e.lost
    ensures LaneOk(SentAgain(s, e), lane)
  {
    SentAgainCount(s, s.lost[0], e);
    SentAgainLost(s, e);
    hide LostOk, UnmarkedSeqs;
  }

  lemma SentAgainLost(s: SendSide, e: InFlight)
    requires LostOk(s) && s.lost != [] && !e.lost
    ensures LostOk(SentAgain(s, e))
  {
    var q, s' := s.lost[0], SentAgain(s, e);
    forall k | 0 <= k < |s.lost[1..]|
      ensures s.lost[1..][k] != q
    {
      assert s.lost[1..][k] == s.lost[k + 1];
    }
    assert Distinct(s'.lost);
    forall x | x in s'.lost
      ensures x != q && x in s.lost
    {
      var k :| 0 <= k < |s'.lost| && s'.lost[k] == x;
    }
    forall x | x in s'.inFlight && s'.inFlight[x].lost
      ensures x in s'.lost
    {
      var k :| 0 <= k < |s.lost| && s.lost[k] == x;
      assert s'.lost[k - 1] == x;
    }
  }

  // Sending the next fragment

  /** The stream after the fragment under the cursor went out for the first time. */
  ghost function SentFirst(s: SendSide, c: Cursor, e: InFlight): SendSide {
    s.(nextSendSeq := s.nextSendSeq + 1, cursor := Advanced(c), inFlight := s.inFlight[s.nextSendSeq := e],
       onTheWire := s.onTheWire + 1)
  }

  lemma SentFirstOk(s: SendSide, lane: Lane, c: Cursor, e: InFlight)
    requires LaneOk(s, lane) && s.nextSendSeq - s.sendBase < Window(lane) && !e.lost && c.next < c.count
    ensures LaneOk(SentFirst(s, c, e), lane) && s.nextSendSeq !in s.inFlight
  {
    var q := s.nextSendSeq;
    assert UnmarkedSeqs(s.inFlight[q := e]) == UnmarkedSeqs(s.inFlight) + {q};
    assert q !in UnmarkedSeqs(s.inFlight);
    assert q !in s.lost;
  }

  lemma InsertedPlain(s: SendSide, lane: Lane, c: Cursor)
    requires WindowOk(s, lane) && s.nextSendSeq - s.sendBase < Window(lane)
    ensures Inserted(s, lane, c).inFlight == s.inFlight[s.nextSendSeq := InFlight(FragmentAt(c), 0, false, 0, 0)]
  {
    NoEviction(s.inFlight, Window(lane), s.sendBase, s.nextSendSeq, InFlight(FragmentAt(c), 0, false, 0, 0));
  }

  /** What the last transmission of the log says about the packet that just went out. */
  ghost function EntryNow(o: Outbound, e: InFlight, now: int): InFlight {
    e.(lost := false, sentAt := now, transmission := o.transmissions + 1, transmissions := (e.transmissions + 1) % U16)
  }

  lemma CommitLostIs(o: Outbound, lane: Lane, now: int)
    requires var s := SendOf(o, lane); s.lost != [] && WaitsAsLost(s, s.lost[0])
    ensures var s := SendOf(o, lane);
            var s' := SentAgain(s, EntryNow(o, s.inFlight[s.lost[0]], now));
            && CommitLost(o, lane, now) == UpdateProgressClock(PutOnWire(o, lane, s', s.lost[0]), now, false)
            && NewlyOnWire(o, lane, s', s.lost[0])
  {
  }

  lemma CommitFreshIs(o: Outbound, lane: Lane, now: int)
    requires var s := SendOf(o, lane);
             WindowOk(s, lane) && s.cursor.Some? && s.nextSendSeq - s.sendBase < Window(lane)
    ensures var s := SendOf(o, lane);
            var s' := SentFirst(s, s.cursor.value, EntryNow(o, InFlight(FragmentAt(s.cursor.value), 0, false, 0, 0), now));
            && CommitFresh(o, lane, now) == UpdateProgressClock(PutOnWire(o, lane, s', s.nextSendSeq), now, false)
            && NewlyOnWire(o, lane, s', s.nextSendSeq)
  {
    var s := SendOf(o, lane);
    InsertedPlain(s, lane, s.cursor.value);
    var e0 := InFlight(FragmentAt(s.cursor.value), 0, false, 0, 0);
    assert s.inFlight[s.nextSendSeq := e0][s.nextSendSeq := EntryNow(o, e0, now)]
        == s.inFlight[s.nextSendSeq := EntryNow(o, e0, now)];
  }

  lemma LiveLostStable(s: SendSide)
    requires FrontWaits(s)
    ensures NextLost(s) == s
  {
  }

  lemma DropDeadStable(o: Outbound, lane: Lane)
    requires FrontWaits(SendOf(o, lane))
    ensures DropDead(o, lane) == o
  {
    LiveLostStable(SendOf(o, lane));
    if lane in o.sends {
      assert o.sends[lane := o.sends[lane]] == o.sends;
    }
  }

  /** The seq, the lane's stream and the link after a commit that follows its peek. */
  lemma CommitLaneKeeps(o: Outbound, lane: Lane, now: int, clock: int)
    requires Ledger(o) && Timed(o, clock) && Ready(o, lane) && now >= clock
    ensures Ledger(CommitLane(o, lane, now)) && Timed(CommitLane(o, lane, now), now)
  {
    DropDeadStable(o, lane);
    SendOfOk(o, lane);
    var s := SendOf(o, lane);
    if s.lost != [] {
      var s', q := SentAgain(s, EntryNow(o, s.inFlight[s.lost[0]], now)), s.lost[0];
      CommitLostIs(o, lane, now);
      SentAgainOk(s, lane, EntryNow(o, s.inFlight[q], now));
      CommitStep(o, lane, s', q, now, clock);
    } else {
      var e := EntryNow(o, InFlight(FragmentAt(s.cursor.value), 0, false, 0, 0), now);
      CommitFreshIs(o, lane, now);
      SentFirstOk(s, lane, s.cursor.value, e);
      CommitStep(o, lane, SentFirst(s, s.cursor.value, e), s.nextSendSeq, now, clock);
    }
  }

  lemma CommitStep(o: Outbound, lane: Lane, s: SendSide, q: nat, now: int, clock: int)
    requires Ledger(o) && Timed(o, clock) && now >= clock
    requires LaneOk(s, lane) && NewlyOnWire(o, lane, s, q) && s.inFlight[q].sentAt == now
    requires CongestionOpen(o, lane) && s.onTheWire == SendOf(o, lane).onTheWire + 1
    ensures var o' := UpdateProgressClock(PutOnWire(o, lane, s, q), now, false);
            Ledger(o') && Timed(o', now)
  {
    hide Timed, SameFlight;
    PutOnWireKeeps(o, lane, s, q);
    PutOnWireTimed(o, lane, s, q, clock);
    var o1 := PutOnWire(o, lane, s, q);
    ClockKeeps(o1, now, false);
    SameFlightTimed(o1, UpdateProgressClock(o1, now, false), now);
  }

  // --- Sweeping the log ----------------------------------------------------------------------------

  lemma RecordIsLive(o: Outbound, lane: Lane, q: nat)
    requires Unmarked(o, lane, q)
    ensures Live(o, RecordOf(o, lane, q))
  {
  }

  lemma PopDeadWindow(o: Outbound)
    requires WindowBounds(o) && CountersOk(o) && o.sent != []
    ensures WindowBounds(o.(sent := o.sent[1..])) && CountersOk(o.(sent := o.sent[1..]))
  {
  }

  /** A record whose packet is not on the wire anymore is of no use. */
  lemma PopDeadKeeps(o: Outbound)
    requires Books(o) && o.sent != [] && !Live(o, o.sent[0])
    ensures Books(o.(sent := o.sent[1..]))
  {
    hide LaneOk, WindowBounds, CountersOk;
    var o' := o.(sent := o.sent[1..]);
    assert forall k, x :: Has(o', k, x) ==> Has(o, k, x) && Entry(o', k, x) == Entry(o, k, x);
    PopDeadWindow(o);
    forall k, x | Unmarked(o', k, x)
      ensures RecordOf(o', k, x) in o'.sent
    {
      assert Unmarked(o, k, x) && RecordOf(o, k, x) in o.sent;
      RecordIsLive(o, k, x);
      assert o.sent == [o.sent[0]] + o'.sent;
    }
  }

  lemma MarkedOk(s: SendSide, lane: Lane, q: nat)
    requires LaneOk(s, lane) && q in s.inFlight && !s.inFlight[q].lost
    ensures LaneOk(Marked(s, q), lane)
  {
    var m := s.inFlight[q := s.inFlight[q].(lost := true)];
    assert UnmarkedSeqs(m) == UnmarkedSeqs(s.inFlight) - {q};
    assert q in UnmarkedSeqs(s.inFlight);
    assert q !in s.lost;
    assert LostOk(Marked(s, q));
  }

  /** All packets are as before but one, which is marked as lost now. */
  ghost predicate MarkedOnly(o: Outbound, o': Outbound, lane: Lane, q: nat) {
    && (forall k, x :: Has(o', k, x) <==> Has(o, k, x))
    && (forall k, x :: Has(o, k, x) && (k != lane || x != q) ==> Entry(o', k, x) == Entry(o, k, x))
    && (Has(o, lane, q) ==> Entry(o', lane, q) == Entry(o, lane, q).(lost := true))
  }

  lemma MarkLostEntries(o: Outbound, r: SentRecord)
    requires Live(o, r)
    ensures MarkedOnly(o, MarkLost(o, r), r.lane, r.sq)
  {
  }

  lemma MarkFrontRecorded(o: Outbound)
    requires o.sent != [] && Live(o, o.sent[0]) && Recorded(o) && Numbered(o)
    ensures var o' := MarkLost(o.(sent := o.sent[1..]), o.sent[0]); Recorded(o') && Numbered(o')
  {
    var r, rest := o.sent[0], o.(sent := o.sent[1..]);
    var o' := MarkLost(rest, r);
    MarkLostEntries(rest, r);
    hide *;
    MarkedRecorded(o, rest, o', r);
  }

  lemma MarkedRecorded(o: Outbound, rest: Outbound, o': Outbound, r: SentRecord)
    requires o.sent != [] && o.sent[0] == r && rest == o.(sent := o.sent[1..]) && Recorded(o) && Numbered(o)
    requires MarkedOnly(rest, o', r.lane, r.sq) && o'.sent == rest.sent && o'.transmissions == o.transmissions
    ensures Recorded(o') && Numbered(o')
  {
    forall k, x
      ensures Has(o', k, x) ==> 1 <= Entry(o', k, x).transmission <= o'.transmissions
      ensures Unmarked(o', k, x) ==> RecordOf(o', k, x) in o'.sent
    {
      assert Has(rest, k, x) <==> Has(o, k, x);
      if Unmarked(o', k, x) {
        assert Unmarked(o, k, x) && RecordOf(o', k, x) == RecordOf(o, k, x) != r;
        assert o.sent == [r] + o'.sent;
      }
    }
  }

  lemma MarkLostWindow(o: Outbound, r: SentRecord)
    requires Live(o, r) && WindowBounds(o)
    ensures WindowBounds(MarkLost(o, r))
  {
    assert OnWire(MarkLost(o, r)) <= OnWire(o);
  }

  lemma MarkLostLanes(o: Outbound, r: SentRecord)
    requires Live(o, r) && LanesOk(o)
    ensures LanesOk(MarkLost(o, r))
  {
    MarkedOk(o.sends[r.lane], r.lane, r.sq);
    hide LaneOk;
  }

  /** The packet at the front of the log is declared lost. */
  lemma MarkFrontKeeps(o: Outbound)
    requires Books(o) && o.sent != [] && Live(o, o.sent[0])
    ensures Books(MarkLost(o.(sent := o.sent[1..]), o.sent[0]))
  {
    hide LaneOk, Recorded, Numbered;
    var r, rest := o.sent[0], o.(sent := o.sent[1..]);
    MarkFrontRecorded(o);
    MarkLostLanes(rest, r);
    hide LanesOk, WindowBounds;
    MarkLostWindow(rest, r);
  }

  /** Nothing changed but the log and which packets are marked as lost, and none of those was unmarked. */
  ghost predicate Swept(o: Outbound, o': Outbound) {
    && (forall k, x :: Has(o', k, x) <==> Has(o, k, x))
    && (forall k, x :: Has(o, k, x) ==> Entry(o', k, x) == Entry(o, k, x).(lost := Entry(o', k, x).lost))
    && (forall k, x :: Unmarked(o', k, x) ==> Unmarked(o, k, x))
  }

  /** ... and of the counters, only the congestion window. */
  ghost predicate SweptCounters(o: Outbound, o': Outbound) {
    && o'.transmissions == o.transmissions && o'.largestAcked == o.largestAcked && o'.stalledSince == o.stalledSince
    && o'.timeoutsInARow == o.timeoutsInARow && o'.rtt == o.rtt && o'.fixedCwnd == o.fixedCwnd
    && o'.recoveryStart >= o.recoveryStart
  }

  ghost predicate SameSend(s: SendSide, s': SendSide) {
    && s'.cursor == s.cursor && s'.nextSendSeq == s.nextSendSeq && s'.sendBase == s.sendBase
    && s'.peerPaused == s.peerPaused && s'.probeAt == s.probeAt && s'.ackSerial == s.ackSerial
    && s'.probeInterval == s.probeInterval && s'.inFlight.Keys == s.inFlight.Keys
  }

  ghost predicate SweptSends(o: Outbound, o': Outbound) { forall k :: SameSend(SendOf(o, k), SendOf(o', k)) }

  lemma SweptTrans(a: Outbound, b: Outbound, c: Outbound)
    requires Swept(a, b) && Swept(b, c)
    ensures Swept(a, c)
  {
  }

  lemma SweptTimed(o: Outbound, o': Outbound, clock: int)
    requires Swept(o, o') && Timed(o, clock)
    ensures Timed(o', clock)
  {
  }

  lemma MarkLostSwept(o: Outbound, r: SentRecord)
    requires Live(o, r)
    ensures Swept(o, MarkLost(o, r))
  {
    MarkLostEntries(o, r);
  }

  lemma MarkLostSends(o: Outbound, r: SentRecord)
    requires Live(o, r)
    ensures SweptSends(o, MarkLost(o, r))
  {
  }

  /** What a sweep leaves unmarked is what it keeps. */
  ghost predicate AllKept(o: Outbound, mode: Sweep) {
    match mode
    case ByAcks => forall k, x :: Unmarked(o, k, x) ==> Entry(o, k, x).transmission + FAST_RETRANSMIT > o.largestAcked
    case ByTime(now, timeout) => forall k, x :: Unmarked(o, k, x) ==> now < Entry(o, k, x).sentAt + timeout
  }

  lemma FrontIsOldest(o: Outbound, k: Lane, x: nat)
    requires Recorded(o) && LogOk(o.sent, o.transmissions) && Unmarked(o, k, x)
    ensures o.sent != [] && o.sent[0].transmission <= Entry(o, k, x).transmission
  {
    var r := RecordOf(o, k, x);
    assert r in o.sent;
    var i :| 0 <= i < |o.sent| && o.sent[i] == r;
  }

  /** The front of an ordered log is enough to look at. */
  lemma FrontKeptMeansAll(o: Outbound, mode: Sweep, clock: int)
    requires Recorded(o) && LogOk(o.sent, o.transmissions) && Timed(o, clock)
    requires o.sent != [] && Live(o, o.sent[0]) && Keeps(o, o.sent[0], mode)
    ensures AllKept(o, mode)
  {
    var r := o.sent[0];
    assert Unmarked(o, r.lane, r.sq);
    forall k, x | Unmarked(o, k, x)
      ensures Entry(o, r.lane, r.sq).transmission <= Entry(o, k, x).transmission
    {
      FrontIsOldest(o, k, x);
    }
  }

  /** A sweep keeps the books, leaves the front of the log live, and leaves nothing behind that it looks for. */
  lemma {:induction false} SweepKeeps(o: Outbound, mode: Sweep, clock: int)
    requires Books(o) && Timed(o, clock)
    ensures var o' := SweepLog(o, mode).0;
            Books(o') && FrontLive(o') && Timed(o', clock) && AllKept(o', mode) && Swept(o, o') && SweptCounters(o, o')
    decreases |o.sent|, 0
  {
    if o.sent == [] {
      assert forall k, x :: !Unmarked(o, k, x);
    } else {
      var r, rest := o.sent[0], o.(sent := o.sent[1..]);
      assert Swept(o, rest);
      if !Live(o, r) {
        PopDeadKeeps(o);
        SweepRest(o, rest, mode, clock);
      } else if Keeps(o, r, mode) {
        FrontKeptMeansAll(o, mode, clock);
      } else {
        MarkFrontKeeps(o);
        MarkLostSwept(rest, r);
        SweptTrans(o, rest, MarkLost(rest, r));
        SweepRest(o, MarkLost(rest, r), mode, clock);
      }
    }
  }

  lemma {:induction false} SweepRest(o: Outbound, next: Outbound, mode: Sweep, clock: int)
    requires Books(next) && Swept(o, next) && SweptCounters(o, next) && Timed(o, clock)
    requires |next.sent| < |o.sent|
    ensures var o' := SweepLog(next, mode).0;
            Books(o') && FrontLive(o') && Timed(o', clock) && AllKept(o', mode) && Swept(o, o') && SweptCounters(o, o')
    decreases |next.sent|, 1
  {
    hide Books, FrontLive, Timed, AllKept, Swept;
    SweptTimed(o, next, clock);
    SweepKeeps(next, mode, clock);
    SweptTrans(o, next, SweepLog(next, mode).0);
  }

  lemma {:induction false} SweepSends(o: Outbound, mode: Sweep)
    ensures SweptSends(o, SweepLog(o, mode).0)
    decreases |o.sent|
  {
    if o.sent != [] {
      var r, rest := o.sent[0], o.(sent := o.sent[1..]);
      assert SweptSends(o, rest);
      if !Live(o, r) {
        SweepSends(rest, mode);
      } else if !Keeps(o, r, mode) {
        MarkLostSends(rest, r);
        SweepSends(MarkLost(rest, r), mode);
      }
    }
  }

  // --- Acknowledgements ------------------------------------------------------------------------------

  /** Some packets are not in flight anymore; the rest of the stream is as it was. */
  ghost predicate ReleasedFrom(s: SendSide, s': SendSide) {
    && s' == s.(inFlight := s'.inFlight, onTheWire := s'.onTheWire)
    && (forall q :: q in s'.inFlight ==> q in s.inFlight && s'.inFlight[q] == s.inFlight[q])
    && s'.onTheWire <= s.onTheWire
  }

  /** The latest transmission among those released and the one before. */
  ghost predicate LargestOk(s: SendSide, a: Release, before: nat) {
    && before <= a.largestAcked
    && (forall q :: q in s.inFlight && q !in a.send.inFlight ==> s.inFlight[q].transmission <= a.largestAcked)
    && (a.largestAcked == before || exists q :: WasLargest(s, a, q))
  }

  ghost predicate WasLargest(s: SendSide, a: Release, q: nat) {
    q in s.inFlight && q !in a.send.inFlight && a.largestAcked == s.inFlight[q].transmission
  }

  ghost predicate AckedOk(s: SendSide, a: Release) {
    a.counted <= a.acked && a.acked == |s.inFlight.Keys - a.send.inFlight.Keys|
  }

  ghost predicate ReleaseOk(s: SendSide, a: Release, lane: Lane, before: nat) {
    ReleasedFrom(s, a.send) && LaneOk(a.send, lane) && LargestOk(s, a, before) && AckedOk(s, a)
  }

  lemma RemoveCounts(m: map<nat, InFlight>, q: nat)
    requires q in m
    ensures |UnmarkedSeqs(m - {q})| == |UnmarkedSeqs(m)| - (if m[q].lost then 0 else 1)
  {
    if m[q].lost {
      assert UnmarkedSeqs(m - {q}) == UnmarkedSeqs(m);
    } else {
      assert UnmarkedSeqs(m - {q}) == UnmarkedSeqs(m) - {q};
      assert q in UnmarkedSeqs(m);
    }
  }

  lemma ReleaseOneLane(a: Release, lane: Lane, q: nat, recoveryStart: nat)
    requires LaneOk(a.send, lane)
    ensures LaneOk(ReleaseOne(a, q, recoveryStart).send, lane)
  {
    if q in a.send.inFlight {
      RemoveCounts(a.send.inFlight, q);
    }
  }

  lemma ReleaseOneLargest(s: SendSide, a: Release, before: nat, q: nat, recoveryStart: nat)
    requires ReleasedFrom(s, a.send) && LargestOk(s, a, before) && q in a.send.inFlight
    ensures LargestOk(s, ReleaseOne(a, q, recoveryStart), before)
  {
    var b := ReleaseOne(a, q, recoveryStart);
    if b.largestAcked == a.send.inFlight[q].transmission {
      assert WasLargest(s, b, q);
    } else if b.largestAcked != before {
      var x :| WasLargest(s, a, x);
      assert WasLargest(s, b, x);
    }
  }

  lemma ReleaseOneAcked(s: SendSide, a: Release, q: nat, recoveryStart: nat)
    requires ReleasedFrom(s, a.send) && AckedOk(s, a) && q in a.send.inFlight
    ensures AckedOk(s, ReleaseOne(a, q, recoveryStart))
  {
    var b := ReleaseOne(a, q, recoveryStart);
    assert s.inFlight.Keys - b.send.inFlight.Keys == (s.inFlight.Keys - a.send.inFlight.Keys) + {q};
  }

  lemma ReleaseOneOk(s: SendSide, a: Release, lane: Lane, before: nat, q: nat, recoveryStart: nat)
    requires ReleaseOk(s, a, lane, before)
    ensures ReleaseOk(s, ReleaseOne(a, q, recoveryStart), lane, before)
    ensures ReleaseOne(a, q, recoveryStart).send.inFlight == a.send.inFlight - {q}
  {
    hide LaneOk, LargestOk, AckedOk;
    if q in a.send.inFlight {
      ReleaseOneLane(a, lane, q, recoveryStart);
      ReleaseOneLargest(s, a, before, q, recoveryStart);
      ReleaseOneAcked(s, a, q, recoveryStart);
    } else {
      assert a.send.inFlight - {q} == a.send.inFlight;
    }
  }

  lemma {:induction false} ReleaseSpanOk(s: SendSide, a: Release, lane: Lane, before: nat, lo: nat, hi: int, rs: nat)
    requires ReleaseOk(s, a, lane, before)
    ensures ReleaseOk(s, ReleaseSpan(a, lo, hi, rs), lane, before)
    ensures forall q :: q in ReleaseSpan(a, lo, hi, rs).send.inFlight <==> q in a.send.inFlight && !(lo <= q <= hi)
    decreases hi - lo + 1
  {
    hide ReleaseOk;
    if lo <= hi {
      ReleaseOneOk(s, a, lane, before, lo, rs);
      ReleaseSpanOk(s, ReleaseOne(a, lo, rs), lane, before, lo + 1, hi, rs);
    }
  }

  lemma CoveredTail(ranges: seq<SeqRange>, q: nat)
    requires ranges != []
    ensures Covered(ranges, q) <==> ranges[0].Holds(q) || Covered(ranges[1..], q)
  {
    if Covered(ranges[1..], q) {
      var i :| 0 <= i < |ranges| - 1 && ranges[1..][i].Holds(q);
      assert ranges[i + 1].Holds(q);
    }
    if Covered(ranges, q) && !ranges[0].Holds(q) {
      var i :| 0 <= i < |ranges| && ranges[i].Holds(q);
      assert ranges[1..][i - 1].Holds(q);
    }
  }

  lemma ReleaseWindow(s: SendSide, a: Release, lane: Lane, before: nat)
    requires ReleaseOk(s, a, lane, before)
    ensures a.send.sendBase == s.sendBase && a.send.nextSendSeq == s.nextSendSeq
    ensures forall q :: q in a.send.inFlight ==> s.sendBase <= q < s.nextSendSeq
  {
  }

  lemma {:induction false} ReleaseRangesOk(s: SendSide, a: Release, lane: Lane, before: nat, ranges: seq<SeqRange>, rs: nat)
    requires ReleaseOk(s, a, lane, before)
    ensures ReleaseOk(s, ReleaseRanges(a, ranges, rs), lane, before)
    ensures forall q :: q in ReleaseRanges(a, ranges, rs).send.inFlight <==> q in a.send.inFlight && !Covered(ranges, q)
    decreases |ranges|
  {
    hide ReleaseOk;
    ReleaseWindow(s, a, lane, before);
    if ranges != [] {
      var r := ranges[0];
      var lo, hi := Max(r.first, a.send.sendBase), Min(r.Last(), a.send.nextSendSeq - 1);
      var b := ReleaseSpan(a, lo, hi, rs);
      ReleaseSpanOk(s, a, lane, before, lo, hi, rs);
      ReleaseRangesOk(s, b, lane, before, ranges[1..], rs);
      forall q
        ensures Covered(ranges, q) <==> r.Holds(q) || Covered(ranges[1..], q)
      {
        CoveredTail(ranges, q);
      }
    }
  }

  lemma StartReleaseOk(o: Outbound, lane: Lane)
    requires LaneOk(SendOf(o, lane), lane)
    ensures ReleaseOk(SendOf(o, lane), StartRelease(o, lane), lane, o.largestAcked)
  {
    var s := SendOf(o, lane);
    assert s.inFlight.Keys - s.inFlight.Keys == {};
  }

  /** An Ack takes out of flight exactly what it names, counts it and remembers the latest transmission of it. */
  lemma AckReleasesNamed(o: Outbound, lane: Lane, upTo: nat, ranges: seq<SeqRange>)
    requires LaneOk(SendOf(o, lane), lane)
    ensures var a := AckedBy(o, lane, upTo, ranges);
            && ReleaseOk(SendOf(o, lane), a, lane, o.largestAcked)
            && forall q :: q in a.send.inFlight <==> q in SendOf(o, lane).inFlight && !Named(upTo, ranges, q)
  {
    hide ReleaseOk, LaneOk, SendOf, Covered;
    var s, a := SendOf(o, lane), StartRelease(o, lane);
    StartReleaseOk(o, lane);
    ReleaseWindow(s, a, lane, o.largestAcked);
    var b := ReleaseSpan(a, a.send.sendBase, Min(upTo, a.send.nextSendSeq - 1), o.recoveryStart);
    ReleaseSpanOk(s, a, lane, o.largestAcked, a.send.sendBase, Min(upTo, a.send.nextSendSeq - 1), o.recoveryStart);
    ReleaseRangesOk(s, b, lane, o.largestAcked, ranges, o.recoveryStart);
  }

  lemma {:induction false} LowestUnackedOk(s: SendSide, base: nat)
    requires base <= s.nextSendSeq
    ensures var b := LowestUnacked(s, base);
            && base <= b <= s.nextSendSeq
            && (forall q :: base <= q < b ==> q !in s.inFlight)
            && (b < s.nextSendSeq ==> b in s.inFlight)
    decreases s.nextSendSeq - base
  {
    if base < s.nextSendSeq && base !in s.inFlight {
      LowestUnackedOk(s, base + 1);
    }
  }

  lemma RebasedOk(s: SendSide, lane: Lane)
    requires LaneOk(s, lane)
    ensures LaneOk(s.(sendBase := LowestUnacked(s, s.sendBase)), lane)
  {
    LowestUnackedOk(s, s.sendBase);
  }

  /** Fewer packets are in flight on the lane; what is left is as it was. */
  lemma FewerInFlight(o: Outbound, lane: Lane, s: SendSide, o': Outbound)
    requires Recorded(o) && Numbered(o)
    requires o'.sends == o.sends[lane := s] && o'.sent == o.sent && o'.transmissions == o.transmissions
    requires forall q :: q in s.inFlight ==> q in SendOf(o, lane).inFlight && s.inFlight[q] == SendOf(o, lane).inFlight[q]
    ensures Recorded(o') && Numbered(o')
    ensures forall k, x :: Has(o', k, x) ==> Has(o, k, x) && Entry(o', k, x) == Entry(o, k, x)
  {
    forall k, x | Has(o', k, x)
      ensures Has(o, k, x) && Entry(o', k, x) == Entry(o, k, x)
    {
    }
    forall k, x | Unmarked(o', k, x)
      ensures RecordOf(o', k, x) in o'.sent
    {
      assert Unmarked(o, k, x);
    }
  }

  lemma FewerTimed(o: Outbound, o': Outbound, clock: int)
    requires Timed(o, clock)
    requires forall k, x :: Has(o', k, x) ==> Has(o, k, x) && Entry(o', k, x) == Entry(o, k, x)
    ensures Timed(o', clock)
  {
    assert forall k, x :: Unmarked(o', k, x) ==> Unmarked(o, k, x);
  }

  lemma AddSampleValid(r: Rtt, sample: int)
    requires r.Valid()
    ensures AddSample(r, sample).Valid()
  {
  }

  lemma LargestBound(o: Outbound, lane: Lane, a: Release)
    requires Numbered(o) && o.largestAcked <= o.transmissions && LargestOk(SendOf(o, lane), a, o.largestAcked)
    ensures a.largestAcked <= o.transmissions
  {
    if a.largestAcked != o.largestAcked {
      var q :| WasLargest(SendOf(o, lane), a, q);
      assert Has(o, lane, q);
    }
  }

  lemma WriteBackWindow(o: Outbound, lane: Lane, a: Release, now: int)
    requires WindowBounds(o) && a.send.onTheWire <= SendOf(o, lane).onTheWire
    ensures WindowBounds(WriteBack(o, lane, a, now))
  {
    assert OnWire(WriteBack(o, lane, a, now)) <= OnWire(o);
  }

  lemma WriteBackKeeps(o: Outbound, lane: Lane, a: Release, now: int, clock: int)
    requires Books(o) && Timed(o, clock) && lane != Media && ReleaseOk(SendOf(o, lane), a, lane, o.largestAcked)
    ensures Books(WriteBack(o, lane, a, now)) && Timed(WriteBack(o, lane, a, now), clock)
  {
    hide LaneOk, Timed, Recorded, Numbered, LargestOk, WindowBounds, LowestUnacked, LogOk, AddSample;
    var o', s := WriteBack(o, lane, a, now), a.send.(sendBase := LowestUnacked(a.send, a.send.sendBase));
    RebasedOk(a.send, lane);
    FewerInFlight(o, lane, s, o');
    FewerTimed(o, o', clock);
    LargestBound(o, lane, a);
    WriteBackWindow(o, lane, a, now);
    if a.acked > 0 && a.sampleSentAt.Some? {
      AddSampleValid(o.rtt, now - a.sampleSentAt.value);
    }
  }

  lemma SetPeerPausedKeeps(o: Outbound, lane: Lane, paused: bool, now: int)
    requires Ledger(o) && lane != Media
    ensures Ledger(SetPeerPaused(o, lane, paused, now)) && SameFlight(o, SetPeerPaused(o, lane, paused, now))
  {
    var s := SendOf(o, lane);
    if s.peerPaused != paused {
      SendOfOk(o, lane);
      var s' := PausedSend(s, paused, o.rtt.rto, now);
      LaneChangeKeeps(o, lane, s');
      hide Books, SameFlight, FrontLive;
      ClockKeeps(WithSend(o, lane, s'), now, false);
      SameFlightTrans(o, WithSend(o, lane, s'), SetPeerPaused(o, lane, paused, now));
    }
  }

  lemma SameFlightTrans(a: Outbound, b: Outbound, c: Outbound)
    requires SameFlight(a, b) && SameFlight(b, c)
    ensures SameFlight(a, c)
  {
  }

  lemma NotePauseKeeps(o: Outbound, lane: Lane, serial: nat, paused: bool, now: int)
    requires Ledger(o) && lane != Media
    ensures Ledger(NotePause(o, lane, serial, paused, now)) && SameFlight(o, NotePause(o, lane, serial, paused, now))
  {
    var s := SendOf(o, lane);
    if AcceptsSerial(s, serial) {
      SendOfOk(o, lane);
      var o1 := WithSend(o, lane, s.(ackSerial := Some(serial)));
      LaneTouchKeeps(o, lane, s.(ackSerial := Some(serial)));
      hide Ledger, SameFlight;
      SetPeerPausedKeeps(o1, lane, paused, now);
      SameFlightTrans(o, o1, SetPeerPaused(o1, lane, paused, now));
    }
  }

  lemma GrownBounds(cwnd: real, counted: nat)
    requires MIN_CWND as real <= cwnd <= MAX_CWND as real
    ensures cwnd <= Grown(cwnd, counted) <= MAX_CWND as real
  {
    assert counted as real / cwnd >= 0.0;
  }

  lemma GrowKeeps(o: Outbound, counted: nat)
    requires Ledger(o) && o.fixedCwnd == 0
    ensures Ledger(o.(cwnd := Grown(o.cwnd, counted))) && SameFlight(o, o.(cwnd := Grown(o.cwnd, counted)))
  {
    GrownBounds(o.cwnd, counted);
    hide Grown, SameFlight, FrontLive, LanesOk, LogOk, Recorded, Numbered, CountersOk, Waiting, OnWire;
    var o' := o.(cwnd := Grown(o.cwnd, counted));
    SameLanesFlight(o, o');
    SameLanesBooks(o, o');
  }

  /** Losses were looked for and the stall clock was set; the window may grow. */
  ghost function AfterRelease(o: Outbound, progress: bool, now: int): Outbound {
    UpdateProgressClock(SweepLog(o, ByAcks).0, now, progress)
  }

  lemma AfterReleaseKeeps(o: Outbound, progress: bool, now: int, clock: int)
    requires Books(o) && Timed(o, clock)
    ensures var o' := AfterRelease(o, progress, now);
            Ledger(o') && Timed(o', clock) && AllKept(o', ByAcks) && o'.fixedCwnd == o.fixedCwnd
  {
    hide Books, FrontLive, Timed, Swept, SameFlight;
    SweepKeeps(o, ByAcks, clock);
    var o1 := SweepLog(o, ByAcks).0;
    ClockKeeps(o1, now, progress);
    SameFlightTimed(o1, AfterRelease(o, progress, now), clock);
    SameFlightKept(o1, AfterRelease(o, progress, now));
  }

  lemma SameFlightKept(o: Outbound, o': Outbound)
    requires SameFlight(o, o') && AllKept(o, ByAcks) && o'.largestAcked == o.largestAcked
    ensures AllKept(o', ByAcks)
  {
    assert forall k, x :: Unmarked(o', k, x) ==> Unmarked(o, k, x);
  }

  /** An Ack, whatever it claims, leaves the ledger right and nothing unmarked that three later transmissions overtook. */
  lemma HandleAckKeeps(o: Outbound, lane: Lane, upTo: nat, paused: bool, ack: AckBody, now: int, clock: int)
    requires Ledger(o) && Timed(o, clock) && lane != Media
    ensures var o' := HandleAck(o, lane, upTo, paused, ack, now);
            Ledger(o') && Timed(o', clock) && AllKept(o', ByAcks)
  {
    var o1 := NotePause(o, lane, ack.serial, paused, now);
    NotePauseKeeps(o, lane, ack.serial, paused, now);
    SameFlightTimed(o, o1, clock);
    SendOfOk(o1, lane);
    hide LaneOk, FrontLive, Timed, Swept, SameFlight, AllKept, ReleaseOk;
    var a := AckedBy(o1, lane, upTo, ack.ranges);
    AckReleasesNamed(o1, lane, upTo, ack.ranges);
    WriteBackKeeps(o1, lane, a, now, clock);
    AfterReleaseKeeps(WriteBack(o1, lane, a, now), a.acked > 0, now, clock);
    GrowIf(o, lane, upTo, paused, ack, now, clock);
  }

  lemma GrowIf(o: Outbound, lane: Lane, upTo: nat, paused: bool, ack: AckBody, now: int, clock: int)
    requires var o1 := NotePause(o, lane, ack.serial, paused, now);
             var a := AckedBy(o1, lane, upTo, ack.ranges);
             var o2 := AfterRelease(WriteBack(o1, lane, a, now), a.acked > 0, now);
             Ledger(o2) && Timed(o2, clock) && AllKept(o2, ByAcks)
    ensures var o' := HandleAck(o, lane, upTo, paused, ack, now); Ledger(o') && Timed(o', clock) && AllKept(o', ByAcks)
  {
    hide Ledger, Timed, AllKept, SameFlight, NotePause, AckedBy, WriteBack, SweepLog, UpdateProgressClock;
    var o1 := NotePause(o, lane, ack.serial, paused, now);
    var a := AckedBy(o1, lane, upTo, ack.ranges);
    var o2 := AfterRelease(WriteBack(o1, lane, a, now), a.acked > 0, now);
    if HandleAck(o, lane, upTo, paused, ack, now) != o2 {
      FixedStays(o, lane, upTo, paused, ack, now);
      GrowKeeps(o2, a.counted);
      SameFlightTimed(o2, o2.(cwnd := Grown(o2.cwnd, a.counted)), clock);
      SameFlightKept(o2, o2.(cwnd := Grown(o2.cwnd, a.counted)));
    }
  }

  lemma FixedStays(o: Outbound, lane: Lane, upTo: nat, paused: bool, ack: AckBody, now: int)
    ensures var o1 := NotePause(o, lane, ack.serial, paused, now);
            var a := AckedBy(o1, lane, upTo, ack.ranges);
            AfterRelease(WriteBack(o1, lane, a, now), a.acked > 0, now).fixedCwnd == o.fixedCwnd
  {
    hide AckedBy, SweepLog;
    var o1 := NotePause(o, lane, ack.serial, paused, now);
    assert o1.fixedCwnd == o.fixedCwnd by { hide Waiting; }
    hide NotePause, Waiting;
    var a := AckedBy(o1, lane, upTo, ack.ranges);
    SweepFixed(WriteBack(o1, lane, a, now), ByAcks);
  }

  lemma {:induction false} SweepFixed(o: Outbound, mode: Sweep)
    ensures SweptCounters(o, SweepLog(o, mode).0) || o.recoveryStart > o.transmissions
    ensures SweepLog(o, mode).0.fixedCwnd == o.fixedCwnd
    decreases |o.sent|
  {
    if o.sent != [] {
      var r, rest := o.sent[0], o.(sent := o.sent[1..]);
      if !Live(o, r) {
        SweepFixed(rest, mode);
      } else if !Keeps(o, r, mode) {
        SweepFixed(MarkLost(rest, r), mode);
      }
    }
  }

  // --- Timers -------------------------------------------------------------------------------------------

  lemma SweptWaiting(o: Outbound, o': Outbound)
    requires SweptSends(o, o')
    ensures Waiting(o') <==> Waiting(o)
  {
    SweptLaneWaits(o, o', Control);
    SweptLaneWaits(o, o', Reliable);
    SweptLaneWaits(o, o', Bulk);
  }

  lemma SweptLaneWaits(o: Outbound, o': Outbound, lane: Lane)
    requires SweptSends(o, o')
    ensures LaneWaits(o', lane) <==> LaneWaits(o, lane)
  {
    var m, m' := SendOf(o, lane).inFlight, SendOf(o', lane).inFlight;
    assert SameSend(SendOf(o, lane), SendOf(o', lane));
    assert |m| == |m.Keys| && |m'| == |m'.Keys|;
  }

  lemma ExpireKeeps(o: Outbound, now: int, clock: int)
    requires Ledger(o) && Timed(o, clock)
    ensures var o' := Expire(o, now);
            Ledger(o') && Timed(o', clock) && AllKept(o', ByTime(now, Timeout(o)))
  {
    hide Books, FrontLive, Timed, Swept, SameFlight, SweptSends, Waiting, Timeout;
    var mode := ByTime(now, Timeout(o));
    SweepKeeps(o, mode, clock);
    SweepSends(o, mode);
    var o1, o' := SweepLog(o, mode).0, Expire(o, now);
    SweptWaiting(o, o1);
    SameLanesFlight(o1, o');
    SameLanesLedger(o1, o', clock);
    SameLanesKept(o1, o', mode);
  }

  lemma SameLanesLedger(o: Outbound, o': Outbound, clock: int)
    requires SameLanes(o, o') && Books(o) && o'.cwnd == o.cwnd && Timed(o, clock)
    ensures Books(o') && Timed(o', clock)
  {
    SameLanesFlight(o, o');
    assert WindowBounds(o');
    hide SameFlight, Books, Timed, WindowBounds;
    SameLanesBooks(o, o');
    SameFlightTimed(o, o', clock);
  }

  lemma SameLanesKept(o: Outbound, o': Outbound, mode: Sweep)
    requires SameLanes(o, o') && AllKept(o, mode)
    ensures AllKept(o', mode)
  {
    assert forall k, x :: Unmarked(o', k, x) ==> Unmarked(o, k, x) && Entry(o', k, x) == Entry(o, k, x);
  }

  lemma ProbeLaneKeeps(o: Outbound, lane: Lane, maxRto: int, now: int)
    requires Ledger(o) && lane != Media
    ensures var o' := ProbeLane(o, lane, maxRto, now);
            Ledger(o') && SameFlight(o, o') && o'.largestAcked == o.largestAcked
  {
    hide FrontLive, StallOk, Recorded, Numbered, LogOk, WindowBounds, CountersOk, SameFlight;
    if ProbeDue(o, lane, now) {
      SendOfOk(o, lane);
      ProbedOk(SendOf(o, lane), lane, maxRto, now);
      hide LaneOk;
      LaneTouchKeeps(o, lane, ProbedSend(SendOf(o, lane), maxRto, now));
    } else {
      SameFlightSelf(o);
    }
  }

  lemma ProbedOk(s: SendSide, lane: Lane, maxRto: int, now: int)
    requires LaneOk(s, lane) && s.peerPaused
    ensures LaneOk(ProbedSend(s, maxRto, now), lane)
  {
  }

  lemma SameFlightSelf(o: Outbound)
    ensures SameFlight(o, o)
  {
  }

  lemma SameFlightKeptByTime(o: Outbound, o': Outbound, now: int, timeout: int)
    requires SameFlight(o, o') && AllKept(o, ByTime(now, timeout))
    ensures AllKept(o', ByTime(now, timeout))
  {
    assert forall k, x :: Unmarked(o', k, x) ==> Unmarked(o, k, x);
  }

  /** After the timer no packet on the wire is overdue. */
  lemma TimedOutKeeps(o: Outbound, maxRto: int, now: int, clock: int)
    requires Ledger(o) && Timed(o, clock)
    ensures var o' := TimedOut(o, maxRto, now);
            Ledger(o') && Timed(o', clock) && AllKept(o', ByTime(now, Timeout(o)))
  {
    hide Ledger, Timed, AllKept, SameFlight, Timeout;
    ExpireKeeps(o, now, clock);
    var o1 := Expire(o, now);
    var o2 := ProbeLane(o1, Control, maxRto, now);
    var o3 := ProbeLane(o2, Reliable, maxRto, now);
    var o4 := ProbeLane(o3, Bulk, maxRto, now);
    ProbeLaneKeeps(o1, Control, maxRto, now);
    ProbeLaneKeeps(o2, Reliable, maxRto, now);
    ProbeLaneKeeps(o3, Bulk, maxRto, now);
    SameFlightTrans(o1, o2, o3);
    SameFlightTrans(o1, o3, o4);
    SameFlightTimed(o1, o4, clock);
    SameFlightKeptByTime(o1, o4, now, Timeout(o));
  }

  // --- Deadlines ------------------------------------------------------------------------------------------

  /** The one record at the front of the log gives the earliest deadline of all packets on the wire. */
  lemma LossDeadlineExact(o: Outbound, clock: int)
    requires Ledger(o) && Timed(o, clock)
    ensures LossDeadline(o).None? <==> forall k, x :: !Unmarked(o, k, x)
    ensures LossDeadline(o).Some? ==>
              && (exists k, x :: Unmarked(o, k, x) && LossDeadline(o).value == Entry(o, k, x).sentAt + Timeout(o))
              && (forall k, x :: Unmarked(o, k, x) ==> LossDeadline(o).value <= Entry(o, k, x).sentAt + Timeout(o))
  {
    hide LanesOk, WindowBounds, CountersOk, StallOk;
    if o.sent != [] {
      var r := o.sent[0];
      assert Unmarked(o, r.lane, r.sq);
      forall k, x | Unmarked(o, k, x)
        ensures Entry(o, r.lane, r.sq).sentAt <= Entry(o, k, x).sentAt
      {
        FrontIsOldest(o, k, x);
      }
    }
  }

  /** Before the deadline the timer changes nothing. */
  lemma NothingBeforeDeadline(l: Link, now: int)
    requires Ledger(l.out)
    requires NextDeadline(l).Some? ==> now < NextDeadline(l).value
    ensures OnTimer(l, now) == l
  {
    if !l.failed {
      DeadlineBounds(l, now);
      hide Ledger, NextDeadline, LossDeadline, SilenceDeadline;
      assert Expire(l.out, now) == l.out;
      assert TimedOut(l.out, l.timings.maxRto, now) == l.out;
      assert (set lane | lane in {Control, Reliable, Bulk} && ProbeDue(l.out, lane, now)) == {};
      assert l.pingDue + {} + {} == l.pingDue;
    }
  }

  lemma DeadlineBounds(l: Link, now: int)
    requires Ledger(l.out)
    requires NextDeadline(l).Some? ==> now < NextDeadline(l).value
    ensures !Silent(l, now) && !AskDue(l, now)
    ensures !ProbeDue(l.out, Control, now) && !ProbeDue(l.out, Reliable, now) && !ProbeDue(l.out, Bulk, now)
    ensures l.out.sent != [] ==> Live(l.out, l.out.sent[0]) && Keeps(l.out, l.out.sent[0], ByTime(now, Timeout(l.out)))
  {
    hide Books, StallOk, Timeout;
  }

  /** A lane with packets in flight has a probe to wait for while it is paused, and the stall clock runs while it is not. */
  lemma UnackedHasClock(o: Outbound, lane: Lane, q: nat)
    requires Ledger(o) && Has(o, lane, q)
    ensures SendOf(o, lane).peerPaused ==> SendOf(o, lane).probeAt.Some?
    ensures !SendOf(o, lane).peerPaused ==> o.stalledSince.Some?
    ensures lane == Control || lane == Reliable || lane == Bulk
  {
    hide LogOk, Recorded, Numbered, WindowBounds, CountersOk, FrontLive, WindowOk, LostOk, CountOk;
    assert LaneOk(o.sends[lane], lane);
    assert SendOf(o, lane).inFlight[q] == Entry(o, lane, q);
    if !SendOf(o, lane).peerPaused { assert LaneWaits(o, lane); }
  }

  lemma PausedNeverStalls(o: Outbound)
    requires Ledger(o) && forall k, x :: Has(o, k, x) ==> SendOf(o, k).peerPaused
    ensures o.stalledSince.None?
  {
    hide Books, FrontLive;
    NoWaitingLane(o, Control);
    NoWaitingLane(o, Reliable);
    NoWaitingLane(o, Bulk);
  }

  lemma ClockIsDeadline(l: Link, lane: Lane)
    requires lane != Media
    requires l.out.stalledSince.Some? || (SendOf(l.out, lane).peerPaused && SendOf(l.out, lane).probeAt.Some?)
    ensures NextDeadline(l).Some?
  {
    hide LossDeadline, SilenceDeadline, SendOf;
    if l.out.stalledSince.Some? { SilenceHasStall(l); }
  }

  /** Whatever is unacknowledged has a deadline; on lanes that are all paused it is never the one that fails the link. */
  lemma UnackedHasDeadline(l: Link, lane: Lane, q: nat)
    requires Ledger(l.out) && Has(l.out, lane, q)
    ensures NextDeadline(l).Some?
    ensures SendOf(l.out, lane).peerPaused ==> SendOf(l.out, lane).probeAt.Some?
    ensures !SendOf(l.out, lane).peerPaused ==> l.out.stalledSince.Some?
    ensures (forall k, x :: Has(l.out, k, x) ==> SendOf(l.out, k).peerPaused) ==> l.out.stalledSince.None?
  {
    hide Ledger, NextDeadline;
    UnackedHasClock(l.out, lane, q);
    ClockIsDeadline(l, lane);
    if forall k, x :: Has(l.out, k, x) ==> SendOf(l.out, k).peerPaused { PausedNeverStalls(l.out); }
  }

  lemma SilenceHasStall(l: Link)
    requires l.out.stalledSince.Some?
    ensures SilenceDeadline(l).Some?
  {
  }

  lemma NoWaitingLane(o: Outbound, lane: Lane)
    requires forall k, x :: Has(o, k, x) ==> SendOf(o, k).peerPaused
    ensures !LaneWaits(o, lane)
  {
    if |SendOf(o, lane).inFlight| > 0 {
      var x :| x in SendOf(o, lane).inFlight;
      assert Has(o, lane, x);
    }
  }
}
