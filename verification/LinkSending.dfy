/** The sending half against the messages drawn from the source: which fragment every packet carries. */
module LinkSending {
  import opened Transport
  import opened PacketHeader
  import opened AckRanges
  import opened Fragments
  import opened LinkModel
  import opened LinkLedger

  /** The messages drawn so far are cut up to the cursor; without one, completely. */
  ghost predicate CursorPos(cursor: Option<Cursor>, next: nat, D: seq<Message>) {
    match cursor
    case None => next == |Frags(D)| + 1
    case Some(c) =>
      && D != [] && c.message == D[|D| - 1] && c.count == Count(c.message) && c.next < c.count
      && next == |Frags(D[..|D| - 1])| + c.next + 1
  }

  /** Every packet in flight carries the fragment its seq stands for. */
  ghost predicate FlightOk(s: SendSide, D: seq<Message>) {
    forall q :: q in s.inFlight ==>
      1 <= q < s.nextSendSeq && q <= |Frags(D)| && s.inFlight[q].fragment == Frags(D)[q - 1]
  }

  ghost predicate SendOk(s: SendSide, D: seq<Message>) { CursorPos(s.cursor, s.nextSendSeq, D) && FlightOk(s, D) }

  ghost predicate AllSendable(D: seq<Message>, lane: Lane) { forall i :: 0 <= i < |D| ==> Sendable(D[i], lane) }

  // --- The cursor -------------------------------------------------------------------------------

  lemma FragmentAtIs(c: Cursor, lane: Lane)
    requires c.count == Count(c.message) && c.next < c.count && Sendable(c.message, lane)
    ensures FragmentAt(c) == FragmentOf(c.message, c.next)
  {
    FragmentJoins(c.message, c.next);
    assert c.count <= FragmentsOf(MAX_MESSAGE) < U16;
  }

  /** The fragment under the cursor is the one the next seq stands for. */
  lemma CursorFragment(c: Cursor, next: nat, D: seq<Message>, lane: Lane)
    requires CursorPos(Some(c), next, D) && AllSendable(D, lane)
    ensures 1 <= next <= |Frags(D)| && FragmentAt(c) == Frags(D)[next - 1]
  {
    FragAt(D, |D| - 1, c.next);
    FragmentAtIs(c, lane);
  }

  lemma CursorDrawn(next: nat, D: seq<Message>, m: Message)
    requires CursorPos(None, next, D)
    ensures CursorPos(Some(CursorFor(m)), next, D + [m])
  {
    assert (D + [m])[..|D|] == D;
  }

  lemma CursorAdvanced(c: Cursor, next: nat, D: seq<Message>)
    requires CursorPos(Some(c), next, D)
    ensures CursorPos(Advanced(c), next + 1, D)
  {
  }

  /** Packets in flight stand for the same fragments when more messages are drawn. */
  lemma FlightGrows(s: SendSide, D: seq<Message>, m: Message)
    requires FlightOk(s, D)
    ensures FlightOk(s, D + [m])
  {
    FragsAppend(D, m);
  }

  /** Fewer packets, or the same ones: lost, sent again or not. */
  lemma FlightShrinks(s: SendSide, s': SendSide, D: seq<Message>)
    requires FlightOk(s, D) && s'.nextSendSeq >= s.nextSendSeq
    requires forall q :: q in s'.inFlight ==> q in s.inFlight && s'.inFlight[q].fragment == s.inFlight[q].fragment
    ensures FlightOk(s', D)
  {
  }

  // --- Packets ------------------------------------------------------------------------------------

  lemma DataPacketCarries(l: Link, lane: Lane, q: nat, m: Message, j: nat)
    requires j < Count(m)
    ensures Carries(DataPacket(l, lane, q, FragmentOf(m, j)), FragmentOf(m, j), lane)
  {
  }

  lemma FragsCarried(l: Link, lane: Lane, q: nat, D: seq<Message>)
    requires 1 <= q <= |Frags(D)|
    ensures Carries(DataPacket(l, lane, q, Frags(D)[q - 1]), Frags(D)[q - 1], lane)
  {
    var k, j := Locate(D, q - 1);
    hide Carries, DataPacket, Frags;
    DataPacketCarries(l, lane, q, D[k], j);
  }

  /** The link knows who it is, and whom it talks to if it knows that. */
  ghost predicate IdsOk(l: Link) { 0 < l.localId < U32 && (l.remoteId.Some? ==> l.remoteId.value < U32) }

  lemma FragmentCount(m: Message, lane: Lane)
    requires Sendable(m, lane)
    ensures Count(m) <= FragmentsOf(MaxMessageSize(lane)) < U16
  {
  }

  /** Every Data packet a link builds fits into a datagram and is one the decoder takes. */
  lemma DataPacketWellFormed(l: Link, lane: Lane, q: nat, m: Message, j: nat)
    requires IdsOk(l) && 1 <= q < U64 && j < Count(m) && Sendable(m, lane)
    ensures var p := DataPacket(l, lane, q, FragmentOf(m, j)); WellFormed(p) && p.header.Fits()
  {
    FragmentJoins(m, j);
    FragmentCount(m, lane);
    var p := DataPacket(l, lane, q, FragmentOf(m, j));
    hide FragmentsOf;
    assert IsBodySizeValid(p.header, |p.body|);
  }

  lemma FragsWellFormed(l: Link, lane: Lane, q: nat, D: seq<Message>)
    requires IdsOk(l) && 1 <= q <= |Frags(D)| && q < U64 && AllSendable(D, lane)
    ensures var p := DataPacket(l, lane, q, Frags(D)[q - 1]); WellFormed(p) && p.header.Fits()
  {
    var k, j := Locate(D, q - 1);
    hide DataPacket, WellFormed, Frags;
    DataPacketWellFormed(l, lane, q, D[k], j);
  }

  lemma AckPacketWellFormed(l: Link, lane: Lane, serial: nat)
    requires IdsOk(l) && lane != Media && RecvOf(l.inb, lane).nextExpected < U64
    ensures WellFormed(AckPacket(l, lane, serial)) && AckPacket(l, lane, serial).header.Fits()
  {
    hide EncodeAck, WaitingRanges;
  }

  lemma PingPacketWellFormed(l: Link, lane: Lane)
    requires IdsOk(l) && lane != Media
    ensures WellFormed(PingPacket(l, lane)) && PingPacket(l, lane).header.Fits()
  {
  }

  // --- Peek and commit ------------------------------------------------------------------------------

  ghost function DrawnBy(D: seq<Message>, took: bool, offered: Option<Message>): seq<Message> {
    if took && offered.Some? then D + [offered.value] else D
  }

  lemma DropDeadSends(o: Outbound, lane: Lane, k: Lane)
    ensures SendOf(DropDead(o, lane), k) == SendOf(o, k).(lost := SendOf(DropDead(o, lane), k).lost)
  {
    hide LiveLost;
  }

  lemma PeekLaneSends(o: Outbound, lane: Lane, offered: Option<Message>, k: Lane)
    ensures var s, s' := SendOf(o, k), SendOf(PeekLane(o, lane, offered), k);
            s' == s.(lost := s'.lost, cursor := s'.cursor)
    ensures k != lane || !OfferOf(DropDead(o, lane), lane, offered).1 ==>
              SendOf(PeekLane(o, lane, offered), k).cursor == SendOf(o, k).cursor
    ensures k == lane && OfferOf(DropDead(o, lane), lane, offered).1 ==>
              SendOf(o, k).cursor.None? && offered.Some? && SendOf(PeekLane(o, lane, offered), k).cursor == Some(CursorFor(offered.value))
  {
    DropDeadSends(o, lane, k);
    hide DropDead, HeldBack;
  }

  /** The offer is what the messages D have at its seq: one sent before, or the one the cursor stands at. */
  ghost predicate OfferFrom(offer: Offer, s: SendSide, D: seq<Message>) {
    match offer
    case Nothing => true
    case Again(q, f) => 1 <= q < s.nextSendSeq && q <= |Frags(D)| && f == Frags(D)[q - 1]
    case Next(q, c) => 1 <= q == s.nextSendSeq <= |Frags(D)| && FragmentAt(c) == Frags(D)[q - 1]
  }

  lemma AgainFrom(s: SendSide, D: seq<Message>)
    requires FlightOk(s, D) && s.lost != [] && WaitsAsLost(s, s.lost[0])
    ensures OfferFrom(Again(s.lost[0], s.inFlight[s.lost[0]].fragment), s, D)
  {
    hide Frags;
  }

  lemma NextFrom(s: SendSide, c: Cursor, D: seq<Message>, lane: Lane)
    requires CursorPos(Some(c), s.nextSendSeq, D) && AllSendable(D, lane)
    ensures OfferFrom(Next(s.nextSendSeq, c), s, D)
  {
    CursorFragment(c, s.nextSendSeq, D, lane);
    hide Frags, FragmentAt, CursorPos, AllSendable;
  }

  lemma DrawnSendable(D: seq<Message>, m: Message, lane: Lane)
    requires AllSendable(D, lane) && Sendable(m, lane)
    ensures AllSendable(D + [m], lane)
  {
  }

  lemma OfferCarries(o: Outbound, lane: Lane, offered: Option<Message>, D: seq<Message>)
    requires SendOk(SendOf(o, lane), D) && FrontWaits(SendOf(o, lane))
    requires AllSendable(D, lane) && (offered.Some? ==> Sendable(offered.value, lane))
    ensures var (offer, took) := OfferOf(o, lane, offered);
            AllSendable(DrawnBy(D, took, offered), lane) && OfferFrom(offer, SendOf(o, lane), DrawnBy(D, took, offered))
  {
    hide HeldBack, FragmentAt, OfferFrom, CursorPos, FlightOk, AllSendable, Sendable, CursorFor;
    var s := SendOf(o, lane);
    var (offer, took) := OfferOf(o, lane, offered);
    if took {
      CursorDrawn(s.nextSendSeq, D, offered.value);
      DrawnSendable(D, offered.value, lane);
      NextFrom(s, offer.cursor, D + [offered.value], lane);
    } else if offer.Next? {
      NextFrom(s, offer.cursor, D, lane);
    } else if offer.Again? {
      AgainFrom(s, D);
    } else {
      NothingFrom(s, D);
    }
  }

  lemma NothingFrom(s: SendSide, D: seq<Message>)
    ensures OfferFrom(Nothing, s, D)
  {
  }

  lemma PeekSendOk(o: Outbound, lane: Lane, offered: Option<Message>, D: seq<Message>)
    requires SendOk(SendOf(o, lane), D)
    ensures SendOk(SendOf(PeekLane(o, lane, offered), lane), DrawnBy(D, OfferOf(DropDead(o, lane), lane, offered).1, offered))
  {
    PeekLaneSends(o, lane, offered, lane);
    hide PeekLane, OfferOf, Frags, CursorPos;
    var s, s' := SendOf(o, lane), SendOf(PeekLane(o, lane, offered), lane);
    if OfferOf(DropDead(o, lane), lane, offered).1 {
      CursorDrawn(s.nextSendSeq, D, offered.value);
      FlightGrows(s, D, offered.value);
      FlightShrinks(s, s', D + [offered.value]);
    } else {
      FlightShrinks(s, s', D);
    }
  }

  /** Which packets are in flight after a commit: those before it, and the one that was on offer. */
  ghost predicate Committed(s: SendSide, s': SendSide) {
    && (forall q :: q in s.inFlight ==> q in s'.inFlight && s'.inFlight[q].fragment == s.inFlight[q].fragment)
    && if s.lost != []
       then s'.cursor == s.cursor && s'.nextSendSeq == s.nextSendSeq && s'.inFlight.Keys == s.inFlight.Keys
       else && s.cursor.Some? && s'.cursor == Advanced(s.cursor.value) && s'.nextSendSeq == s.nextSendSeq + 1
            && s'.inFlight.Keys == s.inFlight.Keys + {s.nextSendSeq}
            && s'.inFlight[s.nextSendSeq].fragment == FragmentAt(s.cursor.value)
  }

  lemma ClockSends(o: Outbound, now: int, progress: bool)
    ensures UpdateProgressClock(o, now, progress).sends == o.sends
  {
    hide Waiting;
  }

  lemma CommitLostSends(o: Outbound, lane: Lane, now: int)
    requires var s := SendOf(o, lane); s.lost != [] && WaitsAsLost(s, s.lost[0])
    ensures Committed(SendOf(o, lane), SendOf(CommitLost(o, lane, now), lane))
    ensures forall k :: k != lane ==> SendOf(CommitLost(o, lane, now), k) == SendOf(o, k)
  {
    var s := SendOf(o, lane);
    var s' := SentAgain(s, EntryNow(o, s.inFlight[s.lost[0]], now));
    CommitLostIs(o, lane, now);
    hide CommitLost, UpdateProgressClock, NewlyOnWire;
    ClockSends(PutOnWire(o, lane, s', s.lost[0]), now, false);
    assert SendOf(CommitLost(o, lane, now), lane) == s';
  }

  lemma FirstIsCommitted(s: SendSide, e: InFlight)
    requires s.lost == [] && s.cursor.Some? && s.nextSendSeq !in s.inFlight && e.fragment == FragmentAt(s.cursor.value)
    ensures Committed(s, SentFirst(s, s.cursor.value, e))
  {
    hide FragmentAt;
  }

  lemma WindowIsAhead(s: SendSide, lane: Lane)
    requires WindowOk(s, lane)
    ensures s.nextSendSeq !in s.inFlight
  {
  }

  lemma CommitFreshSends(o: Outbound, lane: Lane, now: int)
    requires var s := SendOf(o, lane);
             WindowOk(s, lane) && s.lost == [] && s.cursor.Some? && s.nextSendSeq - s.sendBase < Window(lane)
    ensures Committed(SendOf(o, lane), SendOf(CommitFresh(o, lane, now), lane))
    ensures forall k :: k != lane ==> SendOf(CommitFresh(o, lane, now), k) == SendOf(o, k)
  {
    hide CommitFresh, UpdateProgressClock, NewlyOnWire, FragmentAt, WindowOk, Committed, SentFirst;
    var s := SendOf(o, lane);
    WindowIsAhead(s, lane);
    var e := EntryNow(o, InFlight(FragmentAt(s.cursor.value), 0, false, 0, 0), now);
    var s' := SentFirst(s, s.cursor.value, e);
    FirstIsCommitted(s, e);
    CommitFreshIs(o, lane, now);
    ClockSends(PutOnWire(o, lane, s', s.nextSendSeq), now, false);
  }

  lemma CommitLaneSends(o: Outbound, lane: Lane, now: int)
    requires Ready(o, lane) && LaneOk(SendOf(o, lane), lane)
    ensures Committed(SendOf(o, lane), SendOf(CommitLane(o, lane, now), lane))
    ensures forall k :: k != lane ==> SendOf(CommitLane(o, lane, now), k) == SendOf(o, k)
  {
    DropDeadStable(o, lane);
    assert WindowOk(SendOf(o, lane), lane);
    hide LaneOk, WindowOk, Committed, CommitLost, CommitFresh, CongestionOpen, DropDead;
    if SendOf(o, lane).lost != [] {
      CommitLostSends(o, lane, now);
    } else {
      CommitFreshSends(o, lane, now);
    }
  }

  lemma CommittedSendOk(s: SendSide, s': SendSide, D: seq<Message>, lane: Lane)
    requires Committed(s, s') && SendOk(s, D) && AllSendable(D, lane)
    ensures SendOk(s', D)
  {
    if s.lost == [] {
      CursorAdvanced(s.cursor.value, s.nextSendSeq, D);
      CursorFragment(s.cursor.value, s.nextSendSeq, D, lane);
    }
    hide CursorPos, FragmentAt, Frags;
    assert forall q :: q in s'.inFlight ==> q in s.inFlight || (s.lost == [] && q == s.nextSendSeq);
  }

  // --- Acks and timers ----------------------------------------------------------------------------------

  /** Some packets may be gone from flight; what is there carries what it did, and nothing new was sent. */
  ghost predicate Thinned(s: SendSide, s': SendSide) {
    && s'.cursor == s.cursor && s'.nextSendSeq == s.nextSendSeq
    && (forall q :: q in s'.inFlight ==> q in s.inFlight && s'.inFlight[q].fragment == s.inFlight[q].fragment)
  }

  lemma ThinnedTrans(a: SendSide, b: SendSide, c: SendSide)
    requires Thinned(a, b) && Thinned(b, c)
    ensures Thinned(a, c)
  {
  }

  lemma ThinnedSendOk(s: SendSide, s': SendSide, D: seq<Message>)
    requires Thinned(s, s') && SendOk(s, D)
    ensures SendOk(s', D)
  {
    FlightShrinks(s, s', D);
  }

  ghost predicate SameContents(s: SendSide, s': SendSide) {
    s'.cursor == s.cursor && s'.nextSendSeq == s.nextSendSeq && s'.sendBase == s.sendBase && s'.inFlight == s.inFlight
  }

  lemma SetPeerPausedSends(o: Outbound, lane: Lane, paused: bool, now: int, k: Lane)
    ensures SameContents(SendOf(o, k), SendOf(SetPeerPaused(o, lane, paused, now), k))
  {
    hide UpdateProgressClock;
    var s := SendOf(o, lane);
    ClockSends(WithSend(o, lane, PausedSend(s, paused, o.rtt.rto, now)), now, false);
  }

  lemma NotePauseSends(o: Outbound, lane: Lane, serial: nat, paused: bool, now: int, k: Lane)
    ensures SameContents(SendOf(o, k), SendOf(NotePause(o, lane, serial, paused, now), k))
  {
    hide SetPeerPaused, AcceptsSerial;
    SetPeerPausedSends(WithSend(o, lane, SendOf(o, lane).(ackSerial := Some(serial))), lane, paused, now, k);
  }

  lemma SameContentsThinned(s: SendSide, s': SendSide)
    requires SameContents(s, s')
    ensures Thinned(s, s')
  {
  }

  lemma AckedThins(o: Outbound, lane: Lane, upTo: nat, ranges: seq<SeqRange>)
    requires LaneOk(SendOf(o, lane), lane)
    ensures var s, s' := SendOf(o, lane), AckedBy(o, lane, upTo, ranges).send;
            Thinned(s, s') && (forall q :: q in s.inFlight && q !in s'.inFlight ==> Named(upTo, ranges, q))
  {
    hide AckedBy, LaneOk, LargestOk, AckedOk, Covered, SendOf;
    AckReleasesNamed(o, lane, upTo, ranges);
  }

  lemma WriteBackSends(o: Outbound, lane: Lane, upTo: nat, ranges: seq<SeqRange>, now: int, k: Lane)
    requires LaneOk(SendOf(o, lane), lane)
    ensures var s, s' := SendOf(o, k), SendOf(WriteBack(o, lane, AckedBy(o, lane, upTo, ranges), now), k);
            && Thinned(s, s')
            && (forall q :: q in s.inFlight && q !in s'.inFlight ==> k == lane && Named(upTo, ranges, q))
  {
    hide AckedBy, LaneOk, LowestUnacked, Named;
    AckedThins(o, lane, upTo, ranges);
  }

  lemma SweepThins(o: Outbound, mode: Sweep, k: Lane, clock: int)
    requires Books(o) && Timed(o, clock)
    ensures var s, s' := SendOf(o, k), SendOf(SweepLog(o, mode).0, k); Thinned(s, s') && s'.inFlight.Keys == s.inFlight.Keys
  {
    hide Books, FrontLive, Timed, AllKept, SweptCounters;
    SweepKeeps(o, mode, clock);
    SweepSends(o, mode);
    hide SweepLog;
    var o' := SweepLog(o, mode).0;
    assert SameSend(SendOf(o, k), SendOf(o', k));
    forall q | q in SendOf(o', k).inFlight
      ensures SendOf(o', k).inFlight[q].fragment == SendOf(o, k).inFlight[q].fragment
    {
      assert Has(o', k, q) && Has(o, k, q);
    }
  }

  /** An Ack only takes out of flight what it names. */
  lemma HandleAckSends(o: Outbound, lane: Lane, upTo: nat, paused: bool, ack: AckBody, now: int, k: Lane, clock: int)
    requires Ledger(o) && Timed(o, clock) && lane != Media
    ensures var s, s' := SendOf(o, k), SendOf(HandleAck(o, lane, upTo, paused, ack, now), k);
            && Thinned(s, s')
            && (forall q :: q in s.inFlight && q !in s'.inFlight ==> k == lane && Named(upTo, ack.ranges, q))
  {
    hide LaneOk, Ledger, Books, Timed, NotePause, AckedBy, WriteBack, SweepLog, UpdateProgressClock, Grown, Thinned,
         SameFlight, Named, ReleaseOk;
    var o1 := NotePause(o, lane, ack.serial, paused, now);
    NotePauseKeeps(o, lane, ack.serial, paused, now);
    NotePauseSends(o, lane, ack.serial, paused, now, k);
    SameContentsThinned(SendOf(o, k), SendOf(o1, k));
    SameFlightTimed(o, o1, clock);
    LedgerParts(o1, lane);
    var a := AckedBy(o1, lane, upTo, ack.ranges);
    AckReleasesNamed(o1, lane, upTo, ack.ranges);
    var o2 := WriteBack(o1, lane, a, now);
    WriteBackSends(o1, lane, upTo, ack.ranges, now, k);
    WriteBackKeeps(o1, lane, a, now, clock);
    var o3 := SweepLog(o2, ByAcks).0;
    SweepThins(o2, ByAcks, k, clock);
    ClockSends(o3, now, a.acked > 0);
    ThinnedTrans(SendOf(o, k), SendOf(o1, k), SendOf(o2, k));
    ThinnedTrans(SendOf(o, k), SendOf(o2, k), SendOf(o3, k));
    assert SendOf(HandleAck(o, lane, upTo, paused, ack, now), k) == SendOf(o3, k);
  }

  lemma LedgerParts(o: Outbound, lane: Lane)
    requires Ledger(o) && lane != Media
    ensures Books(o) && LaneOk(SendOf(o, lane), lane)
  {
    SendOfOk(o, lane);
  }

  lemma ProbeSends(o: Outbound, lane: Lane, maxRto: int, now: int, k: Lane)
    ensures var s, s' := SendOf(o, k), SendOf(ProbeLane(o, lane, maxRto, now), k);
            s'.cursor == s.cursor && s'.nextSendSeq == s.nextSendSeq && s'.inFlight == s.inFlight
  {
    hide ProbeDue;
  }

  /** The timer takes nothing out of flight. */
  lemma TimedOutSends(o: Outbound, maxRto: int, now: int, k: Lane, clock: int)
    requires Ledger(o) && Timed(o, clock)
    ensures var s, s' := SendOf(o, k), SendOf(TimedOut(o, maxRto, now), k);
            Thinned(s, s') && s'.inFlight.Keys == s.inFlight.Keys
  {
    assert Books(o);
    hide Ledger, Books, Timed, SweepLog, ProbeLane, Timeout;
    SweepThins(o, ByTime(now, Timeout(o)), k, clock);
    var o1 := Expire(o, now);
    assert SendOf(o1, k) == SendOf(SweepLog(o, ByTime(now, Timeout(o))).0, k);
    hide Expire;
    var o2 := ProbeLane(o1, Control, maxRto, now);
    var o3 := ProbeLane(o2, Reliable, maxRto, now);
    ProbeSends(o1, Control, maxRto, now, k);
    ProbeSends(o2, Reliable, maxRto, now, k);
    ProbeSends(o3, Bulk, maxRto, now, k);
  }
}
