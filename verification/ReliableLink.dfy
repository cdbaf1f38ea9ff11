/** The link as the source keeps it: fields that its operations change step by step. */
module ReliableLink {
  import opened Transport
  import opened PacketFlags
  import opened PacketHeader
  import opened AckRanges
  import opened SequenceBuffer
  import opened Fragments
  import opened MessageAssembler
  import opened MediaAssembler
  import opened RttEstimator
  import opened LinkModel
  import opened LinkLedger
  import opened LinkLaws
  import opened LinkRuns
  import opened LinkReorder

  const LANES := [Control, Reliable, Bulk]

  /** Transmitting from a stream that was written back first is the same as writing it back with the transmission. */
  lemma TransmitFrom(o: Outbound, o': Outbound, lane: Lane, s: SendSide, q: nat, now: int)
    requires o' == WithSend(o, lane, s) && q in s.inFlight
    ensures LinkModel.Transmit(o', lane, s, q, now) == LinkModel.Transmit(o, lane, s, q, now)
  {
    hide UpdateProgressClock;
    var t := o.transmissions + 1;
    var e := s.inFlight[q].(lost := false, sentAt := now, transmission := t,
                            transmissions := (s.inFlight[q].transmissions + 1) % U16);
    var s' := s.(inFlight := s.inFlight[q := e], onTheWire := s.onTheWire + 1);
    assert o'.sends[lane := s'] == o.sends[lane := s'];
  }

  lemma SmallerBuffer(m: map<nat, Packet>, q: nat)
    requires q in m
    ensures |m - {q}| < |m|
  {
    assert (m - {q}).Keys == m.Keys - {q};
  }

  // --- What a packet does to each part of the link ---------------------------------------------

  ghost function InAfter(i: Inbound, p: Packet): Inbound {
    if !p.header.flags.kind.Data? then i
    else if p.header.flags.lane == Media then HandleMedia(i, p)
    else HandleData(i, p.header.flags.lane, p)
  }

  ghost function DueAfter(i: Inbound, p: Packet): set<Lane> {
    match p.header.flags.kind
    case Data => if p.header.flags.lane == Media then {} else DueForData(i, p.header.flags.lane, p)
    case Ping => {p.header.flags.lane}
    case _ => {}
  }

  ghost function OutAfter(o: Outbound, receives: bool, p: Packet, now: int): Outbound {
    var lane, ack := p.header.flags.lane, DecodeAck(p.body);
    if p.header.flags.kind.Ack? && (lane in o.sends || receives) && ack.Some?
    then HandleAck(o, lane, p.header.sq, p.header.flags.paused, ack.value, now) else o
  }

  ghost function Dispatched(l: Link, p: Packet, now: int): Link {
    l.(inb := InAfter(l.inb, p), ackDue := l.ackDue + DueAfter(l.inb, p),
       out := OutAfter(l.out, p.header.flags.lane in l.inb.recvs, p, now))
  }

  lemma OnPacketIs(l: Link, p: Packet, now: int)
    ensures OnPacket(l, p, now)
         == if l.failed || Stale(l, p.header) then l else Dispatched(Heard(l, p.header, now), p, now)
  {
    hide HandleAck, HandleData, HandleMedia, DueForData, DecodeAck;
    assert l.ackDue + {} == l.ackDue;
  }

  /** Nothing of the lane is on the wire or waits to be sent again, and no record of it makes a timer run. */
  ghost predicate Quiet(o: Outbound, lane: Lane) {
    && SendOf(o, lane).onTheWire == 0
    && (forall q :: q in SendOf(o, lane).lost ==> q !in SendOf(o, lane).inFlight)
    && (forall r :: r in o.sent && r.lane == lane ==> !Live(o, r))
  }

  lemma IdleIsQuiet(o: Outbound, lane: Lane)
    requires LaneOk(SendOf(o, lane), lane) && SendOf(o, lane).inFlight == map[]
    ensures Quiet(o, lane)
  {
    assert UnmarkedSeqs(map[]) == {};
  }

  lemma NothingToBuild(l: Link)
    ensures l.failed || l.pendingAcks != [] ==> PeekAck(l) == l
    ensures PeekAck(l).localId == l.localId && PeekAck(l).remoteId == l.remoteId && PeekAck(l).failed == l.failed
  {
    PeekAckOut(l);
    hide AnswerLane;
  }

  lemma TimerWaits(l: Link, now: int)
    requires AllWait(l.inb)
    ensures AllWait(OnTimer(l, now).inb)
  {
    hide TimedOut;
  }

  lemma WaitsInWindows(i: Inbound)
    requires AllWait(i)
    ensures InWindows(i)
  {
  }

  /** The lanes whose probe is due. */
  ghost function Probed(o: Outbound, now: int): set<Lane> {
    set lane | lane in {Control, Reliable, Bulk} && ProbeDue(o, lane, now)
  }

  ghost function One(due: bool, lane: Lane): set<Lane> { if due then {lane} else {} }

  ghost predicate SameProbes(o: Outbound, o': Outbound) {
    forall lane ::
      SendOf(o', lane).peerPaused == SendOf(o, lane).peerPaused && SendOf(o', lane).probeAt == SendOf(o, lane).probeAt
  }

  lemma {:induction false} SweepProbes(o: Outbound, mode: Sweep)
    ensures SameProbes(o, SweepLog(o, mode).0)
    decreases |o.sent|
  {
    if o.sent != [] {
      var r, rest := o.sent[0], o.(sent := o.sent[1..]);
      if !Live(o, r) {
        SweepProbes(rest, mode);
      } else if !Keeps(o, r, mode) {
        SweepProbes(MarkLost(rest, r), mode);
      }
    }
  }

  /** Neither what expires nor the probe of another lane changes which probes are due. */
  lemma ProbesAfterExpiry(o: Outbound, maxRto: int, now: int)
    ensures var o1 := Expire(o, now);
      var o2 := ProbeLane(o1, Control, maxRto, now);
      var o3 := ProbeLane(o2, Reliable, maxRto, now);
      Probed(o, now) == One(ProbeDue(o1, Control, now), Control) + One(ProbeDue(o2, Reliable, now), Reliable)
                      + One(ProbeDue(o3, Bulk, now), Bulk)
  {
    hide SweepLog, Timeout;
    SweepProbes(o, ByTime(now, Timeout(o)));
    var o1 := Expire(o, now);
    assert SameProbes(o, o1);
    var o2 := ProbeLane(o1, Control, maxRto, now);
    var o3 := ProbeLane(o2, Reliable, maxRto, now);
    assert SendOf(o2, Reliable) == SendOf(o1, Reliable) && SendOf(o3, Bulk) == SendOf(o1, Bulk);
    assert forall lane :: ProbeDue(o1, lane, now) == ProbeDue(o, lane, now);
  }

  lemma OnTimerFails(l: Link, now: int)
    requires !l.failed && Silent(l, now)
    ensures OnTimer(l, now) == Fail(l)
  {
    hide Fail;
  }

  function Sooner(next: Option<int>, when: int): Option<int> {
    if next.None? || when < next.value then Some(when) else next
  }

  ghost predicate SameIds(l: Link, l': Link) { l'.localId == l.localId && l'.remoteId == l.remoteId }

  /** A packet depends on nothing of its link but the names. */
  lemma SamePacket(l: Link, l': Link, lane: Lane, q: nat, f: Fragment)
    requires SameIds(l, l')
    ensures DataPacket(l', lane, q, f) == DataPacket(l, lane, q, f)
  {
  }

  class ReliableLink {
    const timings: Timings
    const localId: nat
    var remoteId: Option<nat>
    var rtt: Rtt
    var budget: Option<Budget>

    // The streams: each half comes into being with its first use
    var sends: map<Lane, SendSide>
    var recvs: map<Lane, RecvSide>

    var mediaCursor: Option<Cursor>
    var nextMediaSeq: nat
    var media: MediaState
    var mediaReceived: nat

    var sent: seq<SentRecord>
    var transmissions: nat
    var largestAcked: nat
    var stalledSince: Option<int>
    var lastReceived: Option<int>
    var pingedAt: int
    var timeoutsInARow: nat

    var cwnd: real
    var recoveryStart: nat

    var paused: bool
    var ackSerial: nat
    var ackDue: set<Lane>
    var pingDue: set<Lane>
    var pendingAcks: seq<Packet>
    var delivered: seq<LaneMessage>
    var failed: bool

    ghost function Out(): Outbound
      reads this
    {
      Outbound(timings.fixedCwnd, sends, sent, transmissions, largestAcked, stalledSince, timeoutsInARow, rtt, cwnd,
               recoveryStart)
    }

    ghost function In(): Inbound
      reads this
    {
      Inbound(recvs, budget, media, mediaReceived, delivered)
    }

    ghost function View(): Link
      reads this
    {
      Link(timings, localId, remoteId, Out(), In(), mediaCursor, nextMediaSeq, lastReceived, pingedAt, paused, ackSerial,
           ackDue, pingDue, pendingAcks, failed)
    }

    function SendFor(lane: Lane): SendSide
      reads this
    {
      if lane in sends then sends[lane] else NEW_SEND
    }

    function RecvFor(lane: Lane): RecvSide
      reads this
    {
      if lane in recvs then recvs[lane] else NEW_RECV
    }

    constructor (timings: Timings, localId: nat, budget: Option<Budget>)
      ensures View() == NewLink(timings, localId, budget) && Valid()
    {
      this.timings, this.localId, this.budget := timings, localId, budget;
      remoteId, rtt := None, NewRtt(timings.initialRto, timings.minRto, timings.maxRto);
      sends, recvs := map[], map[];
      mediaCursor, nextMediaSeq, media, mediaReceived := None, 1, NO_MEDIA, 0;
      sent, transmissions, largestAcked, stalledSince, timeoutsInARow := [], 0, 0, None, 0;
      lastReceived, pingedAt := None, 0;
      cwnd, recoveryStart := InitialWindow(timings), 0;
      paused, ackSerial, ackDue, pingDue, pendingAcks, delivered, failed := false, 0, {}, {}, [], [], false;
    }

    /** From now on a remote that is not heard of is given up exactly when the time for that is over. */
    method Supervise(now: int)
      modifies this`lastReceived, this`pingedAt
      ensures View() == LinkModel.Supervise(old(View()), now)
      ensures forall later :: SilentForAWhile(View(), later) <==> remoteId.Some? && now + timings.keepAlive <= later
      ensures stalledSince.None? ==> forall later :: TooLong(View(), later) <==> now + timings.peerTimeout <= later
    {
      lastReceived := Some(now);
      pingedAt := now;
    }

    // --- Sending ------------------------------------------------------------------------------

    /** Drops what was acknowledged while it waited from the front of the queue. */
    method NextLost(lane: Lane)
      requires lane in sends
      modifies this`sends
      ensures Out() == DropDead(old(Out()), lane)
    {
      ghost var o := Out();
      ghost var s0 := sends[lane];
      while sends[lane].lost != [] && !WaitsAsLost(sends[lane], sends[lane].lost[0])
        invariant lane in sends && sends == o.sends[lane := s0.(lost := sends[lane].lost)]
        invariant LiveLost(s0, sends[lane].lost) == LiveLost(s0, s0.lost)
        decreases |sends[lane].lost|
      {
        var s := sends[lane];
        assert WaitsAsLost(s, s.lost[0]) <==> WaitsAsLost(s0, s.lost[0]);
        sends := sends[lane := s.(lost := s.lost[1..])];
      }
      assert sends[lane].lost == LiveLost(s0, s0.lost);
    }

    method CongestionWindowOpen(lane: Lane) returns (open: bool)
      ensures open == CongestionOpen(Out(), lane)
    {
      open := !SharesWindow(lane) || SendFor(Reliable).onTheWire + SendFor(Bulk).onTheWire < cwnd.Floor;
    }

    method HeaderFor(flags: Flags, q: nat) returns (h: Header)
      ensures h == MakeHeader(View(), flags, q)
    {
      h := Header(flags, localId, if remoteId.Some? then remoteId.value else 0, q, 0, 0, 0, 0);
    }

    method PacketFor(lane: Lane, q: nat, f: Fragment) returns (p: Packet)
      ensures p == DataPacket(View(), lane, q, f)
    {
      var h := HeaderFor(DataFlags(lane), q);
      h := h.(tag := f.tag);
      if f.count > 1 {
        h := h.(flags := SetFragment(h.flags, true, f.index + 1 == f.count),
                fragIndex := f.index, fragCount := f.count, totalLength := f.total);
      }
      p := Packet(h, f.body);
    }

    method PeekMedia(next: Option<Message>) returns (datagram: Option<Packet>, took: bool)
      modifies this`mediaCursor
      ensures Peeked(View(), datagram, took) == LinkModel.PeekMedia(old(View()), next)
    {
      took := false;
      if mediaCursor.None? {
        if next.None? {
          return None, false;
        }
        mediaCursor := Some(CursorFor(next.value));
        took := true;
      }
      var p := PacketFor(Media, nextMediaSeq, FragmentAt(mediaCursor.value));
      datagram := Some(p);
    }

    /** What an acknowledged lane has on offer: next is the message the source would hand out. */
    method Choose(lane: Lane, next: Option<Message>) returns (offer: Offer, took: bool)
      requires lane != Media
      modifies this`sends
      ensures Out() == PeekLane(old(Out()), lane, next)
      ensures (offer, took) == OfferOf(DropDead(old(Out()), lane), lane, next)
    {
      took := false;
      if lane in sends {
        NextLost(lane);
      }
      ghost var o := Out();
      assert o == DropDead(old(Out()), lane);
      hide DropDead;
      var s := SendFor(lane);
      if s.lost == [] && s.nextSendSeq - s.sendBase >= Window(lane) {
        return Nothing, false;
      }
      if s.peerPaused {
        return Nothing, false;
      }
      var open := CongestionWindowOpen(lane);
      if !open {
        return Nothing, false;
      }
      if s.lost != [] {
        return Again(s.lost[0], s.inFlight[s.lost[0]].fragment), false;
      }
      if s.cursor.None? {
        if next.None? {
          return Nothing, false;
        }
        s := s.(cursor := Some(CursorFor(next.value)));
        sends := sends[lane := s];
        took := true;
      }
      offer := Next(s.nextSendSeq, s.cursor.value);
    }

    method PeekStream(lane: Lane, next: Option<Message>) returns (datagram: Option<Packet>, took: bool)
      requires lane != Media && !failed
      modifies this`sends
      ensures Peeked(View(), datagram, took) == LinkModel.Peek(old(View()), lane, next)
    {
      hide PeekLane, OfferOf, DropDead, DataPacket, FragmentAt;
      ghost var l := View();
      var offer;
      offer, took := Choose(lane, next);
      assert SameIds(l, View());
      match offer
      case Nothing => datagram := None;
      case Again(q, f) =>
        var p := PacketFor(lane, q, f);
        datagram := Some(p);
        SamePacket(l, View(), lane, q, f);
      case Next(q, c) =>
        var p := PacketFor(lane, q, FragmentAt(c));
        datagram := Some(p);
        SamePacket(l, View(), lane, q, FragmentAt(c));
    }

    method Peek(lane: Lane, next: Option<Message>) returns (datagram: Option<Packet>, took: bool)
      modifies this`sends, this`mediaCursor
      ensures Peeked(View(), datagram, took) == LinkModel.Peek(old(View()), lane, next)
      ensures OnOffer(old(View()), lane, next, Peeked(View(), datagram, took))
    {
      PeekLaw(View(), lane, next);
      hide OnOffer;
      if failed {
        return None, false;
      }
      if lane == Media {
        datagram, took := PeekMedia(next);
      } else {
        datagram, took := PeekStream(lane, next);
      }
    }

    method UpdateProgressClock(now: int, progress: bool)
      modifies this`stalledSince
      ensures Out() == LinkModel.UpdateProgressClock(old(Out()), now, progress)
    {
      var waiting := false;
      for i := 0 to 3
        invariant waiting <==> exists j :: 0 <= j < i && LaneWaits(Out(), LANES[j])
      {
        var s := SendFor(LANES[i]);
        waiting := waiting || (!s.peerPaused && |s.inFlight| > 0);
      }
      assert waiting <==> Waiting(Out()) by {
        assert LANES[0] == Control && LANES[1] == Reliable && LANES[2] == Bulk;
        assert Waiting(Out()) ==> LaneWaits(Out(), LANES[0]) || LaneWaits(Out(), LANES[1]) || LaneWaits(Out(), LANES[2]);
      }
      if !waiting {
        stalledSince := None;
      } else if progress || stalledSince.None? {
        stalledSince := Some(now);
      }
    }

    method Transmit(lane: Lane, q: nat, now: int)
      requires lane in sends && q in sends[lane].inFlight
      modifies this`sends, this`transmissions, this`sent, this`stalledSince
      ensures Out() == LinkModel.Transmit(old(Out()), lane, old(sends[lane]), q, now)
    {
      var s := sends[lane];
      var e := s.inFlight[q];
      transmissions := transmissions + 1;
      e := e.(lost := false, sentAt := now, transmission := transmissions, transmissions := (e.transmissions + 1) % U16);
      sends := sends[lane := s.(inFlight := s.inFlight[q := e], onTheWire := s.onTheWire + 1)];
      sent := sent + [SentRecord(transmissions, q, lane)];
      UpdateProgressClock(now, false);
    }

    method CommitStream(lane: Lane, now: int)
      requires lane != Media
      modifies this`sends, this`transmissions, this`sent, this`stalledSince
      ensures Out() == CommitLane(old(Out()), lane, now)
    {
      if lane !in sends {
        return;
      }
      NextLost(lane);
      ghost var o := Out();
      assert o == DropDead(old(Out()), lane);
      hide DropDead, LinkModel.Transmit;
      var s := sends[lane];
      if s.lost != [] {
        var q := s.lost[0];
        sends := sends[lane := s.(lost := s.lost[1..])];
        Transmit(lane, q, now);
        TransmitFrom(o, WithSend(o, lane, s.(lost := s.lost[1..])), lane, s.(lost := s.lost[1..]), q, now);
        return;
      }
      if s.cursor.None? {
        return;
      }
      var c, q := s.cursor.value, s.nextSendSeq;
      ghost var s' := Inserted(s, lane, c);
      s := s.(nextSendSeq := q + 1,
              inFlight := RingInsert(s.inFlight, Window(lane), q, InFlight(FragmentAt(c), 0, false, 0, 0)));
      s := s.(cursor := if c.next + 1 >= c.count then None else Some(c.(next := c.next + 1)));
      assert s == s';
      hide Inserted;
      sends := sends[lane := s];
      Transmit(lane, q, now);
      TransmitFrom(o, WithSend(o, lane, s'), lane, s', q, now);
    }

    method CommitMedia()
      modifies this`mediaCursor, this`nextMediaSeq
      ensures View() == LinkModel.CommitMedia(old(View()))
    {
      if mediaCursor.None? {
        return;
      }
      nextMediaSeq := nextMediaSeq + 1;
      var c := mediaCursor.value;
      mediaCursor := if c.next + 1 >= c.count then None else Some(c.(next := c.next + 1));
    }

    /** The datagram of the peek before it was sent. */
    method Commit(lane: Lane, now: int)
      modifies this`sends, this`transmissions, this`sent, this`stalledSince, this`mediaCursor, this`nextMediaSeq
      ensures View() == LinkModel.Commit(old(View()), lane, now)
    {
      hide CommitLane, LinkModel.CommitMedia;
      if lane == Media {
        CommitMedia();
      } else {
        CommitStream(lane, now);
      }
    }

    // --- Receiving data -------------------------------------------------------------------------

    ghost function IntakeFor(lane: Lane): Intake
      reads this
    {
      Intake(RecvFor(lane), budget, delivered)
    }

    method AcceptInOrder(lane: Lane, p: Packet) returns (ok: bool)
      requires lane in recvs
      modifies this`recvs, this`budget, this`delivered
      ensures (IntakeFor(lane), ok) == LinkModel.AcceptInOrder(old(IntakeFor(lane)), lane, p)
      ensures lane in recvs && recvs == old(recvs)[lane := recvs[lane]]
    {
      hide Accept;
      var r := recvs[lane];
      if !HasRoomFor(budget, p.header) {
        recvs := recvs[lane := r.(budgetPaused := true, refusedLength := p.header.totalLength)];
        return false;
      }
      var a := Accept(r.assembler, budget, p.header, p.body);
      recvs := recvs[lane := r.(assembler := a.assembler)];
      budget := a.budget;
      if a.message.Some? {
        delivered := delivered + [LaneMessage(lane, a.message.value)];
      }
      return true;
    }

    method DrainReorderBuffer(lane: Lane)
      requires lane in recvs
      modifies this`recvs, this`budget, this`delivered
      ensures IntakeFor(lane) == Drain(old(IntakeFor(lane)), lane)
      ensures lane in recvs && recvs == old(recvs)[lane := recvs[lane]]
    {
      hide Accept, HasRoomFor;
      ghost var c := IntakeFor(lane);
      while recvs[lane].nextExpected in recvs[lane].reorder
        invariant lane in recvs && recvs == old(recvs)[lane := recvs[lane]]
        invariant Drain(IntakeFor(lane), lane) == Drain(c, lane)
        decreases |recvs[lane].reorder|
      {
        ghost var before := IntakeFor(lane);
        var q := recvs[lane].nextExpected;
        var ok := AcceptInOrder(lane, recvs[lane].reorder[q]);
        if !ok {
          return;
        }
        var r := recvs[lane];
        SmallerBuffer(r.reorder, q);
        recvs := recvs[lane := r.(reorder := r.reorder - {q}, nextExpected := q + 1)];
      }
    }

    method RetryRefused(lane: Lane)
      modifies this`recvs, this`budget, this`delivered, this`ackDue
      ensures In() == LinkModel.RetryRefused(old(In()), lane)
      ensures lane in old(recvs) ==> lane in recvs && recvs == old(recvs)[lane := recvs[lane]]
      ensures ackDue == old(ackDue) + DueForRetry(old(In()), lane)
      ensures IntakeFor(lane) == Retried(old(IntakeFor(lane)), lane)
    {
      hide Drain;
      var r := RecvFor(lane);
      assert IntakeOf(In(), lane) == IntakeFor(lane);
      if !r.budgetPaused || (budget.Some? && !budget.value.FitsBytes(r.refusedLength)) {
        assert ackDue + {} == ackDue;
        return;
      }
      recvs := recvs[lane := r.(budgetPaused := false)];
      DrainReorderBuffer(lane);
      ackDue := ackDue + {lane};
      assert recvs == old(recvs)[lane := recvs[lane]];
    }

    /** A Data packet, once what was refused before had its turn. */
    method TakeData(lane: Lane, p: Packet)
      requires lane in recvs
      modifies this`recvs, this`budget, this`delivered, this`ackDue
      ensures IntakeFor(lane) == LinkModel.TakeData(old(IntakeFor(lane)), lane, p)
      ensures lane in recvs && recvs == old(recvs)[lane := recvs[lane]]
      ensures ackDue == old(ackDue) + (if OutOfWindow(old(IntakeFor(lane)), lane, p.header.sq) then {} else {lane})
    {
      hide Drain, LinkModel.AcceptInOrder;
      var q := p.header.sq;
      var r := recvs[lane];
      if q >= r.nextExpected + Window(lane) {
        return;
      }
      ackDue := ackDue + {lane};
      if q < r.nextExpected || q in r.reorder {
        return;
      }
      if q != r.nextExpected {
        recvs := recvs[lane := r.(reorder := RingInsert(r.reorder, Window(lane), q, p))];
        return;
      }
      var ok := AcceptInOrder(lane, p);
      if !ok {
        return;
      }
      recvs := recvs[lane := recvs[lane].(nextExpected := q + 1)];
      DrainReorderBuffer(lane);
    }

    method HandleData(lane: Lane, p: Packet)
      requires lane != Media
      modifies this`recvs, this`budget, this`delivered, this`ackDue
      ensures In() == LinkModel.HandleData(old(In()), lane, p)
      ensures ackDue == old(ackDue) + DueForData(old(In()), lane, p)
    {
      hide LinkModel.TakeData, OutOfWindow, MayRetry, Retried;
      ghost var i := In();
      if lane !in recvs {
        recvs := recvs[lane := NEW_RECV];
      }
      assert IntakeOf(In(), lane) == IntakeOf(i, lane);
      RetryRefused(lane);
      TakeData(lane, p);
    }

    method HandleMedia(p: Packet)
      modifies this`mediaReceived, this`media, this`delivered
      ensures In() == LinkModel.HandleMedia(old(In()), p)
    {
      hide AcceptMedia;
      mediaReceived := (mediaReceived + 1) % U32;
      var (m, message) := AcceptMedia(media, p.header, p.body);
      media := m;
      if message.Some? {
        delivered := delivered + [LaneMessage(Media, message.value)];
      }
    }

    // --- Losses and congestion ------------------------------------------------------------------

    method MarkLost(r: SentRecord)
      requires Live(Out(), r)
      modifies this`sends, this`cwnd, this`recoveryStart
      ensures Out() == LinkModel.MarkLost(old(Out()), r)
    {
      var s := sends[r.lane];
      s := s.(inFlight := s.inFlight[r.sq := s.inFlight[r.sq].(lost := true)],
              onTheWire := s.onTheWire - 1, lost := s.lost + [r.sq]);
      sends := sends[r.lane := s];
      if !SharesWindow(r.lane) || timings.fixedCwnd > 0 || r.transmission <= recoveryStart {
        return;
      }
      cwnd := if cwnd / 2.0 < MIN_CWND as real then MIN_CWND as real else cwnd / 2.0;
      recoveryStart := transmissions;
    }

    method DetectLosses() returns (losses: bool)
      modifies this`sends, this`sent, this`cwnd, this`recoveryStart
      ensures (Out(), losses) == SweepLog(old(Out()), ByAcks)
    {
      hide LinkModel.MarkLost;
      losses := false;
      ghost var whole := SweepLog(Out(), ByAcks);
      while sent != []
        invariant whole == (SweepLog(Out(), ByAcks).0, losses || SweepLog(Out(), ByAcks).1)
        decreases |sent|
      {
        var r := sent[0];
        var live := IsLive(r);
        if live && r.transmission + FAST_RETRANSMIT > largestAcked {
          break;
        }
        sent := sent[1..];
        if live {
          MarkLost(r);
          losses := true;
        }
      }
    }

    predicate IsLive(r: SentRecord)
      reads this
      ensures IsLive(r) <==> Live(Out(), r)
    {
      && r.lane in sends && r.sq in sends[r.lane].inFlight
      && !sends[r.lane].inFlight[r.sq].lost && sends[r.lane].inFlight[r.sq].transmission == r.transmission
    }

    method ExpireOverdue(now: int, timeout: int) returns (expired: bool)
      modifies this`sends, this`sent, this`cwnd, this`recoveryStart
      ensures (Out(), expired) == SweepLog(old(Out()), ByTime(now, timeout))
    {
      hide LinkModel.MarkLost;
      expired := false;
      ghost var mode := ByTime(now, timeout);
      ghost var whole := SweepLog(Out(), mode);
      while sent != []
        invariant whole == (SweepLog(Out(), mode).0, expired || SweepLog(Out(), mode).1)
        decreases |sent|
      {
        var r := sent[0];
        var live := IsLive(r);
        if live && now < sends[r.lane].inFlight[r.sq].sentAt + timeout {
          break;
        }
        sent := sent[1..];
        if live {
          MarkLost(r);
          expired := true;
        }
      }
    }

    // --- Acknowledgements -----------------------------------------------------------------------

    method SetPeerPaused(lane: Lane, paused: bool, now: int)
      requires lane in sends
      modifies this`sends, this`stalledSince
      ensures Out() == LinkModel.SetPeerPaused(old(Out()), lane, paused, now)
      ensures lane in sends
    {
      hide LinkModel.UpdateProgressClock;
      var s := sends[lane];
      if s.peerPaused == paused {
        return;
      }
      s := s.(peerPaused := paused, probeAt := None);
      if paused {
        var interval := Max(rtt.rto / 1000 * 1000, MIN_PROBE_INTERVAL);
        s := s.(probeInterval := interval, probeAt := Some(now + interval));
      }
      sends := sends[lane := s];
      UpdateProgressClock(now, false);
    }

    method NotePause(lane: Lane, serial: nat, paused: bool, now: int)
      modifies this`sends, this`stalledSince
      ensures Out() == LinkModel.NotePause(old(Out()), lane, serial, paused, now)
      ensures lane in sends
    {
      hide LinkModel.SetPeerPaused;
      var s := SendFor(lane);
      if s.ackSerial.None? || SerialAfter(serial, s.ackSerial.value) {
        sends := sends[lane := s.(ackSerial := Some(serial))];
        SetPeerPaused(lane, paused, now);
      }
    }

    ghost function ReleasedFor(lane: Lane, acked: nat, counted: nat, sample: Option<int>): Release
      reads this
    {
      Release(SendFor(lane), largestAcked, acked, counted, sample)
    }

    method ReleaseSeq(lane: Lane, q: nat, acked0: nat, counted0: nat, sample0: Option<int>)
      returns (acked: nat, counted: nat, sample: Option<int>)
      requires lane in sends
      modifies this`sends, this`largestAcked
      ensures ReleasedFor(lane, acked, counted, sample)
           == ReleaseOne(old(ReleasedFor(lane, acked0, counted0, sample0)), q, recoveryStart)
      ensures lane in sends && sends == old(sends)[lane := sends[lane]]
    {
      acked, counted, sample := acked0, counted0, sample0;
      var s := sends[lane];
      if q !in s.inFlight {
        return;
      }
      var e := s.inFlight[q];
      s := s.(inFlight := s.inFlight - {q});
      if !e.lost {
        s := s.(onTheWire := s.onTheWire - 1);
      }
      sends := sends[lane := s];
      largestAcked := Max(largestAcked, e.transmission);
      acked := acked + 1;
      counted := counted + (if e.transmission > recoveryStart then 1 else 0);
      if e.transmissions == 1 && (sample.None? || e.sentAt > sample.value) {
        sample := Some(e.sentAt);
      }
    }

    method ReleaseFromTo(lane: Lane, lo: nat, hi: int, acked0: nat, counted0: nat, sample0: Option<int>)
      returns (acked: nat, counted: nat, sample: Option<int>)
      requires lane in sends
      modifies this`sends, this`largestAcked
      ensures ReleasedFor(lane, acked, counted, sample)
           == ReleaseSpan(old(ReleasedFor(lane, acked0, counted0, sample0)), lo, hi, recoveryStart)
      ensures lane in sends && sends == old(sends)[lane := sends[lane]]
    {
      hide ReleaseOne;
      acked, counted, sample := acked0, counted0, sample0;
      var q := lo;
      ghost var whole := ReleaseSpan(ReleasedFor(lane, acked, counted, sample), q, hi, recoveryStart);
      while q <= hi
        invariant lane in sends && sends == old(sends)[lane := sends[lane]]
        invariant ReleaseSpan(ReleasedFor(lane, acked, counted, sample), q, hi, recoveryStart) == whole
        decreases hi - q
      {
        acked, counted, sample := ReleaseSeq(lane, q, acked, counted, sample);
        q := q + 1;
      }
    }

    /** Everything the Ack names leaves: what came before the seq in its header, and its ranges. */
    method ReleaseNamed(lane: Lane, upTo: nat, ranges: seq<SeqRange>)
      returns (acked: nat, counted: nat, sample: Option<int>)
      requires lane in sends
      modifies this`sends, this`largestAcked
      ensures ReleasedFor(lane, acked, counted, sample) == AckedBy(old(Out()), lane, upTo, ranges)
      ensures lane in sends && sends == old(sends)[lane := sends[lane]]
    {
      hide ReleaseSpan;
      var lastSent := sends[lane].nextSendSeq - 1;
      acked, counted, sample := ReleaseFromTo(lane, sends[lane].sendBase, Min(upTo, lastSent), 0, 0, None);
      ghost var whole := ReleaseRanges(ReleasedFor(lane, acked, counted, sample), ranges, recoveryStart);
      for i := 0 to |ranges|
        invariant lane in sends && sends == old(sends)[lane := sends[lane]]
        invariant ReleaseRanges(ReleasedFor(lane, acked, counted, sample), ranges[i..], recoveryStart) == whole
      {
        var r, s := ranges[i], sends[lane];
        assert ranges[i..][0] == r && ranges[i..][1..] == ranges[i + 1..];
        acked, counted, sample :=
          ReleaseFromTo(lane, Max(r.first, s.sendBase), Min(r.Last(), s.nextSendSeq - 1), acked, counted, sample);
      }
    }

    method AdvanceBase(lane: Lane)
      requires lane in sends
      modifies this`sends
      ensures lane in sends && sends == old(sends)[lane := sends[lane]]
      ensures var s := old(sends[lane]); sends[lane] == s.(sendBase := LowestUnacked(s, s.sendBase))
    {
      ghost var s0 := sends[lane];
      while sends[lane].sendBase < sends[lane].nextSendSeq && sends[lane].sendBase !in sends[lane].inFlight
        invariant lane in sends && sends == old(sends)[lane := s0.(sendBase := sends[lane].sendBase)]
        invariant LowestUnacked(s0, sends[lane].sendBase) == LowestUnacked(s0, s0.sendBase)
        decreases sends[lane].nextSendSeq - sends[lane].sendBase
      {
        sends := sends[lane := sends[lane].(sendBase := sends[lane].sendBase + 1)];
      }
    }

    method TakeAcked(lane: Lane, upTo: nat, ranges: seq<SeqRange>, now: int) returns (acked: nat, counted: nat)
      requires lane in sends
      modifies this`sends, this`largestAcked, this`rtt, this`timeoutsInARow
      ensures var a := AckedBy(old(Out()), lane, upTo, ranges);
        Out() == WriteBack(old(Out()), lane, a, now) && (acked, counted) == (a.acked, a.counted)
    {
      hide AckedBy, LowestUnacked, AddSample;
      var sample;
      acked, counted, sample := ReleaseNamed(lane, upTo, ranges);
      AdvanceBase(lane);
      if acked > 0 {
        if sample.Some? {
          rtt := AddSample(rtt, now - sample.value);
        }
        timeoutsInARow := 0;
      }
    }

    method HandleAck(lane: Lane, upTo: nat, paused: bool, ack: AckBody, now: int)
      modifies this`sends, this`sent, this`largestAcked, this`rtt, this`timeoutsInARow, this`stalledSince, this`cwnd,
               this`recoveryStart
      ensures Out() == LinkModel.HandleAck(old(Out()), lane, upTo, paused, ack, now)
      ensures lane != Media && old(Ledger(Out()) && Timed(Out(), now)) ==>
        AfterAck(old(Out()), lane, upTo, paused, ack, now, Out())
    {
      hide AfterAck, Ledger, Timed, LinkModel.NotePause, AckedBy, WriteBack, SweepLog, LinkModel.UpdateProgressClock;
      if lane != Media && Ledger(Out()) && Timed(Out(), now) { AckLaw(Out(), lane, upTo, paused, ack, now, now); }
      NotePause(lane, ack.serial, paused, now);
      var acked, counted := TakeAcked(lane, upTo, ack.ranges, now);
      var losses := DetectLosses();
      UpdateProgressClock(now, acked > 0);
      if SharesWindow(lane) && !losses && counted > 0 && timings.fixedCwnd == 0 {
        cwnd := Grown(cwnd, counted);
      }
    }

    /** Between calls: what waits lies within the windows. */
    ghost predicate Valid()
      reads this
    {
      AllWait(In())
    }

    method Handle(p: Packet, now: int)
      modifies this`recvs, this`budget, this`delivered, this`ackDue, this`mediaReceived, this`media, this`sends, this`sent,
               this`largestAcked, this`rtt, this`timeoutsInARow, this`stalledSince, this`cwnd, this`recoveryStart
      ensures In() == InAfter(old(In()), p) && ackDue == old(ackDue) + DueAfter(old(In()), p)
      ensures Out() == OutAfter(old(Out()), old(p.header.flags.lane in recvs), p, now)
    {
      hide LinkModel.HandleAck, LinkModel.HandleData, LinkModel.HandleMedia, DueForData, DecodeAck;
      var lane := p.header.flags.lane;
      match p.header.flags.kind
      case Data =>
        if lane == Media { HandleMedia(p); } else { HandleData(lane, p); }
      case Ack =>
        if lane in sends || lane in recvs {
          var ack := DecodeAck(p.body);
          if ack.Some? { HandleAck(lane, p.header.sq, p.header.flags.paused, ack.value, now); }
        }
      case Ping =>
        ackDue := ackDue + {lane};
      case Beacon =>
    }

    method Dispatch(p: Packet, now: int)
      modifies this
      ensures View() == Dispatched(old(View()), p, now)
    {
      hide InAfter, DueAfter, OutAfter;
      ghost var l := View();
      Handle(p, now);
      assert View() == l.(inb := In(), out := Out(), ackDue := ackDue);
    }

    method Hear(h: Header, now: int)
      modifies this`remoteId, this`lastReceived
      ensures View() == Heard(old(View()), h, now)
    {
      remoteId := Some(h.src);
      if lastReceived.Some? {
        lastReceived := Some(now);
      }
    }

    method OnPacket(p: Packet, now: int)
      requires Valid()
      modifies this
      ensures View() == LinkModel.OnPacket(old(View()), p, now) && Valid()
      ensures if old(failed || Foreign(View(), p.header)) then View() == old(View()) else AfterPacket(old(View()), p, now, View())
    {
      ghost var l := View();
      WaitsInWindows(l.inb);
      ReceiveLaw(l, p, now);
      ReceiveWaits(l, p, now);
      OnPacketIs(l, p, now);
      hide LinkModel.OnPacket, Dispatched, AllWait, Foreign, AfterPacket;
      var h := p.header;
      if failed {
        return;
      }
      if (h.dst != 0 && h.dst != localId) || (remoteId.Some? && remoteId.value != h.src) {
        return;
      }
      Hear(h, now);
      Dispatch(p, now);
    }

    // --- Acks and Pings of this side ------------------------------------------------------------

    /** The seqs of the packets that wait behind a gap. */
    method WaitingSeqs(lane: Lane) returns (waiting: seq<nat>)
      ensures Elements(waiting) == RecvFor(lane).reorder.Keys
    {
      waiting := [];
      var left := RecvFor(lane).reorder.Keys;
      while left != {}
        invariant Elements(waiting) + left == RecvFor(lane).reorder.Keys
        decreases left
      {
        var q :| q in left;
        waiting := waiting + [q];
        left := left - {q};
      }
    }

    method HeldRanges(lane: Lane) returns (ranges: seq<SeqRange>)
      requires Waits(RecvFor(lane), lane)
      ensures ranges == WaitingRanges(RecvFor(lane), lane)
    {
      hide Below, RangesOf;
      var waiting := WaitingSeqs(lane);
      assert forall q :: q in waiting ==> q in Elements(waiting);
      ranges := ToRanges(waiting, RecvFor(lane).nextExpected + Window(lane));
    }

    method AckFor(lane: Lane) returns (p: Packet)
      requires Waits(RecvFor(lane), lane)
      modifies this`ackSerial
      ensures View() == old(View()).(ackSerial := (old(ackSerial) + 1) % U32)
      ensures p == AckPacket(View(), lane, ackSerial)
    {
      hide WaitingRanges, Waits, EncodeAck;
      var r := RecvFor(lane);
      var ranges := HeldRanges(lane);
      ackSerial := (ackSerial + 1) % U32;
      var isPaused := (paused && lane != Control) || r.budgetPaused;
      var h := HeaderFor(AckFlags(lane, isPaused), if r.nextExpected > 0 then r.nextExpected - 1 else 0);
      p := Packet(h, EncodeAck(AckBody(ackSerial, mediaReceived, ranges), MAX_ACK_RANGES));
    }

    /** A refused message has its turn before the Ack says what is held. */
    method RetryBeforeAck(lane: Lane)
      requires lane != Media && lane in ackDue && AllWait(In())
      modifies this`recvs, this`budget, this`delivered, this`ackDue
      ensures In() == LinkModel.RetryRefused(old(In()), lane) && ackDue == old(ackDue) && Waits(RecvFor(lane), lane)
    {
      RetryRefusedWaits(In(), lane);
      hide LinkModel.RetryRefused, Waits, Retried, MayRetry;
      RetryRefused(lane);
      assert RecvFor(lane) == RecvOf(In(), lane);
    }

    method MakeAck(lane: Lane)
      requires lane != Media && lane in ackDue && AllWait(In())
      modifies this`recvs, this`budget, this`delivered, this`ackDue, this`ackSerial, this`pendingAcks
      ensures View() == LinkModel.MakeAck(old(View()), lane)
    {
      hide LinkModel.RetryRefused, AllWait, Waits, AckPacket;
      ghost var l := View();
      RetryBeforeAck(lane);
      assert View() == l.(inb := LinkModel.RetryRefused(l.inb, lane));
      var p := AckFor(lane);
      pendingAcks := pendingAcks + [p];
    }

    method Answer(lane: Lane)
      requires lane != Media && AllWait(In())
      modifies this`recvs, this`budget, this`delivered, this`ackDue, this`ackSerial, this`pendingAcks
      ensures View() == AnswerLane(old(View()), lane)
    {
      hide LinkModel.MakeAck, AllWait;
      if lane in ackDue {
        MakeAck(lane);
      }
      if lane in pingDue {
        var h := HeaderFor(PingFlags(lane), 0);
        pendingAcks := pendingAcks + [Packet(h, [])];
      }
    }

    method PeekAck() returns (datagram: Option<Packet>)
      requires Valid()
      modifies this`recvs, this`budget, this`delivered, this`ackDue, this`pingDue, this`ackSerial, this`pendingAcks
      ensures View() == LinkModel.PeekAck(old(View())) && Valid()
      ensures datagram == if failed || pendingAcks == [] then None else Some(pendingAcks[0])
      ensures old(!failed && pendingAcks == []) ==>
        && KindsOf(pendingAcks) == old(DueOn(View(), Control) + DueOn(View(), Reliable) + DueOn(View(), Bulk))
        && PingsPlain(old(View()), pendingAcks)
    {
      hide LinkModel.PeekAck, AllWait, KindsOf, DueOn, PingsPlain;
      PeekAckWaits(View());
      NothingToBuild(View());
      if !failed && pendingAcks == [] { AnswersLaw(View()); }
      if failed {
        return None;
      }
      if pendingAcks == [] {
        Refill();
      }
      datagram := if pendingAcks == [] then None else Some(pendingAcks[0]);
    }

    method Refill()
      requires Valid() && pendingAcks == [] && !failed
      modifies this`recvs, this`budget, this`delivered, this`ackDue, this`pingDue, this`ackSerial, this`pendingAcks
      ensures View() == LinkModel.PeekAck(old(View()))
    {
      hide AnswerLane, AllWait;
      AnswerAll();
      ackDue, pingDue := {}, {};
    }

    method AnswerAll()
      requires Valid()
      modifies this`recvs, this`budget, this`delivered, this`ackDue, this`ackSerial, this`pendingAcks
      ensures View() == AnswerLane(AnswerLane(AnswerLane(old(View()), Control), Reliable), Bulk)
    {
      ghost var l := View();
      AnswerWaits(l, Control);
      AnswerWaits(AnswerLane(l, Control), Reliable);
      hide AnswerLane, AllWait;
      Answer(Control);
      Answer(Reliable);
      Answer(Bulk);
    }

    method CommitAck()
      modifies this`pendingAcks
      ensures View() == LinkModel.CommitAck(old(View()))
    {
      if pendingAcks != [] {
        pendingAcks := pendingAcks[1..];
      }
    }

    method SetPaused(now: bool)
      modifies this`paused, this`ackDue
      ensures View() == LinkModel.SetPaused(old(View()), now)
    {
      if paused == now {
        return;
      }
      var due := ackDue;
      if Reliable in sends || Reliable in recvs {
        due := due + {Reliable};
      }
      if Bulk in sends || Bulk in recvs {
        due := due + {Bulk};
      }
      assert due == ackDue + (set lane | lane in {Reliable, Bulk} && StreamExists(View(), lane));
      paused, ackDue := now, due;
    }

    // --- Timers -----------------------------------------------------------------------------------

    method ResetReceiving()
      modifies this`recvs, this`budget, this`media, this`mediaReceived
      ensures In() == NewInbound(FreedBudget(old(In()))).(delivered := old(delivered))
    {
      // The assemblers of the streams give back what they reserved
      var freed := Released(RecvFor(Control).assembler, budget);
      freed := Released(RecvFor(Reliable).assembler, freed);
      freed := Released(RecvFor(Bulk).assembler, freed);
      recvs, budget, media, mediaReceived := map[], freed, NO_MEDIA, 0;
    }

    method ResetLog()
      modifies this`sent, this`transmissions, this`largestAcked, this`recoveryStart, this`timeoutsInARow, this`stalledSince
      ensures Out() == old(Out()).(sent := [], transmissions := 0, largestAcked := 0, recoveryStart := 0,
                                   timeoutsInARow := 0, stalledSince := None)
    {
      sent, transmissions, largestAcked, recoveryStart, timeoutsInARow, stalledSince := [], 0, 0, 0, 0, None;
    }

    method ResetSending()
      modifies this`sends, this`rtt, this`sent, this`cwnd, this`transmissions, this`largestAcked, this`recoveryStart,
               this`timeoutsInARow, this`stalledSince
      ensures Out() == NewOutbound(timings)
    {
      ResetLog();
      sends, rtt, cwnd := map[], NewRtt(timings.initialRto, timings.minRto, timings.maxRto), InitialWindow(timings);
    }

    method ResetLanes()
      modifies this`sends, this`recvs, this`budget, this`media, this`mediaReceived, this`rtt, this`sent, this`cwnd,
               this`transmissions, this`largestAcked, this`recoveryStart, this`timeoutsInARow, this`stalledSince
      ensures Out() == NewOutbound(timings)
      ensures In() == NewInbound(FreedBudget(old(In()))).(delivered := old(delivered))
    {
      hide FreedBudget, NewOutbound;
      ResetReceiving();
      ResetSending();
    }

    method ResetStreams()
      modifies this
      ensures View() == LinkModel.Fail(old(View())).(lastReceived := old(lastReceived), failed := old(failed))
    {
      hide FreedBudget, NewOutbound;
      ghost var l := View();
      ResetLanes();
      ResetQueues();
      assert View() == l.(out := Out(), inb := In(), mediaCursor := None, nextMediaSeq := 1, pendingAcks := [], ackDue := {},
                          pingDue := {});
    }

    method ResetQueues()
      modifies this`mediaCursor, this`nextMediaSeq, this`pendingAcks, this`ackDue, this`pingDue
      ensures mediaCursor == None && nextMediaSeq == 1 && pendingAcks == [] && ackDue == {} && pingDue == {}
    {
      mediaCursor, nextMediaSeq, pendingAcks, ackDue, pingDue := None, 1, [], {}, {};
    }

    method Fail()
      modifies this
      ensures View() == LinkModel.Fail(old(View()))
    {
      hide FreedBudget, NewOutbound;
      ResetStreams();
      lastReceived := None;
      failed := true;
    }

    method Probe(lane: Lane, now: int)
      modifies this`sends, this`pingDue
      ensures Out() == ProbeLane(old(Out()), lane, timings.maxRto, now)
      ensures pingDue == old(pingDue) + One(ProbeDue(old(Out()), lane, now), lane)
    {
      var s := SendFor(lane);
      if s.peerPaused && s.probeAt.Some? && now >= s.probeAt.value {
        pingDue := pingDue + {lane};
        var interval := Min(s.probeInterval * 2, timings.maxRto);
        sends := sends[lane := s.(probeInterval := interval, probeAt := Some(now + interval))];
      }
    }

    method ExpireAll(now: int)
      modifies this`sends, this`sent, this`cwnd, this`recoveryStart, this`timeoutsInARow
      ensures Out() == Expire(old(Out()), now)
    {
      hide SweepLog, TimeoutFor;
      var expired := ExpireOverdue(now, TimeoutFor(rtt, timeoutsInARow));
      if expired && timeoutsInARow < MAX_BACKOFF {
        timeoutsInARow := timeoutsInARow + 1;
      }
    }

    method TakeDelivered() returns (messages: seq<LaneMessage>)
      modifies this`delivered
      ensures View() == LinkModel.TakeDelivered(old(View())) && messages == old(delivered)
    {
      messages := delivered;
      delivered := [];
    }

    /** Nothing pending means that the lane is quiet: the link may be settled, or let go. */
    method HasPending(lane: Lane) returns (pending: bool)
      ensures pending == LinkModel.HasPending(View(), lane)
      ensures pending <==>
        if lane == Media then mediaCursor.Some? else SendFor(lane).cursor.Some? || exists q :: q in SendFor(lane).inFlight
      ensures !pending && lane != Media && Ledger(Out()) ==> Quiet(Out(), lane)
    {
      if lane != Media && Ledger(Out()) {
        SendOfOk(Out(), lane);
        if SendOf(Out(), lane).inFlight == map[] { IdleIsQuiet(Out(), lane); }
      }
      hide Ledger, LaneOk, Quiet;
      if lane == Media {
        return mediaCursor.Some?;
      }
      var s := SendFor(lane);
      pending := |s.inFlight| > 0 || s.cursor.Some?;
    }

    /** Overdue packets are lost, and paused lanes whose turn it is are asked again. */
    method ExpireAndProbe(now: int)
      modifies this`sends, this`sent, this`cwnd, this`recoveryStart, this`timeoutsInARow, this`pingDue
      ensures Out() == TimedOut(old(Out()), timings.maxRto, now)
      ensures pingDue == old(pingDue) + Probed(old(Out()), now)
    {
      ghost var o := Out();
      ProbesAfterExpiry(o, timings.maxRto, now);
      hide Expire, ProbeLane, ProbeDue, Probed;
      ExpireAll(now);
      Probe(Control, now);
      Probe(Reliable, now);
      Probe(Bulk, now);
    }

    method AskRemote(now: int)
      modifies this`pingDue, this`pingedAt
      ensures pingDue == old(pingDue) + One(AskDue(old(View()), now), Control)
      ensures pingedAt == if AskDue(old(View()), now) then now else old(pingedAt)
    {
      if lastReceived.Some? && remoteId.Some? && now - Max(lastReceived.value, pingedAt) >= timings.keepAlive {
        pingDue, pingedAt := pingDue + {Control}, now;
      }
    }

    method Tick(now: int)
      requires !failed && !Silent(View(), now)
      modifies this`sends, this`sent, this`cwnd, this`recoveryStart, this`timeoutsInARow, this`pingDue, this`pingedAt
      ensures View() == LinkModel.OnTimer(old(View()), now)
    {
      hide TimedOut, ProbeDue, LinkModel.Fail, AskDue;
      ghost var l := View();
      AskRemote(now);
      ExpireAndProbe(now);
      assert View() == l.(out := Out(), pingDue := pingDue, pingedAt := pingedAt);
    }

    method OnTimer(now: int)
      requires Valid()
      modifies this
      ensures View() == LinkModel.OnTimer(old(View()), now) && Valid()
      ensures old(Ledger(Out()) && Timed(Out(), now)) ==>
        if old(failed) then View() == old(View())
        else if old(TooLong(View(), now)) then GivesUp(old(View()), View())
        else AfterTimer(old(View()), now, View())
    {
      TimerWaits(View(), now);
      if Ledger(Out()) && Timed(Out(), now) { TimerLaw(View(), now, now); }
      hide AllWait, Ledger, Timed, TooLong, GivesUp, AfterTimer;
      if failed {
        return;
      }
      if (stalledSince.Some? && now - stalledSince.value >= timings.peerTimeout)
         || (lastReceived.Some? && now - lastReceived.value >= timings.peerTimeout) {
        OnTimerFails(View(), now);
        hide LinkModel.OnTimer, LinkModel.Fail;
        Fail();
        return;
      }
      hide LinkModel.OnTimer;
      Tick(now);
    }

    method LossDue() returns (next: Option<int>)
      ensures next == LossDeadline(Out())
    {
      next := None;
      if sent != [] {
        var oldest := sent[0];
        if oldest.lane in sends && oldest.sq in sends[oldest.lane].inFlight {
          next := Some(sends[oldest.lane].inFlight[oldest.sq].sentAt + TimeoutFor(rtt, timeoutsInARow));
        }
      }
    }

    method ProbesDue() returns (next: Option<int>)
      ensures next == Earlier(ProbeDeadline(Out(), Control), Earlier(ProbeDeadline(Out(), Reliable), ProbeDeadline(Out(), Bulk)))
    {
      next := None;
      var control, reliable, bulk := SendFor(Control), SendFor(Reliable), SendFor(Bulk);
      if control.peerPaused && control.probeAt.Some? {
        next := Sooner(next, control.probeAt.value);
      }
      if reliable.peerPaused && reliable.probeAt.Some? {
        next := Sooner(next, reliable.probeAt.value);
      }
      if bulk.peerPaused && bulk.probeAt.Some? {
        next := Sooner(next, bulk.probeAt.value);
      }
    }

    method NextDeadline() returns (next: Option<int>)
      ensures next == LinkModel.NextDeadline(View())
    {
      hide LossDeadline, ProbeDeadline;
      next := LossDue();
      if stalledSince.Some? {
        next := Sooner(next, stalledSince.value + timings.peerTimeout);
      }
      if lastReceived.Some? {
        next := Sooner(next, lastReceived.value + timings.peerTimeout);
        if remoteId.Some? {
          next := Sooner(next, Max(lastReceived.value, pingedAt) + timings.keepAlive);
        }
      }
      assert next == Earlier(LossDeadline(Out()), SilenceDeadline(View()));
      var probes := ProbesDue();
      if probes.Some? {
        next := Sooner(next, probes.value);
      }
    }
  }
}
