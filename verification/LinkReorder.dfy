/** What waits behind a gap stays within the window, whatever arrives: the reorder ring is the map it stands for. */
module LinkReorder {
  import opened Transport
  import opened PacketFlags
  import opened PacketHeader
  import opened AckRanges
  import opened SequenceBuffer
  import opened MessageAssembler
  import opened MediaAssembler
  import opened LinkModel
  import opened LinkRuns
  import opened LinkPause
  import opened LinkNetwork

  ghost predicate Waits(r: RecvSide, lane: Lane) { InWindow(r.reorder, r.nextExpected, Window(lane)) }

  ghost predicate AllWait(i: Inbound) {
    Waits(RecvOf(i, Control), Control) && Waits(RecvOf(i, Reliable), Reliable) && Waits(RecvOf(i, Bulk), Bulk)
  }

  lemma {:induction false} DrainWaits(c: Intake, lane: Lane)
    requires Waits(c.recv, lane)
    ensures Waits(Drain(c, lane).recv, lane) && Drain(c, lane).recv.nextExpected >= c.recv.nextExpected
    decreases |c.recv.reorder|
  {
    hide Accept, HasRoomFor;
    var q := c.recv.nextExpected;
    if q in c.recv.reorder {
      var (c1, ok) := AcceptInOrder(c, lane, c.recv.reorder[q]);
      if ok {
        assert (c1.recv.reorder - {q}).Keys == c.recv.reorder.Keys - {q};
        DrainWaits(c1.(recv := c1.recv.(reorder := c1.recv.reorder - {q}, nextExpected := q + 1)), lane);
      }
    }
  }

  lemma RetriedWaits(c: Intake, lane: Lane)
    requires Waits(c.recv, lane)
    ensures Waits(Retried(c, lane).recv, lane)
  {
    hide Drain, MayRetry;
    if MayRetry(c) { DrainWaits(c.(recv := c.recv.(budgetPaused := false)), lane); }
  }

  /** No packet that waits is pushed out of its slot by another. */
  lemma TakeDataWaits(c: Intake, lane: Lane, p: Packet)
    requires Waits(c.recv, lane)
    ensures Waits(TakeData(c, lane, p).recv, lane)
    ensures var q := p.header.sq;
      !OutOfWindow(c, lane, q) && !Duplicate(c, q) && q != c.recv.nextExpected ==>
        TakeData(c, lane, p).recv.reorder == c.recv.reorder[q := p]
  {
    hide Drain, Accept, HasRoomFor, RingInsert;
    var q := p.header.sq;
    if OutOfWindow(c, lane, q) || Duplicate(c, q) {
    } else if q != c.recv.nextExpected {
      NoEviction(c.recv.reorder, Window(lane), c.recv.nextExpected, q, p);
    } else {
      var (c1, ok) := AcceptInOrder(c, lane, p);
      if ok { DrainWaits(c1.(recv := c1.recv.(nextExpected := q + 1)), lane); }
    }
  }

  lemma HandleDataWaits(i: Inbound, lane: Lane, p: Packet)
    requires AllWait(i) && lane != Media
    ensures AllWait(HandleData(i, lane, p))
  {
    var c := IntakeOf(i, lane);
    RetriedWaits(c, lane);
    TakeDataWaits(Retried(c, lane), lane, p);
    hide Waits, Retried, TakeData;
  }

  lemma RetryRefusedWaits(i: Inbound, lane: Lane)
    requires AllWait(i) && lane != Media
    ensures AllWait(RetryRefused(i, lane))
  {
    RetriedWaits(IntakeOf(i, lane), lane);
    hide Waits, Retried, MayRetry;
  }

  lemma AnswerWaits(l: Link, lane: Lane)
    requires AllWait(l.inb) && lane != Media
    ensures AllWait(AnswerLane(l, lane).inb)
  {
    RetryRefusedWaits(l.inb, lane);
    hide AllWait, RetryRefused;
  }

  lemma PeekAckWaits(l: Link)
    requires AllWait(l.inb)
    ensures AllWait(PeekAck(l).inb)
  {
    AnswerWaits(l, Control);
    AnswerWaits(AnswerLane(l, Control), Reliable);
    AnswerWaits(AnswerLane(AnswerLane(l, Control), Reliable), Bulk);
    hide AllWait, AnswerLane;
  }

  lemma ReceiveWaits(l: Link, p: Packet, now: int)
    requires AllWait(l.inb)
    ensures AllWait(OnPacket(l, p, now).inb)
  {
    hide Waits, HandleAck, HandleData, DueForData, DecodeAck, AcceptMedia;
    if p.header.flags.lane != Media { HandleDataWaits(l.inb, p.header.flags.lane, p); }
  }

  lemma StepWaits(l: Link, op: Op)
    requires AllWait(l.inb)
    ensures AllWait(Step(l, op).inb)
  {
    match op
    case Receive(p, now) => ReceiveWaits(l, p, now);
    case SendAck => PeekAckWaits(l);
    case JustPeekAck => PeekAckWaits(l);
    case Send(lane, offered, now) => hide Waits, PeekLane, OfferOf, DropDead, CommitLane;
    case JustPeek(lane, offered) => hide Waits, PeekLane, OfferOf, DropDead;
    case Timer(now) => hide TimedOut;
    case Pause(paused) =>
    case Watch(now) =>
    case Collect =>
  }

  // Runs, in which the other links of the engine use the same budget

  function SharedStep(l: Link, op: NetOp): Link {
    match op
    case Do(o) => Step(l, o)
    case OthersReserve(used) => Reserving(l, used)
  }

  function Reserving(l: Link, used: int): Link {
    if l.inb.budget.None? then l else l.(inb := l.inb.(budget := Some(l.inb.budget.value.(used := used))))
  }

  function SharedRun(l: Link, ops: seq<NetOp>): Link
    decreases |ops|
  {
    if ops == [] then l else SharedRun(SharedStep(l, ops[0]), ops[1..])
  }

  lemma SharedWaits(l: Link, op: NetOp)
    requires AllWait(l.inb)
    ensures AllWait(SharedStep(l, op).inb)
  {
    hide Step;
    match op
    case Do(o) => StepWaits(l, o);
    case OthersReserve(used) =>
  }

  /** In every run, with any packets and whatever others do to the budget: what waits on a lane lies within one window, so no
      ring slot is ever shared. */
  lemma {:induction false} RunWaits(l: Link, ops: seq<NetOp>)
    requires AllWait(l.inb)
    ensures AllWait(SharedRun(l, ops).inb)
    decreases |ops|
  {
    hide AllWait, SharedStep;
    if ops != [] {
      SharedWaits(l, ops[0]);
      RunWaits(SharedStep(l, ops[0]), ops[1..]);
    }
  }

  // --- A message there is no room for ------------------------------------------------------------------

  /** A first fragment that is next in order and does not fit is not taken: nothing of the lane moves but its pause. */
  lemma RefusedStays(c: Intake, lane: Lane, p: Packet)
    requires p.header.sq == c.recv.nextExpected && c.recv.nextExpected !in c.recv.reorder && !HasRoomFor(c.budget, p.header)
    ensures var c' := TakeData(c, lane, p);
      && c'.recv.budgetPaused && c'.recv.nextExpected == p.header.sq && c'.recv.reorder == c.recv.reorder
      && c'.budget == c.budget && c'.delivered == c.delivered && c'.recv.assembler == c.recv.assembler
  {
    hide Accept, Drain;
  }

  /** The seqs, serials and counts of the link fit the wire. */
  ghost predicate Fitting(l: Link, lane: Lane) {
    && 1 <= RecvOf(l.inb, lane).nextExpected && RecvOf(l.inb, lane).nextExpected + Window(lane) <= U64
    && l.inb.mediaReceived < U32 && Waits(RecvOf(l.inb, lane), lane)
  }

  /** The Ack, read back from the wire, ends before the seq and names it exactly if the receiver has it. */
  ghost predicate TellsAbout(ack: Packet, q: nat, has: bool) {
    && DecodeAck(ack.body).Some? && ack.header.sq == q - 1
    && (Named(ack.header.sq, DecodeAck(ack.body).value.ranges, q) <==> has)
  }

  /** The lowest seq that waits is in the first range. */
  lemma LowestFirst(s: seq<nat>, q: nat, kept: nat)
    requires Ascending(s) && (forall x :: x in s ==> q <= x) && 0 < kept <= |RangesOf(s)|
    ensures Covered(RangesOf(s)[..kept], q) <==> q in s
  {
    RangesCover(s, q);
    RangesNormal(s);
    var ranges := RangesOf(s);
    RangesCover(s, ranges[0].first);
    hide RangesOf, Ascending;
    assert ranges[0].Holds(ranges[0].first);
    if q in s {
      var i :| 0 <= i < |ranges| && ranges[i].Holds(q);
      assert i == 0;
      assert ranges[..kept][0].Holds(q);
    }
    if Covered(ranges[..kept], q) {
      var i :| 0 <= i < kept && ranges[..kept][i].Holds(q);
      assert ranges[i].Holds(q);
    }
  }

  lemma LowestKept(s: seq<nat>, q: nat)
    requires Ascending(s) && forall x :: x in s ==> q <= x
    ensures var ranges := RangesOf(s); Covered(ranges[..Min(|ranges|, MAX_ACK_RANGES)], q) <==> q in s
  {
    hide RangesOf, Ascending, Covered;
    var ranges := RangesOf(s);
    RangesNormal(s);
    hide Normal;
    if s != [] {
      LowestFirst(s, q, Min(|ranges|, MAX_ACK_RANGES));
    } else {
      assert ranges[..Min(|ranges|, MAX_ACK_RANGES)] == [];
      NothingCovered(q);
    }
  }

  lemma WaitingKept(r: RecvSide, lane: Lane)
    requires Waits(r, lane) && 1 <= r.nextExpected && r.nextExpected + Window(lane) <= U64
    ensures var ranges := WaitingRanges(r, lane);
      && AllProper(ranges)
      && (Covered(ranges[..Min(|ranges|, MAX_ACK_RANGES)], r.nextExpected) <==> r.nextExpected in r.reorder)
  {
    hide RangesOf, Below, Ascending, Covered, AllProper;
    var s := Below(r.reorder.Keys, r.nextExpected + Window(lane));
    RangesProper(s);
    LowestKept(s, r.nextExpected);
  }

  lemma AckTells(l: Link, lane: Lane, serial: nat)
    requires Fitting(l, lane) && serial < U32
    ensures var r := RecvOf(l.inb, lane);
      TellsAbout(AckPacket(l, lane, serial), r.nextExpected, r.nextExpected in r.reorder)
  {
    hide WaitingRanges, EncodeAck, DecodeAck, AllProper, Covered, Waits;
    var r := RecvOf(l.inb, lane);
    WaitingKept(r, lane);
    AckRoundTrip(AckBody(serial, l.inb.mediaReceived, WaitingRanges(r, lane)), MAX_ACK_RANGES);
  }

  lemma NothingCovered(q: nat)
    ensures !Covered([], q)
  {
  }

  /** The stream's next seq was refused, and is not in the reorder buffer: a retry finds nothing to take. */
  lemma RetryFindsNothing(i: Inbound, lane: Lane)
    requires RecvOf(i, lane).nextExpected !in RecvOf(i, lane).reorder || !MayRetry(IntakeOf(i, lane))
    ensures var r, r' := RecvOf(i, lane), RecvOf(RetryRefused(i, lane), lane);
      && r' == r.(budgetPaused := r.budgetPaused && !MayRetry(IntakeOf(i, lane)))
      && RetryRefused(i, lane).mediaReceived == i.mediaReceived
  {
  }

  /** The Ack a lane is answered with when its next message was refused. It says to wait while there is still no room; and it
      names the refused seq exactly if that waits in the reorder buffer, from where it is taken later. */
  lemma RefusedAnswer(l: Link, lane: Lane)
    requires Fitting(l, lane) && RecvOf(l.inb, lane).budgetPaused
    requires RecvOf(l.inb, lane).nextExpected !in RecvOf(l.inb, lane).reorder || !MayRetry(IntakeOf(l.inb, lane))
    ensures var r, ack := RecvOf(l.inb, lane), MakeAck(l, lane).pendingAcks[|l.pendingAcks|];
      && TellsAbout(ack, r.nextExpected, r.nextExpected in r.reorder)
      && ack.header.flags.paused == ((l.paused && lane != Control) || !MayRetry(IntakeOf(l.inb, lane)))
  {
    hide MayRetry, TellsAbout, WaitingRanges, EncodeAck, RetryRefused;
    RetryFindsNothing(l.inb, lane);
    var l1 := l.(inb := RetryRefused(l.inb, lane), ackSerial := (l.ackSerial + 1) % U32);
    AckTells(l1, lane, l1.ackSerial);
  }

  /** The link as it is when the lane gets its answer. */
  function BeforeAnswer(l: Link, lane: Lane): Link
    requires lane != Media
  {
    match lane
    case Control => l
    case Reliable => AnswerLane(l, Control)
    case Bulk => AnswerLane(AnswerLane(l, Control), Reliable)
  }

  lemma OtherAnswered(l: Link, lane: Lane, k: Lane, p: Packet)
    requires k != lane && k != Media && p in AnswerLane(l, k).pendingAcks && IsAck(p, lane)
    ensures p in l.pendingAcks
  {
    hide AnswerLane, RetryRefused, AckPacket, PingPacket;
    AnswerPending(l, k, p);
    var l1 := l.(inb := RetryRefused(l.inb, k), ackSerial := (l.ackSerial + 1) % U32);
    AckIsAck(l1, k, l1.ackSerial);
    AckIsAck(l, k, 0);
  }

  lemma BeforeAnswerKeeps(l: Link, lane: Lane)
    requires !l.failed && l.pendingAcks == [] && lane != Media
    ensures var b := BeforeAnswer(l, lane);
      && b.paused == l.paused && RecvOf(b.inb, lane) == RecvOf(l.inb, lane) && b.inb.mediaReceived == l.inb.mediaReceived
      && forall p :: p in b.pendingAcks ==> !IsAck(p, lane)
  {
    hide AnswerLane, RecvOf;
    var l1 := AnswerLane(l, Control);
    if lane != Control {
      AnswerKeeps(l, lane, Control);
      AnswerLaneOut(l, Control);
      forall p | p in l1.pendingAcks ensures !IsAck(p, lane) { if IsAck(p, lane) { OtherAnswered(l, lane, Control, p); } }
    }
    if lane == Bulk {
      AnswerKeeps(l1, lane, Reliable);
      AnswerLaneOut(l1, Reliable);
      var l2 := AnswerLane(l1, Reliable);
      forall p | p in l2.pendingAcks ensures !IsAck(p, lane) { if IsAck(p, lane) { OtherAnswered(l1, lane, Reliable, p); } }
    }
  }

  lemma AnsweredInTurn(l: Link, lane: Lane, p: Packet)
    requires !l.failed && l.pendingAcks == [] && lane != Media && p in PeekAck(l).pendingAcks && IsAck(p, lane)
    ensures p in AnswerLane(BeforeAnswer(l, lane), lane).pendingAcks
  {
    hide AnswerLane, IsAck;
    var l1 := AnswerLane(l, Control);
    var l2 := AnswerLane(l1, Reliable);
    assert p in AnswerLane(l2, Bulk).pendingAcks;
    if lane != Bulk { OtherAnswered(l2, lane, Bulk, p); }
    if lane == Control { OtherAnswered(l1, lane, Reliable, p); }
  }

  /** The only Ack of the lane a link without pending Acks builds. */
  lemma OneAnswer(l: Link, lane: Lane, p: Packet)
    requires !l.failed && l.pendingAcks == [] && lane != Media && p in PeekAck(l).pendingAcks && IsAck(p, lane)
    ensures var b := BeforeAnswer(l, lane); p == MakeAck(b, lane).pendingAcks[|b.pendingAcks|]
  {
    hide PeekAck, AnswerLane, RetryRefused, AckPacket, PingPacket, BeforeAnswer;
    BeforeAnswerKeeps(l, lane);
    AnsweredInTurn(l, lane, p);
    AnswerPending(BeforeAnswer(l, lane), lane, p);
    AckIsAck(BeforeAnswer(l, lane), lane, 0);
  }

  /** There is one, if it is due. */
  lemma AnswerIsBuilt(l: Link, lane: Lane)
    requires !l.failed && l.pendingAcks == [] && lane in l.ackDue && lane != Media
    ensures var b := BeforeAnswer(l, lane); MakeAck(b, lane).pendingAcks[|b.pendingAcks|] in PeekAck(l).pendingAcks
  {
    hide AnswerLane, MakeAck;
    var b, l1 := BeforeAnswer(l, lane), AnswerLane(l, Control);
    var l2 := AnswerLane(l1, Reliable);
    AnswerKeeps(l, Media, Control);
    AnswerKeeps(l1, Media, Reliable);
    AnswerKeeps(l2, Media, Bulk);
    BuiltFirst(b, lane);
  }

  lemma BuiltFirst(l: Link, lane: Lane)
    requires lane in l.ackDue
    ensures MakeAck(l, lane).pendingAcks[|l.pendingAcks|] in AnswerLane(l, lane).pendingAcks
  {
    hide AckPacket, RetryRefused, PingPacket;
    var p := MakeAck(l, lane).pendingAcks[|l.pendingAcks|];
    assert AnswerLane(l, lane).pendingAcks[|l.pendingAcks|] == p;
  }

  lemma RefusedTold(l: Link, lane: Lane, p: Packet)
    requires !l.failed && l.pendingAcks == [] && lane != Media && Fitting(l, lane) && RecvOf(l.inb, lane).budgetPaused
    requires RecvOf(l.inb, lane).nextExpected !in RecvOf(l.inb, lane).reorder
    requires p in PeekAck(l).pendingAcks && IsAck(p, lane)
    ensures TellsAbout(p, RecvOf(l.inb, lane).nextExpected, false)
    ensures p.header.flags.paused
         == ((l.paused && lane != Control) || !MayRetry(IntakeOf(BeforeAnswer(l, lane).inb, lane)))
  {
    hide PeekAck, MakeAck, BeforeAnswer, TellsAbout, Waits, MayRetry;
    BeforeAnswerKeeps(l, lane);
    OneAnswer(l, lane, p);
    RefusedAnswer(BeforeAnswer(l, lane), lane);
  }

  /** A message that is refused is not acknowledged: of the Acks built after it arrived, the one of its lane decodes, ends
      before it and names it in no range, so its sender keeps it. The Ack says to wait, unless answering another lane before
      made room. */
  lemma RefusedNotAcknowledged(l: Link, p: Packet, now: int, ack: Packet)
    requires !l.failed && !Stale(l, p.header) && l.pendingAcks == []
    requires var lane := p.header.flags.lane;
      p.header.flags.kind == Data && lane != Media && Fitting(l.(inb := HandleData(l.inb, lane, p)), lane)
    requires var c := Retried(IntakeOf(l.inb, p.header.flags.lane), p.header.flags.lane);
      p.header.sq == c.recv.nextExpected && p.header.sq !in c.recv.reorder && !HasRoomFor(c.budget, p.header)
    requires ack in PeekAck(OnPacket(l, p, now)).pendingAcks && IsAck(ack, p.header.flags.lane)
    ensures TellsAbout(ack, p.header.sq, false)
    ensures var lane, l' := p.header.flags.lane, OnPacket(l, p, now);
      ack.header.flags.paused <==> (l.paused && lane != Control) || !MayRetry(IntakeOf(BeforeAnswer(l', lane).inb, lane))
  {
    hide PeekAck, Retried, TakeData, HasRoomFor, BeforeAnswer, MayRetry, TellsAbout, Waits, Stale;
    var lane := p.header.flags.lane;
    RefusedStays(Retried(IntakeOf(l.inb, lane), lane), lane, p);
    RefusedTold(OnPacket(l, p, now), lane, ack);
  }
}
