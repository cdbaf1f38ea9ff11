/** Which Ack a lane's pause is taken from, and how this side tells its own. */
module LinkPause {
  import opened Transport
  import opened PacketFlags
  import opened PacketHeader
  import opened AckRanges
  import opened Fragments
  import opened LinkModel
  import opened LinkLedger
  import opened LinkLaws
  import opened LinkRuns

  const HALF := 0x8000_0000

  /** Serials are counts modulo 2^32: their order is that of the counts while those are less than 2^31 apart. */
  lemma SerialOrder(a: nat, b: nat)
    requires -HALF < a - b < HALF
    ensures SerialAfter(a % U32, b % U32) <==> a > b
  {
    var qa, qb, ra, rb := a / U32, b / U32, a % U32, b % U32;
    assert a == qa * U32 + ra && b == qb * U32 + rb;
    var d := ra - rb;
    assert a - b == (qa - qb) * U32 + d;
    assert qa - qb == 0 || qa - qb == 1 || qa - qb == -1;
  }

  ghost function PauseOf(o: Outbound, lane: Lane): (Option<nat>, bool) {
    (SendOf(o, lane).ackSerial, SendOf(o, lane).peerPaused)
  }

  /** The operation makes the lane look at an Ack. */
  ghost predicate TakesAck(l: Link, op: Op, lane: Lane) {
    && op.Receive? && !l.failed && !Stale(l, op.packet.header)
    && op.packet.header.flags.kind == Ack && op.packet.header.flags.lane == lane
    && StreamExists(l, lane) && DecodeAck(op.packet.body).Some?
  }

  ghost function SerialOf(op: Op): nat
    requires op.Receive? && DecodeAck(op.packet.body).Some?
  {
    DecodeAck(op.packet.body).value.serial
  }

  lemma PeekPause(o: Outbound, lane: Lane, offered: Option<Message>, k: Lane)
    ensures PauseOf(PeekLane(o, lane, offered), k) == PauseOf(o, k)
  {
    hide HeldBack, LiveLost;
  }

  lemma TransmitPause(o: Outbound, lane: Lane, s: SendSide, q: nat, now: int, k: Lane)
    requires q in s.inFlight && (s.ackSerial, s.peerPaused) == PauseOf(o, lane)
    ensures PauseOf(Transmit(o, lane, s, q, now), k) == PauseOf(o, k)
  {
    hide Waiting;
  }

  lemma DropDeadPause(o: Outbound, lane: Lane, k: Lane)
    ensures PauseOf(DropDead(o, lane), k) == PauseOf(o, k)
  {
    hide LiveLost;
  }

  lemma CommitPause(o: Outbound, lane: Lane, now: int, k: Lane)
    ensures PauseOf(CommitLane(o, lane, now), k) == PauseOf(o, k)
  {
    DropDeadPause(o, lane, k);
    var o1 := DropDead(o, lane);
    hide DropDead, Transmit, FragmentAt;
    var s := SendOf(o1, lane);
    if s.lost != [] {
      TransmitPause(o1, lane, s.(lost := s.lost[1..]), s.lost[0], now, k);
    } else if s.cursor.Some? {
      TransmitPause(o1, lane, Inserted(s, lane, s.cursor.value), s.nextSendSeq, now, k);
    }
  }

  /** The pause after an operation, by what the rules for Acks say. */
  ghost function PauseAfter(l: Link, op: Op, lane: Lane): (Option<nat>, bool) {
    if TakesAck(l, op, lane) && AcceptsSerial(SendOf(l.out, lane), SerialOf(op))
    then (Some(SerialOf(op)), op.packet.header.flags.paused) else PauseOf(l.out, lane)
  }

  lemma ReceivePause(l: Link, p: Packet, now: int, lane: Lane, clock: int)
    requires LinkOk(l, clock) && lane != Media
    ensures PauseOf(OnPacket(l, p, now).out, lane) == PauseAfter(l, Receive(p, now), lane)
  {
    hide LinkOk, DecodeAck, HandleData, DueForData, HandleMedia, LaneOk, Ledger, Timed, HandleAck, NotePause, WindowBounds;
    var k, ack, paused := p.header.flags.lane, DecodeAck(p.body), p.header.flags.paused;
    NoMediaStream(l, clock);
    if !l.failed && !Stale(l, p.header) && p.header.flags.kind == Ack && StreamExists(l, k) && ack.Some? {
      LedgerOf(l, clock);
      NotedLane(l.out, k, ack.value.serial, paused, now);
      AckPauses(l.out, k, p.header.sq, paused, ack.value, now);
    }
  }

  lemma LedgerOf(l: Link, clock: int)
    requires LinkOk(l, clock)
    ensures Ledger(l.out)
  {
  }

  lemma LedgerLane(o: Outbound, lane: Lane)
    requires Ledger(o) && lane != Media
    ensures LaneOk(SendOf(o, lane), lane)
  {
    SendOfOk(o, lane);
  }

  lemma SentPause(l: Link, k: Lane, offered: Option<Message>, now: int, lane: Lane)
    ensures PauseOf(Sent(l, k, offered, now).out, lane) == PauseOf(l.out, lane)
    ensures PauseOf(Peek(l, k, offered).link.out, lane) == PauseOf(l.out, lane)
  {
    hide PauseOf, PeekLane, CommitLane, DropDead, OfferOf;
    PeekPause(l.out, k, offered, lane);
    CommitPause(PeekLane(l.out, k, offered), k, now, lane);
  }

  lemma TimerPause(l: Link, now: int, lane: Lane, clock: int)
    requires LinkOk(l, clock) && !OnTimer(l, now).failed
    ensures PauseOf(OnTimer(l, now).out, lane) == PauseOf(l.out, lane)
  {
    hide LinkOk, Ledger, Timed, OnTimer, FlightAfterTimer, WindowAfterLoss, AskedAbout;
    OutInTime(l, clock);
    TimerLaw(l, now, clock);
  }

  /** Only an Ack that is newer than the one before changes the pause of a lane. */
  lemma StepPause(l: Link, op: Op, lane: Lane, clock: int)
    requires LinkOk(l, clock) && lane != Media && !Step(l, op).failed
    ensures PauseOf(Step(l, op).out, lane) == PauseAfter(l, op, lane)
  {
    hide LinkOk, PauseOf, PeekAck, OnPacket, OnTimer, Sent, Peek;
    match op
    case Send(k, offered, now) => SentPause(l, k, offered, now, lane);
    case JustPeek(k, offered) => SentPause(l, k, offered, 0, lane);
    case Receive(p, now) => hide PauseAfter; ReceivePause(l, p, now, lane, clock);
    case Timer(now) => TimerPause(l, now, lane, clock);
    case SendAck => PeekAckOut(l);
    case JustPeekAck => PeekAckOut(l);
    case Pause(paused) =>
    case Watch(now) =>
    case Collect =>
  }

  // --- The pause of this side -----------------------------------------------------------------------------

  /** An Ack of the lane that says whether the remote is to hold back. */
  predicate Announces(p: Packet, lane: Lane, paused: bool) {
    p.header.flags.kind == Ack && p.header.flags.lane == lane && p.header.flags.paused == paused
  }

  /** Some Ack that waits to be sent tells the pause of the lane. */
  ghost predicate Told(l: Link, lane: Lane) {
    exists p :: p in l.pendingAcks && Announces(p, lane, (l.paused && lane != Control) || RecvOf(l.inb, lane).budgetPaused)
  }

  lemma AnswerTells(l: Link, lane: Lane)
    requires lane in l.ackDue && lane != Media
    ensures Told(AnswerLane(l, lane), lane)
  {
    hide RetryRefused, EncodeAck, WaitingRanges;
    var l1 := l.(inb := RetryRefused(l.inb, lane), ackSerial := (l.ackSerial + 1) % U32);
    var ack := AckPacket(l1, lane, l1.ackSerial);
    assert ack in AnswerLane(l, lane).pendingAcks;
    assert Announces(ack, lane, (l.paused && lane != Control) || RecvOf(l1.inb, lane).budgetPaused);
  }

  lemma AnswerKeeps(l: Link, lane: Lane, other: Lane)
    requires lane != other
    ensures var l' := AnswerLane(l, other);
      && l'.paused == l.paused && l'.ackDue == l.ackDue && l.pendingAcks <= l'.pendingAcks
      && RecvOf(l'.inb, lane) == RecvOf(l.inb, lane)
  {
    hide MakeAck, PingPacket, RecvOf;
    MakeAckKeeps(l, lane, other);
  }

  lemma RetryOtherLane(i: Inbound, lane: Lane, other: Lane)
    requires lane != other
    ensures RecvOf(RetryRefused(i, other), lane) == RecvOf(i, lane)
  {
    hide Retried, MayRetry;
  }

  lemma MakeAckKeeps(l: Link, lane: Lane, other: Lane)
    requires lane != other
    ensures var l' := MakeAck(l, other);
      && l'.paused == l.paused && l'.ackDue == l.ackDue && l'.pingDue == l.pingDue && l.pendingAcks <= l'.pendingAcks
      && RecvOf(l'.inb, lane) == RecvOf(l.inb, lane)
  {
    hide AckPacket, RetryRefused, RecvOf;
    RetryOtherLane(l.inb, lane, other);
  }

  lemma AnswerKeepsTold(l: Link, lane: Lane, other: Lane)
    requires Told(l, lane) && other != lane
    ensures Told(AnswerLane(l, other), lane)
  {
    AnswerKeeps(l, lane, other);
    hide AnswerLane, Announces;
    var paused := (l.paused && lane != Control) || RecvOf(l.inb, lane).budgetPaused;
    var p :| p in l.pendingAcks && Announces(p, lane, paused);
    assert p in AnswerLane(l, other).pendingAcks;
  }

  /** Acks that are due are built with the next ones, and tell the pause of the time. */
  lemma BuiltTells(l: Link, lane: Lane)
    requires !l.failed && l.pendingAcks == [] && lane in l.ackDue && SharesWindow(lane)
    ensures Told(PeekAck(l), lane) && PeekAck(l).paused == l.paused
  {
    hide AnswerLane, Told;
    var l1 := AnswerLane(l, Control);
    var l2 := AnswerLane(l1, Reliable);
    AnswerKeeps(l, Media, Control);
    AnswerKeeps(l1, Media, Reliable);
    AnswerKeeps(l2, Media, Bulk);
    if lane == Reliable {
      AnswerTells(l1, Reliable);
      AnswerKeepsTold(l2, Reliable, Bulk);
    } else {
      AnswerTells(l2, Bulk);
    }
    SameTold(AnswerLane(l2, Bulk), PeekAck(l), lane);
  }

  /** The operation builds new Acks. */
  predicate Builds(l: Link, op: Op) { (op.SendAck? || op.JustPeekAck?) && !l.failed && l.pendingAcks == [] }

  /** What is due stays due until Acks are built. */
  lemma StaysDue(l: Link, op: Op, lane: Lane)
    requires lane in l.ackDue && !Builds(l, op) && !Step(l, op).failed
    ensures lane in Step(l, op).ackDue
  {
    hide HandleAck, HandleData, HandleMedia, DueForData, TimedOut, DecodeAck, PeekLane, CommitLane, OfferOf, DropDead,
         AnswerLane;
  }

  predicate NoneBuilt(l: Link, ops: seq<Op>)
    decreases |ops|
  {
    ops == [] || (!Builds(l, ops[0]) && NoneBuilt(Step(l, ops[0]), ops[1..]))
  }

  lemma {:induction false} RunStaysDue(l: Link, ops: seq<Op>, lane: Lane)
    requires NoneBuilt(l, ops) && lane in l.ackDue && !Run(l, ops).failed
    ensures lane in Run(l, ops).ackDue
    decreases |ops|
  {
    hide Step, Builds;
    if ops != [] {
      var l' := Step(l, ops[0]);
      if l'.failed { FailedRun(l', ops[1..]); }
      StaysDue(l, ops[0], lane);
      RunStaysDue(l', ops[1..], lane);
    }
  }

  /** A change of the pause is told on every data lane that exists. Whatever Acks wait by then and whatever happens next: the
      first Acks that are built afterwards tell the pause of their time. */
  lemma PauseAnnounced(l: Link, ops: seq<Op>, lane: Lane)
    requires NoneBuilt(l, ops) && ops != [] && ops[0] == Pause(!l.paused) && StreamExists(l, lane) && SharesWindow(lane)
    requires !Run(l, ops).failed && Run(l, ops).pendingAcks == []
    ensures Told(PeekAck(Run(l, ops)), lane) && PeekAck(Run(l, ops)).paused == Run(l, ops).paused
  {
    hide Told, PeekAck;
    RunStaysDue(Step(l, ops[0]), ops[1..], lane);
    BuiltTells(Run(l, ops), lane);
  }

  lemma SameTold(l: Link, l': Link, lane: Lane)
    requires Told(l, lane) && l'.pendingAcks == l.pendingAcks && l'.paused == l.paused && l'.inb == l.inb
    ensures Told(l', lane)
  {
  }
}
