/** What every run of two links keeps besides their agreement: what was sent is on the net, addressed to the other end, and
    nothing that was refused is larger than a message can be. */
module LinkTraced {
  import opened Transport
  import opened PacketHeader
  import opened AckRanges
  import opened Fragments
  import opened MessageAssembler
  import opened MediaAssembler
  import opened LinkModel
  import opened LinkLedger
  import opened LinkRuns
  import opened LinkPause
  import opened LinkDelivery
  import opened LinkSending
  import opened LinkNetwork
  import opened LinkTheorems

  // --- Sizes --------------------------------------------------------------------------------------------

  predicate Small(p: Packet) { p.header.totalLength <= MAX_MESSAGE }

  ghost predicate SmallRecv(r: RecvSide) {
    r.refusedLength <= MAX_MESSAGE && forall q :: q in r.reorder ==> Small(r.reorder[q])
  }

  ghost predicate SmallIn(i: Inbound) { forall k :: SmallRecv(RecvOf(i, k)) }

  lemma {:induction false} DrainSmall(c: Intake, lane: Lane)
    requires SmallRecv(c.recv)
    ensures SmallRecv(Drain(c, lane).recv)
    decreases |c.recv.reorder|
  {
    hide Accept, HasRoomFor;
    var q := c.recv.nextExpected;
    if q in c.recv.reorder {
      var (c1, ok) := AcceptInOrder(c, lane, c.recv.reorder[q]);
      if ok {
        assert (c1.recv.reorder - {q}).Keys == c.recv.reorder.Keys - {q};
        DrainSmall(c1.(recv := c1.recv.(reorder := c1.recv.reorder - {q}, nextExpected := q + 1)), lane);
      }
    }
  }

  lemma RetriedSmall(c: Intake, lane: Lane)
    requires SmallRecv(c.recv)
    ensures SmallRecv(Retried(c, lane).recv)
  {
    hide Drain, MayRetry;
    if MayRetry(c) { DrainSmall(c.(recv := c.recv.(budgetPaused := false)), lane); }
  }

  lemma TakeDataSmall(c: Intake, lane: Lane, p: Packet)
    requires SmallRecv(c.recv) && Small(p)
    ensures SmallRecv(TakeData(c, lane, p).recv)
  {
    hide Drain, Accept, HasRoomFor;
    var q := p.header.sq;
    if !OutOfWindow(c, lane, q) && !Duplicate(c, q) && q == c.recv.nextExpected {
      var (c1, ok) := AcceptInOrder(c, lane, p);
      if ok { DrainSmall(c1.(recv := c1.recv.(nextExpected := q + 1)), lane); }
    }
  }

  lemma WithIntakeSmall(i: Inbound, lane: Lane, c: Intake)
    requires SmallIn(i) && SmallRecv(c.recv)
    ensures SmallIn(WithIntake(i, lane, c))
  {
    hide SmallRecv;
    forall k ensures SmallRecv(RecvOf(WithIntake(i, lane, c), k)) { assert SmallRecv(RecvOf(i, k)); }
  }

  lemma HandleDataSmall(i: Inbound, lane: Lane, p: Packet)
    requires SmallIn(i) && Small(p)
    ensures SmallIn(HandleData(i, lane, p))
  {
    hide SmallRecv, Retried, TakeData, Small;
    assert SmallRecv(RecvOf(i, lane));
    RetriedSmall(IntakeOf(i, lane), lane);
    var c := Retried(IntakeOf(i, lane), lane);
    TakeDataSmall(c, lane, p);
    WithIntakeSmall(i, lane, TakeData(c, lane, p));
  }

  lemma RetrySmall(i: Inbound, lane: Lane)
    requires SmallIn(i)
    ensures SmallIn(RetryRefused(i, lane))
  {
    hide SmallRecv, Retried, MayRetry;
    assert SmallRecv(RecvOf(i, lane));
    RetriedSmall(IntakeOf(i, lane), lane);
    WithIntakeSmall(i, lane, Retried(IntakeOf(i, lane), lane));
  }

  lemma AnswerSmall(l: Link, lane: Lane)
    requires SmallIn(l.inb)
    ensures SmallIn(AnswerLane(l, lane).inb)
  {
    hide SmallIn, RetryRefused, AnswerLane;
    AnswerIs(l, lane);
    RetrySmall(l.inb, lane);
  }

  lemma PeekAckSmall(l: Link)
    requires SmallIn(l.inb)
    ensures SmallIn(PeekAck(l).inb)
  {
    hide SmallIn, AnswerLane;
    var l1 := AnswerLane(l, Control);
    AnswerSmall(l, Control);
    AnswerSmall(l1, Reliable);
    AnswerSmall(AnswerLane(l1, Reliable), Bulk);
  }

  lemma SameRecvsSmall(i: Inbound, i': Inbound)
    requires SmallIn(i) && i'.recvs == i.recvs
    ensures SmallIn(i')
  {
    hide SmallRecv;
    forall k ensures SmallRecv(RecvOf(i', k)) { assert SmallRecv(RecvOf(i, k)); }
  }

  lemma NewSmall(budget: Option<Budget>)
    ensures SmallIn(NewInbound(budget))
  {
  }

  lemma ReceiveSmall(l: Link, p: Packet, now: int)
    requires SmallIn(l.inb) && Small(p)
    ensures SmallIn(OnPacket(l, p, now).inb)
  {
    hide SmallIn, Small, HandleAck, HandleData, DueForData, DecodeAck, AcceptMedia;
    HandleDataSmall(l.inb, p.header.flags.lane, p);
    if p.header.flags.lane == Media { SameRecvsSmall(l.inb, HandleMedia(l.inb, p)); }
  }

  /** A packet that arrives announces no more than a message can have. */
  lemma ArrivesSmall(y: End, p: Packet, id: nat)
    requires Arrives(y, p) && forall q :: q in y.net ==> OnWireOk(q, id)
    ensures Small(p)
  {
    hide Arrives;
    var w := ArrivesIs(y, p, id);
    assert OnWireOk(w, id);
  }

  lemma SystemLinks(x: End, y: End, clock: int)
    requires SystemOk(x, y, clock)
    ensures LinkOk(x.link, clock) && LinkOk(y.link, clock)
  {
  }

  lemma SentInb(l: Link, lane: Lane, offered: Option<Message>, now: int)
    ensures Sent(l, lane, offered, now).inb == l.inb && Peek(l, lane, offered).link.inb == l.inb
  {
    hide PeekLane, CommitLane, OfferOf, DropDead;
  }

  lemma TimerSmall(l: Link, now: int)
    requires SmallIn(l.inb)
    ensures SmallIn(OnTimer(l, now).inb)
  {
    hide SmallIn, TimedOut, FreedBudget;
    NewSmall(FreedBudget(l.inb));
    SameRecvsSmall(NewInbound(FreedBudget(l.inb)), Fail(l).inb);
  }

  lemma LinkSmall(x: End, y: End, op: Op, clock: int)
    requires SystemOk(x, y, clock) && Allowed(x, y, Do(op)) && SmallIn(x.link.inb)
    ensures SmallIn(Step(x.link, op).inb)
  {
    hide SystemOk, SmallIn, NoWrap, Arrives, PeekAck, OnPacket, OnTimer, Sent, Peek, Stale;
    var l := x.link;
    SystemLinks(x, y, clock);
    match op
    case Receive(p, now) => ReceiveIsSmall(x, y, p, now, clock);
    case SendAck => PeekAckSmall(l);
    case JustPeekAck => PeekAckSmall(l);
    case Timer(now) => TimerSmall(l, now);
    case Send(lane, offered, now) => SentInb(l, lane, offered, now);
    case JustPeek(lane, offered) => SentInb(l, lane, offered, 0);
    case Collect => SameRecvsSmall(l.inb, TakeDelivered(l).inb);
    case Pause(paused) =>
    case Watch(now) =>
  }

  lemma ReceiveIsSmall(x: End, y: End, p: Packet, now: int, clock: int)
    requires SystemOk(x, y, clock) && SmallIn(x.link.inb)
    requires Arrives(y, p) || Stale(x.link, p.header)
    ensures SmallIn(OnPacket(x.link, p, now).inb)
  {
    hide SmallIn, Agreed, Arrives, OnPacket, LinkOk, Stale, OnWireOk, AllSendable, BudgetOk;
    if Arrives(y, p) {
      ArrivesSmall(y, p, y.link.localId);
      ReceiveSmall(x.link, p, now);
    } else {
      StaleIgnored(x.link, p, now);
    }
  }

  // --- Addresses -----------------------------------------------------------------------------------------

  predicate To(p: Packet, id: nat) { p.header.dst == 0 || p.header.dst == id }

  predicate Knows(l: Link, peer: nat) { l.remoteId.Some? ==> l.remoteId.value == peer }

  ghost predicate AllTo(x: End, peer: nat) { forall p :: Emits(x, p) ==> To(p, peer) }

  lemma PeekTo(l: Link, lane: Lane, offered: Option<Message>, peer: nat)
    requires Knows(l, peer)
    ensures var d := Peek(l, lane, offered).datagram; d.Some? ==> To(d.value, peer)
  {
    hide OfferOf, DropDead, PeekLane, FragmentAt;
  }

  lemma AckTo(l: Link, lane: Lane, serial: nat, peer: nat)
    requires Knows(l, peer)
    ensures To(AckPacket(l, lane, serial), peer) && To(PingPacket(l, lane), peer)
  {
    hide EncodeAck, WaitingRanges;
  }

  ghost predicate PendingTo(l: Link, peer: nat) { Knows(l, peer) && forall p :: p in l.pendingAcks ==> To(p, peer) }

  lemma AnswerTo(l: Link, lane: Lane, peer: nat)
    requires PendingTo(l, peer) && lane != Media
    ensures PendingTo(AnswerLane(l, lane), peer)
  {
    AnswerLaneOut(l, lane);
    hide AnswerLane, RetryRefused, AckPacket, PingPacket, To;
    var l1 := l.(inb := RetryRefused(l.inb, lane), ackSerial := (l.ackSerial + 1) % U32);
    AckTo(l1, lane, l1.ackSerial, peer);
    AckTo(l, lane, 0, peer);
    forall p | p in AnswerLane(l, lane).pendingAcks
      ensures To(p, peer)
    {
      AnswerPending(l, lane, p);
    }
  }

  lemma PeekAckTo(l: Link, peer: nat)
    requires PendingTo(l, peer)
    ensures PendingTo(PeekAck(l), peer)
  {
    hide AnswerLane, To;
    var l1 := AnswerLane(l, Control);
    AnswerTo(l, Control, peer);
    AnswerTo(l1, Reliable, peer);
    AnswerTo(AnswerLane(l1, Reliable), Bulk, peer);
  }

  // --- What was sent is on the net --------------------------------------------------------------------------

  ghost predicate OnNet(x: End, lane: Lane, q: nat) { exists p :: p in x.net && IsData(p, lane) && p.header.sq == q }

  ghost predicate SentAll(x: End, lane: Lane) {
    forall q :: 1 <= q < SendOf(x.link.out, lane).nextSendSeq ==> OnNet(x, lane, q)
  }

  lemma NetGrows(x: End, x': End, lane: Lane)
    requires SentAll(x, lane) && x.net <= x'.net
    requires SendOf(x'.link.out, lane).nextSendSeq <= SendOf(x.link.out, lane).nextSendSeq
    ensures SentAll(x', lane)
  {
    forall q | 1 <= q < SendOf(x'.link.out, lane).nextSendSeq
      ensures OnNet(x', lane, q)
    {
      assert OnNet(x, lane, q);
    }
  }

  lemma OneMoreSent(x: End, x': End, lane: Lane, p: Packet)
    requires SentAll(x, lane) && x.net <= x'.net && p in x'.net && IsData(p, lane)
    requires p.header.sq == SendOf(x.link.out, lane).nextSendSeq
    requires SendOf(x'.link.out, lane).nextSendSeq == SendOf(x.link.out, lane).nextSendSeq + 1
    ensures SentAll(x', lane)
  {
    forall q | 1 <= q < SendOf(x'.link.out, lane).nextSendSeq
      ensures OnNet(x', lane, q)
    {
      if q < SendOf(x.link.out, lane).nextSendSeq { assert OnNet(x, lane, q); }
    }
  }

  /** What a send makes of the lane: a fragment more, and its packet is the one that goes out; or nothing new. */
  lemma SendAdvances(l: Link, lane: Lane, offered: Option<Message>, now: int, clock: int)
    requires LinkOk(l, clock) && !l.failed && lane != Media && Peek(l, lane, offered).datagram.Some?
    ensures var s, s' := SendOf(l.out, lane), SendOf(Sent(l, lane, offered, now).out, lane);
      var d := Peek(l, lane, offered).datagram.value;
      && IsData(d, lane)
      && (s'.nextSendSeq == s.nextSendSeq || (s'.nextSendSeq == s.nextSendSeq + 1 && d.header.sq == s.nextSendSeq))
  {
    hide LinkOk, Ledger, Timed, LaneOk, CommitLane, Committed, HeldBack, FragmentAt;
    LedgerInTime(l, clock);
    PeekLaneKeeps(l.out, lane, offered);
    PeekLaneSends(l.out, lane, offered, lane);
    DropDeadSends(l.out, lane, lane);
    var o1, o2 := DropDead(l.out, lane), PeekLane(l.out, lane, offered);
    LedgerLane(o2, lane);
    CommitLaneSends(o2, lane, now);
    CommittedNext(SendOf(o2, lane), SendOf(CommitLane(o2, lane, now), lane));
    DataIsData(l, lane, OfferOf(o1, lane, offered).0);
    hide DropDead;
  }

  lemma CommittedNext(s: SendSide, s': SendSide)
    requires Committed(s, s')
    ensures s'.nextSendSeq == if s.lost != [] then s.nextSendSeq else s.nextSendSeq + 1
  {
  }

  lemma DataIsData(l: Link, lane: Lane, offer: Offer)
    ensures var d := OfferPacket(l, lane, offer); d.Some? ==> IsData(d.value, lane) && d.value.header.sq == offer.sq
  {
    hide FragmentAt;
  }

  lemma SendOthers(l: Link, lane: Lane, offered: Option<Message>, now: int, k: Lane, clock: int)
    requires LinkOk(l, clock) && k != Media && (k != lane || l.failed || Peek(l, lane, offered).datagram.None?)
    ensures SendOf(Sent(l, lane, offered, now).out, k).nextSendSeq == SendOf(l.out, k).nextSendSeq
  {
    hide LinkOk, Ledger, Timed, LaneOk, CommitLane, HeldBack, FragmentAt;
    if !l.failed && lane != Media {
      LedgerInTime(l, clock);
      PeekLaneKeeps(l.out, lane, offered);
      PeekLaneSends(l.out, lane, offered, k);
      var o := PeekLane(l.out, lane, offered);
      LedgerLane(o, lane);
      if Peek(l, lane, offered).datagram.Some? { CommitLaneSends(o, lane, now); }
      hide DropDead;
    }
  }

  lemma PeekSeqs(l: Link, lane: Lane, offered: Option<Message>, k: Lane)
    ensures SendOf(Peek(l, lane, offered).link.out, k).nextSendSeq == SendOf(l.out, k).nextSendSeq
  {
    PeekLaneSends(l.out, lane, offered, k);
    hide OfferOf, DropDead, PeekLane;
  }

  lemma ReceiveSeqs(l: Link, p: Packet, now: int, k: Lane, clock: int)
    requires LinkOk(l, clock)
    ensures SendOf(OnPacket(l, p, now).out, k).nextSendSeq == SendOf(l.out, k).nextSendSeq
  {
    hide LinkOk, Ledger, Timed, DecodeAck, HandleData, DueForData, HandleMedia, HandleAck;
    var lane, ack := p.header.flags.lane, DecodeAck(p.body);
    NoMediaStream(l, clock);
    if StreamExists(l, lane) && ack.Some? {
      LedgerInTime(l, clock);
      HandleAckSends(l.out, lane, p.header.sq, p.header.flags.paused, ack.value, now, k, clock);
    }
  }

  lemma TimerSeqs(l: Link, now: int, k: Lane, clock: int)
    requires LinkOk(l, clock) && k != Media
    ensures SendOf(OnTimer(l, now).out, k).nextSendSeq <= SendOf(l.out, k).nextSendSeq
  {
    hide LinkOk, Ledger, Timed, TimedOut, AskDue, ProbeDue;
    LedgerInTime(l, clock);
    LedgerLane(l.out, k);
    TimedOutSends(l.out, l.timings.maxRto, now, k, clock);
  }

  /** No operation but a send uses up seqs. */
  lemma SeqsStay(l: Link, op: Op, k: Lane, clock: int)
    requires LinkOk(l, clock) && !op.Send? && k != Media
    ensures SendOf(Step(l, op).out, k).nextSendSeq <= SendOf(l.out, k).nextSendSeq
  {
    hide LinkOk, OnPacket, OnTimer, Peek, PeekAck;
    match op
    case JustPeek(lane, offered) => PeekSeqs(l, lane, offered, k);
    case Receive(p, now) => ReceiveSeqs(l, p, now, k, clock);
    case Timer(now) => TimerSeqs(l, now, k, clock);
    case SendAck => PeekAckOut(l);
    case JustPeekAck => PeekAckOut(l);
    case Pause(paused) =>
    case Watch(now) =>
    case Collect =>
  }

  // --- Every run ------------------------------------------------------------------------------------------

  ghost predicate Traced(x: End, peer: nat) {
    (forall k :: k != Media ==> SentAll(x, k)) && AllTo(x, peer) && SmallIn(x.link.inb)
  }

  lemma SendNet(x: End, lane: Lane, offered: Option<Message>, now: int)
    ensures var x', d := SendStep(x, lane, offered, now), Peek(x.link, lane, offered).datagram;
      && x'.net == (if d.Some? then x.net + {d.value} else x.net) && x'.link == Sent(x.link, lane, offered, now)
      && x'.link.pendingAcks == x.link.pendingAcks
  {
    hide PeekLane, CommitLane, OfferOf, DropDead, FragmentAt;
  }

  lemma SendTraced(x: End, lane: Lane, offered: Option<Message>, now: int, peer: nat, clock: int)
    requires Traced(x, peer) && LinkOk(x.link, clock) && Knows(x.link, peer)
    ensures var x' := SendStep(x, lane, offered, now);
      (forall k :: k != Media ==> SentAll(x', k)) && AllTo(x', peer)
  {
    hide LinkOk, SentAll, SmallIn, SendStep, Sent, Peek, To;
    var x' := SendStep(x, lane, offered, now);
    SendNet(x, lane, offered, now);
    PeekTo(x.link, lane, offered, peer);
    forall k | k != Media
      ensures SentAll(x', k)
    {
      assert SentAll(x, k);
      if k == lane && !x.link.failed && Peek(x.link, lane, offered).datagram.Some? {
        SendAdvances(x.link, lane, offered, now, clock);
        if SendOf(x'.link.out, k).nextSendSeq == SendOf(x.link.out, k).nextSendSeq {
          NetGrows(x, x', k);
        } else {
          OneMoreSent(x, x', k, Peek(x.link, lane, offered).datagram.value);
        }
      } else {
        SendOthers(x.link, lane, offered, now, k, clock);
        NetGrows(x, x', k);
      }
    }
  }

  /** The net and the pending packets after any operation but a send. */
  lemma OthersNet(x: End, op: Op, peer: nat)
    requires !op.Send? && AllTo(x, peer) && Knows(x.link, peer)
    ensures var x' := EndStep(x, Do(op)); x.net <= x'.net && AllTo(x', peer)
  {
    hide To, PeekAck, OnTimer, OnPacket, Peek;
    var l := x.link;
    assert PendingTo(l, peer);
    match op
    case SendAck => PeekAckTo(l, peer);
    case JustPeekAck => PeekAckTo(l, peer);
    case JustPeek(lane, offered) => SendNet(x, lane, offered, 0); PeekPending(x, lane, offered);
    case Receive(p, now) => PendingStay(l, op);
    case Timer(now) => PendingStay(l, op);
    case Pause(paused) =>
    case Watch(now) =>
    case Collect =>
  }

  lemma PeekPending(x: End, lane: Lane, offered: Option<Message>)
    ensures PeekStep(x, lane, offered).link.pendingAcks == x.link.pendingAcks && PeekStep(x, lane, offered).net == x.net
  {
    hide PeekLane, OfferOf, DropDead, FragmentAt;
  }

  lemma PendingStay(l: Link, op: Op)
    requires (op.Receive? || op.Timer?)
    ensures forall p :: p in Step(l, op).pendingAcks ==> p in l.pendingAcks
  {
    hide HandleAck, HandleData, HandleMedia, DueForData, TimedOut, DecodeAck;
  }

  lemma DoTraced(x: End, y: End, op: Op, clock: int)
    requires SystemOk(x, y, clock) && Allowed(x, y, Do(op)) && Traced(x, y.link.localId)
    ensures Traced(EndStep(x, Do(op)), y.link.localId)
  {
    var peer, x' := y.link.localId, x;
    assert Knows(x.link, peer);
    SystemLinks(x, y, clock);
    LinkSmall(x, y, op, clock);
    EndStepLink(x, op);
    hide SystemOk, LinkOk, SmallIn, Step, Allowed, AllTo, SentAll, Knows;
    x' := EndStep(x, Do(op));
    if op.Send? {
      SendTraced(x, op.lane, op.offered, op.now, peer, clock);
    } else {
      OthersNet(x, op, peer);
      hide EndStep;
      forall k | k != Media
        ensures SentAll(x', k)
      {
        assert SentAll(x, k);
        SeqsStay(x.link, op, k, clock);
        NetGrows(x, x', k);
      }
    }
  }

  lemma ReserveTraced(x: End, used: int, peer: nat)
    requires Traced(x, peer)
    ensures Traced(ReserveStep(x, used), peer)
  {
    hide SmallIn, To;
    var x' := ReserveStep(x, used);
    SameRecvsSmall(x.link.inb, x'.link.inb);
    forall k | k != Media
      ensures SentAll(x', k)
    {
      assert SentAll(x, k);
      NetGrows(x, x', k);
    }
  }

  /** Whatever an end does, it stays traced. */
  lemma StepTraced(x: End, y: End, op: NetOp, clock: int)
    requires SystemOk(x, y, clock) && Allowed(x, y, op) && Traced(x, y.link.localId)
    ensures Traced(EndStep(x, op), y.link.localId)
  {
    hide SystemOk, Traced, Allowed;
    SystemLinks(x, y, clock);
    match op
    case Do(o) => hide EndStep; DoTraced(x, y, o, clock);
    case OthersReserve(used) => ReserveTraced(x, used, y.link.localId);
  }

  ghost predicate BothTraced(a: End, b: End) { Traced(a, b.link.localId) && Traced(b, a.link.localId) }

  lemma {:induction false} RunTraced(a: End, b: End, turns: seq<Turn>, clock: int, a': End, b': End, clock': int)
    requires SystemOk(a, b, clock) && BothTraced(a, b) && Reaches(a, b, turns, clock, a', b', clock')
    ensures SystemOk(a', b', clock') && BothTraced(a', b')
    decreases |turns|
  {
    hide SystemOk, Traced, TurnAllowed, EndStep;
    if turns != [] {
      TurnTraced(a, b, turns[0], clock);
      var (a1, b1) := TurnStep(a, b, turns[0]);
      RunTraced(a1, b1, turns[1..], NetTime(turns[0].op, clock), a', b', clock');
    }
  }

  lemma TurnTraced(a: End, b: End, t: Turn, clock: int)
    requires SystemOk(a, b, clock) && BothTraced(a, b) && TurnAllowed(a, b, t, clock)
    ensures var (a', b') := TurnStep(a, b, t); SystemOk(a', b', NetTime(t.op, clock)) && BothTraced(a', b')
  {
    hide SystemOk, Traced, Allowed, EndStep;
    TurnOk(a, b, t, clock);
    if t.first {
      StepTraced(a, b, t.op, clock);
      NameStays(a, t.op);
    } else {
      SystemSymmetric(a, b, clock);
      StepTraced(b, a, t.op, clock);
      NameStays(b, t.op);
    }
  }

  lemma NameStays(x: End, op: NetOp)
    ensures EndStep(x, op).link.localId == x.link.localId
  {
    match op
    case Do(o) => EndStepLink(x, o); StepName(x.link, o); hide EndStep, Step;
    case OthersReserve(used) =>
  }

  lemma BlankTraced(x: End, peer: nat)
    requires Blank(x)
    ensures Traced(x, peer)
  {
  }
}
