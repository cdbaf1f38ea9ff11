/** Two links never get stuck: from wherever they are, the network can let them finish what the sender began. */
module LinkProgress {
  import opened Transport
  import opened PacketFlags
  import opened PacketHeader
  import opened AckRanges
  import opened Fragments
  import opened MessageAssembler
  import opened LinkModel
  import opened LinkLedger
  import opened LinkLaws
  import opened LinkRuns
  import opened LinkPause
  import opened LinkDelivery
  import opened LinkSending
  import opened LinkNetwork
  import opened LinkTheorems
  import opened LinkReorder
  import opened AckOrder
  import opened LinkTraced

  // --- One lane of the receiver ------------------------------------------------------------------------

  /** There is room for any message. */
  predicate RoomIn(budget: Option<Budget>) { budget.None? || budget.value.FitsBytes(MAX_MESSAGE) }

  lemma RoomFits(budget: Option<Budget>, p: Packet)
    requires RoomIn(budget) && Small(p)
    ensures HasRoomFor(budget, p.header)
  {
  }

  /** A refusal leaves the refused packet where it is. */
  ghost predicate FlagOk(r: RecvSide) { r.budgetPaused ==> r.nextExpected in r.reorder }

  lemma {:induction false} DrainMoves(c: Intake, lane: Lane)
    requires !c.recv.budgetPaused
    ensures var c' := Drain(c, lane);
      && c'.recv.nextExpected >= c.recv.nextExpected && FlagOk(c'.recv)
      && (c.recv.nextExpected !in c.recv.reorder ==> c' == c)
    decreases |c.recv.reorder|
  {
    hide Accept, HasRoomFor;
    var q := c.recv.nextExpected;
    if q in c.recv.reorder {
      var (c1, ok) := AcceptInOrder(c, lane, c.recv.reorder[q]);
      if ok {
        assert (c1.recv.reorder - {q}).Keys == c.recv.reorder.Keys - {q};
        DrainMoves(c1.(recv := c1.recv.(reorder := c1.recv.reorder - {q}, nextExpected := q + 1)), lane);
      }
    }
  }

  lemma DrainTakes(c: Intake, lane: Lane)
    requires !c.recv.budgetPaused && c.recv.nextExpected in c.recv.reorder && RoomIn(c.budget) && SmallRecv(c.recv)
    ensures Drain(c, lane).recv.nextExpected > c.recv.nextExpected
  {
    hide Accept, HasRoomFor;
    var q := c.recv.nextExpected;
    RoomFits(c.budget, c.recv.reorder[q]);
    var c1 := Taken(c, lane, c.recv.reorder[q]);
    assert (c1.recv.reorder - {q}).Keys == c.recv.reorder.Keys - {q};
    DrainMoves(c1.(recv := c1.recv.(reorder := c1.recv.reorder - {q}, nextExpected := q + 1)), lane);
  }

  /** What was refused has its turn again, now that there is room. */
  lemma RetryMoves(c: Intake, lane: Lane)
    requires RoomIn(c.budget) && SmallRecv(c.recv) && GapOk(c.recv)
    ensures var c' := Retried(c, lane);
      && c'.recv.nextExpected >= c.recv.nextExpected && FlagOk(c'.recv)
      && (c.recv.nextExpected in c.recv.reorder ==> c'.recv.nextExpected > c.recv.nextExpected)
      && (c.recv.nextExpected !in c.recv.reorder ==> c' == c.(recv := c.recv.(budgetPaused := false)))
  {
    hide Drain;
    if c.recv.budgetPaused {
      assert MayRetry(c);
      var c0 := c.(recv := c.recv.(budgetPaused := false));
      DrainMoves(c0, lane);
      if c.recv.nextExpected in c.recv.reorder { DrainTakes(c0, lane); }
    }
  }

  lemma TakeMoves(c: Intake, lane: Lane, p: Packet)
    requires p.header.sq == c.recv.nextExpected && p.header.sq !in c.recv.reorder && !c.recv.budgetPaused
    requires RoomIn(c.budget) && Small(p)
    ensures var c' := TakeData(c, lane, p); c'.recv.nextExpected > c.recv.nextExpected && FlagOk(c'.recv)
  {
    hide Drain, Accept, HasRoomFor;
    RoomFits(c.budget, p);
    var c1 := Taken(c, lane, p);
    DrainMoves(c1.(recv := c1.recv.(nextExpected := p.header.sq + 1)), lane);
  }

  /** The next expected packet moves the lane on. */
  lemma NextMoves(i: Inbound, lane: Lane, p: Packet)
    requires p.header.sq == RecvOf(i, lane).nextExpected && Small(p) && RoomIn(i.budget)
    requires SmallRecv(RecvOf(i, lane)) && GapOk(RecvOf(i, lane))
    ensures var r, r' := RecvOf(i, lane), RecvOf(HandleData(i, lane, p), lane);
      r'.nextExpected > r.nextExpected && FlagOk(r') && lane in DueForData(i, lane, p)
  {
    hide Retried, TakeData, SmallRecv, Small, RoomIn, GapOk;
    var c := IntakeOf(i, lane);
    RetryMoves(c, lane);
    var c1 := Retried(c, lane);
    if c.recv.nextExpected in c.recv.reorder {
      KnownIgnored(c1, lane, p);
    } else {
      TakeMoves(c1, lane, p);
    }
  }

  lemma KnownIgnored(c: Intake, lane: Lane, p: Packet)
    requires p.header.sq < c.recv.nextExpected
    ensures TakeData(c, lane, p) == c
  {
  }

  /** A packet that was seen before clears what is left of a refusal, and is answered. */
  lemma KnownAnswered(i: Inbound, lane: Lane, p: Packet)
    requires p.header.sq < RecvOf(i, lane).nextExpected && RecvOf(i, lane).nextExpected !in RecvOf(i, lane).reorder
    requires RoomIn(i.budget) && SmallRecv(RecvOf(i, lane))
    ensures RecvOf(HandleData(i, lane, p), lane) == RecvOf(i, lane).(budgetPaused := false)
    ensures lane in DueForData(i, lane, p)
  {
    hide Retried, TakeData, SmallRecv, RoomIn;
    RetryMoves(IntakeOf(i, lane), lane);
    KnownIgnored(Retried(IntakeOf(i, lane), lane), lane, p);
  }

  // --- Room --------------------------------------------------------------------------------------------

  /** Enough for a message on every lane, and one more. */
  predicate Roomy(i: Inbound) { i.budget.None? || i.budget.value.limit >= 4 * MAX_MESSAGE }

  lemma StreamReserves(i: Inbound, log: seq<LaneMessage>, D: seq<Message>, lane: Lane)
    requires LaneInStep(i, log, D, lane) && AllTakeable(D)
    ensures Reserved(RecvOf(i, lane).assembler) <= MAX_MESSAGE
  {
    hide Buffered, GapOk, ForLane, Frags;
  }

  lemma OwnBound(a: End, b: End, clock: int)
    requires SystemOk(a, b, clock) && !b.link.failed
    ensures Own(b.link.inb) <= 3 * MAX_MESSAGE
  {
    hide Own, LaneInStep;
    LaneBound(a, b, clock, Control);
    LaneBound(a, b, clock, Reliable);
    LaneBound(a, b, clock, Bulk);
    OwnIs(b.link.inb);
  }

  lemma OwnIs(i: Inbound)
    ensures Own(i) == Reserved(RecvOf(i, Control).assembler) + Reserved(RecvOf(i, Reliable).assembler)
                      + Reserved(RecvOf(i, Bulk).assembler)
  {
  }

  lemma LaneBound(a: End, b: End, clock: int, lane: Lane)
    requires SystemOk(a, b, clock) && !b.link.failed && lane != Media
    ensures Reserved(RecvOf(b.link.inb, lane).assembler) <= MAX_MESSAGE
  {
    AgreedPair(a, b, clock, lane);
    DrawnSendable(a, b, clock, lane);
    hide SystemOk, SendsOk, DataOk, AcksOk, NothingLost, LaneInStep, AllSendable, Drawn;
    SendableTakeable(Drawn(a, lane), lane);
    StreamReserves(b.link.inb, b.log, Drawn(a, lane), lane);
  }

  lemma DrawnSendable(a: End, b: End, clock: int, lane: Lane)
    requires SystemOk(a, b, clock)
    ensures AllSendable(Drawn(a, lane), lane)
  {
    hide LinkOk, Agreed, AllSendable, OnWireOk, BudgetOk;
  }

  // --- Turns -------------------------------------------------------------------------------------------

  lemma {:induction false} ReachesThen(a: End, b: End, first: seq<Turn>, clock: int, a1: End, b1: End, next: seq<Turn>, a2: End,
                                       b2: End)
    requires Reaches(a, b, first, clock, a1, b1, clock) && Reaches(a1, b1, next, clock, a2, b2, clock) && AllAt(first, clock)
    ensures Reaches(a, b, first + next, clock, a2, b2, clock)
    decreases |first|
  {
    hide TurnAllowed, TurnStep;
    if first == [] {
      assert [] + next == next;
    } else {
      var (a0, b0) := TurnStep(a, b, first[0]);
      assert (first + next)[1..] == first[1..] + next && (first + next)[0] == first[0];
      ReachesThen(a0, b0, first[1..], clock, a1, b1, next, a2, b2);
    }
  }

  /** All turns are taken at the same time. */
  ghost predicate AllAt(turns: seq<Turn>, clock: int) { forall i :: 0 <= i < |turns| ==> NetTime(turns[i].op, clock) == clock }

  /** The seqs that are left suffice for what the sender began. */
  ghost predicate Spacious(a: End, b: End) {
    && (forall k :: k != Media ==> |Frags(Drawn(a, k))| + 600 < U64)
    && (forall k :: SendOf(b.link.out, k).nextSendSeq < U64) && b.link.nextMediaSeq < U64
    && (forall k :: RecvOf(a.link.inb, k).nextExpected + 2 * Window(k) < U64) && a.link.nextMediaSeq < U64
  }

  ghost predicate Healthy(a: End, b: End, clock: int) {
    SystemOk(a, b, clock) && BothTraced(a, b) && !a.link.failed && !b.link.failed && Roomy(b.link.inb) && Spacious(a, b)
  }

  lemma NextBound(a: End, b: End, clock: int, lane: Lane)
    requires SystemOk(a, b, clock) && !a.link.failed && !b.link.failed && lane != Media
    ensures 1 <= RecvOf(b.link.inb, lane).nextExpected <= SendOf(a.link.out, lane).nextSendSeq <= |Frags(Drawn(a, lane))| + 1
    ensures GapOk(RecvOf(b.link.inb, lane)) && Under(RecvOf(b.link.inb, lane), SendOf(a.link.out, lane).nextSendSeq)
  {
    AgreedPair(a, b, clock, lane);
    hide SystemOk, DataOk, AcksOk, FlightOk, Held, Drawn;
    StepHasNext(b.link.inb, b.log, Drawn(a, lane), lane);
    hide InStep, Buffered, ForLane;
    CursorBound(SendOf(a.link.out, lane), Drawn(a, lane));
  }

  lemma CursorBound(s: SendSide, D: seq<Message>)
    requires CursorPos(s.cursor, s.nextSendSeq, D)
    ensures s.nextSendSeq <= |Frags(D)| + 1
  {
    if s.cursor.Some? {
      var n := |D| - 1;
      assert D[..n] + [D[n]] == D;
      FragsAppend(D[..n], D[n]);
    }
  }

  lemma NoMediaLanes(x: End, y: End, clock: int)
    requires SystemOk(x, y, clock)
    ensures SendOf(x.link.out, Media).nextSendSeq == 1 && RecvOf(x.link.inb, Media).nextExpected == 1
  {
    SystemLinks(x, y, clock);
    NoMediaStream(x.link, clock);
  }

  lemma HealthyNoWrap(a: End, b: End, clock: int)
    requires Healthy(a, b, clock)
    ensures NoWrap(a.link) && NoWrap(b.link)
  {
    hide SystemOk, BothTraced, Frags, Drawn;
    NoMediaLanes(a, b, clock);
    SystemSymmetric(a, b, clock);
    NoMediaLanes(b, a, clock);
    forall k
      ensures SendOf(a.link.out, k).nextSendSeq < U64 && RecvOf(b.link.inb, k).nextExpected + 2 * Window(k) < U64
    {
      if k != Media { NextBound(a, b, clock, k); }
    }
  }

  /** What an operation of the receiver leaves alone. */
  ghost predicate SameSending(b: End, b': End) {
    && b'.link.out == b.link.out && b'.link.nextMediaSeq == b.link.nextMediaSeq && b'.link.failed == b.link.failed
    && (b'.link.inb.budget.Some? <==> b.link.inb.budget.Some?)
    && (b.link.inb.budget.Some? ==> b'.link.inb.budget.value.limit == b.link.inb.budget.value.limit)
  }

  lemma TheirTurn(a: End, b: End, op: NetOp, clock: int)
    requires Healthy(a, b, clock) && Allowed(b, a, op) && NetTime(op, clock) == clock
    ensures Reaches(a, b, [Turn(false, op)], clock, a, EndStep(b, op), clock) && AllAt([Turn(false, op)], clock)
    ensures SameSending(b, EndStep(b, op)) ==> Healthy(a, EndStep(b, op), clock)
  {
    hide SystemOk, BothTraced, Allowed, EndStep, Spacious;
    var t := Turn(false, op);
    TurnTraced(a, b, t, clock);
    assert [t][1..] == [];
    assert Reaches(a, EndStep(b, op), [], clock, a, EndStep(b, op), clock);
    if SameSending(b, EndStep(b, op)) { SpaciousThere(a, b, EndStep(b, op)); }
  }

  lemma SpaciousThere(a: End, b: End, b': End)
    requires Spacious(a, b) && SameSending(b, b')
    ensures Spacious(a, b')
  {
    hide Frags, Drawn;
  }

  /** What an operation of the sender leaves alone. */
  ghost predicate SameReceiving(a: End, a': End) {
    && a'.link.inb == a.link.inb && a'.link.nextMediaSeq == a.link.nextMediaSeq && a'.link.failed == a.link.failed
    && a'.drawn == a.drawn
  }

  lemma OurTurn(a: End, b: End, op: NetOp, clock: int)
    requires Healthy(a, b, clock) && Allowed(a, b, op) && NetTime(op, clock) == clock
    ensures Reaches(a, b, [Turn(true, op)], clock, EndStep(a, op), b, clock) && AllAt([Turn(true, op)], clock)
    ensures SameReceiving(a, EndStep(a, op)) ==> Healthy(EndStep(a, op), b, clock)
  {
    hide SystemOk, BothTraced, Allowed, EndStep, Spacious;
    var t := Turn(true, op);
    TurnTraced(a, b, t, clock);
    assert [t][1..] == [];
    assert Reaches(EndStep(a, op), b, [], clock, EndStep(a, op), b, clock);
    if SameReceiving(a, EndStep(a, op)) { SpaciousHere(a, EndStep(a, op), b); }
  }

  lemma SpaciousHere(a: End, a': End, b: End)
    requires Spacious(a, b) && SameReceiving(a, a')
    ensures Spacious(a', b)
  {
    hide Frags;
    assert forall k :: Drawn(a', k) == Drawn(a, k);
    hide Drawn;
  }

  ghost predicate Leads(a: End, b: End, turns: seq<Turn>, clock: int, a': End, b': End) {
    Reaches(a, b, turns, clock, a', b', clock) && AllAt(turns, clock)
  }

  lemma LeadsThen(a: End, b: End, first: seq<Turn>, clock: int, a1: End, b1: End, next: seq<Turn>, a2: End, b2: End)
    requires Leads(a, b, first, clock, a1, b1) && Leads(a1, b1, next, clock, a2, b2)
    ensures Leads(a, b, first + next, clock, a2, b2)
  {
    hide Reaches, NetTime;
    ReachesThen(a, b, first, clock, a1, b1, next, a2, b2);
  }

  lemma LeadsNowhere(a: End, b: End, clock: int)
    ensures Leads(a, b, [], clock, a, b)
  {
  }

  // --- The receiver catches up ---------------------------------------------------------------------------

  /** b' is b but for what receiving on the lane changed. */
  ghost predicate OnlyLane(b: End, b': End, lane: Lane) {
    && (forall k :: k != lane ==> RecvOf(b'.link.inb, k) == RecvOf(b.link.inb, k))
    && b'.link.paused == b.link.paused && b'.link.pendingAcks == b.link.pendingAcks && b'.net == b.net
    && b'.link.out == b.link.out && b'.link.ackSerial == b.link.ackSerial
  }

  /** Other links give back what they reserved. */
  lemma MakeRoom(a: End, b: End, clock: int) returns (turns: seq<Turn>, b': End)
    requires Healthy(a, b, clock)
    ensures Leads(a, b, turns, clock, a, b') && Healthy(a, b', clock) && RoomIn(b'.link.inb.budget)
    ensures b'.link == b.link.(inb := b.link.inb.(budget := b'.link.inb.budget)) && b'.net == b.net && b'.log == b.log
  {
    hide SystemOk, BothTraced, Spacious, Reaches, NoWrap, Own;
    var op := OthersReserve(Own(b.link.inb));
    OwnBound(a, b, clock);
    HealthyNoWrap(a, b, clock);
    assert Allowed(b, a, op) by { ReserveAllowed(a, b, clock); }
    TheirTurn(a, b, op, clock);
    turns, b' := [Turn(false, op)], EndStep(b, op);
  }

  lemma ReserveAllowed(a: End, b: End, clock: int)
    requires SystemOk(a, b, clock)
    ensures b.link.inb.budget.Some? ==> Own(b.link.inb) <= b.link.inb.budget.value.limit
  {
    hide LinkOk, Agreed, AllSendable, OnWireOk, Own;
  }

  /** A packet of the net, as the receiver reads it. */
  ghost predicate Reads(w: Packet, p: Packet, lane: Lane, q: nat) {
    && p == Packet(w.header.Canonical(), w.body) && IsData(p, lane) && p.header.sq == q && Small(p)
  }

  lemma CanRead(a: End, b: End, clock: int, w: Packet)
    requires SystemOk(a, b, clock) && w in a.net && To(w, b.link.localId)
    ensures var p := Packet(w.header.Canonical(), w.body);
      && Arrives(a, p) && !Stale(b.link, p.header) && Small(p)
      && p.header.flags == w.header.flags && p.header.sq == w.header.sq
  {
    hide LinkOk, Agreed, AllSendable, BudgetOk, EncodePacket, DecodePacket;
    assert OnWireOk(w, a.link.localId);
    PacketRoundTrip(w);
  }

  lemma SentHasPacket(a: End, b: End, clock: int, lane: Lane, q: nat) returns (w: Packet, p: Packet)
    requires Healthy(a, b, clock) && lane != Media && 1 <= q < SendOf(a.link.out, lane).nextSendSeq
    ensures w in a.net && Reads(w, p, lane, q) && Arrives(a, p) && !Stale(b.link, p.header)
  {
    hide SystemOk, Spacious, SmallIn, Arrives, Stale, Small;
    assert SentAll(a, lane);
    assert OnNet(a, lane, q);
    w :| w in a.net && IsData(w, lane) && w.header.sq == q;
    assert Emits(a, w);
    p := Packet(w.header.Canonical(), w.body);
    CanRead(a, b, clock, w);
  }

  lemma ReceiveData(b: End, p: Packet, lane: Lane, clock: int)
    requires !b.link.failed && !Stale(b.link, p.header) && IsData(p, lane) && lane != Media
    ensures var b' := EndStep(b, Do(Receive(p, clock)));
      && b'.link.inb == HandleData(b.link.inb, lane, p) && b'.link.ackDue == b.link.ackDue + DueForData(b.link.inb, lane, p)
      && b'.link.out == b.link.out && b'.link.nextMediaSeq == b.link.nextMediaSeq && b'.link.failed == b.link.failed
      && b'.link.paused == b.link.paused && b'.link.pendingAcks == b.link.pendingAcks && b'.net == b.net
      && b'.link.ackSerial == b.link.ackSerial
  {
    hide HandleData, DueForData, HandleAck, HandleMedia, DecodeAck, Stale;
  }

  lemma HandleDataOthers(i: Inbound, lane: Lane, p: Packet)
    ensures forall k :: k != lane ==> RecvOf(HandleData(i, lane, p), k) == RecvOf(i, k)
  {
    hide Retried, TakeData;
  }

  /** A packet of the lane that was sent before arrives. */
  lemma Deliver(a: End, b: End, clock: int, lane: Lane, q: nat) returns (turns: seq<Turn>, b': End, p: Packet)
    requires Healthy(a, b, clock) && lane != Media && 1 <= q < SendOf(a.link.out, lane).nextSendSeq
    ensures Leads(a, b, turns, clock, a, b') && Healthy(a, b', clock) && OnlyLane(b, b', lane)
    ensures p.header.sq == q && Small(p) && b'.link.inb == HandleData(b.link.inb, lane, p)
    ensures b'.link.ackDue == b.link.ackDue + DueForData(b.link.inb, lane, p)
  {
    hide SystemOk, BothTraced, Spacious, Reaches, NoWrap, Arrives, Stale, HandleData, DueForData, Small, EndStep;
    var w;
    w, p := SentHasPacket(a, b, clock, lane, q);
    HealthyNoWrap(a, b, clock);
    var op := Do(Receive(p, clock));
    assert Allowed(b, a, op);
    SystemLinks(a, b, clock);
    ReceiveData(b, p, lane, clock);
    BudgetAt(a, b, clock);
    HandleDataBudget(b.link.inb, lane, p);
    HandleDataOthers(b.link.inb, lane, p);
    TheirTurn(a, b, op, clock);
    turns, b' := [Turn(false, op)], EndStep(b, op);
  }

  lemma BudgetAt(a: End, b: End, clock: int)
    requires SystemOk(a, b, clock)
    ensures BudgetOk(b.link.inb)
  {
    hide LinkOk, Agreed, AllSendable, OnWireOk, BudgetOk;
  }

  lemma SmallAt(a: End, b: End, lane: Lane)
    requires BothTraced(a, b)
    ensures SmallRecv(RecvOf(b.link.inb, lane))
  {
    hide SmallRecv, AllTo, SentAll;
  }

  /** One packet further: room is made, and the next expected packet arrives. */
  lemma Advance(a: End, b: End, clock: int, lane: Lane) returns (turns: seq<Turn>, b': End)
    requires Healthy(a, b, clock)
    requires lane != Media && RecvOf(b.link.inb, lane).nextExpected < SendOf(a.link.out, lane).nextSendSeq
    ensures Leads(a, b, turns, clock, a, b') && Healthy(a, b', clock) && OnlyLane(b, b', lane)
    ensures RecvOf(b'.link.inb, lane).nextExpected > RecvOf(b.link.inb, lane).nextExpected
  {
    hide SystemOk, BothTraced, Spacious, Leads, HandleData, DueForData, Small, SmallRecv, GapOk, RoomIn, Under;
    NextBound(a, b, clock, lane);
    var q := RecvOf(b.link.inb, lane).nextExpected;
    var t1, b1 := MakeRoom(a, b, clock);
    NextBound(a, b1, clock, lane);
    SmallAt(a, b1, lane);
    var t2, p;
    t2, b', p := Deliver(a, b1, clock, lane, q);
    NextMoves(b1.link.inb, lane, p);
    LeadsThen(a, b, t1, clock, a, b1, t2, a, b');
    turns := t1 + t2;
  }

  /** Everything that was sent on the lane arrives, in order. */
  lemma {:induction false} CatchUp(a: End, b: End, clock: int, lane: Lane) returns (turns: seq<Turn>, b': End)
    requires Healthy(a, b, clock) && lane != Media
    ensures Leads(a, b, turns, clock, a, b') && Healthy(a, b', clock) && OnlyLane(b, b', lane)
    ensures RecvOf(b'.link.inb, lane).nextExpected == SendOf(a.link.out, lane).nextSendSeq
    decreases SendOf(a.link.out, lane).nextSendSeq - RecvOf(b.link.inb, lane).nextExpected
  {
    hide Healthy, Leads;
    assert RecvOf(b.link.inb, lane).nextExpected <= SendOf(a.link.out, lane).nextSendSeq by { HealthyBound(a, b, clock, lane); }
    if RecvOf(b.link.inb, lane).nextExpected == SendOf(a.link.out, lane).nextSendSeq {
      LeadsNowhere(a, b, clock);
      turns, b' := [], b;
    } else {
      var t1, b1 := Advance(a, b, clock, lane);
      HealthyBound(a, b1, clock, lane);
      var t2;
      t2, b' := CatchUp(a, b1, clock, lane);
      LeadsThen(a, b, t1, clock, a, b1, t2, a, b');
      turns := t1 + t2;
    }
  }

  lemma HealthyBound(a: End, b: End, clock: int, lane: Lane)
    requires Healthy(a, b, clock) && lane != Media
    ensures 1 <= RecvOf(b.link.inb, lane).nextExpected <= SendOf(a.link.out, lane).nextSendSeq
  {
    hide SystemOk, BothTraced, Spacious;
    NextBound(a, b, clock, lane);
  }

  // --- The receiver answers ----------------------------------------------------------------------------------

  /** No lane of the receiver goes back. */
  ghost predicate Onward(b: End, b': End) {
    && (forall k :: RecvOf(b'.link.inb, k).nextExpected >= RecvOf(b.link.inb, k).nextExpected)
    && b'.link.out == b.link.out && b.net <= b'.net
  }

  /** An Ack of the lane is due that holds nobody back. */
  ghost predicate Prompted(b: End, lane: Lane) {
    lane in b.link.ackDue && !b.link.paused && !RecvOf(b.link.inb, lane).budgetPaused
  }

  lemma PauseEnds(a: End, b: End, clock: int) returns (turns: seq<Turn>, b': End)
    requires Healthy(a, b, clock)
    ensures Leads(a, b, turns, clock, a, b') && Healthy(a, b', clock) && !b'.link.paused
    ensures b'.link.inb == b.link.inb && b.link.ackDue <= b'.link.ackDue && b'.link.out == b.link.out && b'.net == b.net
    ensures b'.link.ackSerial == b.link.ackSerial
  {
    hide SystemOk, BothTraced, Spacious, Reaches, NoWrap;
    HealthyNoWrap(a, b, clock);
    TheirTurn(a, b, Do(Pause(false)), clock);
    turns, b' := [Turn(false, Do(Pause(false)))], EndStep(b, Do(Pause(false)));
  }

  /** The last packet that was sent arrives once more. */
  lemma Prompt(a: End, b: End, clock: int, lane: Lane) returns (turns: seq<Turn>, b': End)
    requires Healthy(a, b, clock) && lane != Media && SendOf(a.link.out, lane).nextSendSeq > 1
    requires RecvOf(b.link.inb, lane).nextExpected == SendOf(a.link.out, lane).nextSendSeq
    ensures Leads(a, b, turns, clock, a, b') && Healthy(a, b', clock) && Onward(b, b') && Prompted(b', lane)
    ensures RecvOf(b'.link.inb, lane).nextExpected == SendOf(a.link.out, lane).nextSendSeq
    ensures b'.link.ackSerial == b.link.ackSerial
  {
    hide SystemOk, BothTraced, Spacious, Leads, HandleData, DueForData, Small, SmallRecv, GapOk, RoomIn;
    var n := SendOf(a.link.out, lane).nextSendSeq;
    var t1, b1 := MakeRoom(a, b, clock);
    NextBound(a, b1, clock, lane);
    SmallAt(a, b1, lane);
    var t2, b2, p := Deliver(a, b1, clock, lane, n - 1);
    KnownAnswered(b1.link.inb, lane, p);
    var t3;
    t3, b' := PauseEnds(a, b2, clock);
    LeadsThen(a, b, t1, clock, a, b1, t2, a, b2);
    LeadsThen(a, b, t1 + t2, clock, a, b2, t3, a, b');
    turns := t1 + t2 + t3;
  }

  lemma RetryOnward(i: Inbound, lane: Lane, k: Lane)
    ensures RecvOf(RetryRefused(i, lane), k).nextExpected >= RecvOf(i, k).nextExpected
    ensures k == lane && !RecvOf(i, k).budgetPaused ==> RecvOf(RetryRefused(i, lane), k) == RecvOf(i, k)
  {
    hide Drain;
    var c := IntakeOf(i, lane);
    if MayRetry(c) { DrainMoves(c.(recv := c.recv.(budgetPaused := false)), lane); }
  }

  lemma AnswerOnward(l: Link, lane: Lane, k: Lane)
    ensures var l' := AnswerLane(l, lane);
      && RecvOf(l'.inb, k).nextExpected >= RecvOf(l.inb, k).nextExpected
      && (!RecvOf(l.inb, k).budgetPaused ==> RecvOf(l'.inb, k) == RecvOf(l.inb, k))
  {
    hide AnswerLane, RetryRefused, RecvOf;
    AnswerIs(l, lane);
    RetryOnward(l.inb, lane, k);
    if k != lane { RetryOtherLane(l.inb, k, lane); }
  }

  /** Building Acks moves lanes on, but not one that has nothing refused. */
  lemma PeekAckOnward(l: Link, k: Lane)
    ensures var l' := PeekAck(l);
      && RecvOf(l'.inb, k).nextExpected >= RecvOf(l.inb, k).nextExpected
      && (!RecvOf(l.inb, k).budgetPaused ==> RecvOf(l'.inb, k) == RecvOf(l.inb, k))
  {
    hide AnswerLane, RecvOf;
    var l1 := AnswerLane(l, Control);
    var l2 := AnswerLane(l1, Reliable);
    AnswerOnward(l, Control, k);
    AnswerOnward(l1, Reliable, k);
    AnswerOnward(l2, Bulk, k);
  }

  ghost predicate SameLimit(i: Inbound, i': Inbound) {
    (i'.budget.Some? <==> i.budget.Some?) && (i.budget.Some? ==> i'.budget.value.limit == i.budget.value.limit)
  }

  lemma AnswerLimit(l: Link, lane: Lane)
    requires BudgetOk(l.inb) && lane != Media
    ensures BudgetOk(AnswerLane(l, lane).inb) && SameLimit(l.inb, AnswerLane(l, lane).inb)
  {
    hide AnswerLane, RetryRefused, BudgetOk, Own;
    AnswerIs(l, lane);
    RetryRefusedBudget(l.inb, lane);
  }

  lemma PeekAckLimit(l: Link)
    requires BudgetOk(l.inb)
    ensures SameLimit(l.inb, PeekAck(l).inb)
  {
    hide AnswerLane, BudgetOk;
    var l1 := AnswerLane(l, Control);
    AnswerLimit(l, Control);
    AnswerLimit(l1, Reliable);
    AnswerLimit(AnswerLane(l1, Reliable), Bulk);
  }

  lemma AckStepSame(a: End, b: End, clock: int)
    requires SystemOk(a, b, clock)
    ensures EndStep(b, Do(SendAck)) == AckStep(b) && SameSending(b, AckStep(b))
  {
    hide SystemOk, PeekAck, BudgetOk, LinkOk;
    SystemLinks(a, b, clock);
    BudgetAt(a, b, clock);
    PeekAckOut(b.link);
    PeekAckLimit(b.link);
  }

  lemma {:induction false} StepsOut(a: End, b: End, clock: int, n: nat) returns (turns: seq<Turn>)
    requires Healthy(a, b, clock)
    ensures Leads(a, b, turns, clock, a, AckSteps(b, n)) && Healthy(a, AckSteps(b, n), clock)
    decreases n
  {
    hide Healthy, Leads, AckStep;
    if n == 0 {
      LeadsNowhere(a, b, clock);
      turns := [];
    } else {
      var t1 := OneOut(a, b, clock);
      var t2 := StepsOut(a, AckStep(b), clock, n - 1);
      LeadsThen(a, b, t1, clock, a, AckStep(b), t2, a, AckSteps(AckStep(b), n - 1));
      turns := t1 + t2;
    }
  }

  lemma OneOut(a: End, b: End, clock: int) returns (turns: seq<Turn>)
    requires Healthy(a, b, clock)
    ensures Leads(a, b, turns, clock, a, AckStep(b)) && Healthy(a, AckStep(b), clock)
  {
    hide SystemOk, BothTraced, Spacious, Reaches, NoWrap, EndStep, AckStep;
    HealthyNoWrap(a, b, clock);
    AckStepSame(a, b, clock);
    TheirTurn(a, b, Do(SendAck), clock);
    turns := [Turn(false, Do(SendAck))];
  }

  /** What was built before goes out. */
  lemma Flush(a: End, b: End, clock: int) returns (turns: seq<Turn>, b': End)
    requires Healthy(a, b, clock)
    ensures Leads(a, b, turns, clock, a, b') && Healthy(a, b', clock)
    ensures b'.link == b.link.(pendingAcks := []) && b.net <= b'.net
  {
    hide Healthy, Leads, AckStep, AnswerLane;
    var n := |b.link.pendingAcks|;
    turns := StepsOut(a, b, clock, n);
    b' := AckSteps(b, n);
    if n > 0 { AnswersGoOut(b, b.link.pendingAcks, n); } else { assert b.link.pendingAcks == []; }
  }

  /** The Ack of a lane that is to be answered; it is one of the next three after that serial. */
  ghost predicate Frees(w: Packet, lane: Lane, n: nat, after: nat) {
    && IsAck(w, lane) && !w.header.flags.paused && w.header.sq == n - 1
    && (DecodeAck(w.body).Some? ==> Ahead(DecodeAck(w.body).value.serial, after))
  }

  predicate Ahead(serial: nat, after: nat) {
    serial == (after + 1) % U32 || serial == (after + 2) % U32 || serial == (after + 3) % U32
  }

  lemma AnswerCounts(l: Link, lane: Lane)
    ensures AnswerLane(l, lane).ackSerial == l.ackSerial || AnswerLane(l, lane).ackSerial == (l.ackSerial + 1) % U32
  {
    hide RetryRefused, AckPacket, PingPacket;
  }

  lemma SerialBefore(l: Link, lane: Lane)
    requires lane != Media
    ensures Ahead((BeforeAnswer(l, lane).ackSerial + 1) % U32, l.ackSerial)
  {
    hide AnswerLane;
    var l1 := AnswerLane(l, Control);
    AnswerCounts(l, Control);
    AnswerCounts(l1, Reliable);
    SerialSteps(l.ackSerial);
  }

  lemma SerialSteps(n: nat)
    ensures ((n + 1) % U32 + 1) % U32 == (n + 2) % U32 && (((n + 1) % U32 + 1) % U32 + 1) % U32 == (n + 3) % U32
  {
    NextSerial(n + 1);
    NextSerial(n + 2);
  }

  lemma MadeAck(l: Link, lane: Lane)
    ensures var w := MakeAck(l, lane).pendingAcks[|l.pendingAcks|];
      && IsAck(w, lane) && (DecodeAck(w.body).Some? ==> DecodeAck(w.body).value.serial == (l.ackSerial + 1) % U32)
  {
    hide RetryRefused, EncodeAck, DecodeAck, WaitingRanges;
    var l1 := l.(inb := RetryRefused(l.inb, lane), ackSerial := (l.ackSerial + 1) % U32);
    SerialOnWire(AckBody(l1.ackSerial, l1.inb.mediaReceived, WaitingRanges(RecvOf(l1.inb, lane), lane)), MAX_ACK_RANGES);
  }

  lemma AnswerFrees(l: Link, lane: Lane)
    requires !l.failed && l.pendingAcks == [] && lane != Media && lane in l.ackDue && !l.paused
    requires !RecvOf(l.inb, lane).budgetPaused && RecvOf(l.inb, lane).nextExpected >= 1
    ensures exists w :: w in PeekAck(l).pendingAcks && Frees(w, lane, RecvOf(l.inb, lane).nextExpected, l.ackSerial)
  {
    hide PeekAck, BeforeAnswer, RetryRefused, EncodeAck, WaitingRanges, RecvOf, DecodeAck, Ahead;
    AnswerIsBuilt(l, lane);
    BeforeAnswerKeeps(l, lane);
    var before := BeforeAnswer(l, lane);
    RetryOnward(before.inb, lane, lane);
    MadeAck(before, lane);
    SerialBefore(l, lane);
    var w := MakeAck(before, lane).pendingAcks[|before.pendingAcks|];
    assert Frees(w, lane, RecvOf(l.inb, lane).nextExpected, l.ackSerial);
  }

  /** All of what is due is built and goes out. */
  lemma GoOut(a: End, b: End, clock: int) returns (turns: seq<Turn>, b': End)
    requires Healthy(a, b, clock) && PeekAck(b.link).pendingAcks != []
    ensures Leads(a, b, turns, clock, a, b') && Healthy(a, b', clock)
    ensures b'.link == PeekAck(b.link).(pendingAcks := []) && b'.net == b.net + (set p | p in PeekAck(b.link).pendingAcks)
  {
    hide Healthy, Leads, PeekAck, AckStep;
    var waiting := PeekAck(b.link).pendingAcks;
    turns := StepsOut(a, b, clock, |waiting|);
    b' := AckSteps(b, |waiting|);
    AnswersGoOut(b, waiting, |waiting|);
    assert waiting[..|waiting|] == waiting && waiting[|waiting|..] == [];
  }

  lemma BuiltOnward(b: End, b': End, lane: Lane)
    requires b'.link == PeekAck(b.link).(pendingAcks := []) && b.net <= b'.net && !RecvOf(b.link.inb, lane).budgetPaused
    ensures Onward(b, b') && RecvOf(b'.link.inb, lane) == RecvOf(b.link.inb, lane)
  {
    hide PeekAck, RecvOf;
    PeekAckOut(b.link);
    forall k
      ensures RecvOf(b'.link.inb, k).nextExpected >= RecvOf(b.link.inb, k).nextExpected
    {
      PeekAckOnward(b.link, k);
    }
    PeekAckOnward(b.link, lane);
  }

  /** New Acks are built and go out. */
  lemma Answer(a: End, b: End, clock: int, lane: Lane) returns (turns: seq<Turn>, b': End, w: Packet)
    requires Healthy(a, b, clock) && lane != Media && Prompted(b, lane)
    ensures Leads(a, b, turns, clock, a, b') && Healthy(a, b', clock) && Onward(b, b')
    ensures RecvOf(b'.link.inb, lane) == RecvOf(b.link.inb, lane)
    ensures w in b'.net && Frees(w, lane, RecvOf(b.link.inb, lane).nextExpected, b.link.ackSerial)
  {
    hide Healthy, Leads, PeekAck, Frees;
    assert !b.link.failed by { HealthyRuns(a, b, clock); }
    HealthyBound(a, b, clock, lane);
    var t1, b1 := Flush(a, b, clock);
    AnswerFrees(b1.link, lane);
    w :| w in PeekAck(b1.link).pendingAcks && Frees(w, lane, RecvOf(b1.link.inb, lane).nextExpected, b1.link.ackSerial);
    var t2;
    t2, b' := GoOut(a, b1, clock);
    BuiltOnward(b1, b', lane);
    LeadsThen(a, b, t1, clock, a, b1, t2, a, b');
    turns := t1 + t2;
  }

  lemma HealthyRuns(a: End, b: End, clock: int)
    requires Healthy(a, b, clock)
    ensures !a.link.failed && !b.link.failed && SystemOk(a, b, clock)
  {
  }

  // --- The sender takes the answer -------------------------------------------------------------------------

  /** Everything that was sent on the lane is acknowledged. */
  ghost predicate Emptied(o: Outbound, lane: Lane) {
    SendOf(o, lane).inFlight == map[] && SendOf(o, lane).sendBase == SendOf(o, lane).nextSendSeq
  }

  lemma {:induction false} LowestOfNone(s: SendSide, base: nat)
    requires s.inFlight == map[] && base <= s.nextSendSeq
    ensures LowestUnacked(s, base) == s.nextSendSeq
    decreases s.nextSendSeq - base
  {
    if base < s.nextSendSeq { LowestOfNone(s, base + 1); }
  }

  /** An Ack up to the last seq leaves nothing in flight. */
  lemma AllReleased(s: SendSide, r: SendSide, lane: Lane, upTo: nat, ranges: seq<SeqRange>)
    requires WindowOk(s, lane) && upTo == s.nextSendSeq - 1
    requires forall q :: q in r.inFlight <==> q in s.inFlight && !Named(upTo, ranges, q)
    ensures r.inFlight == map[]
  {
    hide Covered;
    assert r.inFlight.Keys == {};
  }

  lemma ReleasedAll(o: Outbound, lane: Lane, upTo: nat, ranges: seq<SeqRange>)
    requires LaneOk(SendOf(o, lane), lane) && upTo == SendOf(o, lane).nextSendSeq - 1
    ensures var s, r := SendOf(o, lane), AckedBy(o, lane, upTo, ranges).send;
      r.inFlight == map[] && r == s.(inFlight := map[], onTheWire := r.onTheWire) && s.sendBase <= s.nextSendSeq
  {
    hide AckedBy, LostOk, CountOk, CursorOk, ProbeOk, LargestOk, AckedOk, Named;
    AckReleasesNamed(o, lane, upTo, ranges);
    AllReleased(SendOf(o, lane), AckedBy(o, lane, upTo, ranges).send, lane, upTo, ranges);
  }

  lemma WriteBackEmpties(o: Outbound, lane: Lane, upTo: nat, ranges: seq<SeqRange>, now: int)
    requires LaneOk(SendOf(o, lane), lane) && upTo == SendOf(o, lane).nextSendSeq - 1
    ensures var o' := WriteBack(o, lane, AckedBy(o, lane, upTo, ranges), now);
      && Emptied(o', lane) && SendOf(o', lane).nextSendSeq == SendOf(o, lane).nextSendSeq
      && SendOf(o', lane).cursor == SendOf(o, lane).cursor && SendOf(o', lane).peerPaused == SendOf(o, lane).peerPaused
      && forall k :: k != lane ==> SendOf(o', k) == SendOf(o, k)
  {
    hide AckedBy, LaneOk, LowestUnacked;
    ReleasedAll(o, lane, upTo, ranges);
    var r := AckedBy(o, lane, upTo, ranges).send;
    LowestOfNone(r, r.sendBase);
  }

  /** How a lane may change while another one, or its own Ack, is looked at. */
  ghost predicate Eases(s: SendSide, s': SendSide) {
    && s'.nextSendSeq == s.nextSendSeq && s'.cursor == s.cursor && (s'.peerPaused ==> s.peerPaused)
    && (s.inFlight == map[] && s.sendBase == s.nextSendSeq ==> s'.inFlight == map[] && s'.sendBase == s'.nextSendSeq)
  }

  lemma NotePauseEases(o: Outbound, lane: Lane, serial: nat, now: int, k: Lane)
    ensures var s, s' := SendOf(o, k), SendOf(NotePause(o, lane, serial, false, now), k);
      Eases(s, s') && SameContents(s, s')
  {
    hide NotePause;
    NotePauseSends(o, lane, serial, false, now, k);
    NotePauses(o, lane, serial, false, now, k);
  }

  lemma SweepEases(o: Outbound, mode: Sweep, k: Lane)
    ensures Eases(SendOf(o, k), SendOf(SweepLog(o, mode).0, k))
    ensures Emptied(o, k) ==> Emptied(SweepLog(o, mode).0, k)
  {
    hide SweepLog;
    SweepSends(o, mode);
    var s, s' := SendOf(o, k), SendOf(SweepLog(o, mode).0, k);
    assert SameSend(s, s');
    if s.inFlight == map[] { assert s'.inFlight.Keys == {}; }
  }

  lemma EasesThen(a: SendSide, b: SendSide, c: SendSide)
    requires Eases(a, b) && Eases(b, c)
    ensures Eases(a, c)
  {
  }

  /** An Ack of everything that was sent, and no pause. */
  lemma AckEmpties(o: Outbound, lane: Lane, upTo: nat, ack: AckBody, now: int, k: Lane)
    requires Ledger(o) && lane != Media && upTo == SendOf(o, lane).nextSendSeq - 1
    ensures var o' := HandleAck(o, lane, upTo, false, ack, now);
      && Emptied(o', lane) && Eases(SendOf(o, k), SendOf(o', k))
      && (AcceptsSerial(SendOf(o, lane), ack.serial) ==> !SendOf(o', lane).peerPaused)
  {
    hide Ledger, NotePause, AckedBy, WriteBack, SweepLog, UpdateProgressClock, Grown, LaneOk, Eases, Emptied, AcceptsSerial,
         WindowBounds;
    var o1 := NotePause(o, lane, ack.serial, false, now);
    NotedLane(o, lane, ack.serial, false, now);
    if AcceptsSerial(SendOf(o, lane), ack.serial) { Unpaused(o, lane, upTo, ack, now); }
    NotePauseEases(o, lane, ack.serial, now, lane);
    NotePauseEases(o, lane, ack.serial, now, k);
    WriteBackEmpties(o1, lane, upTo, ack.ranges, now);
    var a := AckedBy(o1, lane, upTo, ack.ranges);
    var o2 := WriteBack(o1, lane, a, now);
    assert Eases(SendOf(o1, k), SendOf(o2, k)) by { WrittenEases(o1, o2, lane, k); }
    SweepEases(o2, ByAcks, lane);
    SweepEases(o2, ByAcks, k);
    var o3 := SweepLog(o2, ByAcks).0;
    ClockSends(o3, now, a.acked > 0);
    EasesThen(SendOf(o, k), SendOf(o1, k), SendOf(o2, k));
    EasesThen(SendOf(o, k), SendOf(o2, k), SendOf(o3, k));
    SameSendsEmptied(o3, HandleAck(o, lane, upTo, false, ack, now), lane);
  }

  lemma Unpaused(o: Outbound, lane: Lane, upTo: nat, ack: AckBody, now: int)
    requires LaneOk(SendOf(NotePause(o, lane, ack.serial, false, now), lane), lane) && AcceptsSerial(SendOf(o, lane), ack.serial)
    ensures !SendOf(HandleAck(o, lane, upTo, false, ack, now), lane).peerPaused
  {
    hide LaneOk, NotePause, HandleAck, SendOf;
    AckPauses(o, lane, upTo, false, ack, now);
  }

  lemma SameSendsEmptied(o: Outbound, o': Outbound, lane: Lane)
    requires o'.sends == o.sends
    ensures Emptied(o', lane) == Emptied(o, lane)
  {
  }

  lemma WrittenEases(o: Outbound, o': Outbound, lane: Lane, k: Lane)
    requires Emptied(o', lane) && SendOf(o', lane).nextSendSeq == SendOf(o, lane).nextSendSeq
    requires SendOf(o', lane).cursor == SendOf(o, lane).cursor && SendOf(o', lane).peerPaused == SendOf(o, lane).peerPaused
    requires forall x :: x != lane ==> SendOf(o', x) == SendOf(o, x)
    ensures Eases(SendOf(o, k), SendOf(o', k))
  {
  }

  /** What taking an Ack leaves of the sender. */
  ghost predicate Eased(a: End, a': End) {
    && (forall k :: k != Media ==> Eases(SendOf(a.link.out, k), SendOf(a'.link.out, k)))
    && a'.drawn == a.drawn && a'.link.inb == a.link.inb
  }

  lemma ReceiveAckIs(l: Link, p: Packet, lane: Lane, clock: int)
    requires !l.failed && !Stale(l, p.header) && IsAck(p, lane) && DecodeAck(p.body).Some?
    requires lane in l.out.sends
    ensures var l' := OnPacket(l, p, clock);
      && l'.out == HandleAck(l.out, lane, p.header.sq, p.header.flags.paused, DecodeAck(p.body).value, clock)
      && l'.inb == l.inb && l'.nextMediaSeq == l.nextMediaSeq && l'.failed == l.failed
  {
    hide HandleAck, DecodeAck, Stale;
  }

  lemma CanReadAck(a: End, b: End, clock: int, w: Packet)
    requires Healthy(a, b, clock) && w in b.net && w.header.flags.kind == Ack
    ensures var p := Packet(w.header.Canonical(), w.body);
      && Arrives(b, p) && !Stale(a.link, p.header) && p.header.flags == w.header.flags && p.header.sq == w.header.sq
      && DecodeAck(p.body).Some?
  {
    hide LinkOk, Agreed, AllSendable, BudgetOk, Spacious, SmallIn, SentAll, WellFormed, Arrives, Stale, DecodeAck;
    assert OnWireOk(w, b.link.localId);
    assert Emits(b, w) && To(w, a.link.localId);
    SystemSymmetric(a, b, clock);
    hide SystemOk;
    CanRead(b, a, clock, w);
  }

  /** The Ack the lane last took its pause from is less than 2^31 Acks old, by a few. */
  ghost predicate Current(a: End, lane: Lane, serial: nat) {
    var last := SendOf(a.link.out, lane).ackSerial;
    last.None? || (serial - last.value) % U32 < HALF - 3
  }

  lemma AheadIsNewer(a: End, lane: Lane, serial: nat, after: nat)
    requires Current(a, lane, after) && Ahead(serial, after)
    ensures AcceptsSerial(SendOf(a.link.out, lane), serial)
  {
    var last := SendOf(a.link.out, lane).ackSerial;
    if last.Some? {
      LaterSerial(after, last.value, 1);
      LaterSerial(after, last.value, 2);
      LaterSerial(after, last.value, 3);
    }
  }

  lemma LaterSerial(n: nat, last: nat, i: nat)
    requires (n - last) % U32 + i < HALF && 1 <= i
    ensures SerialAfter((n + i) % U32, last)
  {
    var d := (n - last) % U32;
    var k, m := (n - last) / U32, (n + i) / U32;
    assert n - last == k * U32 + d && n + i == m * U32 + (n + i) % U32;
    assert (n + i) % U32 - last == (k - m) * U32 + (d + i);
    Remainder((n + i) % U32 - last, k - m, d + i);
  }

  lemma Remainder(x: int, k: int, r: int)
    requires x == k * U32 + r && 0 <= r < U32
    ensures x % U32 == r
  {
  }

  lemma TakeAnswer(a: End, b: End, clock: int, lane: Lane, w: Packet, after: nat) returns (turns: seq<Turn>, a': End)
    requires Healthy(a, b, clock) && lane != Media && w in b.net && SendOf(a.link.out, lane).nextSendSeq > 1
    requires Frees(w, lane, SendOf(a.link.out, lane).nextSendSeq, after)
    ensures Leads(a, b, turns, clock, a', b) && Healthy(a', b, clock) && Eased(a, a') && Emptied(a'.link.out, lane)
    ensures Current(a, lane, after) ==> !SendOf(a'.link.out, lane).peerPaused
  {
    hide SystemOk, BothTraced, Spacious, Reaches, NoWrap, Arrives, Stale, DecodeAck, OnPacket, HandleAck, Emptied, Eases,
         Ledger, Timed, LinkOk, Ahead, SerialAfter;
    var p := Packet(w.header.Canonical(), w.body);
    CanReadAck(a, b, clock, w);
    HealthyNoWrap(a, b, clock);
    SystemLinks(a, b, clock);
    LedgerInTime(a.link, clock);
    var op := Do(Receive(p, clock));
    ReceiveAckIs(a.link, p, lane, clock);
    OurTurn(a, b, op, clock);
    turns, a' := [Turn(true, op)], EndStep(a, op);
    AckEmpties(a.link.out, lane, p.header.sq, DecodeAck(p.body).value, clock, lane);
    if Current(a, lane, after) { AheadIsNewer(a, lane, DecodeAck(p.body).value.serial, after); }
    forall k | k != Media
      ensures Eases(SendOf(a.link.out, k), SendOf(a'.link.out, k))
    {
      AckEmpties(a.link.out, lane, p.header.sq, DecodeAck(p.body).value, clock, k);
    }
  }

  // --- A lane is done ------------------------------------------------------------------------------------------

  /** All that was sent on the lane arrived, in order, and was acknowledged. */
  ghost predicate Done(a: End, b: End, lane: Lane) {
    && Emptied(a.link.out, lane) && RecvOf(b.link.inb, lane).nextExpected == SendOf(a.link.out, lane).nextSendSeq
  }

  lemma DoneStays(a: End, b: End, a': End, b': End, clock: int, k: Lane)
    requires Done(a, b, k) && Healthy(a', b', clock) && Eased(a, a') && Onward(b, b') && k != Media
    ensures Done(a', b', k)
  {
    hide Healthy;
    HealthyBound(a', b', clock, k);
    assert Eases(SendOf(a.link.out, k), SendOf(a'.link.out, k));
  }

  lemma OnlyLaneOnward(b: End, b': End, lane: Lane)
    requires OnlyLane(b, b', lane) && RecvOf(b'.link.inb, lane).nextExpected >= RecvOf(b.link.inb, lane).nextExpected
    ensures Onward(b, b')
  {
    forall k
      ensures RecvOf(b'.link.inb, k).nextExpected >= RecvOf(b.link.inb, k).nextExpected
    {
    }
  }

  lemma OnwardThen(a: End, b: End, c: End)
    requires Onward(a, b) && Onward(b, c)
    ensures Onward(a, c)
  {
  }

  lemma NothingSent(a: End, b: End, clock: int, lane: Lane)
    requires Healthy(a, b, clock) && lane != Media && SendOf(a.link.out, lane).nextSendSeq <= 1
    ensures Done(a, b, lane)
  {
    hide Healthy, Timed, LinkOk, Ledger, LaneOk;
    HealthyBound(a, b, clock, lane);
    HealthyRuns(a, b, clock);
    SystemLinks(a, b, clock);
    LedgerInTime(a.link, clock);
    LedgerLane(a.link.out, lane);
    NoneInFlight(SendOf(a.link.out, lane), lane);
  }

  lemma NoneInFlight(s: SendSide, lane: Lane)
    requires LaneOk(s, lane) && s.nextSendSeq <= 1
    ensures s.inFlight == map[] && s.sendBase == s.nextSendSeq
  {
    hide LostOk, CountOk, CursorOk, ProbeOk;
    assert s.inFlight.Keys == {};
  }

  lemma EasedSelf(a: End)
    ensures Eased(a, a)
  {
  }

  /** The lane is finished with what was sent so far. Nothing is refused on it then. */
  lemma Finish(a: End, b: End, clock: int, lane: Lane) returns (turns: seq<Turn>, a': End, b': End)
    requires Healthy(a, b, clock) && lane != Media
    ensures Leads(a, b, turns, clock, a', b') && Healthy(a', b', clock) && Eased(a, a') && Onward(b, b') && Done(a', b', lane)
    ensures SendOf(a.link.out, lane).nextSendSeq > 1 ==> !RecvOf(b'.link.inb, lane).budgetPaused
    ensures SendOf(a.link.out, lane).nextSendSeq > 1 && Current(a, lane, b.link.ackSerial) ==>
      !SendOf(a'.link.out, lane).peerPaused
  {
    hide Healthy, Leads, Eased, Emptied, Frees, Current;
    if SendOf(a.link.out, lane).nextSendSeq <= 1 {
      NothingSent(a, b, clock, lane);
      LeadsNowhere(a, b, clock);
      EasedSelf(a);
      turns, a', b' := [], a, b;
    } else {
      var t1, b1 := CatchUp(a, b, clock, lane);
      HealthyBound(a, b, clock, lane);
      OnlyLaneOnward(b, b1, lane);
      var t2, b2 := Prompt(a, b1, clock, lane);
      var t3, w;
      t3, b', w := Answer(a, b2, clock, lane);
      var t4;
      t4, a' := TakeAnswer(a, b', clock, lane, w, b2.link.ackSerial);
      LeadsThen(a, b, t1, clock, a, b1, t2, a, b2);
      LeadsThen(a, b, t1 + t2, clock, a, b2, t3, a, b');
      LeadsThen(a, b, t1 + t2 + t3, clock, a, b', t4, a', b');
      turns := t1 + t2 + t3 + t4;
      OnwardThen(b, b1, b2);
      OnwardThen(b, b2, b');
      SameSeq(a, a', lane);
    }
  }

  lemma SameSeq(a: End, a': End, lane: Lane)
    requires Eased(a, a') && lane != Media
    ensures SendOf(a'.link.out, lane).nextSendSeq == SendOf(a.link.out, lane).nextSendSeq
    ensures SendOf(a'.link.out, lane).cursor == SendOf(a.link.out, lane).cursor
    ensures SendOf(a'.link.out, lane).peerPaused ==> SendOf(a.link.out, lane).peerPaused
    ensures Drawn(a', lane) == Drawn(a, lane)
  {
    assert Eases(SendOf(a.link.out, lane), SendOf(a'.link.out, lane));
  }

  // --- The sender goes on -----------------------------------------------------------------------------------

  ghost predicate AllDone(a: End, b: End) { Done(a, b, Control) && Done(a, b, Reliable) && Done(a, b, Bulk) }

  lemma EasedThen(a: End, b: End, c: End)
    requires Eased(a, b) && Eased(b, c)
    ensures Eased(a, c)
  {
    hide Eases;
    forall k | k != Media
      ensures Eases(SendOf(a.link.out, k), SendOf(c.link.out, k))
    {
      EasesThen(SendOf(a.link.out, k), SendOf(b.link.out, k), SendOf(c.link.out, k));
    }
  }

  /** All lanes are finished; the given one last. */
  lemma FinishAll(a: End, b: End, clock: int, lane: Lane) returns (turns: seq<Turn>, a': End, b': End)
    requires Healthy(a, b, clock) && lane != Media
    ensures Leads(a, b, turns, clock, a', b') && Healthy(a', b', clock) && Eased(a, a') && AllDone(a', b')
    ensures SendOf(a.link.out, lane).nextSendSeq > 1 ==> !RecvOf(b'.link.inb, lane).budgetPaused
  {
    hide Healthy, Leads, Eased, Onward, Done, SendOf;
    var x, y := if lane == Control then Reliable else Control, if lane == Bulk then Reliable else Bulk;
    var t1, a1, b1 := Finish(a, b, clock, x);
    var t2, a2, b2 := Finish(a1, b1, clock, y);
    DoneStays(a1, b1, a2, b2, clock, x);
    var t3;
    t3, a', b' := Finish(a2, b2, clock, lane);
    DoneStays(a2, b2, a', b', clock, x);
    DoneStays(a2, b2, a', b', clock, y);
    LeadsThen(a, b, t1, clock, a1, b1, t2, a2, b2);
    LeadsThen(a, b, t1 + t2, clock, a2, b2, t3, a', b');
    turns := t1 + t2 + t3;
    SameSeq(a, a1, lane);
    SameSeq(a1, a2, lane);
    EasedThen(a, a1, a2);
    EasedThen(a, a2, a');
  }

  lemma {:induction false} NoneLost(s: SendSide, lost: seq<nat>)
    requires s.inFlight == map[]
    ensures LiveLost(s, lost) == []
  {
    if lost != [] { NoneLost(s, lost[1..]); }
  }

  lemma NothingOnWire(o: Outbound, lane: Lane)
    requires Ledger(o) && lane != Media && SendOf(o, lane).inFlight == map[]
    ensures SendOf(o, lane).onTheWire == 0
  {
    LedgerLane(o, lane);
    hide Ledger, LostOk, WindowOk;
    assert UnmarkedSeqs(map[]) == {};
  }

  lemma WindowHasRoom(o: Outbound)
    requires Ledger(o)
    ensures o.cwnd.Floor >= 1
  {
  }

  /** With everything acknowledged, a lane that is not paused may send. */
  lemma NotHeldBack(o: Outbound, lane: Lane)
    requires Ledger(o) && lane != Media && !SendOf(o, lane).peerPaused
    requires Emptied(o, lane) && Emptied(o, Reliable) && Emptied(o, Bulk)
    ensures var o1 := DropDead(o, lane); !HeldBack(o1, lane) && SendOf(o1, lane).lost == []
  {
    hide Ledger, LiveLost;
    NoneLost(SendOf(o, lane), SendOf(o, lane).lost);
    NothingOnWire(o, Reliable);
    NothingOnWire(o, Bulk);
    WindowHasRoom(o);
    DropDeadSends(o, lane, Reliable);
    DropDeadSends(o, lane, Bulk);
    DropDeadSends(o, lane, lane);
    NewHasNoLost(o, lane);
  }

  lemma NewHasNoLost(o: Outbound, lane: Lane)
    ensures lane !in o.sends ==> SendOf(o, lane).lost == []
    ensures DropDead(o, lane).cwnd == o.cwnd
  {
  }

  /** The next fragment of the message that was begun goes out. */
  lemma FragmentGoesOut(l: Link, lane: Lane, clock: int)
    requires LinkOk(l, clock) && !l.failed && lane != Media && !SendOf(l.out, lane).peerPaused
    requires SendOf(l.out, lane).cursor.Some? && Emptied(l.out, lane) && Emptied(l.out, Reliable) && Emptied(l.out, Bulk)
    ensures var r, l' := Peek(l, lane, None), Sent(l, lane, None, clock);
      && r.datagram.Some? && !r.took
      && SendOf(l'.out, lane).nextSendSeq == SendOf(l.out, lane).nextSendSeq + 1
      && SendOf(l'.out, lane).cursor == Advanced(SendOf(l.out, lane).cursor.value)
      && forall k :: k != lane ==> SendOf(l'.out, k) == SendOf(l.out, k)
  {
    hide LinkOk, Ledger, Timed, LaneOk, CommitLane, HeldBack, FragmentAt, Emptied;
    LedgerInTime(l, clock);
    NotHeldBack(l.out, lane);
    PeekLaneKeeps(l.out, lane, None);
    var o := PeekLane(l.out, lane, None);
    DropDeadSends(l.out, lane, lane);
    forall k | k != lane
      ensures SendOf(o, k) == SendOf(l.out, k)
    {
      DropDeadOthers(l.out, lane, k);
    }
    LedgerLane(o, lane);
    CommitLaneSends(o, lane, clock);
    hide DropDead;
  }

  lemma DropDeadOthers(o: Outbound, lane: Lane, k: Lane)
    requires k != lane
    ensures SendOf(DropDead(o, lane), k) == SendOf(o, k)
  {
    hide LiveLost;
  }

  lemma SendOne(a: End, b: End, clock: int, lane: Lane) returns (turns: seq<Turn>, a': End)
    requires Healthy(a, b, clock) && lane != Media && AllDone(a, b)
    requires SendOf(a.link.out, lane).cursor.Some? && !SendOf(a.link.out, lane).peerPaused
    ensures Leads(a, b, turns, clock, a', b) && Healthy(a', b, clock) && a'.drawn == a.drawn
    ensures SendOf(a'.link.out, lane).nextSendSeq == SendOf(a.link.out, lane).nextSendSeq + 1
    ensures !SendOf(a'.link.out, lane).peerPaused
    ensures forall k :: k != lane ==> SendOf(a'.link.out, k) == SendOf(a.link.out, k)
  {
    hide SystemOk, BothTraced, Spacious, Reaches, NoWrap, Peek, Sent, Emptied, LinkOk, Roomy, EndStep;
    HealthyNoWrap(a, b, clock);
    SystemLinks(a, b, clock);
    var op := Do(Send(lane, None, clock));
    FragmentGoesOut(a.link, lane, clock);
    SentPause(a.link, lane, None, clock, lane);
    SendSame(a, lane, clock);
    OurTurn(a, b, op, clock);
    turns, a' := [Turn(true, op)], EndStep(a, op);
  }

  lemma SendSame(a: End, lane: Lane, clock: int)
    requires lane != Media && !Peek(a.link, lane, None).took
    ensures var a' := EndStep(a, Do(Send(lane, None, clock)));
      SameReceiving(a, a') && a'.link == Sent(a.link, lane, None, clock)
  {
    hide PeekLane, CommitLane, OfferOf, DropDead, FragmentAt;
  }

  lemma DoneElsewhere(a: End, a': End, b: End, lane: Lane, k: Lane)
    requires Done(a, b, k) && SendOf(a'.link.out, k) == SendOf(a.link.out, k)
    ensures Done(a', b, k)
  {
  }

  lemma MessagesHaveFragments(D: seq<Message>)
    ensures D != [] ==> |Frags(D)| > 0
  {
    if D != [] { assert |FragmentsFrom(D[|D| - 1])| > 0; }
  }

  /** One more fragment, and everything is done again. */
  lemma SendAndFinish(a: End, b: End, clock: int, lane: Lane) returns (turns: seq<Turn>, a': End, b': End)
    requires Healthy(a, b, clock) && lane != Media && AllDone(a, b)
    requires SendOf(a.link.out, lane).cursor.Some? && !SendOf(a.link.out, lane).peerPaused
    ensures Leads(a, b, turns, clock, a', b') && Healthy(a', b', clock) && AllDone(a', b') && Drawn(a', lane) == Drawn(a, lane)
    ensures SendOf(a'.link.out, lane).nextSendSeq == SendOf(a.link.out, lane).nextSendSeq + 1
    ensures !SendOf(a'.link.out, lane).peerPaused && !RecvOf(b'.link.inb, lane).budgetPaused
  {
    hide Healthy, Leads, Eased, Onward, Done;
    assert SendOf(a.link.out, lane).nextSendSeq >= 1 by { HealthyBound(a, b, clock, lane); }
    var t1, a1 := SendOne(a, b, clock, lane);
    assert Drawn(a1, lane) == Drawn(a, lane);
    var t2;
    t2, a', b' := Finish(a1, b, clock, lane);
    SameSeq(a1, a', lane);
    OthersDone(a, b, a1, a', b', clock, lane, Control);
    OthersDone(a, b, a1, a', b', clock, lane, Reliable);
    OthersDone(a, b, a1, a', b', clock, lane, Bulk);
    LeadsThen(a, b, t1, clock, a1, b, t2, a', b');
    turns := t1 + t2;
  }

  lemma OthersDone(a: End, b: End, a1: End, a': End, b': End, clock: int, lane: Lane, k: Lane)
    requires AllDone(a, b) && Done(a', b', lane) && Healthy(a', b', clock) && Eased(a1, a') && Onward(b, b') && k != Media
    requires k != lane ==> SendOf(a1.link.out, k) == SendOf(a.link.out, k)
    ensures Done(a', b', k)
  {
    hide Healthy, Eased, Onward, Done;
    if k != lane {
      DoneElsewhere(a, a1, b, lane, k);
      DoneStays(a1, b, a', b', clock, k);
    }
  }

  /** The rest of the message that was begun follows. */
  lemma {:induction false} Complete(a: End, b: End, clock: int, lane: Lane) returns (turns: seq<Turn>, a': End, b': End)
    requires Healthy(a, b, clock) && lane != Media && AllDone(a, b) && !SendOf(a.link.out, lane).peerPaused
    requires SendOf(a.link.out, lane).nextSendSeq > 1 ==> !RecvOf(b.link.inb, lane).budgetPaused
    ensures Leads(a, b, turns, clock, a', b') && Healthy(a', b', clock) && AllDone(a', b') && Drawn(a', lane) == Drawn(a, lane)
    ensures SendOf(a'.link.out, lane).cursor.None?
    ensures SendOf(a'.link.out, lane).nextSendSeq > 1 ==> !RecvOf(b'.link.inb, lane).budgetPaused
    decreases |Frags(Drawn(a, lane))| + 1 - SendOf(a.link.out, lane).nextSendSeq
  {
    hide Healthy, Leads, AllDone, Drawn, Frags;
    if SendOf(a.link.out, lane).cursor.None? {
      LeadsNowhere(a, b, clock);
      turns, a', b' := [], a, b;
    } else {
      var t1, a1, b1 := SendAndFinish(a, b, clock, lane);
      HealthyEnd(a1, b1, clock, lane);
      var t2;
      t2, a', b' := Complete(a1, b1, clock, lane);
      LeadsThen(a, b, t1, clock, a1, b1, t2, a', b');
      turns := t1 + t2;
    }
  }

  lemma HealthyEnd(a: End, b: End, clock: int, lane: Lane)
    requires Healthy(a, b, clock) && lane != Media
    ensures SendOf(a.link.out, lane).nextSendSeq <= |Frags(Drawn(a, lane))| + 1
  {
    hide SystemOk, BothTraced, Spacious, Frags, Drawn;
    NextBound(a, b, clock, lane);
  }

  lemma CompleteIsDelivered(a: End, b: End, clock: int, lane: Lane)
    requires Healthy(a, b, clock) && lane != Media && Done(a, b, lane) && SendOf(a.link.out, lane).cursor.None?
    requires SendOf(a.link.out, lane).nextSendSeq > 1 ==> !RecvOf(b.link.inb, lane).budgetPaused
    ensures Got(b, lane) == Drawn(a, lane)
  {
    hide SystemOk, BothTraced, Spacious, DataOk, StepsOk, AcksOk, NothingLost, FlightOk, Drawn, Got, Frags;
    AgreedPair(a, b, clock, lane);
    if SendOf(a.link.out, lane).nextSendSeq > 1 {
      EmptyMeansDelivered(a, b, lane);
    } else {
      MessagesHaveFragments(Drawn(a, lane));
      PairPromises(a, b, lane);
    }
  }

  // --- The promise -------------------------------------------------------------------------------------------

  /** The sender may go on, or a pause it was told can be lifted by an answer. */
  ghost predicate MayGoOn(a: End, b: End, lane: Lane) {
    || !SendOf(a.link.out, lane).peerPaused
    || (SendOf(a.link.out, lane).nextSendSeq > 1 && Current(a, lane, b.link.ackSerial))
  }

  lemma HealthyDelivers(a: End, b: End, clock: int, lane: Lane) returns (turns: seq<Turn>, a': End, b': End)
    requires Healthy(a, b, clock) && lane != Media && MayGoOn(a, b, lane)
    ensures Reaches(a, b, turns, clock, a', b', clock)
    ensures Got(b', lane) == Drawn(a', lane) == Drawn(a, lane) && !HasPending(a'.link, lane)
  {
    hide Healthy, Done, Eased, Drawn, Got, Reaches, Onward, Current;
    var t0, a0, b0 := Finish(a, b, clock, lane);
    SameSeq(a, a0, lane);
    var t1, a1, b1 := FinishAll(a0, b0, clock, lane);
    SameSeq(a0, a1, lane);
    var t2;
    t2, a', b' := Complete(a1, b1, clock, lane);
    LeadsThen(a, b, t0, clock, a0, b0, t1, a1, b1);
    LeadsThen(a, b, t0 + t1, clock, a1, b1, t2, a', b');
    turns := t0 + t1 + t2;
    CompleteIsDelivered(a', b', clock, lane);
    DoneHasNothing(a', b', lane);
  }

  lemma DoneHasNothing(a: End, b: End, lane: Lane)
    requires Done(a, b, lane) && SendOf(a.link.out, lane).cursor.None? && lane != Media
    ensures !HasPending(a.link, lane)
  {
  }

  /** Two links never get stuck. From every state they can reach with neither of them failed there are turns in which the
      network delivers what was sent, and all that was drawn on the lane is delivered and acknowledged, without a message more
      and without time passing. The memory of the receiver must be enough for a message on every lane and one more; its
      application may have to resume receiving; and a pause the sender was told must be one an answer can lift. */
  lemma NeverStuck(a: End, b: End, before: seq<Turn>, clock: int, a': End, b': End, clock': int, lane: Lane)
    returns (turns: seq<Turn>, a'': End, b'': End)
    requires Fresh(a, b) && Reaches(a, b, before, clock, a', b', clock') && lane != Media
    requires !a'.link.failed && !b'.link.failed && MayGoOn(a', b', lane) && Roomy(b'.link.inb) && Spacious(a', b')
    ensures Reaches(a', b', turns, clock', a'', b'', clock')
    ensures Got(b'', lane) == Drawn(a'', lane) == Drawn(a', lane) && !HasPending(a''.link, lane)
  {
    hide Reaches, SystemOk, Spacious, Drawn, Got, Traced, MayGoOn;
    FreshTraced(a, b, clock);
    RunTraced(a, b, before, clock, a', b', clock');
    turns, a'', b'' := HealthyDelivers(a', b', clock', lane);
  }

  lemma FreshTraced(a: End, b: End, clock: int)
    requires Fresh(a, b)
    ensures SystemOk(a, b, clock) && BothTraced(a, b)
  {
    hide SystemOk, Traced;
    FreshSystem(a, b, clock);
    FreshBlank(a, b);
    BlankTraced(a, b.link.localId);
    BlankTraced(b, a.link.localId);
  }

  lemma FreshBlank(a: End, b: End)
    requires Fresh(a, b)
    ensures Blank(a) && Blank(b)
  {
  }
}
