/** The receiving half against the messages that were sent: what it delivered is a prefix of them, whatever arrives when. */
module LinkDelivery {
  import opened Transport
  import opened PacketHeader
  import opened AckRanges
  import opened SequenceBuffer
  import opened Fragments
  import opened MessageAssembler
  import opened LinkModel

  /** The messages of one lane. */
  ghost function ForLane(ms: seq<LaneMessage>, lane: Lane): seq<Message> {
    if ms == [] then []
    else
      var before, last := ForLane(ms[..|ms| - 1], lane), ms[|ms| - 1];
      if last.lane == lane then before + [last.message] else before
  }

  lemma ForLaneAppend(ms: seq<LaneMessage>, m: LaneMessage, lane: Lane)
    ensures ForLane(ms + [m], lane) == if m.lane == lane then ForLane(ms, lane) + [m.message] else ForLane(ms, lane)
  {
    assert (ms + [m])[..|ms|] == ms;
  }

  // --- Where the receiver stands ----------------------------------------------------------------

  /** Complete messages L, then j fragments of the next one: all of D up to the seq before the next expected one. */
  ghost predicate InStep(r: RecvSide, L: seq<Message>, D: seq<Message>) {
    && L <= D
    && Start(D, |L|) < r.nextExpected
    && var j := r.nextExpected - 1 - Start(D, |L|);
    && (|L| < |D| ==> j < Count(D[|L|]) && r.assembler == Partial(D[|L|], j))
    && (|L| == |D| ==> j == 0 && r.assembler == IDLE)
  }

  /** What waits behind a gap was sent, and lies within the window. */
  ghost predicate Buffered(r: RecvSide, D: seq<Message>, lane: Lane) {
    forall q :: q in r.reorder ==>
      && 1 <= r.nextExpected <= q < r.nextExpected + Window(lane)
      && q <= |Frags(D)| && Carries(r.reorder[q], Frags(D)[q - 1], lane)
  }

  /** The next expected packet is in the buffer only while its message is refused. */
  ghost predicate GapOk(r: RecvSide) { r.nextExpected in r.reorder ==> r.budgetPaused }

  /** The receiver has the packet, delivered or not. */
  ghost predicate Held(r: RecvSide, q: nat) { q < r.nextExpected || q in r.reorder }

  ghost predicate HeldGrows(r: RecvSide, r': RecvSide) { forall q :: Held(r, q) ==> Held(r', q) }

  ghost predicate IntakeOk(c: Intake, log: seq<LaneMessage>, D: seq<Message>, lane: Lane) {
    InStep(c.recv, ForLane(log + c.delivered, lane), D) && Buffered(c.recv, D, lane)
  }

  ghost predicate AllTakeable(D: seq<Message>) { forall i :: 0 <= i < |D| ==> |D[i].body| <= MAX_MESSAGE }

  /** The other lanes see no difference. */
  ghost predicate SameElsewhere(c: Intake, c': Intake, log: seq<LaneMessage>, lane: Lane) {
    forall k :: k != lane ==> ForLane(log + c'.delivered, k) == ForLane(log + c.delivered, k)
  }

  // --- One packet in order ------------------------------------------------------------------------

  lemma NextIsFragment(r: RecvSide, L: seq<Message>, D: seq<Message>)
    requires InStep(r, L, D) && r.nextExpected <= |Frags(D)|
    ensures |L| < |D|
    ensures var j := r.nextExpected - 1 - Start(D, |L|); Frags(D)[r.nextExpected - 1] == FragmentOf(D[|L|], j)
  {
    assert D[..|D|] == D;
    if |L| < |D| {
      FragAt(D, |L|, r.nextExpected - 1 - Start(D, |L|));
    }
  }

  /** The receiver after a packet was taken. */
  ghost function Moved(c: Intake, lane: Lane, p: Packet): Intake {
    var c1 := Taken(c, lane, p);
    c1.(recv := c1.recv.(nextExpected := c.recv.nextExpected + 1))
  }

  /** In step, in the middle of the message m. */
  ghost predicate InMessage(r: RecvSide, L: seq<Message>, D: seq<Message>, m: Message, j: nat) {
    && |L| < |D| && L == D[..|L|] && D[|L|] == m
    && r.nextExpected - 1 == Start(D, |L|) + j && j < Count(m) && r.assembler == Partial(m, j)
  }

  lemma InMessageInStep(r: RecvSide, L: seq<Message>, D: seq<Message>, m: Message, j: nat)
    requires InMessage(r, L, D, m, j)
    ensures InStep(r, L, D)
  {
  }

  /** The message is complete: the next one, if there is one, starts from nothing. */
  lemma CompletedInStep(r: RecvSide, L: seq<Message>, D: seq<Message>, m: Message)
    requires |L| < |D| && L == D[..|L|] && D[|L|] == m
    requires r.nextExpected - 1 == Start(D, |L|) + Count(m) && r.assembler == IDLE
    ensures InStep(r, L + [m], D)
  {
    StartNext(D, |L|);
    assert L + [m] == D[..|L| + 1];
  }

  /** The next packet continues the message the receiver is in. */
  lemma Position(r: RecvSide, L: seq<Message>, D: seq<Message>) returns (m: Message, j: nat)
    requires InStep(r, L, D) && AllTakeable(D) && r.nextExpected <= |Frags(D)|
    ensures InMessage(r, L, D, m, j) && Frags(D)[r.nextExpected - 1] == FragmentOf(m, j) && |m.body| <= MAX_MESSAGE
  {
    NextIsFragment(r, L, D);
    m, j := D[|L|], r.nextExpected - 1 - Start(D, |L|);
  }

  lemma MovedOn(c: Intake, lane: Lane, p: Packet, m: Message, j: nat)
    requires j < Count(m) && |m.body| <= MAX_MESSAGE && c.recv.assembler == Partial(m, j)
    requires Carries(p, FragmentOf(m, j), lane) && HasRoomFor(c.budget, p.header)
    ensures var c' := Moved(c, lane, p);
            && c'.recv.nextExpected == c.recv.nextExpected + 1
            && (j + 1 < Count(m) ==> c'.recv.assembler == Partial(m, j + 1) && c'.delivered == c.delivered)
            && (j + 1 == Count(m) ==> c'.recv.assembler == IDLE && c'.delivered == c.delivered + [LaneMessage(lane, m)])
  {
    hide Accept, HasRoomFor, Carries, FragmentOf;
    AcceptFragment(m, j, c.budget, p, lane);
  }

  lemma MovedInStep(c: Intake, log: seq<LaneMessage>, D: seq<Message>, lane: Lane, p: Packet)
    requires InStep(c.recv, ForLane(log + c.delivered, lane), D) && AllTakeable(D)
    requires c.recv.nextExpected <= |Frags(D)| && c.recv.nextExpected >= 1
    requires Carries(p, Frags(D)[c.recv.nextExpected - 1], lane) && HasRoomFor(c.budget, p.header)
    ensures InStep(Moved(c, lane, p).recv, ForLane(log + Moved(c, lane, p).delivered, lane), D)
  {
    hide HasRoomFor, Carries, Frags, InStep, AllTakeable, ForLane, Moved, Partial, FragmentOf;
    var L, c' := ForLane(log + c.delivered, lane), Moved(c, lane, p);
    var m, j := Position(c.recv, L, D);
    MovedOn(c, lane, p, m, j);
    if j + 1 == Count(m) {
      assert log + (c.delivered + [LaneMessage(lane, m)]) == (log + c.delivered) + [LaneMessage(lane, m)];
      ForLaneAppend(log + c.delivered, LaneMessage(lane, m), lane);
      CompletedInStep(c'.recv, L, D, m);
    } else {
      InMessageInStep(c'.recv, L, D, m, j + 1);
    }
  }

  lemma MovedElsewhere(c: Intake, log: seq<LaneMessage>, lane: Lane, p: Packet, k: Lane)
    requires k != lane
    ensures ForLane(log + Moved(c, lane, p).delivered, k) == ForLane(log + c.delivered, k)
  {
    var r := Accept(c.recv.assembler, c.budget, p.header, p.body);
    if r.message.Some? {
      var m := LaneMessage(lane, r.message.value);
      assert log + (c.delivered + [m]) == (log + c.delivered) + [m];
      ForLaneAppend(log + c.delivered, m, k);
    }
  }

  // --- Draining -------------------------------------------------------------------------------------

  ghost function Drained(c: Intake, lane: Lane): Intake
    requires c.recv.nextExpected in c.recv.reorder
  {
    var q := c.recv.nextExpected;
    var m := Moved(c, lane, c.recv.reorder[q]);
    m.(recv := m.recv.(reorder := m.recv.reorder - {q}))
  }

  lemma DrainedBuffer(c: Intake, D: seq<Message>, lane: Lane)
    requires Buffered(c.recv, D, lane) && c.recv.nextExpected in c.recv.reorder
    ensures Buffered(Drained(c, lane).recv, D, lane) && HeldGrows(c.recv, Drained(c, lane).recv)
  {
    hide Accept, Carries, Frags;
  }

  lemma DrainedOk(c: Intake, log: seq<LaneMessage>, D: seq<Message>, lane: Lane)
    requires IntakeOk(c, log, D, lane) && AllTakeable(D) && c.recv.nextExpected in c.recv.reorder
    requires HasRoomFor(c.budget, c.recv.reorder[c.recv.nextExpected].header)
    ensures IntakeOk(Drained(c, lane), log, D, lane) && HeldGrows(c.recv, Drained(c, lane).recv)
  {
    var q := c.recv.nextExpected;
    hide Accept, Carries, Frags, ForLane, HasRoomFor, InStep, HeldGrows, AllTakeable;
    MovedInStep(c, log, D, lane, c.recv.reorder[q]);
    DrainedBuffer(c, D, lane);
    hide Buffered;
    InStepIgnoresBuffer(Moved(c, lane, c.recv.reorder[q]).recv, Drained(c, lane).recv, ForLane(log + Drained(c, lane).delivered, lane), D);
  }

  lemma InStepIgnoresBuffer(r: RecvSide, r': RecvSide, L: seq<Message>, D: seq<Message>)
    requires InStep(r, L, D) && r'.nextExpected == r.nextExpected && r'.assembler == r.assembler
    ensures InStep(r', L, D)
  {
  }

  /** What draining does to a receiver in step: it stays in step, loses nothing, and stops only at a gap or at a message
      there is no room for. */
  ghost predicate DrainResult(c: Intake, c': Intake, log: seq<LaneMessage>, D: seq<Message>, lane: Lane) {
    && IntakeOk(c', log, D, lane) && GapOk(c'.recv) && HeldGrows(c.recv, c'.recv) && SameElsewhere(c, c', log, lane)
  }

  lemma RefusedOk(c: Intake, log: seq<LaneMessage>, D: seq<Message>, lane: Lane, p: Packet)
    requires IntakeOk(c, log, D, lane)
    ensures IntakeOk(Refused(c, p), log, D, lane) && HeldGrows(c.recv, Refused(c, p).recv) && GapOk(Refused(c, p).recv)
  {
    hide Carries, Frags, ForLane;
  }

  lemma DrainUnfold(c: Intake, lane: Lane)
    requires c.recv.nextExpected in c.recv.reorder
    requires HasRoomFor(c.budget, c.recv.reorder[c.recv.nextExpected].header)
    ensures Drain(c, lane) == Drain(Drained(c, lane), lane)
    ensures |Drained(c, lane).recv.reorder| < |c.recv.reorder|
  {
    var q := c.recv.nextExpected;
    var rest := c.recv.reorder - {q};
    assert rest.Keys == c.recv.reorder.Keys - {q};
    assert |rest| == |rest.Keys| && |c.recv.reorder| == |c.recv.reorder.Keys|;
    hide Accept, HasRoomFor;
    assert Taken(c, lane, c.recv.reorder[q]).recv.reorder == c.recv.reorder;
  }

  lemma {:induction false} DrainOk(c: Intake, log: seq<LaneMessage>, D: seq<Message>, lane: Lane)
    requires IntakeOk(c, log, D, lane) && AllTakeable(D)
    ensures DrainResult(c, Drain(c, lane), log, D, lane)
    decreases |c.recv.reorder|
  {
    var q := c.recv.nextExpected;
    if q in c.recv.reorder {
      var p := c.recv.reorder[q];
      if !HasRoomFor(c.budget, p.header) {
        RefusedOk(c, log, D, lane, p);
        hide IntakeOk, HeldGrows, HasRoomFor;
      } else {
        DrainedOk(c, log, D, lane);
        DrainUnfold(c, lane);
        hide IntakeOk, HeldGrows, HasRoomFor, Drain, Drained, GapOk;
        var c1 := Drained(c, lane);
        DrainOk(c1, log, D, lane);
        HeldTrans(c.recv, c1.recv, Drain(c1, lane).recv);
        forall k | k != lane
          ensures ForLane(log + Drain(c, lane).delivered, k) == ForLane(log + c.delivered, k)
        {
          DrainedElsewhere(c, log, lane, k);
        }
      }
    }
  }

  lemma DrainedElsewhere(c: Intake, log: seq<LaneMessage>, lane: Lane, k: Lane)
    requires c.recv.nextExpected in c.recv.reorder && k != lane
    ensures ForLane(log + Drained(c, lane).delivered, k) == ForLane(log + c.delivered, k)
  {
    MovedElsewhere(c, log, lane, c.recv.reorder[c.recv.nextExpected], k);
  }

  lemma HeldTrans(a: RecvSide, b: RecvSide, c: RecvSide)
    requires HeldGrows(a, b) && HeldGrows(b, c)
    ensures HeldGrows(a, c)
  {
  }

  // --- Every Data packet ----------------------------------------------------------------------------

  lemma UnpausedOk(c: Intake, log: seq<LaneMessage>, D: seq<Message>, lane: Lane)
    requires IntakeOk(c, log, D, lane)
    ensures IntakeOk(c.(recv := c.recv.(budgetPaused := false)), log, D, lane)
  {
    hide Carries, Frags, ForLane, Partial;
  }

  /** A refused message that had its turn again, if there is room for it now. */
  lemma RetriedOk(c: Intake, log: seq<LaneMessage>, D: seq<Message>, lane: Lane)
    requires IntakeOk(c, log, D, lane) && GapOk(c.recv) && AllTakeable(D)
    ensures DrainResult(c, Retried(c, lane), log, D, lane)
  {
    if MayRetry(c) {
      UnpausedOk(c, log, D, lane);
      hide IntakeOk, AllTakeable, Drain, MayRetry;
      DrainOk(c.(recv := c.recv.(budgetPaused := false)), log, D, lane);
    }
  }

  lemma BufferInsert(c: Intake, D: seq<Message>, lane: Lane, p: Packet)
    requires Buffered(c.recv, D, lane) && c.recv.nextExpected >= 1
    requires c.recv.nextExpected <= p.header.sq < c.recv.nextExpected + Window(lane)
    requires p.header.sq <= |Frags(D)| && Carries(p, Frags(D)[p.header.sq - 1], lane)
    ensures var r' := c.recv.(reorder := RingInsert(c.recv.reorder, Window(lane), p.header.sq, p));
            && Buffered(r', D, lane) && HeldGrows(c.recv, r')
            && r'.reorder == c.recv.reorder[p.header.sq := p]
  {
    hide Carries, Frags;
    NoEviction(c.recv.reorder, Window(lane), c.recv.nextExpected, p.header.sq, p);
    hide RingInsert;
  }

  /** A packet behind a gap is kept, and evicts nothing. */
  lemma BufferedOk(c: Intake, log: seq<LaneMessage>, D: seq<Message>, lane: Lane, p: Packet)
    requires IntakeOk(c, log, D, lane) && GapOk(c.recv) && c.recv.nextExpected >= 1
    requires c.recv.nextExpected < p.header.sq < c.recv.nextExpected + Window(lane)
    requires p.header.sq <= |Frags(D)| && Carries(p, Frags(D)[p.header.sq - 1], lane)
    ensures var c' := c.(recv := c.recv.(reorder := RingInsert(c.recv.reorder, Window(lane), p.header.sq, p)));
            DrainResult(c, c', log, D, lane)
  {
    hide Carries, Frags, ForLane, Buffered, HeldGrows, RingInsert, InStep;
    BufferInsert(c, D, lane, p);
    var c' := c.(recv := c.recv.(reorder := RingInsert(c.recv.reorder, Window(lane), p.header.sq, p)));
    InStepIgnoresBuffer(c.recv, c'.recv, ForLane(log + c.delivered, lane), D);
  }

  lemma MovedBuffer(c: Intake, D: seq<Message>, lane: Lane, p: Packet)
    requires Buffered(c.recv, D, lane) && c.recv.nextExpected !in c.recv.reorder
    ensures Buffered(Moved(c, lane, p).recv, D, lane) && HeldGrows(c.recv, Moved(c, lane, p).recv)
  {
    hide Accept, Carries, Frags;
  }

  /** The packet that is next in order. */
  lemma InOrderOk(c: Intake, log: seq<LaneMessage>, D: seq<Message>, lane: Lane, p: Packet)
    requires IntakeOk(c, log, D, lane) && AllTakeable(D)
    requires c.recv.nextExpected >= 1 && c.recv.nextExpected !in c.recv.reorder && c.recv.nextExpected <= |Frags(D)|
    requires Carries(p, Frags(D)[c.recv.nextExpected - 1], lane) && HasRoomFor(c.budget, p.header)
    ensures DrainResult(c, Drain(Moved(c, lane, p), lane), log, D, lane)
  {
    hide Carries, Frags, ForLane, Buffered, HeldGrows, InStep, AllTakeable, HasRoomFor, Moved, Drain, GapOk;
    var c1 := Moved(c, lane, p);
    MovedInStep(c, log, D, lane, p);
    MovedBuffer(c, D, lane, p);
    DrainOk(c1, log, D, lane);
    HeldTrans(c.recv, c1.recv, Drain(c1, lane).recv);
    forall k | k != lane
      ensures ForLane(log + Drain(c1, lane).delivered, k) == ForLane(log + c.delivered, k)
    {
      MovedElsewhere(c, log, lane, p, k);
    }
  }

  lemma InOrderIs(c: Intake, lane: Lane, p: Packet)
    requires p.header.sq == c.recv.nextExpected && !OutOfWindow(c, lane, p.header.sq) && !Duplicate(c, p.header.sq)
    ensures TakeData(c, lane, p) == if HasRoomFor(c.budget, p.header) then Drain(Moved(c, lane, p), lane) else Refused(c, p)
  {
    hide Accept, HasRoomFor, Drain;
  }

  /** Any packet that carries what was sent under its seq, early, late or again: the receiver stays in step. */
  lemma TakeDataOk(c: Intake, log: seq<LaneMessage>, D: seq<Message>, lane: Lane, p: Packet)
    requires IntakeOk(c, log, D, lane) && GapOk(c.recv) && AllTakeable(D) && c.recv.nextExpected >= 1
    requires 1 <= p.header.sq <= |Frags(D)| && Carries(p, Frags(D)[p.header.sq - 1], lane)
    ensures DrainResult(c, TakeData(c, lane, p), log, D, lane)
  {
    hide IntakeOk, Carries, Frags, AllTakeable, HasRoomFor, Moved, Drain, RingInsert;
    var q := p.header.sq;
    if OutOfWindow(c, lane, q) || Duplicate(c, q) {
    } else if q != c.recv.nextExpected {
      BufferedOk(c, log, D, lane, p);
    } else {
      InOrderIs(c, lane, p);
      if HasRoomFor(c.budget, p.header) {
        InOrderOk(c, log, D, lane, p);
      } else {
        RefusedOk(c, log, D, lane, p);
      }
    }
  }

  lemma DrainResultTrans(a: Intake, b: Intake, c: Intake, log: seq<LaneMessage>, D: seq<Message>, lane: Lane)
    requires DrainResult(a, b, log, D, lane) && DrainResult(b, c, log, D, lane)
    ensures DrainResult(a, c, log, D, lane)
  {
    hide IntakeOk, GapOk, Held;
  }

  // --- The inbound half -------------------------------------------------------------------------------

  /** The lane is in step with what was sent on it. */
  ghost predicate LaneInStep(i: Inbound, log: seq<LaneMessage>, D: seq<Message>, lane: Lane) {
    IntakeOk(IntakeOf(i, lane), log, D, lane) && GapOk(RecvOf(i, lane))
  }

  lemma StepHasNext(i: Inbound, log: seq<LaneMessage>, D: seq<Message>, lane: Lane)
    requires LaneInStep(i, log, D, lane)
    ensures RecvOf(i, lane).nextExpected >= 1 && ForLane(log + i.delivered, lane) <= D
  {
  }

  /** The intake of the lane changed, and nothing else. */
  lemma WithIntakeLane(i: Inbound, log: seq<LaneMessage>, D: seq<Message>, lane: Lane, c: Intake)
    requires DrainResult(IntakeOf(i, lane), c, log, D, lane)
    ensures LaneInStep(WithIntake(i, lane, c), log, D, lane) && HeldGrows(RecvOf(i, lane), RecvOf(WithIntake(i, lane, c), lane))
  {
    hide IntakeOk, GapOk, HeldGrows;
    assert IntakeOf(WithIntake(i, lane, c), lane) == c;
  }

  lemma WithIntakeOther(i: Inbound, log: seq<LaneMessage>, D: seq<Message>, lane: Lane, c: Intake, k: Lane, D': seq<Message>)
    requires SameElsewhere(IntakeOf(i, lane), c, log, lane) && k != lane && LaneInStep(i, log, D', k)
    ensures LaneInStep(WithIntake(i, lane, c), log, D', k) && RecvOf(WithIntake(i, lane, c), k) == RecvOf(i, k)
  {
    hide InStep, Buffered;
  }

  /** A Data packet on the lane. */
  lemma HandleDataOk(i: Inbound, log: seq<LaneMessage>, D: seq<Message>, lane: Lane, p: Packet)
    requires LaneInStep(i, log, D, lane) && AllTakeable(D)
    requires 1 <= p.header.sq <= |Frags(D)| && Carries(p, Frags(D)[p.header.sq - 1], lane)
    ensures var c' := TakeData(Retried(IntakeOf(i, lane), lane), lane, p);
            && DrainResult(IntakeOf(i, lane), c', log, D, lane)
            && HandleData(i, lane, p) == WithIntake(i, lane, c')
  {
    StepHasNext(i, log, D, lane);
    hide Carries, Frags, AllTakeable, Retried, TakeData, DrainResult;
    var c := IntakeOf(i, lane);
    RetriedOk(c, log, D, lane);
    var c1 := Retried(c, lane);
    RetriedHasNext(c, lane);
    ResultParts(c, c1, log, D, lane);
    TakeDataOk(c1, log, D, lane, p);
    DrainResultTrans(c, c1, TakeData(c1, lane, p), log, D, lane);
  }

  lemma ResultParts(c: Intake, c': Intake, log: seq<LaneMessage>, D: seq<Message>, lane: Lane)
    requires DrainResult(c, c', log, D, lane)
    ensures IntakeOk(c', log, D, lane) && GapOk(c'.recv)
  {
  }

  lemma {:induction false} DrainHasNext(c: Intake, lane: Lane)
    ensures Drain(c, lane).recv.nextExpected >= c.recv.nextExpected
    decreases |c.recv.reorder|
  {
    var q := c.recv.nextExpected;
    if q in c.recv.reorder && HasRoomFor(c.budget, c.recv.reorder[q].header) {
      DrainUnfold(c, lane);
      hide Accept;
      DrainHasNext(Drained(c, lane), lane);
    }
  }

  lemma RetriedHasNext(c: Intake, lane: Lane)
    ensures Retried(c, lane).recv.nextExpected >= c.recv.nextExpected
  {
    DrainHasNext(c.(recv := c.recv.(budgetPaused := false)), lane);
  }

  lemma InStepGrows(r: RecvSide, L: seq<Message>, D: seq<Message>, m: Message)
    requires InStep(r, L, D)
    ensures InStep(r, L, D + [m])
  {
    var D' := D + [m];
    assert D'[..|L|] == D[..|L|];
    if |L| < |D| {
      assert D'[|L|] == D[|L|];
    } else {
      assert D[..|D|] == D;
    }
  }

  lemma BufferedGrows(r: RecvSide, D: seq<Message>, m: Message, lane: Lane)
    requires Buffered(r, D, lane)
    ensures Buffered(r, D + [m], lane)
  {
    FragsAppend(D, m);
    hide Carries, Frags;
  }

  /** More messages were drawn: the receiver is in step with them as well. */
  lemma LaneInStepGrows(i: Inbound, log: seq<LaneMessage>, D: seq<Message>, m: Message, lane: Lane)
    requires LaneInStep(i, log, D, lane)
    ensures LaneInStep(i, log, D + [m], lane)
  {
    hide InStep, Buffered, GapOk, ForLane;
    var c := IntakeOf(i, lane);
    InStepGrows(c.recv, ForLane(log + c.delivered, lane), D, m);
    BufferedGrows(c.recv, D, m, lane);
  }

  // --- Nothing is held that was not sent --------------------------------------------------------------

  /** Everything the receiver has is below the seq. */
  ghost predicate Under(r: RecvSide, n: nat) { r.nextExpected <= n && forall q :: q in r.reorder ==> q < n }

  lemma {:induction false} DrainUnder(c: Intake, lane: Lane, n: nat)
    requires Under(c.recv, n)
    ensures Under(Drain(c, lane).recv, n)
    decreases |c.recv.reorder|
  {
    var q := c.recv.nextExpected;
    if q in c.recv.reorder && HasRoomFor(c.budget, c.recv.reorder[q].header) {
      DrainUnfold(c, lane);
      hide Accept;
      DrainUnder(Drained(c, lane), lane, n);
    }
  }

  lemma TakeDataUnder(c: Intake, lane: Lane, p: Packet, n: nat)
    requires Under(c.recv, n) && p.header.sq < n
    ensures Under(TakeData(c, lane, p).recv, n)
  {
    hide Drain, Accept, HasRoomFor;
    if p.header.sq == c.recv.nextExpected && !OutOfWindow(c, lane, p.header.sq) && !Duplicate(c, p.header.sq) {
      InOrderIs(c, lane, p);
      DrainUnder(Moved(c, lane, p), lane, n);
    }
  }

  lemma HandleDataUnder(i: Inbound, lane: Lane, p: Packet, n: nat)
    requires Under(RecvOf(i, lane), n) && p.header.sq < n
    ensures Under(RecvOf(HandleData(i, lane, p), lane), n)
  {
    RetriedUnder(IntakeOf(i, lane), lane, n);
    hide Retried;
    TakeDataUnder(Retried(IntakeOf(i, lane), lane), lane, p, n);
    hide TakeData;
  }

  lemma RetriedUnder(c: Intake, lane: Lane, n: nat)
    requires Under(c.recv, n)
    ensures Under(Retried(c, lane).recv, n)
  {
    DrainUnder(c.(recv := c.recv.(budgetPaused := false)), lane, n);
  }

  // --- Acks ----------------------------------------------------------------------------------------------

  /** Whatever the Ack names, the receiver has. */
  ghost predicate AckTrue(p: Packet, r: RecvSide) {
    && DecodeAck(p.body).Some?
    && forall q :: Named(p.header.sq, DecodeAck(p.body).value.ranges, q) ==> Held(r, q)
  }

  /** An Ack stays true: what it named is never given up. */
  lemma AckStaysTrue(p: Packet, r: RecvSide, r': RecvSide)
    requires AckTrue(p, r) && HeldGrows(r, r')
    ensures AckTrue(p, r')
  {
    hide DecodeAck, Held, Named;
  }

  /** The ranges of an Ack name exactly what waits in the reorder buffer. */
  lemma WaitingRangesExact(r: RecvSide, D: seq<Message>, lane: Lane, q: nat)
    requires Buffered(r, D, lane)
    ensures Covered(WaitingRanges(r, lane), q) <==> q in r.reorder
  {
    hide Carries, Frags;
    RangesCover(Below(r.reorder.Keys, r.nextExpected + Window(lane)), q);
  }

  lemma WaitingRangesProper(r: RecvSide, D: seq<Message>, lane: Lane)
    requires Buffered(r, D, lane) && r.nextExpected + Window(lane) <= U64
    ensures AllProper(WaitingRanges(r, lane))
  {
    hide Carries, Frags, RangesOf;
    RangesProper(Below(r.reorder.Keys, r.nextExpected + Window(lane)));
  }

  /** The Ack a link builds names only what it has: everything in order, and as much of the rest as fits. */
  lemma AckPacketTrue(l: Link, lane: Lane, serial: nat, D: seq<Message>)
    requires Buffered(RecvOf(l.inb, lane), D, lane) && serial < U32 && l.inb.mediaReceived < U32
    requires 1 <= RecvOf(l.inb, lane).nextExpected && RecvOf(l.inb, lane).nextExpected + Window(lane) <= U64
    ensures AckTrue(AckPacket(l, lane, serial), RecvOf(l.inb, lane))
  {
    var r, p := RecvOf(l.inb, lane), AckPacket(l, lane, serial);
    var ranges := WaitingRanges(r, lane);
    WaitingRangesProper(r, D, lane);
    AckRoundTrip(AckBody(serial, l.inb.mediaReceived, ranges), MAX_ACK_RANGES);
    hide DecodeAck, EncodeAck, AllProper, WaitingRanges;
    var kept := DecodeAck(p.body).value.ranges;
    forall q | Named(p.header.sq, kept, q)
      ensures Held(r, q)
    {
      if Covered(kept, q) {
        var i :| 0 <= i < |kept| && kept[i].Holds(q);
        assert ranges[i].Holds(q);
        WaitingRangesExact(r, D, lane, q);
      }
    }
  }

  // --- The shared budget ----------------------------------------------------------------------------------

  /** The budget is what others hold plus what this stream reserved, within the limit. */
  ghost predicate Balanced(c: Intake, others: int, limit: nat) {
    c.budget.Some? ==>
      c.budget.value.limit == limit && c.budget.value.used == others + Reserved(c.recv.assembler) <= limit && others >= 0
  }

  lemma TakenBalanced(c: Intake, lane: Lane, p: Packet, others: int, limit: nat)
    requires Balanced(c, others, limit)
    ensures Balanced(Taken(c, lane, p), others, limit)
    ensures Taken(c, lane, p).budget.Some? <==> c.budget.Some?
  {
    if c.budget.Some? {
      AcceptAccounts(c.recv.assembler, c.budget.value, p.header, p.body);
    }
  }

  lemma {:induction false} DrainBalanced(c: Intake, lane: Lane, others: int, limit: nat)
    requires Balanced(c, others, limit)
    ensures Balanced(Drain(c, lane), others, limit) && (Drain(c, lane).budget.Some? <==> c.budget.Some?)
    decreases |c.recv.reorder|
  {
    var q := c.recv.nextExpected;
    if q in c.recv.reorder && HasRoomFor(c.budget, c.recv.reorder[q].header) {
      DrainUnfold(c, lane);
      TakenBalanced(c, lane, c.recv.reorder[q], others, limit);
      hide Accept;
      DrainBalanced(Drained(c, lane), lane, others, limit);
    }
  }

  lemma RetriedBalanced(c: Intake, lane: Lane, others: int, limit: nat)
    requires Balanced(c, others, limit)
    ensures Balanced(Retried(c, lane), others, limit) && (Retried(c, lane).budget.Some? <==> c.budget.Some?)
  {
    DrainBalanced(c.(recv := c.recv.(budgetPaused := false)), lane, others, limit);
  }

  lemma TakeDataBalanced(c: Intake, lane: Lane, p: Packet, others: int, limit: nat)
    requires Balanced(c, others, limit)
    ensures Balanced(TakeData(c, lane, p), others, limit) && (TakeData(c, lane, p).budget.Some? <==> c.budget.Some?)
  {
    if p.header.sq == c.recv.nextExpected && !OutOfWindow(c, lane, p.header.sq) && !Duplicate(c, p.header.sq) {
      InOrderIs(c, lane, p);
      TakenBalanced(c, lane, p, others, limit);
      hide Accept, HasRoomFor;
      DrainBalanced(Moved(c, lane, p), lane, others, limit);
    }
  }

  /** What the streams of one link hold of the assembly budget. */
  ghost function Own(i: Inbound): nat {
    Reserved(RecvOf(i, Control).assembler) + Reserved(RecvOf(i, Reliable).assembler) + Reserved(RecvOf(i, Bulk).assembler)
  }

  /** The shared budget holds what this link's streams reserved, and keeps to its limit. */
  ghost predicate BudgetOk(i: Inbound) {
    i.budget.Some? ==> Own(i) <= i.budget.value.used <= i.budget.value.limit
  }

  /** This link's share changed, and the budget with it: what others hold did not. */
  ghost predicate BudgetConserved(i: Inbound, i': Inbound) {
    && (i'.budget.Some? <==> i.budget.Some?)
    && (i.budget.Some? ==> i'.budget.value.limit == i.budget.value.limit
                           && i'.budget.value.used - Own(i') == i.budget.value.used - Own(i))
  }

  lemma WithIntakeBudget(i: Inbound, lane: Lane, c: Intake)
    requires BudgetOk(i) && lane != Media && (c.budget.Some? <==> i.budget.Some?)
    requires i.budget.Some? ==> Balanced(c, i.budget.value.used - Reserved(RecvOf(i, lane).assembler), i.budget.value.limit)
    ensures BudgetOk(WithIntake(i, lane, c)) && BudgetConserved(i, WithIntake(i, lane, c))
  {
    match lane
    case Control =>
    case Reliable =>
    case Bulk =>
  }

  lemma OthersOf(i: Inbound, lane: Lane)
    requires BudgetOk(i) && lane != Media && i.budget.Some?
    ensures Balanced(IntakeOf(i, lane), i.budget.value.used - Reserved(RecvOf(i, lane).assembler), i.budget.value.limit)
  {
    match lane
    case Control =>
    case Reliable =>
    case Bulk =>
  }

  lemma HandleDataBudget(i: Inbound, lane: Lane, p: Packet)
    requires BudgetOk(i) && lane != Media
    ensures BudgetOk(HandleData(i, lane, p)) && BudgetConserved(i, HandleData(i, lane, p))
  {
    var c := IntakeOf(i, lane);
    var others, limit := if i.budget.Some? then i.budget.value.used - Reserved(RecvOf(i, lane).assembler) else 0,
                         if i.budget.Some? then i.budget.value.limit else 0;
    if i.budget.Some? { OthersOf(i, lane); }
    RetriedBalanced(c, lane, others, limit);
    hide Retried;
    TakeDataBalanced(Retried(c, lane), lane, p, others, limit);
    hide TakeData, Reserved;
    WithIntakeBudget(i, lane, TakeData(Retried(c, lane), lane, p));
  }

  lemma RetryRefusedBudget(i: Inbound, lane: Lane)
    requires BudgetOk(i) && lane != Media
    ensures BudgetOk(RetryRefused(i, lane)) && BudgetConserved(i, RetryRefused(i, lane))
  {
    var c := IntakeOf(i, lane);
    var others, limit := if i.budget.Some? then i.budget.value.used - Reserved(RecvOf(i, lane).assembler) else 0,
                         if i.budget.Some? then i.budget.value.limit else 0;
    if i.budget.Some? { OthersOf(i, lane); }
    RetriedBalanced(c, lane, others, limit);
    hide Retried, MayRetry, Reserved;
    WithIntakeBudget(i, lane, Retried(c, lane));
  }

  lemma FreedBudgetIs(i: Inbound)
    requires BudgetOk(i)
    ensures var i' := NewInbound(FreedBudget(i)); BudgetOk(i') && BudgetConserved(i, i') && Own(i') == 0
  {
  }
}
