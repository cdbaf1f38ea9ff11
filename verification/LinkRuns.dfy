/** Whole runs of one link: any operations in any order, with any packets, as long as time does not run backwards. */
module LinkRuns {
  import opened Transport
  import opened PacketFlags
  import opened PacketHeader
  import opened AckRanges
  import opened Fragments
  import opened MediaAssembler
  import opened LinkModel
  import opened LinkLedger
  import opened LinkLaws

  /** What can be asked of a link. A datagram is committed right after the peek that offered it, or not at all. */
  datatype Op =
    | Send(lane: Lane, offered: Option<Message>, now: int)
    | JustPeek(lane: Lane, offered: Option<Message>)
    | Receive(packet: Packet, now: int)
    | Timer(now: int)
    | SendAck
    | JustPeekAck
    | Pause(paused: bool)
    | Watch(now: int)
    | Collect

  function Sent(l: Link, lane: Lane, offered: Option<Message>, now: int): Link {
    var r := Peek(l, lane, offered);
    if r.datagram.Some? then Commit(r.link, lane, now) else r.link
  }

  function Step(l: Link, op: Op): Link {
    match op
    case Send(lane, offered, now) => Sent(l, lane, offered, now)
    case JustPeek(lane, offered) => Peek(l, lane, offered).link
    case Receive(p, now) => OnPacket(l, p, now)
    case Timer(now) => OnTimer(l, now)
    case SendAck => CommitAck(PeekAck(l))
    case JustPeekAck => PeekAck(l)
    case Pause(paused) => SetPaused(l, paused)
    case Watch(now) => Supervise(l, now)
    case Collect => TakeDelivered(l)
  }

  function TimeOf(op: Op, clock: int): int {
    match op
    case Send(_, _, now) => now
    case Receive(_, now) => now
    case Timer(now) => now
    case Watch(now) => now
    case _ => clock
  }

  /** What holds between any two operations. */
  ghost predicate LinkOk(l: Link, clock: int) {
    && Ledger(l.out) && Timed(l.out, clock)
    && l.out.fixedCwnd == l.timings.fixedCwnd && 0 < l.timings.minRto <= l.timings.maxRto
    && Media !in l.inb.recvs
  }

  lemma TimedLater(o: Outbound, clock: int, later: int)
    requires Timed(o, clock) && clock <= later
    ensures Timed(o, later)
  {
  }

  lemma OutKeeps(l: Link, l': Link, clock: int, now: int)
    requires LinkOk(l, clock) && clock <= now
    requires l'.out == l.out && l'.timings == l.timings && Media !in l'.inb.recvs
    ensures LinkOk(l', now)
  {
    TimedLater(l.out, clock, now);
  }

  lemma SentKeeps(l: Link, lane: Lane, offered: Option<Message>, now: int, clock: int)
    requires LinkOk(l, clock) && clock <= now
    ensures LinkOk(Sent(l, lane, offered, now), now)
  {
    hide Ledger, Timed;
    var r := Peek(l, lane, offered);
    if l.failed || lane == Media {
      OutKeeps(l, Sent(l, lane, offered, now), clock, now);
    } else {
      PeekLaneKeeps(l.out, lane, offered);
      SameFlightTimed(l.out, r.link.out, clock);
      hide PeekLane, DropDead, OfferOf, SameFlight;
      PeekFixed(l.out, lane, offered);
      if r.datagram.Some? {
        CommitLaneKeeps(r.link.out, lane, now, clock);
        CommitFixed(r.link.out, lane, now);
      } else {
        TimedLater(r.link.out, clock, now);
      }
    }
  }

  lemma PeekFixed(o: Outbound, lane: Lane, offered: Option<Message>)
    ensures PeekLane(o, lane, offered).fixedCwnd == o.fixedCwnd
  {
  }

  lemma CommitFixed(o: Outbound, lane: Lane, now: int)
    ensures CommitLane(o, lane, now).fixedCwnd == o.fixedCwnd
  {
    hide Waiting;
  }

  lemma PeekKeeps(l: Link, lane: Lane, offered: Option<Message>, clock: int)
    requires LinkOk(l, clock)
    ensures LinkOk(Peek(l, lane, offered).link, clock)
  {
    hide Ledger, Timed;
    if !l.failed && lane != Media {
      PeekLaneKeeps(l.out, lane, offered);
      SameFlightTimed(l.out, PeekLane(l.out, lane, offered), clock);
      PeekFixed(l.out, lane, offered);
    }
  }

  lemma HandleAckFixed(o: Outbound, lane: Lane, upTo: nat, paused: bool, ack: AckBody, now: int)
    ensures HandleAck(o, lane, upTo, paused, ack, now).fixedCwnd == o.fixedCwnd
  {
    FixedStays(o, lane, upTo, paused, ack, now);
    hide NotePause, AckedBy, WriteBack, SweepLog, UpdateProgressClock;
  }

  lemma ReceiveKeeps(l: Link, p: Packet, now: int, clock: int)
    requires LinkOk(l, clock) && clock <= now
    ensures LinkOk(OnPacket(l, p, now), now)
  {
    hide Ledger, Timed, HandleAck, HandleData, DueForData, DecodeAck, AcceptMedia;
    var l' := OnPacket(l, p, now);
    var lane := p.header.flags.lane;
    TimedLater(l.out, clock, now);
    if !l.failed && !Stale(l, p.header) {
      match p.header.flags.kind
      case Data =>
        if lane == Media {
        } else {
          HandleDataMedia(l.inb, lane, p);
        }
      case Ack =>
        if StreamExists(l, lane) && DecodeAck(p.body).Some? {
          NoMediaStream(l, clock);
          HandleAckKeeps(l.out, lane, p.header.sq, p.header.flags.paused, DecodeAck(p.body).value, now, now);
          HandleAckFixed(l.out, lane, p.header.sq, p.header.flags.paused, DecodeAck(p.body).value, now);
        }
      case Ping =>
      case Beacon =>
    }
  }

  lemma NoMediaStream(l: Link, clock: int)
    requires LinkOk(l, clock)
    ensures !StreamExists(l, Media)
  {
  }

  lemma HandleDataMedia(i: Inbound, lane: Lane, p: Packet)
    requires lane != Media
    ensures HandleData(i, lane, p).media == i.media
    ensures Media in HandleData(i, lane, p).recvs ==> Media in i.recvs
  {
  }

  lemma TimerKeeps(l: Link, now: int, clock: int)
    requires LinkOk(l, clock) && clock <= now
    ensures LinkOk(OnTimer(l, now), now)
  {
    TimedLater(l.out, clock, now);
    if l.failed {
    } else if Silent(l, now) {
      NewOutboundOk(l.timings, now);
    } else {
      hide Ledger, Timed;
      TimedOutKeeps(l.out, l.timings.maxRto, now, now);
      hide TimedOut, AllKept;
      TimedOutFixed(l.out, l.timings.maxRto, now);
    }
  }

  lemma TimedOutFixed(o: Outbound, maxRto: int, now: int)
    ensures TimedOut(o, maxRto, now).fixedCwnd == o.fixedCwnd
  {
    SweepFixed(o, ByTime(now, Timeout(o)));
    hide SweepLog, Timeout;
  }

  /** Building Acks concerns nothing but the receiving half and what is to be sent. */
  ghost predicate OnlyAnswers(l: Link, l': Link) {
    && l'.out == l.out && l'.timings == l.timings && l'.inb.media == l.inb.media && l'.inb.mediaReceived == l.inb.mediaReceived
    && (Media in l'.inb.recvs ==> Media in l.inb.recvs)
    && l'.failed == l.failed && l'.remoteId == l.remoteId && l'.localId == l.localId
    && l'.mediaCursor == l.mediaCursor && l'.nextMediaSeq == l.nextMediaSeq
  }

  lemma AnswerLaneOut(l: Link, lane: Lane)
    requires lane != Media
    ensures OnlyAnswers(l, AnswerLane(l, lane))
  {
    hide AckPacket, Retried, MayRetry;
  }

  lemma PeekAckOut(l: Link)
    ensures OnlyAnswers(l, PeekAck(l))
  {
    hide AnswerLane;
    var l1 := AnswerLane(l, Control);
    var l2 := AnswerLane(l1, Reliable);
    AnswerLaneOut(l, Control);
    AnswerLaneOut(l1, Reliable);
    AnswerLaneOut(l2, Bulk);
  }

  /** Every operation keeps the ledger and the order of the send times. */
  lemma StepKeeps(l: Link, op: Op, clock: int)
    requires LinkOk(l, clock) && clock <= TimeOf(op, clock)
    ensures LinkOk(Step(l, op), TimeOf(op, clock))
  {
    hide LinkOk;
    match op
    case Send(lane, offered, now) => SentKeeps(l, lane, offered, now, clock);
    case JustPeek(lane, offered) => PeekKeeps(l, lane, offered, clock);
    case Receive(p, now) => ReceiveKeeps(l, p, now, clock);
    case Timer(now) => TimerKeeps(l, now, clock);
    case SendAck => PeekAckOut(l); PassiveKeeps(l, CommitAck(PeekAck(l)), clock, clock);
    case JustPeekAck => PeekAckOut(l); PassiveKeeps(l, PeekAck(l), clock, clock);
    case Pause(paused) => PassiveKeeps(l, SetPaused(l, paused), clock, clock);
    case Watch(now) => PassiveKeeps(l, Supervise(l, now), clock, now);
    case Collect => PassiveKeeps(l, TakeDelivered(l), clock, clock);
  }

  lemma PassiveKeeps(l: Link, l': Link, clock: int, now: int)
    requires LinkOk(l, clock) && clock <= now
    requires l'.out == l.out && l'.timings == l.timings && l'.inb.media == l.inb.media
    requires Media in l'.inb.recvs ==> Media in l.inb.recvs
    ensures LinkOk(l', now)
  {
    OutKeeps(l, l', clock, now);
  }

  // --- Runs ------------------------------------------------------------------------------------------

  ghost predicate InTime(ops: seq<Op>, clock: int)
    decreases |ops|
  {
    ops == [] || (clock <= TimeOf(ops[0], clock) && InTime(ops[1..], TimeOf(ops[0], clock)))
  }

  ghost function EndOf(ops: seq<Op>, clock: int): int {
    if ops == [] then clock else EndOf(ops[1..], TimeOf(ops[0], clock))
  }

  function Run(l: Link, ops: seq<Op>): Link
    decreases |ops|
  {
    if ops == [] then l else Run(Step(l, ops[0]), ops[1..])
  }

  /** In every run: no packet is forgotten, counts are exact, the front of the log is live, windows keep to their bounds. */
  lemma {:induction false} RunKeeps(l: Link, ops: seq<Op>, clock: int)
    requires LinkOk(l, clock) && InTime(ops, clock)
    ensures LinkOk(Run(l, ops), EndOf(ops, clock))
    decreases |ops|
  {
    if ops != [] {
      StepKeeps(l, ops[0], clock);
      RunKeeps(Step(l, ops[0]), ops[1..], TimeOf(ops[0], clock));
    }
  }

  // --- Packets of other streams -------------------------------------------------------------------------

  /** A packet of another stream changes nothing. */
  lemma StaleIgnored(l: Link, p: Packet, now: int)
    requires Stale(l, p.header)
    ensures OnPacket(l, p, now) == l
  {
  }

  /** The run without the packets that belong to other streams by the time they arrive. */
  function OfThisStream(l: Link, ops: seq<Op>): seq<Op>
    decreases |ops|
  {
    if ops == [] then []
    else
      var rest := OfThisStream(Step(l, ops[0]), ops[1..]);
      if ops[0].Receive? && Stale(l, ops[0].packet.header) then rest else [ops[0]] + rest
  }

  /** Packets of other streams leave no trace: the link ends up as in the run without them. */
  lemma {:induction false} StaleInvisible(l: Link, ops: seq<Op>)
    ensures Run(l, OfThisStream(l, ops)) == Run(l, ops)
    decreases |ops|
  {
    hide Stale;
    if ops != [] {
      var op := ops[0];
      var rest := OfThisStream(Step(l, op), ops[1..]);
      StaleInvisible(Step(l, op), ops[1..]);
      if op.Receive? && Stale(l, op.packet.header) {
        StaleIgnored(l, op.packet, op.now);
      } else {
        hide Step;
        assert ([op] + rest)[1..] == rest;
      }
    }
  }

  // --- What an operation does to the congestion window ------------------------------------------------

  /** The operation declared packets lost. */
  ghost predicate Loses(l: Link, op: Op) { (op.Receive? || op.Timer?) && FindsLoss(l.out, Step(l, op).out) }

  /** Among them one under the window, sent after it was last reduced. */
  ghost predicate Shrinks(l: Link, op: Op) { Loses(l, op) && LossCounts(l.out, Step(l, op).out) }

  /** The packets an Ack counts towards the window: those it names that are younger than the last reduction. */
  ghost function CountedOf(l: Link, op: Op): nat {
    if !op.Receive? then 0
    else
      var h, ack, s := op.packet.header, DecodeAck(op.packet.body), SendOf(l.out, op.packet.header.flags.lane);
      if l.failed || Stale(l, h) || h.flags.kind != Ack || !StreamExists(l, h.flags.lane) || ack.None? || h.flags.lane == Control
      then 0
      else |SentAfter(s, NamedBy(s, h.sq, ack.value.ranges), l.out.recoveryStart)|
  }

  /** Each of n packets adds 1 / w to a window of w, up to 256. */
  ghost function Added(w: real, n: nat): real
    requires w > 0.0
  {
    if w + n as real / w < 256.0 then w + n as real / w else 256.0
  }

  ghost predicate Adapts(l: Link) { l.out.fixedCwnd == 0 && 8.0 <= l.out.cwnd <= 256.0 && Numbered(l.out) }

  lemma LinkAdapts(l: Link, clock: int)
    requires LinkOk(l, clock) && l.timings.fixedCwnd == 0
    ensures Adapts(l)
  {
  }

  /** Losses only reduce the window; without them, it grows by what was counted. */
  ghost predicate WindowStep(l: Link, op: Op)
    requires l.out.cwnd > 0.0
  {
    var o, o' := l.out, Step(l, op).out;
    if Loses(l, op) then WindowAfterLoss(o, o')
    else o'.cwnd == Added(o.cwnd, CountedOf(l, op)) && o'.recoveryStart == o.recoveryStart
  }

  /** The operation leaves the window and the packets alone. */
  lemma QuietWindow(l: Link, op: Op)
    requires Adapts(l) && CountedOf(l, op) == 0 && Step(l, op).out.cwnd == l.out.cwnd
    requires Step(l, op).out.recoveryStart == l.out.recoveryStart
    requires op.Receive? || op.Timer? ==> Step(l, op).out == l.out
    ensures WindowStep(l, op)
  {
    hide Step, CountedOf;
    NoLossAtAll(l.out);
  }

  lemma NoLossAtAll(o: Outbound)
    ensures !FindsLoss(o, o)
  {
  }

  lemma SentWindow(l: Link, lane: Lane, offered: Option<Message>, now: int)
    ensures var l' := Sent(l, lane, offered, now); l'.out.cwnd == l.out.cwnd && l'.out.recoveryStart == l.out.recoveryStart
    ensures var l' := Peek(l, lane, offered).link; l'.out.cwnd == l.out.cwnd && l'.out.recoveryStart == l.out.recoveryStart
  {
    hide OfferOf, DropDead, CommitLane;
    PeekWindow(l.out, lane, offered);
    CommitWindow(PeekLane(l.out, lane, offered), lane, now);
    hide PeekLane;
  }

  lemma PeekWindow(o: Outbound, lane: Lane, offered: Option<Message>)
    ensures PeekLane(o, lane, offered).cwnd == o.cwnd && PeekLane(o, lane, offered).recoveryStart == o.recoveryStart
  {
    hide LiveLost, HeldBack;
  }

  lemma CommitWindow(o: Outbound, lane: Lane, now: int)
    ensures CommitLane(o, lane, now).cwnd == o.cwnd && CommitLane(o, lane, now).recoveryStart == o.recoveryStart
  {
    hide Waiting, LiveLost;
  }

  lemma ReceiveWindow(l: Link, p: Packet, now: int, clock: int)
    requires LinkOk(l, clock) && Adapts(l)
    ensures WindowStep(l, Receive(p, now))
  {
    hide LinkOk, HandleAck, HandleData, HandleMedia, DueForData, DecodeAck, NamedBy, SentAfter, FindsLoss, LossCounts, Numbered,
         FlightAfterAck, TimesAfterAck, LargestAfterAck, StallAfter, PauseAfterAck, Ledger, Timed;
    var lane := p.header.flags.lane;
    if !l.failed && !Stale(l, p.header) && p.header.flags.kind == Ack && StreamExists(l, lane) && DecodeAck(p.body).Some? {
      NoMediaStream(l, clock);
      OutInTime(l, clock);
      ReceiveAckLaw(l, p, now, clock);
      if !FindsLoss(l.out, OnPacket(l, p, now).out) { NoneCounts(l.out, OnPacket(l, p, now).out); }
    } else {
      NoLossAtAll(l.out);
    }
  }

  lemma OutInTime(l: Link, clock: int)
    requires LinkOk(l, clock)
    ensures Ledger(l.out) && Timed(l.out, clock)
  {
  }

  lemma NoneCounts(o: Outbound, o': Outbound)
    requires !FindsLoss(o, o')
    ensures !LossCounts(o, o')
  {
  }

  lemma TimerWindow(l: Link, now: int, clock: int)
    requires LinkOk(l, clock) && Adapts(l) && !OnTimer(l, now).failed
    ensures WindowStep(l, Timer(now))
  {
    hide LinkOk, OnTimer, FindsLoss, LossCounts, FlightAfterTimer, ProbesAfterTimer, Numbered, Ledger, Timed, AskedAbout;
    OutInTime(l, clock);
    TimerLaw(l, now, clock);
    if !FindsLoss(l.out, OnTimer(l, now).out) { NoneCounts(l.out, OnTimer(l, now).out); }
  }

  lemma StepWindow(l: Link, op: Op, clock: int)
    requires LinkOk(l, clock) && Adapts(l) && !Step(l, op).failed
    ensures WindowStep(l, op)
  {
    match op
    case Receive(p, now) => hide LinkOk, Adapts, Step, WindowStep; ReceiveWindow(l, p, now, clock);
    case Timer(now) => assert !OnTimer(l, now).failed; hide LinkOk, Adapts, Step, WindowStep; TimerWindow(l, now, clock);
    case _ =>
      OtherWindow(l, op);
      hide LinkOk, Adapts, Step, WindowStep, CountedOf;
      QuietWindow(l, op);
  }

  lemma OtherWindow(l: Link, op: Op)
    requires !op.Receive? && !op.Timer?
    ensures CountedOf(l, op) == 0 && Step(l, op).out.cwnd == l.out.cwnd && Step(l, op).out.recoveryStart == l.out.recoveryStart
  {
    hide OnPacket, OnTimer, Sent, Peek, PeekAck;
    match op
    case Send(lane, offered, now) => SentWindow(l, lane, offered, now);
    case JustPeek(lane, offered) => SentWindow(l, lane, offered, 0);
    case SendAck => PeekAckOut(l);
    case JustPeekAck => PeekAckOut(l);
    case _ =>
  }

  /** A link that failed stays as it is, and one that fails has nothing in flight anymore. */
  lemma FailedStays(l: Link, op: Op)
    ensures l.failed ==> Step(l, op).failed
    ensures Step(l, op).failed ==> ReductionsOf(l, op) == []
  {
    hide PeekAck, CommitLane, HandleAck, HandleData, HandleMedia, DueForData, TimedOut, OfferOf, DropDead, PeekLane, DecodeAck;
    PeekAckOut(l);
    NoLossAtAll(l.out);
    if op.Timer? && !l.failed && Silent(l, op.now) {
      assert Step(l, op).out.sends == map[];
      assert forall k, q :: !Has(Step(l, op).out, k, q);
    }
    hide BecameLost;
  }

  lemma StepTimings(l: Link, op: Op)
    ensures Step(l, op).timings == l.timings
  {
    hide PeekAck, CommitLane, HandleAck, HandleData, HandleMedia, DueForData, TimedOut, OfferOf, DropDead;
    PeekAckOut(l);
  }

  // --- Reductions over a run --------------------------------------------------------------------------

  /** The window was reduced: for which transmission, after how many of them, from what to what. */
  datatype Reduction = Reduction(lost: nat, at: nat, before: real, after: real)

  /** An operation reduces the window once, however much it finds lost. */
  ghost function ReductionsOf(l: Link, op: Op): seq<Reduction> {
    if !Shrinks(l, op) then []
    else
      var o' := Step(l, op).out;
      var k, q :| BecameLost(l.out, o', k, q) && k != Control && Entry(l.out, k, q).transmission > l.out.recoveryStart;
      [Reduction(Entry(l.out, k, q).transmission, l.out.transmissions, l.out.cwnd, o'.cwnd)]
  }

  /** Each reduction is for a transmission that was sent after every reduction before it, and halves the window. */
  ghost predicate Separated(rs: seq<Reduction>, since: nat) {
    && (forall i :: 0 <= i < |rs| ==> since < rs[i].lost <= rs[i].at)
    && (forall i, j :: 0 <= i < j < |rs| ==> rs[i].at < rs[j].lost)
    && (forall i :: 0 <= i < |rs| ==> rs[i].after == if rs[i].before > 16.0 then rs[i].before / 2.0 else 8.0)
  }

  ghost function RecoveryAfter(rs: seq<Reduction>, since: nat): nat { if rs == [] then since else rs[|rs| - 1].at }

  lemma JoinedPair(a: seq<Reduction>, b: seq<Reduction>, since: nat, i: nat, j: nat)
    requires Separated(a, since) && Separated(b, RecoveryAfter(a, since)) && i < |a| <= j < |a| + |b|
    ensures a[i].at < b[j - |a|].lost
  {
    if i < |a| - 1 { assert a[i].at < a[|a| - 1].lost; }
  }

  lemma SeparatedJoin(a: seq<Reduction>, b: seq<Reduction>, since: nat)
    requires Separated(a, since) && Separated(b, RecoveryAfter(a, since))
    ensures Separated(a + b, since)
  {
    var all, n := a + b, |a|;
    forall i | 0 <= i < |all|
      ensures since < all[i].lost <= all[i].at
      ensures all[i].after == if all[i].before > 16.0 then all[i].before / 2.0 else 8.0
    {
      assert all[i] == if i < n then a[i] else b[i - n];
    }
    forall i, j | 0 <= i < j < |all|
      ensures all[i].at < all[j].lost
    {
      if i < n <= j { JoinedPair(a, b, since, i, j); }
    }
  }

  lemma StepReductions(l: Link, op: Op, clock: int)
    requires LinkOk(l, clock) && l.timings.fixedCwnd == 0
    ensures Separated(ReductionsOf(l, op), l.out.recoveryStart)
    ensures !Step(l, op).failed ==> Step(l, op).out.recoveryStart == RecoveryAfter(ReductionsOf(l, op), l.out.recoveryStart)
  {
    hide LinkOk, Step, CountedOf;
    LinkAdapts(l, clock);
    FailedStays(l, op);
    if !Step(l, op).failed { StepWindow(l, op, clock); }
  }

  ghost function RunReductions(l: Link, ops: seq<Op>): seq<Reduction>
    decreases |ops|
  {
    if ops == [] then [] else ReductionsOf(l, ops[0]) + RunReductions(Step(l, ops[0]), ops[1..])
  }

  lemma {:induction false} FailedRun(l: Link, ops: seq<Op>)
    requires l.failed
    ensures Run(l, ops).failed && RunReductions(l, ops) == []
    decreases |ops|
  {
    hide Step, ReductionsOf;
    if ops != [] {
      FailedStays(l, ops[0]);
      FailedRun(Step(l, ops[0]), ops[1..]);
    }
  }

  /** In every run, any two reductions of the window are separated by a lost transmission sent after the first of them. */
  lemma {:induction false} RunReductionsSeparated(l: Link, ops: seq<Op>, clock: int)
    requires LinkOk(l, clock) && InTime(ops, clock) && l.timings.fixedCwnd == 0
    ensures Separated(RunReductions(l, ops), l.out.recoveryStart)
    decreases |ops|
  {
    hide LinkOk, Step, ReductionsOf;
    if ops != [] {
      var l', rs := Step(l, ops[0]), ReductionsOf(l, ops[0]);
      StepKeeps(l, ops[0], clock);
      StepTimings(l, ops[0]);
      StepReductions(l, ops[0], clock);
      if l'.failed {
        FailedRun(l', ops[1..]);
      } else {
        RunReductionsSeparated(l', ops[1..], TimeOf(ops[0], clock));
      }
      SeparatedJoin(rs, RunReductions(l', ops[1..]), l.out.recoveryStart);
    }
  }

  // --- Growth over a run ------------------------------------------------------------------------------

  ghost function RunCounted(l: Link, ops: seq<Op>): nat
    decreases |ops|
  {
    if ops == [] then 0 else CountedOf(l, ops[0]) + RunCounted(Step(l, ops[0]), ops[1..])
  }

  ghost predicate LossFree(l: Link, ops: seq<Op>)
    decreases |ops|
  {
    ops == [] || (!Loses(l, ops[0]) && LossFree(Step(l, ops[0]), ops[1..]))
  }

  lemma MulMono(share: real, a: real, b: real)
    requires share >= 0.0 && a <= b
    ensures share * a <= share * b
  {
  }

  lemma SignProduct(a: real, b: real)
    requires a >= 0.0 && b <= 0.0
    ensures a * b <= 0.0
  {
  }

  lemma ShareOf(counted: real, w: real)
    requires w >= 1.0 && counted >= 0.0
    ensures counted / w * w == counted && 0.0 <= counted / w <= counted
  {
    var share := counted / w;
    assert share * w == counted;
    MulMono(share, 1.0, w);
  }

  /** How far the window got from where it started, in packets. */
  ghost function Gained(w: real, start: real): real { (w - start) * start }

  lemma GainedBy(w: real, share: real, start: real, counted: real)
    requires share * w == counted && w >= 1.0 && start >= 1.0 && 0.0 <= share <= start
    ensures Gained(w + share, start) <= (if w < start then 0.0 else Gained(w, start)) + counted
  {
    assert Gained(w + share, start) == Gained(w, start) + share * start;
    if w < start {
      SignProduct(start - w, share - start);
      assert (start - w) * (share - start) == start * share - start * start - w * share + w * start;
    } else {
      MulMono(share, start, w);
    }
  }

  lemma GainedMono(a: real, b: real, start: real)
    requires a <= b && start >= 0.0
    ensures Gained(a, start) <= Gained(b, start)
  {
    MulMono(start, a - start, b - start);
  }

  /** Wherever the window is, and however often it was reduced: it gains no more than what was counted. */
  lemma AddedGains(w: real, counted: nat, start: real, total: nat)
    requires 1.0 <= w && 1.0 <= start && Gained(w, start) <= total as real && (total + counted) as real <= start
    ensures Gained(Added(w, counted), start) <= (total + counted) as real
  {
    ShareOf(counted as real, w);
    var share := counted as real / w;
    GainedBy(w, share, start, counted as real);
    GainedMono(Added(w, counted), w + share, start);
  }

  lemma GainAtMostOne(w: real, start: real, total: real)
    requires start >= 1.0 && Gained(w, start) <= total <= start
    ensures w <= start + 1.0
  {
    if w > start + 1.0 {
      MulMono(start, 1.0, w - start);
      MulStrict(start, 1.0, w - start);
    }
  }

  lemma MulStrict(share: real, a: real, b: real)
    requires share > 0.0 && a < b
    ensures share * a < share * b
  {
  }

  lemma StepGains(l: Link, op: Op, start: real, total: nat)
    requires Adapts(l) && WindowStep(l, op)
    requires 1.0 <= start && Gained(l.out.cwnd, start) <= total as real && (total + CountedOf(l, op)) as real <= start
    ensures Gained(Step(l, op).out.cwnd, start) <= (total + CountedOf(l, op)) as real
  {
    hide Step, CountedOf, Loses, LossCounts;
    if Loses(l, op) {
      GainedMono(Step(l, op).out.cwnd, l.out.cwnd, start);
    } else {
      AddedGains(l.out.cwnd, CountedOf(l, op), start, total);
    }
  }

  /** A run keeps what it gained within what its Acks counted, whatever it lost in between. */
  lemma {:induction false} RunGains(l: Link, ops: seq<Op>, clock: int, start: real, total: nat)
    requires LinkOk(l, clock) && InTime(ops, clock) && l.timings.fixedCwnd == 0 && !Run(l, ops).failed && 1.0 <= start
    requires Gained(l.out.cwnd, start) <= total as real && (total + RunCounted(l, ops)) as real <= start
    ensures Gained(Run(l, ops).out.cwnd, start) <= (total + RunCounted(l, ops)) as real
    decreases |ops|
  {
    hide LinkOk, Step, CountedOf, Gained, Adapts, WindowStep;
    if ops != [] {
      var l', rest, later := Step(l, ops[0]), ops[1..], TimeOf(ops[0], clock);
      StepKeeps(l, ops[0], clock);
      LinkAdapts(l, clock);
      StepTimings(l, ops[0]);
      if l'.failed { FailedRun(l', rest); }
      AdaptsPositive(l);
      StepWindow(l, ops[0], clock);
      StepGains(l, ops[0], start, total);
      RunGains(l', rest, later, start, total + CountedOf(l, ops[0]));
    }
  }

  lemma AdaptsPositive(l: Link)
    requires Adapts(l)
    ensures 8.0 <= l.out.cwnd <= 256.0
  {
  }

  /** In every run whose Acks count at most a full window of packets, the window grows by one at most. */
  lemma GrowthPerWindow(l: Link, ops: seq<Op>, clock: int)
    requires LinkOk(l, clock) && InTime(ops, clock) && l.timings.fixedCwnd == 0 && !Run(l, ops).failed
    requires RunCounted(l, ops) as real <= l.out.cwnd
    ensures Run(l, ops).out.cwnd <= l.out.cwnd + 1.0
  {
    hide Run, RunCounted, LinkOk;
    LinkAdapts(l, clock);
    RunGains(l, ops, clock, l.out.cwnd, 0);
    GainAtMostOne(Run(l, ops).out.cwnd, l.out.cwnd, RunCounted(l, ops) as real);
  }

  lemma GainedAbove(w: real, share: real, start: real, counted: real)
    requires share * w == counted && 0.0 <= share && start <= w
    ensures Gained(w + share, start) <= Gained(w, start) + counted
  {
    MulMono(share, start, w);
    assert Gained(w + share, start) == Gained(w, start) + share * start;
  }

  lemma AddedAbove(w: real, counted: nat, start: real, total: nat)
    requires 1.0 <= start <= w && Gained(w, start) <= total as real
    ensures Gained(Added(w, counted), start) <= (total + counted) as real
  {
    hide Gained;
    ShareOf(counted as real, w);
    var share := counted as real / w;
    GainedAbove(w, share, start, counted as real);
    GainedMono(Added(w, counted), w + share, start);
  }

  /** The same in a run without a reduction, however much its Acks count. */
  lemma {:induction false} RunGrows(l: Link, ops: seq<Op>, clock: int, start: real, total: nat)
    requires LinkOk(l, clock) && InTime(ops, clock) && l.timings.fixedCwnd == 0 && !Run(l, ops).failed
    requires RunReductions(l, ops) == [] && 1.0 <= start <= l.out.cwnd && Gained(l.out.cwnd, start) <= total as real
    ensures Gained(Run(l, ops).out.cwnd, start) <= (total + RunCounted(l, ops)) as real
    decreases |ops|
  {
    hide LinkOk, Step, CountedOf, Loses, LossCounts, Added, Adapts, Gained;
    if ops != [] {
      var l', rest := Step(l, ops[0]), ops[1..];
      StepKeeps(l, ops[0], clock);
      LinkAdapts(l, clock);
      AdaptsPositive(l);
      StepTimings(l, ops[0]);
      if l'.failed { FailedRun(l', rest); }
      StepWindow(l, ops[0], clock);
      AddedSquare(l.out.cwnd, CountedOf(l, ops[0]));
      AddedAbove(l.out.cwnd, CountedOf(l, ops[0]), start, total);
      RunGrows(l', rest, TimeOf(ops[0], clock), start, total + CountedOf(l, ops[0]));
    }
  }

  lemma AddedSquare(w: real, n: nat)
    requires 8.0 <= w <= 256.0
    ensures w <= Added(w, n) <= 256.0
    ensures Added(w, n) == 256.0 || Added(w, n) * Added(w, n) >= w * w + 2.0 * n as real
  {
    var share := n as real / w;
    ShareOf(n as real, w);
    assert (w + share) * (w + share) == w * w + 2.0 * (share * w) + share * share;
    MulMono(share, 0.0, share);
  }

  /** A run without losses: the square of the window grows by two for every packet counted, until the window is at its widest. */
  lemma {:induction false} RunSquares(l: Link, ops: seq<Op>, clock: int)
    requires LinkOk(l, clock) && InTime(ops, clock) && l.timings.fixedCwnd == 0 && !Run(l, ops).failed && LossFree(l, ops)
    ensures var w, w' := l.out.cwnd, Run(l, ops).out.cwnd;
      w <= w' <= 256.0 && (w' == 256.0 || w' * w' >= w * w + 2.0 * RunCounted(l, ops) as real)
    decreases |ops|
  {
    hide LinkOk, Step, CountedOf, Loses, Added, Adapts, WindowAfterLoss;
    LinkAdapts(l, clock);
    AdaptsPositive(l);
    if ops != [] {
      var l', rest := Step(l, ops[0]), ops[1..];
      StepKeeps(l, ops[0], clock);
      StepTimings(l, ops[0]);
      if l'.failed { FailedRun(l', rest); }
      StepWindow(l, ops[0], clock);
      AddedSquare(l.out.cwnd, CountedOf(l, ops[0]));
      RunSquares(l', rest, TimeOf(ops[0], clock));
    }
  }

  lemma RootBound(w: real, w': real, n: real)
    requires 8.0 <= w <= w' && w' * w' >= w * w + 2.0 * n && n >= w
    ensures w' >= w + 1.0 - 1.0 / (2.0 * w)
  {
    var half := 1.0 / (2.0 * w);
    assert half * w == 0.5 && 0.0 < half <= 1.0;
    var rest, least := 1.0 - half, w + 1.0 - half;
    assert w * rest == w - 0.5;
    assert least * least == w * w + 2.0 * (w * rest) + rest * rest;
    MulMono(rest, rest, 1.0);
    assert least * least <= w * w + 2.0 * w;
    if w' < least {
      MulStrict(w', w', least);
      MulStrict(least, w', least);
      Commutes(w', least);
    }
  }

  lemma Commutes(a: real, b: real)
    ensures a * b == b * a
  {
  }

  /** In every run without losses whose Acks count a full window of packets: it grows by 1 - 1 / 2w at least, from w on. */
  lemma GrowsPerWindow(l: Link, ops: seq<Op>, clock: int)
    requires LinkOk(l, clock) && InTime(ops, clock) && l.timings.fixedCwnd == 0 && !Run(l, ops).failed && LossFree(l, ops)
    requires RunCounted(l, ops) as real >= l.out.cwnd
    ensures l.out.cwnd > 0.0
    ensures var w, w' := l.out.cwnd, Run(l, ops).out.cwnd; w' == 256.0 || w' >= w + 1.0 - 1.0 / (2.0 * w)
  {
    hide Run, RunCounted, LossFree, LinkOk;
    LinkAdapts(l, clock);
    RunSquares(l, ops, clock);
    if Run(l, ops).out.cwnd != 256.0 { RootBound(l.out.cwnd, Run(l, ops).out.cwnd, RunCounted(l, ops) as real); }
  }

  /** A run without a reduction does not shrink the window. */
  lemma {:induction false} RunNeverShrinks(l: Link, ops: seq<Op>, clock: int)
    requires LinkOk(l, clock) && InTime(ops, clock) && l.timings.fixedCwnd == 0 && !Run(l, ops).failed
    requires RunReductions(l, ops) == []
    ensures l.out.cwnd <= Run(l, ops).out.cwnd
    decreases |ops|
  {
    hide LinkOk, Step, CountedOf, Loses, LossCounts, Added, Adapts;
    if ops != [] {
      var l', rest := Step(l, ops[0]), ops[1..];
      StepKeeps(l, ops[0], clock);
      LinkAdapts(l, clock);
      AdaptsPositive(l);
      StepTimings(l, ops[0]);
      if l'.failed { FailedRun(l', rest); }
      StepWindow(l, ops[0], clock);
      AddedSquare(l.out.cwnd, CountedOf(l, ops[0]));
      RunNeverShrinks(l', rest, TimeOf(ops[0], clock));
    }
  }
}
