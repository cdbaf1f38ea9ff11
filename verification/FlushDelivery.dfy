/** A flush across all components: mailbox, link, network and the link at the other end. */
module FlushDelivery {
  import opened Transport
  import opened PacketHeader
  import opened AckRanges
  import opened Fragments
  import opened LinkModel
  import opened LinkLedger
  import opened LinkRuns
  import opened LinkPause
  import opened LinkDelivery
  import opened LinkSending
  import opened LinkNetwork
  import opened LinkTheorems
  import M = Mailbox

  // --- What was acknowledged is never in flight again -----------------------------------------------------

  /** The first n packets of the lane were sent, and none of them is in flight. */
  ghost predicate Gone(s: SendSide, n: nat) { n < s.nextSendSeq && forall q :: 1 <= q <= n ==> q !in s.inFlight }

  lemma GoneThinned(s: SendSide, s': SendSide, n: nat)
    requires Gone(s, n) && Thinned(s, s')
    ensures Gone(s', n)
  {
  }

  lemma GoneCommitted(s: SendSide, s': SendSide, n: nat)
    requires Gone(s, n) && Committed(s, s')
    ensures Gone(s', n)
  {
    hide FragmentAt;
    assert forall q :: q in s'.inFlight ==> q in s.inFlight || q == s.nextSendSeq;
  }

  lemma GonePeeked(o: Outbound, k: Lane, offered: Option<Message>, lane: Lane, n: nat)
    requires Gone(SendOf(o, lane), n)
    ensures Gone(SendOf(PeekLane(o, k, offered), lane), n)
  {
    PeekLaneSends(o, k, offered, lane);
    hide PeekLane;
  }

  lemma GoneSent(l: Link, k: Lane, offered: Option<Message>, now: int, lane: Lane, n: nat, clock: int)
    requires LinkOk(l, clock) && Gone(SendOf(l.out, lane), n)
    ensures Gone(SendOf(Sent(l, k, offered, now).out, lane), n) && Gone(SendOf(Peek(l, k, offered).link.out, lane), n)
  {
    if !l.failed && k != Media {
      LedgerInTime(l, clock);
      hide LinkOk, Ledger, Timed, Gone, PeekLane, DropDead, OfferOf, CommitLane, Ready, SameFlight, Committed;
      PeekLaneKeeps(l.out, k, offered);
      GonePeeked(l.out, k, offered, lane, n);
      var o := PeekLane(l.out, k, offered);
      if Peek(l, k, offered).datagram.Some? {
        LedgerLane(o, k);
        CommitLaneSends(o, k, now);
        if lane == k { GoneCommitted(SendOf(o, k), SendOf(CommitLane(o, k, now), k), n); }
      }
    }
  }

  lemma GoneReceived(l: Link, p: Packet, now: int, lane: Lane, n: nat, clock: int)
    requires LinkOk(l, clock) && Gone(SendOf(l.out, lane), n)
    ensures Gone(SendOf(OnPacket(l, p, now).out, lane), n)
  {
    hide LinkOk, Ledger, Timed, DecodeAck, HandleData, DueForData, HandleMedia, HandleAck, Gone, Thinned;
    var k, ack := p.header.flags.lane, DecodeAck(p.body);
    NoMediaStream(l, clock);
    if StreamExists(l, k) && ack.Some? {
      LedgerInTime(l, clock);
      HandleAckSends(l.out, k, p.header.sq, p.header.flags.paused, ack.value, now, lane, clock);
      GoneThinned(SendOf(l.out, lane), SendOf(HandleAck(l.out, k, p.header.sq, p.header.flags.paused, ack.value, now), lane), n);
    }
  }

  lemma GoneTimed(l: Link, now: int, lane: Lane, n: nat, clock: int)
    requires LinkOk(l, clock) && Gone(SendOf(l.out, lane), n) && !OnTimer(l, now).failed
    ensures Gone(SendOf(OnTimer(l, now).out, lane), n)
  {
    hide LinkOk, Ledger, Timed, Gone, Thinned, TimedOut, AskDue, ProbeDue;
    LedgerInTime(l, clock);
    TimedOutSends(l.out, l.timings.maxRto, now, lane, clock);
    GoneThinned(SendOf(l.out, lane), SendOf(TimedOut(l.out, l.timings.maxRto, now), lane), n);
  }

  /** No operation puts a packet in flight that was acknowledged. */
  lemma GoneStep(l: Link, op: Op, lane: Lane, n: nat, clock: int)
    requires LinkOk(l, clock) && Gone(SendOf(l.out, lane), n) && !Step(l, op).failed
    ensures Gone(SendOf(Step(l, op).out, lane), n)
  {
    hide LinkOk, Gone, OnPacket, OnTimer, Sent, Peek, PeekAck;
    match op
    case Send(k, offered, now) => GoneSent(l, k, offered, now, lane, n, clock);
    case JustPeek(k, offered) => GoneSent(l, k, offered, 0, lane, n, clock);
    case Receive(p, now) => GoneReceived(l, p, now, lane, n, clock);
    case Timer(now) => GoneTimed(l, now, lane, n, clock);
    case SendAck => PeekAckOut(l);
    case JustPeekAck => PeekAckOut(l);
    case Pause(paused) =>
    case Watch(now) =>
    case Collect =>
  }

  lemma GoneEnd(x: End, op: NetOp, lane: Lane, n: nat, clock: int)
    requires LinkOk(x.link, clock) && Gone(SendOf(x.link.out, lane), n)
    requires !EndStep(x, op).link.failed
    ensures Gone(SendOf(EndStep(x, op).link.out, lane), n)
  {
    hide LinkOk, Gone, Step, EndStep;
    match op
    case Do(o) => EndStepLink(x, o); GoneStep(x.link, o, lane, n, clock);
    case OthersReserve(used) => ReserveOut(x, used);
  }

  lemma ReserveOut(x: End, used: int)
    ensures EndStep(x, OthersReserve(used)).link.out == x.link.out
  {
  }

  // --- A session: its mailbox and its link, and the link it talks to ------------------------------------------

  datatype Joint = Joint(w: M.World, a: End, b: End)

  ghost predicate Alive(w: M.World, id: PeerId, epoch: nat) { id in w.m.boxes && w.m.boxes[id].epoch == epoch }

  /** The link drew exactly what it took from the mailbox, and what counts as acknowledged is never in flight again. */
  ghost predicate LaneCoupled(log: M.Log, a: End, lane: Lane) {
    var taken, acked, all := M.Count(log.taken, lane), M.Count(log.acked, lane), M.ForLane(log.arrivals, lane);
    && acked <= taken <= |all| && Drawn(a, lane) == all[..taken]
    && (!a.link.failed ==> Gone(SendOf(a.link.out, lane), Start(Drawn(a, lane), acked)))
  }

  ghost predicate Coupled(j: Joint, id: PeerId, epoch: nat) {
    Alive(j.w, id, epoch) ==>
      LaneCoupled(M.LogOf(j.w, epoch), j.a, Reliable) && LaneCoupled(M.LogOf(j.w, epoch), j.a, Bulk)
  }

  ghost predicate JointOk(j: Joint, id: PeerId, epoch: nat, clock: int) {
    M.WorldOk(j.w) && SystemOk(j.a, j.b, clock) && epoch <= j.w.m.epochs && Coupled(j, id, epoch)
  }

  /** Anything at the mailbox, a turn of either link, or the engine settles the session. */
  datatype JointOp = Mail(action: M.Action) | Mine(op: NetOp) | Theirs(op: NetOp) | Settles

  /** What only the link of the session and the engine do: take its data messages, acknowledge them and settle. */
  predicate Reserved(a: M.Action, id: PeerId) {
    || (a.DoTake? && a.peer == id && SharesWindow(a.lane))
    || (a.Acknowledged? && a.peer == id)
    || (a.DoSettle? && a.peer == id)
  }

  predicate AsksForData(op: NetOp) { op.Do? && (op.op.Send? || op.op.JustPeek?) && SharesWindow(op.op.lane) }

  /** The source of a data lane is the mailbox: it hands out the oldest message, or nothing. */
  predicate FromMailbox(w: M.World, id: PeerId, op: NetOp) {
    AsksForData(op) && op.op.offered.Some? ==>
      && id in w.m.boxes && M.QueueOf(w.m.boxes[id], op.op.lane).queue != []
      && M.QueueOf(w.m.boxes[id], op.op.lane).queue[0] == op.op.offered.value
  }

  predicate Draws(a: End, op: NetOp) { AsksForData(op) && Peek(a.link, op.op.lane, op.op.offered).took }

  /** When a session may be settled: a closing one does not wait for its Control lane. */
  predicate DataIdle(l: Link) { !HasPending(l, Reliable) && !HasPending(l, Bulk) }

  ghost predicate JointAllowed(j: Joint, id: PeerId, op: JointOp, clock: int) {
    match op
    case Mail(a) => M.Allowed(j.w, a) && !Reserved(a, id)
    case Mine(o) => TurnAllowed(j.a, j.b, Turn(true, o), clock) && FromMailbox(j.w, id, o)
    case Theirs(o) => TurnAllowed(j.a, j.b, Turn(false, o), clock)
    case Settles => !j.a.link.failed && DataIdle(j.a.link)
  }

  /** Everything the link took from the lane is acknowledged. */
  function Acked(w: M.World, id: PeerId, lane: Lane): M.World {
    if id !in w.m.boxes then w else M.Heard(w, id, lane, M.Count(M.LogOf(w, w.m.boxes[id].epoch).taken, lane))
  }

  function Settled(w: M.World, id: PeerId): M.World { M.Step(Acked(Acked(w, id, Reliable), id, Bulk), M.DoSettle(id)) }

  function JointStep(j: Joint, id: PeerId, op: JointOp): Joint {
    match op
    case Mail(a) => j.(w := M.Step(j.w, a))
    case Mine(o) => Joint(if Draws(j.a, o) then M.TookOne(j.w, id, o.op.lane) else j.w, EndStep(j.a, o), j.b)
    case Theirs(o) => j.(b := EndStep(j.b, o))
    case Settles => j.(w := Settled(j.w, id))
  }

  function JointTime(op: JointOp, clock: int): int {
    match op
    case Mine(o) => NetTime(o, clock)
    case Theirs(o) => NetTime(o, clock)
    case _ => clock
  }

  ghost predicate JointReaches(j: Joint, id: PeerId, ops: seq<JointOp>, clock: int, j': Joint, clock': int)
    decreases |ops|
  {
    if ops == [] then j' == j && clock' == clock
    else
      && JointAllowed(j, id, ops[0], clock)
      && JointReaches(JointStep(j, id, ops[0]), id, ops[1..], JointTime(ops[0], clock), j', clock')
  }

  // --- The mailbox moves ---------------------------------------------------------------------------------------

  /** The data lanes of the session stay as they are, but for new arrivals. */
  ghost predicate SameTaken(log: M.Log, log': M.Log, lane: Lane) {
    M.Count(log'.taken, lane) == M.Count(log.taken, lane) && M.Count(log'.acked, lane) == M.Count(log.acked, lane)
  }

  lemma AcceptedTaken(w: M.World, id: PeerId, lane: Lane, mail: Message, epoch: nat, k: Lane)
    requires id in w.m.boxes
    ensures SameTaken(M.LogOf(w, epoch), M.LogOf(M.Accepted(w, id, lane, mail), epoch), k)
  {
    hide M.Stored;
  }

  lemma {:induction false} EachTaken(w: M.World, ids: seq<PeerId>, lane: Lane, mail: Message, epoch: nat, k: Lane)
    ensures SameTaken(M.LogOf(w, epoch), M.LogOf(M.AcceptedByEach(w, ids, lane, mail), epoch), k)
    decreases |ids|
  {
    hide M.Accepted, M.LogOf;
    if ids != [] {
      if M.TakesAll(w.m, ids[0], lane, |mail.body|) {
        AcceptedTaken(w, ids[0], lane, mail, epoch, k);
        EachTaken(M.Accepted(w, ids[0], lane, mail), ids[1..], lane, mail, epoch, k);
      } else {
        EachTaken(w, ids[1..], lane, mail, epoch, k);
      }
    }
  }

  lemma OtherEpoch(w: M.World, id: PeerId, other: PeerId)
    requires M.BoxesOk(w) && id in w.m.boxes && other in w.m.boxes && id != other
    ensures w.m.boxes[other].epoch != w.m.boxes[id].epoch
  {
    hide M.BoxOk;
  }

  lemma MailTaken(w: M.World, a: M.Action, id: PeerId, epoch: nat, k: Lane)
    requires M.WorldOk(w) && Alive(w, id, epoch) && epoch <= w.m.epochs && !Reserved(a, id) && SharesWindow(k)
    ensures SameTaken(M.LogOf(w, epoch), M.LogOf(M.Step(w, a), epoch), k)
  {
    hide M.BoxesOk, M.WakeOk, M.Accepted, M.AcceptedByEach, M.Refusal, M.LateRefusal, M.TakenBox;
    match a
    case DoPush(p, lane, mail) =>
      if M.Refusal(w.m, p, lane, |mail.body|) == M.Queued {
        M.QueuedHasBox(w.m, p, lane, |mail.body|);
        AcceptedTaken(w, p, lane, mail, epoch, k);
      }
    case DoPushLate(p, lane, mail, e) =>
      if M.LateRefusal(w.m, p, lane, |mail.body|, e) == M.Queued {
        M.LateHasBox(w.m, p, lane, |mail.body|, e);
        AcceptedTaken(w, p, lane, mail, epoch, k);
      }
    case DoPushToAll(ids, lane, mail) => EachTaken(w, ids, lane, mail, epoch, k);
    case DoTake(p, lane) => if p in w.m.boxes && p != id { OtherEpoch(w, id, p); }
    case Acknowledged(p, lane, count) => if p in w.m.boxes { OtherEpoch(w, id, p); }
    case _ =>
  }

  /** A session that is over does not come back. */
  lemma AliveBefore(w: M.World, a: M.Action, id: PeerId, epoch: nat)
    requires epoch <= w.m.epochs && Alive(M.Step(w, a), id, epoch)
    ensures Alive(w, id, epoch)
  {
    hide M.Accepted, M.AcceptedByEach, M.Refusal, M.LateRefusal, M.TakenBox;
    match a
    case DoPush(p, lane, mail) =>
      if M.Refusal(w.m, p, lane, |mail.body|) == M.Queued {
        M.QueuedHasBox(w.m, p, lane, |mail.body|);
        AcceptedEpochs(w, p, lane, mail, id, epoch);
      }
    case DoPushLate(p, lane, mail, e) =>
      if M.LateRefusal(w.m, p, lane, |mail.body|, e) == M.Queued {
        M.LateHasBox(w.m, p, lane, |mail.body|, e);
        AcceptedEpochs(w, p, lane, mail, id, epoch);
      }
    case DoPushToAll(ids, lane, mail) => EachEpochs(w, ids, lane, mail, id, epoch);
    case DoTake(p, lane) => TakenEpochs(w, p, lane, id, epoch);
    case _ =>
  }

  lemma AcceptedEpochs(w: M.World, p: PeerId, lane: Lane, mail: Message, id: PeerId, epoch: nat)
    requires p in w.m.boxes
    ensures Alive(M.Accepted(w, p, lane, mail), id, epoch) <==> Alive(w, id, epoch)
  {
    M.StoredNames(w.m.boxes[p], lane, mail);
    hide M.Stored, M.Noted;
  }

  lemma {:induction false} EachEpochs(w: M.World, ids: seq<PeerId>, lane: Lane, mail: Message, id: PeerId, epoch: nat)
    ensures Alive(M.AcceptedByEach(w, ids, lane, mail), id, epoch) <==> Alive(w, id, epoch)
    decreases |ids|
  {
    hide M.Accepted, Alive;
    if ids != [] {
      if M.TakesAll(w.m, ids[0], lane, |mail.body|) {
        AcceptedEpochs(w, ids[0], lane, mail, id, epoch);
        EachEpochs(M.Accepted(w, ids[0], lane, mail), ids[1..], lane, mail, id, epoch);
      } else {
        EachEpochs(w, ids[1..], lane, mail, id, epoch);
      }
    }
  }

  lemma TakenEpochs(w: M.World, p: PeerId, lane: Lane, id: PeerId, epoch: nat)
    ensures Alive(M.TookOne(w, p, lane), id, epoch) <==> Alive(w, id, epoch)
  {
  }

  lemma {:induction false} ForLanePrefix(a: seq<M.Arrival>, b: seq<M.Arrival>, lane: Lane)
    requires a <= b
    ensures M.ForLane(a, lane) <= M.ForLane(b, lane)
    decreases |b|
  {
    if |a| < |b| {
      ForLanePrefix(a, b[..|b| - 1], lane);
    } else {
      assert a == b;
    }
  }

  /** New arrivals leave a lane coupled. */
  lemma GrownCoupled(log: M.Log, log': M.Log, a: End, lane: Lane)
    requires LaneCoupled(log, a, lane) && M.Grows(log, log') && SameTaken(log, log', lane)
    ensures LaneCoupled(log', a, lane)
  {
    ForLanePrefix(log.arrivals, log'.arrivals, lane);
    hide M.ForLane, Gone, Start, Drawn;
  }

  lemma MailCoupled(j: Joint, id: PeerId, epoch: nat, a: M.Action)
    requires M.WorldOk(j.w) && epoch <= j.w.m.epochs && Coupled(j, id, epoch) && M.Allowed(j.w, a) && !Reserved(a, id)
    ensures M.WorldOk(M.Step(j.w, a)) && epoch <= M.Step(j.w, a).m.epochs && Coupled(j.(w := M.Step(j.w, a)), id, epoch)
    ensures M.SessionGrows(j.w, M.Step(j.w, a), epoch)
  {
    hide M.WorldOk, M.Step, M.Allowed, M.Grows, LaneCoupled, SameTaken, M.LogOf, Reserved;
    var w' := M.Step(j.w, a);
    M.StepOk(j.w, a);
    M.StepGrows(j.w, a, epoch);
    if Alive(w', id, epoch) {
      AliveBefore(j.w, a, id, epoch);
      MailTaken(j.w, a, id, epoch, Reliable);
      MailTaken(j.w, a, id, epoch, Bulk);
      GrownCoupled(M.LogOf(j.w, epoch), M.LogOf(w', epoch), j.a, Reliable);
      GrownCoupled(M.LogOf(j.w, epoch), M.LogOf(w', epoch), j.a, Bulk);
    }
  }

  // --- The link moves ------------------------------------------------------------------------------------------

  lemma SameDrawn(x: End, op: NetOp, lane: Lane)
    requires SharesWindow(lane)
    requires !(AsksForData(op) && op.op.lane == lane && Draws(x, op))
    ensures Drawn(EndStep(x, op), lane) == Drawn(x, lane)
  {
    if op.Do? && op.op.Send? {
      SendDrawn(x, op.op.lane, op.op.offered, op.op.now, lane);
      hide Peek, Commit, ForLane;
    } else if op.Do? && op.op.JustPeek? {
      SendDrawn(x, op.op.lane, op.op.offered, 0, lane);
      hide Peek, Commit, ForLane;
    } else {
      OtherDrawn(x, op);
      hide EndStep, ForLane;
    }
  }

  lemma OtherDrawn(x: End, op: NetOp)
    requires !(op.Do? && (op.op.Send? || op.op.JustPeek?))
    ensures EndStep(x, op).drawn == x.drawn
  {
    hide Step, PeekAck;
  }

  lemma MoreDrawn(x: End, op: NetOp)
    requires Draws(x, op) && op.op.offered.Some?
    ensures Drawn(EndStep(x, op), op.op.lane) == Drawn(x, op.op.lane) + [op.op.offered.value]
  {
    SendDrawn(x, op.op.lane, op.op.offered, if op.op.Send? then op.op.now else 0, op.op.lane);
    hide Peek, Commit, ForLane;
  }

  lemma DrawsHasOffer(x: End, op: NetOp)
    requires Draws(x, op)
    ensures op.op.offered.Some?
  {
    hide HeldBack, DropDead;
  }

  lemma StartStays(D: seq<Message>, D': seq<Message>, k: nat)
    requires k <= |D| && D <= D'
    ensures Start(D', k) == Start(D, k)
  {
    assert D'[..k] == D[..k];
  }

  /** The link moved, and drew nothing of the lane from the mailbox. */
  lemma MovedCoupled(log: M.Log, a: End, op: NetOp, lane: Lane, clock: int)
    requires LaneCoupled(log, a, lane) && LinkOk(a.link, clock) && SharesWindow(lane)
    requires !(AsksForData(op) && op.op.lane == lane && Draws(a, op))
    requires !EndStep(a, op).link.failed ==> !a.link.failed
    ensures LaneCoupled(log, EndStep(a, op), lane)
  {
    hide LinkOk, EndStep, Gone, Drawn, M.ForLane, Start, Draws, AsksForData;
    SameDrawn(a, op, lane);
    if !EndStep(a, op).link.failed { GoneEnd(a, op, lane, Start(Drawn(a, lane), M.Count(log.acked, lane)), clock); }
  }

  /** ... and drew the oldest message of the lane. */
  lemma DrewCoupled(log: M.Log, a: End, op: NetOp, clock: int)
    requires Draws(a, op) && LaneCoupled(log, a, op.op.lane) && LinkOk(a.link, clock)
    requires var all, taken := M.ForLane(log.arrivals, op.op.lane), M.Count(log.taken, op.op.lane);
      op.op.offered.Some? && taken < |all| && all[taken] == op.op.offered.value
    requires !EndStep(a, op).link.failed ==> !a.link.failed
    ensures LaneCoupled(M.TakenLog(log, op.op.lane), EndStep(a, op), op.op.lane)
  {
    hide LinkOk, EndStep, Gone, Drawn, M.ForLane, Start;
    var lane := op.op.lane;
    MoreDrawn(a, op);
    StartStays(Drawn(a, lane), Drawn(EndStep(a, op), lane), M.Count(log.acked, lane));
    if !EndStep(a, op).link.failed { GoneEnd(a, op, lane, Start(Drawn(a, lane), M.Count(log.acked, lane)), clock); }
  }

  lemma FailedEnd(x: End, op: NetOp)
    requires x.link.failed
    ensures EndStep(x, op).link.failed
  {
    if op.Do? {
      EndStepLink(x, op.op);
      FailedStays(x.link, op.op);
      hide Step, EndStep;
    }
  }

  lemma EndFacts(x: End, y: End, clock: int)
    requires SystemOk(x, y, clock)
    ensures LinkOk(x.link, clock)
  {
    hide Agreed, Around;
    hide LinkOk;
  }

  /** The mailbox of the session and its log, before a message is taken. */
  lemma TakeFacts(w: M.World, id: PeerId, epoch: nat, lane: Lane)
    requires M.WorldOk(w) && Alive(w, id, epoch) && SharesWindow(lane) && M.QueueOf(w.m.boxes[id], lane).queue != []
    ensures M.LogOf(M.TookOne(w, id, lane), epoch) == M.TakenLog(M.LogOf(w, epoch), lane)
    ensures Alive(M.TookOne(w, id, lane), id, epoch) && M.TookOne(w, id, lane).m.epochs == w.m.epochs
    ensures var all, taken := M.ForLane(M.LogOf(w, epoch).arrivals, lane), M.Count(M.LogOf(w, epoch).taken, lane);
      taken < |all| && all[taken] == M.QueueOf(w.m.boxes[id], lane).queue[0]
  {
    hide M.BoxOk, M.ForLane;
    M.BoxIsOk(w, id);
    M.TakenIsNext(w.m.boxes[id], M.LogOf(w, epoch), lane);
    TakenEpochs(w, id, lane, id, epoch);
  }

  lemma TakenLogOther(log: M.Log, a: End, lane: Lane, other: Lane)
    requires LaneCoupled(log, a, other) && other != lane
    ensures LaneCoupled(M.TakenLog(log, lane), a, other)
  {
    hide M.ForLane, Gone, Start, Drawn;
  }

  lemma TakenGrows(w: M.World, id: PeerId, lane: Lane, epoch: nat)
    ensures M.SessionGrows(w, M.TookOne(w, id, lane), epoch)
  {
    hide M.TakenBox;
  }

  lemma MineDraws(j: Joint, id: PeerId, epoch: nat, op: NetOp, clock: int)
    requires JointOk(j, id, epoch, clock) && Draws(j.a, op) && FromMailbox(j.w, id, op)
    ensures var w' := M.TookOne(j.w, id, op.op.lane);
      && M.WorldOk(w') && epoch <= w'.m.epochs && Coupled(Joint(w', EndStep(j.a, op), j.b), id, epoch)
      && M.SessionGrows(j.w, w', epoch)
  {
    hide M.WorldOk, SystemOk, LinkOk, EndStep, LaneCoupled, M.LogOf, M.TookOne, M.TakenLog, M.Grows, Draws, M.ForLane;
    DrawsLane(j.a, op);
    var w', lane := M.TookOne(j.w, id, op.op.lane), op.op.lane;
    EndFacts(j.a, j.b, clock);
    M.TookOk(j.w, id, lane);
    TakenGrows(j.w, id, lane, epoch);
    TookEpochs(j.w, id, lane);
    TakenEpochs(j.w, id, lane, id, epoch);
    if Alive(w', id, epoch) {
      TakeFacts(j.w, id, epoch, lane);
      if j.a.link.failed { FailedEnd(j.a, op); }
      DrewCoupled(M.LogOf(j.w, epoch), j.a, op, clock);
      var other := if lane == Reliable then Bulk else Reliable;
      MovedCoupled(M.LogOf(j.w, epoch), j.a, op, other, clock);
      TakenLogOther(M.LogOf(j.w, epoch), EndStep(j.a, op), lane, other);
    }
  }

  lemma TookEpochs(w: M.World, id: PeerId, lane: Lane)
    ensures M.TookOne(w, id, lane).m.epochs == w.m.epochs
  {
    hide M.TakenBox;
  }

  lemma DrawsLane(x: End, op: NetOp)
    requires Draws(x, op)
    ensures AsksForData(op) && SharesWindow(op.op.lane) && op.op.offered.Some?
  {
    DrawsHasOffer(x, op);
    hide Peek;
  }

  lemma MineQuiet(j: Joint, id: PeerId, epoch: nat, op: NetOp, clock: int)
    requires JointOk(j, id, epoch, clock) && !Draws(j.a, op)
    ensures Coupled(Joint(j.w, EndStep(j.a, op), j.b), id, epoch)
  {
    hide M.WorldOk, SystemOk, LinkOk, EndStep, LaneCoupled, M.LogOf, Draws;
    EndFacts(j.a, j.b, clock);
    if Alive(j.w, id, epoch) {
      if j.a.link.failed { FailedEnd(j.a, op); }
      MovedCoupled(M.LogOf(j.w, epoch), j.a, op, Reliable, clock);
      MovedCoupled(M.LogOf(j.w, epoch), j.a, op, Bulk, clock);
    }
  }

  // --- The engine settles --------------------------------------------------------------------------------------

  lemma IdleGone(a: End, b: End, clock: int, lane: Lane)
    requires SystemOk(a, b, clock) && !a.link.failed && DataIdle(a.link) && SharesWindow(lane)
    ensures Gone(SendOf(a.link.out, lane), Start(Drawn(a, lane), |Drawn(a, lane)|))
  {
    hide SystemOk, DataOk, StepsOk, AcksOk, NothingLost, FlightOk, Frags, Drawn;
    AgreedPair(a, b, clock, lane);
    var s, D := SendOf(a.link.out, lane), Drawn(a, lane);
    assert D[..|D|] == D;
    assert s.inFlight == map[] && s.cursor.None?;
  }

  lemma AckedLog(w: M.World, id: PeerId, lane: Lane)
    requires id in w.m.boxes
    ensures var log := M.LogOf(w, w.m.boxes[id].epoch);
      M.LogOf(Acked(w, id, lane), w.m.boxes[id].epoch) == log.(acked := log.acked[lane := M.Count(log.taken, lane)])
    ensures Acked(w, id, lane).m == w.m
  {
  }

  /** Acknowledging all that was taken, as the mailbox sees it. */
  lemma AckedOk(w: M.World, id: PeerId, lane: Lane, epoch: nat)
    requires M.WorldOk(w) && SharesWindow(lane) && epoch <= w.m.epochs
    ensures M.WorldOk(Acked(w, id, lane)) && Acked(w, id, lane).m == w.m && M.SessionGrows(w, Acked(w, id, lane), epoch)
  {
    hide M.BoxOk, M.Grows, M.WakeOk, M.BoxesOk;
    if id in w.m.boxes {
      var log := M.LogOf(w, w.m.boxes[id].epoch);
      M.BoxIsOk(w, id);
      AckedInOrder(w.m.boxes[id], log, lane);
      M.HeardOk(w, id, lane, M.Count(log.taken, lane));
      M.StepGrows(w, M.Acknowledged(id, lane, M.Count(log.taken, lane)), epoch);
    } else {
      M.GrowsSelf(M.LogOf(w, epoch));
    }
  }

  lemma AckedInOrder(b: M.Box, log: M.Log, lane: Lane)
    requires M.BoxOk(b, log) && SharesWindow(lane)
    ensures M.Count(log.acked, lane) <= M.Count(log.taken, lane)
  {
    hide M.ForLane, M.BytesExact, M.NewestMedia, M.DoneIsAcked;
  }

  lemma SettledOk(w: M.World, id: PeerId, epoch: nat)
    requires M.WorldOk(w) && epoch <= w.m.epochs
    ensures M.WorldOk(Settled(w, id)) && Settled(w, id).m.epochs == w.m.epochs && M.SessionGrows(w, Settled(w, id), epoch)
    ensures Alive(Settled(w, id), id, epoch) <==> Alive(w, id, epoch)
    ensures Alive(w, id, epoch) ==>
      var log := M.LogOf(w, epoch);
      M.LogOf(Settled(w, id), epoch)
      == log.(acked := log.acked[Reliable := M.Count(log.taken, Reliable)][Bulk := M.Count(log.taken, Bulk)])
  {
    hide M.WorldOk, Acked, M.Grows, M.Step, M.LogOf;
    var w1 := Acked(w, id, Reliable);
    var w2 := Acked(w1, id, Bulk);
    AckedOk(w, id, Reliable, epoch);
    AckedOk(w1, id, Bulk, epoch);
    if id in w.m.boxes {
      AckedLog(w, id, Reliable);
      AckedLog(w1, id, Bulk);
    }
    SettleAllowed(w2, id);
    M.StepOk(w2, M.DoSettle(id));
    M.StepGrows(w2, M.DoSettle(id), epoch);
    SettleKeeps(w2, id, epoch);
    M.GrowsTrans(M.LogOf(w, epoch), M.LogOf(w1, epoch), M.LogOf(w2, epoch));
    M.GrowsTrans(M.LogOf(w, epoch), M.LogOf(w2, epoch), M.LogOf(Settled(w, id), epoch));
  }

  lemma SettleAllowed(w: M.World, id: PeerId)
    requires id in w.m.boxes ==> var log := M.LogOf(w, w.m.boxes[id].epoch); M.LinkIdle(log, Reliable) && M.LinkIdle(log, Bulk)
    ensures M.Allowed(w, M.DoSettle(id))
  {
  }

  lemma SettleKeeps(w: M.World, id: PeerId, epoch: nat)
    ensures var w' := M.Step(w, M.DoSettle(id));
      && M.LogOf(w', epoch) == M.LogOf(w, epoch) && w'.m.epochs == w.m.epochs
      && (Alive(w', id, epoch) <==> Alive(w, id, epoch))
  {
  }

  lemma AllAckedCoupled(log: M.Log, log': M.Log, a: End, b: End, clock: int, lane: Lane)
    requires LaneCoupled(log, a, lane) && SystemOk(a, b, clock) && !a.link.failed && DataIdle(a.link)
    requires SharesWindow(lane) && log'.arrivals == log.arrivals && log'.taken == log.taken
    requires M.Count(log'.acked, lane) == M.Count(log.taken, lane)
    ensures LaneCoupled(log', a, lane)
  {
    hide SystemOk, Gone, M.ForLane, Start, Drawn;
    IdleGone(a, b, clock, lane);
  }

  lemma SettlesCoupled(j: Joint, id: PeerId, epoch: nat, clock: int)
    requires JointOk(j, id, epoch, clock) && !j.a.link.failed && DataIdle(j.a.link)
    ensures var w' := Settled(j.w, id);
      && M.WorldOk(w') && epoch <= w'.m.epochs && Coupled(j.(w := w'), id, epoch) && M.SessionGrows(j.w, w', epoch)
  {
    hide M.WorldOk, SystemOk, LaneCoupled, M.LogOf, Settled, M.Grows, DataIdle;
    SettledOk(j.w, id, epoch);
    if Alive(j.w, id, epoch) {
      var log, log' := M.LogOf(j.w, epoch), M.LogOf(Settled(j.w, id), epoch);
      AllAckedCoupled(log, log', j.a, j.b, clock, Reliable);
      AllAckedCoupled(log, log', j.a, j.b, clock, Bulk);
    }
  }

  // --- Every step, every run -----------------------------------------------------------------------------------

  lemma JointStepOk(j: Joint, id: PeerId, epoch: nat, op: JointOp, clock: int)
    requires JointOk(j, id, epoch, clock) && JointAllowed(j, id, op, clock)
    ensures JointOk(JointStep(j, id, op), id, epoch, JointTime(op, clock))
    ensures M.SessionGrows(j.w, JointStep(j, id, op).w, epoch)
  {
    hide M.WorldOk, SystemOk, Coupled, TurnAllowed, M.Allowed, FromMailbox, M.Grows, DataIdle, EndStep, M.Step,
         M.TookOne, Settled, Draws;
    EndFacts(j.a, j.b, clock);
    match op
    case Mail(a) => MailCoupled(j, id, epoch, a);
    case Mine(o) =>
      TurnOk(j.a, j.b, Turn(true, o), clock);
      if Draws(j.a, o) {
        MineDraws(j, id, epoch, o, clock);
      } else {
        MineQuiet(j, id, epoch, o, clock);
        M.GrowsSelf(M.LogOf(j.w, epoch));
      }
    case Theirs(o) =>
      TurnOk(j.a, j.b, Turn(false, o), clock);
      TheirsCoupled(j, id, epoch, EndStep(j.b, o));
      M.GrowsSelf(M.LogOf(j.w, epoch));
    case Settles => SettlesCoupled(j, id, epoch, clock);
  }

  lemma TheirsCoupled(j: Joint, id: PeerId, epoch: nat, b: End)
    requires Coupled(j, id, epoch)
    ensures Coupled(j.(b := b), id, epoch)
  {
    hide LaneCoupled;
  }

  lemma {:induction false} JointRunOk(j: Joint, id: PeerId, epoch: nat, ops: seq<JointOp>, clock: int, j': Joint, clock': int)
    requires JointOk(j, id, epoch, clock) && JointReaches(j, id, ops, clock, j', clock')
    ensures JointOk(j', id, epoch, clock') && M.SessionGrows(j.w, j'.w, epoch)
    decreases |ops|
  {
    hide JointOk, JointAllowed, JointStep, M.Grows;
    if ops == [] {
      M.GrowsSelf(M.LogOf(j.w, epoch));
    } else {
      JointStepOk(j, id, epoch, ops[0], clock);
      var j1 := JointStep(j, id, ops[0]);
      JointRunOk(j1, id, epoch, ops[1..], JointTime(ops[0], clock), j', clock');
      M.GrowsTrans(M.LogOf(j.w, epoch), M.LogOf(j1.w, epoch), M.LogOf(j'.w, epoch));
    }
  }

  // --- The promise -----------------------------------------------------------------------------------------------

  /** A lane all of whose arrivals rank among the first n has no more than n of them. */
  lemma {:induction false} RankBounds(arrivals: seq<M.Arrival>, lane: Lane, n: nat)
    requires forall i :: 0 <= i < |arrivals| && arrivals[i].lane == lane ==> |M.ForLane(arrivals[..i], lane)| < n
    ensures |M.ForLane(arrivals, lane)| <= n
  {
    if arrivals != [] {
      var rest := arrivals[..|arrivals| - 1];
      forall i | 0 <= i < |rest| && rest[i].lane == lane
        ensures |M.ForLane(rest[..i], lane)| < n
      {
        assert rest[..i] == arrivals[..i];
      }
      RankBounds(rest, lane, n);
      assert arrivals[..|arrivals| - 1] == rest;
    }
  }

  /** What the mailbox counts as acknowledged includes everything accepted before the flush. */
  lemma FlushedCount(before: M.Log, after: M.Log, lane: Lane)
    requires M.AllAcked(before, after) && SharesWindow(lane)
    ensures |M.ForLane(before.arrivals, lane)| <= M.Count(after.acked, lane)
    ensures M.ForLane(before.arrivals, lane) <= M.ForLane(after.arrivals, lane)
  {
    ForLanePrefix(before.arrivals, after.arrivals, lane);
    forall i | 0 <= i < |before.arrivals| && before.arrivals[i].lane == lane
      ensures |M.ForLane(before.arrivals[..i], lane)| < M.Count(after.acked, lane)
    {
      assert M.IsAcked(after, i);
      assert after.arrivals[..i] == before.arrivals[..i] && after.arrivals[i] == before.arrivals[i];
    }
    RankBounds(before.arrivals, lane, M.Count(after.acked, lane));
  }

  /** Packets that are gone are at the receiver. */
  lemma GoneIsHeld(a: End, b: End, clock: int, lane: Lane, n: nat)
    requires SystemOk(a, b, clock) && lane != Media && !a.link.failed && !b.link.failed && Gone(SendOf(a.link.out, lane), n)
    ensures forall q :: 1 <= q <= n ==> Held(RecvOf(b.link.inb, lane), q)
  {
    hide SystemOk, SendsOk, DataOk, StepsOk, AcksOk, Held;
    AgreedPair(a, b, clock, lane);
  }

  /** A receiver that holds all packets of the first k messages, and refused none, delivered these messages. */
  lemma HeldIsDelivered(a: End, b: End, clock: int, lane: Lane, k: nat)
    requires SystemOk(a, b, clock) && lane != Media && !b.link.failed && k <= |Drawn(a, lane)|
    requires forall q :: 1 <= q <= Start(Drawn(a, lane), k) ==> Held(RecvOf(b.link.inb, lane), q)
    requires !RecvOf(b.link.inb, lane).budgetPaused
    ensures Drawn(a, lane)[..k] <= Got(b, lane)
  {
    hide SystemOk, SendsOk, DataOk, AcksOk, NothingLost;
    AgreedPair(a, b, clock, lane);
    var D, L, r := Drawn(a, lane), Got(b, lane), RecvOf(b.link.inb, lane);
    InStepOf(a, b, lane);
    hide StepsOk, Drawn, Got, Frags;
    assert !Held(r, r.nextExpected);
    assert r.nextExpected > Start(D, k);
    hide Held;
    if |L| < k {
      StartNext(D, |L|);
      if |L| + 1 < k { StartMonotone(D, |L| + 1, k); }
    }
  }

  lemma InStepOf(a: End, b: End, lane: Lane)
    requires Pair(a, b, lane) && !b.link.failed
    ensures InStep(RecvOf(b.link.inb, lane), Got(b, lane), Drawn(a, lane)) && GapOk(RecvOf(b.link.inb, lane))
    ensures RecvOf(b.link.inb, lane).nextExpected >= 1
  {
    hide SendsOk, DataOk, AcksOk, NothingLost, InStep, Buffered, GapOk;
    StepHasNext(b.link.inb, b.log, Drawn(a, lane), lane);
  }

  /** A flush that succeeds within its session: every packet of every Reliable and Bulk message accepted before it is at
      the other end, and the messages were delivered there in order unless that end refuses one of the lane for now. */
  lemma FlushMeansDelivered(j: Joint, id: PeerId, epoch: nat, ops: seq<JointOp>, clock: int, j': Joint, clock': int,
                            lane: Lane)
    requires JointOk(j, id, epoch, clock) && JointReaches(j, id, ops, clock, j', clock') && SharesWindow(lane)
    requires Alive(j.w, id, epoch) && Alive(j'.w, id, epoch) && M.Flushed(j'.w.m, M.TicketFor(j.w.m, id).value)
    requires !j'.a.link.failed && !j'.b.link.failed
    ensures var mail := M.ForLane(M.LogOf(j.w, epoch).arrivals, lane);
      && (forall q :: 1 <= q <= |Frags(mail)| ==> Held(RecvOf(j'.b.link.inb, lane), q))
      && (!RecvOf(j'.b.link.inb, lane).budgetPaused ==> mail <= Got(j'.b, lane))
  {
    hide M.WorldOk, SystemOk, JointReaches, M.Flushed, M.Grows, M.AllAcked, M.LogOf, Gone, Held, M.ForLane, Got, Drawn, Start,
      Frags;
    JointRunOk(j, id, epoch, ops, clock, j', clock');
    var before, after := M.LogOf(j.w, epoch), M.LogOf(j'.w, epoch);
    M.FlushedArrivals(j.w, j'.w, id);
    FlushedCount(before, after, lane);
    assert LaneCoupled(after, j'.a, lane);
    var acked, D, mail := M.Count(after.acked, lane), Drawn(j'.a, lane), M.ForLane(before.arrivals, lane);
    GoneIsHeld(j'.a, j'.b, clock', lane, Start(D, acked));
    StartOfPrefix(mail, D, acked);
    if !RecvOf(j'.b.link.inb, lane).budgetPaused { HeldIsDelivered(j'.a, j'.b, clock', lane, acked); }
  }

  lemma StartOfPrefix(mail: seq<Message>, D: seq<Message>, k: nat)
    requires mail <= D && |mail| <= k <= |D|
    ensures |Frags(mail)| <= Start(D, k)
  {
    assert D[..|mail|] == mail;
    if |mail| < k { StartMonotone(D, |mail|, k); }
  }

  lemma FreshCoupled(a: End, b: End, clock: int, lane: Lane)
    requires SystemOk(a, b, clock) && SharesWindow(lane) && Drawn(a, lane) == []
    ensures LaneCoupled(M.NO_LOG, a, lane)
  {
    hide SystemOk, DataOk, StepsOk, AcksOk, NothingLost, FlightOk, Drawn;
    AgreedPair(a, b, clock, lane);
    var s := SendOf(a.link.out, lane);
    assert !a.link.failed ==> s.nextSendSeq > 0;
    assert Start(Drawn(a, lane), 0) == 0;
    assert M.ForLane(M.NO_LOG.arrivals, lane) == [];
  }

  /** A session that was just opened, on a link that drew no data yet. */
  lemma OpenedJoint(j: Joint, id: PeerId, epoch: nat, clock: int)
    requires M.WorldOk(j.w) && SystemOk(j.a, j.b, clock) && Alive(j.w, id, epoch) && M.LogOf(j.w, epoch) == M.NO_LOG
    requires Drawn(j.a, Reliable) == [] && Drawn(j.a, Bulk) == []
    ensures JointOk(j, id, epoch, clock)
  {
    hide M.WorldOk, SystemOk, LaneCoupled, Drawn, M.LogOf;
    M.TicketTarget(j.w, id);
    FreshCoupled(j.a, j.b, clock, Reliable);
    FreshCoupled(j.a, j.b, clock, Bulk);
  }
}
