/** Two ends and the set of all packets either ever sent. Any of them may arrive next, as often as it likes, or never. */
module LinkNetwork {
  import opened Transport
  import opened PacketFlags
  import opened PacketHeader
  import opened AckRanges
  import opened Fragments
  import opened MediaAssembler
  import opened LinkModel
  import opened LinkLedger
  import opened LinkRuns
  import opened LinkDelivery
  import opened LinkSending

  /** One end: its link, what the link drew from its source, what it handed over to the application, and every packet it
      ever put on the wire. */
  datatype End = End(link: Link, drawn: seq<LaneMessage>, log: seq<LaneMessage>, net: set<Packet>)

  ghost function Drawn(x: End, lane: Lane): seq<Message> { ForLane(x.drawn, lane) }

  /** All messages of the lane the end ever delivered. */
  ghost function Got(x: End, lane: Lane): seq<Message> { ForLane(x.log + x.link.inb.delivered, lane) }

  // --- Steps --------------------------------------------------------------------------------------

  /** An operation of the link, or the other links of the same engine reserve and release assembly memory. */
  datatype NetOp = Do(op: Op) | OthersReserve(used: int)

  function Peeks(x: End, r: Peeked, lane: Lane, offered: Option<Message>): End {
    x.(link := r.link, drawn := if r.took && offered.Some? then x.drawn + [LaneMessage(lane, offered.value)] else x.drawn)
  }

  function PeekStep(x: End, lane: Lane, offered: Option<Message>): End {
    Peeks(x, Peek(x.link, lane, offered), lane, offered)
  }

  function SendStep(x: End, lane: Lane, offered: Option<Message>, now: int): End {
    var r := Peek(x.link, lane, offered);
    var x1 := Peeks(x, r, lane, offered);
    if r.datagram.None? then x1
    else x1.(link := Commit(r.link, lane, now), net := x.net + {r.datagram.value})
  }

  function AckStep(x: End): End {
    var l := PeekAck(x.link);
    x.(link := CommitAck(l), net := if l.pendingAcks == [] then x.net else x.net + {l.pendingAcks[0]})
  }

  function ReserveStep(x: End, used: int): End {
    if x.link.inb.budget.None? then x
    else x.(link := x.link.(inb := x.link.inb.(budget := Some(x.link.inb.budget.value.(used := used)))))
  }

  function CollectStep(x: End): End { x.(link := TakeDelivered(x.link), log := x.log + x.link.inb.delivered) }

  function EndStep(x: End, op: NetOp): End {
    match op
    case OthersReserve(used) => ReserveStep(x, used)
    case Do(op) =>
      match op
      case Send(lane, offered, now) => SendStep(x, lane, offered, now)
      case JustPeek(lane, offered) => PeekStep(x, lane, offered)
      case SendAck => AckStep(x)
      case Collect => CollectStep(x)
      case _ => x.(link := Step(x.link, op))
  }

  lemma EndStepLink(x: End, op: Op)
    ensures EndStep(x, Do(op)).link == Step(x.link, op)
  {
    hide PeekAck, CommitLane, OnPacket, OnTimer, OfferOf, DropDead, PeekLane;
  }

  /** The seqs of the link fit their 64 bits. */
  ghost predicate NoWrap(l: Link) {
    && (forall lane :: SendOf(l.out, lane).nextSendSeq < U64)
    && (forall lane :: RecvOf(l.inb, lane).nextExpected + 2 * Window(lane) < U64)
    && l.nextMediaSeq < U64
  }

  /** The packet was read from a datagram the other end sent. */
  ghost predicate Arrives(y: End, p: Packet) {
    exists w :: w in y.net && DecodePacket(EncodePacket(w)) == Some(p)
  }

  /** What may happen next at x: the source only has messages its lane carries, and packets come from the other end or
      belong to other streams. */
  ghost predicate Allowed(x: End, y: End, op: NetOp) {
    && NoWrap(x.link)
    && match op
       case OthersReserve(used) =>
         x.link.inb.budget.Some? ==> Own(x.link.inb) <= used <= x.link.inb.budget.value.limit
       case Do(op) =>
         match op
         case Send(lane, offered, now) => offered.Some? ==> Sendable(offered.value, lane)
         case JustPeek(lane, offered) => offered.Some? ==> Sendable(offered.value, lane)
         case Receive(p, now) => Arrives(y, p) || Stale(x.link, p.header)
         case _ => true
  }

  // --- The invariant of one direction ------------------------------------------------------------------

  ghost predicate IsData(p: Packet, lane: Lane) { p.header.flags.kind == Data && p.header.flags.lane == lane }

  ghost predicate IsAck(p: Packet, lane: Lane) { p.header.flags.kind == Ack && p.header.flags.lane == lane }

  ghost predicate SendsOk(s: End, lane: Lane) { !s.link.failed ==> SendOk(SendOf(s.link.out, lane), Drawn(s, lane)) }

  ghost predicate MediaSendsOk(s: End) {
    !s.link.failed ==> CursorPos(s.link.mediaCursor, s.link.nextMediaSeq, Drawn(s, Media))
  }

  /** Every Data packet on the wire carries the fragment its seq stands for. */
  ghost predicate DataOk(s: End, lane: Lane) {
    forall p :: p in s.net && IsData(p, lane) ==>
      && 1 <= p.header.sq <= |Frags(Drawn(s, lane))| && Carries(p, Frags(Drawn(s, lane))[p.header.sq - 1], lane)
      && (!s.link.failed && lane != Media ==> p.header.sq < SendOf(s.link.out, lane).nextSendSeq)
  }

  /** What arrived is in step with what was drawn; once the receiving link failed, what it delivered stays a prefix. */
  ghost predicate StepsOk(s: End, r: End, lane: Lane) {
    if r.link.failed then Got(r, lane) <= Drawn(s, lane) else LaneInStep(r.link.inb, r.log, Drawn(s, lane), lane)
  }

  /** Acks on the wire, and those built and not sent yet, never claim what the receiver does not have. */
  ghost predicate AcksOk(r: End, lane: Lane) {
    !r.link.failed ==>
      forall p :: (p in r.net || p in r.link.pendingAcks) && IsAck(p, lane) ==> AckTrue(p, RecvOf(r.link.inb, lane))
  }

  /** Every seq that was sent is still in flight, or the receiver has it. */
  ghost predicate NothingLost(s: End, r: End, lane: Lane) {
    !s.link.failed && !r.link.failed ==>
      var send, recv := SendOf(s.link.out, lane), RecvOf(r.link.inb, lane);
      && Under(recv, send.nextSendSeq)
      && (forall q :: 1 <= q < send.nextSendSeq ==> q in send.inFlight || Held(recv, q))
  }

  ghost predicate Pair(s: End, r: End, lane: Lane) {
    SendsOk(s, lane) && DataOk(s, lane) && StepsOk(s, r, lane) && AcksOk(r, lane) && NothingLost(s, r, lane)
  }

  ghost predicate MediaRecvOk(s: End, r: End) {
    MediaOk(r.link.inb.media, Drawn(s, Media)) && forall m :: m in Got(r, Media) ==> m in Drawn(s, Media)
  }

  ghost predicate MediaPair(s: End, r: End) { MediaSendsOk(s) && DataOk(s, Media) && MediaRecvOk(s, r) }

  // --- The invariant of one end -------------------------------------------------------------------------

  /** The decoders take the packet, and the body of an Ack as well. */
  ghost predicate OnWireOk(p: Packet, id: nat) {
    && WellFormed(p) && p.header.Fits() && p.header.src == id
    && (p.header.flags.kind == Ack ==> DecodeAck(p.body).Some?)
  }

  /** Who it is and whom it talks to, what it drew, and what it may have sent. */
  ghost predicate Around(x: End, peer: nat) {
    && IdsOk(x.link) && (x.link.remoteId.Some? ==> x.link.remoteId.value == peer)
    && (forall lane :: AllSendable(Drawn(x, lane), lane))
    && (forall p :: p in x.net || p in x.link.pendingAcks ==> OnWireOk(p, x.link.localId))
    && (forall p :: p in x.link.pendingAcks ==> p.header.flags.kind != Data)
    && x.link.inb.mediaReceived < U32
    && BudgetOk(x.link.inb)
  }

  ghost predicate EndOk(x: End, peer: nat, clock: int) { LinkOk(x.link, clock) && Around(x, peer) }

  // --- What does not change ------------------------------------------------------------------------------

  /** x' sends no new Acks and received nothing: as a receiver it is what it was. */
  ghost predicate SameReceiver(x: End, x': End) {
    && x'.link.inb == x.link.inb && x'.link.failed == x.link.failed && x'.log == x.log
    && (forall p, lane :: (p in x'.net || p in x'.link.pendingAcks) && IsAck(p, lane) ==> p in x.net || p in x.link.pendingAcks)
  }

  lemma SameReceiverPair(y: End, x: End, x': End, lane: Lane)
    requires SameReceiver(x, x') && Pair(y, x, lane)
    ensures Pair(y, x', lane)
  {
    hide SendsOk, DataOk, LaneInStep, AckTrue, Held, Under;
  }

  lemma SameReceiverMedia(y: End, x: End, x': End)
    requires SameReceiver(x, x') && MediaPair(y, x)
    ensures MediaPair(y, x')
  {
    hide MediaSendsOk, DataOk, MediaOk;
  }

  /** x' sent no new Data and nothing was acknowledged to it: as a sender it is what it was. */
  ghost predicate SameSender(x: End, x': End) {
    && x'.link.out == x.link.out && x'.link.failed == x.link.failed && x'.drawn == x.drawn
    && x'.link.mediaCursor == x.link.mediaCursor && x'.link.nextMediaSeq == x.link.nextMediaSeq
    && (forall p, lane :: p in x'.net && IsData(p, lane) ==> p in x.net)
  }

  lemma SameSenderPair(x: End, x': End, y: End, lane: Lane)
    requires SameSender(x, x') && Pair(x, y, lane)
    ensures Pair(x', y, lane)
  {
    hide SendOk, LaneInStep, AcksOk, Held, Under, Carries, Frags;
  }

  lemma SameSenderMedia(x: End, x': End, y: End)
    requires SameSender(x, x') && MediaPair(x, y)
    ensures MediaPair(x', y)
  {
    hide CursorPos, MediaOk, Carries, Frags, ForLane;
  }

  // --- Sending ---------------------------------------------------------------------------------------------

  lemma PeeksDrawn(x: End, r: Peeked, lane: Lane, offered: Option<Message>, k: Lane)
    ensures Drawn(Peeks(x, r, lane, offered), k) == if k == lane then DrawnBy(Drawn(x, k), r.took, offered) else Drawn(x, k)
  {
    if r.took && offered.Some? {
      ForLaneAppend(x.drawn, LaneMessage(lane, offered.value), k);
    }
  }

  /** Data on the wire stands for the same fragments when another message was drawn. */
  lemma DataGrows(x: End, x': End, lane: Lane, took: bool, offered: Option<Message>)
    requires DataOk(x, lane) && x'.net == x.net && x'.link.failed == x.link.failed
    requires Drawn(x', lane) == DrawnBy(Drawn(x, lane), took, offered)
    requires SendOf(x'.link.out, lane).nextSendSeq >= SendOf(x.link.out, lane).nextSendSeq
    ensures DataOk(x', lane)
  {
    if took && offered.Some? {
      FragsAppend(Drawn(x, lane), offered.value);
    }
    hide Frags, Carries, ForLane;
  }

  lemma StepsGrow(x: End, x': End, y: End, lane: Lane, took: bool, offered: Option<Message>)
    requires StepsOk(x, y, lane) && Drawn(x', lane) == DrawnBy(Drawn(x, lane), took, offered)
    ensures StepsOk(x', y, lane)
  {
    hide LaneInStep, ForLane;
    if took && offered.Some? && !y.link.failed {
      LaneInStepGrows(y.link.inb, y.log, Drawn(x, lane), offered.value, lane);
    }
  }

  /** A peek, as the other end sees it. */
  lemma PeekPair(x: End, y: End, lane: Lane, offered: Option<Message>, k: Lane)
    requires Pair(x, y, k) && !x.link.failed && lane != Media && k != Media
    ensures Pair(PeekStep(x, lane, offered), y, k)
  {
    var o, r := x.link.out, Peek(x.link, lane, offered);
    var x' := Peeks(x, r, lane, offered);
    PeeksDrawn(x, r, lane, offered, k);
    PeekLaneSends(o, lane, offered, k);
    hide Frags, Carries, ForLane, LaneInStep, PeekLane, OfferOf, DropDead, CursorPos, Held, Under, AcksOk;
    assert x'.link.out == PeekLane(o, lane, offered) && r.took == OfferOf(DropDead(o, lane), lane, offered).1;
    if k == lane {
      PeekSendOk(o, lane, offered, Drawn(x, lane));
      DataGrows(x, x', lane, r.took, offered);
      StepsGrow(x, x', y, lane, r.took, offered);
    } else {
      SameDrawnPair(x, x', y, k);
    }
  }

  /** The lane's stream holds the same, whatever happened on other lanes. */
  lemma SameDrawnPair(x: End, x': End, y: End, k: Lane)
    requires Pair(x, y, k) && Drawn(x', k) == Drawn(x, k) && x'.link.failed == x.link.failed
    requires SameContents(SendOf(x.link.out, k), SendOf(x'.link.out, k))
    requires forall p :: p in x'.net && IsData(p, k) ==> p in x.net
    ensures Pair(x', y, k)
  {
    hide Frags, Carries, ForLane, LaneInStep, CursorPos, Held, Under, AcksOk;
    if !x.link.failed {
      FlightShrinks(SendOf(x.link.out, k), SendOf(x'.link.out, k), Drawn(x, k));
    }
    hide FlightOk;
  }

  /** The packet carries, in the lane's messages, what its seq stands for, and the decoder takes it. */
  ghost predicate GoodData(p: Packet, lane: Lane, D: seq<Message>, id: nat) {
    && IsData(p, lane) && 1 <= p.header.sq <= |Frags(D)| && Carries(p, Frags(D)[p.header.sq - 1], lane)
    && OnWireOk(p, id)
  }

  lemma DataPacketGood(l: Link, lane: Lane, q: nat, D: seq<Message>)
    requires IdsOk(l) && 1 <= q <= |Frags(D)| && q < U64 && AllSendable(D, lane)
    ensures var p := DataPacket(l, lane, q, Frags(D)[q - 1]); GoodData(p, lane, D, l.localId) && p.header.sq == q
  {
    FragsCarried(l, lane, q, D);
    FragsWellFormed(l, lane, q, D);
    hide Frags, AllSendable, WellFormed, Carries;
  }

  /** The seq of an offer is one sent before, or the next one. */
  ghost predicate OfferSeq(offer: Offer, s: SendSide) {
    match offer
    case Nothing => true
    case Again(q, _) => q < s.nextSendSeq
    case Next(q, _) => q == s.nextSendSeq && s.lost == []
  }

  lemma OfferSeqOk(o: Outbound, lane: Lane, offered: Option<Message>, D: seq<Message>)
    requires FrontWaits(SendOf(o, lane)) && OfferFrom(OfferOf(o, lane, offered).0, SendOf(o, lane), D)
    ensures OfferSeq(OfferOf(o, lane, offered).0, SendOf(o, lane))
  {
    hide HeldBack, Frags, FragmentAt;
  }

  /** The packet of an offer. */
  lemma OfferGood(l: Link, lane: Lane, offer: Offer, s: SendSide, D: seq<Message>)
    requires OfferFrom(offer, s, D) && OfferSeq(offer, s) && !offer.Nothing? && s.nextSendSeq < U64
    requires IdsOk(l) && AllSendable(D, lane)
    ensures var p := OfferPacket(l, lane, offer);
            && p.Some? && GoodData(p.value, lane, D, l.localId) && p.value.header.sq <= s.nextSendSeq
            && (s.lost != [] ==> p.value.header.sq < s.nextSendSeq)
  {
    hide Frags, AllSendable, DataPacket, FragmentAt, GoodData;
    DataPacketGood(l, lane, offer.sq, D);
  }

  lemma PeekIs(l: Link, lane: Lane, offered: Option<Message>)
    requires !l.failed && lane != Media
    ensures var r, o, (offer, took) := Peek(l, lane, offered), DropDead(l.out, lane), OfferOf(DropDead(l.out, lane), lane, offered);
            && r.datagram == OfferPacket(l, lane, offer) && r.took == took && r.link == l.(out := PeekLane(l.out, lane, offered))
            && SendOf(r.link.out, lane).lost == SendOf(o, lane).lost
            && SendOf(o, lane).nextSendSeq == SendOf(l.out, lane).nextSendSeq
  {
    DropDeadSends(l.out, lane, lane);
    hide HeldBack, DropDead;
  }

  /** The datagram on offer carries what its seq stands for. */
  lemma OfferPair(x: End, lane: Lane, offered: Option<Message>)
    requires !x.link.failed && lane != Media && SendsOk(x, lane) && NoWrap(x.link) && IdsOk(x.link)
    requires AllSendable(Drawn(x, lane), lane) && (offered.Some? ==> Sendable(offered.value, lane))
    requires Peek(x.link, lane, offered).datagram.Some?
    ensures var r := Peek(x.link, lane, offered);
            var p, D, next := r.datagram.value, DrawnBy(Drawn(x, lane), r.took, offered), SendOf(x.link.out, lane).nextSendSeq;
            && GoodData(p, lane, D, x.link.localId) && AllSendable(D, lane) && p.header.sq <= next
            && (SendOf(r.link.out, lane).lost != [] ==> p.header.sq < next)
  {
    DropDeadSendOk(x, lane);
    PeekIs(x.link, lane, offered);
    assert SendOf(x.link.out, lane).nextSendSeq < U64;
    var o := DropDead(x.link.out, lane);
    hide SendOk, SendsOk, NoWrap, AllSendable, Sendable, OfferOf, DropDead, Peek, PeekLane, OfferPacket, GoodData,
         IdsOk, OfferFrom, OfferSeq, FrontWaits, Drawn;
    OfferCarries(o, lane, offered, Drawn(x, lane));
    var (offer, took) := OfferOf(o, lane, offered);
    var D := DrawnBy(Drawn(x, lane), took, offered);
    OfferSeqOk(o, lane, offered, D);
    assert !offer.Nothing? by { NothingIsNone(x.link, lane); }
    OfferGood(x.link, lane, offer, SendOf(o, lane), D);
  }

  lemma NothingIsNone(l: Link, lane: Lane)
    ensures OfferPacket(l, lane, Nothing) == None
  {
  }

  lemma DropDeadSendOk(x: End, lane: Lane)
    requires !x.link.failed && SendsOk(x, lane)
    ensures SendOk(SendOf(DropDead(x.link.out, lane), lane), Drawn(x, lane))
  {
    DropDeadSends(x.link.out, lane, lane);
    hide DropDead, Frags, CursorPos, ForLane;
    FlightShrinks(SendOf(x.link.out, lane), SendOf(DropDead(x.link.out, lane), lane), Drawn(x, lane));
  }

  lemma CommitData(x1: End, x2: End, lane: Lane, p: Packet)
    requires DataOk(x1, lane) && !x1.link.failed && lane != Media && x2.link.failed == x1.link.failed
    requires x2.net == x1.net + {p} && x2.drawn == x1.drawn
    requires GoodData(p, lane, Drawn(x1, lane), x1.link.localId)
    requires Committed(SendOf(x1.link.out, lane), SendOf(x2.link.out, lane))
    requires p.header.sq <= SendOf(x1.link.out, lane).nextSendSeq
    requires SendOf(x1.link.out, lane).lost != [] ==> p.header.sq < SendOf(x1.link.out, lane).nextSendSeq
    ensures DataOk(x2, lane)
  {
    hide Frags, Carries, ForLane, WellFormed, FragmentAt;
  }

  lemma CommitNothingLost(x1: End, x2: End, y: End, lane: Lane)
    requires NothingLost(x1, y, lane) && x2.link.failed == x1.link.failed
    requires Committed(SendOf(x1.link.out, lane), SendOf(x2.link.out, lane))
    ensures NothingLost(x2, y, lane)
  {
    hide FragmentAt;
  }

  lemma CommitLanePair(x1: End, x2: End, y: End, lane: Lane, p: Packet)
    requires Pair(x1, y, lane) && !x1.link.failed && lane != Media && x2.link.failed == x1.link.failed
    requires AllSendable(Drawn(x1, lane), lane) && x2.net == x1.net + {p} && x2.drawn == x1.drawn
    requires GoodData(p, lane, Drawn(x1, lane), x1.link.localId)
    requires Committed(SendOf(x1.link.out, lane), SendOf(x2.link.out, lane))
    requires p.header.sq <= SendOf(x1.link.out, lane).nextSendSeq
    requires SendOf(x1.link.out, lane).lost != [] ==> p.header.sq < SendOf(x1.link.out, lane).nextSendSeq
    ensures Pair(x2, y, lane)
  {
    hide DataOk, LaneInStep, AcksOk, NothingLost, AllSendable, GoodData, SendOk, Committed;
    assert Drawn(x2, lane) == Drawn(x1, lane);
    hide Drawn;
    CommittedSendOk(SendOf(x1.link.out, lane), SendOf(x2.link.out, lane), Drawn(x1, lane), lane);
    CommitData(x1, x2, lane, p);
    CommitNothingLost(x1, x2, y, lane);
  }

  /** A commit, as the other end sees it: x1 is the end after the peek. */
  lemma CommitPair(x1: End, x2: End, y: End, lane: Lane, p: Packet, now: int, k: Lane)
    requires Pair(x1, y, k) && !x1.link.failed && lane != Media && k != Media
    requires Ready(x1.link.out, lane) && Ledger(x1.link.out) && AllSendable(Drawn(x1, lane), lane)
    requires x2 == x1.(link := Commit(x1.link, lane, now), net := x1.net + {p})
    requires GoodData(p, lane, Drawn(x1, lane), x1.link.localId)
    requires p.header.sq <= SendOf(x1.link.out, lane).nextSendSeq
    requires SendOf(x1.link.out, lane).lost != [] ==> p.header.sq < SendOf(x1.link.out, lane).nextSendSeq
    ensures Pair(x2, y, k)
  {
    var o := x1.link.out;
    LedgerParts(o, lane);
    assert IsData(p, lane);
    hide Pair, LaneOk, Ledger, CommitLane, Ready, AllSendable, Committed, GoodData;
    CommitLaneSends(o, lane, now);
    if k == lane {
      CommitLanePair(x1, x2, y, lane, p);
    } else {
      assert Drawn(x2, k) == Drawn(x1, k);
      SameDrawnPair(x1, x2, y, k);
    }
  }

  /** Sending on an acknowledged lane keeps both ends in agreement. */
  lemma SendPair(x: End, y: End, lane: Lane, offered: Option<Message>, now: int, k: Lane, clock: int)
    requires Pair(x, y, k) && SendsOk(x, lane) && NoWrap(x.link) && IdsOk(x.link) && LinkOk(x.link, clock)
    requires lane != Media && k != Media && !x.link.failed
    requires AllSendable(Drawn(x, lane), lane) && (offered.Some? ==> Sendable(offered.value, lane))
    ensures Pair(SendStep(x, lane, offered, now), y, k)
  {
    hide Pair, SendsOk, Ledger, Timed, Frags, Carries, ForLane, AllSendable, Sendable, PeekLane, OfferOf, DropDead,
         CommitLane, Ready, SameFlight;
    PeekPair(x, y, lane, offered, k);
    var r := Peek(x.link, lane, offered);
    var x1 := Peeks(x, r, lane, offered);
    PeekLaneKeeps(x.link.out, lane, offered);
    PeeksDrawn(x, r, lane, offered, lane);
    PeekLaneSends(x.link.out, lane, offered, lane);
    if r.datagram.Some? {
      OfferPair(x, lane, offered);
      CommitPair(x1, SendStep(x, lane, offered, now), y, lane, r.datagram.value, now, k);
    }
  }

  /** Media is sent once and needs no answer: the cursor moves on. */
  lemma MediaSent(x: End, offered: Option<Message>, now: int)
    requires MediaSendsOk(x) && DataOk(x, Media) && !x.link.failed && NoWrap(x.link) && IdsOk(x.link)
    requires AllSendable(Drawn(x, Media), Media) && (offered.Some? ==> Sendable(offered.value, Media))
    ensures var x1, x2 := PeekStep(x, Media, offered), SendStep(x, Media, offered, now);
            && MediaSendsOk(x1) && DataOk(x1, Media) && MediaSendsOk(x2) && DataOk(x2, Media)
            && (forall p :: p in x2.net && p !in x.net ==> IsData(p, Media) && OnWireOk(p, x.link.localId))
  {
    var r := Peek(x.link, Media, offered);
    var x1 := Peeks(x, r, Media, offered);
    PeeksDrawn(x, r, Media, offered, Media);
    hide Frags, ForLane, AllSendable, Sendable, GoodData, DataPacket, FragmentAt, CursorPos;
    DataGrows(x, x1, Media, r.took, offered);
    if r.datagram.Some? {
      var D := Drawn(x1, Media);
      MediaCursorOk(x, offered);
      var c := r.link.mediaCursor.value;
      CursorFragment(c, x.link.nextMediaSeq, D, Media);
      CursorAdvanced(c, x.link.nextMediaSeq, D);
      DataPacketGood(x.link, Media, x.link.nextMediaSeq, D);
      MediaData(x1, SendStep(x, Media, offered, now), r.datagram.value);
    }
  }

  lemma MediaCursorOk(x: End, offered: Option<Message>)
    requires MediaSendsOk(x) && !x.link.failed && AllSendable(Drawn(x, Media), Media)
    requires offered.Some? ==> Sendable(offered.value, Media)
    requires Peek(x.link, Media, offered).datagram.Some?
    ensures var r := Peek(x.link, Media, offered);
            var D := DrawnBy(Drawn(x, Media), r.took, offered);
            && AllSendable(D, Media) && r.link.mediaCursor.Some? && CursorPos(r.link.mediaCursor, x.link.nextMediaSeq, D)
            && r.datagram.value == DataPacket(x.link, Media, x.link.nextMediaSeq, FragmentAt(r.link.mediaCursor.value))
  {
    hide Frags, ForLane, DataPacket, FragmentAt;
    if x.link.mediaCursor.None? {
      CursorDrawn(x.link.nextMediaSeq, Drawn(x, Media), offered.value);
      DrawnSendable(Drawn(x, Media), offered.value, Media);
    }
  }

  lemma MediaData(x1: End, x2: End, p: Packet)
    requires DataOk(x1, Media) && x2.net == x1.net + {p} && x2.drawn == x1.drawn
    requires GoodData(p, Media, Drawn(x1, Media), x1.link.localId)
    ensures DataOk(x2, Media) && OnWireOk(p, x1.link.localId) && IsData(p, Media)
  {
    hide Frags, Carries, ForLane, WellFormed;
  }

  // --- Receiving ----------------------------------------------------------------------------------------------

  /** What comes out of the decoder is what went into the encoder, less the fields that do not travel. */
  lemma ArrivesIs(y: End, p: Packet, id: nat) returns (w: Packet)
    requires Arrives(y, p) && (forall q :: q in y.net ==> OnWireOk(q, id))
    ensures w in y.net && p == Packet(w.header.Canonical(), w.body) && p.header.src == id
    ensures p.header.flags == w.header.flags && p.header.sq == w.header.sq
  {
    hide DecodePacket, EncodePacket, WellFormed;
    w :| w in y.net && DecodePacket(EncodePacket(w)) == Some(p);
    assert OnWireOk(w, id);
    PacketRoundTrip(w);
  }

  lemma CanonicalGood(y: End, w: Packet, lane: Lane)
    requires DataOk(y, lane) && w in y.net && IsData(w, lane)
    ensures var p := Packet(w.header.Canonical(), w.body);
            1 <= p.header.sq <= |Frags(Drawn(y, lane))| && Carries(p, Frags(Drawn(y, lane))[p.header.sq - 1], lane)
  {
    hide Frags, Carries, ForLane;
    CanonicalCarries(w, Frags(Drawn(y, lane))[w.header.sq - 1], lane);
  }

  /** As a receiver x' has what x had, and is in step again. */
  ghost predicate MoreHeld(x: End, x': End, lane: Lane) {
    && x'.link.failed == x.link.failed
    && HeldGrows(RecvOf(x.link.inb, lane), RecvOf(x'.link.inb, lane))
    && (forall p :: (p in x'.net || p in x'.link.pendingAcks) && IsAck(p, lane) ==>
          p in x.net || p in x.link.pendingAcks || AckTrue(p, RecvOf(x'.link.inb, lane)))
  }

  lemma MoreHeldAcks(x: End, x': End, lane: Lane)
    requires AcksOk(x, lane) && MoreHeld(x, x', lane)
    ensures AcksOk(x', lane)
  {
    hide AckTrue, HeldGrows;
    if !x.link.failed {
      forall p | (p in x'.net || p in x'.link.pendingAcks) && IsAck(p, lane)
        ensures AckTrue(p, RecvOf(x'.link.inb, lane))
      {
        if p in x.net || p in x.link.pendingAcks {
          AckStaysTrue(p, RecvOf(x.link.inb, lane), RecvOf(x'.link.inb, lane));
        }
      }
    }
  }

  lemma MoreHeldPair(y: End, x: End, x': End, lane: Lane)
    requires Pair(y, x, lane) && MoreHeld(x, x', lane) && StepsOk(y, x', lane)
    requires !x.link.failed && !y.link.failed ==> Under(RecvOf(x'.link.inb, lane), SendOf(y.link.out, lane).nextSendSeq)
    ensures Pair(y, x', lane)
  {
    MoreHeldAcks(x, x', lane);
    hide SendsOk, DataOk, StepsOk, AcksOk, Under, AckTrue;
  }

  /** A Data packet on the lane, as the sender sees it. */
  lemma DataPair(y: End, x: End, x': End, lane: Lane, p: Packet, w: Packet)
    requires Pair(y, x, lane) && AllSendable(Drawn(y, lane), lane) && lane != Media && !x.link.failed
    requires w in y.net && IsData(w, lane) && p == Packet(w.header.Canonical(), w.body)
    requires x'.link.inb == HandleData(x.link.inb, lane, p) && x'.link.failed == x.link.failed && x'.log == x.log
    requires x'.net == x.net && x'.link.pendingAcks == x.link.pendingAcks
    ensures Pair(y, x', lane)
  {
    hide Frags, Carries, LaneInStep, HandleData, AllSendable, AllTakeable, DrainResult, AcksOk, NothingLost, SendsOk,
         HeldGrows, TakeData, Retried, ForLane, Under, AckTrue;
    var D := Drawn(y, lane);
    CanonicalGood(y, w, lane);
    SendableTakeable(D, lane);
    HandleDataIs(x.link.inb, lane, p);
    HandleDataOk(x.link.inb, x.log, D, lane, p);
    WithIntakeLane(x.link.inb, x.log, D, lane, TakeData(Retried(IntakeOf(x.link.inb, lane), lane), lane, p));
    if !y.link.failed {
      UnderOf(y, x, lane);
      HandleDataUnder(x.link.inb, lane, p, SendOf(y.link.out, lane).nextSendSeq);
    }
    hide DataOk;
    MoreHeldPair(y, x, x', lane);
  }

  lemma HandleDataIs(i: Inbound, lane: Lane, p: Packet)
    ensures HandleData(i, lane, p) == WithIntake(i, lane, TakeData(Retried(IntakeOf(i, lane), lane), lane, p))
  {
    hide TakeData, Retried;
  }

  lemma UnderOf(y: End, x: End, lane: Lane)
    requires NothingLost(y, x, lane) && !y.link.failed && !x.link.failed
    ensures Under(RecvOf(x.link.inb, lane), SendOf(y.link.out, lane).nextSendSeq)
  {
  }

  lemma SendableTakeable(D: seq<Message>, lane: Lane)
    requires AllSendable(D, lane)
    ensures AllTakeable(D)
  {
  }

  /** ... and as the sender of any other lane sees it. */
  lemma DataOtherPair(y: End, x: End, x': End, lane: Lane, p: Packet, w: Packet, k: Lane)
    requires Pair(y, x, lane) && Pair(y, x, k) && AllSendable(Drawn(y, lane), lane) && lane != Media && !x.link.failed && k != lane
    requires w in y.net && IsData(w, lane) && p == Packet(w.header.Canonical(), w.body)
    requires x'.link.inb == HandleData(x.link.inb, lane, p) && x'.link.failed == x.link.failed && x'.log == x.log
    requires x'.net == x.net && x'.link.pendingAcks == x.link.pendingAcks
    ensures Pair(y, x', k) && Got(x', k) == Got(x, k)
  {
    var D := Drawn(y, lane);
    CanonicalGood(y, w, lane);
    SendableTakeable(D, lane);
    hide Frags, Carries, LaneInStep, HandleData, AllSendable, AllTakeable, IntakeOk, GapOk, AcksOk, SendsOk,
         TakeData, Retried, ForLane, Held;
    HandleDataOk(x.link.inb, x.log, D, lane, p);
    var c := TakeData(Retried(IntakeOf(x.link.inb, lane), lane), lane, p);
    assert ForLane(x.log + c.delivered, k) == ForLane(x.log + x.link.inb.delivered, k);
    WithIntakeOther(x.link.inb, x.log, D, lane, c, k, Drawn(y, k));
    hide DataOk;
    assert HeldGrows(RecvOf(x.link.inb, k), RecvOf(x'.link.inb, k));
    MoreHeldPair(y, x, x', k);
  }

  lemma HandleMediaDelivered(i: Inbound, log: seq<LaneMessage>, p: Packet, k: Lane)
    requires k != Media
    ensures ForLane(log + HandleMedia(i, p).delivered, k) == ForLane(log + i.delivered, k)
  {
    hide AcceptMedia;
    var message := AcceptMedia(i.media, p.header, p.body).1;
    if message.Some? {
      assert log + (i.delivered + [LaneMessage(Media, message.value)]) == (log + i.delivered) + [LaneMessage(Media, message.value)];
      ForLaneAppend(log + i.delivered, LaneMessage(Media, message.value), k);
    }
  }

  /** Media leaves the acknowledged lanes alone. */
  lemma MediaOtherPair(y: End, x: End, x': End, p: Packet, k: Lane)
    requires Pair(y, x, k) && k != Media
    requires x'.link.inb == HandleMedia(x.link.inb, p) && x'.link.failed == x.link.failed && x'.log == x.log
    requires x'.net == x.net && x'.link.pendingAcks == x.link.pendingAcks
    ensures Pair(y, x', k)
  {
    HandleMediaDelivered(x.link.inb, x.log, p, k);
    hide AcceptMedia, ForLane, SendsOk, DataOk, InStep, Buffered, GapOk, AckTrue, Held, Under;
    assert RecvOf(x'.link.inb, k) == RecvOf(x.link.inb, k);
  }

  lemma MediaReceived(y: End, x: End, x': End, p: Packet, w: Packet)
    requires MediaPair(y, x)
    requires w in y.net && IsData(w, Media) && p == Packet(w.header.Canonical(), w.body)
    requires x'.link.inb == HandleMedia(x.link.inb, p) && x'.log == x.log
    ensures MediaPair(y, x')
  {
    hide AcceptMedia, MediaOk, Frags, Carries, MediaSendsOk, DataOk, Drawn;
    var D, i := Drawn(y, Media), x.link.inb;
    CanonicalGood(y, w, Media);
    AcceptMediaIntegrity(i.media, D, p, p.header.sq - 1);
    var message := AcceptMedia(i.media, p.header, p.body).1;
    if message.Some? {
      assert x.log + (i.delivered + [LaneMessage(Media, message.value)]) == (x.log + i.delivered) + [LaneMessage(Media, message.value)];
      ForLaneAppend(x.log + i.delivered, LaneMessage(Media, message.value), Media);
    }
  }

  /** Fewer packets are in flight, and the other end has those that are gone. */
  lemma ThinnedPair(x: End, x': End, y: End, k: Lane)
    requires Pair(x, y, k) && x'.link.failed == x.link.failed && x'.drawn == x.drawn && x'.net == x.net
    requires Thinned(SendOf(x.link.out, k), SendOf(x'.link.out, k))
    requires !x.link.failed && !y.link.failed ==>
      forall q :: q in SendOf(x.link.out, k).inFlight && q !in SendOf(x'.link.out, k).inFlight ==> Held(RecvOf(y.link.inb, k), q)
    ensures Pair(x', y, k)
  {
    assert Drawn(x', k) == Drawn(x, k);
    if !x.link.failed {
      ThinnedSendOk(SendOf(x.link.out, k), SendOf(x'.link.out, k), Drawn(x, k));
    }
    hide SendOk, Frags, Carries, ForLane, LaneInStep, Held, Under, AcksOk;
  }

  /** An Ack: what it takes out of flight, its sender has. */
  lemma AckPair(x: End, x': End, y: End, lane: Lane, w: Packet, ack: AckBody, now: int, k: Lane, clock: int)
    requires Pair(x, y, k) && Pair(x, y, lane) && Ledger(x.link.out) && Timed(x.link.out, clock) && lane != Media && k != Media
    requires w in y.net && IsAck(w, lane) && DecodeAck(w.body) == Some(ack)
    requires x'.link.out == HandleAck(x.link.out, lane, w.header.sq, w.header.flags.paused, ack, now)
    requires x'.link.failed == x.link.failed && x'.drawn == x.drawn && x'.net == x.net
    ensures Pair(x', y, k)
  {
    HandleAckSends(x.link.out, lane, w.header.sq, w.header.flags.paused, ack, now, k, clock);
    hide HandleAck, Ledger, Timed, Named, Held, Thinned, DecodeAck, SendsOk, DataOk, StepsOk, NothingLost;
    if !y.link.failed {
      assert AckTrue(w, RecvOf(y.link.inb, lane));
    }
    hide AcksOk;
    ThinnedPair(x, x', y, k);
  }

  /** The timer only marks packets as lost. */
  lemma TimerPair(x: End, x': End, y: End, now: int, k: Lane, clock: int)
    requires Pair(x, y, k) && Ledger(x.link.out) && Timed(x.link.out, clock) && k != Media
    requires x'.link.out == TimedOut(x.link.out, x.link.timings.maxRto, now)
    requires x'.link.failed == x.link.failed && x'.drawn == x.drawn && x'.net == x.net
    ensures Pair(x', y, k)
  {
    TimedOutSends(x.link.out, x.link.timings.maxRto, now, k, clock);
    hide Pair, TimedOut, Ledger, Timed, Thinned;
    ThinnedPair(x, x', y, k);
  }

  /** A link that failed: what it delivered stays, what it sent stays on the wire. */
  lemma FailSender(x: End, x': End, y: End, k: Lane)
    requires Pair(x, y, k) && x'.link.failed && x'.drawn == x.drawn && x'.net == x.net
    ensures Pair(x', y, k)
  {
    assert Drawn(x', k) == Drawn(x, k);
    hide Frags, Carries, ForLane, LaneInStep, AcksOk;
  }

  lemma FailReceiver(y: End, x: End, x': End, k: Lane)
    requires Pair(y, x, k) && x'.link.failed && x'.log == x.log && x'.link.inb.delivered == x.link.inb.delivered
    ensures Pair(y, x', k)
  {
    if !x.link.failed {
      StepHasNext(x.link.inb, x.log, Drawn(y, k), k);
    }
    hide SendsOk, DataOk, ForLane, LaneInStep;
  }

  lemma FailMedia(x: End, x': End, y: End)
    requires MediaPair(x, y) && MediaPair(y, x) && x'.link.failed && x'.drawn == x.drawn && x'.net == x.net && x'.log == x.log
    requires x'.link.inb.delivered == x.link.inb.delivered && x'.link.inb.media == NO_MEDIA
    ensures MediaPair(x', y) && MediaPair(y, x')
  {
    assert Drawn(x', Media) == Drawn(x, Media) && Got(x', Media) == Got(x, Media);
    assert MediaOk(NO_MEDIA, Drawn(y, Media));
    hide MediaOk, Frags, Carries, ForLane, CursorPos;
  }

  // --- Acks -------------------------------------------------------------------------------------------------------

  /** The lane has room for what an Ack has to say in 64 bits. */
  ghost predicate AckFits(l: Link, lane: Lane) { RecvOf(l.inb, lane).nextExpected + 2 * Window(lane) < U64 }

  lemma RetryHeld(i: Inbound, log: seq<LaneMessage>, D: seq<Message>, lane: Lane)
    requires LaneInStep(i, log, D, lane) && AllTakeable(D)
    ensures var i' := RetryRefused(i, lane);
            && LaneInStep(i', log, D, lane) && HeldGrows(RecvOf(i, lane), RecvOf(i', lane))
            && (forall n :: Under(RecvOf(i, lane), n) ==> Under(RecvOf(i', lane), n))
            && 1 <= RecvOf(i', lane).nextExpected <= RecvOf(i, lane).nextExpected + Window(lane)
            && Buffered(RecvOf(i', lane), D, lane)
  {
    var c := IntakeOf(i, lane);
    StepHasNext(i, log, D, lane);
    RetriedOk(c, log, D, lane);
    RetriedHasNext(c, lane);
    assert Under(c.recv, c.recv.nextExpected + Window(lane));
    forall n | Under(c.recv, n)
      ensures Under(Retried(c, lane).recv, n)
    {
      RetriedUnder(c, lane, n);
    }
    hide Retried, InStep, GapOk, ForLane, MayRetry, Frags, Carries, HeldGrows, Buffered;
    if MayRetry(c) {
      WithIntakeLane(i, log, D, lane, Retried(c, lane));
    } else {
      assert RetryRefused(i, lane) == i;
      SelfHeld(RecvOf(i, lane));
    }
  }

  lemma SelfHeld(r: RecvSide)
    ensures HeldGrows(r, r)
  {
  }

  lemma RetryOther(i: Inbound, log: seq<LaneMessage>, D: seq<Message>, lane: Lane, k: Lane, D': seq<Message>)
    requires LaneInStep(i, log, D, lane) && AllTakeable(D) && LaneInStep(i, log, D', k) && k != lane
    ensures var i' := RetryRefused(i, lane);
            LaneInStep(i', log, D', k) && RecvOf(i', k) == RecvOf(i, k) && ForLane(log + i'.delivered, k) == ForLane(log + i.delivered, k)
  {
    var c := IntakeOf(i, lane);
    RetriedOk(c, log, D, lane);
    hide Retried, IntakeOk, GapOk, ForLane, MayRetry, AllTakeable, HeldGrows;
    WithIntakeOther(i, log, D, lane, Retried(c, lane), k, D');
  }

  lemma RetryMedia(i: Inbound, log: seq<LaneMessage>, D: seq<Message>, lane: Lane)
    requires LaneInStep(i, log, D, lane) && AllTakeable(D) && lane != Media
    ensures ForLane(log + RetryRefused(i, lane).delivered, Media) == ForLane(log + i.delivered, Media)
    ensures RetryRefused(i, lane).media == i.media
  {
    var c := IntakeOf(i, lane);
    RetriedOk(c, log, D, lane);
    hide Retried, IntakeOk, GapOk, ForLane, MayRetry, AllTakeable, HeldGrows, LaneInStep;
  }

  /** The inbound half and the pending packets after a lane was answered. */
  lemma AnswerIs(l: Link, lane: Lane)
    ensures var l', l1 := AnswerLane(l, lane), l.(inb := RetryRefused(l.inb, lane), ackSerial := (l.ackSerial + 1) % U32);
            && l'.inb == (if lane in l.ackDue then RetryRefused(l.inb, lane) else l.inb)
            && l'.pendingAcks == l.pendingAcks + (if lane in l.ackDue then [AckPacket(l1, lane, l1.ackSerial)] else [])
                                               + (if lane in l.pingDue then [PingPacket(l, lane)] else [])
  {
    hide RetryRefused, AckPacket, PingPacket;
  }

  lemma AckIsAck(l: Link, lane: Lane, serial: nat)
    ensures IsAck(AckPacket(l, lane, serial), lane) && PingPacket(l, lane).header.flags.kind == Ping
    ensures AckPacket(l, lane, serial).header.src == l.localId && PingPacket(l, lane).header.src == l.localId
  {
    hide EncodeAck, WaitingRanges;
  }

  /** A packet pending after the answer was pending before, or is the new Ack, or a Ping. */
  lemma AnswerPending(l: Link, lane: Lane, p: Packet)
    requires p in AnswerLane(l, lane).pendingAcks
    ensures var l1 := l.(inb := RetryRefused(l.inb, lane), ackSerial := (l.ackSerial + 1) % U32);
            || p in l.pendingAcks
            || (lane in l.ackDue && p == AckPacket(l1, lane, l1.ackSerial))
            || p == PingPacket(l, lane)
  {
    AnswerIs(l, lane);
    hide AnswerLane, RetryRefused, AckPacket, PingPacket;
  }

  /** Answering a lane, as the sender on that lane sees it: the Ack tells the truth. */
  lemma AnswerPair(y: End, x: End, lane: Lane)
    requires Pair(y, x, lane) && !x.link.failed && lane != Media && AllSendable(Drawn(y, lane), lane)
    requires AckFits(x.link, lane) && x.link.inb.mediaReceived < U32
    ensures Pair(y, x.(link := AnswerLane(x.link, lane)), lane)
  {
    hide AnswerLane, RetryRefused, AckPacket, PingPacket, LaneInStep, HeldGrows, AllSendable, AllTakeable, Under,
         AckTrue, Buffered, SendsOk, DataOk, AcksOk, Drawn, Got, NothingLost;
    var l, x' := x.link, x.(link := AnswerLane(x.link, lane));
    AnswerIs(l, lane);
    AnswerInStep(y, x, lane);
    AnswerLaneOut(l, lane);
    forall p | p in x'.link.pendingAcks && IsAck(p, lane)
      ensures p in x.link.pendingAcks || AckTrue(p, RecvOf(x'.link.inb, lane))
    {
      AnswerPending(l, lane, p);
      AckIsAck(l, lane, 0);
    }
    MoreHeldPair(y, x, x', lane);
  }

  /** The receiving half after the answer, and the Ack. */
  lemma AnswerInStep(y: End, x: End, lane: Lane)
    requires Pair(y, x, lane) && !x.link.failed && lane != Media && AllSendable(Drawn(y, lane), lane)
    requires AckFits(x.link, lane) && x.link.inb.mediaReceived < U32
    ensures var l, inb := x.link, AnswerLane(x.link, lane).inb;
      var l1 := l.(inb := RetryRefused(l.inb, lane), ackSerial := (l.ackSerial + 1) % U32);
      && LaneInStep(inb, x.log, Drawn(y, lane), lane) && HeldGrows(RecvOf(l.inb, lane), RecvOf(inb, lane))
      && (!y.link.failed ==> Under(RecvOf(inb, lane), SendOf(y.link.out, lane).nextSendSeq))
      && AckTrue(AckPacket(l1, lane, l1.ackSerial), RecvOf(l1.inb, lane))
  {
    hide AnswerLane, RetryRefused, AckPacket, PingPacket, LaneInStep, HeldGrows, AllSendable, AllTakeable, Under,
         AckTrue, Buffered, SendsOk, DataOk, AcksOk, Drawn, Got, NothingLost;
    var l, D := x.link, Drawn(y, lane);
    AnswerIs(l, lane);
    SendableTakeable(D, lane);
    RetryHeld(l.inb, x.log, D, lane);
    SelfHeld(RecvOf(l.inb, lane));
    RetryRefusedRest(l.inb, lane);
    var l1 := l.(inb := RetryRefused(l.inb, lane), ackSerial := (l.ackSerial + 1) % U32);
    AckPacketTrue(l1, lane, l1.ackSerial, D);
    if !y.link.failed { UnderOf(y, x, lane); }
  }

  /** ... and as the senders on the other lanes see it. */
  lemma AnswerOtherPair(y: End, x: End, lane: Lane, k: Lane)
    requires Pair(y, x, lane) && Pair(y, x, k) && !x.link.failed && lane != Media && k != lane && AllSendable(Drawn(y, lane), lane)
    ensures Pair(y, x.(link := AnswerLane(x.link, lane)), k)
    ensures RecvOf(AnswerLane(x.link, lane).inb, k) == RecvOf(x.link.inb, k)
  {
    var l, D, x' := x.link, Drawn(y, lane), x.(link := AnswerLane(x.link, lane));
    AnswerIs(l, lane);
    SendableTakeable(D, lane);
    RetryOther(l.inb, x.log, D, lane, k, Drawn(y, k));
    AnswerLaneOut(l, lane);
    SelfHeld(RecvOf(l.inb, k));
    var l1 := l.(inb := RetryRefused(l.inb, lane), ackSerial := (l.ackSerial + 1) % U32);
    hide AnswerLane, RetryRefused, AckPacket, PingPacket, LaneInStep, HeldGrows, AllSendable, AllTakeable, Under,
         AckTrue, SendsOk, DataOk, AcksOk, ForLane;
    forall p | p in x'.link.pendingAcks && IsAck(p, k)
      ensures p in x.link.pendingAcks
    {
      AnswerPending(l, lane, p);
      AckIsAck(l1, lane, l1.ackSerial);
      AckIsAck(l, lane, 0);
    }
    if !y.link.failed {
      UnderOf(y, x, k);
    }
    hide NothingLost;
    MoreHeldPair(y, x, x', k);
  }

  lemma AnswerMedia(y: End, x: End, lane: Lane)
    requires Pair(y, x, lane) && MediaPair(y, x) && !x.link.failed && lane != Media && AllSendable(Drawn(y, lane), lane)
    ensures MediaPair(y, x.(link := AnswerLane(x.link, lane)))
  {
    var l, D := x.link, Drawn(y, lane);
    AnswerIs(l, lane);
    SendableTakeable(D, lane);
    RetryMedia(l.inb, x.log, D, lane);
    hide AnswerLane, RetryRefused, AckPacket, PingPacket, LaneInStep, AllSendable, AllTakeable, DataOk, MediaOk,
         MediaSendsOk, ForLane;
  }

  /** What the answers to one lane need and leave. */
  ghost predicate AnswersOk(x: End, y: End) {
    && (forall k :: k != Media ==> Pair(y, x, k)) && MediaPair(y, x) && !x.link.failed
    && (forall k :: k != Media ==> AllSendable(Drawn(y, k), k))
    && x.link.inb.mediaReceived < U32 && IdsOk(x.link) && BudgetOk(x.link.inb)
    && (forall p :: p in x.link.pendingAcks ==> OnWireOk(p, x.link.localId) && p.header.flags.kind != Data)
  }

  lemma AnswerWire(l: Link, lane: Lane, p: Packet)
    requires lane != Media && IdsOk(l) && p in AnswerLane(l, lane).pendingAcks
    requires RecvOf(RetryRefused(l.inb, lane), lane).nextExpected < U64
    requires var l1 := l.(inb := RetryRefused(l.inb, lane), ackSerial := (l.ackSerial + 1) % U32);
      DecodeAck(AckPacket(l1, lane, l1.ackSerial).body).Some?
    ensures p in l.pendingAcks || (OnWireOk(p, l.localId) && p.header.flags.kind != Data)
  {
    AnswerPending(l, lane, p);
    var l1 := l.(inb := RetryRefused(l.inb, lane), ackSerial := (l.ackSerial + 1) % U32);
    hide AnswerLane, RetryRefused, AckPacket, PingPacket, WellFormed, DecodeAck;
    AckPacketWellFormed(l1, lane, l1.ackSerial);
    PingPacketWellFormed(l, lane);
    AckIsAck(l1, lane, l1.ackSerial);
    AckIsAck(l, lane, 0);
  }

  lemma AnswerPairs(x: End, y: End, lane: Lane, k: Lane)
    requires AnswersOk(x, y) && lane != Media && k != Media && AckFits(x.link, lane)
    ensures Pair(y, x.(link := AnswerLane(x.link, lane)), k)
  {
    hide AnswerLane, AllSendable, OnWireOk, Pair, MediaPair, BudgetOk;
    if k == lane {
      AnswerPair(y, x, lane);
    } else {
      AnswerOtherPair(y, x, lane, k);
    }
  }

  lemma AnswerPendingOk(x: End, y: End, lane: Lane, p: Packet)
    requires AnswersOk(x, y) && lane != Media && AckFits(x.link, lane) && p in AnswerLane(x.link, lane).pendingAcks
    ensures OnWireOk(p, x.link.localId) && p.header.flags.kind != Data
  {
    hide AnswerLane, OnWireOk, Pair, MediaPair, BudgetOk, RetryRefused, AllTakeable, AllSendable, DecodeAck, AckPacket;
    SendableTakeable(Drawn(y, lane), lane);
    assert Pair(y, x, lane);
    RetryHeldOf(y, x, lane);
    AckBodyDecodes(y, x, lane);
    AnswerWire(x.link, lane, p);
  }

  /** The Ack that answers the lane has a body its receiver can read. */
  lemma AckBodyDecodes(y: End, x: End, lane: Lane)
    requires Pair(y, x, lane) && !x.link.failed && lane != Media && AllTakeable(Drawn(y, lane))
    requires AckFits(x.link, lane) && x.link.inb.mediaReceived < U32
    ensures var l1 := x.link.(inb := RetryRefused(x.link.inb, lane), ackSerial := (x.link.ackSerial + 1) % U32);
      DecodeAck(AckPacket(l1, lane, l1.ackSerial).body).Some?
  {
    hide RetryRefused, AckPacket, LaneInStep, HeldGrows, AllTakeable, Under, Buffered, SendsOk, DataOk, AcksOk, DecodeAck,
         NothingLost, AckTrue, Drawn, Got;
    var l := x.link;
    RetryHeld(l.inb, x.log, Drawn(y, lane), lane);
    RetryRefusedRest(l.inb, lane);
    var l1 := l.(inb := RetryRefused(l.inb, lane), ackSerial := (l.ackSerial + 1) % U32);
    AckPacketTrue(l1, lane, l1.ackSerial, Drawn(y, lane));
    TrueDecodes(AckPacket(l1, lane, l1.ackSerial), RecvOf(l1.inb, lane));
  }

  lemma TrueDecodes(p: Packet, r: RecvSide)
    requires AckTrue(p, r)
    ensures DecodeAck(p.body).Some?
  {
  }

  lemma RetryRefusedRest(i: Inbound, lane: Lane)
    ensures RetryRefused(i, lane).mediaReceived == i.mediaReceived
  {
    hide Retried, MayRetry;
  }

  lemma AnswerBudget(l: Link, lane: Lane)
    requires lane != Media && BudgetOk(l.inb)
    ensures BudgetOk(AnswerLane(l, lane).inb)
    ensures forall k :: k != lane && AckFits(l, k) ==> AckFits(AnswerLane(l, lane), k)
  {
    AnswerIs(l, lane);
    RetryRefusedBudget(l.inb, lane);
    hide AnswerLane, RetryRefused, BudgetOk, AckPacket, PingPacket;
    forall k | k != lane
      ensures RecvOf(AnswerLane(l, lane).inb, k) == RecvOf(l.inb, k)
    {
      RetryRecv(l.inb, lane, k);
    }
  }

  lemma AnswerStep(x: End, y: End, lane: Lane)
    requires AnswersOk(x, y) && lane != Media && AckFits(x.link, lane)
    ensures AnswersOk(x.(link := AnswerLane(x.link, lane)), y)
    ensures forall k :: k != lane && AckFits(x.link, k) ==> AckFits(AnswerLane(x.link, lane), k)
  {
    hide AnswerLane, AllSendable, OnWireOk, Pair, MediaPair, BudgetOk, AckFits;
    var x' := x.(link := AnswerLane(x.link, lane));
    forall k | k != Media
      ensures Pair(y, x', k)
    {
      AnswerPairs(x, y, lane, k);
    }
    assert Pair(y, x, lane);
    AnswerMedia(y, x, lane);
    AnswerLaneOut(x.link, lane);
    AnswerBudget(x.link, lane);
    forall p | p in x'.link.pendingAcks
      ensures OnWireOk(p, x.link.localId) && p.header.flags.kind != Data
    {
      AnswerPendingOk(x, y, lane, p);
    }
  }

  lemma RetryRecv(i: Inbound, lane: Lane, k: Lane)
    requires k != lane
    ensures RecvOf(RetryRefused(i, lane), k) == RecvOf(i, k)
  {
    hide Retried, MayRetry;
  }

  lemma RetryHeldOf(y: End, x: End, lane: Lane)
    requires Pair(y, x, lane) && !x.link.failed && AllTakeable(Drawn(y, lane)) && AckFits(x.link, lane)
    ensures RecvOf(RetryRefused(x.link.inb, lane), lane).nextExpected < U64
  {
    hide RetryRefused, LaneInStep, AllTakeable;
    RetryHeld(x.link.inb, x.log, Drawn(y, lane), lane);
  }

  /** Building what is due keeps both ends in agreement. */
  lemma PeekAckAnswers(x: End, y: End)
    requires AnswersOk(x, y) && NoWrap(x.link)
    ensures AnswersOk(x.(link := PeekAck(x.link)), y)
  {
    assert AckFits(x.link, Control) && AckFits(x.link, Reliable) && AckFits(x.link, Bulk);
    if x.link.pendingAcks == [] {
      hide AnswersOk, AnswerLane, NoWrap, AckFits;
      AnswerStep(x, y, Control);
      var x1 := x.(link := AnswerLane(x.link, Control));
      AnswerStep(x1, y, Reliable);
      var x2 := x.(link := AnswerLane(x1.link, Reliable));
      AnswerStep(x2, y, Bulk);
      var x3 := x.(link := AnswerLane(x2.link, Bulk));
      assert !x.link.failed by { AnswersNotFailed(x, y); }
      DueCleared(x3, y);
    }
  }

  lemma AnswersNotFailed(x: End, y: End)
    requires AnswersOk(x, y)
    ensures !x.link.failed
  {
  }

  lemma DueCleared(x: End, y: End)
    requires AnswersOk(x, y)
    ensures AnswersOk(x.(link := x.link.(ackDue := {}, pingDue := {})), y)
  {
    var x' := x.(link := x.link.(ackDue := {}, pingDue := {}));
    assert SameReceiver(x, x');
    hide Pair, MediaPair, AllSendable, OnWireOk;
    forall k | k != Media
      ensures Pair(y, x', k)
    {
      SameReceiverPair(y, x, x', k);
    }
    SameReceiverMedia(y, x, x');
  }

  // --- The whole system ---------------------------------------------------------------------------------------------

  /** Both ends agree in both directions. */
  ghost predicate Agreed(x: End, y: End) {
    && (forall k :: k != Media ==> Pair(x, y, k)) && (forall k :: k != Media ==> Pair(y, x, k))
    && MediaPair(x, y) && MediaPair(y, x)
  }

  ghost predicate SystemOk(x: End, y: End, clock: int) {
    EndOk(x, y.link.localId, clock) && EndOk(y, x.link.localId, clock) && Agreed(x, y)
  }

  /** x' differs from x in what it sends only. */
  lemma SendingAgreed(x: End, x': End, y: End)
    requires Agreed(x, y) && SameReceiver(x, x') && (forall k :: k != Media ==> Pair(x', y, k)) && MediaPair(x', y)
    ensures Agreed(x', y)
  {
    hide Pair, MediaPair, SameReceiver;
    forall k | k != Media
      ensures Pair(y, x', k)
    {
      SameReceiverPair(y, x, x', k);
    }
    SameReceiverMedia(y, x, x');
  }

  /** x' differs from x in what it receives only. */
  lemma ReceivingAgreed(x: End, x': End, y: End)
    requires Agreed(x, y) && SameSender(x, x') && (forall k :: k != Media ==> Pair(y, x', k)) && MediaPair(y, x')
    ensures Agreed(x', y)
  {
    hide Pair, MediaPair, SameSender;
    forall k | k != Media
      ensures Pair(x', y, k)
    {
      SameSenderPair(x, x', y, k);
    }
    SameSenderMedia(x, x', y);
  }

  lemma PassiveAgreed(x: End, x': End, y: End)
    requires Agreed(x, y) && SameSender(x, x') && SameReceiver(x, x')
    ensures Agreed(x', y)
  {
    hide Pair, MediaPair, SameSender, SameReceiver;
    forall k | k != Media
      ensures Pair(y, x', k)
    {
      SameReceiverPair(y, x, x', k);
    }
    SameReceiverMedia(y, x, x');
    ReceivingAgreed(x, x', y);
  }
}
