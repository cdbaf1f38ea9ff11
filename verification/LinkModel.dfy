/** What a link keeps, and what every one of its operations makes of it. */
module LinkModel {
  import opened Transport
  import opened PacketFlags
  import opened PacketHeader
  import opened AckRanges
  import opened SequenceBuffer
  import opened Fragments
  import opened MessageAssembler
  import opened MediaAssembler
  import opened RttEstimator

  datatype Timings = Timings(
    initialRto: int, minRto: int, maxRto: int, peerTimeout: int, keepAlive: int, initialCwnd: nat, fixedCwnd: nat)

  /** A message of a lane: drawn from the source on one side, delivered on the other. */
  datatype LaneMessage = LaneMessage(lane: Lane, message: Message)

  /** A packet that was sent and is not acknowledged yet. */
  datatype InFlight = InFlight(fragment: Fragment, transmissions: nat, lost: bool, sentAt: int, transmission: nat)

  /** The message that is being cut into fragments. */
  datatype Cursor = Cursor(message: Message, count: nat, next: nat)

  /** An entry of the transmission log. */
  datatype SentRecord = SentRecord(transmission: nat, sq: nat, lane: Lane)

  datatype SendSide = SendSide(
    cursor: Option<Cursor>,
    inFlight: map<nat, InFlight>,
    lost: seq<nat>, // marked as lost, sent again from the front on
    nextSendSeq: nat,
    sendBase: nat, // nothing below it is in flight
    onTheWire: int, // how many in flight are not marked as lost
    peerPaused: bool,
    ackSerial: Option<nat>,
    probeAt: Option<int>,
    probeInterval: int)

  datatype RecvSide = RecvSide(
    reorder: map<nat, Packet>,
    nextExpected: nat,
    budgetPaused: bool, // set by a refusal, cleared by a retry
    refusedLength: nat,
    assembler: Assembler)

  const NEW_SEND := SendSide(None, map[], [], 1, 1, 0, false, None, None, 0)
  const NEW_RECV := RecvSide(map[], 1, false, 0, IDLE)

  /** The sending half of all acknowledged lanes, with loss detection and congestion control for all of them together. */
  datatype Outbound = Outbound(
    fixedCwnd: nat,
    sends: map<Lane, SendSide>,
    sent: seq<SentRecord>, // by transmission number, ascending
    transmissions: nat,
    largestAcked: nat,
    stalledSince: Option<int>,
    timeoutsInARow: nat,
    rtt: Rtt,
    cwnd: real,
    recoveryStart: nat) // the number of transmissions when the window was last halved

  /** The receiving half. */
  datatype Inbound = Inbound(
    recvs: map<Lane, RecvSide>,
    budget: Option<Budget>,
    media: MediaState,
    mediaReceived: nat,
    delivered: seq<LaneMessage>)

  /** A stream comes into being with the first use of either of its halves. */
  datatype Link = Link(
    timings: Timings,
    localId: nat,
    remoteId: Option<nat>,
    out: Outbound,
    inb: Inbound,
    mediaCursor: Option<Cursor>,
    nextMediaSeq: nat,
    lastReceived: Option<int>,
    pingedAt: int,
    paused: bool,
    ackSerial: nat,
    ackDue: set<Lane>,
    pingDue: set<Lane>,
    pendingAcks: seq<Packet>,
    failed: bool)

  function SendOf(o: Outbound, lane: Lane): SendSide { if lane in o.sends then o.sends[lane] else NEW_SEND }

  function RecvOf(i: Inbound, lane: Lane): RecvSide { if lane in i.recvs then i.recvs[lane] else NEW_RECV }

  predicate StreamExists(l: Link, lane: Lane) { lane in l.out.sends || lane in l.inb.recvs }

  function WithSend(o: Outbound, lane: Lane, s: SendSide): Outbound { o.(sends := o.sends[lane := s]) }

  predicate SharesWindow(lane: Lane) { lane == Reliable || lane == Bulk }

  function InitialWindow(t: Timings): real {
    (if t.fixedCwnd > 0 then t.fixedCwnd else Max(MIN_CWND, Min(t.initialCwnd, MAX_CWND))) as real
  }

  function NewOutbound(t: Timings): Outbound {
    Outbound(t.fixedCwnd, map[], [], 0, 0, None, 0, NewRtt(t.initialRto, t.minRto, t.maxRto), InitialWindow(t), 0)
  }

  function NewInbound(budget: Option<Budget>): Inbound { Inbound(map[], budget, NO_MEDIA, 0, []) }

  function NewLink(t: Timings, localId: nat, budget: Option<Budget>): Link {
    Link(t, localId, None, NewOutbound(t), NewInbound(budget), None, 1, None, 0, false, 0, {}, {}, [], false)
  }

  // --- Packets --------------------------------------------------------------------------

  function MakeHeader(l: Link, flags: Flags, q: nat): Header {
    Header(flags, l.localId, if l.remoteId.Some? then l.remoteId.value else 0, q, 0, 0, 0, 0)
  }

  function HeaderOf(l: Link, lane: Lane, q: nat, f: Fragment): Header {
    var h := MakeHeader(l, DataFlags(lane), q).(tag := f.tag);
    if f.count > 1 then
      h.(flags := SetFragment(h.flags, true, f.index + 1 == f.count),
         fragIndex := f.index, fragCount := f.count, totalLength := f.total)
    else h
  }

  function DataPacket(l: Link, lane: Lane, q: nat, f: Fragment): Packet { Packet(HeaderOf(l, lane, q, f), f.body) }

  function CursorFor(m: Message): Cursor { Cursor(m, Count(m), 0) }

  /** The fragment the cursor stands at, in the widths of its fields. */
  function FragmentAt(c: Cursor): Fragment {
    var size, offset := |c.message.body|, c.next * MAX_FRAGMENT;
    Fragment(c.message.tag, size % U32, c.next % U16, c.count % U16,
             if offset <= size then c.message.body[offset..Min(offset + MAX_FRAGMENT, size)] else [])
  }

  function Advanced(c: Cursor): Option<Cursor> {
    if c.next + 1 >= c.count then None else Some(c.(next := c.next + 1))
  }

  // --- Sending --------------------------------------------------------------------------

  predicate WaitsAsLost(s: SendSide, q: nat) { q in s.inFlight && s.inFlight[q].lost }

  /** Seqs that were acknowledged while they waited leave the front of the queue. */
  function LiveLost(s: SendSide, lost: seq<nat>): (r: seq<nat>)
    ensures r != [] ==> WaitsAsLost(s, r[0])
  {
    if lost == [] || WaitsAsLost(s, lost[0]) then lost else LiveLost(s, lost[1..])
  }

  function NextLost(s: SendSide): SendSide { s.(lost := LiveLost(s, s.lost)) }

  function OnWire(o: Outbound): int { SendOf(o, Reliable).onTheWire + SendOf(o, Bulk).onTheWire }

  predicate CongestionOpen(o: Outbound, lane: Lane) { SharesWindow(lane) ==> OnWire(o) < o.cwnd.Floor }

  /** Nothing may go out on the lane right now, with the queue of lost seqs as it stands. */
  predicate HeldBack(o: Outbound, lane: Lane) {
    var s := SendOf(o, lane);
    || (s.lost == [] && s.nextSendSeq - s.sendBase >= Window(lane))
    || s.peerPaused
    || !CongestionOpen(o, lane)
  }

  /** The queue of lost seqs starts with one that still waits. */
  predicate FrontWaits(s: SendSide) { s.lost != [] ==> WaitsAsLost(s, s.lost[0]) }

  function DropDead(o: Outbound, lane: Lane): (r: Outbound)
    ensures FrontWaits(SendOf(r, lane))
  {
    if lane in o.sends then WithSend(o, lane, NextLost(SendOf(o, lane))) else o
  }

  /** What a lane has on offer: nothing, a packet to send again, or the next fragment of the message under the cursor. */
  datatype Offer = Nothing | Again(sq: nat, fragment: Fragment) | Next(sq: nat, cursor: Cursor)

  /** The offer, given a message the source would hand out, and whether that message is drawn for it. */
  function OfferOf(o: Outbound, lane: Lane, offered: Option<Message>): (Offer, bool)
    requires FrontWaits(SendOf(o, lane))
  {
    var s := SendOf(o, lane);
    if HeldBack(o, lane) then (Nothing, false)
    else if s.lost != [] then (Again(s.lost[0], s.inFlight[s.lost[0]].fragment), false)
    else if s.cursor.Some? then (Next(s.nextSendSeq, s.cursor.value), false)
    else if offered.None? then (Nothing, false)
    else (Next(s.nextSendSeq, CursorFor(offered.value)), true)
  }

  /** The message under the cursor is remembered. */
  function PeekLane(o: Outbound, lane: Lane, offered: Option<Message>): Outbound {
    var o1 := DropDead(o, lane);
    if OfferOf(o1, lane, offered).1 then WithSend(o1, lane, SendOf(o1, lane).(cursor := Some(CursorFor(offered.value)))) else o1
  }

  function OfferPacket(l: Link, lane: Lane, offer: Offer): Option<Packet> {
    match offer
    case Nothing => None
    case Again(q, f) => Some(DataPacket(l, lane, q, f))
    case Next(q, c) => Some(DataPacket(l, lane, q, FragmentAt(c)))
  }

  /** What a peek gives: the link, the datagram on offer, and whether the offered message was drawn from the source. */
  datatype Peeked = Peeked(link: Link, datagram: Option<Packet>, took: bool)

  function PeekMedia(l: Link, offered: Option<Message>): Peeked {
    if l.mediaCursor.Some? then
      Peeked(l, Some(DataPacket(l, Media, l.nextMediaSeq, FragmentAt(l.mediaCursor.value))), false)
    else if offered.None? then Peeked(l, None, false)
    else
      var c := CursorFor(offered.value);
      Peeked(l.(mediaCursor := Some(c)), Some(DataPacket(l, Media, l.nextMediaSeq, FragmentAt(c))), true)
  }

  /** The next datagram of the lane, if there is one that may be sent right now. */
  function Peek(l: Link, lane: Lane, offered: Option<Message>): Peeked {
    if l.failed then Peeked(l, None, false)
    else if lane == Media then PeekMedia(l, offered)
    else
      var (offer, took) := OfferOf(DropDead(l.out, lane), lane, offered);
      Peeked(l.(out := PeekLane(l.out, lane, offered)), OfferPacket(l, lane, offer), took)
  }

  predicate LaneWaits(o: Outbound, lane: Lane) {
    !SendOf(o, lane).peerPaused && |SendOf(o, lane).inFlight| > 0
  }

  predicate Waiting(o: Outbound) { LaneWaits(o, Control) || LaneWaits(o, Reliable) || LaneWaits(o, Bulk) }

  function UpdateProgressClock(o: Outbound, now: int, progress: bool): Outbound {
    if !Waiting(o) then o.(stalledSince := None)
    else if progress || o.stalledSince.None? then o.(stalledSince := Some(now))
    else o
  }

  /** The entry of the seq goes out once more. */
  function Transmit(o: Outbound, lane: Lane, s: SendSide, q: nat, now: int): Outbound
    requires q in s.inFlight
  {
    var e := s.inFlight[q];
    var t := o.transmissions + 1;
    var e' := e.(lost := false, sentAt := now, transmission := t, transmissions := (e.transmissions + 1) % U16);
    var s' := s.(inFlight := s.inFlight[q := e'], onTheWire := s.onTheWire + 1);
    UpdateProgressClock(
      o.(sends := o.sends[lane := s'], transmissions := t, sent := o.sent + [SentRecord(t, q, lane)]), now, false)
  }

  function CommitLost(o: Outbound, lane: Lane, now: int): Outbound
    requires var s := SendOf(o, lane); s.lost != [] && WaitsAsLost(s, s.lost[0])
  {
    var s := SendOf(o, lane);
    Transmit(o, lane, s.(lost := s.lost[1..]), s.lost[0], now)
  }

  /** The stream with the fragment under the cursor in flight. */
  function Inserted(s: SendSide, lane: Lane, c: Cursor): SendSide {
    s.(nextSendSeq := s.nextSendSeq + 1, cursor := Advanced(c),
       inFlight := RingInsert(s.inFlight, Window(lane), s.nextSendSeq, InFlight(FragmentAt(c), 0, false, 0, 0)))
  }

  function CommitFresh(o: Outbound, lane: Lane, now: int): Outbound
    requires SendOf(o, lane).cursor.Some?
  {
    var s := SendOf(o, lane);
    Transmit(o, lane, Inserted(s, lane, s.cursor.value), s.nextSendSeq, now)
  }

  function CommitLane(o: Outbound, lane: Lane, now: int): Outbound {
    var o1 := DropDead(o, lane);
    if SendOf(o1, lane).lost != [] then CommitLost(o1, lane, now)
    else if SendOf(o1, lane).cursor.None? then o1
    else CommitFresh(o1, lane, now)
  }

  function CommitMedia(l: Link): Link {
    if l.mediaCursor.None? then l
    else l.(nextMediaSeq := l.nextMediaSeq + 1, mediaCursor := Advanced(l.mediaCursor.value))
  }

  /** The datagram of the peek before it was sent. */
  function Commit(l: Link, lane: Lane, now: int): Link {
    if lane == Media then CommitMedia(l) else l.(out := CommitLane(l.out, lane, now))
  }

  // --- Receiving data -----------------------------------------------------------------------

  /** What receiving on one lane works on. */
  datatype Intake = Intake(recv: RecvSide, budget: Option<Budget>, delivered: seq<LaneMessage>)

  function IntakeOf(i: Inbound, lane: Lane): Intake { Intake(RecvOf(i, lane), i.budget, i.delivered) }

  function WithIntake(i: Inbound, lane: Lane, c: Intake): Inbound {
    i.(recvs := i.recvs[lane := c.recv], budget := c.budget, delivered := c.delivered)
  }

  function Refused(c: Intake, p: Packet): Intake {
    c.(recv := c.recv.(budgetPaused := true, refusedLength := p.header.totalLength))
  }

  function Taken(c: Intake, lane: Lane, p: Packet): Intake {
    var r := Accept(c.recv.assembler, c.budget, p.header, p.body);
    Intake(c.recv.(assembler := r.assembler), r.budget,
           if r.message.Some? then c.delivered + [LaneMessage(lane, r.message.value)] else c.delivered)
  }

  /** The packet that is next in order: taken, unless its message does not fit. */
  function AcceptInOrder(c: Intake, lane: Lane, p: Packet): (Intake, bool) {
    if !HasRoomFor(c.budget, p.header) then (Refused(c, p), false) else (Taken(c, lane, p), true)
  }

  /** Everything that is in order now leaves the reorder buffer. */
  function Drain(c: Intake, lane: Lane): Intake
    decreases |c.recv.reorder|
  {
    var q := c.recv.nextExpected;
    if q !in c.recv.reorder then c
    else
      var (c1, ok) := AcceptInOrder(c, lane, c.recv.reorder[q]);
      if !ok then c1
      else
        assert c1.recv.reorder - {q} == map k | k in c.recv.reorder && k != q :: c.recv.reorder[k];
        assert (c1.recv.reorder - {q}).Keys == c.recv.reorder.Keys - {q};
        assert |c1.recv.reorder - {q}| < |c.recv.reorder|;
        Drain(c1.(recv := c1.recv.(reorder := c1.recv.reorder - {q}, nextExpected := q + 1)), lane)
  }

  predicate MayRetry(c: Intake) {
    c.recv.budgetPaused && (c.budget.None? || c.budget.value.FitsBytes(c.recv.refusedLength))
  }

  function Retried(c: Intake, lane: Lane): Intake {
    if MayRetry(c) then Drain(c.(recv := c.recv.(budgetPaused := false)), lane) else c
  }

  predicate OutOfWindow(c: Intake, lane: Lane, q: nat) { q >= c.recv.nextExpected + Window(lane) }

  predicate Duplicate(c: Intake, q: nat) { q < c.recv.nextExpected || q in c.recv.reorder }

  /** A Data packet, once what was refused before had its turn. */
  function TakeData(c: Intake, lane: Lane, p: Packet): Intake {
    var q := p.header.sq;
    if OutOfWindow(c, lane, q) || Duplicate(c, q) then c
    else if q != c.recv.nextExpected then
      c.(recv := c.recv.(reorder := RingInsert(c.recv.reorder, Window(lane), q, p)))
    else
      var (c1, ok) := AcceptInOrder(c, lane, p);
      if !ok then c1 else Drain(c1.(recv := c1.recv.(nextExpected := q + 1)), lane)
  }

  function RetryRefused(i: Inbound, lane: Lane): Inbound {
    var c := IntakeOf(i, lane);
    if MayRetry(c) then WithIntake(i, lane, Retried(c, lane)) else i
  }

  /** The lane's Ack is due again when a refused message had its turn. */
  function DueForRetry(i: Inbound, lane: Lane): set<Lane> { if MayRetry(IntakeOf(i, lane)) then {lane} else {} }

  function HandleData(i: Inbound, lane: Lane, p: Packet): Inbound {
    var c := Retried(IntakeOf(i, lane), lane);
    WithIntake(i, lane, TakeData(c, lane, p))
  }

  /** Every packet below the upper end of the window makes an Ack due, one that was seen before as well. */
  function DueForData(i: Inbound, lane: Lane, p: Packet): set<Lane> {
    if OutOfWindow(Retried(IntakeOf(i, lane), lane), lane, p.header.sq) then DueForRetry(i, lane) else {lane}
  }

  function HandleMedia(i: Inbound, p: Packet): Inbound {
    var (media, message) := AcceptMedia(i.media, p.header, p.body);
    i.(mediaReceived := (i.mediaReceived + 1) % U32,
       media := media,
       delivered := if message.Some? then i.delivered + [LaneMessage(Media, message.value)] else i.delivered)
  }

  // --- Losses and congestion -------------------------------------------------------------------

  /** The record still stands for its packet: in flight, unmarked, and last sent with this transmission. */
  predicate Live(o: Outbound, r: SentRecord) {
    && r.lane in o.sends
    && r.sq in o.sends[r.lane].inFlight
    && !o.sends[r.lane].inFlight[r.sq].lost
    && o.sends[r.lane].inFlight[r.sq].transmission == r.transmission
  }

  function Halved(cwnd: real): real { if cwnd / 2.0 < MIN_CWND as real then MIN_CWND as real else cwnd / 2.0 }

  /** The packet waits for its retransmission. */
  function Marked(s: SendSide, q: nat): SendSide
    requires q in s.inFlight
  {
    s.(inFlight := s.inFlight[q := s.inFlight[q].(lost := true)], onTheWire := s.onTheWire - 1, lost := s.lost + [q])
  }

  /** Only a transmission made after the last halving halves again. */
  predicate Reduces(o: Outbound, r: SentRecord) {
    SharesWindow(r.lane) && o.fixedCwnd == 0 && r.transmission > o.recoveryStart
  }

  function MarkLost(o: Outbound, r: SentRecord): Outbound
    requires Live(o, r)
  {
    var o1 := WithSend(o, r.lane, Marked(SendOf(o, r.lane), r.sq));
    if Reduces(o, r) then o1.(cwnd := Halved(o.cwnd), recoveryStart := o.transmissions) else o1
  }

  /** When the front of the log is not lost yet: by what was acknowledged behind it, or by the time. */
  datatype Sweep = ByAcks | ByTime(now: int, timeout: int)

  predicate Keeps(o: Outbound, r: SentRecord, mode: Sweep)
    requires Live(o, r)
  {
    match mode
    case ByAcks => r.transmission + FAST_RETRANSMIT > o.largestAcked
    case ByTime(now, timeout) => now < o.sends[r.lane].inFlight[r.sq].sentAt + timeout
  }

  /** Takes records from the front of the log, and declares their packets lost, up to the first one that is kept. */
  function SweepLog(o: Outbound, mode: Sweep): (Outbound, bool)
    decreases |o.sent|
  {
    if o.sent == [] then (o, false)
    else
      var r := o.sent[0];
      var rest := o.(sent := o.sent[1..]);
      if !Live(o, r) then SweepLog(rest, mode)
      else if Keeps(o, r, mode) then (o, false)
      else (SweepLog(MarkLost(rest, r), mode).0, true)
  }

  // --- Acknowledgements ---------------------------------------------------------------------------

  /** The Ack names the seq. */
  predicate Named(upTo: nat, ranges: seq<SeqRange>, q: nat) { q <= upTo || Covered(ranges, q) }

  /** What the Acks released so far, and what is remembered of it. */
  datatype Release = Release(send: SendSide, largestAcked: nat, acked: nat, counted: nat, sampleSentAt: Option<int>)

  function ReleaseOne(a: Release, q: nat, recoveryStart: nat): Release {
    if q !in a.send.inFlight then a
    else
      var e := a.send.inFlight[q];
      Release(
        a.send.(inFlight := a.send.inFlight - {q}, onTheWire := a.send.onTheWire - (if e.lost then 0 else 1)),
        Max(a.largestAcked, e.transmission),
        a.acked + 1,
        a.counted + (if e.transmission > recoveryStart then 1 else 0),
        // Karn: only packets sent once are measured, of these the youngest
        if e.transmissions == 1 && (a.sampleSentAt.None? || e.sentAt > a.sampleSentAt.value) then Some(e.sentAt)
        else a.sampleSentAt)
  }

  /** The seqs from lo to hi. */
  function ReleaseSpan(a: Release, lo: nat, hi: int, recoveryStart: nat): Release
    decreases hi - lo + 1
  {
    if lo > hi then a else ReleaseSpan(ReleaseOne(a, lo, recoveryStart), lo + 1, hi, recoveryStart)
  }

  function ReleaseRanges(a: Release, ranges: seq<SeqRange>, recoveryStart: nat): Release
    decreases |ranges|
  {
    if ranges == [] then a
    else
      var r, s := ranges[0], a.send;
      ReleaseRanges(ReleaseSpan(a, Max(r.first, s.sendBase), Min(r.Last(), s.nextSendSeq - 1), recoveryStart),
                    ranges[1..], recoveryStart)
  }

  /** Everything the Ack names that is still in flight. */
  function ReleaseAcked(a: Release, upTo: nat, ranges: seq<SeqRange>, recoveryStart: nat): Release {
    ReleaseRanges(ReleaseSpan(a, a.send.sendBase, Min(upTo, a.send.nextSendSeq - 1), recoveryStart), ranges, recoveryStart)
  }

  /** The lowest unacknowledged seq. */
  function LowestUnacked(s: SendSide, base: nat): (b: nat)
    decreases s.nextSendSeq - base
  {
    if base < s.nextSendSeq && base !in s.inFlight then LowestUnacked(s, base + 1) else base
  }

  /** Serial number arithmetic (RFC 1982, section 3.2): the 32-bit difference is positive as a signed number. */
  predicate SerialAfter(serial: nat, than: nat) { 0 < (serial - than) % U32 < 0x8000_0000 }

  function PausedSend(s: SendSide, paused: bool, rto: int, now: int): SendSide {
    var interval := Max(rto / 1000 * 1000, MIN_PROBE_INTERVAL);
    if paused then s.(peerPaused := true, probeInterval := interval, probeAt := Some(now + interval))
    else s.(peerPaused := false, probeAt := None)
  }

  function SetPeerPaused(o: Outbound, lane: Lane, paused: bool, now: int): Outbound {
    var s := SendOf(o, lane);
    if s.peerPaused == paused then o
    else UpdateProgressClock(WithSend(o, lane, PausedSend(s, paused, o.rtt.rto, now)), now, false)
  }

  predicate AcceptsSerial(s: SendSide, serial: nat) { s.ackSerial.None? || SerialAfter(serial, s.ackSerial.value) }

  /** Only an Ack with a newer serial is heard on the pause. */
  function NotePause(o: Outbound, lane: Lane, serial: nat, paused: bool, now: int): Outbound {
    var s := SendOf(o, lane);
    if AcceptsSerial(s, serial) then SetPeerPaused(WithSend(o, lane, s.(ackSerial := Some(serial))), lane, paused, now) else o
  }

  function Grown(cwnd: real, counted: nat): real {
    if cwnd <= 0.0 then cwnd
    else
      var w := cwnd + counted as real / cwnd;
      if w < MAX_CWND as real then w else MAX_CWND as real
  }

  /** What was released is written back. */
  function WriteBack(o: Outbound, lane: Lane, a: Release, now: int): Outbound {
    o.(sends := o.sends[lane := a.send.(sendBase := LowestUnacked(a.send, a.send.sendBase))],
       largestAcked := a.largestAcked,
       rtt := if a.acked > 0 && a.sampleSentAt.Some? then AddSample(o.rtt, now - a.sampleSentAt.value) else o.rtt,
       timeoutsInARow := if a.acked > 0 then 0 else o.timeoutsInARow)
  }

  function StartRelease(o: Outbound, lane: Lane): Release { Release(SendOf(o, lane), o.largestAcked, 0, 0, None) }

  function AckedBy(o: Outbound, lane: Lane, upTo: nat, ranges: seq<SeqRange>): Release {
    ReleaseAcked(StartRelease(o, lane), upTo, ranges, o.recoveryStart)
  }

  function HandleAck(o: Outbound, lane: Lane, upTo: nat, paused: bool, ack: AckBody, now: int): Outbound {
    var o1 := NotePause(o, lane, ack.serial, paused, now);
    var a := AckedBy(o1, lane, upTo, ack.ranges);
    var (o2, losses) := SweepLog(WriteBack(o1, lane, a, now), ByAcks);
    var o3 := UpdateProgressClock(o2, now, a.acked > 0);
    if SharesWindow(lane) && !losses && a.counted > 0 && o.fixedCwnd == 0 then o3.(cwnd := Grown(o3.cwnd, a.counted)) else o3
  }

  // --- Every packet -----------------------------------------------------------------------------

  /** Addressed to another link, or from another one than heard before. */
  predicate Stale(l: Link, h: Header) {
    (h.dst != 0 && h.dst != l.localId) || (l.remoteId.Some? && l.remoteId.value != h.src)
  }

  function Heard(l: Link, h: Header, now: int): Link {
    l.(remoteId := Some(h.src), lastReceived := if l.lastReceived.Some? then Some(now) else None)
  }

  function OnPacket(l: Link, p: Packet, now: int): Link {
    if l.failed || Stale(l, p.header) then l
    else
      var l1 := Heard(l, p.header, now);
      var lane := p.header.flags.lane;
      match p.header.flags.kind
      case Data =>
        if lane == Media then l1.(inb := HandleMedia(l.inb, p))
        else l1.(inb := HandleData(l.inb, lane, p), ackDue := l.ackDue + DueForData(l.inb, lane, p))
      case Ack =>
        var ack := DecodeAck(p.body);
        if StreamExists(l, lane) && ack.Some?
        then l1.(out := HandleAck(l.out, lane, p.header.sq, p.header.flags.paused, ack.value, now))
        else l1
      case Ping => l1.(ackDue := l.ackDue + {lane})
      case Beacon => l1
  }

  // --- Acks and Pings of this side ----------------------------------------------------------------

  /** What waits behind a gap, as ranges. */
  function WaitingRanges(r: RecvSide, lane: Lane): seq<SeqRange> {
    RangesOf(Below(r.reorder.Keys, r.nextExpected + Window(lane)))
  }

  function AckPacket(l: Link, lane: Lane, serial: nat): Packet {
    var r := RecvOf(l.inb, lane);
    var paused := (l.paused && lane != Control) || r.budgetPaused;
    Packet(MakeHeader(l, AckFlags(lane, paused), if r.nextExpected > 0 then r.nextExpected - 1 else 0),
           EncodeAck(AckBody(serial, l.inb.mediaReceived, WaitingRanges(r, lane)), MAX_ACK_RANGES))
  }

  function MakeAck(l: Link, lane: Lane): Link {
    var l1 := l.(inb := RetryRefused(l.inb, lane), ackSerial := (l.ackSerial + 1) % U32);
    l1.(pendingAcks := l.pendingAcks + [AckPacket(l1, lane, l1.ackSerial)])
  }

  function PingPacket(l: Link, lane: Lane): Packet { Packet(MakeHeader(l, PingFlags(lane), 0), []) }

  function AnswerLane(l: Link, lane: Lane): Link {
    var l1 := if lane in l.ackDue then MakeAck(l, lane) else l;
    if lane in l.pingDue then l1.(pendingAcks := l1.pendingAcks + [PingPacket(l, lane)]) else l1
  }

  /** Builds what is due when nothing built before waits to be sent. */
  function PeekAck(l: Link): Link {
    if l.failed || l.pendingAcks != [] then l
    else AnswerLane(AnswerLane(AnswerLane(l, Control), Reliable), Bulk).(ackDue := {}, pingDue := {})
  }

  function CommitAck(l: Link): Link { if l.pendingAcks == [] then l else l.(pendingAcks := l.pendingAcks[1..]) }

  function SetPaused(l: Link, paused: bool): Link {
    if l.paused == paused then l
    else l.(paused := paused, ackDue := l.ackDue + (set lane | lane in {Reliable, Bulk} && StreamExists(l, lane)))
  }

  function Supervise(l: Link, now: int): Link { l.(lastReceived := Some(now), pingedAt := now) }

  function TakeDelivered(l: Link): Link { l.(inb := l.inb.(delivered := [])) }

  // --- Timers ---------------------------------------------------------------------------------------

  /** The streams give back what they reserved. */
  function FreedBudget(i: Inbound): Option<Budget> {
    Released(RecvOf(i, Bulk).assembler, Released(RecvOf(i, Reliable).assembler, Released(RecvOf(i, Control).assembler, i.budget)))
  }

  /** Streams, queues and timers are reset; deliveries are kept for the application. */
  function Fail(l: Link): Link {
    l.(out := NewOutbound(l.timings), inb := NewInbound(FreedBudget(l.inb)).(delivered := l.inb.delivered),
       mediaCursor := None, nextMediaSeq := 1, pendingAcks := [], ackDue := {}, pingDue := {}, lastReceived := None,
       failed := true)
  }

  predicate Silent(l: Link, now: int) {
    || (l.out.stalledSince.Some? && now - l.out.stalledSince.value >= l.timings.peerTimeout)
    || (l.lastReceived.Some? && now - l.lastReceived.value >= l.timings.peerTimeout)
  }

  predicate AskDue(l: Link, now: int) {
    l.lastReceived.Some? && l.remoteId.Some? && now - Max(l.lastReceived.value, l.pingedAt) >= l.timings.keepAlive
  }

  predicate ProbeDue(o: Outbound, lane: Lane, now: int) {
    var s := SendOf(o, lane);
    s.peerPaused && s.probeAt.Some? && now >= s.probeAt.value
  }

  function ProbedSend(s: SendSide, maxRto: int, now: int): SendSide {
    var interval := Min(s.probeInterval * 2, maxRto);
    s.(probeInterval := interval, probeAt := Some(now + interval))
  }

  function ProbeLane(o: Outbound, lane: Lane, maxRto: int, now: int): Outbound {
    if ProbeDue(o, lane, now) then WithSend(o, lane, ProbedSend(SendOf(o, lane), maxRto, now)) else o
  }

  function Timeout(o: Outbound): int { TimeoutFor(o.rtt, o.timeoutsInARow) }

  /** One backoff for the whole link, whatever expired. */
  function Expire(o: Outbound, now: int): Outbound {
    var (o1, expired) := SweepLog(o, ByTime(now, Timeout(o)));
    if expired && o1.timeoutsInARow < MAX_BACKOFF then o1.(timeoutsInARow := o1.timeoutsInARow + 1) else o1
  }

  function TimedOut(o: Outbound, maxRto: int, now: int): Outbound {
    ProbeLane(ProbeLane(ProbeLane(Expire(o, now), Control, maxRto, now), Reliable, maxRto, now), Bulk, maxRto, now)
  }

  function OnTimer(l: Link, now: int): Link {
    if l.failed then l
    else if Silent(l, now) then Fail(l)
    else
      var asked := if AskDue(l, now) then {Control} else {};
      var probed := set lane | lane in {Control, Reliable, Bulk} && ProbeDue(l.out, lane, now);
      l.(out := TimedOut(l.out, l.timings.maxRto, now),
         pingDue := l.pingDue + asked + probed,
         pingedAt := if AskDue(l, now) then now else l.pingedAt)
  }

  function Earlier(a: Option<int>, b: Option<int>): Option<int> {
    if a.None? then b else if b.None? || a.value <= b.value then a else b
  }

  function After(t: Option<int>, delay: int): Option<int> { if t.Some? then Some(t.value + delay) else None }

  /** When the packet of the oldest record is overdue. */
  function LossDeadline(o: Outbound): Option<int> {
    if o.sent == [] then None
    else
      var r := o.sent[0];
      if r.sq in SendOf(o, r.lane).inFlight then Some(SendOf(o, r.lane).inFlight[r.sq].sentAt + Timeout(o)) else None
  }

  function ProbeDeadline(o: Outbound, lane: Lane): Option<int> {
    if SendOf(o, lane).peerPaused then SendOf(o, lane).probeAt else None
  }

  function SilenceDeadline(l: Link): Option<int> {
    var asked := if l.lastReceived.Some? && l.remoteId.Some?
                 then Some(Max(l.lastReceived.value, l.pingedAt) + l.timings.keepAlive) else None;
    Earlier(Earlier(After(l.out.stalledSince, l.timings.peerTimeout), After(l.lastReceived, l.timings.peerTimeout)), asked)
  }

  /** Before this time the timer leaves the link alone. */
  function NextDeadline(l: Link): Option<int> {
    Earlier(Earlier(LossDeadline(l.out), SilenceDeadline(l)),
            Earlier(ProbeDeadline(l.out, Control), Earlier(ProbeDeadline(l.out, Reliable), ProbeDeadline(l.out, Bulk))))
  }

  // --- State -----------------------------------------------------------------------------------------

  /** Something of the lane is in flight, or a message is still being cut up. */
  predicate HasPending(l: Link, lane: Lane) {
    if lane == Media then l.mediaCursor.Some?
    else |SendOf(l.out, lane).inFlight| > 0 || SendOf(l.out, lane).cursor.Some?
  }

  predicate HasPendingReliable(l: Link) { HasPending(l, Control) || HasPending(l, Reliable) || HasPending(l, Bulk) }
}
