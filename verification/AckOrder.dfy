/** The order in which an end builds its Acks, and what the other end makes of those that arrive. */
module AckOrder {
  import opened Transport
  import opened ByteOrder
  import opened PacketFlags
  import opened PacketHeader
  import opened AckRanges
  import opened Fragments
  import opened LinkModel
  import opened LinkRuns
  import opened LinkDelivery
  import opened LinkSending
  import opened LinkPause
  import opened LinkNetwork
  import opened LinkTheorems

  // --- The Acks an end builds ---------------------------------------------------------------------------------

  function OnlyAcks(packets: seq<Packet>): seq<Packet> {
    if packets == [] then []
    else
      var p := packets[|packets| - 1];
      OnlyAcks(packets[..|packets| - 1]) + (if p.header.flags.kind == Ack then [p] else [])
  }

  /** The Acks an operation adds to those built before. */
  function BuiltBy(l: Link, op: Op): seq<Packet> {
    if (op.SendAck? || op.JustPeekAck?) && !l.failed && l.pendingAcks == [] then OnlyAcks(PeekAck(l).pendingAcks) else []
  }

  /** An Ack that, if it can be read, says it is the n-th one, modulo 2^32. */
  ghost predicate WouldSay(p: Packet, n: nat) {
    p.header.flags.kind == Ack && (DecodeAck(p.body).Some? ==> DecodeAck(p.body).value.serial == n % U32)
  }

  /** It can be read, and says so. */
  ghost predicate NumberedAs(p: Packet, n: nat) {
    p.header.flags.kind == Ack && DecodeAck(p.body).Some? && DecodeAck(p.body).value.serial == n % U32
  }

  ghost predicate InOrder(built: seq<Packet>) { forall k :: 0 <= k < |built| ==> NumberedAs(built[k], k + 1) }

  lemma SerialOnWire(ack: AckBody, maxRanges: nat)
    requires ack.serial < U32
    ensures var s := EncodeAck(ack, maxRanges); DecodeAck(s).Some? ==> DecodeAck(s).value.serial == ack.serial
  {
    var s := EncodeAck(ack, maxRanges);
    assert s[..4] == Write32(ack.serial);
    RoundTrip32(ack.serial);
    hide Write32, Read32, EncodeRanges, DecodeRanges;
  }

  lemma NextSerial(n: nat)
    ensures (n % U32 + 1) % U32 == (n + 1) % U32
  {
  }

  lemma OnlyAcksMore(packets: seq<Packet>, p: Packet)
    ensures OnlyAcks(packets + [p]) == OnlyAcks(packets) + (if p.header.flags.kind == Ack then [p] else [])
  {
    assert (packets + [p])[..|packets + [p]| - 1] == packets;
  }

  lemma {:induction false} OnlyAcksHas(packets: seq<Packet>, p: Packet)
    ensures p in OnlyAcks(packets) <==> p in packets && p.header.flags.kind == Ack
  {
    if packets != [] { OnlyAcksHas(packets[..|packets| - 1], p); }
  }

  ghost predicate InSequence(built: seq<Packet>) { forall k :: 0 <= k < |built| ==> WouldSay(built[k], k + 1) }

  /** The link continues a list of Acks: those that wait are its end, and the next one has the next number. */
  ghost predicate Continues(l: Link, before: seq<Packet>) {
    var built := before + OnlyAcks(l.pendingAcks);
    InSequence(built) && l.ackSerial == |built| % U32
  }

  lemma AckContinues(l: Link, before: seq<Packet>, lane: Lane)
    requires Continues(l, before)
    ensures Continues(MakeAck(l, lane), before)
    ensures MakeAck(l, lane).pingDue == l.pingDue
  {
    hide RetryRefused, WaitingRanges, OnlyAcks, EncodeAck, DecodeAck;
    var built, l' := before + OnlyAcks(l.pendingAcks), MakeAck(l, lane);
    var p := l'.pendingAcks[|l.pendingAcks|];
    OnlyAcksMore(l.pendingAcks, p);
    AckIsAck(l', lane, l'.ackSerial);
    NextSerial(|built|);
    SerialOnWire(AckBody(l'.ackSerial, l'.inb.mediaReceived, WaitingRanges(RecvOf(l'.inb, lane), lane)), MAX_ACK_RANGES);
    assert WouldSay(p, |built| + 1);
    assert before + OnlyAcks(l'.pendingAcks) == built + [p];
  }

  lemma AnswerContinues(l: Link, before: seq<Packet>, lane: Lane)
    requires Continues(l, before)
    ensures Continues(AnswerLane(l, lane), before)
  {
    var l1 := if lane in l.ackDue then MakeAck(l, lane) else l;
    if lane in l.ackDue { AckContinues(l, before, lane); }
    hide MakeAck, PingPacket, InSequence;
    OnlyAcksMore(l1.pendingAcks, PingPacket(l, lane));
    AckIsAck(l, lane, 0);
    hide OnlyAcks;
    assert OnlyAcks(l1.pendingAcks) + [] == OnlyAcks(l1.pendingAcks);
  }

  lemma PeekContinues(l: Link, before: seq<Packet>)
    requires InSequence(before) && l.ackSerial == |before| % U32 && !l.failed && l.pendingAcks == []
    ensures Continues(PeekAck(l), before)
  {
    assert before + [] == before;
    assert Continues(l, before);
    hide InSequence, AnswerLane, OnlyAcks;
    var l1 := AnswerLane(l, Control);
    var l2 := AnswerLane(l1, Reliable);
    AnswerContinues(l, before, Control);
    AnswerContinues(l1, before, Reliable);
    AnswerContinues(l2, before, Bulk);
  }

  // --- What an end keeps ----------------------------------------------------------------------------------------

  /** These are all Acks the end ever built, in that order. */
  ghost predicate HistoryOk(y: End, built: seq<Packet>) {
    && InOrder(built) && (!y.link.failed ==> y.link.ackSerial == |built| % U32)
    && (forall p :: (p in y.net || p in y.link.pendingAcks) && p.header.flags.kind == Ack ==> p in built)
  }

  /** An operation that builds no Acks. */
  ghost predicate BuildsNone(y: End, y': End) {
    && (!y'.link.failed ==> !y.link.failed && y'.link.ackSerial == y.link.ackSerial)
    && (forall p :: p in y'.link.pendingAcks ==> p in y.link.pendingAcks)
    && (forall p :: p in y'.net && p !in y.net ==> p.header.flags.kind != Ack)
  }

  lemma NoneBuilt(y: End, y': End, built: seq<Packet>)
    requires HistoryOk(y, built) && BuildsNone(y, y')
    ensures HistoryOk(y', built + [])
  {
    assert built + [] == built;
  }

  lemma SendBuildsNone(y: End, lane: Lane, offered: Option<Message>, now: int)
    ensures BuildsNone(y, SendStep(y, lane, offered, now)) && BuildsNone(y, PeekStep(y, lane, offered))
  {
    hide OfferOf, DropDead, PeekLane, CommitLane, FragmentAt;
  }

  lemma LinkBuildsNone(y: End, op: Op)
    requires (op.Receive? || op.Timer? || op.Pause? || op.Watch?)
    ensures BuildsNone(y, y.(link := Step(y.link, op)))
  {
    hide HandleAck, HandleData, HandleMedia, DueForData, TimedOut, DecodeAck;
  }

  /** Everything that waits to be sent can be read by the other end. */
  ghost predicate Readable(packets: seq<Packet>) {
    forall p :: p in packets && p.header.flags.kind == Ack ==> DecodeAck(p.body).Some?
  }

  lemma ReadableInOrder(built: seq<Packet>, packets: seq<Packet>)
    requires InOrder(built) && InSequence(built + OnlyAcks(packets)) && Readable(packets)
    ensures InOrder(built + OnlyAcks(packets))
  {
    hide OnlyAcks, DecodeAck;
    var all := built + OnlyAcks(packets);
    forall k | 0 <= k < |all|
      ensures NumberedAs(all[k], k + 1)
    {
      if k >= |built| { OnlyAcksHas(packets, all[k]); }
    }
  }

  lemma OrderIsSequence(built: seq<Packet>)
    requires InOrder(built)
    ensures InSequence(built)
  {
    hide DecodeAck;
  }

  lemma PeekHistory(y: End, built: seq<Packet>)
    requires HistoryOk(y, built) && Readable(PeekAck(y.link).pendingAcks)
    ensures HistoryOk(y.(link := PeekAck(y.link)), built + BuiltBy(y.link, JustPeekAck))
  {
    hide InOrder, InSequence, OnlyAcks, Readable, AnswerLane;
    var l := y.link;
    PeekAckOut(l);
    if l.failed || l.pendingAcks != [] {
      assert PeekAck(l) == l && built + [] == built;
    } else {
      OrderIsSequence(built);
      PeekContinues(l, built);
      ReadableInOrder(built, PeekAck(l).pendingAcks);
      forall p | p in PeekAck(l).pendingAcks && p.header.flags.kind == Ack
        ensures p in BuiltBy(l, JustPeekAck)
      {
        OnlyAcksHas(PeekAck(l).pendingAcks, p);
      }
    }
  }

  lemma AckStepHistory(y: End, built: seq<Packet>)
    requires HistoryOk(y, built) && Readable(PeekAck(y.link).pendingAcks)
    ensures HistoryOk(AckStep(y), built + BuiltBy(y.link, SendAck))
  {
    PeekHistory(y, built);
    hide InOrder, PeekAck, OnlyAcks, Readable;
    assert PeekAck(y.link).pendingAcks != [] ==> PeekAck(y.link).pendingAcks[0] in PeekAck(y.link).pendingAcks;
  }

  /** What a link of the system builds, it builds readable. */
  lemma BuiltReadable(y: End, x: End, clock: int)
    requires SystemOk(y, x, clock) && NoWrap(y.link)
    ensures Readable(PeekAck(y.link).pendingAcks)
  {
    hide LinkOk, Agreed, Around, NoWrap, PeekAck;
    PeekAckAgreed(y, x);
    PendingReadable(y.(link := PeekAck(y.link)), x.link.localId);
  }

  lemma PendingReadable(y: End, peer: nat)
    requires Around(y, peer)
    ensures Readable(y.link.pendingAcks)
  {
    hide WellFormed, DecodeAck, AllSendable, BudgetOk;
    forall p | p in y.link.pendingAcks && p.header.flags.kind == Ack
      ensures DecodeAck(p.body).Some?
    {
      assert OnWireOk(p, y.link.localId);
    }
  }

  ghost function BuiltIn(y: End, op: NetOp): seq<Packet> { if op.Do? then BuiltBy(y.link, op.op) else [] }

  /** Whatever an end does, the list of its Acks goes on in order. */
  lemma StepHistory(y: End, x: End, op: NetOp, built: seq<Packet>, clock: int)
    requires SystemOk(y, x, clock) && Allowed(y, x, op) && HistoryOk(y, built)
    ensures HistoryOk(EndStep(y, op), built + BuiltIn(y, op))
  {
    BuiltReadable(y, x, clock);
    StepBuilds(y, op, built);
  }

  lemma StepBuilds(y: End, op: NetOp, built: seq<Packet>)
    requires HistoryOk(y, built) && Readable(PeekAck(y.link).pendingAcks)
    ensures HistoryOk(EndStep(y, op), built + BuiltIn(y, op))
  {
    hide HistoryOk, Step, PeekAck, Readable;
    match op
    case OthersReserve(used) => NoneBuilt(y, EndStep(y, op), built);
    case Do(o) =>
      match o
      case Send(lane, offered, now) => SendBuildsNone(y, lane, offered, now); NoneBuilt(y, EndStep(y, op), built);
      case JustPeek(lane, offered) => SendBuildsNone(y, lane, offered, 0); NoneBuilt(y, EndStep(y, op), built);
      case SendAck => AckStepHistory(y, built);
      case JustPeekAck => PeekHistory(y, built); JustPeekIs(y);
      case Collect => NoneBuilt(y, EndStep(y, op), built);
      case _ => LinkBuildsNone(y, o); NoneBuilt(y, EndStep(y, op), built);
  }

  lemma JustPeekIs(y: End)
    ensures EndStep(y, Do(JustPeekAck)) == y.(link := PeekAck(y.link))
  {
    hide PeekAck;
  }

  // --- They all go out -----------------------------------------------------------------------------------------

  function AckSteps(x: End, n: nat): End
    decreases n
  {
    if n == 0 then x else AckSteps(AckStep(x), n - 1)
  }

  /** What was built goes out one by one and in its order, each packet once, and nothing is built in between. */
  lemma {:induction false} AnswersGoOut(x: End, waiting: seq<Packet>, n: nat)
    requires waiting == PeekAck(x.link).pendingAcks && 0 < n <= |waiting|
    ensures var x' := AckSteps(x, n);
      x'.link == PeekAck(x.link).(pendingAcks := waiting[n..]) && x'.net == x.net + (set p | p in waiting[..n])
    decreases n
  {
    hide AnswerLane;
    var x1, rest := AckStep(x), waiting[1..];
    assert x1.link == PeekAck(x.link).(pendingAcks := rest) && x1.net == x.net + {waiting[0]};
    if n == 1 {
      assert waiting[..1] == [waiting[0]];
      assert AckSteps(x1, 0) == x1;
    } else {
      assert PeekAck(x1.link) == x1.link;
      AnswersGoOut(x1, rest, n - 1);
      assert rest[n - 1..] == waiting[n..] && [waiting[0]] + rest[..n - 1] == waiting[..n];
    }
  }

  // --- Which of them arrived ----------------------------------------------------------------------------------

  /** Two ends, all Acks b ever built, and which of them a has looked at on the lane, by their places in that list. */
  datatype Watched = Watched(a: End, b: End, built: seq<Packet>, seen: set<nat>)

  ghost predicate LooksAt(w: Watched, t: Turn, lane: Lane) { t.first && t.op.Do? && TakesAck(w.a.link, t.op.op, lane) }

  /** The packet that arrives is the k-th Ack, as far as the wire can tell. */
  ghost predicate IsNumber(w: Watched, p: Packet, k: nat) {
    k < |w.built| && w.built[k] in w.b.net && DecodePacket(EncodePacket(w.built[k])) == Some(p)
  }

  /** If a looks at an Ack in this turn, it is the k-th. */
  ghost predicate Shown(w: Watched, t: Turn, k: nat, lane: Lane) { LooksAt(w, t, lane) ==> IsNumber(w, t.op.op.packet, k) }

  ghost function Next(w: Watched, t: Turn, k: nat, lane: Lane): Watched {
    var (a, b) := TurnStep(w.a, w.b, t);
    Watched(a, b, if t.first then w.built else w.built + BuiltIn(w.b, t.op),
            if LooksAt(w, t, lane) then w.seen + {k} else w.seen)
  }

  /** w' is reached by the turns; which tells for every Ack that a looks at which one it is. */
  ghost predicate Watches(w: Watched, turns: seq<Turn>, which: seq<nat>, lane: Lane, clock: int, w': Watched, clock': int)
    decreases |turns|
  {
    if turns == [] then which == [] && w' == w && clock' == clock
    else
      && which != [] && TurnAllowed(w.a, w.b, turns[0], clock) && Shown(w, turns[0], which[0], lane)
      && Watches(Next(w, turns[0], which[0], lane), turns[1..], which[1..], lane, NetTime(turns[0].op, clock), w', clock')
  }

  ghost predicate Latest(k: nat, seen: set<nat>) { k in seen && forall j :: j in seen ==> j <= k }

  /** No Ack arrives 2^31 or more places before or behind the latest one that did. */
  ghost predicate Close(w: Watched, turns: seq<Turn>, which: seq<nat>, lane: Lane)
    decreases |turns|
  {
    turns == [] || which == [] || (
      && (LooksAt(w, turns[0], lane) ==> Near(which[0], w.seen))
      && Close(Next(w, turns[0], which[0], lane), turns[1..], which[1..], lane))
  }

  ghost predicate Near(k: nat, seen: set<nat>) { forall m: nat :: Latest(m, seen) ==> -HALF < k - m < HALF }

  /** The lane is paused as the latest-built of the Acks says that arrived, and not at all before the first one. */
  ghost predicate PausedByLatest(w: Watched, lane: Lane) {
    if w.seen == {} then PauseOf(w.a.link.out, lane) == (None, false)
    else exists k: nat :: Latest(k, w.seen) && k < |w.built| && PauseOf(w.a.link.out, lane) == SaidBy(w.built, k)
  }

  ghost predicate WatchedOk(w: Watched, lane: Lane, clock: int) {
    && SystemOk(w.a, w.b, clock) && HistoryOk(w.b, w.built)
    && (!w.a.link.failed ==> PausedByLatest(w, lane))
  }

  /** What the arriving Ack says is what was built. */
  lemma ArrivesAsBuilt(w: Watched, p: Packet, k: nat, clock: int)
    requires SystemOk(w.a, w.b, clock) && HistoryOk(w.b, w.built) && IsNumber(w, p, k) && DecodeAck(p.body).Some?
    ensures p.header.flags == w.built[k].header.flags && DecodeAck(p.body).value.serial == (k + 1) % U32
  {
    hide LinkOk, Agreed, WellFormed, DecodePacket, EncodePacket, DecodeAck, AllSendable, BudgetOk;
    assert OnWireOk(w.built[k], w.b.link.localId);
    PacketRoundTrip(w.built[k]);
    assert NumberedAs(w.built[k], k + 1);
  }

  lemma LatestMore(seen: set<nat>, m: nat, k: nat)
    requires Latest(m, seen)
    ensures Latest(if k > m then k else m, seen + {k})
  {
  }

  lemma FirstLatest(k: nat)
    ensures Latest(k, {} + {k})
  {
  }

  /** The pause of a lane by the k-th Ack. */
  ghost function SaidBy(built: seq<Packet>, k: nat): (Option<nat>, bool)
    requires k < |built|
  {
    (Some((k + 1) % U32), built[k].header.flags.paused)
  }

  /** The rule for serials picks the later of two Acks. */
  lemma LaterWins(built: seq<Packet>, m: nat, k: nat)
    requires k < |built| && m < |built| && -HALF < k - m < HALF
    ensures (if SerialAfter((k + 1) % U32, (m + 1) % U32) then SaidBy(built, k) else SaidBy(built, m))
         == SaidBy(built, if k > m then k else m)
  {
    SerialOrder(k + 1, m + 1);
  }

  /** The pause after an Ack that says said, on a lane whose pause was was. */
  ghost function Heeded(was: (Option<nat>, bool), said: (Option<nat>, bool)): (Option<nat>, bool)
    requires said.0.Some?
  {
    if was.0.None? || SerialAfter(said.0.value, was.0.value) then said else was
  }

  lemma LookHeeds(w: Watched, op: Op, k: nat, lane: Lane, clock: int)
    requires SystemOk(w.a, w.b, clock) && HistoryOk(w.b, w.built)
    requires TakesAck(w.a.link, op, lane) && IsNumber(w, op.packet, k)
    ensures k < |w.built| && PauseAfter(w.a.link, op, lane) == Heeded(PauseOf(w.a.link.out, lane), SaidBy(w.built, k))
  {
    hide SystemOk, HistoryOk, SerialAfter, DecodeAck;
    ArrivesAsBuilt(w, op.packet, k, clock);
  }

  lemma LookMatches(w: Watched, op: Op, k: nat, lane: Lane, clock: int)
    requires WatchedOk(w, lane, clock) && lane != Media && !w.a.link.failed
    requires TakesAck(w.a.link, op, lane) && IsNumber(w, op.packet, k) && Near(k, w.seen)
    ensures exists m: nat :: Latest(m, w.seen + {k}) && m < |w.built| && PauseAfter(w.a.link, op, lane) == SaidBy(w.built, m)
  {
    hide SystemOk, HistoryOk, SerialAfter, IsNumber, TakesAck, PauseAfter, PauseOf;
    LookHeeds(w, op, k, lane, clock);
    if w.seen == {} {
      FirstLatest(k);
    } else {
      var m: nat :| Latest(m, w.seen) && m < |w.built| && PauseOf(w.a.link.out, lane) == SaidBy(w.built, m);
      LaterWins(w.built, m, k);
      LatestMore(w.seen, m, k);
    }
  }

  lemma FailedBefore(l: Link, op: Op)
    requires !Step(l, op).failed
    ensures !l.failed
  {
    if l.failed { FailedStays(l, op); }
  }

  lemma FirstMoves(w: Watched, op: Op, k: nat, lane: Lane, clock: int)
    requires WatchedOk(w, lane, clock) && lane != Media && LinkOk(w.a.link, clock)
    requires !Step(w.a.link, op).failed
    requires TakesAck(w.a.link, op, lane) ==>
      IsNumber(w, op.packet, k) && Near(k, w.seen)
    ensures PausedByLatest(Watched(w.a.(link := Step(w.a.link, op)), w.b, w.built,
                                   if TakesAck(w.a.link, op, lane) then w.seen + {k} else w.seen), lane)
  {
    hide LinkOk, Step, SystemOk, HistoryOk, TakesAck, IsNumber, Latest, Near, PauseOf, SaidBy;
    FailedBefore(w.a.link, op);
    StepPause(w.a.link, op, lane, clock);
    if TakesAck(w.a.link, op, lane) {
      LookMatches(w, op, k, lane, clock);
      assert k in w.seen + {k};
    }
  }

  lemma SamePaused(w: Watched, w': Watched, lane: Lane)
    requires PausedByLatest(w, lane) && PauseOf(w'.a.link.out, lane) == PauseOf(w.a.link.out, lane)
    requires w.built <= w'.built && w'.seen == w.seen
    ensures PausedByLatest(w', lane)
  {
    hide PauseOf, Latest;
    if w.seen != {} {
      var k: nat :| Latest(k, w.seen) && k < |w.built| && PauseOf(w.a.link.out, lane) == SaidBy(w.built, k);
      assert SaidBy(w'.built, k) == SaidBy(w.built, k);
    }
  }

  lemma ReserveLeaves(x: End, used: int)
    ensures EndStep(x, OthersReserve(used)).link.out == x.link.out
    ensures EndStep(x, OthersReserve(used)).link.failed == x.link.failed
  {
  }

  lemma FirstTurn(w: Watched, t: Turn, k: nat, lane: Lane, clock: int)
    requires WatchedOk(w, lane, clock) && lane != Media && t.first && LinkOk(w.a.link, clock)
    requires Shown(w, t, k, lane) && (LooksAt(w, t, lane) ==> Near(k, w.seen))
    requires !Next(w, t, k, lane).a.link.failed
    ensures PausedByLatest(Next(w, t, k, lane), lane)
  {
    hide WatchedOk, LinkOk, EndStep, TakesAck, IsNumber, Near, Step, PauseOf;
    match t.op
    case Do(op) =>
      hide PausedByLatest;
      EndStepLink(w.a, op);
      FirstMoves(w, op, k, lane, clock);
      var w1 := Watched(w.a.(link := Step(w.a.link, op)), w.b, w.built,
                        if TakesAck(w.a.link, op, lane) then w.seen + {k} else w.seen);
      SamePaused(w1, Next(w, t, k, lane), lane);
    case OthersReserve(used) =>
      ReserveLeaves(w.a, used);
      WasPaused(w, lane, clock);
      SamePaused(w, Next(w, t, k, lane), lane);
  }

  lemma WasPaused(w: Watched, lane: Lane, clock: int)
    requires WatchedOk(w, lane, clock) && !w.a.link.failed
    ensures PausedByLatest(w, lane)
  {
  }

  lemma NextOk(w: Watched, t: Turn, k: nat, lane: Lane, clock: int)
    requires WatchedOk(w, lane, clock) && lane != Media && TurnAllowed(w.a, w.b, t, clock)
    requires Shown(w, t, k, lane) && (LooksAt(w, t, lane) ==> Near(k, w.seen))
    ensures WatchedOk(Next(w, t, k, lane), lane, NetTime(t.op, clock))
  {
    hide HistoryOk, IsNumber, Near, TakesAck, EndStep, TurnAllowed, PausedByLatest, PauseOf;
    TurnOk(w.a, w.b, t, clock);
    SystemLink(w.a, w.b, clock);
    hide SystemOk;
    var w' := Next(w, t, k, lane);
    if t.first {
      if !w'.a.link.failed { FirstTurn(w, t, k, lane, clock); }
    } else {
      HistoryGoesOn(w, t, clock);
      if !w'.a.link.failed { SamePaused(w, w', lane); }
    }
  }

  lemma HistoryGoesOn(w: Watched, t: Turn, clock: int)
    requires SystemOk(w.a, w.b, clock) && HistoryOk(w.b, w.built) && TurnAllowed(w.a, w.b, t, clock) && !t.first
    ensures HistoryOk(EndStep(w.b, t.op), w.built + BuiltIn(w.b, t.op))
  {
    hide SystemOk, HistoryOk, Allowed, EndStep;
    SystemSymmetric(w.a, w.b, clock);
    StepHistory(w.b, w.a, t.op, w.built, clock);
  }

  lemma SystemLink(a: End, b: End, clock: int)
    requires SystemOk(a, b, clock)
    ensures LinkOk(a.link, clock)
  {
  }

  lemma {:induction false} WatchedRun(w: Watched, turns: seq<Turn>, which: seq<nat>, lane: Lane, clock: int, w': Watched,
                                      clock': int)
    requires WatchedOk(w, lane, clock) && lane != Media
    requires Watches(w, turns, which, lane, clock, w', clock') && Close(w, turns, which, lane)
    ensures WatchedOk(w', lane, clock')
    decreases |turns|
  {
    hide WatchedOk, TurnAllowed, LooksAt, Shown, Near, Next;
    if turns != [] {
      NextOk(w, turns[0], which[0], lane, clock);
      WatchedRun(Next(w, turns[0], which[0], lane), turns[1..], which[1..], lane, NetTime(turns[0].op, clock), w', clock');
    }
  }

  ghost predicate NothingYet(w: Watched) { Fresh(w.a, w.b) && w.built == [] && w.seen == {} }

  lemma NothingYetOk(w: Watched, lane: Lane, clock: int)
    requires NothingYet(w)
    ensures WatchedOk(w, lane, clock)
  {
    FreshSystem(w.a, w.b, clock);
    hide SystemOk;
  }

  /** From two new links on, over any network: the k-th Ack b builds carries k modulo 2^32,
      and a lane of a is paused exactly as the latest-built Ack of those that arrived says, in whatever order they did. */
  lemma PauseIsLatest(w: Watched, turns: seq<Turn>, which: seq<nat>, lane: Lane, clock: int, w': Watched, clock': int)
    requires NothingYet(w) && lane != Media
    requires Watches(w, turns, which, lane, clock, w', clock') && Close(w, turns, which, lane)
    ensures InOrder(w'.built) && (!w'.a.link.failed ==> PausedByLatest(w', lane))
  {
    hide Watches, Close, NothingYet, SystemOk, PausedByLatest, InOrder;
    NothingYetOk(w, lane, clock);
    WatchedRun(w, turns, which, lane, clock, w', clock');
  }

  // --- Every run can be watched ---------------------------------------------------------------------------------

  /** An Ack that arrives is one of those that were built. */
  lemma ArrivalHasNumber(w: Watched, p: Packet) returns (k: nat)
    requires HistoryOk(w.b, w.built) && Arrives(w.b, p) && p.header.flags.kind == Ack
    requires forall q :: q in w.b.net ==> OnWireOk(q, w.b.link.localId)
    ensures IsNumber(w, p, k)
  {
    hide DecodePacket, EncodePacket, WellFormed, InOrder;
    var q :| q in w.b.net && DecodePacket(EncodePacket(q)) == Some(p);
    assert OnWireOk(q, w.b.link.localId);
    PacketRoundTrip(q);
    k :| 0 <= k < |w.built| && w.built[k] == q;
  }

  lemma LookHasNumber(w: Watched, t: Turn, lane: Lane, clock: int) returns (k: nat)
    requires SystemOk(w.a, w.b, clock) && HistoryOk(w.b, w.built) && TurnAllowed(w.a, w.b, t, clock)
    ensures Shown(w, t, k, lane)
  {
    hide LinkOk, Agreed, HistoryOk, Arrives, IsNumber, OnWireOk;
    k := 0;
    if LooksAt(w, t, lane) { k := ArrivalHasNumber(w, t.op.op.packet); }
  }

  lemma NextHistory(w: Watched, t: Turn, k: nat, lane: Lane, clock: int)
    requires SystemOk(w.a, w.b, clock) && HistoryOk(w.b, w.built) && TurnAllowed(w.a, w.b, t, clock)
    ensures var w' := Next(w, t, k, lane); SystemOk(w'.a, w'.b, NetTime(t.op, clock)) && HistoryOk(w'.b, w'.built)
  {
    hide HistoryOk, TurnAllowed, EndStep, SystemOk, LooksAt;
    TurnOk(w.a, w.b, t, clock);
    if !t.first { HistoryGoesOn(w, t, clock); }
  }

  lemma {:induction false} EveryRunWatched(w: Watched, turns: seq<Turn>, clock: int, a': End, b': End, clock': int, lane: Lane)
    returns (which: seq<nat>, w': Watched)
    requires SystemOk(w.a, w.b, clock) && HistoryOk(w.b, w.built) && Reaches(w.a, w.b, turns, clock, a', b', clock')
    ensures Watches(w, turns, which, lane, clock, w', clock') && w'.a == a' && w'.b == b'
    decreases |turns|
  {
    hide SystemOk, HistoryOk, TurnAllowed, LooksAt, Shown, EndStep;
    if turns == [] {
      which, w' := [], w;
    } else {
      var k := LookHasNumber(w, turns[0], lane, clock);
      NextHistory(w, turns[0], k, lane, clock);
      var w1 := Next(w, turns[0], k, lane);
      var rest;
      rest, w' := EveryRunWatched(w1, turns[1..], NetTime(turns[0].op, clock), a', b', clock', lane);
      which := [k] + rest;
      assert which[1..] == rest;
    }
  }

  lemma {:induction false} BuiltGrows(w: Watched, turns: seq<Turn>, which: seq<nat>, lane: Lane, clock: int, w': Watched,
                                      clock': int)
    requires Watches(w, turns, which, lane, clock, w', clock')
    ensures |w.built| <= |w'.built|
    decreases |turns|
  {
    hide TurnAllowed, LooksAt, Shown, EndStep;
    if turns != [] {
      BuiltGrows(Next(w, turns[0], which[0], lane), turns[1..], which[1..], lane, NetTime(turns[0].op, clock), w', clock');
    }
  }

  /** As long as no more than 2^31 Acks were built, no two of them are too far apart. */
  lemma {:induction false} FewAreClose(w: Watched, turns: seq<Turn>, which: seq<nat>, lane: Lane, clock: int, w': Watched,
                                       clock': int)
    requires Watches(w, turns, which, lane, clock, w', clock') && |w'.built| <= HALF
    requires forall k :: k in w.seen ==> k < |w.built|
    ensures Close(w, turns, which, lane)
    decreases |turns|
  {
    hide TurnAllowed, EndStep, TakesAck;
    if turns != [] {
      BuiltGrows(w, turns, which, lane, clock, w', clock');
      FewAreClose(Next(w, turns[0], which[0], lane), turns[1..], which[1..], lane, NetTime(turns[0].op, clock), w', clock');
    }
  }

  /** The same for every run in which the other end built no more than 2^31 Acks. */
  lemma PauseIsLatestEver(a: End, b: End, turns: seq<Turn>, clock: int, a': End, b': End, clock': int, lane: Lane)
    returns (which: seq<nat>, w': Watched)
    requires Fresh(a, b) && Reaches(a, b, turns, clock, a', b', clock') && lane != Media
    ensures Watches(Watched(a, b, [], {}), turns, which, lane, clock, w', clock')
    ensures w'.a == a' && w'.b == b' && (|w'.built| <= HALF && !a'.link.failed ==> PausedByLatest(w', lane))
  {
    hide Watches, Close, Reaches, SystemOk, PausedByLatest, InOrder, Fresh;
    var w := Watched(a, b, [], {});
    NothingYetOk(w, lane, clock);
    which, w' := EveryRunWatched(w, turns, clock, a', b', clock', lane);
    if |w'.built| <= HALF {
      FewAreClose(w, turns, which, lane, clock, w', clock');
      PauseIsLatest(w, turns, which, lane, clock, w', clock');
    }
  }
}
