/** What two links promise each other, in every state any run can reach. */
module LinkTheorems {
  import opened Transport
  import opened PacketFlags
  import opened PacketHeader
  import opened AckRanges
  import opened Fragments
  import opened MessageAssembler
  import opened MediaAssembler
  import opened LinkModel
  import opened LinkLedger
  import opened LinkRuns
  import opened LinkDelivery
  import opened LinkSending
  import opened LinkNetwork

  // --- One step of one end ---------------------------------------------------------------------------

  /** A step at x that leaves x with its name, its draws and its wire. */
  lemma PassiveAround(x: End, x': End, peer: nat)
    requires Around(x, peer) && x'.link.localId == x.link.localId && x'.link.remoteId == x.link.remoteId
    requires x'.drawn == x.drawn && x'.net == x.net && x'.link.pendingAcks == x.link.pendingAcks
    requires x'.link.inb.mediaReceived < U32 && BudgetOk(x'.link.inb)
    ensures Around(x', peer)
  {
    hide AllSendable, OnWireOk, BudgetOk;
    assert forall lane :: Drawn(x', lane) == Drawn(x, lane);
  }

  lemma SentAround(x: End, x': End, peer: nat, lane: Lane, took: bool, offered: Option<Message>)
    requires Around(x, peer) && x'.link.localId == x.link.localId && x'.link.remoteId == x.link.remoteId
    requires forall k :: Drawn(x', k) == if k == lane then DrawnBy(Drawn(x, k), took, offered) else Drawn(x, k)
    requires AllSendable(DrawnBy(Drawn(x, lane), took, offered), lane)
    requires forall p :: p in x'.net && p !in x.net ==> OnWireOk(p, x.link.localId)
    requires x'.link.pendingAcks == x.link.pendingAcks && x'.link.inb == x.link.inb
    ensures Around(x', peer)
  {
    hide AllSendable, OnWireOk, BudgetOk, Drawn;
  }

  lemma DrawnBySendable(D: seq<Message>, took: bool, offered: Option<Message>, lane: Lane)
    requires AllSendable(D, lane) && (offered.Some? ==> Sendable(offered.value, lane))
    ensures AllSendable(DrawnBy(D, took, offered), lane)
  {
  }

  lemma NewDataNotAck(x: End, x': End)
    requires x'.link.inb == x.link.inb && x'.link.failed == x.link.failed && x'.log == x.log
    requires x'.link.pendingAcks == x.link.pendingAcks
    requires forall p :: p in x'.net && p !in x.net ==> p.header.flags.kind == Data
    ensures SameReceiver(x, x')
  {
  }

  /** What a peek or a send leaves alone. */
  lemma SendFrame(x: End, lane: Lane, offered: Option<Message>, now: int)
    ensures var x1, x2 := PeekStep(x, lane, offered), SendStep(x, lane, offered, now);
            && SendLeaves(x, x1) && SendLeaves(x, x2) && x1.net == x.net
  {
    hide PeekLane, CommitLane, OfferOf, DropDead;
  }

  ghost predicate SendLeaves(x: End, x': End) {
    && x'.link.inb == x.link.inb && x'.link.failed == x.link.failed && x'.log == x.log
    && x'.link.pendingAcks == x.link.pendingAcks && x'.link.localId == x.link.localId && x'.link.remoteId == x.link.remoteId
  }

  lemma SendDrawn(x: End, lane: Lane, offered: Option<Message>, now: int, k: Lane)
    ensures var r := Peek(x.link, lane, offered);
            var D := if k == lane then DrawnBy(Drawn(x, k), r.took, offered) else Drawn(x, k);
            Drawn(PeekStep(x, lane, offered), k) == D && Drawn(SendStep(x, lane, offered, now), k) == D
  {
    hide Peek, Commit, ForLane;
    PeeksDrawn(x, Peek(x.link, lane, offered), lane, offered, k);
  }

  /** Sending on an acknowledged lane leaves Media alone. */
  lemma SendMediaPair(x: End, x': End, y: End)
    requires MediaPair(x, y) && x'.link.failed == x.link.failed && Drawn(x', Media) == Drawn(x, Media)
    requires x'.link.mediaCursor == x.link.mediaCursor && x'.link.nextMediaSeq == x.link.nextMediaSeq
    requires forall p :: p in x'.net && p !in x.net ==> !IsData(p, Media)
    ensures MediaPair(x', y)
  {
    hide CursorPos, MediaOk, Frags, Carries, ForLane;
  }

  /** What goes out on an acknowledged lane: nothing new, or a packet of that lane that the decoder takes. */
  lemma SendWire(x: End, lane: Lane, offered: Option<Message>, now: int, p: Packet)
    requires !x.link.failed && lane != Media && SendsOk(x, lane) && NoWrap(x.link) && IdsOk(x.link)
    requires AllSendable(Drawn(x, lane), lane) && (offered.Some? ==> Sendable(offered.value, lane))
    requires p in SendStep(x, lane, offered, now).net && p !in x.net
    ensures IsData(p, lane) && OnWireOk(p, x.link.localId)
  {
    hide Peek, SendsOk, NoWrap, IdsOk, AllSendable, Sendable, Drawn, Commit;
    OfferPair(x, lane, offered);
    var r := Peek(x.link, lane, offered);
    GoodIsData(p, lane, DrawnBy(Drawn(x, lane), r.took, offered), x.link.localId);
  }

  lemma GoodIsData(p: Packet, lane: Lane, D: seq<Message>, id: nat)
    requires GoodData(p, lane, D, id)
    ensures IsData(p, lane) && OnWireOk(p, id)
  {
  }

  lemma SendLaneAgreed(x: End, y: End, lane: Lane, offered: Option<Message>, now: int, clock: int)
    requires Agreed(x, y) && Around(x, y.link.localId) && LinkOk(x.link, clock) && NoWrap(x.link)
    requires lane != Media && !x.link.failed && (offered.Some? ==> Sendable(offered.value, lane))
    ensures var x1, x2 := PeekStep(x, lane, offered), SendStep(x, lane, offered, now);
            Agreed(x1, y) && Agreed(x2, y) && Around(x1, y.link.localId) && Around(x2, y.link.localId)
  {
    var r, x1, x2 := Peek(x.link, lane, offered), PeekStep(x, lane, offered), SendStep(x, lane, offered, now);
    SendFrame(x, lane, offered, now);
    SendMediaFields(x, lane, offered, now);
    hide LinkOk, NoWrap, OnWireOk, AllSendable, MediaPair, Sendable, PeekStep, SendStep, Peek, IdsOk, Drawn, SendsOk,
         DataOk, StepsOk, AcksOk, NothingLost, BudgetOk, SameReceiver;
    forall k
      ensures Drawn(x1, k) == (if k == lane then DrawnBy(Drawn(x, k), r.took, offered) else Drawn(x, k))
      ensures Drawn(x2, k) == (if k == lane then DrawnBy(Drawn(x, k), r.took, offered) else Drawn(x, k))
    {
      SendDrawn(x, lane, offered, now, k);
    }
    DrawnBySendable(Drawn(x, lane), r.took, offered, lane);
    assert Pair(x, y, lane);
    forall p | p in x2.net && p !in x.net
      ensures IsData(p, lane) && OnWireOk(p, x.link.localId)
    {
      SendWire(x, lane, offered, now, p);
    }
    SentAround(x, x1, y.link.localId, lane, r.took, offered);
    SentAround(x, x2, y.link.localId, lane, r.took, offered);
    NewDataNotAck(x, x1);
    NewDataNotAck(x, x2);
    SendMediaPair(x, x1, y);
    SendMediaPair(x, x2, y);
    hide Pair, Around;
    forall k | k != Media
      ensures Pair(x1, y, k) && Pair(x2, y, k)
    {
      SendLanePairs(x, y, lane, offered, now, k, clock);
    }
    SendingAgreed(x, x1, y);
    SendingAgreed(x, x2, y);
  }

  lemma SendMediaFields(x: End, lane: Lane, offered: Option<Message>, now: int)
    requires lane != Media
    ensures var x1, x2 := PeekStep(x, lane, offered), SendStep(x, lane, offered, now);
            && x1.link.mediaCursor == x.link.mediaCursor && x1.link.nextMediaSeq == x.link.nextMediaSeq
            && x2.link.mediaCursor == x.link.mediaCursor && x2.link.nextMediaSeq == x.link.nextMediaSeq
  {
    hide PeekLane, CommitLane, OfferOf, DropDead;
  }

  lemma SendLanePairs(x: End, y: End, lane: Lane, offered: Option<Message>, now: int, k: Lane, clock: int)
    requires Agreed(x, y) && Around(x, y.link.localId) && LinkOk(x.link, clock) && NoWrap(x.link) && k != Media
    requires lane != Media && !x.link.failed && (offered.Some? ==> Sendable(offered.value, lane))
    ensures Pair(PeekStep(x, lane, offered), y, k) && Pair(SendStep(x, lane, offered, now), y, k)
  {
    assert Pair(x, y, lane) && Pair(x, y, k);
    hide LinkOk, NoWrap, OnWireOk, AllSendable, MediaPair, Sendable, PeekStep, SendStep, Drawn, SendsOk, DataOk,
         StepsOk, AcksOk, NothingLost, BudgetOk;
    PeekPair(x, y, lane, offered, k);
    SendPair(x, y, lane, offered, now, k, clock);
  }

  // Media

  lemma SendMediaAgreed(x: End, y: End, offered: Option<Message>, now: int)
    requires Agreed(x, y) && Around(x, y.link.localId) && NoWrap(x.link) && !x.link.failed
    requires offered.Some? ==> Sendable(offered.value, Media)
    ensures var x1, x2 := PeekStep(x, Media, offered), SendStep(x, Media, offered, now);
            Agreed(x1, y) && Agreed(x2, y) && Around(x1, y.link.localId) && Around(x2, y.link.localId)
  {
    var r, x1, x2 := Peek(x.link, Media, offered), PeekStep(x, Media, offered), SendStep(x, Media, offered, now);
    SendFrame(x, Media, offered, now);
    assert x1.link.out == x.link.out && x2.link.out == x.link.out;
    assert AllSendable(Drawn(x, Media), Media);
    hide NoWrap, OnWireOk, AllSendable, MediaOk, Sendable, PeekStep, SendStep, Peek, IdsOk, Drawn, BudgetOk,
         SameReceiver, Pair, CursorPos;
    forall k
      ensures Drawn(x1, k) == (if k == Media then DrawnBy(Drawn(x, k), r.took, offered) else Drawn(x, k))
      ensures Drawn(x2, k) == (if k == Media then DrawnBy(Drawn(x, k), r.took, offered) else Drawn(x, k))
    {
      SendDrawn(x, Media, offered, now, k);
    }
    DrawnBySendable(Drawn(x, Media), r.took, offered, Media);
    MediaSent(x, offered, now);
    SentAround(x, x1, y.link.localId, Media, r.took, offered);
    SentAround(x, x2, y.link.localId, Media, r.took, offered);
    NewDataNotAck(x, x1);
    NewDataNotAck(x, x2);
    MediaDrawn(x, x1, y, r.took, offered);
    MediaDrawn(x, x2, y, r.took, offered);
    hide MediaSendsOk, DataOk, MediaRecvOk, Around;
    forall k | k != Media
      ensures Pair(x1, y, k) && Pair(x2, y, k)
    {
      SelfContents(SendOf(x.link.out, k));
      SameDrawnPair(x, x1, y, k);
      SameDrawnPair(x, x2, y, k);
    }
    SendingAgreed(x, x1, y);
    SendingAgreed(x, x2, y);
  }

  lemma SelfContents(s: SendSide)
    ensures SameContents(s, s)
  {
  }

  lemma MediaDrawn(x: End, x': End, y: End, took: bool, offered: Option<Message>)
    requires MediaRecvOk(x, y) && Drawn(x', Media) == DrawnBy(Drawn(x, Media), took, offered)
    ensures MediaRecvOk(x', y)
  {
    hide ForLane, MediaOk;
    if took && offered.Some? {
      MediaOkGrows(y.link.inb.media, Drawn(x, Media), offered.value);
    }
  }

  // Receiving

  lemma ReceiveAgreed(x: End, y: End, p: Packet, now: int, clock: int)
    requires Agreed(x, y) && Around(x, y.link.localId) && Around(y, x.link.localId) && LinkOk(x.link, clock)
    requires Arrives(y, p)
    ensures var x' := x.(link := OnPacket(x.link, p, now)); Agreed(x', y) && Around(x', y.link.localId)
  {
    if !x.link.failed && !Stale(x.link, p.header) {
      var w := ArrivesIs(y, p, y.link.localId);
      var lane := p.header.flags.lane;
      hide Agreed, LinkOk, Around, Arrives;
      match p.header.flags.kind
      case Data => ReceiveData(x, y, p, w, now);
      case Ack => ReceiveAck(x, y, p, w, now, clock);
      case Ping => ReceivePing(x, y, p, w, now);
      case Beacon => ReceivePing(x, y, p, w, now);
    }
  }

  /** Hearing from the peer changes nothing but what is known about it. */
  lemma HeardAround(x: End, x': End, y: End)
    requires Around(x, y.link.localId) && Around(y, x.link.localId)
    requires x'.link.localId == x.link.localId && x'.link.remoteId == Some(y.link.localId)
    requires x'.drawn == x.drawn && x'.net == x.net && x'.link.pendingAcks == x.link.pendingAcks
    requires x'.link.inb.mediaReceived < U32 && BudgetOk(x'.link.inb)
    ensures Around(x', y.link.localId)
  {
    hide AllSendable, OnWireOk, BudgetOk;
    assert forall lane :: Drawn(x', lane) == Drawn(x, lane);
  }

  lemma ReceivePing(x: End, y: End, p: Packet, w: Packet, now: int)
    requires Agreed(x, y) && Around(x, y.link.localId) && Around(y, x.link.localId)
    requires !x.link.failed && !Stale(x.link, p.header) && p.header.src == y.link.localId
    requires p.header.flags.kind == Ping || p.header.flags.kind == Beacon
    ensures var x' := x.(link := OnPacket(x.link, p, now)); Agreed(x', y) && Around(x', y.link.localId)
  {
    var x' := x.(link := OnPacket(x.link, p, now));
    hide Agreed;
    assert SameSender(x, x') && SameReceiver(x, x');
    AroundBudget(x, y.link.localId);
    hide Around;
    PassiveAgreed(x, x', y);
    HeardAround(x, x', y);
  }

  lemma AroundBudget(x: End, peer: nat)
    requires Around(x, peer)
    ensures BudgetOk(x.link.inb) && x.link.inb.mediaReceived < U32 && forall lane :: AllSendable(Drawn(x, lane), lane)
  {
  }

  lemma ReceiveAck(x: End, y: End, p: Packet, w: Packet, now: int, clock: int)
    requires Agreed(x, y) && Around(x, y.link.localId) && Around(y, x.link.localId) && LinkOk(x.link, clock)
    requires !x.link.failed && !Stale(x.link, p.header) && p.header.src == y.link.localId
    requires w in y.net && p == Packet(w.header.Canonical(), w.body) && p.header.sq == w.header.sq && p.header.flags == w.header.flags
    requires p.header.flags.kind == Ack
    ensures var x' := x.(link := OnPacket(x.link, p, now)); Agreed(x', y) && Around(x', y.link.localId)
  {
    hide LinkOk, Ledger, Timed, HandleAck, DecodeAck, Pair, MediaPair, HandleData, HandleMedia, DueForData;
    var x', lane, ack := x.(link := OnPacket(x.link, p, now)), p.header.flags.lane, DecodeAck(p.body);
    NoMediaStream(x.link, clock);
    LedgerInTime(x.link, clock);
    assert SameReceiver(x, x');
    AroundBudget(x, y.link.localId);
    hide Around;
    HeardAround(x, x', y);
    assert IsAck(w, lane);
    forall k | k != Media
      ensures Pair(x', y, k)
    {
      if StreamExists(x.link, lane) && ack.Some? {
        AckPair(x, x', y, lane, w, ack.value, now, k, clock);
      } else {
        assert SameSender(x, x');
        SameSenderPair(x, x', y, k);
      }
    }
    AckMedia(x, x', y);
    SendingAgreed(x, x', y);
  }

  lemma LedgerInTime(l: Link, clock: int)
    requires LinkOk(l, clock)
    ensures Ledger(l.out) && Timed(l.out, clock)
  {
  }

  lemma AckMedia(x: End, x': End, y: End)
    requires MediaPair(x, y) && x'.link.failed == x.link.failed && x'.drawn == x.drawn && x'.net == x.net
    requires x'.link.mediaCursor == x.link.mediaCursor && x'.link.nextMediaSeq == x.link.nextMediaSeq
    ensures MediaPair(x', y)
  {
    hide CursorPos, MediaOk, Frags, Carries;
    assert Drawn(x', Media) == Drawn(x, Media);
    hide Drawn;
  }

  lemma ReceiveData(x: End, y: End, p: Packet, w: Packet, now: int)
    requires Agreed(x, y) && Around(x, y.link.localId) && Around(y, x.link.localId)
    requires !x.link.failed && !Stale(x.link, p.header) && p.header.src == y.link.localId
    requires w in y.net && p == Packet(w.header.Canonical(), w.body) && p.header.sq == w.header.sq && p.header.flags == w.header.flags
    requires p.header.flags.kind == Data
    ensures var x' := x.(link := OnPacket(x.link, p, now)); Agreed(x', y) && Around(x', y.link.localId)
  {
    var x', lane := x.(link := OnPacket(x.link, p, now)), p.header.flags.lane;
    AroundBudget(x, y.link.localId);
    AroundBudget(y, x.link.localId);
    assert IsData(w, lane);
    hide Around, HandleData, AcceptMedia, Pair, MediaPair, DueForData, AllSendable, BudgetOk;
    assert SameSender(x, x');
    if lane == Media {
      MediaReceived(y, x, x', p, w);
      forall k | k != Media
        ensures Pair(y, x', k)
      {
        MediaOtherPair(y, x, x', p, k);
      }
      HandleMediaBudget(x.link.inb, p);
    } else {
      HandleDataBudget(x.link.inb, lane, p);
      HandleDataRest(x.link.inb, lane, p);
      forall k | k != Media
        ensures Pair(y, x', k)
      {
        if k == lane {
          DataPair(y, x, x', lane, p, w);
        } else {
          DataOtherPair(y, x, x', lane, p, w, k);
        }
      }
      DataMedia(y, x, x', lane, p, w);
    }
    HeardAround(x, x', y);
    ReceivingAgreed(x, x', y);
  }

  lemma HandleMediaBudget(i: Inbound, p: Packet)
    requires BudgetOk(i)
    ensures BudgetOk(HandleMedia(i, p)) && HandleMedia(i, p).mediaReceived < U32
  {
    hide AcceptMedia;
    assert HandleMedia(i, p).recvs == i.recvs && HandleMedia(i, p).budget == i.budget;
  }

  lemma HandleDataRest(i: Inbound, lane: Lane, p: Packet)
    ensures HandleData(i, lane, p).mediaReceived == i.mediaReceived && HandleData(i, lane, p).media == i.media
  {
    hide Retried, TakeData;
  }

  lemma DataMedia(y: End, x: End, x': End, lane: Lane, p: Packet, w: Packet)
    requires Pair(y, x, lane) && MediaPair(y, x) && AllSendable(Drawn(y, lane), lane) && lane != Media && !x.link.failed
    requires w in y.net && IsData(w, lane) && p == Packet(w.header.Canonical(), w.body)
    requires x'.link.inb == HandleData(x.link.inb, lane, p) && x'.log == x.log
    ensures MediaPair(y, x')
  {
    var D := Drawn(y, lane);
    CanonicalGood(y, w, lane);
    SendableTakeable(D, lane);
    HandleDataRest(x.link.inb, lane, p);
    hide Frags, Carries, LaneInStep, HandleData, AllSendable, AllTakeable, IntakeOk, GapOk, AcksOk, SendsOk,
         TakeData, Retried, ForLane, HeldGrows, MediaOk, MediaSendsOk, NothingLost;
    HandleDataOk(x.link.inb, x.log, D, lane, p);
    hide DataOk;
    var c := TakeData(Retried(IntakeOf(x.link.inb, lane), lane), lane, p);
    assert ForLane(x.log + c.delivered, Media) == ForLane(x.log + x.link.inb.delivered, Media);
    assert Got(x', Media) == Got(x, Media);
  }

  // Timers

  lemma TimerAgreed(x: End, y: End, now: int, clock: int)
    requires Agreed(x, y) && Around(x, y.link.localId) && LinkOk(x.link, clock)
    ensures var x' := x.(link := OnTimer(x.link, now)); Agreed(x', y) && Around(x', y.link.localId)
  {
    var x' := x.(link := OnTimer(x.link, now));
    if x.link.failed {
    } else if Silent(x.link, now) {
      FailAgreed(x, x', y);
    } else {
      AroundBudget(x, y.link.localId);
      assert Ledger(x.link.out) && Timed(x.link.out, clock);
      hide LinkOk, Ledger, Timed, TimedOut, Pair, MediaPair, Around;
      forall k | k != Media
        ensures Pair(x', y, k)
      {
        TimerPair(x, x', y, now, k, clock);
      }
      AckMedia(x, x', y);
      assert SameReceiver(x, x');
      SendingAgreed(x, x', y);
      PassiveAround(x, x', y.link.localId);
    }
  }

  lemma FailAgreed(x: End, x': End, y: End)
    requires Agreed(x, y) && Around(x, y.link.localId) && x'.link == Fail(x.link)
    requires x'.drawn == x.drawn && x'.net == x.net && x'.log == x.log
    ensures Agreed(x', y) && Around(x', y.link.localId)
  {
    AroundBudget(x, y.link.localId);
    FreedBudgetIs(x.link.inb);
    hide Pair, MediaPair, FreedBudget;
    forall k | k != Media
      ensures Pair(x', y, k) && Pair(y, x', k)
    {
      FailSender(x, x', y, k);
      FailReceiver(y, x, x', k);
    }
    FailMedia(x, x', y);
    FailAround(x, x', y.link.localId);
  }

  lemma FailAround(x: End, x': End, peer: nat)
    requires Around(x, peer) && x'.drawn == x.drawn && x'.net == x.net && x'.link.pendingAcks == []
    requires x'.link.localId == x.link.localId && x'.link.remoteId == x.link.remoteId
    requires x'.link.inb.mediaReceived == 0 && BudgetOk(x'.link.inb)
    ensures Around(x', peer)
  {
    hide AllSendable, OnWireOk, BudgetOk;
    assert forall lane :: Drawn(x', lane) == Drawn(x, lane);
  }

  // Acks

  lemma PeekAckAgreed(x: End, y: End)
    requires Agreed(x, y) && Around(x, y.link.localId) && Around(y, x.link.localId) && NoWrap(x.link)
    ensures var x' := x.(link := PeekAck(x.link)); Agreed(x', y) && Around(x', y.link.localId)
  {
    var x' := x.(link := PeekAck(x.link));
    if !x.link.failed {
      PeekAckOut(x.link);
      AroundBudget(y, x.link.localId);
      assert AnswersOk(x, y);
      hide PeekAck, NoWrap, Pair, MediaPair, BudgetOk, AllSendable, OnWireOk;
      PeekAckAnswers(x, y);
      assert SameSender(x, x');
      assert forall lane :: Drawn(x', lane) == Drawn(x, lane);
      ReceivingAgreed(x, x', y);
    }
  }

  /** The front of what was built goes out. */
  lemma CommitAckAgreed(x: End, x': End, y: End)
    requires Agreed(x, y) && Around(x, y.link.localId) && x'.link == CommitAck(x.link) && x'.drawn == x.drawn && x'.log == x.log
    requires x'.net == if x.link.pendingAcks == [] then x.net else x.net + {x.link.pendingAcks[0]}
    ensures Agreed(x', y) && Around(x', y.link.localId)
  {
    hide Agreed, BudgetOk, AllSendable, OnWireOk;
    assert x.link.pendingAcks != [] ==> x.link.pendingAcks[0] in x.link.pendingAcks;
    assert forall p :: p in x'.link.pendingAcks ==> p in x.link.pendingAcks;
    assert SameSender(x, x') && SameReceiver(x, x');
    assert forall lane :: Drawn(x', lane) == Drawn(x, lane);
    PassiveAgreed(x, x', y);
  }

  lemma AckStepAgreed(x: End, y: End)
    requires Agreed(x, y) && Around(x, y.link.localId) && Around(y, x.link.localId) && NoWrap(x.link)
    ensures Agreed(AckStep(x), y) && Around(AckStep(x), y.link.localId)
  {
    hide PeekAck, Agreed, Around, NoWrap;
    PeekAckAgreed(x, y);
    CommitAckAgreed(x.(link := PeekAck(x.link)), AckStep(x), y);
  }

  // The rest

  lemma CollectAgreed(x: End, y: End)
    requires Agreed(x, y) && Around(x, y.link.localId)
    ensures Agreed(CollectStep(x), y) && Around(CollectStep(x), y.link.localId)
  {
    var x' := CollectStep(x);
    assert x.log + x.link.inb.delivered == (x.log + x.link.inb.delivered) + [];
    assert SameSender(x, x');
    AroundBudget(x, y.link.localId);
    assert BudgetOk(x'.link.inb);
    hide Around, BudgetOk;
    PassiveAround(x, x', y.link.localId);
    forall k | k != Media
      ensures Pair(y, x', k)
    {
      CollectPair(y, x, k);
    }
    CollectMedia(y, x);
    hide Pair, MediaPair;
    ReceivingAgreed(x, x', y);
  }

  lemma CollectPair(y: End, x: End, k: Lane)
    requires Pair(y, x, k)
    ensures Pair(y, CollectStep(x), k)
  {
    var x' := CollectStep(x);
    assert x'.log + x'.link.inb.delivered == x.log + x.link.inb.delivered;
    hide SendsOk, DataOk, AckTrue, Held, Under, InStep, Buffered, GapOk, ForLane;
    assert RecvOf(x'.link.inb, k) == RecvOf(x.link.inb, k);
  }

  lemma CollectMedia(y: End, x: End)
    requires MediaPair(y, x)
    ensures MediaPair(y, CollectStep(x))
  {
    var x' := CollectStep(x);
    assert x'.log + x'.link.inb.delivered == x.log + x.link.inb.delivered;
    hide MediaSendsOk, DataOk, MediaOk, ForLane;
  }

  lemma ReserveAgreed(x: End, y: End, used: int)
    requires Agreed(x, y) && Around(x, y.link.localId)
    requires x.link.inb.budget.Some? ==> Own(x.link.inb) <= used <= x.link.inb.budget.value.limit
    ensures Agreed(ReserveStep(x, used), y) && Around(ReserveStep(x, used), y.link.localId)
  {
    var x' := ReserveStep(x, used);
    assert SameSender(x, x');
    assert Own(x'.link.inb) == Own(x.link.inb);
    AroundBudget(x, y.link.localId);
    assert BudgetOk(x'.link.inb);
    hide Around, BudgetOk;
    PassiveAround(x, x', y.link.localId);
    forall k | k != Media
      ensures Pair(y, x', k)
    {
      ReservePair(y, x, used, k);
    }
    ReserveMedia(y, x, used);
    hide Pair, MediaPair;
    ReceivingAgreed(x, x', y);
  }

  lemma ReservePair(y: End, x: End, used: int, k: Lane)
    requires Pair(y, x, k)
    ensures Pair(y, ReserveStep(x, used), k)
  {
    hide SendsOk, DataOk, AckTrue, Held, Under, InStep, Buffered, GapOk, ForLane;
    assert RecvOf(ReserveStep(x, used).link.inb, k) == RecvOf(x.link.inb, k);
  }

  lemma ReserveMedia(y: End, x: End, used: int)
    requires MediaPair(y, x)
    ensures MediaPair(y, ReserveStep(x, used))
  {
    hide MediaSendsOk, DataOk, MediaOk, ForLane;
  }

  lemma QuietAgreed(x: End, l: Link, y: End)
    requires Agreed(x, y) && Around(x, y.link.localId)
    requires l.out == x.link.out && l.inb == x.link.inb && l.failed == x.link.failed && l.pendingAcks == x.link.pendingAcks
    requires l.mediaCursor == x.link.mediaCursor && l.nextMediaSeq == x.link.nextMediaSeq
    requires l.localId == x.link.localId && l.remoteId == x.link.remoteId
    ensures Agreed(x.(link := l), y) && Around(x.(link := l), y.link.localId)
  {
    var x' := x.(link := l);
    assert SameSender(x, x') && SameReceiver(x, x');
    hide Agreed, BudgetOk, AllSendable, OnWireOk;
    assert forall lane :: Drawn(x', lane) == Drawn(x, lane);
    PassiveAgreed(x, x', y);
  }

  // --- Every step ---------------------------------------------------------------------------------------

  function NetTime(op: NetOp, clock: int): int {
    match op
    case Do(op) => TimeOf(op, clock)
    case OthersReserve(_) => clock
  }

  lemma DoAgreed(x: End, y: End, op: Op, clock: int)
    requires Agreed(x, y) && Around(x, y.link.localId) && Around(y, x.link.localId) && LinkOk(x.link, clock)
    requires Allowed(x, y, Do(op))
    ensures var x' := EndStep(x, Do(op)); Agreed(x', y) && Around(x', y.link.localId)
  {
    hide Agreed, Around, LinkOk, Arrives, Sendable, NoWrap;
    match op
    case Send(lane, offered, now) => SendAgreed(x, y, lane, offered, now, clock);
    case JustPeek(lane, offered) => SendAgreed(x, y, lane, offered, 0, clock);
    case Receive(p, now) =>
      hide OnPacket;
      if Arrives(y, p) { ReceiveAgreed(x, y, p, now, clock); } else { StaleIgnored(x.link, p, now); }
    case Timer(now) => hide OnTimer; TimerAgreed(x, y, now, clock);
    case SendAck => AckStepAgreed(x, y);
    case JustPeekAck => PeekAckAgreed(x, y);
    case Pause(paused) => QuietAgreed(x, SetPaused(x.link, paused), y);
    case Watch(now) => QuietAgreed(x, Supervise(x.link, now), y);
    case Collect => CollectAgreed(x, y);
  }

  lemma SendAgreed(x: End, y: End, lane: Lane, offered: Option<Message>, now: int, clock: int)
    requires Agreed(x, y) && Around(x, y.link.localId) && LinkOk(x.link, clock) && NoWrap(x.link)
    requires offered.Some? ==> Sendable(offered.value, lane)
    ensures var x1, x2 := PeekStep(x, lane, offered), SendStep(x, lane, offered, now);
            Agreed(x1, y) && Agreed(x2, y) && Around(x1, y.link.localId) && Around(x2, y.link.localId)
  {
    hide Agreed, Around, LinkOk, NoWrap, Sendable;
    if x.link.failed {
      assert PeekStep(x, lane, offered) == x && SendStep(x, lane, offered, now) == x;
    } else {
      hide PeekStep, SendStep;
      if lane == Media {
        SendMediaAgreed(x, y, offered, now);
      } else {
        SendLaneAgreed(x, y, lane, offered, now, clock);
      }
    }
  }

  lemma DoLinkOk(x: End, op: Op, clock: int)
    requires LinkOk(x.link, clock) && clock <= TimeOf(op, clock)
    ensures LinkOk(EndStep(x, Do(op)).link, TimeOf(op, clock)) && EndStep(x, Do(op)).link.localId == x.link.localId
  {
    hide LinkOk, EndStep, Step;
    StepKeeps(x.link, op, clock);
    EndStepLink(x, op);
    StepName(x.link, op);
  }

  lemma StepName(l: Link, op: Op)
    ensures Step(l, op).localId == l.localId
  {
    hide PeekAck, CommitLane, HandleAck, HandleData, HandleMedia, DueForData, TimedOut, OfferOf, DropDead;
    PeekAckOut(l);
  }

  lemma ReserveLinkOk(x: End, used: int, clock: int)
    requires LinkOk(x.link, clock)
    ensures LinkOk(ReserveStep(x, used).link, clock) && ReserveStep(x, used).link.localId == x.link.localId
  {
    PassiveKeeps(x.link, ReserveStep(x, used).link, clock, clock);
  }

  /** Whatever one end does, both ends stay in agreement. */
  lemma SystemStep(x: End, y: End, op: NetOp, clock: int)
    requires SystemOk(x, y, clock) && Allowed(x, y, op) && clock <= NetTime(op, clock)
    ensures SystemOk(EndStep(x, op), y, NetTime(op, clock))
  {
    hide Agreed, Around;
    LinkLater(y.link, clock, NetTime(op, clock));
    hide LinkOk;
    match op
    case Do(o) =>
      DoAgreed(x, y, o, clock);
      DoLinkOk(x, o, clock);
    case OthersReserve(used) =>
      ReserveAgreed(x, y, used);
      ReserveLinkOk(x, used, clock);
  }

  lemma LinkLater(l: Link, clock: int, later: int)
    requires LinkOk(l, clock) && clock <= later
    ensures LinkOk(l, later)
  {
    PassiveKeeps(l, l, clock, later);
  }

  lemma SystemSymmetric(x: End, y: End, clock: int)
    requires SystemOk(x, y, clock)
    ensures SystemOk(y, x, clock)
  {
    hide EndOk, Pair, MediaPair;
  }

  // --- Every run -------------------------------------------------------------------------------------------

  /** Which end moves, and how. */
  datatype Turn = Turn(first: bool, op: NetOp)

  function TurnStep(a: End, b: End, t: Turn): (End, End) {
    if t.first then (EndStep(a, t.op), b) else (a, EndStep(b, t.op))
  }

  ghost predicate TurnAllowed(a: End, b: End, t: Turn, clock: int) {
    (if t.first then Allowed(a, b, t.op) else Allowed(b, a, t.op)) && clock <= NetTime(t.op, clock)
  }

  lemma TurnOk(a: End, b: End, t: Turn, clock: int)
    requires SystemOk(a, b, clock) && TurnAllowed(a, b, t, clock)
    ensures var (a', b') := TurnStep(a, b, t); SystemOk(a', b', NetTime(t.op, clock))
  {
    hide SystemOk, Allowed, EndStep;
    if t.first {
      SystemStep(a, b, t.op, clock);
    } else {
      SystemSymmetric(a, b, clock);
      SystemStep(b, a, t.op, clock);
      SystemSymmetric(EndStep(b, t.op), a, NetTime(t.op, clock));
    }
  }

  /** (a', b') can be reached from (a, b) by the turns, in which time passes from clock to clock'. */
  ghost predicate Reaches(a: End, b: End, turns: seq<Turn>, clock: int, a': End, b': End, clock': int)
    decreases |turns|
  {
    if turns == [] then a' == a && b' == b && clock' == clock
    else
      && TurnAllowed(a, b, turns[0], clock)
      && var (a1, b1) := TurnStep(a, b, turns[0]);
      Reaches(a1, b1, turns[1..], NetTime(turns[0].op, clock), a', b', clock')
  }

  /** Two links as they come into being. */
  ghost predicate Fresh(a: End, b: End) {
    && (exists t, id, budget :: a == End(NewLink(t, id, budget), [], [], {}) && FreshLink(t, id, budget))
    && (exists t, id, budget :: b == End(NewLink(t, id, budget), [], [], {}) && FreshLink(t, id, budget))
  }

  ghost predicate FreshLink(t: Timings, id: nat, budget: Option<Budget>) {
    0 < t.minRto <= t.maxRto && 0 < id < U32 && (budget.Some? ==> 0 <= budget.value.used <= budget.value.limit)
  }

  lemma FreshEnd(t: Timings, id: nat, budget: Option<Budget>, peer: nat, clock: int)
    requires FreshLink(t, id, budget)
    ensures EndOk(End(NewLink(t, id, budget), [], [], {}), peer, clock)
  {
    NewOutboundOk(t, clock);
    hide Ledger, Timed;
  }

  /** Nothing was drawn, sent or received yet. */
  ghost predicate Blank(x: End) {
    && x.drawn == [] && x.log == [] && x.net == {} && x.link.pendingAcks == [] && x.link.out.sends == map[]
    && x.link.inb.recvs == map[] && x.link.inb.delivered == [] && x.link.inb.media == NO_MEDIA
    && x.link.mediaCursor == None && x.link.nextMediaSeq == 1
  }

  lemma BlankPair(x: End, y: End, k: Lane)
    requires Blank(x) && Blank(y) && k != Media
    ensures Pair(x, y, k)
  {
    assert Frags([]) == [];
    var none: seq<Message> := [];
    assert none[..0] == none;
  }

  lemma BlankMedia(x: End, y: End)
    requires Blank(x) && Blank(y)
    ensures MediaPair(x, y)
  {
    assert Frags([]) == [];
    assert forall i :: 0 <= i < |NO_MEDIA.slots| ==> NO_MEDIA.slots[i] == EMPTY;
  }

  lemma FreshSystem(a: End, b: End, clock: int)
    requires Fresh(a, b)
    ensures SystemOk(a, b, clock)
  {
    var ta, ia, ba :| a == End(NewLink(ta, ia, ba), [], [], {}) && FreshLink(ta, ia, ba);
    var tb, ib, bb :| b == End(NewLink(tb, ib, bb), [], [], {}) && FreshLink(tb, ib, bb);
    FreshEnd(ta, ia, ba, b.link.localId, clock);
    FreshEnd(tb, ib, bb, a.link.localId, clock);
    assert Blank(a) && Blank(b);
    hide EndOk, Pair, MediaPair, Blank, FreshLink, NewLink;
    forall k | k != Media
      ensures Pair(a, b, k) && Pair(b, a, k)
    {
      BlankPair(a, b, k);
      BlankPair(b, a, k);
    }
    BlankMedia(a, b);
    BlankMedia(b, a);
  }

  lemma {:induction false} ReachableOk(a: End, b: End, turns: seq<Turn>, clock: int, a': End, b': End, clock': int)
    requires SystemOk(a, b, clock) && Reaches(a, b, turns, clock, a', b', clock')
    ensures SystemOk(a', b', clock')
    decreases |turns|
  {
    hide SystemOk, TurnStep, TurnAllowed;
    if turns != [] {
      TurnOk(a, b, turns[0], clock);
      var (a1, b1) := TurnStep(a, b, turns[0]);
      ReachableOk(a1, b1, turns[1..], NetTime(turns[0].op, clock), a', b', clock');
    }
  }

  // --- The promises ------------------------------------------------------------------------------------------

  lemma PairPromises(s: End, r: End, lane: Lane)
    requires Pair(s, r, lane)
    ensures Got(r, lane) <= Drawn(s, lane)
  {
    hide SendsOk, DataOk, AcksOk, NothingLost, LaneInStep;
    if !r.link.failed {
      StepHasNext(r.link.inb, r.log, Drawn(s, lane), lane);
    }
  }

  /** Once and in order: in every reachable state, what was delivered on an acknowledged lane is a prefix, byte for byte
      and tag for tag, of what the other end drew from its source. A Media message that was delivered is one it drew. */
  lemma DeliveredInOrder(a: End, b: End, turns: seq<Turn>, clock: int, a': End, b': End, clock': int, lane: Lane)
    requires Fresh(a, b) && Reaches(a, b, turns, clock, a', b', clock')
    ensures lane != Media ==> Got(b', lane) <= Drawn(a', lane) && Got(a', lane) <= Drawn(b', lane)
    ensures forall m :: (m in Got(b', Media) ==> m in Drawn(a', Media)) && (m in Got(a', Media) ==> m in Drawn(b', Media))
  {
    FreshSystem(a, b, clock);
    ReachableOk(a, b, turns, clock, a', b', clock');
    hide Reaches, Fresh, EndOk, Pair;
    if lane != Media {
      PairPromises(a', b', lane);
      PairPromises(b', a', lane);
    }
  }

  /** The end put the packet on the wire, or is about to. */
  ghost predicate Emits(x: End, p: Packet) { p in x.net || p in x.link.pendingAcks }

  /** Whatever either end ever puts on the wire, Data, Acks and Pings, fits a datagram and is read back as it was; and so is
      the body of every Ack. */
  lemma EveryDatagramDecodes(a: End, b: End, turns: seq<Turn>, clock: int, a': End, b': End, clock': int, p: Packet)
    requires Fresh(a, b) && Reaches(a, b, turns, clock, a', b', clock') && (Emits(a', p) || Emits(b', p))
    ensures |EncodePacket(p)| <= MAX_DATAGRAM && DecodePacket(EncodePacket(p)) == Some(Packet(p.header.Canonical(), p.body))
    ensures p.header.flags.kind == Ack ==> DecodeAck(p.body).Some?
    ensures p.header.src == if Emits(a', p) then a'.link.localId else b'.link.localId
  {
    hide Reaches, Fresh, LinkOk, Agreed, Around, WellFormed, EncodePacket, DecodePacket, DecodeAck;
    FreshSystem(a, b, clock);
    ReachableOk(a, b, turns, clock, a', b', clock');
    if Emits(a', p) { EmittedOk(a', b'.link.localId, p); } else { EmittedOk(b', a'.link.localId, p); }
    PacketRoundTrip(p);
  }

  lemma EmittedOk(x: End, peer: nat, p: Packet)
    requires Around(x, peer) && Emits(x, p)
    ensures OnWireOk(p, x.link.localId)
  {
    hide OnWireOk, AllSendable, BudgetOk, IdsOk;
  }

  /** Acknowledgements never renege: while neither link failed, every Ack ever sent names only what its sender still has,
      and every seq ever sent is in flight or at the receiver. */
  lemma AcksNeverRenege(a: End, b: End, turns: seq<Turn>, clock: int, a': End, b': End, clock': int, lane: Lane)
    requires Fresh(a, b) && Reaches(a, b, turns, clock, a', b', clock') && lane != Media
    requires !a'.link.failed && !b'.link.failed
    ensures var send, recv := SendOf(a'.link.out, lane), RecvOf(b'.link.inb, lane);
            && (forall p :: p in b'.net && IsAck(p, lane) ==> AckTrue(p, recv))
            && (forall q :: 1 <= q < send.nextSendSeq ==> q in send.inFlight || Held(recv, q))
            && (forall q: nat :: Held(recv, q) ==> q < send.nextSendSeq)
  {
    hide SystemOk, Reaches, Fresh;
    FreshSystem(a, b, clock);
    ReachableOk(a, b, turns, clock, a', b', clock');
    AgreedPair(a', b', clock', lane);
    hide SendsOk, DataOk, StepsOk, AckTrue;
  }

  lemma AgreedPair(a: End, b: End, clock: int, lane: Lane)
    requires SystemOk(a, b, clock) && lane != Media
    ensures Pair(a, b, lane)
  {
    hide EndOk, Pair, MediaPair;
  }

  /** Acknowledged means delivered: when the sender has nothing pending on the lane and the receiver did not refuse a
      message on it, everything drawn was delivered. */
  lemma AcknowledgedMeansDelivered(a: End, b: End, turns: seq<Turn>, clock: int, a': End, b': End, clock': int, lane: Lane)
    requires Fresh(a, b) && Reaches(a, b, turns, clock, a', b', clock') && lane != Media
    requires !a'.link.failed && !b'.link.failed
    requires !HasPending(a'.link, lane) && !RecvOf(b'.link.inb, lane).budgetPaused
    ensures Got(b', lane) == Drawn(a', lane)
  {
    FreshSystem(a, b, clock);
    ReachableOk(a, b, turns, clock, a', b', clock');
    hide Reaches, Fresh, EndOk, MediaPair, DataOk, AcksOk;
    assert Pair(a', b', lane);
    EmptyMeansDelivered(a', b', lane);
  }

  /** A link that has nothing pending: every fragment of every message it drew was acknowledged, by a receiver that holds it. */
  lemma IdleMeansAcknowledged(a: End, b: End, turns: seq<Turn>, clock: int, a': End, b': End, clock': int, lane: Lane)
    requires Fresh(a, b) && Reaches(a, b, turns, clock, a', b', clock') && lane != Media
    requires !a'.link.failed && !b'.link.failed && !HasPendingReliable(a'.link)
    ensures SendOf(a'.link.out, lane).nextSendSeq == |Frags(Drawn(a', lane))| + 1
    ensures forall q :: 1 <= q <= |Frags(Drawn(a', lane))| ==> Held(RecvOf(b'.link.inb, lane), q)
  {
    hide SystemOk, Reaches, Fresh;
    FreshSystem(a, b, clock);
    ReachableOk(a, b, turns, clock, a', b', clock');
    AgreedPair(a', b', clock', lane);
    assert SendOf(a'.link.out, lane).inFlight == map[] && SendOf(a'.link.out, lane).cursor.None?;
    hide DataOk, StepsOk, AcksOk, FlightOk, Frags, Held;
  }

  lemma EmptyMeansDelivered(s: End, r: End, lane: Lane)
    requires Pair(s, r, lane) && lane != Media && !s.link.failed && !r.link.failed
    requires !HasPending(s.link, lane) && !RecvOf(r.link.inb, lane).budgetPaused
    ensures Got(r, lane) == Drawn(s, lane)
  {
    var send, recv, D, L := SendOf(s.link.out, lane), RecvOf(r.link.inb, lane), Drawn(s, lane), Got(r, lane);
    assert send.inFlight == map[];
    assert recv.nextExpected == send.nextSendSeq by {
      assert recv.nextExpected !in recv.reorder;
      assert !Held(recv, recv.nextExpected);
    }
    hide DataOk, AcksOk, NothingLost, FlightOk, Buffered, GapOk, Held;
    assert InStep(recv, L, D) && recv.nextExpected == |Frags(D)| + 1;
    hide ForLane;
    if |L| < |D| {
      FragAt(D, |L|, recv.nextExpected - 1 - Start(D, |L|));
    }
  }
}
