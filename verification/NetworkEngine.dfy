/** The engine as the source keeps it: maps, lists and flags that its actions change one after the other. */
module NetworkEngine {
  import opened Transport
  import opened EngineModel
  import opened EngineLaws
  import opened EngineTrace
  import opened EngineIndexes

  class NetworkEngine {
    const id: PeerId
    const autoAccept: bool
    var peers: map<PeerId, Peer>
    var byStream: map<nat, PeerId>
    var sched: S.Scheduler
    var boxes: set<PeerId>
    var ended: seq<PeerId>
    var shutdown: bool
    var records: nat
    var events: seq<Event>

    ghost function View(): Engine
      reads this
    {
      Engine(id, autoAccept, peers, byStream, sched, boxes, ended, shutdown, records, events)
    }

    /** What holds between actions. */
    ghost predicate Valid()
      reads this
    {
      SessionsOk(View(), {}) && IndexesOk(View())
    }

    constructor (id: PeerId, autoAccept: bool, rate: nat)
      ensures View() == NewEngine(id, autoAccept, rate) && Valid()
    {
      this.id, this.autoAccept := id, autoAccept;
      peers, byStream, sched, boxes, ended := map[], map[], S.NewScheduler(rate), {}, [];
      shutdown, records, events := false, 0, [];
    }

    // --- Steps of a session -----------------------------------------------------------------

    /** The outcome is told, if there is one to tell and it was not told before. */
    method ReportOutcome(p: PeerId)
      requires p in peers
      modifies this`peers, this`events
      ensures View() == Report(old(View()), p) && p in peers && (peers[p].announced ==> peers[p].reported)
      ensures old(SessionsOk(View(), {})) ==> SessionsOk(View(), {p})
      ensures old(IndexesOk(View())) ==> IndexesOk(View())
    {
      hide SessionsOk, IndexesOk;
      ReportKeeps(View(), p);
      if !peers[p].announced || peers[p].reported {
        return;
      }
      var record := peers[p].record;
      peers := peers[p := peers[p].(reported := true)];
      events := events + [Disconnected(p, record)];
    }

    /** A session whose outcome was told ends. */
    method EndPeer(p: PeerId)
      requires p in peers
      modifies this`peers, this`boxes, this`ended
      ensures View() == End(old(View()), p)
      ensures old(SessionsOk(View(), {p}) && (peers[p].announced ==> peers[p].reported)) ==> SessionsOk(View(), {})
      ensures old(IndexesOk(View())) ==> IndexesOk(View())
    {
      hide SessionsOk, IndexesOk;
      EndKeeps(View(), p);
      if peers[p].ended {
        return;
      }
      peers := peers[p := peers[p].(ended := true)];
      boxes := boxes - {p};
      ended := ended + [p];
    }

    /** A session that was connecting is open: the application is told, and its mailbox takes messages. */
    method Connect(p: PeerId)
      requires p in peers
      modifies this`peers, this`boxes, this`events
      ensures View() == SetConnected(old(View()), p)
      ensures old(Valid() && peers[p].state == Connecting && !peers[p].ended) ==>
        Valid() && Up(events, p) && p in boxes && p !in old(boxes)
    {
      if Valid() && peers[p].state == Connecting && !peers[p].ended {
        SetConnectedOk(View(), p);
        SetConnectedIndexes(View(), p);
        TraceMore(events, Connected(p), p);
        NotOpenYet(View(), p);
      }
      hide SessionsOk, IndexesOk, Up;
      peers := peers[p := peers[p].(state := Established, announced := true)];
      boxes := boxes + {p};
      events := events + [Connected(p)];
    }

    method AcceptPeer(p: PeerId)
      requires p in peers
      modifies this`peers
      ensures View() == SendAccept(old(View()), p)
      ensures old(Valid() && !peers[p].closeSent && !TransfersData(peers[p])) ==> Valid() && !TransfersData(peers[p])
    {
      hide SessionsOk, IndexesOk;
      if Valid() && !peers[p].closeSent && !TransfersData(peers[p]) {
        SendAcceptOk(View(), p);
        SendAcceptIndexes(View(), p);
      }
      peers := peers[p := peers[p].(state := Connecting, acceptSent := true)];
    }

    method DeclinePeer(p: PeerId)
      requires p in peers
      modifies this`peers, this`events, this`boxes
      ensures View() == SendDecline(old(View()), p)
    {
      hide Report;
      ReportOutcome(p);
      peers := peers[p := peers[p].(state := Closing, closeSent := true)];
      boxes := boxes - {p};
    }

    method ClosePeer(p: PeerId, heard: bool)
      requires p in peers
      modifies this`peers, this`boxes, this`ended
      ensures View() == SendClose(old(View()), p, heard)
    {
      boxes := boxes - {p};
      if !heard {
        EndPeer(p);
        return;
      }
      peers := peers[p := peers[p].(state := Closing, closeSent := true)];
    }

    /** Nothing refers to the peer anymore. */
    method ErasePeer(p: PeerId)
      modifies this`peers, this`byStream, this`sched, this`boxes
      ensures View() == Erase(old(View()), p) && p !in peers
      ensures old(SessionsOk(View(), {p}) && (p in peers ==> !IsUp(peers[p]))) ==> SessionsOk(View(), {})
      ensures old(IndexesOk(View())) ==> IndexesOk(View()) && Forgotten(View(), p)
    {
      EraseKeeps(View(), p);
      hide SessionsOk, IndexesOk, Forgotten;
      if p !in peers {
        return;
      }
      byStream := byStream - {peers[p].stream};
      sched := S.Remove(sched, p);
      boxes := boxes - {p};
      peers := peers - {p};
    }

    /** A record of its own number, found by a stream that no other link has. */
    method NewPeer(p: PeerId, stream: nat, initiator: bool, announced: bool)
      modifies this`peers, this`byStream, this`records
      ensures View() == AddPeer(old(View()), p, stream, initiator, announced)
      ensures old(Valid() && p !in peers && FreshStream(View(), stream) && |peers| < MAX_PEERS) ==>
        Valid() && forall q :: q in old(peers) ==> old(peers)[q].record != peers[p].record && old(peers)[q].stream != stream
    {
      hide SessionsOk, IndexesOk, FreshStream;
      if Valid() && p !in peers && FreshStream(View(), stream) && |peers| < MAX_PEERS {
        AddPeerOk(View(), p, stream, initiator, announced);
        AddPeerIndexes(View(), p, stream, initiator, announced);
        NewIsDistinct(View(), stream);
      }
      records := records + 1;
      peers := peers[p := Peer(stream, Connecting, initiator, false, false, announced, false, false, {}, records)];
      byStream := byStream[stream := p];
    }

    // --- Commands ----------------------------------------------------------------------------

    method StartPeer(p: PeerId, known: bool, bound: bool, stream: nat)
      modifies this
      ensures View() == StartSession(old(View()), p, known, bound, stream)
    {
      hide Erase, AddPeer;
      if shutdown {
        return;
      }
      if p in peers {
        if peers[p].state == AwaitingDecision {
          AcceptPeer(p);
          return;
        }
        if peers[p].state != Closing || !peers[p].closeSent {
          return;
        }
      }
      ErasePeer(p);
      if !known || !bound || |peers| >= MAX_PEERS {
        events := events + [Disconnected(p, 0)];
        return;
      }
      NewPeer(p, stream, true, true);
    }

    method EndPeerSession(p: PeerId, heard: bool)
      requires p in peers
      modifies this`peers, this`events, this`boxes, this`ended
      ensures View() == EndSession(old(View()), p, heard)
    {
      hide Report, SendClose, SendDecline;
      match peers[p].state
      case Established => peers := peers[p := peers[p].(state := Closing)];
      case AwaitingDecision => DeclinePeer(p);
      case Connecting => ReportOutcome(p); ClosePeer(p, heard);
      case Closing =>
    }

    method ShutDown(ids: seq<PeerId>, heard: set<PeerId>)
      modifies this
      ensures View() == BeginShutdown(old(View()), ids, heard)
    {
      hide ShutDownOne;
      if shutdown {
        return;
      }
      shutdown := true;
      ghost var whole := ShutDownEach(View(), ids, heard);
      for i := 0 to |ids|
        invariant ShutDownEach(View(), ids[i..], heard) == whole
      {
        assert ids[i..][0] == ids[i] && ids[i..][1..] == ids[i + 1..];
        if ids[i] in peers {
          ShutPeerDown(ids[i], ids[i] in heard);
        }
      }
    }

    method ShutPeerDown(p: PeerId, heard: bool)
      requires p in peers
      modifies this`peers, this`events, this`boxes, this`ended
      ensures View() == ShutDownOne(old(View()), p, heard)
    {
      hide Report, SendClose, SendDecline;
      var before := peers[p];
      ReportOutcome(p);
      if before.state == AwaitingDecision {
        DeclinePeer(p);
      } else if !before.closeSent {
        ClosePeer(p, heard);
      }
    }

    method EndAll(ids: seq<PeerId>)
      modifies this
      ensures View() == EndAllSessions(old(View()), ids)
    {
      hide Report;
      ghost var e := View();
      ReportAll(ids);
      peers, byStream, boxes, ended := map[], map[], {}, [];
      sched := sched.(rings := map[]);
    }

    method ReportAll(ids: seq<PeerId>)
      modifies this`peers, this`events
      ensures View() == ReportEach(old(View()), ids)
    {
      hide Report;
      ghost var whole := ReportEach(View(), ids);
      for i := 0 to |ids|
        invariant ReportEach(View(), ids[i..]) == whole
      {
        assert ids[i..][0] == ids[i] && ids[i..][1..] == ids[i + 1..];
        if ids[i] in peers {
          ReportOutcome(ids[i]);
        }
      }
    }

    // --- Receiving ---------------------------------------------------------------------------

    method Displace(from: PeerId) returns (crossing: bool)
      modifies this`peers, this`byStream, this`sched, this`boxes, this`events
      ensures View() == Displaced(old(View()), from) && crossing == Crosses(old(View()), from)
    {
      hide Report, Erase;
      crossing := false;
      if from in peers {
        if peers[from].state == Connecting && peers[from].initiator {
          crossing := true;
        } else {
          ReportOutcome(from);
        }
        ErasePeer(from);
      }
    }

    method ServeHello(h: Hello) returns (found: Option<PeerId>)
      modifies this
      ensures (View(), found) == OnHello(old(View()), h)
    {
      hide Displaced, AddPeer;
      if h.served.Some? {
        return h.served;
      }
      if shutdown || !h.accepted || h.from == id {
        return None;
      }
      if h.from in peers && peers[h.from].state == Connecting && peers[h.from].initiator && id > h.from {
        return None;
      }
      var crossing := Displace(h.from);
      if |peers| >= MAX_PEERS || |PendingOf(peers)| >= MAX_PENDING {
        return None;
      }
      AnswerHello(h, crossing);
      found := Some(h.from);
    }

    method AnswerHello(h: Hello, crossing: bool)
      modifies this`peers, this`byStream, this`records, this`events
      ensures View() == Admitted(old(View()), h, crossing)
    {
      if crossing || autoAccept {
        NewPeer(h.from, h.stream, false, crossing);
        AcceptPeer(h.from);
      } else {
        NewPeer(h.from, h.stream, false, true);
        peers := peers[h.from := peers[h.from].(state := AwaitingDecision)];
        events := events + [ConnectionRequest(h.from)];
      }
    }

    method Receive(d: Datagram)
      modifies this
      ensures View() == HandleDatagram(old(View()), d)
    {
      hide OnHello;
      var found: Option<PeerId> := None;
      if d.dst == 0 {
        if d.hello.None? {
          return;
        }
        found := ServeHello(d.hello.value);
      } else if d.dst in byStream {
        found := Some(byStream[d.dst]);
      }
      if found.None? || found.value !in peers || peers[found.value].ended || !d.sender {
        return;
      }
      var p := peers[found.value];
      if d.lane != Control && !TransfersData(p) {
        if p.state != Connecting || p.initiator || !p.acceptSent {
          return;
        }
        Connect(found.value);
      }
    }

    // --- What a link delivered -----------------------------------------------------------------

    method TakeControl(p: PeerId, m: Delivered)
      requires p in peers
      modifies this`peers, this`boxes, this`events, this`ended
      ensures View() == OnControl(old(View()), p, m)
    {
      hide Report, End;
      if peers[p].ended {
        return;
      }
      match m
      case GotAccept =>
        if peers[p].state == Connecting && peers[p].initiator { Connect(p); }
      case GotDecline =>
        if peers[p].state == Connecting && peers[p].initiator { ReportOutcome(p); EndPeer(p); }
      case GotClose => ReportOutcome(p); EndPeer(p);
      case _ =>
    }

    method TakeDelivered(p: PeerId, messages: seq<Delivered>)
      requires p in peers
      modifies this`peers, this`boxes, this`events, this`ended
      ensures View() == DeliverAll(old(View()), p, messages)
      ensures old(Takes(peers[p])) ==>
        events == old(events) + DataIn(p, Before(messages, {GotClose}))
          + (if GotClose in messages then old(OutcomeOf(p, peers[p])) else [])
      ensures old(!Takes(peers[p]) && !Asking(peers[p]) && !peers[p].ended) ==>
        events == old(events) + if GotClose in messages then old(OutcomeOf(p, peers[p])) else []
    {
      if !peers[p].ended { DeliveredEvents(View(), p, messages); }
      hide OnControl, DataIn, Before, OutcomeOf;
      ghost var whole := DeliverAll(View(), p, messages);
      for i := 0 to |messages|
        invariant p in peers && DeliverAll(View(), p, messages[i..]) == whole
      {
        assert messages[i..][0] == messages[i] && messages[i..][1..] == messages[i + 1..];
        DeliverKeeps(View(), p, messages[i]);
        var m := messages[i];
        if !m.GotData? {
          TakeControl(p, m);
        } else if !peers[p].ended && !peers[p].reported && TransfersData(peers[p]) {
          events := events + [Message(p, m.lane)];
        }
      }
    }

    method LookAtState(p: PeerId, look: Look)
      requires p in peers
      modifies this`peers, this`boxes, this`events, this`ended
      ensures View() == Progress(old(View()), p, look)
    {
      hide Report, End, SendClose, SendDecline;
      match peers[p].state
      case Connecting =>
        if !peers[p].initiator && peers[p].acceptSent && look.settled { Connect(p); }
      case AwaitingDecision =>
        if look.expired { DeclinePeer(p); }
      case Established =>
      case Closing =>
        if peers[p].closeSent {
          if look.settled || look.expired { EndPeer(p); }
        } else if look.expired || look.drained {
          ReportOutcome(p);
          ClosePeer(p, look.heard);
        }
    }

    method AdvancePeer(p: PeerId, look: Look)
      requires p in peers
      modifies this`peers, this`boxes, this`events, this`ended
      ensures View() == Advance(old(View()), p, look)
      ensures old(Takes(peers[p])) && !look.failed ==> exists rest ::
        && events == old(events) + DataIn(p, Before(look.delivered, {GotClose})) + rest
        && forall event :: event in rest ==> !event.Message?
    {
      if Takes(peers[p]) && !look.failed { AdvancedEvents(View(), p, look); }
      hide Report, End, DeliverAll, Progress, Takes, DataIn, Before;
      if peers[p].ended {
        return;
      }
      if look.failed {
        ReportOutcome(p);
        EndPeer(p);
        return;
      }
      TakeDelivered(p, look.delivered);
      if peers[p].ended {
        return;
      }
      LookAtState(p, look);
    }

    // --- Sending -----------------------------------------------------------------------------

    method SchedulePeer(p: PeerId, offers: set<Lane>)
      requires p in peers
      modifies this`peers, this`sched
      ensures View() == Schedule(old(View()), p, offers)
    {
      hide ScheduleLane;
      ghost var whole := Schedule(View(), p, offers);
      ScheduleFromStart(View(), p, offers);
      for i := 0 to |S.ORDER|
        invariant p in peers && ScheduleFrom(View(), p, offers, i) == whole
      {
        OfferLane(p, S.ORDER[i], offers);
      }
    }

    method OfferLane(p: PeerId, lane: Lane, offers: set<Lane>)
      requires p in peers
      modifies this`peers, this`sched
      ensures View() == ScheduleLane(old(View()), p, lane, offers) && p in peers
    {
      if lane !in peers[p].scheduled && lane in offers {
        sched := S.Add(sched, lane, p);
        peers := peers[p := peers[p].(scheduled := peers[p].scheduled + {lane})];
      }
    }

    method Send(answers: seq<S.Answer>)
      modifies this`peers, this`sched
      ensures View() == SendData(old(View()), answers)
    {
      hide S.Run;
      var run := S.Run(sched, answers);
      sched := run.s;
      ghost var before := peers;
      UnscheduledNone(before);
      assert run.log[..0] == [];
      for i := 0 to |run.log|
        invariant sched == run.s && peers == Unscheduled(before, run.log[..i])
      {
        var t := run.log[i];
        if t.answer == S.Empty && t.peer in peers {
          peers := peers[t.peer := peers[t.peer].(scheduled := peers[t.peer].scheduled - {t.lane})];
        }
        UnscheduledMore(before, run.log, i);
      }
      assert run.log[..|run.log|] == run.log;
    }

    // --- The end of a step -----------------------------------------------------------------------

    method SweepEnded()
      modifies this`peers, this`byStream, this`sched, this`boxes, this`ended
      ensures View() == Sweep(old(View()))
    {
      hide Erase;
      var ids := ended;
      ended := [];
      ghost var whole := EraseEnded(View(), ids);
      for i := 0 to |ids|
        invariant EraseEnded(View(), ids[i..]) == whole
      {
        assert ids[i..][0] == ids[i] && ids[i..][1..] == ids[i + 1..];
        if ids[i] in peers && peers[ids[i]].ended {
          ErasePeer(ids[i]);
        }
      }
    }

    /** One action, and the promises that every one of them keeps. */
    method Perform(a: Action)
      requires Valid() && Allowed(View(), a)
      modifies this
      ensures View() == Step(old(View()), a) && Valid()
    {
      StepOk(View(), a);
      StepIndexes(View(), a);
      hide SessionsOk, IndexesOk, Allowed, StartSession, SendDecline, EndSession, BeginShutdown, EndAllSessions, HandleDatagram,
           Advance, Schedule, Sweep, SendAccept, SendData;
      match a
      case DoConnect(p, known, bound, stream) => StartPeer(p, known, bound, stream);
      case DoAccept(p) => if p in peers && peers[p].state == AwaitingDecision { AcceptPeer(p); }
      case DoDecline(p) => if p in peers && peers[p].state == AwaitingDecision { DeclinePeer(p); }
      case DoDisconnect(p, heard) => if p in peers { EndPeerSession(p, heard); }
      case DoShutdown(ids, heard) => ShutDown(ids, heard);
      case DoEndAll(ids) => EndAll(ids);
      case DoReceive(d) => Receive(d);
      case DoAdvance(p, look) => if p in peers { AdvancePeer(p, look); }
      case DoSchedule(p, offers) => if p in peers && !peers[p].ended { SchedulePeer(p, offers); }
      case DoSend(answers) => Send(answers);
      case DoSweep => SweepEnded();
    }
  }

  /** A mailbox is opened only while it is closed: nobody waits for a session that another one replaces. */
  lemma NotOpenYet(e: Engine, p: PeerId)
    requires IndexesOk(e) && p in e.peers && e.peers[p].state == Connecting
    ensures p !in e.boxes
  {
    hide StreamsOk, RingsOk, EndedOk;
  }

  lemma ReportKeeps(e: Engine, p: PeerId)
    requires p in e.peers
    ensures SessionsOk(e, {}) ==> SessionsOk(Report(e, p), {p})
    ensures IndexesOk(e) ==> IndexesOk(Report(e, p))
  {
    hide SessionsOk, IndexesOk;
    assert {} + {p} == {p};
    if SessionsOk(e, {}) { ReportOk(e, p, {}); }
    if IndexesOk(e) { ReportIndexes(e, p); }
  }

  lemma EndKeeps(e: Engine, p: PeerId)
    requires p in e.peers
    ensures SessionsOk(e, {p}) && (e.peers[p].announced ==> e.peers[p].reported) ==> SessionsOk(End(e, p), {})
    ensures IndexesOk(e) ==> IndexesOk(End(e, p))
  {
    hide SessionsOk, IndexesOk;
    assert {} + {p} == {p};
    if SessionsOk(e, {p}) && (e.peers[p].announced ==> e.peers[p].reported) { EndOk(e, p, {}); }
    if IndexesOk(e) { EndIndexes(e, p); }
  }

  /** No stream, ring, mailbox or record of the peer is left. */
  ghost predicate Forgotten(e: Engine, p: PeerId) {
    && p !in e.peers && p !in e.boxes && (forall stream :: stream in e.byStream ==> e.byStream[stream] != p)
    && forall lane :: p !in S.RingOf(e.sched, lane).peers
  }

  lemma EraseKeeps(e: Engine, p: PeerId)
    ensures SessionsOk(e, {p}) && (p in e.peers ==> !IsUp(e.peers[p])) ==> SessionsOk(Erase(e, p), {})
    ensures IndexesOk(e) ==> IndexesOk(Erase(e, p)) && Forgotten(Erase(e, p), p)
  {
    hide SessionsOk, IndexesOk, Forgotten, IsUp;
    assert {p} - {p} == {};
    if SessionsOk(e, {p}) && (p in e.peers ==> !IsUp(e.peers[p])) { EraseOk(e, p, {p}); }
    if IndexesOk(e) {
      EraseIndexes(e, p);
      ErasedIsGone(e, p);
      NoneIsForgotten(Erase(e, p), p);
    }
  }

  lemma NoneIsForgotten(e: Engine, p: PeerId)
    requires IndexesOk(e) && p !in e.peers
    ensures Forgotten(e, p)
  {
    hide S.NoneTwice, TransfersData;
  }

  lemma NewIsDistinct(e: Engine, stream: nat)
    requires SessionsOk(e, {}) && IndexesOk(e) && FreshStream(e, stream)
    ensures forall q :: q in e.peers ==> e.peers[q].record <= e.records && e.peers[q].stream != stream
  {
    hide TraceOk, PeersOk, RingsOk, BoxesOk, EndedOk;
  }

  ghost function ScheduleFrom(e: Engine, p: PeerId, offers: set<Lane>, i: nat): Engine
    requires p in e.peers && i <= |S.ORDER|
    decreases |S.ORDER| - i
  {
    if i == |S.ORDER| then e else ScheduleFrom(ScheduleLane(e, p, S.ORDER[i], offers), p, offers, i + 1)
  }

  lemma ScheduleFromStart(e: Engine, p: PeerId, offers: set<Lane>)
    requires p in e.peers
    ensures ScheduleFrom(e, p, offers, 0) == Schedule(e, p, offers)
  {
    hide ScheduleLane;
    var e1 := ScheduleLane(e, p, Control, offers);
    var e2 := ScheduleLane(e1, p, Media, offers);
    var e3 := ScheduleLane(e2, p, Reliable, offers);
    assert ScheduleFrom(e, p, offers, 0) == ScheduleFrom(e1, p, offers, 1) == ScheduleFrom(e2, p, offers, 2);
    assert ScheduleFrom(e2, p, offers, 2) == ScheduleFrom(e3, p, offers, 3);
    assert ScheduleFrom(e3, p, offers, 3) == ScheduleFrom(ScheduleLane(e3, p, Bulk, offers), p, offers, 4);
  }

  lemma UnscheduledNone(peers: map<PeerId, Peer>)
    ensures Unscheduled(peers, []) == peers
  {
    forall id | id in peers
      ensures Unscheduled(peers, [])[id] == peers[id]
    {
      assert (set lane | lane in peers[id].scheduled && S.Turn(lane, id, S.Empty) !in []) == peers[id].scheduled;
    }
  }

  lemma UnscheduledPeer(peers: map<PeerId, Peer>, log: seq<S.Turn>, t: S.Turn, id: PeerId)
    requires id in peers
    ensures Unscheduled(peers, log + [t])[id]
         == if t.answer == S.Empty && t.peer == id
            then Unscheduled(peers, log)[id].(scheduled := Unscheduled(peers, log)[id].scheduled - {t.lane})
            else Unscheduled(peers, log)[id]
  {
    assert Unscheduled(peers, log + [t])[id].scheduled
        == if t.answer == S.Empty && t.peer == id
           then Unscheduled(peers, log)[id].scheduled - {t.lane} else Unscheduled(peers, log)[id].scheduled;
  }

  lemma UnscheduledMore(peers: map<PeerId, Peer>, log: seq<S.Turn>, i: nat)
    requires i < |log|
    ensures var before, t := Unscheduled(peers, log[..i]), log[i];
      Unscheduled(peers, log[..i + 1])
      == if t.answer == S.Empty && t.peer in before
         then before[t.peer := before[t.peer].(scheduled := before[t.peer].scheduled - {t.lane})] else before
  {
    assert log[..i + 1] == log[..i] + [log[i]];
    forall id | id in peers { UnscheduledPeer(peers, log[..i], log[i], id); }
  }
}
