/** The indexes of the engine agree: streams, scheduler rings and mailboxes all tell the same sessions. */
module EngineIndexes {
  import opened Transport
  import opened EngineModel
  import opened EngineTrace
  import S = SendScheduler

  /** byStream is exactly the inverse of the stream IDs of the peers. */
  ghost predicate StreamsOk(e: Engine) {
    && (forall id :: id in e.peers ==> e.peers[id].stream in e.byStream && e.byStream[e.peers[id].stream] == id)
    && (forall s :: s in e.byStream ==> e.byStream[s] in e.peers && e.peers[e.byStream[s]].stream == s)
  }

  /** A peer waits in the ring of a lane exactly once, or not at all, as its bit for the lane says. */
  ghost predicate RingsOk(e: Engine) {
    && (forall lane :: S.NoneTwice(S.RingOf(e.sched, lane).peers))
    && (forall lane, id :: id in S.RingOf(e.sched, lane).peers <==> id in e.peers && lane in e.peers[id].scheduled)
  }

  /** The mailbox of a peer is open as long as its session transfers data. */
  ghost predicate BoxesOk(e: Engine) {
    forall id :: id in e.boxes <==> id in e.peers && TransfersData(e.peers[id]) && !e.peers[id].ended
  }

  /** The next sweep is told of every session that is over. */
  ghost predicate EndedOk(e: Engine) { forall id :: id in e.peers && e.peers[id].ended ==> id in e.ended }

  ghost predicate IndexesOk(e: Engine) {
    StreamsOk(e) && RingsOk(e) && BoxesOk(e) && EndedOk(e) && |e.peers| <= MAX_PEERS
  }

  // --- One record changes ---------------------------------------------------------------------

  /** The links and the scheduler are the same. */
  predicate SameLinks(p: Peer, p': Peer) { p'.stream == p.stream && p'.scheduled == p.scheduled }

  lemma StreamsStay(e: Engine, e': Engine, id: PeerId)
    requires StreamsOk(e) && id in e.peers && id in e'.peers && e'.peers == e.peers[id := e'.peers[id]]
    requires e'.byStream == e.byStream && e'.peers[id].stream == e.peers[id].stream
    ensures StreamsOk(e')
  {
  }

  lemma RingsStay(e: Engine, e': Engine, id: PeerId)
    requires RingsOk(e) && id in e.peers && id in e'.peers && e'.peers == e.peers[id := e'.peers[id]]
    requires e'.sched == e.sched && e'.peers[id].scheduled == e.peers[id].scheduled
    ensures RingsOk(e')
  {
    hide S.NoneTwice;
  }

  lemma SameCount(e: Engine, e': Engine, id: PeerId)
    requires id in e.peers && id in e'.peers && e'.peers == e.peers[id := e'.peers[id]]
    ensures |e'.peers| == |e.peers|
  {
    assert e'.peers.Keys == e.peers.Keys;
    assert |e'.peers| == |e'.peers.Keys| && |e.peers| == |e.peers.Keys|;
  }

  lemma PeerChanged(e: Engine, e': Engine, id: PeerId)
    requires IndexesOk(e) && id in e.peers && id in e'.peers && e'.peers == e.peers[id := e'.peers[id]]
    requires e'.byStream == e.byStream && e'.sched == e.sched && SameLinks(e.peers[id], e'.peers[id])
    requires e'.boxes - {id} == e.boxes - {id}
    requires id in e'.boxes <==> TransfersData(e'.peers[id]) && !e'.peers[id].ended
    requires forall x :: x in e.ended ==> x in e'.ended
    requires e'.peers[id].ended ==> id in e'.ended
    ensures IndexesOk(e')
  {
    StreamsStay(e, e', id);
    RingsStay(e, e', id);
    SameCount(e, e', id);
    hide StreamsOk, RingsOk;
    forall x
      ensures x in e'.boxes <==> x in e'.peers && TransfersData(e'.peers[x]) && !e'.peers[x].ended
    {
      assert x != id ==> (x in e'.boxes <==> x in e'.boxes - {id}) && (x in e.boxes <==> x in e.boxes - {id});
    }
  }

  lemma ReportIndexes(e: Engine, id: PeerId)
    requires IndexesOk(e) && id in e.peers
    ensures IndexesOk(Report(e, id)) && id in Report(e, id).peers
  {
    var e' := Report(e, id);
    hide StreamsOk, RingsOk;
    if e.peers[id].announced && !e.peers[id].reported { PeerChanged(e, e', id); }
  }

  lemma BoxOf(e: Engine, id: PeerId)
    requires IndexesOk(e) && id in e.peers
    ensures id in e.boxes <==> TransfersData(e.peers[id]) && !e.peers[id].ended
    ensures e.peers[id].ended ==> id in e.ended
  {
  }

  lemma EndIndexes(e: Engine, id: PeerId)
    requires IndexesOk(e) && id in e.peers
    ensures IndexesOk(End(e, id))
  {
    hide IndexesOk;
    BoxOf(e, id);
    if !e.peers[id].ended { PeerChanged(e, End(e, id), id); }
  }

  lemma GoodbyeIndexes(e: Engine, id: PeerId)
    requires IndexesOk(e) && id in e.peers
    ensures IndexesOk(SayGoodbye(e, id))
  {
    hide IndexesOk;
    BoxOf(e, id);
    PeerChanged(e, SayGoodbye(e, id), id);
  }

  /** The mailbox is closed first, and the session ends right after. */
  lemma CloseUnheardIndexes(e: Engine, id: PeerId)
    requires IndexesOk(e) && id in e.peers
    ensures IndexesOk(End(e.(boxes := e.boxes - {id}), id))
  {
    hide IndexesOk;
    BoxOf(e, id);
    var e' := End(e.(boxes := e.boxes - {id}), id);
    assert e.peers[id := e.peers[id]] == e.peers;
    assert e.boxes - {id} - {id} == e.boxes - {id};
    PeerChanged(e, e', id);
  }

  lemma SendDeclineIndexes(e: Engine, id: PeerId)
    requires IndexesOk(e) && id in e.peers
    ensures IndexesOk(SendDecline(e, id))
  {
    hide IndexesOk, Report, SayGoodbye;
    ReportIndexes(e, id);
    GoodbyeIndexes(Report(e, id), id);
  }

  lemma SendCloseIndexes(e: Engine, id: PeerId, heard: bool)
    requires IndexesOk(e) && id in e.peers
    ensures IndexesOk(SendClose(e, id, heard))
  {
    hide IndexesOk, End, SayGoodbye;
    if heard { GoodbyeIndexes(e, id); } else { CloseUnheardIndexes(e, id); }
  }

  lemma SetConnectedIndexes(e: Engine, id: PeerId)
    requires IndexesOk(e) && id in e.peers && !e.peers[id].ended
    ensures IndexesOk(SetConnected(e, id))
  {
    hide IndexesOk;
    BoxOf(e, id);
    PeerChanged(e, SetConnected(e, id), id);
  }

  lemma SendAcceptIndexes(e: Engine, id: PeerId)
    requires IndexesOk(e) && id in e.peers && !TransfersData(e.peers[id])
    ensures IndexesOk(SendAccept(e, id))
  {
    hide IndexesOk;
    BoxOf(e, id);
    PeerChanged(e, SendAccept(e, id), id);
  }

  // --- Records come and go ---------------------------------------------------------------------

  lemma EraseStreams(e: Engine, id: PeerId)
    requires StreamsOk(e)
    ensures StreamsOk(Erase(e, id))
  {
    hide S.Remove;
  }

  lemma RemovedRing(s: S.Scheduler, id: PeerId, lane: Lane)
    requires S.NoneTwice(S.RingOf(s, lane).peers)
    ensures S.NoneTwice(S.RingOf(S.Remove(s, id), lane).peers)
    ensures forall x :: x in S.RingOf(S.Remove(s, id), lane).peers <==> x in S.RingOf(s, lane).peers && x != id
  {
    var r := S.RingOf(s, lane);
    assert S.RingOf(S.Remove(s, id), lane) == S.Left(r, id);
    var i := S.PlaceOf(r.peers, id);
    if i < |r.peers| {
      S.ErasedOk(r.peers, i);
      S.ErasedSet(r.peers, i);
    }
  }

  lemma EraseRings(e: Engine, id: PeerId)
    requires RingsOk(e)
    ensures RingsOk(Erase(e, id))
  {
    if id in e.peers {
      hide S.NoneTwice, S.Remove, S.RingOf;
      forall lane { RemovedRing(e.sched, id, lane); }
    }
  }

  lemma EraseIndexes(e: Engine, id: PeerId)
    requires IndexesOk(e)
    ensures IndexesOk(Erase(e, id)) && |Erase(e, id).peers| <= |e.peers|
    ensures id in e.peers ==> |Erase(e, id).peers| < |e.peers|
  {
    EraseStreams(e, id);
    EraseRings(e, id);
    hide StreamsOk, RingsOk, S.Remove;
    if id in e.peers {
      assert (e.peers - {id}).Keys == e.peers.Keys - {id};
      assert |e.peers - {id}| == |e.peers.Keys - {id}|;
      assert |e.peers| == |e.peers.Keys|;
    }
  }

  lemma AddStreams(e: Engine, id: PeerId, stream: nat, initiator: bool, announced: bool)
    requires StreamsOk(e) && id !in e.peers && FreshStream(e, stream)
    ensures StreamsOk(AddPeer(e, id, stream, initiator, announced))
  {
  }

  lemma AddRings(e: Engine, id: PeerId, stream: nat, initiator: bool, announced: bool)
    requires RingsOk(e) && id !in e.peers
    ensures RingsOk(AddPeer(e, id, stream, initiator, announced))
  {
    hide S.NoneTwice;
  }

  lemma AddPeerIndexes(e: Engine, id: PeerId, stream: nat, initiator: bool, announced: bool)
    requires IndexesOk(e) && id !in e.peers && FreshStream(e, stream) && |e.peers| < MAX_PEERS
    ensures IndexesOk(AddPeer(e, id, stream, initiator, announced))
  {
    AddStreams(e, id, stream, initiator, announced);
    AddRings(e, id, stream, initiator, announced);
    hide StreamsOk, RingsOk, BoxesOk, EndedOk;
    var e' := AddPeer(e, id, stream, initiator, announced);
    KeysAdded(e.peers, id, e'.peers[id]);
    NewBox(e, e', id);
  }

  /** A record that does not transfer data yet, and is not on its way out. */
  lemma NewBox(e: Engine, e': Engine, id: PeerId)
    requires BoxesOk(e) && EndedOk(e) && id !in e.peers && id in e'.peers && e'.peers == e.peers[id := e'.peers[id]]
    requires e'.boxes == e.boxes && e'.ended == e.ended && !TransfersData(e'.peers[id]) && !e'.peers[id].ended
    ensures BoxesOk(e') && EndedOk(e')
  {
  }

  // --- Every action keeps it -----------------------------------------------------------------------

  lemma EmitIndexes(e: Engine, event: Event)
    requires IndexesOk(e)
    ensures IndexesOk(Emit(e, event))
  {
    hide S.NoneTwice, TransfersData;
  }

  lemma StartSessionIndexes(e: Engine, id: PeerId, known: bool, bound: bool, stream: nat)
    requires IndexesOk(e) && FreshStream(Erase(e, id), stream)
    ensures IndexesOk(StartSession(e, id, known, bound, stream))
  {
    hide IndexesOk, Erase, AddPeer, Emit, SendAccept;
    if !e.shutdown {
      if Startable(e, id) {
        var e1 := Erase(e, id);
        EraseIndexes(e, id);
        ErasedIsGone(e, id);
        EmitIndexes(e1, Disconnected(id, 0));
        if |e1.peers| < MAX_PEERS { AddPeerIndexes(e1, id, stream, true, true); }
      } else if e.peers[id].state == AwaitingDecision {
        SendAcceptIndexes(e, id);
      }
    }
  }

  lemma EndSessionIndexes(e: Engine, id: PeerId, heard: bool)
    requires IndexesOk(e) && id in e.peers && (e.peers[id].closeSent ==> e.peers[id].state == Closing)
    ensures IndexesOk(EndSession(e, id, heard))
  {
    hide IndexesOk, Report, SendClose, SendDecline;
    match e.peers[id].state
    case Established => BoxOf(e, id); PeerChanged(e, EndSession(e, id, heard), id);
    case AwaitingDecision => SendDeclineIndexes(e, id);
    case Connecting => ReportIndexes(e, id); SendCloseIndexes(Report(e, id), id, heard);
    case Closing =>
  }

  lemma ShutDownOneIndexes(e: Engine, id: PeerId, heard: bool)
    requires IndexesOk(e) && id in e.peers
    ensures IndexesOk(ShutDownOne(e, id, heard))
  {
    hide IndexesOk, Report, SendClose, SendDecline;
    ReportIndexes(e, id);
    SendDeclineIndexes(Report(e, id), id);
    SendCloseIndexes(Report(e, id), id, heard);
  }

  lemma {:induction false} ShutDownEachIndexes(e: Engine, ids: seq<PeerId>, heard: set<PeerId>)
    requires IndexesOk(e)
    ensures IndexesOk(ShutDownEach(e, ids, heard))
    decreases |ids|
  {
    hide IndexesOk, ShutDownOne;
    if ids != [] {
      if ids[0] in e.peers { ShutDownOneIndexes(e, ids[0], ids[0] in heard); }
      ShutDownEachIndexes(if ids[0] in e.peers then ShutDownOne(e, ids[0], ids[0] in heard) else e, ids[1..], heard);
    }
  }

  /** Nothing an index depends on changed. */
  lemma SameIndexes(e: Engine, e': Engine)
    requires IndexesOk(e) && e'.peers == e.peers && e'.byStream == e.byStream && e'.sched == e.sched && e'.boxes == e.boxes
    requires forall id :: id in e.ended ==> id in e'.ended
    ensures IndexesOk(e')
  {
    hide S.NoneTwice, TransfersData;
  }

  lemma BeginShutdownIndexes(e: Engine, ids: seq<PeerId>, heard: set<PeerId>)
    requires IndexesOk(e)
    ensures IndexesOk(BeginShutdown(e, ids, heard))
  {
    hide IndexesOk, ShutDownEach;
    SameIndexes(e, e.(shutdown := true));
    ShutDownEachIndexes(e.(shutdown := true), ids, heard);
  }

  lemma EndAllIndexes(e: Engine, ids: seq<PeerId>)
    ensures IndexesOk(EndAllSessions(e, ids))
  {
    hide ReportEach;
  }

  lemma DisplacedIndexes(e: Engine, from: PeerId)
    requires IndexesOk(e)
    ensures IndexesOk(Displaced(e, from))
  {
    hide IndexesOk, Report, Erase;
    if from in e.peers {
      ReportIndexes(e, from);
      EraseIndexes(e, from);
      EraseIndexes(Report(e, from), from);
    }
  }

  lemma DisplacedIsGone(e: Engine, from: PeerId)
    ensures from !in Displaced(e, from).peers
  {
    if from in e.peers { ErasedIsGone(if Crosses(e, from) then e else Report(e, from), from); }
    hide Erase, Report;
  }

  lemma AdmittedIndexes(e: Engine, h: Hello, crossing: bool)
    requires IndexesOk(e) && h.from !in e.peers && FreshStream(e, h.stream) && |e.peers| < MAX_PEERS
    ensures IndexesOk(Admitted(e, h, crossing))
  {
    hide IndexesOk;
    if crossing || e.autoAccept {
      AddPeerIndexes(e, h.from, h.stream, false, crossing);
      SendAcceptIndexes(AddPeer(e, h.from, h.stream, false, crossing), h.from);
    } else {
      var e1 := AddPeer(e, h.from, h.stream, false, true);
      AddPeerIndexes(e, h.from, h.stream, false, true);
      BoxOf(e1, h.from);
      var e2 := WithPeer(e1, h.from, e1.peers[h.from].(state := AwaitingDecision));
      PeerChanged(e1, e2, h.from);
      EmitIndexes(e2, ConnectionRequest(h.from));
    }
  }

  lemma OnHelloIndexes(e: Engine, h: Hello)
    requires IndexesOk(e) && FreshStream(Displaced(e, h.from), h.stream)
    ensures IndexesOk(OnHello(e, h).0)
  {
    hide IndexesOk, Displaced, Admitted;
    var e1 := Displaced(e, h.from);
    DisplacedIndexes(e, h.from);
    DisplacedIsGone(e, h.from);
    if !AtLimit(e1) { AdmittedIndexes(e1, h, Crosses(e, h.from)); }
  }

  lemma HandleDatagramIndexes(e: Engine, d: Datagram)
    requires IndexesOk(e) && (d.hello.Some? ==> FreshStream(Displaced(e, d.hello.value.from), d.hello.value.stream))
    ensures IndexesOk(HandleDatagram(e, d))
  {
    hide IndexesOk, OnHello, SetConnected, Displaced;
    var (e1, found) := PeerOf(e, d);
    if d.dst == 0 && d.hello.Some? { OnHelloIndexes(e, d.hello.value); }
    if found.Some? && found.value in e1.peers && !e1.peers[found.value].ended { SetConnectedIndexes(e1, found.value); }
  }

  lemma DeliverIndexes(e: Engine, id: PeerId, m: Delivered)
    requires IndexesOk(e) && id in e.peers
    ensures IndexesOk(Deliver(e, id, m))
  {
    hide IndexesOk, Report, End, SetConnected, Emit;
    ReportIndexes(e, id);
    EndIndexes(Report(e, id), id);
    if !e.peers[id].ended { SetConnectedIndexes(e, id); }
    if m.GotData? { EmitIndexes(e, Message(id, m.lane)); }
  }

  lemma {:induction false} DeliverAllIndexes(e: Engine, id: PeerId, messages: seq<Delivered>)
    requires IndexesOk(e) && id in e.peers
    ensures IndexesOk(DeliverAll(e, id, messages))
    decreases |messages|
  {
    hide IndexesOk, Deliver;
    if messages != [] {
      DeliverIndexes(e, id, messages[0]);
      DeliverKeeps(e, id, messages[0]);
      DeliverAllIndexes(Deliver(e, id, messages[0]), id, messages[1..]);
    }
  }

  lemma ProgressIndexes(e: Engine, id: PeerId, look: Look)
    requires IndexesOk(e) && id in e.peers && !e.peers[id].ended
    ensures IndexesOk(Progress(e, id, look))
  {
    hide IndexesOk, Report, End, SetConnected, SendDecline, SendClose;
    SetConnectedIndexes(e, id);
    SendDeclineIndexes(e, id);
    EndIndexes(e, id);
    ReportIndexes(e, id);
    SendCloseIndexes(Report(e, id), id, look.heard);
  }

  lemma AdvanceIndexes(e: Engine, id: PeerId, look: Look)
    requires IndexesOk(e) && id in e.peers
    ensures IndexesOk(Advance(e, id, look))
  {
    hide IndexesOk, Report, End, DeliverAll, Progress;
    ReportIndexes(e, id);
    EndIndexes(Report(e, id), id);
    DeliverAllIndexes(e, id, look.delivered);
    var e1 := DeliverAll(e, id, look.delivered);
    if !e1.peers[id].ended { ProgressIndexes(e1, id, look); }
  }

  // --- Scheduling ------------------------------------------------------------------------------------

  lemma AddedRing(s: S.Scheduler, lane: Lane, id: PeerId, other: Lane)
    requires S.NoneTwice(S.RingOf(s, other).peers) && id !in S.RingOf(s, lane).peers
    ensures S.NoneTwice(S.RingOf(S.Add(s, lane, id), other).peers)
    ensures forall x :: x in S.RingOf(S.Add(s, lane, id), other).peers
                   <==> x in S.RingOf(s, other).peers || (other == lane && x == id)
  {
  }

  /** Only the lanes of the records, and the rings, changed. */
  lemma LanesIndexes(e: Engine, e': Engine)
    requires IndexesOk(e) && SameButLanes(e, e') && RingsOk(e')
    requires e'.byStream == e.byStream && e'.boxes == e.boxes && e'.ended == e.ended
    ensures IndexesOk(e')
  {
    hide RingsOk;
    assert |e'.peers| == |e'.peers.Keys| && |e.peers| == |e.peers.Keys|;
  }

  lemma ScheduleRings(e: Engine, id: PeerId, lane: Lane, offers: set<Lane>)
    requires RingsOk(e) && id in e.peers
    ensures RingsOk(ScheduleLane(e, id, lane, offers))
  {
    if lane !in e.peers[id].scheduled && lane in offers {
      hide S.NoneTwice, S.Add, S.RingOf;
      assert id !in S.RingOf(e.sched, lane).peers;
      forall other { AddedRing(e.sched, lane, id, other); }
    }
  }

  lemma ScheduleLaneIndexes(e: Engine, id: PeerId, lane: Lane, offers: set<Lane>)
    requires IndexesOk(e) && id in e.peers
    ensures IndexesOk(ScheduleLane(e, id, lane, offers)) && id in ScheduleLane(e, id, lane, offers).peers
  {
    var e' := ScheduleLane(e, id, lane, offers);
    ScheduleRings(e, id, lane, offers);
    assert SameButLanes(e, e);
    hide RingsOk, StreamsOk, BoxesOk, EndedOk, SameButLanes, S.Add;
    ScheduleLaneOnly(e, e, id, lane, offers);
    LanesIndexes(e, e');
  }

  lemma ScheduleIndexes(e: Engine, id: PeerId, offers: set<Lane>)
    requires IndexesOk(e) && id in e.peers
    ensures IndexesOk(Schedule(e, id, offers))
  {
    hide IndexesOk, ScheduleLane;
    var e1 := ScheduleLane(e, id, Control, offers);
    ScheduleLaneIndexes(e, id, Control, offers);
    var e2 := ScheduleLane(e1, id, Media, offers);
    ScheduleLaneIndexes(e1, id, Media, offers);
    var e3 := ScheduleLane(e2, id, Reliable, offers);
    ScheduleLaneIndexes(e2, id, Reliable, offers);
    ScheduleLaneIndexes(e3, id, Bulk, offers);
  }

  lemma SendDataRings(e: Engine, answers: seq<S.Answer>)
    requires RingsOk(e)
    ensures RingsOk(SendData(e, answers))
  {
    S.RunThins(e.sched, answers);
    hide S.NoneTwice, S.Run, S.RingOf;
    var run, e' := S.Run(e.sched, answers), SendData(e, answers);
    forall lane, id
      ensures id in S.RingOf(e'.sched, lane).peers <==> id in e'.peers && lane in e'.peers[id].scheduled
    {
      assert S.Thinned(S.RingOf(e.sched, lane), S.RingOf(run.s, lane), lane, run.log);
      assert id in S.RingOf(e.sched, lane).peers <==> id in e.peers && lane in e.peers[id].scheduled;
    }
    forall lane ensures S.NoneTwice(S.RingOf(e'.sched, lane).peers) {
      assert S.Thinned(S.RingOf(e.sched, lane), S.RingOf(run.s, lane), lane, run.log);
    }
  }

  lemma SendDataIndexes(e: Engine, answers: seq<S.Answer>)
    requires IndexesOk(e)
    ensures IndexesOk(SendData(e, answers))
  {
    SendDataRings(e, answers);
    SendDataLanes(e, answers);
    hide RingsOk, StreamsOk, BoxesOk, EndedOk, SameButLanes, S.Run;
    LanesIndexes(e, SendData(e, answers));
  }

  // --- The end of a step -------------------------------------------------------------------------------

  /** All but the list of those to go. */
  ghost predicate LinksOk(e: Engine) { StreamsOk(e) && RingsOk(e) && BoxesOk(e) && |e.peers| <= MAX_PEERS }

  lemma EraseLinks(e: Engine, id: PeerId)
    requires LinksOk(e)
    ensures LinksOk(Erase(e, id))
  {
    var e1 := e.(ended := e.ended + Everyone(e));
    assert EndedOk(e1);
    SameLinksOk(e, e1);
    hide StreamsOk, RingsOk, BoxesOk, S.Remove;
    EraseIndexes(e1, id);
    SameLinksOk(Erase(e1, id), Erase(e, id));
  }

  /** All peers, in some order. */
  ghost function Everyone(e: Engine): (ids: seq<PeerId>)
    ensures forall id :: id in e.peers ==> id in ids
  {
    Listed(e.peers.Keys)
  }

  ghost function Listed(ids: set<PeerId>): (r: seq<PeerId>)
    ensures forall id :: id in ids ==> id in r
    decreases ids
  {
    if ids == {} then [] else var id :| id in ids; [id] + Listed(ids - {id})
  }

  lemma SameLinksOk(e: Engine, e': Engine)
    requires LinksOk(e) && e'.peers == e.peers && e'.byStream == e.byStream && e'.sched == e.sched && e'.boxes == e.boxes
    ensures LinksOk(e')
  {
    hide S.NoneTwice, TransfersData;
  }

  lemma {:induction false} EraseEndedLinks(e: Engine, ids: seq<PeerId>)
    requires LinksOk(e) && forall id :: id in e.peers && e.peers[id].ended ==> id in ids
    ensures LinksOk(EraseEnded(e, ids)) && forall id :: id in EraseEnded(e, ids).peers ==> !EraseEnded(e, ids).peers[id].ended
    decreases |ids|
  {
    if ids != [] {
      var e1 := if ids[0] in e.peers && e.peers[ids[0]].ended then Erase(e, ids[0]) else e;
      EraseLinks(e, ids[0]);
      ErasedIsGone(e, ids[0]);
      hide LinksOk, Erase;
      assert forall id :: id in e1.peers && e1.peers[id].ended ==> id in ids[1..];
      EraseEndedLinks(e1, ids[1..]);
    }
  }

  /** Sessions leave as they are, or not at all. */
  lemma {:induction false} EraseEndedOnly(e: Engine, ids: seq<PeerId>)
    ensures var e' := EraseEnded(e, ids);
      && (forall id :: id in e'.peers ==> id in e.peers && e'.peers[id] == e.peers[id])
      && (forall id :: id in e.peers && !e.peers[id].ended ==> id in e'.peers)
      && e'.events == e.events
    decreases |ids|
  {
    if ids != [] {
      var e1 := if ids[0] in e.peers && e.peers[ids[0]].ended then Erase(e, ids[0]) else e;
      ErasedIsGone(e, ids[0]);
      hide Erase;
      EraseEndedOnly(e1, ids[1..]);
    }
  }

  /** At the end of a step exactly those that ended are gone, without a word. */
  lemma SweepIndexes(e: Engine)
    requires IndexesOk(e)
    ensures IndexesOk(Sweep(e)) && Sweep(e).events == e.events
    ensures forall id :: id in Sweep(e).peers <==> id in e.peers && !e.peers[id].ended
    ensures forall id :: id in Sweep(e).peers ==> Sweep(e).peers[id] == e.peers[id]
  {
    var e1 := e.(ended := []);
    SameLinksOk(e, e1);
    hide StreamsOk, RingsOk, BoxesOk, EraseEnded;
    EraseEndedLinks(e1, e.ended);
    EraseEndedOnly(e1, e.ended);
  }

  /** After every action the indexes agree. */
  lemma StepIndexes(e: Engine, a: Action)
    requires IndexesOk(e) && SessionsOk(e, {}) && Allowed(e, a)
    ensures IndexesOk(Step(e, a))
  {
    hide IndexesOk, SessionsOk, StartSession, SendDecline, EndSession, BeginShutdown, EndAllSessions, HandleDatagram, Advance,
         Schedule, Sweep, SendAccept, SendData, Displaced, Erase;
    match a
    case DoConnect(id, known, bound, stream) => StartSessionIndexes(e, id, known, bound, stream);
    case DoAccept(id) => if id in e.peers && e.peers[id].state == AwaitingDecision { SendAcceptIndexes(e, id); }
    case DoDecline(id) => if id in e.peers { SendDeclineIndexes(e, id); }
    case DoDisconnect(id, heard) => if id in e.peers { PeerIsOk(e, id, {}); EndSessionIndexes(e, id, heard); }
    case DoShutdown(ids, heard) => BeginShutdownIndexes(e, ids, heard);
    case DoEndAll(ids) => EndAllIndexes(e, ids);
    case DoReceive(d) => HandleDatagramIndexes(e, d);
    case DoAdvance(id, look) => if id in e.peers { AdvanceIndexes(e, id, look); }
    case DoSchedule(id, offers) => if id in e.peers { ScheduleIndexes(e, id, offers); }
    case DoSend(answers) => SendDataIndexes(e, answers);
    case DoSweep => SweepIndexes(e);
  }

  lemma {:induction false} RunIndexes(e: Engine, actions: seq<Action>)
    requires IndexesOk(e) && SessionsOk(e, {}) && AllAllowed(e, actions)
    ensures IndexesOk(Run(e, actions))
    decreases |actions|
  {
    hide IndexesOk, SessionsOk, Step, Allowed;
    if actions != [] {
      StepIndexes(e, actions[0]);
      StepOk(e, actions[0]);
      RunIndexes(Step(e, actions[0]), actions[1..]);
    }
  }

  /** In every run of an engine, after every action: streams, rings and mailboxes agree with the sessions. */
  lemma IndexesAgree(id: PeerId, autoAccept: bool, rate: nat, actions: seq<Action>)
    requires AllAllowed(NewEngine(id, autoAccept, rate), actions)
    ensures IndexesOk(Run(NewEngine(id, autoAccept, rate), actions))
  {
    var e := NewEngine(id, autoAccept, rate);
    assert SessionsOk(e, {}) && IndexesOk(e);
    RunIndexes(e, actions);
  }
}
