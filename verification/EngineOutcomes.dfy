/** Every session the application knows of comes to an end it is told: when the engine keeps that promise, and when not. */
module EngineOutcomes {
  import opened Transport
  import opened EngineModel
  import opened EngineTrace

  /** The application waits for the outcome of the session. */
  predicate Due(e: Engine, id: PeerId) { id in e.peers && e.peers[id].announced && !e.peers[id].reported }

  ghost predicate ToldSince(events: seq<Event>, n: nat, id: PeerId) {
    exists i :: n <= i < |events| && events[i].Disconnected? && events[i].peer == id
  }

  /** No outcome that was due is forgotten: it is still due, if only from the record that took over, or it was told. */
  ghost predicate Kept(e: Engine, e': Engine) {
    && e.events <= e'.events
    && forall id :: Due(e, id) ==> Due(e', id) || ToldSince(e'.events, |e.events|, id)
  }

  lemma KeptSelf(e: Engine)
    ensures Kept(e, e)
  {
  }

  lemma KeptThen(e: Engine, e1: Engine, e2: Engine)
    requires Kept(e, e1) && Kept(e1, e2)
    ensures Kept(e, e2)
  {
    forall id | Due(e, id)
      ensures Due(e2, id) || ToldSince(e2.events, |e.events|, id)
    {
      if ToldSince(e1.events, |e.events|, id) {
        var i :| |e.events| <= i < |e1.events| && e1.events[i].Disconnected? && e1.events[i].peer == id;
        assert e2.events[i] == e1.events[i];
      }
    }
  }

  /** No record went, and none was reported. */
  lemma KeptQuiet(e: Engine, e': Engine)
    requires e.events <= e'.events
    requires forall id :: id in e.peers ==>
      id in e'.peers && (e.peers[id].announced ==> e'.peers[id].announced) && e'.peers[id].reported == e.peers[id].reported
    ensures Kept(e, e')
  {
  }

  lemma ReportKept(e: Engine, id: PeerId)
    requires id in e.peers
    ensures Kept(e, Report(e, id)) && id in Report(e, id).peers && !Due(Report(e, id), id)
  {
    var e' := Report(e, id);
    if e.peers[id].announced && !e.peers[id].reported {
      assert e'.events[|e.events|] == Disconnected(id, e.peers[id].record);
      assert ToldSince(e'.events, |e.events|, id);
    }
  }

  lemma EraseKept(e: Engine, id: PeerId)
    requires !Due(e, id)
    ensures Kept(e, Erase(e, id))
  {
    ErasedIsGone(e, id);
    hide Erase;
  }

  lemma AddPeerKept(e: Engine, id: PeerId, stream: nat, initiator: bool, announced: bool)
    requires id !in e.peers
    ensures Kept(e, AddPeer(e, id, stream, initiator, announced))
  {
    KeptQuiet(e, AddPeer(e, id, stream, initiator, announced));
  }

  lemma EmitKept(e: Engine, event: Event)
    ensures Kept(e, Emit(e, event))
  {
    KeptQuiet(e, Emit(e, event));
  }

  lemma EndKept(e: Engine, id: PeerId)
    requires id in e.peers
    ensures Kept(e, End(e, id))
  {
    KeptQuiet(e, End(e, id));
  }

  lemma GoodbyeKept(e: Engine, id: PeerId)
    requires id in e.peers
    ensures Kept(e, SayGoodbye(e, id))
  {
    KeptQuiet(e, SayGoodbye(e, id));
  }

  lemma SendDeclineKept(e: Engine, id: PeerId)
    requires id in e.peers
    ensures Kept(e, SendDecline(e, id))
  {
    hide Kept, Report, SayGoodbye;
    ReportKept(e, id);
    GoodbyeKept(Report(e, id), id);
    KeptThen(e, Report(e, id), SendDecline(e, id));
  }

  lemma SendCloseKept(e: Engine, id: PeerId, heard: bool)
    requires id in e.peers
    ensures Kept(e, SendClose(e, id, heard))
  {
    hide Kept, SayGoodbye;
    if heard {
      GoodbyeKept(e, id);
    } else {
      KeptQuiet(e, SendClose(e, id, heard));
    }
  }

  lemma ReportCloseKept(e: Engine, id: PeerId, heard: bool)
    requires id in e.peers
    ensures id in Report(e, id).peers && Kept(e, SendClose(Report(e, id), id, heard))
  {
    hide Kept, Report, SendClose;
    ReportKept(e, id);
    SendCloseKept(Report(e, id), id, heard);
    KeptThen(e, Report(e, id), SendClose(Report(e, id), id, heard));
  }

  lemma ReportEndKept(e: Engine, id: PeerId)
    requires id in e.peers
    ensures id in Report(e, id).peers && Kept(e, End(Report(e, id), id))
  {
    hide Kept, Report, End;
    ReportKept(e, id);
    EndKept(Report(e, id), id);
    KeptThen(e, Report(e, id), End(Report(e, id), id));
  }

  lemma SetConnectedKept(e: Engine, id: PeerId)
    requires id in e.peers
    ensures Kept(e, SetConnected(e, id))
  {
    KeptQuiet(e, SetConnected(e, id));
  }

  lemma SendAcceptKept(e: Engine, id: PeerId)
    requires id in e.peers
    ensures Kept(e, SendAccept(e, id))
  {
    KeptQuiet(e, SendAccept(e, id));
  }

  // --- Actions -----------------------------------------------------------------------------

  lemma StartSessionKept(e: Engine, id: PeerId, known: bool, bound: bool, stream: nat)
    requires SessionsOk(e, {})
    ensures Kept(e, StartSession(e, id, known, bound, stream))
  {
    hide Kept, SessionsOk, Erase, AddPeer, Emit, SendAccept;
    KeptSelf(e);
    if !e.shutdown {
      if id in e.peers { PeerIsOk(e, id, {}); SendAcceptKept(e, id); }
      if Startable(e, id) {
        var e1 := Erase(e, id);
        EraseKept(e, id);
        ErasedIsGone(e, id);
        EmitKept(e1, Disconnected(id, 0));
        AddPeerKept(e1, id, stream, true, true);
        KeptThen(e, e1, StartSession(e, id, known, bound, stream));
      }
    }
  }

  lemma EndSessionKept(e: Engine, id: PeerId, heard: bool)
    requires id in e.peers
    ensures Kept(e, EndSession(e, id, heard))
  {
    hide Kept, Report, SendClose, SendDecline;
    match e.peers[id].state
    case Established => KeptQuiet(e, EndSession(e, id, heard));
    case AwaitingDecision => SendDeclineKept(e, id);
    case Connecting => ReportCloseKept(e, id, heard);
    case Closing => KeptSelf(e);
  }

  lemma ShutDownOneKept(e: Engine, id: PeerId, heard: bool)
    requires id in e.peers
    ensures Kept(e, ShutDownOne(e, id, heard))
  {
    hide Kept, Report, SendClose, SendDecline;
    ReportKept(e, id);
    ReportCloseKept(e, id, heard);
    SendDeclineKept(Report(e, id), id);
    if e.peers[id].state == AwaitingDecision { KeptThen(e, Report(e, id), ShutDownOne(e, id, heard)); }
  }

  lemma {:induction false} ShutDownEachKept(e: Engine, ids: seq<PeerId>, heard: set<PeerId>)
    ensures Kept(e, ShutDownEach(e, ids, heard))
    decreases |ids|
  {
    hide Kept, ShutDownOne;
    KeptSelf(e);
    if ids != [] {
      if ids[0] in e.peers {
        var e1 := ShutDownOne(e, ids[0], ids[0] in heard);
        ShutDownOneKept(e, ids[0], ids[0] in heard);
        ShutDownEachKept(e1, ids[1..], heard);
        KeptThen(e, e1, ShutDownEach(e, ids, heard));
      } else {
        ShutDownEachKept(e, ids[1..], heard);
      }
    }
  }

  lemma BeginShutdownKept(e: Engine, ids: seq<PeerId>, heard: set<PeerId>)
    ensures Kept(e, BeginShutdown(e, ids, heard))
  {
    var e1 := e.(shutdown := true);
    KeptQuiet(e, e1);
    KeptSelf(e);
    hide Kept, ShutDownEach;
    ShutDownEachKept(e1, ids, heard);
    KeptThen(e, e1, ShutDownEach(e1, ids, heard));
  }

  lemma {:induction false} ReportEachKept(e: Engine, ids: seq<PeerId>)
    ensures Kept(e, ReportEach(e, ids)) && ReportEach(e, ids).peers.Keys == e.peers.Keys
    ensures forall id :: id in ids ==> !Due(ReportEach(e, ids), id)
    decreases |ids|
  {
    KeptSelf(e);
    if ids != [] {
      var e1 := if ids[0] in e.peers then Report(e, ids[0]) else e;
      if ids[0] in e.peers { ReportKept(e, ids[0]); }
      assert e1.peers.Keys == e.peers.Keys && !Due(e1, ids[0]);
      hide Kept, Report;
      ReportEachKept(e1, ids[1..]);
      KeptThen(e, e1, ReportEach(e, ids));
      NeverDueAgain(e1, ids[1..], ids[0]);
    }
  }

  lemma {:induction false} NeverDueAgain(e: Engine, ids: seq<PeerId>, id: PeerId)
    requires !Due(e, id)
    ensures !Due(ReportEach(e, ids), id)
    decreases |ids|
  {
    if ids != [] { NeverDueAgain(if ids[0] in e.peers then Report(e, ids[0]) else e, ids[1..], id); }
  }

  lemma EndAllKept(e: Engine, ids: seq<PeerId>)
    requires Lists(ids, e.peers)
    ensures Kept(e, EndAllSessions(e, ids))
  {
    ReportEachKept(e, ids);
    var e1, e' := ReportEach(e, ids), EndAllSessions(e, ids);
    hide ReportEach;
    assert forall id :: Due(e1, id) ==> id in ids;
    assert Kept(e1, e');
    KeptThen(e, e1, e');
  }

  lemma DeliverKept(e: Engine, id: PeerId, m: Delivered)
    requires id in e.peers
    ensures Kept(e, Deliver(e, id, m))
  {
    hide Kept, Report, End, SetConnected, Emit;
    KeptSelf(e);
    ReportEndKept(e, id);
    SetConnectedKept(e, id);
    if m.GotData? { EmitKept(e, Message(id, m.lane)); }
  }

  lemma {:induction false} DeliverAllKept(e: Engine, id: PeerId, messages: seq<Delivered>)
    requires id in e.peers
    ensures Kept(e, DeliverAll(e, id, messages))
    decreases |messages|
  {
    hide Kept, Deliver;
    KeptSelf(e);
    if messages != [] {
      var e1 := Deliver(e, id, messages[0]);
      DeliverKept(e, id, messages[0]);
      DeliverKeeps(e, id, messages[0]);
      DeliverAllKept(e1, id, messages[1..]);
      KeptThen(e, e1, DeliverAll(e, id, messages));
    }
  }

  lemma ProgressKept(e: Engine, id: PeerId, look: Look)
    requires id in e.peers
    ensures Kept(e, Progress(e, id, look))
  {
    hide Kept, Report, End, SetConnected, SendDecline, SendClose;
    KeptSelf(e);
    SetConnectedKept(e, id);
    SendDeclineKept(e, id);
    EndKept(e, id);
    ReportCloseKept(e, id, look.heard);
  }

  lemma AdvanceKept(e: Engine, id: PeerId, look: Look)
    requires id in e.peers
    ensures Kept(e, Advance(e, id, look))
  {
    hide Kept, Report, End, DeliverAll, Progress;
    KeptSelf(e);
    ReportEndKept(e, id);
    var e1 := DeliverAll(e, id, look.delivered);
    DeliverAllKept(e, id, look.delivered);
    ProgressKept(e1, id, look);
    KeptThen(e, e1, Progress(e1, id, look));
  }

  lemma {:induction false} EraseEndedKept(e: Engine, ids: seq<PeerId>)
    requires SessionsOk(e, {})
    ensures Kept(e, EraseEnded(e, ids))
    decreases |ids|
  {
    hide Kept, SessionsOk, Erase;
    KeptSelf(e);
    if ids != [] {
      if ids[0] in e.peers && e.peers[ids[0]].ended {
        var e1 := Erase(e, ids[0]);
        PeerIsOk(e, ids[0], {});
        EraseKept(e, ids[0]);
        EraseEndedOne(e, ids[0]);
        EraseEndedKept(e1, ids[1..]);
        KeptThen(e, e1, EraseEnded(e, ids));
      } else {
        EraseEndedKept(e, ids[1..]);
      }
    }
  }

  // --- Crossing Hellos -------------------------------------------------------------------------

  /** The one way an outcome is lost: a Hello crosses the own one, and too many other sessions are pending for a new record. */
  predicate Drops(e: Engine, h: Hello) {
    && h.served.None? && !e.shutdown && h.accepted && h.from != e.id
    && Crosses(e, h.from) && e.id <= h.from && Due(e, h.from) && AtLimit(Erase(e, h.from))
  }

  lemma DisplacedKept(e: Engine, from: PeerId)
    requires !(Crosses(e, from) && Due(e, from))
    ensures Kept(e, Displaced(e, from)) && from !in Displaced(e, from).peers
  {
    hide Kept, Report, Erase;
    KeptSelf(e);
    if from in e.peers {
      ReportKept(e, from);
      EraseKept(if Crosses(e, from) then e else Report(e, from), from);
      ErasedIsGone(if Crosses(e, from) then e else Report(e, from), from);
      if !Crosses(e, from) { KeptThen(e, Report(e, from), Erase(Report(e, from), from)); }
    }
  }

  lemma HelloNewKept(e: Engine, h: Hello)
    requires h.served.None? && !(Crosses(e, h.from) && Due(e, h.from))
    ensures Kept(e, OnHello(e, h).0)
  {
    var e1, e' := Displaced(e, h.from), OnHello(e, h).0;
    DisplacedKept(e, h.from);
    KeptSelf(e);
    hide Kept, Displaced, AtLimit;
    if e' != e {
      KeptSelf(e1);
      if !AtLimit(e1) { KeptQuiet(e1, e'); }
      KeptThen(e, e1, e');
    }
  }

  /** The record that answers a crossing Hello takes over what the application waits for. */
  lemma HelloCrossKept(e: Engine, h: Hello)
    requires h.served.None? && Crosses(e, h.from) && Due(e, h.from) && !Drops(e, h)
    ensures Kept(e, OnHello(e, h).0)
  {
    ErasedIsGone(e, h.from);
    hide Erase, AtLimit;
  }

  lemma HelloDrops(e: Engine, h: Hello)
    requires Drops(e, h)
    ensures !Kept(e, OnHello(e, h).0)
  {
    ErasedIsGone(e, h.from);
    hide Erase, AtLimit;
    var e' := OnHello(e, h).0;
    assert Due(e, h.from) && !Due(e', h.from) && !ToldSince(e'.events, |e.events|, h.from);
  }

  /** A Hello keeps every outcome if and only if it does not meet the limit after it crossed an own one. */
  lemma HelloKeepsExactly(e: Engine, h: Hello)
    ensures Kept(e, OnHello(e, h).0) <==> !Drops(e, h)
  {
    KeptSelf(e);
    if Drops(e, h) {
      HelloDrops(e, h);
    } else if h.served.None? {
      if Crosses(e, h.from) && Due(e, h.from) { HelloCrossKept(e, h); } else { HelloNewKept(e, h); }
    }
  }

  /** The action is a Hello that drops an outcome. */
  predicate DropsIn(e: Engine, a: Action) {
    a.DoReceive? && a.datagram.dst == 0 && a.datagram.hello.Some? && Drops(e, a.datagram.hello.value)
  }

  lemma HandleDatagramKept(e: Engine, d: Datagram)
    requires !DropsIn(e, DoReceive(d))
    ensures Kept(e, HandleDatagram(e, d))
  {
    hide Kept, OnHello, SetConnected, Drops;
    var (e1, found) := PeerOf(e, d);
    KeptSelf(e);
    if d.dst == 0 && d.hello.Some? { HelloKeepsExactly(e, d.hello.value); }
    if found.Some? && found.value in e1.peers {
      SetConnectedKept(e1, found.value);
      KeptThen(e, e1, SetConnected(e1, found.value));
    }
  }

  lemma LanesKept(e: Engine, e': Engine)
    requires SameButLanes(e, e')
    ensures Kept(e, e')
  {
    KeptQuiet(e, e');
  }

  lemma SweepKept(e: Engine)
    requires SessionsOk(e, {})
    ensures Kept(e, Sweep(e))
  {
    var e1 := e.(ended := []);
    KeptQuiet(e, e1);
    hide Kept, SessionsOk, EraseEnded;
    SameSeen(e, e1);
    EraseEndedKept(e1, e.ended);
    KeptThen(e, e1, Sweep(e));
  }

  /** Every action but such a Hello keeps every outcome. */
  lemma StepKept(e: Engine, a: Action)
    requires SessionsOk(e, {}) && Allowed(e, a) && !DropsIn(e, a)
    ensures Kept(e, Step(e, a))
  {
    hide Kept, SessionsOk, StartSession, SendDecline, EndSession, BeginShutdown, EndAllSessions, HandleDatagram, Advance,
         Schedule, Sweep, SendAccept, SendData, DropsIn, SameButLanes;
    KeptSelf(e);
    match a
    case DoConnect(id, known, bound, stream) => StartSessionKept(e, id, known, bound, stream);
    case DoAccept(id) => if id in e.peers { SendAcceptKept(e, id); }
    case DoDecline(id) => if id in e.peers { SendDeclineKept(e, id); }
    case DoDisconnect(id, heard) => if id in e.peers { EndSessionKept(e, id, heard); }
    case DoShutdown(ids, heard) => BeginShutdownKept(e, ids, heard);
    case DoEndAll(ids) => EndAllKept(e, ids);
    case DoReceive(d) => HandleDatagramKept(e, d);
    case DoAdvance(id, look) => if id in e.peers { AdvanceKept(e, id, look); }
    case DoSchedule(id, offers) => if id in e.peers { ScheduleLanes(e, id, offers); LanesKept(e, Schedule(e, id, offers)); }
    case DoSend(answers) => SendDataLanes(e, answers); LanesKept(e, SendData(e, answers));
    case DoSweep => SweepKept(e);
  }

  predicate NeverDrops(e: Engine, actions: seq<Action>)
    decreases |actions|
  {
    actions == [] || (!DropsIn(e, actions[0]) && NeverDrops(Step(e, actions[0]), actions[1..]))
  }

  /** Over any run without such a Hello: an outcome the application waits for is told, or it still waits for it. */
  lemma {:induction false} RunKeepsOutcomes(e: Engine, actions: seq<Action>)
    requires SessionsOk(e, {}) && AllAllowed(e, actions) && NeverDrops(e, actions)
    ensures Kept(e, Run(e, actions))
    decreases |actions|
  {
    hide Kept, SessionsOk, Step, Allowed, DropsIn;
    KeptSelf(e);
    if actions != [] {
      var e1 := Step(e, actions[0]);
      StepKept(e, actions[0]);
      StepOk(e, actions[0]);
      RunKeepsOutcomes(e1, actions[1..]);
      KeptThen(e, e1, Run(e, actions));
    }
  }

  /** Once all sessions are gone, no outcome is owed. */
  lemma NothingOwedWhenGone(e: Engine, actions: seq<Action>, id: PeerId)
    requires SessionsOk(e, {}) && AllAllowed(e, actions) && NeverDrops(e, actions)
    requires Due(e, id) && id !in Run(e, actions).peers
    ensures ToldSince(Run(e, actions).events, |e.events|, id)
  {
    RunKeepsOutcomes(e, actions);
    hide *;
  }

  // --- The outcome of a connect ----------------------------------------------------------------------

  /** The call is answered at once, or an outcome is due from then on. */
  ghost predicate Answered(e: Engine, e': Engine, id: PeerId) { Due(e', id) || ToldSince(e'.events, |e.events|, id) }

  /** A connect leads to an outcome if and only if it makes a record, or one is due anyway. */
  lemma ConnectAnsweredExactly(e: Engine, id: PeerId, known: bool, bound: bool, stream: nat)
    ensures Answered(e, StartSession(e, id, known, bound, stream), id) <==> (!e.shutdown && Startable(e, id)) || Due(e, id)
  {
    var e' := StartSession(e, id, known, bound, stream);
    if !e.shutdown && Startable(e, id) {
      ErasedIsGone(e, id);
      hide Erase;
      if !Due(e', id) { assert e'.events[|e.events|] == Disconnected(id, 0); }
    }
  }

  /** Such a connect is answered by the time its session is gone, in every run without a Hello that drops an outcome. */
  lemma ConnectIsAnswered(e: Engine, id: PeerId, known: bool, bound: bool, stream: nat, actions: seq<Action>)
    requires SessionsOk(e, {}) && Allowed(e, DoConnect(id, known, bound, stream))
    requires (!e.shutdown && Startable(e, id)) || Due(e, id)
    requires var e1 := StartSession(e, id, known, bound, stream);
      AllAllowed(e1, actions) && NeverDrops(e1, actions) && id !in Run(e1, actions).peers
    ensures ToldSince(Run(StartSession(e, id, known, bound, stream), actions).events, |e.events|, id)
  {
    hide SessionsOk, Allowed, StartSession, AllAllowed, NeverDrops, Run, Due, Startable;
    var e1 := StartSession(e, id, known, bound, stream);
    StartSessionOk(e, id, known, bound, stream);
    StartSessionKept(e, id, known, bound, stream);
    ConnectAnsweredExactly(e, id, known, bound, stream);
    RunKeepsOutcomes(e1, actions);
    ToldEarlier(e, e1, Run(e1, actions), id);
  }

  lemma ToldEarlier(e: Engine, e1: Engine, e2: Engine, id: PeerId)
    requires e.events <= e1.events && Kept(e1, e2) && Answered(e, e1, id) && id !in e2.peers
    ensures ToldSince(e2.events, |e.events|, id)
  {
    if ToldSince(e1.events, |e.events|, id) {
      var i :| |e.events| <= i < |e1.events| && e1.events[i].Disconnected? && e1.events[i].peer == id;
      assert e2.events[i] == e1.events[i];
    } else {
      var i :| |e1.events| <= i < |e2.events| && e2.events[i].Disconnected? && e2.events[i].peer == id;
    }
  }

  /** Peer 2 asks and is accepted without a question, the application connects to it, and its link fails. */
  const UNHEARD := [
    DoReceive(Datagram(0, Some(Hello(2, None, true, 1)), Control, true)),
    DoConnect(2, true, true, 2),
    DoAdvance(2, Look(true, [], false, false, false, false)),
    DoSweep]

  lemma SilentlyAccepted(e: Engine)
    requires e == NewEngine(1, true, 0)
    ensures Allowed(e, UNHEARD[0])
    ensures var e1 := Step(e, UNHEARD[0]);
      && e1 == e.(peers := map[2 := Peer(1, Connecting, false, true, false, false, false, false, {}, 1)],
                  byStream := map[1 := 2], records := 1)
  {
    assert Displaced(e, 2) == e && PendingOf(e.peers) == {};
  }

  /** A call of connect() that nothing ever comes of: two peers, no earlier call, and not one event. */
  lemma ConnectUnanswered()
    ensures AllAllowed(NewEngine(1, true, 0), UNHEARD)
    ensures Run(NewEngine(1, true, 0), UNHEARD).events == [] && Run(NewEngine(1, true, 0), UNHEARD).peers == map[]
  {
    var e0 := NewEngine(1, true, 0);
    SilentlyAccepted(e0);
    var e1 := Step(e0, UNHEARD[0]);
    var e2 := Step(e1, UNHEARD[1]);
    assert Erase(e1, 2).byStream == map[];
    assert Allowed(e1, UNHEARD[1]) && e2 == e1;
    var e3 := Step(e2, UNHEARD[2]);
    assert e3.events == [] && e3.peers.Keys == {2} && e3.peers[2].ended && e3.ended == [2];
    var e4 := Step(e3, UNHEARD[3]);
    SweptLast(e3);
    hide Step, Allowed;
    assert UNHEARD[1..][1..] == [UNHEARD[2], UNHEARD[3]] && UNHEARD[1..][1..][1..] == [UNHEARD[3]];
    assert [UNHEARD[3]][1..] == [] && UNHEARD[1..][0] == UNHEARD[1];
    AllowedLooks(e2, e3);
  }

  lemma AllowedLooks(e2: Engine, e3: Engine)
    ensures Allowed(e2, UNHEARD[2]) && Allowed(e3, UNHEARD[3])
  {
  }

  lemma SweptLast(e: Engine)
    requires e.events == [] && e.peers.Keys == {2} && e.peers[2].ended && e.ended == [2]
    ensures Step(e, DoSweep).events == [] && Step(e, DoSweep).peers == map[]
  {
    var e1 := e.(ended := []);
    ErasedIsGone(e1, 2);
    hide Erase;
    assert [2][1..] == [];
    assert EraseEnded(Erase(e1, 2), []) == Erase(e1, 2);
    assert Erase(e1, 2).peers == map[];
  }

  // --- A run that drops an outcome ------------------------------------------------------------------

  /** The application asks n peers more to connect, after as many as already: the n-th one is peer n + 1. */
  function Asks(already: nat, n: nat): seq<Action>
    decreases n
  {
    if n == 0 then [] else [DoConnect(already + 2, true, true, already + 1)] + Asks(already + 1, n - 1)
  }

  ghost predicate AllAsked(e: Engine, n: nat) {
    e.id == 1 && !e.shutdown && AskedPeers(e.peers, n) && forall s :: s in e.byStream ==> s <= n
  }

  ghost predicate AskedPeers(peers: map<PeerId, Peer>, n: nat) {
    && |peers| == n && (n > 0 ==> 2 in peers)
    && forall id :: id in peers ==> id <= n + 1 && IsAsked(peers[id])
  }

  predicate IsAsked(p: Peer) { p.state == Connecting && p.initiator && p.announced && !p.reported }

  lemma OneMoreAsked(peers: map<PeerId, Peer>, n: nat, p: Peer)
    requires AskedPeers(peers, n) && IsAsked(p)
    ensures AskedPeers(peers[n + 2 := p], n + 1)
  {
    hide IsAsked;
    KeysAdded(peers, n + 2, p);
    var more := peers[n + 2 := p];
    assert n == 0 ==> n + 2 == 2;
    assert 2 in more;
  }

  lemma AddedAsked(e: Engine, n: nat)
    requires AllAsked(e, n)
    ensures AllAsked(AddPeer(e, n + 2, n + 1, true, true), n + 1)
  {
    hide AskedPeers;
    OneMoreAsked(e.peers, n, Peer(n + 1, Connecting, true, false, false, true, false, false, {}, e.records + 1));
  }

  lemma AskOne(e: Engine, n: nat)
    requires AllAsked(e, n) && n < MAX_PEERS
    ensures Allowed(e, DoConnect(n + 2, true, true, n + 1))
    ensures AllAsked(Step(e, DoConnect(n + 2, true, true, n + 1)), n + 1)
  {
    AddedAsked(e, n);
    hide AddPeer;
    assert n + 2 !in e.peers && n + 1 !in e.byStream;
    assert Erase(e, n + 2) == e;
  }

  lemma NothingRun(e: Engine)
    ensures Run(e, []) == e
  {
  }

  lemma FirstThen(e: Engine, first: Action, others: seq<Action>)
    ensures Run(e, [first] + others) == Run(Step(e, first), others)
    ensures AllAllowed(e, [first] + others) <==> Allowed(e, first) && AllAllowed(Step(e, first), others)
  {
    hide Step, Allowed;
    assert ([first] + others)[1..] == others;
  }

  lemma {:induction false} AskedThen(e: Engine, already: nat, n: nat, rest: seq<Action>)
    requires AllAsked(e, already) && already + n <= MAX_PEERS
    ensures var e' := Run(e, Asks(already, n));
      && AllAsked(e', already + n) && Run(e, Asks(already, n) + rest) == Run(e', rest)
      && (AllAllowed(e', rest) ==> AllAllowed(e, Asks(already, n) + rest))
    decreases n
  {
    hide AllAsked, Step, Allowed, Run, AllAllowed;
    if n == 0 {
      NothingRun(e);
      assert [] + rest == rest;
    } else {
      var first, others := DoConnect(already + 2, true, true, already + 1), Asks(already + 1, n - 1);
      AskOne(e, already);
      AskedThen(Step(e, first), already + 1, n - 1, rest);
      FirstThen(e, first, others);
      FirstThen(e, first, others + rest);
      assert [first] + others + rest == [first] + (others + rest);
    }
  }

  /** 65 peers were asked, and the first one asked at the same time. */
  const CROSSED := Hello(2, None, true, 66)
  const CROSSING := DoReceive(Datagram(0, Some(CROSSED), Control, true))

  lemma CrossedDrops(e: Engine)
    requires AllAsked(e, 65)
    ensures Due(e, 2) && Drops(e, CROSSED) && Allowed(e, CROSSING)
  {
    var e1 := Erase(e, 2);
    assert 2 in e.peers && Crosses(e, 2);
    ErasedIsGone(e, 2);
    assert PendingOf(e1.peers) == e.peers.Keys - {2};
    assert |e.peers| == |e.peers.Keys|;
  }

  lemma CrossingAllowed(e: Engine)
    requires AllAsked(e, 65)
    ensures AllAllowed(e, [CROSSING]) && Run(e, [CROSSING]) == Step(e, CROSSING)
  {
    CrossedDrops(e);
    hide AllAsked, Allowed, Step, Drops, Due;
    assert [CROSSING][1..] == [];
    assert Run(Step(e, CROSSING), []) == Step(e, CROSSING);
    assert AllAllowed(Step(e, CROSSING), []);
  }

  lemma DroppedBy(e: Engine)
    requires Drops(e, CROSSED)
    ensures Step(e, CROSSING) == OnHello(e, CROSSED).0
  {
    hide Displaced, AtLimit, Admitted, Erase;
    HelloDrops(e, CROSSED);
    assert OnHello(e, CROSSED).1.None? by { NotServed(e); }
  }

  lemma NotServed(e: Engine)
    requires Drops(e, CROSSED)
    ensures OnHello(e, CROSSED).1.None?
  {
  }

  /** In a run of an engine from its start, all of whose actions are allowed: the application asks 65 peers, one of them asks
      back, and is never heard of again. */
  lemma CrossingDropsOutcome()
    ensures var e0 := NewEngine(1, true, 0);
      var e := Run(e0, Asks(0, 65));
      && AllAllowed(e0, Asks(0, 65) + [CROSSING])
      && Due(e, 2) && Drops(e, CROSSED) && !Kept(e, Run(e0, Asks(0, 65) + [CROSSING]))
  {
    var e0 := NewEngine(1, true, 0);
    assert AllAsked(e0, 0);
    hide AllAsked, Due, Drops, Kept, Step, OnHello, Asks, Run, AllAllowed, NewEngine;
    AskedThen(e0, 0, 65, [CROSSING]);
    var e := Run(e0, Asks(0, 65));
    CrossedDrops(e);
    CrossingAllowed(e);
    HelloDrops(e, CROSSED);
    DroppedBy(e);
  }
}
