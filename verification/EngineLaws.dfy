/** What the engine makes of what a link delivers, in terms of the fields of the session alone. */
module EngineLaws {
  import opened Transport
  import opened EngineModel

  // --- What can become of a session ----------------------------------------------------------------------

  /** Its outcome, if one is owed. */
  function OutcomeOf(id: PeerId, p: Peer): seq<Event> {
    if p.announced && !p.reported then [Disconnected(id, p.record)] else []
  }

  /** The application is told, no mailbox is left, and the next sweep removes the session. */
  function Over(e: Engine, id: PeerId): Engine
    requires id in e.peers
  {
    var p := e.peers[id];
    e.(peers := e.peers[id := p.(reported := p.reported || p.announced, ended := true)],
       boxes := e.boxes - {id}, ended := e.ended + [id], events := e.events + OutcomeOf(id, p))
  }

  /** The application is told, and messages are taken from now on. */
  function Opened(e: Engine, id: PeerId): Engine
    requires id in e.peers
  {
    e.(peers := e.peers[id := e.peers[id].(state := Established, announced := true)],
       boxes := e.boxes + {id}, events := e.events + [Connected(id)])
  }

  /** The application is told, and goodbye is said. */
  function Leaving(e: Engine, id: PeerId): Engine
    requires id in e.peers
  {
    var p := e.peers[id];
    e.(peers := e.peers[id := p.(reported := p.reported || p.announced, state := Closing, closeSent := true)],
       boxes := e.boxes - {id}, events := e.events + OutcomeOf(id, p))
  }

  /** The steps of a session, by what they change. */
  lemma ReportEnds(e: Engine, id: PeerId)
    requires id in e.peers && !e.peers[id].ended
    ensures id in Report(e, id).peers && End(Report(e, id), id) == Over(e, id)
  {
    assert e.events + [] == e.events;
  }

  lemma Connects(e: Engine, id: PeerId)
    requires id in e.peers
    ensures SetConnected(e, id) == Opened(e, id)
  {
  }

  lemma SaysGoodbye(e: Engine, id: PeerId)
    requires id in e.peers
    ensures id in Report(e, id).peers && SayGoodbye(Report(e, id), id) == Leaving(e, id)
  {
    assert e.events + [] == e.events;
  }

  lemma JustEnds(e: Engine, id: PeerId)
    requires id in e.peers && !e.peers[id].ended
    ensures End(e, id) == e.(peers := e.peers[id := e.peers[id].(ended := true)], boxes := e.boxes - {id}, ended := e.ended + [id])
  {
  }

  lemma UnheardIsOver(e: Engine, id: PeerId)
    requires id in e.peers && !e.peers[id].ended
    ensures id in Report(e, id).peers && SendClose(Report(e, id), id, false) == Over(e, id)
  {
    assert e.boxes - {id} - {id} == e.boxes - {id};
    assert e.events + [] == e.events;
  }

  // --- What a link delivered -----------------------------------------------------------------------------

  /** One event for every data message, in their order and each with its lane. */
  function DataIn(id: PeerId, messages: seq<Delivered>): seq<Event> {
    if messages == [] then []
    else (if messages[0].GotData? then [Message(id, messages[0].lane)] else []) + DataIn(id, messages[1..])
  }

  /** The messages before the first one that is an answer of one of some kinds. */
  function Before(messages: seq<Delivered>, kinds: set<Delivered>): (r: seq<Delivered>)
    ensures r <= messages && (forall m :: m in r ==> m !in kinds)
    ensures r != messages ==> messages[|r|] in kinds
  {
    if messages == [] || messages[0] in kinds then [] else [messages[0]] + Before(messages[1..], kinds)
  }

  /** Data goes to the application. */
  predicate Takes(p: Peer) {
    !p.ended && !p.reported && (p.state == Established || (p.state == Closing && !p.closeSent))
  }

  /** Data of a session that is open comes out message by message, up to the goodbye of the remote. */
  lemma {:induction false} OpenSession(e: Engine, id: PeerId, messages: seq<Delivered>)
    requires id in e.peers && Takes(e.peers[id])
    ensures var first := Before(messages, {GotClose}); var told := e.(events := e.events + DataIn(id, first));
      DeliverAll(e, id, messages) == if first == messages then told else Over(told, id)
    decreases |messages|
  {
    hide Deliver, Over;
    if messages == [] || messages[0] == GotClose {
      assert e.(events := e.events + []) == e;
      if messages != [] {
        CloseIsOver(e, id);
        OverIsEnded(e, id);
        AllOver(Over(e, id), id, messages[1..]);
      }
    } else {
      var m, rest := messages[0], messages[1..];
      var first, e1 := Before(rest, {GotClose}), e.(events := e.events + DataIn(id, [m]));
      OpenTakes(e, id, m);
      OpenSession(e1, id, rest);
      assert Before(messages, {GotClose}) == [m] + first && [m] + rest == messages;
      DataJoins(id, m, first);
      hide DataIn, Before;
      assert e.events + DataIn(id, [m]) + DataIn(id, first) == e.events + DataIn(id, [m] + first);
    }
  }

  lemma DataJoins(id: PeerId, m: Delivered, rest: seq<Delivered>)
    ensures DataIn(id, [m] + rest) == DataIn(id, [m]) + DataIn(id, rest)
  {
    assert ([m] + rest)[1..] == rest && [m][1..] == [];
  }

  lemma OverIsEnded(e: Engine, id: PeerId)
    requires id in e.peers
    ensures id in Over(e, id).peers && Over(e, id).peers[id].ended
  {
  }

  lemma CloseIsOver(e: Engine, id: PeerId)
    requires id in e.peers && !e.peers[id].ended
    ensures Deliver(e, id, GotClose) == Over(e, id)
  {
    hide Report, End, Over;
    ReportEnds(e, id);
  }

  lemma OpenTakes(e: Engine, id: PeerId, m: Delivered)
    requires id in e.peers && Takes(e.peers[id]) && m != GotClose
    ensures Deliver(e, id, m) == e.(events := e.events + DataIn(id, [m]))
  {
    assert e.events + [] == e.events && [m][1..] == [];
  }

  /** Nothing more comes from a session that ended. */
  lemma {:induction false} AllOver(e: Engine, id: PeerId, messages: seq<Delivered>)
    requires id in e.peers && e.peers[id].ended
    ensures DeliverAll(e, id, messages) == e
    decreases |messages|
  {
    if messages != [] { AllOver(e, id, messages[1..]); }
  }

  /** Waits for the answer to its Hello. */
  predicate Asking(p: Peer) { !p.ended && p.state == Connecting && p.initiator }

  const ANSWERS := {GotAccept, GotDecline, GotClose}

  /** A session that asked is opened by an Accept, and over with a Decline or a goodbye; nothing counts before that. */
  lemma {:induction false} AskingSession(e: Engine, id: PeerId, messages: seq<Delivered>)
    requires id in e.peers && Asking(e.peers[id])
    ensures var first := Before(messages, ANSWERS);
      DeliverAll(e, id, messages) ==
        if first == messages then e
        else if messages[|first|] == GotAccept then DeliverAll(Opened(e, id), id, messages[|first| + 1..])
        else Over(e, id)
    decreases |messages|
  {
    hide Deliver, Over, Opened;
    if messages != [] {
      if messages[0] in ANSWERS {
        AnswerCounts(e, id, messages[0]);
        OverIsEnded(e, id);
        if messages[0] != GotAccept { AllOver(Over(e, id), id, messages[1..]); }
      } else {
        DeafTakes(e, id, messages[0]);
        AskingSession(e, id, messages[1..]);
        assert Before(messages, ANSWERS) == [messages[0]] + Before(messages[1..], ANSWERS);
      }
    }
  }

  lemma AnswerCounts(e: Engine, id: PeerId, m: Delivered)
    requires id in e.peers && Asking(e.peers[id]) && m in ANSWERS
    ensures Deliver(e, id, m) == if m == GotAccept then Opened(e, id) else Over(e, id)
  {
    hide Report, End, Over, Opened, SetConnected;
    Connects(e, id);
    ReportEnds(e, id);
  }

  lemma DeafTakes(e: Engine, id: PeerId, m: Delivered)
    requires id in e.peers && !Takes(e.peers[id]) && m != GotClose && (Asking(e.peers[id]) ==> m !in ANSWERS)
    ensures Deliver(e, id, m) == e
  {
  }

  /** Of a session that is neither open nor asking, only a goodbye counts. */
  lemma {:induction false} DeafSession(e: Engine, id: PeerId, messages: seq<Delivered>)
    requires id in e.peers && !e.peers[id].ended && !Takes(e.peers[id]) && !Asking(e.peers[id])
    ensures DeliverAll(e, id, messages) == if GotClose in messages then Over(e, id) else e
    decreases |messages|
  {
    hide Deliver, Over;
    if messages != [] {
      if messages[0] == GotClose {
        CloseIsOver(e, id);
        OverIsEnded(e, id);
        AllOver(Over(e, id), id, messages[1..]);
      } else {
        DeafTakes(e, id, messages[0]);
        DeafSession(e, id, messages[1..]);
      }
    }
  }

  // --- A look at a session -------------------------------------------------------------------------------

  /** What a session does by itself, when its time has come or nothing of it is left. */
  function Moved(e: Engine, id: PeerId, look: Look): Engine
    requires id in e.peers
  {
    var p := e.peers[id];
    if p.state == Connecting && !p.initiator && p.acceptSent && look.settled then Opened(e, id)
    else if p.state == AwaitingDecision && look.expired then Leaving(e, id)
    else if p.state == Closing && p.closeSent && (look.settled || look.expired) then
      e.(peers := e.peers[id := p.(ended := true)], boxes := e.boxes - {id}, ended := e.ended + [id])
    else if p.state == Closing && !p.closeSent && (look.expired || look.drained) then
      if look.heard then Leaving(e, id) else Over(e, id)
    else e
  }

  lemma ProgressLaw(e: Engine, id: PeerId, look: Look)
    requires id in e.peers && !e.peers[id].ended
    ensures Progress(e, id, look) == Moved(e, id, look)
  {
    hide Report, End, Over, Opened, Leaving, SetConnected, SayGoodbye;
    Connects(e, id);
    SaysGoodbye(e, id);
    JustEnds(e, id);
    UnheardIsOver(e, id);
  }

  /** What the application learns of a session that is open: its data in order, and then its end, if it comes to that. */
  lemma AdvanceOpen(e: Engine, id: PeerId, look: Look)
    requires id in e.peers && Takes(e.peers[id]) && !look.failed
    ensures var first := Before(look.delivered, {GotClose}); var told := e.(events := e.events + DataIn(id, first));
      Advance(e, id, look) == if first != look.delivered then Over(told, id) else Moved(told, id, look)
  {
    OpenSession(e, id, look.delivered);
    var first := Before(look.delivered, {GotClose});
    var told := e.(events := e.events + DataIn(id, first));
    if first == look.delivered { ProgressLaw(told, id, look); }
    hide DeliverAll, Progress, Moved, DataIn;
  }

  /** Of a session that asked: an Accept opens it, and what came behind the Accept counts as well. */
  lemma AdvanceAsking(e: Engine, id: PeerId, look: Look)
    requires id in e.peers && Asking(e.peers[id]) && !look.failed
    ensures var first := Before(look.delivered, ANSWERS);
      Advance(e, id, look) ==
        if first == look.delivered then Moved(e, id, look)
        else if look.delivered[|first|] == GotAccept then
          Advance(Opened(e, id), id, look.(delivered := look.delivered[|first| + 1..]))
        else Over(e, id)
  {
    hide DeliverAll, Progress, Before, Over, Moved;
    AskingSession(e, id, look.delivered);
    ProgressLaw(e, id, look);
    OverIsEnded(e, id);
    var first := Before(look.delivered, ANSWERS);
    if first != look.delivered && look.delivered[|first|] == GotAccept {
      var rest := look.delivered[|first| + 1..];
      var e1 := DeliverAll(Opened(e, id), id, rest);
      if !e1.peers[id].ended { SameProgress(e1, id, look, rest); }
    }
  }

  lemma SameProgress(e: Engine, id: PeerId, look: Look, rest: seq<Delivered>)
    requires id in e.peers
    ensures Progress(e, id, look.(delivered := rest)) == Progress(e, id, look)
  {
  }

  /** Of a session that is neither: no data at all, and its end when the remote says goodbye. */
  lemma AdvanceDeaf(e: Engine, id: PeerId, look: Look)
    requires id in e.peers && !e.peers[id].ended && !Takes(e.peers[id]) && !Asking(e.peers[id]) && !look.failed
    ensures Advance(e, id, look) == if GotClose in look.delivered then Over(e, id) else Moved(e, id, look)
  {
    DeafSession(e, id, look.delivered);
    ProgressLaw(e, id, look);
    hide DeliverAll, Progress, Moved;
  }

  /** And of one whose link failed. */
  lemma AdvanceFailed(e: Engine, id: PeerId, look: Look)
    requires id in e.peers && !e.peers[id].ended && look.failed
    ensures Advance(e, id, look) == Over(e, id)
  {
    hide Report, End, Over;
    ReportEnds(e, id);
  }

  /** The events of a list of messages: the data of a session that is open, and the outcome of one that is over with it. */
  lemma DeliveredEvents(e: Engine, id: PeerId, messages: seq<Delivered>)
    requires id in e.peers && !e.peers[id].ended
    ensures var outcome := if GotClose in messages then OutcomeOf(id, e.peers[id]) else [];
      && (Takes(e.peers[id]) ==>
            DeliverAll(e, id, messages).events == e.events + DataIn(id, Before(messages, {GotClose})) + outcome)
      && (!Takes(e.peers[id]) && !Asking(e.peers[id]) ==> DeliverAll(e, id, messages).events == e.events + outcome)
  {
    hide DeliverAll, DataIn;
    if Takes(e.peers[id]) {
      OpenSession(e, id, messages);
      var first := Before(messages, {GotClose});
      assert GotClose in messages <==> first != messages;
      hide Before;
      assert e.events + DataIn(id, first) + [] == e.events + DataIn(id, first);
    } else if !Asking(e.peers[id]) {
      DeafSession(e, id, messages);
      assert e.events + [] == e.events;
    }
  }

  /** Behind the data of a session that is open, a look adds nothing but its outcome. */
  lemma AdvancedEvents(e: Engine, id: PeerId, look: Look)
    requires id in e.peers && Takes(e.peers[id]) && !look.failed
    ensures exists rest ::
      && Advance(e, id, look).events == e.events + DataIn(id, Before(look.delivered, {GotClose})) + rest
      && forall event :: event in rest ==> !event.Message?
  {
    hide Advance, DataIn, Before;
    AdvanceOpen(e, id, look);
    var all := Advance(e, id, look).events;
    var start := e.events + DataIn(id, Before(look.delivered, {GotClose}));
    assert all == start + [] || all == start + [Disconnected(id, e.peers[id].record)];
  }

  // --- Commands and datagrams ------------------------------------------------------------------------------

  /** A disconnect: an open session is emptied first, one that waits for an answer says goodbye if there is anyone to say it to. */
  lemma DisconnectLaw(e: Engine, id: PeerId, heard: bool)
    requires id in e.peers && !e.peers[id].ended
    ensures Step(e, DoDisconnect(id, heard)) ==
      match e.peers[id].state
      case Established => e.(peers := e.peers[id := e.peers[id].(state := Closing)])
      case AwaitingDecision => Leaving(e, id)
      case Connecting => if heard then Leaving(e, id) else Over(e, id)
      case Closing => e
  {
    hide Report, End, Over, Leaving, SetConnected, SayGoodbye;
    SaysGoodbye(e, id);
    UnheardIsOver(e, id);
  }

  /** The answer to a request: an Accept is on its way, or goodbye is. */
  lemma DecisionLaw(e: Engine, id: PeerId)
    requires id in e.peers && !e.peers[id].ended
    ensures var awaiting := e.peers[id].state == AwaitingDecision;
      && Step(e, DoAccept(id)) ==
           (if awaiting then e.(peers := e.peers[id := e.peers[id].(state := Connecting, acceptSent := true)]) else e)
      && Step(e, DoDecline(id)) == if awaiting then Leaving(e, id) else e
  {
    hide Report, Leaving, SayGoodbye;
    SaysGoodbye(e, id);
  }

  /** A datagram for a link: data from a remote that was accepted opens the session, as the Accept must have arrived. */
  lemma DatagramLaw(e: Engine, d: Datagram)
    requires d.dst != 0 && d.dst in e.byStream && e.byStream[d.dst] in e.peers
    ensures var id := e.byStream[d.dst]; var p := e.peers[id];
      Step(e, DoReceive(d)) ==
        if d.sender && d.lane != Control && !p.ended && p.state == Connecting && !p.initiator && p.acceptSent
        then Opened(e, id) else e
  {
    var id := e.byStream[d.dst];
    hide Opened, SetConnected;
    Connects(e, id);
  }

  /** Whatever else arrives without the ID of a link changes nothing. */
  lemma StrayDatagram(e: Engine, d: Datagram)
    requires if d.dst == 0 then d.hello.None? else d.dst !in e.byStream
    ensures Step(e, DoReceive(d)) == e
  {
  }

  /** Nothing is left of the session. */
  function Removed(e: Engine, id: PeerId): Engine {
    if id !in e.peers then e
    else e.(peers := e.peers - {id}, byStream := e.byStream - {e.peers[id].stream}, boxes := e.boxes - {id},
            sched := S.Remove(e.sched, id))
  }

  /** A new session, with a link and a record of its own. */
  function Created(e: Engine, id: PeerId, stream: nat, state: SessionState, initiator: bool, accepted: bool, announced: bool): Engine {
    e.(peers := e.peers[id := Peer(stream, state, initiator, accepted, false, announced, false, false, {}, e.records + 1)],
       byStream := e.byStream[stream := id], records := e.records + 1)
  }

  /** The application asks for a session: it accepts one that asked it, or a new one is begun, or it is told why not. */
  lemma ConnectLaw(e: Engine, id: PeerId, known: bool, bound: bool, stream: nat)
    ensures Step(e, DoConnect(id, known, bound, stream)) ==
      if e.shutdown then e
      else if id in e.peers && !(e.peers[id].state == Closing && e.peers[id].closeSent) then
        if e.peers[id].state == AwaitingDecision
        then e.(peers := e.peers[id := e.peers[id].(state := Connecting, acceptSent := true)]) else e
      else
        var gone := Removed(e, id);
        if known && bound && |gone.peers| < 256 then Created(gone, id, stream, Connecting, true, false, true)
        else gone.(events := gone.events + [Disconnected(id, 0)])
  {
  }

  /** The peer joins the ring of every lane it offers something on and is not waiting in already, behind the others. */
  ghost predicate JoinsRings(e: Engine, id: PeerId, offers: set<Lane>, e': Engine)
    requires id in e.peers
  {
    && id in e'.peers && e'.peers[id] == e.peers[id].(scheduled := e.peers[id].scheduled + offers)
    && (forall k :: k != id ==> (k in e'.peers <==> k in e.peers) && (k in e.peers ==> e'.peers[k] == e.peers[k]))
    && (forall lane :: S.RingOf(e'.sched, lane) ==
          if lane in offers && lane !in e.peers[id].scheduled
          then S.RingOf(e.sched, lane).(peers := S.RingOf(e.sched, lane).peers + [id]) else S.RingOf(e.sched, lane))
    && e' == e.(peers := e'.peers, sched := e.sched.(rings := e'.sched.rings))
  }

  lemma LaneJoins(e: Engine, id: PeerId, lane: Lane, offers: set<Lane>)
    requires id in e.peers
    ensures JoinsRings(e, id, offers * {lane}, ScheduleLane(e, id, lane, offers))
  {
    var p := e.peers[id];
    if lane in p.scheduled || lane !in offers {
      assert p.scheduled + offers * {lane} == p.scheduled;
    } else {
      assert offers * {lane} == {lane};
    }
  }

  lemma JoinsMore(e: Engine, id: PeerId, a: set<Lane>, e1: Engine, b: set<Lane>, e2: Engine)
    requires id in e.peers && JoinsRings(e, id, a, e1) && JoinsRings(e1, id, b, e2) && a !! b
    ensures JoinsRings(e, id, a + b, e2)
  {
    var p := e.peers[id];
    assert p.scheduled + a + b == p.scheduled + (a + b);
    forall lane
      ensures S.RingOf(e2.sched, lane) ==
        if lane in a + b && lane !in p.scheduled
        then S.RingOf(e.sched, lane).(peers := S.RingOf(e.sched, lane).peers + [id]) else S.RingOf(e.sched, lane)
    {
    }
  }

  lemma ScheduleLaw(e: Engine, id: PeerId, offers: set<Lane>)
    requires id in e.peers && !e.peers[id].ended
    ensures JoinsRings(e, id, offers, Step(e, DoSchedule(id, offers)))
  {
    hide ScheduleLane, JoinsRings;
    var e1 := ScheduleLane(e, id, Control, offers);
    var e2 := ScheduleLane(e1, id, Media, offers);
    var e3 := ScheduleLane(e2, id, Reliable, offers);
    var e4 := ScheduleLane(e3, id, Bulk, offers);
    var a, b, c, d := offers * {Control}, offers * {Media}, offers * {Reliable}, offers * {Bulk};
    LaneJoins(e, id, Control, offers);
    LaneJoins(e1, id, Media, offers);
    LaneJoins(e2, id, Reliable, offers);
    LaneJoins(e3, id, Bulk, offers);
    JoinsMore(e, id, a, e1, b, e2);
    JoinsMore(e, id, a + b, e2, c, e3);
    JoinsMore(e, id, a + b + c, e3, d, e4);
    forall lane
      ensures lane in offers <==> lane in a + b + c + d
    {
      assert lane == Control || lane == Media || lane == Reliable || lane == Bulk;
    }
    assert offers == a + b + c + d;
  }

  /** The record a Hello takes the place of: its outcome is told, unless the application asked for this very session. */
  function Replaced(e: Engine, from: PeerId, asked: bool): Engine {
    if from in e.peers && !asked then Removed(e, from).(events := e.events + OutcomeOf(from, e.peers[from])) else Removed(e, from)
  }

  lemma DisplacedIs(e: Engine, from: PeerId)
    ensures Displaced(e, from) == Replaced(e, from, Crosses(e, from)) && Displaced(e, from).autoAccept == e.autoAccept
  {
    assert e.events + [] == e.events;
  }

  lemma AdmittedIs(e: Engine, h: Hello, asked: bool)
    ensures Admitted(e, h, asked) ==
      if asked || e.autoAccept then Created(e, h.from, h.stream, Connecting, false, true, asked)
      else Created(e, h.from, h.stream, AwaitingDecision, false, false, true).(events := e.events + [ConnectionRequest(h.from)])
  {
  }

  /** A Hello that asks for a session. Of two that cross, the one of the higher ID is answered. */
  lemma HelloLaw(e: Engine, h: Hello)
    requires h.served.None? && !e.shutdown && h.accepted && h.from != e.id
    ensures var asked := h.from in e.peers && e.peers[h.from].state == Connecting && e.peers[h.from].initiator;
      var gone, auto := Replaced(e, h.from, asked), asked || e.autoAccept;
      OnHello(e, h) ==
        if asked && h.from < e.id then (e, None)
        else if |gone.peers| >= 256 || |set id | id in gone.peers && gone.peers[id].state != Established| >= 64 then (gone, None)
        else if auto then (Created(gone, h.from, h.stream, Connecting, false, true, asked), Some(h.from))
        else (Created(gone, h.from, h.stream, AwaitingDecision, false, false, true).(
                events := gone.events + [ConnectionRequest(h.from)]), Some(h.from))
  {
    DisplacedIs(e, h.from);
    hide Displaced, Replaced, Admitted, Created;
    AdmittedIs(Replaced(e, h.from, Crosses(e, h.from)), h, Crosses(e, h.from));
    var gone := Replaced(e, h.from, Crosses(e, h.from));
    assert PendingOf(gone.peers) == set id | id in gone.peers && gone.peers[id].state != Established;
  }

  /** One that was served before belongs to its session; one that may not be served to none. */
  lemma OldHello(e: Engine, h: Hello)
    ensures h.served.Some? ==> OnHello(e, h) == (e, h.served)
    ensures h.served.None? && (e.shutdown || !h.accepted || h.from == e.id) ==> OnHello(e, h) == (e, None)
  {
  }

  // --- The end of all sessions -----------------------------------------------------------------------------

  /** Nothing is owed anymore, and goodbye was said or is not to be said. */
  predicate Finished(p: Peer) { (p.announced ==> p.reported) && (p.ended || p.closeSent) }

  /** Of the sessions, only the one changed. */
  ghost predicate Touches(e: Engine, e': Engine, id: PeerId) {
    && e'.peers.Keys == e.peers.Keys && e'.shutdown == e.shutdown
    && forall k :: k in e.peers && k != id ==> e'.peers[k] == e.peers[k]
  }

  lemma ReportTouches(e: Engine, id: PeerId)
    requires id in e.peers
    ensures var e' := Report(e, id);
      && Touches(e, e', id) && e'.peers[id] == e.peers[id].(reported := e.peers[id].reported || e.peers[id].announced)
      && Report(e', id) == e'
  {
  }

  /** A goodbye or the end, of a session that owes nothing. */
  lemma CloseFinishes(e: Engine, id: PeerId, heard: bool)
    requires id in e.peers && (e.peers[id].announced ==> e.peers[id].reported)
    ensures var e' := SendClose(e, id, heard); Touches(e, e', id) && Finished(e'.peers[id])
    ensures var e' := SayGoodbye(e, id); Touches(e, e', id) && Finished(e'.peers[id])
  {
  }

  lemma OneFinishes(e: Engine, id: PeerId, heard: bool)
    requires id in e.peers
    ensures var e' := ShutDownOne(e, id, heard); Touches(e, e', id) && Finished(e'.peers[id])
  {
    hide Report, SendClose, SayGoodbye;
    ReportTouches(e, id);
    CloseFinishes(Report(e, id), id, heard);
  }

  lemma {:induction false} EachFinishes(e: Engine, ids: seq<PeerId>, heard: set<PeerId>)
    ensures var e' := ShutDownEach(e, ids, heard);
      && e'.peers.Keys == e.peers.Keys && e'.shutdown == e.shutdown
      && forall id :: id in e.peers && (id in ids || Finished(e.peers[id])) ==> Finished(e'.peers[id])
    decreases |ids|
  {
    hide ShutDownOne, Finished;
    if ids != [] {
      var e1 := if ids[0] in e.peers then ShutDownOne(e, ids[0], ids[0] in heard) else e;
      if ids[0] in e.peers { OneFinishes(e, ids[0], ids[0] in heard); }
      EachFinishes(e1, ids[1..], heard);
    }
  }

  /** A shutdown finishes every session, and no other one is begun. */
  lemma ShutdownLaw(e: Engine, ids: seq<PeerId>, heard: set<PeerId>)
    requires !e.shutdown && Lists(ids, e.peers)
    ensures var e' := Step(e, DoShutdown(ids, heard));
      e'.shutdown && e'.peers.Keys == e.peers.Keys && forall id :: id in e'.peers ==> Finished(e'.peers[id])
  {
    hide ShutDownEach, Finished;
    EachFinishes(e.(shutdown := true), ids, heard);
  }

  lemma {:induction false} EachTold(e: Engine, ids: seq<PeerId>, id: PeerId)
    requires id in e.peers && (id in ids || e.peers[id].reported || !e.peers[id].announced)
    ensures e.events <= ReportEach(e, ids).events
    ensures forall event :: event in OutcomeOf(id, e.peers[id]) ==> event in ReportEach(e, ids).events
    decreases |ids|
  {
    if ids != [] {
      var e1 := if ids[0] in e.peers then Report(e, ids[0]) else e;
      EachTold(e1, ids[1..], id);
      if ids[0] == id {
        assert forall event :: event in OutcomeOf(id, e.peers[id]) ==> event in e1.events;
      } else {
        assert e1.peers[id] == e.peers[id];
      }
    }
  }

  /** When the adapter is gone nothing is left of the sessions, and every outcome that was owed is told. */
  lemma EndAllLaw(e: Engine, ids: seq<PeerId>)
    requires Lists(ids, e.peers)
    ensures var e' := Step(e, DoEndAll(ids));
      && e'.peers == map[] && e'.byStream == map[] && e'.boxes == {} && e'.sched.rings == map[] && e'.ended == []
      && forall id, event :: id in e.peers && event in OutcomeOf(id, e.peers[id]) ==> event in e'.events
  {
    forall id, event | id in e.peers && event in OutcomeOf(id, e.peers[id])
      ensures event in Step(e, DoEndAll(ids)).events
    {
      EachTold(e, ids, id);
    }
  }

  /** A send run of the scheduler; a peer that had nothing when its turn came waits in that ring no longer. */
  lemma SendLaw(e: Engine, answers: seq<S.Answer>)
    ensures var run, e' := S.Run(e.sched, answers), Step(e, DoSend(answers));
      && e' == e.(sched := run.s, peers := e'.peers) && e'.peers.Keys == e.peers.Keys
      && forall id :: id in e.peers ==>
           && e'.peers[id] == e.peers[id].(scheduled := e'.peers[id].scheduled)
           && forall lane :: lane in e'.peers[id].scheduled <==>
                lane in e.peers[id].scheduled && S.Turn(lane, id, S.Empty) !in run.log
  {
  }
}
