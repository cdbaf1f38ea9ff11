/**
 * The sessions of an engine and what every one of its actions makes of them. What a link or the discovery says at the
 * time is a parameter of the action.
 */
module EngineModel {
  import opened Transport
  import S = SendScheduler

  const MAX_PEERS := 256
  const MAX_PENDING := 64

  datatype SessionState =
    | Connecting // an opening message was sent and not answered
    | AwaitingDecision // up to the application
    | Established
    | Closing // emptying its lanes, or saying goodbye

  datatype Peer = Peer(
    stream: nat, // of the link on this side
    state: SessionState,
    initiator: bool,
    acceptSent: bool,
    closeSent: bool, // goodbye said
    announced: bool, // an outcome is owed
    reported: bool, // and paid
    ended: bool, // left to the next sweep
    scheduled: set<Lane>, // whose rings it is in
    record: nat) // counts the session records there ever were

  /** What the application is told; a Disconnected carries the record it is the outcome of, 0 for none. */
  datatype Event =
    | ConnectionRequest(peer: PeerId)
    | Connected(peer: PeerId)
    | Disconnected(peer: PeerId, record: nat)
    | Message(peer: PeerId, lane: Lane)

  datatype Engine = Engine(
    id: PeerId,
    autoAccept: bool,
    peers: map<PeerId, Peer>,
    byStream: map<nat, PeerId>, // the inverse of Peer.stream
    sched: S.Scheduler,
    boxes: set<PeerId>, // the peers whose mailbox is open
    ended: seq<PeerId>,
    shutdown: bool,
    records: nat,
    events: seq<Event>)

  function NewEngine(id: PeerId, autoAccept: bool, rate: nat): Engine {
    Engine(id, autoAccept, map[], map[], S.NewScheduler(rate), {}, [], false, 0, [])
  }

  function WithPeer(e: Engine, id: PeerId, p: Peer): Engine { e.(peers := e.peers[id := p]) }

  function Emit(e: Engine, event: Event): Engine { e.(events := e.events + [event]) }

  predicate TransfersData(p: Peer) { p.state == Established || (p.state == Closing && !p.closeSent) }

  // --- Steps of a session -----------------------------------------------------------------

  function Report(e: Engine, id: PeerId): Engine
    requires id in e.peers
  {
    var p := e.peers[id];
    if !p.announced || p.reported then e
    else Emit(WithPeer(e, id, p.(reported := true)), Disconnected(id, p.record))
  }

  function End(e: Engine, id: PeerId): Engine
    requires id in e.peers
  {
    if e.peers[id].ended then e
    else WithPeer(e, id, e.peers[id].(ended := true)).(boxes := e.boxes - {id}, ended := e.ended + [id])
  }

  function SetConnected(e: Engine, id: PeerId): Engine
    requires id in e.peers
  {
    Emit(WithPeer(e, id, e.peers[id].(state := Established, announced := true)).(boxes := e.boxes + {id}), Connected(id))
  }

  function SendAccept(e: Engine, id: PeerId): Engine
    requires id in e.peers
  {
    WithPeer(e, id, e.peers[id].(state := Connecting, acceptSent := true))
  }

  function SayGoodbye(e: Engine, id: PeerId): Engine
    requires id in e.peers
  {
    WithPeer(e, id, e.peers[id].(state := Closing, closeSent := true)).(boxes := e.boxes - {id})
  }

  function SendDecline(e: Engine, id: PeerId): Engine
    requires id in e.peers
  {
    SayGoodbye(Report(e, id), id)
  }

  /** heard: something came from the remote before; only then there is a point in a goodbye. */
  function SendClose(e: Engine, id: PeerId, heard: bool): Engine
    requires id in e.peers
  {
    if heard then SayGoodbye(e, id) else End(e.(boxes := e.boxes - {id}), id)
  }

  function Erase(e: Engine, id: PeerId): Engine {
    if id !in e.peers then e
    else e.(peers := e.peers - {id}, byStream := e.byStream - {e.peers[id].stream}, sched := S.Remove(e.sched, id),
            boxes := e.boxes - {id})
  }

  /** stream: drawn until no other link has it. */
  function AddPeer(e: Engine, id: PeerId, stream: nat, initiator: bool, announced: bool): Engine {
    var p := Peer(stream, Connecting, initiator, false, false, announced, false, false, {}, e.records + 1);
    WithPeer(e, id, p).(byStream := e.byStream[stream := id], records := e.records + 1)
  }

  // --- Commands ----------------------------------------------------------------------------

  /** Whether a connect makes a new record: goodbye was said to the old one, if any. */
  predicate Startable(e: Engine, id: PeerId) {
    id !in e.peers || (e.peers[id].state == Closing && e.peers[id].closeSent)
  }

  function StartSession(e: Engine, id: PeerId, known: bool, bound: bool, stream: nat): Engine {
    if e.shutdown then e
    else if !Startable(e, id) then
      if e.peers[id].state == AwaitingDecision then SendAccept(e, id) else e
    else
      var e1 := Erase(e, id);
      if !known || !bound || |e1.peers| >= MAX_PEERS then Emit(e1, Disconnected(id, 0))
      else AddPeer(e1, id, stream, true, true)
  }

  function EndSession(e: Engine, id: PeerId, heard: bool): Engine
    requires id in e.peers
  {
    match e.peers[id].state
    case Established => WithPeer(e, id, e.peers[id].(state := Closing))
    case AwaitingDecision => SendDecline(e, id)
    case Connecting => SendClose(Report(e, id), id, heard)
    case Closing => e
  }

  function ShutDownOne(e: Engine, id: PeerId, heard: bool): Engine
    requires id in e.peers
  {
    var e1 := Report(e, id);
    if e.peers[id].state == AwaitingDecision then SendDecline(e1, id)
    else if !e.peers[id].closeSent then SendClose(e1, id, heard)
    else e1
  }

  /** ids: the peers in the order of the map; heard: those that answered before. */
  function ShutDownEach(e: Engine, ids: seq<PeerId>, heard: set<PeerId>): Engine
    decreases |ids|
  {
    if ids == [] then e
    else ShutDownEach(if ids[0] in e.peers then ShutDownOne(e, ids[0], ids[0] in heard) else e, ids[1..], heard)
  }

  function BeginShutdown(e: Engine, ids: seq<PeerId>, heard: set<PeerId>): Engine {
    if e.shutdown then e else ShutDownEach(e.(shutdown := true), ids, heard)
  }

  function ReportEach(e: Engine, ids: seq<PeerId>): Engine
    decreases |ids|
  {
    if ids == [] then e else ReportEach(if ids[0] in e.peers then Report(e, ids[0]) else e, ids[1..])
  }

  /** The adapter changed or broke. */
  function EndAllSessions(e: Engine, ids: seq<PeerId>): Engine {
    ReportEach(e, ids).(peers := map[], byStream := map[], sched := e.sched.(rings := map[]), boxes := {}, ended := [])
  }

  // --- Receiving ---------------------------------------------------------------------------

  /** A Hello that was checked: who asks, the record whose link it already belongs to, and the ID of a new link. */
  datatype Hello = Hello(from: PeerId, served: Option<PeerId>, accepted: bool, stream: nat)

  /** Both asked at once, and this side is the one that answers. */
  predicate Crosses(e: Engine, from: PeerId) {
    from in e.peers && e.peers[from].state == Connecting && e.peers[from].initiator
  }

  function PendingOf(peers: map<PeerId, Peer>): set<PeerId> { set id | id in peers && peers[id].state != Established }

  predicate AtLimit(e: Engine) { |e.peers| >= MAX_PEERS || |PendingOf(e.peers)| >= MAX_PENDING }

  /** The record the Hello replaces is gone: its application is told, unless it asked for this session itself. */
  function Displaced(e: Engine, from: PeerId): Engine {
    if from !in e.peers then e else Erase(if Crosses(e, from) then e else Report(e, from), from)
  }

  /** The application is asked, unless it asked itself or accepts everyone. */
  function Admitted(e: Engine, h: Hello, crossing: bool): Engine {
    if crossing || e.autoAccept then SendAccept(AddPeer(e, h.from, h.stream, false, crossing), h.from)
    else
      var e1 := AddPeer(e, h.from, h.stream, false, true);
      Emit(WithPeer(e1, h.from, e1.peers[h.from].(state := AwaitingDecision)), ConnectionRequest(h.from))
  }

  function OnHello(e: Engine, h: Hello): (Engine, Option<PeerId>) {
    if h.served.Some? then (e, h.served)
    else if e.shutdown || !h.accepted || h.from == e.id then (e, None)
    else if Crosses(e, h.from) && e.id > h.from then (e, None)
    else
      var crossing, e1 := Crosses(e, h.from), Displaced(e, h.from);
      if AtLimit(e1) then (e1, None)
      else (Admitted(e1, h, crossing), Some(h.from))
  }

  /** A datagram: to the link of a stream, or a Hello that knows none yet; sender: it comes from the address of the peer. */
  datatype Datagram = Datagram(dst: nat, hello: Option<Hello>, lane: Lane, sender: bool)

  function PeerOf(e: Engine, d: Datagram): (Engine, Option<PeerId>) {
    if d.dst == 0 then if d.hello.None? then (e, None) else OnHello(e, d.hello.value)
    else (e, if d.dst in e.byStream then Some(e.byStream[d.dst]) else None)
  }

  function HandleDatagram(e: Engine, d: Datagram): Engine {
    var (e1, found) := PeerOf(e, d);
    if found.None? || found.value !in e1.peers || e1.peers[found.value].ended || !d.sender then e1
    else
      var p := e1.peers[found.value];
      // Data from a remote that was accepted shows that it knows
      if d.lane != Control && !TransfersData(p) && p.state == Connecting && !p.initiator && p.acceptSent
      then SetConnected(e1, found.value) else e1
  }

  // --- What a link delivered -----------------------------------------------------------------

  datatype Delivered = GotHello | GotAccept | GotDecline | GotClose | GotUnknown | GotData(lane: Lane)

  function OnControl(e: Engine, id: PeerId, m: Delivered): Engine
    requires id in e.peers
  {
    var p := e.peers[id];
    if p.ended then e
    else
      match m
      case GotAccept => if p.state == Connecting && p.initiator then SetConnected(e, id) else e
      case GotDecline => if p.state == Connecting && p.initiator then End(Report(e, id), id) else e
      case GotClose => End(Report(e, id), id)
      case _ => e
  }

  function Deliver(e: Engine, id: PeerId, m: Delivered): Engine
    requires id in e.peers
  {
    if !m.GotData? then OnControl(e, id, m)
    else
      var p := e.peers[id];
      if p.ended || p.reported || !TransfersData(p) then e else Emit(e, Message(id, m.lane))
  }

  function DeliverAll(e: Engine, id: PeerId, messages: seq<Delivered>): (r: Engine)
    requires id in e.peers
    ensures id in r.peers
    decreases |messages|
  {
    if messages == [] then e else DeliverAll(Deliver(e, id, messages[0]), id, messages[1..])
  }

  /** What the link and the clock say when the session is looked at. */
  datatype Look = Look(
    failed: bool,
    delivered: seq<Delivered>,
    settled: bool, // nothing of Control waits or is unacknowledged
    expired: bool, // the current state waited long enough
    drained: bool, // nothing of Reliable and Bulk is left, in the link or in the mailbox
    heard: bool)

  function Progress(e: Engine, id: PeerId, look: Look): Engine
    requires id in e.peers
  {
    var p := e.peers[id];
    match p.state
    case Connecting => if !p.initiator && p.acceptSent && look.settled then SetConnected(e, id) else e
    case AwaitingDecision => if look.expired then SendDecline(e, id) else e
    case Established => e
    case Closing =>
      if p.closeSent then if look.settled || look.expired then End(e, id) else e
      else if look.expired || look.drained then SendClose(Report(e, id), id, look.heard)
      else e
  }

  function Advance(e: Engine, id: PeerId, look: Look): Engine
    requires id in e.peers
  {
    if e.peers[id].ended then e
    else if look.failed then End(Report(e, id), id)
    else
      var e1 := DeliverAll(e, id, look.delivered);
      if e1.peers[id].ended then e1 else Progress(e1, id, look)
  }

  // --- Sending -----------------------------------------------------------------------------

  /** Joins the ring of the lane, if it offers something and is not in it. */
  function ScheduleLane(e: Engine, id: PeerId, lane: Lane, offers: set<Lane>): (r: Engine)
    requires id in e.peers
    ensures id in r.peers
  {
    var p := e.peers[id];
    if lane in p.scheduled || lane !in offers then e
    else WithPeer(e, id, p.(scheduled := p.scheduled + {lane})).(sched := S.Add(e.sched, lane, id))
  }

  function Schedule(e: Engine, id: PeerId, offers: set<Lane>): Engine
    requires id in e.peers
  {
    ScheduleLane(ScheduleLane(ScheduleLane(ScheduleLane(e, id, Control, offers), id, Media, offers), id, Reliable, offers),
                 id, Bulk, offers)
  }

  /** A peer that had nothing in a lane when it was its turn waits there no longer. */
  function Unscheduled(peers: map<PeerId, Peer>, log: seq<S.Turn>): map<PeerId, Peer> {
    map id | id in peers ::
      peers[id].(scheduled := set lane | lane in peers[id].scheduled && S.Turn(lane, id, S.Empty) !in log)
  }

  function SendData(e: Engine, answers: seq<S.Answer>): Engine {
    var run := S.Run(e.sched, answers);
    e.(sched := run.s, peers := Unscheduled(e.peers, run.log))
  }

  // --- The end of a step -----------------------------------------------------------------------

  function EraseEnded(e: Engine, ids: seq<PeerId>): Engine
    decreases |ids|
  {
    if ids == [] then e
    else EraseEnded(if ids[0] in e.peers && e.peers[ids[0]].ended then Erase(e, ids[0]) else e, ids[1..])
  }

  function Sweep(e: Engine): Engine { EraseEnded(e.(ended := []), e.ended) }

  // --- Actions -------------------------------------------------------------------------------

  datatype Action =
    | DoConnect(peer: PeerId, known: bool, bound: bool, stream: nat)
    | DoAccept(peer: PeerId)
    | DoDecline(peer: PeerId)
    | DoDisconnect(peer: PeerId, isHeard: bool)
    | DoShutdown(ids: seq<PeerId>, heard: set<PeerId>)
    | DoEndAll(ids: seq<PeerId>)
    | DoReceive(datagram: Datagram)
    | DoAdvance(peer: PeerId, look: Look)
    | DoSchedule(peer: PeerId, offers: set<Lane>)
    | DoSend(answers: seq<S.Answer>)
    | DoSweep

  function Step(e: Engine, a: Action): Engine {
    match a
    case DoConnect(id, known, bound, stream) => StartSession(e, id, known, bound, stream)
    case DoAccept(id) => if id in e.peers && e.peers[id].state == AwaitingDecision then SendAccept(e, id) else e
    case DoDecline(id) => if id in e.peers && e.peers[id].state == AwaitingDecision then SendDecline(e, id) else e
    case DoDisconnect(id, heard) => if id in e.peers then EndSession(e, id, heard) else e
    case DoShutdown(ids, heard) => BeginShutdown(e, ids, heard)
    case DoEndAll(ids) => EndAllSessions(e, ids)
    case DoReceive(d) => HandleDatagram(e, d)
    case DoAdvance(id, look) => if id in e.peers then Advance(e, id, look) else e
    case DoSchedule(id, offers) => if id in e.peers && !e.peers[id].ended then Schedule(e, id, offers) else e
    case DoSend(answers) => SendData(e, answers)
    case DoSweep => Sweep(e)
  }

  predicate Lists(ids: seq<PeerId>, peers: map<PeerId, Peer>) { forall id :: id in peers ==> id in ids }

  predicate FreshStream(e: Engine, stream: nat) { stream != 0 && stream !in e.byStream }

  /** Loops over all peers reach each of them, and a new link gets a stream ID no other one has. */
  predicate Allowed(e: Engine, a: Action) {
    match a
    case DoConnect(id, _, _, stream) => FreshStream(Erase(e, id), stream)
    case DoShutdown(ids, _) => Lists(ids, e.peers)
    case DoEndAll(ids) => Lists(ids, e.peers)
    case DoReceive(d) => d.hello.Some? ==> FreshStream(Displaced(e, d.hello.value.from), d.hello.value.stream)
    case _ => true
  }

  lemma KeysAdded<K, V>(m: map<K, V>, k: K, v: V)
    ensures m[k := v].Keys == m.Keys + {k}
    ensures k !in m ==> |m[k := v]| == |m| + 1
  {
    assert m[k := v].Keys == m.Keys + {k};
    assert |m[k := v]| == |m[k := v].Keys| && |m| == |m.Keys|;
  }
}
