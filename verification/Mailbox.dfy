/** A monitor: each action below is one critical section. What holds after all of them, in any order. */
module Mailbox {
  import opened Transport
  import opened Fragments

  const MEDIA_QUEUE := 32

  datatype Command =
    | Connect | Accept | Decline | Disconnect | Announce | StopAnnouncing | CheckInterface | ResumeReceiving | Shutdown

  /** How far a session got, as the engine published it. */
  datatype Session = Requested | Pending | Connected

  datatype Posted = Posted(command: Command, peer: PeerId)

  datatype PushResult = Queued | Full | TooLarge | Closed | Stopped

  datatype LaneQueue = LaneQueue(queue: seq<Message>, bytes: int)

  const EMPTY := LaneQueue([], 0)

  /** A session that takes messages. */
  datatype Box = Box(
    lanes: map<Lane, LaneQueue>,
    accepted: nat, // the length of the log, without Media
    done: nat, // how far a flush may count
    epoch: nat, // tells this session from earlier ones with the peer
    mediaDropped: nat,
    listed: bool,
    isSealed: bool)

  datatype State = State(
    queueBytes: nat,
    boxes: map<PeerId, Box>,
    commands: seq<Posted>,
    ready: seq<PeerId>, // each listed once, the earliest in front
    epochs: nat,
    signalled: bool, // work was announced and not fetched
    running: bool,
    sessions: map<PeerId, Session>)

  const NEW_MAILBOX := State(64 * 1024 * 1024, map[], [], [], 0, false, true, map[])

  function QueueOf(b: Box, lane: Lane): LaneQueue { if lane in b.lanes then b.lanes[lane] else EMPTY }

  function WithQueue(b: Box, lane: Lane, q: LaneQueue): Box { b.(lanes := b.lanes[lane := q]) }

  function WithBox(m: State, id: PeerId, b: Box): State { m.(boxes := m.boxes[id := b]) }

  predicate TooBig(lane: Lane, size: nat) { size > MaxMessageSize(lane) }

  /** An empty lane takes anything; otherwise the bytes count. */
  predicate HasRoom(m: State, b: Box, lane: Lane, size: nat) {
    QueueOf(b, lane).queue == [] || QueueOf(b, lane).bytes + size <= m.queueBytes
  }

  /** The oldest Media message makes room. */
  function RoomMade(q: LaneQueue): LaneQueue {
    if |q.queue| >= MEDIA_QUEUE then LaneQueue(q.queue[1..], q.bytes - |q.queue[0].body|) else q
  }

  function Pushed(q: LaneQueue, mail: Message): LaneQueue { LaneQueue(q.queue + [mail], q.bytes + |mail.body|) }

  function Stored(b: Box, lane: Lane, mail: Message): Box {
    var q := QueueOf(b, lane);
    if lane == Media then
      WithQueue(b, lane, Pushed(RoomMade(q), mail)).(
        mediaDropped := b.mediaDropped + (if |q.queue| >= MEDIA_QUEUE then 1 else 0), listed := true)
    else WithQueue(b, lane, Pushed(q, mail)).(accepted := b.accepted + 1, listed := true)
  }

  /** The new state, and true if this is what wakes the engine. */
  function Enqueue(m: State, id: PeerId, lane: Lane, mail: Message): (State, bool)
    requires id in m.boxes
  {
    var b := m.boxes[id];
    (WithBox(m, id, Stored(b, lane, mail)).(ready := if b.listed then m.ready else m.ready + [id], signalled := true),
     !m.signalled)
  }

  // --- Any thread ---------------------------------------------------------------------------

  function Post(m: State, command: Command, peer: PeerId): (State, bool) {
    (m.(commands := m.commands + [Posted(command, peer)], signalled := true), !m.signalled)
  }

  /** What a push that does not wait answers, before anything is queued. */
  function Refusal(m: State, id: PeerId, lane: Lane, size: nat): PushResult {
    if TooBig(lane, size) then TooLarge
    else if !m.running then Stopped
    else if id !in m.boxes || m.boxes[id].isSealed then Closed
    else if lane != Media && !HasRoom(m, m.boxes[id], lane, size) then Full
    else Queued
  }

  /** A push that waited: it looks again, and the session must still be the one it waited for. */
  function LateRefusal(m: State, id: PeerId, lane: Lane, size: nat, epoch: nat): PushResult {
    if id !in m.boxes || m.boxes[id].epoch != epoch || m.boxes[id].isSealed then Closed
    else if !m.running then Stopped
    else if !HasRoom(m, m.boxes[id], lane, size) then Full
    else Queued
  }

  predicate TakesAll(m: State, id: PeerId, lane: Lane, size: nat) {
    id in m.boxes && !m.boxes[id].isSealed && (lane != Media ==> HasRoom(m, m.boxes[id], lane, size))
  }

  /** How many of the peers, visited in the order of ids, take it. */
  function Takers(m: State, ids: seq<PeerId>, lane: Lane, mail: Message): nat
    decreases |ids|
  {
    if ids == [] then 0
    else if !TakesAll(m, ids[0], lane, |mail.body|) then Takers(m, ids[1..], lane, mail)
    else 1 + Takers(Enqueue(m, ids[0], lane, mail).0, ids[1..], lane, mail)
  }

  function Seal(m: State, id: PeerId): State {
    if id !in m.boxes then m
    else WithBox(m, id, WithQueue(m.boxes[id], Media, EMPTY).(isSealed := true)).(sessions := m.sessions[id := Pending])
  }

  /** What a flush waits for: that everything accepted by then is done, in the session of then. */
  datatype Ticket = Ticket(peer: PeerId, epoch: nat, target: nat)

  function TicketFor(m: State, id: PeerId): Option<Ticket> {
    if id in m.boxes then Some(Ticket(id, m.boxes[id].epoch, m.boxes[id].accepted)) else None
  }

  predicate Flushed(m: State, t: Ticket) {
    t.peer !in m.boxes || m.boxes[t.peer].epoch != t.epoch || m.boxes[t.peer].done >= t.target
  }

  // --- I/O thread ---------------------------------------------------------------------------

  function Unlisted(boxes: map<PeerId, Box>, ids: seq<PeerId>): map<PeerId, Box> {
    map id | id in boxes :: if id in ids then boxes[id].(listed := false) else boxes[id]
  }

  function Drain(m: State): State {
    m.(commands := [], ready := [], signalled := false, boxes := Unlisted(m.boxes, m.ready))
  }

  function TakenBox(b: Box, lane: Lane): Box
    requires QueueOf(b, lane).queue != []
  {
    var q := QueueOf(b, lane);
    WithQueue(b, lane, LaneQueue(q.queue[1..], q.bytes - |q.queue[0].body|))
  }

  /** First in, first out. */
  function Take(m: State, id: PeerId, lane: Lane): (State, Option<Message>) {
    if id !in m.boxes || QueueOf(m.boxes[id], lane).queue == [] then (m, None)
    else (WithBox(m, id, TakenBox(m.boxes[id], lane)), Some(QueueOf(m.boxes[id], lane).queue[0]))
  }

  /** The engine saw the link idle: with both queues empty, all that was accepted is done. */
  function Settle(m: State, id: PeerId): (State, bool) {
    if id !in m.boxes then (m, true)
    else
      var b := m.boxes[id];
      if QueueOf(b, Reliable).queue != [] || QueueOf(b, Bulk).queue != [] then (m, false)
      else (WithBox(m, id, b.(done := b.accepted)), true)
  }

  function Open(m: State, id: PeerId): State {
    m.(boxes := m.boxes[id := Box(map[], 0, 0, m.epochs + 1, 0, false, false)], epochs := m.epochs + 1,
       sessions := m.sessions[id := Connected])
  }

  function Without(ids: seq<PeerId>, id: PeerId): (r: seq<PeerId>)
    ensures forall x :: x in r <==> x in ids && x != id
  {
    if ids == [] then [] else if ids[0] == id then Without(ids[1..], id) else [ids[0]] + Without(ids[1..], id)
  }

  function Close(m: State, id: PeerId): State {
    m.(boxes := m.boxes - {id}, sessions := m.sessions - {id}, ready := Without(m.ready, id))
  }

  // --- Histories -------------------------------------------------------------------------------

  /** An entry of the log, for lanes other than Media. */
  datatype Arrival = Arrival(lane: Lane, message: Message)

  /** What happened to the messages of one session: what was accepted, what its link took, and what the remote acknowledged. */
  datatype Log = Log(arrivals: seq<Arrival>, media: seq<Message>, taken: map<Lane, nat>, acked: map<Lane, nat>)

  const NO_LOG := Log([], [], map[], map[])

  function Count(counts: map<Lane, nat>, lane: Lane): nat { if lane in counts then counts[lane] else 0 }

  /** The mailbox with the logs of its sessions by epoch; rung says that the doorbell rang since the last drain. */
  datatype World = World(m: State, logs: map<nat, Log>, rung: bool)

  const START := World(NEW_MAILBOX, map[], false)

  datatype Action =
    | DoPost(command: Command, peer: PeerId)
    | DoPush(peer: PeerId, lane: Lane, mail: Message)
    | DoPushLate(peer: PeerId, lane: Lane, mail: Message, epoch: nat)
    | DoPushToAll(ids: seq<PeerId>, lane: Lane, mail: Message)
    | DoSeal(peer: PeerId)
    | DoDrain
    | DoTake(peer: PeerId, lane: Lane)
    | Acknowledged(peer: PeerId, lane: Lane, count: nat) // the link: that many of the messages it took are acknowledged
    | DoSettle(peer: PeerId)
    | DoOpen(peer: PeerId)
    | DoClose(peer: PeerId)
    | SetRunning(running: bool)
    | SetQueueBytes(bytes: nat)

  function LogOf(w: World, epoch: nat): Log { if epoch in w.logs then w.logs[epoch] else NO_LOG }

  function Noted(log: Log, lane: Lane, mail: Message): Log {
    if lane == Media then log.(media := log.media + [mail]) else log.(arrivals := log.arrivals + [Arrival(lane, mail)])
  }

  /** One message more in the mailbox of the peer. */
  function Accepted(w: World, id: PeerId, lane: Lane, mail: Message): World
    requires id in w.m.boxes
  {
    var epoch := w.m.boxes[id].epoch;
    var (m, ring) := Enqueue(w.m, id, lane, mail);
    World(m, w.logs[epoch := Noted(LogOf(w, epoch), lane, mail)], w.rung || ring)
  }

  function AcceptedByEach(w: World, ids: seq<PeerId>, lane: Lane, mail: Message): World
    decreases |ids|
  {
    if ids == [] then w
    else AcceptedByEach(
           if TakesAll(w.m, ids[0], lane, |mail.body|) then Accepted(w, ids[0], lane, mail) else w, ids[1..], lane, mail)
  }

  function TakenLog(log: Log, lane: Lane): Log { log.(taken := log.taken[lane := Count(log.taken, lane) + 1]) }

  function TookOne(w: World, id: PeerId, lane: Lane): World {
    var (m, mail) := Take(w.m, id, lane);
    if mail.None? then w
    else
      var epoch := w.m.boxes[id].epoch;
      var log := LogOf(w, epoch);
      World(m, w.logs[epoch := TakenLog(log, lane)], w.rung)
  }

  function Heard(w: World, id: PeerId, lane: Lane, count: nat): World {
    if id !in w.m.boxes then w
    else
      var epoch := w.m.boxes[id].epoch;
      var log := LogOf(w, epoch);
      w.(logs := w.logs[epoch := log.(acked := log.acked[lane := count])])
  }

  function Step(w: World, a: Action): World {
    match a
    case DoPost(command, peer) => var (m, ring) := Post(w.m, command, peer); w.(m := m, rung := w.rung || ring)
    case DoPush(id, lane, mail) => if Refusal(w.m, id, lane, |mail.body|) == Queued then Accepted(w, id, lane, mail) else w
    case DoPushLate(id, lane, mail, epoch) =>
      if LateRefusal(w.m, id, lane, |mail.body|, epoch) == Queued then Accepted(w, id, lane, mail) else w
    case DoPushToAll(ids, lane, mail) =>
      if TooBig(lane, |mail.body|) || !w.m.running then w else AcceptedByEach(w, ids, lane, mail)
    case DoSeal(id) => w.(m := Seal(w.m, id))
    case DoDrain => w.(m := Drain(w.m), rung := false)
    case DoTake(id, lane) => TookOne(w, id, lane)
    case Acknowledged(id, lane, count) => Heard(w, id, lane, count)
    case DoSettle(id) => w.(m := Settle(w.m, id).0)
    case DoOpen(id) => w.(m := Open(w.m, id), logs := w.logs[w.m.epochs + 1 := NO_LOG])
    case DoClose(id) => w.(m := Close(w.m, id))
    case SetRunning(running) => w.(m := w.m.(running := running))
    case SetQueueBytes(bytes) => w.(m := w.m.(queueBytes := bytes))
  }

  /** Everything the link of the session took from the lane was acknowledged. */
  predicate LinkIdle(log: Log, lane: Lane) { Count(log.acked, lane) == Count(log.taken, lane) }

  /** Acknowledged is only what was taken, and stays so; the mailbox is settled only while the link has nothing pending. */
  predicate Allowed(w: World, a: Action) {
    match a
    case Acknowledged(id, lane, count) =>
      id in w.m.boxes ==>
        var log := LogOf(w, w.m.boxes[id].epoch); Count(log.acked, lane) <= count <= Count(log.taken, lane)
    // Only what may wait for room, once its size was looked at
    case DoPushLate(_, lane, mail, _) => lane != Media && !TooBig(lane, |mail.body|)
    case DoSettle(id) =>
      id in w.m.boxes ==>
        var log := LogOf(w, w.m.boxes[id].epoch); LinkIdle(log, Reliable) && LinkIdle(log, Bulk)
    case _ => true
  }

  // --- What holds of one session ---------------------------------------------------------------

  /** The messages of one lane, in the order they were accepted. */
  function ForLane(arrivals: seq<Arrival>, lane: Lane): seq<Message> {
    if arrivals == [] then []
    else
      var last := arrivals[|arrivals| - 1];
      ForLane(arrivals[..|arrivals| - 1], lane) + (if last.lane == lane then [last.message] else [])
  }

  function Sum(queue: seq<Message>): nat {
    if queue == [] then 0 else Sum(queue[..|queue| - 1]) + |queue[|queue| - 1].body|
  }

  /** The sequence is the other one from some place on. */
  ghost predicate IsTail(s: seq<Message>, of: seq<Message>, from: nat) {
    from + |s| == |of| && forall i {:trigger s[i]} :: 0 <= i < |s| ==> s[i] == of[from + i]
  }

  /** First in, first out: what waits is what was accepted and not taken yet. */
  ghost predicate InOrder(b: Box, log: Log, lane: Lane) {
    var all, taken := ForLane(log.arrivals, lane), Count(log.taken, lane);
    IsTail(QueueOf(b, lane).queue, all, taken) && Count(log.acked, lane) <= taken
  }

  ghost predicate IsSuffix(s: seq<Message>, of: seq<Message>) { |s| <= |of| && IsTail(s, of, |of| - |s|) }

  /** The arrival was acknowledged: those of its lane up to it are among the acknowledged ones. */
  ghost predicate IsAcked(log: Log, i: nat)
    requires i < |log.arrivals|
  {
    |ForLane(log.arrivals[..i], log.arrivals[i].lane)| < Count(log.acked, log.arrivals[i].lane)
  }

  ghost predicate DoneIsAcked(b: Box, log: Log) {
    && b.done <= b.accepted == |log.arrivals|
    && forall i :: 0 <= i < b.done && (log.arrivals[i].lane == Reliable || log.arrivals[i].lane == Bulk) ==> IsAcked(log, i)
  }

  /** Media keeps its newest messages, in their order, and counts those that made room. */
  ghost predicate NewestMedia(b: Box, log: Log) {
    && IsSuffix(QueueOf(b, Media).queue, log.media) && |QueueOf(b, Media).queue| <= MEDIA_QUEUE
    && (!b.isSealed ==> b.mediaDropped + Count(log.taken, Media) + |QueueOf(b, Media).queue| == |log.media|)
  }

  ghost predicate BytesExact(b: Box) { forall lane :: QueueOf(b, lane).bytes == Sum(QueueOf(b, lane).queue) }

  ghost predicate BoxOk(b: Box, log: Log) {
    && InOrder(b, log, Control) && InOrder(b, log, Reliable) && InOrder(b, log, Bulk)
    && NewestMedia(b, log) && BytesExact(b) && DoneIsAcked(b, log)
  }

  lemma {:induction false} SumDrop(queue: seq<Message>)
    requires queue != []
    ensures Sum(queue[1..]) == Sum(queue) - |queue[0].body|
  {
    if |queue| > 1 {
      SumDrop(queue[..|queue| - 1]);
      assert queue[1..][..|queue| - 2] == queue[..|queue| - 1][1..];
    }
  }

  lemma SumPush(queue: seq<Message>, mail: Message)
    ensures Sum(queue + [mail]) == Sum(queue) + |mail.body|
  {
    assert (queue + [mail])[..|queue|] == queue;
  }

  lemma LaneMore(arrivals: seq<Arrival>, a: Arrival, lane: Lane)
    ensures ForLane(arrivals + [a], lane) == ForLane(arrivals, lane) + (if a.lane == lane then [a.message] else [])
  {
    assert (arrivals + [a])[..|arrivals|] == arrivals;
  }

  lemma PushedInOrder(b: Box, log: Log, lane: Lane, mail: Message, other: Lane)
    requires InOrder(b, log, other) && lane != Media && other != Media
    ensures InOrder(Stored(b, lane, mail), Noted(log, lane, mail), other)
  {
    LaneMore(log.arrivals, Arrival(lane, mail), other);
  }

  lemma PushedDone(b: Box, log: Log, lane: Lane, mail: Message)
    requires DoneIsAcked(b, log)
    ensures DoneIsAcked(Stored(b, lane, mail), Noted(log, lane, mail))
  {
    var log' := Noted(log, lane, mail);
    forall i | 0 <= i < b.done && (log'.arrivals[i].lane == Reliable || log'.arrivals[i].lane == Bulk)
      ensures IsAcked(log', i)
    {
      assert log'.arrivals[..i] == log.arrivals[..i] && IsAcked(log, i);
    }
  }

  lemma PushedBytes(b: Box, lane: Lane, mail: Message)
    requires BytesExact(b)
    ensures BytesExact(Stored(b, lane, mail))
  {
    var q, b' := QueueOf(b, lane), Stored(b, lane, mail);
    if lane == Media && |q.queue| >= MEDIA_QUEUE { SumDrop(q.queue); }
    SumPush(if lane == Media then RoomMade(q).queue else q.queue, mail);
    hide Sum;
    forall l ensures QueueOf(b', l).bytes == Sum(QueueOf(b', l).queue) {
      assert l != lane ==> QueueOf(b', l) == QueueOf(b, l);
    }
  }

  lemma SuffixDrop(s: seq<Message>, of: seq<Message>)
    requires IsSuffix(s, of) && s != []
    ensures IsSuffix(s[1..], of)
  {
  }

  lemma SuffixPush(s: seq<Message>, of: seq<Message>, mail: Message)
    requires IsSuffix(s, of)
    ensures IsSuffix(s + [mail], of + [mail])
  {
  }

  lemma PushedMedia(b: Box, log: Log, lane: Lane, mail: Message)
    requires NewestMedia(b, log)
    ensures NewestMedia(Stored(b, lane, mail), Noted(log, lane, mail))
  {
    hide IsSuffix;
    if lane == Media {
      var q := QueueOf(b, Media);
      if |q.queue| >= MEDIA_QUEUE { SuffixDrop(q.queue, log.media); }
      SuffixPush(RoomMade(q).queue, log.media, mail);
    }
  }

  lemma MediaInOrder(b: Box, log: Log, mail: Message, other: Lane)
    requires InOrder(b, log, other) && other != Media
    ensures InOrder(Stored(b, Media, mail), Noted(log, Media, mail), other)
  {
  }

  lemma StoredNames(b: Box, lane: Lane, mail: Message)
    ensures Stored(b, lane, mail).epoch == b.epoch && Stored(b, lane, mail).listed
  {
  }

  lemma StoredOk(b: Box, log: Log, lane: Lane, mail: Message)
    requires BoxOk(b, log)
    ensures BoxOk(Stored(b, lane, mail), Noted(log, lane, mail))
    ensures Stored(b, lane, mail).epoch == b.epoch && Stored(b, lane, mail).listed
  {
    StoredNames(b, lane, mail);
    hide InOrder, DoneIsAcked, BytesExact, NewestMedia, Stored, Noted;
    PushedDone(b, log, lane, mail);
    PushedBytes(b, lane, mail);
    PushedMedia(b, log, lane, mail);
    if lane == Media {
      MediaInOrder(b, log, mail, Control);
      MediaInOrder(b, log, mail, Reliable);
      MediaInOrder(b, log, mail, Bulk);
    } else {
      PushedInOrder(b, log, lane, mail, Control);
      PushedInOrder(b, log, lane, mail, Reliable);
      PushedInOrder(b, log, lane, mail, Bulk);
    }
  }

  /** The link is handed the messages of an acknowledged lane in the order they were accepted. */
  lemma TakenIsNext(b: Box, log: Log, lane: Lane)
    requires BoxOk(b, log) && lane != Media && QueueOf(b, lane).queue != []
    ensures Count(log.taken, lane) < |ForLane(log.arrivals, lane)|
    ensures QueueOf(b, lane).queue[0] == ForLane(log.arrivals, lane)[Count(log.taken, lane)]
  {
  }

  lemma TakenInOrder(b: Box, log: Log, lane: Lane, other: Lane)
    requires InOrder(b, log, other) && QueueOf(b, lane).queue != []
    ensures InOrder(TakenBox(b, lane), TakenLog(log, lane), other)
  {
    hide ForLane;
  }

  lemma TakenMedia(b: Box, log: Log, lane: Lane)
    requires NewestMedia(b, log) && QueueOf(b, lane).queue != []
    ensures NewestMedia(TakenBox(b, lane), TakenLog(log, lane))
  {
    hide IsSuffix;
    if lane == Media { SuffixDrop(QueueOf(b, Media).queue, log.media); }
  }

  lemma TakenBytes(b: Box, lane: Lane)
    requires BytesExact(b) && QueueOf(b, lane).queue != []
    ensures BytesExact(TakenBox(b, lane))
  {
    SumDrop(QueueOf(b, lane).queue);
    hide Sum;
    var b' := TakenBox(b, lane);
    forall l ensures QueueOf(b', l).bytes == Sum(QueueOf(b', l).queue) {
      assert l != lane ==> QueueOf(b', l) == QueueOf(b, l);
    }
  }

  /** More acknowledged does not undo what was. */
  lemma MoreAcked(b: Box, log: Log, b': Box, log': Log)
    requires DoneIsAcked(b, log) && b'.done == b.done && b'.accepted == b.accepted && log'.arrivals == log.arrivals
    requires forall lane :: Count(log.acked, lane) <= Count(log'.acked, lane)
    ensures DoneIsAcked(b', log')
  {
    forall i | 0 <= i < b.done && (log.arrivals[i].lane == Reliable || log.arrivals[i].lane == Bulk)
      ensures IsAcked(log', i)
    {
      assert IsAcked(log, i);
    }
  }

  lemma TakenBoxOk(b: Box, log: Log, lane: Lane)
    requires BoxOk(b, log) && QueueOf(b, lane).queue != []
    ensures BoxOk(TakenBox(b, lane), TakenLog(log, lane))
    ensures TakenBox(b, lane).epoch == b.epoch && TakenBox(b, lane).listed == b.listed
  {
    hide DoneIsAcked, BytesExact, InOrder, NewestMedia, Count;
    MoreAcked(b, log, TakenBox(b, lane), TakenLog(log, lane));
    TakenBytes(b, lane);
    TakenMedia(b, log, lane);
    TakenInOrder(b, log, lane, Control);
    TakenInOrder(b, log, lane, Reliable);
    TakenInOrder(b, log, lane, Bulk);
  }

  lemma HeardBoxOk(b: Box, log: Log, lane: Lane, count: nat)
    requires BoxOk(b, log) && Count(log.acked, lane) <= count <= Count(log.taken, lane)
    ensures BoxOk(b, log.(acked := log.acked[lane := count]))
  {
    MoreAcked(b, log, b, log.(acked := log.acked[lane := count]));
    hide DoneIsAcked, BytesExact, ForLane;
  }

  lemma {:induction false} LaneRank(arrivals: seq<Arrival>, i: nat)
    requires i < |arrivals|
    ensures |ForLane(arrivals[..i], arrivals[i].lane)| < |ForLane(arrivals, arrivals[i].lane)|
    decreases |arrivals|
  {
    if i + 1 < |arrivals| {
      LaneRank(arrivals[..|arrivals| - 1], i);
      assert arrivals[..|arrivals| - 1][..i] == arrivals[..i];
    }
  }

  /** Nothing waits in the queues, and the link has nothing pending: everything accepted so far is acknowledged. */
  lemma SettledBoxOk(b: Box, log: Log)
    requires BoxOk(b, log) && LinkIdle(log, Reliable) && LinkIdle(log, Bulk)
    requires QueueOf(b, Reliable).queue == [] && QueueOf(b, Bulk).queue == []
    ensures BoxOk(b.(done := b.accepted), log)
  {
    forall i | 0 <= i < |log.arrivals| && (log.arrivals[i].lane == Reliable || log.arrivals[i].lane == Bulk)
      ensures IsAcked(log, i)
    {
      LaneRank(log.arrivals, i);
      hide ForLane, Sum;
    }
    hide ForLane, Sum;
    var b' := b.(done := b.accepted);
    forall l ensures QueueOf(b', l).bytes == Sum(QueueOf(b', l).queue) {
      assert QueueOf(b', l) == QueueOf(b, l);
    }
  }

  lemma SealedBoxOk(b: Box, log: Log)
    requires BoxOk(b, log)
    ensures BoxOk(WithQueue(b, Media, EMPTY).(isSealed := true), log)
  {
    var b' := WithQueue(b, Media, EMPTY).(isSealed := true);
    hide ForLane, IsAcked;
    forall l ensures QueueOf(b', l).bytes == Sum(QueueOf(b', l).queue) {
      assert QueueOf(b, l).bytes == Sum(QueueOf(b, l).queue);
    }
  }

  // --- What holds of all sessions ------------------------------------------------------------------

  /** Every session has a log of its own, and its box agrees with it. */
  ghost predicate BoxesOk(w: World) {
    && (forall id :: id in w.m.boxes ==> BoxOk(w.m.boxes[id], LogOf(w, w.m.boxes[id].epoch)))
    && (forall id :: id in w.m.boxes ==> w.m.boxes[id].epoch <= w.m.epochs)
    && (forall a, b :: a in w.m.boxes && b in w.m.boxes && w.m.boxes[a].epoch == w.m.boxes[b].epoch ==> a == b)
  }

  /** No wake-up is lost: while the doorbell did not ring, no command and no peer waits; a peer that is marked is listed. */
  ghost predicate WakeOk(w: World) {
    && w.rung == w.m.signalled
    && (!w.m.signalled ==> w.m.commands == [] && w.m.ready == [])
    && (forall id :: id in w.m.boxes && w.m.boxes[id].listed ==> id in w.m.ready)
  }

  ghost predicate WorldOk(w: World) { BoxesOk(w) && WakeOk(w) }

  lemma BoxIsOk(w: World, id: PeerId)
    requires BoxesOk(w) && id in w.m.boxes
    ensures BoxOk(w.m.boxes[id], LogOf(w, w.m.boxes[id].epoch))
  {
  }

  /** One box and its log changed. */
  lemma BoxChanged(w: World, w': World, id: PeerId, b: Box, log: Log)
    requires BoxesOk(w) && id in w.m.boxes && b.epoch == w.m.boxes[id].epoch && BoxOk(b, log)
    requires w'.m.boxes == w.m.boxes[id := b] && w'.logs == w.logs[b.epoch := log] && w'.m.epochs == w.m.epochs
    ensures BoxesOk(w')
  {
    hide BoxOk;
    forall x | x in w'.m.boxes
      ensures BoxOk(w'.m.boxes[x], LogOf(w', w'.m.boxes[x].epoch))
    {
      if x != id { assert LogOf(w', w'.m.boxes[x].epoch) == LogOf(w, w.m.boxes[x].epoch); }
    }
  }

  /** One box changed, and its log did not. */
  lemma BoxUpdated(w: World, w': World, id: PeerId, b: Box)
    requires BoxesOk(w) && id in w.m.boxes && b.epoch == w.m.boxes[id].epoch && BoxOk(b, LogOf(w, b.epoch))
    requires w'.m.boxes == w.m.boxes[id := b] && w'.logs == w.logs && w'.m.epochs == w.m.epochs
    ensures BoxesOk(w')
  {
    hide BoxOk;
  }

  /** Nothing about listing changed, but perhaps that a box is gone. */
  lemma WakeStays(w: World, w': World)
    requires WakeOk(w) && w'.rung == w.rung && w'.m.signalled == w.m.signalled && w'.m.commands == w.m.commands
    requires w'.m.ready == w.m.ready
    requires forall id :: id in w'.m.boxes && w'.m.boxes[id].listed ==> id in w.m.boxes && w.m.boxes[id].listed
    ensures WakeOk(w')
  {
  }

  lemma AcceptedWakes(w: World, id: PeerId, lane: Lane, mail: Message)
    requires WakeOk(w) && id in w.m.boxes
    ensures WakeOk(Accepted(w, id, lane, mail))
    ensures var w' := Accepted(w, id, lane, mail); id in w'.m.ready && w'.m.signalled && w'.rung
  {
    StoredNames(w.m.boxes[id], lane, mail);
    hide Stored, Noted;
  }

  lemma AcceptedOk(w: World, id: PeerId, lane: Lane, mail: Message)
    requires WorldOk(w) && id in w.m.boxes
    ensures WorldOk(Accepted(w, id, lane, mail))
  {
    hide BoxOk, BoxesOk, WakeOk, Stored, Noted;
    var b := w.m.boxes[id];
    var log := LogOf(w, b.epoch);
    AcceptedWakes(w, id, lane, mail);
    BoxIsOk(w, id);
    StoredOk(b, log, lane, mail);
    BoxChanged(w, Accepted(w, id, lane, mail), id, Stored(b, lane, mail), Noted(log, lane, mail));
  }

  lemma {:induction false} EachOk(w: World, ids: seq<PeerId>, lane: Lane, mail: Message)
    requires WorldOk(w)
    ensures WorldOk(AcceptedByEach(w, ids, lane, mail))
    decreases |ids|
  {
    hide WorldOk, Accepted;
    if ids != [] {
      if TakesAll(w.m, ids[0], lane, |mail.body|) {
        AcceptedOk(w, ids[0], lane, mail);
        EachOk(Accepted(w, ids[0], lane, mail), ids[1..], lane, mail);
      } else {
        EachOk(w, ids[1..], lane, mail);
      }
    }
  }

  lemma TookOk(w: World, id: PeerId, lane: Lane)
    requires WorldOk(w)
    ensures WorldOk(TookOne(w, id, lane))
  {
    hide BoxOk, BoxesOk, WakeOk, TakenBox, TakenLog;
    if id in w.m.boxes && QueueOf(w.m.boxes[id], lane).queue != [] {
      var b, w' := w.m.boxes[id], TookOne(w, id, lane);
      var log := LogOf(w, b.epoch);
      BoxIsOk(w, id);
      TakenBoxOk(b, log, lane);
      BoxChanged(w, w', id, TakenBox(b, lane), TakenLog(log, lane));
      WakeStays(w, w');
    }
  }

  lemma HeardOk(w: World, id: PeerId, lane: Lane, count: nat)
    requires WorldOk(w) && Allowed(w, Acknowledged(id, lane, count))
    ensures WorldOk(Heard(w, id, lane, count))
  {
    hide BoxOk, BoxesOk, WakeOk;
    if id in w.m.boxes {
      var b, w' := w.m.boxes[id], Heard(w, id, lane, count);
      var log := LogOf(w, b.epoch);
      BoxIsOk(w, id);
      HeardBoxOk(b, log, lane, count);
      assert w.m.boxes[id := b] == w.m.boxes;
      BoxChanged(w, w', id, b, log.(acked := log.acked[lane := count]));
      WakeStays(w, w');
    }
  }

  lemma SettleOk(w: World, id: PeerId)
    requires WorldOk(w) && Allowed(w, DoSettle(id))
    ensures WorldOk(w.(m := Settle(w.m, id).0))
  {
    hide BoxOk, BoxesOk, WakeOk;
    if id in w.m.boxes && QueueOf(w.m.boxes[id], Reliable).queue == [] && QueueOf(w.m.boxes[id], Bulk).queue == [] {
      var b, w' := w.m.boxes[id], w.(m := Settle(w.m, id).0);
      BoxIsOk(w, id);
      SettledBoxOk(b, LogOf(w, b.epoch));
      BoxUpdated(w, w', id, b.(done := b.accepted));
      WakeStays(w, w');
    }
  }

  lemma SealOk(w: World, id: PeerId)
    requires WorldOk(w)
    ensures WorldOk(w.(m := Seal(w.m, id)))
  {
    hide BoxOk, BoxesOk, WakeOk;
    if id in w.m.boxes {
      var b, w' := w.m.boxes[id], w.(m := Seal(w.m, id));
      BoxIsOk(w, id);
      SealedBoxOk(b, LogOf(w, b.epoch));
      BoxUpdated(w, w', id, WithQueue(b, Media, EMPTY).(isSealed := true));
      WakeStays(w, w');
    }
  }

  lemma ListedOk(b: Box, log: Log, listed: bool)
    requires BoxOk(b, log)
    ensures BoxOk(b.(listed := listed), log)
  {
    var b' := b.(listed := listed);
    hide ForLane, Sum, IsAcked;
    forall l ensures QueueOf(b', l).bytes == Sum(QueueOf(b', l).queue) {
      assert QueueOf(b', l) == QueueOf(b, l);
    }
  }

  lemma DrainBoxes(w: World, w': World)
    requires BoxesOk(w) && w'.logs == w.logs && w'.m.epochs == w.m.epochs && w'.m.boxes.Keys == w.m.boxes.Keys
    requires forall id :: id in w'.m.boxes ==>
      w'.m.boxes[id] == w.m.boxes[id] || w'.m.boxes[id] == w.m.boxes[id].(listed := false)
    ensures BoxesOk(w')
  {
    hide BoxOk;
    forall id | id in w'.m.boxes
      ensures BoxOk(w'.m.boxes[id], LogOf(w', w'.m.boxes[id].epoch))
    {
      ListedOk(w.m.boxes[id], LogOf(w, w.m.boxes[id].epoch), false);
    }
  }

  lemma DrainOk(w: World)
    requires WorldOk(w)
    ensures WorldOk(w.(m := Drain(w.m), rung := false))
  {
    hide BoxesOk;
    var w' := w.(m := Drain(w.m), rung := false);
    DrainBoxes(w, w');
  }

  lemma NewBoxOk(b: Box)
    requires b.lanes == map[] && b.accepted == b.done == b.mediaDropped == 0
    ensures BoxOk(b, NO_LOG)
  {
  }

  lemma OpenOk(w: World, id: PeerId)
    requires WorldOk(w)
    ensures WorldOk(w.(m := Open(w.m, id), logs := w.logs[w.m.epochs + 1 := NO_LOG]))
  {
    hide BoxOk;
    var w' := w.(m := Open(w.m, id), logs := w.logs[w.m.epochs + 1 := NO_LOG]);
    NewBoxOk(w'.m.boxes[id]);
    forall x | x in w'.m.boxes
      ensures BoxOk(w'.m.boxes[x], LogOf(w', w'.m.boxes[x].epoch))
    {
      if x != id { assert LogOf(w', w'.m.boxes[x].epoch) == LogOf(w, w.m.boxes[x].epoch); }
    }
  }

  lemma CloseOk(w: World, id: PeerId)
    requires WorldOk(w)
    ensures WorldOk(w.(m := Close(w.m, id)))
  {
    hide BoxOk;
    var w' := w.(m := Close(w.m, id));
    forall x | x in w'.m.boxes
      ensures BoxOk(w'.m.boxes[x], LogOf(w', w'.m.boxes[x].epoch))
    {
      assert w'.m.boxes[x] == w.m.boxes[x];
    }
  }

  lemma PlainOk(w: World, w': World)
    requires WorldOk(w) && w'.logs == w.logs && w'.m.boxes == w.m.boxes && w'.m.epochs == w.m.epochs
    requires w'.m.ready == w.m.ready && w'.rung == w'.m.signalled && (w.m.signalled ==> w'.m.signalled)
    requires !w'.m.signalled ==> w'.m.commands == w.m.commands
    ensures WorldOk(w')
  {
    hide BoxOk;
  }

  lemma StepOk(w: World, a: Action)
    requires WorldOk(w) && Allowed(w, a)
    ensures WorldOk(Step(w, a))
  {
    hide BoxesOk, Accepted, TookOne, Heard, AcceptedByEach, Seal, Drain, Settle, Open, Close, Refusal, LateRefusal;
    match a
    case DoPush(id, lane, mail) =>
      if Refusal(w.m, id, lane, |mail.body|) == Queued {
        QueuedHasBox(w.m, id, lane, |mail.body|);
        AcceptedOk(w, id, lane, mail);
      }
    case DoPushLate(id, lane, mail, epoch) =>
      if LateRefusal(w.m, id, lane, |mail.body|, epoch) == Queued {
        LateHasBox(w.m, id, lane, |mail.body|, epoch);
        AcceptedOk(w, id, lane, mail);
      }
    case DoPushToAll(ids, lane, mail) => EachOk(w, ids, lane, mail);
    case DoSeal(id) => SealOk(w, id);
    case DoDrain => DrainOk(w);
    case DoTake(id, lane) => TookOk(w, id, lane);
    case Acknowledged(id, lane, count) => HeardOk(w, id, lane, count);
    case DoSettle(id) => SettleOk(w, id);
    case DoOpen(id) => OpenOk(w, id);
    case DoClose(id) => CloseOk(w, id);
    case DoPost(command, peer) => PlainOk(w, Step(w, a));
    case SetRunning(running) => PlainOk(w, Step(w, a));
    case SetQueueBytes(bytes) => PlainOk(w, Step(w, a));
  }

  lemma QueuedHasBox(m: State, id: PeerId, lane: Lane, size: nat)
    requires Refusal(m, id, lane, size) == Queued
    ensures id in m.boxes && !m.boxes[id].isSealed && m.running
  {
  }

  lemma LateHasBox(m: State, id: PeerId, lane: Lane, size: nat, epoch: nat)
    requires LateRefusal(m, id, lane, size, epoch) == Queued
    ensures id in m.boxes && !m.boxes[id].isSealed && m.running && m.boxes[id].epoch == epoch
  {
  }

  /** A push that waited for room reaches the session it waited for, or none at all. */
  lemma LateStaysInSession(w: World, id: PeerId, lane: Lane, mail: Message, epoch: nat, other: nat)
    ensures var w' := Step(w, DoPushLate(id, lane, mail, epoch));
      && (other != epoch ==> LogOf(w', other) == LogOf(w, other))
      && (forall x :: x in w'.m.boxes ==>
            x in w.m.boxes && (w'.m.boxes[x] != w.m.boxes[x] ==> x == id && w.m.boxes[x].epoch == epoch))
      && (id !in w.m.boxes || w.m.boxes[id].epoch != epoch || w.m.boxes[id].isSealed ==> w' == w)
  {
    hide HasRoom, Stored;
  }

  // --- Whole runs --------------------------------------------------------------------------------------

  predicate AllAllowed(w: World, actions: seq<Action>)
    decreases |actions|
  {
    actions == [] || (Allowed(w, actions[0]) && AllAllowed(Step(w, actions[0]), actions[1..]))
  }

  function Run(w: World, actions: seq<Action>): World
    decreases |actions|
  {
    if actions == [] then w else Run(Step(w, actions[0]), actions[1..])
  }

  /** In every run: lanes are first in, first out with exact byte counts, what is done is acknowledged, and no wake-up is lost. */
  lemma {:induction false} RunOk(w: World, actions: seq<Action>)
    requires WorldOk(w) && AllAllowed(w, actions)
    ensures WorldOk(Run(w, actions))
    decreases |actions|
  {
    hide WorldOk, Step, Allowed;
    if actions != [] {
      StepOk(w, actions[0]);
      RunOk(Step(w, actions[0]), actions[1..]);
    }
  }

  lemma StartOk()
    ensures WorldOk(START)
  {
  }

  /** The monitor from its construction on: of every open session, each lane holds exactly the messages it accepted and has
      not handed out, with their bytes, and the doorbell rang while anything waits for the engine. */
  lemma QueuesExact(actions: seq<Action>, id: PeerId, lane: Lane)
    requires AllAllowed(START, actions) && id in Run(START, actions).m.boxes && lane != Media
    ensures var w := Run(START, actions);
      var b := w.m.boxes[id];
      var log := LogOf(w, b.epoch);
      var all, taken := ForLane(log.arrivals, lane), Count(log.taken, lane);
      && taken <= |all| && QueueOf(b, lane).queue == all[taken..] && QueueOf(b, lane).bytes == Sum(all[taken..])
      && (w.m.commands != [] || w.m.ready != [] ==> w.rung)
  {
    StartOk();
    RunOk(START, actions);
    BoxIsOk(Run(START, actions), id);
  }

  /** While the session lasts, its log only grows. */
  ghost predicate Grows(log: Log, log': Log) {
    log.arrivals <= log'.arrivals && (forall lane :: Count(log.acked, lane) <= Count(log'.acked, lane))
  }

  ghost predicate SameSession(w: World, w': World, id: PeerId) {
    id in w.m.boxes && id in w'.m.boxes && w'.m.boxes[id].epoch == w.m.boxes[id].epoch
  }

  ghost predicate SessionGrows(w: World, w': World, epoch: nat) { Grows(LogOf(w, epoch), LogOf(w', epoch)) }

  lemma AcceptedGrows(w: World, id: PeerId, lane: Lane, mail: Message, epoch: nat)
    requires id in w.m.boxes
    ensures SessionGrows(w, Accepted(w, id, lane, mail), epoch) && Accepted(w, id, lane, mail).m.epochs == w.m.epochs
  {
    hide Stored;
  }

  lemma GrowsTrans(a: Log, b: Log, c: Log)
    requires Grows(a, b) && Grows(b, c)
    ensures Grows(a, c)
  {
    forall lane ensures Count(a.acked, lane) <= Count(c.acked, lane) {
      assert Count(a.acked, lane) <= Count(b.acked, lane);
    }
  }

  lemma {:induction false} EachGrows(w: World, ids: seq<PeerId>, lane: Lane, mail: Message, epoch: nat)
    ensures SessionGrows(w, AcceptedByEach(w, ids, lane, mail), epoch)
    ensures AcceptedByEach(w, ids, lane, mail).m.epochs == w.m.epochs
    decreases |ids|
  {
    hide Accepted, Grows;
    if ids == [] {
      GrowsSelf(LogOf(w, epoch));
    } else if TakesAll(w.m, ids[0], lane, |mail.body|) {
      var w1 := Accepted(w, ids[0], lane, mail);
      AcceptedGrows(w, ids[0], lane, mail, epoch);
      EachGrows(w1, ids[1..], lane, mail, epoch);
      GrowsTrans(LogOf(w, epoch), LogOf(w1, epoch), LogOf(AcceptedByEach(w, ids, lane, mail), epoch));
    } else {
      EachGrows(w, ids[1..], lane, mail, epoch);
    }
  }

  lemma GrowsSelf(log: Log)
    ensures Grows(log, log)
  {
  }

  /** No session of an epoch that was handed out is ever started over. */
  lemma StepGrows(w: World, a: Action, epoch: nat)
    requires Allowed(w, a) && epoch <= w.m.epochs
    ensures SessionGrows(w, Step(w, a), epoch) && w.m.epochs <= Step(w, a).m.epochs
  {
    hide Refusal, LateRefusal, Accepted, Seal, Drain, Settle, TakenBox, Without;
    match a
    case DoPush(id, lane, mail) =>
      if Refusal(w.m, id, lane, |mail.body|) == Queued {
        QueuedHasBox(w.m, id, lane, |mail.body|);
        AcceptedGrows(w, id, lane, mail, epoch);
      }
    case DoPushLate(id, lane, mail, e) =>
      if LateRefusal(w.m, id, lane, |mail.body|, e) == Queued {
        LateHasBox(w.m, id, lane, |mail.body|, e);
        AcceptedGrows(w, id, lane, mail, epoch);
      }
    case DoPushToAll(ids, lane, mail) => EachGrows(w, ids, lane, mail, epoch);
    case DoSeal(id) => EpochsStay(w.m, id);
    case DoSettle(id) => EpochsStay(w.m, id);
    case DoDrain => EpochsStay(w.m, 0);
    case _ =>
  }

  lemma EpochsStay(m: State, id: PeerId)
    ensures Seal(m, id).epochs == Settle(m, id).0.epochs == Drain(m).epochs == m.epochs
  {
  }

  lemma {:induction false} RunGrows(w: World, actions: seq<Action>, epoch: nat)
    requires AllAllowed(w, actions) && epoch <= w.m.epochs
    ensures SessionGrows(w, Run(w, actions), epoch)
    decreases |actions|
  {
    hide Step, Allowed, Grows;
    if actions == [] {
      GrowsSelf(LogOf(w, epoch));
    } else {
      var w1 := Step(w, actions[0]);
      StepGrows(w, actions[0], epoch);
      RunGrows(w1, actions[1..], epoch);
      GrowsTrans(LogOf(w, epoch), LogOf(w1, epoch), LogOf(Run(w, actions), epoch));
    }
  }

  /** Everything accepted before was acknowledged. */
  ghost predicate AllAcked(before: Log, after: Log) {
    && before.arrivals <= after.arrivals
    && forall i :: 0 <= i < |before.arrivals| && (before.arrivals[i].lane == Reliable || before.arrivals[i].lane == Bulk) ==>
         IsAcked(after, i)
  }

  lemma FlushedArrivals(w: World, w': World, id: PeerId)
    requires WorldOk(w) && WorldOk(w') && SameSession(w, w', id) && SessionGrows(w, w', w.m.boxes[id].epoch)
    requires Flushed(w'.m, TicketFor(w.m, id).value)
    ensures AllAcked(LogOf(w, w.m.boxes[id].epoch), LogOf(w', w.m.boxes[id].epoch))
  {
    hide WorldOk, IsAcked, LogOf;
    TicketTarget(w, id);
    DoneAt(w', id);
  }

  /** A flush that succeeds within its session: every Reliable and Bulk message accepted before it was acknowledged. */
  lemma FlushMeansAcknowledged(w: World, id: PeerId, actions: seq<Action>)
    requires WorldOk(w) && AllAllowed(w, actions) && SameSession(w, Run(w, actions), id)
    requires Flushed(Run(w, actions).m, TicketFor(w.m, id).value)
    ensures AllAcked(LogOf(w, w.m.boxes[id].epoch), LogOf(Run(w, actions), w.m.boxes[id].epoch))
  {
    hide WorldOk, Run, AllAllowed, AllAcked, LogOf, Flushed;
    TicketTarget(w, id);
    RunOk(w, actions);
    RunGrows(w, actions, w.m.boxes[id].epoch);
    FlushedArrivals(w, Run(w, actions), id);
  }

  lemma TicketTarget(w: World, id: PeerId)
    requires WorldOk(w) && id in w.m.boxes
    ensures w.m.boxes[id].accepted == |LogOf(w, w.m.boxes[id].epoch).arrivals| && w.m.boxes[id].epoch <= w.m.epochs
  {
  }

  lemma DoneAt(w: World, id: PeerId)
    requires WorldOk(w) && id in w.m.boxes
    ensures DoneIsAcked(w.m.boxes[id], LogOf(w, w.m.boxes[id].epoch))
  {
  }

  /** The peer is listed, and the doorbell rang. */
  ghost predicate Announced(w: World, id: PeerId) { id in w.m.ready && w.m.signalled && w.rung }

  lemma {:induction false} EachAnnounces(w: World, ids: seq<PeerId>, lane: Lane, mail: Message, id: PeerId)
    requires Announced(w, id)
    ensures Announced(AcceptedByEach(w, ids, lane, mail), id)
    decreases |ids|
  {
    hide Stored, Noted;
    if ids != [] {
      EachAnnounces(if TakesAll(w.m, ids[0], lane, |mail.body|) then Accepted(w, ids[0], lane, mail) else w, ids[1..], lane,
                    mail, id);
    }
  }

  lemma StaysAnnounced(w: World, a: Action, id: PeerId)
    requires Announced(w, id) && a != DoDrain && a != DoClose(id)
    ensures Announced(Step(w, a), id)
  {
    hide Stored, Noted, TakenBox, TakenLog, WithQueue;
    if a.DoPushToAll? { EachAnnounces(w, a.ids, a.lane, a.mail, id); }
  }

  /** A message that was accepted is not overlooked: the peer stays listed up to the next drain or the end of its session. */
  lemma {:induction false} NoLostWakeUp(w: World, actions: seq<Action>, id: PeerId)
    requires Announced(w, id) && DoDrain !in actions && DoClose(id) !in actions
    ensures Announced(Run(w, actions), id)
    decreases |actions|
  {
    hide Step;
    if actions != [] {
      StaysAnnounced(w, actions[0], id);
      NoLostWakeUp(Step(w, actions[0]), actions[1..], id);
    }
  }

  /** No superfluous ring, and no silence: the bell goes only from idle, and is never quiet over something to do. */
  lemma RingsWhenIdle(w: World, a: Action)
    requires WorldOk(w) && Allowed(w, a) && a != DoDrain
    ensures Step(w, a).rung && !w.rung ==> w.m.commands == [] && w.m.ready == []
    ensures (Step(w, a).m.commands != [] || Step(w, a).m.ready != []) ==> Step(w, a).rung
  {
    StepOk(w, a);
    hide BoxesOk, Step, Allowed;
  }

  // --- How much may wait ----------------------------------------------------------------------------------

  /** What waits in an acknowledged lane keeps to the limit, or is a single message. */
  ghost predicate Bounded(b: Box, limit: nat) {
    forall lane :: lane != Media ==> |QueueOf(b, lane).queue| <= 1 || QueueOf(b, lane).bytes <= limit
  }

  ghost predicate AllBounded(m: State) { forall id :: id in m.boxes ==> Bounded(m.boxes[id], m.queueBytes) }

  lemma StoredBounded(m: State, b: Box, lane: Lane, mail: Message)
    requires Bounded(b, m.queueBytes) && (lane != Media ==> HasRoom(m, b, lane, |mail.body|))
    ensures Bounded(Stored(b, lane, mail), m.queueBytes)
  {
    var b' := Stored(b, lane, mail);
    forall l | l != Media
      ensures |QueueOf(b', l).queue| <= 1 || QueueOf(b', l).bytes <= m.queueBytes
    {
      assert l != lane ==> QueueOf(b', l) == QueueOf(b, l);
    }
  }

  lemma AcceptedBounded(w: World, id: PeerId, lane: Lane, mail: Message)
    requires AllBounded(w.m) && id in w.m.boxes && (lane != Media ==> HasRoom(w.m, w.m.boxes[id], lane, |mail.body|))
    ensures AllBounded(Accepted(w, id, lane, mail).m)
  {
    StoredBounded(w.m, w.m.boxes[id], lane, mail);
    hide Stored, Bounded, Noted;
  }

  lemma {:induction false} EachBounded(w: World, ids: seq<PeerId>, lane: Lane, mail: Message)
    requires AllBounded(w.m)
    ensures AllBounded(AcceptedByEach(w, ids, lane, mail).m)
    decreases |ids|
  {
    hide AllBounded, Accepted;
    if ids != [] {
      if TakesAll(w.m, ids[0], lane, |mail.body|) {
        AcceptedBounded(w, ids[0], lane, mail);
        EachBounded(Accepted(w, ids[0], lane, mail), ids[1..], lane, mail);
      } else {
        EachBounded(w, ids[1..], lane, mail);
      }
    }
  }

  /** A box with fewer messages, or the same ones. */
  lemma TakenBounded(b: Box, lane: Lane, limit: nat)
    requires Bounded(b, limit) && QueueOf(b, lane).queue != []
    ensures Bounded(TakenBox(b, lane), limit)
  {
    var b' := TakenBox(b, lane);
    forall l | l != Media
      ensures |QueueOf(b', l).queue| <= 1 || QueueOf(b', l).bytes <= limit
    {
      assert l != lane ==> QueueOf(b', l) == QueueOf(b, l);
    }
  }

  lemma SameQueues(b: Box, b': Box, limit: nat)
    requires Bounded(b, limit) && forall l :: l != Media ==> QueueOf(b', l) == QueueOf(b, l)
    ensures Bounded(b', limit)
  {
    forall l | l != Media
      ensures |QueueOf(b', l).queue| <= 1 || QueueOf(b', l).bytes <= limit
    {
      assert QueueOf(b', l) == QueueOf(b, l);
    }
  }

  /** One box changed, or one is gone. */
  lemma OneBounded(m: State, m': State, id: PeerId)
    requires AllBounded(m) && m'.queueBytes == m.queueBytes
    requires forall x :: x in m'.boxes && x != id ==> x in m.boxes && m'.boxes[x] == m.boxes[x]
    requires id in m'.boxes ==> Bounded(m'.boxes[id], m.queueBytes)
    ensures AllBounded(m')
  {
    hide Bounded;
  }

  lemma BoxBounded(m: State, id: PeerId)
    requires AllBounded(m) && id in m.boxes
    ensures Bounded(m.boxes[id], m.queueBytes)
  {
  }

  lemma DrainBounded(m: State)
    requires AllBounded(m)
    ensures AllBounded(Drain(m))
  {
    forall id | id in m.boxes
      ensures Bounded(Drain(m).boxes[id], m.queueBytes)
    {
      SameQueues(m.boxes[id], Drain(m).boxes[id], m.queueBytes);
    }
    hide Bounded;
  }

  lemma SameBoxes(m: State, m': State)
    requires AllBounded(m) && m'.boxes == m.boxes && m'.queueBytes == m.queueBytes
    ensures AllBounded(m')
  {
    hide Bounded;
  }

  lemma QueuedHasRoom(m: State, id: PeerId, lane: Lane, size: nat, epoch: nat)
    ensures Refusal(m, id, lane, size) == Queued ==> id in m.boxes && (lane != Media ==> HasRoom(m, m.boxes[id], lane, size))
    ensures LateRefusal(m, id, lane, size, epoch) == Queued ==> id in m.boxes && HasRoom(m, m.boxes[id], lane, size)
  {
  }

  lemma IoBounded(w: World, a: Action)
    requires AllBounded(w.m) && (a.DoSeal? || a.DoTake? || a.DoSettle? || a.DoOpen? || a.DoClose?)
    ensures AllBounded(Step(w, a).m)
  {
    hide Bounded, AllBounded;
    var id, m, m' := a.peer, w.m, Step(w, a).m;
    if id in m.boxes {
      BoxBounded(m, id);
      if a.DoTake? && QueueOf(m.boxes[id], a.lane).queue != [] { TakenBounded(m.boxes[id], a.lane, m.queueBytes); }
      if a.DoSeal? || a.DoSettle? { SameQueues(m.boxes[id], m'.boxes[id], m.queueBytes); }
    }
    if a.DoOpen? { NewBounded(m'.boxes[id], m.queueBytes); }
    hide TakenBox;
    OneBounded(m, m', id);
  }

  lemma NewBounded(b: Box, limit: nat)
    requires b.lanes == map[]
    ensures Bounded(b, limit)
  {
  }

  lemma StepBounded(w: World, a: Action)
    requires AllBounded(w.m) && !a.SetQueueBytes?
    ensures AllBounded(Step(w, a).m)
  {
    hide AllBounded, Accepted, AcceptedByEach, Refusal, LateRefusal, Drain;
    match a
    case DoPush(id, lane, mail) =>
      QueuedHasRoom(w.m, id, lane, |mail.body|, 0);
      if Refusal(w.m, id, lane, |mail.body|) == Queued { AcceptedBounded(w, id, lane, mail); }
    case DoPushLate(id, lane, mail, epoch) =>
      QueuedHasRoom(w.m, id, lane, |mail.body|, epoch);
      if LateRefusal(w.m, id, lane, |mail.body|, epoch) == Queued { AcceptedBounded(w, id, lane, mail); }
    case DoPushToAll(ids, lane, mail) => EachBounded(w, ids, lane, mail);
    case DoDrain => DrainBounded(w.m);
    case DoPost(command, peer) => SameBoxes(w.m, Step(w, a).m);
    case Acknowledged(id, lane, count) => SameBoxes(w.m, Step(w, a).m);
    case SetRunning(running) => SameBoxes(w.m, Step(w, a).m);
    case _ => IoBounded(w, a);
  }

  /** While the limit is not changed, no acknowledged lane holds more than it, but for a single message. */
  lemma {:induction false} RunBounded(w: World, actions: seq<Action>)
    requires AllBounded(w.m) && forall i :: 0 <= i < |actions| ==> !actions[i].SetQueueBytes?
    ensures AllBounded(Run(w, actions).m)
    decreases |actions|
  {
    hide AllBounded, Step;
    if actions != [] {
      StepBounded(w, actions[0]);
      RunBounded(Step(w, actions[0]), actions[1..]);
    }
  }

  // --- The answer to a push -------------------------------------------------------------------------------

  /** What the session accepted on an acknowledged lane, and its link did not take yet. */
  ghost function Waiting(w: World, id: PeerId, lane: Lane): seq<Message>
    requires id in w.m.boxes
  {
    var log := LogOf(w, w.m.boxes[id].epoch);
    var all, taken := ForLane(log.arrivals, lane), Count(log.taken, lane);
    if taken <= |all| then all[taken..] else []
  }

  /** Media takes everything. An acknowledged lane takes what keeps it within the limit, and anything while it is empty. */
  ghost predicate RoomFor(w: World, id: PeerId, lane: Lane, size: nat)
    requires id in w.m.boxes
  {
    lane == Media || Waiting(w, id, lane) == [] || Sum(Waiting(w, id, lane)) + size <= w.m.queueBytes
  }

  lemma RoomIsExact(w: World, id: PeerId, lane: Lane, size: nat)
    requires WorldOk(w) && id in w.m.boxes && lane != Media
    ensures HasRoom(w.m, w.m.boxes[id], lane, size) <==> RoomFor(w, id, lane, size)
  {
    hide WorldOk, LogOf, ForLane, Sum;
    OkParts(w);
    BoxIsOk(w, id);
    var b, log := w.m.boxes[id], LogOf(w, w.m.boxes[id].epoch);
    assert InOrder(b, log, lane) && QueueOf(b, lane).bytes == Sum(QueueOf(b, lane).queue);
    assert Waiting(w, id, lane) == QueueOf(b, lane).queue;
  }

  lemma OkParts(w: World)
    requires WorldOk(w)
    ensures BoxesOk(w)
  {
  }

  /** In every state the mailbox can get into, a push gets the answer its history calls for. */
  lemma PushLaw(w: World, id: PeerId, lane: Lane, size: nat)
    requires WorldOk(w)
    ensures Refusal(w.m, id, lane, size) ==
      if size > MaxMessageSize(lane) then TooLarge
      else if !w.m.running then Stopped
      else if id !in w.m.boxes || w.m.boxes[id].isSealed then Closed
      else if RoomFor(w, id, lane, size) then Queued
      else Full
  {
    hide WorldOk, Waiting, HasRoom;
    if id in w.m.boxes && lane != Media { RoomIsExact(w, id, lane, size); }
  }

  /** So does one that waited. */
  lemma LatePushLaw(w: World, id: PeerId, lane: Lane, size: nat, epoch: nat)
    requires WorldOk(w) && lane != Media
    ensures LateRefusal(w.m, id, lane, size, epoch) ==
      if id !in w.m.boxes || w.m.boxes[id].epoch != epoch || w.m.boxes[id].isSealed then Closed
      else if !w.m.running then Stopped
      else if RoomFor(w, id, lane, size) then Queued
      else Full
  {
    hide WorldOk, RoomFor, HasRoom;
    if id in w.m.boxes { RoomIsExact(w, id, lane, size); }
  }

  /** A session is settled if and only if its link took everything it accepted on Reliable and Bulk; nothing is left to settle of
      one that is closed. */
  lemma SettleLaw(w: World, id: PeerId)
    requires WorldOk(w)
    ensures Settle(w.m, id).1 <==> id !in w.m.boxes || (Waiting(w, id, Reliable) == [] && Waiting(w, id, Bulk) == [])
    ensures id in w.m.boxes && Settle(w.m, id).1 ==> Settle(w.m, id).0.boxes[id].done == w.m.boxes[id].accepted
  {
    hide WorldOk, ForLane, LogOf;
    if id in w.m.boxes {
      OkParts(w);
      BoxIsOk(w, id);
      assert InOrder(w.m.boxes[id], LogOf(w, w.m.boxes[id].epoch), Reliable);
      assert InOrder(w.m.boxes[id], LogOf(w, w.m.boxes[id].epoch), Bulk);
    }
  }

  // --- A push to everyone ---------------------------------------------------------------------------------

  ghost predicate NoneTwice(ids: seq<PeerId>) { forall i, j :: 0 <= i < j < |ids| ==> ids[i] != ids[j] }

  /** The session of the peer takes a message. */
  ghost predicate TakesIt(w: World, id: PeerId, lane: Lane, size: nat) {
    id in w.m.boxes && !w.m.boxes[id].isSealed && RoomFor(w, id, lane, size)
  }

  lemma TakesIsExact(w: World, id: PeerId, lane: Lane, size: nat)
    requires WorldOk(w)
    ensures TakesAll(w.m, id, lane, size) <==> TakesIt(w, id, lane, size)
  {
    hide WorldOk, HasRoom, Waiting;
    if id in w.m.boxes && lane != Media { RoomIsExact(w, id, lane, size); }
  }

  /** Nothing changed for the peer. */
  ghost predicate Untouched(w: World, w': World, id: PeerId) {
    && (id in w'.m.boxes <==> id in w.m.boxes) && w'.m.queueBytes == w.m.queueBytes
    && (id in w.m.boxes ==> w'.m.boxes[id] == w.m.boxes[id] && LogOf(w', w.m.boxes[id].epoch) == LogOf(w, w.m.boxes[id].epoch))
  }

  lemma OneAccepts(w: World, id: PeerId, other: PeerId, lane: Lane, mail: Message)
    requires BoxesOk(w) && id in w.m.boxes && other != id
    ensures Untouched(w, Accepted(w, id, lane, mail), other)
  {
    hide Stored, Noted, BoxOk;
  }

  lemma UntouchedTakes(w: World, w': World, id: PeerId, lane: Lane, size: nat)
    requires Untouched(w, w', id)
    ensures TakesIt(w', id, lane, size) <==> TakesIt(w, id, lane, size)
  {
    hide ForLane, Sum, LogOf;
  }

  ghost function TakersAmong(w: World, ids: seq<PeerId>, lane: Lane, size: nat): set<PeerId> {
    set id | id in ids && TakesIt(w, id, lane, size)
  }

  lemma AcceptedNotes(w: World, id: PeerId, lane: Lane, mail: Message)
    requires id in w.m.boxes
    ensures var w' := Accepted(w, id, lane, mail);
      && id in w'.m.boxes && w'.m.boxes[id].epoch == w.m.boxes[id].epoch
      && LogOf(w', w.m.boxes[id].epoch) == Noted(LogOf(w, w.m.boxes[id].epoch), lane, mail)
  {
    hide Noted;
  }

  /** The world after the first of the peers was asked. */
  ghost function AskedFirst(w: World, id: PeerId, lane: Lane, mail: Message): World {
    if TakesAll(w.m, id, lane, |mail.body|) then Accepted(w, id, lane, mail) else w
  }

  lemma FirstAsked(w: World, id: PeerId, other: PeerId, lane: Lane, mail: Message)
    requires WorldOk(w)
    ensures var w1 := AskedFirst(w, id, lane, mail);
      && WorldOk(w1) && (other != id || !TakesIt(w, id, lane, |mail.body|) ==> Untouched(w, w1, other))
      && (other != id ==> (TakesIt(w1, other, lane, |mail.body|) <==> TakesIt(w, other, lane, |mail.body|)))
  {
    TakesIsExact(w, id, lane, |mail.body|);
    if TakesAll(w.m, id, lane, |mail.body|) {
      AcceptedOk(w, id, lane, mail);
      if other != id { OneAccepts(w, id, other, lane, mail); }
    }
    hide WorldOk, TakesIt, Accepted;
    if other != id { UntouchedTakes(w, AskedFirst(w, id, lane, mail), other, lane, |mail.body|); }
  }

  /** Those without room or session are passed over; everyone else takes the message. */
  lemma {:induction false} EachTakes(w: World, ids: seq<PeerId>, lane: Lane, mail: Message, id: PeerId)
    requires WorldOk(w) && NoneTwice(ids)
    ensures var w' := AcceptedByEach(w, ids, lane, mail);
      if id in ids && TakesIt(w, id, lane, |mail.body|)
      then id in w'.m.boxes && LogOf(w', w.m.boxes[id].epoch) == Noted(LogOf(w, w.m.boxes[id].epoch), lane, mail)
      else Untouched(w, w', id)
    decreases |ids|
  {
    hide WorldOk, TakesIt, Noted, LogOf, TakesAll, Accepted;
    if ids != [] {
      var first, w1 := ids[0], AskedFirst(w, ids[0], lane, mail);
      TakesIsExact(w, first, lane, |mail.body|);
      FirstAsked(w, first, id, lane, mail);
      EachTakes(w1, ids[1..], lane, mail, id);
      assert id in ids <==> id == first || id in ids[1..];
      assert first !in ids[1..];
      if TakesIt(w, id, lane, |mail.body|) {
        TakesHasBox(w, id, lane, |mail.body|);
        if id == first { AcceptedNotes(w, first, lane, mail); }
      }
    }
  }

  lemma TakesHasBox(w: World, id: PeerId, lane: Lane, size: nat)
    requires TakesIt(w, id, lane, size)
    ensures id in w.m.boxes
  {
  }

  lemma AmongFirst(w: World, w1: World, ids: seq<PeerId>, lane: Lane, size: nat)
    requires ids != [] && NoneTwice(ids)
    requires forall x :: x in ids[1..] ==> (TakesIt(w1, x, lane, size) <==> TakesIt(w, x, lane, size))
    ensures |TakersAmong(w, ids, lane, size)|
         == |TakersAmong(w1, ids[1..], lane, size)| + (if TakesIt(w, ids[0], lane, size) then 1 else 0)
  {
    hide TakesIt;
    var first, all, rest := ids[0], TakersAmong(w, ids, lane, size), TakersAmong(w1, ids[1..], lane, size);
    assert first !in ids[1..] && forall x :: x in ids <==> x == first || x in ids[1..];
    assert all == if TakesIt(w, first, lane, size) then rest + {first} else rest;
  }

  /** And they are all counted. */
  lemma {:induction false} TakersCounted(w: World, ids: seq<PeerId>, lane: Lane, mail: Message)
    requires WorldOk(w) && NoneTwice(ids)
    ensures Takers(w.m, ids, lane, mail) == |TakersAmong(w, ids, lane, |mail.body|)|
    decreases |ids|
  {
    if ids == [] {
      assert TakersAmong(w, ids, lane, |mail.body|) == {};
    } else {
      hide WorldOk, TakesIt, TakesAll, Stored, TakersAmong;
      var first, w1 := ids[0], AskedFirst(w, ids[0], lane, mail);
      TakesIsExact(w, first, lane, |mail.body|);
      FirstAsked(w, first, first, lane, mail);
      TakersCounted(w1, ids[1..], lane, mail);
      forall x | x in ids[1..]
        ensures TakesIt(w1, x, lane, |mail.body|) <==> TakesIt(w, x, lane, |mail.body|)
      {
        FirstAsked(w, first, x, lane, mail);
      }
      AmongFirst(w, w1, ids, lane, |mail.body|);
      if TakesIt(w, first, lane, |mail.body|) { TakesHasBox(w, first, lane, |mail.body|); }
      hide Noted, LogOf;
    }
  }

  // --- What is told about a session -----------------------------------------------------------------------

  /** The sessions that are open, and those that take nothing anymore. */
  ghost predicate SessionsTold(m: State) {
    && m.sessions.Keys == m.boxes.Keys
    && forall id :: id in m.boxes ==> m.sessions[id] == if m.boxes[id].isSealed then Pending else Connected
  }

  lemma {:induction false} EachTold(w: World, ids: seq<PeerId>, lane: Lane, mail: Message)
    requires SessionsTold(w.m)
    ensures SessionsTold(AcceptedByEach(w, ids, lane, mail).m)
    decreases |ids|
  {
    if ids != [] { EachTold(AskedFirst(w, ids[0], lane, mail), ids[1..], lane, mail); }
  }

  lemma StepTold(w: World, a: Action)
    requires SessionsTold(w.m)
    ensures SessionsTold(Step(w, a).m)
  {
    if a.DoPushToAll? {
      hide AcceptedByEach;
      EachTold(w, a.ids, a.lane, a.mail);
    }
    hide AcceptedByEach, HasRoom, Without;
  }

  lemma {:induction false} RunTold(w: World, actions: seq<Action>)
    requires SessionsTold(w.m)
    ensures SessionsTold(Run(w, actions).m)
    decreases |actions|
  {
    hide SessionsTold, Step;
    if actions != [] {
      StepTold(w, actions[0]);
      RunTold(Step(w, actions[0]), actions[1..]);
    }
  }

  // --- Threads that sleep ------------------------------------------------------------------------------

  /** A thread that waits for room in a lane, or for its flush. */
  datatype Waiter = ForRoom(peer: PeerId, lane: Lane, size: nat, epoch: nat) | ForFlush(ticket: Ticket)

  function WaitsFor(x: Waiter): PeerId { if x.ForRoom? then x.peer else x.ticket.peer }

  /** What the thread looks at whenever it wakes up: it goes on exactly if this holds. */
  predicate Ready(m: State, x: Waiter) {
    match x
    case ForRoom(id, lane, size, epoch) =>
      || !m.running || id !in m.boxes || m.boxes[id].epoch != epoch || m.boxes[id].isSealed
      || HasRoom(m, m.boxes[id], lane, size)
    case ForFlush(t) => !m.running || Flushed(m, t)
  }

  /** The actions that wake all sleepers. */
  predicate Notifies(m: State, a: Action) {
    match a
    case SetRunning(_) => true
    case DoSeal(id) => id in m.boxes
    case DoTake(id, lane) => id in m.boxes && QueueOf(m.boxes[id], lane).queue != []
    case DoSettle(id) =>
      && id in m.boxes && QueueOf(m.boxes[id], Reliable).queue == [] && QueueOf(m.boxes[id], Bulk).queue == []
      && m.boxes[id].done != m.boxes[id].accepted
    case DoClose(_) => true
    case _ => false
  }

  // --- The mailbox as the source keeps it ---------------------------------------------------------------

  /** Each method is what happens under the mutex; a push or a flush that waits is two of them. */
  class Mailbox {
    var queueBytes: nat
    var boxes: map<PeerId, Box>
    var commands: seq<Posted>
    var ready: seq<PeerId>
    var epochs: nat
    var signalled: bool
    var running: bool
    var sessions: map<PeerId, Session>

    ghost var logs: map<nat, Log>
    ghost var rung: bool

    ghost function View(): State
      reads this
    {
      State(queueBytes, boxes, commands, ready, epochs, signalled, running, sessions)
    }

    /** With the histories of its sessions. */
    ghost function Now(): World
      reads this
    {
      World(View(), logs, rung)
    }

    ghost predicate Valid()
      reads this
    {
      WorldOk(Now())
    }

    constructor ()
      ensures Now() == START && Valid()
    {
      queueBytes, boxes, commands, ready, epochs, signalled, running, sessions :=
        64 * 1024 * 1024, map[], [], [], 0, false, true, map[];
      logs, rung := map[], false;
    }

    /** The command waits for the engine, and the doorbell rings exactly if nothing else did. */
    method PostCommand(command: Command, peer: PeerId) returns (ring: bool)
      modifies this`commands, this`signalled, this`rung
      ensures Now() == Step(old(Now()), DoPost(command, peer)) && (old(Valid()) ==> Valid())
      ensures Posted(command, peer) in commands && signalled && ring == !old(signalled)
      ensures old(Valid()) && ring ==> old(commands) == [] && old(ready) == []
    {
      ghost var w := Now();
      commands := commands + [Posted(command, peer)];
      ring := !signalled;
      signalled := true;
      rung := rung || ring;
      if WorldOk(w) {
        StepOk(w, DoPost(command, peer));
        RingsWhenIdle(w, DoPost(command, peer));
      }
      hide BoxesOk;
    }

    method EnqueueMail(id: PeerId, lane: Lane, mail: Message) returns (ring: bool)
      requires id in boxes
      modifies this`boxes, this`ready, this`signalled
      ensures (View(), ring) == Enqueue(old(View()), id, lane, mail)
    {
      var b := boxes[id];
      var q := QueueOf(b, lane);
      if lane == Media && |q.queue| >= MEDIA_QUEUE {
        q := LaneQueue(q.queue[1..], q.bytes - |q.queue[0].body|);
        b := b.(mediaDropped := b.mediaDropped + 1);
      }
      q := LaneQueue(q.queue + [mail], q.bytes + |mail.body|);
      b := b.(lanes := b.lanes[lane := q]);
      if lane != Media {
        b := b.(accepted := b.accepted + 1);
      }
      if !b.listed {
        b := b.(listed := true);
        ready := ready + [id];
      }
      boxes := boxes[id := b];
      ring := !signalled;
      signalled := true;
    }

    method AcceptMail(id: PeerId, lane: Lane, mail: Message) returns (ring: bool)
      requires id in boxes
      modifies this`boxes, this`ready, this`signalled, this`logs, this`rung
      ensures Now() == Accepted(old(Now()), id, lane, mail) && ring == !old(signalled) && signalled
    {
      hide Stored, Noted, LogOf;
      logs := logs[boxes[id].epoch := Noted(LogOf(Now(), boxes[id].epoch), lane, mail)];
      ring := EnqueueMail(id, lane, mail);
      rung := rung || ring;
    }

    method PushMail(id: PeerId, lane: Lane, mail: Message) returns (result: PushResult, ring: bool)
      modifies this`boxes, this`ready, this`signalled, this`logs, this`rung
      ensures result == Refusal(old(View()), id, lane, |mail.body|) && ring == (result == Queued && !old(signalled))
      ensures Now() == Step(old(Now()), DoPush(id, lane, mail)) && (old(Valid()) ==> Valid())
      ensures old(Valid()) ==>
        (result == Queued <==> |mail.body| <= MaxMessageSize(lane) && running && old(TakesIt(Now(), id, lane, |mail.body|)))
    {
      hide Stored, Accepted, WorldOk, RoomFor;
      if WorldOk(Now()) {
        StepOk(Now(), DoPush(id, lane, mail));
        PushLaw(Now(), id, lane, |mail.body|);
      }
      var size := |mail.body|;
      if size > MaxMessageSize(lane) {
        return TooLarge, false;
      }
      if !running {
        return Stopped, false;
      }
      if id !in boxes || boxes[id].isSealed {
        return Closed, false;
      }
      var q := QueueOf(boxes[id], lane);
      if lane != Media && q.queue != [] && q.bytes + size > queueBytes {
        return Full, false;
      }
      ring := AcceptMail(id, lane, mail);
      result := Queued;
    }

    /** The second half of a push that waited for room. */
    method PushAfterWait(id: PeerId, lane: Lane, mail: Message, epoch: nat) returns (result: PushResult, ring: bool)
      modifies this`boxes, this`ready, this`signalled, this`logs, this`rung
      ensures result == LateRefusal(old(View()), id, lane, |mail.body|, epoch) && ring == (result == Queued && !old(signalled))
      ensures Now() == Step(old(Now()), DoPushLate(id, lane, mail, epoch))
      ensures old(Valid() && Allowed(Now(), DoPushLate(id, lane, mail, epoch))) ==> Valid()
      ensures old(Valid()) && lane != Media ==>
        (result == Queued <==> running && old(TakesIt(Now(), id, lane, |mail.body|)) && old(boxes)[id].epoch == epoch)
    {
      hide Stored, Accepted, WorldOk, Allowed, RoomFor;
      ghost var late := DoPushLate(id, lane, mail, epoch);
      if WorldOk(Now()) && Allowed(Now(), late) { StepOk(Now(), late); }
      if WorldOk(Now()) && lane != Media { LatePushLaw(Now(), id, lane, |mail.body|, epoch); }
      if id !in boxes || boxes[id].epoch != epoch || boxes[id].isSealed {
        return Closed, false;
      }
      if !running {
        return Stopped, false;
      }
      var q := QueueOf(boxes[id], lane);
      if q.queue != [] && q.bytes + |mail.body| > queueBytes {
        return Full, false;
      }
      ring := AcceptMail(id, lane, mail);
      result := Queued;
    }

    /** ids: the peers in the order of the map. */
    method PushToEach(ids: seq<PeerId>, lane: Lane, mail: Message) returns (taken: nat, ring: bool)
      modifies this`boxes, this`ready, this`signalled, this`logs, this`rung
      ensures Now() == Step(old(Now()), DoPushToAll(ids, lane, mail)) && (old(Valid()) ==> Valid())
      ensures ring == (signalled && !old(signalled))
      ensures taken == if TooBig(lane, |mail.body|) || !running then 0 else Takers(old(View()), ids, lane, mail)
      ensures old(Valid()) && NoneTwice(ids) && !TooBig(lane, |mail.body|) && running ==>
        taken == |TakersAmong(old(Now()), ids, lane, |mail.body|)|
    {
      hide Stored, WorldOk, Noted, LogOf, TakersAmong, NoneTwice;
      if WorldOk(Now()) { StepOk(Now(), DoPushToAll(ids, lane, mail)); }
      if WorldOk(Now()) && NoneTwice(ids) { TakersCounted(Now(), ids, lane, mail); }
      taken, ring := 0, false;
      ghost var rang := signalled;
      if |mail.body| > MaxMessageSize(lane) || !running {
        return;
      }
      ghost var whole, all := AcceptedByEach(Now(), ids, lane, mail), Takers(View(), ids, lane, mail);
      for i := 0 to |ids|
        invariant AcceptedByEach(Now(), ids[i..], lane, mail) == whole && ring == (signalled && !rang) && (rang ==> signalled)
        invariant taken + Takers(View(), ids[i..], lane, mail) == all
      {
        assert ids[i..][0] == ids[i] && ids[i..][1..] == ids[i + 1..];
        var id := ids[i];
        if id in boxes && !boxes[id].isSealed {
          var q := QueueOf(boxes[id], lane);
          if lane == Media || q.queue == [] || q.bytes + |mail.body| <= queueBytes {
            var rings := AcceptMail(id, lane, mail);
            ring := ring || rings;
            taken := taken + 1;
          }
        }
      }
    }

    /** The ticket stands for the messages of acknowledged lanes the session accepted so far. */
    method BeginFlush(id: PeerId) returns (ticket: Option<Ticket>)
      ensures ticket == TicketFor(View(), id)
      ensures Valid() && ticket.Some? ==> ticket.value.target == |LogOf(Now(), ticket.value.epoch).arrivals|
    {
      if Valid() && id in boxes { TicketTarget(Now(), id); }
      hide WorldOk;
      ticket := if id in boxes then Some(Ticket(id, boxes[id].epoch, boxes[id].accepted)) else None;
    }

    /** Within the session of the ticket, done means that all messages it stands for were acknowledged. */
    method IsFlushed(t: Ticket) returns (done: bool)
      ensures done == Flushed(View(), t)
      ensures Valid() && done && t.peer in boxes && boxes[t.peer].epoch == t.epoch ==> Covers(LogOf(Now(), t.epoch), t.target)
    {
      if Valid() && t.peer in boxes { DoneAt(Now(), t.peer); }
      hide WorldOk, IsAcked;
      done := t.peer !in boxes || boxes[t.peer].epoch != t.epoch || boxes[t.peer].done >= t.target;
    }

    /** From now on every push is refused; what waits on acknowledged lanes stays. */
    method SealBox(id: PeerId) returns (notify: bool)
      modifies this`boxes, this`sessions
      ensures notify == Notifies(old(View()), DoSeal(id))
      ensures Now() == Step(old(Now()), DoSeal(id)) && (old(Valid()) ==> Valid())
      ensures forall lane, size :: Refusal(View(), id, lane, size) != Queued
      ensures id in boxes ==> id in old(boxes) && forall lane :: lane != Media ==>
        QueueOf(boxes[id], lane) == old(QueueOf(boxes[id], lane))
    {
      hide WorldOk, HasRoom;
      if WorldOk(Now()) { StepOk(Now(), DoSeal(id)); }
      if id !in boxes {
        return false;
      }
      notify := true;
      var b := boxes[id].(isSealed := true);
      b := b.(lanes := b.lanes[Media := EMPTY]);
      boxes := boxes[id := b];
      sessions := sessions[id := Pending];
    }

    method DrainWork() returns (work: seq<Posted>, peers: seq<PeerId>)
      modifies this`boxes, this`commands, this`ready, this`signalled, this`rung
      ensures Now() == Step(old(Now()), DoDrain) && (old(Valid()) ==> Valid())
      ensures work == old(commands) && peers == old(ready)
    {
      hide WorldOk;
      if WorldOk(Now()) { StepOk(Now(), DoDrain); }
      work, peers := commands, ready;
      commands, ready := [], [];
      UnlistAll(peers);
      signalled := false;
      rung := false;
    }

    method UnlistAll(ids: seq<PeerId>)
      modifies this`boxes
      ensures boxes == Unlisted(old(boxes), ids)
    {
      ghost var before := boxes;
      for i := 0 to |ids|
        invariant boxes.Keys == before.Keys
        invariant forall id :: id in before ==>
          boxes[id] == if id in ids[..i] then before[id].(listed := false) else before[id]
      {
        assert ids[..i + 1] == ids[..i] + [ids[i]];
        if ids[i] in boxes {
          boxes := boxes[ids[i] := boxes[ids[i]].(listed := false)];
        }
      }
      assert ids[..|ids|] == ids;
      assert boxes == Unlisted(before, ids);
    }

    method TakeMail(id: PeerId, lane: Lane) returns (mail: Option<Message>, notify: bool)
      modifies this`boxes, this`logs
      ensures Now() == Step(old(Now()), DoTake(id, lane)) && mail == Take(old(View()), id, lane).1
      ensures notify == Notifies(old(View()), DoTake(id, lane))
      ensures old(Valid()) ==> Valid()
    {
      hide WorldOk, LogOf, TakenLog;
      if WorldOk(Now()) { StepOk(Now(), DoTake(id, lane)); }
      if id !in boxes {
        return None, false;
      }
      var q := QueueOf(boxes[id], lane);
      if q.queue == [] {
        return None, false;
      }
      logs := logs[boxes[id].epoch := TakenLog(LogOf(Now(), boxes[id].epoch), lane)];
      mail, notify := Some(q.queue[0]), true;
      q := LaneQueue(q.queue[1..], q.bytes - |q.queue[0].body|);
      boxes := boxes[id := boxes[id].(lanes := boxes[id].lanes[lane := q])];
    }

    method SettleBox(id: PeerId) returns (settled: bool, notify: bool)
      modifies this`boxes
      ensures Now() == Step(old(Now()), DoSettle(id)) && settled == Settle(old(View()), id).1
      ensures notify == Notifies(old(View()), DoSettle(id))
      ensures old(Valid() && Allowed(Now(), DoSettle(id))) ==> Valid()
      ensures settled <==>
        id !in old(boxes) || old(QueueOf(boxes[id], Reliable).queue == [] && QueueOf(boxes[id], Bulk).queue == [])
    {
      hide WorldOk, Allowed;
      if WorldOk(Now()) && Allowed(Now(), DoSettle(id)) { StepOk(Now(), DoSettle(id)); }
      if id !in boxes {
        return true, false;
      }
      var b := boxes[id];
      if QueueOf(b, Reliable).queue != [] || QueueOf(b, Bulk).queue != [] {
        return false, false;
      }
      if b.done == b.accepted {
        assert boxes[id := b] == boxes;
        return true, false;
      }
      boxes := boxes[id := b.(done := b.accepted)];
      settled, notify := true, true;
    }

    /** The session is new: whoever waited for one before need not wait any longer, and nothing of it is left. */
    method OpenBox(id: PeerId)
      modifies this`boxes, this`epochs, this`sessions, this`logs
      ensures Now() == Step(old(Now()), DoOpen(id)) && (old(Valid()) ==> Valid())
      ensures forall t: Ticket :: t.peer == id && t.epoch <= old(epochs) ==> Flushed(View(), t)
      ensures running ==> forall lane, size :: Refusal(View(), id, lane, size) == if TooBig(lane, size) then TooLarge else Queued
    {
      hide WorldOk;
      if WorldOk(Now()) { StepOk(Now(), DoOpen(id)); }
      epochs := epochs + 1;
      boxes := boxes[id := Box(map[], 0, 0, epochs, 0, false, false)];
      sessions := sessions[id := Connected];
      logs := logs[epochs := NO_LOG];
    }

    /** Nobody waits for the session any longer, nothing more is taken for it, and the engine is not sent to look at it. */
    method CloseBox(id: PeerId) returns (notify: bool)
      modifies this`boxes, this`sessions, this`ready
      ensures notify == Notifies(old(View()), DoClose(id))
      ensures Now() == Step(old(Now()), DoClose(id)) && (old(Valid()) ==> Valid())
      ensures id !in ready && (forall t: Ticket :: t.peer == id ==> Flushed(View(), t))
      ensures forall lane, size :: Refusal(View(), id, lane, size) != Queued
      ensures forall x :: x != id && x in old(boxes) ==> x in boxes && boxes[x] == old(boxes)[x]
    {
      hide WorldOk, HasRoom;
      if WorldOk(Now()) { StepOk(Now(), DoClose(id)); }
      boxes := boxes - {id};
      sessions := sessions - {id};
      ready := Without(ready, id);
      notify := true;
    }

    /** Whoever sleeps looks again: once stopped, nobody waits any longer. */
    method SetRunningTo(now: bool) returns (notify: bool)
      modifies this`running
      ensures Now() == Step(old(Now()), SetRunning(now)) && (old(Valid()) ==> Valid())
      ensures notify == Notifies(old(View()), SetRunning(now)) && (!now ==> forall x :: Ready(View(), x))
    {
      hide WorldOk;
      if WorldOk(Now()) { StepOk(Now(), SetRunning(now)); }
      running := now;
      notify := true;
    }

    /** Sleepers are not told, not even of more room. */
    method SetQueueBytesTo(bytes: nat) returns (notify: bool)
      modifies this`queueBytes
      ensures Now() == Step(old(Now()), SetQueueBytes(bytes)) && (old(Valid()) ==> Valid())
      ensures notify == Notifies(old(View()), SetQueueBytes(bytes))
    {
      hide WorldOk;
      if WorldOk(Now()) { StepOk(Now(), SetQueueBytes(bytes)); }
      queueBytes := bytes;
      notify := false;
    }
  }

  /** The first messages of the log are acknowledged. */
  ghost predicate Covers(log: Log, n: nat) {
    && n <= |log.arrivals|
    && forall i :: 0 <= i < n && (log.arrivals[i].lane == Reliable || log.arrivals[i].lane == Bulk) ==> IsAcked(log, i)
  }
}
