/** Pushes and flushes that sleep: an action that lets one of them go on wakes it, but for two, and these are named exactly. */
module MailboxWaiting {
  import opened Transport
  import opened Fragments
  import opened Mailbox

  /** Media does not wait for room. */
  predicate MayWait(x: Waiter) { x.ForRoom? ==> x.lane != Media }

  /** The actions that let the waiter go on without waking it: more room by decree, and a session in place of its own. */
  predicate Unheard(m: State, a: Action, x: Waiter) {
    match a
    case SetQueueBytes(bytes) =>
      x.ForRoom? && x.peer in m.boxes && QueueOf(m.boxes[x.peer], x.lane).bytes + x.size <= bytes
    case DoOpen(id) => id == WaitsFor(x)
    case _ => false
  }

  /** A message more leaves whoever waits waiting. */
  lemma EnqueueKeepsWaiting(m: State, id: PeerId, lane: Lane, mail: Message, x: Waiter)
    requires id in m.boxes && MayWait(x) && !Ready(m, x)
    ensures !Ready(Enqueue(m, id, lane, mail).0, x)
  {
    hide RoomMade;
  }

  lemma {:induction false} EachKeepsWaiting(w: World, ids: seq<PeerId>, lane: Lane, mail: Message, x: Waiter)
    requires MayWait(x) && !Ready(w.m, x)
    ensures !Ready(AcceptedByEach(w, ids, lane, mail).m, x)
    decreases |ids|
  {
    hide Ready, Enqueue, TakesAll;
    if ids != [] {
      if TakesAll(w.m, ids[0], lane, |mail.body|) {
        HasBox(w.m, ids[0], lane, |mail.body|);
        EnqueueKeepsWaiting(w.m, ids[0], lane, mail, x);
        EachKeepsWaiting(Accepted(w, ids[0], lane, mail), ids[1..], lane, mail, x);
      } else {
        EachKeepsWaiting(w, ids[1..], lane, mail, x);
      }
    }
  }

  lemma HasBox(m: State, id: PeerId, lane: Lane, size: nat)
    requires TakesAll(m, id, lane, size)
    ensures id in m.boxes
  {
  }

  lemma PushKeepsWaiting(w: World, a: Action, x: Waiter)
    requires MayWait(x) && !Ready(w.m, x) && (a.DoPush? || a.DoPushLate? || a.DoPushToAll?)
    ensures !Ready(Step(w, a).m, x)
  {
    hide Ready, Enqueue, Refusal, LateRefusal;
    match a
    case DoPush(id, lane, mail) =>
      if Refusal(w.m, id, lane, |mail.body|) == Queued {
        QueuedHasBox(w.m, id, lane, |mail.body|);
        EnqueueKeepsWaiting(w.m, id, lane, mail, x);
      }
    case DoPushLate(id, lane, mail, epoch) =>
      if LateRefusal(w.m, id, lane, |mail.body|, epoch) == Queued {
        LateHasBox(w.m, id, lane, |mail.body|, epoch);
        EnqueueKeepsWaiting(w.m, id, lane, mail, x);
      }
    case DoPushToAll(ids, lane, mail) => EachKeepsWaiting(w, ids, lane, mail, x);
  }

  lemma DrainKeepsWaiting(m: State, x: Waiter)
    requires !Ready(m, x)
    ensures !Ready(Drain(m), x)
  {
  }

  lemma OpenFrees(w: World, id: PeerId, x: Waiter)
    requires WorldOk(w) && !Ready(w.m, x)
    ensures Ready(Open(w.m, id), x) <==> id == WaitsFor(x)
  {
    hide WorldOk;
    WaitsInSession(w.m, x);
    TicketTarget(w, WaitsFor(x));
    NewerSession(w.m, id, x);
  }

  lemma WaitsInSession(m: State, x: Waiter)
    requires !Ready(m, x)
    ensures WaitsFor(x) in m.boxes
  {
  }

  lemma NewerSession(m: State, id: PeerId, x: Waiter)
    requires !Ready(m, x) && WaitsFor(x) in m.boxes && m.boxes[WaitsFor(x)].epoch <= m.epochs
    ensures Ready(Open(m, id), x) <==> id == WaitsFor(x)
  {
  }

  /** Of a waiter that may not go on: an action lets it go on without waking it if and only if it is one of the two. */
  lemma WakesExactly(w: World, a: Action, x: Waiter)
    requires WorldOk(w) && MayWait(x) && !Ready(w.m, x)
    ensures Ready(Step(w, a).m, x) && !Notifies(w.m, a) <==> Unheard(w.m, a, x)
  {
    hide WorldOk, Stored, TakenBox, TakenLog, Accepted, AcceptedByEach;
    match a
    case DoPush(_, _, _) => hide Ready; PushKeepsWaiting(w, a, x);
    case DoPushLate(_, _, _, _) => hide Ready; PushKeepsWaiting(w, a, x);
    case DoPushToAll(_, _, _) => hide Ready; PushKeepsWaiting(w, a, x);
    case DoDrain => DrainKeepsWaiting(w.m, x);
    case DoOpen(id) => OpenFrees(w, id, x);
    case DoSettle(id) => SettleWakes(w.m, id, x);
    case DoPost(_, _) =>
    case DoSeal(_) =>
    case DoTake(_, _) =>
    case Acknowledged(_, _, _) =>
    case DoClose(_) =>
    case SetRunning(_) =>
    case SetQueueBytes(_) =>
  }

  lemma SettleWakes(m: State, id: PeerId, x: Waiter)
    requires !Ready(m, x)
    ensures Ready(Settle(m, id).0, x) ==> Notifies(m, DoSettle(id))
  {
    if id in m.boxes && m.boxes[id].done == m.boxes[id].accepted { assert m.boxes[id := m.boxes[id]] == m.boxes; }
  }

  /** Nobody was woken during the run, and no action was one of the two. */
  ghost predicate Undisturbed(w: World, actions: seq<Action>, x: Waiter)
    decreases |actions|
  {
    actions == [] ||
    (&& Allowed(w, actions[0]) && !Notifies(w.m, actions[0]) && !Unheard(w.m, actions[0], x)
     && Undisturbed(Step(w, actions[0]), actions[1..], x))
  }

  /** No wake-up is lost: a thread that looked, found that it has to wait, and was not woken since still has to wait. */
  lemma {:induction false} SleepersWait(w: World, actions: seq<Action>, x: Waiter)
    requires WorldOk(w) && MayWait(x) && !Ready(w.m, x) && Undisturbed(w, actions, x)
    ensures !Ready(Run(w, actions).m, x)
    decreases |actions|
  {
    hide WorldOk, Ready, Step, Allowed, Notifies, Unheard, MayWait;
    if actions != [] {
      WakesExactly(w, actions[0], x);
      StepOk(w, actions[0]);
      SleepersWait(Step(w, actions[0]), actions[1..], x);
    }
  }

  /** A lane without room for a second message, a push that waits there, and the limit that is raised. */
  const FULL_LANE := [SetQueueBytes(0), DoOpen(1), DoPush(1, Bulk, Message(0, [0]))]
  const PUSHING := ForRoom(1, Bulk, 1, 1)

  lemma FullLane()
    ensures var w := Run(START, FULL_LANE);
      && AllAllowed(START, FULL_LANE) && w.m.running && w.m.queueBytes == 0 && 1 in w.m.boxes
      && w.m.boxes[1].epoch == 1 && !w.m.boxes[1].isSealed && QueueOf(w.m.boxes[1], Bulk).queue == [Message(0, [0])]
      && QueueOf(w.m.boxes[1], Bulk).bytes == 1
  {
    var w1 := Step(START, FULL_LANE[0]);
    var w2 := Step(w1, FULL_LANE[1]);
    var w3 := Step(w2, FULL_LANE[2]);
    assert FULL_LANE[1..] == [FULL_LANE[1], FULL_LANE[2]] && FULL_LANE[1..][1..] == [FULL_LANE[2]] && [FULL_LANE[2]][1..] == [];
    assert Run(w3, []) == w3 && Run(w2, [FULL_LANE[2]]) == w3;
    assert AllAllowed(w3, []) && AllAllowed(w2, [FULL_LANE[2]]);
    assert w2.m.boxes[1].lanes == map[] && Refusal(w2.m, 1, Bulk, 1) == Queued;
  }

  /** There would be room, and the push sleeps on until something else wakes it, or its time is up. */
  lemma RaisedLimitUnheard()
    ensures var w := Run(START, FULL_LANE);
      && AllAllowed(START, FULL_LANE) && !Ready(w.m, PUSHING)
      && Ready(Step(w, SetQueueBytes(2)).m, PUSHING) && !Notifies(w.m, SetQueueBytes(2))
  {
    FullLane();
    hide Run, AllAllowed;
  }
}
