/** Who may send next, and how much: tokens that are conserved, and rings that are fair up to a quantum. */
module SendScheduler {
  import opened Transport

  /** The length of a turn. */
  const QUANTUM := 4

  /** The order in which a run serves the lanes. */
  const ORDER := [Control, Media, Reliable, Bulk]

  const MICROS := 1_000_000.0

  /** What a peer's turn gave. */
  datatype Answer =
    | Sent
    | Lost // costs a token and ends the turn
    | Empty // ends the turn and the stay in the ring
    | Blocked // ends the run, not the turn

  datatype Ring = Ring(peers: seq<PeerId>, cursor: nat, used: nat)

  const NO_PEERS := Ring([], 0, 0)

  /** rate in datagrams per second, 0 for unlimited. */
  datatype Scheduler = Scheduler(rate: nat, burst: nat, tokens: real, refilledAt: Option<int>, rings: map<Lane, Ring>)

  function BurstOf(rate: nat): nat { Max(16, rate / 500) }

  function NewScheduler(rate: nat): Scheduler { Scheduler(rate, BurstOf(rate), BurstOf(rate) as real, None, map[]) }

  function RingOf(s: Scheduler, lane: Lane): Ring { if lane in s.rings then s.rings[lane] else NO_PEERS }

  function WithRing(s: Scheduler, lane: Lane, r: Ring): Scheduler { s.(rings := s.rings[lane := r]) }

  predicate HasTokens(s: Scheduler) { s.rate == 0 || s.tokens >= 1.0 }

  // --- The bucket --------------------------------------------------------------------------

  function Credit(rate: nat, from: int, to: int): real { rate as real * ((to - from) as real / MICROS) }

  function Refill(s: Scheduler, now: int): Scheduler {
    if s.refilledAt.Some? && now > s.refilledAt.value then
      var full := s.tokens + Credit(s.rate, s.refilledAt.value, now);
      s.(tokens := if full < s.burst as real then full else s.burst as real, refilledAt := Some(now))
    else s.(refilledAt := Some(now))
  }

  /** No check: tokens can get negative. */
  function Spend(s: Scheduler, datagrams: nat): Scheduler {
    if s.rate == 0 then s else s.(tokens := s.tokens - datagrams as real)
  }

  // --- The rings ---------------------------------------------------------------------------

  function Add(s: Scheduler, lane: Lane, peer: PeerId): Scheduler {
    WithRing(s, lane, Joined(RingOf(s, lane), peer))
  }

  function Joined(r: Ring, peer: PeerId): Ring { r.(peers := r.peers + [peer]) }

  /** The first place of the peer, or the end. */
  function PlaceOf(peers: seq<PeerId>, peer: PeerId): (i: nat)
    ensures i <= |peers| && (i < |peers| ==> peers[i] == peer) && (i == |peers| <==> peer !in peers)
  {
    if peers == [] || peers[0] == peer then 0 else 1 + PlaceOf(peers[1..], peer)
  }

  function Erased(peers: seq<PeerId>, i: nat): seq<PeerId>
    requires i < |peers|
  {
    peers[..i] + peers[i + 1..]
  }

  function Left(r: Ring, peer: PeerId): Ring {
    var i := PlaceOf(r.peers, peer);
    if i == |r.peers| then r
    else r.(peers := Erased(r.peers, i), cursor := if i < r.cursor then r.cursor - 1 else r.cursor)
  }

  function Remove(s: Scheduler, peer: PeerId): Scheduler {
    s.(rings := map lane | lane in s.rings :: Left(s.rings[lane], peer))
  }

  function Wrapped(r: Ring): Ring { if r.cursor >= |r.peers| then r.(cursor := 0) else r }

  function Next(r: Ring): Ring { r.(cursor := r.cursor + 1, used := 0) }

  /** The ring after the peer whose turn it is answered. */
  function Turned(r: Ring, a: Answer): Ring
    requires r.cursor < |r.peers|
  {
    match a
    case Sent => if r.used + 1 >= QUANTUM then Next(r) else r.(used := r.used + 1)
    case Lost => Next(r)
    case Empty => r.(peers := Erased(r.peers, r.cursor), used := 0)
    case Blocked => r
  }

  // --- A run -------------------------------------------------------------------------------

  datatype Turn = Turn(lane: Lane, peer: PeerId, answer: Answer)

  predicate Costs(a: Answer) { a == Sent || a == Lost }

  predicate Capped(s: Scheduler, lane: Lane) { lane == Media && s.rate != 0 }

  /** A run on its way: what is left to Media, the answers still to come, and the turns so far. */
  datatype Progress = Progress(s: Scheduler, allowance: real, answers: seq<Answer>, stopped: bool, log: seq<Turn>)

  predicate MayServe(p: Progress, lane: Lane) {
    !p.stopped && RingOf(p.s, lane).peers != [] && HasTokens(p.s) && (Capped(p.s, lane) ==> p.allowance >= 1.0)
  }

  function TakeTurn(p: Progress, lane: Lane): Progress
    requires MayServe(p, lane) && p.answers != []
  {
    var r, a := Wrapped(RingOf(p.s, lane)), p.answers[0];
    var s := WithRing(p.s, lane, Turned(r, a));
    Progress(if Costs(a) then Spend(s, 1) else s,
             if Costs(a) && Capped(p.s, lane) then p.allowance - 1.0 else p.allowance,
             p.answers[1..], a == Blocked, p.log + [Turn(lane, r.peers[r.cursor], a)])
  }

  /** Answers that end early stand for a socket that takes nothing anymore. */
  function ServeLane(p: Progress, lane: Lane): Progress
    decreases |p.answers|
  {
    if !MayServe(p, lane) then p
    else if p.answers == [] then p.(stopped := true)
    else ServeLane(TakeTurn(p, lane), lane)
  }

  function Allowance(s: Scheduler): real {
    if RingOf(s, Reliable).peers != [] || RingOf(s, Bulk).peers != [] then s.tokens * 3.0 / 4.0 else s.tokens
  }

  function Begin(s: Scheduler, answers: seq<Answer>): Progress { Progress(s, Allowance(s), answers, false, []) }

  /** The lanes one after the other, each until it may not be served any longer. */
  function Run(s: Scheduler, answers: seq<Answer>): Progress {
    ServeLane(ServeLane(ServeLane(ServeLane(Begin(s, answers), Control), Media), Reliable), Bulk)
  }

  // --- Histories ---------------------------------------------------------------------------

  datatype Op =
    | Refilling(now: int)
    | Spending(datagrams: nat)
    | Adding(lane: Lane, peer: PeerId)
    | Removing(peer: PeerId)
    | Running(answers: seq<Answer>)

  function Step(s: Scheduler, op: Op): Scheduler {
    match op
    case Refilling(now) => Refill(s, now)
    case Spending(n) => Spend(s, n)
    case Adding(lane, peer) => Add(s, lane, peer)
    case Removing(peer) => Remove(s, peer)
    case Running(answers) => Run(s, answers).s
  }

  function Steps(s: Scheduler, ops: seq<Op>): Scheduler
    decreases |ops|
  {
    if ops == [] then s else Steps(Step(s, ops[0]), ops[1..])
  }

  // --- Token conservation ------------------------------------------------------------------

  function CountCosts(log: seq<Turn>): nat {
    if log == [] then 0 else CountCosts(log[..|log| - 1]) + (if Costs(log[|log| - 1].answer) then 1 else 0)
  }

  /** Datagrams of one lane among the turns. */
  function CountLane(log: seq<Turn>, lane: Lane): nat {
    if log == [] then 0
    else CountLane(log[..|log| - 1], lane) + (if log[|log| - 1].lane == lane && Costs(log[|log| - 1].answer) then 1 else 0)
  }

  function SpentBy(s: Scheduler, op: Op): nat {
    match op
    case Spending(n) => n
    case Running(answers) => CountCosts(Run(s, answers).log)
    case _ => 0
  }

  function TotalSpent(s: Scheduler, ops: seq<Op>): nat
    decreases |ops|
  {
    if ops == [] then 0 else SpentBy(s, ops[0]) + TotalSpent(Step(s, ops[0]), ops[1..])
  }

  ghost predicate Within(s: Scheduler) { s.tokens <= s.burst as real }

  /** The budget is what it was, less what was spent; and never goes below zero in a run. */
  ghost predicate Accounted(s: Scheduler, p: Progress) {
    && p.s.rate == s.rate && p.s.burst == s.burst && p.s.refilledAt == s.refilledAt
    && (s.rate == 0 ==> p.s.tokens == s.tokens)
    && (s.rate != 0 ==> p.s.tokens == s.tokens - CountCosts(p.log) as real)
    && (p.s.tokens == s.tokens || p.s.tokens >= 0.0)
  }

  lemma TurnAccounts(s: Scheduler, p: Progress, lane: Lane)
    requires Accounted(s, p) && MayServe(p, lane) && p.answers != []
    ensures Accounted(s, TakeTurn(p, lane))
  {
    var p' := TakeTurn(p, lane);
    assert p'.log[..|p'.log| - 1] == p.log;
  }

  lemma {:induction false} ServeAccounts(s: Scheduler, p: Progress, lane: Lane)
    requires Accounted(s, p)
    ensures Accounted(s, ServeLane(p, lane))
    decreases |p.answers|
  {
    if MayServe(p, lane) && p.answers != [] {
      TurnAccounts(s, p, lane);
      ServeAccounts(s, TakeTurn(p, lane), lane);
    }
  }

  /** A run spends what its turns cost, and takes the budget below zero in no turn. */
  lemma RunAccounts(s: Scheduler, answers: seq<Answer>)
    ensures Accounted(s, Run(s, answers))
  {
    var p := Begin(s, answers);
    ServeAccounts(s, p, Control);
    ServeAccounts(s, ServeLane(p, Control), Media);
    ServeAccounts(s, ServeLane(ServeLane(p, Control), Media), Reliable);
    ServeAccounts(s, ServeLane(ServeLane(ServeLane(p, Control), Media), Reliable), Bulk);
  }

  /** What Media took so far, and what is left to it. */
  ghost predicate MediaWithin(s: Scheduler, p: Progress) {
    && p.s.rate == s.rate
    && (CountLane(p.log, Media) == 0 ==> p.allowance == Allowance(s))
    && (CountLane(p.log, Media) > 0 ==> p.allowance >= 0.0 && CountLane(p.log, Media) as real + p.allowance == Allowance(s))
  }

  lemma TurnMedia(s: Scheduler, p: Progress, lane: Lane)
    requires s.rate != 0 && MediaWithin(s, p) && MayServe(p, lane) && p.answers != []
    ensures MediaWithin(s, TakeTurn(p, lane))
  {
    var p' := TakeTurn(p, lane);
    assert p'.log[..|p'.log| - 1] == p.log;
  }

  lemma {:induction false} ServeMedia(s: Scheduler, p: Progress, lane: Lane)
    requires s.rate != 0 && MediaWithin(s, p)
    ensures MediaWithin(s, ServeLane(p, lane))
    decreases |p.answers|
  {
    if MayServe(p, lane) && p.answers != [] {
      TurnMedia(s, p, lane);
      ServeMedia(s, TakeTurn(p, lane), lane);
    }
  }

  lemma RunMedia(s: Scheduler, answers: seq<Answer>)
    requires s.rate != 0
    ensures MediaWithin(s, Run(s, answers))
  {
    hide ServeLane, MediaWithin;
    var p := Begin(s, answers);
    assert MediaWithin(s, p) by { BeginMedia(s, answers); }
    ServeMedia(s, p, Control);
    ServeMedia(s, ServeLane(p, Control), Media);
    ServeMedia(s, ServeLane(ServeLane(p, Control), Media), Reliable);
    ServeMedia(s, ServeLane(ServeLane(ServeLane(p, Control), Media), Reliable), Bulk);
  }

  lemma BeginMedia(s: Scheduler, answers: seq<Answer>)
    ensures MediaWithin(s, Begin(s, answers))
  {
  }

  /** Media gets at most three quarters of the tokens of a run in which Reliable or Bulk wait. */
  lemma MediaShare(s: Scheduler, answers: seq<Answer>)
    requires s.rate != 0 && CountLane(Run(s, answers).log, Media) > 0
    ensures CountLane(Run(s, answers).log, Media) as real <= s.tokens
    ensures RingOf(s, Reliable).peers != [] || RingOf(s, Bulk).peers != [] ==>
      CountLane(Run(s, answers).log, Media) as real <= s.tokens * 3.0 / 4.0
  {
    RunMedia(s, answers);
    var taken := CountLane(Run(s, answers).log, Media) as real;
    assert taken <= Allowance(s) && taken >= 1.0;
  }

  /** Time does not run backwards, from one refill to the next. */
  ghost predicate Forward(clock: Option<int>, ops: seq<Op>)
    decreases |ops|
  {
    ops == [] ||
      if ops[0].Refilling? then
        (clock.Some? ==> clock.value <= ops[0].now) && Forward(Some(ops[0].now), ops[1..])
      else Forward(clock, ops[1..])
  }

  lemma CreditAdds(rate: nat, a: int, b: int, c: int)
    ensures Credit(rate, a, b) + Credit(rate, b, c) == Credit(rate, a, c)
  {
    assert (b - a) as real / MICROS + (c - b) as real / MICROS == (c - a) as real / MICROS;
  }

  lemma CreditGrows(rate: nat, a: int, b: int)
    requires a <= b
    ensures Credit(rate, a, b) >= 0.0
  {
  }

  /** The bucket earns from the first refill on. */
  ghost function Since(clock: Option<int>, ops: seq<Op>): Option<int>
    decreases |ops|
  {
    if clock.Some? || ops == [] then clock
    else if ops[0].Refilling? then Some(ops[0].now)
    else Since(None, ops[1..])
  }

  ghost function Earned(rate: nat, since: Option<int>, now: Option<int>): real {
    if since.Some? && now.Some? then Credit(rate, since.value, now.value) else 0.0
  }

  ghost predicate Conserved(s: Scheduler, since: Option<int>, spent: nat, s': Scheduler) {
    && s'.rate == s.rate && s'.burst == s.burst && Within(s')
    && (since.Some? <==> s'.refilledAt.Some?) && (since.Some? ==> since.value <= s'.refilledAt.value)
    && (s.rate != 0 ==> spent as real + s'.tokens <= s.tokens + Earned(s.rate, since, s'.refilledAt))
    && (s.rate != 0 ==> spent as real + s'.tokens >= AtMost(s.tokens + Earned(s.rate, since, s'.refilledAt), s.burst))
  }

  ghost function AtMost(tokens: real, burst: nat): real { if tokens < burst as real then tokens else burst as real }

  /** A refill earns the rate times the time since the last one, up to the burst; the first one only starts the clock. */
  lemma RefillLaw(s: Scheduler, now: int)
    ensures var s' := Refill(s, now);
      && s' == s.(tokens := s'.tokens, refilledAt := Some(now))
      && s'.tokens == if s.refilledAt.None? || now <= s.refilledAt.value then s.tokens
                      else AtMost(s.tokens + s.rate as real * (now - s.refilledAt.value) as real / 1_000_000.0, s.burst)
  {
  }

  lemma StepConserves(s: Scheduler, op: Op)
    requires Within(s) && Forward(s.refilledAt, [op])
    ensures Conserved(s, Since(s.refilledAt, [op]), SpentBy(s, op), Step(s, op))
  {
    assert [op][1..] == [];
    if s.refilledAt.Some? { CreditGrows(s.rate, s.refilledAt.value, s.refilledAt.value); }
    match op
    case Refilling(now) =>
      CreditGrows(s.rate, now, now);
      if s.refilledAt.Some? { CreditGrows(s.rate, s.refilledAt.value, now); }
    case Running(answers) => RunAccounts(s, answers);
    case _ =>
  }

  /** Over any history the bucket hands out no more than it held and earned, and keeps all of that up to its burst:
      min(tokens + rate * elapsed, burst) <= spent + tokens left <= tokens + rate * elapsed,
      where the time before the first refill earns nothing. */
  lemma {:induction false} TokensConserved(s: Scheduler, ops: seq<Op>)
    requires Within(s) && Forward(s.refilledAt, ops)
    ensures Conserved(s, Since(s.refilledAt, ops), TotalSpent(s, ops), Steps(s, ops))
    decreases |ops|
  {
    if ops == [] {
      if s.refilledAt.Some? { CreditGrows(s.rate, s.refilledAt.value, s.refilledAt.value); }
    } else {
      var s1, op := Step(s, ops[0]), ops[0];
      assert [op][1..] == [];
      StepConserves(s, op);
      ForwardFrom(s, ops);
      TokensConserved(s1, ops[1..]);
      EarnedAdds(s.rate, Since(s.refilledAt, [op]), s1.refilledAt, Since(s1.refilledAt, ops[1..]), Steps(s, ops).refilledAt);
      assert Since(s.refilledAt, ops) == if s1.refilledAt.Some? then Since(s.refilledAt, [op]) else Since(None, ops[1..]);
      var from, to := Since(s1.refilledAt, ops[1..]), Steps(s, ops).refilledAt;
      if from.Some? && to.Some? { CreditGrows(s.rate, from.value, to.value); }
      hide Forward, Step, SpentBy, Credit;
    }
  }

  lemma EarnedAdds(rate: nat, a: Option<int>, b: Option<int>, c: Option<int>, d: Option<int>)
    requires (a.Some? <==> b.Some?) && (b.Some? ==> c == b) && (c.Some? <==> d.Some?)
    ensures Earned(rate, a, b) + Earned(rate, c, d) == Earned(rate, if a.Some? then a else c, d)
  {
    if a.Some? { CreditAdds(rate, a.value, b.value, d.value); }
  }

  lemma ForwardFrom(s: Scheduler, ops: seq<Op>)
    requires ops != [] && Forward(s.refilledAt, ops)
    ensures Forward(Step(s, ops[0]).refilledAt, ops[1..])
    ensures Step(s, ops[0]).refilledAt.Some? <==> s.refilledAt.Some? || ops[0].Refilling?
  {
    if ops[0].Running? { RunAccounts(s, ops[0].answers); }
  }

  /** A new scheduler has sent, at any time, at most its burst and the rate times the time since its first refill, and has
      what it did not send of its burst. */
  lemma NewConserves(rate: nat, ops: seq<Op>)
    requires rate != 0 && Forward(None, ops)
    ensures var s, since := Steps(NewScheduler(rate), ops), Since(None, ops);
      && TotalSpent(NewScheduler(rate), ops) as real + s.tokens <= BurstOf(rate) as real + Earned(rate, since, s.refilledAt)
      && TotalSpent(NewScheduler(rate), ops) as real + s.tokens >= BurstOf(rate) as real
  {
    hide Steps, TotalSpent, Since, Forward, Credit;
    TokensConserved(NewScheduler(rate), ops);
    var since, now := Since(None, ops), Steps(NewScheduler(rate), ops).refilledAt;
    if since.Some? { CreditGrows(rate, since.value, now.value); }
  }

  /** Once enough time passed for what is missing to a token, the bucket has one again, if nothing was spent. */
  lemma TokensReturn(s: Scheduler, ops: seq<Op>)
    requires s.rate != 0 && s.burst >= 1 && Within(s) && Forward(s.refilledAt, ops) && TotalSpent(s, ops) == 0
    requires s.refilledAt.Some? && Steps(s, ops).refilledAt.Some?
    requires s.rate as real * (Steps(s, ops).refilledAt.value - s.refilledAt.value) as real >= (1.0 - s.tokens) * 1_000_000.0
    ensures HasTokens(Steps(s, ops))
  {
    hide Steps, TotalSpent, Forward, Since, Credit;
    TokensConserved(s, ops);
    StartedBefore(s.refilledAt, ops);
    EnoughCredit(s.rate, s.refilledAt.value, Steps(s, ops).refilledAt.value, 1.0 - s.tokens);
  }

  lemma StartedBefore(clock: Option<int>, ops: seq<Op>)
    requires clock.Some?
    ensures Since(clock, ops) == clock
  {
  }

  lemma EnoughCredit(rate: nat, from: int, to: int, missing: real)
    requires rate as real * (to - from) as real >= missing * 1_000_000.0
    ensures Credit(rate, from, to) >= missing
  {
  }

  /** A new bucket is full, and holds what the rate earns in two milliseconds, but not less than 16. */
  lemma NewLaw(rate: nat)
    ensures var s := NewScheduler(rate);
      && s.rate == rate && s.tokens == s.burst as real && s.refilledAt.None? && s.rings == map[]
      && s.burst >= 16 && rate < 500 * (s.burst + 1) && (s.burst > 16 ==> 500 * s.burst <= rate)
  {
  }

  // --- What a run leaves behind --------------------------------------------------------------

  /** Nothing of the lane waits, or nothing may go out. */
  ghost predicate Spared(p: Progress, lane: Lane) {
    p.stopped || !HasTokens(p.s) || RingOf(p.s, lane).peers == [] || (Capped(p.s, lane) && p.allowance < 1.0)
  }

  lemma {:induction false} ServeSpares(p: Progress, lane: Lane)
    ensures Spared(ServeLane(p, lane), lane)
    decreases |p.answers|
  {
    if MayServe(p, lane) && p.answers != [] { ServeSpares(TakeTurn(p, lane), lane); }
  }

  lemma {:induction false} StaysSpared(p: Progress, other: Lane, lane: Lane)
    requires Spared(p, other) && other != lane
    ensures Spared(ServeLane(p, lane), other)
    decreases |p.answers|
  {
    if MayServe(p, lane) && p.answers != [] { StaysSpared(TakeTurn(p, lane), other, lane); }
  }

  /** A run wastes no budget: it ends with the socket blocked, the tokens gone unless they are unlimited, or nothing waiting but
      capped Media. */
  lemma RunIsThorough(s: Scheduler, answers: seq<Answer>)
    ensures var p := Run(s, answers);
      || p.stopped || (s.rate != 0 && p.s.tokens < 1.0)
      || (forall lane :: RingOf(p.s, lane).peers == [] || (lane == Media && s.rate != 0 && p.allowance < 1.0))
  {
    var p1 := ServeLane(Begin(s, answers), Control);
    var p2 := ServeLane(p1, Media);
    var p3 := ServeLane(p2, Reliable);
    ServeSpares(Begin(s, answers), Control);
    ServeSpares(p1, Media);
    ServeSpares(p2, Reliable);
    ServeSpares(p3, Bulk);
    StaysSpared(p1, Control, Media);
    StaysSpared(p2, Control, Reliable);
    StaysSpared(p3, Control, Bulk);
    StaysSpared(p2, Media, Reliable);
    StaysSpared(p3, Media, Bulk);
    StaysSpared(p3, Reliable, Bulk);
    RunAccounts(s, answers);
    var p := Run(s, answers);
    if !p.stopped && HasTokens(p.s) {
      forall lane
        ensures RingOf(p.s, lane).peers == [] || (lane == Media && s.rate != 0 && p.allowance < 1.0)
      {
        assert lane == Control || lane == Media || lane == Reliable || lane == Bulk;
      }
    }
  }

  /** Media that is left waiting while there are tokens got its share, up to a datagram: three quarters of the tokens if Reliable
      or Bulk waited too, and all of them otherwise. */
  lemma MediaGetsShare(s: Scheduler, answers: seq<Answer>)
    requires s.rate != 0
    requires var p := Run(s, answers); !p.stopped && HasTokens(p.s) && RingOf(p.s, Media).peers != []
    ensures CountLane(Run(s, answers).log, Media) as real >
      (if RingOf(s, Reliable).peers != [] || RingOf(s, Bulk).peers != [] then s.tokens * 3.0 / 4.0 else s.tokens) - 1.0
  {
    hide ServeLane;
    RunIsThorough(s, answers);
    RunMedia(s, answers);
  }

  /** A datagram costs a token, whether it was sent or lost; so does one of Media of what is left to it. */
  lemma CostLaw(p: Progress, lane: Lane)
    requires MayServe(p, lane) && p.answers != []
    ensures var p', paid := TakeTurn(p, lane), if p.answers[0] == Sent || p.answers[0] == Lost then 1.0 else 0.0;
      && p'.s.tokens == (if p.s.rate == 0 then p.s.tokens else p.s.tokens - paid)
      && p'.allowance == (if p.s.rate != 0 && lane == Media then p.allowance - paid else p.allowance)
      && (p'.stopped <==> p.answers[0] == Blocked)
  {
    hide Turned, Wrapped;
  }

  // --- Turns -------------------------------------------------------------------------------

  function OnTurn(r: Ring): PeerId
    requires r.peers != []
  {
    r.peers[Wrapped(r).cursor]
  }

  /** The peer whose turn comes next. */
  function Following(r: Ring): PeerId
    requires r.peers != []
  {
    r.peers[if Wrapped(r).cursor + 1 < |r.peers| then Wrapped(r).cursor + 1 else 0]
  }

  /** A turn is four datagrams, and ends early with a lost one or when the peer has nothing left, which leaves the ring. */
  lemma TurnLaw(r: Ring, answer: Answer)
    requires r.peers != [] && r.used < 4
    ensures Wrapped(r).cursor < |Wrapped(r).peers|
    ensures var r' := Turned(Wrapped(r), answer);
      match answer
      case Blocked => r'.peers == r.peers && OnTurn(r') == OnTurn(r) && r'.used == r.used
      case Sent =>
        && r'.peers == r.peers
        && if r.used == 3 then OnTurn(r') == Following(r) && r'.used == 0 else OnTurn(r') == OnTurn(r) && r'.used == r.used + 1
      case Lost => r'.peers == r.peers && OnTurn(r') == Following(r) && r'.used == 0
      case Empty =>
        var i := Wrapped(r).cursor;
        r'.peers == r.peers[..i] + r.peers[i + 1..] && r'.used == 0 && (r'.peers != [] ==> OnTurn(r') == Following(r))
  {
  }

  // --- Fairness ----------------------------------------------------------------------------

  /** How many places the turn has to move to get to place i, of n places. */
  ghost function Distance(n: nat, cursor: nat, i: nat): int { if i >= cursor then i - cursor else i + n - cursor }

  ghost predicate NoneTwice(peers: seq<PeerId>) { forall i, j :: 0 <= i < j < |peers| ==> peers[i] != peers[j] }

  ghost predicate RingOk(r: Ring) {
    NoneTwice(r.peers) && r.cursor <= |r.peers| && r.used < QUANTUM
  }

  /** How much further the peer at place i is ahead of the one at place j than when its turn came: it gains a quantum, and
      the other one makes up for it. */
  ghost function LeadAt(n: nat, cursor: nat, used: nat, i: nat, j: nat): int {
    if Distance(n, cursor, i) < Distance(n, cursor, j) then if i == cursor then used else 0
    else if j == cursor then QUANTUM - used else QUANTUM
  }

  /** Read off the ring as the next turn finds it. */
  ghost function Lead(r: Ring, a: PeerId, b: PeerId): int {
    LeadAt(|r.peers|, Wrapped(r).cursor, r.used, PlaceOf(r.peers, a), PlaceOf(r.peers, b))
  }

  ghost predicate Both(r: Ring, a: PeerId, b: PeerId) { RingOk(r) && a != b && a in r.peers && b in r.peers }

  /** Served counts once more. */
  function CountPeer(log: seq<Turn>, lane: Lane, peer: PeerId): nat {
    if log == [] then 0
    else
      var t := log[|log| - 1];
      CountPeer(log[..|log| - 1], lane, peer) + (if t.lane == lane && t.peer == peer && Costs(t.answer) then 1 else 0)
  }

  lemma PlaceIs(peers: seq<PeerId>, peer: PeerId, i: nat)
    requires NoneTwice(peers) && i < |peers| && peers[i] == peer
    ensures PlaceOf(peers, peer) == i
  {
  }

  function Delta(t: PeerId, a: PeerId, b: PeerId): int { if t == a then 1 else if t == b then -1 else 0 }

  lemma WrapKeeps(r: Ring, a: PeerId, b: PeerId)
    requires Both(r, a, b)
    ensures Both(Wrapped(r), a, b) && Lead(Wrapped(r), a, b) == Lead(r, a, b)
  {
  }

  lemma LeadAfterSent(n: nat, cursor: nat, used: nat, i: nat, j: nat)
    requires i < n && j < n && cursor < n && i != j && used < QUANTUM
    ensures used + 1 < QUANTUM ==> LeadAt(n, cursor, used + 1, i, j) == LeadAt(n, cursor, used, i, j) + Delta(cursor, i, j)
    ensures used + 1 == QUANTUM ==>
      LeadAt(n, if cursor + 1 < n then cursor + 1 else 0, 0, i, j) == LeadAt(n, cursor, used, i, j) + Delta(cursor, i, j)
  {
  }

  lemma SentKeeps(r: Ring, a: PeerId, b: PeerId)
    requires Both(r, a, b) && r.cursor < |r.peers|
    ensures Both(Turned(r, Sent), a, b)
    ensures Lead(Turned(r, Sent), a, b) == Lead(r, a, b) + Delta(r.peers[r.cursor], a, b)
  {
    hide NoneTwice, PlaceOf, LeadAt, Erased;
    PlaceIs(r.peers, r.peers[r.cursor], r.cursor);
    LeadAfterSent(|r.peers|, r.cursor, r.used, PlaceOf(r.peers, a), PlaceOf(r.peers, b));
  }

  lemma LostKeeps(r: Ring, a: PeerId, b: PeerId)
    requires Both(r, a, b) && r.cursor < |r.peers| && r.peers[r.cursor] != a && r.peers[r.cursor] != b
    ensures Both(Turned(r, Lost), a, b) && Lead(Turned(r, Lost), a, b) == Lead(r, a, b)
  {
    PlaceIs(r.peers, r.peers[r.cursor], r.cursor);
  }

  lemma ErasedPlaces(peers: seq<PeerId>, i: nat, peer: PeerId)
    requires NoneTwice(peers) && i < |peers| && peer in peers && peers[i] != peer
    ensures NoneTwice(Erased(peers, i)) && peer in Erased(peers, i)
    ensures PlaceOf(Erased(peers, i), peer) == PlaceOf(peers, peer) - (if PlaceOf(peers, peer) > i then 1 else 0)
  {
    var k := PlaceOf(peers, peer);
    var k' := if k > i then k - 1 else k;
    assert Erased(peers, i)[k'] == peer;
    PlaceIs(Erased(peers, i), peer, k');
  }

  ghost function Shifted(i: nat, k: nat): int { if i > k then i - 1 else i }

  lemma LeadAfterErase(n: nat, cursor: nat, used: nat, i: nat, j: nat, k: nat)
    requires i < n && j < n && k < n && i != j && i != k && j != k && cursor <= n
    ensures k != cursor ==>
      LeadAt(n - 1, Shifted(cursor, k), used, Shifted(i, k), Shifted(j, k)) == LeadAt(n, cursor, used, i, j)
    ensures k == cursor ==> LeadAt(n - 1, cursor, 0, Shifted(i, k), Shifted(j, k)) == LeadAt(n, cursor, used, i, j)
  {
  }

  lemma EmptyKeeps(r: Ring, a: PeerId, b: PeerId)
    requires Both(r, a, b) && r.cursor < |r.peers| && r.peers[r.cursor] != a && r.peers[r.cursor] != b
    ensures Both(Turned(r, Empty), a, b) && Lead(Turned(r, Empty), a, b) == Lead(r, a, b)
  {
    hide NoneTwice, Erased, PlaceOf;
    var i, j := PlaceOf(r.peers, a), PlaceOf(r.peers, b);
    ErasedPlaces(r.peers, r.cursor, a);
    ErasedPlaces(r.peers, r.cursor, b);
    ErasedSize(r.peers, r.cursor);
    LeadAfterErase(|r.peers|, r.cursor, r.used, i, j, r.cursor);
  }

  lemma ErasedSize(peers: seq<PeerId>, i: nat)
    requires i < |peers|
    ensures |Erased(peers, i)| == |peers| - 1
  {
  }

  // Part of a turn in other hands

  /** The peer is in the middle of its turn. */
  predicate MidTurn(r: Ring, peer: PeerId) { r.cursor < |r.peers| && r.peers[r.cursor] == peer && r.used > 0 }

  /** The last peer of the ring was removed in the middle of its turn, and nobody had a turn since. */
  predicate Open(r: Ring) { r.cursor == |r.peers| > 0 && r.used > 0 }

  /** A started turn goes to that peer: it begins with as much used up. */
  ghost function Handed(next: PeerId, a: PeerId, b: PeerId, used: int): int {
    if next == a then used else if next == b then -used else 0
  }

  /** What one peer gets of a turn that another one began. A removal leaves it to the one that follows; one that joins behind
      an open turn takes it from the first of the ring. */
  ghost function HandedBy(s: Scheduler, op: Op, lane: Lane, a: PeerId, b: PeerId): int {
    var r := RingOf(s, lane);
    match op
    case Removing(peer) => if MidTurn(Wrapped(r), peer) then Handed(Following(r), a, b, r.used) else 0
    case Adding(l, peer) => if l == lane && Open(r) then -Handed(r.peers[0], a, b, r.used) else 0
    case _ => 0
  }

  lemma LeadAfterJoin(n: nat, used: nat, i: nat, j: nat)
    requires i < n && j < n && i != j
    ensures LeadAt(n + 1, n, used, i, j) == LeadAt(n, 0, used, i, j) - Handed(0, i, j, used)
  {
  }

  lemma JoinedPlace(peers: seq<PeerId>, peer: PeerId, x: PeerId)
    requires NoneTwice(peers) && peer !in peers && x in peers
    ensures NoneTwice(peers + [peer]) && x in peers + [peer] && PlaceOf(peers + [peer], x) == PlaceOf(peers, x)
  {
    PlaceIs(peers + [peer], x, PlaceOf(peers, x));
  }

  lemma JoinShifts(r: Ring, a: PeerId, b: PeerId, peer: PeerId)
    requires Both(r, a, b) && peer !in r.peers
    ensures Both(Joined(r, peer), a, b)
    ensures Lead(Joined(r, peer), a, b) == Lead(r, a, b) - (if Open(r) then Handed(r.peers[0], a, b, r.used) else 0)
  {
    hide NoneTwice, PlaceOf;
    JoinedPlace(r.peers, peer, a);
    JoinedPlace(r.peers, peer, b);
    if r.cursor == |r.peers| {
      LeadAfterJoin(|r.peers|, r.used, PlaceOf(r.peers, a), PlaceOf(r.peers, b));
      FirstPlace(r.peers, a);
      FirstPlace(r.peers, b);
    }
  }

  lemma FirstPlace(peers: seq<PeerId>, peer: PeerId)
    requires peer in peers
    ensures PlaceOf(peers, peer) == 0 <==> peers[0] == peer
  {
  }

  lemma WrappedLeaves(r: Ring, peer: PeerId)
    requires RingOk(r) && r.peers != []
    ensures Wrapped(Left(Wrapped(r), peer)) == Wrapped(Left(r, peer))
  {
  }

  lemma LeaveKeeps(r: Ring, a: PeerId, b: PeerId, peer: PeerId)
    requires Both(r, a, b) && r.cursor < |r.peers| && peer != a && peer != b && !MidTurn(r, peer)
    ensures Lead(Left(r, peer), a, b) == Lead(r, a, b)
  {
    hide NoneTwice, Erased, PlaceOf, LeadAt;
    var k := PlaceOf(r.peers, peer);
    if k < |r.peers| {
      var i, j, r' := PlaceOf(r.peers, a), PlaceOf(r.peers, b), Left(r, peer);
      ErasedPlaces(r.peers, k, a);
      ErasedPlaces(r.peers, k, b);
      ErasedSize(r.peers, k);
      LeadAfterErase(|r.peers|, r.cursor, r.used, i, j, k);
      WrapIsFree(|r'.peers|, Shifted(i, k), Shifted(j, k));
      assert r'.cursor == Shifted(r.cursor, k) && |r'.peers| == |r.peers| - 1;
      assert PlaceOf(r'.peers, a) == Shifted(i, k) && PlaceOf(r'.peers, b) == Shifted(j, k);
      assert k == r.cursor ==> r.used == 0;
    }
  }

  lemma WrapIsFree(n: nat, i: nat, j: nat)
    requires i < n && j < n
    ensures LeadAt(n, n, 0, i, j) == LeadAt(n, 0, 0, i, j)
  {
  }

  lemma LeadAfterCut(n: nat, cursor: nat, used: nat, i: nat, j: nat)
    requires i < n && j < n && cursor < n && i != j && i != cursor && j != cursor
    ensures LeadAt(n - 1, if cursor + 1 < n then cursor else 0, used, Shifted(i, cursor), Shifted(j, cursor))
         == LeadAt(n, cursor, used, i, j) + Handed(if cursor + 1 < n then cursor + 1 else 0, i, j, used)
  {
  }

  /** A peer that is removed in the middle of its turn hands what it used up to the next one: that one loses as much. */
  lemma MidTurnShifts(r: Ring, a: PeerId, b: PeerId, peer: PeerId)
    requires Both(r, a, b) && peer != a && peer != b && MidTurn(r, peer)
    ensures Lead(Left(r, peer), a, b) == Lead(r, a, b) + Handed(Following(r), a, b, r.used)
  {
    hide NoneTwice, PlaceOf, Erased, LeadAt, Following;
    var k, i, j := r.cursor, PlaceOf(r.peers, a), PlaceOf(r.peers, b);
    PlaceIs(r.peers, peer, k);
    FollowsAt(r);
    ErasedPlaces(r.peers, k, a);
    ErasedPlaces(r.peers, k, b);
    ErasedSize(r.peers, k);
    LeadAfterCut(|r.peers|, k, r.used, i, j);
  }

  lemma FollowsAt(r: Ring)
    requires RingOk(r) && r.cursor < |r.peers|
    ensures PlaceOf(r.peers, Following(r)) == if r.cursor + 1 < |r.peers| then r.cursor + 1 else 0
    ensures Following(r) == r.peers[if r.cursor + 1 < |r.peers| then r.cursor + 1 else 0]
  {
    PlaceIs(r.peers, Following(r), if r.cursor + 1 < |r.peers| then r.cursor + 1 else 0);
  }

  lemma LeaveStays(r: Ring, a: PeerId, b: PeerId, peer: PeerId)
    requires Both(r, a, b) && peer != a && peer != b
    ensures Both(Left(r, peer), a, b)
  {
    hide NoneTwice, Erased, PlaceOf;
    var k := PlaceOf(r.peers, peer);
    if k < |r.peers| {
      ErasedPlaces(r.peers, k, a);
      ErasedPlaces(r.peers, k, b);
      ErasedSize(r.peers, k);
    }
  }

  lemma LeaveShifts(r: Ring, a: PeerId, b: PeerId, peer: PeerId)
    requires Both(r, a, b) && peer != a && peer != b
    ensures Both(Left(r, peer), a, b)
    ensures Lead(Left(r, peer), a, b)
         == Lead(r, a, b) + (if MidTurn(Wrapped(r), peer) then Handed(Following(r), a, b, r.used) else 0)
  {
    var w := Wrapped(r);
    LeaveStays(r, a, b, peer);
    WrappedLeaves(r, peer);
    if MidTurn(w, peer) { MidTurnShifts(w, a, b, peer); } else { LeaveKeeps(w, a, b, peer); }
    hide PlaceOf, NoneTwice, LeadAt, Handed;
    SameLead(Left(w, peer), Left(r, peer), a, b);
    SameLead(w, r, a, b);
  }

  lemma SameLead(r: Ring, r': Ring, a: PeerId, b: PeerId)
    requires Wrapped(r) == Wrapped(r')
    ensures Lead(r, a, b) == Lead(r', a, b)
  {
  }

  /** The removal cuts a turn short that one of the two takes over. */
  predicate CutsShort(r: Ring, a: PeerId, b: PeerId, peer: PeerId) {
    MidTurn(Wrapped(r), peer) && (Following(r) == a || Following(r) == b)
  }

  /** A removal keeps the lead of one peer over another exactly if it does not hand either of them the rest of a turn. */
  lemma LeaveKeepsExactly(r: Ring, a: PeerId, b: PeerId, peer: PeerId)
    requires Both(r, a, b) && peer != a && peer != b
    ensures Lead(Left(r, peer), a, b) == Lead(r, a, b) <==> !CutsShort(r, a, b, peer)
  {
    hide RingOk, Lead;
    LeaveShifts(r, a, b, peer);
  }

  /** Whenever it is their turn, the two have something to send, and the socket takes it or takes nothing anymore. */
  ghost predicate Keen(log: seq<Turn>, lane: Lane, a: PeerId, b: PeerId) {
    forall i :: 0 <= i < |log| && log[i].lane == lane && (log[i].peer == a || log[i].peer == b) ==>
      log[i].answer == Sent || log[i].answer == Blocked
  }

  ghost predicate FairSoFar(p: Progress, lane: Lane, a: PeerId, b: PeerId, start: int) {
    && Both(RingOf(p.s, lane), a, b)
    && Lead(RingOf(p.s, lane), a, b) == start + CountPeer(p.log, lane, a) - CountPeer(p.log, lane, b)
  }

  lemma TurnedKeeps(r: Ring, answer: Answer, a: PeerId, b: PeerId)
    requires Both(r, a, b) && r.cursor < |r.peers|
    requires r.peers[r.cursor] == a || r.peers[r.cursor] == b ==> answer == Sent || answer == Blocked
    ensures Both(Turned(r, answer), a, b)
    ensures Lead(Turned(r, answer), a, b) == Lead(r, a, b) + (if answer == Sent then Delta(r.peers[r.cursor], a, b) else 0)
  {
    hide Both, Lead, Erased;
    match answer
    case Sent => SentKeeps(r, a, b);
    case Lost => LostKeeps(r, a, b);
    case Empty => EmptyKeeps(r, a, b);
    case Blocked =>
  }

  /** What a turn does to the rings and to the log. */
  lemma TurnShape(p: Progress, turn: Lane, lane: Lane)
    requires MayServe(p, turn) && p.answers != []
    ensures var p', w, answer := TakeTurn(p, turn), Wrapped(RingOf(p.s, turn)), p.answers[0];
      && w.cursor < |w.peers| && p'.log == p.log + [Turn(turn, w.peers[w.cursor], answer)]
      && RingOf(p'.s, lane) == if turn == lane then Turned(w, answer) else RingOf(p.s, lane)
  {
    hide Turned;
  }

  lemma CountsMore(log: seq<Turn>, t: Turn, lane: Lane, peer: PeerId)
    ensures CountPeer(log + [t], lane, peer)
         == CountPeer(log, lane, peer) + (if t.lane == lane && t.peer == peer && Costs(t.answer) then 1 else 0)
  {
    assert (log + [t])[..|log|] == log;
  }

  lemma TurnIsFair(p: Progress, turn: Lane, lane: Lane, a: PeerId, b: PeerId, start: int)
    requires FairSoFar(p, lane, a, b, start) && MayServe(p, turn) && p.answers != []
    requires Keen(TakeTurn(p, turn).log, lane, a, b)
    ensures FairSoFar(TakeTurn(p, turn), lane, a, b, start)
  {
    hide Both, Lead, Turned, TakeTurn, RingOf, Wrapped, CountPeer, MayServe;
    TurnShape(p, turn, lane);
    var w, answer := Wrapped(RingOf(p.s, turn)), p.answers[0];
    var t := Turn(turn, w.peers[w.cursor], answer);
    CountsMore(p.log, t, lane, a);
    CountsMore(p.log, t, lane, b);
    if turn == lane {
      assert TakeTurn(p, turn).log[|p.log|] == t;
      WrapKeeps(RingOf(p.s, lane), a, b);
      TurnedKeeps(w, answer, a, b);
    }
  }

  lemma {:induction false} ServeExtends(p: Progress, lane: Lane)
    ensures p.log <= ServeLane(p, lane).log
    decreases |p.answers|
  {
    if MayServe(p, lane) && p.answers != [] { ServeExtends(TakeTurn(p, lane), lane); }
  }

  lemma {:induction false} ServeIsFair(p: Progress, turn: Lane, lane: Lane, a: PeerId, b: PeerId, start: int)
    requires FairSoFar(p, lane, a, b, start) && Keen(ServeLane(p, turn).log, lane, a, b)
    ensures FairSoFar(ServeLane(p, turn), lane, a, b, start)
    decreases |p.answers|
  {
    if MayServe(p, turn) && p.answers != [] {
      var p' := TakeTurn(p, turn);
      ServeExtends(p', turn);
      assert Keen(p'.log, lane, a, b);
      hide Both, Lead, Keen;
      TurnIsFair(p, turn, lane, a, b, start);
      ServeIsFair(p', turn, lane, a, b, start);
    }
  }

  lemma RunIsFair(s: Scheduler, answers: seq<Answer>, lane: Lane, a: PeerId, b: PeerId)
    requires Both(RingOf(s, lane), a, b) && Keen(Run(s, answers).log, lane, a, b)
    ensures FairSoFar(Run(s, answers), lane, a, b, Lead(RingOf(s, lane), a, b))
  {
    var start := Lead(RingOf(s, lane), a, b);
    var p0 := Begin(s, answers);
    var p1 := ServeLane(p0, Control);
    var p2 := ServeLane(p1, Media);
    var p3 := ServeLane(p2, Reliable);
    ServeExtends(p1, Media);
    ServeExtends(p2, Reliable);
    ServeExtends(p3, Bulk);
    assert Keen(p1.log, lane, a, b) && Keen(p2.log, lane, a, b) && Keen(p3.log, lane, a, b);
    hide Both, Lead, Keen, ServeLane;
    ServeIsFair(p0, Control, lane, a, b, start);
    ServeIsFair(p1, Media, lane, a, b, start);
    ServeIsFair(p2, Reliable, lane, a, b, start);
    ServeIsFair(p3, Bulk, lane, a, b, start);
  }

  /** Datagrams of the peer in the lane over a history. */
  function TotalServed(s: Scheduler, ops: seq<Op>, lane: Lane, peer: PeerId): nat
    decreases |ops|
  {
    if ops == [] then 0
    else
      (if ops[0].Running? then CountPeer(Run(s, ops[0].answers).log, lane, peer) else 0)
      + TotalServed(Step(s, ops[0]), ops[1..], lane, peer)
  }

  /** The two stay and always have something to send; others join once, and leave at any time. */
  ghost predicate LivelyOp(s: Scheduler, op: Op, lane: Lane, a: PeerId, b: PeerId) {
    match op
    case Running(answers) => Keen(Run(s, answers).log, lane, a, b)
    case Adding(l, peer) => l == lane ==> peer !in RingOf(s, lane).peers
    case Removing(peer) => peer != a && peer != b
    case _ => true
  }

  ghost predicate Lively(s: Scheduler, ops: seq<Op>, lane: Lane, a: PeerId, b: PeerId)
    decreases |ops|
  {
    ops == [] || (LivelyOp(s, ops[0], lane, a, b) && Lively(Step(s, ops[0]), ops[1..], lane, a, b))
  }

  /** Besides, no removal hands one of the two the rest of a turn. */
  ghost predicate FairOp(s: Scheduler, op: Op, lane: Lane, a: PeerId, b: PeerId) {
    LivelyOp(s, op, lane, a, b) && (op.Removing? ==> !CutsShort(RingOf(s, lane), a, b, op.peer))
  }

  ghost predicate FairOps(s: Scheduler, ops: seq<Op>, lane: Lane, a: PeerId, b: PeerId)
    decreases |ops|
  {
    ops == [] || (FairOp(s, ops[0], lane, a, b) && FairOps(Step(s, ops[0]), ops[1..], lane, a, b))
  }

  lemma StepShifts(s: Scheduler, op: Op, lane: Lane, a: PeerId, b: PeerId)
    requires Both(RingOf(s, lane), a, b) && LivelyOp(s, op, lane, a, b)
    ensures Both(RingOf(Step(s, op), lane), a, b)
    ensures var log := if op.Running? then Run(s, op.answers).log else [];
      Lead(RingOf(Step(s, op), lane), a, b)
      == Lead(RingOf(s, lane), a, b) + CountPeer(log, lane, a) - CountPeer(log, lane, b) + HandedBy(s, op, lane, a, b)
  {
    hide RingOk, Lead, Handed;
    match op
    case Running(answers) => RunIsFair(s, answers, lane, a, b);
    case Adding(l, peer) => if l == lane { JoinShifts(RingOf(s, lane), a, b, peer); }
    case Removing(peer) => LeaveShifts(RingOf(s, lane), a, b, peer);
    case Refilling(now) => hide Credit;
    case Spending(n) =>
  }

  lemma LeadBounds(r: Ring, a: PeerId, b: PeerId)
    requires RingOk(r)
    ensures 0 <= Lead(r, a, b) <= QUANTUM
  {
  }

  ghost function TotalHanded(s: Scheduler, ops: seq<Op>, lane: Lane, a: PeerId, b: PeerId): int
    decreases |ops|
  {
    if ops == [] then 0 else HandedBy(s, ops[0], lane, a, b) + TotalHanded(Step(s, ops[0]), ops[1..], lane, a, b)
  }

  lemma {:induction false} LeadFollows(s: Scheduler, ops: seq<Op>, lane: Lane, a: PeerId, b: PeerId)
    requires Both(RingOf(s, lane), a, b) && Lively(s, ops, lane, a, b)
    ensures Both(RingOf(Steps(s, ops), lane), a, b)
    ensures Lead(RingOf(Steps(s, ops), lane), a, b)
         == Lead(RingOf(s, lane), a, b) + TotalServed(s, ops, lane, a) - TotalServed(s, ops, lane, b)
            + TotalHanded(s, ops, lane, a, b)
    decreases |ops|
  {
    if ops != [] {
      StepShifts(s, ops[0], lane, a, b);
      hide Both, Lead, LivelyOp, HandedBy;
      LeadFollows(Step(s, ops[0]), ops[1..], lane, a, b);
    }
  }

  /** Two peers that stay in a lane and always have something to send, over any number of runs: counting what removals handed
      to either of them as served, they are served alike. */
  lemma ServedUpToHanded(s: Scheduler, ops: seq<Op>, lane: Lane, a: PeerId, b: PeerId)
    requires Both(RingOf(s, lane), a, b) && Lively(s, ops, lane, a, b)
    ensures -QUANTUM
         <= TotalServed(s, ops, lane, a) - TotalServed(s, ops, lane, b) + TotalHanded(s, ops, lane, a, b) <= QUANTUM
  {
    LeadFollows(s, ops, lane, a, b);
    LeadBounds(RingOf(s, lane), a, b);
    LeadBounds(RingOf(Steps(s, ops), lane), a, b);
  }

  /** No turn is open that would fall to one of the two. */
  ghost predicate NoneOpen(r: Ring, a: PeerId, b: PeerId) { Open(r) ==> r.peers[0] != a && r.peers[0] != b }

  lemma LeaveOpens(r: Ring, a: PeerId, b: PeerId, peer: PeerId)
    requires Both(r, a, b) && NoneOpen(r, a, b) && peer != a && peer != b && !CutsShort(r, a, b, peer)
    ensures NoneOpen(Left(r, peer), a, b)
  {
    var r', k := Left(r, peer), PlaceOf(r.peers, peer);
    FollowsAt(Wrapped(r));
    if Open(r') && k < |r.peers| {
      assert r'.peers[0] == r.peers[if k == 0 then 1 else 0];
      hide Erased, NoneTwice, PlaceOf, Following;
    }
  }

  lemma TurnCloses(r: Ring, answer: Answer)
    requires r.peers != []
    ensures !Open(Turned(Wrapped(r), answer))
  {
  }

  lemma RingAfterTurn(p: Progress, turn: Lane, lane: Lane)
    requires MayServe(p, turn) && p.answers != []
    ensures var r := RingOf(TakeTurn(p, turn).s, lane); if lane == turn then !Open(r) else r == RingOf(p.s, lane)
  {
    hide Turned, Open;
    TurnCloses(RingOf(p.s, turn), p.answers[0]);
  }

  /** A lane that had a turn has no open one. */
  lemma {:induction false} ServeCloses(p: Progress, turn: Lane, lane: Lane)
    ensures RingOf(ServeLane(p, turn).s, lane) == RingOf(p.s, lane) || !Open(RingOf(ServeLane(p, turn).s, lane))
    decreases |p.answers|
  {
    if MayServe(p, turn) && p.answers != [] {
      RingAfterTurn(p, turn, lane);
      hide Open, TakeTurn;
      ServeCloses(TakeTurn(p, turn), turn, lane);
    }
  }

  lemma RunCloses(s: Scheduler, answers: seq<Answer>, lane: Lane)
    ensures RingOf(Run(s, answers).s, lane) == RingOf(s, lane) || !Open(RingOf(Run(s, answers).s, lane))
  {
    hide Open, ServeLane;
    var p := Begin(s, answers);
    ServeCloses(p, Control, lane);
    ServeCloses(ServeLane(p, Control), Media, lane);
    ServeCloses(ServeLane(ServeLane(p, Control), Media), Reliable, lane);
    ServeCloses(ServeLane(ServeLane(ServeLane(p, Control), Media), Reliable), Bulk, lane);
  }

  lemma StepCloses(s: Scheduler, op: Op, lane: Lane, a: PeerId, b: PeerId)
    requires Both(RingOf(s, lane), a, b) && NoneOpen(RingOf(s, lane), a, b) && FairOp(s, op, lane, a, b)
    ensures NoneOpen(RingOf(Step(s, op), lane), a, b) && HandedBy(s, op, lane, a, b) == 0
  {
    match op
    case Running(answers) => hide Both, Run; RunCloses(s, answers, lane);
    case Removing(peer) => LeaveOpens(RingOf(s, lane), a, b, peer); hide RingOk, Left;
    case Adding(l, peer) =>
    case Refilling(now) => hide Credit;
    case Spending(n) =>
  }

  /** Without a removal that cuts a turn short for one of the two, nothing is handed to them. */
  lemma {:induction false} NothingHanded(s: Scheduler, ops: seq<Op>, lane: Lane, a: PeerId, b: PeerId)
    requires Both(RingOf(s, lane), a, b) && NoneOpen(RingOf(s, lane), a, b) && FairOps(s, ops, lane, a, b)
    ensures Lively(s, ops, lane, a, b) && TotalHanded(s, ops, lane, a, b) == 0
    decreases |ops|
  {
    if ops != [] {
      StepShifts(s, ops[0], lane, a, b);
      StepCloses(s, ops[0], lane, a, b);
      hide Both, LivelyOp, HandedBy, NoneOpen, CutsShort;
      NothingHanded(Step(s, ops[0]), ops[1..], lane, a, b);
    }
  }

  /** Two peers that stay in a lane and always have something to send are served alike, over any number of runs. */
  lemma RoundRobinFair(s: Scheduler, ops: seq<Op>, lane: Lane, a: PeerId, b: PeerId)
    requires Both(RingOf(s, lane), a, b) && NoneOpen(RingOf(s, lane), a, b) && FairOps(s, ops, lane, a, b)
    ensures -QUANTUM <= TotalServed(s, ops, lane, a) - TotalServed(s, ops, lane, b) <= QUANTUM
  {
    NothingHanded(s, ops, lane, a, b);
    ServedUpToHanded(s, ops, lane, a, b);
  }

  function Row(n: nat): seq<Answer> { if n == 0 then [Blocked] else [Sent] + Row(n - 1) }

  function Unlimited(r: Ring): Scheduler { Scheduler(0, 16, 16.0, None, map[Bulk := r]) }

  /** Peers 1 and 3 sent that many, whenever it was their turn. */
  ghost predicate Tally(log: seq<Turn>, by1: nat, by3: nat) {
    CountPeer(log, Bulk, 1) == by1 && CountPeer(log, Bulk, 3) == by3 && Keen(log, Bulk, 1, 3)
  }

  lemma CountMore(log: seq<Turn>, t: Turn, lane: Lane, peer: PeerId)
    ensures CountPeer(log + [t], lane, peer)
         == CountPeer(log, lane, peer) + (if t.lane == lane && t.peer == peer && Costs(t.answer) then 1 else 0)
  {
    assert (log + [t])[..|log + [t]| - 1] == log;
  }

  lemma KeenMore(log: seq<Turn>, t: Turn, lane: Lane, a: PeerId, b: PeerId)
    requires Keen(log, lane, a, b) && (t.answer == Sent || t.answer == Blocked)
    ensures Keen(log + [t], lane, a, b)
  {
  }

  lemma TallyMore(log: seq<Turn>, t: Turn, by1: nat, by3: nat)
    requires Tally(log, by1, by3) && t.lane == Bulk && (t.answer == Sent || t.answer == Blocked)
    ensures Tally(log + [t], by1 + (if t == Turn(Bulk, 1, Sent) then 1 else 0), by3 + (if t == Turn(Bulk, 3, Sent) then 1 else 0))
  {
    hide Keen, CountPeer;
    CountMore(log, t, Bulk, 1);
    CountMore(log, t, Bulk, 3);
    KeenMore(log, t, Bulk, 1, 3);
  }

  /** In the middle of a run of an unlimited scheduler on Bulk: its ring, what peers 1 and 3 sent, and the answers to come. */
  ghost predicate At(p: Progress, r: Ring, by1: nat, by3: nat, left: nat) {
    && p.s == Unlimited(r) && !p.stopped && p.answers == Row(left) && Tally(p.log, by1, by3)
  }

  lemma SentAt(p: Progress, r: Ring, by1: nat, by3: nat, left: nat) returns (p': Progress, r': Ring, by1': nat, by3': nat)
    requires At(p, r, by1, by3, left) && left > 0 && r.cursor < |r.peers|
    ensures ServeLane(p', Bulk) == ServeLane(p, Bulk) && At(p', r', by1', by3', left - 1)
    ensures r' == if r.used + 1 >= QUANTUM then Ring(r.peers, r.cursor + 1, 0) else r.(used := r.used + 1)
    ensures by1' == by1 + (if r.peers[r.cursor] == 1 then 1 else 0) && by3' == by3 + (if r.peers[r.cursor] == 3 then 1 else 0)
  {
    hide Tally, Erased;
    var t := Turn(Bulk, r.peers[r.cursor], Sent);
    p', r' := TakeTurn(p, Bulk), Turned(r, Sent);
    by1', by3' := by1 + (if t == Turn(Bulk, 1, Sent) then 1 else 0), by3 + (if t == Turn(Bulk, 3, Sent) then 1 else 0);
    TallyMore(p.log, t, by1, by3);
    assert p.s.rings[Bulk := r'] == map[Bulk := r'];
    assert Row(left)[1..] == Row(left - 1);
  }

  lemma WrapAt(p: Progress, r: Ring, by1: nat, by3: nat, left: nat) returns (p': Progress, r': Ring)
    requires At(p, r, by1, by3, left) && r.cursor == |r.peers| > 0
    ensures ServeLane(p', Bulk) == ServeLane(p, Bulk) && At(p', r', by1, by3, left) && r' == r.(cursor := 0)
  {
    hide Tally;
    r' := r.(cursor := 0);
    p' := p.(s := Unlimited(r'));
    var a := p.answers[0];
    hide Erased, Turned, Costs;
    assert p.s.rings[Bulk := Turned(r', a)] == p'.s.rings[Bulk := Turned(r', a)];
    assert TakeTurn(p, Bulk) == TakeTurn(p', Bulk);
  }

  lemma BlockedAt(p: Progress, r: Ring, by1: nat, by3: nat)
    requires At(p, r, by1, by3, 0) && r.cursor < |r.peers|
    ensures ServeLane(p, Bulk).s == Unlimited(r) && Tally(ServeLane(p, Bulk).log, by1, by3)
  {
    hide Tally, Erased;
    var p' := TakeTurn(p, Bulk);
    TallyMore(p.log, Turn(Bulk, r.peers[r.cursor], Blocked), by1, by3);
    assert p.s.rings[Bulk := r] == map[Bulk := r];
    assert p'.stopped && ServeLane(p', Bulk) == p';
  }

  lemma BeginAt(r: Ring, n: nat)
    ensures At(Begin(Unlimited(r), Row(n)), r, 0, 0, n)
  {
  }

  lemma OnlyBulk(r: Ring, answers: seq<Answer>)
    ensures Run(Unlimited(r), answers) == ServeLane(Begin(Unlimited(r), answers), Bulk)
  {
  }

  /** 1 sends its quantum, 2 is cut short. */
  lemma FirstRun()
    ensures var p := Run(Unlimited(THREE), Row(7)); p.s == Unlimited(Ring([1, 2, 3], 1, 3)) && Tally(p.log, 4, 0)
  {
    OnlyBulk(THREE, Row(7));
    BeginAt(THREE, 7);
    hide ServeLane, Row, At, Tally, Unlimited, Begin, Run;
    var p := FirstQuantum(Begin(Unlimited(THREE), Row(7)));
    var r, x, y := Ring([1, 2, 3], 1, 0), 4, 0;
    p, r, x, y := SentAt(p, r, x, y, 3);
    p, r, x, y := SentAt(p, r, x, y, 2);
    p, r, x, y := SentAt(p, r, x, y, 1);
    BlockedAt(p, r, x, y);
  }

  lemma FirstQuantum(p0: Progress) returns (p: Progress)
    requires At(p0, THREE, 0, 0, 7)
    ensures ServeLane(p, Bulk) == ServeLane(p0, Bulk) && At(p, Ring([1, 2, 3], 1, 0), 4, 0, 3)
  {
    hide ServeLane, Row, At, Tally, Unlimited;
    p := p0;
    var r, x, y := THREE, 0, 0;
    p, r, x, y := SentAt(p, r, x, y, 7);
    p, r, x, y := SentAt(p, r, x, y, 6);
    p, r, x, y := SentAt(p, r, x, y, 5);
    p, r, x, y := SentAt(p, r, x, y, 4);
  }

  /** 3 gets what is left of the turn of 2, and 1 its quantum again. */
  lemma SecondRun()
    ensures Tally(Run(Unlimited(CUT), Row(5)).log, 4, 1)
  {
    var r := CUT;
    OnlyBulk(r, Row(5));
    BeginAt(r, 5);
    hide ServeLane, Row, At, Tally, Unlimited, Begin, Run;
    var p, x, y := Begin(Unlimited(r), Row(5)), 0, 0;
    p, r, x, y := SentAt(p, r, x, y, 5);
    p, r := WrapAt(p, r, x, y, 4);
    p, r, x, y := SentAt(p, r, x, y, 4);
    p, r, x, y := SentAt(p, r, x, y, 3);
    p, r, x, y := SentAt(p, r, x, y, 2);
    p, r, x, y := SentAt(p, r, x, y, 1);
    BlockedAt(p, r, x, y);
  }

  const THREE := Ring([1, 2, 3], 0, 0)

  const CUT := Ring([1, 3], 1, 3)

  /** Three peers join, and send until the socket is full; 2 is removed, and the others go on. */
  const JOIN := [Adding(Bulk, 1), Adding(Bulk, 2), Adding(Bulk, 3)]

  const CUT_SHORT := [Running(Row(7)), Removing(2), Running(Row(5))]

  lemma JoinSteps()
    ensures Steps(NewScheduler(0), JOIN) == Unlimited(THREE)
  {
    var s := NewScheduler(0);
    JoinStep([], 1);
    JoinStep([1], 2);
    JoinStep([1, 2], 3);
    hide Add;
    assert [] + [1] == [1] && [1] + [2] == [1, 2] && [1, 2] + [3] == [1, 2, 3];
    var s1, s2 := Unlimited(Ring([1], 0, 0)), Unlimited(Ring([1, 2], 0, 0));
    assert Add(s, Bulk, 1) == Add(Unlimited(NO_PEERS), Bulk, 1) by { FirstJoin(); }
    assert JOIN[1..] == [JOIN[1], JOIN[2]] && JOIN[1..][1..] == [JOIN[2]] && [JOIN[2]][1..] == [];
    assert Steps(s2, [JOIN[2]]) == Steps(Unlimited(THREE), []);
    assert Steps(s1, JOIN[1..]) == Steps(s2, [JOIN[2]]);
  }

  lemma FirstJoin()
    ensures Add(NewScheduler(0), Bulk, 1) == Add(Unlimited(NO_PEERS), Bulk, 1)
  {
    var s, s' := Add(NewScheduler(0), Bulk, 1), Add(Unlimited(NO_PEERS), Bulk, 1);
    assert s.rings.Keys == s'.rings.Keys && s.rings[Bulk] == s'.rings[Bulk];
    assert s.rings == s'.rings;
  }

  lemma JoinStep(peers: seq<PeerId>, peer: PeerId)
    ensures Add(Unlimited(Ring(peers, 0, 0)), Bulk, peer) == Unlimited(Ring(peers + [peer], 0, 0))
  {
    assert Add(Unlimited(Ring(peers, 0, 0)), Bulk, peer).rings == map[Bulk := Ring(peers + [peer], 0, 0)];
  }

  lemma CutShortSteps()
    ensures Step(Unlimited(THREE), CUT_SHORT[0]) == Unlimited(Ring([1, 2, 3], 1, 3))
    ensures Step(Unlimited(Ring([1, 2, 3], 1, 3)), CUT_SHORT[1]) == Unlimited(CUT)
  {
    FirstRun();
    hide Run, Row;
    PlaceIs([1, 2, 3], 2, 1);
    assert Erased([1, 2, 3], 1) == [1, 3];
    assert Left(Ring([1, 2, 3], 1, 3), 2) == CUT;
    assert Remove(Unlimited(Ring([1, 2, 3], 1, 3)), 2).rings == map[Bulk := CUT];
  }

  /** Removing a peer in the middle of its turn is not fair to the next one. From a new scheduler on, 1 and 3 stay and always
      send, 8 against 1; the removal is the one step that cuts a turn short. */
  lemma RemoveMidTurnUnfair()
    ensures Steps(NewScheduler(0), JOIN) == Unlimited(THREE) && Both(THREE, 1, 3) && NoneOpen(THREE, 1, 3)
    ensures Lively(Unlimited(THREE), CUT_SHORT, Bulk, 1, 3)
    ensures CutsShort(RingOf(Step(Unlimited(THREE), CUT_SHORT[0]), Bulk), 1, 3, 2)
    ensures TotalServed(Unlimited(THREE), CUT_SHORT, Bulk, 1) == 8 && TotalServed(Unlimited(THREE), CUT_SHORT, Bulk, 3) == 1
  {
    JoinSteps();
    FirstRun();
    SecondRun();
    CutShortSteps();
    hide Run, Row, Add, Remove;
    var ops, s, s2 := CUT_SHORT, Unlimited(THREE), Unlimited(CUT);
    var s1 := Unlimited(Ring([1, 2, 3], 1, 3));
    assert ops[1..] == [ops[1], ops[2]] && ops[1..][1..] == [ops[2]] && [ops[2]][1..] == [];
    assert TotalServed(Step(s2, ops[2]), [], Bulk, 1) == 0 && TotalServed(Step(s2, ops[2]), [], Bulk, 3) == 0;
    assert TotalServed(s2, [ops[2]], Bulk, 1) == 4 && TotalServed(s2, [ops[2]], Bulk, 3) == 1;
    assert TotalServed(s1, ops[1..], Bulk, 1) == 4 && TotalServed(s1, ops[1..], Bulk, 3) == 1;
    assert Lively(s2, [ops[2]], Bulk, 1, 3) && Lively(s1, ops[1..], Bulk, 1, 3);
  }

  // --- The rings of every history ---------------------------------------------------------------

  ghost predicate AllRingsOk(s: Scheduler) { forall lane :: RingOk(RingOf(s, lane)) }

  lemma WrappedOk(r: Ring)
    requires RingOk(r)
    ensures RingOk(Wrapped(r))
  {
  }

  lemma ErasedOk(peers: seq<PeerId>, i: nat)
    requires NoneTwice(peers) && i < |peers|
    ensures NoneTwice(Erased(peers, i)) && |Erased(peers, i)| == |peers| - 1
  {
  }

  lemma TurnedOk(r: Ring, a: Answer)
    requires RingOk(r) && r.cursor < |r.peers|
    ensures RingOk(Turned(r, a))
  {
    ErasedOk(r.peers, r.cursor);
    hide NoneTwice, Erased;
  }

  lemma TurnKeepsRings(p: Progress, lane: Lane)
    requires AllRingsOk(p.s) && MayServe(p, lane) && p.answers != []
    ensures AllRingsOk(TakeTurn(p, lane).s)
  {
    WrappedOk(RingOf(p.s, lane));
    TurnedOk(Wrapped(RingOf(p.s, lane)), p.answers[0]);
    hide RingOk, Turned;
    forall other
      ensures RingOk(RingOf(TakeTurn(p, lane).s, other))
    {
      assert RingOk(RingOf(p.s, other));
    }
  }

  lemma {:induction false} ServeKeepsRings(p: Progress, lane: Lane)
    requires AllRingsOk(p.s)
    ensures AllRingsOk(ServeLane(p, lane).s)
    decreases |p.answers|
  {
    hide AllRingsOk;
    if MayServe(p, lane) && p.answers != [] {
      TurnKeepsRings(p, lane);
      ServeKeepsRings(TakeTurn(p, lane), lane);
    }
  }

  lemma RunKeepsRings(s: Scheduler, answers: seq<Answer>)
    requires AllRingsOk(s)
    ensures AllRingsOk(Run(s, answers).s)
  {
    hide AllRingsOk, ServeLane;
    var p := Begin(s, answers);
    ServeKeepsRings(p, Control);
    ServeKeepsRings(ServeLane(p, Control), Media);
    ServeKeepsRings(ServeLane(ServeLane(p, Control), Media), Reliable);
    ServeKeepsRings(ServeLane(ServeLane(ServeLane(p, Control), Media), Reliable), Bulk);
  }

  /** No peer is added twice. */
  ghost predicate Orderly(s: Scheduler, op: Op) { op.Adding? ==> op.peer !in RingOf(s, op.lane).peers }

  lemma LeftOk(r: Ring, peer: PeerId)
    requires RingOk(r)
    ensures RingOk(Left(r, peer))
  {
    if PlaceOf(r.peers, peer) < |r.peers| { ErasedOk(r.peers, PlaceOf(r.peers, peer)); }
    hide NoneTwice, Erased;
  }

  lemma JoinedOk(r: Ring, peer: PeerId)
    requires RingOk(r) && peer !in r.peers
    ensures RingOk(Joined(r, peer))
  {
  }

  lemma StepKeepsRings(s: Scheduler, op: Op)
    requires AllRingsOk(s) && Orderly(s, op)
    ensures AllRingsOk(Step(s, op))
  {
    match op
    case Running(answers) => RunKeepsRings(s, answers);
    case Removing(peer) =>
      forall lane ensures RingOk(RingOf(Remove(s, peer), lane)) { LeftOk(RingOf(s, lane), peer); }
    case Adding(lane, peer) =>
      JoinedOk(RingOf(s, lane), peer);
      hide RingOk, Joined;
      forall other ensures RingOk(RingOf(Add(s, lane, peer), other)) { assert RingOk(RingOf(s, other)); }
    case Refilling(now) =>
      hide RingOk, Credit;
      forall lane ensures RingOk(RingOf(Refill(s, now), lane)) { assert RingOk(RingOf(s, lane)); }
    case Spending(n) =>
      hide RingOk;
      forall lane ensures RingOk(RingOf(Spend(s, n), lane)) { assert RingOk(RingOf(s, lane)); }
  }

  ghost predicate AllOrderly(s: Scheduler, ops: seq<Op>)
    decreases |ops|
  {
    ops == [] || (Orderly(s, ops[0]) && AllOrderly(Step(s, ops[0]), ops[1..]))
  }

  /** Whatever is removed when: no peer is in a ring twice, and nobody uses more than a quantum. */
  lemma {:induction false} RingsStayOk(s: Scheduler, ops: seq<Op>)
    requires AllRingsOk(s) && AllOrderly(s, ops)
    ensures AllRingsOk(Steps(s, ops))
    decreases |ops|
  {
    hide AllRingsOk, Orderly;
    if ops != [] {
      StepKeepsRings(s, ops[0]);
      RingsStayOk(Step(s, ops[0]), ops[1..]);
    }
  }

  /** A ring past its last peer gives the first one a whole turn exactly if the last one was not removed in the middle of its
      own. */
  lemma OpensExactly(r: Ring, peer: PeerId)
    requires RingOk(r) && !Open(r)
    ensures Open(Left(r, peer)) <==> MidTurn(r, peer) && 1 < |r.peers| == r.cursor + 1
  {
    var k := PlaceOf(r.peers, peer);
    if k < |r.peers| { ErasedSize(r.peers, k); }
    if MidTurn(r, peer) { PlaceIs(r.peers, peer, r.cursor); }
    hide Erased, NoneTwice;
  }

  ghost predicate ClosedOps(s: Scheduler, ops: seq<Op>, lane: Lane)
    decreases |ops|
  {
    ops == [] || (
      var r := RingOf(s, lane);
      && (ops[0].Removing? ==> !(MidTurn(r, ops[0].peer) && 1 < |r.peers| == r.cursor + 1))
      && ClosedOps(Step(s, ops[0]), ops[1..], lane))
  }

  /** Unless the last of the ring is removed in the middle of its turn, the first one always has a whole turn. */
  lemma {:induction false} StaysClosed(s: Scheduler, ops: seq<Op>, lane: Lane)
    requires AllRingsOk(s) && AllOrderly(s, ops) && !Open(RingOf(s, lane)) && ClosedOps(s, ops, lane)
    ensures !Open(RingOf(Steps(s, ops), lane))
    decreases |ops|
  {
    if ops != [] {
      StepKeepsRings(s, ops[0]);
      StepStaysClosed(s, ops[0], lane);
      hide Open, MidTurn, Orderly, AllRingsOk;
      StaysClosed(Step(s, ops[0]), ops[1..], lane);
    }
  }

  lemma StepStaysClosed(s: Scheduler, op: Op, lane: Lane)
    requires RingOk(RingOf(s, lane)) && !Open(RingOf(s, lane)) && ClosedOps(s, [op], lane)
    ensures !Open(RingOf(Step(s, op), lane))
  {
    match op
    case Running(answers) => RunCloses(s, answers, lane);
    case Removing(peer) => OpensExactly(RingOf(s, lane), peer); hide RingOk, Left;
    case Adding(l, peer) =>
    case Refilling(now) => hide Credit;
    case Spending(n) =>
  }

  // --- Who is left in the rings after a run -------------------------------------------------------

  lemma ErasedSet(peers: seq<PeerId>, i: nat)
    requires NoneTwice(peers) && i < |peers|
    ensures forall x :: x in Erased(peers, i) <==> x in peers && x != peers[i]
  {
    var rest := Erased(peers, i);
    forall x
      ensures x in rest <==> x in peers && x != peers[i]
    {
      if x in peers && x != peers[i] {
        var k :| 0 <= k < |peers| && peers[k] == x;
        assert rest[if k < i then k else k - 1] == x;
      }
      if x in rest {
        var k :| 0 <= k < |rest| && rest[k] == x;
        assert peers[if k < i then k else k + 1] == x;
      }
    }
  }

  /** A ring lost exactly the peers that had nothing to send. */
  ghost predicate Thinned(before: Ring, after: Ring, lane: Lane, log: seq<Turn>) {
    && NoneTwice(after.peers)
    && forall x :: x in after.peers <==> x in before.peers && Turn(lane, x, Empty) !in log
  }

  ghost predicate AllThinned(s: Scheduler, p: Progress) {
    forall lane :: Thinned(RingOf(s, lane), RingOf(p.s, lane), lane, p.log)
  }

  lemma TurnThins(before: Ring, r: Ring, lane: Lane, log: seq<Turn>, a: Answer)
    requires Thinned(before, r, lane, log) && r.cursor < |r.peers|
    ensures Thinned(before, Turned(r, a), lane, log + [Turn(lane, r.peers[r.cursor], a)])
  {
    if a == Empty {
      ErasedOk(r.peers, r.cursor);
      ErasedSet(r.peers, r.cursor);
      hide Erased, NoneTwice;
    }
  }

  lemma OthersThinned(before: Ring, r: Ring, lane: Lane, log: seq<Turn>, t: Turn)
    requires Thinned(before, r, lane, log) && t.lane != lane
    ensures Thinned(before, r, lane, log + [t])
  {
    hide NoneTwice;
  }

  lemma TakeTurnThins(s: Scheduler, p: Progress, lane: Lane)
    requires AllThinned(s, p) && MayServe(p, lane) && p.answers != []
    ensures AllThinned(s, TakeTurn(p, lane))
  {
    var r, p' := Wrapped(RingOf(p.s, lane)), TakeTurn(p, lane);
    assert Thinned(RingOf(s, lane), r, lane, p.log);
    hide Thinned, Turned;
    TurnThins(RingOf(s, lane), r, lane, p.log, p.answers[0]);
    forall other ensures Thinned(RingOf(s, other), RingOf(p'.s, other), other, p'.log) {
      assert Thinned(RingOf(s, other), RingOf(p.s, other), other, p.log);
      if other != lane {
        OthersThinned(RingOf(s, other), RingOf(p.s, other), other, p.log, Turn(lane, r.peers[r.cursor], p.answers[0]));
      }
    }
  }

  lemma {:induction false} ServeThins(s: Scheduler, p: Progress, lane: Lane)
    requires AllThinned(s, p)
    ensures AllThinned(s, ServeLane(p, lane))
    decreases |p.answers|
  {
    if MayServe(p, lane) {
      if p.answers == [] {
        hide Thinned;
        forall other ensures Thinned(RingOf(s, other), RingOf(p.s, other), other, p.log) {}
      } else {
        hide AllThinned;
        TakeTurnThins(s, p, lane);
        ServeThins(s, TakeTurn(p, lane), lane);
      }
    }
  }

  /** A run takes from the rings exactly the peers that had nothing to send in the lane when it was their turn. */
  lemma RunThins(s: Scheduler, answers: seq<Answer>)
    requires forall lane :: NoneTwice(RingOf(s, lane).peers)
    ensures AllThinned(s, Run(s, answers))
  {
    var p := Begin(s, answers);
    assert AllThinned(s, p);
    hide AllThinned, ServeLane;
    ServeThins(s, p, Control);
    ServeThins(s, ServeLane(p, Control), Media);
    ServeThins(s, ServeLane(ServeLane(p, Control), Media), Reliable);
    ServeThins(s, ServeLane(ServeLane(ServeLane(p, Control), Media), Reliable), Bulk);
  }

  // --- The scheduler as the source keeps it ---------------------------------------------------

  class SendScheduler {
    var rate: nat
    var burst: nat
    var tokens: real
    var refilledAt: Option<int>
    var rings: map<Lane, Ring>

    ghost function View(): Scheduler
      reads this
    {
      Scheduler(rate, burst, tokens, refilledAt, rings)
    }

    function RingFor(lane: Lane): Ring
      reads this
    {
      if lane in rings then rings[lane] else NO_PEERS
    }

    constructor (ratePerSecond: nat)
      ensures View() == NewScheduler(ratePerSecond) && Within(View())
    {
      rate, burst, tokens, refilledAt, rings :=
        ratePerSecond, BurstOf(ratePerSecond), BurstOf(ratePerSecond) as real, None, map[];
    }

    /** No more than the time earned, and not beyond the burst. */
    method RefillAt(now: int)
      modifies this`tokens, this`refilledAt
      ensures View() == Refill(old(View()), now) && refilledAt == Some(now)
      ensures tokens == if old(refilledAt).None? || now <= old(refilledAt).value then old(tokens)
        else AtMost(old(tokens) + rate as real * (now - old(refilledAt).value) as real / 1_000_000.0, burst)
      ensures old(Within(View()) && Forward(refilledAt, [Refilling(now)])) ==>
        Conserved(old(View()), if old(refilledAt).Some? then old(refilledAt) else Some(now), 0, View())
    {
      if Within(View()) && Forward(refilledAt, [Refilling(now)]) { StepConserves(View(), Refilling(now)); }
      RefillLaw(View(), now);
      hide Conserved, Forward;
      if refilledAt.Some? && now > refilledAt.value {
        var full := tokens + rate as real * ((now - refilledAt.value) as real / MICROS);
        tokens := if full < burst as real then full else burst as real;
      }
      refilledAt := Some(now);
    }

    /** What is spent is gone, below zero too. */
    method SpendOn(datagrams: nat)
      modifies this`tokens
      ensures View() == Spend(old(View()), datagrams)
      ensures old(Within(View())) ==> Conserved(old(View()), old(refilledAt), datagrams, View())
    {
      if Within(View()) {
        assert [Spending(datagrams)][1..] == [];
        StepConserves(View(), Spending(datagrams));
      }
      hide Conserved;
      if rate != 0 {
        tokens := tokens - datagrams as real;
      }
    }

    /** The peer waits behind the others: unless a started turn was left open, the lead of none of them changes. */
    method AddPeer(lane: Lane, peer: PeerId)
      modifies this`rings
      ensures View() == Add(old(View()), lane, peer)
      ensures old(AllRingsOk(View()) && peer !in RingFor(lane).peers) ==> AllRingsOk(View())
      ensures forall a, b :: old(Both(RingFor(lane), a, b) && !Open(RingFor(lane)) && peer !in RingFor(lane).peers) ==>
        Lead(RingFor(lane), a, b) == old(Lead(RingFor(lane), a, b))
    {
      ghost var before := RingFor(lane);
      if AllRingsOk(View()) && peer !in before.peers { StepKeepsRings(View(), Adding(lane, peer)); }
      forall a, b | Both(before, a, b) && !Open(before) && peer !in before.peers
        ensures Lead(Joined(before, peer), a, b) == Lead(before, a, b)
      {
        JoinShifts(before, a, b, peer);
      }
      hide AllRingsOk, Both, Lead, Open;
      var r := RingFor(lane);
      rings := rings[lane := r.(peers := r.peers + [peer])];
    }

    /** Whenever it is removed: the peer is in no ring, and the rings stay sound. */
    method RemovePeer(peer: PeerId)
      modifies this`rings
      ensures View() == Remove(old(View()), peer) && (old(AllRingsOk(View())) ==> AllRingsOk(View()))
    {
      hide AllRingsOk, Left;
      ghost var s := View();
      if AllRingsOk(s) { StepKeepsRings(s, Removing(peer)); }
      for i := 0 to |ORDER|
        invariant rings.Keys == s.rings.Keys
        invariant forall k :: 0 <= k < |ORDER| && ORDER[k] in rings ==>
          rings[ORDER[k]] == if k < i then Left(s.rings[ORDER[k]], peer) else s.rings[ORDER[k]]
      {
        var lane := ORDER[i];
        if lane in rings {
          var r := TakenOut(rings[lane], peer);
          rings := rings[lane := r];
        }
      }
      forall lane | lane in rings
        ensures rings[lane] == Left(s.rings[lane], peer)
      {
        PlaceInOrder(lane);
      }
      assert rings == Remove(s, peer).rings;
    }

    static method TakenOut(r0: Ring, peer: PeerId) returns (r: Ring)
      ensures r == Left(r0, peer)
    {
      r := r0;
      var at := Find(r.peers, peer);
      if at < |r.peers| {
        if at < r.cursor {
          r := r.(cursor := r.cursor - 1);
        }
        r := r.(peers := r.peers[..at] + r.peers[at + 1..]);
      }
    }

    /** answers: what the peers say, one for each question. */
    method RunWith(answers: seq<Answer>) returns (log: seq<Turn>)
      modifies this`rings, this`tokens
      ensures View() == Run(old(View()), answers).s && log == Run(old(View()), answers).log
    {
      hide ServeLane;
      ghost var whole := Run(View(), answers);
      var allowance :=
        if RingFor(Reliable).peers != [] || RingFor(Bulk).peers != [] then tokens * 3.0 / 4.0 else tokens;
      var left, stopped := answers, false;
      log := [];
      RunIsFromLane(View(), answers);
      for i := 0 to |ORDER|
        invariant FromLane(Progress(View(), allowance, left, stopped, log), i) == whole
      {
        allowance, left, stopped, log := RunLane(ORDER[i], allowance, left, stopped, log);
      }
    }

    method RunLane(lane: Lane, allowance0: real, left0: seq<Answer>, stopped0: bool, log0: seq<Turn>)
      returns (allowance: real, left: seq<Answer>, stopped: bool, log: seq<Turn>)
      modifies this`rings, this`tokens
      ensures Progress(View(), allowance, left, stopped, log)
           == ServeLane(Progress(old(View()), allowance0, left0, stopped0, log0), lane)
    {
      hide TakeTurn;
      allowance, left, stopped, log := allowance0, left0, stopped0, log0;
      ghost var whole := ServeLane(Progress(View(), allowance, left, stopped, log), lane);
      while !stopped && RingFor(lane).peers != [] && (rate == 0 || tokens >= 1.0)
            && (!(lane == Media && rate != 0) || allowance >= 1.0)
        invariant ServeLane(Progress(View(), allowance, left, stopped, log), lane) == whole
        decreases |left|, !stopped
      {
        if left == [] {
          stopped := true;
        } else {
          allowance, stopped, log := AskPeer(lane, allowance, left, log);
          left := left[1..];
        }
      }
    }

    method AskPeer(lane: Lane, allowance0: real, answers: seq<Answer>, log0: seq<Turn>)
      returns (allowance: real, stopped: bool, log: seq<Turn>)
      requires MayServe(Progress(View(), allowance0, answers, false, log0), lane) && answers != []
      modifies this`rings, this`tokens
      ensures Progress(View(), allowance, answers[1..], stopped, log)
           == TakeTurn(Progress(old(View()), allowance0, answers, false, log0), lane)
    {
      hide Turned;
      allowance := allowance0;
      var r, answer := RingFor(lane), answers[0];
      if r.cursor >= |r.peers| {
        r := r.(cursor := 0);
      }
      log := log0 + [Turn(lane, r.peers[r.cursor], answer)];
      if answer == Sent || answer == Lost {
        SpendOn(1);
        allowance := allowance - (if lane == Media && rate != 0 then 1.0 else 0.0);
      }
      r, stopped := Answered(r, answer);
      rings := rings[lane := r];
    }

    static method Answered(r0: Ring, answer: Answer) returns (r: Ring, stopped: bool)
      requires r0.cursor < |r0.peers|
      ensures r == Turned(r0, answer) && stopped == (answer == Blocked)
    {
      r, stopped := r0, false;
      match answer
      case Sent =>
        r := r.(used := r.used + 1);
        if r.used >= QUANTUM {
          r := r.(cursor := r.cursor + 1, used := 0);
        }
      case Lost => r := r.(cursor := r.cursor + 1, used := 0);
      case Empty => r := r.(peers := r.peers[..r.cursor] + r.peers[r.cursor + 1..], used := 0);
      case Blocked => stopped := true;
    }
  }

  lemma PlaceInOrder(lane: Lane)
    ensures exists k :: 0 <= k < |ORDER| && ORDER[k] == lane
  {
    assert ORDER[0] == Control && ORDER[1] == Media && ORDER[2] == Reliable && ORDER[3] == Bulk;
  }

  lemma RunIsFromLane(s: Scheduler, answers: seq<Answer>)
    ensures FromLane(Begin(s, answers), 0) == Run(s, answers)
  {
    hide ServeLane;
    var p := Begin(s, answers);
    var p1 := ServeLane(p, Control);
    var p2 := ServeLane(p1, Media);
    var p3 := ServeLane(p2, Reliable);
    assert FromLane(p, 0) == FromLane(p1, 1) == FromLane(p2, 2) == FromLane(p3, 3) == FromLane(ServeLane(p3, Bulk), 4);
  }

  /** A run from its i-th lane on. */
  ghost function FromLane(p: Progress, i: nat): Progress
    requires i <= |ORDER|
    decreases |ORDER| - i
  {
    if i == |ORDER| then p else FromLane(ServeLane(p, ORDER[i]), i + 1)
  }

  method Find(peers: seq<PeerId>, peer: PeerId) returns (at: nat)
    ensures at == PlaceOf(peers, peer)
  {
    at := 0;
    while at < |peers| && peers[at] != peer
      invariant at <= |peers| && PlaceOf(peers, peer) == at + PlaceOf(peers[at..], peer)
    {
      assert peers[at..][1..] == peers[at + 1..];
      at := at + 1;
    }
  }
}
