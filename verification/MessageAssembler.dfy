/** In-order assembly, as the inverse of cutting a message up, and the exact account of the memory it reserves. */
module MessageAssembler {
  import opened Transport
  import opened PacketHeader
  import opened Fragments

  datatype Budget = Budget(limit: nat, used: int) {
    predicate FitsBytes(bytes: nat) { bytes <= limit - used }
  }

  datatype Assembler = Assembler(
    assembling: bool,
    fragCount: nat,
    nextIndex: nat,
    tag: nat,
    totalLength: nat,
    body: seq<byte>)

  const IDLE := Assembler(false, 0, 0, 0, 0, [])

  datatype Accepted = Accepted(assembler: Assembler, budget: Option<Budget>, message: Option<Message>)

  /** What a stream holds of the budget. */
  function Reserved(a: Assembler): nat { if a.assembling then a.totalLength else 0 }

  function Released(a: Assembler, budget: Option<Budget>): Option<Budget> {
    if budget.Some? && a.assembling then Some(budget.value.(used := budget.value.used - a.totalLength)) else budget
  }

  /** Room is asked for once per fragmented message, at its start. */
  predicate HasRoomFor(budget: Option<Budget>, h: Header) {
    budget.None? || !h.StartsFragmentedMessage() || budget.value.FitsBytes(h.totalLength)
  }

  /** A start that is dropped: too long, miscounted, or without room. */
  predicate Unacceptable(budget: Option<Budget>, h: Header) {
    || h.totalLength > MAX_MESSAGE
    || FragmentsOf(h.totalLength) != h.fragCount
    || (budget.Some? && !budget.value.FitsBytes(h.totalLength))
  }

  /** A first fragment opens its message, whatever was in progress before. */
  function Opened(a: Assembler, budget: Option<Budget>, h: Header): (Assembler, Option<Budget>)
    requires !Unacceptable(Released(a, budget), h)
  {
    var free := Released(a, budget);
    (Assembler(true, h.fragCount, 0, h.tag, h.totalLength, []),
     if free.Some? then Some(free.value.(used := free.value.used + h.totalLength)) else None)
  }

  /** A fragment continues the message in progress, or the message is dropped. */
  function Continue(a: Assembler, budget: Option<Budget>, h: Header, body: seq<byte>): Accepted {
    var expected := if h.flags.last then a.totalLength - |a.body| else MAX_FRAGMENT;
    if !a.assembling || h.fragCount != a.fragCount || h.fragIndex != a.nextIndex || |body| != expected then
      Accepted(IDLE, Released(a, budget), None)
    else if a.nextIndex + 1 < a.fragCount then
      Accepted(a.(body := a.body + body, nextIndex := a.nextIndex + 1), budget, None)
    else Accepted(IDLE, Released(a, budget), Some(Message(a.tag, a.body + body)))
  }

  /** Packets come in the order of their seqs: a whole message, the start of one, or a fragment in the middle. */
  function Accept(a: Assembler, budget: Option<Budget>, h: Header, body: seq<byte>): Accepted {
    if !h.flags.fragmented then Accepted(IDLE, Released(a, budget), Some(Message(h.tag, body)))
    else if h.fragIndex == 0 then
      if Unacceptable(Released(a, budget), h) then Accepted(IDLE, Released(a, budget), None)
      else
        var (begun, reserved) := Opened(a, budget, h);
        Continue(begun, reserved, h, body)
    else Continue(a, budget, h, body)
  }

  // --- Fragments join back to the message ---------------------------------------

  /** A stream that took the first j fragments of the message. */
  function Partial(m: Message, j: nat): Assembler
    requires j < Count(m)
  {
    if j == 0 then IDLE else Assembler(true, Count(m), j, m.tag, |m.body|, Head(m, j))
  }

  /** One fragment further: the message is complete with its last fragment, byte for byte, and not before. */
  lemma AcceptFragment(m: Message, j: nat, budget: Option<Budget>, p: Packet, lane: Lane)
    requires j < Count(m) && |m.body| <= MAX_MESSAGE
    requires Carries(p, FragmentOf(m, j), lane)
    requires HasRoomFor(budget, p.header)
    ensures var r := Accept(Partial(m, j), budget, p.header, p.body);
            if j + 1 == Count(m)
            then r.message == Some(m) && r.assembler == IDLE
            else r.message == None && r.assembler == Partial(m, j + 1)
  {
    FragmentJoins(m, j);
    if j == 0 {
      assert Head(m, 0) == [];
      assert [] + p.body == Head(m, 1);
    }
  }

  // --- The shared budget --------------------------------------------------------

  /** Every packet, well formed or not, leaves what the other streams hold alone and keeps to the limit. */
  lemma AcceptAccounts(a: Assembler, budget: Budget, h: Header, body: seq<byte>)
    requires Reserved(a) <= budget.used <= budget.limit
    ensures var r := Accept(a, Some(budget), h, body);
            && r.budget.Some? && r.budget.value.limit == budget.limit
            && r.budget.value.used - Reserved(r.assembler) == budget.used - Reserved(a)
            && r.budget.value.used <= budget.limit
  {
  }

  /** A first fragment of a well-formed message that there is room for is never dropped. */
  lemma RoomMeansTaken(a: Assembler, budget: Option<Budget>, h: Header, body: seq<byte>)
    requires h.StartsFragmentedMessage() && h.totalLength <= MAX_MESSAGE && h.fragCount >= 2
    requires FragmentsOf(h.totalLength) == h.fragCount && !h.flags.last && |body| == MAX_FRAGMENT
    requires HasRoomFor(budget, h)
    ensures Accept(a, budget, h, body).assembler == Assembler(true, h.fragCount, 1, h.tag, h.totalLength, body)
  {
    assert [] + body == body;
  }

  /** A message that is too long, is miscounted or finds no room. */
  predicate BadStart(a: Assembler, budget: Option<Budget>, h: Header) {
    || h.totalLength > MAX_MESSAGE
    || h.fragCount != FragmentsOf(h.totalLength)
    || (budget.Some? && budget.value.used - Reserved(a) + h.totalLength > budget.value.limit)
  }

  /** Not the next fragment of the message in progress. */
  predicate Strays(a: Assembler, h: Header, body: seq<byte>) {
    || !a.assembling || h.fragIndex != a.nextIndex || h.fragCount != a.fragCount
    || |body| != if h.flags.last then a.totalLength - |a.body| else MAX_FRAGMENT
  }

  /** A fragment that does not continue the message in progress ends it, and so does a bad start of another: nothing comes
      out, and nothing stays reserved. */
  lemma MismatchDrops(a: Assembler, budget: Option<Budget>, h: Header, body: seq<byte>)
    requires h.flags.fragmented
    requires if h.fragIndex == 0 then BadStart(a, budget, h) else Strays(a, h, body)
    ensures var r := Accept(a, budget, h, body);
      && r.message == None && Reserved(r.assembler) == 0 && (budget.Some? <==> r.budget.Some?)
      && (budget.Some? ==> r.budget.value == budget.value.(used := budget.value.used - Reserved(a)))
  {
  }

  function TotalReserved(streams: seq<Assembler>): nat {
    if streams == [] then 0 else TotalReserved(streams[..|streams| - 1]) + Reserved(streams[|streams| - 1])
  }

  lemma {:induction false} TotalUpdate(streams: seq<Assembler>, i: nat, a: Assembler)
    requires i < |streams|
    ensures TotalReserved(streams[i := a]) == TotalReserved(streams) - Reserved(streams[i]) + Reserved(a)
    ensures Reserved(streams[i]) <= TotalReserved(streams)
    decreases |streams|
  {
    var n := |streams| - 1;
    if i < n {
      TotalUpdate(streams[..n], i, a);
      assert streams[i := a][..n] == streams[..n][i := a];
    } else {
      assert streams[i := a][..n] == streams[..n];
    }
  }

  /** A packet for one of the streams that share a budget, or the end of that stream. */
  datatype BudgetEvent = Take(stream: nat, header: Header, body: seq<byte>) | Reset(stream: nat)

  function ApplyEvent(streams: seq<Assembler>, budget: Budget, e: BudgetEvent): (seq<Assembler>, Budget)
    requires e.stream < |streams|
  {
    match e
    case Take(i, h, body) =>
      var r := Accept(streams[i], Some(budget), h, body);
      (streams[i := r.assembler], if r.budget.Some? then r.budget.value else budget)
    case Reset(i) => (streams[i := IDLE], Released(streams[i], Some(budget)).value)
  }

  function ApplyEvents(streams: seq<Assembler>, budget: Budget, events: seq<BudgetEvent>): (r: (seq<Assembler>, Budget))
    requires forall i :: 0 <= i < |events| ==> events[i].stream < |streams|
    ensures |r.0| == |streams|
  {
    if events == [] then (streams, budget)
    else
      var n := |events| - 1;
      var (s, b) := ApplyEvents(streams, budget, events[..n]);
      ApplyEvent(s, b, events[n])
  }

  /** In every run the budget is exactly what the streams in progress announced, and never above its limit. */
  lemma {:induction false} BudgetExact(streams: seq<Assembler>, budget: Budget, events: seq<BudgetEvent>)
    requires forall i :: 0 <= i < |events| ==> events[i].stream < |streams|
    requires budget.used == TotalReserved(streams) <= budget.limit
    ensures var (s, b) := ApplyEvents(streams, budget, events);
            b.limit == budget.limit && b.used == TotalReserved(s) <= b.limit
  {
    if events != [] {
      var n := |events| - 1;
      BudgetExact(streams, budget, events[..n]);
      var (s, b) := ApplyEvents(streams, budget, events[..n]);
      var e := events[n];
      TotalUpdate(s, e.stream, ApplyEvent(s, b, e).0[e.stream]);
      if e.Take? {
        AcceptAccounts(s[e.stream], b, e.header, e.body);
      }
    }
  }

  // --- As the source keeps them ---------------------------------------------------

  class AssemblyBudget {
    const limit: nat
    var used: nat

    constructor (limit: nat)
      ensures this.limit == limit && used == 0
    {
      this.limit := limit;
      this.used := 0;
    }

    ghost predicate Valid()
      reads this
    {
      used <= limit
    }

    ghost function Value(): Budget
      reads this
    {
      Budget(limit, used)
    }

    method Reserve(bytes: nat) returns (ok: bool)
      requires Valid()
      modifies this
      ensures Valid() && ok == old(Value().FitsBytes(bytes))
      ensures used == old(used) + if ok then bytes else 0
    {
      if bytes > limit - used {
        return false;
      }
      used := used + bytes;
      return true;
    }

    /** Undoes a Reserve: whatever fitted before fits together with what was given back. */
    method Release(bytes: nat)
      requires Valid() && bytes <= used
      modifies this
      ensures Valid() && used + bytes == old(used)
      ensures forall n: nat :: old(Value()).FitsBytes(n) <==> Value().FitsBytes(n + bytes)
    {
      used := used - bytes;
    }
  }

  class MessageAssembler {
    const budget: AssemblyBudget?
    var assembling: bool
    var fragCount: nat
    var nextIndex: nat
    var tag: nat
    var totalLength: nat
    var body: seq<byte>

    constructor (budget: AssemblyBudget?)
      ensures this.budget == budget && View() == IDLE
    {
      this.budget := budget;
      assembling, fragCount, nextIndex, tag, totalLength, body := false, 0, 0, 0, 0, [];
    }

    ghost function View(): Assembler
      reads this
    {
      Assembler(assembling, fragCount, nextIndex, tag, totalLength, body)
    }

    ghost function BudgetView(): Option<Budget>
      reads this, if budget == null then {} else {budget}
    {
      if budget == null then None else Some(budget.Value())
    }

    /** What this stream reserved is part of the shared budget. */
    ghost predicate Valid()
      reads this, if budget == null then {} else {budget}
    {
      budget != null ==> budget.Valid() && Reserved(View()) <= budget.used
    }

    method Reset()
      requires Valid()
      modifies this, if budget == null then {} else {budget}
      ensures Valid() && View() == IDLE
      ensures BudgetView() == Released(old(View()), old(BudgetView()))
    {
      if budget != null && assembling {
        budget.Release(totalLength);
      }
      assembling, fragCount, nextIndex, tag, totalLength, body := false, 0, 0, 0, 0, [];
    }

    /** The fragment continues the message in progress, or that message is dropped. */
    method TakeFragment(h: Header, data: seq<byte>) returns (message: Option<Message>)
      requires Valid()
      modifies this, if budget == null then {} else {budget}
      ensures Valid()
      ensures Accepted(View(), BudgetView(), message) == Continue(old(View()), old(BudgetView()), h, data)
    {
      if !assembling || h.fragCount != fragCount || h.fragIndex != nextIndex {
        Reset();
        return None;
      }
      var expected := if h.flags.last then totalLength - |body| else MAX_FRAGMENT;
      if |data| != expected {
        Reset();
        return None;
      }
      body := body + data;
      nextIndex := nextIndex + 1;
      if nextIndex < fragCount {
        return None;
      }
      message := Some(Message(tag, body));
      Reset();
    }

    /** Packets come in the order of their seqs: a whole message, the start of one, or a fragment in the middle. */
    method TakePacket(h: Header, data: seq<byte>) returns (message: Option<Message>)
      requires Valid()
      modifies this, if budget == null then {} else {budget}
      ensures Valid()
      ensures Accepted(View(), BudgetView(), message) == Accept(old(View()), old(BudgetView()), h, data)
    {
      if !h.flags.fragmented {
        Reset();
        return Some(Message(h.tag, data));
      }
      if h.fragIndex == 0 {
        Reset();
        if h.totalLength > MAX_MESSAGE || FragmentsOf(h.totalLength) != h.fragCount {
          return None;
        }
        if budget != null {
          var ok := budget.Reserve(h.totalLength);
          if !ok {
            return None;
          }
        }
        assembling, fragCount, tag, totalLength := true, h.fragCount, h.tag, h.totalLength;
      }
      message := TakeFragment(h, data);
    }
  }
}
