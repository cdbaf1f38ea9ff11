/** Slots for Media messages with missing fragments. Nothing comes out of one but a message that was sent. */
module MediaAssembler {
  import opened Transport
  import opened PacketHeader
  import opened Fragments

  const SLOTS := 4

  datatype Slot = Slot(
    used: bool,
    id: nat,
    count: nat,
    received: nat,
    present: set<nat>, // indices of the fragments it has
    tag: nat,
    totalLength: nat,
    lastLength: nat,
    body: seq<byte>)

  const EMPTY := Slot(false, 0, 0, 0, {}, 0, 0, 0, [])

  datatype Slots = Slots(slots: seq<Slot>, abandoned: nat)

  const NO_MEDIA: MediaState := Slots([EMPTY, EMPTY, EMPTY, EMPTY], 0)

  predicate SlotSized(s: Slot) { |s.body| == s.count * MAX_FRAGMENT && s.lastLength <= MAX_FRAGMENT }

  /** The buffers of all slots have the size their messages need. */
  predicate Sized(st: Slots) {
    |st.slots| == SLOTS && forall i :: 0 <= i < |st.slots| ==> SlotSized(st.slots[i])
  }

  type MediaState = st: Slots | Sized(st) witness Slots([EMPTY, EMPTY, EMPTY, EMPTY], 0)

  // --- Which slot a message is put together in -------------------------------------

  /** The slot of a message in progress. */
  function SlotOf(slots: seq<Slot>, id: nat): (at: Option<nat>)
    ensures at.Some? ==> at.value < |slots| && slots[at.value].used && slots[at.value].id == id
    ensures at.None? ==> forall i :: 0 <= i < |slots| && slots[i].used ==> slots[i].id != id
  {
    if slots == [] then None
    else if slots[0].used && slots[0].id == id then Some(0)
    else
      var rest := SlotOf(slots[1..], id);
      assert rest.None? ==> forall i :: 1 <= i < |slots| && slots[i].used ==> slots[1..][i - 1].id != id;
      if rest.None? then None else Some(rest.value + 1)
  }

  /** The last slot that is not in use. */
  function FreeSlot(slots: seq<Slot>): (at: Option<nat>)
    ensures at.Some? ==> at.value < |slots| && !slots[at.value].used
    ensures at.None? ==> forall i :: 0 <= i < |slots| ==> slots[i].used
  {
    if slots == [] then None
    else if !slots[|slots| - 1].used then Some(|slots| - 1)
    else FreeSlot(slots[..|slots| - 1])
  }

  /** The slot in use with the lowest id. */
  function OldestSlot(slots: seq<Slot>): (at: Option<nat>)
    ensures at.Some? ==> at.value < |slots| && slots[at.value].used
    ensures at.Some? ==> forall i :: 0 <= i < |slots| && slots[i].used ==> slots[at.value].id <= slots[i].id
    ensures at.None? ==> forall i :: 0 <= i < |slots| ==> !slots[i].used
  {
    if slots == [] then None
    else
      var n := |slots| - 1;
      var before := OldestSlot(slots[..n]);
      if slots[n].used && (before.None? || slots[n].id < slots[before.value].id) then Some(n) else before
  }

  function NewSlot(id: nat, count: nat): Slot {
    EMPTY.(used := true, id := id, count := count, body := seq(count * MAX_FRAGMENT, _ => 0))
  }

  /** The slot for a message: its own, a free one, or the one of the oldest message if that is older. */
  function SlotFor(st: MediaState, id: nat, count: nat): (r: (MediaState, Option<nat>))
    ensures |r.0.slots| == |st.slots|
    ensures r.1.Some? ==> r.1.value < |st.slots| && r.0.slots[r.1.value].used && r.0.slots[r.1.value].id == id
  {
    var own := SlotOf(st.slots, id);
    if own.Some? then (st, own)
    else
      var free := FreeSlot(st.slots);
      if free.Some? then (st.(slots := st.slots[free.value := NewSlot(id, count)]), free)
      else
        var oldest := OldestSlot(st.slots);
        if oldest.None? || id < st.slots[oldest.value].id then (st, None)
        else (Slots(st.slots[oldest.value := NewSlot(id, count)], st.abandoned + 1), oldest)
  }

  /** With all slots taken by other messages, a message takes the place of the oldest one, which is counted as abandoned; one that
      is older than all of them gets none. Otherwise nothing is abandoned. */
  lemma EvictionLaw(st: MediaState, id: nat, count: nat)
    ensures var (st', at) := SlotFor(st, id, count);
      if (exists i :: 0 <= i < SLOTS && !st.slots[i].used) || (exists i :: 0 <= i < SLOTS && st.slots[i].id == id)
      then at.Some? && st'.abandoned == st.abandoned
      else if forall i :: 0 <= i < SLOTS ==> id < st.slots[i].id then st' == st && at.None?
      else
        && at.Some? && st'.abandoned == st.abandoned + 1 && (forall i :: 0 <= i < SLOTS ==> st.slots[at.value].id <= st.slots[i].id)
        && (forall i :: 0 <= i < SLOTS && i != at.value ==> st'.slots[i] == st.slots[i])
  {
    hide NewSlot;
  }

  // --- Taking a fragment --------------------------------------------------------------

  function Overwrite(s: seq<byte>, at: nat, part: seq<byte>): (r: seq<byte>)
    requires at + |part| <= |s|
    ensures |r| == |s|
  {
    s[..at] + part + s[at + |part|..]
  }

  /** The slot with one more fragment. */
  function Filled(s: Slot, h: Header, body: seq<byte>): Slot
    requires h.fragIndex * MAX_FRAGMENT + |body| <= |s.body|
  {
    s.(body := Overwrite(s.body, h.fragIndex * MAX_FRAGMENT, body),
       present := s.present + {h.fragIndex},
       received := s.received + 1,
       tag := if h.fragIndex == 0 then h.tag else s.tag,
       totalLength := if h.fragIndex == 0 then h.totalLength else s.totalLength,
       lastLength := if h.flags.last then |body| else s.lastLength)
  }

  predicate BodyFits(h: Header, size: nat) {
    if h.flags.last then 0 < size <= MAX_FRAGMENT else size == MAX_FRAGMENT
  }

  /** A packet for the slot: a whole message once nothing is missing. */
  function TakeInto(st: MediaState, at: nat, h: Header, body: seq<byte>): (MediaState, Option<Message>)
    requires at < SLOTS && |body| <= MAX_FRAGMENT && h.fragIndex < h.fragCount
  {
    var s := st.slots[at];
    if s.count != h.fragCount || h.fragIndex in s.present then (st, None)
    else
      var t := Filled(s, h, body);
      if t.received < t.count then (st.(slots := st.slots[at := t]), None)
      else
        var length := (t.count - 1) * MAX_FRAGMENT + t.lastLength;
        var done := st.(slots := st.slots[at := EMPTY]);
        if length != t.totalLength then (done, None) else (done, Some(Message(t.tag, t.body[..length])))
  }

  /** The next Media packet: fragments of whatever message, in whatever order. */
  function AcceptMedia(st: MediaState, h: Header, body: seq<byte>): (MediaState, Option<Message>) {
    if !h.flags.fragmented then (st, Some(Message(h.tag, body)))
    else if h.fragCount > 64 || h.sq <= h.fragIndex || !BodyFits(h, |body|) || h.fragIndex >= h.fragCount then (st, None)
    else
      var (st', at) := SlotFor(st, h.sq - h.fragIndex, h.fragCount);
      if at.None? then (st', None) else TakeInto(st', at.value, h, body)
  }

  // --- Integrity -----------------------------------------------------------------------

  /** The slot holds some fragments of the k-th message, where they belong. */
  ghost predicate HoldsPart(s: Slot, m: Message) {
    && s.count == Count(m) > 1
    && |s.body| == s.count * MAX_FRAGMENT
    && (forall i :: i in s.present ==> i < s.count)
    && s.received == |s.present| < s.count
    && s.lastLength <= MAX_FRAGMENT
    && (0 in s.present ==> s.tag == m.tag && s.totalLength == |m.body|)
    && (s.count - 1 in s.present ==> s.lastLength == |FragmentOf(m, s.count - 1).body|)
    && (forall i :: i in s.present ==> HoldsFragment(s.body, m, i))
  }

  ghost predicate HoldsFragment(body: seq<byte>, m: Message, i: nat) {
    && i < Count(m)
    && i * MAX_FRAGMENT + |FragmentOf(m, i).body| <= |body|
    && body[i * MAX_FRAGMENT..i * MAX_FRAGMENT + |FragmentOf(m, i).body|] == FragmentOf(m, i).body
  }

  ghost predicate SlotOk(s: Slot, D: seq<Message>) {
    if !s.used then s == EMPTY
    else exists k :: 0 <= k < |D| && s.id == Start(D, k) + 1 && HoldsPart(s, D[k])
  }

  /** Every message in progress is one that was sent. */
  ghost predicate MediaOk(st: MediaState, D: seq<Message>) { forall i :: 0 <= i < SLOTS ==> SlotOk(st.slots[i], D) }

  /** Messages sent later change nothing about those in progress. */
  lemma MediaOkGrows(st: MediaState, D: seq<Message>, m: Message)
    requires MediaOk(st, D)
    ensures MediaOk(st, D + [m])
  {
    forall i | 0 <= i < |st.slots|
      ensures SlotOk(st.slots[i], D + [m])
    {
      var s := st.slots[i];
      assert SlotOk(s, D);
      if s.used {
        var k :| 0 <= k < |D| && s.id == Start(D, k) + 1 && HoldsPart(s, D[k]);
        assert (D + [m])[..k] == D[..k] && (D + [m])[k] == D[k];
      }
    }
  }

  /** Fragments that are all in place form the message. */
  lemma {:induction false} FragmentsForm(body: seq<byte>, m: Message, j: nat)
    requires j <= Count(m) && |body| >= |Head(m, j)|
    requires forall i :: 0 <= i < j ==> HoldsFragment(body, m, i)
    ensures body[..|Head(m, j)|] == Head(m, j)
  {
    if j > 0 {
      FragmentJoins(m, j - 1);
      assert HoldsFragment(body, m, j - 1);
      FragmentsForm(body, m, j - 1);
      var at, end := |Head(m, j - 1)|, |Head(m, j)|;
      assert body[..end] == body[..at] + body[at..end];
    }
  }

  lemma OverwriteApart(s: seq<byte>, at: nat, part: seq<byte>, lo: nat, hi: nat)
    requires at + |part| <= |s| && lo <= hi <= |s| && (hi <= at || at + |part| <= lo)
    ensures Overwrite(s, at, part)[lo..hi] == s[lo..hi]
  {
    var r := Overwrite(s, at, part);
    forall k | lo <= k < hi
      ensures r[k] == s[k]
    {
    }
  }

  lemma OverwriteKeeps(body: seq<byte>, m: Message, i: nat, j: nat)
    requires i < Count(m) && j < Count(m) && i != j
    requires HoldsFragment(body, m, i) && j * MAX_FRAGMENT + |FragmentOf(m, j).body| <= |body|
    ensures HoldsFragment(Overwrite(body, j * MAX_FRAGMENT, FragmentOf(m, j).body), m, i)
  {
    hide Overwrite;
    var fi, fj := FragmentOf(m, i).body, FragmentOf(m, j).body;
    OverwriteApart(body, j * MAX_FRAGMENT, fj, i * MAX_FRAGMENT, i * MAX_FRAGMENT + |fi|);
  }

  lemma FullSet(s: set<nat>, n: nat)
    requires (forall i :: i in s ==> i < n) && |s| >= n
    ensures forall i :: 0 <= i < n ==> i in s
  {
    if n > 0 {
      var rest := s - {n - 1};
      if n - 1 !in s {
        assert rest == s;
        BoundedSize(s, n - 1);
      }
      FullSet(rest, n - 1);
    }
  }

  lemma BoundedSize(s: set<nat>, n: nat)
    requires forall i :: i in s ==> i < n
    ensures |s| <= n
  {
    if n == 0 {
      assert s == {};
    } else {
      BoundedSize(s - {n - 1}, n - 1);
    }
  }

  /** The fragment of the message goes to its place; what is there already stays. */
  lemma FilledFragments(s: Slot, m: Message, j: nat, p: Packet)
    requires HoldsPart(s, m) && j < s.count && Carries(p, FragmentOf(m, j), Media)
    ensures p.header.fragIndex * MAX_FRAGMENT + |p.body| <= |s.body|
    ensures forall i :: i in s.present + {j} ==> HoldsFragment(Filled(s, p.header, p.body).body, m, i)
  {
    FragmentJoins(m, j);
    var t := Filled(s, p.header, p.body);
    forall i | i in s.present + {j}
      ensures HoldsFragment(t.body, m, i)
    {
      if i != j {
        OverwriteKeeps(s.body, m, i, j);
      } else {
        var at := j * MAX_FRAGMENT;
        assert t.body[at..at + |p.body|] == p.body;
      }
    }
  }

  lemma FilledHolds(s: Slot, m: Message, j: nat, p: Packet)
    requires HoldsPart(s, m) && j < s.count && j !in s.present
    requires Carries(p, FragmentOf(m, j), Media)
    ensures p.header.fragIndex * MAX_FRAGMENT + |p.body| <= |s.body|
    ensures var t := Filled(s, p.header, p.body);
            && t.received == |t.present| && (forall i :: i in t.present ==> i < t.count)
            && (0 in t.present ==> t.tag == m.tag && t.totalLength == |m.body|)
            && (t.count - 1 in t.present ==> t.lastLength == |FragmentOf(m, t.count - 1).body|)
            && (forall i :: i in t.present ==> HoldsFragment(t.body, m, i))
  {
    FilledFragments(s, m, j, p);
    hide HoldsFragment, Overwrite;
  }

  /** Nothing is missing: the slot gives exactly the message. */
  lemma CompleteIsMessage(t: Slot, m: Message)
    requires t.count == Count(m) > 1 && |t.body| == t.count * MAX_FRAGMENT
    requires t.received == |t.present| >= t.count && (forall i :: i in t.present ==> i < t.count)
    requires 0 in t.present ==> t.tag == m.tag && t.totalLength == |m.body|
    requires t.count - 1 in t.present ==> t.lastLength == |FragmentOf(m, t.count - 1).body|
    requires forall i :: i in t.present ==> HoldsFragment(t.body, m, i)
    ensures (t.count - 1) * MAX_FRAGMENT + t.lastLength == t.totalLength <= |t.body|
    ensures Message(t.tag, t.body[..t.totalLength]) == m
  {
    FullSet(t.present, t.count);
    FragmentJoins(m, t.count - 1);
    FragmentsForm(t.body, m, t.count);
  }

  /** A fresh slot holds nothing of the message yet. */
  lemma NewSlotOk(st: MediaState, D: seq<Message>, k: nat)
    requires MediaOk(st, D) && k < |D| && Count(D[k]) > 1
    ensures var (st', at) := SlotFor(st, Start(D, k) + 1, Count(D[k]));
            MediaOk(st', D) && (at.Some? ==> HoldsPart(st'.slots[at.value], D[k]))
  {
    var id, m := Start(D, k) + 1, D[k];
    var (st', at) := SlotFor(st, id, Count(m));
    assert HoldsPart(NewSlot(id, Count(m)), m);
    forall i | 0 <= i < |st'.slots|
      ensures SlotOk(st'.slots[i], D)
    {
      if at != Some(i) || st'.slots[i] == st.slots[i] {
        assert SlotOk(st.slots[i], D);
      }
    }
    if at.Some? && SlotOf(st.slots, id).Some? {
      var s := st.slots[at.value];
      assert SlotOk(s, D);
      var l :| 0 <= l < |D| && s.id == Start(D, l) + 1 && HoldsPart(s, D[l]);
      StartUnique(D, k, l);
    }
  }

  lemma TakeIntoOk(st: MediaState, D: seq<Message>, k: nat, at: nat, j: nat, p: Packet)
    requires MediaOk(st, D) && k < |D| && at < SLOTS
    requires st.slots[at].used && st.slots[at].id == Start(D, k) + 1 && HoldsPart(st.slots[at], D[k])
    requires j < Count(D[k]) && Carries(p, FragmentOf(D[k], j), Media)
    ensures var (st', message) := TakeInto(st, at, p.header, p.body);
            MediaOk(st', D) && (message.Some? ==> message.value == D[k])
  {
    hide HoldsFragment, Overwrite, Start, MediaOk;
    var s, m := st.slots[at], D[k];
    assert p.header.fragIndex == j && p.header.fragCount == s.count;
    if j !in s.present {
      FilledHolds(s, m, j, p);
      var t := Filled(s, p.header, p.body);
      if t.received < t.count {
        assert HoldsPart(t, m);
        SetSlotOk(st, D, at, t);
      } else {
        CompleteIsMessage(t, m);
        SetSlotOk(st, D, at, EMPTY);
      }
    }
  }

  lemma SetSlotOk(st: MediaState, D: seq<Message>, at: nat, s: Slot)
    requires MediaOk(st, D) && at < SLOTS && SlotOk(s, D) && SlotSized(s)
    ensures MediaOk(st.(slots := st.slots[at := s]), D)
  {
  }

  /** A packet that carries a fragment of one of the messages. */
  datatype Piece = Piece(k: nat, j: nat, packet: Packet)

  ghost predicate IsPiece(D: seq<Message>, x: Piece) {
    && x.k < |D| && x.j < Count(D[x.k])
    && x.packet.header.sq == Start(D, x.k) + x.j + 1 && Carries(x.packet, FragmentOf(D[x.k], x.j), Media)
  }

  /** A message that fits one packet comes out with it. */
  lemma WholePiece(st: MediaState, D: seq<Message>, x: Piece)
    requires IsPiece(D, x) && Count(D[x.k]) == 1
    ensures AcceptMedia(st, x.packet.header, x.packet.body) == (st, Some(D[x.k]))
  {
    FragmentJoins(D[x.k], x.j);
    assert D[x.k].body == x.packet.body;
    hide Start;
  }

  lemma PieceShape(st: MediaState, D: seq<Message>, x: Piece)
    requires IsPiece(D, x) && 1 < Count(D[x.k]) <= 64
    ensures var h, body := x.packet.header, x.packet.body;
      && |body| <= MAX_FRAGMENT && h.fragIndex < h.fragCount && h.fragIndex == x.j
      && var (st', at) := SlotFor(st, Start(D, x.k) + 1, Count(D[x.k]));
         AcceptMedia(st, h, body) == if at.None? then (st', None) else TakeInto(st', at.value, h, body)
  {
    FragmentJoins(D[x.k], x.j);
    hide Start, TakeInto, SlotFor, FragmentOf;
  }

  lemma TooManyPieces(st: MediaState, D: seq<Message>, x: Piece)
    requires IsPiece(D, x) && Count(D[x.k]) > 64
    ensures AcceptMedia(st, x.packet.header, x.packet.body) == (st, None)
  {
    hide Start, FragmentOf, SlotFor, TakeInto;
    assert FragmentOf(D[x.k], x.j).count == Count(D[x.k]) by { FragmentFields(D[x.k], x.j); }
  }

  lemma FragmentFields(m: Message, j: nat)
    requires j < Count(m)
    ensures FragmentOf(m, j).count == Count(m) && FragmentOf(m, j).index == j
  {
  }

  /** Whatever fragments of sent messages arrive, in any order, duplicated, interleaved and under eviction: a message
      that comes out is one that was sent. */
  lemma AcceptMediaIntegrity(st: MediaState, D: seq<Message>, p: Packet, n: nat)
    requires MediaOk(st, D) && n < |Frags(D)| && p.header.sq == n + 1 && Carries(p, Frags(D)[n], Media)
    ensures var (st', message) := AcceptMedia(st, p.header, p.body);
            MediaOk(st', D) && (message.Some? ==> message.value in D)
  {
    hide MediaOk, SlotFor, TakeInto, AcceptMedia, Carries, FragmentOf, Frags, Start, HoldsPart;
    var k, j := Locate(D, n);
    var x := Piece(k, j, p);
    if Count(D[k]) == 1 {
      WholePiece(st, D, x);
    } else if Count(D[k]) > 64 {
      TooManyPieces(st, D, x);
    } else {
      PieceShape(st, D, x);
      NewSlotOk(st, D, k);
      var (st1, at) := SlotFor(st, Start(D, k) + 1, Count(D[k]));
      if at.Some? { TakeIntoOk(st1, D, k, at.value, j, p); }
    }
  }

  // --- Nothing is lost while no more messages are in progress than there are slots ---------------------------

  /** A message of more fragments than that is not assembled at all. */
  ghost predicate Takeable(D: seq<Message>, x: Piece) { IsPiece(D, x) && Count(D[x.k]) <= 64 }

  function AcceptEach(st: MediaState, pieces: seq<Piece>): (MediaState, seq<Message>) {
    if pieces == [] then (st, [])
    else
      var (st1, out) := AcceptEach(st, pieces[..|pieces| - 1]);
      var p := pieces[|pieces| - 1].packet;
      var (st2, message) := AcceptMedia(st1, p.header, p.body);
      (st2, if message.Some? then out + [message.value] else out)
  }

  ghost predicate StartsOne(D: seq<Message>, active: set<nat>, id: nat) {
    exists k :: k in active && k < |D| && id == Start(D, k) + 1
  }

  /** Every slot in use is of one of the messages, and no two are of the same. */
  ghost predicate Tidy(st: MediaState, D: seq<Message>, active: set<nat>) {
    && (forall i :: 0 <= i < SLOTS && st.slots[i].used ==> StartsOne(D, active, st.slots[i].id))
    && (forall i, j :: 0 <= i < j < SLOTS && st.slots[i].used && st.slots[j].used ==> st.slots[i].id != st.slots[j].id)
  }

  /** The slot has every fragment of the message that is among the pieces. */
  ghost predicate Collects(s: Slot, D: seq<Message>, k: nat, pieces: seq<Piece>)
    requires k < |D|
  {
    s.used && s.id == Start(D, k) + 1 && forall x :: x in pieces && x.k == k ==> x.j in s.present
  }

  /** The message came out, or what arrived of it waits in its slot. */
  ghost predicate Kept(st: MediaState, D: seq<Message>, k: nat, pieces: seq<Piece>, out: seq<Message>)
    requires k < |D|
  {
    || D[k] in out
    || (forall x :: x in pieces ==> x.k != k)
    || exists i :: 0 <= i < SLOTS && Collects(st.slots[i], D, k, pieces)
  }

  lemma {:induction false} FourAtMost(a: set<nat>, w: nat, x: nat, y: nat, z: nat)
    requires {w, x, y, z} <= a && w != x && w != y && w != z && x != y && x != z && y != z
    ensures |a| >= 4
  {
    assert |{w, x, y, z}| == 4;
    FewerIn({w, x, y, z}, a);
  }

  lemma FewerIn(a: set<nat>, b: set<nat>)
    requires a <= b
    ensures |a| <= |b|
  {
    assert b == a + (b - a);
  }

  /** With four messages at most, one that has no slot finds a free one. */
  lemma SlotIsFree(st: MediaState, D: seq<Message>, active: set<nat>, k: nat)
    requires Tidy(st, D, active) && |active| <= SLOTS && k in active && k < |D| && SlotOf(st.slots, Start(D, k) + 1).None?
    ensures FreeSlot(st.slots).Some?
  {
    if FreeSlot(st.slots).None? {
      hide Start;
      var w :| w in active && w < |D| && st.slots[0].id == Start(D, w) + 1;
      var x :| x in active && x < |D| && st.slots[1].id == Start(D, x) + 1;
      var y :| y in active && y < |D| && st.slots[2].id == Start(D, y) + 1;
      var z :| z in active && z < |D| && st.slots[3].id == Start(D, z) + 1;
      FourAtMost(active - {k}, w, x, y, z);
    }
  }

  /** Its own slot or a free one; the others stay as they are. */
  lemma SlotForTidy(st: MediaState, D: seq<Message>, active: set<nat>, k: nat)
    requires Tidy(st, D, active) && |active| <= SLOTS && k in active && k < |D|
    ensures var (st', at) := SlotFor(st, Start(D, k) + 1, Count(D[k]));
      && at.Some? && Tidy(st', D, active) && (forall i :: 0 <= i < SLOTS && i != at.value ==> st'.slots[i] == st.slots[i])
      && (st.slots[at.value].used ==> st' == st)
      && (!st.slots[at.value].used ==> forall i :: 0 <= i < SLOTS && st.slots[i].used ==> st.slots[i].id != Start(D, k) + 1)
  {
    var id := Start(D, k) + 1;
    if SlotOf(st.slots, id).None? { SlotIsFree(st, D, active, k); }
    var (st', at) := SlotFor(st, id, Count(D[k]));
    assert StartsOne(D, active, id);
    hide StartsOne, Start;
  }

  /** The fragment is kept, or it was the last one missing and the message comes out. */
  lemma TakeIntoKeeps(st: MediaState, D: seq<Message>, k: nat, at: nat, j: nat, p: Packet)
    requires k < |D| && at < SLOTS && st.slots[at].used && HoldsPart(st.slots[at], D[k])
    requires j < Count(D[k]) && Carries(p, FragmentOf(D[k], j), Media)
    ensures var (st', message) := TakeInto(st, at, p.header, p.body); var s, s' := st.slots[at], st'.slots[at];
      && (forall i :: 0 <= i < SLOTS && i != at ==> st'.slots[i] == st.slots[i])
      && (message.Some? ==> message.value == D[k] && !s'.used)
      && (message.None? ==> s'.used && s'.id == s.id && s'.present == s.present + {j})
  {
    hide HoldsFragment, Overwrite, Start;
    var s, m := st.slots[at], D[k];
    assert p.header.fragIndex == j && p.header.fragCount == s.count;
    if j in s.present {
      assert s.present + {j} == s.present;
    } else {
      FilledHolds(s, m, j, p);
      var t := Filled(s, p.header, p.body);
      if t.received >= t.count { CompleteIsMessage(t, m); }
    }
  }

  lemma SlotChangedTidy(st: MediaState, st': MediaState, D: seq<Message>, active: set<nat>, at: nat)
    requires Tidy(st, D, active) && at < SLOTS && (forall i :: 0 <= i < SLOTS && i != at ==> st'.slots[i] == st.slots[i])
    requires st.slots[at].used && (st'.slots[at].used ==> st'.slots[at].id == st.slots[at].id)
    ensures Tidy(st', D, active)
  {
    hide StartsOne;
  }

  ghost function OutWith(out: seq<Message>, message: Option<Message>): seq<Message> {
    if message.Some? then out + [message.value] else out
  }

  /** The other messages keep what they have. */
  lemma OthersKept(st: MediaState, st': MediaState, D: seq<Message>, k: nat, pieces: seq<Piece>, out: seq<Message>, x: Piece,
                   at: nat, message: Option<Message>)
    requires k < |D| && x.k < |D| && x.k != k && at < SLOTS && Kept(st, D, k, pieces, out)
    requires st.slots[at].used ==> st.slots[at].id == Start(D, x.k) + 1
    requires forall i :: 0 <= i < SLOTS && i != at ==> st'.slots[i] == st.slots[i]
    ensures Kept(st', D, k, pieces + [x], OutWith(out, message))
  {
    if D[k] in out {
      assert D[k] in OutWith(out, message);
    } else if exists i :: 0 <= i < SLOTS && Collects(st.slots[i], D, k, pieces) {
      var i :| 0 <= i < SLOTS && Collects(st.slots[i], D, k, pieces);
      if i == at { StartUnique(D, k, x.k); }
      assert Collects(st'.slots[i], D, k, pieces + [x]);
    }
  }

  /** The message itself has one fragment more, or comes out. */
  lemma SelfKept(st: MediaState, st1: MediaState, st': MediaState, D: seq<Message>, active: set<nat>, pieces: seq<Piece>,
                 out: seq<Message>, x: Piece, at: nat, message: Option<Message>)
    requires x.k < |D| && at < SLOTS && Tidy(st, D, active) && Kept(st, D, x.k, pieces, out)
    requires st1.slots[at].used && st1.slots[at].id == Start(D, x.k) + 1 && (st.slots[at].used ==> st1 == st)
    requires !st.slots[at].used ==> forall i :: 0 <= i < SLOTS && st.slots[i].used ==> st.slots[i].id != Start(D, x.k) + 1
    requires message.Some? ==> message.value == D[x.k]
    requires message.None? ==> st'.slots[at].used && st'.slots[at].id == st1.slots[at].id
    requires message.None? ==> st'.slots[at].present == st1.slots[at].present + {x.j}
    ensures Kept(st', D, x.k, pieces + [x], OutWith(out, message))
  {
    if message.Some? {
      assert D[x.k] in OutWith(out, message);
    } else if D[x.k] !in out {
      if exists y :: y in pieces && y.k == x.k {
        var i :| 0 <= i < SLOTS && Collects(st.slots[i], D, x.k, pieces);
        assert i == at;
      }
      assert Collects(st'.slots[at], D, x.k, pieces + [x]);
    }
  }

  ghost predicate Underway(st: MediaState, D: seq<Message>, active: set<nat>) {
    MediaOk(st, D) && Tidy(st, D, active) && |active| <= SLOTS
  }

  /** What a fragment leaves of the slots. */
  lemma PartStep(st: MediaState, D: seq<Message>, active: set<nat>, x: Piece, k: nat, pieces: seq<Piece>, out: seq<Message>)
    requires Underway(st, D, active) && IsPiece(D, x) && 1 < Count(D[x.k]) <= 64 && x.k in active && k < |D|
    requires Kept(st, D, k, pieces, out)
    ensures var (st', message) := AcceptMedia(st, x.packet.header, x.packet.body);
      Tidy(st', D, active) && Kept(st', D, k, pieces + [x], OutWith(out, message))
  {
    hide MediaOk, Tidy, Kept, Start, AcceptMedia, HoldsPart, Carries, SlotFor, TakeInto, FragmentOf;
    PieceShape(st, D, x);
    SlotForTidy(st, D, active, x.k);
    NewSlotOk(st, D, x.k);
    var (st1, at) := SlotFor(st, Start(D, x.k) + 1, Count(D[x.k]));
    var (st', message) := AcceptMedia(st, x.packet.header, x.packet.body);
    TakeIntoKeeps(st1, D, x.k, at.value, x.j, x.packet);
    SlotChangedTidy(st1, st', D, active, at.value);
    if x.k == k {
      SelfKept(st, st1, st', D, active, pieces, out, x, at.value, message);
    } else {
      OthersKept(st, st', D, k, pieces, out, x, at.value, message);
    }
  }

  lemma PieceStep(st: MediaState, D: seq<Message>, active: set<nat>, x: Piece, k: nat, pieces: seq<Piece>, out: seq<Message>)
    requires Underway(st, D, active) && Takeable(D, x) && x.k in active && k < |D| && Kept(st, D, k, pieces, out)
    ensures var (st', message) := AcceptMedia(st, x.packet.header, x.packet.body);
      Underway(st', D, active) && Kept(st', D, k, pieces + [x], OutWith(out, message))
  {
    hide MediaOk, Tidy, Kept, AcceptMedia, FragmentOf, Carries;
    FragAt(D, x.k, x.j);
    AcceptMediaIntegrity(st, D, x.packet, Start(D, x.k) + x.j);
    hide Start;
    if Count(D[x.k]) == 1 {
      WholePiece(st, D, x);
      WholeKept(st, D, k, pieces, out, x);
    } else {
      PartStep(st, D, active, x, k, pieces, out);
    }
  }

  lemma WholeKept(st: MediaState, D: seq<Message>, k: nat, pieces: seq<Piece>, out: seq<Message>, x: Piece)
    requires k < |D| && x.k < |D| && Kept(st, D, k, pieces, out)
    ensures Kept(st, D, k, pieces + [x], OutWith(out, Some(D[x.k])))
  {
    if x.k == k || D[k] in out {
      assert D[k] in OutWith(out, Some(D[x.k]));
    } else if exists i :: 0 <= i < SLOTS && Collects(st.slots[i], D, k, pieces) {
      var i :| 0 <= i < SLOTS && Collects(st.slots[i], D, k, pieces);
      assert Collects(st.slots[i], D, k, pieces + [x]);
    }
  }

  lemma NothingKept(D: seq<Message>, active: set<nat>, k: nat)
    requires |active| <= SLOTS && k < |D|
    ensures Underway(NO_MEDIA, D, active) && Kept(NO_MEDIA, D, k, [], [])
  {
  }

  lemma {:induction false} PiecesKept(D: seq<Message>, active: set<nat>, pieces: seq<Piece>, k: nat)
    requires |active| <= SLOTS && k < |D| && forall x :: x in pieces ==> Takeable(D, x) && x.k in active
    ensures var (st, out) := AcceptEach(NO_MEDIA, pieces); Underway(st, D, active) && Kept(st, D, k, pieces, out)
  {
    hide Underway, Kept, Takeable, AcceptMedia;
    if pieces == [] {
      NothingKept(D, active, k);
    } else {
      var n := |pieces| - 1;
      PiecesKept(D, active, pieces[..n], k);
      var (st, out) := AcceptEach(NO_MEDIA, pieces[..n]);
      PieceStep(st, D, active, pieces[n], k, pieces[..n], out);
      assert pieces[..n] + [pieces[n]] == pieces;
    }
  }

  ghost predicate Arrived(pieces: seq<Piece>, k: nat, j: nat) { exists x :: x in pieces && x.k == k && x.j == j }

  /** As long as the fragments that arrive are of four messages at most, in whatever order, repeated and interleaved:
      every message all of whose fragments arrived came out. */
  lemma MediaComesOut(D: seq<Message>, active: set<nat>, pieces: seq<Piece>, k: nat)
    requires |active| <= SLOTS && k < |D| && forall x :: x in pieces ==> Takeable(D, x) && x.k in active
    requires forall j :: 0 <= j < Count(D[k]) ==> Arrived(pieces, k, j)
    ensures D[k] in AcceptEach(NO_MEDIA, pieces).1
  {
    hide AcceptEach, Takeable, Start, MediaOk, Tidy;
    PiecesKept(D, active, pieces, k);
    var (st, out) := AcceptEach(NO_MEDIA, pieces);
    if D[k] !in out {
      assert Arrived(pieces, k, 0);
      var i :| 0 <= i < SLOTS && Collects(st.slots[i], D, k, pieces);
      forall j | 0 <= j < Count(D[k])
        ensures j in st.slots[i].present
      {
        assert Arrived(pieces, k, j);
      }
      FullSlotIsOut(st, D, k, i);
    }
  }

  /** A slot never holds a message that is complete. */
  lemma FullSlotIsOut(st: MediaState, D: seq<Message>, k: nat, i: nat)
    requires MediaOk(st, D) && k < |D| && i < SLOTS && st.slots[i].used && st.slots[i].id == Start(D, k) + 1
    ensures exists j :: 0 <= j < Count(D[k]) && j !in st.slots[i].present
  {
    var s := st.slots[i];
    assert SlotOk(s, D);
    var l :| 0 <= l < |D| && s.id == Start(D, l) + 1 && HoldsPart(s, D[l]);
    StartUnique(D, k, l);
    if forall j :: 0 <= j < Count(D[k]) ==> j in s.present {
      Numbers(s.present, s.count);
    }
  }

  lemma Numbers(s: set<nat>, n: nat)
    requires forall j :: 0 <= j < n ==> j in s
    ensures |s| >= n
  {
    if n > 0 { Numbers(s - {n - 1}, n - 1); }
  }

  // --- As the source keeps them ----------------------------------------------------------

  class MediaAssembler {
    const slots: array<Slot>
    var abandoned: nat

    constructor ()
      ensures Valid() && View() == NO_MEDIA && fresh(slots)
    {
      slots := new Slot[SLOTS](_ => EMPTY);
      abandoned := 0;
      new;
      assert slots[..] == [EMPTY, EMPTY, EMPTY, EMPTY];
    }

    ghost predicate Valid()
      reads this, slots
    {
      Sized(Slots(slots[..], abandoned))
    }

    ghost function View(): MediaState
      requires Valid()
      reads this, slots
    {
      Slots(slots[..], abandoned)
    }

    /** One pass over the slots finds the message's own, the free and the oldest one. */
    method Scan(id: nat) returns (own: Option<nat>, free: Option<nat>, oldest: Option<nat>)
      ensures own == SlotOf(slots[..], id)
      ensures own.None? ==> free == FreeSlot(slots[..]) && oldest == OldestSlot(slots[..])
    {
      own, free, oldest := None, None, None;
      ghost var all := slots[..];
      for i := 0 to slots.Length
        invariant free == FreeSlot(all[..i]) && oldest == OldestSlot(all[..i])
        invariant forall j :: 0 <= j < i && all[j].used ==> all[j].id != id
      {
        assert all[..i + 1][..i] == all[..i];
        if slots[i].used && slots[i].id == id {
          FirstOwn(all, id, i);
          own := Some(i);
          return;
        }
        if !slots[i].used {
          free := Some(i);
        } else if oldest.None? || slots[i].id < slots[oldest.value].id {
          oldest := Some(i);
        }
      }
      assert all[..slots.Length] == all;
    }

    method FindSlot(id: nat, count: nat) returns (at: Option<nat>)
      requires Valid()
      modifies this, slots
      ensures Valid() && (View(), at) == SlotFor(old(View()), id, count)
    {
      hide SlotOf, FreeSlot, OldestSlot;
      ghost var all := slots[..];
      var own, free, oldest := Scan(id);
      if own.Some? {
        return own;
      }
      if free.None? {
        if oldest.None? || id < slots[oldest.value].id {
          return None;
        }
        free := oldest;
        abandoned := abandoned + 1;
      }
      slots[free.value] := NewSlot(id, count);
      assert slots[..] == all[free.value := NewSlot(id, count)];
      return free;
    }

    /** Puts the fragment into the slot, and gives the message out once nothing is missing. */
    method PutInto(at: nat, h: Header, body: seq<byte>) returns (message: Option<Message>)
      requires Valid() && at < slots.Length && |body| <= MAX_FRAGMENT && h.fragIndex < h.fragCount
      modifies this, slots
      ensures Valid() && (View(), message) == TakeInto(old(View()), at, h, body)
    {
      ghost var was := slots[..];
      var s := slots[at];
      assert SlotSized(was[at]);
      if s.count != h.fragCount || h.fragIndex in s.present {
        return None;
      }
      s := s.(body := Overwrite(s.body, h.fragIndex * MAX_FRAGMENT, body),
              present := s.present + {h.fragIndex}, received := s.received + 1);
      if h.fragIndex == 0 {
        s := s.(tag := h.tag, totalLength := h.totalLength);
      }
      if h.flags.last {
        s := s.(lastLength := |body|);
      }
      assert s == Filled(was[at], h, body);
      slots[at] := s;
      if s.received < s.count {
        return None;
      }
      var length := (s.count - 1) * MAX_FRAGMENT + s.lastLength;
      slots[at] := EMPTY;
      assert slots[..] == was[at := EMPTY];
      if length != s.totalLength {
        return None;
      }
      return Some(Message(s.tag, s.body[..length]));
    }

    /** The next Media packet. */
    method Take(h: Header, body: seq<byte>) returns (message: Option<Message>)
      requires Valid()
      modifies this, slots
      ensures Valid() && (View(), message) == AcceptMedia(old(View()), h, body)
    {
      if !h.flags.fragmented {
        return Some(Message(h.tag, body));
      }
      if h.fragCount > 64 || h.sq <= h.fragIndex || h.fragIndex >= h.fragCount {
        return None;
      }
      if (if h.flags.last then body == [] || |body| > MAX_FRAGMENT else |body| != MAX_FRAGMENT) {
        return None;
      }
      var at := FindSlot(h.sq - h.fragIndex, h.fragCount);
      if at.None? {
        return None;
      }
      message := PutInto(at.value, h, body);
    }
  }

  /** The first match of a scan is the slot of the message. */
  lemma {:induction false} FirstOwn(slots: seq<Slot>, id: nat, i: nat)
    requires i < |slots| && slots[i].used && slots[i].id == id
    requires forall j :: 0 <= j < i && slots[j].used ==> slots[j].id != id
    ensures SlotOf(slots, id) == Some(i)
  {
    if i > 0 {
      FirstOwn(slots[1..], id, i - 1);
    }
  }
}
