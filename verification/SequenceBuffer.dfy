/** A ring of slots keyed by sequence number, and the map it stands for. */
module SequenceBuffer {
  import opened Transport

  /** The slot of a seq: its remainder. */
  function Index(q: nat, capacity: nat): (i: nat)
    requires capacity > 0
    ensures i < capacity
  {
    if q < capacity then q else Index(q - capacity, capacity)
  }

  /** The map after an insert: whatever shared the slot of the seq is gone. */
  function RingInsert<T>(m: map<nat, T>, capacity: nat, q: nat, value: T): map<nat, T>
    requires capacity > 0
  {
    (map k | k in m && Index(k, capacity) != Index(q, capacity) :: m[k])[q := value]
  }

  /** A map with the right entries is the one an insert gives. */
  lemma RingInsertIs<T>(m: map<nat, T>, capacity: nat, q: nat, value: T, r: map<nat, T>)
    requires capacity > 0
    requires forall k :: k in r <==> k == q || (k in m && Index(k, capacity) != Index(q, capacity))
    requires forall k :: k in r && k != q ==> k in m && r[k] == m[k]
    requires r[q] == value
    ensures r == RingInsert(m, capacity, q, value)
  {
  }

  ghost predicate InWindow<T>(m: map<nat, T>, base: nat, capacity: nat) {
    forall k :: k in m ==> base <= k < base + capacity
  }

  lemma {:induction false} SameSlot(a: nat, b: nat, capacity: nat)
    requires capacity > 0 && Index(a, capacity) == Index(b, capacity)
    requires a < b + capacity && b < a + capacity
    ensures a == b
  {
    if a >= capacity && b >= capacity {
      SameSlot(a - capacity, b - capacity, capacity);
    }
  }

  /** While all live seqs lie within one window, the ring is a plain map: no live seq evicts another. */
  lemma NoEviction<T>(m: map<nat, T>, capacity: nat, base: nat, q: nat, value: T)
    requires capacity > 0 && InWindow(m, base, capacity) && base <= q < base + capacity
    ensures RingInsert(m, capacity, q, value) == m[q := value]
  {
    forall k | k in m && Index(k, capacity) == Index(q, capacity)
      ensures k == q
    {
      SameSlot(k, q, capacity);
    }
  }

  /** Bit by bit, the lowest first. */
  function And(a: nat, b: nat): nat {
    if a == 0 || b == 0 then 0 else 2 * And(a / 2, b / 2) + (if a % 2 == 1 && b % 2 == 1 then 1 else 0)
  }

  lemma {:induction false} HalfIndex(q: nat, capacity: nat)
    requires capacity > 0
    ensures Index(q, 2 * capacity) == 2 * Index(q / 2, capacity) + q % 2
    decreases q
  {
    if q >= 2 * capacity { HalfIndex(q - 2 * capacity, capacity); }
  }

  lemma {:induction false} NoBits(a: nat)
    ensures And(a, 0) == 0
  {
  }

  /** Whatever power of two the capacity is, masking a seq with one less picks its slot. */
  lemma {:induction false} MaskIsIndex(q: nat, n: nat)
    ensures And(q, Pow2(n) - 1) == Index(q, Pow2(n))
    decreases n
  {
    if n == 0 {
      NoBits(q);
      OneSlot(q);
    } else {
      MaskIsIndex(q / 2, n - 1);
      HalfIndex(q, Pow2(n - 1));
    }
  }

  lemma {:induction false} OneSlot(q: nat)
    ensures Index(q, 1) == 0
  {
    if q > 0 { OneSlot(q - 1); }
  }

  /** The windows of the lanes are powers of two. */
  lemma WindowMasks(q: nat, lane: Lane)
    ensures And(q, Window(lane) - 1) == Index(q, Window(lane))
  {
    assert Pow2(4) == 16 && Pow2(5) == 32 && Pow2(8) == 256;
    MaskIsIndex(q, if lane == Control then 5 else 8);
  }

  datatype Slot<T> = Slot(sq: nat, occupied: bool, value: T)

  class SequenceBuffer<T> {
    const slots: array<Slot<T>>
    const blank: T
    var size: nat

    /** Every entry is in the slot its seq belongs to. */
    ghost predicate Placed()
      reads slots
    {
      && slots.Length > 0
      && forall i :: 0 <= i < slots.Length && slots[i].occupied ==> Index(slots[i].sq, slots.Length) == i
    }

    ghost predicate Has(q: nat)
      requires slots.Length > 0
      reads slots
    {
      slots[Index(q, slots.Length)].occupied && slots[Index(q, slots.Length)].sq == q
    }

    ghost function Keys(): (keys: set<nat>)
      requires Placed()
      ensures forall q :: q in keys <==> Has(q)
      reads slots
    {
      var keys := set i | 0 <= i < slots.Length && slots[i].occupied :: slots[i].sq;
      assert forall q :: Has(q) ==> slots[Index(q, slots.Length)].sq in keys;
      keys
    }

    /** ... and size counts the entries. */
    ghost predicate Valid()
      reads this, slots
    {
      Placed() && size == |Keys()|
    }

    ghost function Contents(): map<nat, T>
      requires Valid()
      reads this, slots
    {
      map q | q in Keys() :: slots[Index(q, slots.Length)].value
    }

    constructor (capacity: nat, blank: T)
      requires capacity > 0
      ensures Valid() && Contents() == map[] && slots.Length == capacity && fresh(slots)
    {
      this.slots := new Slot<T>[capacity](_ => Slot(0, false, blank));
      this.blank := blank;
      this.size := 0;
      new;
      assert Keys() == {};
    }

    /** Writes the slot of the seq and counts it if it was empty. */
    method Store(q: nat, value: T)
      requires Valid()
      modifies this, slots
      ensures Valid()
      ensures forall k :: Has(k) <==> k == q || (old(Has(k)) && Index(k, slots.Length) != Index(q, slots.Length))
      ensures slots[Index(q, slots.Length)] == Slot(q, true, value)
      ensures forall i :: 0 <= i < slots.Length && i != Index(q, slots.Length) ==> slots[i] == old(slots[i])
    {
      var at := Index(q, slots.Length);
      ghost var before := Keys();
      ghost var evicted := if slots[at].occupied then {slots[at].sq} else {};
      assert slots[at].occupied ==> Has(slots[at].sq);
      assert forall k :: k in before ==> (k in evicted <==> Index(k, slots.Length) == at);
      if !slots[at].occupied {
        size := size + 1;
      }
      slots[at] := Slot(q, true, value);
      assert Placed();
      assert forall k :: Has(k) <==> k == q || (old(Has(k)) && Index(k, slots.Length) != at);
      assert Keys() == before - evicted + {q};
      assert size == |Keys()| by {
        assert q !in before - evicted;
        assert |before - evicted| == |before| - |evicted|;
      }
    }

    /** An entry with another seq in the same slot is lost. */
    method Insert(q: nat, value: T)
      requires Valid()
      modifies this, slots
      ensures Valid()
      ensures Contents() == RingInsert(old(Contents()), slots.Length, q, value)
    {
      ghost var was := Contents();
      Store(q, value);
      RingInsertIs(was, slots.Length, q, value, Contents());
    }

    method Find(q: nat) returns (entry: Option<T>)
      requires Valid()
      ensures entry == if q in Contents() then Some(Contents()[q]) else None
    {
      var slot := slots[Index(q, slots.Length)];
      entry := if slot.occupied && slot.sq == q then Some(slot.value) else None;
      assert Has(q) <==> entry.Some?;
    }

    method Release(at: nat)
      requires Valid() && at < slots.Length && slots[at].occupied
      modifies this, slots
      ensures Valid()
      ensures Contents() == old(Contents()) - {old(slots[at].sq)}
      ensures !slots[at].occupied
      ensures forall i :: 0 <= i < slots.Length && i != at ==> slots[i] == old(slots[i])
    {
      ghost var q := slots[at].sq;
      assert Has(q);
      slots[at] := slots[at].(occupied := false, value := blank);
      size := size - 1;
      forall k
        ensures k in Keys() <==> k in old(Keys()) && k != q
      {
        assert Has(k) <==> Index(k, slots.Length) != at && old(Has(k));
      }
      assert Keys() == old(Keys()) - {q};
    }

    /** A look-up that leaves the slot free. */
    method Take(q: nat) returns (entry: Option<T>)
      requires Valid()
      modifies this, slots
      ensures Valid()
      ensures entry == if q in old(Contents()) then Some(old(Contents())[q]) else None
      ensures Contents() == old(Contents()) - {q}
    {
      var at := Index(q, slots.Length);
      assert Has(q) <==> slots[at].occupied && slots[at].sq == q;
      if !slots[at].occupied || slots[at].sq != q {
        assert Contents() - {q} == Contents();
        return None;
      }
      entry := Some(slots[at].value);
      Release(at);
    }

    /** The seqs of all entries, each once, in the order of the slots. */
    method Seqs() returns (visited: seq<nat>)
      requires Valid()
      ensures forall q :: q in visited <==> q in Contents()
      ensures forall i, j :: 0 <= i < j < |visited| ==> visited[i] != visited[j]
    {
      visited := [];
      for at := 0 to slots.Length
        invariant forall q :: q in visited <==> Has(q) && Index(q, slots.Length) < at
        invariant forall i, j :: 0 <= i < j < |visited| ==> visited[i] != visited[j]
      {
        var slot := slots[at];
        assert forall q :: Has(q) && Index(q, slots.Length) == at ==> slot.occupied && q == slot.sq;
        if slot.occupied {
          assert Has(slot.sq);
          assert slot.sq !in visited;
          visited := visited + [slot.sq];
        }
      }
    }
  }
}
