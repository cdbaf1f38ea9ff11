/** Messages cut into fragments: which fragment the n-th packet of a lane carries. */
module Fragments {
  import opened Transport
  import opened PacketFlags
  import opened PacketHeader

  datatype Message = Message(tag: nat, body: seq<byte>)

  /** The part of a message one packet carries. */
  datatype Fragment = Fragment(tag: nat, total: nat, index: nat, count: nat, body: seq<byte>)

  /** What the layer above hands to a lane. */
  predicate Sendable(m: Message, lane: Lane) {
    m.tag < U32 && |m.body| <= MaxMessageSize(lane)
  }

  function Count(m: Message): (n: nat)
    ensures n >= 1
  {
    FragmentsOf(|m.body|)
  }

  /** Everything in front of the j-th fragment. */
  function Head(m: Message, j: nat): seq<byte>
    requires j <= Count(m)
  {
    m.body[..Min(j * MAX_FRAGMENT, |m.body|)]
  }

  function FragmentOf(m: Message, j: nat): (f: Fragment)
    requires j < Count(m)
    ensures |f.body| <= MAX_FRAGMENT
  {
    Fragment(m.tag, |m.body|, j, Count(m), m.body[j * MAX_FRAGMENT..Min((j + 1) * MAX_FRAGMENT, |m.body|)])
  }

  /** Fragments in front of the last one are full, and every one begins where the one before ended. */
  lemma FragmentJoins(m: Message, j: nat)
    requires j < Count(m)
    ensures Head(m, j) + FragmentOf(m, j).body == Head(m, j + 1)
    ensures |Head(m, j)| == j * MAX_FRAGMENT
    ensures j + 1 < Count(m) ==> |FragmentOf(m, j).body| == MAX_FRAGMENT
    ensures j + 1 == Count(m) ==> Head(m, j + 1) == m.body && |FragmentOf(m, j).body| == |m.body| - j * MAX_FRAGMENT
    ensures Count(m) > 1 ==> |FragmentOf(m, j).body| > 0
  {
    var n, c := |m.body|, Count(m);
    assert j * MAX_FRAGMENT <= n && (j + 1 < c ==> (j + 1) * MAX_FRAGMENT < n) && (j + 1 == c ==> (j + 1) * MAX_FRAGMENT >= n);
    assert c > 1 ==> j * MAX_FRAGMENT < n;
    var at, end := j * MAX_FRAGMENT, Min((j + 1) * MAX_FRAGMENT, n);
    assert m.body[..at] + m.body[at..end] == m.body[..end];
    assert j + 1 == c ==> m.body[..end] == m.body;
  }

  function FragmentsFrom(m: Message): (s: seq<Fragment>)
    ensures |s| == Count(m)
  {
    seq(Count(m), j requires 0 <= j < Count(m) => FragmentOf(m, j))
  }

  /** The fragments of the messages of a lane, one behind the other: the packet with seq q carries Frags(D)[q - 1]. */
  function Frags(D: seq<Message>): seq<Fragment> {
    if D == [] then [] else Frags(D[..|D| - 1]) + FragmentsFrom(D[|D| - 1])
  }

  /** Where the fragments of the k-th message start. */
  function Start(D: seq<Message>, k: nat): nat
    requires k <= |D|
  {
    |Frags(D[..k])|
  }

  lemma FragsAppend(D: seq<Message>, m: Message)
    ensures Frags(D + [m]) == Frags(D) + FragmentsFrom(m)
  {
    assert (D + [m])[..|D|] == D;
  }

  /** More messages leave the fragments of the earlier ones where they are. */
  lemma {:induction false} FragsPrefix(D: seq<Message>, k: nat)
    requires k <= |D|
    ensures Frags(D[..k]) <= Frags(D)
    decreases |D|
  {
    if k < |D| {
      FragsPrefix(D[..|D| - 1], k);
      assert D[..|D| - 1][..k] == D[..k];
    } else {
      assert D[..k] == D;
    }
  }

  lemma StartNext(D: seq<Message>, k: nat)
    requires k < |D|
    ensures Start(D, k + 1) == Start(D, k) + Count(D[k])
    ensures Frags(D[..k + 1]) == Frags(D[..k]) + FragmentsFrom(D[k])
  {
    assert D[..k + 1][..k] == D[..k] && D[..k + 1][k] == D[k];
  }

  /** The j-th fragment of the k-th message is where it is expected. */
  lemma FragAt(D: seq<Message>, k: nat, j: nat)
    requires k < |D| && j < Count(D[k])
    ensures Start(D, k) + j < |Frags(D)| && Frags(D)[Start(D, k) + j] == FragmentOf(D[k], j)
  {
    StartNext(D, k);
    FragsPrefix(D, k + 1);
    assert FragmentsFrom(D[k])[j] == FragmentOf(D[k], j);
  }

  /** Every position belongs to one message. */
  lemma {:induction false} Locate(D: seq<Message>, n: nat) returns (k: nat, j: nat)
    requires n < |Frags(D)|
    ensures k < |D| && j < Count(D[k]) && n == Start(D, k) + j && Frags(D)[n] == FragmentOf(D[k], j)
    decreases |D|
  {
    var last := |D| - 1;
    var before := Frags(D[..last]);
    if n >= |before| {
      k, j := last, n - |before|;
    } else {
      k, j := Locate(D[..last], n);
      assert D[..last][..k] == D[..k];
    }
    FragAt(D, k, j);
  }

  lemma {:induction false} StartMonotone(D: seq<Message>, k: nat, l: nat)
    requires k < l <= |D|
    ensures Start(D, k) + Count(D[k]) <= Start(D, l)
    decreases l - k
  {
    StartNext(D, k);
    if k + 1 < l {
      StartMonotone(D, k + 1, l);
    }
  }

  /** Two messages never start at the same place. */
  lemma StartUnique(D: seq<Message>, k: nat, l: nat)
    requires k <= |D| && l <= |D| && Start(D, k) == Start(D, l)
    ensures k == l
  {
    if k < l { StartMonotone(D, k, l); }
    if l < k { StartMonotone(D, l, k); }
  }

  function FragmentFlags(lane: Lane, f: Fragment): Flags {
    SetFragment(DataFlags(lane), f.count > 1, f.index + 1 == f.count)
  }

  /** The packet, as it is built or as it is read from the wire, carries the fragment. */
  predicate Carries(p: Packet, f: Fragment, lane: Lane) {
    && p.body == f.body
    && p.header.flags == FragmentFlags(lane, f)
    && (f.count > 1 ==> p.header.fragIndex == f.index && p.header.fragCount == f.count)
    && (f.index == 0 ==> p.header.tag == f.tag)
    && (f.count > 1 && f.index == 0 ==> p.header.totalLength == f.total)
  }

  lemma CanonicalCarries(p: Packet, f: Fragment, lane: Lane)
    requires Carries(p, f, lane)
    ensures Carries(Packet(p.header.Canonical(), p.body), f, lane)
  {
  }
}
