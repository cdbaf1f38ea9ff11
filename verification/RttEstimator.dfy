/** How long to wait for an Ack, in microseconds, after RFC 6298. */
module RttEstimator {
  import opened Transport

  datatype Rtt = Rtt(initialRto: int, minRto: int, maxRto: int, rto: int, srtt: int, rttVar: int, hasSample: bool) {
    function Clamp(v: int): int { if v < minRto then minRto else if v > maxRto then maxRto else v }

    /** The bounds make sense and the timeout keeps to them. */
    predicate Valid() { 0 < minRto <= maxRto && minRto <= rto <= maxRto && 0 <= srtt && 0 <= rttVar }
  }

  function NewRtt(initialRto: int, minRto: int, maxRto: int): Rtt {
    var r := Rtt(initialRto, minRto, maxRto, 0, 0, 0, false);
    r.(rto := r.Clamp(initialRto))
  }

  /** Sections 2.2 and 2.3: the first measurement, and every later one. */
  function AddSample(r: Rtt, sample: int): Rtt {
    if sample < 0 then r
    else
      var delta := if r.srtt > sample then r.srtt - sample else sample - r.srtt;
      var s :=
        if !r.hasSample then r.(srtt := sample, rttVar := sample / 2, hasSample := true)
        else r.(rttVar := (r.rttVar * 3 + delta) / 4, srtt := (r.srtt * 7 + sample) / 8);
      s.(rto := s.Clamp(s.srtt + Max(1000, 4 * s.rttVar)))
  }

  function Distance(a: int, b: int): int { if a > b then a - b else b - a }

  /** 7/8 of the smoothed time and 1/8 of the measurement; 3/4 of the variation and 1/4 of the distance of the two before;
      both rounded down. The timeout is the smoothed time and four variations or a millisecond, within its bounds. */
  ghost predicate Measured(r: Rtt, sample: int, r': Rtt) {
    && r'.hasSample
    && (if !r.hasSample then r'.srtt == sample && sample - 1 <= 2 * r'.rttVar <= sample
        else && 7 * r.srtt + sample - 8 < 8 * r'.srtt <= 7 * r.srtt + sample
             && 3 * r.rttVar + Distance(r.srtt, sample) - 4 < 4 * r'.rttVar <= 3 * r.rttVar + Distance(r.srtt, sample))
    && r'.rto == Max(r.minRto, Min(r.maxRto, Max(r'.srtt + 4 * r'.rttVar, r'.srtt + 1000)))
  }

  lemma SampleLaw(r: Rtt, sample: int)
    requires r.minRto <= r.maxRto
    ensures var r' := AddSample(r, sample);
      && r' == r.(rto := r'.rto, srtt := r'.srtt, rttVar := r'.rttVar, hasSample := r'.hasSample)
      && if sample < 0 then r' == r else Measured(r, sample, r')
  {
  }

  /** t * 2^n, one doubling at a time. */
  function Doubled(t: int, n: nat): int { if n == 0 then t else 2 * Doubled(t, n - 1) }

  lemma {:induction false} DoubledIsPower(t: int, n: nat)
    ensures Doubled(t, n) == t * Pow2(n)
  {
    if n > 0 {
      DoubledIsPower(t, n - 1);
      assert t * Pow2(n) == 2 * (t * Pow2(n - 1));
    }
  }

  /** Section 5.5: doubled per attempt, and never more than the maximum. */
  function TimeoutFor(r: Rtt, attempt: nat): int { Min(Doubled(r.rto, attempt), r.maxRto) }

  lemma {:induction false} DoubledGrows(t: int, i: nat, n: nat)
    requires i <= n && t > 0
    ensures t <= Doubled(t, i) <= Doubled(t, n)
    decreases n
  {
    if i > 0 {
      DoubledGrows(t, i - 1, n - 1);
    } else if n > 0 {
      DoubledGrows(t, 0, n - 1);
    }
  }

  /** The timeout of an attempt is min(RTO * 2^n, maxRto): at least the RTO, and it never shrinks from one to the next. */
  lemma TimeoutBounds(r: Rtt, attempt: nat)
    requires r.Valid()
    ensures TimeoutFor(r, attempt) == Min(r.rto * Pow2(attempt), r.maxRto)
    ensures r.rto <= TimeoutFor(r, attempt) <= TimeoutFor(r, attempt + 1) <= r.maxRto
  {
    DoubledIsPower(r.rto, attempt);
    DoubledGrows(r.rto, attempt, attempt + 1);
  }

  function AddSamples(r: Rtt, samples: seq<int>): Rtt {
    if samples == [] then r else AddSample(AddSamples(r, samples[..|samples| - 1]), samples[|samples| - 1])
  }

  /** After any measurements the smoothed time lies among them and the timeout within its bounds. */
  lemma {:induction false} SamplesBound(r: Rtt, samples: seq<int>, lo: int, hi: int)
    requires r.Valid() && !r.hasSample && 0 <= lo
    requires forall i :: 0 <= i < |samples| ==> lo <= samples[i] <= hi
    ensures var s := AddSamples(r, samples);
            && s.Valid() && (s.hasSample <==> samples != [])
            && (samples != [] ==> lo <= s.srtt <= hi && s.rto >= Min(s.maxRto, s.srtt + 1000) && s.rttVar <= hi)
  {
    if samples != [] {
      SamplesBound(r, samples[..|samples| - 1], lo, hi);
    }
  }

  predicate Between(v: int, a: int, b: int) { a <= v <= b || b <= v <= a }

  class RttEstimator {
    const initialRto: int
    const minRto: int
    const maxRto: int
    var rto: int
    var srtt: int
    var rttVar: int
    var hasSample: bool

    ghost function View(): Rtt
      reads this
    {
      Rtt(initialRto, minRto, maxRto, rto, srtt, rttVar, hasSample)
    }

    function Clamp(v: int): int { if v < minRto then minRto else if v > maxRto then maxRto else v }

    constructor (initialRto: int, minRto: int, maxRto: int)
      ensures View() == NewRtt(initialRto, minRto, maxRto)
    {
      this.initialRto, this.minRto, this.maxRto := initialRto, minRto, maxRto;
      srtt, rttVar, hasSample := 0, 0, false;
      new;
      rto := Clamp(initialRto);
    }

    /** The smoothed time moves towards the measurement, not past it, and the timeout stays above it and within its bounds. */
    method Add(sample: int)
      modifies this
      ensures View() == AddSample(old(View()), sample)
      ensures old(View().Valid()) ==> View().Valid()
      ensures old(View().Valid()) && sample >= 0 ==> Between(srtt, if old(hasSample) then old(srtt) else sample, sample)
      ensures old(View().Valid()) && sample >= 0 ==> hasSample && rto >= Min(maxRto, srtt + 1000)
      ensures old(View().Valid()) && sample >= 0 ==> Measured(old(View()), sample, View())
    {
      if View().Valid() { SampleLaw(View(), sample); }
      if sample < 0 {
        return;
      }
      if !hasSample {
        srtt := sample;
        rttVar := sample / 2;
        hasSample := true;
      } else {
        var delta := if srtt > sample then srtt - sample else sample - srtt;
        rttVar := (rttVar * 3 + delta) / 4;
        srtt := (srtt * 7 + sample) / 8;
      }
      rto := Clamp(srtt + Max(1000, rttVar * 4));
    }

    /** The loop that stops doubling at the maximum gives the closed form. */
    method Timeout(attempt: nat) returns (timeout: int)
      requires View().Valid()
      ensures timeout == TimeoutFor(View(), attempt)
    {
      timeout := rto;
      var i := 0;
      while i < attempt && timeout < maxRto
        invariant 0 <= i <= attempt
        invariant timeout == Doubled(rto, i)
      {
        timeout := timeout * 2;
        i := i + 1;
      }
      DoubledGrows(rto, i, attempt);
      timeout := Clamp(timeout);
    }
  }
}
