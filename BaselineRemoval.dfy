/** The passes of the baseline removal applied to a deconvolved digit.  Each
    pass is a specification function over the samples and a method with the
    loop of the source, proved to compute that function; the lemmas state
    what the passes promise.

    The digit's samples are `s` (at least one sample).  Local vectors of the
    source are `seq<real>` values the methods rebuild entry by entry; the
    digit itself is updated in place by the caller. */
module BaselineRemoval {
  import opened Numerics
  import opened Windows

  /** The sentinel of the source: a baseline entry within it of zero counts
      as unset. */
  const Eps: real := 0.000001

  /** Strictly inside the sentinel (`std::abs(x) < 1E-6`). */
  predicate Tiny(x: real)
  {
    Abs(x) < Eps
  }

  /** Strictly outside the sentinel (`std::abs(x) > 1E-6`). */
  predicate Live(x: real)
  {
    Abs(x) > Eps
  }

  // ---------------------------------------------------------------------
  // Order statistics: median, spread and sample-to-sample noise.

  /** The entry `vector[p * n]` of a sorted vector of `n` entries (the
      double index converts to `size_t` by truncation). */
  function PercentileIndex(n: int, p: real): (k: int)
    requires n >= 1 && 0.0 <= p < 1.0
    ensures 0 <= k < n
    ensures k as real <= p * n as real < k as real + 1.0
  {
    FractionOf(p, n);
    Trunc(p * n as real)
  }

  lemma FractionOf(p: real, n: int)
    requires n >= 1 && 0.0 <= p < 1.0
    ensures 0.0 <= p * n as real < n as real
  {
  }

  /** The vector sorted for the median: entry 0 keeps the 0 it was
      allocated with, entries from 1 on are the samples. */
  function MedianInput(s: seq<real>): (d: seq<real>)
    requires |s| >= 1
    ensures |d| == |s| && d[0] == 0.0
    ensures forall t :: 1 <= t < |s| ==> d[t] == s[t]
  {
    [0.0] + s[1..]
  }

  /** `|s[i] - s[i-1]|` for `i >= 1`, and 0 at index 0. */
  function StepDiffs(s: seq<real>): (d: seq<real>)
    ensures |d| == |s|
    ensures |s| > 0 ==> d[0] == 0.0
    ensures forall t {:trigger d[t]} :: 1 <= t < |s| ==> d[t] == Abs(s[t] - s[t - 1]) && d[t] >= 0.0
  {
    seq(|s|, t requires 0 <= t < |s| => if t == 0 then 0.0 else Abs(s[t] - s[t - 1]))
  }

  /** The vector sorted for the noise estimate: the step differences from
      index 1 on, with entry 0 left at the smallest entry of the median
      sort. */
  function NoiseInput(s: seq<real>): (d: seq<real>)
    requires |s| >= 1
    ensures |d| == |s|
  {
    [Sort(MedianInput(s))[0]] + StepDiffs(s)[1..]
  }

  function Median(s: seq<real>): real
    requires |s| >= 1
  {
    Sort(MedianInput(s))[PercentileIndex(|s|, 0.5)]
  }

  /** Distance between the 16th percentile and the median. */
  function Spread(s: seq<real>): (r: real)
    requires |s| >= 1
    ensures r >= 0.0
  {
    Abs(Sort(MedianInput(s))[PercentileIndex(|s|, 0.16)] - Median(s))
  }

  /** The 52nd percentile of the sample-to-sample differences. */
  function SampleSigma(s: seq<real>): real
    requires |s| >= 1
  {
    Sort(NoiseInput(s))[PercentileIndex(|s|, 0.52)]
  }

  /** The order statistics of the first passes, as the source computes
      them: fill and sort the median vector, take the median and spread,
      overwrite entries from 1 on with the step differences, sort again and
      take the noise percentile. */
  method OrderStatistics(s: seq<real>) returns (median: real, spread: real, sampleSigma: real)
    requires |s| >= 1
    ensures median == Median(s) && spread == Spread(s) && sampleSigma == SampleSigma(s)
  {
    var n := |s|;
    var diff := FillMedianInput(s);
    diff := Sort(diff);
    median := diff[PercentileIndex(n, 0.5)];
    spread := Abs(diff[PercentileIndex(n, 0.16)] - median);
    diff := OverwriteStepDiffs(s, diff);
    diff := Sort(diff);
    sampleSigma := diff[PercentileIndex(n, 0.52)];
  }

  method FillMedianInput(s: seq<real>) returns (diff: seq<real>)
    requires |s| >= 1
    ensures diff == MedianInput(s)
  {
    var n := |s|;
    diff := seq(n, _ => 0.0);
    var i := 1;
    while i < n
      invariant 1 <= i <= n && |diff| == n && diff[0] == 0.0
      invariant forall t :: 1 <= t < i ==> diff[t] == s[t]
    {
      diff := diff[i := s[i]];
      i := i + 1;
    }
  }

  /** Entries from 1 on become the step differences; entry 0 is kept. */
  method OverwriteStepDiffs(s: seq<real>, d: seq<real>) returns (diff: seq<real>)
    requires |s| >= 1 && |d| == |s|
    ensures diff == [d[0]] + StepDiffs(s)[1..]
  {
    var n := |s|;
    diff := d;
    var i := 1;
    while i < n
      invariant 1 <= i <= n && |diff| == n && diff[0] == d[0]
      invariant forall t {:trigger diff[t]} :: 1 <= t < i ==> diff[t] == Abs(s[t] - s[t - 1])
    {
      diff := diff[i := Abs(s[i] - s[i - 1])];
      i := i + 1;
    }
  }

  /** The median is one of the entries of the median vector. */
  lemma MedianIsEntry(s: seq<real>)
    requires |s| >= 1
    ensures Median(s) in multiset(MedianInput(s))
    ensures Spread(s) == Abs(Sort(MedianInput(s))[PercentileIndex(|s|, 0.16)] - Median(s))
  {
    var t := Sort(MedianInput(s));
    SortPermutes(MedianInput(s));
    assert t[PercentileIndex(|s|, 0.5)] in multiset(t);
  }

  /** A value entered twice, at the head and at `b`, has multiplicity two. */
  lemma HeadTwice(t: seq<real>, b: int)
    requires 0 < b < |t| && t[0] == t[b]
    ensures multiset(t)[t[0]] >= 2
  {
    assert t == [t[0]] + t[1..];
    assert t[1..][b - 1] == t[0];
    assert t[0] in multiset(t[1..]);
  }

  /** When only the head may be negative, a negative value occurs at most
      once. */
  lemma NegativeAtMostOnce(u: seq<real>, v: real)
    requires |u| >= 1 && v < 0.0
    requires forall i :: 1 <= i < |u| ==> u[i] >= 0.0
    ensures multiset(u)[v] <= 1
    ensures v != u[0] ==> v !in multiset(u)
  {
    assert u == [u[0]] + u[1..];
  }

  /** The noise estimate is never negative: only the kept entry 0 of the
      noise vector can be negative, and the 52nd percentile lies above the
      first entry whenever there are two samples or more. */
  lemma SampleSigmaNonneg(s: seq<real>)
    requires |s| >= 1
    ensures SampleSigma(s) >= 0.0
  {
    var n := |s|;
    var u := NoiseInput(s);
    var t := Sort(u);
    var k := PercentileIndex(n, 0.52);
    if n == 1 {
      assert MedianInput(s) == [0.0];
      assert Sort([0.0]) == Insert(0.0, Sort([])) == [0.0];
      assert u == [0.0];
      assert t == Insert(0.0, Sort([])) == [0.0];
    } else {
      assert 0.52 * n as real >= 1.0;
      assert k >= 1;
      forall i | 1 <= i < n
        ensures u[i] >= 0.0
      {
        assert u[i] == StepDiffs(s)[i];
      }
      if t[k] < 0.0 {
        SortSorted(u);
        SortPermutes(u);
        assert t[0] <= t[k];
        assert t[0] in multiset(u) && t[k] in multiset(u);
        NegativeAtMostOnce(u, t[0]);
        NegativeAtMostOnce(u, t[k]);
        HeadTwice(t, k);
        assert false;
      }
    }
  }

  /** The step-difference vector refilled before the coherence scans. */
  method FillStepDiffs(s: seq<real>) returns (diff: seq<real>)
    ensures diff == StepDiffs(s)
  {
    var n := |s|;
    diff := seq(n, _ => 0.0);
    var i := 1;
    while i < n
      invariant |diff| == n && (n > 0 ==> 1 <= i <= n)
      invariant n > 0 ==> diff[0] == 0.0
      invariant forall t {:trigger diff[t]} :: 1 <= t < i && t < n ==> diff[t] == Abs(s[t] - s[t - 1])
    {
      diff := diff[i := Abs(s[i] - s[i - 1])];
      i := i + 1;
    }
    StepDiffsOf(s, diff);
  }

  /** A vector that is 0 at index 0 and the step difference everywhere
      else is the step-difference vector. */
  lemma StepDiffsOf(s: seq<real>, diff: seq<real>)
    requires |diff| == |s| && (|s| > 0 ==> diff[0] == 0.0)
    requires forall t {:trigger diff[t]} :: 1 <= t < |s| ==> diff[t] == Abs(s[t] - s[t - 1])
    ensures diff == StepDiffs(s)
  {
    var d := StepDiffs(s);
    forall t | 0 <= t < |s|
      ensures diff[t] == d[t]
    {
    }
  }

  // ---------------------------------------------------------------------
  // Cuts derived from the order statistics.

  /** The three cuts of the coherence scans: the largest step difference
      that counts as coherent, the level above which a sample is never
      baseline, and the largest drift inside a coherence zone. */
  datatype Cuts = Cuts(delta: real, level: real, drift: real)

  /** `sqrtZone` is the square root of the coherence zone, applied only to
      bipolar (induction) channels. */
  function MakeCuts(median: real, spread: real, sampleSigma: real, fluctuationCut: real,
                    baselineCut: real, bipolar: bool, sqrtZone: real): (c: Cuts)
    ensures c.delta == sampleSigma * fluctuationCut
    ensures c.level == median + baselineCut * spread
    ensures !bipolar ==> c.drift == fluctuationCut * sampleSigma
    ensures bipolar ==> c.drift == fluctuationCut * (sampleSigma * sqrtZone)
  {
    var driftSigma := if bipolar then sampleSigma * sqrtZone else sampleSigma;
    Cuts(sampleSigma * fluctuationCut, median + baselineCut * spread, fluctuationCut * driftSigma)
  }

  // ---------------------------------------------------------------------
  // Drift: the largest excursion of a sample from its neighbours in the
  // coherence zone before it (forward pass) and after it (backward pass).

  /** Largest `|s[i] - s[j]|` over `lo <= j < hi`, 0 for an empty range.
      Reads beyond the digit see 0. */
  function MaxDev(s: seq<real>, i: int, lo: int, hi: int): (r: real)
    decreases hi - lo
    ensures r >= 0.0
    ensures forall j :: lo <= j < hi ==> Abs(SampleAt(s, i) - SampleAt(s, j)) <= r
    ensures lo < hi ==> exists j :: lo <= j < hi && r == Abs(SampleAt(s, i) - SampleAt(s, j))
    ensures hi <= lo ==> r == 0.0
  {
    if hi <= lo then 0.0
    else Max(MaxDev(s, i, lo, hi - 1), Abs(SampleAt(s, i) - SampleAt(s, hi - 1)))
  }

  /** The drift after the forward pass. */
  function ForwardDrift(s: seq<real>, zone: int, i: int): real
  {
    MaxDev(s, i, MaxInt(0, i - zone), i)
  }

  /** The drift after the backward pass: raised to the excursion over the
      `zone` samples after `i`, except at index 0. */
  function Drift(s: seq<real>, zone: int, i: int): real
  {
    if i == 0 then ForwardDrift(s, zone, i)
    else Max(MaxDev(s, i, i + 1, i + zone + 1), ForwardDrift(s, zone, i))
  }

  /** The inner loop of both drift passes: the largest excursion of
      sample `i` over `lo <= j < hi`. */
  method ZoneDeviation(s: seq<real>, i: int, lo: int, hi: int) returns (deltaSample: real)
    requires 0 <= i < |s| && 0 <= lo
    ensures deltaSample == MaxDev(s, i, lo, hi)
  {
    deltaSample := 0.0;
    var j := lo;
    while j < hi
      invariant lo <= j <= MaxInt(lo, hi)
      invariant deltaSample == MaxDev(s, i, lo, j)
    {
      deltaSample := Max(deltaSample, Abs(s[i] - SampleAt(s, j)));
      j := j + 1;
    }
  }

  method ForwardDriftPass(s: seq<real>, zone: int) returns (drift: seq<real>)
    ensures |drift| == |s|
    ensures forall i :: 0 <= i < |s| ==> drift[i] == ForwardDrift(s, zone, i)
  {
    var n := |s|;
    drift := seq(n, _ => 0.0);
    var i := 0;
    while i < n
      invariant 0 <= i <= n && |drift| == n
      invariant forall t :: 0 <= t < i ==> drift[t] == ForwardDrift(s, zone, t)
    {
      var deltaSample := ZoneDeviation(s, i, MaxInt(0, i - zone), i);
      drift := drift[i := deltaSample];
      i := i + 1;
    }
  }

  method BackwardDriftPass(s: seq<real>, zone: int, forward: seq<real>) returns (drift: seq<real>)
    requires |s| >= 1 && |forward| == |s|
    requires forall i :: 0 <= i < |s| ==> forward[i] == ForwardDrift(s, zone, i)
    ensures |drift| == |s|
    ensures forall i :: 0 <= i < |s| ==> drift[i] == Drift(s, zone, i)
  {
    var n := |s|;
    drift := forward;
    var i := n - 1;
    while 0 < i
      invariant 0 <= i <= n - 1 && |drift| == n
      invariant forall t :: 0 <= t <= i ==> drift[t] == ForwardDrift(s, zone, t)
      invariant forall t :: i < t < n ==> drift[t] == Drift(s, zone, t)
    {
      var deltaSample := ZoneDeviation(s, i, i + 1, i + zone + 1);
      drift := drift[i := Max(deltaSample, drift[i])];
      i := i - 1;
    }
  }

  /** The drift is a non-negative maximum: after the forward pass it is
      the largest excursion over the `zone` samples before `i`; the
      backward pass only raises it, and leaves index 0 alone. */
  lemma DriftProperties(s: seq<real>, zone: int, i: int)
    requires 0 <= i < |s|
    ensures Drift(s, zone, i) >= ForwardDrift(s, zone, i) >= 0.0
    ensures i == 0 ==> Drift(s, zone, i) == ForwardDrift(s, zone, i) == 0.0
    ensures forall j :: MaxInt(0, i - zone) <= j < i ==> Abs(s[i] - s[j]) <= ForwardDrift(s, zone, i)
    ensures i > MaxInt(0, i - zone) ==>
              exists j :: MaxInt(0, i - zone) <= j < i && ForwardDrift(s, zone, i) == Abs(s[i] - s[j])
  {
    var lo := MaxInt(0, i - zone);
    forall j | lo <= j < i
      ensures Abs(s[i] - s[j]) <= ForwardDrift(s, zone, i)
    {
      assert SampleAt(s, j) == s[j];
    }
    if i > lo {
      var j :| lo <= j < i && ForwardDrift(s, zone, i) == Abs(SampleAt(s, i) - SampleAt(s, j));
      assert SampleAt(s, j) == s[j];
    }
  }

  // ---------------------------------------------------------------------
  // Coherence scans.  A running counter holds the number of step
  // differences below the delta cut inside the coherence zone; a sample
  // that is low enough, drifts little enough and sits in a coherent zone
  // marks the sample half a zone back (forward scan) or ahead (backward
  // scan) as baseline.

  /** Number of indices `j` in `[lo, hi)` inside `d` with `d[j] < cut`. */
  function CountBelow(d: seq<real>, lo: int, hi: int, cut: real): (r: int)
    decreases hi - lo
    ensures 0 <= r && (lo <= hi ==> r <= hi - lo)
    ensures hi <= lo || hi <= 0 || |d| <= lo ==> r == 0
  {
    if hi <= lo then 0
    else CountBelow(d, lo, hi - 1, cut) + (if 0 <= hi - 1 < |d| && d[hi - 1] < cut then 1 else 0)
  }

  /** Whether index `j` counts (inside `d` and below the cut). */
  function Below(d: seq<real>, j: int, cut: real): int
  {
    if 0 <= j < |d| && d[j] < cut then 1 else 0
  }

  /** Sliding the window one place: the entry entering at `hi` is added
      and the one leaving at `lo` dropped. */
  lemma {:induction false} SlideCount(d: seq<real>, lo: int, hi: int, cut: real)
    requires lo <= hi
    decreases hi - lo
    ensures CountBelow(d, lo + 1, hi + 1, cut) == CountBelow(d, lo, hi, cut) + Below(d, hi, cut) - Below(d, lo, cut)
  {
    if lo < hi {
      SlideCount(d, lo, hi - 1, cut);
    }
  }

  /** Everything one coherence scan reads: the samples, the step
      differences, the drift, the cuts, the zone length and the minimum
      coherent count. */
  datatype ScanInput = ScanInput(s: seq<real>, diff: seq<real>, drift: seq<real>,
                                 cuts: Cuts, zone: int, cohCut: int)
  {
    predicate Valid()
    {
      |s| >= 1 && |diff| == |s| && |drift| == |s| && zone >= 0
    }

    /** Half the zone (`int offset = 0.5*fCoherenceZone`, truncated). */
    function Offset(): int
    {
      zone / 2
    }

    /** The count held by the forward scan at `i`: coherent differences at
        `(i - zone, i]`. */
    function CohForward(i: int): int
    {
      CountBelow(diff, i - zone + 1, i + 1, cuts.delta)
    }

    /** The count held by the backward scan at `i`: coherent differences at
        `[i, i + zone)`. */
    function CohBackward(i: int): int
    {
      CountBelow(diff, i, i + zone, cuts.delta)
    }

    /** The three tests a sample passes to mark a baseline point. */
    predicate Passes(i: int, coh: int)
      requires Valid() && 0 <= i < |s|
    {
      !(s[i] > cuts.level) && !(drift[i] > cuts.drift) && !(coh < cohCut)
    }

    /** Index `k` is marked by the forward scan steps `0 .. i-1`. */
    predicate ForwardUpTo(k: int, i: int)
      requires Valid()
    {
      (k < zone && 0 <= k < i)
      || (zone <= k + Offset() < i && k + Offset() < |s| && Passes(k + Offset(), CohForward(k + Offset())))
    }

    /** Index `k` is marked by the backward scan steps `n-1 .. i+1`. */
    predicate BackwardFrom(k: int, i: int)
      requires Valid()
    {
      (i < k < |s| && k + zone >= |s|)
      || (i < k - Offset() && 0 <= k - Offset() && k - Offset() + zone < |s| && Passes(k - Offset(), CohBackward(k - Offset())))
    }

    predicate ForwardSet(k: int)
      requires Valid()
    {
      ForwardUpTo(k, |s|)
    }

    predicate BackwardSet(k: int)
      requires Valid()
    {
      BackwardFrom(k, 0)
    }
  }

  /** One forward step marks index `i` itself inside the leading zone, and
      otherwise the index half a zone back when step `i` passes the cuts. */
  lemma ForwardUpToStep(x: ScanInput, k: int, i: int)
    requires x.Valid() && 0 <= i < |x.s| && 0 <= k < |x.s|
    ensures x.ForwardUpTo(k, i + 1) <==>
              x.ForwardUpTo(k, i)
              || (k == i && i < x.zone)
              || (k == i - x.Offset() && x.zone <= i && x.Passes(i, x.CohForward(i)))
  {
  }

  /** The forward coherence scan, writing into a zeroed baseline vector. */
  method ForwardScan(x: ScanInput) returns (baseline: seq<real>)
    requires x.Valid()
    ensures |baseline| == |x.s|
    ensures forall k :: 0 <= k < |x.s| ==> baseline[k] == (if x.ForwardSet(k) then x.s[k] else 0.0)
  {
    var n := |x.s|;
    baseline := seq(n, _ => 0.0);
    var coh := 0;
    var i := 0;
    while i < n
      invariant 0 <= i <= n && |baseline| == n
      invariant coh == CountBelow(x.diff, i - x.zone, i, x.cuts.delta)
      invariant forall k :: 0 <= k < n ==> baseline[k] == (if x.ForwardUpTo(k, i) then x.s[k] else 0.0)
    {
      var startZone := i - x.zone;
      SlideCount(x.diff, startZone, i, x.cuts.delta);
      if x.diff[i] < x.cuts.delta { coh := coh + 1; }
      if 0 <= startZone && x.diff[startZone] < x.cuts.delta { coh := coh - 1; }
      baseline := ForwardStep(x, i, coh, baseline);
      i := i + 1;
    }
  }

  /** Step `i` of the forward scan, given the count of coherent
      differences in its zone. */
  method ForwardStep(x: ScanInput, i: int, coh: int, baseline: seq<real>) returns (next: seq<real>)
    requires x.Valid() && 0 <= i < |x.s| && |baseline| == |x.s| && coh == x.CohForward(i)
    requires forall k :: 0 <= k < |x.s| ==> baseline[k] == (if x.ForwardUpTo(k, i) then x.s[k] else 0.0)
    ensures |next| == |x.s|
    ensures forall k :: 0 <= k < |x.s| ==> next[k] == (if x.ForwardUpTo(k, i + 1) then x.s[k] else 0.0)
  {
    next := baseline;
    if i - x.zone < 0 {
      next := baseline[i := x.s[i]];
    } else if x.s[i] > x.cuts.level {
    } else if x.drift[i] > x.cuts.drift {
    } else if coh < x.cohCut {
    } else {
      var offset := x.Offset();
      next := baseline[i - offset := x.s[i - offset]];
    }
    forall k | 0 <= k < |x.s|
      ensures next[k] == (if x.ForwardUpTo(k, i + 1) then x.s[k] else 0.0)
    {
      ForwardUpToStep(x, k, i);
    }
  }

  /** The baseline vector after both scans: each entry is its own sample
      when either scan marked it, else still 0.  The first `zone` entries,
      and every entry from 1 on within `zone` of the end, are always
      marked. */
  function ScannedBaseline(x: ScanInput): (b: seq<real>)
    requires x.Valid()
    ensures |b| == |x.s|
    ensures forall k :: 0 <= k < |b| ==> b[k] == 0.0 || b[k] == x.s[k]
    ensures forall k :: 0 <= k < |b| && k < x.zone ==> b[k] == x.s[k]
    ensures forall k :: 1 <= k < |b| && k + x.zone >= |b| ==> b[k] == x.s[k]
  {
    seq(|x.s|, k requires 0 <= k < |x.s| => if x.ForwardSet(k) || x.BackwardSet(k) then x.s[k] else 0.0)
  }

  /** What backward step `i` adds to the marked set. */
  lemma BackwardFromStep(x: ScanInput, k: int, i: int)
    requires x.Valid() && 1 <= i < |x.s| && 0 <= k < |x.s|
    ensures x.BackwardFrom(k, i - 1) <==>
              x.BackwardFrom(k, i)
              || (k == i && i + x.zone >= |x.s|)
              || (k == i + x.Offset() && i + x.zone < |x.s| && x.Passes(i, x.CohBackward(i)))
  {
  }

  /** The backward coherence scan over the baseline left by the forward
      scan, from the last index down to 1. */
  method BackwardScan(x: ScanInput, forward: seq<real>) returns (baseline: seq<real>)
    requires x.Valid() && |forward| == |x.s|
    requires forall k :: 0 <= k < |x.s| ==> forward[k] == (if x.ForwardSet(k) then x.s[k] else 0.0)
    ensures baseline == ScannedBaseline(x)
  {
    var n := |x.s|;
    baseline := forward;
    var coh := 0;
    var i := n - 1;
    assert forall k :: 0 <= k < n ==> !x.BackwardFrom(k, i);
    while 0 < i
      invariant 0 <= i <= n - 1 && |baseline| == n
      invariant coh == CountBelow(x.diff, i + 1, i + 1 + x.zone, x.cuts.delta)
      invariant forall k :: 0 <= k < n ==>
                  baseline[k] == (if x.ForwardSet(k) || x.BackwardFrom(k, i) then x.s[k] else 0.0)
    {
      var startZone := i + x.zone;
      SlideCount(x.diff, i, i + x.zone, x.cuts.delta);
      if x.diff[i] < x.cuts.delta { coh := coh + 1; }
      if startZone < n && x.diff[startZone] < x.cuts.delta { coh := coh - 1; }
      baseline := BackwardStep(x, i, coh, baseline);
      i := i - 1;
    }
    assert forall k :: 0 <= k < n ==> baseline[k] == ScannedBaseline(x)[k];
  }

  /** Step `i` of the backward scan, given the count of coherent
      differences in its zone. */
  method BackwardStep(x: ScanInput, i: int, coh: int, baseline: seq<real>) returns (next: seq<real>)
    requires x.Valid() && 1 <= i < |x.s| && |baseline| == |x.s| && coh == x.CohBackward(i)
    requires forall k :: 0 <= k < |x.s| ==>
               baseline[k] == (if x.ForwardSet(k) || x.BackwardFrom(k, i) then x.s[k] else 0.0)
    ensures |next| == |x.s|
    ensures forall k :: 0 <= k < |x.s| ==>
              next[k] == (if x.ForwardSet(k) || x.BackwardFrom(k, i - 1) then x.s[k] else 0.0)
  {
    next := baseline;
    if |x.s| <= i + x.zone {
      next := baseline[i := x.s[i]];
    } else if x.s[i] > x.cuts.level {
    } else if x.drift[i] > x.cuts.drift {
    } else if coh < x.cohCut {
    } else {
      var offset := x.Offset();
      next := baseline[i + offset := x.s[i + offset]];
    }
    forall k | 0 <= k < |x.s|
      ensures next[k] == (if x.ForwardSet(k) || x.BackwardFrom(k, i - 1) then x.s[k] else 0.0)
    {
      BackwardFromStep(x, k, i);
    }
  }

  // ---------------------------------------------------------------------
  // Gap walks.  From a gap index the source walks left while the entry is
  // tiny and the index is positive, and right while the index is inside
  // and the entry is tiny.

  function WalkLeft(b: seq<real>, j: int): (r: int)
    requires 0 <= j < |b|
    ensures 0 <= r <= j
    ensures r == 0 || !Tiny(b[r])
    ensures forall t :: r < t <= j ==> Tiny(b[t])
  {
    if 0 < j && Tiny(b[j]) then WalkLeft(b, j - 1) else j
  }

  function WalkRight(b: seq<real>, k: int): (r: int)
    requires 0 <= k <= |b|
    decreases |b| - k
    ensures k <= r <= |b|
    ensures r == |b| || !Tiny(b[r])
    ensures forall t :: k <= t < r ==> Tiny(b[t])
  {
    if k < |b| && Tiny(b[k]) then WalkRight(b, k + 1) else k
  }

  method FindLeft(b: seq<real>, i: int) returns (j: int)
    requires 0 <= i < |b|
    ensures j == WalkLeft(b, i)
  {
    j := i;
    while 0 < j && Tiny(b[j])
      invariant 0 <= j <= i
      invariant WalkLeft(b, j) == WalkLeft(b, i)
    {
      j := j - 1;
    }
  }

  method FindRight(b: seq<real>, i: int) returns (k: int)
    requires 0 <= i <= |b|
    ensures k == WalkRight(b, i)
  {
    k := i;
    while k < |b| && Tiny(b[k])
      invariant i <= k <= |b|
      invariant WalkRight(b, k) == WalkRight(b, i)
    {
      k := k + 1;
    }
  }

  /** The linear interpolation at `i` between the value `bj` at `j` and the
      value `bk` at `k`: `((k-i) bj + (i-j) bk) / (k-j)`. */
  function Blend(j: int, i: int, k: int, bj: real, bk: real): real
    requires j < k
  {
    (Contribution(true, (k - i) as real, bj) + Contribution(true, (i - j) as real, bk)) / (k - j) as real
  }

  /** An interpolated value between two values in `[lo, hi]` stays there. */
  lemma BlendBetween(j: int, i: int, k: int, bj: real, bk: real, lo: real, hi: real)
    requires j <= i <= k && j < k
    requires lo <= bj <= hi && lo <= bk <= hi
    ensures lo <= Blend(j, i, k, bj, bk) <= hi
  {
    var wl, wr := (k - i) as real, (i - j) as real;
    ContributionBetween(true, wl, bj, lo, hi);
    ContributionBetween(true, wr, bk, lo, hi);
    AddBetween(lo, hi, Weight(true, wl), Weight(true, wr), Contribution(true, wl, bj), Contribution(true, wr, bk));
    DivBetween(Contribution(true, wl, bj) + Contribution(true, wr, bk), (k - j) as real, lo, hi);
  }

  // ---------------------------------------------------------------------
  // Dip promotion: a gap sample lying below the straight line across its
  // gap becomes a candidate baseline value.

  /** The candidate at `i`: the sample when it lies below the
      interpolation across its gap, else 0.  A live entry is no gap; when
      both walks stop at `i` (an entry exactly at the sentinel) the source
      divides 0 by 0 and the comparison with the quotient fails. */
  function DipAt(s: seq<real>, b: seq<real>, i: int): (r: real)
    requires |b| == |s| && 0 <= i < |s|
    ensures r == 0.0 || r == s[i]
    ensures r != 0.0 ==> !Live(b[i])
  {
    if Live(b[i]) then 0.0
    else
      var j, k := WalkLeft(b, i), WalkRight(b, i);
      if k == j then 0.0
      else if s[i] < Blend(j, i, k, b[j], SampleAt(b, k)) then s[i]
      else 0.0
  }

  method DipPass(s: seq<real>, b: seq<real>) returns (drift: seq<real>)
    requires |b| == |s|
    ensures |drift| == |s|
    ensures forall i :: 0 <= i < |s| ==> drift[i] == DipAt(s, b, i)
  {
    var n := |s|;
    drift := seq(n, _ => 0.0);
    var i := 0;
    while i < n
      invariant 0 <= i <= n && |drift| == n
      invariant forall t :: 0 <= t < i ==> drift[t] == DipAt(s, b, t)
    {
      var v := 0.0;
      if !Live(b[i]) {
        var j := FindLeft(b, i);
        var k := FindRight(b, i);
        if k != j {
          var interp := Blend(j, i, k, b[j], SampleAt(b, k));
          if s[i] < interp {
            v := s[i];
          }
        }
      }
      drift := drift[i := v];
      i := i + 1;
    }
  }

  // ---------------------------------------------------------------------
  // Short-run rejection: runs of live candidates shorter than three
  // entries are cleared.

  predicate AllLive(d: seq<real>, a: int, b: int)
    requires 0 <= a <= b <= |d|
  {
    forall t :: a <= t < b ==> Live(d[t])
  }

  /** `[a, b)` is a maximal run of live entries of `d`. */
  predicate MaximalRun(d: seq<real>, a: int, b: int)
  {
    0 <= a < b <= |d| && AllLive(d, a, b)
    && (a == 0 || !Live(d[a - 1])) && (b == |d| || !Live(d[b]))
  }

  ghost predicate NoShortRuns(d: seq<real>)
  {
    forall a, b :: MaximalRun(d, a, b) ==> b - a >= 3
  }

  /** The end of the run of live entries starting at `i`. */
  function RunEnd(d: seq<real>, i: int): (r: int)
    requires 0 <= i <= |d|
    decreases |d| - i
    ensures i <= r <= |d| && AllLive(d, i, r)
    ensures r == |d| || !Live(d[r])
  {
    if i < |d| && Live(d[i]) then RunEnd(d, i + 1) else i
  }

  /** `d` with the entries `[i, j)` set to 0. */
  function ZeroRange(d: seq<real>, i: int, j: int): (r: seq<real>)
    ensures |r| == |d|
    ensures forall t :: 0 <= t < |d| ==> r[t] == (if i <= t < j then 0.0 else d[t])
  {
    seq(|d|, t requires 0 <= t < |d| => if i <= t < j then 0.0 else d[t])
  }

  /** The rejection loop from index `i` on: a tiny entry is skipped; a run
      starting at `i` is cleared when shorter than three, and the loop goes
      on one past the entry that ended it. */
  function RejectFrom(d: seq<real>, i: nat): (r: seq<real>)
    decreases |d| + 1 - i
    ensures |r| == |d|
  {
    if i >= |d| then d
    else if Tiny(d[i]) then RejectFrom(d, i + 1)
    else
      var j := RunEnd(d, i);
      RejectFrom(if j - i < 3 then ZeroRange(d, i, j) else d, j + 1)
  }

  method RejectShortRuns(d: seq<real>) returns (r: seq<real>)
    ensures r == RejectFrom(d, 0)
  {
    var n := |d|;
    r := d;
    var i := 0;
    while i < n
      invariant |r| == n && 0 <= i <= n + 1
      invariant RejectFrom(r, i) == RejectFrom(d, 0)
      decreases n + 1 - i
    {
      if Tiny(r[i]) {
        i := i + 1;
      } else {
        var j := i;
        while j < n && Live(r[j])
          invariant i <= j <= n
          invariant RunEnd(r, j) == RunEnd(r, i)
        {
          j := j + 1;
        }
        if j - i < 3 {
          r := ZeroRun(r, i, j);
        }
        i := j + 1;
      }
    }
  }

  /** The clearing loop of a short run `[i, j)`. */
  method ZeroRun(d: seq<real>, i: int, j: int) returns (r: seq<real>)
    requires 0 <= i <= j <= |d|
    ensures r == ZeroRange(d, i, j)
  {
    r := d;
    var k := i;
    while k < j
      invariant i <= k <= j
      invariant r == ZeroRange(d, i, k)
    {
      r := r[k := 0.0];
      k := k + 1;
    }
  }

  /** What the rejection loop keeps true at index `i`: the entry before `i`
      is not live, and every maximal run ending before `i` is long. */
  ghost predicate RejectInv(d: seq<real>, i: int)
  {
    (0 < i <= |d| ==> !Live(d[i - 1]))
    && forall a, b :: MaximalRun(d, a, b) && b < i ==> b - a >= 3
  }

  /** One step of the rejection loop at a non-tiny entry keeps the runs
      ending at or before the run's end long. */
  lemma RejectStepRuns(d: seq<real>, i: int, d2: seq<real>, a: int, b: int)
    requires 0 <= i < |d| && RejectInv(d, i)
    requires d2 == (if RunEnd(d, i) - i < 3 then ZeroRange(d, i, RunEnd(d, i)) else d)
    requires MaximalRun(d2, a, b) && b <= RunEnd(d, i)
    ensures b - a >= 3
  {
    var j := RunEnd(d, i);
    if b <= i {
      if b == i {
        assert false;
      }
      assert MaximalRun(d, a, b);
    } else if j - i < 3 {
      assert false;
    } else {
      if b < j {
        assert false;
      }
      if a > i {
        assert false;
      }
      if a < i {
        assert false;
      }
    }
  }

  lemma {:induction false} RejectFromNoShortRuns(d: seq<real>, i: nat)
    requires RejectInv(d, i)
    decreases |d| + 1 - i
    ensures NoShortRuns(RejectFrom(d, i))
  {
    if i >= |d| {
      forall a, b | MaximalRun(d, a, b)
        ensures b - a >= 3
      {
        if b >= i {
          assert false;
        }
      }
    } else if Tiny(d[i]) {
      forall a, b | MaximalRun(d, a, b) && b < i + 1
        ensures b - a >= 3
      {
        if b == i {
          assert false;
        }
      }
      RejectFromNoShortRuns(d, i + 1);
    } else {
      var j := RunEnd(d, i);
      var d2 := if j - i < 3 then ZeroRange(d, i, j) else d;
      forall a, b | MaximalRun(d2, a, b) && b < j + 1
        ensures b - a >= 3
      {
        RejectStepRuns(d, i, d2, a, b);
      }
      RejectFromNoShortRuns(d2, j + 1);
    }
  }

  /** After the rejection loop every maximal run of live candidates has at
      least three entries. */
  lemma RejectedRunsAreLong(d: seq<real>)
    ensures NoShortRuns(RejectFrom(d, 0))
  {
    RejectFromNoShortRuns(d, 0);
  }

  // ---------------------------------------------------------------------
  // Baseline smoothing: every set baseline entry becomes the triangular
  // average of the set entries within four samples of it.

  /** The window size of the baseline smoothing. */
  const BaselineWindow: int := 5

  /** Which baseline entries are set. */
  function LiveMask(b: seq<real>): (m: seq<bool>)
    ensures |m| == |b|
    ensures forall k :: 0 <= k < |b| ==> (m[k] <==> Live(b[k]))
  {
    seq(|b|, k requires 0 <= k < |b| => Live(b[k]))
  }

  /** The smoothed baseline at `i`: 0 for an unset entry or when the window
      holds (almost) no weight, else the weighted average of the set
      entries of the window. */
  function SmoothAt(b: seq<real>, i: int): real
    requires 0 <= i < |b|
  {
    if Tiny(b[i]) then 0.0
    else
      var den := WindowDen(LiveMask(b), i, BaselineWindow, BaselineWindow);
      if den < 0.001 then 0.0
      else WindowNum(b, LiveMask(b), i, BaselineWindow, BaselineWindow) / den
  }

  method SmoothPass(b: seq<real>) returns (r: seq<real>)
    ensures |r| == |b|
    ensures forall i :: 0 <= i < |b| ==> r[i] == SmoothAt(b, i)
  {
    var n := |b|;
    var m := LiveMask(b);
    r := [];
    var i := 0;
    while i < n
      invariant 0 <= i <= n && |r| == i
      invariant forall t :: 0 <= t < i ==> r[t] == SmoothAt(b, t)
    {
      var v := SmoothEntry(b, m, i);
      r := r + [v];
      i := i + 1;
    }
  }

  /** One entry of the baseline smoothing loop. */
  method SmoothEntry(b: seq<real>, m: seq<bool>, i: int) returns (v: real)
    requires 0 <= i < |b| && m == LiveMask(b)
    ensures v == SmoothAt(b, i)
  {
    v := 0.0;
    if !Tiny(b[i]) {
      var val, weight := WindowSums(b, m, i, BaselineWindow);
      if !(weight < 0.001) {
        v := val / weight;
      }
    }
  }

  /** Smoothing keeps unset entries unset, and a set entry moves to a
      value between the smallest and the largest set entry within four
      samples of it.  An entry exactly at the sentinel is either cleared or
      averaged over its set neighbours. */
  lemma SmoothedBetween(b: seq<real>, i: int, lo: real, hi: real)
    requires 0 <= i < |b|
    requires forall k :: 0 <= k < |b| && i - BaselineWindow < k < i + BaselineWindow && Live(b[k]) ==>
               lo <= b[k] <= hi
    ensures Tiny(b[i]) ==> SmoothAt(b, i) == 0.0
    ensures Live(b[i]) ==> lo <= SmoothAt(b, i) <= hi
    ensures !Tiny(b[i]) ==> SmoothAt(b, i) == 0.0 || lo <= SmoothAt(b, i) <= hi
  {
    var m := LiveMask(b);
    if !Tiny(b[i]) {
      assert WindowWithin(b, m, i, BaselineWindow, lo, hi);
      if Live(b[i]) {
        WindowDenAtLeastCentre(m, i, BaselineWindow, BaselineWindow);
      }
      if WindowDen(m, i, BaselineWindow, BaselineWindow) >= 0.001 {
        WindowAverageBetween(b, m, i, BaselineWindow, lo, hi);
      }
    }
  }

  // ---------------------------------------------------------------------
  // Final interpolation: every unset entry, left to right, becomes the
  // straight line between the nearest entry set to its left in the
  // baseline as updated so far and the nearest set entry to its right.

  /** The new value at `i`: a set entry is kept; an unset one is
      interpolated across its gap. */
  function InterpAt(b: seq<real>, i: int): real
    requires 0 <= i < |b|
  {
    if !Tiny(b[i]) then b[i]
    else Blend(WalkLeft(b, i), i, WalkRight(b, i), b[WalkLeft(b, i)], SampleAt(b, WalkRight(b, i)))
  }

  /** The baseline after the final interpolation has visited `i`, ... */
  function InterpFrom(b: seq<real>, i: nat): (r: seq<real>)
    decreases |b| - i
    ensures |r| == |b|
  {
    if i >= |b| then b else InterpFrom(b[i := InterpAt(b, i)], i + 1)
  }

  method InterpPass(b: seq<real>) returns (r: seq<real>)
    ensures r == InterpFrom(b, 0)
  {
    r := b;
    var i := 0;
    while i < |r|
      invariant 0 <= i <= |r| == |b|
      invariant InterpFrom(r, i) == InterpFrom(b, 0)
    {
      ghost var before := r;
      if Tiny(r[i]) {
        var j := FindLeft(r, i);
        var k := FindRight(r, i);
        r := r[i := Blend(j, i, k, r[j], SampleAt(r, k))];
      } else {
        assert before[i := InterpAt(before, i)] == before;
      }
      assert r == before[i := InterpAt(before, i)];
      i := i + 1;
    }
  }

  /** `x` lies between `u` and `v`, in whichever order. */
  predicate Between(x: real, u: real, v: real)
  {
    (u <= x <= v) || (v <= x <= u)
  }

  /** The set value at the left end of the gap holding `i`. */
  function GapLeft(b: seq<real>, i: int): real
    requires 0 <= i < |b|
  {
    b[WalkLeft(b, i)]
  }

  /** The set value at the right end of the gap holding `i` (0 past the end). */
  function GapRight(b: seq<real>, i: int): real
    requires 0 <= i < |b|
  {
    SampleAt(b, WalkRight(b, i))
  }

  lemma {:induction false} WalkLeftSkip(b: seq<real>, L: int, j: int)
    requires 0 <= L <= j < |b|
    requires L == 0 || !Tiny(b[L])
    requires forall t :: L < t <= j ==> Tiny(b[t])
    ensures WalkLeft(b, j) == L
  {
    if j > L {
      WalkLeftSkip(b, L, j - 1);
    }
  }

  lemma {:induction false} WalkLeftAtLeast(b: seq<real>, L: int, j: int)
    requires 0 <= L <= j < |b|
    requires L == 0 || !Tiny(b[L])
    ensures WalkLeft(b, j) >= L
  {
    if j > L && Tiny(b[j]) {
      WalkLeftAtLeast(b, L, j - 1);
    }
  }

  lemma {:induction false} WalkRightSkip(b: seq<real>, a: int, p: int)
    requires 0 <= a <= p <= |b|
    requires forall t :: a <= t < p ==> Tiny(b[t])
    decreases p - a
    ensures WalkRight(b, a) == WalkRight(b, p)
  {
    if a < p {
      WalkRightSkip(b, a + 1, p);
    }
  }

  lemma {:induction false} WalkRightAgree(b0: seq<real>, b: seq<real>, p: int)
    requires |b| == |b0| && 0 <= p <= |b|
    requires forall t :: p <= t < |b| ==> b[t] == b0[t]
    decreases |b| - p
    ensures WalkRight(b, p) == WalkRight(b0, p)
  {
    if p < |b| {
      WalkRightAgree(b0, b, p + 1);
    }
  }

  /** After the interpolation has visited `[0, p)` of the original `b0`:
      set entries are unchanged and every visited gap entry lies between
      the values at the two ends of its original gap. */
  ghost predicate Filled(b0: seq<real>, b: seq<real>, p: int)
  {
    |b| == |b0| && 0 <= p <= |b|
    && (forall t :: p <= t < |b| ==> b[t] == b0[t])
    && (forall t :: 0 <= t < p && !Tiny(b0[t]) ==> b[t] == b0[t])
    && (forall t :: 0 <= t < p && Tiny(b0[t]) ==> Between(b[t], GapLeft(b0, t), GapRight(b0, t)))
  }

  /** The walk to the left from an unset entry `p` lands on a value between
      the two ends of the original gap. */
  lemma LeftEndBetween(b0: seq<real>, b: seq<real>, p: int)
    requires Filled(b0, b, p) && p < |b| && Tiny(b0[p])
    ensures Between(b[WalkLeft(b, p)], GapLeft(b0, p), GapRight(b0, p))
  {
    var L := WalkLeft(b0, p);
    var j := WalkLeft(b, p);
    WalkLeftAtLeast(b, L, p);
    if j == p {
      assert p == 0;
    } else if Tiny(b0[j]) {
      WalkLeftSkip(b0, L, j);
      WalkRightSkip(b0, j, p);
    } else {
      assert j == L;
    }
  }

  lemma FilledStep(b0: seq<real>, b: seq<real>, p: int)
    requires Filled(b0, b, p) && p < |b|
    ensures Filled(b0, b[p := InterpAt(b, p)], p + 1)
  {
    if Tiny(b0[p]) {
      var K := WalkRight(b0, p);
      WalkRightAgree(b0, b, p);
      assert SampleAt(b, K) == SampleAt(b0, K);
      LeftEndBetween(b0, b, p);
      var u, v := GapLeft(b0, p), GapRight(b0, p);
      var j := WalkLeft(b, p);
      if u <= v {
        BlendBetween(j, p, K, b[j], SampleAt(b, K), u, v);
      } else {
        BlendBetween(j, p, K, b[j], SampleAt(b, K), v, u);
      }
    }
  }

  lemma {:induction false} FilledFrom(b0: seq<real>, b: seq<real>, p: nat)
    requires Filled(b0, b, p)
    decreases |b| - p
    ensures Filled(b0, InterpFrom(b, p), |b|)
  {
    if p < |b| {
      FilledStep(b0, b, p);
      FilledFrom(b0, b[p := InterpAt(b, p)], p + 1);
    }
  }

  /** The final interpolation keeps every set entry and fills every gap
      entry with a value between the set values at the ends of its gap (0
      when the gap runs to the end). */
  lemma InterpFillsGaps(b: seq<real>)
    ensures |InterpFrom(b, 0)| == |b|
    ensures forall t :: 0 <= t < |b| && !Tiny(b[t]) ==> InterpFrom(b, 0)[t] == b[t]
    ensures forall t :: 0 <= t < |b| && Tiny(b[t]) ==>
              Between(InterpFrom(b, 0)[t], GapLeft(b, t), GapRight(b, t))
  {
    FilledFrom(b, b, 0);
  }

  // ---------------------------------------------------------------------
  // Baseline subtraction and the baseline sigma.

  /** Sum of the first `k` entries. */
  function Sum(b: seq<real>, k: nat): real
    requires k <= |b|
  {
    if k == 0 then 0.0 else Sum(b, k - 1) + b[k - 1]
  }

  /** Sum of the squares of the first `k` entries. */
  function SumSq(b: seq<real>, k: nat): (r: real)
    requires k <= |b|
    ensures r >= 0.0
  {
    if k == 0 then 0.0 else SumSq(b, k - 1) + Square(b[k - 1])
  }

  /** The spread of the baseline about its mean, `sqrt(<b^2> - <b>^2)`,
      or 0 when the mean square is not positive.  `sqrt` stands for the
      library square root. */
  function BaselineSigma(b: seq<real>, sqrt: real -> real): real
    requires |b| >= 1
  {
    var meanSq := SumSq(b, |b|) / |b| as real;
    var mean := Sum(b, |b|) / |b| as real;
    if meanSq > 0.0 then sqrt(meanSq - Square(mean)) else 0.0
  }

  lemma Distribute(k: nat, c: real)
    requires k >= 1
    ensures (k as real) * c == ((k - 1) as real) * c + c
  {
  }

  lemma {:induction false} SumsOfConstant(b: seq<real>, c: real, k: nat)
    requires k <= |b| && forall t :: 0 <= t < |b| ==> b[t] == c
    ensures Sum(b, k) == (k as real) * c
    ensures SumSq(b, k) == (k as real) * Square(c)
  {
    if k > 0 {
      SumsOfConstant(b, c, k - 1);
      Distribute(k, c);
      Distribute(k, Square(c));
    }
  }

  lemma Cancel(n: real, y: real)
    requires n > 0.0
    ensures (n * y) / n == y
  {
  }

  /** A constant baseline has no spread: its sigma is 0 (for a square
      root that maps 0 to 0). */
  lemma ConstantBaselineSigma(b: seq<real>, c: real, sqrt: real -> real)
    requires |b| >= 1 && forall t :: 0 <= t < |b| ==> b[t] == c
    requires sqrt(0.0) == 0.0
    ensures BaselineSigma(b, sqrt) == 0.0
  {
    SumsOfConstant(b, c, |b|);
    Cancel(|b| as real, c);
    Cancel(|b| as real, Square(c));
  }

  /** The samples with the baseline subtracted. */
  function Subtracted(s: seq<real>, b: seq<real>): (d: seq<real>)
    requires |b| == |s|
    ensures |d| == |s|
  {
    seq(|s|, i requires 0 <= i < |s| => s[i] - b[i])
  }

  /** Subtract the baseline from the samples and measure the baseline
      sigma, in one loop as the source does. */
  method SubtractBaseline(s: seq<real>, b: seq<real>, sqrt: real -> real) returns (d: seq<real>, sigma: real)
    requires |b| == |s| >= 1
    ensures d == Subtracted(s, b)
    ensures sigma == BaselineSigma(b, sqrt)
  {
    var n := |s|;
    var sumSq, sum := 0.0, 0.0;
    d := [];
    var i := 0;
    while i < n
      invariant 0 <= i <= n && |d| == i
      invariant sumSq == SumSq(b, i) && sum == Sum(b, i)
      invariant forall t :: 0 <= t < i ==> d[t] == s[t] - b[t]
    {
      sumSq := sumSq + b[i] * b[i];
      sum := sum + b[i];
      d := d + [s[i] - b[i]];
      i := i + 1;
    }
    sumSq := sumSq / n as real;
    var mean := sum / n as real;
    if sumSq > 0.0 {
      sigma := sqrt(sumSq - Square(mean));
    } else {
      sigma := 0.0;
    }
  }

  // ---------------------------------------------------------------------
  // The whole estimate: scans, smoothing and interpolation in sequence.

  /** The scan input built from the samples: their step differences and
      their drift. */
  function ScanOf(s: seq<real>, cuts: Cuts, zone: int, cohCut: int): (x: ScanInput)
    requires |s| >= 1 && zone >= 0
    ensures x.Valid()
  {
    ScanInput(s, StepDiffs(s), seq(|s|, i => Drift(s, zone, i)), cuts, zone, cohCut)
  }

  /** The baseline estimated for samples `s`: the points marked by the
      coherence scans, smoothed, with the gaps interpolated. */
  function EstimatedBaseline(s: seq<real>, cuts: Cuts, zone: int, cohCut: int): (b: seq<real>)
    requires |s| >= 1 && zone >= 0
    ensures |b| == |s|
  {
    var marked := ScannedBaseline(ScanOf(s, cuts, zone, cohCut));
    InterpFrom(seq(|s|, i requires 0 <= i < |s| => SmoothAt(marked, i)), 0)
  }

  /** All passes between the cuts and the subtraction, in the order of the
      source.  The dip candidates and their short-run rejection are
      computed and then discarded, as the smoothing overwrites them. */
  method EstimateBaseline(s: seq<real>, cuts: Cuts, zone: int, cohCut: int) returns (b: seq<real>)
    requires |s| >= 1 && zone >= 0
    ensures b == EstimatedBaseline(s, cuts, zone, cohCut)
  {
    var diff := FillStepDiffs(s);
    var forward := ForwardDriftPass(s, zone);
    var drift := BackwardDriftPass(s, zone, forward);
    var x := ScanInput(s, diff, drift, cuts, zone, cohCut);
    assert x == ScanOf(s, cuts, zone, cohCut);
    var marked := ForwardScan(x);
    marked := BackwardScan(x, marked);
    var candidates := DipPass(s, marked);
    candidates := RejectShortRuns(candidates);
    var smoothed := SmoothPass(marked);
    assert smoothed == seq(|s|, i requires 0 <= i < |s| => SmoothAt(marked, i));
    b := InterpPass(smoothed);
  }

  /** Entries that are either unset or the level `c`. */
  predicate UnsetOr(b: seq<real>, c: real)
  {
    forall t :: 0 <= t < |b| ==> b[t] == 0.0 || b[t] == c
  }

  /** Smoothing a baseline whose set entries all hold one level changes
      nothing. */
  lemma SmoothingKeepsLevel(b: seq<real>, c: real)
    requires UnsetOr(b, c) && Live(c)
    ensures seq(|b|, i requires 0 <= i < |b| => SmoothAt(b, i)) == b
  {
    forall i | 0 <= i < |b|
      ensures SmoothAt(b, i) == b[i]
    {
      SmoothedBetween(b, i, c, c);
    }
  }

  /** Interpolating a baseline whose set entries all hold one level, with
      both ends set, fills every gap with that level. */
  lemma InterpolationFillsLevel(b: seq<real>, c: real)
    requires |b| >= 1 && UnsetOr(b, c) && Live(c)
    requires b[0] == c && b[|b| - 1] == c
    ensures forall t :: 0 <= t < |b| ==> InterpFrom(b, 0)[t] == c
  {
    InterpFillsGaps(b);
  }

  /** A flat digit at a level outside the sentinel is all baseline: the
      estimate reproduces it, whatever the cuts, subtracting it leaves
      only zeros, and its baseline sigma is 0. */
  lemma {:induction false} FlatDigitIsBaseline(s: seq<real>, c: real, cuts: Cuts, zone: int, cohCut: int,
                                               sqrt: real -> real)
    requires |s| >= 1 && zone >= 1 && Live(c)
    requires forall t :: 0 <= t < |s| ==> s[t] == c
    requires sqrt(0.0) == 0.0
    ensures EstimatedBaseline(s, cuts, zone, cohCut) == s
    ensures forall t :: 0 <= t < |s| ==> Subtracted(s, EstimatedBaseline(s, cuts, zone, cohCut))[t] == 0.0
    ensures BaselineSigma(EstimatedBaseline(s, cuts, zone, cohCut), sqrt) == 0.0
  {
    var marked := ScannedBaseline(ScanOf(s, cuts, zone, cohCut));
    assert UnsetOr(marked, c);
    assert marked[0] == c && marked[|s| - 1] == c;
    SmoothingKeepsLevel(marked, c);
    InterpolationFillsLevel(marked, c);
    var b := EstimatedBaseline(s, cuts, zone, cohCut);
    assert b == s;
    ConstantBaselineSigma(b, c, sqrt);
  }
}
