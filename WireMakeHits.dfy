/** The older hit finder of one wire.  The digit is lifted by 1000 and
    handed to an external peak search.  A candidate position is kept when
    it lies at least three samples inside either end of the digit and both
    the digit and the search output reach their cuts at the nearest
    sample; the kept positions are sorted.  Each peak's integration range
    runs from a walk down from the sample below the peak to the first
    sample under a tenth of the peak height (that sample included, or one
    below the lower midpoint bound) up to a walk up from the sample above
    the peak to the first sample under it (excluded, or the upper midpoint
    bound).  The floored width of the range decides how many sub-ranges it
    is split into, and every sub-range becomes one hit. */
module WireMakeHits {
  import opened Numerics
  import opened HitRanges

  /** Candidates closer than this to either end of the digit are dropped. */
  const EndSkip: int := 3
  /** The offset added to every sample before the peak search. */
  const SourceOffset: real := 1000.0
  /** The extent of a peak ends below this fraction of its height. */
  const ChargeThreshold: real := 0.1
  /** The number of values of the unsigned sample count, 2^64. */
  const SizeRange: int := 0x1_0000_0000_0000_0000

  /** The spectrum handed to the peak search. */
  function SourceInput(s: seq<real>): (r: seq<real>)
    ensures |r| == |s|
  {
    seq(|s|, i requires 0 <= i < |s| => s[i] + SourceOffset)
  }

  // ---------------------------------------------------------------------
  // The candidate filter.

  /** The largest position kept, `count - 3 - 1` computed on the unsigned
      sample count: for fewer than four samples it wraps around to a value
      near 2^64, and no candidate is dropped at the upper end. */
  function UpperPosition(n: nat): (r: real)
    ensures n > EndSkip ==> r == (n - EndSkip - 1) as real
    ensures n <= EndSkip ==> r >= (SizeRange - EndSkip - 1) as real
  {
    if n > EndSkip then (n - EndSkip - 1) as real else (n + SizeRange - EndSkip - 1) as real
  }

  /** Whether the filter keeps candidate position `x`, with `d` the search
      output; reads outside the digit see 0. */
  predicate Keeps(s: seq<real>, d: seq<real>, maxCut: real, deconvCut: real, x: real)
  {
    !(x < EndSkip as real) && !(x > UpperPosition(|s|))
    && !(SampleAt(s, Round(x)) < maxCut) && !(SampleAt(d, Round(x)) < deconvCut)
  }

  /** The candidates among `xs[..k]` the filter keeps, in their order. */
  function Kept(s: seq<real>, d: seq<real>, maxCut: real, deconvCut: real, xs: seq<real>, k: nat): (r: seq<real>)
    requires k <= |xs|
    ensures |r| <= k
    ensures forall x :: x in r <==> x in xs[..k] && Keeps(s, d, maxCut, deconvCut, x)
  {
    if k == 0 then []
    else
      assert xs[..k] == xs[..k - 1] + [xs[k - 1]];
      Kept(s, d, maxCut, deconvCut, xs, k - 1)
      + (if Keeps(s, d, maxCut, deconvCut, xs[k - 1]) then [xs[k - 1]] else [])
  }

  /** The accepted peaks: the kept candidates in ascending order. */
  function Accepted(s: seq<real>, d: seq<real>, maxCut: real, deconvCut: real, xs: seq<real>): seq<real>
  {
    Sort(Kept(s, d, maxCut, deconvCut, xs, |xs|))
  }

  /** A kept position of a digit of at least four samples lies in
      `[3, count - 4]`, so its nearest sample is inside the digit. */
  lemma KeptInside(s: seq<real>, d: seq<real>, maxCut: real, deconvCut: real, x: real)
    requires Keeps(s, d, maxCut, deconvCut, x)
    ensures EndSkip as real <= x && EndSkip <= Round(x)
    ensures |s| > EndSkip ==> x <= (|s| - EndSkip - 1) as real && Round(x) <= |s| - EndSkip - 1
  {
    TruncOfInt(EndSkip);
    TruncMonotone(EndSkip as real, x + 0.5);
    if |s| > EndSkip {
      TruncOfInt(|s| - EndSkip - 1);
      assert Trunc(x + 0.5) as real <= x + 0.5 <= (|s| - EndSkip - 1) as real + 0.5;
    }
  }

  /** The accepted peaks are sorted, are exactly the kept candidates (as a
      multiset), and each one is a candidate that passes the end, height
      and search-output cuts. */
  lemma AcceptedPositions(s: seq<real>, d: seq<real>, maxCut: real, deconvCut: real, xs: seq<real>)
    ensures SortedAsc(Accepted(s, d, maxCut, deconvCut, xs))
    ensures multiset(Accepted(s, d, maxCut, deconvCut, xs)) == multiset(Kept(s, d, maxCut, deconvCut, xs, |xs|))
    ensures forall x :: x in Accepted(s, d, maxCut, deconvCut, xs) <==> x in xs && Keeps(s, d, maxCut, deconvCut, x)
    ensures forall x :: x in Accepted(s, d, maxCut, deconvCut, xs) ==>
              EndSkip as real <= x && (|s| > EndSkip ==> x <= (|s| - EndSkip - 1) as real)
              && SampleAt(s, Round(x)) >= maxCut && SampleAt(d, Round(x)) >= deconvCut
  {
    var kept := Kept(s, d, maxCut, deconvCut, xs, |xs|);
    SortSorted(kept);
    SortPermutes(kept);
    assert xs[..|xs|] == xs;
    forall x
      ensures x in Accepted(s, d, maxCut, deconvCut, xs) <==> x in kept
    {
      assert x in Sort(kept) <==> x in multiset(Sort(kept));
    }
    forall x | x in Accepted(s, d, maxCut, deconvCut, xs)
      ensures EndSkip as real <= x && (|s| > EndSkip ==> x <= (|s| - EndSkip - 1) as real)
    {
      KeptInside(s, d, maxCut, deconvCut, x);
    }
  }

  // ---------------------------------------------------------------------
  // The integration range of a peak.

  /** The level a peak of height `peak` must be above to extend its range. */
  function Threshold(peak: real): real
  {
    ChargeThreshold * peak
  }

  /** The downward walk from `k` while the index is at least `lo` and the
      sample reaches `thr`: it ends on the first sample below `thr`, which
      the range includes, or one below `lo`. */
  function WalkDown(s: seq<real>, k: int, lo: int, thr: real): (r: int)
    decreases k - lo + 1
    ensures MinInt(k, lo - 1) <= r <= k
    ensures forall t :: r < t <= k ==> SampleAt(s, t) >= thr
    ensures r >= lo ==> SampleAt(s, r) < thr
  {
    if lo <= k && !(SampleAt(s, k) < thr) then WalkDown(s, k - 1, lo, thr) else k
  }

  /** The upward walk from `k` while the index is below `hi` and the sample
      reaches `thr`: it ends on the first sample below `thr`, which the
      range excludes, or on `hi`. */
  function WalkUp(s: seq<real>, k: int, hi: int, thr: real): (r: int)
    decreases hi - k
    ensures k <= r <= MaxInt(k, hi)
    ensures forall t :: k <= t < r ==> SampleAt(s, t) >= thr
    ensures r < hi ==> SampleAt(s, r) < thr
  {
    if k < hi && !(SampleAt(s, k) < thr) then WalkUp(s, k + 1, hi, thr) else k
  }

  /** The integration range `[begin, end)` of sorted peak `k`: it always
      holds the peak sample and its two neighbours' walks, reaches at most
      one sample below the lower midpoint bound and never past the upper
      one (unless the peak itself is). */
  function IntegrationRange(s: seq<real>, peaks: seq<real>, k: int): (r: (int, int))
    requires 0 <= k < |peaks|
    ensures r.0 <= Round(peaks[k]) - 1 && Round(peaks[k]) + 1 <= r.1
    ensures MinInt(Round(peaks[k]) - 1, MidLower(peaks, k, |peaks|) - 1) <= r.0
    ensures r.1 <= MaxInt(Round(peaks[k]) + 1, MidUpper(peaks, k, |peaks|, |s|))
  {
    var i := Round(peaks[k]);
    var thr := Threshold(SampleAt(s, i));
    (WalkDown(s, i - 1, MidLower(peaks, k, |peaks|), thr),
     WalkUp(s, i + 1, MidUpper(peaks, k, |peaks|, |s|), thr))
  }

  /** Unlike the midpoint bounds, neighbouring integration ranges may
      share a sample: on a flat digit of twenty samples at 1 with peaks at
      5 and 9, the first range ends at the midpoint 7 while the downward
      walk of the second runs one below it, to 6. */
  lemma IntegrationRangesCanOverlap()
    ensures IntegrationRange(seq(20, _ => 1.0), [5.0, 9.0], 0).1 == 7
    ensures IntegrationRange(seq(20, _ => 1.0), [5.0, 9.0], 1).0 == 6
  {
    var s: seq<real> := seq(20, _ => 1.0);
    var peaks := [5.0, 9.0];
    assert Round(5.0) == 5 && Round(9.0) == 9 by {
      TruncOfInt(5);
      TruncOfInt(9);
    }
    assert Midpoint(5.0, 9.0) == 7 && Midpoint(9.0, 5.0) == 7 by {
      TruncOfInt(7);
    }
    assert MidUpper(peaks, 0, 2, 20) == 7;
    assert MidLower(peaks, 1, 2) == 7;
    var thr := Threshold(1.0);
    assert WalkUp(s, 6, 7, thr) == 7 by {
      assert SampleAt(s, 6) == 1.0;
    }
    assert WalkDown(s, 8, 7, thr) == 6 by {
      assert SampleAt(s, 8) == 1.0 && SampleAt(s, 7) == 1.0;
    }
  }

  /** The downward search loop, whose index variable is its result. */
  method SearchDown(s: seq<real>, i: int, lo: int, peak: real) returns (begin: int)
    ensures begin == WalkDown(s, i - 1, lo, Threshold(peak))
  {
    begin := i - 1;
    while lo <= begin
      invariant WalkDown(s, begin, lo, Threshold(peak)) == WalkDown(s, i - 1, lo, Threshold(peak))
      decreases begin - lo
    {
      var v := SampleAt(s, begin);
      if v < Threshold(peak) { break; }
      begin := begin - 1;
    }
  }

  /** The upward search loop, whose index variable is its result. */
  method SearchUp(s: seq<real>, i: int, hi: int, peak: real) returns (end: int)
    ensures end == WalkUp(s, i + 1, hi, Threshold(peak))
  {
    end := i + 1;
    while end < hi
      invariant WalkUp(s, end, hi, Threshold(peak)) == WalkUp(s, i + 1, hi, Threshold(peak))
      decreases hi - end
    {
      var v := SampleAt(s, end);
      if v < Threshold(peak) { break; }
      end := end + 1;
    }
  }

  // ---------------------------------------------------------------------
  // The statistics of one hit: plain (unfloored) charge and moments.

  /** Plain charge over `[b, e)`; reads outside the digit see 0. */
  function RawCharge(s: seq<real>, b: int, e: int): real
    decreases e - b
  {
    if e <= b then 0.0 else RawCharge(s, b, e - 1) + SampleAt(s, e - 1)
  }

  /** Plain first moment of the positions over `[b, e)`. */
  function RawMoment(s: seq<real>, b: int, e: int): real
    decreases e - b
  {
    if e <= b then 0.0 else RawMoment(s, b, e - 1) + Moment(SampleAt(s, e - 1), e - 1)
  }

  /** Plain second moment of the positions over `[b, e)`. */
  function RawMoment2(s: seq<real>, b: int, e: int): real
    decreases e - b
  {
    if e <= b then 0.0 else RawMoment2(s, b, e - 1) + Moment(Moment(SampleAt(s, e - 1), e - 1), e - 1)
  }

  /** The sample counter of the hit statistics: it starts at one and counts
      every sample of the range. */
  function SampleCount(b: int, e: int): (r: real)
    decreases e - b
    ensures r >= 1.0
    ensures b <= e ==> r == (e - b + 1) as real
  {
    if e <= b then 1.0 else SampleCount(b, e - 1) + 1.0
  }

  /** A charge-weighted average; a range of zero charge gets 0, where the
      source divides by zero. */
  function Ratio(a: real, charge: real): real
  {
    if charge == 0.0 then 0.0 else a / charge
  }

  /** The hit of `[b, e)` in a digit starting at `first` with `step` per
      sample. */
  function HitOf(s: seq<real>, step: real, first: real, b: int, e: int, sqrt: real -> real): (h: Hit)
    requires forall x :: x > 0.0 ==> sqrt(x) > 0.0
    ensures h.charge == RawCharge(s, b, e) && h.chargeUnc == sqrt(h.charge)
    ensures h.time == (Ratio(RawMoment(s, b, e), h.charge) + 0.5) * step + first
    ensures h.timeUnc * sqrt(SampleCount(b, e)) == h.timeRms
  {
    var charge := RawCharge(s, b, e);
    var mean := Ratio(RawMoment(s, b, e), charge);
    var meanSquare := Ratio(RawMoment2(s, b, e), charge);
    var rms := step * sqrt(meanSquare - Square(mean) + 1.0);
    var samples := sqrt(SampleCount(b, e));
    Hit(charge, sqrt(charge), (mean + 0.5) * step + first, rms, rms / samples)
  }

  /** The second moment of a single sample is its charge times the
      squared position. */
  lemma MomentTwice(v: real, j: int)
    ensures Moment(Moment(v, j), j) == v * (j as real * j as real)
  {
    var x := j as real;
    assert (v * x) * x == v * (x * x);
  }

  /** A moment of a single sample divided by its charge. */
  lemma CancelCharge(v: real, x: real)
    requires v != 0.0
    ensures Ratio(v * x, v) == x
  {
    assert (v * x) / v == x;
  }

  /** The hit of a single sample of non-zero charge sits at the centre of
      that sample's time bin and has the width of one bin. */
  lemma SingleSampleHit(s: seq<real>, step: real, first: real, j: int, sqrt: real -> real)
    requires forall x :: x > 0.0 ==> sqrt(x) > 0.0
    requires SampleAt(s, j) != 0.0
    ensures HitOf(s, step, first, j, j + 1, sqrt).charge == SampleAt(s, j)
    ensures HitOf(s, step, first, j, j + 1, sqrt).time == (j as real + 0.5) * step + first
    ensures HitOf(s, step, first, j, j + 1, sqrt).timeRms == step * sqrt(1.0)
    ensures HitOf(s, step, first, j, j + 1, sqrt).timeUnc * sqrt(2.0) == step * sqrt(1.0)
  {
    var v := SampleAt(s, j);
    assert RawCharge(s, j, j + 1) == v;
    assert RawMoment(s, j, j + 1) == Moment(v, j);
    assert RawMoment2(s, j, j + 1) == Moment(Moment(v, j), j);
    assert Ratio(Moment(v, j), v) == j as real by {
      assert Moment(v, j) == v * j as real;
      CancelCharge(v, j as real);
    }
    assert Ratio(Moment(Moment(v, j), j), v) == Square(j as real) by {
      var x := j as real;
      MomentTwice(v, j);
      CancelCharge(v, x * x);
      assert Ratio(Moment(Moment(v, j), j), v) == x * x;
      assert Square(x) == x * x;
    }
    assert SampleCount(j, j + 1) == 2.0;
  }

  /** The plain charge of a range never exceeds the floored charge the
      width measurement uses, and equals it when no sample of the range is
      below the floor. */
  lemma {:induction false} RawChargeAtMostFloored(s: seq<real>, b: int, e: int)
    decreases e - b
    ensures RawCharge(s, b, e) <= FlooredCharge(s, b, e)
    ensures (forall t :: b <= t < e ==> SampleAt(s, t) >= 0.1) ==> RawCharge(s, b, e) == FlooredCharge(s, b, e)
  {
    if e > b {
      RawChargeAtMostFloored(s, b, e - 1);
    }
  }

  /** The plain charge of `[b, e)` is the charge of `[b, m)` plus that of
      `[m, e)`. */
  lemma {:induction false} RawChargeSplit(s: seq<real>, b: int, m: int, e: int)
    requires b <= m <= e
    decreases e - m
    ensures RawCharge(s, b, e) == RawCharge(s, b, m) + RawCharge(s, m, e)
  {
    if e > m {
      RawChargeSplit(s, b, m, e - 1);
    }
  }

  // ---------------------------------------------------------------------
  // The hits of the sorted peaks.

  /** One hit per sub-range, in order. */
  function RangeHits(s: seq<real>, step: real, first: real, ranges: seq<(int, int)>, sqrt: real -> real): (r: seq<Hit>)
    requires forall x :: x > 0.0 ==> sqrt(x) > 0.0
    ensures |r| == |ranges|
    ensures forall t :: 0 <= t < |r| ==> r[t] == HitOf(s, step, first, ranges[t].0, ranges[t].1, sqrt)
  {
    if |ranges| == 0 then []
    else
      var last := ranges[|ranges| - 1];
      RangeHits(s, step, first, ranges[..|ranges| - 1], sqrt) + [HitOf(s, step, first, last.0, last.1, sqrt)]
  }

  /** Chained sub-ranges starting at `b` carry, together, the plain charge
      from `b` to the end of the last one. */
  lemma {:induction false} ChainedCharge(s: seq<real>, step: real, first: real, ranges: seq<(int, int)>,
                                         b: int, sqrt: real -> real)
    requires forall x :: x > 0.0 ==> sqrt(x) > 0.0
    requires |ranges| >= 1 && ranges[0].0 == b
    requires forall t :: 0 <= t < |ranges| ==> b <= ranges[t].0 <= ranges[t].1
    requires forall t :: 0 <= t < |ranges| - 1 ==> ranges[t].1 == ranges[t + 1].0
    ensures TotalCharge(RangeHits(s, step, first, ranges, sqrt)) == RawCharge(s, b, ranges[|ranges| - 1].1)
  {
    var n := |ranges|;
    var hits := RangeHits(s, step, first, ranges, sqrt);
    assert hits[..n - 1] == RangeHits(s, step, first, ranges[..n - 1], sqrt);
    if n == 1 {
      assert RawCharge(s, b, b) == 0.0;
      RawChargeSplit(s, b, b, ranges[0].1);
    } else {
      ChainedCharge(s, step, first, ranges[..n - 1], b, sqrt);
      RawChargeSplit(s, b, ranges[n - 1].0, ranges[n - 1].1);
    }
  }

  /** The number of sub-ranges of sorted peak `k`. */
  function PeakSplit(s: seq<real>, peaks: seq<real>, k: int, digitStep: real, limit: real,
                     sqrt: real -> real): (r: int)
    requires 0 <= k < |peaks| && limit > 0.0 && digitStep >= 0.0
    requires forall x :: x >= 0.0 ==> sqrt(x) >= 0.0
    ensures r >= 1
  {
    var range := IntegrationRange(s, peaks, k);
    SplitOf(s, range.0, range.1, digitStep, limit, sqrt)
  }

  /** The sub-ranges of sorted peak `k`: `PeakSplit` of them, chained from
      the start of its integration range to its end. */
  function PeakRanges(s: seq<real>, peaks: seq<real>, k: int, digitStep: real, limit: real,
                      sqrt: real -> real): (r: seq<(int, int)>)
    requires 0 <= k < |peaks| && limit > 0.0 && digitStep >= 0.0
    requires forall x :: x >= 0.0 ==> sqrt(x) >= 0.0
    ensures |r| == PeakSplit(s, peaks, k, digitStep, limit, sqrt)
    ensures r[0].0 == IntegrationRange(s, peaks, k).0 && r[|r| - 1].1 == IntegrationRange(s, peaks, k).1
    ensures forall t :: 0 <= t < |r| ==> IntegrationRange(s, peaks, k).0 <= r[t].0 <= r[t].1
    ensures forall t :: 0 <= t < |r| - 1 ==> r[t].1 == r[t + 1].0
  {
    var range := IntegrationRange(s, peaks, k);
    var split := PeakSplit(s, peaks, k, digitStep, limit, sqrt);
    SubRangesCover(range.0, range.1, split);
    var r := SubRanges(range.0, range.1, split);
    forall t | 0 <= t < |r|
      ensures range.0 <= r[t].0 <= r[t].1
    {
      SubBeginMonotone(range.0, range.1, split, 0, t);
      SubBeginMonotone(range.0, range.1, split, t, t + 1);
    }
    r
  }

  /** The hits of sorted peak `k`. */
  function HitsOfPeak(s: seq<real>, peaks: seq<real>, k: int, digitStep: real, first: real, limit: real,
                      sqrt: real -> real): seq<Hit>
    requires 0 <= k < |peaks| && limit > 0.0 && digitStep >= 0.0
    requires forall x :: (x >= 0.0 ==> sqrt(x) >= 0.0) && (x > 0.0 ==> sqrt(x) > 0.0)
  {
    RangeHits(s, digitStep, first, PeakRanges(s, peaks, k, digitStep, limit, sqrt), sqrt)
  }

  /** Splitting loses no charge: the hits of a peak carry, together,
      exactly the plain charge of its integration range. */
  lemma PeakChargeConserved(s: seq<real>, peaks: seq<real>, k: int, digitStep: real, first: real,
                            limit: real, sqrt: real -> real)
    requires 0 <= k < |peaks| && limit > 0.0 && digitStep >= 0.0
    requires forall x :: (x >= 0.0 ==> sqrt(x) >= 0.0) && (x > 0.0 ==> sqrt(x) > 0.0)
    ensures |HitsOfPeak(s, peaks, k, digitStep, first, limit, sqrt)| == PeakSplit(s, peaks, k, digitStep, limit, sqrt)
    ensures TotalCharge(HitsOfPeak(s, peaks, k, digitStep, first, limit, sqrt))
            == RawCharge(s, IntegrationRange(s, peaks, k).0, IntegrationRange(s, peaks, k).1)
  {
    var ranges := PeakRanges(s, peaks, k, digitStep, limit, sqrt);
    ChainedCharge(s, digitStep, first, ranges, IntegrationRange(s, peaks, k).0, sqrt);
  }

  /** The hits of sorted peaks `[0, k)`, in order. */
  function AllHits(s: seq<real>, peaks: seq<real>, k: int, digitStep: real, first: real, limit: real,
                   sqrt: real -> real): seq<Hit>
    requires 0 <= k <= |peaks| && limit > 0.0 && digitStep >= 0.0
    requires forall x :: (x >= 0.0 ==> sqrt(x) >= 0.0) && (x > 0.0 ==> sqrt(x) > 0.0)
  {
    if k == 0 then []
    else AllHits(s, peaks, k - 1, digitStep, first, limit, sqrt)
         + HitsOfPeak(s, peaks, k - 1, digitStep, first, limit, sqrt)
  }

  /** The hits of a digit sampled from `first` to `last`. */
  function WireHits(s: seq<real>, first: real, last: real, maxCut: real, deconvCut: real, limit: real,
                    search: seq<real> -> SearchResult, sqrt: real -> real): seq<Hit>
    requires 1 <= |s| && last >= first && limit > 0.0
    requires forall x :: (x >= 0.0 ==> sqrt(x) >= 0.0) && (x > 0.0 ==> sqrt(x) > 0.0)
  {
    var out := search(SourceInput(s));
    var peaks := Accepted(s, out.dest, maxCut, deconvCut, out.positions);
    AllHits(s, peaks, |peaks|, DigitStep(first, last, |s|), first, limit, sqrt)
  }

  // ---------------------------------------------------------------------
  // The finder.

  class HitMaker {
    var nSource: int
    var source: array<real>
    var dest: array<real>

    const peakMaximumCut: real
    const peakDeconvolutionCut: real
    const peakRmsLimit: real

    ghost predicate Valid()
      reads this
    {
      source.Length == nSource && dest.Length == nSource && source != dest && peakRmsLimit > 0.0
    }

    /** A finder with no buffers yet and the configured cuts. */
    constructor (peakMaximumCut: real, peakDeconvolutionCut: real, peakRmsLimit: real)
      requires peakRmsLimit > 0.0
      ensures Valid() && nSource == 0
      ensures this.peakMaximumCut == peakMaximumCut && this.peakDeconvolutionCut == peakDeconvolutionCut
      ensures this.peakRmsLimit == peakRmsLimit
    {
      this.peakMaximumCut := peakMaximumCut;
      this.peakDeconvolutionCut := peakDeconvolutionCut;
      this.peakRmsLimit := peakRmsLimit;
      nSource := 0;
      var s := new real[0];
      var d := new real[0];
      source, dest := s, d;
    }

    /** Reallocates both buffers at twice the digit length when they are
        shorter than the digit; they never shrink. */
    method EnsureBuffers(n: int)
      requires Valid() && n >= 0
      modifies this
      ensures Valid()
      ensures nSource >= n && nSource >= old(nSource)
      ensures old(nSource) < n ==> nSource == 2 * n && fresh(source) && fresh(dest)
      ensures old(nSource) >= n ==> nSource == old(nSource) && source == old(source) && dest == old(dest)
    {
      if nSource < n {
        nSource := 2 * n;
        var s := new real[nSource];
        var d := new real[nSource];
        source, dest := s, d;
      }
    }

    /** Fills the source buffer with the lifted digit and clears the
        destination buffer. */
    method FillSpectrum(s: seq<real>)
      requires Valid() && |s| <= nSource
      modifies source, dest
      ensures source[..|s|] == SourceInput(s)
      ensures forall i :: 0 <= i < |s| ==> dest[i] == 0.0
    {
      for i := 0 to |s|
        invariant forall j :: 0 <= j < i ==> source[j] == s[j] + SourceOffset && dest[j] == 0.0
      {
        source[i] := s[i] + SourceOffset;
        dest[i] := 0.0;
      }
    }

    /** The peak search leaves its output in the destination buffer. */
    method StoreSearchOutput(out: seq<real>)
      requires Valid() && |out| <= nSource
      modifies dest
      ensures dest[..|out|] == out
    {
      for i := 0 to |out|
        invariant forall j :: 0 <= j < i ==> dest[j] == out[j]
      {
        dest[i] := out[i];
      }
    }

    /** The candidate loop: keeps the candidates that pass the end, height
        and search-output cuts, reading the search output from the
        destination buffer. */
    method FilterPeaks(s: seq<real>, cands: seq<real>) returns (peaks: seq<real>)
      requires Valid() && |s| <= nSource
      ensures peaks == Kept(s, dest[..|s|], peakMaximumCut, peakDeconvolutionCut, cands, |cands|)
    {
      var n := |s|;
      peaks := [];
      for i := 0 to |cands|
        invariant peaks == Kept(s, dest[..n], peakMaximumCut, peakDeconvolutionCut, cands, i)
      {
        var x := cands[i];
        if !(x < EndSkip as real) && !(x > UpperPosition(n)) {
          var index := Round(x);
          var deconv := if 0 <= index < n then dest[index] else 0.0;
          if !(SampleAt(s, index) < peakMaximumCut) && !(deconv < peakDeconvolutionCut) {
            peaks := peaks + [x];
          }
        }
      }
    }

    /** The statistics of one hit over `[b, e)`. */
    method MakeHit(s: seq<real>, step: real, first: real, b: int, e: int, sqrt: real -> real) returns (h: Hit)
      requires forall x :: x > 0.0 ==> sqrt(x) > 0.0
      ensures h == HitOf(s, step, first, b, e, sqrt)
    {
      var charge, sample, sampleSquared, samples := HitSums(s, b, e);
      var mean := Ratio(sample, charge);
      var meanSquare := Ratio(sampleSquared, charge);
      var rms := step * sqrt(meanSquare - Square(mean) + 1.0);
      h := Hit(charge, sqrt(charge), (mean + 0.5) * step + first, rms, rms / sqrt(samples));
      ghost var expected := HitOf(s, step, first, b, e, sqrt);
      assert expected.charge == h.charge && expected.chargeUnc == h.chargeUnc;
      assert expected.time == h.time && expected.timeRms == h.timeRms && expected.timeUnc == h.timeUnc;
    }

    /** The accumulation loop of one hit over `[b, e)`. */
    method HitSums(s: seq<real>, b: int, e: int) returns (charge: real, sample: real, sampleSquared: real, samples: real)
      ensures charge == RawCharge(s, b, e) && sample == RawMoment(s, b, e)
      ensures sampleSquared == RawMoment2(s, b, e) && samples == SampleCount(b, e)
    {
      charge, sample, sampleSquared, samples := 0.0, 0.0, 0.0, 1.0;
      var j := b;
      while j < e
        invariant b <= j <= MaxInt(b, e)
        invariant charge == RawCharge(s, b, j) && sample == RawMoment(s, b, j)
        invariant sampleSquared == RawMoment2(s, b, j) && samples == SampleCount(b, j)
        decreases e - j
      {
        var v := SampleAt(s, j);
        charge := charge + v;
        sample := sample + Moment(v, j);
        sampleSquared := sampleSquared + Moment(Moment(v, j), j);
        samples := samples + 1.0;
        j := j + 1;
      }
    }

    /** One hit for every sub-range, appended in order. */
    method OfferRanges(s: seq<real>, step: real, first: real, ranges: seq<(int, int)>, sqrt: real -> real)
      returns (hits: seq<Hit>)
      requires forall x :: x > 0.0 ==> sqrt(x) > 0.0
      ensures hits == RangeHits(s, step, first, ranges, sqrt)
    {
      hits := [];
      for k := 0 to |ranges|
        invariant hits == RangeHits(s, step, first, ranges[..k], sqrt)
      {
        var h := MakeHit(s, step, first, ranges[k].0, ranges[k].1, sqrt);
        assert ranges[..k + 1][..k] == ranges[..k];
        hits := hits + [h];
      }
      assert ranges[..|ranges|] == ranges;
    }

    /** The integration range of sorted peak `k`, its width, its split and
        its hits. */
    method PeakHits(s: seq<real>, peaks: seq<real>, k: int, digitStep: real, first: real, sqrt: real -> real)
      returns (hits: seq<Hit>)
      requires Valid() && 0 <= k < |peaks| && digitStep >= 0.0
      requires forall x :: (x >= 0.0 ==> sqrt(x) >= 0.0) && (x > 0.0 ==> sqrt(x) > 0.0)
      ensures hits == HitsOfPeak(s, peaks, k, digitStep, first, peakRmsLimit, sqrt)
    {
      var i := Round(peaks[k]);
      var peak := SampleAt(s, i);
      var lower, upper := MidBounds(peaks, k, |s|);
      var begin := SearchDown(s, i, lower, peak);
      var end := SearchUp(s, i, upper, peak);
      assert (begin, end) == IntegrationRange(s, peaks, k);
      var split := MeasureSplit(s, begin, end, digitStep, peakRmsLimit, sqrt);
      var ranges := SplitLoop(begin, end, split);
      hits := OfferRanges(s, digitStep, first, ranges, sqrt);
    }

    /** The hits of all the sorted peaks, peak by peak. */
    method AllPeakHits(s: seq<real>, peaks: seq<real>, digitStep: real, first: real, sqrt: real -> real)
      returns (hits: seq<Hit>)
      requires Valid() && digitStep >= 0.0
      requires forall x :: (x >= 0.0 ==> sqrt(x) >= 0.0) && (x > 0.0 ==> sqrt(x) > 0.0)
      ensures hits == AllHits(s, peaks, |peaks|, digitStep, first, peakRmsLimit, sqrt)
    {
      hits := [];
      for k := 0 to |peaks|
        invariant hits == AllHits(s, peaks, k, digitStep, first, peakRmsLimit, sqrt)
      {
        var more := PeakHits(s, peaks, k, digitStep, first, sqrt);
        hits := hits + more;
      }
    }

    /** Fills the spectrum, runs the peak search on it and leaves its
        output in the destination buffer. */
    method RunSearch(s: seq<real>, search: seq<real> -> SearchResult) returns (out: SearchResult)
      requires Valid() && |s| <= nSource
      requires |search(SourceInput(s)).dest| == |s|
      modifies source, dest
      ensures out == search(SourceInput(s))
      ensures source[..|s|] == SourceInput(s) && dest[..|s|] == out.dest
    {
      FillSpectrum(s);
      out := search(source[..|s|]);
      StoreSearchOutput(out.dest);
    }

    /** One pass over a deconvolved digit `s` sampled from `first` to
        `last`: returns the hits appended. */
    method Find(s: seq<real>, first: real, last: real, search: seq<real> -> SearchResult, sqrt: real -> real)
      returns (hits: seq<Hit>)
      requires Valid() && 1 <= |s| && last >= first
      requires |search(SourceInput(s)).dest| == |s|
      requires forall x :: (x >= 0.0 ==> sqrt(x) >= 0.0) && (x > 0.0 ==> sqrt(x) > 0.0)
      modifies this, source, dest
      ensures Valid() && nSource >= |s| && nSource >= old(nSource)
      ensures old(nSource) >= |s| ==> nSource == old(nSource)
      ensures old(nSource) < |s| ==> nSource == 2 * |s| && fresh(source) && fresh(dest)
      ensures source[..|s|] == SourceInput(s) && dest[..|s|] == search(SourceInput(s)).dest
      ensures hits == WireHits(s, first, last, peakMaximumCut, peakDeconvolutionCut, peakRmsLimit, search, sqrt)
    {
      var n := |s|;
      EnsureBuffers(n);
      var out := RunSearch(s, search);
      var kept := FilterPeaks(s, out.positions);
      var peaks := Sort(kept);
      assert peaks == Accepted(s, out.dest, peakMaximumCut, peakDeconvolutionCut, out.positions);
      var digitStep := DigitStep(first, last, n);
      hits := AllPeakHits(s, peaks, digitStep, first, sqrt);
    }
  }
}
