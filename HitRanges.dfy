/** The index arithmetic shared by the two hit finders: the outward walk
    from a peak to the first sample below a threshold, the integration
    bounds halfway between neighbouring peaks, the floored charge moments
    that measure a peak's width, and the split of a range into sub-ranges
    with a real-valued stride. */
module HitRanges {
  import opened Numerics

  /** What the external peak search produces for an input spectrum: its
      output spectrum and the positions of the peaks it found. */
  datatype SearchResult = SearchResult(dest: seq<real>, positions: seq<real>)

  /** The time per sample of a digit of `n` samples from `first` to
      `last`. */
  function DigitStep(first: real, last: real, n: int): (r: real)
    requires last >= first && n >= 1
    ensures r >= 0.0 && (last > first ==> r > 0.0)
  {
    var span := last - first;
    assert span / n as real >= 0.0 && (span > 0.0 ==> span / n as real > 0.0) by {
      assert span >= 0.0 && n as real > 0.0;
    }
    span / n as real
  }

  /** A reconstructed hit: charge and its uncertainty, time, time RMS and
      time uncertainty. */
  datatype Hit = Hit(charge: real, chargeUnc: real, time: real, timeRms: real, timeUnc: real)

  /** The total charge of a list of hits. */
  function TotalCharge(hits: seq<Hit>): real
  {
    if |hits| == 0 then 0.0 else TotalCharge(hits[..|hits| - 1]) + hits[|hits| - 1].charge
  }

  /** The charge of a concatenation is the sum of the charges. */
  lemma {:induction false} TotalChargeAppend(a: seq<Hit>, b: seq<Hit>)
    decreases |b|
    ensures TotalCharge(a + b) == TotalCharge(a) + TotalCharge(b)
  {
    if |b| > 0 {
      var b0 := b[..|b| - 1];
      assert (a + b)[..|a + b| - 1] == a + b0;
      assert (a + b)[|a + b| - 1] == b[|b| - 1];
      TotalChargeAppend(a, b0);
    } else {
      assert a + b == a;
    }
  }

  // ---------------------------------------------------------------------
  // The extent of a peak: walk down and up from the peak while the samples
  // stay at or above the threshold.

  /** The first index of the extent: the walk down from `k` stops at index
      0 or at the first sample below `thr`. */
  function ExtentBegin(s: seq<real>, k: int, thr: real): (r: int)
    requires 0 <= k < |s|
    ensures 0 <= r <= k
    ensures r > 0 ==> s[r] < thr
    ensures forall t :: r < t <= k ==> s[t] >= thr
  {
    if k > 0 && !(s[k] < thr) then ExtentBegin(s, k - 1, thr) else k
  }

  /** The end of the extent (exclusive): the walk up from `k` stops at the
      end of the samples or at the first sample below `thr`. */
  function ExtentEnd(s: seq<real>, k: int, thr: real): (r: int)
    requires 0 <= k <= |s|
    decreases |s| - k
    ensures k <= r <= |s|
    ensures r < |s| ==> s[r] < thr
    ensures forall t :: k <= t < r ==> s[t] >= thr
  {
    if k < |s| && !(s[k] < thr) then ExtentEnd(s, k + 1, thr) else k
  }

  /** Lowering the threshold never moves the beginning of the extent up. */
  lemma {:induction false} ExtentBeginMonotone(s: seq<real>, k: int, t1: real, t2: real)
    requires 0 <= k < |s| && t1 <= t2
    ensures ExtentBegin(s, k, t1) <= ExtentBegin(s, k, t2)
  {
    if k > 0 && !(s[k] < t2) {
      ExtentBeginMonotone(s, k - 1, t1, t2);
    }
  }

  /** Lowering the threshold never moves the end of the extent down. */
  lemma {:induction false} ExtentEndMonotone(s: seq<real>, k: int, t1: real, t2: real)
    requires 0 <= k <= |s| && t1 <= t2
    decreases |s| - k
    ensures ExtentEnd(s, k, t2) <= ExtentEnd(s, k, t1)
  {
    if k < |s| && !(s[k] < t2) {
      ExtentEndMonotone(s, k + 1, t1, t2);
    }
  }

  // ---------------------------------------------------------------------
  // Integration bounds between neighbouring peaks.

  /** The truncated midpoint of two peak positions. */
  function Midpoint(p: real, q: real): int
  {
    Trunc((p + q) / 2.0)
  }

  /** The lower bound of peak `k` from the peaks `[0, o)`: the largest
      midpoint with a peak positioned before it, 0 when there is none. */
  function MidLower(peaks: seq<real>, k: int, o: int): (r: int)
    requires 0 <= k < |peaks| && 0 <= o <= |peaks|
    ensures r >= 0
  {
    if o == 0 then 0
    else if o - 1 != k && peaks[o - 1] < peaks[k] then
      MaxInt(MidLower(peaks, k, o - 1), Midpoint(peaks[k], peaks[o - 1]))
    else MidLower(peaks, k, o - 1)
  }

  /** The upper bound of peak `k` from the peaks `[0, o)`: the smallest
      midpoint with another peak not positioned before it, `n` when there
      is none. */
  function MidUpper(peaks: seq<real>, k: int, o: int, n: int): (r: int)
    requires 0 <= k < |peaks| && 0 <= o <= |peaks|
    ensures r <= n
  {
    if o == 0 then n
    else if o - 1 != k && !(peaks[o - 1] < peaks[k]) then
      MinInt(MidUpper(peaks, k, o - 1, n), Midpoint(peaks[k], peaks[o - 1]))
    else MidUpper(peaks, k, o - 1, n)
  }

  /** The lower bound is the largest midpoint with an earlier peak among
      `[0, o)`, and 0 when there is none. */
  lemma {:induction false} MidLowerIsLargest(peaks: seq<real>, k: int, o: int)
    requires 0 <= k < |peaks| && 0 <= o <= |peaks|
    ensures forall t :: 0 <= t < o && t != k && peaks[t] < peaks[k] ==> MidLower(peaks, k, o) >= Midpoint(peaks[k], peaks[t])
    ensures MidLower(peaks, k, o) == 0
            || exists t :: 0 <= t < o && t != k && peaks[t] < peaks[k] && MidLower(peaks, k, o) == Midpoint(peaks[k], peaks[t])
  {
    if o > 0 {
      MidLowerIsLargest(peaks, k, o - 1);
    }
  }

  /** The upper bound is the smallest midpoint with a peak not earlier
      among `[0, o)`, and `n` when there is none. */
  lemma {:induction false} MidUpperIsSmallest(peaks: seq<real>, k: int, o: int, n: int)
    requires 0 <= k < |peaks| && 0 <= o <= |peaks|
    ensures forall t :: 0 <= t < o && t != k && !(peaks[t] < peaks[k]) ==> MidUpper(peaks, k, o, n) <= Midpoint(peaks[k], peaks[t])
    ensures MidUpper(peaks, k, o, n) == n
            || exists t :: 0 <= t < o && t != k && !(peaks[t] < peaks[k]) && MidUpper(peaks, k, o, n) == Midpoint(peaks[k], peaks[t])
  {
    if o > 0 {
      MidUpperIsSmallest(peaks, k, o - 1, n);
    }
  }

  /** The bound loop over all other peaks (skipped when there is only one
      peak, which changes nothing). */
  method MidBounds(peaks: seq<real>, k: int, n: int) returns (lower: int, upper: int)
    requires 0 <= k < |peaks|
    ensures lower == MidLower(peaks, k, |peaks|)
    ensures upper == MidUpper(peaks, k, |peaks|, n)
  {
    lower, upper := 0, n;
    if |peaks| > 1 {
      var o := 0;
      while o < |peaks|
        invariant 0 <= o <= |peaks|
        invariant lower == MidLower(peaks, k, o)
        invariant upper == MidUpper(peaks, k, o, n)
      {
        MidStep(peaks, k, o, n);
        if o != k {
          var t := Midpoint(peaks[k], peaks[o]);
          if peaks[o] < peaks[k] {
            if lower < t { lower := t; }
          } else {
            if upper > t { upper := t; }
          }
        }
        o := o + 1;
      }
    } else {
      SinglePeakBounds(peaks, n);
    }
  }

  /** How peak `o` updates the two bounds. */
  lemma MidStep(peaks: seq<real>, k: int, o: int, n: int)
    requires 0 <= k < |peaks| && 0 <= o < |peaks|
    ensures MidLower(peaks, k, o + 1) ==
              if o != k && peaks[o] < peaks[k] then MaxInt(MidLower(peaks, k, o), Midpoint(peaks[k], peaks[o]))
              else MidLower(peaks, k, o)
    ensures MidUpper(peaks, k, o + 1, n) ==
              if o != k && !(peaks[o] < peaks[k]) then MinInt(MidUpper(peaks, k, o, n), Midpoint(peaks[k], peaks[o]))
              else MidUpper(peaks, k, o, n)
  {
  }

  /** A lone peak has no neighbour to bound it. */
  lemma SinglePeakBounds(peaks: seq<real>, n: int)
    requires |peaks| == 1
    ensures MidLower(peaks, 0, 1) == 0 && MidUpper(peaks, 0, 1, n) == n
  {
    assert MidLower(peaks, 0, 1) == MidLower(peaks, 0, 0);
    assert MidUpper(peaks, 0, 1, n) == MidUpper(peaks, 0, 0, n);
  }

  /** Two peaks at different positions get integration bounds that never
      overlap: the earlier one's upper bound is at most their midpoint and
      the later one's lower bound at least that midpoint. */
  lemma BoundsDoNotOverlap(peaks: seq<real>, a: int, b: int, n: int)
    requires 0 <= a < |peaks| && 0 <= b < |peaks| && peaks[a] < peaks[b]
    ensures MidUpper(peaks, a, |peaks|, n) <= Midpoint(peaks[a], peaks[b]) <= MidLower(peaks, b, |peaks|)
  {
    MidUpperIsSmallest(peaks, a, |peaks|, n);
    MidLowerIsLargest(peaks, b, |peaks|);
    assert peaks[b] + peaks[a] == peaks[a] + peaks[b];
  }

  ghost predicate StrictlyIncreasing(peaks: seq<real>)
  {
    forall i, j :: 0 <= i < j < |peaks| ==> peaks[i] < peaks[j]
  }

  /** For strictly increasing peaks inside `[0, n]`, adjacent peaks abut
      at their truncated midpoint. */
  lemma AdjacentBoundsAbut(peaks: seq<real>, k: int, n: int)
    requires StrictlyIncreasing(peaks) && 0 <= k && k + 1 < |peaks|
    requires forall i :: 0 <= i < |peaks| ==> 0.0 <= peaks[i] <= n as real
    ensures MidUpper(peaks, k, |peaks|, n) == Midpoint(peaks[k], peaks[k + 1])
    ensures MidLower(peaks, k + 1, |peaks|) == Midpoint(peaks[k], peaks[k + 1])
  {
    var m := Midpoint(peaks[k], peaks[k + 1]);
    assert 0 <= m <= n by {
      TruncOfInt(n);
      TruncMonotone((peaks[k] + peaks[k + 1]) / 2.0, n as real);
    }
    BoundsDoNotOverlap(peaks, k, k + 1, n);
    MidUpperIsSmallest(peaks, k, |peaks|, n);
    MidLowerIsLargest(peaks, k + 1, |peaks|);
    assert peaks[k + 1] + peaks[k] == peaks[k] + peaks[k + 1];
  }

  // ---------------------------------------------------------------------
  // Width of a peak: charge moments with every sample floored at 0.1.

  /** A sample as the width measurement sees it: floored at 0.1. */
  function Floored(v: real): real
  {
    if v < 0.1 then 0.1 else v
  }

  /** A charge-weighted position, `v * j`. */
  function Moment(v: real, j: int): real
  {
    v * j as real
  }

  /** Floored charge over `[b, e)`; reads beyond the digit see 0. */
  function FlooredCharge(s: seq<real>, b: int, e: int): (r: real)
    decreases e - b
  {
    if e <= b then 0.0 else FlooredCharge(s, b, e - 1) + Floored(SampleAt(s, e - 1))
  }

  /** Floored first moment of the positions over `[b, e)`. */
  function FlooredMoment(s: seq<real>, b: int, e: int): real
    decreases e - b
  {
    if e <= b then 0.0 else FlooredMoment(s, b, e - 1) + Moment(Floored(SampleAt(s, e - 1)), e - 1)
  }

  /** Floored second moment of the positions over `[b, e)`. */
  function FlooredMoment2(s: seq<real>, b: int, e: int): real
    decreases e - b
  {
    if e <= b then 0.0 else FlooredMoment2(s, b, e - 1) + Moment(Moment(Floored(SampleAt(s, e - 1)), e - 1), e - 1)
  }

  /** Every floored sample weighs at least 0.1, so a non-empty range has a
      positive floored charge. */
  lemma {:induction false} FlooredChargeAtLeast(s: seq<real>, b: int, e: int)
    requires b <= e
    decreases e - b
    ensures FlooredCharge(s, b, e) >= 0.1 * (e - b) as real
  {
    if e > b {
      FlooredChargeAtLeast(s, b, e - 1);
    }
  }

  /** The weighted spread about `x` of sums `c`, `m`, `q`. */
  function SpreadAbout(q: real, m: real, c: real, x: real): real
  {
    q - 2.0 * x * m + x * x * c
  }

  /** Adding a sample of weight `w >= 0` at position `i` to the sums `c`,
      `m`, `q` raises their spread about `x` by `w (i - x)^2`. */
  lemma SpreadAboutStep(q: real, m: real, c: real, q': real, m': real, c': real, w: real, i: real, x: real)
    requires w >= 0.0 && q' == q + (w * i) * i && m' == m + w * i && c' == c + w
    ensures SpreadAbout(q', m', c', x) >= SpreadAbout(q, m, c, x)
  {
    var y := i - x;
    assert SpreadAbout(q', m', c', x) == SpreadAbout(q, m, c, x) + w * (y * y);
    assert w * (y * y) >= 0.0;
  }

  /** The floored second moment about any position `x` is non-negative:
      it is the sum of each weight times its squared distance from `x`. */
  lemma {:induction false} SpreadAboutNonNegative(s: seq<real>, b: int, e: int, x: real)
    decreases e - b
    ensures SpreadAbout(FlooredMoment2(s, b, e), FlooredMoment(s, b, e), FlooredCharge(s, b, e), x) >= 0.0
  {
    if e > b {
      SpreadAboutNonNegative(s, b, e - 1, x);
      SpreadAboutStep(FlooredMoment2(s, b, e - 1), FlooredMoment(s, b, e - 1), FlooredCharge(s, b, e - 1),
                      FlooredMoment2(s, b, e), FlooredMoment(s, b, e), FlooredCharge(s, b, e),
                      Floored(SampleAt(s, e - 1)), (e - 1) as real, x);
    } else {
      assert SpreadAbout(0.0, 0.0, 0.0, x) == 0.0;
    }
  }

  /** `q c - m^2`: the weighted variance of sums `c`, `m`, `q` times `c^2`. */
  function Det(q: real, m: real, c: real): real
  {
    q * c - m * m
  }

  /** Adding a sample of weight `w >= 0` at position `i` to the sums keeps
      `q c - m^2` growing, by `w` times the spread about `i`. */
  lemma ProductStep(q: real, m: real, c: real, q': real, m': real, c': real, w: real, i: real)
    requires w >= 0.0 && SpreadAbout(q, m, c, i) >= 0.0
    requires q' == q + (w * i) * i && m' == m + w * i && c' == c + w
    ensures Det(q', m', c') >= Det(q, m, c)
  {
    var d := SpreadAbout(q, m, c, i);
    assert Det(q', m', c') == Det(q, m, c) + w * d;
    assert w * d >= 0.0;
  }

  /** The weighted variance is non-negative: `Q C >= M^2` for the floored
      charge `C`, first moment `M` and second moment `Q` of a range. */
  lemma {:induction false} WeightedVarianceNonNegative(s: seq<real>, b: int, e: int)
    decreases e - b
    ensures Det(FlooredMoment2(s, b, e), FlooredMoment(s, b, e), FlooredCharge(s, b, e)) >= 0.0
  {
    if e > b {
      var i := (e - 1) as real;
      var w := Floored(SampleAt(s, e - 1));
      assert w >= 0.0;
      assert FlooredMoment2(s, b, e) == FlooredMoment2(s, b, e - 1) + (w * i) * i;
      assert FlooredMoment(s, b, e) == FlooredMoment(s, b, e - 1) + w * i;
      assert FlooredCharge(s, b, e) == FlooredCharge(s, b, e - 1) + w;
      WeightedVarianceNonNegative(s, b, e - 1);
      SpreadAboutNonNegative(s, b, e - 1, i);
      ProductStep(FlooredMoment2(s, b, e - 1), FlooredMoment(s, b, e - 1), FlooredCharge(s, b, e - 1),
                  FlooredMoment2(s, b, e), FlooredMoment(s, b, e), FlooredCharge(s, b, e), w, i);
    } else {
      assert Det(0.0, 0.0, 0.0) == 0.0;
    }
  }

  /** A positive factor cancels from both sides of an inequality. */
  lemma CancelPositive(p: real, r: real, c: real)
    requires c > 0.0 && p * c >= r * c
    ensures p >= r
  {
    assert (p - r) * c == p * c - r * c;
  }

  /** Dividing `q c >= m^2` by `c^2`. */
  lemma MeanSquareAtLeastSquaredMean(q: real, m: real, c: real)
    requires c > 0.0 && Det(q, m, c) >= 0.0
    ensures q / c - Square(m / c) >= 0.0
  {
    var a := m / c;
    assert m == a * c;
    assert q * c >= (a * a * c) * c;
    CancelPositive(q, a * a * c, c);
    assert q / c >= a * a;
  }

  /** The argument of the square root in the raw width is at least 1 on a
      non-empty range. */
  lemma SpreadArgumentAtLeastOne(s: seq<real>, b: int, e: int)
    requires b < e
    ensures FlooredCharge(s, b, e) > 0.0
    ensures FlooredMoment2(s, b, e) / FlooredCharge(s, b, e)
            - Square(FlooredMoment(s, b, e) / FlooredCharge(s, b, e)) + 1.0 >= 1.0
  {
    FlooredChargeAtLeast(s, b, e);
    WeightedVarianceNonNegative(s, b, e);
    MeanSquareAtLeastSquaredMean(FlooredMoment2(s, b, e), FlooredMoment(s, b, e), FlooredCharge(s, b, e));
  }

  /** The raw width of a peak over `[b, e)`, in sample units before the
      time scale: `sqrt(<j^2> - <j>^2 + 1)`. */
  function RawSpread(s: seq<real>, b: int, e: int, sqrt: real -> real): real
    requires b < e
  {
    FlooredChargeAtLeast(s, b, e);
    var charge := FlooredCharge(s, b, e);
    var mean := FlooredMoment(s, b, e) / charge;
    sqrt(FlooredMoment2(s, b, e) / charge - Square(mean) + 1.0)
  }

  /** The width loop: accumulates the floored charge and moments. */
  method WidthMoments(s: seq<real>, b: int, e: int) returns (charge: real, time: real, timeSquared: real)
    ensures charge == FlooredCharge(s, b, e)
    ensures time == FlooredMoment(s, b, e)
    ensures timeSquared == FlooredMoment2(s, b, e)
  {
    charge, time, timeSquared := 0.0, 0.0, 0.0;
    var j := b;
    while j < e
      invariant b <= j <= MaxInt(b, e)
      invariant charge == FlooredCharge(s, b, j)
      invariant time == FlooredMoment(s, b, j)
      invariant timeSquared == FlooredMoment2(s, b, j)
    {
      var v := SampleAt(s, j);
      if v < 0.1 { v := 0.1; }
      charge := charge + v;
      time := time + Moment(v, j);
      timeSquared := timeSquared + Moment(Moment(v, j), j);
      j := j + 1;
    }
  }

  // ---------------------------------------------------------------------
  // Splitting a range into sub-ranges.

  /** The number of sub-ranges: `(int)(rawRMS / limit + 1.0)`. */
  function SplitCount(rawRms: real, limit: real): int
    requires limit != 0.0
  {
    Trunc(rawRms / limit + 1.0)
  }

  /** A non-negative width under a positive limit splits into at least one
      sub-range, and a width below the limit into exactly one. */
  lemma SplitAtLeastOne(rawRms: real, limit: real)
    requires rawRms >= 0.0 && limit > 0.0
    ensures SplitCount(rawRms, limit) >= 1
    ensures rawRms < limit ==> SplitCount(rawRms, limit) == 1
  {
    var q := rawRms / limit;
    assert q * limit == rawRms;
    assert q >= 0.0;
    if rawRms < limit && q >= 1.0 {
      assert false;
    }

  }

  /** The width of a peak in time units: the digitisation step times the
      raw spread. */
  function Width(digitStep: real, spread: real): (r: real)
    ensures digitStep >= 0.0 && spread >= 0.0 ==> r >= 0.0
  {
    digitStep * spread
  }

  /** The number of sub-ranges of a non-empty range `[b, e)`: its width in
      time units over the limit, plus one, truncated. */
  function SplitOf(s: seq<real>, b: int, e: int, digitStep: real, limit: real,
                   sqrt: real -> real): (r: int)
    requires b < e && limit > 0.0 && digitStep >= 0.0
    requires forall x :: x >= 0.0 ==> sqrt(x) >= 0.0
    ensures r >= 1
  {
    SpreadArgumentAtLeastOne(s, b, e);
    var width := Width(digitStep, RawSpread(s, b, e, sqrt));
    SplitAtLeastOne(width, limit);
    SplitCount(width, limit)
  }

  /** The width loop and the split count of a non-empty range. */
  method MeasureSplit(s: seq<real>, b: int, e: int, digitStep: real, limit: real, sqrt: real -> real)
    returns (split: int)
    requires b < e && limit > 0.0 && digitStep >= 0.0
    requires forall x :: x >= 0.0 ==> sqrt(x) >= 0.0
    ensures split == SplitOf(s, b, e, digitStep, limit, sqrt)
  {
    var charge, time, timeSquared := WidthMoments(s, b, e);
    FlooredChargeAtLeast(s, b, e);
    var mean := time / charge;
    var spread := sqrt(timeSquared / charge - Square(mean) + 1.0);
    var rawRms := Width(digitStep, spread);
    split := Trunc(rawRms / limit + 1.0);
  }

  /** The real-valued stride `(e - b) / split`. */
  function Stride(b: int, e: int, split: int): real
    requires split >= 1
  {
    (e - b) as real / split as real
  }

  /** `k` strides. */
  function Strides(k: int, step: real): real
  {
    k as real * step
  }

  /** The start of sub-range `k`, `(int)(b + k * step)` in exact
      arithmetic. */
  function SubBegin(b: int, e: int, split: int, k: int): int
    requires split >= 1
  {
    Trunc(b as real + Strides(k, Stride(b, e, split)))
  }

  /** The sub-ranges visited by the split loop: none for an empty range,
      else `split` of them, each ending where the next begins. */
  function SubRanges(b: int, e: int, split: int): (r: seq<(int, int)>)
    requires split >= 1
    ensures b < e ==> |r| == split
    ensures e <= b ==> r == []
    ensures forall k :: 0 <= k < |r| ==> r[k] == (SubBegin(b, e, split, k), SubBegin(b, e, split, k + 1))
  {
    if b < e then seq(split, k => (SubBegin(b, e, split, k), SubBegin(b, e, split, k + 1))) else []
  }

  lemma StridesStep(k: int, step: real)
    ensures Strides(k + 1, step) == Strides(k, step) + step
  {
  }

  lemma StridesAll(split: int, len: int)
    requires split >= 1
    ensures Strides(split, len as real / split as real) == len as real
  {
  }

  lemma StridesMonotone(k: int, k2: int, step: real)
    requires k <= k2 && step >= 0.0
    ensures Strides(k, step) <= Strides(k2, step)
  {
    assert (k2 - k) as real * step >= 0.0;
  }

  /** The first sub-range starts at `b` and the last one ends at `e`. */
  lemma SubRangesCover(b: int, e: int, split: int)
    requires split >= 1
    ensures SubBegin(b, e, split, 0) == b
    ensures SubBegin(b, e, split, split) == e
  {
    TruncOfInt(b);
    StridesAll(split, e - b);
    TruncOfInt(e);
  }

  /** Sub-range starts never decrease. */
  lemma SubBeginMonotone(b: int, e: int, split: int, k: int, k2: int)
    requires split >= 1 && b <= e && k <= k2
    ensures SubBegin(b, e, split, k) <= SubBegin(b, e, split, k2)
  {
    StridesMonotone(k, k2, Stride(b, e, split));
    TruncMonotone(b as real + Strides(k, Stride(b, e, split)), b as real + Strides(k2, Stride(b, e, split)));
  }

  lemma TruncShift(b: int, y: real)
    requires b >= 0 && y >= 0.0
    ensures Trunc(b as real + y) == b + Trunc(y)
  {
  }

  lemma FloorStep(x: real, step: real)
    requires x >= 0.0 && step >= 0.0
    ensures Trunc(step) <= Trunc(x + step) - Trunc(x) <= Trunc(step) + 1
  {
  }

  /** From a non-negative start, every sub-range has `floor(step)` or
      `floor(step) + 1` samples. */
  lemma SubLength(b: int, e: int, split: int, k: int)
    requires split >= 1 && 0 <= b <= e && 0 <= k
    ensures Trunc(Stride(b, e, split)) <= SubBegin(b, e, split, k + 1) - SubBegin(b, e, split, k)
                                       <= Trunc(Stride(b, e, split)) + 1
  {
    var step := Stride(b, e, split);
    StridesStep(k, step);
    StridesMonotone(0, k, step);
    TruncShift(b, Strides(k, step));
    TruncShift(b, Strides(k + 1, step));
    FloorStep(Strides(k, step), step);
  }

  /** From a non-negative start, the lengths of any two sub-ranges differ
      by at most one. */
  lemma SubLengthsBalanced(b: int, e: int, split: int, k: int, k2: int)
    requires split >= 1 && 0 <= b <= e && 0 <= k && 0 <= k2
    ensures -1 <= (SubBegin(b, e, split, k + 1) - SubBegin(b, e, split, k))
                  - (SubBegin(b, e, split, k2 + 1) - SubBegin(b, e, split, k2)) <= 1
  {
    SubLength(b, e, split, k);
    SubLength(b, e, split, k2);
  }

  lemma StridesReachEnd(b: int, e: int, split: int, k: int)
    requires split >= 1 && b < e && k >= split
    ensures b as real + Strides(k, Stride(b, e, split)) >= e as real
  {
    StridesAll(split, e - b);
    StridesMonotone(split, k, Stride(b, e, split));
  }

  lemma StridesBeforeEnd(b: int, e: int, split: int, k: int)
    requires split >= 1 && b < e && 0 <= k < split
    ensures b as real + Strides(k, Stride(b, e, split)) < e as real
  {
    StridesAll(split, e - b);
    var step := Stride(b, e, split);
    assert step > 0.0;
    assert (split - k) as real * step > 0.0;
    assert Strides(split, step) == Strides(k, step) + (split - k) as real * step;
  }

  /** The split loop, stepping a real index by the stride from `b` while it
      stays below `e`; it yields the start and end of every sub-range. */
  method SplitLoop(b: int, e: int, split: int) returns (ranges: seq<(int, int)>)
    requires split >= 1
    ensures ranges == SubRanges(b, e, split)
  {
    var step := Stride(b, e, split);
    ranges := [];
    var baseIndex := b as real;
    var k := 0;
    assert baseIndex == b as real + Strides(0, step);
    while baseIndex < e as real
      invariant 0 <= k && (b < e ==> k <= split) && (e <= b ==> k == 0)
      invariant baseIndex == b as real + Strides(k, step)
      invariant |ranges| == k
      invariant forall t :: 0 <= t < k ==> ranges[t] == (SubBegin(b, e, split, t), SubBegin(b, e, split, t + 1))
      decreases split - k
    {
      if k >= split {
        StridesReachEnd(b, e, split, k);
      }
      var i := Trunc(baseIndex);
      StridesStep(k, step);
      var j := Trunc(baseIndex + step);
      ranges := ranges + [(i, j)];
      baseIndex := baseIndex + step;
      k := k + 1;
    }
    if b < e && k < split {
      StridesBeforeEnd(b, e, split, k);
    }
  }
}
