/** The spectrum-based hit finder of one wire.  The deconvolved digit is
    lifted by a positive offset and handed to an external peak search, the
    offset is removed again, and the baseline and noise of the search
    output are read off sorted copies.  A quiet wire stops there.  Peak
    candidates then pass a chain of cuts and a mask of samples already
    claimed by the extent of an earlier accepted peak, up to a cap; the
    accepted peaks are sorted, bounded by their neighbours and by their own
    extent, measured, split into sub-ranges, and each sub-range is offered
    to the external hit maker. */
module WireSpectrum {
  import opened Numerics
  import opened HitRanges
  import opened ChannelCalib

  /** One more peak than this is accepted before the candidate loop stops. */
  const MaxPeaks: int := 50
  /** The extent of a peak ends below this fraction of its height. */
  const IntegrationChargeThreshold: real := 0.001
  /** The smallest offset added to the digit before the peak search. */
  const MinimumOffset: real := 100000.0
  /** A wire whose peak-search noise is below this has no signal. */
  const NoiseFloor: real := 10.0

  /** The cuts of one plane type: minimum peak height, minimum window
      charge, and the expected peak width. */
  datatype PlaneCuts = PlaneCuts(peakMaximum: real, peakArea: real, peakWidth: real)

  // ---------------------------------------------------------------------
  // The lifted spectrum handed to the peak search.

  /** The offset added to the digit: at least 100000 and at least 100 above
      the magnitude of every sample among the first `k`. */
  function SignalOffset(s: seq<real>, k: nat): (r: real)
    requires k <= |s|
    ensures r >= MinimumOffset
  {
    if k == 0 then MinimumOffset else Max(SignalOffset(s, k - 1), Abs(s[k - 1]) + 100.0)
  }

  /** The offset over the first `k` samples is at least 100 above each of
      their absolute values, and is the minimum offset or one of those
      values. */
  lemma {:induction false} SignalOffsetIsLargest(s: seq<real>, k: nat)
    requires k <= |s|
    ensures forall i :: 0 <= i < k ==> SignalOffset(s, k) >= Abs(s[i]) + 100.0
    ensures SignalOffset(s, k) == MinimumOffset || exists i :: 0 <= i < k && SignalOffset(s, k) == Abs(s[i]) + 100.0
  {
    if k > 0 {
      SignalOffsetIsLargest(s, k - 1);
    }
  }

  /** The lifted spectrum; every entry is at least 100, so it is positive
      definite as the peak search requires. */
  function SearchInput(s: seq<real>): (r: seq<real>)
    ensures |r| == |s|
    ensures forall i :: 0 <= i < |r| ==> r[i] >= 100.0
  {
    var offset := SignalOffset(s, |s|);
    SignalOffsetIsLargest(s, |s|);
    seq(|s|, i requires 0 <= i < |s| => s[i] + offset)
  }

  /** The search output with the offset removed again. */
  function Destination(s: seq<real>, search: seq<real> -> SearchResult): (d: seq<real>)
    requires |search(SearchInput(s)).dest| == |s|
    ensures |d| == |s|
  {
    var out := search(SearchInput(s)).dest;
    var offset := SignalOffset(s, |s|);
    seq(|s|, i requires 0 <= i < |s| => out[i] - offset)
  }

  // ---------------------------------------------------------------------
  // Baseline and noise of the search output.

  /** The baseline: the middle entry after sorting all but `skip` entries
      at each end. */
  function BaselineLevel(d: seq<real>, skip: int): real
    requires 1 <= |d| && 0 <= skip && 2 * skip <= |d|
  {
    SortRange(d, skip, |d| - skip)[|d| / 2]
  }

  /** The distance of every entry from `c`. */
  function Deviations(d: seq<real>, c: real): (r: seq<real>)
    ensures |r| == |d|
    ensures forall i :: 0 <= i < |r| ==> r[i] >= 0.0
  {
    seq(|d|, i requires 0 <= i < |d| => Abs(d[i] - c))
  }

  /** The index of the noise, 70% of the way through the sorted middle. */
  function NoiseIndex(n: int, skip: int): (r: int)
    requires 0 <= skip && 2 * skip <= n && 1 <= n
    ensures skip <= r < n && r <= n - skip
  {
    Trunc(skip as real + 0.7 * (n - 2 * skip) as real)
  }

  /** The noise: the 70% point of the sorted deviations from the baseline. */
  function NoiseLevel(d: seq<real>, skip: int): real
    requires 1 <= |d| && 0 <= skip && 2 * skip <= |d|
  {
    SortRange(Deviations(d, BaselineLevel(d, skip)), skip, |d| - skip)[NoiseIndex(|d|, skip)]
  }

  /** The noise is a distance, so never negative. */
  lemma NoiseNonNegative(d: seq<real>, skip: int)
    requires 1 <= |d| && 0 <= skip && 2 * skip <= |d|
    ensures NoiseLevel(d, skip) >= 0.0
  {
    var dev := Deviations(d, BaselineLevel(d, skip));
    var w := SortRange(dev, skip, |d| - skip);
    var k := NoiseIndex(|d|, skip);
    assert NoiseLevel(d, skip) == w[k];
    ElementNonNegative(dev, w, skip, |d| - skip, k);
  }

  /** The noise read from the sorted deviations around a given baseline. */
  lemma NoiseLevelOf(d: seq<real>, skip: int, baseline: real)
    requires 1 <= |d| && 0 <= skip && 2 * skip <= |d|
    requires baseline == SortRange(d, skip, |d| - skip)[|d| / 2]
    ensures NoiseLevel(d, skip) == SortRange(Deviations(d, baseline), skip, |d| - skip)[NoiseIndex(|d|, skip)]
  {
  }

  /** Sorting a range of non-negative values keeps every entry
      non-negative. */
  lemma ElementNonNegative(v: seq<real>, w: seq<real>, lo: int, hi: int, k: int)
    requires 0 <= lo <= hi <= |v| && w == SortRange(v, lo, hi) && 0 <= k < |w|
    requires forall i :: 0 <= i < |v| ==> v[i] >= 0.0
    ensures w[k] >= 0.0
  {
    SortRangePermutes(v, lo, hi);
    if k < lo {
      assert w[k] == w[..lo][k];
    } else if k >= hi {
      assert w[k] == w[hi..][k - hi];
    } else {
      assert w[k] == w[lo..hi][k - lo];
      assert w[k] in multiset(v[lo..hi]);
      var t :| 0 <= t < hi - lo && v[lo..hi][t] == w[k];
      assert v[lo + t] == w[k];
    }
  }

  /** The baseline is one of the entries of the sorted middle of the
      search output. */
  lemma BaselineIsAnEntry(d: seq<real>, skip: int)
    requires 1 <= |d| && 0 <= skip && 2 * skip < |d|
    ensures BaselineLevel(d, skip) in multiset(d[skip..|d| - skip])
  {
    var w := SortRange(d, skip, |d| - skip);
    SortRangePermutes(d, skip, |d| - skip);
    var mid := w[skip..|d| - skip];
    assert skip <= |d| / 2 < |d| - skip;
    assert BaselineLevel(d, skip) == mid[|d| / 2 - skip];
    assert mid[|d| / 2 - skip] in multiset(mid);
  }

  // ---------------------------------------------------------------------
  // Peak candidates.

  /** Everything the candidate filter consults: the digit, the search
      output without its offset, the noise and baseline of that output, the
      cuts, the noise multiplier, the end skip and the window half-width. */
  datatype Scene = Scene(samples: seq<real>, dest: seq<real>, noise: real, baseline: real,
                         cuts: PlaneCuts, noiseCut: real, endSkip: int, range: int)
  {
    predicate Valid()
    {
      |dest| == |samples| && endSkip >= 0
    }
  }

  /** The window half-width `(int)(2 * (width / step + 5))`. */
  function PeakRange(width: real, digitStep: real): int
    requires digitStep != 0.0
  {
    Trunc(2.0 * (width / digitStep + 5.0))
  }

  /** The level the search output must reach at a peak. */
  function NoiseBar(sc: Scene): real
  {
    sc.noise * sc.noiseCut + sc.baseline
  }

  /** The charge of the digit over `[lo, hi)`; reads outside the digit see
      0. */
  function WindowCharge(s: seq<real>, lo: int, hi: int): real
    decreases hi - lo
  {
    if hi <= lo then 0.0 else WindowCharge(s, lo, hi - 1) + SampleAt(s, hi - 1)
  }

  /** The window charge loop. */
  method WindowSum(s: seq<real>, lo: int, hi: int) returns (charge: real)
    ensures charge == WindowCharge(s, lo, hi)
  {
    charge := 0.0;
    var j := lo;
    while j < hi
      invariant lo <= j <= MaxInt(lo, hi)
      invariant charge == WindowCharge(s, lo, j)
      decreases hi - j
    {
      var r := SampleAt(s, j);
      charge := charge + r;
      j := j + 1;
    }
  }

  /** Every cut a candidate must pass, except the claimed mask. */
  predicate Passes(sc: Scene, x: real)
    requires sc.Valid()
  {
    var index := Round(x);
    sc.endSkip <= index && index <= |sc.samples| - sc.endSkip - 1
    && sc.samples[index] >= sc.cuts.peakMaximum
    && sc.dest[index] >= NoiseBar(sc)
    && WindowCharge(sc.samples, index - sc.range, index + sc.range + 1) >= sc.cuts.peakArea
  }

  /** The extent threshold of a peak of height `peak`. */
  function Threshold(peak: real): real
  {
    IntegrationChargeThreshold * peak
  }

  /** The extent `[begin, end)` of the peak at `index`. */
  function Extent(s: seq<real>, index: int): (r: (int, int))
    requires 0 <= index < |s|
    ensures 0 <= r.0 <= index <= r.1 <= |s|
  {
    (ExtentBegin(s, index, Threshold(s[index])), ExtentEnd(s, index, Threshold(s[index])))
  }

  /** The extent of a non-negative peak holds every run of samples around
      it at least as high as any threshold from its own down to the extent
      threshold; in particular the samples at or above the peak height. */
  lemma ExtentWidensBelowPeak(s: seq<real>, index: int, thr: real)
    requires 0 <= index < |s| && s[index] >= 0.0
    requires Threshold(s[index]) <= thr
    ensures Extent(s, index).0 <= ExtentBegin(s, index, thr)
    ensures ExtentEnd(s, index, thr) <= Extent(s, index).1
    ensures Threshold(s[index]) <= s[index]
  {
    ExtentBeginMonotone(s, index, Threshold(s[index]), thr);
    ExtentEndMonotone(s, index, Threshold(s[index]), thr);
  }

  /** Peak positions whose sample index lies inside a digit of `n`
      samples. */
  ghost predicate InDigit(n: int, peaks: seq<real>)
  {
    forall k :: 0 <= k < |peaks| ==> 0 <= Round(peaks[k]) < n
  }

  /** Sample `t` lies in the extent of the peak at position `p`. */
  predicate InExtent(sc: Scene, p: real, t: int)
    requires sc.Valid()
  {
    0 <= Round(p) < |sc.samples| && Extent(sc.samples, Round(p)).0 <= t < Extent(sc.samples, Round(p)).1
  }

  /** Sample `t` lies in the extent of one of `peaks`. */
  ghost predicate Claimed(sc: Scene, peaks: seq<real>, t: int)
    requires sc.Valid()
  {
    exists j :: 0 <= j < |peaks| && InExtent(sc, peaks[j], t)
  }

  function Zeros(n: int): (r: seq<real>)
    requires n >= 0
    ensures |r| == n && forall j :: 0 <= j < n ==> r[j] == 0.0
  {
    seq(n, j => 0.0)
  }

  /** The mask with `[b, e)` set to 1. */
  function Claim(mask: seq<real>, b: int, e: int): (r: seq<real>)
    ensures |r| == |mask|
  {
    seq(|mask|, j requires 0 <= j < |mask| => if b <= j < e then 1.0 else mask[j])
  }

  /** The claimed mask of the candidate loop and the peaks accepted so far. */
  datatype Selection = Selection(mask: seq<real>, peaks: seq<real>)

  /** Accepting candidate `x`: its extent is claimed and it joins the
      accepted peaks. */
  function Accept(sc: Scene, sel: Selection, x: real): (r: Selection)
    requires sc.Valid() && Passes(sc, x)
    ensures |r.mask| == |sel.mask| && r.peaks == sel.peaks + [x]
  {
    var ext := Extent(sc.samples, Round(x));
    Selection(Claim(sel.mask, ext.0, ext.1), sel.peaks + [x])
  }

  /** The candidate loop from candidate `i` on: a candidate is skipped when
      it fails a cut or its sample is claimed; otherwise it is accepted,
      and the loop stops once more than `MaxPeaks` are accepted. */
  function SelectFrom(sc: Scene, cands: seq<real>, i: nat, sel: Selection): (r: Selection)
    requires sc.Valid() && i <= |cands| && |sel.mask| == |sc.samples|
    decreases |cands| - i
    ensures |r.mask| == |sc.samples|
  {
    if i == |cands| then sel
    else if !Passes(sc, cands[i]) || sel.mask[Round(cands[i])] > 0.5 then SelectFrom(sc, cands, i + 1, sel)
    else
      var next := Accept(sc, sel, cands[i]);
      if MaxPeaks > 0 && |next.peaks| > MaxPeaks then next else SelectFrom(sc, cands, i + 1, next)
  }

  /** The candidate loop over all candidates, from a cleared mask. */
  function SelectPeaks(sc: Scene, cands: seq<real>): (r: Selection)
    requires sc.Valid()
    ensures |r.mask| == |sc.samples|
  {
    SelectFrom(sc, cands, 0, Selection(Zeros(|sc.samples|), []))
  }

  /** The mask that the extents of `peaks` leave behind. */
  ghost function MaskOf(sc: Scene, peaks: seq<real>): (m: seq<real>)
    requires sc.Valid() && InDigit(|sc.samples|, peaks)
    ensures |m| == |sc.samples|
  {
    if |peaks| == 0 then Zeros(|sc.samples|)
    else
      var ext := Extent(sc.samples, Round(peaks[|peaks| - 1]));
      Claim(MaskOf(sc, peaks[..|peaks| - 1]), ext.0, ext.1)
  }

  /** The mask is 1 exactly on the claimed samples and 0 elsewhere. */
  lemma {:induction false} MaskMarksExtents(sc: Scene, peaks: seq<real>, t: int)
    requires sc.Valid() && InDigit(|sc.samples|, peaks) && 0 <= t < |sc.samples|
    ensures MaskOf(sc, peaks)[t] == (if Claimed(sc, peaks, t) then 1.0 else 0.0)
  {
    if |peaks| > 0 {
      var init := peaks[..|peaks| - 1];
      var last := peaks[|peaks| - 1];
      var ext := Extent(sc.samples, Round(last));
      MaskMarksExtents(sc, init, t);
      assert MaskOf(sc, peaks)[t] == (if ext.0 <= t < ext.1 then 1.0 else MaskOf(sc, init)[t]);
      assert InExtent(sc, last, t) <==> ext.0 <= t < ext.1;
      if Claimed(sc, init, t) {
        var j :| 0 <= j < |init| && InExtent(sc, init[j], t);
        assert InExtent(sc, peaks[j], t);
      }
      if Claimed(sc, peaks, t) && !InExtent(sc, peaks[|peaks| - 1], t) {
        var j :| 0 <= j < |peaks| && InExtent(sc, peaks[j], t);
        assert j < |peaks| - 1;
        assert InExtent(sc, init[j], t);
      }
    }
  }

  /** What the candidate loop keeps true: every accepted peak passes the
      cuts and was not claimed by an earlier accepted peak's extent, and the
      mask is the one their extents leave behind. */
  ghost predicate Consistent(sc: Scene, sel: Selection)
    requires sc.Valid()
  {
    (forall k :: 0 <= k < |sel.peaks| ==> Passes(sc, sel.peaks[k]))
    && (forall j, k :: 0 <= j < k < |sel.peaks| ==> !InExtent(sc, sel.peaks[j], Round(sel.peaks[k])))
    && InDigit(|sc.samples|, sel.peaks)
    && sel.mask == MaskOf(sc, sel.peaks)
  }

  /** Accepting an unclaimed candidate that passes the cuts keeps the
      selection consistent. */
  lemma AcceptStep(sc: Scene, sel: Selection, x: real)
    requires sc.Valid() && |sel.mask| == |sc.samples| && Consistent(sc, sel)
    requires Passes(sc, x) && !(sel.mask[Round(x)] > 0.5)
    ensures Consistent(sc, Accept(sc, sel, x))
  {
    var next := Accept(sc, sel, x);
    MaskMarksExtents(sc, sel.peaks, Round(x));
    AcceptKeepsApart(sc, sel.peaks, x);
    assert next.peaks[..|next.peaks| - 1] == sel.peaks;
  }

  /** A peak outside the extents of the accepted ones joins them without
      any accepted peak's extent holding a later one. */
  lemma AcceptKeepsApart(sc: Scene, peaks: seq<real>, x: real)
    requires sc.Valid() && !Claimed(sc, peaks, Round(x))
    requires forall j, k :: 0 <= j < k < |peaks| ==> !InExtent(sc, peaks[j], Round(peaks[k]))
    ensures forall j, k :: 0 <= j < k < |peaks + [x]| ==> !InExtent(sc, (peaks + [x])[j], Round((peaks + [x])[k]))
  {
    var next := peaks + [x];
    forall j, k | 0 <= j < k < |next|
      ensures !InExtent(sc, next[j], Round(next[k]))
    {
      if k == |peaks| {
        assert next[j] == peaks[j];
      } else {
        assert next[j] == peaks[j] && next[k] == peaks[k];
      }
    }
  }

  /** A candidate that passes the cuts but is skipped lies in the extent of
      an accepted peak. */
  lemma SkipStep(sc: Scene, sel: Selection, x: real)
    requires sc.Valid() && |sel.mask| == |sc.samples| && Consistent(sc, sel)
    requires Passes(sc, x) && sel.mask[Round(x)] > 0.5
    ensures Claimed(sc, sel.peaks, Round(x))
  {
    MaskMarksExtents(sc, sel.peaks, Round(x));
  }

  /** A sample claimed by some peaks stays claimed when more are added. */
  lemma ClaimedGrows(sc: Scene, p: seq<real>, q: seq<real>, t: int)
    requires sc.Valid() && p <= q && Claimed(sc, p, t)
    ensures Claimed(sc, q, t)
  {
    var j :| 0 <= j < |p| && InExtent(sc, p[j], t);
    assert q[j] == p[j];
  }

  lemma {:induction false} SelectFromConsistent(sc: Scene, cands: seq<real>, i: nat, sel: Selection)
    requires sc.Valid() && i <= |cands| && |sel.mask| == |sc.samples|
    requires Consistent(sc, sel) && |sel.peaks| <= MaxPeaks
    decreases |cands| - i
    ensures Consistent(sc, SelectFrom(sc, cands, i, sel))
    ensures |SelectFrom(sc, cands, i, sel).peaks| <= MaxPeaks + 1
  {
    if i == |cands| {
    } else if !Passes(sc, cands[i]) || sel.mask[Round(cands[i])] > 0.5 {
      SelectFromConsistent(sc, cands, i + 1, sel);
    } else {
      var next := Accept(sc, sel, cands[i]);
      AcceptStep(sc, sel, cands[i]);
      if !(MaxPeaks > 0 && |next.peaks| > MaxPeaks) {
        SelectFromConsistent(sc, cands, i + 1, next);
      }
    }
  }

  /** The loop only appends, and what it appends are candidates from `i`
      on. */
  lemma {:induction false} SelectFromDrawn(sc: Scene, cands: seq<real>, i: nat, sel: Selection)
    requires sc.Valid() && i <= |cands| && |sel.mask| == |sc.samples|
    decreases |cands| - i
    ensures sel.peaks <= SelectFrom(sc, cands, i, sel).peaks
    ensures forall k :: |sel.peaks| <= k < |SelectFrom(sc, cands, i, sel).peaks| ==>
              SelectFrom(sc, cands, i, sel).peaks[k] in cands[i..]
  {
    if i < |cands| {
      assert cands[i..] == [cands[i]] + cands[i + 1..];
      if !Passes(sc, cands[i]) || sel.mask[Round(cands[i])] > 0.5 {
        SelectFromDrawn(sc, cands, i + 1, sel);
      } else {
        var next := Accept(sc, sel, cands[i]);
        if !(MaxPeaks > 0 && |next.peaks| > MaxPeaks) {
          SelectFromDrawn(sc, cands, i + 1, next);
          var r := SelectFrom(sc, cands, i + 1, next);
          forall k | |sel.peaks| <= k < |r.peaks|
            ensures r.peaks[k] in cands[i..]
          {
            if k == |sel.peaks| {
              assert r.peaks[k] == next.peaks[k] == cands[i];
            } else {
              assert r.peaks[k] in cands[i + 1..];
            }
          }
        }
      }
    }
  }

  /** Candidate `x` is accepted or lies in the extent of an accepted
      peak. */
  ghost predicate Covered(sc: Scene, peaks: seq<real>, x: real)
    requires sc.Valid()
  {
    x in peaks || Claimed(sc, peaks, Round(x))
  }

  /** Unless the cap is reached, every candidate from `i` on that passes
      the cuts is accepted or lies in the extent of an accepted peak. */
  lemma {:induction false} SelectFromComplete(sc: Scene, cands: seq<real>, i: nat, sel: Selection)
    requires sc.Valid() && i <= |cands| && |sel.mask| == |sc.samples|
    requires Consistent(sc, sel) && |sel.peaks| <= MaxPeaks
    decreases |cands| - i
    ensures |SelectFrom(sc, cands, i, sel).peaks| <= MaxPeaks ==>
              forall t :: i <= t < |cands| && Passes(sc, cands[t]) ==>
                Covered(sc, SelectFrom(sc, cands, i, sel).peaks, cands[t])
  {
    var r := SelectFrom(sc, cands, i, sel);
    if i < |cands| && |r.peaks| <= MaxPeaks {
      var x := cands[i];
      if !Passes(sc, x) || sel.mask[Round(x)] > 0.5 {
        SkipCovered(sc, cands, i, sel);
      } else {
        AcceptCovered(sc, cands, i, sel);
      }
    }
  }

  /** The step of `SelectFromComplete` that skips candidate `i`. */
  lemma SkipCovered(sc: Scene, cands: seq<real>, i: nat, sel: Selection)
    requires sc.Valid() && i < |cands| && |sel.mask| == |sc.samples|
    requires Consistent(sc, sel) && |sel.peaks| <= MaxPeaks
    requires !Passes(sc, cands[i]) || sel.mask[Round(cands[i])] > 0.5
    requires |SelectFrom(sc, cands, i, sel).peaks| <= MaxPeaks
    decreases |cands| - i, 0
    ensures forall t :: i <= t < |cands| && Passes(sc, cands[t]) ==>
              Covered(sc, SelectFrom(sc, cands, i, sel).peaks, cands[t])
  {
    var x := cands[i];
    var r := SelectFrom(sc, cands, i + 1, sel);
    assert SelectFrom(sc, cands, i, sel) == r;
    SelectFromComplete(sc, cands, i + 1, sel);
    forall t | i <= t < |cands| && Passes(sc, cands[t])
      ensures Covered(sc, r.peaks, cands[t])
    {
      if t == i {
        SelectFromDrawn(sc, cands, i + 1, sel);
        SkipStep(sc, sel, x);
        ClaimedGrows(sc, sel.peaks, r.peaks, Round(x));
      }
    }
  }

  /** The step of `SelectFromComplete` that accepts candidate `i`. */
  lemma AcceptCovered(sc: Scene, cands: seq<real>, i: nat, sel: Selection)
    requires sc.Valid() && i < |cands| && |sel.mask| == |sc.samples|
    requires Consistent(sc, sel) && |sel.peaks| <= MaxPeaks
    requires Passes(sc, cands[i]) && !(sel.mask[Round(cands[i])] > 0.5)
    requires |SelectFrom(sc, cands, i, sel).peaks| <= MaxPeaks
    decreases |cands| - i, 0
    ensures forall t :: i <= t < |cands| && Passes(sc, cands[t]) ==>
              Covered(sc, SelectFrom(sc, cands, i, sel).peaks, cands[t])
  {
    var x := cands[i];
    var next := Accept(sc, sel, x);
    var r := SelectFrom(sc, cands, i + 1, next);
    assert SelectFrom(sc, cands, i, sel) == r;
    AcceptStep(sc, sel, x);
    SelectFromDrawn(sc, cands, i + 1, next);
    SelectFromComplete(sc, cands, i + 1, next);
    forall t | i <= t < |cands| && Passes(sc, cands[t])
      ensures Covered(sc, r.peaks, cands[t])
    {
      if t == i {
        assert r.peaks[|sel.peaks|] == x;
      }
    }
  }

  /** The accepted peaks: at most `MaxPeaks + 1` of them, each one of the
      candidates, passing every cut and outside the extent of every earlier
      accepted peak; unless the cap was reached, every candidate that passes
      the cuts is accepted or lies in the extent of an accepted peak.  The
      mask is the one the accepted extents leave behind. */
  lemma AcceptedPeaks(sc: Scene, cands: seq<real>)
    requires sc.Valid()
    ensures |SelectPeaks(sc, cands).peaks| <= MaxPeaks + 1
    ensures forall k :: 0 <= k < |SelectPeaks(sc, cands).peaks| ==>
              SelectPeaks(sc, cands).peaks[k] in cands && Passes(sc, SelectPeaks(sc, cands).peaks[k])
    ensures forall j, k :: 0 <= j < k < |SelectPeaks(sc, cands).peaks| ==>
              !InExtent(sc, SelectPeaks(sc, cands).peaks[j], Round(SelectPeaks(sc, cands).peaks[k]))
    ensures |SelectPeaks(sc, cands).peaks| <= MaxPeaks ==>
              forall t :: 0 <= t < |cands| && Passes(sc, cands[t]) ==>
                Covered(sc, SelectPeaks(sc, cands).peaks, cands[t])
    ensures InDigit(|sc.samples|, SelectPeaks(sc, cands).peaks)
    ensures SelectPeaks(sc, cands).mask == MaskOf(sc, SelectPeaks(sc, cands).peaks)
  {
    var start := Selection(Zeros(|sc.samples|), []);
    SelectFromConsistent(sc, cands, 0, start);
    SelectFromDrawn(sc, cands, 0, start);
    SelectFromComplete(sc, cands, 0, start);
    assert cands[0..] == cands;
  }

  // ---------------------------------------------------------------------
  // Hits of the sorted peaks.

  /** The integration range of sorted peak `k`: its midpoint bounds clipped
      to its own extent. */
  function IntegrationRange(s: seq<real>, peaks: seq<real>, k: int): (r: (int, int))
    requires 0 <= k < |peaks| && 0 <= Round(peaks[k]) < |s|
    ensures Extent(s, Round(peaks[k])).0 <= r.0 && r.1 <= Extent(s, Round(peaks[k])).1
    ensures MidLower(peaks, k, |peaks|) <= r.0 && r.1 <= MidUpper(peaks, k, |peaks|, |s|)
  {
    var ext := Extent(s, Round(peaks[k]));
    (MaxInt(MidLower(peaks, k, |peaks|), ext.0), MinInt(MidUpper(peaks, k, |peaks|, |s|), ext.1))
  }

  /** The integration ranges of two peaks in time order do not overlap:
      the earlier one ends where the later one may begin at the earliest. */
  lemma IntegrationRangesDisjoint(s: seq<real>, peaks: seq<real>, a: int, b: int)
    requires 0 <= a < |peaks| && 0 <= b < |peaks| && peaks[a] < peaks[b]
    requires 0 <= Round(peaks[a]) < |s| && 0 <= Round(peaks[b]) < |s|
    ensures IntegrationRange(s, peaks, a).1 <= IntegrationRange(s, peaks, b).0
  {
    BoundsDoNotOverlap(peaks, a, b, |s|);
  }

  /** The hits the hit maker returns for the sub-ranges, in order; a null
      hit is skipped. */
  function RangeHits(ranges: seq<(int, int)>, makeHit: (int, int, bool) -> Option<Hit>, split: bool): (r: seq<Hit>)
    ensures |r| <= |ranges|
  {
    if |ranges| == 0 then []
    else
      var last := ranges[|ranges| - 1];
      RangeHits(ranges[..|ranges| - 1], makeHit, split)
      + (match makeHit(last.0, last.1, split) case None => [] case Some(h) => [h])
  }

  /** The sub-ranges of sorted peak `k`: none for an empty integration
      range, otherwise its split by the measured width. */
  function PeakRanges(s: seq<real>, peaks: seq<real>, k: int, digitStep: real, limit: real,
                      sqrt: real -> real): (r: seq<(int, int)>)
    requires 0 <= k < |peaks| && 0 <= Round(peaks[k]) < |s| && limit > 0.0 && digitStep > 0.0
    requires forall x :: x >= 0.0 ==> sqrt(x) >= 0.0
    ensures |r| >= 1 <==> IntegrationRange(s, peaks, k).0 < IntegrationRange(s, peaks, k).1
    ensures |r| >= 1 ==> (r[0].0 == IntegrationRange(s, peaks, k).0
                          && r[|r| - 1].1 == IntegrationRange(s, peaks, k).1)
    ensures forall t :: 0 <= t < |r| - 1 ==> r[t].1 == r[t + 1].0
  {
    var range := IntegrationRange(s, peaks, k);
    if range.0 < range.1 then
      var split := SplitOf(s, range.0, range.1, digitStep, limit, sqrt);
      SubRangesCover(range.0, range.1, split);
      SubRanges(range.0, range.1, split)
    else []
  }

  /** Whether sorted peak `k` is split into more than one sub-range. */
  function PeakIsSplit(s: seq<real>, peaks: seq<real>, k: int, digitStep: real, limit: real,
                       sqrt: real -> real): bool
    requires 0 <= k < |peaks| && 0 <= Round(peaks[k]) < |s| && limit > 0.0 && digitStep > 0.0
    requires forall x :: x >= 0.0 ==> sqrt(x) >= 0.0
  {
    var range := IntegrationRange(s, peaks, k);
    range.0 < range.1 && SplitOf(s, range.0, range.1, digitStep, limit, sqrt) > 1
  }

  /** The hits of sorted peaks `[0, k)`, in order. */
  function AllHits(s: seq<real>, peaks: seq<real>, k: int, digitStep: real, limit: real,
                   sqrt: real -> real, makeHit: (int, int, bool) -> Option<Hit>): seq<Hit>
    requires 0 <= k <= |peaks| && InDigit(|s|, peaks) && limit > 0.0 && digitStep > 0.0
    requires forall x :: x >= 0.0 ==> sqrt(x) >= 0.0
  {
    if k == 0 then []
    else AllHits(s, peaks, k - 1, digitStep, limit, sqrt, makeHit)
         + RangeHits(PeakRanges(s, peaks, k - 1, digitStep, limit, sqrt), makeHit,
                     PeakIsSplit(s, peaks, k - 1, digitStep, limit, sqrt))
  }

  /** Sorting keeps peak positions inside the digit. */
  lemma SortKeepsInDigit(n: int, peaks: seq<real>)
    requires InDigit(n, peaks)
    ensures InDigit(n, Sort(peaks))
  {
    var r := Sort(peaks);
    SortPermutes(peaks);
    forall k | 0 <= k < |r|
      ensures 0 <= Round(r[k]) < n
    {
      assert r[k] in multiset(r);
      assert r[k] in peaks;
    }
  }

  /** What the candidate filter of a wire consults: the digit, the search
      output without its offset, its noise and baseline, and the cuts. */
  function SceneOf(s: seq<real>, cuts: PlaneCuts, digitStep: real, noiseCut: real, endSkip: int,
                   search: seq<real> -> SearchResult): (sc: Scene)
    requires 1 <= |s| && 0 <= endSkip && 2 * endSkip <= |s| && digitStep > 0.0
    requires |search(SearchInput(s)).dest| == |s|
    ensures sc.Valid() && sc.samples == s
  {
    var d := Destination(s, search);
    Scene(s, d, NoiseLevel(d, endSkip), BaselineLevel(d, endSkip), cuts, noiseCut, endSkip,
          PeakRange(cuts.peakWidth, digitStep))
  }

  /** The accepted peaks in ascending position order. */
  function SortedPeaks(sc: Scene, cands: seq<real>): (r: seq<real>)
    requires sc.Valid()
    ensures InDigit(|sc.samples|, r)
    ensures multiset(r) == multiset(SelectPeaks(sc, cands).peaks)
  {
    AcceptedPeaks(sc, cands);
    SortPermutes(SelectPeaks(sc, cands).peaks);
    SortKeepsInDigit(|sc.samples|, SelectPeaks(sc, cands).peaks);
    Sort(SelectPeaks(sc, cands).peaks)
  }

  /** The hits of a wire with plane cuts `cuts`: none on a quiet wire,
      otherwise the hits of the accepted peaks in position order. */
  function WireHits(s: seq<real>, cuts: PlaneCuts, digitStep: real, noiseCut: real, limit: real,
                    endSkip: int, search: seq<real> -> SearchResult, sqrt: real -> real,
                    makeHit: (int, int, bool) -> Option<Hit>): seq<Hit>
    requires 1 <= |s| && 0 <= endSkip && 2 * endSkip <= |s| && digitStep > 0.0 && limit > 0.0
    requires |search(SearchInput(s)).dest| == |s|
    requires forall x :: x >= 0.0 ==> sqrt(x) >= 0.0
  {
    var sc := SceneOf(s, cuts, digitStep, noiseCut, endSkip, search);
    if sc.noise < NoiseFloor then []
    else
      var peaks := SortedPeaks(sc, search(SearchInput(s)).positions);
      AllHits(s, peaks, |peaks|, digitStep, limit, sqrt, makeHit)
  }

  // ---------------------------------------------------------------------
  // The finder.

  class HitFinder {
    var nSource: int
    var source: array<real>
    var dest: array<real>
    var work: array<real>

    const peakMaximumCol: real
    const peakMaximumInd: real
    const peakAreaCol: real
    const peakAreaInd: real
    const peakWidthCol: real
    const peakWidthInd: real
    const noiseThresholdCut: real
    const peakRmsLimit: real
    const digitEndSkip: int

    ghost predicate Valid()
      reads this
    {
      source.Length == nSource && dest.Length == nSource && work.Length == nSource
      && source != dest && source != work && dest != work
      && peakRmsLimit > 0.0 && digitEndSkip >= 0
    }

    /** A finder with no buffers yet and the configured cuts. */
    constructor (peakMaximumCol: real, peakMaximumInd: real, peakAreaCol: real, peakAreaInd: real,
                 peakWidthCol: real, peakWidthInd: real, noiseThresholdCut: real, peakRmsLimit: real,
                 digitEndSkip: int)
      requires peakRmsLimit > 0.0 && digitEndSkip >= 0
      ensures Valid() && nSource == 0
      ensures this.peakMaximumCol == peakMaximumCol && this.peakMaximumInd == peakMaximumInd
      ensures this.peakAreaCol == peakAreaCol && this.peakAreaInd == peakAreaInd
      ensures this.peakWidthCol == peakWidthCol && this.peakWidthInd == peakWidthInd
      ensures this.noiseThresholdCut == noiseThresholdCut && this.peakRmsLimit == peakRmsLimit
      ensures this.digitEndSkip == digitEndSkip
    {
      this.peakMaximumCol := peakMaximumCol;
      this.peakMaximumInd := peakMaximumInd;
      this.peakAreaCol := peakAreaCol;
      this.peakAreaInd := peakAreaInd;
      this.peakWidthCol := peakWidthCol;
      this.peakWidthInd := peakWidthInd;
      this.noiseThresholdCut := noiseThresholdCut;
      this.peakRmsLimit := peakRmsLimit;
      this.digitEndSkip := digitEndSkip;
      nSource := 0;
      var s := new real[0];
      var d := new real[0];
      var w := new real[0];
      source, dest, work := s, d, w;
    }

    /** The cuts of a channel: the induction cuts for a bipolar channel, the
        collection cuts for every other known channel, and the table's
        failure for an unknown one. */
    function CutsFor(id: ChannelId): (r: Result<PlaneCuts>)
      ensures r.Err? <==> !Known(id)
      ensures Known(id) && id.McChannel? && id.mcType == 0 && (id.sequence == 1 || id.sequence == 2) ==>
                r == Ok(PlaneCuts(peakMaximumInd, peakAreaInd, peakWidthInd))
      ensures Known(id) && !(id.McChannel? && id.mcType == 0 && (id.sequence == 1 || id.sequence == 2)) ==>
                r == Ok(PlaneCuts(peakMaximumCol, peakAreaCol, peakWidthCol))
    {
      match IsBipolarSignal(id)
      case Err(e) => Err(e)
      case Ok(bipolar) =>
        if bipolar then Ok(PlaneCuts(peakMaximumInd, peakAreaInd, peakWidthInd))
        else Ok(PlaneCuts(peakMaximumCol, peakAreaCol, peakWidthCol))
    }

    /** Reallocates the three buffers at twice the digit length when they
        are shorter than the digit; they never shrink. */
    method EnsureBuffers(n: int)
      requires Valid() && n >= 0
      modifies this
      ensures Valid()
      ensures nSource >= n && nSource >= old(nSource)
      ensures old(nSource) < n ==> nSource == 2 * n && fresh(source) && fresh(dest) && fresh(work)
      ensures old(nSource) >= n ==> nSource == old(nSource) && source == old(source)
                                    && dest == old(dest) && work == old(work)
    {
      if nSource < n {
        nSource := 2 * n;
        var s := new real[nSource];
        var d := new real[nSource];
        var w := new real[nSource];
        source, dest, work := s, d, w;
      }
    }

    /** The outward walk from a peak to the first samples below the extent
        threshold. */
    method HitExtent(s: seq<real>, peakIndex: int) returns (b: int, e: int)
      requires 0 <= peakIndex < |s|
      ensures (b, e) == Extent(s, peakIndex)
    {
      var peak := s[peakIndex];
      b := peakIndex;
      while b > 0
        invariant 0 <= b <= peakIndex
        invariant ExtentBegin(s, b, Threshold(peak)) == ExtentBegin(s, peakIndex, Threshold(peak))
      {
        var v := s[b];
        if v < Threshold(peak) { break; }
        b := b - 1;
      }
      e := peakIndex;
      while e < |s|
        invariant peakIndex <= e <= |s|
        invariant ExtentEnd(s, e, Threshold(peak)) == ExtentEnd(s, peakIndex, Threshold(peak))
      {
        var v := s[e];
        if v < Threshold(peak) { break; }
        e := e + 1;
      }
    }

    /** Copies the digit into the source buffer, clears the destination and
        lifts the source by the signal offset. */
    method FillSpectrum(s: seq<real>) returns (offset: real)
      requires Valid() && |s| <= nSource
      modifies source, dest
      ensures offset == SignalOffset(s, |s|)
      ensures source[..|s|] == SearchInput(s)
      ensures dest[..|s|] == Zeros(|s|)
    {
      offset := MinimumOffset;
      for i := 0 to |s|
        invariant offset == SignalOffset(s, i)
        invariant forall j :: 0 <= j < i ==> source[j] == s[j] && dest[j] == 0.0
      {
        source[i] := s[i];
        dest[i] := 0.0;
        offset := Max(offset, Abs(source[i]) + 100.0);
      }
      for i := 0 to |s|
        invariant forall j :: 0 <= j < i ==> source[j] == s[j] + offset
        invariant forall j :: i <= j < |s| ==> source[j] == s[j]
        invariant forall j :: 0 <= j < |s| ==> dest[j] == 0.0
      {
        source[i] := source[i] + offset;
      }
    }

    /** The peak search leaves its output in the destination buffer. */
    method StoreSearchOutput(out: seq<real>)
      requires Valid() && |out| <= nSource
      modifies dest
      ensures dest[..|out|] == out
    {
      for i := 0 to |out|
        invariant forall j :: 0 <= j < i ==> dest[j] == out[j]
      {
        dest[i] := out[i];
      }
    }

    /** Removes the signal offset from the first `n` entries of the
        destination buffer. */
    method RemoveOffset(n: int, offset: real)
      requires Valid() && 0 <= n <= nSource
      modifies dest
      ensures forall i :: 0 <= i < n ==> dest[i] == old(dest[i]) - offset
    {
      for i := 0 to n
        invariant forall j :: 0 <= j < i ==> dest[j] == old(dest[j]) - offset
        invariant forall j :: i <= j < n ==> dest[j] == old(dest[j])
      {
        dest[i] := dest[i] - offset;
      }
    }

    /** Sorts `work[lo, hi)` among the first `n` entries. */
    method SortWork(lo: int, hi: int, n: int, ghost before: seq<real>)
      requires Valid() && 0 <= lo <= hi <= n <= nSource && work[..n] == before
      modifies work
      ensures work[..n] == SortRange(before, lo, hi)
    {
      var sorted := SortRange(work[..n], lo, hi);
      for i := 0 to n
        invariant forall j :: 0 <= j < i ==> work[j] == sorted[j]
      {
        work[i] := sorted[i];
      }
    }

    /** Copies the first `n` entries of the destination buffer into the
        work buffer. */
    method CopyToWork(n: int)
      requires Valid() && 0 <= n <= nSource
      modifies work
      ensures work[..n] == dest[..n]
    {
      for i := 0 to n
        invariant forall j :: 0 <= j < i ==> work[j] == dest[j]
      {
        work[i] := dest[i];
      }
    }

    /** Fills the work buffer with the distance of every destination entry
        from `baseline`. */
    method FillDeviations(n: int, baseline: real)
      requires Valid() && 0 <= n <= nSource
      modifies work
      ensures work[..n] == Deviations(dest[..n], baseline)
    {
      for i := 0 to n
        invariant forall j :: 0 <= j < i ==> work[j] == Abs(dest[j] - baseline)
      {
        work[i] := Abs(dest[i] - baseline);
      }
    }

    /** The baseline and the noise of the search output, through sorted
        copies in the work buffer. */
    method MeasureNoise(n: int) returns (baseline: real, noise: real)
      requires Valid() && 1 <= n <= nSource && 2 * digitEndSkip <= n
      modifies work
      ensures baseline == BaselineLevel(dest[..n], digitEndSkip)
      ensures noise == NoiseLevel(dest[..n], digitEndSkip)
    {
      ghost var d := dest[..n];
      assert |d| == n;
      baseline := MeasureBaseline(n);
      assert baseline == BaselineLevel(d, digitEndSkip);
      noise := MeasureDeviation(n, baseline, d);
      NoiseLevelOf(d, digitEndSkip, baseline);
      assert noise == NoiseLevel(d, digitEndSkip);
      assert dest[..n] == d;
    }

    /** The middle of the sorted search output, read from the work buffer. */
    method MeasureBaseline(n: int) returns (baseline: real)
      requires Valid() && 1 <= n <= nSource && 2 * digitEndSkip <= n
      modifies work
      ensures baseline == SortRange(dest[..n], digitEndSkip, n - digitEndSkip)[n / 2]
    {
      CopyToWork(n);
      SortWork(digitEndSkip, n - digitEndSkip, n, dest[..n]);
      baseline := work[n / 2];
      assert baseline == work[..n][n / 2];
    }

    /** The noise index of the sorted deviations from `baseline`, read from
        the work buffer. */
    method MeasureDeviation(n: int, baseline: real, ghost d: seq<real>) returns (noise: real)
      requires Valid() && 1 <= n <= nSource && 2 * digitEndSkip <= n && dest[..n] == d
      modifies work
      ensures noise == SortRange(Deviations(d, baseline), digitEndSkip, n - digitEndSkip)[NoiseIndex(n, digitEndSkip)]
    {
      FillDeviations(n, baseline);
      SortWork(digitEndSkip, n - digitEndSkip, n, Deviations(d, baseline));
      var inoise := Trunc(digitEndSkip as real + 0.7 * (n - 2 * digitEndSkip) as real);
      assert inoise == NoiseIndex(n, digitEndSkip);
      noise := work[inoise];
      assert noise == work[..n][inoise];
    }

    /** Clears the claimed mask over the digit. */
    method ClearMask(n: int)
      requires Valid() && 0 <= n <= nSource
      modifies work
      ensures work[..n] == Zeros(n)
    {
      for i := 0 to n
        invariant forall j :: 0 <= j < i ==> work[j] == 0.0
      {
        work[i] := 0.0;
      }
    }

    /** Marks `[b, e)` as claimed. */
    method MarkExtent(b: int, e: int, n: int)
      requires Valid() && 0 <= b <= e <= n <= nSource
      modifies work
      ensures work[..n] == Claim(old(work[..n]), b, e)
    {
      for j := b to e
        invariant forall t :: 0 <= t < n ==> work[t] == (if b <= t < j then 1.0 else old(work[t]))
      {
        work[j] := 1.0;
      }
    }

    /** One candidate of the candidate loop: when it passes every cut and
        its sample is unclaimed, its extent is marked in the work buffer and
        it is accepted. */
    method Consider(sc: Scene, x: real) returns (accepted: bool)
      requires Valid() && sc.Valid() && |sc.samples| <= nSource
      modifies work
      ensures var n := |sc.samples|;
              accepted == (Passes(sc, x) && !(old(work[..n])[Round(x)] > 0.5))
              && work[..n] == (if accepted then Accept(sc, Selection(old(work[..n]), []), x).mask
                               else old(work[..n]))
    {
      var n := |sc.samples|;
      var index := Round(x);
      accepted := false;
      if sc.endSkip <= index && index <= n - sc.endSkip - 1
         && sc.samples[index] >= sc.cuts.peakMaximum
         && sc.dest[index] >= NoiseBar(sc)
         && work[index] <= 0.5
      {
        var charge := WindowSum(sc.samples, index - sc.range, index + sc.range + 1);
        if charge >= sc.cuts.peakArea {
          var b, e := HitExtent(sc.samples, index);
          MarkExtent(b, e, n);
          accepted := true;
        }
      }
    }

    /** The candidate loop, with the claimed mask kept in the work buffer. */
    method FilterPeaks(sc: Scene, cands: seq<real>) returns (peaks: seq<real>)
      requires Valid() && sc.Valid() && |sc.samples| <= nSource
      modifies work
      ensures peaks == SelectPeaks(sc, cands).peaks
      ensures work[..|sc.samples|] == SelectPeaks(sc, cands).mask
    {
      var n := |sc.samples|;
      ClearMask(n);
      peaks := [];
      ghost var target := SelectPeaks(sc, cands);
      var i := 0;
      while i < |cands|
        invariant 0 <= i <= |cands|
        invariant SelectFrom(sc, cands, i, Selection(work[..n], peaks)) == target
      {
        ghost var sel := Selection(work[..n], peaks);
        var accepted := Consider(sc, cands[i]);
        if accepted {
          peaks := peaks + [cands[i]];
          assert Selection(work[..n], peaks) == Accept(sc, sel, cands[i]);
          if MaxPeaks > 0 && |peaks| > MaxPeaks {
            return;
          }
        }
        i := i + 1;
      }
    }

    /** The integration range of sorted peak `k`, its measured width and
        the sub-ranges it is split into. */
    method SplitPeak(s: seq<real>, peaks: seq<real>, k: int, digitStep: real, sqrt: real -> real)
      returns (ranges: seq<(int, int)>, split: int)
      requires Valid() && InDigit(|s|, peaks) && 0 <= k < |peaks| && digitStep > 0.0
      requires forall x :: x >= 0.0 ==> sqrt(x) >= 0.0
      ensures ranges == PeakRanges(s, peaks, k, digitStep, peakRmsLimit, sqrt)
      ensures (split > 1) == PeakIsSplit(s, peaks, k, digitStep, peakRmsLimit, sqrt)
    {
      var iPeak := Round(peaks[k]);
      var lower, upper := MidBounds(peaks, k, |s|);
      var first, last := HitExtent(s, iPeak);
      var b := if lower < first then first else lower;
      var e := if last < upper then last else upper;
      assert (b, e) == IntegrationRange(s, peaks, k);
      ranges := [];
      split := 1;
      if b < e {
        split := MeasureSplit(s, b, e, digitStep, peakRmsLimit, sqrt);
        ranges := SplitLoop(b, e, split);
      }
    }

    /** Offers every sub-range to the hit maker, appending the hits it
        returns and adding up their charge. */
    method OfferRanges(ranges: seq<(int, int)>, split: bool, makeHit: (int, int, bool) -> Option<Hit>,
                       hits0: seq<Hit>, charge0: real)
      returns (hits: seq<Hit>, wireCharge: real)
      requires charge0 == TotalCharge(hits0)
      ensures hits == hits0 + RangeHits(ranges, makeHit, split)
      ensures wireCharge == TotalCharge(hits)
    {
      hits, wireCharge := hits0, charge0;
      for t := 0 to |ranges|
        invariant hits == hits0 + RangeHits(ranges[..t], makeHit, split)
        invariant wireCharge == TotalCharge(hits)
      {
        assert ranges[..t + 1][..t] == ranges[..t];
        var newHit := makeHit(ranges[t].0, ranges[t].1, split);
        if newHit.Some? {
          wireCharge := wireCharge + newHit.value.charge;
          TotalChargeAppend(hits, [newHit.value]);
          assert TotalCharge([newHit.value]) == newHit.value.charge by {
            assert [newHit.value][..0] == [];
          }
          hits := hits + [newHit.value];
        }
      }
      assert ranges[..|ranges|] == ranges;
    }

    /** The hits of the sorted peaks, each peak bounded by its neighbours
        and its extent, measured, split, and each sub-range offered to the
        hit maker; the wire charge is the charge of the hits kept. */
    method PeakHits(s: seq<real>, peaks: seq<real>, digitStep: real, sqrt: real -> real,
                    makeHit: (int, int, bool) -> Option<Hit>) returns (hits: seq<Hit>, wireCharge: real)
      requires Valid() && InDigit(|s|, peaks) && digitStep > 0.0
      requires forall x :: x >= 0.0 ==> sqrt(x) >= 0.0
      ensures hits == AllHits(s, peaks, |peaks|, digitStep, peakRmsLimit, sqrt, makeHit)
      ensures wireCharge == TotalCharge(hits)
    {
      hits, wireCharge := [], 0.0;
      for k := 0 to |peaks|
        invariant hits == AllHits(s, peaks, k, digitStep, peakRmsLimit, sqrt, makeHit)
        invariant wireCharge == TotalCharge(hits)
      {
        var ranges, split := SplitPeak(s, peaks, k, digitStep, sqrt);
        hits, wireCharge := OfferRanges(ranges, split > 1, makeHit, hits, wireCharge);
      }
    }

    /** Fills the spectrum, runs the peak search on it and leaves its
        output, without the offset, in the destination buffer. */
    method RunSearch(s: seq<real>, search: seq<real> -> SearchResult) returns (out: SearchResult)
      requires Valid() && |s| <= nSource
      requires |search(SearchInput(s)).dest| == |s|
      modifies source, dest
      ensures out == search(SearchInput(s))
      ensures source[..|s|] == SearchInput(s) && dest[..|s|] == Destination(s, search)
    {
      var n := |s|;
      var offset := FillSpectrum(s);
      out := search(source[..n]);
      StoreSearchOutput(out.dest);
      RemoveOffset(n, offset);
      assert dest[..n] == Destination(s, search);
    }

    /** Everything after the classification: the search, the noise
        measurement, the candidate filter and the hits of the accepted
        peaks. */
    method Analyse(s: seq<real>, cuts: PlaneCuts, digitStep: real,
                   search: seq<real> -> SearchResult, sqrt: real -> real,
                   makeHit: (int, int, bool) -> Option<Hit>)
      returns (wireCharge: real, hits: seq<Hit>)
      requires Valid() && 1 <= |s| <= nSource && 2 * digitEndSkip <= |s| && digitStep > 0.0
      requires |search(SearchInput(s)).dest| == |s|
      requires forall x :: x >= 0.0 ==> sqrt(x) >= 0.0
      modifies source, dest, work
      ensures source[..|s|] == SearchInput(s) && dest[..|s|] == Destination(s, search)
      ensures hits == WireHits(s, cuts, digitStep, noiseThresholdCut, peakRmsLimit, digitEndSkip,
                               search, sqrt, makeHit)
      ensures wireCharge == TotalCharge(hits)
    {
      var n := |s|;
      var out := RunSearch(s, search);
      var baseline, noise := MeasureNoise(n);
      ghost var sc0 := SceneOf(s, cuts, digitStep, noiseThresholdCut, digitEndSkip, search);
      assert noise == sc0.noise && baseline == sc0.baseline;
      if noise < NoiseFloor {
        return 0.0, [];
      }
      var sc := Scene(s, dest[..n], noise, baseline, cuts, noiseThresholdCut, digitEndSkip,
                      PeakRange(cuts.peakWidth, digitStep));
      assert sc == sc0;
      var accepted := FilterPeaks(sc, out.positions);
      var peaks := Sort(accepted);
      assert peaks == SortedPeaks(sc, out.positions);
      hits, wireCharge := PeakHits(s, peaks, digitStep, sqrt, makeHit);
    }

    /** One pass over a deconvolved digit `s` sampled from `first` to
        `last`: returns the outcome, the charge of the hits found and the
        hits appended. */
    method Find(s: seq<real>, first: real, last: real, id: ChannelId,
                search: seq<real> -> SearchResult, sqrt: real -> real,
                makeHit: (int, int, bool) -> Option<Hit>)
      returns (status: Status, wireCharge: real, hits: seq<Hit>)
      requires Valid() && 1 <= |s| && 2 * digitEndSkip <= |s| && last > first
      requires |search(SearchInput(s)).dest| == |s|
      requires forall x :: x >= 0.0 ==> sqrt(x) >= 0.0
      modifies this, source, dest, work
      ensures Valid() && nSource >= |s| && nSource >= old(nSource)
      ensures old(nSource) >= |s| ==> nSource == old(nSource)
      ensures old(nSource) < |s| ==> nSource == 2 * |s| && fresh(source) && fresh(dest) && fresh(work)
      ensures status.Threw? <==> !Known(id)
      ensures status.Threw? ==> status.error == UnknownChannelType && hits == [] && wireCharge == 0.0
      ensures status.Threw? && old(nSource) >= |s| ==>
                source == old(source) && dest == old(dest) && work == old(work)
                && unchanged(source) && unchanged(dest) && unchanged(work)
      ensures status.Completed? ==>
                source[..|s|] == SearchInput(s) && dest[..|s|] == Destination(s, search)
      ensures status.Completed? && NoiseLevel(Destination(s, search), digitEndSkip) < NoiseFloor ==>
                hits == [] && wireCharge == 0.0
      ensures status.Completed? ==>
                hits == WireHits(s, CutsFor(id).value, DigitStep(first, last, |s|), noiseThresholdCut,
                                 peakRmsLimit, digitEndSkip, search, sqrt, makeHit)
                && wireCharge == TotalCharge(hits)
    {
      var n := |s|;
      var digitStep := DigitStep(first, last, n);
      EnsureBuffers(n);
      var bipolar := IsBipolarSignal(id);
      if bipolar.Err? {
        return Threw(bipolar.error), 0.0, [];
      }
      var cuts := PlaneCuts(peakMaximumCol, peakAreaCol, peakWidthCol);
      if bipolar.value {
        cuts := PlaneCuts(peakMaximumInd, peakAreaInd, peakWidthInd);
      }
      assert cuts == CutsFor(id).value;
      wireCharge, hits := Analyse(s, cuts, digitStep, search, sqrt, makeHit);
      status := Completed;
    }
  }
}
