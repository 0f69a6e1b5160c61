/** The pulse deconvolution: the transform length and its grow-only
    resize, the buffer handed to the forward transform (smoothed input,
    start taper, decaying padding), the normalisation of the inverse
    transform, and the baseline removal applied to the result.

    The forward transform, the division by the electronics and wire
    responses and the inverse transform are one opaque function
    `transform` from the input buffer to the real part of the inverse
    transform; `exp` and `sqrt` stand for the library functions. */
module PulseDeconvolution {
  import opened Numerics
  import opened Windows
  import opened BaselineRemoval
  import opened ChannelCalib

  // ---------------------------------------------------------------------
  // Transform length.

  /** The transform length for `n` samples, `2*(1+n/2)` with the C++
      division. */
  function TransformSize(n: int): int
  {
    2 * (1 + HalfC(n))
  }

  /** The transform length is the smallest even number above `n`. */
  lemma TransformSizeRounds(n: int)
    requires n >= 0
    ensures TransformSize(n) % 2 == 0
    ensures TransformSize(n) == n + 1 || TransformSize(n) == n + 2
    ensures TransformSize(n) > n
    ensures forall m :: n < m && m % 2 == 0 ==> TransformSize(n) <= m
  {
  }

  // ---------------------------------------------------------------------
  // The input buffer of the forward transform.

  /** A mask taking every sample. */
  function AllOn(n: nat): (m: seq<bool>)
    ensures |m| == n
    ensures forall k :: 0 <= k < n ==> m[k]
  {
    seq(n, _ => true)
  }

  /** The triangular average of the samples within `W - 1` of `i`, with
      weights `W - j`. */
  function SmoothedInput(s: seq<real>, W: int, i: int): real
    requires 0 <= i < |s| && W >= 1
  {
    WindowDenAtLeastCentre(AllOn(|s|), i, W, W);
    WindowNum(s, AllOn(|s|), i, W, W) / WindowDen(AllOn(|s|), i, W, W)
  }

  /** The smoothed input lies between the smallest and the largest sample
      of its window. */
  lemma SmoothedInputBetween(s: seq<real>, W: int, i: int, lo: real, hi: real)
    requires 0 <= i < |s| && W >= 1
    requires forall k :: 0 <= k < |s| && i - W < k < i + W ==> lo <= s[k] <= hi
    ensures lo <= SmoothedInput(s, W, i) <= hi
  {
    var m := AllOn(|s|);
    assert WindowWithin(s, m, i, W, lo, hi);
    WindowDenAtLeastCentre(m, i, W, W);
    WindowAverageBetween(s, m, i, W, lo, hi);
  }

  const TaperScale: real := 10.001

  /** The start taper: samples before index 10.001 are scaled by
      `i / 10.001`. */
  function Taper(i: int, v: real): real
  {
    if (i as real) < TaperScale then Scaled(v, (i as real) / TaperScale) else v
  }

  function Scaled(v: real, f: real): real
  {
    v * f
  }

  /** The taper zeroes index 0, leaves indices from 11 on alone, and moves
      every value towards 0. */
  lemma TaperProperties(i: int, v: real)
    requires i >= 0
    ensures i == 0 ==> Taper(i, v) == 0.0
    ensures i >= 11 ==> Taper(i, v) == v
    ensures 0.0 <= v ==> 0.0 <= Taper(i, v) <= v
    ensures v <= 0.0 ==> v <= Taper(i, v) <= 0.0
  {
    if i <= 10 {
      ScaleDown(v, (i as real) / TaperScale);
    }
  }

  lemma ScaleDown(v: real, f: real)
    requires 0.0 <= f <= 1.0
    ensures f == 0.0 ==> Scaled(v, f) == 0.0
    ensures 0.0 <= v ==> 0.0 <= Scaled(v, f) <= v
    ensures v <= 0.0 ==> v <= Scaled(v, f) <= 0.0
  {
  }

  /** The exponent of the padding decay `d` samples past the last one. */
  function PadExponent(d: int): real
  {
    Square((d as real) / 10.0)
  }

  /** A padding entry: the last buffer value times `exp(-delta)`, cut to 0
      once `delta` reaches 40. */
  function Padding(d: int, edge: real, exp: real -> real): real
  {
    if PadExponent(d) < 40.0 then edge * exp(-PadExponent(d)) else 0.0
  }

  /** The cut of the padding falls between 63 and 64 samples past the last
      one. */
  lemma PaddingCutoff(d: int, edge: real, exp: real -> real)
    requires d >= 0
    ensures d >= 64 ==> Padding(d, edge, exp) == 0.0
    ensures d <= 63 ==> PadExponent(d) < 40.0
  {
    var x := (d as real) / 10.0;
    assert PadExponent(d) == x * x;
    if d >= 64 {
      assert x >= 6.4;
      assert x * x >= 6.4 * x;
    } else {
      assert 0.0 <= x <= 6.3;
      assert x * x <= 6.3 * x;
    }
  }

  /** The buffer handed to the forward transform: the smoothed and tapered
      samples, then the padding decaying from the last of them. */
  function TransformInput(s: seq<real>, size: int, W: int, exp: real -> real): (buf: seq<real>)
    requires 1 <= |s| <= size && W >= 1
    ensures |buf| == size
  {
    var edge := Taper(|s| - 1, SmoothedInput(s, W, |s| - 1));
    seq(size, i requires 0 <= i < size =>
      if i < |s| then Taper(i, SmoothedInput(s, W, i)) else Padding(i - (|s| - 1), edge, exp))
  }

  /** The deconvolved samples: the first `|s|` entries of the inverse
      transform, normalised by the transform length. */
  function Deconvolved(s: seq<real>, size: int, W: int, exp: real -> real,
                       transform: seq<real> -> seq<real>): (d: seq<real>)
    requires 1 <= |s| <= size && W >= 1
    requires |transform(TransformInput(s, size, W, exp))| == size
    ensures |d| == |s|
  {
    var inv := transform(TransformInput(s, size, W, exp));
    seq(|s|, i requires 0 <= i < |s| => inv[i] / size as real)
  }

  /** The cuts the baseline removal derives for samples `s`. */
  function DigitCuts(s: seq<real>, fluctuationCut: real, baselineCut: real, bipolar: bool,
                     sqrtZone: real): Cuts
    requires |s| >= 1
  {
    MakeCuts(Median(s), Spread(s), SampleSigma(s), fluctuationCut, baselineCut, bipolar, sqrtZone)
  }

  /** The baseline removal on the samples once the order statistics are
      known: cuts, estimate, subtraction and baseline sigma. */
  method RemoveFromSamples(s: seq<real>, median: real, spread: real, sampleSigma: real,
                           fluctuationCut: real, baselineCut: real, bipolar: bool,
                           sqrt: real -> real, zone: int, cohCut: int)
    returns (d: seq<real>, baselineSigma: real)
    requires |s| >= 1 && zone >= 0
    requires median == Median(s) && spread == Spread(s) && sampleSigma == SampleSigma(s)
    ensures var b := EstimatedBaseline(s, DigitCuts(s, fluctuationCut, baselineCut, bipolar, sqrt(zone as real)),
                                       zone, cohCut);
            d == Subtracted(s, b) && baselineSigma == BaselineSigma(b, sqrt)
  {
    var cuts := MakeCuts(median, spread, sampleSigma, fluctuationCut, baselineCut, bipolar, sqrt(zone as real));
    assert cuts == DigitCuts(s, fluctuationCut, baselineCut, bipolar, sqrt(zone as real));
    var b := EstimateBaseline(s, cuts, zone, cohCut);
    d, baselineSigma := SubtractBaseline(s, b, sqrt);
  }

  /** Copies `d` into the digit, sample by sample. */
  method CopyInto(digit: array<real>, d: seq<real>)
    requires digit.Length == |d|
    modifies digit
    ensures digit[..] == d
  {
    var i := 0;
    while i < digit.Length
      invariant 0 <= i <= digit.Length
      invariant forall t :: 0 <= t < i ==> digit[t] == d[t]
    {
      digit[i] := d[i];
      i := i + 1;
    }
  }

  // ---------------------------------------------------------------------
  // The deconvolution object.

  class Deconvolver {
    var sampleCount: int
    const smoothingWindow: int
    const fluctuationCut: real
    const baselineCut: real
    const coherenceZone: int
    const coherenceCut: int
    var baselineSigma: real
    var sampleSigma: real

    ghost predicate Valid()
      reads this
    {
      smoothingWindow >= 1 && coherenceZone >= 0
    }

    /** The smoothing parameter is the number of neighbours on each side;
        the window also counts the centre and is at least 1. */
    constructor(count: int, smoothing: int, fluctuationCut: real, baselineCut: real,
                coherenceZone: int, coherenceCut: int)
      requires coherenceZone >= 0
      ensures Valid()
      ensures sampleCount == TransformSize(count)
      ensures smoothingWindow == MaxInt(1, smoothing + 1)
      ensures this.fluctuationCut == fluctuationCut && this.baselineCut == baselineCut
      ensures this.coherenceZone == coherenceZone && this.coherenceCut == coherenceCut
      ensures baselineSigma == 0.0 && sampleSigma == 0.0
    {
      sampleCount := count;
      smoothingWindow := MaxInt(1, smoothing + 1);
      this.fluctuationCut := fluctuationCut;
      this.baselineCut := baselineCut;
      this.coherenceZone := coherenceZone;
      this.coherenceCut := coherenceCut;
      baselineSigma := 0.0;
      sampleSigma := 0.0;
      new;
      Initialize();
    }

    /** Rounds the transform length up and resets the baseline sigma. */
    method Initialize()
      modifies this
      ensures sampleCount == TransformSize(old(sampleCount))
      ensures baselineSigma == 0.0 && sampleSigma == old(sampleSigma)
    {
      sampleCount := 2 * (1 + HalfC(sampleCount));
      baselineSigma := 0.0;
    }

    /** Grows the transform for a pulse of `n` samples when it is too
        short; it never shrinks, and afterwards holds the pulse.  After a
        resize it is strictly longer than the pulse; without one it may be
        exactly as long. */
    method EnsureTransformSize(n: int)
      requires n >= 0
      modifies this
      ensures old(sampleCount) < n ==> sampleCount == TransformSize(n) && baselineSigma == 0.0
      ensures old(sampleCount) >= n ==> sampleCount == old(sampleCount) && baselineSigma == old(baselineSigma)
      ensures sampleSigma == old(sampleSigma)
      ensures sampleCount >= n && sampleCount >= old(sampleCount)
      ensures old(sampleCount) < n ==> sampleCount > n
    {
      if sampleCount < n {
        sampleCount := n;
        Initialize();
        TransformSizeRounds(n);
      }
    }

    /** Fills the buffer of the forward transform for samples `s`. */
    method FillTransformInput(s: seq<real>, exp: real -> real) returns (buf: seq<real>)
      requires 1 <= |s| <= sampleCount && smoothingWindow >= 1
      ensures buf == TransformInput(s, sampleCount, smoothingWindow, exp)
    {
      var n := |s|;
      var m := AllOn(n);
      buf := [];
      var i := 0;
      while i < sampleCount
        invariant 0 <= i <= sampleCount && |buf| == i
        invariant forall t :: 0 <= t < i ==> buf[t] == TransformInput(s, sampleCount, smoothingWindow, exp)[t]
      {
        var val := 0.0;
        if i < n {
          val := InputEntry(s, m, i);
        } else {
          var last := n - 1;
          val := Padding(i - last, buf[last], exp);
        }
        buf := buf + [val];
        i := i + 1;
      }
    }

    /** One smoothed and tapered input sample. */
    method InputEntry(s: seq<real>, m: seq<bool>, i: int) returns (val: real)
      requires 0 <= i < |s| && smoothingWindow >= 1 && m == AllOn(|s|)
      ensures val == Taper(i, SmoothedInput(s, smoothingWindow, i))
    {
      var weight;
      val, weight := WindowSums(s, m, i, smoothingWindow);
      WindowDenAtLeastCentre(m, i, smoothingWindow, smoothingWindow);
      val := val / weight;
      if (i as real) < TaperScale {
        val := Scaled(val, (i as real) / TaperScale);
      }
    }

    /** Removes the estimated baseline from `digit` in place and records
        the baseline and sample sigmas.  The channel classification runs
        after the sample sigma is recorded; when it fails nothing else
        changes. */
    method RemoveBaseline(digit: array<real>, id: ChannelId, sqrt: real -> real) returns (status: Status)
      requires Valid() && digit.Length >= 1
      modifies this, digit
      ensures sampleCount == old(sampleCount)
      ensures sampleSigma == SampleSigma(old(digit[..]))
      ensures IsBipolarSignal(id).Err? ==>
                status == Threw(UnknownChannelType) && digit[..] == old(digit[..])
                && baselineSigma == old(baselineSigma)
      ensures IsBipolarSignal(id).Ok? ==>
                var b := EstimatedBaseline(old(digit[..]), ChannelCuts(old(digit[..]), id, sqrt), coherenceZone, coherenceCut);
                status == Completed
                && digit[..] == Subtracted(old(digit[..]), b)
                && baselineSigma == BaselineSigma(b, sqrt)
    {
      var s := digit[..];
      var median, spread, sigma := OrderStatistics(s);
      sampleSigma := sigma;
      var bipolar := IsBipolarSignal(id);
      if bipolar.Err? {
        return Threw(bipolar.error);
      }
      var d, bs := RemoveFromSamples(s, median, spread, sigma, fluctuationCut, baselineCut, bipolar.value,
                                     sqrt, coherenceZone, coherenceCut);
      CopyInto(digit, d);
      baselineSigma := bs;
      status := Completed;
    }

    /** The cuts the baseline removal derives for a digit on a channel
        whose classification succeeds. */
    function ChannelCuts(s: seq<real>, id: ChannelId, sqrt: real -> real): Cuts
      requires |s| >= 1 && IsBipolarSignal(id).Ok?
      reads this
    {
      DigitCuts(s, fluctuationCut, baselineCut, IsBipolarSignal(id).value, sqrt(coherenceZone as real))
    }

    /** Deconvolves the samples `s` of a calibrated digit: grows the
        transform when needed, calculates the channel's responses, fills
        and transforms the buffer, normalises the result into a new digit
        and removes its baseline.  The responses are computed from the
        channel's calibration constants, which fail for an unknown channel
        type; the failure comes before anything but the resize, and no
        digit is made (`out` is then empty). */
    method Deconvolve(s: seq<real>, id: ChannelId, exp: real -> real, sqrt: real -> real,
                      transform: seq<real> -> seq<real>) returns (status: Status, out: array<real>)
      requires Valid() && |s| >= 1
      requires forall buf :: |transform(buf)| == |buf|
      modifies this
      ensures fresh(out)
      ensures sampleCount >= |s| && sampleCount >= old(sampleCount)
      ensures old(sampleCount) < |s| ==> sampleCount == TransformSize(|s|)
      ensures old(sampleCount) >= |s| ==> sampleCount == old(sampleCount)
      ensures !Known(id) ==>
                status == Threw(UnknownChannelType) && out.Length == 0
                && sampleSigma == old(sampleSigma)
                && baselineSigma == (if old(sampleCount) < |s| then 0.0 else old(baselineSigma))
      ensures Known(id) ==>
                var d := Deconvolved(s, sampleCount, smoothingWindow, exp, transform);
                var b := EstimatedBaseline(d, ChannelCuts(d, id, sqrt), coherenceZone, coherenceCut);
                status == Completed && out[..] == Subtracted(d, b)
                && sampleSigma == SampleSigma(d) && baselineSigma == BaselineSigma(b, sqrt)
    {
      EnsureTransformSize(|s|);
      if !Known(id) {
        out := new real[0];
        status := Threw(UnknownChannelType);
        return;
      }
      var buf := FillTransformInput(s, exp);
      var inv := transform(buf);
      out := new real[|s|];
      var i := 0;
      while i < |s|
        modifies out
        invariant 0 <= i <= |s|
        invariant forall t :: 0 <= t < i ==> out[t] == inv[t] / sampleCount as real
      {
        out[i] := inv[i] / sampleCount as real;
        i := i + 1;
      }
      assert out[..] == Deconvolved(s, sampleCount, smoothingWindow, exp, transform);
      status := RemoveBaseline(out, id, sqrt);
    }
  }
}
