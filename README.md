# clusterCalib wire-signal core, modelled in Dafny

This project models the part of the clusterCalib package that turns a calibrated
wire pulse into hits:

- **TChannelCalib** answers per-channel calibration questions: is the signal
  bipolar (an induction wire), and what are the gain, time and digitizer
  constants, the electron lifetime, the drift velocity and the collection
  efficiency. A channel of unknown type throws; here every such answer is a
  `Result` whose error case is `UnknownChannelType`.
- **TPulseDeconvolution** smooths and tapers the pulse into an FFT buffer whose
  size is rounded up to an even number, pads it with a Gaussian tail, and hands
  it to the (opaque) transform and response division. It then removes the
  baseline: order statistics of the samples and their step differences, cuts
  derived from them, forward and backward drift passes, coherence scans, dip
  detection, rejection of short runs, smoothing, gap interpolation, and finally
  subtraction with the baseline sigma.
- **TWireSpectrum** offsets the deconvolved pulse to make it positive, runs the
  peak search (an opaque function), measures the baseline and noise of the
  search output, filters peaks by size, area and noise, masks the extent of
  each accepted peak so that neighbours are not taken twice, and, for every
  sorted peak, bounds the integration range by the midpoints to its
  neighbours and the peak's extent. It then splits wide peaks by their RMS and
  sums the hits' charge.
- **TWireMakeHits** is the older hit finder. It filters peaks by end skip,
  maximum and deconvolution power, and walks down and up from each peak to
  0.1 of its height within the midpoint bounds. It splits the range by the
  same RMS rule and builds each hit from the charge-weighted mean and RMS of
  its samples.

Shared pieces are in their own modules:

- `Numerics`: C++ truncation and rounding, clamped sample reads, and an
  insertion sort that stands for `std::sort`.
- `Windows`: the triangular smoothing window.
- `HitRanges`: midpoint bounds, peak extents, RMS-driven splitting and the
  `double`-stepped sub-range loop.

Each state-changing operation of the source is a method over arrays or
sequences. Each is proved against a specification function. The properties the
code relies on are lemmas about those functions.

## Model

| member | source | states |
|---|---|---|
| ChannelCalib.Index | src/TChannelCalib.cxx:20-29 | A Monte Carlo channel of type 0 indexes by its sequence, type 1 by 3, and any other type is the unknown-channel error. |
| ChannelCalib.IsBipolarSignal | src/TChannelCalib.cxx:19-44 | Fails exactly for unknown channels; true exactly for Monte Carlo type-0 channels with sequence 1 or 2 (the induction planes); data channels are unipolar. |
| ChannelCalib.GainConstant | src/TChannelCalib.cxx:46-84 | Fails exactly for unknown channels; order 0 is the truth pedestal and order 1 the truth gain at the channel's index, other orders 0; data channels give 1 for order 1 and 2048 otherwise. |
| ChannelCalib.TimeConstant | src/TChannelCalib.cxx:86-130 | Fails exactly for unknown channels; order 1 is the truth digitisation step; order 0 is an offset that together with the step makes 23 ns for index 1 and 52 ns for index 2, and 0 otherwise; data channels give 500 ns for order 1. |
| ChannelCalib.DigitizerConstant | src/TChannelCalib.cxx:132-167 | Fails exactly for unknown channels; order 1 is the truth slope at the channel's index, every other order 0; data channels give slope 1. |
| ChannelCalib.ElectronLifetime | src/TChannelCalib.cxx:169-177 | Without argon truth the lifetime defaults to 3.14e8 s; otherwise it is entry 1 of the argon record. |
| ChannelCalib.ElectronDriftVelocity | src/TChannelCalib.cxx:179-187 | Without argon truth the velocity times a microsecond is 1.6 mm; otherwise it is entry 0 of the argon record. |
| ChannelCalib.CollectionEfficiency | src/TChannelCalib.cxx:189-229 | Fails exactly for unknown channels; sequences 0, 1 and 2 of type 0 give the X, V and U efficiencies, and every other known channel gives exactly 1. |
| ChannelCalib.UnknownTypeFailsEverywhere | src/TChannelCalib.cxx:26-29 | A Monte Carlo channel whose type is neither 0 nor 1 makes every calibration query fail with the unknown-channel error. |
| Numerics.Trunc | src/TWireMakeHits.cxx:248 | The integer conversion truncates towards zero: it is the floor for non-negative values and the ceiling for negative ones. |
| Numerics.HalfC | src/TPulseDeconvolution.cxx:47 | Integer halving truncates towards zero for both signs. |
| Numerics.SampleAt | src/TWireMakeHits.cxx:211-212 | A read inside the digit returns the sample; a read outside it returns 0. |
| Numerics.InsertPermutes | src/TWireMakeHits.cxx:173 | Inserting a value into a list adds exactly that value to its multiset. |
| Numerics.SortPermutes | src/TWireMakeHits.cxx:173 | Sorting keeps the multiset of values. |
| Numerics.SortSorted | src/TWireMakeHits.cxx:173 | The sort's result is in ascending order. |
| Numerics.SortRangePermutes | src/TWireSpectrum.cxx:212-213 | Sorting a sub-range permutes only that sub-range and leaves both ends unchanged. |
| PulseDeconvolution.TransformSizeRounds | src/TPulseDeconvolution.cxx:46-47 | The transform size is the smallest even number strictly greater than the requested count. |
| PulseDeconvolution.Deconvolver.constructor | src/TPulseDeconvolution.cxx:18-42 | The smoothing window is at least one more than the parameter and at least 1, the size is rounded by Initialize, and both sigmas start at 0. |
| PulseDeconvolution.Deconvolver.Initialize | src/TPulseDeconvolution.cxx:46-74 | The size is rounded to the next even number above it and the baseline sigma is reset. |
| PulseDeconvolution.Deconvolver.EnsureTransformSize | src/TPulseDeconvolution.cxx:81-86 | A pulse longer than the buffer grows it to the rounded pulse length (strictly larger than the pulse) and resets the baseline sigma; otherwise nothing changes. |
| Windows.WindowSums | src/TPulseDeconvolution.cxx:105-122 | The loop computes the triangular-window numerator and weight over the in-range neighbours (centre counted once). |
| Windows.WindowAverageBetween | src/TPulseDeconvolution.cxx:123 | The window average lies between any bounds that hold for every sample in the window. |
| Windows.WindowDenAtLeastCentre | src/TPulseDeconvolution.cxx:109-112 | The centre alone contributes weight W, so the divisor is never zero. |
| PulseDeconvolution.SmoothedInputBetween | src/TPulseDeconvolution.cxx:103-123 | Each smoothed input lies between any bounds that hold on the samples within the window. |
| PulseDeconvolution.TaperProperties | src/TPulseDeconvolution.cxx:127-128 | The start taper zeroes sample 0, leaves samples from 11 on unchanged, and only shrinks a value towards zero. |
| PulseDeconvolution.PaddingCutoff | src/TPulseDeconvolution.cxx:131-140 | The Gaussian tail is cut to exactly 0 from 64 samples past the end, and its exponent is below 40 before that. |
| PulseDeconvolution.Deconvolver.InputEntry | src/TPulseDeconvolution.cxx:102-129 | Each in-pulse buffer entry is the tapered triangular average of the pulse. |
| PulseDeconvolution.Deconvolver.FillTransformInput | src/TPulseDeconvolution.cxx:96-141 | The whole FFT buffer equals the specification: tapered smoothed samples, then the decaying tail. |
| PulseDeconvolution.Deconvolver.Deconvolve | src/TPulseDeconvolution.cxx:76-164 | The transform size becomes TransformSize(n) when the pulse is longer than before and is unchanged otherwise. An unknown channel fails at the response calculation, right after the resize: it reports the error, makes no digit, leaves the sample sigma alone and the baseline sigma as the resize left it. Otherwise the result has the pulse's length, equals the transform output minus its estimated baseline, and both sigmas are set from it. |
| PulseDeconvolution.Deconvolver.RemoveBaseline | src/TPulseDeconvolution.cxx:166-485 | The digit becomes samples minus the estimated baseline and the sigmas are set; an unknown channel throws after the sample sigma is set and leaves the digit unchanged. |
| PulseDeconvolution.RemoveFromSamples | src/TPulseDeconvolution.cxx:208-483 | From the order statistics, the samples minus the estimated baseline and the baseline sigma are computed. |
| PulseDeconvolution.CopyInto | src/TPulseDeconvolution.cxx:474 | The digit holds exactly the computed samples. |
| BaselineRemoval.PercentileIndex | src/TPulseDeconvolution.cxx:189-190 | Indexing by a fraction of the count truncates to a valid index k with k <= p*n < k+1. |
| BaselineRemoval.MedianInput | src/TPulseDeconvolution.cxx:184-186 | The buffer to be sorted holds every sample but the first, whose slot keeps its zero. |
| BaselineRemoval.StepDiffs | src/TPulseDeconvolution.cxx:195-198 | Entry t is the absolute step from sample t-1 to t, and entry 0 is 0. |
| BaselineRemoval.Spread | src/TPulseDeconvolution.cxx:190-191 | The baseline spread is never negative. |
| BaselineRemoval.OrderStatistics | src/TPulseDeconvolution.cxx:184-204 | The loops compute the median, the 16th-percentile spread and the 52nd-percentile step size. |
| BaselineRemoval.FillMedianInput | src/TPulseDeconvolution.cxx:184-186 | The loop fills the median input buffer. |
| BaselineRemoval.FillStepDiffs | src/TPulseDeconvolution.cxx:225-229 | The loop fills the step-difference buffer. |
| BaselineRemoval.OverwriteStepDiffs | src/TPulseDeconvolution.cxx:195-198 | Reusing the sorted buffer keeps its slot 0 and overwrites the rest with the step differences. |
| BaselineRemoval.MedianIsEntry | src/TPulseDeconvolution.cxx:187-191 | The median is one of the buffered values, and the spread is its distance to the 16th-percentile entry. |
| BaselineRemoval.NegativeAtMostOnce | src/TPulseDeconvolution.cxx:195-199 | Among the step differences only the untouched first slot can hold a negative value, so such a value appears at most once. |
| BaselineRemoval.SampleSigmaNonneg | src/TPulseDeconvolution.cxx:199-204 | The sample sigma, read from the sorted differences, is never negative. |
| BaselineRemoval.MakeCuts | src/TPulseDeconvolution.cxx:208-222 | The step cut is sigma times the fluctuation cut, the level cut is median plus the baseline cut times the spread, and the drift cut carries the square root of the coherence zone only for bipolar channels. |
| BaselineRemoval.MaxDev | src/TPulseDeconvolution.cxx:258-263 | The maximum deviation from sample i over a range bounds every deviation in it and is attained by one of them (0 on an empty range). |
| BaselineRemoval.ZoneDeviation | src/TPulseDeconvolution.cxx:258-263 | The inner loop computes the largest deviation of sample i from the samples of the zone. |
| BaselineRemoval.ForwardDriftPass | src/TPulseDeconvolution.cxx:252-265 | Entry i is the largest deviation from sample i over the preceding coherence zone. |
| BaselineRemoval.BackwardDriftPass | src/TPulseDeconvolution.cxx:267-278 | Entry i becomes the larger of the forward drift and the deviation over the following zone, with entry 0 untouched. |
| BaselineRemoval.DriftProperties | src/TPulseDeconvolution.cxx:252-278 | The final drift is at least the forward drift, which is non-negative, bounds every backward deviation and is attained by one; sample 0 has no drift. |
| BaselineRemoval.CountBelow | src/TPulseDeconvolution.cxx:303-304 | The coherence count is between 0 and the window length, and 0 for an empty window. |
| BaselineRemoval.SlideCount | src/TPulseDeconvolution.cxx:303-304 | Sliding the window by one adds the entering sample and removes the leaving one, which is what the running counter does. |
| BaselineRemoval.ForwardUpToStep | src/TPulseDeconvolution.cxx:308-330 | A forward step marks its own index inside the leading zone, otherwise the index half a zone back when the step passes all three cuts, and nothing else. |
| BaselineRemoval.ForwardStep | src/TPulseDeconvolution.cxx:308-330 | One forward step turns the baseline after steps 0..i-1 into the baseline after steps 0..i. |
| BaselineRemoval.ForwardScan | src/TPulseDeconvolution.cxx:294-331 | Each baseline entry is the sample where the forward scan sets it and 0 elsewhere. |
| BaselineRemoval.BackwardFromStep | src/TPulseDeconvolution.cxx:335-372 | One backward step sets an entry exactly when it is inside the trailing zone or the step passes every cut at its offset. |
| BaselineRemoval.BackwardStep | src/TPulseDeconvolution.cxx:350-372 | One backward step turns the baseline after steps n-1..i+1 into the baseline after steps n-1..i. |
| BaselineRemoval.BackwardScan | src/TPulseDeconvolution.cxx:333-374 | After both scans the baseline equals its specification. |
| BaselineRemoval.ScannedBaseline | src/TPulseDeconvolution.cxx:294-374 | Every scanned entry is either 0 or its own sample, and both ends of the digit within one zone are always taken. |
| BaselineRemoval.WalkLeft | src/TPulseDeconvolution.cxx:387-388 | The left walk stops at the nearest non-empty entry or at 0, and every entry it crossed is empty. |
| BaselineRemoval.WalkRight | src/TPulseDeconvolution.cxx:389-390 | The right walk stops at the nearest non-empty entry or at the end, and every entry it crossed is empty. |
| BaselineRemoval.FindLeft | src/TPulseDeconvolution.cxx:387-388 | The loop finds the left end of a gap. |
| BaselineRemoval.FindRight | src/TPulseDeconvolution.cxx:389-390 | The loop finds the right end of a gap. |
| BaselineRemoval.BlendBetween | src/TPulseDeconvolution.cxx:391-392 | The linear interpolation between two gap ends lies between any bounds both ends satisfy. |
| BaselineRemoval.DipAt | src/TPulseDeconvolution.cxx:384-394 | A dip entry is either 0 or the sample itself, and it is non-zero only where the baseline is empty. |
| BaselineRemoval.DipPass | src/TPulseDeconvolution.cxx:384-394 | The loop computes every dip entry. |
| BaselineRemoval.RunEnd | src/TPulseDeconvolution.cxx:400-401 | The run scan stops at the first empty entry or the end, and every entry before that is live. |
| BaselineRemoval.ZeroRange | src/TPulseDeconvolution.cxx:403 | Exactly the entries of the given range are cleared. |
| BaselineRemoval.ZeroRun | src/TPulseDeconvolution.cxx:403 | The clearing loop sets exactly the entries of the run to 0. |
| BaselineRemoval.RejectShortRuns | src/TPulseDeconvolution.cxx:398-406 | The loop, which jumps to the end of each run, computes the run rejection. |
| BaselineRemoval.RejectStepRuns | src/TPulseDeconvolution.cxx:402-405 | One rejection step leaves no run shorter than 3 up to the scanned position. |
| BaselineRemoval.RejectedRunsAreLong | src/TPulseDeconvolution.cxx:398-406 | After rejection every maximal run of live entries has length at least 3. |
| BaselineRemoval.LiveMask | src/TPulseDeconvolution.cxx:422-431 | The mask marks exactly the live baseline entries. |
| BaselineRemoval.SmoothPass | src/TPulseDeconvolution.cxx:411-438 | The loop computes the masked triangular smoothing of every entry. |
| BaselineRemoval.SmoothEntry | src/TPulseDeconvolution.cxx:413-437 | One entry of the smoothing equals its specification. |
| BaselineRemoval.SmoothedBetween | src/TPulseDeconvolution.cxx:411-438 | Empty entries stay 0, and a live entry's smoothed value lies between any bounds that hold on the live entries of its window. |
| BaselineRemoval.InterpPass | src/TPulseDeconvolution.cxx:442-451 | The loop fills the gaps of the baseline in order. |
| BaselineRemoval.WalkRightAgree | src/TPulseDeconvolution.cxx:446-447 | The right walk looks only at entries from its start on, which the in-place fill has not yet changed. |
| BaselineRemoval.FilledFrom | src/TPulseDeconvolution.cxx:442-451 | The fill started at position p completes the invariant over the whole baseline. |
| BaselineRemoval.InterpFillsGaps | src/TPulseDeconvolution.cxx:442-451 | Non-empty baseline entries are kept, and each filled entry lies between the values at the two ends of its original gap. |
| BaselineRemoval.SumsOfConstant | src/TPulseDeconvolution.cxx:470-472 | Over a constant baseline the running sums are the count times the value and the count times its square. |
| BaselineRemoval.ConstantBaselineSigma | src/TPulseDeconvolution.cxx:468-483 | A constant baseline has sigma 0. |
| BaselineRemoval.SmoothingKeepsLevel | src/TPulseDeconvolution.cxx:411-438 | Smoothing a baseline whose set entries all hold one live level changes nothing. |
| BaselineRemoval.InterpolationFillsLevel | src/TPulseDeconvolution.cxx:442-451 | Interpolating such a baseline with both ends set fills every gap with the level. |
| BaselineRemoval.FlatDigitIsBaseline | src/TPulseDeconvolution.cxx:245-483 | For a flat digit at a live level and a zone of at least 1, whatever the cuts, the estimated baseline is the digit itself, subtracting it leaves zeros, and the baseline sigma is 0. |
| BaselineRemoval.SubtractBaseline | src/TPulseDeconvolution.cxx:468-483 | The loop computes the subtracted samples and the baseline sigma. |
| BaselineRemoval.ScanOf | src/TPulseDeconvolution.cxx:294-374 | The samples, cuts and coherence parameters form a valid scan input. |
| BaselineRemoval.EstimateBaseline | src/TPulseDeconvolution.cxx:245-451 | The whole chain of passes computes the estimated baseline. |
| HitRanges.DigitStep | src/TWireSpectrum.cxx:112-113 | The time per sample is non-negative when the last sample time is not before the first, and positive when it is after. |
| HitRanges.TotalChargeAppend | src/TWireSpectrum.cxx:488 | The accumulated wire charge over two hit lists is the sum of the two totals. |
| HitRanges.ExtentBegin | src/TWireSpectrum.cxx:88-93 | The downward walk stops at index 0 or at the first sample below the threshold, and everything above it is at least the threshold. |
| HitRanges.ExtentEnd | src/TWireSpectrum.cxx:94-99 | The upward walk stops at the end or at the first sample below the threshold, and everything before it is at least the threshold. |
| HitRanges.ExtentBeginMonotone | src/TWireSpectrum.cxx:88-93 | A lower threshold never moves the beginning of the extent up. |
| HitRanges.ExtentEndMonotone | src/TWireSpectrum.cxx:94-99 | A lower threshold never moves the end of the extent down. |
| HitRanges.MidLowerIsLargest | src/TWireSpectrum.cxx:403-416 | The lower bound is the largest truncated midpoint to an earlier peak, or 0 when there is none. |
| HitRanges.MidUpperIsSmallest | src/TWireSpectrum.cxx:403-416 | The upper bound is the smallest truncated midpoint to a peak not earlier, or the sample count when there is none. |
| HitRanges.MidBounds | src/TWireMakeHits.cxx:193-206 | The loop over the other peaks computes both midpoint bounds. |
| HitRanges.BoundsDoNotOverlap | src/TWireSpectrum.cxx:403-416 | For two peaks in time order, the earlier peak's upper bound never passes the later peak's lower bound. |
| HitRanges.AdjacentBoundsAbut | src/TWireSpectrum.cxx:403-416 | For sorted distinct peaks inside the digit, the upper midpoint bound of a peak and the lower midpoint bound of the next one are both their truncated midpoint. |
| HitRanges.FlooredChargeAtLeast | src/TWireSpectrum.cxx:433-436 | With each sample floored at 0.1, the RMS charge is at least 0.1 per sample, so the division is safe for non-empty ranges. |
| HitRanges.WidthMoments | src/TWireSpectrum.cxx:427-440 | The loop computes the floored charge and first and second moments. |
| HitRanges.SplitAtLeastOne | src/TWireSpectrum.cxx:447 | The split count is at least 1, and exactly 1 when the RMS is below the limit. |
| HitRanges.SplitOf | src/TWireSpectrum.cxx:441-447 | The split derived from the raw RMS of a non-empty range is at least 1. The only assumption on the square root is that it is non-negative on non-negative arguments, since the argument is at least 1. |
| HitRanges.SpreadAboutNonNegative | src/TWireSpectrum.cxx:427-440 | The charge-weighted squared distance of the floored samples from any point is non-negative. |
| HitRanges.WeightedVarianceNonNegative | src/TWireSpectrum.cxx:427-440 | The floored moments satisfy `timeSquared * charge >= time * time`, so the weighted variance is non-negative. |
| HitRanges.MeanSquareAtLeastSquaredMean | src/TWireSpectrum.cxx:440-444 | After dividing by a positive charge, the mean square is at least the squared mean. |
| HitRanges.SpreadArgumentAtLeastOne | src/TWireSpectrum.cxx:427-445 | On a non-empty range the charge is positive and the argument of the square root in the raw RMS is at least 1. |
| HitRanges.MeasureSplit | src/TWireMakeHits.cxx:224-249 | Measuring the moments and dividing gives the specified split. |
| HitRanges.SubRanges | src/TWireSpectrum.cxx:477-481 | A non-empty range yields exactly split sub-ranges, each between consecutive truncated stride points; an empty range yields none. |
| HitRanges.SubRangesCover | src/TWireSpectrum.cxx:477-481 | The first sub-range starts at the range's begin and the last ends at its end. |
| HitRanges.SubBeginMonotone | src/TWireSpectrum.cxx:477-481 | Sub-range boundaries never decrease. |
| HitRanges.SubLength | src/TWireSpectrum.cxx:474-481 | Each sub-range is the truncated stride long or one longer, so the remainder is spread over the range. |
| HitRanges.SubLengthsBalanced | src/TWireSpectrum.cxx:474-481 | Any two sub-ranges differ in length by at most one. |
| HitRanges.StridesBeforeEnd | src/TWireSpectrum.cxx:477-479 | The first split stride points are strictly before the end, so the loop runs at least split times. |
| HitRanges.StridesReachEnd | src/TWireSpectrum.cxx:477-479 | From split strides on, the stride point is at or past the end, so the loop stops after split iterations. |
| HitRanges.SplitLoop | src/TWireMakeHits.cxx:254-261 | The `double`-stepped loop produces exactly the specified sub-ranges. |
| WireSpectrum.SignalOffset | src/TWireSpectrum.cxx:167-177 | The offset is never below its starting value of 100000. |
| WireSpectrum.SignalOffsetIsLargest | src/TWireSpectrum.cxx:167-177 | The offset is at least 100 above every absolute sample, and is either 100000 or one of those values. |
| WireSpectrum.SearchInput | src/TWireSpectrum.cxx:181-183 | Every search input is at least 100, which is what the peak search needs. |
| WireSpectrum.Deviations | src/TWireSpectrum.cxx:217-219 | The deviations from the baseline are non-negative. |
| WireSpectrum.NoiseIndex | src/TWireSpectrum.cxx:222 | The noise index lies within the sorted middle of the digit. |
| WireSpectrum.NoiseNonNegative | src/TWireSpectrum.cxx:217-225 | The noise level is never negative. |
| WireSpectrum.ElementNonNegative | src/TWireSpectrum.cxx:220-225 | Sorting part of non-negative deviations keeps every entry non-negative. |
| WireSpectrum.BaselineIsAnEntry | src/TWireSpectrum.cxx:208-214 | The baseline is one of the search outputs between the skipped ends. |
| WireSpectrum.WindowSum | src/TWireSpectrum.cxx:316-321 | The loop computes the charge in the window around a peak. |
| WireSpectrum.Extent | src/TWireSpectrum.cxx:83-101 | The extent of a peak is a range of the digit containing the peak. |
| WireSpectrum.ExtentWidensBelowPeak | src/TWireSpectrum.cxx:83-101 | For a non-negative peak the extent threshold (0.001 of the peak) is at most the peak, and the extent contains the extent at any higher threshold, including the peak's own height. |
| WireSpectrum.Accept | src/TWireSpectrum.cxx:324-331 | Accepting a peak appends it and keeps the mask's length. |
| WireSpectrum.MaskMarksExtents | src/TWireSpectrum.cxx:324-330 | The mask marks exactly the samples inside the extent of some accepted peak. |
| WireSpectrum.AcceptStep | src/TWireSpectrum.cxx:314-331 | Accepting an unmasked peak keeps the selection consistent. |
| WireSpectrum.SkipStep | src/TWireSpectrum.cxx:314 | A masked peak is skipped because it lies inside an accepted peak's extent. |
| WireSpectrum.SelectFromConsistent | src/TWireSpectrum.cxx:302-333 | The filter loop keeps the selection consistent and stops after at most MaxPeaks + 1 peaks. |
| WireSpectrum.SelectFromDrawn | src/TWireSpectrum.cxx:302-333 | The selection only appends, and only candidates from the remaining input. |
| WireSpectrum.SelectFromComplete | src/TWireSpectrum.cxx:302-333 | Unless the cap stopped the loop, every remaining candidate that passes the cuts is either selected or inside a selected extent. |
| WireSpectrum.AcceptedPeaks | src/TWireSpectrum.cxx:296-333 | The selected peaks are candidates that pass every cut, number at most 51, are inside the digit, and none lies in an earlier peak's extent; without the cap, every passing candidate is selected or masked; the mask is their extents. |
| WireSpectrum.IntegrationRange | src/TWireSpectrum.cxx:395-425 | A peak's integration range lies within its extent and within its midpoint bounds. |
| WireSpectrum.IntegrationRangesDisjoint | src/TWireSpectrum.cxx:395-425 | The integration ranges of two peaks in time order do not overlap: the earlier one ends at or before the later one begins. |
| WireSpectrum.PeakRanges | src/TWireSpectrum.cxx:447-481 | The sub-ranges are chained end to start, run from the integration range's begin to its end, and are empty exactly when that range is empty. |
| WireSpectrum.SortKeepsInDigit | src/TWireSpectrum.cxx:384 | Sorting the peaks keeps them all inside the digit. |
| WireSpectrum.SceneOf | src/TWireSpectrum.cxx:126-136 | The plane's cuts, step, noise and search output make a valid filtering scene over the pulse. |
| WireSpectrum.SortedPeaks | src/TWireSpectrum.cxx:384 | The sorted peaks are the selected peaks, permuted, all inside the digit. |
| WireSpectrum.HitFinder.constructor | src/TWireSpectrum.cxx:26-76 | The finder starts without buffers and holds the plane cuts, noise cut, RMS limit and end skip. |
| WireSpectrum.HitFinder.CutsFor | src/TWireSpectrum.cxx:126-136 | Induction channels use the induction cuts, other known channels the collection cuts, and unknown channels fail. |
| WireSpectrum.HitFinder.EnsureBuffers | src/TWireSpectrum.cxx:115-124 | A longer pulse reallocates all three buffers at twice its length; otherwise they are kept. |
| WireSpectrum.HitFinder.HitExtent | src/TWireSpectrum.cxx:83-101 | The two loops compute the peak's extent. |
| WireSpectrum.HitFinder.FillSpectrum | src/TWireSpectrum.cxx:166-183 | The source holds the offset pulse, the destination zeros, and the offset is returned. |
| WireSpectrum.HitFinder.StoreSearchOutput | src/TWireSpectrum.cxx:198-201 | The destination holds the search output. |
| WireSpectrum.HitFinder.RemoveOffset | src/TWireSpectrum.cxx:203-206 | The offset is subtracted from every destination entry. |
| WireSpectrum.HitFinder.CopyToWork | src/TWireSpectrum.cxx:208-211 | The work buffer holds a copy of the destination. |
| WireSpectrum.HitFinder.SortWork | src/TWireSpectrum.cxx:212-213 | The work buffer's middle is sorted in place. |
| WireSpectrum.HitFinder.FillDeviations | src/TWireSpectrum.cxx:217-219 | The work buffer holds the deviations from the baseline. |
| WireSpectrum.HitFinder.MeasureBaseline | src/TWireSpectrum.cxx:208-214 | The baseline is the middle entry of the search output sorted between the end skips. |
| WireSpectrum.HitFinder.MeasureDeviation | src/TWireSpectrum.cxx:217-225 | The noise is the 70th-percentile entry of the deviations from the baseline, sorted between the end skips. |
| WireSpectrum.HitFinder.MeasureNoise | src/TWireSpectrum.cxx:208-225 | The buffer passes compute the specified baseline and noise. |
| WireSpectrum.HitFinder.ClearMask | src/TWireSpectrum.cxx:296 | The mask is cleared. |
| WireSpectrum.HitFinder.MarkExtent | src/TWireSpectrum.cxx:328-330 | The mask is set over the extent. |
| WireSpectrum.HitFinder.Consider | src/TWireSpectrum.cxx:304-331 | A candidate is accepted exactly when it passes the cuts and is unmasked, and then its extent is marked. |
| WireSpectrum.HitFinder.FilterPeaks | src/TWireSpectrum.cxx:296-333 | The loop selects the specified peaks and leaves the specified mask. |
| WireSpectrum.HitFinder.SplitPeak | src/TWireSpectrum.cxx:395-448 | The sub-ranges and the split flag of one peak equal their specification. |
| WireSpectrum.HitFinder.OfferRanges | src/TWireSpectrum.cxx:477-490 | Each sub-range is offered to the hit maker; accepted hits are appended and the wire charge stays the total charge. |
| WireSpectrum.HitFinder.PeakHits | src/TWireSpectrum.cxx:393-491 | The loop over peaks produces the specified hits, and the wire charge is their total charge. |
| WireSpectrum.HitFinder.RunSearch | src/TWireSpectrum.cxx:166-206 | The buffers hold the search input and the offset-corrected search output. |
| WireSpectrum.HitFinder.Analyse | src/TWireSpectrum.cxx:166-491 | From a filled spectrum on, the hits and the wire charge equal their specification. |
| WireSpectrum.HitFinder.Find | src/TWireSpectrum.cxx:103-536 | The buffers are reallocated at twice the pulse length when too short and kept otherwise. An unknown channel throws with no hits and, when no reallocation happened, leaves the buffers untouched. A channel whose noise is below 10 gives no hits. Otherwise the hits are the specified ones for the plane's cuts, and the returned charge is their total. |
| WireMakeHits.UpperPosition | src/TWireMakeHits.cxx:164 | The upper position limit is count - 4, and it wraps to a huge value when the unsigned count is at most 3. |
| WireMakeHits.Kept | src/TWireMakeHits.cxx:160-170 | A candidate is kept exactly when it is a candidate and passes the end-skip, maximum and deconvolution cuts. |
| WireMakeHits.KeptInside | src/TWireMakeHits.cxx:163-166 | A kept position and its rounded index are at least 3, and at most count - 4 when the digit is longer than 3. |
| WireMakeHits.AcceptedPositions | src/TWireMakeHits.cxx:160-173 | The accepted peaks are sorted, a permutation of the kept ones, exactly the candidates that pass the cuts, and inside the skipped ends. |
| WireMakeHits.WalkDown | src/TWireMakeHits.cxx:210-214 | The downward search stops one below the lower bound or at the first sample under the threshold, and every sample above it is at least the threshold. |
| WireMakeHits.WalkUp | src/TWireMakeHits.cxx:218-222 | The upward search stops at the upper bound or at the first sample under the threshold, and every sample below it is at least the threshold. |
| WireMakeHits.IntegrationRangesCanOverlap | src/TWireMakeHits.cxx:193-222 | On a flat digit of twenty samples with peaks at 5 and 9, the first range ends at 7 and the second begins at 6, so sample 6 is integrated into both hits. |
| WireMakeHits.IntegrationRange | src/TWireMakeHits.cxx:184-222 | The integration range starts at or below i - 1 and ends at or above i + 1. Its begin is at least the smaller of i - 1 and the lower midpoint bound minus one, and its end at most the larger of i + 1 and the upper midpoint bound. |
| WireMakeHits.SearchDown | src/TWireMakeHits.cxx:210-214 | The loop computes the downward search. |
| WireMakeHits.SearchUp | src/TWireMakeHits.cxx:218-222 | The loop computes the upward search. |
| WireMakeHits.SampleCount | src/TWireMakeHits.cxx:48-57 | The sample counter starts at 1 and ends one above the number of samples. |
| WireMakeHits.HitOf | src/TWireMakeHits.cxx:42-91 | The hit's charge is the raw sum, its charge uncertainty the square root of it, its time the charge-weighted index plus half a bin, scaled by the step and offset by the first sample time, and its time uncertainty the RMS over the root of the sample counter. |
| WireMakeHits.SingleSampleHit | src/TWireMakeHits.cxx:52-70 | A one-sample hit sits at the centre of its bin, has RMS step * sqrt(1), and has time uncertainty RMS / sqrt(2). |
| WireMakeHits.RawChargeAtMostFloored | src/TWireMakeHits.cxx:224-237 | The hit charge is at most the floored charge used for the RMS, with equality when every sample reaches 0.1. |
| WireMakeHits.RawChargeSplit | src/TWireMakeHits.cxx:52-58 | The raw charge is additive over adjacent ranges. |
| WireMakeHits.RangeHits | src/TWireMakeHits.cxx:254-261 | Every sub-range yields exactly one hit, built from that sub-range. |
| WireMakeHits.ChainedCharge | src/TWireMakeHits.cxx:254-261 | The hits of chained sub-ranges carry the raw charge of their union. |
| WireMakeHits.PeakSplit | src/TWireMakeHits.cxx:224-249 | The split of a peak is at least 1. |
| WireMakeHits.PeakRanges | src/TWireMakeHits.cxx:248-261 | A peak yields exactly split sub-ranges, chained end to start, spanning its integration range. |
| WireMakeHits.PeakChargeConserved | src/TWireMakeHits.cxx:182-262 | Splitting a peak keeps its charge: the hits of a peak sum to the raw charge of its integration range. |
| WireMakeHits.HitMaker.constructor | src/TWireMakeHits.cxx:19-36 | The hit maker starts without buffers and holds the maximum cut, deconvolution cut and RMS limit. |
| WireMakeHits.HitMaker.EnsureBuffers | src/TWireMakeHits.cxx:96-104 | A longer digit reallocates both buffers at twice its length; otherwise they are kept. |
| WireMakeHits.HitMaker.FillSpectrum | src/TWireMakeHits.cxx:107-110 | The source holds the offset digit and the destination zeros. |
| WireMakeHits.HitMaker.StoreSearchOutput | src/TWireMakeHits.cxx:125-141 | The destination holds the search output. |
| WireMakeHits.HitMaker.FilterPeaks | src/TWireMakeHits.cxx:160-170 | The loop keeps exactly the specified candidates. |
| WireMakeHits.HitMaker.MakeHit | src/TWireMakeHits.cxx:42-91 | The sums of the range, divided and combined as the source does, give the specified hit. |
| WireMakeHits.HitMaker.HitSums | src/TWireMakeHits.cxx:45-58 | The accumulating loop computes the raw charge, the first and second moments and the sample counter of the range. |
| WireMakeHits.HitMaker.OfferRanges | src/TWireMakeHits.cxx:254-261 | The loop builds one hit per sub-range. |
| WireMakeHits.HitMaker.PeakHits | src/TWireMakeHits.cxx:182-261 | Bounds, searches, split and sub-ranges compute the specified hits of one peak. |
| WireMakeHits.HitMaker.AllPeakHits | src/TWireMakeHits.cxx:182-262 | The loop over the sorted peaks computes all hits. |
| WireMakeHits.HitMaker.RunSearch | src/TWireMakeHits.cxx:107-141 | The buffers hold the search input and the search output. |
| WireMakeHits.HitMaker.Find | src/TWireMakeHits.cxx:93-262 | The buffers are reallocated at twice the pulse length when too short and kept otherwise. They hold the search input and output, and the hits are the specified ones. |

## Left out

- The FFT, the electronics and wire response division and the inverse transform (src/TPulseDeconvolution.cxx:142-159) are one function-typed parameter of `Deconvolve`. TElectronicsResponse and TWireResponse are not part of this model.
- PulseDeconvolution.Deconvolver.Deconvolve: the response calculations (src/TPulseDeconvolution.cxx:89-92) are modelled only by their failure for an unknown channel type, which the calibration accessors share (ChannelCalib.UnknownTypeFailsEverywhere). The thrown exception is a `Threw` status, and the digit the source never returns is an empty array.
- TSpectrum's high-resolution peak search is a function-typed parameter that returns the destination array and the candidate positions. Its iterations, Markov smoothing and sigma argument are not modelled.
- In TWireSpectrum the per-hit calibration (TMakeWireHit, which may decline a range) is a function-typed parameter. TMakeWireHit, TClusterCalib, TChannelInfo and the geometry lookups are not part of this model.
- `std::sqrt` and `std::exp` are parameters. The model assumes only that sqrt is non-negative on non-negative arguments, and positive on positive arguments where a division by it follows. The argument of the RMS square root is at least 1 (HitRanges.SpreadArgumentAtLeastOne), so no negative argument arises there.
- Floating point is modelled as exact reals. Rounding, `float` storage of the buffers, non-finite samples and the `isfinite` logging are not modelled.
- Run-time parameters (smoothing, cuts, coherence zone, end skip, RMS limit) are constructor arguments. The event store's truth vectors and the collection efficiencies are passed in as values. Units are symbolic values from HEPUnits.
- Histograms, `FILL_HISTOGRAM` blocks and log output are not modelled. The unused noise threshold (src/TWireSpectrum.cxx:298-300) and the large-noise message (src/TWireSpectrum.cxx:237-242), which does not return, are omitted as having no effect.
- Numerics.SampleAt: reads outside the digit return 0. The source reads past the pulse (src/TPulseDeconvolution.cxx:97), one past the end (src/TPulseDeconvolution.cxx:272, :391, :448), around a peak's window (src/TWireSpectrum.cxx:318), and at index -1 (src/TWireMakeHits.cxx:211, and the moment loops that follow). Those reads are undefined or container-specific in C++.
- Numerics.Sort: `std::sort` is modelled by an insertion sort. Only its result, sorted (Numerics.SortSorted) and a permutation (Numerics.SortPermutes), is relied on.
- WireMakeHits.HitOf: where a range's raw charge is exactly 0, the source divides by zero (src/TWireMakeHits.cxx:59-60). The model's ratio is 0 there, so time and RMS are only meaningful for non-zero charge.
- BaselineRemoval.InterpPass: a gap end whose magnitude is exactly 1e-6 counts as neither empty nor live in the source, which then divides 0 by 0 (src/TPulseDeconvolution.cxx:448-449). The model keeps the entry.
- WireSpectrum.HitFinder.Find: the caller must supply a pulse at least twice the end skip long, since the source's sort range is otherwise reversed; the search output is required to have the pulse's length.
- WireSpectrum.HitFinder.Find: requires the last sample time to be after the first. The source never checks this. When the last time is before the first, the time per sample is negative. A negative split gives a negative stride, and the stride loop (src/TWireSpectrum.cxx:477-479) never ends. A split of 0 gives an infinite stride: the loop runs once and converts an infinite position to `int`, which is undefined. When they are equal, the source divides by the zero time per sample (src/TWireSpectrum.cxx:192, :316, :372).
- WireMakeHits.IntegrationRange: does not promise that neighbouring ranges are disjoint, because the source's downward search (src/TWireMakeHits.cxx:210-214) can stop one sample below the lower midpoint bound, inside the previous peak's range. WireMakeHits.IntegrationRangesCanOverlap gives an input where one sample is counted in two hits.
- WireMakeHits.HitMaker.Find: requires the last sample time to be no earlier than the first. The source never checks this. When the last time is before the first, a negative split gives a negative stride, and the stride loop (src/TWireMakeHits.cxx:248-256) never ends. A split of 0 gives an infinite stride: the loop runs once and converts an infinite position to `int`, which is undefined. Equal times are allowed and give a time per sample of 0.
- WireMakeHits.HitMaker.Find: on a digit of three or fewer samples, `count - 4` wraps as an unsigned value (src/TWireMakeHits.cxx:164). The model keeps the wrap, and such digits read the destination outside the pulse as 0.
