/** Triangular window sums, used for the smoothing of the input digit and of
    the baseline estimate. */
module Windows {
  import opened Numerics

  // Triangular window sums.  Offset `j` of a window of size `W` has weight
  // `W - j`; a neighbour only counts when it lies inside the sequence and
  // its mask entry is set.

  /** Whether position `k` takes part in a window (inside and marked). */
  predicate InWindow(m: seq<bool>, k: int)
  {
    0 <= k < |m| && m[k]
  }

  /** The weight a neighbour contributes: `w` when it takes part, else 0. */
  function Weight(on: bool, w: real): real
  {
    if on then w else 0.0
  }

  /** The weighted sample a neighbour contributes. */
  function Contribution(on: bool, w: real, x: real): real
  {
    if on then w * x else 0.0
  }

  function WindowWeight(m: seq<bool>, i: int, W: int, j: int): real
  {
    if j == 0 then Weight(InWindow(m, i), (W - j) as real)
    else Weight(InWindow(m, i - j), (W - j) as real) + Weight(InWindow(m, i + j), (W - j) as real)
  }

  function WindowTerm(s: seq<real>, m: seq<bool>, i: int, W: int, j: int): real
  {
    if j == 0 then Contribution(InWindow(m, i), (W - j) as real, SampleAt(s, i))
    else Contribution(InWindow(m, i - j), (W - j) as real, SampleAt(s, i - j))
         + Contribution(InWindow(m, i + j), (W - j) as real, SampleAt(s, i + j))
  }

  /** Sum of weights over offsets `[0, j)`. */
  function WindowDen(m: seq<bool>, i: int, W: int, j: nat): real
  {
    if j == 0 then 0.0 else WindowDen(m, i, W, j - 1) + WindowWeight(m, i, W, j - 1)
  }

  /** Weighted sum of samples over offsets `[0, j)`. */
  function WindowNum(s: seq<real>, m: seq<bool>, i: int, W: int, j: nat): real
  {
    if j == 0 then 0.0 else WindowNum(s, m, i, W, j - 1) + WindowTerm(s, m, i, W, j - 1)
  }

  /** The samples a window around `i` may draw on lie in `[lo, hi]`. */
  ghost predicate WindowWithin(s: seq<real>, m: seq<bool>, i: int, W: int, lo: real, hi: real)
    requires |m| == |s|
  {
    forall k :: 0 <= k < |s| && i - W < k < i + W && m[k] ==> lo <= s[k] <= hi
  }

  /** `num` lies between `lo` and `hi` times the weight `den`. */
  predicate Bracketed(lo: real, hi: real, den: real, num: real)
  {
    lo * den <= num <= hi * den
  }

  lemma AddBetween(lo: real, hi: real, d: real, t: real, num: real, term: real)
    requires Bracketed(lo, hi, d, num) && Bracketed(lo, hi, t, term)
    ensures Bracketed(lo, hi, d + t, num + term)
  {
    assert lo * (d + t) == lo * d + lo * t;
    assert hi * (d + t) == hi * d + hi * t;
  }

  /** A neighbour that takes part brackets its contribution by its weight. */
  lemma ContributionBetween(on: bool, w: real, x: real, lo: real, hi: real)
    requires w >= 0.0 && (on ==> lo <= x <= hi)
    ensures Bracketed(lo, hi, Weight(on, w), Contribution(on, w, x))
  {
    if on {
      assert w * lo <= w * x <= w * hi;
    }
  }

  /** One offset's contribution is bracketed by the bounds times its weight. */
  lemma WindowTermBetween(s: seq<real>, m: seq<bool>, i: int, W: int, o: nat, lo: real, hi: real)
    requires |m| == |s| && o < W
    requires WindowWithin(s, m, i, W, lo, hi)
    ensures Bracketed(lo, hi, WindowWeight(m, i, W, o), WindowTerm(s, m, i, W, o))
    ensures WindowWeight(m, i, W, o) >= 0.0
  {
    var w := (W - o) as real;
    if o == 0 {
      ContributionBetween(InWindow(m, i), w, SampleAt(s, i), lo, hi);
    } else {
      ContributionBetween(InWindow(m, i - o), w, SampleAt(s, i - o), lo, hi);
      ContributionBetween(InWindow(m, i + o), w, SampleAt(s, i + o), lo, hi);
      AddBetween(lo, hi, Weight(InWindow(m, i - o), w), Weight(InWindow(m, i + o), w),
                 Contribution(InWindow(m, i - o), w, SampleAt(s, i - o)),
                 Contribution(InWindow(m, i + o), w, SampleAt(s, i + o)));
    }
  }

  /** Every partial window sum is bracketed by the bounds times the weights. */
  lemma {:induction false} WindowSumBetween(s: seq<real>, m: seq<bool>, i: int, W: int, j: nat, lo: real, hi: real)
    requires |m| == |s| && 0 <= i < |s| && j <= W
    requires WindowWithin(s, m, i, W, lo, hi)
    ensures Bracketed(lo, hi, WindowDen(m, i, W, j), WindowNum(s, m, i, W, j))
    ensures WindowDen(m, i, W, j) >= 0.0
  {
    if j > 0 {
      WindowSumBetween(s, m, i, W, j - 1, lo, hi);
      WindowTermBetween(s, m, i, W, j - 1, lo, hi);
      AddBetween(lo, hi, WindowDen(m, i, W, j - 1), WindowWeight(m, i, W, j - 1),
                 WindowNum(s, m, i, W, j - 1), WindowTerm(s, m, i, W, j - 1));
    }
  }

  lemma {:induction false} WindowDenAtLeastCentre(m: seq<bool>, i: int, W: int, j: nat)
    requires 0 <= i < |m| && 1 <= j <= W && m[i]
    ensures WindowDen(m, i, W, j) >= W as real
  {
    if j > 1 {
      WindowDenAtLeastCentre(m, i, W, j - 1);
    }
  }

  lemma DivBetween(num: real, den: real, lo: real, hi: real)
    requires den > 0.0 && Bracketed(lo, hi, den, num)
    ensures lo <= num / den <= hi
  {
    assert num / den * den == num;
  }

  /** A triangular window average lies between the smallest and the largest
      sample it draws on. */
  lemma WindowAverageBetween(s: seq<real>, m: seq<bool>, i: int, W: int, lo: real, hi: real)
    requires |m| == |s| && 0 <= i < |s| && W >= 0
    requires WindowWithin(s, m, i, W, lo, hi)
    requires WindowDen(m, i, W, W) > 0.0
    ensures lo <= WindowNum(s, m, i, W, W) / WindowDen(m, i, W, W) <= hi
  {
    WindowSumBetween(s, m, i, W, W, lo, hi);
    DivBetween(WindowNum(s, m, i, W, W), WindowDen(m, i, W, W), lo, hi);
  }

  /** The window sums around `i`, accumulated offset by offset as the
      smoothing loops do: offset 0 once, every other offset on both sides. */
  method WindowSums(s: seq<real>, m: seq<bool>, i: int, W: int) returns (val: real, weight: real)
    requires |m| == |s| && 0 <= i < |s| && W >= 0
    ensures val == WindowNum(s, m, i, W, W)
    ensures weight == WindowDen(m, i, W, W)
  {
    val, weight := 0.0, 0.0;
    var j := 0;
    while j < W
      invariant 0 <= j <= W
      invariant val == WindowNum(s, m, i, W, j)
      invariant weight == WindowDen(m, i, W, j)
    {
      var w := (W - j) as real;
      if j == 0 {
        if m[i] {
          val := val + w * s[i];
          weight := weight + w;
        }
      } else {
        if 0 <= i - j && m[i - j] {
          val := val + w * s[i - j];
          weight := weight + w;
        }
        if i + j < |s| && m[i + j] {
          val := val + w * s[i + j];
          weight := weight + w;
        }
      }
      j := j + 1;
    }
  }
}
