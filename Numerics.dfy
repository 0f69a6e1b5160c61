/** Numeric helpers shared by the whole model: the C++ conversions the source
    relies on, the clamped sample read and a reference sort for `std::sort`. */
module Numerics {

  function Abs(x: real): (r: real)
    ensures r >= 0.0 && (r == x || r == -x)
  {
    if x < 0.0 then -x else x
  }

  function Max(a: real, b: real): (r: real)
    ensures r >= a && r >= b && (r == a || r == b)
  {
    if a >= b then a else b
  }

  function MaxInt(a: int, b: int): (r: int)
    ensures r >= a && r >= b && (r == a || r == b)
  {
    if a >= b then a else b
  }

  function MinInt(a: int, b: int): (r: int)
    ensures r <= a && r <= b && (r == a || r == b)
  {
    if a <= b then a else b
  }

  /** The C++ conversion of a floating value to `int`: truncation toward zero. */
  function Trunc(x: real): (r: int)
    ensures x >= 0.0 ==> r >= 0 && r as real <= x < r as real + 1.0
    ensures x < 0.0 ==> r <= 0 && r as real - 1.0 < x <= r as real
  {
    if x >= 0.0 then x.Floor else -((-x).Floor)
  }

  lemma TruncOfInt(k: int)
    ensures Trunc(k as real) == k
  {
  }

  lemma TruncMonotone(x: real, y: real)
    requires x <= y
    ensures Trunc(x) <= Trunc(y)
  {
  }

  /** `x * x`; kept behind a function so that the solver sees one term. */
  function Square(x: real): (r: real)
    ensures r >= 0.0
  {
    x * x
  }

  /** `(int)(x + 0.5)`: the nearest sample index of a non-negative position. */
  function Round(x: real): int
  {
    Trunc(x + 0.5)
  }

  /** C++ `int` division by two (truncates toward zero). */
  function HalfC(n: int): (q: int)
    ensures n >= 0 ==> 0 <= q && 2 * q <= n < 2 * q + 2
    ensures n < 0 ==> q <= 0 && 2 * q - 2 < n <= 2 * q
  {
    if n >= 0 then n / 2 else -((-n) / 2)
  }

  /** A sample read with the documented clamp: an index outside the digit
      reads as 0 (the source reads past the end of its vector there). */
  function SampleAt(s: seq<real>, k: int): (v: real)
    ensures 0 <= k < |s| ==> v == s[k]
    ensures !(0 <= k < |s|) ==> v == 0.0
  {
    if 0 <= k < |s| then s[k] else 0.0
  }

  // ---------------------------------------------------------------------
  // Reference sort (the model of `std::sort` on a vector of doubles).

  ghost predicate SortedAsc(s: seq<real>)
  {
    forall i, j :: 0 <= i < j < |s| ==> s[i] <= s[j]
  }

  function Insert(x: real, s: seq<real>): (r: seq<real>)
    ensures |r| == |s| + 1
  {
    if s == [] then [x]
    else if x <= s[0] then [x] + s
    else [s[0]] + Insert(x, s[1..])
  }

  function Sort(s: seq<real>): (r: seq<real>)
    ensures |r| == |s|
  {
    if s == [] then []
    else Insert(s[0], Sort(s[1..]))
  }

  /** Inserting adds exactly one occurrence of `x`. */
  lemma {:induction false} InsertPermutes(x: real, s: seq<real>)
    ensures multiset(Insert(x, s)) == multiset(s) + multiset{x}
  {
    if s != [] {
      assert s == [s[0]] + s[1..];
      if x > s[0] {
        InsertPermutes(x, s[1..]);
      }
    }
  }

  /** `Sort` returns a permutation of its input. */
  lemma {:induction false} SortPermutes(s: seq<real>)
    ensures multiset(Sort(s)) == multiset(s)
  {
    if s != [] {
      assert s == [s[0]] + s[1..];
      SortPermutes(s[1..]);
      InsertPermutes(s[0], Sort(s[1..]));
    }
  }

  lemma {:induction false} InsertSorted(x: real, s: seq<real>)
    requires SortedAsc(s)
    ensures SortedAsc(Insert(x, s))
  {
    if s != [] && x > s[0] {
      InsertSorted(x, s[1..]);
      var t := Insert(x, s[1..]);
      InsertPermutes(x, s[1..]);
      forall k | 0 <= k < |t|
        ensures s[0] <= t[k]
      {
        assert t[k] in multiset(t);
        if t[k] == x {
        } else {
          assert t[k] in multiset(s[1..]);
          var m :| 0 <= m < |s[1..]| && s[1..][m] == t[k];
          assert s[m + 1] == t[k];
        }
      }
    }
  }

  /** `Sort` returns its input in ascending order. */
  lemma {:induction false} SortSorted(s: seq<real>)
    ensures SortedAsc(Sort(s))
  {
    if s != [] {
      SortSorted(s[1..]);
      InsertSorted(s[0], Sort(s[1..]));
    }
  }

  /** `s` with the entries `[lo, hi)` put in ascending order (the model of
      `std::sort(&a[lo], &a[hi])`). */
  function SortRange(s: seq<real>, lo: int, hi: int): (r: seq<real>)
    requires 0 <= lo <= hi <= |s|
    ensures |r| == |s|
  {
    s[..lo] + Sort(s[lo..hi]) + s[hi..]
  }

  /** Sorting a range leaves both ends alone and puts a permutation of the
      range, in ascending order, in its place. */
  lemma SortRangePermutes(s: seq<real>, lo: int, hi: int)
    requires 0 <= lo <= hi <= |s|
    ensures SortRange(s, lo, hi)[..lo] == s[..lo] && SortRange(s, lo, hi)[hi..] == s[hi..]
    ensures multiset(SortRange(s, lo, hi)[lo..hi]) == multiset(s[lo..hi])
    ensures SortedAsc(SortRange(s, lo, hi)[lo..hi])
  {
    var r := SortRange(s, lo, hi);
    assert r[lo..hi] == Sort(s[lo..hi]);
    SortPermutes(s[lo..hi]);
    SortSorted(s[lo..hi]);
  }
}
