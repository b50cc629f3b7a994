/**
 * The trailing (causal, non-centred) rolling mean of a series over a window
 * of `w` points, with the leading points that lack a full window dropped.
 */
module Rolling {

  /** The sum of a series. */
  function Sum(s: seq<real>): real {
    if |s| == 0 then 0.0 else s[0] + Sum(s[1..])
  }

  /** The arithmetic mean of a non-empty series. */
  function Mean(s: seq<real>): real
    requires |s| > 0
  {
    Sum(s) / (|s| as real)
  }

  /** The smallest element of a non-empty series. */
  function Min(s: seq<real>): (m: real)
    requires |s| > 0
    ensures m in s
    ensures forall k :: 0 <= k < |s| ==> m <= s[k]
  {
    if |s| == 1 then s[0]
    else
      var rest := Min(s[1..]);
      assert forall k :: 1 <= k < |s| ==> s[k] == s[1..][k - 1];
      if s[0] <= rest then s[0] else rest
  }

  /** The largest element of a non-empty series. */
  function Max(s: seq<real>): (m: real)
    requires |s| > 0
    ensures m in s
    ensures forall k :: 0 <= k < |s| ==> s[k] <= m
  {
    if |s| == 1 then s[0]
    else
      var rest := Max(s[1..]);
      assert forall k :: 1 <= k < |s| ==> s[k] == s[1..][k - 1];
      if rest <= s[0] then s[0] else rest
  }

  /** Appending one point adds it to the sum. */
  lemma {:induction false} SumSnoc(s: seq<real>, x: real)
    ensures Sum(s + [x]) == Sum(s) + x
  {
    if |s| > 0 {
      assert (s + [x])[1..] == s[1..] + [x];
      SumSnoc(s[1..], x);
    } else {
      assert s + [x] == [x];
    }
  }

  /** A sum of points that all lie in [lo, hi] lies in [n * lo, n * hi]. */
  lemma {:induction false} SumBounds(s: seq<real>, lo: real, hi: real)
    requires forall k :: 0 <= k < |s| ==> lo <= s[k] <= hi
    ensures (|s| as real) * lo <= Sum(s) <= (|s| as real) * hi
  {
    if |s| > 0 {
      assert forall k :: 0 <= k < |s[1..]| ==> s[1..][k] == s[k + 1];
      SumBounds(s[1..], lo, hi);
      assert (|s| as real) * lo == lo + (|s[1..]| as real) * lo;
      assert (|s| as real) * hi == hi + (|s[1..]| as real) * hi;
    }
  }

  /** A mean of points that all lie in [lo, hi] lies in [lo, hi]. */
  lemma MeanBounds(s: seq<real>, lo: real, hi: real)
    requires |s| > 0
    requires forall k :: 0 <= k < |s| ==> lo <= s[k] <= hi
    ensures lo <= Mean(s) <= hi
  {
    SumBounds(s, lo, hi);
    QuotientBounds(Sum(s), |s| as real, lo, hi);
  }

  /** A mean lies between the smallest and the largest point it averages. */
  lemma MeanBetweenMinMax(s: seq<real>)
    requires |s| > 0
    ensures Min(s) <= Mean(s) <= Max(s)
  {
    MeanBounds(s, Min(s), Max(s));
  }

  /** Dividing bounds n * lo <= x <= n * hi by a positive n. */
  lemma QuotientBounds(x: real, n: real, lo: real, hi: real)
    requires n > 0.0 && n * lo <= x <= n * hi
    ensures lo <= x / n <= hi
  {
  }

  /** The number of points a rolling mean over `w` points produces from `n` points. */
  function RollingLength(n: nat, w: nat): nat {
    if n >= w then n - w + 1 else 0
  }

  /**
   * Entry `i` of the rolling mean is the mean of the `w` consecutive points
   * that end at point `i + w - 1`; positions `0 .. w-2`, whose window is
   * incomplete, are dropped.
   */
  function RollingMean(s: seq<real>, w: nat): (avg: seq<real>)
    requires w >= 1
    ensures |avg| == RollingLength(|s|, w)
    ensures forall i :: 0 <= i < |avg| ==> Min(s[i..i + w]) <= avg[i] <= Max(s[i..i + w])
  {
    var avg := seq(RollingLength(|s|, w), i requires 0 <= i < RollingLength(|s|, w) => Mean(s[i..i + w]));
    assert forall i :: 0 <= i < |avg| ==> avg[i] == Mean(s[i..i + w]);
    forall i | 0 <= i < |avg|
      ensures Min(s[i..i + w]) <= avg[i] <= Max(s[i..i + w])
    {
      MeanBetweenMinMax(s[i..i + w]);
    }
    avg
  }

  /** Entry `i` of the rolling mean is the mean of the window of `w` points starting at `i`. */
  lemma RollingMeanEntry(s: seq<real>, w: nat, i: nat)
    requires w >= 1 && i < RollingLength(|s|, w)
    ensures i + w <= |s| && RollingMean(s, w)[i] == Mean(s[i..i + w])
  {
  }

  /** Sliding a window one point to the right removes its first point and adds the next one. */
  lemma SlideSum(s: seq<real>, i: nat, w: nat)
    requires w >= 1 && i + w < |s|
    ensures Sum(s[i + 1..i + w + 1]) == Sum(s[i..i + w]) - s[i] + s[i + w]
  {
    assert s[i..i + w + 1] == s[i..i + w] + [s[i + w]];
    SumSnoc(s[i..i + w], s[i + w]);
    assert s[i..i + w + 1][1..] == s[i + 1..i + w + 1];
  }

  /** The sum of the first `n` points, accumulated one point at a time. */
  method PrefixSum(s: seq<real>, n: nat) returns (total: real)
    requires n <= |s|
    ensures total == Sum(s[..n])
  {
    total := 0.0;
    var k := 0;
    while k < n
      invariant 0 <= k <= n
      invariant total == Sum(s[..k])
    {
      assert s[..k + 1] == s[..k] + [s[k]];
      SumSnoc(s[..k], s[k]);
      total := total + s[k];
      k := k + 1;
    }
  }

  /** A series of the right length whose every entry is its window's mean is the rolling mean. */
  lemma RollingMeanUnique(s: seq<real>, w: nat, avg: seq<real>)
    requires w >= 1
    requires |avg| == RollingLength(|s|, w)
    requires forall i :: 0 <= i < |avg| ==> avg[i] == Mean(s[i..i + w])
    ensures avg == RollingMean(s, w)
  {
  }

  /**
   * The rolling mean computed the way a streaming implementation does it:
   * one running sum, updated by adding the point entering the window and
   * subtracting the point leaving it. It agrees with the reference definition.
   */
  method RunningRollingMean(s: seq<real>, w: nat) returns (avg: seq<real>)
    requires w >= 1
    ensures avg == RollingMean(s, w)
  {
    avg := [];
    if |s| < w {
      RollingMeanUnique(s, w, avg);
      return;
    }
    var total := PrefixSum(s, w);
    assert s[..w] == s[0..w];
    var i := 0;
    while i + w < |s|
      invariant i + w <= |s|
      invariant total == Sum(s[i..i + w])
      invariant |avg| == i
      invariant forall j :: 0 <= j < i ==> avg[j] == Mean(s[j..j + w])
    {
      avg := avg + [total / (w as real)];
      SlideSum(s, i, w);
      total := total - s[i] + s[i + w];
      i := i + 1;
    }
    avg := avg + [total / (w as real)];
    RollingMeanUnique(s, w, avg);
  }
}
