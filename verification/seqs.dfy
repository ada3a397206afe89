/** Folds over sequences of reals: the `reduce((a, b) => a + b, 0)` sum,
    the arithmetic mean and `Math.min(...xs)` / `Math.max(...xs)`, with the
    ordering facts that tie them together. */
module Seqs {

  function Min(a: real, b: real): real { if a <= b then a else b }

  function Max(a: real, b: real): real { if a >= b then a else b }

  /** Left-to-right sum, as `reduce` adds the elements starting from 0. */
  function Sum(s: seq<real>): real
  {
    if |s| == 0 then 0.0 else Sum(s[..|s| - 1]) + s[|s| - 1]
  }

  function Mean(s: seq<real>): real
    requires |s| > 0
  {
    Sum(s) / (|s| as real)
  }

  /** The smallest element: it occurs in `s` and no element is below it. */
  function MinOf(s: seq<real>): (m: real)
    requires |s| > 0
    ensures m in s
    ensures forall i :: 0 <= i < |s| ==> m <= s[i]
  {
    if |s| == 1 then s[0]
    else
      var rest := MinOf(s[..|s| - 1]);
      assert forall i :: 0 <= i < |s| - 1 ==> s[..|s| - 1][i] == s[i];
      Min(rest, s[|s| - 1])
  }

  /** The largest element: it occurs in `s` and no element is above it. */
  function MaxOf(s: seq<real>): (m: real)
    requires |s| > 0
    ensures m in s
    ensures forall i :: 0 <= i < |s| ==> s[i] <= m
  {
    if |s| == 1 then s[0]
    else
      var rest := MaxOf(s[..|s| - 1]);
      assert forall i :: 0 <= i < |s| - 1 ==> s[..|s| - 1][i] == s[i];
      Max(rest, s[|s| - 1])
  }

  /** Elements bounded by `lo` and `hi` sum to between `|s|*lo` and `|s|*hi`. */
  lemma {:induction false} SumBounds(s: seq<real>, lo: real, hi: real)
    requires forall i :: 0 <= i < |s| ==> lo <= s[i] <= hi
    ensures (|s| as real) * lo <= Sum(s) <= (|s| as real) * hi
  {
    if |s| > 0 {
      var init := s[..|s| - 1];
      assert forall i :: 0 <= i < |init| ==> init[i] == s[i];
      SumBounds(init, lo, hi);
      assert (|s| as real) * lo == (|init| as real) * lo + lo;
      assert (|s| as real) * hi == (|init| as real) * hi + hi;
    }
  }

  /** The mean of elements bounded by `lo` and `hi` is bounded by them too. */
  lemma MeanBounds(s: seq<real>, lo: real, hi: real)
    requires |s| > 0
    requires forall i :: 0 <= i < |s| ==> lo <= s[i] <= hi
    ensures lo <= Mean(s) <= hi
  {
    SumBounds(s, lo, hi);
    ScaledBounds(lo, Sum(s), hi, |s| as real);
  }

  /** The mean lies between the smallest and the largest element. */
  lemma MeanBetweenMinAndMax(s: seq<real>)
    requires |s| > 0
    ensures MinOf(s) <= Mean(s) <= MaxOf(s)
  {
    MeanBounds(s, MinOf(s), MaxOf(s));
  }

  /** Dividing `n*lo <= x <= n*hi` by a positive `n`. */
  lemma ScaledBounds(lo: real, x: real, hi: real, n: real)
    requires n > 0.0 && n * lo <= x <= n * hi
    ensures lo <= x / n <= hi
  {
  }

  /** Pointwise-ordered sequences of equal length have ordered minima and maxima. */
  lemma PointwiseMinMax(a: seq<real>, b: seq<real>)
    requires |a| == |b| > 0
    requires forall i :: 0 <= i < |a| ==> a[i] <= b[i]
    ensures MinOf(a) <= MinOf(b)
    ensures MaxOf(a) <= MaxOf(b)
  {
    var j :| 0 <= j < |b| && b[j] == MinOf(b);
    assert MinOf(a) <= a[j];
    var k :| 0 <= k < |a| && a[k] == MaxOf(a);
    assert b[k] <= MaxOf(b);
  }

  /** A sequence of positive reals has a positive mean. */
  lemma PositiveMean(s: seq<real>)
    requires |s| > 0
    requires forall i :: 0 <= i < |s| ==> s[i] > 0.0
    ensures Mean(s) > 0.0
  {
    MeanBetweenMinAndMax(s);
  }

  /** Appending one element adds it to the sum. */
  lemma SumAppend(s: seq<real>, x: real)
    ensures Sum(s + [x]) == Sum(s) + x
  {
    assert (s + [x])[..|s|] == s;
  }

  /** Every fold of a one-element sequence is that element. */
  lemma SingletonFolds(x: real)
    ensures Sum([x]) == x && Mean([x]) == x && MinOf([x]) == x && MaxOf([x]) == x
  {
    assert [x][..0] == [];
  }

  /** The sum of a five-element sequence, written out. */
  lemma SumOfFive(a: real, b: real, c: real, d: real, e: real)
    ensures Sum([a, b, c, d, e]) == a + b + c + d + e
  {
    assert Sum([a]) == a by { SumAppend([], a); }
    SumAppend([a], b);
    assert [a] + [b] == [a, b];
    SumAppend([a, b], c);
    assert [a, b] + [c] == [a, b, c];
    SumAppend([a, b, c], d);
    assert [a, b, c] + [d] == [a, b, c, d];
    SumAppend([a, b, c, d], e);
    assert [a, b, c, d] + [e] == [a, b, c, d, e];
  }
}
