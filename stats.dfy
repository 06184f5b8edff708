/**
 * The small numeric helpers of graphicalMM1.py (`mean`, `movingaverage`) and
 * Python's `sum`, over exact reals.
 */
module Stats {
  import opened Wrappers

  /** Python's `sum`: a left fold with `+` that starts at 0. */
  function Sum(s: seq<real>): real
    decreases |s|
  {
    if s == [] then 0.0 else Sum(s[..|s| - 1]) + s[|s| - 1]
  }

  /** Python's `max` of two numbers. */
  function Max(a: real, b: real): (m: real)
    ensures a <= m && b <= m && (m == a || m == b)
  {
    if a < b then b else a
  }

  /** The list `[a[i] + b[i] for ...]` (a `zip` followed by `sum` of each pair). */
  function Pointwise(a: seq<real>, b: seq<real>): (r: seq<real>)
    requires |a| == |b|
    ensures |r| == |a|
  {
    seq(|a|, i requires 0 <= i < |a| => a[i] + b[i])
  }

  /** `mean`: the average of a non-empty list, and False (None) for an empty one. */
  function Mean(s: seq<real>): (r: Option<real>)
    ensures r.None? <==> s == []
    ensures r.Some? ==> r.value * (|s| as real) == Sum(s)
  {
    if |s| > 0 then Some(Sum(s) / (|s| as real)) else None
  }

  /** `movingaverage`: entry k is the mean of the first k+1 items. */
  function MovingAverage(s: seq<real>): (r: seq<Option<real>>)
    ensures |r| == |s|
    ensures forall k :: 0 <= k < |s| ==> r[k].Some? && r[k].value * ((k + 1) as real) == Sum(s[..k + 1])
  {
    seq(|s|, k requires 0 <= k < |s| => Mean(s[..k + 1]))
  }

  /** A number standing in for a Python value that may be False (False + x == x). */
  function AsNumber(m: Option<real>): real
  {
    match m
    case None => 0.0
    case Some(v) => v
  }

  lemma {:induction false} SumAppend(a: seq<real>, b: seq<real>)
    ensures Sum(a + b) == Sum(a) + Sum(b)
    decreases |b|
  {
    if b == [] {
      assert a + b == a;
    } else {
      var b' := b[..|b| - 1];
      assert (a + b)[..|a + b| - 1] == a + b';
      SumAppend(a, b');
    }
  }

  /** Summing pairwise sums is summing each list separately. */
  lemma {:induction false} SumPointwise(a: seq<real>, b: seq<real>)
    requires |a| == |b|
    ensures Sum(Pointwise(a, b)) == Sum(a) + Sum(b)
    decreases |a|
  {
    if a != [] {
      var n := |a| - 1;
      assert Pointwise(a, b)[..n] == Pointwise(a[..n], b[..n]);
      SumPointwise(a[..n], b[..n]);
    }
  }

  /** Adding pointwise commutes with appending. */
  lemma PointwiseAppend(a: seq<real>, b: seq<real>, x: seq<real>, y: seq<real>)
    requires |a| == |b| && |x| == |y|
    ensures Pointwise(a + x, b + y) == Pointwise(a, b) + Pointwise(x, y)
  {
    assert forall i :: 0 <= i < |a| + |x| ==> (a + x)[i] + (b + y)[i] == (Pointwise(a, b) + Pointwise(x, y))[i];
  }

  /** The mean of pairwise sums is the sum of the means. */
  lemma MeanPointwise(a: seq<real>, b: seq<real>)
    requires |a| == |b| && a != []
    ensures Mean(Pointwise(a, b)) == Some(Mean(a).value + Mean(b).value)
  {
    SumPointwise(a, b);
    var n := |a| as real;
    assert Mean(Pointwise(a, b)).value * n == (Mean(a).value + Mean(b).value) * n;
  }

  /** A list whose items all lie in [lo, hi] has its sum in [n*lo, n*hi]. */
  lemma {:induction false} SumBetween(s: seq<real>, lo: real, hi: real)
    requires forall i :: 0 <= i < |s| ==> lo <= s[i] <= hi
    ensures (|s| as real) * lo <= Sum(s) <= (|s| as real) * hi
    decreases |s|
  {
    if s != [] {
      SumBetween(s[..|s| - 1], lo, hi);
    }
  }

  /** The mean of a non-empty list lies between its least and greatest possible item. */
  lemma MeanBetween(s: seq<real>, lo: real, hi: real)
    requires s != []
    requires forall i :: 0 <= i < |s| ==> lo <= s[i] <= hi
    ensures lo <= Mean(s).value <= hi
  {
    SumBetween(s, lo, hi);
    var n := |s| as real;
    var m := Mean(s).value;
    assert (m - lo) * n == Sum(s) - n * lo >= 0.0;
    assert (hi - m) * n == n * hi - Sum(s) >= 0.0;
  }

  /** A list no item of which exceeds the matching item of another has no greater sum. */
  lemma {:induction false} SumDominated(a: seq<real>, b: seq<real>)
    requires |a| == |b| && forall i :: 0 <= i < |a| ==> a[i] <= b[i]
    ensures Sum(a) <= Sum(b)
    decreases |a|
  {
    if a != [] {
      SumDominated(a[..|a| - 1], b[..|b| - 1]);
    }
  }

  /** ... and no greater mean. */
  lemma MeanDominated(a: seq<real>, b: seq<real>)
    requires |a| == |b| && a != [] && forall i :: 0 <= i < |a| ==> a[i] <= b[i]
    ensures Mean(a).value <= Mean(b).value
  {
    SumDominated(a, b);
    var n := |a| as real;
    assert (Mean(b).value - Mean(a).value) * n == Sum(b) - Sum(a);
    PositiveFactor(Mean(b).value - Mean(a).value, n);
  }

  /** A product with a positive factor has the sign of the other factor. */
  lemma PositiveFactor(x: real, n: real)
    requires 0.0 < n && 0.0 <= x * n
    ensures 0.0 <= x
  {
  }

  /** A non-empty list whose items are all at least lo has a mean of at least lo. */
  lemma MeanAtLeast(s: seq<real>, lo: real)
    requires s != []
    requires forall i :: 0 <= i < |s| ==> lo <= s[i]
    ensures lo <= Mean(s).value
  {
    SumAtLeast(s, lo);
    var n := |s| as real;
    assert (Mean(s).value - lo) * n == Sum(s) - n * lo >= 0.0;
  }

  lemma {:induction false} SumAtLeast(s: seq<real>, lo: real)
    requires forall i :: 0 <= i < |s| ==> lo <= s[i]
    ensures (|s| as real) * lo <= Sum(s)
    decreases |s|
  {
    if s != [] {
      SumAtLeast(s[..|s| - 1], lo);
    }
  }

  /**
   * The running mean obeys the usual update rule: the mean of the first k+2
   * items is the previous mean, weighted by k+1, plus the new item, over k+2.
   */
  lemma MovingAverageStep(s: seq<real>, k: nat)
    requires k + 1 < |s|
    ensures MovingAverage(s)[k + 1].value * ((k + 2) as real)
         == MovingAverage(s)[k].value * ((k + 1) as real) + s[k + 1]
  {
    assert s[..k + 2][..k + 1] == s[..k + 1];
  }

  /** The last entry of the moving average is the mean of the whole list. */
  lemma MovingAverageLast(s: seq<real>)
    requires s != []
    ensures MovingAverage(s)[|s| - 1] == Mean(s)
  {
    assert s[..|s|] == s;
  }

  /** Each entry depends only on the items up to it. */
  lemma MovingAveragePrefix(s: seq<real>, j: nat)
    requires j <= |s|
    ensures MovingAverage(s[..j]) == MovingAverage(s)[..j]
  {
    forall k | 0 <= k < j
      ensures MovingAverage(s[..j])[k] == MovingAverage(s)[k]
    {
      assert s[..j][..k + 1] == s[..k + 1];
    }
  }
}
