/**
 * Exponentially weighted moving averages, as pandas `ewm(span=S).mean()`
 * computes them on a column without NaN, with smoothing factor
 * alpha = 2 / (S + 1).
 */
module Ewm {
  import opened RealArith

  /** The smoothing factor of a span; pandas refuses spans below 1. */
  function Alpha(span: nat): (alpha: real)
    requires span >= 1
    ensures 0.0 < alpha <= 1.0
  {
    2.0 / (span as real + 1.0)
  }

  /** One smoothing step: the new value blended into the previous average. */
  function Blend(alpha: real, x: real, prev: real): real
  {
    alpha * x + (1.0 - alpha) * prev
  }

  /**
   * `adjust=False`: the first value seeds the average and every later
   * value is blended in with weight alpha.
   */
  function EmaRecursive(xs: seq<real>, alpha: real): (r: seq<real>)
    ensures |r| == |xs|
    decreases |xs|
  {
    if |xs| <= 1 then xs
    else
      var prev := EmaRecursive(xs[..|xs| - 1], alpha);
      prev + [Blend(alpha, xs[|xs| - 1], prev[|prev| - 1])]
  }

  /** Numerator of the `adjust=True` average: sum of beta^i * x[t-i]. */
  function WeightedSum(xs: seq<real>, beta: real): real
    decreases |xs|
  {
    if xs == [] then 0.0 else xs[|xs| - 1] + beta * WeightedSum(xs[..|xs| - 1], beta)
  }

  /** Denominator of the `adjust=True` average: sum of beta^i for i < k. */
  function WeightTotal(k: nat, beta: real): (d: real)
    requires 0.0 <= beta
    ensures k >= 1 ==> d >= 1.0
    ensures k == 0 ==> d == 0.0
  {
    if k == 0 then 0.0 else 1.0 + beta * WeightTotal(k - 1, beta)
  }

  /**
   * `adjust=True` (the pandas default): value t is the average of
   * x[0..t] weighted by (1-alpha)^(t-i).
   */
  function EmaAdjusted(xs: seq<real>, alpha: real): (r: seq<real>)
    requires 0.0 < alpha <= 1.0
    ensures |r| == |xs|
  {
    seq(|xs|, t requires 0 <= t < |xs| =>
      WeightedSum(xs[..t + 1], 1.0 - alpha) / WeightTotal(t + 1, 1.0 - alpha))
  }

  // ---------------------------------------------------------------
  // Lemmas
  // ---------------------------------------------------------------

  /** The recursive average of a prefix is the prefix of the recursive average. */
  lemma {:induction false} EmaRecursivePrefix(xs: seq<real>, alpha: real, k: nat)
    requires k <= |xs|
    ensures EmaRecursive(xs[..k], alpha) == EmaRecursive(xs, alpha)[..k]
    decreases |xs|
  {
    if k < |xs| {
      var init := xs[..|xs| - 1];
      assert xs[..k] == init[..k];
      EmaRecursivePrefix(init, alpha, k);
      if |xs| > 1 {
        assert EmaRecursive(xs, alpha)[..|xs| - 1] == EmaRecursive(init, alpha);
      }
    } else {
      assert xs[..k] == xs;
    }
  }

  /**
   * The `adjust=False` recursion: ema[0] = x[0] and
   * ema[t] = alpha * x[t] + (1 - alpha) * ema[t-1].
   */
  lemma EmaRecurrence(xs: seq<real>, alpha: real, t: nat)
    requires t < |xs|
    ensures t == 0 ==> EmaRecursive(xs, alpha)[0] == xs[0]
    ensures t > 0 ==>
              EmaRecursive(xs, alpha)[t] == Blend(alpha, xs[t], EmaRecursive(xs, alpha)[t - 1])
  {
    EmaRecursivePrefix(xs, alpha, t + 1);
    var p := xs[..t + 1];
    if t > 0 {
      assert p[..|p| - 1] == xs[..t];
      EmaRecursivePrefix(xs, alpha, t);
    }
  }

  lemma ConvexBetween(alpha: real, x: real, y: real, lo: real, hi: real)
    requires 0.0 < alpha <= 1.0
    requires lo <= x <= hi && lo <= y <= hi
    ensures lo <= Blend(alpha, x, y) <= hi
  {
    NonNegMul(alpha, x - lo);
    NonNegMul(1.0 - alpha, y - lo);
    NonNegMul(alpha, hi - x);
    NonNegMul(1.0 - alpha, hi - y);
    assert alpha * x + (1.0 - alpha) * y - lo == alpha * (x - lo) + (1.0 - alpha) * (y - lo);
    assert hi - (alpha * x + (1.0 - alpha) * y) == alpha * (hi - x) + (1.0 - alpha) * (hi - y);
  }

  /** The `adjust=False` average at t lies between any bounds of x[0..t]. */
  lemma {:induction false} EmaRecursiveWithin(xs: seq<real>, alpha: real, lo: real, hi: real, t: nat)
    requires 0.0 < alpha <= 1.0 && t < |xs|
    requires forall j :: 0 <= j <= t ==> lo <= xs[j] <= hi
    ensures lo <= EmaRecursive(xs, alpha)[t] <= hi
  {
    EmaRecurrence(xs, alpha, t);
    if t > 0 {
      EmaRecursiveWithin(xs, alpha, lo, hi, t - 1);
      ConvexBetween(alpha, xs[t], EmaRecursive(xs, alpha)[t - 1], lo, hi);
    }
  }

  /** Hence it lies between the minimum and the maximum of x[0..t]. */
  lemma EmaRecursiveBetweenMinMax(xs: seq<real>, alpha: real, t: nat)
    requires 0.0 < alpha <= 1.0 && t < |xs|
    ensures exists i :: 0 <= i <= t && xs[i] <= EmaRecursive(xs, alpha)[t]
    ensures exists i :: 0 <= i <= t && EmaRecursive(xs, alpha)[t] <= xs[i]
  {
    var lo, hi := MinIndex(xs, t), MaxIndex(xs, t);
    EmaRecursiveWithin(xs, alpha, xs[lo], xs[hi], t);
  }

  /** An index of a smallest value among x[0..t]. */
  function MinIndex(xs: seq<real>, t: nat): (k: nat)
    requires t < |xs|
    ensures k <= t && forall j :: 0 <= j <= t ==> xs[k] <= xs[j]
  {
    if t == 0 then 0
    else var k := MinIndex(xs, t - 1); if xs[t] < xs[k] then t else k
  }

  /** An index of a largest value among x[0..t]. */
  function MaxIndex(xs: seq<real>, t: nat): (k: nat)
    requires t < |xs|
    ensures k <= t && forall j :: 0 <= j <= t ==> xs[j] <= xs[k]
  {
    if t == 0 then 0
    else var k := MaxIndex(xs, t - 1); if xs[t] > xs[k] then t else k
  }

  lemma StepAbove(x: real, n: real, d: real, beta: real, lo: real, sum: real, total: real)
    requires 0.0 <= beta && lo * d <= n && lo <= x
    requires sum == x + beta * n && total == 1.0 + beta * d
    ensures lo * total <= sum
  {
    MulLe(beta, lo * d, n);
    assert lo * total == lo + beta * (lo * d);
  }

  lemma StepBelow(x: real, n: real, d: real, beta: real, hi: real, sum: real, total: real)
    requires 0.0 <= beta && n <= hi * d && x <= hi
    requires sum == x + beta * n && total == 1.0 + beta * d
    ensures sum <= hi * total
  {
    MulLe(beta, n, hi * d);
    assert hi * total == hi + beta * (hi * d);
  }

  lemma {:induction false} WeightedSumAbove(xs: seq<real>, beta: real, lo: real)
    requires 0.0 <= beta
    requires forall j :: 0 <= j < |xs| ==> lo <= xs[j]
    ensures lo * WeightTotal(|xs|, beta) <= WeightedSum(xs, beta)
    decreases |xs|
  {
    if xs == [] {
      var z := WeightTotal(|xs|, beta);
      assert z == 0.0 && lo * z == 0.0;
    } else {
      var init := xs[..|xs| - 1];
      assert forall j :: 0 <= j < |init| ==> init[j] == xs[j];
      WeightedSumAbove(init, beta, lo);
      StepAbove(xs[|xs| - 1], WeightedSum(init, beta), WeightTotal(|init|, beta), beta, lo,
                WeightedSum(xs, beta), WeightTotal(|xs|, beta));
    }
  }

  lemma {:induction false} WeightedSumBelow(xs: seq<real>, beta: real, hi: real)
    requires 0.0 <= beta
    requires forall j :: 0 <= j < |xs| ==> xs[j] <= hi
    ensures WeightedSum(xs, beta) <= hi * WeightTotal(|xs|, beta)
    decreases |xs|
  {
    if xs == [] {
      var z := WeightTotal(|xs|, beta);
      assert z == 0.0 && hi * z == 0.0;
    } else {
      var init := xs[..|xs| - 1];
      assert forall j :: 0 <= j < |init| ==> init[j] == xs[j];
      WeightedSumBelow(init, beta, hi);
      StepBelow(xs[|xs| - 1], WeightedSum(init, beta), WeightTotal(|init|, beta), beta, hi,
                WeightedSum(xs, beta), WeightTotal(|xs|, beta));
    }
  }

  /**
   * The `adjust=True` recurrence: scaled by its total weight, the average at
   * t is the new value plus the decayed, scaled average at t-1.
   */
  lemma EmaAdjustedRecurrence(xs: seq<real>, alpha: real, t: nat)
    requires 0.0 < alpha <= 1.0 && 0 < t < |xs|
    ensures EmaAdjusted(xs, alpha)[t] * WeightTotal(t + 1, 1.0 - alpha) ==
            xs[t] + (1.0 - alpha) * (EmaAdjusted(xs, alpha)[t - 1] * WeightTotal(t, 1.0 - alpha))
  {
    var beta := 1.0 - alpha;
    var p := xs[..t + 1];
    assert p[..|p| - 1] == xs[..t];
    assert WeightedSum(p, beta) == xs[t] + beta * WeightedSum(xs[..t], beta);
    QuotientTimes(WeightedSum(p, beta), WeightTotal(t + 1, beta));
    QuotientTimes(WeightedSum(xs[..t], beta), WeightTotal(t, beta));
  }

  /** The `adjust=True` average at t is a weighted mean, so it lies between any bounds of x[0..t]. */
  lemma EmaAdjustedWithin(xs: seq<real>, alpha: real, lo: real, hi: real, t: nat)
    requires 0.0 < alpha <= 1.0 && t < |xs|
    requires forall j :: 0 <= j <= t ==> lo <= xs[j] <= hi
    ensures lo <= EmaAdjusted(xs, alpha)[t] <= hi
  {
    var p := xs[..t + 1];
    assert forall j :: 0 <= j < |p| ==> p[j] == xs[j];
    assert EmaAdjusted(xs, alpha)[t] == WeightedSum(p, 1.0 - alpha) / WeightTotal(|p|, 1.0 - alpha);
    WeightedMeanWithin(p, 1.0 - alpha, lo, hi);
  }

  /** A weighted mean with non-negative weights lies between any bounds of its values. */
  lemma WeightedMeanWithin(p: seq<real>, beta: real, lo: real, hi: real)
    requires 0.0 <= beta && |p| > 0
    requires forall j :: 0 <= j < |p| ==> lo <= p[j] <= hi
    ensures lo <= WeightedSum(p, beta) / WeightTotal(|p|, beta) <= hi
  {
    WeightedMeanAbove(p, beta, lo);
    WeightedMeanBelow(p, beta, hi);
  }

  lemma WeightedMeanAbove(p: seq<real>, beta: real, lo: real)
    requires 0.0 <= beta && |p| > 0
    requires forall j :: 0 <= j < |p| ==> lo <= p[j]
    ensures lo <= WeightedSum(p, beta) / WeightTotal(|p|, beta)
  {
    WeightedSumAbove(p, beta, lo);
    DivAbove(WeightedSum(p, beta), WeightTotal(|p|, beta), lo);
  }

  lemma WeightedMeanBelow(p: seq<real>, beta: real, hi: real)
    requires 0.0 <= beta && |p| > 0
    requires forall j :: 0 <= j < |p| ==> p[j] <= hi
    ensures WeightedSum(p, beta) / WeightTotal(|p|, beta) <= hi
  {
    WeightedSumBelow(p, beta, hi);
    DivBelow(WeightedSum(p, beta), WeightTotal(|p|, beta), hi);
  }

  /** Both averages are seeded by the first observation. */
  lemma EmaFirst(xs: seq<real>, alpha: real)
    requires 0.0 < alpha <= 1.0 && |xs| > 0
    ensures EmaRecursive(xs, alpha)[0] == xs[0]
    ensures EmaAdjusted(xs, alpha)[0] == xs[0]
  {
    EmaRecurrence(xs, alpha, 0);
    var p := xs[..1];
    assert p[..0] == [];
    assert WeightedSum(p, 1.0 - alpha) == xs[0];
  }
}
