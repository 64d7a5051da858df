/**
 * Exact real arithmetic standing in for Python's float built-ins, and the shape
 * of the one float statistic (a pandas rolling standard deviation) that the core
 * consumes without interpreting it.
 */
module Numerics {

  type NonNegReal = r: real | r >= 0.0

  /** The last value of a rolling standard deviation: a finite, non-negative
      number, or NaN/inf (pandas yields NaN when the window is incomplete). */
  datatype StdEstimate = Finite(value: NonNegReal) | NonFinite

  /** Python's min(a, b): the first argument unless the second is smaller. */
  function Min(a: real, b: real): (m: real)
    ensures m <= a && m <= b
    ensures m == a || m == b
  {
    if b < a then b else a
  }

  /** Python's max(a, b): the first argument unless the second is larger. */
  function Max(a: real, b: real): (m: real)
    ensures m >= a && m >= b
    ensures m == a || m == b
  {
    if b > a then b else a
  }

  /** x clamped into [lo, hi], the upper bound applied first. */
  function Clamp(x: real, lo: real, hi: real): (c: real)
    requires lo <= hi
    ensures lo <= c <= hi
    ensures lo <= x <= hi ==> c == x
  {
    Max(lo, Min(x, hi))
  }

  function Pow(x: real, n: nat): (p: real)
    ensures x > 0.0 ==> p > 0.0
  {
    if n == 0 then 1.0 else x * Pow(x, n - 1)
  }

  /** Python's sum() over a list, accumulated left to right. */
  function Sum(xs: seq<real>): real
  {
    if xs == [] then 0.0 else Sum(xs[..|xs| - 1]) + xs[|xs| - 1]
  }

  function SeqMin(xs: seq<real>): (m: real)
    requires xs != []
    ensures forall i :: 0 <= i < |xs| ==> m <= xs[i]
    ensures exists i :: 0 <= i < |xs| && m == xs[i]
  {
    if |xs| == 1 then xs[0]
    else
      var rest := SeqMin(xs[..|xs| - 1]);
      assert forall i :: 0 <= i < |xs| - 1 ==> xs[..|xs| - 1][i] == xs[i];
      Min(rest, xs[|xs| - 1])
  }

  function SeqMax(xs: seq<real>): (m: real)
    requires xs != []
    ensures forall i :: 0 <= i < |xs| ==> m >= xs[i]
    ensures exists i :: 0 <= i < |xs| && m == xs[i]
  {
    if |xs| == 1 then xs[0]
    else
      var rest := SeqMax(xs[..|xs| - 1]);
      assert forall i :: 0 <= i < |xs| - 1 ==> xs[..|xs| - 1][i] == xs[i];
      Max(rest, xs[|xs| - 1])
  }

  /** The arithmetic mean of a non-empty list. */
  function Mean(xs: seq<real>): (m: real)
    requires xs != []
    ensures (forall i :: 0 <= i < |xs| ==> xs[i] > 0.0) ==> m > 0.0
    ensures (forall i :: 0 <= i < |xs| ==> xs[i] >= 0.0) ==> (m > 0.0 <==> Sum(xs) != 0.0)
  {
    var n := |xs| as real;
    if forall i :: 0 <= i < |xs| ==> xs[i] >= 0.0 then
      SumNonNegative(xs);
      if Sum(xs) > 0.0 then
        QuotientAbove(Sum(xs), n, 0.0);
        Sum(xs) / n
      else
        Sum(xs) / n
    else
      Sum(xs) / n
  }

  // Arithmetic helpers: small facts about real division and products that
  // the proofs elsewhere invoke as solver hints.

  /** x < k * m with m > 0 bounds the quotient x / m above by k. */
  lemma QuotientBelow(x: real, m: real, k: real)
    requires m > 0.0 && x < k * m
    ensures x / m < k
  {
  }

  /** x > k * m with m > 0 bounds the quotient x / m below by k. */
  lemma QuotientAbove(x: real, m: real, k: real)
    requires m > 0.0 && x > k * m
    ensures x / m > k
  {
  }

  /** Dividing by a non-zero number and multiplying back gives the dividend. */
  lemma DivideThenMultiply(x: real, d: real)
    requires d != 0.0
    ensures x / d * d == x
  {
  }

  /** A zero factor makes a zero product. */
  lemma ZeroFactor(a: real, b: real)
    ensures a == 0.0 || b == 0.0 ==> a * b == 0.0
  {
  }

  /** A fraction of a non-negative amount lies between zero and the amount. */
  lemma FractionOf(a: real, f: real)
    requires a >= 0.0 && 0.0 <= f <= 1.0
    ensures 0.0 <= a * f <= a
  {
  }

  /** A quotient by a positive divisor keeps the bounds its dividend has
      relative to that divisor. */
  lemma QuotientBetween(x: real, s: real, lo: real, hi: real)
    requires s > 0.0 && lo * s <= x <= hi * s
    ensures lo <= x / s <= hi
  {
  }

  /** Scaling by a non-negative weight keeps the order of bounds. */
  lemma ScaleBetween(x: real, w: real, lo: real, hi: real)
    requires w >= 0.0 && lo <= x <= hi
    ensures lo * w <= x * w <= hi * w
  {
  }

  /** The dot product of values and weights, accumulated left to right. */
  function WeightedSum(xs: seq<real>, ws: seq<real>): real
    requires |xs| == |ws|
  {
    if xs == [] then 0.0
    else WeightedSum(xs[..|xs| - 1], ws[..|ws| - 1]) + xs[|xs| - 1] * ws[|ws| - 1]
  }

  /** Extending both lists by one element adds that element's product to the
      dot product and its weight to the sum. */
  lemma WeightedSumStep(xs: seq<real>, ws: seq<real>, j: nat)
    requires |xs| == |ws| && j < |xs|
    ensures WeightedSum(xs[..j + 1], ws[..j + 1]) == WeightedSum(xs[..j], ws[..j]) + xs[j] * ws[j]
    ensures Sum(ws[..j + 1]) == Sum(ws[..j]) + ws[j]
  {
    assert xs[..j + 1][..j] == xs[..j] && ws[..j + 1][..j] == ws[..j];
  }

  /** Values between lo and hi, weighted by non-negative weights, sum to between
      lo and hi times the total weight. */
  lemma WeightedSumBetween(xs: seq<real>, ws: seq<real>, lo: real, hi: real)
    requires |xs| == |ws|
    requires forall i :: 0 <= i < |ws| ==> ws[i] >= 0.0
    requires forall i :: 0 <= i < |xs| ==> lo <= xs[i] <= hi
    ensures lo * Sum(ws) <= WeightedSum(xs, ws) <= hi * Sum(ws)
  {
    WeightedSumAtLeast(xs, ws, lo);
    WeightedSumAtMost(xs, ws, hi);
  }

  /** The lower half of WeightedSumBetween. */
  lemma {:induction false} WeightedSumAtLeast(xs: seq<real>, ws: seq<real>, lo: real)
    requires |xs| == |ws|
    requires forall i :: 0 <= i < |ws| ==> ws[i] >= 0.0
    requires forall i :: 0 <= i < |xs| ==> lo <= xs[i]
    ensures lo * Sum(ws) <= WeightedSum(xs, ws)
  {
    if xs != [] {
      var n := |xs| - 1;
      WeightedSumAtLeast(xs[..n], ws[..n], lo);
      SumsSplitLast(xs, ws, n);
      AddScaled(lo, Sum(ws[..n]), WeightedSum(xs[..n], ws[..n]), ws[n], xs[n], Sum(ws));
    }
  }

  /** The upper half of WeightedSumBetween. */
  lemma {:induction false} WeightedSumAtMost(xs: seq<real>, ws: seq<real>, hi: real)
    requires |xs| == |ws|
    requires forall i :: 0 <= i < |ws| ==> ws[i] >= 0.0
    requires forall i :: 0 <= i < |xs| ==> xs[i] <= hi
    ensures WeightedSum(xs, ws) <= hi * Sum(ws)
  {
    if xs != [] {
      var n := |xs| - 1;
      WeightedSumAtMost(xs[..n], ws[..n], hi);
      SumsSplitLast(xs, ws, n);
      AddScaled(-hi, Sum(ws[..n]), -WeightedSum(xs[..n], ws[..n]), ws[n], -xs[n], Sum(ws));
    }
  }

  /** Both sums peel off their last term. */
  lemma SumsSplitLast(xs: seq<real>, ws: seq<real>, n: nat)
    requires |xs| == |ws| && n + 1 == |xs|
    ensures Sum(ws) == Sum(ws[..n]) + ws[n]
    ensures WeightedSum(xs, ws) == WeightedSum(xs[..n], ws[..n]) + xs[n] * ws[n]
  {
  }

  /** Arithmetic helper: one more term x * w with x at least k keeps a sum
      at least k times its weight. */
  lemma AddScaled(k: real, s: real, v: real, w: real, x: real, total: real)
    requires k * s <= v && w >= 0.0 && k <= x && total == s + w
    ensures k * total <= v + x * w
  {
    assert k * w <= x * w;
  }

  /** The weighted mean of values, which lies between the
      smallest and the largest value when every weight is positive. */
  function WeightedAverage(xs: seq<real>, ws: seq<real>): (avg: real)
    requires |xs| == |ws| && xs != []
    requires forall i :: 0 <= i < |ws| ==> ws[i] > 0.0
    ensures SeqMin(xs) <= avg <= SeqMax(xs)
  {
    SumPositive(ws);
    WeightedSumBetween(xs, ws, SeqMin(xs), SeqMax(xs));
    QuotientBetween(WeightedSum(xs, ws), Sum(ws), SeqMin(xs), SeqMax(xs));
    WeightedSum(xs, ws) / Sum(ws)
  }

  /** Every element of a list is strictly positive, so is its sum. */
  lemma {:induction false} SumPositive(xs: seq<real>)
    requires xs != []
    requires forall i :: 0 <= i < |xs| ==> xs[i] > 0.0
    ensures Sum(xs) > 0.0
  {
    if |xs| > 1 {
      SumPositive(xs[..|xs| - 1]);
    }
  }

  /** A list of non-negative numbers has a non-negative sum, which is zero
      only when every element is zero. */
  lemma {:induction false} SumNonNegative(xs: seq<real>)
    requires forall i :: 0 <= i < |xs| ==> xs[i] >= 0.0
    ensures Sum(xs) >= 0.0
    ensures Sum(xs) == 0.0 <==> forall i :: 0 <= i < |xs| ==> xs[i] == 0.0
  {
    if xs != [] {
      var init := xs[..|xs| - 1];
      assert forall i :: 0 <= i < |init| ==> init[i] == xs[i];
      SumNonNegative(init);
    }
  }
}
