/** The running averages of `strategies/technical_features.py` in closed form: each is a sum of the
    values so far with fixed weights that add up to one, equal within the warm-up and decaying by a
    constant factor after it. */
module Averages {
  import opened Contracts
  import opened Indicators

  /** A product the proofs do not look into. */
  function Times(a: real, b: real): real {
    a * b
  }

  function Power(x: real, n: nat): real {
    if n == 0 then 1.0 else Power(x, n - 1) * x
  }

  /** The weight of value `i` among `n`, for a smoothing factor `alpha` after `period` values. */
  function Weight(n: nat, period: nat, alpha: real, i: nat): real
    requires 1 <= period <= n && i < n
  {
    if i < period then Power(1.0 - alpha, n - period) / period as real else alpha * Power(1.0 - alpha, n - 1 - i)
  }

  /** The first `k` values of a series, weighted. */
  function Weighted(values: seq<real>, period: nat, alpha: real, k: nat): real
    requires 1 <= period <= |values| && k <= |values|
  {
    if k == 0 then 0.0
    else Weighted(values, period, alpha, k - 1) + Times(Weight(|values|, period, alpha, k - 1), values[k - 1])
  }

  function WeightSum(n: nat, period: nat, alpha: real, k: nat): real
    requires 1 <= period <= n && k <= n
  {
    if k == 0 then 0.0 else WeightSum(n, period, alpha, k - 1) + Weight(n, period, alpha, k - 1)
  }

  function EmaFactor(period: nat): real {
    2.0 / (period + 1) as real
  }

  function WilderFactor(period: nat): real
    requires period >= 1
  {
    1.0 / period as real
  }

  // ---------------------------------------------------------------------------------
  // One more value
  // ---------------------------------------------------------------------------------

  lemma {:induction false} QuotientScales(x: real, k: real, d: real)
    requires d != 0.0
    ensures x * k / d == x / d * k
  {}

  lemma {:induction false} WeightDecays(n: nat, period: nat, alpha: real, i: nat)
    requires 1 <= period <= n && i < n
    ensures Weight(n + 1, period, alpha, i) == Times(1.0 - alpha, Weight(n, period, alpha, i))
  {
    var keep := 1.0 - alpha;
    if i < period {
      var power := Power(keep, n - period);
      assert Power(keep, n + 1 - period) == power * keep;
      QuotientScales(power, keep, period as real);
    } else {
      assert Power(keep, n - i) == Power(keep, n - 1 - i) * keep;
      Rotated(alpha, Power(keep, n - 1 - i), keep);
    }
  }

  lemma {:induction false} Rotated(a: real, b: real, c: real)
    ensures a * (b * c) == c * (a * b)
  {}

  lemma {:induction false} LatestWeight(n: nat, period: nat, alpha: real)
    requires 1 <= period <= n
    ensures Weight(n + 1, period, alpha, n) == alpha
  {}

  lemma {:induction false} Decayed(keep: real, sum: real, weight: real, value: real)
    ensures Times(keep, sum) + Times(Times(keep, weight), value) == Times(keep, sum + Times(weight, value))
  {
    assert (keep * weight) * value == keep * (weight * value);
  }

  lemma {:induction false} Distributed(keep: real, sum: real, weight: real)
    ensures Times(keep, sum) + Times(keep, weight) == Times(keep, sum + weight) && Times(keep, 0.0) == 0.0
  {}

  lemma {:induction false} OlderDecay(values: seq<real>, period: nat, alpha: real, k: nat)
    requires 1 <= period < |values| && k < |values|
    ensures Weighted(values, period, alpha, k)
            == Times(1.0 - alpha, Weighted(values[..|values| - 1], period, alpha, k))
  {
    hide Weight, Times;
    if k == 0 {
      Distributed(1.0 - alpha, 0.0, 0.0);
    } else {
      var n := |values| - 1;
      OlderDecay(values, period, alpha, k - 1);
      WeightDecays(n, period, alpha, k - 1);
      Decayed(1.0 - alpha, Weighted(values[..n], period, alpha, k - 1), Weight(n, period, alpha, k - 1), values[k - 1]);
    }
  }

  /** A value more moves the weighted sum towards it by the factor. */
  lemma {:induction false} WeightedStep(values: seq<real>, period: nat, alpha: real)
    requires 1 <= period < |values|
    ensures var n := |values| - 1;
            var before := Weighted(values[..n], period, alpha, n);
            Weighted(values, period, alpha, n + 1) == before + Times(alpha, values[n] - before)
  {
    hide Weight, Times;
    var n := |values| - 1;
    OlderDecay(values, period, alpha, n);
    LatestWeight(n, period, alpha);
    Moved(alpha, Weighted(values[..n], period, alpha, n), values[n]);
  }

  lemma {:induction false} Moved(alpha: real, before: real, value: real)
    ensures Times(1.0 - alpha, before) + Times(alpha, value) == before + Times(alpha, value - before)
  {}

  lemma {:induction false} EqualWeights(values: seq<real>, alpha: real, k: nat)
    requires values != [] && k <= |values|
    ensures Weighted(values, |values|, alpha, k) == SumOf(values[..k]) / |values| as real
  {
    if k > 0 {
      EqualWeights(values, alpha, k - 1);
      assert values[..k][..k - 1] == values[..k - 1];
      Shared(SumOf(values[..k - 1]), values[k - 1], |values| as real);
    }
  }

  lemma {:induction false} Shared(sum: real, value: real, d: real)
    requires d != 0.0
    ensures sum / d + 1.0 / d * value == (sum + value) / d
  {}

  // ---------------------------------------------------------------------------------
  // The two averages
  // ---------------------------------------------------------------------------------

  lemma {:induction false} WilderMoves(previous: real, value: real, period: nat)
    requires period >= 1
    ensures WilderStep(previous, value, period) == previous + Times(WilderFactor(period), value - previous)
  {
    var p := period as real;
    assert (period - 1) as real == p - 1.0;
    Averaged(previous, value, p);
  }

  lemma {:induction false} Averaged(previous: real, value: real, p: real)
    requires p != 0.0
    ensures (previous * (p - 1.0) + value) / p == previous + 1.0 / p * (value - previous)
  {
    assert previous * (p - 1.0) == previous * p - previous;
    assert (previous * p) / p == previous;
  }

  /** Main result: the exponential average of any series is the weighted sum of all its values, the
      first `period` of them alike, the later ones fading by (period - 1) / (period + 1) a bar. */
  lemma {:induction false} EmaIsWeightedSum(values: seq<real>, period: nat)
    requires 1 <= period <= |values|
    ensures EmaLast(values, period) == Some(Weighted(values, period, EmaFactor(period), |values|))
  {
    hide Weighted, EmaFactor, EmaStep, SumOf, Times;
    var n := |values| - 1;
    if |values| == period {
      EqualWeights(values, EmaFactor(period), |values|);
      assert values[..|values|] == values;
    } else {
      EmaIsWeightedSum(values[..n], period);
      WeightedStep(values, period, EmaFactor(period));
      EmaMoves(EmaLast(values[..n], period).value, values[n], period);
      assert EmaLast(values[..n], period).value == Weighted(values[..n], period, EmaFactor(period), n);
    }
  }

  lemma {:induction false} EmaMoves(previous: real, value: real, period: nat)
    ensures EmaStep(previous, value, period) == previous + Times(EmaFactor(period), value - previous)
  {}

  /** Main result: the Wilder average likewise, fading by (period - 1) / period. */
  lemma {:induction false} WilderIsWeightedSum(values: seq<real>, period: nat)
    requires 1 <= period <= |values|
    ensures WilderLast(values, period) == Some(Weighted(values, period, WilderFactor(period), |values|))
  {
    hide Weighted, WilderFactor, WilderStep, SumOf, Times;
    var n := |values| - 1;
    if |values| == period {
      EqualWeights(values, WilderFactor(period), |values|);
      assert values[..|values|] == values;
    } else {
      WilderIsWeightedSum(values[..n], period);
      WeightedStep(values, period, WilderFactor(period));
      WilderMoves(WilderLast(values[..n], period).value, values[n], period);
      assert WilderLast(values[..n], period).value == Weighted(values[..n], period, WilderFactor(period), n);
    }
  }

  lemma {:induction false} SumDecays(n: nat, period: nat, alpha: real, k: nat)
    requires 1 <= period <= n && k <= n
    ensures WeightSum(n + 1, period, alpha, k) == Times(1.0 - alpha, WeightSum(n, period, alpha, k))
  {
    hide Weight, Times;
    if k == 0 {
      Distributed(1.0 - alpha, 0.0, 0.0);
    } else {
      SumDecays(n, period, alpha, k - 1);
      WeightDecays(n, period, alpha, k - 1);
      Distributed(1.0 - alpha, WeightSum(n, period, alpha, k - 1), Weight(n, period, alpha, k - 1));
    }
  }

  lemma {:induction false} EqualSum(period: nat, alpha: real, k: nat)
    requires period >= 1 && k <= period
    ensures WeightSum(period, period, alpha, k) == k as real / period as real
  {
    if k > 0 {
      EqualSum(period, alpha, k - 1);
      assert k as real == (k - 1) as real + 1.0;
      Shared((k - 1) as real, 1.0, period as real);
    }
  }

  /** The weights add up to one. */
  lemma {:induction false} WeightsAddToOne(n: nat, period: nat, alpha: real)
    requires 1 <= period <= n
    ensures WeightSum(n, period, alpha, n) == 1.0
  {
    if n == period {
      EqualSum(period, alpha, period);
    } else {
      hide Weight;
      WeightsAddToOne(n - 1, period, alpha);
      SumDecays(n - 1, period, alpha, n - 1);
      LatestWeight(n - 1, period, alpha);
    }
  }
}
