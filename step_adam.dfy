/** One Adam update (step_adam in ceviche/optimizers.py): exponentially decayed
    first and second moments of the gradient, their bias corrections, and the
    step that the driver scales by the learning rate. */
module Adam {
  import opened RealMath

  /** An exponential decay rate, as Adam needs it for bias correction. */
  predicate IsDecayRate(beta: real)
  {
    0.0 <= beta < 1.0
  }

  /** The result of step_adam: the step and the new, uncorrected moments. */
  datatype AdamUpdate = AdamUpdate(step: seq<real>, m: seq<real>, v: seq<real>)

  /** beta1 * mopt_old + (1 - beta1) * g */
  function FirstMoment(mOld: real, g: real, beta1: real): real
  {
    beta1 * mOld + (1.0 - beta1) * g
  }

  /** beta2 * vopt_old + (1 - beta2) * g^2 */
  function SecondMoment(vOld: real, g: real, beta2: real): real
  {
    beta2 * vOld + (1.0 - beta2) * (g * g)
  }

  /** For beta1 in [0, 1] the new first moment is a weighted mean: it lies
      between the old moment and the gradient. */
  lemma FirstMomentBetween(mOld: real, g: real, beta1: real)
    requires 0.0 <= beta1 <= 1.0
    ensures Between(FirstMoment(mOld, g, beta1), mOld, g)
  {
    WeightedMean(mOld, g, beta1, FirstMoment(mOld, g, beta1));
  }

  /** For beta2 in [0, 1] the new second moment lies between the old one and
      the squared gradient. */
  lemma SecondMomentBetween(vOld: real, g: real, beta2: real)
    requires 0.0 <= beta2 <= 1.0
    ensures Between(SecondMoment(vOld, g, beta2), vOld, g * g)
  {
    WeightedMean(vOld, g * g, beta2, SecondMoment(vOld, g, beta2));
  }

  /** 1 - beta^t: the weight that t decayed updates from zero give in total to
      a signal that stays constant. */
  function Retained(beta: real, t: nat): real
  {
    1.0 - Pow(beta, t)
  }

  /** The bias-correction denominator 1 - beta^(iteration+1), never zero for a
      decay rate. */
  function CorrectionDenominator(beta: real, iteration: nat): (d: real)
    requires IsDecayRate(beta)
    ensures 0.0 < d <= 1.0
  {
    Retained(beta, iteration + 1)
  }

  /** x / (1 - beta^(iteration+1)) */
  function BiasCorrected(x: real, beta: real, iteration: nat): (c: real)
    requires IsDecayRate(beta)
    ensures c * CorrectionDenominator(beta, iteration) == x
    ensures x >= 0.0 ==> c >= x
  {
    x / CorrectionDenominator(beta, iteration)
  }

  /** A non-negative moment stays non-negative after bias correction. */
  lemma {:induction false} BiasCorrectedNonNegative(x: real, beta: real, iteration: nat)
    requires IsDecayRate(beta) && x >= 0.0
    ensures BiasCorrected(x, beta, iteration) >= 0.0
  {
    var d := CorrectionDenominator(beta, iteration);
    assert BiasCorrected(x, beta, iteration) * d == x;
  }

  /** The step denominator sqrt(vt) + epsilon, positive for vt >= 0. */
  function StepDenominator(vt: real, epsilon: real, sqrt: real -> real): (d: real)
    requires IsSqrt(sqrt) && vt >= 0.0 && epsilon > 0.0
    ensures d >= epsilon > 0.0
  {
    sqrt(vt) + epsilon
  }

  /** One component of step_adam: it has the sign of the new first moment,
      since both denominators are positive. */
  function StepComponent(g: real, mOld: real, vOld: real, iteration: nat,
                         beta1: real, beta2: real, epsilon: real, sqrt: real -> real): (s: real)
    requires vOld >= 0.0 && IsDecayRate(beta1) && IsDecayRate(beta2)
    requires epsilon > 0.0 && IsSqrt(sqrt)
    ensures s > 0.0 <==> FirstMoment(mOld, g, beta1) > 0.0
    ensures s < 0.0 <==> FirstMoment(mOld, g, beta1) < 0.0
  {
    var m := FirstMoment(mOld, g, beta1);
    var mt := BiasCorrected(m, beta1, iteration);
    var v := SecondMoment(vOld, g, beta2);
    assert v >= 0.0 by { SecondMomentNonNegative(vOld, g, beta2); }
    var vt := BiasCorrected(v, beta2, iteration);
    assert vt >= 0.0 by { BiasCorrectedNonNegative(v, beta2, iteration); }
    var d := StepDenominator(vt, epsilon, sqrt);
    assert (mt > 0.0 <==> m > 0.0) && (mt < 0.0 <==> m < 0.0) by {
      QuotientSign(m, CorrectionDenominator(beta1, iteration), mt);
    }
    assert (mt / d > 0.0 <==> mt > 0.0) && (mt / d < 0.0 <==> mt < 0.0) by {
      QuotientSign(mt, d, mt / d);
    }
    mt / d
  }

  /** A quotient by a positive number has the sign of the dividend. */
  lemma QuotientSign(x: real, d: real, q: real)
    requires d > 0.0 && q * d == x
    ensures (q > 0.0 <==> x > 0.0) && (q < 0.0 <==> x < 0.0)
  {
    if q > 0.0 {
      assert q * d > 0.0;
    } else if q < 0.0 {
      assert (-q) * d > 0.0;
    }
  }

  /** The new second moment is non-negative whenever the old one is and
      beta2 lies in [0, 1]. */
  lemma SecondMomentNonNegative(vOld: real, g: real, beta2: real)
    requires vOld >= 0.0 && 0.0 <= beta2 <= 1.0
    ensures SecondMoment(vOld, g, beta2) >= 0.0
  {
    assert beta2 * vOld >= 0.0;
    assert (1.0 - beta2) * (g * g) >= 0.0;
  }

  /** step_adam over vectors of one length. Every division is defined: the
      correction denominators are positive and so is sqrt(vt) + epsilon. */
  function StepAdam(gradient: seq<real>, mOld: seq<real>, vOld: seq<real>, iteration: nat,
                    beta1: real, beta2: real, epsilon: real, sqrt: real -> real): (r: AdamUpdate)
    requires |mOld| == |gradient| && |vOld| == |gradient|
    requires NonNegative(vOld)
    requires IsDecayRate(beta1) && IsDecayRate(beta2)
    requires epsilon > 0.0 && IsSqrt(sqrt)
    ensures |r.step| == |gradient| && |r.m| == |gradient| && |r.v| == |gradient|
    ensures NonNegative(r.v)
    // the returned moments are the uncorrected ones: the step is computed from
    // their bias-corrected values
    ensures forall k :: 0 <= k < |gradient| ==>
      r.v[k] >= 0.0 && BiasCorrected(r.v[k], beta2, iteration) >= 0.0 &&
      r.step[k] == BiasCorrected(r.m[k], beta1, iteration)
                   / StepDenominator(BiasCorrected(r.v[k], beta2, iteration), epsilon, sqrt)
  {
    var n := |gradient|;
    var step := seq(n, k requires 0 <= k < n =>
      StepComponent(gradient[k], mOld[k], vOld[k], iteration, beta1, beta2, epsilon, sqrt));
    var m := seq(n, k requires 0 <= k < n => FirstMoment(mOld[k], gradient[k], beta1));
    var v := seq(n, k requires 0 <= k < n => SecondMoment(vOld[k], gradient[k], beta2));
    assert forall k :: 0 <= k < n ==> v[k] >= 0.0 && BiasCorrected(v[k], beta2, iteration) >= 0.0 by {
      forall k | 0 <= k < n
        ensures v[k] >= 0.0 && BiasCorrected(v[k], beta2, iteration) >= 0.0
      {
        SecondMomentNonNegative(vOld[k], gradient[k], beta2);
        BiasCorrectedNonNegative(v[k], beta2, iteration);
      }
    }
    AdamUpdate(step, m, v)
  }

  /** The moments returned by step_adam, element by element, as the source
      computes them. */
  lemma {:induction false} StepAdamMoments(gradient: seq<real>, mOld: seq<real>, vOld: seq<real>, iteration: nat,
                        beta1: real, beta2: real, epsilon: real, sqrt: real -> real)
    requires |mOld| == |gradient| && |vOld| == |gradient|
    requires NonNegative(vOld)
    requires IsDecayRate(beta1) && IsDecayRate(beta2)
    requires epsilon > 0.0 && IsSqrt(sqrt)
    ensures var r := StepAdam(gradient, mOld, vOld, iteration, beta1, beta2, epsilon, sqrt);
      forall k :: 0 <= k < |gradient| ==>
        r.m[k] == beta1 * mOld[k] + (1.0 - beta1) * gradient[k] &&
        r.v[k] == beta2 * vOld[k] + (1.0 - beta2) * (gradient[k] * gradient[k])
  {
  }

  /** Moments of the form (1 - beta^t) * g and (1 - beta^t) * g^2, the state
      after t steps with a constant gradient g that started from zero. */
  ghost predicate ConstantGradientMoments(g: seq<real>, m: seq<real>, v: seq<real>, t: nat,
                                          beta1: real, beta2: real)
  {
    m == Scale(Retained(beta1, t), g) && v == Scale(Retained(beta2, t), Squares(g))
  }

  /** A decayed update of the closed form (1 - beta^t) * x with the signal x
      gives (1 - beta^(t+1)) * x. */
  lemma {:induction false} MomentAdvance(beta: real, t: nat, x: real)
    ensures beta * (Retained(beta, t) * x) + (1.0 - beta) * x == Retained(beta, t + 1) * x
  {
    var p := Pow(beta, t);
    assert Pow(beta, t + 1) == beta * p;
    assert beta * ((1.0 - p) * x) + (1.0 - beta) * x == (1.0 - beta * p) * x;
  }

  /** Bias correction undoes the weight 1 - beta^(t+1). */
  lemma {:induction false} CorrectedRecovers(x: real, beta: real, t: nat)
    requires IsDecayRate(beta)
    ensures BiasCorrected(Retained(beta, t + 1) * x, beta, t) == x
  {
    var d := CorrectionDenominator(beta, t);
    assert d == Retained(beta, t + 1);
    CancelFactor(x, d);
    assert Retained(beta, t + 1) * x == d * x;
  }

  lemma CancelFactor(x: real, d: real)
    requires d != 0.0
    ensures (d * x) / d == x
  {
  }

  /** Bias correction of a closed-form moment (1 - beta^t) * x after one more
      update with the same signal x gives back x. */
  lemma {:induction false} CorrectedAdvance(beta: real, t: nat, x: real, mk: real)
    requires IsDecayRate(beta) && mk == Retained(beta, t) * x
    ensures FirstMoment(mk, x, beta) == Retained(beta, t + 1) * x
    ensures BiasCorrected(FirstMoment(mk, x, beta), beta, t) == x
  {
    MomentAdvance(beta, t, x);
    CorrectedRecovers(x, beta, t);
  }

  /** One component of the constant-gradient case: from the closed-form
      moments mk = (1 - beta1^t) * g and vk = (1 - beta2^t) * g^2 the update
      advances the exponent to t + 1, and the step is g / (|g| + epsilon). */
  lemma {:induction false} ConstantGradientComponent(g: real, mk: real, vk: real, t: nat,
                                                    beta1: real, beta2: real,
                                                    epsilon: real, sqrt: real -> real)
    requires IsDecayRate(beta1) && IsDecayRate(beta2)
    requires epsilon > 0.0 && IsSqrt(sqrt)
    requires mk == Retained(beta1, t) * g && vk == Retained(beta2, t) * (g * g)
    ensures vk >= 0.0
    ensures FirstMoment(mk, g, beta1) == Retained(beta1, t + 1) * g
    ensures SecondMoment(vk, g, beta2) == Retained(beta2, t + 1) * (g * g)
    ensures StepComponent(g, mk, vk, t, beta1, beta2, epsilon, sqrt) == g / (Abs(g) + epsilon)
  {
    ProductNonNegative(Retained(beta2, t), g * g);
    var m1, v1 := FirstMoment(mk, g, beta1), SecondMoment(vk, g, beta2);
    CorrectedAdvance(beta1, t, g, mk);
    CorrectedAdvance(beta2, t, g * g, vk);
    assert v1 == FirstMoment(vk, g * g, beta2);
    assert BiasCorrected(m1, beta1, t) == g;
    assert BiasCorrected(v1, beta2, t) == g * g;
    SqrtOfSquare(sqrt, g);
    assert StepDenominator(g * g, epsilon, sqrt) == Abs(g) + epsilon;
    assert StepComponent(g, mk, vk, t, beta1, beta2, epsilon, sqrt)
        == BiasCorrected(m1, beta1, t) / StepDenominator(BiasCorrected(v1, beta2, t), epsilon, sqrt);
  }

  /** Component k of step_adam applied to the closed-form moments. */
  lemma {:induction false} ConstantGradientAt(g: seq<real>, m: seq<real>, v: seq<real>, iteration: nat,
                                             beta1: real, beta2: real, epsilon: real,
                                             sqrt: real -> real, k: nat)
    requires IsDecayRate(beta1) && IsDecayRate(beta2)
    requires epsilon > 0.0 && IsSqrt(sqrt)
    requires ConstantGradientMoments(g, m, v, iteration, beta1, beta2)
    requires NonNegative(v) && k < |g|
    ensures var r := StepAdam(g, m, v, iteration, beta1, beta2, epsilon, sqrt);
      r.m[k] == Retained(beta1, iteration + 1) * g[k] &&
      r.v[k] == Retained(beta2, iteration + 1) * (g[k] * g[k]) &&
      r.step[k] == g[k] / (Abs(g[k]) + epsilon)
  {
    ConstantGradientComponent(g[k], m[k], v[k], iteration, beta1, beta2, epsilon, sqrt);
  }

  /** For a constant gradient from zero-initialised moments, one step_adam keeps
      the moments in that closed form, and bias correction recovers g and g^2
      exactly, so the step is g / (|g| + epsilon) at every iteration. */
  lemma {:induction false} ConstantGradientStep(g: seq<real>, m: seq<real>, v: seq<real>, iteration: nat,
                                               beta1: real, beta2: real, epsilon: real, sqrt: real -> real)
    requires IsDecayRate(beta1) && IsDecayRate(beta2)
    requires epsilon > 0.0 && IsSqrt(sqrt)
    requires ConstantGradientMoments(g, m, v, iteration, beta1, beta2)
    ensures |m| == |g| && |v| == |g| && NonNegative(v)
    ensures var r := StepAdam(g, m, v, iteration, beta1, beta2, epsilon, sqrt);
      ConstantGradientMoments(g, r.m, r.v, iteration + 1, beta1, beta2) &&
      forall k :: 0 <= k < |g| ==> r.step[k] == g[k] / (Abs(g[k]) + epsilon)
  {
    forall k | 0 <= k < |v| ensures v[k] >= 0.0 {
      ProductNonNegative(Retained(beta2, iteration), g[k] * g[k]);
    }
    var r := StepAdam(g, m, v, iteration, beta1, beta2, epsilon, sqrt);
    var m', v' := Scale(Retained(beta1, iteration + 1), g), Scale(Retained(beta2, iteration + 1), Squares(g));
    forall k | 0 <= k < |g|
      ensures r.m[k] == m'[k] && r.v[k] == v'[k]
      ensures r.step[k] == g[k] / (Abs(g[k]) + epsilon)
    {
      ConstantGradientAt(g, m, v, iteration, beta1, beta2, epsilon, sqrt, k);
    }
    assert r.m == m' && r.v == v';
  }

  /** g / (|g| + epsilon) has the sign of g and magnitude below 1. */
  lemma UnitRatio(g: real, epsilon: real)
    requires epsilon > 0.0
    ensures var q := g / (Abs(g) + epsilon);
      -1.0 < q < 1.0 && (g > 0.0 <==> q > 0.0) && (g < 0.0 <==> q < 0.0)
  {
    var d := Abs(g) + epsilon;
    var q := g / d;
    assert q * d == g;
    assert -d < g < d;
  }

  /** Zero moments are the closed form for t = 0. */
  lemma ZeroMoments(g: seq<real>, beta1: real, beta2: real)
    ensures ConstantGradientMoments(g, Zeros(|g|), Zeros(|g|), 0, beta1, beta2)
  {
    assert Retained(beta1, 0) == 0.0 && Retained(beta2, 0) == 0.0;
    ScaleByZero(g);
    ScaleByZero(Squares(g));
  }

  /** One update from zero keeps the weight 1 - beta. */
  lemma RetainedOnce(beta: real)
    ensures Retained(beta, 1) == 1.0 - beta
  {
    assert Pow(beta, 1) == beta * Pow(beta, 0);
  }

  /** Iteration 0 from zero moments: the step is g / (|g| + epsilon), so each
      component has the sign of the gradient and magnitude below 1. */
  lemma FirstStep(g: seq<real>, beta1: real, beta2: real, epsilon: real, sqrt: real -> real)
    requires IsDecayRate(beta1) && IsDecayRate(beta2)
    requires epsilon > 0.0 && IsSqrt(sqrt)
    ensures var r := StepAdam(g, Zeros(|g|), Zeros(|g|), 0, beta1, beta2, epsilon, sqrt);
      r.m == Scale(1.0 - beta1, g) && r.v == Scale(1.0 - beta2, Squares(g)) &&
      forall k :: 0 <= k < |g| ==>
        r.step[k] == g[k] / (Abs(g[k]) + epsilon) &&
        -1.0 < r.step[k] < 1.0 &&
        (g[k] > 0.0 <==> r.step[k] > 0.0) &&
        (g[k] < 0.0 <==> r.step[k] < 0.0)
  {
    var z := Zeros(|g|);
    ZeroMoments(g, beta1, beta2);
    ConstantGradientStep(g, z, z, 0, beta1, beta2, epsilon, sqrt);
    var r := StepAdam(g, z, z, 0, beta1, beta2, epsilon, sqrt);
    assert r.m == Scale(Retained(beta1, 1), g) && r.v == Scale(Retained(beta2, 1), Squares(g));
    RetainedOnce(beta1);
    RetainedOnce(beta2);
    forall k | 0 <= k < |g|
      ensures -1.0 < r.step[k] < 1.0
      ensures g[k] > 0.0 <==> r.step[k] > 0.0
      ensures g[k] < 0.0 <==> r.step[k] < 0.0
    {
      UnitRatio(g[k], epsilon);
    }
  }


  /** The first step for the gradient [1.0] from zero
      moments with the default decay rates. The moments are 0.1 and 0.001 and
      the step is 1 / (1 + epsilon), just below 1. */
  lemma DefaultRatesUnitGradient(epsilon: real, sqrt: real -> real)
    requires epsilon > 0.0 && IsSqrt(sqrt)
    ensures var r := StepAdam([1.0], [0.0], [0.0], 0, 0.9, 0.999, epsilon, sqrt);
      r == AdamUpdate([1.0 / (1.0 + epsilon)], [0.1], [0.001]) && r.step[0] < 1.0
  {
    assert Zeros(1) == [0.0];
    FirstStep([1.0], 0.9, 0.999, epsilon, sqrt);
    var r := StepAdam([1.0], [0.0], [0.0], 0, 0.9, 0.999, epsilon, sqrt);
    assert r.m == [0.1] && r.v == [0.001];
  }
}
