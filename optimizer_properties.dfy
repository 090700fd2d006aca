/** What a run of adam_optimize guarantees: the history it records, the error
    for an unknown direction, the box constraint, the sign of the first move,
    and the moments it threads when the gradient does not change. */
module OptimizerProperties {
  import opened RealMath
  import opened Adam
  import opened BoxConstraint
  import opened Optimizer

  /** Entry i of a history is the objective value of iteration i, evaluated at
      what the callback returned when it was shown entries 0 .. i-1. */
  ghost predicate Records<S, P>(setup: Setup<S, P>, h: seq<real>)
  {
    forall i :: 0 <= i < |h| ==> h[i] == ValueAt(setup, i, h[..i])
  }

  /** Every iteration appends its objective value to the history before any
      exception can be raised. */
  lemma IterateAppends<S, P>(setup: Setup<S, P>, i: nat, t: Trace)
    requires WellFormed(setup) && MomentsFit(t)
    ensures var h := t.history + [ValueAt(setup, i, t.history)];
      match Iterate(setup, i, t)
      case Running(t') => t'.history == h
      case Raised(_, h') => h' == h
  {
  }

  lemma {:induction false} RecordsExtend<S, P>(setup: Setup<S, P>, h: seq<real>)
    requires Records(setup, h)
    ensures Records(setup, h + [ValueAt(setup, |h|, h)])
  {
    var h' := h + [ValueAt(setup, |h|, h)];
    forall i | 0 <= i < |h'| ensures h'[i] == ValueAt(setup, i, h'[..i]) {
      assert h'[..i] == if i < |h| then h[..i] else h;
    }
  }

  /** After k iterations the history has k entries (fewer, but at least one, if
      an iteration raised), each the value its own iteration computed. */
  lemma {:induction false} PrefixHistory<S, P>(setup: Setup<S, P>, k: nat)
    requires WellFormed(setup)
    ensures match Prefix(setup, k)
      case Running(t) => |t.history| == k && Records(setup, t.history)
      case Raised(_, h) => 1 <= |h| <= k && Records(setup, h)
  {
    if k > 0 {
      PrefixHistory(setup, k - 1);
      assert Prefix(setup, k) == Advance(setup, k - 1);
      match Prefix(setup, k - 1)
      case Raised(_, _) =>
      case Running(t) =>
        IterateAppends(setup, k - 1, t);
        RecordsExtend(setup, t.history);
    }
  }

  /** adam_optimize returns a history of exactly nSteps values in iteration
      order; when it raises, the list it built holds one value per iteration
      that started. */
  lemma HistoryOfRun<S, P>(setup: Setup<S, P>)
    requires WellFormed(setup) && setup.nSteps >= 1
    ensures match Run(setup)
      case Returned(_, h) => |h| == setup.nSteps && Records(setup, h)
      case Failed(_, h) => 1 <= |h| <= setup.nSteps && Records(setup, h)
  {
    PrefixHistory(setup, setup.nSteps);
  }

  /** The history only grows: an earlier prefix's history is a prefix of a
      later one's. */
  lemma {:induction false} HistoryAppendOnly<S, P>(setup: Setup<S, P>, j: nat, k: nat)
    requires WellFormed(setup) && j <= k && Prefix(setup, k).Running?
    ensures Prefix(setup, j).Running?
    ensures Prefix(setup, j).trace.history == Prefix(setup, k).trace.history[..j]
    decreases k - j
  {
    if j < k {
      HistoryAppendOnly(setup, j, k - 1);
      assert Prefix(setup, k) == Advance(setup, k - 1);
      var t := Prefix(setup, k - 1).trace;
      IterateAppends(setup, k - 1, t);
      assert Prefix(setup, k).trace.history[..k - 1] == t.history;
      assert Prefix(setup, k).trace.history[..j] == t.history[..j];
    }
  }

  /** The same for a run that stopped: the list held when an iteration raised
      extends the history of every earlier running state, and has at least
      one more entry. */
  lemma RaisedHistoryExtends<S, P>(setup: Setup<S, P>, j: nat, k: nat)
    requires WellFormed(setup) && j < k && Prefix(setup, k).Raised? && Prefix(setup, j).Running?
    ensures j < |Prefix(setup, k).history|
    ensures Prefix(setup, j).trace.history == Prefix(setup, k).history[..j]
  {
    var i := RaisingIteration(setup, j, k);
    var t := Prefix(setup, i).trace;
    HistoryAppendOnly(setup, j, i);
    HistoryStep(setup, i);
    AppendKeepsPrefix(t.history, ValueAt(setup, i, t.history), j);
  }

  /** Between a running state j and a raised state k lies the iteration i that
      raised: the state before it runs, and the state after it is raised and
      is already the state k. */
  lemma {:induction false} RaisingIteration<S, P>(setup: Setup<S, P>, j: nat, k: nat) returns (i: nat)
    requires WellFormed(setup) && j < k && Prefix(setup, k).Raised? && Prefix(setup, j).Running?
    ensures j <= i < k && Prefix(setup, i).Running? && Prefix(setup, i + 1).Raised?
    ensures Prefix(setup, k) == Prefix(setup, i + 1)
    decreases k - j
  {
    if Prefix(setup, j + 1).Raised? {
      i := j;
      RaisedIsFinal(setup, j + 1, k);
    } else {
      i := RaisingIteration(setup, j + 1, k);
    }
  }

  lemma AppendKeepsPrefix(h: seq<real>, x: real, j: nat)
    requires j <= |h|
    ensures (h + [x])[..j] == h[..j]
  {
  }

  /** A running state's next iteration appends exactly one value, whether it
      raises or not. */
  lemma HistoryStep<S, P>(setup: Setup<S, P>, i: nat)
    requires WellFormed(setup) && Prefix(setup, i).Running?
    ensures var h := Prefix(setup, i).trace.history;
      var h' := h + [ValueAt(setup, i, h)];
      match Prefix(setup, i + 1)
      case Running(t') => t'.history == h'
      case Raised(_, e) => e == h'
  {
    assert Prefix(setup, i + 1) == Advance(setup, i);
    IterateAppends(setup, i, Prefix(setup, i).trace);
  }

  ghost predicate KnownDirection<S, P>(setup: Setup<S, P>)
  {
    setup.direction == "min" || setup.direction == "max"
  }

  /** Iteration 0 never meets mismatched moments: they are created with the
      gradient's shape. So an unknown direction raises there, after the first
      value has been recorded. */
  lemma FirstIterationUnknownDirection<S, P>(setup: Setup<S, P>, t: Trace)
    requires WellFormed(setup) && MomentsFit(t) && !KnownDirection(setup)
    ensures Iterate(setup, 0, t) == Raised(InvalidDirection, t.history + [ValueAt(setup, 0, t.history)])
  {
  }

  /** With a known direction the error of ceviche/optimizers.py:46 is never raised; only a
      shape mismatch can stop the run. */
  lemma {:induction false} KnownDirectionNeverInvalid<S, P>(setup: Setup<S, P>, k: nat)
    requires WellFormed(setup) && KnownDirection(setup)
    ensures Prefix(setup, k).Raised? ==> Prefix(setup, k).error == ShapeMismatch
  {
    if k > 0 {
      KnownDirectionNeverInvalid(setup, k - 1);
      assert Prefix(setup, k) == Advance(setup, k - 1);
    }
  }

  /** adam_optimize raises the direction error of ceviche/optimizers.py:46 exactly when the
      direction is neither 'min' nor 'max', and then it does so on iteration 0 with one value in
      the history and before any update of rho. */
  lemma InvalidDirectionIff<S, P>(setup: Setup<S, P>)
    requires WellFormed(setup) && setup.nSteps >= 1
    ensures Run(setup) == Failed(InvalidDirection, Run(setup).history) <==> !KnownDirection(setup)
    ensures !KnownDirection(setup) ==> Run(setup) == Failed(InvalidDirection, [ValueAt(setup, 0, [])])
  {
    if KnownDirection(setup) {
      KnownDirectionNeverInvalid(setup, setup.nSteps);
    } else {
      assert Prefix(setup, 1) == Advance(setup, 0);
      FirstIterationUnknownDirection(setup, Trace([], [], [], []));
      RaisedIsFinal(setup, 1, setup.nSteps);
    }
  }

  /** With bounds (lo, hi), lo <= hi, every state after an iteration has all
      parameters in [lo, hi]. */
  lemma BoundsHold<S, P>(setup: Setup<S, P>, k: nat)
    requires WellFormed(setup) && setup.bounds.Between? && setup.bounds.lo <= setup.bounds.hi
    requires k >= 1 && Prefix(setup, k).Running?
    ensures forall j :: 0 <= j < |Prefix(setup, k).trace.rho| ==>
      setup.bounds.lo <= Prefix(setup, k).trace.rho[j] <= setup.bounds.hi
  {
    assert Prefix(setup, k) == Advance(setup, k - 1);
  }

  /** With bounds (lo, hi), lo <= hi, the returned vector has all entries in
      [lo, hi]. */
  lemma ReturnedWithinBounds<S, P>(setup: Setup<S, P>)
    requires WellFormed(setup) && setup.nSteps >= 1
    requires setup.bounds.Between? && setup.bounds.lo <= setup.bounds.hi
    requires Run(setup).Returned?
    ensures forall j :: 0 <= j < |Run(setup).rho| ==>
      setup.bounds.lo <= Run(setup).rho[j] <= setup.bounds.hi
  {
    BoundsHold(setup, setup.nSteps);
  }

  /** The rho an iteration starts from is the callback's: whatever the
      previous update produced is overwritten, only history and moments carry
      over. */
  lemma IterateIgnoresPreviousRho<S, P>(setup: Setup<S, P>, i: nat, t: Trace, rho: seq<real>)
    requires WellFormed(setup) && MomentsFit(t)
    ensures Iterate(setup, i, t) == Iterate(setup, i, t.(rho := rho))
  {
  }

  /** The parameters the callback gives iteration i, from the history so far. */
  function CallbackRho<S, P>(setup: Setup<S, P>, i: nat, history: seq<real>): seq<real>
  {
    setup.callback(i, history, setup.state).0
  }

  /** The gradient of iteration i: jacobian of the objective with the
      callback's params bound, at the callback's rho. */
  function GradientAt<S, P>(setup: Setup<S, P>, i: nat, history: seq<real>): seq<real>
  {
    var (rho, params) := setup.callback(i, history, setup.state);
    setup.jacobian(Partial(setup.objective, params))(rho)
  }

  /** The direction's update: rho - step_size * step for 'min', rho + step_size
      * step for 'max'. */
  function Move<S, P>(setup: Setup<S, P>, rho: seq<real>, step: seq<real>): (r: seq<real>)
    requires |step| == |rho|
    ensures |r| == |rho|
    ensures setup.direction == "min" ==> forall k :: 0 <= k < |rho| ==> rho[k] - r[k] == setup.stepSize * step[k]
    ensures setup.direction != "min" ==> forall k :: 0 <= k < |rho| ==> r[k] - rho[k] == setup.stepSize * step[k]
  {
    if setup.direction == "min" then Descend(rho, step, setup.stepSize)
    else Ascend(rho, step, setup.stepSize)
  }

  /** A successful iteration sets rho to the callback's parameters moved by the
      step step_adam computed from the gradient and the moments, then bounded. */
  lemma IterateUpdate<S, P>(setup: Setup<S, P>, i: nat, t: Trace, m: seq<real>, v: seq<real>)
    requires WellFormed(setup) && MomentsFit(t) && KnownDirection(setup)
    requires m == (if i == 0 then Zeros(|GradientAt(setup, i, t.history)|) else t.m)
    requires v == (if i == 0 then Zeros(|GradientAt(setup, i, t.history)|) else t.v)
    requires |m| == |GradientAt(setup, i, t.history)| == |v|
    requires |CallbackRho(setup, i, t.history)| == |GradientAt(setup, i, t.history)|
    ensures NonNegative(v)
    ensures var a := StepAdam(GradientAt(setup, i, t.history), m, v, i,
                              setup.beta1, setup.beta2, Epsilon, setup.sqrt);
      Iterate(setup, i, t) ==
        Running(Trace(t.history + [ValueAt(setup, i, t.history)], a.m, a.v,
                      Constrain(Move(setup, CallbackRho(setup, i, t.history), a.step), setup.bounds)))
  {
  }

  /** The returned vector is the last iteration's: the callback's parameters
      for iteration nSteps - 1, moved by the step step_adam computed from that
      iteration's gradient and the moments carried so far, then bounded. */
  lemma ReturnedIsLastUpdate<S, P>(setup: Setup<S, P>)
    requires WellFormed(setup) && setup.nSteps >= 1 && Run(setup).Returned?
    ensures Prefix(setup, setup.nSteps - 1).Running?
    ensures var i := setup.nSteps - 1;
      var t := Prefix(setup, i).trace;
      var g := GradientAt(setup, i, t.history);
      var m := if i == 0 then Zeros(|g|) else t.m;
      var v := if i == 0 then Zeros(|g|) else t.v;
      |m| == |g| && |v| == |g| && NonNegative(v) && |CallbackRho(setup, i, t.history)| == |g| &&
      Run(setup).rho ==
        Constrain(Move(setup, CallbackRho(setup, i, t.history),
                       StepAdam(g, m, v, i, setup.beta1, setup.beta2, Epsilon, setup.sqrt).step),
                  setup.bounds)
  {
    var i := setup.nSteps - 1;
    InvalidDirectionIff(setup);
    assert Prefix(setup, i + 1) == Advance(setup, i);
    var t := Prefix(setup, i).trace;
    PrefixSucc(setup, i, t);
    var g := GradientAt(setup, i, t.history);
    var m := if i == 0 then Zeros(|g|) else t.m;
    var v := if i == 0 then Zeros(|g|) else t.v;
    IterateUpdate(setup, i, t, m, v);
  }

  /** Component j of the update, when the step there lies in (-1, 1) and has
      the sign of g: it moves against g for 'min', with it for 'max', by less
      than step_size. */
  lemma MoveComponent<S, P>(setup: Setup<S, P>, rho: seq<real>, step: seq<real>, g: real, j: nat)
    requires KnownDirection(setup) && setup.stepSize > 0.0
    requires |step| == |rho| && j < |rho|
    requires -1.0 < step[j] < 1.0 && (g > 0.0 <==> step[j] > 0.0) && (g < 0.0 <==> step[j] < 0.0)
    ensures var r := Move(setup, rho, step);
      var d := if setup.direction == "min" then rho[j] - r[j] else r[j] - rho[j];
      -setup.stepSize < d < setup.stepSize && (g > 0.0 <==> d > 0.0) && (g < 0.0 <==> d < 0.0)
  {
    var r := Move(setup, rho, step);
    var d := if setup.direction == "min" then rho[j] - r[j] else r[j] - rho[j];
    ScaledStep(setup.stepSize, step[j], g, d);
  }

  /** Without bounds, each component of iteration 0 moves against the sign of
      its gradient for 'min' and with it for 'max', by less than step_size. */
  lemma FirstMoveFollowsGradientSign<S, P>(setup: Setup<S, P>)
    requires WellFormed(setup) && KnownDirection(setup)
    requires setup.bounds.Unconstrained? && setup.stepSize > 0.0
    requires |CallbackRho(setup, 0, [])| == |GradientAt(setup, 0, [])|
    ensures Prefix(setup, 1).Running?
    ensures var rho0, g := CallbackRho(setup, 0, []), GradientAt(setup, 0, []);
      var rho1 := Prefix(setup, 1).trace.rho;
      |rho1| == |rho0| &&
      forall j :: 0 <= j < |rho0| ==>
        var d := if setup.direction == "min" then rho0[j] - rho1[j] else rho1[j] - rho0[j];
        -setup.stepSize < d < setup.stepSize &&
        (g[j] > 0.0 <==> d > 0.0) && (g[j] < 0.0 <==> d < 0.0)
  {
    var t := Trace([], [], [], []);
    var g := GradientAt(setup, 0, []);
    var rho0 := CallbackRho(setup, 0, []);
    PrefixSucc(setup, 0, t);
    IterateUpdate(setup, 0, t, Zeros(|g|), Zeros(|g|));
    FirstStep(g, setup.beta1, setup.beta2, Epsilon, setup.sqrt);
    var a := StepAdam(g, Zeros(|g|), Zeros(|g|), 0, setup.beta1, setup.beta2, Epsilon, setup.sqrt);
    var rho1 := Move(setup, rho0, a.step);
    forall j | 0 <= j < |rho0|
      ensures var d := if setup.direction == "min" then rho0[j] - rho1[j] else rho1[j] - rho0[j];
        -setup.stepSize < d < setup.stepSize &&
        (g[j] > 0.0 <==> d > 0.0) && (g[j] < 0.0 <==> d < 0.0)
    {
      MoveComponent(setup, rho0, a.step, g[j], j);
    }
  }

  /** The gradient provider always returns g and the callback always returns
      parameters of its length. */
  ghost predicate ConstantGradient<S, P>(setup: Setup<S, P>, g: seq<real>)
  {
    (forall f, x :: setup.jacobian(f)(x) == g) &&
    (forall i, h :: |setup.callback(i, h, setup.state).0| == |g|)
  }

  /** step_adam's step for a constant gradient: g / (|g| + epsilon). */
  function UnitStep(g: seq<real>): (r: seq<real>)
    ensures |r| == |g|
  {
    seq(|g|, j requires 0 <= j < |g| => g[j] / (Abs(g[j]) + Epsilon))
  }

  /** One iteration under a constant gradient g: the moments stay in closed
      form and the parameters move by step_size * g / (|g| + epsilon). */
  lemma IterateConstantGradient<S, P>(setup: Setup<S, P>, g: seq<real>, i: nat, t: Trace)
    requires WellFormed(setup) && KnownDirection(setup) && ConstantGradient(setup, g)
    requires MomentsFit(t)
    requires i >= 1 ==> ConstantGradientMoments(g, t.m, t.v, i, setup.beta1, setup.beta2)
    ensures Iterate(setup, i, t).Running?
    ensures var t' := Iterate(setup, i, t).trace;
      ConstantGradientMoments(g, t'.m, t'.v, i + 1, setup.beta1, setup.beta2) &&
      t'.rho == Constrain(Move(setup, CallbackRho(setup, i, t.history), UnitStep(g)), setup.bounds)
  {
    assert GradientAt(setup, i, t.history) == g;
    var m := if i == 0 then Zeros(|g|) else t.m;
    var v := if i == 0 then Zeros(|g|) else t.v;
    if i == 0 {
      ZeroMoments(g, setup.beta1, setup.beta2);
    }
    ConstantGradientStep(g, m, v, i, setup.beta1, setup.beta2, Epsilon, setup.sqrt);
    IterateUpdate(setup, i, t, m, v);
    var a := StepAdam(g, m, v, i, setup.beta1, setup.beta2, Epsilon, setup.sqrt);
    assert a.step == UnitStep(g);
  }

  /** The same, stated on the run's prefixes. */
  lemma ConstantGradientIterate<S, P>(setup: Setup<S, P>, g: seq<real>, i: nat, t: Trace)
    requires WellFormed(setup) && KnownDirection(setup) && ConstantGradient(setup, g)
    requires Prefix(setup, i) == Running(t)
    requires i >= 1 ==> ConstantGradientMoments(g, t.m, t.v, i, setup.beta1, setup.beta2)
    ensures Prefix(setup, i + 1).Running?
    ensures var t' := Prefix(setup, i + 1).trace;
      ConstantGradientMoments(g, t'.m, t'.v, i + 1, setup.beta1, setup.beta2) &&
      t'.rho == Constrain(Move(setup, CallbackRho(setup, i, t.history), UnitStep(g)), setup.bounds)
  {
    PrefixSucc(setup, i, t);
    IterateConstantGradient(setup, g, i, t);
  }

  /** With a constant gradient g no iteration raises, and after k >= 1
      iterations the moments are (1 - beta1^k) * g and (1 - beta2^k) * g^2:
      they are zeroed once and then carried from iteration to iteration. */
  lemma {:induction false} ConstantGradientRun<S, P>(setup: Setup<S, P>, g: seq<real>, k: nat)
    requires WellFormed(setup) && KnownDirection(setup) && ConstantGradient(setup, g)
    ensures Prefix(setup, k).Running?
    ensures k >= 1 ==>
      var t := Prefix(setup, k).trace;
      ConstantGradientMoments(g, t.m, t.v, k, setup.beta1, setup.beta2)
  {
    if k > 0 {
      ConstantGradientRun(setup, g, k - 1);
      ConstantGradientIterate(setup, g, k - 1, Prefix(setup, k - 1).trace);
    }
  }

  /** Under a constant gradient every iteration k sets rho to the callback's
      parameters moved by step_size * g / (|g| + epsilon), then bounded. */
  lemma ConstantGradientUpdate<S, P>(setup: Setup<S, P>, g: seq<real>, k: nat)
    requires WellFormed(setup) && KnownDirection(setup) && ConstantGradient(setup, g)
    ensures Prefix(setup, k).Running? && Prefix(setup, k + 1).Running?
    ensures var before := Prefix(setup, k).trace;
      Prefix(setup, k + 1).trace.rho ==
        Constrain(Move(setup, CallbackRho(setup, k, before.history), UnitStep(g)), setup.bounds)
  {
    ConstantGradientRun(setup, g, k);
    ConstantGradientIterate(setup, g, k, Prefix(setup, k).trace);
  }

  /** A single step on a one-parameter problem: gradient always
      [2.0], step_size 1, 'min', start [5.0], one step. The result is
      [5 - 2 / (2 + epsilon)], one value recorded. */
  lemma SingleStepScenario<S, P>(setup: Setup<S, P>)
    requires WellFormed(setup) && ConstantGradient(setup, [2.0])
    requires CallbackRho(setup, 0, []) == [5.0]
    requires setup.nSteps == 1 && setup.stepSize == 1.0 && setup.direction == "min"
    requires setup.bounds.Unconstrained?
    ensures Run(setup) == Returned([5.0 - 2.0 / (2.0 + Epsilon)], [ValueAt(setup, 0, [])])
  {
    ConstantGradientUpdate(setup, [2.0], 0);
    PrefixHistory(setup, 1);
    var rho := Prefix(setup, 1).trace.rho;
    assert UnitStep([2.0]) == [2.0 / (2.0 + Epsilon)];
    assert rho == Descend([5.0], UnitStep([2.0]), 1.0);
    assert rho == [5.0 - 2.0 / (2.0 + Epsilon)];
    var h := Prefix(setup, 1).trace.history;
    assert h[..0] == [];
  }
}
