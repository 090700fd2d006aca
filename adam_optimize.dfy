/** The driver loop adam_optimize (ceviche/optimizers.py:7-52): per iteration
    it takes the parameters from the callback, evaluates the objective and the
    gradient, records the value, threads the Adam moments through step_adam,
    moves the parameters down or up the step and applies the box constraint.

    The functions below give the meaning of a run, one iteration at a time;
    the method AdamOptimize runs the loop on an array and is proved to produce
    exactly that meaning. */
module Optimizer {
  import opened RealMath
  import opened Adam
  import opened BoxConstraint

  /** step_adam's default epsilon, 1e-8, which the driver never overrides. */
  const Epsilon: real := 0.00000001

  /** The exceptions the driver can raise: the ValueError of
      ceviche/optimizers.py:46 for an unknown direction, and numpy's error
      (also a ValueError) for arrays whose lengths do not agree. */
  datatype Error = InvalidDirection | ShapeMismatch

  /** The driver's variables between two iterations: the history list
      `of_list`, the moments mopt and vopt, and the parameters rho after the
      last update. */
  datatype Trace = Trace(history: seq<real>, m: seq<real>, v: seq<real>, rho: seq<real>)

  /** A run so far: still going, or stopped by an exception. `history` is what
      the history list held when the exception was raised; the callback was
      handed that list, so a caller can keep it. */
  datatype Progress = Running(trace: Trace) | Raised(error: Error, history: seq<real>)

  /** How adam_optimize ends: it returns (rho, of_list), or it raises. */
  datatype Outcome = Returned(rho: seq<real>, history: seq<real>) | Failed(error: Error, history: seq<real>)

  /** The arguments of adam_optimize. The objective takes the parameters and the
      `params` the callback returned; the jacobian maps the objective with
      `params` bound to a gradient function; the callback maps the iteration,
      the history so far and `state` to the parameters and `params`; sqrt is
      numpy's square root. */
  datatype Setup<!S, !P> = Setup(
    objective: (seq<real>, P) -> real,
    state: S,
    jacobian: (seq<real> -> real) -> (seq<real> -> seq<real>),
    stepSize: real,
    nSteps: nat,
    bounds: Bounds,
    direction: string,
    beta1: real,
    beta2: real,
    callback: (nat, seq<real>, S) -> (seq<real>, P),
    sqrt: real -> real)

  /** What step_adam needs of the arguments for every division to be defined. */
  ghost predicate WellFormed<S, P>(setup: Setup<S, P>)
  {
    IsDecayRate(setup.beta1) && IsDecayRate(setup.beta2) && IsSqrt(setup.sqrt)
  }

  /** functools.partial(objective, params=params) */
  function Partial<P>(objective: (seq<real>, P) -> real, params: P): (f: seq<real> -> real)
    ensures forall x :: f(x) == objective(x, params)
  {
    x => objective(x, params)
  }

  /** rho - step_size * grad_adam */
  function Descend(rho: seq<real>, step: seq<real>, stepSize: real): (r: seq<real>)
    requires |step| == |rho|
    ensures |r| == |rho|
    ensures forall k :: 0 <= k < |rho| ==> r[k] == rho[k] - stepSize * step[k]
  {
    seq(|rho|, k requires 0 <= k < |rho| => rho[k] - stepSize * step[k])
  }

  /** rho + step_size * grad_adam */
  function Ascend(rho: seq<real>, step: seq<real>, stepSize: real): (r: seq<real>)
    requires |step| == |rho|
    ensures |r| == |rho|
    ensures forall k :: 0 <= k < |rho| ==> r[k] == rho[k] + stepSize * step[k]
  {
    seq(|rho|, k requires 0 <= k < |rho| => rho[k] + stepSize * step[k])
  }

  /** A trace whose moments step_adam accepts as the previous ones. */
  predicate MomentsFit(t: Trace)
  {
    NonNegative(t.v) && |t.m| == |t.v|
  }

  /** The objective value that iteration i records, given the history the
      callback sees at that point. */
  function ValueAt<S, P>(setup: Setup<S, P>, i: nat, history: seq<real>): real
  {
    var (rho, params) := setup.callback(i, history, setup.state);
    Partial(setup.objective, params)(rho)
  }

  /** Iteration `iteration` of the loop body (lines 16-50), from the variables
      left by the previous iteration. */
  function Iterate<S, P>(setup: Setup<S, P>, iteration: nat, t: Trace): (p: Progress)
    requires WellFormed(setup) && MomentsFit(t)
    ensures p.Running? ==> MomentsFit(p.trace) && |p.trace.history| == |t.history| + 1
    ensures p.Raised? ==> |p.history| == |t.history| + 1
  {
    var (rho, params) := setup.callback(iteration, t.history, setup.state);
    var obj := Partial(setup.objective, params);
    var grad := setup.jacobian(obj)(rho);
    var history := t.history + [obj(rho)];
    var m := if iteration == 0 then Zeros(|grad|) else t.m;
    var v := if iteration == 0 then Zeros(|grad|) else t.v;
    if |m| != |grad| || |v| != |grad| then Raised(ShapeMismatch, history)
    else
      var a := StepAdam(grad, m, v, iteration, setup.beta1, setup.beta2, Epsilon, setup.sqrt);
      if setup.direction != "min" && setup.direction != "max" then Raised(InvalidDirection, history)
      else if |rho| != |grad| then Raised(ShapeMismatch, history)
      else
        var moved := if setup.direction == "min" then Descend(rho, a.step, setup.stepSize)
                     else Ascend(rho, a.step, setup.stepSize);
        Running(Trace(history, a.m, a.v, Constrain(moved, setup.bounds)))
  }

  /** The state after the first k iterations. Before iteration 0 nothing is
      bound; an exception stops the run. */
  function Prefix<S, P>(setup: Setup<S, P>, k: nat): (p: Progress)
    requires WellFormed(setup)
    ensures p.Running? ==> MomentsFit(p.trace) && |p.trace.history| == k
    ensures p.Raised? ==> 1 <= |p.history| <= k
    decreases k, 1
  {
    if k == 0 then Running(Trace([], [], [], [])) else Advance(setup, k - 1)
  }

  /** The state after iteration `iteration`: that iteration run on the state
      the earlier ones left, unless one of them raised. */
  function Advance<S, P>(setup: Setup<S, P>, iteration: nat): (p: Progress)
    requires WellFormed(setup)
    ensures p.Running? ==> MomentsFit(p.trace) && |p.trace.history| == iteration + 1
    ensures p.Raised? ==> 1 <= |p.history| <= iteration + 1
    decreases iteration + 1, 0
  {
    match Prefix(setup, iteration)
    case Raised(e, h) => Raised(e, h)
    case Running(t) => Iterate(setup, iteration, t)
  }

  /** One more iteration from a running state is Iterate. */
  lemma PrefixSucc<S, P>(setup: Setup<S, P>, k: nat, t: Trace)
    requires WellFormed(setup) && Prefix(setup, k) == Running(t)
    ensures Prefix(setup, k + 1) == Iterate(setup, k, t)
  {
    assert Prefix(setup, k + 1) == Advance(setup, k);
  }

  /** An exception ends the run: later prefixes are the same. */
  lemma {:induction false} RaisedIsFinal<S, P>(setup: Setup<S, P>, j: nat, k: nat)
    requires WellFormed(setup) && j <= k && Prefix(setup, j).Raised?
    ensures Prefix(setup, k) == Prefix(setup, j)
    decreases k - j
  {
    if j < k {
      assert Prefix(setup, j + 1) == Advance(setup, j);
      RaisedIsFinal(setup, j + 1, k);
    }
  }

  /** The meaning of adam_optimize: all nSteps iterations, then the return. */
  function Run<S, P>(setup: Setup<S, P>): (o: Outcome)
    requires WellFormed(setup)
    ensures o.Returned? ==> |o.history| == setup.nSteps
    ensures o.Failed? ==> 1 <= |o.history| <= setup.nSteps
  {
    match Prefix(setup, setup.nSteps)
    case Running(t) => Returned(t.rho, t.history)
    case Raised(e, h) => Failed(e, h)
  }

  /** One pass of the loop body of adam_optimize (lines 16-50), from the
      variables the previous passes left. The new parameters are a fresh array
      (rho - step_size * grad_adam allocates one), clamped in place. */
  method Step<S, P>(setup: Setup<S, P>, iteration: nat, t: Trace)
    returns (p: Progress, rho: array<real>)
    requires WellFormed(setup) && Prefix(setup, iteration) == Running(t)
    ensures p == Prefix(setup, iteration + 1)
    ensures fresh(rho)
    ensures p.Running? ==> p.trace.rho == rho[..]
  {
    PrefixSucc(setup, iteration, t);
    var (rhoIn, params) := setup.callback(iteration, t.history, setup.state);
    var obj := Partial(setup.objective, params);
    var jac := setup.jacobian(obj);
    var value := obj(rhoIn);
    var grad := jac(rhoIn);
    var history := t.history + [value];
    var mopt, vopt := t.m, t.v;
    rho := new real[0];
    if iteration == 0 {
      mopt := Zeros(|grad|);
      vopt := Zeros(|grad|);
    }
    if |mopt| != |grad| || |vopt| != |grad| {
      return Raised(ShapeMismatch, history), rho;
    }
    var a := StepAdam(grad, mopt, vopt, iteration, setup.beta1, setup.beta2, Epsilon, setup.sqrt);
    mopt, vopt := a.m, a.v;
    var moved: seq<real>;
    if setup.direction == "min" {
      if |rhoIn| != |grad| {
        return Raised(ShapeMismatch, history), rho;
      }
      moved := Descend(rhoIn, a.step, setup.stepSize);
    } else if setup.direction == "max" {
      if |rhoIn| != |grad| {
        return Raised(ShapeMismatch, history), rho;
      }
      moved := Ascend(rhoIn, a.step, setup.stepSize);
    } else {
      return Raised(InvalidDirection, history), rho;
    }
    rho := new real[|moved|](k requires 0 <= k < |moved| => moved[k]);
    if setup.bounds.Between? {
      ClampInPlace(rho, setup.bounds.lo, setup.bounds.hi);
    }
    p := Running(Trace(history, mopt, vopt, rho[..]));
  }

  /** adam_optimize with a callback and nSteps >= 1: runs the loop and returns
      (rho, of_list), or stops at the first exception. */
  method AdamOptimize<S, P>(objective: (seq<real>, P) -> real, state: S,
                            jacobian: (seq<real> -> real) -> (seq<real> -> seq<real>),
                            stepSize: real, nSteps: nat, bounds: Bounds, direction: string,
                            beta1: real, beta2: real,
                            callback: (nat, seq<real>, S) -> (seq<real>, P),
                            sqrt: real -> real)
    returns (outcome: Outcome)
    requires nSteps >= 1
    requires IsDecayRate(beta1) && IsDecayRate(beta2) && IsSqrt(sqrt)
    ensures outcome == Run(Setup(objective, state, jacobian, stepSize, nSteps, bounds,
                                 direction, beta1, beta2, callback, sqrt))
  {
    var setup := Setup(objective, state, jacobian, stepSize, nSteps, bounds,
                       direction, beta1, beta2, callback, sqrt);
    var t := Trace([], [], [], []);
    var rho := new real[0];
    var iteration := 0;
    while iteration < nSteps
      invariant 0 <= iteration <= nSteps
      invariant Prefix(setup, iteration) == Running(t) && t.rho == rho[..]
    {
      var p, next := Step(setup, iteration, t);
      if p.Raised? {
        RaisedIsFinal(setup, iteration + 1, nSteps);
        return Failed(p.error, p.history);
      }
      t, rho := p.trace, next;
      iteration := iteration + 1;
    }
    outcome := Returned(rho[..], t.history);
  }
}
