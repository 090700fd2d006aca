# Adam optimiser of ceviche, modelled in Dafny

ceviche's `optimizers.py` has two functions:

- `step_adam` performs one Adam update. It decays the first and second moment estimates of the gradient and bias-corrects them. It returns the step `mopt_t / (sqrt(vopt_t) + epsilon)` together with the new, uncorrected moments.
- `adam_optimize` is the driver loop. On each of `Nsteps` iterations it:
  1. takes the parameters `rho` from a user callback;
  2. evaluates the objective and its gradient;
  3. appends the objective value to a history list;
  4. zeroes the moments on iteration 0 and threads them through `step_adam`;
  5. moves `rho` down (`'min'`) or up (`'max'`) by `step_size` times the step;
  6. clamps `rho` in place to `bounds` with two masked assignments.

The model has four modules:

- `RealMath` (`real_math.dfy`): powers, absolute value, the contract of numpy's square root, and element-wise vectors.
- `Adam` (`step_adam.dfy`): `step_adam` as pure functions over `seq<real>`, plus lemmas about them.
- `BoxConstraint` (`bounds.dfy`): the clamp, both as a value and as in-place loops over an `array<real>`.
- `Optimizer` (`adam_optimize.dfy`): the driver. `Iterate`, `Prefix` and `Run` give the meaning of a run one iteration at a time. The method `AdamOptimize` runs the loop imperatively and is proved to return exactly `Run`. Its loop body `Step` allocates the new `rho` array and clamps it in place.

A fifth module, `OptimizerProperties` (`optimizer_properties.dfy`), proves what a run guarantees: the history, the direction error, the bounds, the first move, and the constant-gradient behaviour.

Numbers are mathematical reals. The objective, the gradient provider (`jacobian`), the callback, its `state` and numpy's `sqrt` are parameters of the model. The only thing assumed of `sqrt` is that, on non-negative arguments, it returns the non-negative root.

## Model

| member | source | states |
|---|---|---|
| RealMath.Pow | ceviche/optimizers.py:59-61 | `beta**n` by recursion. For a base in [0, 1] the power is in [0, 1]; for a base in [0, 1) and n >= 1 it is below 1. |
| RealMath.SqrtOfSquare | ceviche/optimizers.py:62 | The square root of g*g is abs(g), so for the zero-initialised moments sqrt(vopt_t) is abs(g). |
| RealMath.Zeros | ceviche/optimizers.py:36-37 | `np.zeros(n)`: length n, every entry 0, non-negative. |
| RealMath.Squares | ceviche/optimizers.py:60 | `np.square`: same length, entry k is the square of entry k, so every entry is non-negative. |
| RealMath.ScaledStep | ceviche/optimizers.py:42-44 | step_size times a step component in (-1, 1) lies in (-step_size, step_size) and keeps the component's sign. |
| RealMath.WeightedMean | ceviche/optimizers.py:58-60 | w*a + (1-w)*b with w in [0, 1] lies between a and b. |
| Adam.FirstMomentBetween | ceviche/optimizers.py:58 | `beta1*mopt_old + (1-beta1)*g` with beta1 in [0, 1] lies between the old first moment and the gradient. |
| Adam.SecondMomentBetween | ceviche/optimizers.py:60 | `beta2*vopt_old + (1-beta2)*g**2` with beta2 in [0, 1] lies between the old second moment and g**2. |
| Adam.BiasCorrected | ceviche/optimizers.py:59-61 | `x / (1 - beta**(iteration+1))`: multiplying back by the denominator gives x, and a non-negative moment is never made smaller. |
| Adam.StepComponent | ceviche/optimizers.py:62 | A step component is positive exactly when the new first moment is positive, and negative exactly when it is negative. |
| Adam.CorrectionDenominator | ceviche/optimizers.py:59-61 | For a decay rate in [0, 1) the bias-correction denominator `1 - beta**(iteration + 1)` is in (0, 1], so it is never zero. |
| Adam.StepDenominator | ceviche/optimizers.py:62 | `np.sqrt(vopt_t) + epsilon` is at least epsilon, so it is positive. |
| Adam.SecondMomentNonNegative | ceviche/optimizers.py:60 | The new second moment is non-negative when the old one is and beta2 is in [0, 1]. |
| Adam.BiasCorrectedNonNegative | ceviche/optimizers.py:61 | Bias correction keeps a non-negative second moment non-negative, so sqrt(vopt_t) is taken of a non-negative number. |
| Adam.StepAdam | ceviche/optimizers.py:55-64 | All three outputs have the gradient's length. The new second moment is non-negative. Each step component is the bias-corrected first moment divided by sqrt of the bias-corrected second moment plus epsilon. The returned moments are the uncorrected ones. |
| Adam.StepAdamMoments | ceviche/optimizers.py:58-60 | Element-wise, `mopt = beta1*mopt_old + (1-beta1)*g` and `vopt = beta2*vopt_old + (1-beta2)*g**2`. |
| Adam.MomentAdvance | ceviche/optimizers.py:58-60 | One decayed update of the closed form (1 - beta**t) * x with signal x gives (1 - beta**(t+1)) * x. |
| Adam.CorrectedRecovers | ceviche/optimizers.py:59-61 | Bias correction divides the weight 1 - beta**(t+1) back out. |
| Adam.CorrectedAdvance | ceviche/optimizers.py:58-61 | From the closed form, the update gives the next closed form, and its bias correction is the signal itself. |
| Adam.ConstantGradientComponent | ceviche/optimizers.py:58-62 | For one component with closed-form moments, the moments advance one exponent and the step is g / (abs(g) + epsilon). |
| Adam.ConstantGradientAt | ceviche/optimizers.py:58-62 | The same, for component k of a vector. |
| Adam.ConstantGradientStep | ceviche/optimizers.py:58-64 | Suppose the moments are (1-beta1**t)*g and (1-beta2**t)*g**2, the state after t updates with a constant gradient g from zero. Then step_adam returns the same form for t+1, with every step component g / (abs(g) + epsilon). |
| Adam.UnitRatio | ceviche/optimizers.py:62 | g / (abs(g) + epsilon) is in (-1, 1) and has the sign of g, in both directions of each sign. |
| Adam.ZeroMoments | ceviche/optimizers.py:36-37 | The zero-initialised moments are the constant-gradient closed form for t = 0. |
| Adam.FirstStep | ceviche/optimizers.py:58-62 | From zero moments at iteration 0: mopt = (1-beta1)*g, vopt = (1-beta2)*g**2, and each step component is g / (abs(g) + epsilon), strictly between -1 and 1, with the sign of g. |
| Adam.DefaultRatesUnitGradient | ceviche/optimizers.py:55-64 | With the default rates 0.9 and 0.999 and gradient [1.0] from zero moments, the result is exactly step [1/(1+epsilon)], mopt [0.1] and vopt [0.001], and the step is below 1. |
| BoxConstraint.RaiseTo | ceviche/optimizers.py:49 | `rho[rho < lo] = lo`: every entry is at least lo. Entries below lo become exactly lo, and entries already at least lo are unchanged. |
| BoxConstraint.LowerTo | ceviche/optimizers.py:50 | `rho[rho > hi] = hi`: every entry is at most hi. Entries above hi become exactly hi, and entries already at most hi are unchanged. |
| BoxConstraint.Clamp | ceviche/optimizers.py:48-50 | Both assignments, in source order. The length is unchanged. With lo <= hi every entry ends in [lo, hi]: entries below lo become lo, entries above hi become hi, and entries already in range are unchanged. With hi < lo every entry becomes hi. |
| BoxConstraint.Constrain | ceviche/optimizers.py:48-50 | With no bounds rho is unchanged. With bounds it is exactly the two assignments, Clamp with those lo and hi, so with lo <= hi every entry ends in [lo, hi]. |
| BoxConstraint.ClampIdempotent | ceviche/optimizers.py:49-50 | Clamping twice is clamping once, for any lo and hi. |
| BoxConstraint.RaiseToInPlace | ceviche/optimizers.py:49 | The in-place masked assignment leaves the array equal to RaiseTo of its old contents. |
| BoxConstraint.LowerToInPlace | ceviche/optimizers.py:50 | The in-place masked assignment leaves the array equal to LowerTo of its old contents. |
| BoxConstraint.ClampInPlace | ceviche/optimizers.py:48-50 | Both in-place assignments leave the array equal to Clamp of its old contents. |
| Optimizer.Partial | ceviche/optimizers.py:19 | `partial(objective, params=params)`: the one-argument function equals the objective at those params on every input. |
| Optimizer.Descend | ceviche/optimizers.py:42 | `rho - step_size*grad_adam`: same length, and entry k is rho[k] - step_size * step[k]. |
| Optimizer.Ascend | ceviche/optimizers.py:44 | `rho + step_size*grad_adam`: same length, and entry k is rho[k] + step_size * step[k]. |
| Optimizer.Iterate | ceviche/optimizers.py:16-50 | One iteration appends exactly one value to the history, whether it succeeds or raises. A successful iteration leaves moments that step_adam accepts next time. |
| Optimizer.Prefix | ceviche/optimizers.py:14-50 | After k iterations a running state has k history entries. A raised state has between 1 and k. |
| Optimizer.Advance | ceviche/optimizers.py:14-50 | The loop's iteration number `iteration` on the state left by the earlier ones: a running state has iteration + 1 history entries and moments step_adam accepts; a raised state has between 1 and iteration + 1. |
| Optimizer.PrefixSucc | ceviche/optimizers.py:14 | The loop runs the next iteration on the state the previous ones left. |
| Optimizer.RaisedIsFinal | ceviche/optimizers.py:46 | An exception ends the run: later iteration counts give the same outcome. |
| Optimizer.Run | ceviche/optimizers.py:7-52 | The result of adam_optimize: a returned run has exactly Nsteps history entries, and a failed one between 1 and Nsteps. |
| Optimizer.Step | ceviche/optimizers.py:16-50 | One pass of the loop body gives exactly the next prefix, with rho held in a fresh array clamped in place. |
| Optimizer.AdamOptimize | ceviche/optimizers.py:7-52 | The imperative loop returns (rho, of_list), or the exception with the list built so far, exactly as Run defines. |
| OptimizerProperties.IterateAppends | ceviche/optimizers.py:30 | The value appended is the objective at the callback's parameters, and it is appended before any exception. |
| OptimizerProperties.RecordsExtend | ceviche/optimizers.py:30 | Appending the next iteration's value keeps every entry equal to its own iteration's value. |
| OptimizerProperties.PrefixHistory | ceviche/optimizers.py:14-30 | After k iterations the history has k entries, or between 1 and k once an iteration raised. Entry i is the objective value of iteration i, computed from the callback shown entries 0..i-1. |
| OptimizerProperties.HistoryOfRun | ceviche/optimizers.py:10-52 | The returned list has exactly Nsteps entries, in iteration order. |
| OptimizerProperties.HistoryAppendOnly | ceviche/optimizers.py:30 | An earlier state's history is a prefix of every later running state's. |
| OptimizerProperties.RaisedHistoryExtends | ceviche/optimizers.py:17-46 | When an iteration raises, the list `of_list` the callback was handed then has more entries than any earlier running state's history, and that history is its prefix. |
| OptimizerProperties.RaisingIteration | ceviche/optimizers.py:14-46 | Between a running state and a later raised one lies the iteration that raised: the state before it is running, and the state after it is raised and stays the final state. |
| OptimizerProperties.HistoryStep | ceviche/optimizers.py:30 | From a running state the next iteration appends exactly its objective value, whether it then raises or not. |
| OptimizerProperties.FirstIterationUnknownDirection | ceviche/optimizers.py:35-46 | Iteration 0 with an unknown direction raises the ValueError of line 46 after recording one value. The fresh zero moments always have the gradient's shape. |
| OptimizerProperties.KnownDirectionNeverInvalid | ceviche/optimizers.py:41-46 | With 'min' or 'max', no iteration raises the ValueError of line 46. |
| OptimizerProperties.InvalidDirectionIff | ceviche/optimizers.py:41-46 | The run raises the ValueError of line 46 if and only if the direction is neither 'min' nor 'max'. It then stops on iteration 0 with exactly one history entry and no update of rho. |
| OptimizerProperties.BoundsHold | ceviche/optimizers.py:48-50 | With bounds lo <= hi, every parameter after every iteration is in [lo, hi]. |
| OptimizerProperties.ReturnedWithinBounds | ceviche/optimizers.py:48-52 | With bounds lo <= hi, every entry of the returned rho is in [lo, hi]. |
| OptimizerProperties.IterateIgnoresPreviousRho | ceviche/optimizers.py:16-17 | An iteration's outcome does not depend on the previous rho: the callback's value overwrites it, and only the history and moments carry over. |
| OptimizerProperties.IterateUpdate | ceviche/optimizers.py:16-50 | With a known direction and matching shapes, the iteration does not raise. It appends the value and keeps step_adam's uncorrected moments. Its rho is the callback's rho moved by step_size times the step, then bounded. |
| OptimizerProperties.ReturnedIsLastUpdate | ceviche/optimizers.py:35-52 | The returned rho is the last iteration's callback rho after one update with the step from that iteration's gradient and the carried moments, then one clamp. |
| OptimizerProperties.Move | ceviche/optimizers.py:41-44 | For 'min' each entry decreases by step_size times the step; otherwise it increases by that amount. The length is unchanged. |
| OptimizerProperties.MoveComponent | ceviche/optimizers.py:41-44 | A component moves down for 'min' and up for 'max' by step_size times the step. This is less than step_size, with the sign of the gradient. |
| OptimizerProperties.FirstMoveFollowsGradientSign | ceviche/optimizers.py:35-46 | Without bounds, iteration 0 moves each parameter against its gradient's sign for 'min' and with it for 'max', by less than step_size. A zero gradient means no move. |
| OptimizerProperties.IterateConstantGradient | ceviche/optimizers.py:35-50 | Under a constant gradient, an iteration zeroes or carries the moments, keeps them in closed form with the next exponent, and moves by step_size * g / (abs(g) + epsilon). |
| OptimizerProperties.ConstantGradientIterate | ceviche/optimizers.py:14-50 | The same, stated on consecutive states of the run. |
| OptimizerProperties.ConstantGradientRun | ceviche/optimizers.py:35-39 | Under a constant gradient no iteration raises. After k >= 1 iterations the carried moments are (1-beta1**k)*g and (1-beta2**k)*g**2. |
| OptimizerProperties.ConstantGradientUpdate | ceviche/optimizers.py:39-50 | Under a constant gradient, every iteration sets rho to the callback's parameters moved by step_size * g / (abs(g) + epsilon), then bounded. |
| OptimizerProperties.SingleStepScenario | ceviche/optimizers.py:7-52 | Gradient [2.0], start [5.0], step_size 1, 'min', one step, no bounds: the run returns [5 - 2/(2 + 1e-8)] and a one-entry history. |

## Left out

- Floating point: all numbers are reals. Overflow, rounding, inf and NaN are not modelled. `StepAdam` restricts beta1 and beta2 to [0, 1), the range Adam defines for decay rates. It also requires a positive epsilon and a non-negative old second moment. With a rate of exactly 1 the bias correction divides by zero, and a negative vopt puts a negative number under the square root; numpy then gives inf or NaN, which the model does not represent.
- `np.sqrt` is a parameter. Only its root property on non-negative arguments is assumed.
- The tqdm progress bar, `time.time()` timing, the verbose `print` and `np.set_printoptions` (lines 2, 4, 12, 14, 22, 28, 32-33) are I/O only.
- Autograd `ArrayBox` unwrapping (lines 5 and 30): the objective returns a plain real.
- The joint value-and-gradient mode (`jacobian==True`, lines 23-24) is not modelled. Line 20 already calls `jacobian(obj)`, so as written this branch cannot be reached. `jacobian` is modelled as a gradient provider only, and its call at line 20 is pure here.
- The callback, the objective and `jacobian` are modelled as pure, total functions. So they cannot raise. They cannot mutate `state`. They cannot mutate the live list `of_list`, which line 17 hands to the callback and line 30 appends to. `OptimizerProperties.HistoryOfRun` and `OptimizerProperties.RecordsExtend` hold under this purity.
- `rho` and the gradient may have any numpy shape, typically 2-D. They are flattened to `seq<real>` here, and the element-wise operations act entry by entry in the same way. Flattening also loses numpy's error for arrays of equal size but different shape: rho of shape (2, 3) with a gradient of shape (3, 2) raises ValueError at line 42 (or 44), while the model goes ahead entry by entry.
- Numpy broadcasting is not modelled: moments, gradient and parameters of different lengths raise `ShapeMismatch`.
- No callback, and `Nsteps == 0`, are preconditions (`AdamOptimize` requires nSteps >= 1 and takes a callback). In Python these paths fail with an unbound `params` or `rho`.
- The default argument values are not modelled as defaults; the caller passes every argument. step_adam's default epsilon 1e-8 is the constant `Optimizer.Epsilon`, because the driver never overrides it.
- Convergence of the optimiser is not claimed.
- `ceviche/viz.py` (plotting) is not part of this model.
