# NLOP search and optimizer loops in Dafny

This project models four iterative algorithms of the NLOP nonlinear
optimization library, with exact reals in place of floating point:

- the **bisection one-dimensional search** (`BisectionMethod::search`), which
  narrows a bracket `[alpha, beta]` around a trial step `lambda`;
- the **Armijo/Goldstein inexact step-size search** (`ArmijoMethod::setParams`,
  `ArmijoMethod::search`), which grows or shrinks `lambda` until both the
  sufficient-decrease condition and the Goldstein lower bound hold, under an
  iteration budget;
- the **Newton optimizer** (`NewtonOptimizer::init`, `::optimize`), which
  steps by `H(x)^-1 g(x)^T` until the step is short;
- the **Nesterov momentum optimizer** (`NesterovMomentumOptimizer::init`,
  `::optimize`), which moves by a velocity taken from the gradient at a
  lookahead point until the gradient is short.

Each algorithm is a class whose fields are the ones the source updates in
place: the bracket and counter of the bisection search; the `lambda`,
`lhs`, `rhs1` and `rhs2` fields and the owned parameters of the Armijo
search; and the bound evaluator, parameters and loop fields of the two
optimizers. The objective's evaluator (`Objective.Evaluator`) owns the
current point, which the optimizers move with `SetX`. The parameter
bundles and their iteration counters are in `Params`.

The loops of the Armijo search and of the two optimizers are `while`
loops proved against a recursive reference definition of the same loop:
`Armijo.SearchFrom`/`Armijo.TrialAt`, `Newton.NewtonFrom` and
`Nesterov.NesterovFrom`. Each of these methods' `ensures` ties the returned
value and the new state to that definition. The bisection loop is proved
against the closed form of its bracket instead: after k passes the width
is the starting width halved k - 1 times (`Bisection.Halved`), and the
trial points it tested are `Bisection.TrialPoint`. The
properties the source promises are then lemmas about the definitions: why
a run stops, the budget bound, the conditions an accepted step satisfies,
how `lambda` is rescaled, and Newton's one-step landing on a quadratic. A
further lemma shows that Nesterov's method with zero momentum is gradient
descent.

In the bisection search, the side to cut is chosen by testing the
derivative's magnitude for being positive, right after the test for it
being zero failed. So only the "cut the right half" branch can run. The
model keeps both branches in `Bisection.Cut` and proves that the left one
is unreachable. The search therefore never moves `alpha`, and from its
second pass on it halves the bracket.

The objective's value and gradient, the Hessian solve and the vector
norm are functions the model takes as given. The norm is only assumed to
be non-negative and zero exactly at the zero vector (`Numeric.IsNorm`).

## Model

| member | source | states |
|---|---|---|
| Bisection.Magnitude | include/OneDimensionalSearch/BisectionMethod.hpp:35 | the norm of phi's 1x1 Jacobian is never negative and is zero exactly when the derivative is zero |
| Bisection.LeftCutUnreachable | include/OneDimensionalSearch/BisectionMethod.hpp:35-57 | once the zero test has failed, a narrowing step always takes the right-half branch: beta := lambda, lambda := (alpha + beta)/2, alpha kept |
| Bisection.CutStaysInBracket | include/OneDimensionalSearch/BisectionMethod.hpp:43-57 | if lambda lies in [alpha, beta], the new bracket lies inside the old one and holds the new lambda (either branch) |
| Bisection.CutHalvesBracket | include/OneDimensionalSearch/BisectionMethod.hpp:43-57 | when lambda is the middle of the bracket, a step halves the bracket and keeps lambda in the middle (either branch) |
| Bisection.HalvingLowersFloor | include/OneDimensionalSearch/BisectionMethod.hpp:26-58 | halving a width of at least epsilon lowers the whole number of epsilons it holds, so the loop terminates for epsilon > 0 |
| Bisection.BisectionMethod.constructor | include/OneDimensionalSearch/BisectionMethod.hpp:16-22 | a search starts from the given bracket, tolerance, trial point, budget and line function, with its counter at zero |
| Bisection.BisectionMethod.Search | include/OneDimensionalSearch/BisectionMethod.hpp:24-59 | returns the final lambda; at return beta - alpha < epsilon or phi'(lambda) = 0; alpha never changes; the counter never decreases; with no pass, nothing changes; after k passes phi sits at lambda = (alpha + beta)/2 and the width is (lambda0 - alpha)/2^(k-1); a pass is taken only when the stop test failed: the first with the starting width at least epsilon and phi'(x0) != 0, every later one with phi' nonzero at the trial point alpha + (lambda0 - alpha)/2^j and the width (lambda0 - alpha)/2^(k-2) at least epsilon; alpha <= lambda <= beta is kept |
| Objective.Evaluator.SetX | include/LineSearchMethods/NewtonOptimizer.hpp:73 | moving the evaluator sets its current point and nothing else |
| Objective.Evaluator.Jacobian | include/LineSearchMethods/NewtonOptimizer.hpp:63 | the gradient at the current point has the evaluator's dimension |
| Objective.LineFunction.SetX | include/OneDimensionalSearch/BisectionMethod.hpp:48 | moving phi sets its current point |
| Params.NewtonParams.NextIteration | include/LineSearchMethods/NewtonOptimizer.hpp:74 | the counter goes up by exactly one |
| Params.NesterovMomentumParams.NextIteration | include/LineSearchMethods/NesterovMomentumOptimizer.hpp:89 | the counter goes up by exactly one |
| Params.ArmijoParams.NextIteration | include/StepsizeSearch/Inaccurate/ArmijoMethod.hpp:59 | the counter goes up by exactly one; the five common values are unchanged |
| Params.ArmijoParams.Reset | include/StepsizeSearch/Inaccurate/ArmijoMethod.hpp:49 | the counter starts over at zero; the five common values are unchanged |
| Armijo.ArmijoMethod.constructor | include/StepsizeSearch/Inaccurate/ArmijoMethod.hpp:24 | the search owns a fresh parameter object holding the defaults, with its counter at zero |
| Armijo.ArmijoMethod.SetParams | include/StepsizeSearch/Inaccurate/ArmijoMethod.hpp:28-35 | copies exactly the upper and lower bounds, the budget and the two factors; rho, mu, the initial lambda factor and the counter are unchanged |
| Armijo.UnfoldExhausted | include/StepsizeSearch/Inaccurate/ArmijoMethod.hpp:54-58 | a counter above the budget returns the current lambda unaccepted, after no trial |
| Armijo.UnfoldTrial | include/StepsizeSearch/Inaccurate/ArmijoMethod.hpp:54-60 | within the budget, the loop makes a trial |
| Armijo.AcceptedAtOnce | include/StepsizeSearch/Inaccurate/ArmijoMethod.hpp:66-74 | a trial lambda satisfying both conditions is returned as it is, accepted after one trial |
| Armijo.UnfoldGrow | include/StepsizeSearch/Inaccurate/ArmijoMethod.hpp:66-76 | when (1) holds and (2) fails, the search continues from lambda * increase with the counter one higher |
| Armijo.UnfoldShrink | include/StepsizeSearch/Inaccurate/ArmijoMethod.hpp:66-79 | when (1) fails, the search continues from lambda * decrease with the counter one higher |
| Armijo.AcceptedSatisfiesBothConditions | include/StepsizeSearch/Inaccurate/ArmijoMethod.hpp:60-74 | an accepted lambda satisfies f(x + lambda d) - f(x) <= rho (J d) lambda and >= (mu rho) (J d) lambda |
| Armijo.TrialsWithinBudget | include/StepsizeSearch/Inaccurate/ArmijoMethod.hpp:54-60 | at most max_iterations + 1 - counter trials; all of them when the budget runs out; at least one when accepted |
| Armijo.LambdaIsScaledByFactors | include/StepsizeSearch/Inaccurate/ArmijoMethod.hpp:50-79 | the returned lambda is the start times increase^i times decrease^j, where i + j is the number of rejected trials |
| Armijo.ArmijoMethod.Trial | include/StepsizeSearch/Inaccurate/ArmijoMethod.hpp:59-79 | one pass counts a trial, leaves the evaluator and the common parameters alone, and either accepts lambda (with lhs, rhs1, rhs2 the two sides at it) or continues the reference loop from the grown or shrunk lambda |
| Armijo.ArmijoMethod.Search | include/StepsizeSearch/Inaccurate/ArmijoMethod.hpp:39-81 | starts from initLambdaFactor * upperBound after a reset and returns exactly the lambda of the reference loop; the evaluator's point and the common parameters are unchanged; the counter is zero after acceptance and equals the trial count after running out; on acceptance lhs, rhs1 and rhs2 are the two sides of the conditions at the returned lambda |
| Newton.UnfoldExhausted | include/LineSearchMethods/NewtonOptimizer.hpp:55-59 | a counter above the budget returns the current point without computing a step |
| Newton.UnfoldConverged | include/LineSearchMethods/NewtonOptimizer.hpp:62-71 | a step shorter than min_delta_x returns the current point, not x - delta |
| Newton.UnfoldUpdate | include/LineSearchMethods/NewtonOptimizer.hpp:62-75 | otherwise the run continues from x - H(x)^-1 g(x)^T with the counter one higher |
| Newton.NewtonRunEnds | include/LineSearchMethods/NewtonOptimizer.hpp:50-75 | a converged run returns a point whose step is shorter than min_delta_x; an unconverged one is past the budget; at most max_iterations + 1 - counter point updates |
| Newton.NewtonExhaustsBudget | include/LineSearchMethods/NewtonOptimizer.hpp:55-74 | a run started within the budget that does not converge ends with the counter at exactly max_iterations + 1 |
| Newton.QuadraticUpdateIsStationary | include/LineSearchMethods/NewtonOptimizer.hpp:65-73 | on a quadratic (h/2) x.x + b.x, one update from any point lands where the gradient h x + b is zero |
| Newton.QuadraticStepVanishesWhenStationary | include/LineSearchMethods/NewtonOptimizer.hpp:65 | on a quadratic with h != 0, the step at a stationary point is the zero vector |
| Newton.QuadraticRunFromStationary | include/LineSearchMethods/NewtonOptimizer.hpp:55-71 | a run started at a stationary point of a quadratic returns it at once, converged exactly when the budget allows the pass |
| Newton.QuadraticRun | include/LineSearchMethods/NewtonOptimizer.hpp:50-75 | a run on a quadratic either returns the start point at once or makes exactly one update to the stationary point and stops there |
| Newton.NewtonOptimizer.constructor | include/LineSearchMethods/NewtonOptimizer.hpp:27 | a new optimizer is bound to no evaluator and no parameters |
| Newton.NewtonOptimizer.Init | include/LineSearchMethods/NewtonOptimizer.hpp:31-38 | binds the evaluator and the parameters and moves the evaluator to the initial point |
| Newton.NewtonOptimizer.Optimize | include/LineSearchMethods/NewtonOptimizer.hpp:41-79 | returns the point of the reference loop from the evaluator's point and the counter, leaves the evaluator there and the counter where the run ended; on convergence x, g and delta_x are the returned point, its gradient and its step |
| Nesterov.Lookahead | include/LineSearchMethods/NesterovMomentumOptimizer.hpp:81 | the lookahead x + beta v_last has the point's dimension |
| Nesterov.Velocity | include/LineSearchMethods/NesterovMomentumOptimizer.hpp:82-83 | the velocity beta v_last - alpha grad(lookahead) has the point's dimension |
| Nesterov.UnfoldStop | include/LineSearchMethods/NesterovMomentumOptimizer.hpp:64-77 | past the budget, or when the gradient at the current point is short, the current point and velocity are returned, converged exactly when within the budget |
| Nesterov.UnfoldUpdate | include/LineSearchMethods/NesterovMomentumOptimizer.hpp:78-89 | otherwise the run continues from x + v with v as the next v_last and the counter one higher |
| Nesterov.NesterovRunEnds | include/LineSearchMethods/NesterovMomentumOptimizer.hpp:59-91 | a converged run returns a point whose gradient is shorter than min_gradient; an unconverged one ends with the counter just above the budget; at most max_iterations + 1 - counter point updates |
| Nesterov.StopsAtStationaryPoint | include/LineSearchMethods/NesterovMomentumOptimizer.hpp:71-77 | the test uses the gradient at the current point: at a stationary point a run with a positive tolerance stops at once, whatever its velocity |
| Nesterov.ZeroMomentumStep | include/LineSearchMethods/NesterovMomentumOptimizer.hpp:81-86 | with beta = 0, the update x + v is x - alpha grad(x) |
| Nesterov.ZeroMomentumIsGradientDescent | include/LineSearchMethods/NesterovMomentumOptimizer.hpp:59-91 | with beta = 0, a run returns the same point, counter and stopping reason as gradient descent with learning rate alpha |
| Nesterov.NesterovMomentumOptimizer.constructor | include/LineSearchMethods/NesterovMomentumOptimizer.hpp:26 | a new optimizer is bound to no evaluator and no parameters |
| Nesterov.NesterovMomentumOptimizer.Init | include/LineSearchMethods/NesterovMomentumOptimizer.hpp:30-39 | binds the evaluator and the parameters, moves the evaluator to the initial point and sets v_last to the zero vector |
| Nesterov.NesterovMomentumOptimizer.ComputeValueAndJacobian | include/LineSearchMethods/NesterovMomentumOptimizer.hpp:42-45 | the value and the gradient at the given point, with the evaluator left where it is |
| Nesterov.NesterovMomentumOptimizer.Optimize | include/LineSearchMethods/NesterovMomentumOptimizer.hpp:48-92 | returns the point of the reference loop from the evaluator's point, the kept velocity and the counter; the evaluator ends there, v_last at the run's velocity and the counter where the run ended |
| Numeric.Zeros | include/LineSearchMethods/NesterovMomentumOptimizer.hpp:38 | the zero vector of the requested dimension |
| Numeric.ZeroVectorNormBelow | include/LineSearchMethods/NesterovMomentumOptimizer.hpp:71 | the norm of the zero vector is below a bound exactly when the bound is positive |

## Left out

- Console and file output (`std::cout`, `std::cerr`, the log writer, `printProcessInformation`, `writeInformation`) is not modelled. Newton's `writer.close()` after its loop cannot be reached and is left out with the rest.
- Floating point: all scalars are exact reals, so termination and the exact-zero tests are about reals, not IEEE values.
- The objective's value and gradient (automatic differentiation), the Hessian solve `H(x).inverse() * g^T` and `norm()` are given functions. A singular Hessian is not guarded in the source, and the model does not invent behaviour for it: the solve is any function of the right shape.
- The value and Jacobian caches that `updateValue` and `updateValueAndJacobian` refresh are not modelled. The evaluator computes both from its current point, which is what the optimizer loops read right after each refresh.
- The base class's `reset(params)` is not part of this model. It is taken to zero the search's counter (`Params.ArmijoParams.Reset`).
- The parameter classes are modelled only with the members the four algorithms read or write. The default values of `ArmijoParams` are constructor arguments of `Armijo.ArmijoMethod`.
- The bisection test is written `phi.getJacobian.norm()`, without call parentheses, which does not compile. It is modelled as the intended magnitude of phi'(lambda).
- Bisection.BisectionMethod.Search: requires epsilon > 0. With epsilon <= 0 the source can loop forever, stopping only at a zero derivative, and a non-terminating loop is not modelled.
- Bisection.BisectionMethod.Search: `max_iteration_times` is never consulted by the search, and the model does not consult it either.
- Armijo.ArmijoMethod.Search: the source never refreshes the evaluator and reads `getY()` and `getJacobian()` as the caller left them. The model reads the value and gradient at the evaluator's current point, so it assumes the caller refreshed both there before the search.
- Armijo.ArmijoMethod.Search: lhs, rhs1 and rhs2 are stated only on acceptance. After the budget runs out they hold the last trial's values, which the contract does not state.
- Newton.NewtonOptimizer.Optimize: x, g and delta_x are stated only when the step test stops the run. After the budget runs out they hold the last pass's values, which the contract does not state.
- Nesterov.NesterovMomentumOptimizer.Optimize: v, x_next, jac_next and y_next are the last pass's scratch values and are not stated. The returned point, v_last and the counter are.
- Counters are unbounded naturals: integer overflow of the iteration counters is not modelled.
