/** Newton's method (`NewtonOptimizer`): from the evaluator's current point
    x it repeatedly checks the iteration budget, computes the Newton step
    delta = H(x)^-1 g(x)^T, returns x once the step is shorter than the
    tolerance, and otherwise moves the evaluator to x - delta and counts the
    pass. The Hessian solve and the vector norm are given as functions. */
module Newton {
  import opened Numeric
  import opened Objective
  import opened Params

  /** `solve(p, g)` stands for `H(p).inverse() * g.transpose()`: for points
      and gradients of dimension `n` it is a vector of dimension `n`. */
  ghost predicate SolveShaped(n: nat, solve: (Vector, Vector) -> Vector)
  {
    forall p, g :: |p| == n && |g| == n ==> |solve(p, g)| == n
  }

  /** How a run ends: the point returned, the counter at that moment, and
      whether the step test stopped it (rather than the budget). */
  datatype Run = Run(point: Vector, counter: nat, converged: bool)

  /** The Newton step at `p`. */
  function Step(gradient: Vector -> Vector, solve: (Vector, Vector) -> Vector, p: Vector): (delta: Vector)
  {
    solve(p, gradient(p))
  }

  /** The reference definition of the optimization loop from point `p` with
      the counter at `counter`. */
  function NewtonFrom(gradient: Vector -> Vector, solve: (Vector, Vector) -> Vector, norm: Vector -> real,
                      minDeltaX: real, maxIterations: int, p: Vector, counter: nat): (run: Run)
    requires GradientShaped(|p|, gradient) && SolveShaped(|p|, solve)
    decreases Budget(counter, maxIterations)
  {
    if counter > maxIterations then Run(p, counter, false)
    else
      var delta := Step(gradient, solve, p);
      if norm(delta) < minDeltaX then Run(p, counter, true)
      else NewtonFrom(gradient, solve, norm, minDeltaX, maxIterations, Sub(p, delta), counter + 1)
  }

  /** A run stops for one of its two reasons only: a converged run returns a
      point whose Newton step is shorter than the tolerance, and a run that
      did not converge has used up its budget. The counter only moves
      forward, once per point update, and never beyond the first value
      above the budget: at most `maxIterations + 1 - counter` updates. */
  lemma {:induction false} NewtonRunEnds(gradient: Vector -> Vector, solve: (Vector, Vector) -> Vector, norm: Vector -> real,
                                        minDeltaX: real, maxIterations: int, p: Vector, counter: nat)
    requires GradientShaped(|p|, gradient) && SolveShaped(|p|, solve)
    ensures var run := NewtonFrom(gradient, solve, norm, minDeltaX, maxIterations, p, counter);
      |run.point| == |p| &&
      (run.converged ==> run.counter <= maxIterations && norm(Step(gradient, solve, run.point)) < minDeltaX) &&
      (!run.converged ==> run.counter > maxIterations) &&
      counter <= run.counter <= counter + Budget(counter, maxIterations)
    decreases Budget(counter, maxIterations)
  {
    if counter <= maxIterations {
      var delta := Step(gradient, solve, p);
      if norm(delta) >= minDeltaX {
        NewtonRunEnds(gradient, solve, norm, minDeltaX, maxIterations, Sub(p, delta), counter + 1);
      }
    }
  }

  /** The whole budget is used up only when no step was ever short enough: a
      run that starts within the budget and does not converge ends with the
      counter exactly one above the budget. */
  lemma {:induction false} NewtonExhaustsBudget(gradient: Vector -> Vector, solve: (Vector, Vector) -> Vector, norm: Vector -> real,
                                               minDeltaX: real, maxIterations: int, p: Vector, counter: nat)
    requires GradientShaped(|p|, gradient) && SolveShaped(|p|, solve)
    requires counter <= maxIterations + 1
    ensures var run := NewtonFrom(gradient, solve, norm, minDeltaX, maxIterations, p, counter);
      !run.converged ==> run.counter == maxIterations + 1
    decreases Budget(counter, maxIterations)
  {
    if counter <= maxIterations {
      var delta := Step(gradient, solve, p);
      if norm(delta) >= minDeltaX {
        NewtonExhaustsBudget(gradient, solve, norm, minDeltaX, maxIterations, Sub(p, delta), counter + 1);
      }
    }
  }

  // One pass of NewtonFrom per case.

  lemma UnfoldExhausted(gradient: Vector -> Vector, solve: (Vector, Vector) -> Vector, norm: Vector -> real,
                        minDeltaX: real, maxIterations: int, p: Vector, counter: nat)
    requires GradientShaped(|p|, gradient) && SolveShaped(|p|, solve)
    requires counter > maxIterations
    ensures NewtonFrom(gradient, solve, norm, minDeltaX, maxIterations, p, counter) == Run(p, counter, false)
  {
  }

  lemma UnfoldConverged(gradient: Vector -> Vector, solve: (Vector, Vector) -> Vector, norm: Vector -> real,
                        minDeltaX: real, maxIterations: int, p: Vector, counter: nat)
    requires GradientShaped(|p|, gradient) && SolveShaped(|p|, solve)
    requires counter <= maxIterations && norm(Step(gradient, solve, p)) < minDeltaX
    ensures NewtonFrom(gradient, solve, norm, minDeltaX, maxIterations, p, counter) == Run(p, counter, true)
  {
  }

  lemma UnfoldUpdate(gradient: Vector -> Vector, solve: (Vector, Vector) -> Vector, norm: Vector -> real,
                     minDeltaX: real, maxIterations: int, p: Vector, counter: nat)
    requires GradientShaped(|p|, gradient) && SolveShaped(|p|, solve)
    requires counter <= maxIterations && norm(Step(gradient, solve, p)) >= minDeltaX
    ensures |Sub(p, Step(gradient, solve, p))| == |p|
    ensures NewtonFrom(gradient, solve, norm, minDeltaX, maxIterations, p, counter)
         == NewtonFrom(gradient, solve, norm, minDeltaX, maxIterations, Sub(p, Step(gradient, solve, p)), counter + 1)
  {
  }

  /** The product of the Hessian scale h with one coordinate. */
  function Times(h: real, x: real): real
  {
    h * x
  }

  /** One coordinate of a Newton update on a quadratic with Hessian h I and
      linear term b: the step d solves h d = h p + b, and the gradient
      h x + b vanishes at the new coordinate x = p - d. */
  lemma ScalarUpdate(h: real, p: real, d: real, b: real, x: real)
    requires Times(h, d) == Times(h, p) + b && x == p - d
    ensures Times(h, x) + b == 0.0
  {
    assert h * (p - d) == h * p - h * d;
  }

  /** A coordinate of the step solves h d = 0, so it is zero when h is not. */
  lemma ScalarZeroStep(h: real, d: real)
    requires h != 0.0 && Times(h, d) == 0.0
    ensures d == 0.0
  {
  }

  /** `gradient` is the gradient h x + b of the quadratic (h/2) x.x + b.x
      (a x.x + b.x with h = 2 a), and `solve(p, g)` solves the Newton system
      h delta = g with its constant Hessian h I; both coordinate by
      coordinate. */
  ghost predicate Quadratic(h: real, b: Vector, gradient: Vector -> Vector, solve: (Vector, Vector) -> Vector)
  {
    (forall p :: |p| == |b| ==> |gradient(p)| == |b|) &&
    (forall p, i :: |p| == |b| && 0 <= i < |b| ==> gradient(p)[i] == Times(h, p[i]) + b[i]) &&
    (forall p, g :: |p| == |b| && |g| == |b| ==> |solve(p, g)| == |b|) &&
    (forall p, g, i :: |p| == |b| && |g| == |b| && 0 <= i < |b| ==> Times(h, solve(p, g)[i]) == g[i])
  }

  /** On a quadratic, one Newton update from any point lands on the
      stationary point, where the gradient h x + b vanishes (the minimizer
      -b / h when h > 0). */
  lemma QuadraticUpdateIsStationary(h: real, b: Vector, gradient: Vector -> Vector,
                                    solve: (Vector, Vector) -> Vector, p: Vector)
    requires |p| == |b|
    requires Quadratic(h, b, gradient, solve)
    ensures IsZeroVector(gradient(Sub(p, Step(gradient, solve, p))))
  {
    var g := gradient(p);
    var delta := Step(gradient, solve, p);
    var next := Sub(p, delta);
    var gradientThere := gradient(next);
    forall i | 0 <= i < |gradientThere|
      ensures gradientThere[i] == 0.0
    {
      ScalarUpdate(h, p[i], delta[i], b[i], next[i]);
    }
  }

  /** On a quadratic with h != 0, the Newton step at a stationary point is
      the zero vector. */
  lemma QuadraticStepVanishesWhenStationary(h: real, b: Vector, gradient: Vector -> Vector,
                                            solve: (Vector, Vector) -> Vector, m: Vector)
    requires h != 0.0 && |m| == |b|
    requires Quadratic(h, b, gradient, solve)
    requires IsZeroVector(gradient(m))
    ensures IsZeroVector(Step(gradient, solve, m))
  {
    var g := gradient(m);
    var delta := Step(gradient, solve, m);
    forall i | 0 <= i < |delta|
      ensures delta[i] == 0.0
    {
      assert Times(h, delta[i]) == g[i] == 0.0;
      ScalarZeroStep(h, delta[i]);
    }
  }

  /** On a quadratic with h != 0 and a positive tolerance, a run that
      starts at a stationary point returns it at once: converged if the
      budget allows the pass, out of budget otherwise. */
  lemma QuadraticRunFromStationary(h: real, b: Vector, gradient: Vector -> Vector,
                                   solve: (Vector, Vector) -> Vector, norm: Vector -> real,
                                   minDeltaX: real, maxIterations: int, m: Vector, counter: nat)
    requires h != 0.0 && minDeltaX > 0.0 && |m| == |b|
    requires Quadratic(h, b, gradient, solve) && IsNorm(norm)
    requires GradientShaped(|m|, gradient) && SolveShaped(|m|, solve)
    requires IsZeroVector(gradient(m))
    ensures NewtonFrom(gradient, solve, norm, minDeltaX, maxIterations, m, counter) == Run(m, counter, counter <= maxIterations)
  {
    if counter <= maxIterations {
      QuadraticStepVanishesWhenStationary(h, b, gradient, solve, m);
      ZeroVectorNormBelow(norm, Step(gradient, solve, m), minDeltaX);
      UnfoldConverged(gradient, solve, norm, minDeltaX, maxIterations, m, counter);
    } else {
      UnfoldExhausted(gradient, solve, norm, minDeltaX, maxIterations, m, counter);
    }
  }

  /** A whole run on a quadratic (h/2) x.x + b.x with h != 0 and a positive
      tolerance, started within the budget: either the first step is already
      short enough and the start point comes back, or one update reaches the
      stationary point, where the run converges if the budget allows another
      pass and runs out of budget otherwise. */
  lemma {:induction false} QuadraticRun(h: real, b: Vector, gradient: Vector -> Vector,
                                        solve: (Vector, Vector) -> Vector, norm: Vector -> real,
                                        minDeltaX: real, maxIterations: int, p: Vector, counter: nat)
    requires h != 0.0 && minDeltaX > 0.0 && |p| == |b|
    requires Quadratic(h, b, gradient, solve) && IsNorm(norm)
    requires GradientShaped(|p|, gradient) && SolveShaped(|p|, solve)
    requires counter <= maxIterations
    ensures var run := NewtonFrom(gradient, solve, norm, minDeltaX, maxIterations, p, counter);
      if norm(Step(gradient, solve, p)) < minDeltaX then run == Run(p, counter, true)
      else run == Run(Sub(p, Step(gradient, solve, p)), counter + 1, counter + 1 <= maxIterations) &&
           IsZeroVector(gradient(run.point))
  {
    var delta := Step(gradient, solve, p);
    if norm(delta) < minDeltaX {
      UnfoldConverged(gradient, solve, norm, minDeltaX, maxIterations, p, counter);
    } else {
      var m := Sub(p, delta);
      UnfoldUpdate(gradient, solve, norm, minDeltaX, maxIterations, p, counter);
      QuadraticUpdateIsStationary(h, b, gradient, solve, p);
      QuadraticRunFromStationary(h, b, gradient, solve, norm, minDeltaX, maxIterations, m, counter + 1);
    }
  }

  /** The Newton optimizer: the evaluator `f` and the parameters it is bound
      to by `init`, the Hessian solve and the norm, and the fields the loop
      keeps: the current point `x`, its gradient `g` and the step `deltaX`. */
  class NewtonOptimizer {
    var f: Evaluator?
    var params: NewtonParams?
    const hessianSolve: (Vector, Vector) -> Vector
    const norm: Vector -> real
    var deltaX: Vector
    var x: Vector
    var g: Vector

    ghost predicate Valid()
      reads this, f
    {
      f != null && params != null && f.Valid() && SolveShaped(f.dim, hessianSolve)
    }

    constructor (hessianSolve: (Vector, Vector) -> Vector, norm: Vector -> real)
      ensures this.hessianSolve == hessianSolve && this.norm == norm
      ensures f == null && params == null
    {
      this.hessianSolve := hessianSolve;
      this.norm := norm;
      f := null;
      params := null;
      deltaX, x, g := [], [], [];
    }

    /** `init`: binds the evaluator and the parameters and moves the
        evaluator to the initial point. */
    method Init(initial: Vector, f: Evaluator, params: NewtonParams)
      requires f.Valid() && |initial| == f.dim && SolveShaped(f.dim, hessianSolve)
      modifies this, f
      ensures Valid() && this.f == f && this.params == params
      ensures f.x == initial
    {
      this.f := f;
      f.SetX(initial);
      this.params := params;
    }

    /** `optimize`: runs the loop of NewtonFrom on the evaluator's point and
        the parameters' counter, leaves the evaluator at the returned point
        and the counter where the run ended it; when the step test stopped
        the run, `x`, `g` and `deltaX` hold the returned point, its gradient
        and its step. */
    method Optimize() returns (r: Vector)
      requires Valid()
      modifies this, f, params
      ensures Valid() && f == old(f) && params == old(params)
      ensures var run := NewtonFrom(f.gradient, hessianSolve, norm, params.minDeltaX, params.maxIterations,
                                    old(f.x), old(params.iterationTimes));
        r == run.point && f.x == r && params.iterationTimes == run.counter &&
        (run.converged ==> x == r && g == f.gradient(r) && deltaX == hessianSolve(r, g))
    {
      var maxIterations := params.maxIterations;
      var minDeltaX := params.minDeltaX;
      ghost var total := NewtonFrom(f.gradient, hessianSolve, norm, minDeltaX, maxIterations, f.x, params.iterationTimes);
      while true
        invariant Valid() && f == old(f) && params == old(params)
        invariant total == NewtonFrom(f.gradient, hessianSolve, norm, minDeltaX, maxIterations, f.x, params.iterationTimes)
        decreases Budget(params.iterationTimes, maxIterations)
      {
        if params.iterationTimes > maxIterations {
          r := f.x;
          return;
        }
        x := f.x;
        g := f.Jacobian();
        deltaX := hessianSolve(x, g);
        if norm(deltaX) < minDeltaX {
          r := f.x;
          return;
        }
        f.SetX(Sub(x, deltaX));
        params.NextIteration();
      }
    }
  }
}
