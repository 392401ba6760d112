/** Nesterov's momentum method (`NesterovMomentumOptimizer`): from the
    evaluator's current point x and the velocity v_last of the previous pass
    it repeatedly checks the iteration budget, returns x once the gradient at
    x is shorter than the tolerance, and otherwise looks ahead to
    x + beta v_last, takes the gradient there, sets the velocity
    v = beta v_last - alpha grad(x + beta v_last), moves the evaluator to
    x + v, keeps v as the next v_last and counts the pass. */
module Nesterov {
  import opened Numeric
  import opened Objective
  import opened Params

  /** How a run ends: the point returned, the velocity kept in `v_last`,
      the counter at that moment, and whether the gradient test stopped it
      (rather than the budget). */
  datatype Run = Run(point: Vector, velocity: Vector, counter: nat, converged: bool)

  /** The lookahead point x + beta v_last. */
  function Lookahead(p: Vector, vLast: Vector, beta: real): (q: Vector)
    requires |vLast| == |p|
    ensures |q| == |p|
  {
    Add(p, Scale(beta, vLast))
  }

  /** The new velocity beta v_last - alpha grad(x + beta v_last). */
  function Velocity(gradient: Vector -> Vector, p: Vector, vLast: Vector, alpha: real, beta: real): (v: Vector)
    requires |vLast| == |p| && GradientShaped(|p|, gradient)
    ensures |v| == |p|
  {
    Sub(Scale(beta, vLast), Scale(alpha, gradient(Lookahead(p, vLast, beta))))
  }

  /** The reference definition of the optimization loop from point `p` and
      velocity `vLast` with the counter at `counter`. */
  function NesterovFrom(gradient: Vector -> Vector, norm: Vector -> real, minGradient: real, alpha: real, beta: real,
                        maxIterations: int, p: Vector, vLast: Vector, counter: nat): (run: Run)
    requires |vLast| == |p| && GradientShaped(|p|, gradient)
    decreases Budget(counter, maxIterations)
  {
    if counter > maxIterations then Run(p, vLast, counter, false)
    else if norm(gradient(p)) < minGradient then Run(p, vLast, counter, true)
    else
      var v := Velocity(gradient, p, vLast, alpha, beta);
      NesterovFrom(gradient, norm, minGradient, alpha, beta, maxIterations, Add(p, v), v, counter + 1)
  }

  // One pass of NesterovFrom per case.

  lemma UnfoldStop(gradient: Vector -> Vector, norm: Vector -> real, minGradient: real,
                   alpha: real, beta: real, maxIterations: int, p: Vector, vLast: Vector, counter: nat)
    requires |vLast| == |p| && GradientShaped(|p|, gradient)
    requires counter > maxIterations || norm(gradient(p)) < minGradient
    ensures NesterovFrom(gradient, norm, minGradient, alpha, beta, maxIterations, p, vLast, counter)
         == Run(p, vLast, counter, counter <= maxIterations)
  {
  }

  lemma UnfoldUpdate(gradient: Vector -> Vector, norm: Vector -> real, minGradient: real,
                     alpha: real, beta: real, maxIterations: int, p: Vector, vLast: Vector, counter: nat)
    requires |vLast| == |p| && GradientShaped(|p|, gradient)
    requires counter <= maxIterations && norm(gradient(p)) >= minGradient
    ensures var v := Velocity(gradient, p, vLast, alpha, beta);
      NesterovFrom(gradient, norm, minGradient, alpha, beta, maxIterations, p, vLast, counter)
      == NesterovFrom(gradient, norm, minGradient, alpha, beta, maxIterations, Add(p, v), v, counter + 1)
  {
  }

  /** A run stops for one of its two reasons only: a converged run returns a
      point whose gradient is shorter than the tolerance, and a run that did
      not converge ends with the counter at the first value above the budget
      (or where it started, if it started above). The counter moves once per
      point update: at most `maxIterations + 1 - counter` updates. */
  lemma {:induction false} NesterovRunEnds(gradient: Vector -> Vector, norm: Vector -> real, minGradient: real,
                                          alpha: real, beta: real, maxIterations: int, p: Vector, vLast: Vector, counter: nat)
    requires |vLast| == |p| && GradientShaped(|p|, gradient)
    ensures var run := NesterovFrom(gradient, norm, minGradient, alpha, beta, maxIterations, p, vLast, counter);
      |run.point| == |p| && |run.velocity| == |p| &&
      (run.converged ==> run.counter <= maxIterations && norm(gradient(run.point)) < minGradient) &&
      (!run.converged ==> run.counter == if counter > maxIterations then counter else maxIterations + 1) &&
      counter <= run.counter <= counter + Budget(counter, maxIterations)
    decreases Budget(counter, maxIterations)
  {
    if counter <= maxIterations && norm(gradient(p)) >= minGradient {
      var v := Velocity(gradient, p, vLast, alpha, beta);
      NesterovRunEnds(gradient, norm, minGradient, alpha, beta, maxIterations, Add(p, v), v, counter + 1);
    }
  }

  /** The gradient test looks at the current point, not at the lookahead: at
      a stationary point a run with a positive tolerance stops at once,
      whatever velocity it carries. */
  lemma StopsAtStationaryPoint(gradient: Vector -> Vector, norm: Vector -> real, minGradient: real,
                               alpha: real, beta: real, maxIterations: int, p: Vector, vLast: Vector, counter: nat)
    requires |vLast| == |p| && GradientShaped(|p|, gradient) && IsNorm(norm)
    requires IsZeroVector(gradient(p)) && minGradient > 0.0 && counter <= maxIterations
    ensures NesterovFrom(gradient, norm, minGradient, alpha, beta, maxIterations, p, vLast, counter)
         == Run(p, vLast, counter, true)
  {
    ZeroVectorNormBelow(norm, gradient(p), minGradient);
  }

  /** Gradient descent with learning rate `alpha` under the same budget and
      gradient test: the independent reference for a momentum factor of
      zero. It keeps no velocity, so its runs carry an empty one. */
  function GradientDescentFrom(gradient: Vector -> Vector, norm: Vector -> real, minGradient: real, alpha: real,
                               maxIterations: int, p: Vector, counter: nat): (run: Run)
    requires GradientShaped(|p|, gradient)
    decreases Budget(counter, maxIterations)
  {
    if counter > maxIterations then Run(p, [], counter, false)
    else if norm(gradient(p)) < minGradient then Run(p, [], counter, true)
    else GradientDescentFrom(gradient, norm, minGradient, alpha, maxIterations, Sub(p, Scale(alpha, gradient(p))), counter + 1)
  }

  /** With no momentum the velocity is -alpha grad(x): the update is a plain
      gradient step. */
  lemma ZeroMomentumStep(gradient: Vector -> Vector, p: Vector, vLast: Vector, alpha: real)
    requires |vLast| == |p| && GradientShaped(|p|, gradient)
    ensures Add(p, Velocity(gradient, p, vLast, alpha, 0.0)) == Sub(p, Scale(alpha, gradient(p)))
  {
    AddZeroScaled(p, vLast);
    var v := Velocity(gradient, p, vLast, alpha, 0.0);
    assert v == Sub(Scale(0.0, vLast), Scale(alpha, gradient(p)));
    assert forall i :: 0 <= i < |p| ==> Add(p, v)[i] == Sub(p, Scale(alpha, gradient(p)))[i];
  }

  /** With a momentum factor of zero the method is gradient descent: from
      any starting velocity it returns the same point, after the same number
      of passes, for the same reason. */
  lemma {:induction false} ZeroMomentumIsGradientDescent(gradient: Vector -> Vector, norm: Vector -> real, minGradient: real,
                                                        alpha: real, maxIterations: int, p: Vector, vLast: Vector, counter: nat)
    requires |vLast| == |p| && GradientShaped(|p|, gradient)
    ensures var run := NesterovFrom(gradient, norm, minGradient, alpha, 0.0, maxIterations, p, vLast, counter);
      var descent := GradientDescentFrom(gradient, norm, minGradient, alpha, maxIterations, p, counter);
      run.point == descent.point && run.counter == descent.counter && run.converged == descent.converged
    decreases Budget(counter, maxIterations)
  {
    if counter <= maxIterations && norm(gradient(p)) >= minGradient {
      var v := Velocity(gradient, p, vLast, alpha, 0.0);
      ZeroMomentumStep(gradient, p, vLast, alpha);
      ZeroMomentumIsGradientDescent(gradient, norm, minGradient, alpha, maxIterations, Add(p, v), v, counter + 1);
    }
  }

  /** The momentum optimizer: the evaluator `f` and the parameters it is
      bound to by `init`, the norm, and the fields the loop keeps: the
      velocities `v` and `vLast`, the lookahead point `xNext` and the value
      and gradient there. */
  class NesterovMomentumOptimizer {
    var f: Evaluator?
    var params: NesterovMomentumParams?
    const norm: Vector -> real
    var v: Vector
    var vLast: Vector
    var xNext: Vector
    var jacNext: Vector
    var yNext: real

    ghost predicate Valid()
      reads this, f
    {
      f != null && params != null && f.Valid() && |vLast| == f.dim
    }

    constructor (norm: Vector -> real)
      ensures this.norm == norm
      ensures f == null && params == null
    {
      this.norm := norm;
      f := null;
      params := null;
      v, vLast, xNext, jacNext := [], [], [], [];
      yNext := 0.0;
    }

    /** `init`: binds the evaluator and the parameters, moves the evaluator
        to the initial point and starts from a zero velocity. */
    method Init(initial: Vector, f: Evaluator, params: NesterovMomentumParams)
      requires f.Valid() && |initial| == f.dim
      modifies this, f
      ensures Valid() && this.f == f && this.params == params
      ensures f.x == initial && IsZeroVector(vLast)
    {
      this.f := f;
      f.SetX(initial);
      this.params := params;
      vLast := Zeros(f.dim);
    }

    /** `computeValueAndJacobian`: the value and the gradient at an
        arbitrary point, leaving the evaluator where it is. */
    method ComputeValueAndJacobian(p: Vector) returns (y: real, jac: Vector)
      requires Valid() && |p| == f.dim
      ensures y == f.value(p) && jac == f.gradient(p) && |jac| == f.dim
    {
      y := f.Eval(p);
      jac := f.gradient(p);
    }

    /** `optimize`: runs the loop of NesterovFrom on the evaluator's point,
        the kept velocity and the parameters' counter, and leaves the
        evaluator at the returned point, `vLast` at the run's velocity and
        the counter where the run ended it. */
    method Optimize() returns (r: Vector)
      requires Valid()
      modifies this, f, params
      ensures Valid() && f == old(f) && params == old(params)
      ensures var run := NesterovFrom(f.gradient, norm, params.minGradient, params.alpha, params.beta,
                                      params.maxIterations, old(f.x), old(vLast), old(params.iterationTimes));
        r == run.point && f.x == r && vLast == run.velocity && params.iterationTimes == run.counter
    {
      var maxIterations := params.maxIterations;
      var minGradient := params.minGradient;
      var alpha := params.alpha;
      var beta := params.beta;
      ghost var total := NesterovFrom(f.gradient, norm, minGradient, alpha, beta, maxIterations, f.x, vLast, params.iterationTimes);
      while true
        invariant Valid() && f == old(f) && params == old(params)
        invariant total == NesterovFrom(f.gradient, norm, minGradient, alpha, beta, maxIterations, f.x, vLast, params.iterationTimes)
        decreases Budget(params.iterationTimes, maxIterations)
      {
        if params.iterationTimes > maxIterations {
          UnfoldStop(f.gradient, norm, minGradient, alpha, beta, maxIterations, f.x, vLast, params.iterationTimes);
          r := f.x;
          return;
        }
        if norm(f.Jacobian()) < minGradient {
          UnfoldStop(f.gradient, norm, minGradient, alpha, beta, maxIterations, f.x, vLast, params.iterationTimes);
          r := f.x;
          return;
        }
        UnfoldUpdate(f.gradient, norm, minGradient, alpha, beta, maxIterations, f.x, vLast, params.iterationTimes);
        xNext := Add(f.x, Scale(beta, vLast));
        yNext, jacNext := ComputeValueAndJacobian(xNext);
        v := Sub(Scale(beta, vLast), Scale(alpha, jacNext));
        assert v == Velocity(f.gradient, f.x, vLast, alpha, beta);
        f.SetX(Add(f.x, v));
        vLast := v;
        params.NextIteration();
      }
    }
  }
}
