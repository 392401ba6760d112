/** The Armijo/Goldstein inexact step-size search (`ArmijoMethod`). From the
    evaluator's current point x it looks along a direction d for a step
    length lambda that satisfies both
      (1) f(x + lambda d) - f(x) <= rho * (J(x) d) * lambda          and
      (2) f(x + lambda d) - f(x) >= (mu * rho) * (J(x) d) * lambda,
    shrinking lambda by the decrease factor while (1) fails and growing it by
    the increase factor while (1) holds and (2) fails, under an iteration
    budget that is checked before every trial. */
module Armijo {
  import opened Numeric
  import opened Objective
  import opened Params

  /** What a search reads from the evaluator and the caller: the value
      function, the current point, the value and Jacobian there, and the
      search direction. */
  datatype Line = Line(value: Vector -> real, x: Vector, y: real, jacobian: Vector, d: Vector)
  {
    predicate Valid()
    {
      |jacobian| == |x| && |d| == |x|
    }

    /** The left-hand side of both conditions, f(x + lambda d) - f(x). */
    function Lhs(lambda: real): real
      requires Valid()
    {
      value(Add(x, Scale(lambda, d))) - y
    }

    /** The directional derivative J(x) d. */
    function Slope(): real
      requires Valid()
    {
      Dot(jacobian, d)
    }
  }

  /** The factors a search reads from its parameters before it starts. */
  datatype Factors = Factors(rho: real, mu: real, increase: real, decrease: real)

  /** The right-hand side of condition (1), rho * (J d) * lambda. */
  function DecreaseBound(rho: real, slope: real, lambda: real): real
  {
    rho * slope * lambda
  }

  /** The right-hand side of condition (2), (mu * rho) * (J d) * lambda. */
  function GoldsteinBound(mu: real, rho: real, slope: real, lambda: real): real
  {
    (mu * rho) * slope * lambda
  }

  /** `lambda *= factor`. */
  function Scaled(lambda: real, factor: real): real
  {
    lambda * factor
  }

  /** Condition (1), sufficient decrease. */
  predicate SufficientDecrease(line: Line, k: Factors, lambda: real)
    requires line.Valid()
  {
    line.Lhs(lambda) <= DecreaseBound(k.rho, line.Slope(), lambda)
  }

  /** Condition (2), the Goldstein lower bound. */
  predicate NotTooSmall(line: Line, k: Factors, lambda: real)
    requires line.Valid()
  {
    line.Lhs(lambda) >= GoldsteinBound(k.mu, k.rho, line.Slope(), lambda)
  }

  /** How a search ends: the lambda it returns, whether that lambda was
      accepted (both conditions hold) or the budget ran out, how many trial
      evaluations it made, and how many rejected trials grew or shrank
      lambda. */
  datatype Outcome = Outcome(lambda: real, accepted: bool, trials: nat, grown: nat, shrunk: nat)

  /** Counts `ups` rejected trials that grew lambda and `downs` that shrank
      it in front of an outcome. */
  function Shift(o: Outcome, ups: nat, downs: nat): Outcome
  {
    o.(trials := o.trials + ups + downs, grown := o.grown + ups, shrunk := o.shrunk + downs)
  }

  /** The reference definition of the search loop, from trial point
      `lambda` with the counter at `counter`: the budget check, then a
      trial. */
  function SearchFrom(line: Line, k: Factors, lambda: real, counter: nat, maxIterations: int): (o: Outcome)
    requires line.Valid()
    decreases Budget(counter, maxIterations), 1
  {
    if counter > maxIterations then Outcome(lambda, false, 0, 0, 0)
    else TrialAt(line, k, lambda, counter, maxIterations)
  }

  /** One trial, once the budget check has passed: accept when both
      conditions hold, grow lambda when only (1) holds, shrink it when (1)
      fails, and go back to the budget check. */
  function TrialAt(line: Line, k: Factors, lambda: real, counter: nat, maxIterations: int): (o: Outcome)
    requires line.Valid() && counter <= maxIterations
    decreases Budget(counter, maxIterations), 0
  {
    if SufficientDecrease(line, k, lambda) then
      if NotTooSmall(line, k, lambda) then Outcome(lambda, true, 1, 0, 0)
      else Shift(SearchFrom(line, k, Scaled(lambda, k.increase), counter + 1, maxIterations), 1, 0)
    else Shift(SearchFrom(line, k, Scaled(lambda, k.decrease), counter + 1, maxIterations), 0, 1)
  }

  // One step of SearchFrom and TrialAt per case, each proved where no other
  // arithmetic is in scope.

  lemma UnfoldExhausted(line: Line, k: Factors, lambda: real, counter: nat, maxIterations: int)
    requires line.Valid()
    requires counter > maxIterations
    ensures SearchFrom(line, k, lambda, counter, maxIterations) == Outcome(lambda, false, 0, 0, 0)
  {
  }

  lemma UnfoldTrial(line: Line, k: Factors, lambda: real, counter: nat, maxIterations: int)
    requires line.Valid()
    requires counter <= maxIterations
    ensures SearchFrom(line, k, lambda, counter, maxIterations) == TrialAt(line, k, lambda, counter, maxIterations)
  {
  }

  /** A trial lambda that satisfies both conditions is returned as it is,
      after one trial. */
  lemma AcceptedAtOnce(line: Line, k: Factors, lambda: real, counter: nat, maxIterations: int)
    requires line.Valid()
    requires counter <= maxIterations
    requires SufficientDecrease(line, k, lambda) && NotTooSmall(line, k, lambda)
    ensures TrialAt(line, k, lambda, counter, maxIterations) == Outcome(lambda, true, 1, 0, 0)
  {
  }

  lemma UnfoldGrow(line: Line, k: Factors, lambda: real, next: real, counter: nat, maxIterations: int)
    requires line.Valid()
    requires counter <= maxIterations
    requires SufficientDecrease(line, k, lambda) && !NotTooSmall(line, k, lambda)
    requires next == Scaled(lambda, k.increase)
    ensures TrialAt(line, k, lambda, counter, maxIterations)
         == Shift(SearchFrom(line, k, next, counter + 1, maxIterations), 1, 0)
  {
  }

  lemma UnfoldShrink(line: Line, k: Factors, lambda: real, next: real, counter: nat, maxIterations: int)
    requires line.Valid()
    requires counter <= maxIterations
    requires !SufficientDecrease(line, k, lambda)
    requires next == Scaled(lambda, k.decrease)
    ensures TrialAt(line, k, lambda, counter, maxIterations)
         == Shift(SearchFrom(line, k, next, counter + 1, maxIterations), 0, 1)
  {
  }

  /** lambda * increase^i * decrease^j. */
  function Rescaled(lambda: real, k: Factors, i: nat, j: nat): real
  {
    lambda * Pow(k.increase, i) * Pow(k.decrease, j)
  }

  /** Growing the starting lambda once is one more power of the increase
      factor. */
  lemma GrowPower(lambda: real, k: Factors, i: nat, j: nat)
    ensures Rescaled(Scaled(lambda, k.increase), k, i, j) == Rescaled(lambda, k, i + 1, j)
  {
    assert Pow(k.increase, i + 1) == k.increase * Pow(k.increase, i);
  }

  /** Shrinking the starting lambda once is one more power of the decrease
      factor. */
  lemma ShrinkPower(lambda: real, k: Factors, i: nat, j: nat)
    ensures Rescaled(Scaled(lambda, k.decrease), k, i, j) == Rescaled(lambda, k, i, j + 1)
  {
    assert Pow(k.decrease, j + 1) == k.decrease * Pow(k.decrease, j);
  }

  /** An accepted lambda satisfies both conditions. */
  lemma {:induction false} AcceptedSatisfiesBothConditions(line: Line, k: Factors, lambda: real, counter: nat, maxIterations: int)
    requires line.Valid()
    ensures var o := SearchFrom(line, k, lambda, counter, maxIterations);
      o.accepted ==> SufficientDecrease(line, k, o.lambda) && NotTooSmall(line, k, o.lambda)
    decreases Budget(counter, maxIterations)
  {
    if counter <= maxIterations {
      UnfoldTrial(line, k, lambda, counter, maxIterations);
      if SufficientDecrease(line, k, lambda) {
        if !NotTooSmall(line, k, lambda) {
          UnfoldGrow(line, k, lambda, Scaled(lambda, k.increase), counter, maxIterations);
          AcceptedSatisfiesBothConditions(line, k, Scaled(lambda, k.increase), counter + 1, maxIterations);
        }
      } else {
        UnfoldShrink(line, k, lambda, Scaled(lambda, k.decrease), counter, maxIterations);
        AcceptedSatisfiesBothConditions(line, k, Scaled(lambda, k.decrease), counter + 1, maxIterations);
      }
    }
  }

  /** The budget bounds the trials: a search makes at most as many trials as
      the budget allows, uses all of them when it runs out, and when it
      accepts, the last trial is the accepted one. */
  lemma {:induction false} TrialsWithinBudget(line: Line, k: Factors, lambda: real, counter: nat, maxIterations: int)
    requires line.Valid()
    ensures var o := SearchFrom(line, k, lambda, counter, maxIterations);
      o.trials <= Budget(counter, maxIterations) &&
      (o.accepted ==> o.trials >= 1) &&
      (!o.accepted ==> o.trials == Budget(counter, maxIterations))
    decreases Budget(counter, maxIterations)
  {
    if counter <= maxIterations {
      UnfoldTrial(line, k, lambda, counter, maxIterations);
      if SufficientDecrease(line, k, lambda) {
        if !NotTooSmall(line, k, lambda) {
          UnfoldGrow(line, k, lambda, Scaled(lambda, k.increase), counter, maxIterations);
          TrialsWithinBudget(line, k, Scaled(lambda, k.increase), counter + 1, maxIterations);
        }
      } else {
        UnfoldShrink(line, k, lambda, Scaled(lambda, k.decrease), counter, maxIterations);
        TrialsWithinBudget(line, k, Scaled(lambda, k.decrease), counter + 1, maxIterations);
      }
    }
  }

  /** Nothing but the two factors changes lambda: the returned lambda is the
      starting one times increase^i times decrease^j, where i + j is the
      number of rejected trials. */
  lemma {:induction false} LambdaIsScaledByFactors(line: Line, k: Factors, lambda: real, counter: nat, maxIterations: int)
    requires line.Valid()
    ensures var o := SearchFrom(line, k, lambda, counter, maxIterations);
      o.lambda == Rescaled(lambda, k, o.grown, o.shrunk) &&
      o.grown + o.shrunk == o.trials - (if o.accepted then 1 else 0)
    decreases Budget(counter, maxIterations)
  {
    if counter <= maxIterations {
      UnfoldTrial(line, k, lambda, counter, maxIterations);
      if SufficientDecrease(line, k, lambda) {
        if !NotTooSmall(line, k, lambda) {
          UnfoldGrow(line, k, lambda, Scaled(lambda, k.increase), counter, maxIterations);
          LambdaIsScaledByFactors(line, k, Scaled(lambda, k.increase), counter + 1, maxIterations);
          var o := SearchFrom(line, k, Scaled(lambda, k.increase), counter + 1, maxIterations);
          GrowPower(lambda, k, o.grown, o.shrunk);
        }
      } else {
        UnfoldShrink(line, k, lambda, Scaled(lambda, k.decrease), counter, maxIterations);
        LambdaIsScaledByFactors(line, k, Scaled(lambda, k.decrease), counter + 1, maxIterations);
        var o := SearchFrom(line, k, Scaled(lambda, k.decrease), counter + 1, maxIterations);
        ShrinkPower(lambda, k, o.grown, o.shrunk);
      }
    }
  }

  /** The Armijo search object: it owns its parameters and reads the
      evaluator `f` its base class is bound to. `lhs`, `rhs1` and `rhs2`
      keep the two sides of the conditions at the last trial. */
  class ArmijoMethod {
    const f: Evaluator
    const params: ArmijoParams
    var lambda: real
    var lhs: real
    var rhs1: real
    var rhs2: real

    ghost predicate Valid()
      reads this, f
    {
      f.Valid()
    }

    /** Creates the owned parameters; `defaults`, `rho`, `mu` and
        `initLambdaFactor` stand for the default values of `ArmijoParams`. */
    constructor (f: Evaluator, defaults: StepsizeSearchParams, rho: real, mu: real, initLambdaFactor: real)
      requires f.Valid()
      ensures Valid() && this.f == f && fresh(params)
      ensures params.Common() == defaults && params.iterationTimes == 0
      ensures params.rho == rho && params.mu == mu && params.initLambdaFactor == initLambdaFactor
    {
      this.f := f;
      params := new ArmijoParams(defaults, rho, mu, initLambdaFactor);
    }

    /** `setParams`: copies exactly the upper and lower bounds, the iteration
        budget and the two factors; rho, mu, the initial lambda factor and
        the counter stay as they were. */
    method SetParams(given: StepsizeSearchParams)
      modifies params
      ensures params.Common() == given
      ensures params.iterationTimes == old(params.iterationTimes)
    {
      params.upperBound := given.upperBound;
      params.lowerBound := given.lowerBound;
      params.maxIterations := given.maxIterations;
      params.increaseFactor := given.increaseFactor;
      params.decreaseFactor := given.decreaseFactor;
    }

    /** The line a search along `d` works on, read from the evaluator. */
    function LineAlong(d: Vector): (line: Line)
      reads this, f
      requires Valid() && |d| == f.dim
      ensures line.Valid()
    {
      Line(f.value, f.x, f.Y(), f.Jacobian(), d)
    }

    /** The factors the search reads from its parameters. */
    function CurrentFactors(): Factors
      reads this, params
    {
      Factors(params.rho, params.mu, params.increaseFactor, params.decreaseFactor)
    }

    /** One pass of the search loop after its budget check: counts the
        trial, evaluates the left-hand side and the bound of condition (1)
        at lambda and, when (1) holds, the bound of condition (2); then
        accepts lambda, or grows it by `increase` when only (1) holds, or
        shrinks it by `decrease` when (1) fails. The factors are the ones
        the search read from its parameters. */
    method Trial(d: Vector, rho: real, mu: real, increase: real, decrease: real, ghost maxIterations: int)
      returns (accepted: bool, ghost grew: bool)
      requires Valid() && |d| == f.dim
      requires params.iterationTimes <= maxIterations
      modifies this, params
      ensures Valid() && f.x == old(f.x)
      ensures params.Common() == old(params.Common())
      ensures params.iterationTimes == old(params.iterationTimes) + 1
      ensures var line, k := LineAlong(d), Factors(rho, mu, increase, decrease);
        TrialAt(line, k, old(lambda), old(params.iterationTimes), maxIterations) ==
          if accepted then Outcome(lambda, true, 1, 0, 0)
          else if grew then Shift(SearchFrom(line, k, lambda, params.iterationTimes, maxIterations), 1, 0)
          else Shift(SearchFrom(line, k, lambda, params.iterationTimes, maxIterations), 0, 1)
      ensures accepted ==>
        var line := LineAlong(d);
        lhs == line.Lhs(lambda) &&
        rhs1 == DecreaseBound(rho, line.Slope(), lambda) &&
        rhs2 == GoldsteinBound(mu, rho, line.Slope(), lambda)
    {
      ghost var line := LineAlong(d);
      ghost var k := Factors(rho, mu, increase, decrease);
      ghost var counter := params.iterationTimes;
      params.NextIteration();
      lhs := f.Eval(Add(f.x, Scale(lambda, d))) - f.Y();
      rhs1 := DecreaseBound(rho, Dot(f.Jacobian(), d), lambda);
      assert lhs == line.Lhs(lambda) && rhs1 == DecreaseBound(k.rho, line.Slope(), lambda);
      if lhs <= rhs1 {
        rhs2 := GoldsteinBound(mu, rho, Dot(f.Jacobian(), d), lambda);
        if lhs >= rhs2 {
          AcceptedAtOnce(line, k, lambda, counter, maxIterations);
          accepted, grew := true, false;
        } else {
          ghost var prev := lambda;
          lambda := Scaled(lambda, increase);
          UnfoldGrow(line, k, prev, lambda, counter, maxIterations);
          accepted, grew := false, true;
        }
      } else {
        ghost var prev := lambda;
        lambda := Scaled(lambda, decrease);
        UnfoldShrink(line, k, prev, lambda, counter, maxIterations);
        accepted, grew := false, false;
      }
    }

    /** `search`: resets the counter, starts from initLambdaFactor *
        upperBound, and returns what the reference loop SearchFrom returns.
        An accepted search resets the counter again; a search that runs out
        of budget leaves it at the number of trials. The evaluator is only
        read: its point does not move. */
    method Search(d: Vector) returns (r: real)
      requires Valid() && |d| == f.dim
      modifies this, params
      ensures Valid() && f.x == old(f.x)
      ensures params.Common() == old(params.Common())
      ensures var line, k := old(LineAlong(d)), old(CurrentFactors());
        var o := SearchFrom(line, k, old(params.initLambdaFactor * params.upperBound), 0, old(params.maxIterations));
        r == o.lambda && lambda == r &&
        params.iterationTimes == (if o.accepted then 0 else o.trials) &&
        (o.accepted ==> lhs == line.Lhs(r) &&
                        rhs1 == DecreaseBound(k.rho, line.Slope(), r) &&
                        rhs2 == GoldsteinBound(k.mu, k.rho, line.Slope(), r))
    {
      var maxIterations := params.maxIterations;
      var increase := params.increaseFactor;
      var decrease := params.decreaseFactor;
      var rho := params.rho;
      var mu := params.mu;
      ghost var line := LineAlong(d);
      ghost var k := Factors(rho, mu, increase, decrease);
      ghost var total := SearchFrom(line, k, params.initLambdaFactor * params.upperBound, 0, maxIterations);

      params.Reset();
      lambda := params.initLambdaFactor * params.upperBound;

      ghost var ups, downs := 0, 0;
      while true
        invariant Valid() && f.x == old(f.x) && line == LineAlong(d)
        invariant params.Common() == old(params.Common())
        invariant params.iterationTimes == ups + downs
        invariant total == Shift(SearchFrom(line, k, lambda, params.iterationTimes, maxIterations), ups, downs)
        decreases Budget(params.iterationTimes, maxIterations)
      {
        if params.iterationTimes > maxIterations {
          UnfoldExhausted(line, k, lambda, params.iterationTimes, maxIterations);
          r := lambda;
          return;
        }
        UnfoldTrial(line, k, lambda, params.iterationTimes, maxIterations);
        var accepted, grew := Trial(d, rho, mu, increase, decrease, maxIterations);
        if accepted {
          params.Reset();
          r := lambda;
          return;
        }
        if grew {
          ups := ups + 1;
        } else {
          downs := downs + 1;
        }
      }
    }
  }
}
