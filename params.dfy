/** The parameter bundles the algorithms read: tolerances, factors, an
    iteration budget and a per-instance iteration counter. Only the members
    the four algorithms read or write are modelled. */
module Params {

  /** The number of passes an iteration budget of `maxIterations` still
      allows once the counter has reached `counter`: every algorithm checks
      `counter > maxIterations` before a pass and counts the pass after it. */
  function Budget(counter: nat, maxIterations: int): (n: nat)
  {
    if counter <= maxIterations then maxIterations + 1 - counter else 0
  }

  /** Settings of a Newton optimizer run. */
  class NewtonParams {
    const maxIterations: int
    const minDeltaX: real
    var iterationTimes: nat

    constructor (maxIterations: int, minDeltaX: real)
      ensures this.maxIterations == maxIterations && this.minDeltaX == minDeltaX
      ensures iterationTimes == 0
    {
      this.maxIterations := maxIterations;
      this.minDeltaX := minDeltaX;
      iterationTimes := 0;
    }

    /** `nextIteration`: the counter goes up by exactly one. */
    method NextIteration()
      modifies this
      ensures iterationTimes == old(iterationTimes) + 1
    {
      iterationTimes := iterationTimes + 1;
    }
  }

  /** Settings of a Nesterov momentum run: `alpha` is the learning rate and
      `beta` the momentum factor. */
  class NesterovMomentumParams {
    const maxIterations: int
    const minGradient: real
    const alpha: real
    const beta: real
    var iterationTimes: nat

    constructor (maxIterations: int, minGradient: real, alpha: real, beta: real)
      ensures this.maxIterations == maxIterations && this.minGradient == minGradient
      ensures this.alpha == alpha && this.beta == beta
      ensures iterationTimes == 0
    {
      this.maxIterations := maxIterations;
      this.minGradient := minGradient;
      this.alpha := alpha;
      this.beta := beta;
      iterationTimes := 0;
    }

    /** `nextIteration`: the counter goes up by exactly one. */
    method NextIteration()
      modifies this
      ensures iterationTimes == old(iterationTimes) + 1
    {
      iterationTimes := iterationTimes + 1;
    }
  }

  /** The values a caller hands to a step-size search through the common
      step-size parameter interface. */
  datatype StepsizeSearchParams = StepsizeSearchParams(
    upperBound: real,
    lowerBound: real,
    maxIterations: int,
    increaseFactor: real,
    decreaseFactor: real)

  /** The parameters an Armijo search owns: the five common values, which
      `setParams` overwrites, and its own `rho`, `mu` and initial lambda
      factor, which nothing in the model overwrites. */
  class ArmijoParams {
    var upperBound: real
    var lowerBound: real
    var maxIterations: int
    var increaseFactor: real
    var decreaseFactor: real
    const rho: real
    const mu: real
    const initLambdaFactor: real
    var iterationTimes: nat

    constructor (common: StepsizeSearchParams, rho: real, mu: real, initLambdaFactor: real)
      ensures Common() == common
      ensures this.rho == rho && this.mu == mu && this.initLambdaFactor == initLambdaFactor
      ensures iterationTimes == 0
    {
      upperBound := common.upperBound;
      lowerBound := common.lowerBound;
      maxIterations := common.maxIterations;
      increaseFactor := common.increaseFactor;
      decreaseFactor := common.decreaseFactor;
      this.rho := rho;
      this.mu := mu;
      this.initLambdaFactor := initLambdaFactor;
      iterationTimes := 0;
    }

    /** The five values shared with every step-size search. */
    function Common(): StepsizeSearchParams
      reads this
    {
      StepsizeSearchParams(upperBound, lowerBound, maxIterations, increaseFactor, decreaseFactor)
    }

    /** `nextIteration`: the counter goes up by exactly one. */
    method NextIteration()
      modifies this
      ensures iterationTimes == old(iterationTimes) + 1
      ensures Common() == old(Common())
    {
      iterationTimes := iterationTimes + 1;
    }

    /** The search base class's `reset(params)`: the counter starts over. */
    method Reset()
      modifies this
      ensures iterationTimes == 0
      ensures Common() == old(Common())
    {
      iterationTimes := 0;
    }
  }
}
