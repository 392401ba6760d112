/** The bisection one-dimensional search (`BisectionMethod::search`): it
    narrows the bracket [alpha, beta] around the trial point lambda until the
    bracket is narrower than epsilon or the derivative of phi vanishes.

    The source decides which half to cut by testing the norm of phi's 1x1
    Jacobian for being positive, right after the test for it being zero has
    failed. A norm is never negative, so only the "cut the right half" branch
    can run: alpha never moves, and the search walks lambda down towards
    alpha, halving the bracket on every pass after the first. */
module Bisection {
  import opened Objective

  /** The norm of the 1x1 Jacobian [d]: the magnitude of d. */
  function Magnitude(d: real): (m: real)
    ensures m >= 0.0
    ensures m == 0.0 <==> d == 0.0
  {
    if d < 0.0 then -d else d
  }

  /** The search state of one pass: the bracket and the trial point. */
  datatype Bracket = Bracket(alpha: real, beta: real, lambda: real)

  /** One narrowing step, with both of the source's branches: a positive
      derivative magnitude cuts the right half, anything else the left half;
      the new trial point is the middle of the new bracket. */
  function Cut(b: Bracket, derivative: real): (c: Bracket)
  {
    if Magnitude(derivative) > 0.0 then
      Bracket(b.alpha, b.lambda, (b.alpha + b.lambda) / 2.0)
    else
      Bracket(b.lambda, b.beta, (b.lambda + b.beta) / 2.0)
  }

  /** Once the zero test has failed, the magnitude is positive: every
      narrowing step the search takes cuts the right half and keeps alpha. */
  lemma LeftCutUnreachable(b: Bracket, derivative: real)
    requires Magnitude(derivative) != 0.0
    ensures Cut(b, derivative) == Bracket(b.alpha, b.lambda, (b.alpha + b.lambda) / 2.0)
  {
  }

  /** A step never leaves the bracket: if the trial point lies in the
      bracket, the new bracket lies inside the old one and holds the new
      trial point. */
  lemma CutStaysInBracket(b: Bracket, derivative: real)
    requires b.alpha <= b.lambda <= b.beta
    ensures var c := Cut(b, derivative);
      b.alpha <= c.alpha <= c.lambda <= c.beta <= b.beta
  {
  }

  /** When the trial point is the middle of the bracket, a step halves the
      bracket (whichever half it cuts) and keeps the trial point in the
      middle. */
  lemma CutHalvesBracket(b: Bracket, derivative: real)
    requires b.lambda == (b.alpha + b.beta) / 2.0
    ensures var c := Cut(b, derivative);
      c.beta - c.alpha == (b.beta - b.alpha) / 2.0 && c.lambda == (c.alpha + c.beta) / 2.0
  {
  }

  /** w / 2^k. */
  function Halved(w: real, k: nat): (h: real)
  {
    if k == 0 then w else Halved(w, k - 1) / 2.0
  }

  /** The trial point after j right-half cuts from lambda0, alpha kept. */
  function TrialPoint(alpha: real, lambda0: real, j: nat): (t: real)
  {
    alpha + Halved(lambda0 - alpha, j)
  }

  /** Halving a width of at least epsilon lowers the number of whole epsilons
      it holds, which is what makes the search terminate over the reals. */
  lemma HalvingLowersFloor(w: real, epsilon: real)
    requires epsilon > 0.0 && w >= epsilon
    ensures ((w / 2.0) / epsilon).Floor < (w / epsilon).Floor
  {
    var q := w / epsilon;
    assert (w / 2.0) / epsilon == q / 2.0;
    assert q >= 1.0;
  }

  /** The bisection search with the fields of its one-dimensional search base
      class. `maxIterationTimes` is never consulted by the search. */
  class BisectionMethod {
    var alpha: real
    var beta: real
    const epsilon: real
    var lambda: real
    var iterationTimes: nat
    const maxIterationTimes: int
    const phi: LineFunction

    constructor (alpha: real, beta: real, epsilon: real, lambda: real, maxIterationTimes: int, phi: LineFunction)
      ensures this.alpha == alpha && this.beta == beta && this.epsilon == epsilon && this.lambda == lambda
      ensures this.maxIterationTimes == maxIterationTimes && this.phi == phi
      ensures iterationTimes == 0
    {
      this.alpha := alpha;
      this.beta := beta;
      this.epsilon := epsilon;
      this.lambda := lambda;
      this.maxIterationTimes := maxIterationTimes;
      this.phi := phi;
      iterationTimes := 0;
    }

    /** `search`. Every pass tests the derivative at phi's current point; a
        pass that does not return counts itself, sets beta to the old lambda,
        lambda to the middle of the new bracket, and moves phi there. With a
        positive epsilon the search terminates; the source can loop forever
        otherwise, which is why the model requires it. A pass is taken only
        when the stop test failed: the first at the starting bracket and
        phi's starting point, the (j+1)-th at TrialPoint(alpha, lambda0, j). */
    method Search() returns (r: real)
      requires epsilon > 0.0
      modifies this, phi
      ensures r == lambda
      ensures alpha == old(alpha)
      ensures beta - alpha < epsilon || Magnitude(phi.Jacobian()) == 0.0
      ensures iterationTimes >= old(iterationTimes)
      ensures iterationTimes == old(iterationTimes) ==>
        beta == old(beta) && lambda == old(lambda) && phi.x == old(phi.x)
      ensures iterationTimes > old(iterationTimes) ==>
        phi.x == lambda && lambda == (alpha + beta) / 2.0 &&
        beta - alpha == Halved(old(lambda) - alpha, iterationTimes - old(iterationTimes) - 1)
      ensures iterationTimes >= old(iterationTimes) + 2 ==>
        Halved(old(lambda) - alpha, iterationTimes - old(iterationTimes) - 2) >= epsilon
      ensures old(alpha <= lambda <= beta) ==> alpha <= lambda <= beta <= old(beta)
      ensures iterationTimes > old(iterationTimes) ==>
        old(beta) - alpha >= epsilon && Magnitude(phi.derivative(old(phi.x))) != 0.0
      ensures forall j :: 1 <= j < iterationTimes - old(iterationTimes) ==>
        Magnitude(phi.derivative(TrialPoint(alpha, old(lambda), j))) != 0.0
    {
      ghost var start := iterationTimes;
      ghost var lambda0 := lambda;
      ghost var x0 := phi.x;
      while true
        invariant alpha == old(alpha)
        invariant iterationTimes >= start
        invariant iterationTimes == start ==>
          beta == old(beta) && lambda == lambda0 && phi.x == old(phi.x)
        invariant iterationTimes > start ==>
          phi.x == lambda && lambda == (alpha + beta) / 2.0 &&
          beta - alpha == Halved(lambda0 - alpha, iterationTimes - start - 1)
        invariant iterationTimes >= start + 2 ==>
          Halved(lambda0 - alpha, iterationTimes - start - 2) >= epsilon
        invariant old(alpha <= lambda <= beta) ==> alpha <= lambda <= beta <= old(beta)
        invariant iterationTimes > start ==>
          old(beta) - alpha >= epsilon && Magnitude(phi.derivative(x0)) != 0.0
        invariant forall j :: 1 <= j < iterationTimes - start ==>
          Magnitude(phi.derivative(TrialPoint(alpha, lambda0, j))) != 0.0
        decreases (if iterationTimes == start then 1 else 0), ((beta - alpha) / epsilon).Floor
      {
        var derivative := phi.Jacobian();
        if beta - alpha < epsilon || Magnitude(derivative) == 0.0 {
          r := lambda;
          return;
        }
        if iterationTimes > start {
          assert lambda == TrialPoint(alpha, lambda0, iterationTimes - start);
        }
        iterationTimes := iterationTimes + 1;
        ghost var width := beta - alpha;
        LeftCutUnreachable(Bracket(alpha, beta, lambda), derivative);
        var next := Cut(Bracket(alpha, beta, lambda), derivative);
        alpha, beta, lambda := next.alpha, next.beta, next.lambda;
        phi.SetX(lambda);
        if iterationTimes > start + 1 {
          assert beta - alpha == width / 2.0;
          HalvingLowersFloor(width, epsilon);
        }
      }
    }
  }
}
