/** The objective-function evaluators the algorithms drive. Their value and
    derivative computations (automatic differentiation in the source) are
    given as functions; what the model keeps is the current point each one
    owns and updates in place. */
module Objective {
  import opened Numeric

  /** `gradient` maps every point of dimension `n` to a row vector of
      dimension `n`. */
  ghost predicate GradientShaped(n: nat, gradient: Vector -> Vector)
  {
    forall p :: |p| == n ==> |gradient(p)| == n
  }

  /** The full-dimensional evaluator (`FunctorType`): a current point, the
      objective's value and its Jacobian (gradient row vector) there. The
      source caches value and Jacobian at the last point it evaluated; the
      optimizers always refresh that cache before reading it, so the model
      computes both from the current point. */
  class Evaluator {
    const dim: nat
    const value: Vector -> real
    const gradient: Vector -> Vector
    var x: Vector

    ghost predicate Valid()
      reads this
    {
      |x| == dim && GradientShaped(dim, gradient)
    }

    constructor (dim: nat, value: Vector -> real, gradient: Vector -> Vector, initial: Vector)
      requires |initial| == dim && GradientShaped(dim, gradient)
      ensures Valid()
      ensures this.dim == dim && this.value == value && this.gradient == gradient && x == initial
    {
      this.dim := dim;
      this.value := value;
      this.gradient := gradient;
      x := initial;
    }

    /** `setX`: moves the current point. */
    method SetX(p: Vector)
      requires Valid() && |p| == dim
      modifies this
      ensures Valid() && x == p
    {
      x := p;
    }

    /** `getY`: the value at the current point. */
    function Y(): real
      reads this
    {
      value(x)
    }

    /** `getJacobian`: the gradient row vector at the current point. */
    function Jacobian(): (j: Vector)
      reads this
      requires Valid()
      ensures |j| == dim
    {
      gradient(x)
    }

    /** `operator()`: the value at an arbitrary point; the current point is
        left where it is. */
    function Eval(p: Vector): real
      reads this
    {
      value(p)
    }
  }

  /** The scalar evaluator `phi` of a one-dimensional search:
      phi(lambda) = f(x + lambda d) along a fixed ray. Only its derivative
      at the current point is read by the bisection search. */
  class LineFunction {
    const derivative: real -> real
    var x: real

    constructor (derivative: real -> real, initial: real)
      ensures this.derivative == derivative && x == initial
    {
      this.derivative := derivative;
      x := initial;
    }

    /** `setX`: moves the current point. */
    method SetX(t: real)
      modifies this
      ensures x == t
    {
      x := t;
    }

    /** The single entry of the 1x1 Jacobian phi'(x) at the current point. */
    function Jacobian(): real
      reads this
    {
      derivative(x)
    }
  }
}
