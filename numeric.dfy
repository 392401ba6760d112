/** Vectors over exact reals and the vector norm the optimizers compare
    against their tolerances. Vectors of the source (Eigen column and row
    vectors of one fixed size) are sequences of reals; the size is carried by
    whoever owns the vector. */
module Numeric {

  type Vector = seq<real>

  function Zeros(n: nat): (z: Vector)
    ensures |z| == n
    ensures IsZeroVector(z)
  {
    seq(n, _ => 0.0)
  }

  function Add(a: Vector, b: Vector): (r: Vector)
    requires |a| == |b|
    ensures |r| == |a|
    ensures forall i :: 0 <= i < |r| ==> r[i] == a[i] + b[i]
  {
    seq(|a|, i requires 0 <= i < |a| => a[i] + b[i])
  }

  function Sub(a: Vector, b: Vector): (r: Vector)
    requires |a| == |b|
    ensures |r| == |a|
    ensures forall i :: 0 <= i < |r| ==> r[i] == a[i] - b[i]
  {
    seq(|a|, i requires 0 <= i < |a| => a[i] - b[i])
  }

  function Scale(c: real, v: Vector): (r: Vector)
    ensures |r| == |v|
    ensures forall i :: 0 <= i < |r| ==> r[i] == c * v[i]
  {
    seq(|v|, i requires 0 <= i < |v| => c * v[i])
  }

  /** The product of a row vector with a column vector, `a * b.transpose()`. */
  function Dot(a: Vector, b: Vector): real
    requires |a| == |b|
  {
    if |a| == 0 then 0.0 else a[0] * b[0] + Dot(a[1..], b[1..])
  }

  predicate IsZeroVector(v: Vector)
  {
    forall i :: 0 <= i < |v| ==> v[i] == 0.0
  }

  /** What the model assumes of Eigen's `norm()`: it is never negative, and it
      is zero exactly at the zero vector. */
  ghost predicate IsNorm(norm: Vector -> real)
  {
    forall v :: norm(v) >= 0.0 && (norm(v) == 0.0 <==> IsZeroVector(v))
  }

  /** The zero vector has a norm below every positive bound and below no
      other bound. */
  lemma ZeroVectorNormBelow(norm: Vector -> real, v: Vector, bound: real)
    requires IsNorm(norm)
    requires IsZeroVector(v)
    ensures norm(v) < bound <==> bound > 0.0
  {
    assert norm(v) == 0.0;
  }

  /** Adding a zero-scaled vector changes nothing. */
  lemma AddZeroScaled(x: Vector, v: Vector)
    requires |x| == |v|
    ensures Add(x, Scale(0.0, v)) == x
  {
    assert forall i :: 0 <= i < |x| ==> Add(x, Scale(0.0, v))[i] == x[i];
  }

  function Pow(base: real, n: nat): real
  {
    if n == 0 then 1.0 else base * Pow(base, n - 1)
  }
}
