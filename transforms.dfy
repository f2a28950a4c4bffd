// Symbolic 4x4 transforms.
//
// DirectXMath composes row-vector transforms left to right: in `A * B` the
// factor A acts first. A matrix is modelled here as the list of its factors in
// that order, so that a product is a concatenation and no floating-point
// arithmetic is needed to state which transform an object carries.

module Transforms {

  /** XM_PI as DirectXMath declares it. */
  const Pi: real := 3.141592654

  /** XMConvertToRadians. */
  function Radians(degrees: real): real
  {
    degrees * (Pi / 180.0)
  }

  datatype Axis = X | Y | Z

  /** One elementary factor: XMMatrixTranslation, a uniform XMMatrixScaling or XMMatrixRotationX/Y/Z. */
  datatype Step =
    | Translate(dx: real, dy: real, dz: real)
    | Scaling(k: real)
    | Rotation(axis: Axis, angle: real)

  /** A transform, as the product of its factors, first-applied first. */
  type Matrix = seq<Step>

  const Identity: Matrix := []

  function Mul(a: Matrix, b: Matrix): Matrix
  {
    a + b
  }

  /** Matrix multiplication is associative. */
  lemma MulAssoc(a: Matrix, b: Matrix, c: Matrix)
    ensures Mul(Mul(a, b), c) == Mul(a, Mul(b, c))
  {
  }

  function Translation(dx: real, dy: real, dz: real): Matrix
  {
    [Translate(dx, dy, dz)]
  }

  /** XMMatrixScaling(k, k, k). */
  function Scale(k: real): Matrix
  {
    [Scaling(k)]
  }

  function Rotate(axis: Axis, angle: real): Matrix
  {
    [Rotation(axis, angle)]
  }

  /** A factor that is the identity matrix whatever else it is multiplied with. */
  predicate IsUnit(s: Step)
  {
    match s
    case Translate(dx, dy, dz) => dx == 0.0 && dy == 0.0 && dz == 0.0
    case Scaling(k) => k == 1.0
    case Rotation(_, angle) => angle == 0.0
  }

  /**
   * The product with its unit factors removed. Two matrices with the same
   * reduction are the same transform.
   */
  function Reduce(m: Matrix): (r: Matrix)
    ensures forall s :: s in r ==> s in m && !IsUnit(s)
    ensures |r| <= |m|
  {
    if m == [] then []
    else if IsUnit(m[0]) then Reduce(m[1..])
    else [m[0]] + Reduce(m[1..])
  }

  /** Removing unit factors commutes with multiplication. */
  lemma {:induction false} ReduceMul(a: Matrix, b: Matrix)
    ensures Reduce(Mul(a, b)) == Mul(Reduce(a), Reduce(b))
  {
    if a == [] {
      assert Mul(a, b) == b;
    } else {
      assert Mul(a, b)[0] == a[0];
      assert Mul(a, b)[1..] == Mul(a[1..], b);
      ReduceMul(a[1..], b);
    }
  }

  /** Scaling by one leaves every transform as it was. */
  lemma ScaleOneIsIdentity(m: Matrix)
    ensures Reduce(Mul(Scale(1.0), m)) == Reduce(m)
  {
    ReduceMul(Scale(1.0), m);
  }
}
