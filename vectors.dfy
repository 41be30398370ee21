/**
 The 2D vector values every component of the collision core works with.
 The vector library itself is external to the core; only the operations
 the core calls are given here, over exact reals instead of float64.
 */
module Vectors {

  datatype Vector = Vector(x: real, y: real)

  /** The zero vector, which is also the Go zero value of a vector. */
  const Zero: Vector := Vector(0.0, 0.0)

  function Add(a: Vector, b: Vector): Vector
  {
    Vector(a.x + b.x, a.y + b.y)
  }

  function Sub(a: Vector, b: Vector): Vector
  {
    Vector(a.x - b.x, a.y - b.y)
  }

  function Scale(a: Vector, f: real): Vector
  {
    Vector(a.x * f, a.y * f)
  }

  function Dot(a: Vector, b: Vector): real
  {
    a.x * b.x + a.y * b.y
  }

  /** Go's math.Min and math.Max on finite values. */
  function MinReal(a: real, b: real): real { if a <= b then a else b }
  function MaxReal(a: real, b: real): real { if a >= b then a else b }

  /** Squared Euclidean distance between two points. */
  function DistanceSquared(a: Vector, b: Vector): (d: real)
    ensures d >= 0.0
  {
    SquareNonNegative(a.x - b.x);
    SquareNonNegative(a.y - b.y);
    (a.x - b.x) * (a.x - b.x) + (a.y - b.y) * (a.y - b.y)
  }

  lemma SquareNonNegative(d: real)
    ensures d * d >= 0.0
  {
    if d < 0.0 {
      assert d * d == (-d) * (-d);
    }
  }

  /** A straight line segment from `start` to `end` (the library's line type). */
  datatype Segment = Segment(start: Vector, end: Vector)
}
