/** Positions and velocities. Distances are only ever compared, so they are kept squared. */
module Geometry {

  datatype Vector = Vector(x: real, y: real, z: real)

  function Add(p: Vector, q: Vector): Vector {
    Vector(p.x + q.x, p.y + q.y, p.z + q.z)
  }

  function Scale(k: int, p: Vector): Vector {
    Vector(k as real * p.x, k as real * p.y, k as real * p.z)
  }

  function Square(x: real): (r: real)
    ensures r >= 0.0
  {
    x * x
  }

  /** The square of `CalculateDistance`. */
  function Distance2(p: Vector, q: Vector): (d: real)
    ensures d >= 0.0
  {
    Square(p.x - q.x) + Square(p.y - q.y) + Square(p.z - q.z)
  }

  /** The metric is Euclid's. */
  lemma DistanceIsEuclidean(p: Vector, q: Vector)
    ensures Distance2(p, q) == (p.x - q.x) * (p.x - q.x) + (p.y - q.y) * (p.y - q.y) + (p.z - q.z) * (p.z - q.z)
  {
  }

  lemma DistanceSymmetric(p: Vector, q: Vector)
    ensures Distance2(p, q) == Distance2(q, p)
  {
    NegatedSquare(p.x - q.x);
    NegatedSquare(p.y - q.y);
    NegatedSquare(p.z - q.z);
  }

  lemma NegatedSquare(x: real)
    ensures Square(-x) == Square(x)
  {
  }

  function IntVector(x: int, y: int, z: int): Vector {
    Vector(x as real, y as real, z as real)
  }
}
