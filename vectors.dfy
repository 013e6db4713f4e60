/** Plain value vectors of the overlay SDK: `Vector2` (a screen point) and
    `Vector3` (a world point or direction), with the dot product and the
    component-wise difference the projection uses. Doubles are modelled as reals. */
module Vectors {

  datatype Vector2 = Vector2(x: real, y: real)

  datatype Vector3 = Vector3(x: real, y: real, z: real)

  /** The value a default-constructed `Vector3` holds. */
  const Zero: Vector3 := Vector3(0.0, 0.0, 0.0)

  /** `Vector3::dot`. */
  function Dot(a: Vector3, b: Vector3): real
  {
    a.x * b.x + a.y * b.y + a.z * b.z
  }

  /** Component-wise sum; the inverse of `Sub`. */
  function Add(a: Vector3, b: Vector3): Vector3
  {
    Vector3(a.x + b.x, a.y + b.y, a.z + b.z)
  }

  /** `Vector3::operator-`: the difference vector, i.e. the displacement that
      `Add` undoes, which is zero exactly when the two points coincide. */
  function Sub(a: Vector3, b: Vector3): (d: Vector3)
    ensures Add(d, b) == a
    ensures d == Zero <==> a == b
  {
    Vector3(a.x - b.x, a.y - b.y, a.z - b.z)
  }

  /** The dot product is symmetric, and the zero vector annihilates it. */
  lemma DotSymmetric(a: Vector3, b: Vector3)
    ensures Dot(a, b) == Dot(b, a)
    ensures Dot(Zero, b) == 0.0 && Dot(a, Zero) == 0.0
  {
  }

  /** The dot product is linear in its first argument over differences:
      projecting a displacement equals the difference of the projections. */
  lemma DotSub(a: Vector3, b: Vector3, axis: Vector3)
    ensures Dot(Sub(a, b), axis) == Dot(a, axis) - Dot(b, axis)
  {
  }
}
