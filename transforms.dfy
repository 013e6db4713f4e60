/** `FQuat` and `FTransform` of the SDK and `FTransform::to_matrix_with_scale`,
    with the rotation quaternion left as read (it is not normalised). */
module Transforms {
  import opened Vectors
  import opened Matrices

  datatype Quat = Quat(x: real, y: real, z: real, w: real)

  /** `FTransform` without its two padding gaps, which only match the
      remote process's memory layout. */
  datatype Transform = Transform(rotation: Quat, translation: Vector3, scale: Vector3)

  const IdentityQuat: Quat := Quat(0.0, 0.0, 0.0, 1.0)

  /** The scale `to_matrix_with_scale` really applies: each component equal
      to 0 is replaced by 1, every other one is kept, so none is 0. */
  function EffectiveScale(s: Vector3): (r: Vector3)
    ensures r.x != 0.0 && r.y != 0.0 && r.z != 0.0
    ensures s.x != 0.0 ==> r.x == s.x
    ensures s.y != 0.0 ==> r.y == s.y
    ensures s.z != 0.0 ==> r.z == s.z
    ensures s.x == 0.0 ==> r.x == 1.0
    ensures s.y == 0.0 ==> r.y == 1.0
    ensures s.z == 0.0 ==> r.z == 1.0
  {
    Vector3(if s.x == 0.0 then 1.0 else s.x,
            if s.y == 0.0 then 1.0 else s.y,
            if s.z == 0.0 then 1.0 else s.z)
  }

  /** `FTransform::to_matrix_with_scale`, statement for statement: the
      translation goes in row 4 and the fourth column is (0,0,0,1).
      `ToMatrixWithScaleFactors` says what the 3×3 block is. */
  function ToMatrixWithScale(t: Transform): (m: Matrix)
    ensures Affine(m)
    ensures Translation(m) == t.translation
  {
    var s := EffectiveScale(t.scale);
    var q := t.rotation;
    var x2 := q.x + q.x;
    var y2 := q.y + q.y;
    var z2 := q.z + q.z;
    var xx2 := q.x * x2;
    var yy2 := q.y * y2;
    var zz2 := q.z * z2;
    var yz2 := q.y * z2;
    var wx2 := q.w * x2;
    var xy2 := q.x * y2;
    var wz2 := q.w * z2;
    var xz2 := q.x * z2;
    var wy2 := q.w * y2;
    Matrix(
      (1.0 - (yy2 + zz2)) * s.x, (xy2 + wz2) * s.x, (xz2 - wy2) * s.x, 0.0,
      (xy2 - wz2) * s.y, (1.0 - (xx2 + zz2)) * s.y, (yz2 + wx2) * s.y, 0.0,
      (xz2 + wy2) * s.z, (yz2 - wx2) * s.z, (1.0 - (xx2 + yy2)) * s.z, 0.0,
      t.translation.x, t.translation.y, t.translation.z, 1.0)
  }

  /** The textbook rotation matrix of q for row vectors (the transpose of the
      column-vector form), followed by the translation v. */
  function RotationMatrix(q: Quat, v: Vector3): Matrix
  {
    var x, y, z, w := q.x, q.y, q.z, q.w;
    Matrix(
      1.0 - 2.0 * (y * y + z * z), 2.0 * (x * y + w * z), 2.0 * (x * z - w * y), 0.0,
      2.0 * (x * y - w * z), 1.0 - 2.0 * (x * x + z * z), 2.0 * (y * z + w * x), 0.0,
      2.0 * (x * z + w * y), 2.0 * (y * z - w * x), 1.0 - 2.0 * (x * x + y * y), 0.0,
      v.x, v.y, v.z, 1.0)
  }

  /** Scales axis i of a row vector by s_i and leaves the homogeneous part alone. */
  function ScaleMatrix(s: Vector3): Matrix
  {
    Matrix(s.x, 0.0, 0.0, 0.0,
           0.0, s.y, 0.0, 0.0,
           0.0, 0.0, s.z, 0.0,
           0.0, 0.0, 0.0, 1.0)
  }

  /** The matrix is the scale applied first and the rotation-and-translation
      second: row i of the 3×3 block is row i of the quaternion's rotation
      matrix times the i-th effective scale component. */
  lemma ToMatrixWithScaleFactors(t: Transform)
    ensures ToMatrixWithScale(t)
            == MatMul(ScaleMatrix(EffectiveScale(t.scale)), RotationMatrix(t.rotation, t.translation))
  {
    var s, r := EffectiveScale(t.scale), RotationMatrix(t.rotation, t.translation);
    ScaleRows(s, r);
    ScaledRotationEntries(t);
  }

  /** Scaling first multiplies row i of the block by s_i. */
  lemma ScaleRows(s: Vector3, m: Matrix)
    ensures MatMul(ScaleMatrix(s), m)
            == Matrix(m.m11 * s.x, m.m12 * s.x, m.m13 * s.x, m.m14 * s.x,
                      m.m21 * s.y, m.m22 * s.y, m.m23 * s.y, m.m24 * s.y,
                      m.m31 * s.z, m.m32 * s.z, m.m33 * s.z, m.m34 * s.z,
                      m.m41, m.m42, m.m43, m.m44)
  {
  }

  /** Entry by entry, `to_matrix_with_scale` is the rotation matrix's
      entry times the scale of its row. */
  lemma ScaledRotationEntries(t: Transform)
    ensures var s, r := EffectiveScale(t.scale), RotationMatrix(t.rotation, t.translation);
      ToMatrixWithScale(t)
      == Matrix(r.m11 * s.x, r.m12 * s.x, r.m13 * s.x, r.m14 * s.x,
                r.m21 * s.y, r.m22 * s.y, r.m23 * s.y, r.m24 * s.y,
                r.m31 * s.z, r.m32 * s.z, r.m33 * s.z, r.m34 * s.z,
                r.m41, r.m42, r.m43, r.m44)
  {
    ScaledRotationRow1(t);
    ScaledRotationRow2(t);
    ScaledRotationRow3(t);
  }

  // One row of the block at a time keeps each proof obligation small.
  lemma ScaledRotationRow1(t: Transform)
    ensures var s, r, m := EffectiveScale(t.scale), RotationMatrix(t.rotation, t.translation), ToMatrixWithScale(t);
      m.m11 == r.m11 * s.x && m.m12 == r.m12 * s.x && m.m13 == r.m13 * s.x
  {
  }

  lemma ScaledRotationRow2(t: Transform)
    ensures var s, r, m := EffectiveScale(t.scale), RotationMatrix(t.rotation, t.translation), ToMatrixWithScale(t);
      m.m21 == r.m21 * s.y && m.m22 == r.m22 * s.y && m.m23 == r.m23 * s.y
  {
  }

  lemma ScaledRotationRow3(t: Transform)
    ensures var s, r, m := EffectiveScale(t.scale), RotationMatrix(t.rotation, t.translation), ToMatrixWithScale(t);
      m.m31 == r.m31 * s.z && m.m32 == r.m32 * s.z && m.m33 == r.m33 * s.z
  {
  }

  /** A scale of (0,0,0) gives exactly the matrix of a scale of (1,1,1). */
  lemma ZeroScaleIsUnitScale(t: Transform)
    ensures ToMatrixWithScale(t.(scale := Zero))
            == ToMatrixWithScale(t.(scale := Vector3(1.0, 1.0, 1.0)))
  {
  }

  /** The identity quaternion with unit (or unset, all-zero) scale yields the
      pure translation: the 3×3 block is the identity. */
  lemma IdentityRotationIsTranslation(t: Transform)
    requires t.rotation == IdentityQuat
    requires t.scale == Vector3(1.0, 1.0, 1.0) || t.scale == Zero
    ensures ToMatrixWithScale(t) == TranslationMatrix(t.translation)
  {
  }
}
