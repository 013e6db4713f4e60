/** `to_matrix`: Euler angles in degrees (pitch, yaw, roll) to a rotation
    matrix with an origin in row 4. The sines and cosines come from the C
    library; they are inputs here, given by a `Trig` value. */
module Rotations {
  import opened Vectors
  import opened Matrices

  /** `M_PI` as the SDK defines it, digit for digit. */
  const Pi: real := 3.14159265358979323846264338327950288419716939937510

  /** The C library's `sinf`, `cosf` and `tanf`, taken as given. */
  datatype Trig = Trig(sin: real -> real, cos: real -> real, tan: real -> real)

  /** The sines and cosines of pitch, yaw and roll that `to_matrix` computes. */
  datatype Angles = Angles(sp: real, cp: real, sy: real, cy: real, sr: real, cr: real)

  function Radians(degrees: real): real
  {
    degrees * Pi / 180.0
  }

  /** `rot.x` is pitch, `rot.y` yaw and `rot.z` roll, all in degrees. */
  function AnglesOf(rot: Vector3, trig: Trig): Angles
  {
    var p, y, r := Radians(rot.x), Radians(rot.y), Radians(rot.z);
    Angles(trig.sin(p), trig.cos(p), trig.sin(y), trig.cos(y), trig.sin(r), trig.cos(r))
  }

  /** The matrix `to_matrix` fills in, from the six sines and cosines. */
  function EulerMatrix(a: Angles, origin: Vector3): (m: Matrix)
    ensures Affine(m)
    ensures Translation(m) == origin
  {
    Matrix(
      a.cp * a.cy, a.cp * a.sy, a.sp, 0.0,
      a.sr * a.sp * a.cy - a.cr * a.sy, a.sr * a.sp * a.sy + a.cr * a.cy, -a.sr * a.cp, 0.0,
      -(a.cr * a.sp * a.cy + a.sr * a.sy), a.cy * a.sr - a.cr * a.sp * a.sy, a.cr * a.cp, 0.0,
      origin.x, origin.y, origin.z, 1.0)
  }

  /** `to_matrix(rot, origin)`: the origin lands in row 4 and the fourth
      column is (0,0,0,1). */
  function ToMatrix(rot: Vector3, origin: Vector3, trig: Trig): (m: Matrix)
    ensures Affine(m)
    ensures Translation(m) == origin
  {
    EulerMatrix(AnglesOf(rot, trig), origin)
  }

  /** The elementary rotations, as row-vector matrices with an identity
      fourth row and column. */
  function RollMatrix(s: real, c: real): Matrix
  {
    Matrix(1.0, 0.0, 0.0, 0.0,
           0.0, c, -s, 0.0,
           0.0, s, c, 0.0,
           0.0, 0.0, 0.0, 1.0)
  }

  function PitchMatrix(s: real, c: real): Matrix
  {
    Matrix(c, 0.0, s, 0.0,
           0.0, 1.0, 0.0, 0.0,
           -s, 0.0, c, 0.0,
           0.0, 0.0, 0.0, 1.0)
  }

  function YawMatrix(s: real, c: real): Matrix
  {
    Matrix(c, s, 0.0, 0.0,
           -s, c, 0.0, 0.0,
           0.0, 0.0, 1.0, 0.0,
           0.0, 0.0, 0.0, 1.0)
  }

  /** With every angle zero (sin 0 = 0, cos 0 = 1) the matrix is the pure
      translation by the origin: its 3×3 block is the identity. */
  lemma ZeroAnglesIsTranslation(origin: Vector3, trig: Trig)
    requires trig.sin(0.0) == 0.0 && trig.cos(0.0) == 1.0
    ensures ToMatrix(Zero, origin, trig) == TranslationMatrix(origin)
  {
    assert Radians(0.0) == 0.0;
  }

  /** Whatever the sines and cosines, the block is roll, then pitch, then
      yaw, applied to a row vector, followed by the move to the origin. */
  lemma EulerFactors(a: Angles, origin: Vector3)
    ensures EulerMatrix(a, origin)
            == MatMul(MatMul(RollMatrix(a.sr, a.cr), MatMul(PitchMatrix(a.sp, a.cp), YawMatrix(a.sy, a.cy))),
                      TranslationMatrix(origin))
  {
    PitchThenYaw(a.sp, a.cp, a.sy, a.cy);
    RollAfterPitchYaw(a);
    BlockThenTranslation(a, origin);
  }

  /** Pitch, then yaw, as one explicit matrix. */
  lemma PitchThenYaw(sp: real, cp: real, sy: real, cy: real)
    ensures MatMul(PitchMatrix(sp, cp), YawMatrix(sy, cy))
            == Matrix(cp * cy, cp * sy, sp, 0.0,
                      -sy, cy, 0.0, 0.0,
                      -sp * cy, -sp * sy, cp, 0.0,
                      0.0, 0.0, 0.0, 1.0)
  {
  }

  /** Roll applied after the pitch-then-yaw product gives the block of
      `to_matrix` with no translation. */
  lemma RollAfterPitchYaw(a: Angles)
    ensures MatMul(RollMatrix(a.sr, a.cr),
                   Matrix(a.cp * a.cy, a.cp * a.sy, a.sp, 0.0,
                          -a.sy, a.cy, 0.0, 0.0,
                          -a.sp * a.cy, -a.sp * a.sy, a.cp, 0.0,
                          0.0, 0.0, 0.0, 1.0))
            == EulerMatrix(a, Zero)
  {
  }

  /** Moving to the origin after the rotation only fills in row 4. */
  lemma BlockThenTranslation(a: Angles, origin: Vector3)
    ensures MatMul(EulerMatrix(a, Zero), TranslationMatrix(origin)) == EulerMatrix(a, origin)
  {
  }

  /** sin² + cos² = 1: what a genuine sine and cosine of one angle satisfy. */
  predicate Pythagorean(s: real, c: real)
  {
    s * s + c * c == 1.0
  }

  /** When each sine and cosine pair satisfies sin² + cos² = 1, the 3×3
      block of `to_matrix` is orthonormal: a pure rotation, with no scale
      or shear. */
  lemma EulerOrthonormal(a: Angles, origin: Vector3)
    requires Pythagorean(a.sp, a.cp) && Pythagorean(a.sy, a.cy) && Pythagorean(a.sr, a.cr)
    ensures OrthonormalBlock(EulerMatrix(a, origin))
  {
    EulerRow0(a, origin);
    EulerRow1(a, origin);
    EulerRow2(a, origin);
    EulerRows01(a, origin);
    EulerRows02(a, origin);
    EulerRows12(a, origin);
  }

  // One lemma per condition of `OrthonormalBlock`: the rows of the block as
  // vectors (`EulerBlockRows`), then the dot product of those vectors over
  // plain sines and cosines.
  lemma EulerRow0(a: Angles, origin: Vector3)
    requires Pythagorean(a.sp, a.cp) && Pythagorean(a.sy, a.cy)
    ensures Dot(BlockRow(EulerMatrix(a, origin), 0), BlockRow(EulerMatrix(a, origin), 0)) == 1.0
  {
    EulerBlockRows(a, origin);
    Row0(a.sp, a.cp, a.sy, a.cy, a.sr, a.cr);
  }

  lemma EulerRow1(a: Angles, origin: Vector3)
    requires Pythagorean(a.sp, a.cp) && Pythagorean(a.sy, a.cy) && Pythagorean(a.sr, a.cr)
    ensures Dot(BlockRow(EulerMatrix(a, origin), 1), BlockRow(EulerMatrix(a, origin), 1)) == 1.0
  {
    EulerBlockRows(a, origin);
    Row1(a.sp, a.cp, a.sy, a.cy, a.sr, a.cr);
  }

  lemma EulerRow2(a: Angles, origin: Vector3)
    requires Pythagorean(a.sp, a.cp) && Pythagorean(a.sy, a.cy) && Pythagorean(a.sr, a.cr)
    ensures Dot(BlockRow(EulerMatrix(a, origin), 2), BlockRow(EulerMatrix(a, origin), 2)) == 1.0
  {
    EulerBlockRows(a, origin);
    Row2(a.sp, a.cp, a.sy, a.cy, a.sr, a.cr);
  }

  lemma EulerRows01(a: Angles, origin: Vector3)
    requires Pythagorean(a.sp, a.cp) && Pythagorean(a.sy, a.cy)
    ensures Dot(BlockRow(EulerMatrix(a, origin), 0), BlockRow(EulerMatrix(a, origin), 1)) == 0.0
  {
    EulerBlockRows(a, origin);
    Rows01(a.sp, a.cp, a.sy, a.cy, a.sr, a.cr);
  }

  lemma EulerRows02(a: Angles, origin: Vector3)
    requires Pythagorean(a.sp, a.cp) && Pythagorean(a.sy, a.cy)
    ensures Dot(BlockRow(EulerMatrix(a, origin), 0), BlockRow(EulerMatrix(a, origin), 2)) == 0.0
  {
    EulerBlockRows(a, origin);
    Rows02(a.sp, a.cp, a.sy, a.cy, a.sr, a.cr);
  }

  lemma EulerRows12(a: Angles, origin: Vector3)
    requires Pythagorean(a.sp, a.cp) && Pythagorean(a.sy, a.cy) && Pythagorean(a.sr, a.cr)
    ensures Dot(BlockRow(EulerMatrix(a, origin), 1), BlockRow(EulerMatrix(a, origin), 2)) == 0.0
  {
    EulerBlockRows(a, origin);
    Rows12(a.sp, a.cp, a.sy, a.cy, a.sr, a.cr);
  }

  /** The three rows of the block, as vectors. */
  lemma EulerBlockRows(a: Angles, origin: Vector3)
    ensures BlockRow(EulerMatrix(a, origin), 0) == Vector3(a.cp * a.cy, a.cp * a.sy, a.sp)
    ensures BlockRow(EulerMatrix(a, origin), 1) == Vector3(a.sr * a.sp * a.cy - a.cr * a.sy, a.sr * a.sp * a.sy + a.cr * a.cy, -a.sr * a.cp)
    ensures BlockRow(EulerMatrix(a, origin), 2) == Vector3(-(a.cr * a.sp * a.cy + a.sr * a.sy), a.cy * a.sr - a.cr * a.sp * a.sy, a.cr * a.cp)
  {
  }

  // The six dot products over the rows written out: each is expanded into a
  // polynomial whose value under the Pythagorean identities a `…Value` (or
  // `…Factored`) lemma gives.
  lemma Row0(sp: real, cp: real, sy: real, cy: real, sr: real, cr: real)
    requires sp * sp + cp * cp == 1.0 && sy * sy + cy * cy == 1.0
    ensures Dot(Vector3(cp * cy, cp * sy, sp), Vector3(cp * cy, cp * sy, sp)) == 1.0
  {
    Row0Value(sp, cp, sy, cy, sr, cr);
  }

  lemma Row1(sp: real, cp: real, sy: real, cy: real, sr: real, cr: real)
    requires sp * sp + cp * cp == 1.0 && sy * sy + cy * cy == 1.0 && sr * sr + cr * cr == 1.0
    ensures Dot(Vector3(sr * sp * cy - cr * sy, sr * sp * sy + cr * cy, -sr * cp), Vector3(sr * sp * cy - cr * sy, sr * sp * sy + cr * cy, -sr * cp)) == 1.0
  {
    Row1Value(sp, cp, sy, cy, sr, cr);
  }

  lemma Row2(sp: real, cp: real, sy: real, cy: real, sr: real, cr: real)
    requires sp * sp + cp * cp == 1.0 && sy * sy + cy * cy == 1.0 && sr * sr + cr * cr == 1.0
    ensures Dot(Vector3(-(cr * sp * cy + sr * sy), cy * sr - cr * sp * sy, cr * cp), Vector3(-(cr * sp * cy + sr * sy), cy * sr - cr * sp * sy, cr * cp)) == 1.0
  {
    Row2Value(sp, cp, sy, cy, sr, cr);
  }

  lemma Rows01(sp: real, cp: real, sy: real, cy: real, sr: real, cr: real)
    requires sp * sp + cp * cp == 1.0 && sy * sy + cy * cy == 1.0
    ensures Dot(Vector3(cp * cy, cp * sy, sp), Vector3(sr * sp * cy - cr * sy, sr * sp * sy + cr * cy, -sr * cp)) == 0.0
  {
    Rows01Value(sp, cp, sy, cy, sr, cr);
  }

  lemma Rows02(sp: real, cp: real, sy: real, cy: real, sr: real, cr: real)
    requires sp * sp + cp * cp == 1.0 && sy * sy + cy * cy == 1.0
    ensures Dot(Vector3(cp * cy, cp * sy, sp), Vector3(-(cr * sp * cy + sr * sy), cy * sr - cr * sp * sy, cr * cp)) == 0.0
  {
    Rows02Value(sp, cp, sy, cy, sr, cr);
  }

  lemma Rows12(sp: real, cp: real, sy: real, cy: real, sr: real, cr: real)
    requires sp * sp + cp * cp == 1.0 && sy * sy + cy * cy == 1.0 && sr * sr + cr * cr == 1.0
    ensures Dot(Vector3(sr * sp * cy - cr * sy, sr * sp * sy + cr * cy, -sr * cp), Vector3(-(cr * sp * cy + sr * sy), cy * sr - cr * sp * sy, cr * cp)) == 0.0
  {
    Rows12Factored(sp, cp, sy, cy, sr, cr);
    assert (sy * sy + cy * cy) * (1.0 - sp * sp) - cp * cp == 0.0;
  }

  /** The dot product of rows 1 and 2 as sr·cr times a polynomial that the
      Pythagorean identities make 0. */
  lemma Rows12Factored(sp: real, cp: real, sy: real, cy: real, sr: real, cr: real)
    ensures Dot(Vector3(sr * sp * cy - cr * sy, sr * sp * sy + cr * cy, -sr * cp), Vector3(-(cr * sp * cy + sr * sy), cy * sr - cr * sp * sy, cr * cp))
            == sr * cr * ((sy * sy + cy * cy) * (1.0 - sp * sp) - cp * cp)
  {
    assert (sr * sp * cy - cr * sy) * (-(cr * sp * cy + sr * sy)) + (sr * sp * sy + cr * cy) * (cy * sr - cr * sp * sy)
        == -(sr * cr) * (sp * sp) * (cy * cy + sy * sy) + (sr * cr) * (sy * sy + cy * cy);
  }

  lemma Row0Value(sp: real, cp: real, sy: real, cy: real, sr: real, cr: real)
    requires sp * sp + cp * cp == 1.0 && sy * sy + cy * cy == 1.0
    ensures (cp * cy) * (cp * cy) + (cp * sy) * (cp * sy) + sp * sp == 1.0
  {
    assert (cp * cy) * (cp * cy) + (cp * sy) * (cp * sy) == (cp * cp) * (sy * sy + cy * cy);
  }

  lemma Row1Value(sp: real, cp: real, sy: real, cy: real, sr: real, cr: real)
    requires sp * sp + cp * cp == 1.0 && sy * sy + cy * cy == 1.0 && sr * sr + cr * cr == 1.0
    ensures (sr * sp * cy - cr * sy) * (sr * sp * cy - cr * sy) + (sr * sp * sy + cr * cy) * (sr * sp * sy + cr * cy) + (-sr * cp) * (-sr * cp) == 1.0
  {
    assert (sr * sp * cy - cr * sy) * (sr * sp * cy - cr * sy) + (sr * sp * sy + cr * cy) * (sr * sp * sy + cr * cy)
        == (sr * sp) * (sr * sp) * (cy * cy + sy * sy) + (cr * cr) * (sy * sy + cy * cy);
  }

  lemma Row2Value(sp: real, cp: real, sy: real, cy: real, sr: real, cr: real)
    requires sp * sp + cp * cp == 1.0 && sy * sy + cy * cy == 1.0 && sr * sr + cr * cr == 1.0
    ensures (-(cr * sp * cy + sr * sy)) * (-(cr * sp * cy + sr * sy)) + (cy * sr - cr * sp * sy) * (cy * sr - cr * sp * sy) + (cr * cp) * (cr * cp) == 1.0
  {
    assert (-(cr * sp * cy + sr * sy)) * (-(cr * sp * cy + sr * sy)) + (cy * sr - cr * sp * sy) * (cy * sr - cr * sp * sy)
        == (cr * sp) * (cr * sp) * (cy * cy + sy * sy) + (sr * sr) * (sy * sy + cy * cy);
  }

  lemma Rows01Value(sp: real, cp: real, sy: real, cy: real, sr: real, cr: real)
    requires sp * sp + cp * cp == 1.0 && sy * sy + cy * cy == 1.0
    ensures (cp * cy) * (sr * sp * cy - cr * sy) + (cp * sy) * (sr * sp * sy + cr * cy) + sp * (-sr * cp) == 0.0
  {
    assert (cp * cy) * (sr * sp * cy - cr * sy) + (cp * sy) * (sr * sp * sy + cr * cy) == (cp * sr * sp) * (cy * cy + sy * sy);
  }

  lemma Rows02Value(sp: real, cp: real, sy: real, cy: real, sr: real, cr: real)
    requires sp * sp + cp * cp == 1.0 && sy * sy + cy * cy == 1.0
    ensures (cp * cy) * (-(cr * sp * cy + sr * sy)) + (cp * sy) * (cy * sr - cr * sp * sy) + sp * (cr * cp) == 0.0
  {
    assert (cp * cy) * (-(cr * sp * cy + sr * sy)) + (cp * sy) * (cy * sr - cr * sp * sy) == -(cp * cr * sp) * (cy * cy + sy * sy);
  }

}
