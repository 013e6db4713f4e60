/** The 4×4 `D3DMATRIX` of the SDK and `matrix_multiplication`.
    Matrices are row-major and act on row vectors: a point p maps to p·M,
    so the translation of an affine matrix sits in row 4 (`_41,_42,_43`)
    and its fourth column is (0,0,0,1). */
module Matrices {
  import opened Vectors

  /** Field `mRC` is `_RC` of `D3DMATRIX` (row R, column C, both from 1). */
  datatype Matrix = Matrix(
    m11: real, m12: real, m13: real, m14: real,
    m21: real, m22: real, m23: real, m24: real,
    m31: real, m32: real, m33: real, m34: real,
    m41: real, m42: real, m43: real, m44: real)

  /** Entry `m[i][j]` with zero-based indices, as `D3DMATRIX::m` addresses it. */
  function Entry(m: Matrix, i: nat, j: nat): real
    requires i < 4 && j < 4
  {
    if i == 0 then (if j == 0 then m.m11 else if j == 1 then m.m12 else if j == 2 then m.m13 else m.m14)
    else if i == 1 then (if j == 0 then m.m21 else if j == 1 then m.m22 else if j == 2 then m.m23 else m.m24)
    else if i == 2 then (if j == 0 then m.m31 else if j == 1 then m.m32 else if j == 2 then m.m33 else m.m34)
    else (if j == 0 then m.m41 else if j == 1 then m.m42 else if j == 2 then m.m43 else m.m44)
  }

  /** Row i times column j of b: the textbook definition of one entry of a·b. */
  function RowCol(a: Matrix, b: Matrix, i: nat, j: nat): real
    requires i < 4 && j < 4
  {
    Entry(a, i, 0) * Entry(b, 0, j) + Entry(a, i, 1) * Entry(b, 1, j)
    + Entry(a, i, 2) * Entry(b, 2, j) + Entry(a, i, 3) * Entry(b, 3, j)
  }

  const Identity: Matrix :=
    Matrix(1.0, 0.0, 0.0, 0.0,
           0.0, 1.0, 0.0, 0.0,
           0.0, 0.0, 1.0, 0.0,
           0.0, 0.0, 0.0, 1.0)

  /** `matrix_multiplication(pm1, pm2)`, written out entry by entry as the
      SDK does; `MatMulEntry` relates it to `RowCol`. */
  function MatMul(a: Matrix, b: Matrix): Matrix
  {
    Matrix(
      a.m11 * b.m11 + a.m12 * b.m21 + a.m13 * b.m31 + a.m14 * b.m41,
      a.m11 * b.m12 + a.m12 * b.m22 + a.m13 * b.m32 + a.m14 * b.m42,
      a.m11 * b.m13 + a.m12 * b.m23 + a.m13 * b.m33 + a.m14 * b.m43,
      a.m11 * b.m14 + a.m12 * b.m24 + a.m13 * b.m34 + a.m14 * b.m44,
      a.m21 * b.m11 + a.m22 * b.m21 + a.m23 * b.m31 + a.m24 * b.m41,
      a.m21 * b.m12 + a.m22 * b.m22 + a.m23 * b.m32 + a.m24 * b.m42,
      a.m21 * b.m13 + a.m22 * b.m23 + a.m23 * b.m33 + a.m24 * b.m43,
      a.m21 * b.m14 + a.m22 * b.m24 + a.m23 * b.m34 + a.m24 * b.m44,
      a.m31 * b.m11 + a.m32 * b.m21 + a.m33 * b.m31 + a.m34 * b.m41,
      a.m31 * b.m12 + a.m32 * b.m22 + a.m33 * b.m32 + a.m34 * b.m42,
      a.m31 * b.m13 + a.m32 * b.m23 + a.m33 * b.m33 + a.m34 * b.m43,
      a.m31 * b.m14 + a.m32 * b.m24 + a.m33 * b.m34 + a.m34 * b.m44,
      a.m41 * b.m11 + a.m42 * b.m21 + a.m43 * b.m31 + a.m44 * b.m41,
      a.m41 * b.m12 + a.m42 * b.m22 + a.m43 * b.m32 + a.m44 * b.m42,
      a.m41 * b.m13 + a.m42 * b.m23 + a.m43 * b.m33 + a.m44 * b.m43,
      a.m41 * b.m14 + a.m42 * b.m24 + a.m43 * b.m34 + a.m44 * b.m44)
  }

  /** The pure translation by v: identity block, v in row 4. */
  function TranslationMatrix(v: Vector3): Matrix
  {
    Matrix(1.0, 0.0, 0.0, 0.0,
           0.0, 1.0, 0.0, 0.0,
           0.0, 0.0, 1.0, 0.0,
           v.x, v.y, v.z, 1.0)
  }

  /** The fourth column is (0,0,0,1): the matrix is an affine transform of row vectors. */
  predicate Affine(m: Matrix)
  {
    m.m14 == 0.0 && m.m24 == 0.0 && m.m34 == 0.0 && m.m44 == 1.0
  }

  /** Row 4, the translation part, as the SDK reads it back (`_41,_42,_43`). */
  function Translation(m: Matrix): Vector3
  {
    Vector3(m.m41, m.m42, m.m43)
  }

  /** Row i of the upper-left 3×3 block (i < 3). */
  function BlockRow(m: Matrix, i: nat): Vector3
    requires i < 3
  {
    if i == 0 then Vector3(m.m11, m.m12, m.m13)
    else if i == 1 then Vector3(m.m21, m.m22, m.m23)
    else Vector3(m.m31, m.m32, m.m33)
  }

  /** The point p (as the row vector (p, 1)) mapped by m, dropping the
      homogeneous coordinate: p times the 3×3 block plus row 4. */
  function TransformPoint(m: Matrix, p: Vector3): Vector3
  {
    Vector3(p.x * m.m11 + p.y * m.m21 + p.z * m.m31 + m.m41,
            p.x * m.m12 + p.y * m.m22 + p.z * m.m32 + m.m42,
            p.x * m.m13 + p.y * m.m23 + p.z * m.m33 + m.m43)
  }

  /** The upper-left 3×3 block is orthonormal: its rows are unit length and
      pairwise perpendicular (a pure rotation, no scale or shear). */
  predicate OrthonormalBlock(m: Matrix)
  {
    && Dot(BlockRow(m, 0), BlockRow(m, 0)) == 1.0
    && Dot(BlockRow(m, 1), BlockRow(m, 1)) == 1.0
    && Dot(BlockRow(m, 2), BlockRow(m, 2)) == 1.0
    && Dot(BlockRow(m, 0), BlockRow(m, 1)) == 0.0
    && Dot(BlockRow(m, 0), BlockRow(m, 2)) == 0.0
    && Dot(BlockRow(m, 1), BlockRow(m, 2)) == 0.0
  }

  /** Every entry of the product is the row of `a` times the column of `b`. */
  lemma MatMulEntry(a: Matrix, b: Matrix, i: nat, j: nat)
    requires i < 4 && j < 4
    ensures Entry(MatMul(a, b), i, j) == RowCol(a, b, i, j)
  {
    if i == 0 {
      MatMulRow1(a, b, j);
    } else if i == 1 {
      MatMulRow2(a, b, j);
    } else if i == 2 {
      MatMulRow3(a, b, j);
    } else {
      MatMulRow4(a, b, j);
    }
  }

  // One row of `MatMulEntry` at a time keeps each proof obligation small.
  lemma MatMulRow1(a: Matrix, b: Matrix, j: nat)
    requires j < 4
    ensures Entry(MatMul(a, b), 0, j) == RowCol(a, b, 0, j)
  {
  }

  lemma MatMulRow2(a: Matrix, b: Matrix, j: nat)
    requires j < 4
    ensures Entry(MatMul(a, b), 1, j) == RowCol(a, b, 1, j)
  {
  }

  lemma MatMulRow3(a: Matrix, b: Matrix, j: nat)
    requires j < 4
    ensures Entry(MatMul(a, b), 2, j) == RowCol(a, b, 2, j)
  {
  }

  lemma MatMulRow4(a: Matrix, b: Matrix, j: nat)
    requires j < 4
    ensures Entry(MatMul(a, b), 3, j) == RowCol(a, b, 3, j)
  {
  }

  /** The identity is a left and a right unit of `matrix_multiplication`. */
  lemma IdentityIsUnit(m: Matrix)
    ensures MatMul(Identity, m) == m
    ensures MatMul(m, Identity) == m
  {
  }

  /** Affine matrices are closed under multiplication, and the product's
      translation is a's translation carried through b: the composite maps
      a point by a first, then by b. */
  lemma AffineProduct(a: Matrix, b: Matrix)
    requires Affine(a) && Affine(b)
    ensures Affine(MatMul(a, b))
    ensures Translation(MatMul(a, b)) == TransformPoint(b, Translation(a))
    ensures forall p: Vector3 :: TransformPoint(MatMul(a, b), p) == TransformPoint(b, TransformPoint(a, p))
  {
    forall p: Vector3
      ensures TransformPoint(MatMul(a, b), p) == TransformPoint(b, TransformPoint(a, p))
    {
      ProductMapsPoint(a, b, p);
    }
  }

  /** Mapping p by a·b is mapping it by a, then by b, when a's fourth column
      is (0,0,0,1). */
  lemma ProductMapsPoint(a: Matrix, b: Matrix, p: Vector3)
    requires Affine(a)
    ensures TransformPoint(MatMul(a, b), p) == TransformPoint(b, TransformPoint(a, p))
  {
    ProductMapsX(a, b, p);
    ProductMapsY(a, b, p);
    ProductMapsZ(a, b, p);
  }

  lemma ProductMapsX(a: Matrix, b: Matrix, p: Vector3)
    requires Affine(a)
    ensures TransformPoint(MatMul(a, b), p).x == TransformPoint(b, TransformPoint(a, p)).x
  {
    var ab := MatMul(a, b);
    ComposeCoordinate(p, a, TransformPoint(a, p), b.m11, b.m21, b.m31, b.m41, ab.m11, ab.m21, ab.m31, ab.m41);
  }

  lemma ProductMapsY(a: Matrix, b: Matrix, p: Vector3)
    requires Affine(a)
    ensures TransformPoint(MatMul(a, b), p).y == TransformPoint(b, TransformPoint(a, p)).y
  {
    var ab := MatMul(a, b);
    ComposeCoordinate(p, a, TransformPoint(a, p), b.m12, b.m22, b.m32, b.m42, ab.m12, ab.m22, ab.m32, ab.m42);
  }

  lemma ProductMapsZ(a: Matrix, b: Matrix, p: Vector3)
    requires Affine(a)
    ensures TransformPoint(MatMul(a, b), p).z == TransformPoint(b, TransformPoint(a, p)).z
  {
    var ab := MatMul(a, b);
    ComposeCoordinate(p, a, TransformPoint(a, p), b.m13, b.m23, b.m33, b.m43, ab.m13, ab.m23, ab.m33, ab.m43);
  }

  /** One coordinate of `ProductMapsPoint`. q is p mapped by a, and
      (e1, e2, e3, e4) the column of a·b made from the column (c1, c2, c3, c4)
      of b: mapping p by the product's column is mapping q by b's column. */
  lemma ComposeCoordinate(p: Vector3, a: Matrix, q: Vector3, c1: real, c2: real, c3: real, c4: real,
                          e1: real, e2: real, e3: real, e4: real)
    requires Affine(a)
    requires q.x == p.x * a.m11 + p.y * a.m21 + p.z * a.m31 + a.m41
    requires q.y == p.x * a.m12 + p.y * a.m22 + p.z * a.m32 + a.m42
    requires q.z == p.x * a.m13 + p.y * a.m23 + p.z * a.m33 + a.m43
    requires e1 == a.m11 * c1 + a.m12 * c2 + a.m13 * c3 + a.m14 * c4
    requires e2 == a.m21 * c1 + a.m22 * c2 + a.m23 * c3 + a.m24 * c4
    requires e3 == a.m31 * c1 + a.m32 * c2 + a.m33 * c3 + a.m34 * c4
    requires e4 == a.m41 * c1 + a.m42 * c2 + a.m43 * c3 + a.m44 * c4
    ensures p.x * e1 + p.y * e2 + p.z * e3 + e4 == q.x * c1 + q.y * c2 + q.z * c3 + c4
  {
  }

  /** The product's translation row needs only a's `_44 == 1`: it is a's
      translation row mapped by b (`matrix_multiplication` rows 41..43). */
  lemma ProductTranslation(a: Matrix, b: Matrix)
    requires a.m44 == 1.0
    ensures Translation(MatMul(a, b)) == TransformPoint(b, Translation(a))
  {
    var ab, t := MatMul(a, b), Translation(a);
    assert t.x == a.m41 && t.y == a.m42 && t.z == a.m43;
    assert ab.m41 == t.x * b.m11 + t.y * b.m21 + t.z * b.m31 + b.m41;
    assert ab.m42 == t.x * b.m12 + t.y * b.m22 + t.z * b.m32 + b.m42;
    assert ab.m43 == t.x * b.m13 + t.y * b.m23 + t.z * b.m33 + b.m43;
  }
}
