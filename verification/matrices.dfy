/** 3x3 matrices over the reals, following glam's column-major `Mat3`. */
module Matrices {
  import opened Vectors

  /** A matrix given by its three columns, as glam stores it. */
  datatype Mat3 = Mat3(xAxis: Vec3, yAxis: Vec3, zAxis: Vec3)

  /** A diagonal matrix, as built by `from_cols_array_2d` with zero
      off-diagonal entries. */
  function Diagonal(a: real, b: real, c: real): Mat3 {
    Mat3(V(a, 0.0, 0.0), V(0.0, b, 0.0), V(0.0, 0.0, c))
  }

  function Transpose(m: Mat3): Mat3 {
    Mat3(V(m.xAxis.x, m.yAxis.x, m.zAxis.x),
         V(m.xAxis.y, m.yAxis.y, m.zAxis.y),
         V(m.xAxis.z, m.yAxis.z, m.zAxis.z))
  }

  /** glam's `mul_vec3`: the column combination `x * v.x + y * v.y + z * v.z`. */
  function MulVec(m: Mat3, v: Vec3): Vec3 {
    Add(Add(Scale(m.xAxis, v.x), Scale(m.yAxis, v.y)), Scale(m.zAxis, v.z))
  }

  /** glam's `determinant`: `z . (x cross y)`. */
  function Determinant(m: Mat3): real {
    Dot(m.zAxis, Cross(m.xAxis, m.yAxis))
  }

  predicate Invertible(m: Mat3) {
    Determinant(m) != 0.0
  }

  /** glam's `inverse`: the transposed matrix of cofactor columns
      `y cross z`, `z cross x`, `x cross y`, each scaled by `1 / det`. glam
      gives non-finite entries for a singular matrix; over the reals the
      inverse is defined only for an invertible one. */
  function Inverse(m: Mat3): Mat3
    requires Invertible(m)
  {
    var invDet := 1.0 / Determinant(m);
    Transpose(Mat3(Scale(Cross(m.yAxis, m.zAxis), invDet),
                   Scale(Cross(m.zAxis, m.xAxis), invDet),
                   Scale(Cross(m.xAxis, m.yAxis), invDet)))
  }

  /** The adjugate applied to `t`: the inverse without the `1 / det` factor. */
  function AdjugateMul(m: Mat3, t: Vec3): Vec3 {
    V(Dot(Cross(m.yAxis, m.zAxis), t), Dot(Cross(m.zAxis, m.xAxis), t), Dot(Cross(m.xAxis, m.yAxis), t))
  }

  lemma InverseMulIsScaledAdjugate(m: Mat3, t: Vec3)
    requires Invertible(m)
    ensures MulVec(Inverse(m), t) == Scale(AdjugateMul(m, t), 1.0 / Determinant(m))
  {
    MulTransposeScaled(Cross(m.yAxis, m.zAxis), Cross(m.zAxis, m.xAxis), Cross(m.xAxis, m.yAxis), t,
                       1.0 / Determinant(m));
  }

  /** Multiplying by the transpose of scaled columns `a, b, c` takes the dot
      products with those columns. */
  lemma MulTransposeScaled(a: Vec3, b: Vec3, c: Vec3, t: Vec3, k: real)
    ensures MulVec(Transpose(Mat3(Scale(a, k), Scale(b, k), Scale(c, k))), t)
         == Scale(V(Dot(a, t), Dot(b, t), Dot(c, t)), k)
  {
    MulTranspose(Mat3(Scale(a, k), Scale(b, k), Scale(c, k)), t);
    DotScaleLeft(a, t, k);
    DotScaleLeft(b, t, k);
    DotScaleLeft(c, t, k);
    ScaleOf(Dot(a, t), Dot(b, t), Dot(c, t), k);
  }

  /** `m * v` entry by entry: row `i` of `m` combined with `v`. */
  lemma MulVecEntries(m: Mat3, v: Vec3)
    ensures MulVec(m, v) == V(m.xAxis.x * v.x + m.yAxis.x * v.y + m.zAxis.x * v.z,
                              m.xAxis.y * v.x + m.yAxis.y * v.y + m.zAxis.y * v.z,
                              m.xAxis.z * v.x + m.yAxis.z * v.y + m.zAxis.z * v.z)
  {
  }

  /** Multiplying by a transpose takes the dot products with the columns. */
  lemma MulTranspose(c: Mat3, t: Vec3)
    ensures MulVec(Transpose(c), t) == V(Dot(c.xAxis, t), Dot(c.yAxis, t), Dot(c.zAxis, t))
  {
    MulVecEntries(Transpose(c), t);
  }

  /** A cofactor column dotted with `t`, written out. */
  lemma DotCross(a: Vec3, b: Vec3, t: Vec3)
    ensures Dot(Cross(a, b), t)
         == (a.y * b.z - a.z * b.y) * t.x + (a.z * b.x - a.x * b.z) * t.y + (a.x * b.y - a.y * b.x) * t.z
  {
  }

  /** The adjugate product written out in the nine entries of `m`. */
  lemma AdjugateMulEntries(m: Mat3, t: Vec3)
    ensures AdjugateMul(m, t).x
         == (m.yAxis.y * m.zAxis.z - m.yAxis.z * m.zAxis.y) * t.x
          + (m.yAxis.z * m.zAxis.x - m.yAxis.x * m.zAxis.z) * t.y
          + (m.yAxis.x * m.zAxis.y - m.yAxis.y * m.zAxis.x) * t.z
    ensures AdjugateMul(m, t).y
         == (m.zAxis.y * m.xAxis.z - m.zAxis.z * m.xAxis.y) * t.x
          + (m.zAxis.z * m.xAxis.x - m.zAxis.x * m.xAxis.z) * t.y
          + (m.zAxis.x * m.xAxis.y - m.zAxis.y * m.xAxis.x) * t.z
    ensures AdjugateMul(m, t).z
         == (m.xAxis.y * m.yAxis.z - m.xAxis.z * m.yAxis.y) * t.x
          + (m.xAxis.z * m.yAxis.x - m.xAxis.x * m.yAxis.z) * t.y
          + (m.xAxis.x * m.yAxis.y - m.xAxis.y * m.yAxis.x) * t.z
  {
    DotCross(m.yAxis, m.zAxis, t);
    DotCross(m.zAxis, m.xAxis, t);
    DotCross(m.xAxis, m.yAxis, t);
  }

  /** The determinant written out in the nine entries of `m`. */
  lemma DeterminantEntries(m: Mat3)
    ensures Determinant(m)
         == m.zAxis.x * (m.xAxis.y * m.yAxis.z - m.xAxis.z * m.yAxis.y)
          + m.zAxis.y * (m.xAxis.z * m.yAxis.x - m.xAxis.x * m.yAxis.z)
          + m.zAxis.z * (m.xAxis.x * m.yAxis.y - m.xAxis.y * m.yAxis.x)
  {
  }

  /** `m * (adj m * t) == det m * t` (Cramer's rule). */
  lemma MulAdjugate(m: Mat3, t: Vec3)
    ensures MulVec(m, AdjugateMul(m, t)) == Scale(t, Determinant(m))
  {
    MulAdjugateRows(m, t);
    MulVecEntries(m, AdjugateMul(m, t));
    ScaleComponents(t, Determinant(m));
  }

  /** The three rows of `m * (adj m * t) == det m * t`. */
  lemma MulAdjugateRows(m: Mat3, t: Vec3)
    ensures m.xAxis.x * AdjugateMul(m, t).x + m.yAxis.x * AdjugateMul(m, t).y + m.zAxis.x * AdjugateMul(m, t).z
         == t.x * Determinant(m)
    ensures m.xAxis.y * AdjugateMul(m, t).x + m.yAxis.y * AdjugateMul(m, t).y + m.zAxis.y * AdjugateMul(m, t).z
         == t.y * Determinant(m)
    ensures m.xAxis.z * AdjugateMul(m, t).x + m.yAxis.z * AdjugateMul(m, t).y + m.zAxis.z * AdjugateMul(m, t).z
         == t.z * Determinant(m)
  {
    AdjugateMulEntries(m, t);
    DeterminantEntries(m);
    Cramer(m.xAxis.x, m.xAxis.y, m.xAxis.z, m.yAxis.x, m.yAxis.y, m.yAxis.z, m.zAxis.x, m.zAxis.y, m.zAxis.z,
           t.x, t.y, t.z, AdjugateMul(m, t).x, AdjugateMul(m, t).y, AdjugateMul(m, t).z, Determinant(m));
  }

  /** Cramer's rule on the nine entries (column `x` is `(xx, xy, xz)` and so
      on), with the adjugate products `u0, u1, u2` and the determinant `d`
      given as parameters. */
  lemma Cramer(xx: real, xy: real, xz: real, yx: real, yy: real, yz: real, zx: real, zy: real, zz: real,
               t0: real, t1: real, t2: real, u0: real, u1: real, u2: real, d: real)
    requires u0 == (yy * zz - yz * zy) * t0 + (yz * zx - yx * zz) * t1 + (yx * zy - yy * zx) * t2
    requires u1 == (zy * xz - zz * xy) * t0 + (zz * xx - zx * xz) * t1 + (zx * xy - zy * xx) * t2
    requires u2 == (xy * yz - xz * yy) * t0 + (xz * yx - xx * yz) * t1 + (xx * yy - xy * yx) * t2
    requires d == zx * (xy * yz - xz * yy) + zy * (xz * yx - xx * yz) + zz * (xx * yy - xy * yx)
    ensures xx * u0 + yx * u1 + zx * u2 == t0 * d
    ensures xy * u0 + yy * u1 + zy * u2 == t1 * d
    ensures xz * u0 + yz * u1 + zz * u2 == t2 * d
  {
  }

  /** `adj m * (m * a) == det m * a`. */
  lemma AdjugateMulMul(m: Mat3, a: Vec3)
    ensures AdjugateMul(m, MulVec(m, a)) == Scale(a, Determinant(m))
  {
    AdjugateMulMulRows(m, a);
    ScaleComponents(a, Determinant(m));
  }

  /** The three entries of `adj m * (m * a) == det m * a`. */
  lemma AdjugateMulMulRows(m: Mat3, a: Vec3)
    ensures AdjugateMul(m, MulVec(m, a)).x == a.x * Determinant(m)
    ensures AdjugateMul(m, MulVec(m, a)).y == a.y * Determinant(m)
    ensures AdjugateMul(m, MulVec(m, a)).z == a.z * Determinant(m)
  {
    MulVecEntries(m, a);
    AdjugateMulEntries(m, MulVec(m, a));
    DeterminantEntries(m);
    CramerTransposed(m.xAxis.x, m.xAxis.y, m.xAxis.z, m.yAxis.x, m.yAxis.y, m.yAxis.z, m.zAxis.x, m.zAxis.y, m.zAxis.z,
                     a.x, a.y, a.z, MulVec(m, a).x, MulVec(m, a).y, MulVec(m, a).z, Determinant(m));
  }

  /** The other composition: the adjugate undoes the matrix, up to `d`. */
  lemma CramerTransposed(xx: real, xy: real, xz: real, yx: real, yy: real, yz: real, zx: real, zy: real, zz: real,
                         a0: real, a1: real, a2: real, t0: real, t1: real, t2: real, d: real)
    requires t0 == xx * a0 + yx * a1 + zx * a2
    requires t1 == xy * a0 + yy * a1 + zy * a2
    requires t2 == xz * a0 + yz * a1 + zz * a2
    requires d == zx * (xy * yz - xz * yy) + zy * (xz * yx - xx * yz) + zz * (xx * yy - xy * yx)
    ensures (yy * zz - yz * zy) * t0 + (yz * zx - yx * zz) * t1 + (yx * zy - yy * zx) * t2 == a0 * d
    ensures (zy * xz - zz * xy) * t0 + (zz * xx - zx * xz) * t1 + (zx * xy - zy * xx) * t2 == a1 * d
    ensures (xy * yz - xz * yy) * t0 + (xz * yx - xx * yz) * t1 + (xx * yy - xy * yx) * t2 == a2 * d
  {
  }

  /** The inverse is a right inverse: `m * (m^-1 * t) == t`. */
  lemma MulInverse(m: Mat3, t: Vec3)
    requires Invertible(m)
    ensures MulVec(m, MulVec(Inverse(m), t)) == t
  {
    InverseMulIsScaledAdjugate(m, t);
    MulVecScale(m, AdjugateMul(m, t), 1.0 / Determinant(m));
    MulAdjugate(m, t);
    ScaleCancel(t, Determinant(m), 1.0 / Determinant(m));
  }

  /** The inverse is a left inverse: `m^-1 * (m * a) == a`. */
  lemma InverseMul(m: Mat3, a: Vec3)
    requires Invertible(m)
    ensures MulVec(Inverse(m), MulVec(m, a)) == a
  {
    InverseMulIsScaledAdjugate(m, MulVec(m, a));
    AdjugateMulMul(m, a);
    ScaleCancel(a, Determinant(m), 1.0 / Determinant(m));
  }

  /** `m * v` row by row: the rows of `m` are the columns of its transpose. */
  lemma MulVecRows(m: Mat3, v: Vec3)
    ensures MulVec(m, v)
         == V(Dot(Transpose(m).xAxis, v), Dot(Transpose(m).yAxis, v), Dot(Transpose(m).zAxis, v))
  {
    MulTranspose(Transpose(m), v);
    assert Transpose(Transpose(m)) == m;
  }

  lemma MulVecScale(m: Mat3, v: Vec3, k: real)
    ensures MulVec(m, Scale(v, k)) == Scale(MulVec(m, v), k)
  {
    MulVecRows(m, v);
    MulVecRows(m, Scale(v, k));
    DotScaleRight(Transpose(m).xAxis, v, k);
    DotScaleRight(Transpose(m).yAxis, v, k);
    DotScaleRight(Transpose(m).zAxis, v, k);
    ScaleOf(Dot(Transpose(m).xAxis, v), Dot(Transpose(m).yAxis, v), Dot(Transpose(m).zAxis, v), k);
  }

  lemma MulVecAdd(m: Mat3, v: Vec3, w: Vec3)
    ensures MulVec(m, Add(v, w)) == Add(MulVec(m, v), MulVec(m, w))
  {
    MulVecRows(m, v);
    MulVecRows(m, w);
    MulVecRows(m, Add(v, w));
    DotAddRight(Transpose(m).xAxis, v, w);
    DotAddRight(Transpose(m).yAxis, v, w);
    DotAddRight(Transpose(m).zAxis, v, w);
  }

  lemma DiagonalMulVec(a: real, b: real, c: real, v: Vec3)
    ensures MulVec(Diagonal(a, b, c), v) == V(a * v.x, b * v.y, c * v.z)
  {
  }

  lemma DiagonalDeterminant(a: real, b: real, c: real)
    ensures Determinant(Diagonal(a, b, c)) == c * (a * b)
  {
  }
}
