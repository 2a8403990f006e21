/**
 * The parts of the simd library that the hand-tracking model uses, over the reals:
 * three- and four-component vectors, column-major 4x4 matrices (`simd_float4x4`),
 * `matrix_multiply`, `cross`, `normalize` and `distance`.
 *
 * The square root behind simd's `length` is not modelled: every operation that needs
 * a vector's length takes it as a parameter `length: Vec3 -> real`.
 */
module Simd {

  datatype Vec3 = Vec3(x: real, y: real, z: real) {
    /** Component `i`, as the subscript `v[i]`. */
    function At(i: nat): real
      requires i < 3
    {
      if i == 0 then x else if i == 1 then y else z
    }
  }

  datatype Vec4 = Vec4(x: real, y: real, z: real, w: real) {
    /** Component `i`, as the subscript `v[i]`. */
    function At(i: nat): real
      requires i < 4
    {
      if i == 0 then x else if i == 1 then y else if i == 2 then z else w
    }
  }

  /** A 4x4 matrix stored by columns, as `simd_float4x4.columns.0` ... `.columns.3`. */
  datatype Mat4 = Mat4(col0: Vec4, col1: Vec4, col2: Vec4, col3: Vec4)

  /** `matrix_identity_float4x4` */
  const Identity: Mat4 := Mat4(Vec4(1.0, 0.0, 0.0, 0.0), Vec4(0.0, 1.0, 0.0, 0.0),
                               Vec4(0.0, 0.0, 1.0, 0.0), Vec4(0.0, 0.0, 0.0, 1.0))

  function Add(a: Vec3, b: Vec3): Vec3 { Vec3(a.x + b.x, a.y + b.y, a.z + b.z) }

  function Sub(a: Vec3, b: Vec3): Vec3 { Vec3(a.x - b.x, a.y - b.y, a.z - b.z) }

  /** `v * k` */
  function Scale(k: real, v: Vec3): Vec3 { Vec3(k * v.x, k * v.y, k * v.z) }

  /** `v / k` */
  function Div(v: Vec3, k: real): Vec3
    requires k != 0.0
  {
    Vec3(v.x / k, v.y / k, v.z / k)
  }

  function Dot(a: Vec3, b: Vec3): real { a.x * b.x + a.y * b.y + a.z * b.z }

  function Cross(a: Vec3, b: Vec3): Vec3
  {
    Vec3(a.y * b.z - a.z * b.y, a.z * b.x - a.x * b.z, a.x * b.y - a.y * b.x)
  }

  /** The squared Euclidean length. */
  function Norm2(v: Vec3): real { Dot(v, v) }

  /** The squared Euclidean distance. */
  function SqDist(a: Vec3, b: Vec3): real { Norm2(Sub(a, b)) }

  /** `m * v` for a column vector `v`. */
  function MulVec(m: Mat4, v: Vec4): Vec4
  {
    Vec4(m.col0.x * v.x + m.col1.x * v.y + m.col2.x * v.z + m.col3.x * v.w,
         m.col0.y * v.x + m.col1.y * v.y + m.col2.y * v.z + m.col3.y * v.w,
         m.col0.z * v.x + m.col1.z * v.y + m.col2.z * v.z + m.col3.z * v.w,
         m.col0.w * v.x + m.col1.w * v.y + m.col2.w * v.z + m.col3.w * v.w)
  }

  /** `matrix_multiply(a, b)`: column j of the product is `a` applied to column j of `b`. */
  function MatMul(a: Mat4, b: Mat4): Mat4
  {
    Mat4(MulVec(a, b.col0), MulVec(a, b.col1), MulVec(a, b.col2), MulVec(a, b.col3))
  }

  /** `u` is `v` scaled by a positive factor. */
  ghost predicate PositiveMultiple(u: Vec3, v: Vec3)
  {
    exists k :: k > 0.0 && u == Scale(k, v)
  }

  /**
   * `length` is the Euclidean length: never negative, and its square is the squared
   * length.
   */
  ghost predicate EuclideanLength(length: Vec3 -> real)
  {
    forall v :: length(v) >= 0.0 && length(v) * length(v) == Norm2(v)
  }

  /**
   * `normalize(v)`: `v` divided by its length. simd gives NaN components for a zero
   * vector; the model leaves such a vector as it is, so that the result is a positive
   * multiple of the input in every case.
   */
  function Normalize(length: Vec3 -> real, v: Vec3): (r: Vec3)
    ensures PositiveMultiple(r, v)
  {
    var n := length(v);
    if n > 0.0 then
      assert Div(v, n) == Scale(1.0 / n, v);
      Div(v, n)
    else
      assert v == Scale(1.0, v);
      v
  }

  /** `distance(a, b)`: the length of `a - b`. */
  function Distance(length: Vec3 -> real, a: Vec3, b: Vec3): real
  {
    length(Sub(a, b))
  }

  lemma DotScaleLeft(k: real, u: Vec3, v: Vec3)
    ensures Dot(Scale(k, u), v) == k * Dot(u, v)
  {
  }

  /** The cross product is orthogonal to both of its arguments. */
  lemma CrossOrthogonal(a: Vec3, b: Vec3)
    ensures Dot(Cross(a, b), a) == 0.0 && Dot(Cross(a, b), b) == 0.0
  {
  }

  /** A positive multiple of a vector orthogonal to `w` is orthogonal to `w`. */
  lemma PositiveMultipleOrthogonal(u: Vec3, v: Vec3, w: Vec3)
    requires PositiveMultiple(u, v) && Dot(v, w) == 0.0
    ensures Dot(u, w) == 0.0
  {
    var k :| k > 0.0 && u == Scale(k, v);
    DotScaleLeft(k, v, w);
  }

  /** For a non-negative `d` with square `s`, `d < 0.04` exactly when `s < 0.0016`. */
  lemma SquareBelow(d: real, s: real)
    requires d >= 0.0 && d * d == s
    ensures d < 0.04 <==> s < 0.0016
  {
    if d < 0.04 {
      assert d * d <= d * 0.04;
    } else {
      assert d * d >= d * 0.04;
    }
  }

  /**
   * With the Euclidean length, a distance is below 0.04 exactly when the squared
   * distance is below 0.0016.
   */
  lemma DistanceBelowThreshold(length: Vec3 -> real, a: Vec3, b: Vec3)
    requires EuclideanLength(length)
    ensures Distance(length, a, b) < 0.04 <==> SqDist(a, b) < 0.0016
  {
    var d := Sub(a, b);
    assert length(d) >= 0.0 && length(d) * length(d) == Norm2(d);
    SquareBelow(length(d), Norm2(d));
  }

  lemma MatMulIdentityLeft(m: Mat4)
    ensures MatMul(Identity, m) == m
  {
  }
}
