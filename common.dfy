/**
 * Vector algebra, colour clamping and scene-buffer accessors of the ray
 * tracer (src/ray_tracing/common.py).
 *
 * Arithmetic is over `real`. The square root used by `normalize` is not
 * computed: every member that needs it takes a parameter `sqrt` and, where a
 * property depends on it, requires `IsSqrt(sqrt)`.
 *
 * Scene buffers are structure-of-arrays matrices, one row per attribute
 * and one column per object. The kernels only read them, so a buffer is
 * modelled as a value: the sequence of its columns, where buf[i][r] is the
 * entry at row r, column i.
 */
module Common {

  datatype Vec3 = Vec3(x: real, y: real, z: real)

  /** A 3x3 matrix given by its rows, as `matmul` unpacks it. */
  datatype Mat3 = Mat3(row0: Vec3, row1: Vec3, row2: Vec3)

  const Zero := Vec3(0.0, 0.0, 0.0)

  /** A scene buffer as its sequence of columns, one per object. */
  type Buffer = seq<seq<real>>

  /**
   * The only facts about the square root the model relies on: it maps a
   * non-negative number to its non-negative root, and 0 to 0 (which follows
   * from the first fact; it is listed so that proofs can use it directly).
   */
  ghost predicate IsSqrt(sqrt: real -> real)
  {
    && (forall x :: 0.0 <= x ==> 0.0 <= sqrt(x) && sqrt(x) * sqrt(x) == x)
    && sqrt(0.0) == 0.0
  }

  function Abs(x: real): real
  {
    if x < 0.0 then -x else x
  }

  function Neg(v: Vec3): Vec3
  {
    Vec3(-v.x, -v.y, -v.z)
  }

  // ---------------------------------------------------------------------
  // Vector operations
  // ---------------------------------------------------------------------

  /** c1*a + c2*b, component by component. */
  function LinearComb(a: Vec3, b: Vec3, c1: real, c2: real): Vec3
  {
    Vec3(c1 * a.x + c2 * b.x, c1 * a.y + c2 * b.y, c1 * a.z + c2 * b.z)
  }

  /** The vector that leads from `from` to `to`, i.e. to - from. */
  function VectorDifference(from: Vec3, to: Vec3): Vec3
  {
    Vec3(to.x - from.x, to.y - from.y, to.z - from.z)
  }

  function Dot(a: Vec3, b: Vec3): real
  {
    a.x * b.x + a.y * b.y + a.z * b.z
  }

  function CrossProduct(a: Vec3, b: Vec3): Vec3
  {
    Vec3(a.y * b.z - a.z * b.y, a.z * b.x - a.x * b.z, a.x * b.y - a.y * b.x)
  }

  /** v divided by its Euclidean norm. A zero norm gives the zero vector. */
  function Normalize(sqrt: real -> real, v: Vec3): Vec3
  {
    var norm := sqrt(Dot(v, v));
    if norm == 0.0 then Zero else Vec3(v.x / norm, v.y / norm, v.z / norm)
  }

  function Matmul(A: Mat3, x: Vec3): Vec3
  {
    Vec3(Dot(A.row0, x), Dot(A.row1, x), Dot(A.row2, x))
  }

  /** Mirror image of `rayDir` about the plane whose normal is `normal`. */
  function GetReflection(rayDir: Vec3, normal: Vec3): Vec3
  {
    var k := Dot(rayDir, normal);
    LinearComb(rayDir, normal, 1.0, -2.0 * k)
  }

  // ---------------------------------------------------------------------
  // Colour clamping
  // ---------------------------------------------------------------------

  /** Python's `round` on a float: nearest integer, halves to the even one. */
  function RoundHalfEven(x: real): (n: int)
    ensures -0.5 <= n as real - x <= 0.5
    ensures x - x.Floor as real == 0.5 ==> n % 2 == 0
  {
    var f := x.Floor;
    var frac := x - f as real;
    if frac < 0.5 then f
    else if frac > 0.5 then f + 1
    else if f % 2 == 0 then f
    else f + 1
  }

  function ClipColor(color: real): (c: int)
    ensures 0 <= c <= 255
    ensures 0.0 <= color <= 255.0 ==> -0.5 <= c as real - color <= 0.5
  {
    var n := RoundHalfEven(color);
    var m := if 0 < n then n else 0;
    if m < 255 then m else 255
  }

  /** Clamps the three channels; the result lists them as (R, B, G). */
  function ClipColorVector(color: Vec3): (int, int, int)
  {
    (ClipColor(color.x), ClipColor(color.z), ClipColor(color.y))
  }

  // ---------------------------------------------------------------------
  // Buffer accessors
  // ---------------------------------------------------------------------

  /** The slice m[row:row+3, col] as a vector. */
  function Column3(m: Buffer, row: nat, col: nat): Vec3
    requires col < |m| && row + 3 <= |m[col]|
  {
    Vec3(m[col][row], m[col][row + 1], m[col][row + 2])
  }

  function GetSphereColor(index: nat, spheres: Buffer): Vec3
    requires index < |spheres| && 7 <= |spheres[index]|
  {
    Column3(spheres, 4, index)
  }

  function GetPlaneColor(index: nat, planes: Buffer): Vec3
    requires index < |planes| && 9 <= |planes[index]|
  {
    Column3(planes, 6, index)
  }

  function GetRectangleColor(index: nat, rectangles: Buffer): Vec3
    requires index < |rectangles| && 12 <= |rectangles[index]|
  {
    Column3(rectangles, 9, index)
  }

  function GetVectorToLight(sqrt: real -> real, p: Vec3, lights: Buffer, lightIndex: nat): Vec3
    requires lightIndex < |lights| && 3 <= |lights[lightIndex]|
  {
    Normalize(sqrt, VectorDifference(p, Column3(lights, 0, lightIndex)))
  }

  function GetSphereNormal(sqrt: real -> real, p: Vec3, sphereIndex: nat, spheres: Buffer): Vec3
    requires sphereIndex < |spheres| && 7 <= |spheres[sphereIndex]|
  {
    Normalize(sqrt, VectorDifference(Column3(spheres, 0, sphereIndex), p))
  }

  function GetPlaneNormal(sqrt: real -> real, planeIndex: nat, planes: Buffer): Vec3
    requires planeIndex < |planes| && 9 <= |planes[planeIndex]|
  {
    Normalize(sqrt, Column3(planes, 3, planeIndex))
  }

  /**
   * Unit normal of a rectangle: cross(u, v) normalised, negated when the
   * orientation entry at row 12 is 0. Row 12 must exist.
   */
  function GetRectNormal(sqrt: real -> real, recIndex: nat, rectangles: Buffer): Vec3
    requires recIndex < |rectangles| && 13 <= |rectangles[recIndex]|
  {
    var n := Normalize(sqrt, CrossProduct(Column3(rectangles, 3, recIndex), Column3(rectangles, 6, recIndex)));
    if rectangles[recIndex][12] == 0.0 then Neg(n) else n
  }

  // ---------------------------------------------------------------------
  // Real-arithmetic helpers. Each is stated over plain real variables, so
  // that the solver meets every nonlinear step on its own.
  // ---------------------------------------------------------------------

  lemma MulPositive(p: real, q: real)
    requires 0.0 < p && 0.0 < q
    ensures 0.0 < p * q
  {
  }

  lemma SquareNonNegative(a: real)
    ensures 0.0 <= a * a
    ensures a != 0.0 ==> 0.0 < a * a
  {
    if 0.0 < a {
      MulPositive(a, a);
    } else if a < 0.0 {
      MulPositive(-a, -a);
      assert (-a) * (-a) == a * a;
    }
  }

  lemma SumOfSquares(a: real, b: real, c: real)
    ensures 0.0 <= a * a + b * b + c * c
    ensures a != 0.0 || b != 0.0 || c != 0.0 ==> 0.0 < a * a + b * b + c * c
  {
    SquareNonNegative(a);
    SquareNonNegative(b);
    SquareNonNegative(c);
  }

  /** The non-negative root of a positive number is positive. */
  lemma RootPositive(r: real, s: real)
    requires 0.0 <= r && s == r * r && 0.0 < s
    ensures 0.0 < r
  {
    if r == 0.0 {
      ZeroSquare(r);
    }
  }

  lemma ZeroSquare(a: real)
    requires a == 0.0
    ensures a * a == 0.0
  {
  }

  lemma SquareBelowOne(p: real)
    requires 0.0 < p && p < 1.0
    ensures p * p < 1.0
  {
    assert p * p < p * 1.0;
  }

  lemma SquareAboveOne(p: real)
    requires 1.0 < p
    ensures 1.0 < p * p
  {
    assert p * 1.0 < p * p;
  }

  /** (c1 a + c2 b) x v, one component, as the combination of a x v and b x v. */
  lemma CombCross(c1: real, c2: real, ly: real, lz: real, pa: real, pb: real,
                  ay: real, b1: real, az: real, b2: real, vy: real, vz: real)
    requires ly == c1 * ay + c2 * b1 && lz == c1 * az + c2 * b2
    requires pa == ay * vz - az * vy && pb == b1 * vz - b2 * vy
    ensures ly * vz - lz * vy == c1 * pa + c2 * pb
  {
    assert ly * vz == c1 * ay * vz + c2 * b1 * vz;
    assert lz * vy == c1 * az * vy + c2 * b2 * vy;
    assert c1 * pa == c1 * ay * vz - c1 * az * vy;
    assert c2 * pb == c2 * b1 * vz - c2 * b2 * vy;
  }

  lemma QuotientTimes(r: real, a: real, b: real, n: real)
    requires n != 0.0 && r == a / n
    ensures r * b == (a * b) / n
  {
  }

  lemma SumOfQuotients(a: real, b: real, c: real, n: real)
    requires n != 0.0
    ensures a / n + b / n + c / n == (a + b + c) / n
  {
  }

  /** With n*n == s, dividing s by n twice gives 1. */
  lemma QuotientOfSquare(q: real, d: real, s: real, n: real)
    requires n != 0.0 && n * n == s && q == s / n && d == q / n
    ensures q == n && d == 1.0
  {
  }

  lemma ScaledCrossVanishes(rp: real, rq: real, p: real, q: real, n: real)
    requires n != 0.0 && rp == p / n && rq == q / n
    ensures rp * q - rq * p == 0.0
  {
    QuotientTimes(rp, p, q, n);
    QuotientTimes(rq, q, p, n);
  }

  // ---------------------------------------------------------------------
  // Properties of the vector operations
  // ---------------------------------------------------------------------

  lemma DotSymmetric(a: Vec3, b: Vec3)
    ensures Dot(a, b) == Dot(b, a)
  {
  }

  /** `linear_comb` is linear: its dot product with any n splits accordingly. */
  lemma DotLinearComb(a: Vec3, b: Vec3, c1: real, c2: real, n: Vec3)
    ensures Dot(LinearComb(a, b, c1, c2), n) == c1 * Dot(a, n) + c2 * Dot(b, n)
  {
    calc {
      Dot(LinearComb(a, b, c1, c2), n);
      (c1 * a.x + c2 * b.x) * n.x + (c1 * a.y + c2 * b.y) * n.y + (c1 * a.z + c2 * b.z) * n.z;
      c1 * (a.x * n.x) + c2 * (b.x * n.x) + c1 * (a.y * n.y) + c2 * (b.y * n.y) + c1 * (a.z * n.z) + c2 * (b.z * n.z);
      c1 * Dot(a, n) + c2 * Dot(b, n);
    }
  }

  lemma DotNeg(a: Vec3, b: Vec3)
    ensures Dot(Neg(a), b) == -Dot(a, b)
    ensures Dot(Neg(a), Neg(a)) == Dot(a, a)
  {
  }

  /** Walking from `from` along VectorDifference(from, to) arrives at `to`. */
  lemma VectorDifferenceRoundTrip(from: Vec3, to: Vec3)
    ensures LinearComb(from, VectorDifference(from, to), 1.0, 1.0) == to
    ensures VectorDifference(from, to) == Neg(VectorDifference(to, from))
  {
  }

  lemma CrossProductOrthogonal(a: Vec3, b: Vec3)
    ensures Dot(CrossProduct(a, b), a) == 0.0
    ensures Dot(CrossProduct(a, b), b) == 0.0
  {
  }

  lemma CrossProductAnticommutes(a: Vec3, b: Vec3)
    ensures CrossProduct(a, b) == Neg(CrossProduct(b, a))
    ensures CrossProduct(a, a) == Zero
  {
  }

  /** The cross product is linear in its first argument. */
  lemma CrossProductLinearLeft(a: Vec3, b: Vec3, c1: real, c2: real, v: Vec3)
    ensures CrossProduct(LinearComb(a, b, c1, c2), v)
         == LinearComb(CrossProduct(a, v), CrossProduct(b, v), c1, c2)
  {
    CrossLinearX(a, b, c1, c2, v);
    CrossLinearY(a, b, c1, c2, v);
    CrossLinearZ(a, b, c1, c2, v);
  }

  lemma CrossLinearX(a: Vec3, b: Vec3, c1: real, c2: real, v: Vec3)
    ensures CrossProduct(LinearComb(a, b, c1, c2), v).x
         == LinearComb(CrossProduct(a, v), CrossProduct(b, v), c1, c2).x
  {
    var l := LinearComb(a, b, c1, c2);
    CombCross(c1, c2, l.y, l.z, CrossProduct(a, v).x, CrossProduct(b, v).x, a.y, b.y, a.z, b.z, v.y, v.z);
  }

  lemma CrossLinearY(a: Vec3, b: Vec3, c1: real, c2: real, v: Vec3)
    ensures CrossProduct(LinearComb(a, b, c1, c2), v).y
         == LinearComb(CrossProduct(a, v), CrossProduct(b, v), c1, c2).y
  {
    var l := LinearComb(a, b, c1, c2);
    CombCross(c1, c2, l.z, l.x, CrossProduct(a, v).y, CrossProduct(b, v).y, a.z, b.z, a.x, b.x, v.z, v.x);
  }

  lemma CrossLinearZ(a: Vec3, b: Vec3, c1: real, c2: real, v: Vec3)
    ensures CrossProduct(LinearComb(a, b, c1, c2), v).z
         == LinearComb(CrossProduct(a, v), CrossProduct(b, v), c1, c2).z
  {
    var l := LinearComb(a, b, c1, c2);
    CombCross(c1, c2, l.x, l.y, CrossProduct(a, v).z, CrossProduct(b, v).z, a.x, b.x, a.y, b.y, v.x, v.y);
  }

  lemma CombCrossRight(c1: real, c2: real, ly: real, lz: real, pa: real, pb: real,
                       uy: real, uz: real, ay: real, az: real, b1: real, b2: real)
    requires ly == c1 * ay + c2 * b1 && lz == c1 * az + c2 * b2
    requires pa == uy * az - uz * ay && pb == uy * b2 - uz * b1
    ensures uy * lz - uz * ly == c1 * pa + c2 * pb
  {
    assert uy * lz == c1 * uy * az + c2 * uy * b2;
    assert uz * ly == c1 * uz * ay + c2 * uz * b1;
    assert c1 * pa == c1 * uy * az - c1 * uz * ay;
    assert c2 * pb == c2 * uy * b2 - c2 * uz * b1;
  }

  /** The cross product is linear in its second argument. */
  lemma CrossProductLinearRight(u: Vec3, a: Vec3, b: Vec3, c1: real, c2: real)
    ensures CrossProduct(u, LinearComb(a, b, c1, c2))
         == LinearComb(CrossProduct(u, a), CrossProduct(u, b), c1, c2)
  {
    CrossLinearRightX(u, a, b, c1, c2);
    CrossLinearRightY(u, a, b, c1, c2);
    CrossLinearRightZ(u, a, b, c1, c2);
  }

  lemma CrossLinearRightX(u: Vec3, a: Vec3, b: Vec3, c1: real, c2: real)
    ensures CrossProduct(u, LinearComb(a, b, c1, c2)).x
         == LinearComb(CrossProduct(u, a), CrossProduct(u, b), c1, c2).x
  {
    var l := LinearComb(a, b, c1, c2);
    CombCrossRight(c1, c2, l.y, l.z, CrossProduct(u, a).x, CrossProduct(u, b).x, u.y, u.z, a.y, a.z, b.y, b.z);
  }

  lemma CrossLinearRightY(u: Vec3, a: Vec3, b: Vec3, c1: real, c2: real)
    ensures CrossProduct(u, LinearComb(a, b, c1, c2)).y
         == LinearComb(CrossProduct(u, a), CrossProduct(u, b), c1, c2).y
  {
    var l := LinearComb(a, b, c1, c2);
    CombCrossRight(c1, c2, l.z, l.x, CrossProduct(u, a).y, CrossProduct(u, b).y, u.z, u.x, a.z, a.x, b.z, b.x);
  }

  lemma CrossLinearRightZ(u: Vec3, a: Vec3, b: Vec3, c1: real, c2: real)
    ensures CrossProduct(u, LinearComb(a, b, c1, c2)).z
         == LinearComb(CrossProduct(u, a), CrossProduct(u, b), c1, c2).z
  {
    var l := LinearComb(a, b, c1, c2);
    CombCrossRight(c1, c2, l.x, l.y, CrossProduct(u, a).z, CrossProduct(u, b).z, u.x, u.y, a.x, a.y, b.x, b.y);
  }

  /** Row k of `matmul` is dot(A[k], x), so the product is linear in x. */
  lemma MatmulLinear(A: Mat3, u: Vec3, v: Vec3, c1: real, c2: real)
    ensures Matmul(A, LinearComb(u, v, c1, c2)) == LinearComb(Matmul(A, u), Matmul(A, v), c1, c2)
  {
    DotLinearComb(u, v, c1, c2, A.row0);
    DotLinearComb(u, v, c1, c2, A.row1);
    DotLinearComb(u, v, c1, c2, A.row2);
    DotSymmetric(LinearComb(u, v, c1, c2), A.row0);
    DotSymmetric(LinearComb(u, v, c1, c2), A.row1);
    DotSymmetric(LinearComb(u, v, c1, c2), A.row2);
  }

  lemma MatmulIdentity(x: Vec3)
    ensures Matmul(Mat3(Vec3(1.0, 0.0, 0.0), Vec3(0.0, 1.0, 0.0), Vec3(0.0, 0.0, 1.0)), x) == x
  {
  }

  lemma DotSelfNonNegative(v: Vec3)
    ensures 0.0 <= Dot(v, v)
  {
    SumOfSquares(v.x, v.y, v.z);
  }

  /** |dot(a, b)| is at most the mean of the squared lengths. */
  lemma DotBound(a: Vec3, b: Vec3)
    ensures 2.0 * Dot(a, b) <= Dot(a, a) + Dot(b, b)
    ensures -2.0 * Dot(a, b) <= Dot(a, a) + Dot(b, b)
  {
    TwoProductBound(a.x, b.x);
    TwoProductBound(a.y, b.y);
    TwoProductBound(a.z, b.z);
  }

  lemma TwoProductBound(p: real, q: real)
    ensures 2.0 * (p * q) <= p * p + q * q
    ensures -2.0 * (p * q) <= p * p + q * q
  {
    SquareNonNegative(p - q);
    SquareNonNegative(p + q);
    assert (p - q) * (p - q) == p * p - 2.0 * (p * q) + q * q;
    assert (p + q) * (p + q) == p * p + 2.0 * (p * q) + q * q;
  }

  lemma SqrtOfOne(sqrt: real -> real)
    requires IsSqrt(sqrt)
    ensures sqrt(1.0) == 1.0
  {
    RootOfOne(sqrt(1.0), 1.0);
  }

  lemma RootOfOne(r: real, s: real)
    requires 0.0 <= r && s == r * r && s == 1.0
    ensures r == 1.0
  {
    if r < 1.0 {
      if 0.0 < r {
        SquareBelowOne(r);
      } else {
        ZeroSquare(r);
      }
    } else if 1.0 < r {
      SquareAboveOne(r);
    }
  }

  /** The norm used by Normalize is positive for a vector of positive
      length, and a dot product with the normalised vector is the dot
      product divided by that norm. */
  lemma DotNormalize(sqrt: real -> real, v: Vec3, w: Vec3)
    requires IsSqrt(sqrt) && 0.0 < Dot(v, v)
    ensures 0.0 < sqrt(Dot(v, v))
    ensures Normalize(sqrt, v) == Vec3(v.x / sqrt(Dot(v, v)), v.y / sqrt(Dot(v, v)), v.z / sqrt(Dot(v, v)))
    ensures Dot(Normalize(sqrt, v), w) == Dot(v, w) / sqrt(Dot(v, v))
  {
    var n := sqrt(Dot(v, v));
    RootPositive(n, Dot(v, v));
    var r := Vec3(v.x / n, v.y / n, v.z / n);
    assert Normalize(sqrt, v) == r;
    QuotientTimes(r.x, v.x, w.x, n);
    QuotientTimes(r.y, v.y, w.y, n);
    QuotientTimes(r.z, v.z, w.z, n);
    SumOfQuotients(v.x * w.x, v.y * w.y, v.z * w.z, n);
  }

  /** Normalising a vector of positive length gives a unit vector pointing
      the same way. */
  lemma NormalizeUnit(sqrt: real -> real, v: Vec3)
    requires IsSqrt(sqrt) && 0.0 < Dot(v, v)
    ensures Dot(Normalize(sqrt, v), Normalize(sqrt, v)) == 1.0
    ensures 0.0 < Dot(Normalize(sqrt, v), v)
    ensures CrossProduct(Normalize(sqrt, v), v) == Zero
  {
    var r := Normalize(sqrt, v);
    var s := Dot(v, v);
    var n := sqrt(s);
    DotNormalize(sqrt, v, v);
    DotNormalize(sqrt, v, r);
    DotSymmetric(v, r);
    QuotientOfSquare(Dot(r, v), Dot(r, r), s, n);
    ScaledCrossVanishes(r.y, r.z, v.y, v.z, n);
    ScaledCrossVanishes(r.z, r.x, v.z, v.x, n);
    ScaledCrossVanishes(r.x, r.y, v.x, v.y, n);
  }

  /** A vector of zero length normalises to the zero vector. */
  lemma NormalizeDegenerate(sqrt: real -> real, v: Vec3)
    requires IsSqrt(sqrt) && Dot(v, v) == 0.0
    ensures Normalize(sqrt, v) == Zero
  {
  }

  /** Whatever the input, a normalised vector is never longer than 1. */
  lemma NormalizeAtMostUnit(sqrt: real -> real, v: Vec3)
    requires IsSqrt(sqrt)
    ensures Dot(Normalize(sqrt, v), Normalize(sqrt, v)) <= 1.0
  {
    DotSelfNonNegative(v);
    if 0.0 < Dot(v, v) {
      NormalizeUnit(sqrt, v);
    } else {
      NormalizeDegenerate(sqrt, v);
    }
  }

  lemma NormalizeIdempotent(sqrt: real -> real, v: Vec3)
    requires IsSqrt(sqrt)
    ensures Normalize(sqrt, Normalize(sqrt, v)) == Normalize(sqrt, v)
  {
    SqrtOfOne(sqrt);
    DotSelfNonNegative(v);
    if 0.0 < Dot(v, v) {
      NormalizeUnit(sqrt, v);
    } else {
      NormalizeDegenerate(sqrt, v);
      NormalizeDegenerate(sqrt, Zero);
    }
  }

  /**
   * For a unit normal, reflection flips the normal component and keeps the
   * length; reflecting twice gives the original direction back.
   */
  lemma ReflectionAboutUnitNormal(d: Vec3, n: Vec3)
    requires Dot(n, n) == 1.0
    ensures Dot(GetReflection(d, n), n) == -Dot(d, n)
    ensures Dot(GetReflection(d, n), GetReflection(d, n)) == Dot(d, d)
    ensures GetReflection(GetReflection(d, n), n) == d
  {
    ReflectionFlipsNormalPart(d, n);
    ReflectionKeepsLength(d, n);
    ReflectionUndoesItself(d, n);
  }

  lemma ReflectionFlipsNormalPart(d: Vec3, n: Vec3)
    requires Dot(n, n) == 1.0
    ensures Dot(GetReflection(d, n), n) == -Dot(d, n)
  {
    var k := Dot(d, n);
    DotLinearComb(d, n, 1.0, -2.0 * k, n);
  }

  lemma ReflectionKeepsLength(d: Vec3, n: Vec3)
    requires Dot(n, n) == 1.0
    ensures Dot(GetReflection(d, n), GetReflection(d, n)) == Dot(d, d)
  {
    var k := Dot(d, n);
    var r := GetReflection(d, n);
    ReflectionFlipsNormalPart(d, n);
    DotLinearComb(d, n, 1.0, -2.0 * k, r);
    DotSymmetric(d, r);
    DotSymmetric(n, r);
    assert Dot(r, r) == Dot(r, d) - 2.0 * k * Dot(r, n);
    DotLinearComb(d, n, 1.0, -2.0 * k, d);
    DotSymmetric(n, d);
    assert Dot(r, d) == Dot(d, d) - 2.0 * k * k;
  }

  lemma ReflectionUndoesItself(d: Vec3, n: Vec3)
    requires Dot(n, n) == 1.0
    ensures GetReflection(GetReflection(d, n), n) == d
  {
    var k := Dot(d, n);
    var r := GetReflection(d, n);
    ReflectionFlipsNormalPart(d, n);
    assert r == LinearComb(d, n, 1.0, -2.0 * k);
    assert GetReflection(r, n) == LinearComb(r, n, 1.0, 2.0 * k);
  }

  // ---------------------------------------------------------------------
  // Properties of the colour clamp
  // ---------------------------------------------------------------------

  lemma RoundHalfEvenMonotone(x: real, y: real)
    requires x <= y
    ensures RoundHalfEven(x) <= RoundHalfEven(y)
  {
    var fx, fy := x.Floor, y.Floor;
    assert fx <= fy;
    if fx < fy {
      assert RoundHalfEven(x) <= fx + 1 <= fy <= RoundHalfEven(y);
    } else {
      assert x - fx as real <= y - fy as real;
    }
  }

  /** A larger input never gives a smaller byte. */
  lemma ClipColorMonotone(c: real, d: real)
    requires c <= d
    ensures ClipColor(c) <= ClipColor(d)
  {
    RoundHalfEvenMonotone(c, d);
  }

  /** Non-positive inputs clamp to 0, inputs of 255 or more to 255, and
      every whole byte value is its own image. */
  lemma ClipColorSaturates(c: real)
    ensures c <= 0.0 ==> ClipColor(c) == 0
    ensures 255.0 <= c ==> ClipColor(c) == 255
    ensures c == c.Floor as real && 0.0 <= c <= 255.0 ==> ClipColor(c) == c.Floor
  {
    if c <= 0.0 {
      RoundHalfEvenMonotone(c, 0.0);
    }
    if 255.0 <= c {
      RoundHalfEvenMonotone(255.0, c);
    }
  }

  /** The second and third channels come out exchanged: (R, G, B) is
      written as (R, B, G), so pure green comes out as pure blue. */
  lemma ClipColorVectorSwapsGreenBlue(color: Vec3)
    ensures ClipColorVector(color).0 == ClipColor(color.x)
    ensures ClipColorVector(color).1 == ClipColor(color.z)
    ensures ClipColorVector(color).2 == ClipColor(color.y)
    ensures ClipColorVector(Vec3(0.0, 255.0, 0.0)) == (0, 0, 255)
  {
    ClipColorSaturates(0.0);
    ClipColorSaturates(255.0);
  }

  /**
   * The rectangle normal is perpendicular to both edges; for non-parallel
   * edges it has unit length and points against cross(u, v) exactly when
   * row 12 holds 0.
   */
  lemma RectNormalOrientation(sqrt: real -> real, recIndex: nat, rectangles: Buffer)
    requires IsSqrt(sqrt)
    requires recIndex < |rectangles| && 13 <= |rectangles[recIndex]|
    ensures var u, v := Column3(rectangles, 3, recIndex), Column3(rectangles, 6, recIndex);
            var n := GetRectNormal(sqrt, recIndex, rectangles);
            && Dot(n, u) == 0.0 && Dot(n, v) == 0.0
            && (0.0 < Dot(CrossProduct(u, v), CrossProduct(u, v)) ==>
                  Dot(n, n) == 1.0 && (rectangles[recIndex][12] == 0.0 <==> Dot(n, CrossProduct(u, v)) < 0.0))
  {
    var u, v := Column3(rectangles, 3, recIndex), Column3(rectangles, 6, recIndex);
    var c := CrossProduct(u, v);
    var m := Normalize(sqrt, c);
    NormalOfEdges(sqrt, u, v);
    DotNeg(m, u);
    DotNeg(m, v);
    DotNeg(m, c);
  }

  /** The normalised cross product is perpendicular to both edges, and for
      non-parallel edges it is a unit vector on the side of cross(u, v). */
  lemma NormalOfEdges(sqrt: real -> real, u: Vec3, v: Vec3)
    requires IsSqrt(sqrt)
    ensures var m := Normalize(sqrt, CrossProduct(u, v));
            && Dot(m, u) == 0.0 && Dot(m, v) == 0.0
            && (0.0 < Dot(CrossProduct(u, v), CrossProduct(u, v)) ==>
                  Dot(m, m) == 1.0 && 0.0 < Dot(m, CrossProduct(u, v)))
  {
    var c := CrossProduct(u, v);
    CrossProductOrthogonal(u, v);
    DotSelfNonNegative(c);
    if 0.0 < Dot(c, c) {
      NormalizeUnit(sqrt, c);
      DotNormalize(sqrt, c, u);
      DotNormalize(sqrt, c, v);
      DotSymmetric(Normalize(sqrt, c), c);
    } else {
      NormalizeDegenerate(sqrt, c);
    }
  }
}
