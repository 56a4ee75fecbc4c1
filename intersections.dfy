/**
 * Ray-primitive tests of the ray tracer (src/ray_tracing/intersections.py).
 *
 * Each test returns the distance along the ray to the hit point, or a
 * negative sentinel: -999.9 when the ray cannot meet the primitive at all
 * (parallel to a plane, negative discriminant for a sphere) and -999.0 when
 * the meeting point is behind the origin or outside the primitive.
 */
module Intersections {
  import opened Common

  const NoIntersection: real := -999.9
  const Behind: real := -999.0
  const PlaneEps: real := 0.0001
  const RectangleEps: real := 0.001

  /** The point reached from `origin` after moving t along `dir`, written
      as the tracer writes it: linear_comb(origin, dir, 1.0, t). */
  function PointAt(origin: Vec3, dir: Vec3, t: real): Vec3
  {
    LinearComb(origin, dir, 1.0, t)
  }

  /** Every test answers with a positive distance or one of the two
      sentinels; zero is never returned. */
  predicate IsTestResult(t: real)
  {
    0.0 < t || t == NoIntersection || t == Behind
  }

  // ---------------------------------------------------------------------
  // Plane
  // ---------------------------------------------------------------------

  /** X lies on the plane through `planeOrigin` with normal `normal`. */
  predicate OnPlane(x: Vec3, planeOrigin: Vec3, normal: Vec3)
  {
    Dot(VectorDifference(planeOrigin, x), normal) == 0.0
  }

  function IntersectRayPlane(rayOrigin: Vec3, rayDir: Vec3, planeOrigin: Vec3, planeNormal: Vec3): (t: real)
    ensures IsTestResult(t)
    ensures t == NoIntersection <==> Abs(Dot(rayDir, planeNormal)) <= PlaneEps
  {
    var denom := Dot(rayDir, planeNormal);
    if Abs(denom) <= PlaneEps then NoIntersection
    else
      var nominator := Dot(VectorDifference(rayOrigin, planeOrigin), planeNormal);
      var dist := nominator / denom;
      if dist > 0.0 then dist else Behind
  }

  /** Along the ray, the signed offset from the plane grows linearly:
      (O + tD - P0) . N == t (D . N) - (P0 - O) . N. */
  lemma PlaneOffset(rayOrigin: Vec3, rayDir: Vec3, planeOrigin: Vec3, normal: Vec3, t: real)
    ensures Dot(VectorDifference(planeOrigin, PointAt(rayOrigin, rayDir, t)), normal)
         == t * Dot(rayDir, normal) - Dot(VectorDifference(rayOrigin, planeOrigin), normal)
  {
    var x := PointAt(rayOrigin, rayDir, t);
    var e := VectorDifference(planeOrigin, x);
    OffsetTerm(e.x, rayOrigin.x, rayDir.x, planeOrigin.x, normal.x, t);
    OffsetTerm(e.y, rayOrigin.y, rayDir.y, planeOrigin.y, normal.y, t);
    OffsetTerm(e.z, rayOrigin.z, rayDir.z, planeOrigin.z, normal.z, t);
    DistributeOverSum(t, rayDir.x * normal.x, rayDir.y * normal.y, rayDir.z * normal.z);
  }

  lemma OffsetTerm(e: real, o: real, d: real, p: real, n: real, t: real)
    requires e == (1.0 * o + t * d) - p
    ensures e * n == t * (d * n) - (p - o) * n
  {
  }

  lemma DistributeOverSum(t: real, p: real, q: real, r: real)
    ensures t * (p + q + r) == t * p + t * q + t * r
  {
  }

  /** With a nonzero denominator, t * den == num has exactly one solution. */
  lemma LinearRoot(t: real, num: real, den: real)
    requires den != 0.0
    ensures t * den - num == 0.0 ==> t == num / den
    ensures t == num / den ==> t * den - num == 0.0
  {
    if t * den - num == 0.0 {
      assert t * den == num;
      assert t == (t * den) / den;
    }
  }

  /**
   * The plane test is exact: when the ray is not (nearly) parallel, a
   * positive result is the unique parameter at which the ray meets the
   * plane, and the result is Behind exactly when the ray meets the plane at
   * no positive parameter.
   */
  lemma PlaneHitIsExact(rayOrigin: Vec3, rayDir: Vec3, planeOrigin: Vec3, normal: Vec3, s: real)
    ensures var t := IntersectRayPlane(rayOrigin, rayDir, planeOrigin, normal);
            && (0.0 < t ==> OnPlane(PointAt(rayOrigin, rayDir, t), planeOrigin, normal))
            && (t != NoIntersection && 0.0 < s && OnPlane(PointAt(rayOrigin, rayDir, s), planeOrigin, normal) ==> t == s)
            && (t == Behind ==> !(0.0 < s && OnPlane(PointAt(rayOrigin, rayDir, s), planeOrigin, normal)))
  {
    var t := IntersectRayPlane(rayOrigin, rayDir, planeOrigin, normal);
    var den := Dot(rayDir, normal);
    var num := Dot(VectorDifference(rayOrigin, planeOrigin), normal);
    if t != NoIntersection {
      assert den != 0.0;
      PlaneOffset(rayOrigin, rayDir, planeOrigin, normal, s);
      LinearRoot(s, num, den);
      if 0.0 < t {
        PlaneOffset(rayOrigin, rayDir, planeOrigin, normal, t);
        LinearRoot(t, num, den);
      }
    }
  }

  // ---------------------------------------------------------------------
  // Sphere
  // ---------------------------------------------------------------------

  /**
   * Coefficients (a, b, c) of the quadratic a t^2 + b t + c whose roots are
   * the distances, along the normalised direction R, at which the ray meets
   * the sphere: a = R . R, b = 2 (L . R), c = L . L - radius^2 with
   * L = rayOrigin - sphereOrigin.
   */
  function SphereQuadratic(sqrt: real -> real, rayOrigin: Vec3, rayDir: Vec3, sphereOrigin: Vec3, radius: real): (real, real, real)
  {
    var r := Normalize(sqrt, rayDir);
    var l := VectorDifference(sphereOrigin, rayOrigin);
    (Dot(r, r), 2.0 * Dot(l, r), Dot(l, l) - radius * radius)
  }

  function Discriminant(q: (real, real, real)): real
  {
    q.1 * q.1 - 4.0 * q.0 * q.2
  }

  /**
   * Sphere test: the smaller root of the quadratic when it is positive,
   * otherwise the larger one when that is positive, otherwise Behind; a
   * negative discriminant gives NoIntersection. A zero direction makes the
   * device normalise 0 / 0; every comparison with NaN fails and the test
   * ends at Behind, which is what the `a == 0` branch returns.
   */
  function IntersectRaySphere(sqrt: real -> real, rayOrigin: Vec3, rayDir: Vec3, sphereOrigin: Vec3, radius: real): (t: real)
    ensures IsTestResult(t)
    ensures t == NoIntersection <==> Discriminant(SphereQuadratic(sqrt, rayOrigin, rayDir, sphereOrigin, radius)) < 0.0
  {
    var q := SphereQuadratic(sqrt, rayOrigin, rayDir, sphereOrigin, radius);
    var discriminant := Discriminant(q);
    if discriminant < 0.0 then NoIntersection
    else if q.0 == 0.0 then Behind
    else
      DotSelfNonNegative(Normalize(sqrt, rayDir));
      NearestRoot(q.0, q.1, sqrt(discriminant))
  }

  /** The root choice of the sphere test, given a > 0 and the square root of
      the discriminant: (-b - root) / 2a when positive, else (-b + root) / 2a
      when positive, else Behind. */
  function NearestRoot(a: real, b: real, root: real): (t: real)
    requires 0.0 < a
    ensures 0.0 < t || t == Behind
  {
    var near := -b - root;
    if near > 0.0 then PositiveQuotient(near, 2.0 * a); near / (2.0 * a)
    else
      var far := -b + root;
      if far > 0.0 then PositiveQuotient(far, 2.0 * a); far / (2.0 * a)
      else Behind
  }

  lemma PositiveQuotient(p: real, q: real)
    requires 0.0 < p && 0.0 < q
    ensures 0.0 < p / q
  {
  }

  /** X lies on the sphere with centre `centre` and radius `radius`. */
  predicate OnSphere(x: Vec3, centre: Vec3, radius: real)
  {
    Dot(VectorDifference(centre, x), VectorDifference(centre, x)) == radius * radius
  }

  lemma ExpandSquare(q: real, dlw: real, drw: real, ll: real, lr: real, rr: real, s: real)
    requires q == 1.0 * dlw + s * drw
    requires dlw == 1.0 * ll + s * lr && drw == 1.0 * lr + s * rr
    ensures q == rr * (s * s) + 2.0 * lr * s + ll
  {
    assert s * drw == s * lr + (s * s) * rr;
  }

  lemma ShiftedPoint(o: Vec3, c: Vec3, r: Vec3, s: real)
    ensures VectorDifference(c, PointAt(o, r, s)) == LinearComb(VectorDifference(c, o), r, 1.0, s)
  {
  }

  /** Squared distance from the centre along the ray is the quadratic. */
  lemma SphereOffset(sqrt: real -> real, rayOrigin: Vec3, rayDir: Vec3, sphereOrigin: Vec3, radius: real, s: real)
    ensures var q := SphereQuadratic(sqrt, rayOrigin, rayDir, sphereOrigin, radius);
            OnSphere(PointAt(rayOrigin, Normalize(sqrt, rayDir), s), sphereOrigin, radius) <==> q.0 * (s * s) + q.1 * s + q.2 == 0.0
  {
    var r := Normalize(sqrt, rayDir);
    var l := VectorDifference(sphereOrigin, rayOrigin);
    var w := LinearComb(l, r, 1.0, s);
    ShiftedPoint(rayOrigin, sphereOrigin, r, s);
    DotLinearComb(l, r, 1.0, s, w);
    DotSymmetric(l, w);
    DotSymmetric(r, w);
    DotLinearComb(l, r, 1.0, s, l);
    DotLinearComb(l, r, 1.0, s, r);
    DotSymmetric(l, r);
    ExpandSquare(Dot(w, w), Dot(l, w), Dot(r, w), Dot(l, l), Dot(l, r), Dot(r, r), s);
  }

  /**
   * For a monic quadratic (a == 1) with discriminant d = q^2 >= 0, the two
   * quotients the sphere test computes are its roots, the first is the
   * smaller, and they are the only roots.
   */
  lemma MonicRoots(a: real, b: real, c: real, d: real, q: real, s: real)
    requires a == 1.0 && d == b * b - 4.0 * a * c
    requires 0.0 <= q && q * q == d
    ensures var r1, r2 := (-b - q) / (2.0 * a), (-b + q) / (2.0 * a);
            && a * (r1 * r1) + b * r1 + c == 0.0
            && a * (r2 * r2) + b * r2 + c == 0.0
            && r1 <= r2
            && (a * (s * s) + b * s + c == 0.0 ==> s == r1 || s == r2)
  {
    var r1, r2 := (-b - q) / 2.0, (-b + q) / 2.0;
    assert r1 + r2 == -b;
    assert r1 * r2 == c by {
      assert 4.0 * (r1 * r2) == (-b - q) * (-b + q);
      assert (-b - q) * (-b + q) == b * b - q * q;
    }
    Factorise(b, c, r1, r2, r1);
    Factorise(b, c, r1, r2, r2);
    Factorise(b, c, r1, r2, s);
    if s * s + b * s + c == 0.0 {
      ZeroProduct(s - r1, s - r2);
    }
  }

  lemma Factorise(b: real, c: real, r1: real, r2: real, s: real)
    requires r1 + r2 == -b && r1 * r2 == c
    ensures s * s + b * s + c == (s - r1) * (s - r2)
  {
  }

  lemma ZeroProduct(p: real, q: real)
    requires p * q == 0.0
    ensures p == 0.0 || q == 0.0
  {
    if p != 0.0 && q != 0.0 {
      SquareNonNegative(p);
      if 0.0 < p {
        if 0.0 < q { MulPositive(p, q); } else { MulPositive(p, -q); }
      } else {
        if 0.0 < q { MulPositive(-p, q); } else { MulPositive(-p, -q); }
      }
    }
  }

  /** A monic quadratic with negative discriminant has no real root. */
  lemma MonicNoRoot(a: real, b: real, c: real, d: real, s: real)
    requires a == 1.0 && d == b * b - 4.0 * a * c && d < 0.0
    ensures a * (s * s) + b * s + c != 0.0
  {
    SquareNonNegative(2.0 * s + b);
    assert (2.0 * s + b) * (2.0 * s + b) == 4.0 * (s * s) + 4.0 * b * s + b * b;
  }

  /** For a nonzero direction, a positive answer of the sphere test is a
      distance, along the normalised direction, at which the ray is on the
      sphere. */
  lemma SphereHitIsOnSphere(sqrt: real -> real, rayOrigin: Vec3, rayDir: Vec3, sphereOrigin: Vec3, radius: real)
    requires IsSqrt(sqrt) && 0.0 < Dot(rayDir, rayDir)
    ensures var t := IntersectRaySphere(sqrt, rayOrigin, rayDir, sphereOrigin, radius);
            0.0 < t ==> OnSphere(PointAt(rayOrigin, Normalize(sqrt, rayDir), t), sphereOrigin, radius)
  {
    var t := IntersectRaySphere(sqrt, rayOrigin, rayDir, sphereOrigin, radius);
    SphereAnswerIsRoot(sqrt, rayOrigin, rayDir, sphereOrigin, radius, t);
    SphereOffset(sqrt, rayOrigin, rayDir, sphereOrigin, radius, t);
  }

  /**
   * For a nonzero direction the sphere test reports the nearest point of the
   * sphere in front of the ray origin: every positive distance at which the
   * ray meets the sphere is at least the answer, and the answer is then
   * positive (so it is a sentinel only when the ray meets the sphere at no
   * positive distance).
   */
  lemma SphereHitIsNearest(sqrt: real -> real, rayOrigin: Vec3, rayDir: Vec3, sphereOrigin: Vec3, radius: real, s: real)
    requires IsSqrt(sqrt) && 0.0 < Dot(rayDir, rayDir)
    requires 0.0 < s && OnSphere(PointAt(rayOrigin, Normalize(sqrt, rayDir), s), sphereOrigin, radius)
    ensures 0.0 < IntersectRaySphere(sqrt, rayOrigin, rayDir, sphereOrigin, radius) <= s
  {
    SphereOffset(sqrt, rayOrigin, rayDir, sphereOrigin, radius, s);
    SphereAnswerIsNearestRoot(sqrt, rayOrigin, rayDir, sphereOrigin, radius, s);
  }

  lemma SphereAnswerIsRoot(sqrt: real -> real, rayOrigin: Vec3, rayDir: Vec3, sphereOrigin: Vec3, radius: real, t: real)
    requires IsSqrt(sqrt) && 0.0 < Dot(rayDir, rayDir)
    requires t == IntersectRaySphere(sqrt, rayOrigin, rayDir, sphereOrigin, radius)
    ensures var q := SphereQuadratic(sqrt, rayOrigin, rayDir, sphereOrigin, radius);
            0.0 < t ==> q.0 * (t * t) + q.1 * t + q.2 == 0.0
  {
    var q := SphereQuadratic(sqrt, rayOrigin, rayDir, sphereOrigin, radius);
    SphereTestIsRootChoice(sqrt, rayOrigin, rayDir, sphereOrigin, radius);
    SphereDecision(q, sqrt(Discriminant(q)), t, t);
  }

  lemma SphereAnswerIsNearestRoot(sqrt: real -> real, rayOrigin: Vec3, rayDir: Vec3, sphereOrigin: Vec3, radius: real, s: real)
    requires IsSqrt(sqrt) && 0.0 < Dot(rayDir, rayDir)
    requires var q := SphereQuadratic(sqrt, rayOrigin, rayDir, sphereOrigin, radius);
             0.0 < s && q.0 * (s * s) + q.1 * s + q.2 == 0.0
    ensures 0.0 < IntersectRaySphere(sqrt, rayOrigin, rayDir, sphereOrigin, radius) <= s
  {
    var q := SphereQuadratic(sqrt, rayOrigin, rayDir, sphereOrigin, radius);
    var t := IntersectRaySphere(sqrt, rayOrigin, rayDir, sphereOrigin, radius);
    SphereTestIsRootChoice(sqrt, rayOrigin, rayDir, sphereOrigin, radius);
    SphereDecision(q, sqrt(Discriminant(q)), t, s);
  }

  /** What the sphere test computes, stated on the coefficients alone for a
      monic quadratic q whose discriminant has square root `root`. */
  predicate RootChoice(q: (real, real, real), root: real, t: real)
  {
    && q.0 == 1.0
    && (Discriminant(q) < 0.0 ==> t == NoIntersection)
    && (0.0 <= Discriminant(q) ==> 0.0 <= root && root * root == Discriminant(q) && t == NearestRoot(1.0, q.1, root))
  }

  /** The sphere test's decision, on the coefficients alone. */
  lemma SphereDecision(q: (real, real, real), root: real, t: real, s: real)
    requires RootChoice(q, root, t)
    ensures 0.0 < t ==> q.0 * (t * t) + q.1 * t + q.2 == 0.0
    ensures 0.0 < s && q.0 * (s * s) + q.1 * s + q.2 == 0.0 ==> 0.0 < t <= s
  {
    var d := Discriminant(q);
    if d < 0.0 {
      MonicNoRoot(q.0, q.1, q.2, d, s);
    } else {
      NearestRootIsNearest(q.0, q.1, q.2, d, root, s);
    }
  }

  lemma SphereTestIsRootChoice(sqrt: real -> real, rayOrigin: Vec3, rayDir: Vec3, sphereOrigin: Vec3, radius: real)
    requires IsSqrt(sqrt) && 0.0 < Dot(rayDir, rayDir)
    ensures var q := SphereQuadratic(sqrt, rayOrigin, rayDir, sphereOrigin, radius);
            RootChoice(q, sqrt(Discriminant(q)), IntersectRaySphere(sqrt, rayOrigin, rayDir, sphereOrigin, radius))
  {
    NormalizeUnit(sqrt, rayDir);
  }

  /** The root choice picks the smallest positive root of a monic quadratic. */
  lemma NearestRootIsNearest(a: real, b: real, c: real, d: real, q: real, s: real)
    requires a == 1.0 && d == b * b - 4.0 * a * c
    requires 0.0 <= q && q * q == d
    ensures var t := NearestRoot(a, b, q);
            && (0.0 < t ==> a * (t * t) + b * t + c == 0.0)
            && (0.0 < s && a * (s * s) + b * s + c == 0.0 ==> 0.0 < t <= s)
  {
    MonicRoots(a, b, c, d, q, s);
  }

  // ---------------------------------------------------------------------
  // Rectangle (a parallelogram spanned by u and v at rectOrigin)
  // ---------------------------------------------------------------------

  /** Ray parameter at which the ray meets the rectangle's plane:
      (N . R0 - N . O) / (N . D). */
  function RectangleParameter(rayOrigin: Vec3, rayDir: Vec3, rectOrigin: Vec3, normal: Vec3): real
    requires Dot(normal, rayDir) != 0.0
  {
    (Dot(normal, rectOrigin) - Dot(normal, rayOrigin)) / Dot(normal, rayDir)
  }

  /** The hit point, built component by component as the source does. */
  function RectangleHitPoint(rayOrigin: Vec3, rayDir: Vec3, t: real): Vec3
  {
    Vec3(rayOrigin.x + t * rayDir.x, rayOrigin.y + t * rayDir.y, rayOrigin.z + t * rayDir.z)
  }

  /**
   * Coordinates (a, b) of `hitVector` in the frame (u, v):
   * a = w . (hitVector x v) and b = w . (u x hitVector), where
   * w = (u x v) / |u x v|^2.
   */
  function RectangleCoordinates(u: Vec3, v: Vec3, hitVector: Vec3): (real, real)
    requires Dot(CrossProduct(u, v), CrossProduct(u, v)) != 0.0
  {
    var nn := CrossProduct(u, v);
    var s := Dot(nn, nn);
    var w := Vec3(nn.x / s, nn.y / s, nn.z / s);
    (Dot(w, CrossProduct(hitVector, v)), Dot(w, CrossProduct(u, hitVector)))
  }

  predicate InsideUnitSquare(ab: (real, real))
  {
    0.0 < ab.0 < 1.0 && 0.0 < ab.1 < 1.0
  }

  /**
   * The hit vector lies strictly inside the parallelogram spanned by u and
   * v: its coordinates are inside (0, 1) x (0, 1). Parallel edges
   * (u x v == 0) make the source divide 0 by 0; every comparison with the
   * resulting NaN fails, so such a parallelogram contains nothing.
   */
  predicate ParallelogramContains(u: Vec3, v: Vec3, hitVector: Vec3)
  {
    var nn := CrossProduct(u, v);
    Dot(nn, nn) != 0.0 && InsideUnitSquare(RectangleCoordinates(u, v, hitVector))
  }

  /** Acceptance rule shared by both versions of the rectangle test. */
  function AcceptRectangleHit(u: Vec3, v: Vec3, hitVector: Vec3, t: real): (r: real)
    ensures r == t || r == Behind
    ensures 0.0 < r ==> r == t && ParallelogramContains(u, v, hitVector)
    ensures ParallelogramContains(u, v, hitVector) && 0.0 < t ==> r == t
    ensures !(ParallelogramContains(u, v, hitVector) && 0.0 < t) ==> r == Behind
  {
    if ParallelogramContains(u, v, hitVector) && t > 0.0 then t else Behind
  }

  /**
   * The rectangle test as written: the hit vector is computed with
   * vector_difference(intersection, rect_origin), which is
   * rect_origin - intersection, the opposite of the offset of the hit point.
   */
  function IntersectRayRectangleAsWritten(rayOrigin: Vec3, rayDir: Vec3, rectOrigin: Vec3, u: Vec3, v: Vec3, normal: Vec3): (t: real)
    ensures 0.0 < t || t == Behind
    ensures Abs(Dot(normal, rayDir)) <= RectangleEps ==> t == Behind
  {
    var denom := Dot(normal, rayDir);
    if Abs(denom) <= RectangleEps then Behind
    else
      var t := RectangleParameter(rayOrigin, rayDir, rectOrigin, normal);
      var intersection := RectangleHitPoint(rayOrigin, rayDir, t);
      AcceptRectangleHit(u, v, VectorDifference(intersection, rectOrigin), t)
  }

  /** The rectangle test with the hit vector taken from the rectangle's
      origin to the hit point. The tracer of this model uses this version;
      trace.py:31 calls the one as written. */
  function IntersectRayRectangle(rayOrigin: Vec3, rayDir: Vec3, rectOrigin: Vec3, u: Vec3, v: Vec3, normal: Vec3): (t: real)
    ensures 0.0 < t || t == Behind
    ensures Abs(Dot(normal, rayDir)) <= RectangleEps ==> t == Behind
  {
    var denom := Dot(normal, rayDir);
    if Abs(denom) <= RectangleEps then Behind
    else
      var t := RectangleParameter(rayOrigin, rayDir, rectOrigin, normal);
      var intersection := RectangleHitPoint(rayOrigin, rayDir, t);
      AcceptRectangleHit(u, v, VectorDifference(rectOrigin, intersection), t)
  }

  // ---------------------------------------------------------------------
  // Properties of the rectangle test
  // ---------------------------------------------------------------------

  lemma CombOfZeroAndOne(c1: real, c2: real, z: real, o: real)
    requires z == 0.0 && o == 1.0
    ensures c1 * z + c2 * o == c2
    ensures c1 * o + c2 * z == c1
  {
  }

  lemma ReciprocalDot(wx: real, wy: real, wz: real, nx: real, ny: real, nz: real, s: real)
    requires s != 0.0 && s == nx * nx + ny * ny + nz * nz
    requires wx == nx / s && wy == ny / s && wz == nz / s
    ensures wx * nx + wy * ny + wz * nz == 1.0
  {
    QuotientTimes(wx, nx, nx, s);
    QuotientTimes(wy, ny, ny, s);
    QuotientTimes(wz, nz, nz, s);
    SumOfQuotients(nx * nx, ny * ny, nz * nz, s);
  }

  /** w = nn / |nn|^2 has dot product 1 with nn. */
  lemma ReciprocalFrame(nn: Vec3)
    requires Dot(nn, nn) != 0.0
    ensures var s := Dot(nn, nn);
            Dot(Vec3(nn.x / s, nn.y / s, nn.z / s), nn) == 1.0
  {
    var s := Dot(nn, nn);
    ReciprocalDot(nn.x / s, nn.y / s, nn.z / s, nn.x, nn.y, nn.z, s);
  }

  lemma DotZeroLeft(w: Vec3)
    ensures Dot(Zero, w) == 0.0
  {
  }

  /**
   * The cross-product inverse recovers the frame coordinates: for
   * non-parallel u and v, the coordinates of alpha*u + beta*v are
   * (alpha, beta).
   */
  lemma RectangleCoordinatesRecover(u: Vec3, v: Vec3, alpha: real, beta: real)
    requires Dot(CrossProduct(u, v), CrossProduct(u, v)) != 0.0
    ensures RectangleCoordinates(u, v, LinearComb(u, v, alpha, beta)) == (alpha, beta)
  {
    var nn := CrossProduct(u, v);
    var s := Dot(nn, nn);
    var w := Vec3(nn.x / s, nn.y / s, nn.z / s);
    var h := LinearComb(u, v, alpha, beta);
    ReciprocalFrame(nn);
    DotZeroLeft(w);
    DotSymmetric(Zero, w);
    DotSymmetric(nn, w);
    CrossProductAnticommutes(u, v);
    CrossProductAnticommutes(v, u);
    // first coordinate: h x v == alpha (u x v) + beta (v x v)
    CrossProductLinearLeft(u, v, alpha, beta, v);
    DotLinearComb(nn, Zero, alpha, beta, w);
    DotSymmetric(LinearComb(nn, Zero, alpha, beta), w);
    CombOfZeroAndOne(alpha, beta, Dot(Zero, w), Dot(nn, w));
    // second coordinate: u x h == alpha (u x u) + beta (u x v)
    CrossProductLinearRight(u, u, v, alpha, beta);
    DotLinearComb(Zero, nn, alpha, beta, w);
    DotSymmetric(LinearComb(Zero, nn, alpha, beta), w);
  }

  lemma RectangleOffsetTerm(e: real, o: real, d: real, p: real, n: real, t: real)
    requires e == (o + t * d) - p
    ensures e * n == t * (n * d) - (n * p - n * o)
  {
  }

  /** Signed offset of the rectangle's hit point from the rectangle's plane. */
  lemma RectanglePlaneOffset(rayOrigin: Vec3, rayDir: Vec3, rectOrigin: Vec3, normal: Vec3, t: real)
    ensures Dot(VectorDifference(rectOrigin, RectangleHitPoint(rayOrigin, rayDir, t)), normal)
         == t * Dot(normal, rayDir) - (Dot(normal, rectOrigin) - Dot(normal, rayOrigin))
  {
    var e := VectorDifference(rectOrigin, RectangleHitPoint(rayOrigin, rayDir, t));
    RectangleOffsetTerm(e.x, rayOrigin.x, rayDir.x, rectOrigin.x, normal.x, t);
    RectangleOffsetTerm(e.y, rayOrigin.y, rayDir.y, rectOrigin.y, normal.y, t);
    RectangleOffsetTerm(e.z, rayOrigin.z, rayDir.z, rectOrigin.z, normal.z, t);
    DistributeOverSum(t, normal.x * rayDir.x, normal.y * rayDir.y, normal.z * rayDir.z);
  }

  /** The parameter the rectangle test computes puts the hit point on the
      rectangle's plane. */
  lemma RectangleParameterOnPlane(rayOrigin: Vec3, rayDir: Vec3, rectOrigin: Vec3, normal: Vec3)
    requires Dot(normal, rayDir) != 0.0
    ensures OnPlane(RectangleHitPoint(rayOrigin, rayDir, RectangleParameter(rayOrigin, rayDir, rectOrigin, normal)),
                    rectOrigin, normal)
  {
    var t := RectangleParameter(rayOrigin, rayDir, rectOrigin, normal);
    RectanglePlaneOffset(rayOrigin, rayDir, rectOrigin, normal, t);
    LinearRoot(t, Dot(normal, rectOrigin) - Dot(normal, rayOrigin), Dot(normal, rayDir));
  }

  /**
   * The corrected rectangle test is exact. A positive answer is a point of
   * the rectangle's plane strictly inside the parallelogram. Conversely,
   * when the ray is not (nearly) parallel and the edges are not parallel,
   * writing the offset of the plane point as alpha*u + beta*v, the test
   * reports a hit exactly when 0 < alpha < 1, 0 < beta < 1 and the plane
   * point lies in front of the origin.
   */
  lemma RectangleHitIsExact(rayOrigin: Vec3, rayDir: Vec3, rectOrigin: Vec3, u: Vec3, v: Vec3, normal: Vec3,
                            alpha: real, beta: real)
    ensures var r := IntersectRayRectangle(rayOrigin, rayDir, rectOrigin, u, v, normal);
            var x := RectangleHitPoint(rayOrigin, rayDir, r);
            0.0 < r ==> OnPlane(x, rectOrigin, normal) && ParallelogramContains(u, v, VectorDifference(rectOrigin, x))
    ensures RectangleEps < Abs(Dot(normal, rayDir)) && Dot(CrossProduct(u, v), CrossProduct(u, v)) != 0.0 ==>
            var t := RectangleParameter(rayOrigin, rayDir, rectOrigin, normal);
            var r := IntersectRayRectangle(rayOrigin, rayDir, rectOrigin, u, v, normal);
            VectorDifference(rectOrigin, RectangleHitPoint(rayOrigin, rayDir, t)) == LinearComb(u, v, alpha, beta) ==>
              (0.0 < r <==> 0.0 < alpha < 1.0 && 0.0 < beta < 1.0 && 0.0 < t)
  {
    if RectangleEps < Abs(Dot(normal, rayDir)) {
      RectangleParameterOnPlane(rayOrigin, rayDir, rectOrigin, normal);
      if Dot(CrossProduct(u, v), CrossProduct(u, v)) != 0.0 {
        RectangleCoordinatesRecover(u, v, alpha, beta);
      }
    }
  }

  /** Reversing a combination of u and v negates both coefficients. */
  lemma NegatedCombination(u: Vec3, v: Vec3, alpha: real, beta: real, h: Vec3)
    requires h == LinearComb(u, v, alpha, beta)
    ensures VectorDifference(h, Zero) == LinearComb(u, v, -alpha, -beta)
  {
  }

  lemma DifferenceReversed(p: Vec3, q: Vec3)
    ensures VectorDifference(p, q) == VectorDifference(VectorDifference(q, p), Zero)
  {
  }

  /**
   * As written, the rectangle test measures the hit vector backwards, so it
   * accepts the mirror image of the parallelogram through its origin: with
   * the plane point at rectOrigin + alpha*u + beta*v it reports a hit
   * exactly when -1 < alpha < 0, -1 < beta < 0 and the point is in front.
   */
  lemma RectangleAsWrittenMirrors(rayOrigin: Vec3, rayDir: Vec3, rectOrigin: Vec3, u: Vec3, v: Vec3, normal: Vec3,
                                  alpha: real, beta: real)
    requires RectangleEps < Abs(Dot(normal, rayDir))
    requires Dot(CrossProduct(u, v), CrossProduct(u, v)) != 0.0
    requires VectorDifference(rectOrigin, RectangleHitPoint(rayOrigin, rayDir, RectangleParameter(rayOrigin, rayDir, rectOrigin, normal)))
             == LinearComb(u, v, alpha, beta)
    ensures var t := RectangleParameter(rayOrigin, rayDir, rectOrigin, normal);
            var r := IntersectRayRectangleAsWritten(rayOrigin, rayDir, rectOrigin, u, v, normal);
            0.0 < r <==> -1.0 < alpha < 0.0 && -1.0 < beta < 0.0 && 0.0 < t
  {
    var t := RectangleParameter(rayOrigin, rayDir, rectOrigin, normal);
    var x := RectangleHitPoint(rayOrigin, rayDir, t);
    DifferenceReversed(x, rectOrigin);
    NegatedCombination(u, v, alpha, beta, VectorDifference(rectOrigin, x));
    RectangleCoordinatesRecover(u, v, -alpha, -beta);
  }

  /**
   * A concrete witness: the unit square in the z = 0 plane, hit head-on at
   * its centre by a ray from (0.5, 0.5, 1) going down. The corrected test
   * reports the hit at distance 1; the test as written misses it.
   */
  lemma RectangleAsWrittenMissesCentre()
    ensures var o := Vec3(0.5, 0.5, 1.0);
            var d := Vec3(0.0, 0.0, -1.0);
            var u := Vec3(1.0, 0.0, 0.0);
            var v := Vec3(0.0, 1.0, 0.0);
            var n := Vec3(0.0, 0.0, 1.0);
            && IntersectRayRectangle(o, d, Zero, u, v, n) == 1.0
            && IntersectRayRectangleAsWritten(o, d, Zero, u, v, n) == Behind
  {
    var o := Vec3(0.5, 0.5, 1.0);
    var d := Vec3(0.0, 0.0, -1.0);
    var u := Vec3(1.0, 0.0, 0.0);
    var v := Vec3(0.0, 1.0, 0.0);
    var n := Vec3(0.0, 0.0, 1.0);
    assert Dot(n, d) == -1.0;
    var t := RectangleParameter(o, d, Zero, n);
    assert t == 1.0;
    var x := RectangleHitPoint(o, d, t);
    assert x == Vec3(0.5, 0.5, 0.0);
    assert VectorDifference(Zero, x) == LinearComb(u, v, 0.5, 0.5);
    assert Dot(CrossProduct(u, v), CrossProduct(u, v)) == 1.0;
    RectangleHitIsExact(o, d, Zero, u, v, n, 0.5, 0.5);
    RectangleAsWrittenMirrors(o, d, Zero, u, v, n, 0.5, 0.5);
  }
}
