/**
 * The tracer of src/ray_tracing/trace.py: the nearest-hit scan
 * (get_intersection), one shading step (trace) and the reflection loop
 * (sample).
 *
 * The scene buffers are read but never written here, so they are values:
 * each a sequence of columns, one per object. Paraboloid routines are not
 * part of this model; the paraboloid buffer is given by its column count
 * and three total functions standing for its distance test, normal and
 * colour.
 *
 * The specifications name the sphere, plane and rectangle tests through a
 * `Tests` value that `Faithful` ties to IntersectRaySphere,
 * IntersectRayPlane and IntersectRayRectangle; the methods take it as a
 * ghost argument. This keeps the arithmetic of the tests out of every
 * proof about the scan.
 */
module Trace {
  import opened Common
  import opened Intersections

  // ---------------------------------------------------------------------
  // Hits and the nearest-hit scan
  // ---------------------------------------------------------------------

  /** Object kinds as get_intersection reports them. */
  const SphereKind: int := 0
  const PlaneKind: int := 1
  const RectangleKind: int := 2
  const ParaboloidKind: int := 3
  const NoKind: int := 404

  /** Distances at or beyond this are not hits. */
  const Far: real := 999.0

  /** A candidate or reported hit: distance, column index, object kind. */
  datatype Hit = Hit(dist: real, index: int, kind: int)

  /** What get_intersection reports when nothing is hit. */
  const Miss: Hit := Hit(Far, -999, NoKind)

  /** One step of the scan: the candidate replaces the current best only
      when its distance is positive and strictly smaller. */
  function Keep(best: Hit, c: Hit): Hit
  {
    if best.dist > c.dist > 0.0 then c else best
  }

  predicate InRange(c: Hit)
  {
    0.0 < c.dist < Far
  }

  predicate IsKind(kind: int)
  {
    SphereKind <= kind <= ParaboloidKind
  }

  /** The distance each object's test reports for one ray, by kind and
      column. */
  datatype Distances = Distances(spheres: seq<real>, planes: seq<real>, rectangles: seq<real>, paraboloids: seq<real>)
  {
    /** Number of objects of a kind. */
    function Count(kind: int): nat
    {
      if kind == SphereKind then |spheres|
      else if kind == PlaneKind then |planes|
      else if kind == RectangleKind then |rectangles|
      else if kind == ParaboloidKind then |paraboloids|
      else 0
    }

    function At(kind: int, index: nat): real
      requires IsKind(kind) && index < Count(kind)
    {
      if kind == SphereKind then spheres[index]
      else if kind == PlaneKind then planes[index]
      else if kind == RectangleKind then rectangles[index]
      else paraboloids[index]
    }
  }

  /** Object `i` of a kind as a candidate hit. */
  function Candidate(t: Distances, kind: int, i: nat): Hit
    requires IsKind(kind) && i < t.Count(kind)
  {
    Hit(t.At(kind, i), i, kind)
  }

  /** The scan of the first n objects of one kind, by column, starting
      from `best`. */
  function ScanKind(t: Distances, kind: int, n: nat, best: Hit): Hit
    requires IsKind(kind) && n <= t.Count(kind)
  {
    if n == 0 then best else Keep(ScanKind(t, kind, n - 1, best), Candidate(t, kind, n - 1))
  }

  /** The whole scan: spheres, planes, rectangles, then paraboloids,
      starting from Miss. */
  function Nearest(t: Distances): Hit
  {
    var h0 := ScanKind(t, SphereKind, |t.spheres|, Miss);
    var h1 := ScanKind(t, PlaneKind, |t.planes|, h0);
    var h2 := ScanKind(t, RectangleKind, |t.rectangles|, h1);
    ScanKind(t, ParaboloidKind, |t.paraboloids|, h2)
  }

  /**
   * The scan of one kind never increases the distance; it ends at or below
   * every positive candidate; and it either keeps `best` or reports a
   * candidate in (0, 999) that is strictly nearer than `best` and than
   * every positive candidate in an earlier column.
   */
  lemma {:induction false} ScanKindFacts(t: Distances, kind: int, n: nat, best: Hit)
    requires IsKind(kind) && n <= t.Count(kind) && best.dist <= Far
    ensures var h := ScanKind(t, kind, n, best);
            && h.dist <= best.dist
            && (forall i :: 0 <= i < n && 0.0 < t.At(kind, i) ==> h.dist <= t.At(kind, i))
            && (|| h == best
                || (&& h.kind == kind && 0 <= h.index < n && h.dist == t.At(kind, h.index)
                    && InRange(h) && h.dist < best.dist
                    && forall i :: 0 <= i < h.index && 0.0 < t.At(kind, i) ==> h.dist < t.At(kind, i)))
  {
    if n > 0 {
      ScanKindFacts(t, kind, n - 1, best);
    }
  }

  /** The stage facts of all four kinds, each stage starting from the
      previous one's result. */
  lemma StageFacts(t: Distances)
    ensures var h0 := ScanKind(t, SphereKind, |t.spheres|, Miss);
            var h1 := ScanKind(t, PlaneKind, |t.planes|, h0);
            var h2 := ScanKind(t, RectangleKind, |t.rectangles|, h1);
            && h0.dist <= Far && h1.dist <= h0.dist && h2.dist <= h1.dist
            && Nearest(t).dist <= h2.dist
  {
    var h0 := ScanKind(t, SphereKind, |t.spheres|, Miss);
    var h1 := ScanKind(t, PlaneKind, |t.planes|, h0);
    var h2 := ScanKind(t, RectangleKind, |t.rectangles|, h1);
    ScanKindFacts(t, SphereKind, |t.spheres|, Miss);
    ScanKindFacts(t, PlaneKind, |t.planes|, h0);
    ScanKindFacts(t, RectangleKind, |t.rectangles|, h1);
    ScanKindFacts(t, ParaboloidKind, |t.paraboloids|, h2);
  }

  /**
   * What the scan reports is either the miss triple (999, -999, 404) or a
   * real object: a valid kind and column, with that object's distance,
   * which lies in (0, 999). Kind 404 means a miss.
   */
  lemma NearestIsReported(t: Distances)
    ensures var h := Nearest(t);
            || h == Miss
            || (IsKind(h.kind) && 0 <= h.index < t.Count(h.kind) && h.dist == t.At(h.kind, h.index) && InRange(h))
    ensures Nearest(t).kind == NoKind <==> Nearest(t) == Miss
  {
    var h0 := ScanKind(t, SphereKind, |t.spheres|, Miss);
    var h1 := ScanKind(t, PlaneKind, |t.planes|, h0);
    var h2 := ScanKind(t, RectangleKind, |t.rectangles|, h1);
    StageFacts(t);
    ScanKindFacts(t, SphereKind, |t.spheres|, Miss);
    ScanKindFacts(t, PlaneKind, |t.planes|, h0);
    ScanKindFacts(t, RectangleKind, |t.rectangles|, h1);
    ScanKindFacts(t, ParaboloidKind, |t.paraboloids|, h2);
  }

  /**
   * The scan finds the nearest object: when some object's test gives a
   * distance in (0, 999), the scan hits, at that distance or nearer.
   */
  lemma NearestIsNearestObject(t: Distances, kind: int, index: nat)
    requires IsKind(kind) && index < t.Count(kind) && 0.0 < t.At(kind, index) < Far
    ensures Nearest(t) != Miss
    ensures Nearest(t).dist <= t.At(kind, index)
  {
    var h0 := ScanKind(t, SphereKind, |t.spheres|, Miss);
    var h1 := ScanKind(t, PlaneKind, |t.planes|, h0);
    var h2 := ScanKind(t, RectangleKind, |t.rectangles|, h1);
    StageFacts(t);
    if kind == SphereKind {
      ScanKindFacts(t, SphereKind, |t.spheres|, Miss);
    } else if kind == PlaneKind {
      ScanKindFacts(t, PlaneKind, |t.planes|, h0);
    } else if kind == RectangleKind {
      ScanKindFacts(t, RectangleKind, |t.rectangles|, h1);
    } else {
      ScanKindFacts(t, ParaboloidKind, |t.paraboloids|, h2);
    }
  }

  /**
   * Ties go to the object scanned first: an object of an earlier kind, or
   * an earlier column of the same kind, whose distance is in (0, 999) is
   * strictly farther than the reported hit.
   */
  lemma NearestPrefersScanOrder(t: Distances, kind: int, index: nat)
    requires IsKind(kind) && index < t.Count(kind) && 0.0 < t.At(kind, index) < Far
    requires kind < Nearest(t).kind || (kind == Nearest(t).kind && index < Nearest(t).index)
    ensures t.At(kind, index) > Nearest(t).dist
  {
    var h0 := ScanKind(t, SphereKind, |t.spheres|, Miss);
    var h1 := ScanKind(t, PlaneKind, |t.planes|, h0);
    var h2 := ScanKind(t, RectangleKind, |t.rectangles|, h1);
    var h3 := Nearest(t);
    NearestIsNearestObject(t, kind, index);
    StageFacts(t);
    ScanKindFacts(t, SphereKind, |t.spheres|, Miss);
    ScanKindFacts(t, PlaneKind, |t.planes|, h0);
    ScanKindFacts(t, RectangleKind, |t.rectangles|, h1);
    ScanKindFacts(t, ParaboloidKind, |t.paraboloids|, h2);
  }

  // ---------------------------------------------------------------------
  // Scene buffers and get_intersection
  // ---------------------------------------------------------------------

  /** The paraboloid buffer: its column count and its distance test,
      normal and colour, which are not part of this model. */
  datatype Paraboloids = Paraboloids(
    count: nat,
    dist: (Vec3, Vec3, nat) -> real,
    normal: (Vec3, nat) -> Vec3,
    color: nat -> Vec3)

  /** The buffers the tracer reads, one object per column. */
  datatype Buffers = Buffers(
    spheres: Buffer,
    lights: Buffer,
    planes: Buffer,
    rectangles: Buffer,
    paraboloids: Paraboloids)
  {
    /** Every column has the rows its accessors read: 7 per sphere, 3 per
        light, 9 per plane and 13 per rectangle. */
    predicate WellShaped()
    {
      && (forall i :: 0 <= i < |spheres| ==> 7 <= |spheres[i]|)
      && (forall i :: 0 <= i < |lights| ==> 3 <= |lights[i]|)
      && (forall i :: 0 <= i < |planes| ==> 9 <= |planes[i]|)
      && (forall i :: 0 <= i < |rectangles| ==> 13 <= |rectangles[i]|)
    }

    /** Number of objects of a kind. */
    function Count(kind: int): nat
    {
      if kind == SphereKind then |spheres|
      else if kind == PlaneKind then |planes|
      else if kind == RectangleKind then |rectangles|
      else if kind == ParaboloidKind then paraboloids.count
      else 0
    }
  }

  /** The distance tests get_intersection applies to column i of a buffer,
      for a ray from o along d. */
  datatype Tests = Tests(
    sphere: (Vec3, Vec3, Buffer, nat) -> real,
    plane: (Vec3, Vec3, Buffer, nat) -> real,
    rectangle: (Vec3, Vec3, Buffer, nat) -> real)

  /**
   * The tests are those of intersections.py: the sphere test on the
   * column's centre and radius (row 3), the plane test on its origin and
   * normal, and the rectangle test on its origin, edges and the normal
   * get_rect_normal computes. For rectangles this is the corrected test
   * IntersectRayRectangle: the loop at trace.py:28-36 calls the test as
   * written, whose hit vector has the wrong sign, and the tracer here
   * carries the correction instead.
   */
  ghost predicate Faithful(sqrt: real -> real, tests: Tests)
  {
    && (forall o: Vec3, d: Vec3, s: Buffer, i: nat
          {:trigger IntersectRaySphere(sqrt, o, d, Column3(s, 0, i), s[i][3])} ::
          i < |s| && 7 <= |s[i]| ==>
          tests.sphere(o, d, s, i) == IntersectRaySphere(sqrt, o, d, Column3(s, 0, i), s[i][3]))
    && (forall o: Vec3, d: Vec3, s: Buffer, i: nat
          {:trigger IntersectRayPlane(o, d, Column3(s, 0, i), Column3(s, 3, i))} ::
          i < |s| && 9 <= |s[i]| ==>
          tests.plane(o, d, s, i) == IntersectRayPlane(o, d, Column3(s, 0, i), Column3(s, 3, i)))
    && (forall o: Vec3, d: Vec3, s: Buffer, i: nat
          {:trigger IntersectRayRectangle(o, d, Column3(s, 0, i), Column3(s, 3, i), Column3(s, 6, i), GetRectNormal(sqrt, i, s))} ::
          i < |s| && 13 <= |s[i]| ==>
          tests.rectangle(o, d, s, i)
          == IntersectRayRectangle(o, d, Column3(s, 0, i), Column3(s, 3, i), Column3(s, 6, i), GetRectNormal(sqrt, i, s)))
  }

  /** The tests of intersections.py as a `Tests` value. */
  function ModelTests(sqrt: real -> real): Tests
  {
    Tests(
      (o: Vec3, d: Vec3, s: Buffer, i: nat) =>
        if i < |s| && 7 <= |s[i]| then IntersectRaySphere(sqrt, o, d, Column3(s, 0, i), s[i][3]) else 0.0,
      (o: Vec3, d: Vec3, s: Buffer, i: nat) =>
        if i < |s| && 9 <= |s[i]| then IntersectRayPlane(o, d, Column3(s, 0, i), Column3(s, 3, i)) else 0.0,
      (o: Vec3, d: Vec3, s: Buffer, i: nat) =>
        if i < |s| && 13 <= |s[i]|
        then IntersectRayRectangle(o, d, Column3(s, 0, i), Column3(s, 3, i), Column3(s, 6, i), GetRectNormal(sqrt, i, s))
        else 0.0)
  }

  /** Every square root has faithful tests, so the methods below can be
      called. */
  lemma ModelTestsAreFaithful(sqrt: real -> real)
    ensures Faithful(sqrt, ModelTests(sqrt))
  {
  }

  /** The distances the four tests report for a ray from o along d. */
  function RayDistances(tests: Tests, b: Buffers, o: Vec3, d: Vec3): (t: Distances)
    ensures forall kind :: IsKind(kind) ==> t.Count(kind) == b.Count(kind)
  {
    Distances(
      seq(|b.spheres|, i requires 0 <= i => tests.sphere(o, d, b.spheres, i)),
      seq(|b.planes|, i requires 0 <= i => tests.plane(o, d, b.planes, i)),
      seq(|b.rectangles|, i requires 0 <= i => tests.rectangle(o, d, b.rectangles, i)),
      seq(b.paraboloids.count, i requires 0 <= i => b.paraboloids.dist(o, d, i)))
  }

  /**
   * The hit get_intersection reports for a ray: the miss triple, or an
   * object of a valid kind and column at a distance in (0, 999).
   */
  function NearestHit(tests: Tests, b: Buffers, o: Vec3, d: Vec3): (h: Hit)
    ensures h == Miss || (IsKind(h.kind) && 0 <= h.index < b.Count(h.kind) && InRange(h))
    ensures h.kind == NoKind <==> h == Miss
  {
    NearestIsReported(RayDistances(tests, b, o, d));
    Nearest(RayDistances(tests, b, o, d))
  }

  /**
   * A reported hit carries exactly the distance its own object's test
   * gives for the ray.
   */
  lemma NearestHitIsTestResult(sqrt: real -> real, tests: Tests, b: Buffers, o: Vec3, d: Vec3)
    requires b.WellShaped() && Faithful(sqrt, tests)
    ensures var h := NearestHit(tests, b, o, d);
            && (h.kind == SphereKind ==>
                  h.dist == IntersectRaySphere(sqrt, o, d, Column3(b.spheres, 0, h.index), b.spheres[h.index][3]))
            && (h.kind == PlaneKind ==>
                  h.dist == IntersectRayPlane(o, d, Column3(b.planes, 0, h.index), Column3(b.planes, 3, h.index)))
            && (h.kind == RectangleKind ==>
                  h.dist == IntersectRayRectangle(o, d, Column3(b.rectangles, 0, h.index), Column3(b.rectangles, 3, h.index),
                                                  Column3(b.rectangles, 6, h.index), GetRectNormal(sqrt, h.index, b.rectangles)))
            && (h.kind == ParaboloidKind ==> h.dist == b.paraboloids.dist(o, d, h.index))
  {
    var t := RayDistances(tests, b, o, d);
    var h := NearestHit(tests, b, o, d);
    NearestIsReported(t);
    if h.kind == SphereKind {
      var _ := IntersectRaySphere(sqrt, o, d, Column3(b.spheres, 0, h.index), b.spheres[h.index][3]);
    } else if h.kind == PlaneKind {
      var _ := IntersectRayPlane(o, d, Column3(b.planes, 0, h.index), Column3(b.planes, 3, h.index));
    } else if h.kind == RectangleKind {
      var _ := IntersectRayRectangle(o, d, Column3(b.rectangles, 0, h.index), Column3(b.rectangles, 3, h.index),
                                     Column3(b.rectangles, 6, h.index), GetRectNormal(sqrt, h.index, b.rectangles));
    }
  }

  /**
   * The sphere loop of get_intersection: a sphere replaces the best hit so
   * far when its distance is positive and strictly smaller.
   */
  method ScanSpheres(sqrt: real -> real, o: Vec3, d: Vec3, b: Buffers, ghost tests: Tests, best: Hit) returns (hit: Hit)
    requires b.WellShaped() && Faithful(sqrt, tests)
    ensures hit == ScanKind(RayDistances(tests, b, o, d), SphereKind, |b.spheres|, best)
  {
    var intersectDist, objIndex, objType := best.dist, best.index, best.kind;
    ghost var t := RayDistances(tests, b, o, d);
    for idx := 0 to |b.spheres|
      invariant Hit(intersectDist, objIndex, objType) == ScanKind(t, SphereKind, idx, best)
    {
      var dist := IntersectRaySphere(sqrt, o, d, Column3(b.spheres, 0, idx), b.spheres[idx][3]);
      if intersectDist > dist > 0.0 {
        intersectDist, objIndex, objType := dist, idx, SphereKind;
      }
    }
    hit := Hit(intersectDist, objIndex, objType);
  }

  /** The plane loop of get_intersection. */
  method ScanPlanes(sqrt: real -> real, o: Vec3, d: Vec3, b: Buffers, ghost tests: Tests, best: Hit) returns (hit: Hit)
    requires b.WellShaped() && Faithful(sqrt, tests)
    ensures hit == ScanKind(RayDistances(tests, b, o, d), PlaneKind, |b.planes|, best)
  {
    var intersectDist, objIndex, objType := best.dist, best.index, best.kind;
    ghost var t := RayDistances(tests, b, o, d);
    for idx := 0 to |b.planes|
      invariant Hit(intersectDist, objIndex, objType) == ScanKind(t, PlaneKind, idx, best)
    {
      var dist := IntersectRayPlane(o, d, Column3(b.planes, 0, idx), Column3(b.planes, 3, idx));
      if intersectDist > dist > 0.0 {
        intersectDist, objIndex, objType := dist, idx, PlaneKind;
      }
    }
    hit := Hit(intersectDist, objIndex, objType);
  }

  /** The rectangle loop of get_intersection; the normal comes from
      get_rect_normal. It calls the corrected rectangle test, where the
      source calls the test as written (IntersectRayRectangleAsWritten). */
  method ScanRectangles(sqrt: real -> real, o: Vec3, d: Vec3, b: Buffers, ghost tests: Tests, best: Hit) returns (hit: Hit)
    requires b.WellShaped() && Faithful(sqrt, tests)
    ensures hit == ScanKind(RayDistances(tests, b, o, d), RectangleKind, |b.rectangles|, best)
  {
    var intersectDist, objIndex, objType := best.dist, best.index, best.kind;
    ghost var t := RayDistances(tests, b, o, d);
    for idx := 0 to |b.rectangles|
      invariant Hit(intersectDist, objIndex, objType) == ScanKind(t, RectangleKind, idx, best)
    {
      var norm := GetRectNormal(sqrt, idx, b.rectangles);
      var dist := IntersectRayRectangle(o, d, Column3(b.rectangles, 0, idx), Column3(b.rectangles, 3, idx),
                                        Column3(b.rectangles, 6, idx), norm);
      if intersectDist > dist > 0.0 {
        intersectDist, objIndex, objType := dist, idx, RectangleKind;
      }
    }
    hit := Hit(intersectDist, objIndex, objType);
  }

  /** The paraboloid loop of get_intersection. */
  method ScanParaboloids(o: Vec3, d: Vec3, b: Buffers, ghost tests: Tests, best: Hit) returns (hit: Hit)
    ensures hit == ScanKind(RayDistances(tests, b, o, d), ParaboloidKind, b.paraboloids.count, best)
  {
    var intersectDist, objIndex, objType := best.dist, best.index, best.kind;
    ghost var t := RayDistances(tests, b, o, d);
    for idx := 0 to b.paraboloids.count
      invariant Hit(intersectDist, objIndex, objType) == ScanKind(t, ParaboloidKind, idx, best)
    {
      var dist := b.paraboloids.dist(o, d, idx);
      if intersectDist > dist > 0.0 {
        intersectDist, objIndex, objType := dist, idx, ParaboloidKind;
      }
    }
    hit := Hit(intersectDist, objIndex, objType);
  }

  /**
   * get_intersection: scan the spheres, planes, rectangles and paraboloids
   * in that order, starting from distance 999, index -999 and kind 404.
   */
  method GetIntersection(sqrt: real -> real, o: Vec3, d: Vec3, b: Buffers, ghost tests: Tests) returns (hit: Hit)
    requires b.WellShaped() && Faithful(sqrt, tests)
    ensures hit == NearestHit(tests, b, o, d)
  {
    hit := Hit(Far, -999, NoKind);
    hit := ScanSpheres(sqrt, o, d, b, tests, hit);
    hit := ScanPlanes(sqrt, o, d, b, tests, hit);
    hit := ScanRectangles(sqrt, o, d, b, tests, hit);
    hit := ScanParaboloids(o, d, b, tests, hit);
  }

  // ---------------------------------------------------------------------
  // trace: one shading step
  // ---------------------------------------------------------------------

  /** The point and direction trace returns when the ray hits nothing. */
  const Sentinel := Vec3(404.0, 404.0, 404.0)

  /** Offset along the normal, then along the reflection, that keeps the
      next rays off the surface. */
  const Bias: real := 0.0002

  /** Colour, next ray origin and next ray direction. */
  datatype TraceResult = TraceResult(rgb: Vec3, point: Vec3, dir: Vec3)

  /** Colour and normal of the object a hit names, the normal taken at p. */
  function Surface(sqrt: real -> real, b: Buffers, h: Hit, p: Vec3): (Vec3, Vec3)
    requires b.WellShaped() && IsKind(h.kind) && 0 <= h.index < b.Count(h.kind)
  {
    if h.kind == SphereKind then
      (GetSphereColor(h.index, b.spheres), GetSphereNormal(sqrt, p, h.index, b.spheres))
    else if h.kind == PlaneKind then
      (GetPlaneColor(h.index, b.planes), GetPlaneNormal(sqrt, h.index, b.planes))
    else if h.kind == RectangleKind then
      (GetRectangleColor(h.index, b.rectangles), GetRectNormal(sqrt, h.index, b.rectangles))
    else
      (b.paraboloids.color(h.index), b.paraboloids.normal(p, h.index))
  }

  /** For each light, whether the ray from p towards it hits anything. */
  function ShadowFlags(sqrt: real -> real, tests: Tests, b: Buffers, p: Vec3): (shadowed: seq<bool>)
    requires b.WellShaped()
  {
    seq(|b.lights|, j requires 0 <= j < |b.lights| =>
      NearestHit(tests, b, p, GetVectorToLight(sqrt, p, b.lights, j)).kind != NoKind)
  }

  lemma ShadowFlagAt(sqrt: real -> real, tests: Tests, b: Buffers, p: Vec3, j: nat)
    requires b.WellShaped() && j < |b.lights|
    ensures ShadowFlags(sqrt, tests, b, p)[j] == (NearestHit(tests, b, p, GetVectorToLight(sqrt, p, b.lights, j)).kind != NoKind)
  {
  }

  /** Lambert term lambert_int * (L . N) of light j seen from p. */
  function Intensity(sqrt: real -> real, b: Buffers, p: Vec3, n: Vec3, lambert: real, j: nat): real
    requires b.WellShaped() && j < |b.lights|
  {
    lambert * Dot(GetVectorToLight(sqrt, p, b.lights, j), n)
  }

  lemma IntensityOf(sqrt: real -> real, b: Buffers, p: Vec3, n: Vec3, lambert: real, j: nat, l: Vec3)
    requires b.WellShaped() && j < |b.lights| && l == GetVectorToLight(sqrt, p, b.lights, j)
    ensures Intensity(sqrt, b, p, n, lambert, j) == lambert * Dot(l, n)
  {
  }

  /** The colour after the first k lights, starting from `base`: each
      unshadowed light with a positive Lambert term adds that many times
      the object colour. */
  function Lit(sqrt: real -> real, b: Buffers, p: Vec3, n: Vec3, color: Vec3, lambert: real, base: Vec3,
               shadowed: seq<bool>, k: nat): Vec3
    requires b.WellShaped() && k <= |b.lights| && k <= |shadowed|
  {
    if k == 0 then base
    else
      var prev := Lit(sqrt, b, p, n, color, lambert, base, shadowed, k - 1);
      var intensity := Intensity(sqrt, b, p, n, lambert, k - 1);
      if shadowed[k - 1] || intensity <= 0.0 then prev
      else LinearComb(prev, color, 1.0, intensity)
  }

  /** Light k either leaves the colour as it is or adds its intensity
      times the object colour. */
  lemma LitStep(sqrt: real -> real, b: Buffers, p: Vec3, n: Vec3, color: Vec3, lambert: real, base: Vec3,
                shadowed: seq<bool>, k: nat)
    requires b.WellShaped() && k < |b.lights| && k < |shadowed|
    ensures var prev := Lit(sqrt, b, p, n, color, lambert, base, shadowed, k);
            var intensity := Intensity(sqrt, b, p, n, lambert, k);
            Lit(sqrt, b, p, n, color, lambert, base, shadowed, k + 1)
            == if shadowed[k] || intensity <= 0.0 then prev else LinearComb(prev, color, 1.0, intensity)
  {
  }

  /** The Lambert weight light j adds: 0 when it is shadowed or faces away. */
  function LightWeight(sqrt: real -> real, b: Buffers, p: Vec3, n: Vec3, lambert: real, shadowed: seq<bool>, j: nat): (w: real)
    requires b.WellShaped() && j < |b.lights| && j < |shadowed|
    ensures 0.0 <= w
    ensures shadowed[j] ==> w == 0.0
    ensures !shadowed[j] && 0.0 < Intensity(sqrt, b, p, n, lambert, j) ==> w == Intensity(sqrt, b, p, n, lambert, j)
    ensures !shadowed[j] && Intensity(sqrt, b, p, n, lambert, j) <= 0.0 ==> w == 0.0
  {
    var intensity := Intensity(sqrt, b, p, n, lambert, j);
    if shadowed[j] || intensity <= 0.0 then 0.0 else intensity
  }

  /** Total Lambert weight of the first k lights. */
  function LambertSum(sqrt: real -> real, b: Buffers, p: Vec3, n: Vec3, lambert: real, shadowed: seq<bool>, k: nat): real
    requires b.WellShaped() && k <= |b.lights| && k <= |shadowed|
  {
    if k == 0 then 0.0
    else LambertSum(sqrt, b, p, n, lambert, shadowed, k - 1) + LightWeight(sqrt, b, p, n, lambert, shadowed, k - 1)
  }

  lemma {:induction false} LambertSumNonNegative(sqrt: real -> real, b: Buffers, p: Vec3, n: Vec3, lambert: real, shadowed: seq<bool>, k: nat)
    requires b.WellShaped() && k <= |b.lights| && k <= |shadowed|
    ensures 0.0 <= LambertSum(sqrt, b, p, n, lambert, shadowed, k)
  {
    if k > 0 {
      LambertSumNonNegative(sqrt, b, p, n, lambert, shadowed, k - 1);
    }
  }

  /** Adding two multiples of the same colour. */
  lemma ScaleAdd(base: Vec3, color: Vec3, s: real, w: real)
    ensures LinearComb(LinearComb(base, color, 1.0, s), color, 1.0, w) == LinearComb(base, color, 1.0, s + w)
  {
    assert s * color.x + w * color.x == (s + w) * color.x;
    assert s * color.y + w * color.y == (s + w) * color.y;
    assert s * color.z + w * color.z == (s + w) * color.z;
  }

  /**
   * Shading only adds multiples of the object colour: after k lights the
   * colour is the base plus the sum of the Lambert weights of the
   * unshadowed lights times the colour.
   */
  lemma {:induction false} LitIsScaledColor(sqrt: real -> real, b: Buffers, p: Vec3, n: Vec3, color: Vec3, lambert: real,
                                            base: Vec3, shadowed: seq<bool>, k: nat)
    requires b.WellShaped() && k <= |b.lights| && k <= |shadowed|
    ensures Lit(sqrt, b, p, n, color, lambert, base, shadowed, k)
         == LinearComb(base, color, 1.0, LambertSum(sqrt, b, p, n, lambert, shadowed, k))
  {
    if k > 0 {
      LitIsScaledColor(sqrt, b, p, n, color, lambert, base, shadowed, k - 1);
      ScaleAdd(base, color, LambertSum(sqrt, b, p, n, lambert, shadowed, k - 1),
               LightWeight(sqrt, b, p, n, lambert, shadowed, k - 1));
    }
  }

  /**
   * With a unit normal and a non-negative lambert_int, no light adds more
   * than lambert_int: the direction to a light has length at most 1.
   */
  lemma LightWeightAtMostLambert(sqrt: real -> real, b: Buffers, p: Vec3, n: Vec3, lambert: real, shadowed: seq<bool>, j: nat)
    requires IsSqrt(sqrt) && b.WellShaped() && j < |b.lights| && j < |shadowed|
    requires Dot(n, n) == 1.0 && 0.0 <= lambert
    ensures LightWeight(sqrt, b, p, n, lambert, shadowed, j) <= lambert
  {
    var l := GetVectorToLight(sqrt, p, b.lights, j);
    NormalizeAtMostUnit(sqrt, VectorDifference(p, Column3(b.lights, 0, j)));
    assert Dot(l, l) <= 1.0;
    ScaledDotBound(lambert, l, n);
    IntensityOf(sqrt, b, p, n, lambert, j, l);
  }

  lemma ScaledDotBound(lambert: real, l: Vec3, n: Vec3)
    requires 0.0 <= lambert && Dot(l, l) <= 1.0 && Dot(n, n) == 1.0
    ensures lambert * Dot(l, n) <= lambert
  {
    DotBound(l, n);
    var c := Dot(l, n);
    assert c <= 1.0;
    assert lambert * (1.0 - c) >= 0.0;
  }

  /** What trace returns for a hit at p on an object of the given colour
      and normal, the ray having come along d. */
  function Shade(sqrt: real -> real, tests: Tests, b: Buffers, d: Vec3, p: Vec3, color: Vec3, n: Vec3,
                 ambient: real, lambert: real): TraceResult
    requires b.WellShaped()
  {
    var p1 := LinearComb(p, n, 1.0, Bias);
    var r := GetReflection(d, n);
    TraceResult(Lit(sqrt, b, p1, n, color, lambert, LinearComb(Zero, color, 1.0, ambient), ShadowFlags(sqrt, tests, b, p1), |b.lights|),
                LinearComb(p1, r, 1.0, Bias), r)
  }

  /** What trace returns for a ray from o along d. */
  function TraceSpec(sqrt: real -> real, tests: Tests, b: Buffers, o: Vec3, d: Vec3, ambient: real, lambert: real): TraceResult
    requires b.WellShaped()
  {
    var h := NearestHit(tests, b, o, d);
    if h.kind == NoKind then TraceResult(Zero, Sentinel, Sentinel)
    else
      var p := PointAt(o, d, h.dist);
      var (color, n) := Surface(sqrt, b, h, p);
      Shade(sqrt, tests, b, d, p, color, n, ambient, lambert)
  }

  lemma AmbientPlusSum(lit: Vec3, color: Vec3, ambient: real, sum: real)
    requires lit == LinearComb(LinearComb(Zero, color, 1.0, ambient), color, 1.0, sum)
    ensures lit == LinearComb(Zero, color, 1.0, ambient + sum)
  {
    ScaleAdd(Zero, color, ambient, sum);
  }

  /**
   * The colour of a hit is the object's colour times ambient_int plus the
   * sum of the non-negative Lambert weights of the unshadowed lights, the
   * shadow rays leaving from the point lifted by BIAS along the normal.
   */
  lemma ShadeColor(sqrt: real -> real, tests: Tests, b: Buffers, d: Vec3, p: Vec3, color: Vec3, n: Vec3, ambient: real, lambert: real)
    requires b.WellShaped()
    ensures var p1 := LinearComb(p, n, 1.0, Bias);
            var sum := LambertSum(sqrt, b, p1, n, lambert, ShadowFlags(sqrt, tests, b, p1), |b.lights|);
            && Shade(sqrt, tests, b, d, p, color, n, ambient, lambert).rgb == LinearComb(Zero, color, 1.0, ambient + sum)
            && 0.0 <= sum
  {
    var p1 := LinearComb(p, n, 1.0, Bias);
    var shadowed := ShadowFlags(sqrt, tests, b, p1);
    var sum := LambertSum(sqrt, b, p1, n, lambert, shadowed, |b.lights|);
    var base := LinearComb(Zero, color, 1.0, ambient);
    var lit := Lit(sqrt, b, p1, n, color, lambert, base, shadowed, |b.lights|);
    assert Shade(sqrt, tests, b, d, p, color, n, ambient, lambert).rgb == lit;
    LitIsScaledColor(sqrt, b, p1, n, color, lambert, base, shadowed, |b.lights|);
    AmbientPlusSum(lit, color, ambient, sum);
    LambertSumNonNegative(sqrt, b, p1, n, lambert, shadowed, |b.lights|);
  }

  /**
   * With a unit normal, the next direction is the mirror image of d (same
   * length, normal component negated), and the next origin is the hit
   * point moved BIAS along the normal and then BIAS along that direction.
   */
  lemma ShadeReflection(sqrt: real -> real, tests: Tests, b: Buffers, d: Vec3, p: Vec3, color: Vec3, n: Vec3, ambient: real, lambert: real)
    requires b.WellShaped() && Dot(n, n) == 1.0
    ensures var res := Shade(sqrt, tests, b, d, p, color, n, ambient, lambert);
            && Dot(res.dir, n) == -Dot(d, n)
            && Dot(res.dir, res.dir) == Dot(d, d)
            && GetReflection(res.dir, n) == d
            && res.point == LinearComb(LinearComb(p, n, 1.0, Bias), res.dir, 1.0, Bias)
  {
    ReflectionAboutUnitNormal(d, n);
  }

  /**
   * One pass of the light loop of trace: cast a ray from p towards the
   * light; when it hits nothing and lambert_int * (L . N) is positive, add
   * that many times the object colour.
   */
  method ShadeLight(sqrt: real -> real, p: Vec3, n: Vec3, color: Vec3, b: Buffers, ghost tests: Tests, lambert: real,
                    lightIndex: nat, rgb: Vec3) returns (next: Vec3)
    requires b.WellShaped() && Faithful(sqrt, tests) && lightIndex < |b.lights|
    ensures var intensity := Intensity(sqrt, b, p, n, lambert, lightIndex);
            next == if ShadowFlags(sqrt, tests, b, p)[lightIndex] || intensity <= 0.0 then rgb
                    else LinearComb(rgb, color, 1.0, intensity)
  {
    var l := GetVectorToLight(sqrt, p, b.lights, lightIndex);
    var shadow := GetIntersection(sqrt, p, l, b, tests);
    ShadowFlagAt(sqrt, tests, b, p, lightIndex);
    IntensityOf(sqrt, b, p, n, lambert, lightIndex, l);
    if shadow.kind != NoKind {
      return rgb;
    }
    var lambertIntensity := lambert * Dot(l, n);
    next := rgb;
    if lambertIntensity > 0.0 {
      next := LinearComb(rgb, color, 1.0, lambertIntensity);
    }
  }

  /** The light loop of trace, over every light in column order. */
  method ShadeLights(sqrt: real -> real, p: Vec3, n: Vec3, color: Vec3, b: Buffers, ghost tests: Tests, lambert: real, rgb0: Vec3)
    returns (rgb: Vec3)
    requires b.WellShaped() && Faithful(sqrt, tests)
    ensures rgb == Lit(sqrt, b, p, n, color, lambert, rgb0, ShadowFlags(sqrt, tests, b, p), |b.lights|)
  {
    rgb := rgb0;
    for lightIndex := 0 to |b.lights|
      invariant rgb == Lit(sqrt, b, p, n, color, lambert, rgb0, ShadowFlags(sqrt, tests, b, p), lightIndex)
    {
      LitStep(sqrt, b, p, n, color, lambert, rgb0, ShadowFlags(sqrt, tests, b, p), lightIndex);
      rgb := ShadeLight(sqrt, p, n, color, b, tests, lambert, lightIndex, rgb);
    }
  }

  /**
   * trace: find the nearest hit; on a miss return black and the 404
   * sentinels. Otherwise start from ambient_int times the object colour,
   * lift the hit point by BIAS along the normal, shade it by the lights,
   * and return the colour, the lifted point moved BIAS along the reflected
   * direction, and that direction.
   */
  method Trace(sqrt: real -> real, o: Vec3, d: Vec3, b: Buffers, ghost tests: Tests, ambient: real, lambert: real)
    returns (res: TraceResult)
    requires b.WellShaped() && Faithful(sqrt, tests)
    ensures res == TraceSpec(sqrt, tests, b, o, d, ambient, lambert)
  {
    var rgb := Zero;
    var hit := GetIntersection(sqrt, o, d, b, tests);
    if hit.kind == NoKind {
      return TraceResult(rgb, Sentinel, Sentinel);
    }
    var p := LinearComb(o, d, 1.0, hit.dist);
    var color, n;
    if hit.kind == SphereKind {
      color := GetSphereColor(hit.index, b.spheres);
      n := GetSphereNormal(sqrt, p, hit.index, b.spheres);
    } else if hit.kind == PlaneKind {
      color := GetPlaneColor(hit.index, b.planes);
      n := GetPlaneNormal(sqrt, hit.index, b.planes);
    } else if hit.kind == RectangleKind {
      color := GetRectangleColor(hit.index, b.rectangles);
      n := GetRectNormal(sqrt, hit.index, b.rectangles);
    } else if hit.kind == ParaboloidKind {
      color := b.paraboloids.color(hit.index);
      n := b.paraboloids.normal(p, hit.index);
    } else {
      assert false;
    }
    rgb := LinearComb(rgb, color, 1.0, ambient);
    p := LinearComb(p, n, 1.0, Bias);
    rgb := ShadeLights(sqrt, p, n, color, b, tests, lambert, rgb);
    var r := GetReflection(d, n);
    p := LinearComb(p, r, 1.0, Bias);
    res := TraceResult(rgb, p, r);
  }

  /** A miss yields black and the sentinel point and direction. */
  lemma TraceMiss(sqrt: real -> real, tests: Tests, b: Buffers, o: Vec3, d: Vec3, ambient: real, lambert: real)
    requires b.WellShaped() && NearestHit(tests, b, o, d) == Miss
    ensures TraceSpec(sqrt, tests, b, o, d, ambient, lambert) == TraceResult(Zero, Sentinel, Sentinel)
  {
  }

  // ---------------------------------------------------------------------
  // sample: the reflection loop
  // ---------------------------------------------------------------------

  /** 0.5 ** k. */
  function HalfPow(k: nat): (w: real)
    ensures 0.0 < w <= 1.0
  {
    if k == 0 then 1.0 else 0.5 * HalfPow(k - 1)
  }

  function WeightSum(k: nat): real
  {
    if k == 0 then 0.0 else WeightSum(k - 1) + HalfPow(k)
  }

  /** The reflection weights 0.5, 0.25, ... of the first k bounces sum to
      1 - 0.5 ** k, so together they never outweigh the primary ray. */
  lemma {:induction false} ReflectionWeights(k: nat)
    ensures WeightSum(k) == 1.0 - HalfPow(k)
  {
    if k > 0 {
      ReflectionWeights(k - 1);
    }
  }

  /** The colour, point and direction sample holds after some bounces. */
  datatype SampleState = SampleState(rgb: Vec3, point: Vec3, dir: Vec3)

  predicate Stopped(s: SampleState)
  {
    s.point == Sentinel || s.dir == Sentinel
  }

  /** trace as a function of the ray, for fixed buffers and intensities. */
  function Tracer(sqrt: real -> real, tests: Tests, b: Buffers, ambient: real, lambert: real): (Vec3, Vec3) -> TraceResult
    requires b.WellShaped()
  {
    (o: Vec3, d: Vec3) => TraceSpec(sqrt, tests, b, o, d, ambient, lambert)
  }

  /** Pass k (from 1) of the reflection loop: skipped once the point or
      the direction is the sentinel; otherwise trace the reflected ray and
      add 0.5 ** k times its colour. */
  function Bounce(tr: (Vec3, Vec3) -> TraceResult, s: SampleState, k: nat): SampleState
  {
    if Stopped(s) then s
    else
      var t := tr(s.point, s.dir);
      SampleState(LinearComb(s.rgb, t.rgb, 1.0, HalfPow(k)), t.point, t.dir)
  }

  /** The state after the primary trace and k passes of the reflection
      loop, for a tracer `tr`. */
  function SampleAfter(tr: (Vec3, Vec3) -> TraceResult, o: Vec3, d: Vec3, k: nat): SampleState
  {
    if k == 0 then
      var t := tr(o, d);
      SampleState(t.rgb, t.point, t.dir)
    else Bounce(tr, SampleAfter(tr, o, d, k - 1), k)
  }

  /** The colour sample returns; a negative depth means no bounces. */
  function SampleSpec(tr: (Vec3, Vec3) -> TraceResult, o: Vec3, d: Vec3, reflDepth: int): Vec3
  {
    SampleAfter(tr, o, d, if reflDepth < 0 then 0 else reflDepth).rgb
  }

  /** Before the loop, sample holds the primary trace. */
  lemma SampleStart(sqrt: real -> real, tests: Tests, b: Buffers, ambient: real, lambert: real, o: Vec3, d: Vec3)
    requires b.WellShaped()
    ensures var t := TraceSpec(sqrt, tests, b, o, d, ambient, lambert);
            SampleAfter(Tracer(sqrt, tests, b, ambient, lambert), o, d, 0) == SampleState(t.rgb, t.point, t.dir)
  {
  }

  /** Pass i + 1 of the loop is one more Bounce. */
  lemma SampleStep(tr: (Vec3, Vec3) -> TraceResult, o: Vec3, d: Vec3, i: nat)
    ensures SampleAfter(tr, o, d, i + 1) == Bounce(tr, SampleAfter(tr, o, d, i), i + 1)
  {
  }

  /** One pass of the loop of sample, pass i + 1. */
  method Reflect(sqrt: real -> real, b: Buffers, ghost tests: Tests, ambient: real, lambert: real, s: SampleState, i: nat)
    returns (next: SampleState)
    requires b.WellShaped() && Faithful(sqrt, tests)
    ensures next == Bounce(Tracer(sqrt, tests, b, ambient, lambert), s, i + 1)
  {
    if (s.point == Sentinel) || (s.dir == Sentinel) {
      return s;
    }
    var refl := Trace(sqrt, s.point, s.dir, b, tests, ambient, lambert);
    next := SampleState(LinearComb(s.rgb, refl.rgb, 1.0, HalfPow(i + 1)), refl.point, refl.dir);
  }

  /**
   * sample: trace the primary ray, then up to refl_depth reflected rays,
   * adding the i-th (from 1) with weight 0.5 ** i and skipping every pass
   * once a trace has missed. reflection_int is accepted and not used.
   */
  method Sample(sqrt: real -> real, o: Vec3, d: Vec3, b: Buffers, ghost tests: Tests, ambient: real, lambert: real,
                reflectionInt: real, reflDepth: int) returns (rgb: Vec3)
    requires b.WellShaped() && Faithful(sqrt, tests)
    ensures rgb == SampleSpec(Tracer(sqrt, tests, b, ambient, lambert), o, d, reflDepth)
  {
    ghost var tr := Tracer(sqrt, tests, b, ambient, lambert);
    var first := Trace(sqrt, o, d, b, tests, ambient, lambert);
    var s := SampleState(first.rgb, first.point, first.dir);
    SampleStart(sqrt, tests, b, ambient, lambert, o, d);
    var depth: nat := if reflDepth < 0 then 0 else reflDepth;
    for i := 0 to depth
      invariant s == SampleAfter(tr, o, d, i)
    {
      s := Reflect(sqrt, b, tests, ambient, lambert, s, i);
      SampleStep(tr, o, d, i);
    }
    rgb := s.rgb;
  }

  /** Once stopped, the state no longer changes. */
  lemma {:induction false} StoppedIsFinal(tr: (Vec3, Vec3) -> TraceResult, o: Vec3, d: Vec3, k: nat, m: nat)
    requires k <= m && Stopped(SampleAfter(tr, o, d, k))
    ensures SampleAfter(tr, o, d, m) == SampleAfter(tr, o, d, k)
  {
    if k < m {
      StoppedIsFinal(tr, o, d, k, m - 1);
    }
  }

  /** A primary ray that hits nothing gives black, whatever the depth. */
  lemma SampleMissIsBlack(sqrt: real -> real, tests: Tests, b: Buffers, o: Vec3, d: Vec3, ambient: real, lambert: real, reflDepth: int)
    requires b.WellShaped() && NearestHit(tests, b, o, d) == Miss
    ensures SampleSpec(Tracer(sqrt, tests, b, ambient, lambert), o, d, reflDepth) == Zero
  {
    var tr := Tracer(sqrt, tests, b, ambient, lambert);
    TraceMiss(sqrt, tests, b, o, d, ambient, lambert);
    assert tr(o, d) == TraceResult(Zero, Sentinel, Sentinel);
    StoppedIsFinal(tr, o, d, 0, if reflDepth < 0 then 0 else reflDepth);
  }

  /** Every channel of v lies in [0, c]. */
  predicate InBox(v: Vec3, c: real)
  {
    0.0 <= v.x <= c && 0.0 <= v.y <= c && 0.0 <= v.z <= c
  }

  /** c * 0.5 ** k, written with constant factors only. */
  function ScaledHalfPow(c: real, k: nat): real
  {
    if k == 0 then c else 0.5 * ScaledHalfPow(c, k - 1)
  }

  lemma {:induction false} ScaledHalfPowIsProduct(c: real, k: nat)
    ensures ScaledHalfPow(c, k) == c * HalfPow(k)
  {
    if k > 0 {
      ScaledHalfPowIsProduct(c, k - 1);
      HalfOfProduct(c, HalfPow(k - 1), ScaledHalfPow(c, k - 1), HalfPow(k));
    }
  }

  lemma HalfOfProduct(c: real, h: real, ch: real, half: real)
    requires ch == c * h && half == 0.5 * h
    ensures 0.5 * ch == c * half
  {
  }

  /** The bound on the colour after k passes, for traced colours bounded
      by c: c plus c * 0.5 ** i for each pass i. */
  function SampleBound(c: real, k: nat): real
  {
    if k == 0 then c else SampleBound(c, k - 1) + ScaledHalfPow(c, k)
  }

  lemma {:induction false} SampleBoundIsWeighted(c: real, k: nat)
    ensures SampleBound(c, k) == c * (1.0 + WeightSum(k))
  {
    if k == 0 {
      Distribute(c, 0.0, 0.0, WeightSum(0));
    } else {
      SampleBoundIsWeighted(c, k - 1);
      ScaledHalfPowIsProduct(c, k);
      Distribute(c, WeightSum(k - 1), HalfPow(k), WeightSum(k));
    }
  }

  lemma Distribute(c: real, p: real, q: real, total: real)
    requires total == p + q
    ensures c * (1.0 + p) + c * q == c * (1.0 + total)
    ensures p == 0.0 && q == 0.0 ==> c * (1.0 + total) == c
  {
  }

  /** One channel of a bounce: a colour in [0, bound] plus w times a colour
      in [0, c] lies in [0, bound + w * c]. */
  lemma WeightedChannel(a: real, x: real, w: real, bound: real, c: real)
    requires 0.0 <= a <= bound && 0.0 <= x <= c && 0.0 < w
    ensures 0.0 <= 1.0 * a + w * x <= bound + w * c
  {
  }

  lemma BoxGrows(v: Vec3, bound: real, c: real, w: real, wc: real)
    requires InBox(v, bound) && 0.0 <= c && 0.0 < w && wc == c * w
    ensures InBox(v, bound + wc)
  {
  }

  lemma BounceInBox(a: Vec3, x: Vec3, w: real, bound: real, c: real, wc: real)
    requires InBox(a, bound) && InBox(x, c) && 0.0 < w && wc == c * w
    ensures InBox(LinearComb(a, x, 1.0, w), bound + wc)
  {
    WeightedChannel(a.x, x.x, w, bound, c);
    WeightedChannel(a.y, x.y, w, bound, c);
    WeightedChannel(a.z, x.z, w, bound, c);
  }

  /** A pass of the reflection loop grows the bound on the colour by
      0.5 ** k times the bound c on one trace. */
  lemma BounceBounded(tr: (Vec3, Vec3) -> TraceResult, s: SampleState, k: nat, c: real, bound: real)
    requires InBox(s.rgb, bound) && InBox(tr(s.point, s.dir).rgb, c)
    ensures InBox(Bounce(tr, s, k).rgb, bound + ScaledHalfPow(c, k))
  {
    var t := tr(s.point, s.dir);
    ScaledHalfPowIsProduct(c, k);
    if Stopped(s) {
      BoxGrows(s.rgb, bound, c, HalfPow(k), ScaledHalfPow(c, k));
    } else {
      assert Bounce(tr, s, k).rgb == LinearComb(s.rgb, t.rgb, 1.0, HalfPow(k));
      BounceInBox(s.rgb, t.rgb, HalfPow(k), bound, c, ScaledHalfPow(c, k));
    }
  }

  /** After k passes every channel of the colour lies in
      [0, SampleBound(c, k)]. */
  lemma {:induction false} SampleAfterBounded(tr: (Vec3, Vec3) -> TraceResult, o: Vec3, d: Vec3, k: nat, c: real)
    requires forall o': Vec3, d': Vec3 :: InBox(tr(o', d').rgb, c)
    ensures InBox(SampleAfter(tr, o, d, k).rgb, SampleBound(c, k))
  {
    if k == 0 {
      assert InBox(tr(o, d).rgb, c);
    } else {
      SampleAfterBounded(tr, o, d, k - 1, c);
      var s := SampleAfter(tr, o, d, k - 1);
      assert InBox(tr(s.point, s.dir).rgb, c);
      BounceBounded(tr, s, k, c, SampleBound(c, k - 1));
    }
  }

  /**
   * When every traced colour has its channels in [0, c], the colour sample
   * returns after k bounces has its channels in [0, (2 - 0.5 ** k) * c]:
   * the reflections together add less than one more trace's worth.
   */
  lemma SampleBounded(tr: (Vec3, Vec3) -> TraceResult, o: Vec3, d: Vec3, reflDepth: int, c: real)
    requires forall o': Vec3, d': Vec3 :: InBox(tr(o', d').rgb, c)
    ensures var k := if reflDepth < 0 then 0 else reflDepth;
            InBox(SampleSpec(tr, o, d, reflDepth), c * (2.0 - HalfPow(k)))
  {
    var k := if reflDepth < 0 then 0 else reflDepth;
    SampleAfterBounded(tr, o, d, k, c);
    SampleBoundIsWeighted(c, k);
    ReflectionWeights(k);
    assert 1.0 + WeightSum(k) == 2.0 - HalfPow(k);
  }

  /** With no bounces, sample returns the colour of the primary trace. */
  lemma SampleWithoutBounces(tr: (Vec3, Vec3) -> TraceResult, o: Vec3, d: Vec3, reflDepth: int)
    requires reflDepth <= 0
    ensures SampleSpec(tr, o, d, reflDepth) == tr(o, d).rgb
  {
  }
}
