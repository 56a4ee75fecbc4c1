# A verified model of a CUDA ray tracer's core

The system is a small Python ray tracer whose kernels run on the GPU through
numba. A scene (`src/scene/scene.py`) holds spheres, point lights, planes and
rectangles, and `generate_scene` packs each of these four kinds into a float32
matrix with one column per object. The tracer's functions also take a fifth
buffer, of paraboloids, which the scene does not produce and which comes from
outside (`src/ray_tracing/trace.py:7`, `:50`, `:116-117`).

For every pixel the kernel calls `sample`. `sample` calls `trace`, and `trace`
calls `get_intersection`, which runs the ray-object tests of
`src/ray_tracing/intersections.py` against every column and keeps the nearest
positive hit. The model's `get_intersection` runs the corrected rectangle test
of Findings row 1. The source's loop (`src/ray_tracing/trace.py:31`) calls the
test as written, which is modelled separately.

`trace` shades a hit in three steps:

- it starts from the object's colour times the ambient intensity;
- for every light that no object hides, it adds the colour times the lambert
  intensity whenever that intensity is positive;
- it returns the colour, the biased hit point and the mirrored ray direction.

`sample` then follows up to `refl_depth` reflections and adds the colour of
bounce i+1 with weight 0.5^(i+1). A ray that hits nothing returns the sentinel
point and direction (404, 404, 404), and every later bounce is skipped.

The project has four modules.

- `Common` (`common.dfy`) covers the vector algebra, the colour clamping and
  the buffer accessors of `src/ray_tracing/common.py`. All of it is pure
  functions with lemmas.
- `Intersections` (`intersections.dfy`) holds the sphere, plane and
  rectangle tests as pure functions, with lemmas that say what their answers
  mean geometrically. For a sphere, the answer is the nearest positive root
  of the ray-sphere quadratic, and that point lies on the sphere. For a plane,
  the hit lies on the plane and is the only one. For a rectangle, the hit lies
  on its plane, inside the parallelogram spanned by the two edges.
- `Trace` (`trace.dfy`) holds the imperative kernels as methods with loops.
  `GetIntersection` is four scan methods, one per source loop. Each is proved
  against a fold, `ScanKind`. The nearest-hit facts are proved about that
  fold: the result is the nearest positive candidate below 999, the earliest
  in scan order wins ties, and a miss means no candidate qualified.
  - `Trace` is proved equal to `TraceSpec`. The light loop is proved against
    `Lit` and the reflection loop of `Sample` against `SampleAfter`.
  - Lemmas then state what these specifications promise. The colour is the
    object colour scaled by the ambient intensity plus a non-negative sum of
    per-light weights. Each weight is 0 for a shadowed light. It never exceeds
    the lambert intensity when the normal is a unit vector and lambert_int >= 0.
    The reflected direction mirrors the incoming one about the unit normal. A
    miss gives black. The reflection weights sum to 1 - 0.5^k, so when every
    traced colour channel lies in [0, c], every channel of a sample lies in
    [0, (2 - 0.5^k) c].
- `Scenes` (`scene.dfy`) holds the `to_array` records as methods that fill
  fresh arrays and the `get_*` packers as methods that fill a fresh
  two-dimensional array column by column. `GenerateScene` calls the
  packers with the corrected 13-row rectangle record of Findings row 2, and
  `GenerateSceneAsWritten` calls them with the 12-row record of the source. Lemmas show that the accessors of `Common` read back exactly what
  the packers wrote.

Modelling choices:

- Arithmetic is over `real`. The square root is a parameter `sqrt`. The facts
  the proofs use about it are collected in `IsSqrt`: the result is the
  non-negative root.
- Inside the tracer the buffers are values. A buffer is the sequence of its
  columns, `buf[i][r]`, which the kernels only read. `Scenes.Columns` is the
  link from the packed arrays to this view.
- The tracer methods call the real intersection tests. The specifications
  refer to them through a ghost argument `tests`, and the requirement
  `Faithful(sqrt, tests)` says that `tests` answers exactly as the real tests
  do. `ModelTestsAreFaithful` shows that this requirement can always be met.
  This keeps the specifications' unfolding away from the tests' arithmetic.
- The paraboloid test and accessors are not part of this model. They enter as
  an abstract `Paraboloids` value: a count and three functions.

## Model

| member | source | states |
|---|---|---|
| Common.LinearComb | src/ray_tracing/common.py:13-17 | c1*a + c2*b componentwise; DotLinearComb and MatmulLinear state that dot and matmul are linear in it |
| Common.VectorDifference | src/ray_tracing/common.py:21-24 | to - from; VectorDifferenceRoundTrip states from + (to - from) == to |
| Common.Normalize | src/ray_tracing/common.py:28-31 | v / \|v\|; NormalizeUnit, NormalizeIdempotent and NormalizeDegenerate state its unit length, idempotence and zero case |
| Common.Dot | src/ray_tracing/common.py:35-36 | the dot product; DotSymmetric and DotBound state symmetry and the bound 2\|dot(a, b)\| <= dot(a, a) + dot(b, b) |
| Common.CrossProduct | src/ray_tracing/common.py:115-116 | the cross product; CrossProductOrthogonal and CrossProductAnticommutes state its orthogonality and antisymmetry |
| Common.Matmul | src/ray_tracing/common.py:40-46 | the 3 x 3 matrix-vector product; MatmulLinear and MatmulIdentity state linearity and the identity |
| Common.GetReflection | src/ray_tracing/common.py:109-112 | d - 2 dot(d, n) n; ReflectionAboutUnitNormal states the mirror image about a unit normal |
| Common.ClipColorVector | src/ray_tracing/common.py:56-58 | the clamped channels in the order R, B, G, as ClipColorVectorSwapsGreenBlue states |
| Common.GetSphereColor | src/ray_tracing/common.py:62-65 | rows 4..6 of a sphere column; SphereColumnsRoundTrip states it reads back the sphere's colour |
| Common.GetPlaneColor | src/ray_tracing/common.py:69-72 | rows 6..8 of a plane column; PlaneColumnsRoundTrip states it reads back the plane's colour |
| Common.GetRectangleColor | src/ray_tracing/common.py:75-77 | rows 9..11 of a rectangle column; RectangleColumnsRoundTrip states it reads back the rectangle's colour |
| Common.GetVectorToLight | src/ray_tracing/common.py:81-85 | normalize(light - p); LightColumnsRoundTrip states it reads the light's position, NormalizeAtMostUnit bounds its length |
| Common.GetSphereNormal | src/ray_tracing/common.py:89-92 | normalize(p - centre); NormalizeUnit states it is a unit vector for p off the centre |
| Common.GetPlaneNormal | src/ray_tracing/common.py:96-97 | the normalised rows 3..5; PlaneColumnsRoundTrip states it is the stored unit normal |
| Common.GetRectNormal | src/ray_tracing/common.py:100-106 | normalize(cross(u, v)), negated when row 12 holds 0, as RectNormalOrientation states |
| Common.RoundHalfEven | src/ray_tracing/common.py:50-52 | Python's `round`: the integer returned is within 1/2 of the input, and an exact half goes to the even integer |
| Common.RoundHalfEvenMonotone | src/ray_tracing/common.py:50-52 | rounding never reverses the order of two inputs |
| Common.ClipColor | src/ray_tracing/common.py:50-52 | the channel value is always in 0..255, and for an input in [0, 255] it is within 1/2 of the input |
| Common.ClipColorMonotone | src/ray_tracing/common.py:50-52 | clamping keeps the order of two intensities |
| Common.ClipColorSaturates | src/ray_tracing/common.py:50-52 | inputs at or below 0 give 0, inputs at or above 255 give 255, and integers in range are kept |
| Common.ClipColorVectorSwapsGreenBlue | src/ray_tracing/common.py:56-58 | the result lists the clamped channels in the order R, B, G; pure green comes out as (0, 0, 255) |
| Common.DotSymmetric | src/ray_tracing/common.py:35-36 | dot(a, b) == dot(b, a) |
| Common.DotLinearComb | src/ray_tracing/common.py:13-17 | dot is linear in the combination linear_comb builds |
| Common.DotNeg | src/ray_tracing/common.py:35-36 | negating a vector negates its dot products and keeps its squared length |
| Common.DotBound | src/ray_tracing/common.py:35-36 | 2\|dot(a, b)\| <= dot(a, a) + dot(b, b) |
| Common.VectorDifferenceRoundTrip | src/ray_tracing/common.py:21-24 | from + vector_difference(from, to) == to, and swapping the arguments negates the result |
| Common.CrossProductOrthogonal | src/ray_tracing/common.py:115-116 | cross(a, b) is perpendicular to a and to b |
| Common.CrossProductAnticommutes | src/ray_tracing/common.py:115-116 | cross(a, b) == -cross(b, a), and cross(a, a) is zero |
| Common.CrossProductLinearLeft | src/ray_tracing/common.py:115-116 | the cross product is linear in its first argument |
| Common.CrossProductLinearRight | src/ray_tracing/common.py:115-116 | the cross product is linear in its second argument |
| Common.MatmulLinear | src/ray_tracing/common.py:40-46 | matmul maps a linear combination to the same combination of the images |
| Common.MatmulIdentity | src/ray_tracing/common.py:40-46 | the identity matrix leaves every vector unchanged |
| Common.DotSelfNonNegative | src/ray_tracing/common.py:35-36 | a vector's squared length is non-negative |
| Common.DotNormalize | src/ray_tracing/common.py:28-31 | for a non-zero vector, normalize divides each component by the positive norm, and so divides every dot product by it |
| Common.NormalizeUnit | src/ray_tracing/common.py:28-31 | a normalised non-zero vector has length 1, points the same way (positive dot product) and is parallel (zero cross product) |
| Common.NormalizeDegenerate | src/ray_tracing/common.py:28-31 | the zero vector normalises to the zero vector |
| Common.NormalizeAtMostUnit | src/ray_tracing/common.py:28-31 | every normalised vector has squared length at most 1 |
| Common.NormalizeIdempotent | src/ray_tracing/common.py:28-31 | normalising twice equals normalising once |
| Common.ReflectionAboutUnitNormal | src/ray_tracing/common.py:109-112 | about a unit normal, get_reflection flips the normal component, keeps the length and undoes itself |
| Common.ReflectionFlipsNormalPart | src/ray_tracing/common.py:109-112 | dot(reflect(d, n), n) == -dot(d, n) for a unit n |
| Common.ReflectionKeepsLength | src/ray_tracing/common.py:109-112 | the reflection has the same length as the incoming direction |
| Common.ReflectionUndoesItself | src/ray_tracing/common.py:109-112 | reflecting twice about the same unit normal gives back the direction |
| Common.NormalOfEdges | src/ray_tracing/common.py:100-106 | normalize(cross(u, v)) is perpendicular to both edges, and it is a unit vector on the side of cross(u, v) when the edges are not parallel |
| Common.RectNormalOrientation | src/ray_tracing/common.py:100-106 | get_rect_normal is perpendicular to the rectangle's edges; for non-parallel edges it is a unit vector, and it points against cross(u, v) exactly when row 12 holds 0 |
| Intersections.IntersectRaySphere | src/ray_tracing/intersections.py:7-32 | the answer is a positive distance or a sentinel, and it is -999.9 exactly when the discriminant is negative |
| Intersections.NearestRoot | src/ray_tracing/intersections.py:22-32 | the root choice returns a positive distance or -999.0 |
| Intersections.SphereOffset | src/ray_tracing/intersections.py:9-17 | a point at distance s along the normalised ray lies on the sphere exactly when s solves the quadratic with the source's a, b and c |
| Intersections.SphereTestIsRootChoice | src/ray_tracing/intersections.py:17-32 | the sphere test applies the root choice to the quadratic and the root of its discriminant |
| Intersections.SphereDecision | src/ray_tracing/intersections.py:22-32 | a positive answer of the root choice is a root, and it is at most every positive root |
| Intersections.NearestRootIsNearest | src/ray_tracing/intersections.py:22-32 | for a monic quadratic, a positive answer is a root and is no greater than any positive root |
| Intersections.MonicRoots | src/ray_tracing/intersections.py:22-30 | the two candidate roots solve the quadratic, the minus root is the smaller, and there is no other root |
| Intersections.MonicNoRoot | src/ray_tracing/intersections.py:17-20 | a negative discriminant means the quadratic has no root |
| Intersections.SphereAnswerIsRoot | src/ray_tracing/intersections.py:22-32 | a positive sphere answer solves the ray-sphere quadratic |
| Intersections.SphereAnswerIsNearestRoot | src/ray_tracing/intersections.py:22-32 | any positive root bounds a positive answer from above |
| Intersections.SphereHitIsOnSphere | src/ray_tracing/intersections.py:7-32 | for a non-zero direction, a positive answer is a point on the sphere |
| Intersections.SphereHitIsNearest | src/ray_tracing/intersections.py:7-32 | every point of the sphere ahead of the ray is at least as far as the (positive) answer |
| Intersections.IntersectRayPlane | src/ray_tracing/intersections.py:36-55 | the answer is a positive distance or a sentinel, and it is -999.9 exactly when \|dot(dir, n)\| <= 0.0001 |
| Intersections.PlaneOffset | src/ray_tracing/intersections.py:46-50 | the signed offset of the point at distance t from the plane is t*dot(d, n) - dot(LP, n) |
| Intersections.PlaneHitIsExact | src/ray_tracing/intersections.py:36-55 | a positive answer lies on the plane; every other answer than -999.9 is the only point of the plane on the ray; -999.0 means no point of the plane is ahead |
| Intersections.AcceptRectangleHit | src/ray_tracing/intersections.py:86-93 | a hit is accepted exactly when it is ahead and inside the parallelogram; every other hit gives -999.0 |
| Intersections.IntersectRayRectangleAsWritten | src/ray_tracing/intersections.py:58-93 | the source's test, with hit_vector = origin - hit: a positive distance or -999.0, and -999.0 for a ray parallel to the plane |
| Intersections.IntersectRayRectangle | src/ray_tracing/intersections.py:58-93 | the corrected test: a positive distance or -999.0, and -999.0 for a ray parallel to the plane |
| Intersections.RectangleCoordinatesRecover | src/ray_tracing/intersections.py:79-84 | for non-parallel edges, the coordinates computed from alpha*u + beta*v are (alpha, beta) |
| Intersections.RectanglePlaneOffset | src/ray_tracing/intersections.py:68-73 | the signed offset of the point at t from the rectangle's plane is t*dot(n, d) - (D - dot(n, o)) |
| Intersections.RectangleParameterOnPlane | src/ray_tracing/intersections.py:68-75 | the point at the computed t lies on the rectangle's plane |
| Intersections.RectangleHitIsExact | src/ray_tracing/intersections.py:58-93 | a positive answer lies on the plane and inside the parallelogram; when the hit offset is alpha*u + beta*v, the answer is positive exactly when 0 < alpha, beta < 1 and t > 0 |
| Intersections.RectangleAsWrittenMirrors | src/ray_tracing/intersections.py:76-87 | as written, the accepted hits are those at origin - alpha*u - beta*v with 0 < alpha, beta < 1: the parallelogram mirrored through the origin |
| Intersections.RectangleAsWrittenMissesCentre | src/ray_tracing/intersections.py:76 | a ray straight down onto the centre of the unit square hits at distance 1 in the corrected test and misses in the test as written |
| Trace.ScanKindFacts | src/ray_tracing/trace.py:12-44 | one scan loop never increases the best distance; the result is at most every positive candidate; either it is the best so far, or it is a scanned candidate below the best, in range, and strictly nearer than every earlier positive candidate |
| Trace.StageFacts | src/ray_tracing/trace.py:8-46 | the best distance stays at most 999 and never increases from one loop to the next |
| Trace.NearestIsReported | src/ray_tracing/trace.py:8-46 | the result is the initial miss (999, -999, 404) or a real object whose test answered the reported distance, which lies in (0, 999); type 404 means a miss |
| Trace.NearestIsNearestObject | src/ray_tracing/trace.py:8-46 | any object whose test answers a distance in (0, 999) makes the result a hit no farther than that object |
| Trace.NearestPrefersScanOrder | src/ray_tracing/trace.py:8-46 | an object scanned before the reported one is strictly farther: ties go to the first in scan order |
| Trace.ModelTestsAreFaithful | src/ray_tracing/trace.py:13-39 | the real intersection tests, with the corrected rectangle test, satisfy Faithful, so the tracer's requirement can always be met |
| Trace.RayDistances | src/ray_tracing/trace.py:12-44 | there is one test answer per column of each kind |
| Trace.NearestHit | src/ray_tracing/trace.py:7-46 | the nearest hit is a miss or an index in range of a real kind, with a distance in (0, 999); type 404 exactly for a miss |
| Trace.NearestHitIsTestResult | src/ray_tracing/trace.py:12-44 | on well-shaped buffers, the reported distance is the answer of the real test for the reported object (the corrected test for a rectangle) |
| Trace.ScanSpheres | src/ray_tracing/trace.py:12-18 | the sphere loop computes the fold of ScanKind over the spheres |
| Trace.ScanPlanes | src/ray_tracing/trace.py:20-26 | the plane loop computes the fold over the planes |
| Trace.ScanRectangles | src/ray_tracing/trace.py:28-36 | the rectangle loop computes the fold over the rectangles, each tested with get_rect_normal by the corrected rectangle test |
| Trace.ScanParaboloids | src/ray_tracing/trace.py:38-44 | the paraboloid loop computes the fold over the paraboloids |
| Trace.GetIntersection | src/ray_tracing/trace.py:7-46 | get_intersection returns NearestHit, the nearest positive hit below 999 in scan order |
| Trace.LightWeight | src/ray_tracing/trace.py:98-105 | a light adds a non-negative weight: 0 when shadowed or when the lambert intensity is not positive, otherwise that intensity |
| Trace.LambertSumNonNegative | src/ray_tracing/trace.py:92-105 | the lights together never darken the colour: their weight sum is non-negative |
| Trace.LitIsScaledColor | src/ray_tracing/trace.py:92-105 | after the light loop the colour is the starting colour plus the object colour times the weight sum |
| Trace.LightWeightAtMostLambert | src/ray_tracing/trace.py:102-105 | with a unit normal, no light adds more than lambert_int times the object colour |
| Trace.ShadeColor | src/ray_tracing/trace.py:86-105 | a hit's colour is the object colour times ambient_int plus a non-negative light sum |
| Trace.ShadeReflection | src/ray_tracing/trace.py:89-112 | with a unit normal, the returned direction mirrors the ray about the normal: the normal part is flipped, the length kept, and reflecting back gives the ray; the point is biased twice, along N and then along R |
| Trace.ShadeLight | src/ray_tracing/trace.py:94-105 | one pass of the light loop: the colour is unchanged for a shadowed light or a non-positive intensity, otherwise the object colour times the intensity is added |
| Trace.ShadeLights | src/ray_tracing/trace.py:92-105 | the light loop computes Lit over all lights with their shadow flags |
| Trace.Trace | src/ray_tracing/trace.py:50-112 | trace computes TraceSpec: black and the sentinels on a miss, otherwise the shading of the nearest hit |
| Trace.TraceMiss | src/ray_tracing/trace.py:57-58 | a miss returns black with the sentinel point and direction (404, 404, 404) |
| Trace.HalfPow | src/ray_tracing/trace.py:127 | the weight 0.5^k lies in (0, 1] |
| Trace.ReflectionWeights | src/ray_tracing/trace.py:121-127 | the weights 0.5^1 .. 0.5^k sum to 1 - 0.5^k |
| Trace.Reflect | src/ray_tracing/trace.py:122-127 | one pass of the reflection loop is one Bounce: skipped after a sentinel, otherwise trace the reflected ray and add its colour with weight 0.5^(i+1) |
| Trace.Sample | src/ray_tracing/trace.py:116-129 | sample returns SampleSpec: the first trace followed by refl_depth bounces, none for a depth of 0 or less |
| Trace.StoppedIsFinal | src/ray_tracing/trace.py:122-123 | once the sentinel is reached, further bounces change nothing |
| Trace.SampleMissIsBlack | src/ray_tracing/trace.py:119-129 | a primary ray that hits nothing gives black, whatever the depth |
| Trace.SampleAfterBounded | src/ray_tracing/trace.py:119-127 | when every traced colour channel lies in [0, c], after k bounces every channel lies in [0, c + c/2 + ... + c/2^k] |
| Trace.SampleBounded | src/ray_tracing/trace.py:116-129 | when every traced colour channel lies in [0, c], every channel of sample lies in [0, (2 - 0.5^k) c] for depth k |
| Trace.SampleWithoutBounces | src/ray_tracing/trace.py:119-121 | with depth 0 or less, sample returns the colour of the first trace |
| Scenes.SetSlice3 | src/scene/scene.py:19 | writes the three components at start..start+2 and nothing else |
| Scenes.Sphere.ToArray | src/scene/scene.py:17-23 | a fresh 7-entry array holding origin, radius and colour |
| Scenes.Light.ToArray | src/scene/scene.py:32-36 | a fresh 3-entry array holding the origin |
| Scenes.Plane.ToArray | src/scene/scene.py:63-69 | a fresh 9-entry array holding origin, unit normal and colour |
| Scenes.Rectangle.ToArrayAsWritten | src/scene/scene.py:45-54 | as written: a fresh 12-entry array holding origin, u, v and colour |
| Scenes.Rectangle.ToArray | src/scene/scene.py:45-54 | corrected: the same twelve entries followed by the orientation flag at row 12 |
| Scenes.SetColumn | src/scene/scene.py:83 | data[:, i] = col: column i becomes col and every other column is unchanged |
| Scenes.Scene.GetSpheres | src/scene/scene.py:79-85 | a fresh 7 x n matrix whose column i is sphere i's record |
| Scenes.Scene.GetLights | src/scene/scene.py:102-108 | a fresh 3 x n matrix whose column i is light i's record |
| Scenes.Scene.GetPlanes | src/scene/scene.py:94-100 | a fresh 9 x n matrix whose column i is plane i's record |
| Scenes.Scene.GetRectanglesAsWritten | src/scene/scene.py:87-92 | as written: a fresh 12 x n matrix of the rectangle records |
| Scenes.Scene.GetRectangles | src/scene/scene.py:87-92 | corrected: a fresh 13 x n matrix of the rectangle records with their orientation row |
| Scenes.Scene.GenerateScene | src/scene/scene.py:110-111 | corrected: the four fresh buffers in the order spheres, lights, planes, rectangles, each holding its objects' records, the rectangles in the 13-row packing |
| Scenes.Scene.GenerateSceneAsWritten | src/scene/scene.py:110-111 | as written: the same four fresh buffers, the rectangles in the source's 12-row packing |
| Scenes.Scene.Buffers | src/scene/scene.py:110-111 | the packed scene has the row counts the tracer's accessors read, and one column per object |
| Scenes.SphereColumnsRoundTrip | src/scene/scene.py:17-23 | the sphere accessors read back each sphere's centre, radius and colour |
| Scenes.LightColumnsRoundTrip | src/scene/scene.py:32-36 | get_vector_to_light reads back each light's position |
| Scenes.PlaneColumnsRoundTrip | src/scene/scene.py:63-69 | the plane accessors read back origin and colour; the stored normal is the given one normalised, which get_plane_normal keeps, and it has unit length |
| Scenes.RectangleColumnsRoundTrip | src/scene/scene.py:45-54 | the rectangle accessors read back origin, edges and colour; get_rect_normal gives normalize(cross(u, v)), negated exactly when the flag is 0 |
| Scenes.RectangleRowMissingAsWritten | src/scene/scene.py:45 | as written, a rectangle column has 12 rows, so the buffers of any scene with a rectangle lack row 12, which get_rect_normal reads |

## Left out

- Floating point is not modelled. The source computes in float32 and float64, and the model uses exact real arithmetic. Rounding, overflow, infinities and NaN are not modelled.
- `normalize` of the zero vector divides by zero in the source. The model returns the zero vector instead; a plane stored with a zero normal is the visible case (scene.py:66 gives NaN).
- The square root is a parameter `sqrt` and is never computed. The properties that depend on it require `IsSqrt(sqrt)`, which says it is the non-negative root.
- Intersections.IntersectRaySphere: for a zero ray direction the source normalises to NaN, every comparison fails and it answers -999.0. The model answers -999.0 directly when a = 0, and the lemmas about the sphere test require a non-zero direction.
- The paraboloid test, get_parabaloid_color and get_parabaloid_normal are not part of this model. Their source is not available; they enter as the functions of `Paraboloids`.
- `src/main.py` is not modelled: the render kernel, the CUDA launch, the per-pixel thread indexing, the camera and image output. It is concurrency and I/O around the core.
- Scene.default_scene is not modelled. It is a fixed example scene, and `src/scene/colors.py` is not part of this model.
- `reflection_int` is accepted by `sample` and never used. `Trace.Sample` takes it as `reflectionInt` and does not use it either.
- `to_tuple3` is not modelled. It only converts between array slices and tuples, and the model works on `Vec3` throughout.
- `src/scene/common.py` holds only the type aliases `Vector3D` and `Color`, which are `Vec3` here.
- Inside `Trace`, the buffers are values, not the device arrays. The kernels only read them, so nothing about in-place update or aliasing is lost; `Scenes.Columns` relates the packed arrays to these values.
- Trace.GetIntersection: the source's single function is four methods, one per loop, which GetIntersection calls in order. Likewise the light loop's body is `ShadeLight` and the reflection loop's body is `Reflect`.
- Trace.ShadowFlags: a light counts as shadowed when the ray towards it hits any object, even one beyond the light, as in the source. No property about the light's distance is claimed.
- The trace's `else` branch for an unknown object type (trace.py:83-84) cannot be reached, because get_intersection only reports the four known kinds and 404. The model has no such branch.
- Scenes.Rectangle: the record carries an `orientation` field, which the source's `Rectangle` does not have. It holds the row-12 value that get_rect_normal reads; see Findings.
- Scenes.Scene.GetRectangles: the source spells this method `get_reactangles`.
- Trace.ScanRectangles: calls the corrected test `IntersectRayRectangle`, while trace.py:31 calls the test as written (`IntersectRayRectangleAsWritten`). On the rectangle input of Findings row 1 the model reports a hit where the source misses.
- Trace.GetIntersection: reports hits of the corrected rectangle test, through `ScanRectangles`; the source's get_intersection misses rectangles as Findings row 1 describes.
- Trace.NearestHitIsTestResult: for a rectangle, the reported distance is the answer of the corrected test, not of the test as written.
- Trace.ModelTestsAreFaithful: shows Faithful for the corrected rectangle test; the tests of the source, with the rectangle test as written, do not satisfy it.
- Trace.Trace: inherits the corrected rectangle test from GetIntersection. Run on the as-written buffers, it would also read row 12, which the source's scene lacks (Findings row 2).
- Trace.Sample: inherits the corrected rectangle test through Trace, and with it the same row-12 dependence on the corrected rectangle packing (Findings row 2).
- Scenes.Scene.GenerateScene: packs rectangles with the corrected 13-row record; `GenerateSceneAsWritten` is the source's 12-row version.

## Findings

| source | as written | input that shows it | evidently intended | confidence | as-written member | corrected member |
|---|---|---|---|---|---|---|
| src/ray_tracing/intersections.py:76 | `hit_vector = vector_difference(intersection, rect_origin)`, which is rect_origin - intersection, so the test accepts the parallelogram mirrored through the rectangle's origin | unit square at the origin with u = (1,0,0), v = (0,1,0), n = (0,0,1); ray from (0.5, 0.5, 1) towards (0,0,-1): the centre is hit at t = 1, but the test answers -999.0 | the offset from the rectangle's origin to the hit point, intersection - rect_origin | not executed | Intersections.IntersectRayRectangleAsWritten, Intersections.RectangleAsWrittenMirrors, Intersections.RectangleAsWrittenMissesCentre | Intersections.IntersectRayRectangle, Intersections.RectangleHitIsExact |
| src/scene/scene.py:45-54 with src/ray_tracing/common.py:104 | `Rectangle.data_length` is 12 and `to_array` fills rows 0..11, but `get_rect_normal` reads `rectangles[12, rec_idx]` | any scene with one rectangle: its buffer has 12 rows and row 12 is out of range | a 13th row holding the orientation flag that decides the sign of the normal | not executed | Scenes.Rectangle.ToArrayAsWritten, Scenes.Scene.GetRectanglesAsWritten, Scenes.Scene.GenerateSceneAsWritten, Scenes.RectangleRowMissingAsWritten | Scenes.Rectangle.ToArray, Scenes.Scene.GetRectangles, Scenes.Scene.GenerateScene, Scenes.RectangleColumnsRoundTrip |
