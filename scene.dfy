/**
 * Scene packing of src/scene/scene.py: each object writes a fixed-width
 * record (to_array), and the scene packs the records of a list into a
 * matrix with one column per object (get_spheres, get_lights, get_planes,
 * get_reactangles), which the tracer reads through the accessors of
 * src/ray_tracing/common.py.
 *
 * The records and matrices are float32 in the source and `real` here. The
 * packing methods allocate fresh arrays as the source does; `Columns` reads
 * a packed matrix back as the column sequence the tracer works on.
 */
module Scenes {
  import opened Common
  import opened Trace

  /** Record lengths (data_length). */
  const SphereLength: nat := 7
  const LightLength: nat := 3
  const PlaneLength: nat := 9
  /** Rectangle.data_length as written: no row for the orientation flag. */
  const RectangleLengthAsWritten: nat := 12
  /** With the orientation flag get_rect_normal reads at row 12. */
  const RectangleLength: nat := 13

  /** Writes v into data[start], data[start + 1], data[start + 2]. */
  method SetSlice3(data: array<real>, start: nat, v: Vec3)
    requires start + 3 <= data.Length
    modifies data
    ensures data[..] == old(data[..])[start := v.x][start + 1 := v.y][start + 2 := v.z]
  {
    data[start] := v.x;
    data[start + 1] := v.y;
    data[start + 2] := v.z;
  }

  datatype Sphere = Sphere(origin: Vec3, radius: real, color: Vec3)
  {
    /** Origin at [0:3], radius at [3], colour at [4:7]. */
    function Record(): seq<real>
    {
      [origin.x, origin.y, origin.z, radius, color.x, color.y, color.z]
    }

    method ToArray() returns (data: array<real>)
      ensures fresh(data) && data[..] == Record()
    {
      data := new real[SphereLength](_ => 0.0);
      SetSlice3(data, 0, origin);
      data[3] := radius;
      SetSlice3(data, 4, color);
    }
  }

  datatype Light = Light(origin: Vec3)
  {
    /** The origin at [0:3]. */
    function Record(): seq<real>
    {
      [origin.x, origin.y, origin.z]
    }

    method ToArray() returns (data: array<real>)
      ensures fresh(data) && data[..] == Record()
    {
      data := new real[LightLength](_ => 0.0);
      SetSlice3(data, 0, origin);
    }
  }

  datatype Plane = Plane(origin: Vec3, normal: Vec3, color: Vec3)
  {
    /** Origin at [0:3], the normal divided by its length at [3:6], colour
        at [6:9]. */
    function Record(sqrt: real -> real): seq<real>
    {
      var n := Normalize(sqrt, normal);
      [origin.x, origin.y, origin.z, n.x, n.y, n.z, color.x, color.y, color.z]
    }

    method ToArray(sqrt: real -> real) returns (data: array<real>)
      ensures fresh(data) && data[..] == Record(sqrt)
    {
      data := new real[PlaneLength](_ => 0.0);
      SetSlice3(data, 0, origin);
      SetSlice3(data, 3, Normalize(sqrt, normal));
      SetSlice3(data, 6, color);
    }
  }

  /** A rectangle with its orientation flag: get_rect_normal flips the
      normal cross(u, v) when the flag is 0. */
  datatype Rectangle = Rectangle(origin: Vec3, u: Vec3, v: Vec3, color: Vec3, orientation: real)
  {
    /** The record as to_array writes it: origin, u, v and colour at [0:3],
        [3:6], [6:9] and [9:12], and nothing at row 12. */
    function RecordAsWritten(): seq<real>
    {
      [origin.x, origin.y, origin.z, u.x, u.y, u.z, v.x, v.y, v.z, color.x, color.y, color.z]
    }

    /** The record get_rect_normal expects: the same twelve rows and the
        orientation flag at row 12. */
    function Record(): seq<real>
    {
      RecordAsWritten() + [orientation]
    }

    method ToArrayAsWritten() returns (data: array<real>)
      ensures fresh(data) && data[..] == RecordAsWritten()
    {
      data := new real[RectangleLengthAsWritten](_ => 0.0);
      SetSlice3(data, 0, origin);
      SetSlice3(data, 3, u);
      SetSlice3(data, 6, v);
      SetSlice3(data, 9, color);
    }

    method ToArray() returns (data: array<real>)
      ensures fresh(data) && data[..] == Record()
    {
      data := new real[RectangleLength](_ => 0.0);
      SetSlice3(data, 0, origin);
      SetSlice3(data, 3, u);
      SetSlice3(data, 6, v);
      SetSlice3(data, 9, color);
      data[12] := orientation;
    }
  }

  // ---------------------------------------------------------------------
  // Column matrices
  // ---------------------------------------------------------------------

  /** Column c of a matrix, top to bottom. */
  ghost function ColumnOf(a: array2<real>, c: nat): seq<real>
    requires c < a.Length1
    reads a
  {
    seq(a.Length0, r requires 0 <= r < a.Length0 reads a => a[r, c])
  }

  /** A matrix as the sequence of its columns: the view the tracer has of
      a scene buffer. */
  ghost function Columns(a: array2<real>): Buffer
    reads a
  {
    seq(a.Length1, c requires 0 <= c < a.Length1 reads a => ColumnOf(a, c))
  }

  /** data[:, i] = col. */
  method SetColumn(data: array2<real>, i: nat, col: array<real>)
    requires i < data.Length1 && col.Length == data.Length0
    modifies data
    ensures ColumnOf(data, i) == col[..]
    ensures forall c :: 0 <= c < data.Length1 && c != i ==> ColumnOf(data, c) == old(ColumnOf(data, c))
  {
    for r := 0 to data.Length0
      invariant forall r' :: 0 <= r' < r ==> data[r', i] == col[r']
      invariant forall r', c :: 0 <= r' < data.Length0 && 0 <= c < data.Length1 && (c != i || r <= r') ==>
                  data[r', c] == old(data[r', c])
    {
      data[r, i] := col[r];
    }
  }

  /** The buffers of a list of objects: column i is the record of object i. */
  function SphereColumns(ss: seq<Sphere>): (m: Buffer)
  {
    seq(|ss|, i requires 0 <= i < |ss| => ss[i].Record())
  }

  function LightColumns(ls: seq<Light>): (m: Buffer)
  {
    seq(|ls|, i requires 0 <= i < |ls| => ls[i].Record())
  }

  function PlaneColumns(sqrt: real -> real, ps: seq<Plane>): (m: Buffer)
  {
    seq(|ps|, i requires 0 <= i < |ps| => ps[i].Record(sqrt))
  }

  function RectangleColumnsAsWritten(rs: seq<Rectangle>): (m: Buffer)
  {
    seq(|rs|, i requires 0 <= i < |rs| => rs[i].RecordAsWritten())
  }

  function RectangleColumns(rs: seq<Rectangle>): (m: Buffer)
  {
    seq(|rs|, i requires 0 <= i < |rs| => rs[i].Record())
  }

  // ---------------------------------------------------------------------
  // The scene
  // ---------------------------------------------------------------------

  datatype Scene = Scene(lights: seq<Light>, spheres: seq<Sphere>, planes: seq<Plane>, rectangles: seq<Rectangle>)
  {
    /** A data_length x len(spheres) matrix whose column i is sphere i's
        record. */
    method GetSpheres() returns (data: array2<real>)
      ensures fresh(data) && data.Length0 == SphereLength && data.Length1 == |spheres|
      ensures Columns(data) == SphereColumns(spheres)
    {
      data := new real[SphereLength, |spheres|]((_, _) => 0.0);
      for i := 0 to |spheres|
        invariant forall c :: 0 <= c < i ==> ColumnOf(data, c) == spheres[c].Record()
      {
        var col := spheres[i].ToArray();
        SetColumn(data, i, col);
      }
    }

    method GetLights() returns (data: array2<real>)
      ensures fresh(data) && data.Length0 == LightLength && data.Length1 == |lights|
      ensures Columns(data) == LightColumns(lights)
    {
      data := new real[LightLength, |lights|]((_, _) => 0.0);
      for i := 0 to |lights|
        invariant forall c :: 0 <= c < i ==> ColumnOf(data, c) == lights[c].Record()
      {
        var col := lights[i].ToArray();
        SetColumn(data, i, col);
      }
    }

    method GetPlanes(sqrt: real -> real) returns (data: array2<real>)
      ensures fresh(data) && data.Length0 == PlaneLength && data.Length1 == |planes|
      ensures Columns(data) == PlaneColumns(sqrt, planes)
    {
      data := new real[PlaneLength, |planes|]((_, _) => 0.0);
      for i := 0 to |planes|
        invariant forall c :: 0 <= c < i ==> ColumnOf(data, c) == planes[c].Record(sqrt)
      {
        var col := planes[i].ToArray(sqrt);
        SetColumn(data, i, col);
      }
    }

    /** get_reactangles as written: twelve rows per rectangle. */
    method GetRectanglesAsWritten() returns (data: array2<real>)
      ensures fresh(data) && data.Length0 == RectangleLengthAsWritten && data.Length1 == |rectangles|
      ensures Columns(data) == RectangleColumnsAsWritten(rectangles)
    {
      data := new real[RectangleLengthAsWritten, |rectangles|]((_, _) => 0.0);
      for i := 0 to |rectangles|
        invariant forall c :: 0 <= c < i ==> ColumnOf(data, c) == rectangles[c].RecordAsWritten()
      {
        var col := rectangles[i].ToArrayAsWritten();
        SetColumn(data, i, col);
      }
    }

    /** get_reactangles with the orientation row. */
    method GetRectangles() returns (data: array2<real>)
      ensures fresh(data) && data.Length0 == RectangleLength && data.Length1 == |rectangles|
      ensures Columns(data) == RectangleColumns(rectangles)
    {
      data := new real[RectangleLength, |rectangles|]((_, _) => 0.0);
      for i := 0 to |rectangles|
        invariant forall c :: 0 <= c < i ==> ColumnOf(data, c) == rectangles[c].Record()
      {
        var col := rectangles[i].ToArray();
        SetColumn(data, i, col);
      }
    }

    /** generate_scene as written: the rectangle buffer has twelve rows. */
    method GenerateSceneAsWritten(sqrt: real -> real) returns (s: array2<real>, l: array2<real>, p: array2<real>, r: array2<real>)
      ensures fresh(s) && fresh(l) && fresh(p) && fresh(r)
      ensures Columns(s) == SphereColumns(spheres) && Columns(l) == LightColumns(lights)
      ensures Columns(p) == PlaneColumns(sqrt, planes) && Columns(r) == RectangleColumnsAsWritten(rectangles)
      ensures r.Length0 == RectangleLengthAsWritten
    {
      s := GetSpheres();
      l := GetLights();
      p := GetPlanes(sqrt);
      r := GetRectanglesAsWritten();
    }

    /** The four buffers, in the order spheres, lights, planes, rectangles,
        with the corrected rectangle packing. */
    method GenerateScene(sqrt: real -> real) returns (s: array2<real>, l: array2<real>, p: array2<real>, r: array2<real>)
      ensures fresh(s) && fresh(l) && fresh(p) && fresh(r)
      ensures Columns(s) == SphereColumns(spheres) && Columns(l) == LightColumns(lights)
      ensures Columns(p) == PlaneColumns(sqrt, planes) && Columns(r) == RectangleColumns(rectangles)
    {
      s := GetSpheres();
      l := GetLights();
      p := GetPlanes(sqrt);
      r := GetRectangles();
    }

    /** The tracer's buffers for this scene, with the given paraboloids. */
    function Buffers(sqrt: real -> real, paraboloids: Paraboloids): (b: Trace.Buffers)
      ensures b.WellShaped()
      ensures b.Count(SphereKind) == |spheres| && b.Count(PlaneKind) == |planes|
      ensures b.Count(RectangleKind) == |rectangles| && |b.lights| == |lights|
    {
      Trace.Buffers(SphereColumns(spheres), LightColumns(lights), PlaneColumns(sqrt, planes),
                    RectangleColumns(rectangles), paraboloids)
    }
  }

  // ---------------------------------------------------------------------
  // What the tracer's accessors read back
  // ---------------------------------------------------------------------

  /** The sphere accessors read back each sphere's centre, radius and
      colour. */
  lemma SphereColumnsRoundTrip(ss: seq<Sphere>, i: nat)
    requires i < |ss|
    ensures var m := SphereColumns(ss);
            && 7 <= |m[i]|
            && Column3(m, 0, i) == ss[i].origin
            && m[i][3] == ss[i].radius
            && GetSphereColor(i, m) == ss[i].color
  {
  }

  /** The light accessor reads back each light's position. */
  lemma LightColumnsRoundTrip(sqrt: real -> real, ls: seq<Light>, i: nat, p: Vec3)
    requires i < |ls|
    ensures var m := LightColumns(ls);
            && 3 <= |m[i]|
            && Column3(m, 0, i) == ls[i].origin
            && GetVectorToLight(sqrt, p, m, i) == Normalize(sqrt, VectorDifference(p, ls[i].origin))
  {
  }

  /** The plane accessors read back origin and colour, and the stored
      normal is the given one scaled to unit length, which get_plane_normal
      leaves as it is. */
  lemma PlaneColumnsRoundTrip(sqrt: real -> real, ps: seq<Plane>, i: nat)
    requires IsSqrt(sqrt) && i < |ps|
    ensures var m := PlaneColumns(sqrt, ps);
            && 9 <= |m[i]|
            && Column3(m, 0, i) == ps[i].origin
            && GetPlaneColor(i, m) == ps[i].color
            && Column3(m, 3, i) == Normalize(sqrt, ps[i].normal)
            && GetPlaneNormal(sqrt, i, m) == Normalize(sqrt, ps[i].normal)
            && (0.0 < Dot(ps[i].normal, ps[i].normal) ==> Dot(Column3(m, 3, i), Column3(m, 3, i)) == 1.0)
  {
    var m := PlaneColumns(sqrt, ps);
    assert Column3(m, 3, i) == Normalize(sqrt, ps[i].normal);
    NormalizeIdempotent(sqrt, ps[i].normal);
    if 0.0 < Dot(ps[i].normal, ps[i].normal) {
      NormalizeUnit(sqrt, ps[i].normal);
    }
  }

  /** The rectangle accessors read back origin, edges and colour, and
      get_rect_normal gives cross(u, v) normalised, negated exactly when
      the orientation flag is 0. */
  lemma RectangleColumnsRoundTrip(sqrt: real -> real, rs: seq<Rectangle>, i: nat)
    requires i < |rs|
    ensures var m := RectangleColumns(rs);
            var n := Normalize(sqrt, CrossProduct(rs[i].u, rs[i].v));
            && 13 <= |m[i]|
            && Column3(m, 0, i) == rs[i].origin
            && Column3(m, 3, i) == rs[i].u
            && Column3(m, 6, i) == rs[i].v
            && GetRectangleColor(i, m) == rs[i].color
            && GetRectNormal(sqrt, i, m) == (if rs[i].orientation == 0.0 then Neg(n) else n)
  {
    var m := RectangleColumns(rs);
    assert m[i] == rs[i].Record();
    assert m[i][12] == rs[i].orientation;
  }

  /**
   * As written, a rectangle column has twelve rows, so the orientation
   * entry get_rect_normal reads at row 12 lies past the end of the buffer,
   * and the buffers of any scene with a rectangle lack the rows the tracer
   * reads.
   */
  lemma RectangleRowMissingAsWritten(sqrt: real -> real, sc: Scene, paraboloids: Paraboloids)
    requires |sc.rectangles| > 0
    ensures |RectangleColumnsAsWritten(sc.rectangles)[0]| == 12
    ensures !Trace.Buffers(SphereColumns(sc.spheres), LightColumns(sc.lights), PlaneColumns(sqrt, sc.planes),
                           RectangleColumnsAsWritten(sc.rectangles), paraboloids).WellShaped()
  {
    var m := RectangleColumnsAsWritten(sc.rectangles);
    assert |m[0]| == 12;
  }
}
