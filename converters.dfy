/** `DjlOpenCvConverters`: copying points and cuboids to and from OpenCV
    matrices. A cuboid becomes 9 rows: vertices 0..7 in order, centre last.
    OpenCV stores the coordinates as floats; the model keeps reals. */
module Converters {
  import opened Wrappers
  import opened Points
  import opened OpenCv
  import Cuboids2D
  import Cuboids3D

  /** `copyToPoint(Point p, double scale)`. */
  function CopyToCvPointScaled(p: Point, scale: real): CvPoint
  {
    CvPoint(GetX(p) * scale, GetY(p) * scale)
  }

  /** `copyToPoint(Point p)`. */
  function CopyToCvPoint(p: Point): CvPoint
  {
    CvPoint(GetX(p), GetY(p))
  }

  /** `copyToPoint(Point3D p, double scale)`: z is dropped. */
  function CopyToCvPoint3DScaled(p: Point3D, scale: real): CvPoint
  {
    CvPoint(p.x * scale, p.y * scale)
  }

  /** `copyToPoint(Point3D p)`. */
  function CopyToCvPoint3D(p: Point3D): CvPoint
  {
    CopyToCvPoint3DScaled(p, 1.0)
  }

  /** `copyToPoint(org.opencv.core.Point p)`. */
  function CopyToPoint2D(p: CvPoint): Point2D
  {
    Point2D(p.x, p.y)
  }

  /** How the `copyToPoint` overloads relate: the unscaled ones are the
      scaled ones at 1, the `Point3D` ones ignore z, and a `Point2D` survives
      the trip to OpenCV and back (and an OpenCV point the opposite trip). */
  lemma CopyToPointOverloads(p: Point, q: Point3D, z: real, s: real, cv: CvPoint)
    ensures CopyToCvPoint(p) == CopyToCvPointScaled(p, 1.0)
    ensures CopyToCvPoint3DScaled(q, s) == CopyToCvPoint3DScaled(Point3D(q.x, q.y, z), s)
    ensures CopyToCvPoint3D(q) == CvPoint(q.x, q.y)
    ensures CopyToCvPointScaled(p, s) == CvPoint(GetX(p) * s, GetY(p) * s)
    ensures p.AsPoint2D? ==> CopyToPoint2D(CopyToCvPoint(p)) == p.p2
    ensures CopyToCvPoint(AsPoint2D(CopyToPoint2D(cv))) == cv
  {
  }

  /** `copyToPoint(Mat matrix)`: a 3 x 1 matrix read as (x, y, z). */
  function CopyToPoint3D(m: Mat): (r: Result<Point3D>)
    requires WellFormedMat(m)
    ensures m.rows != 3 ==> r == Failure(PreconditionException("Point matrix has wrong number of rows"))
    ensures m.rows == 3 && m.cols != 1 ==> r == Failure(PreconditionException("Point matrix has wrong number of cols"))
    ensures r.Success? <==> m.rows == 3 && m.cols == 1
    ensures r.Success? ==> |m.data| == 3 && r.value == Point3D(m.data[0], m.data[1], m.data[2])
  {
    if m.rows != 3 then
      Failure(PreconditionException("Point matrix has wrong number of rows"))
    else if m.cols != 1 then
      Failure(PreconditionException("Point matrix has wrong number of cols"))
    else
      Success(Point3D(m.data[0], m.data[1], m.data[2]))
  }

  /** The rows `copyToMatOfPoint2f(c, scale)` produces: every vertex, then
      the centre, all multiplied by `scale`. */
  function Points2f(c: Cuboids2D.Cuboid2D, scale: real): (ps: seq<CvPoint>)
    requires Cuboids2D.AllPresent(c.vertices)
    ensures |ps| == |c.vertices| + 1
    ensures forall i :: 0 <= i < |c.vertices| ==>
              ps[i] == CvPoint(c.vertices[i].value.x * scale, c.vertices[i].value.y * scale)
    ensures ps[|c.vertices|] == CvPoint(c.center.x * scale, c.center.y * scale)
  {
    seq(|c.vertices|, i requires 0 <= i < |c.vertices| =>
      CopyToCvPointScaled(AsPoint2D(c.vertices[i].value), scale))
    + [CopyToCvPointScaled(AsPoint2D(c.center), scale)]
  }

  /** The rows `copyToMatOfPoint3f(c, scale)` produces: every vertex as is,
      then the centre multiplied by `scale`. */
  function Points3f(c: Cuboids3D.Cuboid3D, scale: real): (ps: seq<CvPoint3>)
    requires Cuboids3D.AllPresent(c.vertices)
    ensures |ps| == |c.vertices| + 1
    ensures forall i :: 0 <= i < |c.vertices| ==>
              ps[i] == CvPoint3(c.vertices[i].value.x, c.vertices[i].value.y, c.vertices[i].value.z)
    ensures ps[|c.vertices|] == CvPoint3(c.center.x * scale, c.center.y * scale, c.center.z * scale)
  {
    seq(|c.vertices|, i requires 0 <= i < |c.vertices| =>
      CvPoint3(c.vertices[i].value.x, c.vertices[i].value.y, c.vertices[i].value.z))
    + [CvPoint3(c.center.x * scale, c.center.y * scale, c.center.z * scale)]
  }

  /** `new MatOfFloat(ar).reshape(2, rows)`: consecutive pairs become rows. */
  function Reshape2(ar: seq<real>): (ps: seq<CvPoint>)
    requires |ar| % 2 == 0
    ensures |ps| == |ar| / 2
    ensures forall k :: 0 <= k < |ps| ==> ps[k] == CvPoint(ar[2 * k], ar[2 * k + 1])
  {
    seq(|ar| / 2, k requires 0 <= k < |ar| / 2 => CvPoint(ar[2 * k], ar[2 * k + 1]))
  }

  /** `new MatOfFloat(ar).reshape(3, rows)`: consecutive triples become rows. */
  function Reshape3(ar: seq<real>): (ps: seq<CvPoint3>)
    requires |ar| % 3 == 0
    ensures |ps| == |ar| / 3
    ensures forall k :: 0 <= k < |ps| ==> ps[k] == CvPoint3(ar[3 * k], ar[3 * k + 1], ar[3 * k + 2])
  {
    seq(|ar| / 3, k requires 0 <= k < |ar| / 3 => CvPoint3(ar[3 * k], ar[3 * k + 1], ar[3 * k + 2]))
  }

  /** `copyToMatOfPoint2f(cuboid2d, scale)`: fills a flat float array, two
      entries per point, vertices first and the centre last. A null vertex
      is dereferenced and throws. */
  method CopyToMatOfPoint2f(c: Cuboids2D.Cuboid2D, scale: real) returns (r: Result<MatOfPoint2f>)
    ensures r.Success? <==> Cuboids2D.AllPresent(c.vertices)
    ensures r.Failure? ==> r.error == NullPointerException
    ensures r.Success? ==> r.value.points == Points2f(c, scale)
  {
    var vertices := c.vertices;
    var rows := |vertices| + 1;
    var ar := new real[2 * rows];
    for i := 0 to |vertices|
      invariant forall k :: 0 <= k < i ==> vertices[k].Some?
      invariant forall k :: 0 <= k < i ==>
                  ar[2 * k] == vertices[k].value.x * scale && ar[2 * k + 1] == vertices[k].value.y * scale
    {
      var p := vertices[i];
      if p.None? {
        return Failure(NullPointerException);
      }
      var j := i * 2;
      ar[j] := p.value.x * scale;
      ar[j + 1] := p.value.y * scale;
    }
    ar[ar.Length - 2] := c.center.x * scale;
    ar[ar.Length - 1] := c.center.y * scale;
    var points := Reshape2(ar[..]);
    FilledArrayIsPoints2f(c, scale, ar[..]);
    r := Success(MatOfPoint2f(points));
  }

  /** The flat array `copyToMatOfPoint2f` fills, read back as rows. */
  lemma FilledArrayIsPoints2f(c: Cuboids2D.Cuboid2D, scale: real, ar: seq<real>)
    requires Cuboids2D.AllPresent(c.vertices) && |ar| == 2 * (|c.vertices| + 1)
    requires forall k :: 0 <= k < |c.vertices| ==>
               ar[2 * k] == c.vertices[k].value.x * scale && ar[2 * k + 1] == c.vertices[k].value.y * scale
    requires ar[|ar| - 2] == c.center.x * scale && ar[|ar| - 1] == c.center.y * scale
    ensures Reshape2(ar) == Points2f(c, scale)
  {
    var ps, qs := Reshape2(ar), Points2f(c, scale);
    forall k | 0 <= k < |ps|
      ensures ps[k] == qs[k]
    {
      if k < |c.vertices| {
        assert ar[2 * k] == c.vertices[k].value.x * scale;
      } else {
        assert 2 * k == |ar| - 2;
      }
    }
  }

  /** `copyToMatOfPoint2f(cuboid2d)`: the same at scale 1. */
  method CopyToMatOfPoint2fUnscaled(c: Cuboids2D.Cuboid2D) returns (r: Result<MatOfPoint2f>)
    ensures r.Success? <==> Cuboids2D.AllPresent(c.vertices)
    ensures r.Failure? ==> r.error == NullPointerException
    ensures r.Success? ==> r.value.points == Points2f(c, 1.0)
  {
    r := CopyToMatOfPoint2f(c, 1.0);
  }

  /** `copyToMatOfPoint3f(cuboid3d, scale)`: three entries per point,
      vertices copied as they are and only the centre scaled. */
  method CopyToMatOfPoint3f(c: Cuboids3D.Cuboid3D, scale: real) returns (r: Result<MatOfPoint3f>)
    ensures r.Success? <==> Cuboids3D.AllPresent(c.vertices)
    ensures r.Failure? ==> r.error == NullPointerException
    ensures r.Success? ==> r.value.points == Points3f(c, scale)
  {
    var vertices := c.vertices;
    var rows := |vertices| + 1;
    var ar := new real[3 * rows];
    for i := 0 to |vertices|
      invariant forall k :: 0 <= k < i ==> vertices[k].Some?
      invariant forall k :: 0 <= k < i ==>
                  ar[3 * k] == vertices[k].value.x && ar[3 * k + 1] == vertices[k].value.y
                  && ar[3 * k + 2] == vertices[k].value.z
    {
      var p := vertices[i];
      if p.None? {
        return Failure(NullPointerException);
      }
      var j := i * 3;
      ar[j] := p.value.x;
      ar[j + 1] := p.value.y;
      ar[j + 2] := p.value.z;
    }
    ar[ar.Length - 3] := c.center.x * scale;
    ar[ar.Length - 2] := c.center.y * scale;
    ar[ar.Length - 1] := c.center.z * scale;
    var points := Reshape3(ar[..]);
    assert points == Points3f(c, scale) by {
      forall k | 0 <= k < rows
        ensures points[k] == Points3f(c, scale)[k]
      {
        if k < |vertices| {
          assert ar[3 * k] == vertices[k].value.x;
        }
      }
    }
    r := Success(MatOfPoint3f(points));
  }

  /** `copyToMatOfPoint3f(cuboid3d)`: the same at scale 1. */
  method CopyToMatOfPoint3fUnscaled(c: Cuboids3D.Cuboid3D) returns (r: Result<MatOfPoint3f>)
    ensures r.Success? <==> Cuboids3D.AllPresent(c.vertices)
    ensures r.Failure? ==> r.error == NullPointerException
    ensures r.Success? ==> r.value.points == Points3f(c, 1.0)
  {
    r := CopyToMatOfPoint3f(c, 1.0);
  }

  /** `copyToCuboid2D(mat)`: exactly 9 rows, the last one the centre and the
      first 8 the vertices. */
  function CopyToCuboid2D(m: MatOfPoint2f): (r: Result<Cuboids2D.Cuboid2D>)
    ensures r.Success? <==> |m.points| == 9
    ensures r.Failure? ==> r.error == PreconditionException("Received wrong number of vertices")
    ensures r.Success? ==> Cuboids2D.Valid(r.value) && Cuboids2D.AllPresent(r.value.vertices)
    ensures r.Success? ==> r.value.center == CopyToPoint2D(m.points[8])
    ensures r.Success? ==> forall i :: 0 <= i < 8 ==> r.value.vertices[i] == Some(CopyToPoint2D(m.points[i]))
  {
    var vertices := seq(|m.points|, i requires 0 <= i < |m.points| => CopyToPoint2D(m.points[i]));
    if |vertices| != 9 then
      Failure(PreconditionException("Received wrong number of vertices"))
    else
      var slots := seq(8, i requires 0 <= i < 8 => Some(vertices[i]));
      Cuboids2D.NewCuboid2D(vertices[8], slots)
  }

  /** Round trip: a complete cuboid copied to a matrix at scale 1 and back
      is the same cuboid. */
  lemma CuboidRoundTrip(c: Cuboids2D.Cuboid2D)
    requires Cuboids2D.Valid(c) && Cuboids2D.AllPresent(c.vertices)
    ensures CopyToCuboid2D(MatOfPoint2f(Points2f(c, 1.0))) == Success(c)
  {
    var ps := Points2f(c, 1.0);
    assert |c.vertices| == 8;
    assert ps[8] == CvPoint(c.center.x * 1.0, c.center.y * 1.0);
    forall i | 0 <= i < 8
      ensures Some(CopyToPoint2D(ps[i])) == c.vertices[i]
    {
      assert ps[i] == CvPoint(c.vertices[i].value.x * 1.0, c.vertices[i].value.y * 1.0);
    }
    var r := CopyToCuboid2D(MatOfPoint2f(ps));
    assert r.value.vertices == c.vertices;
  }

  /** Round trip the other way: a 9-row matrix read as a cuboid and copied
      back at scale 1 gives the same rows. */
  lemma MatrixRoundTrip(m: MatOfPoint2f)
    requires |m.points| == 9
    ensures CopyToCuboid2D(m).Success?
    ensures Points2f(CopyToCuboid2D(m).value, 1.0) == m.points
  {
    var c := CopyToCuboid2D(m).value;
    var ps := Points2f(c, 1.0);
    assert |c.vertices| == 8;
    forall k | 0 <= k < 9
      ensures ps[k] == m.points[k]
    {
      if k < 8 {
        assert c.vertices[k] == Some(CopyToPoint2D(m.points[k]));
      }
    }
  }
}
