/** The OpenCV and math-library value types the decoder passes around. */
module OpenCv {

  /** `org.opencv.core.Point`. */
  datatype CvPoint = CvPoint(x: real, y: real)

  /** `org.opencv.core.Point3`. */
  datatype CvPoint3 = CvPoint3(x: real, y: real, z: real)

  /** A single-channel `Mat` of `rows` x `cols` values, row-major. */
  datatype Mat = Mat(rows: nat, cols: nat, data: seq<real>)

  predicate WellFormedMat(m: Mat)
  {
    |m.data| == m.rows * m.cols
  }

  /** A `Mat` whose values fill its rows and columns. */
  type CvMat = m: Mat | WellFormedMat(m) witness Mat(0, 0, [])

  /** The two PnP solvers the pose calculator chooses between. */
  datatype PnpMethod = SolvePnpIterative | SolvePnpP3P

  /** `id.mathcalc.Vector2f`. */
  datatype Vector2f = Vector2f(x: real, y: real)

  /** `id.mathcalc.Vector3d`. */
  datatype Vector3d = Vector3d(x: real, y: real, z: real)

  /** `MatOfPoint2f`: one 2-channel row per point. */
  datatype MatOfPoint2f = MatOfPoint2f(points: seq<CvPoint>)

  /** `MatOfPoint3f`: one 3-channel row per point. */
  datatype MatOfPoint3f = MatOfPoint3f(points: seq<CvPoint3>)

  /** `Mat.rowRange(0, n)`. */
  function RowRange2f(m: MatOfPoint2f, n: nat): (r: MatOfPoint2f)
    requires n <= |m.points|
    ensures |r.points| == n && forall k :: 0 <= k < n ==> r.points[k] == m.points[k]
  {
    MatOfPoint2f(m.points[..n])
  }

  /** `Mat.rowRange(0, n)`. */
  function RowRange3f(m: MatOfPoint3f, n: nat): (r: MatOfPoint3f)
    requires n <= |m.points|
    ensures |r.points| == n && forall k :: 0 <= k < n ==> r.points[k] == m.points[k]
  {
    MatOfPoint3f(m.points[..n])
  }
}
