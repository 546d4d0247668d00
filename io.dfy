/** The decoder's intermediate and final records: `AffinityFields`,
    `OutputTensor`, `Pose` and `OutputPoses`. */
module Io {
  import opened Wrappers
  import opened Points
  import opened NDArrays
  import opened OpenCv
  import opened Cuboids2D
  import opened Cuboids3D

  /** The affinity channels of the network output; field `f` is the pair of
      channels `2f` (x component) and `2f + 1` (y component). */
  datatype AffinityFields = AffinityFields(affinities: NDArray)

  /** Java's `(long)` cast of a double: truncation toward zero. */
  function TruncateToLong(v: real): (r: int)
    ensures v >= 0.0 ==> 0 <= r && r as real <= v < r as real + 1.0
    ensures v < 0.0 ==> r <= 0 && r as real - 1.0 < v <= r as real
  {
    if v >= 0.0 then v.Floor else -((-v).Floor)
  }

  /** Whether `getValue(fieldId, x, y)` reads inside the array: both channels
      of the field exist and the truncated coordinates fall inside a map. */
  predicate InRange(a: AffinityFields, fieldId: int, x: real, y: real)
  {
    var t := a.affinities;
    |t.shape| == 3 && 0 <= fieldId && 2 * fieldId + 1 < t.shape[0]
    && 0 <= TruncateToLong(y) < t.shape[1] && 0 <= TruncateToLong(x) < t.shape[2]
  }

  /** `getValue(fieldId, x, y)`. */
  function GetValue(a: AffinityFields, fieldId: int, x: real, y: real): (r: Result<Vector2f>)
    requires WellFormed(a.affinities)
    ensures r.Success? <==> InRange(a, fieldId, x, y)
    ensures r.Failure? ==> r.error == IndexOutOfBoundsException
    ensures r.Success? ==>
              var row, col := TruncateToLong(y), TruncateToLong(x);
              r.value.x == Element(a.affinities, 2 * fieldId, row, col)
              && r.value.y == Element(a.affinities, 2 * fieldId + 1, row, col)
  {
    if !InRange(a, fieldId, x, y) then
      Failure(IndexOutOfBoundsException)
    else
      var row, col := TruncateToLong(y), TruncateToLong(x);
      Success(Vector2f(Element(a.affinities, fieldId * 2, row, col),
                       Element(a.affinities, fieldId * 2 + 1, row, col)))
  }

  /** `getValue(fieldId, vertex)`. */
  function GetValueAt(a: AffinityFields, fieldId: int, vertex: Point): (r: Result<Vector2f>)
    requires WellFormed(a.affinities)
  {
    GetValue(a, fieldId, GetX(vertex), GetY(vertex))
  }

  /** The point overload reads the vector at the point's coordinates, and all
      points inside the same unit cell of the map read the same vector. */
  lemma GetValueAtPoint(a: AffinityFields, fieldId: int, p: Point, q: Point)
    requires WellFormed(a.affinities)
    ensures GetValueAt(a, fieldId, p) == GetValue(a, fieldId, GetX(p), GetY(p))
    ensures TruncateToLong(GetX(p)) == TruncateToLong(GetX(q))
            && TruncateToLong(GetY(p)) == TruncateToLong(GetY(q))
            ==> GetValueAt(a, fieldId, p) == GetValueAt(a, fieldId, q)
  {
  }

  /** `size()`: the first dimension, i.e. the number of channels, not the
      number of two-channel fields. */
  function Size(a: AffinityFields): (n: nat)
    requires |a.affinities.shape| >= 1
  {
    a.affinities.shape[0]
  }

  /** The raw network output, its belief-map channels and its affinity
      channels. */
  datatype OutputTensor = OutputTensor(tensor: NDArray, beliefMaps: NDArray, affinities: AffinityFields)

  /** `Pose`: the object's position and its rotation vector. */
  datatype Pose = Pose(position: Point3D, orientation: Vector3d)

  /** The fields of the `OutputPoses` record. */
  datatype OutputPoses = OutputPoses(objectCuboidModel: Cuboid3D, objects2d: seq<Cuboid2D>, poses: seq<Pose>)

  /** The compact constructor of `OutputPoses`. */
  function NewOutputPoses(objectCuboidModel: Cuboid3D, objects2d: seq<Cuboid2D>, poses: seq<Pose>): (r: Result<OutputPoses>)
    ensures r.Success? <==> |objects2d| == |poses|
    ensures r.Failure? ==> r.error == PreconditionException("Mismatch between number of 2D objects and poses")
    ensures r.Success? ==> r.value.objectCuboidModel == objectCuboidModel
                           && r.value.objects2d == objects2d && r.value.poses == poses
  {
    if |objects2d| != |poses| then
      Failure(PreconditionException("Mismatch between number of 2D objects and poses"))
    else
      Success(OutputPoses(objectCuboidModel, objects2d, poses))
  }

  /** `size()`: the number of poses. */
  function PosesSize(o: OutputPoses): nat
  {
    |o.poses|
  }

  /** Every constructed `OutputPoses` has as many 2D objects as poses, so
      `size()` counts both. */
  lemma ConstructedPosesSize(objectCuboidModel: Cuboid3D, objects2d: seq<Cuboid2D>, poses: seq<Pose>)
    requires NewOutputPoses(objectCuboidModel, objects2d, poses).Success?
    ensures PosesSize(NewOutputPoses(objectCuboidModel, objects2d, poses).value) == |objects2d|
    ensures PosesSize(NewOutputPoses(objectCuboidModel, objects2d, poses).value) == |poses|
  {
  }
}
