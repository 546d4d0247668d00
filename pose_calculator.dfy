/** `CuboidPoseCalculator`: solves the pose of every detected 2D cuboid
    against the 3D cuboid model and collects the poses and the re-projected
    cuboids in two lists kept in lockstep. `solvePnP`, `projectPoints` and
    `copyToVector3d` are OpenCV and math-library calls, given as functions. */
module PoseCalculator {
  import opened Wrappers
  import opened Points
  import opened OpenCv
  import opened Converters
  import opened Io
  import Cuboids2D
  import Cuboids3D

  /** The foreign calls of `findPose`. `solvePnP` gives `(rvec, tvec)`, or
      `None` when OpenCV throws; `projectPoint` is `projectPoints` for one
      point (OpenCV projects every point on its own). */
  datatype PnpSolver = PnpSolver(
    solvePnP: (MatOfPoint3f, MatOfPoint2f, CvMat, CvMat, PnpMethod) -> Option<(CvMat, CvMat)>,
    projectPoint: (CvPoint3, CvMat, CvMat, CvMat, CvMat) -> CvPoint,
    copyToVector3d: CvMat -> Vector3d)

  /** The points and the method `findPose` hands to `solvePnP` for an input of
      at least 4 rows: 4 or 5 rows are cut to the first 4 and use P3P, 6 or
      more are used whole with the iterative method. Cutting a 3D matrix of
      fewer than 4 rows makes `rowRange` throw. */
  function SolverInput(points2d: MatOfPoint2f, points3d: MatOfPoint3f): (r: Result<(MatOfPoint2f, MatOfPoint3f, PnpMethod)>)
    requires |points2d.points| >= 4
  {
    if |points2d.points| < 6 then
      if |points2d.points| != 4 then
        if |points3d.points| < 4 then Failure(CvException)
        else Success((RowRange2f(points2d, 4), RowRange3f(points3d, 4), SolvePnpP3P))
      else Success((points2d, points3d, SolvePnpP3P))
    else Success((points2d, points3d, SolvePnpIterative))
  }

  /** Method selection by row count. */
  lemma SolverSelection(points2d: MatOfPoint2f, points3d: MatOfPoint3f)
    requires |points2d.points| >= 4
    ensures var n := |points2d.points|;
            var r := SolverInput(points2d, points3d);
            (n == 4 ==> r == Success((points2d, points3d, SolvePnpP3P)))
            && (n == 5 && |points3d.points| >= 4 ==>
                  r.Success? && r.value.2 == SolvePnpP3P
                  && r.value.0.points == points2d.points[..4] && r.value.1.points == points3d.points[..4])
            && (n == 5 && |points3d.points| < 4 ==> r == Failure(CvException))
            && (n >= 6 ==> r == Success((points2d, points3d, SolvePnpIterative)))
    ensures SolverInput(points2d, points3d).Success? ==>
              var (p2, p3, pnpMethod) := SolverInput(points2d, points3d).value;
              (pnpMethod == SolvePnpP3P <==> |points2d.points| < 6)
              && (pnpMethod == SolvePnpP3P ==> |p2.points| == 4)
              && (pnpMethod == SolvePnpIterative ==> p2 == points2d && p3 == points3d)
  {
  }

  /** The translation with a negative z negated as a whole. */
  function UprightPosition(p: Point3D): (q: Point3D)
    ensures q.z >= 0.0
    ensures q == p || q == Scaled3(p, -1.0)
    ensures p.z >= 0.0 <==> q == p
  {
    if p.z < 0.0 then Scaled3(p, -1.0) else p
  }

  /** The calculator's fields. */
  class CuboidPoseCalculator {
    const cuboidModel3d: Cuboids3D.Cuboid3D
    const cameraMat: CvMat
    const distortionMat: CvMat
    const pointsModel3d: MatOfPoint3f
    const scale: real
    const solver: PnpSolver
    var poses: seq<Pose>
    var objects: seq<Cuboids2D.Cuboid2D>

    /** The model has 8 present vertices and 9 model points, and the two
        output lists have the same length, every pose in front of the
        camera. */
    predicate Valid()
      reads this
    {
      Cuboids3D.Valid(cuboidModel3d) && Cuboids3D.AllPresent(cuboidModel3d.vertices)
      && pointsModel3d.points == Points3f(cuboidModel3d, 1.0)
      && |poses| == |objects|
      && (forall i :: 0 <= i < |poses| ==> poses[i].position.z >= 0.0)
    }

    /** The constructor, for a model whose vertices are all present (see
        `NewCuboidPoseCalculator` for the other case). */
    constructor (cuboidModel3d: Cuboids3D.Cuboid3D, cameraMat: CvMat, distortionMat: CvMat,
                 scale: real, solver: PnpSolver)
      requires Cuboids3D.Valid(cuboidModel3d) && Cuboids3D.AllPresent(cuboidModel3d.vertices)
      ensures Valid()
      ensures this.cuboidModel3d == cuboidModel3d && this.cameraMat == cameraMat
      ensures this.distortionMat == distortionMat && this.scale == scale && this.solver == solver
      ensures poses == [] && objects == []
    {
      var model := CopyToMatOfPoint3fUnscaled(cuboidModel3d);
      this.cuboidModel3d := cuboidModel3d;
      this.scale := scale;
      this.cameraMat := cameraMat;
      this.distortionMat := distortionMat;
      this.pointsModel3d := model.value;
      this.solver := solver;
      poses := [];
      objects := [];
    }

    /** `projectPoints(pointsModel3d, rvec, tvec, ...)`: every model point
        projected with the solved pose. */
    function ProjectModel(rvec: CvMat, tvec: CvMat): (m: MatOfPoint2f)
      ensures |m.points| == |pointsModel3d.points|
      ensures forall i :: 0 <= i < |m.points| ==>
                m.points[i] == solver.projectPoint(pointsModel3d.points[i], rvec, tvec, cameraMat, distortionMat)
    {
      MatOfPoint2f(seq(|pointsModel3d.points|, i requires 0 <= i < |pointsModel3d.points| =>
        solver.projectPoint(pointsModel3d.points[i], rvec, tvec, cameraMat, distortionMat)))
    }

    /** The cuboid `findPose` appends: the full model projected with the
        solved pose, read back as a cuboid (rows 0..7 the vertices, row 8
        the centre). */
    function ProjectedCuboid(rvec: CvMat, tvec: CvMat): (c: Cuboids2D.Cuboid2D)
      requires |pointsModel3d.points| == 9
      ensures Cuboids2D.Valid(c) && Cuboids2D.AllPresent(c.vertices)
      ensures forall i :: 0 <= i < 8 ==>
                c.vertices[i] == Some(CopyToPoint2D(solver.projectPoint(pointsModel3d.points[i], rvec, tvec, cameraMat, distortionMat)))
      ensures c.center == CopyToPoint2D(solver.projectPoint(pointsModel3d.points[8], rvec, tvec, cameraMat, distortionMat))
    {
      CopyToCuboid2D(ProjectModel(rvec, tvec)).value
    }

    /** What `findPose(points2d, points3d)` does: `None` when it returns
        false, otherwise the pose and the cuboid it appends. */
    function FindPoseSpec(points2d: MatOfPoint2f, points3d: MatOfPoint3f): (r: Result<Option<(Pose, Cuboids2D.Cuboid2D)>>)
      requires |pointsModel3d.points| == 9
      ensures |points2d.points| < 4 <==> r == Success(None)
      ensures |points2d.points| >= 4 && SolverInput(points2d, points3d).Failure?
              ==> r == Failure(SolverInput(points2d, points3d).error)
      ensures |points2d.points| >= 4 && SolverInput(points2d, points3d).Success?
              && |SolverInput(points2d, points3d).value.0.points| != |SolverInput(points2d, points3d).value.1.points|
              ==> r == Failure(PreconditionException("Vertex count mismatch"))
      ensures |points2d.points| >= 4 && SolverInput(points2d, points3d).Success?
              && |SolverInput(points2d, points3d).value.0.points| == |SolverInput(points2d, points3d).value.1.points|
              ==> var (p2, p3, pnpMethod) := SolverInput(points2d, points3d).value;
                  var solved := solver.solvePnP(p3, p2, cameraMat, distortionMat, pnpMethod);
                  (solved.None? ==> r == Failure(CvException))
                  && (solved.Some? && (solved.value.1.rows != 3 || solved.value.1.cols != 1)
                      ==> r == Failure(CopyToPoint3D(solved.value.1).error))
                  && (solved.Some? && solved.value.1.rows == 3 && solved.value.1.cols == 1
                      ==> var (rvec, tvec) := solved.value;
                          r == Success(Some((Pose(UprightPosition(Point3D(tvec.data[0], tvec.data[1], tvec.data[2])),
                                                  solver.copyToVector3d(rvec)),
                                             ProjectedCuboid(rvec, tvec)))))
      ensures r.Success? && r.value.Some? ==>
                SolverInput(points2d, points3d).Success?
                && var (p2, p3, pnpMethod) := SolverInput(points2d, points3d).value;
                   |p2.points| == |p3.points|
                   && solver.solvePnP(p3, p2, cameraMat, distortionMat, pnpMethod).Some?
                   && var (rvec, tvec) := solver.solvePnP(p3, p2, cameraMat, distortionMat, pnpMethod).value;
                      var (pose, cuboid) := r.value.value;
                      cuboid == ProjectedCuboid(rvec, tvec)
                      && pose.orientation == solver.copyToVector3d(rvec)
                      && pose.position.z >= 0.0
                      && tvec.rows == 3 && tvec.cols == 1
                      && pose.position == UprightPosition(Point3D(tvec.data[0], tvec.data[1], tvec.data[2]))
                      && (pose.position == Point3D(tvec.data[0], tvec.data[1], tvec.data[2])
                          || pose.position == Point3D(-tvec.data[0], -tvec.data[1], -tvec.data[2]))
    {
      if |points2d.points| < 4 then Success(None)
      else
        match SolverInput(points2d, points3d)
        case Failure(e) => Failure(e)
        case Success((p2, p3, pnpMethod)) =>
          if |p2.points| != |p3.points| then Failure(PreconditionException("Vertex count mismatch"))
          else
            match solver.solvePnP(p3, p2, cameraMat, distortionMat, pnpMethod)
            case None => Failure(CvException)
            case Some((rvec, tvec)) =>
              match CopyToPoint3D(tvec)
              case Failure(e) => Failure(e)
              case Success(position) =>
                Success(Some((Pose(UprightPosition(position), solver.copyToVector3d(rvec)), ProjectedCuboid(rvec, tvec))))
    }

    /** `findPose(points2d, points3d)`. */
    method FindPose(points2d: MatOfPoint2f, points3d: MatOfPoint3f) returns (r: Result<bool>)
      requires Valid()
      modifies this
      ensures Valid()
      ensures var spec := FindPoseSpec(points2d, points3d);
              (r.Success? <==> spec.Success?)
              && (r.Failure? ==> r.error == spec.error)
              && (r.Success? ==> (r.value <==> spec.value.Some?))
      ensures var spec := FindPoseSpec(points2d, points3d);
              if spec.Success? && spec.value.Some? then
                poses == old(poses) + [spec.value.value.0] && objects == old(objects) + [spec.value.value.1]
              else
                poses == old(poses) && objects == old(objects)
    {
      var vertexCount := |points2d.points|;
      if vertexCount < 4 {
        return Success(false);
      }
      var p2, p3 := points2d, points3d;
      var pnpMethod := SolvePnpIterative;
      if |p2.points| < 6 {
        if |p2.points| != 4 {
          p2 := RowRange2f(p2, 4);
          if |p3.points| < 4 {
            return Failure(CvException);
          }
          p3 := RowRange3f(p3, 4);
        }
        pnpMethod := SolvePnpP3P;
      }
      assert SolverInput(points2d, points3d) == Success((p2, p3, pnpMethod));
      if |p2.points| != |p3.points| {
        return Failure(PreconditionException("Vertex count mismatch"));
      }
      var solved := solver.solvePnP(p3, p2, cameraMat, distortionMat, pnpMethod);
      if solved.None? {
        return Failure(CvException);
      }
      var (rvec, tvec) := solved.value;
      var projected := ProjectModel(rvec, tvec);
      var copied := CopyToPoint3D(tvec);
      if copied.Failure? {
        return Failure(copied.error);
      }
      var position := copied.value;
      if position.z < 0.0 {
        position := Scaled3(position, -1.0);
      }
      var orientation := solver.copyToVector3d(rvec);
      poses := poses + [Pose(position, orientation)];
      objects := objects + [CopyToCuboid2D(projected).value];
      assert objects[|objects| - 1] == ProjectedCuboid(rvec, tvec);
      return Success(true);
    }

    /** `createCuboid3dModel(cuboid2d)`: the model itself when no 2D vertex
        is missing, else the model with the vertices the 2D cuboid lacks
        removed. */
    function CreateCuboid3dModel(cuboid2d: Cuboids2D.Cuboid2D): (r: Cuboids3D.Cuboid3D)
      requires Cuboids2D.Valid(cuboid2d) && Cuboids3D.Valid(cuboidModel3d)
      ensures Cuboids2D.MissingVertexCount(cuboid2d) == 0 ==> r == cuboidModel3d
      ensures Cuboids3D.Valid(r) && r.center == cuboidModel3d.center
      ensures Cuboids2D.MissingVertexCount(cuboid2d) != 0 ==>
                forall i :: 0 <= i < 8 ==>
                  r.vertices[i] == if cuboid2d.vertices[i].Some? then cuboidModel3d.vertices[i] else None
    {
      if Cuboids2D.MissingVertexCount(cuboid2d) == 0 then cuboidModel3d
      else
        var vertices := seq(Cuboids2D.VertexCount, i requires 0 <= i < Cuboids2D.VertexCount =>
          if cuboid2d.vertices[i] != None then cuboidModel3d.vertices[i] else None);
        Cuboids3D.NewCuboid3D(cuboidModel3d.center, vertices).value
    }

    /** With a complete model, the 3D cuboid has a vertex exactly where the
        2D cuboid has one, so both miss the same number of vertices. */
    lemma MaskedModelMatches(cuboid2d: Cuboids2D.Cuboid2D)
      requires Cuboids2D.Valid(cuboid2d)
      requires Cuboids3D.Valid(cuboidModel3d) && Cuboids3D.AllPresent(cuboidModel3d.vertices)
      ensures forall i :: 0 <= i < 8 ==>
                (CreateCuboid3dModel(cuboid2d).vertices[i].Some? <==> cuboid2d.vertices[i].Some?)
      ensures Cuboids3D.MissingVertexCount(CreateCuboid3dModel(cuboid2d)) == Cuboids2D.MissingVertexCount(cuboid2d)
    {
      var r := CreateCuboid3dModel(cuboid2d);
      if Cuboids2D.MissingVertexCount(cuboid2d) == 0 {
        CountNoneBounded(cuboid2d.vertices);
      }
      CountNoneSamePattern(r.vertices, cuboid2d.vertices);
    }

    /** What `calculateAndAddPose(cuboid2d)` does: a null vertex fails the 2D
        copy; otherwise `findPose` on the scaled 2D points and the masked
        model. */
    function CalculateSpec(cuboid2d: Cuboids2D.Cuboid2D): Result<Option<(Pose, Cuboids2D.Cuboid2D)>>
      requires Cuboids2D.Valid(cuboid2d) && Cuboids3D.Valid(cuboidModel3d) && |pointsModel3d.points| == 9
    {
      if !Cuboids2D.AllPresent(cuboid2d.vertices) then Failure(NullPointerException)
      else
        var cuboid3d := CreateCuboid3dModel(cuboid2d);
        if !Cuboids3D.AllPresent(cuboid3d.vertices) then Failure(NullPointerException)
        else FindPoseSpec(MatOfPoint2f(Points2f(cuboid2d, scale)), MatOfPoint3f(Points3f(cuboid3d, 1.0)))
    }

    /** `calculateAndAddPose(cuboid2d)`. */
    method CalculateAndAddPose(cuboid2d: Cuboids2D.Cuboid2D) returns (r: Result<bool>)
      requires Valid() && Cuboids2D.Valid(cuboid2d)
      modifies this
      ensures Valid()
      ensures var spec := CalculateSpec(cuboid2d);
              (r.Success? <==> spec.Success?)
              && (r.Failure? ==> r.error == spec.error)
              && (r.Success? ==> (r.value <==> spec.value.Some?))
      ensures var spec := CalculateSpec(cuboid2d);
              if spec.Success? && spec.value.Some? then
                poses == old(poses) + [spec.value.value.0] && objects == old(objects) + [spec.value.value.1]
              else
                poses == old(poses) && objects == old(objects)
    {
      var points2d := CopyToMatOfPoint2f(cuboid2d, scale);
      if points2d.Failure? {
        return Failure(points2d.error);
      }
      var cuboid3d := CreateCuboid3dModel(cuboid2d);
      var points3d := CopyToMatOfPoint3fUnscaled(cuboid3d);
      if points3d.Failure? {
        return Failure(points3d.error);
      }
      r := FindPose(points2d.value, points3d.value);
    }

    /** A 2D cuboid reaches `findPose` only with all 8 vertices, so the
        solver always sees the 9 rows of the full model and uses the
        iterative method: the P3P branch is never taken from here. */
    lemma CompleteCuboidUsesIterative(cuboid2d: Cuboids2D.Cuboid2D)
      requires Valid() && Cuboids2D.Valid(cuboid2d) && Cuboids2D.AllPresent(cuboid2d.vertices)
      ensures CreateCuboid3dModel(cuboid2d) == cuboidModel3d
      ensures var p2 := MatOfPoint2f(Points2f(cuboid2d, scale));
              |p2.points| == 9
              && SolverInput(p2, pointsModel3d) == Success((p2, pointsModel3d, SolvePnpIterative))
    {
      CountNoneBounded(cuboid2d.vertices);
    }

    /** `getPoses()` and `getObjects()`: one pose per re-projected cuboid. */
    function GetPoses(): (r: seq<Pose>)
      requires Valid()
      reads this
      ensures |r| == |objects| && forall i :: 0 <= i < |r| ==> r[i].position.z >= 0.0
    {
      poses
    }

    function GetObjects(): (r: seq<Cuboids2D.Cuboid2D>)
      requires Valid()
      reads this
      ensures |r| == |poses|
    {
      objects
    }
  }

  /** The constructor in full: converting a model with a null vertex throws. */
  method NewCuboidPoseCalculator(cuboidModel3d: Cuboids3D.Cuboid3D, cameraMat: CvMat, distortionMat: CvMat,
                                 scale: real, solver: PnpSolver) returns (r: Result<CuboidPoseCalculator>)
    requires Cuboids3D.Valid(cuboidModel3d)
    ensures r.Success? <==> Cuboids3D.AllPresent(cuboidModel3d.vertices)
    ensures r.Failure? ==> r.error == NullPointerException
    ensures r.Success? ==> fresh(r.value) && r.value.Valid() && r.value.poses == [] && r.value.objects == []
                           && r.value.cuboidModel3d == cuboidModel3d && r.value.scale == scale
  {
    if !Cuboids3D.AllPresent(cuboidModel3d.vertices) {
      return Failure(NullPointerException);
    }
    var calculator := new CuboidPoseCalculator(cuboidModel3d, cameraMat, distortionMat, scale, solver);
    r := Success(calculator);
  }
}
