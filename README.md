# dope4j decode pipeline, modelled in Dafny

dope4j runs the DOPE (Deep Object Pose Estimation) network and decodes its
output. The output is a 25 x 60 x 80 tensor. Its first 9 channels are belief
maps: one per cuboid vertex, plus one for the cuboid centres. The other 16
channels are affinity fields, which hold a direction vector per vertex. The
decoder turns the tensor into 2D cuboids and 3D poses.

This project models that decode pipeline and the geometric value types it
works on, and proves what the code promises about them:

- **Value types.** `Point2D`, `ExPoint` and `Point3D` (module `Points`), with
  the lexicographic comparator, distances, scaling, and class-sensitive
  `equals`/`hashCode`. `Edge2D` (`Edges`), whose constructor orders its two
  endpoints. `Cuboid2D` and `Cuboid3D` (`Cuboids2D`, `Cuboids3D`): the
  8-slot invariant, the 12 edges, the available and missing counts, and the
  sign table of the dimensions constructor. `OutputPoses`, `Pose`,
  `OutputTensor` and `AffinityFields` (`Io`). The constants in
  `DopeConstants`.
- **Tensor split and keypoints** (`DecoderUtils`). `readDopeOutput` checks
  the shape dimension by dimension and slices channels `[0, 9)` and
  `[9, 25)`. `findKeypoints` is a loop that stops at the first belief map
  with no peak. Tensors are modelled in `NDArrays` as a shape plus row-major
  data.
- **Converters** (`Converters`). The cuboid ⇄ 9-point matrix converters use
  vertices 0..7 first and the centre last. They come with both round trips.
- **Vertex matching** (`VertexMatcher`). `CuboidVertexMatcher.match` is an
  imperative method over per-centre arrays. It is proved equal to a
  specification built from "first nearest centre" and "first best candidate"
  functions, whose meaning is proved separately. The concrete case from the
  unit test is proved too.
- **Pose step** (`PoseCalculator`). `CuboidPoseCalculator` is a class whose
  `poses` and `objects` lists grow in lockstep. It covers solver selection
  by row count, the sign fix of the translation, and masking of the 3D
  model.
- **Orchestration** (`ObjectsDecoding`). `ObjectsDecoder.decode` returns,
  besides its result, the trace of the calls it makes. That trace shows the
  stage order, the hook order and the `close` in `finally`.
- **File mapping** (`Paths`, `FileMappers`). The two mappers are modelled
  over a model of `java.nio.file.Path`: an absolute flag plus a sequence of
  names, with `getParent`, `resolve` and `resolveSibling` as on Unix.

Foreign calls are parameters of the model:

- the OpenCV blur and peak finder;
- `solvePnP`, and `projectPoints` applied to one point at a time;
- `copyToVector3d`;
- the later stages of `decode`, which it calls but which are not part of
  the core;
- the hash of a `double`.

The model states only what the surrounding code does with their results.

Java exceptions are `Result` failures carrying an `Exception` value, and null
references are `Option.None`. Doubles and floats are reals. Where the code
compares `distance` values, the model compares squared distances, which
order the same way.

Some behaviour is modelled as written:

- **Null vertices in `Cuboid2D`.** The constructor builds every edge
  through `Edge2D`, whose comparator dereferences both endpoints. So
  `Cuboid2D` rejects any null vertex, although its class comment says
  vertices may be missing.
- **Null vertices in `copyToMatOfPoint2f`.** It dereferences every vertex,
  so it fails on any null.
- **`calculateAndAddPose`.** Because of the above, it only ever hands 9
  rows to `findPose`. Even so, `findPose`'s method selection is modelled as
  a function of any row count.

## Model

| member | source | states |
|---|---|---|
| Points.Compare | dope4j/src/main/java/id/deeplearningutils/modality/cv/output/Point2D.java:33-37 | the comparator returns -1, 0 or 1; negative iff x is smaller or x ties and y is smaller; zero iff the points are equal; positive in the mirrored case |
| Points.CompareIsTotalOrder | dope4j/src/main/java/id/deeplearningutils/modality/cv/output/Point2D.java:33-37 | the comparator is antisymmetric, transitive and total |
| Points.SquaredDistance | dope4j/src/main/java/id/deeplearningutils/modality/cv/output/Point2D.java:47-51 | the squared distance from a `Point2D` to any point is non-negative and zero to a point with the same coordinates |
| Points.ExSquaredDistance | dope4j/src/main/java/id/deeplearningutils/modality/cv/output/ExPoint.java:36-40 | the same for `ExPoint.distance` |
| Points.DistanceSymmetric | dope4j/src/main/java/id/deeplearningutils/modality/cv/output/Point2D.java:47-51 | distance is symmetric for `Point2D` and for `ExPoint` |
| Points.ScaledProperties | dope4j/src/main/java/id/deeplearningutils/modality/cv/output/Point2D.java:53-55 | scaling composes multiplicatively, scaling by 1 is the identity, and scaling by s multiplies squared distances by s² |
| Points.Equals | dope4j/src/main/java/id/deeplearningutils/modality/cv/output/Point2D.java:62-69 | `equals` holds iff both points have the same class and coordinates; a `Point2D` never equals an `ExPoint` |
| Points.WrapInt32 | dope4j/src/main/java/id/deeplearningutils/modality/cv/output/Point2D.java:57-60 | the int arithmetic of `Objects.hash` wraps into the 32-bit range and agrees with the exact value modulo 2³² |
| Points.HashConsistentWithEquals | dope4j/src/main/java/id/deeplearningutils/modality/cv/output/ExPoint.java:42-54 | equal points hash equally; an `ExPoint` and a `Point2D` with the same coordinates hash equally but are not equal |
| Edges.NewEdge | dope4j/src/main/java/id/deeplearningutils/modality/cv/output/Edge2D.java:34-38 | a null endpoint throws; otherwise A ≤ B under the comparator, {A, B} = {a, b}, and there is no swap when a ≤ b |
| Edges.EdgeIsUndirected | dope4j/src/main/java/id/deeplearningutils/modality/cv/output/Edge2D.java:34-38 | `Edge2D(a, b)` and `Edge2D(b, a)` are the same edge, or fail alike |
| Edges.EdgeEquality | dope4j/src/main/java/id/deeplearningutils/modality/cv/output/Edge2D.java:53-60 | two edges are equal iff they have the same endpoint pair |
| Cuboids2D.NewCuboid2D | dope4j/src/main/java/id/deeplearningutils/modality/cv/output/Cuboid2D.java:85-114 | not 8 vertices gives the "Cuboid requires 8 vertices" precondition failure; with 8, any null vertex throws NullPointerException; otherwise the cuboid keeps the centre and vertices |
| Cuboids2D.GetEdges | dope4j/src/main/java/id/deeplearningutils/modality/cv/output/Cuboid2D.java:97-110 | there are 12 edges, edge k joins the k-th fixed vertex pair (front ring 1-2-3-4, back ring 5-6-7-8, then 1-5, 2-6, 3-7, 4-8), and each edge's endpoints are ordered |
| Cuboids2D.EveryVertexOnAnEdge | dope4j/src/main/java/id/deeplearningutils/modality/cv/output/Cuboid2D.java:97-110 | every vertex is an endpoint of some edge, so every vertex is dereferenced |
| Cuboids2D.VertexCounts | dope4j/src/main/java/id/deeplearningutils/modality/cv/output/Cuboid2D.java:111-113 | available = number of non-null vertices, available + missing = 8, and missing is 0 iff all vertices are present |
| Cuboids2D.BuiltCuboidHasNoMissingVertex | dope4j/src/main/java/id/deeplearningutils/modality/cv/output/Cuboid2D.java:86-113 | every cuboid the constructor accepts has 0 missing and 8 available vertices |
| Cuboids3D.NewCuboid3D | dope4j/src/main/java/id/deeplearningutils/modality/cv/output/Cuboid3D.java:81-96 | the list constructor fails iff the list does not have 8 entries; null entries are accepted |
| Cuboids3D.NewCuboid3DOfPoints | dope4j/src/main/java/id/deeplearningutils/modality/cv/output/Cuboid3D.java:68-79 | the 9-point constructor throws NullPointerException iff a vertex is null |
| Cuboids3D.FromDimensions | dope4j/src/main/java/id/deeplearningutils/modality/cv/output/Cuboid3D.java:98-133 | vertex i is the centre plus (sx·w/2, sy·h/2, sz·l/2) with the sign table (+,−,+), (−,−,+), (−,+,+), (+,+,+), (+,−,−), (−,−,−), (−,+,−), (+,+,−), and all 8 vertices are present |
| Cuboids3D.DimensionsCuboidShape | dope4j/src/main/java/id/deeplearningutils/modality/cv/output/Cuboid3D.java:98-133 | vertex i+4 differs from vertex i only in z, by −length, and the mean of the 8 vertices is the centre |
| Cuboids3D.VertexCounts | dope4j/src/main/java/id/deeplearningutils/modality/cv/output/Cuboid3D.java:93-95 | available = number of non-null vertices, available + missing = 8, and missing is 0 iff all are present |
| DopeConstants.ConstantRelations | dope4j/src/main/java/id/dope4j/DopeConstants.java:24-34 | tensor length 25 = 9 + 16, 9 = 8 vertices + 1 centre, 16 = 2 channels per vertex, belief shape [60, 80], and 60·8 = 480, 80·8 = 640 |
| NDArrays.ChannelOfSlice | dope4j/src/main/java/id/dope4j/decoders/DopeDecoderUtils.java:66-67 | channel i of the slice `[lo, hi)` is channel lo + i of the tensor |
| NDArrays.SlicesCover | dope4j/src/main/java/id/dope4j/decoders/DopeDecoderUtils.java:66-67 | the slices `[lo, mid)` and `[mid, hi)` together hold exactly the data of `[lo, hi)`, in order |
| Io.TruncateToLong | dope4j/src/main/java/id/dope4j/io/AffinityFields.java:35-36 | the `(long)` cast truncates toward zero: it lies within 1 of the value, on the side of zero |
| Io.GetValue | dope4j/src/main/java/id/dope4j/io/AffinityFields.java:33-37 | in range, x comes from channel 2f and y from channel 2f+1, at row trunc(y) and column trunc(x); out of range it fails (the failure kind, IndexOutOfBoundsException, is assumed) |
| Io.GetValueAtPoint | dope4j/src/main/java/id/dope4j/io/AffinityFields.java:29-31 | the point overload reads at the point's coordinates, so points in the same cell read the same vector |
| Io.NewOutputPoses | dope4j/src/main/java/id/dope4j/io/OutputPoses.java:38-56 | construction fails with "Mismatch between number of 2D objects and poses" iff the lists differ in length; the accessors return the arguments |
| Io.ConstructedPosesSize | dope4j/src/main/java/id/dope4j/io/OutputPoses.java:67-69 | `size()` equals both the number of poses and the number of 2D objects |
| DecoderUtils.ReadDopeOutput | dope4j/src/main/java/id/dope4j/decoders/DopeDecoderUtils.java:56-73 | the checks run in order (dimensions, channels, rows, cols) and report the first that fails; the call succeeds iff the shape is [25, 60, 80] and keeps the original tensor |
| DecoderUtils.ReadDopeOutputSplit | dope4j/src/main/java/id/dope4j/decoders/DopeDecoderUtils.java:66-72 | belief map i is tensor channel i, affinity channel k is tensor channel 9 + k, and the two parts hold together exactly the tensor's data |
| DecoderUtils.AffinityFieldsOfOutput | dope4j/src/main/java/id/dope4j/io/AffinityFields.java:33-41 | `size()` of the decoded affinities is 16 channels (2 per vertex, not 8 fields); field f reads tensor channels 9 + 2f and 10 + 2f; reading succeeds iff f < 8 and the truncated point is inside the 60 x 80 map |
| DecoderUtils.BeliefMat | dope4j/src/main/java/id/dope4j/decoders/DopeDecoderUtils.java:89-90 | belief map i becomes a 60 x 80 matrix holding exactly that channel's values |
| DecoderUtils.ToExPoints | dope4j/src/main/java/id/dope4j/decoders/DopeDecoderUtils.java:107 | each peak becomes an `ExPoint` with the same coordinates, in the peak finder's order |
| DecoderUtils.FindKeypoints | dope4j/src/main/java/id/dope4j/decoders/DopeDecoderUtils.java:84-111 | succeeds iff every belief map has a peak, and then returns 9 lists in map order; otherwise it fails with NoKeypointsFoundException at the first empty map, and maps after it are not examined |
| Converters.CopyToPointOverloads | dope4j/src/main/java/id/dope4j/impl/DjlOpenCvConverters.java:38-56 | the unscaled overload is scale 1; the scaled overload multiplies x and y; the `Point3D` overloads drop z; copying to OpenCV and back is the identity |
| Converters.CopyToPoint3D | dope4j/src/main/java/id/dope4j/impl/DjlOpenCvConverters.java:121-127 | the rows check comes before the cols check; it succeeds iff the matrix is 3 x 1 and then returns its entries as (x, y, z) |
| Converters.Points2f | dope4j/src/main/java/id/dope4j/impl/DjlOpenCvConverters.java:69-82 | the 2D layout has one point per vertex, in order, then the centre, with every coordinate multiplied by the scale |
| Converters.Points3f | dope4j/src/main/java/id/dope4j/impl/DjlOpenCvConverters.java:95-110 | the 3D layout has vertices unscaled, then the centre multiplied by the scale |
| Converters.CopyToMatOfPoint2f | dope4j/src/main/java/id/dope4j/impl/DjlOpenCvConverters.java:69-82 | the array-filling loop throws NullPointerException iff some vertex is null, and otherwise yields exactly the 2D layout |
| Converters.FilledArrayIsPoints2f | dope4j/src/main/java/id/dope4j/impl/DjlOpenCvConverters.java:73-81 | a float array holding each vertex's scaled x, y at 2k, 2k+1 and the scaled centre last reshapes to the 2D layout |
| Converters.CopyToMatOfPoint2fUnscaled | dope4j/src/main/java/id/dope4j/impl/DjlOpenCvConverters.java:62-64 | the one-argument overload is the 2D layout at scale 1, failing on a null vertex |
| Converters.CopyToMatOfPoint3f | dope4j/src/main/java/id/dope4j/impl/DjlOpenCvConverters.java:95-110 | throws NullPointerException iff some vertex is null, and otherwise yields exactly the 3D layout |
| Converters.CopyToMatOfPoint3fUnscaled | dope4j/src/main/java/id/dope4j/impl/DjlOpenCvConverters.java:88-90 | the one-argument overload is the 3D layout at scale 1 |
| Converters.CopyToCuboid2D | dope4j/src/main/java/id/dope4j/impl/DjlOpenCvConverters.java:113-119 | fails with "Received wrong number of vertices" unless there are 9 points; otherwise point 8 is the centre and points 0..7 are the vertices |
| Converters.CuboidRoundTrip | dope4j/src/main/java/id/dope4j/impl/DjlOpenCvConverters.java:62-119 | converting a complete cuboid to a matrix and back gives the same cuboid |
| Converters.MatrixRoundTrip | dope4j/src/main/java/id/dope4j/impl/DjlOpenCvConverters.java:62-119 | converting any 9-point matrix to a cuboid and back gives the same points |
| VertexMatcher.NewMatcher | dope4j/src/main/java/id/dope4j/decoders/CuboidVertexMatcher.java:93-101 | construction fails with a precondition failure unless there are exactly 8 vertex lists |
| VertexMatcher.NearestUpTo | dope4j/src/main/java/id/dope4j/decoders/CuboidVertexMatcher.java:120-137 | the nearest-centre index is −1 (with the `Integer.MAX_VALUE` distance) or a valid centre with its own distance |
| VertexMatcher.NearestIsFirstMinimum | dope4j/src/main/java/id/dope4j/decoders/CuboidVertexMatcher.java:120-137 | no centre is chosen iff every distance is at least `Integer.MAX_VALUE`; otherwise the chosen centre is at minimal distance and every earlier centre is strictly farther, so ties go to the lowest index |
| VertexMatcher.AssignedMembers | dope4j/src/main/java/id/dope4j/decoders/CuboidVertexMatcher.java:119-142 | a centre's candidates are exactly the vertices whose nearest centre it is, each with its distance |
| VertexMatcher.BestIsFirstMinimum | dope4j/src/main/java/id/dope4j/decoders/CuboidVertexMatcher.java:149-156 | the kept candidate has the smallest distance, and every earlier candidate is strictly farther |
| VertexMatcher.SlotProperties | dope4j/src/main/java/id/dope4j/decoders/CuboidVertexMatcher.java:143-157 | slot k of a centre is null iff no vertex of list k is assigned to that centre; otherwise it is a vertex of list k assigned to it, at least as close as every other such vertex |
| VertexMatcher.Cuboids | dope4j/src/main/java/id/dope4j/decoders/CuboidVertexMatcher.java:117-157 | there is one vertex list per centre, each with exactly 8 slots |
| VertexMatcher.ToLinkedMapUpTo | dope4j/src/main/java/id/dope4j/decoders/CuboidVertexMatcher.java:160-170 | the map is built iff the centres are pairwise distinct, with keys in input order; a repeated centre fails with "Collision between center point indices" |
| VertexMatcher.NearestCenter | dope4j/src/main/java/id/dope4j/decoders/CuboidVertexMatcher.java:123-137 | the centre loop returns the first nearest centre and its distance |
| VertexMatcher.SelectBest | dope4j/src/main/java/id/dope4j/decoders/CuboidVertexMatcher.java:149-156 | the candidate loop returns the first best candidate |
| VertexMatcher.AssignRole | dope4j/src/main/java/id/dope4j/decoders/CuboidVertexMatcher.java:119-142 | after the vertex loop of role k, each centre's buffer holds exactly its assigned candidates, in list order |
| VertexMatcher.CollectRole | dope4j/src/main/java/id/dope4j/decoders/CuboidVertexMatcher.java:143-158 | each centre's cuboid gains exactly its slot for role k, and every buffer is cleared |
| VertexMatcher.Match | dope4j/src/main/java/id/dope4j/decoders/CuboidVertexMatcher.java:103-171 | `match()` equals the specification built from the nearest-centre and best-candidate functions; it does not depend on the vector field |
| VertexMatcher.NearestExample | dope4j/src/main/java/id/dope4j/decoders/CuboidVertexMatcher.java:123-137 | with two centres, the second is chosen only when strictly nearer |
| VertexMatcher.MatchExample | dope4j.tests/src/test/java/id/dope4j/CuboidVertexMatcherTest.java:32-56 | centres (25,25) and (65,65): role 1 gets (22,22) and (65,61), role 7 gets (30,30) and (60,60), and every other slot is null |
| PoseCalculator.SolverSelection | dope4j/src/main/java/id/dope4j/decoders/CuboidPoseCalculator.java:115-122 | 4 rows use P3P on all 4; 5 rows are cut to the first 4 and use P3P; 6 or more use ITERATIVE on all rows |
| PoseCalculator.UprightPosition | dope4j/src/main/java/id/dope4j/decoders/CuboidPoseCalculator.java:129-130 | the position has z ≥ 0; it is the translation, or the translation negated as a whole, and it is unchanged iff z ≥ 0 |
| PoseCalculator.CuboidPoseCalculator.constructor | dope4j/src/main/java/id/dope4j/decoders/CuboidPoseCalculator.java:65-74 | stores the model, the camera and the scale, starts with empty lists, and converts the model to its 9-point matrix |
| PoseCalculator.NewCuboidPoseCalculator | dope4j/src/main/java/id/dope4j/decoders/CuboidPoseCalculator.java:65-74 | construction throws NullPointerException iff the 3D model has a null vertex (from the model conversion) |
| PoseCalculator.CuboidPoseCalculator.ProjectModel | dope4j/src/main/java/id/dope4j/decoders/CuboidPoseCalculator.java:128 | the full 9-point model is projected point by point |
| PoseCalculator.CuboidPoseCalculator.ProjectedCuboid | dope4j/src/main/java/id/dope4j/decoders/CuboidPoseCalculator.java:128-133 | the appended cuboid is complete and holds the projections of the full model: vertices 0..7, then the centre |
| PoseCalculator.CuboidPoseCalculator.FindPoseSpec | dope4j/src/main/java/id/dope4j/decoders/CuboidPoseCalculator.java:109-135 | fewer than 4 rows gives false; a failed row cut, unequal 2D/3D counts ("Vertex count mismatch"), a solver failure (CvException) and a `tvec` that is not 3 x 1 each give their error; a solver result with a 3 x 1 `tvec` always yields a pose whose position is the translation turned to z ≥ 0, whose orientation is `rvec`'s vector, and whose cuboid is the projection of the full model |
| PoseCalculator.CuboidPoseCalculator.FindPose | dope4j/src/main/java/id/dope4j/decoders/CuboidPoseCalculator.java:109-135 | returns true iff a pose is found, and then appends exactly one pose and one cuboid; otherwise the lists are unchanged; the lockstep invariant is kept |
| PoseCalculator.CuboidPoseCalculator.CreateCuboid3dModel | dope4j/src/main/java/id/dope4j/decoders/CuboidPoseCalculator.java:144-155 | with nothing missing it returns the model itself; otherwise 3D vertex i is the model's vertex i iff 2D vertex i is present, else null, and the centre is kept |
| PoseCalculator.CuboidPoseCalculator.MaskedModelMatches | dope4j/src/main/java/id/dope4j/decoders/CuboidPoseCalculator.java:144-155 | the masked model has the same missing-vertex pattern and count as the 2D cuboid |
| PoseCalculator.CuboidPoseCalculator.CalculateAndAddPose | dope4j/src/main/java/id/dope4j/decoders/CuboidPoseCalculator.java:81-88 | converts the cuboid with the scale, masks the model and runs `findPose`, so a pose is appended exactly when the specification finds one |
| PoseCalculator.CuboidPoseCalculator.CompleteCuboidUsesIterative | dope4j/src/main/java/id/dope4j/decoders/CuboidPoseCalculator.java:81-122 | for a complete cuboid the model is not masked, 9 rows are passed, and the iterative method runs on all of them |
| PoseCalculator.CuboidPoseCalculator.GetPoses | dope4j/src/main/java/id/dope4j/decoders/CuboidPoseCalculator.java:95-97 | there are as many poses as objects, and every pose has z ≥ 0 |
| PoseCalculator.CuboidPoseCalculator.GetObjects | dope4j/src/main/java/id/dope4j/decoders/CuboidPoseCalculator.java:105-107 | there are as many objects as poses |
| ObjectsDecoding.NewObjectsDecoder | dope4j/src/main/java/id/dope4j/decoders/ObjectsDecoder.java:107-109 | the three-argument constructor has no inspector builder |
| ObjectsDecoding.Decode | dope4j/src/main/java/id/dope4j/decoders/ObjectsDecoder.java:122-146 | the body, with try/finally, returns the outcome and makes the calls the `decode` specification describes |
| ObjectsDecoding.TraceShape | dope4j/src/main/java/id/dope4j/decoders/ObjectsDecoder.java:128-145 | every trace is: build the inspector (if any), then the stages, then the hooks, then close (if any) |
| ObjectsDecoding.StagesInOrder | dope4j/src/main/java/id/dope4j/decoders/ObjectsDecoder.java:129-142 | stages run in the order read → keypoints → objects → poses, each at most once, up to the first failure; when k stages ran and the decode failed, the first k−1 succeeded, stage k failed and its own error is reported; success needs all four and returns a present Optional holding the poses, where each stage was fed the previous stage's result |
| ObjectsDecoding.HooksAfterSuccess | dope4j/src/main/java/id/dope4j/decoders/ObjectsDecoder.java:138-141 | hooks fire iff all stages succeeded and an inspector exists; they are then tensor, keypoints, objects, poses, each with its stage's value |
| ObjectsDecoding.CloseExactlyOnce | dope4j/src/main/java/id/dope4j/decoders/ObjectsDecoder.java:128-145 | with an inspector it is built first and closed last, each exactly once, even when a stage fails; without one only stages are called |
| FileMappers.CacheFileMapper.GetTensorFile | dope4j/src/main/java/id/dope4j/impl/CacheFileMapper.java:37-39 | the tensor file is named after the image's file name followed by ".tensor" |
| FileMappers.CacheFileMapper.GetProcessedImageFile | dope4j/src/main/java/id/dope4j/impl/CacheFileMapper.java:41-43 | the processed image is named after the image's file name followed by ".png" |
| FileMappers.CachedFileLayout | dope4j/src/main/java/id/dope4j/impl/CacheFileMapper.java:38 | an absolute cache home gives `cacheHome/<name>`, whatever the image's directory; a relative one gives `parent/cacheHome/<name>`, or `cacheHome/<name>` when the image has no parent |
| FileMappers.CachedFilesAreSiblings | dope4j/src/main/java/id/dope4j/impl/CacheFileMapper.java:37-43 | the tensor file and the processed image are in the same directory and differ only in suffix |
| FileMappers.FileMapper.GetTensorFile | dope4j/src/main/java/id/dope4j/impl/FileMapper.java:32-34 | the tensor file is named after the image's file name followed by ".tensor" |
| FileMappers.FileMapper.GetProcessedImageFile | dope4j/src/main/java/id/dope4j/impl/FileMapper.java:36-38 | the processed image is named after the image's file name followed by ".png" |
| FileMappers.SubfolderFileLayout | dope4j/src/main/java/id/dope4j/impl/FileMapper.java:30-34 | the result is `parent/_cached/<name>`, or `_cached/<name>` when the image has no parent |
| FileMappers.SubfolderFilesAreSiblings | dope4j/src/main/java/id/dope4j/impl/FileMapper.java:32-38 | both files lie in the same `_cached` directory |

## Left out

- Floating point: `float`/`double` rounding and casts, `Math.sqrt`, NaN and −0.0 in the comparator are left out; all numbers are reals. The converters' round trips are therefore exact, whereas Java's hold only up to the float cast.
- OpenCV numerics are parameters without properties: Gaussian blur, `findPeaks`, `solvePnP`, `projectPoints`, and the `rvec` → vector conversion. An exception from `solvePnP` appears only as a failure.
- `ObjectsDecoding.Decode`: the input image is not modelled. It only reaches the inspector builder, which is assumed not to throw. The inspector hooks and `close` are assumed not to throw either.
- `ObjectsDecoding.Decode`: the inspector builder is assumed to return an inspector. If `build` returned null, `Optional.map` would give an empty inspector, and then no hook would fire and `close` would not be called; the model treats a present builder as a present inspector.
- Cuboid centres are never null in the model. Java stores a null centre in `Cuboid2D` and `Cuboid3D` without complaint, and `copyToMatOfPoint2f`/`copyToMatOfPoint3f` would then throw NullPointerException when they read it; no caller in the modelled code builds a cuboid with a null centre, so `center` is a plain point and that failure is not modelled.
- The stages `decode` calls after `readDopeOutput` are parameters: `findKeypoints(output, threshold)`, `findObjects`, `findPoses`. Their code is not part of this model.
- Metrics, logging and the `debugNDArray`/`debugMat` dumps are left out.
- `DecoderUtils.FindKeypoints`: the peak threshold is a parameter. The constant `PEAK_THRESHOLD` it reads is not part of this model. The exception carries the map index and the threshold instead of the formatted message.
- `DecoderUtils.ReadDopeOutput`: the `(int)` casts of the row and column counts are not modelled. They differ only for dimensions of 2³¹ or more.
- The exact text of the `Preconditions` failures is modelled as the message given in the source.
- `VertexMatcher.NewMatcher`: states only that the failure is a precondition failure. The check passes no message; the model carries an empty message in place of the library's default text.
- `VertexMatcher.Match`: the vector field is assumed not to throw. The source calls `vectorField.get` once per vertex and centre, and a failure there, such as an out-of-range affinity lookup, would abort `match()`; the model's vector field is a total function and `Match` never fails on its account. The angle computed from it is never used, so the model does not compute it.
- `Io.GetValue`: the kind of the out-of-range failure is assumed. The source only calls DJL's `get(...).getFloat(...)`, whose exception type is not visible here, and the model names it IndexOutOfBoundsException. DJL's negative indices (counting from the end) are treated as out of range.
- `Io.TruncateToLong`: the saturation of `(long)` at the 64-bit limits is not modelled.
- `PoseCalculator.CuboidPoseCalculator.constructor`: requires a complete 3D model. The failing case, a model with a null vertex, is stated by `NewCuboidPoseCalculator`.
- `PoseCalculator.CuboidPoseCalculator.FindPoseSpec`: `tvec` is assumed to be the 3 x 1 matrix `solvePnP` produces. Any other shape fails as in `copyToPoint`.
- The `hashCode` of `Cuboid2D`, `Cuboid3D` and `Edge2D` is left out. Their `equals` is datatype equality on centre and vertex list, or on the two endpoints. The `double` hash in `Point2D`/`ExPoint` is a parameter.
- `Cuboid2D`/`Cuboid3D` accessors `v1`..`v8` are `vertices[0..7]`. The unmodifiable view is a value in Dafny.
- `DopeConstants.ConstantRelations`: these are facts about constants, and Dafny checks them by evaluation.
- `java.nio.file.Path` is modelled only for separator-free names. Normalisation, `..` and Windows paths are left out.
- The thin holders `OutputKeypoints`, `OutputObjects2D` and `DopeDecoder` are left out. So are inference, image I/O, GUI, JSON rendering and `toString`.
