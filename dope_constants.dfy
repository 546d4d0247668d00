/** `DopeConstants`: the network's input and output geometry. */
module DopeConstants {

  const ImageWidth: int := 640
  const ImageHeight: int := 480
  /** 8 cuboid vertices and 1 centre map. */
  const BeliefMapsCount: int := 9
  const AffinitiesCount: int := 16
  const TensorLength: int := BeliefMapsCount + AffinitiesCount
  const TensorRows: int := 60
  const TensorCols: int := 80
  const BeliefShape: seq<int> := [TensorRows, TensorCols]
  const GaussianSigma: real := 3.0
  const DefaultPeakThreshold: real := 0.01
  const ScaleFactor: real := 8.0

  /** How the constants fit together: the tensor holds the belief maps and
      the affinity channels, a belief map has the tensor's rows and columns,
      and scaling a belief map by `ScaleFactor` gives the image size. */
  lemma ConstantRelations()
    ensures TensorLength == 25 && BeliefMapsCount == 8 + 1
    ensures AffinitiesCount == 2 * (BeliefMapsCount - 1)
    ensures BeliefShape == [60, 80]
    ensures TensorRows as real * ScaleFactor == ImageHeight as real
    ensures TensorCols as real * ScaleFactor == ImageWidth as real
  {
  }
}
