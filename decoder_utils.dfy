/** `DopeDecoderUtils`: splitting the network output into belief maps and
    affinity fields, and collecting the peaks of every belief map. */
module DecoderUtils {
  import opened Wrappers
  import opened Points
  import opened NDArrays
  import opened OpenCv
  import opened DopeConstants
  import opened Io

  const TensorShape: seq<nat> := [TensorLength as nat, TensorRows as nat, TensorCols as nat]

  /** What `readDopeOutput` returns: the tensor of shape 25 x 60 x 80, its 9
      belief maps and its 16 affinity channels. */
  predicate ValidOutputTensor(o: OutputTensor)
  {
    WellFormed(o.tensor) && o.tensor.shape == TensorShape
    && WellFormed(o.beliefMaps) && o.beliefMaps.shape == [BeliefMapsCount as nat, TensorRows as nat, TensorCols as nat]
    && WellFormed(o.affinities.affinities)
    && o.affinities.affinities.shape == [AffinitiesCount as nat, TensorRows as nat, TensorCols as nat]
  }

  /** `readDopeOutput(tensor)`: the shape checks, in order, then the split
      into channels `:9` and `9:`. */
  function ReadDopeOutput(tensor: NDArray): (r: Result<OutputTensor>)
    requires WellFormed(tensor)
    ensures r.Success? <==> tensor.shape == TensorShape
    ensures |tensor.shape| != 3 ==> r == Failure(PreconditionException("Tensor shape dimensions is wrong"))
    ensures |tensor.shape| == 3 && tensor.shape[0] != TensorLength
            ==> r == Failure(PreconditionException("Total tensor size is wrong"))
    ensures |tensor.shape| == 3 && tensor.shape[0] == TensorLength && tensor.shape[1] != TensorRows
            ==> r == Failure(PreconditionException("Number of rows is wrong"))
    ensures |tensor.shape| == 3 && tensor.shape[0] == TensorLength && tensor.shape[1] == TensorRows
            && tensor.shape[2] != TensorCols
            ==> r == Failure(PreconditionException("Number of cols is wrong"))
    ensures r.Success? ==> r.value.tensor == tensor && ValidOutputTensor(r.value)
  {
    if |tensor.shape| != 3 then
      Failure(PreconditionException("Tensor shape dimensions is wrong"))
    else if tensor.shape[0] != TensorLength then
      Failure(PreconditionException("Total tensor size is wrong"))
    else if tensor.shape[1] != TensorRows then
      Failure(PreconditionException("Number of rows is wrong"))
    else if tensor.shape[2] != TensorCols then
      Failure(PreconditionException("Number of cols is wrong"))
    else
      var beliefMaps := SliceChannels(tensor, 0, BeliefMapsCount as nat);
      var affinities := SliceChannels(tensor, BeliefMapsCount as nat, TensorLength as nat);
      assert tensor.shape[1..] == [TensorRows as nat, TensorCols as nat];
      Success(OutputTensor(tensor, beliefMaps, AffinityFields(affinities)))
  }

  /** Belief map `i` is tensor channel `i`, affinity channel `k` is tensor
      channel `9 + k`, and the two parts hold together exactly the values of
      the tensor, belief maps first. */
  lemma {:induction false} ReadDopeOutputSplit(tensor: NDArray)
    requires WellFormed(tensor) && ReadDopeOutput(tensor).Success?
    ensures var o := ReadDopeOutput(tensor).value;
            forall i :: 0 <= i < BeliefMapsCount ==> ChannelData(o.beliefMaps, i) == ChannelData(tensor, i)
    ensures var o := ReadDopeOutput(tensor).value;
            forall k :: 0 <= k < AffinitiesCount ==>
              ChannelData(o.affinities.affinities, k) == ChannelData(tensor, BeliefMapsCount + k)
    ensures var o := ReadDopeOutput(tensor).value;
            o.beliefMaps.data + o.affinities.affinities.data == tensor.data
  {
    var o := ReadDopeOutput(tensor).value;
    forall i | 0 <= i < BeliefMapsCount
      ensures ChannelData(o.beliefMaps, i) == ChannelData(tensor, i)
    {
      ChannelOfSlice(tensor, 0, BeliefMapsCount as nat, i);
    }
    forall k | 0 <= k < AffinitiesCount
      ensures ChannelData(o.affinities.affinities, k) == ChannelData(tensor, BeliefMapsCount + k)
    {
      ChannelOfSlice(tensor, BeliefMapsCount as nat, TensorLength as nat, k);
    }
    SlicesCover(tensor, 0, BeliefMapsCount as nat, TensorLength as nat);
    assert SliceChannels(tensor, 0, TensorLength as nat).data == tensor.data by {
      assert ChannelSize(tensor) * (TensorLength as nat) == |tensor.data| by {
        assert tensor.shape[1..][1..][1..] == [];
      }
    }
  }

  /** The 8 affinity fields of a decoded output read tensor channels 9 + 2f
      and 10 + 2f, and `size()` reports 16 channels for them. */
  lemma AffinityFieldsOfOutput(tensor: NDArray, fieldId: int, x: real, y: real)
    requires WellFormed(tensor) && ReadDopeOutput(tensor).Success?
    ensures var a := ReadDopeOutput(tensor).value.affinities;
            Size(a) == AffinitiesCount && Size(a) == 2 * (BeliefMapsCount - 1)
    ensures var a := ReadDopeOutput(tensor).value.affinities;
            GetValue(a, fieldId, x, y).Success?
            <==> 0 <= fieldId < 8 && 0 <= TruncateToLong(y) < TensorRows && 0 <= TruncateToLong(x) < TensorCols
    ensures var a := ReadDopeOutput(tensor).value.affinities;
            var row, col := TruncateToLong(y), TruncateToLong(x);
            GetValue(a, fieldId, x, y).Success? ==>
              GetValue(a, fieldId, x, y).value
              == Vector2f(Element(tensor, BeliefMapsCount + 2 * fieldId, row, col),
                          Element(tensor, BeliefMapsCount + 2 * fieldId + 1, row, col))
  {
    var a := ReadDopeOutput(tensor).value.affinities;
    if GetValue(a, fieldId, x, y).Success? {
      ReadDopeOutputSplit(tensor);
      assert ChannelData(a.affinities, 2 * fieldId) == ChannelData(tensor, BeliefMapsCount + 2 * fieldId);
      assert ChannelData(a.affinities, 2 * fieldId + 1) == ChannelData(tensor, BeliefMapsCount + 2 * fieldId + 1);
    }
  }

  /** `new MatOfFloat(beliefMaps.get(i).toFloatArray()).reshape(1, BELIEF_SHAPE)`. */
  function BeliefMat(o: OutputTensor, i: nat): (m: Mat)
    requires ValidOutputTensor(o) && i < BeliefMapsCount
    ensures WellFormedMat(m) && m.rows == TensorRows && m.cols == TensorCols
    ensures m.data == ChannelData(o.beliefMaps, i)
  {
    assert ChannelSize(o.beliefMaps) == TensorRows * TensorCols by {
      assert o.beliefMaps.shape[1..] == [60, 80] && [60, 80][1..] == [80] && [80][1..] == [];
    }
    Mat(TensorRows as nat, TensorCols as nat, ChannelData(o.beliefMaps, i))
  }

  /** Every peak as an `ExPoint` with the same coordinates, in the same order. */
  function ToExPoints(peaks: seq<CvPoint>): (r: seq<ExPoint>)
    ensures |r| == |peaks|
    ensures forall k :: 0 <= k < |peaks| ==> r[k].x == peaks[k].x && r[k].y == peaks[k].y
  {
    seq(|peaks|, k requires 0 <= k < |peaks| => ExPoint(peaks[k].x, peaks[k].y))
  }

  /** The keypoints of belief map `i`: the peaks of the blurred map above the
      threshold. `blur` stands for `Imgproc.GaussianBlur` with the given sigma
      and `findPeaks` for `MatUtils.findPeaks`. */
  function MapKeypoints(o: OutputTensor, i: nat, threshold: real,
                        blur: (Mat, real) -> Mat, findPeaks: (Mat, real) -> seq<CvPoint>): seq<ExPoint>
    requires ValidOutputTensor(o) && i < BeliefMapsCount
  {
    ToExPoints(findPeaks(blur(BeliefMat(o, i), GaussianSigma), threshold))
  }

  /** `findKeypoints(output)`, with the peak threshold as a parameter;
      `examined` lists the belief maps that were blurred and searched, in
      order. */
  method FindKeypoints(o: OutputTensor, threshold: real,
                       blur: (Mat, real) -> Mat, findPeaks: (Mat, real) -> seq<CvPoint>)
    returns (r: Result<seq<seq<ExPoint>>>, examined: seq<nat>)
    requires ValidOutputTensor(o)
    ensures r.Success? <==> forall i :: 0 <= i < BeliefMapsCount ==> MapKeypoints(o, i, threshold, blur, findPeaks) != []
    ensures r.Success? ==> |r.value| == BeliefMapsCount
    ensures r.Success? ==> forall i :: 0 <= i < BeliefMapsCount ==> r.value[i] == MapKeypoints(o, i, threshold, blur, findPeaks)
    ensures r.Success? ==> examined == seq(BeliefMapsCount, i => i)
    ensures r.Failure? ==>
              exists i :: 0 <= i < BeliefMapsCount
                && r.error == NoKeypointsFoundException(i, threshold)
                && MapKeypoints(o, i, threshold, blur, findPeaks) == []
                && (forall j :: 0 <= j < i ==> MapKeypoints(o, j, threshold, blur, findPeaks) != [])
                && examined == seq(i + 1, j => j)
  {
    var allPeaks: seq<seq<ExPoint>> := [];
    examined := [];
    var i: nat := 0;
    while i < BeliefMapsCount
      invariant i <= BeliefMapsCount
      invariant |allPeaks| == i
      invariant forall j :: 0 <= j < i ==>
                  allPeaks[j] == MapKeypoints(o, j, threshold, blur, findPeaks) && allPeaks[j] != []
      invariant examined == seq(i, j => j)
    {
      var belief := BeliefMat(o, i);
      var blurred := blur(belief, GaussianSigma);
      var peaks := findPeaks(blurred, threshold);
      examined := examined + [i];
      if peaks == [] {
        assert MapKeypoints(o, i, threshold, blur, findPeaks) == [];
        return Failure(NoKeypointsFoundException(i, threshold)), examined;
      }
      allPeaks := allPeaks + [ToExPoints(peaks)];
      i := i + 1;
    }
    r := Success(allPeaks);
  }
}
