/** DJL's `NDArray` as a shape and its values in row-major order, with the
    slicing along the first axis that the decoder uses. */
module NDArrays {

  datatype NDArray = NDArray(shape: seq<nat>, data: seq<real>)

  function Product(s: seq<nat>): nat
  {
    if s == [] then 1 else s[0] * Product(s[1..])
  }

  predicate WellFormed(t: NDArray)
  {
    |t.data| == Product(t.shape)
  }

  /** Number of values in one slice along the first axis. */
  function ChannelSize(t: NDArray): nat
    requires |t.shape| >= 1
  {
    Product(t.shape[1..])
  }

  lemma MulMonotone(a: nat, b: nat, c: nat)
    requires a <= b
    ensures a * c <= b * c
  {
  }

  lemma MulSubtract(lo: nat, hi: nat, c: nat)
    requires lo <= hi
    ensures hi * c - lo * c == (hi - lo) * c
  {
  }

  /** `t.get(lo + ":" + hi)`: channels `lo` .. `hi - 1`, as a new array whose
      first dimension is `hi - lo`. */
  function SliceChannels(t: NDArray, lo: nat, hi: nat): (r: NDArray)
    requires WellFormed(t) && |t.shape| >= 1 && lo <= hi <= t.shape[0]
    ensures WellFormed(r) && |r.shape| == |t.shape|
    ensures r.shape[0] == hi - lo && r.shape[1..] == t.shape[1..]
    ensures ChannelSize(r) == ChannelSize(t)
  {
    var cs := ChannelSize(t);
    MulMonotone(lo, hi, cs);
    MulMonotone(hi, t.shape[0], cs);
    MulSubtract(lo, hi, cs);
    var r := NDArray([hi - lo] + t.shape[1..], t.data[lo * cs .. hi * cs]);
    assert r.shape[1..] == t.shape[1..];
    r
  }

  /** `t.get(i).toFloatArray()`: the values of channel `i`. */
  function ChannelData(t: NDArray, i: nat): (r: seq<real>)
    requires WellFormed(t) && |t.shape| >= 1 && i < t.shape[0]
    ensures |r| == ChannelSize(t)
  {
    SliceChannels(t, i, i + 1).data
  }

  /** Channel `i` of a slice is channel `lo + i` of the sliced array. */
  lemma {:induction false} ChannelOfSlice(t: NDArray, lo: nat, hi: nat, i: nat)
    requires WellFormed(t) && |t.shape| >= 1 && lo <= hi <= t.shape[0] && i < hi - lo
    ensures ChannelData(SliceChannels(t, lo, hi), i) == ChannelData(t, lo + i)
  {
    var cs := ChannelSize(t);
    MulAdd(lo, i, cs);
    MulAdd(lo, i + 1, cs);
    MulMonotone(i + 1, hi - lo, cs);
    MulMonotone(hi, t.shape[0], cs);
    MulSubtract(lo, hi, cs);
    SliceOfSlice(t.data, lo * cs, hi * cs, i * cs, (i + 1) * cs);
  }

  lemma MulAdd(x: nat, y: nat, c: nat)
    ensures (x + y) * c == x * c + y * c
  {
  }

  lemma SliceOfSlice<T>(s: seq<T>, a: nat, b: nat, lo: nat, hi: nat)
    requires a <= b <= |s| && lo <= hi <= b - a
    ensures s[a..b][lo..hi] == s[a + lo .. a + hi]
  {
    var inner, outer := s[a..b][lo..hi], s[a + lo .. a + hi];
    assert |inner| == |outer|;
    forall k | 0 <= k < |inner|
      ensures inner[k] == outer[k]
    {
      assert inner[k] == s[a..b][lo + k] == s[a + lo + k];
    }
  }

  /** Two adjacent slices together hold exactly the values of the wider one. */
  lemma {:induction false} SlicesCover(t: NDArray, lo: nat, mid: nat, hi: nat)
    requires WellFormed(t) && |t.shape| >= 1 && lo <= mid <= hi <= t.shape[0]
    ensures SliceChannels(t, lo, mid).data + SliceChannels(t, mid, hi).data
            == SliceChannels(t, lo, hi).data
  {
    var cs := ChannelSize(t);
    MulMonotone(lo, mid, cs);
    MulMonotone(mid, hi, cs);
    MulMonotone(hi, t.shape[0], cs);
    assert t.data[lo * cs .. mid * cs] + t.data[mid * cs .. hi * cs] == t.data[lo * cs .. hi * cs];
  }

  /** `i * cols + j` is a valid offset into a `rows` x `cols` block. */
  lemma RowMajorOffset(rows: nat, cols: nat, i: nat, j: nat)
    requires i < rows && j < cols
    ensures i * cols + j < rows * cols
  {
    MulMonotone(i + 1, rows, cols);
  }

  /** `t.getFloat(c, i, j)` on a 3-dimensional array: the value at channel
      `c`, row `i`, column `j`. */
  function Element(t: NDArray, c: nat, i: nat, j: nat): real
    requires WellFormed(t) && |t.shape| == 3
    requires c < t.shape[0] && i < t.shape[1] && j < t.shape[2]
  {
    assert ChannelSize(t) == t.shape[1] * t.shape[2] by {
      assert t.shape[1..][1..] == [t.shape[2]] && [t.shape[2]][1..] == [];
      assert Product([t.shape[2]]) == t.shape[2];
    }
    RowMajorOffset(t.shape[1], t.shape[2], i, j);
    ChannelData(t, c)[i * t.shape[2] + j]
  }
}
