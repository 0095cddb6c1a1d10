/**
 * The averages VoxelizedDownSample writes for one voxel, stated without the
 * accumulation loop: each channel of the averaged point is a sum over the
 * bucket's points (or over those whose normal or descriptor is finite)
 * divided by how many points entered that sum.
 */
module BucketMeans {
  import opened PcFlags
  import opened CloudValues
  import opened DownSampleSpec

  /** The positions `j < n` whose flag is set, in increasing order, and no others. */
  function Selected(flags: seq<bool>, n: nat): (k: seq<nat>)
    requires n <= |flags|
    ensures |k| <= n
    ensures forall t | 0 <= t < |k| :: k[t] < n && flags[k[t]]
    ensures forall j | 0 <= j < n && flags[j] :: j in k
    ensures forall t1, t2 | 0 <= t1 < t2 < |k| :: k[t1] < k[t2]
  {
    if n == 0 then []
    else
      var k := Selected(flags, n - 1);
      if flags[n - 1] then k + [n - 1] else k
  }

  /** Which points of bucket `b` have an all-finite normal. */
  function FiniteNormalFlags(c: Cloud, b: seq<nat>): (flags: seq<bool>)
    requires WellFormed(c) && c.fields.xyzs && c.fields.normals && FiniteIndices(c, b)
    ensures |flags| == |b|
    ensures forall j | 0 <= j < |b| :: flags[j] == IsFinite3(c.normals[b[j]])
  {
    seq(|b|, j requires 0 <= j < |b| => IsFinite3(c.normals[b[j]]))
  }

  /** Which points of bucket `b` have an all-finite descriptor. */
  function FiniteDescriptorFlags(c: Cloud, b: seq<nat>): (flags: seq<bool>)
    requires WellFormed(c) && c.fields.xyzs && c.fields.HasDescriptor() && FiniteIndices(c, b)
    ensures |flags| == |b|
    ensures forall j | 0 <= j < |b| :: flags[j] == AllFinite(c.descriptors[b[j]])
  {
    seq(|b|, j requires 0 <= j < |b| => AllFinite(c.descriptors[b[j]]))
  }

  /** Coordinate `axis` of the normals of the bucket points at positions `k`. */
  function NormalCoordinates(c: Cloud, b: seq<nat>, k: seq<nat>, axis: Axis): (xs: seq<real>)
    requires WellFormed(c) && c.fields.xyzs && c.fields.normals && FiniteIndices(c, b)
    requires forall t | 0 <= t < |k| :: k[t] < |b| && IsFinite3(c.normals[b[k[t]]])
    ensures |xs| == |k|
  {
    seq(|k|, t requires 0 <= t < |k| =>
      var v := c.normals[b[k[t]]];
      assert IsFinite3(v);
      Along(v, axis).value)
  }

  /** Row `r` of the descriptors of the bucket points at positions `k`. */
  function DescriptorRow(c: Cloud, b: seq<nat>, k: seq<nat>, r: nat): (xs: seq<real>)
    requires WellFormed(c) && c.fields.xyzs && c.fields.HasDescriptor() && FiniteIndices(c, b)
    requires r < c.fields.descriptor.size
    requires forall t | 0 <= t < |k| :: k[t] < |b| && AllFinite(c.descriptors[b[k[t]]])
    ensures |xs| == |k|
  {
    seq(|k|, t requires 0 <= t < |k| =>
      var v := c.descriptors[b[k[t]]];
      assert AllFinite(v) && |v| == c.fields.descriptor.size;
      v[r].value)
  }

  /** Selecting one more finite normal adds its coordinate to the sum. */
  lemma NormalSumAppend(c: Cloud, b: seq<nat>, k: seq<nat>, j: nat, axis: Axis)
    requires WellFormed(c) && c.fields.xyzs && c.fields.normals && FiniteIndices(c, b)
    requires forall t | 0 <= t < |k| :: k[t] < |b| && IsFinite3(c.normals[b[k[t]]])
    requires j < |b| && IsFinite3(c.normals[b[j]])
    ensures Sum(NormalCoordinates(c, b, k + [j], axis)) ==
      Sum(NormalCoordinates(c, b, k, axis)) + Along(c.normals[b[j]], axis).value
  {
    var xs, ys := NormalCoordinates(c, b, k + [j], axis), NormalCoordinates(c, b, k, axis);
    forall t | 0 <= t < |k| ensures xs[t] == ys[t] {
      assert (k + [j])[t] == k[t];
    }
    assert xs == ys + [Along(c.normals[b[j]], axis).value];
    SumAppend(ys, Along(c.normals[b[j]], axis).value);
  }

  /** Selecting one more finite descriptor adds its row `r` to the row sum. */
  lemma DescriptorSumAppend(c: Cloud, b: seq<nat>, k: seq<nat>, j: nat, r: nat)
    requires WellFormed(c) && c.fields.xyzs && c.fields.HasDescriptor() && FiniteIndices(c, b)
    requires r < c.fields.descriptor.size
    requires forall t | 0 <= t < |k| :: k[t] < |b| && AllFinite(c.descriptors[b[k[t]]])
    requires j < |b| && AllFinite(c.descriptors[b[j]])
    ensures |c.descriptors[b[j]]| == c.fields.descriptor.size
    ensures Sum(DescriptorRow(c, b, k + [j], r)) == Sum(DescriptorRow(c, b, k, r)) + c.descriptors[b[j]][r].value
  {
    var xs, ys := DescriptorRow(c, b, k + [j], r), DescriptorRow(c, b, k, r);
    forall t | 0 <= t < |k| ensures xs[t] == ys[t] {
      assert (k + [j])[t] == k[t];
    }
    assert xs == ys + [c.descriptors[b[j]][r].value];
    SumAppend(ys, c.descriptors[b[j]][r].value);
  }

  /** Colour channel `axis` of every point of bucket `b`. */
  function ColourChannel(c: Cloud, b: seq<nat>, axis: Axis): (xs: seq<int>)
    requires WellFormed(c) && c.fields.xyzs && c.fields.rgbs && FiniteIndices(c, b)
    ensures |xs| == |b|
  {
    seq(|b|, j requires 0 <= j < |b| => Along(c.rgbs[b[j]], axis) as int)
  }

  function IntSum(xs: seq<int>): int {
    if |xs| == 0 then 0 else IntSum(xs[..|xs| - 1]) + xs[|xs| - 1]
  }

  lemma SumAppend(xs: seq<real>, x: real)
    ensures Sum(xs + [x]) == Sum(xs) + x
  {
    assert (xs + [x])[..|xs|] == xs;
  }

  /** Adding a point adds its normal, and counts it, exactly when that normal is finite. */
  lemma AddPointNormal(c: Cloud, s: Sums, i: nat, axis: Axis)
    requires WellFormed(c) && c.fields.xyzs && c.fields.normals && i < c.size && IsFinite3(c.xyzs[i])
    requires |s.descriptor| == c.fields.descriptor.size
    ensures IsFinite3(c.normals[i]) ==>
      && AddPoint(c, s, i).numNormals == s.numNormals + 1
      && Along(AddPoint(c, s, i).normal, axis) == Along(s.normal, axis) + Along(c.normals[i], axis).value
    ensures !IsFinite3(c.normals[i]) ==>
      AddPoint(c, s, i).numNormals == s.numNormals && AddPoint(c, s, i).normal == s.normal
  {
    if IsFinite3(c.normals[i]) {
      AlongAdd(s.normal, c.normals[i], axis);
    }
  }

  /** Adding a point adds its descriptor, and counts it, exactly when that descriptor is finite. */
  lemma AddPointDescriptor(c: Cloud, s: Sums, i: nat, r: nat)
    requires WellFormed(c) && c.fields.xyzs && c.fields.HasDescriptor() && i < c.size && IsFinite3(c.xyzs[i])
    requires |s.descriptor| == c.fields.descriptor.size && r < c.fields.descriptor.size
    ensures |c.descriptors[i]| == c.fields.descriptor.size
    ensures AllFinite(c.descriptors[i]) ==>
      && AddPoint(c, s, i).numDescriptors == s.numDescriptors + 1
      && AddPoint(c, s, i).descriptor[r] == s.descriptor[r] + c.descriptors[i][r].value
    ensures !AllFinite(c.descriptors[i]) ==>
      AddPoint(c, s, i).numDescriptors == s.numDescriptors && AddPoint(c, s, i).descriptor == s.descriptor
  {
  }

  /**
   * After the first `n` points of a bucket, the normal count is the number of
   * those points with a finite normal and the normal sum, along each axis,
   * is the sum of exactly those normals.
   */
  lemma {:induction false} AccumulatedNormals(c: Cloud, b: seq<nat>, n: nat, axis: Axis)
    requires WellFormed(c) && c.fields.xyzs && c.fields.normals && FiniteIndices(c, b) && n <= |b|
    ensures var k := Selected(FiniteNormalFlags(c, b), n);
      && Accumulated(c, b, n).numNormals == |k|
      && Along(Accumulated(c, b, n).normal, axis) == Sum(NormalCoordinates(c, b, k, axis))
  {
    if n > 0 {
      AccumulatedNormals(c, b, n - 1, axis);
      var flags := FiniteNormalFlags(c, b);
      var before := Selected(flags, n - 1);
      var s := Accumulated(c, b, n - 1);
      var i := b[n - 1];
      assert Accumulated(c, b, n) == AddPoint(c, s, i);
      AddPointNormal(c, s, i, axis);
      if flags[n - 1] {
        assert Selected(flags, n) == before + [n - 1];
        NormalSumAppend(c, b, before, n - 1, axis);
      } else {
        assert Selected(flags, n) == before;
      }
    }
  }

  /**
   * After the first `n` points of a bucket, the descriptor count is the
   * number of those points with a finite descriptor and row `r` of the
   * descriptor sum is the sum of row `r` of exactly those descriptors.
   */
  lemma {:induction false} AccumulatedDescriptors(c: Cloud, b: seq<nat>, n: nat, r: nat)
    requires WellFormed(c) && c.fields.xyzs && c.fields.HasDescriptor() && FiniteIndices(c, b) && n <= |b|
    requires r < c.fields.descriptor.size
    ensures var k := Selected(FiniteDescriptorFlags(c, b), n);
      && Accumulated(c, b, n).numDescriptors == |k|
      && Accumulated(c, b, n).descriptor[r] == Sum(DescriptorRow(c, b, k, r))
  {
    if n > 0 {
      AccumulatedDescriptors(c, b, n - 1, r);
      var flags := FiniteDescriptorFlags(c, b);
      var before := Selected(flags, n - 1);
      var s := Accumulated(c, b, n - 1);
      var i := b[n - 1];
      assert Accumulated(c, b, n) == AddPoint(c, s, i);
      AddPointDescriptor(c, s, i, r);
      if flags[n - 1] {
        assert Selected(flags, n) == before + [n - 1];
        DescriptorSumAppend(c, b, before, n - 1, r);
      } else {
        assert Selected(flags, n) == before;
      }
    }
  }

  /** After the first `n` points of a bucket, each colour sum is the sum of that channel over those points. */
  lemma {:induction false} AccumulatedColours(c: Cloud, b: seq<nat>, n: nat, axis: Axis)
    requires WellFormed(c) && c.fields.xyzs && c.fields.rgbs && FiniteIndices(c, b) && n <= |b|
    ensures Along(Accumulated(c, b, n).rgb, axis) == IntSum(ColourChannel(c, b, axis)[..n])
  {
    if n > 0 {
      AccumulatedColours(c, b, n - 1, axis);
      var xs := ColourChannel(c, b, axis);
      assert xs[..n][..n - 1] == xs[..n - 1];
      assert Accumulated(c, b, n) == AddPoint(c, Accumulated(c, b, n - 1), b[n - 1]);
    }
  }

  /** Truncating the real quotient of non-negative numbers is integer division. */
  lemma TruncatedQuotient(sum: int, n: nat)
    requires 0 < n && 0 <= sum
    ensures (sum as real / n as real).Floor == sum / n
  {
    var q, rest := sum / n, sum % n;
    assert sum == q * n + rest && 0 <= rest < n;
    CastProduct(q, n);
    var x := sum as real / n as real;
    DivideThenMultiply(sum as real, n as real);
    assert q as real * n as real <= x * n as real;
    AddOneTimes(q as real, n as real);
    assert x * n as real < q as real * n as real + n as real;
    MultiplyByPositive(q as real, x, n as real);
    MultiplyByPositive(x, q as real + 1.0, n as real);
    FloorOfSlab(x, q);
  }

  lemma AddOneTimes(a: real, n: real)
    ensures (a + 1.0) * n == a * n + n
  {
  }

  lemma CastProduct(q: int, n: int)
    ensures (q * n) as real == q as real * n as real
  {
  }

  /** Along each axis, the averaged normal is the sum of the bucket's finite normals over their number, NaN when there is none. */
  lemma NormalMean(c: Cloud, b: seq<nat>, axis: Axis)
    requires WellFormed(c) && c.fields.xyzs && c.fields.normals && |b| > 0 && FiniteIndices(c, b)
    ensures var k := Selected(FiniteNormalFlags(c, b), |b|);
      Along(BucketMean(c, b).normal, axis) == Quotient(Sum(NormalCoordinates(c, b, k, axis)), |k|)
  {
    AccumulatedNormals(c, b, |b|, axis);
    match axis
    case X =>
    case Y =>
    case Z =>
  }

  /** Each colour channel of the averaged point is the channel's mean over the whole bucket, truncated. */
  lemma ColourMean(c: Cloud, b: seq<nat>, axis: Axis)
    requires WellFormed(c) && c.fields.xyzs && c.fields.rgbs && |b| > 0 && FiniteIndices(c, b)
    ensures Along(BucketMean(c, b).rgb, axis) as int ==
      (IntSum(ColourChannel(c, b, axis)) as real / |b| as real).Floor
  {
    var s := Accumulated(c, b, |b|);
    AccumulatedColours(c, b, |b|, axis);
    assert ColourChannel(c, b, axis)[..|b|] == ColourChannel(c, b, axis);
    TruncatedQuotient(Along(s.rgb, axis), |b|);
    match axis
    case X =>
    case Y =>
    case Z =>
  }

  /** Row `r` of the averaged descriptor is the sum of that row over the finite descriptors over their number, NaN when there is none. */
  lemma DescriptorMean(c: Cloud, b: seq<nat>, r: nat)
    requires WellFormed(c) && c.fields.xyzs && c.fields.HasDescriptor() && |b| > 0 && FiniteIndices(c, b)
    requires r < c.fields.descriptor.size
    ensures var k := Selected(FiniteDescriptorFlags(c, b), |b|);
      BucketMean(c, b).descriptor[r] == Quotient(Sum(DescriptorRow(c, b, k, r)), |k|)
  {
    AccumulatedDescriptors(c, b, |b|, r);
  }

  /**
   * Each channel of a voxel's averaged point, along axis `axis`: the
   * position is the sum of the bucket's positions over the bucket size; the
   * normal is the sum of the finite normals over their number (NaN when
   * there is none); the colour is the mean colour over the bucket,
   * truncated; descriptor row `r` is the sum of the finite descriptors'
   * rows over their number (NaN when there is none).
   */
  lemma BucketMeanIsChannelMeans(c: Cloud, b: seq<nat>, axis: Axis)
    requires WellFormed(c) && c.fields.xyzs && |b| > 0 && FiniteIndices(c, b)
    ensures Along(BucketMean(c, b).xyz, axis) == Finite(Sum(Coordinates(c, b, axis)) / |b| as real)
    ensures c.fields.normals ==>
      var k := Selected(FiniteNormalFlags(c, b), |b|);
      Along(BucketMean(c, b).normal, axis) == Quotient(Sum(NormalCoordinates(c, b, k, axis)), |k|)
    ensures c.fields.rgbs ==>
      Along(BucketMean(c, b).rgb, axis) as int ==
        (IntSum(ColourChannel(c, b, axis)) as real / |b| as real).Floor
    ensures c.fields.HasDescriptor() ==>
      var k := Selected(FiniteDescriptorFlags(c, b), |b|);
      forall r | 0 <= r < c.fields.descriptor.size ::
        BucketMean(c, b).descriptor[r] == Quotient(Sum(DescriptorRow(c, b, k, r)), |k|)
  {
    AccumulatedAlong(c, b, |b|, axis);
    assert Coordinates(c, b, axis)[..|b|] == Coordinates(c, b, axis);
    MeanAlong(c, b, axis);
    if c.fields.normals {
      NormalMean(c, b, axis);
    }
    if c.fields.rgbs {
      ColourMean(c, b, axis);
    }
    if c.fields.HasDescriptor() {
      forall r | 0 <= r < c.fields.descriptor.size
        ensures BucketMean(c, b).descriptor[r] ==
          Quotient(Sum(DescriptorRow(c, b, Selected(FiniteDescriptorFlags(c, b), |b|), r)),
                   |Selected(FiniteDescriptorFlags(c, b), |b|)|)
      {
        DescriptorMean(c, b, r);
      }
    }
  }
}
