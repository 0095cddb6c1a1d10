/**
 * What VoxelizedDownSample computes: the lower corner of the finite points,
 * the map from integer voxel key to the indices of the finite points in that
 * voxel, and one averaged point per occupied voxel.
 */
module DownSampleSpec {
  import opened PcFlags
  import opened CloudValues

  /** An integer voxel coordinate. */
  type Key = Vec3<int>

  /**
   * `std::min(a, b)`: `b < a ? b : a`. It is one of its arguments; when
   * neither is NaN it is below both; a NaN first argument is returned as is,
   * and a NaN second argument is ignored.
   */
  function StdMin(a: Float, b: Float): (m: Float)
    ensures m == a || m == b
    ensures !a.NaN? && !b.NaN? ==> Le(m, a) && Le(m, b)
    ensures a.NaN? || b.NaN? ==> m == a
  {
    if Lt(b, a) then b else a
  }

  const Infinity3: Vec3<Float> := Vec3(PosInf, PosInf, PosInf)

  /**
   * The lower corner after the first `n` points: starting from +infinity, the
   * per-axis minimum over the points whose position is finite on all axes.
   * It bounds every such point from below, and is +infinity when there is
   * none.
   */
  function LowerCorner(c: Cloud, n: nat): (lo: Vec3<Float>)
    requires WellFormed(c) && c.fields.xyzs && n <= c.size
    ensures IsFinite3(lo) || lo == Infinity3
    ensures forall i | 0 <= i < n && IsFinite3(c.xyzs[i]) ::
      && IsFinite3(lo) && lo.x.value <= c.xyzs[i].x.value
      && lo.y.value <= c.xyzs[i].y.value && lo.z.value <= c.xyzs[i].z.value
  {
    if n == 0 then Infinity3
    else
      var lo := LowerCorner(c, n - 1);
      var p := c.xyzs[n - 1];
      if IsFinite3(p) then Vec3(StdMin(p.x, lo.x), StdMin(p.y, lo.y), StdMin(p.z, lo.z)) else lo
  }

  /** Some point among the first `n` has a finite position. */
  ghost predicate AnyFinite(c: Cloud, n: nat)
    requires WellFormed(c) && c.fields.xyzs && n <= c.size
  {
    exists i | 0 <= i < n :: IsFinite3(c.xyzs[i])
  }

  /**
   * The lower corner is finite exactly when some point is, and then each of
   * its coordinates is the coordinate of some finite point: it is the
   * per-axis minimum.
   */
  lemma {:induction false} LowerCornerIsMinimum(c: Cloud, n: nat)
    requires WellFormed(c) && c.fields.xyzs && n <= c.size
    ensures IsFinite3(LowerCorner(c, n)) <==> AnyFinite(c, n)
    ensures IsFinite3(LowerCorner(c, n)) ==>
      && (exists i | 0 <= i < n :: IsFinite3(c.xyzs[i]) && c.xyzs[i].x == LowerCorner(c, n).x)
      && (exists i | 0 <= i < n :: IsFinite3(c.xyzs[i]) && c.xyzs[i].y == LowerCorner(c, n).y)
      && (exists i | 0 <= i < n :: IsFinite3(c.xyzs[i]) && c.xyzs[i].z == LowerCorner(c, n).z)
  {
    if n > 0 {
      LowerCornerIsMinimum(c, n - 1);
      var p := c.xyzs[n - 1];
      if IsFinite3(p) {
        assert AnyFinite(c, n);
      } else if AnyFinite(c, n) {
        var i :| 0 <= i < n && IsFinite3(c.xyzs[i]);
        assert AnyFinite(c, n - 1);
      }
    }
  }

  /**
   * Conversion of a real to `int` by `cast<int>()`: truncation toward zero,
   * so the result has the sign of `r` (or is 0) and is within 1 of it.
   */
  function Trunc(r: real): (k: int)
    ensures 0.0 <= r ==> 0 <= k && k as real <= r < k as real + 1.0
    ensures r < 0.0 ==> k <= 0 && k as real - 1.0 < r <= k as real
  {
    if r >= 0.0 then r.Floor else -((-r).Floor)
  }

  /** The voxel index along one axis: `((p - lo) / voxel_size).cast<int>()`. */
  function AxisKey(p: real, lo: real, voxelSize: real): (k: int)
    requires voxelSize > 0.0
    ensures lo <= p ==> 0 <= k
    ensures p < lo ==> k <= 0
  {
    Trunc((p - lo) / voxelSize)
  }

  /** The voxel key of position `p` against the lower corner `lo`: not negative on any axis where `p` is not below `lo`. */
  function VoxelKey(p: Vec3<Float>, lo: Vec3<Float>, voxelSize: real): (k: Key)
    requires IsFinite3(p) && IsFinite3(lo) && voxelSize > 0.0
    ensures lo.x.value <= p.x.value ==> 0 <= k.x
    ensures lo.y.value <= p.y.value ==> 0 <= k.y
    ensures lo.z.value <= p.z.value ==> 0 <= k.z
  {
    Vec3(AxisKey(p.x.value, lo.x.value, voxelSize),
         AxisKey(p.y.value, lo.y.value, voxelSize),
         AxisKey(p.z.value, lo.z.value, voxelSize))
  }

  /** `lo` is finite whenever a point among the first `n` is, so that keys can be taken against it. */
  ghost predicate CornerUsable(c: Cloud, lo: Vec3<Float>, n: nat)
    requires WellFormed(c) && c.fields.xyzs && n <= c.size
  {
    forall i | 0 <= i < n && IsFinite3(c.xyzs[i]) :: IsFinite3(lo)
  }

  /** Every entry of `b` is a point of `c` with a finite position. */
  ghost predicate FiniteIndices(c: Cloud, b: seq<nat>)
    requires WellFormed(c) && c.fields.xyzs
  {
    forall j | 0 <= j < |b| :: b[j] < c.size && IsFinite3(c.xyzs[b[j]])
  }

  /**
   * Bucket `b` of key `k` is sound after the first `n` points: non-empty,
   * strictly increasing, and holding only finite points below `n` whose key
   * against the finite corner `lo` is `k`.
   */
  ghost predicate SoundBucket(c: Cloud, lo: Vec3<Float>, voxelSize: real, n: nat, k: Key, b: seq<nat>)
    requires WellFormed(c) && c.fields.xyzs && n <= c.size && voxelSize > 0.0
  {
    && |b| > 0 && IsFinite3(lo) && FiniteIndices(c, b)
    && (forall j | 0 <= j < |b| :: b[j] < n && VoxelKey(c.xyzs[b[j]], lo, voxelSize) == k)
    && (forall j1, j2 | 0 <= j1 < j2 < |b| :: b[j1] < b[j2])
  }

  lemma AppendKeepsSound(c: Cloud, lo: Vec3<Float>, voxelSize: real, n: nat, k: Key, b: seq<nat>)
    requires WellFormed(c) && c.fields.xyzs && n < c.size && voxelSize > 0.0
    requires b == [] || SoundBucket(c, lo, voxelSize, n, k, b)
    requires IsFinite3(lo) && IsFinite3(c.xyzs[n]) && VoxelKey(c.xyzs[n], lo, voxelSize) == k
    ensures SoundBucket(c, lo, voxelSize, n + 1, k, b + [n])
  {
  }

  lemma WiderKeepsSound(c: Cloud, lo: Vec3<Float>, voxelSize: real, n: nat, k: Key, b: seq<nat>)
    requires WellFormed(c) && c.fields.xyzs && n < c.size && voxelSize > 0.0
    requires SoundBucket(c, lo, voxelSize, n, k, b)
    ensures SoundBucket(c, lo, voxelSize, n + 1, k, b)
  {
  }

  /**
   * The voxel map after the first `n` points: each point with a finite
   * position appended to the bucket of its voxel key (the bucket created
   * empty on first use). Every bucket is sound.
   */
  function Buckets(c: Cloud, lo: Vec3<Float>, voxelSize: real, n: nat): (m: map<Key, seq<nat>>)
    requires WellFormed(c) && c.fields.xyzs && n <= c.size && voxelSize > 0.0
    requires CornerUsable(c, lo, n)
    ensures forall k | k in m :: SoundBucket(c, lo, voxelSize, n, k, m[k])
  {
    if n == 0 then map[]
    else
      var m := Buckets(c, lo, voxelSize, n - 1);
      var p := c.xyzs[n - 1];
      assert forall k | k in m :: SoundBucket(c, lo, voxelSize, n, k, m[k]) by {
        forall k | k in m ensures SoundBucket(c, lo, voxelSize, n, k, m[k]) {
          WiderKeepsSound(c, lo, voxelSize, n - 1, k, m[k]);
        }
      }
      if IsFinite3(p) then
        var k := VoxelKey(p, lo, voxelSize);
        var b := if k in m then m[k] else [];
        AppendKeepsSound(c, lo, voxelSize, n - 1, k, b);
        m[k := b + [n - 1]]
      else m
  }

  /** The voxel map of the whole cloud, keyed against its lower corner. */
  function VoxelMap(c: Cloud, voxelSize: real): map<Key, seq<nat>>
    requires WellFormed(c) && c.fields.xyzs && voxelSize > 0.0
  {
    Buckets(c, LowerCorner(c, c.size), voxelSize, c.size)
  }

  /** Every point among the first `n` with a finite position is in the bucket of its key. */
  lemma {:induction false} BucketsComplete(c: Cloud, lo: Vec3<Float>, voxelSize: real, n: nat)
    requires WellFormed(c) && c.fields.xyzs && n <= c.size && voxelSize > 0.0
    requires CornerUsable(c, lo, n)
    ensures forall i | 0 <= i < n && IsFinite3(c.xyzs[i]) ::
      IsFinite3(lo) && VoxelKey(c.xyzs[i], lo, voxelSize) in Buckets(c, lo, voxelSize, n) &&
      i in Buckets(c, lo, voxelSize, n)[VoxelKey(c.xyzs[i], lo, voxelSize)]
  {
    if n > 0 {
      BucketsComplete(c, lo, voxelSize, n - 1);
    }
  }

  /**
   * Partition: a point with a finite position is in exactly one bucket, the
   * one of its key; a point with a non-finite position is in none.
   */
  lemma ExactlyOneBucket(c: Cloud, voxelSize: real, i: nat, k: Key)
    requires WellFormed(c) && c.fields.xyzs && voxelSize > 0.0 && i < c.size
    requires k in VoxelMap(c, voxelSize)
    ensures var lo := LowerCorner(c, c.size);
      i in VoxelMap(c, voxelSize)[k] <==> IsFinite3(c.xyzs[i]) && VoxelKey(c.xyzs[i], lo, voxelSize) == k
  {
    BucketsComplete(c, LowerCorner(c, c.size), voxelSize, c.size);
  }

  /** The occupied voxels are exactly the keys of the points with finite positions. */
  lemma OccupiedVoxels(c: Cloud, voxelSize: real)
    requires WellFormed(c) && c.fields.xyzs && voxelSize > 0.0
    ensures var lo := LowerCorner(c, c.size);
      VoxelMap(c, voxelSize).Keys ==
        set i | 0 <= i < c.size && IsFinite3(c.xyzs[i]) :: VoxelKey(c.xyzs[i], lo, voxelSize)
  {
    var lo := LowerCorner(c, c.size);
    var m := VoxelMap(c, voxelSize);
    BucketsComplete(c, lo, voxelSize, c.size);
    forall k | k in m
      ensures exists i | 0 <= i < c.size && IsFinite3(c.xyzs[i]) :: VoxelKey(c.xyzs[i], lo, voxelSize) == k
    {
      var i := m[k][0];
      assert IsFinite3(c.xyzs[i]) && VoxelKey(c.xyzs[i], lo, voxelSize) == k;
    }
  }

  /** The key every finite point gets under an infinite voxel size: a finite offset divided by +infinity is 0. */
  const Origin: Key := Vec3(0, 0, 0)

  function Abs(x: real): real {
    if x < 0.0 then -x else x
  }

  /**
   * A finite voxel size greater than the offset from `lo` of every finite
   * point among the first `n`, on every axis. Bucketing with it puts all
   * those points in one voxel, as an infinite voxel size does.
   */
  function Span(c: Cloud, lo: Vec3<Float>, n: nat): (s: real)
    requires WellFormed(c) && c.fields.xyzs && n <= c.size && CornerUsable(c, lo, n)
    ensures s >= 1.0
    ensures forall i | 0 <= i < n && IsFinite3(c.xyzs[i]) ::
      && Abs(c.xyzs[i].x.value - lo.x.value) < s
      && Abs(c.xyzs[i].y.value - lo.y.value) < s
      && Abs(c.xyzs[i].z.value - lo.z.value) < s
  {
    if n == 0 then 1.0
    else
      var s := Span(c, lo, n - 1);
      var p := c.xyzs[n - 1];
      if IsFinite3(p) then
        var d := Abs(p.x.value - lo.x.value) + Abs(p.y.value - lo.y.value) + Abs(p.z.value - lo.z.value) + 1.0;
        if d > s then d else s
      else s
  }

  /** Against the lower corner, every finite point has key `Origin` when bucketed by `Span`. */
  lemma SpanKeyIsOrigin(c: Cloud, i: nat)
    requires WellFormed(c) && c.fields.xyzs && i < c.size && IsFinite3(c.xyzs[i])
    ensures var lo := LowerCorner(c, c.size);
      IsFinite3(lo) && VoxelKey(c.xyzs[i], lo, Span(c, lo, c.size)) == Origin
  {
    var lo := LowerCorner(c, c.size);
    var s := Span(c, lo, c.size);
    var p := c.xyzs[i];
    InSlabHasKey(p.x.value, lo.x.value, s, 0);
    InSlabHasKey(p.y.value, lo.y.value, s, 0);
    InSlabHasKey(p.z.value, lo.z.value, s, 0);
  }

  /**
   * The finite voxel size the model buckets with once `voxel_size > 0` has
   * passed: the size itself, or `Span` for +infinity.
   */
  function Scale(c: Cloud, voxelSize: Float): (s: real)
    requires WellFormed(c) && c.fields.xyzs && Lt(Finite(0.0), voxelSize)
    ensures s > 0.0
    ensures voxelSize.Finite? ==> s == voxelSize.value
  {
    if voxelSize.Finite? then voxelSize.value else Span(c, LowerCorner(c, c.size), c.size)
  }

  /**
   * `((xyz - lower_xyz) / voxel_size).cast<int>()` for a voxel size past the
   * check: with +infinity every finite offset divides to 0.
   */
  function ComputedKey(p: Vec3<Float>, lo: Vec3<Float>, voxelSize: Float): (k: Key)
    requires IsFinite3(p) && IsFinite3(lo) && Lt(Finite(0.0), voxelSize)
    ensures voxelSize.PosInf? ==> k == Origin
    ensures lo.x.value <= p.x.value ==> 0 <= k.x
    ensures lo.y.value <= p.y.value ==> 0 <= k.y
    ensures lo.z.value <= p.z.value ==> 0 <= k.z
  {
    if voxelSize.PosInf? then Origin else VoxelKey(p, lo, voxelSize.value)
  }

  /** Against the lower corner, the key the code computes is the key under `Scale`, for finite and infinite voxel sizes alike. */
  lemma ComputedKeyIsVoxelKey(c: Cloud, voxelSize: Float, i: nat)
    requires WellFormed(c) && c.fields.xyzs && Lt(Finite(0.0), voxelSize)
    requires i < c.size && IsFinite3(c.xyzs[i])
    ensures var lo := LowerCorner(c, c.size);
      IsFinite3(lo) && ComputedKey(c.xyzs[i], lo, voxelSize) == VoxelKey(c.xyzs[i], lo, Scale(c, voxelSize))
  {
    if voxelSize.PosInf? {
      SpanKeyIsOrigin(c, i);
    }
  }

  /**
   * An infinite voxel size puts every finite point in the one voxel
   * `Origin`, so the down-sampled cloud has at most one point.
   */
  lemma InfiniteSizeIsOneVoxel(c: Cloud)
    requires WellFormed(c) && c.fields.xyzs
    ensures var m := VoxelMap(c, Scale(c, PosInf));
      && m.Keys <= {Origin} && |m| <= 1
      && forall i | 0 <= i < c.size && IsFinite3(c.xyzs[i]) :: Origin in m && i in m[Origin]
  {
    var s := Scale(c, PosInf);
    var lo := LowerCorner(c, c.size);
    var m := VoxelMap(c, s);
    BucketsComplete(c, lo, s, c.size);
    forall i | 0 <= i < c.size && IsFinite3(c.xyzs[i]) ensures VoxelKey(c.xyzs[i], lo, s) == Origin {
      SpanKeyIsOrigin(c, i);
    }
    forall k | k in m ensures k == Origin {
      var i := m[k][0];
      assert IsFinite3(c.xyzs[i]) && VoxelKey(c.xyzs[i], lo, s) == k;
    }
    if |m| > 0 {
      var k :| k in m;
      assert m.Keys == {Origin};
    }
  }

  /** The accumulators of one bucket: sums in double precision and the counts of finite normals and descriptors. */
  datatype Sums = Sums(xyz: Vec3<real>, normal: Vec3<real>, numNormals: nat,
                       rgb: Vec3<int>, descriptor: seq<real>, numDescriptors: nat)

  const Zero3: Vec3<real> := Vec3(0.0, 0.0, 0.0)

  /** Zeroed accumulators for descriptors of `rows` rows. */
  function NoSums(rows: nat): Sums {
    Sums(Zero3, Zero3, 0, Vec3(0, 0, 0), seq(rows, _ => 0.0), 0)
  }

  function AddFloat3(s: Vec3<real>, v: Vec3<Float>): Vec3<real>
    requires IsFinite3(v)
  {
    Vec3(s.x + v.x.value, s.y + v.y.value, s.z + v.z.value)
  }

  function AddColor3(s: Vec3<int>, v: Vec3<Color>): Vec3<int> {
    Vec3(s.x + v.x, s.y + v.y, s.z + v.z)
  }

  function AddRows(s: seq<real>, v: seq<Float>): (r: seq<real>)
    requires |s| == |v| && AllFinite(v)
    ensures |r| == |s|
  {
    seq(|s|, k requires 0 <= k < |s| => s[k] + v[k].value)
  }

  /**
   * The accumulators after adding point `i`: its position always, its colour
   * when the cloud has colours, its normal and its descriptor only when the
   * cloud has them and they are finite, counting those.
   */
  function AddPoint(c: Cloud, s: Sums, i: nat): (r: Sums)
    requires WellFormed(c) && c.fields.xyzs && i < c.size && IsFinite3(c.xyzs[i])
    requires |s.descriptor| == c.fields.descriptor.size
    ensures |r.descriptor| == |s.descriptor|
    ensures s.numNormals <= r.numNormals <= s.numNormals + 1
    ensures s.numDescriptors <= r.numDescriptors <= s.numDescriptors + 1
  {
    var addNormal := c.fields.normals && IsFinite3(c.normals[i]);
    var addDescriptor := c.fields.HasDescriptor() && AllFinite(c.descriptors[i]);
    Sums(AddFloat3(s.xyz, c.xyzs[i]),
         if addNormal then AddFloat3(s.normal, c.normals[i]) else s.normal,
         if addNormal then s.numNormals + 1 else s.numNormals,
         if c.fields.rgbs then AddColor3(s.rgb, c.rgbs[i]) else s.rgb,
         if addDescriptor then AddRows(s.descriptor, c.descriptors[i]) else s.descriptor,
         if addDescriptor then s.numDescriptors + 1 else s.numDescriptors)
  }

  /**
   * The accumulators after the first `n` points of bucket `b`, in order.
   * The counts never exceed `n` and each colour sum lies between 0 and 255
   * times `n`.
   */
  function Accumulated(c: Cloud, b: seq<nat>, n: nat): (s: Sums)
    requires WellFormed(c) && c.fields.xyzs && FiniteIndices(c, b) && n <= |b|
    ensures |s.descriptor| == c.fields.descriptor.size
    ensures s.numNormals <= n && s.numDescriptors <= n
    ensures 0 <= s.rgb.x <= 255 * n && 0 <= s.rgb.y <= 255 * n && 0 <= s.rgb.z <= 255 * n
  {
    if n == 0 then NoSums(c.fields.descriptor.size)
    else AddPoint(c, Accumulated(c, b, n - 1), b[n - 1])
  }

  /** `sum / count` in floating point: 0 / 0 is NaN. */
  function Quotient(sum: real, count: nat): (q: Float)
    ensures q.Finite? <==> count > 0
  {
    if count == 0 then NaN else Finite(sum / count as real)
  }

  /** The colour-channel mean `(sum / n).cast<uint8_t>()`: the quotient of non-negative numbers truncates to the floor. */
  function MeanChannel(sum: int, n: nat): (m: Color)
    requires 0 < n && 0 <= sum <= 255 * n
    ensures m * n <= sum < (m + 1) * n
  {
    sum / n
  }

  /**
   * The averaged point of bucket `b`: the mean position; the mean of the
   * finite normals (NaN when there is none); the truncated mean colour; the
   * mean of the finite descriptors (NaN rows when there is none). Absent
   * fields hold their placeholders.
   */
  function BucketMean(c: Cloud, b: seq<nat>): (p: Point)
    requires WellFormed(c) && c.fields.xyzs && |b| > 0 && FiniteIndices(c, b)
    ensures Fits(c.fields, p) && IsFinite3(p.xyz)
  {
    var s := Accumulated(c, b, |b|);
    var n := |b|;
    Point(Vec3(Quotient(s.xyz.x, n), Quotient(s.xyz.y, n), Quotient(s.xyz.z, n)),
          if c.fields.normals
          then Vec3(Quotient(s.normal.x, s.numNormals), Quotient(s.normal.y, s.numNormals),
                    Quotient(s.normal.z, s.numNormals))
          else DefaultXyz,
          if c.fields.rgbs
          then Vec3(MeanChannel(s.rgb.x, n), MeanChannel(s.rgb.y, n), MeanChannel(s.rgb.z, n))
          else DefaultRgb,
          if c.fields.HasDescriptor()
          then seq(c.fields.descriptor.size, r requires 0 <= r < c.fields.descriptor.size =>
                     Quotient(s.descriptor[r], s.numDescriptors))
          else [])
  }

  /** A point whose normal and descriptor count as finite, so they are averaged in. */
  predicate FullyFinite(c: Cloud, i: nat)
    requires WellFormed(c) && i < c.size
  {
    && (c.fields.xyzs ==> IsFinite3(c.xyzs[i]))
    && (c.fields.normals ==> IsFinite3(c.normals[i]))
    && (c.fields.HasDescriptor() ==> AllFinite(c.descriptors[i]))
  }

  /** The mean of one finite value is that value. */
  lemma SingleQuotient(x: Float)
    requires x.Finite?
    ensures Quotient(0.0 + x.value, 1) == x
  {
  }

  /** A voxel holding one point whose fields are all finite is replaced by that very point. */
  lemma MeanOfSingleton(c: Cloud, i: nat)
    requires WellFormed(c) && c.fields.xyzs && i < c.size && FullyFinite(c, i)
    ensures BucketMean(c, [i]) == PointAt(c, i)
  {
    assert Accumulated(c, [i], 0) == NoSums(c.fields.descriptor.size);
    var s := Accumulated(c, [i], 1);
    assert s == AddPoint(c, NoSums(c.fields.descriptor.size), i);
    var p := PointAt(c, i);
    var q := BucketMean(c, [i]);
    SingleQuotient(p.xyz.x);
    SingleQuotient(p.xyz.y);
    SingleQuotient(p.xyz.z);
    assert q.xyz == p.xyz;
    if c.fields.normals {
      SingleQuotient(p.normal.x);
      SingleQuotient(p.normal.y);
      SingleQuotient(p.normal.z);
    }
    assert q.normal == p.normal;
    assert q.rgb == p.rgb;
    if c.fields.HasDescriptor() {
      assert |q.descriptor| == |p.descriptor|;
      forall r | 0 <= r < |q.descriptor| ensures q.descriptor[r] == p.descriptor[r] {
        assert p.descriptor[r].Finite?;
      }
    }
  }

  lemma FloorOfSlab(r: real, k: int)
    requires k as real <= r < (k + 1) as real
    ensures r.Floor == k
  {
  }

  lemma MultiplyByPositive(a: real, b: real, v: real)
    requires v > 0.0
    ensures a <= b <==> a * v <= b * v
    ensures a < b <==> a * v < b * v
  {
  }

  lemma DivideThenMultiply(a: real, v: real)
    requires v > 0.0
    ensures (a / v) * v == a
  {
  }

  lemma SlabIsFloor(p: real, lo: real, voxelSize: real, k: int, r: real)
    requires voxelSize > 0.0 && r * voxelSize == p - lo
    requires lo + k as real * voxelSize <= p < lo + (k + 1) as real * voxelSize
    ensures r.Floor == k
  {
    MultiplyByPositive(k as real, r, voxelSize);
    MultiplyByPositive(r, (k + 1) as real, voxelSize);
    FloorOfSlab(r, k);
  }

  lemma FloorGivesSlab(p: real, lo: real, voxelSize: real, k: int, r: real)
    requires voxelSize > 0.0 && r * voxelSize == p - lo && r.Floor == k
    ensures lo + k as real * voxelSize <= p < lo + (k + 1) as real * voxelSize
  {
    FloorBounds(r);
    ScaledSlab(p, lo, voxelSize, k as real, r, (k + 1) as real);
  }

  lemma FloorBounds(r: real)
    ensures r.Floor as real <= r < (r.Floor + 1) as real
  {
  }

  lemma ScaledSlab(p: real, lo: real, v: real, a: real, r: real, b: real)
    requires v > 0.0 && r * v == p - lo && a <= r < b
    ensures lo + a * v <= p < lo + b * v
  {
    MultiplyByPositive(a, r, v);
    MultiplyByPositive(r, b, v);
  }

  /** Above the lower corner, voxel index `k` is the half-open slab `[lo + k * size, lo + (k + 1) * size)`. */
  lemma AxisKeyIsSlab(p: real, lo: real, voxelSize: real, k: int)
    requires voxelSize > 0.0 && lo <= p
    ensures AxisKey(p, lo, voxelSize) == k <==>
      0 <= k && lo + k as real * voxelSize <= p < lo + (k + 1) as real * voxelSize
  {
    var r := (p - lo) / voxelSize;
    DivideThenMultiply(p - lo, voxelSize);
    MultiplyByPositive(0.0, r, voxelSize);
    assert AxisKey(p, lo, voxelSize) == r.Floor;
    if AxisKey(p, lo, voxelSize) == k {
      FloorGivesSlab(p, lo, voxelSize, k, r);
    }
    if 0 <= k && lo + k as real * voxelSize <= p < lo + (k + 1) as real * voxelSize {
      SlabIsFloor(p, lo, voxelSize, k, r);
    }
  }

  /** One of the three coordinate axes. */
  datatype Axis = X | Y | Z

  function Along<T>(v: Vec3<T>, axis: Axis): T {
    match axis
    case X => v.x
    case Y => v.y
    case Z => v.z
  }

  lemma AlongVoxelKey(p: Vec3<Float>, lo: Vec3<Float>, voxelSize: real, axis: Axis)
    requires IsFinite3(p) && IsFinite3(lo) && voxelSize > 0.0
    ensures Along(p, axis).Finite? && Along(lo, axis).Finite?
    ensures Along(VoxelKey(p, lo, voxelSize), axis) ==
      AxisKey(Along(p, axis).value, Along(lo, axis).value, voxelSize)
  {
  }

  lemma AlongAdd(s: Vec3<real>, v: Vec3<Float>, axis: Axis)
    requires IsFinite3(v)
    ensures Along(v, axis).Finite?
    ensures Along(AddFloat3(s, v), axis) == Along(s, axis) + Along(v, axis).value
  {
  }

  /** One more value in `[low, high)` keeps a sum of `n` such values between `n` times the bounds. */
  lemma SumStep(n: real, sum: real, x: real, low: real, high: real)
    requires n >= 0.0 && (n == 0.0 ==> sum == 0.0)
    requires n * low <= sum && (n > 0.0 ==> sum < n * high) && low <= x < high
    ensures (n + 1.0) * low <= sum + x < (n + 1.0) * high
  {
  }

  /** The sum of a sequence of reals, added front to back. */
  function Sum(xs: seq<real>): real {
    if |xs| == 0 then 0.0 else Sum(xs[..|xs| - 1]) + xs[|xs| - 1]
  }

  /** A sum of `n` values in `[low, high)` lies between `n` times the bounds. */
  lemma {:induction false} SumBetween(xs: seq<real>, low: real, high: real)
    requires forall j | 0 <= j < |xs| :: low <= xs[j] < high
    ensures |xs| as real * low <= Sum(xs)
    ensures |xs| > 0 ==> Sum(xs) < |xs| as real * high
  {
    if |xs| > 0 {
      var front := xs[..|xs| - 1];
      SumBetween(front, low, high);
      SumStep(|front| as real, Sum(front), xs[|xs| - 1], low, high);
    }
  }

  /** The coordinates along `axis` of the positions of bucket `b`. */
  function Coordinates(c: Cloud, b: seq<nat>, axis: Axis): (xs: seq<real>)
    requires WellFormed(c) && c.fields.xyzs && FiniteIndices(c, b)
    ensures |xs| == |b|
  {
    seq(|b|, j requires 0 <= j < |b| => Along(c.xyzs[b[j]], axis).value)
  }

  /** The accumulated position of the first `n` points of a bucket is, along each axis, the sum of their coordinates. */
  lemma {:induction false} AccumulatedAlong(c: Cloud, b: seq<nat>, n: nat, axis: Axis)
    requires WellFormed(c) && c.fields.xyzs && FiniteIndices(c, b) && n <= |b|
    ensures Along(Accumulated(c, b, n).xyz, axis) == Sum(Coordinates(c, b, axis)[..n])
  {
    if n > 0 {
      AccumulatedAlong(c, b, n - 1, axis);
      var s := Accumulated(c, b, n - 1);
      AlongAdd(s.xyz, c.xyzs[b[n - 1]], axis);
      var xs := Coordinates(c, b, axis);
      assert xs[..n][..n - 1] == xs[..n - 1];
    }
  }

  /** A mean of `n` values in `[a, b)` is in `[a, b)`. */
  lemma MeanInRange(sum: real, n: nat, a: real, b: real)
    requires n > 0 && n as real * a <= sum < n as real * b
    ensures a <= sum / n as real < b
  {
    DivideThenMultiply(sum, n as real);
    MultiplyByPositive(a, sum / n as real, n as real);
    MultiplyByPositive(sum / n as real, b, n as real);
  }

  /** Along one axis, the averaged position of a bucket is its sum over its size. */
  lemma MeanAlong(c: Cloud, b: seq<nat>, axis: Axis)
    requires WellFormed(c) && c.fields.xyzs && |b| > 0 && FiniteIndices(c, b)
    ensures Along(BucketMean(c, b).xyz, axis) == Finite(Along(Accumulated(c, b, |b|).xyz, axis) / |b| as real)
  {
    match axis
    case X =>
    case Y =>
    case Z =>
  }

  /** The lower end of voxel slab `k` above the corner coordinate `lo`. */
  function SlabLow(lo: real, voxelSize: real, k: int): real {
    lo + k as real * voxelSize
  }

  /** Along one axis, a sound bucket lies in the slab of its voxel index, which is not negative. */
  lemma BucketInSlab(c: Cloud, lo: Vec3<Float>, voxelSize: real, k: Key, b: seq<nat>, axis: Axis)
    requires WellFormed(c) && c.fields.xyzs && voxelSize > 0.0
    requires SoundBucket(c, lo, voxelSize, c.size, k, b)
    requires forall j | 0 <= j < |b| :: Along(lo, axis).value <= Along(c.xyzs[b[j]], axis).value
    ensures 0 <= Along(k, axis)
    ensures forall j | 0 <= j < |b| ::
      && SlabLow(Along(lo, axis).value, voxelSize, Along(k, axis)) <= Along(c.xyzs[b[j]], axis).value
      && Along(c.xyzs[b[j]], axis).value < SlabLow(Along(lo, axis).value, voxelSize, Along(k, axis) + 1)
  {
    var l := Along(lo, axis).value;
    var kk := Along(k, axis);
    forall j | 0 <= j < |b|
      ensures 0 <= kk
      ensures SlabLow(l, voxelSize, kk) <= Along(c.xyzs[b[j]], axis).value < SlabLow(l, voxelSize, kk + 1)
    {
      var p := c.xyzs[b[j]];
      AlongVoxelKey(p, lo, voxelSize, axis);
      AxisKeyIsSlab(Along(p, axis).value, l, voxelSize, kk);
    }
    assert SlabLow(l, voxelSize, kk) <= Along(c.xyzs[b[0]], axis).value;
  }

  /** The mean of values in `[low, high)` is in `[low, high)`. */
  lemma MeanBetween(xs: seq<real>, low: real, high: real)
    requires |xs| > 0 && forall j | 0 <= j < |xs| :: low <= xs[j] < high
    ensures low <= Sum(xs) / |xs| as real < high
  {
    SumBetween(xs, low, high);
    MeanInRange(Sum(xs), |xs|, low, high);
  }

  /** A value in voxel slab `k`, with `k` not negative, has voxel index `k`. */
  lemma InSlabHasKey(x: real, lo: real, voxelSize: real, k: int)
    requires voxelSize > 0.0 && 0 <= k
    requires SlabLow(lo, voxelSize, k) <= x < SlabLow(lo, voxelSize, k + 1)
    ensures AxisKey(x, lo, voxelSize) == k
  {
    MultiplyByPositive(0.0, k as real, voxelSize);
    AxisKeyIsSlab(x, lo, voxelSize, k);
  }

  /** The mean of values in voxel slab `k` (with `k` not negative) is in that slab. */
  lemma MeanKeepsAxisKey(xs: seq<real>, lo: real, voxelSize: real, k: int)
    requires |xs| > 0 && voxelSize > 0.0 && 0 <= k
    requires forall j | 0 <= j < |xs| :: SlabLow(lo, voxelSize, k) <= xs[j] < SlabLow(lo, voxelSize, k + 1)
    ensures AxisKey(Sum(xs) / |xs| as real, lo, voxelSize) == k
  {
    MeanBetween(xs, SlabLow(lo, voxelSize, k), SlabLow(lo, voxelSize, k + 1));
    InSlabHasKey(Sum(xs) / |xs| as real, lo, voxelSize, k);
  }

  /** Along one axis, the averaged position of a sound bucket has the bucket's voxel index. */
  lemma MeanInOwnSlab(c: Cloud, lo: Vec3<Float>, voxelSize: real, k: Key, b: seq<nat>, axis: Axis)
    requires WellFormed(c) && c.fields.xyzs && voxelSize > 0.0
    requires SoundBucket(c, lo, voxelSize, c.size, k, b)
    requires forall j | 0 <= j < |b| :: Along(lo, axis).value <= Along(c.xyzs[b[j]], axis).value
    ensures Along(BucketMean(c, b).xyz, axis).Finite?
    ensures AxisKey(Along(BucketMean(c, b).xyz, axis).value, Along(lo, axis).value, voxelSize) == Along(k, axis)
  {
    BucketInSlab(c, lo, voxelSize, k, b, axis);
    MeanCoordinate(c, b, axis);
    MeanKeepsAxisKey(Coordinates(c, b, axis), Along(lo, axis).value, voxelSize, Along(k, axis));
  }

  /** Along each axis, a bucket's averaged position is the mean of its points' coordinates. */
  lemma MeanCoordinate(c: Cloud, b: seq<nat>, axis: Axis)
    requires WellFormed(c) && c.fields.xyzs && |b| > 0 && FiniteIndices(c, b)
    ensures Along(BucketMean(c, b).xyz, axis) == Finite(Sum(Coordinates(c, b, axis)) / |b| as real)
  {
    AccumulatedAlong(c, b, |b|, axis);
    assert Coordinates(c, b, axis)[..|b|] == Coordinates(c, b, axis);
    MeanAlong(c, b, axis);
  }

  /**
   * The averaged position of every bucket lies in the bucket's own voxel:
   * down-sampling never moves a point into a neighbouring voxel.
   */
  lemma MeanInOwnVoxel(c: Cloud, voxelSize: real, k: Key)
    requires WellFormed(c) && c.fields.xyzs && voxelSize > 0.0
    requires k in VoxelMap(c, voxelSize)
    ensures var lo := LowerCorner(c, c.size);
      IsFinite3(lo) && VoxelKey(BucketMean(c, VoxelMap(c, voxelSize)[k]).xyz, lo, voxelSize) == k
  {
    var lo := LowerCorner(c, c.size);
    var b := VoxelMap(c, voxelSize)[k];
    var mean := BucketMean(c, b).xyz;
    MeanInOwnSlab(c, lo, voxelSize, k, b, X);
    MeanInOwnSlab(c, lo, voxelSize, k, b, Y);
    MeanInOwnSlab(c, lo, voxelSize, k, b, Z);
    AlongVoxelKey(mean, lo, voxelSize, X);
    AlongVoxelKey(mean, lo, voxelSize, Y);
    AlongVoxelKey(mean, lo, voxelSize, Z);
  }

  /** `keys` lists every key of `m` exactly once, in some order. */
  ghost predicate Enumerates<K, V>(keys: seq<K>, m: map<K, V>) {
    && (forall j | 0 <= j < |keys| :: keys[j] in m)
    && (forall k | k in m :: k in keys)
    && (forall j1, j2 | 0 <= j1 < j2 < |keys| :: keys[j1] != keys[j2])
  }

  /** An enumeration of a map's keys is as long as the map is large. */
  lemma {:induction false} EnumerationSize<K, V>(keys: seq<K>, m: map<K, V>)
    requires Enumerates(keys, m)
    ensures |keys| == |m|
  {
    if |keys| == 0 {
      assert m.Keys == {};
    } else {
      var last := keys[|keys| - 1];
      var front := keys[..|keys| - 1];
      var rest := m - {last};
      assert last in m;
      assert |rest.Keys| == |m.Keys| - 1 by {
        assert rest.Keys == m.Keys - {last};
      }
      forall k | k in rest ensures k in front {
        var j :| 0 <= j < |keys| && keys[j] == k;
        assert j != |keys| - 1;
        assert front[j] == k;
      }
      forall j | 0 <= j < |front| ensures front[j] in rest {
        assert front[j] == keys[j] && keys[j] != last;
      }
      assert Enumerates(front, rest);
      EnumerationSize(front, rest);
    }
  }

  /** The averaged points of the voxels listed in `keys`, in that order. */
  function MeanPoints(c: Cloud, voxelSize: real, keys: seq<Key>): (ps: seq<Point>)
    requires WellFormed(c) && c.fields.xyzs && voxelSize > 0.0
    requires forall j | 0 <= j < |keys| :: keys[j] in VoxelMap(c, voxelSize)
    ensures |ps| == |keys| && forall j | 0 <= j < |ps| :: Fits(c.fields, ps[j]) && IsFinite3(ps[j].xyz)
  {
    var m := VoxelMap(c, voxelSize);
    seq(|keys|, j requires 0 <= j < |keys| =>
      assert SoundBucket(c, LowerCorner(c, c.size), voxelSize, c.size, keys[j], m[keys[j]]);
      BucketMean(c, m[keys[j]]))
  }

  /**
   * The down-sampled cloud: the same fields, and one averaged point per
   * occupied voxel, the voxels taken in the order `keys` (the voxel map's
   * iteration order, which the model leaves open).
   */
  function DownSampled(c: Cloud, voxelSize: real, keys: seq<Key>): (d: Cloud)
    requires WellFormed(c) && c.fields.xyzs && voxelSize > 0.0
    requires forall j | 0 <= j < |keys| :: keys[j] in VoxelMap(c, voxelSize)
    ensures WellFormed(d) && d.fields == c.fields && d.size == |keys|
    ensures forall j | 0 <= j < d.size :: IsFinite3(d.xyzs[j])
  {
    var ps := MeanPoints(c, voxelSize, keys);
    var d := FromPoints(c.fields, ps);
    assert forall j | 0 <= j < d.size :: d.xyzs[j] == PointAt(d, j).xyz == ps[j].xyz;
    d
  }

  /**
   * The down-sampled cloud has the input's fields and one point per
   * occupied voxel; point `j` is the average of voxel `keys[j]` and lies in
   * that voxel, so no two output points share a voxel.
   */
  lemma DownSampledIsVoxelMeans(c: Cloud, voxelSize: real, keys: seq<Key>)
    requires WellFormed(c) && c.fields.xyzs && voxelSize > 0.0
    requires Enumerates(keys, VoxelMap(c, voxelSize))
    ensures var d := DownSampled(c, voxelSize, keys); var lo := LowerCorner(c, c.size);
      && WellFormed(d) && d.fields == c.fields && d.size == |VoxelMap(c, voxelSize)|
      && forall j | 0 <= j < d.size ::
        && PointAt(d, j) == BucketMean(c, VoxelMap(c, voxelSize)[keys[j]])
        && IsFinite3(d.xyzs[j]) && IsFinite3(lo) && VoxelKey(d.xyzs[j], lo, voxelSize) == keys[j]
  {
    var ps := MeanPoints(c, voxelSize, keys);
    var d := DownSampled(c, voxelSize, keys);
    assert d == FromPoints(c.fields, ps);
    EnumerationSize(keys, VoxelMap(c, voxelSize));
    forall j | 0 <= j < d.size
      ensures PointAt(d, j) == BucketMean(c, VoxelMap(c, voxelSize)[keys[j]])
      ensures IsFinite3(LowerCorner(c, c.size))
      ensures VoxelKey(d.xyzs[j], LowerCorner(c, c.size), voxelSize) == keys[j]
    {
      assert PointAt(d, j) == ps[j];
      assert PointAt(d, j).xyz == d.xyzs[j];
      MeanInOwnVoxel(c, voxelSize, keys[j]);
    }
  }

  /** A cloud of the input's fields holding the mean of voxel `keys[j]` as point `j` is the down-sampled cloud. */
  lemma MeansAreDownSampled(out: Cloud, c: Cloud, voxelSize: real, keys: seq<Key>)
    requires WellFormed(c) && c.fields.xyzs && voxelSize > 0.0
    requires Enumerates(keys, VoxelMap(c, voxelSize))
    requires WellFormed(out) && out.fields == c.fields && out.size == |keys|
    requires forall j | 0 <= j < |keys| :: PointAt(out, j) == BucketMean(c, VoxelMap(c, voxelSize)[keys[j]])
    ensures out == DownSampled(c, voxelSize, keys)
  {
    var ps := MeanPoints(c, voxelSize, keys);
    var d := DownSampled(c, voxelSize, keys);
    assert d == FromPoints(c.fields, ps);
    forall j | 0 <= j < out.size ensures PointAt(out, j) == PointAt(d, j) {
      assert PointAt(d, j) == ps[j];
    }
    PointsDetermineCloud(out, d);
  }

  /**
   * Every input point with a finite position is averaged into exactly one
   * output point, the one of its voxel; points with a non-finite position
   * into none.
   */
  lemma EachFinitePointAveragedOnce(c: Cloud, voxelSize: real, keys: seq<Key>, i: nat)
    requires WellFormed(c) && c.fields.xyzs && voxelSize > 0.0 && i < c.size
    requires Enumerates(keys, VoxelMap(c, voxelSize))
    ensures var m := VoxelMap(c, voxelSize);
      && (IsFinite3(c.xyzs[i]) <==> exists j | 0 <= j < |keys| :: i in m[keys[j]])
      && forall j1, j2 | 0 <= j1 < |keys| && 0 <= j2 < |keys| && i in m[keys[j1]] && i in m[keys[j2]] :: j1 == j2
  {
    var m := VoxelMap(c, voxelSize);
    var lo := LowerCorner(c, c.size);
    BucketsComplete(c, lo, voxelSize, c.size);
    if IsFinite3(c.xyzs[i]) {
      var k := VoxelKey(c.xyzs[i], lo, voxelSize);
      var j :| 0 <= j < |keys| && keys[j] == k;
      assert i in m[keys[j]];
    }
    forall j | 0 <= j < |keys| && i in m[keys[j]] ensures IsFinite3(c.xyzs[i]) {
      ExactlyOneBucket(c, voxelSize, i, keys[j]);
    }
    forall j1, j2 | 0 <= j1 < |keys| && 0 <= j2 < |keys| && i in m[keys[j1]] && i in m[keys[j2]]
      ensures j1 == j2
    {
      ExactlyOneBucket(c, voxelSize, i, keys[j1]);
      ExactlyOneBucket(c, voxelSize, i, keys[j2]);
    }
  }
}
