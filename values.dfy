/**
 * The value a point cloud holds: its field set, its size and one dense buffer
 * per present field, one column per point. Also the errors the cloud's
 * operations throw, and the specifications of resizing, default-filling and
 * field-by-field copying on such values.
 */
module CloudValues {
  import opened PcFlags

  /**
   * A scalar of the cloud's element type. Finite values are exact reals
   * (round-off is not modelled); the non-finite values are kept apart so that
   * comparisons and finiteness tests behave as in IEEE arithmetic.
   */
  datatype Float = Finite(value: real) | PosInf | NegInf | NaN

  /** IEEE `a <= b`: false as soon as either side is NaN. */
  predicate Le(a: Float, b: Float) {
    match a
    case NaN => false
    case NegInf => !b.NaN?
    case PosInf => b.PosInf?
    case Finite(x) => b.PosInf? || (b.Finite? && x <= b.value)
  }

  /** IEEE `a < b`. */
  predicate Lt(a: Float, b: Float) {
    match a
    case NaN => false
    case NegInf => b.Finite? || b.PosInf?
    case PosInf => false
    case Finite(x) => b.PosInf? || (b.Finite? && x < b.value)
  }

  /** A column of a three-row buffer. */
  datatype Vec3<T> = Vec3(x: T, y: T, z: T)

  /** A colour channel (`uint8_t`). */
  type Color = c: int | 0 <= c < 256

  /** `v.array().isFinite().all()` on a three-row column. */
  predicate IsFinite3(v: Vec3<Float>) {
    v.x.Finite? && v.y.Finite? && v.z.Finite?
  }

  /** `isFinite().all()` on a descriptor column. */
  predicate AllFinite(s: seq<Float>) {
    forall k | 0 <= k < |s| :: s[k].Finite?
  }

  /** kDefaultValue: the quiet NaN. */
  const DefaultValue: Float := NaN
  /** kDefaultColor: a value-initialised channel, 0. */
  const DefaultColor: Color := 0

  const DefaultXyz: Vec3<Float> := Vec3(DefaultValue, DefaultValue, DefaultValue)
  const DefaultRgb: Vec3<Color> := Vec3(DefaultColor, DefaultColor, DefaultColor)

  /** A descriptor column of field set `f` filled with kDefaultValue. */
  function DefaultDescriptor(f: Fields): seq<Float> {
    seq(f.descriptor.size, _ => DefaultValue)
  }

  /** The errors the cloud's operations throw. */
  datatype Error =
    | NoFields                                          // constructing with kNone
    | InheritFields                                     // constructing with the kInherit bit
    | SizeMismatch(newSize: nat, oldSize: nat)          // SetFrom without resizing
    | MissingFields(expected: Fields, actual: Fields)   // RequireFields
    | InexactFields(expected: Fields, actual: Fields)   // RequireExactFields
    | CropWithoutXyzs                                   // Crop on a cloud without positions
    | ThrowUnless(condition: string)                    // a failed DRAKE_THROW_UNLESS

  /** Field set, size and the four buffers; an absent field's buffer has no column. */
  datatype Cloud = Cloud(fields: Fields, size: nat,
                         xyzs: seq<Vec3<Float>>, normals: seq<Vec3<Float>>,
                         rgbs: seq<Vec3<Color>>, descriptors: seq<seq<Float>>)

  /** Column count of a buffer: the size when the field is present, none otherwise. */
  function Columns(present: bool, n: nat): nat {
    if present then n else 0
  }

  /**
   * The storage invariant: every present buffer has exactly `size` columns
   * (what CheckInvariants demands), absent buffers stay empty, and every
   * descriptor column has the descriptor type's row count.
   */
  ghost predicate WellFormed(c: Cloud) {
    && |c.xyzs| == Columns(c.fields.xyzs, c.size)
    && |c.normals| == Columns(c.fields.normals, c.size)
    && |c.rgbs| == Columns(c.fields.rgbs, c.size)
    && |c.descriptors| == Columns(c.fields.HasDescriptor(), c.size)
    && forall j | 0 <= j < |c.descriptors| :: |c.descriptors[j]| == c.fields.descriptor.size
  }

  /**
   * A well-formed cloud passes CheckInvariants: each buffer its field set
   * names has `size` columns. (Empty absent buffers and the descriptor row
   * count are storage facts beyond that check.)
   */
  lemma WellFormedPassesCheckInvariants(c: Cloud)
    requires WellFormed(c)
    ensures c.fields.xyzs ==> |c.xyzs| == c.size
    ensures c.fields.normals ==> |c.normals| == c.size
    ensures c.fields.rgbs ==> |c.rgbs| == c.size
    ensures c.fields.HasDescriptor() ==> |c.descriptors| == c.size
  {
  }

  /** The cloud of size 0 with field set `f`. */
  function Empty(f: Fields): Cloud {
    Cloud(f, 0, [], [], [], [])
  }

  /** One point: a column of every buffer. */
  datatype Point = Point(xyz: Vec3<Float>, normal: Vec3<Float>, rgb: Vec3<Color>, descriptor: seq<Float>)

  /** The point whose every present field holds its default; absent fields hold the same placeholders. */
  function DefaultPoint(f: Fields): Point {
    Point(DefaultXyz, DefaultXyz, DefaultRgb, DefaultDescriptor(f))
  }

  /** `p` can be a point of a cloud with fields `f`: right descriptor length, placeholders in absent fields. */
  predicate Fits(f: Fields, p: Point) {
    && |p.descriptor| == f.descriptor.size
    && (!f.xyzs ==> p.xyz == DefaultXyz)
    && (!f.normals ==> p.normal == DefaultXyz)
    && (!f.rgbs ==> p.rgb == DefaultRgb)
  }

  /** Column `i` of every present buffer of `c`. */
  function PointAt(c: Cloud, i: nat): (p: Point)
    requires WellFormed(c) && i < c.size
    ensures Fits(c.fields, p)
  {
    Point(if c.fields.xyzs then c.xyzs[i] else DefaultXyz,
          if c.fields.normals then c.normals[i] else DefaultXyz,
          if c.fields.rgbs then c.rgbs[i] else DefaultRgb,
          if c.fields.HasDescriptor() then c.descriptors[i] else [])
  }

  /** `c` with column `i` of every present buffer overwritten by `p`. */
  function WithPoint(c: Cloud, i: nat, p: Point): (u: Cloud)
    requires WellFormed(c) && i < c.size && Fits(c.fields, p)
    ensures WellFormed(u) && u.fields == c.fields && u.size == c.size
    ensures forall j | 0 <= j < c.size :: PointAt(u, j) == if j == i then p else PointAt(c, j)
  {
    Cloud(c.fields, c.size,
          if c.fields.xyzs then c.xyzs[i := p.xyz] else c.xyzs,
          if c.fields.normals then c.normals[i := p.normal] else c.normals,
          if c.fields.rgbs then c.rgbs[i := p.rgb] else c.rgbs,
          if c.fields.HasDescriptor() then c.descriptors[i := p.descriptor] else c.descriptors)
  }

  /** The positions of `ps`, in order. */
  function XyzsOf(ps: seq<Point>): (s: seq<Vec3<Float>>)
    ensures |s| == |ps| && forall j | 0 <= j < |ps| :: s[j] == ps[j].xyz
  {
    seq(|ps|, j requires 0 <= j < |ps| => ps[j].xyz)
  }

  /** The normals of `ps`, in order. */
  function NormalsOf(ps: seq<Point>): (s: seq<Vec3<Float>>)
    ensures |s| == |ps| && forall j | 0 <= j < |ps| :: s[j] == ps[j].normal
  {
    seq(|ps|, j requires 0 <= j < |ps| => ps[j].normal)
  }

  /** The colours of `ps`, in order. */
  function RgbsOf(ps: seq<Point>): (s: seq<Vec3<Color>>)
    ensures |s| == |ps| && forall j | 0 <= j < |ps| :: s[j] == ps[j].rgb
  {
    seq(|ps|, j requires 0 <= j < |ps| => ps[j].rgb)
  }

  /** The descriptor columns of `ps`, in order. */
  function DescriptorsOf(ps: seq<Point>): (s: seq<seq<Float>>)
    ensures |s| == |ps| && forall j | 0 <= j < |ps| :: s[j] == ps[j].descriptor
  {
    seq(|ps|, j requires 0 <= j < |ps| => ps[j].descriptor)
  }

  /** The cloud with field set `f` whose points are `ps`, in order. */
  function FromPoints(f: Fields, ps: seq<Point>): (c: Cloud)
    requires forall j | 0 <= j < |ps| :: Fits(f, ps[j])
    ensures WellFormed(c) && c.fields == f && c.size == |ps|
    ensures forall j | 0 <= j < |ps| :: PointAt(c, j) == ps[j]
  {
    var c := Cloud(f, |ps|,
                   if f.xyzs then XyzsOf(ps) else [],
                   if f.normals then NormalsOf(ps) else [],
                   if f.rgbs then RgbsOf(ps) else [],
                   if f.HasDescriptor() then DescriptorsOf(ps) else []);
    assert WellFormed(c) && forall j | 0 <= j < |ps| :: PointAt(c, j) == ps[j] by {
      forall j | 0 <= j < |ps|
        ensures |ps[j].descriptor| == f.descriptor.size
        ensures (if f.HasDescriptor() then c.descriptors[j] else []) == ps[j].descriptor
      {
        assert Fits(f, ps[j]);
      }
      forall j | 0 <= j < |ps| ensures PointAt(c, j) == ps[j] {
        var p := ps[j];
        assert Fits(f, p);
        assert PointAt(c, j) == Point(p.xyz, p.normal, p.rgb, p.descriptor);
      }
    }
    c
  }

  /** Two well-formed clouds with the same fields and size are equal as soon as their points are. */
  lemma {:induction false} PointsDetermineCloud(a: Cloud, b: Cloud)
    requires WellFormed(a) && WellFormed(b) && a.fields == b.fields && a.size == b.size
    requires forall j | 0 <= j < a.size :: PointAt(a, j) == PointAt(b, j)
    ensures a == b
  {
    if a.fields.xyzs {
      forall j | 0 <= j < a.size ensures a.xyzs[j] == b.xyzs[j] {
        assert PointAt(a, j).xyz == PointAt(b, j).xyz;
      }
    }
    if a.fields.normals {
      forall j | 0 <= j < a.size ensures a.normals[j] == b.normals[j] {
        assert PointAt(a, j).normal == PointAt(b, j).normal;
      }
    }
    if a.fields.rgbs {
      forall j | 0 <= j < a.size ensures a.rgbs[j] == b.rgbs[j] {
        assert PointAt(a, j).rgb == PointAt(b, j).rgb;
      }
    }
    if a.fields.HasDescriptor() {
      forall j | 0 <= j < a.size ensures a.descriptors[j] == b.descriptors[j] {
        assert PointAt(a, j).descriptor == PointAt(b, j).descriptor;
      }
    }
  }

  /** `s` truncated or extended to `n` entries, the new ones being `fill`. */
  function Fit<T>(s: seq<T>, n: nat, fill: T): (r: seq<T>)
    ensures |r| == n
    ensures forall j | 0 <= j < n :: r[j] == if j < |s| then s[j] else fill
  {
    if n <= |s| then s[..n] else s + seq(n - |s|, _ => fill)
  }

  /** `s` with entries `[start, start + num)` set to `v`. */
  function Fill<T>(s: seq<T>, start: nat, num: nat, v: T): (r: seq<T>)
    requires start + num <= |s|
    ensures |r| == |s|
    ensures forall j | 0 <= j < |s| :: r[j] == if start <= j < start + num then v else s[j]
  {
    s[..start] + seq(num, _ => v) + s[start + num..]
  }

  /**
   * The cloud after `resize(n)` with initialisation: the first `min(size, n)`
   * points are kept and every point added by growing is the default point.
   */
  function Resized(c: Cloud, n: nat): (r: Cloud)
    requires WellFormed(c)
    ensures WellFormed(r) && r.fields == c.fields && r.size == n
    ensures forall j | 0 <= j < n :: PointAt(r, j) == if j < c.size then PointAt(c, j) else DefaultPoint(c.fields)
  {
    Cloud(c.fields, n,
          if c.fields.xyzs then Fit(c.xyzs, n, DefaultXyz) else [],
          if c.fields.normals then Fit(c.normals, n, DefaultXyz) else [],
          if c.fields.rgbs then Fit(c.rgbs, n, DefaultRgb) else [],
          if c.fields.HasDescriptor() then Fit(c.descriptors, n, DefaultDescriptor(c.fields)) else [])
  }

  /**
   * What every resize to `n` promises, initialised or not: same fields, size
   * `n`, invariant kept, and the common prefix of points unchanged. Points past
   * the old size are unconstrained (uninitialised memory).
   */
  ghost predicate KeepsPrefix(c: Cloud, d: Cloud, n: nat)
    requires WellFormed(c)
  {
    && WellFormed(d) && d.fields == c.fields && d.size == n
    && forall j | 0 <= j < n && j < c.size :: PointAt(d, j) == PointAt(c, j)
  }

  /** `c` with the points in `[start, start + num)` set to the default point (SetDefault). */
  function Defaulted(c: Cloud, start: nat, num: nat): (r: Cloud)
    requires WellFormed(c) && start + num <= c.size
    ensures WellFormed(r) && r.fields == c.fields && r.size == c.size
    ensures forall j | 0 <= j < c.size ::
      PointAt(r, j) == if start <= j < start + num then DefaultPoint(c.fields) else PointAt(c, j)
  {
    Cloud(c.fields, c.size,
          if c.fields.xyzs then Fill(c.xyzs, start, num, DefaultXyz) else [],
          if c.fields.normals then Fill(c.normals, start, num, DefaultXyz) else [],
          if c.fields.rgbs then Fill(c.rgbs, start, num, DefaultRgb) else [],
          if c.fields.HasDescriptor() then Fill(c.descriptors, start, num, DefaultDescriptor(c.fields)) else [])
  }

  /** Resizing to the current size changes nothing. */
  lemma {:induction false} ResizedToSameSize(c: Cloud)
    requires WellFormed(c)
    ensures Resized(c, c.size) == c
  {
    PointsDetermineCloud(Resized(c, c.size), c);
  }

  /** A resize with skipped initialisation that shrinks is fully determined: it keeps the prefix. */
  lemma {:induction false} ShrinkIsResized(c: Cloud, d: Cloud, n: nat)
    requires WellFormed(c) && KeepsPrefix(c, d, n) && n <= c.size
    ensures d == Resized(c, n)
  {
    PointsDetermineCloud(d, Resized(c, n));
  }

  /** Growing storage and then default-filling the new points is `Resized`, whatever the storage held. */
  lemma {:induction false} GrowThenDefaultIsResized(c: Cloud, d: Cloud, n: nat)
    requires WellFormed(c) && KeepsPrefix(c, d, n) && c.size <= n
    ensures Defaulted(d, c.size, n - c.size) == Resized(c, n)
  {
    PointsDetermineCloud(Defaulted(d, c.size, n - c.size), Resized(c, n));
  }

  /** Shrinking after any resize gives the same cloud as shrinking directly: no data is corrupted on the way. */
  lemma {:induction false} ResizedTwice(c: Cloud, n1: nat, n2: nat)
    requires WellFormed(c) && n2 <= n1
    ensures Resized(Resized(c, n1), n2) == Resized(c, n2)
  {
    PointsDetermineCloud(Resized(Resized(c, n1), n2), Resized(c, n2));
  }

  /** Two resizes, initialised or not, the second one shrinking, keep the original first `n2` points. */
  lemma KeepsPrefixTwice(c: Cloud, d: Cloud, e: Cloud, n1: nat, n2: nat)
    requires WellFormed(c) && KeepsPrefix(c, d, n1) && KeepsPrefix(d, e, n2) && n2 <= n1
    ensures KeepsPrefix(c, e, n2)
  {
  }

  /**
   * `dst` with the buffers of the fields in `resolved` replaced by `src`'s
   * (the copies in SetFrom); every other buffer of `dst` is kept.
   */
  function CopiedFrom(dst: Cloud, src: Cloud, resolved: Fields): (r: Cloud)
    requires WellFormed(dst) && WellFormed(src) && dst.size == src.size
    requires Contains(dst.fields, resolved) && Contains(src.fields, resolved)
    ensures WellFormed(r) && r.fields == dst.fields && r.size == dst.size
  {
    Cloud(dst.fields, dst.size,
          if resolved.xyzs then src.xyzs else dst.xyzs,
          if resolved.normals then src.normals else dst.normals,
          if resolved.rgbs then src.rgbs else dst.rgbs,
          if resolved.HasDescriptor() then src.descriptors else dst.descriptors)
  }

  /** Copying every field of a source with the same field set and size yields the source itself. */
  lemma {:induction false} CopyingAllFieldsGivesSource(dst: Cloud, src: Cloud)
    requires WellFormed(dst) && WellFormed(src) && dst.size == src.size && dst.fields == src.fields
    ensures Contains(src.fields, src.fields)
    ensures CopiedFrom(dst, src, src.fields) == src
  {
    ContainsPartialOrder(src.fields, src.fields, src.fields);
    var r := CopiedFrom(dst, src, src.fields);
    if !src.fields.xyzs { assert r.xyzs == [] == src.xyzs; }
    if !src.fields.normals { assert r.normals == [] == src.normals; }
    if !src.fields.rgbs { assert r.rgbs == [] == src.rgbs; }
    if !src.fields.HasDescriptor() { assert r.descriptors == [] == src.descriptors; }
  }

  /** Per point, a copy takes exactly the resolved fields from the source and keeps the rest. */
  lemma {:induction false} CopiedFromPointwise(dst: Cloud, src: Cloud, resolved: Fields, j: nat)
    requires WellFormed(dst) && WellFormed(src) && dst.size == src.size
    requires Contains(dst.fields, resolved) && Contains(src.fields, resolved)
    requires j < dst.size
    ensures var p, q, s := PointAt(CopiedFrom(dst, src, resolved), j), PointAt(dst, j), PointAt(src, j);
      && p.xyz == (if resolved.xyzs then s.xyz else q.xyz)
      && p.normal == (if resolved.normals then s.normal else q.normal)
      && p.rgb == (if resolved.rgbs then s.rgb else q.rgb)
      && p.descriptor == (if resolved.HasDescriptor() then s.descriptor else q.descriptor)
  {
    ContainsFieldwise(dst.fields, resolved);
    ContainsFieldwise(src.fields, resolved);
  }
}
