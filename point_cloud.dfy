/**
 * PointCloud: a cloud with a fixed field set that owns exactly one Storage.
 * Construction, copy and move, resizing, field-set queries, SetFrom, Crop,
 * VoxelizedDownSample and Concatenate.
 */
module Perception {
  import opened Wrappers
  import opened PcFlags
  import opened CloudValues
  import opened PointCloudStorage
  import opened CropSpec
  import opened DownSampleSpec
  import opened ConcatenateSpec

  /** The iteration order of a hash map: every key once, in an order the model leaves open. */
  method IterationOrder<K, V>(m: map<K, V>) returns (keys: seq<K>)
    ensures Enumerates(keys, m)
  {
    keys := [];
    var remaining := m.Keys;
    while remaining != {}
      invariant remaining <= m.Keys
      invariant forall j | 0 <= j < |keys| :: keys[j] in m && keys[j] !in remaining
      invariant forall k | k in m :: k in remaining || k in keys
      invariant forall j1, j2 | 0 <= j1 < j2 < |keys| :: keys[j1] != keys[j2]
      decreases |remaining|
    {
      var key :| key in remaining;
      keys := keys + [key];
      remaining := remaining - {key};
    }
  }

  /**
   * ResolveFields: kInherit stands for the other cloud's field set. Given a
   * cloud's valid field set, the result is one a cloud can be built with
   * exactly when the request was kInherit or could itself be built with.
   */
  function ResolveFields(otherFields: Fields, fields: Fields): (r: Fields)
    ensures fields == Inherit ==> r == otherFields
    ensures fields != Inherit ==> r == fields
    ensures ValidFields(otherFields) ==> (ValidFields(r) <==> fields == Inherit || ValidFields(fields))
  {
    if fields == Inherit then otherFields else fields
  }

  /**
   * ResolvePairFields: the fields SetFrom copies from `b` into `a`. With
   * kInherit both field sets must be equal; otherwise both must contain the
   * requested fields, `a` checked first. The result is contained in both:
   * the common field set, or the request itself.
   */
  function ResolvePairFields(a: Fields, b: Fields, fieldsIn: Fields): (r: Result<Fields, Error>)
    requires fieldsIn != Inherit ==> !fieldsIn.inherit
    ensures r.Success? <==> if fieldsIn == Inherit then a == b else Contains(a, fieldsIn) && Contains(b, fieldsIn)
    ensures r.Success? ==> Contains(a, r.value) && Contains(b, r.value)
    ensures r.Success? && fieldsIn == Inherit ==> r.value == b
    ensures r.Success? && fieldsIn != Inherit ==> r.value == fieldsIn
    ensures r.Failure? && fieldsIn == Inherit ==> r.error == InexactFields(b, a)
    ensures r.Failure? && fieldsIn != Inherit && !Contains(a, fieldsIn) ==> r.error == MissingFields(fieldsIn, a)
    ensures r.Failure? && fieldsIn != Inherit && Contains(a, fieldsIn) ==> r.error == MissingFields(fieldsIn, b)
  {
    if fieldsIn == Inherit then
      ContainsPartialOrder(a, a, a);
      if a == b then Success(a) else Failure(InexactFields(b, a))
    else if !Contains(a, fieldsIn) then
      Failure(MissingFields(fieldsIn, a))
    else if !Contains(b, fieldsIn) then
      Failure(MissingFields(fieldsIn, b))
    else
      Success(fieldsIn)
  }

  class PointCloud {
    var size: nat
    const fields: Fields
    var storage: Storage

    /** The storage is well formed and carries this cloud's valid field set; `size` may still lag behind it. */
    ghost predicate StorageValid()
      reads this, storage
    {
      ValidFields(fields) && storage.fields == fields && storage.Valid()
    }

    /** The cloud invariant: valid field set, and `size` equals the storage's column count. */
    ghost predicate Valid()
      reads this, storage
    {
      StorageValid() && size == storage.size
    }

    /** The cloud's content as a value. */
    ghost function Data(): Cloud
      reads this, storage
    {
      storage.Data()
    }

    /**
     * The constructor once its field checks have passed: allocates storage
     * for `fields` and, unless `skipInitialize`, sets every point to the
     * default point.
     */
    constructor Allocate(newSize: nat, fields: Fields, skipInitialize: bool)
      requires ValidFields(fields)
      ensures Valid() && this.fields == fields && size == newSize && fresh(storage)
      ensures !skipInitialize ==> Data() == Resized(Empty(fields), newSize)
    {
      size := newSize;
      this.fields := fields;
      storage := new Storage(newSize, fields);
      new;
      if !skipInitialize {
        ghost var uninitialised := Data();
        SetDefault(0, newSize);
        GrowThenDefaultIsResized(Empty(fields), uninitialised, newSize);
      }
    }

    /**
     * `PointCloud(new_size, fields, skip_initialize)`: throws on kNone and on
     * a field set with the kInherit bit, otherwise allocates and, unless
     * skipped, default-fills.
     */
    static method New(newSize: nat, fields: Fields, skipInitialize: bool) returns (r: Result<PointCloud, Error>)
      ensures fields == None ==> r == Failure(NoFields)
      ensures fields != None && fields.inherit ==> r == Failure(InheritFields)
      ensures r.Success? <==> ValidFields(fields)
      ensures r.Success? ==> fresh(r.value) && fresh(r.value.storage) && r.value.Valid()
      ensures r.Success? ==> r.value.fields == fields && r.value.size == newSize
      ensures r.Success? && !skipInitialize ==> r.value.Data() == Resized(Empty(fields), newSize)
    {
      if fields == None {
        return Failure(NoFields);
      }
      if fields.inherit {
        return Failure(InheritFields);
      }
      var cloud := new PointCloud.Allocate(newSize, fields, skipInitialize);
      return Success(cloud);
    }

    /**
     * The copy constructor `PointCloud(other, copy_fields)`: a cloud of
     * `other`'s size with the resolved fields, then `SetFrom(other)` with its
     * defaults (kInherit, resizing allowed). Since that SetFrom demands exactly
     * equal field sets, any `copy_fields` other than kInherit or `other`'s own
     * field set makes it throw.
     */
    static method Copy(other: PointCloud, copyFields: Fields) returns (r: Result<PointCloud, Error>)
      requires other.Valid()
      ensures r.Success? <==> copyFields == Inherit || copyFields == other.fields
      ensures r.Success? ==> fresh(r.value) && fresh(r.value.storage) && r.value.Valid()
      ensures r.Success? ==> r.value.fields == other.fields && r.value.Data() == other.Data()
    {
      var created := New(other.size, ResolveFields(other.fields, copyFields), false);
      if created.Failure? {
        return Failure(created.error);
      }
      var copy := created.value;
      var copied := copy.Assign(other);
      if copied.Fail? {
        return Failure(copied.error);
      }
      return Success(copy);
    }

    /**
     * The move constructor: starts as an empty cloud with `other`'s fields
     * and swaps storage and size with it. `other` is left a valid cloud of
     * size 0 with its own fields; no data is copied.
     */
    constructor Move(other: PointCloud)
      requires other.Valid()
      modifies other
      ensures Valid() && fields == other.fields
      ensures storage == old(other.storage) && Data() == old(other.Data())
      ensures other.Valid() && fresh(other.storage) && other.Data() == Empty(other.fields)
    {
      fields := other.fields;
      size := 0;
      storage := new Storage(0, other.fields);
      new;
      storage, other.storage := other.storage, storage;
      size, other.size := other.size, size;
    }

    /**
     * Move assignment: throws unless the field sets are exactly equal;
     * otherwise takes `other`'s size and storage, gives `other` this cloud's
     * storage, and resizes `other` to 0. A cloud moved into itself ends up
     * empty.
     */
    method MoveAssign(other: PointCloud) returns (r: Outcome<Error>)
      requires Valid() && other.Valid()
      requires this == other || storage != other.storage
      modifies this, other, storage, other.storage
      ensures Valid() && other.Valid()
      ensures r.Fail? <==> fields != other.fields
      ensures r.Fail? ==> r.error == InexactFields(other.fields, fields)
      ensures r.Fail? ==> size == old(size) && storage == old(storage) && Data() == old(Data())
      ensures r.Fail? ==> other.size == old(other.size) && other.storage == old(other.storage)
      ensures r.Fail? ==> other.Data() == old(other.Data())
      ensures r.Pass? && this != other ==> storage == old(other.storage) && other.storage == old(storage)
      ensures r.Pass? && this != other ==> Data() == old(other.Data()) && other.Data() == Empty(other.fields)
      ensures r.Pass? && this == other ==> Data() == Empty(fields)
    {
      r := RequireExactFields(other.fields);
      if r.Fail? {
        return;
      }
      size := other.size;
      storage, other.storage := other.storage, storage;
      other.Resize(0, false);
    }

    /** Copy assignment: `SetFrom(other)` with kInherit and resizing allowed. */
    method Assign(other: PointCloud) returns (r: Outcome<Error>)
      requires Valid() && other.Valid()
      requires this == other || storage != other.storage
      modifies this, storage
      ensures Valid() && storage == old(storage)
      ensures r.Pass? <==> fields == other.fields
      ensures r.Pass? ==> Data() == old(other.Data())
      ensures r.Fail? ==> r.error == InexactFields(other.fields, fields)
      ensures r.Fail? ==> Data() == Resized(old(Data()), old(other.size))
    {
      ghost var source := other.Data();
      r := SetFrom(other, Inherit, true);
      if r.Pass? {
        CopyingAllFieldsGivesSource(Resized(old(Data()), source.size), source);
      }
    }

    /**
     * `resize(new_size, skip_initialization)`: resizes the storage, keeping
     * the common prefix, and default-fills the points added by growing unless
     * skipped. Shrinking writes nothing.
     */
    method Resize(newSize: int, skipInitialization: bool)
      requires StorageValid() && newSize >= 0
      modifies this, storage
      ensures Valid() && storage == old(storage) && size == newSize
      ensures old(Valid()) ==> KeepsPrefix(old(Data()), Data(), newSize)
      ensures old(Valid()) && (!skipInitialization || newSize <= old(size)) ==> Data() == Resized(old(Data()), newSize)
    {
      var oldSize := size;
      size := newSize;
      ghost var before := Data();
      storage.Resize(newSize);
      if newSize > oldSize && !skipInitialization {
        ghost var grown := Data();
        SetDefault(oldSize, newSize - oldSize);
        if old(Valid()) {
          GrowThenDefaultIsResized(before, grown, newSize);
        }
      } else if newSize <= oldSize && old(Valid()) {
        ShrinkIsResized(before, Data(), newSize);
      }
    }

    /** `SetDefault(start, num)`: every present field of points `[start, start + num)` takes its default. */
    method SetDefault(start: nat, num: nat)
      requires Valid() && start + num <= size
      modifies storage
      ensures Valid() && Data() == Defaulted(old(Data()), start, num)
    {
      if HasXyzs() {
        storage.xyzs := Fill(storage.xyzs, start, num, DefaultXyz);
      }
      if HasNormals() {
        storage.normals := Fill(storage.normals, start, num, DefaultXyz);
      }
      if HasRgbs() {
        storage.rgbs := Fill(storage.rgbs, start, num, DefaultRgb);
      }
      if HasDescriptors() {
        storage.descriptors := Fill(storage.descriptors, start, num, DefaultDescriptor(fields));
      }
    }

    /**
     * `SetFrom(other, fields_in, allow_resize)`. Without resizing, sizes must
     * match or it throws before touching anything. With resizing, the cloud
     * is first resized to `other`'s size, and only then are the fields
     * resolved, so a field-check failure leaves it resized; the demand that
     * `fieldsIn` lacks the kInherit bit is only reached past the size check.
     * On success exactly the resolved fields are copied from `other`.
     */
    method SetFrom(other: PointCloud, fieldsIn: Fields, allowResize: bool) returns (r: Outcome<Error>)
      requires Valid() && other.Valid()
      requires this == other || storage != other.storage
      requires (allowResize || other.size == size) && fieldsIn != Inherit ==> !fieldsIn.inherit
      modifies this, storage
      ensures Valid() && storage == old(storage)
      ensures !allowResize && other.size != old(size) ==>
        r == Fail(SizeMismatch(other.size, old(size))) && Data() == old(Data())
      ensures (allowResize || other.size == old(size)) && ResolvePairFields(fields, other.fields, fieldsIn).Failure? ==>
        r == Fail(ResolvePairFields(fields, other.fields, fieldsIn).error) &&
        Data() == Resized(old(Data()), old(other.size))
      ensures (allowResize || other.size == old(size)) && ResolvePairFields(fields, other.fields, fieldsIn).Success? ==>
        r == Pass &&
        Data() == CopiedFrom(Resized(old(Data()), old(other.size)), old(other.Data()),
                             ResolvePairFields(fields, other.fields, fieldsIn).value)
    {
      ghost var source := other.Data();
      var oldSize := size;
      var newSize := other.size;
      if allowResize {
        Resize(newSize, false);
      } else if newSize != oldSize {
        return Fail(SizeMismatch(newSize, oldSize));
      } else {
        ResizedToSameSize(Data());
      }
      assert Data() == Resized(old(Data()), source.size);
      if this == other {
        ResizedToSameSize(source);
      }
      assert other.Data() == source;
      var resolved := ResolvePairFields(fields, other.fields, fieldsIn);
      if resolved.Failure? {
        return Fail(resolved.error);
      }
      CopyResolved(other, resolved.value);
      return Pass;
    }

    /** The copies at the end of SetFrom: each resolved field's buffer becomes `other`'s. */
    method CopyResolved(other: PointCloud, copy: Fields)
      requires Valid() && other.Valid() && size == other.size
      requires this == other || storage != other.storage
      requires Contains(fields, copy) && Contains(other.fields, copy)
      modifies storage
      ensures Valid() && Data() == CopiedFrom(old(Data()), old(other.Data()), copy)
    {
      ContainsFieldwise(fields, copy);
      ContainsFieldwise(other.fields, copy);
      if copy.xyzs {
        storage.xyzs := other.storage.xyzs;
      }
      if copy.normals {
        storage.normals := other.storage.normals;
      }
      if copy.rgbs {
        storage.rgbs := other.storage.rgbs;
      }
      if copy.HasDescriptor() {
        storage.descriptors := other.storage.descriptors;
      }
    }

    /** `Expand(add_size, skip_initialization)`: `resize(size() + add_size, skip_initialization)`. */
    method Expand(addSize: int, skipInitialization: bool)
      requires Valid() && addSize >= 0
      modifies this, storage
      ensures Valid() && storage == old(storage) && size == old(size) + addSize
      ensures KeepsPrefix(old(Data()), Data(), old(size) + addSize)
      ensures !skipInitialization ==> Data() == Resized(old(Data()), old(size) + addSize)
    {
      var newSize := size + addSize;
      Resize(newSize, skipInitialization);
    }

    /** `has_xyzs()`. */
    function HasXyzs(): (b: bool)
      ensures b <==> fields.xyzs
    {
      Contains(fields, XYZs)
    }

    /** `has_normals()`. */
    function HasNormals(): (b: bool)
      ensures b <==> fields.normals
    {
      Contains(fields, Normals)
    }

    /** `has_rgbs()`. */
    function HasRgbs(): (b: bool)
      ensures b <==> fields.rgbs
    {
      Contains(fields, RGBs)
    }

    /** `has_descriptors()`: some descriptor type is present. */
    function HasDescriptors(): (b: bool)
      ensures b <==> fields.descriptor != DescriptorNone
    {
      fields.HasDescriptor()
    }

    /** `has_descriptors(descriptor_type)`: holds for the absent type and for the cloud's own type. */
    function HasDescriptorType(descriptorType: DescriptorType): (b: bool)
      ensures b <==> descriptorType == DescriptorNone || descriptorType == fields.descriptor
    {
      Contains(fields, Fields(false, false, false, false, descriptorType))
    }

    /** `HasFields(fields_in)`: every requested field is present, a requested descriptor type being the cloud's. */
    function HasFields(fieldsIn: Fields): (b: bool)
      requires !fieldsIn.inherit
      ensures b <==>
        && (fieldsIn.xyzs ==> fields.xyzs) && (fieldsIn.normals ==> fields.normals)
        && (fieldsIn.rgbs ==> fields.rgbs)
        && (fieldsIn.HasDescriptor() ==> fields.descriptor == fieldsIn.descriptor)
    {
      ContainsFieldwise(fields, fieldsIn);
      Contains(fields, fieldsIn)
    }

    /** `RequireFields(fields_in)`: throws exactly when `HasFields` is false. */
    method RequireFields(fieldsIn: Fields) returns (r: Outcome<Error>)
      requires !fieldsIn.inherit
      ensures r.Pass? <==> HasFields(fieldsIn)
      ensures r.Fail? ==> r.error == MissingFields(fieldsIn, fields)
    {
      if !HasFields(fieldsIn) {
        return Fail(MissingFields(fieldsIn, fields));
      }
      return Pass;
    }

    /** `HasExactFields(fields_in)`: equality, i.e. containment both ways. */
    function HasExactFields(fieldsIn: Fields): (b: bool)
      ensures b <==> Contains(fields, fieldsIn) && Contains(fieldsIn, fields)
    {
      ContainsPartialOrder(fields, fieldsIn, fields);
      fields == fieldsIn
    }

    /** `RequireExactFields(fields_in)`: throws exactly when `HasExactFields` is false. */
    method RequireExactFields(fieldsIn: Fields) returns (r: Outcome<Error>)
      ensures r.Pass? <==> fields == fieldsIn
      ensures r.Fail? ==> r.error == InexactFields(fieldsIn, fields)
    {
      if !HasExactFields(fieldsIn) {
        return Fail(InexactFields(fieldsIn, fields));
      }
      return Pass;
    }

    /** Column `i` of every present buffer, as one point. */
    function PointOf(i: nat): (p: Point)
      reads this, storage
      requires Valid() && i < size
      ensures p == PointAt(Data(), i)
    {
      Point(if HasXyzs() then storage.xyzs[i] else DefaultXyz,
            if HasNormals() then storage.normals[i] else DefaultXyz,
            if HasRgbs() then storage.rgbs[i] else DefaultRgb,
            if HasDescriptors() then storage.descriptors[i] else [])
    }

    /** Writes `p` into column `index` of every present buffer (`mutable_*().col(index) = ...`). */
    method SetPoint(index: nat, p: Point)
      requires Valid() && index < size && Fits(fields, p)
      modifies storage
      ensures Valid()
      ensures forall j | 0 <= j < size :: PointAt(Data(), j) == if j == index then p else old(PointAt(Data(), j))
    {
      ghost var after := WithPoint(Data(), index, p);
      if HasXyzs() {
        storage.xyzs := storage.xyzs[index := p.xyz];
      }
      if HasNormals() {
        storage.normals := storage.normals[index := p.normal];
      }
      if HasRgbs() {
        storage.rgbs := storage.rgbs[index := p.rgb];
      }
      if HasDescriptors() {
        storage.descriptors := storage.descriptors[index := p.descriptor];
      }
      assert Data() == after;
    }

    /**
     * `mutable_*().middleCols(index, other.size()) = other.*()` for every
     * present buffer, the positions only when `copyXyzs`.
     */
    method WriteBlock(index: nat, other: PointCloud, copyXyzs: bool)
      requires Valid() && other.Valid() && other.fields == fields && index + other.size <= size
      requires copyXyzs ==> fields.xyzs
      requires other.storage != storage
      modifies storage
      ensures Valid()
      ensures Data() == Written(old(Data()), index, old(other.Data()), copyXyzs)
    {
      ghost var c := Data();
      ghost var block := other.Data();
      var n := other.size;
      var xyzs, normals, rgbs, descriptors := storage.xyzs, storage.normals, storage.rgbs, storage.descriptors;
      if copyXyzs {
        xyzs := Splice(xyzs, index, other.storage.xyzs);
      }
      if HasNormals() {
        normals := Splice(normals, index, other.storage.normals);
      }
      if HasRgbs() {
        rgbs := Splice(rgbs, index, other.storage.rgbs);
      }
      if HasDescriptors() {
        descriptors := Splice(descriptors, index, other.storage.descriptors);
      }
      assert Cloud(fields, size, xyzs, normals, rgbs, descriptors) == Written(c, index, block, copyXyzs);
      storage.xyzs, storage.normals, storage.rgbs, storage.descriptors := xyzs, normals, rgbs, descriptors;
    }

    /**
     * `Crop(lower_xyz, upper_xyz)`: demands an ordered box and throws without
     * positions. Fills a cloud of the same size and fields, uninitialised,
     * from the front with each point in the box, then shrinks it to the
     * number written.
     */
    method Crop(lower: Vec3<Float>, upper: Vec3<Float>) returns (r: Result<PointCloud, Error>)
      requires Valid() && BoxOrdered(lower, upper)
      ensures r.Failure? <==> !fields.xyzs
      ensures r.Failure? ==> r.error == CropWithoutXyzs
      ensures r.Success? ==> fresh(r.value) && fresh(r.value.storage) && r.value.Valid()
      ensures r.Success? ==> r.value.fields == fields && r.value.Data() == Cropped(Data(), lower, upper)
    {
      if !HasXyzs() {
        return Failure(CropWithoutXyzs);
      }
      var crop := new PointCloud.Allocate(size, fields, true);
      var count := CopyInBox(crop, lower, upper);
      crop.Resize(count, false);
      KeptPrefixIsCropped(crop.Data(), Data(), lower, upper);
      return Success(crop);
    }

    /**
     * Copies, in order, every point whose position lies in the box to the
     * front of `target`, returning how many it copied.
     */
    method CopyInBox(target: PointCloud, lower: Vec3<Float>, upper: Vec3<Float>) returns (count: nat)
      requires Valid() && fields.xyzs && target.Valid() && target.storage != storage
      requires target.fields == fields && target.size == size
      modifies target.storage
      ensures target.Valid()
      ensures count == |Kept(Data(), lower, upper, size)|
      ensures forall j | 0 <= j < count :: PointAt(target.Data(), j) == PointAt(Data(), Kept(Data(), lower, upper, size)[j])
    {
      ghost var d := Data();
      count := 0;
      var i := 0;
      while i < size
        invariant 0 <= i <= size
        invariant target.Valid()
        invariant count == |Kept(d, lower, upper, i)|
        invariant forall j | 0 <= j < count :: PointAt(target.Data(), j) == PointAt(d, Kept(d, lower, upper, i)[j])
      {
        if InBox(storage.xyzs[i], lower, upper) {
          target.SetPoint(count, PointOf(i));
          count := count + 1;
        }
        i := i + 1;
      }
    }

    /** The first loop of VoxelizedDownSample: the per-axis minimum over the finite positions, from +infinity. */
    method FiniteLowerCorner() returns (lo: Vec3<Float>)
      requires Valid() && fields.xyzs
      ensures lo == LowerCorner(Data(), size)
    {
      lo := Infinity3;
      var i := 0;
      while i < size
        invariant 0 <= i <= size
        invariant lo == LowerCorner(Data(), i)
      {
        var p := storage.xyzs[i];
        if IsFinite3(p) {
          lo := Vec3(StdMin(p.x, lo.x), StdMin(p.y, lo.y), StdMin(p.z, lo.z));
        }
        i := i + 1;
      }
    }

    /**
     * The second loop of VoxelizedDownSample: each finite point's index
     * appended to the bucket of its voxel key, which is `Origin` for an
     * infinite voxel size.
     */
    method BuildVoxelMap(lo: Vec3<Float>, voxelSize: Float) returns (m: map<Key, seq<nat>>)
      requires Valid() && fields.xyzs && Lt(Finite(0.0), voxelSize) && lo == LowerCorner(Data(), size)
      ensures m == Buckets(Data(), lo, Scale(Data(), voxelSize), size)
    {
      ghost var scale := Scale(Data(), voxelSize);
      m := map[];
      var i := 0;
      while i < size
        invariant 0 <= i <= size
        invariant m == Buckets(Data(), lo, scale, i)
      {
        var p := storage.xyzs[i];
        if IsFinite3(p) {
          ComputedKeyIsVoxelKey(Data(), voxelSize, i);
          var key := ComputedKey(p, lo, voxelSize);
          var bucket := if key in m then m[key] else [];
          m := m[key := bucket + [i]];
        }
        i := i + 1;
      }
    }

    /**
     * The inner loop of VoxelizedDownSample over one bucket: sums its
     * positions and colours, and its finite normals and descriptors while
     * counting them.
     */
    method AccumulateBucket(indices: seq<nat>) returns (s: Sums)
      requires Valid() && fields.xyzs && FiniteIndices(Data(), indices)
      ensures s == Accumulated(Data(), indices, |indices|)
    {
      ghost var d := Data();
      var xyzs, normals, rgbs, descriptors := storage.xyzs, storage.normals, storage.rgbs, storage.descriptors;
      var hasNormals, hasRgbs, hasDescriptors := HasNormals(), HasRgbs(), HasDescriptors();
      var xyz := Zero3;
      var normal := Zero3;
      var rgb := Vec3(0, 0, 0);
      var descriptor := seq(fields.descriptor.size, _ => 0.0);
      var numNormals := 0;
      var numDescriptors := 0;
      var j := 0;
      while j < |indices|
        invariant 0 <= j <= |indices|
        invariant Sums(xyz, normal, numNormals, rgb, descriptor, numDescriptors) == Accumulated(d, indices, j)
      {
        var i := indices[j];
        ghost var next := AddPoint(d, Sums(xyz, normal, numNormals, rgb, descriptor, numDescriptors), i);
        var q := xyzs[i];
        xyz := Vec3(xyz.x + q.x.value, xyz.y + q.y.value, xyz.z + q.z.value);
        assert xyz == next.xyz;
        if hasNormals && IsFinite3(normals[i]) {
          var v := normals[i];
          normal := Vec3(normal.x + v.x.value, normal.y + v.y.value, normal.z + v.z.value);
          numNormals := numNormals + 1;
        }
        assert normal == next.normal && numNormals == next.numNormals;
        if hasRgbs {
          var v := rgbs[i];
          rgb := Vec3(rgb.x + v.x, rgb.y + v.y, rgb.z + v.z);
        }
        assert rgb == next.rgb;
        if hasDescriptors && AllFinite(descriptors[i]) {
          descriptor := AddRows(descriptor, descriptors[i]);
          numDescriptors := numDescriptors + 1;
        }
        assert descriptor == next.descriptor && numDescriptors == next.numDescriptors;
        j := j + 1;
      }
      s := Sums(xyz, normal, numNormals, rgb, descriptor, numDescriptors);
    }

    /** The averaged point of one bucket: the accumulated sums divided by the bucket size or by the finite counts. */
    method AverageBucket(indices: seq<nat>) returns (p: Point)
      requires Valid() && fields.xyzs && |indices| > 0 && FiniteIndices(Data(), indices)
      ensures p == BucketMean(Data(), indices)
    {
      var s := AccumulateBucket(indices);
      var n := |indices|;
      p := Point(Vec3(Quotient(s.xyz.x, n), Quotient(s.xyz.y, n), Quotient(s.xyz.z, n)),
                 if HasNormals()
                 then Vec3(Quotient(s.normal.x, s.numNormals), Quotient(s.normal.y, s.numNormals),
                           Quotient(s.normal.z, s.numNormals))
                 else DefaultXyz,
                 if HasRgbs()
                 then Vec3(MeanChannel(s.rgb.x, n), MeanChannel(s.rgb.y, n), MeanChannel(s.rgb.z, n))
                 else DefaultRgb,
                 if HasDescriptors()
                 then seq(fields.descriptor.size, r requires 0 <= r < fields.descriptor.size =>
                            Quotient(s.descriptor[r], s.numDescriptors))
                 else []);
    }

    /**
     * Allocates the down-sampled cloud, one default point per voxel, and
     * writes the mean of the bucket `m[order[j]]` as its point `j`.
     */
    method MeansCloud(m: map<Key, seq<nat>>, order: seq<Key>) returns (downSampled: PointCloud)
      requires Valid() && fields.xyzs && |order| == |m|
      requires forall j | 0 <= j < |order| :: order[j] in m && |m[order[j]]| > 0 && FiniteIndices(Data(), m[order[j]])
      ensures fresh(downSampled) && fresh(downSampled.storage)
      ensures downSampled.Valid() && downSampled.fields == fields && downSampled.size == |order|
      ensures forall j | 0 <= j < |order| :: PointAt(downSampled.Data(), j) == BucketMean(Data(), m[order[j]])
    {
      downSampled := new PointCloud.Allocate(|m|, fields, false);
      for index := 0 to |order|
        invariant fresh(downSampled.storage)
        invariant downSampled.Valid() && downSampled.fields == fields && downSampled.size == |order|
        invariant forall j | 0 <= j < index :: PointAt(downSampled.Data(), j) == BucketMean(Data(), m[order[j]])
      {
        var p := AverageBucket(m[order[index]]);
        downSampled.SetPoint(index, p);
      }
    }

    /**
     * `VoxelizedDownSample(voxel_size)`: throws without positions or when
     * `voxel_size > 0` fails, as it does for NaN, -infinity and sizes that
     * are not positive. Otherwise buckets the finite points by voxel,
     * allocates a default-initialised cloud with one point per occupied
     * voxel, and writes each voxel's averaged point in the voxel map's
     * iteration order, returned as the ghost `keys`. A +infinity voxel size
     * passes the check and buckets with `Scale`: one voxel for all finite
     * points (see `InfiniteSizeIsOneVoxel`).
     */
    method VoxelizedDownSample(voxelSize: Float) returns (r: Result<PointCloud, Error>, ghost keys: seq<Key>)
      requires Valid()
      ensures !fields.xyzs ==> r == Failure(ThrowUnless("has_xyzs()"))
      ensures fields.xyzs && !Lt(Finite(0.0), voxelSize) ==> r == Failure(ThrowUnless("voxel_size > 0"))
      ensures r.Success? <==> fields.xyzs && (voxelSize.PosInf? || (voxelSize.Finite? && voxelSize.value > 0.0))
      ensures r.Success? ==> fresh(r.value) && fresh(r.value.storage) && r.value.Valid() && r.value.fields == fields
      ensures r.Success? ==> Enumerates(keys, VoxelMap(Data(), Scale(Data(), voxelSize)))
      ensures r.Success? ==> r.value.Data() == DownSampled(Data(), Scale(Data(), voxelSize), keys)
    {
      keys := [];
      if !HasXyzs() {
        return Failure(ThrowUnless("has_xyzs()")), keys;
      }
      if !Lt(Finite(0.0), voxelSize) {
        return Failure(ThrowUnless("voxel_size > 0")), keys;
      }
      var downSampled;
      downSampled, keys := DownSampleChecked(voxelSize);
      return Success(downSampled), keys;
    }

    /** The down-sampling once the argument checks have passed. */
    method DownSampleChecked(voxelSize: Float) returns (downSampled: PointCloud, ghost keys: seq<Key>)
      requires Valid() && fields.xyzs && Lt(Finite(0.0), voxelSize)
      ensures fresh(downSampled) && fresh(downSampled.storage) && downSampled.Valid() && downSampled.fields == fields
      ensures Enumerates(keys, VoxelMap(Data(), Scale(Data(), voxelSize)))
      ensures downSampled.Data() == DownSampled(Data(), Scale(Data(), voxelSize), keys)
    {
      ghost var d := Data();
      ghost var scale := Scale(d, voxelSize);
      var lo := FiniteLowerCorner();
      var m := BuildVoxelMap(lo, voxelSize);
      assert m == VoxelMap(d, scale);
      var order := IterationOrder(m);
      EnumerationSize(order, m);
      assert forall j | 0 <= j < |order| :: SoundBucket(d, lo, scale, size, order[j], m[order[j]]);
      downSampled := MeansCloud(m, order);
      keys := order;
      MeansAreDownSampled(downSampled.Data(), d, scale, keys);
    }
  }

  /** The contents of the clouds, in order. */
  ghost function Contents(clouds: seq<PointCloud>): (ds: seq<Cloud>)
    reads set i | 0 <= i < |clouds| :: clouds[i]
    reads set i | 0 <= i < |clouds| :: clouds[i].storage
    ensures |ds| == |clouds|
  {
    seq(|clouds|, i requires 0 <= i < |clouds|
                    reads set j | 0 <= j < |clouds| :: clouds[j]
                    reads set j | 0 <= j < |clouds| :: clouds[j].storage
                    => clouds[i].Data())
  }

  /** Every cloud satisfies its invariant. */
  ghost predicate AllValid(clouds: seq<PointCloud>)
    reads set i | 0 <= i < |clouds| :: clouds[i]
    reads set i | 0 <= i < |clouds| :: clouds[i].storage
  {
    forall i | 0 <= i < |clouds| :: clouds[i].Valid()
  }

  /** Every cloud has the field set of the first. */
  predicate SameFields(clouds: seq<PointCloud>)
    requires |clouds| >= 1
  {
    forall i | 0 <= i < |clouds| :: clouds[i].fields == clouds[0].fields
  }

  /**
   * The first loop of Concatenate: throws on the first cloud whose field set
   * differs from the first cloud's, and otherwise adds up the sizes.
   */
  method CheckedCount(clouds: seq<PointCloud>) returns (r: Result<nat, Error>)
    requires |clouds| >= 1 && AllValid(clouds)
    ensures r.Success? <==> SameFields(clouds)
    ensures r.Failure? ==> r.error == ThrowUnless("clouds[i].fields() == clouds[0].fields()")
    ensures r.Success? ==> Homogeneous(clouds[0].fields, Contents(clouds)) && r.value == TotalSize(Contents(clouds))
  {
    ghost var ds := Contents(clouds);
    assert forall j | 0 <= j < |clouds| :: ds[j] == clouds[j].Data() && clouds[j].Valid();
    var f := clouds[0].fields;
    var count := clouds[0].size;
    PrefixStep(ds, 0);
    TotalSizeOfAppend([], ds[0]);
    assert ds[..0] == [];
    for i := 1 to |clouds|
      invariant forall j | 0 <= j < i :: clouds[j].fields == f && WellFormed(ds[j]) && ds[j].fields == f
      invariant count == TotalSize(ds[..i])
    {
      if clouds[i].fields != f {
        return Failure(ThrowUnless("clouds[i].fields() == clouds[0].fields()"));
      }
      PrefixStep(ds, i);
      TotalSizeOfAppend(ds[..i], ds[i]);
      count := count + clouds[i].size;
    }
    assert ds[..|clouds|] == ds;
    return Success(count);
  }

  /**
   * The second loop of Concatenate: writes each cloud's columns into
   * `target` right after the previous cloud's, the positions only when
   * `copyXyzs`.
   */
  method CopyInto(target: PointCloud, clouds: seq<PointCloud>, ghost ds: seq<Cloud>, copyXyzs: bool)
    requires target.Valid() && |ds| == |clouds|
    requires forall i | 0 <= i < |clouds| ::
      clouds[i].Valid() && clouds[i].Data() == ds[i] && clouds[i].storage != target.storage
    requires Homogeneous(target.fields, ds) && target.size == TotalSize(ds) && (copyXyzs ==> target.fields.xyzs)
    modifies target.storage
    ensures target.Valid()
    ensures forall i | 0 <= i < |clouds| :: clouds[i].Valid() && clouds[i].Data() == ds[i]
    ensures target.Data() == PartlyCopied(old(target.Data()), ds, copyXyzs)
  {
    ghost var initial := target.Data();
    NothingCopied(initial, copyXyzs);
    assert ds[..0] == [];
    var index := 0;
    for i := 0 to |clouds|
      invariant target.Valid() && target.fields == initial.fields && target.size == initial.size
      invariant Homogeneous(target.fields, ds[..i]) && TotalSize(ds[..i]) <= target.size
      invariant index == TotalSize(ds[..i])
      invariant target.Data() == PartlyCopied(initial, ds[..i], copyXyzs)
    {
      CopyStep(initial, ds, i, copyXyzs);
      target.WriteBlock(index, clouds[i], copyXyzs);
      index := index + clouds[i].size;
    }
    assert ds[..|clouds|] == ds;
  }

  /**
   * `Concatenate(clouds)` with the position copy guarded by `has_xyzs()`:
   * demands at least one cloud, throws unless every cloud has the first
   * one's field set, and otherwise returns a cloud of that field set holding
   * every cloud's points, cloud after cloud.
   */
  method Concatenate(clouds: seq<PointCloud>) returns (r: Result<PointCloud, Error>)
    requires |clouds| >= 1 && AllValid(clouds)
    ensures r.Failure? <==> !SameFields(clouds)
    ensures r.Failure? ==> r.error == ThrowUnless("clouds[i].fields() == clouds[0].fields()")
    ensures r.Success? ==> fresh(r.value) && fresh(r.value.storage) && r.value.Valid()
    ensures r.Success? ==> r.value.fields == clouds[0].fields
    ensures r.Success? ==> r.value.Data() == Concatenated(clouds[0].fields, Contents(clouds))
  {
    ghost var ds := Contents(clouds);
    assert forall i | 0 <= i < |clouds| :: clouds[i].Valid() && clouds[i].Data() == ds[i];
    var count := CheckedCount(clouds);
    if count.Failure? {
      return Failure(count.error);
    }
    var newCloud := new PointCloud.Allocate(count.value, clouds[0].fields, true);
    ghost var initial := newCloud.Data();
    CopyInto(newCloud, clouds, ds, newCloud.HasXyzs());
    AllCopied(initial, ds);
    assert Contents(clouds) == ds;
    return Success(newCloud);
  }

  /**
   * `Concatenate(clouds)` as written, with the position copy guarded by
   * `has_normals()`: the same, except that without normals the output keeps
   * the positions of the uninitialised cloud it was allocated as, returned as
   * `initial`. The copy demands positions once it is reached.
   */
  method ConcatenateAsWritten(clouds: seq<PointCloud>) returns (r: Result<PointCloud, Error>, ghost initial: Cloud)
    requires |clouds| >= 1 && AllValid(clouds)
    requires SameFields(clouds) && clouds[0].fields.normals ==> clouds[0].fields.xyzs
    ensures r.Failure? <==> !SameFields(clouds)
    ensures r.Failure? ==> r.error == ThrowUnless("clouds[i].fields() == clouds[0].fields()")
    ensures r.Success? ==> fresh(r.value) && fresh(r.value.storage) && r.value.Valid()
    ensures r.Success? ==> r.value.fields == clouds[0].fields
    ensures r.Success? ==> Homogeneous(clouds[0].fields, Contents(clouds))
    ensures r.Success? ==> WellFormed(initial) && initial.fields == clouds[0].fields
    ensures r.Success? ==> initial.size == TotalSize(Contents(clouds))
    ensures r.Success? ==> r.value.Data() == ConcatenatedAsWritten(clouds[0].fields, Contents(clouds), initial)
  {
    ghost var ds := Contents(clouds);
    initial := Empty(clouds[0].fields);
    var count := CheckedCount(clouds);
    if count.Failure? {
      return Failure(count.error), initial;
    }
    var newCloud := new PointCloud.Allocate(count.value, clouds[0].fields, true);
    initial := newCloud.Data();
    CopyInto(newCloud, clouds, ds, newCloud.HasNormals());
    AllCopiedAsWritten(initial, ds);
    assert Contents(clouds) == ds;
    return Success(newCloud), initial;
  }
}
