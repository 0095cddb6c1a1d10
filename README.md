# Variable-schema point cloud

A model of Drake's `perception::PointCloud` (`perception/point_cloud.cc`).
A cloud has a fixed *field set* and a number of points. The field set says
which channels each point has:

- positions (xyzs);
- normals;
- colours (rgbs);
- at most one descriptor type, with its row count.

The cloud owns one `Storage` object. Storage holds one dense buffer per
present field, with one column per point.

The model covers:

- the storage and its resize;
- field resolution (`ResolveFields`, `ResolvePairFields`);
- the cloud's constructors, copy and move, `resize`, `SetDefault`,
  `SetFrom`, `Expand`, the `has_*` queries and the field checks
  (`HasFields`, `RequireFields`, `HasExactFields`, `RequireExactFields`);
- the three algorithms: `Crop`, `Concatenate` and `VoxelizedDownSample`.

How the source becomes Dafny:

- **Classes.** `Storage` and `PointCloud` are classes whose methods update
  their fields in place. Each method is proved against a specification
  function on the value `Cloud(fields, size, xyzs, normals, rgbs, descriptors)`.
  `WellFormed` is the storage invariant. It includes what `CheckInvariants`
  demands, that every present buffer has `size` columns
  (`WellFormedPassesCheckInvariants`). It adds two storage facts that
  check does not test: absent buffers are empty, and every descriptor
  column has the descriptor type's row count.
- **Errors.** A `DRAKE_DEMAND` is a precondition. A thrown exception,
  including a failed `DRAKE_THROW_UNLESS`, is a `Failure`/`Fail` value of
  the `Error` datatype.
- **Scalars.** Scalars and the voxel size are `Float` values: an exact real, or ±infinity, or NaN.
  Comparisons and finiteness tests follow IEEE.
- **Uninitialised memory.** A resize that grows, or a `skip_initialize`
  allocation, fills the new columns with an arbitrary value. No contract
  relies on that value. Where a result depends on it, the value is exposed
  as a ghost out-parameter (`initial`).
- **Hash-map order.** The voxel map's iteration order is left open. The
  down-sampling method returns the order it used as ghost `keys`, and its
  result is stated for any order that lists every occupied voxel once.

Modules:

- `PcFlags` (`flags.dfy`): field-set algebra.
- `CloudValues` (`values.dfy`): scalars, points, clouds, errors, and the
  resize, default and copy specifications.
- `PointCloudStorage` (`storage.dfy`): the storage class.
- `CropSpec`, `DownSampleSpec` and `ConcatenateSpec`: what the three
  algorithms compute.
- `BucketMeans` (`bucket_means.dfy`): each channel of a voxel's averaged
  point as a sum divided by a count, stated without the accumulation loop.
- `Perception` (`point_cloud.dfy`): the `PointCloud` class and the free
  functions.
- `Wrappers`: `Result` and `Outcome`.

## Model

| member | source | states |
|---|---|---|
| PcFlags.ContainsFieldwise | perception/point_cloud.cc:296-300 | `contains` holds iff every requested base bit is present and a requested descriptor type is the same type |
| PcFlags.ContainsPartialOrder | perception/point_cloud.cc:312-315 | containment is reflexive and transitive; mutual containment is exactly equality, so an exact-field check is two containment checks |
| PcFlags.ContainsNone | perception/point_cloud.cc:134-135 | every field set contains kNone, and kNone contains only itself |
| CloudValues.WellFormedPassesCheckInvariants | perception/point_cloud.cc:71-88 | a well-formed cloud passes CheckInvariants: each buffer its field set names, descriptors included, has `size` columns |
| CloudValues.Resized | perception/point_cloud.cc:179-189 | an initialised resize to `n` keeps fields and invariant; it keeps the first `min(size, n)` points and makes every added point the default point |
| CloudValues.Defaulted | perception/point_cloud.cc:191-207 | SetDefault's result: points in `[start, start+num)` become the default point and all others are unchanged |
| CloudValues.ResizedToSameSize | perception/point_cloud.cc:179-189 | resizing to the current size changes nothing |
| CloudValues.ShrinkIsResized | perception/point_cloud.cc:52-63 | a shrinking resize is fully determined even without initialisation: it is the prefix |
| CloudValues.GrowThenDefaultIsResized | perception/point_cloud.cc:183-188 | growing storage with uninitialised columns and then default-filling them gives `Resized`, whatever the new memory held |
| CloudValues.ResizedTwice | perception/point_cloud.cc:179-189 | growing or shrinking and then shrinking equals shrinking directly |
| CloudValues.KeepsPrefixTwice | perception/point_cloud.cc:52-63 | two resizes, the second shrinking, keep the original common prefix |
| CloudValues.CopiedFrom | perception/point_cloud.cc:222-233 | copying resolved fields keeps the receiver's fields, size and invariant |
| CloudValues.CopyingAllFieldsGivesSource | perception/point_cloud.cc:158-161 | copying every field of an equal-schema, equal-size source yields the source itself |
| CloudValues.CopiedFromPointwise | perception/point_cloud.cc:222-233 | per point, exactly the resolved fields come from the source and every other field is kept |
| PointCloudStorage.Storage.constructor | perception/point_cloud.cc:40-46 | the new storage has the given fields and size and satisfies the invariant |
| PointCloudStorage.Storage.Resize | perception/point_cloud.cc:52-88 | every present buffer gets `newSize` columns; the invariant holds and the common prefix of points is kept |
| CropSpec.InBox | perception/point_cloud.cc:336-338 | a position in the box has no NaN coordinate, and only an ordered box holds any position |
| CropSpec.BoxOrdered | perception/point_cloud.cc:329 | no corner coordinate of an ordered box is NaN |
| CropSpec.Kept | perception/point_cloud.cc:335-351 | the kept indices are strictly increasing, in range, and each one's position is in the closed box |
| CropSpec.KeptIsComplete | perception/point_cloud.cc:335-351 | every point whose position is in the box is kept |
| CropSpec.KeptCount | perception/point_cloud.cc:349-352 | the crop size equals the number of points in the box |
| CropSpec.CroppedIsStableFilter | perception/point_cloud.cc:327-354 | the crop has the same fields, one point per in-box point in original order with all channels carried along, every point in the box, and no in-box point missing |
| CropSpec.Cropped | perception/point_cloud.cc:327-354 | the crop is well formed, has the input's fields, one point per in-box point, and every one of its positions is in the box |
| DownSampleSpec.StdMin | perception/point_cloud.cc:415-417 | `std::min` returns one of its arguments, below both when neither is NaN; a NaN first argument is returned and a NaN second argument is ignored |
| DownSampleSpec.LowerCorner | perception/point_cloud.cc:411-419 | the corner is either finite or +infinity, and it is finite and bounds from below every finite position |
| DownSampleSpec.LowerCornerIsMinimum | perception/point_cloud.cc:411-419 | the corner is finite iff some position is finite, and then each coordinate is attained by a finite point: it is the per-axis minimum |
| DownSampleSpec.Trunc | perception/point_cloud.cc:426 | `cast<int>()` truncates toward zero: the result has the argument's sign (or is 0) and is within 1 of it |
| DownSampleSpec.AxisKey | perception/point_cloud.cc:426 | the voxel index along an axis is not negative at or above the corner and not positive below it |
| DownSampleSpec.VoxelKey | perception/point_cloud.cc:426 | the voxel key is not negative on any axis where the position is not below the corner |
| DownSampleSpec.Span | perception/point_cloud.cc:424-426 | a finite size of at least 1 that exceeds every finite point's offset from the corner on every axis |
| DownSampleSpec.SpanKeyIsOrigin | perception/point_cloud.cc:424-426 | bucketed by `Span` against the lower corner, every finite point has key (0, 0, 0), the key that dividing a finite offset by +infinity gives |
| DownSampleSpec.Scale | perception/point_cloud.cc:410-426 | the positive size the model buckets with: the voxel size when finite, `Span` for +infinity |
| DownSampleSpec.ComputedKeyIsVoxelKey | perception/point_cloud.cc:426 | the key the code computes equals `VoxelKey` at `Scale`, for finite and infinite voxel sizes alike |
| DownSampleSpec.InfiniteSizeIsOneVoxel | perception/point_cloud.cc:410-430 | with +infinity every finite point is in the bucket of key (0, 0, 0) and there is no other bucket, so the output has at most one point |
| DownSampleSpec.ComputedKey | perception/point_cloud.cc:426 | the key `((xyz - lower_xyz) / voxel_size).cast<int>()`: (0, 0, 0) for a +infinity voxel size, and not negative on any axis where the position is not below the corner |
| DownSampleSpec.Buckets | perception/point_cloud.cc:421-429 | every bucket is non-empty and strictly increasing, and holds only finite points whose voxel key is the bucket's key |
| DownSampleSpec.BucketsComplete | perception/point_cloud.cc:424-429 | every finite point is in the bucket of its own voxel key |
| DownSampleSpec.ExactlyOneBucket | perception/point_cloud.cc:424-429 | a point is in bucket `k` iff its position is finite and its key is `k`: the buckets partition the finite points |
| DownSampleSpec.OccupiedVoxels | perception/point_cloud.cc:421-430 | the map's keys, and so the output size, are exactly the voxel keys of the finite points |
| DownSampleSpec.Accumulated | perception/point_cloud.cc:439-462 | the finite-normal and finite-descriptor counts never exceed the bucket size; each colour sum lies in `[0, 255 * size]` |
| DownSampleSpec.AddPoint | perception/point_cloud.cc:447-462 | one pass of the accumulation loop raises each of the normal and descriptor counts by at most one (which entries it adds: BucketMeans.AddPointNormal and AddPointDescriptor) |
| BucketMeans.AddPointNormal | perception/point_cloud.cc:449-453 | a finite normal is added to the normal sum and counted; a non-finite one leaves both unchanged |
| BucketMeans.AddPointDescriptor | perception/point_cloud.cc:457-461 | a finite descriptor is added row by row and counted; a non-finite one leaves both unchanged |
| DownSampleSpec.MeanChannel | perception/point_cloud.cc:469-472 | the colour `(rgb / n).cast<C>()` (C being `uint8_t`) of a sum of channels in `[0, 255]` is the floor of the mean: `m * n <= sum < (m + 1) * n` |
| DownSampleSpec.Quotient | perception/point_cloud.cc:463-475 | a quotient is finite iff its count is positive (0/0 gives NaN) |
| DownSampleSpec.BucketMean | perception/point_cloud.cc:463-476 | the averaged point fits the field set and has a finite position (each channel's value: see BucketMeans.BucketMeanIsChannelMeans) |
| BucketMeans.Selected | perception/point_cloud.cc:449-450 | the selected positions are exactly those whose flag is set, in increasing order |
| BucketMeans.AccumulatedNormals | perception/point_cloud.cc:447-453 | after a prefix of the bucket, `num_normals` is the number of its points with a finite normal and the normal sum is the sum of exactly those normals |
| BucketMeans.AccumulatedColours | perception/point_cloud.cc:447-456 | after a prefix of the bucket, each colour sum is the sum of that channel over all its points |
| BucketMeans.AccumulatedDescriptors | perception/point_cloud.cc:447-462 | after a prefix of the bucket, `num_descriptors` is the number of its points with a finite descriptor and each descriptor row sum is the sum of exactly those rows |
| BucketMeans.TruncatedQuotient | perception/point_cloud.cc:470-471 | truncating the quotient of a non-negative sum by a positive count is integer division |
| BucketMeans.NormalMean | perception/point_cloud.cc:465-468 | the averaged normal is the sum of the finite normals over their number, NaN when there is none |
| BucketMeans.ColourMean | perception/point_cloud.cc:469-472 | each averaged colour channel is the truncated mean of that channel over the whole bucket |
| BucketMeans.DescriptorMean | perception/point_cloud.cc:473-476 | each averaged descriptor row is the sum of that row over the finite descriptors over their number, NaN when there is none |
| BucketMeans.BucketMeanIsChannelMeans | perception/point_cloud.cc:436-477 | every channel of a voxel's averaged point: position sum over bucket size, finite normals over their count, truncated colour mean, finite descriptors over their count |
| DownSampleSpec.MeanOfSingleton | perception/point_cloud.cc:436-477 | a voxel holding one fully finite point is replaced by that very point |
| DownSampleSpec.AxisKeyIsSlab | perception/point_cloud.cc:426 | above the corner, the truncated key along an axis is `k` iff `k >= 0` and the coordinate lies in `[lo + k*size, lo + (k+1)*size)` |
| DownSampleSpec.MeanCoordinate | perception/point_cloud.cc:447-464 | along each axis the averaged position is the sum of the bucket's coordinates divided by the bucket size |
| DownSampleSpec.MeanKeepsAxisKey | perception/point_cloud.cc:463-464 | the mean of coordinates in slab `k` has key `k` |
| DownSampleSpec.MeanInOwnVoxel | perception/point_cloud.cc:424-464 | the averaged position of every voxel has that voxel's key: down-sampling never moves a point to another voxel |
| DownSampleSpec.EnumerationSize | perception/point_cloud.cc:430-436 | any order listing every key once has as many entries as the map, so the output has exactly one slot per voxel |
| DownSampleSpec.DownSampledIsVoxelMeans | perception/point_cloud.cc:405-481 | the output keeps the fields and has one point per occupied voxel; point `j` is the mean of voxel `keys[j]` and lies in that voxel, so no two output points share a voxel |
| DownSampleSpec.DownSampled | perception/point_cloud.cc:405-481 | the down-sampled cloud is well formed, has the input's fields, one point per listed voxel, and only finite positions |
| DownSampleSpec.EachFinitePointAveragedOnce | perception/point_cloud.cc:424-478 | an input point contributes to some output point iff its position is finite, and then to exactly one |
| ConcatenateSpec.Concatenated | perception/point_cloud.cc:356-384 | the concatenation is well formed, has the common field set, and its size is the sum of the sizes |
| ConcatenateSpec.OffsetBound | perception/point_cloud.cc:365-382 | each cloud's block ends within the output |
| ConcatenateSpec.ConcatenatedBlocks | perception/point_cloud.cc:365-382 | point `j` of cloud `i` is output point `offset(i) + j`, on every channel |
| ConcatenateSpec.ConcatenateOne | perception/point_cloud.cc:356-384 | concatenating one cloud yields that cloud |
| ConcatenateSpec.Written | perception/point_cloud.cc:366-380 | writing one block into a column range keeps fields, size and invariant |
| ConcatenateSpec.PartlyCopied | perception/point_cloud.cc:365-382 | the output after a prefix of the copy loop keeps fields, size and invariant |
| ConcatenateSpec.CopyStep | perception/point_cloud.cc:366-381 | one more iteration of the copy loop extends the copied prefix by the next cloud |
| ConcatenateSpec.AllCopied | perception/point_cloud.cc:364-383 | with the positions copied, the fully copied output is the concatenation, whatever the uninitialised allocation held |
| ConcatenateSpec.ConcatenatedAsWritten | perception/point_cloud.cc:368-370 | as written: the concatenation when the clouds have normals; otherwise the concatenation with the allocation's uninitialised positions |
| ConcatenateSpec.AllCopiedAsWritten | perception/point_cloud.cc:364-383 | with the copy guarded by `has_normals()`, the fully copied output is `ConcatenatedAsWritten` |
| ConcatenateSpec.AsWrittenKeepsAllocation | perception/point_cloud.cc:364-369 | for every position-only cloud and every allocation, the as-written concatenation of that one cloud is the allocation itself, so it equals the input iff the uninitialised memory held the input; the corrected concatenation is the input |
| ConcatenateSpec.AsWrittenLosesPositions | perception/point_cloud.cc:368 | an instance: for the one-point, position-only cloud at the origin, when the allocation holds NaN, the as-written output's point differs from the input's, while the corrected concatenation's point equals it |
| Perception.IterationOrder | perception/point_cloud.cc:436 | iterating the hash map visits every key exactly once |
| Perception.ResolveFields | perception/point_cloud.cc:100-107 | kInherit resolves to the other cloud's fields and any other set to itself; given a valid other set, the result can build a cloud iff the request was kInherit or could itself |
| Perception.ResolvePairFields | perception/point_cloud.cc:113-126 | succeeds iff (kInherit and both sets equal) or (both contain the request); the result is contained in both, and is the source's set under kInherit and the request otherwise; a failure carries the inexact pair under kInherit, else the missing request against `a` if `a` lacks it, else against `b` |
| Perception.PointCloud.Allocate | perception/point_cloud.cc:130-142 | the new cloud is valid with the given fields and size; unless skipped, every point is the default point |
| Perception.PointCloud.New | perception/point_cloud.cc:130-142 | throws exactly on kNone or a set carrying the kInherit bit, with the matching error; otherwise as Allocate |
| Perception.PointCloud.Copy | perception/point_cloud.cc:144-148 | succeeds iff the requested set is kInherit or exactly the source's, and then yields an equal, fresh cloud |
| Perception.PointCloud.Move | perception/point_cloud.cc:150-156 | the new cloud takes the source's storage and content; the source becomes a valid empty cloud with its own fields |
| Perception.PointCloud.MoveAssign | perception/point_cloud.cc:163-174 | fails and changes nothing iff the field sets differ; otherwise storages are swapped, the receiver holds the source's content and the source ends empty; a self-move empties the cloud |
| Perception.PointCloud.Assign | perception/point_cloud.cc:158-161 | succeeds iff the field sets are equal, and then holds the source's content; on failure the receiver has already been resized |
| Perception.PointCloud.Resize | perception/point_cloud.cc:179-189 | the new size is `newSize` and the prefix is kept; with initialisation, or when shrinking, the content is `Resized` |
| Perception.PointCloud.SetDefault | perception/point_cloud.cc:191-207 | the content becomes `Defaulted(old, start, num)` |
| Perception.PointCloud.SetFrom | perception/point_cloud.cc:209-234 | size mismatch without resizing throws and changes nothing (whatever the requested fields); the kInherit-bit demand applies only past that check; a field-resolution failure throws after the resize; otherwise exactly the resolved fields are copied into the resized cloud |
| Perception.PointCloud.CopyResolved | perception/point_cloud.cc:222-233 | each resolved field's buffer becomes the source's; the other buffers are kept |
| Perception.PointCloud.Expand | perception/point_cloud.cc:236-242 | the size grows by `addSize`, the prefix is kept, and added points are defaults unless skipped |
| Perception.PointCloud.HasXyzs | perception/point_cloud.cc:244-246 | holds iff the positions bit is set |
| Perception.PointCloud.HasNormals | perception/point_cloud.cc:256-258 | holds iff the normals bit is set |
| Perception.PointCloud.HasRgbs | perception/point_cloud.cc:268-270 | holds iff the colours bit is set |
| Perception.PointCloud.HasDescriptors | perception/point_cloud.cc:280-282 | holds iff a descriptor type is present |
| Perception.PointCloud.HasDescriptorType | perception/point_cloud.cc:283-286 | holds iff the type is the absent type or the cloud's own |
| Perception.PointCloud.HasFields | perception/point_cloud.cc:296-300 | holds iff every requested channel is present and a requested descriptor type is the cloud's |
| Perception.PointCloud.RequireFields | perception/point_cloud.cc:302-310 | throws exactly when HasFields is false, with the expected and actual sets |
| Perception.PointCloud.HasExactFields | perception/point_cloud.cc:312-315 | holds iff containment holds both ways |
| Perception.PointCloud.RequireExactFields | perception/point_cloud.cc:317-325 | throws exactly when the sets differ, with the expected and actual sets |
| Perception.PointCloud.PointOf | perception/point_cloud.cc:247-250 | reading column `i` of every present buffer gives point `i` of the content |
| Perception.PointCloud.SetPoint | perception/point_cloud.cc:339-347 | writing a point into column `index` changes point `index` only |
| Perception.PointCloud.WriteBlock | perception/point_cloud.cc:368-380 | the `middleCols` writes of one loop iteration give `Written` |
| Perception.PointCloud.Crop | perception/point_cloud.cc:327-354 | throws iff there are no positions; otherwise a fresh valid cloud of the same fields whose content is `Cropped` (see CroppedIsStableFilter) |
| Perception.PointCloud.CopyInBox | perception/point_cloud.cc:334-351 | the loop copies, in order, every point whose position is in the box to the front of the target, and counts them |
| Perception.PointCloud.FiniteLowerCorner | perception/point_cloud.cc:411-419 | the loop computes `LowerCorner` |
| Perception.PointCloud.BuildVoxelMap | perception/point_cloud.cc:421-429 | the loop builds `Buckets` |
| Perception.PointCloud.AccumulateBucket | perception/point_cloud.cc:439-462 | the inner loop computes `Accumulated` |
| Perception.PointCloud.AverageBucket | perception/point_cloud.cc:463-476 | the divisions give `BucketMean` |
| Perception.PointCloud.VoxelizedDownSample | perception/point_cloud.cc:405-481 | the voxel size is a `Float`. It throws iff there are no positions or `voxel_size > 0` fails (NaN, -infinity, or not positive), with the failed condition. Otherwise, +infinity included, a fresh valid cloud of the same fields whose content is `DownSampled` at voxel size `Scale` for the iteration order used (see DownSampledIsVoxelMeans and InfiniteSizeIsOneVoxel) |
| Perception.PointCloud.DownSampleChecked | perception/point_cloud.cc:411-480 | past the argument checks, the result is `DownSampled` at voxel size `Scale` for an order that lists every occupied voxel once |
| Perception.PointCloud.MeansCloud | perception/point_cloud.cc:430-478 | allocates one point per voxel and writes the mean of the `j`-th listed bucket as point `j` |
| Perception.CheckedCount | perception/point_cloud.cc:357-363 | throws iff some cloud's field set differs from the first's; otherwise the clouds are homogeneous and the count is the total size |
| Perception.CopyInto | perception/point_cloud.cc:365-382 | the copy loop leaves the inputs unchanged and the output `PartlyCopied` by all clouds |
| Perception.Concatenate | perception/point_cloud.cc:356-384 | with the position copy guarded by `has_xyzs()`: throws iff the field sets differ; otherwise a fresh valid cloud of the common fields whose content is `Concatenated` |
| Perception.ConcatenateAsWritten | perception/point_cloud.cc:356-384 | as written, with the position copy guarded by `has_normals()`: the same errors; on success the content is `ConcatenatedAsWritten` with the allocation's uninitialised content |

## Left out

- Floating point round-off is not modelled. This covers the `float` storage, the `double` accumulators and the `double`/`float` casts in down-sampling. Finite values are exact reals. NaN and the infinities are modelled, because the finiteness tests and comparisons depend on them.
- DownSampleSpec.Trunc: the `cast<int>()` of a voxel coordinate does not wrap or overflow. Keys are unbounded integers, so a coordinate quotient beyond the `int` range (undefined behaviour in the source) is not modelled.
- Point counts and sizes are unbounded naturals. `int` overflow of `count` in Concatenate is not modelled.
- Perception.PointCloud.Allocate: the constructor takes a `nat` size. A negative size, which the source does not check and leaves to the Eigen allocation, is not modelled.
- Perception.IterationOrder: the hash function `Vector3iHash` and the real iteration order of `absl::flat_hash_map` are not modelled. The model lets the order be any enumeration of the keys and states the result for every such order.
- PointCloudStorage.Storage.Resize: the content of columns added by growing is some arbitrary value, the same one in every new column. Contracts never rely on it. Real memory may differ per column.
- The exception message texts built with `fmt::format` are not modelled. Errors carry the expected and actual field sets or sizes instead. A `DRAKE_THROW_UNLESS` carries its condition text.
- Eigen views (`Eigen::Ref`, `middleCols`, `col`) are modelled as sequence operations on per-point columns. Aliasing between views of one buffer is not modelled. Operations that copy between two clouds require distinct storages, or the same cloud.
- The accessors `xyzs()`, `mutable_xyzs()` and so on are not separate members. Their `DRAKE_DEMAND` on the field is a precondition of the members that reach an accessor without checking the field first: `CopyInBox`, `FiniteLowerCorner`, `BuildVoxelMap`, `AccumulateBucket`, `AverageBucket`, `MeansCloud` and `DownSampleChecked` require positions (their callers throw first without them). `WriteBlock` and `CopyInto` require positions when they copy them, and `ConcatenateAsWritten` requires positions when the clouds have normals. `PointOf` and `SetPoint` touch only the buffers that are present, so they require no field.
- The destructor, the OpenMP remark and `unused(coordinates)` have no behaviour to model.
- `perception/point_cloud.h` and `perception/point_cloud_flags.h` are not part of this model. The field set is a record of bits plus one descriptor type, and `contains` is `(a & b) == b`. kDefaultValue is a quiet NaN and kDefaultColor is 0, as that header declares them.
- Notes on the code, which the model follows:
  - the default scalar is NaN and the default colour is 0;
  - a negative constructor size is not checked;
  - an unordered Crop box and an empty Concatenate input are `DRAKE_DEMAND`s (preconditions), not thrown errors;
  - the field set has at most one descriptor type.
- Perception.PointCloud.Copy: as written, a narrowing copy (a requested field set that is neither kInherit nor the source's own) always throws, because the `SetFrom(other)` it calls demands exactly equal fields. The model reproduces that behaviour.

## Findings

| source | as written | input that shows it | evidently intended | confidence | as-written member | corrected member |
|---|---|---|---|---|---|---|
| perception/point_cloud.cc:368 | the position copy in Concatenate is guarded by `new_cloud.has_normals()`, so clouds without normals get the uninitialised positions of the `skip_initialize` allocation, and clouds with normals but no positions would hit the `mutable_xyzs()` demand | one cloud with fields kXYZs and the single point (0, 0, 0) | guard the position copy by `new_cloud.has_xyzs()`, so every point of every cloud is copied | not executed | ConcatenateSpec.AsWrittenKeepsAllocation, ConcatenateSpec.AsWrittenLosesPositions, Perception.ConcatenateAsWritten | Perception.Concatenate, ConcatenateSpec.ConcatenatedBlocks |
