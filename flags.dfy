/**
 * The field-set algebra of a point cloud: which per-point channels a cloud
 * declares (positions, normals, colours, one descriptor type), together with
 * the two sentinels kNone and kInherit.
 *
 * A field set is a bit mask of base fields plus a descriptor type, as in the
 * flags the cloud is built on: kInherit is a bit of its own, so that
 * "contains kInherit" is a bit test, and kNone is the set with no bit and no
 * descriptor.
 */
module PcFlags {

  /** A descriptor kind: its row count per point and its name. */
  datatype DescriptorType = DescriptorType(size: nat, name: string)

  /** The descriptor type of a field set without descriptors. */
  const DescriptorNone: DescriptorType := DescriptorType(0, "")

  datatype Fields = Fields(xyzs: bool, normals: bool, rgbs: bool, inherit: bool, descriptor: DescriptorType)
  {
    /** `has_descriptor()`. */
    predicate HasDescriptor() {
      descriptor != DescriptorNone
    }
  }

  const None: Fields := Fields(false, false, false, false, DescriptorNone)
  const XYZs: Fields := Fields(true, false, false, false, DescriptorNone)
  const Normals: Fields := Fields(false, true, false, false, DescriptorNone)
  const RGBs: Fields := Fields(false, false, true, false, DescriptorNone)
  const Inherit: Fields := Fields(false, false, false, true, DescriptorNone)

  /** `a & b`: the base bits both carry, and the descriptor type when both carry the same one. */
  function Intersect(a: Fields, b: Fields): Fields {
    Fields(a.xyzs && b.xyzs, a.normals && b.normals, a.rgbs && b.rgbs, a.inherit && b.inherit,
           if a.descriptor == b.descriptor then a.descriptor else DescriptorNone)
  }

  /** `a.contains(b)`: `(a & b) == b`. */
  predicate Contains(a: Fields, b: Fields) {
    Intersect(a, b) == b
  }

  /** What the cloud constructor accepts: not kNone and without the kInherit bit. */
  predicate ValidFields(f: Fields) {
    f != None && !f.inherit
  }

  /** Containment read field by field: every requested bit is present, and a requested descriptor is the same type. */
  lemma ContainsFieldwise(a: Fields, b: Fields)
    ensures Contains(a, b) <==>
      && (b.xyzs ==> a.xyzs) && (b.normals ==> a.normals) && (b.rgbs ==> a.rgbs)
      && (b.inherit ==> a.inherit)
      && (b.HasDescriptor() ==> a.descriptor == b.descriptor)
  {
  }

  /** Containment is a partial order; mutual containment is equality, so exact-field checks are two containment checks. */
  lemma ContainsPartialOrder(a: Fields, b: Fields, c: Fields)
    ensures Contains(a, a)
    ensures Contains(a, b) && Contains(b, c) ==> Contains(a, c)
    ensures Contains(a, b) && Contains(b, a) <==> a == b
  {
    ContainsFieldwise(a, b);
    ContainsFieldwise(b, a);
    ContainsFieldwise(b, c);
    ContainsFieldwise(a, c);
  }

  /** Every field set contains kNone, and kNone contains only itself. */
  lemma ContainsNone(a: Fields)
    ensures Contains(a, None)
    ensures Contains(None, a) <==> a == None
  {
  }
}
