/**
 * PointCloud::Storage: the dense buffers of one cloud, kept at one column per
 * point. It resizes them together and never invents values: columns added by
 * growing are uninitialised.
 */
module PointCloudStorage {
  import opened PcFlags
  import opened CloudValues

  class Storage {
    const fields: Fields
    var size: nat
    var xyzs: seq<Vec3<Float>>
    var normals: seq<Vec3<Float>>
    var rgbs: seq<Vec3<Color>>
    var descriptors: seq<seq<Float>>

    /** The buffers as a value. */
    ghost function Data(): Cloud
      reads this
    {
      Cloud(fields, size, xyzs, normals, rgbs, descriptors)
    }

    /** The invariant CheckInvariants demands after every resize. */
    ghost predicate Valid()
      reads this
    {
      WellFormed(Data())
    }

    /** Allocates the buffers `fields` names, each with `newSize` uninitialised columns. */
    constructor (newSize: nat, fields: Fields)
      ensures Valid() && this.fields == fields && size == newSize
    {
      this.fields := fields;
      size, xyzs, normals, rgbs, descriptors := 0, [], [], [], [];
      new;
      Resize(newSize);
    }

    /**
     * Gives every present buffer `newSize` columns, keeping the common prefix;
     * the content of columns added by growing is unspecified.
     */
    method Resize(newSize: nat)
      requires Valid()
      modifies this
      ensures Valid() && KeepsPrefix(old(Data()), Data(), newSize)
    {
      // Whatever the freshly allocated memory holds.
      var junk: Float :| true;
      size := newSize;
      if fields.xyzs {
        xyzs := Fit(xyzs, newSize, Vec3(junk, junk, junk));
      }
      if fields.normals {
        normals := Fit(normals, newSize, Vec3(junk, junk, junk));
      }
      if fields.rgbs {
        var junkColor: Color :| true;
        rgbs := Fit(rgbs, newSize, Vec3(junkColor, junkColor, junkColor));
      }
      if fields.HasDescriptor() {
        descriptors := Fit(descriptors, newSize, seq(fields.descriptor.size, _ => junk));
      }
    }
  }
}
