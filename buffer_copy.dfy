/** `BufferCopy::FindMemoryType`: the memory-type selection of the Vulkan
    specification's "Device Memory" section. The memory properties the layer
    queries from the physical device arrive as a parameter: the
    `propertyFlags` of `memoryTypes[0 .. memoryTypeCount - 1]`. */
module BufferCopy {
  import opened Wrappers

  /** The maximum number of memory types a device reports (`VK_MAX_MEMORY_TYPES`). */
  const MaxMemoryTypes := 32

  /** Type `idx` is allowed by the resource's `memoryTypeBits` and has every
      required property flag. */
  predicate Suitable(memoryTypeBits: bv32, propertyFlags: seq<bv32>, required: bv32, idx: nat)
    requires idx < |propertyFlags| <= MaxMemoryTypes
  {
    memoryTypeBits & (1 << idx) != 0 && propertyFlags[idx] & required == required
  }

  /** The lowest suitable index, or `None` where the source logs and aborts. */
  method FindMemoryType(memoryTypeBits: bv32, propertyFlags: seq<bv32>, required: bv32)
    returns (r: Option<nat>)
    requires |propertyFlags| <= MaxMemoryTypes
    ensures r.Some? ==> r.value < |propertyFlags| && Suitable(memoryTypeBits, propertyFlags, required, r.value)
    ensures r.Some? ==> forall j :: 0 <= j < r.value ==> !Suitable(memoryTypeBits, propertyFlags, required, j)
    ensures r.None? ==> forall j :: 0 <= j < |propertyFlags| ==> !Suitable(memoryTypeBits, propertyFlags, required, j)
  {
    var idx := 0;
    while idx < |propertyFlags|
      invariant 0 <= idx <= |propertyFlags|
      invariant forall j :: 0 <= j < idx ==> !Suitable(memoryTypeBits, propertyFlags, required, j)
    {
      if memoryTypeBits & (1 << idx) != 0 && propertyFlags[idx] & required == required {
        return Some(idx);
      }
      idx := idx + 1;
    }
    return None;
  }
}
