/** Choosing a memory type for a buffer (src/vulkan/create_mem_buffer.rs):
    the first-fit search over the device's memory-type table described in the
    "Device Memory" section of the Memory Allocation chapter of the Vulkan
    specification. */
module MemoryTypes {
  import opened Common

  /** VK_MAX_MEMORY_TYPES: the table never has more entries than bits in a `u32` mask. */
  const MaxMemoryTypes: nat := 32

  /** VkMemoryPropertyFlagBits. */
  const DeviceLocal: bv32 := 0x1
  const HostVisible: bv32 := 0x2
  const HostCoherent: bv32 := 0x4
  const HostCached: bv32 := 0x8

  const NoMemoryTypeMessage := "failed to find memory property index"

  /** `flags.contains(desired)`: every desired flag is present. */
  predicate Contains(flags: bv32, desired: bv32) {
    flags & desired == desired
  }

  /** `(supported_memory_type_bits & (1u32 << i)) > 0`. */
  predicate TypeAllowed(typeBits: bv32, i: nat)
    requires i < MaxMemoryTypes
  {
    typeBits & (1 << i) != 0
  }

  /** Memory type `i` may back the buffer and has every desired property. */
  predicate Suitable(memoryTypes: seq<bv32>, typeBits: bv32, desired: bv32, i: nat)
    requires i < |memoryTypes| <= MaxMemoryTypes
  {
    TypeAllowed(typeBits, i) && Contains(memoryTypes[i], desired)
  }

  /** get_supported_memory_property_index: `memoryTypes[i]` are the property
      flags of memory type `i`, `|memoryTypes|` is `memory_type_count`. The
      result is the lowest suitable index; there is no second attempt with
      fewer flags. */
  method GetSupportedMemoryPropertyIndex(memoryTypes: seq<bv32>, typeBits: bv32, desired: bv32)
    returns (r: Result<nat>)
    requires |memoryTypes| <= MaxMemoryTypes
    ensures r.Ok? || r == Err(NoMemoryTypeMessage)
    ensures r.Ok? ==> r.value < |memoryTypes| && Suitable(memoryTypes, typeBits, desired, r.value)
    ensures r.Ok? ==> forall j :: 0 <= j < r.value ==> !Suitable(memoryTypes, typeBits, desired, j)
    ensures r.Err? <==> forall j :: 0 <= j < |memoryTypes| ==> !Suitable(memoryTypes, typeBits, desired, j)
  {
    for i := 0 to |memoryTypes|
      invariant forall j :: 0 <= j < i ==> !Suitable(memoryTypes, typeBits, desired, j)
    {
      var supported := typeBits & (1 << i) != 0;
      if supported && memoryTypes[i] & desired == desired {
        assert Suitable(memoryTypes, typeBits, desired, i);
        return Ok(i);
      }
    }
    return Err(NoMemoryTypeMessage);
  }
}
