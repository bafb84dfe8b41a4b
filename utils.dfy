/** The shared definitions of src/Utils.h: frame-ring size, required extensions, queue-family indices and the memory-type search. */
module Utils {
  import opened Vulkan
  import opened Wrappers

  /** Number of frames that may be in flight at once (size of the fence/semaphore ring). */
  const MAX_FRAME_DRAWS: nat := 2

  /** Device extensions every suitable device must offer. */
  const DEVICE_EXTENSIONS: seq<string> := [KHR_SWAPCHAIN_EXTENSION_NAME]

  /** Locations of the graphics and presentation queue families; -1 means "not found". */
  datatype QueueFamilyIndices = QueueFamilyIndices(graphicsFamily: int, presentationFamily: int)
  {
    /** Both families were found; an index still at the not-found value -1 makes the pair invalid. */
    predicate IsValid(): (valid: bool)
      ensures valid ==> graphicsFamily >= 0 && presentationFamily >= 0
      ensures graphicsFamily == -1 || presentationFamily == -1 ==> !valid
    {
      graphicsFamily >= 0 && presentationFamily >= 0
    }
  }

  /** A default-constructed QueueFamilyIndices. */
  function NewQueueFamilyIndices(): (r: QueueFamilyIndices)
    ensures r.graphicsFamily == -1 && r.presentationFamily == -1
    ensures !r.IsValid()
  {
    QueueFamilyIndices(-1, -1)
  }

  /**
   * Memory type i may back the resource: bit i of `allowedTypes` is set and the type's
   * property flags include every bit of `propertyFlags`.
   */
  predicate MemoryTypeQualifies(memoryTypes: seq<MemoryType>, i: nat, allowedTypes: bv32, propertyFlags: bv32)
    requires i < |memoryTypes| <= MAX_MEMORY_TYPES
  {
    (allowedTypes & (1 << i)) != 0 && (memoryTypes[i].propertyFlags & propertyFlags) == propertyFlags
  }

  /** The first qualifying memory type at or after `from`, if there is one. */
  function FirstMemoryType(memoryTypes: seq<MemoryType>, allowedTypes: bv32, propertyFlags: bv32, from: nat): (r: Option<nat>)
    requires from <= |memoryTypes| <= MAX_MEMORY_TYPES
    ensures r.Some? ==> from <= r.value < |memoryTypes|
                        && MemoryTypeQualifies(memoryTypes, r.value, allowedTypes, propertyFlags)
                        && forall j :: from <= j < r.value ==> !MemoryTypeQualifies(memoryTypes, j, allowedTypes, propertyFlags)
    ensures r.None? ==> forall j :: from <= j < |memoryTypes| ==> !MemoryTypeQualifies(memoryTypes, j, allowedTypes, propertyFlags)
    decreases |memoryTypes| - from
  {
    if from == |memoryTypes| then None
    else if MemoryTypeQualifies(memoryTypes, from, allowedTypes, propertyFlags) then Some(from)
    else FirstMemoryType(memoryTypes, allowedTypes, propertyFlags, from + 1)
  }

  /** The index FindMemoryTypeIndex returns: the first qualifying type, or 0 when none qualifies. */
  function MemoryTypeIndex(memoryTypes: seq<MemoryType>, allowedTypes: bv32, propertyFlags: bv32): uint32
    requires |memoryTypes| <= MAX_MEMORY_TYPES
  {
    match FirstMemoryType(memoryTypes, allowedTypes, propertyFlags, 0)
    case Some(i) => i as uint32
    case None => 0
  }

  /**
   * Scans the device's memory types in index order and returns the first one allowed by
   * `allowedTypes` whose flags contain `propertyFlags`; returns 0 when none does.
   */
  method FindMemoryTypeIndex(physicalDevice: PhysicalDevice, allowedTypes: bv32, propertyFlags: bv32) returns (index: uint32)
    requires |physicalDevice.memoryTypes| <= MAX_MEMORY_TYPES
    ensures index == MemoryTypeIndex(physicalDevice.memoryTypes, allowedTypes, propertyFlags)
    ensures (exists i :: 0 <= i < |physicalDevice.memoryTypes| && MemoryTypeQualifies(physicalDevice.memoryTypes, i, allowedTypes, propertyFlags))
            ==> index as nat < |physicalDevice.memoryTypes|
                && MemoryTypeQualifies(physicalDevice.memoryTypes, index as nat, allowedTypes, propertyFlags)
                && forall j :: 0 <= j < index as nat ==> !MemoryTypeQualifies(physicalDevice.memoryTypes, j, allowedTypes, propertyFlags)
    ensures (forall i :: 0 <= i < |physicalDevice.memoryTypes| ==> !MemoryTypeQualifies(physicalDevice.memoryTypes, i, allowedTypes, propertyFlags))
            ==> index == 0
  {
    var memoryTypes := physicalDevice.memoryTypes;
    var i: nat := 0;
    while i < |memoryTypes|
      invariant i <= |memoryTypes|
      invariant FirstMemoryType(memoryTypes, allowedTypes, propertyFlags, 0) == FirstMemoryType(memoryTypes, allowedTypes, propertyFlags, i)
    {
      if MemoryTypeQualifies(memoryTypes, i, allowedTypes, propertyFlags) {
        return i as uint32;
      }
      i := i + 1;
    }
    return 0;
  }

  /**
   * The no-match result cannot be told apart from a genuine match at index 0: a device whose
   * only memory type qualifies and one whose only memory type lacks the flags both give 0.
   */
  lemma NoMatchLooksLikeIndexZero()
    ensures MemoryTypeQualifies([MemoryType(MEMORY_PROPERTY_HOST_VISIBLE_BIT)], 0, 1, MEMORY_PROPERTY_HOST_VISIBLE_BIT)
    ensures !MemoryTypeQualifies([MemoryType(MEMORY_PROPERTY_DEVICE_LOCAL_BIT)], 0, 1, MEMORY_PROPERTY_HOST_VISIBLE_BIT)
    ensures MemoryTypeIndex([MemoryType(MEMORY_PROPERTY_HOST_VISIBLE_BIT)], 1, MEMORY_PROPERTY_HOST_VISIBLE_BIT) == 0
    ensures MemoryTypeIndex([MemoryType(MEMORY_PROPERTY_DEVICE_LOCAL_BIT)], 1, MEMORY_PROPERTY_HOST_VISIBLE_BIT) == 0
  {
    var good := [MemoryType(MEMORY_PROPERTY_HOST_VISIBLE_BIT)];
    var bad := [MemoryType(MEMORY_PROPERTY_DEVICE_LOCAL_BIT)];
    assert FirstMemoryType(good, 1, MEMORY_PROPERTY_HOST_VISIBLE_BIT, 0) == Some(0);
    assert FirstMemoryType(bad, 1, MEMORY_PROPERTY_HOST_VISIBLE_BIT, 0) == None;
  }
}
