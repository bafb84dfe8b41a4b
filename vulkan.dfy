/**
 * The Vulkan values the renderer's decision rules read: enumerants with the numeric values
 * of the Vulkan 1.3 headers, the surface and queue-family records, and a physical device
 * described by what the renderer queries from it. Handles are opaque numbers.
 */
module Vulkan {

  newtype uint32 = x: int | 0 <= x < 0x1_0000_0000

  const UINT32_MAX: uint32 := 0xFFFF_FFFF

  /** A C++ conversion of an `int` to `uint32_t`: the value modulo 2^32. */
  function ToUint32(x: int): (r: uint32)
    ensures 0 <= x <= UINT32_MAX as int ==> r as int == x
  {
    (x % 0x1_0000_0000) as uint32
  }

  /** An opaque Vulkan object handle (buffer, semaphore, image, ...). */
  datatype Handle = Handle(id: nat)

  /** VkFormat */
  type Format = uint32
  const FORMAT_UNDEFINED: Format := 0
  const FORMAT_R8G8B8A8_UNORM: Format := 37
  const FORMAT_B8G8R8A8_UNORM: Format := 44
  const FORMAT_R16_SFLOAT: Format := 76

  /** VkColorSpaceKHR */
  type ColorSpace = uint32
  const COLOR_SPACE_SRGB_NONLINEAR: ColorSpace := 0
  const COLOR_SPACE_EXTENDED_SRGB_LINEAR: ColorSpace := 1000104002

  /** VkPresentModeKHR */
  type PresentMode = uint32
  const PRESENT_MODE_IMMEDIATE: PresentMode := 0
  const PRESENT_MODE_MAILBOX: PresentMode := 1
  const PRESENT_MODE_FIFO: PresentMode := 2
  const PRESENT_MODE_FIFO_RELAXED: PresentMode := 3

  /** VkQueueFlagBits */
  const QUEUE_GRAPHICS_BIT: bv32 := 0x1

  /** VkMemoryPropertyFlagBits */
  const MEMORY_PROPERTY_DEVICE_LOCAL_BIT: bv32 := 0x1
  const MEMORY_PROPERTY_HOST_VISIBLE_BIT: bv32 := 0x2
  const MEMORY_PROPERTY_HOST_COHERENT_BIT: bv32 := 0x4
  /** Memory the CPU can write through a mapping without explicit flushes. */
  const HOST_VISIBLE_COHERENT: bv32 := MEMORY_PROPERTY_HOST_VISIBLE_BIT | MEMORY_PROPERTY_HOST_COHERENT_BIT

  /** VkBufferUsageFlagBits */
  const BUFFER_USAGE_UNIFORM_BUFFER_BIT: bv32 := 0x10
  const BUFFER_USAGE_VERTEX_BUFFER_BIT: bv32 := 0x80

  /** VK_MAX_MEMORY_TYPES: the length of VkPhysicalDeviceMemoryProperties::memoryTypes. */
  const MAX_MEMORY_TYPES: nat := 32

  const KHR_SWAPCHAIN_EXTENSION_NAME: string := "VK_KHR_swapchain"

  datatype SharingMode = Exclusive | Concurrent

  datatype SurfaceFormat = SurfaceFormat(format: Format, colorSpace: ColorSpace)

  datatype Extent2D = Extent2D(width: uint32, height: uint32)

  /** The fields of VkSurfaceCapabilitiesKHR the renderer reads. */
  datatype SurfaceCapabilities = SurfaceCapabilities(
    minImageCount: uint32,
    maxImageCount: uint32,
    currentExtent: Extent2D,
    minImageExtent: Extent2D,
    maxImageExtent: Extent2D)

  /** What GetSwapChainDetails collects for one device and the renderer's surface. */
  datatype SwapChainDetails = SwapChainDetails(
    surfaceCapabilities: SurfaceCapabilities,
    formats: seq<SurfaceFormat>,
    presentationModes: seq<PresentMode>)

  /**
   * One VkQueueFamilyProperties entry together with the answer that
   * vkGetPhysicalDeviceSurfaceSupportKHR gives for this family and the renderer's surface.
   */
  datatype QueueFamily = QueueFamily(queueFlags: bv32, queueCount: uint32, surfaceSupport: bool)

  datatype MemoryType = MemoryType(propertyFlags: bv32)

  /** A physical device as the renderer sees it through the enumeration queries. */
  datatype PhysicalDevice = PhysicalDevice(
    queueFamilies: seq<QueueFamily>,
    extensions: seq<string>,
    swapChainDetails: SwapChainDetails,
    memoryTypes: seq<MemoryType>)
}
