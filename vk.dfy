/** The subset of the Vulkan API vocabulary that the renderer uses: handles,
    flag bits with their numeric values, formats, image layouts and the
    shapes of subresource ranges. Values are those of the Vulkan headers. */
module Vk {

  /** An opaque handle; 0 is VK_NULL_HANDLE. */
  type Handle = nat
  const NullHandle: Handle := 0

  type Flags = bv32
  type Flags64 = bv64

  // VkQueueFlagBits
  const QUEUE_GRAPHICS: Flags := 0x1
  const QUEUE_COMPUTE: Flags := 0x2
  const QUEUE_TRANSFER: Flags := 0x4

  // VkMemoryPropertyFlagBits
  const MEMORY_DEVICE_LOCAL: Flags := 0x1
  const MEMORY_HOST_VISIBLE: Flags := 0x2
  const MEMORY_HOST_COHERENT: Flags := 0x4

  // VkImageUsageFlagBits
  const IMAGE_USAGE_TRANSFER_SRC: Flags := 0x1
  const IMAGE_USAGE_TRANSFER_DST: Flags := 0x2
  const IMAGE_USAGE_SAMPLED: Flags := 0x4
  const IMAGE_USAGE_STORAGE: Flags := 0x8
  const IMAGE_USAGE_COLOR_ATTACHMENT: Flags := 0x10
  const IMAGE_USAGE_DEPTH_STENCIL_ATTACHMENT: Flags := 0x20

  // VkImageCreateFlagBits
  const IMAGE_CREATE_MUTABLE_FORMAT: Flags := 0x8
  const IMAGE_CREATE_CUBE_COMPATIBLE: Flags := 0x10

  // VkBufferUsageFlagBits
  const BUFFER_USAGE_TRANSFER_SRC: Flags := 0x1
  const BUFFER_USAGE_TRANSFER_DST: Flags := 0x2
  const BUFFER_USAGE_INDEX_BUFFER: Flags := 0x40
  const BUFFER_USAGE_INDIRECT_BUFFER: Flags := 0x100
  const BUFFER_USAGE_SHADER_DEVICE_ADDRESS: Flags := 0x20000

  // VkMemoryAllocateFlagBits
  const MEMORY_ALLOCATE_DEVICE_ADDRESS: Flags := 0x2

  // VkImageAspectFlagBits
  const ASPECT_COLOR: Flags := 0x1
  const ASPECT_DEPTH: Flags := 0x2

  // VkColorComponentFlagBits
  const COMPONENT_R: Flags := 0x1
  const COMPONENT_G: Flags := 0x2
  const COMPONENT_B: Flags := 0x4
  const COMPONENT_A: Flags := 0x8

  // VkPipelineStageFlagBits2 and VkAccessFlagBits2
  const STAGE_NONE: Flags64 := 0
  const STAGE_COMPUTE_SHADER: Flags64 := 0x800
  const STAGE_ALL_COMMANDS: Flags64 := 0x10000
  const STAGE_COPY: Flags64 := 0x1_0000_0000
  const ACCESS_NONE: Flags64 := 0
  const ACCESS_SHADER_READ: Flags64 := 0x20
  const ACCESS_SHADER_WRITE: Flags64 := 0x40
  const ACCESS_TRANSFER_WRITE: Flags64 := 0x1000

  /** VkFormat, by its numeric value. */
  type Format = nat
  const FORMAT_R8G8B8A8_UNORM: Format := 37
  const FORMAT_R8G8B8A8_SRGB: Format := 43
  const FORMAT_R32_UINT: Format := 98
  const FORMAT_R32G32B32A32_SFLOAT: Format := 109
  const FORMAT_E5B9G9R9_UFLOAT_PACK32: Format := 123
  const FORMAT_D16_UNORM: Format := 124
  const FORMAT_D32_SFLOAT: Format := 126
  const FORMAT_D32_SFLOAT_S8_UINT: Format := 130

  /** The VkImageLayout values the renderer names; a layout field left out of
      a designated initialiser is zero, which is UNDEFINED. */
  datatype Layout = Undefined | General | ShaderReadOnly | TransferDst

  datatype SharingMode = Exclusive | Concurrent

  datatype ViewType = View2D | ViewCube

  /** A layer count in a subresource range: a number, or VK_REMAINING_ARRAY_LAYERS,
      which stands for every layer from the base layer to the end of the image. */
  datatype LayerCount = Layers(n: nat) | RemainingLayers

  /** VkImageSubresourceRange. */
  datatype SubresourceRange = SubresourceRange(
    aspect: Flags, baseMip: nat, levelCount: nat, baseLayer: nat, layerCount: LayerCount)

  /** VkImageSubresourceLayers. */
  datatype SubresourceLayers = SubresourceLayers(aspect: Flags, mip: nat, baseLayer: nat, layerCount: nat)

  /** VkExtent3D. */
  datatype Extent = Extent(width: nat, height: nat, depth: nat)

  /** The three queues the renderer drives. */
  datatype QueueRole = GraphicsQueue | ComputeQueue | TransferQueue

  datatype Option<T> = None | Some(value: T)

  /** The three queue-family indices chosen at device creation. */
  datatype Families = Families(graphics: nat, compute: nat, transfer: nat)

  /** VkImageCreateInfo, the fields the renderer sets (image type 2D and one
      sample are fixed). */
  datatype ImageCreateInfo = ImageCreateInfo(
    flags: Flags, format: Format, extent: Extent, mipLevels: nat, arrayLayers: nat,
    usage: Flags, sharingMode: SharingMode, queueFamilies: seq<nat>)

  /** VkImageViewCreateInfo; `usage` is the VkImageViewUsageCreateInfo in the
      pNext chain, when there is one. */
  datatype ImageViewCreateInfo = ImageViewCreateInfo(
    image: Handle, viewType: ViewType, format: Format, range: SubresourceRange, usage: Option<Flags>)

  /** VkBufferCreateInfo. */
  datatype BufferCreateInfo = BufferCreateInfo(
    size: nat, usage: Flags, sharingMode: SharingMode, queueFamilies: seq<nat>)

  /** VkMemoryAllocateInfo: the memory type and whether a
      VkMemoryAllocateFlagsInfo with DEVICE_ADDRESS is chained. */
  datatype MemoryAllocateInfo = MemoryAllocateInfo(memoryTypeIndex: nat, deviceAddress: bool)

  /** VkSwapchainCreateInfoKHR, the fields the renderer sets. */
  datatype SwapchainCreateInfo = SwapchainCreateInfo(
    surface: Handle, minImageCount: nat, extent: Extent, arrayLayers: nat, usage: Flags,
    sharingMode: SharingMode, queueFamilies: seq<nat>, oldSwapchain: Handle)
}
