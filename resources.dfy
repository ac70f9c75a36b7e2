/** The create-info decisions of createImage and createBuffer: what the
    renderer asks the driver for, as a function of the requested format,
    usage, mip count and cube flag (images) or usage and memory properties
    (buffers). The calls themselves are in the Renderer class; these
    functions state what those calls carry. */
module Resources {
  import opened Vk
  import opened VkUtil

  const ATTACHMENT_USAGE: Flags := IMAGE_USAGE_COLOR_ATTACHMENT | IMAGE_USAGE_DEPTH_STENCIL_ATTACHMENT

  /** An image that is never an attachment is shared by all three queues;
      an attachment stays exclusive to the graphics queue. */
  predicate SharedImage(usage: Flags)
  {
    usage & ATTACHMENT_USAGE == 0
  }

  /** An sRGB image that is also written as a storage image: sRGB formats
      cannot be storage images, so it is created UNORM and viewed sRGB. */
  predicate SrgbStorage(format: Format, usage: Flags)
  {
    format == FORMAT_R8G8B8A8_SRGB && usage & IMAGE_USAGE_STORAGE != 0
  }

  /** The VkFormat values D16_UNORM (124) through D32_SFLOAT_S8_UINT (130):
      the depth and depth/stencil formats. */
  predicate DepthFormat(format: Format)
  {
    FORMAT_D16_UNORM <= format <= FORMAT_D32_SFLOAT_S8_UINT
  }

  /** The VkImageCreateInfo createImage passes for the request
      (width, height, format, usage, mips, cube). */
  function ImageInfo(fam: Families, width: nat, height: nat, format: Format, usage: Flags, mips: nat, cube: bool): (ci: ImageCreateInfo)
    ensures ci.sharingMode == Concurrent <==> SharedImage(usage)
    ensures ci.queueFamilies == if SharedImage(usage) then [fam.graphics, fam.compute, fam.transfer] else [fam.graphics]
    ensures ci.format == if SrgbStorage(format, usage) then FORMAT_R8G8B8A8_UNORM else format
    ensures ci.flags == if cube then IMAGE_CREATE_CUBE_COMPATIBLE | IMAGE_CREATE_MUTABLE_FORMAT
                        else if SrgbStorage(format, usage) then IMAGE_CREATE_MUTABLE_FORMAT else 0
    ensures ci.arrayLayers == if cube then 6 else 1
    ensures ci.extent == Extent(width, height, 1) && ci.mipLevels == mips && ci.usage == usage
  {
    var mode := if SharedImage(usage) then Concurrent else Exclusive;
    var families := if SharedImage(usage) then [fam.graphics, fam.compute, fam.transfer] else [fam.graphics];
    var srgbStorage := SrgbStorage(format, usage);
    var format' := if srgbStorage then FORMAT_R8G8B8A8_UNORM else format;
    var flags := if srgbStorage then IMAGE_CREATE_MUTABLE_FORMAT else 0;
    ImageCreateInfo(
      if cube then IMAGE_CREATE_CUBE_COMPATIBLE | IMAGE_CREATE_MUTABLE_FORMAT else flags,
      format', Extent(width, height, 1), mips, if cube then 6 else 1, usage, mode, families)
  }

  /** The VkImageViewCreateInfo of the image's default view. The range is
      chosen by the format the image was created with, after the sRGB
      substitution. */
  function ViewInfo(image: Handle, format: Format, usage: Flags, cube: bool): (vi: ImageViewCreateInfo)
    ensures vi.image == image
    ensures vi.viewType == if cube then ViewCube else View2D
    ensures vi.usage == if SrgbStorage(format, usage) then Some(usage & !IMAGE_USAGE_STORAGE) else None
  {
    var srgbStorage := SrgbStorage(format, usage);
    var created := if srgbStorage then FORMAT_R8G8B8A8_UNORM else format;
    ImageViewCreateInfo(
      image,
      if cube then ViewCube else View2D,
      if srgbStorage then FORMAT_R8G8B8A8_SRGB else created,
      if created < 124 || created > 130 then ColorSubresourceRange() else DepthSubresourceRange(),
      if srgbStorage then Some(usage & !IMAGE_USAGE_STORAGE) else None)
  }

  /** The default view always has the format that was asked for, even when
      the image itself was created in the UNORM substitute. */
  lemma ViewKeepsRequestedFormat(image: Handle, format: Format, usage: Flags, cube: bool)
    ensures ViewInfo(image, format, usage, cube).format == format
  {
  }

  /** The view's range is the depth range exactly when the format the
      image was created with lies in the depth block, the colour range
      otherwise; since the sRGB substitute is a colour format too, this is
      the same as asking of the requested format. */
  lemma ViewAspectByFormat(fam: Families, width: nat, height: nat, format: Format, usage: Flags, mips: nat, cube: bool, image: Handle)
    ensures var ci := ImageInfo(fam, width, height, format, usage, mips, cube);
      var vi := ViewInfo(image, format, usage, cube);
      && vi.range == (if DepthFormat(ci.format) then DepthSubresourceRange() else ColorSubresourceRange())
      && (DepthFormat(ci.format) <==> DepthFormat(format))
      && (vi.range.aspect == ASPECT_DEPTH <==> DepthFormat(format))
  {
  }

  /** No image is ever created in an sRGB format with storage usage. */
  lemma NoSrgbStorageImage(fam: Families, width: nat, height: nat, format: Format, usage: Flags, mips: nat, cube: bool)
    ensures var ci := ImageInfo(fam, width, height, format, usage, mips, cube);
      ci.usage & IMAGE_USAGE_STORAGE != 0 ==> ci.format != FORMAT_R8G8B8A8_SRGB
  {
  }

  /** Whenever the default view's format differs from the image's, the image
      was created MUTABLE_FORMAT, as Vulkan requires for such a view; and a
      usage restriction on the view is a subset of the image usage that
      leaves out STORAGE. */
  lemma ViewCompatibleWithImage(fam: Families, width: nat, height: nat, format: Format, usage: Flags, mips: nat, cube: bool, image: Handle)
    ensures var ci := ImageInfo(fam, width, height, format, usage, mips, cube);
      var vi := ViewInfo(image, format, usage, cube);
      && (vi.format != ci.format ==> ci.flags & IMAGE_CREATE_MUTABLE_FORMAT != 0)
      && (vi.usage.Some? ==> vi.usage.value & !ci.usage == 0 && vi.usage.value & IMAGE_USAGE_STORAGE == 0)
  {
    var ci := ImageInfo(fam, width, height, format, usage, mips, cube);
    if ViewInfo(image, format, usage, cube).format != ci.format && !cube {
      assert SrgbStorage(format, usage);
    }
  }

  /** A cube request yields a six-layer CUBE_COMPATIBLE image with a cube
      view (the sRGB MUTABLE flag is subsumed: cube images are MUTABLE
      anyway); otherwise one layer and a 2D view. */
  lemma CubeShape(fam: Families, width: nat, height: nat, format: Format, usage: Flags, mips: nat, cube: bool, image: Handle)
    ensures var ci := ImageInfo(fam, width, height, format, usage, mips, cube);
      var vi := ViewInfo(image, format, usage, cube);
      && (cube <==> ci.flags & IMAGE_CREATE_CUBE_COMPATIBLE != 0)
      && (cube <==> ci.arrayLayers == 6)
      && (cube <==> vi.viewType == ViewCube)
  {
  }

  /** Where the host reaches a buffer's memory: the mapped pointer (host
      visible memory), the device address (device-address usage, not host
      visible), or neither. The union in Buffer holds at most one. */
  datatype BufferPointer = HostPointer | DeviceAddress | NoPointer

  function BufferInfo(fam: Families, size: nat, usage: Flags): (bi: BufferCreateInfo)
    ensures bi.sharingMode == Concurrent
    ensures bi.queueFamilies == [fam.graphics, fam.compute, fam.transfer]
    ensures bi.size == size && bi.usage == usage
  {
    BufferCreateInfo(size, usage, Concurrent, [fam.graphics, fam.compute, fam.transfer])
  }

  /** The allocation requests a device address exactly for device-address usage. */
  function BufferAllocRequestsAddress(usage: Flags): bool
  {
    usage & BUFFER_USAGE_SHADER_DEVICE_ADDRESS != 0
  }

  function BufferPointerFor(usage: Flags, memProps: Flags): (p: BufferPointer)
    ensures p == HostPointer <==> memProps & MEMORY_HOST_VISIBLE != 0
    ensures p == DeviceAddress <==> memProps & MEMORY_HOST_VISIBLE == 0 && usage & BUFFER_USAGE_SHADER_DEVICE_ADDRESS != 0
    ensures p == NoPointer <==> memProps & MEMORY_HOST_VISIBLE == 0 && usage & BUFFER_USAGE_SHADER_DEVICE_ADDRESS == 0
  {
    if memProps & MEMORY_HOST_VISIBLE != 0 then HostPointer
    else if usage & BUFFER_USAGE_SHADER_DEVICE_ADDRESS != 0 then DeviceAddress
    else NoPointer
  }

  /** A device address is only ever taken from memory that was allocated
      with the DEVICE_ADDRESS flag. */
  lemma AddressOnlyFromAddressMemory(usage: Flags, memProps: Flags)
    ensures BufferPointerFor(usage, memProps) == DeviceAddress ==> BufferAllocRequestsAddress(usage)
  {
  }
}
