# A Dafny model of the capstone Vulkan renderer

The renderer is a C++ program that drives Vulkan: it picks queue families
and memory types, creates images, buffers and a swapchain, records command
streams that upload textures and bake a skybox, and tears everything down in
a fixed order. Almost every line is a `vk*` call, so this model describes
the decisions around those calls and the order in which they happen. It
proves the following:

- **Table searches** (`DeviceSelect`): `getQueue` and `getMemoryIndex` are
  first-match searches. The three queue families the constructor picks are
  pairwise distinct.
- **Create-info decisions** (`Resources`, `VkUtil`): sharing mode, sRGB
  format substitution, cube flags, view aspect and buffer pointer kind are
  functions of the request. Each is proved against the rule it implements,
  for example that no image is created sRGB with storage usage, or that a
  view's format is compatible with its image.
- **Mip arithmetic and the shared-exponent word** (`Mips`,
  `SharedExponent`): the mip level counts and dispatch grids, and the bit
  layout of `packe5bgr9`/`unpacke5bgr9`. The layout matches
  VK_FORMAT_E5B9G9R9_UFLOAT_PACK32 as the Formats chapter of the Vulkan
  specification defines it, and packing then unpacking returns the fields.
- **Recorded command streams** (`Commands`, `TextureStreams`,
  `SkyboxStreams`): each stream is run one subresource (image, mip, layer)
  at a time.
  - A barrier's old layout must match the subresource's current layout, or
    be UNDEFINED.
  - A dispatch may only read a level whose writes have been made available,
    through a descriptor naming the layout the level is in.
  - The transfer stream hands over to the compute stream through the
    semaphore.
  - The streams are defined twice: with the barrier ranges as written
    (`colorSubresourceRange`, mip 0 and layer 0 only), and with whole-image
    ranges. Only the whole-image version is valid.
- **Model data** (`Scene`): the material table and its `texBitfield`, the
  sRGB image set, the depth-first walk over scene nodes, the draw commands
  and their opaque/blend partition, the indirect buffer layout, and the
  descriptor list.
- **Object lifetimes** (`Ledger`, `Ownership`): every Vulkan call becomes
  an event of a trace. The ledger replays the trace over the live objects
  and the queues' pending work, and rejects:
  - destroying an object that is dead or in use by a queue;
  - destroying a device that still has children;
  - a submit that names a dead object.
- **The Renderer object** (`Renderer`): a class whose fields are the
  renderer's members. Its constructor, `createImage`, `createBuffer`,
  `createSwapchain`, `recreateSwapchain` and the destructor append their
  calls to the trace, and each states how the live objects change. The
  constructor, `createImage`, `createBuffer` and `createSwapchain` are
  proved to keep the trace valid, and after the constructor what the
  renderer holds is exactly what is live. `recreateSwapchain` and the destructor as
  written are the ones proved to go wrong: the recreate leaves dead views
  in the view list, so a second recreate is rejected, and the destructor
  makes the trace invalid once a swapchain view is live. The corrected
  `RecreateSwapchainClearingViews` and `DestructorDestroyingViews` are the
  ones that keep the trace valid and ownership exact.
- **Upload teardown** (`Uploads`): the end of `createModel` and
  `createSkybox`, `destroyModel` and `destroySkybox`. These are proved to
  release exactly the staging and temporary objects and nothing the stored
  model or skybox holds. Releasing any of them the stream uses before its
  queue is drained makes the trace invalid.

Handles are natural numbers, with 0 as VK_NULL_HANDLE. Flags are `bv32` and
the synchronization-2 stage and access masks are `bv64`.

The framebuffer sizes read while the window is minimised are a parameter.
So are the physical device's queue family and memory type tables, the
memory type bits the driver reports, and the handles made by code that is
not part of this model.

Three behaviours of the code are modelled as written (the first two are
reported in the Findings section):
- `recreateSwapchain` does not clear the view list.
- The destructor destroys neither the swapchain's image views nor the
  skybox.
- The header `src/renderer.hpp` is older than the `.cpp` files, so the
  fields and signatures come from the `.cpp` bodies. Only the
  `Image`/`Buffer` shapes, `m_framesInFlight = 2` and the two target
  formats are taken from the header.

## Model

| member | source | states |
|---|---|---|
| VkUtil.ColorSubresourceRange | include/tbrs/vk_util.hpp:6-8 | colour aspect; on an image of any layer count it covers the subresource (mip, layer) iff mip = 0 and layer = 0: exactly one subresource |
| VkUtil.DepthSubresourceRange | include/tbrs/vk_util.hpp:14-16 | depth aspect; covers (mip, layer) iff both are 0 |
| VkUtil.ColorSubresourceLayers | include/tbrs/vk_util.hpp:10-12 | colour aspect, mip 0, covers layer l iff l = 0 |
| VkUtil.DepthSubresourceLayers | include/tbrs/vk_util.hpp:18-20 | depth aspect, mip 0, covers layer l iff l = 0 |
| VkUtil.ColorComponentAll | include/tbrs/vk_util.hpp:22-24 | the mask has each of R, G, B and A set and no other bit |
| VkUtil.MipAllLayers | src/renderer_skybox.cpp:127 | the range {colour, mip i, 1 level, layer 0, VK_REMAINING_ARRAY_LAYERS} covers (m, l) iff m = i and l is any layer of the image |
| VkUtil.MipLayer0 | src/renderer_model.cpp:159 | the range {colour, mip i, 1 level, layer 0, 1 layer} covers (m, l) iff m = i and l = 0 |
| Mips.FloorLog2Bounds | shaders/utils.h:34-36 | the integer floor(log2 n) k satisfies 2^k <= n < 2^(k+1) |
| Mips.FloorLog2Unique | shaders/utils.h:34-36 | any k with 2^k <= n < 2^(k+1) is floor(log2 n) |
| Mips.LevelSize | src/renderer_model.cpp:178 | max(n >> i, 1) is at least one texel |
| Mips.CountMips | shaders/utils.h:34-36 | countMips(x, y) = floor(log2 max(x, y)) + 1 = r with r >= 1 and 2^(r-1) <= max(x, y) < 2^r |
| Mips.HostMipCount | src/renderer_model.cpp:99 | the host's u8 numMips for extents below 2^31 equals the shader's countMips and is at most 32 (the u8 truncation never wraps) |
| Mips.FloorLog2Below31 | src/renderer_model.cpp:99 | an i32 extent has floor(log2) below 31 |
| Mips.LastLevelIsOneTexel | src/renderer_model.cpp:153 | the last level of the full chain is one texel in the larger dimension and a further level would be zero texels |
| Mips.DispatchGroups | src/renderer_model.cpp:178 | (max(n>>i,1)+7)/8 groups of 8 reach every texel of level i, and one group fewer would not |
| Mips.DispatchGroupsIsLeast | src/renderer_model.cpp:178 | any group count g with 8g >= the level size is at least the dispatched count |
| Mips.CubeMips | src/renderer_skybox.cpp:56 | u8(log2(cubeSize) + 1) equals the full-chain count of a cubeSize square |
| SharedExponent.BiasedExponent | shaders/utils.h:12 | max(-16, floor(log2 max)) + 16 lies in 0..30 for channels clamped to 16384, is 0 at or below -16 and log2 + 16 above |
| SharedExponent.ExponentFitsField | shaders/e5bgr9utils.h:12-16 | the bump adds exactly one iff the maximum rounds to 512 and otherwise changes nothing, and the exponent stays in 0..31, the 5-bit field |
| SharedExponent.Unpack | shaders/utils.h:25-29 | the extracted exponent is below 32 and each channel below 512 |
| SharedExponent.PackIsE5B9G9R9 | shaders/utils.h:22 | for in-range fields the packed word is exp * 2^27 + b * 2^18 + g * 2^9 + r, the VK_FORMAT_E5B9G9R9_UFLOAT_PACK32 layout |
| SharedExponent.UnpackPack | shaders/utils.h:18-29 | unpacking a packed word gives back the exponent and the low 9 bits of each channel |
| SharedExponent.PackUnpack | shaders/utils.h:22-29 | repacking the unpacked fields of any word gives the word back |
| SharedExponent.ChannelsCannotOverlap | shaders/e5bgr9utils.h:18-22 | the masked channels can change neither the exponent nor each other |
| SharedExponent.PackedExponentRecovered | shaders/e5bgr9utils.h:8-22 | the exponent packe5bgr9 computes, bump included, is the exponent the word carries |
| DeviceSelect.GetQueueFrom | src/renderer_util.cpp:16-19 | the scan from `start` returns the first index at or after `start` whose flags share a bit with `include` and none with `exclude` |
| DeviceSelect.GetQueue | src/renderer_util.cpp:9-21 | given a matching family (the source has no return otherwise), getQueue returns a matching index and every smaller index fails the intersection test |
| DeviceSelect.GetQueueIsLeast | src/renderer_util.cpp:16-19 | an index that matches with every smaller index failing is the one getQueue returns |
| DeviceSelect.SelectFamilies | src/renderer_raii.cpp:52-54 | graphics = getQueue(GRAPHICS), compute = getQueue(COMPUTE, excl. GRAPHICS), transfer = getQueue(TRANSFER, excl. GRAPHICS or COMPUTE), each a valid index |
| DeviceSelect.SelectedFamiliesDistinct | src/renderer_raii.cpp:52-54 | the three selected families are pairwise distinct |
| DeviceSelect.TypeBit | src/renderer_util.cpp:25 | 1 << idx is non-zero for idx < 32 |
| DeviceSelect.HasMemoryTypeFromIff | src/renderer_util.cpp:24-27 | the scan from `start` can succeed iff some index at or after `start` has its mask bit and every required property bit |
| DeviceSelect.GetMemoryIndexFrom | src/renderer_util.cpp:24-27 | the scan from `start` stops at an index at or after `start` within the table |
| DeviceSelect.GetMemoryIndexFromIsFirst | src/renderer_util.cpp:24-27 | that index passes the test and every index between `start` and it fails |
| DeviceSelect.GetMemoryIndex | src/renderer_util.cpp:23-29 | given a matching memory type (the source has no return otherwise), the result is below memoryTypeCount |
| DeviceSelect.GetMemoryIndexIsFirst | src/renderer_util.cpp:24-25 | the index getMemoryIndex returns has its bit set in `mask`, holds every bit of `flags`, and every smaller index fails |
| DeviceSelect.GetMemoryIndexFromAt | src/renderer_util.cpp:24-27 | from `start`, an index that passes with all before it failing is where the scan stops |
| DeviceSelect.GetMemoryIndexIsLeast | src/renderer_util.cpp:24-27 | any passing index with all smaller ones failing is the index getMemoryIndex returns |
| Resources.ImageInfo | src/renderer_resources.cpp:65-95 | CONCURRENT over [graphics, compute, transfer] iff usage has neither attachment bit, else EXCLUSIVE over [graphics]; sRGB storage becomes UNORM with MUTABLE_FORMAT; cube gives CUBE_COMPATIBLE or MUTABLE_FORMAT and 6 layers, else 1; extent, mips and usage as asked |
| Resources.ViewInfo | src/renderer_resources.cpp:105-111 | the view is of the image, CUBE iff cube, and restricts usage to usage without STORAGE exactly for an sRGB storage image |
| Resources.ViewKeepsRequestedFormat | src/renderer_resources.cpp:109 | the default view always has the requested format, even when the image was created UNORM |
| Resources.ViewAspectByFormat | src/renderer_resources.cpp:110 | the view uses the depth range iff the created format is in 124..130, which holds iff the requested format is |
| Resources.NoSrgbStorageImage | src/renderer_resources.cpp:76-80 | no image is created sRGB with storage usage |
| Resources.ViewCompatibleWithImage | src/renderer_resources.cpp:76-111 | a view format differing from the image's implies MUTABLE_FORMAT, and a view usage restriction is a subset of the image usage without STORAGE |
| Resources.CubeShape | src/renderer_resources.cpp:84-108 | cube iff CUBE_COMPATIBLE, iff 6 layers, iff a CUBE view |
| Resources.BufferInfo | src/renderer_resources.cpp:124-130 | every buffer is CONCURRENT over [graphics, compute, transfer] with the size and usage asked |
| Resources.BufferPointerFor | src/renderer_resources.cpp:141-146 | host pointer iff HOST_VISIBLE; device address iff not host visible and SHADER_DEVICE_ADDRESS usage; neither otherwise |
| Resources.AddressOnlyFromAddressMemory | src/renderer_resources.cpp:135-145 | a device address is only taken from memory allocated with the DEVICE_ADDRESS flag |
| Commands.Flush | src/renderer_model.cpp:180-190 | a barrier makes the pending writes available (none left) iff its source access scope covers them all; otherwise they stay pending unchanged |
| Commands.Pushed | src/renderer_model.cpp:162-175 | a push descriptor set binds exactly the old slots plus the slots it writes (pushes are incremental) |
| Commands.ExecAppend | src/renderer_model.cpp:109-203 | running two pieces of a recorded stream in turn is running their concatenation |
| Commands.ExecFailStays | src/renderer_model.cpp:109-203 | an invalid prefix makes the whole stream invalid, whatever follows |
| Commands.ExecFrame | src/renderer_model.cpp:109-203 | a stream that never names a subresource is valid for it and leaves its layout and pending writes unchanged |
| Commands.WholeImageRange | src/renderer_model.cpp:201 | the range every barrier of a whole-image transition would need covers (m, l) iff m < mips and l < layers |
| Commands.BindFrame | src/renderer_model.cpp:152 | a block that starts by binding a pipeline and never names a subresource leaves it unchanged whatever was bound before |
| Commands.FlattenBindFrame | src/renderer_model.cpp:93-204 | the per-texture blocks of the compute stream that do not name a subresource leave it unchanged |
| Scene.MaterialBitfield | src/renderer_model.cpp:55-80 | each HAS_ bit of texBitfield is set iff its texture slot is present, and no other bit is ever set |
| Scene.MaterialIndices | src/renderer_model.cpp:55-80 | each present slot's index field holds its texture index, and an absent slot's index stays zero |
| Scene.SrgbImagesExactly | src/renderer_model.cpp:56-77 | an image is marked sRGB iff some material reaches it through its base-colour or emissive texture |
| Scene.ConvertMaterial | src/renderer_model.cpp:47-81 | one loop iteration builds the material's specified record and adds exactly that material's base-colour and emissive images to the sRGB map |
| Scene.BuildMaterials | src/renderer_model.cpp:47-83 | one Material per glTF material in order, each the specified record; `isSrgb[idx]` (an absent key reading false) is true iff idx is an sRGB image |
| Scene.NodePrimitives | src/renderer_model.cpp:286-391 | the depth-first primitive list of a node only holds primitives whose material index is in range |
| Scene.ChildrenPrimitives | src/renderer_model.cpp:388-390 | the primitives of a list of children, each in range |
| Scene.ScenePrimitives | src/renderer_model.cpp:393-396 | the primitives of the default scene's roots, each in range |
| Scene.ChildrenPrimitivesSnoc | src/renderer_model.cpp:388-390 | one more child adds exactly that child's primitives at the end |
| Scene.AddPrimitivesAppend | src/renderer_model.cpp:302-386 | accumulating two primitive lists in turn is accumulating their concatenation |
| Scene.AppendPrimitives | src/renderer_model.cpp:302-386 | the loop over a mesh's primitives accumulates exactly those primitives, in order |
| Scene.ProcessNode | src/renderer_model.cpp:286-391 | processNode appends to the geometry exactly the node's depth-first primitive list |
| Scene.ChildStep | src/renderer_model.cpp:388-390 | processing one more child extends the geometry by that child's primitives |
| Scene.ProcessScene | src/renderer_model.cpp:393-396 | the root loop accumulates exactly the scene's depth-first primitive list |
| Scene.IndexDataLength | src/renderer_model.cpp:307-309 | the concatenated index data is as long as the sum of the index counts |
| Scene.GeometryIsReference | src/renderer_model.cpp:303-385 | the accumulated geometry is all index data in visit order, the vertex total, and the non-blending and blending draws each in visit order, each draw being {indices appended, 1, prior index count, prior vertex count, material index} |
| Scene.DrawsAreContiguous | src/renderer_model.cpp:303-378 | each draw's first index and vertex offset start where the previous primitive's ended |
| Scene.PartitionCounts | src/renderer_model.cpp:380-385 | the two lists together hold every draw once; every blend-list draw's material blends and no opaque-list draw's does |
| Scene.DrawInItsList | src/renderer_model.cpp:380-385 | each primitive's command is in the list its material's alpha mode selects |
| Scene.IndirectLayout | src/renderer_model.cpp:406-419 | the indirect staging contents are the opaque draws followed by the blend draws, its byte size the sum of theirs, one draw per primitive |
| Scene.TextureDescriptors | src/renderer_model.cpp:223-241 | one SHADER_READ_ONLY descriptor per texture, or exactly one when there are none |
| Scene.BuildDescriptors | src/renderer_model.cpp:223-241 | descriptor i is {sampler of texture i, view of its image, SHADER_READ_ONLY}; with no textures the list is the single placeholder {skybox sampler, null view} |
| Ledger.ApplyAllAppend | src/renderer_raii.cpp:7-197 | replaying a call trace in two parts is replaying it whole |
| Ledger.ReplayConsistent | src/renderer_raii.cpp:7-227 | every ledger a valid trace reaches keeps its bookkeeping: live handles were created, and busy objects are live or command buffers |
| Ledger.NeverRevived | src/renderer_resources.cpp:57-59 | a destroyed handle is never live again, whatever calls follow |
| Ledger.DestroyOfDeadFails | src/renderer_resources.cpp:57-59 | destroying an already destroyed handle at any later point makes the trace invalid |
| Ledger.DeviceOutlivedFails | src/renderer_raii.cpp:218 | destroying the device while an object created from it is live, however many calls come between, makes the trace invalid |
| Ledger.DestroyBeforeIdleFails | src/renderer_model.cpp:446-463 | destroying an object a queue's submission uses, before that queue or the device is waited on, makes the trace invalid |
| Ledger.SubmitMakesBusy | src/renderer_model.cpp:426-444 | after a submit every object its commands name, and its command buffer, is pending on that queue |
| Ledger.SignalThenWait | src/renderer_model.cpp:426-444 | the transfer submit's signal is consumed by the compute submit's wait: the pair is valid, leaves the semaphore unsignalled, and a further wait on it is invalid |
| Ownership.Teardown | src/renderer_raii.cpp:202-216 | a teardown is one destroy per held object, in the order held, each of the kind it is held as |
| Ownership.TeardownAppend | src/renderer_raii.cpp:202-216 | tearing down two lists is tearing down their concatenation |
| Ownership.Released | src/renderer_raii.cpp:202-216 | the released set is exactly the handles of the list |
| Ownership.TeardownStep | src/renderer_resources.cpp:116-120 | the first destroy of a teardown of held, distinct, unused device children succeeds and removes just that handle, leaving the rest held |
| Ownership.TeardownReleases | src/renderer_raii.cpp:202-216 | destroying a distinct list of live device children that no queue uses succeeds and leaves exactly those handles dead |
| Ownership.TeardownSpares | src/renderer_raii.cpp:202-216 | a teardown that does not name a handle never destroys it |
| Ownership.SegmentLive | src/renderer_resources.cpp:5-44 | a handle owned outside a segment is live and not in the segment |
| Ownership.ReplaceHolds | src/renderer_resources.cpp:5-44 | replacing a segment of what is owned by newly held objects keeps everything held |
| Ownership.ReplaceDistinct | src/renderer_resources.cpp:5-44 | replacing a segment by fresh distinct handles keeps the whole list distinct |
| Ownership.OwnsReplace | src/renderer_resources.cpp:5-44 | replacing a segment by fresh objects, with nothing else live changing, keeps the holder owning exactly what is live |
| Ownership.OwnsRemove | src/renderer_resources.cpp:54-59 | releasing a segment leaves the holder owning exactly the rest |
| Ownership.AfterChildren | src/renderer_raii.cpp:202-218 | once every device child is released, only the device, surface and instance are live |
| Ownership.CoreTeardown | src/renderer_raii.cpp:218-221 | with only the core left and nothing busy, destroying the device, the surface and then the instance succeeds and leaves nothing live |
| Ownership.CoreOwned | src/renderer_raii.cpp:218-221 | the core part of an owned list satisfies what that teardown needs |
| Ownership.ShutdownReleasesAll | src/renderer_raii.cpp:199-221 | waiting for the device, destroying the children in order, then device, surface and instance succeeds and leaves nothing live |
| Ownership.ShutdownLeavingChildFails | src/renderer_raii.cpp:218 | a shutdown that omits a live device child fails when it destroys the device |
| TextureStreams.TransferBlocks | src/renderer_model.cpp:93-141 | the transfer stream holds one upload block per image, in image order |
| TextureStreams.ComputeBlocks | src/renderer_model.cpp:152-203 | the compute stream holds one mip-chain block per image, in image order |
| TextureStreams.RangeFitsWhen | src/renderer_model.cpp:116-201 | the transition range covers exactly the image's levels iff it is the whole-image range or the image has one level (colorSubresourceRange covers only mip 0) |
| TextureStreams.TransferOther | src/renderer_model.cpp:109-141 | an image's upload block never names a subresource outside that image |
| TextureStreams.TransferRun | src/renderer_model.cpp:109-141 | on its own image the upload is valid; a subresource the range covers goes UNDEFINED to TRANSFER_DST, receives the copy and ends GENERAL with the copy's write made available; others are untouched |
| TextureStreams.MipLoopOther | src/renderer_model.cpp:153-191 | the mip loop names no subresource outside its image |
| TextureStreams.ComputeOther | src/renderer_model.cpp:152-203 | an image's compute block starts by binding its pipeline and names nothing outside the image |
| TextureStreams.IterationRun | src/renderer_model.cpp:162-190 | iteration i binds {level i-1, level i} as GENERAL storage images, dispatches, and its write-to-read barrier makes level i's writes available, so a GENERAL level stays GENERAL with nothing pending |
| TextureStreams.MipLoopRun | src/renderer_model.cpp:153-191 | the whole mip loop is valid on a GENERAL level and leaves it GENERAL with nothing pending |
| TextureStreams.ComputeRun | src/renderer_model.cpp:152-203 | when the range fits, the compute block is valid on every level and ends it SHADER_READ_ONLY, the layout the descriptor names |
| TextureStreams.MipLoopPrefix | src/renderer_model.cpp:153 | the loop up to iteration j is a prefix of the loop up to n |
| TextureStreams.IterationFails | src/renderer_model.cpp:162-178 | iteration m on its own level m fails when that level is not GENERAL: the dispatch finds it bound as a GENERAL storage image |
| TextureStreams.ComputeFails | src/renderer_model.cpp:131-178 | as written, a level m >= 1 not in GENERAL makes the compute block invalid |
| TextureStreams.MipLoopUntouchedBelow | src/renderer_model.cpp:153-191 | the iterations before level m do not name level m |
| TextureStreams.TransferAround | src/renderer_model.cpp:91-141 | the buffer copies and other images' blocks around image k leave image k's subresources alone |
| TextureStreams.ComputeAround | src/renderer_model.cpp:152-203 | the other images' compute blocks each rebind and leave image k's subresources alone |
| TextureStreams.TransferSub | src/renderer_model.cpp:91-141 | the whole transfer stream acts on a subresource of image k exactly as image k's upload block does |
| TextureStreams.ComputeSub | src/renderer_model.cpp:152-206 | the whole compute stream acts on a subresource of image k exactly as image k's compute block does |
| TextureStreams.ChainedOutside | src/renderer_model.cpp:426-444 | a subresource inside no texture keeps its creation state through both submissions |
| TextureStreams.ChainedInside | src/renderer_model.cpp:91-206 | when the range fits, a texture subresource ends SHADER_READ_ONLY with every write made available, across the semaphore |
| TextureStreams.ChainedFails | src/renderer_model.cpp:116-178 | as written, a level m >= 1 of a texture is still UNDEFINED when the dispatch binds it as GENERAL: the compute stream is invalid |
| TextureStreams.WholeImageUploadOk | src/renderer_model.cpp:91-227 | with whole-image transitions both streams are valid for every subresource, and every level of every texture ends SHADER_READ_ONLY as the descriptor at :227 names |
| TextureStreams.AsWrittenUploadOkIff | src/renderer_model.cpp:99-203 | as written the streams are valid iff no texture has more than one level; level 1 of any texture with more is a failing subresource |
| SkyboxStreams.CubeViewsWhen | src/renderer_skybox.cpp:64-261 | the per-level views cover six faces; as written the default and the three E5B9G9R9 cube views cover one face only, so the cube views are all six-face iff whole-image ranges are used |
| SkyboxStreams.ComputeThrough | src/renderer_skybox.cpp:86-289 | the compute stream runs as its five blocks in turn: environment start, projection, environment mip chain, irradiance, radiance |
| SkyboxStreams.EnvBarrierOnEnv | src/renderer_skybox.cpp:133-143 | the write-to-read barrier of iteration i leaves every face writable, keeps the bindings, and leaves level i-1 with nothing unmade |
| SkyboxStreams.EnvDispatchOnEnv | src/renderer_skybox.cpp:153-170 | with level i-1 bound as input and level i as output, both GENERAL storage, the dispatch of iteration i is valid on every face of the cube once level i-1 has nothing left unmade, and keeps the face writable |
| SkyboxStreams.EnvIterationOnEnv | src/renderer_skybox.cpp:132-171 | one environment mip iteration is valid on every face of the environment cube and keeps it GENERAL with only shader writes pending |
| SkyboxStreams.EnvLoopOnEnv | src/renderer_skybox.cpp:132-171 | the whole environment mip loop is valid on the environment cube and keeps it writable |
| SkyboxStreams.EnvLoopOther | src/renderer_skybox.cpp:132-171 | the environment mip loop names nothing outside the environment cube |
| SkyboxStreams.RadIterationOnRad | src/renderer_skybox.cpp:254-275 | one radiance iteration is valid on the radiance cube and writes its level through a GENERAL storage view |
| SkyboxStreams.RadLoopOnRad | src/renderer_skybox.cpp:254-275 | the radiance loop writes every level 0 .. cubeMips-1 validly and keeps the cube writable |
| SkyboxStreams.RadIterationOnSource | src/renderer_skybox.cpp:264-274 | a radiance iteration only rebinds the storage slot: the sampled environment cube stays bound and untouched |
| SkyboxStreams.RadLoopOnSource | src/renderer_skybox.cpp:244-275 | the environment cube stays SHADER_READ_ONLY and available through the whole radiance loop |
| SkyboxStreams.RadLoopOther | src/renderer_skybox.cpp:254-275 | the radiance loop names nothing outside the radiance cube |
| SkyboxStreams.TransferOnSource | src/renderer_skybox.cpp:18-44 | the transfer stream takes the source UNDEFINED to TRANSFER_DST, copies and leaves it SHADER_READ_ONLY with the copy available; nothing else is touched |
| SkyboxStreams.CubeOnSource | src/renderer_skybox.cpp:98-119 | the projection samples the source SHADER_READ_ONLY with nothing pending and leaves it so |
| SkyboxStreams.CubeOnEnv | src/renderer_skybox.cpp:87-119 | the projection writes the environment cube made GENERAL just before it |
| SkyboxStreams.EnvMipOnEnv | src/renderer_skybox.cpp:131-194 | after the mip chain the environment cube is SHADER_READ_ONLY with every write available, before the convolutions sample it |
| SkyboxStreams.IrradianceOnEnv | src/renderer_skybox.cpp:196-219 | the irradiance convolution samples the environment cube SHADER_READ_ONLY and leaves it so |
| SkyboxStreams.RadianceOnEnv | src/renderer_skybox.cpp:242-275 | the radiance pass samples the environment cube SHADER_READ_ONLY on every level it writes |
| SkyboxStreams.EnvMipOnIrr | src/renderer_skybox.cpp:173-194 | the irradiance cube is made GENERAL only at the end of the mip-chain block |
| SkyboxStreams.IrradianceOnIrr | src/renderer_skybox.cpp:196-231 | the irradiance pass writes all six faces GENERAL and leaves them SHADER_READ_ONLY |
| SkyboxStreams.IrradianceOnRad | src/renderer_skybox.cpp:221-240 | the radiance cube is made GENERAL only at the end of the irradiance block |
| SkyboxStreams.RadianceOnRad | src/renderer_skybox.cpp:242-287 | the radiance pass writes every level and face of the radiance cube and leaves them SHADER_READ_ONLY |
| SkyboxStreams.CubeMipsPositive | src/renderer_skybox.cpp:56-59 | the environment and radiance cubes have at least one level |
| SkyboxStreams.EnvStartOther | src/renderer_skybox.cpp:87-96 | the first barrier names only the environment cube |
| SkyboxStreams.CubeOther | src/renderer_skybox.cpp:98-119 | the projection names only the source and the environment cube, and starts with a bind |
| SkyboxStreams.EnvMipOther | src/renderer_skybox.cpp:131-194 | the mip-chain block names only the environment and irradiance cubes |
| SkyboxStreams.IrradianceOther | src/renderer_skybox.cpp:196-240 | the irradiance block names only the three cubes |
| SkyboxStreams.RadianceOther | src/renderer_skybox.cpp:242-287 | the radiance block names only the environment and radiance cubes |
| SkyboxStreams.BakeOutside | src/renderer_skybox.cpp:18-299 | a subresource of none of the four images is left UNDEFINED and untouched by both streams |
| SkyboxStreams.BakeSource | src/renderer_skybox.cpp:18-119 | with whole-image ranges the source ends SHADER_READ_ONLY with every write available |
| SkyboxStreams.BakeEnvironment | src/renderer_skybox.cpp:87-275 | with whole-image ranges every level and face of the environment cube is written, then sampled, and ends SHADER_READ_ONLY |
| SkyboxStreams.BakeIrradiance | src/renderer_skybox.cpp:173-231 | with whole-image ranges every face of the irradiance cube ends SHADER_READ_ONLY |
| SkyboxStreams.BakeRadiance | src/renderer_skybox.cpp:221-287 | with whole-image ranges every level and face of the radiance cube ends SHADER_READ_ONLY |
| SkyboxStreams.WholeImageBakeOk | src/renderer_skybox.cpp:18-299 | with whole-image ranges both streams are valid for every subresource, and every subresource of the four images ends SHADER_READ_ONLY with every write available |
| SkyboxStreams.AsWrittenBakeFails | src/renderer_skybox.cpp:232-274 | as written only face 0 of radiance mip 0 is made GENERAL, yet the first radiance dispatch binds all six faces as GENERAL storage: the stream is invalid for face 1 |
| SkyboxStreams.RadianceFails | src/renderer_skybox.cpp:254-274 | the radiance block on an UNDEFINED face of mip 0 is invalid |
| Renderer.DestroyImageReleases | src/renderer_resources.cpp:116-120 | destroyImage is accepted exactly when each of the view, the image and the memory is null or live as its kind and idle, and then it releases exactly those three objects and nothing else |
| Renderer.DestroyBufferReleases | src/renderer_resources.cpp:151-154 | destroyBuffer is accepted exactly when the buffer and its memory are each null or live and idle, and then it releases exactly those two |
| Renderer.SwapchainViewEvents | src/renderer_resources.cpp:32-41 | one view create per swapchain image, in order |
| Renderer.ViewObjs | src/renderer_resources.cpp:32-41 | one owned view object per view handle held |
| Renderer.SamplerObjs | src/renderer_model.cpp:208-221 | one owned sampler object per sampler handle |
| Renderer.RetireReleases | src/renderer_resources.cpp:54-59 | with the targets and views live and each held once, the device wait and the destroys make no object and leave exactly the other objects live, with every queue idle |
| Renderer.RetireIsTeardown | src/renderer_resources.cpp:54-59 | the retirement is a device wait followed by the teardown of the two targets and the views, in that order |
| Renderer.RetireDeadViewFails | src/renderer_resources.cpp:57-59 | a retirement that names a view already destroyed is rejected |
| Renderer.FreshHeld | src/renderer_resources.cpp:7-44 | the swapchain, its views and the two targets, numbered in order by the driver, are all live as what they are |
| Renderer.SwapchainRebuilt | src/renderer_resources.cpp:4-45 | createSwapchain putting its new objects in the old swapchain's place keeps what the renderer holds exactly what is live |
| Renderer.FirstDrawable | src/renderer_resources.cpp:48-52 | the first size among successive reads with neither side zero: every earlier one has a zero side |
| Renderer.ShutdownNoCreates | src/renderer_raii.cpp:199-221 | the destructor only destroys |
| Renderer.DestructorLeavesViews | src/renderer_raii.cpp:199-221 | with a swapchain view live, the destructor's calls are rejected: the device is destroyed while a view of a swapchain image is still live |
| Renderer.FramesEvents | src/renderer_raii.cpp:182-195 | five calls per per-frame slot, in slot order |
| Renderer.FrameHeld | src/renderer_raii.cpp:182-195 | a per-frame slot's pool, semaphores and fence, numbered in order, are live, distinct and held |
| Renderer.Renderer.Call | src/renderer_raii.cpp:7-227 | one accepted Vulkan call extends the trace and moves the ledger accordingly |
| Renderer.Renderer.Record | src/renderer_raii.cpp:199-227 | one call recorded whatever the ledger makes of it |
| Renderer.Renderer.NewHandle | src/renderer_resources.cpp:83-111 | the driver hands out a handle no object has had |
| Renderer.Renderer.OnResize | src/renderer_util.cpp:5-7 | the swapchain is marked for recreation |
| Renderer.Renderer.CreateObject | src/renderer_raii.cpp:28-195 | a create call makes the driver's next handle a live object of the kind asked for, and keeps the trace valid |
| Renderer.Renderer.CreateImage | src/renderer_resources.cpp:65-114 | createImage makes an image, its device-local memory bound to it, and its default view, with the create infos the request decides; those three objects are added and nothing else changes |
| Renderer.Renderer.DestroyImage | src/renderer_resources.cpp:116-120 | destroyImage on a releasable image removes exactly its non-null objects |
| Renderer.Renderer.CreateBuffer | src/renderer_resources.cpp:122-149 | createBuffer makes a buffer and memory of the requested properties, bound, and maps it or takes its device address as its usage and memory decide; exactly those two objects are added |
| Renderer.Renderer.ExposePointer | src/renderer_resources.cpp:141-146 | host-visible memory is mapped, else a device-address buffer's address is taken, else nothing; no object changes |
| Renderer.Renderer.DestroyBuffer | src/renderer_resources.cpp:151-154 | destroyBuffer on a releasable buffer removes exactly its non-null objects |
| Renderer.Renderer.ReplaceSwapchain | src/renderer_resources.cpp:5-24 | a new swapchain is created at the window's size with the previous one handed over, then the previous one is destroyed |
| Renderer.Renderer.GetImages | src/renderer_resources.cpp:26-30 | the image count is asked for, then the images; no object changes |
| Renderer.Renderer.CreateSwapchainViews | src/renderer_resources.cpp:32-41 | one view per swapchain image, in order, each a new live object |
| Renderer.Renderer.AcquireViews | src/renderer_resources.cpp:26-41 | the images of the new swapchain, and a view of each appended to the views already held, which are kept as they were |
| Renderer.Renderer.CreateTargets | src/renderer_resources.cpp:43-44 | the colour and depth targets at the window's size, with their formats and usages |
| Renderer.Renderer.ReplaceAndAcquire | src/renderer_resources.cpp:5-41 | the swapchain replaced, then its images and their views appended to the view list |
| Renderer.Renderer.CreateSwapchain | src/renderer_resources.cpp:4-45 | createSwapchain's calls in order; the old swapchain is the only object removed, and the new swapchain, views and targets are the only ones added |
| Renderer.Renderer.CallAll | src/renderer_resources.cpp:54-59 | accepted calls that make nothing, in order |
| Renderer.Renderer.PollFramebuffer | src/renderer_resources.cpp:48-52 | the wait stops at the first size with neither side zero, and returns it |
| Renderer.Renderer.RetireSwapchain | src/renderer_resources.cpp:54-59 | the device wait and the destroys leave every other object held and the swapchain live and idle; every view destroyed is dead but stays in the view list |
| Renderer.Renderer.RecreateSwapchain | src/renderer_resources.cpp:47-63 | recreateSwapchain as written: the size is the first drawable one, the dirty flag is cleared, the trace stays valid, but the destroyed views stay in the list, ahead of the new ones |
| Renderer.Renderer.RebuildKeepingViews | src/renderer_resources.cpp:61-62 | createSwapchain after the retirement leaves the dead views listed ahead of the new ones |
| Renderer.Renderer.RecreateSwapchainClearingViews | src/renderer_resources.cpp:47-63 | with the view list cleared after the views are destroyed, recreateSwapchain keeps what is held exactly what is live, with one view per swapchain image |
| Renderer.Renderer.RetireClearingViews | src/renderer_resources.cpp:48-59 | the retirement with the view list cleared leaves nothing held that is not live |
| Renderer.Renderer.ForgetViews | src/renderer_resources.cpp:57-62 | the view list is emptied and the polled size recorded |
| Renderer.Renderer.Rebuild | src/renderer_resources.cpp:61 | createSwapchain with an empty view list restores the ownership invariant |
| Renderer.Renderer.constructor | src/renderer_raii.cpp:7-197 | the constructor picks the queue families by the selection rule, makes the instance, device, queues, surface, swapchain, model pipeline and frame slots in order, and ends with what it holds exactly what is live and one view per swapchain image |
| Renderer.Renderer.Construct | src/renderer_raii.cpp:28-195 | the constructor's calls in order from an empty trace |
| Renderer.Renderer.ConstructFromSwapchain | src/renderer_raii.cpp:106-195 | the constructor's calls from createSwapchain on |
| Renderer.Renderer.ConstructFromPipeline | src/renderer_raii.cpp:114-195 | the constructor's calls from the pipeline layout on, leaving the swapchain as it was |
| Renderer.Renderer.StartUp | src/renderer_raii.cpp:28-104 | the instance, the device, the three queues and the surface, in that order |
| Renderer.Renderer.CreateInstance | src/renderer_raii.cpp:28-42 | vkCreateInstance makes the next handle the instance |
| Renderer.Renderer.CreateDevice | src/renderer_raii.cpp:55-98 | vkCreateDevice asks for one queue of each chosen family, then the three queues are fetched |
| Renderer.Renderer.GetQueues | src/renderer_raii.cpp:96-98 | the graphics, compute and transfer queues are fetched, no object changes |
| Renderer.Renderer.CreateSurface | src/renderer_raii.cpp:103-104 | the window surface becomes the next live object |
| Renderer.Renderer.CreateFirstSwapchain | src/renderer_raii.cpp:106 | the first createSwapchain hands over no swapchain and ends with one view per image |
| Renderer.Renderer.CreateModelPipeline | src/renderer_raii.cpp:114-156 | the pipeline layout, then the graphics pipeline |
| Renderer.Renderer.MakeFrame | src/renderer_raii.cpp:184-194 | a transient pool on the graphics family, its command buffer, two semaphores and a signalled fence |
| Renderer.Renderer.CreateFrame | src/renderer_raii.cpp:184-194 | slot i is filled and no other slot changes |
| Renderer.Renderer.CreateFrames | src/renderer_raii.cpp:182-195 | every per-frame slot is filled, in slot order |
| Renderer.Renderer.RecordAll | src/renderer_raii.cpp:199-227 | calls recorded in order whatever the ledger makes of them |
| Renderer.Renderer.Destructor | src/renderer_raii.cpp:199-227 | the destructor as written: with any swapchain view live, its calls leave the trace invalid |
| Renderer.Renderer.DestructorDestroyingViews | src/renderer_raii.cpp:199-227 | destroying the swapchain views before the swapchain, the destructor's calls are all accepted and nothing is left live |
| Uploads.DestroyModelIsTeardown | src/renderer_model.cpp:470-485 | destroyModel destroys exactly the objects held for the model, each once, in its order |
| Uploads.DestroySkyboxIsTeardown | src/renderer_skybox.cpp:322-326 | destroySkybox destroys exactly the three images' objects, in its order |
| Uploads.DestroyModelReleases | src/renderer_model.cpp:470-485 | on a model whose objects are live, held once and idle, destroyModel is accepted and releases exactly them |
| Uploads.DestroySkyboxReleases | src/renderer_skybox.cpp:322-326 | the same for destroySkybox |
| Uploads.TransferSubmitted | src/renderer_model.cpp:426-434 | the transfer submit on an idle ledger makes the transfer queue use its stream's objects and its command buffer, and signals the semaphore |
| Uploads.ComputeSubmitted | src/renderer_model.cpp:436-444 | the compute submit, while the transfer is pending, adds the compute queue's work and consumes the semaphore's signal |
| Uploads.TransferDrained | src/renderer_model.cpp:446 | vkQueueWaitIdle on the transfer queue leaves only the compute queue's work |
| Uploads.ModelSubmitted | src/renderer_model.cpp:426-446 | the two submits and the transfer drain, from an idle ledger, leave only the compute stream's objects in use |
| Uploads.ModelUploadReleases | src/renderer_model.cpp:426-465 | the end of createModel, from an idle ledger, is accepted and leaves the ledger idle with exactly the staging buffers and the mip views released |
| Uploads.ModelUploadKeeps | src/renderer_model.cpp:426-467 | every object of the stored model, held once alongside the staging buffers and mip views, is still live after the upload |
| Uploads.ModelStagingEarlyFails | src/renderer_model.cpp:446-455 | destroying a staging buffer the transfer stream copies from before the transfer queue is drained makes the trace invalid, whatever follows |
| Uploads.ModelViewEarlyFails | src/renderer_model.cpp:459-463 | destroying a mip view the compute stream binds with no wait on the compute queue or the device in between makes the trace invalid |
| Uploads.QuietKeepsQueues | src/renderer_skybox.cpp:56-84 | the image and view creates between the two skybox submits leave the queues' work and the semaphore alone |
| Uploads.SkyboxSubmitted | src/renderer_skybox.cpp:291-302 | the compute submit, the transfer drain and the pool reset leave only the compute stream's objects in use |
| Uploads.SkyboxUploadReleases | src/renderer_skybox.cpp:46-314 | the end of createSkybox is accepted and leaves the ledger idle, with exactly the staging buffer, the source image and the temporary views released from what was live once the cube images were made |
| Uploads.SkyboxUploadKeeps | src/renderer_skybox.cpp:316-319 | the three cube images and the sampled views the skybox stores are still live after the upload |
| Uploads.SkyboxStagingEarlyFails | src/renderer_skybox.cpp:301-303 | destroying the staging buffer before the transfer queue is drained makes the trace invalid |
| Uploads.SkyboxTempEarlyFails | src/renderer_skybox.cpp:305-314 | destroying the source image or a view the compute stream binds before the compute queue is drained makes the trace invalid |

## Left out

- GPU execution and the true parallelism of the three queues: submits, semaphore signals and waits, and waits for idle are ordered events of one trace, and the command streams are checked for layouts and write availability only. Write-after-write and read-after-write hazards between two dispatches on different subresources are not checked.
- All floating point: node transforms, normal and tangent normalisation, bounding boxes, the base transform, `calcColor`, `exp2` and the float reconstruction in `unpacke5bgr9`. In the mip counts `floor(log2(x))` is an integer function. In `packe5bgr9` the channels arrive as the u32 values `calcColor` gives, so the clamp is not modelled, and `floor(log2(maxChannel))` and the rounded maximum channel are parameters.
- glTF parsing (fastgltf), stb_image decoding and mikktspace tangent generation: the asset is plain sequences of nodes, meshes, primitives and materials, with index and vertex counts already known.
- `getShaderSource` (file I/O), the pipeline factories in src/renderer_resources.cpp:156-219 and the inline graphics-pipeline build in the constructor: each pipeline and layout is one create event with no create info.
- GLFW window creation, event polling and `glfwWaitEvents`: `recreateSwapchain`'s poll is a list of framebuffer sizes, of which at least one has neither side zero.
- The NFD file dialog and its `NFD_OKAY` branch: the constructor here ends with no model loaded, as when the dialog is cancelled. `createModel` and `createSkybox` are modelled as value-level streams and event lists (`Scene`, `TextureStreams`, `SkyboxStreams`, `Uploads`), not as methods of the class; the image and view creates between their submits are assumed accepted and quiet.
- `createSkybox` is never called from the code shown, so no skybox is ever uploaded in the class; `Uploads` states what its end does on the ledger.
- `memcpy` into mapped memory: the staging buffers' contents are the source sequences.
- The per-frame acquire, record, submit and present loop: it is not in src/renderer_raii.cpp or the other files modelled.
- The upload command pools, command buffers and semaphore, the compute pipelines and their layouts, the skybox sampler and the irradiance map size are made by code not part of this model; they are given to the constructor as handles.
- The driver's chosen handles: the model numbers every object from 1 in creation order, the swapchain images included.
- `m_perFrameData` is a `seq` field reassigned slot by slot, not a fixed array.
- `m_swapchain` and the other handles are taken to start as VK_NULL_HANDLE; the header does not show their initialisers.
- Scene.NodePrimitives: the walk over the node tree carries a fuel bound equal to the node count, so a node graph with a cycle (not a tree) is cut off instead of recursing forever.
- Renderer.Renderer.constructor: does not state the window size (three quarters of the primary monitor's mode) or the cleared dirty flag in its contract, because the constructor's statements set them directly and nothing later depends on them.
- Renderer.Renderer.Destructor: requires a device and proves only that the trace is invalid once a swapchain view is live; the destructor's calls are recorded whatever the ledger says.
- Renderer.Renderer.RecreateSwapchain: the second call after the first cannot be made from its postcondition, since destroyed views stay in the list; `Renderer.RetireDeadViewFails` shows why.

## Findings

| source | as written | input that shows it | evidently intended | confidence | as-written member | corrected member |
|---|---|---|---|---|---|---|
| src/renderer_resources.cpp:40, 57-59 | `createSwapchain` appends a view per image to `m_swapchainImageViews`, and `recreateSwapchain` destroys the views but never clears the vector | a second `recreateSwapchain` destroys the first one's views again, which are already dead | clear the vector after destroying its views | not executed | Renderer.Renderer.RecreateSwapchain, Renderer.RetireDeadViewFails | Renderer.Renderer.RecreateSwapchainClearingViews |
| src/renderer_model.cpp:116, 139, 162-178, 201 | every texture barrier uses `colorSubresourceRange`, mip 0 only | an image with two or more levels: level 1 is UNDEFINED when the first mip dispatch binds it as a GENERAL storage image | whole-image barrier ranges | not executed | TextureStreams.AsWrittenUploadOkIff | TextureStreams.WholeImageUploadOk |
| src/renderer_skybox.cpp:69-94, 232-274 | the cube barriers and the default and sampled cube views use `colorSubresourceRange`, layer 0 only | face 1 of radiance mip 0 is UNDEFINED when the first radiance dispatch binds all six faces as GENERAL; the one-layer views are not valid cube views | ranges over all six layers and every level | not executed | SkyboxStreams.AsWrittenBakeFails | SkyboxStreams.WholeImageBakeOk |
| src/renderer_raii.cpp:199-218 | the destructor destroys the targets and the swapchain but not the swapchain's image views, then destroys the device | any constructed renderer: a view of a swapchain image is live when the device is destroyed | destroy each view before the swapchain | not executed | Renderer.DestructorLeavesViews, Renderer.Renderer.Destructor | Renderer.Renderer.DestructorDestroyingViews |
