/** The Renderer object: the Vulkan calls its constructor, destructor and
    resource routines make, in order, as events appended to a trace, with
    the handles the driver returns drawn from a counter. Every method states
    how it changes the live objects. All but the as-written recreate and
    destructor keep the trace valid under the lifecycle rules of the ledger;
    those two are proved to go wrong, and their corrected versions are
    proved to keep the trace valid.

    A handle value 0 is VK_NULL_HANDLE. The objects made by code that is
    not part of this model (upload command pools and buffers, the upload
    semaphore, the compute pipelines and their layouts, the skybox sampler
    and the irradiance size) are given to the constructor. */
module Renderer {
  import opened Vk
  import opened VkUtil
  import opened Mips
  import opened DeviceSelect
  import opened Resources
  import opened Commands
  import opened Ledger
  import opened Ownership
  import Scene
  import TextureStreams
  import SkyboxStreams

  /** m_framesInFlight. */
  const FRAMES_IN_FLIGHT: nat := 2
  /** m_colorFormat and m_depthFormat. */
  const COLOR_FORMAT: Format := FORMAT_R8G8B8A8_UNORM
  const DEPTH_FORMAT: Format := FORMAT_D32_SFLOAT
  /** The property sets the renderer asks getMemoryIndex for. */
  const DEVICE_MEMORY: Flags := MEMORY_DEVICE_LOCAL
  const STAGING_MEMORY: Flags := MEMORY_HOST_VISIBLE | MEMORY_HOST_COHERENT
  /** The usages of the colour and depth render targets. */
  const COLOR_TARGET_USAGE: Flags := IMAGE_USAGE_COLOR_ATTACHMENT | IMAGE_USAGE_STORAGE
  const DEPTH_TARGET_USAGE: Flags := IMAGE_USAGE_DEPTH_STENCIL_ATTACHMENT

  /** Renderer::Image. */
  datatype Image = Image(memory: Handle, image: Handle, view: Handle)

  /** Renderer::Buffer; the union of the mapped host pointer and the device
      address is the pointer variant. */
  datatype Buffer = Buffer(memory: Handle, buffer: Handle, pointer: BufferPointer)

  /** One entry of m_perFrameData. */
  datatype PerFrame = PerFrame(cmdPool: Handle, cmdBuffer: Handle, acquireSem: Handle, presentSem: Handle, fence: Handle)

  /** The loaded model (its float transform and bounds are not modelled). */
  datatype Model = Model(
    images: seq<Image>, samplers: seq<Handle>, texPool: Handle, texSet: Handle,
    materialBuffer: Buffer, vertexBuffer: Buffer, indexBuffer: Buffer, indirectBuffer: Buffer,
    opaqueCount: nat, blendCount: nat)

  datatype Skybox = Skybox(environmentMap: Image, irradianceMap: Image, radianceMap: Image)

  /** The value-initialised members: every handle VK_NULL_HANDLE. */
  const NoImage: Image := Image(NullHandle, NullHandle, NullHandle)
  const NoBuffer: Buffer := Buffer(NullHandle, NullHandle, NoPointer)
  const NoFrame: PerFrame := PerFrame(NullHandle, NullHandle, NullHandle, NullHandle, NullHandle)
  const NoModel: Model := Model([], [], NullHandle, NullHandle, NoBuffer, NoBuffer, NoBuffer, NoBuffer, 0, 0)
  const NoSkybox: Skybox := Skybox(NoImage, NoImage, NoImage)

  /** The handles the uploads use that are made outside the modelled code. */
  datatype Provided = Provided(
    transferPool: Handle, computePool: Handle, transferCmd: Handle, computeCmd: Handle,
    transferToComputeSem: Handle, skyboxSampler: Handle,
    mipPipeline: Handle, srgbMipPipeline: Handle, twoImagePipelineLayout: Handle,
    cubePipeline: Handle, cubeMipPipeline: Handle, irradiancePipeline: Handle, radiancePipeline: Handle,
    oneTexOneImagePipelineLayout: Handle, irradianceMapSize: nat)

  // ---------------------------------------------------------------------
  // The calls of the resource routines, as event lists

  function CreateImageEvents(img: Image, ci: ImageCreateInfo, ai: MemoryAllocateInfo, vi: ImageViewCreateInfo): seq<Event>
  {
    [ Create(ImageObject, img.image, ImageCreate(ci)),
      Create(MemoryObject, img.memory, MemoryAllocate(ai)),
      BindMemory(img.image, img.memory),
      Create(ViewObject, img.view, ViewCreate(vi)) ]
  }

  /** destroyImage: the view, then the image, then its memory. */
  function DestroyImageEvents(img: Image): seq<Event>
  {
    [Destroy(ViewObject, img.view), Destroy(ImageObject, img.image), Destroy(MemoryObject, img.memory)]
  }

  /** The host-side step createBuffer ends with: map host-visible memory,
      or else take the device address of a device-address buffer. */
  function PointerEvents(b: Buffer): seq<Event>
  {
    match b.pointer
    case HostPointer => [MapMemory(b.memory)]
    case DeviceAddress => [GetBufferAddress(b.buffer)]
    case NoPointer => []
  }

  function CreateBufferEvents(b: Buffer, bi: BufferCreateInfo, ai: MemoryAllocateInfo): seq<Event>
  {
    [ Create(BufferObject, b.buffer, BufferCreate(bi)),
      Create(MemoryObject, b.memory, MemoryAllocate(ai)),
      BindMemory(b.buffer, b.memory) ] + PointerEvents(b)
  }

  /** destroyBuffer: the buffer, then its memory. */
  function DestroyBufferEvents(b: Buffer): seq<Event>
  {
    [Destroy(BufferObject, b.buffer), Destroy(MemoryObject, b.memory)]
  }

  /** The objects an image or buffer holds, by kind. */
  function ImageObjects(img: Image): map<Handle, ObjectType>
  {
    map[img.image := ImageObject, img.memory := MemoryObject, img.view := ViewObject]
  }

  function BufferObjects(b: Buffer): map<Handle, ObjectType>
  {
    map[b.buffer := BufferObject, b.memory := MemoryObject]
  }

  /** An image whose three objects can be destroyed: each is null, or live
      as what it is and not in use by a queue. */
  predicate ImageReleasable(st: State, img: Image)
  {
    && (img.view == NullHandle || (LiveAs(st, ViewObject, img.view) && !Busy(st, img.view)))
    && (img.image == NullHandle || (LiveAs(st, ImageObject, img.image) && !Busy(st, img.image)))
    && (img.memory == NullHandle || (LiveAs(st, MemoryObject, img.memory) && !Busy(st, img.memory)))
  }

  predicate BufferReleasable(st: State, b: Buffer)
  {
    && (b.buffer == NullHandle || (LiveAs(st, BufferObject, b.buffer) && !Busy(st, b.buffer)))
    && (b.memory == NullHandle || (LiveAs(st, MemoryObject, b.memory) && !Busy(st, b.memory)))
  }

  /** The ledger moves from `before` to `after` by dropping `removed` and
      adding `added`; nothing is submitted or waited on. */
  predicate Moved(before: State, after: State, removed: set<Handle>, added: map<Handle, ObjectType>)
  {
    after.live == (before.live - removed) + added && after.busy == before.busy && after.signalled == before.signalled
  }

  /** Two moves in a row, the second only adding, are one move. */
  lemma MovedThen(a: State, b: State, c: State, removed: set<Handle>, added1: map<Handle, ObjectType>, added2: map<Handle, ObjectType>)
    requires Moved(a, b, removed, added1) && Moved(b, c, {}, added2)
    ensures Moved(a, c, removed, added1 + added2)
  {
    assert b.live - {} == b.live;
    MapRegroup(a.live - removed, added1, added2);
  }

  /** A move followed by one more object is one move. */
  lemma MovedThenUpdate(a: State, b: State, c: State, removed: set<Handle>, added: map<Handle, ObjectType>, h: Handle, o: ObjectType)
    requires Moved(a, b, removed, added)
    requires c.live == b.live[h := o] && c.busy == b.busy && c.signalled == b.signalled
    ensures Moved(a, c, removed, added[h := o])
  {
  }

  /** destroyImage releases exactly the image's three objects, and is valid
      exactly when each is null or live, as its kind, and not in use. */
  lemma DestroyImageReleases(st: State, img: Image)
    ensures ApplyAll(st, DestroyImageEvents(img)).Some? <==> ImageReleasable(st, img)
    ensures ImageReleasable(st, img) ==>
      && ApplyAll(st, DestroyImageEvents(img)).Some?
      && Moved(st, ApplyAll(st, DestroyImageEvents(img)).value, {img.view, img.image, img.memory} - {NullHandle}, map[])
  {
    var e0, e1, e2 := Destroy(ViewObject, img.view), Destroy(ImageObject, img.image), Destroy(MemoryObject, img.memory);
    assert DestroyImageEvents(img)[1..] == [e1, e2];
    assert [e1, e2][1..] == [e2];
    assert [e2][1..] == [];
    match Apply(st, e0)
    case None =>
    case Some(st1) =>
      match Apply(st1, e1)
      case None =>
      case Some(st2) =>
        assert ApplyAll(st2, [e2]) == Apply(st2, e2);
  }

  /** destroyBuffer releases exactly the buffer and its memory. */
  lemma DestroyBufferReleases(st: State, b: Buffer)
    ensures ApplyAll(st, DestroyBufferEvents(b)).Some? <==> BufferReleasable(st, b)
    ensures BufferReleasable(st, b) ==>
      && ApplyAll(st, DestroyBufferEvents(b)).Some?
      && Moved(st, ApplyAll(st, DestroyBufferEvents(b)).value, {b.buffer, b.memory} - {NullHandle}, map[])
  {
    var e0, e1 := Destroy(BufferObject, b.buffer), Destroy(MemoryObject, b.memory);
    assert DestroyBufferEvents(b)[1..] == [e1];
    assert [e1][1..] == [];
    match Apply(st, e0)
    case None =>
    case Some(st1) =>
      assert ApplyAll(st1, [e1]) == Apply(st1, e1);
  }

  // ---------------------------------------------------------------------
  // The swapchain

  /** The VkSwapchainCreateInfoKHR of createSwapchain: three images at the
      window's size, one layer, storage usage, owned by the graphics family,
      handing over the previous swapchain. */
  function SwapchainInfo(surface: Handle, fam: Families, width: nat, height: nat, oldSwapchain: Handle): SwapchainCreateInfo
  {
    SwapchainCreateInfo(surface, 3, Extent(width, height, 1), 1, IMAGE_USAGE_STORAGE, Exclusive, [fam.graphics], oldSwapchain)
  }

  /** The view createSwapchain makes of each swapchain image. */
  function SwapchainViewInfo(image: Handle, format: Format): ImageViewCreateInfo
  {
    ImageViewCreateInfo(image, View2D, format, ColorSubresourceRange(), None)
  }

  /** One view create per swapchain image, in order. */
  function SwapchainViewEvents(images: seq<Handle>, views: seq<Handle>, format: Format): (es: seq<Event>)
    requires |views| == |images|
    ensures |es| == |images|
  {
    seq(|images|, i requires 0 <= i < |images| => Create(ViewObject, views[i], ViewCreate(SwapchainViewInfo(images[i], format))))
  }

  /** One more view, made from image i, extends the creates and the map. */
  lemma ViewEventsSnoc(images: seq<Handle>, i: nat, views: seq<Handle>, v: Handle, format: Format)
    requires i < |images| && |views| == i
    ensures SwapchainViewEvents(images[..i + 1], views + [v], format)
      == SwapchainViewEvents(images[..i], views, format) + [Create(ViewObject, v, ViewCreate(SwapchainViewInfo(images[i], format)))]
    ensures ViewMap(views + [v]) == ViewMap(views)[v := ViewObject]
  {
  }

  /** `s` is the run of handles `first`, `first + 1`, ...: what the driver,
      numbering its objects in order, hands out for a batch. */
  predicate Counted(s: seq<Handle>, first: Handle)
  {
    forall i :: 0 <= i < |s| ==> s[i] == first + i
  }

  function ViewMap(views: seq<Handle>): map<Handle, ObjectType>
  {
    map v | v in views :: ViewObject
  }

  /** The new swapchain, created with the old one handed over, and the
      old one's destruction. */
  function ReplaceEvents(oldSwapchain: Handle, swapchain: Handle, info: SwapchainCreateInfo): seq<Event>
  {
    [Create(SwapchainObject, swapchain, SwapchainCreate(info)), Destroy(SwapchainObject, oldSwapchain)]
  }

  /** The image queries, count first, and a view of each image. */
  function AcquireEvents(swapchain: Handle, images: seq<Handle>, views: seq<Handle>, format: Format): seq<Event>
    requires |views| == |images|
  {
    [GetSwapchainImages(swapchain, []), GetSwapchainImages(swapchain, images)] + SwapchainViewEvents(images, views, format)
  }

  /** Everything createSwapchain calls: the new swapchain, the old one's
      destruction, the image queries, the views, and the two targets. */
  function SwapchainEvents(
    oldSwapchain: Handle, swapchain: Handle, images: seq<Handle>, views: seq<Handle>, format: Format,
    colorEvents: seq<Event>, depthEvents: seq<Event>, info: SwapchainCreateInfo): seq<Event>
    requires |views| == |images|
  {
    (ReplaceEvents(oldSwapchain, swapchain, info) + AcquireEvents(swapchain, images, views, format))
    + (colorEvents + depthEvents)
  }

  // Regroupings of a trace the solver does not find by itself.

  lemma Assoc<T>(t: seq<T>, a: seq<T>, b: seq<T>)
    ensures t + a + b == t + (a + b)
  {
  }

  lemma Assoc3<T>(a: seq<T>, b: seq<T>, c: seq<T>, d: seq<T>)
    ensures a + b + (c + d) == a + (b + c + d)
  {
  }

  lemma Assoc4<T>(a: seq<T>, b: seq<T>, c: seq<T>, d: seq<T>, e: seq<T>)
    requires a == []
    ensures a + b + (c + d + e) == b + c + d + e
  {
  }

  lemma Snoc2<T>(t: seq<T>, a: T, b: T)
    ensures t + [a] + [b] == t + [a, b]
  {
  }

  lemma Snoc3<T>(t: seq<T>, a: T, b: T, c: T)
    ensures t + [a] + [b] + [c] == t + [a, b, c]
  {
  }

  lemma Snoc4<T>(t: seq<T>, a: T, b: T, c: T, d: T)
    ensures t + [a] + [b] + [c] + [d] == t + [a, b, c, d]
  {
  }

  lemma Snoc5<T>(t: seq<T>, a: T, b: T, c: T, d: T, e: T)
    ensures t + [a] + [b] + [c] + [d] + [e] == t + [a, b, c, d, e]
  {
  }

  lemma Updates2<K, V>(m: map<K, V>, a: K, x: V, b: K, y: V)
    ensures m[a := x][b := y] == m - {} + map[a := x, b := y]
  {
  }

  lemma Updates3<K, V>(m: map<K, V>, a: K, x: V, b: K, y: V, c: K, z: V)
    ensures m[a := x][b := y][c := z] == m - {} + map[a := x, b := y, c := z]
  {
  }

  lemma Updates4<K, V>(m: map<K, V>, a: K, x: V, b: K, y: V, c: K, z: V, d: K, w: V)
    ensures m[a := x][b := y][c := z][d := w] == m + map[a := x, b := y, c := z, d := w]
  {
  }

  lemma MapRegroup<K, V>(a: map<K, V>, b: map<K, V>, c: map<K, V>)
    ensures a + (b + c) == a + b + c
  {
  }

  // ---------------------------------------------------------------------
  // What the renderer owns

  function ImageObjs(img: Image): seq<Obj>
  {
    [Obj(ViewObject, img.view), Obj(ImageObject, img.image), Obj(MemoryObject, img.memory)]
  }

  function BufferObjs(b: Buffer): seq<Obj>
  {
    [Obj(BufferObject, b.buffer), Obj(MemoryObject, b.memory)]
  }

  function ViewObjs(views: seq<Handle>): (objs: seq<Obj>)
    ensures |objs| == |views|
  {
    seq(|views|, i requires 0 <= i < |views| => Obj(ViewObject, views[i]))
  }

  /** A per-frame slot's objects in the order the destructor destroys them;
      the command buffer goes with its pool. */
  function FrameObjs(f: PerFrame): seq<Obj>
  {
    [Obj(CommandPoolObject, f.cmdPool), Obj(SemaphoreObject, f.acquireSem), Obj(SemaphoreObject, f.presentSem), Obj(FenceObject, f.fence)]
  }

  function FramesObjs(fs: seq<PerFrame>): seq<Obj>
  {
    if fs == [] then [] else FrameObjs(fs[0]) + FramesObjs(fs[1..])
  }

  function ImagesObjs(imgs: seq<Image>): seq<Obj>
  {
    if imgs == [] then [] else ImageObjs(imgs[0]) + ImagesObjs(imgs[1..])
  }

  function SamplerObjs(samplers: seq<Handle>): (objs: seq<Obj>)
    ensures |objs| == |samplers|
  {
    seq(|samplers|, i requires 0 <= i < |samplers| => Obj(SamplerObject, samplers[i]))
  }

  /** A model's objects in destroyModel's order. */
  function ModelObjs(m: Model): seq<Obj>
  {
    ImagesObjs(m.images) + SamplerObjs(m.samplers) + [Obj(DescriptorPoolObject, m.texPool)]
    + BufferObjs(m.materialBuffer) + BufferObjs(m.vertexBuffer) + BufferObjs(m.indexBuffer) + BufferObjs(m.indirectBuffer)
  }

  /** A skybox's objects in destroySkybox's order. */
  function SkyboxObjs(s: Skybox): seq<Obj>
  {
    ImageObjs(s.environmentMap) + ImageObjs(s.irradianceMap) + ImageObjs(s.radianceMap)
  }

  /** The targets, the swapchain's views and the swapchain. */
  function SwapchainObjs(colorTarget: Image, depthTarget: Image, views: seq<Handle>, swapchain: Handle): seq<Obj>
  {
    ImageObjs(colorTarget) + ImageObjs(depthTarget) + ViewObjs(views) + [Obj(SwapchainObject, swapchain)]
  }

  /** Every object of the list is made from the device. */
  predicate DeviceChildren(objs: seq<Obj>)
  {
    forall k :: 0 <= k < |objs| ==> OwnedByDevice(objs[k].kind)
  }

  lemma {:induction false} FramesAreDeviceChildren(fs: seq<PerFrame>)
    ensures DeviceChildren(FramesObjs(fs))
    decreases |fs|
  {
    if fs != [] {
      FramesAreDeviceChildren(fs[1..]);
    }
  }

  lemma {:induction false} ImagesAreDeviceChildren(imgs: seq<Image>)
    ensures DeviceChildren(ImagesObjs(imgs))
    decreases |imgs|
  {
    if imgs != [] {
      ImagesAreDeviceChildren(imgs[1..]);
    }
  }

  /** A segment of an owned list holds live objects, each once. */
  lemma SegmentHeld(st: State, a: seq<Obj>, s: seq<Obj>, b: seq<Obj>)
    requires Owns(st, a + s + b)
    ensures Holds(st, s) && Distinct(s)
  {
    forall k | 0 <= k < |s| && s[k].handle != NullHandle
      ensures LiveAs(st, s[k].kind, s[k].handle)
    {
      assert (a + s + b)[|a| + k] == s[k];
    }
    DistinctPrefix(a + s, b);
    DistinctSuffix(a, s);
  }

  // ---------------------------------------------------------------------
  // Retiring the swapchain

  /** What recreateSwapchain destroys before it calls createSwapchain: the
      two targets and every view held. */
  function RetiredObjs(colorTarget: Image, depthTarget: Image, views: seq<Handle>): seq<Obj>
  {
    ImageObjs(colorTarget) + ImageObjs(depthTarget) + ViewObjs(views)
  }

  /** The calls recreateSwapchain makes before createSwapchain: wait for the
      device, destroy the colour and depth targets, then each view held. */
  function RetireEvents(colorTarget: Image, depthTarget: Image, views: seq<Handle>): seq<Event>
  {
    [DeviceWaitIdle] + DestroyImageEvents(colorTarget) + DestroyImageEvents(depthTarget) + Teardown(ViewObjs(views))
  }

  predicate NoCreates(es: seq<Event>)
  {
    forall i :: 0 <= i < |es| ==> !es[i].Create?
  }

  /** Retiring live, distinct targets and views releases exactly them and
      leaves the queues idle. */
  lemma RetireReleases(st: State, colorTarget: Image, depthTarget: Image, views: seq<Handle>)
    requires Consistent(st)
    requires Holds(st, RetiredObjs(colorTarget, depthTarget, views)) && Distinct(RetiredObjs(colorTarget, depthTarget, views))
    ensures NoCreates(RetireEvents(colorTarget, depthTarget, views))
    ensures ApplyAll(st, RetireEvents(colorTarget, depthTarget, views))
      == Some(st.(busy := {}, live := st.live - Released(RetiredObjs(colorTarget, depthTarget, views))))
  {
    var objs := RetiredObjs(colorTarget, depthTarget, views);
    var st1 := st.(busy := {});
    assert ApplyAll(st, [DeviceWaitIdle]) == Some(st1) by {
      assert Apply(st, DeviceWaitIdle) == Some(st1);
    }
    RetiredAreDeviceChildren(colorTarget, depthTarget, views);
    IdleFree(st1, objs);
    TeardownReleases(st1, objs);
    RetireIsTeardown(colorTarget, depthTarget, views);
    ApplyAllAppend(st, [DeviceWaitIdle], Teardown(objs));
  }

  lemma RetiredAreDeviceChildren(colorTarget: Image, depthTarget: Image, views: seq<Handle>)
    ensures DeviceChildren(RetiredObjs(colorTarget, depthTarget, views))
  {
    var objs := RetiredObjs(colorTarget, depthTarget, views);
    forall k | 0 <= k < |objs| ensures OwnedByDevice(objs[k].kind) {
      if k >= 6 {
        assert objs[k] == ViewObjs(views)[k - 6];
      }
    }
  }

  lemma RetireIsTeardown(colorTarget: Image, depthTarget: Image, views: seq<Handle>)
    ensures RetireEvents(colorTarget, depthTarget, views) == [DeviceWaitIdle] + Teardown(RetiredObjs(colorTarget, depthTarget, views))
  {
    TeardownAppend(ImageObjs(colorTarget), ImageObjs(depthTarget));
    TeardownAppend(ImageObjs(colorTarget) + ImageObjs(depthTarget), ViewObjs(views));
    assert Teardown(ImageObjs(colorTarget)) == DestroyImageEvents(colorTarget);
    assert Teardown(ImageObjs(depthTarget)) == DestroyImageEvents(depthTarget);
    Assoc([DeviceWaitIdle], DestroyImageEvents(colorTarget), DestroyImageEvents(depthTarget));
  }

  /** A retirement that names a view destroyed earlier is rejected: the
      second recreateSwapchain destroys the first one's views again. */
  lemma RetireDeadViewFails(st: State, colorTarget: Image, depthTarget: Image, views: seq<Handle>, k: nat)
    requires Consistent(st) && k < |views| && views[k] != NullHandle
    requires views[k] in st.created && views[k] !in st.live
    ensures ApplyAll(st, RetireEvents(colorTarget, depthTarget, views)) == None
  {
    var es := RetireEvents(colorTarget, depthTarget, views);
    assert es[7 + k] == Destroy(ViewObject, views[k]);
    DestroyOfDeadFails(st, es, 7 + k);
  }

  /** What an owned swapchain segment gives the retirement: the retired
      objects are live and held once, and the swapchain is live and apart
      from them. */
  lemma SwapchainSegment(st: State, a: seq<Obj>, colorTarget: Image, depthTarget: Image, views: seq<Handle>, swapchain: Handle, b: seq<Obj>)
    requires Owns(st, a + SwapchainObjs(colorTarget, depthTarget, views, swapchain) + b)
    ensures Holds(st, RetiredObjs(colorTarget, depthTarget, views)) && Distinct(RetiredObjs(colorTarget, depthTarget, views))
    ensures swapchain != NullHandle ==>
      LiveAs(st, SwapchainObject, swapchain) && swapchain !in Released(RetiredObjs(colorTarget, depthTarget, views))
  {
    var objs := RetiredObjs(colorTarget, depthTarget, views);
    var s := SwapchainObjs(colorTarget, depthTarget, views, swapchain);
    SegmentHeld(st, a, s, b);
    assert s == objs + [Obj(SwapchainObject, swapchain)];
    DistinctPrefix(objs, [Obj(SwapchainObject, swapchain)]);
    forall k | 0 <= k < |objs| && objs[k].handle != NullHandle
      ensures LiveAs(st, objs[k].kind, objs[k].handle)
    {
      assert s[k] == objs[k];
    }
    if swapchain != NullHandle {
      assert s[|objs|] == Obj(SwapchainObject, swapchain);
      forall k | 0 <= k < |objs| ensures Keys(objs)[k] != swapchain {
        assert s[k] == objs[k];
        DistinctAt(s, |objs|, k);
      }
    }
  }

  lemma DistinctConcat(a: seq<Obj>, b: seq<Obj>)
    requires Distinct(a) && Distinct(b)
    requires forall h <- Keys(a) :: h != NullHandle ==> h !in Keys(b)
    ensures Distinct(a + b)
  {
    forall i, j | 0 <= i < j < |a + b| && (a + b)[i].handle != NullHandle
      ensures (a + b)[i].handle != (a + b)[j].handle
    {
      if j < |a| {
        assert (a + b)[i] == a[i] && (a + b)[j] == a[j];
      } else if i >= |a| {
        assert (a + b)[i] == b[i - |a|] && (a + b)[j] == b[j - |a|];
      } else {
        assert (a + b)[i] == a[i] && Keys(a)[i] == a[i].handle && a[i].handle in Keys(a);
        assert (a + b)[j] == b[j - |a|] && Keys(b)[j - |a|] == b[j - |a|].handle && b[j - |a|].handle in Keys(b);
      }
    }
  }

  lemma HoldsConcat(st: State, a: seq<Obj>, b: seq<Obj>)
    requires Holds(st, a) && Holds(st, b)
    ensures Holds(st, a + b)
  {
    forall i | 0 <= i < |a + b| && (a + b)[i].handle != NullHandle
      ensures LiveAs(st, (a + b)[i].kind, (a + b)[i].handle)
    {
      if i >= |a| {
        assert (a + b)[i] == b[i - |a|];
      }
    }
  }

  /** Views the driver numbered in a run are held once each, inside the run. */
  lemma CountedViews(views: seq<Handle>, first: nat)
    requires Counted(views, first) && first > 0
    ensures Distinct(ViewObjs(views))
    ensures forall h <- Keys(ViewObjs(views)) :: first <= h < first + |views|
  {
    var vs := ViewObjs(views);
    assert forall i :: 0 <= i < |vs| ==> vs[i].handle == first + i;
  }

  /** An image whose three objects the ledger has live as what they are
      is held. */
  lemma ImageHeld(st: State, img: Image)
    requires forall h <- ImageObjects(img) :: h in st.live && st.live[h] == ImageObjects(img)[h]
    requires img.image != img.memory && img.image != img.view && img.memory != img.view
    ensures Holds(st, ImageObjs(img))
  {
    assert ImageObjects(img)[img.view] == ViewObject;
    assert ImageObjects(img)[img.image] == ImageObject;
    assert ImageObjects(img)[img.memory] == MemoryObject;
  }

  /** The driver numbers the objects createSwapchain makes from `n`: the
      swapchain, its images and views, then the two targets. */
  predicate FreshlyNumbered(colorTarget: Image, depthTarget: Image, views: seq<Handle>, swapchain: Handle, n: nat)
  {
    var k := |views|;
    && swapchain == n && n > 0 && Counted(views, n + 1 + k)
    && colorTarget == Image(n + 2 * k + 2, n + 2 * k + 1, n + 2 * k + 3)
    && depthTarget == Image(n + 2 * k + 5, n + 2 * k + 4, n + 2 * k + 6)
  }

  /** The objects createSwapchain makes as a map from handle to kind. */
  function SwapchainMap(colorTarget: Image, depthTarget: Image, views: seq<Handle>, swapchain: Handle): map<Handle, ObjectType>
  {
    map[swapchain := SwapchainObject] + ViewMap(views) + ImageObjects(colorTarget) + ImageObjects(depthTarget)
  }

  /** Two targets numbered from `first` are held once each, inside the run. */
  lemma TargetsDistinct(colorTarget: Image, depthTarget: Image, first: nat)
    requires colorTarget == Image(first + 1, first, first + 2) && depthTarget == Image(first + 4, first + 3, first + 5)
    ensures Distinct(ImageObjs(colorTarget) + ImageObjs(depthTarget))
    ensures forall h <- Keys(ImageObjs(colorTarget) + ImageObjs(depthTarget)) :: first <= h <= first + 5
  {
    var targets := ImageObjs(colorTarget) + ImageObjs(depthTarget);
    assert Keys(targets) == [first + 2, first, first + 1, first + 5, first + 3, first + 4];
  }

  /** Freshly numbered swapchain objects are held once each, and all new. */
  lemma FreshDistinct(colorTarget: Image, depthTarget: Image, views: seq<Handle>, swapchain: Handle, n: nat)
    requires FreshlyNumbered(colorTarget, depthTarget, views, swapchain, n)
    ensures Distinct(SwapchainObjs(colorTarget, depthTarget, views, swapchain))
    ensures forall h <- Keys(SwapchainObjs(colorTarget, depthTarget, views, swapchain)) :: h >= n
  {
    var k := |views|;
    var targets := ImageObjs(colorTarget) + ImageObjs(depthTarget);
    var vs := ViewObjs(views);
    var last := [Obj(SwapchainObject, swapchain)];
    TargetsDistinct(colorTarget, depthTarget, n + 2 * k + 1);
    CountedViews(views, n + 1 + k);
    DistinctConcat(targets, vs);
    KeysAppend(targets, vs);
    assert Keys(last) == [n];
    DistinctConcat(targets + vs, last);
    KeysAppend(targets + vs, last);
  }

  /** Freshly numbered swapchain objects, added to the ledger, are held. */
  lemma FreshHeld(st: State, base: map<Handle, ObjectType>, colorTarget: Image, depthTarget: Image, views: seq<Handle>, swapchain: Handle, n: nat)
    requires FreshlyNumbered(colorTarget, depthTarget, views, swapchain, n)
    requires st.live == base + SwapchainMap(colorTarget, depthTarget, views, swapchain)
    ensures Holds(st, SwapchainObjs(colorTarget, depthTarget, views, swapchain))
  {
    var targets := ImageObjs(colorTarget) + ImageObjs(depthTarget);
    var vs := ViewObjs(views);
    var last := [Obj(SwapchainObject, swapchain)];
    var ic, id := ImageObjects(colorTarget), ImageObjects(depthTarget);
    assert ic.Keys !! id.Keys;
    ImageHeld(st, depthTarget);
    ImageHeld(st, colorTarget);
    HoldsConcat(st, ImageObjs(colorTarget), ImageObjs(depthTarget));
    assert Holds(st, vs) by {
      forall i | 0 <= i < |vs| && vs[i].handle != NullHandle
        ensures LiveAs(st, vs[i].kind, vs[i].handle)
      {
        assert views[i] in views && views[i] == n + 1 + |views| + i;
        assert views[i] !in ic && views[i] !in id;
      }
    }
    HoldsConcat(st, targets, vs);
    assert Holds(st, last) by {
      assert swapchain !in ViewMap(views) by {
        forall i | 0 <= i < |views| ensures views[i] != swapchain {
          assert views[i] == n + 1 + |views| + i;
        }
      }
      assert swapchain !in ic && swapchain !in id;
      assert LiveAs(st, SwapchainObject, swapchain);
    }
    HoldsConcat(st, targets + vs, last);
  }

  /** Every object createSwapchain adds is among the ones it holds. */
  lemma FreshCovered(colorTarget: Image, depthTarget: Image, views: seq<Handle>, swapchain: Handle)
    ensures forall h <- SwapchainMap(colorTarget, depthTarget, views, swapchain) :: h in Keys(SwapchainObjs(colorTarget, depthTarget, views, swapchain))
  {
    var targets := ImageObjs(colorTarget) + ImageObjs(depthTarget);
    var vs := ViewObjs(views);
    var last := [Obj(SwapchainObject, swapchain)];
    KeysAppend(targets, vs);
    KeysAppend(targets + vs, last);
    assert Keys(targets) == [colorTarget.view, colorTarget.image, colorTarget.memory, depthTarget.view, depthTarget.image, depthTarget.memory];
    assert Keys(last) == [swapchain];
    forall h <- SwapchainMap(colorTarget, depthTarget, views, swapchain)
      ensures h in Keys(targets + vs + last)
    {
      if h in views {
        var i :| 0 <= i < |views| && views[i] == h;
        assert Keys(vs)[i] == h;
      }
    }
  }

  /** Retiring the targets and views of an owned swapchain segment leaves
      everything else owned, the swapchain in their place; the views held
      were live and are now dead. */
  lemma RetireLeavesSwapchain(st0: State, st1: State, a: seq<Obj>, b: seq<Obj>,
                              c: Image, d: Image, views: seq<Handle>, sc: Handle)
    requires Owns(st0, a + SwapchainObjs(c, d, views, sc) + b)
    requires st1.live == st0.live - Released(RetiredObjs(c, d, views))
    ensures Owns(st1, a + [Obj(SwapchainObject, sc)] + b)
    ensures forall v <- views :: v != NullHandle ==> v in st0.live && v !in st1.live
  {
    var r, last := RetiredObjs(c, d, views), [Obj(SwapchainObject, sc)];
    assert a + SwapchainObjs(c, d, views, sc) + b == a + r + (last + b);
    OwnsRemove(st0, st1, a, r, last + b);
    assert a + (last + b) == a + last + b;
    forall v <- views | v != NullHandle
      ensures v in st0.live && v !in st1.live
    {
      var i :| 0 <= i < |views| && views[i] == v;
      assert r[6 + i] == ViewObjs(views)[i];
      assert Keys(r)[6 + i] == v;
      assert (a + r + (last + b))[|a| + 6 + i] == r[6 + i];
    }
  }

  /** createSwapchain's new objects, in the swapchain's place, keep the
      ownership exact. */
  lemma SwapchainRebuilt(st1: State, st2: State, a: seq<Obj>, b: seq<Obj>, sc: Handle,
                         c': Image, d': Image, views': seq<Handle>, sc': Handle, n: nat)
    requires Consistent(st1) && Owns(st1, a + [Obj(SwapchainObject, sc)] + b)
    requires forall h <- st1.created :: h < n
    requires FreshlyNumbered(c', d', views', sc', n)
    requires Moved(st1, st2, {sc} - {NullHandle}, SwapchainMap(c', d', views', sc'))
    ensures Owns(st2, a + SwapchainObjs(c', d', views', sc') + b)
  {
    var s, s' := [Obj(SwapchainObject, sc)], SwapchainObjs(c', d', views', sc');
    var added := SwapchainMap(c', d', views', sc');
    FreshDistinct(c', d', views', sc', n);
    FreshHeld(st2, st1.live - ({sc} - {NullHandle}), c', d', views', sc', n);
    FreshCovered(c', d', views', sc');
    assert Keys(s) == [sc];
    forall h <- st1.live | h !in Keys(s)
      ensures h in st2.live && st2.live[h] == st1.live[h]
    {
      assert h < n && h !in Keys(s') && h != sc;
      assert h !in added;
    }
    forall h <- st2.live
      ensures h in Keys(s') || (h in st1.live && h !in Keys(s))
    {
      if h !in added {
        assert h in st1.live && h != sc;
      }
    }
    OwnsReplace(st1, st2, a, s, b, s');
  }

  /** Handles dead before createSwapchain are dead after it: it makes only
      new objects. */
  lemma FreshSpares(st1: State, st2: State, dead: seq<Handle>, sc: Handle,
                    c': Image, d': Image, views': seq<Handle>, sc': Handle, n: nat)
    requires forall v <- dead :: v != NullHandle ==> v < n && v !in st1.live
    requires FreshlyNumbered(c', d', views', sc', n)
    requires Moved(st1, st2, {sc} - {NullHandle}, SwapchainMap(c', d', views', sc'))
    ensures forall v <- dead :: v != NullHandle ==> v !in st2.live
  {
    FreshDistinct(c', d', views', sc', n);
    FreshCovered(c', d', views', sc');
    forall v <- dead | v != NullHandle
      ensures v !in st2.live
    {
      assert v !in Keys(SwapchainObjs(c', d', views', sc'));
    }
  }

  /** A framebuffer size a swapchain can be made at: neither side zero. */
  predicate Drawable(size: (nat, nat))
  {
    size.0 != 0 && size.1 != 0
  }

  predicate EverDrawable(sizes: seq<(nat, nat)>)
  {
    exists i :: 0 <= i < |sizes| && Drawable(sizes[i])
  }

  /** The first drawable size among successive reads. */
  ghost function FirstDrawable(sizes: seq<(nat, nat)>): (k: nat)
    requires EverDrawable(sizes)
    ensures k < |sizes| && Drawable(sizes[k])
    ensures forall j :: 0 <= j < k ==> !Drawable(sizes[j])
  {
    if Drawable(sizes[0]) then 0
    else
      var i :| 0 <= i < |sizes| && Drawable(sizes[i]);
      assert sizes[1..][i - 1] == sizes[i];
      var k := FirstDrawable(sizes[1..]);
      assert forall j :: 1 <= j <= k ==> sizes[j] == sizes[1..][j - 1];
      1 + k
  }

  /** The frames' objects, the model pipeline and its layout, the model
      and the skybox: what the renderer holds besides the swapchain's
      objects and the core ones, in the destructor's order. */
  function ResidentObjs(frames: seq<PerFrame>, pipeline: Handle, layout: Handle, model: Model, skybox: Skybox): seq<Obj>
  {
    FramesObjs(frames) + [Obj(PipelineObject, pipeline), Obj(PipelineLayoutObject, layout)] + ModelObjs(model) + SkyboxObjs(skybox)
  }

  // ---------------------------------------------------------------------
  // Destruction

  /** What ~Renderer destroys before the device, in its order: the frames,
      the model pipeline and its layout, the model, the two targets and the
      swapchain. No view of a swapchain image is among them. */
  function DestructorObjs(frames: seq<PerFrame>, pipeline: Handle, layout: Handle, model: Model,
                          colorTarget: Image, depthTarget: Image, swapchain: Handle): seq<Obj>
  {
    FramesObjs(frames) + [Obj(PipelineObject, pipeline), Obj(PipelineLayoutObject, layout)] + ModelObjs(model)
    + ImageObjs(colorTarget) + ImageObjs(depthTarget) + [Obj(SwapchainObject, swapchain)]
  }

  lemma DeviceChildrenAppend(a: seq<Obj>, b: seq<Obj>)
    requires DeviceChildren(a) && DeviceChildren(b)
    ensures DeviceChildren(a + b)
  {
    forall k | 0 <= k < |a + b| ensures OwnedByDevice((a + b)[k].kind) {
      if k < |a| {
        assert (a + b)[k] == a[k];
      } else {
        assert (a + b)[k] == b[k - |a|];
      }
    }
  }

  lemma ModelAreDeviceChildren(m: Model)
    ensures DeviceChildren(ModelObjs(m))
  {
    ImagesAreDeviceChildren(m.images);
    var samplers := SamplerObjs(m.samplers);
    assert DeviceChildren(samplers) by {
      forall k | 0 <= k < |samplers| ensures OwnedByDevice(samplers[k].kind) {
        assert samplers[k] == Obj(SamplerObject, m.samplers[k]);
      }
    }
    var x := ImagesObjs(m.images);
    DeviceChildrenAppend(x, samplers);
    x := x + samplers;
    DeviceChildrenAppend(x, [Obj(DescriptorPoolObject, m.texPool)]);
    x := x + [Obj(DescriptorPoolObject, m.texPool)];
    DeviceChildrenAppend(x, BufferObjs(m.materialBuffer));
    x := x + BufferObjs(m.materialBuffer);
    DeviceChildrenAppend(x, BufferObjs(m.vertexBuffer));
    x := x + BufferObjs(m.vertexBuffer);
    DeviceChildrenAppend(x, BufferObjs(m.indexBuffer));
    x := x + BufferObjs(m.indexBuffer);
    DeviceChildrenAppend(x, BufferObjs(m.indirectBuffer));
  }

  /** Everything the renderer holds besides the core objects is made from
      the device. */
  lemma HeldAreDeviceChildren(frames: seq<PerFrame>, pipeline: Handle, layout: Handle, model: Model, skybox: Skybox,
                              colorTarget: Image, depthTarget: Image, views: seq<Handle>, swapchain: Handle)
    ensures DeviceChildren(ResidentObjs(frames, pipeline, layout, model, skybox) + SwapchainObjs(colorTarget, depthTarget, views, swapchain))
  {
    FramesAreDeviceChildren(frames);
    ModelAreDeviceChildren(model);
    var pl := [Obj(PipelineObject, pipeline), Obj(PipelineLayoutObject, layout)];
    DeviceChildrenAppend(FramesObjs(frames), pl);
    DeviceChildrenAppend(FramesObjs(frames) + pl, ModelObjs(model));
    DeviceChildrenAppend(FramesObjs(frames) + pl + ModelObjs(model), SkyboxObjs(skybox));
    var vs := ViewObjs(views);
    assert DeviceChildren(vs) by {
      forall k | 0 <= k < |vs| ensures OwnedByDevice(vs[k].kind) {
        assert vs[k] == Obj(ViewObject, views[k]);
      }
    }
    var targets := ImageObjs(colorTarget) + ImageObjs(depthTarget);
    DeviceChildrenAppend(targets, vs);
    DeviceChildrenAppend(targets + vs, [Obj(SwapchainObject, swapchain)]);
    DeviceChildrenAppend(ResidentObjs(frames, pipeline, layout, model, skybox), SwapchainObjs(colorTarget, depthTarget, views, swapchain));
  }

  /** A shutdown only destroys. */
  lemma ShutdownNoCreates(children: seq<Obj>, device: Handle, surface: Handle, instance: Handle)
    ensures NoCreates(Shutdown(children, device, surface, instance))
  {
    var es := Shutdown(children, device, surface, instance);
    var core := Core(device, surface, instance);
    forall i | 0 <= i < |es| ensures !es[i].Create? {
      if 1 <= i < 1 + |children| {
        assert es[i] == Teardown(children)[i - 1];
      } else if i >= 1 + |children| {
        assert es[i] == Teardown(core)[i - 1 - |children|];
      }
    }
  }

  lemma Regroup<T>(r: seq<T>, x: seq<T>, y: seq<T>, z: seq<T>, w: seq<T>, c: seq<T>)
    ensures r + (x + y + z + w) + c == (r + x + y) + z + (w + c)
  {
  }

  /** ~Renderer as written: with a view of a swapchain image live, the
      device is destroyed while that view, made from it, is still live,
      because the destructor never destroys the views. */
  lemma DestructorLeavesViews(st: State, frames: seq<PerFrame>, pipeline: Handle, layout: Handle, model: Model, skybox: Skybox,
                              colorTarget: Image, depthTarget: Image, views: seq<Handle>, swapchain: Handle,
                              device: Handle, surface: Handle, instance: Handle, k: nat)
    requires Consistent(st) && device != NullHandle
    requires Owns(st, ResidentObjs(frames, pipeline, layout, model, skybox)
      + SwapchainObjs(colorTarget, depthTarget, views, swapchain) + Core(device, surface, instance))
    requires k < |views| && views[k] != NullHandle
    ensures ApplyAll(st, Shutdown(DestructorObjs(frames, pipeline, layout, model, colorTarget, depthTarget, swapchain), device, surface, instance)) == None
  {
    var kept := FramesObjs(frames) + [Obj(PipelineObject, pipeline), Obj(PipelineLayoutObject, layout)] + ModelObjs(model);
    var sky, ic, id := SkyboxObjs(skybox), ImageObjs(colorTarget), ImageObjs(depthTarget);
    var last, core := [Obj(SwapchainObject, swapchain)], Core(device, surface, instance);
    var a, s, b := kept + sky + ic + id, ViewObjs(views), last + core;
    var children := DestructorObjs(frames, pipeline, layout, model, colorTarget, depthTarget, swapchain);
    Regroup(kept + sky, ic, id, s, last, core);
    assert Owns(st, a + s + b);
    var v := views[k];
    assert (a + s + b)[|a| + k] == s[k] == Obj(ViewObject, v);
    assert LiveAs(st, ViewObject, v);
    assert v in Keys(s) by {
      assert Keys(s)[k] == v;
    }
    assert v !in Keys(children) by {
      KeysAppend(kept, ic); KeysAppend(kept + ic, id); KeysAppend(kept + ic + id, last);
      KeysAppend(kept, sky); KeysAppend(kept + sky, ic); KeysAppend(kept + sky + ic, id);
      KeysAppend(last, core);
      if v in Keys(children) {
        assert v in Keys(a) || v in Keys(b);
        SegmentLive(st, a, s, b, v);
        assert false;
      }
    }
    ShutdownLeavingChildFails(st, children, device, surface, instance, v);
  }

  // ---------------------------------------------------------------------
  // Construction

  /** Nothing in the list is made yet: every handle is VK_NULL_HANDLE. */
  predicate AllNull(objs: seq<Obj>)
  {
    forall i :: 0 <= i < |objs| ==> objs[i].handle == NullHandle
  }

  /** What the renderer holds before its constructor makes anything: the
      value-initialised members, every handle VK_NULL_HANDLE. */
  lemma NothingHeldYet()
    ensures AllNull(ResidentObjs([NoFrame, NoFrame], NullHandle, NullHandle, NoModel, NoSkybox)
      + SwapchainObjs(NoImage, NoImage, [], NullHandle) + Core(NullHandle, NullHandle, NullHandle))
    ensures Owns(Initial, ResidentObjs([NoFrame, NoFrame], NullHandle, NullHandle, NoModel, NoSkybox)
      + SwapchainObjs(NoImage, NoImage, [], NullHandle) + Core(NullHandle, NullHandle, NullHandle))
  {
    var frames := FramesObjs([NoFrame, NoFrame]);
    assert AllNull(frames) by {
      assert FramesObjs([NoFrame]) == FrameObjs(NoFrame) + FramesObjs([]);
      assert frames == FrameObjs(NoFrame) + FramesObjs([NoFrame]);
    }
    var pipelines := [Obj(PipelineObject, NullHandle), Obj(PipelineLayoutObject, NullHandle)];
    assert AllNull(ModelObjs(NoModel)) by {
      assert SamplerObjs([]) == [] && ImagesObjs([]) == [];
    }
    AllNullAppend(frames, pipelines);
    AllNullAppend(frames + pipelines, ModelObjs(NoModel));
    AllNullAppend(frames + pipelines + ModelObjs(NoModel), SkyboxObjs(NoSkybox));
    var resident := ResidentObjs([NoFrame, NoFrame], NullHandle, NullHandle, NoModel, NoSkybox);
    assert AllNull(SwapchainObjs(NoImage, NoImage, [], NullHandle)) by {
      assert ViewObjs([]) == [];
    }
    AllNullAppend(resident, SwapchainObjs(NoImage, NoImage, [], NullHandle));
    AllNullAppend(resident + SwapchainObjs(NoImage, NoImage, [], NullHandle), Core(NullHandle, NullHandle, NullHandle));
  }

  lemma AllNullAppend(a: seq<Obj>, b: seq<Obj>)
    requires AllNull(a) && AllNull(b)
    ensures AllNull(a + b)
  {
    forall i | 0 <= i < |a + b| ensures (a + b)[i].handle == NullHandle {
      if i >= |a| {
        assert (a + b)[i] == b[i - |a|];
      }
    }
  }

  /** Objects made fresh, put where the list held only VK_NULL_HANDLE,
      keep the ownership exact. */
  lemma FillSegment(st: State, st': State, a: seq<Obj>, s: seq<Obj>, b: seq<Obj>, s': seq<Obj>, added: map<Handle, ObjectType>)
    requires Consistent(st) && Owns(st, a + s + b) && AllNull(s)
    requires st'.live == st.live + added
    requires forall h <- added :: h !in st.created && h in Keys(s')
    requires Holds(st', s') && Distinct(s')
    requires forall h <- Keys(s') :: h == NullHandle || h !in st.created
    ensures Owns(st', a + s' + b)
  {
    OwnsReplace(st, st', a, s, b, s');
  }

  /** One object made fresh, in a slot that held VK_NULL_HANDLE. */
  lemma SlotFilled(st: State, st': State, a: seq<Obj>, b: seq<Obj>, o: ObjectType, h: Handle)
    requires Consistent(st) && Owns(st, a + [Obj(o, NullHandle)] + b)
    requires h != NullHandle && h !in st.created && st'.live == st.live[h := o]
    ensures Owns(st', a + [Obj(o, h)] + b)
  {
    assert st.live[h := o] == st.live + map[h := o];
    assert Keys([Obj(o, h)]) == [h];
    FillSegment(st, st', a, [Obj(o, NullHandle)], b, [Obj(o, h)], map[h := o]);
  }

  /** The instance, the device and the surface, made in turn. */
  lemma InstanceMade(st: State, st': State, r: seq<Obj>, device: Handle, surface: Handle, h: Handle)
    requires Consistent(st) && Owns(st, r + Core(device, surface, NullHandle))
    requires h != NullHandle && h !in st.created && st'.live == st.live[h := InstanceObject]
    ensures Owns(st', r + Core(device, surface, h))
  {
    var a := r + [Obj(DeviceObject, device), Obj(SurfaceObject, surface)];
    assert r + Core(device, surface, NullHandle) == a + [Obj(InstanceObject, NullHandle)] + [];
    SlotFilled(st, st', a, [], InstanceObject, h);
    assert a + [Obj(InstanceObject, h)] + [] == r + Core(device, surface, h);
  }

  lemma DeviceMade(st: State, st': State, r: seq<Obj>, surface: Handle, instance: Handle, h: Handle)
    requires Consistent(st) && Owns(st, r + Core(NullHandle, surface, instance))
    requires h != NullHandle && h !in st.created && st'.live == st.live[h := DeviceObject]
    ensures Owns(st', r + Core(h, surface, instance))
  {
    var b := [Obj(SurfaceObject, surface), Obj(InstanceObject, instance)];
    assert r + Core(NullHandle, surface, instance) == r + [Obj(DeviceObject, NullHandle)] + b;
    SlotFilled(st, st', r, b, DeviceObject, h);
    assert r + [Obj(DeviceObject, h)] + b == r + Core(h, surface, instance);
  }

  lemma SurfaceMade(st: State, st': State, r: seq<Obj>, device: Handle, instance: Handle, h: Handle)
    requires Consistent(st) && Owns(st, r + Core(device, NullHandle, instance))
    requires h != NullHandle && h !in st.created && st'.live == st.live[h := SurfaceObject]
    ensures Owns(st', r + Core(device, h, instance))
  {
    var a, b := r + [Obj(DeviceObject, device)], [Obj(InstanceObject, instance)];
    assert r + Core(device, NullHandle, instance) == a + [Obj(SurfaceObject, NullHandle)] + b;
    SlotFilled(st, st', a, b, SurfaceObject, h);
    assert a + [Obj(SurfaceObject, h)] + b == r + Core(device, h, instance);
  }

  /** With no targets and no views yet, what is held is what Retired asks:
      the swapchain alone in the swapchain's place. */
  lemma NoSwapchainYet(st: State, r: seq<Obj>, sc: Handle, c: seq<Obj>)
    requires Consistent(st) && Owns(st, r + SwapchainObjs(NoImage, NoImage, [], sc) + c)
    ensures Owns(st, r + [Obj(SwapchainObject, sc)] + c)
  {
    var s := ImageObjs(NoImage) + ImageObjs(NoImage) + ViewObjs([]);
    assert r + SwapchainObjs(NoImage, NoImage, [], sc) + c == r + s + ([Obj(SwapchainObject, sc)] + c);
    assert Released(s) == {NullHandle};
    assert st.live - Released(s) == st.live;
    OwnsRemove(st, st, r, s, [Obj(SwapchainObject, sc)] + c);
    assert r + ([Obj(SwapchainObject, sc)] + c) == r + [Obj(SwapchainObject, sc)] + c;
  }

  /** The model pipeline layout, then the model pipeline. */
  lemma PipelineMade(st: State, st': State, frames: seq<PerFrame>, model: Model, skybox: Skybox, s: seq<Obj>, c: seq<Obj>,
                     layout: Handle, pipeline: Handle)
    requires Consistent(st) && Owns(st, ResidentObjs(frames, NullHandle, NullHandle, model, skybox) + s + c)
    requires layout != NullHandle && pipeline != NullHandle && layout != pipeline
    requires layout !in st.created && pipeline !in st.created
    requires st'.live == st.live[layout := PipelineLayoutObject][pipeline := PipelineObject]
    ensures Owns(st', ResidentObjs(frames, pipeline, layout, model, skybox) + s + c)
  {
    var f, rest := FramesObjs(frames), ModelObjs(model) + SkyboxObjs(skybox) + s + c;
    var none, made := [Obj(PipelineObject, NullHandle), Obj(PipelineLayoutObject, NullHandle)], [Obj(PipelineObject, pipeline), Obj(PipelineLayoutObject, layout)];
    assert ResidentObjs(frames, NullHandle, NullHandle, model, skybox) + s + c == f + none + rest;
    assert Keys(made) == [pipeline, layout];
    var added := map[layout := PipelineLayoutObject, pipeline := PipelineObject];
    assert st'.live == st.live + added;
    FillSegment(st, st', f, none, rest, made, added);
    assert f + made + rest == ResidentObjs(frames, pipeline, layout, model, skybox) + s + c;
  }

  /** FramesObjs, around slot i. */
  lemma {:induction false} FramesObjsAt(fs: seq<PerFrame>, i: nat)
    requires i < |fs|
    ensures FramesObjs(fs) == FramesObjs(fs[..i]) + FrameObjs(fs[i]) + FramesObjs(fs[i + 1..])
    decreases i
  {
    if i == 0 {
      assert fs[..0] == [];
    } else {
      FramesObjsAt(fs[1..], i - 1);
      assert fs[1..][..i - 1] == fs[1..i] && fs[1..][i - 1] == fs[i] && fs[1..][i..] == fs[i + 1..];
      assert FramesObjs(fs[..i]) == FrameObjs(fs[0]) + FramesObjs(fs[1..i]) by {
        assert fs[..i][0] == fs[0] && fs[..i][1..] == fs[1..i];
      }
    }
  }

  /** The objects of a per-frame slot, by kind. */
  function FrameMap(f: PerFrame): map<Handle, ObjectType>
  {
    map[f.cmdPool := CommandPoolObject, f.acquireSem := SemaphoreObject, f.presentSem := SemaphoreObject, f.fence := FenceObject]
  }

  /** A slot filled with a fresh pool, two semaphores and a fence. */
  lemma FrameMade(st: State, st': State, frames: seq<PerFrame>, i: nat, f: PerFrame,
                  pipeline: Handle, layout: Handle, model: Model, skybox: Skybox, s: seq<Obj>, c: seq<Obj>)
    requires Consistent(st) && Owns(st, ResidentObjs(frames, pipeline, layout, model, skybox) + s + c)
    requires i < |frames| && frames[i] == NoFrame
    requires f.cmdPool != NullHandle && f.acquireSem == f.cmdPool + 2 && f.presentSem == f.cmdPool + 3 && f.fence == f.cmdPool + 4
    requires forall h <- st.created :: h < f.cmdPool
    requires st'.live == st.live + FrameMap(f)
    ensures Owns(st', ResidentObjs(frames[i := f], pipeline, layout, model, skybox) + s + c)
  {
    var rest := [Obj(PipelineObject, pipeline), Obj(PipelineLayoutObject, layout)] + ModelObjs(model) + SkyboxObjs(skybox) + s + c;
    assert ResidentObjs(frames, pipeline, layout, model, skybox) + s + c == FramesObjs(frames) + rest;
    assert ResidentObjs(frames[i := f], pipeline, layout, model, skybox) + s + c == FramesObjs(frames[i := f]) + rest;
    FramesAround(frames, i, f, rest);
    FrameHeld(st', f);
    FillSegment(st, st', FramesObjs(frames[..i]), FrameObjs(NoFrame), FramesObjs(frames[i + 1..]) + rest, FrameObjs(f), FrameMap(f));
  }

  /** The frames' objects with something after them, split around slot i,
      before and after the slot is refilled. */
  lemma FramesAround(frames: seq<PerFrame>, i: nat, f: PerFrame, rest: seq<Obj>)
    requires i < |frames|
    ensures FramesObjs(frames) + rest == FramesObjs(frames[..i]) + FrameObjs(frames[i]) + (FramesObjs(frames[i + 1..]) + rest)
    ensures FramesObjs(frames[i := f]) + rest == FramesObjs(frames[..i]) + FrameObjs(f) + (FramesObjs(frames[i + 1..]) + rest)
  {
    var frames' := frames[i := f];
    FramesObjsAt(frames, i);
    FramesObjsAt(frames', i);
    assert frames'[..i] == frames[..i] && frames'[i + 1..] == frames[i + 1..];
  }

  lemma FrameHeld(st: State, f: PerFrame)
    requires f.cmdPool != NullHandle && f.acquireSem == f.cmdPool + 2 && f.presentSem == f.cmdPool + 3 && f.fence == f.cmdPool + 4
    requires forall h <- FrameMap(f) :: h in st.live && st.live[h] == FrameMap(f)[h]
    ensures Holds(st, FrameObjs(f)) && Distinct(FrameObjs(f))
    ensures Keys(FrameObjs(f)) == [f.cmdPool, f.acquireSem, f.presentSem, f.fence]
  {
    assert FrameMap(f)[f.cmdPool] == CommandPoolObject && FrameMap(f)[f.fence] == FenceObject;
    assert FrameMap(f)[f.acquireSem] == SemaphoreObject && FrameMap(f)[f.presentSem] == SemaphoreObject;
  }

  /** The calls that make the instance and the device and fetch the three
      queues, then make the surface. */
  function StartEvents(instance: Handle, device: Handle, fam: Families, graphicsQueue: Handle, computeQueue: Handle,
                       transferQueue: Handle, surface: Handle): seq<Event>
  {
    [ Create(InstanceObject, instance, NoInfo),
      Create(DeviceObject, device, DeviceCreate([fam.graphics, fam.compute, fam.transfer])),
      GetDeviceQueue(fam.graphics, 0, graphicsQueue),
      GetDeviceQueue(fam.compute, 0, computeQueue),
      GetDeviceQueue(fam.transfer, 0, transferQueue),
      Create(SurfaceObject, surface, NoInfo) ]
  }

  /** The calls that fill one per-frame slot: a transient pool on the
      graphics family, its command buffer, the acquire and present
      semaphores, and a fence created signalled. */
  function FrameEvents(f: PerFrame, graphicsFamily: nat): seq<Event>
  {
    [ Create(CommandPoolObject, f.cmdPool, CommandPoolCreate(graphicsFamily, true)),
      AllocateCommandBuffer(f.cmdPool, f.cmdBuffer),
      Create(SemaphoreObject, f.acquireSem, NoInfo),
      Create(SemaphoreObject, f.presentSem, NoInfo),
      Create(FenceObject, f.fence, FenceCreate(true)) ]
  }

  function FramesEvents(fs: seq<PerFrame>, graphicsFamily: nat): (es: seq<Event>)
    ensures |es| == 5 * |fs|
  {
    if fs == [] then [] else FrameEvents(fs[0], graphicsFamily) + FramesEvents(fs[1..], graphicsFamily)
  }

  /** The calls for the slots up to i, then slot i. */
  lemma {:induction false} FramesEventsSnoc(fs: seq<PerFrame>, i: nat, graphicsFamily: nat)
    requires i < |fs|
    ensures FramesEvents(fs[..i + 1], graphicsFamily) == FramesEvents(fs[..i], graphicsFamily) + FrameEvents(fs[i], graphicsFamily)
    decreases i
  {
    if i == 0 {
      assert fs[..1][1..] == [] && fs[..1][0] == fs[0] && fs[..0] == [];
    } else {
      FramesEventsSnoc(fs[1..], i - 1, graphicsFamily);
      assert fs[1..][..i] == fs[..i + 1][1..] && fs[1..][..i - 1] == fs[..i][1..] && fs[1..][i - 1] == fs[i];
      assert fs[..i + 1][0] == fs[0] && fs[..i][0] == fs[0];
    }
  }

  /** Slot i's calls sit at 5i in the calls for all the slots. */
  lemma {:induction false} FramesEventsAt(fs: seq<PerFrame>, i: nat, graphicsFamily: nat)
    requires i < |fs|
    ensures FramesEvents(fs, graphicsFamily)[5 * i..5 * i + 5] == FrameEvents(fs[i], graphicsFamily)
    decreases i
  {
    var es := FramesEvents(fs, graphicsFamily);
    var first := FrameEvents(fs[0], graphicsFamily);
    if i == 0 {
      assert es[..5] == first;
    } else {
      FramesEventsAt(fs[1..], i - 1, graphicsFamily);
      var tail := FramesEvents(fs[1..], graphicsFamily);
      assert es == first + tail;
      assert es[5 * i..5 * i + 5] == tail[5 * (i - 1)..5 * (i - 1) + 5];
    }
  }

  // ---------------------------------------------------------------------
  // The renderer

  class Renderer {
    /** Every Vulkan call made so far, in order, and the ledger it leads to. */
    var trace: seq<Event>
    ghost var st: State
    /** The handle the driver returns for the next object it creates. */
    var next: Handle

    /** Given at construction: the handles made outside the model, the
        memory types of the physical device (m_memProps), the memoryTypeBits
        the driver reports for each image or buffer, and the surface format. */
    const provided: Provided
    const memoryTypes: seq<Flags>
    const typeBits: Handle -> Flags
    const surfaceFormat: Format
    /** The number of images the driver gives every swapchain. */
    const swapchainImageCount: nat

    const families: Families
    var instance: Handle
    var device: Handle
    var surface: Handle
    var graphicsQueue: Handle
    var computeQueue: Handle
    var transferQueue: Handle
    var width: nat
    var height: nat
    var swapchainDirty: bool
    var swapchain: Handle
    var swapchainImages: seq<Handle>
    var swapchainImageViews: seq<Handle>
    var colorTarget: Image
    var depthTarget: Image
    var modelPipelineLayout: Handle
    var modelPipeline: Handle
    var model: Model
    var skybox: Skybox
    var frames: seq<PerFrame>

    /** getMemoryIndex finds a type for every resource and property set
        the renderer asks for (otherwise it falls off its end). */
    ghost predicate MemoryFits(props: Flags)
    {
      |memoryTypes| <= 32 && forall h: Handle :: HasMemoryType(memoryTypes, props, typeBits(h))
    }

    /** The trace is valid and leads to the ledger `st`, and the counter is
        above every handle made. */
    ghost predicate Valid()
      reads `trace, `st, `next
    {
      && Replay(trace) == Some(st)
      && Consistent(st)
      && 0 < next && (forall h <- st.created :: h < next)
      && MemoryFits(DEVICE_MEMORY) && MemoryFits(STAGING_MEMORY)
    }

    /** One Vulkan call the ledger accepts. */
    method Call(e: Event)
      requires Replay(trace) == Some(st) && Apply(st, e).Some?
      modifies `trace, `st
      ensures trace == old(trace) + [e]
      ensures st == Apply(old(st), e).value && Replay(trace) == Some(st)
    {
      ReplaySnoc(trace, e);
      trace := trace + [e];
      st := Apply(st, e).value;
    }

    /** One Vulkan call, whatever the ledger says of it. */
    method Record(e: Event)
      modifies `trace
      ensures trace == old(trace) + [e]
      ensures Replay(trace) == ApplyTo(old(Replay(trace)), e)
    {
      ReplaySnoc(trace, e);
      trace := trace + [e];
    }

    /** The driver hands out a handle no object has had. */
    method NewHandle() returns (h: Handle)
      modifies `next
      ensures h == old(next) && next == old(next) + 1
    {
      h := next;
      next := next + 1;
    }

    /** onResize: marks the swapchain for recreation and changes nothing else. */
    method OnResize()
      modifies `swapchainDirty
      ensures swapchainDirty
    {
      swapchainDirty := true;
    }

    /** A create call: the driver's next handle becomes a live object. */
    method CreateObject(o: ObjectType, info: Info) returns (h: Handle)
      requires Valid()
      modifies `trace, `st, `next
      ensures Valid()
      ensures h == old(next) && next == old(next) + 1
      ensures trace == old(trace) + [Create(o, h, info)]
      ensures st == old(st).(live := old(st).live[h := o], created := old(st).created + {h})
    {
      h := NewHandle();
      Call(Create(o, h, info));
    }

    /** A call the ledger accepts in the current state without change. */
    method Accepted(e: Event)
      requires Valid() && Apply(st, e) == Some(st)
      modifies `trace, `st
      ensures Valid() && st == old(st)
      ensures trace == old(trace) + [e]
    {
      Call(e);
    }

    /** The calls of createImage for the image `img`. */
    ghost function ImageEvents(img: Image, w: nat, h: nat, format: Format, usage: Flags, mips: nat, cube: bool): seq<Event>
      requires MemoryFits(DEVICE_MEMORY)
    {
      CreateImageEvents(img,
        ImageInfo(families, w, h, format, usage, mips, cube),
        MemoryAllocateInfo(GetMemoryIndex(memoryTypes, DEVICE_MEMORY, typeBits(img.image)), false),
        ViewInfo(img.image, format, usage, cube))
    }

    /** createImage: the image, its device-local memory, the binding, and
        its default view, with the create infos the request decides. */
    method CreateImage(w: nat, h: nat, format: Format, usage: Flags, mips: nat, cube: bool) returns (img: Image)
      requires Valid()
      modifies `trace, `st, `next
      ensures Valid()
      ensures img == Image(old(next) + 1, old(next), old(next) + 2) && next == old(next) + 3
      ensures trace == old(trace) + ImageEvents(img, w, h, format, usage, mips, cube)
      ensures Moved(old(st), st, {}, ImageObjects(img))
    {
      var ci := ImageInfo(families, w, h, format, usage, mips, cube);
      var image := CreateObject(ImageObject, ImageCreate(ci));
      var ai := MemoryAllocateInfo(GetMemoryIndex(memoryTypes, DEVICE_MEMORY, typeBits(image)), false);
      var memory := CreateObject(MemoryObject, MemoryAllocate(ai));
      Accepted(BindMemory(image, memory));
      var vi := ViewInfo(image, format, usage, cube);
      var view := CreateObject(ViewObject, ViewCreate(vi));
      img := Image(memory, image, view);
      Snoc4(old(trace), Create(ImageObject, image, ImageCreate(ci)), Create(MemoryObject, memory, MemoryAllocate(ai)),
        BindMemory(image, memory), Create(ViewObject, view, ViewCreate(vi)));
      Updates3(old(st).live, image, ImageObject, memory, MemoryObject, view, ViewObject);
    }

    /** destroyImage. */
    method DestroyImage(img: Image)
      requires Valid() && ImageReleasable(st, img)
      modifies `trace, `st
      ensures Valid()
      ensures trace == old(trace) + DestroyImageEvents(img)
      ensures Moved(old(st), st, {img.view, img.image, img.memory} - {NullHandle}, map[])
    {
      DestroyImageReleases(st, img);
      CallAll(DestroyImageEvents(img));
    }

    /** createBuffer: the buffer, shared by the three families; memory of
        the asked properties, allocated for device addresses when the usage
        has them; the binding; then the mapping or the device address. */
    method CreateBuffer(size: nat, usage: Flags, memProps: Flags) returns (b: Buffer)
      requires Valid() && MemoryFits(memProps)
      modifies `trace, `st, `next
      ensures Valid()
      ensures b == Buffer(old(next) + 1, old(next), BufferPointerFor(usage, memProps)) && next == old(next) + 2
      ensures trace == old(trace) + CreateBufferEvents(b,
        BufferInfo(families, size, usage),
        MemoryAllocateInfo(GetMemoryIndex(memoryTypes, memProps, typeBits(b.buffer)), BufferAllocRequestsAddress(usage)))
      ensures Moved(old(st), st, {}, BufferObjects(b))
    {
      var bi := BufferInfo(families, size, usage);
      var buffer := CreateObject(BufferObject, BufferCreate(bi));
      var ai := MemoryAllocateInfo(GetMemoryIndex(memoryTypes, memProps, typeBits(buffer)), BufferAllocRequestsAddress(usage));
      var memory := CreateObject(MemoryObject, MemoryAllocate(ai));
      Accepted(BindMemory(buffer, memory));
      Snoc3(old(trace), Create(BufferObject, buffer, BufferCreate(bi)), Create(MemoryObject, memory, MemoryAllocate(ai)), BindMemory(buffer, memory));
      ghost var made := [Create(BufferObject, buffer, BufferCreate(bi)), Create(MemoryObject, memory, MemoryAllocate(ai)), BindMemory(buffer, memory)];
      var pointer := ExposePointer(memory, buffer, usage, memProps);
      b := Buffer(memory, buffer, pointer);
      Assoc(old(trace), made, PointerEvents(b));
      Updates2(old(st).live, buffer, BufferObject, memory, MemoryObject);
    }

    /** The end of createBuffer: host-visible memory is mapped, or else a
        device-address buffer has its address taken. */
    method ExposePointer(memory: Handle, buffer: Handle, usage: Flags, memProps: Flags) returns (pointer: BufferPointer)
      requires Valid() && LiveAs(st, MemoryObject, memory) && LiveAs(st, BufferObject, buffer)
      modifies `trace, `st
      ensures Valid() && st == old(st)
      ensures pointer == BufferPointerFor(usage, memProps)
      ensures trace == old(trace) + PointerEvents(Buffer(memory, buffer, pointer))
    {
      pointer := NoPointer;
      if memProps & MEMORY_HOST_VISIBLE != 0 {
        Accepted(MapMemory(memory));
        pointer := HostPointer;
      } else if usage & BUFFER_USAGE_SHADER_DEVICE_ADDRESS != 0 {
        Accepted(GetBufferAddress(buffer));
        pointer := DeviceAddress;
      }
    }

    /** destroyBuffer. */
    method DestroyBuffer(b: Buffer)
      requires Valid() && BufferReleasable(st, b)
      modifies `trace, `st
      ensures Valid()
      ensures trace == old(trace) + DestroyBufferEvents(b)
      ensures Moved(old(st), st, {b.buffer, b.memory} - {NullHandle}, map[])
    {
      DestroyBufferReleases(st, b);
      CallAll(DestroyBufferEvents(b));
    }
  
    // -------------------------------------------------------------------
    // The swapchain

    /** The calls of the last createSwapchain, which replaced `oldSwapchain`
        and appended the views from index `firstView` on. */
    ghost function LastSwapchainEvents(oldSwapchain: Handle, firstView: nat): seq<Event>
      reads `swapchain, `swapchainImages, `swapchainImageViews, `colorTarget, `depthTarget, `width, `height, `surface
      requires MemoryFits(DEVICE_MEMORY)
      requires firstView <= |swapchainImageViews| && |swapchainImageViews| - firstView == |swapchainImages|
    {
      SwapchainEvents(oldSwapchain, swapchain, swapchainImages, swapchainImageViews[firstView..], surfaceFormat,
        ImageEvents(colorTarget, width, height, COLOR_FORMAT, COLOR_TARGET_USAGE, 1, false),
        ImageEvents(depthTarget, width, height, DEPTH_FORMAT, DEPTH_TARGET_USAGE, 1, false),
        SwapchainInfo(surface, families, width, height, oldSwapchain))
    }

    /** vkCreateSwapchainKHR with the old swapchain handed over, then
        vkDestroySwapchainKHR of the old one. */
    method ReplaceSwapchain() returns (sc: Handle)
      requires Valid()
      requires swapchain == NullHandle || (LiveAs(st, SwapchainObject, swapchain) && !Busy(st, swapchain))
      modifies `trace, `st, `next
      ensures Valid()
      ensures sc == old(next) && next == old(next) + 1
      ensures trace == old(trace) + ReplaceEvents(swapchain, sc, SwapchainInfo(surface, families, width, height, swapchain))
      ensures Moved(old(st), st, {swapchain} - {NullHandle}, map[sc := SwapchainObject])
    {
      sc := CreateObject(SwapchainObject, SwapchainCreate(SwapchainInfo(surface, families, width, height, swapchain)));
      ghost var st1 := st;
      Call(Destroy(SwapchainObject, swapchain));
      Snoc2(old(trace), Create(SwapchainObject, sc, SwapchainCreate(SwapchainInfo(surface, families, width, height, swapchain))), Destroy(SwapchainObject, swapchain));
      assert st.live == (old(st).live - ({swapchain} - {NullHandle})) + map[sc := SwapchainObject];
    }

    /** vkGetSwapchainImagesKHR, asked for the count and then the images:
        the driver's next handles, which belong to the swapchain. */
    method GetImages(sc: Handle) returns (images: seq<Handle>)
      requires Valid() && LiveAs(st, SwapchainObject, sc)
      modifies `trace, `st, `next
      ensures Valid() && st == old(st)
      ensures |images| == swapchainImageCount && next == old(next) + swapchainImageCount
      ensures Counted(images, old(next))
      ensures trace == old(trace) + [GetSwapchainImages(sc, []), GetSwapchainImages(sc, images)]
    {
      Accepted(GetSwapchainImages(sc, []));
      var first := next;
      images := seq(swapchainImageCount, i => first + i);
      next := next + swapchainImageCount;
      Accepted(GetSwapchainImages(sc, images));
      Snoc2(old(trace), GetSwapchainImages(sc, []), GetSwapchainImages(sc, images));
    }

    /** The loop over the swapchain images, one view of each. */
    method CreateSwapchainViews(images: seq<Handle>) returns (views: seq<Handle>)
      requires Valid()
      modifies `trace, `st, `next
      ensures Valid()
      ensures |views| == |images| && next == old(next) + |images|
      ensures Counted(views, old(next))
      ensures trace == old(trace) + SwapchainViewEvents(images, views, surfaceFormat)
      ensures Moved(old(st), st, {}, ViewMap(views))
    {
      views := [];
      var i := 0;
      while i < |images|
        invariant 0 <= i <= |images| && |views| == i && next == old(next) + i
        invariant forall j :: 0 <= j < i ==> views[j] == old(next) + j
        invariant Valid()
        invariant trace == old(trace) + SwapchainViewEvents(images[..i], views, surfaceFormat)
        invariant Moved(old(st), st, {}, ViewMap(views))
      {
        ghost var st0 := st;
        var v := CreateObject(ViewObject, ViewCreate(SwapchainViewInfo(images[i], surfaceFormat)));
        MovedThenUpdate(old(st), st0, st, {}, ViewMap(views), v, ViewObject);
        Assoc(old(trace), SwapchainViewEvents(images[..i], views, surfaceFormat), [Create(ViewObject, v, ViewCreate(SwapchainViewInfo(images[i], surfaceFormat)))]);
        ViewEventsSnoc(images, i, views, v, surfaceFormat);
        views := views + [v];
        i := i + 1;
      }
      assert images[..i] == images;
    }

    /** The images of the new swapchain, and a view of each, appended to
        the views held. */
    method AcquireViews(sc: Handle)
      requires Valid() && LiveAs(st, SwapchainObject, sc)
      modifies `trace, `st, `next, `swapchainImages, `swapchainImageViews
      ensures Valid()
      ensures |swapchainImages| == swapchainImageCount && next == old(next) + 2 * swapchainImageCount
      ensures |swapchainImageViews| == |old(swapchainImageViews)| + swapchainImageCount
      ensures swapchainImageViews[..|old(swapchainImageViews)|] == old(swapchainImageViews)
      ensures Counted(swapchainImages, old(next))
      ensures Counted(swapchainImageViews[|old(swapchainImageViews)|..], old(next) + swapchainImageCount)
      ensures trace == old(trace) + AcquireEvents(sc, swapchainImages, swapchainImageViews[|old(swapchainImageViews)|..], surfaceFormat)
      ensures Moved(old(st), st, {}, ViewMap(swapchainImageViews[|old(swapchainImageViews)|..]))
    {
      var images := GetImages(sc);
      swapchainImages := images;
      var views := CreateSwapchainViews(images);
      swapchainImageViews := swapchainImageViews + views;
      assert swapchainImageViews[|old(swapchainImageViews)|..] == views;
    }

    /** The colour and depth targets at the window's size. */
    method CreateTargets()
      requires Valid()
      modifies `trace, `st, `next, `colorTarget, `depthTarget
      ensures Valid()
      ensures colorTarget == Image(old(next) + 1, old(next), old(next) + 2)
      ensures depthTarget == Image(old(next) + 4, old(next) + 3, old(next) + 5)
      ensures next == old(next) + 6
      ensures trace == old(trace) + (ImageEvents(colorTarget, width, height, COLOR_FORMAT, COLOR_TARGET_USAGE, 1, false)
        + ImageEvents(depthTarget, width, height, DEPTH_FORMAT, DEPTH_TARGET_USAGE, 1, false))
      ensures Moved(old(st), st, {}, ImageObjects(colorTarget) + ImageObjects(depthTarget))
    {
      colorTarget := CreateImage(width, height, COLOR_FORMAT, COLOR_TARGET_USAGE, 1, false);
      ghost var st1 := st;
      depthTarget := CreateImage(width, height, DEPTH_FORMAT, DEPTH_TARGET_USAGE, 1, false);
      Assoc(old(trace), ImageEvents(colorTarget, width, height, COLOR_FORMAT, COLOR_TARGET_USAGE, 1, false),
        ImageEvents(depthTarget, width, height, DEPTH_FORMAT, DEPTH_TARGET_USAGE, 1, false));
      MovedThen(old(st), st1, st, {}, ImageObjects(colorTarget), ImageObjects(depthTarget));
    }

    /** The first half of createSwapchain: the swapchain replaced, then its
        images and their views. */
    method ReplaceAndAcquire()
      requires Valid()
      requires swapchain == NullHandle || (LiveAs(st, SwapchainObject, swapchain) && !Busy(st, swapchain))
      modifies `trace, `st, `next, `swapchain, `swapchainImages, `swapchainImageViews
      ensures Valid()
      ensures swapchain == old(next) && |swapchainImages| == swapchainImageCount
      ensures |swapchainImageViews| == |old(swapchainImageViews)| + swapchainImageCount
      ensures swapchainImageViews[..|old(swapchainImageViews)|] == old(swapchainImageViews)
      ensures Counted(swapchainImages, old(next) + 1)
      ensures Counted(swapchainImageViews[|old(swapchainImageViews)|..], old(next) + 1 + swapchainImageCount)
      ensures next == old(next) + 1 + 2 * swapchainImageCount
      ensures trace == old(trace) + (ReplaceEvents(old(swapchain), swapchain, SwapchainInfo(surface, families, width, height, old(swapchain)))
        + AcquireEvents(swapchain, swapchainImages, swapchainImageViews[|old(swapchainImageViews)|..], surfaceFormat))
      ensures Moved(old(st), st, {old(swapchain)} - {NullHandle},
        map[swapchain := SwapchainObject] + ViewMap(swapchainImageViews[|old(swapchainImageViews)|..]))
    {
      ghost var held := |swapchainImageViews|;
      ghost var replaced := ReplaceEvents(swapchain, next, SwapchainInfo(surface, families, width, height, swapchain));
      var sc := ReplaceSwapchain();
      ghost var st1 := st;
      swapchain := sc;
      AcquireViews(sc);
      Assoc(old(trace), replaced, AcquireEvents(sc, swapchainImages, swapchainImageViews[held..], surfaceFormat));
      MovedThen(old(st), st1, st, {old(swapchain)} - {NullHandle}, map[sc := SwapchainObject], ViewMap(swapchainImageViews[held..]));
    }

    /** createSwapchain. The new views are appended to the views already
        held; nothing is removed from that list. */
    method CreateSwapchain() returns (ghost made: seq<Handle>)
      requires Valid()
      requires swapchain == NullHandle || (LiveAs(st, SwapchainObject, swapchain) && !Busy(st, swapchain))
      modifies `trace, `st, `next, `swapchain, `swapchainImages, `swapchainImageViews, `colorTarget, `depthTarget
      ensures Valid()
      ensures swapchain == old(next) && |swapchainImages| == swapchainImageCount
      ensures |swapchainImageViews| == |old(swapchainImageViews)| + swapchainImageCount
      ensures swapchainImageViews[..|old(swapchainImageViews)|] == old(swapchainImageViews)
      ensures trace == old(trace) + LastSwapchainEvents(old(swapchain), |old(swapchainImageViews)|)
      ensures Counted(swapchainImages, old(next) + 1) && next == old(next) + 2 * swapchainImageCount + 7
      ensures made == swapchainImageViews[|old(swapchainImageViews)|..]
      ensures FreshlyNumbered(colorTarget, depthTarget, made, swapchain, old(next))
      ensures Moved(old(st), st, {old(swapchain)} - {NullHandle}, SwapchainMap(colorTarget, depthTarget, made, swapchain))
    {
      ghost var n, held, sc0 := next, |swapchainImageViews|, swapchain;
      ReplaceAndAcquire();
      ghost var st1 := st;
      made := swapchainImageViews[held..];
      ghost var acquired := ReplaceEvents(sc0, swapchain, SwapchainInfo(surface, families, width, height, sc0))
        + AcquireEvents(swapchain, swapchainImages, made, surfaceFormat);
      CreateTargets();
      assert swapchainImageViews[held..] == made && |made| == swapchainImageCount;
      Assoc(old(trace), acquired, ImageEvents(colorTarget, width, height, COLOR_FORMAT, COLOR_TARGET_USAGE, 1, false)
        + ImageEvents(depthTarget, width, height, DEPTH_FORMAT, DEPTH_TARGET_USAGE, 1, false));
      MovedThen(old(st), st1, st, {sc0} - {NullHandle}, map[swapchain := SwapchainObject] + ViewMap(made),
        ImageObjects(colorTarget) + ImageObjects(depthTarget));
      MapRegroup(map[swapchain := SwapchainObject] + ViewMap(made), ImageObjects(colorTarget), ImageObjects(depthTarget));
      assert FreshlyNumbered(colorTarget, depthTarget, made, swapchain, n);
    }

    // -------------------------------------------------------------------
    // What the renderer owns

    /** Between calls: the trace is valid, no queue has work pending, and
        what the renderer holds is exactly what is live. */
    ghost predicate Inv()
      reads `trace, `st, `next
      reads `modelPipeline, `modelPipelineLayout, `model, `skybox, `frames
      reads `colorTarget, `depthTarget, `swapchainImageViews, `swapchain, `device, `surface, `instance
    {
      Valid() && Idle(st) && |frames| == FRAMES_IN_FLIGHT
      && Owns(st, ResidentObjs(frames, modelPipeline, modelPipelineLayout, model, skybox)
        + SwapchainObjs(colorTarget, depthTarget, swapchainImageViews, swapchain) + Core(device, surface, instance))
    }

    /** Between the destruction of the swapchain's dependants and
        createSwapchain: no views are held, and what is held is exactly
        what is live. */
    ghost predicate Retired()
      reads `trace, `st, `next, `modelPipeline, `modelPipelineLayout, `model, `skybox, `frames
      reads `swapchainImageViews, `swapchain, `device, `surface, `instance
    {
      Valid() && Idle(st) && |frames| == FRAMES_IN_FLIGHT && swapchainImageViews == []
      && (swapchain == NullHandle || (LiveAs(st, SwapchainObject, swapchain) && !Busy(st, swapchain)))
      && Owns(st, ResidentObjs(frames, modelPipeline, modelPipelineLayout, model, skybox) + [Obj(SwapchainObject, swapchain)] + Core(device, surface, instance))
    }

    /** Calls the ledger accepts, none of them a create, made in order. */
    method CallAll(es: seq<Event>)
      requires Valid() && NoCreates(es) && ApplyAll(st, es).Some?
      modifies `trace, `st
      ensures Valid() && trace == old(trace) + es && st == ApplyAll(old(st), es).value
    {
      var i := 0;
      while i < |es|
        invariant 0 <= i <= |es|
        invariant Valid() && trace == old(trace) + es[..i]
        invariant st.created == old(st).created
        invariant ApplyAll(st, es[i..]) == ApplyAll(old(st), es)
      {
        assert es[i..][0] == es[i] && es[i..][1..] == es[i + 1..];
        ApplyConsistent(st, es[i]);
        Call(es[i]);
        assert es[..i + 1] == es[..i] + [es[i]];
        i := i + 1;
      }
      assert es[..i] == es;
    }

    // -------------------------------------------------------------------
    // recreateSwapchain

    /** The wait at the top of recreateSwapchain: the framebuffer size is
        read, and read again after each event wait, until neither side is
        zero. `sizes` are the sizes successive reads return; the size read
        last is returned with the number of reads. */
    method PollFramebuffer(sizes: seq<(nat, nat)>) returns (w: nat, h: nat, polls: nat)
      requires EverDrawable(sizes)
      ensures polls == FirstDrawable(sizes) + 1
      ensures w == sizes[polls - 1].0 && h == sizes[polls - 1].1
    {
      var i := 0;
      w, h := sizes[0].0, sizes[0].1;
      while w == 0 || h == 0
        invariant i <= FirstDrawable(sizes) && w == sizes[i].0 && h == sizes[i].1
        decreases FirstDrawable(sizes) - i
      {
        i := i + 1;
        w, h := sizes[i].0, sizes[i].1;
      }
      polls := i + 1;
    }

    /** The device wait, the targets' destruction and the loop destroying
        every view held. */
    method RetireSwapchain()
      requires Inv()
      modifies `trace, `st
      ensures Valid() && Idle(st) && st.created == old(st).created
      ensures trace == old(trace) + RetireEvents(colorTarget, depthTarget, swapchainImageViews)
      ensures st.live == old(st).live - Released(RetiredObjs(colorTarget, depthTarget, swapchainImageViews))
      ensures swapchain == NullHandle || (LiveAs(st, SwapchainObject, swapchain) && !Busy(st, swapchain))
      ensures Owns(st, ResidentObjs(frames, modelPipeline, modelPipelineLayout, model, skybox) + [Obj(SwapchainObject, swapchain)] + Core(device, surface, instance))
      ensures forall v <- swapchainImageViews :: v != NullHandle ==> v in st.created && v !in st.live
    {
      ghost var st0 := st;
      SwapchainSegment(st, ResidentObjs(frames, modelPipeline, modelPipelineLayout, model, skybox), colorTarget, depthTarget, swapchainImageViews, swapchain, Core(device, surface, instance));
      RetireReleases(st, colorTarget, depthTarget, swapchainImageViews);
      CallAll(RetireEvents(colorTarget, depthTarget, swapchainImageViews));
      RetireLeavesSwapchain(st0, st, ResidentObjs(frames, modelPipeline, modelPipelineLayout, model, skybox), Core(device, surface, instance), colorTarget, depthTarget, swapchainImageViews, swapchain);
    }

    /** recreateSwapchain as written: the views destroyed stay in
        m_swapchainImageViews, and createSwapchain appends the new ones
        after them. The renderer then holds destroyed handles. */
    method RecreateSwapchain(sizes: seq<(nat, nat)>)
      requires Inv() && EverDrawable(sizes)
      modifies `trace, `st, `next, `width, `height, `swapchainDirty
      modifies `swapchain, `swapchainImages, `swapchainImageViews, `colorTarget, `depthTarget
      ensures Valid() && Idle(st) && !swapchainDirty
      ensures width == sizes[FirstDrawable(sizes)].0 && height == sizes[FirstDrawable(sizes)].1
      ensures |swapchainImages| == swapchainImageCount
      ensures |swapchainImageViews| == |old(swapchainImageViews)| + swapchainImageCount
      ensures trace == old(trace) + RetireEvents(old(colorTarget), old(depthTarget), old(swapchainImageViews))
        + LastSwapchainEvents(old(swapchain), |old(swapchainImageViews)|)
      ensures swapchainImageViews[..|old(swapchainImageViews)|] == old(swapchainImageViews)
      ensures forall v <- old(swapchainImageViews) :: v != NullHandle ==> v in st.created && v !in st.live
    {
      var w, h, _ := PollFramebuffer(sizes);
      RetireSwapchain();
      RebuildKeepingViews(w, h);
    }

    /** The rest of recreateSwapchain as written: the size polled is
        stored, createSwapchain runs with the destroyed views left in the
        list, and the swapchain is no longer marked for recreation. The
        views left in the list stay dead. */
    method RebuildKeepingViews(w: nat, h: nat)
      requires Valid() && Idle(st)
      requires swapchain == NullHandle || (LiveAs(st, SwapchainObject, swapchain) && !Busy(st, swapchain))
      requires forall v <- swapchainImageViews :: v != NullHandle ==> v in st.created && v !in st.live
      modifies `trace, `st, `next, `width, `height, `swapchainDirty
      modifies `swapchain, `swapchainImages, `swapchainImageViews, `colorTarget, `depthTarget
      ensures Valid() && Idle(st) && !swapchainDirty && width == w && height == h
      ensures |swapchainImages| == swapchainImageCount
      ensures |swapchainImageViews| == |old(swapchainImageViews)| + swapchainImageCount
      ensures trace == old(trace) + LastSwapchainEvents(old(swapchain), |old(swapchainImageViews)|)
      ensures swapchainImageViews[..|old(swapchainImageViews)|] == old(swapchainImageViews)
      ensures forall v <- old(swapchainImageViews) :: v != NullHandle ==> v in st.created && v !in st.live
    {
      ghost var held, n, st1, t1, sc1 := swapchainImageViews, next, st, trace, swapchain;
      width, height, swapchainDirty := w, h, false;
      ghost var made := CreateSwapchain();
      FreshSpares(st1, st, held, sc1, colorTarget, depthTarget, made, swapchain, n);
      ReplayGrows(t1, LastSwapchainEvents(sc1, |held|));
    }

    /** recreateSwapchain with the view list cleared once its views are
        destroyed: the renderer again holds exactly what is live. */
    method RecreateSwapchainClearingViews(sizes: seq<(nat, nat)>)
      requires Inv() && EverDrawable(sizes)
      modifies `trace, `st, `next, `width, `height, `swapchainDirty
      modifies `swapchain, `swapchainImages, `swapchainImageViews, `colorTarget, `depthTarget
      ensures Inv() && !swapchainDirty
      ensures width == sizes[FirstDrawable(sizes)].0 && height == sizes[FirstDrawable(sizes)].1
      ensures |swapchainImages| == swapchainImageCount && |swapchainImageViews| == swapchainImageCount
      ensures trace == old(trace) + RetireEvents(old(colorTarget), old(depthTarget), old(swapchainImageViews))
        + LastSwapchainEvents(old(swapchain), 0)
    {
      var w, h, _ := PollFramebuffer(sizes);
      RetireClearingViews(w, h);
      Rebuild(old(trace) + RetireEvents(old(colorTarget), old(depthTarget), old(swapchainImageViews)));
    }

    /** The device wait, the targets' destruction and the view loop, with
        the list of views emptied afterwards; the size polled is stored
        and the swapchain is no longer marked for recreation. */
    method RetireClearingViews(w: nat, h: nat)
      requires Inv()
      modifies `trace, `st, `swapchainImageViews, `width, `height, `swapchainDirty
      ensures Retired() && !swapchainDirty && width == w && height == h
      ensures trace == old(trace) + RetireEvents(colorTarget, depthTarget, old(swapchainImageViews))
    {
      RetireSwapchain();
      ForgetViews(w, h);
    }

    method ForgetViews(w: nat, h: nat)
      modifies `swapchainImageViews, `width, `height, `swapchainDirty
      ensures swapchainImageViews == [] && !swapchainDirty && width == w && height == h
    {
      swapchainImageViews, width, height, swapchainDirty := [], w, h, false;
    }

    /** createSwapchain with the view list empty: the new objects take the
        old ones' place in what is owned. */
    method Rebuild(ghost before: seq<Event>)
      requires trace == before && Retired()
      modifies `trace, `st, `next, `swapchain, `swapchainImages, `swapchainImageViews, `colorTarget, `depthTarget
      ensures Inv()
      ensures |swapchainImages| == swapchainImageCount && |swapchainImageViews| == swapchainImageCount
      ensures trace == before + LastSwapchainEvents(old(swapchain), 0)
    {
      ghost var st1, n, sc1 := st, next, swapchain;
      ghost var made := CreateSwapchain();
      SwapchainRebuilt(st1, st, ResidentObjs(frames, modelPipeline, modelPipelineLayout, model, skybox), Core(device, surface, instance), sc1, colorTarget, depthTarget, made, swapchain, n);
    }

    // -------------------------------------------------------------------
    // Renderer::Renderer

    /** Renderer::Renderer on a primary monitor of modeWidth x modeHeight:
        the window at three quarters of it, the instance, the device and
        its three queues, the surface, the first swapchain, the model
        pipeline and its layout, then the per-frame slots. Handles are
        numbered from 1. */
    constructor (provided: Provided, memoryTypes: seq<Flags>, typeBits: Handle -> Flags, queueFamilies: seq<Flags>,
                 surfaceFormat: Format, swapchainImageCount: nat, modeWidth: nat, modeHeight: nat)
      requires HasQueueFamilies(queueFamilies) && |memoryTypes| <= 32
      requires forall h: Handle :: HasMemoryType(memoryTypes, DEVICE_MEMORY, typeBits(h))
      requires forall h: Handle :: HasMemoryType(memoryTypes, STAGING_MEMORY, typeBits(h))
      ensures Inv() && families == SelectFamilies(queueFamilies)
      ensures |swapchainImages| == swapchainImageCount && |swapchainImageViews| == swapchainImageCount
      ensures trace == StartEvents(instance, device, families, graphicsQueue, computeQueue, transferQueue, surface)
        + LastSwapchainEvents(NullHandle, 0)
        + [Create(PipelineLayoutObject, modelPipelineLayout, NoInfo), Create(PipelineObject, modelPipeline, NoInfo)]
        + FramesEvents(frames, families.graphics)
    {
      this.provided, this.memoryTypes, this.typeBits := provided, memoryTypes, typeBits;
      this.surfaceFormat, this.swapchainImageCount := surfaceFormat, swapchainImageCount;
      families := SelectFamilies(queueFamilies);
      trace, st, next := [], Initial, 1;
      instance, device, surface := NullHandle, NullHandle, NullHandle;
      graphicsQueue, computeQueue, transferQueue := NullHandle, NullHandle, NullHandle;
      width, height, swapchainDirty := modeWidth * 3 / 4, modeHeight * 3 / 4, false;
      swapchain, swapchainImages, swapchainImageViews := NullHandle, [], [];
      colorTarget, depthTarget := NoImage, NoImage;
      modelPipelineLayout, modelPipeline := NullHandle, NullHandle;
      model, skybox, frames := NoModel, NoSkybox, [NoFrame, NoFrame];
      new;
      NothingHeldYet();
      Construct();
    }

    /** Nothing made yet past the instance, device and surface: no
        swapchain, targets, views, pipeline, model or per-frame slot. */
    ghost predicate Bare()
      reads `swapchain, `swapchainImageViews, `colorTarget, `depthTarget, `modelPipelineLayout, `modelPipeline, `model, `frames
    {
      swapchain == NullHandle && swapchainImageViews == [] && colorTarget == NoImage && depthTarget == NoImage
      && modelPipelineLayout == NullHandle && modelPipeline == NullHandle && model == NoModel
      && forall j :: 0 <= j < |frames| ==> frames[j] == NoFrame
    }

    /** The constructor's calls, in order. */
    method Construct()
      requires Inv() && trace == [] && instance == NullHandle && device == NullHandle && surface == NullHandle && Bare()
      modifies `trace, `st, `next, `instance, `device, `graphicsQueue, `computeQueue, `transferQueue, `surface
      modifies `swapchain, `swapchainImages, `swapchainImageViews, `colorTarget, `depthTarget, `modelPipelineLayout, `modelPipeline, `frames
      ensures Inv()
      ensures |swapchainImages| == swapchainImageCount && |swapchainImageViews| == swapchainImageCount
      ensures trace == StartEvents(instance, device, families, graphicsQueue, computeQueue, transferQueue, surface)
        + LastSwapchainEvents(NullHandle, 0)
        + [Create(PipelineLayoutObject, modelPipelineLayout, NoInfo), Create(PipelineObject, modelPipeline, NoInfo)]
        + FramesEvents(frames, families.graphics)
    {
      StartUp();
      ghost var started := trace;
      ConstructFromSwapchain();
      Assoc4(old(trace), StartEvents(instance, device, families, graphicsQueue, computeQueue, transferQueue, surface),
        LastSwapchainEvents(NullHandle, 0),
        [Create(PipelineLayoutObject, modelPipelineLayout, NoInfo), Create(PipelineObject, modelPipeline, NoInfo)],
        FramesEvents(frames, families.graphics));
    }

    /** The constructor's calls from createSwapchain on. */
    method ConstructFromSwapchain()
      requires Inv() && Bare()
      modifies `trace, `st, `next, `swapchain, `swapchainImages, `swapchainImageViews, `colorTarget, `depthTarget
      modifies `modelPipelineLayout, `modelPipeline, `frames
      ensures Inv()
      ensures |swapchainImages| == swapchainImageCount && |swapchainImageViews| == swapchainImageCount
      ensures trace == old(trace) + (LastSwapchainEvents(NullHandle, 0)
        + [Create(PipelineLayoutObject, modelPipelineLayout, NoInfo), Create(PipelineObject, modelPipeline, NoInfo)]
        + FramesEvents(frames, families.graphics))
    {
      CreateFirstSwapchain();
      ghost var swapchainEvents := LastSwapchainEvents(NullHandle, 0);
      ConstructFromPipeline();
      Assoc3(old(trace), swapchainEvents,
        [Create(PipelineLayoutObject, modelPipelineLayout, NoInfo), Create(PipelineObject, modelPipeline, NoInfo)],
        FramesEvents(frames, families.graphics));
    }

    /** The constructor's calls from the model pipeline on. */
    method ConstructFromPipeline()
      requires Inv() && modelPipelineLayout == NullHandle && modelPipeline == NullHandle
      requires forall j :: 0 <= j < |frames| ==> frames[j] == NoFrame
      requires |swapchainImageViews| == |swapchainImages|
      modifies `trace, `st, `next, `modelPipelineLayout, `modelPipeline, `frames
      ensures Inv() && LastSwapchainEvents(NullHandle, 0) == old(LastSwapchainEvents(NullHandle, 0))
      ensures swapchainImages == old(swapchainImages) && swapchainImageViews == old(swapchainImageViews)
      ensures trace == old(trace) + ([Create(PipelineLayoutObject, modelPipelineLayout, NoInfo), Create(PipelineObject, modelPipeline, NoInfo)]
        + FramesEvents(frames, families.graphics))
    {
      CreateModelPipeline();
      ghost var piped := trace;
      CreateFrames();
      Assoc(old(trace), [Create(PipelineLayoutObject, modelPipelineLayout, NoInfo), Create(PipelineObject, modelPipeline, NoInfo)],
        FramesEvents(frames, families.graphics));
    }

    /** The instance, the device and its queues, the surface. */
    method StartUp()
      requires Inv() && instance == NullHandle && device == NullHandle && surface == NullHandle
      modifies `trace, `st, `next, `instance, `device, `graphicsQueue, `computeQueue, `transferQueue, `surface
      ensures Inv()
      ensures trace == old(trace) + StartEvents(instance, device, families, graphicsQueue, computeQueue, transferQueue, surface)
    {
      CreateInstance();
      ghost var t1 := trace;
      CreateDevice();
      ghost var t2 := trace;
      CreateSurface();
    }

    /** vkCreateInstance. */
    method CreateInstance()
      requires Inv() && instance == NullHandle
      modifies `trace, `st, `next, `instance
      ensures Inv() && instance == old(next) && next == old(next) + 1
      ensures trace == old(trace) + [Create(InstanceObject, instance, NoInfo)]
    {
      ghost var st0 := st;
      var h := CreateObject(InstanceObject, NoInfo);
      InstanceMade(st0, st, ResidentObjs(frames, modelPipeline, modelPipelineLayout, model, skybox)
        + SwapchainObjs(colorTarget, depthTarget, swapchainImageViews, swapchain), device, surface, h);
      instance := h;
    }

    /** vkCreateDevice, asking for one queue of each family chosen, then
        vkGetDeviceQueue for queue 0 of the graphics, compute and transfer
        families, in that order. */
    method CreateDevice()
      requires Inv() && device == NullHandle
      modifies `trace, `st, `next, `device, `graphicsQueue, `computeQueue, `transferQueue
      ensures Inv() && device == old(next)
      ensures graphicsQueue == old(next) + 1 && computeQueue == old(next) + 2 && transferQueue == old(next) + 3
      ensures next == old(next) + 4
      ensures trace == old(trace) + [Create(DeviceObject, device, DeviceCreate([families.graphics, families.compute, families.transfer]))]
        + [GetDeviceQueue(families.graphics, 0, graphicsQueue), GetDeviceQueue(families.compute, 0, computeQueue),
           GetDeviceQueue(families.transfer, 0, transferQueue)]
    {
      ghost var st0 := st;
      var h := CreateObject(DeviceObject, DeviceCreate([families.graphics, families.compute, families.transfer]));
      var g, c, t := GetQueues();
      device, graphicsQueue, computeQueue, transferQueue := h, g, c, t;
      DeviceMade(st0, st, ResidentObjs(frames, modelPipeline, modelPipelineLayout, model, skybox)
        + SwapchainObjs(colorTarget, depthTarget, swapchainImageViews, swapchain), surface, instance, h);
    }

    /** The three queues, each the driver's next handle. */
    method GetQueues() returns (g: Handle, c: Handle, t: Handle)
      requires Valid()
      modifies `trace, `st, `next
      ensures Valid() && st == old(st)
      ensures g == old(next) && c == old(next) + 1 && t == old(next) + 2 && next == old(next) + 3
      ensures trace == old(trace) + [GetDeviceQueue(families.graphics, 0, g),
        GetDeviceQueue(families.compute, 0, c), GetDeviceQueue(families.transfer, 0, t)]
    {
      g := NewHandle();
      Accepted(GetDeviceQueue(families.graphics, 0, g));
      c := NewHandle();
      Accepted(GetDeviceQueue(families.compute, 0, c));
      t := NewHandle();
      Accepted(GetDeviceQueue(families.transfer, 0, t));
      Snoc3(old(trace), GetDeviceQueue(families.graphics, 0, g), GetDeviceQueue(families.compute, 0, c), GetDeviceQueue(families.transfer, 0, t));
    }

    /** glfwCreateWindowSurface. */
    method CreateSurface()
      requires Inv() && surface == NullHandle
      modifies `trace, `st, `next, `surface
      ensures Inv() && surface == old(next) && next == old(next) + 1
      ensures trace == old(trace) + [Create(SurfaceObject, surface, NoInfo)]
    {
      ghost var st0 := st;
      var h := CreateObject(SurfaceObject, NoInfo);
      SurfaceMade(st0, st, ResidentObjs(frames, modelPipeline, modelPipelineLayout, model, skybox)
        + SwapchainObjs(colorTarget, depthTarget, swapchainImageViews, swapchain), device, instance, h);
      surface := h;
    }

    /** The first createSwapchain, with no swapchain, targets or views yet. */
    method CreateFirstSwapchain()
      requires Inv() && swapchain == NullHandle && swapchainImageViews == [] && colorTarget == NoImage && depthTarget == NoImage
      modifies `trace, `st, `next, `swapchain, `swapchainImages, `swapchainImageViews, `colorTarget, `depthTarget
      ensures Inv()
      ensures |swapchainImages| == swapchainImageCount && |swapchainImageViews| == swapchainImageCount
      ensures trace == old(trace) + LastSwapchainEvents(NullHandle, 0)
    {
      NoSwapchainYet(st, ResidentObjs(frames, modelPipeline, modelPipelineLayout, model, skybox), swapchain, Core(device, surface, instance));
      Rebuild(trace);
    }

    /** vkCreatePipelineLayout, then vkCreateGraphicsPipelines with it. */
    method CreateModelPipeline()
      requires Inv() && modelPipelineLayout == NullHandle && modelPipeline == NullHandle
      modifies `trace, `st, `next, `modelPipelineLayout, `modelPipeline
      ensures Inv() && modelPipelineLayout == old(next) && modelPipeline == old(next) + 1 && next == old(next) + 2
      ensures trace == old(trace) + [Create(PipelineLayoutObject, modelPipelineLayout, NoInfo), Create(PipelineObject, modelPipeline, NoInfo)]
    {
      ghost var st0 := st;
      var layout := CreateObject(PipelineLayoutObject, NoInfo);
      var pipeline := CreateObject(PipelineObject, NoInfo);
      PipelineMade(st0, st, frames, model, skybox, SwapchainObjs(colorTarget, depthTarget, swapchainImageViews, swapchain),
        Core(device, surface, instance), layout, pipeline);
      modelPipelineLayout, modelPipeline := layout, pipeline;
      Snoc2(old(trace), Create(PipelineLayoutObject, layout, NoInfo), Create(PipelineObject, pipeline, NoInfo));
    }

    /** The calls for one per-frame slot, with the driver's next handles. */
    method MakeFrame() returns (f: PerFrame)
      requires Valid()
      modifies `trace, `st, `next
      ensures Valid() && f == PerFrame(old(next), old(next) + 1, old(next) + 2, old(next) + 3, old(next) + 4)
      ensures next == old(next) + 5
      ensures trace == old(trace) + FrameEvents(f, families.graphics)
      ensures Moved(old(st), st, {}, FrameMap(f))
    {
      var pool := CreateObject(CommandPoolObject, CommandPoolCreate(families.graphics, true));
      var cb := NewHandle();
      Accepted(AllocateCommandBuffer(pool, cb));
      var acquire := CreateObject(SemaphoreObject, NoInfo);
      var present := CreateObject(SemaphoreObject, NoInfo);
      var fence := CreateObject(FenceObject, FenceCreate(true));
      f := PerFrame(pool, cb, acquire, present, fence);
      Snoc5(old(trace), Create(CommandPoolObject, pool, CommandPoolCreate(families.graphics, true)), AllocateCommandBuffer(pool, cb),
        Create(SemaphoreObject, acquire, NoInfo), Create(SemaphoreObject, present, NoInfo), Create(FenceObject, fence, FenceCreate(true)));
      Updates4(old(st).live, pool, CommandPoolObject, acquire, SemaphoreObject, present, SemaphoreObject, fence, FenceObject);
    }

    /** Slot i of m_perFrameData filled. */
    method CreateFrame(i: nat)
      requires Inv() && i < |frames| && frames[i] == NoFrame
      modifies `trace, `st, `next, `frames
      ensures Inv() && frames == old(frames)[i := frames[i]]
      ensures frames[i] == PerFrame(old(next), old(next) + 1, old(next) + 2, old(next) + 3, old(next) + 4) && next == old(next) + 5
      ensures trace == old(trace) + FrameEvents(frames[i], families.graphics)
    {
      ghost var st0 := st;
      var f := MakeFrame();
      FrameMade(st0, st, frames, i, f, modelPipeline, modelPipelineLayout, model, skybox,
        SwapchainObjs(colorTarget, depthTarget, swapchainImageViews, swapchain), Core(device, surface, instance));
      frames := frames[i := f];
    }

    /** The loop over the m_framesInFlight slots. */
    method CreateFrames()
      requires Inv() && forall j :: 0 <= j < |frames| ==> frames[j] == NoFrame
      modifies `trace, `st, `next, `frames
      ensures Inv() && trace == old(trace) + FramesEvents(frames, families.graphics)
    {
      var i := 0;
      while i < FRAMES_IN_FLIGHT
        invariant 0 <= i <= FRAMES_IN_FLIGHT && Inv()
        invariant forall j :: i <= j < |frames| ==> frames[j] == NoFrame
        invariant trace == old(trace) + FramesEvents(frames[..i], families.graphics)
      {
        ghost var before := frames;
        CreateFrame(i);
        assert frames[..i] == before[..i];
        FramesEventsSnoc(frames, i, families.graphics);
        Assoc(old(trace), FramesEvents(frames[..i], families.graphics), FrameEvents(frames[i], families.graphics));
        i := i + 1;
      }
      assert frames[..i] == frames;
    }

    // -------------------------------------------------------------------
    // ~Renderer

    /** Calls recorded whatever the ledger says of them. */
    method RecordAll(es: seq<Event>)
      modifies `trace
      ensures trace == old(trace) + es
      ensures Replay(trace) == After(Replay(old(trace)), es)
    {
      ApplyAllAppend(Initial, trace, es);
      trace := trace + es;
    }

    /** ~Renderer as written: wait for the device, destroy the frames, the
        pipeline and its layout, the model, the targets and the swapchain,
        then the device, the surface and the instance. Once a swapchain has
        been made with an image, its view is still live when the device is
        destroyed, and the trace is invalid. */
    method Destructor()
      requires Inv() && device != NullHandle
      modifies `trace
      ensures trace == old(trace) + Shutdown(DestructorObjs(frames, modelPipeline, modelPipelineLayout, model, colorTarget, depthTarget, swapchain), device, surface, instance)
      ensures (exists k :: 0 <= k < |swapchainImageViews| && swapchainImageViews[k] != NullHandle) ==> Replay(trace) == None
    {
      ghost var st0 := st;
      RecordAll(Shutdown(DestructorObjs(frames, modelPipeline, modelPipelineLayout, model, colorTarget, depthTarget, swapchain), device, surface, instance));
      ghost var viewLive := exists k :: 0 <= k < |swapchainImageViews| && swapchainImageViews[k] != NullHandle;
      if viewLive {
        ghost var k :| 0 <= k < |swapchainImageViews| && swapchainImageViews[k] != NullHandle;
        DestructorLeavesViews(st0, frames, modelPipeline, modelPipelineLayout, model, skybox,
          colorTarget, depthTarget, swapchainImageViews, swapchain, device, surface, instance, k);
      }
    }

    /** ~Renderer destroying every view of the swapchain before the
        swapchain, and the skybox with the model: the trace stays valid and
        nothing is left live. */
    method DestructorDestroyingViews()
      requires Inv()
      modifies `trace, `st
      ensures Valid() && st.live == map[]
      ensures trace == old(trace) + Shutdown(ResidentObjs(frames, modelPipeline, modelPipelineLayout, model, skybox)
        + SwapchainObjs(colorTarget, depthTarget, swapchainImageViews, swapchain), device, surface, instance)
    {
      var children := ResidentObjs(frames, modelPipeline, modelPipelineLayout, model, skybox)
        + SwapchainObjs(colorTarget, depthTarget, swapchainImageViews, swapchain);
      HeldAreDeviceChildren(frames, modelPipeline, modelPipelineLayout, model, skybox, colorTarget, depthTarget, swapchainImageViews, swapchain);
      ShutdownReleasesAll(st, children, device, surface, instance);
      ShutdownNoCreates(children, device, surface, instance);
      CallAll(Shutdown(children, device, surface, instance));
    }
  }
}
