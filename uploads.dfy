/** The ends of createModel and createSkybox on the ledger, and
    destroyModel and destroySkybox.

    Both uploads submit the recorded transfer stream signalling the
    transfer-to-compute semaphore and the compute stream waiting on it,
    drain the transfer queue before destroying the staging buffers, and
    drain the compute queue before destroying the temporary views (and,
    for the skybox, the source image). The lemmas show that this order
    returns the ledger to idle having released exactly those objects and
    nothing the stored model or skybox holds, and that destroying any of
    them before its queue is drained makes the trace invalid. */
module Uploads {
  import opened Vk
  import opened Commands
  import opened Ledger
  import opened Ownership
  import opened Renderer

  /** What createModel has recorded and made by the time it submits: the
      two streams, the staging buffers (one per image, then the material,
      vertex, index and indirect ones) and the views of mip levels 1 and up. */
  datatype ModelUpload = ModelUpload(
    transfer: seq<Cmd>, compute: seq<Cmd>,
    imageStaging: seq<Buffer>, materialStaging: Buffer,
    vertexStaging: Buffer, indexStaging: Buffer, indirectStaging: Buffer,
    mipViews: seq<Handle>)

  /** What createSkybox records and makes: the transfer stream, the calls
      between the two submits (the three cube images and their views), the
      compute stream, the staging buffer, the source image, the three cube
      images with their default views, and the per-level views. */
  datatype SkyboxUpload = SkyboxUpload(
    transfer: seq<Cmd>, made: seq<Event>, compute: seq<Cmd>,
    staging: Buffer, source: Image,
    environmentMap: Image, irradianceMap: Image, radianceMap: Image,
    mipViews: seq<Handle>)

  function SubmitTransfer(p: Provided, transfer: seq<Cmd>): Event
  {
    Submit(TransferQueue, p.transferCmd, transfer, None, Some(p.transferToComputeSem))
  }

  function SubmitCompute(p: Provided, compute: seq<Cmd>): Event
  {
    Submit(ComputeQueue, p.computeCmd, compute, Some(p.transferToComputeSem), None)
  }

  /** destroyBuffer on each buffer of a list, in order. */
  function DestroyBuffersEvents(bs: seq<Buffer>): seq<Event>
  {
    if bs == [] then [] else DestroyBufferEvents(bs[0]) + DestroyBuffersEvents(bs[1..])
  }

  /** destroyImage on each image of a list, in order. */
  function DestroyImagesEvents(imgs: seq<Image>): seq<Event>
  {
    if imgs == [] then [] else DestroyImageEvents(imgs[0]) + DestroyImagesEvents(imgs[1..])
  }

  /** vkDestroyImageView on each view of a list, in order. */
  function DestroyViewsEvents(views: seq<Handle>): seq<Event>
  {
    if views == [] then [] else [Destroy(ViewObject, views[0])] + DestroyViewsEvents(views[1..])
  }

  /** vkDestroySampler on each sampler of a list, in order. */
  function DestroySamplersEvents(samplers: seq<Handle>): seq<Event>
  {
    if samplers == [] then [] else [Destroy(SamplerObject, samplers[0])] + DestroySamplersEvents(samplers[1..])
  }

  /** createModel from its two submits to its end. */
  function ModelUploadEvents(p: Provided, u: ModelUpload): seq<Event>
  {
    [SubmitTransfer(p, u.transfer), SubmitCompute(p, u.compute), QueueWaitIdle(TransferQueue)]
    + DestroyBuffersEvents(u.imageStaging) + DestroyBufferEvents(u.materialStaging)
    + DestroyBufferEvents(u.vertexStaging) + DestroyBufferEvents(u.indexStaging) + DestroyBufferEvents(u.indirectStaging)
    + [ResetCommandPool(p.transferPool, p.transferCmd), QueueWaitIdle(ComputeQueue)]
    + DestroyViewsEvents(u.mipViews)
    + [ResetCommandPool(p.computePool, p.computeCmd)]
  }

  /** createSkybox from its transfer submit to its end. */
  function SkyboxUploadEvents(p: Provided, u: SkyboxUpload): seq<Event>
  {
    [SubmitTransfer(p, u.transfer)] + u.made
    + [SubmitCompute(p, u.compute), QueueWaitIdle(TransferQueue), ResetCommandPool(p.transferPool, p.transferCmd)]
    + DestroyBufferEvents(u.staging)
    + [QueueWaitIdle(ComputeQueue), ResetCommandPool(p.computePool, p.computeCmd)]
    + DestroyImageEvents(u.source) + DestroyViewsEvents(SkyboxDefaultViews(u) + u.mipViews)
  }

  /** The default views createImage gave the three cube images, destroyed
      at the end of createSkybox. */
  function SkyboxDefaultViews(u: SkyboxUpload): seq<Handle>
  {
    [u.environmentMap.view, u.irradianceMap.view, u.radianceMap.view]
  }

  /** What createSkybox stores: the three images with their views replaced
      by the sampled views. */
  function StoredSkybox(u: SkyboxUpload, environmentView: Handle, irradianceView: Handle, radianceView: Handle): Skybox
  {
    Skybox(u.environmentMap.(view := environmentView), u.irradianceMap.(view := irradianceView),
      u.radianceMap.(view := radianceView))
  }

  /** destroyModel: the images, the samplers, the descriptor pool, then the
      material, vertex, index and indirect buffers. */
  function DestroyModelEvents(m: Model): seq<Event>
  {
    DestroyImagesEvents(m.images) + DestroySamplersEvents(m.samplers) + [Destroy(DescriptorPoolObject, m.texPool)]
    + DestroyBufferEvents(m.materialBuffer) + DestroyBufferEvents(m.vertexBuffer)
    + DestroyBufferEvents(m.indexBuffer) + DestroyBufferEvents(m.indirectBuffer)
  }

  /** destroySkybox: the environment, irradiance and radiance images. */
  function DestroySkyboxEvents(s: Skybox): seq<Event>
  {
    DestroyImageEvents(s.environmentMap) + DestroyImageEvents(s.irradianceMap) + DestroyImageEvents(s.radianceMap)
  }

  // ---------------------------------------------------------------------
  // The objects each routine destroys

  function BuffersObjs(bs: seq<Buffer>): seq<Obj>
  {
    if bs == [] then [] else BufferObjs(bs[0]) + BuffersObjs(bs[1..])
  }

  /** createModel's staging buffers, in the order it destroys them. */
  function ModelStaging(u: ModelUpload): seq<Obj>
  {
    BuffersObjs(u.imageStaging) + BufferObjs(u.materialStaging) + BufferObjs(u.vertexStaging)
    + BufferObjs(u.indexStaging) + BufferObjs(u.indirectStaging)
  }

  /** What createSkybox destroys after the compute queue is drained. */
  function SkyboxTemps(u: SkyboxUpload): seq<Obj>
  {
    ImageObjs(u.source) + ViewObjs(SkyboxDefaultViews(u) + u.mipViews)
  }

  lemma DestroyBufferIsTeardown(b: Buffer)
    ensures DestroyBufferEvents(b) == Teardown(BufferObjs(b))
  {
  }

  lemma DestroyImageIsTeardown(img: Image)
    ensures DestroyImageEvents(img) == Teardown(ImageObjs(img))
  {
  }

  lemma {:induction false} DestroyBuffersIsTeardown(bs: seq<Buffer>)
    ensures DestroyBuffersEvents(bs) == Teardown(BuffersObjs(bs))
    decreases |bs|
  {
    if bs != [] {
      DestroyBuffersIsTeardown(bs[1..]);
      TeardownAppend(BufferObjs(bs[0]), BuffersObjs(bs[1..]));
    }
  }

  lemma {:induction false} DestroyImagesIsTeardown(imgs: seq<Image>)
    ensures DestroyImagesEvents(imgs) == Teardown(ImagesObjs(imgs))
    decreases |imgs|
  {
    if imgs != [] {
      DestroyImagesIsTeardown(imgs[1..]);
      TeardownAppend(ImageObjs(imgs[0]), ImagesObjs(imgs[1..]));
    }
  }

  lemma {:induction false} DestroyViewsIsTeardown(views: seq<Handle>)
    ensures DestroyViewsEvents(views) == Teardown(ViewObjs(views))
    decreases |views|
  {
    if views != [] {
      DestroyViewsIsTeardown(views[1..]);
      assert ViewObjs(views) == [Obj(ViewObject, views[0])] + ViewObjs(views[1..]);
      TeardownAppend([Obj(ViewObject, views[0])], ViewObjs(views[1..]));
    }
  }

  lemma {:induction false} DestroySamplersIsTeardown(samplers: seq<Handle>)
    ensures DestroySamplersEvents(samplers) == Teardown(SamplerObjs(samplers))
    decreases |samplers|
  {
    if samplers != [] {
      DestroySamplersIsTeardown(samplers[1..]);
      assert SamplerObjs(samplers) == [Obj(SamplerObject, samplers[0])] + SamplerObjs(samplers[1..]);
      TeardownAppend([Obj(SamplerObject, samplers[0])], SamplerObjs(samplers[1..]));
    }
  }

  /** destroyModel destroys exactly the objects the renderer holds for the
      model, in order. */
  lemma DestroyModelIsTeardown(m: Model)
    ensures DestroyModelEvents(m) == Teardown(ModelObjs(m))
  {
    var imgs, smps, pool := ImagesObjs(m.images), SamplerObjs(m.samplers), [Obj(DescriptorPoolObject, m.texPool)];
    var b0, b1, b2, b3 := BufferObjs(m.materialBuffer), BufferObjs(m.vertexBuffer), BufferObjs(m.indexBuffer), BufferObjs(m.indirectBuffer);
    DestroyImagesIsTeardown(m.images);
    DestroySamplersIsTeardown(m.samplers);
    TeardownAppend(imgs, smps);
    TeardownAppend(imgs + smps, pool);
    TeardownAppend(imgs + smps + pool, b0);
    TeardownAppend(imgs + smps + pool + b0, b1);
    TeardownAppend(imgs + smps + pool + b0 + b1, b2);
    TeardownAppend(imgs + smps + pool + b0 + b1 + b2, b3);
  }

  /** destroySkybox destroys exactly the objects the renderer holds for the
      skybox, in order. */
  lemma DestroySkyboxIsTeardown(s: Skybox)
    ensures DestroySkyboxEvents(s) == Teardown(SkyboxObjs(s))
  {
    TeardownAppend(ImageObjs(s.environmentMap), ImageObjs(s.irradianceMap));
    TeardownAppend(ImageObjs(s.environmentMap) + ImageObjs(s.irradianceMap), ImageObjs(s.radianceMap));
  }

  /** destroyModel on a model whose objects are live, held once each and not
      in use by a queue releases exactly them. */
  lemma DestroyModelReleases(st: State, m: Model)
    requires NullHandle !in st.live && Free(st, ModelObjs(m))
    requires Holds(st, ModelObjs(m)) && Distinct(ModelObjs(m))
    ensures ApplyAll(st, DestroyModelEvents(m)) == Some(st.(live := st.live - Released(ModelObjs(m))))
  {
    DestroyModelIsTeardown(m);
    ModelAreDeviceChildren(m);
    TeardownReleases(st, ModelObjs(m));
  }

  /** The same for destroySkybox. */
  lemma DestroySkyboxReleases(st: State, s: Skybox)
    requires NullHandle !in st.live && Free(st, SkyboxObjs(s))
    requires Holds(st, SkyboxObjs(s)) && Distinct(SkyboxObjs(s))
    ensures ApplyAll(st, DestroySkyboxEvents(s)) == Some(st.(live := st.live - Released(SkyboxObjs(s))))
  {
    DestroySkyboxIsTeardown(s);
    assert DeviceChildren(SkyboxObjs(s));
    TeardownReleases(st, SkyboxObjs(s));
  }

  // ---------------------------------------------------------------------
  // The queue steps

  /** One call after another, as a trace. */
  lemma Then(st: State, a: seq<Event>, mid: State, b: seq<Event>)
    requires ApplyAll(st, a) == Some(mid)
    ensures ApplyAll(st, a + b) == ApplyAll(mid, b)
  {
    ApplyAllAppend(st, a, b);
  }

  lemma One(st: State, e: Event)
    ensures ApplyAll(st, [e]) == Apply(st, e)
  {
    assert [e][1..] == [];
  }

  /** The transfer submit on an idle ledger: the transfer queue is using the
      stream's objects and its command buffer, and the semaphore is
      signalled. */
  lemma TransferSubmitted(st: State, p: Provided, transfer: seq<Cmd>)
    requires Idle(st) && Uses(transfer) <= st.live.Keys
    ensures Apply(st, SubmitTransfer(p, transfer))
      == Some(st.(busy := Pending(TransferQueue, Uses(transfer) + {p.transferCmd}), signalled := {p.transferToComputeSem}))
  {
    assert !Busy(st, p.transferCmd);
    assert st.busy + Pending(TransferQueue, Uses(transfer) + {p.transferCmd}) == Pending(TransferQueue, Uses(transfer) + {p.transferCmd});
    assert st.signalled + {p.transferToComputeSem} == {p.transferToComputeSem};
  }

  /** The compute submit while the transfer is pending: the compute queue is
      using its stream's objects too, and the wait consumes the signal. */
  lemma ComputeSubmitted(st: State, p: Provided, transfer: seq<Cmd>, compute: seq<Cmd>)
    requires st.busy == Pending(TransferQueue, Uses(transfer) + {p.transferCmd})
    requires st.signalled == {p.transferToComputeSem} && Uses(compute) <= st.live.Keys
    requires p.computeCmd != p.transferCmd && p.computeCmd !in Uses(transfer)
    ensures Apply(st, SubmitCompute(p, compute))
      == Some(st.(busy := st.busy + Pending(ComputeQueue, Uses(compute) + {p.computeCmd}), signalled := {}))
  {
    assert !Busy(st, p.computeCmd);
    assert st.signalled - {p.transferToComputeSem} == {};
  }

  /** Draining the transfer queue leaves the compute queue's work. */
  lemma TransferDrained(st: State, a: set<Handle>, b: set<Handle>)
    requires st.busy == Pending(TransferQueue, a) + Pending(ComputeQueue, b)
    ensures Apply(st, QueueWaitIdle(TransferQueue)) == Some(st.(busy := Pending(ComputeQueue, b)))
  {
    var left := set x | x in st.busy && x.0 != TransferQueue;
    assert left == Pending(ComputeQueue, b) by {
      forall x | x in Pending(ComputeQueue, b) ensures x in left {
        assert x.0 == ComputeQueue;
      }
    }
  }

  /** Draining the compute queue, when it alone has work, leaves none. */
  lemma ComputeDrained(st: State, b: set<Handle>)
    requires st.busy == Pending(ComputeQueue, b)
    ensures Apply(st, QueueWaitIdle(ComputeQueue)) == Some(st.(busy := {}))
  {
    var left := set x | x in st.busy && x.0 != ComputeQueue;
    assert left == {} by {
      forall x | x in st.busy ensures x.0 == ComputeQueue {
      }
    }
  }

  /** Only the compute queue has work, on b: anything outside b is free. */
  lemma FreeOutside(st: State, b: set<Handle>, objs: seq<Obj>)
    requires st.busy == Pending(ComputeQueue, b)
    requires forall o <- objs :: o.handle !in b
    ensures Free(st, objs)
  {
  }

  // ---------------------------------------------------------------------
  // Releasing some objects keeps the rest

  lemma ReleasedAppend(a: seq<Obj>, b: seq<Obj>)
    ensures Released(a + b) == Released(a) + Released(b)
  {
    KeysAppend(a, b);
  }

  /** Objects held once each alongside `gone` stay held when `gone` is
      released. */
  lemma Survives(st: State, gone: seq<Obj>, kept: seq<Obj>)
    requires Holds(st, kept) && Distinct(gone + kept)
    ensures Holds(st.(live := st.live - Released(gone)), kept)
  {
    var all := gone + kept;
    forall k | 0 <= k < |kept| && kept[k].handle != NullHandle
      ensures kept[k].handle !in Released(gone)
    {
      assert all[|gone| + k] == kept[k];
      forall j | 0 <= j < |gone| ensures gone[j].handle != kept[k].handle {
        assert all[j] == gone[j];
        DistinctAt(all, |gone| + k, j);
      }
    }
  }

  // ---------------------------------------------------------------------
  // createModel

  /** What the upload at the end of createModel relies on: both streams use
      live objects; the two command buffers are different and neither
      stream names the other's; the staging buffers and mip views are live,
      held once each, and made from the device; and the compute stream
      names no staging buffer. */
  predicate ModelUploadReady(st: State, p: Provided, u: ModelUpload)
  {
    && Uses(u.transfer) <= st.live.Keys && Uses(u.compute) <= st.live.Keys
    && p.computeCmd != p.transferCmd && p.computeCmd !in Uses(u.transfer) && p.transferCmd !in Uses(u.compute)
    && NullHandle !in st.live
    && Holds(st, ModelStaging(u)) && Holds(st, ViewObjs(u.mipViews))
    && Distinct(ModelStaging(u) + ViewObjs(u.mipViews))
    && DeviceChildren(ModelStaging(u))
    && forall o <- ModelStaging(u) :: o.handle !in Uses(u.compute) && o.handle != p.computeCmd
  }

  /** The upload's calls with the destroy loops written as teardowns. */
  lemma ModelUploadShape(p: Provided, u: ModelUpload)
    ensures ModelUploadEvents(p, u)
      == [SubmitTransfer(p, u.transfer), SubmitCompute(p, u.compute), QueueWaitIdle(TransferQueue)]
        + Teardown(ModelStaging(u))
        + [ResetCommandPool(p.transferPool, p.transferCmd), QueueWaitIdle(ComputeQueue)]
        + Teardown(ViewObjs(u.mipViews))
        + [ResetCommandPool(p.computePool, p.computeCmd)]
  {
    var s0, s1, s2, s3, s4 := BuffersObjs(u.imageStaging), BufferObjs(u.materialStaging), BufferObjs(u.vertexStaging),
      BufferObjs(u.indexStaging), BufferObjs(u.indirectStaging);
    DestroyBuffersIsTeardown(u.imageStaging);
    DestroyViewsIsTeardown(u.mipViews);
    TeardownAppend(s0, s1);
    TeardownAppend(s0 + s1, s2);
    TeardownAppend(s0 + s1 + s2, s3);
    TeardownAppend(s0 + s1 + s2 + s3, s4);
  }

  /** The two submits of createModel, then the transfer drain, from an idle
      ledger: only the compute queue still has work. */
  lemma ModelSubmitted(st: State, p: Provided, u: ModelUpload)
    requires Idle(st) && ModelUploadReady(st, p, u)
    ensures ApplyAll(st, [SubmitTransfer(p, u.transfer), SubmitCompute(p, u.compute), QueueWaitIdle(TransferQueue)])
      == Some(st.(busy := Pending(ComputeQueue, Uses(u.compute) + {p.computeCmd})))
  {
    var t, c, w := SubmitTransfer(p, u.transfer), SubmitCompute(p, u.compute), QueueWaitIdle(TransferQueue);
    TransferSubmitted(st, p, u.transfer);
    var st1 := Apply(st, t).value;
    ComputeSubmitted(st1, p, u.transfer, u.compute);
    var st2 := Apply(st1, c).value;
    TransferDrained(st2, Uses(u.transfer) + {p.transferCmd}, Uses(u.compute) + {p.computeCmd});
    One(st2, w);
    assert [t, c, w][1..] == [c, w] && [c, w][1..] == [w];
  }

  /** While only the compute queue has work, on b, objects outside b can be
      destroyed. */
  lemma ReleasedWhileComputing(st: State, b: set<Handle>, objs: seq<Obj>)
    requires st.busy == Pending(ComputeQueue, b) && NullHandle !in st.live
    requires Holds(st, objs) && Distinct(objs) && DeviceChildren(objs)
    requires forall o <- objs :: o.handle !in b
    ensures ApplyAll(st, Teardown(objs)) == Some(st.(live := st.live - Released(objs)))
  {
    FreeOutside(st, b, objs);
    TeardownReleases(st, objs);
  }

  /** With no queue busy, held objects can be destroyed. */
  lemma ReleasedWhenIdle(st: State, objs: seq<Obj>)
    requires st.busy == {} && NullHandle !in st.live
    requires Holds(st, objs) && Distinct(objs) && DeviceChildren(objs)
    ensures ApplyAll(st, Teardown(objs)) == Some(st.(live := st.live - Released(objs)))
  {
    IdleFree(st, objs);
    TeardownReleases(st, objs);
  }

  /** After the transfer drain: the staging buffers go, the transfer pool
      is reset, and the compute queue is drained. */
  lemma ModelStagingReleased(st: State, p: Provided, staging: seq<Obj>, b: set<Handle>)
    requires st.busy == Pending(ComputeQueue, b) && NullHandle !in st.live
    requires Holds(st, staging) && Distinct(staging) && DeviceChildren(staging)
    requires forall o <- staging :: o.handle !in b
    requires p.transferCmd !in b
    ensures ApplyAll(st, Teardown(staging) + [ResetCommandPool(p.transferPool, p.transferCmd), QueueWaitIdle(ComputeQueue)])
      == Some(st.(live := st.live - Released(staging), busy := {}))
  {
    ReleasedWhileComputing(st, b, staging);
    var s1 := st.(live := st.live - Released(staging));
    Then(st, Teardown(staging), s1, [ResetCommandPool(p.transferPool, p.transferCmd), QueueWaitIdle(ComputeQueue)]);
    ResetThenDrain(s1, p, b);
  }

  /** The transfer pool reset while the compute queue works on b, then the
      compute drain. */
  lemma ResetThenDrain(st: State, p: Provided, b: set<Handle>)
    requires st.busy == Pending(ComputeQueue, b) && p.transferCmd !in b
    ensures ApplyAll(st, [ResetCommandPool(p.transferPool, p.transferCmd), QueueWaitIdle(ComputeQueue)]) == Some(st.(busy := {}))
  {
    var r, w := ResetCommandPool(p.transferPool, p.transferCmd), QueueWaitIdle(ComputeQueue);
    assert Apply(st, r) == Some(st);
    ComputeDrained(st, b);
    One(st, w);
    assert [r, w][1..] == [w];
  }

  /** With no queue busy: the mip views go and the compute pool is reset. */
  lemma ModelViewsReleased(st: State, p: Provided, u: ModelUpload)
    requires st.busy == {} && NullHandle !in st.live
    requires Holds(st, ViewObjs(u.mipViews)) && Distinct(ViewObjs(u.mipViews))
    ensures ApplyAll(st, Teardown(ViewObjs(u.mipViews)) + [ResetCommandPool(p.computePool, p.computeCmd)])
      == Some(st.(live := st.live - Released(ViewObjs(u.mipViews))))
  {
    var views := ViewObjs(u.mipViews);
    ReleasedWhenIdle(st, views);
    var s1 := st.(live := st.live - Released(views));
    Then(st, Teardown(views), s1, [ResetCommandPool(p.computePool, p.computeCmd)]);
    One(s1, ResetCommandPool(p.computePool, p.computeCmd));
  }

  /** The end of createModel, from an idle ledger, is valid and leaves the
      ledger idle again with exactly the staging buffers and the mip views
      released. */
  lemma ModelUploadReleases(st: State, p: Provided, u: ModelUpload)
    requires Idle(st) && ModelUploadReady(st, p, u)
    ensures ApplyAll(st, ModelUploadEvents(p, u))
      == Some(st.(live := st.live - Released(ModelStaging(u)) - Released(ViewObjs(u.mipViews))))
  {
    var staging, views := ModelStaging(u), ViewObjs(u.mipViews);
    var e1 := [SubmitTransfer(p, u.transfer), SubmitCompute(p, u.compute), QueueWaitIdle(TransferQueue)];
    var e2 := Teardown(staging) + [ResetCommandPool(p.transferPool, p.transferCmd), QueueWaitIdle(ComputeQueue)];
    var e3 := Teardown(views) + [ResetCommandPool(p.computePool, p.computeCmd)];
    ModelUploadShape(p, u);
    assert ModelUploadEvents(p, u) == e1 + e2 + e3;
    ModelSubmitted(st, p, u);
    var b := Uses(u.compute) + {p.computeCmd};
    var s1 := st.(busy := Pending(ComputeQueue, b));
    DistinctPrefix(staging, views);
    ModelStagingReleased(s1, p, staging, b);
    Then(st, e1, s1, e2);
    var s2 := st.(live := st.live - Released(staging));
    Survives(st, staging, views);
    DistinctSuffix(staging, views);
    ModelViewsReleased(s2, p, u);
    Then(st, e1 + e2, s2, e3);
  }

  /** A trace that releases `first` and then `second` leaves what is held
      once each alongside them held. */
  lemma KeptThrough(st: State, es: seq<Event>, after: State, first: seq<Obj>, second: seq<Obj>, kept: seq<Obj>)
    requires ApplyAll(st, es) == Some(after.(live := after.live - Released(first) - Released(second)))
    requires Holds(after, kept) && Distinct(first + second + kept)
    ensures ApplyAll(st, es).Some? && Holds(ApplyAll(st, es).value, kept)
  {
    ReleasedAppend(first, second);
    Survives(after, first + second, kept);
    assert after.live - Released(first) - Released(second) == after.live - Released(first + second);
  }

  /** What the stored model holds is still live after the upload, when it
      is held once each alongside the staging buffers and mip views. */
  lemma ModelUploadKeeps(st: State, p: Provided, u: ModelUpload, m: Model)
    requires Idle(st) && ModelUploadReady(st, p, u)
    requires Holds(st, ModelObjs(m)) && Distinct(ModelStaging(u) + ViewObjs(u.mipViews) + ModelObjs(m))
    ensures ApplyAll(st, ModelUploadEvents(p, u)).Some?
    ensures Holds(ApplyAll(st, ModelUploadEvents(p, u)).value, ModelObjs(m))
  {
    ModelUploadReleases(st, p, u);
    KeptThrough(st, ModelUploadEvents(p, u), st, ModelStaging(u), ViewObjs(u.mipViews), ModelObjs(m));
  }

  /** Destroying a staging buffer the transfer stream copies from before
      the transfer queue is drained makes the trace invalid, whatever
      follows. */
  lemma ModelStagingEarlyFails(st: State, p: Provided, u: ModelUpload, k: nat, rest: seq<Event>)
    requires k < |ModelStaging(u)| && ModelStaging(u)[k].handle != NullHandle
    requires ModelStaging(u)[k].handle in Uses(u.transfer)
    ensures ApplyAll(st, [SubmitTransfer(p, u.transfer), SubmitCompute(p, u.compute)] + Teardown(ModelStaging(u)) + rest) == None
  {
    var t, c, es := SubmitTransfer(p, u.transfer), SubmitCompute(p, u.compute), Teardown(ModelStaging(u)) + rest;
    var h := ModelStaging(u)[k].handle;
    assert [t, c] + Teardown(ModelStaging(u)) + rest == [t, c] + es;
    ApplyAllAppend(st, [t, c], es);
    assert [t, c][1..] == [c];
    match Apply(st, t)
    case None =>
    case Some(st1) =>
      SubmitMakesBusy(st, TransferQueue, p.transferCmd, u.transfer, None, Some(p.transferToComputeSem), h);
      match Apply(st1, c)
      case None => One(st1, c);
      case Some(st2) =>
        One(st1, c);
        assert (TransferQueue, h) in st2.busy;
        assert es[k] == Destroy(ModelStaging(u)[k].kind, h);
        assert NoWaitOn(es[..k], TransferQueue) by {
          forall i | 0 <= i < k ensures es[..k][i].Destroy? {
            assert es[..k][i] == es[i];
          }
        }
        DestroyBeforeIdleFails(st2, es, k, TransferQueue);
  }

  /** Destroying a mip view the compute stream binds before the compute
      queue is drained makes the trace invalid, whatever comes between
      (short of a wait on the compute queue or the device) and after. */
  lemma ModelViewEarlyFails(st: State, p: Provided, u: ModelUpload, between: seq<Event>, k: nat, rest: seq<Event>)
    requires NoWaitOn(between, ComputeQueue)
    requires k < |u.mipViews| && u.mipViews[k] != NullHandle && u.mipViews[k] in Uses(u.compute)
    ensures ApplyAll(st, [SubmitTransfer(p, u.transfer), SubmitCompute(p, u.compute)] + between + Teardown(ViewObjs(u.mipViews)) + rest) == None
  {
    var t, c, es := SubmitTransfer(p, u.transfer), SubmitCompute(p, u.compute), between + Teardown(ViewObjs(u.mipViews)) + rest;
    var h := u.mipViews[k];
    var n := |between| + k;
    assert [t, c] + between + Teardown(ViewObjs(u.mipViews)) + rest == [t, c] + es;
    ApplyAllAppend(st, [t, c], es);
    assert [t, c][1..] == [c];
    match Apply(st, t)
    case None =>
    case Some(st1) =>
      One(st1, c);
      match Apply(st1, c)
      case None =>
      case Some(st2) =>
        SubmitMakesBusy(st1, ComputeQueue, p.computeCmd, u.compute, Some(p.transferToComputeSem), None, h);
        assert es[n] == Destroy(ViewObject, h);
        assert NoWaitOn(es[..n], ComputeQueue) by {
          forall i | 0 <= i < n ensures es[..n][i] != DeviceWaitIdle && es[..n][i] != QueueWaitIdle(ComputeQueue) {
            assert es[..n][i] == es[i];
            if i < |between| {
              assert es[i] == between[i];
            } else {
              assert es[i] == Teardown(ViewObjs(u.mipViews))[i - |between|];
            }
          }
        }
        DestroyBeforeIdleFails(st2, es, n, ComputeQueue);
  }

  // ---------------------------------------------------------------------
  // createSkybox

  /** Calls that neither submit, wait, reset nor destroy. */
  predicate Quiet(e: Event)
  {
    e.Create? || e.BindMemory? || e.MapMemory? || e.GetBufferAddress?
  }

  /** Quiet calls leave the queues' work and the semaphores alone. */
  lemma {:induction false} QuietKeepsQueues(st: State, es: seq<Event>)
    requires forall i :: 0 <= i < |es| ==> Quiet(es[i])
    ensures ApplyAll(st, es).Some? ==> ApplyAll(st, es).value.busy == st.busy && ApplyAll(st, es).value.signalled == st.signalled
    decreases |es|
  {
    if es != [] {
      match Apply(st, es[0])
      case None =>
      case Some(st1) => QuietKeepsQueues(st1, es[1..]);
    }
  }

  /** The ledger after the transfer submit and the calls that make the
      cube images. */
  function SkyboxMade(st: State, p: Provided, u: SkyboxUpload): Option<State>
  {
    ApplyAll(st, [SubmitTransfer(p, u.transfer)] + u.made)
  }

  /** What the skybox upload relies on, once the cube images are made:
      the calls that made them were quiet and valid; both command buffers
      are different and neither stream names the other's; the compute
      stream uses live objects and names neither the staging buffer nor
      the transfer command buffer; the staging buffer, the source image and
      the temporary views are live and held once each. */
  predicate SkyboxUploadReady(st: State, p: Provided, u: SkyboxUpload)
  {
    && Idle(st) && Uses(u.transfer) <= st.live.Keys
    && (forall i :: 0 <= i < |u.made| ==> Quiet(u.made[i]))
    && SkyboxMade(st, p, u).Some?
    && var mid := SkyboxMade(st, p, u).value;
    && Uses(u.compute) <= mid.live.Keys
    && p.computeCmd != p.transferCmd && p.computeCmd !in Uses(u.transfer) && p.transferCmd !in Uses(u.compute)
    && NullHandle !in mid.live
    && Holds(mid, BufferObjs(u.staging)) && Holds(mid, SkyboxTemps(u))
    && Distinct(BufferObjs(u.staging) + SkyboxTemps(u))
    && u.staging.buffer !in Uses(u.compute) && u.staging.memory !in Uses(u.compute)
    && u.staging.buffer != p.computeCmd && u.staging.memory != p.computeCmd
  }

  lemma SkyboxUploadShape(p: Provided, u: SkyboxUpload)
    ensures SkyboxUploadEvents(p, u)
      == [SubmitTransfer(p, u.transfer)] + u.made
        + [SubmitCompute(p, u.compute), QueueWaitIdle(TransferQueue), ResetCommandPool(p.transferPool, p.transferCmd)]
        + Teardown(BufferObjs(u.staging))
        + [QueueWaitIdle(ComputeQueue), ResetCommandPool(p.computePool, p.computeCmd)]
        + Teardown(SkyboxTemps(u))
  {
    DestroyBufferIsTeardown(u.staging);
    DestroyImageIsTeardown(u.source);
    DestroyViewsIsTeardown(SkyboxDefaultViews(u) + u.mipViews);
    TeardownAppend(ImageObjs(u.source), ViewObjs(SkyboxDefaultViews(u) + u.mipViews));
  }

  /** The compute submit, the transfer drain and the transfer pool reset,
      once the cube images are made: only the compute queue has work. */
  lemma SkyboxSubmitted(st: State, p: Provided, u: SkyboxUpload)
    requires SkyboxUploadReady(st, p, u)
    ensures var mid := SkyboxMade(st, p, u).value;
      ApplyAll(mid, [SubmitCompute(p, u.compute), QueueWaitIdle(TransferQueue), ResetCommandPool(p.transferPool, p.transferCmd)])
        == Some(mid.(busy := Pending(ComputeQueue, Uses(u.compute) + {p.computeCmd}), signalled := {}))
  {
    var t := SubmitTransfer(p, u.transfer);
    var mid := SkyboxMade(st, p, u).value;
    TransferSubmitted(st, p, u.transfer);
    var st1 := Apply(st, t).value;
    One(st, t);
    Then(st, [t], st1, u.made);
    QuietKeepsQueues(st1, u.made);
    var c, w, r := SubmitCompute(p, u.compute), QueueWaitIdle(TransferQueue), ResetCommandPool(p.transferPool, p.transferCmd);
    ComputeSubmitted(mid, p, u.transfer, u.compute);
    var st2 := Apply(mid, c).value;
    TransferDrained(st2, Uses(u.transfer) + {p.transferCmd}, Uses(u.compute) + {p.computeCmd});
    var st3 := Apply(st2, w).value;
    assert !Busy(st3, p.transferCmd);
    One(st3, r);
    assert [c, w, r][1..] == [w, r] && [w, r][1..] == [r];
  }

  /** After the transfer drain: the staging buffer goes, then the compute
      queue is drained and its pool reset. */
  lemma SkyboxStagingReleased(st: State, p: Provided, staging: seq<Obj>, b: set<Handle>)
    requires st.busy == Pending(ComputeQueue, b) && NullHandle !in st.live
    requires Holds(st, staging) && Distinct(staging) && DeviceChildren(staging)
    requires forall o <- staging :: o.handle !in b
    ensures ApplyAll(st, Teardown(staging) + [QueueWaitIdle(ComputeQueue), ResetCommandPool(p.computePool, p.computeCmd)])
      == Some(st.(live := st.live - Released(staging), busy := {}))
  {
    var w, r := QueueWaitIdle(ComputeQueue), ResetCommandPool(p.computePool, p.computeCmd);
    ReleasedWhileComputing(st, b, staging);
    var s2 := st.(live := st.live - Released(staging));
    Then(st, Teardown(staging), s2, [w, r]);
    ComputeDrained(s2, b);
    One(s2.(busy := {}), r);
    assert [w, r][1..] == [r];
  }

  /** createSkybox up to the destroys after the compute drain. */
  lemma SkyboxThroughStaging(st: State, p: Provided, u: SkyboxUpload, mid: State)
    requires SkyboxUploadReady(st, p, u) && mid == SkyboxMade(st, p, u).value
    ensures ApplyAll(st, [SubmitTransfer(p, u.transfer)] + u.made
        + [SubmitCompute(p, u.compute), QueueWaitIdle(TransferQueue), ResetCommandPool(p.transferPool, p.transferCmd)]
        + (Teardown(BufferObjs(u.staging)) + [QueueWaitIdle(ComputeQueue), ResetCommandPool(p.computePool, p.computeCmd)]))
      == Some(State(mid.live - Released(BufferObjs(u.staging)), mid.created, {}, {}))
    ensures Holds(State(mid.live - Released(BufferObjs(u.staging)), mid.created, {}, {}), SkyboxTemps(u))
    ensures Distinct(SkyboxTemps(u)) && NullHandle !in mid.live
  {
    var staging, temps := BufferObjs(u.staging), SkyboxTemps(u);
    var e0 := [SubmitTransfer(p, u.transfer)] + u.made;
    var e1 := [SubmitCompute(p, u.compute), QueueWaitIdle(TransferQueue), ResetCommandPool(p.transferPool, p.transferCmd)];
    var e2 := Teardown(staging) + [QueueWaitIdle(ComputeQueue), ResetCommandPool(p.computePool, p.computeCmd)];
    SkyboxSubmitted(st, p, u);
    var s1 := mid.(busy := Pending(ComputeQueue, Uses(u.compute) + {p.computeCmd}), signalled := {});
    Then(st, e0, mid, e1);
    DistinctPrefix(staging, temps);
    assert DeviceChildren(staging);
    SkyboxStagingReleased(s1, p, staging, Uses(u.compute) + {p.computeCmd});
    Then(st, e0 + e1, s1, e2);
    Survives(mid, staging, temps);
    DistinctSuffix(staging, temps);
  }

  /** The end of createSkybox is valid and leaves the ledger idle with
      exactly the staging buffer, the source image and the temporary views
      released. */
  lemma SkyboxUploadReleases(st: State, p: Provided, u: SkyboxUpload)
    requires SkyboxUploadReady(st, p, u)
    ensures var mid := SkyboxMade(st, p, u).value;
      ApplyAll(st, SkyboxUploadEvents(p, u))
        == Some(State(mid.live - Released(BufferObjs(u.staging)) - Released(SkyboxTemps(u)), mid.created, {}, {}))
  {
    var mid := SkyboxMade(st, p, u).value;
    var staging, temps := BufferObjs(u.staging), SkyboxTemps(u);
    var e0 := [SubmitTransfer(p, u.transfer)] + u.made;
    var e1 := [SubmitCompute(p, u.compute), QueueWaitIdle(TransferQueue), ResetCommandPool(p.transferPool, p.transferCmd)];
    var e2 := Teardown(staging) + [QueueWaitIdle(ComputeQueue), ResetCommandPool(p.computePool, p.computeCmd)];
    SkyboxUploadShape(p, u);
    assert SkyboxUploadEvents(p, u) == e0 + e1 + e2 + Teardown(temps);
    SkyboxThroughStaging(st, p, u, mid);
    var s3 := State(mid.live - Released(staging), mid.created, {}, {});
    assert DeviceChildren(temps);
    ReleasedWhenIdle(s3, temps);
    Then(st, e0 + e1 + e2, s3, Teardown(temps));
  }

  /** What the stored skybox holds, its images and sampled views, is still
      live after the upload, when it is held once each alongside what the
      upload destroys. */
  lemma SkyboxUploadKeeps(st: State, p: Provided, u: SkyboxUpload, environmentView: Handle, irradianceView: Handle, radianceView: Handle)
    requires SkyboxUploadReady(st, p, u)
    requires var kept := SkyboxObjs(StoredSkybox(u, environmentView, irradianceView, radianceView));
      Holds(SkyboxMade(st, p, u).value, kept) && Distinct(BufferObjs(u.staging) + SkyboxTemps(u) + kept)
    ensures ApplyAll(st, SkyboxUploadEvents(p, u)).Some?
    ensures Holds(ApplyAll(st, SkyboxUploadEvents(p, u)).value, SkyboxObjs(StoredSkybox(u, environmentView, irradianceView, radianceView)))
  {
    var mid := SkyboxMade(st, p, u).value;
    SkyboxUploadReleases(st, p, u);
    KeptThrough(st, SkyboxUploadEvents(p, u), mid.(busy := {}, signalled := {}), BufferObjs(u.staging), SkyboxTemps(u),
      SkyboxObjs(StoredSkybox(u, environmentView, irradianceView, radianceView)));
  }

  /** Destroying the staging buffer, while the transfer stream that copies
      from it may still run, makes the trace invalid, whatever is made in
      between (short of a wait on the transfer queue or the device). */
  lemma SkyboxStagingEarlyFails(st: State, p: Provided, u: SkyboxUpload, between: seq<Event>, rest: seq<Event>)
    requires forall i :: 0 <= i < |u.made| ==> Quiet(u.made[i])
    requires NoWaitOn(between, TransferQueue)
    requires u.staging.buffer != NullHandle && u.staging.buffer in Uses(u.transfer)
    ensures ApplyAll(st, [SubmitTransfer(p, u.transfer)] + u.made + between + DestroyBufferEvents(u.staging) + rest) == None
  {
    var t, es := SubmitTransfer(p, u.transfer), u.made + between + DestroyBufferEvents(u.staging) + rest;
    var n := |u.made| + |between|;
    assert [t] + u.made + between + DestroyBufferEvents(u.staging) + rest == [t] + es;
    ApplyAllAppend(st, [t], es);
    One(st, t);
    match Apply(st, t)
    case None =>
    case Some(st1) =>
      SubmitMakesBusy(st, TransferQueue, p.transferCmd, u.transfer, None, Some(p.transferToComputeSem), u.staging.buffer);
      assert es[n] == Destroy(BufferObject, u.staging.buffer);
      assert NoWaitOn(es[..n], TransferQueue) by {
        forall i | 0 <= i < n ensures es[..n][i] != DeviceWaitIdle && es[..n][i] != QueueWaitIdle(TransferQueue) {
          assert es[..n][i] == es[i];
          if i < |u.made| {
            assert es[i] == u.made[i] && Quiet(u.made[i]);
          } else {
            assert es[i] == between[i - |u.made|];
          }
        }
      }
      DestroyBeforeIdleFails(st1, es, n, TransferQueue);
  }

  /** Destroying the source image, a default cube view or a per-level view
      that the compute stream binds before the compute queue is drained
      makes the trace invalid, whatever comes between (short of a wait on
      the compute queue or the device) and after. */
  lemma SkyboxTempEarlyFails(st: State, p: Provided, u: SkyboxUpload, between: seq<Event>, k: nat, rest: seq<Event>)
    requires NoWaitOn(between, ComputeQueue)
    requires k < |SkyboxTemps(u)| && SkyboxTemps(u)[k].handle != NullHandle && SkyboxTemps(u)[k].handle in Uses(u.compute)
    ensures ApplyAll(st, [SubmitTransfer(p, u.transfer)] + u.made + [SubmitCompute(p, u.compute)] + between + Teardown(SkyboxTemps(u)) + rest) == None
  {
    var pre := [SubmitTransfer(p, u.transfer)] + u.made;
    var c, es := SubmitCompute(p, u.compute), between + Teardown(SkyboxTemps(u)) + rest;
    var h := SkyboxTemps(u)[k].handle;
    var n := |between| + k;
    assert pre + [c] + between + Teardown(SkyboxTemps(u)) + rest == pre + ([c] + es);
    ApplyAllAppend(st, pre, [c] + es);
    match ApplyAll(st, pre)
    case None =>
    case Some(mid) =>
      ApplyAllAppend(mid, [c], es);
      One(mid, c);
      match Apply(mid, c)
      case None =>
      case Some(st2) =>
        SubmitMakesBusy(mid, ComputeQueue, p.computeCmd, u.compute, Some(p.transferToComputeSem), None, h);
        assert es[n] == Destroy(SkyboxTemps(u)[k].kind, h);
        assert NoWaitOn(es[..n], ComputeQueue) by {
          forall i | 0 <= i < n ensures es[..n][i] != DeviceWaitIdle && es[..n][i] != QueueWaitIdle(ComputeQueue) {
            assert es[..n][i] == es[i];
            if i < |between| {
              assert es[i] == between[i];
            } else {
              assert es[i] == Teardown(SkyboxTemps(u))[i - |between|];
            }
          }
        }
        DestroyBeforeIdleFails(st2, es, n, ComputeQueue);
  }
}
