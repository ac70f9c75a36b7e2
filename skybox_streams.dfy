/** The two command buffers createSkybox records: the transfer stream
    uploads the equirectangular source image, the compute stream projects
    it onto the environment cube, builds the cube's mip chain, convolves
    the irradiance cube from it and one radiance level per mip. Every
    whole-image transition and the default and sampled views of the three
    cubes are given by the range choice: as written (colorSubresourceRange,
    mip 0 of layer 0) or the whole image (all levels and all six faces;
    the default view of a cube, which is written as a storage image, all
    six faces of mip 0). */
module SkyboxStreams {
  import opened Vk
  import opened VkUtil
  import opened Mips
  import opened Commands

  /** What the skybox streams are recorded with: the source image and its
      staging buffer, the three cubes, the views made of them, and the
      pipelines, layouts and sampler the renderer already holds. */
  datatype Bake = Bake(
    staging: Handle, width: nat, height: nat, src: ImageRef, srcView: Handle,
    env: ImageRef, irr: ImageRef, rad: ImageRef,
    envView: Handle, irrView: Handle,
    envSampled: Handle, irrSampled: Handle, radSampled: Handle,
    envMipViews: seq<Handle>, radMipViews: seq<Handle>,
    sampler: Handle, cubePipeline: Handle, cubeMipPipeline: Handle,
    irradiancePipeline: Handle, radiancePipeline: Handle,
    oneTexOneImageLayout: Handle, twoImageLayout: Handle, irradianceSize: nat)

  /** The shapes createSkybox gives its images: a one-level 2D source, and
      six-layer cubes, the environment and radiance cubes with cubeMips
      levels and one view per level, the irradiance cube with one level;
      four distinct images. */
  predicate BakeOk(b: Bake)
  {
    && 1 <= CubeSize(b.height) < 0x8000_0000
    && b.src.mips == 1 && b.src.layers == 1
    && b.env.layers == 6 && b.irr.layers == 6 && b.rad.layers == 6
    && b.env.mips == CubeMips(CubeSize(b.height)) && b.rad.mips == b.env.mips && b.irr.mips == 1
    && |b.envMipViews| == b.env.mips && |b.radMipViews| == b.rad.mips
    && b.src.handle != b.env.handle && b.src.handle != b.irr.handle && b.src.handle != b.rad.handle
    && b.env.handle != b.irr.handle && b.env.handle != b.rad.handle && b.irr.handle != b.rad.handle
  }

  /** A subresource that belongs to image `img`. */
  predicate InImage(img: ImageRef, s: Sub)
  {
    s.image == img.handle && s.mip < img.mips && s.layer < img.layers
  }

  // ---------------------------------------------------------------------
  // Views

  /** The range of createImage's default view of a cube. */
  function DefaultCubeRange(c: RangeChoice): SubresourceRange
  {
    if c == AsWritten then ColorSubresourceRange() else MipAllLayers(0)
  }

  function SrcView(b: Bake): ViewRef
  {
    ViewRef(b.srcView, b.src, ColorSubresourceRange())
  }

  function EnvDefault(b: Bake, c: RangeChoice): ViewRef
  {
    ViewRef(b.envView, b.env, DefaultCubeRange(c))
  }

  function IrrDefault(b: Bake, c: RangeChoice): ViewRef
  {
    ViewRef(b.irrView, b.irr, DefaultCubeRange(c))
  }

  /** The E5B9G9R9 view of the environment cube the two convolutions sample. */
  function EnvSampled(b: Bake, c: RangeChoice): ViewRef
  {
    ViewRef(b.envSampled, b.env, TransitionRange(b.env, c))
  }

  /** The E5B9G9R9 views of the other two cubes, which replace their
      default views once the bake is done. */
  function IrrSampled(b: Bake, c: RangeChoice): ViewRef
  {
    ViewRef(b.irrSampled, b.irr, TransitionRange(b.irr, c))
  }

  function RadSampled(b: Bake, c: RangeChoice): ViewRef
  {
    ViewRef(b.radSampled, b.rad, TransitionRange(b.rad, c))
  }

  /** Vulkan's rule for a VK_IMAGE_VIEW_TYPE_CUBE view: exactly six layers. */
  predicate CubeViewOk(v: ViewRef)
  {
    ResolvedLayers(v.range.layerCount, v.range.baseLayer, v.image.layers) == 6
  }

  /** The cube views the bake makes: the two default views written as
      storage images, the three sampled views, and the per-level views. */
  predicate CubeViewsOk(b: Bake, c: RangeChoice)
    requires |b.envMipViews| == b.env.mips && |b.radMipViews| == b.rad.mips
  {
    && CubeViewOk(EnvDefault(b, c)) && CubeViewOk(IrrDefault(b, c))
    && CubeViewOk(EnvSampled(b, c)) && CubeViewOk(IrrSampled(b, c)) && CubeViewOk(RadSampled(b, c))
    && (forall i :: 0 <= i < b.env.mips ==> CubeViewOk(EnvMip(b, i)))
    && (forall i :: 0 <= i < b.rad.mips ==> CubeViewOk(RadMip(b, i)))
  }

  /** The per-level views are cube views of six faces; the others are, as
      written, one face only, and six with whole-image ranges. */
  lemma CubeViewsWhen(b: Bake, c: RangeChoice)
    requires BakeOk(b)
    ensures CubeViewsOk(b, c) <==> c == WholeImage
    ensures forall i :: 0 <= i < b.env.mips ==> CubeViewOk(EnvMip(b, i))
    ensures forall i :: 0 <= i < b.rad.mips ==> CubeViewOk(RadMip(b, i))
    ensures c == AsWritten ==>
      && !CubeViewOk(EnvDefault(b, c)) && !CubeViewOk(IrrDefault(b, c))
      && !CubeViewOk(EnvSampled(b, c)) && !CubeViewOk(IrrSampled(b, c)) && !CubeViewOk(RadSampled(b, c))
  {
  }

  function EnvMip(b: Bake, i: nat): ViewRef
    requires i < |b.envMipViews|
  {
    ViewRef(b.envMipViews[i], b.env, MipAllLayers(i))
  }

  function RadMip(b: Bake, i: nat): ViewRef
    requires i < |b.radMipViews|
  {
    ViewRef(b.radMipViews[i], b.rad, MipAllLayers(i))
  }

  // ---------------------------------------------------------------------
  // The streams

  /** The transfer stream: UNDEFINED to TRANSFER_DST, the copy, TRANSFER_DST
      to SHADER_READ_ONLY, all on the single subresource of the source. */
  function SkyboxTransfer(b: Bake): seq<Cmd>
  {
    [ Barrier(b.src, ColorSubresourceRange(), Undefined, TransferDst, STAGE_NONE, ACCESS_NONE, STAGE_COPY, ACCESS_TRANSFER_WRITE),
      CopyBufferToImage(b.staging, b.src, TransferDst, ColorSubresourceLayers(), Extent(b.width, b.height, 1)),
      Barrier(b.src, ColorSubresourceRange(), TransferDst, ShaderReadOnly, STAGE_COPY, ACCESS_TRANSFER_WRITE, STAGE_NONE, ACCESS_NONE) ]
  }

  /** The environment cube, UNDEFINED to GENERAL. */
  function EnvStart(b: Bake, c: RangeChoice): seq<Cmd>
  {
    [Barrier(b.env, TransitionRange(b.env, c), Undefined, General, STAGE_NONE, ACCESS_NONE, STAGE_COMPUTE_SHADER, ACCESS_SHADER_WRITE)]
  }

  /** The projection onto mip 0 of the six faces. */
  function CubeBlock(b: Bake, c: RangeChoice): seq<Cmd>
  {
    var groups := (CubeSize(b.height) + 7) / 8;
    [ BindPipeline(b.cubePipeline),
      PushDescriptors(b.oneTexOneImageLayout, [
        Write(Slot(0, 0), Descriptor(SrcView(b), ShaderReadOnly, CombinedImageSampler)),
        Write(Slot(1, 0), Descriptor(EnvDefault(b, c), General, StorageImage))]),
      Dispatch(groups, groups, 6) ]
  }

  /** Iteration i of the cube mip loop: make level i-1's writes visible,
      then read level i-1 and write level i, all six faces. */
  function EnvIteration(b: Bake, i: nat): seq<Cmd>
    requires 1 <= i < |b.envMipViews|
  {
    [ Barrier(b.env, MipAllLayers(i - 1), Undefined, Undefined,
              STAGE_COMPUTE_SHADER, ACCESS_SHADER_WRITE, STAGE_COMPUTE_SHADER, ACCESS_SHADER_READ),
      PushDescriptors(b.twoImageLayout, [
        Write(Slot(0, 0), Descriptor(EnvMip(b, i - 1), General, StorageImage)),
        Write(Slot(0, 1), Descriptor(EnvMip(b, i), General, StorageImage))]),
      Dispatch(DispatchGroups(CubeSize(b.height), i), DispatchGroups(CubeSize(b.height), i), 6) ]
  }

  /** Iterations i .. cubeMips-1. */
  function EnvLoop(b: Bake, i: nat): seq<Cmd>
    requires 1 <= i <= |b.envMipViews|
    decreases |b.envMipViews| - i
  {
    if i == |b.envMipViews| then [] else EnvIteration(b, i) + EnvLoop(b, i + 1)
  }

  /** The cube mip chain, then the environment cube GENERAL to
      SHADER_READ_ONLY and the irradiance cube UNDEFINED to GENERAL. */
  function EnvMipBlock(b: Bake, c: RangeChoice): seq<Cmd>
  {
    [BindPipeline(b.cubeMipPipeline)]
    + (if 1 <= |b.envMipViews| then EnvLoop(b, 1) else [])
    + [EnvToRead(b, c), IrrToWrite(b, c)]
  }

  /** The environment cube GENERAL to SHADER_READ_ONLY. */
  function EnvToRead(b: Bake, c: RangeChoice): Cmd
  {
    Barrier(b.env, TransitionRange(b.env, c), General, ShaderReadOnly,
            STAGE_COMPUTE_SHADER, ACCESS_SHADER_READ | ACCESS_SHADER_WRITE, STAGE_COMPUTE_SHADER, ACCESS_SHADER_READ)
  }

  /** The irradiance cube UNDEFINED to GENERAL. */
  function IrrToWrite(b: Bake, c: RangeChoice): Cmd
  {
    Barrier(b.irr, TransitionRange(b.irr, c), Undefined, General, STAGE_NONE, ACCESS_NONE, STAGE_COMPUTE_SHADER, ACCESS_SHADER_WRITE)
  }

  /** The irradiance convolution, then the irradiance cube GENERAL to
      SHADER_READ_ONLY and the radiance cube UNDEFINED to GENERAL. */
  function IrradianceBlock(b: Bake, c: RangeChoice): seq<Cmd>
  {
    var groups := (b.irradianceSize + 7) / 8;
    [ BindPipeline(b.irradiancePipeline),
      PushDescriptors(b.oneTexOneImageLayout, [
        Write(Slot(0, 0), Descriptor(EnvSampled(b, c), ShaderReadOnly, CombinedImageSampler)),
        Write(Slot(1, 0), Descriptor(IrrDefault(b, c), General, StorageImage))]),
      Dispatch(groups, groups, 6),
      Barrier(b.irr, TransitionRange(b.irr, c), General, ShaderReadOnly, STAGE_COMPUTE_SHADER, ACCESS_SHADER_WRITE, STAGE_NONE, ACCESS_NONE),
      Barrier(b.rad, TransitionRange(b.rad, c), Undefined, General, STAGE_NONE, ACCESS_NONE, STAGE_COMPUTE_SHADER, ACCESS_SHADER_WRITE) ]
  }

  /** Iteration i of the radiance loop: level i of the radiance cube is
      written; the sampled environment cube stays bound. */
  function RadIteration(b: Bake, i: nat): seq<Cmd>
    requires i < |b.radMipViews|
  {
    [ PushDescriptors(b.oneTexOneImageLayout, [Write(Slot(1, 0), Descriptor(RadMip(b, i), General, StorageImage))]),
      Dispatch(DispatchGroups(CubeSize(b.height), i), DispatchGroups(CubeSize(b.height), i), 6) ]
  }

  /** Iterations i .. cubeMips-1. */
  function RadLoop(b: Bake, i: nat): seq<Cmd>
    requires i <= |b.radMipViews|
    decreases |b.radMipViews| - i
  {
    if i == |b.radMipViews| then [] else RadIteration(b, i) + RadLoop(b, i + 1)
  }

  /** The radiance levels, then the radiance cube GENERAL to SHADER_READ_ONLY. */
  function RadianceBlock(b: Bake, c: RangeChoice): seq<Cmd>
  {
    [ BindPipeline(b.radiancePipeline),
      PushDescriptors(b.oneTexOneImageLayout, [Write(Slot(0, 0), Descriptor(EnvSampled(b, c), ShaderReadOnly, CombinedImageSampler))]) ]
    + RadLoop(b, 0)
    + [Barrier(b.rad, TransitionRange(b.rad, c), General, ShaderReadOnly, STAGE_COMPUTE_SHADER, ACCESS_SHADER_WRITE, STAGE_NONE, ACCESS_NONE)]
  }

  function SkyboxCompute(b: Bake, c: RangeChoice): seq<Cmd>
  {
    EnvStart(b, c) + CubeBlock(b, c) + EnvMipBlock(b, c) + IrradianceBlock(b, c) + RadianceBlock(b, c)
  }

  /** The compute stream is its five blocks run one after the other. */
  lemma ComputeThrough(b: Bake, c: RangeChoice, s: Sub, r: Run)
    ensures Exec(s, r, SkyboxCompute(b, c))
      == Then(s, Then(s, Then(s, Then(s, Exec(s, r, EnvStart(b, c)), CubeBlock(b, c)), EnvMipBlock(b, c)),
                           IrradianceBlock(b, c)), RadianceBlock(b, c))
  {
    var a, b1, b2, b3, b4 := EnvStart(b, c), CubeBlock(b, c), EnvMipBlock(b, c), IrradianceBlock(b, c), RadianceBlock(b, c);
    ExecAppend(s, r, a + b1 + b2 + b3, b4);
    ExecAppend(s, r, a + b1 + b2, b3);
    ExecAppend(s, r, a + b1, b2);
    ExecAppend(s, r, a, b1);
  }

  // ---------------------------------------------------------------------
  // The loops, one subresource at a time

  /** GENERAL, and nothing but shader writes left unmade. */
  predicate Writable(sub: SubState)
  {
    sub.layout == General && sub.pending & !ACCESS_SHADER_WRITE == 0
  }

  /** SHADER_READ_ONLY with every write made available. */
  const Ready: SubState := SubState(ShaderReadOnly, ACCESS_NONE)

  /** Every bound descriptor on `s` is a GENERAL storage image the shader writes. */
  predicate WrittenThrough(s: Sub, bound: map<Slot, Descriptor>)
  {
    forall slot <- bound :: ViewCovers(bound[slot].view, s) ==>
      slot != SOURCE_SLOT && bound[slot].layout == General && bound[slot].descriptorType == StorageImage
  }

  /** Every bound descriptor on `s` is the sampled source, SHADER_READ_ONLY. */
  predicate ReadThrough(s: Sub, bound: map<Slot, Descriptor>)
  {
    forall slot <- bound :: ViewCovers(bound[slot].view, s) ==>
      slot == SOURCE_SLOT && bound[slot].layout == ShaderReadOnly && bound[slot].descriptorType == CombinedImageSampler
  }

  /** The barrier of iteration i: level i-1's shader writes are made
      available; the layout is untouched. */
  lemma EnvBarrierOnEnv(b: Bake, i: nat, s: Sub, r: Run)
    requires 1 <= i < |b.envMipViews| && s.image == b.env.handle && s.layer < b.env.layers
    requires Writable(r.sub)
    ensures var r1 := Step(s, r, EnvIteration(b, i)[0]);
      && r1.Some? && Writable(r1.value.sub) && r1.value.bound == r.bound
      && (s.mip == i - 1 ==> r1.value.sub.pending == ACCESS_NONE)
  {
    var c := EnvIteration(b, i)[0];
    assert c == Barrier(b.env, MipAllLayers(i - 1), Undefined, Undefined,
                        STAGE_COMPUTE_SHADER, ACCESS_SHADER_WRITE, STAGE_COMPUTE_SHADER, ACCESS_SHADER_READ);
    if ImageCovers(b.env, MipAllLayers(i - 1), s) {
      assert Flush(r.sub.pending, ACCESS_SHADER_WRITE) == ACCESS_NONE;
      assert Step(s, r, c) == Some(r.(sub := r.sub.(pending := ACCESS_NONE)));
    } else {
      assert s.mip != i - 1;
      assert Step(s, r, c) == Some(r);
    }
  }

  /** The dispatch of iteration i, after the push: level i-1 is read with
      nothing unmade, level i is written GENERAL. */
  lemma EnvDispatchOnEnv(b: Bake, i: nat, s: Sub, r: Run)
    requires 1 <= i < |b.envMipViews| && s.image == b.env.handle && s.layer < b.env.layers
    requires Writable(r.sub) && (s.mip == i - 1 ==> r.sub.pending == ACCESS_NONE)
    requires r.bound == map[Slot(0, 0) := Descriptor(EnvMip(b, i - 1), General, StorageImage),
                            Slot(0, 1) := Descriptor(EnvMip(b, i), General, StorageImage)]
    ensures var r1 := Step(s, r, EnvIteration(b, i)[2]);
      r1.Some? && Writable(r1.value.sub) && r1.value.bound == r.bound
  {
    assert DispatchOk(s, r);
  }

  /** One cube mip iteration on a face of the environment cube: the level
      it reads has been made available by the barrier just before, the
      level it writes is GENERAL, and the face stays writable. */
  lemma EnvIterationOnEnv(b: Bake, i: nat, s: Sub, r: Run)
    requires 1 <= i < |b.envMipViews| && s.image == b.env.handle && s.layer < b.env.layers
    requires Writable(r.sub) && TwoSlots(r.bound)
    ensures Exec(s, r, EnvIteration(b, i)).Some?
    ensures Writable(Exec(s, r, EnvIteration(b, i)).value.sub)
    ensures TwoSlots(Exec(s, r, EnvIteration(b, i)).value.bound)
  {
    var cmds := EnvIteration(b, i);
    var d0 := Descriptor(EnvMip(b, i - 1), General, StorageImage);
    var d1 := Descriptor(EnvMip(b, i), General, StorageImage);
    EnvBarrierOnEnv(b, i, s, r);
    var r1 := Step(s, r, cmds[0]).value;
    PushedTwo(r1.bound, Write(Slot(0, 0), d0), Write(Slot(0, 1), d1));
    var r2 := r1.(bound := r1.bound[Slot(0, 0) := d0][Slot(0, 1) := d1]);
    assert r2.bound == map[Slot(0, 0) := d0, Slot(0, 1) := d1];
    EnvDispatchOnEnv(b, i, s, r2);
    var r3 := Step(s, r2, cmds[2]).value;
    ExecAppend(s, r, [cmds[0]], cmds[1..]);
    ExecSingle(s, r, cmds[0]);
    ExecAppend(s, r1, [cmds[1]], cmds[2..]);
    ExecSingle(s, r1, cmds[1]);
    assert cmds[1..][1..] == cmds[2..] == [cmds[2]];
    ExecSingle(s, r2, cmds[2]);
  }

  lemma {:induction false} EnvLoopOnEnv(b: Bake, i: nat, s: Sub, r: Run)
    requires 1 <= i <= |b.envMipViews| && s.image == b.env.handle && s.layer < b.env.layers
    requires Writable(r.sub) && TwoSlots(r.bound)
    ensures Exec(s, r, EnvLoop(b, i)).Some?
    ensures Writable(Exec(s, r, EnvLoop(b, i)).value.sub)
    decreases |b.envMipViews| - i
  {
    if i < |b.envMipViews| {
      EnvIterationOnEnv(b, i, s, r);
      var r1 := Exec(s, r, EnvIteration(b, i)).value;
      EnvLoopOnEnv(b, i + 1, s, r1);
      ExecAppend(s, r, EnvIteration(b, i), EnvLoop(b, i + 1));
    }
  }

  lemma {:induction false} EnvLoopOther(b: Bake, i: nat, s: Sub)
    requires 1 <= i <= |b.envMipViews| <= b.env.mips && !InImage(b.env, s)
    ensures Untouched(s, EnvLoop(b, i))
    decreases |b.envMipViews| - i
  {
    if i < |b.envMipViews| {
      EnvLoopOther(b, i + 1, s);
      assert Untouched(s, EnvIteration(b, i));
      UntouchedAppend(s, EnvIteration(b, i), EnvLoop(b, i + 1));
    }
  }

  /** One radiance iteration on a face of the radiance cube: the level it
      writes is GENERAL; the face stays writable. */
  lemma RadIterationOnRad(b: Bake, i: nat, s: Sub, r: Run)
    requires i < |b.radMipViews| && s.image == b.rad.handle && s.layer < b.rad.layers
    requires Writable(r.sub) && WrittenThrough(s, r.bound)
    ensures Exec(s, r, RadIteration(b, i)).Some?
    ensures Writable(Exec(s, r, RadIteration(b, i)).value.sub)
    ensures WrittenThrough(s, Exec(s, r, RadIteration(b, i)).value.bound)
  {
    var cmds := RadIteration(b, i);
    var d := Descriptor(RadMip(b, i), General, StorageImage);
    PushedOne(r.bound, Write(Slot(1, 0), d));
    var r1 := r.(bound := r.bound[Slot(1, 0) := d]);
    assert WrittenThrough(s, r1.bound);
    assert DispatchOk(s, r1);
    var r2 := Step(s, r1, cmds[1]).value;
    assert Writable(r2.sub);
    ExecAppend(s, r, [cmds[0]], cmds[1..]);
    ExecSingle(s, r, cmds[0]);
    assert cmds[1..] == [cmds[1]];
    ExecSingle(s, r1, cmds[1]);
  }

  lemma {:induction false} RadLoopOnRad(b: Bake, i: nat, s: Sub, r: Run)
    requires i <= |b.radMipViews| && s.image == b.rad.handle && s.layer < b.rad.layers
    requires Writable(r.sub) && WrittenThrough(s, r.bound)
    ensures Exec(s, r, RadLoop(b, i)).Some?
    ensures Writable(Exec(s, r, RadLoop(b, i)).value.sub)
    decreases |b.radMipViews| - i
  {
    if i < |b.radMipViews| {
      RadIterationOnRad(b, i, s, r);
      RadLoopOnRad(b, i + 1, s, Exec(s, r, RadIteration(b, i)).value);
      ExecAppend(s, r, RadIteration(b, i), RadLoop(b, i + 1));
    }
  }

  /** One radiance iteration on a subresource that is only read through
      the sampled source: nothing changes for it. */
  lemma RadIterationOnSource(b: Bake, i: nat, s: Sub, r: Run)
    requires i < |b.radMipViews| && s.image != b.rad.handle
    requires r.sub == Ready && ReadThrough(s, r.bound)
    ensures Exec(s, r, RadIteration(b, i)) == Some(r.(bound := r.bound[Slot(1, 0) := Descriptor(RadMip(b, i), General, StorageImage)]))
  {
    var cmds := RadIteration(b, i);
    var d := Descriptor(RadMip(b, i), General, StorageImage);
    PushedOne(r.bound, Write(Slot(1, 0), d));
    var r1 := r.(bound := r.bound[Slot(1, 0) := d]);
    assert ReadThrough(s, r1.bound);
    assert DispatchOk(s, r1);
    assert !DispatchWrites(s, r1.bound);
    ExecAppend(s, r, [cmds[0]], cmds[1..]);
    ExecSingle(s, r, cmds[0]);
    assert cmds[1..] == [cmds[1]];
    ExecSingle(s, r1, cmds[1]);
  }

  lemma {:induction false} RadLoopOnSource(b: Bake, i: nat, s: Sub, r: Run)
    requires i <= |b.radMipViews| && s.image != b.rad.handle
    requires r.sub == Ready && ReadThrough(s, r.bound)
    ensures Exec(s, r, RadLoop(b, i)).Some?
    ensures Exec(s, r, RadLoop(b, i)).value.sub == Ready
    decreases |b.radMipViews| - i
  {
    if i < |b.radMipViews| {
      RadIterationOnSource(b, i, s, r);
      var r1 := Exec(s, r, RadIteration(b, i)).value;
      assert ReadThrough(s, r1.bound);
      RadLoopOnSource(b, i + 1, s, r1);
      ExecAppend(s, r, RadIteration(b, i), RadLoop(b, i + 1));
    }
  }

  lemma {:induction false} RadLoopOther(b: Bake, i: nat, s: Sub)
    requires i <= |b.radMipViews| <= b.rad.mips && !InImage(b.rad, s)
    ensures Untouched(s, RadLoop(b, i))
    decreases |b.radMipViews| - i
  {
    if i < |b.radMipViews| {
      RadLoopOther(b, i + 1, s);
      assert Untouched(s, RadIteration(b, i));
      UntouchedAppend(s, RadIteration(b, i), RadLoop(b, i + 1));
    }
  }

  // ---------------------------------------------------------------------
  // The blocks, image by image (whole-image ranges)

  const Writing: SubState := SubState(General, ACCESS_NONE)

  /** The source: uploaded and left SHADER_READ_ONLY with the copy made
      available; every other subresource is left alone. */
  lemma TransferOnSource(b: Bake, s: Sub)
    requires BakeOk(b)
    ensures Submitted(s, Fresh, SkyboxTransfer(b)) == Some(if InImage(b.src, s) then Ready else Fresh)
  {
    var cmds := SkyboxTransfer(b);
    var r0 := Run(Fresh, map[]);
    if InImage(b.src, s) {
      var r1 := Step(s, r0, cmds[0]).value;
      var r2 := Step(s, r1, cmds[1]).value;
      assert r2.sub == SubState(TransferDst, ACCESS_TRANSFER_WRITE);
      ExecAppend(s, r0, [cmds[0]], cmds[1..]);
      ExecSingle(s, r0, cmds[0]);
      ExecAppend(s, r1, [cmds[1]], cmds[2..]);
      ExecSingle(s, r1, cmds[1]);
      assert cmds[1..][1..] == cmds[2..] == [cmds[2]];
      ExecSingle(s, r2, cmds[2]);
    } else {
      assert Untouched(s, cmds);
      ExecFrame(s, r0, cmds);
    }
  }

  lemma CubeOnSource(b: Bake, s: Sub, r: Run)
    requires BakeOk(b) && InImage(b.src, s) && r.sub == Ready
    ensures Exec(s, r, CubeBlock(b, WholeImage)).Some?
    ensures Exec(s, r, CubeBlock(b, WholeImage)).value.sub == Ready
  {
    var cmds := CubeBlock(b, WholeImage);
    var r1 := r.(bound := map[]);
    var w0 := Write(Slot(0, 0), Descriptor(SrcView(b), ShaderReadOnly, CombinedImageSampler));
    var w1 := Write(Slot(1, 0), Descriptor(EnvDefault(b, WholeImage), General, StorageImage));
    PushedTwo(r1.bound, w0, w1);
    var r2 := r1.(bound := map[w0.slot := w0.descriptor, w1.slot := w1.descriptor]);
    assert DispatchOk(s, r2) && !DispatchWrites(s, r2.bound);
    ExecAppend(s, r, [cmds[0]], cmds[1..]);
    ExecSingle(s, r, cmds[0]);
    ExecAppend(s, r1, [cmds[1]], cmds[2..]);
    ExecSingle(s, r1, cmds[1]);
    assert cmds[1..][1..] == cmds[2..] == [cmds[2]];
    ExecSingle(s, r2, cmds[2]);
  }

  lemma CubeOnEnv(b: Bake, s: Sub, r: Run)
    requires BakeOk(b) && InImage(b.env, s) && r.sub == Writing
    ensures Exec(s, r, CubeBlock(b, WholeImage)).Some?
    ensures Writable(Exec(s, r, CubeBlock(b, WholeImage)).value.sub)
  {
    var cmds := CubeBlock(b, WholeImage);
    var r1 := r.(bound := map[]);
    var w0 := Write(Slot(0, 0), Descriptor(SrcView(b), ShaderReadOnly, CombinedImageSampler));
    var w1 := Write(Slot(1, 0), Descriptor(EnvDefault(b, WholeImage), General, StorageImage));
    PushedTwo(r1.bound, w0, w1);
    var r2 := r1.(bound := map[w0.slot := w0.descriptor, w1.slot := w1.descriptor]);
    assert DispatchOk(s, r2);
    ExecAppend(s, r, [cmds[0]], cmds[1..]);
    ExecSingle(s, r, cmds[0]);
    ExecAppend(s, r1, [cmds[1]], cmds[2..]);
    ExecSingle(s, r1, cmds[1]);
    assert cmds[1..][1..] == cmds[2..] == [cmds[2]];
    ExecSingle(s, r2, cmds[2]);
  }

  lemma EnvMipOnEnv(b: Bake, s: Sub, r: Run)
    requires BakeOk(b) && InImage(b.env, s) && Writable(r.sub)
    ensures Exec(s, r, EnvMipBlock(b, WholeImage)).Some?
    ensures Exec(s, r, EnvMipBlock(b, WholeImage)).value.sub == Ready
  {
    var loop := EnvLoop(b, 1);
    var last := [EnvToRead(b, WholeImage), IrrToWrite(b, WholeImage)];
    assert EnvMipBlock(b, WholeImage) == [BindPipeline(b.cubeMipPipeline)] + loop + last;
    ExecAppend(s, r, [BindPipeline(b.cubeMipPipeline)], loop);
    ExecSingle(s, r, BindPipeline(b.cubeMipPipeline));
    var r1 := r.(bound := map[]);
    EnvLoopOnEnv(b, 1, s, r1);
    var r2 := Exec(s, r1, loop).value;
    ExecAppend(s, r, [BindPipeline(b.cubeMipPipeline)] + loop, last);
    var r3 := Step(s, r2, last[0]).value;
    assert r3.sub == Ready;
    ExecAppend(s, r2, [last[0]], last[1..]);
    ExecSingle(s, r2, last[0]);
    assert last[1..] == [last[1]];
    ExecSingle(s, r3, last[1]);
  }

  /** The irradiance block reads the environment cube through its sampled
      view, SHADER_READ_ONLY with nothing unmade, and leaves it so. */
  lemma IrradianceOnEnv(b: Bake, s: Sub, r: Run)
    requires BakeOk(b) && InImage(b.env, s) && r.sub == Ready
    ensures Exec(s, r, IrradianceBlock(b, WholeImage)).Some?
    ensures Exec(s, r, IrradianceBlock(b, WholeImage)).value.sub == Ready
  {
    var cmds := IrradianceBlock(b, WholeImage);
    var r1 := r.(bound := map[]);
    var w0 := Write(Slot(0, 0), Descriptor(EnvSampled(b, WholeImage), ShaderReadOnly, CombinedImageSampler));
    var w1 := Write(Slot(1, 0), Descriptor(IrrDefault(b, WholeImage), General, StorageImage));
    PushedTwo(r1.bound, w0, w1);
    var r2 := r1.(bound := map[w0.slot := w0.descriptor, w1.slot := w1.descriptor]);
    assert DispatchOk(s, r2) && !DispatchWrites(s, r2.bound);
    assert cmds == [cmds[0], cmds[1], cmds[2]] + cmds[3..];
    ExecAppend(s, r, [cmds[0], cmds[1], cmds[2]], cmds[3..]);
    ExecAppend(s, r, [cmds[0]], [cmds[1], cmds[2]]);
    ExecSingle(s, r, cmds[0]);
    ExecAppend(s, r1, [cmds[1]], [cmds[2]]);
    ExecSingle(s, r1, cmds[1]);
    ExecSingle(s, r2, cmds[2]);
    assert cmds[3..] == [cmds[3]] + [cmds[4]];
    ExecAppend(s, r2, [cmds[3]], [cmds[4]]);
    ExecSingle(s, r2, cmds[3]);
    ExecSingle(s, r2, cmds[4]);
  }

  /** The radiance block reads the environment cube in the same way on
      every level it writes. */
  lemma RadianceOnEnv(b: Bake, s: Sub, r: Run)
    requires BakeOk(b) && InImage(b.env, s) && r.sub == Ready
    ensures Exec(s, r, RadianceBlock(b, WholeImage)).Some?
    ensures Exec(s, r, RadianceBlock(b, WholeImage)).value.sub == Ready
  {
    var head := RadianceBlock(b, WholeImage)[..2];
    var loop := RadLoop(b, 0);
    var last := [Barrier(b.rad, TransitionRange(b.rad, WholeImage), General, ShaderReadOnly, STAGE_COMPUTE_SHADER, ACCESS_SHADER_WRITE, STAGE_NONE, ACCESS_NONE)];
    assert RadianceBlock(b, WholeImage) == head + loop + last;
    var r1 := r.(bound := map[]);
    var w0 := Write(Slot(0, 0), Descriptor(EnvSampled(b, WholeImage), ShaderReadOnly, CombinedImageSampler));
    PushedOne(r1.bound, w0);
    var r2 := r1.(bound := map[w0.slot := w0.descriptor]);
    assert ReadThrough(s, r2.bound);
    ExecAppend(s, r, [head[0]], [head[1]]);
    assert head == [head[0]] + [head[1]];
    ExecSingle(s, r, head[0]);
    ExecSingle(s, r1, head[1]);
    RadLoopOnSource(b, 0, s, r2);
    ExecAppend(s, r, head, loop);
    ExecAppend(s, r, head + loop, last);
    ExecSingle(s, Exec(s, r2, loop).value, last[0]);
  }

  /** The irradiance cube is only made GENERAL at the end of the mip-chain
      block. */
  lemma EnvMipOnIrr(b: Bake, s: Sub, r: Run)
    requires BakeOk(b) && InImage(b.irr, s)
    ensures Exec(s, r, EnvMipBlock(b, WholeImage)).Some?
    ensures Exec(s, r, EnvMipBlock(b, WholeImage)).value.sub == Writing
  {
    var loop := EnvLoop(b, 1);
    var front := [BindPipeline(b.cubeMipPipeline)] + loop + [EnvToRead(b, WholeImage)];
    var last := IrrToWrite(b, WholeImage);
    assert EnvMipBlock(b, WholeImage) == front + [last];
    EnvLoopOther(b, 1, s);
    assert !Touches(s, EnvToRead(b, WholeImage));
    UntouchedAppend(s, [BindPipeline(b.cubeMipPipeline)], loop);
    UntouchedAppend(s, [BindPipeline(b.cubeMipPipeline)] + loop, [EnvToRead(b, WholeImage)]);
    assert StartsWithBind(front);
    BindFrame(s, r, front);
    ExecAppend(s, r, front, [last]);
    ExecSingle(s, Exec(s, r, front).value, last);
  }

  /** The irradiance block writes all six faces of the irradiance cube
      through its default view and leaves them SHADER_READ_ONLY. */
  lemma IrradianceOnIrr(b: Bake, s: Sub, r: Run)
    requires BakeOk(b) && InImage(b.irr, s) && r.sub == Writing
    ensures Exec(s, r, IrradianceBlock(b, WholeImage)).Some?
    ensures Exec(s, r, IrradianceBlock(b, WholeImage)).value.sub == Ready
  {
    var cmds := IrradianceBlock(b, WholeImage);
    var r1 := r.(bound := map[]);
    var w0 := Write(Slot(0, 0), Descriptor(EnvSampled(b, WholeImage), ShaderReadOnly, CombinedImageSampler));
    var w1 := Write(Slot(1, 0), Descriptor(IrrDefault(b, WholeImage), General, StorageImage));
    PushedTwo(r1.bound, w0, w1);
    var r2 := r1.(bound := map[w0.slot := w0.descriptor, w1.slot := w1.descriptor]);
    assert DispatchOk(s, r2) && DispatchWrites(s, r2.bound) by {
      assert ViewCovers(r2.bound[Slot(1, 0)].view, s);
    }
    var r3 := r2.(sub := SubState(General, ACCESS_SHADER_WRITE));
    var r4 := r3.(sub := Ready);
    assert cmds == [cmds[0], cmds[1], cmds[2]] + [cmds[3], cmds[4]];
    ExecAppend(s, r, [cmds[0], cmds[1], cmds[2]], [cmds[3], cmds[4]]);
    ExecAppend(s, r, [cmds[0]], [cmds[1], cmds[2]]);
    ExecSingle(s, r, cmds[0]);
    ExecAppend(s, r1, [cmds[1]], [cmds[2]]);
    ExecSingle(s, r1, cmds[1]);
    ExecSingle(s, r2, cmds[2]);
    ExecAppend(s, r3, [cmds[3]], [cmds[4]]);
    ExecSingle(s, r3, cmds[3]);
    ExecSingle(s, r4, cmds[4]);
  }

  /** The radiance cube is only made GENERAL at the end of the irradiance
      block. */
  lemma IrradianceOnRad(b: Bake, s: Sub, r: Run)
    requires BakeOk(b) && InImage(b.rad, s)
    ensures Exec(s, r, IrradianceBlock(b, WholeImage)).Some?
    ensures Exec(s, r, IrradianceBlock(b, WholeImage)).value.sub == Writing
  {
    var cmds := IrradianceBlock(b, WholeImage);
    var front := cmds[..4];
    assert cmds == front + [cmds[4]];
    assert Untouched(s, front);
    BindFrame(s, r, front);
    ExecAppend(s, r, front, [cmds[4]]);
    ExecSingle(s, Exec(s, r, front).value, cmds[4]);
  }

  /** The radiance block writes every level of the radiance cube, all six
      faces, and leaves them SHADER_READ_ONLY. */
  lemma RadianceOnRad(b: Bake, s: Sub, r: Run)
    requires BakeOk(b) && InImage(b.rad, s) && r.sub == Writing
    ensures Exec(s, r, RadianceBlock(b, WholeImage)).Some?
    ensures Exec(s, r, RadianceBlock(b, WholeImage)).value.sub == Ready
  {
    var head := RadianceBlock(b, WholeImage)[..2];
    var loop := RadLoop(b, 0);
    var last := [Barrier(b.rad, TransitionRange(b.rad, WholeImage), General, ShaderReadOnly, STAGE_COMPUTE_SHADER, ACCESS_SHADER_WRITE, STAGE_NONE, ACCESS_NONE)];
    assert RadianceBlock(b, WholeImage) == head + loop + last;
    var r1 := r.(bound := map[]);
    var w0 := Write(Slot(0, 0), Descriptor(EnvSampled(b, WholeImage), ShaderReadOnly, CombinedImageSampler));
    PushedOne(r1.bound, w0);
    var r2 := r1.(bound := map[w0.slot := w0.descriptor]);
    assert WrittenThrough(s, r2.bound);
    ExecAppend(s, r, [head[0]], [head[1]]);
    assert head == [head[0]] + [head[1]];
    ExecSingle(s, r, head[0]);
    ExecSingle(s, r1, head[1]);
    RadLoopOnRad(b, 0, s, r2);
    var r3 := Exec(s, r2, loop).value;
    ExecAppend(s, r, head, loop);
    ExecAppend(s, r, head + loop, last);
    ExecSingle(s, r3, last[0]);
  }

  // ---------------------------------------------------------------------
  // Which blocks leave which subresources alone (either range choice)

  lemma CubeMipsPositive(b: Bake)
    requires BakeOk(b)
    ensures b.env.mips >= 1 && b.rad.mips >= 1
  {
  }

  lemma EnvStartOther(b: Bake, c: RangeChoice, s: Sub)
    requires BakeOk(b) && !InImage(b.env, s)
    ensures Untouched(s, EnvStart(b, c))
  {
    CubeMipsPositive(b);
  }

  lemma CubeOther(b: Bake, c: RangeChoice, s: Sub)
    requires BakeOk(b) && !InImage(b.src, s) && !InImage(b.env, s)
    ensures Untouched(s, CubeBlock(b, c)) && StartsWithBind(CubeBlock(b, c))
  {
    CubeMipsPositive(b);
    var cmds := CubeBlock(b, c);
    assert !Touches(s, cmds[1]) by {
      assert !ViewCovers(SrcView(b), s) && !ViewCovers(EnvDefault(b, c), s);
    }
  }

  lemma EnvMipOther(b: Bake, c: RangeChoice, s: Sub)
    requires BakeOk(b) && !InImage(b.env, s) && !InImage(b.irr, s)
    ensures Untouched(s, EnvMipBlock(b, c)) && StartsWithBind(EnvMipBlock(b, c))
  {
    CubeMipsPositive(b);
    var loop := EnvLoop(b, 1);
    var last := [EnvToRead(b, c), IrrToWrite(b, c)];
    assert EnvMipBlock(b, c) == [BindPipeline(b.cubeMipPipeline)] + loop + last;
    EnvLoopOther(b, 1, s);
    assert !Touches(s, last[0]) && !Touches(s, last[1]);
    UntouchedAppend(s, [BindPipeline(b.cubeMipPipeline)], loop);
    UntouchedAppend(s, [BindPipeline(b.cubeMipPipeline)] + loop, last);
  }

  lemma IrradianceOther(b: Bake, c: RangeChoice, s: Sub)
    requires BakeOk(b) && !InImage(b.env, s) && !InImage(b.irr, s) && !InImage(b.rad, s)
    ensures Untouched(s, IrradianceBlock(b, c)) && StartsWithBind(IrradianceBlock(b, c))
  {
    CubeMipsPositive(b);
    var cmds := IrradianceBlock(b, c);
    assert !Touches(s, cmds[1]) by {
      assert !ViewCovers(EnvSampled(b, c), s) && !ViewCovers(IrrDefault(b, c), s);
    }
  }

  lemma RadianceOther(b: Bake, c: RangeChoice, s: Sub)
    requires BakeOk(b) && !InImage(b.env, s) && !InImage(b.rad, s)
    ensures Untouched(s, RadianceBlock(b, c)) && StartsWithBind(RadianceBlock(b, c))
  {
    CubeMipsPositive(b);
    var cmds := RadianceBlock(b, c);
    var head := cmds[..2];
    var loop := RadLoop(b, 0);
    var last := [cmds[|cmds| - 1]];
    assert cmds == head + loop + last;
    assert !Touches(s, head[1]) by {
      assert !ViewCovers(EnvSampled(b, c), s);
    }
    RadLoopOther(b, 0, s);
    UntouchedAppend(s, head, loop);
    UntouchedAppend(s, head + loop, last);
  }

  // ---------------------------------------------------------------------
  // The bake, one subresource at a time

  /** A subresource of none of the four images is never named: valid,
      and left as created. */
  lemma BakeOutside(b: Bake, c: RangeChoice, s: Sub)
    requires BakeOk(b)
    requires !InImage(b.src, s) && !InImage(b.env, s) && !InImage(b.irr, s) && !InImage(b.rad, s)
    ensures Chained(s, SkyboxTransfer(b), SkyboxCompute(b, c)) == Some(Fresh)
  {
    TransferOnSource(b, s);
    assert AcrossSemaphore(Fresh) == Fresh;
    var r0 := Run(Fresh, map[]);
    EnvStartOther(b, c, s);
    CubeOther(b, c, s);
    EnvMipOther(b, c, s);
    IrradianceOther(b, c, s);
    RadianceOther(b, c, s);
    ComputeThrough(b, c, s, r0);
    ExecFrame(s, r0, EnvStart(b, c));
    var r1 := Exec(s, r0, EnvStart(b, c)).value;
    BindFrame(s, r1, CubeBlock(b, c));
    var r2 := Exec(s, r1, CubeBlock(b, c)).value;
    BindFrame(s, r2, EnvMipBlock(b, c));
    var r3 := Exec(s, r2, EnvMipBlock(b, c)).value;
    BindFrame(s, r3, IrradianceBlock(b, c));
    var r4 := Exec(s, r3, IrradianceBlock(b, c)).value;
    BindFrame(s, r4, RadianceBlock(b, c));
  }

  /** The source is sampled once, by the projection, SHADER_READ_ONLY with
      the copy made available. */
  lemma BakeSource(b: Bake, s: Sub)
    requires BakeOk(b) && InImage(b.src, s)
    ensures Chained(s, SkyboxTransfer(b), SkyboxCompute(b, WholeImage)) == Some(Ready)
  {
    var c := WholeImage;
    TransferOnSource(b, s);
    assert AcrossSemaphore(Ready) == Ready;
    var r0 := Run(Ready, map[]);
    EnvStartOther(b, c, s);
    EnvMipOther(b, c, s);
    IrradianceOther(b, c, s);
    RadianceOther(b, c, s);
    ComputeThrough(b, c, s, r0);
    ExecFrame(s, r0, EnvStart(b, c));
    var r1 := Exec(s, r0, EnvStart(b, c)).value;
    CubeOnSource(b, s, r1);
    var r2 := Exec(s, r1, CubeBlock(b, c)).value;
    BindFrame(s, r2, EnvMipBlock(b, c));
    var r3 := Exec(s, r2, EnvMipBlock(b, c)).value;
    BindFrame(s, r3, IrradianceBlock(b, c));
    var r4 := Exec(s, r3, IrradianceBlock(b, c)).value;
    BindFrame(s, r4, RadianceBlock(b, c));
  }

  /** Every level and face of the environment cube: projected or built
      from the level above, then sampled by both convolutions. */
  lemma BakeEnvironment(b: Bake, s: Sub)
    requires BakeOk(b) && InImage(b.env, s)
    ensures Chained(s, SkyboxTransfer(b), SkyboxCompute(b, WholeImage)) == Some(Ready)
  {
    var c := WholeImage;
    TransferOnSource(b, s);
    assert AcrossSemaphore(Fresh) == Fresh;
    var r0 := Run(Fresh, map[]);
    ComputeThrough(b, c, s, r0);
    ExecSingle(s, r0, EnvStart(b, c)[0]);
    var r1 := Exec(s, r0, EnvStart(b, c)).value;
    assert r1.sub == Writing;
    CubeOnEnv(b, s, r1);
    var r2 := Exec(s, r1, CubeBlock(b, c)).value;
    EnvMipOnEnv(b, s, r2);
    var r3 := Exec(s, r2, EnvMipBlock(b, c)).value;
    IrradianceOnEnv(b, s, r3);
    var r4 := Exec(s, r3, IrradianceBlock(b, c)).value;
    RadianceOnEnv(b, s, r4);
  }

  lemma BakeIrradiance(b: Bake, s: Sub)
    requires BakeOk(b) && InImage(b.irr, s)
    ensures Chained(s, SkyboxTransfer(b), SkyboxCompute(b, WholeImage)) == Some(Ready)
  {
    var c := WholeImage;
    TransferOnSource(b, s);
    assert AcrossSemaphore(Fresh) == Fresh;
    var r0 := Run(Fresh, map[]);
    EnvStartOther(b, c, s);
    CubeOther(b, c, s);
    RadianceOther(b, c, s);
    ComputeThrough(b, c, s, r0);
    ExecFrame(s, r0, EnvStart(b, c));
    var r1 := Exec(s, r0, EnvStart(b, c)).value;
    BindFrame(s, r1, CubeBlock(b, c));
    var r2 := Exec(s, r1, CubeBlock(b, c)).value;
    EnvMipOnIrr(b, s, r2);
    var r3 := Exec(s, r2, EnvMipBlock(b, c)).value;
    IrradianceOnIrr(b, s, r3);
    var r4 := Exec(s, r3, IrradianceBlock(b, c)).value;
    BindFrame(s, r4, RadianceBlock(b, c));
  }

  lemma BakeRadiance(b: Bake, s: Sub)
    requires BakeOk(b) && InImage(b.rad, s)
    ensures Chained(s, SkyboxTransfer(b), SkyboxCompute(b, WholeImage)) == Some(Ready)
  {
    var c := WholeImage;
    TransferOnSource(b, s);
    assert AcrossSemaphore(Fresh) == Fresh;
    var r0 := Run(Fresh, map[]);
    EnvStartOther(b, c, s);
    CubeOther(b, c, s);
    EnvMipOther(b, c, s);
    ComputeThrough(b, c, s, r0);
    ExecFrame(s, r0, EnvStart(b, c));
    var r1 := Exec(s, r0, EnvStart(b, c)).value;
    BindFrame(s, r1, CubeBlock(b, c));
    var r2 := Exec(s, r1, CubeBlock(b, c)).value;
    BindFrame(s, r2, EnvMipBlock(b, c));
    var r3 := Exec(s, r2, EnvMipBlock(b, c)).value;
    IrradianceOnRad(b, s, r3);
    var r4 := Exec(s, r3, IrradianceBlock(b, c)).value;
    RadianceOnRad(b, s, r4);
  }

  /** With whole-image ranges both skybox streams are valid for every
      subresource, and every subresource of the source and of the three
      cubes ends SHADER_READ_ONLY with every write made available, the
      state the skybox and lighting passes sample them in. */
  lemma WholeImageBakeOk(b: Bake)
    requires BakeOk(b)
    ensures ChainOk(SkyboxTransfer(b), SkyboxCompute(b, WholeImage))
    ensures forall s :: InImage(b.src, s) || InImage(b.env, s) || InImage(b.irr, s) || InImage(b.rad, s) ==>
      Chained(s, SkyboxTransfer(b), SkyboxCompute(b, WholeImage)) == Some(Ready)
  {
    forall s ensures Chained(s, SkyboxTransfer(b), SkyboxCompute(b, WholeImage)) ==
      if InImage(b.src, s) || InImage(b.env, s) || InImage(b.irr, s) || InImage(b.rad, s) then Some(Ready) else Some(Fresh)
    {
      if InImage(b.src, s) {
        BakeSource(b, s);
      } else if InImage(b.env, s) {
        BakeEnvironment(b, s);
      } else if InImage(b.irr, s) {
        BakeIrradiance(b, s);
      } else if InImage(b.rad, s) {
        BakeRadiance(b, s);
      } else {
        BakeOutside(b, WholeImage, s);
      }
    }
  }

  /** As written, only face 0 of mip 0 of the radiance cube is made
      GENERAL, yet the first radiance iteration binds all six faces of
      mip 0 as a GENERAL storage image: the compute stream is invalid for
      face 1, whatever the size of the cube. */
  lemma AsWrittenBakeFails(b: Bake)
    requires BakeOk(b)
    ensures Chained(Sub(b.rad.handle, 0, 1), SkyboxTransfer(b), SkyboxCompute(b, AsWritten)) == None
    ensures !ChainOk(SkyboxTransfer(b), SkyboxCompute(b, AsWritten))
  {
    var c := AsWritten;
    var s := Sub(b.rad.handle, 0, 1);
    CubeMipsPositive(b);
    TransferOnSource(b, s);
    assert AcrossSemaphore(Fresh) == Fresh;
    var r0 := Run(Fresh, map[]);
    EnvStartOther(b, c, s);
    CubeOther(b, c, s);
    EnvMipOther(b, c, s);
    ComputeThrough(b, c, s, r0);
    ExecFrame(s, r0, EnvStart(b, c));
    var r1 := Exec(s, r0, EnvStart(b, c)).value;
    BindFrame(s, r1, CubeBlock(b, c));
    var r2 := Exec(s, r1, CubeBlock(b, c)).value;
    BindFrame(s, r2, EnvMipBlock(b, c));
    var r3 := Exec(s, r2, EnvMipBlock(b, c)).value;
    assert Untouched(s, IrradianceBlock(b, c)) by {
      assert !ViewCovers(EnvSampled(b, c), s) && !ViewCovers(IrrDefault(b, c), s);
      assert TransitionRange(b.rad, c) == ColorSubresourceRange();
    }
    BindFrame(s, r3, IrradianceBlock(b, c));
    var r4 := Exec(s, r3, IrradianceBlock(b, c)).value;
    assert r4.sub == Fresh;
    RadianceFails(b, s, r4);
  }

  /** The radiance block on face 1 of mip 0, entered UNDEFINED. */
  lemma RadianceFails(b: Bake, s: Sub, r: Run)
    requires BakeOk(b) && s == Sub(b.rad.handle, 0, 1) && r.sub.layout == Undefined
    ensures Exec(s, r, RadianceBlock(b, AsWritten)) == None
  {
    CubeMipsPositive(b);
    var cmds := RadianceBlock(b, AsWritten);
    var head := cmds[..2];
    var it := RadIteration(b, 0);
    var rest := RadLoop(b, 1) + [cmds[|cmds| - 1]];
    assert cmds == head + it + rest;
    var r1 := r.(bound := map[]);
    var w0 := Write(Slot(0, 0), Descriptor(EnvSampled(b, AsWritten), ShaderReadOnly, CombinedImageSampler));
    PushedOne(r1.bound, w0);
    var r2 := r1.(bound := map[w0.slot := w0.descriptor]);
    ExecAppend(s, r, [head[0]], [head[1]]);
    assert head == [head[0]] + [head[1]];
    ExecSingle(s, r, head[0]);
    ExecSingle(s, r1, head[1]);
    var d := Descriptor(RadMip(b, 0), General, StorageImage);
    PushedOne(r2.bound, Write(Slot(1, 0), d));
    var r3 := r2.(bound := r2.bound[Slot(1, 0) := d]);
    assert Slot(1, 0) in r3.bound && r3.bound[Slot(1, 0)] == d;
    assert !DescriptorOk(s, r3.sub, Slot(1, 0), d);
    assert !DispatchOk(s, r3);
    ExecAppend(s, r2, [it[0]], [it[1]]);
    assert it == [it[0]] + [it[1]];
    ExecSingle(s, r2, it[0]);
    ExecSingle(s, r3, it[1]);
    ExecAppend(s, r, head, it);
    ExecFailStays(s, r, head + it, rest);
  }
}
