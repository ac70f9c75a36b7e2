/** The two command buffers createModel records for the textures: the
    transfer stream uploads mip 0 of every image, the compute stream then
    builds each image's mip chain one level at a time and leaves the image
    for sampling. Both are given by the barrier range the whole-image
    transitions use: as written (colorSubresourceRange, mip 0 of layer 0) or
    every level of the image. */
module TextureStreams {
  import opened Vk
  import opened VkUtil
  import opened Mips
  import opened Commands

  /** One texture of the upload: the image, its staging buffer, its decoded
      extent, the mip pipeline it is bound with (sRGB or not) and the views
      made for its levels (mipViews[j] views level j alone). */
  datatype Texture = Texture(image: ImageRef, staging: Handle, width: nat, height: nat, pipeline: Handle, mipViews: seq<Handle>)

  predicate TextureOk(t: Texture)
  {
    t.image.layers == 1 && t.image.mips >= 1 && |t.mipViews| == t.image.mips
  }

  predicate TexturesOk(ts: seq<Texture>)
  {
    && (forall i :: 0 <= i < |ts| ==> TextureOk(ts[i]))
    && (forall i, j :: 0 <= i < j < |ts| ==> ts[i].image.handle != ts[j].image.handle)
  }

  /** The transfer part for one image: UNDEFINED to TRANSFER_DST, the copy
      of mip 0, TRANSFER_DST to GENERAL. */
  function TextureTransfer(t: Texture, c: RangeChoice): seq<Cmd>
  {
    var range := TransitionRange(t.image, c);
    [ Barrier(t.image, range, Undefined, TransferDst, STAGE_NONE, ACCESS_NONE, STAGE_COPY, ACCESS_TRANSFER_WRITE),
      CopyBufferToImage(t.staging, t.image, TransferDst, SubresourceLayers(ASPECT_COLOR, 0, 0, 1), Extent(t.width, t.height, 1)),
      Barrier(t.image, range, TransferDst, General, STAGE_COPY, ACCESS_TRANSFER_WRITE, STAGE_NONE, ACCESS_NONE) ]
  }

  function MipView(t: Texture, j: nat): ViewRef
    requires j < |t.mipViews|
  {
    ViewRef(t.mipViews[j], t.image, MipLayer0(j))
  }

  /** Iteration i of the mip loop: push {level i-1, level i} as the two
      storage images, dispatch over level i, then make level i's writes
      visible to the next iteration's reads (a memory-only barrier). */
  function MipIteration(t: Texture, pipelineLayout: Handle, i: nat): seq<Cmd>
    requires 1 <= i < |t.mipViews|
  {
    [ PushDescriptors(pipelineLayout, [
        Write(Slot(0, 0), Descriptor(MipView(t, i - 1), General, StorageImage)),
        Write(Slot(0, 1), Descriptor(MipView(t, i), General, StorageImage))]),
      Dispatch(DispatchGroups(t.width, i), DispatchGroups(t.height, i), 1),
      Barrier(t.image, MipLayer0(i), Undefined, Undefined,
              STAGE_COMPUTE_SHADER, ACCESS_SHADER_WRITE, STAGE_COMPUTE_SHADER, ACCESS_SHADER_READ) ]
  }

  /** Iterations 1 .. n-1. */
  function MipLoop(t: Texture, pipelineLayout: Handle, n: nat): seq<Cmd>
    requires n <= |t.mipViews|
  {
    if n <= 1 then [] else MipLoop(t, pipelineLayout, n - 1) + MipIteration(t, pipelineLayout, n - 1)
  }

  /** The compute part for one image: bind its mip pipeline, the mip loop,
      GENERAL to SHADER_READ_ONLY. */
  function TextureCompute(t: Texture, pipelineLayout: Handle, c: RangeChoice): seq<Cmd>
    requires TextureOk(t)
  {
    [BindPipeline(t.pipeline)] + MipLoop(t, pipelineLayout, t.image.mips)
    + [Barrier(t.image, TransitionRange(t.image, c), General, ShaderReadOnly,
               STAGE_COMPUTE_SHADER, ACCESS_SHADER_WRITE, STAGE_NONE, ACCESS_NONE)]
  }

  function TransferBlocks(ts: seq<Texture>, c: RangeChoice): (bs: seq<seq<Cmd>>)
    ensures |bs| == |ts| && forall i :: 0 <= i < |ts| ==> bs[i] == TextureTransfer(ts[i], c)
  {
    seq(|ts|, i requires 0 <= i < |ts| => TextureTransfer(ts[i], c))
  }

  function ComputeBlocks(ts: seq<Texture>, pipelineLayout: Handle, c: RangeChoice): (bs: seq<seq<Cmd>>)
    requires TexturesOk(ts)
    ensures |bs| == |ts| && forall i :: 0 <= i < |ts| ==> bs[i] == TextureCompute(ts[i], pipelineLayout, c)
  {
    seq(|ts|, i requires 0 <= i < |ts| => TextureCompute(ts[i], pipelineLayout, c))
  }

  predicate BufferCopies(cmds: seq<Cmd>)
  {
    forall i :: 0 <= i < |cmds| ==> cmds[i].CopyBuffer?
  }

  /** createModel's transfer stream: the material copy, the image uploads,
      then the vertex, index and indirect copies. */
  function ModelTransfer(pre: seq<Cmd>, ts: seq<Texture>, c: RangeChoice, post: seq<Cmd>): seq<Cmd>
  {
    pre + Flatten(TransferBlocks(ts, c)) + post
  }

  /** createModel's compute stream: every image's mip chain, in image order. */
  function ModelCompute(ts: seq<Texture>, pipelineLayout: Handle, c: RangeChoice): seq<Cmd>
    requires TexturesOk(ts)
  {
    Flatten(ComputeBlocks(ts, pipelineLayout, c))
  }

  /** The transition range covers exactly the image's subresources. */
  ghost predicate RangeFits(t: Texture, c: RangeChoice)
  {
    forall m: nat, l: nat :: Covers(TransitionRange(t.image, c), t.image.layers, m, l) <==> m < t.image.mips && l == 0
  }

  /** It does for whole-image ranges, and for the source's ranges exactly
      when the image has a single level. */
  lemma RangeFitsWhen(t: Texture, c: RangeChoice)
    requires TextureOk(t)
    ensures RangeFits(t, c) <==> c == WholeImage || t.image.mips == 1
  {
    if c == AsWritten && t.image.mips > 1 {
      assert Covers(TransitionRange(t.image, c), t.image.layers, 1, 0) != (1 < t.image.mips);
    }
  }

  // ---------------------------------------------------------------------
  // One image, one subresource

  predicate Inside(t: Texture, s: Sub)
  {
    s.image == t.image.handle && s.mip < t.image.mips && s.layer == 0
  }

  lemma TransferOther(t: Texture, c: RangeChoice, s: Sub)
    requires TextureOk(t) && (s.image != t.image.handle || !Inside(t, s))
    ensures Untouched(s, TextureTransfer(t, c))
  {
    var range := TransitionRange(t.image, c);
    if s.image == t.image.handle {
      assert !Covers(range, t.image.layers, s.mip, s.layer) by {
        if c == WholeImage {
        } else {
          assert ColorSubresourceRange() == range;
        }
      }
    }
  }

  /** The upload of mip 0, on a subresource of its own image: one the
      transition range covers ends GENERAL with no unmade write. */
  lemma TransferRun(t: Texture, c: RangeChoice, s: Sub, r: Run)
    requires TextureOk(t) && s.image == t.image.handle
    ensures Exec(s, r, TextureTransfer(t, c))
      == Some(if Covers(TransitionRange(t.image, c), t.image.layers, s.mip, s.layer)
              then r.(sub := SubState(General, ACCESS_NONE)) else r)
  {
    var cmds := TextureTransfer(t, c);
    var range := TransitionRange(t.image, c);
    assert Covers(range, t.image.layers, 0, 0);
    ExecAppend(s, r, [cmds[0]], cmds[1..]);
    ExecSingle(s, r, cmds[0]);
    var r1 := Step(s, r, cmds[0]).value;
    ExecAppend(s, r1, [cmds[1]], cmds[2..]);
    ExecSingle(s, r1, cmds[1]);
    var r2 := Step(s, r1, cmds[1]).value;
    assert cmds[1..][1..] == cmds[2..] == [cmds[2]];
    ExecSingle(s, r2, cmds[2]);
  }

  lemma {:induction false} MipLoopOther(t: Texture, pl: Handle, n: nat, s: Sub)
    requires TextureOk(t) && n <= t.image.mips
    requires s.image != t.image.handle || !Inside(t, s)
    ensures Untouched(s, MipLoop(t, pl, n))
  {
    if n > 1 {
      MipLoopOther(t, pl, n - 1, s);
      UntouchedAppend(s, MipLoop(t, pl, n - 1), MipIteration(t, pl, n - 1));
    }
  }

  lemma ComputeOther(t: Texture, pl: Handle, c: RangeChoice, s: Sub)
    requires TextureOk(t) && (s.image != t.image.handle || !Inside(t, s))
    ensures Untouched(s, TextureCompute(t, pl, c))
    ensures StartsWithBind(TextureCompute(t, pl, c))
  {
    var range := TransitionRange(t.image, c);
    if s.image == t.image.handle {
      assert !Covers(range, t.image.layers, s.mip, s.layer) by {
        if c == AsWritten {
          assert ColorSubresourceRange() == range;
        }
      }
    }
    MipLoopOther(t, pl, t.image.mips, s);
    var last := [Barrier(t.image, range, General, ShaderReadOnly,
                         STAGE_COMPUTE_SHADER, ACCESS_SHADER_WRITE, STAGE_NONE, ACCESS_NONE)];
    UntouchedAppend(s, [BindPipeline(t.pipeline)], MipLoop(t, pl, t.image.mips));
    UntouchedAppend(s, [BindPipeline(t.pipeline)] + MipLoop(t, pl, t.image.mips), last);
  }

  /** One mip iteration on a level of its image that is GENERAL with
      nothing unmade: level i-1 is read, level i is written and then made
      available, so every level stays GENERAL with nothing unmade. */
  lemma IterationRun(t: Texture, pl: Handle, i: nat, s: Sub, r: Run)
    requires TextureOk(t) && 1 <= i < t.image.mips && Inside(t, s)
    requires r.sub == SubState(General, ACCESS_NONE) && TwoSlots(r.bound)
    ensures Exec(s, r, MipIteration(t, pl, i)).Some?
    ensures Exec(s, r, MipIteration(t, pl, i)).value.sub == r.sub
    ensures TwoSlots(Exec(s, r, MipIteration(t, pl, i)).value.bound)
  {
    var cmds := MipIteration(t, pl, i);
    var d0 := Descriptor(MipView(t, i - 1), General, StorageImage);
    var d1 := Descriptor(MipView(t, i), General, StorageImage);
    var writes := [Write(Slot(0, 0), d0), Write(Slot(0, 1), d1)];
    var bound := Pushed(r.bound, writes);
    PushedTwo(r.bound, writes[0], writes[1]);
    assert bound.Keys == {Slot(0, 0), Slot(0, 1)};
    var r1 := r.(bound := bound);
    ExecAppend(s, r, [cmds[0]], cmds[1..]);
    ExecSingle(s, r, cmds[0]);
    assert DispatchOk(s, r1);
    var r2 := Step(s, r1, cmds[1]).value;
    assert r2.sub == SubState(General, if s.mip == i then ACCESS_SHADER_WRITE else ACCESS_NONE) by {
      if s.mip == i {
        assert DispatchWrites(s, r1.bound) by {
          assert Slot(0, 1) in r1.bound && ViewCovers(r1.bound[Slot(0, 1)].view, s);
        }
      } else {
        assert !DispatchWrites(s, r1.bound);
      }
    }
    ExecAppend(s, r1, [cmds[1]], cmds[2..]);
    ExecSingle(s, r1, cmds[1]);
    assert cmds[1..][1..] == cmds[2..] == [cmds[2]];
    ExecSingle(s, r2, cmds[2]);
  }

  lemma {:induction false} MipLoopRun(t: Texture, pl: Handle, n: nat, s: Sub, r: Run)
    requires TextureOk(t) && 1 <= n <= t.image.mips && Inside(t, s)
    requires r.sub == SubState(General, ACCESS_NONE) && TwoSlots(r.bound)
    ensures Exec(s, r, MipLoop(t, pl, n)).Some?
    ensures Exec(s, r, MipLoop(t, pl, n)).value.sub == r.sub
    ensures TwoSlots(Exec(s, r, MipLoop(t, pl, n)).value.bound)
  {
    if n > 1 {
      MipLoopRun(t, pl, n - 1, s, r);
      ExecAppend(s, r, MipLoop(t, pl, n - 1), MipIteration(t, pl, n - 1));
      IterationRun(t, pl, n - 1, s, Exec(s, r, MipLoop(t, pl, n - 1)).value);
    }
  }

  /** The compute part, on a subresource of its own image that the upload
      left GENERAL: it ends SHADER_READ_ONLY, the layout the texture
      descriptors name. */
  lemma ComputeRun(t: Texture, pl: Handle, c: RangeChoice, s: Sub, r: Run)
    requires TextureOk(t) && Inside(t, s) && RangeFits(t, c)
    requires r.sub == SubState(General, ACCESS_NONE)
    ensures Exec(s, r, TextureCompute(t, pl, c)).Some?
    ensures Exec(s, r, TextureCompute(t, pl, c)).value.sub == SubState(ShaderReadOnly, ACCESS_NONE)
  {
    var loop := MipLoop(t, pl, t.image.mips);
    var last := Barrier(t.image, TransitionRange(t.image, c), General, ShaderReadOnly,
                        STAGE_COMPUTE_SHADER, ACCESS_SHADER_WRITE, STAGE_NONE, ACCESS_NONE);
    ExecAppend(s, r, [BindPipeline(t.pipeline)] + loop, [last]);
    ExecAppend(s, r, [BindPipeline(t.pipeline)], loop);
    ExecSingle(s, r, BindPipeline(t.pipeline));
    var r1 := r.(bound := map[]);
    MipLoopRun(t, pl, t.image.mips, s, r1);
    ExecSingle(s, Exec(s, r1, loop).value, last);
  }

  lemma {:induction false} MipLoopPrefix(t: Texture, pl: Handle, j: nat, n: nat)
    requires j <= n <= |t.mipViews|
    ensures exists rest :: MipLoop(t, pl, n) == MipLoop(t, pl, j) + rest
  {
    if j == n {
      assert MipLoop(t, pl, n) == MipLoop(t, pl, j) + [];
    } else {
      MipLoopPrefix(t, pl, j, n - 1);
      var rest :| MipLoop(t, pl, n - 1) == MipLoop(t, pl, j) + rest;
      if n <= 1 {
        assert MipLoop(t, pl, n) == MipLoop(t, pl, j) + [];
      } else {
        assert MipLoop(t, pl, n) == MipLoop(t, pl, j) + (rest + MipIteration(t, pl, n - 1));
      }
    }
  }

  /** Iteration m on its own level m when that level is not GENERAL: the
      dispatch finds level m bound as a GENERAL storage image and fails. */
  lemma IterationFails(t: Texture, pl: Handle, s: Sub, r: Run)
    requires TextureOk(t) && Inside(t, s) && 1 <= s.mip
    requires r.sub.layout != General
    ensures Exec(s, r, MipIteration(t, pl, s.mip)) == None
  {
    var m := s.mip;
    var it := MipIteration(t, pl, m);
    var d1 := Descriptor(MipView(t, m), General, StorageImage);
    var writes := [Write(Slot(0, 0), Descriptor(MipView(t, m - 1), General, StorageImage)), Write(Slot(0, 1), d1)];
    PushedTwo(r.bound, writes[0], writes[1]);
    var r1 := r.(bound := Pushed(r.bound, writes));
    assert Slot(0, 1) in r1.bound && r1.bound[Slot(0, 1)] == d1;
    assert !DescriptorOk(s, r1.sub, Slot(0, 1), d1);
    DispatchRefuted(s, r1, Slot(0, 1));
    assert it[0] == PushDescriptors(pl, writes);
    assert it[1..][0] == it[1];
    assert Step(s, r1, it[1]) == None;
  }

  /** As written: a level m >= 1 was never transitioned, so it is still in
      the layout it was created in when iteration m binds it as a GENERAL
      storage image, and the stream is invalid for it. */
  lemma ComputeFails(t: Texture, pl: Handle, s: Sub, r: Run)
    requires TextureOk(t) && Inside(t, s) && s.mip >= 1
    requires r.sub.layout != General
    ensures Exec(s, r, TextureCompute(t, pl, AsWritten)) == None
  {
    var m := s.mip;
    MipLoopPrefix(t, pl, m + 1, t.image.mips);
    var rest :| MipLoop(t, pl, t.image.mips) == MipLoop(t, pl, m + 1) + rest;
    var head := [BindPipeline(t.pipeline)] + MipLoop(t, pl, m);
    var it := MipIteration(t, pl, m);
    var tail := rest + [Barrier(t.image, TransitionRange(t.image, AsWritten), General, ShaderReadOnly,
                                STAGE_COMPUTE_SHADER, ACCESS_SHADER_WRITE, STAGE_NONE, ACCESS_NONE)];
    assert TextureCompute(t, pl, AsWritten) == head + it + tail;
    MipLoopUntouchedBelow(t, pl, m, s);
    UntouchedAppend(s, [BindPipeline(t.pipeline)], MipLoop(t, pl, m));
    BindFrame(s, r, head);
    IterationFails(t, pl, s, Exec(s, r, head).value);
    ExecAppend(s, r, head, it);
    ExecFailStays(s, r, head + it, tail);
  }

  lemma {:induction false} MipLoopUntouchedBelow(t: Texture, pl: Handle, n: nat, s: Sub)
    requires TextureOk(t) && Inside(t, s) && n <= s.mip
    ensures Untouched(s, MipLoop(t, pl, n))
  {
    if n > 1 {
      MipLoopUntouchedBelow(t, pl, n - 1, s);
      UntouchedAppend(s, MipLoop(t, pl, n - 1), MipIteration(t, pl, n - 1));
    }
  }

  // ---------------------------------------------------------------------
  // The whole upload, one subresource at a time

  /** The transfer stream around image k: everything before its block and
      everything after it leaves a subresource of image k alone. */
  lemma TransferAround(pre: seq<Cmd>, ts: seq<Texture>, c: RangeChoice, post: seq<Cmd>, k: nat, s: Sub)
    requires TexturesOk(ts) && BufferCopies(pre) && BufferCopies(post)
    requires k < |ts| && s.image == ts[k].image.handle
    ensures var bs := TransferBlocks(ts, c);
      && ModelTransfer(pre, ts, c, post) == (pre + Flatten(bs[..k])) + bs[k] + (Flatten(bs[k + 1..]) + post)
      && Untouched(s, pre + Flatten(bs[..k]))
      && Untouched(s, Flatten(bs[k + 1..]) + post)
  {
    var bs := TransferBlocks(ts, c);
    FlattenSplit(bs, k);
    var head, tail := bs[..k], bs[k + 1..];
    forall i | 0 <= i < |head| ensures Untouched(s, head[i]) {
      TransferOther(ts[i], c, s);
    }
    forall i | 0 <= i < |tail| ensures Untouched(s, tail[i]) {
      assert tail[i] == bs[k + 1 + i];
      TransferOther(ts[k + 1 + i], c, s);
    }
    FlattenUntouched(s, bs[..k]);
    FlattenUntouched(s, bs[k + 1..]);
    UntouchedAppend(s, pre, Flatten(bs[..k]));
    UntouchedAppend(s, Flatten(bs[k + 1..]), post);
  }

  /** The same for the compute stream; the other blocks each start by
      binding their own pipeline. */
  lemma ComputeAround(ts: seq<Texture>, pl: Handle, c: RangeChoice, k: nat, s: Sub)
    requires TexturesOk(ts) && k < |ts| && s.image == ts[k].image.handle
    ensures var bs := ComputeBlocks(ts, pl, c);
      && ModelCompute(ts, pl, c) == Flatten(bs[..k]) + bs[k] + Flatten(bs[k + 1..])
      && BlocksRebind(s, bs[..k]) && BlocksRebind(s, bs[k + 1..])
  {
    var bs := ComputeBlocks(ts, pl, c);
    FlattenSplit(bs, k);
    var head, tail := bs[..k], bs[k + 1..];
    forall i | 0 <= i < |head| ensures StartsWithBind(head[i]) && Untouched(s, head[i]) {
      ComputeOther(ts[i], pl, c, s);
    }
    forall i | 0 <= i < |tail| ensures StartsWithBind(tail[i]) && Untouched(s, tail[i]) {
      assert tail[i] == bs[k + 1 + i];
      ComputeOther(ts[k + 1 + i], pl, c, s);
    }
  }

  /** The transfer stream on a subresource of image k: only image k's
      upload acts on it, and it ends GENERAL exactly where the transition
      range reaches, untouched elsewhere. */
  lemma TransferSub(pre: seq<Cmd>, ts: seq<Texture>, c: RangeChoice, post: seq<Cmd>, k: nat, s: Sub)
    requires TexturesOk(ts) && BufferCopies(pre) && BufferCopies(post)
    requires k < |ts| && s.image == ts[k].image.handle
    ensures Submitted(s, Fresh, ModelTransfer(pre, ts, c, post))
      == Some(if Covers(TransitionRange(ts[k].image, c), ts[k].image.layers, s.mip, s.layer)
              then SubState(General, ACCESS_NONE) else Fresh)
  {
    var bs := TransferBlocks(ts, c);
    TransferAround(pre, ts, c, post, k, s);
    var a, b := pre + Flatten(bs[..k]), Flatten(bs[k + 1..]) + post;
    var r0 := Run(Fresh, map[]);
    ExecFrame(s, r0, a);
    var r1 := Exec(s, r0, a).value;
    TransferRun(ts[k], c, s, r1);
    var r2 := Exec(s, r1, bs[k]).value;
    ExecFrame(s, r2, b);
    ExecAppend(s, r0, a, bs[k]);
    ExecAppend(s, r0, a + bs[k], b);
  }

  /** The compute stream on a subresource of image k, entered in state
      `sub`: only image k's block acts on it. */
  lemma ComputeSub(ts: seq<Texture>, pl: Handle, c: RangeChoice, k: nat, s: Sub, sub: SubState)
    requires TexturesOk(ts) && k < |ts| && s.image == ts[k].image.handle
    ensures var bs := ComputeBlocks(ts, pl, c);
      Submitted(s, sub, ModelCompute(ts, pl, c))
      == match Exec(s, Run(sub, map[]), Flatten(bs[..k]) + bs[k])
         case None => None
         case Some(r) => Some(r.sub)
    ensures var bs := ComputeBlocks(ts, pl, c);
      && Exec(s, Run(sub, map[]), Flatten(bs[..k])).Some?
      && Exec(s, Run(sub, map[]), Flatten(bs[..k])).value.sub == sub
  {
    var bs := ComputeBlocks(ts, pl, c);
    ComputeAround(ts, pl, c, k, s);
    var r0 := Run(sub, map[]);
    FlattenBindFrame(s, r0, bs[..k]);
    ExecAppend(s, r0, Flatten(bs[..k]) + bs[k], Flatten(bs[k + 1..]));
    match Exec(s, r0, Flatten(bs[..k]) + bs[k])
    case None =>
    case Some(r) => FlattenBindFrame(s, r, bs[k + 1..]);
  }

  /** A subresource inside no texture keeps its creation state: valid, and
      nothing done to it. */
  lemma ChainedOutside(pre: seq<Cmd>, ts: seq<Texture>, pl: Handle, c: RangeChoice, post: seq<Cmd>, s: Sub)
    requires TexturesOk(ts) && BufferCopies(pre) && BufferCopies(post)
    requires forall k :: 0 <= k < |ts| ==> !Inside(ts[k], s)
    ensures Chained(s, ModelTransfer(pre, ts, c, post), ModelCompute(ts, pl, c)) == Some(Fresh)
  {
    var tbs := TransferBlocks(ts, c);
    var cbs := ComputeBlocks(ts, pl, c);
    forall i | 0 <= i < |tbs| ensures Untouched(s, tbs[i]) {
      TransferOther(ts[i], c, s);
    }
    forall i | 0 <= i < |cbs| ensures StartsWithBind(cbs[i]) && Untouched(s, cbs[i]) {
      ComputeOther(ts[i], pl, c, s);
    }
    FlattenUntouched(s, tbs);
    UntouchedAppend(s, pre, Flatten(tbs));
    UntouchedAppend(s, pre + Flatten(tbs), post);
    ExecFrame(s, Run(Fresh, map[]), ModelTransfer(pre, ts, c, post));
    FlattenBindFrame(s, Run(Fresh, map[]), cbs);
  }

  /** A subresource of texture k, when the transitions reach the whole
      image: uploaded, its mip built, and left SHADER_READ_ONLY with every
      write made available. */
  lemma ChainedInside(pre: seq<Cmd>, ts: seq<Texture>, pl: Handle, c: RangeChoice, post: seq<Cmd>, k: nat, s: Sub)
    requires TexturesOk(ts) && BufferCopies(pre) && BufferCopies(post)
    requires k < |ts| && Inside(ts[k], s) && RangeFits(ts[k], c)
    ensures Chained(s, ModelTransfer(pre, ts, c, post), ModelCompute(ts, pl, c)) == Some(SubState(ShaderReadOnly, ACCESS_NONE))
  {
    var t := ts[k];
    assert Covers(TransitionRange(t.image, c), t.image.layers, s.mip, s.layer);
    TransferSub(pre, ts, c, post, k, s);
    var sub := SubState(General, ACCESS_NONE);
    assert AcrossSemaphore(sub) == sub;
    ComputeSub(ts, pl, c, k, s, sub);
    var bs := ComputeBlocks(ts, pl, c);
    var r0 := Run(sub, map[]);
    var r1 := Exec(s, r0, Flatten(bs[..k])).value;
    ExecAppend(s, r0, Flatten(bs[..k]), bs[k]);
    ComputeRun(t, pl, c, s, r1);
  }

  /** As written, a level m >= 1 of texture k is never transitioned out of
      UNDEFINED before the mip loop binds it as a GENERAL storage image:
      the compute stream is invalid for it. */
  lemma ChainedFails(pre: seq<Cmd>, ts: seq<Texture>, pl: Handle, post: seq<Cmd>, k: nat, s: Sub)
    requires TexturesOk(ts) && BufferCopies(pre) && BufferCopies(post)
    requires k < |ts| && Inside(ts[k], s) && s.mip >= 1
    ensures Chained(s, ModelTransfer(pre, ts, AsWritten, post), ModelCompute(ts, pl, AsWritten)) == None
  {
    var t := ts[k];
    assert !Covers(TransitionRange(t.image, AsWritten), t.image.layers, s.mip, s.layer) by {
      assert TransitionRange(t.image, AsWritten) == ColorSubresourceRange();
    }
    TransferSub(pre, ts, AsWritten, post, k, s);
    assert AcrossSemaphore(Fresh) == Fresh;
    ComputeSub(ts, pl, AsWritten, k, s, Fresh);
    var bs := ComputeBlocks(ts, pl, AsWritten);
    var r0 := Run(Fresh, map[]);
    var r1 := Exec(s, r0, Flatten(bs[..k])).value;
    ExecAppend(s, r0, Flatten(bs[..k]), bs[k]);
    ComputeFails(t, pl, s, r1);
  }

  /** With whole-image transitions the two streams are valid for every
      subresource, and every level of every texture ends SHADER_READ_ONLY,
      the layout its descriptor names. */
  lemma WholeImageUploadOk(pre: seq<Cmd>, ts: seq<Texture>, pl: Handle, post: seq<Cmd>)
    requires TexturesOk(ts) && BufferCopies(pre) && BufferCopies(post)
    ensures ChainOk(ModelTransfer(pre, ts, WholeImage, post), ModelCompute(ts, pl, WholeImage))
    ensures forall k, s :: 0 <= k < |ts| && Inside(ts[k], s) ==>
      Chained(s, ModelTransfer(pre, ts, WholeImage, post), ModelCompute(ts, pl, WholeImage)) == Some(SubState(ShaderReadOnly, ACCESS_NONE))
  {
    forall k, s | 0 <= k < |ts| && Inside(ts[k], s)
      ensures Chained(s, ModelTransfer(pre, ts, WholeImage, post), ModelCompute(ts, pl, WholeImage)) == Some(SubState(ShaderReadOnly, ACCESS_NONE))
    {
      RangeFitsWhen(ts[k], WholeImage);
      ChainedInside(pre, ts, pl, WholeImage, post, k, s);
    }
    forall s ensures Chained(s, ModelTransfer(pre, ts, WholeImage, post), ModelCompute(ts, pl, WholeImage)).Some? {
      if forall k :: 0 <= k < |ts| ==> !Inside(ts[k], s) {
        ChainedOutside(pre, ts, pl, WholeImage, post, s);
      }
    }
  }

  /** As written, the streams are valid exactly when no texture has more
      than one level; and every texture with more has its level 1 as a
      witness. */
  lemma AsWrittenUploadOkIff(pre: seq<Cmd>, ts: seq<Texture>, pl: Handle, post: seq<Cmd>)
    requires TexturesOk(ts) && BufferCopies(pre) && BufferCopies(post)
    ensures ChainOk(ModelTransfer(pre, ts, AsWritten, post), ModelCompute(ts, pl, AsWritten))
      <==> forall k :: 0 <= k < |ts| ==> ts[k].image.mips == 1
    ensures forall k :: 0 <= k < |ts| && ts[k].image.mips > 1 ==>
      Chained(Sub(ts[k].image.handle, 1, 0), ModelTransfer(pre, ts, AsWritten, post), ModelCompute(ts, pl, AsWritten)) == None
  {
    var transfer, compute := ModelTransfer(pre, ts, AsWritten, post), ModelCompute(ts, pl, AsWritten);
    forall k | 0 <= k < |ts| && ts[k].image.mips > 1
      ensures Chained(Sub(ts[k].image.handle, 1, 0), transfer, compute) == None
    {
      ChainedFails(pre, ts, pl, post, k, Sub(ts[k].image.handle, 1, 0));
    }
    if forall k :: 0 <= k < |ts| ==> ts[k].image.mips == 1 {
      forall s ensures Chained(s, transfer, compute).Some? {
        if k :| 0 <= k < |ts| && Inside(ts[k], s) {
          RangeFitsWhen(ts[k], AsWritten);
          ChainedInside(pre, ts, pl, AsWritten, post, k, s);
        } else {
          ChainedOutside(pre, ts, pl, AsWritten, post, s);
        }
      }
    }
  }
}
