/** What a recorded command buffer requires of, and does to, each image
    subresource. Recording is modelled, not GPU execution: a stream is the
    sequence of commands recorded into one command buffer, and it is run
    here one subresource at a time against the layout that subresource is
    in and the writes to it that no barrier has yet made available.

    - A barrier whose old and new layouts are equal is a memory dependency
      only (synchronization2: no layout transition is performed). It makes
      the pending writes available when its source access scope covers them.
    - A barrier with different layouts is a transition; its old layout must
      be UNDEFINED (contents discarded) or the layout the subresource is in.
    - A buffer-to-image copy names the layout its destination is in, which
      must be TRANSFER_DST_OPTIMAL or GENERAL and must be the actual one.
    - Push descriptors are incremental: a push replaces only the slots it
      writes. Binding a pipeline is taken to forget all pushed descriptors
      (every dispatch of the renderer re-pushes after a bind).
    - A dispatch uses every descriptor bound at that point: its image layout
      must be the one the subresource is in, a storage image must be
      GENERAL, and the source slot (binding 0, element 0, which every compute
      shader of the renderer reads) must not have unmade writes. Every other
      bound slot is an image the shader writes.
    Write-after-write and write-after-read ordering are not checked. */
module Commands {
  import opened Vk
  import opened VkUtil

  /** One subresource: image, mip level, array layer. */
  datatype Sub = Sub(image: Handle, mip: nat, layer: nat)

  /** An image as the commands see it: its handle and shape. */
  datatype ImageRef = ImageRef(handle: Handle, mips: nat, layers: nat)

  /** An image view: its handle, its image and its subresource range. */
  datatype ViewRef = ViewRef(view: Handle, image: ImageRef, range: SubresourceRange)

  datatype DescriptorType = StorageImage | CombinedImageSampler

  /** A VkDescriptorImageInfo as pushed: the view, the layout it claims and
      the descriptor type of its write. */
  datatype Descriptor = Descriptor(view: ViewRef, layout: Layout, descriptorType: DescriptorType)

  /** A descriptor slot: binding and array element. */
  datatype Slot = Slot(binding: nat, element: nat)

  const SOURCE_SLOT: Slot := Slot(0, 0)

  datatype Write = Write(slot: Slot, descriptor: Descriptor)

  datatype Cmd =
    | CopyBuffer(src: Handle, dst: Handle, size: nat)
    | CopyBufferToImage(buffer: Handle, dstImage: ImageRef, dstLayout: Layout, region: SubresourceLayers, extent: Extent)
    | Barrier(image: ImageRef, range: SubresourceRange, oldLayout: Layout, newLayout: Layout,
              srcStage: Flags64, srcAccess: Flags64, dstStage: Flags64, dstAccess: Flags64)
    | BindPipeline(pipeline: Handle)
    | PushDescriptors(pipelineLayout: Handle, writes: seq<Write>)
    | Dispatch(x: nat, y: nat, z: nat)

  /** A subresource's layout and the accesses written to it that have not
      been made available yet. */
  datatype SubState = SubState(layout: Layout, pending: Flags64)

  /** The state a stream runs in, for one subresource: that subresource's
      state and the pushed descriptors. */
  datatype Run = Run(sub: SubState, bound: map<Slot, Descriptor>)

  /** A freshly created image: UNDEFINED, nothing written. */
  const Fresh: SubState := SubState(Undefined, ACCESS_NONE)

  predicate ImageCovers(img: ImageRef, r: SubresourceRange, s: Sub)
  {
    s.image == img.handle && Covers(r, img.layers, s.mip, s.layer)
  }

  predicate ViewCovers(v: ViewRef, s: Sub)
  {
    ImageCovers(v.image, v.range, s)
  }

  predicate CopyCovers(img: ImageRef, region: SubresourceLayers, s: Sub)
  {
    s.image == img.handle && s.mip == region.mip && CoversLayer(region, s.layer)
  }

  /** The pending writes after a barrier with source access scope `srcAccess`. */
  function Flush(pending: Flags64, srcAccess: Flags64): (p: Flags64)
    ensures p == ACCESS_NONE || p == pending
    ensures p == ACCESS_NONE <==> pending & !srcAccess == 0
  {
    if pending & !srcAccess == 0 then ACCESS_NONE else pending
  }

  function Pushed(bound: map<Slot, Descriptor>, writes: seq<Write>): (b: map<Slot, Descriptor>)
    ensures b.Keys == bound.Keys + set w <- writes :: w.slot
    decreases |writes|
  {
    if writes == [] then bound else Pushed(bound[writes[0].slot := writes[0].descriptor], writes[1..])
  }

  lemma PushedOne(bound: map<Slot, Descriptor>, w: Write)
    ensures Pushed(bound, [w]) == bound[w.slot := w.descriptor]
  {
    assert [w][1..] == [];
  }

  lemma PushedTwo(bound: map<Slot, Descriptor>, w0: Write, w1: Write)
    ensures Pushed(bound, [w0, w1]) == bound[w0.slot := w0.descriptor][w1.slot := w1.descriptor]
  {
    assert [w0, w1][1..] == [w1];
    PushedOne(bound[w0.slot := w0.descriptor], w1);
  }

  /** Only the two elements of binding 0 are bound, as in the mip loops. */
  predicate TwoSlots(bound: map<Slot, Descriptor>)
  {
    forall slot <- bound :: slot == Slot(0, 0) || slot == Slot(0, 1)
  }

  /** The dispatch's demand on one bound descriptor. */
  predicate DescriptorOk(s: Sub, sub: SubState, slot: Slot, d: Descriptor)
  {
    ViewCovers(d.view, s) ==>
      && d.layout == sub.layout
      && (d.descriptorType == StorageImage ==> d.layout == General)
      && (slot == SOURCE_SLOT ==> sub.pending == ACCESS_NONE)
  }

  predicate DispatchOk(s: Sub, r: Run)
  {
    forall slot <- r.bound :: DescriptorOk(s, r.sub, slot, r.bound[slot])
  }

  /** One bad descriptor is enough to make a dispatch invalid. */
  lemma DispatchRefuted(s: Sub, r: Run, slot: Slot)
    requires slot in r.bound && !DescriptorOk(s, r.sub, slot, r.bound[slot])
    ensures !DispatchOk(s, r)
  {
  }

  predicate DispatchWrites(s: Sub, bound: map<Slot, Descriptor>)
  {
    exists slot <- bound :: slot != SOURCE_SLOT && ViewCovers(bound[slot].view, s)
  }

  /** One command, for subresource `s`: None when the command is invalid for it. */
  function Step(s: Sub, r: Run, c: Cmd): Option<Run>
  {
    match c
    case CopyBuffer(_, _, _) => Some(r)
    case CopyBufferToImage(_, dst, dstLayout, region, _) =>
      if !CopyCovers(dst, region, s) then Some(r)
      else if (dstLayout == TransferDst || dstLayout == General) && r.sub.layout == dstLayout then
        Some(r.(sub := r.sub.(pending := r.sub.pending | ACCESS_TRANSFER_WRITE)))
      else None
    case Barrier(img, range, oldLayout, newLayout, _, srcAccess, _, _) =>
      if !ImageCovers(img, range, s) then Some(r)
      else if oldLayout == newLayout then Some(r.(sub := r.sub.(pending := Flush(r.sub.pending, srcAccess))))
      else if oldLayout == Undefined then Some(r.(sub := SubState(newLayout, ACCESS_NONE)))
      else if oldLayout == r.sub.layout then Some(r.(sub := SubState(newLayout, Flush(r.sub.pending, srcAccess))))
      else None
    case BindPipeline(_) => Some(r.(bound := map[]))
    case PushDescriptors(_, writes) => Some(r.(bound := Pushed(r.bound, writes)))
    case Dispatch(_, _, _) =>
      if !DispatchOk(s, r) then None
      else if DispatchWrites(s, r.bound) then Some(r.(sub := r.sub.(pending := r.sub.pending | ACCESS_SHADER_WRITE)))
      else Some(r)
  }

  /** The stream, for subresource `s`, from the front. */
  function Exec(s: Sub, r: Run, cmds: seq<Cmd>): Option<Run>
    decreases |cmds|
  {
    if cmds == [] then Some(r)
    else match Step(s, r, cmds[0])
      case None => None
      case Some(r') => Exec(s, r', cmds[1..])
  }

  function Then(s: Sub, o: Option<Run>, cmds: seq<Cmd>): Option<Run>
  {
    match o
    case None => None
    case Some(r) => Exec(s, r, cmds)
  }

  /** Running two pieces of a stream one after the other is running their
      concatenation. */
  lemma {:induction false} ExecAppend(s: Sub, r: Run, a: seq<Cmd>, b: seq<Cmd>)
    ensures Exec(s, r, a + b) == Then(s, Exec(s, r, a), b)
    decreases |a|
  {
    if a != [] {
      assert (a + b)[0] == a[0];
      assert (a + b)[1..] == a[1..] + b;
      match Step(s, r, a[0])
      case None =>
      case Some(r') => ExecAppend(s, r', a[1..], b);
    } else {
      assert a + b == b;
    }
  }

  lemma ExecSingle(s: Sub, r: Run, c: Cmd)
    ensures Exec(s, r, [c]) == Step(s, r, c)
  {
    assert [c][1..] == [];
  }

  /** A failure is never undone by what follows. */
  lemma ExecFailStays(s: Sub, r: Run, a: seq<Cmd>, b: seq<Cmd>)
    requires Exec(s, r, a) == None
    ensures Exec(s, r, a + b) == None
  {
    ExecAppend(s, r, a, b);
  }

  /** Does the command concern subresource `s`? */
  predicate Touches(s: Sub, c: Cmd)
  {
    match c
    case CopyBufferToImage(_, dst, _, region, _) => CopyCovers(dst, region, s)
    case Barrier(img, range, _, _, _, _, _, _) => ImageCovers(img, range, s)
    case PushDescriptors(_, writes) => exists w <- writes :: ViewCovers(w.descriptor.view, s)
    case _ => false
  }

  predicate Untouched(s: Sub, cmds: seq<Cmd>)
  {
    forall i :: 0 <= i < |cmds| ==> !Touches(s, cmds[i])
  }

  predicate BoundAvoids(s: Sub, bound: map<Slot, Descriptor>)
  {
    forall slot <- bound :: !ViewCovers(bound[slot].view, s)
  }

  lemma {:induction false} PushedAvoids(s: Sub, bound: map<Slot, Descriptor>, writes: seq<Write>)
    requires BoundAvoids(s, bound)
    requires forall w <- writes :: !ViewCovers(w.descriptor.view, s)
    ensures BoundAvoids(s, Pushed(bound, writes))
    decreases |writes|
  {
    if writes != [] {
      assert writes[0] in writes;
      assert forall w <- writes[1..] :: w in writes;
      PushedAvoids(s, bound[writes[0].slot := writes[0].descriptor], writes[1..]);
    }
  }

  /** The frame rule: a stream that never names `s`, entered with no
      descriptor on `s` bound, is valid for `s` and leaves its state as it
      was, and still no descriptor on `s` bound. */
  lemma {:induction false} ExecFrame(s: Sub, r: Run, cmds: seq<Cmd>)
    requires Untouched(s, cmds) && BoundAvoids(s, r.bound)
    ensures Exec(s, r, cmds).Some?
    ensures Exec(s, r, cmds).value.sub == r.sub
    ensures BoundAvoids(s, Exec(s, r, cmds).value.bound)
    decreases |cmds|
  {
    if cmds != [] {
      var c := cmds[0];
      assert !Touches(s, c);
      if c.PushDescriptors? {
        PushedAvoids(s, r.bound, c.writes);
      }
      var r' := Step(s, r, c).value;
      assert r'.sub == r.sub && BoundAvoids(s, r'.bound);
      assert Untouched(s, cmds[1..]) by {
        forall i | 0 <= i < |cmds[1..]| ensures !Touches(s, cmds[1..][i]) {
          assert cmds[1..][i] == cmds[i + 1];
        }
      }
      ExecFrame(s, r', cmds[1..]);
    }
  }

  lemma UntouchedAppend(s: Sub, a: seq<Cmd>, b: seq<Cmd>)
    requires Untouched(s, a) && Untouched(s, b)
    ensures Untouched(s, a + b)
  {
    assert forall i :: 0 <= i < |a + b| ==> (a + b)[i] == if i < |a| then a[i] else b[i - |a|];
  }

  /** A stream submitted on its own, starting from subresource state `sub`. */
  function Submitted(s: Sub, sub: SubState, cmds: seq<Cmd>): Option<SubState>
  {
    match Exec(s, Run(sub, map[]), cmds)
    case None => None
    case Some(r) => Some(r.sub)
  }

  /** A semaphore signalled at the end of one submission and waited on at
      the start of the next (both with ALL_COMMANDS) makes every write of
      the first available; layouts carry over. */
  function AcrossSemaphore(sub: SubState): SubState
  {
    sub.(pending := ACCESS_NONE)
  }

  /** The transfer stream, then the compute stream that waits for it, for
      one subresource of an image created just before them. */
  function Chained(s: Sub, transfer: seq<Cmd>, compute: seq<Cmd>): Option<SubState>
  {
    match Submitted(s, Fresh, transfer)
    case None => None
    case Some(sub) => Submitted(s, AcrossSemaphore(sub), compute)
  }

  /** Both streams are valid for every subresource. */
  ghost predicate ChainOk(transfer: seq<Cmd>, compute: seq<Cmd>)
  {
    forall s :: Chained(s, transfer, compute).Some?
  }

  /** Which ranges a whole-image layout transition uses: colorSubresourceRange()
      as the renderer records it, or every mip level and layer of the image. */
  datatype RangeChoice = AsWritten | WholeImage

  function WholeImageRange(img: ImageRef): (r: SubresourceRange)
    ensures forall m: nat, l: nat :: Covers(r, img.layers, m, l) <==> m < img.mips && l < img.layers
  {
    SubresourceRange(ASPECT_COLOR, 0, img.mips, 0, RemainingLayers)
  }

  function TransitionRange(img: ImageRef, c: RangeChoice): SubresourceRange
  {
    if c == AsWritten then ColorSubresourceRange() else WholeImageRange(img)
  }

  /** The commands of a loop, block after block. */
  function Flatten(bs: seq<seq<Cmd>>): seq<Cmd>
    decreases |bs|
  {
    if bs == [] then [] else bs[0] + Flatten(bs[1..])
  }

  lemma {:induction false} FlattenSnoc(bs: seq<seq<Cmd>>, b: seq<Cmd>)
    ensures Flatten(bs + [b]) == Flatten(bs) + b
    decreases |bs|
  {
    if bs == [] {
      assert [b][1..] == [];
      assert Flatten([b]) == b + [];
    } else {
      assert (bs + [b])[0] == bs[0];
      assert (bs + [b])[1..] == bs[1..] + [b];
      FlattenSnoc(bs[1..], b);
    }
  }

  lemma {:induction false} FlattenSplit(bs: seq<seq<Cmd>>, k: nat)
    requires k < |bs|
    ensures Flatten(bs) == Flatten(bs[..k]) + bs[k] + Flatten(bs[k + 1..])
    decreases k
  {
    if k == 0 {
      assert bs[..0] == [];
    } else {
      FlattenSplit(bs[1..], k - 1);
      assert bs[1..][..k - 1] == bs[..k][1..];
      assert bs[1..][k - 1] == bs[k];
      assert bs[1..][k..] == bs[k + 1..];
      assert bs[..k][0] == bs[0];
    }
  }

  /** No block names `s`. */
  predicate BlocksUntouched(s: Sub, bs: seq<seq<Cmd>>)
  {
    forall i :: 0 <= i < |bs| ==> Untouched(s, bs[i])
  }

  /** No block names `s`, and each starts by binding a pipeline. */
  predicate BlocksRebind(s: Sub, bs: seq<seq<Cmd>>)
  {
    forall i :: 0 <= i < |bs| ==> StartsWithBind(bs[i]) && Untouched(s, bs[i])
  }

  lemma {:induction false} FlattenUntouched(s: Sub, bs: seq<seq<Cmd>>)
    requires BlocksUntouched(s, bs)
    ensures Untouched(s, Flatten(bs))
    decreases |bs|
  {
    if bs != [] {
      FlattenUntouched(s, bs[1..]);
      UntouchedAppend(s, bs[0], Flatten(bs[1..]));
    }
  }

  predicate StartsWithBind(b: seq<Cmd>)
  {
    |b| > 0 && b[0].BindPipeline?
  }

  /** A block that starts by binding a pipeline and never names `s` leaves
      `s` as it was, whatever was bound before it. */
  lemma BindFrame(s: Sub, r: Run, b: seq<Cmd>)
    requires StartsWithBind(b) && Untouched(s, b)
    ensures Exec(s, r, b).Some? && Exec(s, r, b).value.sub == r.sub
    ensures BoundAvoids(s, Exec(s, r, b).value.bound)
  {
    assert b == [b[0]] + b[1..];
    ExecAppend(s, r, [b[0]], b[1..]);
    ExecSingle(s, r, b[0]);
    assert Untouched(s, b[1..]) by {
      forall i | 0 <= i < |b[1..]| ensures !Touches(s, b[1..][i]) {
        assert b[1..][i] == b[i + 1];
      }
    }
    ExecFrame(s, r.(bound := map[]), b[1..]);
  }

  lemma {:induction false} FlattenBindFrame(s: Sub, r: Run, bs: seq<seq<Cmd>>)
    requires BlocksRebind(s, bs)
    ensures Exec(s, r, Flatten(bs)).Some? && Exec(s, r, Flatten(bs)).value.sub == r.sub
    decreases |bs|
  {
    if bs != [] {
      BindFrame(s, r, bs[0]);
      ExecAppend(s, r, bs[0], Flatten(bs[1..]));
      FlattenBindFrame(s, Exec(s, r, bs[0]).value, bs[1..]);
    }
  }
}
