/** The Vulkan calls the renderer makes, as events of a trace, and the
    lifecycle rules a trace must keep for the calls to be valid:

    - a handle is created once, and never VK_NULL_HANDLE;
    - only a live handle is destroyed, and as the kind of object it is
      (destroying VK_NULL_HANDLE is a no-op);
    - nothing is destroyed while a submission that uses it may still be
      executing, that is until its queue has been waited on;
    - a submission uses only live objects, and its command buffer is not
      still pending;
    - a command pool is reset only when its command buffer is not pending;
    - a binary semaphore is waited on only after it has been signalled,
      and signalled only when it is unsignalled;
    - the device is destroyed only when no object created from it is
      live, and the instance only when nothing else is.

    Handles whose creation lies outside the modelled code (pipelines,
    command pools and buffers for uploads, the upload semaphore, the
    skybox sampler) are never created in a trace; the rules above ask
    nothing of them except the pending state of command buffers and the
    semaphore's signal state. */
module Ledger {
  import opened Vk
  import opened Commands
  import opened Scene

  /** VkObjectType, for the objects the renderer creates and destroys. */
  datatype ObjectType =
    | InstanceObject | SurfaceObject | DeviceObject | SwapchainObject
    | ImageObject | ViewObject | MemoryObject | BufferObject | SamplerObject
    | DescriptorPoolObject | PipelineLayoutObject | PipelineObject
    | CommandPoolObject | SemaphoreObject | FenceObject

  /** What a create or allocate call was given. */
  datatype Info =
    | NoInfo
    | ImageCreate(image: ImageCreateInfo)
    | ViewCreate(view: ImageViewCreateInfo)
    | BufferCreate(buffer: BufferCreateInfo)
    | MemoryAllocate(memory: MemoryAllocateInfo)
    | SwapchainCreate(swapchain: SwapchainCreateInfo)
    | DeviceCreate(queueFamilies: seq<nat>)
    | CommandPoolCreate(queueFamily: nat, transient: bool)
    | FenceCreate(signaled: bool)
    | DescriptorPoolCreate(maxSets: nat, descriptorCount: nat)

  /** One Vulkan call. Recording into a command buffer is not an event of
      its own: the commands recorded travel with the submit. */
  datatype Event =
    | Create(obj: ObjectType, handle: Handle, info: Info)
    | Destroy(obj: ObjectType, handle: Handle)
    | BindMemory(resource: Handle, memory: Handle)
    | MapMemory(memory: Handle)
    | GetBufferAddress(buffer: Handle)
    | GetSwapchainImages(swapchain: Handle, images: seq<Handle>)
    | GetDeviceQueue(family: nat, index: nat, queueHandle: Handle)
    | AllocateCommandBuffer(pool: Handle, commandBuffer: Handle)
    | AllocateDescriptorSet(pool: Handle, descriptorSet: Handle, descriptorCount: nat)
    | UpdateDescriptorSet(descriptorSet: Handle, descriptors: seq<SampledDescriptor>)
    | Submit(queue: QueueRole, commandBuffer: Handle, cmds: seq<Cmd>, wait: Option<Handle>, signal: Option<Handle>)
    | QueueWaitIdle(queue: QueueRole)
    | DeviceWaitIdle
    | ResetCommandPool(pool: Handle, commandBuffer: Handle)

  /** The ledger: the live objects and their kinds, every handle ever
      created, the handles each queue may still be using, and the
      semaphores that are signalled and not yet waited on. */
  datatype State = State(
    live: map<Handle, ObjectType>, created: set<Handle>,
    busy: set<(QueueRole, Handle)>, signalled: set<Handle>)

  const Initial: State := State(map[], {}, {}, {})

  predicate LiveAs(st: State, o: ObjectType, h: Handle)
  {
    h in st.live && st.live[h] == o
  }

  predicate Busy(st: State, h: Handle)
  {
    (GraphicsQueue, h) in st.busy || (ComputeQueue, h) in st.busy || (TransferQueue, h) in st.busy
  }

  /** Nothing is pending on any queue and no semaphore is signalled. */
  predicate Idle(st: State)
  {
    st.busy == {} && st.signalled == {}
  }

  predicate OwnedByDevice(o: ObjectType)
  {
    o != InstanceObject && o != SurfaceObject && o != DeviceObject
  }

  predicate NoDeviceChildren(st: State)
  {
    forall h <- st.live :: !OwnedByDevice(st.live[h])
  }

  predicate OnlyLive(st: State, h: Handle)
  {
    forall h' <- st.live :: h' == h
  }

  /** The objects a recorded command names: the buffers it copies, the
      images it copies into or transitions, and the views it binds. */
  function CmdUses(c: Cmd): set<Handle>
  {
    match c
    case CopyBuffer(src, dst, _) => {src, dst}
    case CopyBufferToImage(buffer, dst, _, _, _) => {buffer, dst.handle}
    case Barrier(image, _, _, _, _, _, _, _) => {image.handle}
    case BindPipeline(_) => {}
    case PushDescriptors(_, writes) => WriteUses(writes)
    case Dispatch(_, _, _) => {}
  }

  function WriteUses(writes: seq<Write>): set<Handle>
  {
    if writes == [] then {}
    else {writes[0].descriptor.view.view, writes[0].descriptor.view.image.handle} + WriteUses(writes[1..])
  }

  function Uses(cmds: seq<Cmd>): set<Handle>
  {
    if cmds == [] then {} else CmdUses(cmds[0]) + Uses(cmds[1..])
  }

  predicate ViewsLive(st: State, ds: seq<SampledDescriptor>)
  {
    forall i :: 0 <= i < |ds| ==> ds[i].view == NullHandle || LiveAs(st, ViewObject, ds[i].view)
  }

  /** The objects `hs`, in use by queue `q`. */
  function Pending(q: QueueRole, hs: set<Handle>): set<(QueueRole, Handle)>
  {
    set h | h in hs :: (q, h)
  }

  /** The ledger after one call, or None when the call breaks a rule. */
  function Apply(st: State, e: Event): Option<State>
  {
    match e
    case Create(o, h, _) =>
      if h == NullHandle || h in st.created then None
      else Some(st.(live := st.live[h := o], created := st.created + {h}))
    case Destroy(o, h) =>
      if h == NullHandle then Some(st)
      else if !LiveAs(st, o, h) || Busy(st, h) then None
      else if o == DeviceObject && !NoDeviceChildren(st) then None
      else if o == InstanceObject && !OnlyLive(st, h) then None
      else Some(st.(live := st.live - {h}))
    case BindMemory(r, m) =>
      if r in st.live && LiveAs(st, MemoryObject, m) then Some(st) else None
    case MapMemory(m) =>
      if LiveAs(st, MemoryObject, m) then Some(st) else None
    case GetBufferAddress(b) =>
      if LiveAs(st, BufferObject, b) then Some(st) else None
    case GetSwapchainImages(sc, _) =>
      if LiveAs(st, SwapchainObject, sc) then Some(st) else None
    case GetDeviceQueue(_, _, _) => Some(st)
    case AllocateCommandBuffer(pool, _) =>
      if LiveAs(st, CommandPoolObject, pool) then Some(st) else None
    case AllocateDescriptorSet(pool, _, _) =>
      if LiveAs(st, DescriptorPoolObject, pool) then Some(st) else None
    case UpdateDescriptorSet(_, ds) =>
      if ViewsLive(st, ds) then Some(st) else None
    case Submit(q, cb, cmds, wait, signal) =>
      var waited := if wait.Some? then st.signalled - {wait.value} else st.signalled;
      if !(Uses(cmds) <= st.live.Keys) || Busy(st, cb) then None
      else if wait.Some? && wait.value !in st.signalled then None
      else if signal.Some? && signal.value in waited then None
      else Some(st.(
        busy := st.busy + Pending(q, Uses(cmds) + {cb}),
        signalled := if signal.Some? then waited + {signal.value} else waited))
    case QueueWaitIdle(q) =>
      Some(st.(busy := set p | p in st.busy && p.0 != q))
    case DeviceWaitIdle =>
      Some(st.(busy := {}))
    case ResetCommandPool(_, cb) =>
      if Busy(st, cb) then None else Some(st)
  }

  function ApplyAll(st: State, es: seq<Event>): Option<State>
    decreases |es|
  {
    if es == [] then Some(st)
    else match Apply(st, es[0])
      case None => None
      case Some(st') => ApplyAll(st', es[1..])
  }

  /** The ledger after a whole trace, from nothing. */
  function Replay(trace: seq<Event>): Option<State>
  {
    ApplyAll(Initial, trace)
  }

  /** A trace is valid: every call in it keeps the rules. */
  predicate Valid(trace: seq<Event>)
  {
    Replay(trace).Some?
  }

  /** The ledger after one more call. */
  function ApplyTo(o: Option<State>, e: Event): Option<State>
  {
    match o
    case None => None
    case Some(st) => Apply(st, e)
  }

  function After(o: Option<State>, es: seq<Event>): Option<State>
  {
    match o
    case None => None
    case Some(st) => ApplyAll(st, es)
  }

  /** Replaying a trace in two parts is replaying it whole. */
  lemma {:induction false} ApplyAllAppend(st: State, a: seq<Event>, b: seq<Event>)
    ensures ApplyAll(st, a + b) == After(ApplyAll(st, a), b)
    decreases |a|
  {
    if a == [] {
      assert a + b == b;
    } else {
      assert (a + b)[0] == a[0];
      assert (a + b)[1..] == a[1..] + b;
      match Apply(st, a[0])
      case None =>
      case Some(st') => ApplyAllAppend(st', a[1..], b);
    }
  }

  /** Appending one call to a trace applies that call to its ledger. */
  lemma ReplaySnoc(trace: seq<Event>, e: Event)
    ensures Replay(trace + [e]) == ApplyTo(Replay(trace), e)
  {
    ApplyAllAppend(Initial, trace, [e]);
    match Replay(trace)
    case None =>
    case Some(st) => assert ApplyAll(st, [e]) == Apply(st, e) by { assert [e][1..] == []; }
  }

  /** The ledger's own bookkeeping: live handles were created, and the
      null handle never is. */
  predicate Consistent(st: State)
  {
    st.live.Keys <= st.created && NullHandle !in st.created
  }

  lemma ApplyConsistent(st: State, e: Event)
    requires Consistent(st)
    ensures Apply(st, e).Some? ==> Consistent(Apply(st, e).value)
    ensures Apply(st, e).Some? ==> st.created <= Apply(st, e).value.created
  {
  }

  lemma {:induction false} ApplyAllConsistent(st: State, es: seq<Event>)
    requires Consistent(st)
    ensures ApplyAll(st, es).Some? ==> Consistent(ApplyAll(st, es).value)
    ensures ApplyAll(st, es).Some? ==> st.created <= ApplyAll(st, es).value.created
    decreases |es|
  {
    if es != [] {
      ApplyConsistent(st, es[0]);
      if Apply(st, es[0]).Some? {
        ApplyAllConsistent(Apply(st, es[0]).value, es[1..]);
      }
    }
  }

  /** Every state a valid trace reaches keeps the bookkeeping. */
  lemma ReplayConsistent(trace: seq<Event>)
    ensures Replay(trace).Some? ==> Consistent(Replay(trace).value)
  {
    ApplyAllConsistent(Initial, trace);
  }

  /** A valid trace only ever adds to the handles created. */
  lemma ReplayGrows(trace: seq<Event>, es: seq<Event>)
    requires Replay(trace).Some? && Replay(trace + es).Some?
    ensures Replay(trace).value.created <= Replay(trace + es).value.created
  {
    ApplyAllAppend(Initial, trace, es);
    ReplayConsistent(trace);
    ApplyAllConsistent(Replay(trace).value, es);
  }

  /** Handles are never reused: once destroyed, a handle is never live
      again, whatever calls follow. */
  lemma {:induction false} NeverRevived(st: State, es: seq<Event>, h: Handle)
    requires Consistent(st) && h in st.created && h !in st.live
    ensures ApplyAll(st, es).Some? ==> h !in ApplyAll(st, es).value.live
    decreases |es|
  {
    if es != [] {
      ApplyConsistent(st, es[0]);
      if Apply(st, es[0]).Some? {
        NeverRevived(Apply(st, es[0]).value, es[1..], h);
      }
    }
  }

  /** Destroying a handle that was destroyed before, at any later point,
      makes the trace invalid. */
  lemma {:induction false} DestroyOfDeadFails(st: State, es: seq<Event>, k: nat)
    requires Consistent(st)
    requires k < |es| && es[k].Destroy? && es[k].handle != NullHandle
    requires es[k].handle in st.created && es[k].handle !in st.live
    ensures ApplyAll(st, es) == None
    decreases k
  {
    var h := es[k].handle;
    ApplyConsistent(st, es[0]);
    if Apply(st, es[0]).Some? {
      var st' := Apply(st, es[0]).value;
      if k > 0 {
        NeverRevived(st, [es[0]], h);
        assert ApplyAll(st, [es[0]]) == Some(st') by { assert [es[0]][1..] == []; }
        DestroyOfDeadFails(st', es[1..], k - 1);
      }
    }
  }

  /** A live object stays live along calls that do not destroy it. */
  predicate Spares(es: seq<Event>, h: Handle)
  {
    forall i :: 0 <= i < |es| ==> !(es[i].Destroy? && es[i].handle == h)
  }

  /** The device cannot be destroyed while an object created from it is
      still live, however many calls come between. */
  lemma {:induction false} DeviceOutlivedFails(st: State, es: seq<Event>, k: nat, h: Handle)
    requires Consistent(st) && h in st.live && OwnedByDevice(st.live[h])
    requires k < |es| && es[k].Destroy? && es[k].obj == DeviceObject && es[k].handle != NullHandle
    requires Spares(es[..k], h)
    ensures ApplyAll(st, es) == None
    decreases k
  {
    if k == 0 {
      assert !NoDeviceChildren(st);
    } else {
      ApplyConsistent(st, es[0]);
      match Apply(st, es[0])
      case None =>
      case Some(st') =>
        assert es[..k][0] == es[0];
        assert es[1..][..k - 1] == es[..k][1..];
        DeviceOutlivedFails(st', es[1..], k - 1, h);
    }
  }

  /** Calls that do not wait on queue q, on its own or with the whole device. */
  predicate NoWaitOn(es: seq<Event>, q: QueueRole)
  {
    forall i :: 0 <= i < |es| ==> es[i] != DeviceWaitIdle && es[i] != QueueWaitIdle(q)
  }

  /** Once a submission on queue q uses an object, destroying that object
      before q (or the device) has been waited on makes the trace invalid. */
  lemma {:induction false} DestroyBeforeIdleFails(st: State, es: seq<Event>, k: nat, q: QueueRole)
    requires k < |es| && es[k].Destroy? && es[k].handle != NullHandle
    requires (q, es[k].handle) in st.busy
    requires NoWaitOn(es[..k], q)
    ensures ApplyAll(st, es) == None
    decreases k
  {
    if k > 0 {
      match Apply(st, es[0])
      case None =>
      case Some(st') =>
        assert es[..k][0] == es[0];
        assert es[1..][..k - 1] == es[..k][1..];
        assert (q, es[k].handle) in st'.busy;
        DestroyBeforeIdleFails(st', es[1..], k - 1, q);
    }
  }

  /** After a submit on queue q, every object the submitted commands name
      is pending on q. */
  lemma SubmitMakesBusy(st: State, q: QueueRole, cb: Handle, cmds: seq<Cmd>, wait: Option<Handle>, signal: Option<Handle>, h: Handle)
    requires Apply(st, Submit(q, cb, cmds, wait, signal)).Some?
    requires h in Uses(cmds) || h == cb
    ensures (q, h) in Apply(st, Submit(q, cb, cmds, wait, signal)).value.busy
  {
    assert h in Uses(cmds) + {cb};
  }

  /** A wait on a semaphore consumes exactly its one signal: the submit
      that signals it and the submit that waits on it leave it as it was,
      unsignalled, so that a further wait on it, with no new signal, makes
      the trace invalid. */
  lemma SignalThenWait(st: State, sem: Handle, q1: QueueRole, cb1: Handle, c1: seq<Cmd>, q2: QueueRole, cb2: Handle, c2: seq<Cmd>)
    requires sem !in st.signalled
    requires Uses(c1) <= st.live.Keys && Uses(c2) <= st.live.Keys
    requires !Busy(st, cb1) && !Busy(st, cb2) && cb1 != cb2 && cb2 !in Uses(c1)
    ensures var es := [Submit(q1, cb1, c1, None, Some(sem)), Submit(q2, cb2, c2, Some(sem), None)];
      && ApplyAll(st, es).Some?
      && ApplyAll(st, es).value.signalled == st.signalled
      && forall q, cb, c, signal :: Apply(ApplyAll(st, es).value, Submit(q, cb, c, Some(sem), signal)) == None
  {
    var e1, e2 := Submit(q1, cb1, c1, None, Some(sem)), Submit(q2, cb2, c2, Some(sem), None);
    assert Apply(st, e1).Some?;
    var st1 := Apply(st, e1).value;
    assert st1.busy == st.busy + (set h | h in Uses(c1) + {cb1} :: (q1, h));
    assert !Busy(st1, cb2);
    assert Uses(c2) <= st1.live.Keys && sem in st1.signalled;
    assert Apply(st1, e2).Some?;
    var st2 := Apply(st1, e2).value;
    assert st2.signalled == st.signalled;
    assert ApplyAll(st1, [e2]) == Some(st2) by { assert [e2][1..] == []; }
    assert ApplyAll(st, [e1, e2]) == Some(st2) by { assert [e1, e2][1..] == [e2]; }
  }
}
