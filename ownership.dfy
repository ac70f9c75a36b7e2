/** What a holder of Vulkan objects owns: a list of (kind, handle) pairs,
    and the fact that it is exactly what the ledger has live: each non-null
    handle is live as its kind, no handle is held twice, and nothing else is
    live. Destroying such a list in order releases all of it; the device,
    surface and instance can then be destroyed, leaving nothing behind. */
module Ownership {
  import opened Vk
  import opened Ledger

  datatype Obj = Obj(kind: ObjectType, handle: Handle)

  function Keys(objs: seq<Obj>): (ks: seq<Handle>)
    ensures |ks| == |objs| && forall i :: 0 <= i < |objs| ==> ks[i] == objs[i].handle
  {
    seq(|objs|, i requires 0 <= i < |objs| => objs[i].handle)
  }

  /** Every non-null handle held is live, as the kind it is held as. */
  predicate Holds(st: State, objs: seq<Obj>)
  {
    forall i :: 0 <= i < |objs| && objs[i].handle != NullHandle ==> LiveAs(st, objs[i].kind, objs[i].handle)
  }

  /** No non-null handle is held twice. */
  predicate Distinct(objs: seq<Obj>)
  {
    forall i, j :: 0 <= i < j < |objs| && objs[i].handle != NullHandle ==> objs[i].handle != objs[j].handle
  }

  /** The holder owns exactly what is live. */
  predicate Owns(st: State, objs: seq<Obj>)
  {
    Holds(st, objs) && Distinct(objs) && forall h <- st.live :: h in Keys(objs)
  }

  /** Destroying the objects, in the order held. */
  function Teardown(objs: seq<Obj>): (es: seq<Event>)
    ensures |es| == |objs| && forall i :: 0 <= i < |objs| ==> es[i] == Destroy(objs[i].kind, objs[i].handle)
  {
    seq(|objs|, i requires 0 <= i < |objs| => Destroy(objs[i].kind, objs[i].handle))
  }

  lemma KeysAppend(a: seq<Obj>, b: seq<Obj>)
    ensures Keys(a + b) == Keys(a) + Keys(b)
  {
  }

  lemma TeardownAppend(a: seq<Obj>, b: seq<Obj>)
    ensures Teardown(a + b) == Teardown(a) + Teardown(b)
  {
  }

  /** A handle held twice breaks Distinct. */
  lemma DistinctAt(objs: seq<Obj>, i: nat, j: nat)
    requires Distinct(objs) && i < |objs| && j < |objs| && i != j && objs[i].handle != NullHandle
    ensures objs[i].handle != objs[j].handle
  {
  }

  lemma DistinctTail(objs: seq<Obj>)
    requires |objs| > 0 && Distinct(objs)
    ensures Distinct(objs[1..])
    ensures forall i :: 1 <= i < |objs| && objs[0].handle != NullHandle ==> objs[i].handle != objs[0].handle
  {
    var rest := objs[1..];
    forall i, j | 0 <= i < j < |rest| && rest[i].handle != NullHandle
      ensures rest[i].handle != rest[j].handle
    {
      assert rest[i] == objs[i + 1] && rest[j] == objs[j + 1];
    }
  }

  /** The handles of a list, as a set. */
  function Released(objs: seq<Obj>): (r: set<Handle>)
    ensures forall h :: h in r <==> h in Keys(objs)
  {
    if objs == [] then {} else {objs[0].handle} + Released(objs[1..])
  }

  /** The first destroy of a teardown, on its own. */
  lemma TeardownStep(st: State, objs: seq<Obj>) returns (st1: State)
    requires NullHandle !in st.live && |objs| > 0 && Free(st, objs)
    requires Holds(st, objs) && Distinct(objs) && OwnedByDevice(objs[0].kind)
    ensures Apply(st, Destroy(objs[0].kind, objs[0].handle)) == Some(st1)
    ensures st1 == st.(live := st.live - {objs[0].handle})
    ensures NullHandle !in st1.live && Free(st1, objs[1..])
    ensures Holds(st1, objs[1..]) && Distinct(objs[1..])
  {
    assert objs[0] in objs;
    st1 := st.(live := st.live - {objs[0].handle});
    if objs[0].handle == NullHandle {
      assert st.live - {objs[0].handle} == st.live;
    }
    DistinctTail(objs);
    forall i | 0 <= i < |objs[1..]| && objs[1..][i].handle != NullHandle
      ensures LiveAs(st1, objs[1..][i].kind, objs[1..][i].handle)
    {
      assert objs[1..][i] == objs[i + 1];
    }
  }

  /** No queue is still using any of the objects. */
  predicate Free(st: State, objs: seq<Obj>)
  {
    forall o <- objs :: !Busy(st, o.handle)
  }

  lemma IdleFree(st: State, objs: seq<Obj>)
    requires st.busy == {}
    ensures Free(st, objs)
  {
  }

  /** Destroying a distinct list of live device children that no queue is
      using releases exactly those objects. */
  lemma {:induction false} TeardownReleases(st: State, objs: seq<Obj>)
    requires NullHandle !in st.live && Free(st, objs)
    requires Holds(st, objs) && Distinct(objs)
    requires forall i :: 0 <= i < |objs| ==> OwnedByDevice(objs[i].kind)
    ensures ApplyAll(st, Teardown(objs)) == Some(st.(live := st.live - Released(objs)))
    decreases |objs|
  {
    if objs == [] {
      assert st.live - Released(objs) == st.live;
    } else {
      var st1 := TeardownStep(st, objs);
      assert Teardown(objs)[1..] == Teardown(objs[1..]);
      TeardownReleases(st1, objs[1..]);
      assert st1.live - Released(objs[1..]) == st.live - Released(objs);
    }
  }

  /** A teardown that never names h leaves it alone. */
  lemma TeardownSpares(objs: seq<Obj>, h: Handle)
    requires h !in Keys(objs)
    ensures Spares(Teardown(objs), h)
  {
    forall i | 0 <= i < |objs|
      ensures !(Teardown(objs)[i].Destroy? && Teardown(objs)[i].handle == h)
    {
      assert Keys(objs)[i] == objs[i].handle;
    }
  }

  /** What a segment of an owned list holds is live, so not fresh, and is
      held by no other segment. */
  lemma SegmentLive(st: State, a: seq<Obj>, s: seq<Obj>, b: seq<Obj>, h: Handle)
    requires Owns(st, a + s + b) && h != NullHandle && (h in Keys(a) || h in Keys(b))
    ensures h in st.live && h !in Keys(s)
  {
    var all := a + s + b;
    if h in Keys(a) {
      var i :| 0 <= i < |a| && Keys(a)[i] == h;
      assert all[i] == a[i];
      forall j | 0 <= j < |s| ensures Keys(s)[j] != h {
        assert all[|a| + j] == s[j];
        DistinctAt(all, i, |a| + j);
      }
    } else {
      var i :| 0 <= i < |b| && Keys(b)[i] == h;
      assert all[|a| + |s| + i] == b[i];
      forall j | 0 <= j < |s| ensures Keys(s)[j] != h {
        assert all[|a| + j] == s[j];
        DistinctAt(all, |a| + |s| + i, |a| + j);
      }
    }
  }

  lemma ReplaceHolds(st: State, st': State, a: seq<Obj>, s: seq<Obj>, b: seq<Obj>, s': seq<Obj>)
    requires Owns(st, a + s + b) && Holds(st', s')
    requires forall h <- st.live :: h !in Keys(s) ==> h in st'.live && st'.live[h] == st.live[h]
    ensures Holds(st', a + s' + b)
  {
    var new3 := a + s' + b;
    forall i | 0 <= i < |new3| && new3[i].handle != NullHandle
      ensures LiveAs(st', new3[i].kind, new3[i].handle)
    {
      if i < |a| {
        assert new3[i] == a[i] && (a + s + b)[i] == a[i];
        SegmentLive(st, a, s, b, a[i].handle);
      } else if i < |a| + |s'| {
        assert new3[i] == s'[i - |a|];
      } else {
        var j := i - |a| - |s'|;
        assert new3[i] == b[j] && (a + s + b)[|a| + |s| + j] == b[j];
        SegmentLive(st, a, s, b, b[j].handle);
      }
    }
  }

  /** Where the objects of a + s' + b outside s' sit in a + s + b. */
  function Outside(a: seq<Obj>, s: seq<Obj>, s': seq<Obj>, i: nat): nat
    requires i < |a| || i >= |a| + |s'|
  {
    if i < |a| then i else i - |s'| + |s|
  }

  lemma ReplaceDistinct(st: State, a: seq<Obj>, s: seq<Obj>, b: seq<Obj>, s': seq<Obj>)
    requires Consistent(st) && Owns(st, a + s + b) && Distinct(s')
    requires forall h <- Keys(s') :: h == NullHandle || h !in st.created
    ensures Distinct(a + s' + b)
  {
    var all, all' := a + s + b, a + s' + b;
    forall i, j | 0 <= i < j < |all'| && all'[i].handle != NullHandle
      ensures all'[i].handle != all'[j].handle
    {
      var inI, inJ := |a| <= i < |a| + |s'|, |a| <= j < |a| + |s'|;
      if inI && inJ {
        assert all'[i] == s'[i - |a|] && all'[j] == s'[j - |a|];
      } else if inI {
        assert all'[i] == s'[i - |a|] && Keys(s')[i - |a|] == all'[i].handle;
        assert all[Outside(a, s, s', j)] == all'[j];
      } else if inJ {
        assert all'[j] == s'[j - |a|] && Keys(s')[j - |a|] == all'[j].handle;
        assert all[Outside(a, s, s', i)] == all'[i];
      } else {
        var i0, j0 := Outside(a, s, s', i), Outside(a, s, s', j);
        assert all[i0] == all'[i] && all[j0] == all'[j];
        DistinctAt(all, i0, j0);
      }
    }
  }

  /** Replacing the middle part s of what is owned by fresh objects s',
      while every other live object stays as it was, keeps ownership exact. */
  lemma OwnsReplace(st: State, st': State, a: seq<Obj>, s: seq<Obj>, b: seq<Obj>, s': seq<Obj>)
    requires Consistent(st) && Owns(st, a + s + b)
    requires Holds(st', s') && Distinct(s')
    requires forall h <- Keys(s') :: h == NullHandle || h !in st.created
    requires forall h <- st.live :: h !in Keys(s) ==> h in st'.live && st'.live[h] == st.live[h]
    requires forall h <- st'.live :: h in Keys(s') || (h in st.live && h !in Keys(s))
    ensures Owns(st', a + s' + b)
  {
    ReplaceHolds(st, st', a, s, b, s');
    ReplaceDistinct(st, a, s, b, s');
    KeysAppend(a, s); KeysAppend(a + s, b);
    KeysAppend(a, s'); KeysAppend(a + s', b);
  }

  /** Destroying the middle part s of what is owned leaves the rest owned
      exactly. */
  lemma OwnsRemove(st: State, st': State, a: seq<Obj>, s: seq<Obj>, b: seq<Obj>)
    requires Owns(st, a + s + b) && st'.live == st.live - Released(s)
    ensures Owns(st', a + b)
  {
    var all, rest := a + s + b, a + b;
    forall i | 0 <= i < |rest| && rest[i].handle != NullHandle
      ensures LiveAs(st', rest[i].kind, rest[i].handle)
    {
      if i < |a| {
        assert rest[i] == a[i] && all[i] == a[i];
        SegmentLive(st, a, s, b, a[i].handle);
      } else {
        var j := i - |a|;
        assert rest[i] == b[j] && all[|a| + |s| + j] == b[j];
        SegmentLive(st, a, s, b, b[j].handle);
      }
    }
    forall i, j | 0 <= i < j < |rest| && rest[i].handle != NullHandle
      ensures rest[i].handle != rest[j].handle
    {
      var i0, j0 := Outside(a, s, [], i), Outside(a, s, [], j);
      assert all[i0] == rest[i] && all[j0] == rest[j];
      DistinctAt(all, i0, j0);
    }
    KeysAppend(a, s); KeysAppend(a + s, b); KeysAppend(a, b);
    forall h <- st'.live
      ensures h in Keys(rest)
    {
      assert h in Keys(all) && h !in Keys(s);
    }
  }

  lemma DistinctPrefix(a: seq<Obj>, b: seq<Obj>)
    requires Distinct(a + b)
    ensures Distinct(a)
  {
    forall i, j | 0 <= i < j < |a| && a[i].handle != NullHandle
      ensures a[i].handle != a[j].handle
    {
      assert (a + b)[i] == a[i] && (a + b)[j] == a[j];
    }
  }

  /** The device, the surface and the instance, the objects that are not
      device children, in the order the renderer destroys them. */
  function Core(device: Handle, surface: Handle, instance: Handle): seq<Obj>
  {
    [Obj(DeviceObject, device), Obj(SurfaceObject, surface), Obj(InstanceObject, instance)]
  }

  /** Shutting down: wait for the device, destroy the children in order,
      then the device, the surface and the instance. */
  function Shutdown(children: seq<Obj>, device: Handle, surface: Handle, instance: Handle): seq<Event>
  {
    [DeviceWaitIdle] + Teardown(children) + Teardown(Core(device, surface, instance))
  }

  /** Once every child is released, what is live is the core objects. */
  lemma AfterChildren(st: State, children: seq<Obj>, core: seq<Obj>)
    requires Owns(st, children + core)
    ensures Holds(st.(live := st.live - Released(children)), core)
    ensures forall h <- st.live - Released(children) :: h in Keys(core)
  {
    var all := children + core;
    var st2 := st.(live := st.live - Released(children));
    forall k | 0 <= k < |core| && core[k].handle != NullHandle
      ensures LiveAs(st2, core[k].kind, core[k].handle)
    {
      assert all[|children| + k] == core[k];
      forall j | 0 <= j < |children| ensures children[j].handle != core[k].handle {
        assert all[j] == children[j];
        DistinctAt(all, |children| + k, j);
      }
    }
    KeysAppend(children, core);
  }

  lemma DistinctSuffix(a: seq<Obj>, b: seq<Obj>)
    requires Distinct(a + b)
    ensures Distinct(b)
  {
    forall i, j | 0 <= i < j < |b| && b[i].handle != NullHandle
      ensures b[i].handle != b[j].handle
    {
      assert (a + b)[|a| + i] == b[i] && (a + b)[|a| + j] == b[j];
    }
  }

  /** With only the core objects left, destroying the device, the surface
      and the instance leaves nothing live. */
  lemma CoreTeardown(st: State, device: Handle, surface: Handle, instance: Handle)
    requires NullHandle !in st.live && st.busy == {}
    requires device != NullHandle ==> LiveAs(st, DeviceObject, device) && device != surface && device != instance
    requires surface != NullHandle ==> LiveAs(st, SurfaceObject, surface) && surface != instance
    requires instance != NullHandle ==> LiveAs(st, InstanceObject, instance)
    requires st.live.Keys <= {device, surface, instance}
    ensures ApplyAll(st, Teardown(Core(device, surface, instance))) == Some(st.(live := map[]))
  {
    var tail := Teardown(Core(device, surface, instance));
    assert NoDeviceChildren(st);
    var st3 := st.(live := st.live - {device});
    if device == NullHandle {
      assert st.live - {device} == st.live;
    }
    assert Apply(st, tail[0]) == Some(st3);
    var st4 := st3.(live := st3.live - {surface});
    if surface == NullHandle {
      assert st3.live - {surface} == st3.live;
    }
    assert Apply(st3, tail[1]) == Some(st4);
    var st5 := st4.(live := map[]);
    assert st4.live.Keys <= {instance};
    if instance == NullHandle {
      assert st4.live == map[];
    } else {
      assert st4.live - {instance} == map[];
      assert OnlyLive(st4, instance);
    }
    assert Apply(st4, tail[2]) == Some(st5);
    assert tail[1..][1..] == [tail[2]];
    assert ApplyAll(st4, [tail[2]]) == Some(st5);
  }

  /** What the core part of an owned list gives CoreTeardown. */
  lemma CoreOwned(st: State, children: seq<Obj>, device: Handle, surface: Handle, instance: Handle)
    requires Owns(st, children + Core(device, surface, instance))
    ensures var st2 := st.(live := st.live - Released(children));
      && (device != NullHandle ==> LiveAs(st2, DeviceObject, device) && device != surface && device != instance)
      && (surface != NullHandle ==> LiveAs(st2, SurfaceObject, surface) && surface != instance)
      && (instance != NullHandle ==> LiveAs(st2, InstanceObject, instance))
      && st2.live.Keys <= {device, surface, instance}
  {
    var core := Core(device, surface, instance);
    AfterChildren(st, children, core);
    DistinctSuffix(children, core);
    if device != NullHandle {
      DistinctAt(core, 0, 1);
      DistinctAt(core, 0, 2);
    }
    if surface != NullHandle {
      DistinctAt(core, 1, 2);
    }
    assert core[0] == Obj(DeviceObject, device) && core[1] == Obj(SurfaceObject, surface) && core[2] == Obj(InstanceObject, instance);
    assert Keys(core) == [device, surface, instance];
  }

  /** Shutting down an owner releases everything it owns, leaving nothing
      live. */
  lemma ShutdownReleasesAll(st: State, children: seq<Obj>, device: Handle, surface: Handle, instance: Handle)
    requires Consistent(st) && Owns(st, children + Core(device, surface, instance))
    requires forall k :: 0 <= k < |children| ==> OwnedByDevice(children[k].kind)
    ensures ApplyAll(st, Shutdown(children, device, surface, instance)).Some?
    ensures ApplyAll(st, Shutdown(children, device, surface, instance)).value.live == map[]
  {
    var core := Core(device, surface, instance);
    var st1 := st.(busy := {});
    assert ApplyAll(st, [DeviceWaitIdle]) == Some(st1) by {
      assert Apply(st, DeviceWaitIdle) == Some(st1);
    }
    DistinctPrefix(children, core);
    assert Holds(st1, children) by {
      forall k | 0 <= k < |children| && children[k].handle != NullHandle
        ensures LiveAs(st1, children[k].kind, children[k].handle)
      {
        assert (children + core)[k] == children[k];
      }
    }
    IdleFree(st1, children);
    TeardownReleases(st1, children);
    CoreOwned(st, children, device, surface, instance);
    CoreTeardown(st1.(live := st.live - Released(children)), device, surface, instance);
    ApplyAllAppend(st, [DeviceWaitIdle], Teardown(children));
    ApplyAllAppend(st, [DeviceWaitIdle] + Teardown(children), Teardown(core));
  }

  /** Shutting down while a device child that the teardown does not name is
      still live makes the trace invalid at the device's destruction. */
  lemma ShutdownLeavingChildFails(st: State, children: seq<Obj>, device: Handle, surface: Handle, instance: Handle, h: Handle)
    requires Consistent(st) && h in st.live && OwnedByDevice(st.live[h]) && h !in Keys(children)
    requires device != NullHandle
    ensures ApplyAll(st, Shutdown(children, device, surface, instance)) == None
  {
    var es := Shutdown(children, device, surface, instance);
    var k := 1 + |children|;
    assert es[k] == Destroy(DeviceObject, device);
    assert es[..k] == [DeviceWaitIdle] + Teardown(children);
    TeardownSpares(children, h);
    assert Spares(es[..k], h) by {
      forall j | 0 <= j < k ensures !(es[..k][j].Destroy? && es[..k][j].handle == h) {
        if j > 0 {
          assert es[..k][j] == Teardown(children)[j - 1];
        }
      }
    }
    DeviceOutlivedFails(st, es, k, h);
  }
}
