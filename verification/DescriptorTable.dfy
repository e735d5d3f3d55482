/** The resource system calls as the source has them, on global tables that they update step by
    step; each is proved to compute what module Descriptors states and to keep the graph sound. */
module DescriptorTable {
  import opened Lists
  import opened Descriptors

  class ResourceTable {
    var descs: map<nat, Descriptor>
    var ptrs: map<nat, DescriptorPtr>
    var owners: map<Pid, Owner>
    var resources: seq<Resource>
    var freeDescs: seq<nat>
    var freePtrs: seq<nat>
    var freeResources: int

    ghost function Abs(): Graph
      reads this
    {
      Graph(descs, ptrs, owners, resources, freeDescs, freePtrs, freeResources)
    }

    /** Booting: all blocks are free, and the first process gets an empty list. */
    constructor ()
      ensures Abs() == BOOT_GRAPH && GraphOk(Abs())
    {
      descs, ptrs, owners, resources := map[], map[], map[0 := Owner([], 0)], [];
      freeDescs, freePtrs := Ascending(MAX_NUM_DESCRIPTORS), Ascending(MAX_NUM_DESCRIPTORS);
      freeResources := MAX_NUM_RESOURCES;
      new;
      BootGraphOk();
    }

    /** The descriptor list of a new process. */
    method AddProcess(p: Pid)
      requires GraphOk(Abs()) && p !in owners
      modifies this`owners
      ensures Abs() == NewOwner(old(Abs()), p) && GraphOk(Abs())
    {
      NewOwnerKeeps(Abs(), p);
      owners := owners[p := Owner([], 0)];
    }

    /** The scan of the resource list. */
    method ResourceById(id: int) returns (i: nat)
      ensures i == FindResource(resources, id)
    {
      i := 0;
      while i < |resources| && resources[i].id != id
        invariant i <= |resources| && FindResource(resources, id) == i + FindResource(resources[i..], id)
      {
        assert resources[i..][1..] == resources[i + 1..];
        i := i + 1;
      }
    }

    /** The scan of a descriptor list for a number. */
    method DescriptorByFd(ds: seq<nat>, fd: int) returns (k: nat)
      requires forall d :: d in ds ==> d in descs
      ensures k == FindFd(Abs(), ds, fd)
    {
      k := 0;
      while k < |ds| && descs[ds[k]].fd != fd
        invariant k <= |ds| && FindFd(Abs(), ds, fd) == k + FindFd(Abs(), ds[k..], fd)
      {
        assert ds[k..][1..] == ds[k + 1..];
        k := k + 1;
      }
    }

    /** A new descriptor and its pointer, linked to each other, entered on both sides. */
    method Connect(p: Pid, fd: int, i: nat)
      requires p in owners && i < |resources| && freeDescs != [] && freePtrs != []
      modifies this
      ensures Abs() == Attach(old(Abs()), p, fd, i)
    {
      var des := freeDescs[0];
      freeDescs := freeDescs[1..];
      var desptr := freePtrs[0];
      freePtrs := freePtrs[1..];
      ptrs := ptrs[desptr := DescriptorPtr(des)];
      descs := descs[des := Descriptor(p, resources[i].id, fd, desptr)];
      owners := owners[p := owners[p].(descs := owners[p].descs + [des])];
      resources := resources[i := resources[i].(ptrs := resources[i].ptrs + [desptr])];
      resources := resources[i := resources[i].(refCount := resources[i].refCount + 1)];
    }

    /** The descriptor leaves both lists and both blocks go back. */
    method Disconnect(des: nat)
      requires des in descs && descs[des].pid in owners
      requires FindResource(resources, descs[des].resource) < |resources|
      modifies this
      ensures Abs() == Detach(old(Abs()), des)
    {
      hide Remove;
      var d := descs[des];
      var i := ResourceById(d.resource);
      owners := owners[d.pid := owners[d.pid].(descs := Remove(owners[d.pid].descs, des))];
      resources := resources[i := resources[i].(ptrs := Remove(resources[i].ptrs, d.ptr))];
      resources := resources[i := resources[i].(refCount := resources[i].refCount - 1)];
      ptrs := ptrs - {d.ptr};
      freePtrs := [d.ptr] + freePtrs;
      descs := descs - {des};
      freeDescs := [des] + freeDescs;
    }

    method OpenResource(p: Pid, id: int, kind: int, mode: Mode) returns (ret: int)
      requires GraphOk(Abs()) && p in owners
      modifies this
      ensures (Abs(), ret) == Open(old(Abs()), p, id, kind, mode)
      ensures GraphOk(Abs())
    {
      hide GraphOk, Attach;
      ghost var g := Abs();
      OpenKeeps(g, p, id, kind, mode);
      Lockstep(g);
      var i := ResourceById(id);
      if mode.create {
        if i < |resources| { return ERESOURCECREATE; }
        if freeResources <= 0 { return ERESOURCECREATE; }
        freeResources := freeResources - 1;
        resources := resources + [Resource(id, kind, 0, [])];
      }
      if i == |resources| || resources[i].kind != kind { return ERESOURCEOPEN; }
      if mode.exclusive && resources[i].refCount > 0 { return ERESOURCENOEXCL; }
      if freeDescs == [] { return ERESOURCENOFD; }
      assert freePtrs != [];  // so the descriptor is never given back for want of a pointer
      var fd := owners[p].lastFd;
      AttachCounter(Abs(), p, fd, i);
      Connect(p, fd, i);
      owners := owners[p := owners[p].(lastFd := owners[p].lastFd + 1)];
      ret := fd;
    }

    method CloseResource(p: Pid, fd: int) returns (ret: int)
      requires GraphOk(Abs()) && p in owners
      modifies this
      ensures (Abs(), ret) == Close(old(Abs()), p, fd)
      ensures GraphOk(Abs())
    {
      hide GraphOk, Detach;
      ghost var g := Abs();
      CloseKeeps(g, p, fd);
      OwnDescriptors(g, p);
      var ds := owners[p].descs;
      var k := DescriptorByFd(ds, fd);
      if k == |ds| { return ERESOURCECLOSE; }
      Detachable(g, ds[k]);
      assert resources[FindResource(resources, descs[ds[k]].resource)].refCount > 0;
      Disconnect(ds[k]);
      ret := 0;
    }

    /** The duplication loop of fork. It asserts that both allocations succeed: the first one
        must, and then the second one does. */
    method DuplicateDescriptors(parent: Pid, child: Pid)
      requires GraphOk(Abs()) && parent in owners && child in owners && parent != child
      requires |owners[parent].descs| <= |freeDescs|
      modifies this
      ensures forall d :: d in old(owners[parent].descs) ==> d in old(descs)
      ensures Abs() == Twins(old(Abs()), child, Described(old(Abs()), old(owners[parent].descs)))
      ensures GraphOk(Abs())
    {
      hide GraphOk, Attach, FindResource;
      ghost var g := Abs();
      OwnDescriptors(g, parent);
      ghost var ds := Described(g, owners[parent].descs);
      AllOwnFound(g, parent);
      TwinsKeep(g, child, ds);
      var list := owners[parent].descs;
      var k := 0;
      while k < |list|
        invariant 0 <= k <= |list|
        invariant GraphOk(Abs()) && child in owners && |list| - k <= |freeDescs| && AllFound(Abs(), ds[k..])
        invariant forall d :: d in list ==> d in descs && d in g.descs && descs[d] == g.descs[d]
        invariant Twins(g, child, ds) == Twins(Abs(), child, ds[k..])
      {
        var d := descs[list[k]];
        assert list[k] in list;
        assert ds[k..][0] == d && ds[k..][1..] == ds[k + 1..];
        TwinTurn(Abs(), child, ds[k..], list);
        var i := ResourceById(d.resource);
        Connect(child, d.fd, i);
        k := k + 1;
      }
      assert ds[k..] == [];
    }

    /** The release loop of exit. */
    method ReleaseDescriptors(p: Pid)
      requires GraphOk(Abs()) && p in owners
      modifies this
      ensures Abs() == ReleaseAll(old(Abs()), p)
      ensures GraphOk(Abs())
    {
      hide GraphOk, Detach, FindResource;
      ghost var g := Abs();
      while owners[p].descs != []
        invariant GraphOk(Abs()) && p in owners
        invariant ReleaseAll(g, p) == ReleaseAll(Abs(), p)
        decreases |owners[p].descs|
      {
        ghost var before := Abs();
        ReleaseShrinks(before, p);
        var des := owners[p].descs[0];
        Detachable(before, des);
        var i := ResourceById(descs[des].resource);
        DetachKeeps(before, des);
        DetachedPlaces(before, des);
        Disconnect(des);
        if resources[i].refCount == 0 {
          DropKeeps(Abs(), i);
          assert resources[i].ptrs == [];
          resources := resources[..i] + resources[i + 1..];
          freeResources := freeResources + 1;
        }
        assert Abs() == ReleaseOne(before, des);
      }
    }

    /** Destroy, for a generic resource. */
    method DestroyResource(id: int) returns (ret: int)
      requires GraphOk(Abs())
      modifies this
      ensures (Abs(), ret) == Destroy(old(Abs()), id)
      ensures GraphOk(Abs())
    {
      hide GraphOk;
      var i := ResourceById(id);
      if i == |resources| { return ERESOURCECLOSE; }
      if resources[i].refCount > 0 { return ERESOURCEINUSE; }
      CountsAreSizes(Abs(), i);
      DropKeeps(Abs(), i);
      resources := resources[..i] + resources[i + 1..];
      freeResources := freeResources + 1;
      ret := 0;
    }
  }

  lemma CountsAreSizes(g: Graph, i: nat)
    requires GraphOk(g) && i < |g.resources|
    ensures g.resources[i].refCount >= 0
  {
    assert ResourceOk(g.descs, g.resources[i]);
  }

  lemma AllOwnFound(g: Graph, p: Pid)
    requires GraphOk(g) && p in g.owners && forall d :: d in g.owners[p].descs ==> d in g.descs
    ensures AllFound(g, Described(g, g.owners[p].descs))
  {
    hide FindResource;
    var list := g.owners[p].descs;
    var ds := Described(g, list);
    forall k | 0 <= k < |ds| ensures FindResource(g.resources, ds[k].resource) < |g.resources| {
      assert list[k] in list;
    }
  }

  /** One turn of the duplication loop. */
  lemma TwinTurn(g: Graph, child: Pid, ds: seq<Descriptor>, list: seq<nat>)
    requires GraphOk(g) && child in g.owners && ds != [] && |ds| <= |g.freeDescs| && AllFound(g, ds)
    requires forall d :: d in list ==> d in g.descs
    ensures FindResource(g.resources, ds[0].resource) < |g.resources| && g.freePtrs != []
    ensures var g1 := Attach(g, child, ds[0].fd, FindResource(g.resources, ds[0].resource));
            && GraphOk(g1) && child in g1.owners
            && |g1.freeDescs| == |g.freeDescs| - 1
            && AllFound(g1, ds[1..])
            && Twins(g, child, ds) == Twins(g1, child, ds[1..])
            && (forall d :: d in list ==> d in g1.descs && g1.descs[d] == g.descs[d])
  {
    hide GraphOk, FindResource;
    assert FindResource(g.resources, ds[0].resource) < |g.resources|;
    var i := FindResource(g.resources, ds[0].resource);
    AttachKeeps(g, child, ds[0].fd, i);
    AttachFound(g, child, ds[0].fd, i, ds);
    FirstFree(g);
    assert forall k :: 0 <= k < |ds[1..]| ==> ds[1..][k] == ds[k + 1];
  }
}
