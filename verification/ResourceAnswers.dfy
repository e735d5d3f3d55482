/** What the calls on generic resources answer: for every call, in every sound graph, the value it
    returns and what it does to the descriptors, to the lists of processes and to each resource. */
module ResourceAnswers {
  import opened Lists
  import opened Descriptors

  /** The resource with the id, if it is listed. */
  function ResourceAt(g: Graph, id: int): Option<Resource> {
    var i := FindResource(g.resources, id);
    if i < |g.resources| then Some(g.resources[i]) else None
  }

  /** Some process has the resource open. */
  ghost predicate InUse(g: Graph, id: int) {
    exists d :: d in g.descs && g.descs[d].resource == id
  }

  /** Every other resource is as before. */
  ghost predicate OthersSame(g: Graph, g': Graph, id: int) {
    forall x :: x != id ==> ResourceAt(g', x) == ResourceAt(g, x)
  }

  // ----- looking at a resource from outside

  lemma UpdatedAt(g: Graph, g': Graph, i: nat, r: Resource, id: int)
    requires i < |g.resources| && g'.resources == g.resources[i := r] && r.id == g.resources[i].id
    requires FindResource(g.resources, r.id) == i
    ensures ResourceAt(g', id) == if id == r.id then Some(r) else ResourceAt(g, id)
  {
    SameIds(g.resources, g'.resources, id);
  }

  lemma AppendedAt(g: Graph, g': Graph, r: Resource, id: int)
    requires ResourceAt(g, r.id) == None && g'.resources == g.resources + [r]
    ensures ResourceAt(g', id) == if id == r.id then Some(r) else ResourceAt(g, id)
  {
    FindAppended(g.resources, r, id);
    assert forall j :: 0 <= j < |g.resources| ==> g'.resources[j] == g.resources[j];
    assert g'.resources[|g.resources|] == r;
  }

  lemma DroppedAt(g: Graph, i: nat, id: int)
    requires DistinctIds(g.resources) && i < |g.resources|
    ensures ResourceAt(DropResource(g, i), id)
            == if id == g.resources[i].id then None else ResourceAt(g, id)
  {
    var rs, rs' := g.resources, DropResource(g, i).resources;
    assert forall j :: 0 <= j < |rs'| ==> rs'[j] == rs[if j < i then j else j + 1];
    var k, k' := FindResource(rs, id), FindResource(rs', id);
    if id != rs[i].id && k < |rs| {
      var k0 := if k < i then k else k - 1;
      assert rs'[k0] == rs[k];
      FoundById(rs', k0);
    }
  }

  lemma UseCounts(g: Graph, i: nat)
    requires GraphOk(g) && i < |g.resources|
    ensures g.resources[i].refCount >= 0
    ensures g.resources[i].refCount > 0 <==> InUse(g, g.resources[i].id)
    ensures DistinctIds(g.resources) && FindResource(g.resources, g.resources[i].id) == i
  {
    assert ResourceOk(g.descs, g.resources[i]);
    CountIsZero(g, i);
  }

  // ----- destroy

  /** Destroy succeeds if and only if the resource is listed and nobody has it open. Then it is gone,
      its block is free, and all others are as before. Otherwise nothing changes. */
  lemma DestroyAnswers(g: Graph, id: int)
    requires GraphOk(g)
    ensures var (g', ret) := Destroy(g, id);
            && (ret == 0 <==> ResourceAt(g, id) != None && !InUse(g, id))
            && (ret == ERESOURCEINUSE <==> ResourceAt(g, id) != None && InUse(g, id))
            && (ret == ERESOURCECLOSE <==> ResourceAt(g, id) == None)
            && (ret != 0 ==> g' == g)
            && (ret == 0 ==>
                  && ResourceAt(g', id) == None && OthersSame(g, g', id)
                  && g'.freeResources == g.freeResources + 1
                  && g' == g.(resources := g'.resources, freeResources := g'.freeResources))
  {
    hide GraphOk, DistinctIds, InUse, DropResource;
    var i := FindResource(g.resources, id);
    if i < |g.resources| {
      UseCounts(g, i);
      forall x ensures ResourceAt(DropResource(g, i), x) == if x == id then None else ResourceAt(g, x) {
        DroppedAt(g, i, x);
      }
      DroppedRest(g, i);
    }
  }

  lemma DroppedRest(g: Graph, i: nat)
    requires i < |g.resources|
    ensures var g' := DropResource(g, i);
            && g'.freeResources == g.freeResources + 1
            && g' == g.(resources := g'.resources, freeResources := g'.freeResources)
  {
  }

  // ----- open

  /** The resource that an open is about: the listed one, or the one to be created. */
  function Target(g: Graph, id: int, kind: int, mode: Mode): Option<Resource> {
    if mode.create then
      if ResourceAt(g, id) == None && g.freeResources > 0 then Some(Resource(id, kind, 0, [])) else None
    else ResourceAt(g, id)
  }

  /** An open is refused, without effect, if the resource cannot be created, because there is one or no
      block is free; if it is not there or of another kind; and if it is to be exclusive and is in
      use. */
  lemma OpenRefused(g: Graph, p: Pid, id: int, kind: int, mode: Mode)
    requires GraphOk(g) && p in g.owners
    ensures var r := Target(g, id, kind, mode);
            && (mode.create && r == None ==> Open(g, p, id, kind, mode) == (g, ERESOURCECREATE))
            && (!mode.create && (r == None || r.value.kind != kind) ==>
                  Open(g, p, id, kind, mode) == (g, ERESOURCEOPEN))
            && (!mode.create && r != None && r.value.kind == kind && mode.exclusive && InUse(g, id) ==>
                  Open(g, p, id, kind, mode) == (g, ERESOURCENOEXCL))
  {
    hide GraphOk, InUse, Attach;
    var i := FindResource(g.resources, id);
    if i < |g.resources| { UseCounts(g, i); }
  }

  /** The open gets as far as the descriptor. */
  ghost predicate Openable(g: Graph, id: int, kind: int, mode: Mode) {
    var r := Target(g, id, kind, mode);
    r != None && r.value.kind == kind && (mode.create || !(mode.exclusive && InUse(g, id)))
  }

  /** Without a free descriptor an open fails; a resource it has created stays. */
  lemma OpenWithoutBlock(g: Graph, p: Pid, id: int, kind: int, mode: Mode)
    requires GraphOk(g) && p in g.owners && Openable(g, id, kind, mode) && g.freeDescs == []
    ensures var (g', ret) := Open(g, p, id, kind, mode);
            && ret == ERESOURCENOFD
            && ResourceAt(g', id) == Target(g, id, kind, mode) && OthersSame(g, g', id)
            && g' == g.(resources := g'.resources, freeResources := g'.freeResources)
  {
    hide GraphOk, InUse, Attach, DistinctIds;
    FetchedTarget(g, id, kind, mode);
  }

  lemma FetchedTarget(g: Graph, id: int, kind: int, mode: Mode)
    requires GraphOk(g) && Openable(g, id, kind, mode)
    ensures var (g1, place, _) := Fetched(g, id, kind, mode);
            && place.Some? && place.value < |g1.resources|
            && Some(g1.resources[place.value]) == Target(g, id, kind, mode)
            && FindResource(g1.resources, id) == place.value
            && ResourceAt(g1, id) == Target(g, id, kind, mode) && OthersSame(g, g1, id)
            && g1 == g.(resources := g1.resources, freeResources := g1.freeResources)
            && (mode.exclusive ==> g1.resources[place.value].refCount == 0)
            && g1.freePtrs == g1.freeDescs
  {
    Lockstep(g);
    hide GraphOk, InUse;
    var (g1, place, _) := Fetched(g, id, kind, mode);
    if mode.create {
      forall x ensures ResourceAt(g1, x) == if x == id then Target(g, id, kind, mode) else ResourceAt(g, x) {
        AppendedAt(g, g1, Resource(id, kind, 0, []), x);
      }
      FindAppended(g.resources, Resource(id, kind, 0, []), id);
    } else {
      UseCounts(g, place.value);
    }
  }

  /** A successful open returns the caller's next number. One new descriptor of that number, on that
      resource, goes to the end of the caller's list, and its pointer to the end of the resource's. */
  lemma OpenSucceeds(g: Graph, p: Pid, id: int, kind: int, mode: Mode)
    requires GraphOk(g) && p in g.owners && Openable(g, id, kind, mode) && g.freeDescs != []
    ensures var (g', fd) := Open(g, p, id, kind, mode);
            var d, r := g.freeDescs[0], Target(g, id, kind, mode).value;
            && fd == g.owners[p].lastFd && d !in g.descs
            && g'.descs == g.descs[d := Descriptor(p, id, fd, d)]
            && g'.owners == g.owners[p := Owner(g.owners[p].descs + [d], fd + 1)]
            && ResourceAt(g', id) == Some(r.(refCount := r.refCount + 1, ptrs := r.ptrs + [d]))
            && OthersSame(g, g', id)
            && g'.freeDescs == g.freeDescs[1..]
  {
    hide GraphOk, InUse, Attach, Fetched, ResourceAt, FindResource, Target;
    FetchedTarget(g, id, kind, mode);
    FirstFree(g);
    var (g1, place, _) := Fetched(g, id, kind, mode);
    var fd := g.owners[p].lastFd;
    TargetId(g, id, kind, mode);
    AttachedAt(g1, p, fd, place.value, id);
    Attached(g1, p, fd, place.value);
    var g2 := Attach(g1, p, fd, place.value);
    var g3 := g2.(owners := g2.owners[p := g2.owners[p].(lastFd := fd + 1)]);
    assert Open(g, p, id, kind, mode) == (g3, fd);
    forall x ensures ResourceAt(g3, x) == ResourceAt(g2, x) { SameTable(g2, g3, x); }
  }

  lemma TargetId(g: Graph, id: int, kind: int, mode: Mode)
    requires Target(g, id, kind, mode) != None
    ensures Target(g, id, kind, mode).value.id == id
  {
  }

  lemma SameTable(g: Graph, g': Graph, id: int)
    requires g'.resources == g.resources
    ensures ResourceAt(g', id) == ResourceAt(g, id)
  {
  }

  lemma AttachedAt(g: Graph, p: Pid, fd: int, i: nat, id: int)
    requires p in g.owners && i < |g.resources| && g.freeDescs != [] && g.freePtrs == g.freeDescs
    requires FindResource(g.resources, id) == i && g.resources[i].id == id
    ensures var g', r, d := Attach(g, p, fd, i), g.resources[i], g.freeDescs[0];
            && ResourceAt(g', id) == Some(r.(refCount := r.refCount + 1, ptrs := r.ptrs + [d]))
            && OthersSame(g, g', id)
  {
    hide FindResource, ResourceAt;
    var g' := Attach(g, p, fd, i);
    forall x ensures ResourceAt(g', x) == if x == id then Some(g'.resources[i]) else ResourceAt(g, x) {
      UpdatedAt(g, g', i, g'.resources[i], x);
    }
  }

  // ----- close

  /** Place `k` of the list is the first descriptor of that number. */
  ghost predicate FirstOf(g: Graph, ds: seq<nat>, fd: int, k: int) {
    && 0 <= k < |ds| && ds[k] in g.descs && g.descs[ds[k]].fd == fd
    && forall j :: 0 <= j < k ==> ds[j] in g.descs && g.descs[ds[j]].fd != fd
  }

  /** Closing a number that the caller has not is refused without effect. Otherwise the first descriptor
      of that number goes, from the caller's list and from its resource, and no other. */
  lemma CloseAnswers(g: Graph, p: Pid, fd: int)
    requires GraphOk(g) && p in g.owners
    ensures var (g', ret) := Close(g, p, fd);
            var ds := g.owners[p].descs;
            && ((forall k :: !FirstOf(g, ds, fd, k)) ==> (g', ret) == (g, ERESOURCECLOSE))
            && (forall k :: FirstOf(g, ds, fd, k) ==> ret == 0 && TakenOut(g, g', p, k))
  {
    hide GraphOk, Detach, FindResource, FindFd, ResourceAt, TakenOut, FirstOf;
    OwnDescriptors(g, p);
    var ds := g.owners[p].descs;
    var i := FindFd(g, ds, fd);
    FoundFirst(g, ds, fd);
    if i < |ds| {
      assert FirstOf(g, ds, fd, i);
      ClosedAt(g, p, i);
    }
  }

  lemma FoundFirst(g: Graph, ds: seq<nat>, fd: int)
    requires forall d :: d in ds ==> d in g.descs
    ensures var i := FindFd(g, ds, fd); forall k :: FirstOf(g, ds, fd, k) <==> k == i && i < |ds|
  {
    hide FindFd;
    assert forall j :: 0 <= j < |ds| ==> ds[j] in ds;
  }

  /** The descriptor at place `k` of the list of `p` is gone on both sides, and its blocks are free. */
  ghost predicate TakenOut(g: Graph, g': Graph, p: Pid, k: int)
    requires p in g.owners && 0 <= k < |g.owners[p].descs| && g.owners[p].descs[k] in g.descs
  {
    var ds := g.owners[p].descs;
    var d := ds[k];
    var id := g.descs[d].resource;
    && g'.descs == g.descs - {d} && g'.freeDescs == [d] + g.freeDescs
    && g'.owners == g.owners[p := g.owners[p].(descs := ds[..k] + ds[k + 1..])]
    && ResourceAt(g, id) != None
    && (var r := ResourceAt(g, id).value;
        ResourceAt(g', id) == Some(r.(refCount := r.refCount - 1, ptrs := Remove(r.ptrs, d))))
    && OthersSame(g, g', id)
  }

  lemma ClosedAt(g: Graph, p: Pid, k: nat)
    requires GraphOk(g) && p in g.owners && k < |g.owners[p].descs|
    ensures var d := g.owners[p].descs[k];
            && d in g.descs && g.descs[d].pid == p && FindResource(g.resources, g.descs[d].resource) < |g.resources|
            && TakenOut(g, Detach(g, d), p, k)
  {
    hide GraphOk, FindResource, ResourceAt, Remove, Distinct;
    OwnDescriptors(g, p);
    var ds := g.owners[p].descs;
    var d := ds[k];
    assert d in ds;
    Detachable(g, d);
    ListDistinct(g, p);
    RemovedAt(ds, k);
    var i := FindResource(g.resources, g.descs[d].resource);
    var r := g.resources[i];
    UseCounts(g, i);
    var g' := Detach(g, d);
    forall x ensures ResourceAt(g', x) == if x == r.id then Some(g'.resources[i]) else ResourceAt(g, x) {
      UpdatedAt(g, g', i, g'.resources[i], x);
    }
    FoundAt(g, r.id);
  }

  lemma FoundAt(g: Graph, id: int)
    requires FindResource(g.resources, id) < |g.resources|
    ensures ResourceAt(g, id) == Some(g.resources[FindResource(g.resources, id)])
  {
  }

  lemma ListDistinct(g: Graph, p: Pid)
    requires GraphOk(g) && p in g.owners
    ensures Distinct(g.owners[p].descs)
  {
  }
}
