/** Processes and generic resources, connected by pairs of a descriptor (in the process's list)
    and a descriptor pointer (in the resource's list). */
module Descriptors {
  import opened Lists

  type Pid = nat

  const MAX_NUM_DESCRIPTORS := 32 * 1024
  const MAX_NUM_RESOURCES := 1024
  const ERESOURCECREATE := -8
  const ERESOURCEOPEN := -9
  const ERESOURCENOEXCL := -10
  const ERESOURCENOFD := -11
  const ERESOURCECLOSE := -12
  const ERESOURCEINUSE := -13

  datatype Descriptor = Descriptor(pid: Pid, resource: int, fd: int, ptr: nat)

  datatype DescriptorPtr = DescriptorPtr(descriptor: nat)

  datatype Resource = Resource(id: int, kind: int, refCount: int, ptrs: seq<nat>)

  /** `create` and `exclusive` are the two bits of the open mode that are looked at. */
  datatype Mode = Mode(create: bool, exclusive: bool)

  /** The descriptors of a process, in list order, and the next fd. */
  datatype Owner = Owner(descs: seq<nat>, lastFd: int)

  /** Blocks of the two pools are named by their indices; the free ones are in the order in
      which the pools hand them out. */
  datatype Graph = Graph(
    descs: map<nat, Descriptor>, ptrs: map<nat, DescriptorPtr>,
    owners: map<Pid, Owner>, resources: seq<Resource>,
    freeDescs: seq<nat>, freePtrs: seq<nat>, freeResources: int)

  // ----- the invariant

  /** The two pools are in lockstep, and their blocks point at each other. */
  ghost predicate PairsOk(g: Graph) {
    && g.freeDescs == g.freePtrs && Distinct(g.freeDescs)
    && g.descs.Keys == g.ptrs.Keys
    && (forall d :: d in g.freeDescs ==> d < MAX_NUM_DESCRIPTORS && d !in g.descs)
    && (forall d :: d in g.descs ==>
          d < MAX_NUM_DESCRIPTORS && g.descs[d].ptr == d && g.ptrs[d].descriptor == d)
    && |g.freeDescs| + |g.descs| == MAX_NUM_DESCRIPTORS
  }

  /** Each descriptor is once in the list of its process, and lists hold nothing else. */
  ghost predicate OwnersOk(g: Graph) {
    && (forall p :: p in g.owners ==> Distinct(g.owners[p].descs))
    && (forall p, d :: p in g.owners && d in g.owners[p].descs ==> d in g.descs && g.descs[d].pid == p)
    && (forall d :: d in g.descs ==> g.descs[d].pid in g.owners && d in g.owners[g.descs[d].pid].descs)
  }

  ghost predicate ResourceOk(descs: map<nat, Descriptor>, r: Resource) {
    && r.refCount == |r.ptrs| && Distinct(r.ptrs)
    && forall d :: d in r.ptrs <==> d in descs && descs[d].resource == r.id
  }

  ghost predicate DistinctIds(rs: seq<Resource>) {
    forall i, j :: 0 <= i < j < |rs| ==> rs[i].id != rs[j].id
  }

  /** Ids are unique; the reference count of a resource is the length of its list, which holds
      the pointers of exactly the descriptors open on it; every descriptor is open on some
      listed resource. */
  ghost predicate ResourcesOk(g: Graph) {
    && DistinctIds(g.resources)
    && (forall i :: 0 <= i < |g.resources| ==> ResourceOk(g.descs, g.resources[i]))
    && (forall d :: d in g.descs ==> FindResource(g.resources, g.descs[d].resource) < |g.resources|)
    && 0 <= g.freeResources && g.freeResources + |g.resources| == MAX_NUM_RESOURCES
  }

  ghost predicate GraphOk(g: Graph) {
    PairsOk(g) && OwnersOk(g) && ResourcesOk(g)
  }

  function FindResource(rs: seq<Resource>, id: int): (i: nat)
    ensures i <= |rs|
    ensures i < |rs| ==> rs[i].id == id
    ensures forall j :: 0 <= j < i ==> rs[j].id != id
  {
    if rs == [] || rs[0].id == id then 0 else 1 + FindResource(rs[1..], id)
  }

  function FindFd(g: Graph, ds: seq<nat>, fd: int): (i: nat)
    ensures i <= |ds|
    ensures i < |ds| ==> ds[i] in g.descs && g.descs[ds[i]].fd == fd
    ensures forall j :: 0 <= j < i ==> ds[j] in g.descs ==> g.descs[ds[j]].fd != fd
  {
    if ds == [] || (ds[0] in g.descs && g.descs[ds[0]].fd == fd) then 0 else 1 + FindFd(g, ds[1..], fd)
  }

  // ----- the two elementary changes

  /** A new pair connects process `p` and the resource at place `i`. */
  function Attach(g: Graph, p: Pid, fd: int, i: nat): Graph
    requires p in g.owners && i < |g.resources| && g.freeDescs != [] && g.freePtrs != []
  {
    var d, r := g.freeDescs[0], g.freePtrs[0];
    var o, res := g.owners[p], g.resources[i];
    g.(freeDescs := g.freeDescs[1..], freePtrs := g.freePtrs[1..],
       descs := g.descs[d := Descriptor(p, res.id, fd, r)],
       ptrs := g.ptrs[r := DescriptorPtr(d)],
       owners := g.owners[p := o.(descs := o.descs + [d])],
       resources := g.resources[i := res.(ptrs := res.ptrs + [r], refCount := res.refCount + 1)])
  }

  /** The pair of descriptor `d` is taken out on both sides and both blocks are freed. */
  function Detach(g: Graph, d: nat): Graph
    requires d in g.descs && g.descs[d].pid in g.owners
    requires FindResource(g.resources, g.descs[d].resource) < |g.resources|
  {
    var des := g.descs[d];
    var i := FindResource(g.resources, des.resource);
    var o, res := g.owners[des.pid], g.resources[i];
    g.(freeDescs := [d] + g.freeDescs, freePtrs := [des.ptr] + g.freePtrs,
       descs := g.descs - {d}, ptrs := g.ptrs - {des.ptr},
       owners := g.owners[des.pid := o.(descs := Remove(o.descs, d))],
       resources := g.resources[i := res.(ptrs := Remove(res.ptrs, des.ptr), refCount := res.refCount - 1)])
  }

  lemma {:induction false} SameIds(rs: seq<Resource>, rs': seq<Resource>, id: int)
    requires |rs| == |rs'| && forall j :: 0 <= j < |rs| ==> rs'[j].id == rs[j].id
    ensures FindResource(rs', id) == FindResource(rs, id)
  {
    if rs != [] && rs[0].id != id {
      SameIds(rs[1..], rs'[1..], id);
    }
  }

  lemma Popped(s: seq<nat>)
    requires s != [] && Distinct(s)
    ensures Distinct(s[1..]) && s[0] in s && s[0] !in s[1..] && forall x :: x in s[1..] ==> x in s
  {
  }

  lemma Pushed(s: seq<nat>, x: nat)
    requires Distinct(s) && x !in s
    ensures Distinct([x] + s) && forall y :: y in [x] + s <==> y == x || y in s
  {
  }

  lemma AttachPairs(g: Graph, p: Pid, fd: int, i: nat)
    requires PairsOk(g) && p in g.owners && i < |g.resources| && g.freeDescs != []
    ensures PairsOk(Attach(g, p, fd, i))
  {
    Popped(g.freeDescs);
    hide Distinct;
    var g' := Attach(g, p, fd, i);
    var d := g.freeDescs[0];
    assert g'.descs.Keys == g.descs.Keys + {d};
    assert |g'.descs| == |g'.descs.Keys| == |g.descs.Keys| + 1 == |g.descs| + 1;
  }

  lemma Attached(g: Graph, p: Pid, fd: int, i: nat)
    requires p in g.owners && i < |g.resources| && g.freeDescs != [] && g.freePtrs == g.freeDescs
    ensures var g', d := Attach(g, p, fd, i), g.freeDescs[0];
            && g'.freeDescs == g'.freePtrs == g.freeDescs[1..]
            && g'.descs == g.descs[d := Descriptor(p, g.resources[i].id, fd, d)]
            && g'.owners == g.owners[p := g.owners[p].(descs := g.owners[p].descs + [d])]
  {
  }

  lemma AttachOwners(g: Graph, p: Pid, fd: int, i: nat)
    requires PairsOk(g) && OwnersOk(g) && p in g.owners && i < |g.resources| && g.freeDescs != []
    ensures OwnersOk(Attach(g, p, fd, i))
  {
    hide Attach;
    assert g.freeDescs[0] in g.freeDescs && g.freePtrs == g.freeDescs;
    hide PairsOk;
    Attached(g, p, fd, i);
    var g' := Attach(g, p, fd, i);
    var d := g.freeDescs[0];
    forall q, x | q in g'.owners && x in g'.owners[q].descs ensures x in g'.descs && g'.descs[x].pid == q {
      if q == p && x !in g.owners[p].descs { assert x == d; }
    }
  }

  lemma AttachResource(descs: map<nat, Descriptor>, r: Resource, d: nat, des: Descriptor)
    requires ResourceOk(descs, r) && d !in descs
    ensures des.resource != r.id ==> ResourceOk(descs[d := des], r)
    ensures des.resource == r.id ==>
              ResourceOk(descs[d := des], r.(ptrs := r.ptrs + [d], refCount := r.refCount + 1))
  {
    assert d !in r.ptrs;
  }

  lemma AttachResources(g: Graph, p: Pid, fd: int, i: nat)
    requires PairsOk(g) && ResourcesOk(g) && p in g.owners && i < |g.resources| && g.freeDescs != []
    ensures ResourcesOk(Attach(g, p, fd, i))
  {
    var g' := Attach(g, p, fd, i);
    var d := g.freeDescs[0];
    assert d in g.freeDescs && d !in g.descs && g.freePtrs[0] == d;
    hide PairsOk, ResourceOk;
    forall j | 0 <= j < |g'.resources| ensures ResourceOk(g'.descs, g'.resources[j]) {
      AttachResource(g.descs, g.resources[j], d, g'.descs[d]);
    }
    forall x | x in g'.descs ensures FindResource(g'.resources, g'.descs[x].resource) < |g'.resources| {
      SameIds(g.resources, g'.resources, g'.descs[x].resource);
      if x == d { FoundById(g.resources, i); }
    }
  }

  lemma FoundById(rs: seq<Resource>, i: nat)
    requires i < |rs|
    ensures FindResource(rs, rs[i].id) <= i
  {
  }

  /** Connecting a process and a resource keeps the graph sound. */
  lemma AttachKeeps(g: Graph, p: Pid, fd: int, i: nat)
    requires GraphOk(g) && p in g.owners && i < |g.resources| && g.freeDescs != []
    ensures g.freePtrs != [] && GraphOk(Attach(g, p, fd, i)) && p in Attach(g, p, fd, i).owners
  {
    AttachPairs(g, p, fd, i);
    AttachOwners(g, p, fd, i);
    AttachResources(g, p, fd, i);
  }

  lemma Detachable(g: Graph, d: nat)
    requires GraphOk(g) && d in g.descs
    ensures g.descs[d].pid in g.owners && FindResource(g.resources, g.descs[d].resource) < |g.resources|
    ensures g.descs[d].ptr == d && d in g.owners[g.descs[d].pid].descs
    ensures var r := g.resources[FindResource(g.resources, g.descs[d].resource)]; d in r.ptrs && r.refCount > 0
  {
    var r := g.resources[FindResource(g.resources, g.descs[d].resource)];
    assert ResourceOk(g.descs, r);
  }

  lemma DetachPairs(g: Graph, d: nat)
    requires GraphOk(g) && d in g.descs && g.descs[d].pid in g.owners
    requires FindResource(g.resources, g.descs[d].resource) < |g.resources|
    ensures PairsOk(Detach(g, d))
  {
    hide OwnersOk, ResourcesOk, Distinct;
    var g' := Detach(g, d);
    Pushed(g.freeDescs, d);
    assert g'.descs.Keys == g.descs.Keys - {d};
    assert |g'.descs| == |g'.descs.Keys| == |g.descs.Keys| - 1 == |g.descs| - 1;
    assert forall x :: x in g'.freeDescs <==> x == d || x in g.freeDescs;
    assert d !in g.freeDescs;
  }

  lemma DetachOwners(g: Graph, d: nat)
    requires GraphOk(g) && d in g.descs && g.descs[d].pid in g.owners
    requires FindResource(g.resources, g.descs[d].resource) < |g.resources|
    ensures OwnersOk(Detach(g, d))
  {
    hide PairsOk, ResourcesOk;
    RemoveMember(g.owners[g.descs[d].pid].descs, d);
  }

  lemma DetachResource(descs: map<nat, Descriptor>, r: Resource, d: nat)
    requires ResourceOk(descs, r) && d in descs
    ensures descs[d].resource != r.id ==> ResourceOk(descs - {d}, r)
    ensures descs[d].resource == r.id ==>
              ResourceOk(descs - {d}, r.(ptrs := Remove(r.ptrs, d), refCount := r.refCount - 1))
  {
    hide Remove;
    if descs[d].resource == r.id {
      assert d in r.ptrs;
      RemoveMember(r.ptrs, d);
    }
  }

  lemma DetachResources(g: Graph, d: nat)
    requires GraphOk(g) && d in g.descs && g.descs[d].pid in g.owners
    requires FindResource(g.resources, g.descs[d].resource) < |g.resources|
    ensures ResourcesOk(Detach(g, d))
  {
    hide PairsOk, OwnersOk, ResourceOk, Remove;
    Detachable(g, d);
    var g' := Detach(g, d);
    forall j | 0 <= j < |g'.resources| ensures ResourceOk(g'.descs, g'.resources[j]) {
      DetachResource(g.descs, g.resources[j], d);
    }
    forall x | x in g'.descs ensures FindResource(g'.resources, g'.descs[x].resource) < |g'.resources| {
      SameIds(g.resources, g'.resources, g'.descs[x].resource);
    }
  }

  /** Taking a pair out keeps the graph sound. */
  lemma DetachKeeps(g: Graph, d: nat)
    requires GraphOk(g) && d in g.descs
    ensures g.descs[d].pid in g.owners && FindResource(g.resources, g.descs[d].resource) < |g.resources|
    ensures GraphOk(Detach(g, d))
  {
    Detachable(g, d);
    hide PairsOk, OwnersOk, ResourcesOk;
    DetachPairs(g, d);
    DetachOwners(g, d);
    DetachResources(g, d);
  }

  // ----- the calls

  function AddResource(g: Graph, id: int, kind: int): Graph {
    g.(resources := g.resources + [Resource(id, kind, 0, [])], freeResources := g.freeResources - 1)
  }

  function DropResource(g: Graph, i: nat): Graph
    requires i < |g.resources|
  {
    g.(resources := g.resources[..i] + g.resources[i + 1..], freeResources := g.freeResources + 1)
  }

  /** The state before the descriptor is made: the resource is created if asked for. */
  function Fetched(g: Graph, id: int, kind: int, mode: Mode): (r: (Graph, Option<nat>, int)) {
    var i := FindResource(g.resources, id);
    if mode.create then
      if i < |g.resources| || g.freeResources <= 0 then (g, None, ERESOURCECREATE)
      else (AddResource(g, id, kind), Some(|g.resources|), 0)
    else if i == |g.resources| then (g, None, ERESOURCEOPEN)
    else (g, Some(i), 0)
  }

  /** Open: the graph afterwards and the value returned. */
  function Open(g: Graph, p: Pid, id: int, kind: int, mode: Mode): (r: (Graph, int))
    requires p in g.owners
  {
    var (g1, place, failure) := Fetched(g, id, kind, mode);
    if place.None? then (g1, failure)
    else
      var i := place.value;
      if i >= |g1.resources| || g1.resources[i].kind != kind then (g1, ERESOURCEOPEN)
      else if mode.exclusive && g1.resources[i].refCount > 0 then (g1, ERESOURCENOEXCL)
      else if g1.freeDescs == [] || g1.freePtrs == [] then (g1, ERESOURCENOFD)
      else
        var fd := g.owners[p].lastFd;
        var g2 := Attach(g1, p, fd, i);
        (g2.(owners := g2.owners[p := g2.owners[p].(lastFd := fd + 1)]), fd)
  }

  /** Close. */
  function Close(g: Graph, p: Pid, fd: int): (r: (Graph, int))
    requires GraphOk(g) && p in g.owners
  {
    var ds := g.owners[p].descs;
    var k := FindFd(g, ds, fd);
    if k == |ds| then (g, ERESOURCECLOSE)
    else
      Detachable(g, ds[k]);
      (Detach(g, ds[k]), 0)
  }

  /** Destroy, for a generic resource: only an unused one is dropped. */
  function Destroy(g: Graph, id: int): (r: (Graph, int)) {
    var i := FindResource(g.resources, id);
    if i == |g.resources| then (g, ERESOURCECLOSE)
    else if g.resources[i].refCount > 0 then (g, ERESOURCEINUSE)
    else (DropResource(g, i), 0)
  }

  /** A new process has no descriptors. */
  function NewOwner(g: Graph, p: Pid): Graph {
    g.(owners := g.owners[p := Owner([], 0)])
  }

  /** The descriptor part of fork: each descriptor of the parent, in list order, gets a twin in
      the child's list. */
  function Twins(g: Graph, child: Pid, ds: seq<Descriptor>): Graph
    decreases |ds|
  {
    if ds == [] then g
    else
      var i := FindResource(g.resources, ds[0].resource);
      if child in g.owners && i < |g.resources| && g.freeDescs != [] && g.freePtrs != [] then
        Twins(Attach(g, child, ds[0].fd, i), child, ds[1..])
      else g
  }

  /** What the descriptors of a list say. */
  function Described(g: Graph, ds: seq<nat>): (r: seq<Descriptor>)
    requires forall d :: d in ds ==> d in g.descs
    ensures |r| == |ds| && forall k :: 0 <= k < |ds| ==> r[k] == g.descs[ds[k]]
  {
    seq(|ds|, k requires 0 <= k < |ds| => assert ds[k] in ds; g.descs[ds[k]])
  }

  /** One turn of the release loop of exit: the pair goes, and with its last reference the
      resource. */
  function ReleaseOne(g: Graph, d: nat): Graph
    requires GraphOk(g) && d in g.descs
  {
    Detachable(g, d);
    var g1 := Detach(g, d);
    var i := FindResource(g.resources, g.descs[d].resource);
    if g1.resources[i].refCount == 0 then DropResource(g1, i) else g1
  }

  /** The release loop of exit. */
  function ReleaseAll(g: Graph, p: Pid): Graph
    requires GraphOk(g) && p in g.owners
    decreases |g.owners[p].descs|
  {
    var ds := g.owners[p].descs;
    if ds == [] then g
    else
      ReleaseShrinks(g, p);
      ReleaseAll(ReleaseOne(g, ds[0]), p)
  }

  lemma ReleaseShrinks(g: Graph, p: Pid)
    requires GraphOk(g) && p in g.owners && g.owners[p].descs != []
    ensures var d := g.owners[p].descs[0];
            && d in g.descs && g.descs[d].pid == p
            && GraphOk(ReleaseOne(g, d)) && p in ReleaseOne(g, d).owners
            && ReleaseOne(g, d).owners[p].descs == g.owners[p].descs[1..]
            && ReleaseOne(g, d).descs == g.descs - {d}
            && ReleaseOne(g, d).owners == g.owners[p := g.owners[p].(descs := g.owners[p].descs[1..])]
  {
    var ds := g.owners[p].descs;
    var d := ds[0];
    assert d in ds && d in g.descs && g.descs[d].pid == p;
    Detachable(g, d);
    DetachKeeps(g, d);
    hide GraphOk;
    RemoveFirst(ds);
    var g1 := Detach(g, d);
    var i := FindResource(g.resources, g.descs[d].resource);
    if g1.resources[i].refCount == 0 { DropKeeps(g1, i); }
  }

  // ----- resources come and go

  lemma {:induction false} FindAppended(rs: seq<Resource>, r: Resource, id: int)
    ensures FindResource(rs, id) < |rs| ==> FindResource(rs + [r], id) == FindResource(rs, id)
    ensures FindResource(rs, id) == |rs| && r.id == id ==> FindResource(rs + [r], id) == |rs|
  {
    if rs != [] && rs[0].id != id {
      FindAppended(rs[1..], r, id);
      assert (rs + [r])[1..] == rs[1..] + [r];
    }
  }

  lemma AppendIds(rs: seq<Resource>, r: Resource)
    requires DistinctIds(rs) && FindResource(rs, r.id) == |rs|
    ensures DistinctIds(rs + [r])
  {
  }

  lemma DropIds(rs: seq<Resource>, i: nat)
    requires DistinctIds(rs) && i < |rs|
    ensures DistinctIds(rs[..i] + rs[i + 1..])
  {
  }

  lemma SameSides(g: Graph, g': Graph)
    requires PairsOk(g) && OwnersOk(g)
    requires g' == g.(resources := g'.resources, freeResources := g'.freeResources)
    ensures PairsOk(g') && OwnersOk(g')
  {
  }

  lemma AddKeeps(g: Graph, id: int, kind: int)
    requires GraphOk(g) && FindResource(g.resources, id) == |g.resources| && g.freeResources > 0
    ensures GraphOk(AddResource(g, id, kind))
  {
    hide PairsOk, OwnersOk, ResourceOk, FindResource, DistinctIds;
    var g' := AddResource(g, id, kind);
    SameSides(g, g');
    AppendIds(g.resources, Resource(id, kind, 0, []));
    NothingOpen(g, id);
    FreshResource(g.descs, id, kind);
    forall d | d in g.descs ensures FindResource(g'.resources, g.descs[d].resource) < |g'.resources| {
      FindAppended(g.resources, Resource(id, kind, 0, []), g.descs[d].resource);
    }
  }

  lemma FreshResource(descs: map<nat, Descriptor>, id: int, kind: int)
    requires forall d :: d in descs ==> descs[d].resource != id
    ensures ResourceOk(descs, Resource(id, kind, 0, []))
  {
  }

  lemma NothingOpen(g: Graph, id: int)
    requires ResourcesOk(g) && FindResource(g.resources, id) == |g.resources|
    ensures forall d :: d in g.descs ==> g.descs[d].resource != id
  {
  }

  lemma Unreferenced(descs: map<nat, Descriptor>, r: Resource)
    requires ResourceOk(descs, r) && r.refCount == 0
    ensures r.ptrs == [] && forall d :: d in descs ==> descs[d].resource != r.id
  {
    assert forall d :: d in descs && descs[d].resource == r.id ==> d in r.ptrs;
  }

  lemma FindInRest(rs: seq<Resource>, i: nat, id: int)
    requires i < |rs| && rs[i].id != id && FindResource(rs, id) < |rs|
    ensures FindResource(rs[..i] + rs[i + 1..], id) < |rs| - 1
  {
    hide FindResource;
    var rs' := rs[..i] + rs[i + 1..];
    var k := FindResource(rs, id);
    var k' := if k < i then k else k - 1;
    assert rs'[k'] == rs[k];
    FoundById(rs', k');
  }

  /** A resource without references has nobody in its list, so it can be dropped. */
  lemma DropKeeps(g: Graph, i: nat)
    requires GraphOk(g) && i < |g.resources| && g.resources[i].refCount == 0
    ensures g.resources[i].ptrs == [] && GraphOk(DropResource(g, i))
  {
    hide PairsOk, OwnersOk, ResourceOk, FindResource, DistinctIds;
    var g' := DropResource(g, i);
    SameSides(g, g');
    DropIds(g.resources, i);
    Unreferenced(g.descs, g.resources[i]);
    var rs, rs' := g.resources, g'.resources;
    assert forall d :: d in g.descs ==> FindResource(rs, g.descs[d].resource) < |rs|;
    forall j | 0 <= j < |rs'| ensures ResourceOk(g'.descs, rs'[j]) {
      assert rs'[j] == rs[if j < i then j else j + 1];
    }
    forall d | d in g.descs ensures FindResource(rs', g.descs[d].resource) < |rs'| {
      FindInRest(rs, i, g.descs[d].resource);
    }
  }

  // ----- every call keeps the graph sound

  lemma FetchedKeeps(g: Graph, id: int, kind: int, mode: Mode)
    requires GraphOk(g)
    ensures var (g1, place, _) := Fetched(g, id, kind, mode);
            GraphOk(g1) && g1.owners == g.owners && (place.Some? ==> place.value < |g1.resources|)
            && g1.freeDescs == g.freeDescs && g1.freePtrs == g.freePtrs
  {
    hide GraphOk;
    if mode.create && FindResource(g.resources, id) == |g.resources| && g.freeResources > 0 {
      AddKeeps(g, id, kind);
    }
  }

  lemma Lockstep(g: Graph)
    requires GraphOk(g)
    ensures g.freeDescs == g.freePtrs
  {
  }

  lemma NextFd(g: Graph, p: Pid, fd: int)
    requires GraphOk(g) && p in g.owners
    ensures GraphOk(g.(owners := g.owners[p := g.owners[p].(lastFd := fd)]))
  {
    hide PairsOk, ResourcesOk;
    var g' := g.(owners := g.owners[p := g.owners[p].(lastFd := fd)]);
    assert PairsOk(g') by { SamePools(g, g'); }
    assert ResourcesOk(g') by { SameResources(g, g'); }
  }

  lemma SamePools(g: Graph, g': Graph)
    requires PairsOk(g) && g' == g.(owners := g'.owners)
    ensures PairsOk(g')
  {
  }

  lemma SameResources(g: Graph, g': Graph)
    requires ResourcesOk(g) && g' == g.(owners := g'.owners)
    ensures ResourcesOk(g')
  {
  }

  /** Open keeps the graph sound, and once it has a descriptor it never lacks a pointer: the
      failure for want of a pointer does not happen. */
  lemma OpenKeeps(g: Graph, p: Pid, id: int, kind: int, mode: Mode)
    requires GraphOk(g) && p in g.owners
    ensures GraphOk(Open(g, p, id, kind, mode).0)
    ensures g.freeDescs != [] ==> g.freePtrs != []
  {
    hide GraphOk, Attach, Fetched, Distinct, FindResource;
    FetchedKeeps(g, id, kind, mode);
    Lockstep(g);
    var (g1, place, _) := Fetched(g, id, kind, mode);
    if place.Some? {
      var i := place.value;
      if g1.resources[i].kind == kind && !(mode.exclusive && g1.resources[i].refCount > 0) && g1.freeDescs != [] {
        var fd := g.owners[p].lastFd;
        AttachKeeps(g1, p, fd, i);
        NextFd(Attach(g1, p, fd, i), p, fd + 1);
      }
    }
  }

  lemma CloseKeeps(g: Graph, p: Pid, fd: int)
    requires GraphOk(g) && p in g.owners
    ensures GraphOk(Close(g, p, fd).0)
  {
    hide GraphOk;
    var ds := g.owners[p].descs;
    var k := FindFd(g, ds, fd);
    if k < |ds| { DetachKeeps(g, ds[k]); }
  }

  lemma DestroyKeeps(g: Graph, id: int)
    requires GraphOk(g)
    ensures GraphOk(Destroy(g, id).0) && Destroy(g, id).0.owners == g.owners && Destroy(g, id).0.descs == g.descs
  {
    var i := FindResource(g.resources, id);
    if i < |g.resources| && g.resources[i].refCount <= 0 {
      assert ResourceOk(g.descs, g.resources[i]);
      hide GraphOk;
      DropKeeps(g, i);
    }
  }

  lemma NewOwnerKeeps(g: Graph, p: Pid)
    requires GraphOk(g) && p !in g.owners
    ensures GraphOk(NewOwner(g, p))
  {
    hide PairsOk, ResourcesOk;
    SamePools(g, NewOwner(g, p));
    SameResources(g, NewOwner(g, p));
  }

  /** The tables after booting: all blocks are free, and the first process has nothing open. */
  const BOOT_GRAPH := Graph(
    map[], map[], map[0 := Owner([], 0)], [], Ascending(MAX_NUM_DESCRIPTORS), Ascending(MAX_NUM_DESCRIPTORS),
    MAX_NUM_RESOURCES)

  function Ascending(n: nat): (r: seq<nat>)
    ensures |r| == n && forall i :: 0 <= i < n ==> r[i] == i
  {
    seq(n, i => i)
  }

  lemma BootGraphOk()
    ensures GraphOk(BOOT_GRAPH)
  {
    hide Ascending;
    assert Distinct(BOOT_GRAPH.freeDescs);
  }

  lemma {:induction false} ReleaseAllKeeps(g: Graph, p: Pid)
    requires GraphOk(g) && p in g.owners
    ensures var g' := ReleaseAll(g, p);
            && GraphOk(g')
            && g'.owners == g.owners[p := g.owners[p].(descs := [])]
            && (forall d :: d in g'.descs <==> d in g.descs && g.descs[d].pid != p)
            && (forall d :: d in g'.descs ==> g'.descs[d] == g.descs[d])
    decreases |g.owners[p].descs|
  {
    hide GraphOk, ReleaseOne;
    var ds := g.owners[p].descs;
    if ds == [] {
      NoneLeft(g, p);
      assert g.owners[p].(descs := []) == g.owners[p];
    } else {
      ReleaseShrinks(g, p);
      var g1 := ReleaseOne(g, ds[0]);
      ReleaseAllKeeps(g1, p);
      assert g1.owners[p].(descs := []) == g.owners[p].(descs := []);
      assert ReleaseAll(g, p) == ReleaseAll(g1, p);
      hide ReleaseAll;
    }
  }

  lemma NoneLeft(g: Graph, p: Pid)
    requires GraphOk(g) && p in g.owners && g.owners[p].descs == []
    ensures forall d :: d in g.descs ==> g.descs[d].pid != p
  {
  }

  // ----- fork gives the child the same view

  ghost predicate AllFound(g: Graph, ds: seq<Descriptor>) {
    forall k :: 0 <= k < |ds| ==> FindResource(g.resources, ds[k].resource) < |g.resources|
  }

  lemma AttachFound(g: Graph, p: Pid, fd: int, i: nat, ds: seq<Descriptor>)
    requires AllFound(g, ds) && p in g.owners && i < |g.resources| && g.freeDescs != [] && g.freePtrs != []
    ensures AllFound(Attach(g, p, fd, i), ds)
  {
    hide FindResource;
    forall k | 0 <= k < |ds|
      ensures FindResource(Attach(g, p, fd, i).resources, ds[k].resource) < |Attach(g, p, fd, i).resources|
    {
      SameIds(g.resources, Attach(g, p, fd, i).resources, ds[k].resource);
    }
  }

  lemma FirstFree(g: Graph)
    requires GraphOk(g) && g.freeDescs != []
    ensures g.freeDescs[0] !in g.descs && g.freePtrs == g.freeDescs
  {
    assert g.freeDescs[0] in g.freeDescs;
  }

  /** The duplication loop of fork: the child's new descriptors are, in order, open on the same
      resources under the same numbers; nobody else's descriptors change. */
  lemma {:induction false} TwinsKeep(g: Graph, child: Pid, ds: seq<Descriptor>)
    requires GraphOk(g) && child in g.owners && |ds| <= |g.freeDescs| && AllFound(g, ds)
    ensures var g' := Twins(g, child, ds);
            && GraphOk(g')
            && g'.freeDescs == g.freeDescs[|ds|..]
            && g'.owners == g.owners[child := g.owners[child].(descs := g.owners[child].descs + g.freeDescs[..|ds|])]
            && (forall k :: 0 <= k < |ds| ==>
                  g.freeDescs[k] in g'.descs
                  && g'.descs[g.freeDescs[k]] == Descriptor(child, ds[k].resource, ds[k].fd, g.freeDescs[k]))
            && (forall d :: d in g.descs ==> d in g'.descs && g'.descs[d] == g.descs[d])
    decreases |ds|
  {
    hide GraphOk, FindResource;
    if ds == [] {
      assert g.owners[child].descs + [] == g.owners[child].descs;
    } else {
      FirstFree(g);
      var i := FindResource(g.resources, ds[0].resource);
      assert FindResource(g.resources, ds[0].resource) < |g.resources| && g.resources[i].id == ds[0].resource;
      AttachKeeps(g, child, ds[0].fd, i);
      AttachFound(g, child, ds[0].fd, i, ds);
      TwinStep(g, child, ds, i);
    }
  }

  lemma {:induction false} TwinStep(g: Graph, child: Pid, ds: seq<Descriptor>, i: nat)
    requires ds != [] && child in g.owners && |ds| <= |g.freeDescs| && g.freePtrs == g.freeDescs
    requires i < |g.resources| && i == FindResource(g.resources, ds[0].resource) && g.freeDescs[0] !in g.descs
    requires g.resources[i].id == ds[0].resource
    requires GraphOk(Attach(g, child, ds[0].fd, i)) && AllFound(Attach(g, child, ds[0].fd, i), ds)
    ensures var g' := Twins(g, child, ds);
            && GraphOk(g')
            && g'.freeDescs == g.freeDescs[|ds|..]
            && g'.owners == g.owners[child := g.owners[child].(descs := g.owners[child].descs + g.freeDescs[..|ds|])]
            && (forall k :: 0 <= k < |ds| ==>
                  g.freeDescs[k] in g'.descs
                  && g'.descs[g.freeDescs[k]] == Descriptor(child, ds[k].resource, ds[k].fd, g.freeDescs[k]))
            && (forall d :: d in g.descs ==> d in g'.descs && g'.descs[d] == g.descs[d])
    decreases |ds|, 0
  {
    hide GraphOk, FindResource, Attach;
    var g1 := Attach(g, child, ds[0].fd, i);
    var d := g.freeDescs[0];
    Attached(g, child, ds[0].fd, i);
    assert g1.freeDescs == g.freeDescs[1..];
    assert forall k :: 0 <= k < |ds[1..]| ==> ds[1..][k] == ds[k + 1];
    assert AllFound(g1, ds[1..]);
    TwinsKeep(g1, child, ds[1..]);
    var g' := Twins(g1, child, ds[1..]);
    assert Twins(g, child, ds) == g';
    assert g1.freeDescs[|ds[1..]|..] == g.freeDescs[|ds|..];
    assert (g.owners[child].descs + [d]) + g.freeDescs[1..][..|ds| - 1] == g.owners[child].descs + g.freeDescs[..|ds|];
    forall k | 0 <= k < |ds|
      ensures g.freeDescs[k] in g'.descs
              && g'.descs[g.freeDescs[k]] == Descriptor(child, ds[k].resource, ds[k].fd, g.freeDescs[k])
    {
      if k > 0 {
        assert g1.freeDescs[k - 1] == g.freeDescs[k] && ds[1..][k - 1] == ds[k];
      } else {
        assert d in g1.descs;
      }
    }
  }

  // ----- close undoes open

  /** The first free block is in no list. */
  lemma FreshBlock(g: Graph, p: Pid, i: nat)
    requires GraphOk(g) && p in g.owners && i < |g.resources| && g.freeDescs != []
    ensures g.freePtrs == g.freeDescs
    ensures var d := g.freeDescs[0];
            && d !in g.descs && d !in g.ptrs && d !in g.owners[p].descs && d !in g.resources[i].ptrs
    ensures FindResource(g.resources, g.resources[i].id) == i
  {
    var d := g.freeDescs[0];
    assert d in g.freeDescs;
    assert ResourceOk(g.descs, g.resources[i]);
  }

  lemma UndoAttach(g: Graph, p: Pid, fd: int, i: nat)
    requires p in g.owners && i < |g.resources| && g.freeDescs != [] && g.freePtrs == g.freeDescs
    requires var d := g.freeDescs[0];
             && d !in g.descs && d !in g.ptrs && d !in g.owners[p].descs && d !in g.resources[i].ptrs
    requires FindResource(g.resources, g.resources[i].id) == i
    ensures var g1 := Attach(g, p, fd, i);
            && FindResource(g1.resources, g.resources[i].id) == i
            && Detach(g1, g.freeDescs[0]) == g
  {
    hide FindResource, Remove;
    var d := g.freeDescs[0];
    var g1 := Attach(g, p, fd, i);
    SameIds(g.resources, g1.resources, g.resources[i].id);
    RemoveLast(g.owners[p].descs, d);
    RemoveLast(g.resources[i].ptrs, d);
    var g2 := Detach(g1, d);
    assert g2.descs == g.descs && g2.ptrs == g.ptrs;
    assert g2.freeDescs == g.freeDescs && g2.freePtrs == g.freePtrs;
    assert g2.owners == g.owners && g2.resources == g.resources;
  }

  lemma DetachAttached(g: Graph, p: Pid, fd: int, i: nat)
    requires GraphOk(g) && p in g.owners && i < |g.resources| && g.freeDescs != []
    ensures g.freePtrs != []
    ensures var g1 := Attach(g, p, fd, i);
            && GraphOk(g1) && g.freeDescs[0] in g1.descs
            && p in g1.owners && FindResource(g1.resources, g.resources[i].id) == i
            && Detach(g1, g.freeDescs[0]) == g
  {
    hide GraphOk, FindResource, Detach;
    AttachKeeps(g, p, fd, i);
    FreshBlock(g, p, i);
    UndoAttach(g, p, fd, i);
  }

  lemma {:induction false} FindFdLast(g: Graph, ds: seq<nat>, d: nat, fd: int)
    requires d in g.descs && g.descs[d].fd == fd
    ensures FindFd(g, ds + [d], fd) <= |ds|
    ensures FindFd(g, ds + [d], fd) == |ds| <==> forall x :: x in ds && x in g.descs ==> g.descs[x].fd != fd
  {
    if ds != [] {
      assert (ds + [d])[1..] == ds[1..] + [d];
      assert ds == [ds[0]] + ds[1..];
      FindFdLast(g, ds[1..], d, fd);
    }
  }

  lemma CloseUndoesAttach(g: Graph, p: Pid, fd: int, i: nat)
    requires GraphOk(g) && p in g.owners && i < |g.resources| && g.freeDescs != []
    ensures g.freePtrs != [] && GraphOk(Attach(g, p, fd, i)) && p in Attach(g, p, fd, i).owners
    ensures Close(Attach(g, p, fd, i), p, fd).1 == 0
    ensures Close(Attach(g, p, fd, i), p, fd).0 == g
            <==> forall x :: x in g.owners[p].descs ==> x in g.descs && g.descs[x].fd != fd
  {
    hide GraphOk, FindResource, Remove;
    DetachAttached(g, p, fd, i);
    FirstFree(g);
    OwnDescriptors(g, p);
    var g1 := Attach(g, p, fd, i);
    var d, ds := g.freeDescs[0], g.owners[p].descs;
    FindFdLast(g1, ds, d, fd);
    assert g1.owners[p].descs == ds + [d];
    var k := FindFd(g1, ds + [d], fd);
    if k < |ds| {
      assert ds[k] in ds && g1.descs[ds[k]].fd == fd;
      assert d in Close(g1, p, fd).0.descs by { assert (ds + [d])[k] != d; }
    } else {
      assert (ds + [d])[k] == d;
    }
    assert forall x :: x in ds ==> g1.descs[x] == g.descs[x];
  }

  lemma {:induction false} FindFdSame(g: Graph, g': Graph, ds: seq<nat>, fd: int)
    requires g'.descs == g.descs
    ensures FindFd(g', ds, fd) == FindFd(g, ds, fd)
  {
    if ds != [] { FindFdSame(g, g', ds[1..], fd); }
  }

  /** The graph with `fd` as the next number of process `p`. */
  function Counted(g: Graph, p: Pid, fd: int): Graph
    requires p in g.owners
  {
    g.(owners := g.owners[p := g.owners[p].(lastFd := fd)])
  }

  lemma DetachCounted(g: Graph, p: Pid, fd: int, d: nat)
    requires p in g.owners && d in g.descs && g.descs[d].pid == p
    requires FindResource(g.resources, g.descs[d].resource) < |g.resources|
    ensures p in Detach(g, d).owners && Detach(g, d).owners[p].lastFd == g.owners[p].lastFd
    ensures Detach(Counted(g, p, fd), d) == Counted(Detach(g, d), p, fd)
  {
    hide FindResource, Remove;
  }

  /** Close does not look at the next number. */
  lemma CloseCounted(g: Graph, p: Pid, n: int, fd: int)
    requires GraphOk(g) && p in g.owners
    ensures GraphOk(Counted(g, p, n))
    ensures p in Close(g, p, fd).0.owners && Close(g, p, fd).0.owners[p].lastFd == g.owners[p].lastFd
    ensures Close(Counted(g, p, n), p, fd) == (Counted(Close(g, p, fd).0, p, n), Close(g, p, fd).1)
  {
    hide GraphOk, FindFd, FindResource, Detach;
    NextFd(g, p, n);
    OwnDescriptors(g, p);
    var ds := g.owners[p].descs;
    FindFdSame(g, Counted(g, p, n), ds, fd);
    var k := FindFd(g, ds, fd);
    if k < |ds| {
      assert ds[k] in ds;
      Detachable(g, ds[k]);
      DetachCounted(g, p, n, ds[k]);
    }
  }

  lemma CountedOnce(g: Graph, g': Graph, p: Pid, n: int)
    requires p in g.owners && p in g'.owners && g.owners[p].lastFd == g'.owners[p].lastFd
    ensures Counted(g, p, n) == Counted(g', p, n) <==> g == g'
  {
    if Counted(g, p, n) == Counted(g', p, n) {
      var m, m' := Counted(g, p, n).owners, Counted(g', p, n).owners;
      assert g.owners == m[p := m[p].(lastFd := g.owners[p].lastFd)];
      assert g'.owners == m'[p := m'[p].(lastFd := g'.owners[p].lastFd)];
    }
  }

  /** Open succeeds. */
  predicate Opens(g: Graph, id: int, kind: int, mode: Mode) {
    var (g1, place, _) := Fetched(g, id, kind, mode);
    && place.Some? && place.value < |g1.resources| && g1.resources[place.value].kind == kind
    && !(mode.exclusive && g1.resources[place.value].refCount > 0)
    && g1.freeDescs != [] && g1.freePtrs != []
  }

  /** Closing the number that open has just returned leaves nothing of it but the next number, and
      the resource if it was created, if and only if the process had no older descriptor of that
      number; such ones exist after a fork, which copies numbers but not the counter. */
  lemma CloseUndoesOpen(g: Graph, p: Pid, id: int, kind: int, mode: Mode)
    requires GraphOk(g) && p in g.owners && Opens(g, id, kind, mode)
    ensures var (g', fd) := Open(g, p, id, kind, mode);
            && fd == g.owners[p].lastFd && GraphOk(g') && p in g'.owners
            && Close(g', p, fd).1 == 0
            && p in Fetched(g, id, kind, mode).0.owners
            && (Close(g', p, fd).0 == Counted(Fetched(g, id, kind, mode).0, p, fd + 1)
                <==> forall x :: x in g.owners[p].descs ==> x in g.descs && g.descs[x].fd != fd)
  {
    hide GraphOk, Attach, Close, Fetched, FindResource;
    OpenKeeps(g, p, id, kind, mode);
    FetchedKeeps(g, id, kind, mode);
    FetchedDescs(g, id, kind, mode);
    var (g1, place, _) := Fetched(g, id, kind, mode);
    var fd := g.owners[p].lastFd;
    CloseUndoesAttach(g1, p, fd, place.value);
    var g2 := Attach(g1, p, fd, place.value);
    CloseCounted(g2, p, fd + 1, fd);
    AttachCounter(g1, p, fd, place.value);
    CountedOnce(Close(g2, p, fd).0, g1, p, fd + 1);
  }

  lemma FetchedDescs(g: Graph, id: int, kind: int, mode: Mode)
    ensures Fetched(g, id, kind, mode).0.descs == g.descs
  {
  }

  lemma AttachCounter(g: Graph, p: Pid, fd: int, i: nat)
    requires p in g.owners && i < |g.resources| && g.freeDescs != [] && g.freePtrs != []
    ensures p in Attach(g, p, fd, i).owners && Attach(g, p, fd, i).owners[p].lastFd == g.owners[p].lastFd
  {
  }

  lemma OwnDescriptors(g: Graph, p: Pid)
    requires GraphOk(g) && p in g.owners
    ensures forall d :: d in g.owners[p].descs ==> d in g.descs && g.descs[d].pid == p
  {
  }

  // ----- exit closes exactly the resources it was the last to use

  predicate Listed(g: Graph, id: int) {
    FindResource(g.resources, id) < |g.resources|
  }

  /** The resource is not open in `p`, or it is open somewhere else too. */
  ghost predicate Survives(g: Graph, p: Pid, id: int) {
    && Listed(g, id)
    && ((forall d :: d in g.descs && g.descs[d].resource == id ==> g.descs[d].pid != p)
        || exists d :: d in g.descs && g.descs[d].resource == id && g.descs[d].pid != p)
  }

  lemma DetachListed(g: Graph, d: nat, id: int)
    requires GraphOk(g) && d in g.descs
    ensures g.descs[d].pid in g.owners && FindResource(g.resources, g.descs[d].resource) < |g.resources|
    ensures Listed(Detach(g, d), id) <==> Listed(g, id)
    ensures var i := FindResource(g.resources, g.descs[d].resource);
            Detach(g, d).resources[i].id == g.descs[d].resource
  {
    Detachable(g, d);
    hide GraphOk, FindResource;
    SameIds(g.resources, Detach(g, d).resources, id);
  }

  lemma DropListed(g: Graph, i: nat, id: int)
    requires ResourcesOk(g) && i < |g.resources|
    ensures Listed(DropResource(g, i), id) <==> Listed(g, id) && id != g.resources[i].id
  {
    hide ResourceOk;
    var rs' := DropResource(g, i).resources;
    var k := FindResource(rs', id);
    assert forall j :: 0 <= j < |rs'| ==> rs'[j] == g.resources[if j < i then j else j + 1];
    if k < |rs'| {
      FoundById(g.resources, if k < i then k else k + 1);
    }
    if Listed(g, id) && id != g.resources[i].id { FindInRest(g.resources, i, id); }
  }

  /** The count of a resource is zero exactly when no descriptor is open on it. */
  lemma CountIsZero(g: Graph, i: nat)
    requires GraphOk(g) && i < |g.resources|
    ensures g.resources[i].refCount == 0 <==> forall d :: d in g.descs ==> g.descs[d].resource != g.resources[i].id
  {
    var r := g.resources[i];
    assert ResourceOk(g.descs, r);
    if r.refCount == 0 { Unreferenced(g.descs, r); }
    if r.ptrs != [] { assert r.ptrs[0] in r.ptrs; }
  }

  lemma ReleaseOneListed(g: Graph, d: nat, id: int)
    requires GraphOk(g) && d in g.descs
    ensures Listed(ReleaseOne(g, d), id)
            <==> Listed(g, id) && (g.descs[d].resource == id ==>
                                     exists x :: x in g.descs && x != d && g.descs[x].resource == id)
  {
    hide GraphOk, FindResource, Listed;
    DetachListed(g, d, id);
    DetachKeeps(g, d);
    var g1 := Detach(g, d);
    var i := FindResource(g.resources, g.descs[d].resource);
    CountIsZero(g1, i);
    SoundResources(g1);
    assert forall x :: x in g.descs && x != d ==> x in g1.descs && g1.descs[x] == g.descs[x];
    if g1.resources[i].refCount == 0 {
      DropListed(g1, i, id);
    } else {
      var x :| x in g1.descs && g1.descs[x].resource == g1.resources[i].id;
      assert x in g.descs && x != d && g.descs[x].resource == g.descs[d].resource;
    }
  }

  lemma SoundResources(g: Graph)
    requires GraphOk(g)
    ensures ResourcesOk(g)
  {
  }

  /** One turn of the loop does not change which resources survive it. */
  lemma ReleaseOneSurvives(g: Graph, p: Pid, d: nat, id: int)
    requires GraphOk(g) && d in g.descs && g.descs[d].pid == p
    requires ReleaseOne(g, d).descs == g.descs - {d}
    ensures Survives(ReleaseOne(g, d), p, id) <==> Survives(g, p, id)
  {
    hide GraphOk, Listed, ReleaseOne;
    ReleaseOneListed(g, d, id);
    var g1 := ReleaseOne(g, d);
    assert forall x :: x in g.descs && x != d ==> x in g1.descs && g1.descs[x] == g.descs[x];
    assert forall x :: x in g1.descs ==> x in g.descs && x != d && g1.descs[x] == g.descs[x];
    if g.descs[d].resource == id && Listed(g1, id) {
      var x :| x in g.descs && x != d && g.descs[x].resource == id;
      assert x in g1.descs;
    }
  }

  /** After the release loop of exit exactly those resources are listed that the process had not
      open, or that another process has open too; so the assertions of the release of a
      resource block hold, and no resource in use is lost. */
  lemma {:induction false} ExitCloses(g: Graph, p: Pid, id: int)
    requires GraphOk(g) && p in g.owners
    ensures Listed(ReleaseAll(g, p), id) <==> Survives(g, p, id)
    decreases |g.owners[p].descs|
  {
    hide GraphOk, ReleaseOne, Listed;
    var ds := g.owners[p].descs;
    if ds == [] {
      NoneLeft(g, p);
    } else {
      ReleaseShrinks(g, p);
      var g1 := ReleaseOne(g, ds[0]);
      ExitCloses(g1, p, id);
      hide Survives;
      ReleaseOneSurvives(g, p, ds[0], id);
    }
  }

  // ----- ids and kinds

  /** The ids of resources, with their kinds. */
  ghost function Types(rs: seq<Resource>): set<(int, int)> {
    set r | r in rs :: (r.id, r.kind)
  }

  lemma TypesUpdated(rs: seq<Resource>, i: nat, r: Resource)
    requires i < |rs| && r.id == rs[i].id && r.kind == rs[i].kind
    ensures Types(rs[i := r]) <= Types(rs)
  {
    forall t | t in Types(rs[i := r]) ensures t in Types(rs) {
      var x :| x in rs[i := r] && t == (x.id, x.kind);
      assert x == r || x in rs;
      assert rs[i] in rs;
    }
  }

  lemma TypesDropped(g: Graph, i: nat)
    requires i < |g.resources|
    ensures Types(DropResource(g, i).resources) <= Types(g.resources)
  {
    forall t | t in Types(DropResource(g, i).resources) ensures t in Types(g.resources) {
      var x :| x in DropResource(g, i).resources && t == (x.id, x.kind);
      assert x in g.resources;
    }
  }

  lemma AttachTypes(g: Graph, p: Pid, fd: int, i: nat)
    requires p in g.owners && i < |g.resources| && g.freeDescs != [] && g.freePtrs != []
    ensures Types(Attach(g, p, fd, i).resources) <= Types(g.resources)
  {
    hide Types;
    TypesUpdated(g.resources, i, Attach(g, p, fd, i).resources[i]);
  }

  lemma DetachTypes(g: Graph, d: nat)
    requires d in g.descs && g.descs[d].pid in g.owners
    requires FindResource(g.resources, g.descs[d].resource) < |g.resources|
    ensures Types(Detach(g, d).resources) <= Types(g.resources)
  {
    hide Types, Remove;
    var i := FindResource(g.resources, g.descs[d].resource);
    TypesUpdated(g.resources, i, Detach(g, d).resources[i]);
  }

  /** Open adds the type it was asked to create, at most. */
  lemma OpenTypes(g: Graph, p: Pid, id: int, kind: int, mode: Mode)
    requires p in g.owners
    ensures Types(Open(g, p, id, kind, mode).0.resources)
            <= Types(g.resources) + (if mode.create then {(id, kind)} else {})
  {
    hide Attach;
    var (g1, place, _) := Fetched(g, id, kind, mode);
    assert Types(g1.resources) <= Types(g.resources) + (if mode.create then {(id, kind)} else {});
    hide Types, Fetched, FindResource;
    if Open(g, p, id, kind, mode).0 != g1 && place.Some? && p in g1.owners {
      AttachTypes(g1, p, g.owners[p].lastFd, place.value);
    }
  }

  lemma CloseTypes(g: Graph, p: Pid, fd: int)
    requires GraphOk(g) && p in g.owners
    ensures Types(Close(g, p, fd).0.resources) <= Types(g.resources)
  {
    hide GraphOk, Types, Detach, FindResource;
    var k := FindFd(g, g.owners[p].descs, fd);
    if k < |g.owners[p].descs| {
      Detachable(g, g.owners[p].descs[k]);
      DetachTypes(g, g.owners[p].descs[k]);
    }
  }

  lemma DestroyTypes(g: Graph, id: int)
    ensures Types(Destroy(g, id).0.resources) <= Types(g.resources)
  {
    hide Types;
    var i := FindResource(g.resources, id);
    if i < |g.resources| { TypesDropped(g, i); }
  }

  lemma {:induction false} TwinsTypes(g: Graph, child: Pid, ds: seq<Descriptor>)
    ensures Types(Twins(g, child, ds).resources) <= Types(g.resources)
    decreases |ds|
  {
    hide Types, Attach;
    if ds != [] {
      var i := FindResource(g.resources, ds[0].resource);
      if child in g.owners && i < |g.resources| && g.freeDescs != [] && g.freePtrs != [] {
        AttachTypes(g, child, ds[0].fd, i);
        TwinsTypes(Attach(g, child, ds[0].fd, i), child, ds[1..]);
      }
    }
  }

  lemma ReleaseOneTypes(g: Graph, d: nat)
    requires GraphOk(g) && d in g.descs
    ensures Types(ReleaseOne(g, d).resources) <= Types(g.resources)
  {
    hide GraphOk, Types, Detach, FindResource, DropResource;
    Detachable(g, d);
    DetachTypes(g, d);
    var i := FindResource(g.resources, g.descs[d].resource);
    DetachedPlaces(g, d);
    TypesDropped(Detach(g, d), i);
  }

  lemma DetachedPlaces(g: Graph, d: nat)
    requires d in g.descs && g.descs[d].pid in g.owners
    requires FindResource(g.resources, g.descs[d].resource) < |g.resources|
    ensures |Detach(g, d).resources| == |g.resources|
  {
  }

  lemma {:induction false} ReleaseAllTypes(g: Graph, p: Pid)
    requires GraphOk(g) && p in g.owners
    ensures Types(ReleaseAll(g, p).resources) <= Types(g.resources)
    decreases |g.owners[p].descs|
  {
    hide GraphOk, Types, ReleaseOne;
    var ds := g.owners[p].descs;
    if ds != [] {
      ReleaseShrinks(g, p);
      ReleaseOneTypes(g, ds[0]);
      ReleaseAllTypes(ReleaseOne(g, ds[0]), p);
    }
  }
}
