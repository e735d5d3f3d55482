/** The kernel and the resource tables together: every system call but shutdown, and the ticks. */
module Whole {
  import opened Lists
  import opened KernelState
  import opened KernelSteps
  import opened KernelInvariant
  import opened ProcessInvariant
  import opened Lifetimes
  import opened Runs
  import opened QueueSteps
  import opened KernelMachine
  import opened DescriptorTable
  import D = Descriptors

  datatype System = System(kernel: State, graph: D.Graph)

  /** `Call` is any call of the kernel model but `Resource`, whose place the last three take. */
  datatype Request =
    | Clock
    | Call(call: Call)
    | OpenResource(id: int, kind: int, mode: D.Mode)
    | CloseResource(fd: int)
    | DestroyResource(id: int)

  const BOOT_SYSTEM := System(BOOT, D.BOOT_GRAPH)

  /** The type that the source gives to queues (include/disastrOS_resource.h). */
  const QUEUE_KIND := 1

  /** Queues and generic resources share no ids, and no generic resource passes for a queue. The
      source keeps both in one list, and looks for the first entry with an id. */
  ghost predicate Apart(s: State, g: D.Graph) {
    forall t :: t in D.Types(g.resources) ==> QueueAt(s, t.0) == None && t.1 != QUEUE_KIND
  }

  /** Both parts are good and share no ids, every live process has a descriptor list, and no list is
      there for a process to come. */
  ghost predicate SystemOk(w: System) {
    && Inv(w.kernel) && D.GraphOk(w.graph) && Apart(w.kernel, w.graph)
    && w.kernel.pcbs.Keys <= w.graph.owners.Keys
    && forall p :: p in w.graph.owners ==> p < w.kernel.lastPid
  }

  /** The tables can be asked about the running process. */
  ghost predicate Served(w: System) {
    D.GraphOk(w.graph) && w.kernel.running in w.graph.owners
  }

  // ----- one request

  /** The step that the request is for the kernel: a call on resources returns what the tables say. */
  function KernelEvent(w: System, r: Request): Event
    requires Served(w)
  {
    var p := w.kernel.running;
    match r
    case Clock => Tick
    case Call(call) => Trap(call)
    case OpenResource(id, kind, mode) => Trap(Resource(D.Open(w.graph, p, id, kind, mode).1))
    case CloseResource(fd) => Trap(Resource(D.Close(w.graph, p, fd).1))
    case DestroyResource(id) => Trap(Resource(D.Destroy(w.graph, id).1))
  }

  /** What the running process has open, in list order. */
  function Opened(g: D.Graph, p: Pid): seq<D.Descriptor>
    requires D.GraphOk(g) && p in g.owners
  {
    D.OwnDescriptors(g, p);
    D.Described(g, g.owners[p].descs)
  }

  /** The tables after the request. A child starts with nothing open, or after a fork with what its
      parent has open; an exit releases the descriptors only if it answers its parent's wait. */
  function GraphAfter(w: System, r: Request): D.Graph
    requires Served(w)
  {
    var s, g, p := w.kernel, w.graph, w.kernel.running;
    match r
    case Clock => g
    case Call(call) =>
      (match call
       case Spawn => if s.pools.pcbs > 0 then D.NewOwner(g, s.lastPid) else g
       case Fork => if s.pools.pcbs > 0 then D.Twins(D.NewOwner(g, s.lastPid), s.lastPid, Opened(g, p)) else g
       case Exit(_) => if ExitAnswers(s) then D.ReleaseAll(g, p) else g
       case _ => g)
    case OpenResource(id, kind, mode) => D.Open(g, p, id, kind, mode).0
    case CloseResource(fd) => D.Close(g, p, fd).0
    case DestroyResource(id) => D.Destroy(g, id).0
  }

  function After(w: System, r: Request): System
    requires Served(w)
  {
    System(Step(w.kernel, KernelEvent(w, r)), GraphAfter(w, r))
  }

  /** The request does not mix up queues and generic resources: nothing is created under an id of the
      other kind, and a queue is neither opened nor destroyed as a resource. An open that neither
      creates nor asks for a queue may name one: it is refused either way. */
  ghost predicate Unmixed(w: System, r: Request) {
    match r
    case Call(Create(id, _)) => forall t :: t in D.Types(w.graph.resources) ==> t.0 != id
    case OpenResource(id, kind, mode) =>
      && (mode.create || kind == QUEUE_KIND ==> QueueAt(w.kernel, id) == None)
      && (mode.create ==> kind != QUEUE_KIND)
    case DestroyResource(id) => QueueAt(w.kernel, id) == None
    case _ => true
  }

  /** What the kernel demands of its callers; requests that mix up nothing; and for a fork as many
      free descriptors as the parent has open: the source asserts that each allocation succeeds. */
  ghost predicate Allowed(w: System, r: Request)
    requires Served(w)
  {
    && Enabled(w.kernel, KernelEvent(w, r)) && Unmixed(w, r)
    && (r.Call? ==> !r.call.Resource?)
    && (r.Call? && r.call.Fork? && w.kernel.pools.pcbs > 0 ==>
          |w.graph.owners[w.kernel.running].descs| <= |w.graph.freeDescs|)
  }

  lemma SystemServes(w: System)
    requires SystemOk(w)
    ensures Served(w) && w.kernel.lastPid !in w.graph.owners
  {
    RunningRuns(w.kernel);
    hide Inv;
  }

  // ----- the invariant

  /** The pids that get a descriptor list. */
  function Born(w: System, r: Request): set<Pid> {
    if r.Call? && (r.call.Spawn? || r.call.Fork?) && w.kernel.pools.pcbs > 0 then {w.kernel.lastPid} else {}
  }

  /** What the request does to the descriptor lists: new processes get one, an answering exit empties
      its caller's, and apart from these only the caller's own list changes. */
  ghost predicate OwnersAfter(w: System, g': D.Graph, r: Request)
    requires Served(w)
  {
    var g, p := w.graph, w.kernel.running;
    && g'.owners.Keys == g.owners.Keys + Born(w, r)
    && (forall q :: q in g.owners && q != p ==> g'.owners[q] == g.owners[q])
    && (r.Call? ==> if r.call.Exit? && ExitAnswers(w.kernel) then g'.owners[p].descs == []
                    else g'.owners[p] == g.owners[p])
  }

  lemma ForkKeeps(g: D.Graph, p: Pid, child: Pid)
    requires D.GraphOk(g) && p in g.owners && child !in g.owners && |g.owners[p].descs| <= |g.freeDescs|
    ensures var g' := D.Twins(D.NewOwner(g, child), child, Opened(g, p));
            && D.GraphOk(g') && g'.owners.Keys == g.owners.Keys + {child}
            && forall q :: q in g.owners ==> g'.owners[q] == g.owners[q]
  {
    hide D.GraphOk, D.Twins;
    D.NewOwnerKeeps(g, child);
    var g1 := D.NewOwner(g, child);
    D.OwnDescriptors(g, p);
    AllOwnFound(g, p);
    D.TwinsKeep(g1, child, Opened(g, p));
  }

  lemma OpenOwners(g: D.Graph, p: Pid, id: int, kind: int, mode: D.Mode)
    requires p in g.owners
    ensures var g' := D.Open(g, p, id, kind, mode).0;
            g'.owners.Keys == g.owners.Keys && forall q :: q in g.owners && q != p ==> g'.owners[q] == g.owners[q]
  {
    hide D.FindResource;
  }

  lemma CloseOwners(g: D.Graph, p: Pid, fd: int)
    requires D.GraphOk(g) && p in g.owners
    ensures var g' := D.Close(g, p, fd).0;
            g'.owners.Keys == g.owners.Keys && forall q :: q in g.owners && q != p ==> g'.owners[q] == g.owners[q]
  {
    hide D.GraphOk, D.FindResource, D.FindFd, D.Detach;
    D.OwnDescriptors(g, p);
    var ds := g.owners[p].descs;
    var k := D.FindFd(g, ds, fd);
    if k < |ds| {
      assert ds[k] in ds;
      D.Detachable(g, ds[k]);
      DetachOwners(g, ds[k]);
    }
  }

  lemma DetachOwners(g: D.Graph, d: nat)
    requires d in g.descs && g.descs[d].pid in g.owners
    requires D.FindResource(g.resources, g.descs[d].resource) < |g.resources|
    ensures var g', p := D.Detach(g, d), g.descs[d].pid;
            g'.owners.Keys == g.owners.Keys && forall q :: q in g.owners && q != p ==> g'.owners[q] == g.owners[q]
  {
    hide D.FindResource, Remove;
  }

  lemma CallGraph(w: System, call: Call)
    requires Served(w) && w.kernel.lastPid !in w.graph.owners && Allowed(w, Call(call))
    ensures D.GraphOk(GraphAfter(w, Call(call))) && OwnersAfter(w, GraphAfter(w, Call(call)), Call(call))
  {
    hide D.GraphOk, Enabled, ExitAnswers, D.Twins, D.ReleaseAll, Opened;
    var g, p, child := w.graph, w.kernel.running, w.kernel.lastPid;
    if call.Spawn? && w.kernel.pools.pcbs > 0 {
      D.NewOwnerKeeps(g, child);
    } else if call.Fork? && w.kernel.pools.pcbs > 0 {
      ForkKeeps(g, p, child);
    } else if call.Exit? && ExitAnswers(w.kernel) {
      D.ReleaseAllKeeps(g, p);
    }
  }

  /** Every request leaves the tables sound. */
  lemma GraphStep(w: System, r: Request)
    requires Served(w) && w.kernel.lastPid !in w.graph.owners && Allowed(w, r)
    ensures D.GraphOk(GraphAfter(w, r)) && OwnersAfter(w, GraphAfter(w, r), r)
  {
    hide D.GraphOk, Enabled;
    var g, p := w.graph, w.kernel.running;
    match r
    case Clock =>
    case Call(call) => CallGraph(w, call);
    case OpenResource(id, kind, mode) =>
      D.OpenKeeps(g, p, id, kind, mode);
      OpenOwners(g, p, id, kind, mode);
    case CloseResource(fd) =>
      D.CloseKeeps(g, p, fd);
      CloseOwners(g, p, fd);
    case DestroyResource(id) => D.DestroyKeeps(g, id);
  }

  // ----- ids

  /** The request creates this type of resource, at most. */
  function NewTypes(r: Request): set<(int, int)> {
    if r.OpenResource? && r.mode.create then {(r.id, r.kind)} else {}
  }

  lemma TypesAfter(w: System, r: Request)
    requires Served(w) && Allowed(w, r)
    ensures D.Types(GraphAfter(w, r).resources) <= D.Types(w.graph.resources) + NewTypes(r)
  {
    hide D.GraphOk, D.Types, Enabled, Unmixed, ExitAnswers, D.Open, D.Close, D.Destroy;
    var s, g, p := w.kernel, w.graph, w.kernel.running;
    match r
    case Clock =>
    case Call(call) =>
      if call.Fork? && s.pools.pcbs > 0 { D.TwinsTypes(D.NewOwner(g, s.lastPid), s.lastPid, Opened(g, p)); }
      if call.Exit? { D.ReleaseAllTypes(g, p); }
    case OpenResource(id, kind, mode) => D.OpenTypes(g, p, id, kind, mode);
    case CloseResource(fd) => D.CloseTypes(g, p, fd);
    case DestroyResource(id) => D.DestroyTypes(g, id);
  }

  /** Only create makes a queue. */
  lemma NewQueue(s: State, e: Event, id: int)
    requires TableOk(s.queues) && QueueAt(s, id) == None && QueueAt(Step(s, e), id) != None
    ensures e.Trap? && e.call.Create? && e.call.queueId == id
  {
    hide TableOk, Schedule, SendStep, ReceiveStep;
    if e.Trap? { assert QueueAt(Issue(s, e.call), id) == QueueAt(s, id); }
    hide QueueAt;
    if IsSend(e, id) {
      SendQueue(Issue(s, e.call), id, e.call.size, Payload(e.call));
    } else if IsReceive(e, id) {
      ReceiveQueue(Issue(s, e.call), id, e.call.bufferSize);
    } else {
      QueueUntouched(s, e, id);
    }
  }

  lemma CreateRequest(w: System, r: Request)
    requires Served(w) && KernelEvent(w, r).Trap? && KernelEvent(w, r).call.Create?
    ensures r == Request.Call(KernelEvent(w, r).call)
  {
    hide D.GraphOk;
  }

  /** Ids stay apart. */
  lemma ApartStep(w: System, r: Request)
    requires Served(w) && Allowed(w, r) && Inv(w.kernel) && Apart(w.kernel, w.graph)
    ensures Apart(After(w, r).kernel, After(w, r).graph)
  {
    hide Inv, Served, TableOk, D.Types, Allowed, Step, QueueAt, GraphAfter, KernelEvent;
    var s, e := w.kernel, KernelEvent(w, r);
    SoundTable(s);
    TypesAfter(w, r);
    forall t | t in D.Types(GraphAfter(w, r).resources) ensures QueueAt(Step(s, e), t.0) == None && t.1 != QUEUE_KIND {
      NewTypesApart(w, r, t);
      if QueueAt(Step(s, e), t.0) != None {
        NewQueue(s, e, t.0);
        CreateApart(w, r, t);
      }
    }
  }

  lemma SoundTable(s: State)
    requires Inv(s)
    ensures TableOk(s.queues)
  {
  }

  lemma NewTypesApart(w: System, r: Request, t: (int, int))
    requires Served(w) && Allowed(w, r)
    ensures t in NewTypes(r) ==> QueueAt(w.kernel, t.0) == None && t.1 != QUEUE_KIND
  {
    hide Served, Enabled, QueueAt, KernelEvent;
  }

  lemma CreateApart(w: System, r: Request, t: (int, int))
    requires Served(w) && Allowed(w, r) && KernelEvent(w, r).Trap? && KernelEvent(w, r).call.Create?
    requires KernelEvent(w, r).call.queueId == t.0
    ensures t !in D.Types(w.graph.resources) && NewTypes(r) == {}
  {
    hide Served, Enabled, D.Types, KernelEvent;
    CreateRequest(w, r);
  }

  // ----- every request

  lemma EventKinds(w: System, r: Request)
    requires Served(w) && Allowed(w, r)
    ensures var e := KernelEvent(w, r);
            && (e == Trap(Spawn) || e == Trap(Fork) <==> r == Call(Spawn) || r == Call(Fork))
            && (e.Trap? && (e.call.Wait? || e.call.Exit?) <==> r.Call? && (r.call.Wait? || r.call.Exit?))
            && (e.Trap? && (e.call.Wait? || e.call.Exit?) ==> e == Trap(r.call))
            && Enabled(w.kernel, e)
  {
    hide D.GraphOk, Enabled;
  }

  /** Every system call but shutdown, and every tick, keeps the kernel invariant and the tables
      sound, and every live process has a descriptor list. */
  lemma SystemStep(w: System, r: Request)
    requires SystemOk(w) && Served(w) && Allowed(w, r)
    ensures SystemOk(After(w, r))
  {
    hide Inv, D.GraphOk, Apart, Allowed, Step, KernelEvent, GraphAfter;
    var s, e, g' := w.kernel, KernelEvent(w, r), GraphAfter(w, r);
    var s' := Step(s, e);
    EventKinds(w, r);
    SystemServes(w);
    GraphStep(w, r);
    ApartStep(w, r);
    StepInv(s, e);
    LastPidStep(s, e);
    forall c | c in s'.pcbs ensures c in g'.owners {
      if c !in s.pcbs { NewProcess(s, e, c); }
    }
  }

  /** A spawned process has nothing open; a forked one has the same resources open as its parent, under
      the same numbers and in the same order. Both count their own numbers from 0. */
  lemma ChildOpens(w: System, r: Request)
    requires SystemOk(w) && Served(w) && Allowed(w, r) && (r == Call(Spawn) || r == Call(Fork))
    requires w.kernel.pools.pcbs > 0
    ensures var g', child := GraphAfter(w, r), w.kernel.lastPid;
            && D.GraphOk(g') && child in g'.owners && g'.owners[child].lastFd == 0
            && (r == Call(Spawn) ==> g'.owners[child].descs == [])
            && (r == Call(Fork) ==> SameOpen(w.graph, w.kernel.running, g', child))
  {
    hide Inv, D.GraphOk, Enabled, D.Twins, Opened, SameOpen;
    SystemServes(w);
    GraphStep(w, r);
    if r == Call(Fork) { ForkedOpens(w.graph, w.kernel.running, w.kernel.lastPid); }
  }

  /** Process `q` in `g'` has what `p` has in `g`. */
  ghost predicate SameOpen(g: D.Graph, p: Pid, g': D.Graph, q: Pid)
    requires p in g.owners && q in g'.owners
  {
    var ds, ds' := g.owners[p].descs, g'.owners[q].descs;
    && |ds'| == |ds|
    && forall k :: 0 <= k < |ds| ==>
         && ds[k] in g.descs && ds'[k] in g'.descs
         && g'.descs[ds'[k]].resource == g.descs[ds[k]].resource && g'.descs[ds'[k]].fd == g.descs[ds[k]].fd
  }

  lemma ForkedOpens(g: D.Graph, p: Pid, child: Pid)
    requires D.GraphOk(g) && p in g.owners && child !in g.owners && |g.owners[p].descs| <= |g.freeDescs|
    ensures var g' := D.Twins(D.NewOwner(g, child), child, Opened(g, p));
            child in g'.owners && g'.owners[child].lastFd == 0 && SameOpen(g, p, g', child)
  {
    hide D.GraphOk, D.Twins;
    D.NewOwnerKeeps(g, child);
    D.OwnDescriptors(g, p);
    AllOwnFound(g, p);
    var ds := Opened(g, p);
    D.TwinsKeep(D.NewOwner(g, child), child, ds);
    assert [] + g.freeDescs[..|ds|] == g.freeDescs[..|ds|];
    assert forall k :: 0 <= k < |ds| ==> g.owners[p].descs[k] in g.owners[p].descs;
  }

  // ----- what dead processes leave behind

  /** No process whose PCB is gone has descriptors. */
  ghost predicate NothingLeft(w: System) {
    forall p :: p in w.graph.owners && p !in w.kernel.pcbs ==> w.graph.owners[p].descs == []
  }

  /** The wait collects a zombie that has descriptors: exit has not released them, because the
      parent was not waiting yet. */
  predicate Strands(w: System, r: Request) {
    && r.Call? && r.call.Wait?
    && var s := w.kernel;
       var me := At(s.pcbs, s.running);
       && me.children != [] && !WaitBlocks(s, r.call.pid)
       && var c := Awaited(s.pcbs, me.children, r.call.pid);
          c in w.graph.owners && w.graph.owners[c].descs != []
  }

  /** A request leaves descriptors behind without a process exactly when it is such a wait. */
  lemma StrandStep(w: System, r: Request)
    requires SystemOk(w) && Served(w) && Allowed(w, r) && NothingLeft(w)
    ensures NothingLeft(After(w, r)) <==> !Strands(w, r)
  {
    hide Inv, D.GraphOk, Allowed, Step, KernelEvent, GraphAfter, Frees;
    var s, e, g' := w.kernel, KernelEvent(w, r), GraphAfter(w, r);
    var s' := Step(s, e);
    EventKinds(w, r);
    SystemServes(w);
    GraphStep(w, r);
    if Strands(w, r) {
      var c := Awaited(s.pcbs, At(s.pcbs, s.running).children, r.call.pid);
      AwaitedLives(s, r.call.pid);
      assert Frees(s, e, c) by { WaitFreesAwaited(s, e); }
      FreesExactly(s, e, c);
      assert g'.owners[c].descs != [];
    } else {
      forall p | p in g'.owners && p !in s'.pcbs ensures g'.owners[p].descs == [] {
        OneLeft(w, r, p);
      }
    }
  }

  lemma OneLeft(w: System, r: Request, p: Pid)
    requires SystemOk(w) && Served(w) && Allowed(w, r) && NothingLeft(w) && !Strands(w, r)
    requires OwnersAfter(w, GraphAfter(w, r), r)
    requires p in GraphAfter(w, r).owners && p !in Step(w.kernel, KernelEvent(w, r)).pcbs
    ensures GraphAfter(w, r).owners[p].descs == []
  {
    hide Inv, D.GraphOk, Allowed, Step, KernelEvent, GraphAfter, Awaited, WaitBlocks, ExitAnswers;
    var s, e := w.kernel, KernelEvent(w, r);
    EventKinds(w, r);
    RunningRuns(s);
    if p in s.pcbs {
      FreesExactly(s, e, p);
    } else if p == s.lastPid {
      assert p in Born(w, r);
      BornLives(s, e);
    }
  }

  // ----- over runs

  /** Each of the requests since booting was allowed. */
  ghost predicate Possible(rs: seq<Request>)
    decreases |rs|, 0
  {
    rs == [] || (Possible(rs[..|rs| - 1]) && Served(Reached(rs[..|rs| - 1]))
                 && Allowed(Reached(rs[..|rs| - 1]), rs[|rs| - 1]))
  }

  ghost function Reached(rs: seq<Request>): System
    requires Possible(rs)
    decreases |rs|, 1
  {
    if rs == [] then BOOT_SYSTEM else After(Reached(rs[..|rs| - 1]), rs[|rs| - 1])
  }

  lemma BootSystemOk()
    ensures SystemOk(BOOT_SYSTEM) && NothingLeft(BOOT_SYSTEM)
  {
    BootInv();
    D.BootGraphOk();
    hide Inv, D.GraphOk;
  }

  /** Every state that the system reaches after booting is good. */
  lemma {:induction false} ReachedOk(rs: seq<Request>)
    requires Possible(rs)
    ensures SystemOk(Reached(rs))
    decreases |rs|
  {
    hide SystemOk, Served, Allowed;
    if rs == [] {
      BootSystemOk();
    } else {
      ReachedOk(rs[..|rs| - 1]);
      SystemStep(Reached(rs[..|rs| - 1]), rs[|rs| - 1]);
    }
  }

  lemma PossiblePrefix(rs: seq<Request>, k: nat)
    requires Possible(rs) && k <= |rs|
    ensures Possible(rs[..k])
    decreases |rs|
  {
    hide Served, Allowed, Reached;
    if k < |rs| {
      PossiblePrefix(rs[..|rs| - 1], k);
      assert rs[..|rs| - 1][..k] == rs[..k];
    } else {
      assert rs[..k] == rs;
    }
  }

  /** What the requests are for the kernel. */
  ghost function Events(rs: seq<Request>): (es: seq<Event>)
    requires Possible(rs)
    ensures |es| == |rs|
    decreases |rs|
  {
    if rs == [] then []
    else
      var front := rs[..|rs| - 1];
      Events(front) + [KernelEvent(Reached(front), rs[|rs| - 1])]
  }

  /** A run of the whole system is a legal run for the kernel, so all that holds of legal runs from
      boot holds of the kernel in the whole system. */
  lemma {:induction false} KernelRuns(rs: seq<Request>)
    requires Possible(rs)
    ensures Legal(BOOT, Events(rs)) && Exec(BOOT, Events(rs)) == Reached(rs).kernel
    decreases |rs|
  {
    hide Served, Enabled, Unmixed, Step, KernelEvent, GraphAfter;
    if rs != [] {
      var n := |rs| - 1;
      var front, es := rs[..n], Events(rs);
      KernelRuns(front);
      assert es[..n] == Events(front) && es[..n + 1] == es;
      Advance(es, n, Reached(front).kernel, Reached(rs).kernel);
    }
  }

  /** Every request of the run leaves nothing behind up to `k`. */
  ghost predicate CleanAt(rs: seq<Request>, k: int) {
    0 <= k <= |rs| && Possible(rs[..k]) ==> NothingLeft(Reached(rs[..k]))
  }

  ghost predicate StrandsAt(rs: seq<Request>, k: int) {
    0 <= k < |rs| && Possible(rs[..k]) && Strands(Reached(rs[..k]), rs[k])
  }

  /** Over every run from boot: at every point every descriptor belongs to a process that has a PCB
      if and only if no wait of the run collects a zombie with descriptors. */
  lemma {:induction false} NothingLeftExactly(rs: seq<Request>)
    requires Possible(rs)
    ensures (forall k :: 0 <= k <= |rs| ==> CleanAt(rs, k)) <==> (forall k :: 0 <= k < |rs| ==> !StrandsAt(rs, k))
    decreases |rs|
  {
    hide CleanAt, StrandsAt, Possible, Reached;
    if rs == [] {
      CleanAtBoot();
    } else {
      var n := |rs| - 1;
      var front := rs[..n];
      PossiblePrefix(rs, n);
      NothingLeftExactly(front);
      SameUpTo(rs, front);
      LastRequest(rs);
    }
  }

  lemma CleanAtBoot()
    ensures CleanAt([], 0)
  {
    hide NothingLeft;
    BootSystemOk();
    var none: seq<Request> := [];
    assert none[..0] == none;
  }

  lemma SameUpTo(rs: seq<Request>, front: seq<Request>)
    requires rs != [] && front == rs[..|rs| - 1]
    ensures forall k :: 0 <= k <= |front| ==> (CleanAt(rs, k) <==> CleanAt(front, k))
    ensures forall k :: 0 <= k < |front| ==> (StrandsAt(rs, k) <==> StrandsAt(front, k))
  {
    hide NothingLeft, Strands, Possible, Reached;
    assert forall k :: 0 <= k <= |front| ==> front[..k] == rs[..k];
    assert forall k :: 0 <= k < |front| ==> front[k] == rs[k];
  }

  lemma LastRequest(rs: seq<Request>)
    requires rs != [] && Possible(rs)
    ensures var n := |rs| - 1;
            CleanAt(rs, n) ==> (CleanAt(rs, n + 1) <==> !StrandsAt(rs, n))
  {
    hide SystemOk, NothingLeft, Strands, Allowed, Served;
    var n := |rs| - 1;
    assert rs[..n + 1] == rs;
    if CleanAt(rs, n) {
      ReachedOk(rs[..n]);
      StrandStep(Reached(rs[..n]), rs[n]);
    }
  }

  // ----- the system as objects

  /** The kernel's globals and the resource tables, served by one trap. */
  class Machine {
    const kernel: Kernel
    const table: ResourceTable

    ghost function Abs(): System
      reads this, kernel, table
    {
      System(kernel.Abs(), table.Abs())
    }

    constructor ()
      ensures Abs() == BOOT_SYSTEM && SystemOk(Abs()) && fresh(kernel) && fresh(table)
    {
      kernel := new Kernel();
      table := new ResourceTable();
      new;
      BootSystemOk();
    }

    /** One trap or tick: the tables and the kernel are updated by the calls' own methods. */
    method Serve(r: Request)
      requires SystemOk(Abs()) && Served(Abs()) && Allowed(Abs(), r)
      modifies kernel, table
      ensures Served(old(Abs())) && Abs() == After(old(Abs()), r)
      ensures SystemOk(Abs())
    {
      hide Inv, D.GraphOk, Step, OwnersAfter;
      ghost var w := Abs();
      SystemServes(w);
      SystemStep(w, r);
      match r
      case Clock => kernel.TimerInterrupt();
      case Call(call) => ServeCall(call);
      case OpenResource(id, kind, mode) =>
        var ret := table.OpenResource(kernel.running, id, kind, mode);
        kernel.Syscall(Resource(ret));
      case CloseResource(fd) =>
        var ret := table.CloseResource(kernel.running, fd);
        kernel.Syscall(Resource(ret));
      case DestroyResource(id) =>
        var ret := table.DestroyResource(id);
        kernel.Syscall(Resource(ret));
    }

    /** A call whose main part is the kernel's: new processes get their descriptors, and the exit
        that answers a wait releases those of its caller. */
    method ServeCall(call: Call)
      requires SystemOk(Abs()) && Served(Abs()) && Allowed(Abs(), Call(call))
      modifies kernel, table
      ensures Served(old(Abs())) && Abs() == After(old(Abs()), Call(call))
    {
      hide Inv, D.GraphOk, Step;
      ghost var w := Abs();
      SystemServes(w);
      var caller, child := kernel.running, kernel.lastPid;
      if (call.Spawn? || call.Fork?) && kernel.pools.pcbs > 0 {
        table.AddProcess(child);
        if call.Fork? { table.DuplicateDescriptors(caller, child); }
      }
      if call.Exit? {
        var parent := At(kernel.pcbs, caller).parent;
        if parent.Some? && WaitsFor(kernel.pcbs, parent.value, caller) {
          table.ReleaseDescriptors(caller);
        }
      }
      kernel.Syscall(call);
    }
  }
}
