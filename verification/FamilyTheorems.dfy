/** Theorems about parents and children: which exits a waiting parent can miss, that every
    process is collected once and by its holder, and where child references leak. */
module FamilyTheorems {
  import opened Lists
  import opened KernelState
  import opened KernelSteps
  import opened KernelInvariant
  import opened ProcessInvariant
  import opened Runs

  // ----- no missed child exit

  /** Nobody is blocked in a wait that a zombie in its own children list would answer. */
  ghost predicate NoMissedExit(m: Processes) {
    forall p, c :: WaitsFor(m, p, c) && Holds(m, p, c) ==> At(m, c).status != Zombie
  }

  /** Children move to init while it waits for one of them: the caller itself, which init has
      adopted earlier, or a zombie that the caller has not collected. */
  ghost predicate Misses(s: State, e: Event) {
    && e.Trap? && e.call.Exit?
    && !(ExitAnswers(s) && At(s.pcbs, s.running).parent == Some(INIT))
    && exists c :: WaitsFor(s.pcbs, INIT, c) &&
         ((c == s.running && Holds(s.pcbs, INIT, c))
          || (Holds(s.pcbs, s.running, c) && At(s.pcbs, c).status == Zombie))
  }

  /** No process starts or changes a wait, becomes a zombie, or changes its children. */
  ghost predicate Calm(m: Processes, m': Processes) {
    && m'.Keys == m.Keys
    && forall p :: p in m ==>
         && (m'[p].status == Zombie <==> m[p].status == Zombie)
         && m'[p].children == m[p].children
         && (m'[p].status == Waiting && m'[p].call.Wait? ==> m[p].status == Waiting && m'[p].call == m[p].call)
  }

  lemma CalmKeeps(m: Processes, m': Processes)
    requires Calm(m, m') && NoMissedExit(m)
    ensures NoMissedExit(m')
  {
    forall p, c | WaitsFor(m', p, c) && Holds(m', p, c) ensures At(m', c).status != Zombie {
      assert WaitsFor(m, p, c) && Holds(m, p, c);
    }
  }

  /** The statuses that the calm steps rely on. */
  ghost predicate Settled(s: State) {
    && s.running in s.pcbs && s.pcbs[s.running].status == Running
    && Have(s.pcbs, s.ready, Ready)
    && (forall i, p :: 0 <= i < |s.queues| && p in s.queues[i].receivers + s.queues[i].senders ==>
          p in s.pcbs && s.pcbs[p].status == Waiting && !s.pcbs[p].call.Wait?)
    && (forall p :: p in Elapsed(s.timers, s.time) ==> p in s.pcbs && s.pcbs[p].status == Waiting)
  }

  lemma GoodIsSettled(s: State)
    requires Common(s) && s.running in s.pcbs && s.pcbs[s.running].status == Running
    ensures Settled(s)
  {
    hide FamilyOk, TableOk, PoolsOk;
    ElapsedWait(s);
    forall i, p | 0 <= i < |s.queues| && p in s.queues[i].receivers + s.queues[i].senders
      ensures p in s.pcbs && s.pcbs[p].status == Waiting && !s.pcbs[p].call.Wait?
    {
      assert QueueStatusOk(s.pcbs, s.queues[i]);
    }
  }

  lemma CalmOne(m: Processes, p: Pid, pcb: PCB)
    requires p in m && m[p].status != Zombie && pcb.status != Zombie && pcb.children == m[p].children
    requires pcb.status == Waiting ==> !pcb.call.Wait?
    ensures Calm(m, m[p := pcb])
  {
  }

  lemma CalmTwice(m: Processes, m1: Processes, m2: Processes)
    requires Calm(m, m1) && Calm(m1, m2)
    ensures Calm(m, m2)
  {
  }

  lemma SwitchCalm(s: State)
    requires s.ready != [] ==> s.ready[0] in s.pcbs && s.pcbs[s.ready[0]].status != Zombie
    ensures Calm(s.pcbs, Switch(s).pcbs)
  {
    if s.ready == [] {
      SelfCalm(s.pcbs);
    } else {
      hide Calm;
      CalmOne(s.pcbs, s.ready[0], s.pcbs[s.ready[0]].(status := Running));
    }
  }

  lemma WokenCalm(s: State)
    requires Settled(s)
    ensures Calm(s.pcbs, Woken(s).pcbs)
  {
  }

  lemma WokenSettled(s: State)
    requires Settled(s)
    ensures var w := Woken(s);
            && w.running in w.pcbs && w.pcbs[w.running].status == Running
            && (w.ready != [] ==> w.ready[0] in w.pcbs && w.pcbs[w.ready[0]].status == Ready)
  {
    var w := Woken(s);
    if w.ready != [] {
      assert w.ready[0] in Elapsed(s.timers, s.time) || w.ready[0] in s.ready;
    }
  }

  lemma ScheduleCalm(s: State)
    requires Settled(s)
    ensures Calm(s.pcbs, Schedule(s).pcbs)
  {
    hide Calm, Settled, Woken;
    WokenCalm(s);
    WokenSettled(s);
    var w := Woken(s);
    if w.ready != [] {
      var parked := w.(ready := w.ready + [w.running], pcbs := SetStatus(w.pcbs, w.running, Ready));
      CalmOne(w.pcbs, w.running, w.pcbs[w.running].(status := Ready));
      SwitchCalm(parked);
      CalmTwice(w.pcbs, parked.pcbs, Switch(parked).pcbs);
      CalmTwice(s.pcbs, w.pcbs, Schedule(s).pcbs);
    }
  }

  lemma ReadyHeadSettled(s: State)
    requires Settled(s) && s.ready != []
    ensures s.ready[0] in s.pcbs && s.pcbs[s.ready[0]].status == Ready && s.ready[0] != s.running
  {
    assert s.ready[0] in s.ready;
  }

  lemma BlockCalm(s: State, i: nat, q: MessageQueue, failure: int)
    requires Settled(s) && i < |s.queues| && !s.pcbs[s.running].call.Wait?
    ensures Calm(s.pcbs, BlockOn(s, i, q, failure).pcbs)
  {
    hide Calm;
    if s.ready == [] {
      CalmOne(s.pcbs, s.running, s.pcbs[s.running].(ret := failure));
    } else {
      ReadyHeadSettled(s);
      var s1 := s.(queues := s.queues[i := q], pcbs := SetStatus(s.pcbs, s.running, Waiting));
      CalmOne(s.pcbs, s.running, s.pcbs[s.running].(status := Waiting));
      SwitchCalm(s1);
      CalmTwice(s.pcbs, s1.pcbs, Switch(s1).pcbs);
    }
  }

  /** A blocked process is completed and the running one gets its answer. */
  lemma PairCalm(m: Processes, p: Pid, pcb: PCB, me: Pid, mine: PCB)
    requires p in m && me in m && p != me && m[p].status == Waiting && m[me].status == Running
    requires pcb.status == Ready && mine.status == Running
    requires pcb.children == m[p].children && mine.children == m[me].children
    ensures Calm(m, m[p := pcb][me := mine])
  {
    hide Calm;
    CalmOne(m, p, pcb);
    CalmOne(m[p := pcb], me, mine);
    CalmTwice(m, m[p := pcb], m[p := pcb][me := mine]);
  }

  lemma MemberSettled(s: State, i: nat, p: Pid)
    requires Settled(s) && i < |s.queues| && (p in s.queues[i].receivers || p in s.queues[i].senders)
    ensures p in s.pcbs && s.pcbs[p].status == Waiting && p != s.running
  {
    assert p in s.queues[i].receivers + s.queues[i].senders;
  }

  lemma SendCalm(s: State, id: int, size: int, data: seq<Byte>)
    requires Settled(s) && s.pcbs[s.running].call.Send?
    ensures Calm(s.pcbs, SendStep(s, id, size, data).pcbs)
  {
    hide Calm, BlockOn;
    var i := FindQueue(s.queues, id);
    var m' := SendStep(s, id, size, data).pcbs;
    if id <= 0 || size <= 0 || size > MESSAGE_MAX_SIZE || i == |s.queues| {
      CalmOne(s.pcbs, s.running, m'[s.running]);
    } else if s.queues[i].current >= s.queues[i].capacity {
      BlockCalm(s, i, s.queues[i].(senders := s.queues[i].senders + [s.running]), EMQFULL);
    } else if s.queues[i].receivers != [] {
      var r := s.queues[i].receivers[0];
      MemberSettled(s, i, r);
      assert m' == s.pcbs[r := m'[r]][s.running := m'[s.running]];
      PairCalm(s.pcbs, r, m'[r], s.running, m'[s.running]);
    } else {
      CalmOne(s.pcbs, s.running, m'[s.running]);
    }
  }

  lemma ReceiveCalm(s: State, id: int, room: int)
    requires Settled(s) && s.pcbs[s.running].call.Receive?
    ensures Calm(s.pcbs, ReceiveStep(s, id, room).pcbs)
  {
    hide Calm, BlockOn;
    var i := FindQueue(s.queues, id);
    var m' := ReceiveStep(s, id, room).pcbs;
    if id <= 0 || room <= 0 || i == |s.queues| {
      CalmOne(s.pcbs, s.running, m'[s.running]);
    } else if s.queues[i].messages == [] {
      BlockCalm(s, i, s.queues[i].(receivers := s.queues[i].receivers + [s.running]), EMQEMPTY);
    } else if room >= |s.queues[i].messages[0].data| && s.queues[i].senders != [] {
      var w := s.queues[i].senders[0];
      MemberSettled(s, i, w);
      PairCalm(s.pcbs, w, m'[w], s.running, m'[s.running]);
    } else {
      CalmOne(s.pcbs, s.running, m'[s.running]);
    }
  }

  lemma DestroyCalm(s: State, id: int)
    requires Settled(s)
    ensures Calm(s.pcbs, DestroyStep(s, id).pcbs)
  {
    hide Calm, Settled;
    RunningSettled(s);
    var i := FindQueue(s.queues, id);
    if id <= 0 || i == |s.queues| {
      CalmOne(s.pcbs, s.running, s.pcbs[s.running].(ret := EMQINVALID));
    } else {
      var m := CompleteAll(s.pcbs, s.queues[i].receivers + s.queues[i].senders, EMQNOTOPEN);
      MembersCalm(s, i);
      CompletedRunning(s, i);
      CalmOne(m, s.running, m[s.running].(ret := id));
      CalmTwice(s.pcbs, m, SetRet(m, s.running, id));
    }
  }

  lemma MembersCalm(s: State, i: nat)
    requires Settled(s) && i < |s.queues|
    ensures Calm(s.pcbs, CompleteAll(s.pcbs, s.queues[i].receivers + s.queues[i].senders, EMQNOTOPEN))
  {
  }

  lemma CompletedRunning(s: State, i: nat)
    requires Settled(s) && i < |s.queues|
    ensures var m := CompleteAll(s.pcbs, s.queues[i].receivers + s.queues[i].senders, EMQNOTOPEN);
            s.running in m && m[s.running].status == Running
  {
  }

  lemma SleepCalm(s: State, cycles: int)
    requires Settled(s) && s.pcbs[s.running].call.Sleep?
    ensures Calm(s.pcbs, SleepStep(s, cycles).pcbs)
  {
    hide Calm, InsertTimer;
    if cycles <= 0 {
      CalmOne(s.pcbs, s.running, s.pcbs[s.running].(ret := 0));
    } else {
      var s1 := Asleep(s, cycles);
      CalmOne(s.pcbs, s.running, s1.pcbs[s.running]);
      if s.ready != [] {
        ReadyHeadSettled(s);
        hide Asleep;
      }
      SwitchCalm(s1);
      CalmTwice(s.pcbs, s1.pcbs, Switch(s1).pcbs);
    }
  }

  lemma PerformCalm(s: State, call: Call)
    requires Settled(s) && s.pcbs[s.running].call == call
    requires !call.Spawn? && !call.Fork? && !call.Wait? && !call.Exit?
    ensures Calm(s.pcbs, Perform(s, call).pcbs)
  {
    hide Calm, Schedule, SendStep, ReceiveStep, DestroyStep, SleepStep, CreateStep;
    match call
    case Preempt => ScheduleCalm(s);
    case Send(id, _, size) => SendCalm(s, id, size, Payload(call));
    case Receive(id, room) => ReceiveCalm(s, id, room);
    case Destroy(id) => DestroyCalm(s, id);
    case Sleep(cycles) => SleepCalm(s, cycles);
    case Create(id, capacity) => CreateCalm(s, id, capacity);
    case NoCall => CalmOne(s.pcbs, s.running, s.pcbs[s.running].(ret := ESYSCALL_NOT_IMPLEMENTED));
    case Resource(ret) => CalmOne(s.pcbs, s.running, s.pcbs[s.running].(ret := ret));
  }

  lemma SelfCalm(m: Processes)
    ensures Calm(m, m)
  {
  }

  lemma CreateCalm(s: State, id: int, capacity: int)
    requires Settled(s)
    ensures Calm(s.pcbs, CreateStep(s, id, capacity).pcbs)
  {
    hide Calm, FindQueue;
    CalmOne(s.pcbs, s.running, CreateStep(s, id, capacity).pcbs[s.running]);
  }

  lemma SpawnMisses(s: State)
    requires Inv(s) && NoMissedExit(s.pcbs)
    ensures NoMissedExit(SpawnStep(s).pcbs)
  {
    var m, m' := s.pcbs, SpawnStep(s).pcbs;
    assert s.lastPid !in m;
    assert m[s.running].status == Running;
    hide Inv;
    forall p, c | WaitsFor(m', p, c) && Holds(m', p, c) ensures At(m', c).status != Zombie {
      assert p != s.running && p != s.lastPid;
      assert WaitsFor(m, p, c) && Holds(m, p, c);
    }
  }

  lemma {:induction false} AwaitedMatches(m: Processes, cs: seq<Pid>, pid: int, c: Pid)
    requires c in cs && Matches(m, c, pid)
    ensures Matches(m, Awaited(m, cs, pid), pid)
  {
    if !Matches(m, cs[0], pid) && |cs| > 1 {
      AwaitedMatches(m, cs[1..], pid, c);
    }
  }

  /** A wait that blocks has looked at all children it waits for. */
  lemma BlockedWaitLooked(s: State, pid: int, c: Pid)
    requires WaitBlocks(s, pid) && c in At(s.pcbs, s.running).children && (pid == 0 || pid == c)
    ensures At(s.pcbs, c).status != Zombie
  {
    if At(s.pcbs, c).status == Zombie {
      AwaitedMatches(s.pcbs, At(s.pcbs, s.running).children, pid, c);
    }
  }

  lemma ReapMisses(s: State, c: Pid, hasResult: bool)
    requires Settled(s) && NoMissedExit(s.pcbs)
    ensures NoMissedExit(Reap(s, c, hasResult).pcbs)
  {
    var m, m' := s.pcbs, Reap(s, c, hasResult).pcbs;
    forall p, d | WaitsFor(m', p, d) && Holds(m', p, d) ensures At(m', d).status != Zombie {
      assert p != s.running;
      assert WaitsFor(m, p, d) && Holds(m, p, d);
    }
  }

  lemma BlockMisses(s: State, pid: int)
    requires Settled(s) && NoMissedExit(s.pcbs) && s.ready != [] && WaitBlocks(s, pid)
    requires s.pcbs[s.running].call.Wait? && s.pcbs[s.running].call.pid == pid
    ensures NoMissedExit(Switch(s.(waiting := s.waiting + [s.running],
                                   pcbs := SetStatus(s.pcbs, s.running, Waiting))).pcbs)
  {
    ReadyHeadSettled(s);
    hide Settled, WaitBlocks;
    var n := s.ready[0];
    var m := s.pcbs;
    var m' := m[s.running := m[s.running].(status := Waiting)][n := m[n].(status := Running)];
    forall p, c | WaitsFor(m', p, c) && Holds(m', p, c) ensures At(m', c).status != Zombie {
      if p == s.running {
        BlockedWaitLooked(s, pid, c);
      } else {
        assert WaitsFor(m, p, c) && Holds(m, p, c);
      }
    }
  }

  lemma WaitMisses(s: State, pid: int, hasResult: bool)
    requires Settled(s) && NoMissedExit(s.pcbs) && s.pcbs[s.running].call == Wait(pid, hasResult)
    requires WaitBlocks(s, pid) ==> s.ready != []
    ensures NoMissedExit(WaitStep(s, pid, hasResult).pcbs)
  {
    hide NoMissedExit;
    var me := s.pcbs[s.running];
    if me.children == [] {
      CalmOne(s.pcbs, s.running, me.(ret := EWAIT));
      CalmKeeps(s.pcbs, WaitStep(s, pid, hasResult).pcbs);
    } else if WaitBlocks(s, pid) {
      BlockMisses(s, pid);
    } else {
      ReapMisses(s, Awaited(s.pcbs, me.children, pid), hasResult);
    }
  }

  /** What is known of a process that exits. */
  ghost predicate Exits(s: State, q: Pid) {
    && FamilyOk(s.pcbs) && Settled(s)
    && s.running != INIT && s.pcbs[s.running].parent == Some(q)
    && q != s.running
    && (ExitAnswers(s) || s.ready != [])
  }

  lemma ExitingCaller(s: State)
    requires Inv(s) && s.pcbs[s.running].parent.Some?
    requires ExitAnswers(s) || s.ready != []
    ensures Exits(s, s.pcbs[s.running].parent.value)
  {
    assert ParentOk(s.pcbs, s.running);
    GoodIsSettled(s);
  }

  lemma ZombieExitPcbs(s: State, q: Pid, value: int)
    requires Exits(s, q) && !ExitAnswers(s)
    ensures var o, n := Orphaned(s.pcbs, s.running, value), s.ready[0];
            && n in o && o[n].status == Ready && n != s.running
            && ExitStep(s, value).pcbs == o[n := o[n].(status := Running)]
  {
    ReadyHeadSettled(s);
    var o := Orphaned(s.pcbs, s.running, value);
    assert !WaitsFor(o, q, s.running);
  }

  lemma RunningSettled(s: State)
    requires Settled(s)
    ensures s.running in s.pcbs && s.pcbs[s.running].status == Running
  {
  }

  /** An exit that answers no wait leaves a zombie. */
  lemma ZombieExit(s: State, q: Pid, value: int)
    requires Exits(s, q) && !ExitAnswers(s)
    ensures var m, m', me := s.pcbs, ExitStep(s, value).pcbs, s.running;
            && m'.Keys == m.Keys
            && (forall h, c :: WaitsFor(m', h, c) <==> WaitsFor(m, h, c))
            && (forall h, c :: Holds(m', h, c) <==> (h != me && Holds(m, h, c)) || (h == INIT && Holds(m, me, c)))
            && (forall c :: c in m ==> (m'[c].status == Zombie <==> m[c].status == Zombie || c == me))
  {
    hide FamilyOk, Settled, ExitStep, Orphaned;
    RunningSettled(s);
    InitThere(s.pcbs);
    ZombieExitPcbs(s, q, value);
    OrphanedHolds(s.pcbs, s.running, value);
    var o, n := Orphaned(s.pcbs, s.running, value), s.ready[0];
    OrphanedWaits(s.pcbs, s.running, value);
    var m' := o[n := o[n].(status := Running)];
    assert forall h, c :: Holds(m', h, c) <==> Holds(o, h, c);
    assert forall h, c :: WaitsFor(m', h, c) <==> WaitsFor(o, h, c);
  }

  lemma OrphanedWaits(m: Processes, me: Pid, value: int)
    requires me in m && INIT in m && m[me].status == Running
    ensures var o := Orphaned(m, me, value);
            && o.Keys == m.Keys
            && (forall h, c :: WaitsFor(o, h, c) <==> WaitsFor(m, h, c))
            && (forall c :: c in m ==> (o[c].status == Zombie <==> m[c].status == Zombie || c == me))
  {
  }

  lemma AnsweringExitPcbs(s: State, q: Pid, value: int)
    requires Exits(s, q) && ExitAnswers(s)
    ensures var o := Orphaned(s.pcbs, s.running, value);
            ExitStep(s, value).pcbs == Collected(o, s.running, q, value)
  {
    var o := Orphaned(s.pcbs, s.running, value);
    assert WaitsFor(o, q, s.running);
  }

  lemma AnsweringExitWaits(s: State, q: Pid, value: int)
    requires Exits(s, q) && ExitAnswers(s)
    ensures var m, me := s.pcbs, s.running;
            var m' := Collected(Orphaned(m, me, value), me, q, value);
            && m'.Keys == m.Keys - {me}
            && (forall h, c :: WaitsFor(m', h, c) <==> h != q && WaitsFor(m, h, c))
            && (forall c :: c in m' ==> (m'[c].status == Zombie <==> c != q && m[c].status == Zombie))
  {
    hide FamilyOk, Have, Orphaned;
    var m, me := s.pcbs, s.running;
    InitThere(m);
    OrphanedWaits(m, me, value);
    var o := Orphaned(m, me, value);
    var m' := Collected(o, me, q, value);
    assert m'.Keys == o.Keys - {me};
    assert forall c :: c in m' && c != q ==> m'[c] == o[c];
  }

  /** An exit that answers its parent's wait leaves nothing. */
  lemma AnsweringExit(s: State, q: Pid, value: int)
    requires Exits(s, q) && ExitAnswers(s)
    ensures var m, m', me := s.pcbs, ExitStep(s, value).pcbs, s.running;
            && m'.Keys == m.Keys - {me}
            && (forall h, c :: WaitsFor(m', h, c) <==> h != q && WaitsFor(m, h, c))
            && (forall h, c :: c != me ==>
                  (Holds(m', h, c) <==> (h != me && Holds(m, h, c)) || (h == INIT && Holds(m, me, c))))
            && (forall c :: c in m' ==> (m'[c].status == Zombie <==> c != q && m[c].status == Zombie))
  {
    var o := Orphaned(s.pcbs, s.running, value);
    AnsweringExitPcbs(s, q, value);
    AnsweringExitWaits(s, q, value);
    OrphanedHolds(s.pcbs, s.running, value);
    hide FamilyOk, Settled, WaitsFor, ExitStep, Collected, Orphaned;
    OrphanedKeys(s.pcbs, s.running, q, value);
    CollectedLooks(o, s.running, q, value);
  }

  lemma OrphanedKeys(m: Processes, p: Pid, q: Pid, value: int)
    requires p in m && q in m && q != p && p != INIT
    ensures var o := Orphaned(m, p, value);
            q in o && p in o && o[p].children == [] && p !in Collected(o, p, q, value)
  {
  }

  lemma CollectedLooks(o: Processes, me: Pid, q: Pid, value: int)
    requires q in o && me in o && q != me && o[me].children == []
    ensures var m' := Collected(o, me, q, value);
            && (forall h, c :: h != me && c != me ==> (Holds(m', h, c) <==> Holds(o, h, c)))
            && (forall c :: c != q && c != me && c in o ==> m'[c] == o[c])
            && m'[q].status == Running
  {
    RemoveOthers(o[q].children, me);
  }

  /** An exit makes a wait miss a zombie exactly when the children it hands to init, or it
      itself, are what init is blocked for. */
  lemma ExitMisses(s: State, value: int)
    requires At(s.pcbs, s.running).parent.Some? && Exits(s, At(s.pcbs, s.running).parent.value)
    requires NoMissedExit(s.pcbs)
    ensures NoMissedExit(ExitStep(s, value).pcbs) <==> !Misses(s, Trap(Exit(value)))
  {
    var q := s.pcbs[s.running].parent.value;
    if ExitAnswers(s) {
      AnsweringExitMisses(s, q, value);
    } else {
      ZombieExitMisses(s, q, value);
    }
  }

  lemma ZombieExitMisses(s: State, q: Pid, value: int)
    requires Exits(s, q) && NoMissedExit(s.pcbs) && !ExitAnswers(s)
    ensures NoMissedExit(ExitStep(s, value).pcbs) <==> !Misses(s, Trap(Exit(value)))
  {
    ZombieExit(s, q, value);
    var m, m', me := s.pcbs, ExitStep(s, value).pcbs, s.running;
    assert forall h, c :: Holds(m, h, c) ==> ChildOk(m, h, c);
    assert m[me].status == Running;
    hide FamilyOk, Settled, ExitStep;
    if Misses(s, Trap(Exit(value))) {
      var c :| WaitsFor(m, INIT, c) &&
        ((c == me && Holds(m, INIT, c)) || (Holds(m, me, c) && At(m, c).status == Zombie));
      assert WaitsFor(m', INIT, c) && Holds(m', INIT, c);
    }
    if !NoMissedExit(m') {
      var h, c :| WaitsFor(m', h, c) && Holds(m', h, c) && At(m', c).status == Zombie;
      assert WaitsFor(m, h, c);
      if c == me {
        assert Holds(m, h, c) ==> ChildOk(m, h, me);
      } else {
        assert !Holds(m, h, c);
      }
    }
  }

  lemma AnsweringExitMisses(s: State, q: Pid, value: int)
    requires Exits(s, q) && NoMissedExit(s.pcbs) && ExitAnswers(s)
    ensures NoMissedExit(ExitStep(s, value).pcbs) <==> !Misses(s, Trap(Exit(value)))
  {
    AnsweringExit(s, q, value);
    AnsweredHolder(s, q);
    var m, m', me := s.pcbs, ExitStep(s, value).pcbs, s.running;
    hide FamilyOk, Settled, ExitStep;
    if Misses(s, Trap(Exit(value))) {
      var c :| WaitsFor(m, INIT, c) &&
        ((c == me && Holds(m, INIT, c)) || (Holds(m, me, c) && At(m, c).status == Zombie));
      assert WaitsFor(m', INIT, c) && Holds(m', INIT, c);
    }
    if !NoMissedExit(m') {
      var h, c :| WaitsFor(m', h, c) && Holds(m', h, c) && At(m', c).status == Zombie;
      assert WaitsFor(m, h, c);
    }
  }

  /** The answered parent holds the caller, so nobody else does, and no zombie is the parent. */
  lemma AnsweredHolder(s: State, q: Pid)
    requires Exits(s, q) && ExitAnswers(s)
    ensures q != INIT ==> !Holds(s.pcbs, INIT, s.running)
    ensures forall c :: Holds(s.pcbs, s.running, c) ==> c in s.pcbs && c != s.running
    ensures forall h, c :: Holds(s.pcbs, h, c) ==> c in s.pcbs
    ensures s.pcbs[q].status == Waiting
    ensures forall h :: Holds(s.pcbs, h, s.running) ==> h == q
  {
    var m, me := s.pcbs, s.running;
    assert ParentOk(m, me);
    assert Holds(m, q, me);
    forall c | Holds(m, me, c) ensures c in m && c != me {
      assert ChildOk(m, me, c) && ParentOk(m, c);
    }
    forall h, c | Holds(m, h, c) ensures c in m {
      assert ChildOk(m, h, c);
    }
  }

  lemma PerformMisses(s: State, call: Call)
    requires Inv(s) && Enabled(s, Trap(call)) && s.pcbs[s.running].call == call && NoMissedExit(s.pcbs)
    ensures NoMissedExit(Perform(s, call).pcbs) <==> !Misses(s, Trap(call))
  {
    hide Common, OnePlace, NothingDue, NoMissedExit, Settled, SpawnStep, WaitStep, ExitStep;
    GoodIsSettled(s);
    match call
    case Spawn => SpawnMisses(s);
    case Fork => SpawnMisses(s);
    case Wait(pid, hasResult) => WaitMisses(s, pid, hasResult);
    case Exit(value) =>
      ExitingCaller(s);
      ExitMisses(s, value);
    case _ =>
      CalmCall(s, call);
      CalmKeeps(s.pcbs, Perform(s, call).pcbs);
  }

  lemma CalmCall(s: State, call: Call)
    requires Settled(s) && s.pcbs[s.running].call == call
    requires !call.Spawn? && !call.Fork? && !call.Wait? && !call.Exit?
    ensures Calm(s.pcbs, Perform(s, call).pcbs)
  {
    PerformCalm(s, call);
  }

  lemma IssueMisses(s: State, call: Call)
    requires Inv(s)
    ensures NoMissedExit(Issue(s, call).pcbs) <==> NoMissedExit(s.pcbs)
    ensures Misses(Issue(s, call), Trap(call)) <==> Misses(s, Trap(call))
  {
    assert s.pcbs[s.running].status == Running;
    hide Inv;
    var m, m' := s.pcbs, Issue(s, call).pcbs;
    assert forall p, c :: WaitsFor(m', p, c) <==> WaitsFor(m, p, c);
    assert forall p, c :: Holds(m', p, c) <==> Holds(m, p, c);
    assert forall c :: At(m', c).status == At(m, c).status;
    assert At(m', s.running).parent == At(m, s.running).parent;
  }

  /** A step makes a waiting parent miss an exit exactly when it is such an exit. */
  lemma MissStep(s: State, e: Event)
    requires Inv(s) && Enabled(s, e) && NoMissedExit(s.pcbs)
    ensures NoMissedExit(Step(s, e).pcbs) <==> !Misses(s, e)
  {
    hide Inv, NoMissedExit, Misses, Perform, Schedule, Enabled;
    match e
    case Tick =>
      TickCalm(s);
      CalmKeeps(s.pcbs, Step(s, Tick).pcbs);
      TicksMissNothing(s);
    case Trap(call) =>
      IssueInv(s, call);
      IssueMisses(s, call);
      IssueEnabled(s, call);
      PerformMisses(Issue(s, call), call);
  }

  lemma TicksMissNothing(s: State)
    ensures !Misses(s, Tick)
  {
  }

  lemma TickCalm(s: State)
    requires Inv(s)
    ensures Calm(s.pcbs, Step(s, Tick).pcbs)
  {
    hide Common, OnePlace, NothingDue, Settled, Schedule;
    var s1 := s.(time := s.time + 1);
    LaterCommon(s, s1);
    GoodIsSettled(s1);
    ScheduleCalm(s1);
  }

  /** Over every legal run from boot: no parent is ever blocked beside a zombie it waits for
      if and only if no exit of the run hands init a child it is blocked for. */
  lemma MissesExactly(es: seq<Event>)
    requires Legal(BOOT, es)
    ensures (forall k :: 0 <= k <= |es| ==> NoMissedExit(Before(BOOT, es, k).pcbs))
            <==> (forall k :: 0 <= k < |es| ==> !Misses(Before(BOOT, es, k), es[k]))
  {
    hide NoMissedExit, Misses, Inv, Enabled, Legal, Step;
    forall s, e | Inv(s) && Enabled(s, e) && NoMissedExit(s.pcbs)
      ensures NoMissedExit(Step(s, e).pcbs) <==> !Misses(s, e)
    {
      MissStep(s, e);
    }
    BootInv();
    BootMisses();
    StaysExactly(BOOT, es, (s: State) => NoMissedExit(s.pcbs), (s, e) => Misses(s, e));
  }

  lemma BootMisses()
    ensures NoMissedExit(BOOT.pcbs)
  {
  }

  // ----- every process is collected once, by its holder

  /** The exit value that a vanishing process leaves. */
  function LastValue(s: State, e: Event, c: Pid): int {
    if e.Trap? && e.call.Exit? then e.call.value else At(s.pcbs, c).exitValue
  }

  lemma ExitFrees(s: State, q: Pid, value: int, c: Pid)
    requires Exits(s, q) && c in s.pcbs && c !in ExitStep(s, value).pcbs
    ensures var s' := ExitStep(s, value);
            && ExitAnswers(s) && c == s.running && s'.running == q && q in s'.pcbs
            && s'.pcbs[q].ret == c
            && (s.pcbs[q].call.Wait? && s.pcbs[q].call.hasResult ==> s'.pcbs[q].result == value)
  {
    if ExitAnswers(s) {
      AnsweringExitPcbs(s, q, value);
    } else {
      ZombieExit(s, q, value);
    }
  }

  lemma WaitFrees(s: State, pid: int, hasResult: bool, c: Pid)
    requires s.running in s.pcbs && c in s.pcbs && c !in WaitStep(s, pid, hasResult).pcbs
    requires !Holds(s.pcbs, s.running, s.running)
    ensures var s' := WaitStep(s, pid, hasResult);
            && Holds(s.pcbs, s.running, c) && s.pcbs[c].status == Zombie
            && s'.running == s.running && s.running in s'.pcbs && s'.pcbs[s.running].ret == c
            && (hasResult ==> s'.pcbs[s.running].result == s.pcbs[c].exitValue)
  {
  }

  lemma OthersFree(s: State, call: Call, c: Pid)
    requires !call.Wait? && !call.Exit? && c in s.pcbs
    ensures c in Perform(s, call).pcbs
  {
    hide Schedule, SendStep, ReceiveStep, SleepStep, CreateStep, DestroyStep;
    match call
    case Preempt => ScheduleFrees(s, c);
    case Send(id, _, size) => SendFrees(s, id, size, Payload(call), c);
    case Receive(id, room) => ReceiveFrees(s, id, room, c);
    case Sleep(_) => SmallFrees(s, call, c);
    case Create(_, _) => SmallFrees(s, call, c);
    case Destroy(_) => SmallFrees(s, call, c);
    case _ =>
  }

  lemma ScheduleFrees(s: State, c: Pid)
    requires c in s.pcbs
    ensures c in Schedule(s).pcbs
  {
    hide Elapsed, Without;
  }

  lemma SendFrees(s: State, id: int, size: int, data: seq<Byte>, c: Pid)
    requires c in s.pcbs
    ensures c in SendStep(s, id, size, data).pcbs
  {
  }

  lemma ReceiveFrees(s: State, id: int, room: int, c: Pid)
    requires c in s.pcbs
    ensures c in ReceiveStep(s, id, room).pcbs
  {
  }

  lemma SmallFrees(s: State, call: Call, c: Pid)
    requires c in s.pcbs && (call.Sleep? || call.Create? || call.Destroy?)
    ensures c in Perform(s, call).pcbs
  {
    hide FindQueue, InsertTimer;
  }

  lemma NotOwnChild(s: State)
    requires Inv(s)
    ensures !Holds(s.pcbs, s.running, s.running)
  {
    var m, p := s.pcbs, s.running;
    assert p != INIT ==> ParentOk(m, p);
    assert Holds(m, p, p) ==> ChildOk(m, p, p);
  }

  lemma ParentHolds(s: State, q: Pid)
    requires Exits(s, q) && ExitAnswers(s)
    ensures Holds(s.pcbs, q, s.running)
  {
    assert ParentOk(s.pcbs, s.running);
  }

  /** A PCB disappears only by being collected: the process that runs after the step holds it
      as a child, learns its pid, and gets its exit value if it asked for one. */
  lemma CollectedByHolder(s: State, e: Event, c: Pid)
    requires Inv(s) && Enabled(s, e) && c in s.pcbs && c !in Step(s, e).pcbs
    ensures var s' := Step(s, e);
            var h := s'.running;
            && Holds(s.pcbs, h, c) && h in s'.pcbs && s'.pcbs[h].ret == c
            && s'.pcbs[h].call.Wait?
            && (s'.pcbs[h].call.hasResult ==> s'.pcbs[h].result == LastValue(s, e, c))
  {
    hide Inv, Perform, Schedule, Enabled, Settled;
    match e
    case Tick =>
      TickCalm(s);
      assert false;
    case Trap(call) =>
      var s1 := Issue(s, call);
      IssueInv(s, call);
      IssueEnabled(s, call);
      CallFrees(s1, call, c);
  }

  lemma CallFrees(s: State, call: Call, c: Pid)
    requires Inv(s) && Enabled(s, Trap(call)) && s.pcbs[s.running].call == call
    requires c in s.pcbs && c !in Perform(s, call).pcbs
    ensures var s' := Perform(s, call);
            var h := s'.running;
            && Holds(s.pcbs, h, c) && h in s'.pcbs && s'.pcbs[h].ret == c
            && s'.pcbs[h].call.Wait?
            && (s'.pcbs[h].call.hasResult ==> s'.pcbs[h].result == LastValue(s, Trap(call), c))
  {
    hide Common, OnePlace, NothingDue, Settled;
    if call.Wait? {
      NotOwnChild(s);
      hide WaitStep;
      WaitFrees(s, call.pid, call.hasResult, c);
      WaitCall(s, call.pid, call.hasResult, c);
    } else if call.Exit? {
      ExitingCaller(s);
      var q := s.pcbs[s.running].parent.value;
      ExitFrees(s, q, call.value, c);
      ParentHolds(s, q);
      AnsweringExitPcbs(s, q, call.value);
    } else {
      OthersFree(s, call, c);
      assert false;
    }
  }

  lemma WaitCall(s: State, pid: int, hasResult: bool, c: Pid)
    requires s.running in s.pcbs && c in s.pcbs && c !in WaitStep(s, pid, hasResult).pcbs
    requires s.running in WaitStep(s, pid, hasResult).pcbs
    ensures WaitStep(s, pid, hasResult).pcbs[s.running].call == s.pcbs[s.running].call
    ensures c != s.running
  {
  }

  lemma PerformPids(s: State, call: Call, c: Pid)
    requires INIT in s.pcbs && s.running in s.pcbs && Settled(s) && c !in s.pcbs
    requires c < s.lastPid || !(call.Spawn? || call.Fork?)
    ensures c !in Perform(s, call).pcbs && (c < s.lastPid ==> c < Perform(s, call).lastPid)
  {
    hide Schedule, SendStep, ReceiveStep, WaitStep, ExitStep, CreateStep, DestroyStep, SleepStep;
    match call
    case Preempt => SchedulePids(s, c);
    case Send(id, _, size) => SendPids(s, id, size, Payload(call), c);
    case Receive(id, room) => ReceivePids(s, id, room, c);
    case Wait(pid, hasResult) => WaitPids(s, pid, hasResult, c);
    case Exit(value) => ExitPids(s, value, c);
    case Create(_, _) => SmallPids(s, call, c);
    case Destroy(_) => SmallPids(s, call, c);
    case Sleep(_) => SmallPids(s, call, c);
    case _ =>
  }

  lemma SchedulePids(s: State, c: Pid)
    requires Settled(s) && c !in s.pcbs
    ensures c !in Schedule(s).pcbs && Schedule(s).lastPid == s.lastPid
  {
    hide Calm;
    ScheduleCalm(s);
    CalmKeys(s.pcbs, Schedule(s).pcbs);
  }

  lemma CalmKeys(m: Processes, m': Processes)
    requires Calm(m, m')
    ensures m'.Keys == m.Keys
  {
  }

  lemma SendPids(s: State, id: int, size: int, data: seq<Byte>, c: Pid)
    requires Settled(s) && c !in s.pcbs
    ensures c !in SendStep(s, id, size, data).pcbs && SendStep(s, id, size, data).lastPid == s.lastPid
  {
    var i := FindQueue(s.queues, id);
    assert s.ready != [] ==> s.ready[0] in s.ready;
    if i < |s.queues| && s.queues[i].receivers != [] { MemberSettled(s, i, s.queues[i].receivers[0]); }
  }

  lemma ReceivePids(s: State, id: int, room: int, c: Pid)
    requires Settled(s) && c !in s.pcbs
    ensures c !in ReceiveStep(s, id, room).pcbs && ReceiveStep(s, id, room).lastPid == s.lastPid
  {
    var i := FindQueue(s.queues, id);
    assert s.ready != [] ==> s.ready[0] in s.ready;
    if i < |s.queues| && s.queues[i].senders != [] { MemberSettled(s, i, s.queues[i].senders[0]); }
  }

  lemma WaitPids(s: State, pid: int, hasResult: bool, c: Pid)
    requires Settled(s) && c !in s.pcbs
    ensures c !in WaitStep(s, pid, hasResult).pcbs && WaitStep(s, pid, hasResult).lastPid == s.lastPid
  {
    assert s.ready != [] ==> s.ready[0] in s.ready;
  }

  lemma ExitPids(s: State, value: int, c: Pid)
    requires INIT in s.pcbs && Settled(s) && c !in s.pcbs
    ensures c !in ExitStep(s, value).pcbs && ExitStep(s, value).lastPid == s.lastPid
  {
    assert s.ready != [] ==> s.ready[0] in s.ready;
  }

  lemma SmallPids(s: State, call: Call, c: Pid)
    requires Settled(s) && c !in s.pcbs && (call.Create? || call.Destroy? || call.Sleep?)
    ensures c !in Perform(s, call).pcbs && Perform(s, call).lastPid == s.lastPid
  {
    assert s.ready != [] ==> s.ready[0] in s.ready;
  }

  /** A pid whose PCB is gone is never used again. */
  lemma PidStep(s: State, e: Event, c: Pid)
    requires Inv(s) && Enabled(s, e) && c !in s.pcbs && c < s.lastPid
    ensures c !in Step(s, e).pcbs && c < Step(s, e).lastPid
  {
    hide Common, OnePlace, NothingDue, Perform, Schedule, Settled;
    InitLives(s);
    match e
    case Tick =>
      var s1 := s.(time := s.time + 1);
      LaterCommon(s, s1);
      GoodIsSettled(s1);
      SchedulePids(s1, c);
    case Trap(call) =>
      IssueInv(s, call);
      IssueEnabled(s, call);
      GoodIsSettled(Issue(s, call));
      PerformPids(Issue(s, call), call, c);
  }

  /** Only spawn and fork make a PCB. */
  lemma NewPid(s: State, e: Event, c: Pid)
    requires Inv(s) && Enabled(s, e) && c !in s.pcbs && c in Step(s, e).pcbs
    ensures e == Trap(Spawn) || e == Trap(Fork)
  {
    hide Common, OnePlace, NothingDue, Perform, Schedule, Settled;
    InitLives(s);
    match e
    case Tick =>
      var s1 := s.(time := s.time + 1);
      LaterCommon(s, s1);
      GoodIsSettled(s1);
      SchedulePids(s1, c);
      assert false;
    case Trap(call) =>
      IssueInv(s, call);
      IssueEnabled(s, call);
      GoodIsSettled(Issue(s, call));
      if !call.Spawn? && !call.Fork? { PerformPids(Issue(s, call), call, c); }
  }

  lemma InitLives(s: State)
    requires Inv(s)
    ensures INIT in s.pcbs
  {
  }

  lemma {:induction false} NeverAgain(s: State, es: seq<Event>, c: Pid)
    requires Inv(s) && Legal(s, es) && c !in s.pcbs && c < s.lastPid
    ensures c !in Exec(s, es).pcbs && c < Exec(s, es).lastPid
  {
    hide Inv, Enabled, Step;
    if es != [] {
      var n := |es| - 1;
      LegalPrefix(s, es, n);
      NeverAgain(s, es[..n], c);
      RunInv(s, es, n);
      assert Enabled(Before(s, es, n), es[n]);
      PidStep(Exec(s, es[..n]), es[n], c);
    }
  }

  /** Each process is collected at most once in a run: after the step that frees its PCB no
      later step can free it again. */
  lemma CollectedOnce(s: State, es: seq<Event>, j: nat, k: nat, c: Pid)
    requires Inv(s) && Legal(s, es) && j < k < |es|
    requires c in Before(s, es, j).pcbs && c !in Before(s, es, j + 1).pcbs
    ensures c !in Before(s, es, k).pcbs
  {
    RunInv(s, es, j);
    RunInv(s, es, j + 1);
    assert c < Before(s, es, j).lastPid;
    hide Inv, Enabled, Step;
    BeforeStep(s, es, j);
    LastPidGrows(Before(s, es, j), es[j]);
    Suffix(s, es, j + 1, k);
    LegalPart(s, es, j + 1, k);
    NeverAgain(Before(s, es, j + 1), es[j + 1..k], c);
  }

  lemma PerformLastPid(s: State, call: Call)
    ensures s.lastPid <= Perform(s, call).lastPid
  {
    hide SetStatus, SetRet, Complete, Deliver, CompleteAll, WakePcbs, At, Without, Elapsed, Remove, Payload;
    match call
    case Send(_, _, _) =>
    case Receive(_, _) =>
    case Exit(_) =>
    case Wait(_, _) =>
    case _ =>
  }

  lemma LastPidGrows(s: State, e: Event)
    ensures s.lastPid <= Step(s, e).lastPid
  {
    match e
    case Tick =>
    case Trap(call) =>
      hide Perform;
      PerformLastPid(Issue(s, call), call);
  }

  lemma {:induction false} Suffix(s: State, es: seq<Event>, a: nat, b: nat)
    requires a <= b <= |es|
    ensures Exec(Before(s, es, a), es[a..b]) == Before(s, es, b)
  {
    hide Step;
    if a < b {
      Suffix(s, es, a, b - 1);
      assert es[a..b][..b - a - 1] == es[a..b - 1];
      BeforeStep(s, es, b - 1);
    } else {
      assert es[a..b] == [];
    }
  }

  lemma LegalPart(s: State, es: seq<Event>, a: nat, b: nat)
    requires Legal(s, es) && a <= b <= |es|
    ensures Legal(Before(s, es, a), es[a..b])
  {
    hide Enabled, Exec;
    forall k | 0 <= k < b - a ensures Enabled(Before(Before(s, es, a), es[a..b], k), es[a..b][k]) {
      assert es[a..b][..k] == es[a..a + k];
      Suffix(s, es, a, a + k);
      assert Enabled(Before(s, es, a + k), es[a + k]);
    }
  }

  // ----- child references

  /** The step collects a process through its parent's blocked wait. */
  function Leak(s: State, e: Event): nat {
    if e.Trap? && e.call.Exit? && ExitAnswers(s) then 1 else 0
  }

  function Leaks(s: State, es: seq<Event>): nat {
    if es == [] then 0
    else var n := |es| - 1; Leaks(s, es[..n]) + Leak(Exec(s, es[..n]), es[n])
  }

  lemma CallRefs(s: State, call: Call)
    requires call.Exit? ==> s.running in s.pcbs && At(s.pcbs, s.running).parent != Some(s.running) && s.running != INIT
    ensures var s' := Perform(s, call);
            s'.pools.refs - s.pools.refs == s'.pools.pcbs - s.pools.pcbs - Leak(s, Trap(call))
  {
    if call.Exit? && s.pcbs[s.running].parent.Some? {
      var q := s.pcbs[s.running].parent.value;
      assert WaitsFor(Orphaned(s.pcbs, s.running, call.value), q, s.running) <==> WaitsFor(s.pcbs, q, s.running);
    }
  }

  lemma TickRefs(s: State)
    ensures Step(s, Tick).pools.refs == s.pools.refs && Step(s, Tick).pools.pcbs == s.pools.pcbs
  {
  }

  lemma StepRefs(s: State, e: Event)
    requires Inv(s) && Enabled(s, e)
    ensures var s' := Step(s, e);
            s'.pools.refs - s.pools.refs == s'.pools.pcbs - s.pools.pcbs - Leak(s, e)
  {
    hide Inv, Perform, Schedule;
    match e
    case Tick => TickRefs(s);
    case Trap(call) =>
      RunningRuns(s);
      IssueParent(s, call);
      if call.Exit? { OlderParent(s); }
      CallRefs(Issue(s, call), call);
  }

  lemma OlderParent(s: State)
    requires Inv(s) && s.pcbs[s.running].parent.Some?
    ensures s.pcbs[s.running].parent.value < s.running
  {
    assert ParentOk(s.pcbs, s.running);
  }

  /** Every collection through a blocked wait loses one child reference for ever: after any
      legal run from boot, the free ones are those that the free PCBs would need, less the
      number of such exits. So spawn meets its failing assertion exactly when there have been
      more of them than there are free PCBs left. */
  lemma {:induction false} ReferencesLeak(es: seq<Event>)
    requires Legal(BOOT, es)
    ensures var s := Exec(BOOT, es);
            && s.pools.refs == 1 + s.pools.pcbs - Leaks(BOOT, es)
            && (s.pools.refs == 0 <==> Leaks(BOOT, es) > s.pools.pcbs)
  {
    hide Inv, Enabled, Step, Leak;
    if es != [] {
      var n := |es| - 1;
      LegalPrefix(BOOT, es, n);
      ReferencesLeak(es[..n]);
      ReachableInv(es, n);
      assert Enabled(Before(BOOT, es, n), es[n]);
      StepRefs(Exec(BOOT, es[..n]), es[n]);
      NoNegativeRefs(es);
    }
  }

  lemma NoNegativeRefs(es: seq<Event>)
    requires Legal(BOOT, es)
    ensures Exec(BOOT, es).pools.refs >= 0
  {
    ReachableInv(es, |es|);
    assert es[..|es|] == es;
  }
}
