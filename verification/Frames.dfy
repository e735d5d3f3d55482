/** What steps leave alone: a process that waits, and whose call the step does not complete, keeps
    all that it or its user can see. */
module Frames {
  import opened Lists
  import opened KernelState
  import opened KernelSteps
  import opened ProcessInvariant

  /** Nothing the process or its user can see has changed. */
  ghost predicate Frozen(c: PCB, c': PCB) {
    && c'.status == c.status && c'.call == c.call && c'.ret == c.ret
    && c'.inbox == c.inbox && c'.result == c.result
  }

  /** The process waits, but not for a timer. */
  ghost predicate Aside(s: State, p: Pid) {
    && p in s.pcbs && p != s.running && p !in s.ready && p < s.lastPid
    && s.pcbs[p].status == Waiting
    && p !in Elapsed(s.timers, s.time) && p !in Elapsed(s.timers, s.time + 1)
  }

  lemma WaitingIsAside(s: State, p: Pid)
    requires Inv(s) && p in s.pcbs && s.pcbs[p].status == Waiting && !s.pcbs[p].timer
    ensures Aside(s, p)
  {
    hide FamilyOk, TableOk, NothingDue, PoolsOk, OnePlace;
    assert p !in TimerPids(s.timers);
    ElapsedPrefix(s.timers, s.time);
    ElapsedPrefix(s.timers, s.time + 1);
  }

  /** The call completes the one that `p` is blocked in. */
  predicate Completes(s: State, call: Call, p: Pid) {
    match call
    case Send(id, _, size) =>
      var k := FindQueue(s.queues, id);
      && id > 0 && 0 < size <= MESSAGE_MAX_SIZE && k < |s.queues|
      && s.queues[k].current < s.queues[k].capacity
      && s.queues[k].receivers != [] && p == s.queues[k].receivers[0]
    case Receive(id, room) =>
      var k := FindQueue(s.queues, id);
      && id > 0 && room > 0 && k < |s.queues|
      && s.queues[k].messages != [] && room >= |s.queues[k].messages[0].data|
      && s.queues[k].senders != [] && p == s.queues[k].senders[0]
    case Destroy(id) =>
      var k := FindQueue(s.queues, id);
      id > 0 && k < |s.queues| && p in s.queues[k].receivers + s.queues[k].senders
    case Exit(_) => ExitAnswers(s) && At(s.pcbs, s.running).parent == Some(p)
    case _ => false
  }

  /** `p` lives on and is frozen. */
  ghost predicate Keeps(s: State, s': State, p: Pid) {
    p in s.pcbs && p in s'.pcbs && Frozen(s.pcbs[p], s'.pcbs[p])
  }

  lemma ScheduleKeeps(s: State, p: Pid)
    requires p in s.pcbs && p != s.running && p !in s.ready && p !in Elapsed(s.timers, s.time)
    ensures Keeps(s, Schedule(s), p)
  {
    hide Elapsed, Without;
  }

  lemma WaitKeeps(s: State, p: Pid, pid: int, hasResult: bool)
    requires Aside(s, p)
    ensures Keeps(s, WaitStep(s, pid, hasResult), p)
  {
  }

  lemma ExitAnswered(s: State, value: int, p: Pid)
    requires Aside(s, p) && !Completes(s, Exit(value), p) && At(s.pcbs, s.running).parent == Some(p)
    ensures !WaitsFor(Orphaned(s.pcbs, s.running, value), p, s.running)
  {
  }

  lemma ExitKeeps(s: State, p: Pid, value: int)
    requires Aside(s, p) && !Completes(s, Exit(value), p)
    ensures Keeps(s, ExitStep(s, value), p)
  {
    if At(s.pcbs, s.running).parent == Some(p) { ExitAnswered(s, value, p); }
    hide WaitsFor, Completes, Elapsed;
  }

  lemma BlockKeeps(s: State, p: Pid, i: nat, q: MessageQueue, failure: int)
    requires Aside(s, p) && i < |s.queues|
    ensures Keeps(s, BlockOn(s, i, q, failure), p)
  {
  }

  /** A send only touches its caller, the process that runs next and the receiver it serves. */
  lemma SendKeeps(s: State, p: Pid, call: Call)
    requires Aside(s, p) && call.Send? && !Completes(s, call, p)
    ensures Keeps(s, Perform(s, call), p)
  {
    hide BlockOn, Payload;
    var i := FindQueue(s.queues, call.queueId);
    if i < |s.queues| {
      BlockKeeps(s, p, i, s.queues[i].(senders := s.queues[i].senders + [s.running]), EMQFULL);
    }
    hide Aside;
    AsideLives(s, p);
  }

  lemma AsideLives(s: State, p: Pid)
    requires Aside(s, p)
    ensures p in s.pcbs && p != s.running
  {
  }

  lemma ReceiveKeeps(s: State, p: Pid, call: Call)
    requires Aside(s, p) && call.Receive? && !Completes(s, call, p)
    ensures Keeps(s, Perform(s, call), p)
  {
    hide BlockOn, Payload;
    var i := FindQueue(s.queues, call.queueId);
    if i < |s.queues| {
      BlockKeeps(s, p, i, s.queues[i].(receivers := s.queues[i].receivers + [s.running]), EMQEMPTY);
    }
    hide Aside;
    AsideLives(s, p);
  }

  lemma DestroyKeeps(s: State, p: Pid, id: int)
    requires Aside(s, p) && !Completes(s, Destroy(id), p)
    ensures Keeps(s, DestroyStep(s, id), p)
  {
    hide Aside;
    AsideLives(s, p);
  }

  lemma CreateKeeps(s: State, p: Pid, id: int, capacity: int)
    requires Aside(s, p)
    ensures Keeps(s, CreateStep(s, id, capacity), p)
  {
    hide Aside;
    AsideLives(s, p);
  }

  lemma SleepKeeps(s: State, p: Pid, cycles: int)
    requires Aside(s, p)
    ensures Keeps(s, SleepStep(s, cycles), p)
  {
    hide InsertTimer;
  }

  lemma SpawnKeeps(s: State, p: Pid)
    requires Aside(s, p)
    ensures Keeps(s, SpawnStep(s), p)
  {
  }

  lemma ReturningKeeps(s: State, p: Pid, v: int)
    requires Aside(s, p)
    ensures Keeps(s, Returning(s, v), p)
  {
  }

  lemma PerformKeeps(s: State, call: Call, p: Pid)
    requires Aside(s, p) && !Completes(s, call, p)
    ensures Keeps(s, Perform(s, call), p)
  {
    hide Completes, Keeps, SendStep, ReceiveStep, DestroyStep, CreateStep, WaitStep, ExitStep, SleepStep,
         SpawnStep, Schedule, Returning;
    match call
    case Preempt => ScheduleKeeps(s, p);
    case Spawn => SpawnKeeps(s, p);
    case Fork => SpawnKeeps(s, p);
    case Wait(pid, hasResult) => WaitKeeps(s, p, pid, hasResult);
    case Exit(value) => ExitKeeps(s, p, value);
    case Sleep(cycles) => SleepKeeps(s, p, cycles);
    case Create(id, capacity) => CreateKeeps(s, p, id, capacity);
    case Send(_, _, _) => SendKeeps(s, p, call);
    case Receive(_, _) => ReceiveKeeps(s, p, call);
    case Destroy(id) => DestroyKeeps(s, p, id);
    case NoCall => ReturningKeeps(s, p, ESYSCALL_NOT_IMPLEMENTED);
    case Resource(ret) => ReturningKeeps(s, p, ret);
  }

  lemma TickKeeps(s: State, p: Pid)
    requires Aside(s, p)
    ensures Keeps(s, Step(s, Tick), p)
  {
    hide Schedule;
    ScheduleKeeps(s.(time := s.time + 1), p);
  }

  // ----- everybody else

  /** All is as before but what the lists tell: the status, and whether there is a timer. */
  ghost predicate SameBut(c: PCB, c': PCB) {
    c' == c.(status := c'.status, timer := c'.timer)
  }

  /** Not the caller, and not a process whose children list or blocked call the step is about. */
  ghost predicate Bystander(s: State, e: Event, p: Pid) {
    && p in s.pcbs
    && (e.Trap? ==> p != s.running && !Completes(s, e.call, p) && !(e.call.Exit? && p == INIT))
  }

  lemma ScheduleOthers(s: State, p: Pid)
    requires p in s.pcbs
    ensures p in Schedule(s).pcbs && SameBut(s.pcbs[p], Schedule(s).pcbs[p])
  {
    hide Elapsed, Without;
  }

  lemma SpawnOthers(s: State, p: Pid)
    requires p in s.pcbs && p != s.running && p < s.lastPid
    ensures p in SpawnStep(s).pcbs && SameBut(s.pcbs[p], SpawnStep(s).pcbs[p])
  {
  }

  lemma WaitOthers(s: State, pid: int, hasResult: bool, p: Pid)
    requires p in s.pcbs && p != s.running && p in WaitStep(s, pid, hasResult).pcbs
    ensures SameBut(s.pcbs[p], WaitStep(s, pid, hasResult).pcbs[p])
  {
  }

  lemma ExitOthers(s: State, value: int, p: Pid)
    requires p in s.pcbs && p != s.running && p != INIT && p in ExitStep(s, value).pcbs
    requires !Completes(s, Exit(value), p)
    ensures SameBut(s.pcbs[p], ExitStep(s, value).pcbs[p])
  {
  }

  lemma SleepOthers(s: State, cycles: int, p: Pid)
    requires p in s.pcbs && p != s.running
    ensures p in SleepStep(s, cycles).pcbs && SameBut(s.pcbs[p], SleepStep(s, cycles).pcbs[p])
  {
    hide InsertTimer;
  }

  lemma BlockOthers(s: State, i: nat, q: MessageQueue, failure: int, p: Pid)
    requires p in s.pcbs && p != s.running && i < |s.queues|
    ensures p in BlockOn(s, i, q, failure).pcbs && SameBut(s.pcbs[p], BlockOn(s, i, q, failure).pcbs[p])
  {
  }

  lemma SendOthers(s: State, call: Call, p: Pid)
    requires p in s.pcbs && p != s.running && call.Send? && !Completes(s, call, p)
    ensures p in Perform(s, call).pcbs && SameBut(s.pcbs[p], Perform(s, call).pcbs[p])
  {
    hide BlockOn, Payload;
    var i := FindQueue(s.queues, call.queueId);
    if i < |s.queues| {
      BlockOthers(s, i, s.queues[i].(senders := s.queues[i].senders + [s.running]), EMQFULL, p);
    }
  }

  lemma ReceiveOthers(s: State, call: Call, p: Pid)
    requires p in s.pcbs && p != s.running && call.Receive? && !Completes(s, call, p)
    ensures p in Perform(s, call).pcbs && SameBut(s.pcbs[p], Perform(s, call).pcbs[p])
  {
    hide BlockOn, Payload;
    var i := FindQueue(s.queues, call.queueId);
    if i < |s.queues| {
      BlockOthers(s, i, s.queues[i].(receivers := s.queues[i].receivers + [s.running]), EMQEMPTY, p);
    }
  }

  lemma SmallOthers(s: State, call: Call, p: Pid)
    requires p in s.pcbs && p != s.running && !Completes(s, call, p)
    requires call.Create? || call.Destroy? || call.NoCall? || call.Resource?
    ensures p in Perform(s, call).pcbs && SameBut(s.pcbs[p], Perform(s, call).pcbs[p])
  {
  }

  lemma PerformOthers(s: State, call: Call, p: Pid)
    requires p in s.pcbs && p in Perform(s, call).pcbs && p != s.running && p < s.lastPid
    requires !Completes(s, call, p) && !(call.Exit? && p == INIT)
    ensures SameBut(s.pcbs[p], Perform(s, call).pcbs[p])
  {
    hide Completes, SameBut, SendStep, ReceiveStep, DestroyStep, CreateStep, WaitStep, ExitStep, SleepStep,
         SpawnStep, Schedule;
    match call
    case Preempt => ScheduleOthers(s, p);
    case Spawn => SpawnOthers(s, p);
    case Fork => SpawnOthers(s, p);
    case Wait(pid, hasResult) => WaitOthers(s, pid, hasResult, p);
    case Exit(value) => ExitOthers(s, value, p);
    case Sleep(cycles) => SleepOthers(s, cycles, p);
    case Send(_, _, _) => SendOthers(s, call, p);
    case Receive(_, _) => ReceiveOthers(s, call, p);
    case _ => SmallOthers(s, call, p);
  }

  lemma IssuedBystander(s: State, call: Call, p: Pid)
    requires Inv(s) && Bystander(s, Trap(call), p)
    ensures !Completes(Issue(s, call), call, p)
    ensures p in Issue(s, call).pcbs && Issue(s, call).pcbs[p] == s.pcbs[p] && p < s.lastPid
  {
    IssueParent(s, call);
    assert p < s.lastPid;
    hide Inv, ExitAnswers;
  }

  /** A step leaves the PCBs of bystanders as they are, but for what follows from the lists. */
  lemma OthersKept(s: State, e: Event, p: Pid)
    requires Inv(s) && Bystander(s, e, p) && p in Step(s, e).pcbs
    ensures SameBut(s.pcbs[p], Step(s, e).pcbs[p])
  {
    hide Inv, Perform, Schedule, Completes, SameBut;
    match e
    case Tick => ScheduleOthers(s.(time := s.time + 1), p);
    case Trap(call) =>
      IssuedBystander(s, call, p);
      PerformOthers(Issue(s, call), call, p);
  }
}
