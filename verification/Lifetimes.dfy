/** Which PCBs come and go, and whether the parents that PCBs name are still there. */
module Lifetimes {
  import opened Lists
  import opened KernelState
  import opened KernelSteps
  import opened KernelInvariant
  import opened ProcessInvariant
  import opened Runs
  import opened QueueSteps
  import opened FamilyTheorems

  // ----- who goes

  /** The step frees the PCB of `c`. */
  predicate Frees(s: State, e: Event, c: Pid) {
    && e.Trap?
    && var me := At(s.pcbs, s.running);
       || (e.call.Exit? && ExitAnswers(s) && c == s.running)
       || (e.call.Wait? && me.children != [] && !WaitBlocks(s, e.call.pid)
           && c == Awaited(s.pcbs, me.children, e.call.pid))
  }

  lemma WaitFreesExactly(s: State, pid: int, hasResult: bool, c: Pid)
    requires s.running in s.pcbs && c in s.pcbs && !Holds(s.pcbs, s.running, s.running)
    requires s.ready != [] ==> s.ready[0] in s.pcbs
    ensures c !in WaitStep(s, pid, hasResult).pcbs <==> Frees(s, Trap(Wait(pid, hasResult)), c)
  {
    hide Awaited;
  }

  lemma ExitFreesExactly(s: State, value: int, c: Pid)
    requires Inv(s) && Enabled(s, Trap(Exit(value))) && c in s.pcbs
    ensures c !in ExitStep(s, value).pcbs <==> Frees(s, Trap(Exit(value)), c)
  {
    ExitingCaller(s);
    var q := s.pcbs[s.running].parent.value;
    hide Inv, Exits, ExitStep, ExitAnswers;
    if c !in ExitStep(s, value).pcbs { ExitFrees(s, q, value, c); }
    if ExitAnswers(s) { AnsweringExitPcbs(s, q, value); }
  }

  lemma CallFreesExactly(s: State, call: Call, c: Pid)
    requires Inv(s) && Enabled(s, Trap(call)) && c in s.pcbs
    ensures c !in Perform(s, call).pcbs <==> Frees(s, Trap(call), c)
  {
    hide Inv, Enabled, WaitStep, ExitStep, Frees;
    if call.Wait? {
      NotOwnChild(s);
      RunningRuns(s);
      ReadyLives(s);
      WaitFreesExactly(s, call.pid, call.hasResult, c);
    } else if call.Exit? {
      ExitFreesExactly(s, call.value, c);
    } else {
      OthersFree(s, call, c);
      FreesNothing(s, call, c);
    }
  }

  lemma FreesNothing(s: State, call: Call, c: Pid)
    requires !call.Wait? && !call.Exit?
    ensures !Frees(s, Trap(call), c)
  {
  }

  lemma ReadyLives(s: State)
    requires Inv(s)
    ensures s.ready != [] ==> s.ready[0] in s.pcbs
  {
    hide FamilyOk, TableOk, TimersOk, PoolsOk, OnePlace;
    if s.ready != [] { assert s.ready[0] in s.ready; }
  }

  lemma IssuedFrees(s: State, call: Call, c: Pid)
    requires Inv(s)
    ensures Frees(Issue(s, call), Trap(call), c) <==> Frees(s, Trap(call), c)
  {
    RunningRuns(s);
    IssueParent(s, call);
    if call.Wait? {
      IssueWait(s, call, call.pid);
      if s.pcbs[s.running].children != [] {
        AwaitedSame(s.pcbs, Issue(s, call).pcbs, s.pcbs[s.running].children, call.pid);
      }
    }
    hide Inv, WaitBlocks, ExitAnswers;
  }

  /** A step frees a PCB if and only if it is the exit of that process and answers a wait, or the
      wait of its holder and collects it. */
  lemma FreesExactly(s: State, e: Event, c: Pid)
    requires Inv(s) && Enabled(s, e) && c in s.pcbs
    ensures c !in Step(s, e).pcbs <==> Frees(s, e, c)
  {
    hide Inv, Enabled, Perform, Frees, Calm;
    match e
    case Tick =>
      TickCalm(s);
      CalmKeys(s.pcbs, Step(s, Tick).pcbs);
      TickFrees(s, c);
    case Trap(call) =>
      IssueInv(s, call);
      IssueEnabled(s, call);
      RunningRuns(s);
      IssuedFrees(s, call, c);
      CallFreesExactly(Issue(s, call), call, c);
  }

  lemma TickFrees(s: State, c: Pid)
    ensures !Frees(s, Tick, c)
  {
  }

  lemma AwaitedLives(s: State, pid: int)
    requires Inv(s) && At(s.pcbs, s.running).children != []
    ensures var c := Awaited(s.pcbs, At(s.pcbs, s.running).children, pid);
            c in s.pcbs && c != s.running
  {
    RunningRuns(s);
    NotOwnChild(s);
    var c := Awaited(s.pcbs, At(s.pcbs, s.running).children, pid);
    assert Holds(s.pcbs, s.running, c);
    assert ChildOk(s.pcbs, s.running, c);
  }

  lemma WaitFreesAwaited(s: State, e: Event)
    requires e.Trap? && e.call.Wait? && At(s.pcbs, s.running).children != [] && !WaitBlocks(s, e.call.pid)
    ensures Frees(s, e, Awaited(s.pcbs, At(s.pcbs, s.running).children, e.call.pid))
  {
  }

  // ----- who comes

  lemma ScheduleLastPid(s: State)
    ensures Schedule(s).lastPid == s.lastPid
  {
  }

  lemma CallLastPid(s: State, call: Call)
    ensures Perform(s, call).lastPid
            == if (call.Spawn? || call.Fork?) && s.pools.pcbs > 0 then s.lastPid + 1 else s.lastPid
  {
    hide SetStatus, SetRet, Complete, Deliver, CompleteAll, WakePcbs, At, Without, Elapsed, Remove, Payload;
    match call
    case Send(_, _, _) =>
    case Receive(_, _) =>
    case Exit(_) =>
    case Wait(_, _) =>
    case _ =>
  }

  lemma LastPidStep(s: State, e: Event)
    ensures Step(s, e).lastPid
            == if e.Trap? && (e.call.Spawn? || e.call.Fork?) && s.pools.pcbs > 0 then s.lastPid + 1 else s.lastPid
  {
    hide Schedule, Perform;
    match e
    case Tick => ScheduleLastPid(s.(time := s.time + 1));
    case Trap(call) => CallLastPid(Issue(s, call), call);
  }

  /** A process that was not there is the one that the step made. */
  lemma NewProcess(s: State, e: Event, c: Pid)
    requires Inv(s) && Enabled(s, e) && c !in s.pcbs && c in Step(s, e).pcbs
    ensures c == s.lastPid && s.pools.pcbs > 0 && (e == Trap(Spawn) || e == Trap(Fork))
  {
    hide Inv, Enabled, Step;
    NewPid(s, e, c);
    if c < s.lastPid { PidStep(s, e, c); }
    StepInv(s, e);
    LivePid(Step(s, e), c);
    LastPidStep(s, e);
  }

  lemma BornLives(s: State, e: Event)
    requires Inv(s) && (e == Trap(Spawn) || e == Trap(Fork)) && s.pools.pcbs > 0
    ensures s.lastPid in Step(s, e).pcbs
  {
    hide Inv, Schedule;
  }

  // ----- parents

  /** Every parent that a PCB names has a PCB. */
  ghost predicate ParentsLive(s: State) {
    forall d :: d in s.pcbs && s.pcbs[d].parent.Some? ==> s.pcbs[d].parent.value in s.pcbs
  }

  /** The step frees the PCB of `c`, which is the parent that `d` names. */
  predicate Bereaves(s: State, e: Event, c: Pid, d: Pid) {
    c in s.pcbs && Frees(s, e, c) && d in s.pcbs && d != c && s.pcbs[d].parent == Some(c)
  }

  /** The step frees the PCB of a process that another one names as its parent: exit has handed the
      children of that process to init, but has not told them. */
  ghost predicate Orphans(s: State, e: Event) {
    exists c, d :: Bereaves(s, e, c, d)
  }

  lemma OneFreed(s: State, e: Event, c: Pid, d: Pid)
    requires Frees(s, e, c) && Frees(s, e, d)
    ensures c == d
  {
  }

  /** A step leaves somebody whose parent is gone exactly when it is such a step. */
  lemma OrphanStep(s: State, e: Event)
    requires Inv(s) && Enabled(s, e) && ParentsLive(s)
    ensures ParentsLive(Step(s, e)) <==> !Orphans(s, e)
  {
    hide Inv, Enabled, Step, Frees;
    var s' := Step(s, e);
    if Orphans(s, e) {
      var c, d :| Bereaves(s, e, c, d);
      FreesExactly(s, e, c);
      FreesExactly(s, e, d);
      if Frees(s, e, d) { OneFreed(s, e, c, d); }
      CallsKept(s, e, d);
    } else {
      forall d | d in s'.pcbs && s'.pcbs[d].parent.Some? ensures s'.pcbs[d].parent.value in s'.pcbs {
        ParentStays(s, e, d);
      }
    }
  }

  lemma ParentStays(s: State, e: Event, d: Pid)
    requires Inv(s) && Enabled(s, e) && ParentsLive(s) && !Orphans(s, e)
    requires d in Step(s, e).pcbs && Step(s, e).pcbs[d].parent.Some?
    ensures Step(s, e).pcbs[d].parent.value in Step(s, e).pcbs
  {
    hide Inv, Enabled, Step, Frees;
    if d in s.pcbs {
      CallsKept(s, e, d);
      var q := s.pcbs[d].parent.value;
      FreesExactly(s, e, q);
      FreesExactly(s, e, d);
      assert q == d || !Bereaves(s, e, q, d);
    } else {
      NewPid(s, e, d);
      RunningRuns(s);
      NewChild(s, e, d);
    }
  }

  lemma NewChild(s: State, e: Event, d: Pid)
    requires s.running in s.pcbs && (e == Trap(Spawn) || e == Trap(Fork)) && d !in s.pcbs && d in Step(s, e).pcbs
    ensures Step(s, e).pcbs[d].parent == Some(s.running) && s.running in Step(s, e).pcbs
  {
    hide Schedule;
  }

  /** Over every legal run from boot: at every point every parent that a PCB names has a PCB, if and
      only if no step of the run frees the PCB of a process that another one names. */
  lemma OrphansExactly(es: seq<Event>)
    requires Legal(BOOT, es)
    ensures (forall k :: 0 <= k <= |es| ==> ParentsLive(Before(BOOT, es, k)))
            <==> (forall k :: 0 <= k < |es| ==> !Orphans(Before(BOOT, es, k), es[k]))
  {
    hide Inv, Enabled, Legal, Step, Orphans;
    assert ParentsLive(BOOT);
    hide ParentsLive;
    forall s, e | Inv(s) && Enabled(s, e) && ParentsLive(s) ensures ParentsLive(Step(s, e)) <==> !Orphans(s, e) {
      OrphanStep(s, e);
    }
    BootInv();
    StaysExactly(BOOT, es, s => ParentsLive(s), (s, e) => Orphans(s, e));
  }

  /** As long as the parents live, an exit can only be asked for wrongly by init, or with nobody to
      run next. */
  lemma ExitDemands(s: State, value: int)
    requires Inv(s) && ParentsLive(s)
    ensures Demands(s, Trap(Exit(value))) <==> s.running != INIT && (ExitAnswers(s) || s.ready != [])
  {
    hide OnePlace, NothingDue, StatusOk, TimersOk, TableOk, PoolsOk, PidsOk, ExitAnswers;
    if s.running != INIT { assert ParentOk(s.pcbs, s.running); }
  }
}
