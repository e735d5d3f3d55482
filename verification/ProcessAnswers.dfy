/** What the other calls and the tick answer: for every call, in every good state, the value it
    returns, whether it gives the processor away, and what it does to the lists and to the PCBs it is
    about. Frames.OthersKept says that no other PCB changes but as the lists tell. */
module ProcessAnswers {
  import opened Lists
  import opened KernelState
  import opened KernelSteps
  import opened KernelInvariant
  import opened ProcessInvariant
  import opened Frames
  import opened Runs
  import opened QueueAnswers
  import opened SchedulingTheorems
  import opened FamilyTheorems
  import opened Lifetimes
  import opened MessageAuthors
  import opened WaitFates

  /** The caller becomes `me`, and the first ready process runs. */
  ghost predicate GivesWay(s: State, s': State, me: PCB) {
    && s.ready != [] && s'.running == s.ready[0] && s'.ready == s.ready[1..]
    && s.running in s'.pcbs && s'.pcbs[s.running] == me
    && s'.queues == s.queues && s'.time == s.time && s'.lastPid == s.lastPid
  }

  /** A number without a call behind it, and a call on resources, only return a value. */
  lemma PlainAnswers(s: State, ret: int)
    requires Inv(s)
    ensures Answered(s, NoCall, Step(s, Trap(NoCall)), ESYSCALL_NOT_IMPLEMENTED)
    ensures Answered(s, Resource(ret), Step(s, Trap(Resource(ret))), ret)
  {
    hide Inv, Answered, Returning, Issue;
    RunningRuns(s);
    PlainSteps(s, ret);
    ReturningAnswers(s, NoCall, ESYSCALL_NOT_IMPLEMENTED);
    ReturningAnswers(s, Resource(ret), ret);
    hide Step;
  }

  lemma PlainSteps(s: State, ret: int)
    ensures Step(s, Trap(NoCall)) == Returning(Issue(s, NoCall), ESYSCALL_NOT_IMPLEMENTED)
    ensures Step(s, Trap(Resource(ret))) == Returning(Issue(s, Resource(ret)), ret)
  {
  }

  // ----- the processor

  /** Who yields goes to the end of the ready list, and only its place and what its PCB says of it
      change; with nobody ready it goes on. */
  lemma PreemptAnswers(s: State)
    requires Inv(s)
    ensures var p, s' := s.running, Step(s, Trap(Preempt));
            && p in s.pcbs && p in s'.pcbs
            && (if s.ready == [] then s' == s.(pcbs := s.pcbs[p := s.pcbs[p].(call := Preempt)])
                else
                  && s'.running == s.ready[0] && s'.ready == s.ready[1..] + [p]
                  && s'.pcbs[p] == s.pcbs[p].(call := Preempt, status := Ready)
                  && s'.queues == s.queues && s'.pools == s.pools && Elsewhere(s, s'))
  {
    hide Inv, Schedule, NoRepeats;
    RunningRuns(s);
    PlacesApart(s);
    NothingIsDue(s);
    ScheduleIsRotate(Issue(s, Preempt));
    if s.ready != [] {
      assert s.ready[0] in s.ready;
      assert (s.ready + [s.running])[1..] == s.ready[1..] + [s.running];
    }
  }

  /** A tick moves the clock. The sleepers that are due, in timer order, go in front of the ready
      list; with somebody there the first one runs and the process that ran goes to the end. */
  lemma TickAnswers(s: State)
    requires Inv(s)
    ensures var ws, p, s' := Elapsed(s.timers, s.time + 1), s.running, Step(s, Tick);
            && s'.time == s.time + 1
            && if ws + s.ready == [] then s' == s.(time := s.time + 1)
               else
                 && s'.running == (ws + s.ready)[0] && s'.ready == (ws + s.ready)[1..] + [p]
                 && s'.timers == s.timers[|ws|..]
                 && (forall x :: x in s'.waiting <==> x in s.waiting && x !in ws)
                 && s'.zombie == s.zombie && s'.queues == s.queues && s'.lastPid == s.lastPid
                 && s'.pcbs.Keys == s.pcbs.Keys
  {
    hide Inv, Schedule, Elapsed;
    var s1 := s.(time := s.time + 1);
    ClockStep(s, Tick);
    if Elapsed(s.timers, s.time + 1) + s.ready == [] {
      IdleTick(s1);
    } else {
      TickOutcome(s);
      ScheduledLists(s1);
      TickCalm(s);
      CalmKeys(s.pcbs, Step(s, Tick).pcbs);
    }
  }

  lemma IdleTick(s: State)
    requires Elapsed(s.timers, s.time) == [] && s.ready == []
    ensures Schedule(s) == s
  {
    NobodyWoken(s);
  }

  lemma ScheduledLists(s: State)
    ensures var ws, s' := Elapsed(s.timers, s.time), Schedule(s);
            && s'.timers == s.timers[|ws|..]
            && (forall x :: x in s'.waiting <==> x in s.waiting && x !in ws)
            && s'.zombie == s.zombie && s'.queues == s.queues && s'.lastPid == s.lastPid
  {
  }

  /** The timer has gone in at place `k`: behind all that are due no later and before all others. */
  ghost predicate SlottedIn(ts: seq<Timer>, t: Timer, ts': seq<Timer>, k: int) {
    && 0 <= k <= |ts| && ts' == ts[..k] + [t] + ts[k..]
    && (forall j :: 0 <= j < k ==> ts[j].time <= t.time)
    && (forall j :: k <= j < |ts| ==> t.time < ts[j].time)
  }

  ghost predicate GoesIn(ts: seq<Timer>, t: Timer, ts': seq<Timer>) {
    exists k :: SlottedIn(ts, t, ts', k)
  }

  /** A sleep of no cycles returns 0 at once. Any other puts its caller at the end of the waiting list,
      with 0 to return, and its timer behind all that are due no later and before all others. */
  lemma SleepAnswers(s: State, cycles: int)
    requires Inv(s) && Enabled(s, Trap(Sleep(cycles)))
    ensures var call, p := Sleep(cycles), s.running;
            var s' := Step(s, Trap(call));
            && p in s.pcbs
            && if cycles <= 0 then Answered(s, call, s', 0)
               else
                 && GivesWay(s, s', s.pcbs[p].(call := call, status := Waiting, timer := true, ret := 0))
                 && s'.waiting == s.waiting + [p] && s'.zombie == s.zombie
                 && GoesIn(s.timers, Timer(s.time + cycles, p), s'.timers)
  {
    hide Inv, InsertTimer, Answered, NoRepeats, Listed;
    RunningRuns(s);
    PlacesApart(s);
    if cycles <= 0 {
      ReturningAnswers(s, Sleep(cycles), 0);
    } else {
      assert s.ready[0] in s.ready;
      TimersSorted(s);
      SlotExists(s.timers, Timer(s.time + cycles, s.running));
    }
  }

  lemma SlotExists(ts: seq<Timer>, t: Timer)
    requires SortedTimers(ts)
    ensures GoesIn(ts, t, InsertTimer(ts, t))
  {
    var k := TimerSlot(ts, t.time);
    assert forall j :: k <= j < |ts| ==> ts[k].time <= ts[j].time;
    assert SlottedIn(ts, t, InsertTimer(ts, t), k);
  }

  // ----- processes

  /** Spawn and fork fail exactly when no PCB is free. Otherwise they return a new pid; the process of
      that pid names the caller as its parent, and goes to the end of the ready list and of the
      caller's children. */
  lemma SpawnAnswers(s: State, call: Call)
    requires Inv(s) && (call == Spawn || call == Fork)
    ensures var p, child, s' := s.running, s.lastPid, Step(s, Trap(call));
            && p in s.pcbs
            && if s.pools.pcbs <= 0 then Answered(s, call, s', ESPAWN)
               else
                 && child !in s.pcbs && s'.pcbs.Keys == s.pcbs.Keys + {child}
                 && s'.pcbs[p] == s.pcbs[p].(call := call, ret := child, children := s.pcbs[p].children + [child])
                 && s'.pcbs[child] == NEW_PCB.(parent := Some(p))
                 && s'.running == p && s'.ready == s.ready + [child] && s'.lastPid == child + 1
                 && s'.waiting == s.waiting && s'.zombie == s.zombie && s'.timers == s.timers
                 && s'.queues == s.queues && s'.time == s.time
  {
    hide Inv;
    RunningRuns(s);
    LastPidFree(s);
    if s.pools.pcbs <= 0 { ReturningAnswers(s, call, ESPAWN); }
  }

  lemma LastPidFree(s: State)
    requires Inv(s)
    ensures s.lastPid !in s.pcbs
  {
  }

  /** Place `k` of the children list is the one that a wait for `pid` settles on: for 0 the first
      zombie, for the pid of a child that child, and for any other pid the last one. */
  ghost predicate Settles(m: Processes, cs: seq<Pid>, pid: int, k: int) {
    && 0 <= k < |cs|
    && (if pid == 0 then
          At(m, cs[k]).status == Zombie && forall j :: 0 <= j < k ==> At(m, cs[j]).status != Zombie
        else if exists c :: c in cs && c == pid then cs[k] == pid
        else k == |cs| - 1)
  }

  /** The wait takes the zombie at place `k` of its children list out of all lists, and returns its pid,
      with its exit value if there is a place for it. */
  ghost predicate Collects(s: State, call: Call, s': State, k: int)
    requires call.Wait? && s.running in s.pcbs && 0 <= k < |s.pcbs[s.running].children|
  {
    var p := s.running;
    var cs := s.pcbs[p].children;
    && cs[k] in s.pcbs && s'.pcbs.Keys == s.pcbs.Keys - {cs[k]} && p in s'.pcbs
    && s'.pcbs[p] == s.pcbs[p].(call := call, ret := cs[k], children := cs[..k] + cs[k + 1..],
                                result := if call.hasResult then s.pcbs[cs[k]].exitValue else s.pcbs[p].result)
    && s'.running == p && s'.ready == s.ready && s'.waiting == s.waiting
    && s'.zombie == Remove(s.zombie, cs[k])
    && s'.timers == s.timers && s'.queues == s.queues && s'.time == s.time && s'.lastPid == s.lastPid
  }

  /** A wait without children returns EWAIT and changes nothing else. Any other collects the child it
      settles on, if that is a zombie; if it settles on none, or on a child that lives, its caller
      goes to the end of the waiting list. */
  lemma WaitAnswers(s: State, pid: int, hasResult: bool)
    requires Inv(s) && Enabled(s, Trap(Wait(pid, hasResult)))
    ensures var call, p := Wait(pid, hasResult), s.running;
            var s' := Step(s, Trap(call));
            && p in s.pcbs
            && var m, cs := s.pcbs, s.pcbs[p].children;
               && (cs == [] ==> Answered(s, call, s', EWAIT))
               && (forall k :: Settles(m, cs, pid, k) && At(m, cs[k]).status == Zombie ==> Collects(s, call, s', k))
               && (cs != [] && (forall k :: Settles(m, cs, pid, k) ==> At(m, cs[k]).status != Zombie) ==>
                     && GivesWay(s, s', m[p].(call := call, status := Waiting))
                     && s'.waiting == s.waiting + [p] && s'.zombie == s.zombie && s'.timers == s.timers)
  {
    assert WaitBlocks(s, pid) ==> s.ready != [];
    hide Inv, Enabled, Answered, Collects, GivesWay, Settles, Step, Awaited;
    RunningRuns(s);
    var m, cs := s.pcbs, s.pcbs[s.running].children;
    if cs == [] {
      ChildlessWait(s, pid, hasResult);
      NoneSettles(m, pid);
    } else {
      var c := Awaited(m, cs, pid);
      forall k | Settles(m, cs, pid, k) ensures 0 <= k < |cs| && cs[k] == c { SettlesAwaited(m, cs, pid, k); }
      if At(m, c).status == Zombie {
        AwaitedSettles(m, cs, pid);
        forall k | Settles(m, cs, pid, k)
          ensures Collects(s, Wait(pid, hasResult), Step(s, Trap(Wait(pid, hasResult))), k)
        {
          CollectingAnswer(s, pid, hasResult, k);
        }
      } else {
        BlockingAnswer(s, pid, hasResult);
      }
    }
  }

  lemma ChildlessWait(s: State, pid: int, hasResult: bool)
    requires s.running in s.pcbs && s.pcbs[s.running].children == []
    ensures Answered(s, Wait(pid, hasResult), Step(s, Trap(Wait(pid, hasResult))), EWAIT)
  {
  }

  lemma NoneSettles(m: Processes, pid: int)
    ensures forall k :: !Settles(m, [], pid, k)
  {
  }

  lemma SettlesAwaited(m: Processes, cs: seq<Pid>, pid: int, k: int)
    requires Settles(m, cs, pid, k)
    ensures 0 <= k < |cs| && cs[k] == Awaited(m, cs, pid)
  {
    hide Awaited;
    if pid != 0 && exists c :: c in cs && c == pid {
      AwaitedIsChild(m, cs, pid);
    } else {
      assert forall j :: 0 <= j < |cs| ==> cs[j] in cs;
      AwaitedAt(m, cs, pid, k);
    }
  }

  lemma {:induction false} FirstZombie(m: Processes, cs: seq<Pid>, i: nat)
    requires i < |cs| && At(m, cs[i]).status == Zombie
    ensures exists k :: Settles(m, cs, 0, k)
  {
    if j: nat :| j < i && At(m, cs[j]).status == Zombie {
      FirstZombie(m, cs, j);
    } else {
      assert Settles(m, cs, 0, i);
    }
  }

  /** A zombie that a wait takes is one that it settles on. */
  lemma AwaitedSettles(m: Processes, cs: seq<Pid>, pid: int)
    requires cs != [] && At(m, Awaited(m, cs, pid)).status == Zombie
    ensures exists k :: Settles(m, cs, pid, k)
  {
    hide Awaited;
    if pid == 0 {
      var i :| 0 <= i < |cs| && cs[i] == Awaited(m, cs, pid);
      FirstZombie(m, cs, i);
    } else if c :| c in cs && c == pid {
      var i :| 0 <= i < |cs| && cs[i] == c;
      assert Settles(m, cs, pid, i);
    } else {
      assert Settles(m, cs, pid, |cs| - 1);
    }
  }

  lemma BlockingAnswer(s: State, pid: int, hasResult: bool)
    requires Inv(s) && s.pcbs[s.running].children != [] && s.ready != []
    requires At(s.pcbs, Awaited(s.pcbs, s.pcbs[s.running].children, pid)).status != Zombie
    ensures var call, s' := Wait(pid, hasResult), Step(s, Trap(Wait(pid, hasResult)));
            && GivesWay(s, s', s.pcbs[s.running].(call := call, status := Waiting))
            && s'.waiting == s.waiting + [s.running] && s'.zombie == s.zombie && s'.timers == s.timers
  {
    hide Inv, Awaited, NoRepeats, Listed;
    var call := Wait(pid, hasResult);
    RunningRuns(s);
    PlacesApart(s);
    assert s.ready[0] in s.ready;
    IssueWait(s, call, pid);
  }

  lemma CollectingAnswer(s: State, pid: int, hasResult: bool, k: int)
    requires Inv(s) && Settles(s.pcbs, s.pcbs[s.running].children, pid, k)
    requires At(s.pcbs, s.pcbs[s.running].children[k]).status == Zombie
    ensures s.running in s.pcbs
    ensures Collects(s, Wait(pid, hasResult), Step(s, Trap(Wait(pid, hasResult))), k)
  {
    hide Inv, Awaited, Reap, Collects, Distinct;
    RunningRuns(s);
    var call := Wait(pid, hasResult);
    var cs := s.pcbs[s.running].children;
    NotOwnChild(s);
    ChildrenDistinct(s);
    SettlesAwaited(s.pcbs, cs, pid, k);
    AwaitedSame(s.pcbs, Issue(s, call).pcbs, cs, pid);
    assert Step(s, Trap(call)) == Reap(Issue(s, call), cs[k], hasResult);
    Reaped(s, call, k);
  }

  lemma ChildrenDistinct(s: State)
    requires Inv(s)
    ensures Distinct(s.pcbs[s.running].children)
    ensures forall c :: c in s.pcbs[s.running].children ==> c in s.pcbs
  {
    forall c | c in s.pcbs[s.running].children ensures c in s.pcbs {
      assert ChildOk(s.pcbs, s.running, c) by { assert Holds(s.pcbs, s.running, c); }
    }
  }

  lemma Reaped(s: State, call: Call, k: int)
    requires call.Wait? && s.running in s.pcbs && 0 <= k < |s.pcbs[s.running].children|
    requires var cs := s.pcbs[s.running].children;
             Distinct(cs) && cs[k] in s.pcbs && cs[k] != s.running
    ensures Collects(s, call, Reap(Issue(s, call), s.pcbs[s.running].children[k], call.hasResult), k)
  {
    hide Remove, Distinct;
    RemovedAt(s.pcbs[s.running].children, k);
  }

  // ----- exit

  /** What an exit does to init: it adopts the caller's children, in their order, behind its own. */
  ghost predicate Adopts(s: State, s': State)
    requires s.running in s.pcbs && INIT in s.pcbs
  {
    INIT in s'.pcbs && s'.pcbs[INIT].children == s.pcbs[INIT].children + s.pcbs[s.running].children
  }

  /** The parent that the running process names is blocked in a wait for any child or for this one. */
  ghost predicate ParentAwaits(s: State) {
    && s.running in s.pcbs && s.pcbs[s.running].parent.Some?
    && var q := s.pcbs[s.running].parent.value;
       && q in s.pcbs && s.pcbs[q].status == Waiting
       && exists pid, hasResult :: s.pcbs[q].call == Wait(pid, hasResult) && (pid == 0 || pid == s.running)
  }

  lemma AwaitedExit(s: State)
    requires Inv(s)
    ensures ParentAwaits(s) <==> ExitAnswers(s)
  {
    hide Inv;
    RunningRuns(s);
    var parent := s.pcbs[s.running].parent;
    if ExitAnswers(s) {
      var call := s.pcbs[parent.value].call;
      assert call == Wait(call.pid, call.hasResult);
    }
  }

  /** An exit that finds its parent in no matching wait leaves a zombie with the value of the call and
      without children, behind all other zombies. */
  lemma ExitLeavesZombie(s: State, value: int)
    requires Inv(s) && Enabled(s, Trap(Exit(value))) && !ParentAwaits(s)
    ensures var call, p := Exit(value), s.running;
            var s' := Step(s, Trap(call));
            && p in s.pcbs && INIT in s.pcbs && p != INIT
            && GivesWay(s, s', s.pcbs[p].(call := call, status := Zombie, exitValue := value, children := []))
            && s'.zombie == s.zombie + [p] && s'.waiting == s.waiting && s'.timers == s.timers
            && Adopts(s, s') && s'.pcbs[INIT] == s.pcbs[INIT].(children := s'.pcbs[INIT].children,
                                                               status := s'.pcbs[INIT].status)
            && s'.pcbs.Keys == s.pcbs.Keys
  {
    hide Inv, Exits, FamilyOk, Settled, NoRepeats, Listed, ExitAnswers, ParentAwaits, Orphaned, WaitsFor;
    AwaitedExit(s);
    var call := Exit(value);
    RunningRuns(s);
    PlacesApart(s);
    IssueInv(s, call);
    IssueParent(s, call);
    var s1 := Issue(s, call);
    ExitingParent(s, value);
    ExitingCaller(s1);
    var q := s1.pcbs[s1.running].parent.value;
    ZombieExitPcbs(s1, q, value);
    ExitSwitches(s1, value);
    ReadyLives(s);
    assert s.ready[0] in s.ready;
    ZombieParts(s, value, s.ready[0]);
  }

  lemma ExitingParent(s: State, value: int)
    requires Inv(s) && Enabled(s, Trap(Exit(value)))
    ensures INIT in s.pcbs && s.running != INIT && s.pcbs[s.running].parent.Some?
    ensures ExitAnswers(s) || s.ready != []
    ensures s.pcbs[s.running].parent.value != s.running
  {
    ExitIsNotInit(s);
    assert ParentOk(s.pcbs, s.running);
  }

  lemma ExitSwitches(s: State, value: int)
    requires Inv(s) && s.running in s.pcbs && s.pcbs[s.running].parent.Some? && !ExitAnswers(s) && s.ready != []
    ensures var s' := ExitStep(s, value);
            && s'.running == s.ready[0] && s'.ready == s.ready[1..] && s'.zombie == s.zombie + [s.running]
            && s'.waiting == s.waiting && s'.timers == s.timers && s'.queues == s.queues && s'.time == s.time
            && s'.lastPid == s.lastPid
  {
    OrphanedNotAnswered(s, s.pcbs[s.running].parent.value, value);
    hide Inv, Orphaned;
  }

  lemma ZombieParts(s: State, value: int, n: Pid)
    requires s.running in s.pcbs && INIT in s.pcbs && s.running != INIT && n in s.pcbs && n != s.running
    ensures var p, o := s.running, Orphaned(Issue(s, Exit(value)).pcbs, s.running, value);
            && n in o && p in o
            && var m' := o[n := o[n].(status := Running)];
               && m'.Keys == s.pcbs.Keys
               && m'[p] == s.pcbs[p].(call := Exit(value), status := Zombie, exitValue := value, children := [])
               && m'[INIT].children == s.pcbs[INIT].children + s.pcbs[p].children
               && m'[INIT] == s.pcbs[INIT].(children := m'[INIT].children, status := m'[INIT].status)
  {
  }

  /** The wait of `q` is answered with the pid of the caller and with `value`, and `q` has no longer the
      caller as a child; if it is init, it has the caller's children too. */
  ghost predicate GetsAnswer(s: State, s': State, q: Pid, value: int)
    requires q in s.pcbs && q in s'.pcbs && s.running in s.pcbs
  {
    var p, c, c' := s.running, s.pcbs[q], s'.pcbs[q];
    && c.call.Wait?
    && c' == c.(status := Running, ret := p,
                children := Remove(c.children + (if q == INIT then s.pcbs[p].children else []), p),
                result := if c.call.hasResult then value else c.result)
  }

  /** An exit that finds its parent in a matching wait leaves nothing: the parent runs on, without the
      child, and has its pid and, if it asked for one, the value of the call. */
  lemma ExitAnswersParent(s: State, value: int)
    requires Inv(s) && Enabled(s, Trap(Exit(value))) && ParentAwaits(s)
    ensures var p, s' := s.running, Step(s, Trap(Exit(value)));
            && p in s.pcbs && INIT in s.pcbs && p != INIT && s.pcbs[p].parent.Some?
            && (var q := s.pcbs[p].parent.value;
               && q in s.pcbs && q != p && s'.running == q && s'.pcbs.Keys == s.pcbs.Keys - {p}
               && GetsAnswer(s, s', q, value)
               && (q != INIT ==>
                     Adopts(s, s') && s'.pcbs[INIT] == s.pcbs[INIT].(children := s'.pcbs[INIT].children))
               && s'.waiting == Remove(s.waiting, q))
            && s'.ready == s.ready && s'.zombie == s.zombie && s'.timers == s.timers && s'.queues == s.queues
            && s'.time == s.time && s'.lastPid == s.lastPid
  {
    hide Inv, Exits, FamilyOk, Settled, NoRepeats, Listed, ExitAnswers, ParentAwaits, Orphaned, Collected, WaitsFor,
         Remove;
    AwaitedExit(s);
    var call := Exit(value);
    RunningRuns(s);
    IssueInv(s, call);
    IssueParent(s, call);
    ExitingParent(s, value);
    var s1, q := Issue(s, call), s.pcbs[s.running].parent.value;
    ExitingCaller(s1);
    AnsweringExitPcbs(s1, q, value);
    AnsweredLists(s1, value);
    AnsweredParts(s, value, q);
  }

  lemma AnsweredLists(s: State, value: int)
    requires Inv(s) && s.pcbs[s.running].parent.Some? && ExitAnswers(s)
    ensures var q, s' := s.pcbs[s.running].parent.value, ExitStep(s, value);
            && s'.running == q && s'.waiting == Remove(s.waiting, q)
            && s'.ready == s.ready && s'.zombie == s.zombie && s'.timers == s.timers && s'.queues == s.queues
            && s'.time == s.time && s'.lastPid == s.lastPid
  {
    RunningRuns(s);
    assert s.running != INIT && s.pcbs[s.running].parent.value != s.running by {
      ExitIsNotInit(s);
      assert ParentOk(s.pcbs, s.running);
    }
    hide Inv, Remove, Collected;
    assert WaitsFor(Orphaned(s.pcbs, s.running, value), s.pcbs[s.running].parent.value, s.running);
  }

  lemma AnsweredParts(s: State, value: int, q: Pid)
    requires s.running in s.pcbs && INIT in s.pcbs && s.running != INIT && q != s.running
    requires ExitAnswers(s) && s.pcbs[s.running].parent == Some(q)
    ensures var p := s.running;
            var m' := Collected(Orphaned(Issue(s, Exit(value)).pcbs, p, value), p, q, value);
            var kept := s.pcbs[q].children + (if q == INIT then s.pcbs[p].children else []);
            && q in s.pcbs && s.pcbs[q].call.Wait? && m'.Keys == s.pcbs.Keys - {p}
            && m'[q] == s.pcbs[q].(status := Running, ret := p, children := Remove(kept, p),
                                   result := if s.pcbs[q].call.hasResult then value else s.pcbs[q].result)
            && (q != INIT ==>
                  && m'[INIT].children == s.pcbs[INIT].children + s.pcbs[p].children
                  && m'[INIT] == s.pcbs[INIT].(children := m'[INIT].children))
  {
    hide Remove;
    assert q != INIT ==> s.pcbs[q].children + [] == s.pcbs[q].children;
  }

  // ----- the value of an exit reaches the parent

  /** Every zombie holds the value of its exit call. */
  ghost predicate ValuesKept(s: State) {
    forall p :: p in s.pcbs && s.pcbs[p].status == Zombie ==>
      s.pcbs[p].call.Exit? && s.pcbs[p].exitValue == s.pcbs[p].call.value
  }

  lemma PerformZombies(s: State, call: Call)
    requires !call.Exit? && !call.Wait? && !call.Preempt?
    ensures Perform(s, call).zombie == s.zombie
  {
    hide FindQueue, InsertTimer;
  }

  lemma CallZombies(s: State, call: Call)
    requires !call.Exit? && !call.Wait?
    ensures Step(s, Trap(call)).zombie == s.zombie
  {
    hide Perform, Schedule;
    if call.Preempt? { PreemptZombies(Issue(s, call)); } else { PerformZombies(Issue(s, call), call); }
  }

  lemma PreemptZombies(s: State)
    ensures Perform(s, Preempt).zombie == s.zombie
  {
    hide Schedule;
    ScheduledLists(s);
  }

  lemma WaitZombies(s: State, pid: int, hasResult: bool)
    ensures forall p :: p in Step(s, Trap(Wait(pid, hasResult))).zombie ==> p in s.zombie
  {
    hide Awaited;
    forall c ensures forall p :: p in Remove(s.zombie, c) ==> p in s.zombie {
      RemoveOthers(s.zombie, c);
    }
  }

  /** Only the caller of an exit that answers no wait becomes a zombie. */
  lemma NewZombies(s: State, e: Event, p: Pid)
    requires Inv(s) && Enabled(s, e) && p in Step(s, e).zombie && p !in s.zombie
    ensures e.Trap? && e.call.Exit? && p == s.running && !ExitAnswers(s)
  {
    hide Inv, Enabled, Step, GivesWay, GetsAnswer, Adopts, Elsewhere, ParentAwaits, ExitAnswers;
    AwaitedExit(s);
    match e
    case Tick => TickAnswers(s);
    case Trap(call) =>
      match call
      case Exit(value) => if ExitAnswers(s) { ExitAnswersParent(s, value); } else { ExitLeavesZombie(s, value); }
      case Wait(pid, hasResult) => WaitZombies(s, pid, hasResult);
      case _ => CallZombies(s, call);
  }

  lemma ZombieBystander(s: State, e: Event, p: Pid)
    requires Inv(s) && p in s.pcbs && s.pcbs[p].status == Zombie
    ensures Bystander(s, e, p) && p in s.zombie
  {
    RunningRuns(s);
    PlaceOf(s, p);
    hide TimersOk, TableOk, PoolsOk, OnePlace, NothingDue, PidsOk, FindQueue;
    assert p != INIT;
    forall i | 0 <= i < |s.queues|
      ensures p !in s.queues[i].receivers && p !in s.queues[i].senders
      ensures s.queues[i].receivers != [] ==> p != s.queues[i].receivers[0]
      ensures s.queues[i].senders != [] ==> p != s.queues[i].senders[0]
    {
      assert QueueStatusOk(s.pcbs, s.queues[i]);
      if s.queues[i].receivers != [] { assert s.queues[i].receivers[0] in s.queues[i].receivers; }
      if s.queues[i].senders != [] { assert s.queues[i].senders[0] in s.queues[i].senders; }
    }
  }

  lemma ZombieValue(s: State, e: Event, p: Pid)
    requires Inv(s) && Enabled(s, e) && ValuesKept(s) && p in Step(s, e).pcbs && Step(s, e).pcbs[p].status == Zombie
    ensures Step(s, e).pcbs[p].call.Exit? && Step(s, e).pcbs[p].exitValue == Step(s, e).pcbs[p].call.value
  {
    hide Inv, Enabled, Step, Bystander, GivesWay, Adopts, ParentAwaits, ExitAnswers;
    AwaitedExit(s);
    StepInv(s, e);
    RunningRuns(Step(s, e));
    if p !in s.pcbs {
      NewProcess(s, e, p);
      SpawnAnswers(s, e.call);
    } else if s.pcbs[p].status == Zombie {
      ZombieBystander(s, e, p);
      OthersKept(s, e, p);
    } else {
      PlaceOf(Step(s, e), p);
      NotZombie(s, p);
      NewZombies(s, e, p);
      ExitLeavesZombie(s, e.call.value);
      var me := s.pcbs[p].(call := e.call, status := Zombie, exitValue := e.call.value, children := []);
      CallersPcb(s, Step(s, e), me);
    }
  }

  lemma CallersPcb(s: State, s': State, me: PCB)
    requires GivesWay(s, s', me)
    ensures s.running in s'.pcbs && s'.pcbs[s.running] == me
  {
  }

  lemma NotZombie(s: State, p: Pid)
    requires Inv(s) && p in s.pcbs && s.pcbs[p].status != Zombie
    ensures p !in s.zombie
  {
  }

  /** Over every legal run from boot every zombie holds the value of its exit call. */
  lemma ValuesAlways(es: seq<Event>)
    requires Legal(BOOT, es)
    ensures ValuesKept(Exec(BOOT, es))
  {
    hide Inv, Enabled, Legal, Step;
    assert ValuesKept(BOOT);
    hide ValuesKept;
    forall s, e | Inv(s) && Enabled(s, e) && ValuesKept(s) ensures ValuesKept(Step(s, e)) { ValueStep(s, e); }
    BootInv();
    StaysExactly(BOOT, es, s => ValuesKept(s), (s, e) => false);
    assert es[..|es|] == es;
    assert ValuesKept(Before(BOOT, es, |es|));
  }

  /** A step keeps the values that the zombies hold. */
  lemma ValueStep(s: State, e: Event)
    requires Inv(s) && Enabled(s, e) && ValuesKept(s)
    ensures ValuesKept(Step(s, e))
  {
    hide Inv, Enabled, Step;
    var s' := Step(s, e);
    forall p | p in s'.pcbs && s'.pcbs[p].status == Zombie
      ensures s'.pcbs[p].call.Exit? && s'.pcbs[p].exitValue == s'.pcbs[p].call.value
    {
      ZombieValue(s, e, p);
    }
  }

  /** The process that runs has collected `c`, and knows `v` if it asked for a value. */
  ghost predicate Learns(s: State, c: Pid, v: int) {
    && s.running in s.pcbs && s.pcbs[s.running].ret == c && s.pcbs[s.running].call.Wait?
    && (s.pcbs[s.running].call.hasResult ==> s.pcbs[s.running].result == v)
  }

  /** Process `c` called exit with the value `v` during the run, and whoever runs now learns it. */
  ghost predicate Reported(es: seq<Event>, s: State, c: Pid, v: int) {
    CalledIn(es, c, Exit(v)) && Learns(s, c, v)
  }

  /** Over every legal run from boot: whenever a PCB is freed, its process has called exit, and the value
      of that call reaches the process that collects it. */
  lemma ValueReported(es: seq<Event>, c: Pid)
    requires Legal(BOOT, es) && es != []
    requires c in Exec(BOOT, es[..|es| - 1]).pcbs && c !in Exec(BOOT, es).pcbs
    ensures exists v :: Reported(es, Exec(BOOT, es), c, v)
  {
    hide Inv, Enabled, Step, Exec, CalledIn, Frees, Legal;
    var n := |es| - 1;
    var s, e := Exec(BOOT, es[..n]), es[n];
    LastStep(es);
    ValuesAlways(es[..n]);
    CollectedByHolder(s, e, c);
    FreesExactly(s, e, c);
    FreedBy(s, e, c);
    var v := LastValue(s, e, c);
    if e.call.Exit? {
      CalledNow(es, e.call);
    } else {
      StoredCallWasMade(es[..n], c);
      CalledLonger(es, n, c, s.pcbs[c].call);
    }
    assert Reported(es, Exec(BOOT, es), c, v);
  }

  lemma LastStep(es: seq<Event>)
    requires Legal(BOOT, es) && es != []
    ensures var n := |es| - 1;
            var s := Exec(BOOT, es[..n]);
            Legal(BOOT, es[..n]) && Inv(s) && Enabled(s, es[n]) && Exec(BOOT, es) == Step(s, es[n])
  {
    hide Inv, Enabled, Step;
    var n := |es| - 1;
    LegalPrefix(BOOT, es, n);
    ReachableInv(es, n);
    assert Enabled(Before(BOOT, es, n), es[n]);
  }

  lemma FreedBy(s: State, e: Event, c: Pid)
    requires Frees(s, e, c)
    ensures e.Trap? && ((e.call.Exit? && c == s.running) || (e.call.Wait? && At(s.pcbs, c).status == Zombie))
  {
  }
}
