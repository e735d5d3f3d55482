/** Theorems about the processor and the clock: nobody in the ready list is overtaken
    without bound, and every sleeper wakes exactly when its time has come. */
module SchedulingTheorems {
  import opened Lists
  import opened KernelState
  import opened KernelSteps
  import opened KernelInvariant
  import opened ProcessInvariant
  import opened Runs

  // ----- the scheduler

  /** With the woken sleepers put in front of the ready list, the first takes over and the
      process that ran goes to the very end; with nobody there, nothing happens. */
  lemma ScheduleOutcome(s: State)
    requires Common(s) && OnePlace(s) && s.running in s.pcbs && s.pcbs[s.running].status == Running
    ensures var line := Elapsed(s.timers, s.time) + s.ready;
            var s' := Schedule(s);
            if line == [] then s' == s
            else
              && s'.running == line[0] && s'.ready == line[1..] + [s.running]
              && s'.pcbs[line[0]].status == Running && s'.pcbs[s.running].status == Ready
              && (forall p :: p in line ==> p in s'.pcbs && !s'.pcbs[p].timer)
              && (forall p :: p in line[1..] ==> p in s'.pcbs && s'.pcbs[p].status == Ready)
              && (forall p :: p in s.waiting && p !in line ==> p in s'.waiting && s'.pcbs[p] == s.pcbs[p])
  {
    StatusHeld(s);
    hide Common, OnePlace, Inv;
    WokenInv(s);
    var w := Woken(s);
    if w.ready == [] {
      NobodyWoken(s);
    } else {
      hide Rotate;
      LineReady(s);
      WaitersStay(s);
    }
  }

  lemma StatusHeld(s: State)
    requires Common(s)
    ensures StatusOk(s)
  {
  }

  lemma NobodyWoken(s: State)
    requires Elapsed(s.timers, s.time) == []
    ensures Woken(s) == s
  {
    WithoutNothing(s.waiting);
    assert WakePcbs(s.pcbs, []) == s.pcbs;
    assert [] + s.ready == s.ready;
  }

  lemma RotateOutcome(w: State)
    requires Inv(w) && w.ready != []
    ensures var line, s' := w.ready, Rotate(w);
            && s'.running == line[0] && s'.ready == line[1..] + [w.running]
            && s'.pcbs[line[0]].status == Running && s'.pcbs[w.running].status == Ready
            && (forall p :: p in line ==> p in s'.pcbs && p in w.pcbs && s'.pcbs[p].timer == w.pcbs[p].timer)
            && (forall p :: p in line[1..] ==> p in s'.pcbs && s'.pcbs[p].status == Ready)
  {
    hide FamilyOk, TableOk, TimersOk, NothingDue, PoolsOk, OnePlace, PidsOk, Listed, WaitingOk, QueueStatusOk;
    PlacesApart(w);
    assert forall p :: p in w.ready ==> p in w.pcbs && w.pcbs[p].status == Ready;
    assert w.ready[0] in w.ready && forall p :: p in w.ready[1..] ==> p in w.ready && p != w.ready[0];
  }

  lemma NoReadyTimers(w: State)
    requires Inv(w)
    ensures forall p :: p in w.ready ==> p in w.pcbs && !w.pcbs[p].timer
  {
    hide FamilyOk, TableOk, NothingDue, PoolsOk, OnePlace, PidsOk;
  }

  lemma LineReady(s: State)
    requires Inv(Woken(s)) && Woken(s).ready != []
    ensures var w := Woken(s);
            var line, s' := w.ready, Schedule(s);
            && s'.running == line[0] && s'.ready == line[1..] + [w.running]
            && s'.pcbs[line[0]].status == Running && s'.pcbs[w.running].status == Ready
            && (forall p :: p in line ==> p in s'.pcbs && !s'.pcbs[p].timer)
            && (forall p :: p in line[1..] ==> p in s'.pcbs && s'.pcbs[p].status == Ready)
  {
    hide Inv, Woken, Rotate;
    RotateOutcome(Woken(s));
    NoReadyTimers(Woken(s));
  }

  lemma WaitersStay(s: State)
    requires StatusOk(s) && s.running in s.pcbs && s.pcbs[s.running].status == Running
    ensures forall p :: p in s.waiting && p !in Elapsed(s.timers, s.time) + s.ready ==>
              p in Schedule(s).waiting && p in s.pcbs && p in Schedule(s).pcbs && Schedule(s).pcbs[p] == s.pcbs[p]
  {
    hide QueueStatusOk, Schedule, Elapsed;
    forall p | p in s.waiting && p !in Elapsed(s.timers, s.time) + s.ready
      ensures p in Schedule(s).waiting && p in s.pcbs && p in Schedule(s).pcbs && Schedule(s).pcbs[p] == s.pcbs[p]
    {
      WaiterStays(s, p);
    }
  }

  lemma WaiterStays(s: State, p: Pid)
    requires p in s.waiting && p in s.pcbs && p != s.running && p !in Elapsed(s.timers, s.time) && p !in s.ready
    ensures p in Schedule(s).waiting && p in Schedule(s).pcbs && Schedule(s).pcbs[p] == s.pcbs[p]
  {
    hide Elapsed;
  }

  // ----- bounded overtaking

  /** The sleepers that step `e` puts in front of the ready list. */
  function Woke(s: State, e: Event): nat {
    |Elapsed(s.timers, Step(s, e).time)|
  }

  /** The step gave the processor to the head of the line. */
  function Handed(s: State, e: Event): nat {
    if Step(s, e).running in Elapsed(s.timers, Step(s, e).time) + s.ready then 1 else 0
  }

  /** Process `p` is at place `k` of the ready list, or, at -1, it runs. */
  ghost predicate Place(s: State, p: Pid, k: int) {
    && (0 <= k ==> k < |s.ready| && s.ready[k] == p)
    && (k < 0 ==> s.running == p)
  }

  /** One dequeue moves everybody forward by one. */
  ghost predicate Moved(s: State, s': State) {
    forall k :: 0 <= k < |s.ready| ==> Place(s', s.ready[k], if s'.running in s.ready then k - 1 else k)
  }

  lemma SwitchMoves(s: State, s1: State)
    requires s.ready != [] && s.ready <= s1.ready
    ensures Moved(s, Switch(s1))
  {
    var s' := Switch(s1);
    assert s'.running == s.ready[0] && s'.running in s.ready;
    assert forall k :: 0 <= k < |s.ready| - 1 ==> s'.ready[k] == s1.ready[k + 1] == s.ready[k + 1];
  }

  lemma AppendMoves(s: State, s': State)
    requires s.ready <= s'.ready && s'.running !in s.ready
    ensures Moved(s, s')
  {
  }

  lemma BlockMoves(s: State, i: nat, q: MessageQueue, failure: int)
    requires i < |s.queues| && s.running !in s.ready
    ensures Moved(s, BlockOn(s, i, q, failure))
  {
    if s.ready == [] {
      AppendMoves(s, BlockOn(s, i, q, failure));
    } else {
      SwitchMoves(s, s.(queues := s.queues[i := q], pcbs := SetStatus(s.pcbs, s.running, Waiting)));
    }
  }

  lemma SendMoves(s: State, id: int, size: int, data: seq<Byte>)
    requires s.running !in s.ready
    ensures Moved(s, SendStep(s, id, size, data))
  {
    hide Moved, BlockOn;
    var i := FindQueue(s.queues, id);
    if id > 0 && 0 < size <= MESSAGE_MAX_SIZE && i < |s.queues| && s.queues[i].current >= s.queues[i].capacity {
      BlockMoves(s, i, s.queues[i].(senders := s.queues[i].senders + [s.running]), EMQFULL);
    } else {
      AppendMoves(s, SendStep(s, id, size, data));
    }
  }

  lemma ReceiveMoves(s: State, id: int, room: int)
    requires s.running !in s.ready
    ensures Moved(s, ReceiveStep(s, id, room))
  {
    hide Moved, BlockOn;
    var i := FindQueue(s.queues, id);
    if id > 0 && room > 0 && i < |s.queues| && s.queues[i].messages == [] {
      BlockMoves(s, i, s.queues[i].(receivers := s.queues[i].receivers + [s.running]), EMQEMPTY);
    } else {
      AppendMoves(s, ReceiveStep(s, id, room));
    }
  }

  lemma WaitMoves(s: State, pid: int, hasResult: bool)
    requires s.running !in s.ready && (WaitBlocks(s, pid) ==> s.ready != [])
    ensures Moved(s, WaitStep(s, pid, hasResult))
  {
    hide Moved;
    if WaitBlocks(s, pid) {
      SwitchMoves(s, s.(waiting := s.waiting + [s.running], pcbs := SetStatus(s.pcbs, s.running, Waiting)));
    } else {
      AppendMoves(s, WaitStep(s, pid, hasResult));
    }
  }

  lemma ExitMoves(s: State, value: int)
    requires Inv(s) && s.pcbs[s.running].parent.Some?
    requires ExitAnswers(s) || s.ready != []
    ensures Moved(s, ExitStep(s, value))
  {
    var q := s.pcbs[s.running].parent.value;
    var m := Orphaned(s.pcbs, s.running, value);
    assert s.running != INIT;
    if WaitsFor(m, q, s.running) {
      assert q !in s.ready by { if q != s.running && q in s.pcbs { PlaceOf(s, q); } }
      hide Inv, Moved;
      AppendMoves(s, ExitStep(s, value));
    } else {
      hide Inv, Moved;
      SwitchMoves(s, s.(zombie := s.zombie + [s.running], pcbs := m));
    }
  }

  lemma RotateMoves(s: State)
    requires s.running !in s.ready
    ensures Moved(s, Rotate(s))
  {
    hide Moved;
    if s.ready == [] {
      AppendMoves(s, Rotate(s));
    } else {
      SwitchMoves(s, s);
      SwitchMoves(s, s.(ready := s.ready + [s.running], pcbs := SetStatus(s.pcbs, s.running, Ready)));
    }
  }

  lemma SleepMoves(s: State, cycles: int)
    requires s.running !in s.ready && (cycles > 0 ==> s.ready != [])
    ensures Moved(s, SleepStep(s, cycles))
  {
    hide Moved;
    if cycles <= 0 {
      AppendMoves(s, SleepStep(s, cycles));
    } else {
      SwitchMoves(s, Asleep(s, cycles));
    }
  }

  lemma PerformMoves(s: State, call: Call)
    requires Inv(s) && Enabled(s, Trap(call))
    ensures Moved(s, Perform(s, call))
  {
    hide Inv, Moved, NoRepeats, SendStep, ReceiveStep, WaitStep, ExitStep, SleepStep, Schedule, NothingDue, Listed;
    PlacesApart(s);
    match call
    case Preempt => NothingIsDue(s); ScheduleIsRotate(s); RotateMoves(s);
    case Wait(pid, hasResult) => WaitMoves(s, pid, hasResult);
    case Exit(value) => RunningRuns(s); ExitMoves(s, value);
    case Sleep(cycles) => SleepMoves(s, cycles);
    case Send(id, _, size) => SendMoves(s, id, size, Payload(call));
    case Receive(id, room) => ReceiveMoves(s, id, room);
    case _ => SmallMoves(s, call);
  }

  lemma SmallMoves(s: State, call: Call)
    requires s.running !in s.ready
    requires !call.Preempt? && !call.Wait? && !call.Exit? && !call.Sleep? && !call.Send? && !call.Receive?
    ensures Moved(s, Perform(s, call))
  {
    hide Moved, FindQueue;
    AppendMoves(s, Perform(s, call));
  }

  lemma PerformTime(s: State, call: Call)
    ensures Perform(s, call).time == s.time
  {
  }

  lemma TickOutcome(s: State)
    requires Inv(s) && Elapsed(s.timers, s.time + 1) + s.ready != []
    ensures var line, s' := Elapsed(s.timers, s.time + 1) + s.ready, Step(s, Tick);
            && s'.running == line[0] && s'.ready == line[1..] + [s.running]
            && (forall p :: p in line ==> p in s'.pcbs && !s'.pcbs[p].timer)
            && s'.time == s.time + 1
  {
    hide Common, OnePlace, NothingDue, Schedule, Elapsed;
    var s1 := s.(time := s.time + 1);
    LaterCommon(s, s1);
    ScheduleOutcome(s1);
    ScheduleTime(s1);
  }

  lemma TickMoves(s: State, k: nat)
    requires Inv(s) && k < |s.ready|
    ensures Handed(s, Tick) == 1 && Place(Step(s, Tick), s.ready[k], k + Woke(s, Tick) - 1)
  {
    hide Inv, Step, Elapsed;
    var w := Elapsed(s.timers, s.time + 1);
    var line := w + s.ready;
    assert line[|w| + k] == s.ready[k];
    TickOutcome(s);
  }

  lemma ScheduleTime(s: State)
    ensures Schedule(s).time == s.time
  {
  }

  lemma CallPosition(s: State, call: Call, k: nat)
    requires Inv(s) && Enabled(s, Trap(call)) && k < |s.ready|
    ensures Woke(s, Trap(call)) == 0
    ensures Place(Step(s, Trap(call)), s.ready[k], k - Handed(s, Trap(call)))
  {
    hide Inv, Perform, Place, Schedule, Elapsed, Enabled;
    var s1 := Issue(s, call);
    IssueInv(s, call);
    IssueEnabled(s, call);
    PerformMoves(s1, call);
    PerformTime(s1, call);
    NothingElapsed(s);
    assert [] + s.ready == s.ready;
    assert s1.ready[k] == s.ready[k];
  }

  lemma NothingElapsed(s: State)
    requires Inv(s)
    ensures Elapsed(s.timers, s.time) == []
  {
    assert NothingDue(s.timers, s.time);
  }

  /** A ready process moves back only by the sleepers that wake, and forward by one with
      every dequeue. */
  lemma StepPosition(s: State, e: Event, k: nat)
    requires Inv(s) && Enabled(s, e) && k < |s.ready|
    ensures Place(Step(s, e), s.ready[k], k + Woke(s, e) - Handed(s, e))
  {
    hide Inv, Place, Step, Enabled, Woke, Handed;
    match e
    case Tick => TickMoves(s, k);
    case Trap(call) => CallPosition(s, call, k);
  }

  /** Sleepers woken, and processes dispatched, over a whole run. */
  function WokenIn(s: State, es: seq<Event>): nat {
    if es == [] then 0
    else var n := |es| - 1; WokenIn(s, es[..n]) + Woke(Exec(s, es[..n]), es[n])
  }

  function HandedIn(s: State, es: seq<Event>): nat {
    if es == [] then 0
    else var n := |es| - 1; HandedIn(s, es[..n]) + Handed(Exec(s, es[..n]), es[n])
  }

  /** The process runs at some point of the run. */
  ghost predicate HasRun(s: State, es: seq<Event>, p: Pid) {
    exists j :: 0 <= j <= |es| && Before(s, es, j).running == p
  }

  /** Bounded overtaking: over every legal run, a ready process has run, or its place is its
      first one plus the sleepers woken minus the dispatches. */
  lemma {:induction false} RunPosition(s: State, es: seq<Event>, k: nat)
    requires Inv(s) && Legal(s, es) && k < |s.ready|
    ensures HasRun(s, es, s.ready[k])
            || (k + WokenIn(s, es) - HandedIn(s, es) >= 0
                && Place(Exec(s, es), s.ready[k], k + WokenIn(s, es) - HandedIn(s, es)))
  {
    hide Inv, Enabled, Step, Woke, Handed;
    if es != [] {
      var n := |es| - 1;
      var front, p := es[..n], s.ready[k];
      LegalPrefix(s, es, n);
      RunPosition(s, front, k);
      if HasRun(s, front, p) {
        var j :| 0 <= j <= n && Before(s, front, j).running == p;
        assert front[..j] == es[..j];
        assert Before(s, es, j).running == p;
      } else {
        var t := Exec(s, front);
        RunInv(s, es, n);
        assert Enabled(Before(s, es, n), es[n]);
        var k' := k + WokenIn(s, front) - HandedIn(s, front);
        StepPosition(t, es[n], k');
        if k' + Woke(t, es[n]) - Handed(t, es[n]) < 0 {
          assert es[..|es|] == es;
          assert Before(s, es, |es|).running == p;
        }
      }
    }
  }

  /** As soon as more processes were dispatched than were ahead at first or have woken since,
      the process has run. */
  lemma NobodyStarves(s: State, es: seq<Event>, k: nat)
    requires Inv(s) && Legal(s, es) && k < |s.ready|
    requires HandedIn(s, es) > k + WokenIn(s, es)
    ensures HasRun(s, es, s.ready[k])
  {
    hide Inv, Legal, HasRun;
    RunPosition(s, es, k);
  }

  // ----- timer exactness

  /** No system call disarms a timer. */
  lemma CallTimers(s: State, call: Call, t: Timer)
    requires NothingDue(s.timers, s.time) && t in s.timers
    ensures t in Perform(s, call).timers
  {
    if call.Sleep? {
      InsertedMember(s.timers, Timer(s.time + call.cycles, s.running), t);
      SleepTimers(s, call.cycles);
    } else {
      CallKeepsTimers(s, call);
    }
  }

  lemma InsertedMember(ts: seq<Timer>, n: Timer, t: Timer)
    requires t in ts
    ensures t in InsertTimer(ts, n)
  {
    var k := TimerSlot(ts, n.time);
    assert ts == ts[..k] + ts[k..];
  }

  lemma ScheduleTimers(s: State)
    ensures Schedule(s).timers == s.timers[|Elapsed(s.timers, s.time)|..]
  {
  }

  lemma TickTimers(s: State, t: Timer)
    requires t in s.timers && s.time + 1 < t.time
    ensures t in Step(s, Tick).timers
  {
    hide Schedule;
    ScheduleTimers(s.(time := s.time + 1));
    var k := |Elapsed(s.timers, s.time + 1)|;
    var i :| 0 <= i < |s.timers| && s.timers[i] == t;
    assert i >= k;
    assert s.timers[k..][i - k] == t;
  }

  lemma DueNotListed(s: State, t: Timer)
    requires Inv(s) && t.time <= s.time
    ensures t !in s.timers
  {
    assert NothingDue(s.timers, s.time);
  }

  lemma IssuedTimers(s: State, call: Call, t: Timer)
    requires Inv(s) && t in s.timers
    ensures t in Step(s, Trap(call)).timers && s.time < t.time
  {
    assert NothingDue(s.timers, s.time);
    hide Inv, Perform;
    CallTimers(Issue(s, call), call, t);
  }

  lemma TimerStep(s: State, e: Event, t: Timer)
    requires Inv(s) && Enabled(s, e) && t in s.timers
    ensures t in Step(s, e).timers <==> Step(s, e).time < t.time
  {
    hide Inv, Enabled, Perform, Schedule;
    StepInv(s, e);
    match e
    case Tick =>
      ScheduleTime(s.(time := s.time + 1));
      if s.time + 1 < t.time { TickTimers(s, t); } else { DueNotListed(Step(s, Tick), t); }
    case Trap(call) =>
      PerformTime(Issue(s, call), call);
      IssuedTimers(s, call, t);
  }

  /** Every tick moves the clock by one, whoever is ready, and nothing else moves it. */
  lemma ClockStep(s: State, e: Event)
    ensures Step(s, e).time == s.time + (if e == Tick then 1 else 0)
  {
    hide Perform, Schedule;
    match e
    case Tick => ScheduleTime(s.(time := s.time + 1));
    case Trap(call) => PerformTime(Issue(s, call), call);
  }

  /** Asleep means waiting for one's own timer. */
  lemma SleeperState(s: State, t: Timer)
    requires Inv(s) && t in s.timers
    ensures t.pid in s.waiting && t.pid in s.pcbs && s.pcbs[t.pid].status == Waiting && s.pcbs[t.pid].call.Sleep?
  {
    hide FamilyOk, TableOk, PoolsOk, OnePlace, NothingDue;
    var i :| 0 <= i < |s.timers| && s.timers[i] == t;
    assert TimerPids(s.timers)[i] == t.pid;
  }

  /** A sleeper sleeps as long as its time has not come, over every legal run: its timer is armed,
      and it waits in the sleep call. */
  lemma {:induction false} SleepsExactly(s: State, es: seq<Event>, t: Timer)
    requires Inv(s) && Legal(s, es) && t in s.timers
    ensures t in Exec(s, es).timers <==> Exec(s, es).time < t.time
    ensures Exec(s, es).time < t.time ==>
              var u := Exec(s, es);
              t.pid in u.waiting && t.pid in u.pcbs && u.pcbs[t.pid].status == Waiting && u.pcbs[t.pid].call.Sleep?
  {
    if es == [] {
      assert NothingDue(s.timers, s.time);
    } else {
      hide Inv, Enabled, Step;
      var n := |es| - 1;
      LegalPrefix(s, es, n);
      SleepsExactly(s, es[..n], t);
      RunInv(s, es, n);
      var u := Exec(s, es[..n]);
      assert Enabled(Before(s, es, n), es[n]);
      ClockStep(u, es[n]);
      if t in u.timers {
        TimerStep(u, es[n], t);
      } else {
        NeverRearmed(u, es[n], t);
      }
    }
    assert Inv(Exec(s, es)) by { EndInv(s, es); }
    if Exec(s, es).time < t.time { SleeperState(Exec(s, es), t); }
  }

  lemma EndInv(s: State, es: seq<Event>)
    requires Inv(s) && Legal(s, es)
    ensures Inv(Exec(s, es))
  {
    RunInv(s, es, |es|);
    assert es[..|es|] == es;
  }

  /** A timer of the past never comes back. */
  lemma NeverRearmed(s: State, e: Event, t: Timer)
    requires Inv(s) && Enabled(s, e) && t.time <= s.time
    ensures t !in Step(s, e).timers
  {
    StepInv(s, e);
    assert NothingDue(Step(s, e).timers, Step(s, e).time);
    hide Inv, Enabled, Step;
    ClockStep(s, e);
  }

  lemma DueElapses(ts: seq<Timer>, t: Timer, now: int)
    requires SortedTimers(ts) && t in ts && t.time <= now
    ensures t.pid in Elapsed(ts, now)
  {
    var i :| 0 <= i < |ts| && ts[i] == t;
    var ws := Elapsed(ts, now);
    assert |ws| < |ts| ==> now < ts[|ws|].time;
    assert i < |ws| && ws[i] == t.pid;
  }

  lemma HeadOfLine(ws: seq<Pid>, rest: seq<Pid>, p: Pid, last: Pid)
    requires p in ws
    ensures p == (ws + rest)[0] || AmongFirst((ws + rest)[1..] + [last], p, |ws| - 1)
  {
    var i :| 0 <= i < |ws| && ws[i] == p;
    var after := (ws + rest)[1..] + [last];
    assert i > 0 ==> after[i - 1] == p;
  }

  /** `p` has one of the first `n` places. */
  ghost predicate AmongFirst(ready: seq<Pid>, p: Pid, n: int) {
    exists i :: 0 <= i < n && i < |ready| && ready[i] == p
  }

  lemma TimersSorted(s: State)
    requires Inv(s)
    ensures SortedTimers(s.timers)
  {
  }

  /** The tick that brings a sleeper's time puts it in front of the ready list, if not
      straight on the processor. */
  lemma WakesOnTime(s: State, t: Timer)
    requires Inv(s) && t in s.timers && t.time == s.time + 1
    ensures var s' := Step(s, Tick);
            && t.pid in s'.pcbs && !s'.pcbs[t.pid].timer
            && (s'.running == t.pid || AmongFirst(s'.ready, t.pid, Woke(s, Tick) - 1))
  {
    hide Inv, Step;
    TimersSorted(s);
    DueElapses(s.timers, t, s.time + 1);
    TickOutcome(s);
    var ws := Elapsed(s.timers, s.time + 1);
    assert Woke(s, Tick) == |ws|;
    HeadOfLine(ws, s.ready, t.pid, s.running);
    assert t.pid in ws + s.ready;
  }

  /** The ticks of a run. */
  function Ticks(es: seq<Event>): nat {
    if es == [] then 0 else Ticks(es[..|es| - 1]) + (if es[|es| - 1] == Tick then 1 else 0)
  }

  /** The clock counts the ticks, over every run. */
  lemma {:induction false} ClockCounts(s: State, es: seq<Event>)
    ensures Exec(s, es).time - s.time == Ticks(es)
  {
    hide Step;
    if es != [] {
      ClockCounts(s, es[..|es| - 1]);
      ClockStep(Exec(s, es[..|es| - 1]), es[|es| - 1]);
    }
  }

  /** A sleep of so many cycles lasts exactly so many ticks, over every legal run after the call: until
      then its caller waits in it, and the tick that completes the number puts the caller on the
      processor or among the first of the ready list. */
  lemma SleepLasts(s: State, cycles: int, es: seq<Event>)
    requires Inv(s) && Enabled(s, Trap(Sleep(cycles))) && cycles > 0
    requires Legal(Step(s, Trap(Sleep(cycles))), es)
    ensures var u, p := Exec(Step(s, Trap(Sleep(cycles))), es), s.running;
            && (Timer(s.time + cycles, p) in u.timers <==> Ticks(es) < cycles)
            && (Ticks(es) < cycles ==>
                  p in u.waiting && p in u.pcbs && u.pcbs[p].status == Waiting && u.pcbs[p].call.Sleep?)
            && (Ticks(es) == cycles - 1 ==>
                  var u' := Step(u, Tick);
                  u'.running == p || AmongFirst(u'.ready, p, Woke(u, Tick) - 1))
  {
    hide Inv, Enabled, Step, Legal, Exec, AmongFirst, Woke;
    var e := Trap(Sleep(cycles));
    StepInv(s, e);
    SleepArms(s, cycles);
    var t := Timer(s.time + cycles, s.running);
    SleepsExactly(Step(s, e), es, t);
    ClockCounts(Step(s, e), es);
    EndInv(Step(s, e), es);
    if Ticks(es) == cycles - 1 { WakesOnTime(Exec(Step(s, e), es), t); }
  }

  // ----- sleepers of the same tick wake in the order in which they fell asleep

  /** `t` stands before `u`. */
  ghost predicate InOrder(ts: seq<Timer>, t: Timer, u: Timer) {
    exists i, j :: 0 <= i < j < |ts| && ts[i] == t && ts[j] == u
  }

  lemma InsertedOrder(ts: seq<Timer>, n: Timer, t: Timer, u: Timer)
    requires InOrder(ts, t, u)
    ensures InOrder(InsertTimer(ts, n), t, u)
  {
    var k := TimerSlot(ts, n.time);
    var r := InsertTimer(ts, n);
    var i, j :| 0 <= i < j < |ts| && ts[i] == t && ts[j] == u;
    var i', j' := if i < k then i else i + 1, if j < k then j else j + 1;
    assert r[i'] == t && r[j'] == u;
  }

  /** A new timer goes behind all that are due no later. */
  lemma InsertedLast(ts: seq<Timer>, n: Timer, t: Timer)
    requires t in ts && t.time <= n.time && SortedTimers(ts)
    ensures InOrder(InsertTimer(ts, n), t, n)
  {
    var k := TimerSlot(ts, n.time);
    var r := InsertTimer(ts, n);
    var i :| 0 <= i < |ts| && ts[i] == t;
    assert i < k && r[i] == t && r[k] == n;
  }

  lemma CallOrder(s: State, call: Call, t: Timer, u: Timer)
    requires NothingDue(s.timers, s.time) && InOrder(s.timers, t, u)
    ensures InOrder(Perform(s, call).timers, t, u)
  {
    hide InOrder;
    if call.Sleep? {
      InsertedOrder(s.timers, Timer(s.time + call.cycles, s.running), t, u);
      SleepTimers(s, call.cycles);
    } else {
      CallKeepsTimers(s, call);
    }
  }

  lemma SleepTimers(s: State, cycles: int)
    ensures SleepStep(s, cycles).timers
            == if cycles <= 0 then s.timers else InsertTimer(s.timers, Timer(s.time + cycles, s.running))
  {
    hide InsertTimer;
  }

  lemma CallKeepsTimers(s: State, call: Call)
    requires NothingDue(s.timers, s.time) && !call.Sleep?
    ensures Perform(s, call).timers == s.timers
  {
    hide SendStep, ReceiveStep, WaitStep, ExitStep, SpawnStep, CreateStep, DestroyStep, Schedule, Rotate, NothingDue;
    match call
    case Preempt => ScheduleIsRotate(s); RotateTimers(s);
    case Wait(pid, hasResult) => WaitTimers(s, pid, hasResult);
    case Exit(value) => ExitTimers(s, value);
    case Send(id, _, size) => SendTimers(s, id, size, Payload(call));
    case Receive(id, room) => ReceiveTimers(s, id, room);
    case Create(id, capacity) => CreateTimers(s, id, capacity);
    case Destroy(id) => DestroyTimers(s, id);
    case _ => SpawnTimers(s);
  }

  lemma RotateTimers(s: State)
    ensures Rotate(s).timers == s.timers
  {
  }

  lemma WaitTimers(s: State, pid: int, hasResult: bool)
    ensures WaitStep(s, pid, hasResult).timers == s.timers
  {
  }

  lemma ExitTimers(s: State, value: int)
    ensures ExitStep(s, value).timers == s.timers
  {
  }

  lemma SendTimers(s: State, id: int, size: int, data: seq<Byte>)
    ensures SendStep(s, id, size, data).timers == s.timers
  {
  }

  lemma ReceiveTimers(s: State, id: int, room: int)
    ensures ReceiveStep(s, id, room).timers == s.timers
  {
  }

  lemma CreateTimers(s: State, id: int, capacity: int)
    ensures CreateStep(s, id, capacity).timers == s.timers
  {
  }

  lemma DestroyTimers(s: State, id: int)
    ensures DestroyStep(s, id).timers == s.timers
  {
  }

  lemma SpawnTimers(s: State)
    ensures SpawnStep(s).timers == s.timers
  {
  }

  lemma DroppedOrder(ts: seq<Timer>, k: nat, t: Timer, u: Timer)
    requires k <= |ts| && InOrder(ts, t, u)
    requires forall i :: 0 <= i < k ==> ts[i] != t
    ensures InOrder(ts[k..], t, u)
  {
    var i, j :| 0 <= i < j < |ts| && ts[i] == t && ts[j] == u;
    assert ts[k..][i - k] == t && ts[k..][j - k] == u;
  }

  /** As long as both are asleep, the order of two sleepers does not change. */
  lemma OrderStep(s: State, e: Event, t: Timer, u: Timer)
    requires Inv(s) && Enabled(s, e) && InOrder(s.timers, t, u) && Step(s, e).time < t.time
    ensures InOrder(Step(s, e).timers, t, u)
  {
    hide Inv, Enabled, Perform, Schedule, InOrder, NothingDue;
    match e
    case Tick => TickOrder(s.(time := s.time + 1), t, u);
    case Trap(call) =>
      NothingIsDue(s);
      CallOrder(Issue(s, call), call, t, u);
  }

  lemma TickOrder(s: State, t: Timer, u: Timer)
    requires InOrder(s.timers, t, u) && Schedule(s).time < t.time
    ensures InOrder(Schedule(s).timers, t, u)
  {
    hide InOrder, Schedule;
    ScheduleTimers(s);
    ScheduleTime(s);
    DroppedOrder(s.timers, |Elapsed(s.timers, s.time)|, t, u);
  }

  lemma {:induction false} OrderOverRuns(s: State, es: seq<Event>, t: Timer, u: Timer)
    requires Inv(s) && Legal(s, es) && InOrder(s.timers, t, u) && Exec(s, es).time < t.time
    ensures InOrder(Exec(s, es).timers, t, u)
  {
    hide Inv, Enabled, Step, InOrder;
    if es != [] {
      var n := |es| - 1;
      LegalPrefix(s, es, n);
      RunInv(s, es, n);
      assert Enabled(Before(s, es, n), es[n]);
      ClockStep(Exec(s, es[..n]), es[n]);
      OrderOverRuns(s, es[..n], t, u);
      OrderStep(Exec(s, es[..n]), es[n], t, u);
    }
  }

  /** `p` stands before `q`. */
  ghost predicate AheadOf(line: seq<Pid>, p: Pid, q: Pid) {
    exists i, j :: 0 <= i < j < |line| && line[i] == p && line[j] == q
  }

  lemma DueOrder(ts: seq<Timer>, t: Timer, u: Timer, now: int, rest: seq<Pid>)
    requires SortedTimers(ts) && InOrder(ts, t, u) && t.time <= now && u.time <= now
    ensures AheadOf(Elapsed(ts, now) + rest, t.pid, u.pid)
  {
    var i, j :| 0 <= i < j < |ts| && ts[i] == t && ts[j] == u;
    var ws := Elapsed(ts, now);
    assert |ws| < |ts| ==> now < ts[|ws|].time;
    assert (ws + rest)[i] == t.pid && (ws + rest)[j] == u.pid;
  }

  /** Two sleepers that are due at the same tick, over every legal run up to that tick: the one
      that fell asleep first is ahead of the other in the line of those that get the processor. */
  lemma WakeInOrder(s: State, cycles: int, es: seq<Event>, t: Timer)
    requires Inv(s) && Enabled(s, Trap(Sleep(cycles))) && cycles > 0
    requires t in s.timers && t.time == s.time + cycles
    requires Legal(Step(s, Trap(Sleep(cycles))), es) && Exec(Step(s, Trap(Sleep(cycles))), es).time + 1 == t.time
    ensures var s' := Step(Exec(Step(s, Trap(Sleep(cycles))), es), Tick);
            AheadOf([s'.running] + s'.ready, t.pid, s.running)
  {
    hide Inv, Enabled, InOrder, AheadOf, SortedTimers, Step, InsertTimer;
    var e, u := Trap(Sleep(cycles)), Timer(s.time + cycles, s.running);
    var s1 := Step(s, e);
    TimersSorted(s);
    InsertedLast(s.timers, u, t);
    SleepTimersStep(s, cycles);
    StepInv(s, e);
    OrderOverRuns(s1, es, t, u);
    EndInv(s1, es);
    LineInOrder(Exec(s1, es), t, u);
  }

  lemma LineInOrder(s: State, t: Timer, u: Timer)
    requires Inv(s) && InOrder(s.timers, t, u) && t.time == u.time == s.time + 1
    ensures var s' := Step(s, Tick); AheadOf([s'.running] + s'.ready, t.pid, u.pid)
  {
    hide Inv, InOrder, AheadOf, SortedTimers, Elapsed, Step;
    TimersSorted(s);
    var line, s' := Elapsed(s.timers, s.time + 1) + s.ready, Step(s, Tick);
    DueOrder(s.timers, t, u, s.time + 1, s.ready);
    assert line != [] by { SomebodyAhead(line, t.pid, u.pid); }
    TickOutcome(s);
    assert [s'.running] + s'.ready == line + [s.running];
    LongerLine(line, [s.running], t.pid, u.pid);
  }

  lemma SleepTimersStep(s: State, cycles: int)
    requires cycles > 0
    ensures Step(s, Trap(Sleep(cycles))).timers == InsertTimer(s.timers, Timer(s.time + cycles, s.running))
  {
    hide SleepStep, InsertTimer;
    SleepTimers(Issue(s, Sleep(cycles)), cycles);
  }

  lemma SomebodyAhead(line: seq<Pid>, p: Pid, q: Pid)
    requires AheadOf(line, p, q)
    ensures line != []
  {
  }

  lemma LongerLine(line: seq<Pid>, rest: seq<Pid>, p: Pid, q: Pid)
    requires AheadOf(line, p, q)
    ensures AheadOf(line + rest, p, q)
  {
    var i, j :| 0 <= i < j < |line| && line[i] == p && line[j] == q;
    assert (line + rest)[i] == p && (line + rest)[j] == q;
  }

  lemma NotReady(s: State)
    requires Inv(s)
    ensures s.running !in s.ready && s.running in s.pcbs
  {
    PlacesApart(s);
  }

  /** The sleep call itself: after a positive number of cycles the caller is asleep until that
      many ticks later; otherwise it just goes on. */
  lemma SleepArms(s: State, cycles: int)
    requires Inv(s) && Enabled(s, Trap(Sleep(cycles)))
    ensures var s' := Step(s, Trap(Sleep(cycles)));
            if cycles > 0 then
              Timer(s.time + cycles, s.running) in s'.timers && s'.time == s.time
              && s'.running == s.ready[0] && s.running in s'.pcbs && s'.pcbs[s.running].ret == 0
            else
              s'.running == s.running && s'.timers == s.timers && s'.ready == s.ready && s'.pcbs[s.running].ret == 0
  {
    hide Inv, TimerSlot;
    NotReady(s);
    var s1 := Issue(s, Sleep(cycles));
    var t := Timer(s.time + cycles, s.running);
    var k := TimerSlot(s.timers, t.time);
    assert (s.timers[..k] + [t] + s.timers[k..])[k] == t;
  }

  /** Without another process to run, a sleep leaves its caller running while it is on the
      waiting list: the invariant is kept if and only if the sleep may be asked for. */
  lemma SleepExactly(s: State, cycles: int)
    requires Inv(s)
    ensures Inv(Step(s, Trap(Sleep(cycles)))) <==> SleepSafe(s, Trap(Sleep(cycles)))
  {
    hide Inv, SleepStep;
    IssueInv(s, Sleep(cycles));
    var s1 := Issue(s, Sleep(cycles));
    assert s1.pcbs[s1.running].call.Sleep?;
    SleepInv(s1, cycles);
  }
}
