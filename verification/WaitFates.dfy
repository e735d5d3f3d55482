/** What becomes of a blocked wait: it is answered by the exit of a process whose parent field names
    the waiting process and whose pid is the one it waits for, and by nothing else. */
module WaitFates {
  import opened Lists
  import opened KernelState
  import opened KernelSteps
  import opened KernelInvariant
  import opened ProcessInvariant
  import opened Frames
  import opened Runs
  import opened QueueSteps
  import opened FamilyTheorems
  import opened Lifetimes

  /** The process is blocked in a wait call. */
  ghost predicate InWait(s: State, p: Pid) {
    p in s.pcbs && s.pcbs[p].status == Waiting && s.pcbs[p].call.Wait?
  }

  /** The step is the exit of a process that `p` waits for and that takes `p` for its parent. */
  ghost predicate Answers(s: State, e: Event, p: Pid) {
    && e.Trap? && e.call.Exit?
    && At(s.pcbs, s.running).parent == Some(p) && WaitsFor(s.pcbs, p, s.running)
  }

  lemma WaiterAside(s: State, p: Pid)
    requires Inv(s) && InWait(s, p)
    ensures Aside(s, p) && p != s.running
    ensures forall i :: 0 <= i < |s.queues| ==> p !in s.queues[i].receivers + s.queues[i].senders
  {
    PlaceOf(s, p);
    assert !s.pcbs[p].timer by { hide OnePlace, FamilyOk; }
    WaitingIsAside(s, p);
    hide FamilyOk, TableOk, NothingDue, TimersOk, PoolsOk, OnePlace, Aside;
    forall i | 0 <= i < |s.queues| ensures p !in s.queues[i].receivers + s.queues[i].senders {
      assert QueueStatusOk(s.pcbs, s.queues[i]);
    }
  }

  lemma OnlyExits(s: State, call: Call, p: Pid)
    requires forall i :: 0 <= i < |s.queues| ==> p !in s.queues[i].receivers + s.queues[i].senders
    ensures Completes(s, call, p) ==> call.Exit? && ExitAnswers(s) && At(s.pcbs, s.running).parent == Some(p)
  {
    hide FindQueue;
    forall k | 0 <= k < |s.queues|
      ensures s.queues[k].receivers != [] ==> s.queues[k].receivers[0] != p
      ensures s.queues[k].senders != [] ==> s.queues[k].senders[0] != p
    {
      assert p !in s.queues[k].receivers + s.queues[k].senders;
    }
  }

  /** The call leaves the waiting process as it is, or it is the exit that answers. */
  lemma CallWaiter(s: State, call: Call, p: Pid)
    requires Inv(s) && InWait(s, p)
    ensures Completes(s, call, p) || Keeps(s, Perform(s, call), p)
    ensures Completes(s, call, p) ==> Answers(s, Trap(call), p)
  {
    hide Inv, Completes, Aside, Perform, Keeps;
    WaiterAside(s, p);
    OnlyExits(s, call, p);
    if !Completes(s, call, p) { PerformKeeps(s, call, p); }
  }

  lemma IssuedAnswers(s: State, call: Call, p: Pid)
    requires Inv(s) && InWait(s, p) && p != s.running
    ensures Answers(Issue(s, call), Trap(call), p) <==> Answers(s, Trap(call), p)
    ensures InWait(Issue(s, call), p) && Issue(s, call).pcbs[p] == s.pcbs[p]
  {
    RunningRuns(s);
    hide Inv;
  }

  lemma AnsweringCall(s: State, call: Call, p: Pid)
    requires Inv(s) && Enabled(s, Trap(call)) && InWait(s, p) && Answers(s, Trap(call), p)
    ensures var s' := Perform(s, call);
            && s'.running == p && p in s'.pcbs && s'.pcbs[p].status == Running
            && s'.pcbs[p].ret == s.running && s.running !in s'.pcbs
            && (s.pcbs[p].call.hasResult ==> s'.pcbs[p].result == call.value)
  {
    ExitingCaller(s);
    AnsweringExitPcbs(s, p, call.value);
    hide Inv, Exits;
    assert WaitsFor(Orphaned(s.pcbs, s.running, call.value), p, s.running);
  }

  /** A step ends a wait if and only if it is such an exit; then the waiting process runs on with
      the pid and the exit value. Every other step leaves it frozen. */
  lemma WaitFate(s: State, e: Event, p: Pid)
    requires Inv(s) && Enabled(s, e) && InWait(s, p)
    ensures Keeps(s, Step(s, e), p) <==> !Answers(s, e, p)
    ensures Answers(s, e, p) ==>
              var s' := Step(s, e);
              && s'.running == p && p in s'.pcbs && s'.pcbs[p].status == Running
              && s'.pcbs[p].ret == s.running && s.running !in s'.pcbs
              && (s.pcbs[p].call.hasResult ==> s'.pcbs[p].result == e.call.value)
  {
    hide Inv, Enabled, Perform, Aside, Answers, Completes;
    WaiterAside(s, p);
    match e
    case Tick =>
      TickKeeps(s, p);
      TickAnswers(s, p);
    case Trap(call) =>
      IssueInv(s, call);
      IssueEnabled(s, call);
      IssuedAnswers(s, call, p);
      CallWaiter(Issue(s, call), call, p);
      if Answers(s, e, p) { AnsweringCall(Issue(s, call), call, p); }
  }

  lemma TickAnswers(s: State, p: Pid)
    ensures !Answers(s, Tick, p)
  {
  }

  /** Over every legal run a process blocked in wait stays blocked and frozen at every point if and
      only if no such exit occurs. */
  lemma WaitsExactly(s: State, es: seq<Event>, p: Pid)
    requires Inv(s) && Legal(s, es) && InWait(s, p)
    ensures (forall j :: 0 <= j <= |es| ==> Keeps(s, Before(s, es, j), p))
            <==> (forall k :: 0 <= k < |es| ==> !Answers(Before(s, es, k), es[k], p))
  {
    hide Inv, Enabled, Step, Answers, Legal;
    forall t, e | Inv(t) && Enabled(t, e) && Keeps(s, t, p) ensures Keeps(s, Step(t, e), p) <==> !Answers(t, e, p) {
      WaitFate(t, e, p);
    }
    StaysExactly(s, es, t => Keeps(s, t, p), (t, e) => Answers(t, e, p));
  }

  // ----- wait for a pid

  /** No live process of that pid takes `p` for its parent. */
  ghost predicate Stranger(m: Processes, p: Pid, pid: int) {
    forall c :: c in m && c == pid ==> m[c].parent != Some(p)
  }

  /** Unless `p` spawns or forks, nobody becomes its child. */
  lemma StrangerStep(s: State, e: Event, p: Pid, pid: int)
    requires Inv(s) && Enabled(s, e) && Stranger(s.pcbs, p, pid)
    requires p != s.running || (e != Trap(Spawn) && e != Trap(Fork))
    ensures Stranger(Step(s, e).pcbs, p, pid)
  {
    RunningRuns(s);
    hide Inv, Enabled, Step;
    var s' := Step(s, e);
    forall c | c in s'.pcbs && c == pid ensures s'.pcbs[c].parent != Some(p) {
      if c in s.pcbs {
        CallsKept(s, e, c);
      } else {
        NewPid(s, e, c);
        NewChild(s, e, c);
      }
    }
  }

  /** A process blocked in a wait for a pid that no live child of its own has - be it that there is
      no such process, that it has another parent, or that it was adopted - is blocked for ever. */
  lemma {:induction false} NeverAnswered(s: State, es: seq<Event>, p: Pid)
    requires Inv(s) && Legal(s, es) && InWait(s, p)
    requires s.pcbs[p].call.pid != 0 && Stranger(s.pcbs, p, s.pcbs[p].call.pid)
    ensures Keeps(s, Exec(s, es), p) && Stranger(Exec(s, es).pcbs, p, s.pcbs[p].call.pid)
  {
    hide Inv, Enabled, Step;
    if es != [] {
      var n := |es| - 1;
      LegalPrefix(s, es, n);
      NeverAnswered(s, es[..n], p);
      hide Exec, Stranger;
      RunInv(s, es, n);
      BeforeStep(s, es, n);
      assert es[..n + 1] == es;
      var t := Before(s, es, n);
      assert Enabled(t, es[n]);
      StrangersExit(t, es[n], p);
      WaitFate(t, es[n], p);
      hide Answers;
      WaiterAside(t, p);
      StrangerStep(t, es[n], p, s.pcbs[p].call.pid);
    }
  }

  lemma StrangersExit(s: State, e: Event, p: Pid)
    requires Inv(s) && InWait(s, p) && s.pcbs[p].call.pid != 0 && Stranger(s.pcbs, p, s.pcbs[p].call.pid)
    ensures !Answers(s, e, p)
  {
    RunningRuns(s);
    hide Inv;
  }

  lemma {:induction false} AwaitedIsChild(m: Processes, cs: seq<Pid>, pid: int)
    requires cs != [] && pid != 0
    ensures Awaited(m, cs, pid) == pid <==> exists c :: c in cs && c == pid
  {
    assert cs == [cs[0]] + cs[1..];
    if !Matches(m, cs[0], pid) && |cs| > 1 {
      AwaitedIsChild(m, cs[1..], pid);
    }
  }

  lemma WaitOutcome(s: State, pid: int, hasResult: bool)
    requires Inv(s) && pid != 0 && s.pcbs[s.running].children != [] && (WaitBlocks(s, pid) ==> s.ready != [])
    ensures var p, s' := s.running, Step(s, Trap(Wait(pid, hasResult)));
            && p in s'.pcbs && s'.pcbs[p].call == Wait(pid, hasResult)
            && if WaitBlocks(s, pid) then InWait(s', p)
               else
                 && s'.running == p && s'.pcbs[p].ret in s.pcbs[p].children
                 && (s'.pcbs[p].ret == pid <==> exists c :: c in s.pcbs[p].children && c == pid)
  {
    var call := Wait(pid, hasResult);
    var s1 := Issue(s, call);
    hide Inv, WaitStep, WaitBlocks;
    RunningRuns(s);
    IssueInv(s, call);
    IssueWait(s, call, pid);
    NotOwnChild(s1);
    PlacesApart(s1);
    if WaitBlocks(s, pid) { WaitParks(s1, pid, hasResult); } else { WaitCollects(s1, pid, hasResult); }
  }

  lemma WaitParks(s: State, pid: int, hasResult: bool)
    requires s.running in s.pcbs && s.running !in s.ready && s.ready != []
    requires WaitBlocks(s, pid) && s.pcbs[s.running].call.Wait?
    ensures var p, s' := s.running, WaitStep(s, pid, hasResult);
            InWait(s', p) && s'.pcbs[p].call == s.pcbs[p].call
  {
  }

  lemma WaitCollects(s: State, pid: int, hasResult: bool)
    requires s.running in s.pcbs && !WaitBlocks(s, pid) && pid != 0
    requires s.pcbs[s.running].children != [] && !Holds(s.pcbs, s.running, s.running)
    ensures var p, s' := s.running, WaitStep(s, pid, hasResult);
            && s'.running == p && p in s'.pcbs && s'.pcbs[p].call == s.pcbs[p].call
            && s'.pcbs[p].ret in s.pcbs[p].children
            && (s'.pcbs[p].ret == pid <==> exists c :: c in s.pcbs[p].children && c == pid)
  {
    AwaitedIsChild(s.pcbs, s.pcbs[s.running].children, pid);
  }

  /** A wait for a pid other than 0, called by a process that has children. If it returns at once, it
      has collected one of them, and that is the one asked for if and only if the pid is a child's:
      otherwise it is the last child. If it blocks, it is for good unless a live child has the pid. */
  lemma WaitReports(s: State, pid: int, hasResult: bool, es: seq<Event>)
    requires Inv(s) && Enabled(s, Trap(Wait(pid, hasResult))) && pid != 0 && s.pcbs[s.running].children != []
    requires Legal(Step(s, Trap(Wait(pid, hasResult))), es)
    ensures var p, s' := s.running, Step(s, Trap(Wait(pid, hasResult)));
            var s'' := Exec(s', es);
            && p in s'.pcbs
            && if WaitBlocks(s, pid) then
                 && InWait(s', p) && s'.pcbs[p].call == Wait(pid, hasResult)
                 && (Stranger(s.pcbs, p, pid) ==> Keeps(s', s'', p))
               else
                 && s'.running == p && s'.pcbs[p].ret in s.pcbs[p].children
                 && (s'.pcbs[p].ret == pid <==> exists c :: c in s.pcbs[p].children && c == pid)
  {
    var e := Trap(Wait(pid, hasResult));
    assert WaitBlocks(s, pid) ==> s.ready != [];
    hide Inv, Enabled, Step, Legal, Exec;
    StepInv(s, e);
    WaitOutcome(s, pid, hasResult);
    if WaitBlocks(s, pid) && Stranger(s.pcbs, s.running, pid) {
      StrangerStep(s, e, s.running, pid);
      NeverAnswered(Step(s, e), es, s.running);
    }
  }

  // ----- nobody to run next

  lemma RunningInv(s: State)
    requires s.running in s.pcbs && s.pcbs[s.running].status != Running
    ensures !Inv(s)
  {
  }

  /** A wait keeps the invariant if and only if it does not block, or somebody else can run. */
  lemma WaitExactly(s: State, pid: int, hasResult: bool)
    requires Inv(s)
    ensures Inv(Step(s, Trap(Wait(pid, hasResult)))) <==> Demands(s, Trap(Wait(pid, hasResult)))
  {
    hide Inv, WaitBlocks, WaitStep;
    RunningRuns(s);
    var e := Trap(Wait(pid, hasResult));
    if Demands(s, e) {
      StepInv(s, e);
    } else {
      IssueWait(s, e.call, pid);
      IdleWait(Issue(s, e.call), pid, hasResult);
      RunningInv(Step(s, e));
    }
  }

  lemma IdleWait(s: State, pid: int, hasResult: bool)
    requires s.running in s.pcbs && WaitBlocks(s, pid) && s.ready == []
    ensures var s' := WaitStep(s, pid, hasResult);
            s'.running in s'.pcbs && s'.pcbs[s'.running].status == Waiting
  {
  }

  /** The exit of a process other than init keeps the invariant if and only if it answers its parent,
      or somebody else can run. */
  lemma ExitExactly(s: State, value: int)
    requires Inv(s) && s.running != INIT
    ensures Inv(Step(s, Trap(Exit(value)))) <==> ExitAnswers(s) || s.ready != []
  {
    hide Inv, ExitAnswers, ExitStep, Issue;
    var call := Exit(value);
    HasParent(s);
    RunningRuns(s);
    IssueInv(s, call);
    IssueParent(s, call);
    IssuedPlaces(s, call);
    RunningRuns(Issue(s, call));
    if ExitAnswers(s) || s.ready != [] {
      ExitInv(Issue(s, call), value);
    } else {
      IdleExit(Issue(s, call), value);
      RunningInv(Step(s, Trap(call)));
    }
  }

  lemma IssuedPlaces(s: State, call: Call)
    ensures Issue(s, call).running == s.running && Issue(s, call).ready == s.ready
  {
  }

  lemma HasParent(s: State)
    requires Inv(s) && s.running != INIT
    ensures s.pcbs[s.running].parent.Some?
  {
    assert ParentOk(s.pcbs, s.running);
  }

  lemma IdleExit(s: State, value: int)
    requires Inv(s) && s.running != INIT && s.pcbs[s.running].parent.Some? && !ExitAnswers(s) && s.ready == []
    ensures var s' := ExitStep(s, value);
            s'.running in s'.pcbs && s'.pcbs[s'.running].status == Zombie
  {
    OrphanedNotAnswered(s, s.pcbs[s.running].parent.value, value);
    hide Inv;
  }
}
