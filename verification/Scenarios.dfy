/** Concrete runs from boot in which the conditions of the exact theorems are not met, so none of
    those theorems is about cases that never come up. */
module Scenarios {
  import opened Lists
  import opened KernelState
  import opened KernelSteps
  import opened ProcessInvariant
  import opened Runs
  import opened QueueSteps
  import opened QueueTheorems
  import opened MessageAuthors
  import opened SchedulingTheorems
  import opened FamilyTheorems
  import opened Lifetimes
  import opened WaitFates
  import opened Whole
  import D = Descriptors

  const P0 := NEW_PCB.(status := Running)

  // ----- FIFO order is lost

  // A run, event by event: process 0 fills queue 1, which has room for one message, spawns
  // process 1 and blocks in a second send; process 1 drops the message with a short receive
  // and sends one of its own.
  const CREATE1 := Trap(Create(1, 1))
  const SEND_FIRST := Trap(Send(1, [1, 1], 2))
  const SPAWN1 := Trap(Spawn)
  const SEND_BLOCKED := Trap(Send(1, [2], 1))
  const SHORT_RECEIVE := Trap(Receive(1, 1))
  const SEND_LATE := Trap(Send(1, [3], 1))

  const Q1 := MessageQueue(1, 1, 0, Open, [], [], [])

  const CREATED: State :=
    BOOT.(queues := [Q1], pools := BOOT.pools.(queues := MAX_MESSAGE_QUEUES - 1),
          pcbs := map[0 := P0.(call := CREATE1.call, ret := 1)])

  const FILLED: State :=
    CREATED.(queues := [Q1.(current := 1, messages := [Message([1, 1], 0)])],
             pools := CREATED.pools.(messages := MAX_MESSAGES - 1),
             pcbs := map[0 := P0.(call := SEND_FIRST.call, ret := 0)])

  const SPAWNED: State :=
    FILLED.(lastPid := 2, ready := [1],
            pools := FILLED.pools.(pcbs := MAX_NUM_PROCESSES - 2, refs := MAX_NUM_PROCESSES - 1),
            pcbs := map[0 := P0.(call := Spawn, children := [1], ret := 1), 1 := NEW_PCB.(parent := Some(0))])

  const BLOCKED: State :=
    SPAWNED.(running := 1, ready := [],
             queues := [Q1.(current := 1, messages := [Message([1, 1], 0)], senders := [0])],
             pcbs := map[0 := P0.(status := Waiting, call := SEND_BLOCKED.call, children := [1], ret := 1),
                         1 := P0.(parent := Some(0))])

  const DROPPED: State :=
    BLOCKED.(queues := [Q1.(senders := [0])], pools := SPAWNED.pools.(messages := MAX_MESSAGES),
             pcbs := BLOCKED.pcbs[1 := P0.(parent := Some(0), call := SHORT_RECEIVE.call, ret := EBUFFER)])

  lemma StepCreated()
    ensures Step(BOOT, CREATE1) == CREATED
  {
  }

  lemma StepFilled()
    ensures Step(CREATED, SEND_FIRST) == FILLED
  {
    var s := Step(CREATED, SEND_FIRST);
    assert Payload(SEND_FIRST.call) == [1, 1];
    assert FindQueue(CREATED.queues, 1) == 0;
    assert s.queues[0].messages == [Message([1, 1], 0)];
    assert s.queues == FILLED.queues;
    assert s.pcbs == FILLED.pcbs;
  }

  lemma StepSpawned()
    ensures Step(FILLED, SPAWN1) == SPAWNED
  {
    var s := Step(FILLED, SPAWN1);
    assert s.ready == [1] && s.pcbs[0].children == [1];
    assert s.pcbs == SPAWNED.pcbs;
  }

  lemma StepBlocked()
    ensures Step(SPAWNED, SEND_BLOCKED) == BLOCKED
  {
    var s := Step(SPAWNED, SEND_BLOCKED);
    assert FindQueue(SPAWNED.queues, 1) == 0;
    assert s.queues[0].senders == [0];
    assert s.queues == BLOCKED.queues;
    assert s.ready == [];
    assert s.pcbs == BLOCKED.pcbs;
  }

  lemma StepDropped()
    ensures Step(BLOCKED, SHORT_RECEIVE) == DROPPED && ShortDrop(BLOCKED, SHORT_RECEIVE)
  {
    var s := Step(BLOCKED, SHORT_RECEIVE);
    assert FindQueue(BLOCKED.queues, 1) == 0;
    assert s.queues[0].messages == [];
    assert s.queues == DROPPED.queues;
    assert s.pcbs == DROPPED.pcbs;
  }

  lemma StepOvertakes()
    ensures Overtakes(DROPPED, SEND_LATE, 1)
  {
    var w := Pending(DROPPED.pcbs, [0]);
    assert w[0] == [2] && w[0] in w;
    assert Payload(SEND_LATE.call) == [3];
  }

  const OVERTAKING_RUN: seq<Event> :=
    [CREATE1, SEND_FIRST, SPAWN1, SEND_BLOCKED, SHORT_RECEIVE, SEND_LATE]

  lemma OvertakingSteps()
    ensures Enabled(BOOT, CREATE1) && Enabled(CREATED, SEND_FIRST) && Enabled(FILLED, SPAWN1)
    ensures Enabled(SPAWNED, SEND_BLOCKED) && Enabled(BLOCKED, SHORT_RECEIVE) && Enabled(DROPPED, SEND_LATE)
  {
  }

  /** A short receive while a sender is blocked breaks FIFO order: this run is legal, and at
      its end the message [3] is stored although [2] was sent before it and still waits. */
  lemma FifoCanFail()
    ensures Legal(BOOT, OVERTAKING_RUN)
    ensures exists k :: 0 <= k <= |OVERTAKING_RUN| && !Fifo(OVERTAKING_RUN[..k], 1)
    ensures ShortDrop(Before(BOOT, OVERTAKING_RUN, 4), OVERTAKING_RUN[4])
  {
    hide Step, Enabled, Overtakes, Fifo, ShortDrop;
    StepCreated();
    StepFilled();
    StepSpawned();
    StepBlocked();
    StepDropped();
    StepOvertakes();
    OvertakingSteps();
    var es := OVERTAKING_RUN;
    Advance(es, 0, BOOT, CREATED);
    Advance(es, 1, CREATED, FILLED);
    Advance(es, 2, FILLED, SPAWNED);
    Advance(es, 3, SPAWNED, BLOCKED);
    Advance(es, 4, BLOCKED, DROPPED);
    Advance(es, 5, DROPPED, Step(DROPPED, SEND_LATE));
    assert es[..6] == es;
    FifoExactly(es, 1);
  }

  // ----- a message names the wrong sender

  // The same run up to the blocked send of process 0; then process 1 receives.
  const GOOD_RECEIVE := Trap(Receive(1, 2))
  const SERVING_RUN: seq<Event> := [CREATE1, SEND_FIRST, SPAWN1, SEND_BLOCKED, GOOD_RECEIVE]

  /** After this legal run the queue stores the message that process 0 sent, under the name of
      process 1, which received another one. */
  lemma NamesCanBeWrong()
    ensures Legal(BOOT, SERVING_RUN)
    ensures Messages(Exec(BOOT, SERVING_RUN), 1) == [Message([2], 1)]
    ensures Signed(SERVING_RUN, 1) == [Message([2], 0)]
  {
    hide Step, Enabled, Signed;
    StepCreated();
    StepFilled();
    StepSpawned();
    StepBlocked();
    StepServes();
    OvertakingSteps();
    var es := SERVING_RUN;
    Advance(es, 0, BOOT, CREATED);
    Advance(es, 1, CREATED, FILLED);
    Advance(es, 2, FILLED, SPAWNED);
    Advance(es, 3, SPAWNED, BLOCKED);
    Advance(es, 4, BLOCKED, Step(BLOCKED, GOOD_RECEIVE));
    assert es[..5] == es;
    assert Exec(BOOT, es[..0]) == BOOT;
    ServingAccount();
  }

  lemma StepServes()
    ensures Enabled(BLOCKED, GOOD_RECEIVE) && Messages(Step(BLOCKED, GOOD_RECEIVE), 1) == [Message([2], 1)]
  {
    var s := Step(BLOCKED, GOOD_RECEIVE);
    assert FindQueue(BLOCKED.queues, 1) == 0;
    assert Payload(SEND_BLOCKED.call) == [2];
    assert s.queues[0].messages == [Message([2], 1)];
  }

  lemma SignedNext(es: seq<Event>, k: nat, s: State, t: State, id: int)
    requires k < |es| && Exec(BOOT, es[..k]) == s && Exec(BOOT, es[..k + 1]) == t && QueueAt(t, id).Some?
    ensures Signed(es[..k + 1], id) == Updated(Signed(es[..k], id), s, es[k], id, FirstSender(s, id))
  {
    assert es[..k + 1][..k] == es[..k];
    hide Updated, Exec;
  }

  /** The account up to the last step, which serves process 0. */
  lemma ServingAccount()
    requires var es := SERVING_RUN;
             && Exec(BOOT, es[..0]) == BOOT && Exec(BOOT, es[..1]) == CREATED && Exec(BOOT, es[..2]) == FILLED
             && Exec(BOOT, es[..3]) == SPAWNED && Exec(BOOT, es[..4]) == BLOCKED
             && es[..5] == es && QueueAt(Exec(BOOT, es), 1).Some?
    ensures Signed(SERVING_RUN, 1) == [Message([2], 0)]
  {
    hide Exec, Signed, Updated;
    var es := SERVING_RUN;
    SignedNext(es, 0, BOOT, CREATED, 1);
    SignedNext(es, 1, CREATED, FILLED, 1);
    SignedNext(es, 2, FILLED, SPAWNED, 1);
    SignedNext(es, 3, SPAWNED, BLOCKED, 1);
    SignedNext(es, 4, BLOCKED, Exec(BOOT, es), 1);
    assert Signed(es[..0], 1) == [] by { NothingSigned(); }
    AccountFills();
    AccountServes();
  }

  lemma NothingSigned()
    ensures Signed([], 1) == []
  {
  }

  lemma AccountFills()
    ensures Updated([], BOOT, CREATE1, 1, FirstSender(BOOT, 1)) == []
    ensures Updated([], CREATED, SEND_FIRST, 1, FirstSender(CREATED, 1)) == [Message([1, 1], 0)]
  {
    assert Payload(SEND_FIRST.call) == [1, 1];
  }

  lemma AccountServes()
    ensures var ms := [Message([1, 1], 0)];
            && Updated(ms, FILLED, SPAWN1, 1, FirstSender(FILLED, 1)) == ms
            && Updated(ms, SPAWNED, SEND_BLOCKED, 1, FirstSender(SPAWNED, 1)) == ms
            && Updated(ms, BLOCKED, GOOD_RECEIVE, 1, FirstSender(BLOCKED, 1)) == [Message([2], 0)]
  {
    assert Payload(SEND_BLOCKED.call) == [2];
    assert FirstSender(BLOCKED, 1) == 0;
  }

  // ----- an exit is missed

  // Process 0 spawns 1 and lets it run; 1 spawns 2 and 3 and exits, which hands both to process 0;
  // process 0 blocks in a wait for 2, whose PCB still names 1 as its parent; 2 exits.
  const SPAWN_FIRST := Trap(Spawn)
  const YIELD := Trap(Preempt)
  const EXIT_PARENT := Trap(Exit(0))
  const WAIT_FOR_2 := Trap(Wait(2, false))
  const EXIT_CHILD := Trap(Exit(0))

  const CHILD0 := NEW_PCB.(parent := Some(0))
  const CHILD1 := NEW_PCB.(parent := Some(1))

  const HAS_CHILD: State :=
    BOOT.(lastPid := 2, ready := [1],
          pools := BOOT.pools.(pcbs := MAX_NUM_PROCESSES - 2, refs := MAX_NUM_PROCESSES - 1),
          pcbs := map[0 := P0.(call := Spawn, children := [1], ret := 1), 1 := CHILD0])

  const CHILD_RUNS: State :=
    HAS_CHILD.(running := 1, ready := [0],
               pcbs := map[0 := P0.(status := Ready, call := Preempt, children := [1], ret := 1),
                           1 := CHILD0.(status := Running)])

  const HAS_GRANDCHILD: State :=
    CHILD_RUNS.(lastPid := 3, ready := [0, 2],
                pools := BOOT.pools.(pcbs := MAX_NUM_PROCESSES - 3, refs := MAX_NUM_PROCESSES - 2),
                pcbs := map[0 := CHILD_RUNS.pcbs[0],
                            1 := CHILD0.(status := Running, call := Spawn, children := [2], ret := 2),
                            2 := CHILD1])

  const HAS_GRANDCHILDREN: State :=
    HAS_GRANDCHILD.(lastPid := 4, ready := [0, 2, 3],
                    pools := BOOT.pools.(pcbs := MAX_NUM_PROCESSES - 4, refs := MAX_NUM_PROCESSES - 3),
                    pcbs := map[0 := CHILD_RUNS.pcbs[0],
                                1 := CHILD0.(status := Running, call := Spawn, children := [2, 3], ret := 3),
                                2 := CHILD1, 3 := CHILD1])

  const ADOPTED: State :=
    HAS_GRANDCHILDREN.(running := 0, ready := [2, 3], zombie := [1],
                       pcbs := map[0 := P0.(call := Preempt, children := [1, 2, 3], ret := 1),
                                   1 := CHILD0.(status := Zombie, call := Exit(0), ret := 3),
                                   2 := CHILD1, 3 := CHILD1])

  const INIT_WAITS: State :=
    ADOPTED.(running := 2, ready := [3], waiting := [0],
             pcbs := map[0 := P0.(status := Waiting, call := Wait(2, false), children := [1, 2, 3], ret := 1),
                         1 := ADOPTED.pcbs[1],
                         2 := CHILD1.(status := Running), 3 := CHILD1])

  lemma StepHasChild()
    ensures Step(BOOT, SPAWN_FIRST) == HAS_CHILD
  {
    var s := Step(BOOT, SPAWN_FIRST);
    assert s.ready == [1] && s.pcbs[0].children == [1];
    assert s.pcbs == HAS_CHILD.pcbs;
  }

  lemma StepChildRuns()
    ensures Step(HAS_CHILD, YIELD) == CHILD_RUNS
  {
    hide Schedule;
    var s1 := Issue(HAS_CHILD, Preempt);
    ScheduleIsRotate(s1);
    assert ([1] + [0])[1..] == [0];
    assert Rotate(s1).ready == [0] && Rotate(s1).pcbs == CHILD_RUNS.pcbs;
  }

  lemma StepHasGrandchild()
    ensures Step(CHILD_RUNS, SPAWN_FIRST) == HAS_GRANDCHILD
  {
    var s := Step(CHILD_RUNS, SPAWN_FIRST);
    assert s.ready == [0, 2] && s.pcbs[1].children == [2];
    assert s.pcbs == HAS_GRANDCHILD.pcbs;
  }

  lemma StepHasGrandchildren()
    ensures Step(HAS_GRANDCHILD, SPAWN_FIRST) == HAS_GRANDCHILDREN
  {
    var s := Step(HAS_GRANDCHILD, SPAWN_FIRST);
    assert s.ready == [0, 2, 3] && s.pcbs[1].children == [2, 3];
    assert s.pcbs == HAS_GRANDCHILDREN.pcbs;
  }

  const HANDED_OVER: Processes :=
    map[0 := CHILD_RUNS.pcbs[0].(children := [1, 2, 3]), 1 := ADOPTED.pcbs[1], 2 := CHILD1, 3 := CHILD1]

  lemma HandsOver()
    ensures Orphaned(Issue(HAS_GRANDCHILDREN, EXIT_PARENT.call).pcbs, 1, 0) == HANDED_OVER
  {
    var m := Orphaned(Issue(HAS_GRANDCHILDREN, EXIT_PARENT.call).pcbs, 1, 0);
    assert [1] + [2, 3] == [1, 2, 3];
    assert m[0] == HANDED_OVER[0] && m[1] == HANDED_OVER[1];
  }

  lemma NextRuns(m: Processes)
    requires m == HANDED_OVER
    ensures Switch(HAS_GRANDCHILDREN.(zombie := [1], pcbs := m)) == ADOPTED
  {
    assert SetStatus(m, 0, Running) == ADOPTED.pcbs;
  }

  lemma StepAdopted()
    ensures Step(HAS_GRANDCHILDREN, EXIT_PARENT) == ADOPTED
  {
    hide Orphaned, Switch;
    var s1 := Issue(HAS_GRANDCHILDREN, EXIT_PARENT.call);
    HandsOver();
    var m := Orphaned(s1.pcbs, 1, 0);
    assert m[0].status == Ready && !WaitsFor(m, 0, 1);
    assert [] + [1] == [1];
    assert Step(HAS_GRANDCHILDREN, EXIT_PARENT) == Switch(s1.(zombie := [1], pcbs := m));
    NextRuns(m);
  }

  lemma AwaitedIs2(m: Processes)
    ensures Awaited(m, [1, 2, 3], 2) == 2
  {
    assert [1, 2, 3][1..] == [2, 3];
  }

  lemma GrandchildRuns(m: Processes)
    requires m == INIT_PARKED
    ensures Switch(ADOPTED.(waiting := [0], pcbs := m)) == INIT_WAITS
  {
    assert SetStatus(m, 2, Running) == INIT_WAITS.pcbs;
  }

  lemma StepInitWaits()
    ensures Step(ADOPTED, WAIT_FOR_2) == INIT_WAITS && WaitBlocks(ADOPTED, 2)
  {
    hide WaitStep, WaitBlocks, Issue;
    WaitBlocksFor2();
    WaitStepFor2();
  }

  lemma WaitStepFor2()
    ensures WaitStep(Issue(ADOPTED, WAIT_FOR_2.call), 2, false) == INIT_WAITS
  {
    hide Switch, WaitStep, SetStatus, Issue;
    var s1 := Issue(ADOPTED, WAIT_FOR_2.call);
    InitBlocks(s1);
    InitParks();
    GrandchildRuns(INIT_PARKED);
    assert s1.(waiting := [0], pcbs := INIT_PARKED) == ADOPTED.(waiting := [0], pcbs := INIT_PARKED) by {
      IssuedParts(ADOPTED, WAIT_FOR_2.call);
    }
  }

  const INIT_PARKED: Processes := map[0 := INIT_WAITS.pcbs[0], 1 := ADOPTED.pcbs[1], 2 := CHILD1, 3 := CHILD1]

  lemma InitParks()
    ensures SetStatus(Issue(ADOPTED, WAIT_FOR_2.call).pcbs, 0, Waiting) == INIT_PARKED
  {
  }

  lemma WaitBlocksFor2()
    ensures WaitBlocks(ADOPTED, 2)
  {
    AwaitedIs2(ADOPTED.pcbs);
  }

  lemma IssuedParts(s: State, call: Call)
    ensures Issue(s, call) == s.(pcbs := Issue(s, call).pcbs)
  {
  }

  lemma InitBlocks(s: State)
    requires s == Issue(ADOPTED, WAIT_FOR_2.call)
    ensures WaitStep(s, 2, false) == Switch(s.(waiting := [0], pcbs := SetStatus(s.pcbs, 0, Waiting)))
  {
    hide Awaited, Switch;
    AwaitedIs2(s.pcbs);
    assert [] + [0] == [0];
  }

  lemma StepMisses()
    ensures Misses(INIT_WAITS, EXIT_CHILD) && Enabled(INIT_WAITS, EXIT_CHILD)
  {
    assert INIT_WAITS.pcbs[0].children[1] == 2;
    assert WaitsFor(INIT_WAITS.pcbs, INIT, 2) && Holds(INIT_WAITS.pcbs, INIT, 2);
  }

  const MISSING_RUN: seq<Event> :=
    [SPAWN_FIRST, YIELD, SPAWN_FIRST, SPAWN_FIRST, EXIT_PARENT, WAIT_FOR_2, EXIT_CHILD]

  lemma MissingSteps()
    ensures Enabled(BOOT, SPAWN_FIRST) && Enabled(HAS_CHILD, YIELD) && Enabled(CHILD_RUNS, SPAWN_FIRST)
    ensures Enabled(HAS_GRANDCHILD, SPAWN_FIRST) && Enabled(HAS_GRANDCHILDREN, EXIT_PARENT)
    ensures Enabled(ADOPTED, WAIT_FOR_2)
  {
    hide Awaited;
    AwaitedIs2(ADOPTED.pcbs);
  }

  /** A wait can miss an exit: this run is legal, and at its end process 0 is blocked in a wait
      for process 2, which is a zombie in its children list. */
  lemma ExitCanBeMissed()
    ensures Legal(BOOT, MISSING_RUN)
    ensures exists k :: 0 <= k <= |MISSING_RUN| && !NoMissedExit(Before(BOOT, MISSING_RUN, k).pcbs)
  {
    hide Step, Enabled, Misses, NoMissedExit, WaitBlocks;
    StepHasChild();
    StepChildRuns();
    StepHasGrandchild();
    StepHasGrandchildren();
    StepAdopted();
    StepInitWaits();
    StepMisses();
    MissingSteps();
    var es := MISSING_RUN;
    Advance(es, 0, BOOT, HAS_CHILD);
    Advance(es, 1, HAS_CHILD, CHILD_RUNS);
    Advance(es, 2, CHILD_RUNS, HAS_GRANDCHILD);
    Advance(es, 3, HAS_GRANDCHILD, HAS_GRANDCHILDREN);
    Advance(es, 4, HAS_GRANDCHILDREN, ADOPTED);
    Advance(es, 5, ADOPTED, INIT_WAITS);
    Advance(es, 6, INIT_WAITS, Step(INIT_WAITS, EXIT_CHILD));
    assert es[..7] == es;
    MissesExactly(es);
  }

  // ----- sleep in an idle system

  /** Right after booting a sleep of one cycle breaks the invariant. */
  lemma SleepCanBreak()
    ensures Inv(BOOT) && Demands(BOOT, Trap(Sleep(1))) && !Inv(Step(BOOT, Trap(Sleep(1))))
  {
    hide Inv;
    BootInv();
    SleepExactly(BOOT, 1);
  }

  // ----- a child reference is lost

  const WAIT_ANY := Trap(Wait(0, false))

  const PARENT_WAITS: State :=
    HAS_CHILD.(running := 1, ready := [], waiting := [0],
               pcbs := map[0 := P0.(status := Waiting, call := Wait(0, false), children := [1], ret := 1),
                           1 := CHILD0.(status := Running)])

  lemma StepParentWaits()
    ensures Step(HAS_CHILD, WAIT_ANY) == PARENT_WAITS
  {
    var s := Step(HAS_CHILD, WAIT_ANY);
    assert Awaited(Issue(HAS_CHILD, WAIT_ANY.call).pcbs, [1], 0) == 1;
    assert s.ready == [] && s.waiting == [0];
    assert s.pcbs == PARENT_WAITS.pcbs;
  }

  const LEAKING_RUN: seq<Event> := [SPAWN_FIRST, WAIT_ANY, EXIT_CHILD]

  lemma LeakingSteps()
    ensures Enabled(BOOT, SPAWN_FIRST) && Leak(BOOT, SPAWN_FIRST) == 0
    ensures Enabled(HAS_CHILD, WAIT_ANY) && Leak(HAS_CHILD, WAIT_ANY) == 0
    ensures Enabled(PARENT_WAITS, EXIT_CHILD) && Leak(PARENT_WAITS, EXIT_CHILD) == 1
  {
  }

  /** Spawn, wait, exit of the child: one process is left, as after boot, but one child
      reference is gone. */
  lemma ReferenceCanLeak()
    ensures Legal(BOOT, LEAKING_RUN) && Leaks(BOOT, LEAKING_RUN) == 1
    ensures Exec(BOOT, LEAKING_RUN).pools.refs == MAX_NUM_PROCESSES - 1
  {
    hide Step, Enabled, Leak;
    StepHasChild();
    StepParentWaits();
    LeakingSteps();
    var es := LEAKING_RUN;
    Advance(es, 0, BOOT, HAS_CHILD);
    Advance(es, 1, HAS_CHILD, PARENT_WAITS);
    Advance(es, 2, PARENT_WAITS, Step(PARENT_WAITS, EXIT_CHILD));
    assert es[..3] == es && es[..2][..1] == es[..1];
    assert Leaks(BOOT, es[..1]) == Leaks(BOOT, []) + Leak(BOOT, es[0]);
    assert Leaks(BOOT, es[..2]) == Leaks(BOOT, es[..1]) + Leak(HAS_CHILD, es[1]);
    assert Leaks(BOOT, es) == Leaks(BOOT, es[..2]) + Leak(PARENT_WAITS, es[2]);
    ReferencesLeak(es);
    ParentCollects();
  }

  lemma ParentCollects()
    ensures Step(PARENT_WAITS, EXIT_CHILD).pools.pcbs == MAX_NUM_PROCESSES - 1
  {
  }

  // Rounds of spawn, wait, and exit of the child, each of which leaves process 0 alone again.
  const ROUND: seq<Event> := [SPAWN_FIRST, WAIT_ANY, EXIT_CHILD]

  function Rounds(n: nat): seq<Event> {
    if n == 0 then [] else Rounds(n - 1) + ROUND
  }

  /** Process 0 alone, after `n` such rounds. */
  function AfterRounds(n: nat): State {
    BOOT.(lastPid := n + 1, pools := BOOT.pools.(refs := MAX_NUM_PROCESSES - n),
          pcbs := map[0 := if n == 0 then P0 else P0.(call := WAIT_ANY.call, ret := n)])
  }

  function InRound(n: nat): State {
    BOOT.(lastPid := n + 2, ready := [n + 1],
          pools := BOOT.pools.(pcbs := MAX_NUM_PROCESSES - 2, refs := MAX_NUM_PROCESSES - n - 1),
          pcbs := map[0 := P0.(call := Spawn, children := [n + 1], ret := n + 1), n + 1 := CHILD0])
  }

  function RoundWaits(n: nat): State {
    InRound(n).(running := n + 1, ready := [], waiting := [0],
                pcbs := map[0 := P0.(status := Waiting, call := WAIT_ANY.call, children := [n + 1], ret := n + 1),
                            n + 1 := CHILD0.(status := Running)])
  }

  lemma RoundSpawns(n: nat)
    requires n < MAX_NUM_PROCESSES
    ensures Enabled(AfterRounds(n), SPAWN_FIRST) && Step(AfterRounds(n), SPAWN_FIRST) == InRound(n)
  {
    var s := Step(AfterRounds(n), SPAWN_FIRST);
    assert s.ready == [n + 1] && s.pcbs[0].children == [n + 1];
    assert s.pcbs == InRound(n).pcbs;
  }

  lemma RoundBlocks(n: nat)
    ensures Enabled(InRound(n), WAIT_ANY) && Step(InRound(n), WAIT_ANY) == RoundWaits(n)
  {
    var s := Step(InRound(n), WAIT_ANY);
    assert Awaited(Issue(InRound(n), WAIT_ANY.call).pcbs, [n + 1], 0) == n + 1;
    assert s.ready == [] && s.waiting == [0];
    assert s.pcbs == RoundWaits(n).pcbs;
  }

  lemma RoundEnds(n: nat)
    ensures Enabled(RoundWaits(n), EXIT_CHILD) && Step(RoundWaits(n), EXIT_CHILD) == AfterRounds(n + 1)
  {
    hide Orphaned, Collected;
    var s1 := Issue(RoundWaits(n), EXIT_CHILD.call);
    RoundOrphans(n);
    RoundCollects(n);
    assert WaitsFor(Orphaned(s1.pcbs, n + 1, 0), 0, n + 1);
    assert Remove([0], 0) == [];
  }

  function RoundZombie(n: nat): Processes {
    map[0 := RoundWaits(n).pcbs[0], n + 1 := CHILD0.(status := Zombie, call := EXIT_CHILD.call)]
  }

  lemma RoundOrphans(n: nat)
    ensures Orphaned(Issue(RoundWaits(n), EXIT_CHILD.call).pcbs, n + 1, 0) == RoundZombie(n)
  {
    assert [n + 1] + [] == [n + 1];
  }

  lemma RoundCollects(n: nat)
    ensures Collected(RoundZombie(n), n + 1, 0, 0) == AfterRounds(n + 1).pcbs
  {
    assert Remove([n + 1], n + 1) == [];
  }

  lemma {:induction false} RoundsRun(n: nat)
    requires n <= MAX_NUM_PROCESSES
    ensures Legal(BOOT, Rounds(n)) && Exec(BOOT, Rounds(n)) == AfterRounds(n)
  {
    hide Step, Enabled, InRound, RoundWaits;
    if n == 0 {
      assert AfterRounds(0).pcbs == BOOT.pcbs;
    } else {
      RoundsRun(n - 1);
      hide AfterRounds;
      OneMoreRound(Rounds(n - 1), n - 1);
    }
  }

  lemma OneMoreRound(front: seq<Event>, n: nat)
    requires n < MAX_NUM_PROCESSES && Legal(BOOT, front) && Exec(BOOT, front) == AfterRounds(n)
    ensures Legal(BOOT, front + ROUND) && Exec(BOOT, front + ROUND) == AfterRounds(n + 1)
  {
    hide Step, Enabled, Exec, Legal, AfterRounds, InRound, RoundWaits;
    var es, k := front + ROUND, |front|;
    assert es[..k] == front && es[..k + 3] == es;
    assert es[k] == SPAWN_FIRST && es[k + 1] == WAIT_ANY && es[k + 2] == EXIT_CHILD;
    RoundSpawns(n);
    RoundBlocks(n);
    RoundEnds(n);
    Advance(es, k, AfterRounds(n), InRound(n));
    Advance(es, k + 1, InRound(n), RoundWaits(n));
    Advance(es, k + 2, RoundWaits(n), AfterRounds(n + 1));
  }

  /** After 1024 rounds one process is alive and nearly all PCBs are free, but the next spawn meets
      its failing assertion, and so does a fork. */
  lemma SpawnCanFail()
    ensures Legal(BOOT, Rounds(MAX_NUM_PROCESSES))
    ensures var s := Exec(BOOT, Rounds(MAX_NUM_PROCESSES));
            && s.pools.refs == 0 && |s.pcbs| == 1 && s.pools.pcbs == MAX_NUM_PROCESSES - 1
            && !Demands(s, Trap(Spawn)) && !Demands(s, Trap(Fork))
  {
    RoundsRun(MAX_NUM_PROCESSES);
  }

  // ----- a parent is gone

  // Process 1 spawns 2 and exits; process 0 collects it and spawns 3, which gets the PCB that was
  // freed; 3 spawns 4 and blocks in a wait for any child. Process 2 still names 1 as its parent.
  const PARENT_DEAD: State :=
    HAS_GRANDCHILD.(running := 0, ready := [2], zombie := [1],
                    pcbs := map[0 := P0.(call := Preempt, children := [1, 2], ret := 1),
                                1 := CHILD0.(status := Zombie, call := Exit(0), ret := 2), 2 := CHILD1])

  const PARENT_GONE: State :=
    PARENT_DEAD.(zombie := [],
                 pools := BOOT.pools.(pcbs := MAX_NUM_PROCESSES - 2, refs := MAX_NUM_PROCESSES - 1),
                 pcbs := map[0 := P0.(call := WAIT_ANY.call, children := [2], ret := 1), 2 := CHILD1])

  const BLOCK_TAKEN: State :=
    PARENT_GONE.(lastPid := 4, ready := [2, 3],
                 pools := BOOT.pools.(pcbs := MAX_NUM_PROCESSES - 3, refs := MAX_NUM_PROCESSES - 2),
                 pcbs := map[0 := P0.(call := Spawn, children := [2, 3], ret := 3), 2 := CHILD1, 3 := CHILD0])

  const BUSY0 := P0.(status := Ready, call := Preempt, children := [2, 3], ret := 3)

  const ORPHAN_RUNS: State :=
    BLOCK_TAKEN.(running := 2, ready := [3, 0],
                 pcbs := map[0 := BUSY0, 2 := CHILD1.(status := Running), 3 := CHILD0])

  const TAKER_RUNS: State :=
    ORPHAN_RUNS.(running := 3, ready := [0, 2],
                 pcbs := map[0 := BUSY0, 2 := CHILD1.(call := Preempt), 3 := CHILD0.(status := Running)])

  const TAKER_SPAWNED: State :=
    TAKER_RUNS.(lastPid := 5, ready := [0, 2, 4],
                pools := BOOT.pools.(pcbs := MAX_NUM_PROCESSES - 4, refs := MAX_NUM_PROCESSES - 3),
                pcbs := map[0 := BUSY0, 2 := CHILD1.(call := Preempt),
                            3 := CHILD0.(status := Running, call := Spawn, children := [4], ret := 4),
                            4 := NEW_PCB.(parent := Some(3))])

  const TAKER_BLOCKED := CHILD0.(status := Waiting, call := WAIT_ANY.call, children := [4], ret := 4)

  const TAKER_WAITS: State :=
    TAKER_SPAWNED.(running := 0, ready := [2, 4], waiting := [3],
                   pcbs := map[0 := BUSY0.(status := Running), 2 := CHILD1.(call := Preempt), 3 := TAKER_BLOCKED,
                               4 := NEW_PCB.(parent := Some(3))])

  const ORPHAN_RUNS_AGAIN: State :=
    TAKER_WAITS.(running := 2, ready := [4, 0],
                 pcbs := map[0 := BUSY0, 2 := CHILD1.(status := Running, call := Preempt), 3 := TAKER_BLOCKED,
                             4 := NEW_PCB.(parent := Some(3))])

  /** A process that yields goes to the back and the first ready one runs. */
  lemma Yields(s: State, t: State)
    requires NothingDue(s.timers, s.time) && s.ready != [] && s.running in s.pcbs && s.ready[0] in s.pcbs
    requires s.pcbs[s.running].status == Running && s.ready[0] != s.running
    requires t == s.(running := s.ready[0], ready := s.ready[1..] + [s.running], pcbs := t.pcbs)
    requires t.pcbs == s.pcbs[s.running := s.pcbs[s.running].(status := Ready, call := Preempt)]
                             [s.ready[0] := s.pcbs[s.ready[0]].(status := Running)]
    ensures Step(s, YIELD) == t && Enabled(s, YIELD)
  {
    hide Schedule;
    ScheduleIsRotate(Issue(s, Preempt));
    assert (s.ready + [s.running])[1..] == s.ready[1..] + [s.running];
  }

  lemma ParentDies()
    ensures Step(HAS_GRANDCHILD, EXIT_PARENT) == PARENT_DEAD && Enabled(HAS_GRANDCHILD, EXIT_PARENT)
  {
    var s := Step(HAS_GRANDCHILD, EXIT_PARENT);
    assert s.ready == [2] && s.zombie == [1] && s.pcbs[0].children == [1, 2];
    assert s.pcbs == PARENT_DEAD.pcbs;
  }

  lemma ZombieFirst(m: Processes)
    requires 1 in m && m[1].status == Zombie
    ensures Awaited(m, [1, 2], 0) == 1
  {
  }

  lemma ParentCollected(s: State)
    requires s == Issue(PARENT_DEAD, WAIT_ANY.call)
    ensures Reap(s, 1, false) == PARENT_GONE
  {
    hide Remove;
    FirstRemoved();
    assert At(s.pcbs, 0).children == [1, 2] && s.zombie == [1] && s.running == 0;
    var m := s.pcbs[0 := s.pcbs[0].(children := [2], ret := 1)] - {1};
    assert Reap(s, 1, false).pcbs == m;
    assert Reap(s, 1, false).pools == PARENT_GONE.pools;
    assert m[0] == PARENT_GONE.pcbs[0] && m.Keys == {0, 2};
    assert m == PARENT_GONE.pcbs;
  }

  lemma FirstRemoved()
    ensures Remove<Pid>([1, 2], 1) == [2] && Remove<Pid>([1], 1) == []
  {
    RemoveFirst<Pid>([1, 2]);
    RemoveFirst<Pid>([1]);
  }

  lemma ParentGoes()
    ensures Step(PARENT_DEAD, WAIT_ANY) == PARENT_GONE && Enabled(PARENT_DEAD, WAIT_ANY)
  {
    hide Awaited, Reap;
    var s1 := Issue(PARENT_DEAD, WAIT_ANY.call);
    ZombieFirst(PARENT_DEAD.pcbs);
    ZombieFirst(s1.pcbs);
    ParentCollected(s1);
  }

  lemma ParentIsMissed()
    ensures Orphans(PARENT_DEAD, WAIT_ANY) && !ParentsLive(PARENT_GONE)
  {
    hide Awaited;
    ZombieFirst(PARENT_DEAD.pcbs);
    assert Bereaves(PARENT_DEAD, WAIT_ANY, 1, 2);
    assert PARENT_GONE.pcbs[2].parent == Some(1);
  }

  lemma BlockIsTaken()
    ensures Step(PARENT_GONE, SPAWN_FIRST) == BLOCK_TAKEN && Enabled(PARENT_GONE, SPAWN_FIRST)
  {
    var s := Step(PARENT_GONE, SPAWN_FIRST);
    assert s.ready == [2, 3] && s.pcbs[0].children == [2, 3];
    assert s.pcbs == BLOCK_TAKEN.pcbs;
  }

  lemma OrphanRuns()
    ensures Step(BLOCK_TAKEN, YIELD) == ORPHAN_RUNS && Enabled(BLOCK_TAKEN, YIELD)
  {
    assert [2, 3][1..] + [0] == [3, 0];
    Yields(BLOCK_TAKEN, ORPHAN_RUNS);
  }

  lemma TakerRuns()
    ensures Step(ORPHAN_RUNS, YIELD) == TAKER_RUNS && Enabled(ORPHAN_RUNS, YIELD)
  {
    assert [3, 0][1..] + [2] == [0, 2];
    Yields(ORPHAN_RUNS, TAKER_RUNS);
  }

  lemma TakerSpawns()
    ensures Step(TAKER_RUNS, SPAWN_FIRST) == TAKER_SPAWNED && Enabled(TAKER_RUNS, SPAWN_FIRST)
  {
    var s := Step(TAKER_RUNS, SPAWN_FIRST);
    assert s.ready == [0, 2, 4] && s.pcbs[3].children == [4];
    assert s.pcbs == TAKER_SPAWNED.pcbs;
  }

  lemma TakerWaits()
    ensures Step(TAKER_SPAWNED, WAIT_ANY) == TAKER_WAITS && Enabled(TAKER_SPAWNED, WAIT_ANY)
  {
    hide Awaited, Switch;
    OnlyChild(TAKER_SPAWNED.pcbs, 4);
    var s1 := Issue(TAKER_SPAWNED, WAIT_ANY.call);
    OnlyChild(s1.pcbs, 4);
    TakerParks(s1);
    assert [] + [3] == [3];
  }

  lemma OnlyChild(m: Processes, c: Pid)
    ensures Awaited(m, [c], 0) == c
  {
  }

  lemma TakerParks(s: State)
    requires s == Issue(TAKER_SPAWNED, WAIT_ANY.call)
    ensures Switch(s.(waiting := [3], pcbs := SetStatus(s.pcbs, 3, Waiting))) == TAKER_WAITS
  {
    assert [0, 2, 4][1..] == [2, 4];
    assert SetStatus(SetStatus(s.pcbs, 3, Waiting), 0, Running) == TAKER_WAITS.pcbs;
  }

  lemma OrphanRunsAgain()
    ensures Step(TAKER_WAITS, YIELD) == ORPHAN_RUNS_AGAIN && Enabled(TAKER_WAITS, YIELD)
  {
    assert [2, 4][1..] + [0] == [4, 0];
    Yields(TAKER_WAITS, ORPHAN_RUNS_AGAIN);
  }

  lemma OrphanIsTrapped()
    ensures !Demands(ORPHAN_RUNS_AGAIN, EXIT_CHILD) && ORPHAN_RUNS_AGAIN.ready != []
  {
    assert WaitsFor(ORPHAN_RUNS_AGAIN.pcbs, 3, 2);
  }

  const ORPHANING_RUN: seq<Event> :=
    [SPAWN_FIRST, YIELD, SPAWN_FIRST, EXIT_PARENT, WAIT_ANY, SPAWN_FIRST, YIELD, YIELD, SPAWN_FIRST, WAIT_ANY, YIELD]

  /** In this legal run the parent of process 2 is freed at the fifth step. At the end 2 runs, others
      are ready, and yet it cannot exit: process 3, whose PCB is where that of its parent was, waits
      for any child. */
  lemma ParentCanBeGone()
    ensures Legal(BOOT, ORPHANING_RUN)
    ensures !ParentsLive(Before(BOOT, ORPHANING_RUN, 5)) && Orphans(Before(BOOT, ORPHANING_RUN, 4), ORPHANING_RUN[4])
    ensures var s := Exec(BOOT, ORPHANING_RUN);
            s.running == 2 && s.ready != [] && !Demands(s, EXIT_CHILD)
  {
    hide Step, Enabled, Demands, ParentsLive, Orphans;
    StepHasChild();
    StepChildRuns();
    StepHasGrandchild();
    MissingSteps();
    ParentDies();
    ParentGoes();
    ParentIsMissed();
    BlockIsTaken();
    OrphanRuns();
    TakerRuns();
    TakerSpawns();
    TakerWaits();
    OrphanRunsAgain();
    OrphanIsTrapped();
    var es := ORPHANING_RUN;
    Advance(es, 0, BOOT, HAS_CHILD);
    Advance(es, 1, HAS_CHILD, CHILD_RUNS);
    Advance(es, 2, CHILD_RUNS, HAS_GRANDCHILD);
    Advance(es, 3, HAS_GRANDCHILD, PARENT_DEAD);
    Advance(es, 4, PARENT_DEAD, PARENT_GONE);
    Advance(es, 5, PARENT_GONE, BLOCK_TAKEN);
    Advance(es, 6, BLOCK_TAKEN, ORPHAN_RUNS);
    Advance(es, 7, ORPHAN_RUNS, TAKER_RUNS);
    Advance(es, 8, TAKER_RUNS, TAKER_SPAWNED);
    Advance(es, 9, TAKER_SPAWNED, TAKER_WAITS);
    Advance(es, 10, TAKER_WAITS, ORPHAN_RUNS_AGAIN);
    assert es[..11] == es;
  }

  // ----- a wait for a pid that is not a child

  const EXIT_7 := Trap(Exit(7))
  const WAIT_FOR_99 := Trap(Wait(99, true))

  const ZOMBIE_CHILD: State :=
    CHILD_RUNS.(running := 0, ready := [], zombie := [1],
                pcbs := map[0 := P0.(call := Preempt, children := [1], ret := 1),
                            1 := CHILD0.(status := Zombie, call := EXIT_7.call, exitValue := 7)])

  lemma StepZombieChild()
    ensures Step(CHILD_RUNS, EXIT_7) == ZOMBIE_CHILD && Enabled(CHILD_RUNS, EXIT_7)
  {
    var s := Step(CHILD_RUNS, EXIT_7);
    assert s.ready == [] && s.zombie == [1] && s.pcbs[0].children == [1];
    assert s.pcbs == ZOMBIE_CHILD.pcbs;
  }

  lemma StepStranger()
    ensures Enabled(ZOMBIE_CHILD, WAIT_FOR_99)
    ensures var s := Step(ZOMBIE_CHILD, WAIT_FOR_99);
            1 !in s.pcbs && 0 in s.pcbs && s.pcbs[0].ret == 1 && s.pcbs[0].result == 7
  {
    assert Awaited(ZOMBIE_CHILD.pcbs, [1], 99) == 1;
    assert Awaited(Issue(ZOMBIE_CHILD, WAIT_FOR_99.call).pcbs, [1], 99) == 1;
  }

  const COLLECTING_RUN: seq<Event> := [SPAWN_FIRST, YIELD, EXIT_7, WAIT_FOR_99]

  /** In this legal run process 0 waits for pid 99, which no process has, and collects process 1. */
  lemma WrongChildCanBeCollected()
    ensures Legal(BOOT, COLLECTING_RUN)
    ensures 1 in Before(BOOT, COLLECTING_RUN, 3).pcbs
    ensures var s := Exec(BOOT, COLLECTING_RUN);
            1 !in s.pcbs && 0 in s.pcbs && s.pcbs[0].ret == 1 && s.pcbs[0].result == 7
  {
    hide Step, Enabled;
    StepHasChild();
    StepChildRuns();
    StepZombieChild();
    StepStranger();
    MissingSteps();
    var es := COLLECTING_RUN;
    Advance(es, 0, BOOT, HAS_CHILD);
    Advance(es, 1, HAS_CHILD, CHILD_RUNS);
    Advance(es, 2, CHILD_RUNS, ZOMBIE_CHILD);
    Advance(es, 3, ZOMBIE_CHILD, Step(ZOMBIE_CHILD, WAIT_FOR_99));
    assert es[..4] == es;
  }

  const LASTING_RUN: seq<Event> := [SPAWN_FIRST, WAIT_FOR_99]

  lemma StepLasts()
    ensures Enabled(HAS_CHILD, WAIT_FOR_99)
    ensures var s := Step(HAS_CHILD, WAIT_FOR_99);
            InWait(s, 0) && s.pcbs[0].call == WAIT_FOR_99.call && Stranger(s.pcbs, 0, 99)
  {
    assert Awaited(HAS_CHILD.pcbs, [1], 99) == 1;
    assert Awaited(Issue(HAS_CHILD, WAIT_FOR_99.call).pcbs, [1], 99) == 1;
  }

  lemma LastingRunLegal()
    ensures Legal(BOOT, LASTING_RUN) && Exec(BOOT, LASTING_RUN) == Step(HAS_CHILD, WAIT_FOR_99)
  {
    hide Step, Enabled;
    StepHasChild();
    StepLasts();
    MissingSteps();
    var es := LASTING_RUN;
    Advance(es, 0, BOOT, HAS_CHILD);
    Advance(es, 1, HAS_CHILD, Step(HAS_CHILD, WAIT_FOR_99));
    assert es[..2] == es;
  }

  /** Process 0 spawns a child and then waits for pid 99: whatever happens next, it is blocked. */
  lemma WaitCanLastForEver(es: seq<Event>)
    requires Legal(BOOT, LASTING_RUN + es)
    ensures var s := Exec(BOOT, LASTING_RUN + es);
            0 in s.pcbs && s.pcbs[0].status == Waiting && s.pcbs[0].call == WAIT_FOR_99.call
  {
    hide Step, Enabled, Exec, Inv, Stranger;
    LastingRunLegal();
    StepLasts();
    var all, s := LASTING_RUN + es, Exec(BOOT, LASTING_RUN);
    assert all[..2] == LASTING_RUN && all[2..|all|] == es && all[..|all|] == all;
    LegalPart(BOOT, all, 2, |all|);
    Suffix(BOOT, all, 2, |all|);
    ReachableInv(all, 2);
    NeverAnswered(s, es, 0);
  }

  // ----- descriptors without a process

  // Process 0 spawns process 1, which creates resource 5, opens it and exits; then process 0
  // collects it and tries to destroy the resource.
  const CREATE_5 := OpenResource(5, 0, D.Mode(true, false))
  const STRANDING_RUN: seq<Request> :=
    [Request.Call(Spawn), Request.Call(Preempt), CREATE_5, Request.Call(Exit(7)), Request.Call(Wait(0, false))]

  const LISTED_GRAPH: D.Graph := D.NewOwner(D.BOOT_GRAPH, 1)

  const OPENED_GRAPH: D.Graph :=
    LISTED_GRAPH.(descs := map[0 := D.Descriptor(1, 5, 0, 0)], ptrs := map[0 := D.DescriptorPtr(0)],
                  owners := map[0 := D.Owner([], 0), 1 := D.Owner([0], 1)],
                  resources := [D.Resource(5, 0, 1, [0])],
                  freeDescs := D.BOOT_GRAPH.freeDescs[1..], freePtrs := D.BOOT_GRAPH.freePtrs[1..],
                  freeResources := D.MAX_NUM_RESOURCES - 1)

  const CHILD_OPENED: State :=
    CHILD_RUNS.(pcbs := map[0 := CHILD_RUNS.pcbs[0], 1 := CHILD0.(status := Running, call := Resource(0))])

  lemma GraphAttached(g: D.Graph)
    requires g == LISTED_GRAPH.(resources := [D.Resource(5, 0, 0, [])], freeResources := D.MAX_NUM_RESOURCES - 1)
    ensures 1 in g.owners && g.freeDescs != [] && g.freePtrs != []
    ensures D.Attach(g, 1, 0, 0)
            == OPENED_GRAPH.(owners := map[0 := D.Owner([], 0), 1 := D.Owner([0], 0)])
  {
    hide D.Ascending;
    var g' := D.Attach(g, 1, 0, 0);
    assert [] + [0] == [0];
    assert g'.descs == OPENED_GRAPH.descs && g'.ptrs == OPENED_GRAPH.ptrs;
    assert g'.owners == map[0 := D.Owner([], 0), 1 := D.Owner([0], 0)];
    assert g'.resources == OPENED_GRAPH.resources;
  }

  lemma StepGraph()
    ensures 1 in LISTED_GRAPH.owners && D.Open(LISTED_GRAPH, 1, 5, 0, D.Mode(true, false)) == (OPENED_GRAPH, 0)
  {
    hide D.Ascending, D.Attach;
    var r := D.Resource(5, 0, 0, []);
    var g1 := LISTED_GRAPH.(resources := [r], freeResources := D.MAX_NUM_RESOURCES - 1);
    assert [] + [r] == [r];
    assert D.Fetched(LISTED_GRAPH, 5, 0, D.Mode(true, false)) == (g1, Some(0), 0);
    assert LISTED_GRAPH.freeDescs[0] == 0;
    GraphAttached(g1);
    var g2 := D.Attach(g1, 1, 0, 0);
    assert g2.owners[1 := g2.owners[1].(lastFd := 1)] == OPENED_GRAPH.owners;
  }

  lemma StepOpened()
    ensures Step(CHILD_RUNS, Trap(Resource(0))) == CHILD_OPENED && Enabled(CHILD_RUNS, Trap(Resource(0)))
  {
    assert Step(CHILD_RUNS, Trap(Resource(0))).pcbs == CHILD_OPENED.pcbs;
  }

  lemma StepOpenerExits()
    ensures Step(CHILD_OPENED, EXIT_7) == ZOMBIE_CHILD && Enabled(CHILD_OPENED, EXIT_7) && !ExitAnswers(CHILD_OPENED)
  {
    var s := Step(CHILD_OPENED, EXIT_7);
    assert s.ready == [] && s.zombie == [1] && s.pcbs[0].children == [1];
    assert s.pcbs == ZOMBIE_CHILD.pcbs;
  }

  lemma StepStranded()
    ensures Enabled(ZOMBIE_CHILD, WAIT_ANY) && Strands(System(ZOMBIE_CHILD, OPENED_GRAPH), Request.Call(WAIT_ANY.call))
    ensures 1 !in Step(ZOMBIE_CHILD, WAIT_ANY).pcbs
  {
    assert Awaited(ZOMBIE_CHILD.pcbs, [1], 0) == 1;
    assert Awaited(Issue(ZOMBIE_CHILD, WAIT_ANY.call).pcbs, [1], 0) == 1;
  }

  lemma AdvanceSystem(rs: seq<Request>, n: nat, w: System, w': System)
    requires n < |rs| && Possible(rs[..n]) && Reached(rs[..n]) == w && SystemOk(w)
    requires Leads(w, rs[n], w')
    ensures Possible(rs[..n + 1]) && Reached(rs[..n + 1]) == w' && SystemOk(w')
  {
    hide SystemOk, Allowed, Served;
    SystemServes(w);
    SystemStep(w, rs[n]);
    assert rs[..n + 1][..n] == rs[..n];
  }

  /** The request takes one state to the other. */
  ghost predicate Leads(w: System, r: Request, w': System) {
    Served(w) ==> Allowed(w, r) && After(w, r) == w'
  }

  lemma LeadsToOpened()
    ensures Leads(BOOT_SYSTEM, Request.Call(Spawn), System(HAS_CHILD, LISTED_GRAPH))
    ensures Leads(System(HAS_CHILD, LISTED_GRAPH), Request.Call(Preempt), System(CHILD_RUNS, LISTED_GRAPH))
    ensures Leads(System(CHILD_RUNS, LISTED_GRAPH), CREATE_5, System(CHILD_OPENED, OPENED_GRAPH))
  {
    hide Step, Enabled, D.GraphOk, D.Ascending, D.Open;
    StepHasChild();
    StepChildRuns();
    StepGraph();
    StepOpened();
    MissingSteps();
  }

  lemma LeadsToStranded()
    ensures Leads(System(CHILD_OPENED, OPENED_GRAPH), Request.Call(Exit(7)), System(ZOMBIE_CHILD, OPENED_GRAPH))
    ensures Leads(System(ZOMBIE_CHILD, OPENED_GRAPH), Request.Call(Wait(0, false)),
                  System(Step(ZOMBIE_CHILD, WAIT_ANY), OPENED_GRAPH))
  {
    hide Step, Enabled, D.GraphOk, D.Ascending, ExitAnswers, Strands;
    StepOpenerExits();
    StepStranded();
  }

  /** At the end of this run process 1 is gone, but it has a descriptor, and resource 5 can not be
      destroyed because it counts as used. */
  lemma DescriptorsCanBeLeft()
    ensures Possible(STRANDING_RUN)
    ensures var w := Reached(STRANDING_RUN);
            && 1 !in w.kernel.pcbs && 1 in w.graph.owners && w.graph.owners[1].descs == [0]
            && D.Destroy(w.graph, 5) == (w.graph, D.ERESOURCEINUSE)
  {
    hide Step, Leads, D.Ascending, Strands, SystemOk, NothingLeft, Possible, Reached;
    var rs := STRANDING_RUN;
    BootSystemOk();
    NoRequests();
    LeadsToOpened();
    LeadsToStranded();
    StepStranded();
    AdvanceSystem(rs, 0, BOOT_SYSTEM, System(HAS_CHILD, LISTED_GRAPH));
    AdvanceSystem(rs, 1, System(HAS_CHILD, LISTED_GRAPH), System(CHILD_RUNS, LISTED_GRAPH));
    AdvanceSystem(rs, 2, System(CHILD_RUNS, LISTED_GRAPH), System(CHILD_OPENED, OPENED_GRAPH));
    AdvanceSystem(rs, 3, System(CHILD_OPENED, OPENED_GRAPH), System(ZOMBIE_CHILD, OPENED_GRAPH));
    AdvanceSystem(rs, 4, System(ZOMBIE_CHILD, OPENED_GRAPH), System(Step(ZOMBIE_CHILD, WAIT_ANY), OPENED_GRAPH));
    assert rs[..5] == rs;
  }

  lemma NoRequests()
    ensures Possible([]) && Reached([]) == BOOT_SYSTEM
  {
  }

  // ----- a close that hits an inherited descriptor

  // Process 0 creates resource 5 and forks; its child creates resource 6, which is opened under the
  // number 0 that the inherited descriptor has too, and closes 0.
  const CREATE_6 := OpenResource(6, 0, D.Mode(true, false))
  const CLASHING_RUN: seq<Request> :=
    [CREATE_5, Request.Call(Fork), Request.Call(Preempt), CREATE_6, CloseResource(0)]

  const DESC5 := D.Descriptor(0, 5, 0, 0)
  const TWIN5 := D.Descriptor(1, 5, 0, 1)
  const DESC6 := D.Descriptor(1, 6, 0, 2)

  const OWN_GRAPH: D.Graph :=
    D.BOOT_GRAPH.(descs := map[0 := DESC5], ptrs := map[0 := D.DescriptorPtr(0)],
                  owners := map[0 := D.Owner([0], 1)], resources := [D.Resource(5, 0, 1, [0])],
                  freeDescs := D.BOOT_GRAPH.freeDescs[1..], freePtrs := D.BOOT_GRAPH.freePtrs[1..],
                  freeResources := D.MAX_NUM_RESOURCES - 1)

  const TWIN_GRAPH: D.Graph :=
    OWN_GRAPH.(descs := map[0 := DESC5, 1 := TWIN5], ptrs := map[0 := D.DescriptorPtr(0), 1 := D.DescriptorPtr(1)],
               owners := map[0 := D.Owner([0], 1), 1 := D.Owner([1], 0)], resources := [D.Resource(5, 0, 2, [0, 1])],
               freeDescs := D.BOOT_GRAPH.freeDescs[2..], freePtrs := D.BOOT_GRAPH.freePtrs[2..])

  const CLASH_GRAPH: D.Graph :=
    TWIN_GRAPH.(descs := map[0 := DESC5, 1 := TWIN5, 2 := DESC6],
                ptrs := map[0 := D.DescriptorPtr(0), 1 := D.DescriptorPtr(1), 2 := D.DescriptorPtr(2)],
                owners := map[0 := D.Owner([0], 1), 1 := D.Owner([1, 2], 1)],
                resources := [D.Resource(5, 0, 2, [0, 1]), D.Resource(6, 0, 1, [2])],
                freeDescs := D.BOOT_GRAPH.freeDescs[3..], freePtrs := D.BOOT_GRAPH.freePtrs[3..],
                freeResources := D.MAX_NUM_RESOURCES - 2)

  const OPENER: State := BOOT.(pcbs := map[0 := P0.(call := Resource(0))])

  const FORKED: State :=
    HAS_CHILD.(pcbs := map[0 := P0.(call := Fork, children := [1], ret := 1), 1 := CHILD0])

  lemma OwnGraph()
    ensures D.Open(D.BOOT_GRAPH, 0, 5, 0, D.Mode(true, false)) == (OWN_GRAPH, 0)
  {
    hide D.Ascending, D.Attach;
    var r := D.Resource(5, 0, 0, []);
    var g1 := D.BOOT_GRAPH.(resources := [r], freeResources := D.MAX_NUM_RESOURCES - 1);
    assert [] + [r] == [r];
    assert D.Fetched(D.BOOT_GRAPH, 5, 0, D.Mode(true, false)) == (g1, Some(0), 0);
    OwnAttached(g1);
    var g2 := D.Attach(g1, 0, 0, 0);
    assert g2.owners[0 := g2.owners[0].(lastFd := 1)] == OWN_GRAPH.owners;
  }

  lemma OwnAttached(g: D.Graph)
    requires g == D.BOOT_GRAPH.(resources := [D.Resource(5, 0, 0, [])], freeResources := D.MAX_NUM_RESOURCES - 1)
    ensures 0 in g.owners && g.freeDescs != [] && g.freePtrs != []
    ensures D.Attach(g, 0, 0, 0) == OWN_GRAPH.(owners := map[0 := D.Owner([0], 0)])
  {
    hide D.Ascending;
    var g' := D.Attach(g, 0, 0, 0);
    assert [] + [0] == [0];
    assert g'.descs == OWN_GRAPH.descs && g'.ptrs == OWN_GRAPH.ptrs;
    assert g'.owners == map[0 := D.Owner([0], 0)];
    assert g'.resources == OWN_GRAPH.resources;
  }

  lemma TwinGraph()
    ensures D.Twins(D.NewOwner(OWN_GRAPH, 1), 1, [DESC5]) == TWIN_GRAPH
  {
    hide D.Ascending, D.Attach;
    var g := D.NewOwner(OWN_GRAPH, 1);
    TwinAttached(g);
    assert D.FindResource(g.resources, 5) == 0;
    assert [DESC5][1..] == [];
    assert D.Twins(TWIN_GRAPH, 1, []) == TWIN_GRAPH;
  }

  lemma TwinAttached(g: D.Graph)
    requires g == D.NewOwner(OWN_GRAPH, 1)
    ensures 1 in g.owners && g.freeDescs != [] && g.freePtrs != []
    ensures D.Attach(g, 1, 0, 0) == TWIN_GRAPH
  {
    hide D.Ascending;
    var g' := D.Attach(g, 1, 0, 0);
    assert g.freeDescs[0] == 1 && g.freePtrs[0] == 1;
    assert [] + [1] == [1] && [0] + [1] == [0, 1];
    assert g'.descs == TWIN_GRAPH.descs && g'.ptrs == TWIN_GRAPH.ptrs;
    assert g'.owners == TWIN_GRAPH.owners && g'.resources == TWIN_GRAPH.resources;
    assert g'.freeDescs == TWIN_GRAPH.freeDescs && g'.freePtrs == TWIN_GRAPH.freePtrs;
  }

  lemma ClashGraph()
    ensures D.Open(TWIN_GRAPH, 1, 6, 0, D.Mode(true, false)) == (CLASH_GRAPH, 0)
  {
    hide D.Ascending, D.Attach;
    var g1 := D.AddResource(TWIN_GRAPH, 6, 0);
    assert D.FindResource(TWIN_GRAPH.resources[1..], 6) == 0 && D.FindResource(TWIN_GRAPH.resources, 6) == 1;
    assert D.Fetched(TWIN_GRAPH, 6, 0, D.Mode(true, false)) == (g1, Some(1), 0);
    ClashAttached(g1);
    var g2 := D.Attach(g1, 1, 0, 1);
    assert g2.owners[1 := g2.owners[1].(lastFd := 1)] == CLASH_GRAPH.owners;
  }

  lemma ClashAttached(g: D.Graph)
    requires g == D.AddResource(TWIN_GRAPH, 6, 0)
    ensures 1 in g.owners && g.freeDescs != [] && g.freePtrs != [] && |g.resources| == 2
    ensures D.Attach(g, 1, 0, 1)
            == CLASH_GRAPH.(owners := map[0 := D.Owner([0], 1), 1 := D.Owner([1, 2], 0)])
  {
    hide D.Ascending;
    assert g.resources == [D.Resource(5, 0, 2, [0, 1]), D.Resource(6, 0, 0, [])];
    var g' := D.Attach(g, 1, 0, 1);
    assert g.freeDescs[0] == 2 && g.freePtrs[0] == 2;
    assert [] + [2] == [2] && [1] + [2] == [1, 2];
    assert g'.descs == CLASH_GRAPH.descs && g'.ptrs == CLASH_GRAPH.ptrs;
    assert g'.owners == map[0 := D.Owner([0], 1), 1 := D.Owner([1, 2], 0)];
    assert g'.resources == CLASH_GRAPH.resources;
    assert g'.freeDescs == CLASH_GRAPH.freeDescs && g'.freePtrs == CLASH_GRAPH.freePtrs;
  }

  /** Closing 0 takes the inherited descriptor. */
  lemma ClashClosed()
    requires D.GraphOk(CLASH_GRAPH)
    ensures var (g, ret) := D.Close(CLASH_GRAPH, 1, 0);
            ret == 0 && 1 in g.owners && g.owners[1].descs == [2] && 2 in g.descs && g.descs[2] == DESC6
  {
    hide D.GraphOk, D.Ascending;
    assert D.FindFd(CLASH_GRAPH, [1, 2], 0) == 0;
    assert Remove([1, 2], 1) == [2];
  }

  lemma StepOpener()
    ensures Step(BOOT, Trap(Resource(0))) == OPENER && Enabled(BOOT, Trap(Resource(0)))
  {
    assert Step(BOOT, Trap(Resource(0))).pcbs == OPENER.pcbs;
  }

  lemma StepForked()
    ensures Step(OPENER, Trap(Fork)) == FORKED && Enabled(OPENER, Trap(Fork))
  {
    var s := Step(OPENER, Trap(Fork));
    assert s.ready == [1] && s.pcbs[0].children == [1];
    assert s.pcbs == FORKED.pcbs;
  }

  lemma StepTwinRuns()
    ensures Step(FORKED, YIELD) == CHILD_RUNS && Enabled(FORKED, YIELD)
  {
    assert [1][1..] + [0] == [0];
    Yields(FORKED, CHILD_RUNS);
  }

  lemma StepClosed()
    ensures Step(CHILD_OPENED, Trap(Resource(0))) == CHILD_OPENED && Enabled(CHILD_OPENED, Trap(Resource(0)))
  {
    assert Step(CHILD_OPENED, Trap(Resource(0))).pcbs == CHILD_OPENED.pcbs;
  }

  lemma LeadsToForked()
    ensures Leads(BOOT_SYSTEM, CREATE_5, System(OPENER, OWN_GRAPH))
    ensures Leads(System(OPENER, OWN_GRAPH), Request.Call(Fork), System(FORKED, TWIN_GRAPH))
  {
    hide D.GraphOk, D.Ascending, D.Open, D.Twins, Step, Enabled;
    StepOpener();
    StepForked();
    OwnGraph();
    TwinGraph();
    if D.GraphOk(OWN_GRAPH) { assert Opened(OWN_GRAPH, 0) == [DESC5]; }
  }

  lemma LeadsToClosed(g: D.Graph)
    requires D.GraphOk(CLASH_GRAPH) && g == D.Close(CLASH_GRAPH, 1, 0).0
    ensures Leads(System(FORKED, TWIN_GRAPH), Request.Call(Preempt), System(CHILD_RUNS, TWIN_GRAPH))
    ensures Leads(System(CHILD_RUNS, TWIN_GRAPH), CREATE_6, System(CHILD_OPENED, CLASH_GRAPH))
    ensures Leads(System(CHILD_OPENED, CLASH_GRAPH), CloseResource(0), System(CHILD_OPENED, g))
  {
    hide D.GraphOk, D.Ascending, D.Open, D.Close, Step, Enabled;
    StepTwinRuns();
    StepOpened();
    StepClosed();
    ClashGraph();
    ClashClosed();
  }

  /** In this run open returns 0 to process 1, which closes 0: resource 6 stays open, and the
      descriptor that was inherited is gone. */
  lemma CloseCanHitAnother()
    ensures Possible(CLASHING_RUN)
    ensures var w := Reached(CLASHING_RUN);
            && w.kernel.running == 1 && 1 in w.graph.owners
            && w.graph.owners[1].descs == [2] && 2 in w.graph.descs && w.graph.descs[2] == DESC6
  {
    hide Leads, D.Ascending, D.GraphOk, D.Close, SystemOk, NothingLeft, Possible, Reached, Step;
    var rs := CLASHING_RUN;
    BootSystemOk();
    NoRequests();
    LeadsToForked();
    AdvanceSystem(rs, 0, BOOT_SYSTEM, System(OPENER, OWN_GRAPH));
    AdvanceSystem(rs, 1, System(OPENER, OWN_GRAPH), System(FORKED, TWIN_GRAPH));
    ClashIsSound(System(FORKED, TWIN_GRAPH));
    var g := D.Close(CLASH_GRAPH, 1, 0).0;
    LeadsToClosed(g);
    ClashClosed();
    AdvanceSystem(rs, 2, System(FORKED, TWIN_GRAPH), System(CHILD_RUNS, TWIN_GRAPH));
    AdvanceSystem(rs, 3, System(CHILD_RUNS, TWIN_GRAPH), System(CHILD_OPENED, CLASH_GRAPH));
    AdvanceSystem(rs, 4, System(CHILD_OPENED, CLASH_GRAPH), System(CHILD_OPENED, g));
    assert rs[..5] == rs;
  }

  lemma ClashIsSound(w: System)
    requires SystemOk(w) && w.graph == TWIN_GRAPH
    ensures D.GraphOk(CLASH_GRAPH)
  {
    hide Inv, D.GraphOk, D.Ascending, D.Open;
    ClashGraph();
    D.OpenKeeps(TWIN_GRAPH, 1, 6, 0, D.Mode(true, false));
  }
}
