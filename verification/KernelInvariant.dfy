/** Every step keeps the kernel invariant; a sleep keeps it exactly when it may be called. */
module KernelInvariant {
  import opened Lists
  import opened KernelState
  import opened KernelSteps

  // ----- sums over the queue table

  function Members(q: MessageQueue): multiset<Pid> {
    multiset(q.receivers) + multiset(q.senders)
  }

  lemma {:induction false} TableConcat(a: seq<MessageQueue>, b: seq<MessageQueue>)
    ensures Blocked(a + b) == Blocked(a) + Blocked(b)
    ensures Queued(a + b) == Queued(a) + Queued(b)
  {
    if a == [] {
      assert a + b == b;
    } else {
      assert (a + b)[0] == a[0] && (a + b)[1..] == a[1..] + b;
      TableConcat(a[1..], b);
    }
  }

  lemma TableSplit(qs: seq<MessageQueue>, i: nat)
    requires i < |qs|
    ensures Blocked(qs) == Blocked(qs[..i] + qs[i + 1..]) + Members(qs[i])
    ensures Queued(qs) == Queued(qs[..i] + qs[i + 1..]) + |qs[i].messages|
  {
    assert qs == qs[..i] + ([qs[i]] + qs[i + 1..]);
    TableConcat(qs[..i], [qs[i]] + qs[i + 1..]);
    TableConcat([qs[i]], qs[i + 1..]);
    TableConcat(qs[..i], qs[i + 1..]);
    assert [qs[i]][1..] == [];
  }

  lemma TableUpdate(qs: seq<MessageQueue>, i: nat, q: MessageQueue)
    requires i < |qs|
    ensures Blocked(qs[i := q]) + Members(qs[i]) == Blocked(qs) + Members(q)
    ensures Queued(qs[i := q]) + |qs[i].messages| == Queued(qs) + |q.messages|
  {
    TableSplit(qs, i);
    TableSplit(qs[i := q], i);
    assert qs[i := q][..i] == qs[..i] && qs[i := q][i + 1..] == qs[i + 1..];
  }

  lemma TableAppend(qs: seq<MessageQueue>, q: MessageQueue)
    ensures Blocked(qs + [q]) == Blocked(qs) + Members(q)
    ensures Queued(qs + [q]) == Queued(qs) + |q.messages|
  {
    TableConcat(qs, [q]);
    assert [q][1..] == [];
  }

  /** No list mentions a process twice. */
  ghost predicate NoRepeats(s: State) {
    && Distinct(s.ready) && Distinct(s.waiting) && Distinct(s.zombie)
    && (forall i :: 0 <= i < |s.queues| ==> Distinct(s.queues[i].receivers) && Distinct(s.queues[i].senders))
  }

  lemma PartOnce(part: seq<Pid>, whole: multiset<Pid>, keys: set<Pid>)
    requires multiset(part) <= whole <= multiset(keys)
    ensures Distinct(part)
  {
    assert forall p :: multiset(part)[p] <= multiset(keys)[p] <= 1;
    DistinctCounts(part);
  }

  lemma ListedOnce(s: State)
    requires Listed(s) <= multiset(s.pcbs.Keys)
    ensures NoRepeats(s)
  {
    PartOnce(s.ready, Listed(s), s.pcbs.Keys);
    PartOnce(s.waiting, Listed(s), s.pcbs.Keys);
    PartOnce(s.zombie, Listed(s), s.pcbs.Keys);
    forall i | 0 <= i < |s.queues|
      ensures Distinct(s.queues[i].receivers) && Distinct(s.queues[i].senders)
    {
      TableSplit(s.queues, i);
      PartOnce(s.queues[i].receivers, Blocked(s.queues), s.pcbs.Keys);
      PartOnce(s.queues[i].senders, Blocked(s.queues), s.pcbs.Keys);
    }
  }

  lemma RunningRuns(s: State)
    requires Inv(s)
    ensures s.running in s.pcbs && s.pcbs[s.running].status == Running
  {
  }

  lemma NothingIsDue(s: State)
    requires Inv(s)
    ensures NothingDue(s.timers, s.time)
  {
  }

  /** In every good state the lists have no repetition and the running process is in none. */
  lemma PlacesApart(s: State)
    requires Inv(s)
    ensures NoRepeats(s)
    ensures s.running !in Listed(s)
    ensures s.running !in s.ready && s.running !in s.waiting && s.running !in s.zombie
    ensures !s.pcbs[s.running].timer
  {
    ListedOnce(s);
    assert (multiset{s.running} + Listed(s))[s.running] <= multiset(s.pcbs.Keys)[s.running] <= 1;
  }

  // ----- changes of PCBs that an invariant does not see

  ghost predicate SameFamily(m: Processes, m': Processes) {
    && m'.Keys == m.Keys
    && forall p :: p in m ==>
         && m'[p].parent == m[p].parent && m'[p].children == m[p].children
         && (m'[p].status == Zombie <==> m[p].status == Zombie)
  }

  lemma FamilyKept(m: Processes, m': Processes)
    requires FamilyOk(m) && SameFamily(m, m')
    ensures FamilyOk(m')
  {
    assert forall p, c :: Holds(m', p, c) <==> Holds(m, p, c);
    forall c | c in m' && c != INIT ensures ParentOk(m', c) {
      assert ParentOk(m, c);
    }
    forall p, c | Holds(m', p, c) ensures ChildOk(m', p, c) {
      assert ChildOk(m, p, c);
    }
  }

  lemma TimersKept(m: Processes, m': Processes, waiting: seq<Pid>, ts: seq<Timer>)
    requires TimersOk(m, waiting, ts)
    requires m'.Keys == m.Keys && forall p :: p in m ==> m'[p].timer == m[p].timer
    ensures TimersOk(m', waiting, ts)
  {
  }

  /** A process that runs is in no list, so its PCB does not matter to them. */
  lemma StatusElsewhere(s: State, pcb: PCB)
    requires StatusOk(s)
    requires s.running in s.pcbs && s.pcbs[s.running].status == Running
    ensures StatusOk(s.(pcbs := s.pcbs[s.running := pcb]))
  {
    var m := s.pcbs[s.running := pcb];
    forall i | 0 <= i < |s.queues| ensures QueueStatusOk(m, s.queues[i]) {
      assert QueueStatusOk(s.pcbs, s.queues[i]);
    }
  }

  /** Arguments, return value and user buffers of the running process may change freely. */
  lemma RunningTweaked(s: State, pcb: PCB)
    requires Inv(s)
    requires var me := s.pcbs[s.running];
             && pcb.status == me.status && pcb.parent == me.parent
             && pcb.children == me.children && pcb.timer == me.timer
    ensures Inv(s.(pcbs := s.pcbs[s.running := pcb]))
  {
    hide FamilyOk, StatusOk;
    var m := s.pcbs[s.running := pcb];
    assert m.Keys == s.pcbs.Keys;
    FamilyKept(s.pcbs, m);
    StatusElsewhere(s, pcb);
  }

  // ----- the successor takes over

  lemma SwitchStatus(s: State)
    requires StatusOk(s) && s.ready != [] && Distinct(s.ready)
    ensures StatusOk(Switch(s))
  {
    var s' := Switch(s);
    forall i | 0 <= i < |s.queues| ensures QueueStatusOk(s'.pcbs, s.queues[i]) {
      assert QueueStatusOk(s.pcbs, s.queues[i]);
    }
  }

  lemma ReadyHead(s: State)
    requires StatusOk(s) && s.ready != []
    ensures s.ready[0] in s.pcbs && s.pcbs[s.ready[0]].status == Ready
  {
    assert s.ready[0] in s.ready;
  }

  lemma SwitchInv(s: State)
    requires Parked(s) && s.ready != []
    ensures Inv(Switch(s))
  {
    hide FamilyOk, StatusOk, TimersOk, TableOk, NothingDue;
    ReadyHead(s);
    ListedOnce(s);
    HeadTail(s.ready);
    var s' := Switch(s);
    assert s'.pcbs.Keys == s.pcbs.Keys;
    FamilyKept(s.pcbs, s'.pcbs);
    TimersKept(s.pcbs, s'.pcbs, s.waiting, s.timers);
    SwitchStatus(s);
  }

  // ----- the running process is put into a list

  /** Putting the running process into a list, with a PCB that says so. */
  lemma ParkInv(s: State, s1: State, pcb: PCB)
    requires Inv(s)
    requires s1.pcbs == s.pcbs[s.running := pcb]
    requires pcb.parent == s.pcbs[s.running].parent && pcb.children == s.pcbs[s.running].children
    requires pcb.status != Zombie
    requires Listed(s1) == Listed(s) + multiset{s.running}
    requires s1.lastPid == s.lastPid
    requires StatusOk(s1) && TimersOk(s1.pcbs, s1.waiting, s1.timers) && NothingDue(s1.timers, s1.time)
    requires TableOk(s1.queues) && PoolsOk(s1)
    ensures Parked(s1)
  {
    hide FamilyOk, StatusOk, TimersOk, TableOk, NothingDue, PoolsOk;
    assert s1.pcbs.Keys == s.pcbs.Keys;
    FamilyKept(s.pcbs, s1.pcbs);
  }

  /** A queue entry may change as long as the processes in it say they are blocked there. */
  lemma StatusWithQueue(s: State, i: nat, q: MessageQueue)
    requires StatusOk(s) && i < |s.queues| && QueueStatusOk(s.pcbs, q)
    ensures StatusOk(s.(queues := s.queues[i := q]))
  {
    var qs := s.queues[i := q];
    forall j | 0 <= j < |qs| ensures QueueStatusOk(s.pcbs, qs[j]) {
      assert j != i ==> qs[j] == s.queues[j];
    }
  }

  lemma Cancel(a: multiset<Pid>, o: multiset<Pid>, b: multiset<Pid>)
    requires a + o == b + o
    ensures a == b
  {
    forall x ensures a[x] == b[x] {
      assert (a + o)[x] == (b + o)[x];
    }
  }

  /** A queue entry gains one process. */
  lemma ListedJoin(s: State, s1: State, i: nat, q: MessageQueue, p: Pid)
    requires i < |s.queues| && s1.queues == s.queues[i := q]
    requires s1.ready == s.ready && s1.waiting == s.waiting && s1.zombie == s.zombie
    requires Members(q) == Members(s.queues[i]) + multiset{p}
    ensures Listed(s1) == Listed(s) + multiset{p}
  {
    TableUpdate(s.queues, i, q);
    Cancel(Blocked(s1.queues), Members(s.queues[i]), Blocked(s.queues) + multiset{p});
  }

  lemma PoolsWithQueue(s: State, s1: State, i: nat, q: MessageQueue)
    requires PoolsOk(s) && i < |s.queues| && s1.queues == s.queues[i := q]
    requires s1.pools == s.pools.(messages := s.pools.messages + |s.queues[i].messages| - |q.messages|)
    requires s1.pcbs.Keys == s.pcbs.Keys && |s1.timers| == |s.timers|
    ensures PoolsOk(s1)
  {
    TableUpdate(s.queues, i, q);
    assert |s1.pcbs| == |s1.pcbs.Keys| == |s.pcbs|;
  }

  lemma TableWithQueue(qs: seq<MessageQueue>, i: nat, q: MessageQueue)
    requires TableOk(qs) && i < |qs| && QueueOk(q) && q.id == qs[i].id
    ensures TableOk(qs[i := q])
  {
  }

  lemma PoolsKept(s: State, s1: State)
    requires PoolsOk(s) && s1.pools == s.pools && s1.queues == s.queues && s1.timers == s.timers
    requires s1.pcbs.Keys == s.pcbs.Keys
    ensures PoolsOk(s1)
  {
    assert |s1.pcbs| == |s1.pcbs.Keys| == |s.pcbs|;
  }

  lemma RotatedStatus(s: State, s1: State, pcb: PCB)
    requires StatusOk(s) && s.running in s.pcbs && s.pcbs[s.running].status == Running && pcb.status == Ready
    requires s1 == s.(ready := s.ready + [s.running], pcbs := s.pcbs[s.running := pcb])
    ensures StatusOk(s1)
  {
    StatusElsewhere(s, pcb);
  }

  lemma RotateInv(s: State)
    requires Inv(s)
    ensures Inv(Rotate(s))
  {
    hide FamilyOk, TimersOk, TableOk, NothingDue, PoolsOk, PidsOk, StatusOk, Parked;
    if s.ready != [] {
      var pcb := s.pcbs[s.running].(status := Ready);
      var s1 := s.(ready := s.ready + [s.running], pcbs := s.pcbs[s.running := pcb]);
      RotatedStatus(s, s1, pcb);
      TimersKept(s.pcbs, s1.pcbs, s.waiting, s.timers);
      assert s1.pcbs.Keys == s.pcbs.Keys;
      PoolsKept(s, s1);
      ParkInv(s, s1, pcb);
      SwitchInv(s1);
    }
  }

  ghost predicate Joins(s: State, i: nat, q: MessageQueue)
    requires i < |s.queues| && s.running in s.pcbs
  {
    && q == s.queues[i].(receivers := q.receivers, senders := q.senders)
    && QueueOk(q)
    && Members(q) == Members(s.queues[i]) + multiset{s.running}
    && QueueStatusOk(s.pcbs[s.running := s.pcbs[s.running].(status := Waiting)], q)
  }

  lemma JoinStatus(s: State, i: nat, q: MessageQueue)
    requires Inv(s) && i < |s.queues| && Joins(s, i, q)
    ensures StatusOk(s.(queues := s.queues[i := q],
                        pcbs := s.pcbs[s.running := s.pcbs[s.running].(status := Waiting)]))
  {
    hide FamilyOk, TimersOk, TableOk, NothingDue, StatusOk, QueueOk, QueueStatusOk;
    var pcb := s.pcbs[s.running].(status := Waiting);
    StatusElsewhere(s, pcb);
    StatusWithQueue(s.(pcbs := s.pcbs[s.running := pcb]), i, q);
  }

  lemma JoinParked(s: State, i: nat, q: MessageQueue)
    requires Inv(s) && i < |s.queues| && Joins(s, i, q)
    ensures Parked(s.(queues := s.queues[i := q],
                      pcbs := s.pcbs[s.running := s.pcbs[s.running].(status := Waiting)]))
  {
    hide FamilyOk, TimersOk, TableOk, NothingDue, StatusOk, QueueOk, QueueStatusOk, PoolsOk;
    var pcb := s.pcbs[s.running].(status := Waiting);
    var s1 := s.(queues := s.queues[i := q], pcbs := s.pcbs[s.running := pcb]);
    JoinStatus(s, i, q);
    TableWithQueue(s.queues, i, q);
    assert s1.pcbs.Keys == s.pcbs.Keys;
    ListedJoin(s, s1, i, q, s.running);
    PoolsWithQueue(s, s1, i, q);
    TimersKept(s.pcbs, s1.pcbs, s.waiting, s.timers);
    ParkInv(s, s1, pcb);
  }

  /** A send or receive that blocks. */
  lemma BlockInv(s: State, i: nat, q: MessageQueue, failure: int)
    requires Inv(s) && i < |s.queues| && Joins(s, i, q)
    ensures Inv(BlockOn(s, i, q, failure))
  {
    hide FamilyOk, TimersOk, TableOk, NothingDue, StatusOk, QueueOk, QueueStatusOk, PoolsOk;
    if s.ready == [] {
      RunningTweaked(s, s.pcbs[s.running].(ret := failure));
    } else {
      JoinParked(s, i, q);
      SwitchInv(s.(queues := s.queues[i := q],
                   pcbs := s.pcbs[s.running := s.pcbs[s.running].(status := Waiting)]));
    }
  }

  // ----- a blocked process is completed by its counterpart

  ghost predicate Leaves(s: State, i: nat, q: MessageQueue, p: Pid)
    requires i < |s.queues|
  {
    && q.id == s.queues[i].id && QueueOk(q)
    && Members(s.queues[i]) == Members(q) + multiset{p}
    && (forall x :: x in q.receivers ==> x in s.queues[i].receivers)
    && (forall x :: x in q.senders ==> x in s.queues[i].senders)
  }

  /** Who waits in a queue waits in no other one and in no other role. */
  lemma BlockedOnce(s: State, i: nat, p: Pid)
    requires Inv(s) && i < |s.queues| && p in Members(s.queues[i])
    ensures p in s.pcbs && s.pcbs[p].status == Waiting && !s.pcbs[p].timer
    ensures Members(s.queues[i])[p] == 1
    ensures forall j :: 0 <= j < |s.queues| && j != i ==> p !in Members(s.queues[j])
    ensures p !in s.waiting && p !in s.ready && p !in s.zombie && p != s.running
  {
    hide FamilyOk;
    assert QueueStatusOk(s.pcbs, s.queues[i]);
    TableSplit(s.queues, i);
    assert Members(s.queues[i])[p] <= Listed(s)[p] <= multiset(s.pcbs.Keys)[p] <= 1;
    forall j | 0 <= j < |s.queues| && j != i ensures p !in Members(s.queues[j]) {
      assert QueueStatusOk(s.pcbs, s.queues[j]);
    }
  }

  lemma UnblockStatus(s: State, s': State, i: nat, q: MessageQueue, p: Pid, pcb: PCB)
    requires StatusOk(s) && i < |s.queues| && Leaves(s, i, q, p)
    requires pcb.status == Ready
    requires s'.queues == s.queues[i := q] && s'.ready == s.ready + [p] && s'.pcbs == s.pcbs[p := pcb]
    requires s'.waiting == s.waiting && s'.zombie == s.zombie
    requires p !in s.waiting && p !in s.ready && p !in s.zombie
    requires Members(s.queues[i])[p] == 1
    requires forall j :: 0 <= j < |s.queues| && j != i ==> p !in Members(s.queues[j])
    ensures StatusOk(s')
  {
    forall j | 0 <= j < |s'.queues| ensures QueueStatusOk(s'.pcbs, s'.queues[j]) {
      assert QueueStatusOk(s.pcbs, s.queues[j]);
      assert p !in Members(s'.queues[j]);
      assert p !in s'.queues[j].receivers && p !in s'.queues[j].senders;
    }
  }

  lemma UnblockListed(s: State, s': State, i: nat, q: MessageQueue, p: Pid)
    requires i < |s.queues| && s'.queues == s.queues[i := q] && s'.ready == s.ready + [p]
    requires s'.waiting == s.waiting && s'.zombie == s.zombie
    requires Members(s.queues[i]) == Members(q) + multiset{p}
    ensures Listed(s') == Listed(s)
  {
    TableUpdate(s.queues, i, q);
    Cancel(Blocked(s.queues), Members(q), Blocked(s'.queues) + multiset{p});
  }

  lemma UnblockInv(s: State, i: nat, q: MessageQueue, p: Pid, pcb: PCB, pools: Pools)
    requires Inv(s) && i < |s.queues| && Leaves(s, i, q, p)
    requires p in s.pcbs && pcb.status == Ready
    requires var c := s.pcbs[p]; pcb.parent == c.parent && pcb.children == c.children && pcb.timer == c.timer
    requires pools == s.pools.(messages := s.pools.messages + |s.queues[i].messages| - |q.messages|)
    ensures Inv(s.(queues := s.queues[i := q], ready := s.ready + [p], pcbs := s.pcbs[p := pcb], pools := pools))
  {
    hide FamilyOk, StatusOk, TimersOk, NothingDue, PoolsOk, TableOk, QueueOk, Listed;
    assert p in Members(s.queues[i]);
    BlockedOnce(s, i, p);
    var s' := s.(queues := s.queues[i := q], ready := s.ready + [p], pcbs := s.pcbs[p := pcb], pools := pools);
    UnblockStatus(s, s', i, q, p, pcb);
    assert s'.pcbs.Keys == s.pcbs.Keys;
    FamilyKept(s.pcbs, s'.pcbs);
    TimersKept(s.pcbs, s'.pcbs, s.waiting, s.timers);
    TableWithQueue(s.queues, i, q);
    PoolsWithQueue(s, s', i, q);
    UnblockListed(s, s', i, q, p);
  }

  // ----- send and receive

  lemma FirstLeaves(q: MessageQueue)
    ensures q.receivers != [] ==> Members(q) == Members(q.(receivers := q.receivers[1..])) + multiset{q.receivers[0]}
    ensures q.senders != [] ==> Members(q) == Members(q.(senders := q.senders[1..])) + multiset{q.senders[0]}
  {
    if q.receivers != [] { HeadTail(q.receivers); }
    if q.senders != [] { HeadTail(q.senders); }
  }

  /** The message pool has room whenever some queue has. */
  lemma {:induction false} QueuedBound(qs: seq<MessageQueue>)
    requires forall i :: 0 <= i < |qs| ==> |qs[i].messages| <= MAX_MESSAGES_PER_QUEUE
    ensures Queued(qs) <= MAX_MESSAGES_PER_QUEUE * |qs|
  {
    if qs != [] {
      QueuedBound(qs[1..]);
    }
  }

  lemma MessagePoolHasRoom(s: State, i: nat)
    requires Inv(s) && i < |s.queues| && s.queues[i].current < s.queues[i].capacity
    ensures s.pools.messages > 0
  {
    hide FamilyOk, StatusOk, TimersOk, NothingDue;
    var rest := s.queues[..i] + s.queues[i + 1..];
    TableSplit(s.queues, i);
    assert QueueOk(s.queues[i]);
    forall j | 0 <= j < |rest| ensures |rest[j].messages| <= MAX_MESSAGES_PER_QUEUE {
      assert QueueOk(if j < i then s.queues[j] else s.queues[j + 1]);
    }
    QueuedBound(rest);
  }

  lemma QueueChangeInv(s: State, i: nat, q: MessageQueue, pools: Pools)
    requires Inv(s) && i < |s.queues|
    requires q == s.queues[i].(messages := q.messages, current := q.current) && QueueOk(q)
    requires pools == s.pools.(messages := s.pools.messages + |s.queues[i].messages| - |q.messages|)
    ensures Inv(s.(queues := s.queues[i := q], pools := pools))
  {
    hide FamilyOk, StatusOk, TimersOk, NothingDue, PoolsOk, TableOk, QueueOk, PidsOk, OnePlace;
    var s' := s.(queues := s.queues[i := q], pools := pools);
    SameWaiters(s, s', i, q);
    TableWithQueue(s.queues, i, q);
    PoolsWithQueue(s, s', i, q);
    SameWaitersListed(s, s', i, q);
  }

  lemma SameWaiters(s: State, s': State, i: nat, q: MessageQueue)
    requires StatusOk(s) && i < |s.queues| && q == s.queues[i].(messages := q.messages, current := q.current)
    requires s' == s.(queues := s.queues[i := q], pools := s'.pools)
    ensures StatusOk(s')
  {
    assert QueueStatusOk(s.pcbs, s.queues[i]);
    StatusWithQueue(s, i, q);
  }

  lemma SameWaitersListed(s: State, s': State, i: nat, q: MessageQueue)
    requires OnePlace(s) && i < |s.queues| && q == s.queues[i].(messages := q.messages, current := q.current)
    requires s' == s.(queues := s.queues[i := q], pools := s'.pools)
    ensures OnePlace(s')
  {
    TableUpdate(s.queues, i, q);
    Cancel(Blocked(s'.queues), Members(q), Blocked(s.queues));
  }

  lemma ReturningInv(s: State, v: int)
    requires Inv(s)
    ensures Inv(Returning(s, v))
  {
    hide FamilyOk, StatusOk, TimersOk, NothingDue, PoolsOk, TableOk;
    RunningTweaked(s, s.pcbs[s.running].(ret := v));
  }

  lemma DeliverRunningInv(s: State, room: int, data: seq<Byte>)
    requires Inv(s)
    ensures Inv(s.(pcbs := Deliver(s.pcbs, s.running, room, data)))
  {
    hide FamilyOk, StatusOk, TimersOk, NothingDue, PoolsOk, TableOk;
    RunningTweaked(s, At(Deliver(s.pcbs, s.running, room, data), s.running));
  }

  lemma SendJoins(s: State, i: nat)
    requires Inv(s) && i < |s.queues|
    requires s.pcbs[s.running].call.Send? && s.pcbs[s.running].call.queueId == s.queues[i].id
    requires 0 < s.pcbs[s.running].call.size <= MESSAGE_MAX_SIZE
    requires s.pcbs[s.running].call.size <= |s.pcbs[s.running].call.buffer|
    ensures Joins(s, i, s.queues[i].(senders := s.queues[i].senders + [s.running]))
  {
    hide FamilyOk, TimersOk, NothingDue, PoolsOk, OnePlace, PidsOk, WaitingOk, Have, Joins;
    assert QueueStatusOk(s.pcbs, s.queues[i]) && QueueOk(s.queues[i]);
    hide TableOk, QueueOk, StatusOk;
    SenderJoins(s, i);
  }

  lemma SenderJoins(s: State, i: nat)
    requires s.running in s.pcbs && i < |s.queues| && QueueOk(s.queues[i]) && QueueStatusOk(s.pcbs, s.queues[i])
    requires s.pcbs[s.running].call.Send? && s.pcbs[s.running].call.queueId == s.queues[i].id
    requires 0 < s.pcbs[s.running].call.size <= MESSAGE_MAX_SIZE
    requires s.pcbs[s.running].call.size <= |s.pcbs[s.running].call.buffer|
    requires s.pcbs[s.running].status == Running
    ensures Joins(s, i, s.queues[i].(senders := s.queues[i].senders + [s.running]))
  {
    assert s.queues[i].senders <= s.queues[i].senders + [s.running];
  }

  lemma ReceiveJoins(s: State, i: nat)
    requires Inv(s) && i < |s.queues| && s.queues[i].messages == []
    requires s.pcbs[s.running].call.Receive? && s.pcbs[s.running].call.queueId == s.queues[i].id
    requires 0 < s.pcbs[s.running].call.bufferSize
    ensures Joins(s, i, s.queues[i].(receivers := s.queues[i].receivers + [s.running]))
  {
    hide FamilyOk, TimersOk, NothingDue, PoolsOk;
    assert QueueStatusOk(s.pcbs, s.queues[i]) && QueueOk(s.queues[i]);
  }

  lemma FirstReceiverLeaves(s: State, i: nat)
    requires Inv(s) && i < |s.queues| && s.queues[i].receivers != []
    ensures var q := s.queues[i]; Leaves(s, i, q.(receivers := q.receivers[1..]), q.receivers[0])
    ensures s.queues[i].receivers[0] in Members(s.queues[i])
    ensures var r := s.queues[i].receivers[0]; r in s.pcbs && r != s.running
  {
    hide FamilyOk, StatusOk, TimersOk, NothingDue, PoolsOk;
    var q := s.queues[i];
    assert QueueOk(q);
    FirstLeaves(q);
    assert q.receivers[0] in q.receivers;
    BlockedOnce(s, i, q.receivers[0]);
  }

  lemma HandOverInv(s: State, i: nat, data: seq<Byte>)
    requires Inv(s) && i < |s.queues| && s.queues[i].receivers != []
    ensures Inv(HandOver(s, i, s.queues[i].receivers[0], data))
  {
    hide FamilyOk, StatusOk, TimersOk, NothingDue, PoolsOk, TableOk, Leaves, OnePlace, PidsOk;
    var q := s.queues[i];
    var r := q.receivers[0];
    FirstReceiverLeaves(s, i);
    var q' := q.(receivers := q.receivers[1..]);
    var room := if At(s.pcbs, r).call.Receive? then At(s.pcbs, r).call.bufferSize else 0;
    var m := SetStatus(Deliver(s.pcbs, r, room, data), r, Ready);
    var s1 := s.(queues := s.queues[i := q'], ready := s.ready + [r], pcbs := m);
    assert m == s.pcbs[r := m[r]];
    UnblockInv(s, i, q', r, m[r], s.pools);
    ReturningInv(s1, 0);
  }

  lemma SendInv(s: State, id: int, size: int, data: seq<Byte>)
    requires Inv(s)
    requires var c := s.pcbs[s.running].call;
             && c.Send? && c.queueId == id && c.size == size && data == Payload(c)
             && (0 < size <= MESSAGE_MAX_SIZE ==> size <= |c.buffer|)
    ensures Inv(SendStep(s, id, size, data))
  {
    hide FamilyOk, StatusOk, TimersOk, NothingDue, PoolsOk;
    var i := FindQueue(s.queues, id);
    if id <= 0 || size <= 0 || size > MESSAGE_MAX_SIZE || i == |s.queues| {
      ReturningInv(s, SendStep(s, id, size, data).pcbs[s.running].ret);
    } else {
      var q := s.queues[i];
      assert QueueOk(q);
      if q.current >= q.capacity {
        SendJoins(s, i);
        BlockInv(s, i, q.(senders := q.senders + [s.running]), EMQFULL);
      } else if q.receivers != [] {
        HandOverInv(s, i, data);
      } else {
        var q' := q.(messages := q.messages + [Message(data, s.running)], current := q.current + 1);
        var pools := s.pools.(messages := s.pools.messages - 1);
        assert QueueOk(q');
        QueueChangeInv(s, i, q', pools);
        ReturningInv(s.(queues := s.queues[i := q'], pools := pools), 0);
      }
    }
  }

  lemma SenderLeaves(s: State, i: nat, message: Message)
    requires Inv(s) && i < |s.queues| && s.queues[i].messages != [] && s.queues[i].senders != []
    requires message.data == Payload(At(s.pcbs, s.queues[i].senders[0]).call)
    ensures var q := s.queues[i];
            var q' := q.(messages := q.messages[1..] + [message], senders := q.senders[1..]);
            QueueOk(q') && Leaves(s, i, q', q.senders[0])
  {
    hide Inv;
    FirstSenderBlocked(s, i);
    FirstLeaves(s.queues[i]);
  }

  lemma FirstSenderBlocked(s: State, i: nat)
    requires Inv(s) && i < |s.queues| && s.queues[i].senders != []
    ensures var q := s.queues[i];
            QueueOk(q) && q.senders[0] in s.pcbs && BlockedSender(s.pcbs[q.senders[0]], q.id)
  {
    hide FamilyOk, NothingDue, TimersOk, PoolsOk, OnePlace, PidsOk;
    assert QueueStatusOk(s.pcbs, s.queues[i]) && s.queues[i].senders[0] in s.queues[i].senders;
  }

  lemma PromoteInv(s: State, i: nat, room: int)
    requires Inv(s) && i < |s.queues| && s.queues[i].messages != [] && s.queues[i].senders != []
    ensures Inv(Promote(s, i, room))
  {
    var q := s.queues[i];
    var w := q.senders[0];
    hide Inv, QueueOk, Leaves, Deliver, Payload;
    assert w in Members(q) by { assert w in q.senders; }
    BlockedOnce(s, i, w);
    var message := Message(Payload(At(s.pcbs, w).call), s.running);
    var q' := q.(messages := q.messages[1..] + [message], senders := q.senders[1..]);
    SenderLeaves(s, i, message);
    var m := Complete(s.pcbs, w, 0);
    var s1 := s.(queues := s.queues[i := q'], ready := s.ready + [w], pcbs := m);
    UnblockInv(s, i, q', w, m[w], s.pools);
    DeliverRunningInv(s1, room, q.messages[0].data);
  }

  lemma ReceiveInv(s: State, id: int, room: int)
    requires Inv(s)
    requires s.pcbs[s.running].call == Receive(id, room)
    ensures Inv(ReceiveStep(s, id, room))
  {
    hide FamilyOk, StatusOk, TimersOk, NothingDue, PoolsOk;
    var i := FindQueue(s.queues, id);
    if id <= 0 || room <= 0 || i == |s.queues| {
      ReturningInv(s, ReceiveStep(s, id, room).pcbs[s.running].ret);
    } else {
      var q := s.queues[i];
      assert QueueOk(q);
      if q.messages == [] {
        ReceiveJoins(s, i);
        BlockInv(s, i, q.(receivers := q.receivers + [s.running]), EMQEMPTY);
      } else if room >= |q.messages[0].data| && q.senders != [] {
        PromoteInv(s, i, room);
      } else {
        var q' := q.(messages := q.messages[1..], current := q.current - 1);
        var pools := s.pools.(messages := s.pools.messages + 1);
        assert QueueOk(q');
        QueueChangeInv(s, i, q', pools);
        DeliverRunningInv(s.(queues := s.queues[i := q'], pools := pools), room, q.messages[0].data);
      }
    }
  }

  // ----- create and destroy

  lemma AppendedStatus(s: State, s1: State, q: MessageQueue)
    requires StatusOk(s) && q.receivers == q.senders == []
    requires s1.queues == s.queues + [q] && s1.pcbs == s.pcbs
    requires s1.ready == s.ready && s1.waiting == s.waiting && s1.zombie == s.zombie
    ensures StatusOk(s1)
  {
    forall j | 0 <= j < |s1.queues| ensures QueueStatusOk(s1.pcbs, s1.queues[j]) {
      assert j < |s.queues| ==> QueueStatusOk(s.pcbs, s.queues[j]);
    }
  }

  lemma AppendedTable(qs: seq<MessageQueue>, q: MessageQueue)
    requires TableOk(qs) && QueueOk(q) && forall j :: 0 <= j < |qs| ==> qs[j].id != q.id
    ensures TableOk(qs + [q])
  {
  }

  lemma AppendQueueInv(s: State, q: MessageQueue)
    requires Inv(s) && s.pools.queues > 0
    requires QueueOk(q) && q.messages == [] && q.receivers == q.senders == []
    requires forall j :: 0 <= j < |s.queues| ==> s.queues[j].id != q.id
    ensures Inv(s.(queues := s.queues + [q], pools := s.pools.(queues := s.pools.queues - 1)))
  {
    hide FamilyOk, StatusOk, TimersOk, NothingDue, TableOk, QueueOk, PidsOk, Blocked, Queued;
    var s1 := s.(queues := s.queues + [q], pools := s.pools.(queues := s.pools.queues - 1));
    TableAppend(s.queues, q);
    AppendedTable(s.queues, q);
    assert Listed(s1) == Listed(s);
    AppendedStatus(s, s1, q);
  }

  lemma CreateInv(s: State, id: int, capacity: int)
    requires Inv(s)
    ensures Inv(CreateStep(s, id, capacity))
  {
    hide FamilyOk, StatusOk, TimersOk, NothingDue, TableOk, PoolsOk, OnePlace, PidsOk;
    var s' := CreateStep(s, id, capacity);
    if id <= 0 || capacity <= 0 || capacity > MAX_MESSAGES_PER_QUEUE
       || FindQueue(s.queues, id) < |s.queues| || s.pools.queues <= 0 {
      ReturningInv(s, s'.pcbs[s.running].ret);
    } else {
      var q := MessageQueue(id, capacity, 0, Open, [], [], []);
      AppendQueueInv(s, q);
      ReturningInv(s.(queues := s.queues + [q], pools := s.pools.(queues := s.pools.queues - 1)), id);
    }
  }

  lemma CompletedStatus(s: State, s1: State, i: nat, v: int)
    requires StatusOk(s) && i < |s.queues|
    requires var ps := s.queues[i].receivers + s.queues[i].senders;
             && s1.pcbs == CompleteAll(s.pcbs, ps, v)
             && s1.ready == s.ready + ps
             && (forall p :: p in ps ==> p !in s.waiting && p !in s.zombie)
             && (forall p, j :: p in ps && 0 <= j < |s.queues| && j != i ==> p !in Members(s.queues[j]))
    requires s1.waiting == s.waiting && s1.zombie == s.zombie
    requires s1.queues == s.queues[..i] + s.queues[i + 1..]
    ensures StatusOk(s1)
  {
    var ps := s.queues[i].receivers + s.queues[i].senders;
    assert QueueStatusOk(s.pcbs, s.queues[i]);
    forall j | 0 <= j < |s1.queues| ensures QueueStatusOk(s1.pcbs, s1.queues[j]) {
      var k := if j < i then j else j + 1;
      var q := s.queues[k];
      assert s1.queues[j] == q && QueueStatusOk(s.pcbs, q);
      forall p | p in q.receivers ensures p in s1.pcbs && BlockedReceiver(s1.pcbs[p], q.id) {
        assert p in Members(q);
        assert p !in ps;
      }
      forall p | p in q.senders ensures p in s1.pcbs && BlockedSender(s1.pcbs[p], q.id) {
        assert p in Members(q);
        assert p !in ps;
      }
    }
  }

  lemma RemovedTable(qs: seq<MessageQueue>, i: nat)
    requires TableOk(qs) && i < |qs|
    ensures TableOk(qs[..i] + qs[i + 1..])
  {
    var r := qs[..i] + qs[i + 1..];
    forall j | 0 <= j < |r| ensures QueueOk(r[j]) {
      assert r[j] == qs[if j < i then j else j + 1];
    }
  }

  lemma AllMembersApart(s: State, i: nat)
    requires Inv(s) && i < |s.queues|
    ensures var ps := s.queues[i].receivers + s.queues[i].senders;
            && (forall p :: p in ps ==> p in s.pcbs && p !in s.waiting && p !in s.zombie && p != s.running)
            && (forall p, j :: p in ps && 0 <= j < |s.queues| && j != i ==> p !in Members(s.queues[j]))
  {
    hide Inv;
    var ps := s.queues[i].receivers + s.queues[i].senders;
    forall p | p in ps
      ensures p in s.pcbs && p !in s.waiting && p !in s.zombie && p != s.running
      ensures forall j :: 0 <= j < |s.queues| && j != i ==> p !in Members(s.queues[j])
    {
      assert p in Members(s.queues[i]);
      BlockedOnce(s, i, p);
    }
  }

  lemma DrainCounts(s: State, s1: State, i: nat)
    requires PoolsOk(s) && i < |s.queues|
    requires s1.queues == s.queues[..i] + s.queues[i + 1..]
    requires s1.ready == s.ready + (s.queues[i].receivers + s.queues[i].senders)
    requires s1.waiting == s.waiting && s1.zombie == s.zombie
    requires s1.pcbs.Keys == s.pcbs.Keys && s1.timers == s.timers
    requires s1.pools == s.pools.(queues := s.pools.queues + 1,
                                  messages := s.pools.messages + |s.queues[i].messages|)
    ensures Listed(s1) == Listed(s) && PoolsOk(s1)
  {
    TableSplit(s.queues, i);
    assert multiset(s1.ready) == multiset(s.ready) + Members(s.queues[i]);
    assert |s1.pcbs| == |s1.pcbs.Keys| == |s.pcbs|;
  }

  lemma DrainInv(s: State, i: nat, v: int)
    requires Inv(s) && i < |s.queues|
    ensures var q := s.queues[i];
            Inv(s.(queues := s.queues[..i] + s.queues[i + 1..],
                   ready := s.ready + (q.receivers + q.senders),
                   pools := s.pools.(queues := s.pools.queues + 1,
                                     messages := s.pools.messages + |q.messages|),
                   pcbs := CompleteAll(s.pcbs, q.receivers + q.senders, v)))
  {
    hide FamilyOk, StatusOk, TimersOk, NothingDue, TableOk, QueueOk, PoolsOk;
    AllMembersApart(s, i);
    var q := s.queues[i];
    var ps := q.receivers + q.senders;
    var s1 := s.(queues := s.queues[..i] + s.queues[i + 1..],
                 ready := s.ready + ps,
                 pools := s.pools.(queues := s.pools.queues + 1,
                                   messages := s.pools.messages + |q.messages|),
                 pcbs := CompleteAll(s.pcbs, ps, v));
    assert s1.pcbs.Keys == s.pcbs.Keys;
    CompletedStatus(s, s1, i, v);
    CompletedFamily(s, i, v);
    TimersKept(s.pcbs, s1.pcbs, s.waiting, s.timers);
    RemovedTable(s.queues, i);
    DrainCounts(s, s1, i);
  }

  lemma CompletedFamily(s: State, i: nat, v: int)
    requires Inv(s) && i < |s.queues|
    ensures FamilyOk(CompleteAll(s.pcbs, s.queues[i].receivers + s.queues[i].senders, v))
  {
    hide FamilyOk, TimersOk, NothingDue, PoolsOk, TableOk;
    var ps := s.queues[i].receivers + s.queues[i].senders;
    assert QueueStatusOk(s.pcbs, s.queues[i]);
    assert forall p :: p in ps ==> p in s.queues[i].receivers || p in s.queues[i].senders;
    FamilyKept(s.pcbs, CompleteAll(s.pcbs, ps, v));
  }

  lemma DestroyInv(s: State, id: int)
    requires Inv(s)
    ensures Inv(DestroyStep(s, id))
  {
    hide FamilyOk, StatusOk, TimersOk, NothingDue, TableOk, PoolsOk, OnePlace, PidsOk;
    var i := FindQueue(s.queues, id);
    if id <= 0 || i == |s.queues| {
      ReturningInv(s, EMQINVALID);
    } else {
      var q := s.queues[i];
      DrainInv(s, i, EMQNOTOPEN);
      ReturningInv(s.(queues := s.queues[..i] + s.queues[i + 1..],
                      ready := s.ready + (q.receivers + q.senders),
                      pools := s.pools.(queues := s.pools.queues + 1,
                                        messages := s.pools.messages + |q.messages|),
                      pcbs := CompleteAll(s.pcbs, q.receivers + q.senders, EMQNOTOPEN)), id);
    }
  }
}
