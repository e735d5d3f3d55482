/** The steps that schedule, put to sleep, create, collect and end processes keep the
    invariant, and with them every step that the kernel may be asked for. */
module ProcessInvariant {
  import opened Lists
  import opened KernelState
  import opened KernelSteps
  import opened KernelInvariant

  // ----- timers that have elapsed

  lemma ElapsedPrefix(ts: seq<Timer>, now: int)
    ensures Elapsed(ts, now) == TimerPids(ts)[..|Elapsed(ts, now)|]
  {
  }

  lemma ElapsedWait(s: State)
    requires TimersOk(s.pcbs, s.waiting, s.timers)
    ensures var ws := Elapsed(s.timers, s.time);
            && Distinct(ws)
            && (forall p :: p in ws ==> p in s.waiting && p in s.pcbs && s.pcbs[p].timer)
  {
    ElapsedPrefix(s.timers, s.time);
    var ws := Elapsed(s.timers, s.time);
    assert forall p :: p in ws ==> p in TimerPids(s.timers);
  }

  lemma WokenQueue(m: Processes, ws: seq<Pid>, q: MessageQueue)
    requires QueueStatusOk(m, q)
    requires forall p :: p in ws && p in m ==> !m[p].call.Send? && !m[p].call.Receive?
    ensures QueueStatusOk(WakePcbs(m, ws), q)
  {
  }

  lemma WokenStatus(s: State)
    requires StatusOk(s)
    requires forall p :: p in Elapsed(s.timers, s.time) ==> p in s.waiting
    ensures StatusOk(Woken(s))
  {
    var s' := Woken(s);
    var ws := Elapsed(s.timers, s.time);
    assert forall p :: p in s'.ready <==> p in ws || p in s.ready;
    forall i | 0 <= i < |s.queues| ensures QueueStatusOk(s'.pcbs, s.queues[i]) {
      assert QueueStatusOk(s.pcbs, s.queues[i]);
      WokenQueue(s.pcbs, ws, s.queues[i]);
    }
  }

  lemma RestTimers(ts: seq<Timer>, k: nat)
    requires k <= |ts| && SortedTimers(ts) && Distinct(TimerPids(ts))
    ensures SortedTimers(ts[k..]) && Distinct(TimerPids(ts[k..]))
    ensures forall p :: p in TimerPids(ts) <==> p in TimerPids(ts)[..k] || p in TimerPids(ts[k..])
    ensures forall p :: p in TimerPids(ts[k..]) ==> p !in TimerPids(ts)[..k]
  {
    hide Distinct;
    assert TimerPids(ts[k..]) == TimerPids(ts)[k..];
    DistinctSplit(TimerPids(ts), k);
  }

  lemma WokenTimers(s: State)
    requires TimersOk(s.pcbs, s.waiting, s.timers)
    ensures TimersOk(Woken(s).pcbs, Woken(s).waiting, Woken(s).timers)
    ensures NothingDue(Woken(s).timers, s.time)
  {
    var ws := Elapsed(s.timers, s.time);
    ElapsedPrefix(s.timers, s.time);
    RestTimers(s.timers, |ws|);
    hide SortedTimers, Distinct;
    var s' := Woken(s);
    assert s'.timers == s.timers[|ws|..];
    assert forall p :: p in TimerPids(s'.timers) ==> p in s'.waiting && p in s'.pcbs && s'.pcbs[p].timer;
    assert forall p :: p in s'.pcbs && s'.pcbs[p].timer ==> p in TimerPids(s'.timers);
    WokenNothingDue(s);
  }

  lemma WokenNothingDue(s: State)
    requires SortedTimers(s.timers)
    ensures NothingDue(Woken(s).timers, s.time)
  {
    var k := |Elapsed(s.timers, s.time)|;
    forall i | k <= i < |s.timers| ensures s.time < s.timers[i].time {
      assert s.timers[k].time <= s.timers[i].time;
    }
  }

  lemma WokenListed(s: State)
    requires TimersOk(s.pcbs, s.waiting, s.timers) && Distinct(s.waiting)
    ensures Listed(Woken(s)) == Listed(s)
  {
    ElapsedWait(s);
    WithoutCounts(s.waiting, Elapsed(s.timers, s.time));
  }

  lemma WokenFamily(s: State)
    requires TimersOk(s.pcbs, s.waiting, s.timers) && WaitingOk(s.pcbs, s.waiting)
    requires FamilyOk(s.pcbs)
    ensures FamilyOk(Woken(s).pcbs)
  {
    ElapsedWait(s);
    hide FamilyOk, TimersOk;
    FamilyKept(s.pcbs, Woken(s).pcbs);
  }

  lemma WokenPools(s: State)
    requires PoolsOk(s)
    ensures PoolsOk(Woken(s))
  {
    assert Woken(s).pcbs.Keys == s.pcbs.Keys;
    assert |Woken(s).pcbs| == |s.pcbs.Keys| == |s.pcbs|;
  }

  /** Waking the sleepers whose time has come leaves nothing due. */
  lemma WokenInv(s: State)
    requires Common(s) && OnePlace(s)
    requires s.running in s.pcbs && s.pcbs[s.running].status == Running
    ensures Inv(Woken(s))
  {
    hide FamilyOk, StatusOk, TableOk, NothingDue, TimersOk, PoolsOk, PidsOk, WaitingOk, Listed, NoRepeats, Elapsed,
         Without;
    WokenPlaces(s);
    WokenFamily(s);
    ElapsedWait(s);
    WokenStatus(s);
    WokenRunning(s);
    WokenTimers(s);
    WokenListed(s);
    WokenPools(s);
    WokenKeys(s);
  }

  lemma WokenPlaces(s: State)
    requires OnePlace(s) && StatusOk(s)
    ensures Distinct(s.waiting) && WaitingOk(s.pcbs, s.waiting)
  {
    hide Elapsed;
    ListedOnce(s);
  }

  lemma WokenKeys(s: State)
    requires PidsOk(s.pcbs, s.lastPid)
    ensures Woken(s).pcbs.Keys == s.pcbs.Keys && PidsOk(Woken(s).pcbs, s.lastPid)
  {
    hide Elapsed, Without;
  }

  lemma WokenRunning(s: State)
    requires WaitingOk(s.pcbs, s.waiting) && TimersOk(s.pcbs, s.waiting, s.timers)
    requires s.running in s.pcbs && s.pcbs[s.running].status == Running
    ensures Woken(s).pcbs[s.running] == s.pcbs[s.running]
  {
    ElapsedWait(s);
  }

  lemma LaterCommon(s: State, s1: State)
    requires Inv(s) && s1 == s.(time := s1.time)
    ensures Common(s1) && OnePlace(s1)
  {
    hide FamilyOk, TableOk, TimersOk;
  }

  lemma TickInv(s: State)
    requires Inv(s)
    ensures Inv(Step(s, Tick))
  {
    hide Common, OnePlace, NothingDue;
    var s1 := s.(time := s.time + 1);
    LaterCommon(s, s1);
    WokenInv(s1);
    RotateInv(Woken(s1));
  }

  /** Within a system call nothing is due, so scheduling only rotates. */
  lemma ScheduleIsRotate(s: State)
    requires NothingDue(s.timers, s.time)
    ensures Schedule(s) == Rotate(s)
  {
    assert Elapsed(s.timers, s.time) == [];
    WithoutNothing(s.waiting);
    assert WakePcbs(s.pcbs, []) == s.pcbs;
    assert [] + s.ready == s.ready;
    assert Woken(s) == s;
  }

  // ----- sleep

  lemma InsertedSorted(ts: seq<Timer>, t: Timer)
    requires SortedTimers(ts)
    ensures SortedTimers(InsertTimer(ts, t))
  {
    var k := TimerSlot(ts, t.time);
    var r := InsertTimer(ts, t);
    forall i, j | 0 <= i <= j < |r| ensures r[i].time <= r[j].time {
      assert r[i] == if i < k then ts[i] else if i == k then t else ts[i - 1];
      assert r[j] == if j < k then ts[j] else if j == k then t else ts[j - 1];
    }
  }

  lemma TimerInserted(m: Processes, waiting: seq<Pid>, ts: seq<Timer>, t: Timer, pcb: PCB)
    requires TimersOk(m, waiting, ts)
    requires t.pid in m && !m[t.pid].timer && pcb.timer
    ensures TimersOk(m[t.pid := pcb], waiting + [t.pid], InsertTimer(ts, t))
  {
    hide SortedTimers, Distinct, InsertTimer;
    InsertedPids(ts, t);
    var k := TimerSlot(ts, t.time);
    var ps := TimerPids(ts);
    assert ps == ps[..k] + ps[k..];
    assert t.pid !in ps;
    DistinctInsert(ps, k, t.pid);
    InsertedSorted(ts, t);
  }

  lemma InsertedPids(ts: seq<Timer>, t: Timer)
    ensures var k, ps := TimerSlot(ts, t.time), TimerPids(ts);
            TimerPids(InsertTimer(ts, t)) == ps[..k] + [t.pid] + ps[k..]
  {
  }

  /** The timer pool cannot run out: each timer belongs to another process than the running one. */
  lemma TimerPoolHasRoom(s: State)
    requires Inv(s)
    ensures s.pools.timers > 0
  {
    hide FamilyOk, StatusOk, TableOk, NothingDue;
    var ps := TimerPids(s.timers);
    var all := multiset(s.pcbs.Keys);
    DistinctCounts(ps);
    assert !s.pcbs[s.running].timer by { PlacesApart(s); }
    forall p ensures multiset(ps)[p] <= (all - multiset{s.running})[p] {
      assert p in ps ==> p in s.pcbs && p != s.running;
    }
    assert multiset(ps) <= all - multiset{s.running};
    assert all - multiset{s.running} == multiset(ps) + (all - multiset{s.running} - multiset(ps));
    assert all == multiset{s.running} + (all - multiset{s.running});
    assert |ps| == |multiset(ps)| < |all| == |s.pcbs.Keys| == |s.pcbs|;
  }

  lemma AsleepStatus(s: State, cycles: int)
    requires Inv(s) && s.pcbs[s.running].call.Sleep?
    ensures StatusOk(Asleep(s, cycles))
  {
    hide FamilyOk, TableOk, NothingDue, TimersOk, PoolsOk, OnePlace, PidsOk, InsertTimer;
    var pcb := Asleep(s, cycles).pcbs[s.running];
    StatusElsewhere(s, pcb);
    forall i | 0 <= i < |s.queues| ensures QueueStatusOk(Asleep(s, cycles).pcbs, s.queues[i]) {
      assert QueueStatusOk(s.pcbs[s.running := pcb], s.queues[i]);
    }
  }

  lemma AsleepTimers(s: State, cycles: int)
    requires Inv(s) && cycles > 0
    ensures var s1 := Asleep(s, cycles); TimersOk(s1.pcbs, s1.waiting, s1.timers) && NothingDue(s1.timers, s1.time)
  {
    hide FamilyOk, StatusOk, TableOk, TimersOk, OnePlace, PoolsOk, PidsOk;
    PlacesApart(s);
    var s1 := Asleep(s, cycles);
    TimerInserted(s.pcbs, s.waiting, s.timers, Timer(s.time + cycles, s.running), s1.pcbs[s.running]);
  }

  lemma AsleepParked(s: State, cycles: int)
    requires Inv(s) && s.pcbs[s.running].call.Sleep? && cycles > 0
    ensures Parked(Asleep(s, cycles))
  {
    hide FamilyOk, StatusOk, TableOk, TimersOk, NothingDue;
    AsleepStatus(s, cycles);
    AsleepTimers(s, cycles);
    var s1 := Asleep(s, cycles);
    assert s1.pcbs.Keys == s.pcbs.Keys && |s1.pcbs| == |s1.pcbs.Keys| == |s.pcbs|;
    ParkInv(s, s1, s1.pcbs[s.running]);
  }

  /** Sleep keeps the invariant exactly when there is somebody to give the processor to,
      or nothing to sleep for. */
  lemma SleepInv(s: State, cycles: int)
    requires Inv(s) && s.pcbs[s.running].call.Sleep?
    ensures Inv(SleepStep(s, cycles)) <==> (cycles <= 0 || s.ready != [])
  {
    hide FamilyOk, StatusOk, TableOk, TimersOk, NothingDue, PoolsOk, OnePlace;
    if cycles <= 0 {
      ReturningInv(s, 0);
    } else {
      AsleepParked(s, cycles);
      if s.ready != [] {
        SwitchInv(Asleep(s, cycles));
      }
    }
  }

  // ----- spawn

  lemma SpawnedFamily(m: Processes, p: Pid, child: Pid, m': Processes)
    requires FamilyOk(m) && PidsOk(m, child)
    requires p in m && m[p].status != Zombie
    requires m'.Keys == m.Keys + {child} && m'[child] == NEW_PCB.(parent := Some(p))
    requires m'[p].children == m[p].children + [child] && m'[p].parent == m[p].parent && m'[p].status == m[p].status
    requires forall q :: q in m && q != p ==> m'[q] == m[q]
    ensures FamilyOk(m')
  {
    hide ParentOk, PidsOk;
    SpawnedHolds(m, p, child, m');
    assert m[p].children + [child] == m'[p].children && !Holds(m, p, child);
    assert Distinct(m'[p].children);
    assert forall q :: q in m' && m'[q].status == Zombie ==> q in m && q != p;
    assert forall q, r, c :: Holds(m', q, c) && Holds(m', r, c) ==> q == r;
    forall q, c | Holds(m', q, c) ensures ChildOk(m', q, c) {
      if c != child { assert ChildOk(m, q, c); }
    }
    forall c | c in m' && c != INIT ensures ParentOk(m', c) {
      if c != child {
        assert ParentOk(m, c);
        SpawnedParentOk(m, p, child, m', c);
      } else {
        NewParentOk(m, p, child, m');
      }
    }
  }

  lemma SpawnedHolds(m: Processes, p: Pid, child: Pid, m': Processes)
    requires FamilyOk(m) && PidsOk(m, child) && p in m
    requires m'.Keys == m.Keys + {child} && m'[child] == NEW_PCB.(parent := Some(p))
    requires m'[p].children == m[p].children + [child]
    requires forall q :: q in m && q != p ==> m'[q] == m[q]
    ensures child !in m && p < child
    ensures forall q :: !Holds(m, q, child)
    ensures forall q, c :: Holds(m', q, c) <==> Holds(m, q, c) || (q == p && c == child)
  {
    assert child !in m;
    assert forall q :: Holds(m, q, child) ==> ChildOk(m, q, child);
  }

  lemma SpawnedParentOk(m: Processes, p: Pid, child: Pid, m': Processes, c: Pid)
    requires ParentOk(m, c) && p in m && child !in m && c != child
    requires m'.Keys == m.Keys + {child} && m'[child].parent == Some(p)
    requires m'[p].parent == m[p].parent && m'[p].status == m[p].status
    requires forall q :: q in m && q != p ==> m'[q] == m[q]
    requires forall q, c :: Holds(m', q, c) <==> Holds(m, q, c) || (q == p && c == child)
    requires PidsOk(m, child)
    ensures ParentOk(m', c)
  {
    hide Holds;
  }

  lemma NewParentOk(m: Processes, p: Pid, child: Pid, m': Processes)
    requires p in m && p < child && m'.Keys == m.Keys + {child} && m'[child].parent == Some(p)
    requires Holds(m', p, child)
    ensures ParentOk(m', child)
  {
  }

  lemma SpawnStatus(s: State)
    requires Inv(s) && s.lastPid !in s.pcbs
    ensures StatusOk(SpawnStep(s))
  {
    hide FamilyOk, TableOk, NothingDue, TimersOk, PoolsOk, OnePlace;
    forall i | 0 <= i < |s.queues| ensures QueueStatusOk(SpawnStep(s).pcbs, s.queues[i]) {
      assert QueueStatusOk(s.pcbs, s.queues[i]);
    }
  }

  lemma SpawnTimers(s: State)
    requires TimersOk(s.pcbs, s.waiting, s.timers) && s.lastPid !in s.pcbs && s.running in s.pcbs
    ensures TimersOk(SpawnStep(s).pcbs, s.waiting, s.timers)
  {
  }

  lemma SpawnedInv(s: State)
    requires Inv(s) && s.pools.pcbs > 0 && s.pools.refs > 0 && s.lastPid !in s.pcbs
    ensures Inv(SpawnStep(s))
  {
    hide FamilyOk, StatusOk, TableOk, TimersOk, NothingDue;
    var s' := SpawnStep(s);
    SpawnStatus(s);
    SpawnTimers(s);
    SpawnedFamily(s.pcbs, s.running, s.lastPid, s'.pcbs);
    assert s'.pcbs.Keys == s.pcbs.Keys + {s.lastPid};
    assert |s'.pcbs| == |s'.pcbs.Keys| == |s.pcbs.Keys| + 1 == |s.pcbs| + 1;
    assert multiset(s'.pcbs.Keys) == multiset(s.pcbs.Keys) + multiset{s.lastPid};
  }

  lemma SpawnInv(s: State)
    requires Inv(s) && (s.pools.pcbs > 0 ==> s.pools.refs > 0)
    ensures Inv(SpawnStep(s))
  {
    hide FamilyOk, StatusOk, TableOk, TimersOk, NothingDue, PoolsOk, OnePlace;
    if s.pools.pcbs <= 0 {
      ReturningInv(s, ESPAWN);
    } else {
      SpawnedInv(s);
    }
  }

  // ----- where a process must be

  lemma {:induction false} BlockedWhere(qs: seq<MessageQueue>, p: Pid)
    requires p in Blocked(qs)
    ensures exists i :: 0 <= i < |qs| && p in Members(qs[i])
  {
    if p in Members(qs[0]) {
    } else {
      BlockedWhere(qs[1..], p);
      var i :| 0 <= i < |qs[1..]| && p in Members(qs[1..][i]);
      assert qs[i + 1] == qs[1..][i];
    }
  }

  /** The status of a live process tells its place. */
  lemma PlaceOf(s: State, p: Pid)
    requires Inv(s) && p in s.pcbs && p != s.running
    ensures s.pcbs[p].status == Ready <==> p in s.ready
    ensures s.pcbs[p].status == Zombie <==> p in s.zombie
    ensures s.pcbs[p].status == Waiting && (s.pcbs[p].call.Wait? || s.pcbs[p].call.Sleep?) <==> p in s.waiting
    ensures s.pcbs[p].status != Running
    ensures s.pcbs[p].status == Waiting && (s.pcbs[p].call.Send? || s.pcbs[p].call.Receive?)
            <==> exists i :: 0 <= i < |s.queues| && p in Members(s.queues[i])
  {
    hide FamilyOk, TableOk, TimersOk, NothingDue, PoolsOk, PidsOk;
    assert p in multiset{s.running} + Listed(s);
    if p in Blocked(s.queues) {
      BlockedWhere(s.queues, p);
    }
    forall i | 0 <= i < |s.queues| && p in Members(s.queues[i])
      ensures s.pcbs[p].status == Waiting && (s.pcbs[p].call.Send? || s.pcbs[p].call.Receive?)
    {
      assert QueueStatusOk(s.pcbs, s.queues[i]);
    }
  }

  // ----- wait

  lemma ChildGone(m: Processes, q: Pid, c: Pid, m': Processes)
    requires FamilyOk(m) && Holds(m, q, c) && q != c && m[c].children == []
    requires m'.Keys == m.Keys - {c}
    requires forall p :: p in m' ==> m'[p].parent == m[p].parent && (m'[p].status == Zombie <==> m[p].status == Zombie)
    requires forall p :: p in m' && p != q ==> m'[p].children == m[p].children
    requires m'[q].children == Remove(m[q].children, c)
    ensures FamilyOk(m')
  {
    RemoveCounts(m[q].children, c);
    DistinctCounts(m[q].children);
    RemoveMember(m[q].children, c);
    assert ChildOk(m, q, c);
    forall p, d ensures Holds(m', p, d) <==> Holds(m, p, d) && d != c {
      assert p == c ==> !Holds(m, p, d);
      assert Holds(m, p, c) ==> p == q;
    }
    forall p, d | Holds(m', p, d) ensures ChildOk(m', p, d) {
      assert ChildOk(m, p, d);
    }
    forall d | d in m' && d != INIT ensures ParentOk(m', d) {
      assert ParentOk(m, d);
    }
  }

  lemma ReapStatus(s: State, c: Pid, hasResult: bool)
    requires StatusOk(s) && Distinct(s.zombie) && c in s.zombie
    requires s.running in s.pcbs && s.pcbs[s.running].status == Running
    ensures StatusOk(Reap(s, c, hasResult))
  {
    var s' := Reap(s, c, hasResult);
    RemoveMember(s.zombie, c);
    forall i | 0 <= i < |s.queues| ensures QueueStatusOk(s'.pcbs, s.queues[i]) {
      assert QueueStatusOk(s.pcbs, s.queues[i]);
    }
  }

  lemma ReapTimers(s: State, c: Pid, hasResult: bool)
    requires TimersOk(s.pcbs, s.waiting, s.timers) && WaitingOk(s.pcbs, s.waiting)
    requires c in s.pcbs && s.pcbs[c].status == Zombie && s.running in s.pcbs
    ensures TimersOk(Reap(s, c, hasResult).pcbs, s.waiting, s.timers)
  {
  }

  lemma ReapPools(s: State, c: Pid, hasResult: bool)
    requires PoolsOk(s) && c in s.pcbs && s.running in s.pcbs
    ensures PoolsOk(Reap(s, c, hasResult))
  {
    var s' := Reap(s, c, hasResult);
    assert s'.pcbs.Keys == s.pcbs.Keys - {c};
    assert |s'.pcbs| == |s'.pcbs.Keys| == |s.pcbs.Keys| - 1 == |s.pcbs| - 1;
  }

  lemma ZombieChild(s: State, c: Pid)
    requires Inv(s) && Holds(s.pcbs, s.running, c) && At(s.pcbs, c).status == Zombie
    ensures c in s.pcbs && c != s.running && s.pcbs[c].children == [] && c in s.zombie
  {
    hide StatusOk, TableOk, TimersOk, NothingDue, PoolsOk, OnePlace;
    assert ChildOk(s.pcbs, s.running, c);
    PlaceOf(s, c);
  }

  lemma ReapInv(s: State, c: Pid, hasResult: bool)
    requires Inv(s) && Holds(s.pcbs, s.running, c) && At(s.pcbs, c).status == Zombie
    ensures Inv(Reap(s, c, hasResult))
  {
    hide FamilyOk, StatusOk, TableOk, TimersOk, NothingDue, PoolsOk, Remove, WaitingOk, QueueStatusOk;
    ZombieChild(s, c);
    var s' := Reap(s, c, hasResult);
    ReapLists(s, c, hasResult);
    ReapPools(s, c, hasResult);
    RemoveCounts(s.zombie, c);
    assert s'.pcbs.Keys == s.pcbs.Keys - {c};
    assert multiset(s.pcbs.Keys) == multiset(s'.pcbs.Keys) + multiset{c};
    ChildGone(s.pcbs, s.running, c, s'.pcbs);
    Cancel(multiset{s'.running} + Listed(s'), multiset{c}, multiset(s'.pcbs.Keys));
  }

  lemma ReapLists(s: State, c: Pid, hasResult: bool)
    requires Inv(s) && c in s.zombie
    ensures var s' := Reap(s, c, hasResult); StatusOk(s') && TimersOk(s'.pcbs, s'.waiting, s'.timers)
  {
    PlacesApart(s);
    hide FamilyOk, TableOk, TimersOk, NothingDue, PoolsOk;
    ReapStatus(s, c, hasResult);
    ReapTimers(s, c, hasResult);
  }

  lemma WaitParked(s: State)
    requires Inv(s) && s.pcbs[s.running].call.Wait?
    ensures Parked(s.(waiting := s.waiting + [s.running], pcbs := SetStatus(s.pcbs, s.running, Waiting)))
  {
    var pcb := s.pcbs[s.running].(status := Waiting);
    var s1 := s.(waiting := s.waiting + [s.running], pcbs := s.pcbs[s.running := pcb]);
    hide FamilyOk, StatusOk, TableOk, NothingDue, TimersOk, PoolsOk;
    PlacesApart(s);
    StatusElsewhere(s, pcb);
    WaitStatus(s, s1, pcb);
    assert s1.pcbs.Keys == s.pcbs.Keys;
    PoolsKept(s, s1);
    WaitTimers(s.pcbs, s.waiting, s.timers, s.running, pcb);
    ParkInv(s, s1, pcb);
  }

  lemma WaitTimers(m: Processes, waiting: seq<Pid>, ts: seq<Timer>, p: Pid, pcb: PCB)
    requires TimersOk(m, waiting, ts) && p in m && pcb.timer == m[p].timer
    ensures TimersOk(m[p := pcb], waiting + [p], ts)
  {
  }

  lemma WaitStatus(s: State, s1: State, pcb: PCB)
    requires StatusOk(s.(pcbs := s.pcbs[s.running := pcb]))
    requires pcb.status == Waiting && !pcb.timer && pcb.call.Wait?
    requires s1 == s.(waiting := s.waiting + [s.running], pcbs := s.pcbs[s.running := pcb])
    ensures StatusOk(s1)
  {
  }

  lemma WaitInv(s: State, pid: int, hasResult: bool)
    requires Inv(s) && s.pcbs[s.running].call.Wait?
    requires WaitBlocks(s, pid) ==> s.ready != []
    ensures Inv(WaitStep(s, pid, hasResult))
  {
    hide FamilyOk, StatusOk, TableOk, TimersOk, NothingDue, PoolsOk, OnePlace;
    var me := s.pcbs[s.running];
    if me.children == [] {
      ReturningInv(s, EWAIT);
    } else {
      var c := Awaited(s.pcbs, me.children, pid);
      if At(s.pcbs, c).status == Zombie {
        assert Holds(s.pcbs, s.running, c);
        ReapInv(s, c, hasResult);
      } else {
        WaitParked(s);
        SwitchInv(s.(waiting := s.waiting + [s.running], pcbs := SetStatus(s.pcbs, s.running, Waiting)));
      }
    }
  }

  // ----- exit

  lemma OrphanedHolds(m: Processes, p: Pid, value: int)
    requires FamilyOk(m) && p in m && p != INIT
    ensures forall q, c :: Holds(Orphaned(m, p, value), q, c) <==>
              (q != p && Holds(m, q, c)) || (q == INIT && Holds(m, p, c))
  {
  }

  lemma OrphanedFamily(m: Processes, p: Pid, value: int)
    requires FamilyOk(m) && p in m && p != INIT
    ensures FamilyOk(Orphaned(m, p, value))
  {
    var m' := Orphaned(m, p, value);
    OrphanedHolds(m, p, value);
    forall q, c | Holds(m', q, c) ensures ChildOk(m', q, c) {
      assert Holds(m, q, c) ==> ChildOk(m, q, c);
      assert Holds(m, p, c) ==> ChildOk(m, p, c);
    }
    forall c | c in m' && c != INIT ensures ParentOk(m', c) {
      assert ParentOk(m, c);
    }
    OrphanedDistinct(m, p, value);
  }

  lemma OrphanedDistinct(m: Processes, p: Pid, value: int)
    requires FamilyOk(m) && p in m && p != INIT
    ensures forall q :: q in Orphaned(m, p, value) ==> Distinct(Orphaned(m, p, value)[q].children)
  {
    var a, b := m[INIT].children, m[p].children;
    forall i, j | 0 <= i < |a| && 0 <= j < |b| ensures a[i] != b[j] {
      assert Holds(m, INIT, a[i]) && Holds(m, p, b[j]);
    }
    var ab := a + b;
    forall i, j | 0 <= i < j < |ab| ensures ab[i] != ab[j] {
      assert ab[i] == if i < |a| then a[i] else b[i - |a|];
      assert ab[j] == if j < |a| then a[j] else b[j - |a|];
    }
  }

  lemma ExitStatus(s: State, m: Processes)
    requires StatusOk(s) && m.Keys == s.pcbs.Keys
    requires s.running in s.pcbs && s.pcbs[s.running].status == Running && m[s.running].status == Zombie
    requires forall p :: p in m && p != s.running ==>
               m[p].status == s.pcbs[p].status && m[p].call == s.pcbs[p].call && m[p].timer == s.pcbs[p].timer
    ensures StatusOk(s.(zombie := s.zombie + [s.running], pcbs := m))
  {
    forall i | 0 <= i < |s.queues| ensures QueueStatusOk(m, s.queues[i]) {
      assert QueueStatusOk(s.pcbs, s.queues[i]);
    }
  }

  lemma InitThere(m: Processes)
    requires FamilyOk(m)
    ensures INIT in m
  {
  }

  lemma ExitParked(s: State, value: int)
    requires Inv(s) && s.running != INIT
    ensures Parked(s.(zombie := s.zombie + [s.running], pcbs := Orphaned(s.pcbs, s.running, value)))
  {
    hide FamilyOk, TableOk, NothingDue, TimersOk, PoolsOk, StatusOk;
    InitThere(s.pcbs);
    var m := Orphaned(s.pcbs, s.running, value);
    OrphanedFamily(s.pcbs, s.running, value);
    assert m.Keys == s.pcbs.Keys;
    var s1 := s.(zombie := s.zombie + [s.running], pcbs := m);
    ExitStatus(s, m);
    TimersKept(s.pcbs, m, s.waiting, s.timers);
    PoolsKept(s, s1);
  }

  lemma CollectedStatus(s: State, q: Pid, m': Processes, s': State)
    requires StatusOk(s) && Distinct(s.waiting) && q in s.waiting
    requires s.running in s.pcbs && s.pcbs[s.running].status == Running
    requires m'.Keys == s.pcbs.Keys - {s.running}
    requires forall p :: p in m' && p != q ==>
               m'[p].status == s.pcbs[p].status && m'[p].call == s.pcbs[p].call && m'[p].timer == s.pcbs[p].timer
    requires s' == s.(running := q, waiting := Remove(s.waiting, q), pools := s'.pools, pcbs := m')
    ensures StatusOk(s')
  {
    RemoveMember(s.waiting, q);
    forall i | 0 <= i < |s.queues| ensures QueueStatusOk(m', s.queues[i]) {
      assert QueueStatusOk(s.pcbs, s.queues[i]);
    }
  }

  lemma CollectedTimers(s: State, q: Pid, m': Processes)
    requires TimersOk(s.pcbs, s.waiting, s.timers) && Distinct(s.waiting) && q in s.waiting
    requires q in s.pcbs && !s.pcbs[q].timer && s.running in s.pcbs && !s.pcbs[s.running].timer
    requires m'.Keys == s.pcbs.Keys - {s.running}
    requires forall p :: p in m' ==> m'[p].timer == s.pcbs[p].timer
    ensures TimersOk(m', Remove(s.waiting, q), s.timers)
  {
    RemoveMember(s.waiting, q);
  }

  lemma CollectedFamily(s: State, q: Pid, value: int)
    requires Inv(s) && s.running != INIT && s.pcbs[s.running].parent == Some(q)
    requires WaitsFor(s.pcbs, q, s.running)
    ensures q != s.running && INIT in s.pcbs
    ensures FamilyOk(Collected(Orphaned(s.pcbs, s.running, value), s.running, q, value))
  {
    hide StatusOk, TimersOk, TableOk, NothingDue, PoolsOk, OnePlace;
    var p := s.running;
    var m := Orphaned(s.pcbs, p, value);
    assert ParentOk(s.pcbs, p);
    assert Holds(s.pcbs, q, p);
    OrphanedFamily(s.pcbs, p, value);
    OrphanedHolds(s.pcbs, p, value);
    assert Holds(m, q, p);
    ChildGone(m, q, p, Collected(m, p, q, value));
  }

  lemma CollectedListed(s: State, s': State, q: Pid)
    requires OnePlace(s) && q in s.waiting && s.running in s.pcbs
    requires s'.running == q && s'.waiting == Remove(s.waiting, q) && s'.ready == s.ready
    requires s'.zombie == s.zombie && s'.queues == s.queues
    requires s'.pcbs.Keys == s.pcbs.Keys - {s.running}
    ensures OnePlace(s')
  {
    RemoveCounts(s.waiting, q);
    assert multiset(s.pcbs.Keys) == multiset(s'.pcbs.Keys) + multiset{s.running};
    Cancel(multiset{q} + Listed(s'), multiset{s.running}, multiset(s'.pcbs.Keys));
  }

  lemma WaiterPlace(s: State, q: Pid)
    requires Inv(s) && q in s.pcbs && s.pcbs[q].status == Waiting && s.pcbs[q].call.Wait?
    ensures q in s.waiting && !s.pcbs[q].timer && q != s.running
  {
    hide FamilyOk, TableOk, NothingDue, TimersOk, PoolsOk;
    PlaceOf(s, q);
  }

  lemma CollectedInv(s: State, q: Pid, value: int)
    requires Inv(s) && s.running != INIT && s.pcbs[s.running].parent == Some(q)
    requires WaitsFor(s.pcbs, q, s.running)
    ensures Inv(ExitStep(s, value))
  {
    hide FamilyOk, TableOk, NothingDue, TimersOk, PoolsOk, StatusOk;
    var p := s.running;
    PlacesApart(s);
    CollectedFamily(s, q, value);
    WaiterPlace(s, q);
    var s' := ExitStep(s, value);
    var m' := Collected(Orphaned(s.pcbs, p, value), p, q, value);
    assert s'.pcbs == m' && m'.Keys == s.pcbs.Keys - {p};
    CollectedListed(s, s', q);
    CollectedStatus(s, q, m', s');
    CollectedTimers(s, q, m');
    CollectedPools(s, s');
  }

  lemma CollectedPools(s: State, s': State)
    requires PoolsOk(s) && s.running in s.pcbs && s'.pcbs.Keys == s.pcbs.Keys - {s.running}
    requires s'.pools == s.pools.(pcbs := s.pools.pcbs + 1) && s'.queues == s.queues && s'.timers == s.timers
    ensures PoolsOk(s')
  {
    assert |s'.pcbs| == |s'.pcbs.Keys| == |s.pcbs.Keys| - 1 == |s.pcbs| - 1;
  }

  lemma ExitIsNotInit(s: State)
    requires Inv(s) && At(s.pcbs, s.running).parent.Some?
    ensures s.running != INIT
  {
  }

  lemma OrphanedNotAnswered(s: State, q: Pid, value: int)
    requires Inv(s) && !WaitsFor(s.pcbs, q, s.running)
    ensures !WaitsFor(Orphaned(s.pcbs, s.running, value), q, s.running)
  {
    InitThere(s.pcbs);
    hide Inv;
  }

  lemma ExitInv(s: State, value: int)
    requires Inv(s) && At(s.pcbs, s.running).parent.Some?
    requires ExitAnswers(s) || s.ready != []
    ensures Inv(ExitStep(s, value))
  {
    hide Inv, Parked, Collected, Switch, Orphaned;
    RunningRuns(s);
    ExitIsNotInit(s);
    var q := s.pcbs[s.running].parent.value;
    if WaitsFor(s.pcbs, q, s.running) {
      CollectedInv(s, q, value);
    } else {
      OrphanedNotAnswered(s, q, value);
      ExitParked(s, value);
      SwitchInv(s.(zombie := s.zombie + [s.running], pcbs := Orphaned(s.pcbs, s.running, value)));
    }
  }

  // ----- every step

  lemma IssueInv(s: State, call: Call)
    requires Inv(s)
    ensures Inv(Issue(s, call))
  {
    hide FamilyOk, TableOk, NothingDue, TimersOk, PoolsOk, StatusOk, OnePlace;
    RunningTweaked(s, s.pcbs[s.running].(call := call));
  }

  /** One place per process, statuses and frozen arguments that match it, exact timers, a
      sound queue table, sound families and conserved pools survive every system call and
      every tick that the kernel's callers may ask for. */
  lemma StepInv(s: State, e: Event)
    requires Inv(s) && Enabled(s, e)
    ensures Inv(Step(s, e))
  {
    hide FamilyOk, TableOk, NothingDue, TimersOk, PoolsOk, StatusOk, OnePlace;
    match e
    case Tick => TickInv(s);
    case Trap(call) =>
      IssueInv(s, call);
      var s1 := Issue(s, call);
      assert s1.pcbs[s1.running].call == call;
      match call
      case NoCall => ReturningInv(s1, ESYSCALL_NOT_IMPLEMENTED);
      case Preempt =>
        ScheduleIsRotate(s1);
        RotateInv(s1);
      case Spawn => SpawnInv(s1);
      case Fork => SpawnInv(s1);
      case Resource(ret) => ReturningInv(s1, ret);
      case Wait(pid, hasResult) =>
        IssueWait(s, call, pid);
        WaitInv(s1, pid, hasResult);
      case Exit(value) => ExitInv(s1, value);
      case Sleep(cycles) => SleepInv(s1, cycles);
      case Create(id, capacity) => CreateInv(s1, id, capacity);
      case Send(id, _, size) => SendInv(s1, id, size, Payload(call));
      case Receive(id, room) => ReceiveInv(s1, id, room);
      case Destroy(id) => DestroyInv(s1, id);
  }

  lemma {:induction false} AwaitedAt(m: Processes, cs: seq<Pid>, pid: int, i: nat)
    requires i < |cs| && forall j :: 0 <= j < i ==> !Matches(m, cs[j], pid)
    requires Matches(m, cs[i], pid) || i == |cs| - 1
    ensures Awaited(m, cs, pid) == cs[i]
  {
    if i > 0 {
      assert !Matches(m, cs[0], pid);
      assert forall j :: 0 <= j < i - 1 ==> cs[1..][j] == cs[j + 1];
      AwaitedAt(m, cs[1..], pid, i - 1);
    }
  }

  lemma {:induction false} AwaitedSame(m: Processes, m': Processes, cs: seq<Pid>, pid: int)
    requires cs != [] && forall p :: At(m', p).status == At(m, p).status
    ensures Awaited(m', cs, pid) == Awaited(m, cs, pid)
  {
    assert Matches(m', cs[0], pid) <==> Matches(m, cs[0], pid);
    if |cs| > 1 {
      AwaitedSame(m, m', cs[1..], pid);
    }
  }

  lemma IssueWait(s: State, call: Call, pid: int)
    requires s.running in s.pcbs
    ensures WaitBlocks(Issue(s, call), pid) <==> WaitBlocks(s, pid)
  {
    var cs := s.pcbs[s.running].children;
    if cs != [] {
      AwaitedSame(s.pcbs, Issue(s, call).pcbs, cs, pid);
    }
  }

  lemma IssueParent(s: State, call: Call)
    requires Inv(s)
    ensures At(Issue(s, call).pcbs, s.running).parent == s.pcbs[s.running].parent
    ensures ExitAnswers(Issue(s, call)) <==> ExitAnswers(s)
  {
  }

  /** Storing the arguments changes nothing that the demands look at. */
  lemma IssueDemands(s: State, call: Call)
    requires Inv(s)
    ensures Demands(Issue(s, call), Trap(call)) <==> Demands(s, Trap(call))
    ensures Issue(s, call).pcbs[s.running].call == call
  {
    IssueParent(s, call);
    if call.Wait? { RunningRuns(s); IssueWait(s, call, call.pid); }
    assert Issue(s, call).pcbs.Keys == s.pcbs.Keys by { RunningRuns(s); }
  }

  lemma IssueEnabled(s: State, call: Call)
    requires Inv(s) && Enabled(s, Trap(call))
    ensures Enabled(Issue(s, call), Trap(call)) && Issue(s, call).pcbs[s.running].call == call
  {
    hide Inv, Demands;
    IssueDemands(s, call);
  }

  lemma BootInv()
    ensures Inv(BOOT)
  {
    assert BOOT.pcbs.Keys == {INIT};
    assert forall p, c :: !Holds(BOOT.pcbs, p, c);
  }
}
