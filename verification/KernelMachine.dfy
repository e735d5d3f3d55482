/** The kernel as the source has it: global variables that system calls update step by step,
    with its loops, its detours and its fallbacks. Every method is proved to compute the
    outcome that KernelSteps states, and to keep the invariant. */
module KernelMachine {
  import opened Lists
  import opened KernelState
  import opened KernelSteps
  import opened KernelInvariant
  import opened ProcessInvariant

  class Kernel {
    var running: Pid
    var ready: seq<Pid>
    var waiting: seq<Pid>
    var zombie: seq<Pid>
    var timers: seq<Timer>
    var queues: seq<MessageQueue>
    var pcbs: Processes
    var time: int
    var lastPid: nat
    var pools: Pools

    ghost function Abs(): State
      reads this
    {
      State(running, ready, waiting, zombie, timers, queues, pcbs, time, lastPid, pools)
    }

    constructor ()
      ensures Abs() == BOOT && Inv(Abs())
    {
      running := INIT;
      ready, waiting, zombie := [], [], [];
      timers, queues := [], [];
      pcbs := map[INIT := NEW_PCB.(status := Running)];
      time, lastPid := 0, 1;
      pools := Pools(MAX_NUM_PROCESSES - 1, MAX_NUM_PROCESSES, MAX_NUM_PROCESSES,
                     MAX_MESSAGE_QUEUES, MAX_MESSAGES);
      new;
      BootInv();
    }

    /** No list mentions `p`. Every insertion below is preceded by the proof that this holds of
        the process it inserts, which is what the list on the heap asks for. */
    ghost predicate Unlinked(p: Pid)
      reads this
    {
      p !in Listed(Abs())
    }

    /** The call returns `v` to the running process. */
    method Return(v: int)
      modifies this`pcbs
      ensures Abs() == Returning(old(Abs()), v)
    {
      pcbs := SetRet(pcbs, running, v);
    }

    // ----- scheduler

    /** The wake-up loop puts each sleeper behind the one woken before it. */
    method WakeUp()
      requires Schedulable(Abs())
      modifies this`ready, this`waiting, this`timers, this`pcbs, this`pools
      ensures Abs() == Woken(old(Abs()))
    {
      hide Schedulable, TimersOk, Distinct, Elapsed, WakePcbs, InsertAfter, Remove, Without, Listed;
      ghost var s := Abs();
      SchedulableTimers(s);
      ghost var ws := Elapsed(timers, time);
      NoneWoken(s);
      var previous: Option<Pid> := None;
      ghost var k: nat := 0;
      while timers != [] && timers[0].time <= time
        invariant k <= |ws| && timers == s.timers[k..]
        invariant ready == ws[..k] + s.ready
        invariant waiting == Without(s.waiting, ws[..k])
        invariant pcbs == WakePcbs(s.pcbs, ws[..k])
        invariant pools == s.pools.(timers := s.pools.timers + k)
        invariant previous == if k == 0 then None else Some(ws[k - 1])
        decreases |timers|
      {
        assert timers[0] == s.timers[k];
        WakeOneMore(s, ws, k);
        var pcb := timers[0].pid;
        waiting := Remove(waiting, pcb);
        pcbs := pcbs[pcb := At(pcbs, pcb).(status := Ready, timer := false)];
        WakeUnlinked(s, Abs(), ws, k);
        assert Unlinked(pcb);
        ready := InsertAfter(ready, previous, pcb);
        previous := Some(pcb);
        timers := timers[1..];
        pools := pools.(timers := pools.timers + 1);
        k := k + 1;
      }
      AllWoken(s, k);
    }

    /** The head of the ready list takes over; the running process goes to the back if it
        still runs. */
    method Dispatch()
      requires At(pcbs, running).status == Running ==> Unlinked(running)
      modifies this`running, this`ready, this`pcbs
      ensures Abs() == Rotate(old(Abs()))
    {
      hide SetStatus, At, Listed;
      if ready == [] { return; }
      var next := ready[0];
      ghost var s, line := Abs(), ready;
      HeadTail(line);
      ready := ready[1..];
      if At(pcbs, running).status == Running {
        HeadGone(s, Abs(), running);
        assert Unlinked(running);
        pcbs := SetStatus(pcbs, running, Ready);
        ready := ready + [running];
        assert (line + [running])[1..] == ready && (line + [running])[0] == next;
      }
      pcbs := SetStatus(pcbs, next, Running);
      running := next;
    }

    method Reschedule()
      requires Schedulable(Abs())
      modifies this`running, this`ready, this`waiting, this`timers, this`pcbs, this`pools
      ensures Abs() == Schedule(old(Abs()))
    {
      hide Schedulable, Woken, Rotate, Listed;
      WokenUnlinked(Abs());
      WakeUp();
      Dispatch();
    }

    /** A timer tick. */
    method TimerInterrupt()
      requires Inv(Abs())
      modifies this
      ensures Abs() == Step(old(Abs()), Tick) && Inv(Abs())
    {
      hide Inv, Schedule, Schedulable;
      TickInv(Abs());
      SchedulerReady(Abs());
      LaterSchedulable(Abs(), time + 1);
      time := time + 1;
      Reschedule();
    }

    // ----- message queues

    /** The scan of the resource list for an id. */
    method FindResource(id: int) returns (i: nat)
      ensures i == FindQueue(queues, id)
    {
      i := 0;
      while i < |queues| && queues[i].id != id
        invariant i <= |queues| && FindQueue(queues, id) == i + FindQueue(queues[i..], id)
      {
        assert queues[i..][1..] == queues[i + 1..];
        i := i + 1;
      }
    }

    /** A message block, if the size is acceptable and the pool has one. */
    method MessageAlloc(size: int) returns (ok: bool)
      modifies this`pools
      ensures ok <==> 0 < size <= MESSAGE_MAX_SIZE && old(pools).messages > 0
      ensures pools == if ok then old(pools).(messages := old(pools).messages - 1) else old(pools)
    {
      ok := 0 < size <= MESSAGE_MAX_SIZE && pools.messages > 0;
      if ok {
        pools := pools.(messages := pools.messages - 1);
      }
    }

    method MessageFree()
      modifies this`pools
      ensures pools == old(pools).(messages := old(pools).messages + 1)
    {
      pools := pools.(messages := pools.messages + 1);
    }

    /** The blocking half of send and receive. The caller joins the list of queue `i`, the
        scheduler is asked for somebody else, and if there is nobody the call is taken back.
        What the source does for a caller that runs on with its call granted is never
        reached. */
    method Block(i: nat, asSender: bool, failure: int)
      requires Inv(Abs()) && i < |queues| && Joins(Abs(), i, Joined(queues[i], running, asSender))
      modifies this
      ensures Abs() == BlockOn(old(Abs()), i, Joined(old(queues[i]), old(running), asSender), failure)
      ensures Inv(Abs())
    {
      hide Inv, Joins, Schedule, Switch, Schedulable, Joined, Left, Listed;
      ghost var s := Abs();
      ghost var q := Joined(queues[i], running, asSender);
      BlockReady(s, i, q);
      BlockInv(s, i, q, failure);
      var caller := running;
      RunningUnlinked(s);
      assert Unlinked(caller);
      pcbs := SetStatus(pcbs, caller, Waiting);
      queues := queues[i := Joined(queues[i], caller, asSender)];
      Reschedule();
      BlockScheduled(s, i, q);
      if running == caller && At(pcbs, caller).status == Waiting {
        JoinedLeft(s, i, asSender);
        queues := queues[i := Left(queues[i], caller, asSender)];
        pcbs := SetStatus(pcbs, caller, Running);
        pcbs := SetRet(pcbs, caller, failure);
        return;
      }
      assert running != caller;
    }

    /** Send. */
    method MqSend()
      requires Inv(Abs()) && pcbs[running].call.Send?
      requires var c := pcbs[running].call; 0 < c.size <= MESSAGE_MAX_SIZE ==> c.size <= |c.buffer|
      modifies this
      ensures var c := old(pcbs[running].call);
              Abs() == SendStep(old(Abs()), c.queueId, c.size, Payload(c))
      ensures Inv(Abs())
    {
      hide Inv, QueueOk, Joins, BlockOn, BlockedReceiver;
      ghost var s := Abs();
      RunningRuns(s);
      var caller := running;
      var call := pcbs[caller].call;
      SendInv(s, call.queueId, call.size, Payload(call));
      if call.queueId <= 0 { Return(EMQINVALID); return; }
      if call.size <= 0 || call.size > MESSAGE_MAX_SIZE { Return(EBUFFER); return; }
      var i := FindResource(call.queueId);
      if i == |queues| { Return(EMQINVALID); return; }
      OpenQueue(s, i);
      if queues[i].current >= queues[i].capacity {
        assert queues[i].status == Open;  // so the call never fails with EMQNOTOPEN here
        SendJoins(s, i);
        Block(i, true, EMQFULL);
        return;
      }
      MessagePoolHasRoom(s, i);
      var ok := MessageAlloc(call.size);
      assert ok;  // so the call never fails with EBUFFER here
      Deposit(i, Message(Payload(call), caller), s);
      Return(0);
    }

    /** The message, whose block has just been taken in state `s`, is stored in queue `i`, and the
        receiver that waits longest is served. */
    method Deposit(i: nat, message: Message, ghost s: State)
      requires Inv(s) && i < |s.queues| && message.sender == s.running
      requires Abs() == s.(pools := s.pools.(messages := s.pools.messages - 1))
      modifies this`queues, this`pools, this`pcbs, this`ready
      ensures var q := s.queues[i];
              if q.receivers == [] then
                Abs() == s.(queues := s.queues[i := q.(messages := q.messages + [message], current := q.current + 1)],
                            pools := s.pools.(messages := s.pools.messages - 1))
              else
                var r := q.receivers[0];
                At(s.pcbs, r).call.Receive? &&
                Abs() == s.(queues := s.queues[i := q.(receivers := q.receivers[1..])],
                            ready := s.ready + [r],
                            pcbs := SetStatus(Deliver(s.pcbs, r, At(s.pcbs, r).call.bufferSize, message.data),
                                              r, Ready))
    {
      hide Inv, QueueOk, BlockedReceiver, Accounted, Listed, Deliver;
      Enqueue(i, message);
      if queues[i].receivers != [] {
        ServeDetour(s, i, message.data);
        StillAccounted(s, Abs(), i);
        ServeReceiver(i);
      }
    }

    /** The receiver that waits longest takes the first message. */
    method ServeReceiver(i: nat)
      requires i < |queues| && queues[i].receivers != [] && queues[i].messages != []
      requires At(pcbs, queues[i].receivers[0]).call.Receive? && Accounted(Abs())
      modifies this`queues, this`pools, this`pcbs, this`ready
      ensures var q := old(queues[i]);
              var r := q.receivers[0];
              && queues == old(queues)[i := q.(receivers := q.receivers[1..], messages := q.messages[1..],
                                               current := q.current - 1)]
              && pools == old(pools).(messages := old(pools).messages + 1)
              && ready == old(ready) + [r]
              && pcbs == SetStatus(Deliver(old(pcbs), r, At(old(pcbs), r).call.bufferSize, q.messages[0].data),
                                   r, Ready)
    {
      hide Accounted, Listed;
      ghost var s := Abs();
      FirstLeaves(queues[i]);
      var receiver := queues[i].receivers[0];
      queues := queues[i := queues[i].(receivers := queues[i].receivers[1..])];
      var room := At(pcbs, receiver).call.bufferSize;
      var message := Dequeue(i);
      if room < |message.data| {
        pcbs := SetRet(pcbs, receiver, EBUFFER);
      } else {
        pcbs := pcbs[receiver := At(pcbs, receiver).(inbox := message.data)];
        pcbs := SetRet(pcbs, receiver, |message.data|);
      }
      MessageFree();
      pcbs := SetStatus(pcbs, receiver, Ready);
      DetachedUnlinked(s, Abs(), i, receiver);
      assert Unlinked(receiver);
      ready := ready + [receiver];
    }

    method Enqueue(i: nat, message: Message)
      requires i < |queues|
      modifies this`queues
      ensures queues == old(queues)[i := old(queues[i]).(messages := old(queues[i]).messages + [message],
                                                        current := old(queues[i]).current + 1)]
    {
      var q := queues[i];
      queues := queues[i := q.(messages := q.messages + [message])];
      queues := queues[i := queues[i].(current := queues[i].current + 1)];
    }

    method Dequeue(i: nat) returns (message: Message)
      requires i < |queues| && queues[i].messages != []
      modifies this`queues
      ensures message == old(queues[i]).messages[0]
      ensures queues == old(queues)[i := old(queues[i]).(messages := old(queues[i]).messages[1..],
                                                        current := old(queues[i]).current - 1)]
    {
      var q := queues[i];
      message := q.messages[0];
      queues := queues[i := q.(messages := q.messages[1..])];
      queues := queues[i := queues[i].(current := queues[i].current - 1)];
    }

    /** Receive. */
    method MqReceive()
      requires Inv(Abs()) && pcbs[running].call.Receive?
      modifies this
      ensures var c := old(pcbs[running].call); Abs() == ReceiveStep(old(Abs()), c.queueId, c.bufferSize)
      ensures Inv(Abs())
    {
      hide Inv, QueueOk, Joins, BlockOn, BlockedReceiver, BlockedSender, Payload, FindQueue;
      ghost var s := Abs();
      RunningRuns(s);
      var caller := running;
      var call := pcbs[caller].call;
      ReceiveInv(s, call.queueId, call.bufferSize);
      if call.queueId <= 0 { Return(EMQINVALID); return; }
      if call.bufferSize <= 0 { Return(EBUFFER); return; }
      var i := FindResource(call.queueId);
      if i == |queues| { Return(EMQINVALID); return; }
      OpenQueue(s, i);
      if queues[i].messages == [] {
        assert queues[i].status == Open;  // so the call never fails with EMQNOTOPEN here
        ReceiveJoins(s, i);
        Block(i, false, EMQEMPTY);
        return;
      }
      var message := Dequeue(i);
      if call.bufferSize < |message.data| {
        MessageFree();
        Return(EBUFFER);
        return;
      }
      if queues[i].senders != [] { PromoteDetour(s, i, call.bufferSize); }
      StillAccounted(s, Abs(), i);
      Accept(i, message.data);
    }

    /** The caller takes the bytes of a message that has left queue `i`, and a sender that is
        blocked there is served. */
    method Accept(i: nat, data: seq<Byte>)
      requires i < |queues| && running in pcbs && Accounted(Abs())
      requires queues[i].senders != [] ==>
                 && pools.messages >= 0 && queues[i].senders[0] != running
                 && var c := At(pcbs, queues[i].senders[0]).call;
                    c.Send? && 0 < c.size <= MESSAGE_MAX_SIZE
      modifies this`queues, this`pools, this`pcbs, this`ready
      ensures var s, q, p := old(Abs()), old(queues[i]), old(running);
              if q.senders == [] then
                Abs() == s.(pools := s.pools.(messages := s.pools.messages + 1),
                            pcbs := s.pcbs[p := s.pcbs[p].(inbox := data, ret := |data|)])
              else
                var w := q.senders[0];
                var message := Message(Payload(At(s.pcbs, w).call), p);
                Abs() == s.(queues := s.queues[i := q.(senders := q.senders[1..], current := q.current + 1,
                                                       messages := q.messages + [message])],
                            ready := s.ready + [w],
                            pcbs := Complete(s.pcbs, w, 0)[p := s.pcbs[p].(inbox := data, ret := |data|)])
    {
      hide Accounted, Listed, Payload;
      ghost var s := Abs();
      pcbs := pcbs[running := At(pcbs, running).(inbox := data)];
      MessageFree();
      if queues[i].senders != [] {
        SameAccount(s, Abs());
        CarryOutSend(i);
      }
      Return(|data|);
    }

    /** The send of the sender that waits longest is carried out for it. */
    method CarryOutSend(i: nat)
      requires i < |queues| && queues[i].senders != [] && pools.messages > 0
      requires var c := At(pcbs, queues[i].senders[0]).call; c.Send? && 0 < c.size <= MESSAGE_MAX_SIZE
      requires Accounted(Abs())
      modifies this`queues, this`pools, this`pcbs, this`ready
      ensures var q := old(queues[i]);
              var w := q.senders[0];
              var message := Message(Payload(At(old(pcbs), w).call), running);
              && queues == old(queues)[i := q.(senders := q.senders[1..], messages := q.messages + [message],
                                               current := q.current + 1)]
              && pools == old(pools).(messages := old(pools).messages - 1)
              && ready == old(ready) + [w]
              && pcbs == Complete(old(pcbs), w, 0)
    {
      hide Accounted, Listed, Payload;
      ghost var s := Abs();
      FirstLeaves(queues[i]);
      var sender := queues[i].senders[0];
      queues := queues[i := queues[i].(senders := queues[i].senders[1..])];
      var call := At(pcbs, sender).call;
      var ok := MessageAlloc(call.size);
      assert ok;  // so the send never fails with EBUFFER here, for its size or for want of memory
      Enqueue(i, Message(Payload(call), running));
      pcbs := SetRet(pcbs, sender, 0);
      pcbs := SetStatus(pcbs, sender, Ready);
      DetachedUnlinked(s, Abs(), i, sender);
      assert Unlinked(sender);
      ready := ready + [sender];
    }

    /** Create. */
    method MqCreate()
      requires Inv(Abs()) && pcbs[running].call.Create?
      modifies this
      ensures var c := old(pcbs[running].call); Abs() == CreateStep(old(Abs()), c.queueId, c.capacity)
      ensures Inv(Abs())
    {
      hide Inv;
      ghost var s := Abs();
      RunningRuns(s);
      var call := pcbs[running].call;
      var id, capacity := call.queueId, call.capacity;
      CreateInv(s, id, capacity);
      if id <= 0 || capacity <= 0 || capacity > MAX_MESSAGES_PER_QUEUE { Return(EMQINVALID); return; }
      var i := FindResource(id);
      if i < |queues| { Return(EMQEXISTS); return; }
      if pools.queues <= 0 { Return(EMQCREATE); return; }
      pools := pools.(queues := pools.queues - 1);
      queues := queues + [MessageQueue(id, capacity, 0, Open, [], [], [])];
      Return(id);
    }

    /** One of the two loops that fail every process waiting in queue `i`. */
    method FailWaiters(i: nat, senders: bool)
      requires i < |queues| && forall p :: p in Line(queues[i], senders) ==> p in pcbs
      requires Accounted(Abs())
      modifies this`queues, this`pcbs, this`ready
      ensures Accounted(Abs())
      ensures var line := Line(old(queues[i]), senders);
              && queues == old(queues)[i := WithLine(old(queues[i]), senders, [])]
              && pcbs == CompleteAll(old(pcbs), line, EMQNOTOPEN)
              && ready == old(ready) + line
    {
      hide CompleteAll, Accounted, Listed;
      ghost var s := Abs();
      ghost var q, line, m := queues[i], Line(queues[i], senders), pcbs;
      ghost var k: nat := 0;
      CompleteNone(pcbs, EMQNOTOPEN);
      while Line(queues[i], senders) != []
        invariant k <= |line| && |queues| == old(|queues|)
        invariant queues == old(queues)[i := WithLine(q, senders, line[k..])]
        invariant pcbs == CompleteAll(m, line[..k], EMQNOTOPEN)
        invariant ready == old(ready) + line[..k]
        decreases |line| - k
      {
        CompleteOneMore(m, line, k, EMQNOTOPEN);
        var pcb := Line(queues[i], senders)[0];
        queues := queues[i := WithLine(queues[i], senders, Line(queues[i], senders)[1..])];
        pcbs := SetStatus(pcbs, pcb, Ready);
        pcbs := SetRet(pcbs, pcb, EMQNOTOPEN);
        FailUnlinked(s, Abs(), i, senders, k);
        assert Unlinked(pcb);
        ready := ready + [pcb];
        k := k + 1;
      }
      assert line[..k] == line && line[k..] == [];
      CompleteKeys(m, line, EMQNOTOPEN);
      FailAccounted(s, Abs(), i, senders);
    }

    /** The loop that frees the messages of queue `i`. */
    method FreeMessages(i: nat)
      requires i < |queues|
      modifies this`queues, this`pools
      ensures queues == old(queues)[i := old(queues[i]).(messages := [])]
      ensures pools == old(pools).(messages := old(pools).messages + |old(queues[i]).messages|)
    {
      ghost var q := queues[i];
      ghost var k: nat := 0;
      while queues[i].messages != []
        invariant k <= |q.messages| && |queues| == old(|queues|)
        invariant queues == old(queues)[i := q.(messages := q.messages[k..])]
        invariant pools == old(pools).(messages := old(pools).messages + k)
        decreases |q.messages| - k
      {
        queues := queues[i := queues[i].(messages := queues[i].messages[1..])];
        MessageFree();
        k := k + 1;
      }
      assert q.messages[k..] == [];
    }

    /** Destroy. */
    method MqDestroy()
      requires Inv(Abs()) && pcbs[running].call.Destroy?
      modifies this
      ensures Abs() == DestroyStep(old(Abs()), old(pcbs[running].call.queueId))
      ensures Inv(Abs())
    {
      hide Inv, QueueOk, CompleteAll, Members, Accounted, Listed;
      ghost var s := Abs();
      RunningRuns(s);
      var id := pcbs[running].call.queueId;
      DestroyInv(s, id);
      if id <= 0 { Return(EMQINVALID); return; }
      var i := FindResource(id);
      if i == |queues| { Return(EMQINVALID); return; }
      OpenQueue(s, i);
      assert queues[i].status != Closed;  // so the call never fails with EMQCLOSED
      Drain(i);
      Return(id);
    }

    /** Everybody blocked in queue `i` is failed, its messages are freed, and it is dropped. */
    method Drain(i: nat)
      requires Inv(Abs()) && i < |queues|
      modifies this`queues, this`pcbs, this`ready, this`pools
      ensures var s, q := old(Abs()), old(queues[i]);
              Abs() == s.(queues := s.queues[..i] + s.queues[i + 1..],
                          ready := s.ready + (q.receivers + q.senders),
                          pools := s.pools.(queues := s.pools.queues + 1,
                                            messages := s.pools.messages + |q.messages|),
                          pcbs := CompleteAll(s.pcbs, q.receivers + q.senders, EMQNOTOPEN))
    {
      hide Inv, QueueOk, CompleteAll, Members, Accounted, Listed;
      ghost var s := Abs();
      AllMembersApart(s, i);
      ghost var q := queues[i];
      CompleteKeys(pcbs, q.receivers, EMQNOTOPEN);
      queues := queues[i := queues[i].(status := Closing)];
      StillAccounted(s, Abs(), i);
      FailWaiters(i, false);
      FailWaiters(i, true);
      CompleteBoth(s.pcbs, q.receivers, q.senders, EMQNOTOPEN);
      FreeMessages(i);
      queues := queues[i := queues[i].(status := Closed)];
      // releasing the block: nobody is blocked and nothing is stored
      assert queues[i].receivers == [] && queues[i].senders == [] && queues[i].messages == [];
      assert queues[..i] + queues[i + 1..] == s.queues[..i] + s.queues[i + 1..];
      queues := queues[..i] + queues[i + 1..];
      pools := pools.(queues := pools.queues + 1);
      assert (s.ready + q.receivers) + q.senders == s.ready + (q.receivers + q.senders);
    }

    // ----- sleep

    /** The scan for the place behind all timers that are due no later, then the insertion. */
    method TimerListAdd(wakeTime: int, pcb: Pid) returns (ok: bool)
      modifies this`timers, this`pools, this`pcbs
      ensures ok <==> old(pools).timers > 0
      ensures ok ==>
                && timers == InsertTimer(old(timers), Timer(wakeTime, pcb))
                && pools == old(pools).(timers := old(pools).timers - 1)
                && pcbs == old(pcbs)[pcb := At(old(pcbs), pcb).(timer := true)]
      ensures !ok ==> timers == old(timers) && pools == old(pools) && pcbs == old(pcbs)
    {
      var i := 0;
      while i < |timers| && wakeTime >= timers[i].time
        invariant i <= |timers| && TimerSlot(timers, wakeTime) == i + TimerSlot(timers[i..], wakeTime)
      {
        assert timers[i..][1..] == timers[i + 1..];
        i := i + 1;
      }
      ok := pools.timers > 0;
      if ok {
        pools := pools.(timers := pools.timers - 1);
        pcbs := pcbs[pcb := At(pcbs, pcb).(timer := true)];
        timers := timers[..i] + [Timer(wakeTime, pcb)] + timers[i..];
      }
    }

    /** Sleep. */
    method InternalSleep()
      requires Inv(Abs()) && pcbs[running].call.Sleep?
      modifies this
      ensures Abs() == SleepStep(old(Abs()), old(pcbs[running].call.cycles))
      ensures Inv(Abs()) <==> old(pcbs[running].call.cycles <= 0 || ready != [])
    {
      hide Inv, Schedule, SleepStep, Schedulable, InsertTimer, Listed;
      ghost var s := Abs();
      NoTimerOnRunning(s);
      var caller := running;
      var cycles := pcbs[caller].call.cycles;
      SleepInv(s, cycles);
      assert !pcbs[caller].timer;  // so the call never fails with ESLEEP for a second timer
      TimerPoolHasRoom(s);
      var ok := TimerListAdd(time + cycles, caller);
      assert ok;  // nor for want of one
      pcbs := SetRet(pcbs, caller, 0);
      pcbs := SetStatus(pcbs, caller, Waiting);
      RunningUnlinked(s);
      SameLists(s, Abs(), caller);
      assert Unlinked(caller);
      waiting := waiting + [caller];
      assert Abs() == Asleep(s, cycles);
      AsleepReady(s, cycles);
      Reschedule();
      SleepScheduled(s, cycles);
    }

    // ----- processes

    /** Spawn and fork, as far as the process table is concerned. */
    method InternalSpawn()
      requires Inv(Abs()) && (pools.pcbs > 0 ==> pools.refs > 0)
      modifies this
      ensures Abs() == SpawnStep(old(Abs())) && Inv(Abs())
    {
      hide Inv, Listed;
      ghost var s := Abs();
      RunningRuns(s);
      SpawnInv(s);
      if pools.pcbs <= 0 { Return(ESPAWN); return; }
      FreshPid(s);
      var caller, child := running, lastPid;
      pools := pools.(pcbs := pools.pcbs - 1);
      lastPid := lastPid + 1;
      pcbs := pcbs[child := NEW_PCB.(parent := Some(caller))];
      pools := pools.(refs := pools.refs - 1);
      pcbs := pcbs[caller := pcbs[caller].(children := pcbs[caller].children + [child])];
      SameLists(s, Abs(), child);
      assert Unlinked(child);
      ready := ready + [child];
      pcbs := SetRet(pcbs, caller, child);
    }

    /** The scan of the children: the cursor stops at the first match, or else the last child
        it saw stays the awaited one. */
    method ScanChildren(children: seq<Pid>, pid: int) returns (c: Pid)
      requires children != []
      ensures c == Awaited(pcbs, children, pid)
    {
      c := children[0];
      var i := 0;
      while i < |children|
        invariant i <= |children|
        invariant forall j :: 0 <= j < i ==> !Matches(pcbs, children[j], pid)
        invariant i > 0 ==> c == children[i - 1]
      {
        c := children[i];
        if Matches(pcbs, c, pid) {
          AwaitedAt(pcbs, children, pid, i);
          return;
        }
        i := i + 1;
      }
      AwaitedAt(pcbs, children, pid, |children| - 1);
    }

    /** The first ready process runs. */
    method RunNext()
      requires ready != []
      modifies this`running, this`ready, this`pcbs
      ensures Abs() == Switch(old(Abs()))
    {
      var next := ready[0];
      ready := ready[1..];
      pcbs := SetStatus(pcbs, next, Running);
      running := next;
    }

    /** A zombie child is removed everywhere and its exit value handed to the caller. */
    method Collect(child: Pid, hasResult: bool)
      requires running in pcbs && child != running
      modifies this`pcbs, this`pools, this`zombie
      ensures Abs() == Reap(old(Abs()), child, hasResult)
    {
      hide Remove;
      var caller := running;
      ghost var m, me := pcbs, pcbs[running];
      pcbs := pcbs[caller := pcbs[caller].(children := Remove(pcbs[caller].children, child))];
      pools := pools.(refs := pools.refs + 1);
      zombie := Remove(zombie, child);
      pcbs := SetRet(pcbs, caller, child);
      if hasResult {
        pcbs := pcbs[caller := pcbs[caller].(result := At(pcbs, child).exitValue)];
      }
      assert pcbs == m[caller := me.(children := Remove(me.children, child), ret := child,
                                     result := if hasResult then At(m, child).exitValue else me.result)];
      pools := pools.(pcbs := pools.pcbs + 1);
      pcbs := pcbs - {child};
    }

    /** Wait. */
    method InternalWait()
      requires Inv(Abs()) && pcbs[running].call.Wait?
      requires WaitBlocks(Abs(), pcbs[running].call.pid) ==> ready != []
      modifies this
      ensures var c := old(pcbs[running].call); Abs() == WaitStep(old(Abs()), c.pid, c.hasResult)
      ensures Inv(Abs())
    {
      hide Inv, Remove, Listed;
      ghost var s := Abs();
      RunningRuns(s);
      var caller := running;
      var call := pcbs[caller].call;
      WaitInv(s, call.pid, call.hasResult);
      if pcbs[caller].children == [] { Return(EWAIT); return; }
      var awaited := ScanChildren(pcbs[caller].children, call.pid);
      if At(pcbs, awaited).status == Zombie {
        ReapedIsOther(s, awaited);
        Collect(awaited, call.hasResult);
        return;
      }
      pcbs := SetStatus(pcbs, caller, Waiting);
      RunningUnlinked(s);
      SameLists(s, Abs(), caller);
      assert Unlinked(caller);
      waiting := waiting + [caller];
      RunNext();
    }

    /** The loop that hands the caller's children to init. */
    method Reparent(caller: Pid)
      requires caller in pcbs && INIT in pcbs && caller != INIT
      modifies this`pcbs
      ensures var m := old(pcbs);
              pcbs == m[INIT := m[INIT].(children := m[INIT].children + m[caller].children)]
                       [caller := m[caller].(children := [])]
    {
      ghost var m, cs := pcbs, pcbs[caller].children;
      ghost var k: nat := 0;
      assert m[INIT].children + [] == m[INIT].children;
      while pcbs[caller].children != []
        invariant k <= |cs| && pcbs.Keys == m.Keys
        invariant pcbs == m[INIT := m[INIT].(children := m[INIT].children + cs[..k])]
                           [caller := m[caller].(children := cs[k..])]
        decreases |cs| - k
      {
        var item := pcbs[caller].children[0];
        pcbs := pcbs[caller := pcbs[caller].(children := pcbs[caller].children[1..])];
        pcbs := pcbs[INIT := pcbs[INIT].(children := pcbs[INIT].children + [item])];
        assert m[INIT].children + cs[..k] + [item] == m[INIT].children + cs[..k + 1];
        k := k + 1;
      }
      assert cs[..k] == cs && cs[k..] == [];
    }

    /** The exit of the caller answers its parent's wait: the parent runs on and the caller's
        PCB is free again. */
    method AnswerParent(caller: Pid, parent: Pid, value: int)
      requires caller in pcbs && parent in pcbs && parent != caller && pcbs[parent].call.Wait?
      modifies this
      ensures Abs() == old(Abs()).(running := parent, waiting := Remove(old(waiting), parent),
                                   zombie := Remove(old(zombie), caller),
                                   pools := old(pools).(pcbs := old(pools).pcbs + 1),
                                   pcbs := Collected(old(pcbs), caller, parent, value))
    {
      hide Remove;
      ghost var m, me := pcbs, pcbs[parent];
      waiting := Remove(waiting, parent);
      pcbs := pcbs[parent := pcbs[parent].(status := Running, children := Remove(pcbs[parent].children, caller),
                                           ret := caller)];
      if pcbs[parent].call.hasResult {
        pcbs := pcbs[parent := pcbs[parent].(result := value)];
      }
      assert pcbs == m[parent := me.(status := Running, children := Remove(me.children, caller), ret := caller,
                                     result := if me.call.hasResult then value else me.result)];
      zombie := Remove(zombie, caller);
      pools := pools.(pcbs := pools.pcbs + 1);
      pcbs := pcbs - {caller};
      running := parent;
    }

    /** Exit. The caller is not init. What is read of a parent whose PCB was freed is in the demand
        on the caller: it is in no wait that the exit could answer. */
    method InternalExit()
      requires Inv(Abs()) && pcbs[running].call.Exit?
      requires Demands(Abs(), Trap(pcbs[running].call))
      modifies this
      ensures Abs() == ExitStep(old(Abs()), old(pcbs[running].call.value)) && Inv(Abs())
    {
      hide Inv, Remove, Collected, TimerPids, Listed;
      ghost var s := Abs();
      ExitReady(s);
      var caller := running;
      var value := pcbs[caller].call.value;
      ExitInv(s, value);
      var parent := pcbs[caller].parent.value;
      pcbs := pcbs[caller := pcbs[caller].(exitValue := value)];
      Reparent(caller);
      pcbs := SetStatus(pcbs, caller, Zombie);
      RunningUnlinked(s);
      SameLists(s, Abs(), caller);
      assert Unlinked(caller);
      zombie := zombie + [caller];
      assert pcbs == Orphaned(s.pcbs, caller, value);
      if WaitsFor(pcbs, parent, caller) {
        assert caller !in TimerPids(timers);  // so the scan for the caller's timers releases none
        RemoveLast(s.zombie, caller);
        AnswerParent(caller, parent, value);
      } else {
        RunNext();
      }
    }

    // ----- the trap

    /** Any system call. A sleep is the one call that the source does not refuse although it
        breaks the invariant. */
    method Syscall(call: Call)
      requires Inv(Abs()) && Demands(Abs(), Trap(call))
      modifies this
      ensures Abs() == Step(old(Abs()), Trap(call))
      ensures Inv(Abs()) <==> SleepSafe(old(Abs()), Trap(call))
    {
      hide Inv, Schedule, SendStep, ReceiveStep, CreateStep, DestroyStep, SleepStep, SpawnStep, WaitStep, ExitStep,
           Schedulable;
      ghost var s := Abs();
      IssueInv(s, call);
      IssueDemands(s, call);
      RunningRuns(s);
      pcbs := pcbs[running := pcbs[running].(call := call)];
      match call
      case NoCall =>
        ReturningInv(Abs(), ESYSCALL_NOT_IMPLEMENTED);
        Return(ESYSCALL_NOT_IMPLEMENTED);
      case Preempt =>
        SchedulerReady(Abs());
        PreemptInv(Abs());
        Reschedule();
      case Spawn => InternalSpawn();
      case Fork => InternalSpawn();
      case Wait(_, _) => InternalWait();
      case Exit(_) => InternalExit();
      case Sleep(_) => InternalSleep();
      case Create(_, _) => MqCreate();
      case Send(_, _, _) => MqSend();
      case Receive(_, _) => MqReceive();
      case Destroy(_) => MqDestroy();
      case Resource(ret) =>
        ReturningInv(Abs(), ret);
        Return(ret);
    }
  }

  lemma PreemptInv(s: State)
    requires Inv(s)
    ensures Inv(Schedule(s))
  {
    assert NothingDue(s.timers, s.time);
    hide Inv;
    ScheduleIsRotate(s);
    RotateInv(s);
  }

  lemma NoTimerOnRunning(s: State)
    requires Inv(s)
    ensures s.running in s.pcbs && !s.pcbs[s.running].timer
  {
    PlacesApart(s);
  }

  lemma AsleepReady(s: State, cycles: int)
    requires Inv(s)
    ensures Schedulable(Asleep(s, cycles))
  {
    hide FamilyOk, StatusOk, TableOk, TimersOk, NothingDue, PoolsOk, PidsOk;
    PlacesApart(s);
    var s1 := Asleep(s, cycles);
    TimerInserted(s.pcbs, s.waiting, s.timers, Timer(s.time + cycles, s.running), s1.pcbs[s.running]);
    assert s1.pcbs.Keys == s.pcbs.Keys;
    assert Listed(s1) == Listed(s) + multiset{s.running};
  }

  lemma StillNothingDue(s: State, cycles: int)
    requires Inv(s) && cycles > 0
    ensures NothingDue(Asleep(s, cycles).timers, s.time)
  {
    NothingIsDue(s);
    hide Inv;
  }

  /** Scheduling after the caller went to sleep: nobody else is due, so either the caller comes
      straight back or the next ready process runs. */
  lemma SleepScheduled(s: State, cycles: int)
    requires Inv(s)
    ensures Schedule(Asleep(s, cycles)) == SleepStep(s, cycles)
  {
    hide Inv, NothingDue, NoRepeats, Listed, Schedule, InsertTimer;
    NoTimerOnRunning(s);
    PlacesApart(s);
    RunningRuns(s);
    var s1 := Asleep(s, cycles);
    if cycles <= 0 {
      NothingIsDue(s);
      NoNap(s, cycles);
    } else {
      StillNothingDue(s, cycles);
      ScheduleIsRotate(s1);
    }
  }

  lemma NoNap(s: State, cycles: int)
    requires cycles <= 0 && NothingDue(s.timers, s.time)
    requires s.running in s.pcbs && s.running !in s.waiting
    requires s.pcbs[s.running].status == Running && !s.pcbs[s.running].timer
    ensures Schedule(Asleep(s, cycles)) == Returning(s, 0)
  {
    var p := s.running;
    var s1 := Asleep(s, cycles);
    var t := Timer(s.time + cycles, p);
    assert TimerSlot(s.timers, t.time) == 0;
    assert s1.timers == [t] + s.timers;
    assert s1.timers[1..] == s.timers;
    assert Elapsed(s.timers, s.time) == [];
    assert Elapsed(s1.timers, s.time) == [p];
    BackFromWaiting(s.waiting, p);
    hide Without, TimerSlot, InsertTimer, Elapsed;
    var w := Woken(s1);
    assert w.waiting == s.waiting && w.timers == s.timers && w.ready == [p] + s.ready;
    var back := s.pcbs[p := s.pcbs[p].(status := Ready, ret := 0)];
    assert w.pcbs == back;
    hide Woken;
    assert Rotate(w) == Switch(w);
    assert Switch(w).ready == s.ready;
    assert SetStatus(back, p, Running) == SetRet(s.pcbs, p, 0);
  }

  lemma BackFromWaiting(waiting: seq<Pid>, p: Pid)
    requires p !in waiting
    ensures Without(waiting + [p], [p]) == waiting
  {
    WithoutConcat(waiting, [p], [p]);
    WithoutAbsent(waiting, [], p);
    WithoutNothing(waiting);
    assert [] + [p] == [p];
    assert [p][1..] == [];
  }

  lemma FreshPid(s: State)
    requires Inv(s)
    ensures s.lastPid !in s.pcbs && s.lastPid !in Listed(s)
  {
    RunningUnlinked(s);
    assert s.lastPid !in s.pcbs.Keys && s.lastPid !in multiset(s.pcbs.Keys);
  }

  lemma ReapedIsOther(s: State, c: Pid)
    requires Inv(s) && At(s.pcbs, c).status == Zombie
    ensures c != s.running
  {
  }

  lemma ExitReady(s: State)
    requires Inv(s) && s.pcbs[s.running].call.Exit? && Demands(s, Trap(s.pcbs[s.running].call))
    ensures s.running in s.pcbs && INIT in s.pcbs && s.running != INIT
    ensures s.pcbs[s.running].parent.Some?
    ensures s.pcbs[s.running].parent.value != s.running
    ensures s.running !in s.zombie && s.running !in TimerPids(s.timers)
    ensures ExitAnswers(s) || s.ready != []
  {
    assert ParentOk(s.pcbs, s.running);
    PlacesApart(s);
  }

  function Line(q: MessageQueue, senders: bool): seq<Pid> {
    if senders then q.senders else q.receivers
  }

  function WithLine(q: MessageQueue, senders: bool, line: seq<Pid>): MessageQueue {
    if senders then q.(senders := line) else q.(receivers := line)
  }

  lemma CompleteNone(m: Processes, v: int)
    ensures CompleteAll(m, [], v) == m
  {
  }

  lemma CompleteKeys(m: Processes, ps: seq<Pid>, v: int)
    ensures CompleteAll(m, ps, v).Keys == m.Keys
  {
  }

  lemma CompleteBoth(m: Processes, a: seq<Pid>, b: seq<Pid>, v: int)
    ensures CompleteAll(CompleteAll(m, a, v), b, v) == CompleteAll(m, a + b, v)
  {
  }

  lemma CompleteOneMore(m: Processes, line: seq<Pid>, k: nat, v: int)
    requires forall p :: p in line ==> p in m
    ensures k < |line| ==>
              line[..k + 1] == line[..k] + [line[k]]
              && CompleteAll(m, line[..k + 1], v)
                 == SetRet(SetStatus(CompleteAll(m, line[..k], v), line[k], Ready), line[k], v)
  {
    if k < |line| {
      assert line[..k + 1] == line[..k] + [line[k]];
    }
  }

  /** While a sender is blocked the pool, having just got a block back, has one, and the
      sender's arguments are good. */
  lemma PromoteDetour(s: State, i: nat, room: int)
    requires Inv(s) && i < |s.queues| && s.queues[i].messages != [] && s.queues[i].senders != []
    ensures var q := s.queues[i];
            var taken := q.(messages := q.messages[1..], current := q.current - 1);
            var c := At(s.pcbs, q.senders[0]).call;
            && c.Send? && 0 < c.size <= MESSAGE_MAX_SIZE
            && q.senders[0] != s.running && s.pools.messages >= 0
            && s.queues[i := taken][i := taken.(senders := q.senders[1..],
                                                messages := taken.messages + [Message(Payload(c), s.running)],
                                                current := taken.current + 1)]
               == s.queues[i := q.(senders := q.senders[1..],
                                   messages := q.messages[1..] + [Message(Payload(c), s.running)])]
  {
    hide FamilyOk, TimersOk, NothingDue, OnePlace, PidsOk;
    assert QueueStatusOk(s.pcbs, s.queues[i]);
    assert s.queues[i].senders[0] in s.queues[i].senders;
    MessagesLeft(s);
  }

  lemma MessagesLeft(s: State)
    requires Inv(s)
    ensures s.pools.messages >= 0
  {
    hide FamilyOk, StatusOk, TimersOk, NothingDue;
    forall j | 0 <= j < |s.queues| ensures |s.queues[j].messages| <= MAX_MESSAGES_PER_QUEUE {
      assert QueueOk(s.queues[j]);
    }
    QueuedBound(s.queues);
  }

  /** The queue entry with `p` at the end of one of its waiting lists. */
  function Joined(q: MessageQueue, p: Pid, asSender: bool): MessageQueue {
    if asSender then q.(senders := q.senders + [p]) else q.(receivers := q.receivers + [p])
  }

  /** The queue entry with `p` detached from that list. */
  function Left(q: MessageQueue, p: Pid, asSender: bool): MessageQueue {
    if asSender then q.(senders := Remove(q.senders, p)) else q.(receivers := Remove(q.receivers, p))
  }

  lemma JoinedLeft(s: State, i: nat, asSender: bool)
    requires Inv(s) && i < |s.queues|
    ensures var q := Joined(s.queues[i], s.running, asSender);
            && s.queues[i := q][i] == q
            && s.queues[i := q][i := Left(q, s.running, asSender)] == s.queues
    ensures SetStatus(SetStatus(s.pcbs, s.running, Waiting), s.running, Running) == s.pcbs
  {
    hide Inv;
    NotInQueue(s, i);
    RunningRuns(s);
    LeavesAgain(s.queues[i], s.running, asSender);
  }

  lemma LeavesAgain(q: MessageQueue, p: Pid, asSender: bool)
    requires p !in q.senders && p !in q.receivers
    ensures Left(Joined(q, p, asSender), p, asSender) == q
  {
    RemoveLast(if asSender then q.senders else q.receivers, p);
  }

  lemma NotInQueue(s: State, i: nat)
    requires Inv(s) && i < |s.queues|
    ensures s.running !in s.queues[i].senders && s.running !in s.queues[i].receivers
  {
    assert QueueStatusOk(s.pcbs, s.queues[i]);
  }

  /** With a receiver waiting the queue is empty, so the message it takes is the one that has
      just been stored, and the queue is empty again. */
  lemma ServeDetour(s: State, i: nat, data: seq<Byte>)
    requires Inv(s) && i < |s.queues| && s.queues[i].receivers != []
    ensures var q := s.queues[i];
            var stored := q.(messages := q.messages + [Message(data, s.running)], current := q.current + 1);
            && stored.messages[0].data == data
            && s.queues[i := stored][i := stored.(receivers := q.receivers[1..], messages := stored.messages[1..],
                                                  current := stored.current - 1)]
               == s.queues[i := q.(receivers := q.receivers[1..])]
    ensures At(s.pcbs, s.queues[i].receivers[0]).call.Receive?
  {
    assert QueueOk(s.queues[i]) && QueueStatusOk(s.pcbs, s.queues[i]);
    assert s.queues[i].receivers[0] in s.queues[i].receivers;
    hide Inv;
    var q := s.queues[i];
    assert (q.messages + [Message(data, s.running)])[1..] == q.messages;
  }

  lemma OpenQueue(s: State, i: nat)
    requires Inv(s) && i < |s.queues|
    ensures QueueOk(s.queues[i]) && s.queues[i].status == Open && s.queues[i].id > 0
  {
  }

  // ----- who is in no list

  /** Every list entry is another live process. */
  ghost predicate Accounted(s: State) {
    Listed(s) <= multiset(s.pcbs.Keys)
  }

  /** What the scheduler relies on, be its caller still running or already parked. */
  ghost predicate Schedulable(s: State) {
    && TimersOk(s.pcbs, s.waiting, s.timers)
    && Accounted(s)
    && (At(s.pcbs, s.running).status == Running ==> s.running !in Listed(s))
  }

  lemma SchedulableTimers(s: State)
    requires Schedulable(s)
    ensures TimersOk(s.pcbs, s.waiting, s.timers) && Distinct(s.waiting)
  {
    ListedOnce(s);
  }

  lemma RunningUnlinked(s: State)
    requires Inv(s)
    ensures s.running !in Listed(s) && Accounted(s)
  {
    hide Common, NothingDue;
    assert (multiset{s.running} + Listed(s))[s.running] <= 1;
  }

  lemma SchedulerReady(s: State)
    requires Inv(s)
    ensures Schedulable(s)
  {
    hide FamilyOk, StatusOk, TableOk, TimersOk, NothingDue, PoolsOk, OnePlace;
    RunningUnlinked(s);
  }

  lemma LaterSchedulable(s: State, time: int)
    requires Schedulable(s)
    ensures Schedulable(s.(time := time))
  {
    hide TimersOk;
  }

  lemma SameLists(s: State, s1: State, p: Pid)
    requires s1.ready == s.ready && s1.waiting == s.waiting && s1.zombie == s.zombie && s1.queues == s.queues
    requires p !in Listed(s)
    ensures p !in Listed(s1)
  {
  }

  lemma HeadGone(s: State, s1: State, p: Pid)
    requires s.ready != [] && s1.ready == s.ready[1..]
    requires s1.waiting == s.waiting && s1.zombie == s.zombie && s1.queues == s.queues
    requires p !in Listed(s)
    ensures p !in Listed(s1)
  {
  }

  lemma WokenUnlinked(s: State)
    requires Schedulable(s)
    ensures var w := Woken(s); At(w.pcbs, w.running).status == Running ==> w.running !in Listed(w)
  {
    SchedulableTimers(s);
    WokenListed(s);
  }

  /** A sleeper taken off the waiting list is in no list. */
  lemma WakeUnlinked(s: State, s1: State, ws: seq<Pid>, k: nat)
    requires Schedulable(s) && ws == Elapsed(s.timers, s.time) && k < |ws|
    requires s1.ready == ws[..k] + s.ready && s1.waiting == Without(s.waiting, ws[..k + 1])
    requires s1.zombie == s.zombie && s1.queues == s.queues
    ensures ws[k] !in Listed(s1)
  {
    SchedulableTimers(s);
    hide TimersOk;
    ElapsedWait(s);
    NextOfDistinct(ws, k);
    hide Distinct;
    var p := ws[k];
    assert p in ws && p in s.waiting && p in ws[..k + 1];
    assert multiset(s.waiting)[p] >= 1 && Listed(s)[p] <= multiset(s.pcbs.Keys)[p] <= 1;
    assert p !in s.ready && p !in s.zombie && p !in Blocked(s.queues);
    assert p !in s1.waiting && p !in s1.ready;
  }

  /** A process taken off a waiting list of a queue is in no list. */
  lemma DetachedUnlinked(s: State, s1: State, i: nat, p: Pid)
    requires Accounted(s) && i < |s.queues| && i < |s1.queues| && s1.queues == s.queues[i := s1.queues[i]]
    requires Members(s.queues[i]) == Members(s1.queues[i]) + multiset{p}
    requires s1.ready == s.ready && s1.waiting == s.waiting && s1.zombie == s.zombie
    ensures p !in Listed(s1)
  {
    TableUpdate(s.queues, i, s1.queues[i]);
    Cancel(Blocked(s.queues), Members(s1.queues[i]), Blocked(s1.queues) + multiset{p});
    assert Listed(s) == Listed(s1) + multiset{p};
    assert (Listed(s1) + multiset{p})[p] <= multiset(s.pcbs.Keys)[p] <= 1;
  }

  /** Changing a queue but not its waiting lists keeps the account. */
  lemma StillAccounted(s: State, s1: State, i: nat)
    requires Inv(s) && i < |s.queues| && i < |s1.queues| && s1.queues == s.queues[i := s1.queues[i]]
    requires s1.queues[i].receivers == s.queues[i].receivers && s1.queues[i].senders == s.queues[i].senders
    requires s1.ready == s.ready && s1.waiting == s.waiting && s1.zombie == s.zombie
    requires s1.pcbs.Keys == s.pcbs.Keys
    ensures Accounted(s1)
  {
    RunningUnlinked(s);
    hide Inv;
    TableUpdate(s.queues, i, s1.queues[i]);
    Cancel(Blocked(s.queues), Members(s.queues[i]), Blocked(s1.queues));
  }

  lemma SameAccount(s: State, s1: State)
    requires Accounted(s) && s1.pcbs.Keys == s.pcbs.Keys
    requires s1.ready == s.ready && s1.waiting == s.waiting && s1.zombie == s.zombie && s1.queues == s.queues
    ensures Accounted(s1)
  {
  }

  lemma LineSplit(line: seq<Pid>, k: nat)
    requires k < |line|
    ensures multiset(line) == multiset(line[..k]) + multiset{line[k]} + multiset(line[k + 1..])
  {
    assert line == line[..k] + [line[k]] + line[k + 1..];
  }

  /** In the loops of destroy the process just taken off is in no list. */
  lemma FailUnlinked(s: State, s1: State, i: nat, senders: bool, k: nat)
    requires Accounted(s) && i < |s.queues| && k < |Line(s.queues[i], senders)|
    requires var line := Line(s.queues[i], senders);
             && s1.queues == s.queues[i := WithLine(s.queues[i], senders, line[k + 1..])]
             && s1.ready == s.ready + line[..k]
    requires s1.waiting == s.waiting && s1.zombie == s.zombie
    ensures Line(s.queues[i], senders)[k] !in Listed(s1)
  {
    var line := Line(s.queues[i], senders);
    var gone := multiset(line[..k]) + multiset{line[k]};
    LineSplit(line, k);
    TableUpdate(s.queues, i, s1.queues[i]);
    assert Members(s.queues[i]) == Members(s1.queues[i]) + gone;
    Cancel(Blocked(s.queues), Members(s1.queues[i]), Blocked(s1.queues) + gone);
    assert Listed(s) == Listed(s1) + multiset{line[k]};
    assert (Listed(s1) + multiset{line[k]})[line[k]] <= multiset(s.pcbs.Keys)[line[k]] <= 1;
  }

  lemma FailAccounted(s: State, s1: State, i: nat, senders: bool)
    requires Accounted(s) && i < |s.queues|
    requires s1.queues == s.queues[i := WithLine(s.queues[i], senders, [])]
    requires s1.ready == s.ready + Line(s.queues[i], senders)
    requires s1.waiting == s.waiting && s1.zombie == s.zombie && s1.pcbs.Keys == s.pcbs.Keys
    ensures Accounted(s1)
  {
    var line := Line(s.queues[i], senders);
    TableUpdate(s.queues, i, s1.queues[i]);
    assert Members(s.queues[i]) == Members(s1.queues[i]) + multiset(line);
    Cancel(Blocked(s.queues), Members(s1.queues[i]), Blocked(s1.queues) + multiset(line));
    assert Listed(s) == Listed(s1);
  }

  /** After the caller has joined the list, the scheduler only hands over, if it can. */
  lemma BlockReady(s: State, i: nat, q: MessageQueue)
    requires Inv(s) && i < |s.queues| && Joins(s, i, q)
    ensures Schedulable(s.(queues := s.queues[i := q], pcbs := SetStatus(s.pcbs, s.running, Waiting)))
  {
    hide Inv, Joins, StatusOk, TimersOk, TableOk, FamilyOk, NothingDue, PoolsOk;
    RunningRuns(s);
    JoinParked(s, i, q);
  }

  lemma BlockScheduled(s: State, i: nat, q: MessageQueue)
    requires Inv(s) && i < |s.queues|
    ensures var s1 := s.(queues := s.queues[i := q], pcbs := SetStatus(s.pcbs, s.running, Waiting));
            && Schedule(s1) == Switch(s1)
            && (s.ready == [] ==> Schedule(s1) == s1)
            && (s.ready != [] ==> Schedule(s1).running != s.running)
  {
    PlacesApart(s);
    var s1 := s.(queues := s.queues[i := q], pcbs := SetStatus(s.pcbs, s.running, Waiting));
    assert NothingDue(s1.timers, s1.time);
    hide Inv;
    ScheduleIsRotate(s1);
  }

  // ----- the wake-up loop

  lemma NoneWoken(s: State)
    ensures WakePcbs(s.pcbs, []) == s.pcbs && Without(s.waiting, []) == s.waiting
  {
    WithoutNothing(s.waiting);
  }

  /** One turn of the wake-up loop. */
  lemma WakeOneMore(s: State, ws: seq<Pid>, k: nat)
    requires TimersOk(s.pcbs, s.waiting, s.timers) && Distinct(s.waiting)
    requires ws == Elapsed(s.timers, s.time) && k < |s.timers| && k <= |ws| && s.timers[k].time <= s.time
    ensures k < |ws| && ws[k] == s.timers[k].pid && ws[..k + 1] == ws[..k] + [ws[k]]
    ensures Without(s.waiting, ws[..k + 1]) == Remove(Without(s.waiting, ws[..k]), ws[k])
    ensures ws[k] in Without(s.waiting, ws[..k])
    ensures ws[k] in s.pcbs
    ensures var m := WakePcbs(s.pcbs, ws[..k]);
            WakePcbs(s.pcbs, ws[..k + 1]) == m[ws[k] := At(m, ws[k]).(status := Ready, timer := false)]
    ensures InsertAfter(ws[..k] + s.ready, if k == 0 then None else Some(ws[k - 1]), ws[k]) == ws[..k + 1] + s.ready
  {
    hide TimersOk, WakePcbs, Without, InsertAfter, Remove;
    ElapsedWait(s);
    assert k < |ws|;
    NextOfDistinct(ws, k);
    hide Distinct;
    WithoutOneMore(s.waiting, ws[..k], ws[k]);
    InsertBehind(ws, k, s.ready);
    WakeOnePcb(s.pcbs, ws[..k], ws[k]);
  }

  lemma NextOfDistinct(ws: seq<Pid>, k: nat)
    requires k < |ws| && Distinct(ws)
    ensures ws[k] in ws && ws[k] !in ws[..k] && ws[..k + 1] == ws[..k] + [ws[k]]
  {
  }

  lemma WakeOnePcb(m: Processes, ws: seq<Pid>, p: Pid)
    requires p in m && p !in ws
    ensures WakePcbs(m, ws + [p]) == WakePcbs(m, ws)[p := At(WakePcbs(m, ws), p).(status := Ready, timer := false)]
  {
  }

  lemma {:induction false} FirstBehind(ws: seq<Pid>, rest: seq<Pid>)
    requires ws != [] && Distinct(ws)
    ensures IndexOf(ws + rest, ws[|ws| - 1]) == |ws| - 1
  {
    var line := ws + rest;
    if |ws| > 1 {
      FirstBehind(ws[1..], rest);
      assert line[1..] == ws[1..] + rest;
      assert line[0] == ws[0];
    }
  }

  lemma InsertBehind(ws: seq<Pid>, k: nat, rest: seq<Pid>)
    requires k < |ws| && Distinct(ws)
    ensures InsertAfter(ws[..k] + rest, if k == 0 then None else Some(ws[k - 1]), ws[k]) == ws[..k + 1] + rest
  {
    hide IndexOf;
    if k > 0 {
      FirstBehind(ws[..k], rest);
      SplitAt(ws[..k], rest, ws[k]);
      assert ws[..k] + [ws[k]] == ws[..k + 1];
    }
  }

  lemma SplitAt(ws: seq<Pid>, rest: seq<Pid>, x: Pid)
    ensures var line := ws + rest; line[..|ws|] + [x] + line[|ws|..] == (ws + [x]) + rest
  {
  }

  lemma AllWoken(s: State, k: nat)
    requires k <= |Elapsed(s.timers, s.time)|
    requires s.timers[k..] == [] || s.timers[k..][0].time > s.time
    ensures k == |Elapsed(s.timers, s.time)|
    ensures Elapsed(s.timers, s.time)[..k] == Elapsed(s.timers, s.time)
  {
    var ws := Elapsed(s.timers, s.time);
    assert forall i :: 0 <= i < |ws| ==> s.timers[i].time <= s.time;
    assert k < |s.timers| ==> s.timers[k..][0] == s.timers[k];
  }
}
