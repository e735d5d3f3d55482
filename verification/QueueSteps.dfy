/** What one step does to one queue: the law of conservation behind FIFO order, and who
    completes a blocked call. */
module QueueSteps {
  import opened Lists
  import opened KernelState
  import opened KernelSteps
  import opened KernelInvariant
  import opened ProcessInvariant

  // ----- looking at a queue from outside

  function QueueAt(s: State, id: int): Option<MessageQueue> {
    var i := FindQueue(s.queues, id);
    if i < |s.queues| then Some(s.queues[i]) else None
  }

  function Stored(ms: seq<Message>): (r: seq<seq<Byte>>)
    ensures |r| == |ms|
  {
    seq(|ms|, i requires 0 <= i < |ms| => ms[i].data)
  }

  function Pending(m: Processes, ps: seq<Pid>): (r: seq<seq<Byte>>)
    ensures |r| == |ps|
  {
    seq(|ps|, i requires 0 <= i < |ps| => Payload(At(m, ps[i]).call))
  }

  /** What queue `id` still owes: the stored messages, then the messages of the senders that
      are blocked, each in list order. */
  function Content(s: State, id: int): seq<seq<Byte>> {
    match QueueAt(s, id)
    case None => []
    case Some(q) => Stored(q.messages) + Pending(s.pcbs, q.senders)
  }

  predicate IsSend(e: Event, id: int) {
    e.Trap? && e.call.Send? && e.call.queueId == id
  }

  predicate IsReceive(e: Event, id: int) {
    e.Trap? && e.call.Receive? && e.call.queueId == id
  }

  /** The caller of step `e` from `s` to `s'`, as the step leaves it. */
  function Caller(s: State, s': State): PCB {
    At(s'.pcbs, s.running)
  }

  /** What the step puts into queue `id`: the bytes of a send that reported no error, be it
      that the call returned 0 or that it is blocked. */
  function In(s: State, e: Event, s': State, id: int): seq<seq<Byte>> {
    if IsSend(e, id) && (Caller(s, s').status == Waiting || Caller(s, s').ret == 0)
    then [Payload(e.call)] else []
  }

  /** What the step takes out of queue `id`. A process whose receive reports a size has the
      bytes in its buffer; a receive that reports a too small buffer lost a message. */
  function Out(s: State, e: Event, s': State, id: int): seq<seq<Byte>> {
    if QueueAt(s, id).None? then []
    else
      var q := QueueAt(s, id).value;
      if IsReceive(e, id) && Caller(s, s').status != Waiting then
        if Caller(s, s').ret > 0 then [Caller(s, s').inbox]
        else if Caller(s, s').ret == EBUFFER && e.call.bufferSize > 0 && q.messages != [] then [q.messages[0].data]
        else []
      else if In(s, e, s', id) != [] && Caller(s, s').status != Waiting && q.receivers != [] then
        var r := At(s'.pcbs, q.receivers[0]);
        if r.ret > 0 then [r.inbox] else [Payload(e.call)]
      else []
  }

  // ----- queue lookup

  lemma {:induction false} SameIds(qs: seq<MessageQueue>, qs': seq<MessageQueue>, id: int)
    requires |qs| == |qs'| && forall j :: 0 <= j < |qs| ==> qs'[j].id == qs[j].id
    ensures FindQueue(qs', id) == FindQueue(qs, id)
  {
    if qs != [] && qs[0].id != id {
      SameIds(qs[1..], qs'[1..], id);
    }
  }

  lemma FindAt(qs: seq<MessageQueue>, i: nat)
    requires TableOk(qs) && i < |qs|
    ensures FindQueue(qs, qs[i].id) == i
  {
  }

  lemma FindUpdated(s: State, s': State, i: nat, q: MessageQueue, id: int)
    requires i < |s.queues| && s'.queues == s.queues[i := q] && q.id == s.queues[i].id
    ensures FindQueue(s'.queues, id) == FindQueue(s.queues, id)
    ensures FindQueue(s.queues, id) != i ==> QueueAt(s', id) == QueueAt(s, id)
    ensures FindQueue(s.queues, id) == i ==> QueueAt(s', id) == Some(q)
  {
    SameIds(s.queues, s'.queues, id);
  }

  lemma FindRemoved(s: State, s': State, i: nat, id: int)
    requires TableOk(s.queues) && i < |s.queues| && s'.queues == s.queues[..i] + s.queues[i + 1..]
    ensures id == s.queues[i].id ==> QueueAt(s', id) == None
    ensures id != s.queues[i].id ==> QueueAt(s', id) == QueueAt(s, id)
  {
    var k, k' := FindQueue(s.queues, id), FindQueue(s'.queues, id);
    assert forall j :: 0 <= j < |s'.queues| ==> s'.queues[j] == s.queues[if j < i then j else j + 1];
    if id == s.queues[i].id {
      assert forall j :: 0 <= j < |s'.queues| ==> s'.queues[j].id != id;
    } else if k < |s.queues| {
      RemovedTable(s.queues, i);
      var k0 := if k < i then k else k - 1;
      assert s'.queues[k0] == s.queues[k];
      FindAt(s'.queues, k0);
    } else {
      assert forall j :: 0 <= j < |s'.queues| ==> s'.queues[j].id != id;
    }
  }

  lemma FindAppended(s: State, s': State, q: MessageQueue, id: int)
    requires FindQueue(s.queues, q.id) == |s.queues| && s'.queues == s.queues + [q]
    ensures id != q.id ==> QueueAt(s', id) == QueueAt(s, id)
    ensures id == q.id ==> QueueAt(s', id) == Some(q)
  {
    var k' := FindQueue(s'.queues, id);
    var k := FindQueue(s.queues, id);
    assert forall j :: 0 <= j < |s.queues| ==> s'.queues[j] == s.queues[j];
    if k < |s.queues| { assert s'.queues[k].id == id; }
    assert s'.queues[|s.queues|] == q;
  }

  // ----- frames

  /** A send or receive leaves every other queue alone. */
  lemma SendFrame(s: State, id: int, size: int, data: seq<Byte>, other: int)
    requires other != id
    ensures QueueAt(SendStep(s, id, size, data), other) == QueueAt(s, other)
  {
    var s' := SendStep(s, id, size, data);
    var i := FindQueue(s.queues, id);
    if s'.queues != s.queues {
      FindUpdated(s, s', i, s'.queues[i], other);
    }
  }

  lemma ReceiveFrame(s: State, id: int, room: int, other: int)
    requires other != id
    ensures QueueAt(ReceiveStep(s, id, room), other) == QueueAt(s, other)
  {
    var s' := ReceiveStep(s, id, room);
    var i := FindQueue(s.queues, id);
    if s'.queues != s.queues {
      FindUpdated(s, s', i, s'.queues[i], other);
    }
  }

  lemma DestroyFrame(s: State, id: int, other: int)
    requires TableOk(s.queues)
    ensures other != id ==> QueueAt(DestroyStep(s, id), other) == QueueAt(s, other)
    ensures other == id ==> QueueAt(DestroyStep(s, id), other) == (if id > 0 then None else QueueAt(s, other))
  {
    var i := FindQueue(s.queues, id);
    if id > 0 && i < |s.queues| {
      FindRemoved(s, DestroyStep(s, id), i, other);
    }
  }

  lemma CreateFrame(s: State, id: int, capacity: int, other: int)
    ensures var q, q' := QueueAt(s, other), QueueAt(CreateStep(s, id, capacity), other);
            q' == q || (other == id && q == None && q' == Some(MessageQueue(id, capacity, 0, Open, [], [], [])))
  {
    var s' := CreateStep(s, id, capacity);
    if s'.queues != s.queues {
      FindAppended(s, s', s'.queues[|s.queues|], other);
    }
  }

  lemma ProcessCallsFrame(s: State, call: Call)
    requires !call.Create? && !call.Send? && !call.Receive? && !call.Destroy?
    ensures Perform(s, call).queues == s.queues
  {
  }

  lemma PerformUntouched(s: State, call: Call, id: int)
    requires TableOk(s.queues) && !IsSend(Trap(call), id) && !IsReceive(Trap(call), id)
    ensures var q, q' := QueueAt(s, id), QueueAt(Perform(s, call), id);
            || q' == q
            || (q' == None && call == Destroy(id))
            || (q == None && call.Create? && call.queueId == id
                && q' == Some(MessageQueue(id, call.capacity, 0, Open, [], [], [])))
  {
    hide TableOk, SendStep, ReceiveStep, CreateStep, DestroyStep, WaitStep, ExitStep, SleepStep, SpawnStep, Schedule;
    match call
    case Send(other, _, size) => SendFrame(s, other, size, Payload(call), id);
    case Receive(other, room) => ReceiveFrame(s, other, room, id);
    case Create(other, capacity) => CreateFrame(s, other, capacity, id);
    case Destroy(other) => DestroyFrame(s, other, id);
    case _ => ProcessCallsFrame(s, call);
  }

  /** Only calls that name a queue change it: besides send and receive these are destroy, which
      removes it, and create, which makes it empty and without anybody waiting. */
  lemma QueueUntouched(s: State, e: Event, id: int)
    requires TableOk(s.queues) && !IsSend(e, id) && !IsReceive(e, id)
    ensures var q, q' := QueueAt(s, id), QueueAt(Step(s, e), id);
            || q' == q
            || (q' == None && e == Trap(Destroy(id)))
            || (q == None && e.Trap? && e.call.Create? && e.call.queueId == id
                && q' == Some(MessageQueue(id, e.call.capacity, 0, Open, [], [], [])))
  {
    hide Perform, Schedule;
    match e
    case Tick => ScheduleQueues(s.(time := s.time + 1));
    case Trap(call) => PerformUntouched(Issue(s, call), call, id);
  }

  lemma ScheduleQueues(s: State)
    ensures Schedule(s).queues == s.queues
  {
  }

  /** The process has the same parent and has not called anew. */
  ghost predicate SameCall(c: PCB, c': PCB) {
    c'.call == c.call && c'.parent == c.parent
  }

  /** The arguments of a call stay in the PCB until its process calls again, and a process keeps
      its parent for ever. */
  lemma CallsKept(s: State, e: Event, p: Pid)
    requires Inv(s) && p in s.pcbs && p in Step(s, e).pcbs
    ensures p != s.running || e.Tick? ==> Step(s, e).pcbs[p].call == s.pcbs[p].call
    ensures Step(s, e).pcbs[p].parent == s.pcbs[p].parent
  {
    hide Inv, Perform, Schedule;
    LivePid(s, p);
    match e
    case Tick => ScheduleCalls(s.(time := s.time + 1), p);
    case Trap(call) =>
      IssueCalls(s, call, p);
      hide Issue;
      PerformCalls(Issue(s, call), call, p);
  }

  lemma LivePid(s: State, p: Pid)
    requires Inv(s) && p in s.pcbs
    ensures p < s.lastPid
  {
  }

  lemma IssueCalls(s: State, call: Call, p: Pid)
    requires p in s.pcbs
    ensures var s1 := Issue(s, call);
            && p in s1.pcbs && s1.lastPid == s.lastPid && s1.pcbs[p].parent == s.pcbs[p].parent
            && (p != s.running ==> s1.pcbs[p].call == s.pcbs[p].call)
  {
  }

  lemma ScheduleCalls(s: State, p: Pid)
    requires p in s.pcbs
    ensures p in Schedule(s).pcbs && SameCall(s.pcbs[p], Schedule(s).pcbs[p])
  {
    hide Elapsed, Without;
  }

  lemma PerformCalls(s: State, call: Call, p: Pid)
    requires p in s.pcbs && p in Perform(s, call).pcbs && p < s.lastPid
    ensures SameCall(s.pcbs[p], Perform(s, call).pcbs[p])
  {
    hide SendStep, ReceiveStep, ExitStep, WaitStep, SleepStep, CreateStep, DestroyStep, Schedule, SameCall;
    match call
    case Preempt => ScheduleCalls(s, p);
    case Exit(value) => ExitCalls(s, value, p);
    case Send(id, _, size) => SendCalls(s, id, size, Payload(call), p);
    case Receive(id, room) => ReceiveCalls(s, id, room, p);
    case Wait(pid, hasResult) => WaitCalls(s, pid, hasResult, p);
    case Sleep(cycles) => SleepCalls(s, cycles, p);
    case _ => SmallCalls(s, call, p);
  }

  lemma SmallCalls(s: State, call: Call, p: Pid)
    requires p in s.pcbs && p in Perform(s, call).pcbs && p < s.lastPid
    requires !call.Preempt? && !call.Exit? && !call.Send? && !call.Receive? && !call.Wait? && !call.Sleep?
    ensures SameCall(s.pcbs[p], Perform(s, call).pcbs[p])
  {
    hide FindQueue;
  }

  lemma SleepCalls(s: State, cycles: int, p: Pid)
    requires p in s.pcbs
    ensures p in SleepStep(s, cycles).pcbs && SameCall(s.pcbs[p], SleepStep(s, cycles).pcbs[p])
  {
    hide InsertTimer;
  }

  lemma WaitCalls(s: State, pid: int, hasResult: bool, p: Pid)
    requires p in s.pcbs && p in WaitStep(s, pid, hasResult).pcbs
    ensures SameCall(s.pcbs[p], WaitStep(s, pid, hasResult).pcbs[p])
  {
  }

  lemma ExitCalls(s: State, value: int, p: Pid)
    requires p in s.pcbs && p in ExitStep(s, value).pcbs
    ensures SameCall(s.pcbs[p], ExitStep(s, value).pcbs[p])
  {
  }

  lemma BlockCalls(s: State, i: nat, q: MessageQueue, failure: int, p: Pid)
    requires p in s.pcbs && i < |s.queues|
    ensures p in BlockOn(s, i, q, failure).pcbs && SameCall(s.pcbs[p], BlockOn(s, i, q, failure).pcbs[p])
  {
  }

  lemma SendCalls(s: State, id: int, size: int, data: seq<Byte>, p: Pid)
    requires p in s.pcbs
    ensures p in SendStep(s, id, size, data).pcbs && SameCall(s.pcbs[p], SendStep(s, id, size, data).pcbs[p])
  {
    hide BlockOn;
    var i := FindQueue(s.queues, id);
    if i < |s.queues| {
      BlockCalls(s, i, s.queues[i].(senders := s.queues[i].senders + [s.running]), EMQFULL, p);
    }
  }

  lemma ReceiveCalls(s: State, id: int, room: int, p: Pid)
    requires p in s.pcbs
    ensures p in ReceiveStep(s, id, room).pcbs && SameCall(s.pcbs[p], ReceiveStep(s, id, room).pcbs[p])
  {
    hide BlockOn;
    var i := FindQueue(s.queues, id);
    if i < |s.queues| {
      BlockCalls(s, i, s.queues[i].(receivers := s.queues[i].receivers + [s.running]), EMQEMPTY, p);
    }
  }

  /** What a send does to the entry of its queue. */
  lemma SendQueue(s: State, id: int, size: int, data: seq<Byte>)
    ensures var s' := SendStep(s, id, size, data);
            match QueueAt(s, id)
            case None => QueueAt(s', id) == None
            case Some(q) =>
              || QueueAt(s', id) == Some(q)
              || (q.current >= q.capacity && QueueAt(s', id) == Some(q.(senders := q.senders + [s.running])))
              || (q.current < q.capacity && q.receivers != [] &&
                  QueueAt(s', id) == Some(q.(receivers := q.receivers[1..])))
              || (q.current < q.capacity && q.receivers == [] &&
                  QueueAt(s', id) == Some(q.(messages := q.messages + [Message(data, s.running)],
                                             current := q.current + 1)))
  {
    hide SetStatus, SetRet, Deliver, At;
    var s' := SendStep(s, id, size, data);
    var i := FindQueue(s.queues, id);
    if i < |s.queues| && s'.queues != s.queues {
      FindUpdated(s, s', i, s'.queues[i], id);
    }
  }

  /** What a receive does to the entry of its queue. */
  lemma ReceiveQueue(s: State, id: int, room: int)
    ensures var s' := ReceiveStep(s, id, room);
            match QueueAt(s, id)
            case None => QueueAt(s', id) == None
            case Some(q) =>
              || QueueAt(s', id) == Some(q)
              || QueueAt(s', id) == Some(q.(receivers := q.receivers + [s.running]))
              || (q.messages != [] && (q.senders == [] || room < |q.messages[0].data|) &&
                  QueueAt(s', id) == Some(q.(messages := q.messages[1..], current := q.current - 1)))
              || (q.messages != [] && q.senders != [] && room >= |q.messages[0].data| &&
                  var message := Message(Payload(At(s.pcbs, q.senders[0]).call), s.running);
                  QueueAt(s', id) == Some(q.(messages := q.messages[1..] + [message], senders := q.senders[1..])))
  {
    hide SetStatus, SetRet, Deliver, At, Complete;
    var s' := ReceiveStep(s, id, room);
    var i := FindQueue(s.queues, id);
    if i < |s.queues| && s'.queues != s.queues {
      FindUpdated(s, s', i, s'.queues[i], id);
    }
  }

  // ----- conservation

  lemma PendingKept(m: Processes, m': Processes, ps: seq<Pid>)
    requires forall p :: p in ps ==> p in m && p in m' && m'[p].call == m[p].call
    ensures Pending(m', ps) == Pending(m, ps)
  {
  }

  /** Blocked senders keep their PCBs and their arguments. */
  lemma SendersKept(s: State, e: Event, i: nat, ps: seq<Pid>)
    requires Inv(s) && i < |s.queues| && forall p :: p in ps ==> p in s.queues[i].senders
    requires forall p :: p in ps ==> p in Step(s, e).pcbs
    ensures Pending(Step(s, e).pcbs, ps) == Pending(s.pcbs, ps)
  {
    hide Inv, Step;
    forall p | p in ps ensures p in s.pcbs && Step(s, e).pcbs[p].call == s.pcbs[p].call {
      assert p in Members(s.queues[i]);
      BlockedOnce(s, i, p);
      CallsKept(s, e, p);
    }
    PendingKept(s.pcbs, Step(s, e).pcbs, ps);
  }

  lemma SendersLive(s: State, id: int)
    requires Inv(s)
    ensures QueueAt(s, id).Some? ==> forall p :: p in QueueAt(s, id).value.senders ==> p in s.pcbs
  {
    hide FamilyOk, NothingDue, TimersOk, PoolsOk, OnePlace, TableOk;
    if QueueAt(s, id).Some? {
      assert QueueStatusOk(s.pcbs, QueueAt(s, id).value);
    }
  }

  /** A step that is no send or receive on the queue leaves what it owes. */
  lemma UntouchedContent(s: State, e: Event, id: int)
    requires Inv(s) && Inv(Step(s, e)) && !IsSend(e, id) && !IsReceive(e, id)
    requires QueueAt(Step(s, e), id).Some?
    ensures Content(Step(s, e), id) == Content(s, id)
  {
    assert TableOk(s.queues);
    hide Inv, Step, TableOk;
    var s' := Step(s, e);
    QueueUntouched(s, e, id);
    SendersLive(s', id);
    if QueueAt(s, id).Some? {
      SendersKept(s, e, FindQueue(s.queues, id), QueueAt(s, id).value.senders);
    }
  }

  /** The send puts its message before those of senders that have waited longer. */
  predicate Overtakes(s: State, e: Event, id: int) {
    && IsSend(e, id) && id > 0 && 0 < e.call.size <= MESSAGE_MAX_SIZE
    && QueueAt(s, id).Some?
    && var q := QueueAt(s, id).value;
       q.current < q.capacity && exists w :: w in Pending(s.pcbs, q.senders) && w != Payload(e.call)
  }

  lemma {:induction false} Commutes(ws: seq<seq<Byte>>, x: seq<Byte>)
    ensures ws + [x] == [x] + ws <==> forall w :: w in ws ==> w == x
  {
    if ws == [] {
      assert ws + [x] == [x] + ws;
    } else {
      Commutes(ws[1..], x);
      assert ws == [ws[0]] + ws[1..];
      if ws + [x] == [x] + ws {
        assert (ws + [x])[0] == ([x] + ws)[0];
        assert ws[0] == x;
        assert ws[1..] + [x] == (ws + [x])[1..] == ([x] + ws)[1..] == ws == [x] + ws[1..];
      }
      if forall w :: w in ws ==> w == x {
        assert ws[0] in ws;
        assert forall w :: w in ws[1..] ==> w in ws;
        assert ws + [x] == [ws[0]] + (ws[1..] + [x]);
      }
    }
  }

  lemma StoredAppend(ms: seq<Message>, m: Message)
    ensures Stored(ms + [m]) == Stored(ms) + [m.data]
  {
  }

  lemma PendingAppend(m: Processes, ps: seq<Pid>, p: Pid)
    ensures Pending(m, ps + [p]) == Pending(m, ps) + [Payload(At(m, p).call)]
  {
  }

  /** A state in which the running process has issued `call`. */
  ghost predicate Issued(s: State, call: Call) {
    Inv(s) && s.pcbs[s.running].call == call
  }

  lemma QueueFacts(s: State, i: nat)
    requires Inv(s) && i < |s.queues|
    ensures QueueOk(s.queues[i]) && QueueAt(s, s.queues[i].id) == Some(s.queues[i])
    ensures FindQueue(s.queues, s.queues[i].id) == i
    ensures forall p :: p in s.queues[i].senders ==> p in s.pcbs && p != s.running
    ensures forall p :: p in s.queues[i].receivers ==>
              p in s.pcbs && p != s.running && BlockedReceiver(s.pcbs[p], s.queues[i].id) && p !in s.queues[i].senders
    ensures s.running !in s.ready
    ensures forall p :: p in s.ready ==> p !in s.queues[i].senders
  {
    hide FamilyOk, NothingDue, TimersOk, PoolsOk, OnePlace;
    assert QueueStatusOk(s.pcbs, s.queues[i]);
    FindAt(s.queues, i);
    PlacesApart(s);
  }

  lemma SwitchFrame(s: State, p: Pid)
    requires p in s.pcbs && p !in s.ready
    ensures At(Switch(s).pcbs, p) == At(s.pcbs, p)
  {
  }

  lemma SwitchCalls(s: State, ps: seq<Pid>)
    requires forall p :: p in ps ==> p in s.pcbs
    ensures Pending(Switch(s).pcbs, ps) == Pending(s.pcbs, ps)
  {
    PendingKept(s.pcbs, Switch(s).pcbs, ps);
  }

  ghost predicate Balanced(s: State, e: Event, s': State, id: int) {
    Content(s, id) + In(s, e, s', id) == Out(s, e, s', id) + Content(s', id)
  }

  lemma SwitchQueues(s: State)
    ensures Switch(s).queues == s.queues
  {
  }

  /** Content after a process joined the senders and its successor took over. */
  lemma JoinContent(s: State, i: nat, call: Call)
    requires Issued(s, call) && call.Send? && i < |s.queues| && s.queues[i].id == call.queueId
    ensures var q' := s.queues[i].(senders := s.queues[i].senders + [s.running]);
            var s1 := s.(queues := s.queues[i := q'], pcbs := SetStatus(s.pcbs, s.running, Waiting));
            Content(Switch(s1), call.queueId) == Content(s, call.queueId) + [Payload(call)]
  {
    hide Inv, QueueOk, BlockedReceiver, Switch, Pending, Payload, Stored;
    QueueFacts(s, i);
    RunningRuns(s);
    var q := s.queues[i];
    var q' := q.(senders := q.senders + [s.running]);
    var s1 := s.(queues := s.queues[i := q'], pcbs := SetStatus(s.pcbs, s.running, Waiting));
    FindUpdated(s, s1, i, q', q.id);
    SwitchQueues(s1);
    SwitchCalls(s1, q'.senders);
    PendingAppend(s1.pcbs, q.senders, s.running);
    PendingKept(s.pcbs, s1.pcbs, q.senders);
  }

  lemma BlockedCaller(s: State, i: nat, q: MessageQueue, failure: int)
    requires Inv(s) && i < |s.queues| && s.ready != []
    ensures Caller(s, BlockOn(s, i, q, failure)).status == Waiting
  {
    PlacesApart(s);
    hide Inv;
    SwitchFrame(s.(queues := s.queues[i := q], pcbs := SetStatus(s.pcbs, s.running, Waiting)), s.running);
  }

  lemma SendBlocks(s: State, i: nat, call: Call, s': State)
    requires Issued(s, call) && call.Send? && i < |s.queues| && s.queues[i].id == call.queueId
    requires s.ready != []
    requires s' == BlockOn(s, i, s.queues[i].(senders := s.queues[i].senders + [s.running]), EMQFULL)
    ensures Balanced(s, Trap(call), s', call.queueId)
  {
    hide Inv, Switch, Content;
    BlockedCaller(s, i, s.queues[i].(senders := s.queues[i].senders + [s.running]), EMQFULL);
    assert In(s, Trap(call), s', call.queueId) == [Payload(call)];
    assert Out(s, Trap(call), s', call.queueId) == [];
    JoinContent(s, i, call);
  }

  lemma HandOverOut(s: State, i: nat, call: Call)
    requires Issued(s, call) && call.Send? && i < |s.queues| && s.queues[i].id == call.queueId
    requires s.queues[i].receivers != [] && 0 < |Payload(call)|
    ensures var s' := HandOver(s, i, s.queues[i].receivers[0], Payload(call));
            && In(s, Trap(call), s', call.queueId) == [Payload(call)]
            && Out(s, Trap(call), s', call.queueId) == [Payload(call)]
            && Content(s', call.queueId) == Content(s, call.queueId) == Pending(s.pcbs, s.queues[i].senders)
  {
    hide Inv;
    QueueFacts(s, i);
    RunningRuns(s);
    assert s.queues[i].receivers[0] in s.queues[i].receivers;
    var q := s.queues[i];
    var s' := HandOver(s, i, q.receivers[0], Payload(call));
    FindUpdated(s, s', i, s'.queues[i], q.id);
    PendingKept(s.pcbs, s'.pcbs, q.senders);
    assert Stored(q.messages) == [];
  }

  lemma EnqueueOut(s: State, i: nat, call: Call, s': State)
    requires Issued(s, call) && call.Send? && i < |s.queues| && s.queues[i].id == call.queueId
    requires s.queues[i].receivers == []
    requires var q := s.queues[i];
             s'.queues == s.queues[i := q.(messages := q.messages + [Message(Payload(call), s.running)],
                                           current := q.current + 1)]
    requires s'.pcbs == SetRet(s.pcbs, s.running, 0)
    ensures In(s, Trap(call), s', call.queueId) == [Payload(call)]
    ensures Out(s, Trap(call), s', call.queueId) == []
    ensures Content(s', call.queueId)
            == Stored(s.queues[i].messages) + [Payload(call)] + Pending(s.pcbs, s.queues[i].senders)
  {
    QueueFacts(s, i);
    hide Inv, QueueOk, BlockedReceiver;
    var q := s.queues[i];
    FindUpdated(s, s', i, s'.queues[i], q.id);
    PendingKept(s.pcbs, s'.pcbs, q.senders);
    StoredAppend(q.messages, Message(Payload(call), s.running));
  }

  /** A send that fails changes no queue. */
  lemma FailedSend(s: State, call: Call, v: int)
    requires Issued(s, call) && call.Send? && v < 0
    ensures Balanced(s, Trap(call), Returning(s, v), call.queueId)
  {
    var s' := Returning(s, v);
    assert s.pcbs[s.running].status == Running;
    var id := call.queueId;
    if QueueAt(s, id).Some? {
      QueueFacts(s, FindQueue(s.queues, id));
      hide Inv, QueueOk;
      PendingKept(s.pcbs, s'.pcbs, QueueAt(s, id).value.senders);
    }
    assert In(s, Trap(call), s', id) == [] && Out(s, Trap(call), s', id) == [];
  }

  lemma SendConserves(s: State, call: Call)
    requires Issued(s, call) && call.Send?
    requires 0 < call.size <= MESSAGE_MAX_SIZE ==> call.size <= |call.buffer|
    ensures Balanced(s, Trap(call), Perform(s, call), call.queueId) <==> !Overtakes(s, Trap(call), call.queueId)
  {
    hide Inv, QueueOk, TableOk, Balanced, BlockedReceiver, HandOver, Switch, Content, In, Out, Pending;
    RunningRuns(s);
    var id, data := call.queueId, Payload(call);
    var s' := Perform(s, call);
    var i := FindQueue(s.queues, id);
    if id <= 0 || call.size <= 0 || call.size > MESSAGE_MAX_SIZE || i == |s.queues| {
      FailedSend(s, call, Caller(s, s').ret);
    } else {
      QueueFacts(s, i);
      var q := s.queues[i];
      if q.current >= q.capacity {
        if s.ready == [] {
          FailedSend(s, call, EMQFULL);
        } else {
          SendBlocks(s, i, call, s');
        }
      } else {
        SendConservesOpen(s, i, call);
      }
    }
  }

  lemma EnqueueBalance(ms: seq<seq<Byte>>, ws: seq<seq<Byte>>, x: seq<Byte>)
    ensures (ms + ws) + [x] == [] + (ms + [x] + ws) <==> forall w :: w in ws ==> w == x
  {
    Commutes(ws, x);
    assert (ms + ws) + [x] == ms + (ws + [x]);
    assert [] + (ms + [x] + ws) == ms + ([x] + ws);
    assert (ms + (ws + [x]))[|ms|..] == ws + [x];
    assert (ms + ([x] + ws))[|ms|..] == [x] + ws;
  }

  lemma HandOverConserves(s: State, i: nat, call: Call)
    requires Issued(s, call) && call.Send? && i < |s.queues| && s.queues[i].id == call.queueId
    requires s.queues[i].receivers != [] && 0 < |Payload(call)|
    ensures Balanced(s, Trap(call), HandOver(s, i, s.queues[i].receivers[0], Payload(call)), call.queueId)
            <==> forall w :: w in Pending(s.pcbs, s.queues[i].senders) ==> w == Payload(call)
  {
    hide Inv, HandOver, In, Out, Content;
    HandOverOut(s, i, call);
    Commutes(Pending(s.pcbs, s.queues[i].senders), Payload(call));
  }

  lemma EnqueueConserves(s: State, i: nat, call: Call, s': State)
    requires Issued(s, call) && call.Send? && i < |s.queues| && s.queues[i].id == call.queueId
    requires s.queues[i].receivers == []
    requires var q := s.queues[i];
             s'.queues == s.queues[i := q.(messages := q.messages + [Message(Payload(call), s.running)],
                                           current := q.current + 1)]
    requires s'.pcbs == SetRet(s.pcbs, s.running, 0)
    ensures Balanced(s, Trap(call), s', call.queueId)
            <==> forall w :: w in Pending(s.pcbs, s.queues[i].senders) ==> w == Payload(call)
  {
    QueueFacts(s, i);
    hide Inv, In, Out;
    EnqueueOut(s, i, call, s');
    EnqueueBalance(Stored(s.queues[i].messages), Pending(s.pcbs, s.queues[i].senders), Payload(call));
  }

  lemma SendConservesOpen(s: State, i: nat, call: Call)
    requires Issued(s, call) && call.Send? && i < |s.queues| && i == FindQueue(s.queues, call.queueId)
    requires 0 < |Payload(call)| && s.queues[i].current < s.queues[i].capacity
    requires call.queueId > 0 && 0 < call.size <= MESSAGE_MAX_SIZE
    ensures Balanced(s, Trap(call), Perform(s, call), call.queueId)
            <==> forall w :: w in Pending(s.pcbs, s.queues[i].senders) ==> w == Payload(call)
  {
    hide Inv, Balanced, HandOver;
    if s.queues[i].receivers != [] {
      HandOverConserves(s, i, call);
    } else {
      EnqueueConserves(s, i, call, Perform(s, call));
    }
  }

  lemma StoredTail(ms: seq<Message>)
    requires ms != []
    ensures Stored(ms) == [ms[0].data] + Stored(ms[1..])
  {
  }

  lemma PendingTail(m: Processes, ps: seq<Pid>)
    requires ps != []
    ensures Pending(m, ps) == [Payload(At(m, ps[0]).call)] + Pending(m, ps[1..])
  {
  }

  /** A receive that fails, or that blocks, moves no message. */
  lemma IdleReceive(s: State, call: Call, s': State)
    requires Issued(s, call) && call.Receive?
    requires Content(s', call.queueId) == Content(s, call.queueId)
    requires || Caller(s, s').status == Waiting
             || (Caller(s, s').ret <= 0 && (Caller(s, s').ret == EBUFFER ==> call.bufferSize <= 0))
    ensures Balanced(s, Trap(call), s', call.queueId)
  {
    hide Inv, Content;
    assert In(s, Trap(call), s', call.queueId) == [];
    assert Out(s, Trap(call), s', call.queueId) == [];
    assert Content(s, call.queueId) + [] == [] + Content(s', call.queueId);
  }

  lemma ReturningContent(s: State, v: int, id: int)
    requires Inv(s)
    ensures Content(Returning(s, v), id) == Content(s, id)
  {
    var i := FindQueue(s.queues, id);
    if i < |s.queues| {
      QueueFacts(s, i);
      hide Inv, QueueOk, BlockedReceiver;
      PendingKept(s.pcbs, Returning(s, v).pcbs, s.queues[i].senders);
    }
  }

  lemma ReceiveBlocksContent(s: State, i: nat, call: Call)
    requires Issued(s, call) && call.Receive? && i < |s.queues| && s.queues[i].id == call.queueId
    ensures var q' := s.queues[i].(receivers := s.queues[i].receivers + [s.running]);
            var s1 := s.(queues := s.queues[i := q'], pcbs := SetStatus(s.pcbs, s.running, Waiting));
            Content(Switch(s1), call.queueId) == Content(s, call.queueId)
  {
    QueueFacts(s, i);
    hide Inv, QueueOk, BlockedReceiver;
    var q := s.queues[i];
    var q' := q.(receivers := q.receivers + [s.running]);
    var s1 := s.(queues := s.queues[i := q'], pcbs := SetStatus(s.pcbs, s.running, Waiting));
    FindUpdated(s, s1, i, q', q.id);
    assert QueueAt(Switch(s1), q.id) == QueueAt(s1, q.id);
    SwitchCalls(s1, q.senders);
    PendingKept(s.pcbs, s1.pcbs, q.senders);
  }

  lemma DeliveredCaller(s: State, call: Call, s': State, data: seq<Byte>)
    requires Issued(s, call) && call.Receive? && call.bufferSize > 0 && 0 < |data|
    requires QueueAt(s, call.queueId).Some? && QueueAt(s, call.queueId).value.messages != []
    requires QueueAt(s, call.queueId).value.messages[0].data == data
    requires Caller(s, s') == At(Deliver(s.pcbs, s.running, call.bufferSize, data), s.running)
    ensures In(s, Trap(call), s', call.queueId) == []
    ensures Out(s, Trap(call), s', call.queueId) == [data]
  {
    assert s.pcbs[s.running].status == Running;
    hide Inv;
  }

  lemma TakeContent(s: State, i: nat, s': State, id: int)
    requires Inv(s) && i < |s.queues| && s.queues[i].id == id && s.queues[i].messages != []
    requires s'.queues == s.queues[i := s.queues[i].(messages := s.queues[i].messages[1..],
                                                     current := s.queues[i].current - 1)]
    requires s'.pcbs.Keys == s.pcbs.Keys
    requires forall p :: p in s.pcbs && p != s.running ==> s'.pcbs[p] == s.pcbs[p]
    ensures Content(s, id) == [s.queues[i].messages[0].data] + Content(s', id)
  {
    hide Inv, QueueOk, BlockedReceiver, Stored, Pending;
    QueueFacts(s, i);
    var q := s.queues[i];
    FindUpdated(s, s', i, s'.queues[i], id);
    PendingKept(s.pcbs, s'.pcbs, q.senders);
    StoredTail(q.messages);
  }

  lemma PromotedQueue(s: State, i: nat, room: int)
    requires Inv(s) && i < |s.queues| && s.queues[i].messages != [] && s.queues[i].senders != []
    ensures var q := s.queues[i];
            var s' := Promote(s, i, room);
            && QueueAt(s', q.id).Some?
            && Stored(QueueAt(s', q.id).value.messages)
               == Stored(q.messages[1..]) + [Payload(At(s.pcbs, q.senders[0]).call)]
            && QueueAt(s', q.id).value.senders == q.senders[1..]
            && Pending(s'.pcbs, q.senders[1..]) == Pending(s.pcbs, q.senders[1..])
  {
    QueueFacts(s, i);
    hide Inv, QueueOk, BlockedReceiver;
    var q := s.queues[i];
    var s' := Promote(s, i, room);
    FindUpdated(s, s', i, s'.queues[i], q.id);
    assert q.senders[0] in q.senders && forall p :: p in q.senders[1..] ==> p in q.senders;
    PendingKept(s.pcbs, s'.pcbs, q.senders[1..]);
    StoredAppend(q.messages[1..], Message(Payload(At(s.pcbs, q.senders[0]).call), s.running));
  }

  lemma PromoteContent(s: State, i: nat, room: int)
    requires Inv(s) && i < |s.queues| && s.queues[i].messages != [] && s.queues[i].senders != []
    ensures Content(s, s.queues[i].id) == [s.queues[i].messages[0].data] + Content(Promote(s, i, room), s.queues[i].id)
  {
    hide Inv, Promote, Stored, Pending, QueueAt, QueueOk, BlockedReceiver;
    QueueFacts(s, i);
    var q := s.queues[i];
    PromotedQueue(s, i, room);
    StoredTail(q.messages);
    PendingTail(s.pcbs, q.senders);
    var d, a := q.messages[0].data, Stored(q.messages[1..]);
    var p, ws := Payload(At(s.pcbs, q.senders[0]).call), Pending(s.pcbs, q.senders[1..]);
    Regroup(d, a, p, ws);
  }

  lemma Regroup(d: seq<Byte>, a: seq<seq<Byte>>, p: seq<Byte>, ws: seq<seq<Byte>>)
    ensures ([d] + a) + ([p] + ws) == [d] + ((a + [p]) + ws)
  {
  }

  lemma PromotedCaller(s: State, i: nat, room: int)
    requires Inv(s) && i < |s.queues| && s.queues[i].messages != [] && s.queues[i].senders != []
    ensures Caller(s, Promote(s, i, room))
            == At(Deliver(s.pcbs, s.running, room, s.queues[i].messages[0].data), s.running)
  {
    QueueFacts(s, i);
    hide Inv, QueueOk, BlockedReceiver;
    assert s.queues[i].senders[0] in s.queues[i].senders;
  }

  lemma ReceiveConserves(s: State, call: Call)
    requires Issued(s, call) && call.Receive?
    ensures Balanced(s, Trap(call), Perform(s, call), call.queueId)
  {
    assert TableOk(s.queues);
    hide Inv, TableOk, Content, In, Out, QueueOk, Promote, Switch;
    var id, room := call.queueId, call.bufferSize;
    var i := FindQueue(s.queues, id);
    var s' := Perform(s, call);
    if id <= 0 || room <= 0 || i == |s.queues| {
      ReturningContent(s, Caller(s, s').ret, id);
      IdleReceive(s, call, s');
    } else {
      var q := s.queues[i];
      if q.messages == [] {
        var q' := q.(receivers := q.receivers + [s.running]);
        assert s' == BlockOn(s, i, q', EMQEMPTY);
        if s.ready == [] {
          ReturningContent(s, EMQEMPTY, id);
        } else {
          ReceiveBlocksContent(s, i, call);
          BlockedCaller(s, i, q', EMQEMPTY);
        }
        IdleReceive(s, call, s');
      } else {
        ReceiveTakes(s, i, call);
      }
    }
  }

  lemma FirstMessage(q: MessageQueue)
    requires QueueOk(q) && q.messages != []
    ensures 0 < |q.messages[0].data|
  {
  }

  lemma ReceiveTakes(s: State, i: nat, call: Call)
    requires Issued(s, call) && call.Receive? && i < |s.queues| && FindQueue(s.queues, call.queueId) == i
    requires call.queueId > 0 && call.bufferSize > 0 && s.queues[i].messages != []
    ensures Balanced(s, Trap(call), Perform(s, call), call.queueId)
  {
    hide Inv, Content, In, Out, QueueOk, Promote, BlockedReceiver;
    QueueFacts(s, i);
    FirstMessage(s.queues[i]);
    var q, data := s.queues[i], s.queues[i].messages[0].data;
    var s' := Perform(s, call);
    if call.bufferSize >= |data| && q.senders != [] {
      PromoteContent(s, i, call.bufferSize);
      PromotedCaller(s, i, call.bufferSize);
    } else {
      assert s.running in s.pcbs by { RunningRuns(s); }
      TakeContent(s, i, s', call.queueId);
    }
    DeliveredCaller(s, call, s', data);
  }

  // ----- the law for every step

  lemma IssueContent(s: State, call: Call, id: int)
    requires Inv(s)
    ensures Content(Issue(s, call), id) == Content(s, id)
    ensures Overtakes(Issue(s, call), Trap(call), id) <==> Overtakes(s, Trap(call), id)
  {
    var i := FindQueue(s.queues, id);
    if i < |s.queues| {
      QueueFacts(s, i);
      hide Inv, QueueOk, BlockedReceiver;
      PendingKept(s.pcbs, Issue(s, call).pcbs, s.queues[i].senders);
    }
  }

  /** Conservation: as long as the queue lives, what it owes, followed by what the step puts
      in, is what the step takes out, followed by what it owes afterwards - unless, and only
      unless, the step is a send that finds room although a sender with another message is
      still blocked. */
  lemma StepConserves(s: State, e: Event, id: int)
    requires Inv(s) && Enabled(s, e) && QueueAt(Step(s, e), id).Some?
    ensures Balanced(s, e, Step(s, e), id) <==> !Overtakes(s, e, id)
  {
    hide Inv, Perform, Content;
    var s' := Step(s, e);
    StepInv(s, e);
    if IsSend(e, id) || IsReceive(e, id) {
      var s1 := Issue(s, e.call);
      IssueContent(s, e.call, id);
      IssueInv(s, e.call);
      assert Issued(s1, e.call);
      assert Balanced(s, e, s', id) <==> Balanced(s1, e, s', id);
      if e.call.Send? {
        SendConserves(s1, e.call);
      } else {
        ReceiveConserves(s1, e.call);
      }
    } else {
      UntouchedContent(s, e, id);
      assert Content(s, id) + [] == [] + Content(s', id);
    }
  }
}
