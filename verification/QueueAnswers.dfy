/** What the queue calls answer: for every call, in every good state, the value it returns, whether
    it blocks, and what it does to its queue and to the line for the processor. Together with
    QueueSteps.QueueUntouched, for other queues, and Frames.OthersKept, for other processes, this
    says everything about the state after the call. */
module QueueAnswers {
  import opened Lists
  import opened KernelState
  import opened KernelSteps
  import opened KernelInvariant
  import opened QueueSteps

  /** The caller goes on with the value `v`, and nothing else has changed. */
  ghost predicate Answered(s: State, call: Call, s': State, v: int) {
    && s.running in s.pcbs
    && s' == s.(pcbs := s.pcbs[s.running := s.pcbs[s.running].(call := call, ret := v)])
  }

  /** The caller goes on with the value `v`. */
  ghost predicate Returns(s: State, s': State, v: int) {
    s'.running == s.running && s.running in s'.pcbs && s'.pcbs[s.running].ret == v
  }

  /** The lists of sleepers, waiting parents and zombies, the clock and the pids are as before. */
  ghost predicate Elsewhere(s: State, s': State) {
    && s'.waiting == s.waiting && s'.zombie == s.zombie && s'.timers == s.timers
    && s'.time == s.time && s'.lastPid == s.lastPid
  }

  /** The caller is blocked, with nothing returned yet, the first ready process runs, and the queue
      has become `q'`. */
  ghost predicate Parks(s: State, call: Call, s': State, q': MessageQueue) {
    && s.ready != [] && s'.running == s.ready[0] && s'.ready == s.ready[1..]
    && s.running in s.pcbs && s.running in s'.pcbs
    && s'.pcbs[s.running] == s.pcbs[s.running].(call := call, status := Waiting)
    && QueueAt(s', q'.id) == Some(q') && Elsewhere(s, s') && s'.pools == s.pools
  }

  /** The caller goes on as `me`, the queue has become `q'`, and `served` is made ready. */
  ghost predicate GoesOn(s: State, s': State, me: PCB, q': MessageQueue, served: seq<Pid>) {
    && s'.running == s.running && s.running in s'.pcbs && s'.pcbs[s.running] == me
    && s'.ready == s.ready + served
    && QueueAt(s', q'.id) == Some(q') && Elsewhere(s, s')
  }

  lemma ReturningAnswers(s: State, call: Call, v: int)
    requires s.running in s.pcbs
    ensures Answered(s, call, Returning(Issue(s, call), v), v)
  {
  }

  lemma SameQueues(s: State, call: Call, id: int)
    ensures QueueAt(Issue(s, call), id) == QueueAt(s, id) && Issue(s, call).pools == s.pools
    ensures QueueAt(s, id).Some? ==> FindQueue(s.queues, id) < |s.queues| && QueueAt(s, id).value.id == id
  {
  }

  // ----- blocking

  lemma BlockParks(s: State, call: Call, i: nat, q': MessageQueue, failure: int)
    requires s.running in s.pcbs && s.running !in s.ready && s.ready != []
    requires i < |s.queues| && FindQueue(s.queues, s.queues[i].id) == i && q'.id == s.queues[i].id
    ensures Parks(s, call, BlockOn(Issue(s, call), i, q', failure), q')
  {
    var s' := BlockOn(Issue(s, call), i, q', failure);
    assert s.ready[0] in s.ready;
    FindUpdated(s, s', i, q', q'.id);
  }

  lemma BlockAnswers(s: State, call: Call, i: nat, q': MessageQueue, failure: int)
    requires s.running in s.pcbs && s.ready == [] && i < |s.queues|
    ensures Answered(s, call, BlockOn(Issue(s, call), i, q', failure), failure)
  {
  }

  // ----- send

  /** A send is refused for its queue id, for its size, or for a queue that is not there. */
  lemma SendRefused(s: State, id: int, buffer: seq<Byte>, size: int)
    requires Inv(s)
    requires id <= 0 || size <= 0 || size > MESSAGE_MAX_SIZE || QueueAt(s, id) == None
    ensures var call := Send(id, buffer, size);
            Answered(s, call, Step(s, Trap(call)),
                     if id > 0 && (size <= 0 || size > MESSAGE_MAX_SIZE) then EBUFFER else EMQINVALID)
  {
    RunningRuns(s);
    hide Inv, Answered, Returning, Issue;
    var call := Send(id, buffer, size);
    SameQueues(s, call, id);
    ReturningAnswers(s, call, EMQINVALID);
    ReturningAnswers(s, call, EBUFFER);
  }

  /** A send to a full queue blocks behind the other senders, unless there is nobody to run. */
  lemma SendToFull(s: State, id: int, buffer: seq<Byte>, size: int)
    requires Inv(s) && id > 0 && 0 < size <= MESSAGE_MAX_SIZE
    requires QueueAt(s, id).Some? && |QueueAt(s, id).value.messages| == QueueAt(s, id).value.capacity
    ensures var call, q := Send(id, buffer, size), QueueAt(s, id).value;
            var s' := Step(s, Trap(call));
            if s.ready == [] then Answered(s, call, s', EMQFULL)
            else Parks(s, call, s', q.(senders := q.senders + [s.running]))
  {
    hide Inv, Answered, Parks, BlockOn, BlockedReceiver;
    RunningRuns(s);
    var call := Send(id, buffer, size);
    var i := FindQueue(s.queues, id);
    var q := s.queues[i];
    QueueFacts(s, i);
    if s.ready == [] {
      BlockAnswers(s, call, i, q.(senders := q.senders + [s.running]), EMQFULL);
    } else {
      BlockParks(s, call, i, q.(senders := q.senders + [s.running]), EMQFULL);
    }
  }

  /** What the receiver `c` finds after a send has reached it. */
  function Received(c: PCB, data: seq<Byte>): PCB
    requires c.call.Receive?
  {
    if c.call.bufferSize < |data| then c.(status := Ready, ret := EBUFFER)
    else c.(status := Ready, ret := |data|, inbox := data)
  }

  /** A send to a queue with room returns 0. The bytes are stored last, or they reach the receiver
      that waits longest, which is made ready. */
  lemma SendWithRoom(s: State, id: int, buffer: seq<Byte>, size: int)
    requires Inv(s) && id > 0 && 0 < size <= MESSAGE_MAX_SIZE && size <= |buffer|
    requires QueueAt(s, id).Some? && |QueueAt(s, id).value.messages| < QueueAt(s, id).value.capacity
    ensures var call, q, p := Send(id, buffer, size), QueueAt(s, id).value, s.running;
            var s', data := Step(s, Trap(call)), buffer[..size];
            && p in s.pcbs
            && var me := s.pcbs[p].(call := call, ret := 0);
               if q.receivers == [] then
                 GoesOn(s, s', me, q.(messages := q.messages + [Message(data, p)], current := |q.messages| + 1), [])
               else
                 var r := q.receivers[0];
                 && GoesOn(s, s', me, q.(receivers := q.receivers[1..]), [r])
                 && r in s.pcbs && s.pcbs[r].call.Receive? && r in s'.pcbs && s'.pcbs[r] == Received(s.pcbs[r], data)
  {
    hide Inv, BlockedReceiver, GoesOn;
    RunningRuns(s);
    var call := Send(id, buffer, size);
    var i := FindQueue(s.queues, id);
    QueueFacts(s, i);
    var q := s.queues[i];
    if q.receivers == [] {
      Stored(s, call, i);
    } else {
      FirstReceiver(s, i);
      Handed(s, call, i);
    }
  }

  lemma FirstReceiver(s: State, i: nat)
    requires Inv(s) && i < |s.queues| && s.queues[i].receivers != []
    ensures var r := s.queues[i].receivers[0];
            r in s.pcbs && r != s.running && s.pcbs[r].call.Receive?
  {
    hide Inv;
    QueueFacts(s, i);
    assert s.queues[i].receivers[0] in s.queues[i].receivers;
  }

  lemma Stored(s: State, call: Call, i: nat)
    requires s.running in s.pcbs && call.Send? && 0 < call.size <= MESSAGE_MAX_SIZE && call.size <= |call.buffer|
    requires i < |s.queues| && FindQueue(s.queues, call.queueId) == i && call.queueId > 0
    requires s.queues[i].current == |s.queues[i].messages| < s.queues[i].capacity && s.queues[i].receivers == []
    ensures var q, data := s.queues[i], call.buffer[..call.size];
            GoesOn(s, Step(s, Trap(call)), s.pcbs[s.running].(call := call, ret := 0),
                   q.(messages := q.messages + [Message(data, s.running)], current := |q.messages| + 1), [])
  {
    var s' := Step(s, Trap(call));
    FindUpdated(s, s', i, s'.queues[i], call.queueId);
    assert s.ready + [] == s.ready;
  }

  lemma Handed(s: State, call: Call, i: nat)
    requires s.running in s.pcbs && call.Send? && 0 < call.size <= MESSAGE_MAX_SIZE && call.size <= |call.buffer|
    requires i < |s.queues| && FindQueue(s.queues, call.queueId) == i && call.queueId > 0
    requires s.queues[i].current < s.queues[i].capacity && s.queues[i].receivers != []
    requires var r := s.queues[i].receivers[0]; r in s.pcbs && r != s.running && s.pcbs[r].call.Receive?
    ensures var q, data, s', r := s.queues[i], call.buffer[..call.size], Step(s, Trap(call)), s.queues[i].receivers[0];
            && GoesOn(s, s', s.pcbs[s.running].(call := call, ret := 0), q.(receivers := q.receivers[1..]), [r])
            && r in s'.pcbs && s'.pcbs[r] == Received(s.pcbs[r], data)
  {
    var s' := Step(s, Trap(call));
    assert s' == HandOver(Issue(s, call), i, s.queues[i].receivers[0], call.buffer[..call.size]);
    FindUpdated(s, s', i, s'.queues[i], call.queueId);
  }

  // ----- receive

  lemma ReceiveRefused(s: State, id: int, room: int)
    requires Inv(s)
    requires id <= 0 || room <= 0 || QueueAt(s, id) == None
    ensures var call := Receive(id, room);
            Answered(s, call, Step(s, Trap(call)), if id > 0 && room <= 0 then EBUFFER else EMQINVALID)
  {
    RunningRuns(s);
    hide Inv, Answered, Returning, Issue;
    var call := Receive(id, room);
    SameQueues(s, call, id);
    ReturningAnswers(s, call, EMQINVALID);
    ReturningAnswers(s, call, EBUFFER);
  }

  /** A receive from an empty queue blocks behind the other receivers, unless there is nobody to run. */
  lemma ReceiveFromEmpty(s: State, id: int, room: int)
    requires Inv(s) && id > 0 && room > 0
    requires QueueAt(s, id).Some? && QueueAt(s, id).value.messages == []
    ensures var call, q := Receive(id, room), QueueAt(s, id).value;
            var s' := Step(s, Trap(call));
            if s.ready == [] then Answered(s, call, s', EMQEMPTY)
            else Parks(s, call, s', q.(receivers := q.receivers + [s.running]))
  {
    hide Inv, Answered, Parks, BlockOn, BlockedReceiver;
    RunningRuns(s);
    var call := Receive(id, room);
    var i := FindQueue(s.queues, id);
    var q := s.queues[i];
    QueueFacts(s, i);
    if s.ready == [] {
      BlockAnswers(s, call, i, q.(receivers := q.receivers + [s.running]), EMQEMPTY);
    } else {
      BlockParks(s, call, i, q.(receivers := q.receivers + [s.running]), EMQEMPTY);
    }
  }

  /** A receive whose buffer is too small returns EBUFFER with nothing in the buffer, and the message
      is gone; no sender is served. */
  lemma ReceiveTooShort(s: State, id: int, room: int)
    requires Inv(s) && id > 0 && QueueAt(s, id).Some?
    requires var ms := QueueAt(s, id).value.messages; ms != [] && 0 < room < |ms[0].data|
    ensures var call, q, p := Receive(id, room), QueueAt(s, id).value, s.running;
            && p in s.pcbs
            && GoesOn(s, Step(s, Trap(call)), s.pcbs[p].(call := call, ret := EBUFFER),
                      q.(messages := q.messages[1..], current := |q.messages| - 1), [])
  {
    hide Inv, BlockedReceiver, GoesOn;
    RunningRuns(s);
    var i := FindQueue(s.queues, id);
    QueueFacts(s, i);
    Dropped(s, Receive(id, room), i);
  }

  lemma Dropped(s: State, call: Call, i: nat)
    requires s.running in s.pcbs && call.Receive? && call.queueId > 0
    requires i < |s.queues| && FindQueue(s.queues, call.queueId) == i && s.queues[i].messages != []
    requires s.queues[i].current == |s.queues[i].messages|
    requires 0 < call.bufferSize < |s.queues[i].messages[0].data|
    ensures var q := s.queues[i];
            GoesOn(s, Step(s, Trap(call)), s.pcbs[s.running].(call := call, ret := EBUFFER),
                   q.(messages := q.messages[1..], current := |q.messages| - 1), [])
  {
    var s' := Step(s, Trap(call));
    FindUpdated(s, s', i, s'.queues[i], call.queueId);
    assert s.ready + [] == s.ready;
  }

  /** A receive with a buffer that is large enough gets the bytes of the first message and their
      number, whether or not a sender is blocked. One that is has its own bytes stored last, under
      the name of the receiver, and its call returns 0. */
  lemma ReceiveTakesFirst(s: State, id: int, room: int)
    requires Inv(s) && id > 0 && QueueAt(s, id).Some?
    requires var ms := QueueAt(s, id).value.messages; ms != [] && room >= |ms[0].data|
    ensures var call, q, p := Receive(id, room), QueueAt(s, id).value, s.running;
            var s', data := Step(s, Trap(call)), q.messages[0].data;
            && p in s.pcbs
            && var me := s.pcbs[p].(call := call, ret := |data|, inbox := data);
               if q.senders == [] then
                 GoesOn(s, s', me, q.(messages := q.messages[1..], current := |q.messages| - 1), [])
               else
                 var w := q.senders[0];
                 && w in s.pcbs && w in s'.pcbs && s'.pcbs[w] == s.pcbs[w].(status := Ready, ret := 0)
                 && GoesOn(s, s', me, q.(messages := q.messages[1..] + [Message(Payload(s.pcbs[w].call), p)],
                                         senders := q.senders[1..]), [w])
  {
    hide Inv, BlockedReceiver, GoesOn, QueueOk, Payload;
    RunningRuns(s);
    var i := FindQueue(s.queues, id);
    QueueFacts(s, i);
    FirstData(s, i);
    var call := Receive(id, room);
    if s.queues[i].senders == [] {
      Taken(s, call, i);
    } else {
      assert s.queues[i].senders[0] in s.queues[i].senders;
      Exchanged(s, call, i);
    }
  }

  lemma FirstData(s: State, i: nat)
    requires Inv(s) && i < |s.queues| && s.queues[i].messages != []
    ensures 0 < |s.queues[i].messages[0].data| && s.queues[i].current == |s.queues[i].messages|
  {
    hide Inv;
    QueueFacts(s, i);
  }

  lemma Taken(s: State, call: Call, i: nat)
    requires s.running in s.pcbs && call.Receive? && call.queueId > 0
    requires i < |s.queues| && FindQueue(s.queues, call.queueId) == i && s.queues[i].messages != []
    requires s.queues[i].current == |s.queues[i].messages| && s.queues[i].senders == []
    requires 0 < |s.queues[i].messages[0].data| <= call.bufferSize
    ensures var q, data := s.queues[i], s.queues[i].messages[0].data;
            GoesOn(s, Step(s, Trap(call)), s.pcbs[s.running].(call := call, ret := |data|, inbox := data),
                   q.(messages := q.messages[1..], current := |q.messages| - 1), [])
  {
    var s' := Step(s, Trap(call));
    FindUpdated(s, s', i, s'.queues[i], call.queueId);
    assert s.ready + [] == s.ready;
  }

  lemma Exchanged(s: State, call: Call, i: nat)
    requires s.running in s.pcbs && call.Receive? && call.queueId > 0
    requires i < |s.queues| && FindQueue(s.queues, call.queueId) == i && s.queues[i].messages != []
    requires 0 < |s.queues[i].messages[0].data| <= call.bufferSize
    requires s.queues[i].senders != [] && s.queues[i].senders[0] in s.pcbs && s.queues[i].senders[0] != s.running
    ensures var q, s' := s.queues[i], Step(s, Trap(call));
            var data, w := q.messages[0].data, q.senders[0];
            && w in s'.pcbs && s'.pcbs[w] == s.pcbs[w].(status := Ready, ret := 0)
            && GoesOn(s, s', s.pcbs[s.running].(call := call, ret := |data|, inbox := data),
                      q.(messages := q.messages[1..] + [Message(Payload(s.pcbs[w].call), s.running)],
                         senders := q.senders[1..]), [w])
  {
    hide Payload;
    var s' := Step(s, Trap(call));
    assert s' == Promote(Issue(s, call), i, call.bufferSize);
    FindUpdated(s, s', i, s'.queues[i], call.queueId);
  }

  // ----- create

  /** Create can succeed. */
  predicate Creatable(s: State, id: int, capacity: int) {
    id > 0 && 0 < capacity <= MAX_MESSAGES_PER_QUEUE && QueueAt(s, id) == None && s.pools.queues > 0
  }

  /** Create returns the id and makes the queue, empty and with nobody waiting, if and only if the
      parameters are good, there is no such queue, and a block is free. */
  lemma CreateAnswers(s: State, id: int, capacity: int)
    requires Inv(s)
    ensures var call := Create(id, capacity);
            var s' := Step(s, Trap(call));
            && (Creatable(s, id, capacity) <==> Returns(s, s', id) && QueueAt(s, id) == None && QueueAt(s', id) != None)
            && (Creatable(s, id, capacity) ==>
                  && s.running in s.pcbs
                  && GoesOn(s, s', s.pcbs[s.running].(call := call, ret := id),
                            MessageQueue(id, capacity, 0, Open, [], [], []), [])
                  && s'.pools == s.pools.(queues := s.pools.queues - 1))
            && (!Creatable(s, id, capacity) ==>
                  Answered(s, call, s', if id <= 0 || capacity <= 0 || capacity > MAX_MESSAGES_PER_QUEUE then EMQINVALID
                                        else if QueueAt(s, id) != None then EMQEXISTS else EMQCREATE))
  {
    hide Inv, Step, GoesOn, Answered, QueueAt;
    RunningRuns(s);
    if Creatable(s, id, capacity) { Created(s, id, capacity); } else { NotCreated(s, id, capacity); }
  }

  lemma Created(s: State, id: int, capacity: int)
    requires s.running in s.pcbs && Creatable(s, id, capacity)
    ensures var call := Create(id, capacity);
            var s' := Step(s, Trap(call));
            && Returns(s, s', id) && QueueAt(s', id) != None
            && GoesOn(s, s', s.pcbs[s.running].(call := call, ret := id),
                      MessageQueue(id, capacity, 0, Open, [], [], []), [])
            && s'.pools == s.pools.(queues := s.pools.queues - 1)
  {
    var s' := Step(s, Trap(Create(id, capacity)));
    FindAppended(s, s', s'.queues[|s.queues|], id);
    assert s.ready + [] == s.ready;
  }

  lemma NotCreated(s: State, id: int, capacity: int)
    requires s.running in s.pcbs && !Creatable(s, id, capacity)
    ensures var call := Create(id, capacity);
            var s' := Step(s, Trap(call));
            && Answered(s, call, s', if id <= 0 || capacity <= 0 || capacity > MAX_MESSAGES_PER_QUEUE then EMQINVALID
                                     else if QueueAt(s, id) != None then EMQEXISTS else EMQCREATE)
            && QueueAt(s', id) == QueueAt(s, id)
  {
    hide Answered, Returning, Issue;
    var call := Create(id, capacity);
    SameQueues(s, call, id);
    ReturningAnswers(s, call, EMQINVALID);
    ReturningAnswers(s, call, EMQEXISTS);
    ReturningAnswers(s, call, EMQCREATE);
    AnsweredQueues(s, call, Step(s, Trap(call)), id);
  }

  lemma AnsweredQueues(s: State, call: Call, s': State, id: int)
    ensures forall v :: Answered(s, call, s', v) ==> QueueAt(s', id) == QueueAt(s, id)
  {
  }

  // ----- destroy

  /** Destroy returns the id, if there is a queue of that id. Then the queue is gone, all receivers
      and then all senders that were blocked there are ready in their order, each with EMQNOTOPEN,
      and the blocks of the queue and of its messages are free. */
  lemma DestroyAnswers(s: State, id: int)
    requires Inv(s)
    ensures var call, p := Destroy(id), s.running;
            var s' := Step(s, Trap(call));
            match QueueAt(s, id)
            case None => Answered(s, call, s', EMQINVALID)
            case Some(q) =>
              && s'.running == p && p in s.pcbs && p in s'.pcbs && s'.pcbs[p] == s.pcbs[p].(call := call, ret := id)
              && s'.ready == s.ready + q.receivers + q.senders
              && QueueAt(s', id) == None && Elsewhere(s, s')
              && (forall w :: w in q.receivers + q.senders ==>
                    w in s.pcbs && w in s'.pcbs && s'.pcbs[w] == s.pcbs[w].(status := Ready, ret := EMQNOTOPEN))
              && s'.pools == s.pools.(queues := s.pools.queues + 1, messages := s.pools.messages + |q.messages|)
  {
    hide Inv, BlockedReceiver, QueueOk, TableOk, Answered, Step;
    RunningRuns(s);
    var i := FindQueue(s.queues, id);
    if i < |s.queues| {
      QueueFacts(s, i);
      SoundTable(s);
      WaitersElsewhere(s, i);
      Destroyed(s, i);
    } else {
      NotDestroyed(s, id);
    }
  }

  lemma SoundTable(s: State)
    requires Inv(s)
    ensures TableOk(s.queues) && forall i :: 0 <= i < |s.queues| ==> s.queues[i].id > 0
  {
  }

  lemma WaitersElsewhere(s: State, i: nat)
    requires Inv(s) && i < |s.queues|
    ensures var q := s.queues[i]; forall w :: w in q.receivers + q.senders ==> w in s.pcbs && w != s.running
  {
    hide Inv;
    QueueFacts(s, i);
  }

  lemma NotDestroyed(s: State, id: int)
    requires s.running in s.pcbs && QueueAt(s, id) == None
    ensures Answered(s, Destroy(id), Step(s, Trap(Destroy(id))), EMQINVALID)
  {
    hide Answered, Returning, Issue;
    SameQueues(s, Destroy(id), id);
    ReturningAnswers(s, Destroy(id), EMQINVALID);
  }

  lemma Destroyed(s: State, i: nat)
    requires s.running in s.pcbs && TableOk(s.queues) && i < |s.queues| && s.queues[i].id > 0
    requires FindQueue(s.queues, s.queues[i].id) == i
    requires var q := s.queues[i]; forall w :: w in q.receivers + q.senders ==> w in s.pcbs && w != s.running
    ensures var q, p := s.queues[i], s.running;
            var call := Destroy(q.id);
            var s' := Step(s, Trap(call));
            && s'.running == p && p in s'.pcbs && s'.pcbs[p] == s.pcbs[p].(call := call, ret := q.id)
            && s'.ready == s.ready + q.receivers + q.senders
            && QueueAt(s', q.id) == None && Elsewhere(s, s')
            && (forall w :: w in q.receivers + q.senders ==>
                  w in s'.pcbs && s'.pcbs[w] == s.pcbs[w].(status := Ready, ret := EMQNOTOPEN))
            && s'.pools == s.pools.(queues := s.pools.queues + 1, messages := s.pools.messages + |q.messages|)
  {
    hide TableOk;
    var q := s.queues[i];
    DestroyFrame(Issue(s, Destroy(q.id)), q.id, q.id);
    hide QueueAt;
    assert s.ready + q.receivers + q.senders == s.ready + (q.receivers + q.senders);
  }

  // ----- the answers, told by the value

  /** Each value that send returns, and blocking, has its own condition. */
  lemma SendReturns(s: State, id: int, buffer: seq<Byte>, size: int)
    requires Inv(s) && Enabled(s, Trap(Send(id, buffer, size)))
    ensures var s', fits := Step(s, Trap(Send(id, buffer, size))), 0 < size <= MESSAGE_MAX_SIZE;
            var q := QueueAt(s, id);
            var full := q.Some? && |q.value.messages| == q.value.capacity;
            && (Returns(s, s', EMQINVALID) <==> id <= 0 || (fits && q == None))
            && (Returns(s, s', EBUFFER) <==> id > 0 && !fits)
            && (Returns(s, s', EMQFULL) <==> fits && full && s.ready == [])
            && (Returns(s, s', 0) <==> fits && q.Some? && !full)
            && (s'.running != s.running <==> fits && full && s.ready != [])
  {
    hide Inv, Step, Parks, GoesOn, Answered;
    QueueSize(s, id);
    var call := Send(id, buffer, size);
    var s' := Step(s, Trap(call));
    var q := QueueAt(s, id);
    AnsweredOnly(s, call, s');
    if id <= 0 || size <= 0 || size > MESSAGE_MAX_SIZE || q == None {
      SendRefused(s, id, buffer, size);
    } else if |q.value.messages| == q.value.capacity {
      SendToFull(s, id, buffer, size);
      if s.ready != [] { ParksRuns(s, call, s', q.value.(senders := q.value.senders + [s.running])); }
    } else {
      SendWithRoom(s, id, buffer, size);
      GoesOnReturns(s, s');
    }
  }

  /** Each value that receive returns, and blocking, has its own condition. */
  lemma ReceiveReturns(s: State, id: int, room: int)
    requires Inv(s)
    ensures var s', q := Step(s, Trap(Receive(id, room))), QueueAt(s, id);
            var stored := q.Some? && q.value.messages != [];
            && (Returns(s, s', EMQINVALID) <==> id <= 0 || (room > 0 && q == None))
            && (Returns(s, s', EBUFFER) <==>
                  id > 0 && (room <= 0 || (stored && room < |q.value.messages[0].data|)))
            && (Returns(s, s', EMQEMPTY) <==> room > 0 && q.Some? && !stored && s.ready == [])
            && (stored && 0 < |q.value.messages[0].data| <= room <==>
                  stored && Returns(s, s', |q.value.messages[0].data|))
            && (s'.running != s.running <==> room > 0 && q.Some? && !stored && s.ready != [])
  {
    hide Inv, Step, Parks, GoesOn, Answered;
    QueueSize(s, id);
    FirstNotEmpty(s, id);
    var call := Receive(id, room);
    var s' := Step(s, Trap(call));
    var q := QueueAt(s, id);
    AnsweredOnly(s, call, s');
    GoesOnReturns(s, s');
    if id <= 0 || room <= 0 || q == None {
      ReceiveRefused(s, id, room);
    } else if q.value.messages == [] {
      ReceiveFromEmpty(s, id, room);
      if s.ready != [] { ParksRuns(s, call, s', q.value.(receivers := q.value.receivers + [s.running])); }
    } else if room < |q.value.messages[0].data| {
      ReceiveTooShort(s, id, room);
    } else {
      ReceiveTakesFirst(s, id, room);
    }
  }

  lemma FirstNotEmpty(s: State, id: int)
    requires Inv(s)
    ensures QueueAt(s, id).Some? && QueueAt(s, id).value.messages != [] ==>
              0 < |QueueAt(s, id).value.messages[0].data|
  {
    var i := FindQueue(s.queues, id);
    if i < |s.queues| && s.queues[i].messages != [] { FirstData(s, i); }
  }

  lemma QueueSize(s: State, id: int)
    requires Inv(s)
    ensures QueueAt(s, id).Some? ==> id > 0 && |QueueAt(s, id).value.messages| <= QueueAt(s, id).value.capacity
  {
    if QueueAt(s, id).Some? { QueueFacts(s, FindQueue(s.queues, id)); }
  }

  lemma AnsweredOnly(s: State, call: Call, s': State)
    ensures forall v :: Answered(s, call, s', v) ==> forall w :: Returns(s, s', w) <==> w == v
  {
  }

  lemma GoesOnReturns(s: State, s': State)
    ensures forall me, q', served :: GoesOn(s, s', me, q', served) ==> forall w :: Returns(s, s', w) <==> w == me.ret
  {
  }

  lemma ParksRuns(s: State, call: Call, s': State, q': MessageQueue)
    requires Inv(s) && Parks(s, call, s', q')
    ensures s'.running != s.running
  {
    PlacesApart(s);
    assert s.ready[0] in s.ready;
  }
}
