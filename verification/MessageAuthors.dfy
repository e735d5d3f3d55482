/** Who sent the messages that a queue stores. The kernel notes in each message the process that
    was running when it was allocated; this is compared with the process whose send it was. */
module MessageAuthors {
  import opened KernelState
  import opened KernelSteps
  import opened KernelInvariant
  import opened ProcessInvariant
  import opened Runs
  import opened QueueSteps
  import opened FamilyTheorems

  // ----- an account of messages and their true senders

  /** The receive takes the first message of queue `id` and has the send of the sender that
      waits longest carried out. */
  predicate Serves(s: State, e: Event, id: int) {
    && IsReceive(e, id) && id > 0 && QueueAt(s, id).Some?
    && var q := QueueAt(s, id).value;
       q.messages != [] && q.senders != [] && e.call.bufferSize >= |q.messages[0].data|
  }

  /** The receive takes the first message of queue `id`. */
  predicate Takes(s: State, e: Event, id: int) {
    && IsReceive(e, id) && id > 0 && e.call.bufferSize > 0
    && QueueAt(s, id).Some? && QueueAt(s, id).value.messages != []
  }

  /** The send stores its message in queue `id`. */
  predicate Stores(s: State, e: Event, id: int) {
    && IsSend(e, id) && id > 0 && 0 < e.call.size <= MESSAGE_MAX_SIZE && QueueAt(s, id).Some?
    && var q := QueueAt(s, id).value;
       q.current < q.capacity && q.receivers == []
  }

  /** The process that waits longest in queue `id` to send. */
  function FirstSender(s: State, id: int): Pid {
    if QueueAt(s, id).Some? && QueueAt(s, id).value.senders != [] then QueueAt(s, id).value.senders[0]
    else s.running
  }

  /** What becomes of the messages `ms` of queue `id`, if a message that is stored for a blocked
      sender is entered under the name `author`. */
  function Updated(ms: seq<Message>, s: State, e: Event, id: int, author: Pid): seq<Message> {
    if Serves(s, e, id) && ms != [] then
      ms[1..] + [Message(Payload(At(s.pcbs, FirstSender(s, id)).call), author)]
    else if Takes(s, e, id) && ms != [] then ms[1..]
    else if Stores(s, e, id) then ms + [Message(Payload(e.call), s.running)]
    else ms
  }

  /** The messages of queue `id` since it was created, each under the name of the process that
      called send, be it the caller of the step that stored it or a blocked sender served. */
  function Signed(es: seq<Event>, id: int): seq<Message> {
    if es == [] then []
    else
      var n := |es| - 1;
      var s, s' := Exec(BOOT, es[..n]), Exec(BOOT, es);
      if QueueAt(s', id).None? then [] else Updated(Signed(es[..n], id), s, es[n], id, FirstSender(s, id))
  }

  function Messages(s: State, id: int): seq<Message> {
    match QueueAt(s, id)
    case None => []
    case Some(q) => q.messages
  }

  /** Every stored message names the process that sent it. */
  ghost predicate NamesSenders(es: seq<Event>, id: int) {
    Messages(Exec(BOOT, es), id) == Signed(es, id)
  }

  // ----- one step

  lemma BlockedQueues(s: State, i: nat, q: MessageQueue, failure: int)
    requires i < |s.queues|
    ensures BlockOn(s, i, q, failure).queues == if s.ready == [] then s.queues else s.queues[i := q]
  {
  }

  lemma SentMessages(s: State, call: Call, id: int)
    requires call.Send? && call.queueId == id && QueueAt(s, id).Some?
    ensures Messages(Perform(s, call), id) == Updated(Messages(s, id), s, Trap(call), id, s.running)
  {
    hide SetStatus, SetRet, Deliver, At, Payload, BlockOn;
    var s' := SendStep(s, id, call.size, Payload(call));
    var i := FindQueue(s.queues, id);
    var q := s.queues[i];
    BlockedQueues(s, i, q.(senders := q.senders + [s.running]), EMQFULL);
    if s'.queues != s.queues { FindUpdated(s, s', i, s'.queues[i], id); }
  }

  lemma ReceivedMessages(s: State, call: Call, id: int)
    requires call.Receive? && call.queueId == id && QueueAt(s, id).Some?
    requires Messages(s, id) != [] ==> 0 < |Messages(s, id)[0].data|
    ensures Messages(Perform(s, call), id) == Updated(Messages(s, id), s, Trap(call), id, s.running)
  {
    hide SetStatus, SetRet, Deliver, At, Complete, Payload, BlockOn;
    var s' := ReceiveStep(s, id, call.bufferSize);
    var i := FindQueue(s.queues, id);
    var q := s.queues[i];
    BlockedQueues(s, i, q.(receivers := q.receivers + [s.running]), EMQEMPTY);
    if s'.queues != s.queues { FindUpdated(s, s', i, s'.queues[i], id); }
  }

  lemma IssuedUpdate(s: State, call: Call, ms: seq<Message>, id: int, author: Pid)
    requires Inv(s)
    ensures Updated(ms, Issue(s, call), Trap(call), id, author) == Updated(ms, s, Trap(call), id, author)
  {
    IssuedTests(s, call, id);
    hide Serves, Takes, Stores, Payload, Inv, FirstSender;
    IssuedFirstSender(s, call, id);
  }

  lemma IssuedTests(s: State, call: Call, id: int)
    ensures Serves(Issue(s, call), Trap(call), id) == Serves(s, Trap(call), id)
    ensures Takes(Issue(s, call), Trap(call), id) == Takes(s, Trap(call), id)
    ensures Stores(Issue(s, call), Trap(call), id) == Stores(s, Trap(call), id)
  {
  }

  lemma IssuedFirstSender(s: State, call: Call, id: int)
    requires Inv(s)
    ensures var w, s1 := FirstSender(s, id), Issue(s, call);
            FirstSender(s1, id) == w && (Serves(s, Trap(call), id) ==> At(s1.pcbs, w) == At(s.pcbs, w))
  {
    if Serves(s, Trap(call), id) {
      var i := FindQueue(s.queues, id);
      QueueFacts(s, i);
      hide Inv, QueueOk, BlockedReceiver;
      assert s.queues[i].senders[0] in s.queues[i].senders;
    }
  }

  lemma FirstNotEmpty(s: State, id: int)
    requires Inv(s)
    ensures Messages(s, id) != [] ==> 0 < |Messages(s, id)[0].data|
  {
    var i := FindQueue(s.queues, id);
    if i < |s.queues| { QueueFacts(s, i); }
  }

  lemma OtherUpdate(s: State, e: Event, ms: seq<Message>, id: int, author: Pid)
    requires !IsSend(e, id) && !IsReceive(e, id)
    ensures Updated(ms, s, e, id, author) == ms
  {
  }

  /** What a step leaves in a queue: a message stored for a blocked sender is entered under the
      name of the receiver, which runs. */
  lemma StoredAfter(s: State, e: Event, id: int)
    requires Inv(s) && QueueAt(s, id).Some? && QueueAt(Step(s, e), id).Some?
    ensures Messages(Step(s, e), id) == Updated(Messages(s, id), s, e, id, s.running)
  {
    assert TableOk(s.queues);
    hide Inv, TableOk, Perform, Updated;
    if IsSend(e, id) || IsReceive(e, id) {
      var s1 := Issue(s, e.call);
      IssueInv(s, e.call);
      FirstNotEmpty(s1, id);
      IssuedUpdate(s, e.call, Messages(s, id), id, s.running);
      assert QueueAt(s1, id) == QueueAt(s, id);
      if e.call.Send? { SentMessages(s1, e.call, id); } else { ReceivedMessages(s1, e.call, id); }
    } else {
      OtherUpdate(s, e, Messages(s, id), id, s.running);
      hide Step;
      QueueUntouched(s, e, id);
    }
  }

  /** Right names stay right exactly unless the step serves a blocked sender. */
  lemma NameStep(s: State, e: Event, id: int, ms: seq<Message>)
    requires Inv(s) && QueueAt(s, id).Some? && ms == Messages(s, id)
    ensures Updated(ms, s, e, id, s.running) == Updated(ms, s, e, id, FirstSender(s, id)) <==> !Serves(s, e, id)
  {
    var i := FindQueue(s.queues, id);
    QueueFacts(s, i);
    hide Inv, QueueOk, BlockedReceiver, Payload;
    if Serves(s, e, id) {
      var w := FirstSender(s, id);
      assert w in s.queues[i].senders;
      var data := Payload(At(s.pcbs, w).call);
      var n := |ms| - 1;
      assert Updated(ms, s, e, id, s.running)[n] == Message(data, s.running);
      assert Updated(ms, s, e, id, w)[n] == Message(data, w);
    }
  }

  // ----- over runs

  /** At every point of a run from boot the messages of a queue name the processes that sent them
      if and only if no receive of the run takes a message while a sender is blocked. */
  lemma {:induction false} NamesExactly(es: seq<Event>, id: int)
    requires Legal(BOOT, es)
    ensures (forall k :: 0 <= k <= |es| ==> NamesSenders(es[..k], id))
            <==> (forall k :: 0 <= k < |es| ==> !Serves(Before(BOOT, es, k), es[k], id))
  {
    hide NamesSenders, Serves, Exec, Inv, Enabled;
    if es == [] {
      NamesAtBoot(id);
      assert es[..0] == [];
    } else {
      var n := |es| - 1;
      var front := es[..n];
      LegalPrefix(BOOT, es, n);
      NamesExactly(front, id);
      assert forall k :: 0 <= k <= n ==> es[..k] == front[..k];
      assert es[..|es|] == es && front[..n] == front;
      if NamesSenders(front, id) { NamesStep(es, id); }
      assert forall k :: 0 <= k < n ==> Before(BOOT, front, k) == Before(BOOT, es, k) && front[k] == es[k];
      assert Before(BOOT, es, n) == Exec(BOOT, front);
    }
  }

  lemma NamesAtBoot(id: int)
    ensures NamesSenders([], id)
  {
  }

  lemma EmptyThere(s: State, e: Event, id: int, ms: seq<Message>, author: Pid)
    requires TableOk(s.queues) && QueueAt(s, id).None?
    ensures Messages(Step(s, e), id) == [] && !Serves(s, e, id) && Updated(ms, s, e, id, author) == ms
  {
    assert !Serves(s, e, id) && Updated(ms, s, e, id, author) == ms;
    hide TableOk, Schedule, SendStep, ReceiveStep, Updated, Serves;
    if e.Trap? { assert QueueAt(Issue(s, e.call), id) == QueueAt(s, id); }
    hide QueueAt;
    if IsSend(e, id) {
      SendQueue(Issue(s, e.call), id, e.call.size, Payload(e.call));
    } else if IsReceive(e, id) {
      ReceiveQueue(Issue(s, e.call), id, e.call.bufferSize);
    } else {
      QueueUntouched(s, e, id);
    }
  }

  lemma ReceiveKeepsQueue(s: State, e: Event, id: int)
    requires IsReceive(e, id) && QueueAt(s, id).Some?
    ensures QueueAt(Step(s, e), id).Some?
  {
    var s1 := Issue(s, e.call);
    SameIds(s1.queues, ReceiveStep(s1, id, e.call.bufferSize).queues, id);
  }

  lemma NamesStep(es: seq<Event>, id: int)
    requires es != [] && Legal(BOOT, es) && NamesSenders(es[..|es| - 1], id)
    ensures NamesSenders(es, id) <==> !Serves(Exec(BOOT, es[..|es| - 1]), es[|es| - 1], id)
  {
    var n := |es| - 1;
    var s, e := Exec(BOOT, es[..n]), es[n];
    ReachableInv(es, n);
    assert TableOk(s.queues);
    hide Inv, TableOk, Step, Enabled, Updated, Serves;
    if QueueAt(s, id).None? {
      EmptyThere(s, e, id, Signed(es[..n], id), FirstSender(s, id));
    } else {
      if Serves(s, e, id) { ReceiveKeepsQueue(s, e, id); }
      if QueueAt(Step(s, e), id).Some? {
        StoredAfter(s, e, id);
        NameStep(s, e, id, Messages(s, id));
      }
    }
  }

  lemma UpdatedBytes(ms: seq<Message>, ms': seq<Message>, s: State, e: Event, id: int, a: Pid, a': Pid)
    requires Stored(ms) == Stored(ms')
    ensures Stored(Updated(ms, s, e, id, a)) == Stored(Updated(ms', s, e, id, a'))
  {
    hide Serves, Takes, Stored, Payload, FirstSender, QueueAt;
    assert |ms| == |Stored(ms)| == |ms'|;
    if ms != [] && (Serves(s, e, id) || Takes(s, e, id)) {
      StoredTail(ms);
      StoredTail(ms');
      assert Stored(ms[1..]) == Stored(ms)[1..] == Stored(ms'[1..]);
    }
    var data := Payload(At(s.pcbs, FirstSender(s, id)).call);
    StoredAppend(ms[if ms == [] then 0 else 1..], Message(data, a));
    StoredAppend(ms'[if ms' == [] then 0 else 1..], Message(data, a'));
    if Stores(s, e, id) {
      StoredAppend(ms, Message(Payload(e.call), s.running));
      StoredAppend(ms', Message(Payload(e.call), s.running));
    }
  }

  /** Only the names can be wrong: over every legal run the bytes stored are those of the sends
      in the account. */
  lemma {:induction false} BytesAlways(es: seq<Event>, id: int)
    requires Legal(BOOT, es)
    ensures Stored(Messages(Exec(BOOT, es), id)) == Stored(Signed(es, id))
  {
    if es != [] {
      var n := |es| - 1;
      var s, e := Exec(BOOT, es[..n]), es[n];
      LegalPrefix(BOOT, es, n);
      BytesAlways(es[..n], id);
      ReachableInv(es, n);
      assert TableOk(s.queues);
      hide Inv, TableOk, Step, Enabled, Updated, Stored;
      if QueueAt(s, id).None? {
        EmptyThere(s, e, id, Signed(es[..n], id), FirstSender(s, id));
      } else if QueueAt(Step(s, e), id).Some? {
        StoredAfter(s, e, id);
        UpdatedBytes(Messages(s, id), Signed(es[..n], id), s, e, id, s.running, FirstSender(s, id));
      }
    }
  }

  /** Event `j` of the run from boot is the call `call` of process `p`. */
  ghost predicate Called(es: seq<Event>, j: int, p: Pid, call: Call) {
    0 <= j < |es| && es[j] == Trap(call) && Before(BOOT, es, j).running == p
  }

  ghost predicate CalledIn(es: seq<Event>, p: Pid, call: Call) {
    exists j :: Called(es, j, p, call)
  }

  lemma CalledLonger(es: seq<Event>, n: nat, p: Pid, call: Call)
    requires n <= |es| && CalledIn(es[..n], p, call)
    ensures CalledIn(es, p, call)
  {
    var j :| Called(es[..n], j, p, call);
    assert es[..n][..j] == es[..j];
    assert Called(es, j, p, call);
  }

  lemma NewProcessCalls(s: State, e: Event, p: Pid)
    requires Inv(s) && Enabled(s, e) && p !in s.pcbs && p in Step(s, e).pcbs
    ensures Step(s, e).pcbs[p].call == NoCall
  {
    NewPid(s, e, p);
    hide Inv, Enabled, Schedule;
    assert e.Trap? && Step(s, e) == SpawnStep(Issue(s, e.call));
    RunningRuns(s);
  }

  lemma CallerCalls(s: State, call: Call)
    requires Inv(s) && s.running in Step(s, Trap(call)).pcbs
    ensures Step(s, Trap(call)).pcbs[s.running].call == call
  {
    RunningRuns(s);
    assert s.running < s.lastPid;
    hide Inv, Perform;
    PerformCalls(Issue(s, call), call, s.running);
  }

  /** The arguments in a PCB are those of a call its process made. */
  lemma {:induction false} StoredCallWasMade(es: seq<Event>, p: Pid)
    requires Legal(BOOT, es) && p in Exec(BOOT, es).pcbs && Exec(BOOT, es).pcbs[p].call != NoCall
    ensures CalledIn(es, p, Exec(BOOT, es).pcbs[p].call)
  {
    if es != [] {
      var n := |es| - 1;
      var s, e := Exec(BOOT, es[..n]), es[n];
      LegalPrefix(BOOT, es, n);
      ReachableInv(es, n);
      hide Inv, Step, Enabled;
      if p !in s.pcbs {
        NewProcessCalls(s, e, p);
      } else if p == s.running && e.Trap? {
        CallerCalls(s, e.call);
        assert Called(es, n, p, e.call);
      } else {
        CallsKept(s, e, p);
        StoredCallWasMade(es[..n], p);
        CalledLonger(es, n, p, s.pcbs[p].call);
      }
    }
  }

  /** The process `m.sender` sent the bytes of `m` to queue `id` during the run. */
  ghost predicate SentBy(es: seq<Event>, id: int, m: Message) {
    exists call: Call :: IsSend(Trap(call), id) && Payload(call) == m.data && CalledIn(es, m.sender, call)
  }

  lemma SentByLonger(es: seq<Event>, n: nat, id: int, m: Message)
    requires n <= |es| && SentBy(es[..n], id, m)
    ensures SentBy(es, id, m)
  {
    hide CalledIn, Payload;
    var call: Call :| IsSend(Trap(call), id) && Payload(call) == m.data && CalledIn(es[..n], m.sender, call);
    CalledLonger(es, n, m.sender, call);
  }

  lemma FirstSenderCalls(s: State, id: int)
    requires Inv(s) && QueueAt(s, id).Some? && QueueAt(s, id).value.senders != []
    ensures var w := FirstSender(s, id); w in s.pcbs && IsSend(Trap(s.pcbs[w].call), id)
  {
    hide FamilyOk, NothingDue, TimersOk, PoolsOk, OnePlace, TableOk;
    assert QueueStatusOk(s.pcbs, s.queues[FindQueue(s.queues, id)]);
    assert FirstSender(s, id) in QueueAt(s, id).value.senders;
  }

  /** The message of the caller of send, or of the blocked sender that waits longest. */
  ghost predicate EntryOf(s: State, e: Event, id: int, m: Message) {
    || (IsSend(e, id) && m == Message(Payload(e.call), s.running))
    || (QueueAt(s, id).Some? && QueueAt(s, id).value.senders != []
        && m == Message(Payload(At(s.pcbs, FirstSender(s, id)).call), FirstSender(s, id)))
  }

  lemma NewEntry(ms: seq<Message>, s: State, e: Event, id: int, m: Message)
    requires m in Updated(ms, s, e, id, FirstSender(s, id)) && m !in ms
    ensures EntryOf(s, e, id, m)
  {
    hide Payload, QueueAt;
    if ms != [] { assert ms == [ms[0]] + ms[1..]; }
  }

  /** Every entry of the account is right: the process it names sent those bytes to the queue. */
  lemma {:induction false} SignedBySender(es: seq<Event>, id: int, m: Message)
    requires Legal(BOOT, es) && m in Signed(es, id)
    ensures SentBy(es, id, m)
  {
    var n := |es| - 1;
    var s, e := Exec(BOOT, es[..n]), es[n];
    LegalPrefix(BOOT, es, n);
    ReachableInv(es, n);
    hide Inv, Step, Enabled, Updated, FirstSender, SentBy, Payload, EntryOf;
    if m in Signed(es[..n], id) {
      SignedBySender(es[..n], id, m);
      SentByLonger(es, n, id, m);
    } else {
      NewEntry(Signed(es[..n], id), s, e, id, m);
      NewEntrySent(es, id, m);
    }
  }

  lemma CalledNow(es: seq<Event>, call: Call)
    requires es != [] && es[|es| - 1] == Trap(call)
    ensures CalledIn(es, Exec(BOOT, es[..|es| - 1]).running, call)
  {
    assert Called(es, |es| - 1, Before(BOOT, es, |es| - 1).running, call);
  }

  lemma NewEntrySent(es: seq<Event>, id: int, m: Message)
    requires es != [] && Legal(BOOT, es[..|es| - 1]) && Inv(Exec(BOOT, es[..|es| - 1]))
    requires EntryOf(Exec(BOOT, es[..|es| - 1]), es[|es| - 1], id, m)
    ensures SentBy(es, id, m)
  {
    hide Inv, Step, Enabled, Payload, QueueAt, FirstSender, CalledIn, Exec;
    var n := |es| - 1;
    var s, e := Exec(BOOT, es[..n]), es[n];
    var w := FirstSender(s, id);
    if IsSend(e, id) && m == Message(Payload(e.call), s.running) {
      CalledNow(es, e.call);
    } else {
      FirstSenderCalls(s, id);
      StoredCallWasMade(es[..n], w);
      CalledLonger(es, n, w, s.pcbs[w].call);
    }
  }
}
