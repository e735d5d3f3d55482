/** Exactly-once completion: a blocked send or receive stays frozen until the one step that
    completes it, and which step that is can be told before it is taken. */
module QueueFates {
  import opened Lists
  import opened KernelState
  import opened KernelSteps
  import opened KernelInvariant
  import opened ProcessInvariant
  import opened Frames
  import opened Runs
  import opened QueueSteps

  datatype Fate = Stays | SendDone | ReceiveDone | Evicted

  /** What step `e` means for process `p`, which is blocked in queue `i`. */
  function FateOf(s: State, e: Event, i: nat, p: Pid): Fate
    requires i < |s.queues|
  {
    var q := s.queues[i];
    if e == Trap(Destroy(q.id)) then Evicted
    else if IsReceive(e, q.id) && q.messages != [] && e.call.bufferSize >= |q.messages[0].data|
            && q.senders != [] && p == q.senders[0] then SendDone
    else if IsSend(e, q.id) && 0 < e.call.size <= MESSAGE_MAX_SIZE && q.current < q.capacity
            && q.receivers != [] && p == q.receivers[0] then ReceiveDone
    else Stays
  }

  /** The outcome that each fate stands for. */
  ghost predicate Happens(f: Fate, s: State, e: Event, s': State, i: nat, p: Pid)
    requires i < |s.queues|
  {
    var q := s.queues[i];
    && p in s.pcbs && p in s'.pcbs
    && var c, c' := s.pcbs[p], s'.pcbs[p];
       match f
       case Stays =>
         && Frozen(c, c')
         && QueueAt(s', q.id).Some?
         && (p in q.senders ==> p in QueueAt(s', q.id).value.senders)
         && (p in q.receivers ==> p in QueueAt(s', q.id).value.receivers)
       case SendDone =>
         && c' == c.(status := Ready, ret := 0)
         && s'.ready == s.ready + [p]
         && QueueAt(s', q.id).Some?
         && var q' := QueueAt(s', q.id).value;
            && q.senders != [] && q'.senders == q.senders[1..]
            && q'.messages != [] && q'.messages[|q'.messages| - 1].data == Payload(c.call)
       case ReceiveDone =>
         && e.Trap? && c.call.Receive?
         && c' == (if c.call.bufferSize < |Payload(e.call)| then c.(status := Ready, ret := EBUFFER)
                   else c.(status := Ready, ret := |Payload(e.call)|, inbox := Payload(e.call)))
         && s'.ready == s.ready + [p]
         && QueueAt(s', q.id).Some?
         && q.receivers != [] && QueueAt(s', q.id).value.receivers == q.receivers[1..]
         && QueueAt(s', q.id).value.messages == []
       case Evicted =>
         && c' == c.(status := Ready, ret := EMQNOTOPEN)
         && p in s'.ready
         && QueueAt(s', q.id).None?
  }

  lemma BlockedAside(s: State, i: nat, p: Pid)
    requires Inv(s) && i < |s.queues| && p in Members(s.queues[i])
    ensures Aside(s, p) && !s.pcbs[p].call.Wait?
    ensures p in s.queues[i].senders ==> p !in s.queues[i].receivers
    ensures forall j :: 0 <= j < |s.queues| && j != i ==> p !in Members(s.queues[j])
  {
    BlockedOnce(s, i, p);
    WaitingIsAside(s, p);
    hide FamilyOk, TableOk, NothingDue, TimersOk, PoolsOk, OnePlace, Aside;
    assert QueueStatusOk(s.pcbs, s.queues[i]);
  }

  // ----- the four fates

  /** A call that leaves `p` blocked completes nothing for it. */
  lemma StaysUncompleted(s: State, i: nat, p: Pid, call: Call)
    requires i < |s.queues| && TableOk(s.queues) && FateOf(s, Trap(call), i, p) == Stays
    requires forall j :: 0 <= j < |s.queues| && j != i ==> p !in Members(s.queues[j])
    requires call.Send? || call.Receive? || call.Destroy?
    ensures !Completes(s, call, p)
  {
    FindAt(s.queues, i);
    hide TableOk;
    var k := FindQueue(s.queues, call.queueId);
    if k != i { FirstElsewhere(s, i, p, k); }
  }

  lemma ExitElsewhere(s: State, p: Pid, value: int)
    requires Aside(s, p) && !s.pcbs[p].call.Wait?
    ensures !Completes(s, Exit(value), p)
  {
  }

  lemma StaysPcb(s: State, i: nat, p: Pid, call: Call)
    requires Issued(s, call) && i < |s.queues| && p in Members(s.queues[i])
    requires FateOf(s, Trap(call), i, p) == Stays
    ensures p in s.pcbs && p in Perform(s, call).pcbs && Frozen(s.pcbs[p], Perform(s, call).pcbs[p])
  {
    hide Inv, TableOk, Aside, FateOf, Perform, Completes, Members;
    BlockedAside(s, i, p);
    PositiveId(s, i);
    if call.Send? || call.Receive? || call.Destroy? {
      StaysUncompleted(s, i, p, call);
    } else if call.Exit? {
      ExitElsewhere(s, p, call.value);
    } else {
      OthersComplete(s, p, call);
    }
    PerformKeeps(s, call, p);
  }

  lemma OthersComplete(s: State, p: Pid, call: Call)
    requires !call.Send? && !call.Receive? && !call.Destroy? && !call.Exit?
    ensures !Completes(s, call, p)
  {
  }

  lemma FirstElsewhere(s: State, i: nat, p: Pid, k: nat)
    requires i < |s.queues| && forall j :: 0 <= j < |s.queues| && j != i ==> p !in Members(s.queues[j])
    ensures k < |s.queues| && k != i ==> p !in s.queues[k].receivers + s.queues[k].senders
    ensures k < |s.queues| && k != i && s.queues[k].receivers != [] ==> p != s.queues[k].receivers[0]
    ensures k < |s.queues| && k != i && s.queues[k].senders != [] ==> p != s.queues[k].senders[0]
  {
    if k < |s.queues| && k != i {
      assert p !in Members(s.queues[k]);
      assert s.queues[k].receivers != [] ==> s.queues[k].receivers[0] in Members(s.queues[k]);
      assert s.queues[k].senders != [] ==> s.queues[k].senders[0] in Members(s.queues[k]);
    }
  }

  lemma FailedSendQueue(s: State, id: int, size: int, data: seq<Byte>)
    requires id <= 0 || size <= 0 || size > MESSAGE_MAX_SIZE
    ensures QueueAt(SendStep(s, id, size, data), id) == QueueAt(s, id)
  {
  }

  /** The queue entry `q'` still has the process where `q` had it. */
  ghost predicate Remains(q: MessageQueue, q': Option<MessageQueue>, p: Pid) {
    && q'.Some?
    && (p in q.senders ==> p in q'.value.senders)
    && (p in q.receivers ==> p in q'.value.receivers)
  }

  lemma StaysSendQueue(s: State, i: nat, p: Pid, call: Call)
    requires i < |s.queues| && QueueAt(s, s.queues[i].id) == Some(s.queues[i])
    requires IsSend(Trap(call), s.queues[i].id) && FateOf(s, Trap(call), i, p) == Stays
    ensures Remains(s.queues[i], QueueAt(Perform(s, call), s.queues[i].id), p)
  {
    hide QueueAt, SendStep;
    var q := s.queues[i];
    if 0 < call.size <= MESSAGE_MAX_SIZE {
      if q.receivers != [] { HeadTail(q.receivers); }
      SendQueue(s, q.id, call.size, Payload(call));
    } else {
      FailedSendQueue(s, q.id, call.size, Payload(call));
    }
  }

  lemma StaysReceiveQueue(s: State, i: nat, p: Pid, call: Call)
    requires i < |s.queues| && QueueAt(s, s.queues[i].id) == Some(s.queues[i])
    requires IsReceive(Trap(call), s.queues[i].id) && FateOf(s, Trap(call), i, p) == Stays
    ensures Remains(s.queues[i], QueueAt(Perform(s, call), s.queues[i].id), p)
  {
    hide QueueAt, ReceiveStep;
    var q := s.queues[i];
    if q.senders != [] { HeadTail(q.senders); }
    ReceiveQueue(s, q.id, call.bufferSize);
  }

  lemma StaysQueue(s: State, i: nat, p: Pid, call: Call)
    requires Inv(s) && i < |s.queues|
    requires FateOf(s, Trap(call), i, p) == Stays
    ensures Remains(s.queues[i], QueueAt(Perform(s, call), s.queues[i].id), p)
  {
    QueueFacts(s, i);
    assert TableOk(s.queues);
    hide Inv, QueueOk, TableOk, BlockedReceiver, Perform, QueueAt;
    var q := s.queues[i];
    if IsSend(Trap(call), q.id) {
      StaysSendQueue(s, i, p, call);
    } else if IsReceive(Trap(call), q.id) {
      StaysReceiveQueue(s, i, p, call);
    } else {
      PerformUntouched(s, call, q.id);
    }
  }

  lemma SendDoneHappens(s: State, i: nat, p: Pid, call: Call)
    requires Issued(s, call) && i < |s.queues| && p in Members(s.queues[i])
    requires FateOf(s, Trap(call), i, p) == SendDone && call.bufferSize > 0
    ensures Happens(SendDone, s, Trap(call), Perform(s, call), i, p)
  {
    hide Inv, QueueOk, BlockedReceiver, Members, Payload;
    BlockedAside(s, i, p);
    QueueFacts(s, i);
    PositiveId(s, i);
    var q := s.queues[i];
    assert FindQueue(s.queues, q.id) == i;
    var s' := Perform(s, call);
    assert s' == Promote(s, i, call.bufferSize);
    PromotedEntry(s, i, call.bufferSize);
  }

  lemma PositiveId(s: State, i: nat)
    requires Inv(s) && i < |s.queues|
    ensures s.queues[i].id > 0 && (s.queues[i].receivers != [] ==> s.queues[i].messages == [])
    ensures TableOk(s.queues) && FindQueue(s.queues, s.queues[i].id) == i
  {
    assert QueueOk(s.queues[i]);
    FindAt(s.queues, i);
  }

  lemma PromotedEntry(s: State, i: nat, room: int)
    requires i < |s.queues| && s.queues[i].messages != [] && s.queues[i].senders != []
    requires FindQueue(s.queues, s.queues[i].id) == i
    ensures var q := s.queues[i];
            QueueAt(Promote(s, i, room), q.id)
            == Some(q.(messages := q.messages[1..] + [Message(Payload(At(s.pcbs, q.senders[0]).call), s.running)],
                       senders := q.senders[1..]))
  {
    var s' := Promote(s, i, room);
    FindUpdated(s, s', i, s'.queues[i], s.queues[i].id);
  }

  lemma ReceiveDoneHappens(s: State, i: nat, p: Pid, call: Call)
    requires Issued(s, call) && i < |s.queues| && p in Members(s.queues[i])
    requires FateOf(s, Trap(call), i, p) == ReceiveDone
    ensures Happens(ReceiveDone, s, Trap(call), Perform(s, call), i, p)
  {
    hide Inv, QueueOk, Members, Payload, Aside;
    BlockedAside(s, i, p);
    AsideLives(s, p);
    QueueFacts(s, i);
    PositiveId(s, i);
    var q := s.queues[i];
    assert p in q.receivers;
    assert FindQueue(s.queues, q.id) == i;
    assert Perform(s, call) == HandOver(s, i, p, Payload(call));
    HandedQueue(s, i, Payload(call));
  }

  lemma HandedQueue(s: State, i: nat, data: seq<Byte>)
    requires i < |s.queues| && s.queues[i].receivers != []
    requires FindQueue(s.queues, s.queues[i].id) == i
    ensures var q := s.queues[i];
            QueueAt(HandOver(s, i, q.receivers[0], data), q.id) == Some(q.(receivers := q.receivers[1..]))
  {
    var s' := HandOver(s, i, s.queues[i].receivers[0], data);
    FindUpdated(s, s', i, s'.queues[i], s.queues[i].id);
  }

  lemma EvictedHappens(s: State, i: nat, p: Pid, call: Call)
    requires Issued(s, call) && i < |s.queues| && p in Members(s.queues[i])
    requires FateOf(s, Trap(call), i, p) == Evicted
    ensures Happens(Evicted, s, Trap(call), Perform(s, call), i, p)
  {
    hide Inv, QueueOk, TableOk, BlockedReceiver, Aside, QueueAt;
    BlockedAside(s, i, p);
    AsideLives(s, p);
    QueueFacts(s, i);
    PositiveId(s, i);
    var q := s.queues[i];
    DestroyFrame(s, q.id, q.id);
    assert p in q.receivers + q.senders;
    EvictedPcb(s, i, p);
  }

  lemma EvictedPcb(s: State, i: nat, p: Pid)
    requires i < |s.queues| && FindQueue(s.queues, s.queues[i].id) == i && s.queues[i].id > 0
    requires p in s.queues[i].receivers + s.queues[i].senders && p in s.pcbs && p != s.running
    ensures var s' := DestroyStep(s, s.queues[i].id);
            && p in s'.pcbs && s'.pcbs[p] == s.pcbs[p].(status := Ready, ret := EMQNOTOPEN)
            && p in s'.ready
  {
  }

  /** A process blocked in a queue is frozen until exactly one step completes its call: a
      receive that takes a message while it is the longest-waiting sender (its bytes become
      the last message, it returns 0), a send that finds room while it is the longest-waiting
      receiver (it gets the bytes and their number, or EBUFFER), or the end of the queue. */
  lemma BlockedFate(s: State, e: Event, i: nat, p: Pid)
    requires Inv(s) && Enabled(s, e) && i < |s.queues| && p in Members(s.queues[i])
    ensures Happens(FateOf(s, e, i, p), s, e, Step(s, e), i, p)
  {
    hide Inv, Happens, Enabled, Perform, FateOf;
    if e.Tick? {
      TickFate(s, i, p);
    } else {
      IssueInv(s, e.call);
      BlockedOnce(s, i, p);
      IssuedFate(s, e.call, i, p);
      var s1 := Issue(s, e.call);
      CallFate(s1, e.call, i, p);
      IssuedHappens(s, e.call, FateOf(s, e, i, p), Step(s, e), i, p);
    }
  }

  lemma CallFate(s: State, call: Call, i: nat, p: Pid)
    requires Issued(s, call) && i < |s.queues| && p in Members(s.queues[i])
    ensures Happens(FateOf(s, Trap(call), i, p), s, Trap(call), Perform(s, call), i, p)
  {
    hide Inv, Perform;
    match FateOf(s, Trap(call), i, p)
    case Stays =>
      StaysPcb(s, i, p, call);
      StaysQueue(s, i, p, call);
    case SendDone => PositiveRoom(s, i, call); SendDoneHappens(s, i, p, call);
    case ReceiveDone => ReceiveDoneHappens(s, i, p, call);
    case Evicted => EvictedHappens(s, i, p, call);
  }

  lemma PositiveRoom(s: State, i: nat, call: Call)
    requires Inv(s) && i < |s.queues| && s.queues[i].messages != []
    requires call.Receive? && call.bufferSize >= |s.queues[i].messages[0].data|
    ensures call.bufferSize > 0
  {
    QueueFacts(s, i);
  }

  lemma TickFate(s: State, i: nat, p: Pid)
    requires Inv(s) && i < |s.queues| && p in Members(s.queues[i])
    ensures Happens(FateOf(s, Tick, i, p), s, Tick, Step(s, Tick), i, p)
  {
    hide Inv, QueueOk, BlockedReceiver, Aside, Schedule, QueueAt;
    BlockedAside(s, i, p);
    QueueFacts(s, i);
    TickKeeps(s, p);
    TickQueue(s, s.queues[i].id);
  }

  lemma TickQueue(s: State, id: int)
    ensures QueueAt(Step(s, Tick), id) == QueueAt(s, id)
  {
    ScheduleQueues(s.(time := s.time + 1));
  }

  lemma IssuedFate(s: State, call: Call, i: nat, p: Pid)
    requires i < |s.queues|
    ensures FateOf(Issue(s, call), Trap(call), i, p) == FateOf(s, Trap(call), i, p)
  {
  }

  lemma IssuedHappens(s: State, call: Call, f: Fate, s': State, i: nat, p: Pid)
    requires i < |s.queues| && p in s.pcbs && p != s.running
    requires Happens(f, Issue(s, call), Trap(call), s', i, p)
    ensures Happens(f, s, Trap(call), s', i, p)
  {
    assert Issue(s, call).pcbs[p] == s.pcbs[p];
  }

  // ----- over runs

  /** The place of queue `id` in the table, which it has as long as it lives. */
  ghost predicate BlockedIn(s: State, id: int, p: Pid, asSender: bool) {
    && QueueAt(s, id).Some?
    && p in (if asSender then QueueAt(s, id).value.senders else QueueAt(s, id).value.receivers)
  }

  /** What step `e` means for a process that is blocked in queue `id`. */
  function FateIn(s: State, e: Event, id: int, p: Pid): Fate {
    var i := FindQueue(s.queues, id);
    if i < |s.queues| then FateOf(s, e, i, p) else Stays
  }

  /** Blocked in its queue as at first, with nothing changed for it or its user. */
  ghost predicate StillBlocked(s: State, s': State, id: int, p: Pid, asSender: bool) {
    && BlockedIn(s', id, p, asSender)
    && p in s.pcbs && p in s'.pcbs && Frozen(s.pcbs[p], s'.pcbs[p])
  }

  lemma OneMoreStep(s: State, u: State, e: Event, id: int, p: Pid, asSender: bool)
    requires Inv(u) && Enabled(u, e) && StillBlocked(s, u, id, p, asSender)
    ensures FindQueue(u.queues, id) < |u.queues|
    ensures FateIn(u, e, id, p) == Stays ==> StillBlocked(s, Step(u, e), id, p, asSender)
    ensures Happens(FateIn(u, e, id, p), u, e, Step(u, e), FindQueue(u.queues, id), p)
  {
    hide Inv, Enabled, Step, FateOf;
    var i := FindQueue(u.queues, id);
    assert p in Members(u.queues[i]);
    BlockedFate(u, e, i, p);
  }

  /** At every point of the run up to event `k` the process was blocked, with nothing changed. */
  ghost predicate BlockedSoFar(s: State, es: seq<Event>, k: int, id: int, p: Pid, asSender: bool) {
    && 0 <= k <= |es|
    && forall j :: 0 <= j <= k ==> StillBlocked(s, Before(s, es, j), id, p, asSender)
  }

  /** Event `k` ends the blocking: until then nothing had changed, and it does what the fate
      known before it says. */
  ghost predicate EndsAt(s: State, es: seq<Event>, k: int, id: int, p: Pid, asSender: bool) {
    && 0 <= k < |es| && BlockedSoFar(s, es, k, id, p, asSender)
    && var t, t' := Before(s, es, k), Before(s, es, k + 1);
       && FindQueue(t.queues, id) < |t.queues|
       && FateIn(t, es[k], id, p) != Stays
       && Happens(FateIn(t, es[k], id, p), t, es[k], t', FindQueue(t.queues, id), p)
  }

  lemma EndsLater(s: State, front: seq<Event>, es: seq<Event>, k: int, id: int, p: Pid, asSender: bool)
    requires front <= es && EndsAt(s, front, k, id, p, asSender)
    ensures EndsAt(s, es, k, id, p, asSender)
  {
    SameBefore(s, front, es);
    hide Happens, StillBlocked, FateIn, Before;
    assert front[k] == es[k];
  }

  /** Over every legal run a blocked process has been blocked and frozen all the time, or it was
      until one step performed its call. */
  lemma {:induction false} BlockedUntil(s: State, es: seq<Event>, id: int, p: Pid, asSender: bool)
    requires Inv(s) && Legal(s, es) && BlockedIn(s, id, p, asSender) && p in s.pcbs
    ensures BlockedSoFar(s, es, |es|, id, p, asSender) || exists k :: EndsAt(s, es, k, id, p, asSender)
  {
    hide Inv, Enabled, Step, FateIn, Happens, BlockedIn;
    if es == [] {
      assert Before(s, es, 0) == s;
    } else {
      var n := |es| - 1;
      var front := es[..n];
      LegalPrefix(s, es, n);
      BlockedUntil(s, front, id, p, asSender);
      if BlockedSoFar(s, front, n, id, p, asSender) {
        SameBefore(s, front, es);
        OneMoreEvent(s, es, id, p, asSender);
      } else {
        var k :| EndsAt(s, front, k, id, p, asSender);
        EndsLater(s, front, es, k, id, p, asSender);
      }
    }
  }

  lemma OneMoreEvent(s: State, es: seq<Event>, id: int, p: Pid, asSender: bool)
    requires Inv(s) && Legal(s, es) && es != [] && BlockedSoFar(s, es, |es| - 1, id, p, asSender)
    ensures BlockedSoFar(s, es, |es|, id, p, asSender) || EndsAt(s, es, |es| - 1, id, p, asSender)
  {
    hide Inv, Enabled, Step, FateIn, Happens, BlockedIn, StillBlocked, Before;
    var n := |es| - 1;
    RunInv(s, es, n);
    BeforeStep(s, es, n);
    OneMoreStep(s, Before(s, es, n), es[n], id, p, asSender);
  }
}
