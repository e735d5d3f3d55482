/** Theorems about whole runs: FIFO order through blocking, and no lost wake-up - each with
    the exact condition under which the kernel delivers it. */
module QueueTheorems {
  import opened Lists
  import opened KernelState
  import opened KernelSteps
  import opened ProcessInvariant
  import opened Runs
  import opened QueueSteps

  // ----- FIFO through blocking

  /** The bytes of all error-free sends to queue `id` since it was created, in call order. */
  function Sent(es: seq<Event>, id: int): seq<seq<Byte>> {
    if es == [] then []
    else
      var n := |es| - 1;
      var s, s' := Exec(BOOT, es[..n]), Exec(BOOT, es);
      if QueueAt(s', id).None? then [] else Sent(es[..n], id) + In(s, es[n], s', id)
  }

  /** The bytes taken out of queue `id` since it was created, in order. */
  function Taken(es: seq<Event>, id: int): seq<seq<Byte>> {
    if es == [] then []
    else
      var n := |es| - 1;
      var s, s' := Exec(BOOT, es[..n]), Exec(BOOT, es);
      if QueueAt(s', id).None? then [] else Taken(es[..n], id) + Out(s, es[n], s', id)
  }

  /** First in, first out, across blocking: what was sent is what was taken, then what is
      stored, then what the blocked senders hold. */
  ghost predicate Fifo(es: seq<Event>, id: int) {
    QueueAt(Exec(BOOT, es), id).Some? ==>
      Sent(es, id) == Taken(es, id) + Content(Exec(BOOT, es), id)
  }

  lemma SendKeepsQueue(s: State, e: Event, id: int)
    requires IsSend(e, id) && QueueAt(s, id).Some?
    ensures QueueAt(Step(s, e), id).Some?
  {
    var s1 := Issue(s, e.call);
    SameIds(s1.queues, SendStep(s1, id, e.call.size, Payload(e.call)).queues, id);
  }

  lemma Splice(sent: seq<seq<Byte>>, taken: seq<seq<Byte>>, c: seq<seq<Byte>>,
               i: seq<seq<Byte>>, o: seq<seq<Byte>>, c': seq<seq<Byte>>)
    requires sent == taken + c
    ensures c + i == o + c' <==> sent + i == (taken + o) + c'
  {
    assert sent + i == taken + (c + i);
    assert (taken + o) + c' == taken + (o + c');
    assert (taken + (c + i))[|taken|..] == c + i;
    assert (taken + (o + c'))[|taken|..] == o + c';
  }

  lemma DeadQueue(es: seq<Event>, id: int)
    requires QueueAt(Exec(BOOT, es), id).None?
    ensures Sent(es, id) == [] && Taken(es, id) == [] && Content(Exec(BOOT, es), id) == []
  {
  }

  /** One more event keeps FIFO order exactly when it overtakes no blocked sender. */
  lemma FifoStep(es: seq<Event>, id: int)
    requires es != [] && Legal(BOOT, es) && Fifo(es[..|es| - 1], id)
    ensures Fifo(es, id) <==> !Overtakes(Exec(BOOT, es[..|es| - 1]), es[|es| - 1], id)
  {
    var n := |es| - 1;
    var front := es[..n];
    var s, e, s' := Exec(BOOT, front), es[n], Exec(BOOT, es);
    assert s == Before(BOOT, es, n) && Enabled(s, e);
    ReachableInv(es, n);
    hide Inv, Content, In, Out, Enabled, Exec, Step;
    assert s' == Step(s, e) by { BeforeStep(BOOT, es, n); assert es[..n + 1] == es; }
    if QueueAt(s', id).None? {
      if Overtakes(s, e, id) { SendKeepsQueue(s, e, id); }
    } else {
      if QueueAt(s, id).None? { DeadQueue(front, id); }
      StepConserves(s, e, id);
      Splice(Sent(front, id), Taken(front, id), Content(s, id),
             In(s, e, s', id), Out(s, e, s', id), Content(s', id));
    }
  }

  /** FIFO order holds at every point of a run from boot if and only if no send of the run
      overtakes a blocked sender. */
  lemma {:induction false} FifoExactly(es: seq<Event>, id: int)
    requires Legal(BOOT, es)
    ensures (forall k :: 0 <= k <= |es| ==> Fifo(es[..k], id))
            <==> (forall k :: 0 <= k < |es| ==> !Overtakes(Before(BOOT, es, k), es[k], id))
  {
    hide Fifo, Overtakes, Exec;
    if es == [] {
      FifoAtBoot(id);
      assert es[..0] == [];
    } else {
      var n := |es| - 1;
      var front := es[..n];
      LegalPrefix(BOOT, es, n);
      FifoExactly(front, id);
      assert forall k :: 0 <= k <= n ==> es[..k] == front[..k];
      assert es[..|es|] == es && front[..n] == front;
      if Fifo(front, id) { FifoStep(es, id); }
      assert forall k :: 0 <= k < n ==> Before(BOOT, front, k) == Before(BOOT, es, k) && front[k] == es[k];
      assert Before(BOOT, es, n) == Exec(BOOT, front);
    }
  }

  lemma FifoAtBoot(id: int)
    ensures Fifo([], id)
  {
  }

  // ----- no lost wake-up

  /** Senders of queue `id` are blocked only while the queue is full. */
  ghost predicate FullAt(s: State, id: int) {
    QueueAt(s, id).Some? && QueueAt(s, id).value.senders != [] ==>
      QueueAt(s, id).value.current == QueueAt(s, id).value.capacity
  }

  ghost predicate NoLostWakeUp(s: State) {
    forall id :: FullAt(s, id)
  }

  /** The receive drops the first message of queue `id`, because its buffer is too small, and
      returns without serving a sender that is blocked there. */
  predicate ShortDrop(s: State, e: Event) {
    && e.Trap? && e.call.Receive? && e.call.queueId > 0
    && QueueAt(s, e.call.queueId).Some?
    && var q := QueueAt(s, e.call.queueId).value;
       q.messages != [] && q.senders != [] && 0 < e.call.bufferSize < |q.messages[0].data|
  }

  lemma SendFull(s: State, call: Call)
    requires Inv(s) && call.Send? && FullAt(s, call.queueId)
    ensures FullAt(Perform(s, call), call.queueId)
  {
    hide Inv, SetStatus, SetRet, Deliver, Payload, At, BlockedReceiver;
    var id := call.queueId;
    var i := FindQueue(s.queues, id);
    if i < |s.queues| {
      QueueFacts(s, i);
      SendQueue(s, id, call.size, Payload(call));
    }
  }

  lemma ReceiveFull(s: State, call: Call)
    requires Inv(s) && call.Receive? && FullAt(s, call.queueId)
    ensures FullAt(Perform(s, call), call.queueId) <==> !ShortDrop(s, Trap(call))
  {
    hide Inv, ReceiveStep;
    var id := call.queueId;
    var i := FindQueue(s.queues, id);
    if i < |s.queues| {
      QueueFacts(s, i);
      hide QueueOk, BlockedReceiver;
      if id <= 0 || call.bufferSize <= 0 { FailedReceive(s, id, call.bufferSize); }
      ReceiveQueue(s, id, call.bufferSize);
      hide Payload, At;
      if ShortDrop(s, Trap(call)) { DropsShort(s, id, call.bufferSize); }
    } else {
      ReceiveQueue(s, id, call.bufferSize);
    }
  }

  lemma FailedReceive(s: State, id: int, room: int)
    requires id <= 0 || room <= 0
    ensures QueueAt(ReceiveStep(s, id, room), id) == QueueAt(s, id)
  {
  }

  lemma DropsShort(s: State, id: int, room: int)
    requires ShortDrop(s, Trap(Receive(id, room)))
    ensures var q := QueueAt(s, id).value;
            QueueAt(ReceiveStep(s, id, room), id) == Some(q.(messages := q.messages[1..], current := q.current - 1))
  {
    var s' := ReceiveStep(s, id, room);
    var i := FindQueue(s.queues, id);
    FindUpdated(s, s', i, s'.queues[i], id);
  }

  lemma UntouchedFull(s: State, e: Event, id: int)
    requires Inv(s) && FullAt(s, id) && !IsSend(e, id) && !IsReceive(e, id)
    ensures FullAt(Step(s, e), id)
  {
    assert TableOk(s.queues);
    hide Inv, TableOk, Step;
    QueueUntouched(s, e, id);
  }

  lemma IssuedQueue(s: State, call: Call, id: int)
    ensures QueueAt(Issue(s, call), id) == QueueAt(s, id)
  {
  }

  /** A step loses a wake-up exactly when it is such a short receive. */
  lemma WakeUpStep(s: State, e: Event)
    requires Inv(s) && Enabled(s, e) && NoLostWakeUp(s)
    ensures NoLostWakeUp(Step(s, e)) <==> !ShortDrop(s, e)
  {
    hide Inv, FullAt, Enabled, Perform, ShortDrop;
    forall id | !IsReceive(e, id) ensures FullAt(Step(s, e), id) {
      assert FullAt(s, id);
      if IsSend(e, id) {
        IssueInv(s, e.call);
        IssuedFull(s, e.call, id);
        SendFull(Issue(s, e.call), e.call);
      } else {
        UntouchedFull(s, e, id);
      }
    }
    if e.Trap? && e.call.Receive? {
      var id := e.call.queueId;
      IssueInv(s, e.call);
      IssuedFull(s, e.call, id);
      ReceiveFull(Issue(s, e.call), e.call);
      assert FullAt(Step(s, e), id) <==> !ShortDrop(s, e);
    } else {
      OnlyReceivesDrop(s, e);
    }
  }

  lemma OnlyReceivesDrop(s: State, e: Event)
    requires !(e.Trap? && e.call.Receive?)
    ensures !ShortDrop(s, e)
  {
  }

  lemma IssuedFull(s: State, call: Call, id: int)
    ensures FullAt(Issue(s, call), id) <==> FullAt(s, id)
    ensures ShortDrop(Issue(s, call), Trap(call)) <==> ShortDrop(s, Trap(call))
  {
    IssuedQueue(s, call, id);
    if call.Receive? { IssuedQueue(s, call, call.queueId); }
  }

  /** No wake-up is lost at any point of a run from boot if and only if no receive of the run
      drops a message for which a sender is blocked. */
  lemma WakeUpsExactly(es: seq<Event>)
    requires Legal(BOOT, es)
    ensures (forall k :: 0 <= k <= |es| ==> NoLostWakeUp(Before(BOOT, es, k)))
            <==> (forall k :: 0 <= k < |es| ==> !ShortDrop(Before(BOOT, es, k), es[k]))
  {
    hide NoLostWakeUp, ShortDrop, Inv, Enabled, Legal, Step;
    forall s, e | Inv(s) && Enabled(s, e) && NoLostWakeUp(s) ensures NoLostWakeUp(Step(s, e)) <==> !ShortDrop(s, e) {
      WakeUpStep(s, e);
    }
    BootInv();
    WakeUpsAtBoot();
    StaysExactly(BOOT, es, s => NoLostWakeUp(s), ShortDrop);
  }

  lemma WakeUpsAtBoot()
    ensures NoLostWakeUp(BOOT)
  {
    forall id ensures FullAt(BOOT, id) { }
  }

  /** While no wake-up is lost, a queue never has blocked senders and blocked receivers. */
  lemma NeverBoth(s: State, id: int)
    requires Inv(s) && FullAt(s, id) && QueueAt(s, id).Some?
    ensures QueueAt(s, id).value.senders == [] || QueueAt(s, id).value.receivers == []
  {
    assert QueueOk(s.queues[FindQueue(s.queues, id)]);
  }

  lemma FullNeverOvertakes(s: State, e: Event, id: int)
    requires FullAt(s, id)
    ensures !Overtakes(s, e, id)
  {
  }

  /** The guarantee users rely on: if every receive buffer is big enough whenever a sender is
      blocked, every queue is first in, first out at every point of the run. */
  lemma FifoWithoutShortReceives(es: seq<Event>, id: int)
    requires Legal(BOOT, es)
    requires forall k :: 0 <= k < |es| ==> !ShortDrop(Before(BOOT, es, k), es[k])
    ensures forall k :: 0 <= k <= |es| ==> Fifo(es[..k], id)
  {
    hide Fifo, ShortDrop, Legal, Exec, Overtakes;
    WakeUpsExactly(es);
    forall k | 0 <= k < |es| ensures !Overtakes(Before(BOOT, es, k), es[k], id) {
      assert NoLostWakeUp(Before(BOOT, es, k));
      FullNeverOvertakes(Before(BOOT, es, k), es[k], id);
    }
    FifoExactly(es, id);
  }
}
