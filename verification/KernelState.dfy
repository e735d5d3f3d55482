/** The kernel's global variables as one value, and the invariant every system call and
    every timer tick keeps. Processes are named by their pid: `last_pid` only grows, so a
    pid names one process for ever. */
module KernelState {
  import opened Lists

  newtype Byte = b: int | 0 <= b < 256

  type Pid = nat

  // Limits and error codes of include/disastrOS_constants.h.
  const MAX_NUM_PROCESSES := 1024
  const MAX_MESSAGE_QUEUES := 32
  const MAX_MESSAGES_PER_QUEUE := 16
  const MAX_MESSAGES := MAX_MESSAGES_PER_QUEUE * MAX_MESSAGE_QUEUES
  const MESSAGE_MAX_SIZE := 256

  const ESYSCALL_NOT_IMPLEMENTED := -2
  const EWAIT := -5
  const ESPAWN := -6
  const EMQFULL := -14
  const EMQEMPTY := -15
  const EMQINVALID := -16
  const EMQCREATE := -18
  const EMQEXISTS := -19
  const EMQNOTOPEN := -21
  const EBUFFER := -22

  /** The first process: `last_pid` starts at 0. */
  const INIT: Pid := 0

  datatype Status = Running | Ready | Waiting | Zombie

  /** A system call with its arguments, as the trap stores it in the caller's PCB. `NoCall`
      stands for a number without a system call behind it. `Resource` stands for the calls on
      generic resources, which touch nothing here but the caller's return value: module Whole
      says which value that is. `Send` carries the bytes of the user buffer; `hasResult` says
      that wait was given a place for the exit value. */
  datatype Call =
    | NoCall
    | Preempt
    | Spawn
    | Fork
    | Wait(pid: int, hasResult: bool)
    | Exit(value: int)
    | Sleep(cycles: int)
    | Create(queueId: int, capacity: int)
    | Send(queueId: int, buffer: seq<Byte>, size: int)
    | Receive(queueId: int, bufferSize: int)
    | Destroy(queueId: int)
    | Resource(ret: int)

  /** `timer`: a timer is linked to the process. `result`: the integer a wait call wrote
      through its pointer. `inbox`: the bytes last copied to the user's receive buffer. */
  datatype PCB = PCB(
    status: Status, parent: Option<Pid>, children: seq<Pid>, timer: bool,
    call: Call, ret: int, exitValue: int, result: int, inbox: seq<Byte>)

  type Processes = map<Pid, PCB>

  datatype Timer = Timer(time: int, pid: Pid)

  datatype Message = Message(data: seq<Byte>, sender: Pid)

  datatype QueueStatus = Open | Closing | Closed

  datatype MessageQueue = MessageQueue(
    id: int, capacity: int, current: int, status: QueueStatus,
    messages: seq<Message>, receivers: seq<Pid>, senders: seq<Pid>)

  /** Free blocks left in the pools of PCBs, child references, timers, queues, messages. */
  datatype Pools = Pools(pcbs: int, refs: int, timers: int, queues: int, messages: int)

  datatype State = State(
    running: Pid, ready: seq<Pid>, waiting: seq<Pid>, zombie: seq<Pid>,
    timers: seq<Timer>, queues: seq<MessageQueue>, pcbs: Processes,
    time: int, lastPid: nat, pools: Pools)

  const NEW_PCB := PCB(Ready, None, [], false, NoCall, 0, 0, 0, [])

  function At(m: Processes, p: Pid): PCB {
    if p in m then m[p] else NEW_PCB
  }

  /** The state after booting: process 0 runs alone. */
  const BOOT := State(
    INIT, [], [], [], [], [], map[INIT := NEW_PCB.(status := Running)], 0, 1,
    Pools(MAX_NUM_PROCESSES - 1, MAX_NUM_PROCESSES, MAX_NUM_PROCESSES,
          MAX_MESSAGE_QUEUES, MAX_MESSAGES))

  // ----- one place per process

  function Blocked(qs: seq<MessageQueue>): multiset<Pid> {
    if qs == [] then multiset{}
    else multiset(qs[0].receivers) + multiset(qs[0].senders) + Blocked(qs[1..])
  }

  /** Every entry of every list of processes. */
  function Listed(s: State): multiset<Pid> {
    multiset(s.ready) + multiset(s.waiting) + multiset(s.zombie) + Blocked(s.queues)
  }

  /** Every live process is in exactly one place: it runs, or it has one entry in one list. */
  ghost predicate OnePlace(s: State) {
    multiset{s.running} + Listed(s) == multiset(s.pcbs.Keys)
  }

  // ----- status and frozen arguments match the place

  ghost predicate Have(m: Processes, ps: seq<Pid>, st: Status) {
    forall p :: p in ps ==> p in m && m[p].status == st
  }

  ghost predicate BlockedSender(c: PCB, id: int) {
    && c.status == Waiting
    && c.call.Send? && c.call.queueId == id
    && 0 < c.call.size <= MESSAGE_MAX_SIZE && c.call.size <= |c.call.buffer|
  }

  ghost predicate BlockedReceiver(c: PCB, id: int) {
    c.status == Waiting && c.call.Receive? && c.call.queueId == id && c.call.bufferSize > 0
  }

  ghost predicate QueueStatusOk(m: Processes, q: MessageQueue) {
    && (forall p :: p in q.receivers ==> p in m && BlockedReceiver(m[p], q.id))
    && (forall p :: p in q.senders ==> p in m && BlockedSender(m[p], q.id))
  }

  ghost predicate WaitingOk(m: Processes, ps: seq<Pid>) {
    forall p :: p in ps ==>
      p in m && m[p].status == Waiting && (if m[p].timer then m[p].call.Sleep? else m[p].call.Wait?)
  }

  ghost predicate StatusOk(s: State) {
    && Have(s.pcbs, s.ready, Ready)
    && Have(s.pcbs, s.zombie, Zombie)
    && WaitingOk(s.pcbs, s.waiting)
    && (forall i :: 0 <= i < |s.queues| ==> QueueStatusOk(s.pcbs, s.queues[i]))
  }

  // ----- timers

  function TimerPids(ts: seq<Timer>): (r: seq<Pid>)
    ensures |r| == |ts| && forall i :: 0 <= i < |ts| ==> r[i] == ts[i].pid
  {
    seq(|ts|, i requires 0 <= i < |ts| => ts[i].pid)
  }

  ghost predicate SortedTimers(ts: seq<Timer>) {
    forall i, j :: 0 <= i <= j < |ts| ==> ts[i].time <= ts[j].time
  }

  /** Timers are sorted and correspond one to one to the sleeping processes. */
  ghost predicate TimersOk(m: Processes, waiting: seq<Pid>, ts: seq<Timer>) {
    && SortedTimers(ts)
    && Distinct(TimerPids(ts))
    && (forall p :: p in TimerPids(ts) ==> p in waiting && p in m && m[p].timer)
    && (forall p :: p in m && m[p].timer ==> p in TimerPids(ts))
  }

  ghost predicate NothingDue(ts: seq<Timer>, now: int) {
    forall i :: 0 <= i < |ts| ==> now < ts[i].time
  }

  // ----- message queues

  ghost predicate QueueOk(q: MessageQueue) {
    && 0 < q.id
    && q.status == Open
    && 0 <= q.current == |q.messages| <= q.capacity <= MAX_MESSAGES_PER_QUEUE
    && 0 < q.capacity
    && (q.receivers != [] ==> q.messages == [])
    && (forall i :: 0 <= i < |q.messages| ==> 0 < |q.messages[i].data| <= MESSAGE_MAX_SIZE)
  }

  ghost predicate TableOk(qs: seq<MessageQueue>) {
    && (forall i :: 0 <= i < |qs| ==> QueueOk(qs[i]))
    && (forall i, j :: 0 <= i < j < |qs| ==> qs[i].id != qs[j].id)
  }

  // ----- parents and children

  ghost predicate Holds(m: Processes, p: Pid, c: Pid) {
    p in m && c in m[p].children
  }

  ghost predicate ChildOk(m: Processes, p: Pid, c: Pid) {
    && c in m && c != INIT && m[c].parent.Some?
    && (m[c].parent.value == p || p == INIT)
  }

  /** The child refers to an older process; while that one has not exited, it holds the
      child in its list, and otherwise the child is in init's list. */
  ghost predicate ParentOk(m: Processes, c: Pid) {
    && m.Keys >= {c} && m[c].parent.Some?
    && m[c].parent.value < c
    && (m[c].parent.value in m && m[m[c].parent.value].status != Zombie ==> Holds(m, m[c].parent.value, c))
    && (Holds(m, m[c].parent.value, c) || Holds(m, INIT, c))
  }

  ghost predicate FamilyOk(m: Processes) {
    && INIT in m && m[INIT].parent.None? && m[INIT].status != Zombie
    && (forall p, c :: Holds(m, p, c) ==> ChildOk(m, p, c))
    && (forall p :: p in m ==> Distinct(m[p].children))
    && (forall p, q, c :: Holds(m, p, c) && Holds(m, q, c) ==> p == q)
    && (forall c :: c in m && c != INIT ==> ParentOk(m, c))
    && (forall p :: p in m && m[p].status == Zombie ==> m[p].children == [])
  }

  ghost predicate PidsOk(m: Processes, lastPid: nat) {
    forall p :: p in m ==> p < lastPid
  }

  // ----- pools

  function Queued(qs: seq<MessageQueue>): nat {
    if qs == [] then 0 else |qs[0].messages| + Queued(qs[1..])
  }

  /** Every block is either free or used by exactly one live object (child references may
      leak, so they are only bounded). */
  ghost predicate PoolsOk(s: State) {
    && 0 <= s.pools.pcbs && s.pools.pcbs + |s.pcbs| == MAX_NUM_PROCESSES
    && s.pools.timers + |s.timers| == MAX_NUM_PROCESSES
    && 0 <= s.pools.queues && s.pools.queues + |s.queues| == MAX_MESSAGE_QUEUES
    && s.pools.messages + Queued(s.queues) == MAX_MESSAGES
    && 0 <= s.pools.refs
  }

  /** Everything but where the running process is. */
  ghost predicate Common(s: State) {
    && StatusOk(s)
    && TimersOk(s.pcbs, s.waiting, s.timers)
    && TableOk(s.queues)
    && FamilyOk(s.pcbs)
    && PidsOk(s.pcbs, s.lastPid)
    && PoolsOk(s)
  }

  /** The invariant at every system call boundary. */
  ghost predicate Inv(s: State) {
    && Common(s)
    && NothingDue(s.timers, s.time)
    && OnePlace(s)
    && s.running in s.pcbs && s.pcbs[s.running].status == Running
  }

  /** Between blocking the running process and picking its successor: every process,
      the one still called running too, is in a list. */
  ghost predicate Parked(s: State) {
    && Common(s)
    && NothingDue(s.timers, s.time)
    && Listed(s) == multiset(s.pcbs.Keys)
  }
}
