/** What each system call and each timer tick does to the kernel state, as total functions.
    Each says the outcome only: the wake-up loop, the detour of a handed-over message through
    the queue and the code behind a blocking call's resume point are in KernelMachine, whose
    methods are proved to compute these functions. */
module KernelSteps {
  import opened Lists
  import opened KernelState

  // ----- updates of one PCB

  function SetStatus(m: Processes, p: Pid, st: Status): Processes {
    m[p := At(m, p).(status := st)]
  }

  function SetRet(m: Processes, p: Pid, v: int): Processes {
    m[p := At(m, p).(ret := v)]
  }

  /** `p`'s blocked call completes with `v`: it may run again. */
  function Complete(m: Processes, p: Pid, v: int): Processes {
    m[p := At(m, p).(status := Ready, ret := v)]
  }

  /** Bytes arrive in the buffer of `p`, whose buffer takes `room` bytes. */
  function Deliver(m: Processes, p: Pid, room: int, data: seq<Byte>): Processes {
    if room < |data| then SetRet(m, p, EBUFFER)
    else m[p := At(m, p).(ret := |data|, inbox := data)]
  }

  function Returning(s: State, v: int): State {
    s.(pcbs := SetRet(s.pcbs, s.running, v))
  }

  // ----- the scheduler

  /** The processes of the elapsed timers, in timer order. */
  function Elapsed(ts: seq<Timer>, now: int): (r: seq<Pid>)
    ensures |r| <= |ts|
    ensures forall i :: 0 <= i < |r| ==> r[i] == ts[i].pid && ts[i].time <= now
    ensures |r| < |ts| ==> now < ts[|r|].time
  {
    if ts == [] || now < ts[0].time then [] else [ts[0].pid] + Elapsed(ts[1..], now)
  }

  function WakePcbs(m: Processes, ws: seq<Pid>): Processes {
    map p | p in m :: if p in ws then m[p].(status := Ready, timer := false) else m[p]
  }

  /** All sleepers whose time has come move, in timer order, to the front of the ready list. */
  function Woken(s: State): State {
    var ws := Elapsed(s.timers, s.time);
    s.(ready := ws + s.ready,
       waiting := Without(s.waiting, ws),
       timers := s.timers[|ws|..],
       pcbs := WakePcbs(s.pcbs, ws),
       pools := s.pools.(timers := s.pools.timers + |ws|))
  }

  /** The first ready process runs. */
  function Switch(s: State): State {
    if s.ready == [] then s
    else s.(running := s.ready[0], ready := s.ready[1..],
            pcbs := SetStatus(s.pcbs, s.ready[0], Running))
  }

  /** The first ready process runs and the one that ran goes to the back. */
  function Rotate(s: State): State {
    if s.ready == [] then s
    else if At(s.pcbs, s.running).status != Running then Switch(s)
    else Switch(s.(ready := s.ready + [s.running], pcbs := SetStatus(s.pcbs, s.running, Ready)))
  }

  function Schedule(s: State): State {
    Rotate(Woken(s))
  }

  // ----- sleep

  /** How many leading timers are due no later. */
  function TimerSlot(ts: seq<Timer>, time: int): (k: nat)
    ensures k <= |ts|
    ensures forall j :: 0 <= j < k ==> ts[j].time <= time
    ensures k < |ts| ==> time < ts[k].time
  {
    if ts == [] || time < ts[0].time then 0 else 1 + TimerSlot(ts[1..], time)
  }

  function InsertTimer(ts: seq<Timer>, t: Timer): seq<Timer> {
    var k := TimerSlot(ts, t.time);
    ts[..k] + [t] + ts[k..]
  }

  function Asleep(s: State, cycles: int): State {
    var p := s.running;
    s.(waiting := s.waiting + [p],
       timers := InsertTimer(s.timers, Timer(s.time + cycles, p)),
       pools := s.pools.(timers := s.pools.timers - 1),
       pcbs := s.pcbs[p := At(s.pcbs, p).(status := Waiting, timer := true, ret := 0)])
  }

  /** A sleep that is already over returns at once; any other one gives the processor away,
      if there is somebody to give it to. */
  function SleepStep(s: State, cycles: int): State {
    if cycles <= 0 then Returning(s, 0) else Switch(Asleep(s, cycles))
  }

  // ----- processes

  /** The process part of spawn and of fork. */
  function SpawnStep(s: State): State {
    if s.pools.pcbs <= 0 then Returning(s, ESPAWN)
    else
      var child := s.lastPid;
      var p := s.running;
      s.(lastPid := child + 1,
         ready := s.ready + [child],
         pools := s.pools.(pcbs := s.pools.pcbs - 1, refs := s.pools.refs - 1),
         pcbs := s.pcbs[p := At(s.pcbs, p).(children := At(s.pcbs, p).children + [child], ret := child)]
                       [child := NEW_PCB.(parent := Some(p))])
  }

  predicate Matches(m: Processes, c: Pid, pid: int) {
    if pid == 0 then At(m, c).status == Zombie else c == pid
  }

  /** The first child that wait is looking for, or else the last child. */
  function Awaited(m: Processes, cs: seq<Pid>, pid: int): (r: Pid)
    requires cs != []
    ensures r in cs
  {
    if Matches(m, cs[0], pid) || |cs| == 1 then cs[0] else Awaited(m, cs[1..], pid)
  }

  function Reap(s: State, c: Pid, hasResult: bool): State {
    var p := s.running;
    var me := At(s.pcbs, p);
    s.(zombie := Remove(s.zombie, c),
       pools := s.pools.(pcbs := s.pools.pcbs + 1, refs := s.pools.refs + 1),
       pcbs := s.pcbs[p := me.(children := Remove(me.children, c), ret := c,
                               result := if hasResult then At(s.pcbs, c).exitValue else me.result)]
               - {c})
  }

  function WaitStep(s: State, pid: int, hasResult: bool): State {
    var me := At(s.pcbs, s.running);
    if me.children == [] then Returning(s, EWAIT)
    else
      var c := Awaited(s.pcbs, me.children, pid);
      if At(s.pcbs, c).status == Zombie then Reap(s, c, hasResult)
      else Switch(s.(waiting := s.waiting + [s.running],
                     pcbs := SetStatus(s.pcbs, s.running, Waiting)))
  }

  /** `p` is blocked in a wait call that the exit of `c` answers. */
  predicate WaitsFor(m: Processes, p: Pid, c: Pid) {
    p in m && m[p].status == Waiting && m[p].call.Wait? && (m[p].call.pid == 0 || m[p].call.pid == c)
  }

  /** The exit value is noted and the children move to init. */
  function Orphaned(m: Processes, p: Pid, value: int): Processes {
    var cs := At(m, p).children;
    m[INIT := At(m, INIT).(children := At(m, INIT).children + cs)]
     [p := At(m, p).(exitValue := value, children := [], status := Zombie)]
  }

  /** The exit of the running process `p` ends the wait of its parent `q`. */
  function Collected(m: Processes, p: Pid, q: Pid, value: int): Processes {
    var parent := At(m, q);
    m[q := parent.(status := Running, children := Remove(parent.children, p), ret := p,
                   result := if parent.call.Wait? && parent.call.hasResult then value else parent.result)]
    - {p}
  }

  /** The caller must not be init. A parent whose PCB was freed waits for nobody. */
  function ExitStep(s: State, value: int): State {
    var p := s.running;
    var m := Orphaned(s.pcbs, p, value);
    match At(s.pcbs, p).parent
    case None => s
    case Some(q) =>
      if WaitsFor(m, q, p) then
        s.(running := q,
           waiting := Remove(s.waiting, q),
           pools := s.pools.(pcbs := s.pools.pcbs + 1),
           pcbs := Collected(m, p, q, value))
      else
        Switch(s.(zombie := s.zombie + [p], pcbs := m))
  }

  // ----- message queues

  function FindQueue(qs: seq<MessageQueue>, id: int): (i: nat)
    ensures i <= |qs|
    ensures i < |qs| ==> qs[i].id == id
    ensures forall j :: 0 <= j < i ==> qs[j].id != id
  {
    if qs == [] || qs[0].id == id then 0 else 1 + FindQueue(qs[1..], id)
  }

  function CreateStep(s: State, id: int, capacity: int): State {
    if id <= 0 || capacity <= 0 || capacity > MAX_MESSAGES_PER_QUEUE then Returning(s, EMQINVALID)
    else if FindQueue(s.queues, id) < |s.queues| then Returning(s, EMQEXISTS)
    else if s.pools.queues <= 0 then Returning(s, EMQCREATE)
    else Returning(s.(queues := s.queues + [MessageQueue(id, capacity, 0, Open, [], [], [])],
                      pools := s.pools.(queues := s.pools.queues - 1)), id)
  }

  /** The caller, already entered in the waiting list of queue `i` (which is now `q`), gives
      the processor away; when nobody can take it, nothing is blocked and the call fails. */
  function BlockOn(s: State, i: nat, q: MessageQueue, failure: int): State
    requires i < |s.queues|
  {
    if s.ready == [] then Returning(s, failure)
    else Switch(s.(queues := s.queues[i := q], pcbs := SetStatus(s.pcbs, s.running, Waiting)))
  }

  /** The bytes a send call passes. */
  function Payload(c: Call): seq<Byte> {
    if c.Send? && 0 <= c.size <= |c.buffer| then c.buffer[..c.size] else []
  }

  function SendStep(s: State, id: int, size: int, data: seq<Byte>): State {
    if id <= 0 then Returning(s, EMQINVALID)
    else if size <= 0 || size > MESSAGE_MAX_SIZE then Returning(s, EBUFFER)
    else
      var i := FindQueue(s.queues, id);
      if i == |s.queues| then Returning(s, EMQINVALID)
      else
        var q := s.queues[i];
        if q.current >= q.capacity then
          BlockOn(s, i, q.(senders := q.senders + [s.running]), EMQFULL)
        else if q.receivers != [] then
          HandOver(s, i, q.receivers[0], data)
        else
          Returning(s.(queues := s.queues[i := q.(messages := q.messages + [Message(data, s.running)],
                                                  current := q.current + 1)],
                       pools := s.pools.(messages := s.pools.messages - 1)), 0)
  }

  /** The bytes go straight to the receiver `r` that waits longest; the queue stays empty. */
  function HandOver(s: State, i: nat, r: Pid, data: seq<Byte>): State
    requires i < |s.queues| && s.queues[i].receivers != []
  {
    var q := s.queues[i];
    var room := if At(s.pcbs, r).call.Receive? then At(s.pcbs, r).call.bufferSize else 0;
    Returning(s.(queues := s.queues[i := q.(receivers := q.receivers[1..])],
                 ready := s.ready + [r],
                 pcbs := SetStatus(Deliver(s.pcbs, r, room, data), r, Ready)), 0)
  }

  function ReceiveStep(s: State, id: int, room: int): State {
    if id <= 0 then Returning(s, EMQINVALID)
    else if room <= 0 then Returning(s, EBUFFER)
    else
      var i := FindQueue(s.queues, id);
      if i == |s.queues| then Returning(s, EMQINVALID)
      else
        var q := s.queues[i];
        if q.messages == [] then
          BlockOn(s, i, q.(receivers := q.receivers + [s.running]), EMQEMPTY)
        else if room >= |q.messages[0].data| && q.senders != [] then
          Promote(s, i, room)
        else
          s.(queues := s.queues[i := q.(messages := q.messages[1..], current := q.current - 1)],
             pools := s.pools.(messages := s.pools.messages + 1),
             pcbs := Deliver(s.pcbs, s.running, room, q.messages[0].data))
  }

  /** The caller takes the first message, and the send of the sender that waits longest is
      carried out in its place. The stored message names the caller as its sender, because
      allocation records whoever runs. */
  function Promote(s: State, i: nat, room: int): State
    requires i < |s.queues| && s.queues[i].messages != [] && s.queues[i].senders != []
  {
    var q := s.queues[i];
    var w := q.senders[0];
    var message := Message(Payload(At(s.pcbs, w).call), s.running);
    s.(queues := s.queues[i := q.(messages := q.messages[1..] + [message], senders := q.senders[1..])],
       ready := s.ready + [w],
       pcbs := Deliver(Complete(s.pcbs, w, 0), s.running, room, q.messages[0].data))
  }

  /** Every process of `ps` gets its blocked call answered with `v`. */
  function CompleteAll(m: Processes, ps: seq<Pid>, v: int): Processes {
    map p | p in m :: if p in ps then m[p].(status := Ready, ret := v) else m[p]
  }

  function DestroyStep(s: State, id: int): State {
    if id <= 0 then Returning(s, EMQINVALID)
    else
      var i := FindQueue(s.queues, id);
      if i == |s.queues| then Returning(s, EMQINVALID)
      else
        var q := s.queues[i];
        var ps := q.receivers + q.senders;
        Returning(s.(queues := s.queues[..i] + s.queues[i + 1..],
                     ready := s.ready + ps,
                     pools := s.pools.(queues := s.pools.queues + 1,
                                       messages := s.pools.messages + |q.messages|),
                     pcbs := CompleteAll(s.pcbs, ps, EMQNOTOPEN)), id)
  }

  // ----- the machine

  datatype Event = Tick | Trap(call: Call)

  /** The trap stores the arguments in the caller's PCB. */
  function Issue(s: State, call: Call): State {
    s.(pcbs := s.pcbs[s.running := At(s.pcbs, s.running).(call := call)])
  }

  function Perform(s: State, call: Call): State {
    match call
    case NoCall => Returning(s, ESYSCALL_NOT_IMPLEMENTED)
    case Preempt => Schedule(s)
    case Spawn => SpawnStep(s)
    case Fork => SpawnStep(s)
    case Wait(pid, hasResult) => WaitStep(s, pid, hasResult)
    case Exit(value) => ExitStep(s, value)
    case Sleep(cycles) => SleepStep(s, cycles)
    case Create(id, capacity) => CreateStep(s, id, capacity)
    case Send(id, _, size) => SendStep(s, id, size, Payload(call))
    case Receive(id, room) => ReceiveStep(s, id, room)
    case Destroy(id) => DestroyStep(s, id)
    case Resource(ret) => Returning(s, ret)
  }

  function Step(s: State, e: Event): State {
    match e
    case Tick => Schedule(s.(time := s.time + 1))
    case Trap(call) => Perform(Issue(s, call), call)
  }

  // ----- what the kernel demands of its callers

  /** Wait blocks: it has children, and the one it settles on is no zombie. */
  predicate WaitBlocks(s: State, pid: int) {
    var me := At(s.pcbs, s.running);
    me.children != [] && At(s.pcbs, Awaited(s.pcbs, me.children, pid)).status != Zombie
  }

  /** Exit finds the parent in a matching wait. */
  predicate ExitAnswers(s: State) {
    var parent := At(s.pcbs, s.running).parent;
    parent.Some? && WaitsFor(s.pcbs, parent.value, s.running)
  }

  /** What the caller of exit finds in the PCB of its parent `q` is what `q` or nobody left there.
      If that PCB was freed, its block still says Zombie, unless a newer process has got it: one
      younger than the caller, since the parent was there when the caller was born. Taken for the
      parent, it must not be in a wait that the exit seems to answer: the source would look for
      the caller in that process's children list, and use the null it finds. */
  predicate ParentReads(s: State, q: Pid) {
    q in s.pcbs || forall r :: r in s.pcbs && r > s.running ==> !WaitsFor(s.pcbs, r, s.running)
  }

  /** The conditions under which the source uses no null pointer, takes no process for another and
      fails no assertion: a blocking wait and an exit that wakes nobody need a ready process, exit
      needs a caller with a parent, and to find what that parent left, spawn and fork need a free
      child reference, a sender's buffer holds the bytes it announces. */
  predicate Demands(s: State, e: Event) {
    match e
    case Tick => true
    case Trap(call) =>
      match call
      case Spawn => s.pools.pcbs > 0 ==> s.pools.refs > 0
      case Fork => s.pools.pcbs > 0 ==> s.pools.refs > 0
      case Wait(pid, _) => WaitBlocks(s, pid) ==> s.ready != []
      case Exit(_) =>
        && At(s.pcbs, s.running).parent.Some?
        && ParentReads(s, At(s.pcbs, s.running).parent.value)
        && (ExitAnswers(s) || s.ready != [])
      case Send(_, buffer, size) => 0 < size <= MESSAGE_MAX_SIZE ==> size <= |buffer|
      case _ => true
  }

  /** Sleep needs somebody else to run, unless the sleep is already over. */
  predicate SleepSafe(s: State, e: Event) {
    e.Trap? && e.call.Sleep? && e.call.cycles > 0 ==> s.ready != []
  }

  predicate Enabled(s: State, e: Event) {
    Demands(s, e) && SleepSafe(s, e)
  }
}
