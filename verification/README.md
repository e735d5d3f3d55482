# A verified model of the DisastrOS kernel with message queues

DisastrOS is a small teaching kernel in C. Processes trap into it; a trap or a timer tick runs
to its end before any process goes on, and it may leave another process running. Message queues
are bounded, a full queue blocks senders and an empty one blocks receivers, and a blocked call
is never resumed in the middle: its counterpart completes it. This project models the kernel as
one state machine whose steps are whole system calls and ticks, and proves what the kernel
guarantees over every step and every run. Nothing here executes the C code.

## How it is built

- `Lists`: the abstract value of an intrusive list and what insertion and detaching do to it.
- `LinkedList`: the doubly linked list on the heap, refining `Lists`.
- `PoolAllocator`, `PoolTheorems`: the block allocator with its index-linked free list, and what
  it promises over any interleaving of calls and about the bytes of its blocks.
- `KernelState`: the kernel's global variables as one value and the invariant `Inv`: one place
  per process, status and frozen arguments matching the place, timers in one-to-one
  correspondence with sleepers and none due, a sound queue table, sound families, conserved pools.
- `KernelSteps`: the outcome of every system call and tick as a total function, without the
  detours of the code, and `Enabled`, what the kernel demands of its callers. Calls on generic
  resources only set a return value here; shutdown is not part of the model.
- `KernelInvariant`, `ProcessInvariant`: every enabled step keeps `Inv`.
- `KernelMachine`: a class whose methods update the globals as the source does, with its loops,
  fallbacks and detours; each is proved to compute the outcome `KernelSteps` states.
- `Runs`: runs as sequences of events; every state reached from boot satisfies `Inv`.
- `QueueAnswers`, `ProcessAnswers`, `ResourceAnswers`: what every call returns and does, each value
  and each outcome with its exact condition.
- `QueueSteps`, `QueueTheorems`, `MessageAuthors`: conservation, FIFO order, wake-ups, and whose
  messages are stored.
- `Frames`, `QueueFates`, `WaitFates`: what a step leaves alone, and the completion of blocked
  sends, receives and waits.
- `SchedulingTheorems`, `FamilyTheorems`, `Lifetimes`: dispatch order, timers, wait and exit, and
  which PCBs and parents are still there.
- `Descriptors`, `DescriptorTable`: processes and generic resources.
- `Whole`: the kernel and the resource tables as one system, and what dead processes leave there.
- `Scenarios`: concrete runs from boot that break what holds only under a condition.

## What the code does not guarantee

Some properties one would expect hold only under a condition that a caller can check before the
call. Each of these is proved as an equivalence, on all runs from boot or on all good states (of a
blocked wait for a pid, it is proved what ends it exactly, and one condition under which nothing
ever does), and `Scenarios` has a run in which it fails.

- FIFO order and wake-ups: a receive whose buffer is too small drops the message and returns
  without serving a blocked sender. From then on a sender waits although there is room
  (`QueueTheorems.WakeUpsExactly`), and a later send may overtake it
  (`QueueTheorems.FifoExactly`; `Scenarios.FifoCanFail`).
- Senders of messages: a message names the process that was running when it was allocated. If that
  was a receiver that served a blocked sender, the name is wrong
  (`MessageAuthors.NamesExactly`; `Scenarios.NamesCanBeWrong`).
- Sleep: with nobody ready and a positive number of cycles, the caller goes on running while it
  is on the waiting list (`SchedulingTheorems.SleepExactly`; `Scenarios.SleepCanBreak`).
- Wait and exit: an exiting process hands its children to init without telling them, so init can
  stay blocked beside a zombie it waits for (`FamilyTheorems.MissesExactly`;
  `Scenarios.ExitCanBeMissed`).
- Wait for a pid: a wait that returns at once reports the pid it was asked for exactly if that is a
  child's, and otherwise collects the last child; a wait that blocks does so for ever if no live
  child has the pid (`WaitFates.WaitReports`, `WaitFates.NeverAnswered`;
  `Scenarios.WrongChildCanBeCollected`, `Scenarios.WaitCanLastForEver`).
- Parents: an exiting process hands its children to init, but they go on naming it as their parent.
  Once its PCB is freed, their exits read what is left there, or what a newer process has put there
  (`Lifetimes.OrphansExactly`); if that process is blocked in a wait that the exit matches, the
  source uses a null pointer (`Scenarios.ParentCanBeGone`).
- Child references: an exit that answers a blocked wait never gives the reference back, so after
  enough of them spawn meets a failing assertion (`FamilyTheorems.ReferencesLeak`;
  `Scenarios.SpawnCanFail`).
- Descriptors: an exit that leaves a zombie does not release its descriptors, and neither does the
  wait that collects it; its resources still count as used
  (`Whole.NothingLeftExactly`; `Scenarios.DescriptorsCanBeLeft`).
- Close: the number that open returned names the descriptor just made exactly if the process had
  none of that number, but a fork copies the numbers and starts to count anew
  (`Descriptors.CloseUndoesOpen`; `Scenarios.CloseCanHitAnother`).

## Hypotheses

`KernelSteps.Enabled` lists what the code needs and does not check: a ready process for a wait
that blocks, for an exit that answers nobody and for a sleep that lasts; a caller of exit that has
a parent, whose PCB, if it was freed, is not mistaken for that of a process in a matching wait; a
free child reference for spawn and fork; as many bytes in a sender's buffer as it announces. A ready
process is exactly what a wait, an exit and a sleep need to keep the invariant
(`WaitFates.WaitExactly`, `WaitFates.ExitExactly`, `SchedulingTheorems.SleepExactly`).
User memory is modelled by the bytes themselves: a blocked sender's buffer is not rewritten and
buffers do not overlap. In the whole system no request mixes up queues and generic resources
(`Whole.Unmixed`), and a fork needs as many free descriptors as its caller has open
(`Whole.Allowed`).

## Model

| member | source | states |
|---|---|---|
| Lists.RemoveUndoesInsert | src/linked_list.c:21-79 | detaching an item right after inserting it anywhere gives the old sequence back |
| Lists.InsertedBehind | src/linked_list.c:21-54 | inserting puts the item right behind the given one and moves nothing else |
| Lists.RemovedAt | src/linked_list.c:56-79 | detaching takes out the given item and moves nothing else |
| LinkedList.ListHead.constructor | src/linked_list.c:4-8 | an initialised list is well formed and empty |
| LinkedList.ListHead.Find | src/linked_list.c:10-19 | the scan returns the item exactly when it is in the list |
| LinkedList.ListHead.Insert | src/linked_list.c:21-54 | an unlinked item goes in behind the given one or in front, all links, both ends and the size stay consistent; a linked item is refused and nothing changes |
| LinkedList.ListHead.Detach | src/linked_list.c:56-79 | the item leaves the sequence, is unlinked, and the rest stays a well-formed list |
| LinkedList.ListHead.PopFront | src/linked_list.c:81-86 | the first item is detached and returned, or null from an empty list |
| LinkedList.ListHead.PushBack | src/linked_list.c:88-90 | the item becomes the last one |
| LinkedList.ListHead.PushFront | src/linked_list.c:92-94 | the item becomes the first one |
| LinkedList.GuardSeesCompany | src/linked_list.c:22-23 | the guard of insertion recognises a member of a list exactly when the list has at least two items |
| LinkedList.InsertThenDetach | src/linked_list.c:21-79 | inserting and detaching restores every pointer of the list and of all its items |
| LinkedList.MoveFirst | src/disastrOS_msgqueue_destroy.c:35-40 | moving the first item of one list to the end of another acts on both as on sequences and leaves every other list intact |
| PoolAllocator.ExactQuotient | src/pool_allocator.c:70-76 | truncating division of a whole number of blocks finds that number, for addresses below the buffer too |
| PoolAllocator.Allocator.Init | src/pool_allocator.c:19-47 | too little memory is refused without effect; otherwise all indices are free in ascending order and threaded through the array |
| PoolAllocator.Allocator.GetBlock | src/pool_allocator.c:49-65 | the chain stays threaded and the operation refines popping the free list |
| PoolAllocator.Allocator.ReleaseBlock | src/pool_allocator.c:67-91 | the chain stays threaded and the operation refines the release of the abstract pool, with every refusal |
| PoolTheorems.IndexOfAddress | src/pool_allocator.c:63-76 | the index that release computes from an address is the index get computed the address from |
| PoolTheorems.ReleaseOutcome | src/pool_allocator.c:67-91 | a release succeeds exactly on blocks in use, is a double free exactly on free blocks, and every refusal changes nothing |
| PoolTheorems.GetOutcome | src/pool_allocator.c:49-65 | get fails exactly when nothing is free and otherwise returns a block that was not in use and now is |
| PoolTheorems.ReleaseThenGet | src/pool_allocator.c:49-91 | a released block is the next one handed out and the pool is as before |
| PoolTheorems.GetThenRelease | src/pool_allocator.c:49-91 | get then release restores the pool, and a second release is a double free |
| PoolTheorems.StaysInUse | src/pool_allocator.c:49-91 | under any calls that do not give it back a block stays in use |
| PoolTheorems.NeverTwice | src/pool_allocator.c:49-91 | between two gets that return the same block, under any interleaving, there is a successful release of it |
| PoolTheorems.BlocksDisjoint | src/pool_allocator.c:63 | distinct blocks occupy disjoint byte ranges |
| PoolTheorems.LayoutFits | src/pool_allocator.c:27-37 | blocks end before the index array and the array ends within the checked memory |
| PoolTheorems.PayloadsApart | src/disastrOS_message.c:24-47 | a payload of at most 256 bytes behind its header stays in its own block and meets no other block |
| KernelInvariant.PlacesApart | src/disastrOS_schedule.c:19-43 | in every good state no list mentions a process twice, the running one is in no list, those of queues included, and has no timer |
| ProcessInvariant.PlaceOf | include/disastrOS_pcb.h:7-14 | status and pending call of a live process tell exactly in which kind of list it is |
| ProcessInvariant.StepInv | src/disastrOS.c:109-144 | every enabled tick and system call but shutdown keeps the whole kernel invariant; of a call on generic resources this is the part outside the resource tables |
| Runs.ReachableInv | src/disastrOS.c:146-265 | every state of every legal run from boot satisfies the invariant; runs hold all calls but shutdown, and of calls on generic resources the part outside the resource tables |
| KernelInvariant.MessagePoolHasRoom | src/disastrOS_message.c:11-42 | while any queue has room the message pool has a block, so a send never fails for want of memory |
| ProcessInvariant.TimerPoolHasRoom | src/disastrOS_timer.c:23-35 | the timer pool has a block whenever a process may ask for one |
| KernelMachine.Kernel.constructor | src/disastrOS.c:146-242 | booting gives the initial state, which is good |
| KernelMachine.Kernel.WakeUp | src/disastrOS_schedule.c:16-27 | the wake-up loop moves exactly the processes of elapsed timers, in timer order, to the front of the ready list |
| KernelMachine.Kernel.Dispatch | src/disastrOS_schedule.c:29-43 | the head of the ready list runs and the old process goes to the back exactly when it still ran |
| KernelMachine.Kernel.TimerInterrupt | src/disastrOS.c:53-64 | a tick computes the stated step and keeps the invariant |
| KernelMachine.Kernel.Syscall | src/disastrOS.c:92-144 | any call but shutdown computes the stated step, for calls on generic resources the part outside the resource tables; the invariant survives exactly unless it is a sleep with nobody to run |
| KernelMachine.Kernel.FindResource | src/disastrOS_resource.c:43-52 | the scan finds the first queue with the id |
| KernelMachine.Kernel.MessageAlloc | src/disastrOS_message.c:36-42 | allocation succeeds exactly for sizes 1 to 256 with a block left, and takes one |
| KernelMachine.Kernel.Block | src/disastrOS_msgqueue_send.c:48-69 | a blocking call parks its caller and the next process runs, or is taken back with an error; the code after resume is not reached |
| KernelMachine.BlockScheduled | src/disastrOS_msgqueue_receive.c:42-64 | after a caller has blocked the scheduler either changes nothing or picks another process |
| KernelMachine.Kernel.MqSend | src/disastrOS_msgqueue_send.c:9-119 | send computes the stated outcome in every case; its failures for a queue that is not open or for memory do not occur |
| KernelMachine.Kernel.Deposit | src/disastrOS_msgqueue_send.c:80-112 | the new message is stored last, or, with a receiver waiting, reaches the longest-waiting one and the queue stays empty |
| KernelMachine.Kernel.ServeReceiver | src/disastrOS_msgqueue_send.c:94-112 | the longest-waiting receiver is detached with the first message and gets bytes and size, or EBUFFER |
| KernelMachine.ServeDetour | src/disastrOS_msgqueue_send.c:80-115 | with a receiver waiting the message taken out is the one just stored, and the queue is empty again |
| KernelMachine.Kernel.MqReceive | src/disastrOS_msgqueue_receive.c:9-108 | receive computes the stated outcome in every case, with the early return of the short buffer |
| KernelMachine.Kernel.Accept | src/disastrOS_msgqueue_receive.c:77-107 | the caller gets bytes and size of the message taken, its block is freed, and a blocked sender is served |
| KernelMachine.Kernel.CarryOutSend | src/disastrOS_msgqueue_receive.c:84-105 | the longest-waiting sender's bytes are stored last and its call returns 0; the failure branches do not occur |
| KernelMachine.WakeUnlinked | src/disastrOS_schedule.c:19-27 | a sleeper taken off the waiting list is in no list when it is put on the ready list |
| KernelMachine.DetachedUnlinked | src/linked_list.c:21-23 | a process taken off a waiting list of a queue is in no list when it is put on the ready list |
| KernelMachine.FailUnlinked | src/disastrOS_msgqueue_destroy.c:34-48 | in every round of the draining loops the process just taken off is in no list |
| KernelMachine.Kernel.MqCreate | src/disastrOS_msgqueue_create.c:8-38 | create computes the stated outcome with its three errors |
| KernelMachine.Kernel.FailWaiters | src/disastrOS_msgqueue_destroy.c:34-48 | all waiting processes go to the back of the ready list in order, each with DSOS_EMQNOTOPEN |
| KernelMachine.Kernel.Drain | src/disastrOS_msgqueue_destroy.c:32-62 | receivers, then senders become ready in order with the error, the messages are freed, and the queue's block is released with its asserts satisfied |
| KernelMachine.Kernel.FreeMessages | src/disastrOS_msgqueue_destroy.c:50-54 | the queue is emptied and the pool regains exactly its messages |
| KernelMachine.Kernel.MqDestroy | src/disastrOS_msgqueue_destroy.c:8-67 | destroy drains receivers, then senders, then messages, drops the queue with its release asserts satisfied, and computes the stated outcome |
| QueueAnswers.SendRefused | src/disastrOS_msgqueue_send.c:14-31 | a send with a bad id or for no queue returns EMQINVALID, one with a bad size EBUFFER, and nothing else changes |
| QueueAnswers.SendToFull | src/disastrOS_msgqueue_send.c:38-69 | a send to a full queue blocks behind all other senders and the first ready process runs; with nobody ready it returns EMQFULL and nothing else changes |
| QueueAnswers.SendWithRoom | src/disastrOS_msgqueue_send.c:72-116 | a send to a queue with room returns 0; its bytes are stored last, or the longest-waiting receiver gets them with their number, or EBUFFER, and is ready |
| QueueAnswers.SendReturns | src/disastrOS_msgqueue_send.c:14-116 | each return value of send, and blocking, occurs if and only if its condition holds |
| QueueAnswers.ReceiveRefused | src/disastrOS_msgqueue_receive.c:15-29 | a receive with a bad id or from no queue returns EMQINVALID, one without a buffer EBUFFER, and nothing else changes |
| QueueAnswers.ReceiveFromEmpty | src/disastrOS_msgqueue_receive.c:36-64 | a receive from an empty queue blocks behind all other receivers; with nobody ready it returns EMQEMPTY and nothing else changes |
| QueueAnswers.ReceiveTooShort | src/disastrOS_msgqueue_receive.c:67-75 | a receive with a too small buffer returns EBUFFER, leaves the buffer alone and drops the message |
| QueueAnswers.ReceiveTakesFirst | src/disastrOS_msgqueue_receive.c:67-107 | any other receive returns the size of the first message with its bytes, whether or not a blocked sender is served |
| QueueAnswers.ReceiveReturns | src/disastrOS_msgqueue_receive.c:15-107 | each return value of receive, and blocking, occurs if and only if its condition holds |
| QueueAnswers.CreateAnswers | src/disastrOS_msgqueue_create.c:10-35 | create returns the id and makes an empty queue of that capacity if and only if parameters, id and pool allow it; each error has its guard and changes nothing else |
| QueueAnswers.DestroyAnswers | src/disastrOS_msgqueue_destroy.c:8-67 | destroy returns the id exactly for a queue that is there, which goes; receivers, then senders are ready in order with the error, and the blocks are free |
| QueueSteps.QueueUntouched | src/disastrOS_msgqueue_destroy.c:8-67 | only send, receive, create and destroy naming a queue change its entry; it appears only by create, empty and with nobody waiting, and disappears only by destroy |
| QueueSteps.CallsKept | src/disastrOS.c:92-107 | the stored arguments of a process change only when it calls |
| QueueSteps.StepConserves | src/disastrOS_msgqueue_send.c:38-116 | what a queue owes plus what a step puts in equals what the step takes out plus what it then owes, in order, if and only if the step does not overtake a blocked sender |
| QueueTheorems.FifoExactly | src/disastrOS_msgqueue_receive.c:67-105 | over every legal run from boot a queue is first in first out through blocking if and only if no send overtakes |
| QueueTheorems.FifoWithoutShortReceives | README.md:16 | without short receives beside blocked senders every queue is first in first out at every point of the run |
| Scenarios.FifoCanFail | src/disastrOS_msgqueue_receive.c:71-75 | a legal run of six calls in which a short receive makes a later message overtake |
| MessageAuthors.NamesExactly | src/disastrOS_message.c:52 | over every legal run from boot the messages of a queue name the processes that sent them if and only if no receive takes a message while a sender is blocked |
| MessageAuthors.BytesAlways | src/disastrOS_msgqueue_receive.c:84-105 | over every legal run the bytes stored are those of the sends in the account of true senders |
| MessageAuthors.SignedBySender | src/disastrOS_msgqueue_send.c:72-82 | every entry of that account names a process that sent those bytes to the queue during the run |
| Scenarios.NamesCanBeWrong | src/disastrOS_msgqueue_receive.c:92 | a legal run of five calls after which a stored message names process 1, which received, although process 0 sent it |
| Scenarios.ExitCanBeMissed | src/disastrOS_exit.c:20-58 | a legal run of seven calls ends with init blocked beside the zombie it waits for |
| Scenarios.SleepCanBreak | src/disastrOS_sleep.c:28-37 | right after booting a sleep of one cycle, which the code lets through, breaks the kernel invariant |
| Scenarios.SpawnCanFail | src/disastrOS_spawn.c:27-28 | a legal run after which one process is alive and no child reference is free, so that spawn fails its assertion |
| Scenarios.ReferenceCanLeak | src/disastrOS_exit.c:50-52 | after spawn, wait and exit of the child a child reference is missing |
| QueueTheorems.WakeUpStep | src/disastrOS_msgqueue_receive.c:71-105 | a step leaves a sender blocked beside free room exactly when it is a short receive with a sender blocked |
| QueueTheorems.WakeUpsExactly | src/disastrOS_msgqueue_receive.c:71-105 | over every legal run from boot no wake-up is lost if and only if there is no such receive |
| QueueTheorems.NeverBoth | src/disastrOS_msgqueue_send.c:38-49 | while no wake-up is lost a queue never has blocked senders and blocked receivers |
| QueueFates.BlockedFate | src/disastrOS_msgqueue_send.c:52-112 | a blocked process is frozen until the one step, known beforehand, that performs its call and sets its return value |
| QueueFates.BlockedUntil | src/disastrOS_msgqueue_send.c:52-112 | over every legal run a blocked process was blocked and frozen at every point, or it was up to one step of the run that performed its call |
| Frames.OthersKept | src/disastrOS.c:92-107 | a step changes nothing in the PCB of a process that it is not about, but status and timer, which the lists tell |
| ProcessAnswers.PlainAnswers | src/disastrOS.c:122-126 | a number without a call returns its error, a call on resources the value of the tables, and nothing else changes |
| ProcessAnswers.PreemptAnswers | src/disastrOS_preempt.c:7-9 | the caller goes to the end of the ready list and the first one runs; with nobody ready nothing changes |
| ProcessAnswers.TickAnswers | src/disastrOS.c:53-64 | the clock moves; due sleepers go in front of the ready list, the first one runs, the old process goes last; with nobody there only the clock moves |
| SchedulingTheorems.ClockStep | src/disastrOS.c:56 | every tick moves the clock by one, whoever is ready, and no call moves it |
| SchedulingTheorems.ClockCounts | src/disastrOS.c:56 | over every run the clock counts the ticks |
| SchedulingTheorems.SleepLasts | src/disastrOS_sleep.c:17-33 | over every legal run after the call a sleep lasts exactly its number of ticks, and the last of them puts the caller on the processor or among the first |
| ProcessAnswers.SleepAnswers | src/disastrOS_sleep.c:17-33 | the caller goes to the end of the waiting list with 0 to return and its timer to its place; a sleep of no cycles only returns 0 |
| ProcessAnswers.SpawnAnswers | src/disastrOS_spawn.c:12-37 | spawn and fork fail exactly without a free PCB; otherwise they return a new pid, whose process is ready last and the caller's last child |
| ProcessAnswers.WaitAnswers | src/disastrOS_wait.c:7-68 | a childless wait returns EWAIT; any other collects the child it settles on if that is a zombie, the first zombie for pid 0, with pid and value, and else blocks |
| ProcessAnswers.ExitLeavesZombie | src/disastrOS_exit.c:15-99 | an exit whose parent does not await it leaves a childless zombie with the value of the call, and init gets the children |
| ProcessAnswers.ExitAnswersParent | src/disastrOS_exit.c:15-93 | an exit whose parent awaits it leaves nothing; the parent runs with pid and value and without the child |
| ProcessAnswers.ValuesAlways | src/disastrOS_exit.c:17 | over every legal run every zombie holds the value of its exit call |
| ProcessAnswers.ValueReported | src/disastrOS_wait.c:52-53 | over every legal run, whenever a PCB is freed, its process called exit with a value that reaches the process that collects it |
| SchedulingTheorems.ScheduleOutcome | src/disastrOS_schedule.c:8-47 | with the woken sleepers in front of the ready list the head runs, the old process goes last, other sleepers are untouched, and an empty line changes nothing |
| SchedulingTheorems.StepPosition | src/disastrOS_schedule.c:19-38 | a step moves a ready process back by the sleepers woken and forward by one if it dispatches |
| SchedulingTheorems.RunPosition | src/disastrOS_schedule.c:19-38 | over every legal run a ready process has run or stands at its first place plus sleepers woken minus dispatches |
| SchedulingTheorems.NobodyStarves | src/disastrOS_wait.c:64-67 | after more dispatches than processes ahead or woken since, it has run |
| SchedulingTheorems.SleepsExactly | src/disastrOS_timer.c:66-73 | over every legal run a timer is armed exactly as long as its time has not come, and so long its process waits in the sleep call |
| SchedulingTheorems.WakesOnTime | src/disastrOS_schedule.c:19-27 | the tick that reaches a timer's time puts its process on the processor or among the first of the ready list |
| SchedulingTheorems.WakeInOrder | src/disastrOS_timer.c:47-64 | of two sleepers due at the same tick, over every legal run up to it, the one that slept first is ahead in the line for the processor |
| SchedulingTheorems.SleepArms | src/disastrOS_sleep.c:17-33 | a lasting sleep arms the timer for that many ticks ahead and returns 0; any other goes straight on |
| SchedulingTheorems.SleepExactly | src/disastrOS_sleep.c:28-37 | sleep keeps the invariant if and only if somebody is ready or it does not last |
| KernelMachine.Kernel.TimerListAdd | src/disastrOS_timer.c:47-64 | the timer goes behind all that are due no later, if the pool has a block |
| KernelMachine.Kernel.InternalSleep | src/disastrOS_sleep.c:7-38 | sleep computes the stated outcome and its two failures do not occur |
| KernelMachine.Kernel.InternalSpawn | src/disastrOS_spawn.c:12-37 | spawn computes the stated outcome and keeps the invariant |
| KernelMachine.Kernel.ScanChildren | src/disastrOS_wait.c:20-31 | the scan stops at the first match or ends with the last child |
| KernelMachine.Kernel.Collect | src/disastrOS_wait.c:43-56 | the zombie leaves all lists, its blocks are freed, pid and exit value reach the caller |
| KernelMachine.Kernel.InternalWait | src/disastrOS_wait.c:7-68 | wait computes the stated outcome and keeps the invariant |
| KernelMachine.Kernel.Reparent | src/disastrOS_exit.c:20-33 | the loop moves all children in order to the end of init's list |
| KernelMachine.Kernel.AnswerParent | src/disastrOS_exit.c:46-58 | the parent runs on with pid and exit value, and the caller's PCB is free |
| KernelMachine.Kernel.InternalExit | src/disastrOS_exit.c:15-101 | exit computes the stated outcome and keeps the invariant |
| FamilyTheorems.MissStep | src/disastrOS_exit.c:20-58 | a step leaves a parent blocked beside a zombie it waits for exactly when it is an exit that hands init such a child |
| FamilyTheorems.MissesExactly | src/disastrOS_exit.c:20-58 | over every legal run from boot no exit is missed if and only if no such exit occurs |
| Lifetimes.FreesExactly | src/disastrOS_wait.c:44-55 | a step frees a PCB if and only if it is the exit of that process and answers a wait, or the wait that settles on that zombie |
| Lifetimes.OrphanStep | src/disastrOS_exit.c:20-33 | a step leaves a process whose parent is gone exactly when it frees a PCB that another one names as its parent |
| Lifetimes.OrphansExactly | src/disastrOS_exit.c:20-33 | over every legal run from boot every named parent has a PCB at every point if and only if no step frees such a PCB |
| Lifetimes.ExitDemands | src/disastrOS_exit.c:39-96 | while named parents live, exit can be asked for exactly by a process other than init that answers its parent or has somebody to run next |
| Scenarios.ParentCanBeGone | src/disastrOS_exit.c:39-52 | a legal run frees the parent of process 2, and later process 2 cannot exit although others are ready |
| WaitFates.WaitExactly | src/disastrOS_wait.c:58-67 | a wait keeps the invariant if and only if it does not block or somebody is ready |
| WaitFates.ExitExactly | src/disastrOS_exit.c:94-99 | the exit of a process other than init keeps the invariant if and only if it answers the parent or somebody is ready |
| FamilyTheorems.CollectedByHolder | src/disastrOS_wait.c:44-55 | a PCB is freed only by the process that holds the child, which then runs and knows its pid and exit value |
| FamilyTheorems.CollectedOnce | src/disastrOS_exit.c:46-93 | over every legal run a process is collected at most once |
| FamilyTheorems.NeverAgain | src/disastrOS_pcb.c:49-50 | the pid of a freed PCB is never used again |
| WaitFates.WaitFate | src/disastrOS_exit.c:39-58 | a step ends a blocked wait if and only if it is the exit of an awaited process whose parent field names the waiting one, which then runs with pid and exit value; all other steps leave it frozen |
| WaitFates.WaitsExactly | src/disastrOS_exit.c:39-58 | over every legal run a process blocked in wait stays so, frozen, at every point if and only if no such exit occurs |
| WaitFates.NeverAnswered | src/disastrOS_wait.c:33-67 | a process blocked in a wait for a pid that no live process with it as parent has is blocked for ever |
| WaitFates.WaitReports | src/disastrOS_wait.c:20-67 | a wait for a pid that returns at once reports that pid if and only if it is a child's; one that blocks is never answered if no live child has it |
| Scenarios.WrongChildCanBeCollected | src/disastrOS_wait.c:22-55 | in a legal run a wait for a pid that no process has collects another child |
| Scenarios.WaitCanLastForEver | src/disastrOS_wait.c:33-67 | after two legal steps init waits for a pid that no process has, and it is blocked whatever happens next |
| FamilyTheorems.ReferencesLeak | src/disastrOS_exit.c:50-52 | free child references after any legal run are those the free PCBs need less one for each answered wait, so spawn's assertion fails exactly after too many |
| Descriptors.AttachKeeps | src/disastrOS_open_resource.c:51-73 | a new pair keeps the graph sound: mutual pointers, counts equal to list lengths, pools in lockstep |
| Descriptors.DetachKeeps | src/disastrOS_close_resource.c:21-35 | taking a pair out keeps the graph sound |
| Descriptors.OpenKeeps | src/disastrOS_open_resource.c:10-78 | open keeps the graph sound and never lacks a pointer once it has a descriptor |
| Descriptors.BootGraphOk | src/disastrOS.c:146-155 | the tables after booting are sound |
| Descriptors.CloseUndoesOpen | src/disastrOS_close_resource.c:10-38 | closing the number that a successful open returned undoes it, but for the next number and a created resource, if and only if no older descriptor has that number |
| Descriptors.TwinsKeep | src/disastrOS_fork.c:27-53 | fork's loop gives the child the same resources under the same numbers in order and changes nobody else's |
| Descriptors.ReleaseAllKeeps | src/disastrOS_exit.c:74-88 | exit's loop removes exactly the process's descriptors and keeps the graph sound |
| Descriptors.ExitCloses | src/disastrOS_exit.c:84-87 | after the loop exactly those resources are left that the process had not open or that others have open too |
| Descriptors.DropKeeps | src/disastrOS_resource.c:37-41 | a resource with count zero has an empty list, so the assertions of its release hold |
| ResourceAnswers.OpenRefused | src/disastrOS_open_resource.c:25-48 | an open that cannot create, finds no resource of the kind, or is to be exclusive on one in use is refused with its error and no effect |
| ResourceAnswers.OpenWithoutBlock | src/disastrOS_open_resource.c:52-56 | without a free descriptor an open fails, and only a resource it created stays |
| ResourceAnswers.OpenSucceeds | src/disastrOS_open_resource.c:52-77 | a successful open returns the next number and puts one new descriptor at the end of both lists; nothing else changes |
| ResourceAnswers.CloseAnswers | src/disastrOS_close_resource.c:10-37 | close of an unknown number is refused without effect; otherwise the first descriptor of the number goes from both lists and no other |
| ResourceAnswers.DestroyAnswers | src/disastrOS_destroy_resource.c:9-28 | destroy returns 0 if and only if the resource is listed and not in use, and then exactly it goes and its block is free; each error has its guard and no effect |
| Whole.ChildOpens | src/disastrOS_fork.c:27-53 | a spawned process has nothing open, a forked one what its parent has, in order and under the same numbers |
| Scenarios.CloseCanHitAnother | src/disastrOS_fork.c:36 | a run in which a child closes the number that its open returned, and the inherited descriptor goes instead |
| DescriptorTable.ResourceTable.constructor | src/disastrOS.c:146-155 | booting gives empty tables with all blocks free |
| DescriptorTable.ResourceTable.ResourceById | src/disastrOS_resource.c:43-52 | the scan finds the first resource with the id |
| DescriptorTable.ResourceTable.DescriptorByFd | src/disastrOS_descriptor.c:55-64 | the scan finds the first descriptor with the number |
| DescriptorTable.ResourceTable.Connect | src/disastrOS_open_resource.c:51-73 | both blocks are taken, linked to each other and entered in both lists, and the count goes up |
| DescriptorTable.ResourceTable.Disconnect | src/disastrOS_close_resource.c:21-35 | both entries leave their lists, both blocks are freed, and the count goes down |
| DescriptorTable.ResourceTable.OpenResource | src/disastrOS_open_resource.c:10-78 | open computes the stated outcome with its four errors |
| DescriptorTable.ResourceTable.CloseResource | src/disastrOS_close_resource.c:10-38 | close computes the stated outcome and its count assertion holds |
| DescriptorTable.ResourceTable.DuplicateDescriptors | src/disastrOS_fork.c:27-53 | the loop computes the duplication |
| DescriptorTable.ResourceTable.ReleaseDescriptors | src/disastrOS_exit.c:74-88 | the loop computes the release of all descriptors |
| DescriptorTable.ResourceTable.DestroyResource | src/disastrOS_destroy_resource.c:9-29 | an unused resource is dropped; a missing or used one is refused without effect |
| Whole.ApartStep | src/disastrOS_msgqueue_create.c:19-24 | requests that do not mix up queues and resources keep their ids apart and resources free of the queue type |
| Whole.SystemStep | src/disastrOS.c:165-205 | every allowed tick and every system call but shutdown keeps kernel and resource tables good, their ids apart, and gives every live process a descriptor list |
| Whole.KernelRuns | src/disastrOS.c:109-144 | every run of the whole system is a legal run of the kernel, which reaches the same kernel state |
| Whole.ReachedOk | src/disastrOS.c:146-265 | every state of every run of the whole system from boot, without requests that mix up queues and resources, is good |
| Whole.StrandStep | src/disastrOS_wait.c:44-55 | a request leaves descriptors without a process exactly when it is a wait that collects a zombie with descriptors |
| Whole.NothingLeftExactly | src/disastrOS_exit.c:74-99 | over every run from boot every descriptor belongs to a process with a PCB if and only if no such wait occurs |
| Scenarios.DescriptorsCanBeLeft | src/disastrOS_exit.c:94-99 | a run after which a dead process has a descriptor and its resource cannot be destroyed |
| Whole.Machine.Serve | src/disastrOS.c:109-139 | any request that does not mix up queues and resources computes the stated step of the whole system and keeps it good |
| Whole.Machine.ServeCall | src/disastrOS_exit.c:35-93 | the kernel's part of a call is joined with the child's descriptors in spawn and fork and with the release loop of an answering exit |

## Left out

- Context switching, stacks, signal delivery, shutdown and the variadic entry of a system call: a trap or tick is one atomic step.
- Signals to parents and children (the `signals` and `signals_mask` fields): nothing in the kernel reads them.
- Printing, logging and the test programs.
- PCBs and queue entries as heap objects: the kernel class keeps them in a map and a sequence that its methods update, and its lists of processes are the sequences that `LinkedList` refines; each insertion of a process is proved to get one that is in no list, which is what `LinkedList.ListHead.Insert` asks for, but the aliasing of list nodes with PCBs is not captured.
- The identity of pool blocks in the kernel model: pools appear there by their number of free blocks; which block is handed out is in `PoolAllocator` and `PoolTheorems`.
- Overflow of C integers for times, pids and sizes: they are mathematical integers.
- Generic resource calls on the id of a queue, and queues that share an id with a generic resource.
- Uninitialised fields of a fresh PCB: the model sets them to 0.
- Exit of init, which reads a null pointer.
- ProcessInvariant.StepInv: which block a new PCB gets is not modelled, so an exit whose parent's PCB was freed is left out whenever a process younger than the caller is in a wait that matches it, also if that process has got another block.
- KernelMachine.Kernel.InternalExit: leaves out the same exits as `ProcessInvariant.StepInv`; of a parent whose PCB was freed it models what the source finds in all others, namely no matching wait.
- FamilyTheorems.MissesExactly: is about runs without those exits.
- The descriptor list of a freed PCB: the model keeps it under the dead pid, while the source starts an empty list when it reuses the block; the resource's side is the same.
