# A verified model of the kernel, its servers and its library

This project models a small ARM microkernel together with the user-level servers and library routines
built on it, and proves what they promise.

**The kernel.**  `KernelState` gives the state of the kernel (tasks and their queues, channels and
descriptors, poll lists, results) and, for every system call and interrupt, the state it leads to or the
panic it ends in.  `KernelInvariant` says what holds between any two calls, `KernelSteps` proves for each
call that it keeps it, and `KernelRuns` draws the consequences over every run from boot: no lost wakeups,
exact reference counts, first-come pairing, unreachable panics.

`KernelMachine` is the kernel as the source has it: a class whose methods change its tables step by step,
relink tasks and poll nodes, and drain lists in loops.  Its tables are those of `KernelTables`: the links
inside every task, every task queue, the heads of all poll lists, the nodes of all descriptors and the
linked free numbers of every task.  `IntrusiveLists` and `DescriptorPool` are single lists of these kinds,
`LinkedLists` all of them at once.  Ghost fields say which sequences and maps of `KernelState` the links
stand for; `Kernel.Now` is that state, and `Kernel.Valid` that all links agree with it.  Every method keeps
`Valid` and is proved to do to `Now` what `KernelState` says, so that every run of the specification is one
of the linked structures (`Kernel.Follow`).  `KernelPlans` has the facts about states that these
proofs need.

`KernelFrames` and `KernelNames` say what a step of one task leaves alone, `Scheduler` that no
ready task starves, `KernelEvents` that interrupts wake exactly the tasks that wait for them, `KernelIds`
that task ids are never given twice, and `KernelResults` what the calls hand back.  In `KernelState` each channel also carries the history of what was sent on it, asked
of it and met; the kernel's calls never read it.

**Protocols on the kernel.**  `LockServer` follows a lock through all interleavings of lockers, unlockers,
the single system calls of the server's loop and unrelated tasks.  `Rpc` follows one request and its reply
in the same way.

**Servers and library.**  `HashTable`, `RingQueue`, `ArpCache`, `PacketRing`, `Iovec`, `ClockServer`,
`ParseArgs`, `Numbers` and `Console` model the data structures and loops named in the table, each as
methods that work in place and are proved against a specification on values.  `PrintedNumbers` has the
laws of what printf prints, by its flags.

## Where the code does something unexpected

The model does what the code does, here too.

- `dup` onto an explicit number other than the old one leaves that number both open and free, or open and
  beyond the first unused one (`KernelSteps.DupOk` says exactly when the invariant survives).  Runs
  therefore exclude it; this is the predicate `KernelRuns.Safe`.
- `close` does not lower `poll_count`, so that is only an upper bound of the registered events
  (`KernelRuns.CloseAndPollCount`).
- `hashtable_reserve` fails once every cell has been used, even if it has seen a tombstone that it could
  reuse (`HashTable.Table.Reserve`).  As used cells never become unused, the address cache stops for good
  at the first new address after that (`ArpCache.ArpServer.Store`).
- The packet ring keeps an old `top` after `head` has wrapped, and wraps again while `tail` is below
  `head`; after a record is added in either situation the ring no longer holds records in order
  (`PacketRing.CleanIffHeld`).  A record that ends at the old `top` jams it: no number of packets taken out
  makes it empty again (`PacketRing.JammedForGood`).
- `strtoul` takes a digit equal to the base for a digit (`Numbers.ReadsAsUsual`).
- `parse_args` drops a last word that the line ends right behind, without a newline (`ParseArgs.LastWord`).
- Only the first newline of a message to the console gets a carriage return (`Console.ExpandedFully`).
- `parse_args` reads past the end of a line that ends within an escape: one that ends in an odd number of
  backslashes, with no newline outside quotes and escapes to stop it before (`ParseArgs.Split` and
  `ParseArgs.EscapeIsOdd`).

## Conventions

Tasks, channels and descriptors are numbers instead of addresses.  A panic is an outcome (`Panic` with its
reason, or `ok` being false), never a precondition, except where a row says so.  I/O, the UART, the clock
interrupt and the memory allocator are parameters or free choices.  Messages are sequences of numbers.

## Model

| member | source | states |
|---|---|---|
| `KernelRuns.StepOk` | kern/task.c:752-830 | From any state that satisfies the invariant, every enabled system call, interrupt or scheduling decision leads to such a state; the only panics are a message that does not fit its receiver and an empty ready queue, so the three refcount panics in close and the list panics cannot happen |
| `KernelRuns.RunOk` | kern/task.c:752-830 | The invariant holds after every run of such steps from a state that satisfies it |
| `KernelRuns.ReachableOk` | kern/task.c:34-51 | The state after boot satisfies the invariant, hence every state reachable from it does |
| `KernelRuns.BootOk` | kern/main.c:66-79 | Starting the idle task and the first user task from the initial state gives a state that satisfies the invariant |
| `KernelRuns.OnItsQueue` | kern/task.c:106-147 | Every task is on exactly one queue, once, the one its state dictates; the two counters are the numbers of live tasks and of live tasks that are not daemons |
| `KernelRuns.PairedInOrder` | kern/task.c:521-638 | The i-th message sent on a channel meets the i-th receive asked of it, those not met yet wait in that order, and never on both sides |
| `KernelRuns.Conserved` | kern/task.c:328-402 | Reference counts equal the numbers of open descriptors over all tasks, a channel is on the free list exactly when it has none, and the descriptor numbers a task has used are split between open ones and the free list |
| `KernelRuns.NoLostWakeup` | kern/task.c:469-518 | In every reachable state a task blocked in poll_wait has empty poll queues, and every event it polls is inactive and on its channel's poll list, where the next sender or receiver finds it |
| `KernelRuns.SleeperIsCalm` | kern/task.c:684-700 | The same, of any state that satisfies the invariant |
| `KernelRuns.PollPlacement` | include/kern/task.h:60-64 | Each poll node of an open descriptor is on exactly one of its channel's poll list, its owner's poll queue, or no list |
| `KernelRuns.HandlePollReports` | kern/task.c:480-507 | handle_poll on behalf of a task in poll_wait never panics, and if it lets the task run it has reported an event of the kind asked for that is registered and active |
| `KernelRuns.PollWaitReports` | kern/task.c:684-700 | poll_wait of a task with something registered leaves it blocked or returns an active event that it is registered for, and changes no registration, channel or channel queue |
| `KernelRuns.PollWaitReady` | kern/task.c:684-700 | A registered event that is active makes poll_wait return at once |
| `KernelRuns.TriggerNotifies` | kern/task.c:509-518 | Triggering a list of descriptors wakes exactly the tasks asleep in poll_wait that own one of them, tells each of its first, and changes no other task |
| `KernelRuns.TriggerEffect` | kern/task.c:509-518 | The same for the whole poll list of a channel, whose descriptors go, in order, to the ends of their owners' poll queues |
| `KernelRuns.NonblockingSend` | kern/task.c:578-582 | A send on a nonblocking descriptor or with the nonblocking flag never leaves its caller blocked |
| `KernelRuns.NonblockingReceive` | kern/task.c:619-623 | A receive on a nonblocking descriptor or with the nonblocking flag never leaves its caller blocked |
| `KernelRuns.SendMeets` | kern/task.c:521-569 | A sender that finds receivers pairs with the one that has waited longest: it gets the message and its length, both run again, and no third task changes |
| `KernelRuns.ReceiveMeets` | kern/task.c:521-569 | A receiver that finds senders pairs with the one that has waited longest, with the same effect |
| `KernelRuns.CloseAndPollCount` | kern/task.c:372-392 | Close leaves poll_count alone: a count equal to the number of linked nodes stays so exactly when the closed descriptor was not registered |
| `KernelSteps.SendOk` | kern/task.c:572-611 | send keeps the invariant; it panics only for a message that does not fit the receiver that waits |
| `KernelSteps.ReceiveOk` | kern/task.c:613-639 | recv keeps the invariant; it panics only for a message that does not fit |
| `KernelSteps.DeliverOk` | kern/task.c:521-569 | handle_receive pairs the first sender with the first receiver exactly when both queues have somebody, wakes both, and keeps everything but the calm of the poll lists |
| `KernelSteps.PollAddOk` | kern/task.c:641-666 | poll_add keeps the invariant: an event already active is queued with the task, not with the channel |
| `KernelSteps.PollRemoveOk` | kern/task.c:668-682 | poll_remove keeps the invariant |
| `KernelSteps.PollWaitOk` | kern/task.c:684-700 | poll_wait keeps the invariant and never panics |
| `KernelSteps.EventWaitOk` | kern/task.c:715-724 | event_wait keeps the invariant |
| `KernelSteps.InterruptOk` | kern/task.c:702-713 | Waking every task that waits for an event keeps the invariant |
| `KernelSteps.ScheduledOk` | kern/task.c:98-104 | schedule keeps the invariant, or panics for want of a task to run |
| `KernelSteps.ChannelOk` | kern/task.c:347-370 | channel keeps the invariant, whether the channel is new or recycled |
| `KernelSteps.CloseOk` | kern/task.c:372-392 | Closing an open descriptor of a running task keeps the invariant and reaches no panic: no task waits on a channel that loses its last descriptor, and nobody polls it |
| `KernelSteps.SysCloseOk` | kern/task.c:394-402 | close keeps the invariant and never panics |
| `KernelSteps.DupOk` | kern/task.c:413-441 | dup keeps the invariant if and only if it fails or newfd is -1, out of range or equal to oldfd; an explicit other newfd always breaks it |
| `KernelSteps.DupUnsafe` | kern/task.c:425-440 | After dup onto an explicit other number that number is open and at the same time free or not yet given out |
| `KernelSteps.CloseBelowOk` | kern/task.c:449-452 | Closing all descriptors of an exiting task closes those and nothing else, without panic |
| `KernelSteps.ExitOk` | kern/task.c:443-467 | exit keeps the invariant: the task holds nothing afterwards and is counted out |
| `KernelSteps.AllocTaskOk` | kern/task.c:150-180 | task_alloc gives a dead task that holds no descriptor, or fails exactly when none is free and no new one can be made |
| `KernelSteps.StartedOk` | kern/task.c:262-306 | Filling in a newly allocated task keeps the invariant |
| `KernelSteps.SpawnOk` | kern/task.c:241-307 | spawn keeps the invariant for every argument list and never panics |
| `KernelMachine.Kernel.constructor` | kern/task.c:34-50 | No task, channel or descriptor, and all queues of the kernel itself empty circles; this is the state that runs start from |
| `KernelMachine.Kernel.PickTask` | kern/task.c:98-104 | The loop over the priorities advances the first queue that is not empty, which comes to the state that the specification of schedule gives, and finds nothing exactly when that panics |
| `KernelMachine.Kernel.UnblockOne` | kern/task.c:707-713 | Advancing the queue and then moving the task that came up wakes the first task waiting for an event, if there is one |
| `KernelMachine.Kernel.UnblockAll` | kern/task.c:702-705 | The loop wakes all tasks waiting for an event, in order, as specified |
| `KernelMachine.Kernel.HandlePoll` | kern/task.c:480-507 | The loop over the linked list terminates, ends where the specification of handle_poll does, and never takes its panic; every link is in order afterwards |
| `KernelMachine.Kernel.PollTriggerAll` | kern/task.c:509-518 | The loop terminates, empties the channel's poll list, and comes to the same as one pass over the descriptors that were on it, although each turn calls handle_poll and relinks nodes |
| `KernelMachine.Kernel.HandleReceive` | kern/task.c:521-570 | Does what the specification of a delivery says, panics exactly when that does, and leaves every link in order |
| `KernelMachine.Kernel.Send` | kern/task.c:572-611 | Does what the specification of send says, panics exactly when that does, and leaves the invariant true and every link in order |
| `KernelMachine.Kernel.Receive` | kern/task.c:613-639 | The same for recv |
| `KernelMachine.Kernel.PollAdd` | kern/task.c:641-666 | Never appends a node that is already linked, and comes to the state that the specification of poll_add gives |
| `KernelMachine.Kernel.PollRemove` | kern/task.c:668-682 | Comes to the state that the specification of poll_remove gives |
| `KernelMachine.Kernel.PollWait` | kern/task.c:684-700 | Parks the caller and drains its two linked queues, which comes to the state that the specification of poll_wait gives |
| `KernelMachine.Kernel.EventWait` | kern/task.c:715-724 | Comes to the state that the specification of event_wait gives |
| `KernelMachine.Kernel.NewChannel` | kern/task.c:347-370 | Takes an idle channel, or memory for a new one, so that starting its queues and lists afresh drops nobody; comes to the state that the specification of channel gives |
| `KernelMachine.Kernel.CloseChannel` | kern/task.c:372-392 | Frees a number that is in use, takes both nodes off their lists, and reaches none of its three panics, whatever the task counters are |
| `KernelMachine.Kernel.CloseCall` | kern/task.c:394-402 | Comes to the state that the specification of close gives |
| `KernelMachine.Kernel.DupCall` | kern/task.c:413-441 | Does what the specification of dup says for every pair of numbers, links in order also where the invariant does not survive, which it does exactly when DupOk says |
| `KernelMachine.Kernel.CloseAll` | kern/task.c:449-452 | The loop closes all descriptors of the task in ascending order, after the counters have been lowered |
| `KernelMachine.Kernel.ExitTask` | kern/task.c:443-467 | Lowers the counters, closes, and moves the task to the free queue, which comes to the state that the specification of exit gives |
| `KernelMachine.Kernel.Inherit` | kern/task.c:287-297 | The loop copies the listed channels to the child's first descriptors, each with fresh nodes |
| `KernelMachine.Kernel.SpawnCall` | kern/task.c:241-307 | Comes to the state that the specification of spawn gives, for every argument list; the new task's links are in order whether it is new or reused |
| `KernelMachine.Kernel.TaskSyscall` | kern/task.c:752-830 | Every system call takes the linked structures to ones that stand for the state that the specification's step gives, and panics exactly when that does |
| `KernelMachine.Kernel.Boot` | kern/main.c:66-78 | From the initial state the two boot spawns come to the booted state that runs start from |
| `KernelMachine.Kernel.Follow` | kern/main.c:80-84 | Every run of the specification is one of the kernel: its system calls, interrupts and scheduling decisions, taken one after the other, end in structures that are all in order and stand for the run's last state, so this holds in every reachable state |
| `KernelMachine.InOneQueue` | kern/task.c:106-143 | With all links in order and the invariant, the links of every allocated task are in the circle of exactly one queue, the one that its state dictates and that it remembers, and every queue is a well-formed circle |
| `KernelMachine.OnOneList` | kern/task.c:219-239 | With all links in order, every poll list is a circle from its head, and the node of an open descriptor is in exactly the one that it is noted to be on, or in none |
| `LinkedLists.Relink` | kern/task.c:122-138 | Among all task queues at once: the task leaves the circle that it is in and is linked into the back of the given one, and every queue, touched or not, stays a circle through the tasks that it should have |
| `LinkedLists.Rotate` | kern/task.c:88-92 | The first task of a queue goes to its back, and all other queues are as before |
| `LinkedLists.AddLink` | kern/task.c:170-172 | A new task is linked into the back of a queue, and all queues stay in order |
| `LinkedLists.ChainAppend` | kern/task.c:219-228 | Among all poll lists and nodes at once: a node that is on no list is linked in at the back of one, and every list stays a circle through the nodes that it should have |
| `LinkedLists.ChainDelete` | kern/task.c:230-239 | A node is spliced out of the one list that it is on, alone afterwards, and every other list is as before; a node on no list is left alone |
| `LinkedLists.RoundsApart` | kern/task.c:219-239 | Different poll lists have no link in common, and nodes that are on no list are in none |
| `KernelTables.Tables.SetTaskState` | kern/task.c:140-143 | Moving a task keeps every task in the queue that it names and all queues, poll lists and number lists in order, and moves it in the sequences that the queues stand for |
| `KernelTables.Tables.Advance` | kern/task.c:88-92 | The first task of the queue is returned and goes to its back, everything else stays in order and as it was |
| `KernelTables.Tables.Append` | kern/task.c:219-228 | A node that is on no list goes to the back of one, everything else stays in order and as it was |
| `KernelTables.Tables.Delete` | kern/task.c:230-239 | A node leaves the list that it is on, if any; everything else stays in order and as it was |
| `KernelTables.Tables.AllocDesc` | kern/task.c:333-345 | The task's linked list of free numbers yields the number that the specification's sequence does; the numbers of all other tasks and all links stay as they were |
| `KernelTables.Tables.FreeDesc` | kern/task.c:328-331 | The number comes to the front of its task's list; the numbers of all other tasks and all links stay as they were |
| `KernelTables.Tables.AddTask` | kern/task.c:157-172 | The memory of a new task brings empty poll lists, unused numbers and a place at the back of the free queue, and disturbs nothing that was there |
| `KernelTables.Tables.AddChannel` | kern/task.c:353-364 | The memory of a new channel brings empty queues and lists and disturbs nothing that was there |
| `KernelTables.Tables.ClearChannel` | kern/task.c:362-364 | Starting the queues and lists of an idle channel afresh keeps everything in order |
| `KernelFrames.StepUndisturbed` | kern/task.c:752-830 | A step of one task leaves every other running task, its results, its descriptors and its poll registrations alone; one asleep in poll_wait sleeps on or is told of an event it registered for |
| `KernelFrames.StepSameChannel` | kern/task.c:572-638 | Only a send or receive on a channel, or its creation, changes who waits on it or what has been sent on it |
| `KernelFrames.OwnFdKept` | kern/task.c:394-441 | A task's own call leaves its open descriptors alone but for the one it names |
| `KernelFrames.SendShape` | kern/task.c:604-608 | What a send does to its channel: the message is queued behind the others, or goes to the first receiver |
| `KernelFrames.ReceiveShape` | kern/task.c:632-636 | What a receive does to its channel: it is queued behind the others, or takes the first message |
| `KernelNames.StepWrites` | kern/task.c:545-568 | Across any step a descriptor is ended only by its own task, opened only by its own task, in a new task or in a task that is sent a message, and then on a new channel, on one that the actor named, or on the one that came with a message |
| `KernelNames.StepBlocks` | kern/task.c:594-602 | Only a send makes a task block sending, and then its own caller with the message and channel it named |
| `KernelEvents.EventWaitQueues` | kern/task.c:715-724 | After an accepted event_wait the caller is blocked, last in the queue of the event that it named and of no other, with result -5; no other event's queue and no other task changes |
| `KernelEvents.EventWaitRefused` | kern/task.c:716-717 | For an event that there is not, event_wait returns -3 at once |
| `KernelEvents.InterruptWakes` | kern/task.c:702-713 | An interrupt makes exactly the tasks in the queue of its event run, each with the interrupt's result, and leaves every other task and queue alone |
| `KernelEvents.StepWaiting` | kern/task.c:702-724 | Of all steps only event_wait adds to the tasks that wait for an event, and only an interrupt of that event takes them away |
| `KernelEvents.WaitersAreCallers` | kern/task.c:702-724 | In every reachable state the tasks that wait for an event are those that have called event_wait for it since its last interrupt, in that order; they are blocked |
| `KernelEvents.WokenByTheirEvent` | kern/task.c:702-724 | After any run an interrupt makes exactly the tasks run that have called event_wait for its event and not been woken since, each with its result; every other task stays as it is |
| `KernelIds.TidParts` | include/kern/task.h:14-16 | The index and the generation can be read off an id again |
| `KernelIds.TidsDiffer` | include/kern/task.h:14-16 | Different tasks have different ids |
| `KernelIds.SpawnFails` | kern/task.c:244-257 | When spawn fails and with which of -3, -9 and -4; nothing but the result changes then |
| `KernelIds.SpawnReturns` | kern/task.c:257-306 | A spawn that succeeds returns the id of the task that it has started, which runs, last in the ready queue of the priority asked for, with the caller's id as parent; no task has that id before, nor has had it, and no other task changes |
| `KernelIds.StepGens` | kern/task.c:172-176 | No step but spawn changes how often a place in the lookup table has been taken |
| `KernelIds.IdsNew` | kern/task.c:241-306 | Over any run no id is returned twice, and none that a task had before it |
| `KernelIds.IdsUnique` | kern/task.c:241-306 | From boot on spawn never returns an id twice, nor that of one of the two first tasks, and in every reachable state different tasks have different ids |
| `KernelResults.FlagBit` | kern/task.c:576-580 | The bit tests on flags give the binary digit at its place, for negative flags too |
| `KernelResults.SendRefused` | kern/task.c:573-594 | send returns -9 for a closed descriptor, for one not good for sending and for a closed one to pass on, and -15 if it would block and must not; nothing else changes |
| `KernelResults.ReceiveRefused` | kern/task.c:614-623 | recv returns -9 for a closed descriptor or one not good for receiving, and -15 if it would block and must not; nothing else changes |
| `KernelResults.PollAddRefused` | kern/task.c:642-650 | poll_add returns -9 for a closed descriptor, and if any event asked for is not permitted by it |
| `KernelResults.PollAddRegisters` | kern/task.c:652-665 | Otherwise it returns 0; each event asked for and not registered yet is registered and counted, in the caller's own queue if it is active and else on its channel's list; other registrations stay |
| `KernelResults.PollRemoveUnregisters` | kern/task.c:668-682 | poll_remove returns -9 for a closed descriptor, and else 0 with exactly the events named not registered any more and counted out |
| `KernelResults.PollWaitRefused` | kern/task.c:685-690 | poll_wait returns -3 for a task with nothing counted as registered, and -16 for one that gives no place for the result |
| `KernelResults.ChannelRefused` | kern/task.c:348-350 | channel returns -8 for a task that has all 64 numbers in use |
| `KernelResults.ChannelOpens` | kern/task.c:352-369 | Otherwise its result was not open before and is the only descriptor of a channel on which nobody waits, good for sending and receiving, with a count of one; no other descriptor changes |
| `KernelResults.CloseEnds` | kern/task.c:394-402 | close returns -9 for a closed descriptor, and else 0 with exactly that descriptor gone |
| `KernelResults.DupRefused` | kern/task.c:414-430 | dup returns -9 for a closed descriptor or an impossible number, and -8 if the kernel is to choose a number and none is left |
| `KernelResults.DupCopies` | kern/task.c:420-441 | Otherwise its result is the number asked for, or one that was not open, and that is a copy of the old descriptor, or the old one itself with the new flags; no other descriptor changes |
| `IntrusiveLists.TaskQueue.constructor` | kern/task.c:80-82 | An empty queue |
| `IntrusiveLists.TaskQueue.Advance` | kern/task.c:88-92 | The first task is returned and goes to the back; the links stay a circle through exactly the queued tasks |
| `IntrusiveLists.TaskQueue.Enqueue` | kern/task.c:106-120 | The task is linked in at the back |
| `IntrusiveLists.Dequeue` | kern/task.c:122-133 | The task is taken out of the queue that it remembers, the others stay linked in order, and the queue's start is right, also when the task was first or alone |
| `IntrusiveLists.Move` | kern/task.c:135-138 | Out of one queue and to the back of another, or of the same |
| `IntrusiveLists.SingletonIs` | kern/task.c:208-217 | A node is a singleton exactly when its circle has one element |
| `IntrusiveLists.NodeAppend` | kern/task.c:219-228 | A single node is linked in at the back of a list with a head |
| `IntrusiveLists.NodeDelete` | kern/task.c:230-239 | The node is single afterwards and the others stay linked in order; a single node is left alone |
| `IntrusiveLists.Rotated` | kern/task.c:88-92 | A circle of links may be read from any place |
| `DescriptorPool.Descriptors.AllocDesc` | kern/task.c:333-345 | The list of free numbers linked through the descriptors is the sequence that the kernel's specification uses: the number given out was free or never used, and none is left exactly when the list is empty and all have been used |
| `DescriptorPool.Descriptors.FreeDesc` | kern/task.c:328-331 | A freed number comes to the front of the list, which stays acyclic |
| `DescriptorPool.LastFreedFirst` | kern/task.c:328-345 | A number that is freed is the next one given out, and the pool is then as before |
| `Scheduler.StepNotPassed` | kern/task.c:88-120 | No step of another task, interrupt or pick of another task lets anyone come in before a ready task: it stays ready at its priority, and no further back |
| `Scheduler.NoStarvation` | kern/task.c:88-120 | A ready task with p tasks before it is passed over by at most p picks from its level, whatever else happens in the meantime |
| `Scheduler.PicksHighest` | kern/task.c:98-104 | schedule picks the first task of the highest priority that has any |
| `Scheduler.IdleLives` | kern/main.c:24-27 | While it only suspends, the idle task stays ready through every run |
| `Scheduler.AlwaysSomethingToRun` | kern/main.c:69-84 | The panic in schedule is not reached after boot as long as the idle task does nothing but suspend |
| `LockServer.MoveOk` | servers/lock.c:71-111 | Every move of a locker, of a holder that unlocks, of the server's loop or of any other task keeps the lock in order |
| `LockServer.MutualExclusion` | servers/lock.c:40-49 | However the moves interleave, the tasks that hold the lock and those that are giving it back are together at most one, where acquiring adds a holder to any there are and only unlocking removes one; lockers acquire it in the order in which they called, direct hand-over included |
| `LockServer.AcquiredWhenFree` | servers/lock.c:40-49 | A move in which the lock is acquired finds no holder, or is the unlocking of the only one, and leaves the acquirer as the only holder |
| `LockServer.LockCallOk` | servers/lock.c:43-45 | lock_channel never panics; it waits, or takes the lock straight from a task that is giving it back |
| `LockServer.UnlockCallOk` | servers/lock.c:47-49 | unlock_channel by a holder never panics; it hands over to the first waiting locker, or waits for the server |
| `LockServer.ServerTakeOk` | servers/lock.c:96-101 | The server's receive for a reported RECV takes the lock for the first locker, or finds that there is none any more and goes on |
| `LockServer.ServerGiveOk` | servers/lock.c:102-107 | The server's send for a reported SEND completes an unlock, or finds that a locker was faster and goes on |
| `LockServer.ServerWaitOk` | servers/lock.c:71-72 | poll_wait reports only an event that the server polls |
| `LockServer.RegisteredOk` | servers/lock.c:82-83 | A channel that the server has just begun to poll for RECV is a free lock, with those already sending on it as waiting lockers |
| `LockServer.FreeWhenOffered` | servers/lock.c:96-107 | Nobody owns the lock exactly while the server polls for lockers |
| `LockServer.ServerNotAsleep` | servers/lock.c:71-72 | A free lock with a waiting locker, or a task waiting to give it back, never finds the server asleep in poll_wait, and its next poll_wait returns at once |
| `LockServer.LockRunOk` | servers/lock.c:71-111 | The order is kept over every run |
| `Rpc.BeginOk` | lib/msg.c:9-10 | After making the reply channel only the client holds it and nothing has been sent on it |
| `Rpc.SendCallOk` | lib/msg.c:23-27 | The request waits on the service channel or is handed to a waiting task, which then, with the client, holds the reply channel |
| `Rpc.TakeOk` | lib/msg.c:51-57 | A receive on the service channel that takes the request hands its receiver the request and a new descriptor of the reply channel; nobody else gets one |
| `Rpc.AskCallOk` | lib/msg.c:29-33 | The client's receive on the reply channel returns the reply if it is there, else waits for it |
| `Rpc.ReplyCallOk` | lib/msg.c:66-76 | The reply goes to the client that waits, or waits for it |
| `Rpc.CloseCallOk` | lib/msg.c:35-37 | After its close the client has exactly the descriptors it had before the call and one that came with the reply, if any |
| `Rpc.DropCallOk` | lib/msg.c:78-79 | After its close the server has all its descriptors but the one that came with the request |
| `Rpc.OthersOk` | lib/msg.c:9-80 | No step of any other client, server or task disturbs the call: who holds the reply channel, what was sent on it, and what the client was told stay as they are |
| `Rpc.MoveOk` | lib/msg.c:9-80 | Every move keeps the call in order; the request is only received by being handed over, and only its receiver answers it |
| `Rpc.OwnReply` | lib/msg.c:9-80 | Over every run: when the client's receive has returned, it has returned exactly the reply sent, on the descriptor handed over with this request, by the task that was handed this request |
| `Rpc.ReplyChannelFreed` | lib/msg.c:35-79 | The reply channel is back on the free list in the very step in which the second side closes it |
| `Rpc.History` | lib/msg.c:9-80 | In every run an answered request was handed over earlier in the run and answered by a reply of the task it was handed to |
| `Rpc.SendDoes` | kern/task.c:572-611 | A send that is not refused queues the message on the channel or hands it, with the descriptor that travels with it, to the task that has waited longest, which is told of its length |
| `Rpc.ReceiveDoes` | kern/task.c:613-639 | A receive that is not refused waits on the channel or takes the first message |
| `HashTable.Table.constructor` | lib/lib.c:34-44 | A table with no keys |
| `HashTable.Table.Get` | lib/lib.c:46-61 | Finds the cell of the key exactly when the key is in the map that the table stands for, for any hash function and size |
| `HashTable.Table.Reserve` | lib/lib.c:63-83 | Gives the cell of the key, or one that may be given to it; it fails exactly when the key is absent and every cell has been used, tombstones included |
| `HashTable.Table.Put` | include/hashtable.h:65-68 | Filling in a reserved cell and activating it adds the key to the map and changes no other |
| `HashTable.Table.Delete` | include/hashtable.h:61-64 | Removes exactly the key of the cell, and keeps every cell reserved for another key reserved |
| `HashTable.Activated` | include/hashtable.h:65-68 | Activating a reserved cell keeps every active key reachable along used cells and unique |
| `HashTable.Deleted` | include/hashtable.h:61-64 | A tombstone keeps probe paths intact and reservations valid |
| `HashTable.ProbeMissed` | lib/lib.c:46-61 | A probe that meets an unused cell, or comes all the way round, without meeting the key proves the key absent |
| `HashTable.AllPassed` | lib/lib.c:73-78 | A probe that comes all the way round has met every cell, so all have been used |
| `ArpCache.ArpServer.Store` | servers/net.c:353-385 | Stores as a bounded first-in-first-out cache does: a known address keeps its age, a new one takes a free cell or the oldest entry's; it runs out exactly when the address is new and every table cell has been used, and used cells never become unused |
| `ArpCache.ArpServer.Query` | servers/net.c:419-427 | Finds an address exactly when the cache has it, with the hardware address stored last for it |
| `ArpCache.ArpServer.constructor` | servers/net.c:394-402 | An empty cache |
| `ArpCache.ReplacedEntry` | servers/net.c:367-384 | Evicting the oldest entry and giving its cell to the new address keeps the queue, the table and the cells consistent: distinct addresses own distinct cells that fill exactly the first ones |
| `ArpCache.AddedEntry` | servers/net.c:375-384 | So does taking the next cell |
| `ArpCache.HoldsNewest` | servers/net.c:353-385 | After any pairs have been stored, what the cache holds of an address is what was stored last for it |
| `ArpCache.HoldsLast` | servers/net.c:353-385 | Of different addresses stored one after the other the cache holds exactly the last ones, as many as there is room for, in that order |
| `ArpCache.UpdatedEntry` | servers/net.c:359-364 | So does updating a known address, which changes its hardware address only |
| `RingQueue.Queue.Push` | lib/lib.c:13-14 | Adds at the back of what the circular buffer holds |
| `RingQueue.Queue.Pop` | lib/lib.c:17-18 | Takes from the front of what the circular buffer holds |
| `PacketRing.RecSize` | servers/net.c:448-451 | A record's size is that of its header and data rounded up to a word |
| `PacketRing.PoppedHolds` | servers/net.c:453-466 | pop_pkt takes the oldest record, finds none exactly when there is none, and leaves the others |
| `PacketRing.AddedHolds` | servers/net.c:468-488 | A record that is added cleanly goes behind the others, which stay intact; of the old ones only the oldest leave, and only those that are in its way |
| `PacketRing.RecordsApart` | servers/net.c:434-466 | The records in the ring are intact, within the buffer and do not overlap |
| `PacketRing.CleanIffHeld` | servers/net.c:475-486 | After a record is added the ring holds some records in order if and only if it was added cleanly: no second wrap while tail is below head, and no record that ends where top is left |
| `PacketRing.NothingHeld` | servers/net.c:453-466 | A ring whose last record ends at top, or whose head is behind the end of its lap, holds no records in order, whatever is in memory |
| `PacketRing.HoldsRunsEmpty` | servers/net.c:453-466 | A ring that holds records is empty after as many of them have been taken out |
| `PacketRing.JammedForGood` | servers/net.c:453-466 | A ring whose last record ends at top never becomes empty by taking packets out, whatever is in its memory |
| `PacketRing.TwoHalves` | servers/net.c:475-486 | Two records of half the buffer's size in a row jam the ring for good |
| `PacketRing.PacketBuffer.PopPkt` | servers/net.c:453-466 | Does what the specification of pop_pkt says |
| `PacketRing.PacketBuffer.AllocPkt` | servers/net.c:468-488 | Does what the specification of alloc_pkt says; finds no place exactly for a size not below the buffer's |
| `PacketRing.PacketBuffer.Dispatch` | servers/net.c:528-537 | Allocating a place and filling it in adds the record as specified |
| `Iovec.IovLength` | lib/iovec.c:6-11 | The number of bytes that the list covers |
| `Iovec.Iter.Advance` | lib/iovec.c:20-27 | Steps over used and empty buffers without losing a byte; nothing is left in the current buffer exactly when nothing is left at all |
| `Iovec.IovCopy` | lib/iovec.c:29-51 | For disjoint buffers it panics exactly when the source is longer than the destination; otherwise the destination begins with the source's bytes, and its other bytes and all other memory are as before |
| `Iovec.FlatIsAddressed` | lib/iovec.c:6-18 | The bytes of a list of buffers are those at the addresses it covers, in order |
| `Iovec.CopyStep` | lib/iovec.c:42-49 | Copying the shorter of the two current buffers extends the copied part by its length and changes nothing else |
| `ClockServer.Push` | servers/clock.c:55-65 | Keeps the heap order and adds exactly the new delay |
| `ClockServer.Pop` | servers/clock.c:32-53 | Keeps the heap order and takes out exactly the first delay, which is due no later than any other |
| `ClockServer.FirstIsDue` | servers/clock.c:93 | The first element of a heap is due no later than any other |
| `ClockServer.ClockServer.Tick` | servers/clock.c:89-96 | A tick answers its notifier and every delay that is due, and leaves exactly those that are not |
| `ClockServer.ClockServer.Handle` | servers/clock.c:83-121 | Each message does what the server's specification says, error cases included |
| `ClockServer.NextPromised` | servers/clock.c:83-121 | Every message adds exactly the one answer it is entitled to, to be given when it falls due, and everything pending lies in the future |
| `ClockServer.AnsweredOnTime` | servers/clock.c:83-121 | Over every run an answer whose time has come has been given exactly as often as messages are entitled to it, and none has been given early |
| `ClockServer.ClockIs` | servers/clock.c:83-121 | The server's time is the number of ticks so far, and what is pending is, by the messages alone, the delays asked for that are not over yet, of which there are never more than 5000 |
| `ClockServer.AnsweredAsAsked` | servers/clock.c:83-121 | The same on the messages alone: after any of them every answer has been given as many times as there are messages that ask for it, if its time has come, and never before |
| `ClockServer.TimeAnswered` | servers/clock.c:115-117 | After k ticks a request for the time is answered at once with k |
| `ClockServer.DelayAnswered` | servers/clock.c:98-114 | A delay of at least four bytes by ms > 0, after k ticks and with fewer than 5000 waiting, asks for the answer 0 at tick k + ms and for no other; that answer is there from that tick on and never before |
| `ClockServer.RefusedAnswered` | servers/clock.c:98-120 | Delays that are too short, over at once or too many are answered at once with -3, 0 and -4, and unknown messages with -7 |
| `ParseArgs.Split` | lib/lib.c:86-138 | On every line: a read behind a backslash takes the NUL at the end of the line exactly when the line ends within an escape; otherwise the in-place parse yields exactly the specified arguments, each ended by a NUL within the line's buffer, its write cursor at or before the read cursor; nothing behind the line is touched |
| `ParseArgs.EscapeIsOdd` | lib/lib.c:95-128 | A line ends within an escape if and only if no newline outside quotes and escapes stops the parse before and an odd number of backslashes ends the line |
| `ParseArgs.LoneBackslash` | lib/lib.c:122-123 | The line of a single backslash is read past its end; one of two backslashes, and one with a newline before its last backslash, are not |
| `ParseArgs.WordsSplit` | lib/lib.c:107-128 | A line of words without quotes and backslashes, with blanks and tabs between them, gives exactly those words, as many as there is room for, whatever follows its newline |
| `ParseArgs.LastWord` | lib/lib.c:107-138 | Without a newline the last word is found exactly if something separates it from the end |
| `ParseArgs.BackslashedParsed` | lib/lib.c:122-130 | Outside quotes a backslash takes any character into the word but a newline |
| `ParseArgs.QuotedStays` | lib/lib.c:86-138 | A line of quoted arguments is never read past its end |
| `ParseArgs.QuotingUndone` | lib/lib.c:86-138 | Parsing the quoted and escaped form of a list of arguments gives the list back exactly when it has no empty argument and no more than there is room for |
| `ParseArgs.EscapedParsed` | lib/lib.c:95-105 | Inside quotes, escaping is undone character by character |
| `ParseArgs.LineParsed` | lib/lib.c:93-131 | A line of quoted arguments adds exactly those arguments |
| `ParseArgs.WordsFound` | lib/lib.c:111-118 | No line yields an empty argument or more arguments than there is room for |
| `Numbers.U2a` | lib/printf.c:87-118 | Writes exactly the digits of the number in front of end, none for zero, and nothing else |
| `Numbers.U2ab` | lib/printf.c:98-129 | The same by masking and shifting, for a base that is a power of two |
| `Numbers.DigitsValue` | lib/printf.c:87-95 | The digits stand for the number, and each is below the base |
| `Numbers.BufferSuffices` | lib/printf.c:6-8 | The digits of any 64-bit number in any base from 8 up fit the buffer |
| `Numbers.Printer.Pad` | lib/printf.c:41-50 | Prints exactly the padding asked for, in chunks |
| `Numbers.Printer.FmtInt` | lib/printf.c:132-199 | Prints the number with sign, prefix, precision and width as specified, and returns the number of characters printed |
| `Numbers.FormattedLength` | lib/printf.c:166-199 | That number is the larger of the width and of sign, prefix and the larger of precision and digits together |
| `Numbers.LayoutIsFormatted` | lib/printf.c:166-197 | The two paddings the code computes give the field that is wanted in every combination of flags |
| `Numbers.Printer.FmtStr` | lib/printf.c:52-74 | Prints the string, cut to the precision, in its field, and returns the number of characters printed |
| `Numbers.ReadUnsigned` | lib/lib.c:149-159 | Reads the longest front of digits up to the base, wraps around at 32 bits, and stops behind it |
| `Numbers.ReadSigned` | lib/lib.c:161-172 | Reads at most one sign and then such digits, takes the value in two's complement, and stops behind them |
| `Numbers.ReadsAsUsual` | lib/lib.c:153 | strtoul stops where a reader of proper digits does if and only if no digit equal to the base follows there |
| `Numbers.ReadsTooFar` | lib/lib.c:153 | In base 8 the text 18 is read as 16 instead of 1 |
| `Numbers.WrapEarly` | lib/lib.c:154 | Wrapping around at every digit is the same as wrapping around once |
| `Numbers.DecimalRoundTrip` | lib/lib.c:161-172 | strtol gives back every 32-bit number printed by %d, with any flags, precision and width, exactly when it is zero or no blank precedes it |
| `Numbers.UnsignedRoundTrip` | lib/lib.c:149-159 | strtoul gives back every 32-bit number printed by %x, %X or %o exactly when it is zero or neither a blank nor a prefix precedes it |
| `PrintedNumbers.DigitChars` | lib/printf.c:76-81 | The digits are 0 to 9 and a to f, or A to F, and are read as what they stand for |
| `PrintedNumbers.TextShows` | lib/printf.c:132-165 | The digits shown are those of the number, without its sign, in base 10, 8 or 16, wrapped around at 32 bits unless it is long long, with no leading zero and none at all for zero |
| `PrintedNumbers.SignShown` | lib/printf.c:136-146 | A negative number has a minus sign; any other what the flags ask for, plus before blank; an unsigned one nothing |
| `PrintedNumbers.PlainNumber` | lib/printf.c:166-199 | Without the hash flag, and for zero and for decimals, the output is the sign, the zeros that precision or filling asks for, and the digits, in a field of blanks, with no prefix of any kind |
| `PrintedNumbers.HexNumber` | lib/printf.c:162-166 | With the hash flag a hexadecimal number other than zero is preceded by exactly 0x, or 0X for the upper case |
| `PrintedNumbers.OctalNumber` | lib/printf.c:162-165 | With the hash flag the digits of an octal number other than zero are preceded by at least one zero |
| `PrintedNumbers.BlankFirst` | lib/printf.c:176-190 | A blank comes first exactly if it is the sign, or the field is wider than the number and neither filled with zeros nor left-adjusted |
| `PrintedNumbers.DecimalReadBack` | lib/lib.c:161-172 | strtol reads back every 32-bit number printed by %d exactly when it is zero or, by the flags, width and precision, no blank comes first |
| `PrintedNumbers.UnsignedReadBack` | lib/lib.c:149-159 | strtoul reads back every 32-bit number printed by %x, %X or %o exactly when it is zero, or by the flags, width and precision no blank comes first and the hash flag has not put a prefix before it |
| `PrintedNumbers.ByteInHex` | lib/printf.c:98-129 | %02x prints every byte as its two digits |
| `PrintedNumbers.ByteReadBack` | lib/lib.c:149-159 | strtoul reads that back |
| `PrintedNumbers.CutAt` | lib/printf.c:55-62 | A string is shown up to its NUL or the precision, whichever comes first |
| `PrintedNumbers.StringField` | lib/printf.c:63-73 | In its field a string has blanks before it, or with the minus flag behind it, and no other character |
| `PrintedNumbers.NullShown` | lib/printf.c:53-54 | A null pointer is shown as (null) |
| `Console.Transmitter.Drain` | servers/console.c:109-110 | Sending queued bytes loses and reorders none |
| `Console.Transmitter.NotifyMsg` | servers/console.c:100-106 | Is answered once and keeps all bytes in order; interrupts are on if something still waits |
| `Console.Transmitter.WriteMsg` | servers/console.c:107-145 | Is answered once: with 0 exactly when all of the message, with a carriage return before its first newline, has been sent or queued behind the earlier bytes, and with ENOMEM when only a proper beginning of it has and the queue is full |
| `Console.RunConserves` | servers/console.c:95-151 | Over every run the bytes sent followed by those queued are the accepted parts of the messages in order, and every message has had exactly one reply |
| `Console.FirstNewline` | servers/console.c:113-138 | A message comes out as it is, but for a carriage return before its first newline |
| `Console.RunAnswers` | servers/console.c:95-151 | Notifications are answered 0, unknown messages -7, and writes 0 if the whole message was accepted and else -4 |
| `Console.ExpandedFully` | servers/console.c:113-138 | Every newline of a message gets its carriage return if and only if the message has at most one |

## Left out

- KernelSteps.DupUnsafe: what later calls do after an unsafe dup is not followed up.
- KernelMachine.Kernel.NewChannel: the free list of channels is a sequence and the descriptor tables are a map in this class; only task queues, poll lists and free descriptor numbers are linked structures.
- KernelMachine.Kernel.SpawnCall: the nodes of a reused task keep their links where the original clears them to NULL; both are made anew before a descriptor is opened.
- KernelMachine.Kernel.Follow: interrupts carry the number of an event that there is.
- KernelIds.IdsUnique: generations are unbounded; in the original's 32 bits a place that is taken 2^20 times comes to its first id again.
- KernelSteps.SpawnOk: task ids are generation and index without 32-bit wrap-around, and whether memory for a new task can be had is a parameter.
- KernelRuns.StepOk: stack overflow checks, register contents other than results, faults in user code and `sysrq` are not part of this model; `gettid`, `getptid`, `yield`, `chanflags` and `taskstat` are calls that only return some value.
- Rpc.OwnReply: `lib/msg.c` is modelled by its system calls as moves of a state machine, since other tasks run between them; message code and status are the first bytes of the messages, and the exits on a failed call are not part of this model.
- Rpc.MoveOk: a reply that does not fit the client's buffer, or carries a channel that the client does not want, ends in the kernel's panic, which is an outcome of the step and not a move.
- LockServer.MutualExclusion: assumes that tasks keep to the protocol (only a task that holds the lock unlocks, and it does not lock again before); registering a lock is only its outcome, and unregistering is left out since no caller can know the descriptor it needs.
- ClockServer.ClockServer.Handle: times are unbounded integers, so the overflow of a delay added to the time is not modelled.
- PacketRing.PacketBuffer.AllocPkt: memory beyond the buffer reads as zero; a data length of which a record size would wrap around is not modelled.
- PacketRing.CleanIffHeld: for the same reason; stale bytes that are read as such a length after a wrap while tail is below head are not followed.
- ParseArgs.Split: what is done after a read past the end of the line depends on the memory behind it and is not modelled.
- PacketRing.AddedHolds: the hash table from ports to buffers and the tasks waiting for packets are left out.
- Numbers.Printer.FmtInt: the print function never fails, and the parsing of format strings is left out.
- Numbers.U2ab: masking and shifting are remainder and quotient by a power of two.
- ArpCache.ArpServer.Store: the panic when the table is used up is the result false; hardware addresses are single numbers.
- Console.Transmitter.WriteMsg: the receiving half of the console and the receive errors that the loop skips are left out.
- HashTable.Table.Get: keys are numbers compared for equality; custom comparison functions and string keys are left out.
- The game of life, the file server, netconsole, packet building and dispatch, the shell, benchmarks and tests: not part of this model.
- Device drivers, the MMU, caches, the interrupt controller, context switch and boot of the hardware: not part of this model.
