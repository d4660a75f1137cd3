# A verified model of disastrOS

disastrOS is a small teaching kernel: one process runs at a time, system calls run with the
timer signal masked, and a timer interrupt can fall between any two of them. Its state is a
handful of intrusive doubly linked lists (ready, waiting, zombie, timers, resources,
descriptors, queue users) over blocks that come from free-list pools, and its message queues
block and wake processes through those lists.

This project models the kernel in Dafny on two levels and proves what each level is for.

**The heap level.** `linked_list.dfy`, `pool_allocator.dfy` and the class in `timers.dfy` have the
program's own form: classes with pointers, arrays and loops. `process_lists.dfy` puts the three
process lists over one universe of list items, so that an item is in at most one list, and
`queue_users.dfy` does it for the user lists of the queues with their pool. `kernel_heap.dfy` is
the kernel on top of the process lists and the timer list: scheduling, sleep, wait, exit, spawn,
the blocking half of send and receive and the wake-up work on linked items. Children,
descriptors, queue records, user lists and messages are fields that hold the same maps and
sequences as the state machine does, so that the calls which change only those (open, close,
attributes, unlink, and the checks of send and receive) are statement forms of the machine's
functions, and nothing is claimed for them beyond that. `resource_table.dfy` has the resource
calls as loops and assignments over such fields, without pointers.

**The state machine** (`kernel_model.dfy`, `kernel_run.dfy`) has one step for each system call and
one for the timer interrupt. Code that runs outside the kernel is split at the points where it
can be interrupted: `dmq_send` and `dmq_receive` are a small program counter (before the first
call, after a call without a transfer, back from the preemption, between the transfer and the
wake-up), `dmq_open` is two steps and `dmq_close` one step for each list it touches. A run is any
sequence of enabled steps from the boot state, so it covers every interleaving of any number of
processes. `kernel_refines.dfy` has a method for each of the sixteen steps (two for a transfer)
that takes the heap kernel to the state in which the machine ends up. For the steps that move
processes or timers this is a refinement of sequences by linked lists; for the others the two
sides share their representation.

`kernel_theorems.dfy` holds the main results; the files `kernel_inv.dfy`, `kernel_sched.dfy`,
`kernel_ipc.dfy`, `kernel_open.dfy`, `kernel_core.dfy`, `kernel_family.dfy`,
`kernel_counts.dfy`, `kernel_queues.dfy`, `kernel_wakeups.dfy`, `kernel_fair.dfy` and
`kernel_registry.dfy` prove that every step keeps the parts of the invariant behind them. Further
results have files of their own: `kernel_calls.dfy` (the checks of send and receive),
`kernel_sizes.dfy` (message sizes and buffers), `kernel_stuck.dfy` (waits that never end),
`kernel_roundtrip.dfy` (close undoes open) and `kernel_values.dfy` (why the machine may ask
whether a queue is there where the code tests an address).

What each step does is stated a second time without the functions of the machine: which process
leaves which list for which place, what every register, descriptor, entry and message is
afterwards, and that nothing else changes. `kernel_order.dfy` has this for the wake-up call,
`kernel_time.dfy` for time and sleep, `kernel_answers.dfy` for exit, wait and spawn,
`kernel_effects.dfy` for scheduling and the transfer of messages, `kernel_lifecycle.dfy` for open,
close, unlink and the attributes, and `resource_effects.dfy` for the resource calls. Results over
runs stand on these statements: nobody is overtaken by a later waiter (`NoOvertaking`), the time is
the number of interrupts (`TimeIsTicks`), a sleep ends with the first scheduling step that finds
its cycles elapsed and not before (`SleepLasts`, `SleepEnds`), a send or receive transfers exactly
one message, the one it was given (`OneTransferPerCall`, `SendsItsMessage`), and a queue on which a
reaped child left a descriptor can never be unlinked (`OrphanStays`, `OrphanRefused`).

`resource_graph.dfy`, `resource_runs.dfy` and `resource_queues.dfy` treat resources, descriptors,
descriptor pointers and queue blocks, which have runs of their own, and `kernel_resources.dfy`
runs both machines side by side: the running process makes the resource calls, and exit and wait
of the kernel release or drop the descriptors. `kernel_examples.dfy`, `kernel_overrun.dfy` and
`kernel_nonblocking.dfy` hold concrete runs.

## Hypotheses

`KernelRun.Enabled` states the conditions under which runs are considered:

- A process that has just blocked on a queue is still the running process. When it is
  preempted or tries again, it must not be alone in the waiting list (`SafeSchedule`,
  `SafeBlock`). `ScheduleSafeIff` and `BlockSafeIff` show that these conditions are exact, and
  `SteadyWaiterSuffices` that any other parked process that does not sleep, for example init in
  `wait`, establishes both.
- A process that exits is not init and has no children left; `ExitFamilyIff` shows that this is
  exactly when exit leaves the family in order.
- Messages are handed over as 128 bytes and a message size is at most 128.
- A process is spawned only while a control block and an entry for the parent's list of children
  are free. Without the first, PCB_alloc writes through the null pointer at disastrOS_pcb.c:44
  before disastrOS_spawn.c:15 can test it; without the second, PCBPtr_alloc does at
  disastrOS_pcb.c:66.
- Once a queue was unlinked, no new id is opened; ids whose queue exists or is being opened still
  are. Otherwise openQueue may find the address of the old queue in the new resource and not
  allocate one. `ValueTellsQueue` shows that under this hypothesis the test of the address is, in
  every state of every run, the question whether the queue is there; `OpenAgreesIff` gives the
  exact condition for one open, and `UnlinkedIsNext` shows that it fails right after an unlink.

## Findings

Things the code or its comments promise that do not hold, each with a proof:

- The link test at linked_list.c:35-36 does not recognise the only member of a list, whose links
  are null. A process that blocks on a queue while nobody else waits is put into the ready list
  as well by the next scheduling step (`FirstBlockIsUnsafe` is such a run from boot), and a second
  insertion into the list it is in makes it its own neighbour (`Insert`).
- Raising `max_messages` while a writer waits can leave the writer parked beside a free place
  with nobody on the way to wake it (`RaisingStrandsWriter`). `WritersCoveredIff` is exact over
  runs: it never happens exactly when every change of the limit is refused, finds no writer
  waiting, or leaves no more room than there are wake-ups in flight.
- The check at disastrOS_wait.c:33-41 cannot fire: after the scan the cursor is never null.
  The error goes exactly to callers without children (`WaitErrorIffChildless`). `wait` for a pid
  that is not a child reaps the last child, when that is a zombie, and otherwise parks the caller
  (`StrangerOutcome`), and then no step of any run ever wakes it (`NeverWoken`).
- Exit hands the children to init but their parent pointers keep naming the process that has
  gone (`AdoptedKeepOldParent`), so parents and children disagree exactly when the process had
  children (`ExitFamilyIff`). When such a child exits while init is parked in `wait` for any
  child, init is not told and stays parked beside the zombie (`AdoptedExitMissesInit`);
  `AdoptedChildIsMissed` starts from a reachable state.
- Exit with a waiting parent takes its entry out of the list of children and does not free it
  (disastrOS_exit.c:51-52). Over every run the entries lost are exactly as many as the exits that
  found their parent waiting (`LeftIsHandOvers`, `PointersAccounted`), and after 1024 of them no
  process can be spawned any more (`LeakEndsSpawning`). `EntryIsLost` is a run from boot.
- dmq_receive compares the message size with the caller's buffer only on entry. A message can be
  longer than the buffer by the time it is copied (`MessageOverrunsBuffer`, a run from boot).
  `BuffersFitIff` is exact over runs: the sizes fit at all times exactly when no change of a
  message size exceeds the buffer of a process that is inside dmq_receive on that queue.
- A non-blocking send can block although nobody comes between its check and its transfer: the check
  compares the number of messages with the limit for equality, and the limit can be lowered below
  it. It blocks exactly when there are more messages than the limit (`NonBlockingBlocksIff`;
  `NonBlockingSendBlocks` is a run from boot).
- disastrOS_resource.c:124-126 says that a process cannot open a resource twice. Nothing but
  exclusive mode prevents it, whether the first open found the resource or created it
  (`OpenTwice`).
- An open that creates a resource and then finds no descriptor leaves the resource behind
  (`FailedOpenLeaks`, with the exact condition).
- Exit releases the resources of a process (disastrOS_exit.c:74) only in the branch in which the
  parent is waiting. Over every joint run, a process that has gone left a descriptor behind
  exactly when no parent was waiting at its exit and it held one (`ExitLeaksIff`; `ExitLeaves`
  says which). Such a descriptor stays for ever and its resource can never be destroyed
  (`OrphanPinsResource`); `ReapedChildPinsResource` is a run from boot.
- Resource_alloc does not write `value`, so a block of the resource pool keeps the address of its
  first queue for ever: it has one exactly when a queue was ever allocated for a resource in it
  (`ValueIff`), and a new resource starts without a queue exactly when its block never had one
  (`FreshIff`). Over every run, no queue block is shared by two resources, or free while one has
  it, exactly when every new queue resource got such a block (`OwnQueuesIff`). `SharedBlock` says
  what happens otherwise and `TwoIdsOneQueue` is a run from the start: after a queue is destroyed
  the next two new ids end up with the same queue block.
- `running->timer` is never set, so the test at disastrOS_sleep.c:10-14 never succeeds, and
  it is not needed: `TimerPoolSuffices` and `OneCauseEach` show that a process that calls sleep
  has no timer and that there is one for it.

## Model

| member | source | states |
|---|---|---|
| LinkedList.ListHead.Insert | linked_list.c:33-67 | Refuses exactly the null item and items that have a neighbour, changing nothing; places any other stranger at the position behind `prev`; the one member it lets through, a sole one, becomes its own neighbour and the list is broken. |
| LinkedList.ListHead.Detach | linked_list.c:69-93 | Removes the member from the sequence, leaves the others in order and the item without links; null changes nothing. |
| LinkedList.ListHead.Pop | linked_list.c:95-98 | Removes and returns the first member, or null from an empty list. |
| LinkedList.ListHead.Find | linked_list.c:10-19 | Finds an item exactly when it is a member. |
| LinkedList.ListHead.Index | linked_list.c:22-31 | The member at an index, null past the end; a negative index reads as 0. |
| LinkedList.ListHead.LinkedIffNotAlone | linked_list.c:34-36 | The link test recognises a member exactly when the list has another one. |
| ProcessLists.Lists.LinkedIff | linked_list.c:35-36 | Over three lists that share their items: a control block has a link exactly when its process has a neighbour in one of the lists, and a process in no list is free to be inserted. |
| ProcessLists.Lists.Place | linked_list.c:33-67 | Inserting a process changes one list by exactly that process, or nothing when it has a neighbour; the other two lists keep every pointer. |
| ProcessLists.Lists.Remove | linked_list.c:69-93 | Detaching a process takes exactly it out of its list and leaves it in none. |
| PoolAllocator.Pool.Init | pool_allocator.c:19-47 | Fails exactly when the memory is too small, changing nothing; otherwise all blocks are free, in ascending order. |
| PoolAllocator.Pool.GetBlock | pool_allocator.c:49-65 | Fails exactly when no block is free; otherwise hands out the head of the chain and nothing else changes. |
| PoolAllocator.Pool.ReleaseBlock | pool_allocator.c:67-91 | The four outcomes in their order of precedence; only an accepted release changes anything, and the block becomes the head of the chain. |
| PoolAllocator.Pool.GetThenRelease | pool_allocator.c:55-90 | Handing a block out and taking it back restores every field and every link. |
| PoolAllocator.Pool.ReleaseThenGet | pool_allocator.c:55-90 | Taking a block back and asking for one returns the same block and restores the pool. |
| PoolAllocator.DetachedIffNotFree | pool_allocator.c:60-84 | A link is the detached mark exactly for the indices outside the chain. |
| PoolAllocator.LinkFollowsChain | pool_allocator.c:39-57 | Following the links visits the chain in order and ends in the null index, so it is acyclic. |
| PoolAllocator.ReleaseAcceptsOutstanding | pool_allocator.c:70-84 | A release is accepted exactly for the address of a block that is out. |
| PoolAllocator.BlocksAreDisjoint | pool_allocator.c:36-63 | Two blocks share no byte and no block reaches into the bookkeeping area. |
| PoolAllocator.HistoryInvariant | pool_allocator.c:19-91 | After every sequence of gets and releases from initialisation on, the ledger's chain is sound, no block is out twice and the blocks that are out are exactly those missing from the chain. |
| PoolAllocator.Play | pool_allocator.c:49-91 | The pool itself, over every sequence of requests: its answers are those of the ledger and its chain ends as the ledger's. |
| PoolAllocator.Handle | pool_allocator.c:49-91 | One request: the address or the error that the ledger predicts, and the chain stays the ledger's. |
| PoolAllocator.ReleaseAgrees | pool_allocator.c:70-84 | In every such state the allocator accepts a release exactly when the callers' ledger does. |
| Timers.AddKeepsOrder | disastrOS_timer.c:44-61 | Adding puts the timer behind all those that are not later and before all later ones, and keeps the list sorted. |
| Timers.DueIsExact | disastrOS_timer.c:63-70 | In a sorted list the timers at the front are exactly those that are due, and what is left is sorted. |
| Timers.DueIffOverdue | disastrOS_schedule.c:21-29 | A process is among those woken exactly when it has a timer whose time has come. |
| Timers.DropTimersExact | disastrOS_exit.c:63-72 | Dropping the timers of a process removes exactly them and leaves the others in order. |
| TimerHeap.TimerList.Place | disastrOS_timer.c:45-55 | The scan stops behind the last timer that is not later. |
| TimerHeap.TimerList.Add | disastrOS_timer.c:44-61 | On the heap: the new timer is at that place, all others keep their order. |
| TimerHeap.TimerList.Current | disastrOS_timer.c:63-70 | The first timer exactly when one is due. |
| TimerHeap.TimerList.RemoveCurrent | disastrOS_timer.c:72-78 | The first timer goes; -1 when there is none. |
| TimerHeap.TimerList.Cancel | disastrOS_exit.c:63-72 | The loop removes every timer of the process and no other, in place. |
| Payloads.CopyBytes | disastrOS_send_msg.c:22-26 | The copy loop writes exactly the payload and nothing behind it. |
| Payloads.PayloadMeaning | disastrOS_send_msg.c:22-26 | The payload is the longest prefix within the limit that has no NUL before its end. |
| Payloads.PayloadSurvives | disastrOS_receive_msg.c:22-25 | Stored in a used block and read back under the same length, a payload arrives unchanged, whatever the block held. |
| QueueUsers.UserPool.constructor | disastrOS_resource.c:170-177 | All blocks of the zeroed storage are free and unlinked. |
| QueueUsers.UserPool.NewQueue | disastrOS_resource.c:96-104 | A new queue has three empty lists of its own, and no other list changes. |
| QueueUsers.UserPool.Add | disastrOS_resource.c:128-141 | The insertion after QueueUser_alloc fails exactly when the pool is empty, although the links are never cleared: a free block is in no list and has no links. |
| QueueUsers.UserPool.AddPid | disastrOS_resource.c:123-145 | Fails exactly when the pool has fewer blocks than the mode names lists; every list gets the block that is its share of the free ones, in order, also when a later list fails; the slots name the new entries and no other list changes. |
| QueueUsers.UserPool.Close | disastrOS_queue.c:18-20 | The entry leaves its list and its block is the next to be handed out; a null slot changes nothing. |
| QueueUsers.UserPool.Abandon | disastrOS_exit.c:80-84 | The detach of exit: the entry leaves its list, its block is not freed and is out for good. |
| QueueUsers.UserPool.Clear | disastrOS_resource.c:115-117 | The loop empties one list, frees each of its blocks and leaves the other lists alone. |
| QueueUsers.UserPool.FreeLists | disastrOS_resource.c:111-120 | All entries of a queue go back to the pool in order, and its lists are gone. |
| QueueUsers.FreedIsBoth | disastrOS_resource.c:115-117 | What is free afterwards is what was free and what was in the list, nothing lost and nothing twice. |
| KernelOrder.SearchIsFirst | disastrOS_wake_queue.c:12-30 | The nested search ends at the first entry of the list that is marked waiting and whose process is parked, and finds nothing exactly when there is none. |
| KernelOrder.WakeOutcome | disastrOS_wake_queue.c:11-33 | When the queue could serve the other side, exactly the process of that entry goes from the waiting list to the end of the ready list and its mark is cleared; the caller returns 0 and nothing else changes. |
| KernelOrder.WakeNobody | disastrOS_wake_queue.c:11-33 | When the queue could serve nobody of the other side, or nobody of it is parked, the call only returns 0. |
| KernelOrder.NoOvertaking | disastrOS_wake_queue.c:12-30 | Over every run: as long as the earlier of two waiting users of one list waits, the later one stays parked, so it is never woken first. |
| KernelHeap.Kernel.constructor | disastrOS.c:245-247 | The heap starts in the boot state. |
| KernelHeap.Kernel.WakeSleepers | disastrOS_schedule.c:21-29 | The loop moves all due sleepers at once, in timer order, ahead of the old ready list; proved through the insertion behind the process woken before. |
| KernelHeap.Kernel.SwitchTo | disastrOS_schedule.c:31-37 | The head of the ready list runs, the process that ran goes to the end or stays where its links are. |
| KernelHeap.Kernel.Reschedule | disastrOS_schedule.c:8-43 | One scheduling step on the heap is the step on values. |
| KernelHeap.Kernel.Sleep | disastrOS_sleep.c:7-33 | Timer, parking and dispatch, or the error when the pool is empty, as on values. |
| KernelHeap.Kernel.FindChild | disastrOS_wait.c:20-31 | The scan stops at the first zombie or at the pid, and is left on the last child. |
| KernelHeap.Kernel.WaitChild | disastrOS_wait.c:7-66 | Error, reaping or parking on the heap, as on values; what these are is `WaitFails`, `WaitTakes` and `WaitParks`. |
| KernelHeap.Kernel.SpawnProcess | disastrOS_spawn.c:12-34 | A fresh pid at the end of the ready list and of the children, nothing else. |
| KernelHeap.Kernel.Reparent | disastrOS_exit.c:20-33 | The loop appends the children to init's in order and leaves none behind. |
| KernelHeap.HandChildren | disastrOS_exit.c:20-33 | The loop itself, one child at a time, computes the batch: all children in order at the end of init's. |
| KernelHeap.Kernel.ExitProcess | disastrOS_exit.c:15-104 | Zombie, hand-over to a waiting parent with release of timers and entries, or dispatch, as on values; when and what these are is `ExitToParent` and `ExitToZombie`. |
| KernelHeap.Kernel.Send | disastrOS_send_msg.c:6-42 | Append a copy, fail without a block, or block on the entry, as on values, with the copy made by the loop. |
| KernelHeap.Kernel.Receive | disastrOS_receive_msg.c:5-37 | As on values; the caller's buffer holds the payload that is recorded as delivered, and nothing behind it changes. |
| KernelHeap.Kernel.FindParked | disastrOS_wake_queue.c:17-27 | The inner loop finds the pid exactly when it is in the waiting list. |
| KernelHeap.Kernel.FindUser | disastrOS_wake_queue.c:14-30 | The outer loop finds the first user that is marked waiting and parked. |
| KernelHeap.Kernel.WakeUp | disastrOS_wake_queue.c:3-35 | One waiter of the other side goes from the waiting list to the end of the ready list, or nothing happens, as on values; which one, and when, is `WakeOutcome` and `WakeNobody`. |
| KernelHeap.Kernel.AddUsers | disastrOS_resource.c:123-145 | The sections of Queue_add_pid in turn, up to the first one without a block, are the recursive registration on values. |
| KernelRefines.Tick | disastrOS.c:48-57 | From every state of the invariant in which the interrupt is enabled, the heap takes it and ends where the machine does. |
| KernelRefines.Preempt | disastrOS_preempt.c:7-9 | The same for a preemption, from user code or from the retry loops. |
| KernelRefines.Sleep | disastrOS_sleep.c:7-33 | The same for sleep. |
| KernelRefines.WaitPid | disastrOS_wait.c:7-66 | The same for wait, with any pid. |
| KernelRefines.ExitWith | disastrOS_exit.c:15-104 | The same for exit. |
| KernelRefines.SpawnChild | disastrOS_spawn.c:12-34 | The same for spawn. |
| KernelRefines.SendMessage | disastrOS_send_msg.c:6-42 | The same for the transfer of a send. |
| KernelRefines.ReceiveMessage | disastrOS_receive_msg.c:5-37 | The same for the transfer of a receive, into a buffer as large as its owner said while the sizes fit, or of 128 bytes. |
| KernelRefines.WakeOpposite | disastrOS_wake_queue.c:3-35 | The same for the wake-up call. |
| KernelCore.StepKeepsCore | disastrOS.c:102-131 | Every enabled step keeps the invariant on lists, timers, status, entries, program counters and causes of waiting. |
| KernelTheorems.RunInv | disastrOS.c:102-131 | Every state of every run satisfies the whole invariant. |
| KernelTheorems.OnePlaceEach | disastrOS_schedule.c:31-37 | In every reachable state every process is in exactly one of running, ready, waiting and zombie, except that one that has just blocked on a queue is both running and waiting. |
| KernelTheorems.OneCauseEach | disastrOS_sleep.c:18-25 | Every waiting process waits for exactly one of a timer, a child and a queue, and every entry that is marked waiting belongs to a process that waits for that queue through it. |
| KernelTheorems.ScheduleSafeIff | disastrOS_schedule.c:31-37 | Rescheduling keeps processes in one place exactly when a process that has just blocked is not left alone in the waiting list while another one is ready. |
| KernelTheorems.BlockSafeIff | disastrOS_receive_msg.c:31-36 | Blocking again keeps the waiting list free of duplicates exactly when the process is not alone in it. |
| KernelTheorems.SteadyWaiterSuffices | linked_list.c:35-36 | Any other parked process without a timer makes both safe. |
| KernelExamples.FirstBlockIsUnsafe | disastrOS_receive_msg.c:31-36 | A run from boot after which the running process is put into the ready list while it stays in the waiting list. |
| KernelWakeups.StepKeepsWakeups | disastrOS_wake_queue.c:11-31 | On every step: while a user of a side waits, the queue could serve at most as many as there are wake-ups in flight, unless the limit is raised. |
| KernelTheorems.NoStrandedReader | disastrOS_queue.c:95-100 | In every reachable state a queue with a waiting reader holds at most as many messages as there are senders before their wake-up call and readers woken but not yet back. |
| KernelTheorems.NoStrandedWriter | disastrOS_queue.c:120-125 | The same for writers and free places, on runs in which every change of a limit is refused, finds no writer waiting, or leaves no more room than there are wake-ups in flight. |
| KernelTheorems.WritersCoveredIff | disastrOS_queue.c:143-146 | Over every run: the bound held in all states so far exactly when every change of a limit so far was of that kind. |
| KernelTheorems.RaisingTheLimit | disastrOS_queue.c:143-146 | For one change of the limit: the bound holds afterwards exactly when the change is of that kind. |
| KernelExamples.RaisingStrandsWriter | disastrOS_queue.c:143-146 | A run from boot that ends with a waiting writer, a free place and no wake-up in flight. |
| KernelWakeups.FlagsTestRoom | disastrOS_wake_queue.c:37-42 | The two flag functions are true exactly when the side to be woken could be served and has users. |
| KernelFair.StepCloser | disastrOS_schedule.c:21-37 | No step increases (processes ahead of a ready process) + (pending timers); every scheduling step lowers it or runs the process. |
| KernelTheorems.ReadyProcessRuns | disastrOS_schedule.c:21-37 | From any point of any run, a ready process runs within its position + pending timers + 1 scheduling steps, although woken sleepers jump the queue. |
| KernelTheorems.PendingCanRun | disastrOS_wake_queue.c:19-24 | A wake-up in flight belongs to a process that is running or in the ready list. |
| KernelTheorems.ReaderIsServed | disastrOS_queue.c:95-100 | End to end: whenever a reader waits on a queue that holds a message, a process is on its way to take a message or wake a reader, and it runs within its position + pending timers + 1 scheduling steps. |
| KernelTheorems.WriterIsServed | disastrOS_queue.c:120-125 | The same for a writer beside a free place, under the condition of WritersCoveredIff. |
| KernelTheorems.ScheduleWakesExactly | disastrOS_schedule.c:21-29 | A scheduling step removes exactly the timers that are due and puts exactly their processes, in order, ahead of the ready list: nobody wakes early or sleeps past a scheduling step. |
| KernelEffects.TickOutcome | disastrOS.c:48-57 | The time goes up by one; exactly the sleepers whose deadline is then reached stand, in the order of the timers, before the ready processes; the head of this line runs and the process that ran stands behind it, or stays where it has just blocked. |
| KernelEffects.PreemptOutcome | disastrOS_schedule.c:15-37 | The same at the same time, with the retry loop of a blocked call taken on. |
| KernelTime.TimeIsTicks | disastrOS.c:48-57 | In every state of every run the time is the number of timer interrupts so far. |
| KernelAnswers.SleepParks | disastrOS_sleep.c:15-32 | In every reachable state sleep parks the caller at the end of the waiting list with the deadline now + cycles, and the head of the ready list runs. |
| KernelAnswers.SleepFails | disastrOS_sleep.c:19-23 | Without a free timer only the result changes, to the error. |
| KernelTime.SleepLasts | disastrOS_sleep.c:15-25 | Over every run: a process that calls sleep stays parked until a scheduling step finds that as many timer interrupts have passed as it asked for. |
| KernelTime.SleepsLongEnough | disastrOS_sleep.c:15-25 | In particular it is parked as long as fewer have passed. |
| KernelTime.SleepEnds | disastrOS_schedule.c:21-29 | The first such scheduling step takes it out of the waiting list, and it is ready or runs. |
| KernelTheorems.TimerPoolSuffices | disastrOS_sleep.c:18-23 | In every reachable state there are at most 1024 processes, and a process that calls sleep finds a timer. |
| KernelCounts.StepKeepsBalance | disastrOS_pcb.c:42-62 | Every step keeps the count of pids given out equal to live processes plus reported ones, and never takes back an entry that exit left behind. |
| KernelCounts.StepLeaves | disastrOS_exit.c:40-52 | A step loses an entry of a list of children exactly when it is an exit that finds its parent waiting. |
| KernelTheorems.LeftIsHandOvers | disastrOS_exit.c:40-52 | Over every run the entries lost are as many as the exits so far that found their parent waiting. |
| KernelExamples.EntryIsLost | disastrOS_exit.c:50-52 | A run from boot after which only init is alive and one entry is still out. |
| KernelTheorems.PointersAccounted | disastrOS_pcb.c:64-74 | In every reachable state the entries for children that are out of their pool are those of the live processes other than init plus one for each exit that found its parent waiting. |
| KernelTheorems.LeakEndsSpawning | disastrOS_exit.c:50-52 | After 1024 such exits no later state of the run has a free entry for a spawn. |
| KernelFamily.StepKeepsKin | disastrOS_exit.c:35-58 | Every step keeps parents and children in agreement, no waiting parent beside its zombie child, and the exit values unreported or reported once. |
| KernelFamily.AwaitedMeaning | disastrOS_wait.c:20-31 | The scan finds a child that answers the call exactly when there is one, and is left on the last child otherwise. |
| KernelFamily.WaitErrorIffChildless | disastrOS_wait.c:12-41 | For every pid: the error is returned exactly to a caller without children. |
| KernelAnswers.WaitTakes | disastrOS_wait.c:42-55 | wait with a child that answers it: the caller's result is the child's pid, the child is gone and is no child any more, its exit value is reported, its descriptors are left behind, and nothing else changes. |
| KernelAnswers.WaitParks | disastrOS_wait.c:58-65 | With children of which none answers, the caller stands at the end of the waiting list with its own record as it was but for the status, and the head of the ready list runs. |
| KernelAnswers.WaitFails | disastrOS_wait.c:12-15 | Without children only the result changes, to the error. |
| KernelStuck.StrangerOutcome | disastrOS_wait.c:20-61 | wait for a pid that is not a child reaps the last child, when that is a zombie, and parks the caller otherwise. |
| KernelStuck.NeverWoken | disastrOS_exit.c:39-45 | Over every run: a process parked in a wait for a pid that names none of its children stays parked for ever. |
| KernelStuck.WaitForStranger | disastrOS_wait.c:20-61 | So such a call, when the last child is alive, is followed by that in every later state of the run. |
| KernelAnswers.ExitToParent | disastrOS_exit.c:39-96 | When the parent is parked in a wait for this process or for any child: the parent runs, with the pid as its result and without the child in its list; the process is gone, its value is reported, every user list is the old one without the entries its descriptors name, and nothing else changes. |
| KernelAnswers.ExitToZombie | disastrOS_exit.c:97-103 | Otherwise nobody is woken: the process is a zombie with its value and the head of the ready list runs. |
| KernelAnswers.ExitWakesIff | disastrOS_exit.c:39-48 | The parent leaves the waiting list exactly when it is parked in such a wait. |
| KernelAnswers.AdoptionOutcome | disastrOS_exit.c:20-33 | The children of an exiting process stand in their order behind those of init. |
| KernelAnswers.SpawnOutcome | disastrOS_spawn.c:12-34 | A pid that was never used becomes the caller's result and last child; the new process is at the end of the ready list, with the caller as its parent and without children and descriptors. |
| KernelFamily.AdoptedKeepOldParent | disastrOS_exit.c:20-33 | After an exit with children init lists them, but each still names the exited process as its parent. |
| KernelFamily.AdoptedExitMissesInit | disastrOS_exit.c:37-45 | When an adopted process exits while init is parked in wait for any child, init stays parked beside a zombie that it lists. |
| KernelExamples.AdoptedChildIsMissed | disastrOS_exit.c:20-45 | A reachable state from which that happens: a process with a child exits, init adopts the child, waits, and misses its exit. |
| KernelFamily.ExitFamilyIff | disastrOS_exit.c:20-46 | Exit leaves parents and children in agreement exactly when the process has no children. |
| KernelTheorems.NoMissedChild | disastrOS_wait.c:23-61 | No reachable state has a process parked in wait(0) beside a zombie child, or in wait(pid) with that child a zombie. |
| KernelTheorems.ReportedOnce | disastrOS_exit.c:35-58 | Over every run each exit value is reported at most once and unchanged, and it is unreported exactly while its process is a zombie. |
| KernelQueues.ExchangeIsFifo | disastrOS_receive_msg.c:18-28 | A receive delivers the oldest queued payload, a send adds the sender's payload behind all others, and the bounds hold afterwards. |
| KernelEffects.BlockingOutcome | disastrOS_receive_msg.c:31-36 | A transfer without room parks the caller at the end of the waiting list, or leaves it where it is parked, marks its entry and gives it the error; nothing else changes. |
| KernelEffects.RefusedOutcome | disastrOS_send_msg.c:14-20 | A send with room but without a block gets the error and is not parked. |
| KernelEffects.ReceiveOutcome | disastrOS_receive_msg.c:18-28 | A receive takes out the oldest message and gets its payload, and returns 0. |
| KernelEffects.SendOutcome | disastrOS_send_msg.c:12-30 | A send puts one message behind the others, whose receiver gets the message up to its first NUL or up to the size of the queue, and returns 0. |
| KernelEffects.OneTransferPerCall | disastrOS_queue.c:95-102 | Over every run a send or receive keeps its arguments and its descriptor however often it is interrupted; when it comes to its wake-up call exactly one transfer has succeeded, and before that none. |
| KernelEffects.SendsItsMessage | disastrOS_queue.c:120-127 | And what a send puts into the queue of its descriptor is the message it was given. |
| KernelQueues.StepKeepsQueues | disastrOS_queue.c:131-158 | Every step keeps the bounds and the record of every queue, setattr included. |
| KernelQueues.CallCanContinue | disastrOS_queue.c:81-128 | A process inside a call always has the descriptor, the entry and the block size its next step needs. |
| KernelTheorems.FifoExactlyOnce | disastrOS_send_msg.c:12-30 | On every queue, in every reachable state, what was delivered followed by what is queued is what was sent, in order; at most 128 messages, all of the current message size. |
| KernelCalls.AdmissionIff | disastrOS_queue.c:81-118 | In every state of the invariant each answer of the checks has exactly one cause: no such queue, a buffer smaller or a message longer than the size of the queue, no entry for the role, or a non-blocking descriptor that finds the queue empty, or at its limit; a call is admitted exactly when there is none of them. |
| KernelCalls.NonBlockingBlocksIff | disastrOS_queue.c:116-122 | A non-blocking call without interruption is parked by its own transfer exactly when the queue holds more messages than its limit. |
| KernelNonBlocking.NonBlockingSendBlocks | disastrOS_queue.c:116-118 | A run from boot on which that happens. |
| KernelSizes.BuffersFitIff | disastrOS_queue.c:84-97 | Over every run: the message size of a queue never exceeds the buffer of a process that is about to receive from it, exactly when no change of the size does when it is made. |
| KernelSizes.CopyFits | disastrOS_receive_msg.c:18-26 | Then every message that a receive may copy is no longer than the buffer. |
| KernelOverrun.MessageOverrunsBuffer | disastrOS_queue.c:148-151 | A run from boot after which the message for a reader with a buffer of 8 bytes has 128. |
| KernelLifecycle.OpenStartOutcome | disastrOS_open_resource.c:62-79 | The first half of an open makes a descriptor with a number that the process does not use, without entries, and returns the number. |
| KernelLifecycle.OpenRefused | disastrOS_open_queue.c:19-39 | With no place for another queue the descriptor goes again, and the error tells whether somebody else has a descriptor of the id. |
| KernelLifecycle.OpenOutcome | disastrOS_open_queue.c:49-55 | Otherwise every list that the mode names gets an entry at its end, up to the first one without a block; the call returns the descriptor number exactly when all got one, and the error when not; a new queue is empty. |
| KernelLifecycle.CloseListOutcome | disastrOS_queue.c:16-20 | One list of a close loses exactly the entry of the descriptor, whose block is free again. |
| KernelLifecycle.CloseEnds | disastrOS_queue.c:24-30 | At the end the descriptor goes and the call returns 0. |
| KernelLifecycle.UnlinkRefused | disastrOS_destroy_resource.c:19-23 | unlink of a queue of which somebody has a descriptor, or a reaped process has left one, changes nothing but the result. |
| KernelLifecycle.UnlinkOutcome | disastrOS_destroy_resource.c:25-32 | Otherwise the queue goes, with exactly the entries in its lists. |
| KernelLifecycle.ReapedChildPins | disastrOS_wait.c:44-55 | After wait has taken a child that had a descriptor of a queue, an unlink of that queue is refused and the queue stays. |
| KernelLifecycle.OrphanStays | disastrOS_destroy_resource.c:19-23 | Over every run such a queue stays for ever. |
| KernelLifecycle.OrphanRefused | disastrOS_destroy_resource.c:19-23 | And every later unlink of it is refused. |
| KernelLifecycle.MaxOutcome | disastrOS_queue.c:143-146 | A limit above 128 is refused, any other becomes the limit of that queue alone. |
| KernelLifecycle.SizeOutcome | disastrOS_queue.c:148-151 | The message size of a queue changes exactly when no message is queued. |
| KernelRoundTrip.CloseUndoesOpen | disastrOS_queue.c:12-31 | Opening a queue that is there, with a block for each role, and closing it again restores the user lists, the pool of blocks and the descriptors; only the descriptor number is used up. |
| KernelRegistry.StepKeepsRegistry | disastrOS_resource.c:123-145 | Every step under which processes exit with their queues closed keeps the agreement of slots, entries and blocks. |
| KernelTheorems.RegistryOnTidyRuns | disastrOS_resource.c:179-190 | On such runs the blocks that are out are exactly the entries in the lists of live queues, each named by the descriptor slot it was allocated for. |
| KernelValues.ValueTellsQueue | disastrOS_open_queue.c:17-19 | In every state of every run in which the resource pool does not run out: the ids with a listed resource are those whose queue is there or being opened, each has a block of its own, and its value is null exactly while the queue is not there. |
| KernelValues.OpenAgreesIff | disastrOS_resource.c:58-67 | The open of a new id keeps that agreement exactly when the block it gets has no value. |
| KernelValues.UnlinkedIsNext | disastrOS_destroy_resource.c:25-31 | Right after an unlink the block that a new id would get has a value, and the agreement would be lost. |
| ResourceGraph.ById | disastrOS_resource.c:75-84 | The scan returns a listed resource with the id, or null only when there is none. |
| ResourceGraph.ByFd | disastrOS_descriptor.c:54-63 | The same for descriptors. |
| ResourceTables.ResourceTable.FindById | disastrOS_resource.c:75-84 | The loop computes that lookup. |
| ResourceTables.ResourceTable.FindByFd | disastrOS_descriptor.c:54-63 | The same for descriptors. |
| ResourceTables.ResourceTable.AttachDescriptor | disastrOS_open_resource.c:62-76 | Both halves of a descriptor are made, linked to each other and appended to both lists. |
| ResourceTables.ResourceTable.OpenResource | disastrOS_open_resource.c:10-80 | All results of open and the state each leaves, as on values. |
| ResourceTables.ResourceTable.CloseResource | disastrOS_close_resource.c:10-33 | Both halves go, or the error, as on values. |
| ResourceTables.ResourceTable.DestroyResource | disastrOS_destroy_resource.c:9-33 | Unknown, in use or taken out, as on values. |
| ResourceTables.ResourceTable.ReleaseDescriptors | disastrOS_exit.c:75-91 | The loop releases all descriptors of the process and leaves its list empty. |
| ResourceRuns.RunOk | disastrOS_open_resource.c:10-80 | Every state of every run of open, close, destroy, exit and wait satisfies the invariant of the graph. |
| ResourceRuns.OnePointerEach | disastrOS_open_resource.c:64-76 | Each listed descriptor has exactly one descriptor pointer, which names it and is in the list of its resource, and that resource is listed. |
| ResourceRuns.PointersCountUsers | disastrOS_destroy_resource.c:19-23 | The size that destroy tests is the number of descriptors that refer to the resource. |
| ResourceRuns.UncheckedAllocation | disastrOS_descriptor.c:22-36 | The two descriptor pools are always equally full, so the allocation whose result open does not test cannot fail. |
| ResourceRuns.LookupIsExact | disastrOS_open_resource.c:38-69 | Ids and descriptor numbers are unique, so the scans return the one block that answers. |
| ResourceRuns.DestroyOutcome | disastrOS_destroy_resource.c:12-32 | Destroy refuses exactly while some descriptor refers to the resource and otherwise removes exactly it. |
| ResourceRuns.OpenOutcome | disastrOS_open_resource.c:16-79 | The result of open in terms of what is listed, in use and free. |
| ResourceEffects.HasMeaning | disastrOS_open_resource.c:22-54 | A mode has a bit exactly when the bit is in its binary form. |
| ResourceEffects.OpenAdds | disastrOS_open_resource.c:62-79 | A successful open of a listed resource adds one descriptor with the next number to the end of the process's list, with a pointer at the end of the resource's, and nothing else changes. |
| ResourceEffects.OpenCreates | disastrOS_open_resource.c:38-45 | A successful open of an unknown id does this to a new resource at the end of the list. |
| ResourceEffects.CloseRemoves | disastrOS_close_resource.c:14-32 | Closing any number that the process holds removes exactly the descriptor with that number and its pointer, and returns 0. |
| ResourceEffects.CloseUnknown | disastrOS_close_resource.c:14-19 | Closing any other number is an error that changes nothing. |
| ResourceEffects.DestroyRemoves | disastrOS_destroy_resource.c:25-32 | Destroying a resource without users gives back its block and its queue's and leaves the content of the block. |
| ResourceEffects.QueueGiven | disastrOS_open_queue.c:17-19 | A listed resource without a queue gets the first free one, if there is one. |
| ResourceEffects.ReleaseOutcome | disastrOS_exit.c:75-91 | The release loop takes out exactly the descriptors of the process, and exactly their pointers from every resource. |
| ResourceRuns.FailedOpenLeaks | disastrOS_open_resource.c:38-67 | A failed open changes something exactly when it created a resource and no descriptor was left. |
| ResourceRuns.OpenTwice | disastrOS_resource.c:124-126 | After a successful open by a process, a second one succeeds with another number for the same resource unless the mode is exclusive, whether the first one found the resource or created it. |
| ResourceRuns.CloseUndoesOpen | disastrOS_close_resource.c:14-32 | Close after open restores the graph, down to the order of the pools, except that the number is used up. |
| ResourceQueues.ValueIff | disastrOS_resource.c:58-67 | In every reachable state a resource block has an address exactly when a queue was ever allocated for a resource in it. |
| ResourceQueues.FreshIff | disastrOS_open_queue.c:17-19 | A resource that an open creates is without a queue, so that openQueue allocates one, exactly when its block never had one. |
| ResourceQueues.OwnQueuesIff | disastrOS_destroy_resource.c:28-31 | Over every run: no queue block was shared by two resources or free while one had it, exactly when every new resource of that type got a block that never had a queue. |
| ResourceQueues.SharedBlock | disastrOS_open_queue.c:18-19 | After a queue is destroyed, the next new id has its address while the block is free, and the queue allocated for the id after that is the same block. |
| ResourceQueues.TwoIdsOneQueue | disastrOS_resource.c:58-67 | A run from the start on which two listed resources have the same queue block. |
| ResourceRuns.OrphanPinsResource | disastrOS_wait.c:44-55 | A descriptor reaped with its process stays for the rest of every run, and destroy refuses its resource from then on. |
| ResourceRuns.HandOverReleasesAll | disastrOS_exit.c:75-91 | Exit with a waiting parent leaves no descriptor of the process behind. |
| ResourceRuns.LeavingLeaksIff | disastrOS_exit.c:74-95 | A process that leaves the system leaves a descriptor behind exactly when no parent was waiting and it held one. |
| KernelResources.ExitLeaves | disastrOS_exit.c:39-103 | Over every joint run of kernel and resources: once a process that exited is gone, the descriptors it left behind are none if its parent was waiting at the exit, and exactly those it held then otherwise. |
| KernelResources.ExitLeaksIff | disastrOS_exit.c:39-103 | So there is one exactly when no parent was waiting and the process held a descriptor. |
| KernelExamples.ReapedChildPinsResource | disastrOS_wait.c:44-55 | A joint run from boot: a child opens a resource, exits and is reaped; nobody alive has the resource open and destroy refuses it. |

## Left out

What single members leave out:

- LinkedList.ListHead.Detach: speaks of null and of members; detaching an item from a list it is not in is not modelled.
- ProcessLists.Lists.Place: the process is in no list or has a neighbour; one that is the only member of a list passes the link test and breaks the lists, which `LinkedList.ListHead.Insert` and `KernelExamples.FirstBlockIsUnsafe` show.
- PoolAllocator.Pool.Init: asks for positive sizes and a non-null memory block, as every caller in the program passes.
- TimerHeap.TimerList.Add: the timer is a new object; the failed allocation is a branch of `KernelHeap.Kernel.Sleep`, and `TimerPoolSuffices` shows that it is never taken.
- TimerHeap.TimerList.RemoveCurrent: the timer's pool block is not modelled, so its release is not either.
- TimerHeap.TimerList.Cancel: the same.
- QueueUsers.UserPool.constructor: the free blocks are a sequence; the bookkeeping behind it is `PoolAllocator.Pool`.
- QueueUsers.UserPool.NewQueue: the message list, the limits and the counter that Queue_alloc also sets are in `NEW_QUEUE` of the kernel model.
- QueueUsers.UserPool.Add: the pid and status that QueueUser_alloc writes are set by `KernelHeap.Kernel.AddUsers`, not here.
- QueueUsers.UserPool.AddPid: the same, and the counter `openings` is not modelled.
- QueueUsers.UserPool.FreeLists: the message loop of Queue_free and the release of the queue block are not modelled.
- KernelHeap.Kernel.Reschedule: asks for `SafeSchedule`; otherwise the source puts a process into two lists (`ScheduleSafeIff`, `FirstBlockIsUnsafe`), and a heap of disjoint lists cannot follow.
- KernelHeap.Kernel.Sleep: the test of `running->timer` is absent, because no code sets that field.
- KernelHeap.Kernel.SpawnProcess: an exhausted pool is a hypothesis; the source writes through the null pointer before its test.
- KernelHeap.Kernel.Reparent: the SIGHUP bits are absent, and init itself does not exit.
- KernelHeap.Kernel.ExitProcess: the SIGCHLD bits are absent, and the loop over the descriptors is one update of the queues; for resources it is the loop of `ResourceTables.ResourceTable.ReleaseDescriptors`.
- KernelHeap.Kernel.Send: the sender's message is a value of 128 bytes; a null or shorter buffer is not modelled.
- KernelHeap.Kernel.Receive: the buffer is an array of at least the message size; a null buffer, which the source answers with an error, is not modelled.
- KernelRefines.ExitWith: the process has no children, as `Enabled` says; `KernelHeap.Kernel.ExitProcess` takes the others too.
- KernelRefines.SpawnChild: both pools have a block, as `Enabled` says; without one the source writes through the null pointer before its test.
- KernelRefines.SendMessage: the message is a value of 128 bytes.
- KernelRefines.ReceiveMessage: a buffer smaller than its owner said, and the overrun itself, are not modelled; `BuffersFitIff` says when the sizes fit.
- KernelCore.StepKeepsCore: speaks of enabled steps, so not of the open of a new id after an unlink.
- KernelFamily.AdoptedExitMissesInit: pids are never reused, while the parent pointer of an adopted process may name a control block that PCB_alloc has handed out again; exit then reads the new owner's status and may wake it. The lemma speaks of a parent that is gone or not waiting.
- KernelAnswers.ExitToParent: the process has no children, as `Enabled` says, and the signal bits are absent; what happens to children is `AdoptionOutcome`.
- KernelAnswers.ExitToZombie: the same; when no process is ready the source fails its assertion, and the model has no running process.
- KernelEffects.TickOutcome: asks for `SafeSchedule`, as `Enabled` says.
- KernelEffects.PreemptOutcome: the same.
- KernelLifecycle.OpenOutcome: the mode is the set of lists that it names, and all ids are those of queues.
- ResourceEffects.DestroyRemoves: what Queue_free does to the lists and messages of the queue is not part of the graph.
- KernelTheorems.RunInv: covers the runs that meet the hypotheses listed above.
- KernelTheorems.NoStrandedWriter: holds over the runs of `WritersCoveredIff`, which shows that it holds over no others.
- KernelTheorems.WriterIsServed: the same.
- KernelTheorems.RegistryOnTidyRuns: exit neither frees QueueUser blocks nor decrements `openings`, so the statement is about runs in which processes close their queues before they exit.
- KernelQueues.StepKeepsQueues: a message size is at most 128; the source accepts a larger one, and the copy then runs over the string block.
- KernelTheorems.FifoExactlyOnce: the same.
- ResourceTables.ResourceTable.AttachDescriptor: both lists are sequences, so the pointer insertions are not modelled here.
- ResourceTables.ResourceTable.DestroyResource: the queue block goes back to its pool; emptying the lists of the queue is `QueueUsers.UserPool.FreeLists`, and its messages are not modelled.
- ResourceTables.ResourceTable.ReleaseDescriptors: detaching the entries of queues is in the kernel model (`ExitProcess`).
- ResourceRuns.OrphanPinsResource: starts from a descriptor that was left behind; when there is one is `KernelResources.ExitLeaksIff`.
- KernelResources.ExitLeaves: the resource calls of the joint runs are made by the running process between any two kernel steps; the descriptors of the kernel's own queue steps are not identified with those of the graph.
- KernelValues.ValueTellsQueue: the resource pool has a block for every new id; processes that are all in the middle of an open could use up the 1024.
- ResourceQueues.SharedBlock: what the shared or free block then does to messages and user lists is not modelled.
- KernelRoundTrip.CloseUndoesOpen: other processes may come between the steps of an open and a close; what holds then is `RegistryOnTidyRuns`.

What the project leaves out:

- Context switching, signals and their masks, stacks, the interval timer, logging and printing: only the rule that system calls are atomic and interrupts fall between them is kept.
- disastrOS_shutdown.c, disastrOS_fork.c: shutdown replaces contexts from outside the scheduler; fork has the effects of spawn on the lists.
- Reclamation of message blocks: whether the message pools have a block is an input of the send step. Message_free passes the address of a field and then skips its second release, and the first loop of Queue_free compares a growing index with a shrinking size, so nothing is claimed about these pools.
- The kernel does not use the classes `UserPool` and `ResourceTable`: editing the user lists of queues through pointers is proved for `UserPool` alone, and open, close, attributes and unlink of `Kernel` work on maps and sequences.
- Calls that the checks of send and receive refuse return to the caller without a system call and are no steps.
- Process control blocks and timer items are new objects instead of pool blocks; running out of them is the hypothesis on spawn and the result `TimerPoolSuffices`.
- The slot of a closed list entry keeps a stale address until the descriptor goes; nothing reads it, so the model clears it. Each detach of `dmq_close` is one atomic step.
- The counter `openings` and `dmq_getattr`. A non-blocking call can also block because another process comes between its check and its transfer.
- The `status` of a process is modelled as the code sets it, but statements use the list a process is in: wait and sleep do not mark their successor as running, and a blocked process is marked ready when it is preempted.
- Machine integers: pids, times, descriptor numbers and sizes are unbounded.
