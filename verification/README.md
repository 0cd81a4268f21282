# Yalnix kernel: a verified model

A Dafny model of a teaching kernel: blocking pipes, locks and condition variables; the queues, the
clock and the scheduler; frames, page tables, the TLB, fork copies and context switches; the kernel
break; and the loading of a program with its arguments.

`dafny verify dfyconfig.toml` checks everything. Nothing here is run.

## How it is built

Most parts exist twice. One file states an operation as a function on values, and lemmas prove what
holds of it in every run. A second file is the operation in the source's own form -- classes and
arrays updated in place, loops with invariants -- and every method is proved to do to its fields
exactly what the function does to the value.

| part | on values, with the theorems | as code |
|---|---|---|
| pipes (sync.c) | `Pipes`, `PipeHistory`, `PipeTheorems`, `PipeWakes`, `PipeOutcomes` | `KernelCode` |
| locks, condition variables (sync.c) | `Locks`, `LockRuns` | `KernelCode` |
| queues, clock, scheduler, traps (pcb.c, syscalls.c, traps.c) | `KernelModel`, `KernelInvariant`, `DelaySweep`, `KernelSteps`, `SyncSteps`, `KernelRuns`, `KernelObjects`, `KernelProgress`, `KernelOutcomes`, `KernelReaders`, `KernelReturns`, `KernelAnswers`, `KernelExamples`; `KernelDrains` and `KernelCalls` join the two sides | `KernelCode` |
| circular lists (list.c), and the queues as lists (pcb.h:80) | `QueueMoves`, `TrapMoves` | `CircularList`, `LinkedQueues` |
| ids of sync objects (sync.c) | | `SyncTable` |
| frames, kernel break (frames.c, memory.c) | `Frames`, `KernelBreak`, `MemoryStart` | `Frames`, `Memory`, `MemoryCode`, `MemoryStart` |
| fork copies, switches (context_switch.c) | `ForkCopy`, `AddressSpaces`, `SpaceFrames` | `ContextSwitch`, `AddressCode` |
| program loading (load_program.c) | `ArgStack`, `ProgramLayout`, `ProgramRuns` | `UserMemory`, `LoadProgram` |

`Hardware` holds small shared notions. hardware.h is not part of this model: page size, region size,
place and size of the kernel stack, number of frames, capacity of a pipe and the two stack paddings
are constants without a value, so every result holds for all values they can take. Region 0 and
region 1 are taken to have the same number of pages, as context_switch.c:104 takes them.

A pipe carries a history that no operation reads: the messages written (`calls`), the reads asked for
(`asks`) and what happened to them (`log`). The theorems about order and conservation compare the
rest of the pipe with it. A kernel entry, with the `schedule` it may end in, is one step.

Every process has one queue node (pcb.h:80), so its queues hold together only as long as nobody is
linked twice. `TrapMoves` gives the list operations of every trap in order and shows each of them
legal when it comes; `LinkedQueues` carries them out on circular lists, one node for each process, and
shows that the links spell out the queues of the model after every trap of every run.

`KernelAnswers` says of every trap what it answers and everything it changes, in terms of queues,
owners and registers. From that `LockRuns` proves mutual exclusion: told from the calls a process makes
and from when it runs again, at most one is between coming back from an acquire and giving the lock up.

## Where the code and its intent part

The code is modelled as it is written; where that breaks a property, a parameter adds what is meant,
and a lemma says exactly when the two agree.

- sync.c:211 and 236 count the readers where the writers are meant. Parameter `Guard`:
  `ReadersCount` is the code, `WritersCount` what is meant. A write as written leaves a writer asleep
  beside free room exactly when the queued requests run out first (`WriteStrandsExactly`); a run as
  written is the run that was meant exactly when no write in it does that
  (`AsWrittenIsAsMeantExactly`); `AsWrittenCanStrand` is such a run.
- traps.c:54-59 does not put the preempted process back on the ready queue. Parameter `requeue`. As
  written the tick loses the process exactly when it preempts one other than idle
  (`ClockLosesExactly`), for good (`LostForever`); with the re-enqueue nobody is ever lost
  (`EveryRunSettles`). `AsWrittenLosesInit` is a run from boot that loses init.
- syscalls.c:301, 328 and 355 compare with another constant than the one sync.c returns. Modelled as
  "a blocked result schedules".
- syscalls.c:398-399 reads both ids from one register, and 411 re-acquires the lock without looking at
  the result. Modelled is `SyncCvarWait` with two ids, up to its `schedule`.
- sync.c:61-63 notices an object of the wrong kind and goes on. Calls on objects of the wrong kind are
  excluded (`PipeOrNone`, `LockOrNone`, `CvarOrNone`); `SyncTable.Table.GetCheckSync` itself is as
  written.
- syscalls.c:289-340: the result of a pipe call goes into the PCB's registers, not into the frame the
  call returns through. A call that does not block leaves that frame as it was
  (`DirectReadKeepsFrame`, `DirectWriteKeepsFrame`). A read that has to wait returns with the bytes it
  was served and their number (`ReaderReturnsWith`); so a read returns with its number exactly when the
  pipe was empty before it, or its frame happened to hold that number already (`ReadResultExactly`). A
  write that blocks may be completed by the drain in its own call, and then `schedule` saves the old
  frame over the result; whether it is can be told from the queued requests and the bytes to come before
  the call (`OwnCallCompletesExactly`). Whenever such a writer runs again, its frame carries its result
  exactly when its own call did not complete it, or the frame happened to hold that number already
  (`WriterReturnsWith`); `AResultIsLost` is a run from boot that ends in such a call.
- syscalls.c:350-362: a lock acquire that has to wait gets the lock and returns with the frame it came
  with. It returns with SUCCESS exactly when the lock was free or the frame held that number already
  (`AcquireReturnsWith`).
- pcb.c:394-403 clears copies of page table entries. Whatever the old table, after a load the valid
  pages are exactly the program's, and every mapped frame is marked as used and mapped once, exactly
  when the old table had no page outside the program's (`ValidPagesExactly`, `FramesAreOwnExactly`). The
  frame of a page left behind is marked free or already given to the new program
  (`LeftBehindIsFreeOrShared`); `AFrameIsShared` is such a table. Loaded one after the other, the second
  of two programs owns its frames exactly when it has a page wherever the first had one
  (`SecondLoadOwnsExactly`). Over runs with loads every frame has one owner at every moment exactly when
  no load leaves a page behind (`RunOwnedExactly`), and then nobody's loads are seen by anybody else
  (`RunWithLoadsIsolates`).
- memory.c:109-113 keeps the pages it mapped before the frames ran out. The heap still ends at the
  break exactly when that does not happen half way (`CallKeepsHeapExactly`); every exact heap whose
  free frames run out below the kernel stack has such a call (`ACallStopsHalfWay`), the heap at the start
  among them (`TheFirstCallStopsHalfWay`). Also, the page a break lies
  in is never mapped: all heap bytes are mapped exactly when the break is at a page boundary
  (`MappedToTheBreakExactly`, and `AByteIsNotMapped` when paging is enabled).
  Growth writes over the entries of pages an earlier break left mapped there, and their frames stay marked
  for ever: over runs every frame is marked exactly while it is mapped, exactly as long as no growing
  break meets such a page (`RunAccountsExactly`), and none does as long as no break stops half way
  (`NoFrameIsLost`); `RetryLosesAFrame` is how one does.
- memory.c:41-58 moves the break before paging without mapping a page, so the heap is exact when paging
  is enabled exactly when the break is then in the page where the kernel's image ends
  (`ExactAtStartExactly`).

## Model

| member | source | states |
|---|---|---|
| `PipeTheorems.EveryIntendedRunIsInOrder` | sync.c:108-288 | in every run of reads and writes, with the guard that was meant: writers wait only on a full ring, readers only on an empty one, never both, and delivered + buffered + pending bytes are all messages in call order, with no interleaving |
| `PipeTheorems.EveryRunIsSteady` | sync.c:108-288 | in every run of the code as written: bytes written are bytes delivered followed by the ring; requests are answered first come first served; of each message exactly the prefix its writer is done with went in, once and in order; blocked writers wake in call order after their whole message, with its length; a read answer is non-empty and as long as asked unless it empties the pipe; queued readers mean an empty ring |
| `PipeTheorems.DrainReadersDrains` | sync.c:205-237 | the reader drain keeps books and bytes, and ends with queued readers only beside an empty ring and no writers |
| `PipeTheorems.DrainWritersDrains` | sync.c:163-203 | the same of the writer drain, from which the mutual recursion is entered the other way |
| `PipeTheorems.WriteStrandsExactly` | sync.c:205-237 | a write as written leaves a writer asleep beside free room exactly when the queued requests run out while its bytes last, a condition on the state before the call |
| `PipeTheorems.MostWritesAreSafe` | sync.c:280-286 | no queued reader, or a message that fits, never strands |
| `PipeTheorems.AsWrittenIsAsMeantExactly` | sync.c:207-237 | a run as written is at every moment the run that was meant exactly when none of its writes strands |
| `PipeTheorems.ThroughoutIsAlways` | sync.c:207-237 | "at every moment" is after every number of calls |
| `PipeTheorems.AsWrittenCanStrand` | sync.c:211-236 | a concrete run as written after which a byte waits beside an empty ring, a reader sleeps beside it, and a later message overtakes it |
| `PipeTheorems.ReadKeeps` | sync.c:108-161 | a read keeps all that holds between calls, and, with the guard meant, the message order |
| `PipeTheorems.WriteKeeps` | sync.c:240-288 | the same of a write |
| `PipeWakes.ReadAccounted` | sync.c:131-161 | those woken and those asleep after a read are those asleep before and, when it blocks, the caller |
| `PipeWakes.WriteAccounted` | sync.c:255-288 | the same of a write, which may wake its own caller |
| `Pipes.DrainReaders` | sync.c:205-237 | the mutually recursive drains end, by queued readers and then which drain is entered; no reader is added and the ring stays within bounds |
| `Pipes.DrainWriters` | sync.c:163-203 | the other half of the recursion |
| `Locks.AcquireKeeps` | sync.c:318-351 | grants followed by waiters stay the requests in order; locked iff owned; waiters only while locked |
| `Locks.HandOverKeeps` | sync.c:376-390 | the same when the lock goes to the head waiter or is freed, also inlined in the wait at 454-466 |
| `Locks.AwaitKeeps` | sync.c:469-472 | condition variables wake their waiters in the order they came: joining |
| `Locks.WakeOneKeeps` | sync.c:497-503 | and leaving |
| `KernelAnswers.ReleaseAnswers` | sync.c:353-393 | a release answers ERROR to everybody but the owner and changes nothing; to the owner SUCCESS, the lock being the head waiter's, who is ready, or free; nothing else changes |
| `KernelAnswers.AcquireAnswers` | sync.c:318-351 | a free lock becomes the caller's, answer SUCCESS; a held one keeps its owner, and the caller sleeps at the end of its queue |
| `KernelAnswers.WaitAnswers` | sync.c:422-477 | a wait answers ERROR to everybody but the lock's owner and changes nothing; from the owner the lock is passed on and the caller sleeps at the end of the queue |
| `KernelAnswers.SignalAnswers` | sync.c:479-507 | the first waiter leaves and is ready, if there is one; the answer is 0 either way |
| `KernelAnswers.BroadcastAnswers` | sync.c:509-543 | all waiters leave and are ready, in their order |
| `KernelAnswers.InitAnswers` | sync.c:12-51 | a blank object under the lowest id not in use and nothing else, or ERROR exactly when the table is full |
| `KernelAnswers.ReclaimAnswers` | sync.c:547-592 | the object is gone and nothing else |
| `KernelAnswers.MissingAnswers` | sync.c:54-60 | a call on an id without an object changes nothing but the answer, a pipe call not even that |
| `KernelAnswers.DelayAnswers` | syscalls.c:221-230 | a negative delay answers ERROR, a delay of zero 0, and nothing else changes |
| `KernelAnswers.ForkAnswers` | syscalls.c:53-70 | the child is ready with the frame of this trap and a fresh slice, the parent's frame is the child's pid, everybody else is as they were |
| `LockRuns.OwnerKeepsLock` | sync.c:353-393 | a lock is its owner's after a trap exactly if the trap is neither the owner's giving it up nor its reclaim |
| `LockRuns.RunTells` | sync.c:318-393 | over runs: who has come back from an acquire owns the lock; who has not is in its queue, or has been given it and is yet to run; nobody else owns it or queues |
| `LockRuns.MutualExclusion` | sync.c:318-393 | no two processes at once have come back from acquiring a lock and not given it up, in any run, with either clock |
| `KernelObjects.EveryRunKeepsObjects` | sync.c:108-543 | in every run of the whole kernel every pipe, lock and condition variable keeps the promises above |
| `KernelRuns.EveryRunSettles` | traps.c:40-70 | with the preempted process put back: after every run each process is on exactly the queue its tag says, one runs, and none is lost |
| `KernelRuns.StepSettles` | syscalls.c:424-447 | every trap, as written or with the re-enqueue, keeps tags, queues and waiting fields in agreement and loses at most the process it says |
| `KernelRuns.ExactlyOnePlace` | pcb.h:80 | each process other than idle is running or linked exactly once on exactly one queue; the tag tells which, both ways |
| `KernelRuns.ClockLosesExactly` | traps.c:52-59 | the tick as written keeps everybody filed exactly when it does not preempt a process other than idle |
| `KernelRuns.LostForever` | traps.c:52-59 | a process lost by the tick as written never runs or waits anywhere again |
| `KernelExamples.AsWrittenLosesInit` | traps.c:52-59 | a run from boot, ticks and one fork, whose last tick as written leaves init on no queue and not running |
| `KernelRuns.StepKeepsProcesses` | syscalls.c:424-447 | no trap makes or drops a process, but for the child of a fork |
| `KernelRuns.BootSettled` | kernel.c:18-120 | the state after boot satisfies the invariant |
| `KernelSteps.ScheduleSettles` | syscalls.c:424-447 | schedule picks the head, or idle, and re-establishes the invariant |
| `KernelSteps.ClockKeeps` | traps.c:40-70 | the clock trap before its schedule, with what it loses |
| `KernelSteps.DelayKeeps` | syscalls.c:217-244 | a delay files the caller on the delay queue, or returns |
| `KernelSteps.ForkKeeps` | syscalls.c:53-73 | a forked child joins the ready queue |
| `SyncSteps.AcquireFiles` | sync.c:318-351 | acquire keeps the filing: taken, or queued and blocked |
| `SyncSteps.PassOnFiles` | sync.c:376-390 | the woken waiter is not silently dropped by the guard of the ready queue |
| `SyncSteps.CvarWaitFiles` | sync.c:422-477 | waiting passes the lock on and blocks the caller |
| `SyncSteps.WakeEveryoneFiles` | sync.c:530-539 | broadcast makes every waiter ready |
| `SyncSteps.ReadFiles` | sync.c:108-161 | a read keeps the filing, drains included |
| `SyncSteps.WriteBlockedFiles` | sync.c:255-288 | a write that does not fit keeps it too, even when its own call completes it |
| `SyncSteps.WriteFitsFiles` | sync.c:255-288 | a write that fits |
| `DelaySweep.SweepIsPartition` | pcb.c:255-279 | the sweep, which unlinks as it walks, keeps those with ticks to go and makes ready those on their last, both in order; the test for zero never skips |
| `KernelProgress.BoundedWaiting` | traps.c:40-70 | whatever else happens, the process at place i of the ready queue runs within (slice + 1) * (i + 1) ticks |
| `KernelProgress.StartsAfresh` | syscalls.c:433 | whoever starts to run has used nothing of its slice |
| `KernelProgress.WithinItsSlice` | traps.c:48-54 | over runs, the running process is not taken off while its ticks are within its slice, until it gives way itself |
| `KernelProgress.SleepsUntil` | pcb.c:255-279 | a process that delays d ticks is still asleep before the d-th tick, in every run |
| `KernelProgress.WakesAtTheLastTick` | pcb.c:255-279 | and at the d-th it is ready or running |
| `KernelProgress.DelaySleeps` | syscalls.c:217-244 | SysDelay puts its caller to sleep for as long as it asked |
| `KernelProgress.ResultArrives` | syscalls.c:432-441 | a ready process keeps its registers until it is dispatched, and then they are the frame it returns with |
| `PipeOutcomes.DrainLeaves` | sync.c:205-237 | how many bytes a drain leaves to come, from the requests, the ring and the bytes to come before it, for either guard |
| `PipeOutcomes.OwnCallCompletesExactly` | sync.c:271-283 | a writer that does not fit is still asleep after its own call exactly when those numbers leave bytes to come |
| `PipeOutcomes.ReadFated` | sync.c:144-156 | a read leaves a queued writer queued or wakes it with the length of its message |
| `PipeOutcomes.WriteFated` | sync.c:255-288 | so does a write |
| `KernelOutcomes.DirectReadKeepsFrame` | syscalls.c:300-312 | a read that does not block returns with the frame it came with, its result in the PCB only |
| `KernelOutcomes.DirectWriteKeepsFrame` | syscalls.c:327-338 | the same of a write |
| `KernelOutcomes.OwnCallEnds` | sync.c:271-283 | after a write that does not fit the caller is ready, with its length, if its own call completes it, and asleep otherwise |
| `KernelOutcomes.OwnCallResultIsLost` | syscalls.c:432-441 | in the first case schedule overwrites the result with the frame of the call |
| `KernelOutcomes.StepOwes` | sync.c:163-237 | until it runs again, whatever happens, a sleeping writer stays owed its length, and it runs with it |
| `KernelOutcomes.WriterReturnsWith` | syscalls.c:327-338 | over any run up to its return, a writer that did not fit returns with its length exactly when its own call did not complete it or its frame held that number before |
| `KernelExamples.AResultIsLost` | syscalls.c:327-330 | a run from boot after which two requests take a whole message and its writer's result is lost, with either guard |
| `PipeOutcomes.ReadServes` | sync.c:144-156 | a read leaves a queued reader queued, or serves it what it is woken with |
| `PipeOutcomes.WriteServes` | sync.c:255-288 | so does a write |
| `PipeOutcomes.ReadAnswers` | sync.c:131-155 | a read waits exactly when the ring is empty, and else gets the first bytes of the ring, as many as it asked for if there are; they are those the history says it took |
| `KernelReaders.StepServes` | sync.c:205-237 | whatever happens, a sleeping reader goes on sleeping or is served, and then it is ready with its bytes and their number, or runs with them |
| `KernelReaders.ReaderReturnsWith` | syscalls.c:300-312 | over any run up to its return, a read that had to wait returns with the bytes it was served in that run at the front of its buffer, and with their number in its frame |
| `KernelReaders.ReadResultExactly` | syscalls.c:300-312 | a read returns with its count in the frame exactly when the pipe was empty before it or the frame held that number before |
| `KernelReturns.RestReturns` | syscalls.c:432-441 | over any run up to its return, who sleeps at no pipe returns with the registers it was scheduled away with |
| `KernelReturns.AcquireReturnsWith` | syscalls.c:350-362 | an acquire that waits returns with the frame it came with; with SUCCESS exactly when the lock was free or the frame held that number before |
| `KernelReturns.DelayReturnsWith` | syscalls.c:217-244 | a delay returns with 0, over any run up to its return |
| `KernelReturns.TickReturnsWith` | traps.c:40-70 | a process the clock interrupts goes on with the frame it was interrupted with, over any run up to then |
| `KernelReturns.ForkReturnsWith` | syscalls.c:57-70 | over any run up to then, a child first runs with the frame its parent forked with |
| `KernelDrains.DrainTwice` | sync.c:163-237 | draining in stages is draining at once |
| `KernelCalls.ReadInStages` | sync.c:144-156 | the caller's own copy followed by the drain is the whole read |
| `KernelCalls.WriteInStages` | sync.c:255-288 | the same of a write |
| `KernelCode.Kernel.Trap` | traps.c:40-70 | the code of every modelled trap, with its schedule, does to the fields what the step does to the model, and keeps the invariant |
| `KernelCode.Kernel.ClockHandler` | traps.c:40-70 | the clock handler's new state |
| `KernelCode.Kernel.Schedule` | syscalls.c:424-447 | schedule's new state: queue, tags, saved and loaded frame |
| `KernelCode.Kernel.UpdateDelayedProcesses` | pcb.c:255-279 | the loop that unlinks from the queue it goes along equals the sweep, PCB by PCB |
| `KernelCode.Kernel.AddToReadyQueue` | pcb.c:95-110 | appended exactly when the tag is the default |
| `KernelCode.Kernel.AddToDelayQueue` | pcb.c:127-143 | the same for the delay queue |
| `KernelCode.Kernel.RemoveFromDelayQueue` | pcb.c:145-157 | taken off from anywhere, exactly when delayed |
| `KernelCode.Kernel.SyncReadPipe` | sync.c:108-161 | result, bytes copied out, and the whole new state of a read |
| `KernelCode.Kernel.SyncWritePipe` | sync.c:240-288 | result and whole new state of a write |
| `KernelCode.Kernel.SyncDrainReaders` | sync.c:205-237 | the loop and its nested calls drain the pipe and wake its readers as the functions say |
| `KernelCode.Kernel.SyncDrainWriters` | sync.c:163-203 | the same for writers |
| `KernelCode.PipeObj.CopyTo` | sync.c:148-155 | bytes leave the ring through wrap-around; write position == read position + count, modulo the capacity |
| `KernelCode.PipeObj.CopyIn` | sync.c:178-184 | bytes enter the ring as far as they fit |
| `KernelCode.Kernel.SyncLockAcquire` | sync.c:318-351 | acquire's result and new state |
| `KernelCode.Kernel.SyncLockRelease` | sync.c:353-393 | release's result and new state, those of `ReleaseAnswers` |
| `KernelCode.Kernel.SyncCvarWait` | sync.c:422-477 | wait: the lock passed on, the caller queued and blocked |
| `KernelCode.Kernel.SyncCvarSignal` | sync.c:479-507 | signal |
| `KernelCode.Kernel.SyncCvarBroadcast` | sync.c:509-543 | broadcast |
| `KernelCode.Kernel.InitSyncObject` | sync.c:12-51 | a new object under the lowest free id, or an error |
| `KernelCode.Kernel.SyncReclaim` | sync.c:547-592 | the object and its id are gone |
| `KernelCode.Kernel.SysDelay` | syscalls.c:217-244 | delay, its error case and its zero case |
| `KernelCode.Kernel.SysPipeRead` | syscalls.c:289-314 | a blocked read schedules |
| `KernelCode.Kernel.SysPipeWrite` | syscalls.c:316-340 | a blocked write schedules |
| `KernelCode.Kernel.SysLockAcquire` | syscalls.c:350-362 | a blocked acquire schedules, else the result goes into the frame |
| `KernelCode.Kernel.SysFork` | syscalls.c:53-73 | the new state of a fork, that of `ForkAnswers` |
| `KernelCode.Kernel.constructor` | kernel.c:18-120 | the kernel after boot |
| `CircularList.InsertTail` | list.c:24-47 | links and count spell out the sequence with the node appended; a null list or node changes nothing |
| `CircularList.InsertHead` | list.c:49-66 | the same in front |
| `CircularList.ListContains` | list.c:68-89 | membership, both ways, and the error case |
| `CircularList.ListRemove` | list.c:91-108 | the node cut out wherever it is, and left unlinked; an unlinked node changes nothing |
| `CircularList.Pop` | list.c:120-137 | the head, unlinked, or null for an empty or missing list |
| `CircularList.Peek` | list.c:139-148 | the head, left in place |
| `CircularList.ListIsEmpty` | list.c:110-118 | emptiness by the count |
| `CircularList.ClearList` | list.c:150-167 | empty, and no former node left linked |
| `CircularList.CutIsWithout` | list.c:91-108 | the removal is the one the kernel model uses |
| `CircularList.Undisturbed` | list.c:24-137 | work on one list leaves all lists that share no node with it as they were, and apart |
| `CircularList.MoveHead` | sync.c:376-382 | a waiter popped and appended elsewhere: both lists, and no other, change |
| `QueueMoves.DrainReadersDoes` | sync.c:205-237 | every pop, insert at the head and insert at the tail of a reader drain, and of the writer drains it calls, is legal when it comes, and together they leave the pipe's queues and the ready queue as the drain says |
| `QueueMoves.DrainWritersDoes` | sync.c:163-203 | the same, entered from the writers |
| `TrapMoves.OneQueueOnly` | pcb.h:80 | no process is on two queues, be they the ready queue, the delay queue or a queue of an object |
| `TrapMoves.LooseIsUnqueued` | pcb.c:95-143 | a process between queues is on none of them, which the two add_to functions rely on |
| `TrapMoves.StepDoes` | syscalls.c:424-447 | every list operation of every trap, and of the schedule it may end in, is legal when it comes, above all: what is linked is linked nowhere; and the queues end as the trap says |
| `LinkedQueues.LooseOnNone` | pcb.c:95-143 | so the node of a process between queues is on none of the linked lists |
| `LinkedQueues.UpdateDelayedProcesses` | pcb.c:255-279 | the walk over the links, with the next node saved before list_remove clears those of this one: the delay list ends as those with ticks to go, the ready list with those on their last appended, the ticks counted down |
| `LinkedQueues.PlayMove` | list.c:24-167 | each list operation on the one node of a process keeps the links spelling out the queues, on lists that share nothing |
| `LinkedQueues.LinkTrap` | pcb.h:80 | so does every trap, as written or with the re-enqueue, with a node more for a forked child and lists more or less for objects made or reclaimed |
| `LinkedQueues.LinkRun` | pcb.h:80 | and every run |
| `LinkedQueues.LinkBoot` | kernel.c:18-120 | the lists after boot |
| `SyncTable.Table.GetNewID` | sync.c:594-608 | the lowest free id; an error exactly when the counter is at its limit |
| `SyncTable.Table.FreeID` | sync.c:610-621 | the id is free and the counter still counts |
| `SyncTable.Table.InitSyncObject` | sync.c:12-51 | behind the callers' check an id is always found; an invalid kind leaves table and counter as they were |
| `SyncTable.Table.SyncInit` | sync.c:69-99 | an error exactly when the table is full, else a new entry |
| `SyncTable.Table.GetCheckSync` | sync.c:54-67 | found exactly when the id is in the table, whatever the kind |
| `SyncTable.Table.SyncReclaim` | sync.c:547-592 | exactly that entry is gone, and its id free |
| `SyncTable.Table.CounterIsSize` | sync.c:72-75 | the counter callers compare with the limit is the number of objects |
| `SyncTable.Table.SameIdAsModel` | sync.c:594-608 | the id found is the one the kernel model gives |
| `Frames.AllocateFrame` | frames.c:11-26 | the lowest free frame, now used, or an error |
| `Frames.FreeFrame` | frames.c:28-43 | the frame free; a number out of range changes nothing |
| `Frames.FirstFree` | frames.c:17-22 | an error exactly when no frame is free, else the lowest free one |
| `Frames.FreeUndoesAllocate` | frames.c:11-43 | giving a frame back undoes taking it |
| `Frames.AllocateAfterFree` | frames.c:11-43 | a freed frame is the next taken exactly when no lower one is free |
| `KernelBreak.GrowReaches` | memory.c:99-126 | growth maps exactly as many pages as there are free frames, each on its own, and succeeds exactly when they suffice |
| `KernelBreak.ShrinkDrops` | memory.c:73-93 | shrinking unmaps exactly the pages above and gives back exactly their frames |
| `KernelBreak.GrowThenShrink` | memory.c:60-134 | growing and shrinking back restores bitmap and page table exactly |
| `KernelBreak.GrowAndSetBack` | memory.c:22-134 | so do two calls of SetKernelBrk on an exact heap |
| `KernelBreak.CallKeepsHeapExactly` | memory.c:60-134 | a call keeps the heap exact exactly when it is refused, finds frames enough or none at all; success exactly when frames suffice; the break moves exactly then |
| `KernelBreak.CallSparesTemp` | memory.c:62-67 | no call maps the page for temporary mappings |
| `KernelBreak.RefusedExactly` | memory.c:62-67 | the addresses refused are those below the first data page and from the kernel stack on |
| `KernelBreak.MappedToTheBreakExactly` | memory.c:28-29 | all heap bytes are mapped exactly when the break is at a page boundary |
| `KernelBreak.ACallStopsHalfWay` | memory.c:108-113 | on every exact heap with free frames, a call for one page more than them, below the kernel stack, fails and leaves pages mapped beyond the break |
| `MemoryStart.InitRegion0` | memory.c:138-194 | table and bitmap once image and kernel stack are mapped to the frames of the same numbers |
| `MemoryStart.StartIsIdentity` | memory.c:149-188 | image and stack, and nothing else, are mapped to the frames of the same numbers; text is executable and not writable, all else writable and not executable |
| `MemoryStart.StartUsedExactly` | memory.c:147-188 | the marked frames are frame 0 and those mapped to |
| `MemoryStart.ExactAtStartExactly` | memory.c:41-58 | the heap is exact when paging is enabled exactly when the break is in the page where the image ends |
| `MemoryStart.CallBeforePaging` | memory.c:41-58 | a call before paging maps nothing and never lowers the break |
| `MemoryStart.AByteIsNotMapped` | memory.c:27-28 | when paging is enabled with the break one byte into a page, that byte is not mapped |
| `MemoryStart.TheFirstCallStopsHalfWay` | memory.c:108-113 | and the first call after it can stop half way |
| `MemoryStart.OwnedAtStart` | kernel.c:45-76 | when paging is enabled every mapped frame has one owner |
| `MemoryStart.AccountedAtStart` | kernel.c:45-76 | and every marked frame is mapped, but for frame 0 |
| `MemoryCode.SetKernelBrk` | memory.c:22-134 | result, break, page table and bitmap of a call, before and after paging is on; nothing stale left in the TLB |
| `MemoryCode.MapPage` | memory.c:239-245 | the entry and the frame's mark |
| `MemoryCode.UnmapPage` | memory.c:249-256 | the entry cleared and its frame freed |
| `Memory.Machine.Translate` | Documentation/Yalnix Reqs.md:108-116 | a page that is not stale is translated as the page table says, whatever the hardware cached or dropped |
| `Memory.Machine.CopyPage` | context_switch.c:107 | memcpy of a page through the TLB copies exactly that page |
| `ContextSwitch.SetupTempMapping` | context_switch.c:137-144 | after the flush nothing in the TLB is stale |
| `ContextSwitch.RemoveTempMapping` | context_switch.c:150-155 | afterwards the temporary page may be stale, and only it |
| `ContextSwitch.CopyThroughTemp` | context_switch.c:106-108 | setup, copy, removal: the page is in the frame; the stale entry is never used |
| `ContextSwitch.CopyPageTable` | context_switch.c:95-114 | child table, memory and bitmap of the whole copy |
| `ContextSwitch.InitializeKernelStack` | memory.c:203-236 | a stack on new frames, or out of frames |
| `ContextSwitch.KCCopy` | context_switch.c:63-93 | the running kernel stack copied into the new frames |
| `ContextSwitch.MapKernelStack` | context_switch.c:167-173 | entry by entry: the stack's are the given ones, all others as they were |
| `ContextSwitch.KCSwitch` | context_switch.c:16-60 | afterwards nothing in the TLB is stale, region 1 is the next process's, region 0 shows its stack, and every entry outside the stack is as it was |
| `ContextSwitch.UserStore` | Documentation/Yalnix Reqs.md:98-116 | byte by byte: the one at the offset of the page's frame is the new one, all others as they were; it faults exactly when the page may not be written |
| `ForkCopy.CopyIsFaithful` | context_switch.c:95-114 | same valid pages, protections and contents, on distinct frames that were free; nothing in use changed |
| `ForkCopy.NewStackFits` | memory.c:203-236 | a stack is found exactly when there are frames enough, on frames of its own |
| `ForkCopy.StackIsCopied` | context_switch.c:74-89 | contents copied, all other frames unchanged |
| `AddressSpaces.EveryRunIsolates` | context_switch.c:16-114 | over any run of forks, switches, breaks and stores, a process that stores nothing finds every page as it was |
| `AddressSpaces.StepIsolates` | context_switch.c:16-114 | no step changes what anybody else sees |
| `AddressSpaces.StepOwned` | frames.c:11-43 | every mapped frame stays marked as used and mapped in one place only |
| `AddressSpaces.ForkCopies` | syscalls.c:53-70 | the child sees what the parent sees, with a copy of its kernel stack; everybody else sees what they saw |
| `AddressSpaces.StoreFound` | Documentation/Yalnix Reqs.md:98-116 | the storing process finds the new byte at its offset and the rest of the page as it was; without the right to write nothing changes |
| `SpaceFrames.KernelPagesStay` | context_switch.c:167-173 | no fork, switch or store changes a mapping of region 0 outside the kernel stack; the temporary page stays unmapped |
| `SpaceFrames.FramesStay` | context_switch.c:16-114 | a frame in use, the kernel stacks' included, keeps its contents but for the one stored to; only a switch changes who runs |
| `SpaceFrames.HeapStays` | context_switch.c:16-114 | they leave an exact kernel heap exact |
| `SpaceFrames.RunHeapExactly` | memory.c:60-134 | over runs the heap is exact at every moment exactly when no break stops half way |
| `SpaceFrames.StepAccountsExactly` | memory.c:99-126 | a step keeps every frame marked exactly while it is mapped exactly when it is no growing break over a page already mapped |
| `SpaceFrames.RunAccountsExactly` | frames.c:11-43 | so does a run, at every moment |
| `SpaceFrames.NoFrameIsLost` | frames.c:11-43 | in a run from an exact heap in which no break stops half way no frame is lost |
| `AddressCode.Fork` | syscalls.c:60-70 | the code's copies, through the TLB, are the fork step |
| `AddressCode.Switch` | context_switch.c:16-60 | the code's switch is the switch step |
| `AddressCode.Store` | Documentation/Yalnix Reqs.md:98-116 | a user store through the TLB is the store step |
| `AddressCode.Break` | memory.c:22-134 | SetKernelBrk is the break step |
| `ArgStack.ArgumentsReadBack` | load_program.c:309-321 | a stack that holds the image of an argument list reads back, from argc through the pointers and two nulls, as exactly that list |
| `ArgStack.PackedSplits` | load_program.c:154-158 | the packed arguments fall apart where the strings do |
| `ArgStack.BlockIsHighest` | load_program.c:98-106 | the block is the highest double-word boundary with room above it, the stack pointer a frame below |
| `ProgramLayout.StackFits` | load_program.c:98-120 | when the size check passes, every byte from the stack pointer up lies on stack pages, the argument block ends below the strings, and a page stays free below the stack |
| `ProgramLayout.FitsExactly` | load_program.c:116-120 | the size check passes exactly the programs that leave a page between data and stack |
| `ProgramLayout.LeavesAPageExactly` | load_program.c:116-120 | in addresses: exactly those with room for a whole page between the end of the data and the stack pointer |
| `ProgramLayout.StackStartsAtItsPage` | load_program.c:106-112 | rounding and counting gives the page of the stack pointer |
| `ProgramLayout.SegmentsMapped` | load_program.c:186-234 | text, data and stack are mapped exactly when frames suffice, each page on a frame of its own |
| `ProgramLayout.ProgramIsLaid` | load_program.c:186-287 | text to read and execute, data and stack to read and write, on distinct frames, a page left out between data and stack |
| `ProgramLayout.ValidPagesExactly` | pcb.c:392-406 | after a load over any table, the valid pages are exactly the program's exactly when no others were valid before |
| `ProgramLayout.FramesAreOwnExactly` | pcb.c:392-406 | after a load over any table, every mapped frame is marked as used and mapped once exactly when nothing was left behind |
| `ProgramLayout.LeftBehindIsFreeOrShared` | pcb.c:394-403 | the frame of a page left behind is free although mapped, or also one of the program's |
| `ProgramLayout.AFrameIsShared` | pcb.c:394-403 | a concrete old table over which no load owns its frames |
| `ProgramLayout.OnePageLeftCanBeLoadedOver` | load_program.c:112-120 | and everything that fits can be loaded over it |
| `ProgramLayout.SecondLoadOwnsExactly` | pcb.c:392-406 | after a load into an empty table and another one over it, every mapped frame is marked as used and mapped once exactly when the second program has a page wherever the first had one |
| `ProgramRuns.LoadOwnedExactly` | pcb.c:392-406 | among all processes, a load keeps every mapped frame with one owner exactly when it leaves no page behind |
| `ProgramRuns.RunOwnedExactly` | pcb.c:392-406 | so does a run of forks, switches, breaks, stores and loads, at every moment |
| `ProgramRuns.RunWithLoadsIsolates` | load_program.c:171-234 | in such a run a process that neither stores nor loads finds every page as it was |
| `ProgramRuns.LoadAccounts` | pcb.c:392-406 | a load that leaves nothing behind gives back exactly the old program's frames and takes exactly its own: none is lost |
| `ProgramRuns.RetryLosesAFrame` | memory.c:108-113 | a break that stopped half way, asked for again after a load that gave frames back, loses a frame |
| `UserMemory.StoreByte` | load_program.c:309-321 | a byte stored through the TLB is the only one seen to change through the page table |
| `UserMemory.StoreWord` | load_program.c:311-314 | a pointer stored |
| `UserMemory.StrCpy` | load_program.c:315-317 | a string copied, terminator included |
| `LoadProgram.CountArguments` | load_program.c:80-85 | the size is that of the packed arguments |
| `LoadProgram.SaveArguments` | load_program.c:143-158 | the buffer holds the packed arguments |
| `LoadProgram.BuildArguments` | load_program.c:309-321 | what is seen through the page table from the block up is the image, below it unchanged |
| `LoadProgram.MapProgram` | load_program.c:171-287 | the new table and bitmap, and a TLB with nothing stale after success |
| `LoadProgram.LoadProgram` | load_program.c:72-324 | success exactly when a page is left between data and stack pointer and frames suffice; then the pages are the program's, and what is read through them at the block is exactly the arguments |

## Left out

- Exit, wait and reaping (`terminate_process`, `orphan_children`, `check_zombies`, `SysWait`): PCBs are freed while still linked elsewhere, so no tree invariant holds.
- `SysBrk`: it mixes region-relative and absolute pages and never stores the break; `SetKernelBrk` is modelled.
- TTY calls, the memory trap, `DoIdle`, tracing, `Halt` and the dispatch tables: stubs or wiring.
- Opening and reading the executable, its bytes, and the clearing of its uninitialized data: the segment sizes are inputs.
- `should_fork` and `KernelContextSwitch`: hardware code that is not part of this model; kernel contexts are not copied.
- Kernel buffers of pipe calls: the sequence a sleeping PCB owns, without addresses; the copy to the user's buffer is left out.
- KernelCode.Kernel.SyncReadPipe: takes buffers of length >= 0 only; the code relies on that (sync.c:145-155).
- KernelCode.Kernel.SyncCvarWait: ends at its schedule; the re-acquire after the wake-up (syscalls.c:411) is not modelled, nor the read through a null owner in its error trace (sync.c:444-445).
- KernelCode.Kernel.SyncLockRelease: on a lock nobody owns the code reads through the null owner in its error trace (sync.c:367-368); the model returns the error.
- KernelCode.Kernel.InitSyncObject: returns whether it worked and not the id, which `SyncTable` gives, and counts the table where its callers compare the counter; `SyncTable.Table.CounterIsSize` says the two agree.
- KernelCode.Kernel.SysPipeRead: the copy to the user's buffer is left out.
- KernelCode.Kernel.SysFork: the list of children and the `should_fork` branch are left out.
- CircularList.InsertTail: of a node that is already on a list, which would break that list's links, is not modelled.
- CircularList.InsertHead: the same.
- CircularList.ListRemove: of a node on another list, which would be unlinked there while this list's count goes down, is not modelled.
- SyncTable.Table.InitSyncObject: on a full table the code would go on with id -1; its callers exclude that, as `SyncInit` does here.
- KernelCode.Kernel.SyncCvarBroadcast: the missing return value (sync.c:541-543) is whatever the caller finds, a parameter.
- KernelCode.Kernel.SyncReclaim: in runs, only of objects nobody waits on; the code itself says others break.
- KernelCode: queues and the table are `seq` and `map` fields. The queues as linked lists are `LinkedQueues`, trap by trap and against the same steps of the model; the table with its arrays is `SyncTable`. They share contracts with it, not objects.
- KernelCode.Kernel.UpdateDelayedProcesses: goes along positions of a sequence; the walk over saved links is `LinkedQueues.UpdateDelayedProcesses`.
- ContextSwitch.CopyPageTable: needs frames enough; the code does not check (context_switch.c:101).
- ContextSwitch.KCCopy: the new stack's entries are values, already valid as InitializeKernelStack makes them.
- LoadProgram.MapProgram: text that does not lie below data is not modelled; the code does not check for it.
- LoadProgram.LoadProgram: sizes that overflow 32 bits, a failing malloc, and text that does not lie below data are not modelled. When frames run out only the table and bitmap are stated.
- AddressSpaces: user loads and the kernel's own stores are not steps; loading a program is one in `ProgramRuns`, which takes it as given that a load writes through the program's own pages only, and leaves out a load that fails.
