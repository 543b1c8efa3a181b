# A verified model of the Kaya nucleus and pager

Kaya is a small operating system in three layers: queues, trees and semaphore lists of process
control blocks (phase 1), a nucleus of system calls, interrupts and a scheduler (phase 2), and a
demand pager with a disk as backing store (phase 3). This project models all three and proves what
they are for. The sizes (processes, frames, pages, users) are parameters, so every statement holds
for all of them, and for all runs.

**The nucleus.** `Machine` is the nucleus as a state machine: queues are sequences, blocked processes a
map from semaphore addresses to queues, and the process tree a value of its own (`Family`). `Runs`
strings system calls and interrupts together, `Steps` and `Killing` prove that each keeps the invariant,
and `Guarantees` says what follows. `Effects` gives the effect of every event literally, in terms of
queues, values, places in the device array and who runs next, without the functions that the handlers
are made of. Below it stands the code: `ProcQ` and `PcbLists` work on the links of the control blocks,
`ActiveSemaphoreList` on the sorted descriptor list, and the class `Nucleus` (in `NucleusCode`) has the
handlers themselves, working on pointers and counters. Each is proved to do to the pointers what the
machine does to the lists, including the loop and recursion of `terminateprocess` (`Culling`) and the
start-up in `main`; `Nucleus.Handle` ties the two layers together for every event. A handler that ends
in LDST, HALT, PANIC or WAIT ends the step.

**The pager.** `Paging` is a concurrent state machine: each user process has a program counter, every P,
V and device command is one step, and so is a region with interrupts off. Semaphores are a value and a
queue; that they exclude each other is proved, as is that the disk serves its holder. The translation
cache may hold any set of valid entries and may lose any of them at any time. The history variable
`flat` holds what the processes have stored. `PagingInv` and `PagingSteps` have the invariant and its
proof, `PagingRuns` the promises, `PagingTurns` that turns are bounded. `PagingPaths` has the way of a
process from place to place, `PagingEffects` the literal effect of each step on tables, memory and disk,
and `PagingFates` what becomes of a fault: one that can be served brings in its own page, and a fatal
one ends the process. `Joined` shows that the pager's semaphores are the nucleus's. The class `Vm` has
the frame table and page tables as objects with pointers between them, `Backing` the sequential disk
driver, and `Pager` (in `PagerCode`) every step of the machine on these objects, the semaphores, the
disk and memory; `Pager.Handle` is to the pager what `Nucleus.Handle` is to the nucleus.

## Where the code departs from its stated intent

- `outProcQ` starts its search at the tail, where it also stops (phase1/pcb.c:107,
  phase1/pcb.c:133-149), and so finds the tail only; its comment (phase1/pcb.c:103-105) wants removal
  from anywhere. The parameter `scan` has both. For the code as written, `Killing.KillAllOutcome` and
  `Runs.StepInv` give the exact condition under which a kill is right, and `AsWritten.FatalRun` a
  run of five events after start-up that goes wrong.
- `insertChild` does not clear the sibling pointer of an only child (phase1/pcb.c:267-286), and
  `removeChild` does not clear that of the child it removes (phase1/pcb.c:292-311). The exact condition
  is in `PcbLists.InsertChild`; the nucleus meets it, as it inserts fresh control blocks only.
  `PcbLists.MoveFirst` is what happens otherwise: a child moved to a childless parent takes its younger
  siblings along.
- `TERMCNT` is 3 (h/const.h:128) for two sub-devices per terminal: terminal 5 reads on the clock's
  semaphore, and terminals 6 and 7 lie outside the array (`Interrupts.TerminalsTooFarApart`,
  `Interrupts.DeviceSlots`). Their interrupts keep the invariant in some cases only: at the clock's slot
  exactly if its value is negative, past the array exactly if the value is not (`Strays.InterruptExact`).
- Nothing keeps P and V from a device's semaphore, or a wait from a slot past the array. `Strays` has the
  exact cases in which these keep the invariant, and runs from start-up in which they do not.
- `NULL` and `MAXINT` are one address (h/const.h:98-100), so no semaphore can have it.
- `terminateUserProc` leaves the valid bits of the process set (phase3/vmIOsupport.c:234-241). A valid
  entry is that of the frame it names exactly until its process has released that frame
  (`PagingRuns.EntryOwned`); `Lifetime.ValidAfterEnd` is a run that ends with an entry that is valid and
  a frame that is empty.
- `diskIO` has its process ended without a V when the disk is not ready (phase3/initProc.c:215-217,
  phase3/initProc.c:228-230), and the disk's semaphore stays taken (`BackingStore.Backing.DiskIo`).

## Assumptions

- The processes' own semaphores start non-negative, are changed by P and V only, and are not in the
  device array. A wait names a slot inside the array.
- In the pager's state machine disk and tape operations succeed. All user processes can be created.
- A page fault is for a page below the last table entry, or for the stack page; a fault for any other
  cause is a fatal one.

## Model

| member | source | states |
|---|---|---|
| ProcQ.InsertProcQ | phase1/pcb.c:54-67 | on a circular queue with mutually inverse links and the tail last, the new member becomes the tail behind the old ones, and the links are circular again |
| ProcQ.RemoveProcQ | phase1/pcb.c:74-100 | the head leaves, with both links cleared, and the rest is a queue in the old order |
| ProcQ.OutProcQ | phase1/pcb.c:106-151 | a member that the search finds leaves, the rest keeping its order; otherwise NULL and no link changes. The search finds any member if it starts at the head, the tail only as written |
| ProcQ.HeadProcQ | phase1/pcb.c:156-166 | the head, or NULL, with nothing changed |
| PcbLists.FreePcb | phase1/pcb.c:174-201 | the block becomes the first of the free list, with every other link, its processor state, time and trap vectors cleared |
| PcbLists.AllocPcb | phase1/pcb.c:207-233 | the first free block, with all of that cleared, or NULL |
| PcbLists.InitPcbs | phase1/pcb.c:239-247 | all blocks of the table are free, the last one first |
| PcbLists.InsertChild | phase1/pcb.c:267-286 | the process becomes its parent's first child exactly when there were children before or its own sibling pointer was clear |
| PcbLists.RemoveChild | phase1/pcb.c:292-311 | the first child leaves, with its sibling pointer as it was, and the sibling list is the rest |
| PcbLists.MoveFirst | phase1/pcb.c:267-311 | a first child that is removed and then inserted below a childless parent is not its only child there: both parents have the younger siblings |
| PcbLists.OutChild | phase1/pcb.c:317-349 | the process leaves its parent's list from wherever it is, the others keeping their order |
| ActiveSemaphoreList.Asl.FindASemd | phase1/asl.c:55-63 | the walk ends, between the sentinels, at the last descriptor below the address |
| ActiveSemaphoreList.BeforeUnique | phase1/asl.c:55-63 | that place is unique |
| ActiveSemaphoreList.BeforeFinds | phase1/asl.c:55-63 | a semaphore is active exactly when the descriptor behind that place is its own, and never the last sentinel |
| ActiveSemaphoreList.InsertSorted | phase1/asl.c:79-112 | a new address goes in there and leaves the list sorted, with one address more |
| ActiveSemaphoreList.RemoveSorted | phase1/asl.c:120-139 | taking an address out leaves the list sorted, with that address less |
| ActiveSemaphoreList.Asl.InsertBlocked | phase1/asl.c:79-112 | the process joins the tail of the semaphore's queue, and the list again represents a map from addresses to non-empty queues; it fails exactly for want of a process or of a descriptor, and then changes nothing |
| ActiveSemaphoreList.Asl.RemoveBlocked | phase1/asl.c:120-139 | the first waiter leaves with its semaphore address cleared; a queue that becomes empty gives its descriptor back |
| ActiveSemaphoreList.Asl.OutBlocked | phase1/asl.c:146-174 | the process leaves its queue if the search finds it; where it is queued and not found, the code stores through NULL |
| ActiveSemaphoreList.Asl.HeadBlocked | phase1/asl.c:180-192 | the first waiter, who stays, or NULL |
| ActiveSemaphoreList.Asl.constructor | phase1/asl.c:198-211 | all descriptors idle but for two sentinels, and no semaphore active |
| Family.PostOrderExact | phase2/exceptions.c:255-265 | the order in which the recursion frees processes holds the process and its descendants, each exactly once, and nobody else |
| Family.AdoptForest | phase1/pcb.c:267-286 | a new child leaves an acyclic forest in which each child is on its parent's list exactly once |
| Family.PruneForest | phase2/exceptions.c:255-292 | so does the removal of a process with everything below it |
| Killing.KillAllOutcome | phase2/exceptions.c:255-292 | killing victim by victim is removing all victims at once; with the search as written, exactly when the kill order takes every queue apart from its tail |
| Killing.KillOrder | phase2/exceptions.c:260-265 | in the kill order every process comes after its children, and these come from the first child on |
| Culling.CondemnedKill | phase2/exceptions.c:255-292 | taking the tree apart child by child while killing ends where killing the subtree in its kill order ends |
| Culling.StageDone | phase2/exceptions.c:260-265 | one recursive call takes the kill from one stage of its loop to the next |
| Steps.DescriptorLeft | phase1/asl.c:79-112 | while a process runs a descriptor is free, so a blocking insertBlocked cannot fail and its result may be ignored |
| Steps.SchedulerInv | phase2/scheduler.c:38-99 | the scheduler keeps the invariant: each process in one place, counters exact, semaphore values exact, one tree |
| Steps.VerhogenInv | phase2/exceptions.c:296-314 | so does V |
| Steps.WaitInv | phase2/exceptions.c:318-499 | so do P, waitforclock and waitio |
| Steps.InterruptInv | phase2/interrupts.c:217-248 | so does a device interrupt |
| Steps.TickInv | phase2/interrupts.c:129-153 | so does a clock tick |
| Steps.QuantumEndInv | phase2/interrupts.c:102-125 | so does the end of a time slice |
| Steps.CreateProcessInv | phase2/exceptions.c:226-251 | so does createprocess, whether or not a block is free |
| Steps.SurvivorsCore | phase2/exceptions.c:255-292 | so does a kill |
| Runs.StepInv | phase2/exceptions.c:70-161 | every system call and interrupt keeps the invariant; a kill corrupts the queues exactly when the search is as written and some victim has someone behind it that is not killed earlier |
| Runs.RunInv | phase2/exceptions.c:70-161 | the invariant holds throughout every run |
| Runs.BootInv | phase2/initial.c:97-143 | main establishes it |
| AsWritten.FatalRun | phase1/pcb.c:133-149 | five events after start-up are enough to corrupt a queue with the search as written |
| Guarantees.OnePlace | phase2/exceptions.c:226-499 | a process is in exactly one of free list, ready queue, processor and semaphore queues, in one semaphore's queue at most, and free exactly when it is not in the tree |
| Guarantees.PanicExact | phase2/scheduler.c:75-80 | with nobody running, the scheduler panics exactly when there are live processes and all of them wait for a semaphore that is no device's |
| Guarantees.PanicIsDeadlock | phase2/scheduler.c:75-80 | after a panic no sequence of interrupts would ever make a process ready again |
| Guarantees.HaltExact | phase2/scheduler.c:70-73 | it halts exactly when the first process is gone, which is when no process is left |
| Guarantees.KillExact | phase2/exceptions.c:255-292 | a kill that corrupts nothing removes the subtree and nobody else: queues keep their survivors in order, each semaphore of the processes' own rises by its killed waiters, a device's does not, and both counters fall by exactly the victims they counted |
| Guarantees.BoundedWaiting | phase2/scheduler.c:52-67 | a ready process with k others ahead of it has run, or died, by the (k+1)st call of the scheduler in any run that corrupts nothing, with either search |
| Guarantees.SignalledInTurn | phase2/exceptions.c:296-314 | a waiter with k others ahead of it is released, or dead, by the (k+1)st V on its semaphore in any such run |
| Guarantees.SemaphoreLaw | phase2/exceptions.c:296-348 | after every such run the queue of a semaphore is as long as its negative value says; at a device, queue and killed waiters still owed an interrupt together are |
| Guarantees.SignalFindsWaiter | phase2/exceptions.c:302-311 | a V whose result is not positive always finds a waiter, and makes the first one ready |
| Guarantees.ValueOverRun | phase2/exceptions.c:255-348 | over every such run the value of such a semaphore rises by one for each V and each killed waiter and falls by one for each P, and nothing else changes it |
| Guarantees.CreateJoins | phase2/exceptions.c:226-251 | the new process descends from exactly its maker and those its maker descends from, nobody else's descent changes, and it is last among the ready |
| Guarantees.ClockBlocks | phase2/exceptions.c:412-441 | the clock's semaphore is never positive, and waiting for the clock always blocks, behind earlier waiters |
| Guarantees.TickWakesAll | phase2/interrupts.c:129-153 | the tick that the loop of Nucleus.WakeAll adds up to: all clock waiters are behind the ready processes in order, the count of soft-blocked processes has fallen by their number and not below zero, the value is reset, and the invariant holds; what an idle machine goes on to is in Effects.TickEffect |
| Guarantees.DeviceWakesFirst | phase2/interrupts.c:217-239 | a device interrupt wakes the first waiter and nobody else, and the count of soft-blocked processes never falls below zero; what an idle machine goes on to is in Effects.DeviceEffect |
| Effects.Possible | phase2/exceptions.c:70-161 | exactly which calls and interrupts may come next: calls if somebody runs, P and V on semaphores outside the 49 of the array, waits at its slots 0 to 48, interrupts at slots 0 to 47 |
| Effects.CreateEffect | phase2/exceptions.c:226-251 | createprocess takes the first free block, makes it its maker's first child and last among the ready, and changes nothing else; without a free block it changes nothing at all |
| Effects.SignalEffect | phase2/exceptions.c:296-314 | V adds one to the value and moves the first waiter, if there is one, behind the ready processes; the caller runs on |
| Effects.TakeEffect | phase2/exceptions.c:318-348 | P takes one from the value; on a positive value the caller runs on, otherwise it is last in the queue and the first ready process runs, or the machine halts, panics or waits |
| Effects.ClockWaitEffect | phase2/exceptions.c:412-441 | waitforclock puts the caller last at slot 48, takes one from its value, which is never positive, and counts it as soft-blocked |
| Effects.DeviceWaitEffect | phase2/exceptions.c:445-499 | waitio on line l, device d does the same at slot 8(l - 3) + d, for a terminal at 32 + 3d, or one more to read; on a positive value the caller runs on |
| Effects.KillEffect | phase2/exceptions.c:209-292 | terminateprocess, a wait below the device lines and a trap nobody handles take the subtree of the caller out of every queue and out of its parent's children, free it in its kill order, leave everybody else's parent and children, and hand the processor on |
| Effects.QuantumEffect | phase2/interrupts.c:102-125 | the end of a time slice puts the running process behind the ready ones and hands the processor to their first |
| Effects.TickEffect | phase2/interrupts.c:129-153 | a tick empties the queue at slot 48, appends it to the ready processes and zeroes the value; whoever runs runs on, and an idle machine goes on to the first ready process |
| Effects.DeviceEffect | phase2/interrupts.c:217-248 | the interrupt of slot i adds one to its value and moves its first waiter behind the ready processes; whoever runs runs on, and an idle machine goes on to the first ready process |
| Effects.NeverIdle | phase2/interrupts.c:243-248 | in every run from start-up, nobody is ready while the machine waits |
| Effects.IdleWakes | phase2/interrupts.c:217-248 | so an interrupt that finds somebody waiting ends, on an idle machine, with the first waiter running, and leaves the processor alone otherwise |
| Effects.IdleTicks | phase2/interrupts.c:129-153 | and so does a tick, with the others who waited behind it in order |
| Effects.StartEffect | phase2/initial.c:97-143 | main zeroes the 49 device semaphores and no other, and the first process runs, alone, with every other block free |
| Interrupts.DeviceSlots | phase2/exceptions.c:465-470 | the slot of each device, as a number: 8(l - 3) + d on lines 3 to 6, 32 + 3d for a terminal, one more for its read side; no two devices share one; it lies in the array exactly when it is not of terminals 6 and 7, and is the clock's exactly when it is terminal 5's read side |
| Interrupts.TerminalsTooFarApart | phase2/interrupts.c:199 | terminal 5's read side has the clock's slot, and terminal 6 none |
| Strays.VerhogenExact | phase2/exceptions.c:296-314 | V keeps the invariant exactly if the semaphore is no device's, or is not negative and not the clock's |
| Strays.PasserenExact | phase2/exceptions.c:318-348 | P keeps it exactly if the semaphore is no device's, or positive |
| Strays.WaitExact | phase2/exceptions.c:412-499 | a wait keeps it exactly if the semaphore is a device's or the clock's, or positive |
| Strays.InterruptExact | phase2/interrupts.c:217-248 | an interrupt keeps it at every slot below the clock's, at the clock's exactly if the value is negative, past the array exactly if it is not |
| Strays.FirstStrays | phase2/initial.c:97-143 | after start-up and one createprocess, a single read of terminal 5, P on a device, V on the clock or wait past the array loses it |
| Strays.SecondStrays | phase2/exceptions.c:296-314 | after one wait, V on a device loses it, and after one P an interrupt past the array does |
| Interrupts.FindLineNo | phase2/interrupts.c:266-290 | a pending line, and none of higher priority is pending; -1 exactly when none is |
| Interrupts.FindDevNo | phase2/interrupts.c:294-321 | the same for the devices of a line |
| Interrupts.Decode | phase2/interrupts.c:68-212 | the time slice goes before the clock and the clock before the devices; a device's slot is 8(l - 3) + d, a terminal's 32 + 3d if its read status is 1 and one more otherwise; no event is made up when nothing is pending |
| Effects.LineDecoded | phase2/interrupts.c:155-213 | with line l of 3 to 6 and device d the first that are pending, the interrupt is that of slot 8(l - 3) + d |
| Effects.TerminalDecoded | phase2/interrupts.c:173-200 | with the terminals' line and device d the first that are pending, it is that of slot 32 + 3d if the read status is 1, and of the next slot otherwise |
| Effects.TerminalEffect | phase2/interrupts.c:173-248 | so a terminal's interrupt makes ready the first of those who wait for that half, and nobody else |
| Effects.TerminalRoundTrip | phase2/exceptions.c:445-499 | a process that waits for one half of a terminal, first in its queue, goes on when that half interrupts |
| Effects.SliceEffect | phase2/interrupts.c:102-125 | whatever else is pending, line 1 ends the time slice |
| Effects.ClockEffect | phase2/interrupts.c:129-153 | without it, line 2 is the tick, whatever else is pending |
| Effects.SpuriousEffect | phase2/interrupts.c:97-167 | no line pending, or no device on a line, changes nothing but that the machine panics |
| NucleusCode.Nucleus.constructor | phase2/initial.c:97-108 | the tables and variables represent a machine in which nobody lives |
| NucleusCode.Nucleus.Start | phase2/initial.c:116-143 | the rest of main leaves the machine after its first scheduler call, inside its invariant |
| NucleusCode.Nucleus.CreateProcess | phase2/exceptions.c:226-251 | the pointers change as the machine's queues and tree do; it fails exactly when no block is free |
| NucleusCode.Nucleus.TerminateProcess | phase2/exceptions.c:255-292 | the loop and its recursive calls free the subtree in its kill order, each victim taken from its queue and its unit given back, and terminate |
| NucleusCode.Nucleus.Die | phase2/exceptions.c:209-219 | the running process and its descendants die and the scheduler goes on, as in the machine |
| NucleusCode.Nucleus.V | phase2/exceptions.c:296-314 | on the pointers, the machine's V at any semaphore, and exactly when the invariant is kept |
| NucleusCode.Nucleus.P | phase2/exceptions.c:318-348 | on the pointers, the machine's P at any semaphore, and exactly when the invariant is kept |
| NucleusCode.Nucleus.Wait | phase2/exceptions.c:412-499 | on the pointers, the machine's wait at any semaphore, and exactly when the invariant is kept |
| NucleusCode.Nucleus.WaitIo | phase2/exceptions.c:445-499 | a wait below the device lines is fatal; any other is a wait on the slot of the device, in the array or past it, with the exact case in which the invariant is kept |
| NucleusCode.Nucleus.Tick | phase2/interrupts.c:129-153 | on the pointers, the machine's tick, which is that of Effects.TickEffect; its loop ends |
| NucleusCode.Nucleus.WakeAll | phase2/interrupts.c:134-148 | the loop makes all waiters ready in order |
| NucleusCode.Nucleus.Interrupt | phase2/interrupts.c:217-248 | on the pointers, the machine's device interrupt at any slot, below the clock's that of Effects.DeviceEffect, and exactly when the invariant is kept |
| NucleusCode.Nucleus.QuantumEnd | phase2/interrupts.c:102-125 | on the pointers, the machine's end of a time slice |
| NucleusCode.Nucleus.Scheduler | phase2/scheduler.c:38-99 | on the pointers, the machine's scheduler: dispatch, halt, panic or wait |
| NucleusCode.Nucleus.Handle | phase2/exceptions.c:70-161 | every event, through its handler, takes the pointers from one state of the machine to the next, as the lemmas of Effects have it event by event, inside the invariant |
| NucleusCode.Nucleus.IoTrap | phase2/interrupts.c:68-258 | of all pending interrupts the most urgent is handled, terminals outside the array included, as Effects has it interrupt by interrupt, with the exact case in which the invariant is kept; none pending is a panic |
| PagingSteps.StepInv | phase3/vmIOsupport.c:63-159 | every step of every process, of the devices and of the processor keeps the pager's invariant |
| PagingRuns.StartInv | phase3/initProc.c:55-113 | test establishes it |
| PagingRuns.RunInv | phase3/vmIOsupport.c:63-159 | it holds in every run |
| PagingRuns.MemoryPreserved | phase3/vmIOsupport.c:63-159 | in every run, whatever is evicted, transferred or terminated in between, a load returns the last value the process stored there, or else what its tape or the disk held |
| PagingRuns.TablesAgree | phase3/vmIOsupport.c:115-156 | outside a refill each occupied frame is mapped by exactly the valid entry it points to; each valid entry of a living process is owned by exactly one frame; each cached translation is that of a valid entry at every moment |
| PagingRuns.EntryOwned | phase3/vmIOsupport.c:121-154 | a valid entry is that of the frame it names exactly as long as its process is running or in the pager, or has not come to that frame in the loop that releases its frames |
| PagingPaths.PlaceStep | phase3/vmIOsupport.c:63-159 | whatever step is taken and by whom, a process stays where it is or goes to the place that follows in the code; one that runs leaves off only by a fault of its own, with that page, or by its own end |
| PagingFates.BackWithPage | phase3/vmIOsupport.c:100-154 | in every run, a process that faults on a page it may have is running again only with that page valid: the entry of the page number below the table's size, the last entry otherwise |
| PagingFates.BroughtBack | phase3/vmIOsupport.c:63-159 | from wherever it is in between, steps of the system and of the disk alone bring it back with the page |
| PagingFates.NeverBack | phase3/vmIOsupport.c:89-92 | in every run, a process that has made a fatal fault or called for its end never runs again, and only goes on towards its end |
| PagingFates.BroughtToEnd | phase3/vmIOsupport.c:225-247 | steps of the system and of the disk alone bring it to its end, and then it owns no frame |
| PagingEffects.PickEffect | phase3/vmIOsupport.c:254-262 | getFrame returns the next frame, and the first after the last |
| PagingEffects.EvictEffect | phase3/vmIOsupport.c:121-136 | of a frame that is taken, its owner's entry for its page, and no other, becomes invalid, no translation stays cached, and that page of that owner is what is to be written |
| PagingEffects.InstallEffect | phase3/vmIOsupport.c:143-154 | the entry of the page that was missing, cut to the table's size, becomes valid for the frame, and no other entry changes |
| PagingEffects.SeekEffect | phase3/initProc.c:209-211 | the disk is told to go to the cylinder of the page's entry, or of the tape's block |
| PagingEffects.MoveEffect | phase3/initProc.c:221-224 | and then to move the sector of the page's owner, from or to its frame or the tape's buffer |
| PagingEffects.MovedEffect | phase3/initProc.c:201-233 | at the end of the transfer exactly the tape's block, the evicted page or the missing page has moved, between that block and that buffer |
| PagingEffects.ClearEffect | phase3/vmIOsupport.c:234-242 | one round of the loop empties the frame if it is the process's own, and nothing else; after the last no translation stays cached |
| PagingEffects.NothingCached | phase3/vmIOsupport.c:242 | in every run, no translation of a process that is past that loop is cached |
| PagingEffects.SignEffect | phase3/vmIOsupport.c:245-246 | signing off adds one to masterSem and lets the first process go on if it waits |
| PagingEffects.JoinEffect | phase3/initProc.c:115-119 | the first process does one P for each of the others and then ends |
| PagingEffects.TapeEffect | phase3/initProc.c:182-194 | the next block of its own tape arrives in the process's own buffer, and is the next to be written |
| PagingEffects.TablesElsewhere | phase3/vmIOsupport.c:115-156 | no step of the pager but getFrame, the eviction, the installation and the loop that releases frames changes a table |
| PagingEffects.Beginning | phase3/initProc.c:55-113 | the start: every process before its tape, frames empty, pages invalid, semaphores free, and frame 0 next |
| Lifetime.ValidAfterEnd | phase3/vmIOsupport.c:232-247 | a run from start-up to the end of a process, after which its entry is valid and the frame is empty |
| Lifetime.Stores | phase3/vmIOsupport.c:63-159 | a run from start-up through a fault, after which the process finds what it has stored |
| PagingRuns.MutualExclusion | phase3/vmIOsupport.c:72-156 | at most one process is inside swapPoolSem, and one inside the disk's semaphore; nobody waits for a semaphore that is free |
| PagingRuns.NoDeadlock | phase3/vmIOsupport.c:63-159 | as long as the first process has not ended, some process runs on its own or some step of the system or of a device is due that changes something |
| PagingTurns.InTurn | phase3/vmIOsupport.c:72-156 | a process with k others ahead of it in the queue of swapPoolSem, or of the disk's semaphore, is inside by the (k+1)st V in any run |
| PagingTurns.ServedByMoves | phase3/vmIOsupport.c:72-156 | the same counted in moves of those who are inside before it: a turn in the pager is over after 17 moves, or frames + 1 at a process's end, and one at the disk after four |
| PagingTurns.Servable | phase3/vmIOsupport.c:63-159 | from every reachable state, steps of the system and of the disk alone can bring a process that waits for the pager inside |
| Joined.PasserenIsSemP | phase2/exceptions.c:318-348 | seen from outside, the nucleus's P is the pager's: it passes or queues in the same cases, with the same value and queue |
| Joined.VerhogenIsSemV | phase2/exceptions.c:296-314 | and so is its V, which lets in the same waiter |
| Joined.SemaphoresAgree | phase2/exceptions.c:296-348 | over every run of the nucleus, a semaphore of the processes' own ends where the pager's P and V alone take it exactly if the run kills no waiter of it |
| PagingRuns.DiskLinear | phase3/initProc.c:201-233 | the disk's blocks change only when the transfer of one whole call of diskIO ends, and then at the cylinder, sector and buffer of that call |
| PagingRuns.DiskSerial | phase3/initProc.c:201-233 | after every run the disk is what the calls of diskIO, one after the other in the order in which their transfers end, make of it, and a call that reads gets what those before it have left |
| PagingRuns.TapeOnDisk | phase3/initProc.c:171-197 | with all processes loading at once, block i of each tape is at cylinder i of the process's own sector |
| PagingRuns.RunsWhenLoaded | phase3/initProc.c:182-196 | a process goes on from its tape only when all of it is on the disk |
| PagingRuns.FramesGoRound | phase3/vmIOsupport.c:254-262 | getFrame returns to a frame after exactly as many calls as there are frames |
| PagingRuns.PageSurvives | phase3/vmIOsupport.c:254-262 | a page whose frame was chosen k calls ago stays valid in its frame through fewer than frames - k further calls, unless its owner ends |
| PagingRuns.InstalledRests | phase3/vmIOsupport.c:143-156 | a page that has just come in has k = 0; which entry it has is in PagingEffects.InstallEffect |
| PagingRuns.JoinSafe | phase3/initProc.c:115-119 | the first process ends only after every user process has signed off, and then no frame belongs to anybody |
| PagingRuns.SignedOwnsNothing | phase3/vmIOsupport.c:232-247 | a process about to sign off owns no frame |
| VmTables.Vm.constructor | phase3/initProc.c:55-95 | all frames empty, all pages invalid, frame 0 next |
| VmTables.Vm.GetFrame | phase3/vmIOsupport.c:254-262 | the machine's next frame, in range |
| VmTables.Vm.Oust | phase3/vmIOsupport.c:121-134 | through the frame's pointer, the entry of the evicted page, and no other, becomes invalid, and no translation stays cached (PagingEffects.EvictEffect has it literally) |
| VmTables.Vm.BringIn | phase3/vmIOsupport.c:143-154 | the frame points to the new page's entry, which is valid for it; no other changes (PagingEffects.InstallEffect has it literally) |
| VmTables.Vm.Release | phase3/vmIOsupport.c:234-242 | the loop releases the frames as the machine does, one by one |
| VmTables.Vm.ReleasedExactly | phase3/vmIOsupport.c:234-241 | that is all frames of the process, and nobody else's |
| BackingStore.Backing.DiskIo | phase3/initProc.c:201-233 | alone, a call moves one block between buffer and disk, wherever the arm was, if the disk reports ready twice; otherwise the semaphore is not given back |
| BackingStore.Backing.TapeToDisk | phase3/initProc.c:171-197 | alone, the tape is copied block by block to the process's sector, up to its end marker, and no other block changes, exactly if all devices report ready; a disk that is not ready keeps its semaphore taken, a tape that is not ready does not |
| PagerCode.Pager.constructor | phase3/initProc.c:55-113 | the tables, semaphores and variables represent the machine's start |
| PagerCode.Pager.Evict | phase3/vmIOsupport.c:119-141 | on the objects, the machine's step: the frame's pointer leads to the entry, owner and page that have to go, which are those of PagingEffects.EvictEffect |
| PagerCode.Pager.Install | phase3/vmIOsupport.c:143-154 | on the objects, the machine's step that maps the page, in the entry of PagingEffects.InstallEffect |
| PagerCode.Pager.Clear | phase3/vmIOsupport.c:234-242 | on the objects, one round of the loop that releases frames, or its end |
| PagerCode.Pager.CallDisk | phase3/initProc.c:201-233 | on the objects, the steps of diskIO, from P to V, with the cylinder and sector of PagingEffects.SeekEffect and MoveEffect |
| PagerCode.Pager.Handle | phase3/vmIOsupport.c:63-159 | every step of every process, of the devices and of the processor takes the objects from one state of the machine to the next, as the lemmas of PagingEffects have it step by step, inside the invariant |

## Left out

- NucleusCode.Nucleus.TerminateProcess: stated for kills that corrupt nothing, because beyond them the code frees a process that is still queued, or stores through NULL.
- NucleusCode.Nucleus.Die: the same, as it is that kill and the scheduler.
- NucleusCode.Nucleus.Handle: the same, for the events that kill.
- NucleusCode.Nucleus.WaitIo: the same, for its fatal form.
- NucleusCode.Nucleus.Scheduler: looks at the ready queue before it takes the head off, where the code takes the head off and looks at the result.
- Values of semaphores and counters are unbounded integers; 32-bit wrap-around is not modelled.
- Processor state and time but for their reset, register contents, return codes of the handlers (but for createprocess), status masks, ROM vectors and device addresses.
- How processor time is counted: it has no bearing on the queues, and its sign differs between phase2/interrupts.c:109 and phase2/interrupts.c:254.
- SYSCALLs 5 and 6: a trap with a handler of the process's own leaves the queues alone, one without is fatal; which of the two it is is part of the event.
- The shared segment kUseg3 (phase3/vmIOsupport.c:107-113), which the code marks as unfinished.
- Bits of page table entries other than the valid bit and the frame.
- Terminal output (phase3/vmIOsupport.c:176-220). The error exits of diskIO and tapeToDisk are in `BackingStore` only, not in the pager's state machine.
- PagingTurns.ServedByMoves: counts the moves of the processes that are inside; that these are given the processor, and the disk answers, is not part of the model.
