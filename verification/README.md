# The PandOS+ process and semaphore machine, verified

This project models the kernel of a small teaching operating system (PandOS+ on uMPS3) in Dafny and proves what it
promises: that no process is ever lost or duplicated, when the machine may halt or panic, what a semaphore counts,
that a device never gets a second command before answering the first, and where the code falls short of all that.

    dafny verify dfyconfig.toml

## How it is built

Four layers, each proved against plain sequences, maps and trees.

- **Pointers.** `Lists` and `ListSurgery` are the circular lists of `lib/list.h`, as writes to `next` and `prev`
  against ghost sequences. `ProcQueues` is the set of all process queues that share the `p_list` nodes; each operation
  states what happens to every queue, not only to the one it is called on. `SharedQueues` lets the free list, the
  ready queue and the queues of all semaphores be rings of one such set; `ListMoves` gives the list moves of every
  step of the machine, and `PointerRuns` makes those of whole runs on the rings, starting from fresh nodes.
  `HashLists` is the hash table with its `pprev` back links. `Rows` and `Basics` hold the sequence algebra.
- **Phase 1 structures.** `Ash` is the hash index over the descriptor pool, as a class that refines a map from
  semaphore to queue; `Hashing` and `Addresses` are the arithmetic. `Forests` and `Links` are the process tree and its
  pointers, `TreeOrder` the order of walks over it, `Family` the namespaces and the traversal of children,
  `NamespacePool` the descriptors.
- **The machine.** `Machine` gives one function per kernel entry on plain values; it follows the code on every state a
  handler can be entered in, also where that breaks the invariants, and stops only where a NULL pointer is followed.
  `Kernel` is the imperative kernel, a class whose methods update its fields as the source does; `Nucleus.Handle`
  takes exactly the step of the machine, `Nucleus.Run` any run from boot, and `Nucleus.InterruptHandler` with
  `Interrupts` the run that one round of pending interrupts makes.
- **What holds.** `Invariants` states what is kept: `Sane` by every step, `Sound` until the count goes wrong, `Inv` by
  guarded steps. `Soundness`, `Killing`, `Terminating`, `Guarded` and `Exactness` prove it step by step; `Runs`,
  `Outcomes`, `ClockRuns`, `History`, `RoundRobin` and `Naming` draw the conclusions for whole runs; `Waiting` tells
  what P, V and the scheduler do on any words and counters, and that semaphores are fair. `Protocol` proves the device
  protocol under its own, weaker conditions, and `Discipline` gives callers a rule that implies the guard of device
  interrupts. `Hazards` shows what happens outside the guards, and `Accidents`, with the help of `Scenes`, gives runs
  from boot that get there. `ProcessTime` treats the accounting of processor time.

## The guards, and what the code does without them

`Machine.Guard` is the discipline under which the kernel keeps its invariants, and `Exactness.GuardExact` proves it is
the weakest one: from a good state a step leads to a good state if and only if its guard holds.

- A process to terminate is the caller or an ancestor of it. `sysTerminateProcess` always ends in `scheduler()` and
  never requeues a surviving caller. In the run of `Hazards.ParentKillsChild` a parent terminates its child, and the
  machine panics.
- No victim waits for a device operation. The kernel then sets `sem_sync` to -1. DOCUMENTATION.md lines 98 to 104 say
  the interrupt brings it back to 0; the code does not, because `sysVerhogen` lets only the value 0 pass.
  `Hazards.DisabledForGood` proves that the device never works again; in `Accidents.KillInIOPanics` its next interrupt
  parks an innocent process and stops the machine.
- A device interrupt comes for a device that has a waiting process and for which nobody queues. On a hand-off
  `sysPasseren` parks `g_current_process` and not the process it is called for. The device protocol itself survives a
  hand-off, as long as there is a `g_current_process` (`Protocol.ProtocolExact`); the process that is parked does not.
- DOIO names an address that belongs to a device.

In two ways `g_process_count` goes wrong (`Terminating.NextSound`, `Runs.CounterExact`).

- `g_current_process` stays what it was when a termination leads into the idle loop, so it may point to a PCB that has
  been freed. A device interrupt that blocks it then, on a hand-off or because the device is disabled, takes this PCB
  off the free list and queues it on `sem_sync`: it is in use again, uncounted and outside the tree of the first
  process. What is saved in its `p_s` is the idle loop itself, so when its turn comes the processor goes on waiting
  there, and the PCB is lost. `Accidents.FreedProcessStrays` gets there from boot, every step before the interrupt
  being guarded.
- `sysTerminateProcess` does not check that the process has not ended yet. It counts a freed PCB off once more. In the
  run of `Accidents.EndedKillHalts` the machine halts with a process alive.

"Running" means that the kernel has loaded the state of a process, and not that of its own loop.

Two further conditions delimit the steps that exist at all (`Machine.Enabled`): system calls and the local timer need a
running process, and user P and V name a word that is not one of the kernel's. The process to terminate is any PCB, in
use or not. The initial values of user words are 0 or 1 (`Runs.Binary`), and semaphore words change only through P, V
and the handlers; a program that assigns to them, as `test/p2test.c` lines 328 to 331 do between two rounds, starts a
new history. Time, addresses and the contents of device registers are inputs.

## Model

| member | source | states |
|---|---|---|
| `Exactness.GuardExact` | phase2/syscall.c:84-178 | Main. From a state satisfying the global invariant, each of the ten kernel entries (create, terminate, P, V, DOIO, CLOCKWAIT, timeslice, tick, device interrupt, idle loop) leads to one satisfying it if and only if the guard of that entry holds: the guards are the weakest ones |
| `Runs.Conservation` | phase2/syscall.c:84-151 | Main. On every guarded run from boot each PCB is in exactly one place (free list, ready queue, processor, one semaphore queue), once, and g_process_count is the number of PCBs that are not free |
| `Runs.CounterExact` | phase2/syscall.c:84-151 | Main. On every run from boot, guards or not, g_process_count falls short of the PCBs in use by exactly the number of steps that revived a freed PCB or freed one again, so it is exact if and only if there was none; and no PCB is ever in two places |
| `Runs.RunInv` | phase2/scheduler.c:10-38 | Guarded runs are runs and end in the invariant |
| `Runs.RunSane` | phase2/scheduler.c:10-38 | Every run, guarded or not, keeps what needs no guard; the drift of g_process_count is the number of steps that revive a freed PCB or free one again |
| `Runs.RunSound` | phase2/scheduler.c:10-38 | A run keeps the exact count and the single tree if and only if no step of it revives a freed PCB or frees one again |
| `Runs.BootInv` | phase2/nucleus.c:38-90 | Initialisation establishes the unguarded part of the invariant always, and the whole of it if and only if every user word is 0 or 1 |
| `Terminating.NextSane` | phase2/syscall.c:84-261 | Every enabled step, guarded or not, the termination of a process that has ended included, keeps: queues and p_semAdd agree, no empty active semaphore, no process in two places, distinct live processes that with the free list partition the table; the count drifts by one exactly when the step revives a freed PCB or frees one again |
| `Terminating.NextSound` | phase2/syscall.c:84-261 | From any state a handler can be entered in, the count is exact and the live processes form one tree after a step if and only if that was so before and the step is neither a TERMPROCESS of a PCB on the free list nor an interrupt that finds the machine idle, has to block g_current_process, and finds a freed PCB there |
| `Outcomes.FinalModes` | phase2/scheduler.c:13-30 | Main. PANIC only when every live process waits on a user semaphore and nothing is pending that could wake one; HALT only when all PCBs are free; the idle loop never spins without waiting, and no handler acts on a process that does not exist |
| `Outcomes.PanicExact` | phase2/scheduler.c:13-29 | The idle scheduler panics if and only if there is a deadlock and g_soft_block_count has no surplus; with a surplus it waits |
| `Outcomes.SilentDeadlock` | phase2/scheduler.c:16-26 | A deadlock reached with a surplus in g_soft_block_count stays a deadlock, unreported, on every guarded run |
| `Outcomes.RootDies` | phase2/syscall.c:108-117 | Terminating the first process ends every process and halts |
| `Terminating.KilledEffect` | phase2/syscall.c:239-261 | Main. Terminating frees exactly the target's subtree: every descendant leaves whichever list held it, emptied descriptors are recycled, the counters drop by the right amounts, pending device operations are marked with -1, and nothing else changes; a target that has ended already moves to the front of the free list and is counted off once more |
| `Terminating.KilledInOrder` | phase2/syscall.c:254-260 | Each victim dies once, after its descendants and after the families of its older siblings, and the last to die is the first on the free list |
| `Terminating.SurvivorKeeps` | phase2/syscall.c:239-261 | A survivor keeps its children (but for the target), its wait, and its place relative to the other survivors of its queue |
| `Forests.PruneKeepsChildren` | phase1/process.c:126-149 | outChild takes the target out of its parent's child list and leaves every other survivor's list alone |
| `Exactness.CallerLost` | phase2/syscall.c:108-117 | Terminating a process that is neither the caller nor an ancestor of it leaves the caller in no place at all |
| `Exactness.DeviceAborted` | phase2/syscall.c:246-250 | Killing a process in mid-operation leaves sem_sync of its device at -1 |
| `Exactness.BatonDropped` | phase2/devices.c:52-54 | A device interrupt that finds another process queued on sem_mut always breaks the invariant: g_current_process is parked in its stead, be it running, freed or NULL |
| `Exactness.TerminateExact` | phase2/syscall.c:108-117 | Termination keeps the invariant if and only if the target is the caller or an ancestor and no victim waits for a device operation |
| `Exactness.DeviceExact` | phase2/devices.c:36-59 | A device interrupt keeps the invariant if and only if the device has a waiting process and nobody queues for it |
| `Exactness.DoIOExact` | phase2/syscall.c:153-166 | DOIO keeps the invariant if and only if the address belongs to a device |
| `Exactness.DoIOPanics` | phase2/syscall.c:153-158 | From a good state DOIO on an address outside the device registers panics and changes nothing else; on an address inside it never panics |
| `Exactness.SlackStep` | phase2/syscall.c:175-178 | A guarded step changes the surplus of g_soft_block_count only by a CLOCKWAIT that does not block and by killed clock waiters |
| `ClockRuns.SoftBlockAccounting` | phase2/exceptions.c:104-114 | Main. On every guarded run from boot g_soft_block_count is the number of processes blocked on the clock or on some sem_sync, plus the clock waiters killed so far, plus the CLOCKWAITs that returned at once, of which there is at most one |
| `ClockRuns.SlackRun` | phase2/syscall.c:175-178 | The same balance from any state satisfying the invariant |
| `ClockRuns.TickEffect` | phase2/exceptions.c:104-114 | A tick appends all clock waiters to the ready queue in blocking order, recycles the clock's descriptor, lowers g_soft_block_count by exactly their number, clears g_pseudo_clock, and leaves every other queue and field alone |
| `ClockRuns.ClockStep` | phase2/syscall.c:175-178 | g_pseudo_clock is cleared by the first tick or CLOCKWAIT and nothing ever sets it again |
| `History.BinarySemaphore` | phase2/syscall.c:119-151 | Main. On every guarded run with kills a user semaphore stays 0 or 1, equals its initial value plus completed Vs minus completed Ps (a released waiter's operation counts as completed), and its waiters are all pending Ps at 0 and all pending Vs at 1 |
| `History.SemaphoreStep` | phase2/syscall.c:119-151 | Each guarded step changes a user semaphore by exactly the operations it completes |
| `Protocol.ProtocolExact` | phase2/devices.c:36-91 | Main. From a state in which every device is in order, a step leads to another such state if and only if its condition holds: nobody is killed in mid-operation, an interrupt comes only for a command under way, and a hand-off finds a g_current_process |
| `Protocol.DeviceProtocol` | phase2/devices.c:36-91 | Main. On every run of such steps from boot, hand-offs to queued processes included, for each device: sem_sync is 0; sem_mut is 0 if and only if waiting_process is set if and only if exactly one process is queued on sem_sync; nobody queues for an idle device; and the history says the same |
| `Protocol.CommandsAlternate` | phase2/devices.c:70-91 | Main. On every such run, hand-offs included, between two commands to one device the first has been answered: no command is written before the previous one completed |
| `Protocol.GuardedIsProtocol` | phase2/devices.c:36-59 | Guarded runs are among these |
| `Protocol.GuardedDeviceProtocol` | phase2/devices.c:70-80 | On guarded runs the one process queued on sem_sync is moreover waiting_process |
| `Discipline.DisciplineSuffices` | phase2/devices.c:43-59 | If every DOIO finds sem_mut at 1 and interrupts come only for devices with a command under way, no interrupt from boot on ever finds a process queued for the device: the guard of device interrupts holds by itself |
| `RoundRobin.RoundRobinBound` | phase2/scheduler.c:33 | Main. On every run, guarded or not, a process at index i of the ready queue is dispatched by the (i+1)-th dispatch unless it is terminated, whatever creations, wakeups, kills and revivals come in between |
| `RoundRobin.StepAdvances` | phase2/exceptions.c:116-121 | No step moves a ready process back, and each dispatch moves it forward, unless it is terminated |
| `Waiting.FirstComeFirstServed` | phase1/semaphore.c:60-84 | Main. Semaphores are first come, first served: a step, guarded or not, takes processes off a queue only at its front and adds them only at its back, except that a termination takes exactly the victims out of the middle |
| `Waiting.PExact` | phase2/syscall.c:119-134 | P lets its caller pass exactly when the word is 1, whatever other value it may have: the word goes to 0 or the first waiter goes to the end of the ready queue; else the word stays and the caller is the last in the queue of the semaphore |
| `Waiting.VExact` | phase2/syscall.c:136-151 | V lets its caller pass exactly when the word is 0, in the same terms |
| `Waiting.SchedulerExact` | phase2/scheduler.c:13-33 | The first ready process is dispatched; with nobody ready HALT, WAIT and PANIC are told apart by the signs of the two counters, and with a negative one the loop spins |
| `Waiting.UnlistedExact` | phase1/semaphore.c:60 | list_delete_safe takes the process to block off the free list or the ready queue, from any position |
| `Waiting.TimesliceExact` | phase2/exceptions.c:116-121 | The running process goes to the end of the ready queue, and the first ready process, be it the same, is dispatched |
| `Waiting.CreateExact` | phase2/syscall.c:84-106 | The first free PCB becomes the last ready process and the youngest child of the caller, which goes on; without a free PCB nothing happens |
| `Waiting.DevicesGivenUp` | phase2/syscall.c:239-251 | A termination sets sem_sync to -1 exactly for the devices that work for a victim waiting on one of their semaphores, lowers g_soft_block_count by the number of such victims, and changes no other word |
| `Hazards.KillDisables` | phase2/syscall.c:246-250 | Killing a process in mid-operation leaves the device disabled: sem_mut taken, sem_sync at -1 |
| `Hazards.DisabledForGood` | phase2/syscall.c:136-151 | On every run whatever, stale g_current_process included, a disabled device stays disabled and is never again given a command or answered |
| `Hazards.InterruptParksBystander` | phase2/devices.c:44-50 | The interrupt of a disabled device does not bring sem_sync back to 0, as DOCUMENTATION.md says: it blocks the process that happens to run |
| `Hazards.ParentKillsChild` | phase2/syscall.c:108-117 | A run of three steps from boot in which a parent terminates its child and the machine panics with the parent alive and nobody blocked |
| `Hazards.DeadlockUnreported` | phase2/syscall.c:175-178 | A run of three steps from boot into a deadlock that no guarded continuation reports |
| `Hazards.IdleHandOff` | phase2/devices.c:52-54 | While the machine is idle a hand-off to a queued process follows g_current_process if it is NULL, and takes it off the free list and queues it if it is a freed PCB |
| `Hazards.SharedDeviceFaults` | phase2/syscall.c:153-166 | Two processes, one running and the other next, that use one device one after the other make the kernel follow a NULL g_current_process |
| `Hazards.CoupleReached` | phase2/nucleus.c:38-51 | Two such processes exist two steps after boot |
| `Accidents.FreedProcessStrays` | phase1/semaphore.c:60-64 | After a run of ten guarded steps from boot process 16 is free; the next device interrupt queues its PCB, with the state of the idle loop in p_s; two steps later it is dispatched, that loop goes on to the next ready process, and PCB 16 is on no list, neither free nor counted |
| `Accidents.EndedKillHalts` | phase2/syscall.c:108-117 | After four guarded steps from boot the first process is alone; it terminates its child 18, which has ended already, and the machine halts with the first process alive |
| `Accidents.KillInIOPanics` | phase2/syscall.c:246-250 | After a run of guarded steps from boot the running process terminates itself and a child in mid-operation; the answer of the device then parks a process that asked for nothing, and the machine panics |
| `Kernel.Nucleus.Run` | phase2/nucleus.c:38-51 | Main. The kernel from its constructor through any run of the machine from boot: its fields stand for the state the run ends in, each PCB has the namespace that the creations of the run gave it, and unless a freed PCB has been revived its pointers form one tree under the first process |
| `Kernel.Nucleus.Follow` | phase2/syscall.c:31-80 | Any run of the machine, entry by entry, on the fields of the kernel; the namespaces are those that its creations gave |
| `Kernel.Nucleus.BootUp` | phase2/nucleus.c:38-51 | The constructor and main up to scheduler() reach the boot state of the machine, every namespace being NULL |
| `Kernel.Nucleus.Handle` | phase2/syscall.c:31-80 | Main. One kernel entry on the fields of the kernel takes exactly the step of the machine and leaves hash, pointers and ghost tree coupled; a new process is in the namespace given, or else in its parent's, and nobody else's changes |
| `Naming.NearestNamed` | phase2/syscall.c:95-102 | Main. On every run from boot that revives nobody, each live process is in the namespace given at its own creation, or else in that of the nearest ancestor that was given one, or else in none |
| `Kernel.Nucleus.constructor` | phase2/nucleus.c:66-84 | The global variables at start |
| `Kernel.Nucleus.InitWords` | phase2/nucleus.c:72-75 | The loop over g_sysiostates and g_pseudo_clock yields the boot values of the semaphore words |
| `Kernel.InitialisedBoot` | phase2/nucleus.c:72-90 | Those are the words BootInv starts from |
| `Kernel.Nucleus.InitPcbs` | phase1/process.c:22-26 | The free list after initPcbs, last PCB first |
| `Kernel.Nucleus.LaunchInit` | phase2/nucleus.c:53-64 | The first process: head of the free list, alone on the ready queue, without parent, children or namespace |
| `Kernel.Nucleus.Launch` | phase2/nucleus.c:38-51 | main up to scheduler() reaches the boot state, every namespace being NULL |
| `Kernel.Nucleus.Scheduler` | phase2/scheduler.c:10-38 | The scheduling decision of the machine; a process whose saved state is that of this loop goes on waiting in it |
| `Kernel.Nucleus.Save` | phase2/syscall.c:129 | The state saved by P, V and the local timer: that of the current process, or that of the idle loop if the machine was idle |
| `Kernel.Nucleus.Unlist` | phase1/semaphore.c:60 | list_delete_safe on g_current_process, which may be stale: it leaves the free list or the ready queue if it is on one |
| `Kernel.Nucleus.ParkCurrent` | phase1/semaphore.c:49-67 | insertBlocked for g_current_process: off whichever list it is on, to the tail of the queue of the key |
| `Kernel.Nucleus.Suspend` | phase2/syscall.c:124-133 | The common end of P and V: a NULL g_current_process is followed, any other is parked, and the scheduler runs |
| `Kernel.Nucleus.Passeren` | phase2/syscall.c:119-134 | P of the machine, and whether it returns to its caller |
| `Kernel.Nucleus.Verhogen` | phase2/syscall.c:136-151 | V of the machine, and whether it returns to its caller |
| `Kernel.Nucleus.SysDoIO` | phase2/syscall.c:153-166 | DOIO of the machine; outside the device registers it panics with all else as it was |
| `Kernel.Nucleus.StartIO` | phase2/devices.c:70-80 | The bookkeeping of beginIO |
| `Kernel.Nucleus.FinishIO` | phase2/devices.c:82-91 | The bookkeeping of endIO |
| `Kernel.Nucleus.HandleDeviceInt` | phase2/devices.c:36-59 | The device interrupt of the machine, on every state a handler can be entered in, and whether it comes back |
| `Kernel.Nucleus.SysClockWait` | phase2/syscall.c:175-178 | CLOCKWAIT of the machine |
| `Kernel.Nucleus.HandleSysTimer` | phase2/exceptions.c:104-114 | The draining loop terminates and does the tick of the machine |
| `Kernel.Nucleus.HandleLocalTimer` | phase2/exceptions.c:116-121 | Timeslice expiry of the machine |
| `Kernel.Nucleus.InterruptHandler` | phase2/exceptions.c:67-102 | The recursion makes a run of the machine: it answers set bits of the saved cause from the lowest on (9 the local timer, 10 the clock, 11, 12, 14 and 15 the device lines), passing over none that asks for something, up to the first handler that does not come back; of those bits it clears exactly the ones answered |
| `Kernel.Nucleus.CreateProcess` | phase2/syscall.c:84-106 | Process creation of the machine, with the parent's namespace inherited or the given one set; with an empty pool nothing changes |
| `Kernel.Nucleus.AddNamespace` | phase1/namespace.c:43-54 | The recursion sets the namespace of exactly the subtree |
| `Kernel.Nucleus.InsertChild` | phase1/process.c:110-114 | p_parent set; the child leaves whichever child list it is on and becomes the last of its parent's |
| `Kernel.Nucleus.OutChild` | phase1/process.c:126-149 | The search loop: the child leaves its parent's list if it is there, p_parent stays |
| `Kernel.Nucleus.RemoveChild` | phase1/process.c:116-124 | The first child is popped, p_parent stays |
| `Kernel.Nucleus.UnblockProcess` | phase2/syscall.c:239-251 | The first half of terminateProcess on queues, hash, counters and sem_sync |
| `Kernel.Nucleus.TerminateProcess` | phase2/syscall.c:239-261 | The mutating recursion terminates and does exactly the machine's Kill of the subtree, pointers included |
| `Kernel.Nucleus.SysTerminate` | phase2/syscall.c:108-117 | TERMPROCESS of the machine, for a process in use, one that has ended, or NULL |
| `Kernel.Nucleus.GetChildren` | phase2/syscall.c:207-213 | sysGetChildren on the kernel's own tree, in the order of Family.VisibleInOrder |
| `NamespacePool.Namespaces.constructor` | phase1/namespace.c:21-31 | initNamespaces: every descriptor free, the last one first, none active |
| `NamespacePool.Namespaces.AllocNamespace` | phase1/namespace.c:56-70 | Nothing for a type that does not exist or when all descriptors of the type are active; else the first free descriptor becomes the first active one, and each descriptor stays on exactly one list |
| `NamespacePool.Namespaces.FreeNamespace` | phase1/namespace.c:72-75 | The descriptor goes to the front of the free list from whichever list it is on |
| `NamespacePool.Namespaces.AllocThenFree` | phase1/namespace.c:56-75 | Giving back what was just allocated restores both lists |
| `NamespacePool.Exhausted` | phase1/namespace.c:61-63 | The free list is empty exactly when all descriptors are active |
| `Links.OneTree` | phase1/process.c:110-149 | Linked pointers form one tree: each process but the root is in the child list of its live p_parent and in no other, and one step further from the root, so there is no cycle |
| `Links.ParentAbove` | phase1/process.c:110-114 | Following p_parent comes one step closer to the root |
| `Links.LinkedAddChild` | phase1/process.c:110-114 | insertChild makes the pointers describe the tree with a new youngest child |
| `Links.LinkedPrune` | phase1/process.c:126-149 | outChild makes the pointers describe the tree without the subtree, although p_parent of the detached node is stale |
| `Family.GetChildsByNamespace` | phase2/syscall.c:215-237 | The recursion counts what is visible through same-namespace nodes and stores it in preorder while there is room |
| `Family.SysGetChildren` | phase2/syscall.c:207-213 | The count is that of the visible strict descendants; the array receives exactly the first of them that fit, no process before one of its ancestors and the family of an older sibling before that of a younger one, and nothing past that is written |
| `Family.VisibleExact` | phase2/syscall.c:215-237 | Visible means: the preorder of all descendants minus those hidden by a node of another namespace |
| `Family.VisibleOnce` | phase2/syscall.c:215-237 | The walk meets each process that none of another namespace above it hides, and no other, once |
| `Family.VisibleInOrder` | phase2/syscall.c:217-229 | However much there is room for, no process comes before one of its ancestors, and what is seen under an older sibling comes before what is seen under a younger one |
| `TreeOrder.PreorderParentsFirst` | phase2/syscall.c:217-229 | The same of the whole preorder |
| `TreeOrder.PostorderChildrenFirst` | phase2/syscall.c:254-260 | In postorder no process comes before one of its descendants, and the family of an older sibling comes first |
| `Family.StoredExact` | phase2/syscall.c:217-220 | What storing one by one while there is room amounts to |
| `Ash.SemaphoreHash.constructor` | phase1/semaphore.c:121-125 | initASH: all descriptors free, the last one first, no active semaphore |
| `Ash.SemaphoreHash.FindSem` | phase1/semaphore.c:127-141 | find_sem returns the descriptor of the key if and only if the key is active, collisions included |
| `Ash.SemaphoreHash.InsertBlocked` | phase1/semaphore.c:49-67 | The process leaves any semaphore queue it was in and becomes the last of the key's, all other queues staying; p_semAdd follows; fails if and only if the key is inactive and the pool empty |
| `Ash.SemaphoreHash.RemoveBlocked` | phase1/semaphore.c:69-84 | Pops the head of the key's queue and recycles the descriptor when the queue empties |
| `Ash.SemaphoreHash.OutBlocked` | phase1/semaphore.c:86-110 | Takes the process out of any position of its queue, if it is blocked at all |
| `Ash.SemaphoreHash.HeadBlocked` | phase1/semaphore.c:112-119 | The head of the key's queue, nothing removed |
| `Ash.SemaphoreHash.FreeIfEmpty` | phase1/semaphore.c:163-171 | A descriptor goes to the front of the free list if and only if its queue is empty |
| `Ash.SemaphoreHash.Activate` | phase1/semaphore.c:150-161 | alloc_semd and hash_add: an inactive key gets a descriptor with an empty queue, at the front of the bucket of its hash, or nothing changes when the pool is empty |
| `Ash.PoolSuffices` | phase1/semaphore.c:49-58 | The descriptor pool never runs out when the process to block is not itself blocked (pigeonhole) |
| `Ash.ActiveBound` | phase1/semaphore.c:49-67 | There are at most as many active semaphores as blocked processes |
| `Ash.InsertLeavesNoneEmpty` | phase1/semaphore.c:60-64 | Inserting leaves every active queue non-empty if and only if the process was not the only waiter of another semaphore: insertBlocked recycles nothing |
| `Ash.AgreeInsert` | phase1/semaphore.c:60-64 | Insertion keeps p_semAdd = k if and only if the PCB is in k's queue |
| `Ash.AgreeHead` | phase1/semaphore.c:73-81 | removeBlocked keeps it |
| `Ash.AgreeOut` | phase1/semaphore.c:93-107 | outBlocked keeps it |
| `Kernel.NeverFails` | phase2/syscall.c:131-148 | P and V may ignore the result of insertBlocked: it cannot fail for the running process |
| `Hashing.HashInRange` | lib/hash.h:57-61 | hash_32 of bits bits is a valid bucket index |
| `Hashing.HashIsHighBits` | lib/hash.h:57-61 | hash_32 is the high bits of the 32-bit product |
| `Hashing.GoldenRatio` | lib/hash.h:25-33 | The constant is (3 - sqrt 5) / 2 of 2^32, rounded |
| `Hashing.ProductPermutes` | lib/hash.h:52-55 | Multiplication by the constant modulo 2^32 permutes the words |
| `Hashing.BucketsBalanced` | lib/hash.h:57-61 | Every bucket is the hash of exactly one key of each rank: hashing spreads the 2^32 keys evenly |
| `Addresses.AddrInjective` | phase2/syscall.c:245-249 | Distinct semaphores have distinct non-NULL addresses |
| `Addresses.DeviceSemaphores` | phase2/devices.c:29-34 | resolveSemAddr and isDeviceSemaphore single out the two semaphores of each device and recover its index |
| `Addresses.OffsetTestIsVacuous` | phase2/syscall.c:263-271 | The offset test of isDeviceSemaphore rejects no word of the table |
| `Addresses.ResolveDeviceAddress` | phase2/devices.c:13-27 | -1 exactly for addresses of no device, else the one device whose registers the address falls among |
| `Addresses.RegistersOfOneDevice` | phase2/devices.c:61-68 | An interrupt and the command it answers resolve to the same device; distinct register blocks to distinct devices |
| `Addresses.TerminalRegisters` | phase2/devices.c:22-24 | Receiver and transmitter of terminal 0 are devices 32 and 33; no other terminal resolves |
| `Addresses.FindDevRegAddr` | phase2/devices.c:93-117 | The lowest pending device of the line, transmitter before receiver on a covered terminal |
| `Interrupts.InterruptFrame` | phase2/devices.c:36-59 | A device interrupt whose handler comes back leaves the mode, and the words, queues and waiting_process of every other device, as they were |
| `Interrupts.ComesBackExact` | phase2/exceptions.c:97-121 | A handler comes back to interruptHandler exactly when it has left the scheduler alone: that of the local timer never, that of the clock always, that of a device when neither its V nor the P of a hand-off blocks |
| `Interrupts.AllServed` | phase2/exceptions.c:76-98 | When the local timer is not pending and every device found on a pending line has a command under way and no queue, interruptHandler serves every pending line, in a guarded run; no masked bit is left, unmasked bits stay |
| `Interrupts.HandledInOrder` | phase2/exceptions.c:76-94 | Whatever the handlers do, lines are served in the order of the bits of the cause register |
| `Interrupts.FirstServed` | phase2/exceptions.c:76-94 | The local timer goes first, else the clock, else the device of the lowest line with one; the clock is served before every device |
| `ProcessTime.NoTickChargedTwice` | phase2/exceptions.c:123-134 | Main. Over any interleaving the charged intervals are disjoint and their sum is at most the time since the first dispatch, even when the clock register wraps |
| `ProcessTime.ChargedExactly` | phase2/exceptions.c:123-134 | Main. Over any interleaving each PCB has been charged exactly its bill, and p_time is that modulo 2^32: for every updateProcessTime while it was current since its allocation, the ticks from the last reading of the clock, modulo 2^32 |
| `ProcessTime.TimesExact` | phase2/syscall.c:168-173 | Until 2^31 ticks after the first dispatch p_time is exactly what was charged |
| `ProcessTime.TimeKeeper.UpdateProcessTime` | phase2/exceptions.c:129-134 | The current process, and no other, is charged the ticks since the last reading of the clock, modulo 2^32, and the clock is read again |
| `ProcessTime.TimeKeeper.GetPassedTime` | phase2/exceptions.c:123-127 | When g_tod was read at tick last the result is (now - last) modulo 2^32, although the clock shows only its low word: never more than has gone by, and exactly that as long as it is less than 2^32 |
| `ProcessTime.TimeKeeper.GetTime` | phase2/syscall.c:168-173 | sysGetTime: p_time plus the ticks since the last reading of the clock |
| `ProcessTime.TimeKeeper.Dispatch` | phase2/scheduler.c:33-36 | Dispatching starts a new charging interval |
| `Lists.TestsExact` | lib/list.h:258-331 | list_empty, list_is_singular, list_is_first, list_is_last answer what their names say |
| `Lists.Insert` | lib/list.h:60-71 | __list_add between two neighbours of a ring |
| `Lists.ListAdd` | lib/list.h:81-84 | The entry becomes the first of the list |
| `Lists.ListAddTail` | lib/list.h:95-98 | The entry becomes the last of the list |
| `Lists.Unlink` | lib/list.h:109-135 | __list_del_entry closes the ring up; only the neighbours are written |
| `Lists.ListDel` | lib/list.h:143-148 | list_del: as above, and the entry's links are NULL |
| `Lists.ListDeleteSafe` | include/utils/utils.h:21-24 | list_delete_safe: the entry is linked to itself, so it may be removed again |
| `ListSurgery.ListReplace` | lib/list.h:157-164 | The new node takes the old one's place, also when the old one was alone |
| `ListSurgery.ListSwap` | lib/list.h:185-195 | Two distinct entries change places, adjacent or not, in either order |
| `ListSurgery.ListMove` | lib/list.h:212-217 | The entry leaves its ring, wherever it is, and becomes the first of the target |
| `ListSurgery.ListMoveTail` | lib/list.h:223-228 | The entry leaves its ring, wherever it is, and becomes the last of the target |
| `ListSurgery.ListBulkMoveTail` | lib/list.h:239-251 | A segment goes to the end of its list, also when it is there already |
| `ListSurgery.ListRotateLeft` | lib/list.h:296-304 | The first entry becomes the last |
| `ListSurgery.ListRotateToFront` | lib/list.h:313-322 | The list starts at the given entry |
| `ListSurgery.ListCutPosition` | lib/list.h:359-371 | The entries up to the given one move to the new list, with the three cases that cut nothing |
| `ListSurgery.ListCutBefore` | lib/list.h:386-400 | The entries before the given one move to the new list |
| `ListSurgery.ListSplice` | lib/list.h:421-426 | The list goes in front of the entries of the other |
| `ListSurgery.ListSpliceTail` | lib/list.h:433-438 | The list goes behind the entries of the other |
| `ListSurgery.ListSpliceInit` | lib/list.h:447-454 | As ListSplice, and the emptied list is reinitialised |
| `ListSurgery.ListSpliceTailInit` | lib/list.h:464-471 | As ListSpliceTail, and the emptied list is reinitialised |
| `ListSurgery.CutThenSplice` | lib/list.h:359-426 | Cutting anywhere and splicing back onto the front restores the list |
| `ProcQueues.ProcLists.InitPcbs` | phase1/process.c:22-26 | Every PCB is on the free list, last one first, all other queues empty |
| `ProcQueues.ProcLists.InsertProcQ` | phase1/process.c:59-67 | p leaves the list it is on, if any, and becomes the tail of the target; every other ring through the shared nodes is as it was |
| `ProcQueues.ProcLists.FreePcb` | phase1/process.c:28-36 | p leaves the list it is on, if any, and becomes the head of the free list; every other ring is as it was |
| `ProcQueues.ProcLists.HeadProcQ` | phase1/process.c:69-75 | The head of the queue, or nothing |
| `ProcQueues.ProcLists.RemoveProcQ` | phase1/process.c:77-85 | Exactly the head leaves; every other ring is as it was |
| `ProcQueues.ProcLists.OutProcQ` | phase1/process.c:87-104 | p leaves the queue if and only if it is on it; every other ring is as it was |
| `ProcQueues.ProcLists.NodeShows` | phase1/process.c:31 | list_empty on a PCB's own node tells whether it is on a list |
| `SharedQueues.KernelLists.Block` | phase1/semaphore.c:60-64 | insertBlocked on the rings: one insertProcQ takes the process off the free list or the ready queue, if it is on one, and appends it to the key's queue; every other list stays |
| `SharedQueues.KernelLists.Wake` | phase1/semaphore.c:69-84 | removeBlocked on the rings: the head leaves the key's queue, its node is loose, and an emptied descriptor is given back |
| `SharedQueues.KernelLists.Out` | phase1/semaphore.c:86-110 | outBlocked on the rings, from any position |
| `SharedQueues.KernelLists.Free` | phase1/process.c:28-36 | freePcb on the rings: the process leaves the ready queue, or its place on the free list, and heads the free list |
| `SharedQueues.KernelLists.Alloc` | phase1/process.c:38-44 | The list part of allocPcb on the rings |
| `PointerRuns.Run` | phase1/process.c:22-36 | Main. From freshly allocated nodes through any run of the machine from boot, its calls of insertProcQ, removeProcQ, outProcQ, allocPcb and freePcb made on the shared p_list nodes: in the end the rings hold the free list, the ready queue and every semaphore queue of the state the run ends in |
| `ListMoves.StepLists` | phase2/syscall.c:84-261 | The list moves of each kernel entry are allowed one after the other, wherever a handler can be entered, and lead from the lists of the machine to those of the next state |
| `ListMoves.KillLists` | phase2/syscall.c:239-261 | The moves of terminateProcess, recursion and all |
| `ListMoves.RunLists` | phase2/syscall.c:84-261 | The same over whole runs |
| `PointerRuns.SpareRow` | phase1/semaphore.c:49-58 | A process that is on no semaphore queue always finds a descriptor: fewer are in use than there are processes |
| `PointerRuns.Tables` | phase1/process.c:22-26 | The tables of fresh nodes, initialised, are the rings that initPcbs leaves |
| `HashLists.HlistAddHead` | lib/list.h:885-893 | The node becomes the first of the bucket |
| `HashLists.HlistDel` | lib/list.h:839-848 | The node leaves its bucket through pprev, whether that points at the bucket or at a node |
| `HashLists.HashTable.HashInit` | lib/hashtable.h:35-41 | All buckets empty |
| `HashLists.NewTable` | phase1/semaphore.c:121-125 | Fresh descriptors and heads make such a table |
| `HashLists.HashTable.HashAdd` | lib/hashtable.h:61-62 | The descriptor becomes the first of the bucket of its key's hash; every other bucket is as it was |
| `HashLists.HashTable.HashDel` | lib/hashtable.h:106-109 | The descriptor leaves its bucket, if it is in one; every other bucket is as it was |
| `HashLists.HashTable.HashEmpty` | lib/hashtable.h:82-91 | True if and only if every bucket is empty |
| `HashLists.HashTable.HashHashed` | lib/hashtable.h:77-80 | True if and only if the descriptor is in a bucket |

## Left out

- Register contents: `state_t`, the copying of saved states, the command words copied by `beginIO` and `endIO` and the
  result register set by `setReturnValue`. The model records that a command was given and answered, not its text.
- uMPS3 itself: the BIOS calls end a step or are final modes, the status register and the masking of interrupts inside
  `scheduler()` are not modelled, and `WAIT` is the idle mode.
- `passUpOrDie`, the support structure and the TLB handler: passing up leaves the kernel's state alone, dying is the
  termination of the caller.
- `container_of` and raw addresses of list nodes: nodes are objects, and each knows the index of the structure it is
  part of. Semaphore keys keep their 32-bit address.
- `Ash` and `Kernel` hold sequences, not pointers. `PointerRuns` and `HashLists` make the same moves on the pointers,
  and are joined to them by the machine and by their contracts. The child lists (nodes `p_sib`, heads `p_child`) and
  the lists of free descriptors are further instances of the rings of `ProcQueues.ProcLists`, not separate models.
- Ash.SemaphoreHash.InsertBlocked: takes the process off semaphore queues only. That the same `list_delete_safe` takes
  it off the free list or the ready queue is `Kernel.Nucleus.ParkCurrent` and `SharedQueues.KernelLists.Block`.
- Kernel.Nucleus.StartIO: leaves out the command words copied to the device registers.
- Kernel.Nucleus.FinishIO: leaves out the words copied back, and the result register.
- Terminals other than number 0: the code resolves no other (`Addresses.TerminalRegisters`).
- `getNamespace` on its own: a bounds check and a field read.
- `sysGetSupportPtr`, `sysGetProcessID`, `memset`, `memcpy`, the RCU and debugging variants of the lists: nothing to
  prove beyond their bodies.
- An interrupt that arrives in the middle of a handler: handlers run with interrupts off.
- Kernel.Nucleus.Handle: assumes what every step keeps and an enabled step, so a TERMPROCESS of an address that is no
  PCB or a NULL semaphore is not covered.
- Kernel.Nucleus.InterruptHandler: is given the device that `findDevRegAddr` finds on a pending line, which must be
  one the kernel has a semaphore for, and assumes that the local timer runs only while a process does; restoring the
  saved state with LDST is the end of the run.
- Kernel.Nucleus.LaunchInit: leaves out the processor state of the first process.
- The debugging configuration of the lists (`__list_add_valid` and its like always succeed here), and p_time beyond
  2^31 ticks after the first dispatch.
