# A verified model of the nboxkrnl kernel core

nboxkrnl is a uniprocessor kernel. Its locks, timers, APCs, I/O packets and memory pool are
small state machines whose steps interleave: a block that runs with interrupts disabled or at
DISPATCH_LEVEL is one step, and signals, waits and dereferences outside such a block are steps
of their own. This project models those machines in Dafny and proves what they keep over every
run. Check it with `dafny verify dfyconfig.toml`.

Each module follows one component and has the same plan:

- a specification: the state as a value, and one function for each operation;
- a class in the form of the source, whose methods change the fields step by step, with the
  loops of the source, and are proved equal to the specification (`View() == Spec(old(View()))`);
- where operations interleave, a transition system over any number of threads or requests;
- the invariants, and the main theorems over all runs (`IsRun`) from the initial state.

| module | what it models |
|---|---|
| `ReadWriteLock` | the executive reader/writer lock, with wake-ups as tokens that a later arrival may take |
| `ExecutiveTimer` | references and active lists of executive timers under set, cancel, DPC, APC and rundown |
| `IrpStack` | unwinding of an I/O packet with pauses and resumed completions |
| `ApcQueue` | insertion and nested delivery of kernel APCs |
| `Dispatcher` | waits on semaphores and mutants, releases, timeouts, wake-ups |
| `Pool` | the pool allocator with its in-band free lists |
| `IoControl` | the resources of control requests, and the synchronous file lock |
| `Scheduler` | ready lists, standby thread, priorities, quantum end |
| `SList` | the compare-exchange list, with torn header reads |
| `TimerWheel` | the timer table and the examination of its heads |
| `DeviceQueue` | device queues and StartPacket |
| `ShareAccess` | the seven share-access counters |
| `InterruptTime` | the three-word clock read |
| `IntrusiveList` | the circular doubly linked list |
| `Seqs`, `Tally`, `Links`, `Wrappers` | removal from sequences, sums over threads, chains of links in memory, optional values |

## Where the code does not keep a promise

Each of these is stated with the exact condition, and with an input or a run at which it fails.

- A control request that the driver pended and whose completion has arrived goes on exactly when
  it supplied no event, did not fail, the file was opened with SYNCHRONIZE access, and a
  file-system control packet was marked pending (`IoControl.WaitEndsExactly`). Otherwise it waits
  for ever with the file lock, and no other request on the file gets in (`IoControl.StuckForever`);
  a request with an event gets there (`IoControl.GetsStuck`).
- A file-system control request that is finished at once but whose packet is marked pending is
  completed twice and gives everything back twice (`IoControl.BalancedExactly`,
  `IoControl.GivesBackTwice`).
- The closing assertion of ObDereferenceObjectEx fails exactly when the call takes the last
  reference, although the count is right (`ExecutiveTimer.ETimer.ObDereferenceObjectEx`); a cancel
  whose handle is closed meanwhile gets there (`ExecutiveTimer.CancelTakesTheLastReference`).
- "No ready thread outranks the selected or running one" is kept by every step but one: a switch
  breaks it exactly when the thread that gives up the processor outranks the selected one
  (`Scheduler.StepKeeps`), and that does happen (`Scheduler.SwitchCanInvert`). It comes about
  exactly by raising the running thread, or lowering the selected one, past the other while a
  thread is selected (`Scheduler.StepMatches`).
- With the 32-bit tick count wrapping inside the window, the examination of the timer table looks
  at nothing, whatever is due (`TimerWheel.FiresExactly`, `TimerWheel.WrapHidesADueTimer`).
- A timer that is due already when it is set is signalled at once only if no timer of the same
  list is due no later; otherwise it stays in the table (`TimerWheel.InsertedExactly`,
  `TimerWheel.DueTimerStaysInTable`).
- The address assertion of ExAllocatePoolWithTag fails exactly when a small request finds no memory
  (`Pool.PoolHeap.ExAllocatePoolWithTag`, `Pool.OutOfMemoryLooksAligned`).
- IoCheckShareAccess overwrites the flags of the file object also when it refuses
  (`ShareAccess.RefusedCheckChangesFlags`). For a file object that is open the counters stay exact
  without an update exactly when the new flags count like the old ones, and with an update exactly
  when the file accessed nothing before (`ShareAccess.RecheckIsExact`).
- An I/O packet with two or more outstanding calls and no completion routines unwinds to its end
  exactly when it has at most 125 locations (`IrpStack.UnwindsToTheEndExactly`). The signed byte
  that holds CurrentLocation always meets the loop test of a packet with 126 locations
  (`IrpStack.NeverFinishesAt126`), and with 127 the bound itself wraps, so that a packet with two
  outstanding calls is finished before any of them is unwound (`IrpStack.FinishesTooEarlyAt127`).
- A periodic timer that is due at once is set again until it is in the table. For a positive period
  that ends, unless the clock advances by a whole period within each attempt
  (`TimerWheel.PositivePeriodEnds`); for a negative period it never does
  (`TimerWheel.NegativePeriodNeverEnds`).
- A normal APC routine starts with normal APCs enabled exactly when its kernel routine left
  KernelApcDisable as it found it (`ApcQueue.NormalRoutinesStartEnabled`); one that enters a
  critical region and does not leave it breaks that (`ApcQueue.StartsDisabled`).

## Model

| member | source | states |
|---|---|---|
| ReadWriteLock.ErwLock.constructor | nboxkrnl/ex/rwlock.cpp:50-61 | the lock starts free, with no signal |
| ReadWriteLock.ErwLock.ExAcquireReadWriteLockExclusive | nboxkrnl/ex/rwlock.cpp:12-26 | the block of an exclusive acquire, with 32-bit wrap-around: counters and whether to wait |
| ReadWriteLock.ErwLock.ExAcquireReadWriteLockShared | nboxkrnl/ex/rwlock.cpp:29-47 | the block of a shared acquire: waits behind an active writer and behind a registered one |
| ReadWriteLock.ErwLock.ExReleaseReadWriteLock | nboxkrnl/ex/rwlock.cpp:64-97 | the block of a release: the new counters and the signal that is still to be sent; whom it calls in is what `ReadWriteLock.LastReaderCallsWriter` and `ReadWriteLock.WriterAdmitsAllReaders` say |
| ReadWriteLock.MutualExclusion | nboxkrnl/ex/rwlock.cpp:12-97 | over every interleaving of any number of threads, a writer is never inside with another writer or a reader |
| ReadWriteLock.ExactAccounting | nboxkrnl/ex/rwlock.cpp:12-97 | LockCount + 1 is holders plus waiters; the other counters plus tokens on their way are exactly the readers and waiters; at most one writer token exists |
| ReadWriteLock.SignalsAreNeverLost | nboxkrnl/ex/rwlock.cpp:69-96 | WritersWaitingCount is never decremented at zero, the event is never set while set, the semaphore never exceeds its limit |
| ReadWriteLock.NoLostWakeUp | nboxkrnl/ex/rwlock.cpp:69-96 | while a thread waits, some step of a holder, a signaller or a waiter with a token is possible: no reachable state is stuck |
| ReadWriteLock.RunsOut | nboxkrnl/ex/rwlock.cpp:12-97 | while no acquire begins, the protocol takes at most three more steps for each thread, in any interleaving |
| ReadWriteLock.AllGetOut | nboxkrnl/ex/rwlock.cpp:12-97 | when it can take no more, every waiter and holder has been in and out and the lock is free |
| ReadWriteLock.NobodyJoins | nboxkrnl/ex/rwlock.cpp:35-45 | while a writer is registered, no step adds a reader to the active group |
| ReadWriteLock.ReaderGroupDrains | nboxkrnl/ex/rwlock.cpp:35-45 | while a writer is registered, a group of readers only shrinks until it is gone |
| ReadWriteLock.ReadersWaitForOneWriter | nboxkrnl/ex/rwlock.cpp:76-96 | while a reader stays registered, at most one writer is called in ahead of it, and none if a writer has the lock |
| ReadWriteLock.WriterAdmitsAllReaders | nboxkrnl/ex/rwlock.cpp:76-84 | a releasing writer admits all registered readers together, before any waiting writer |
| ReadWriteLock.LastReaderCallsWriter | nboxkrnl/ex/rwlock.cpp:86-96 | over every run a release by a reader calls in no reader and takes none off the registered ones; the last of a group calls in exactly one writer if any is registered, and frees the lock otherwise; with a writer registered and no group there is exactly one writer inside or with a token |
| ReadWriteLock.WritersWaitForOneGroup | nboxkrnl/ex/rwlock.cpp:69-96 | while a writer stays registered, at most one group of registered readers is called in between two hand-offs to writers |
| ReadWriteLock.WaitsExactly | nboxkrnl/ex/rwlock.cpp:12-47 | a writer waits iff anybody is there; a reader iff anybody is there other than a group of readers with no writer waiting |
| ReadWriteLock.CountersWrap | nboxkrnl/ex/rwlock.cpp:14-78 | the counters stay within 32 bits and are right modulo 2^32 |
| ReadWriteLock.Bounded | nboxkrnl/ex/rwlock.cpp:12-97 | no counter reaches the point where it would wrap |
| ExecutiveTimer.ETimer.constructor | nboxkrnl/ex/extimer.cpp:225-240 | a new timer has one handle and its reference, and no association |
| ExecutiveTimer.ETimer.KeRemoveQueueApc | nboxkrnl/ke/apc.cpp:241-284 | the timer's APC leaves the queue, and says whether it was there |
| ExecutiveTimer.ETimer.ObDereferenceObjectEx | nboxkrnl/ob/ob.hpp:210-221 | drops references until none is left; the assertion at the end holds iff references remain or none was to be dropped |
| ExecutiveTimer.ETimer.NtSetTimerEx | nboxkrnl/ex/extimer.cpp:469-562 | the block of a set: association, list, queued APC, arming, and how many references to give back |
| ExecutiveTimer.ETimer.NtCancelTimer | nboxkrnl/ex/extimer.cpp:266-325 | the block of a cancel; that it cancels is `ExecutiveTimer.CancelledStaysQuiet` |
| ExecutiveTimer.ETimer.RundownOne | nboxkrnl/ex/extimer.cpp:57-101 | the block of one round of the rundown |
| ExecutiveTimer.ETimer.ExpTimerApcKernelRoutine | nboxkrnl/ex/extimer.cpp:369-422 | the kernel routine: a one-shot timer is disassociated; the normal routine stays iff the association is this thread's |
| ExecutiveTimer.ETimer.ExpTimerDpcRoutine | nboxkrnl/ex/extimer.cpp:163-187 | a firing takes a reference exactly if it queues the APC |
| ExecutiveTimer.ReferencesAreExact | nboxkrnl/ex/extimer.cpp:36-573 | over every interleaving the count is handles, calls and deliveries in progress, one for the association and one for a queued APC; a timer is on its APC thread's list, and on no other, iff associated |
| ExecutiveTimer.FreedOnlyWhenUnused | nboxkrnl/ex/extimer.cpp:36-573 | at count zero the timer is on no list, its APC neither queued nor in delivery, its DPC cannot run, and no call uses it |
| ExecutiveTimer.FreedStaysFreed | nboxkrnl/ex/extimer.cpp:36-573 | no step changes a timer that is gone |
| ExecutiveTimer.DereferencesAreCovered | nboxkrnl/ex/extimer.cpp:101-421 | whoever still has references to give back, a call or an APC kernel routine, finds that many |
| ExecutiveTimer.UnassociatedIsIdle | nboxkrnl/ex/extimer.cpp:36-573 | in every reachable state a timer without an association is on no list, its APC is not queued and its DPC will not run |
| ExecutiveTimer.CancelledStaysQuiet | nboxkrnl/ex/extimer.cpp:262-325 | over every run, from the block of a cancel until that of the next set, the timer is unassociated, on no list, not queued and not armed; no DPC runs, no APC is delivered, and one that is being delivered does not call its normal routine |
| ExecutiveTimer.SetArms | nboxkrnl/ex/extimer.cpp:469-562 | a set with an APC routine associates the timer with the calling thread, last on its list and with nothing queued, armed for one firing, or for many if it is periodic; one without a routine leaves it idle |
| ExecutiveTimer.FiringQueues | nboxkrnl/ex/extimer.cpp:155-187 | a firing queues the APC if its thread takes any; a one-shot timer is spent then, a periodic one stays armed |
| ExecutiveTimer.DeliveryCallsRoutine | nboxkrnl/ex/extimer.cpp:369-422 | a delivery calls the normal routine iff the timer is associated with that thread; a one-shot timer is idle afterwards |
| ExecutiveTimer.OneShotFiresOnce | nboxkrnl/ex/extimer.cpp:155-573 | over every run, from a one-shot set until the next set, the DPC runs at most once and the APC is delivered at most as often; unless the timer is cancelled or run down the firing is to come or has come, once |
| ExecutiveTimer.CancelTakesTheLastReference | nboxkrnl/ex/extimer.cpp:262-325 | a run in which a cancel takes the last reference, where the closing assertion of the dereference fails |
| ExecutiveTimer.OthersNeverDelayRundown | nboxkrnl/ex/extimer.cpp:50-110 | no step of another call makes the rundown longer, unless it sets a timer on the thread |
| ExecutiveTimer.RundownAdvances | nboxkrnl/ex/extimer.cpp:50-110 | each step of the rundown lowers its rank |
| ExecutiveTimer.RundownTerminates | nboxkrnl/ex/extimer.cpp:36-120 | under every interleaving the rundown takes at most eight steps per timer and one more, and then the list is empty for good |
| ExecutiveTimer.RundownProgress | nboxkrnl/ex/extimer.cpp:36-120 | the rundown is never stuck while its thread is in no APC |
| IrpStack.IRP.constructor | nboxkrnl/io/io.cpp:530-544 | CurrentLocation, a signed byte, starts at StackCount + 1 with clear locations |
| IrpStack.IRP.IoSetCompletionRoutine | nboxkrnl/io/iop.cpp:239-254 | registers the routine and its flags in the next location |
| IrpStack.IRP.IofCallDriver | nboxkrnl/io/io.cpp:900-914 | moves down by one location |
| IrpStack.IRP.IoMarkIrpPending | nboxkrnl/io/iop.cpp:216-219 | sets the pending bit of the current location |
| IrpStack.IRP.ZeroIrpStackLocation | nboxkrnl/io/iop.cpp:204-214 | clears the control flags of one location and no other |
| IrpStack.IRP.UnwindLocation | nboxkrnl/io/io.cpp:934-959 | one round of the unwinding loop: pending bit, choice by status, clearing, propagation; what the routine sees is part of `IrpStack.UnwindingIsAStack` |
| IrpStack.IRP.UnwindRound | nboxkrnl/io/io.cpp:929-960 | one turn of the loop with its signed-byte test: unwinds a location of the stack, or reads and marks outside it |
| IrpStack.IRP.UnwindLocations | nboxkrnl/io/io.cpp:929-960 | the unwinding loop for arbitrary completion routines, until one pauses it, the signed-byte test ends it, or it runs past the stack |
| IrpStack.IRP.IofCompleteRequest | nboxkrnl/io/io.cpp:916-960 | bugcheck past the end, otherwise the unwinding |
| IrpStack.UnwindingIsAStack | nboxkrnl/io/io.cpp:900-960 | with at most 125 locations, over any pauses and resumptions and with any routines, the open calls form a stack: each unwinding takes the latest open call, PendingReturned is then the mark of that call whether or not a routine runs, the routine runs iff it was registered for the status at that moment, and the call below is marked by the routine or else inherits the mark |
| IrpStack.ReplaySplitsCalls | nboxkrnl/io/io.cpp:900-960 | the calls made are those on the stack, in order, and those unwound |
| IrpStack.EachCallUnwindsOnceInReverse | nboxkrnl/io/io.cpp:900-960 | with at most 125 locations a call is unwound at most once, and only after every later call |
| IrpStack.CompletionsPauseExactly | nboxkrnl/io/io.cpp:929-980 | over every run a completion only unwinds, from the current location on, and pauses at the first routine that asks for it; when it is over PendingReturned is that of its last unwinding, and it has finished iff no call is open any more |
| IrpStack.PastTheEndIsFinished | nboxkrnl/io/io.cpp:916-960 | over every run CurrentLocation stays within the packet, and is past the end iff some completion has finished it |
| IrpStack.FinishedMeansPastTheEnd | nboxkrnl/io/io.cpp:930-960 | with at most 125 locations the unwinding finishes iff CurrentLocation reaches StackCount + 2 |
| IrpStack.UnwindsToTheEndExactly | nboxkrnl/io/io.cpp:929-960 | without completion routines a packet is unwound past its end iff it has at most 125 locations, or 127 and only the last is outstanding and not pending |
| IrpStack.NeverFinishesAt126 | nboxkrnl/io/io.cpp:931-931 | with 126 locations the loop test always holds and the unwinding is never finished |
| IrpStack.FinishesTooEarlyAt127 | nboxkrnl/io/io.cpp:931-931 | with 127 locations and two outstanding calls the packet is finished with none of them unwound |
| IrpStack.NoBugcheckBeyondLimit | nboxkrnl/io/io.cpp:922-925 | with more than 125 locations no completion is ever caught as one too many |
| IrpStack.FinishedAtMostOnce | nboxkrnl/io/io.cpp:922-925 | after a packet of at most 125 locations is finished every further completion bugchecks and changes nothing |
| IrpStack.PendingIsTheOrOfAll | nboxkrnl/io/io.cpp:938-958 | without completion routines, with at most 125 locations, PendingReturned is the OR of the pending bits of all locations |
| ApcQueue.LeadingSpecials | nboxkrnl/ke/apc.cpp:26-43 | where a special APC goes: behind the specials, before the first normal one |
| ApcQueue.KThread.KiInsertQueueApc | nboxkrnl/ke/apc.cpp:16-71 | queues an APC that is not queued, in the place of its kind, and requests delivery |
| ApcQueue.KThread.KeRemoveQueueApc | nboxkrnl/ke/apc.cpp:241-284 | takes the APC off, and clears the pending flag if the list is empty then |
| ApcQueue.KThread.KeEnterCriticalRegion | nboxkrnl/ke/apc.cpp:142-152 | disables normal APCs once more |
| ApcQueue.KThread.KeLeaveCriticalRegion | nboxkrnl/ke/apc.cpp:204-219 | leaving the last region requests delivery if something is queued |
| ApcQueue.KThread.TakeFirst | nboxkrnl/ke/apc.cpp:85-137 | the loop test: takes the first APC iff it is special, or normal APCs are enabled and none is active |
| ApcQueue.OneNormalRoutine | nboxkrnl/ke/apc.cpp:73-140 | however deliveries nest, at most one normal routine is active |
| ApcQueue.NormalRoutinesStartEnabled | nboxkrnl/ke/apc.cpp:111-124 | a normal routine starts at PASSIVE_LEVEL with none active, for an APC taken off with normal APCs enabled; they are enabled at its start iff its kernel routine left KernelApcDisable as it found it |
| ApcQueue.StartsDisabled | nboxkrnl/ke/apc.cpp:106-124 | a kernel routine that enters a critical region makes the normal routine start with normal APCs disabled |
| ApcQueue.ReachesKernelRoutine | nboxkrnl/ke/apc.cpp:16-113 | a run from the idle thread to such a kernel routine |
| ApcQueue.DeliveryReturnsClean | nboxkrnl/ke/apc.cpp:73-140 | every delivery returns at APC_LEVEL with no special APC left, and leaves a normal one only if those are disabled or an outer delivery has one active |
| ApcQueue.NoStrandedApc | nboxkrnl/ke/apc.cpp:45-284 | an APC queued with the pending flag clear waits for enabling or for a delivery that looks again; one that could run has an interrupt or such a delivery on its way |
| ApcQueue.DeliveredInOrder | nboxkrnl/ke/apc.cpp:16-140 | the list is specials then normals, each in order of insertion, and each kind is delivered in that order |
| ApcQueue.EachInsertionOnce | nboxkrnl/ke/apc.cpp:16-284 | over every run each insertion is still queued, was dropped by a removal, or was delivered, in exactly one of these ways and once |
| ApcQueue.RoutinesRun | nboxkrnl/ke/apc.cpp:85-137 | over every run the kernel routine of each APC that is delivered runs once, and its normal routine once iff the kernel routine left one |
| ApcQueue.DeliveredAsInserted | nboxkrnl/ke/apc.cpp:16-140 | over every run, of two APCs of one kind the one delivered first was inserted first |
| ApcQueue.RegionsBalance | nboxkrnl/ke/apc.cpp:142-219 | over every run KernelApcDisable is the regions left less those entered; the interrupt is taken at most as often as insertions and leavings ask for it |
| ApcQueue.RemovalIsExact | nboxkrnl/ke/apc.cpp:241-284 | a removal takes out that APC and no other, clears the pending flag iff the list is empty then, and does nothing if the APC is not queued |
| ApcQueue.RegionsAreExact | nboxkrnl/ke/apc.cpp:142-219 | only leaving the last region with something queued asks for delivery |
| Dispatcher.Kernel.KiWaitSatisfyMutant | nboxkrnl/ke/wait.cpp:12-24 | acquiring a mutant: count, owner, abandoned status, owner's list |
| Dispatcher.Kernel.KiWaitSatisfyAny | nboxkrnl/ke/wait.cpp:27-39 | what satisfying one wait does to the object |
| Dispatcher.Kernel.KiUnwaitThread | nboxkrnl/ke/wait.cpp:670-683 | a waiter leaves the wait list and runs, with the status added to its WaitStatus |
| Dispatcher.Kernel.KiWaitTest | nboxkrnl/ke/wait.cpp:632-668 | the loop that satisfies waiters while the object is signalled |
| Dispatcher.Kernel.KeWaitForSingleObject | nboxkrnl/ke/wait.cpp:140-270 | one attempt of a wait: acquired, limit exceeded, timed out, or queued at the tail |
| Dispatcher.Kernel.KeReleaseSemaphore | nboxkrnl/ke/semaphore.cpp:39-71 | credits the adjustment and wakes, or refuses, with the 32-bit sum |
| Dispatcher.Kernel.KeReleaseMutant | nboxkrnl/ke/mutant.cpp:36-82 | releases or abandons a mutant, or refuses a thread that is not the owner |
| Dispatcher.WakesAPrefix | nboxkrnl/ke/wait.cpp:632-668 | the wake-up loop satisfies exactly a prefix of the wait list, and how long it is |
| Dispatcher.ObjectsStayExact | nboxkrnl/ke/wait.cpp:140-270 | over every run a semaphore's count is in [0, Limit] and equals initial plus released less acquired; a mutant is owned iff its state is not positive, with the recursion depth that says, on exactly its owner's list; wait lists hold exactly the waiting threads |
| Dispatcher.NobodyWaitsForASignal | nboxkrnl/ke/wait.cpp:632-668 | an object somebody waits for is not signalled: a mutant is owned, a semaphore used up |
| Dispatcher.ReleaseWakesInOrder | nboxkrnl/ke/wait.cpp:632-668 | a release wakes a prefix of the wait list of its own object, and nobody else |
| Dispatcher.FirstComeFirstServed | nboxkrnl/ke/wait.cpp:228-668 | over every run, while a thread waits ahead of another, the later one goes on waiting behind it, whatever is released |
| Dispatcher.SemaphoreLimitIsExact | nboxkrnl/ke/semaphore.cpp:48-55 | a release is refused iff it is negative or exceeds the limit, also when the sum wraps, and then changes nothing |
| Dispatcher.LastReleaseHandsOver | nboxkrnl/ke/mutant.cpp:54-71 | an owner that acquired n times keeps the mutant for n - 1 releases; the last gives it to the first waiter, or frees it |
| Dispatcher.RecursionLimitIsExact | nboxkrnl/ke/wait.cpp:167-178 | an owner that waits again is refused iff it has acquired the mutant 2^31 + 1 times more than released, and then nothing changes but its WaitStatus |
| Dispatcher.AbandonmentIsReportedOnce | nboxkrnl/ke/wait.cpp:12-24 | over every run whoever acquires a mutant, by its own wait or by being woken, gets STATUS_ABANDONED iff the mutant was abandoned and nobody has acquired it since, and STATUS_SUCCESS otherwise |
| Dispatcher.WaitsAnswerExactly | nboxkrnl/ke/wait.cpp:140-270 | over every run, for both kinds of object: a wait succeeds iff the object is available to the thread, and then acquires it once; it is refused iff the thread is at the recursion limit; otherwise it times out iff its timeout is zero, and nothing changes but the WaitStatus, or is queued last; the WaitStatus is the status returned |
| Dispatcher.EndedWaitsTellWhy | nboxkrnl/ke/wait.cpp:670-683 | over every run a wait that a timeout or an APC ends leaves the wait list with exactly that status, and concerns nobody else |
| Dispatcher.ReleaseTellsWoken | nboxkrnl/ke/wait.cpp:632-668 | a release tells exactly the threads it wakes how their wait ended, and changes no other thread |
| Dispatcher.ReleaseMutantIsExact | nboxkrnl/ke/mutant.cpp:36-82 | a release is refused iff it is no abandonment by another thread than the owner; an abandonment or the last release gives the mutant to the first waiter or to nobody; any other keeps the owner with one acquisition less |
| Dispatcher.LongAddWraps | nboxkrnl/ke/semaphore.cpp:48-55 | the sum stays within 32 bits and is off by a multiple of 2^32 at most |
| Pool.ClassIsRight | nboxkrnl/ex/pool.cpp:98-99 | the class chosen is the smallest that holds the request and the header |
| Pool.ClassFromSize | nboxkrnl/ex/pool.cpp:131-131 | the size in the header leads back to the class |
| Pool.LargeExactly | nboxkrnl/ex/pool.cpp:93-99 | a request goes to the memory manager iff no chunk of any class holds it |
| Pool.FewestPages | nboxkrnl/mm/mi.cpp:469-469 | a region is the least number of whole pages that holds the request |
| Pool.PoolHeap.constructor | nboxkrnl/ex/pool.cpp:35-35 | all lists start empty |
| Pool.PoolHeap.CreatePool | nboxkrnl/ex/pool.cpp:38-53 | the loop links exactly the chunks of the page, in order, ends the list, and writes nowhere else |
| Pool.PoolHeap.AllocChunk | nboxkrnl/ex/pool.cpp:55-71 | pops the free list, cutting a new page when it is empty; null iff the memory manager gave none |
| Pool.PoolHeap.Refill | nboxkrnl/ex/pool.cpp:58-63 | an empty list receives all the chunks of a new page |
| Pool.PoolHeap.TakeHead | nboxkrnl/ex/pool.cpp:65-70 | the first free chunk becomes the block, and its link word its size |
| Pool.PoolHeap.FreeChunk | nboxkrnl/ex/pool.cpp:73-77 | the chunk is pushed on the list of the class it was cut for |
| Pool.PoolHeap.ExAllocatePoolWithTag | nboxkrnl/ex/pool.cpp:87-105 | an allocation of any size; the tag goes into the header; the address assertion fails iff a small request finds no memory |
| Pool.OutOfMemoryLooksAligned | nboxkrnl/ex/pool.cpp:100-101 | a small request to an empty heap without memory, where that assertion fails |
| Pool.PoolHeap.ExFreePoolWithTag | nboxkrnl/ex/pool.cpp:115-133 | frees a block by the alignment of its address and the size in its header; the assertion on the tag holds iff the block is large, no tag is given, or it is the tag of the allocation |
| Pool.PoolHeap.ExQueryPoolBlockSize | nboxkrnl/ex/pool.cpp:135-146 | the usable size of any block, small or large |
| Pool.CutChunks | nboxkrnl/ex/pool.cpp:45-51 | the chunks cut from a page are distinct, apart and within it |
| Pool.FreeTakesTheRightPath | nboxkrnl/ex/pool.cpp:121-131 | an owned address is page-aligned iff it is not a small block |
| Pool.LiveBlocksAreDisjoint | nboxkrnl/ex/pool.cpp:55-77 | a block in use is in its page and apart from other blocks, free chunks and large regions |
| Pool.FreeThenAllocate | nboxkrnl/ex/pool.cpp:55-77 | allocating undoes freeing: the same chunk comes back and everything is as before |
| Pool.AllocationHolds | nboxkrnl/ex/pool.cpp:87-105 | a returned block is new, holds the bytes asked for, and no other owner loses anything |
| Pool.FreedHolds | nboxkrnl/ex/pool.cpp:115-133 | freeing ends one ownership and touches no other |
| Pool.OwnedAreApart | nboxkrnl/ex/pool.cpp:55-133 | what two owners may use does not overlap |
| Pool.HistoriesAreValid | nboxkrnl/ex/pool.cpp:38-133 | over every history free lists have no duplicates and hold only chunks of their class that are not in use; free plus live chunks per class are pages times chunks per page |
| Pool.BlocksStay | nboxkrnl/ex/pool.cpp:38-133 | a block keeps its extent until it is freed |
| Pool.BlocksKeepTheirBytes | nboxkrnl/ex/pool.cpp:38-133 | over every history, what a request was given holds its bytes until freed and overlaps nobody else's |
| IoControl.FileObject.LookUp | nboxkrnl/io/iop.cpp:500-521 | the lookups after the one of the file: refused for an APC on a file with a completion port and for an event that is not found, and then the file reference is given back |
| IoControl.FileObject.OpenHandle | nboxkrnl/io/iop.cpp:500-506 | the lookup of the file takes a reference, or fails and takes none |
| IoControl.FileObject.IopAcquireSynchronousFileLock | nboxkrnl/io/iop.cpp:456-461 | takes the lock or has to wait |
| IoControl.FileObject.IopReleaseSynchronousFileLock | nboxkrnl/io/iop.cpp:463-468 | releases the lock and says whether to signal |
| IoControl.FileObject.IopCompleteRequest | nboxkrnl/io/iop.cpp:359-412 | what a completion gives back and signals, with and without error, event and APC |
| IoControl.FileObject.FinishService | nboxkrnl/io/iop.cpp:433-448 | after the driver's return: a deferred completion, then the wait or the release |
| IoControl.OneRequestAtATime | nboxkrnl/io/iop.cpp:456-468 | over every interleaving at most one request has the file lock |
| IoControl.LockIsExact | nboxkrnl/io/iop.cpp:456-468 | in every reachable state the lock count is one less than holders and waiters, and the lock's event is never set while set |
| IoControl.LockIsNeverLost | nboxkrnl/io/iop.cpp:456-468 | a waiter implies a holder, a signal on its way or one that is set |
| IoControl.BalancedExactly | nboxkrnl/io/iop.cpp:359-559 | on every path a request that is over gave back exactly what it took, iff it is not a file-system control request that finished at once with its packet marked pending; such a one gave everything back twice |
| IoControl.NothingIsLeft | nboxkrnl/io/iop.cpp:359-559 | when all requests are over and none is miscounted, references, packets and the lock are as at the start |
| IoControl.ReturnsItsOwnStatus | nboxkrnl/io/iop.cpp:444-453 | a request returns the status of its own packet, whatever the others do |
| IoControl.RequestsEndExactly | nboxkrnl/io/iop.cpp:500-559 | over every run the driver gets a packet only for an admissible request: with a file, with an event if one is named, and without an APC on a file with a completion port; a request that is over returns the status of the failing lookup, STATUS_INVALID_PARAMETER, STATUS_INSUFFICIENT_RESOURCES without a packet, or the status of its packet, each in exactly its case |
| IoControl.CallersAreTold | nboxkrnl/io/iop.cpp:359-454 | over every run, when a request is over the status block, the event and the APC of the caller have been served iff it got a packet that was completed without an error: once, or the APC twice if it is miscounted |
| IoControl.RequestsRunOut | nboxkrnl/io/iop.cpp:359-559 | over every run a request makes at most fifteen moves |
| IoControl.AllEndUnlessStuck | nboxkrnl/io/iop.cpp:359-559 | when none can move, each request has not begun, is over, is stuck, or waits for the lock of a stuck one |
| IoControl.SeverityDecides | nboxkrnl/ntstatus.hpp:95-97 | whether a status is an error or a success is in its two top bits |
| IoControl.WaitEndsExactly | nboxkrnl/io/iop.cpp:364-454 | when the completion of a pended request has been dealt with, the wait ends iff there was no event, no error, SYNCHRONIZE access, and the packet was marked |
| IoControl.StuckForever | nboxkrnl/io/iop.cpp:364-454 | otherwise the request never goes on and nobody else gets the lock |
| IoControl.GetsStuck | nboxkrnl/io/iop.cpp:364-454 | a run in which a request with an event of its own gets stuck |
| IoControl.GivesBackTwice | nboxkrnl/io/iop.cpp:433-442 | a run after which the file has one reference fewer than before |
| Scheduler.HighestBit | nboxkrnl/ke/thread.cpp:290-318 | the bit scan finds the highest bit that is set |
| Scheduler.Prcb.KiAddThreadToReadyList | nboxkrnl/ki/ki.hpp:165-181 | links the thread at the head or tail of its list and sets the mask bit |
| Scheduler.Prcb.KiScheduleThread | nboxkrnl/ke/thread.cpp:159-181 | selects the thread, preempting a lower one, or makes it ready |
| Scheduler.Prcb.KiFindAndRemoveHighestPriorityThread | nboxkrnl/ke/thread.cpp:290-318 | takes off the first thread of the highest list, if that is high enough |
| Scheduler.Prcb.KiSetPriorityThread | nboxkrnl/ke/thread.cpp:325-390 | changes the priority of a thread in any state |
| Scheduler.Prcb.KiQuantumEnd | nboxkrnl/ke/thread.cpp:392-428 | a new quantum, decay of the priority, and another thread if there is one, as `Scheduler.QuantumEndGivesTurn` says in terms of the ready threads |
| Scheduler.Prcb.KeBoostPriorityThread | nboxkrnl/ke/thread.cpp:741-789 | a boost within the dynamic range |
| Scheduler.Prcb.KiUnwaitThread | nboxkrnl/ke/wait.cpp:689-719 | priority and quantum of a thread that wakes up, and its scheduling |
| Scheduler.BestIsBest | nboxkrnl/ke/thread.cpp:290-318 | the thread found has the highest priority of all ready ones; none is found iff all are below the bound |
| Scheduler.ListsStayExact | nboxkrnl/ke/thread.cpp:159-428 | over every run a mask bit is set iff its list is not empty, each ready thread is once on the list of its priority, and the selected thread is the only one in standby |
| Scheduler.StepKeeps | nboxkrnl/ke/thread.cpp:159-428 | every operation keeps that, and keeps the order of priorities iff it is not a switch away from a higher thread |
| Scheduler.OrderIsKept | nboxkrnl/ke/thread.cpp:159-428 | over every run without such a switch no ready thread outranks the selected one, or the running one |
| Scheduler.DispatchKeeps | nboxkrnl/hal/interrupt.cpp:190-211 | the dispatch interrupt keeps the lists; it keeps the order iff the old thread does not outrank the new one |
| Scheduler.SwitchCanInvert | nboxkrnl/hal/interrupt.cpp:190-211 | a run in which it does outrank it |
| Scheduler.StepMatches | nboxkrnl/ke/thread.cpp:159-428 | the running thread comes to outrank the selected one exactly by a raise of the former above it, or a lowering of the latter below it with no ready thread good enough to replace it |
| Scheduler.MatchedRunsStayOrdered | nboxkrnl/ke/thread.cpp:159-428 | over every run without such a call all switches are in order and no ready thread ever outranks the selected or running one |
| Scheduler.TurnsAreKept | nboxkrnl/ke/thread.cpp:159-428 | over every run, of two ready threads of a priority the one ahead stays ahead for as long as both stay ready there |
| Scheduler.PreemptedComesFirst | nboxkrnl/ke/thread.cpp:159-181 | a thread preempted in standby comes first among its equals, a scheduled one last |
| Scheduler.QuantumEndGivesTurn | nboxkrnl/ke/thread.cpp:392-428 | a thread that has used up its quantum gets a full one and loses one level iff it is in the dynamic range and above its base; then, with nobody selected, the first thread of the highest list that is not below its priority is selected, or nobody if there is none; with quantum left nothing changes |
| Scheduler.RoundRobin | nboxkrnl/ke/thread.cpp:392-428 | at the end of its quantum a thread that does not decay changes places with the first of its equals and goes to the end of their list |
| Scheduler.SchedulesExactly | nboxkrnl/ke/thread.cpp:159-181 | a scheduled thread is selected iff it outranks the selected or running one, and is last of its list otherwise |
| Scheduler.SetPriorityTakesEffect | nboxkrnl/ke/thread.cpp:325-390 | a changed priority takes effect in every state of the thread: on the lists, on the selection, and on whoever is better now |
| Scheduler.BoostTakesEffect | nboxkrnl/ke/thread.cpp:741-789 | a boost raises a thread of the dynamic range without one to base plus increment, at most to the top of that range, with a full quantum, and does nothing otherwise |
| Scheduler.AwakeIs | nboxkrnl/ke/wait.cpp:689-719 | priority and quantum after a wait: the raise within the dynamic range, the charge for the wait, and the decay when that uses the quantum up |
| Scheduler.UnwaitTakesEffect | nboxkrnl/ke/wait.cpp:689-719 | a thread whose wait ends is selected iff it then outranks the selected or running one |
| Scheduler.SwitchesTakeEffect | nboxkrnl/hal/interrupt.cpp:190-211 | after a switch the selected thread runs, nobody is selected, and the old thread is ready at the asked end of its list; after a wait it waits, and the best ready thread runs if none was selected |
| SList.SListHeader.InterlockedPushEntrySList | nboxkrnl/ex/exinterlocked.cpp:288-320 | pushes and returns the old first entry |
| SList.SListHeader.InterlockedPopEntrySList | nboxkrnl/ex/exinterlocked.cpp:223-285 | pops the first entry, or returns null |
| SList.SListHeader.InterlockedFlushSList | nboxkrnl/ex/exinterlocked.cpp:19-52 | empties the list and returns its chain |
| SList.SListHeader.InterlockedCompareExchange64 | nboxkrnl/ex/exinterlocked.cpp:11-14 | stores the new header iff the old one is as expected, and returns the old one |
| SList.RefinesAtomicStack | nboxkrnl/ex/exinterlocked.cpp:19-320 | over every interleaving, with torn header reads, the operations that took effect are a history of an atomic stack and memory holds that stack, Depth being its length modulo 65536 |
| SList.OneEffectPerCall | nboxkrnl/ex/exinterlocked.cpp:19-320 | each call takes effect exactly once, by a step of its own thread, before it returns |
| SList.NothingLostOrDuplicated | nboxkrnl/ex/exinterlocked.cpp:19-320 | each entry is in exactly one place: on the list once, held, or being pushed |
| SList.FlushTakesTheChain | nboxkrnl/ex/exinterlocked.cpp:38-51 | a flush hands over the whole chain and leaves nothing |
| SList.RetryThenSucceeds | nboxkrnl/ex/exinterlocked.cpp:300-316 | a push that lost the race succeeds next time when left alone |
| SList.LockFree | nboxkrnl/ex/exinterlocked.cpp:19-320 | over every interleaving a thread takes at most four steps for each operation it starts and two for each operation of any thread that takes effect |
| SList.StepsRunOut | nboxkrnl/ex/exinterlocked.cpp:19-320 | each own step brings a call nearer to its end, and only an operation of another thread that takes effect sets it back, by two steps |
| SList.CallsGoOn | nboxkrnl/ex/exinterlocked.cpp:19-320 | a thread in a call can always take its next step |
| SList.EventsFitCalls | nboxkrnl/ex/exinterlocked.cpp:19-320 | a step causes at most one effect, and that is of the operation and the entry that its thread called it with |
| SList.SequenceCountsPushes | nboxkrnl/ex/exinterlocked.cpp:288-320 | over every interleaving the sequence number is the number of pushes modulo 65536 |
| SList.DepthWraps | nboxkrnl/types.hpp:205-212 | the 16-bit depth is the length modulo 65536 |
| TimerWheel.Index | nboxkrnl/ke/timer.cpp:74-77 | the index of a due time is within the table |
| TimerWheel.SlotIsRemainder | nboxkrnl/ke/timer.cpp:74-77 | the index is the remainder of the ticks by the size of the table |
| TimerWheel.HalvesCompare | nboxkrnl/ke/timer.cpp:89-91 | comparing by halves is comparing 64-bit times |
| TimerWheel.TimerTable.KiRemoveTimer | nboxkrnl/ke/timer.cpp:59-71 | the timer leaves its list |
| TimerWheel.TimerTable.KiInsertTimerInTimerTable | nboxkrnl/ke/timer.cpp:79-111 | the search from the end of the list, and the second look at the clock for a timer that comes first |
| TimerWheel.TimerTable.KiInsertTimer | nboxkrnl/ke/timer.cpp:124-153 | absolute and relative due times, and one that has passed |
| TimerWheel.TimerTable.KeCancelTimer | nboxkrnl/ke/timer.cpp:258-280 | removes the timer if it is inserted, and says whether it was |
| TimerWheel.TimerTable.KeSetTimerEx | nboxkrnl/ke/timer.cpp:310-350 | removes, sets, queues the DPC of a timer that is due at once, and sets a periodic one again until it is in the table or the given clock readings are used up |
| TimerWheel.RetryEndsExactly | nboxkrnl/ke/timer.cpp:338-344 | the repetition ends, with the timer in the table, iff one of the attempts takes |
| TimerWheel.SetEndsInserted | nboxkrnl/ke/timer.cpp:310-350 | the call ends with the timer in the table iff the timer is not due at once, or is periodic and an attempt takes |
| TimerWheel.PositivePeriodEnds | nboxkrnl/ke/timer.cpp:338-344 | for a positive period an attempt takes unless the clock advances by a whole period between its two readings |
| TimerWheel.NegativePeriodNeverEnds | nboxkrnl/ke/timer.cpp:338-344 | for a negative period, an absolute time, no attempt ever takes while the system time is not below it |
| TimerWheel.TimerTable.KiCheckExpiredTimers | nboxkrnl/ke/timer.cpp:19-57 | queues the expiry routine iff a head in the window is due and the routine is not queued already |
| TimerWheel.TimerTable.FindDueHead | nboxkrnl/ke/timer.cpp:30-40 | the loop over the window finds a due head iff there is one |
| TimerWheel.PlaceSplits | nboxkrnl/ke/timer.cpp:86-99 | a timer is placed behind all timers due no later and before all others: equal times keep their order |
| TimerWheel.InsertedExactly | nboxkrnl/ke/timer.cpp:79-153 | a timer ends up in the table iff its time is to come or a timer of its list is due no later; otherwise it is signalled; no other timer changes |
| TimerWheel.AttemptIsExact | nboxkrnl/ke/timer.cpp:79-153 | what an attempt does to the due time, the flags and the list of the timer, and that it touches no other timer and no other list |
| TimerWheel.SetIsExact | nboxkrnl/ke/timer.cpp:310-350 | after a set the timer has its period, is signalled iff it was due at once, and is otherwise inserted and due when it was asked for; no other timer changes |
| TimerWheel.RetryIsExact | nboxkrnl/ke/timer.cpp:338-344 | the repetition keeps the period and the signal, and concerns no other timer |
| TimerWheel.DueTimerStaysInTable | nboxkrnl/ke/timer.cpp:86-110 | for every due time, a timer that is due by the second reading of the clock and stays in the table behind another |
| TimerWheel.TableStaysExact | nboxkrnl/ke/timer.cpp:59-350 | after any requests every list is sorted, and a timer is inserted iff it is linked, once, on the list of its due time |
| TimerWheel.FiresExactly | nboxkrnl/ke/timer.cpp:19-57 | for tick counts of any size the routine is queued iff the 32-bit count does not wrap in the window and a due timer is on one of the window's lists |
| TimerWheel.DueTimersAreFound | nboxkrnl/ke/timer.cpp:19-57 | with the interrupt time at the tick count, a timer due since the last examination is found iff the count does not wrap in the window |
| TimerWheel.OnlyWhenDue | nboxkrnl/ke/timer.cpp:30-40 | the routine is queued only when some timer is due |
| TimerWheel.WrapHidesADueTimer | nboxkrnl/ke/timer.cpp:24-30 | a due timer that the examination passes over because the count wraps |
| DeviceQueue.FirstAbove | nboxkrnl/ke/device_queue.cpp:131-143 | the search of an insertion: the first higher key |
| DeviceQueue.FirstAtLeast | nboxkrnl/ke/device_queue.cpp:209-283 | the search of a removal: the first key that is not lower |
| DeviceQueue.DeviceObject.KeInsertDeviceQueue | nboxkrnl/ke/device_queue.cpp:44-84 | takes an idle device, or queues at the tail |
| DeviceQueue.DeviceObject.KeInsertByKeyDeviceQueue | nboxkrnl/ke/device_queue.cpp:89-157 | takes an idle device, or queues by key |
| DeviceQueue.DeviceObject.KeRemoveDeviceQueue | nboxkrnl/ke/device_queue.cpp:162-204 | the first packet, or the device becomes idle |
| DeviceQueue.DeviceObject.KeRemoveByKeyDeviceQueue | nboxkrnl/ke/device_queue.cpp:209-283 | the packet chosen by key, or the device becomes idle |
| DeviceQueue.DeviceObject.IoStartPacket | nboxkrnl/io/io.cpp:1306-1346 | starts the packet or queues it |
| DeviceQueue.DeviceObject.IopStartNextPacket | nboxkrnl/io/io.cpp:1232-1255 | starts the next packet if there is one |
| DeviceQueue.DeviceObject.IopStartNextPacketByKey | nboxkrnl/io/io.cpp:1265-1289 | the same by key |
| DeviceQueue.EveryPacketOnce | nboxkrnl/io/io.cpp:1232-1346 | over every run each packet waits or has been started, once; an idle device has nothing waiting; one packet is in service, the one started last |
| DeviceQueue.EachRequestServes | nboxkrnl/io/io.cpp:1232-1346 | over every run: a packet for an idle device is started; for a busy one it goes last, or before the first higher key if the last key is higher; asking for the next starts exactly one that waits, the first or the one found by key; with none waiting the device becomes idle; packets started and waiting are as many as submitted |
| DeviceQueue.UnkeyedIsFifo | nboxkrnl/io/io.cpp:1232-1346 | without keys packets are started in the order of submission |
| DeviceQueue.InsertionPointParts | nboxkrnl/ke/device_queue.cpp:120-146 | on a sorted list the insertion point parts lower and equal keys from higher ones |
| DeviceQueue.KeyedStaysSorted | nboxkrnl/ke/device_queue.cpp:89-283 | over every run with keys the list is sorted by key, and by arrival among equal keys |
| DeviceQueue.ServesInSweeps | nboxkrnl/ke/device_queue.cpp:209-283 | if a key exceeds the given one, the least key not below it is served, else the least of all; the oldest among equals |
| ShareAccess.SHARE_ACCESS.IoCheckShareAccess | nboxkrnl/io/io.cpp:87-129 | the test on the counters, the update, and the flags that are set in any case |
| ShareAccess.SHARE_ACCESS.IoSetShareAccess | nboxkrnl/io/io.cpp:786-822 | the counters of a single open |
| ShareAccess.SHARE_ACCESS.IoRemoveShareAccess | nboxkrnl/io/io.cpp:675-708 | takes a file off the counters, if it accessed anything |
| ShareAccess.CountersSpeakForAll | nboxkrnl/io/io.cpp:106-113 | the test fails iff 255 files are open or one of them is incompatible |
| ShareAccess.CountersAreExact | nboxkrnl/io/io.cpp:87-129 | after any history the byte counters are the counts over the open files, and these are pairwise compatible |
| ShareAccess.AcceptsExactlyTheCompatible | nboxkrnl/io/io.cpp:87-129 | a newcomer is accepted iff fewer than 255 files are open and it is compatible with each |
| ShareAccess.SecondOpenExactly | nboxkrnl/io/io.cpp:87-129 | in terms of the access and sharing masks: a second open is accepted iff neither open asks for what the other does not offer, or it asks for no access |
| ShareAccess.BytesWrap | nboxkrnl/io/io.cpp:117-126 | the counters are bytes: counting is modulo 256 and counting back undoes it |
| ShareAccess.RemoveUndoesOpen | nboxkrnl/io/io.cpp:675-708 | removing what was just added restores the counters |
| ShareAccess.RecheckIsExact | nboxkrnl/io/io.cpp:87-129 | after any history, checking a file object that is open keeps the counters exact iff, without an update, its new flags count like the old ones, and with one, it accessed nothing before |
| ShareAccess.SharingIsOfTheLastAccess | nboxkrnl/io/io.cpp:89-104 | after any sequence of checks the access flags are those of the last one, and the sharing flags those of the last one that asked for access |
| ShareAccess.RefusedCheckChangesFlags | nboxkrnl/io/io.cpp:97-115 | a refused check that changes them |
| InterruptTime.KeQueryInterruptTime | nboxkrnl/ke/kernel.cpp:55-70 | the loop returns only a time the clock really had during the call, and goes round only when the clock was being changed |
| InterruptTime.AgreeingLoads | nboxkrnl/ke/kernel.cpp:60-66 | three loads that agree on the upper word give the time at the middle load, whatever the writer did meanwhile |
| InterruptTime.DisagreeingLoads | nboxkrnl/ke/kernel.cpp:63-66 | loads that disagree have seen an update |
| InterruptTime.AddIsRight | nboxkrnl/hal/interrupt.cpp:477-480 | adding word by word is 64-bit addition, also when it wraps |
| InterruptTime.UpdatesAdd | nboxkrnl/hal/interrupt.cpp:477-483 | after its three stores an update has added the increment, and the copies of the upper word agree |
| InterruptTime.Monotone | nboxkrnl/hal/interrupt.cpp:477-483 | the clock never goes back |
| IntrusiveList.InitializeListHead | nboxkrnl/types.hpp:133-136 | the head represents the empty sequence |
| IntrusiveList.IsListEmpty | nboxkrnl/types.hpp:139-142 | true iff the sequence is empty |
| IntrusiveList.InsertTailList | nboxkrnl/types.hpp:145-154 | the entry comes before the given one; before the head is at the end |
| IntrusiveList.InsertHeadList | nboxkrnl/types.hpp:157-166 | the entry comes behind the given one |
| IntrusiveList.RemoveEntryList | nboxkrnl/types.hpp:170-180 | the rest stays a circle; the result says whether at most one entry is left |
| IntrusiveList.RemoveFromList | nboxkrnl/types.hpp:170-180 | on a list with a head, removal drops the entry from the sequence and the result says whether it is empty now |
| IntrusiveList.RemoveHeadList | nboxkrnl/types.hpp:191-196 | takes the first entry |
| IntrusiveList.RemoveTailList | nboxkrnl/types.hpp:183-188 | takes the last entry |
| IntrusiveList.LinksDetermineTheList | nboxkrnl/types.hpp:126-196 | the links represent one sequence only |

## Left out

Code:

- KeSetEvent and KeSetEventBoostPriority: the locks use an abstract auto-reset event, because the former takes the address of a link instead of its value (nboxkrnl/ke/event.cpp:165).
- KeSuspendThread, KeResumeThread and the suspend semaphore, whose APC is marked inserted before it is inserted (nboxkrnl/ke/thread.cpp:583-584).
- DPC queues: a DPC is a step of the environment, fired at most once per arming of a one-shot timer.
- KeSetSystemTime's reshuffle of the timer table and KiTimerExpiration, which is not written yet (nboxkrnl/ke/timer.cpp:357-361); so waits that a timer ends are a step of the environment.
- Kernel queues, waits for several objects, alerts and user APCs, which the source stops at.
- The file-system cache, IopCloseFile, IopDeleteFile and IopParseFile; wake timers of the executive; NtQueryTimer and ExpDeleteTimer.
- Context switching, trap frames, port I/O, the idle thread and NtYieldExecution. A thread gives up the processor only when another can run; KiSwapThread tests flags that its callee sets, and the model takes the intended test of the result.
- The memory manager: what it returns for a large block or a new page is a parameter, aligned, and apart from what it returned before; so is the size it keeps for a large block.
- The Inserted flag of device-queue entries, which a keyed insertion never sets (nboxkrnl/ke/device_queue.cpp:109-150), and the interrupt flag after an empty pop, which is not restored (nboxkrnl/ex/exinterlocked.cpp:243-246).

Abstractions:

- Lists inside the other modules are sequences of numbers; that the links represent such sequences, through every insertion and removal, is what `IntrusiveList` proves.
- Integer widths are modelled where they matter: the lock's counters, semaphore sums, byte counters of share access, the 16-bit list depth, 32-bit ticks, clock words. File-lock counts stay in range because there are at most MAXLONG requests. Times of the timer table do not overflow 64 bits.
- The methods of `SListHeader` run without interference; interference is in the transition system of the same module, which has the same steps.
- ExecutiveTimer.RundownTerminates: no timer with an APC routine is set on the terminating thread during its rundown, which only that thread could do.
- IrpStack.IRP.IofCallDriver: the device object that is stored in the location and the driver that is called are not modelled; the calls a driver makes are choices of the environment.
- IrpStack.IRP.ZeroIrpStackLocation: of what is cleared only the control flags are modelled; the minor function, flags, parameters and file object are not.
- IrpStack.UnwindingIsAStack: this and the other theorems over runs of a packet assume at most 125 locations, because with more the code leaves the stack or stops early, as `IrpStack.UnwindsToTheEndExactly` says; a negative StackCount is not modelled.
- ApcQueue.KThread.KiInsertQueueApc: the target is the running thread; waking a waiting one, a thread that is not running, and user APCs are not modelled.
- Dispatcher.Kernel.KiWaitSatisfyAny: events are not modelled, because the operation that sets them is left out.
- Dispatcher.Kernel.KiUnwaitThread: the unlinking and the status only; the thread's timer is part of the environment, and priority and quantum are those of `Scheduler.Prcb.KiUnwaitThread`.
- Dispatcher.Kernel.KeWaitForSingleObject: one round of the loop; a wait that a kernel APC interrupts ends and begins again, which is two operations, and a timeout is a step of the environment.
- ApcQueue.NoStrandedApc: routines return at the IRQL they were called at.
- ApcQueue.DeliveredInOrder: removal of an APC from the middle keeps the order of the others; an APC that is inserted again is a new insertion.
- IoControl.FileObject.OpenHandle: what ObReferenceObjectByHandle answers for the file and for the event belongs to the request; the object manager is not modelled.
- IoControl.ReturnsItsOwnStatus: the status the driver returns is the one it completes the packet with, when it does not pend.
- IoControl.WaitEndsExactly: the insertion of the completion APC succeeds, and the file was opened for synchronous I/O, the only case the source supports.
- DeviceQueue.DeviceObject.IopStartNextPacket: one step, which assumes that the caller is at DISPATCH_LEVEL; the source asserts only that the level is no higher (nboxkrnl/io/io.cpp:1239). The same holds of its keyed form.
- DeviceQueue.KeyedStaysSorted: a queue that mixes packets with and without keys is not sorted, because the latter keep whatever key their entry holds.
- Dispatcher.ObjectsStayExact: all objects exist at the start, semaphores within their limit and mutants free or owned by their creator; the adjustment of a semaphore is a 32-bit value.
- ShareAccess.CountersAreExact: no file object that is open is checked again, with an update or without; `ShareAccess.RecheckIsExact` says what happens if one is.
- InterruptTime.Monotone: the interrupt time stays below 2^64.
- Scheduler.Prcb.KiAddThreadToReadyList: Preempted, which chooses head or tail at a switch, is a parameter.
