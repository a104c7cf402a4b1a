# Models of the course collection's hard components

This project models the components of the collection that hold real state or rest on an
argument, and proves what they are for. Each is modelled in its own form: the two concurrent
programs as state machines with one step per lock, unlock and field write; the allocator, the
buffered file, the priority queue, the simulator, the thread queue and the mazes as classes and
arrays that are changed in place; the dynamic programs as loops over tables; the pure parts as
functions.

- **Lock-coupled tree database** (`CStrings`, `Database*`). Any number of threads query, add and
  remove in a binary search tree under hand-over-hand reader/writer locks. Every run is
  linearizable to a name-to-value map, free of faults, leaks and deadlock, and every operation
  ends, although a two-child delete writes a child pointer of a node that it has already unlocked.
- **Boundary-tag allocator** (`HeapLayout`, `FreeList`, `HeapSteps`, `Allocator`). The heap is an
  array of words; tags and list links live in it. Malloc, free and growing realloc refine a map of
  live payloads, and the heap checkers report nothing.
- **Two-level thread runtime** (`Uthreads`, `UthreadSafety`, `UthreadSteps`, `UthreadMoves`,
  `UthreadRuns`, `UthreadConds`, `UthreadProgress`, `UthreadDeeds`, `UthreadCalls`,
  `UthreadOwners`, `UthreadQueue`). User threads over any number of LWPs, with delayed enqueue and
  delayed unlock, hand-off mutexes and condition variables: every call that returns has done just
  what it is for, no wake-up is lost, a broadcast ends and wakes exactly those who waited, and the
  runtime stops just when every thread waits.
- **Buffered file** (`Io61`). The buffered interface against the unbuffered one.
- **Circuit simulator** (`TruthTables`, `Circuits`, `Transitions`, `Simulations`). Batched
  application and propagation over a priority queue with ties broken by age.
- **Edit distance** (`EditDistance`). Four storage layouts, a full-minimum table and a suffix
  recursion, all against the least cost over edit scripts.
- **Mazes** (`MazeRooms`, `MazeGenerator`, `MazeTree`, `MazeSolver`, `MazeFiles`). Randomised
  carving, encoding, decoding and depth-first search, and what they make of the maze file.
- **Peak finding** (`Peaks`). Divide and conquer for a peak of the whole matrix.

Randomness, the scheduler and `malloc` are arbitrary choices, and so are the client's calls up to
the discipline named under "Left out": what is proved holds for all of them.

Where code and documentation disagree, the model follows the code:

- `io61_write` says that it returns the number of characters written; when it flushes first, the
  count includes the flushed bytes. `io61_flush` of a write-only handle returns -1 when nothing
  was buffered.
- `getDimensions` says that it takes the shortest row; it takes the longest, so ragged matrices
  may be indexed out of range.
- `uthread_wake` has a yield for a woken thread of higher priority; preemption is masked by the
  line before, so it never happens.
- `TruthTable` says that a list whose length is not a power of two is a TypeError; it is a
  ValueError, and the empty list recurses without end.
- `dist6` says that it assumes equal lengths; it also needs at least one character.
- `utqueue_enqueue` says that it adds to the front of the queue; since it dequeues from the other
  end, the queue is first come, first served.

## Model

| member | source | states |
|---|---|---|
| CStrings.RankOrdersLikeStrcmp | systems/cs033/database/db.c:232-244 | comparing strings with strcmp, for smaller and for equal, is comparing their ranks, so names can be modelled as ranks |
| DatabaseRuns.Linearizable | systems/cs033/database/db.c:73-259 | in every run of any threads there is one log of effects, each the effect of an operation of the run, added by a step of that operation, in which every completed operation stands exactly once, between its call and its return, with the result that a plain name-to-value map gives; at every moment the tree holds the map that the log so far makes |
| DatabaseRuns.RunsNeverFault | systems/cs033/database/db.c:60-259 | no run dereferences a freed or null node, releases a lock that is not held, or destroys a node that is locked or awaited |
| DatabaseRuns.QuietTreeIsMap | systems/cs033/database/db.c:97-216 | when no operation is in progress, the reachable nodes hold exactly the bindings of the map that the operations produced |
| DatabaseRuns.CommitIsAtomic | systems/cs033/database/db.c:73-216 | one step of each operation is its effect: it changes the map as the sequential operation does and fixes the result; every other step leaves the map alone |
| DatabaseRuns.CallIsStable | systems/cs033/database/db.c:73-216 | an operation keeps its arguments and its recorded effect from call to return |
| DatabaseRuns.CallCommitsOnce | systems/cs033/database/db.c:73-216 | between its call and its return every operation takes effect exactly once |
| DatabaseRuns.Annotate | systems/cs033/database/db.c:73-259 | every run can be annotated with the abstract tree and the log of effects, with the invariant at each state; a step adds to the log exactly what its operation commits at that step |
| DatabaseRuns.InsertRepresents | systems/cs033/database/db.c:120-125 | linking a new leaf binds exactly one new name |
| DatabaseRuns.BypassRepresents | systems/cs033/database/db.c:158-173 | replacing a node by its only child removes exactly that node's name |
| DatabaseRuns.SpliceRepresents | systems/cs033/database/db.c:186-212 | a two-child delete removes exactly one name, although the node that goes is another one |
| DatabaseReshape.StepKeepsInv | systems/cs033/database/db.c:73-259 | every step of every thread keeps the invariant and none is a fault |
| DatabaseReshape.PnextIsUnheld | systems/cs033/database/db.c:186-207 | when *pnext is written, no other thread holds the node it is in |
| DatabaseReshape.SplicerExcludes | systems/cs033/database/db.c:186-212 | during the whole descent of a two-child delete no other thread relies on the deleted node, on the node looked at or on the one that *pnext is in, or holds a node that the descent has passed |
| DatabaseReshape.SpliceKeepsInv | systems/cs033/database/db.c:207-212 | the late write of *pnext keeps the tree and every other thread's position in it |
| DatabaseReshape.BypassKeepsInv | systems/cs033/database/db.c:158-178 | the one-child branches keep the invariant |
| DatabaseReshape.LinkKeepsInv | systems/cs033/database/db.c:120-127 | linking a new node keeps the invariant |
| DatabaseReshape.FreedIsUnreachable | systems/cs033/database/db.c:60-68 | a node passed to node_destructor is in no thread's hands, locked by nobody and awaited by nobody |
| DatabaseReshape.FreeKeepsInv | systems/cs033/database/db.c:60-68 | destroying a node keeps the invariant |
| DatabaseOrder.TreeIsOrdered | systems/cs033/database/db.c:218-259 | at every state of every run the names stored in reachable nodes are in search order: smaller through the left child, larger through the right one, or equal just when that node's name is the one that a two-child delete has copied and not yet unlinked |
| DatabaseOrder.StoredNamesDiffer | systems/cs033/database/db.c:202-212 | at every state of every run two reachable nodes store the same name just when one's name is being copied into the other |
| DatabaseOrder.StoredOrder | systems/cs033/database/db.c:202-212 | the stored names follow the tree's order, strictly except for the pair that is being copied |
| DatabaseProgress.TreeIsReachable | systems/cs033/database/db.c:218-259 | every node of the abstract tree is reached from the head by child pointers |
| DatabaseProgress.ReachableIsTree | systems/cs033/database/db.c:218-259 | only the nodes of the abstract tree are reached from the head |
| DatabaseProgress.LateWriteIsSafe | systems/cs033/database/db.c:186-212 | the node whose child pointer *pnext is was unlocked before, and still nobody else holds it, waits for it or can come to it |
| DatabaseProgress.NobodyWantsPassed | systems/cs033/database/db.c:190-207 | during the whole descent of a two-child delete nobody waits for a node that it has passed, or for the one that *pnext is in |
| DatabaseProgress.WantsChildOfHeld | systems/cs033/database/db.c:218-259 | a thread waits only for the head or for a child of a node that it holds |
| DatabaseProgress.WaitsGoDown | systems/cs033/database/db.c:218-259 | the holder of an awaited lock is deeper in the tree than the one who waits, so waits-for chains cannot close |
| DatabaseProgress.NoDeadlock | systems/cs033/database/db.c:73-259 | in every state in which an operation is in progress some thread can move |
| DatabaseCosts.StepsAreBounded | systems/cs033/database/db.c:73-259 | in every run an operation takes at most four steps of its own for each node that is allocated when it is called or linked by others while it is under way, and ten more: none goes on for ever unless others keep adding |
| DatabaseCosts.QuietHeapIsTree | systems/cs033/database/db.c:60-212 | in every run, whenever no operation is in progress, the nodes allocated are exactly those reached from the head, so nothing is leaked, and no lock is held |
| DatabaseCosts.ChildIsNearer | systems/cs033/database/db.c:218-259 | each node that a search goes on to has fewer names below it |
| DatabaseTree.InsertKeepsTree | systems/cs033/database/db.c:120-125 | a new leaf at an empty slot that the search led to keeps the search order |
| DatabaseTree.BypassKeepsTree | systems/cs033/database/db.c:158-178 | replacing a node by its only child keeps the search order |
| DatabaseTree.SpliceKeepsTree | systems/cs033/database/db.c:186-212 | moving the smallest name of the right subtree up and unlinking its node keeps the search order |
| DatabaseTree.EmptySlotMeansAbsent | systems/cs033/database/db.c:232-240 | an empty slot on the search path means that the name is nowhere in the tree |
| DatabaseTree.NamesDiffer | systems/cs033/database/db.c:244-250 | no two nodes of the abstract tree have the same name; for the names stored see DatabaseOrder.StoredNamesDiffer |
| DatabaseSteps.SearchKeepsInv | systems/cs033/database/db.c:218-259 | following a child pointer keeps the invariant and the way to the name |
| DatabaseSteps.LockKeepsInv | systems/cs033/database/db.c:242-248 | lock coupling keeps the invariant |
| DatabaseSteps.QueryKeepsInv | systems/cs033/database/db.c:86-92 | a query returns the value that the tree has for its name at that moment, even if a delete is replacing a key above it, and keeps the invariant |
| DatabaseSteps.OverwriteKeepsInv | systems/cs033/database/db.c:202-206 | overwriting the deleted node's name and value keeps every other thread's view |
| DatabaseSteps.SourceIsTrue | systems/cs033/database/db.c:202-207 | the node that is copied up stores its own name and value, and its name is the smallest above the deleted one |
| Allocator.Align | systems/cs033/malloc/mm.c:13-15 | the least multiple of the word size that is not below the argument |
| Allocator.LinksFitIffNineBytes | systems/cs033/malloc/mm.c:66-89 | a block for a request has room for the two links exactly when at least 9 bytes were asked for |
| Allocator.Heap.MmInit | systems/cs033/malloc/mm.c:32-53 | an initialised heap satisfies the invariant and has no live payload |
| Allocator.Heap.MmMalloc | systems/cs033/malloc/mm.c:66-89 | a new payload that is large enough and was not live; every live payload keeps every word; the heap grows, by just what the request needs, exactly when no listed block fits |
| Allocator.Heap.CheckFlist | systems/cs033/malloc/mm.c:94-138 | the first block of the list that fits is taken, cut in two exactly when the rest is at least a smallest block; null exactly when none fits, and then nothing changes |
| Allocator.Heap.TakeBlock | systems/cs033/malloc/mm.c:109-130 | taking a listed block makes it live and keeps the invariant; it is cut in two exactly when the rest is at least a smallest block, and the rest goes to the front of the list |
| Allocator.Heap.CutBlock | systems/cs033/malloc/mm.c:115-125 | the first part of the block becomes live with room for the request, the rest becomes the first free block |
| Allocator.Heap.MmFree | systems/cs033/malloc/mm.c:151-191 | exactly the payload freed goes; every other live payload keeps every word; no two free blocks are neighbours afterwards |
| Allocator.Heap.Join | systems/cs033/malloc/mm.c:166-187 | merging with a free neighbour takes it off the list and keeps tiling and links |
| Allocator.Heap.MmRealloc | systems/cs033/malloc/mm.c:206-246 | growing keeps the whole old payload and every other live one, even when the new block overlaps the old one |
| Allocator.Heap.MmCheckHeap | systems/cs033/malloc/mm.c:286-297 | on every heap whose blocks tile and whose links lead round a circle the checkers terminate, and report 0 exactly when every listed block is marked free and every block marked free is listed |
| Allocator.Heap.ValidPasses | systems/cs033/malloc/mm.c:280-297 | the heaps that the allocator makes pass both checks |
| Allocator.Heap.CheckFreeList | systems/cs033/malloc/mm.c:322-339 | the walk along the list comes back to its start, and reports 1 exactly when it meets a block marked allocated |
| Allocator.Heap.CheckFreeHeap | systems/cs033/malloc/mm.c:345-357 | the walk through the heap reaches the epilogue, and reports 1 exactly when it meets a block marked free that is not listed |
| Allocator.Heap.FindInList | systems/cs033/malloc/mm.c:362-373 | 0 exactly for the listed blocks |
| Allocator.Heap.MemSbrk | systems/cs033/malloc/memlib.c:63-73 | the break moves up by the increment and memory stays as it was |
| Allocator.Heap.BlockSetSize | systems/cs033/malloc/mminline.h:47-53 | both tags get the size and keep the flag |
| Allocator.Heap.BlockSetAllocated | systems/cs033/malloc/mminline.h:58-67 | both tags get the flag and keep the size |
| Allocator.Heap.BlockSetSizeAndAllocated | systems/cs033/malloc/mminline.h:69-73 | both tags say size and flag, and no other word changes |
| Allocator.Heap.PullFreeBlock | systems/cs033/malloc/mminline.h:141-151 | the block leaves the circular list, whose order is kept otherwise; no live payload changes |
| Allocator.Heap.InsertFreeBlock | systems/cs033/malloc/mminline.h:154-173 | the block becomes the first of the circular list; no live payload changes |
| Allocator.Heap.TagsSay | systems/cs033/malloc/mminline.h:19-96 | the tag accessors and block_next and block_prev agree with the block structure |
| Allocator.Heap.LinksSay | systems/cs033/malloc/mminline.h:115-132 | the link accessors give the neighbours in the list |
| Allocator.Heap.PayloadsAreApart | systems/cs033/malloc/mm.c:66-191 | live payloads lie between prologue and epilogue and share no word |
| Allocator.TagDecodes | systems/cs033/malloc/mminline.h:19-36 | size and flag are read back from a tag |
| HeapLayout.RetagKeepsTiling | systems/cs033/malloc/mminline.h:58-73 | changing a flag keeps the blocks tiling the heap from prologue to epilogue |
| HeapLayout.MergeKeepsTiling | systems/cs033/malloc/mm.c:166-187 | merging two neighbours keeps the tiling |
| HeapLayout.SplitKeepsTiling | systems/cs033/malloc/mm.c:115-125 | splitting a block keeps the tiling |
| HeapLayout.ExtendKeepsTiling | systems/cs033/malloc/mm.c:75-86 | turning the old epilogue into a block and writing a new one keeps the tiling |
| FreeList.UnlinkKeepsLinked | systems/cs033/malloc/mminline.h:141-151 | after unlinking, the links still form the circle of the remaining blocks |
| FreeList.LinkKeepsLinked | systems/cs033/malloc/mminline.h:154-173 | after linking, the links form the circle with the new block in front |
| HeapSteps.FreeTagStep | systems/cs033/malloc/mm.c:161-161 | clearing the flag makes exactly that payload dead |
| HeapSteps.UseTagStep | systems/cs033/malloc/mm.c:127-127 | setting the flag makes exactly that payload live |
| HeapSteps.MergeStep | systems/cs033/malloc/mm.c:166-187 | merging keeps list, tiling and live payloads |
| HeapSteps.SplitStep | systems/cs033/malloc/mm.c:115-125 | splitting makes the first part live and keeps all else |
| HeapSteps.ExtendStep | systems/cs033/malloc/mm.c:75-88 | extending the heap adds one live block and keeps all else |
| UthreadRuns.RunsAreSafe | systems/cs167/mthreads_stencil/uthread_sched.c:219-373 | the invariant holds at every state of every run of any number of threads and LWPs |
| UthreadRuns.RunsNeverFault | systems/cs167/mthreads_stencil/uthread_sched.c:97-347 | no run releases a POSIX mutex that its LWP does not hold, puts a thread on a queue that is on one, or on a run queue when it is not runnable, or takes one from an empty run queue |
| UthreadRuns.StepKeepsInv | systems/cs167/mthreads_stencil/uthread_sched.c:219-373 | every step of every LWP keeps the invariant |
| UthreadRuns.ExactlyOnePlace | systems/cs167/mthreads_stencil/uthread_sched.c:97-373 | a thread is in exactly one place: carried by one LWP, once on one run queue, once on one wait queue, or in one waker's hands |
| UthreadRuns.VisibleOnlyWhenOut | systems/cs167/mthreads_stencil/uthread_sched.c:219-347 | a thread on a queue, or in a waker's hands, has left its stack and is run by no LWP |
| UthreadRuns.MutualExclusion | systems/cs167/mthreads_stencil/uthread_mtx.c:46-144 | no two threads have the same mutex, and a mutex somebody has is not handed to another |
| UthreadRuns.OwnershipPassesInOrder | systems/cs167/mthreads_stencil/uthread_mtx.c:46-144 | if a step changes a mutex's owner, then the mutex was free and nobody waited, or its owner unlocked it and it went to the first waiter, or to nobody when none waited |
| UthreadDeeds.UnlockDecides | systems/cs167/mthreads_stencil/uthread_mtx.c:134-139 | the deciding step of an unlock always gives the mutex to the first waiter, or to nobody when none waits |
| UthreadDeeds.RunsDoDeeds | systems/cs167/mthreads_stencil/uthread_sched.c:97-373 | in every run each step does at most one deed (taking, refusing or passing on a mutex, taking a waiter off a condition, joining a queue, making a thread runnable, dispatching the first of the highest priority), each deed is what its name says, and nothing else of mutexes, waiters and run queues changes |
| UthreadCalls.CallsDoTheirWork | systems/cs167/mthreads_stencil/uthread_mtx.c:46-144 | in every run a call that has returned did exactly the deeds that it is for, in their order, in a bounded number of steps of its own, and its thread then has and owns the mutexes that it should |
| UthreadCalls.LockReturnsWithMutex | systems/cs167/mthreads_stencil/uthread_mtx.c:47-91 | a lock returns with the mutex in the caller's ownership |
| UthreadCalls.WaitReturnsWithMutex | systems/cs167/mthreads_stencil/uthread_cond.c:59-69 | a wait gives the mutex up, is queued on the condition, goes on when it has been taken off, and returns with the mutex in the caller's ownership |
| UthreadCalls.TryLockAnswers | systems/cs167/mthreads_stencil/uthread_mtx.c:101-117 | a trylock takes the mutex just when it finds no owner, and changes nothing otherwise |
| UthreadCalls.UnlockPassesOn | systems/cs167/mthreads_stencil/uthread_mtx.c:128-144 | an unlock makes the first waiter the owner and runnable, or frees the mutex when nobody waits |
| UthreadCalls.SignalWakesOne | systems/cs167/mthreads_stencil/uthread_cond.c:105-121 | a signal takes the first waiter off and makes it runnable, and takes nobody else; none when none waits |
| UthreadCalls.YieldGoesBehind | systems/cs167/mthreads_stencil/uthread_sched.c:51-256 | a yield puts the caller behind all others of its priority; it goes on when it is the first of the highest priority that is runnable |
| UthreadCalls.DeedDone | systems/cs167/mthreads_stencil/uthread_sched.c:97-373 | every deed in a call's log was done at a step of the run, in the order of the log |
| UthreadOwners.OwnersAreKnown | systems/cs167/mthreads_stencil/uthread_mtx.c:46-144 | in every run whoever owns a mutex has it, was handed it while it was away, or is inside the call that takes or gives it, so nobody owns a mutex that it has given up |
| UthreadRuns.HandedInArrivalOrder | systems/cs167/mthreads_stencil/uthread_mtx.c:83-141 | those who were handed a mutex, followed by those waiting, are those who queued for it, in the order in which they queued |
| UthreadRuns.WaitersChange | systems/cs167/mthreads_stencil/uthread_mtx.c:127-144 | a wait queue grows only at its end, by an LWP that has put its thread away, and shrinks only at its front, by an unlock |
| UthreadRuns.SleeperHoldsCond | systems/cs167/mthreads_stencil/uthread_cond.c:59-69 | from giving up the mutex to being queued, the waiting thread's LWP holds the condition's POSIX mutex |
| UthreadConds.WaiterIsFound | systems/cs167/mthreads_stencil/uthread_cond.c:44-121 | in every run, a thread that had given up the mutex in a wait is, when a later signal or broadcast looks at the queue, on it, or has been on it and was taken off by another signal or broadcast |
| UthreadRuns.NoWakeupIsLost | systems/cs167/mthreads_stencil/uthread_cond.c:44-121 | when a signal or broadcast looks at the queue, no thread is between giving up the mutex and being queued |
| UthreadConds.CondMoves | systems/cs167/mthreads_stencil/uthread_cond.c:61-121 | a condition's queue grows only at its end, by an LWP that has put its thread away, and shrinks only at its front, by a signal or a broadcast |
| UthreadRuns.SleeperIsQueued | systems/cs167/mthreads_stencil/uthread_cond.c:61-65 | a thread that has begun to wait goes on until it is on the queue |
| UthreadRuns.HolderKeepsOthersOut | systems/cs167/mthreads_stencil/uthread_cond.c:79-94 | while a thread has the mutex and nobody is on the way to the condition's queue, nobody gets on the way |
| UthreadRuns.BroadcastWakesThoseWaiting | systems/cs167/mthreads_stencil/uthread_cond.c:79-94 | as long as the broadcaster has the mutex nobody joins the queue: it is a suffix of the queue that the broadcast first saw |
| UthreadConds.BroadcastWakesExactly | systems/cs167/mthreads_stencil/uthread_cond.c:79-94 | when a broadcast by a thread that has the mutex is past its loop, exactly the threads that waited at its first look at the queue have been taken off, in their order, and each has been woken, or is in the hands of another thread that took it |
| UthreadConds.BroadcastEnds | systems/cs167/mthreads_stencil/uthread_cond.c:86-91 | such a broadcast takes at most as many threads as waited at first, and makes at most six steps for each and one more |
| UthreadConds.BroadcastGoesOn | systems/cs167/mthreads_stencil/uthread_cond.c:86-91 | at every moment of its loop those taken off, followed by those still waiting, are those who waited at first |
| UthreadConds.TakenIsWoken | systems/cs167/mthreads_stencil/uthread_cond.c:86-121 | in every run, a thread taken off a condition's queue is in the taker's hands until the taker makes it runnable |
| UthreadProgress.ParkAssertionFails | systems/cs167/mthreads_stencil/uthread_sched.c:464-486 | in every run, the assertion that not all LWPs park fails exactly when an LWP looks for work while every thread is on a wait queue |
| UthreadProgress.LockingTwiceParksAll | systems/cs167/mthreads_stencil/uthread_sched.c:464-486 | a run in which that assertion fails: a thread locks a mutex that it has |
| UthreadProgress.CountsHold | systems/cs167/mthreads_stencil/uthread_sched.c:464-486 | in every run lwp_cnt and lwp_parked_cnt count the LWPs that have entered lwp_switch and those that are parked |
| UthreadProgress.SomeLwpMoves | systems/cs167/mthreads_stencil/uthread_sched.c:219-373 | in every run, as long as some thread is not on a wait queue, some LWP can make a step |
| UthreadProgress.LocksGoUp | systems/cs167/mthreads_stencil/uthread_sched.c:219-347 | POSIX mutexes are locked in one order: a condition's or a thread's own, then a mutex's, then that of the run queue |
| UthreadRuns.WakeIsEffective | systems/cs167/mthreads_stencil/uthread_sched.c:97-124 | the thread that a waker has taken is in the wait state, so the wake-up makes it runnable |
| UthreadMoves.PutOnWaitKeepsInv | systems/cs167/mthreads_stencil/uthread_sched.c:318-330 | the delayed enqueue on a wait queue keeps the invariant |
| UthreadMoves.PutOnRunqKeepsInv | systems/cs167/mthreads_stencil/uthread_sched.c:333-337 | the delayed enqueue on a run queue keeps the invariant, and runq_size stays the total length |
| UthreadMoves.TakeWaiterKeepsInv | systems/cs167/mthreads_stencil/uthread_mtx.c:138-141 | taking the first waiter off, as the mutex's new owner or off a condition, keeps the invariant |
| UthreadMoves.MakeRunnableKeepsInv | systems/cs167/mthreads_stencil/uthread_sched.c:108-111 | making a woken thread runnable keeps the invariant |
| UthreadMoves.DispatchKeepsInv | systems/cs167/mthreads_stencil/uthread_sched.c:350-366 | taking up a thread of the highest priority keeps the invariant |
| UthreadSafety.LockIsExclusive | systems/cs167/mthreads_stencil/uthread_mtx.c:70-74 | a POSIX mutex that the code at two places has locked is locked by one LWP |
| UthreadSteps.SwitchKeepsInv | systems/cs167/mthreads_stencil/uthread_sched.c:219-256 | leaving the stack with run queue locked keeps the invariant |
| UthreadSteps.WaitTakeKeepsInv | systems/cs167/mthreads_stencil/uthread_cond.c:61-62 | the lock at the start of a wait, from which the mutex counts as given up, keeps the invariant |
| UthreadSteps.TestKeepsInv | systems/cs167/mthreads_stencil/uthread_mtx.c:72-136 | testing and setting the owner keeps the invariant |
| UthreadSteps.UnlockingKeepsInv | systems/cs167/mthreads_stencil/uthread_mtx.c:74-140 | every unlock is of a mutex that the LWP holds |
| Uthreads.Highest | systems/cs167/mthreads_stencil/uthread_sched.c:353-359 | the highest priority whose queue is not empty, if there is one |
| UthreadQueue.ListInsertBefore | systems/cs167/mthreads_stencil/list.h:75-83 | the links form the ring with the new one in its place |
| UthreadQueue.ListRemove | systems/cs167/mthreads_stencil/list.h:91-99 | the links form the ring without the removed one, whose links are null |
| UthreadQueue.UtQueue.Enqueue | systems/cs167/mthreads_stencil/uthread_queue.c:51-58 | the thread is added behind all others, and the counter follows |
| UthreadQueue.UtQueue.Dequeue | systems/cs167/mthreads_stencil/uthread_queue.c:66-86 | the thread that has waited longest comes out; null exactly when there is none |
| UthreadQueue.UtQueue.Remove | systems/cs167/mthreads_stencil/uthread_queue.c:94-101 | exactly that thread goes and the others keep their order |
| UthreadQueue.UtQueue.Empty | systems/cs167/mthreads_stencil/uthread_queue.c:36-43 | the counter is zero exactly when the list is empty |
| Io61.ReadsAgree | systems/cs033/cache61/io61.c:319-497 | every sequence of reads and seeks gets the answers of the unbuffered version, which are those of read(2) and lseek(2) |
| Io61.WritesAgree | systems/cs033/cache61/io61.c:405-497 | every sequence of non-empty writes and seeks, as far as the dirty table has room, followed by a flush, leaves the file that the unbuffered version and write(2) leave; the returned counts are not compared |
| Io61.ReadFile.Read | systems/cs033/cache61/io61.c:319-371 | the bytes and the count of one read(2) at the logical offset; what the buffer holds is read without a system call, and it goes on mirroring the file just before the descriptor's offset |
| Io61.ReadFile.Seek | systems/cs033/cache61/io61.c:459-479 | the logical offset is the one asked for, inside and outside the buffer |
| Io61.ShortRead | systems/cs033/cache61/io61.c:345-352 | a read that meets the end of the file gives what is left and leaves nothing buffered |
| Io61.LongRead | systems/cs033/cache61/io61.c:353-362 | a read beyond the request gives it in full, and the rest is what the buffer must hold |
| Io61.WriteFile.BinaryInsert | systems/cs033/cache61/io61.c:144-197 | it terminates, and the table covers exactly the bytes covered before and the new range |
| Io61.WriteFile.BinInsertHelper | systems/cs033/cache61/io61.c:101-132 | the entry is put at the index and the entries behind it move up by one |
| Io61.WriteFile.FlushWbuf | systems/cs033/cache61/io61.c:209-230 | the file becomes the intended one, the table empty, and the sum of the entries is returned |
| Io61.WriteFile.Write | systems/cs033/cache61/io61.c:405-430 | the intended file changes as by one write(2); the returned count exceeds the request by what was flushed; what fits into the buffer is written without a system call |
| Io61.WriteFile.Seek | systems/cs033/cache61/io61.c:459-491 | the logical offset moves and the intended file stays |
| Io61.WriteFile.Flush | systems/cs033/cache61/io61.c:438-452 | the file becomes the intended one; -1 exactly when nothing was buffered |
| Io61.BufferedWrite | systems/cs033/cache61/io61.c:408-412 | copying into the buffer and recording the range is writing to the intended file |
| Io61.FlushOne | systems/cs033/cache61/io61.c:215-225 | writing one dirty interval out leaves the intended file as it was, overlaps included |
| Io61.Grown | systems/cs033/cache61/io61.c:159-186 | growing an entry by a range adds exactly the range |
| Io61.PlacedCovers | systems/cs033/cache61/io61.c:101-132 | making room for an entry keeps what the others cover |
| Io61.NothingDirty | systems/cs033/cache61/io61.c:209-230 | with an empty table the file is the intended one, and only then |
| Io61.SlowFile.Read | systems/cs033/cache61/slow-io61.c:64-77 | reading byte by byte gives what one read(2) would |
| Io61.SlowFile.Write | systems/cs033/cache61/slow-io61.c:99-110 | writing byte by byte makes the file that one write(2) would |
| Io61.SlowFile.Seek | systems/cs033/cache61/slow-io61.c:128-134 | the offset is the one asked for |
| Io61.WriteOne | systems/cs033/cache61/slow-io61.c:102-104 | a write of one more byte behind a write is the longer write |
| TruthTables.BuildAccepts | algos/006/2/circuit/circuit.py:42-58 | exactly the lists of bits whose length is a positive power of two are accepted; a wrong length is a ValueError, a wrong entry of a list of right length a TypeError, and the empty list does not end |
| TruthTables.EntriesOfBuild | algos/006/2/circuit/circuit.py:42-58 | a built table holds exactly the list, in its order |
| TruthTables.WalkIsEntry | algos/006/2/circuit/circuit.py:33-40 | following the inputs through a full table gives the entry at the number that they spell, first input most significant |
| TruthTables.BuildIsFull | algos/006/2/circuit/circuit.py:42-66 | a built table is equally deep everywhere, and its depth is the binary logarithm of the list's length |
| TruthTables.BuildIsInCounterOrder | algos/006/2/circuit/circuit.py:18-40 | following the inputs through the built table gives the entry at the number that they spell, first input most significant |
| TruthTables.TableDepth | algos/006/2/circuit/circuit.py:60-66 | the number of inputs |
| TruthTables.Output | algos/006/2/circuit/circuit.py:33-40 | the entry at the number that the inputs spell, or ValueError when their number is wrong |
| Circuits.MakeType | algos/006/2/circuit/circuit.py:71-88 | a type is made exactly from an acceptable list and a delay that is not negative, holds that list, and has the input count that the list's length implies |
| Circuits.Circuit.AddGateType | algos/006/2/circuit/circuit.py:214-231 | a new name is bound to the type; a used one or a bad list is an error that changes nothing |
| Circuits.Circuit.AddGate | algos/006/2/circuit/circuit.py:233-252 | a gate with output 0 connected to the named gates; each error, and what it leaves behind |
| Circuits.Circuit.ConnectInput | algos/006/2/circuit/circuit.py:122-133 | inputs and outputs list the connection once each, and inputs come from gates that exist |
| Transitions.PriorityQueue.Append | algos/006/2/circuit/circuit.py:354-359 | the element is added at the end and the remembered minimum forgotten |
| Transitions.PriorityQueue.Min | algos/006/2/circuit/circuit.py:361-366 | the least element by time and then by id |
| Transitions.PriorityQueue.Pop | algos/006/2/circuit/circuit.py:368-379 | the least element comes out and the others stay |
| Transitions.PriorityQueue.FindMin | algos/006/2/circuit/circuit.py:381-393 | the remembered index is that of the least element |
| Simulations.Simulation.Run | algos/006/2/circuit/circuit.py:456-463 | it terminates; a gate without inputs shows the value of its latest input transition; every gate with an input that ever changed, or right at the start, shows the entry of its type's list at the number that its final inputs spell; transitions take effect in the order of their times |
| Simulations.Logic | algos/006/2/circuit/circuit.py:163-170 | what a gate's table says of its inputs is the entry of its list at the number that they spell |
| Simulations.Simulation.Schedule | algos/006/2/circuit/circuit.py:458-460 | every input transition is queued, in the order of time, name and value, so that a gate without inputs is headed for the value of its latest one; the invariant holds |
| Simulations.SortedIs | algos/006/2/circuit/circuit.py:458-458 | the input transitions are put in order of time, name and value, none lost |
| Simulations.Simulation.Step | algos/006/2/circuit/circuit.py:423-454 | exactly the transitions of the least time are drained, in order, and take effect, then the gates they drive react; time does not go back, also with zero delays; the load, which bounds what can still happen, goes down |
| Simulations.Simulation.ApplyDue | algos/006/2/circuit/circuit.py:433-445 | all transitions of one time, oldest first, take effect one after the other where they change an output, before anything is propagated; none of that time is left and the others stay |
| Simulations.Simulation.Propagate | algos/006/2/circuit/circuit.py:447-452 | for each gate that an applied transition drives, in turn, one transition to the entry of its list for its inputs is appended, its delay later; nothing else |
| Simulations.InputsDetermineOutputs | algos/006/2/circuit/circuit.py:163-170 | when all connected gates show their table's answer, the gates without inputs determine every output |
| Simulations.PopKeepsSettles | algos/006/2/circuit/circuit.py:368-379 | what a gate will finally show is not changed by taking the least transition |
| Simulations.PropagateStep | algos/006/2/circuit/circuit.py:448-452 | a transition appended now is the latest of its gate, so it decides what the gate will show |
| Simulations.Unaffected | algos/006/2/circuit/circuit.py:448-452 | a gate that no transition drives sees the inputs it saw before |
| Simulations.LoadWithout | algos/006/2/circuit/circuit.py:437-438 | taking a transition lowers the load by its gate's weight |
| Simulations.LoadAppend | algos/006/2/circuit/circuit.py:452-452 | appending a transition raises the load by its gate's weight |
| Simulations.OutsAreInputs | algos/006/2/circuit/circuit.py:132-133 | a gate drives exactly those it is an input of, and they come later |
| EditDistance.Dist0 | algos/157/prgms/hw3-p4/EditDistance.java:32-60 | the full table gives the cost of the cheapest edit script, for strings of any lengths |
| EditDistance.Dist1 | algos/157/prgms/hw3-p4/EditDistance.java:65-100 | two rows give the cost of the cheapest edit script |
| EditDistance.Dist3 | algos/157/prgms/hw3-p4/EditDistance.java:105-129 | one array indexed by diagonal gives the cost of the cheapest edit script |
| EditDistance.Dist6 | algos/157/prgms/hw3-p4/EditDistance.java:134-184 | three anti-diagonals give the cost of the cheapest edit script |
| EditDistance.EditDynamic | algos/i/b/dp/editdistance.py:30-57 | the full minimum in every cell gives the cost of the cheapest edit script |
| EditDistance.RecursiveIsDistance | algos/i/b/dp/editdistance.py:14-23 | the suffix recursion gives the cost of the cheapest edit script |
| EditDistance.TablesHoldDistances | algos/157/prgms/hw3-p4/EditDistance.java:49-57 | every cell is the cost of the cheapest script between two prefixes, whether the diagonal is taken on a match or not |
| EditDistance.AllAgree | algos/i/b/dp/editdistance.py:14-57 | the greedy table, the full-minimum table and the suffix recursion end with the same number |
| EditDistance.GreedyIsMinimal | algos/157/prgms/hw3-p4/EditDistance.java:51-55 | taking the diagonal on a match loses nothing |
| EditDistance.CellsAreClose | algos/157/prgms/hw3-p4/EditDistance.java:49-57 | neighbouring cells differ by at most one |
| EditDistance.CostAtLeastRecursive | algos/i/b/dp/editdistance.py:14-23 | no script between the suffixes is cheaper |
| EditDistance.CostAtLeastCell | algos/i/b/dp/editdistance.py:53-55 | no script between the prefixes is cheaper |
| EditDistance.TurnsFromBack | algos/i/b/dp/editdistance.py:7-11 | what a script does can be read from its last edit |
| EditDistance.RowStep | algos/157/prgms/hw3-p4/EditDistance.java:119-124 | in the diagonal-indexed array, a new cell is made of its three neighbours and replaces the one that is not needed any more |
| EditDistance.DiagonalStep | algos/157/prgms/hw3-p4/EditDistance.java:153-175 | a cell of an anti-diagonal is made of cells of the two before |
| MazeRooms.NeighborByIndex | systems/cs033/maze/common.c:60-97 | where the bounds check passes, index arithmetic finds the room next door, and the check passes exactly where there is one |
| MazeGenerator.ShuffleArray | systems/cs033/maze/generator.c:39-49 | each direction in turn is swapped with the one at the place that a random number gives |
| MazeGenerator.ShuffleKeeps | systems/cs033/maze/generator.c:39-49 | whatever the random numbers, the directions are permuted |
| MazeGenerator.AnyOrderComesOut | systems/cs033/maze/generator.c:39-49 | for every order of the directions there are random numbers that give it |
| MazeGenerator.DrunkenWalk | systems/cs033/maze/generator.c:66-102 | it terminates, keeps the tree being carved, finishes every room it enters and leaves the sides of rooms visited before alone |
| MazeGenerator.DoSide | systems/cs033/maze/generator.c:79-101 | one side is done and the sides of other visited rooms stay |
| MazeGenerator.Side | systems/cs033/maze/generator.c:82-98 | a wall, or a side copied from the room next door, keeps agreement and tree |
| MazeGenerator.OpenUp | systems/cs033/maze/generator.c:87-89 | opening the side to an unvisited room makes it a child |
| MazeTree.Generate | systems/cs033/maze/generator.c:66-179 | for every size and all random numbers: every room visited, no side uninitialised, outer sides walled, neighbours agree, open sides a spanning tree |
| MazeTree.ZeroMaze | systems/cs033/maze/common.c:158-176 | every room is reset |
| MazeTree.Covers | systems/cs033/maze/generator.c:66-102 | the walk reaches every room of the grid |
| MazeTree.AllConnected | systems/cs033/maze/generator.c:66-102 | there is a way between any two rooms of a spanning tree |
| MazeTree.NoCycles | systems/cs033/maze/generator.c:66-102 | the open sides form no cycle |
| MazeSolver.EncodeRoom | systems/cs033/maze/generator.c:113-116 | the digit has bit 1, 2, 4 and 8 exactly for a wall in the north, south, west and east |
| MazeSolver.ShowsDocumented | systems/cs033/maze/solver.c:19-22 | 0xb is the digit of exactly the rooms with walls on all sides but the west |
| MazeSolver.DecodeRestores | systems/cs033/maze/generator.c:113-116 | a digit stands for one combination of sides and a combination has one digit, so decoding restores what was encoded |
| MazeSolver.CreateRoomConnections | systems/cs033/maze/solver.c:39-50 | the room gets a wall in the north, south, west and east exactly for the bits 1, 2, 4 and 8, and open sides otherwise; nothing else of it changes |
| MazeSolver.EncodeMaze | systems/cs033/maze/generator.c:131-137 | every room's place gets a digit with the bits of its walls |
| MazeSolver.ReadMaze | systems/cs033/maze/solver.c:157-179 | every room gets the sides of its digit's bits, its place, and no mark or link |
| MazeSolver.Dfs | systems/cs033/maze/solver.c:74-105 | it terminates; on success the links from the room are an open path to the goal, on failure the rooms marked are closed under open sides and the goal is not among them |
| MazeSolver.FoundIffReachable | systems/cs033/maze/solver.c:74-105 | from an unmarked maze with walled borders, true exactly when the goal can be reached through open sides |
| MazeSolver.TraverseIsPath | systems/cs033/maze/common.c:188-195 | following the links from the start is finite and visits the path that was found |
| MazeSolver.GenerateAndSolve | systems/cs033/maze/solver.c:123-198 | a generated maze, encoded and decoded, is solved between any two of its rooms |
| MazeFiles.WriteMaze | systems/cs033/maze/generator.c:113-179 | by the digits alone: whatever the random numbers, the file has walls all round, rooms side by side agree, there is a way between any two rooms along clear bits, and no way round |
| MazeFiles.SolveMaze | systems/cs033/maze/solver.c:74-198 | by the digits alone: for every file with walls all round a path is found exactly when clear bits leave a way from start to goal, and the path found is such a way |
| MazeFiles.CompleteDigits | systems/cs033/maze/generator.c:113-137 | the digits of a complete maze are walled all round and agree between neighbours |
| Peaks.FindPeaks | algos/006/1/algorithms.py:8-170 | on every rectangular matrix algorithm1 and algorithm4 return a peak of the whole matrix, and none exactly when it is empty |
| Peaks.Algorithm1 | algos/006/1/algorithms.py:8-46 | a peak of the whole, not only of the last strip |
| Peaks.Algorithm4 | algos/006/1/algorithms.py:112-170 | a peak of the whole, with the best seen so far carried along |
| Peaks.Algorithm2 | algos/006/1/algorithms.py:48-61 | climbing terminates on a peak that is at least as high as the start |
| Peaks.CrossProduct | algos/006/1/algorithms.py:178-192 | exactly the pairs with one item of each list |
| Peaks.GetMaximum | algos/006/1/peak.py:68-83 | a place of the list that none exceeds, none exactly for the empty list |
| Peaks.GetBetterNeighbor | algos/006/1/peak.py:44-66 | the place itself or a higher neighbour inside |
| Peaks.PeakHasNoBetterNeighbor | algos/006/1/peak.py:85-92 | a place is a peak exactly when there is no better neighbour |
| Peaks.GetSubproblemContaining | algos/006/1/peak.py:106-122 | a part that contains the place, the problem itself exactly when none does |
| Peaks.ChosenHalf | algos/006/1/peak.py:106-122 | a place higher than the divider lies in one half, so the fallback is not reached |
| Peaks.SubStrip | algos/006/1/algorithms.py:31-46 | the half chosen still has a place on each inner border higher than the whole divider beyond it |
| Peaks.SubSeen | algos/006/1/algorithms.py:153-170 | the best seen lies in the half chosen and is higher than everything around it |
| Peaks.PeakOfPart | algos/006/1/peak.py:124-135 | a peak of a part is a peak of the whole when nothing beside it outside the part is higher |
| Peaks.GetDimensions | algos/006/1/peak.py:141-159 | the number of rows and the length of the longest row |

## Left out

- Allocator.Heap.MmMalloc: requires at least 9 bytes, because smaller blocks have no room for the two links, as LinksFitIffNineBytes says; and requires that mem_sbrk succeeds.
- Allocator.Heap.MmRealloc: only null, zero and growing sizes; not the shortcut for a size that is the block size plus the tags, and not the two shrinking branches.
- Io61.WriteFile.Write: requires room in the dirty table, which a handle with fewer than 32768 writes since its last flush has, and a non-empty write at the start of the buffer; an empty write there can make an entry that a flush takes for the end of the table.
- Io61.ReadFile.Read: assumes a fixed regular file, whose reads are short only at its end.
- Simulations.Simulation.Run: input transitions are of gates without inputs and set 0 or 1; gates have all their inputs connected or none, and none names itself.
- Circuits.MakeType: the registry of truth-table names is merged with that of gate types.
- DatabaseRuns.Linearizable: names are ranks of strings, which order them as strcmp does; failing malloc and names longer than the 255 characters of a node are not modelled.
- UthreadRuns.RunsAreSafe: switching contexts is one step; clock interrupts and the preemption count are not modelled. The client unlocks, and waits with, only a mutex that it has, and always uses the same mutex with a condition; all threads exist from the start (no uthread_create).
- Values wider than the machine's integers: sizes, offsets and times are unbounded.
- uthread_setprio, join, detach, exit and the reaper; the condition variable on which LWPs park: a parked LWP goes on when runq_mtx is free and a thread is runnable.
- io61 handles are taken as zero-initialised, although io61_fdopen leaves what malloc returned.
- io61_readc, io61_writec and linear_insert, which keep other bookkeeping in the same fields.
- Probes of the simulator and their final sort, and its output as JSON.
- What dfs and traverse print, and reading and writing the maze file.
- algorithm3, which does not return a peak of the whole matrix in general.
- The parser, the server and the printing of the database.
- The printing of the heap checker, the test driver and timing of the allocator.
- Mazes are two-dimensional arrays; that index arithmetic agrees with them is MazeRooms.NeighborByIndex.
- The run queue, the wait queues and their links in the runtime's state machine are sequences; that the intrusive list behaves as one is UthreadQueue.
