# Verified model of the OS scheduler simulator

The simulator has a process generator that admits processes as a buddy allocator finds memory for them,
and a scheduler (round robin, highest priority first, shortest remaining time next) that shares a clock
with the simulated processes and exchanges messages and signals with them. This project models both, in
the form the C code has (linked blocks, a linked ring, a heap in an array, global variables updated by a
main loop and by signal handlers), and proves what they keep in every reachable state and over every run.

`dafny verify dfyconfig.toml` checks everything.

## How the files fit together

- **Memory.** `BuddyMemory` holds the linked block list; its methods are proved against the functions of
  `BuddyOperations`, whose invariant and reference layout are in `BuddyLayout` (arithmetic in `Dyadic`).
  `HashMap` is the probing table and `MemoryManager` ties blocks to pids; `BlockBooks` says on values who
  owns which block and which blocks have leaked. `AdmissionModel` is the admission loop, `AdmissionRuns`
  whole runs of the generator with forks and exits, `Leaks` what leaked blocks do to them, and `Arrivals`
  when the entries of the list are taken, all as values. `ProcessGenerator` performs them on the
  objects, up to the whole loop (`CreateProcesses`).
- **Scheduling.** `PriorityQueue` and `CircularQueue` are the two queues, `ReadyQueue` the interface over
  them, `Scheduler` the global variables with the loop body and the handlers. Each method is proved to
  perform a function of `SchedulerModel`. `UserProcess` is the other end of the signals. `World` puts
  scheduler, processes, clock and message queue together; `WorldInvariant` and `WorldRuns` prove that
  every step keeps every invariant. About all runs, `Decisions` says whom a pass receives, stops and
  dispatches, `Lives` what each process goes through, and `Phases` in which order the log reports it;
  `RunResults`, `Fairness`, `FairRuns`, `Waits`, `Quiescence`, `Deficits`, `SrtnOptimal`, `Termination`
  and `LoopEnd` draw the other conclusions.

## Assumptions about the environment

- Signals are delivered only between passes of the main loop, in its sleep (src/scheduler.c:100), never
  inside a queue or allocator operation. Clock reads within one pass agree. Messages and the announcement
  of the end may arrive at any time, also within a pass after it has read the message queue
  (src/scheduler.c:83-98).
- The clock advances one unit at a time, and the loop makes at least one pass between two ticks
  (`WorldRuns.Legal`). The optimality of SRTN and the exact count of ticks also assume a loop at rest at
  each tick (`Quiescence.QuietTicks`); two passes suffice for that, and one more for each invalid message.
- The quantum is at least 1. A message is sent no earlier than its arrival time, and no PCB follows the
  announcement that no more will come. Pids of live processes are distinct, so that a signal reaches
  the process it is meant for.
- `fork` returns no pid of a process that has not exited; exits do not interleave with an allocation. It
  is not assumed that the pid map takes every pid.
- Memory requests are at least 1, since `log2(0)` and the conversion of its result have no meaning, and a
  block of requested size 0 would count as free.
- A process that exits owns a block or has a pid that is not in the map. Otherwise its pid was used before
  and its own block was refused, which takes a full map (`HashMap.Table.KnownIsTaken`); the code then
  frees the stale block, whose node may no longer exist.

## What the code turned out to do

- `hashmap_put` returns 1 for a new key and 0 for an update, while its comment (src/DS/hash_map.h:45)
  promises 0 on success. Its caller (src/memory_manager.c:45) takes only 1 for success: a pid that is
  seen again gets its block recorded, but this is reported as a failure. `AssignMemoryBlock` states both.
- With 100 buckets quadratic probing visits only ten places (`HashMap.PeriodOfHundred`), so an insertion
  can fail while ninety buckets are free; and nothing is ever removed, so after 100 insertions every
  one fails. `HashMap.TakesIff` gives the condition, and `HashMap.CollidingPids` eleven small pids of which
  a table of 100 takes only ten. The process is forked all the same, and nothing can free its block. Pids
  less than 29 apart, on the other hand, have different home buckets (`HashMap.NeighboursTaken`).
- So memory may not be whole again when all processes have exited, and runs can deadlock. When, is said
  exactly by `AdmissionRuns.WholeIff` and `Leaks.AdmitsNobodyIff`; `Leaks.LeakyRun` and
  `Leaks.DeadlockedRun` are runs in which eleven processes, one at a time, are enough.
- The list of processes moves on only when the clock is read at exactly the next arrival time
  (src/process_generator.c:179): an unsorted or a missed arrival blocks it for good (`Arrivals`).
- The assignment of the clamped remaining time (src/scheduler.c:198) never changes it.
- The main loop can end with a valid message unread, in two ways: an invalid message ends the reading
  (src/scheduler.c:155) and hides those behind it, or the last message and the announcement both arrive
  after the queue was read and before the announcement is looked for (src/scheduler.c:83-98).
  `LoopEnd.StrandedIff` gives the exact condition, `LoopEnd.StrandedRun` and `LoopEnd.LateRun` are runs.
- The ring's comment says that an object is added at the end; in fact it enters at a seam fixed by the
  tail, which rotation does not move, so round robin is not first come, first served among newcomers.
  Bounded bypass holds nevertheless.
- The heap is not first come, first served among equals either. But the one in front stays there against
  an equal newcomer, so SRTN never preempts on a tie (`HeapSpec.EnqueueFront`, `Decisions.PassStopsIff`).
- The TA and WTA figures in tests.md do not follow from src/file_handlers.c:133; the code is followed.
- The branch "NO OLDEST FIT MEMORY" (src/process_generator.c:174) is unreachable, and so is a set
  `processed` flag in the condition of src/process_generator.c:179.

## Model

| member | source | states |
|---|---|---|
| `BuddyLayout.LayoutDeterminedByLive` | src/buddy_memory.c:84-169 | every valid block list equals the reference layout computed from its set of live (start, size, requested) triples alone |
| `BuddyLayout.ServableIffHole` | src/buddy_memory.c:32-48 | a request for n >= 1 units can be served iff some aligned interval of 2^ceil(log2 n) units inside memory touches no live block |
| `BuddyOperations.BestFit` | src/buddy_memory.c:32-48 | the scan finds a block iff a free one of sufficient size exists, and then the smallest, leftmost among equals |
| `BuddyOperations.AllocateKeeps` | src/buddy_memory.c:84-104 | a successful allocation keeps tiling, alignment and full coalescing, keeps the chosen block's place and start (splits keep the left half), and adds exactly one live block, of size 2^ceil(log2 n) |
| `BuddyOperations.GrantIsTight` | src/buddy_memory.c:94-101 | the granted size is at least the request and less than twice it |
| `BuddyOperations.NeighbourIsBuddy` | src/buddy_memory.c:113-149 | in a tiling, the list neighbour on the side chosen by start ^ size, when it has the same size, starts at start ^ size; and any block with that start and size is that neighbour |
| `BuddyOperations.MergeKeeps` | src/buddy_memory.c:111-151 | the recursive merge restores full coalescing from a layout that lacks it at one free block only, and touches no live block |
| `BuddyOperations.ReleaseKeeps` | src/buddy_memory.c:158-169 | freeing a live block keeps the invariant and removes exactly that block from the live ones |
| `BuddyOperations.ReleaseUndoesAllocate` | src/buddy_memory.c:84-169 | a successful allocation followed by freeing its block gives back the very same block list |
| `BuddyOperations.HistoryIndependent` | src/buddy_memory.c:84-169 | two histories of allocations and frees that leave the same live blocks leave the same block list |
| `BuddyOperations.AllReleased` | src/buddy_memory.c:111-169 | whenever nothing is live, memory is one free block again, whatever the order of the frees |
| `BuddyOperations.RequestFailsIffNoHole` | src/buddy_memory.c:84-92 | after every history, allocation fails iff no aligned hole of the required size exists |
| `BuddyOperations.LiveBlocksSnug` | src/buddy_memory.c:84-169 | after every history each live block is the least power of two that holds its request, less than twice the request, and no two live blocks overlap |
| `Dyadic.XorIsBuddy` | src/buddy_memory.c:113 | for an aligned block of 2^k units, start ^ size is the start of its buddy, on the right iff start is a multiple of 2^(k+1) |
| `Dyadic.CeilLog2` | src/buddy_memory.c:94 | (int)ceil(log2(n)) as an integer function: the least k with n <= 2^k |
| `Dyadic.FloorLog2` | src/buddy_memory.c:96 | (int)log2(n) as an integer function: the greatest k with 2^k <= n |
| `BuddyMemory.Memory.constructor` | src/buddy_memory.c:12-22 | a fresh memory is one free block, well linked |
| `BuddyMemory.Memory.GetSmallestBlockAvailable` | src/buddy_memory.c:32-48 | the pointer scan returns the node at the position BestFit gives, or null |
| `BuddyMemory.Memory.SplitBlock` | src/buddy_memory.c:55-74 | splitting in place keeps the links in both directions, inserts one fresh node right behind, and changes no other block |
| `BuddyMemory.Memory.SplitToOrder` | src/buddy_memory.c:96-99 | the splitting loop ends, keeps the node of the left half, and reaches the required order |
| `BuddyMemory.Memory.AllocateMemory` | src/buddy_memory.c:84-104 | on success the returned node is the best fit itself and the list is what the layout function says; on failure nothing changes |
| `BuddyMemory.Memory.Grant` | src/buddy_memory.c:84-104 | an allocation adds exactly the returned node to the set of live nodes |
| `BuddyMemory.Memory.AbsorbNext` | src/buddy_memory.c:122-149 | both branches of the merge unlink the right one of two blocks and double the left one |
| `BuddyMemory.Memory.MergeBlock` | src/buddy_memory.c:111-151 | the recursive merge on the linked list performs the merge on layouts; other live nodes stay in place unchanged |
| `BuddyMemory.Memory.DeallocateMemory` | src/buddy_memory.c:158-169 | freeing keeps the linked list valid, with its head unchanged, and performs the release on layouts |
| `BuddyMemory.Memory.Revoke` | src/buddy_memory.c:158-169 | freeing removes exactly the given node from the set of live nodes |
| `HashMap.Period` | src/DS/hash_map.c:42-47 | every probe sequence is back home within capacity steps, because capacity^2 is a multiple of capacity |
| `HashMap.FirstReturn` | src/DS/hash_map.c:42-47 | a probe sequence meets its first bucket again after exactly the period, never before |
| `HashMap.HashIs` | src/DS/hash_map.c:3-6 | for every key, negative or not, the hash is bits 16 to 63 of the product with 2654435761 modulo 2^64 |
| `HashMap.ProbeIs` | src/DS/hash_map.c:42 | after t steps the place is t * t further than the hash, modulo the capacity |
| `HashMap.HomeIs` | src/DS/hash_map.c:30 | the home bucket of a pid among 100 is b iff the remainder of pid * 2654435761 by 6553600 lies in the b-th stretch of 65536 |
| `HashMap.NeighboursApart` | src/DS/hash_map.c:3-6 | pids at most 28 apart have different home buckets |
| `HashMap.NeighboursTaken` | src/memory_manager.c:12 | a fresh table of 100 buckets takes any pids that are less than 29 apart |
| `HashMap.PeriodOfHundred` | src/memory_manager.c:12 | with 100 buckets the period is 10: a key is looked for in ten places only |
| `HashMap.Table.constructor` | src/DS/hash_map.c:8-22 | a fresh table is empty |
| `HashMap.Table.KeysDistinct` | src/DS/hash_map.c:34-58 | no key is stored in two buckets |
| `HashMap.Table.FindSlot` | src/DS/hash_map.c:34-51 | the probe loop ends and stops at the first bucket that is empty or has the key, or comes full circle |
| `HashMap.TakesIff` | src/DS/hash_map.c:27-51 | an insertion succeeds iff the table is not full and one of the places probed is empty or has the key |
| `HashMap.Table.Get` | src/DS/hash_map.c:62-84 | the probe loop ends and returns the value last put for the key, or nothing if there is none |
| `HashMap.Table.Put` | src/DS/hash_map.c:25-59 | 1, 0 or -1 exactly when the key was added, its value replaced, or nothing could be and was changed; it succeeds exactly when the keys take this one, and enters it where probing ends |
| `HashMap.Table.KnownIsTaken` | src/DS/hash_map.c:27-41 | the value of a stored key is always replaced, unless the table is full |
| `HashMap.EleventhFails` | src/memory_manager.c:12 | of eleven keys with one home bucket a table of 100 buckets takes the first ten, and not the eleventh |
| `HashMap.CollidingPids` | src/DS/hash_map.c:3-6 | eleven different pids, none above 2043, have one home bucket |
| `MemoryManager.Manager.constructor` | src/memory_manager.c:8-13 | a fresh manager has one free block, no owners, and a table of 100 buckets |
| `MemoryManager.Manager.AllocateProcessMemory` | src/memory_manager.c:29-33 | the block allocated is the best fit found before the call; it becomes the one live block without an owner |
| `MemoryManager.Manager.AssignMemoryBlock` | src/memory_manager.c:35-55 | exactly when the map takes the pid the block becomes that of the pid and is recorded with the id, and else it leaks; nobody else gains or loses a block; success is reported only for a pid not seen before |
| `MemoryManager.Manager.DeallocateProcessMemory` | src/memory_manager.c:15-27 | the block that the map has for the pid, and no other, is freed, and whoever held it loses it; for an owner that is its own block; a pid not in the map frees nothing |
| `AdmissionModel.OldestFit` | src/memory_manager.c:64-87 | the position of the earliest waiting process that fits, or none if none fits |
| `AdmissionModel.NoRoomMade` | src/process_generator.c:163-177 | serving one request never makes room for another |
| `AdmissionModel.AdmissionIsOneWalk` | src/process_generator.c:163-177 | the loop that restarts its scan after each admission does what one walk along the list does |
| `AdmissionModel.NobodyFits` | src/process_generator.c:163-177 | after the admission loop no waiting process fits |
| `AdmissionModel.NoDeadlock` | src/process_generator.c:163-177 | if every request fits into memory as such, then after admission nobody waits or some process holds memory |
| `AdmissionModel.WaitersKept` | src/process_generator.c:163-177 | everybody on the list is admitted or still waits, once |
| `AdmissionModel.AdmittedHoldMemory` | src/process_generator.c:163-177 | each admitted process holds one more live block and the others keep theirs |
| `AdmissionRuns.NobodyFitsAfterIteration` | src/process_generator.c:161-198 | after every iteration of create_processes nobody who waits fits, the newcomer included |
| `AdmissionRuns.IterationKeeps` | src/process_generator.c:161-198 | an iteration forks or keeps everybody and adds one live block per fork |
| `AdmissionRuns.IterationIsOneWalk` | src/process_generator.c:161-198 | an iteration is one walk along the waiting list with the newcomer at its end |
| `AdmissionRuns.WaitersComeFirst` | src/process_generator.c:163-191 | who of the waiting is admitted does not depend on the newcomer; the newcomer is forked after them, or waits behind those left |
| `AdmissionRuns.OldestIsNext` | src/process_generator.c:163-177 | once memory is empty, the process that has waited longest is admitted first |
| `AdmissionRuns.EverybodyAccounted` | src/process_generator.c:161-198 | in every run of iterations and exits: arrivals are forked or waiting, and the forked run or have exited |
| `BlockBooks.AssignAllKeeps` | src/process_generator.c:225-267 | forks in a row keep the correspondence of live blocks, owners and leaked blocks, and the fit of each block to its process |
| `BlockBooks.EveryForkOwns` | src/memory_manager.c:35-55 | if the map takes every pid in its turn, each forked process owns a block that suits it, and nothing leaks |
| `BlockBooks.NothingLeaksIff` | src/memory_manager.c:45 | nothing leaks in a row of forks iff the map takes every pid in its turn |
| `Leaks.NoRunDeadlocks` | src/process_generator.c:161-198 | in every run, after an iteration whoever waits and is not blocked by leaked blocks alone waits for a process that owns a block, and does not fit |
| `Leaks.AdmitsNobodyIff` | src/process_generator.c:163-177 | while nobody owns a block, the admission loop admits nobody iff the leaked blocks leave no aligned hole for any request that waits |
| `Leaks.BlockedForever` | src/process_generator.c:161-198 | a waiting process that the leaked blocks block waits in every continuation of the run |
| `Leaks.LeakyRun` | src/DS/hash_map.c:42-47 | eleven processes, one at a time, with certain pids leave memory with a live block although all have exited |
| `Leaks.DeadlockedRun` | src/process_generator.c:163-177 | after that a request for all of memory waits although nobody runs, blocked by the leaked block |
| `Arrivals.AllTakenIff` | src/process_generator.c:179-197 | all entries of the list are taken iff their arrival times occur in order among the readings of the clock, each at a reading of its own |
| `Arrivals.StuckEntries` | src/process_generator.c:179 | with a clock that never runs back, entries out of order or an arrival time never read keep the list from being used up |
| `AdmissionRuns.OwnersAndBlocks` | src/process_generator.c:161-198 | in every run: each live block has one owner or has leaked; an owner runs and its block is the least power of two for its request; if nothing leaked, exactly the running processes are owners |
| `AdmissionRuns.PidsAreTheirs` | src/process_generator.c:227-244 | in every run the process that runs under a pid, and owns the block recorded for it, is the last one for which fork returned that pid |
| `AdmissionRuns.WholeIff` | src/process_generator.c:293-309 | in every run, memory is one free block iff all forked processes have exited and no block has leaked |
| `AdmissionRuns.ExitsDetermined` | src/process_generator.c:293-309 | however many exit at once and in whatever order, the block list left is the one that the blocks freed determine |
| `AdmissionRuns.TurnIsRun` | src/process_generator.c:161-198 | a turn of the loop with its exits continues a run, and what has arrived in it is a prefix of the list of processes |
| `ProcessGenerator.FindOldestFit` | src/memory_manager.c:72-84 | the scan of the waiting list finds the oldest fit |
| `ProcessGenerator.GetOldestFit` | src/memory_manager.c:64-87 | the oldest fit is taken off the waiting list, which keeps its order |
| `ProcessGenerator.ForkAndSend` | src/process_generator.c:225-267 | the message carries the pid that fork returned, the process, its run time as remaining time, start time -1 and waiting time 0; the pid is recorded with the block and the id exactly when the map takes it, and else the block leaks |
| `ProcessGenerator.Reserve` | src/process_generator.c:166-171 | the block found before the allocation is the very node that is allocated, so recording the former records the latter |
| `ProcessGenerator.AdmitOne` | src/process_generator.c:166-176 | one round of the admission loop gives the next pid the very chunk its process was granted, as far as the map takes the pid |
| `ProcessGenerator.AdmitWaiting` | src/process_generator.c:163-177 | the loop admits exactly whom the admission function says, in that order, each with a fresh pid; owners and leaked blocks change by exactly these forks, and exactly the others stay waiting |
| `ProcessGenerator.TakeArrival` | src/process_generator.c:179-198 | an arrival gets memory, its pid the chunk granted, and is sent; or it goes to the end of the waiting list and no owner changes |
| `ProcessGenerator.Iterate` | src/process_generator.c:161-198 | one iteration of create_processes performs Iteration, sends a message for everybody it forks, in order, and changes owners and leaked blocks by exactly these forks |
| `ProcessGenerator.HandleChildExit` | src/process_generator.c:293-309 | exactly the blocks recorded for the exited pids other than the clock and the scheduler are freed, and owners, leaked blocks and live chunks are those before without these |
| `ProcessGenerator.ExitsAccountable` | src/process_generator.c:298-305 | of processes that may exit, the blocks in the map are live and are just the blocks they own |
| `ProcessGenerator.ExitProcesses` | src/process_generator.c:293-309 | the handler performs the exits of the run |
| `ProcessGenerator.OneTurn` | src/process_generator.c:161-198 | exits and an iteration on the objects perform a turn of the run |
| `ProcessGenerator.CreateProcesses` | src/process_generator.c:161-222 | the whole loop on the objects plays the given turns until the list is used up and nobody waits, going through a run, so that all said of runs holds of it; it takes the entries that the clock readings allow; the messages tell, in order, of those forked, each under the pid that fork returned for it; the end is announced iff the loop is over |
| `HeapSpec.SiftUpKeeps` | src/DS/priority_queue.c:57-71 | moving a node up repairs an order that is violated above it only, and permutes |
| `HeapSpec.HeapifyKeeps` | src/DS/priority_queue.c:160-180 | heapify repairs an order that is violated below a node only, and permutes |
| `HeapSpec.EnqueueKeeps` | src/DS/priority_queue.c:29-74 | enqueue keeps the heap order and adds one entry, its priority negated |
| `HeapSpec.EnqueueFront` | src/DS/priority_queue.c:58-71 | after enqueue the newcomer is in front iff its number is strictly less than that of the front, and otherwise the old front |
| `HeapSpec.EnqueueRises` | src/DS/priority_queue.c:54-71 | enqueue moves the new node from the last place past exactly the ancestors that are strictly less, and moves no other node but these |
| `HeapSpec.DequeueSinks` | src/DS/priority_queue.c:82-102 | dequeue moves the last node from the root past the greater child, the left one of equals, while that is strictly greater, and moves no other node but these |
| `HeapSpec.DequeueKeeps` | src/DS/priority_queue.c:82-102 | dequeue keeps the heap order and removes exactly the front entry |
| `HeapSpec.FrontIsMinimal` | src/DS/priority_queue.c:109-113 | the front has the least priority number of all entries |
| `HeapSpec.ChangePriorityKeeps` | src/DS/priority_queue.c:210-247 | changing the priority at any index needs one repair, up or down, and changes one entry |
| `HeapSpec.ChangePriorityMoves` | src/DS/priority_queue.c:210-247 | a node whose number fell rises, one whose number grew sinks, and otherwise nothing moves |
| `PriorityQueue.Heap.constructor` | src/DS/priority_queue.c:11-21 | a fresh heap is empty |
| `PriorityQueue.Heap.MoveUp` | src/DS/priority_queue.c:60-71 | the loop in the array performs SiftUp |
| `PriorityQueue.Heap.HeapifyAt` | src/DS/priority_queue.c:160-180 | the recursion in the array performs Heapify |
| `PriorityQueue.Heap.Grow` | src/DS/priority_queue.c:38-50 | growth doubles the capacity and keeps the contents |
| `PriorityQueue.Heap.EnqueueItem` | src/DS/priority_queue.c:29-74 | enqueue in the array, growth included, performs Enqueue |
| `PriorityQueue.Heap.DequeueItem` | src/DS/priority_queue.c:82-102 | dequeue returns the front item and performs Dequeue; nothing on an empty heap |
| `PriorityQueue.Heap.Front` | src/DS/priority_queue.c:109-113 | the item of the root, or nothing |
| `PriorityQueue.Heap.ChangePriorityAt` | src/DS/priority_queue.c:210-247 | performs ChangePriority; an index out of bounds changes nothing |
| `CircularQueue.AppendView` | src/DS/circular_queue.c:27-42 | a new object joins at the seam: behind those between head and tail, ahead of those already passed |
| `CircularQueue.RotateView` | src/DS/circular_queue.c:52-60 | dequeuing without removal moves the first in service order to the end |
| `CircularQueue.RemoveView` | src/DS/circular_queue.c:70-93 | removal drops exactly the first in service order, also at the tail |
| `CircularQueue.FullTurn` | src/DS/circular_queue.c:52-60 | as many rotations as there are nodes change nothing |
| `CircularQueue.SeamAfterTurns` | src/DS/circular_queue.c:27-60 | rotation does not move the seam: after n rotations a newcomer is served before exactly the n objects passed |
| `CircularQueue.SeamAfterRemoval` | src/DS/circular_queue.c:70-93 | nor does removal; only when the object at the tail is removed, a newcomer goes behind all |
| `CircularQueue.Ring.constructor` | src/DS/circular_queue.c:10-16 | a fresh ring is empty |
| `CircularQueue.Ring.Enqueue` | src/DS/circular_queue.c:27-42 | keeps next and prev inverse on one cycle of size nodes, and appends at the seam |
| `CircularQueue.Ring.Dequeue` | src/DS/circular_queue.c:52-60 | moves only the head, and returns the object it was at |
| `CircularQueue.Ring.DequeueAndRemove` | src/DS/circular_queue.c:70-93 | unlinks exactly the head, also when it is the tail or the only node |
| `CircularQueue.Ring.Front` | src/DS/circular_queue.c:103-108 | the object at the head, or nothing |
| `ReadyQueue.FrontIsLeast` | src/DS/IQueue.c:57-66 | the front of either queue has the least priority number |
| `ReadyQueue.PutKeeps` | src/DS/IQueue.c:28-39 | enqueue adds one entry to either queue |
| `ReadyQueue.FrontAfterPut` | src/DS/IQueue.c:28-39 | a newcomer is in front only of an empty queue or, in the heap, with a strictly lesser number |
| `ReadyQueue.TakeOutKeeps` | src/DS/IQueue.c:41-55 | dequeue with removal takes exactly the front entry |
| `ReadyQueue.ReprioritiseFront` | src/DS/IQueue.c:102-106 | lowering the number of the front leaves it in front and changes one entry |
| `ReadyQueue.IQueue.constructor` | src/DS/IQueue.c:3-26 | a ring for round robin, a heap otherwise |
| `ReadyQueue.IQueue.Enqueue` | src/DS/IQueue.c:28-39 | dispatches to the queue in use and performs Put |
| `ReadyQueue.IQueue.DequeueFront` | src/DS/IQueue.c:41-55 | performs TakeOut or, for a ring without removal, PassOver |
| `ReadyQueue.IQueue.GetFront` | src/DS/IQueue.c:57-66 | the front of the queue in use |
| `ReadyQueue.IQueue.ChangePriorityAt` | src/DS/IQueue.c:102-106 | performs Reprioritise; a ring ignores it |
| `Scheduler.Scheduler.constructor` | src/scheduler.c:53-72 | the initial global variables |
| `Scheduler.Scheduler.CheckForNewProcesses` | src/scheduler.c:133-189 | performs Drain: valid messages are received in order; the first invalid one is dropped and ends the reading |
| `Scheduler.Scheduler.ScheduleNextProcess` | src/scheduler.c:238-285 | performs Schedule |
| `Scheduler.Scheduler.AccountIdle` | src/scheduler.c:85-92 | performs ChargeIdle |
| `Scheduler.Scheduler.HandleCurrentRunningProcess` | src/scheduler.c:194-232 | performs Handle |
| `Scheduler.Scheduler.HandleQuantumExpiration` | src/scheduler.c:335-367 | performs Expire |
| `Scheduler.Scheduler.HandleProcessTermination` | src/scheduler.c:292-328 | performs Terminate |
| `Scheduler.Scheduler.HandleProcessTick` | src/scheduler.c:374-395 | performs CountTick |
| `Scheduler.Scheduler.LoopPass` | src/scheduler.c:81-101 | performs one pass of the main loop, which is what a pass of the world does to the scheduler |
| `WorldRuns.PassIsLoopBody` | src/scheduler.c:81-101 | in every reachable state a pass of the world does to the scheduler what the calls in the loop body do, whatever arrives after it has read the queue, and these calls are well defined |
| `SchedulerModel.FrontWaits` | src/scheduler.c:238-250 | the front of the queue is an unfinished process, not the running one under HPF, with the least number among those |
| `SchedulerModel.ReceiveKeeps` | src/scheduler.c:158-186 | receiving a valid message keeps queue and PCBs in agreement |
| `SchedulerModel.ScheduleKeeps` | src/scheduler.c:238-285 | dispatching keeps queue and PCBs in agreement; except under HPF the running process is the front |
| `SchedulerModel.ExpireKeeps` | src/scheduler.c:335-367 | stopping the running process keeps queue and PCBs in agreement |
| `SchedulerModel.CountTickKeeps` | src/scheduler.c:374-395 | a tick keeps queue and PCBs in agreement: under SRTN the key at index 0 is that of the running process |
| `SchedulerModel.TerminateKeeps` | src/scheduler.c:292-328 | termination removes exactly the running process from the queue |
| `UserProcess.RunProcess` | src/process.c:27-70 | over any sequence of clock readings and continuations, one signal is sent for each reading of a value other than the one last read or continued at, as many as the run time at most; SIGUSR1 for the last unit and else SIGUSR2 |
| `UserProcess.SignalsCount` | src/process.c:58-70 | whatever a process reads and however often it is continued, it sends one signal per unit counted, SIGUSR1 for the last unit and no other |
| `UserProcess.ReadingAgain` | src/process.c:60 | reading the same clock value again changes nothing and sends nothing |
| `UserProcess.AfterContinue` | src/process.c:27-33 | a process continued at t sends nothing while it reads t and exactly one signal when it reads t + 1, however often it reads either |
| `Lives.ProcessesLive` | src/process.c:42-70 | in every run, continued at each dispatch (src/scheduler.c:275) and reading each clock value of its slices any number of times, each process of the world is what run_process makes of that, and its remaining time is its run time less the new values read |
| `Phases.LinesInOrder` | src/scheduler.c:263-280 | in every run a line says "started" iff it is the first about its process, at the start time kept in the PCB; "resumed" iff the line before said "stopped"; "stopped" or "finished" iff it said "started" or "resumed" |
| `Decisions.PassReads` | src/scheduler.c:133-189 | in every reachable state a pass receives exactly the messages before the first whose pid, id or run time is not positive, with their pids and data; it drops that one and leaves the rest |
| `Decisions.PassStopsIff` | src/scheduler.c:194-232 | in every reachable state a pass stops the running process, under SRTN iff a process received in that pass has strictly less time left, under RR iff it has run for the quantum, under HPF never; and it puts nobody in its place |
| `Decisions.PassDispatches` | src/scheduler.c:238-250 | in every reachable state a pass that finds nobody running dispatches an unfinished process if there is one: under SRTN of least remaining time, under HPF of least priority number |
| `Decisions.FrontGoesFirst` | src/scheduler.c:238-250 | the process in front before the pass is the one dispatched iff no newcomer has strictly less time left or is strictly more urgent; under RR always |
| `Decisions.FirstComeFirst` | src/DS/circular_queue.c:27-42 | into an empty ring, the first of the newcomers is dispatched |
| `Decisions.TickTakesOne` | src/scheduler.c:292-395 | a tick takes one unit from the running process and from nobody else, and ends its run iff that was the last |
| `WorldInvariant.ClampChangesNothing` | src/scheduler.c:197-199 | assigning last_remain_time - quantum to remaining_time never changes it |
| `WorldInvariant.HandleIsStop` | src/scheduler.c:194-232 | within a pass, handling the running process either stops it or does nothing at all |
| `WorldRuns.PassWith` | src/scheduler.c:81-101 | a pass of the main loop keeps every invariant, whatever messages and announcement arrive after it has read the queue |
| `WorldRuns.LateIsAfter` | src/scheduler.c:83-98 | messages that arrive within a pass have the effect of arriving after it, the announcement that of arriving before it |
| `WorldRuns.Next` | src/scheduler.c:81-101 | every step of the environment keeps every invariant |
| `WorldRuns.After` | src/scheduler.c:81-101 | every reachable state has every invariant |
| `RunResults.RunningIsFront` | src/scheduler.c:308-310 | under RR and SRTN the running process is the front of the queue, under its own key |
| `RunResults.SrtnRunsShortest` | src/scheduler.c:209-230 | under SRTN nobody received has less time left than the running process |
| `RunResults.QueueHoldsTheWaiting` | src/scheduler.c:174-186 | the queue holds each unfinished process exactly once under its current key (not the running one under HPF), and nothing else |
| `RunResults.SlicesExact` | src/scheduler.c:196-201 | every RR slice lasts min(quantum, time left at dispatch), without interruption, and ends in termination iff that was all |
| `RunResults.HpfNeverPreempts` | src/scheduler.c:203-207 | under HPF a process that does not run has not begun or is finished |
| `RunResults.HpfSlicesAreWholeRuns` | src/scheduler.c:203-207 | under HPF every slice is the whole run of its process |
| `RunResults.EveryUnitAccounted` | src/process.c:58-70 | remaining_time is the process's own counter, and every unit since arrival was spent running or waiting |
| `RunResults.TickIsReadings` | src/process.c:58-70 | in every reachable state, a tick leaves the running process as its own loop does when it reads the new clock value, however often, and the signal handled is the one that the loop sends |
| `RunResults.LoggedWaitIsRight` | src/scheduler.c:263-272 | the wait_time in every log line counts the units since arrival in which the process did not run; remaining_time is what it had left then |
| `RunResults.TurnaroundAddsUp` | src/file_handlers.c:131-136 | at "finished", once per process, nothing is left and TA = wait_time + runtime (src/PCB.h:13) |
| `RunResults.ClockAddsUp` | src/scheduler.c:85-93 | start clock + idle_time + all closed slices = log_start_time while a process runs, and last_process_end_time otherwise |
| `RunResults.NothingLostOrDoubled` | src/scheduler.c:133-189 | the valid messages sent are, in order, those received and those still queued |
| `RunResults.ReceivedAsSent` | src/scheduler.c:158-166 | in every run the i-th process received has the pid and the data of the i-th one sent with positive pid, id and run time |
| `FairRuns.RoundRobinBoundedBypass` | src/scheduler.c:238-250 | in every RR run, between two consecutive dispatches of a process every other one is dispatched at most once, and each one present throughout exactly once |
| `FairRuns.RoundRobinWait` | src/scheduler.c:361-362 | in every RR run a process that has run is dispatched again after at most one slice of each other process |
| `Waits.RingWait` | src/DS/circular_queue.c:27-60 | in every RR run from any state on, a process with x others before it in the service order is dispatched within x dispatches if it stands ahead of the seam; else within x and one more for each process received while it stands behind the seam |
| `FairRuns.HpfDispatchesMostUrgent` | src/scheduler.c:243-246 | in every HPF run each dispatched process had the least priority number of all unfinished received ones |
| `Quiescence.QuietAfterPasses` | src/scheduler.c:81-101 | two passes bring the main loop to rest, and one more for each invalid message in the queue |
| `Quiescence.QuietIdleMeansFinished` | src/scheduler.c:85-94 | a loop at rest idles only if every received process is finished |
| `Deficits.AheadAfterService` | src/scheduler.c:209-230 | serving the shortest keeps a schedule ahead of one that serves any other process, at every threshold |
| `SrtnOptimal.SrtnFinishesMost` | src/scheduler.c:194-232 | in every run with a loop at rest at each tick, SRTN has finished at least as many processes as any other one-process-per-tick schedule of the same arrivals |
| `Termination.UnfinishedTicksBounded` | src/scheduler.c:81-105 | in every run the ticks at which a received process is unfinished are at most the sum of 2 * runtime + 2 over the messages sent |
| `Termination.EveryRunEnds` | src/scheduler.c:81-105 | in every run, from any state on, the main loop has ended once the end is announced and the clock has ticked more often than the work left and the unread messages allow, whatever the order of steps |
| `Termination.ExactTicks` | src/scheduler.c:374-395 | in every run with a loop at rest at each tick, the ticks that find somebody unfinished are exactly the units of run time served |
| `Termination.AllTimeAccounted` | src/scheduler.c:374-395 | the clock is the idle units plus the run time served |
| `LoopEnd.LoopEndsComplete` | src/scheduler.c:81-105 | when the main loop ends, all messages were valid and none arrived in the pass that the announcement arrived in, every process was received and finished exactly once, in the order sent |
| `LoopEnd.AtTheEnd` | src/scheduler.c:82 | when the main loop has ended, everybody received has finished once, and all valid messages were received iff none of the unread ones is valid |
| `LoopEnd.EverybodyFinishes` | src/scheduler.c:81-105 | every run with an announced end finishes: after enough ticks the main loop has ended and everybody received has finished once, which is everybody sent if all messages were valid and none came with the announcement |
| `LoopEnd.EndsIff` | src/scheduler.c:82 | a pass ends the main loop iff the end was announced, nobody runs or waits, and no valid message is first to be read |
| `LoopEnd.StrandedIff` | src/scheduler.c:82-98 | exactly when a pass ends the loop with a valid message unread: the end is announced by its end, nothing runs or waits, no message is there to read or the first is invalid, and a valid one is behind it or arrives within the pass |
| `LoopEnd.StrandedRun` | src/scheduler.c:153-156 | under every algorithm an input line with run time 0 can strand the valid process sent behind it |
| `LoopEnd.LateRun` | src/scheduler.c:83-98 | under every algorithm a valid process sent together with the announcement can be stranded although every message is valid |

## Left out

- ProcessGenerator.HandleChildExit: requires that the blocks recorded for the exited pids are live and different. A reused pid whose own block was refused by a full map has a stale entry instead, and its block may have been merged away: the code then writes to freed memory, which has no meaning in C.
- MemoryManager.Manager.DeallocateProcessMemory: requires that the block in the map is still a node of the list, free or live, for the same reason.
- ProcessGenerator.CreateProcesses: exits are those of processes that own a block or are not in the map, as above, and happen between turns; a turn is given enough pids.
- ProcessGenerator.Iterate: the waiting list is passed in and returned as a sequence, not updated as a linked list; `interrupted` and the sleep are not modelled.
- Scheduler.Scheduler.LoopPass: pointers to PCBs are modelled as numbers into a sequence of PCBs that the methods reassign, so aliasing between queue, current process and PCB is by number.
- UserProcess.RunProcess: starts at the first stop, and the two reads of the clock in one pass of its loop agree.
- Signals in the middle of a queue or allocator operation: the code has no masking, so the claims are about the granularity stated above.
- fork, kill, waitpid, message queues, shared memory, sleeps and the clock process, except as steps and parameters.
- A failed fork (src/process_generator.c:229), a failed msgsnd, and SIGINT with its cleanup.
- Logging, printing and colours; of the log files only the figures they carry are modelled, and memory.log not at all.
- Parsing of arguments and of the input file; the floating-point statistics of scheduler_perf_out and round_number.
- hashmap_remove and the NULL-map cases of hashmap_get and hashmap_put: not used.
- malloc failure and C integer overflow: integers are mathematical, except in the hash function, where the wrap-around matters.
- The memory size is 2^k for any k instead of 1024.
- Freed nodes: the model drops them from the list and never looks at them again.
- The order in which several equals leave the heap after several operations: each operation is described exactly (`HeapSpec.EnqueueRises`, `HeapSpec.DequeueSinks`), and nothing simpler holds of their sequence.
