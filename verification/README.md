# NerdRTOS kernel: a verified model

NerdRTOS is a small preemptive kernel: fixed-priority threads with time slices, mutexes with priority inheritance,
semaphores, message queues, block pools, event groups, a timer queue on a red-black tree, and a first-fit heap. This
project models its data structures and its thread side and proves what they are for.

| file | models |
|---|---|
| RbTree.dfy | `lib/rbtree.c`: nodes with parent pointers, rotations, insertion and erasure with their fix-up loops, first and next |
| RbWord.dfy | the packed parent-and-colour word of a node |
| TimerQueue.dfy | `kernel/nd_timer.c` in tick mode: the tree as a stable queue by expiry, and the expiry loop |
| MemHeap.dfy | `kernel/nd_memheap.c`: headers and bytes at addresses, the physical and the free list, split, coalescing, realloc; what each call makes of the heap as a function (`CallFate`, `CallNext`, `CallGain`), and the code against it |
| MemCopy.dfy | `nd_memcpy` |
| NdList.dfy, BitOps.dfy | the circular list and find-first-set the scheduler rests on |
| KernelCore.dfy | control blocks, ready and wait lists, bitmap, scheduler, blocking and waking, as functions on a state |
| Ipc.dfy | semaphores, mutexes, queues, pools, events, thread calls and interrupts over it; the invariant every step keeps |
| Effects.dfy | what each step does to the objects and answers, and what that adds up to over runs: queues first in first out, units and blocks accounted for |
| Waits.dfy, Returns.dfy | how every wait ends, and what the call then returns |
| Inheritance.dfy, Wakeups.dfy, EventOrder.dfy, Joins.dfy | priority inheritance, no lost wake-ups, greedy event delivery, joins |
| Runs.dfy, Laws.dfy, Instances.dfy | whole runs from the first dispatch; what the invariant means for callers; runs that reach each failure |
| Rings.dfy | the thread lists in memory: one ring of nodes for each head, through the qnodes of its threads |
| Kernel.dfy | the kernel as a class over those rings: one method per C function, each proved to do what the function that specifies it says |
| RingQueue.dfy, MemPool.dfy, Slices.dfy | the representation of queues (wrapping, masked indices) and pools (a chain through free blocks), and slice accounting |

How to read it:

- A locked section is one atomic step. A blocking call is two: up to its `nd_scheduler()`, and the code behind it when
  the thread is dispatched again (`Return`), which for queues and pools is another pass of their loop. The switch takes
  place inside `nd_scheduler()`, as on the Cortex-A9 and RV32 ports; interrupts are steps with a positive nest count.
- `Legal` says who may take which step: threads call between calls, interrupts make every call that does not wait, a timer
  fires while armed, a thread is created once. A lock or unlock made by an interrupt acts for the thread it interrupted, and is
  not made while that thread is inside a call of its own. The idle thread neither calls nor is suspended: without a runnable
  thread `nd_scheduler()` returns to the thread that has just blocked.
- A heap has its pool on either side of its control block, whose first two fields are the start and the end sentinel, one
  right behind the other. `limit` is the end of the pool; the last item of the pool seems to reach to the end sentinel.
- Tree nodes and list nodes are objects. The two mirrored halves of each C routine on trees are one body taken at a `Side`.
- `begun`, `ended`, `cut` and `ticket` in a control block, the counts in a semaphore and the logs in a queue are a history
  the model keeps for stating laws; nothing the code does depends on them. `RunUnits` and `RunLogs` show that the counts and logs
  are what the calls of a run were told.
- The message a receive hands to its caller is the entry it adds to the log `got`.
- An allocation answers `EOK` for a block, and for null `ERROR` without a wait or `ETIMEOUT` after one.
- Proofs hide definitions they do not need, which keeps each of them small.

What the code does where its documentation or its intent suggests otherwise:

- The end sentinel does not lie at the end of the pool but behind the start sentinel, so the last item of a pool always
  seems larger than it is, by at least a header (`Slack`); above the control block the difference wraps to nearly the whole
  address space. A request that only seems to fit puts a header or a block across the end of the pool: the outcome is
  `Overrun`, stated exactly for allocation, growth in place and moves, and the model stops there. A new heap asked for all
  that its counter shows does so (`WholePoolOverruns`), and with the control block right behind the pool what crosses lands on
  the start sentinel (`OverrunHitsSentinel`).
- A split at an odd size loses a physical link; the guard of the in-place growth wraps below zero when the size lies between
  both blocks and both blocks plus a header; and absorbing a free item whole leaves `available_size` too high. Each is stated
  exactly, with an instance (`ResizeExamples`). After a link is destroyed the outcome is `Corrupted` and the model stops.
- A boost is recorded in a mutex only if it finds the owner less urgent, and is not passed on when the owner waits itself, so
  nested locks can leave an owner less urgent than a waiter (`NestedUnlockFails`, `ChainedLockFails`). `Harms` says for every
  step exactly when; without nesting it never does (`AloneHarmless`). Owners need not be spared from abortion.
- `nd_mutex_unlock` without waiters and `nd_thread_abort` of another thread do not run the scheduler; `UnlockOmission` and
  `AbortOmission` say exactly when that matters, and two runs show that it does.
- A lock that is suspended while it waits returns EOK without owning the mutex (`LockReturns`), a join without the other
  thread being dead (`CutJoinReturns`), and a take or event receive without a unit or bits (`ReturnTells`).
- A yield without a ready peer leaves its flag set, so the caller gives way to the next peer without yielding again
  (`YieldRotates`).
- `nd_mempool_init` rounds the size it keeps but lays the chain with the size as given (`ChainMatchesSize`).
- A slice started at clock value 0 is not charged, and a slice timer that fires without a peer leaves the slice running
  (`Slices.Then`).

## Model

| member | source | states |
|---|---|---|
| RbTree.RbRoot.RotateLeft | lib/rbtree.c:4-25 | rewrites exactly the links of a left turn: the right child takes the place of the node and adopts it |
| RbTree.RbRoot.RotateRight | lib/rbtree.c:27-48 | the mirror image |
| RbTree.RbRoot.Rotate | lib/rbtree.c:4-48 | a turn to either side keeps parent pointers consistent and the in-order sequence unchanged |
| RbTree.RbRoot.InsertRound | lib/rbtree.c:56-110 | one round of the colour loop keeps black heights and at most one red pair, and moves the pair up or ends it |
| RbTree.RbRoot.InsertColor | lib/rbtree.c:50-113 | from a tree whose only fault is the new red node the loop terminates in a valid red-black tree with the same in-order sequence |
| RbTree.RbRoot.LinkNode | include/lib/rbtree.h:99-108 | hangs a red leaf into an open link: the in-order sequence gains it at that place, black heights stay |
| RbTree.RbRoot.Insert | lib/rbtree.c:50-113 | linking and recolouring together: a valid tree whose sequence is the old one with the node at the slot of the link |
| RbTree.RbRoot.EraseRound | lib/rbtree.c:121-186 | one round against a black shortage ends it or moves it to the parent, all invariants kept |
| RbTree.RbRoot.EraseColor | lib/rbtree.c:115-193 | the fix-up loop terminates and repairs a black shortage: black root, no red pair, equal black heights |
| RbTree.RbRoot.FindSuccessor | lib/rbtree.c:208-210 | for a node with two children finds the next node in order, which has no left child |
| RbTree.RbRoot.EraseOuter | lib/rbtree.c:242-259 | a node with at most one child is spliced out; the sequence loses exactly it |
| RbTree.RbRoot.EraseInner | lib/rbtree.c:204-240 | a node with two children is replaced by its successor, which takes over its links and colour |
| RbTree.RbRoot.Erase | lib/rbtree.c:195-260 | for every valid tree and node in it: a valid red-black tree whose in-order sequence is the old one minus exactly that node |
| RbTree.RbRoot.First | lib/rbtree.c:333-343 | the head of the in-order sequence, or null for an empty tree |
| RbTree.RbRoot.Next | lib/rbtree.c:357-383 | the node after the given one in the in-order sequence, or null at the end |
| RbTree.RbRoot.WalkIsOrder | lib/rbtree.c:333-383 | a full recursive in-order walk of the links visits exactly the ghost sequence |
| RbTree.RbRoot.EqualBlacks | lib/rbtree.c:50-260 | every path from the root to a missing child passes the same number of black nodes |
| RbTree.RbRoot.ShortPaths | lib/rbtree.c:50-260 | no path is longer than twice its black nodes, as no two red nodes follow each other |
| RbTree.RbRoot.LogarithmicDepth | lib/rbtree.c:50-260 | the number of nodes is at least two to half the depth, so every descent is logarithmic |
| RbWord.SetRedReads | include/lib/rbtree.h:58-61 | setting the colour red is read back and keeps the parent |
| RbWord.ClearedReads | include/lib/rbtree.h:67-68 | a node reads as empty exactly while its parent is itself |
| TimerQueue.Queue.FindLink | kernel/nd_timer.c:28-37 | descends to the link behind every entry of equal or smaller expiry and ahead of every larger one |
| TimerQueue.Queue.NodeInsert | kernel/nd_timer.c:26-41 | stable insertion: the queue stays a red-black tree in expiry order, the timer behind its equals |
| TimerQueue.Queue.Remove | kernel/nd_timer.c:66-95 | takes a queued timer out and marks it; a timer not queued is left alone |
| TimerQueue.Queue.Init | kernel/nd_timer.c:149-184 | known and disarmed, refused without callback or timeout |
| TimerQueue.Queue.Start | kernel/nd_timer.c:186-208 | (re)arms the timer at now + timeout modulo 2^64: the queue without it is as before, and it stands behind everything due no later |
| TimerQueue.Queue.Stop | kernel/nd_timer.c:210-223 | disarms the timer, armed or not |
| TimerQueue.Queue.Round | kernel/nd_timer.c:99-124 | one round fires a due timer of least expiry, a periodic one requeued a period later, and brings the outstanding work down |
| TimerQueue.Queue.Expired | kernel/nd_timer.c:97-125 | terminates, fires in expiry order, leaves every remaining expiry after now; every timer no callback touches fires at e, e + d, e + 2d, ... as often as due and ends without drift |
| TimerQueue.TrackFire | kernel/nd_timer.c:112-117 | a firing extends the account of a timer by one period |
| TimerQueue.TrackEnds | kernel/nd_timer.c:97-125 | a periodic timer with expiry e <= now and period d fires (now - e) / d + 1 times and is left at the first e + k * d > now |
| TimerQueue.CountDue | kernel/nd_timer.c:97-125 | the number of multiples of d from e on that are due by now |
| MemHeap.ChainInsert | kernel/nd_memheap.c:43-49 | inserting behind item i keeps next and prev inverse through the tag bit |
| MemHeap.ChainRemove | kernel/nd_memheap.c:59-63 | removing item i keeps next and prev inverse and the tags of the others |
| MemHeap.RingInsert | kernel/nd_memheap.c:51-57 | the free list gains the item right behind the head, links both ways |
| MemHeap.RingRemove | kernel/nd_memheap.c:65-69 | the free list loses exactly the item |
| MemHeap.RingReplace | kernel/nd_memheap.c:71-77 | the new item takes the place of the old one in the free list |
| MemHeap.AbsorbNext | kernel/nd_memheap.c:85-89 | swallowing the free item behind keeps tiling and free list, and the item behind that is in use |
| MemHeap.MergePrev | kernel/nd_memheap.c:91-95 | merging into the free item before gives a well-shaped heap |
| MemHeap.ReleaseAlone | kernel/nd_memheap.c:95-99 | with no free neighbour the item joins the free list and no two neighbours are free |
| MemHeap.Heap.PhysInsertAfter | kernel/nd_memheap.c:43-49 | exact effect on the physical list; for an odd address the link is lost |
| MemHeap.Heap.FindFit | kernel/nd_memheap.c:104-117 | the first item on the free list that seems large enough, or that there is none |
| MemHeap.NoFit | kernel/nd_memheap.c:104-117 | the list offers nothing exactly when every free item seems too small |
| MemHeap.NeverRefused | include/nd_mem.h:31-38 | the end sentinel lies behind the pool by more than a header: a request no larger than that distance, taken modulo 2^32, never gets null |
| MemHeap.Heap.SplitItem | kernel/nd_memheap.c:119-128 | the front of a free item is handed out and the rest stays free in its place; the list is destroyed exactly for an odd size |
| MemHeap.Heap.TakeItem | kernel/nd_memheap.c:128-134 | a free item too small to split, other than the last of the pool, is handed out whole |
| MemHeap.Heap.Alloc | kernel/nd_memheap.c:102-138 | first fit: the new block, all other blocks and their bytes untouched, space accounted; null exactly when nothing fits; across the end of the pool exactly when the first fit is the last item and header, size and another header do not fit in it; a link lost exactly when another split has odd size |
| MemHeap.FirstRequest | kernel/nd_memheap.c:102-185 | what a heap just set up makes of every request size |
| MemHeap.WholePoolOverruns | kernel/nd_memheap.c:149-185 | asked for all that available_size shows, a new heap hands out a block across the end of its pool |
| MemHeap.OverrunHitsSentinel | include/nd_mem.h:31-38 | with the control block right behind the pool, what crosses the end of the pool overlaps the start sentinel |
| MemHeap.Heap.Coalesce | kernel/nd_memheap.c:79-100 | gives an item back with both free neighbours merged: tiling, both lists, tags and counter right again |
| MemHeap.Heap.Free | kernel/nd_memheap.c:140-147 | exactly the block disappears, every other block and byte stays |
| MemHeap.Heap.FreePtr | kernel/nd_memheap.c:199-212 | null is ignored, a live pointer is freed |
| MemHeap.Heap.constructor | kernel/nd_memheap.c:149-185 | one free item over the pool, the counter exact, in the layout of the struct with the pool on either side of it |
| MemHeap.Heap.Shrink | kernel/nd_memheap.c:237-248 | cuts the block and gives the rest back, its first bytes and all other data kept |
| MemHeap.Heap.GrowSplit | kernel/nd_memheap.c:254-262 | grows in place into the free item behind, whose rest stays free; data kept, space accounted |
| MemHeap.Heap.GrowAbsorb | kernel/nd_memheap.c:263-270 | takes the free item behind whole and leaves the counter too high by H + block_size + next_block_size - size |
| MemHeap.Heap.GrowOver | kernel/nd_memheap.c:254-262 | when the unsigned guard wraps, the new header destroys the link to the item that follows |
| MemHeap.Heap.Grow | kernel/nd_memheap.c:254-274 | in-place growth crosses the end of the pool exactly if the item behind is the last and size exceeds both, destroys a link exactly if size exceeds both with another item behind, or splits at an odd size |
| MemHeap.Heap.Resize | kernel/nd_memheap.c:226-288 | realloc of a live block: keeps the first min(old, new) bytes and all other data; fails, breaks a link or crosses the end of the pool each exactly under a stated condition; moves the counter off by exactly the gain |
| MemHeap.Heap.AllFreed | kernel/nd_memheap.c:79-100 | with every block freed, in whatever order, one free item spans the pool and counts all of it |
| MemHeap.Heap.Perform | kernel/nd_memheap.c:187-289 | one call of any kind and size: the heap moves as the specification says, exactly unless the call breaks a link or crosses the pool; the counter gains exactly the gain; every other block keeps its bytes |
| MemHeap.Heap.Run | kernel/nd_memheap.c:187-289 | any run of calls follows the specification call by call up to exactly the first that breaks a link or crosses the end of the pool; the counter is too high by exactly the sum of the gains; with nothing held the pool is one free item |
| MemHeap.GainsBounded | kernel/nd_memheap.c:263-270 | only realloc makes the counter drift, upwards and by less than two headers a call |
| MemHeap.ExampleSteps | kernel/nd_memheap.c:102-147 | three allocations and a free on a pool below its control block, shape by shape |
| MemHeap.ResizeExamples | kernel/nd_memheap.c:254-270 | after them, growing 32 bytes to 110 passes the guard and destroys a link, and growing them to 90 leaves the counter 34 too high |
| MemCopy.SpliceAt | kernel/nd_klibc.c:340-384 | shifting and joining two neighbouring aligned words gives the word that starts between them, for each of the three offsets |
| MemCopy.CopyAligned | kernel/nd_klibc.c:298-328 | both sides aligned: whole words, then the rest by the bits of its length |
| MemCopy.CopyShifted | kernel/nd_klibc.c:330-386 | destination off by 1, 2 or 3: spliced words, reading only inside the source and aligned |
| MemCopy.ByteTail | kernel/nd_klibc.c:388-407 | the last bytes, by the bits of their number |
| MemCopy.Copy | kernel/nd_klibc.c:270-408 | for every length and pair of alignments dest gets the old source bytes and nothing else changes; word accesses are aligned and inside the source |
| NdList.InsertAfter | include/nd_list.h:19-25 | the new node comes right behind the given one, links both ways |
| NdList.InsertBefore | include/nd_list.h:27-33 | the new node comes right before the given one; before the head is the end |
| NdList.Remove | include/nd_list.h:35-41 | the list loses exactly the node, which is left unlinked |
| NdList.IsEmpty | include/nd_list.h:43-46 | true exactly for a head without members |
| NdList.Length | include/nd_list.h:53-64 | the number of members |
| NdList.LinkedIff | include/nd_list.h:48-51 | a member of a list reads as linked |
| BitOps.Ffs | include/nd_bitops.h:12-22 | zero for a zero word, otherwise one more than the lowest set bit |
| BitOps.TableAgrees | include/nd_bitops.h:45-52 | the byte-table fallback equals the count of trailing zeros on every word |
| KernelCore.HighestOk | kernel/nd_scheduler.c:84-91 | the head of the most urgent ready list is a ready thread no ready thread is more urgent than; none is found only if none is ready |
| KernelCore.GiveWayOk | kernel/nd_scheduler.c:118-149 | the running thread goes back to a ready list and nothing else changes |
| KernelCore.SwitchOk | kernel/nd_scheduler.c:179-225 | the next thread leaves its ready list and becomes the one running thread |
| KernelCore.ScheduleCoreOk | kernel/nd_scheduler.c:151-162 | afterwards the current thread is running and no ready thread is more urgent; wait lists are untouched |
| KernelCore.Placement | kernel/nd_scheduler.c:137-146 | a switch happens exactly for a more urgent thread or a requested rotation; a preempted thread goes to the head of its list, a rotated one behind its peers |
| KernelCore.Dispatches | kernel/nd_scheduler.c:84-162 | the current thread keeps the processor exactly if it runs, nobody ready is more urgent and, if it yields, nobody as urgent; otherwise the first of the most urgent ready list runs, the one it replaces goes ahead of or behind its peers, and only a yield to a peer takes back the flag |
| KernelCore.PendOk | kernel/nd_thread.c:95-109 | the current thread joins the wait list behind everyone at least as urgent, its timer armed unless it waits for ever |
| KernelCore.AwakenOk | kernel/nd_thread.c:111-124 | a blocked thread leaves its wait list for its ready list with its timer disarmed; no other thread changes |
| KernelCore.RetireOk | kernel/nd_thread.c:126-160 | a suspended or dead thread is on no list and has no armed timer, whatever it was doing |
| KernelCore.ChangePrioOk | kernel/nd_mutex.c:19-30 | a ready thread moves to the ready list of its new priority, another one only changes its priority |
| KernelCore.CreateOk | kernel/nd_thread.c:279-315 | a new thread is ready at its priority and nobody else changes |
| Ipc.SemTakeSound | kernel/nd_sem.c:35-58 | a take, granted, refused or waiting, keeps lists, timers and every object in order and the most urgent thread running; what it answers is Effects.SemStep, what it returns after a wait Returns.ReturnTells |
| Ipc.SemReleaseSound | kernel/nd_sem.c:17-33 | a release, stored or handed over, keeps them; which of the two it is and what it adds is Effects.SemStep |
| Ipc.MutexLockSound | kernel/nd_mutex.c:72-106 | a lock keeps every kernel invariant |
| Ipc.MutexUnlockSound | kernel/nd_mutex.c:45-70 | an unlock keeps every kernel invariant; if somebody waits the most urgent thread runs afterwards; the priority it leaves is Laws.UnlockFalls |
| Ipc.QueueSendSound | kernel/nd_queue.c:31-67 | each pass of the send loop keeps every kernel invariant; where the message goes is Effects.QueueStep |
| Ipc.QueueRecvSound | kernel/nd_queue.c:69-105 | each pass of the receive loop keeps every kernel invariant; which message it takes is Effects.QueueStep |
| Ipc.EventSendSound | kernel/nd_event.c:38-59 | a send keeps every kernel invariant, among them that no waiter could be served (Laws.NoneOverlooked) |
| Ipc.EventRecvSound | kernel/nd_event.c:61-87 | a receive keeps every kernel invariant; when it is granted is Effects.EventStep |
| Ipc.SuspendSound | kernel/nd_thread.c:126-160 | suspension from any state keeps every kernel invariant |
| Ipc.AbortSound | kernel/nd_thread.c:180-220 | abortion wakes every joiner and keeps every kernel invariant; nobody waits for a dead thread |
| Ipc.TimerSound | kernel/nd_thread.c:55-66 | a timer callback only ever runs on a thread that is still blocked |
| Ipc.ExitSound | kernel/nd_scheduler.c:164-177 | the outermost interrupt exit serves a pending request: the most urgent thread runs |
| Ipc.StepSound | kernel/nd_scheduler.c:43-235 | every step of every thread and interrupt keeps lists, bitmap, timers, mutexes, semaphores, queues, events and joins in order, and, but for the two calls without a scheduler call, the most urgent thread running or a request pending |
| Ipc.LeastPrioIs | kernel/nd_mutex.c:32-43 | the priority found is no less urgent than any of those given and is one of them |
| Ipc.SatisfiedMeans | kernel/nd_event.c:17-25 | satisfied means that all bits of the mask are set, or at least one |
| Effects.LooksAgain | kernel/nd_queue.c:36-51 | coming back without a timeout from a wait for room, a message or a block is making the call again |
| Effects.QueueStep | kernel/nd_queue.c:31-105 | a send returns EOK exactly if there is room and puts its message behind those stored, a receive exactly if there is a message and takes the first; full or empty they are refused or wait; no other step of any kind changes a queue or its logs |
| Effects.RunFifo | kernel/nd_queue.c:31-105 | in every run the messages of the sends that returned EOK, those finished behind a wait included, are the messages received and behind them the messages stored, in order, never more than the queue holds |
| Effects.RunLogs | kernel/nd_queue.c:53-94 | the logs kept with a queue are the messages sent and received by the calls of the run that returned EOK |
| Effects.SemStep | kernel/nd_sem.c:17-58 | a take gets a unit at once exactly if there is one; a release without waiters adds one, with waiters hands one over; no other step of any kind changes a semaphore |
| Effects.RunUnits | kernel/nd_sem.c:17-58 | in every run the value grows by the releases called and shrinks by the units given, to takes at once or to takers woken by a release, and is never brought below zero |
| Effects.PoolStep | kernel/nd_mempool.c:36-85 | an allocation gets one block exactly if one is free, a block given back is one more, and no other step changes a pool |
| Effects.RunBlocks | kernel/nd_mempool.c:36-85 | in every run the free blocks are those there were and those given back less those allocated |
| Effects.EventStep | kernel/nd_event.c:38-87 | a receive is granted at once exactly if all of its bits are set, or one of them, and then clears them all; a send adds its bits; no other step changes an event |
| Effects.EventRecvAsks | kernel/nd_event.c:66-67 | a receive leaves the mask and option of the call in the control block |
| Effects.LockStep | kernel/nd_mutex.c:72-106 | a lock takes a free mutex and refuses its owner; otherwise it lends the priority of the caller and records it in the mutex exactly if the owner is less urgent, and is refused or waits; no other priority, owner or taken list changes |
| Effects.UnlockStep | kernel/nd_mutex.c:45-70 | only the owner can unlock; the mutex gets free and its recorded priority is reset, or its first waiter owns it; no other owner, taken list or priority changes but the own one of the caller |
| Effects.RefusedKeeps | kernel/nd_sem.c:46-49 | a call that returns an error or a timeout leaves every object alone, but for the priority a lock attempt lends and records |
| Waits.StepTurns | kernel/nd_thread.c:34-220 | for every step and every thread: exactly who begins to wait and in which call, who is given what it waits for, whose wait its timer or a suspension ends, who is stopped, resumed or ended, and with which report |
| Waits.GivenGot | kernel/nd_thread.c:111-124 | who is given what it waits for got it in that step: a unit counted, the mutex, room, a message, a block, bits that were set at its turn and are no longer, or the end of the thread joined |
| Returns.WaitEnded | kernel/nd_thread.c:55-160 | in every run a thread found behind a wait had it ended at one step, was since stopped and resumed at most, and carries the report of that step |
| Returns.ReturnBy | kernel/nd_queue.c:46-50 | a timeout is returned with every object as it was, by every call that waits; without one a take, lock, event receive or join returns EOK and a queue or pool call is made anew |
| Returns.ReturnTells | kernel/nd_sem.c:51-57 | in every run from the first dispatch a call returns a timeout exactly if its timer ended the wait, with every object as it was; a take, lock, event receive or join that returns EOK was given its unit, mutex, bits or ended thread at the step that ended its wait, unless that was a suspension |
| Inheritance.InsertSorted | kernel/nd_thread.c:81-93 | the wait list stays ordered by priority, and by arrival among equals |
| Inheritance.LockInherits | kernel/nd_mutex.c:72-106 | after a lock every owner is as urgent as its waiters and every wait list in order exactly unless the boosted owner itself waits: for a mutex whose owner is less urgent than the caller, or behind a waiter it should now precede |
| Inheritance.UnlockInherits | kernel/nd_mutex.c:45-70 | after an unlock they are exactly unless a waiter of a mutex the caller still holds is more urgent than the initial priority of the caller and than every priority recorded in the mutexes it still holds |
| Inheritance.StepInherits | kernel/nd_mutex.c:19-106 | a step of any kind keeps inheritance exactly if it is not such a lock or unlock, with any nesting of mutexes |
| Inheritance.AloneHarmless | kernel/nd_mutex.c:19-106 | no step does harm when no thread holds two mutexes, or holds one while it waits for another |
| Wakeups.TurnCovered | kernel/nd_queue.c:53-63 | a message stored or taken leaves both wait lists covered |
| Wakeups.AllocCovered | kernel/nd_mempool.c:41-61 | an allocation leaves the wait list covered |
| Wakeups.StepCovered | kernel/nd_queue.c:31-105 | while threads wait, the messages, slots or blocks on offer never exceed the threads woken for them, and not suspended while they waited, that have still to look again |
| Runs.RunSound | kernel/nd_scheduler.c:43-235 | the kernel invariants hold after every run |
| Runs.RunUrgent | kernel/nd_scheduler.c:227-235 | in every run without the two calls, the most urgent thread runs whenever no interrupt is open |
| Runs.RunInherits | kernel/nd_mutex.c:19-106 | inheritance holds at every state of a run, with any nesting, exactly if no step of it does harm |
| Runs.DisciplinedInherits | kernel/nd_mutex.c:72-106 | in every run whose threads lock only while holding nothing no step does harm, and no owner is ever less urgent than a waiter |
| Runs.RunCovered | kernel/nd_queue.c:31-105 | no wake-up is lost in any run that aborts nobody between wake-up and retry |
| Runs.BootSound | kernel/nd_scheduler.c:23-41 | the state of the first dispatch satisfies all of these |
| Instances.NestedUnlockFails | kernel/nd_mutex.c:32-43 | a run of six calls from the first dispatch after which an owner is less urgent than the thread waiting for it, as its boost went unrecorded |
| Instances.ChainedLockFails | kernel/nd_mutex.c:89-92 | another, in which the boost of an owner that waits itself is not passed on |
| Instances.UnlockOmissionHappens | kernel/nd_mutex.c:58-60 | a run of five calls after which an unlock without waiters leaves a thread running while a more urgent one is ready |
| Instances.AbortOmissionHappens | kernel/nd_thread.c:213-219 | a run of four calls after which an abortion does |
| Instances.CutJoinReturns | kernel/nd_thread.c:371-375 | a run of five calls after which a suspended and resumed join returns EOK while the thread joined lives |
| Joins.StepOnward | kernel/nd_thread.c:180-220 | no step brings back a dead thread or takes a thread out of a join with EOK, other than by suspension, before the thread joined is dead |
| Joins.RunOnward | kernel/nd_thread.c:180-220 | nor does any run |
| Joins.JoinReturns | kernel/nd_thread.c:344-376 | in every run from the first dispatch, a join that returns EOK and was not suspended finds the thread joined dead |
| Laws.Membership | kernel/nd_scheduler.c:43-82 | a thread is in exactly the list its status dictates, once, and bit p is set exactly when ready list p has a thread |
| Laws.WaitsEndOnce | kernel/nd_thread.c:55-66 | an armed timer implies the thread is blocked in that very wait, and every wait begun has ended exactly once unless the thread is still blocked |
| Laws.LockReturns | kernel/nd_mutex.c:99-106 | a lock that returns owns the mutex exactly if it returns EOK and the thread was not suspended while waiting |
| Laws.Ownership | kernel/nd_mutex.c:32-106 | owner and taken list agree, waiters imply an owner, priorities never exceed the initial one and return to it |
| Laws.Units | kernel/nd_sem.c:17-58 | no unit is idle while a thread waits, and value plus grants is the initial value plus releases; that the two histories are what the calls of a run did is Effects.RunUnits |
| Laws.UnlockOmission | kernel/nd_mutex.c:58-60 | the missing scheduler call leaves the right thread running after an unlock without waiters exactly if every ready thread finds a priority as urgent as its own in the initial priority of the owner or recorded in a mutex it still holds |
| Laws.UnlockFalls | kernel/nd_mutex.c:32-56 | an unlock by the owner leaves it at its initial priority or one recorded in a mutex it still holds, whichever is most urgent |
| Laws.NoneOverlooked | kernel/nd_event.c:47-52 | of every waiter a bit is missing, if it wants all, or every bit |
| Laws.AbortOmission | kernel/nd_thread.c:213-219 | exactly when it does after the abortion of another thread |
| Laws.RequestsSurvive | kernel/nd_scheduler.c:227-235 | a request made inside an interrupt survives until the outermost exit, and no thread is switched before |
| Laws.WakesFirst | kernel/nd_thread.c:111-124 | the first waiter is woken, the others keep their order, and it queues behind its ready peers |
| Laws.ReleaseServesFirst | kernel/nd_sem.c:24-30 | a release with waiters hands its unit to the first of them |
| Laws.UnlockServesFirst | kernel/nd_mutex.c:61-64 | an unlock with waiters makes the first of them the owner |
| Laws.SendServesFirst | kernel/nd_queue.c:53-62 | a send wakes the first waiting reader |
| Laws.RecvServesFirst | kernel/nd_queue.c:91-100 | a receive takes the oldest message and wakes the first waiting sender |
| Laws.FreeServesFirst | kernel/nd_mempool.c:75-82 | a block given back wakes the first waiting allocator |
| Laws.TimeoutReports | kernel/nd_thread.c:55-66 | a wait ended by its timer is off every wait list and reports the timeout |
| Laws.YieldRotates | kernel/nd_scheduler.c:298-305 | a yield passes the processor to the first ready peer and puts the caller behind the last; without a peer nothing happens but that the flag stays set |
| Laws.RoundRobin | kernel/nd_scheduler.c:118-149 | threads of one priority that yield to each other run in turn, and the line is as before once each has run |
| Laws.SliceAsks | kernel/nd_scheduler.c:237-257 | a slice timer asks for a rotation exactly if it is that of the current thread and a thread of its priority is ready, and does nothing otherwise |
| Laws.SliceRotates | kernel/nd_scheduler.c:237-287 | the end of the interrupt then hands the processor to the first peer and puts the thread behind the last |
| Laws.WaitsBehind | kernel/nd_thread.c:81-109 | a caller that has to wait is linked behind everyone up to the first that is less urgent |
| Laws.CreateMakes | kernel/nd_thread.c:222-315 | a new thread has the priority and option given, is in no call and holds nothing; nobody else changes but for who runs |
| Laws.CreateRuns | kernel/nd_thread.c:279-315 | a new thread runs at once if it is more urgent than the caller, and is last of its ready list otherwise |
| Laws.SuspendResume | kernel/nd_thread.c:34-53 | a ready thread suspended and resumed comes back as it was, behind its peers |
| EventOrder.SendIsGreedy | kernel/nd_event.c:38-59 | a waiter is served exactly if the bits left at its turn in list order hold all of its mask, or a bit of it; which bits are left; and those who stay lack a bit, or all, of theirs |
| EventOrder.EachBitOnce | kernel/nd_event.c:46-51 | each bit set is consumed by at most one waiter or left over, and no bit appears |
| EventOrder.ServedAt | kernel/nd_event.c:17-25 | a waiter is served exactly when the bits left by those before it include its mask, or meet it, and takes away what it asked for |
| Rings.Queues.Remove | include/nd_list.h:35-41 | on a qnode alone, with the list it is on not named: every ring stays a ring, that list loses exactly the thread, and its next pointer is null |
| Rings.Queues.InsertBefore | include/nd_list.h:27-33 | the list gains the thread at the place of the node, every other ring untouched |
| Rings.Queues.InsertFirst | include/nd_list.h:19-25 | the list gains the thread at its front |
| Rings.Queues.IsLinked | include/nd_list.h:48-51 | a null next pointer means exactly that the thread is on no list |
| Rings.Queues.IsEmpty | include/nd_list.h:43-46 | a head that leads to itself means exactly that the list is empty |
| Rings.Queues.First | include/nd_list.h:66-67 | container_of on the first node is the first thread of the list |
| KernelMachine.Kernel.constructor | kernel/nd_scheduler.c:23-41 | the memory set up before the first dispatch stands for Boot |
| KernelMachine.Kernel.ListRemove | include/nd_list.h:35-41 | unlinking a node in the rings is Unlink on the lists they stand for |
| KernelMachine.Kernel.LinkBefore | include/nd_list.h:27-33 | linking a node in is LinkAt |
| KernelMachine.Kernel.GetHighest | kernel/nd_scheduler.c:84-91 | reads a ring only where the bitmap says it has a node, and finds Highest |
| KernelMachine.Kernel.SchedulePickNext | kernel/nd_scheduler.c:118-149 | the yield flag cleared in the decision and the placement behind it together are PickNext |
| KernelMachine.Kernel.WaitPlace | kernel/nd_thread.c:81-93 | the walk along the ring stops at the node of WaitPos, or back at the head |
| KernelMachine.Kernel.EndWait | kernel/nd_thread.c:111-124 | fields written before or after the unlinking, and an unlinking only of a linked node, make Awaken |
| KernelMachine.Kernel.Wakeup | kernel/nd_thread.c:111-124 | the thread of the first node is woken, never on an empty list |
| KernelMachine.Kernel.RestorePriority | kernel/nd_mutex.c:32-43 | the loop leaves a priority no less urgent than the initial one and those recorded in the mutexes still held, and equal to one of them |
| KernelMachine.Kernel.EventVisit | include/nd_list.h:74-79 | the walk with the saved next pointer meets exactly the waiters at its start, in order, though served nodes are unlinked and linked elsewhere under it, and does EventWalk |
| KernelMachine.Kernel.WakeJoiners | kernel/nd_thread.c:209-211 | the loop over a list it empties does WakeAll |
| KernelMachine.Kernel.Execute | kernel/nd_scheduler.c:43-235 | every step of the machine, on rings and memory, is the step of the model, and keeps every invariant |
| KernelMachine.Kernel.Drive | kernel/nd_scheduler.c:43-235 | so is every run |
| RingQueue.AcceptsPowers | kernel/nd_queue.c:11-14 | the test in nd_queue_init accepts exactly the powers of two |
| RingQueue.MaskIsRemainder | kernel/nd_queue.c:53 | masking an index with the depth less one is the remainder |
| RingQueue.WrapKeepsSlot | kernel/nd_queue.c:53-56 | wrapping an index past 2^32 does not change its slot |
| RingQueue.Ring.TrySend | kernel/nd_queue.c:53-56 | stores the message behind the unread ones, exactly if the queue is not full |
| RingQueue.Ring.TryRecv | kernel/nd_queue.c:91-94 | takes out the oldest unread message, exactly if there is one |
| RingQueue.Ring.Run | kernel/nd_queue.c:31-105 | over any number of sends and receives what comes out is what went in, in order |
| MemPool.Pool.Lay | kernel/nd_mempool.c:20-31 | the loop threads every block once into the free chain |
| MemPool.Pool.Take | kernel/nd_mempool.c:56-58 | hands out the head of the chain, a block that is not out |
| MemPool.Pool.GiveBack | kernel/nd_mempool.c:75-77 | the block becomes the head of the chain again |
| MemPool.Pool.Store | kernel/nd_mempool.c:56-62 | writing inside a block that is out never disturbs the chain |
| MemPool.Pool.Run | kernel/nd_mempool.c:36-85 | over every run the chain has exactly free_count distinct blocks, none of them out |
| MemPool.ChainMatchesSize | kernel/nd_mempool.c:14-29 | the chain lies where the rounded block size says exactly when the size is a multiple of the word or there is at most one block |
| Slices.Slice.Drive | kernel/nd_scheduler.c:179-257 | over any sequence of dispatches, switches, rotations, timer callbacks with and without a peer, and delays, what is left is the slice less the time run against peers since it was last full, and the timer is set for exactly that |
| Slices.Slice.Quantum | kernel/nd_scheduler.c:208-218 | dispatched after any number of preemptions, the thread has run for exactly its slice at the moment its timer fires |
| Slices.PreemptedRan | kernel/nd_scheduler.c:190-201 | short of its slice, a preempted thread has been charged the sum of its dispatches |

## Left out

- Context switch assembly, stack frames, interrupt controllers and board code under `arch/` and `bsp/`; kept is that a switch saves one thread and runs another.
- The tickless branch of the timer queue: the programming of a hardware timer.
- The shell, the unit tests, `ps`, and the formatted output and string functions.
- `rb_augment_*`, `rb_replace_node`, `rb_last`, `rb_prev`: not called by the modelled files.
- Fairness among peers: the slice timer is armed only if a peer is ready at dispatch, so no bound follows from the code.
- Thread names, stack watermarks and the wrappers around the system heap.
- The clock: `now` is a parameter, fixed during one run of the expiry loop; timer callbacks are lists of start and stop calls.
- Time in the thread model: an armed thread timer may fire at any time inside an interrupt, which covers every timeout value.
- Slices in the thread model: their accounting is a model of its own, and a slice may expire at any time inside an interrupt.
- `nd_sem_init` and the other init functions on objects in use; objects start out as `Boot` sets them up, absent ones empty.
- Blocking calls made inside interrupts, and calls on threads that were never created.
- The list of mutexes a thread holds stays a sequence in the class; list heads are initialised when first used.
- The steps behind an `Overrun` or `Corrupted` outcome of the heap.
- Re-creation of a dead thread on the same storage.
- Ipc.SemRelease: does not model the overflow of the 32-bit value, which takes 2^31 releases without a take.
- KernelCore.Unlink: the function leaves an unlinked thread alone; that the code never unlinks one is a precondition of KernelMachine.Kernel.ListRemove.
- MemCopy.Copy: models the little-endian path; the big-endian one swaps the two shift directions.
- RbTree.RbRoot.Erase: keeps parent and colour as separate fields; RbWord relates them to the packed word.
- MemPool.Pool.constructor: takes sizes that are a multiple of the word, as the chain and the size kept agree only then.
