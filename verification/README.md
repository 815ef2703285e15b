# A verified model of the libhermitMPK kernel core

libhermitMPK is a Rust unikernel that isolates parts of itself with memory protection keys. This project models the
parts of it that are hardest to get right and proves what they promise:

- **Heap** (`Holes`, `HoleMemory`, `Heap`): the first-fit allocator, its list of holes stored inside the free memory,
  and every run of allocations and frees on it.
- **Page frames, address ranges and the page table** (`DoublyLinkedList`, `FreeList`, `PageEntry`, `PageWalk`,
  `PageUpdate`, `SelfMap`, `TableEntries`, `PageRange`, `Paging`, `Translation`, `MemoryManager`, `HeapPages`): the
  four-level page table is a radix tree in physical memory that the kernel reaches only through the self-reference in
  slot 511. The processor's walk (section 4.5 of the Intel SDM, volume 3A) gives each address its entry; `map` is proved
  to be an update of that flat view, and `allocate` and `deallocate` to keep live blocks apart in both address spaces.
- **Scheduler and blocking** (`Registry`, `Kernel`, `KernelSafety`, `KernelTheorems`, `KernelSync`,
  `KernelCounts`, `KernelWaiters`, `KernelOrders`, `KernelQueues`, `KernelTimer`, `KernelJoin`, `KernelJoiners`,
  `KernelGone`, `KernelCycles`, `KernelQuiet`, `KernelRuns`, `KernelLimits`, `KernelInterrupts`): a step system over any
  number of cores, with one step per locked section.
  The scheduler's unlocked read of the current status and its decision are two steps, so are the two halves of a wakeup,
  of `spawn`, of `cleanup_tasks` and of a mutex wait, and a timer interrupt can come wherever interrupts are on: in the
  code of a task, in the middle of `spawn`, while a task holds the spinlock of a mutex, and inside a call of the
  scheduler by `join` or `exit`. The invariant holds in every run without two kinds of step (`KernelSafety.Tame`).
  What a run leaves behind is compared with what its actions asked for: semaphores and mutexes with the calls on them,
  tasks with the calls that created them, sleepers with the times they gave and the interrupts that came, joiners with
  the calls of `exit`.
  `KernelCycles` says which tasks never run again: those whose chain of waits runs into a cycle or comes to a dead end.
  `KernelLimits` and `KernelInterrupts` hold what an interrupt, a spawn on another core or a timed wait can break, each
  with the exact condition and a run from boot.
- **The scheduler as code** (`TaskLinks`, `KernelChains`, `KernelMachine`): the ready queues of all cores and the wait
  queues of all semaphores and mutexes as chains through the two links that every task has, with heads, tails and
  bitmaps, changed in place. Every method is shown to be one step of the step system and to keep all chains in order
  together, and `KernelMachine.Machine.Replay` does so for every tame run.
- **Queues of tasks** (`TaskQueue`, `BlockedQueue`): the intrusive priority queue with its bitmap, and the list of
  blocked tasks ordered by wakeup time with its one-shot timer.
- **Locks** (`TicketLock`, `IrqLock`): the ticket lock modulo 2^64 and its variant that saves the interrupt flag.
- **Calendar** (`SystemTime`): two independently derived date algorithms, checked against a count of days that follows
  the rules of the Gregorian calendar.

`Alignment`, `Options` and `Priorities` hold shared arithmetic, the optional value and the number of priorities.
`dafny verify dfyconfig.toml` checks the whole project.

## What the code does, and what its comments say

Where the two disagree the model follows the code, and a lemma says exactly when the promise holds:

- `FreeList::deallocate` never joins a freed block with both of its neighbours (`FreeList.CoalescedUnlessGapFilled`).
- `PriorityTaskQueue::remove` does not update the tail (`TaskQueue.QueueHead.Unlink`), so the next task that is pushed
  can be lost, the same one included (`TaskQueue.QueueHead.Append`, `TaskQueue.RemovedTailLosesTask`), and its bit can
  hide all tasks of lower priorities from `pop` (`TaskQueue.PriorityTaskQueue.Push`, `TaskQueue.RemovedTailHidesTasks`).
- The timer handler makes a task ready that may still be in the wait queue of a semaphore, and both queues use the same
  links (`KernelLimits.ExpiryLinksTwice`, `KernelLimits.TimedWaitLinksTwice`). Timed waits that are served in time do no
  harm.
- `spawn` pushes the new task before it registers it. On another core, or after an interrupt on the same one, the task
  can finish and be cleaned up in between; it is then never removed, and whoever joins it waits for ever
  (`KernelLimits.ForgetLosesUnregistered`, `KernelLimits.RemoteSpawnLosesJoiner`, `KernelLimits.LocalSpawnLosesJoiner`).
  Joiners are woken if every spawn is for the spawning core and is made with interrupts off
  (`KernelJoin.JoinersAreWoken`); neither half of the condition can be dropped.
- `join` and `exit` call the scheduler with interrupts on. An interrupt between the read of the status and the decision
  can lose the joining task (`KernelInterrupts.StaleDecisionLosesTask`, `KernelInterrupts.LateInterruptLosesTask`). One in
  the middle of `cleanup_tasks` loses the task that is being cleaned up, and all its joiners, exactly if the interrupted
  task had finished (`KernelInterrupts.InterruptedExitLosesJoiner`) or itself waits for ever, in the shortest case for
  the very task that it was to clean up (`KernelInterrupts.InterruptedCleanupLosesTask`,
  `KernelInterrupts.InterruptedJoinLosesJoiner`). `reschedule` switches interrupts off and has neither problem
  (`KernelQuiet.QuietRunsAreTame`).
- `RecursiveMutex` leaves interrupts on while it holds its spinlock. One that comes when a task has blocked itself and has
  yet to enter the wait queue loses the task, and nobody can lock or unlock the mutex any more
  (`KernelInterrupts.InterruptedLockLosesTask`, `KernelInterrupts.InterruptedLockHoldsUpMutex`).
- `virtual_to_physical` finds the entries of the lower half only (`Translation.EntryPointerExact`): for every address of
  the upper half the first pointer leads to the lower half (`Translation.UpperHalfLeaves`); the result would also keep bit
  63 of the address.
- `custom_wakeup` sets the timer of the core that calls it, not of the core that owns the list
  (`BlockedQueue.RemoteWakeupTimer`, `BlockedQueue.RemoteWakeupExample`).
- A lock that is not dropped in the order of nesting can switch interrupts on while another is held
  (`IrqLock.DropQuietIff`, `IrqLock.DropFirstExample`).
- `set` cannot see whether a huge entry is for 2 MiB or 1 GiB and checks only the weaker alignment
  (`Translation.PhysicalAddressAgrees`, `Translation.MappedTranslates`, `Translation.MisalignedExample`).
- `map` and its relatives for a page that lies inside a larger page take the memory of that page for a table: the store
  goes there, and no translation changes unless that memory is a table that its walk reads
  (`TableEntries.LargerPageCell`, `TableEntries.StoreInLargerPage`, `TableEntries.StoreTwoBelow`).
- `extend_by` keeps the heap aligned for the headers of holes exactly if the size is a multiple of 8
  (`Heap.Heap.ExtendBy`).
- The bootstrap allocator ignores the alignment of the layout, and after one failed allocation the next one stops the
  kernel (`Heap.Heap.AllocBootstrap`).

## Model

| member | source | states |
|---|---|---|
| `Alignment.AlignDown` | src/macros.rs:9-13 | the result is the multiple of the alignment at or below the value |
| `Alignment.AlignUpLeast` | src/macros.rs:15-19 | `align_up!` gives the least multiple that is not below the value |
| `Holes.CanonicalUnique` | src/mm/hole.rs:227-310 | two hole lists that are sorted, without touching neighbours and with holes of at least 64 bytes are equal if they have the same free bytes |
| `Holes.SplitIsLeastAdmissible` | src/mm/hole.rs:140-192 | a hole is split at the least address that is aligned and leaves no front or a front that can be a hole, exactly if the block fits there with no rest or a rest that can be a hole; front, block and back make up the hole |
| `Holes.SplitFindsPlace` | src/mm/hole.rs:140-192 | a hole is split at `p` exactly if `p` is the first aligned address that is its start or at least 64 bytes behind it, and the block ends with the hole or at least 64 bytes before |
| `Holes.SplitParts` | src/mm/hole.rs:140-192 | the block has the requested size and alignment and lies in the hole; paddings are at least 64 bytes and adjacent to it |
| `Holes.SplitAligned` | src/mm/hole.rs:140-192 | with a power-of-two alignment and a size that is a multiple of 8, the block and the rest stay 8-aligned |
| `HoleMemory.HoleList.constructor` | src/mm/hole.rs:29-38 | one hole that covers the given memory, reachable from the dummy hole through the header in memory |
| `HoleMemory.HoleList.AllocateFirstFit` | src/mm/hole.rs:46-58 | fails, with headers unchanged, exactly if no hole can be split; otherwise the block comes from the first hole that can, exactly its bytes stop being free once both paddings are freed back, and the headers in memory form a canonical list |
| `HoleMemory.HoleList.Deallocate` | src/mm/hole.rs:227-310 | reaches the failing assertion exactly for blocks under 64 bytes or an address inside a hole, before any change; otherwise exactly the block's bytes become free and the list stays canonical; the loop ends because the rest of the list shrinks |
| `Heap.StepKeeps` | src/mm/allocator.rs:94-133 | every allocation, free and extension keeps live blocks disjoint and makes holes and live blocks partition the heap |
| `Heap.RunKeeps` | src/mm/allocator.rs:94-161 | the partition holds after every step of every run, and so does the alignment of holes and blocks if the heap starts aligned and is extended by multiples of 8 |
| `Heap.HoleListDetermined` | src/mm/allocator.rs:94-161 | at any two moments of a run with the same live blocks the hole lists are the same, whatever happened in between |
| `Heap.AllFreedIsOneHole` | src/mm/allocator.rs:116-133 | after any run that has freed all blocks, in any order, the heap is a single hole |
| `Heap.LiveBlocksCanBeFreed` | src/mm/hole.rs:227-310 | freeing a live block never trips the assertion |
| `Heap.TopCanBeFreed` | src/mm/allocator.rs:155-161 | the memory behind the heap is never in a hole, so an extension can free it |
| `Heap.RoundedLeast` | src/mm/allocator.rs:98-102 | the size that is allocated is the least multiple of 8 that is at least 64 and at least the requested size |
| `Heap.FirstFitIsFirstPlace` | src/mm/allocator.rs:94-107 | the block of a first fit lies at its place in the first hole that has one |
| `Heap.Heap.constructor` | src/mm/allocator.rs:37-46 | an empty heap, which serves allocations from the bootstrap area |
| `Heap.Heap.Init` | src/mm/allocator.rs:55-59 | an initialised heap is one hole over the given memory and has no live block; it is aligned exactly if its address and its size are |
| `Heap.Heap.AllocBootstrap` | src/mm/allocator.rs:76-87 | the block is at the index, which moves on to the least multiple of 64 behind the block; the call fails exactly if that is 4096 or more, and stops the kernel exactly if the index was |
| `Heap.Heap.AllocateFirstFit` | src/mm/allocator.rs:94-107 | for the least multiple of 8 that is at least 64 and the requested size: fails exactly if no hole has a place for a block of this size, and changes nothing then; otherwise the block is at its place in the first hole that has one, exactly its bytes stop being free, and it is a live block of this size |
| `Heap.Heap.Deallocate` | src/mm/allocator.rs:116-133 | a live block is freed by exactly one free step; blocks below the end of the kernel are left alone |
| `Heap.Heap.ExtendBy` | src/mm/allocator.rs:155-161 | succeeds exactly for 64 bytes or more, and is then one extension step; an aligned heap stays aligned exactly if the size is a multiple of 8 |
| `DoublyLinkedList.List.Push` | src/collections/doublylinkedlist.rs:55-78 | appends the node to the sequence of nodes; all links, head and tail agree with it |
| `DoublyLinkedList.List.InsertBefore` | src/collections/doublylinkedlist.rs:80-108 | inserts the node right before the given one |
| `DoublyLinkedList.List.InsertAfter` | src/collections/doublylinkedlist.rs:110-138 | inserts the node right behind the given one |
| `DoublyLinkedList.List.Remove` | src/collections/doublylinkedlist.rs:140-165 | removes exactly the given node and clears its links |
| `DoublyLinkedList.List.Advance` | src/collections/doublylinkedlist.rs:187-198 | the iterator stands at the successor of the node that it yields |
| `DoublyLinkedList.List.RemoveEach` | src/scheduler/task.rs:551-558 | a loop that removes each node the iterator yields visits every node exactly once and in order, and leaves the list empty |
| `FreeList.FreeList.constructor` | src/mm/freelist.rs:29-35 | a list of the given sorted regions |
| `FreeList.FreeList.Allocate` | src/mm/freelist.rs:37-68 | takes exactly the block at the start of the first region that holds it; fails, unchanged, exactly if no single region does |
| `FreeList.FreeList.AllocateAddress` | src/mm/freelist.rs:71-110 | takes exactly the given block, exactly if the region contains it, splitting the region as needed |
| `FreeList.FreeList.AllocateAligned` | src/mm/freelist.rs:112-131 | takes exactly the block at the first aligned address of the first region that holds it from there; fails, unchanged, exactly if none does |
| `FreeList.FreeList.Reserve` | src/mm/freelist.rs:133-152 | takes exactly the given block, exactly if some region contains it |
| `FreeList.FreeList.Deallocate` | src/mm/freelist.rs:154-215 | the loop computes the specified list; for a block without free bytes exactly its bytes become free and regions stay sorted, disjoint and nonempty |
| `FreeList.DeallocatedGives` | src/mm/freelist.rs:154-215 | whichever case applies, freeing adds exactly the block to the free bytes and keeps the regions sorted |
| `FreeList.CoalescedUnlessGapFilled` | src/mm/freelist.rs:174-196 | freeing leaves no touching regions exactly if the block does not fill the gap between two regions |
| `FreeList.GapExample` | src/mm/freelist.rs:174-196 | freeing the page between two free pages leaves two regions that touch |
| `FreeList.CarveTakes` | src/mm/freelist.rs:71-110 | cutting a block out of a region takes exactly its bytes |
| `PageEntry.PackFields` | src/arch/x86_64/mm/paging.rs:134-198 | an entry gives back the address, the key and each single flag it was set to; present, user and accessed are always set |
| `PageEntry.WithKeyFields` | src/arch/x86_64/mm/paging.rs:483-499 | changing the key keeps address and low flags; a key of 16 or more can set the execute-disable bit as well, and the lemma says when |
| `PageEntry.WithKeyLow` | src/arch/x86_64/mm/paging.rs:559-576 | for every word and key, the address and the low twelve bits are kept |
| `PageWalk.NumberStep` | src/arch/x86_64/mm/paging.rs:309-312 | the table indices of an address are the digits of its page number in base 512 |
| `PageWalk.WalkLevel` | src/arch/x86_64/mm/paging.rs:219-243 | translation ends at a present entry, and above the page table only at a huge one |
| `PageUpdate.SetPage` | src/arch/x86_64/mm/paging.rs:424-444 | storing the entry of a page changes the translation of the addresses of this page, to the stored entry, and of no other address; the tree stays well formed |
| `PageUpdate.AddTable` | src/arch/x86_64/mm/paging.rs:594-605 | linking a new table of zeros changes the translation of no address |
| `PageUpdate.LinkedWf` | src/arch/x86_64/mm/paging.rs:594-605 | the tree with the new table is well formed and each table has a frame of its own |
| `PageUpdate.DownLinked` | src/arch/x86_64/mm/paging.rs:600-605 | whatever a new frame holds before it is cleared, its table is reached through the tables above it |
| `SelfMap.TableVaIndex` | src/arch/x86_64/mm/paging.rs:624-632 | the shifted address of a table consists of index 511 followed by the indices that lead to the table |
| `SelfMap.TableWalk` | src/arch/x86_64/mm/paging.rs:624-632 | for every level, the processor translates the shifted address to the table that the tree holds for the page |
| `SelfMap.TableCell` | src/arch/x86_64/mm/paging.rs:624-632 | the address of entry `i` of that table reaches entry `i` of its frame |
| `TableEntries.AlikeWalk` | src/arch/x86_64/mm/paging.rs:219-243 | tables whose entries lead to the same tables and map the same pages translate every address alike |
| `TableEntries.LinkKey` | src/arch/x86_64/mm/paging.rs:559-576 | a new key in an entry that leads to a table, the self-reference included, keeps the tree and every translation |
| `TableEntries.LargerPageCell` | src/arch/x86_64/mm/paging.rs:621-632 | below any present entry the computed address reaches the memory at the address in the entry, so for a huge entry a word of that page |
| `TableEntries.StoreInLargerPage` | src/arch/x86_64/mm/paging.rs:583-614 | the store of an entry for a page inside the next larger page goes to the first frame of that page; every address whose walk does not read the stored word is translated as before, and no walk reads it unless that frame is a table |
| `TableEntries.StoreTwoBelow` | src/arch/x86_64/mm/paging.rs:583-614 | for a 4 KiB page inside a 1 GiB page the processor takes the entry of the page for one of 2 MiB, so the store goes to another frame of the page, with the same effect on translations |
| `PageRange.SamePage` | src/arch/x86_64/mm/paging.rs:276-297 | two valid addresses take the same way through the tables exactly if they lie in the same page |
| `PageRange.LastIsFirst` | src/arch/x86_64/mm/paging.rs:746-750 | the range from the first to the last page has exactly `count` pages |
| `PageRange.PlainIsUsable` | src/arch/x86_64/mm/paging.rs:276-278 | the addresses outside the self-mapped slot are those below its start, among the valid ones |
| `Paging.PageTables.Read` | src/arch/x86_64/mm/paging.rs:624-632 | a load through the self-mapped address returns the entry of the table |
| `Paging.PageTables.Write` | src/arch/x86_64/mm/paging.rs:624-632 | a store through the self-mapped address changes exactly that entry of that table |
| `Paging.PageTables.Clear` | src/arch/x86_64/mm/paging.rs:600-605 | the loop through the address of the new table clears all of its frame and nothing else |
| `Paging.PageTables.LinkTable` | src/arch/x86_64/mm/paging.rs:594-605 | takes a free frame for a table, whose entry is present, writable, for user mode, executable and without a key; no address changes its translation and no entry below appears; fails only if no frame is free |
| `Paging.PageTables.MapPageHere` | src/arch/x86_64/mm/paging.rs:424-444 | exactly the addresses of the page get the new entry, which says the address and each flag that was asked for, and is present, accessed, dirty, for user mode and huge if the page is; no other entry of the level changes; the result says whether there was an entry |
| `Paging.PageTables.MapPage` | src/arch/x86_64/mm/paging.rs:583-614 | as above, through all levels and with new tables where they are missing; frames move only from the free list to the tables |
| `Paging.PageTables.MapPages` | src/arch/x86_64/mm/paging.rs:642-659 | the loop updates the flat view of the address space: every address of the range is mapped in order by an entry with each flag that was asked for, all others as before; the TLBs are flushed exactly if some page of the range had an entry, so whenever an address of it was mapped; it stops short only when frames for tables run out |
| `Paging.PageTables.Map` | src/arch/x86_64/mm/paging.rs:829-845 | the same for `count` pages from the page of any address |
| `Paging.PageTables.GetEntry` | src/arch/x86_64/mm/paging.rs:524-539 | returns the entry of the tree at the level of the page size, or none |
| `Paging.PageTables.SetKey` | src/arch/x86_64/mm/paging.rs:559-576 | fails exactly if the entry is not present; otherwise exactly the addresses of the page get the key, or none if the entry leads to a table; no page gains or loses its entry |
| `Paging.PageTables.SetKeys` | src/arch/x86_64/mm/paging.rs:768-775 | the loop stops at the first page without an entry; exactly the pages before it that are mapped with this size get the key, all other translations are as before |
| `Paging.PageTables.SetSelfKey` | src/arch/x86_64/mm/paging.rs:877-883 | for the page at which the PML4 appears, every level leads back to the PML4 and exactly its self-reference gets the key; the tree stays well formed and all other addresses are translated as before |
| `Paging.LeafIsEntry` | src/arch/x86_64/mm/paging.rs:524-539 | the entry that the tree walk finds is the one the processor uses, exactly if it maps a page of this size |
| `Paging.PageSays` | src/arch/x86_64/mm/paging.rs:424-444 | the entry that `map` stores for a page has the address, writable, execute-disable, write-through, cache-disable and global flag and key that were asked for, is present, accessed, dirty and for user mode, and is huge exactly if asked for or if the page is large |
| `Paging.MappedPages` | src/arch/x86_64/mm/paging.rs:642-659 | the flat view of a mapped range says this of the entry of every address in it |
| `Paging.LinkedEntries` | src/arch/x86_64/mm/paging.rs:594-605 | a new table of zeros makes no entry appear or vanish below it |
| `Translation.EntryPointerExact` | src/arch/x86_64/mm/paging.rs:804-809 | for a valid address the pointer, computed modulo 2^64, is the address of the entry in the self-mapped region exactly if the address is in the lower half |
| `Translation.UpperHalfLeaves` | src/arch/x86_64/mm/paging.rs:804-809 | for every address of the upper half the first pointer leads to the lower half |
| `Translation.UpperHalfExample` | src/arch/x86_64/mm/paging.rs:804-809 | the first address of the upper half, with the pointer and the address of its entry |
| `Translation.VirtualToPhysical` | src/arch/x86_64/mm/paging.rs:791-822 | for every mapped address of the lower half and every page size, the computed pointers reach the right entries and the result is the processor's translation |
| `Translation.GetPhysicalAddress` | src/arch/x86_64/mm/paging.rs:777-788 | the result is the entry's address combined with the offset, and the processor's translation if that address is aligned to the page size |
| `Translation.PhysicalAddressAgrees` | src/arch/x86_64/mm/paging.rs:777-788 | the tree walk agrees with the processor on a whole page exactly if the entry's address is aligned to the page size |
| `Translation.MappedTranslates` | src/arch/x86_64/mm/paging.rs:829-845 | a mapped range is translated to base plus offset throughout exactly if the base is aligned to the page size |
| `Translation.MisalignedExample` | src/arch/x86_64/mm/paging.rs:168-198 | a 1 GiB page that is mapped to the memory at 2 MiB passes the assertions of `set` and is translated to address 0 |
| `Translation.TableVaInOrder` | src/arch/x86_64/mm/paging.rs:795-802 | the tables of a level appear in the self-mapped region in the order of the regions they cover |
| `MemoryManager.AllocateKeeps` | src/mm/mod.rs:323-338 | an allocation keeps every live block, mapped and with its frames, and adds one that overlaps none in virtual or physical memory |
| `MemoryManager.DeallocateKeeps` | src/mm/mod.rs:418-430 | a deallocation keeps every other live block |
| `MemoryManager.NextKeeps` | src/mm/mod.rs:323-430 | so does every call, also an allocation that runs out of addresses or of frames for tables |
| `MemoryManager.RunKeeps` | src/mm/mod.rs:323-430 | at every moment of every run of calls live blocks are disjoint in both address spaces, mapped in order to frames that are neither free nor tables |
| `MemoryManager.BlockEntry` | src/mm/mod.rs:418-430 | the page-table entry of a live block holds the physical address that its allocation took |
| `MemoryManager.MemoryManager.Allocate` | src/mm/mod.rs:323-338 | is a call of such a run; the block has the rounded size and was free in both lists; every address of it is mapped to its place in the memory of the block by an entry that is writable, has key 1, is execute-disable exactly if requested and has no other flag of its own; everything else is mapped as before |
| `MemoryManager.MemoryManager.Deallocate` | src/mm/mod.rs:418-430 | is a call of such a run; exactly the virtual block and the physical block that its allocation took become free |
| `HeapPages.MapHeap` | src/mm/mod.rs:74-99 | the loop maps whole pages from the start on, each with an entry that is writable, execute-disable and has key 2 in a kernel heap and 0 in a user heap, and with aligned memory of which no byte is free, lies in a table or belongs to another page of the heap; all other addresses are mapped as before; it ends early only if no free region holds another aligned page |
| `HeapPages.NextPage` | src/mm/mod.rs:85-92 | mapping one more page to memory that was free keeps all pages, from their first byte to their last, apart from each other, from the free list and from the tables |
| `HeapPages.PagesApart` | src/mm/mod.rs:85-92 | the memory of two pages of the heap does not overlap |
| `HeapPages.TakeMemory` | src/mm/mod.rs:86-86 | takes an aligned page of free memory, or fails, unchanged, if no region holds one |
| `Kernel.TopReady` | src/scheduler/task.rs:227-244 | the highest priority that has a ready task |
| `Kernel.DeadlinePosition` | src/scheduler/task.rs:513-547 | the place of a new waiter is behind all that do not wait longer, up to the first that does or the end of the list |
| `Kernel.Choose` | src/scheduler/mod.rs:249-286 | a dispatched level has a ready task; the current task stays only if it runs or idles, and the idle task is chosen only for one that does neither; the exact conditions are `KernelTheorems.DecisionExact` |
| `KernelSafety.InitialInv` | src/scheduler/mod.rs:366-406 | the state after boot satisfies the invariant |
| `KernelSafety.StepKeeps` | src/scheduler/mod.rs:65-341 | every step of spawn, clone, exit, join, sleep, wakeup, timer interrupt, semaphore, mutex and scheduler keeps the invariant, on any number of cores, with two exceptions: a timer wakeup of a task that is still in a wait queue, and an interrupt between the read of a status that is blocked or just woken and the decision |
| `KernelSafety.RunKeeps` | src/scheduler/mod.rs:65-341 | the invariant holds after every run without these two |
| `KernelTheorems.StatusAgreesWithPlace` | src/scheduler/task.rs:464-548 | in every reachable state a running task is current and unqueued, a ready one is exactly once in its core's ready queue or about to be pushed, a blocked one is in exactly one blocked list, also if it is woken between blocking and switching away |
| `KernelTheorems.NeverLinkedTwice` | src/scheduler/task.rs:164-189 | no task is ever in two queues that use the same links |
| `KernelTheorems.OneRunningPerCore` | src/scheduler/mod.rs:224-341 | at most one task runs on a core, and it is the current one; a current task that has blocked or finished can only enter the wait queue of a mutex, call the scheduler or be interrupted |
| `KernelTheorems.NoAssertionFails` | src/scheduler/task.rs:464-548 | no assertion about the status of a blocked or woken task fails in any reachable state |
| `KernelTheorems.DecisionRespectsPriority` | src/scheduler/mod.rs:243-340 | after a decision no ready task of the core has a higher priority than the current one, and the core idles only if nothing is ready |
| `KernelTheorems.RoundRobin` | src/scheduler/mod.rs:258-272 | when its time slice is over a task gives way to one of its own priority and goes to the end of the queue |
| `KernelTheorems.DecisionExact` | src/scheduler/mod.rs:243-340 | for every status that was read: a running task keeps the processor unless a task of higher priority is ready, or one of its own and its time slice is over, an idle one unless any task is ready, all others lose it; it goes to the oldest ready task of the highest priority or else to the idle task; if it stays no ready queue changes |
| `KernelTheorems.PreemptedExactly` | src/scheduler/mod.rs:249-272 | a running task loses the processor exactly if a level above its priority has a task, or its time slice is over and its own level has one; then it is the last of its level, otherwise no ready queue changes |
| `KernelTheorems.StepAdvances` | src/scheduler/mod.rs:243-340 | a dispatch brings a queued task of the top priority one place forward or runs it; no other step moves it back |
| `KernelTheorems.BoundedWaiting` | src/scheduler/mod.rs:224-341 | with k tasks ahead of it and nothing of higher priority becoming ready, a task runs after at most k+1 switches |
| `KernelSync.StepSync` | src/synch/semaphore.rs:77-140 | every step keeps the invariants of all semaphores and mutexes |
| `KernelSync.RunSync` | src/synch/semaphore.rs:77-140 | they hold after every run |
| `KernelSync.SemaphoreNeverLosesWakeup` | src/synch/semaphore.rs:77-140 | in every reachable state count is initial plus releases minus acquisitions, which are those of the run (`KernelCounts.SemaphoreCounts`), and if a task waits, count is at most the number of tasks that were woken and will try again |
| `KernelSync.MutexIsExclusive` | src/synch/recmutex.rs:34-90 | when only owners release, there is an owner exactly if the count is positive, the count is the owner's nesting depth, which is that of the run (`KernelCounts.MutexOwner`), nobody else holds the mutex, and waiters imply an owner or a woken task that will try again, also if interrupts come while the spinlock is held |
| `KernelCounts.CountOverRun` | src/synch/semaphore.rs:77-140 | over every tame run the count changes by the number of releases minus the number of acquisitions, tried ones included, that found it positive, and is what the sequence of calls on the semaphore makes of it |
| `KernelCounts.SemaphoreCounts` | src/synch/semaphore.rs:50-140 | so over every tame run from boot the count is the initial one plus releases minus acquisitions, all counted from the actions |
| `KernelCounts.AcquireGoesOn` | src/synch/semaphore.rs:83-113 | who calls `acquire` goes on exactly if the calls so far have left something, and blocks otherwise |
| `KernelCounts.HoldsOverRun` | src/synch/recmutex.rs:34-90 | over every tame run what a task holds of a mutex changes by its successful locks minus its unlocks |
| `KernelCounts.MutexCounts` | src/synch/recmutex.rs:34-90 | over every tame run from boot the successful locks of a task minus its unlocks, counted from the actions, are the count of the mutex if the task owns it and 0 otherwise |
| `KernelCounts.MutexOwner` | src/synch/recmutex.rs:34-90 | the owner is exactly the task that has locked more often than unlocked |
| `KernelCounts.LockSucceeds` | src/synch/recmutex.rs:40-69 | a lock succeeds exactly if every other task has unlocked the mutex as often as it has locked it |
| `KernelWaiters.WaitStep` | src/synch/semaphore.rs:83-140 | after every step each wait queue is as before, but for its first task if the object is released and the queue is the highest nonempty one, and for a new waiter at the end |
| `KernelWaiters.StepServes` | src/synch/semaphore.rs:131-140 | a release brings a waiter of the top priority one place forward, or makes it ready to try again; no other step moves it |
| `KernelWaiters.BoundedService` | src/synch/semaphore.rs:77-140 | with k waiters ahead of it and none of higher priority coming, a waiter is woken by one of the next k+1 releases |
| `KernelOrders.OrderStep` | src/scheduler/mod.rs:65-160 | `spawn` and `clone` create a ready task with the core and priority of the arguments or the priority of the caller; who blocks gets the wakeup time it asked for; no other step changes core, priority or wakeup time of any task |
| `KernelOrders.TasksAreAsBorn` | src/scheduler/mod.rs:65-160 | over every run from boot each task has the core and the priority it was created with, computed from the actions, through all clones |
| `KernelOrders.DeadlinesAreAsWished` | src/syscalls/tasks.rs:115-132 | over every run from boot the wakeup time of each task is the one of the call in which it last blocked |
| `KernelOrders.InterruptedGoesOn` | src/scheduler/mod.rs:224-341 | a call of the scheduler that is interrupted goes on where the interrupt came, when its task gets the processor again; until then no step changes the place unless the task is retired |
| `KernelQueues.Untouched` | src/scheduler/mod.rs:65-341 | for each kind of list, the kinds of steps that can change it |
| `KernelTimer.SortedOverRun` | src/scheduler/task.rs:498-548 | after every tame run all blocked lists are ordered by wakeup time, untimed waiters last |
| `KernelTimer.HandlerTime` | src/arch/x86_64/kernel/scheduler.rs:263-267 | the timer handler begins with an interrupt and knows the time at which it came |
| `KernelTimer.HandlerWakesAll` | src/scheduler/task.rs:591-611 | over every tame run from boot each turn of the timer handler wakes the first task of the list, whose time has come, or ends with nobody left in the list whose time has come |
| `KernelTimer.AsleepStep` | src/scheduler/task.rs:591-611 | nothing but the timer handler of its core wakes a task that waits for no object, and only when it is the first of the list |
| `KernelTimer.SleepsUntilItsTime` | src/scheduler/task.rs:591-611 | a sleeper goes on sleeping, with its wakeup time, through every tame run in which all timer interrupts of its core come before that time |
| `KernelTimer.SleepLasts` | src/syscalls/tasks.rs:115-132 | so who asks to sleep up to a time is still blocked after every such run |
| `KernelJoin.StepJoin` | src/scheduler/mod.rs:189-201 | every step keeps finished tasks on their way to cleanup and registered until then, if a spawn is for the spawning core with interrupts off and no interrupt comes in the middle of a cleanup that a finished task has begun |
| `KernelJoin.RunJoin` | src/scheduler/mod.rs:189-201 | this holds after every run of such steps |
| `KernelJoin.JoinersAreWoken` | src/scheduler/mod.rs:419-438 | in such runs a task that waits for another always waits for one that is alive, or waits in the finished list of its core, or is being cleaned up, or will be by a living task that was interrupted; and joiners that have been taken from a cleaned-up task are about to be woken |
| `KernelJoiners.JoinListStep` | src/scheduler/mod.rs:419-438 | after every step each list of joiners is as before, with a new joiner at the end, or empty if its task was cleaned up |
| `KernelJoiners.JoinersAreDrained` | src/scheduler/mod.rs:189-201 | a cleanup takes all joiners in their order, and each turn of the loop makes the first ready until none is left |
| `KernelJoiners.FinishedListStep` | src/scheduler/mod.rs:189-192 | after every step each list of finished tasks is as before, with the task that is retired at the end, or without its first task, which is the one that is cleaned up |
| `KernelJoiners.AliveStep` | src/scheduler/mod.rs:91-113 | no step finishes, retires or removes a task that has not called `exit` |
| `KernelJoiners.JoinWaitsForExit` | src/scheduler/mod.rs:419-438 | who joins a living task is still blocked, in the list of that task, after every tame run in which that task does not call `exit` |
| `KernelLimits.ExpiryLinksTwice` | src/scheduler/task.rs:591-611 | a timer wakeup links a task twice exactly if the task is in a wait queue |
| `KernelLimits.TimedWaitLinksTwice` | src/synch/semaphore.rs:102-108 | a run from boot, harmless but for one timed wait, after which a task is linked twice |
| `KernelLimits.ForgetLosesUnregistered` | src/scheduler/mod.rs:189-201 | a cleanup leaves its task behind for ever exactly if the task is not registered |
| `KernelLimits.RemoteSpawnLosesJoiner` | src/scheduler/mod.rs:65-88 | a run from boot on two cores, with every spawn made with interrupts off, after which a joiner sleeps and no continuation of the run wakes it |
| `KernelLimits.LocalSpawnLosesJoiner` | src/scheduler/mod.rs:76-80 | a run from boot on one core, with a timer interrupt between the push and the registration, after which a joiner sleeps and no continuation of the run wakes it |
| `KernelInterrupts.StaleDecisionLosesTask` | src/scheduler/mod.rs:230-340 | a decision loses the current task, which is not blocked and in no list, exactly if the status that was read is neither running nor finished |
| `KernelInterrupts.LateInterruptLosesTask` | src/scheduler/mod.rs:419-438 | a run from boot on one core, with quiet local spawns and no timed wait, in which an interrupt comes between the read and the decision of `join`; afterwards a running task is in no list and never runs again |
| `KernelInterrupts.InterruptedCleanupLosesTask` | src/scheduler/mod.rs:189-201 | after the decision of the interrupt handler the task whose cleanup was interrupted is lost, with all joiners, exactly if the interrupted task had finished or the chain of waits that goes on with it runs into a cycle or comes to a dead end |
| `KernelInterrupts.OwnCleanupDooms` | src/scheduler/mod.rs:419-438 | it does if the interrupted task waits in `join` for the task that it was to clean up |
| `KernelInterrupts.InterruptedExitLosesJoiner` | src/scheduler/mod.rs:91-113 | a run from boot on one core in which the scheduler call of `exit` is interrupted in the middle of a cleanup, after which a joiner sleeps and no continuation of the run wakes it |
| `KernelInterrupts.InterruptedJoinLosesJoiner` | src/scheduler/mod.rs:189-201 | a run from boot on one core in which `join` is interrupted when it is about to clean up the joined task, after which the joiner sleeps and no continuation of the run wakes it |
| `KernelInterrupts.InterruptedLockLosesTask` | src/synch/recmutex.rs:58-65 | an interrupt in the code of a task loses it exactly if the task has blocked itself and is about to enter the wait queue of a mutex, or was lost before |
| `KernelInterrupts.InterruptedLockHoldsUpMutex` | src/synch/recmutex.rs:40-69 | a run from boot on one core, harmless but for an interrupt while the spinlock is held, after which the owner runs but in no continuation anybody can lock or unlock the mutex |
| `KernelGone.StepLost` | src/scheduler/mod.rs:65-341 | no step of any kind brings back a member of a lost set (each waits for a member in `join`, for a mutex that a member owns or holds up, or for a cleanup that a member was interrupted in), or takes a joiner from its list |
| `KernelGone.LostForEver` | src/scheduler/mod.rs:65-341 | members never run again, and whoever waits for one is never woken, whatever happens next |
| `KernelCycles.LostExactly` | src/scheduler/mod.rs:189-201 | under the invariant a task is lost exactly if its chain of waits runs into a cycle or ends with a task that nobody will clean up or that was interrupted on its way into the wait queue of a mutex |
| `KernelCycles.StepAccounts` | src/synch/semaphore.rs:102-108 | every step keeps each task that waits without a deadline in the wait queue of an object or about to enter one |
| `KernelCycles.LostInRuns` | src/scheduler/mod.rs:65-341 | a task is lost exactly then in every state of a tame run |
| `KernelCycles.LostOnlyInCycles` | src/scheduler/mod.rs:65-341 | in runs whose spawns are quiet and whose interrupts spare finished cleaners and holders of spinlocks, a task is lost exactly if its chain of waits runs into a cycle |
| `KernelQuiet.StepUntimed` | src/synch/semaphore.rs:102-108 | without timed waits and late interrupts every step is tame, and nobody in a wait queue has a deadline |
| `KernelQuiet.StepCalm` | src/scheduler/mod.rs:205-209 | if the scheduler is only called with interrupts off, as `reschedule` does, no call of it is ever interrupted |
| `KernelQuiet.QuietRunsAreTame` | src/scheduler/mod.rs:205-209 | runs without timed waits and loud calls of the scheduler are tame, and lose no joiner if all spawns are quiet |
| `TaskLinks.PushChains` | src/scheduler/task.rs:164-189 | `push` keeps every chain of every priority queue in order, head, tail and both link directions, if no chain holds the task |
| `TaskLinks.PopChains` | src/scheduler/task.rs:191-224 | `pop_from_queue` yields the oldest task of its chain and keeps every chain in order |
| `TaskLinks.Links.Push` | src/scheduler/task.rs:164-189 | the task becomes the last of its queue; all queues that share the links, and all bitmaps, stay in order |
| `TaskLinks.Links.PopFromQueue` | src/scheduler/task.rs:191-224 | the oldest task leaves its queue; all queues that share the links, and all bitmaps, stay in order |
| `TaskLinks.Links.PopWithPrio` | src/scheduler/task.rs:236-244 | takes the oldest task of the highest level if that is at least the given one, and nothing if all those levels are empty |
| `KernelChains.CurrentFacts` | src/scheduler/mod.rs:288-292 | a running task is in no chain, so it can be pushed when it gives way or waits |
| `KernelChains.QueueingFacts` | src/synch/recmutex.rs:58-65 | a task that has blocked itself and is about to enter the wait queue of a mutex is in no chain |
| `KernelChains.WokenFacts` | src/scheduler/task.rs:486-494 | a task that is being woken is in no chain, neither of a ready queue nor of a wait queue |
| `KernelMachine.Machine.constructor` | src/scheduler/mod.rs:366-406 | the kernel after boot, with empty chains |
| `KernelMachine.Machine.GetTid` | src/scheduler/mod.rs:344-351 | the loop ends with the first id from the counter on, modulo 2^32, that no registered task has |
| `KernelMachine.Machine.SpawnNew` | src/scheduler/mod.rs:65-77 | with this id `spawn` is the spawn step, if the id is not that of a task that is yet to be registered |
| `KernelMachine.Machine.PushReady` | src/scheduler/task.rs:164-189 | the chains show the ready queues of all cores with the task behind the others of its priority |
| `KernelMachine.Machine.PopReady` | src/scheduler/task.rs:236-244 | bitmap and chains yield the oldest task of the highest ready priority of the core, if that is at least the given one; the chains show all queues without it |
| `KernelMachine.Machine.Decide` | src/scheduler/mod.rs:243-340 | the code of the decision, on the chains, is the decision step; the current task keeps the processor exactly if no other is to have it, said of queues and priorities, and otherwise the oldest ready task of the highest priority gets it, or the idle task |
| `KernelMachine.Machine.CleanupTasks` | src/scheduler/mod.rs:189-192 | taking the oldest finished task from its list is the cleanup step |
| `KernelMachine.Machine.ForgetTask` | src/scheduler/mod.rs:194-199 | removing it from TASKS and taking its joiners is the step that forgets it |
| `KernelMachine.Machine.PushWoken` | src/scheduler/task.rs:486-494 | the push of a woken task onto the chain of its core is the push step |
| `KernelMachine.Machine.DrainNext` | src/scheduler/task.rs:551-558 | is one drain step |
| `KernelMachine.Machine.WakeJoiners` | src/scheduler/task.rs:551-558 | the loop ends and is a run of drain and push steps |
| `KernelMachine.Machine.Scheduler` | src/scheduler/mod.rs:224-341 | a whole call is a run of the step system from its start and ends with a current task of the highest ready priority, which goes on where it was interrupted or in its own code |
| `KernelMachine.Machine.Spawn` | src/scheduler/mod.rs:65-77 | is the spawn step, with the given core and priority and with the new task at the end of the chain of its priority |
| `KernelMachine.Machine.Register` | src/scheduler/mod.rs:78-82 | is the registration step |
| `KernelMachine.Machine.Clone` | src/scheduler/mod.rs:115-160 | is the clone step; the new task has the priority of the caller |
| `KernelMachine.Machine.Exit` | src/scheduler/mod.rs:91-113 | is the exit step; the current task has finished |
| `KernelMachine.Machine.FindPlace` | src/scheduler/task.rs:519-540 | the loop finds the place before the first entry that waits longer, or the end |
| `KernelMachine.Machine.Block` | src/scheduler/task.rs:498-548 | the current task becomes blocked at its place in the list |
| `KernelMachine.Machine.Join` | src/scheduler/mod.rs:419-438 | is the join step, and succeeds exactly if the task is registered; the current task has blocked exactly then |
| `KernelMachine.Machine.Sleep` | src/syscalls/tasks.rs:115-132 | is the sleep step; the current task has blocked, up to the requested time |
| `KernelMachine.Machine.HandleWaitingTask` | src/scheduler/task.rs:591-611 | is one step of the timer handler |
| `KernelMachine.Machine.PopWait` | src/scheduler/task.rs:227-233 | bitmap and chains yield the oldest waiter of the highest priority of the object; the chains show all queues without it |
| `KernelMachine.Machine.SemaphoreAcquire` | src/synch/semaphore.rs:83-113 | one turn of the loop is one acquire step, which succeeds exactly if the count is positive and then takes one |
| `KernelMachine.Machine.SemaphoreTryAcquire` | src/synch/semaphore.rs:116-125 | is the step that succeeds exactly if the count is positive, and then takes one; otherwise it changes nothing |
| `KernelMachine.Machine.SemaphoreRelease` | src/synch/semaphore.rs:131-140 | is the release step, which adds one |
| `KernelMachine.Machine.MutexAcquire` | src/synch/recmutex.rs:34-63 | one turn of the loop, up to the point where the task has blocked itself, is one lock step, which succeeds exactly if the mutex is free or owned by the current task, which then owns it with a count that is one more |
| `KernelMachine.Machine.MutexEnqueue` | src/synch/recmutex.rs:64-65 | the push onto the chain of the wait queue is the step that ends the turn |
| `KernelMachine.Machine.MutexRelease` | src/synch/recmutex.rs:72-90 | is the unlock step, which makes the count one less and the mutex free when it gets to 0 |
| `KernelMachine.Machine.Execute` | src/scheduler/mod.rs:65-341 | for every kind of step the code carries out exactly this step of the step system and keeps the chains of all ready queues and wait queues in order together |
| `KernelMachine.Machine.Replay` | src/scheduler/mod.rs:65-341 | this holds for every tame run |
| `TaskQueue.QueueHead.Append` | src/scheduler/task.rs:164-189 | the pushed task becomes the last of the chain from the head exactly if the tail was its last task; otherwise the chain is unchanged |
| `TaskQueue.QueueHead.RemoveHead` | src/scheduler/task.rs:191-224 | removes and returns the oldest task, unlinked, or nothing |
| `TaskQueue.QueueHead.Unlink` | src/scheduler/task.rs:247-302 | deletes exactly the given task from the chain; the tail is right afterwards exactly if it is not the removed task |
| `TaskQueue.RemovedTailLosesTask` | src/scheduler/task.rs:247-302 | after a push, its removal and another push, of the same task or another, the queue is empty from the head |
| `TaskQueue.Msb` | src/arch/x86_64/kernel/processor.rs:972-984 | the highest set bit, or none |
| `TaskQueue.PriorityTaskQueue.constructor` | src/scheduler/task.rs:121-161 | 31 empty queues and no bit set |
| `TaskQueue.PriorityTaskQueue.Push` | src/scheduler/task.rs:164-189 | the task becomes the last of its priority exactly if the tail was right, and no other queue changes; exact bits stay exact unless the tail was wrong and the queue empty |
| `TaskQueue.PriorityTaskQueue.PopFromQueue` | src/scheduler/task.rs:191-224 | removes the oldest task of one priority, and only that |
| `TaskQueue.PriorityTaskQueue.Pop` | src/scheduler/task.rs:227-233 | removes the oldest task of the highest priority that has one; with exact bits it finds nothing only if all queues are empty, and if the highest bit is that of an empty queue it finds nothing for ever |
| `TaskQueue.PriorityTaskQueue.PopWithPrio` | src/scheduler/task.rs:236-244 | the same for priorities from the given one on |
| `TaskQueue.PriorityTaskQueue.Remove` | src/scheduler/task.rs:247-302 | deletes exactly one task; the tail of its queue agrees afterwards exactly if the task was not the last |
| `TaskQueue.RemovedTailHidesTasks` | src/synch/semaphore.rs:92-108 | if a waiter comes and gives up and another of its priority comes, the second is lost and `pop` finds none of the tasks of lower priorities any more |
| `BlockedQueue.PlaceUnique` | src/scheduler/task.rs:519-540 | the place of a waiter behind all that are not later is unique |
| `BlockedQueue.DueIsAll` | src/scheduler/task.rs:591-611 | in an ordered list the waiters whose time has come are exactly those at the front |
| `BlockedQueue.WithReadyAt` | src/scheduler/task.rs:464-495 | waking a list of tasks makes exactly these tasks ready |
| `BlockedQueue.BlockedTaskQueue.Add` | src/scheduler/task.rs:498-548 | the list stays ordered by wakeup time, untimed waiters last and ties first come; a new first waiter sets the timer, so a timer that was armed for the first waiter still is |
| `BlockedQueue.BlockedTaskQueue.WakeupAll` | src/scheduler/task.rs:551-558 | wakes every task exactly once and in order, and empties the list |
| `BlockedQueue.BlockedTaskQueue.CustomWakeup` | src/scheduler/task.rs:561-585 | wakes the given task if it is in the list and no other; on the owning core the timer stays armed for the first waiter |
| `BlockedQueue.BlockedTaskQueue.HandleWaitingTasks` | src/scheduler/task.rs:591-611 | wakes exactly the tasks whose time has come, in order, and arms the timer for the first of the others |
| `BlockedQueue.RemoteWakeupTimer` | src/scheduler/task.rs:574-578 | exactly when a wakeup from another core leaves the timer of the calling core, and that of the owning core, armed for their first waiter |
| `BlockedQueue.RemoteWakeupExample` | src/scheduler/task.rs:574-578 | two lists for which such a wakeup leaves both timers wrong |
| `TicketLock.StepKeeps` | src/synch/spinlock.rs:86-134 | every step keeps tickets consecutive along the line and lets in only its first, while at most m compete |
| `TicketLock.RunKeeps` | src/synch/spinlock.rs:86-134 | this holds after every run |
| `TicketLock.ExclusiveAndFair` | src/synch/spinlock.rs:86-134 | over every run at most one is inside, and they enter in the order of arrival |
| `TicketLock.EnterIsFirst` | src/synch/spinlock.rs:86-91 | who finds its ticket called is the first in line, and nobody is inside |
| `TicketLock.SecondCallIff` | src/synch/spinlock.rs:86-91 | two competitors find their ticket called at the same time exactly if more than m compete |
| `TicketLock.CrowdIsNotExclusive` | src/synch/spinlock.rs:86-91 | with m + 1 competitors two of them are inside together |
| `IrqLock.MoveKeeps` | src/synch/spinlock.rs:211-267 | every atomic step of every core keeps the invariant; the flag in the lock is the holder's |
| `IrqLock.ReachesKeeps` | src/synch/spinlock.rs:211-267 | the invariant holds after every run |
| `IrqLock.HolderRestoresItsFlag` | src/synch/spinlock.rs:211-267 | over every run of at most m cores one core at a time is inside, its interrupts are off from before it queues until after it has released the lock, and it leaves with the flag it came with; the lock keeps no flag unless its holder came with interrupts on |
| `IrqLock.MoveProjects` | src/synch/spinlock.rs:211-267 | of the atomic steps of a lock only the first and the last change what a core sees of its flag and its lock, and they are obtaining and dropping it |
| `IrqLock.FlagSurvives` | src/synch/spinlock.rs:260-267 | with several locks dropped in any order, the flag after the last drop is the flag before the first lock |
| `IrqLock.DropQuietIff` | src/synch/spinlock.rs:260-267 | dropping one of several locks leaves interrupts off exactly if it is not the outermost, or the only one, or interrupts were off before |
| `IrqLock.DropFirstExample` | src/synch/spinlock.rs:260-267 | of two locks obtained with interrupts on, dropping the first switches them on while the second is held |
| `IrqLock.NestedIsQuiet` | src/synch/spinlock.rs:211-267 | under nested use interrupts are off while the core holds any lock |
| `SystemTime.FormulaCounts` | src/arch/x86_64/kernel/systemtime.rs:73-94 | the closed formula counts the days since 1970 as the rules of the calendar do |
| `SystemTime.MicrosecondsCount` | src/arch/x86_64/kernel/systemtime.rs:73-94 | for every valid date from 1970 on the result is the number of microseconds since the epoch |
| `SystemTime.UnderflowExactlyBefore1970` | src/arch/x86_64/kernel/systemtime.rs:87-88 | the subtraction underflows exactly for dates before 1970 |
| `SystemTime.CivilIsInverse` | src/arch/x86_64/kernel/systemtime.rs:206-225 | for every day number the computed date is valid and has this day number |
| `SystemTime.DateFromMicroseconds` | src/arch/x86_64/kernel/systemtime.rs:197-228 | the date is valid and its second is the one in which the given microsecond lies |
| `SystemTime.DateRoundTrip` | src/arch/x86_64/kernel/systemtime.rs:73-228 | date to microseconds to date is the identity for every valid date from 1970 on |
| `SystemTime.MicrosecondsRoundTrip` | src/arch/x86_64/kernel/systemtime.rs:73-228 | microseconds to date to microseconds rounds down to the second |
| `SystemTime.CountedDaysInjective` | src/arch/x86_64/kernel/systemtime.rs:73-94 | different valid dates have different day numbers |
| `SystemTime.DateFromMicrosecondsU16` | src/arch/x86_64/kernel/systemtime.rs:197-228 | with the 16-bit year the result is right exactly for times before the first of January 65536 |
| `SystemTime.YearBelow` | src/arch/x86_64/kernel/systemtime.rs:197-228 | the year is below a bound exactly for times before the first day of that year |

## Left out

- KernelSafety.StepKeeps: leaves out the two steps that break the invariant: a timer wakeup of a task that is still in a wait queue (`KernelLimits.ExpiryLinksTwice`), and an interrupt between the read of a status that is blocked or just woken and the decision (`KernelInterrupts.StaleDecisionLosesTask`).
- KernelJoin.JoinersAreWoken: leaves out spawns that are not quiet and interrupts in a cleanup that a finished task has begun, because with either a joiner can be lost; that a living cleaner is not itself waiting in a cycle is `KernelCycles.LostOnlyInCycles`. An interrupt between the removal from TASKS and the lock of the joiners counts as one before the removal.
- KernelMachine.Machine.Spawn: requires an id that no task has; `get_tid` looks in TASKS only, and `KernelMachine.Machine.SpawnNew` says when that is enough.
- Paging.PageTables.MapPage: requires, as the comment of `subtable` demands of its callers, that no larger page maps the address; `TableEntries.StoreInLargerPage` and `TableEntries.StoreTwoBelow` say what happens otherwise. The same holds for MapPages, Map, GetEntry, SetKey and SetKeys.
- Translation.VirtualToPhysical: covers mapped addresses of the lower half, because for the upper half the pointer arithmetic of the original leaves the self-mapped region (`Translation.UpperHalfLeaves`).
- TicketLock.ExclusiveAndFair: covers at most m competitors, because with more the lock is not exclusive.
- MemoryManager.MemoryManager.Deallocate: requires a live block and its size; the original does not check either.
- Addresses and sizes are unbounded numbers, so the wrap-around of address sums at 2^64 is not modelled outside `subtable` and the self-mapped pointers.
- Physical addresses have 52 bits; the width that the processor reports is not modelled.
- `clone` is one step, because it holds the state lock of the other core throughout.
- Atomic operations are sequentially consistent, and a locked section is one step, apart from that of a `RecursiveMutex` in which a task blocks itself.
- TLB contents, inter-processor interrupts, context switches, the FPU and the halted state of a core are not modelled.
- A decision and its context switch are one step. In a call of the scheduler with interrupts on, an interrupt between the drop of the state lock and `switch` would find the new task as the current one on the stack of the old task.
- A task that joins itself borrows its own control block twice and stops the kernel; the step system has no such step.
- `FreeList` and `BlockedTaskQueue` keep their entries in a sequence; that the linked list refines a sequence is proved in `DoublyLinkedList`.
- `unsafe_allocate`, `shared_allocate` and `user_allocate` set another key than `allocate`, or none, and take both addresses with `allocate_aligned` for the page size, whose free list is modelled in `FreeList.FreeList.AllocateAligned`.
- `set_pkey`, which maps a range again with the flags of its first page, would only add another use of `Map`.
- `physicalmem.rs` and `virtualmem.rs` wrap the free lists; their assertions are preconditions here.
- `mpk.rs` and the isolation macros set bits of the PKRU register.
- Real-time clock registers, boot, devices, drivers, syscalls, condition variables and the aarch64 port.
