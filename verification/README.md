# A verified model of the RT-Thread 4.0.1 kernel

The project models the single-core RT-Thread kernel: its allocators, timers, scheduler and inter-process
communication objects. It covers the build without SMP, with 32-bit words and ticks and `RT_ALIGN_SIZE` 4. Pool sizes,
thread counts, mailbox and queue sizes, priority counts and skip-list levels are parameters. Nothing of the original is
executed; every statement below is a Dafny proof about the model.

The kernel works by changing memory in place, so each kernel object is a class with the fields of the C structure. Every
operation is a method that performs the same writes in the same branches. Its contract says what the operation means
for a simpler ghost value, and `Valid()` says that fields and ghost value agree. Every method keeps `Valid()`, so
`Valid()` holds in every state that any run reaches. Pointer fields are maps from addresses. List nodes threaded through
memory (`memheap.c`, `timer.c`, the page list, message slots) are kept as pointers and proved to form the rings and
chains that the ghost sequences name.

| file | models |
|---|---|
| `Word.dfy` | `rt_size_t` and `rt_tick_t` as numbers below 2^32, and `RT_ALIGN` with its wrap-around |
| `Seqs.dfy` | sequences without repetition, putting a member in and taking one out |
| `RtList.dfy` | the circular doubly linked list of `rtservice.h`: inserting and removing splice rings |
| `Tiling.dfy`, `Blocks.dfy` | what both heaps keep in memory: blocks that tile a pool, and what carving, releasing and resizing do to them |
| `MemHeap.dfy` | `memheap.c`: the block ring, the free ring, the byte contents, conservation |
| `SmallMem.dfy` | `mem.c`: offset-linked headers, the `lfree` hint, `plug_holes`, usage statistics |
| `Pages.dfy` | the page allocator of `slab.c` |
| `SizeClass.dfy`, `Slab.dfy` | `zoneindex`, the layout of a zone, zones and `memusage` |
| `AlignedAlloc.dfy` | `rt_malloc_align` and `rt_free_align` |
| `TimerModel.dfy` | timers on an unbounded clock, without skip list: what whole runs do |
| `TimerRows.dfy`, `Timers.dfy` | the skip-list rows and the wrapping clock of `timer.c`, refining `TimerModel` |
| `Clock.dfy` | `rt_tick_increase` as a whole: tick counter, time slices, timers |
| `Ffs.dfy` | `__rt_ffs`, its table, and single-bit updates of the ready masks |
| `Scheduler.dfy` | ready queues, one- and two-level ready bitmaps, `rt_schedule`, thread operations |
| `IpcList.dfy` | the suspend list of an IPC object |
| `Others.dfy` | what threads outside an IPC object do between its steps |
| `Mutex.dfy`, `Event.dfy`, `Mailbox.dfy`, `MessageQueue.dfy` | the IPC objects, one method per region with interrupts disabled |
| `Inversion.dfy` | a run, from the constructors on, in which a mutex release leaves the wrong thread running |

For IPC, each region between `rt_hw_interrupt_disable` and `rt_hw_interrupt_enable` is one method and `rt_schedule` is
another. A run is any sequence of these calls by any threads, and of the steps of `Others.Move` by threads that are in
no call on the object: they are created, started, resumed, suspended, given another priority, or exit. A thread woken
inside a blocking call is on its way until it returns or looks again, and other threads may act in between. In a message
queue each copied byte is a step of its own.

Where the code does not keep a property that one would expect, the model follows the code. A lemma then gives the exact
condition, and where the failure is not obvious a method reaches a failing state by calling the model's own operations
on a fresh object:

- A splitting `rt_realloc` in `mem.c` can leave `lfree` above a free block, so that later requests are refused although
  memory is free (`SmallMem.HintAfterShrink`, `SmallMem.HintCanFail`, `SmallMem.HintFailsRun`).
- `rt_malloc` in `mem.c` refuses an exact fit that ends at `heap_end`, so a fresh heap cannot serve a request for all of
  it (`SmallMem.RefusedFit`, `SmallMem.WholeHeapRun`).
- In a heap of 0, 4 or 8 bytes the scan of `rt_malloc` goes round for ever, unless the rounded request is larger than
  the heap; it always ends in larger heaps (`SmallMem.FreshScanEnds`).
- Growing a block in `memheap.c` compares sizes after adding a margin, which wraps around for rounded sizes within 12 of
  2^32 (`MemHeap.GrowTestExact`, `MemHeap.GrowTestRun`).
- `rt_malloc_align` hands out memory outside its block when the rounded size and alignment run over the end of the
  address space, and only then (`AlignedAlloc.AlignedInside`).
- The timer check clears the flag of a one-shot timer that its own callback has left started, so the timer is listed and
  `rt_timer_stop` refuses to stop it; this is the only way flags and list can disagree (`TimerModel.FireFlags`,
  `TimerModel.RunFlags`).
- Timers that fire at the same tick fire in the order in which they were started, unless one with a zero delay is
  started after one with a delay (`TimerModel.SameInstant`, `TimerModel.ZeroDelayOvertakes`). If all delays are zero or
  none is, they do so in every run (`TimerModel.StartOrder`, `TimerModel.MeetInOrder`), and where callbacks touch no
  timer only then (`TimerModel.StartOrderExact`). In all cases they fire by deadline, and ties in start order
  (`TimerModel.LogInOrder`).
- A timer fires after its deadline, by one tick, if and only if its delay is zero (`TimerModel.RunPunctual`).
- The last release of a mutex without waiters can leave a lower-priority thread running (`Mutex.ReleaseRunsTop`,
  `Mutex.ReleaseCanInvert`, `Inversion.ReleaseInvertsRun`).

Where to start reading: `MemHeap.Heap.Realloc`, `SmallMem.Heap.Realloc`, `Slab.SlabAllocator.Free` with
`Slab.PagesConserved`, `Timers.TimerList.Execute` with `TimerModel.FiresOnTime`, `TimerModel.LogInOrder` and
`TimerModel.FireFlags`, `Clock.Clock.Ticks` with `Clock.FullTurn`, `Scheduler.Scheduler.Rounds`,
`Others.FirstComeFirstServed`, `Mailbox.Mailbox.Valid`, `Event.Event.Send` with `Event.DeliverStrandsNobody`,
`MessageQueue.MessageQueue.Recycle` with `MessageQueue.ArrivalKeeps`.

## Model

| member | source | states |
|---|---|---|
| `Word.AlignUp` | rt-thread-4.0.1/include/rtdef.h:285-289 | the result is a multiple of 4 less than 4 above the size, exactly when the size is at most 2^32 - 4; above that the 32-bit sum wraps and the result is smaller than the size |
| `RtList.LinkSplices` | rt-thread-4.0.1/include/rtservice.h:58-65 | `rt_list_insert_after` turns a ring into the ring with the node spliced in behind the given place: every `next` and `prev` agrees with the new cycle |
| `RtList.UnlinkSplices` | rt-thread-4.0.1/include/rtservice.h:86-92 | `rt_list_remove` turns a ring of at least two nodes into the ring without the node |
| `RtList.RingFrame` | rt-thread-4.0.1/include/rtservice.h:58-92 | writes to nodes of other lists leave a ring alone |
| `Tiling.Conservation` | rt-thread-4.0.1/src/memheap.c:62-65 | a range that blocks tile without gaps is exactly its free payload plus its used payload plus one header per block |
| `Blocks.ReleasedShape` | rt-thread-4.0.1/src/memheap.c:495-595 | freeing and merging with whichever neighbours are free keeps the tiling and never leaves two free neighbours |
| `Blocks.ResizedShape` | rt-thread-4.0.1/src/memheap.c:350-485 | so does resizing in place, growing or shrinking |
| `Blocks.AllocFreeRoundTrip` | rt-thread-4.0.1/src/memheap.c:138-281 | freeing a block right after its allocation gives back exactly the sequence of blocks from before |
| `Blocks.CarvedExactly` | rt-thread-4.0.1/src/memheap.c:186-273 | an allocation changes one block only: it is split, with exactly the rounded request in front, if the remainder is a header and a minimal block or more, and otherwise handed out whole |
| `Blocks.ReleasedLive` | rt-thread-4.0.1/src/memheap.c:495-595 | a release takes exactly the released block out of the set of live blocks |
| `Blocks.Determined` | rt-thread-4.0.1/src/memheap.c:495-595 | two pools of one size with the same live blocks have the same free blocks: merging leaves no choice, so what is free is exactly the gaps between live blocks |
| `Blocks.MovedReplaced` | rt-thread-4.0.1/src/memheap.c:408-416 | allocate, copy, free keeps the copied bytes of the moved block and all bytes of every other live block |
| `Blocks.ResizedReplaced` | rt-thread-4.0.1/src/memheap.c:350-485 | resizing in place keeps the first min(old, new) bytes of the block and all bytes of every other, although it writes a header |
| `MemHeap.FrontTaken` | rt-thread-4.0.1/src/memheap.c:188-236 | after the pointer writes of the splitting allocation the block ring, the free ring, the flags and `available_size` all describe the new block sequence |
| `MemHeap.PoolConserved` | rt-thread-4.0.1/src/memheap.c:62-65 | in every valid state the pool is `available_size` plus used payload plus one header per block, the tailer's included |
| `MemHeap.LiveDecides` | rt-thread-4.0.1/src/memheap.c:138-595 | whatever calls led there, the live blocks decide which blocks are free and what `available_size` is |
| `MemHeap.Heap.constructor` | rt-thread-4.0.1/src/memheap.c:50-121 | the initial pool is one free block between header and tailer, and both rings say so |
| `MemHeap.Heap.FirstFit` | rt-thread-4.0.1/src/memheap.c:169-180 | the search returns the first block in free-ring order that can hold the size, and fails only if none in the ring can |
| `MemHeap.ServedFirst` | rt-thread-4.0.1/src/memheap.c:169-275 | whatever stands before the serving block in the free ring is too small, and the others keep their order behind the remainder |
| `MemHeap.Heap.Serve` | rt-thread-4.0.1/src/memheap.c:157-275 | fails, changing nothing, exactly when no free payload is large enough; otherwise the first fit is carved, the new block is less than a header and a minimal block larger than the request, `available_size` falls by exactly what is taken, and no live byte changes |
| `MemHeap.Heap.Alloc` | rt-thread-4.0.1/src/memheap.c:138-281 | null if and only if the rounded size is not below `available_size` or no free payload can hold it; otherwise an aligned new block, at least the request and less than a header and a minimal block larger, is added to the live ones, which keep their bytes; `available_size` falls by its size and the header of a split; the high-water mark is exact |
| `MemHeap.Heap.Coalesce` | rt-thread-4.0.1/src/memheap.c:535-591 | the unmarking, left merge, right merge and listing leave both rings describing the released sequence, and the gain is one header per merge |
| `MemHeap.ReleasedOrder` | rt-thread-4.0.1/src/memheap.c:535-591 | the free ring keeps its order: the header behind the block leaves it if it was free, and the block goes to the front unless it melts into the one before |
| `MemHeap.Heap.Free` | rt-thread-4.0.1/src/memheap.c:495-595 | exactly the freed block leaves the live set and the blocks are merged as far as possible; `available_size` grows by its size and one header for each free neighbour; the free ring changes as in `ReleasedOrder`; statistics stay exact, null is ignored |
| `MemHeap.Heap.MoveBoundary` | rt-thread-4.0.1/src/memheap.c:357-393 | growing in place unlinks the free neighbour from both rings and rebuilds it further right; both rings describe the resized sequence |
| `MemHeap.Heap.CutTail` | rt-thread-4.0.1/src/memheap.c:432-479 | shrinking splits, merges the tail with a free neighbour and lists it; both rings describe the resized sequence |
| `MemHeap.Heap.Resize` | rt-thread-4.0.1/src/memheap.c:310-492 | null, with nothing changed, exactly when the size does not fit in place and allocation would fail; a block more than a header and a minimal block too large is cut to exactly the new size, and `available_size` grows by the difference, less a header unless the right neighbour was free; a smaller excess changes nothing; growing in place is exact too; the first min(old, new) bytes are kept, wherever the block ends up, and every other live block keeps its bytes |
| `MemHeap.GrowTestExact` | rt-thread-4.0.1/src/memheap.c:336-350 | the 32-bit test for growing into the free right neighbour agrees with the true sizes if and only if the rounded size plus margin stays below 2^32 |
| `MemHeap.GrowTestRun` | rt-thread-4.0.1/src/memheap.c:336-350 | in every pool with room for two blocks, after one allocation of 12 bytes on the fresh heap, the test passes for 2^32 - 8 bytes although the right neighbour is too small |
| `MemHeap.Heap.Realloc` | rt-thread-4.0.1/src/memheap.c:284-492 | the same for every pointer and size: size 0 frees, a null pointer allocates; whatever block is returned is at most a header and a minimal block larger than the rounded request |
| `MemHeap.Heap.OwnedApart` | rt-thread-4.0.1/src/memheap.c:138-281 | payloads of different live blocks never overlap |
| `MemHeap.Heap.OwnedAligned` | rt-thread-4.0.1/src/memheap.c:138-281 | every pointer handed out is word aligned, in every state |
| `SmallMem.SplitHeaders` | rt-thread-4.0.1/src/mem.c:329-348 | the header writes of a split leave every header below `heap_end` with exact forward and back links |
| `SmallMem.MergeHeaders` | rt-thread-4.0.1/src/mem.c:156-194 | so do those of a merge |
| `SmallMem.MergeCommutes` | rt-thread-4.0.1/src/mem.c:156-194 | joining forward then backward gives the same blocks as the other order |
| `SmallMem.RefusedFit` | rt-thread-4.0.1/src/mem.c:305-311 | the scan bound refuses a block that is large enough if and only if it is an exact fit ending at `heap_end` |
| `SmallMem.WholeHeapRun` | rt-thread-4.0.1/src/mem.c:272-410 | on every fresh heap, `rt_malloc` refuses the whole size |
| `SmallMem.FreshScanEnds` | rt-thread-4.0.1/src/mem.c:272-311 | for every word-aligned heap size and every request, `rt_malloc` on the fresh heap returns if and only if the request is 0, rounds to more than the heap, or the heap has 12 bytes or more; requests that round to 0 included |
| `SmallMem.ScanPlaces` | rt-thread-4.0.1/src/mem.c:305-311 | that scan looks at the first header, then at `heap_end`, and stays there |
| `SmallMem.HintAfterCarve` | rt-thread-4.0.1/src/mem.c:380-387 | allocation keeps the hint on a free block (or `heap_end`) and keeps it the lowest |
| `SmallMem.HintAfterRelease` | rt-thread-4.0.1/src/mem.c:596-607 | so does `rt_free` with its merges |
| `SmallMem.HintAfterShrink` | rt-thread-4.0.1/src/mem.c:471-498 | after a splitting `rt_realloc` the hint is still the lowest if and only if it was below the block or on its free right neighbour |
| `SmallMem.HintCanFail` | rt-thread-4.0.1/src/mem.c:471-498 | the heap in which that `rt_realloc` leaves 44 free bytes below `lfree` |
| `SmallMem.HintFailsRun` | rt-thread-4.0.1/src/mem.c:421-510 | two allocations and one `rt_realloc` on a fresh heap of 88 bytes reach it, and then `rt_malloc` refuses 12 bytes |
| `SmallMem.SizeOfLargest` | rt-thread-4.0.1/src/mem.c:207-226 | the heap lies between its end addresses and is as large as word alignment and two headers allow; no heap is made exactly when there is no room |
| `SmallMem.SizeOfWraps` | rt-thread-4.0.1/src/mem.c:207-226 | a begin address in the last word of the address space is rounded to 0, and the range from 0 is taken |
| `SmallMem.Heap.constructor` | rt-thread-4.0.1/src/mem.c:204-257 | between any two end addresses that leave room for the headers, the initial heap is one free block whose header links to `heap_end`, which links to itself; nothing is used and the hint is on the block |
| `SmallMem.Heap.Scan` | rt-thread-4.0.1/src/mem.c:305-311 | the scan returns the lowest block from the hint upwards that the bound accepts, and null only if there is none anywhere |
| `SmallMem.Heap.Serve` | rt-thread-4.0.1/src/mem.c:298-410 | null, with nothing changed, exactly when every fit at or above the hint is an exact fit ending at `heap_end`; otherwise the first accepted fit is carved, live bytes stay, and a lowest hint stays lowest |
| `SmallMem.Heap.Malloc` | rt-thread-4.0.1/src/mem.c:272-410 | the exact conditions of failure, including size 0 and sizes beyond the heap; otherwise the lowest block from the hint that the scan accepts is carved into an aligned new live block, less than a header and a minimal block larger than the request; `used_mem` grows by exactly that block and its header, `max_mem` is exact |
| `SmallMem.Heap.PlugHoles` | rt-thread-4.0.1/src/mem.c:156-194 | headers describe the merged sequence afterwards, and a hint on a header that disappeared moves to the one that absorbed it |
| `SmallMem.Heap.Shrink` | rt-thread-4.0.1/src/mem.c:471-498 | the split tail is freed and merged, the block has exactly the new size, kept bytes and all other blocks' bytes stay, `used_mem` falls by exactly the difference |
| `SmallMem.Heap.Free` | rt-thread-4.0.1/src/mem.c:546-609 | exactly the freed block leaves the live set and `used_mem` falls by it and its header; null and pointers outside the heap are ignored; a lowest hint stays lowest |
| `SmallMem.Heap.Resize` | rt-thread-4.0.1/src/mem.c:459-510 | null, with nothing changed, exactly when the block is neither of that size nor splittable and allocation fails; a split gives exactly the new size and takes exactly the difference from `used_mem`; otherwise the block is moved; the first min(old, new) bytes and every other live block's bytes are kept; the hint stays lowest exactly as `HintAfterShrink` says |
| `SmallMem.Heap.Realloc` | rt-thread-4.0.1/src/mem.c:421-510 | the same for every pointer and size, with the size-0, null, too-large and foreign-pointer cases; a null pointer gives what `rt_malloc` gives; a split gives exactly the resized blocks and hint; `max_mem` is exact |
| `Pages.AllocTakes` | rt-thread-4.0.1/src/slab.c:236-270 | allocation takes exactly the pages it returns out of the free set, and the runs stay sorted, disjoint and apart |
| `Pages.AllocExact` | rt-thread-4.0.1/src/slab.c:236-270 | it fails if and only if no run is long enough |
| `Pages.AllocLowest` | rt-thread-4.0.1/src/slab.c:236-270 | wherever that many pages in a row are free, it succeeds, and not behind them: the lowest place wins |
| `Pages.FitsMeans` | rt-thread-4.0.1/src/slab.c:236-270 | the test for failure means that some run is that long |
| `Pages.FreeAdds` | rt-thread-4.0.1/src/slab.c:272-322 | freeing adds exactly the given pages, joins runs on both sides, and keeps the runs maximal |
| `Pages.Canonical` | rt-thread-4.0.1/src/slab.c:236-322 | two lists in shape with the same free pages are the same list |
| `Pages.AllocFreeRoundTrip` | rt-thread-4.0.1/src/slab.c:236-322 | freeing what was just allocated restores the same runs |
| `Pages.PageAllocator.constructor` | rt-thread-4.0.1/src/slab.c:327-334 | `rt_page_init` leaves one run of all pages |
| `Pages.PageAllocator.Alloc` | rt-thread-4.0.1/src/slab.c:236-270 | the in-place list surgery implements the run-level allocation; zero pages give null |
| `Pages.PageAllocator.Free` | rt-thread-4.0.1/src/slab.c:272-322 | the in-place list surgery, in all four merge cases, implements the run-level release |
| `SizeClass.SmallestClass` | rt-thread-4.0.1/src/slab.c:401-459 | `zoneindex` picks the smallest of the 72 classes that holds the request and wastes less than 8 bytes plus an eighth |
| `SizeClass.ChunksGrow` | rt-thread-4.0.1/src/slab.c:401-459 | chunk sizes strictly increase with the class number and are multiples of 8 |
| `SizeClass.PowerTestExact` | rt-thread-4.0.1/src/slab.c:631-638 | the bit trick of `rt_malloc` recognises exactly the powers of two among chunk sizes |
| `SizeClass.ZoneLayout` | rt-thread-4.0.1/src/slab.c:628-648 | a zone of any class holds at least three chunks, all behind its header and inside its pages, and one chunk more would not fit; they start at the first place behind the header that suits their size |
| `SizeClass.ClassFits` | rt-thread-4.0.1/src/slab.c:493-535 | a request below the zone limit gets a class whose chunks fit in a zone |
| `SizeClass.ChunksApart` | rt-thread-4.0.1/src/slab.c:628-648 | chunks of one zone never overlap one another or the header |
| `SizeClass.ChunkAligned` | rt-thread-4.0.1/src/slab.c:631-648 | chunks whose size is a power of two up to a page are aligned to their size |
| `Slab.RecoversZone` | rt-thread-4.0.1/src/slab.c:795-828 | for any chunk of any zone, `memusage` leads back to the zone it belongs to |
| `Slab.ChunksDisjoint` | rt-thread-4.0.1/src/slab.c:523-659 | different chunks never overlap, within a zone or across zones of any classes |
| `Slab.TakeKeeps` | rt-thread-4.0.1/src/slab.c:539-577 | taking a chunk keeps the counts, leaves the zone listed exactly if it still has a free chunk, and hands out an address that was not live |
| `Slab.OpenKeeps` | rt-thread-4.0.1/src/slab.c:587-659 | turning a free zone into a zone of a class keeps all of it |
| `Slab.ReturnKeeps` | rt-thread-4.0.1/src/slab.c:830-846 | returning a chunk keeps the counts and lists the zone again if it was full |
| `Slab.NothingLives` | rt-thread-4.0.1/src/slab.c:848-874 | a zone whose free count equals its size holds no live chunk, by counting distinct free indices |
| `Slab.RetireKeeps` | rt-thread-4.0.1/src/slab.c:854-874 | such a zone can leave its class without touching any live chunk |
| `Slab.LiveApart` | rt-thread-4.0.1/src/slab.c:478-667 | in every valid state live chunks never overlap, whatever zones they are in |
| `Slab.LiveOffHeaders` | rt-thread-4.0.1/src/slab.c:478-667 | nor does a live chunk overlap any zone header or free zone |
| `Slab.LiveOffLarge` | rt-thread-4.0.1/src/slab.c:478-667 | nor any live large block |
| `Slab.LargeApart` | rt-thread-4.0.1/src/slab.c:493-521 | live large blocks never overlap one another |
| `Slab.PageAccounted` | rt-thread-4.0.1/src/slab.c:478-904 | in every valid state a page that is not free belongs to a zone, a free zone, a live large block or the memusage array |
| `Slab.PagesConserved` | rt-thread-4.0.1/src/slab.c:478-904 | the free pages, those of zones, free zones and live large blocks, and the memusage array make up all pages |
| `Slab.HeapPagesLargest` | rt-thread-4.0.1/src/slab.c:344-372 | the heap consists of all whole pages between its end addresses, unless rounding the begin address wraps |
| `Slab.KindKnown` | rt-thread-4.0.1/src/slab.c:795-828 | for every live pointer `memusage` tells large blocks from chunks, with the right length or zone |
| `Slab.PagesExact` | rt-thread-4.0.1/src/slab.c:493-504 | the pages of the direct path are as many as the request needs and no more, or none exactly when rounding the request up wraps around |
| `Slab.SlabAllocator.constructor` | rt-thread-4.0.1/src/slab.c:344-395 | between two end addresses with a page between them, an empty allocator on those pages, its zone size the one the heap size asks for |
| `Slab.SlabAllocator.Malloc` | rt-thread-4.0.1/src/slab.c:478-667 | fails, changing nothing, exactly for size 0, when the class has no chunk and neither a free zone nor a run of zone size is there, or as `AllocLarge` does; otherwise a pointer that was not live: a chunk that holds the request and wastes less than 8 bytes or an eighth, or a block of just as many pages as it needs; every other live chunk and large block is unaffected, and exactly the pages of a new zone or of the large block are taken from the page allocator |
| `Slab.SlabAllocator.AllocLarge` | rt-thread-4.0.1/src/slab.c:493-521 | the direct path fails exactly when no free run holds the requested bytes or rounding them up wraps around; otherwise it takes the fewest pages that hold them, exactly these leave the free runs, and one large block is new |
| `Slab.SlabAllocator.GetZone` | rt-thread-4.0.1/src/slab.c:596-623 | pages for a zone are obtained exactly if a run is long enough, exactly they leave the free runs, and `memusage` leads from each of them to the zone |
| `Slab.SlabAllocator.Free` | rt-thread-4.0.1/src/slab.c:771-904 | exactly the freed chunk or large block stops being live; the pages of a large block return to the free runs at once, those of a zone exactly when it becomes empty beside enough free zones |
| `Slab.SlabAllocator.Release` | rt-thread-4.0.1/src/slab.c:876-900 | the first free zone holds nothing live, and exactly its pages return to the free runs |
| `AlignedAlloc.AlignmentFacts` | rt-thread-4.0.1/src/kservice.c:1236-1244 | rounding a power-of-two alignment up to words gives a power of two that is a multiple of 4 |
| `AlignedAlloc.AlignedInside` | rt-thread-4.0.1/src/kservice.c:1229-1266 | for every size and power-of-two alignment, the pointer is aligned as asked with its back pointer and `size` bytes inside the block if and only if the rounded sizes do not run over the end of the address space |
| `AlignedAlloc.Words.MallocAlign` | rt-thread-4.0.1/src/kservice.c:1229-1266 | for every size the pointer is aligned and only the word before it is written, with the block's own address; back pointer and `size` bytes are inside the block exactly if the rounded sizes do not run over the end of the address space |
| `AlignedAlloc.Words.RoundTrip` | rt-thread-4.0.1/src/kservice.c:1229-1281 | for every size, whatever words the caller stores in the bytes it asked for, `rt_free_align` hands exactly the original pointer to `rt_free` |
| `TimerModel.InsertKeeps` | rt-thread-4.0.1/src/timer.c:342-370 | insertion where the plain scan stops keeps the list sorted, and whoever stands behind the newcomer is due strictly later |
| `TimerModel.StartTickets` | rt-thread-4.0.1/src/timer.c:342-370 | a start keeps equal deadlines in the order in which they were started |
| `TimerModel.CheckFiresDue` | rt-thread-4.0.1/src/timer.c:494-553 | when callbacks touch no timer, the check loop fires exactly the timers that were due, front to back, each once |
| `TimerModel.CheckDone` | rt-thread-4.0.1/src/timer.c:494-553 | whatever the callbacks start and stop, nothing due is listed after the check |
| `TimerModel.CheckOrdered` | rt-thread-4.0.1/src/timer.c:494-553 | and the check fires by deadline, ties in start order |
| `TimerModel.CheckResult` | rt-thread-4.0.1/src/timer.c:494-553 | a timer that no callback names fires once if it was due, else not; a fired one-shot is off the list, a fired periodic timer is due one period from now, any other stays |
| `TimerModel.FireKeeps` | rt-thread-4.0.1/src/timer.c:505-546 | each round, callback included, leaves fewer due timers, so the loop ends when whatever it starts has a delay of at least 1 |
| `TimerModel.FireFlags` | rt-thread-4.0.1/src/timer.c:519-546 | for every state and every callback that starts and stops timers: after a round the flag is set exactly on the listed timers if and only if the timer is periodic or the last call of its callback that names it is not a start |
| `TimerModel.RunFlags` | rt-thread-4.0.1/src/timer.c:296-553 | over any run flags and list agree, if no one-shot has such a callback |
| `TimerModel.StepKeeps` | rt-thread-4.0.1/src/timer.c:296-553 | every tick, start and stop keeps the list sorted, without repeats, with listed periodic timers flagged and no missed deadline |
| `TimerModel.TickFires` | rt-thread-4.0.1/src/clock.c:72-98 | in one tick a timer fires exactly once if it is due by then, and not otherwise |
| `TimerModel.FiresOnTime` | rt-thread-4.0.1/src/timer.c:296-553 | over any run in which nobody starts or stops it, a timer fires at its deadline, and if periodic every `init_tick` ticks after it without drift, and never if it is not listed |
| `TimerModel.LogInOrder` | rt-thread-4.0.1/src/timer.c:296-553 | over any run, with any callbacks, the log is ordered by time, then deadline, then start, and the list keeps ties in start order |
| `TimerModel.RunPunctual` | rt-thread-4.0.1/src/timer.c:296-553 | over any run, with any callbacks, a timer with a delay fires at its deadline and one without a tick after it |
| `TimerModel.SameInstant` | rt-thread-4.0.1/src/timer.c:296-553 | over any run, with any callbacks, two firings at the same instant come in start order, unless the first timer has no delay and the second has one |
| `TimerModel.FreshFine` | rt-thread-4.0.1/src/timer.c:679-687 | the state without listed timers meets the conditions of these statements, at any time and for every configuration in which what the check may start has a delay |
| `TimerModel.StartOrder` | rt-thread-4.0.1/src/timer.c:296-553 | if no delay of an initialised timer is zero, or all are, firings at the same instant come in start order, over any run with any callbacks |
| `TimerModel.ZeroDelayOvertakes` | rt-thread-4.0.1/src/timer.c:296-553 | for every pair of a timer without delay, whose callback touches no timer, and one with a delay, there is a run from the fresh state in which the first fires before the second at the same instant, although it was started later |
| `TimerModel.StartOrderExact` | rt-thread-4.0.1/src/timer.c:296-553 | where callbacks touch no timer, all runs from the fresh state fire in start order at each instant if and only if delays are not mixed |
| `TimerModel.MeetInOrder` | rt-thread-4.0.1/src/timer.c:296-553 | a run that meets these conditions, and in which two timers do fire at the same instant |
| `TimerRows.RowRemove` | rt-thread-4.0.1/src/timer.c:121-129 | `rt_list_remove` takes a timer out of a row, and is harmless in a row it is not in |
| `TimerRows.RowInsert` | rt-thread-4.0.1/src/timer.c:379-391 | `rt_list_insert_after` splices a timer into a row and leaves the rings of other timers alone |
| `TimerRows.RowKeeps` | rt-thread-4.0.1/src/timer.c:342-391 | every row is sorted and repeats no timer |
| `TimerRows.RowSublist` | rt-thread-4.0.1/src/timer.c:372-391 | every row is the sublist of the row below made of the taller timers |
| `TimerRows.RowScan` | rt-thread-4.0.1/src/timer.c:342-370 | the search in a sparser row stops at the image of where a plain scan of the bottom row stops |
| `TimerRows.RowInsertSorted` | rt-thread-4.0.1/src/timer.c:342-391 | inserting in the bottom row inserts, at its own scan position, in every row the timer reaches |
| `Timers.WrappedLater` | rt-thread-4.0.1/src/timer.c:359-366 | the wrapped comparison of two deadlines is right as long as the true ones are within half a clock, across wrap-around |
| `Timers.WrappedDue` | rt-thread-4.0.1/src/timer.c:513-517 | so is the wrapped test for a due timer |
| `Timers.FireWindow` | rt-thread-4.0.1/src/timer.c:505-546 | firing, whatever its callback starts and stops, keeps all deadlines in the window the comparisons need |
| `Timers.LiveKeeps` | rt-thread-4.0.1/src/timer.c:296-553 | a system that misses no tick and uses delays below half the clock stays in that window for ever |
| `Timers.LiveWindows` | rt-thread-4.0.1/src/timer.c:296-553 | in such a system the window conditions of start and check always hold |
| `Timers.TimerList.constructor` | rt-thread-4.0.1/src/timer.c:679-687 | all rows empty |
| `Timers.TimerList.TimerInit` | rt-thread-4.0.1/src/timer.c:80-105 | a fresh timer is on no row and nothing else changes, whatever its callback |
| `Timers.TimerList.TimerRemove` | rt-thread-4.0.1/src/timer.c:121-129 | removing the node of every row takes the timer out of every row |
| `Timers.TimerList.FindHeads` | rt-thread-4.0.1/src/timer.c:342-370 | in every row, the search ends where a plain scan of that row would |
| `Timers.TimerList.InsertRows` | rt-thread-4.0.1/src/timer.c:372-391 | for any value of the insertion counter and any mask, the timer enters a non-empty stack of lowest rows, each at its scan position |
| `Timers.TimerList.Start` | rt-thread-4.0.1/src/timer.c:296-412 | for any number of levels, the timer ends up in the bottom row behind all earlier or equal deadlines, every row stays a sorted sublist, the deadline is now plus `init_tick`, and exact flags stay exact |
| `Timers.TimerList.Stop` | rt-thread-4.0.1/src/timer.c:422-447 | fails exactly if the flag is clear, which with exact flags means that the timer is not running; otherwise it leaves every row |
| `Timers.TimerList.FireFirst` | rt-thread-4.0.1/src/timer.c:505-546 | one round of the check loop with its callback does what the model does, and flags that were exact are exact again if and only if the timer is periodic or its callback does not leave it started |
| `Timers.TimerList.Callback` | rt-thread-4.0.1/src/timer.c:519-528 | a callback that starts and stops any timers, run on the skip list between the removal and the flag test, does what the model does |
| `Timers.TimerList.NextTimeout` | rt-thread-4.0.1/src/timer.c:108-119 | the earliest deadline, or `RT_TICK_MAX` when nothing runs |
| `Timers.TimerList.Check` | rt-thread-4.0.1/src/timer.c:494-553 | the loop terminates, with callbacks that start and stop any timers, and calls and leaves exactly what the unbounded model does, at the wrapped tick |
| `Timers.TimerList.TickIncrease` | rt-thread-4.0.1/src/clock.c:72-98 | the timer half of a tick is one tick of the model, also when the tick counter wraps to zero (`Clock.Clock.TickIncrease` has both halves) |
| `Timers.TimerList.Execute` | rt-thread-4.0.1/src/timer.c:296-553 | over any run of ticks, starts and stops, with any callbacks, skip list and wrapping clock call exactly the timers that the model fires, in its order and at its ticks, hence as `FiresOnTime` and `LogInOrder` say |
| `Timers.CalledOnTime` | rt-thread-4.0.1/src/timer.c:296-553 | in what the skip list calls over a run in which nobody starts or stops a timer, that timer stands with exactly the ticks of its deadlines, wrapped around, without drift |
| `Clock.OneSlice` | rt-thread-4.0.1/src/clock.c:84-94 | the running thread is charged the rest of its slice, tick by tick, and then stands at the end of its priority's ring with a new slice |
| `Clock.FullTurn` | rt-thread-4.0.1/src/clock.c:84-94 | when all slices are full, each thread of the top priority is charged exactly its `init_tick` consecutive ticks, in ring order, and then ring and slices are as before |
| `Clock.TickTurns` | rt-thread-4.0.1/src/clock.c:84-94 | what a tick does to ready queues and slices is one step of taking turns |
| `Clock.Clock.SpendSlice` | rt-thread-4.0.1/src/clock.c:84-94 | a tick is charged to the running thread alone, and exactly the last tick of a slice renews it and schedules |
| `Clock.Clock.TickIncrease` | rt-thread-4.0.1/src/clock.c:72-98 | one tick advances the wrapping counter, charges the running thread, and does to the timers what one tick of the model does |
| `Clock.Clock.Ticks` | rt-thread-4.0.1/src/clock.c:72-98 | over any number of ticks in which nobody becomes ready or blocks, the threads charged are those of the turns, hence of `FullTurn`, and the timers called are those of the model's run of as many ticks |
| `Ffs.BitmapLowest` | rt-thread-4.0.1/src/kservice.c:1286-1304 | every non-zero entry of the 256-byte table is the number of its lowest set bit |
| `Ffs.RtFfsLowest` | rt-thread-4.0.1/src/kservice.c:1316-1330 | zero exactly for zero, otherwise one more than the number of the lowest set bit of the 32-bit word |
| `Ffs.SetBit32` | rt-thread-4.0.1/src/scheduler.c:688-722 | or-ing in a mask sets one bit and no other |
| `Ffs.ClearBit32` | rt-thread-4.0.1/src/scheduler.c:785-815 | and-ing out a mask clears one bit and no other |
| `Scheduler.BitsInsert` | rt-thread-4.0.1/src/scheduler.c:688-722 | the bitmap writes of an insertion keep the one- or two-level map marking exactly the non-empty queues |
| `Scheduler.BitsRemove` | rt-thread-4.0.1/src/scheduler.c:785-815 | so do those of removing a queue's last thread, where the group bit goes only with the last bit of its byte |
| `Scheduler.GroupZero` | rt-thread-4.0.1/src/scheduler.c:420-430 | the group word is zero if and only if no thread is ready |
| `Scheduler.BitmapRefinesScan` | rt-thread-4.0.1/src/scheduler.c:162-184 | the bitmap lookup finds the lowest-numbered non-empty queue, as a linear scan would |
| `Scheduler.RetireKeeps` | rt-thread-4.0.1/src/thread.c:657-696 | a suspended or closed thread is in no queue, and everybody else stays in place |
| `Scheduler.PriorityKeeps` | rt-thread-4.0.1/src/thread.c:572-613 | a change of priority moves a ready thread to the queue of its new priority and no other thread |
| `Scheduler.SwitchKeeps` | rt-thread-4.0.1/src/scheduler.c:444-459 | the switch keeps every thread in exactly one place |
| `Scheduler.SwitchEffect` | rt-thread-4.0.1/src/scheduler.c:444-459 | the head of the chosen queue runs, the outgoing thread goes behind its own queue if it was running, and no other thread or queue changes |
| `Scheduler.ScheduleRunsTop` | rt-thread-4.0.1/src/scheduler.c:411-523 | after an unlocked call with a ready thread, no ready thread outranks the running one |
| `Scheduler.PlacedOnce` | rt-thread-4.0.1/src/scheduler.c:688-815 | in every valid state a ready thread stands at exactly one place of exactly one queue, that of its priority, and no other thread stands in any |
| `Scheduler.InsertJoins` | rt-thread-4.0.1/src/thread.c:706-740 | a thread that is resumed becomes the last of the queue of its priority; no other queue, thread or place changes |
| `Scheduler.StartJoins` | rt-thread-4.0.1/src/thread.c:288-320 | so does one that is started, at its initial priority |
| `Scheduler.ChangeJoins` | rt-thread-4.0.1/src/thread.c:572-613 | so does a ready thread whose priority changes, and the queue it stood in loses only it |
| `Scheduler.JoinsBehind` | rt-thread-4.0.1/src/scheduler.c:688-722 | hence whoever becomes ready has all that were ready at that priority before it |
| `Scheduler.ServedInOrder` | rt-thread-4.0.1/src/scheduler.c:411-523 | `rt_schedule` never runs a thread while another is ready before it, and leaves the two in that order until the first runs |
| `Scheduler.ScheduleRotates` | rt-thread-4.0.1/src/scheduler.c:411-523 | one call rotates the threads of the top priority by one |
| `Scheduler.RotatedAt` | rt-thread-4.0.1/src/scheduler.c:411-523 | after n calls the i-th of k threads is the one that was at (i + n) modulo k |
| `Scheduler.EachOnce` | rt-thread-4.0.1/src/scheduler.c:411-523 | in any k consecutive entries of such a run each of the k threads occurs exactly once |
| `Scheduler.TierOnce` | rt-thread-4.0.1/src/scheduler.c:688-722 | in every valid state the running thread and the queue of its priority repeat no thread |
| `Scheduler.ScheduledSame` | rt-thread-4.0.1/src/scheduler.c:411-523 | scheduling changes no priority and suspends or wakes nobody |
| `Scheduler.Scheduler.constructor` | rt-thread-4.0.1/src/scheduler.c:191-239 | every queue empty, every bitmap clear |
| `Scheduler.Scheduler.ThreadInit` | rt-thread-4.0.1/src/thread.c:117-208 | a new thread is known but not queued |
| `Scheduler.Scheduler.InsertThread` | rt-thread-4.0.1/src/scheduler.c:688-722 | the bitmaps still mark exactly the non-empty queues; the thread is ready and the last of the queue of its priority, or, if it is the running one, runs on; nothing else changes |
| `Scheduler.Scheduler.RemoveThread` | rt-thread-4.0.1/src/scheduler.c:785-815 | the same for a removal |
| `Scheduler.Scheduler.GetHighest` | rt-thread-4.0.1/src/scheduler.c:162-184 | returns the head of the lowest-numbered non-empty queue |
| `Scheduler.Scheduler.Schedule` | rt-thread-4.0.1/src/scheduler.c:411-523 | nothing happens while the scheduler is locked or nothing is ready; otherwise the highest ready thread runs unless the running one is strictly higher, and afterwards no ready thread outranks the running one |
| `Scheduler.Scheduler.Start` | rt-thread-4.0.1/src/scheduler.c:246-270 | the first thread to run is one of highest priority |
| `Scheduler.Scheduler.Startup` | rt-thread-4.0.1/src/thread.c:288-320 | the thread becomes ready at its initial priority, last of its queue, and, unless locked, the lowest-numbered non-empty queue decides who runs |
| `Scheduler.Scheduler.Resume` | rt-thread-4.0.1/src/thread.c:706-740 | fails exactly for threads that are not suspended; otherwise the thread is ready, its queue is the old one followed by it, and nothing else changes |
| `Scheduler.Scheduler.Suspend` | rt-thread-4.0.1/src/thread.c:657-696 | fails exactly for threads that are neither ready nor running; otherwise the thread leaves its queue |
| `Scheduler.Scheduler.Exit` | rt-thread-4.0.1/src/thread.c:80-115 | the exiting thread is closed and in no queue; unless the scheduler is locked or nothing is ready, another thread of highest priority runs |
| `Scheduler.Scheduler.ChangePriority` | rt-thread-4.0.1/src/thread.c:572-613 | a ready thread leaves its queue and becomes the last of that of the new priority; for any other only its priority changes; masks and bitmaps agree |
| `Scheduler.Scheduler.ExitCritical` | rt-thread-4.0.1/src/scheduler.c:915-940 | only the outermost exit schedules, as `rt_schedule` would, and then no ready thread outranks the running one |
| `Scheduler.Scheduler.Rounds` | rt-thread-4.0.1/src/scheduler.c:411-523 | n consecutive calls with a fixed runnable set run the k top-priority threads in cyclic order, and each of them exactly once in every k consecutive calls |
| `IpcList.FindPosition` | rt-thread-4.0.1/src/ipc.c:97-116 | the search stops before the first waiter of strictly lower priority, or at the end |
| `IpcList.EnqueuedOrdered` | rt-thread-4.0.1/src/ipc.c:79-122 | a priority list stays sorted, newcomers behind equals in order of arrival |
| `IpcList.LineEnqueued` | rt-thread-4.0.1/src/ipc.c:79-122 | a list is in the order of its flag, by arrival or by priority and then arrival, and stays so when the running thread starts to wait |
| `IpcList.LineMinus` | rt-thread-4.0.1/src/ipc.c:133-146 | and when anybody leaves, by a wake-up or a timeout |
| `IpcList.FirstIsNext` | rt-thread-4.0.1/src/ipc.c:133-146 | so the first of the list has waited longest, or is the most urgent, and of equals the one that has waited longest |
| `IpcList.WaitingBlock` | rt-thread-4.0.1/src/ipc.c:79-122 | after suspending the running thread into a list every member is suspended, each once |
| `IpcList.WaitingWake` | rt-thread-4.0.1/src/ipc.c:133-146 | after waking one member the rest are still suspended |
| `Mutex.BlockKeeps` | rt-thread-4.0.1/src/ipc.c:714-732 | the blocking take lifts the owner to the waiter's priority if that is higher and keeps the whole invariant: owner at least as urgent as every waiter, waiters stably sorted, everybody else at base priority |
| `Mutex.BlockInherits` | rt-thread-4.0.1/src/ipc.c:714-732 | the owner is lifted to the waiter's priority if that is more urgent, and otherwise left alone; the waiter is suspended; no other priority or state changes |
| `Mutex.HandOffKeeps` | rt-thread-4.0.1/src/ipc.c:827-860 | passing the mutex to the first waiter keeps the invariant: the new owner is already as urgent as the remaining waiters and the old one is back at its base priority |
| `Mutex.ReleaseGivesBack` | rt-thread-4.0.1/src/ipc.c:827-869 | the last release puts the former owner at its own priority and makes the first waiter ready; no other priority or state changes |
| `Mutex.FreeKeeps` | rt-thread-4.0.1/src/ipc.c:827-869 | so does the last release without waiters |
| `Mutex.TimeoutKeeps` | rt-thread-4.0.1/src/thread.c:749-771 | so does a waiter that times out |
| `Mutex.NoInversion` | rt-thread-4.0.1/src/ipc.c:720-727 | after scheduling, as long as the owner can run, whoever runs is at least as urgent as every waiter |
| `Mutex.ReleaseRunsTop` | rt-thread-4.0.1/src/ipc.c:830-879 | the last release without waiters leaves the right thread running if and only if no ready thread outranks the owner's own priority |
| `Mutex.ReleaseCanInvert` | rt-thread-4.0.1/src/ipc.c:830-879 | a state within the invariant, its timed-out waiter asleep, in which a more urgent ready thread is left waiting |
| `Inversion.ReleaseInvertsRun` | rt-thread-4.0.1/src/ipc.c:653-880 | three threads reach such a state from freshly initialised objects: one inherits the priority of a waiter that times out, another becomes ready, and the release lets the first run on |
| `Inversion.NextRuns` | rt-thread-4.0.1/src/scheduler.c:411-523 | the strictly most urgent ready thread is the one that an unlocked `rt_schedule` runs, unless the running one is more urgent |
| `Mutex.Mutex.constructor` | rt-thread-4.0.1/src/ipc.c:529-549 | a free mutex: value 1, no owner, hold 0 |
| `Mutex.Mutex.Take` | rt-thread-4.0.1/src/ipc.c:653-752 | taken exactly if free or already owned, timed out exactly if busy with no time, otherwise queued by priority with the owner lifted exactly as far as needed; no owner, value 1 and hold 0 always coincide |
| `Mutex.Mutex.Release` | rt-thread-4.0.1/src/ipc.c:789-880 | refused exactly for non-owners; nested releases only count down; the last one frees the mutex or hands it to the first waiter, and the old owner gets its base priority back |
| `Mutex.Mutex.Timeout` | rt-thread-4.0.1/src/thread.c:749-771 | the waiter leaves the list with a timeout and is ready, the mutex does not change hands |
| `Mutex.Mutex.TakeReturn` | rt-thread-4.0.1/src/ipc.c:754-778 | a thread that had to wait returns success exactly if it owns the mutex |
| `Mutex.Mutex.Reschedule` | rt-thread-4.0.1/src/scheduler.c:411-523 | scheduling keeps the mutex invariant |
| `Mutex.Mutex.Otherwise` | rt-thread-4.0.1/src/thread.c:80-740 | steps of threads that neither own the mutex nor are inside `rt_mutex_take` keep the mutex invariant |
| `Event.SatisfiedMeans` | rt-thread-4.0.1/src/ipc.c:1062-1081 | bit by bit: an AND receiver is satisfied if every event it wants is there, an OR receiver if one of them is |
| `Event.SatisfiedMonotone` | rt-thread-4.0.1/src/ipc.c:1062-1081 | both the AND and the OR condition survive more events |
| `Event.ReceivedMeans` | rt-thread-4.0.1/src/ipc.c:1062-1095 | a woken receiver is told exactly those events that it wants and that are there |
| `Event.DeliverNext` | rt-thread-4.0.1/src/ipc.c:1053-1100 | the traversal, waiter by waiter: the next one is granted exactly if its condition holds for the events that those before it have left, it is told those of them it wants, and clearing takes exactly these; otherwise it is passed over |
| `Event.DeliverStrandsNobody` | rt-thread-4.0.1/src/ipc.c:1028-1110 | no waiter that the single traversal passed over has its condition met by the events that are left, although events were cleared on the way |
| `Event.DeliverConserves` | rt-thread-4.0.1/src/ipc.c:1028-1110 | the events left are exactly those sent less those taken by clearing receivers |
| `Event.DeliverDisjoint` | rt-thread-4.0.1/src/ipc.c:1028-1110 | an event taken by a clearing receiver reaches no later one |
| `Event.GrantWithin` | rt-thread-4.0.1/src/ipc.c:1062-1095 | what a woken receiver is told is part of the events, part of what it asked for, and enough for it |
| `Event.GrantsOnce` | rt-thread-4.0.1/src/ipc.c:1053-1100 | nobody is granted twice in one traversal, and only waiters are |
| `Event.GrantsAnswered` | rt-thread-4.0.1/src/ipc.c:1053-1100 | after a traversal exactly the granted threads are answered, each with the events of its grant in `event_set` and no error |
| `Event.KeptInLine` | rt-thread-4.0.1/src/ipc.c:1053-1100 | whoever is passed over keeps its place in the list |
| `Event.Event.constructor` | rt-thread-4.0.1/src/ipc.c:914-932 | no events, no waiters |
| `Event.Event.Send` | rt-thread-4.0.1/src/ipc.c:1028-1110 | in every reachable state no suspended thread's condition holds for the set, and the list is in the order of its flag; sending resumes exactly the threads whose condition the traversal meets, in list order, and answers exactly these, each with its events |
| `IpcList.AwakeSchedule` | rt-thread-4.0.1/src/scheduler.c:411-523 | a thread that has been resumed stays ready or running until it runs into a wait itself |
| `Others.MoveStill` | rt-thread-4.0.1/src/thread.c:80-740 | creating, starting, resuming, suspending, re-prioritising or ending one thread, with the scheduling that follows, suspends nobody else, wakes nobody else, and changes nobody else's priority |
| `Others.Perform` | rt-thread-4.0.1/src/thread.c:80-740 | each of these operations has exactly the stated effect on threads and queues |
| `Others.MoveInOrder` | rt-thread-4.0.1/src/thread.c:80-740 | none of these operations, done to anybody else, runs a thread before one that was ready before it at its priority, or swaps the two |
| `Others.FirstComeFirstServed` | rt-thread-4.0.1/src/scheduler.c:411-523 | over any run of scheduling and of operations on other threads, a thread that became ready after another of its priority runs only after that one |
| `Event.Event.Traverse` | rt-thread-4.0.1/src/ipc.c:1053-1100 | the loop that unlinks nodes and clears bits while it walks the list does what one pass over the original list would |
| `Event.Event.Recv` | rt-thread-4.0.1/src/ipc.c:1126-1214 | blocks only if the condition does not hold, at the place in the list that its flag demands and with what was asked for recorded; otherwise the events asked for that are there are returned and, if asked, cleared |
| `Event.Event.Timeout` | rt-thread-4.0.1/src/thread.c:749-771 | the waiter leaves, answered with a timeout, and nobody becomes stranded |
| `Event.Event.Reset` | rt-thread-4.0.1/src/ipc.c:1248-1276 | every waiter is resumed in list order, answered with an error, nobody else is, and the set is empty |
| `Event.Event.RecvReturn` | rt-thread-4.0.1/src/ipc.c:1214-1236 | a thread that waited succeeds exactly if it was granted, and is told exactly the events of the grant, a part of what it asked for that is enough; it returns a timeout exactly after a timeout and an error exactly after a reset |
| `Event.Event.Otherwise` | rt-thread-4.0.1/src/thread.c:80-740 | steps of threads that are in no call on the event strand nobody |
| `Mailbox.PutMail` | rt-thread-4.0.1/src/ipc.c:1534-1541 | storing in the ring appends one mail at the end of the sequence, whatever the offsets |
| `Mailbox.GetMail` | rt-thread-4.0.1/src/ipc.c:1682-1690 | fetching takes the first mail of the sequence |
| `Mailbox.PutKeeps` | rt-thread-4.0.1/src/ipc.c:1534-1554 | a send keeps: while receivers wait, `entry` is at most the number of woken receivers on their way; while senders wait, the free places are at most the woken senders |
| `Mailbox.GetKeeps` | rt-thread-4.0.1/src/ipc.c:1682-1705 | so does a receive |
| `Mailbox.ReceiverBlockKeeps` | rt-thread-4.0.1/src/ipc.c:1618-1660 | so does a receiver that starts, or goes back, to wait |
| `Mailbox.SenderBlockKeeps` | rt-thread-4.0.1/src/ipc.c:1472-1512 | so does a sender |
| `Mailbox.ReceiverQuitKeeps` | rt-thread-4.0.1/src/ipc.c:1618-1632 | so does a woken receiver that finds nothing and has no time left |
| `Mailbox.SenderQuitKeeps` | rt-thread-4.0.1/src/ipc.c:1472-1484 | so does a woken sender that finds no room |
| `Mailbox.ExpelKeeps` | rt-thread-4.0.1/src/thread.c:749-771 | so does a timeout of any waiter |
| `Mailbox.ResetKeeps` | rt-thread-4.0.1/src/ipc.c:1725-1757 | so does emptying the box once all waiters have been sent away |
| `Mailbox.NobodyWaitsInVain` | rt-thread-4.0.1/src/ipc.c:1441-1713 | when nobody is on the way, receivers wait only at an empty box and senders only at a full one |
| `Mailbox.SendLines` | rt-thread-4.0.1/src/ipc.c:1441-1560 | both waiting lists stay in the order of the flag over a send, whatever branch it takes |
| `Mailbox.RecvLines` | rt-thread-4.0.1/src/ipc.c:1589-1713 | and over a receive |
| `Mailbox.Mailbox.constructor` | rt-thread-4.0.1/src/ipc.c:1293-1321 | an empty box that nobody uses |
| `Mailbox.Mailbox.SendStep` | rt-thread-4.0.1/src/ipc.c:1441-1560 | a mail is accepted exactly if there is room, and then exactly the first waiting receiver is resumed, the one whose turn it is by the flag; mails come out in the order they went in, none lost or duplicated; every thread that counts as woken is ready or running |
| `Mailbox.Mailbox.RecvStep` | rt-thread-4.0.1/src/ipc.c:1589-1713 | a mail is handed out exactly if there is one, it is the oldest, and exactly the first waiting sender is resumed, the one whose turn it is by the flag |
| `Mailbox.Mailbox.Expel` | rt-thread-4.0.1/src/thread.c:749-771 | one waiter leaves, and why is noted; the mails and everybody else stay |
| `Mailbox.Mailbox.Reset` | rt-thread-4.0.1/src/ipc.c:1725-1757 | all waiters of both kinds, and nobody else, are resumed in order with an error, the box is empty, threads already on their way are undisturbed |
| `Mailbox.Mailbox.Fail` | rt-thread-4.0.1/src/ipc.c:1662-1667 | a call that waited in vain returns a timeout exactly after a timeout and an error exactly after a reset |
| `Mailbox.Mailbox.Otherwise` | rt-thread-4.0.1/src/thread.c:80-740 | steps of threads that are in no call on the mailbox lose no wakeup and no mail |
| `MessageQueue.ClaimKeeps` | rt-thread-4.0.1/src/ipc.c:1980-1997 | the slots free, queued, being filled and being drained stay disjoint and make up all slots when a sender takes a free one |
| `MessageQueue.LinkKeeps` | rt-thread-4.0.1/src/ipc.c:2004-2020 | the same when a filled slot enters the queue |
| `MessageQueue.UnlinkKeeps` | rt-thread-4.0.1/src/ipc.c:2237-2250 | the same when a receiver takes one out |
| `MessageQueue.RecycleKeeps` | rt-thread-4.0.1/src/ipc.c:2255-2261 | the same when it gives the slot back |
| `MessageQueue.DropKeeps` | rt-thread-4.0.1/src/ipc.c:2296-2311 | the same for every slot that a reset takes out of the queue |
| `MessageQueue.CopyInKeeps` | rt-thread-4.0.1/src/ipc.c:2001-2002 | a byte copied with interrupts enabled changes no message that is queued, being filled or being drained by others |
| `MessageQueue.LinkBytes` | rt-thread-4.0.1/src/ipc.c:2001-2020 | a slot enters the queue carrying exactly the sender's buffer |
| `MessageQueue.Delivered` | rt-thread-4.0.1/src/ipc.c:2252-2253 | the bytes a receiver has are those of the message that was sent in its slot |
| `MessageQueue.ArrivalKeeps` | rt-thread-4.0.1/src/ipc.c:2006-2036 | linking a message and waking the first receiver keeps: while receivers wait, `entry` is at most the number of woken receivers on their way |
| `MessageQueue.TakeKeeps` | rt-thread-4.0.1/src/ipc.c:2237-2250 | so does taking a message, by a woken receiver or by one that comes in between |
| `MessageQueue.WaitKeeps` | rt-thread-4.0.1/src/ipc.c:2172-2215 | so does a receiver that starts, or goes back, to wait |
| `MessageQueue.QuitKeeps` | rt-thread-4.0.1/src/ipc.c:2163-2188 | so does one that finds nothing and has no time left |
| `MessageQueue.ExpelledKeeps` | rt-thread-4.0.1/src/thread.c:749-771 | so does a timeout of any waiter |
| `MessageQueue.EmptiedKeeps` | rt-thread-4.0.1/src/ipc.c:2288-2315 | so does a reset once all waiters have been sent away |
| `MessageQueue.NobodyWaitsInVain` | rt-thread-4.0.1/src/ipc.c:1963-2267 | when nobody is on the way, receivers wait only at an empty queue |
| `MessageQueue.MessageQueue.constructor` | rt-thread-4.0.1/src/ipc.c:1780-1827 | all slots are free and linked, as many as the pool holds with their headers |
| `MessageQueue.MessageQueue.Begin` | rt-thread-4.0.1/src/ipc.c:1974-1997 | refused exactly for messages that are too big or when no slot is free; the slot is the sender's alone |
| `MessageQueue.MessageQueue.CopyIn` | rt-thread-4.0.1/src/ipc.c:2001-2002 | one byte of a copy, at any moment between other threads' steps, leaves the queue's contents alone |
| `MessageQueue.MessageQueue.LinkLast` | rt-thread-4.0.1/src/ipc.c:2004-2036 | the message is appended, head, tail, links and `entry` agree with the new contents, and exactly the first waiting receiver is resumed, the one whose turn it is by the flag |
| `MessageQueue.MessageQueue.LinkFirst` | rt-thread-4.0.1/src/ipc.c:2088-2122 | an urgent message is put in front, and exactly the first waiting receiver is resumed, the one whose turn it is by the flag |
| `MessageQueue.MessageQueue.Unlink` | rt-thread-4.0.1/src/ipc.c:2237-2250 | the first message leaves the queue, its slot is the receiver's, and head, tail and `entry` agree with the rest |
| `MessageQueue.MessageQueue.RecvStep` | rt-thread-4.0.1/src/ipc.c:2138-2250 | a receiver that calls, or looks again after being woken, takes the first message exactly if there is one, and otherwise gives up or waits, at the place in the list that the flag demands |
| `MessageQueue.MessageQueue.Expel` | rt-thread-4.0.1/src/thread.c:749-771 | one waiter leaves, why is noted, and no wakeup is lost |
| `MessageQueue.MessageQueue.Fail` | rt-thread-4.0.1/src/ipc.c:2217-2222 | a call that waited in vain returns a timeout exactly after a timeout and an error exactly after a reset |
| `MessageQueue.MessageQueue.Otherwise` | rt-thread-4.0.1/src/thread.c:80-740 | steps of threads that are not inside `rt_mq_recv` lose no wakeup and no message |
| `MessageQueue.MessageQueue.CopyOut` | rt-thread-4.0.1/src/ipc.c:2252-2253 | one byte of the copy out, between any steps of others |
| `MessageQueue.MessageQueue.Recycle` | rt-thread-4.0.1/src/ipc.c:2252-2261 | under any interleaving, the receiver gets the bytes of exactly the message it unlinked, cut to its buffer |
| `MessageQueue.MessageQueue.Reset` | rt-thread-4.0.1/src/ipc.c:2288-2322 | all waiters are resumed in order with an error, the queue is empty, its slots are free, and calls in progress keep their slots |

## Left out

Contracts that are deliberately weaker:

- MemHeap.Heap.Realloc: a pointer must be a live block, because the source reads the header before it; and a rounded size within 12 of 2^32 beside a free right neighbour is excluded, since there the source goes on with wrapped sizes (`GrowTestExact`).
- SmallMem.Heap.Malloc: the call must be one that returns, which `FreshScanEnds` characterises; only heaps of 0, 4 or 8 bytes are affected.
- SmallMem.Heap.Free: a pointer inside the heap must be a live block, because the source reads the header before it.
- SmallMem.Heap.Realloc: a pointer inside the heap must be a live block, because the source reads the header before it; a null pointer needs what `SmallMem.Heap.Malloc` needs.
- Slab.SlabAllocator.Free: the pointer must be a live chunk or large block, because the source reads `memusage` and the zone header without checking.
- Timers.TimerList.Start: the delay is below half the clock and live deadlines are within half a clock of the new one, since the wrapped comparisons decide nothing otherwise.
- Timers.TimerList.Check: whatever it or a callback starts has a delay of at least 1, since with a delay of 0 the loop need not end; callbacks take no tick, change no delay and no PERIODIC flag, and name initialised timers.
- Scheduler.Scheduler.Rounds: the runnable set is fixed while the calls are counted.
- Clock.Clock.Ticks: the runnable set is fixed while the ticks are counted, and timer callbacks start and stop timers only.
- Mutex.Mutex.constructor: covers one mutex with the priority flag, with every thread at its own priority when it is created; inheritance through several mutexes is not transitive in the source, waiters are not sorted again when their priority changes, and the first-in-first-out flag does not inherit on hand-off.
- Event.Event.Recv: one of AND and OR must be given; the source asserts it.
- Mailbox.Mailbox.SendStep: the remaining timeout after a wake-up is not computed; a thread woken without an error may look again with any time left, which includes what the source computes. The same holds for `MessageQueue.RecvStep`.
- Mailbox.Mailbox.Otherwise: a thread that waits at the object, or has been woken there and not gone on, is not resumed or suspended by others in between; `rt_thread_resume` of a waiter would take it off the list without an answer. The same holds for the other three objects, and a priority change is a step of the mailbox, the event and the message queue only.

What the source does beyond the model:

- SMP: spinlocks, bound threads and inter-processor interrupts.
- Locking of the heaps by semaphores or mutexes, interrupt contexts and the checks for them.
- The bytes of a block header: a header written over memory leaves unspecified bytes, magic numbers and heap pointers in headers are not checked.
- `rt_calloc`, `rt_memheap_detach`, the system heap made of several memheaps, and `rt_realloc` of the slab allocator, which only combine what is modelled.
- Statistics of the slab allocator (`used_mem`, `max_mem`).
- `rt_mp_*` memory pools: their waiter counter is not decremented on a timeout, and the rest is the free list of the message queue.
- Semaphores: the counting half of the mailbox protocol.
- Creation, deletion and detaching of IPC objects and threads while others wait.
- Soft timers, whose callbacks run with the scheduler unlocked.
- Thread timers: any waiter may time out at any moment in the model.
- `rt_tick_from_millisecond`, `rt_thread_sleep` and `rt_thread_delay`.
- Signals and the retry of an interrupted `rt_mutex_take`.
- Hooks, debug logging, object names, stacks: a context switch is the assignment to the current thread.
- Ready queues, suspend lists, zone lists and the free chunks of a zone are sequences; that in-place ring operations implement such sequences is proved in `RtList` and used for `memheap.c` and `timer.c` only.
- Masking with 2^k - 1 is written as remainder or rounding; bit-vectors are used for the ready masks, the event sets, the power-of-two test and the skip-list counter.
- Zones are aligned to pages only, so alignment of chunks is proved up to the page size.
- Overflow of `hold`, of the scheduler's nesting counter and of 16-bit counts.
- Device drivers, console output, formatted printing and the build scripts.
