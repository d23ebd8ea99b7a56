# Verified model of the queue library

This project models the queue library's hardest machinery in Dafny and proves what its code and documentation promise
of it.

**The positional copy-on-write B-tree** (`Shapes`, `NodeGraph`, `Handover`, `CowStore`, `PositionalTree`, `TreeReads`,
`TreeRuns`, `TreeFifo`). Nodes live in a store with reference counters, as in the source; the sequence a tree stands for
is the specification. `Shapes` holds the pure facts of splitting, merging and shifting; `NodeGraph` the invariant on the
node graph, in particular that a node has at most `rc + 1` references (not exactly: `Clear` drops the root without
giving its reference back); `Handover` how a writer opens an exclusive node, works below it and closes it again.
`CowStore` and `PositionalTree` are the imperative algorithms, each proved to act on the sequence and to keep depth,
occupancy and counts. Concurrent releases of snapshots decrement counters between the writer's steps (`Interfere`).
`TreeRuns` is snapshot isolation over whole runs, snapshots taken on the way included, and `TreeFifo` the queue on top.

**The in-memory backings.** `Orders`, `HeapOrder` and `PriorityHeap` are the heap with its swap journal; the caller's
comparison may unwind at any call. `SliceFifo` is the sliding slice storage, `KeyedTree` the keyed tree with its hash
index, out of which Hash and Less may unwind, `Matching` what Del and Exists look for. `Accounting` and `Hydration` are
the accounting of restored entries; `Admission` (and `AdmissionRuns`, its results over whole runs) is the transaction
discipline all of them share, as a state machine of any number of goroutines: reservations held while a hook runs
unlocked, caller code that returns, fails or unwinds, signals gated on waiters, the exemption for restored entries, and
Close. One step is one critical section, so a registered waiter is one whose registration preceded the unlock, as
`Signal.Wait` arranges it. `Delivery` is what its steps put in and hand out: over whole runs every item is handed out
once or is still there, and a queue without priorities is first in, first out. `ArrivalOrder` ties the two together:
what the heap's and the keyed tree's critical sections leave is what the steps of the state machine leave.

**The concurrency protocols.** `Parkers` is Register, Park, Wake, Broadcast, Detach, Release and Wait's choice between
the last two, one atomic action at a time over all interleavings; a parker's `era` counts its trips through the pool.
`Wakeups` is that it gets everyone on: a Broadcast and a cancelled context free whoever they are for, nobody is
forgotten once nothing is left to do, and the pool loses no parker but those of cancelled Waits. The scheduler's own
signal is the same code. `FairRing` is Deficit Weighted Round Robin on class lengths: whose turn it is and how long, and
the fairness and starvation bounds over arbitrary windows; `Scheduler` is the scheduler class, whose every step is
proved to be the ring's, and whose runs therefore hand out items as fairly.

**The on-disk backing.** `GroupCommit` is staging, group commit, settlement and accounting, with a flusher that caller
code may end at any point; `StoreKeys` is the key order; `StoreQueue` is the same protocol as its callers see it: items
leave once, in the order of the keys, a staged Push gets its answer, and the flusher goes on until it is told to end or
caller code ends it. `Shutdown` is any number of concurrent, re-entrant and retried Closes, what they report and that
none of them waits in vain. `Basics` holds what every part uses.

## Where the code does not keep what it promises

Each with the condition under which it does, and a reachable state or a run in which it does not:

- Less unwinding out of the heap's rebuild in `Del` leaves the entries removed. The exemption for restored entries is
  then too large unless none was removed, a producer can sleep on although there is room for it, and the bound can be
  exceeded (`Admission.ExactIsKeptIff`, `AdmissionRuns.UnwoundDelLosesAWakeup`,
  `AdmissionRuns.UnwoundDelBreaksTheBound`); heap order survives every such unwinding exactly when the removal left a
  heap (`HeapOrder.OrderSurvivesUnwindingIff`), and otherwise Pop can give items out of order
  (`PriorityHeap.PopsOutOfOrder`).
- Hash unwinding out of the removals of the keyed tree's `Del` leaves an entry in the index that is no longer in the
  tree: some unwinding does so exactly when something in the tree matches (`KeyedTree.Backing.Del`), and Exists then
  finds what is not there (`KeyedTree.AfterAnUnwoundDel`). The exemption and the wakeup are missed as in the heap.
- Less unwinding out of the keyed tree's `Push` leaves the part of the batch that has landed; on an empty queue a
  consumer sleeps on beside it (`AdmissionRuns.UnwoundPushLosesAWakeup`, with its condition in
  `Admission.ExactIsKeptIff`).
- Less unwinding out of the sort that `All` makes of the heap's array leaves it as far as the sort came. An array in
  ascending order and any heap of at most five entries stay heaps, and for no larger size does every heap
  (`HeapOrder.HeapsSurviveSortingIff`, `PriorityHeap.AfterAnUnwoundAll`).
- `Clear` of an empty queue does nothing, so it does not put right what an unwound Del has left of the exemption or in
  the index; otherwise it does (`PriorityHeap.Backing.Clear`, `KeyedTree.Backing.Clear`,
  `KeyedTree.ClearKeepsTheStale`).
- Hash unwinding out of the on-disk Pop's index update leaves the count too large by what was popped
  (`GroupCommit.BalanceIsKeptIff`), and Pop can then fail on an empty store until something is pushed and counted or the
  queue is cleared (`GroupCommit.UnwoundPopLeavesAMissingKey`, with `GroupCommit.PopMeetsNoMissingKeyIff` saying when it
  cannot).
- The on-disk count goes below zero exactly when a Del removes more than has been counted, and stays there only while a
  written batch has yet to be counted. That can happen in every kind of store but one that is both indexed and FIFO
  (`GroupCommit.CountGoesBelowZeroIff`, `GroupCommit.CountIsBelowZeroOnlyBeforeCounting`,
  `GroupCommit.CountIsNeverNegativeIff`): in an indexed priority store a Pop can take an item that is written and not
  yet counted, because it goes ahead of those that are (`GroupCommit.IndexedCountCanBeNegative`).
- A key can stay in the on-disk index after its item has left the store, when a Pop takes the item before it is counted
  and listed, or Hash unwinds out of a Pop (`GroupCommit.StaleGrowsIff`); lookups pass over it
  (`GroupCommit.StaleIsNeverStored`).
- The documentation of `Close` promises every caller of a completed shutdown the same answer. Two kinds of caller miss
  it: one whose own timer fires as the shutdown completes is told "in progress", and one whose join timed out, and which
  another Close overtakes before it has closed its channel, is told "incomplete"; every other Close that gets as far
  as the shutdown and returns after completion is given the joined result (`Shutdown.AnswerAfterCompletionIff`, with a
  run for each exception).

How to read the contracts: the state machines (`Admission`, `Parkers`, `GroupCommit`, `Shutdown`) define `Enabled` and
`Next` branch by branch after the source, an invariant of one small predicate per kind of reference, one lemma per
predicate saying every step keeps it, and the results as lemmas on every reachable state. What a step hands out, takes
in or answers is stated beside them without reference to `Next` (`Delivery.Out`, `StoreQueue.Out`, `Shutdown.HeardAll`),
and that the step does just that is a lemma. The classes (`Store`, `Tree`, the backings, `Cbwfq`) carry their results as
postconditions.

## Model

| member | source | states |
|---|---|---|
| CowStore.Store.constructor | queue/internal/backings/btype/btype_btree.go:12-31 | a store without nodes keeps the invariant, whichever of the snapshots yet to be taken may be released while the writer works |
| CowStore.Store.Interfere | queue/internal/backings/btype/btype_btree.go:707-712 | between two steps of the writer, concurrent releases may begin and make any number of single decrements; the invariant and everything the writer holds survive |
| CowStore.Store.BeginRelease | queue/internal/backings/btype/btype_btree.go:707-712 | a leaving snapshot gives up its root reference to be decremented; references stay at most rc + 1 |
| CowStore.Store.StepRelease | queue/internal/backings/btype/btype_btree.go:211-225 | one decrement of a running release; a node that drops below zero owes its children's decrements |
| CowStore.Store.ReleaseNode | queue/internal/backings/btype/btype_btree.go:211-225 | the caller's reference is gone, the last one out releases the children, and no tree still referenced changes |
| CowStore.Store.ReleaseKids | queue/internal/backings/btype/btype_btree.go:219-223 | exactly the references to the listed children are given back |
| CowStore.Store.Write | queue/internal/backings/btype/btype_btree.go:304-426 | one assignment to a node's data: the node is reachable from no snapshot that is not released, and each of those reads on, so an iteration that takes no lock may come between any two assignments |
| NodeGraph.OutsideIsUnshared | queue/internal/backings/btype/btype_btree.go:264-275 | a node the writer has made exclusive and taken up is reachable from no snapshot that is not released |
| CowStore.Store.CopyNode | queue/internal/backings/btype/btype_btree.go:227-250 | a fresh unshared node reads as the copied one, each child gaining one reference |
| CowStore.Store.RetainKids | queue/internal/backings/btype/btype_btree.go:239-243 | one reference more to each child, nothing else changed |
| CowStore.Store.Cow0 | queue/internal/backings/btype/btype_btree.go:257-261 | the pointer now names a node of the writer's own that reads the same; the old reference is released |
| CowStore.Store.CowRef | queue/internal/backings/btype/btype_btree.go:264-275 | copy-on-write exactly when the tree was copied and the node is shared; the result is exclusive and reads the same |
| CowStore.Store.OpenChild | queue/internal/backings/btype/btype_btree.go:271-275 | child i of an exclusive node becomes exclusive before it is changed, the parent pointing to it |
| CowStore.Store.OpenBeside | queue/internal/backings/btype/btype_btree.go:311-313 | the neighbour of an exclusive child becomes exclusive too |
| CowStore.Store.OpenTwo | queue/internal/backings/btype/btype_btree.go:307-316 | both children a rebalance touches are exclusive |
| CowStore.Store.NodeCount | queue/internal/backings/btype/btype_btree.go:86-98 | the sum of items and subtree counts is the length of the sequence the node stands for |
| CowStore.Store.Recount | queue/internal/backings/btype/btype_btree.go:423-425 | after it, the counts of the two children are the sizes of what they hold |
| CowStore.Store.MergePair | queue/internal/backings/btype/btype_btree.go:318-358 | left, separator and right become one node with the same sequence; the parent loses one item and one child |
| CowStore.Store.ShiftRight | queue/internal/backings/btype/btype_btree.go:359-391 | the last item of the left child moves through the separator to the front of the right, the last subtree with it; the sequence is unchanged |
| CowStore.Store.ShiftLeft | queue/internal/backings/btype/btype_btree.go:392-422 | the mirror image: the first item of the right child moves left; the sequence is unchanged |
| CowStore.Store.Rebalance | queue/internal/backings/btype/btype_btree.go:304-426 | a node whose child d is one item short becomes well shaped again: equal depths, 31 to 63 items, exact counts, same sequence |
| CowStore.Store.NodePopFront | queue/internal/backings/btype/btype_btree.go:561-580 | removes exactly the first of the node's sequence and keeps its shape |
| CowStore.Store.NodePopBack | queue/internal/backings/btype/btype_btree.go:582-599 | removes exactly the last of the node's sequence and keeps its shape |
| CowStore.Store.NodeDeleteMax | queue/internal/backings/btype/btype_btree.go:277-300 | removes and returns the largest position, as DeleteAt of an inner item needs it |
| CowStore.Store.FindSlot | queue/internal/backings/btype/btype_btree.go:1269-1278 | the child or separator the position falls on, and the position inside it |
| CowStore.Store.NodeDeleteAt | queue/internal/backings/btype/btype_btree.go:1256-1293 | removes exactly position index of the node's sequence and keeps its shape, whichever branch it takes |
| CowStore.Store.DeleteSeparator | queue/internal/backings/btype/btype_btree.go:1281-1291 | an inner item is replaced by its predecessor: the sequence loses that position only |
| CowStore.Store.SplitNode | queue/internal/backings/btype/btype_btree.go:100-128 | 31 items stay, one goes up, 31 go right, children and counts divided with them |
| CowStore.Store.SplitBranch | queue/internal/backings/btype/btype_btree.go:131-137 | the full child becomes two, its middle item in the parent; same sequence, shape kept |
| CowStore.Store.SplitRoot | queue/internal/backings/btype/btype_btree.go:149-159 | a full root becomes two children under a new one-item root; same sequence |
| CowStore.Store.LeafInsert | queue/internal/backings/btype/btype_btree.go:179-185 | the leaf's sequence gains the item at that position only |
| CowStore.Store.NodePushFront | queue/internal/backings/btype/btype_btree.go:731-748 | the node's sequence gains one first item, splitting full children on the way |
| CowStore.Store.NodePushBack | queue/internal/backings/btype/btype_btree.go:763-780 | the node's sequence gains one last item, splitting full children on the way |
| CowStore.Store.NodeInsertAt | queue/internal/backings/btype/btype_btree.go:1181-1206 | the node's sequence gains the item at index only, splitting a full child and choosing again |
| PositionalTree.Tree.OpenRoot | queue/internal/backings/btype/btype_btree.go:264-268 | the root is exclusive before it is changed, and reads the same |
| PositionalTree.Tree.EnsureRoot | queue/internal/backings/btype/btype_btree.go:162-168 | a root with room, grown by one level if it was full; same sequence |
| PositionalTree.Tree.InsertFirstItem | queue/internal/backings/btype/btype_btree.go:198-209 | an empty tree holds the one item; a spare leaf is reused if there is one, still out of every snapshot |
| PositionalTree.Tree.PushFront | queue/internal/backings/btype/btype_btree.go:726-756 | the contents are [v] + before |
| PositionalTree.Tree.PushBack | queue/internal/backings/btype/btype_btree.go:758-788 | the contents are before + [v] |
| PositionalTree.Tree.InsertAt | queue/internal/backings/btype/btype_btree.go:1157-1207 | inserts at 0 <= index <= count, otherwise reports false and changes nothing |
| PositionalTree.Tree.PopFront | queue/internal/backings/btype/btype_btree.go:601-612 | removes and returns the first item, or none when empty |
| PositionalTree.Tree.PopBack | queue/internal/backings/btype/btype_btree.go:614-625 | removes and returns the last item, or none when empty |
| PositionalTree.Tree.DeleteAt | queue/internal/backings/btype/btype_btree.go:1295-1306 | removes and returns position index, or none when out of range |
| PositionalTree.Tree.CollapseRootIfNeeded | queue/internal/backings/btype/btype_btree.go:547-559 | a root without items gives way to its only child, or to an empty tree with the leaf kept as spare; same sequence |
| PositionalTree.Tree.Clear | queue/internal/backings/btype/btype_btree.go:694-697 | empty afterwards; the root's reference is not given back, and every snapshot reads on |
| PositionalTree.Tree.CopyInto | queue/internal/backings/btype/btype_btree.go:699-705 | both trees read the same; the copy is a snapshot with the next handle, sharing every node from the root, and the spare leaf |
| PositionalTree.Tree.Release | queue/internal/backings/btype/btype_btree.go:707-712 | the snapshot's references are given back and it reads empty; the rest of the store is only loosened |
| PositionalTree.Tree.ReleaseWritten | queue/internal/backings/btype/btype_btree.go:707-712 | the tree that is written to reads empty and has given its reference back; snapshots stay |
| PositionalTree.Tree.CountIsLength | queue/internal/backings/btype/btype_btree.go:690-692 | count is the length of the sequence |
| TreeReads.NodeGetAt | queue/internal/backings/btype/btype_btree.go:1137-1155 | the node's item at a position of its sequence |
| TreeReads.GetAt | queue/internal/backings/btype/btype_btree.go:1308-1340 | s[i] for 0 <= i < count, none otherwise |
| TreeReads.Front | queue/internal/backings/btype/btype_btree.go:627-646 | the first item, none when empty |
| TreeReads.Back | queue/internal/backings/btype/btype_btree.go:652-671 | the last item, none when empty |
| TreeReads.All | queue/internal/backings/btype/btype_btree.go:437-458 | the consumer is given the sequence in order, until it stops |
| TreeReads.Backward | queue/internal/backings/btype/btype_btree.go:460-485 | the consumer is given the reverse, until it stops |
| TreeReads.AscendAt | queue/internal/backings/btype/btype_btree.go:1377-1428 | yields s[i..]; the whole for i <= 0, nothing from count on |
| TreeReads.DescendAt | queue/internal/backings/btype/btype_btree.go:1430-1483 | yields the reverse of s[..i+1]; the whole from count - 1 on, nothing below 0 |
| TreeReads.NodeAscendAt | queue/internal/backings/btype/btype_btree.go:1377-1417 | the suffix of a node's sequence from a position |
| TreeReads.NodeDescendAt | queue/internal/backings/btype/btype_btree.go:1430-1471 | the reversed prefix of a node's sequence up to a position |
| TreeReads.Height | queue/internal/backings/btype/btype_btree.go:677-688 | 0 for an empty tree, otherwise the depth h at which every leaf lies; and then 2*32^h - 1 <= count <= 64^(h+1) - 1 |
| TreeReads.SizeBounds | queue/internal/backings/btype/btype_btree.go:12-48 | the same bounds for every well shaped tree |
| TreeRuns.Do | queue/internal/backings/btype/btype_btree.go:561-788 | each operation, taking a snapshot included, acts on the contents as on a sequence and leaves every unreleased snapshot in place |
| TreeRuns.Run | queue/internal/backings/btype/btype_btree.go:211-275 | after any sequence of operations the tree holds what the sequence would; every snapshot not being released, there before or taken on the way, reads as the tree did when it was taken |
| TreeRuns.FromEmpty | queue/internal/backings/btype/btype_btree.go:211-275 | the same from an empty tree on, whatever set of snapshots is released whenever |
| TreeRuns.NodeAllWhile | queue/internal/backings/btype/btype_fifo.go:511-526 | an iteration over a snapshot with a writer's operation before every item delivers the snapshot's sequence |
| TreeRuns.AllCOW | queue/internal/backings/btype/btype_fifo.go:497-528 | the consumer is given the contents of the moment the snapshot was taken, whatever the writers do and whichever other snapshots come and go meanwhile; other snapshots not being released stay as they were |
| TreeFifo.Backing.Push | queue/internal/backings/btype/btype_fifo.go:148-151 | the batch is appended in order, snapshots untouched |
| TreeFifo.Backing.Pop | queue/internal/backings/btype/btype_fifo.go:176-209 | returns and removes the first min(n, len); the exemption pays min(k, hydrated) |
| TreeFifo.Positions | queue/internal/backings/btype/btype_fifo.go:291-317 | the positions of everything equal to one asked for, in order, and how many of them are restored |
| TreeFifo.Backing.Del | queue/internal/backings/btype/btype_fifo.go:281-331 | deleting from the highest index down removes exactly what matches, and the exemption pays for the restored ones |
| TreeFifo.CutStep | queue/internal/backings/btype/btype_fifo.go:318-320 | each deletion at rmIdx[j] is the next step from the sequence to its filtered form |
| Orders.PriorityIsStrictTotal | queue/internal/backings/core/seq.go:16-24 | for a strict weak Less: irreflexive, asymmetric, transitive, total on distinct arrivals, arrival order between equals |
| Orders.FrontOfSorted | queue/internal/backings/core/seq.go:16-24 | entries taken in order with nothing left that goes before them are the front of the sorted whole |
| Orders.AscendingIsUnique | queue/internal/backings/core/seq.go:16-24 | a collection has only one ascending order |
| Orders.SortedByPriority | queue/internal/backings/core/seq.go:16-24 | in the sorted order nothing that the caller's order puts first comes later, and of two it does not tell apart the earlier arrival is first |
| HeapOrder.SwapUndone | queue/internal/backings/heap/heap.go:28-33 | a journaled swap is undone first when the journal is replayed |
| HeapOrder.AppendedStays | queue/internal/backings/heap/heap.go:57-79 | replaying the journal does not reach entries appended since |
| HeapOrder.RiseStep | queue/internal/backings/heap/heap.go:81-83 | one step of up moves the only disorder to the parent |
| HeapOrder.SiftStep | queue/internal/backings/heap/heap.go:85-92 | one step of down moves the only disorder to the chosen child |
| HeapOrder.RootIsFirst | queue/internal/backings/heap/heap.go:380-381 | nothing in a heap goes before its root |
| HeapOrder.AscendsIsHeap | queue/internal/backings/heap/heap.go:614-630 | an ascending array is a heap |
| HeapOrder.OrderSurvivesUnwindingIff | queue/internal/backings/heap/heap.go:447-448 | heap order survives a rebuild unwound at any comparison if and only if what is left after the removal was in heap order already |
| HeapOrder.AscendingSurvivesSorting | queue/internal/backings/heap/heap.go:614-630 | an ascending array is not touched by a sort, however that ends: it has no two neighbours to exchange |
| HeapOrder.ExchangeKeepsHeapIff | queue/internal/backings/heap/heap.go:628-630 | exchanging two inverted neighbours of a heap leaves a heap if and only if the second does not go before the first's parent nor its children before the first |
| HeapOrder.SmallHeapsSurviveSorting | queue/internal/backings/heap/heap.go:628-630 | a heap of at most five entries is a heap after any exchanges of inverted neighbours |
| HeapOrder.HeapsSurviveSortingIff | queue/internal/backings/heap/heap.go:628-630 | every heap of n entries survives every such sequence, stopped anywhere, if and only if n <= 5 |
| PriorityHeap.AnyMovesCanBeUndone | queue/internal/backings/heap/heap.go:48-79 | whatever sequence of Swap and append, or of Swap and remove-last, stopped anywhere: replaying the journal gives the starting array |
| PriorityHeap.Backing.Less | queue/internal/backings/heap/heap.go:26 | the comparator's answer, or an unwind |
| PriorityHeap.Backing.Swap | queue/internal/backings/heap/heap.go:28-33 | exchanges two entries and keeps the record of the starting array true |
| PriorityHeap.Backing.Up | queue/internal/backings/heap/heap.go:262-266 | a permutation that keeps the record, and a heap again unless a comparison unwinds |
| PriorityHeap.Backing.Down | queue/internal/backings/heap/heap.go:322-327 | a permutation of the first n that keeps the record, in heap order again unless a comparison unwinds |
| PriorityHeap.Backing.Rollback | queue/internal/backings/heap/heap.go:57-79 | element for element the starting array of length origLen, without a comparison, nothing kept alive above it |
| PriorityHeap.Backing.HeapPush | queue/internal/backings/heap/heap.go:262-266 | one entry more; the record then is the starting array with the new entry after it |
| PriorityHeap.Backing.PushBatch | queue/internal/backings/heap/heap.go:260-273 | all of the batch or, if a comparison unwinds, none: array and next number as before; order and exemption kept, also after an unwound Del |
| PriorityHeap.Backing.HeapPop | queue/internal/backings/heap/heap.go:322-327 | takes the root, which in a heap nothing left goes before, and records it |
| PriorityHeap.Backing.PopBatch | queue/internal/backings/heap/heap.go:300-357 | of an ordered array the first k of the sorted contents with ties in arrival order, of any the root first; or nothing taken, array and exemption as before, when a comparison unwinds or the Backup refuses |
| PriorityHeap.Backing.DropHydrated | queue/internal/backings/heap/heap.go:407-413 | the exemption falls by the number of restored entries among those that left |
| PriorityHeap.Backing.Init | queue/internal/backings/heap/heap.go:181 | any array becomes a heap of the same entries |
| PriorityHeap.Backing.Del | queue/internal/backings/heap/heap.go:416-458 | removes exactly what matches; heap and exemption exact when it returns; when a comparison unwinds out of the rebuild, the array is as far as that came, the exemption is right if and only if nothing restored was removed, and any later operation but a Pop in order still keeps what it keeps |
| PriorityHeap.AfterAnUnwoundDel | queue/internal/backings/heap/heap.go:447-449 | a heap that an unwound Del has left out of order and with an exemption too large by one |
| PriorityHeap.PopsOutOfOrder | queue/internal/backings/heap/heap.go:322-357 | ... from which Pop gives the 5 before the 1 |
| PriorityHeap.Backing.Clear | queue/internal/backings/heap/heap.go:567-601 | nothing on an empty heap or when refused; otherwise empty, nothing held in the storage, no exemption: it puts an exemption that is too large right if and only if the heap is not empty |
| PriorityHeap.Backing.SortInPlace | queue/internal/backings/heap/heap.go:614-630 | after any exchanges of inverted neighbours, which is how the library sorts: the sorted contents and a heap when it returns; when a comparison unwinds, exactly what the exchanges so far leave, an ascending array untouched and a heap of at most five a heap |
| PriorityHeap.AfterAnUnwoundAll | queue/internal/backings/heap/heap.go:628-630 | a heap of six that a sort unwound after its first exchange has left out of order |
| PriorityHeap.Backing.RootIsSortedFirst | queue/internal/backings/heap/heap.go:378-381 | what Peek shows is what Pop takes first |
| PriorityHeap.Backing.Hydrate | queue/internal/backings/heap/heap.go:158-184 | the restored items, numbered in the Backup's order, as a heap, all exempt; an unwinding comparison leaves the array as far as the rebuild came |
| ArrivalOrder.PushIsAStep | queue/internal/backings/heap/heap.go:260-273 | what the insert of Push leaves of the entries, whatever order the array or the tree holds them in, is what the admission protocol's insert leaves |
| ArrivalOrder.PopIsAStep | queue/internal/backings/heap/heap.go:322-357 | ... and what Pop leaves, its Pop, charge included |
| ArrivalOrder.DelIsAStep | queue/internal/backings/heap/heap.go:447-456 | ... and what Del leaves, its Del, unwound or not; what was removed includes no restored entry exactly when the protocol says so |
| Hydration.RestoredComeFirst | queue/internal/backings/fifo/fifo.go:286-293 | in arrival order the restored entries are exactly the first `hydrated` positions |
| Hydration.DropSeqsIsExact | queue/internal/backings/heap/heap.go:407-413 | charging by number leaves the number of restored entries that remain |
| Hydration.GoneBelowIsRemoved | queue/internal/backings/fifo/fifo.go:316-324 | counting removed positions below `hydrated` counts removed restored entries |
| Admission.RemoveKeepsAccounts | queue/internal/backings/fifo/fifo.go:225-235 | a removal keeps the accounts and never uses more room |
| Admission.InsertKeepsAccounts | queue/internal/backings/fifo/fifo.go:161-186 | an admitted insert, or an abandoned one with any part of its batch in, keeps the accounts and the bound |
| Admission.AccountsKept | queue/internal/backings/core/run.go:114-140 | every step of every goroutine, those that unwind included, keeps exemption and reservations accounted for and the bound, to within what was ever left uncharged |
| Admission.RoomIsSignalled | queue/internal/backings/core/run.go:114-140 | a step that leaves more room leaves no producer asleep, unless it is a Del that unwound |
| Admission.ArrivalsAreSignalled | queue/internal/backings/fifo/fifo.go:182-186 | a step that fills an empty queue leaves no consumer asleep, unless it is a Push that unwound |
| Admission.ProducerKept | queue/internal/backings/core/signal.go:34-78 | every step keeps: a producer sleeps only while its batch does not fit, or a Close owes it its signal, or a Del has unwound past it |
| Admission.ConsumerKept | queue/internal/backings/core/signal.go:34-78 | every step keeps: a consumer sleeps only while the queue is empty, or a Close owes it its signal, or a Push has unwound past it |
| Admission.StepKeeps | queue/internal/backings/core/run.go:114-140 | the whole invariant is kept by every step |
| Admission.ExactIsKeptIff | queue/internal/backings/heap/heap.go:447-456 | of all steps, exactly these end the state in which bound and exemption are exact and nobody sleeps through what it waits for: a Del that unwinds having removed a restored entry or the room of a sleeping producer, and a Push that unwinds having put something into an empty queue with a sleeping consumer |
| AdmissionRuns.AdmissionIsBounded | queue/internal/backings/core/run.go:105-140 | in every reachable state contents less restored entries plus reservations are within maxSize and what was ever left uncharged, and both counters are accounted for |
| AdmissionRuns.NoLostWakeup | queue/internal/backings/core/signal.go:27-91 | in every reachable state a sleeping producer's batch does not fit and a sleeping consumer's queue is empty, unless a Del or a Push has unwound past its signal; after Close a Close still owes it |
| AdmissionRuns.HarmlessRunsAreExact | queue/internal/backings/core/run.go:105-140 | over every run without such a step the bound and the exemption are exact and nobody sleeps through what it waits for |
| AdmissionRuns.PositionalRunsAreHarmless | queue/internal/backings/fifo/fifo.go:303-347 | the slice and positional-tree queues never take such a step |
| AdmissionRuns.DrainedQueueLeavesNoProducerAsleep | queue/internal/backings/fifo/fifo.go:190-192 | with only restored entries left, no hook running and no Del unwound past its signal, no producer sleeps |
| AdmissionRuns.UnwoundDelLosesAWakeup | queue/internal/backings/heap/heap.go:447-454 | a reachable state with a producer asleep on an open queue that has room for it |
| AdmissionRuns.UnwoundDelBreaksTheBound | queue/internal/backings/heap/heap.go:447-449 | a reachable state with two admitted entries in a queue bounded by one |
| AdmissionRuns.UnwoundPushLosesAWakeup | queue/internal/backings/btree/btree.go:263-279 | a reachable state with a consumer asleep on an open queue that holds an item |
| Delivery.StepMoves | queue/internal/backings/fifo/fifo.go:161-240 | every step of every goroutine takes out exactly what its Pop, Del or Clear hands out and puts in exactly what its Push admits, numbered on, and moves nothing else |
| Delivery.RemovalsAreCharged | queue/internal/backings/fifo/fifo.go:225-341 | a Pop and a Del take off the exemption as many restored entries as they take out, counted by position or by number; only a Del that unwinds takes off none |
| Delivery.PushWaitsIff | queue/internal/backings/fifo/fifo.go:112-127 | a Push waits exactly when the queue is open, the batch is no larger than the bound, and what is admitted and reserved, less what was never charged, leaves no room for it; its hook runs exactly when there is room |
| Delivery.PopWaitsIff | queue/internal/backings/fifo/fifo.go:197-246 | a Pop waits exactly when the queue is open and empty; one that nothing stops hands out as many as are asked for or there, and of a queue without priorities the oldest |
| Delivery.WatchersWaitIff | queue/internal/backings/fifo/fifo.go:349-392 | NotEmpty waits exactly when the queue is open and empty, NotFull exactly when it is open and the bound is reached; otherwise they change nothing |
| Delivery.StoppedPushIsPartial | queue/internal/backings/fifo/fifo.go:127-160 | a Push that caller code stops leaves less than its batch, and none of it if the side effect, the Backup or the hook failed or the queue goes by positions |
| Delivery.CallsGoOn | queue/internal/backings/core/run.go:114-140 | a hook that has ended, a wait that is over and a signal that is given bring their call nearer its end |
| Delivery.OnlyCloseCloses | queue/internal/backings/fifo/fifo.go:417-454 | the queue is closed by a Close whose side effect lets it, which then owes both signals, and by nothing else; its settings never change |
| Delivery.DeliveredOnce | queue/internal/backings/fifo/fifo.go:102-240 | over any run of any number of goroutines, whatever caller code does, every item that was restored or came in is in the queue or has been handed out, once; what came in is what was handed out and what is left |
| Delivery.PopsAscend | queue/internal/backings/fifo/fifo.go:206-230 | in any run of a queue without priorities each Pop hands out older items than any later Pop, and older than all that are left |
| Delivery.FirstInFirstOut | queue/internal/backings/fifo/fifo.go:206-230 | ... so if nothing is deleted or cleared the Pops of a run hand out the first arrivals, in order, none left out |
| Parkers.StepKeeps | queue/internal/parker/parker.go:108-248 | every atomic step of Register, Park, Wake, Broadcast, Detach and Release keeps the protocol's invariant |
| Parkers.GorKeptByWaker | queue/internal/parker/parker.go:198-236 | what a goroutine's place in Wait says of its parker survives wakes and broadcasts |
| Parkers.GorKeptByOwn | queue/internal/backings/core/signal.go:34-78 | ... and the steps of Wait itself |
| Parkers.ParkerKeptByOwn | queue/internal/parker/parker.go:124-181 | a parker not woken stays on its list or in a Broadcast's hands |
| Parkers.TodoKeptByOwn | queue/internal/parker/parker.go:141-181 | what a waker has yet to swap is never recycled under it |
| Parkers.GoreadyHitsTheParkedGoroutine | queue/internal/parker/parker.go:198-205 | goready is handed only the captured goroutine, blocked in that very Park, and nobody else is about to hand it over |
| Parkers.GoreadyAtMostOncePerPark | queue/internal/parker/parker.go:218-248 | in any run goready is called at most once for one tenure of a parker |
| Parkers.WakersMeetTheirOwnEra | queue/internal/parker/parker.go:198-236 | no Wake or Broadcast swaps a parker recycled since it got hold of it |
| Parkers.RecycledParkersAreUnreferenced | queue/internal/backings/core/signal.go:51-72 | when Wait chooses Release, no list and no waker refers to the parker |
| Parkers.BlockedWillBeFound | queue/internal/parker/parker.go:124-131 | a blocked goroutine is on its Waiter's list or in a Broadcast's hands, or about to be made ready |
| Parkers.FinishedBroadcastFreedItsParkers | queue/internal/parker/parker.go:214-236 | every parker a finished Broadcast drained is woken or recycled, and nobody is blocked on it unless another waker is about to make it ready |
| Wakeups.CancelledIsWoken | queue/internal/backings/core/signal.go:51-57 | in every reachable state a goroutine blocked in a Wait whose context has been cancelled is in the hands of a waker that is yet to swap its parker, or about to be made ready |
| Wakeups.WatchedUntilItLeaves | queue/internal/backings/core/signal.go:43-58 | from the start of Park until its watcher is stopped, whatever comes between, a Wait can be cancelled or has been exactly if its context can be |
| Wakeups.BroadcastFreesAll | queue/internal/parker/parker.go:214-236 | every parker on the list that a Broadcast takes is, once it has come to its end, woken and whoever was blocked on it about to be made ready, or has been through the pool |
| Wakeups.FireFreesItsWait | queue/internal/backings/core/signal.go:51-57 | ... and so is the parker of a Wait whose context is cancelled, once its watcher has come to its end |
| Wakeups.WorkGoesOn | queue/internal/parker/parker.go:186-236 | every step but a new Wait, parker, Broadcast or cancellation leaves less to do, so every run without those comes to rest |
| Wakeups.AtRestNobodyIsForgotten | queue/internal/backings/core/signal.go:34-91 | at rest every goroutine is out of Wait, or blocked on a parker that is parked, on its Waiter's list, and whose context has not been cancelled |
| Wakeups.PoolLosesOnlyTheCancelled | queue/internal/backings/core/signal.go:58-72 | over any run as many parkers are detached, or about to be, as Waits were left with their contexts cancelled; once everybody has left Wait every other parker is back in the pool, reset |
| FairRing.FullScanFindsAll | queue/cbwfq/cbwfq.go:222-239 | a revolution of the cursor finds a class exactly when some weighted class holds an item |
| FairRing.TakeMovesLead | queue/cbwfq/cbwfq.go:243-270 | serving moves the lead of i over j by what is taken, weighted |
| FairRing.ScanKeepsLead | queue/cbwfq/cbwfq.go:226-237 | passing empty classes changes no lead between others |
| FairRing.WindowMovesLead | queue/cbwfq/cbwfq.go:222-270 | over a window S_i*w_j - S_j*w_i is exactly the change of the lead |
| FairRing.ProportionalFairness | queue/cbwfq/cbwfq.go:222-270 | over any window in which i and j stay non-empty, |S_i*w_j - S_j*w_i| <= w_i*w_j, priority and failed Pulls and other classes interleaved |
| FairRing.NoStarvation | queue/cbwfq/cbwfq.go:222-270 | while class i waits unserved, the others give at most the sum of their weights, in at most as many Pulls |
| FairRing.NextKeepsTurns | queue/cbwfq/cbwfq.go:259-268 | no step leaves a class that has emptied anything of its quantum: it gives up its turn, and starts the next one afresh |
| FairRing.PullServesNearest | queue/cbwfq/cbwfq.go:218-270 | a Pull that finds nothing in the priority class takes from the first class from the cursor on that holds something, as much as is asked for, there and allowed; the turn passes on exactly when the class has emptied or spent its allowance |
| Scheduler.Cbwfq.constructor | queue/cbwfq/cbwfq.go:84-145 | pending starts as the sum of the queues |
| Scheduler.Cbwfq.ScanWeighted | queue/cbwfq/cbwfq.go:226-238 | the loop is the ring's scan: the next non-empty class with a quantum, or none when all are empty |
| Scheduler.Cbwfq.Serveable | queue/cbwfq/cbwfq.go:222-239 | the priority class whenever it holds an item; nil only when everything is empty |
| Scheduler.Cbwfq.ChargeFor | queue/cbwfq/cbwfq.go:259-268 | deficit and cursor as the ring's rule has them, of which FairRing.PullServesNearest says when the turn passes on |
| Scheduler.Cbwfq.Serve | queue/cbwfq/cbwfq.go:243-270 | a front of the chosen class's queue, within its quantum; pending falls by as much; a failed Pop changes nothing |
| Scheduler.Cbwfq.Pull | queue/cbwfq/cbwfq.go:190-216 | one pass of Pull is the ring's step, the items the front of one class's queue, the priority class's if it holds any; it parks exactly when nothing is queued; no class that is empty keeps anything of its quantum |
| Scheduler.Cbwfq.Insert | queue/cbwfq/cbwfq.go:161-167 | the item is last in its class's queue, not yet accounted for |
| Scheduler.Cbwfq.Account | queue/cbwfq/cbwfq.go:169-175 | accounts for the item and leaves no Pull asleep |
| Scheduler.Cbwfq.Close | queue/cbwfq/cbwfq.go:288-302 | closed, and no Pull left asleep |
| Scheduler.Cbwfq.Run | queue/cbwfq/cbwfq.go:161-302 | over any run of Pushes, Pulls, cancellations and Close: the ring goes through the rule's steps, each class is first in first out, what the Pulls return from it is as much as the rule serves it, pending is exact, and no Pull sleeps while something is queued unless a Push is about to signal |
| Scheduler.Cbwfq.FairRun | queue/cbwfq/cbwfq.go:222-270 | of what the Pulls of a run return: |G_i*w_j - G_j*w_i| <= w_i*w_j for any two classes that stay non-empty; and while one stays non-empty and is passed over, at most the sum of the others' weights |
| GroupCommit.StepKeeps | queue/internal/backings/bbolt/bbolt.go:514-671 | every step of pushers, consumers and flusher keeps the invariant, in all four kinds of store, indexed or not, FIFO or by priority |
| GroupCommit.ResultsCloseOnce | queue/internal/backings/bbolt/bbolt.go:514-584 | no flush result is closed twice; all but the current and the held one are closed |
| GroupCommit.NilMeansCommitted | queue/internal/backings/bbolt/bbolt.go:829-847 | a staged Push returns nil exactly when its items were written to the store |
| GroupCommit.DeadFlusherLeavesNobodyWaiting | queue/internal/backings/bbolt/bbolt.go:1508-1529 | once the flusher has ended the queue is closed, nothing is staged or reserved, and no Push waits on an unsettled result |
| GroupCommit.Conservation | queue/internal/backings/bbolt/bbolt.go:648-664 | inflight is what is staged or held uncounted; count plus what is written uncounted is the store plus what unwound Pops have lost, which without an index is nothing |
| GroupCommit.BalanceIsKeptIff | queue/internal/backings/bbolt/bbolt.go:959-970 | count, uncounted and store go on agreeing after a step, if and only if it is not a Pop of an indexed store out of which Hash unwinds having removed something |
| GroupCommit.PopMeetsNoMissingKeyIff | queue/internal/backings/bbolt/bbolt.go:878-900 | every Pop of no more than the count finds every key, if and only if no more was lost than is about to be counted |
| GroupCommit.UnwoundPopLeavesAMissingKey | queue/internal/backings/bbolt/bbolt.go:959-970 | a reachable state whose count is one and whose store is empty, and in which Pop fails until something is pushed and counted or the queue is cleared |
| GroupCommit.AdmissionIsBounded | queue/internal/backings/bbolt/bbolt.go:822-831 | count plus inflight never exceeds the bound, or what the store held when opened |
| GroupCommit.CountIsBelowZeroOnlyBeforeCounting | queue/internal/backings/bbolt/bbolt.go:648-664 | unless a batch has been written and not yet counted, the count is not negative |
| GroupCommit.CountGoesBelowZeroIff | queue/internal/backings/bbolt/bbolt.go:1178-1184 | a step takes a count that is not negative below zero if and only if it is a Del that removes more than the count, which is not zero |
| GroupCommit.CountIsNeverNegativeIff | queue/internal/backings/bbolt/bbolt.go:1135-1184 | of the four kinds of store, a kind's count is not negative in every reachable state if and only if it is indexed and FIFO |
| GroupCommit.IndexedFifoCountIsNeverNegative | queue/internal/backings/bbolt/bbolt.go:1135-1152 | in an indexed FIFO store Pop comes to the counted items first and Del finds no others, so the count is never negative |
| GroupCommit.UnindexedCountCanBeNegative | queue/internal/backings/bbolt/bbolt.go:1116-1184 | a reachable state of an unindexed store, FIFO or by priority, with the count below zero: a Del of a batch written and not yet counted |
| GroupCommit.IndexedCountCanBeNegative | queue/internal/backings/bbolt/bbolt.go:878-900 | a reachable state of an indexed priority store with the count below zero: a Pop takes an item that went in ahead and is not yet counted, and a Del then removes all that are counted |
| GroupCommit.IndexListsWhatIsCounted | queue/internal/backings/bbolt/bbolt.go:655-664 | in every reachable state a stored key is in the index exactly when it is counted |
| GroupCommit.IndexAgreesIff | queue/internal/backings/bbolt/bbolt.go:265-290 | index and store agree if and only if nothing stored waits to be counted and no listed key has left the store |
| GroupCommit.StaleGrowsIff | queue/internal/backings/bbolt/bbolt.go:655-664 | a listed key is left behind exactly when a batch is counted of which a Pop has already taken something, or Hash unwinds out of a Pop with something it took still listed |
| GroupCommit.StaleIsNeverStored | queue/internal/backings/bbolt/bbolt.go:265-290 | a key left behind in the index is never stored again, so a lookup finds nothing under it |
| GroupCommit.CallKeptBySettling | queue/internal/backings/bbolt/bbolt.go:565-584 | a settlement tells each waiting Push exactly whether its batch landed |
| GroupCommit.CallKeptByCommit | queue/internal/backings/bbolt/bbolt.go:589-647 | a transaction lands the whole batch or none of it |
| StoreQueue.StoreMoves | queue/internal/backings/bbolt/bbolt.go:878-970 | every step takes out of the store exactly what its Pop, Del or Clear takes and adds exactly what its commit writes, numbered on |
| StoreQueue.CountMoves | queue/internal/backings/bbolt/bbolt.go:655-664 | the count falls by what a Del, or a Pop out of which Hash does not unwind, takes out, and rises by what is counted of a written batch |
| StoreQueue.PopTakesIff | queue/internal/backings/bbolt/bbolt.go:866-900 | a Pop takes something exactly when the queue is open, it asks for something, the store has as much as it asks for or are counted, and its transaction lands; otherwise nothing changes |
| StoreQueue.PopTakesTheFirst | queue/internal/backings/bbolt/bbolt.go:878-900 | a Pop takes as many as it asks for or are counted; what it takes has a higher priority than all that it leaves, or the same and came before; in a FIFO store it came before |
| StoreQueue.PopTakesTheFirstKeys | queue/internal/backings/bbolt/bbolt.go:297-314 | in the byte order of the keys, what a Pop takes is before all that it leaves |
| StoreQueue.ClosedStays | queue/internal/backings/bbolt/bbolt.go:802-872 | no Push, Pop, Del or Clear changes anything in a closed queue |
| StoreQueue.ItemsLeaveOnce | queue/internal/backings/bbolt/bbolt.go:589-647 | over any run every item ever written is in the store or has been taken out, once |
| StoreQueue.PushIsStagedIff | queue/internal/backings/bbolt/bbolt.go:802-847 | a Push is staged exactly when the queue is open, the batch fits beside what is counted, staged and in the flusher's hands, the bound included, and the buffer has room; otherwise it only waits |
| StoreQueue.FlushTakesAll | queue/internal/backings/bbolt/bbolt.go:533-543 | a flush takes all that is staged; what is staged after it waits for another result |
| StoreQueue.StagedPushIsAnswered | queue/internal/backings/bbolt/bbolt.go:514-584 | whatever comes between, once the flush that took a staged Push has let go of its batch the Push has its answer, nil exactly when its items were written |
| StoreQueue.FlusherGoesOn | queue/internal/backings/bbolt/bbolt.go:514-671 | each of the flusher's own steps brings it nearer its loop or its end, and nobody else moves it |
| StoreQueue.FlusherIsNeverStuck | queue/internal/backings/bbolt/bbolt.go:514-671 | unless it waits for something to do or has ended, one of them can be taken |
| StoreQueue.FlusherGoesWhereSent | queue/internal/backings/bbolt/bbolt.go:481-512 | in any run the flusher, whenever it holds no batch, is in its loop, clearing, or on its way out, as the way its last flush was begun, a Clear or caller code that ended the goroutine said last |
| StoreQueue.FlusherStaysUntilCancelled | queue/internal/backings/bbolt/bbolt.go:481-512 | unless caller code ends its goroutine, the flusher does not leave before it is cancelled |
| StoreQueue.OnlyTheseClose | queue/internal/backings/bbolt/bbolt.go:1508-1529 | the queue is closed by its Close and by a flusher that ends, and by nothing else |
| Shutdown.StepKeeps | queue/internal/backings/bbolt/bbolt.go:1318-1432 | every step of any number of Closes keeps the invariant |
| Shutdown.ReleaseHappensOnce | queue/internal/backings/bbolt/bbolt.go:1387-1431 | the store is closed at most once, after Backup.Close, never under a live flusher; Backup.Close is called at most once |
| Shutdown.FailedJoinIsRetryable | queue/internal/backings/bbolt/bbolt.go:1367-1396 | a join that times out released nothing and the next Close performs anew |
| Shutdown.OnePerformer | queue/internal/backings/bbolt/bbolt.go:1325-1360 | one Close performs at a time |
| Shutdown.JoinedAnswersAgree | queue/internal/backings/bbolt/bbolt.go:1318-1384 | every Close given a joined result is given the same one, the published errors |
| Shutdown.CompletionIsFinal | queue/internal/backings/bbolt/bbolt.go:1379-1432 | no step takes completion back or changes what was published |
| Shutdown.AnswerAfterCompletionIff | queue/internal/backings/bbolt/bbolt.go:1318-1384 | from completion on, a Close that returns is given the joined result if and only if it did not give up on its own timer, being told "in progress", and did not perform a join that failed, being told "incomplete"; a frame is unwound exactly when Backup.Close unwound it |
| Shutdown.FailedPerformerMissesTheAnswer | queue/internal/backings/bbolt/bbolt.go:1367-1396 | a reachable state after completion in which a Close returns "incomplete" |
| Shutdown.ImpatientAndUnwoundMissTheAnswer | queue/internal/backings/bbolt/bbolt.go:1338-1384 | a reachable state after completion in which one Close can return "in progress" and another is unwound |
| Shutdown.InProgressIsFinal | queue/internal/backings/bbolt/bbolt.go:1338-1349 | a Close told it is in progress will see no retry, whatever comes |
| Shutdown.ChannelsCloseOnce | queue/internal/backings/bbolt/bbolt.go:1367-1377 | each shutDone channel is closed at most once |
| Shutdown.AnswersAreReported | queue/internal/backings/bbolt/bbolt.go:1379-1432 | in any run, from completion on, the errors published, which every Close given a joined result is given, are those the run's own join, Backup.Close (one that did not return standing for itself) and close of the store reported |
| Shutdown.WaitersAreTold | queue/internal/backings/bbolt/bbolt.go:1338-1360 | a waiting Close that gives up is told whether a retry can still happen; a woken one is given the joined result exactly when the shutdown is complete |
| Shutdown.ClosesGoOn | queue/internal/backings/bbolt/bbolt.go:1318-1432 | every step of a Close brings it nearer its return |
| Shutdown.NobodyWaitsInVain | queue/internal/backings/bbolt/bbolt.go:1325-1377 | every Close that has not returned can take a step, timers apart: it waits only for the flusher, or for a Close that is performing or is about to close the channel it waits on |
| SliceFifo.Backing.Slide | queue/internal/backings/fifo/fifo.go:173-180 | the contents move to the front of the same storage, everything above cleared |
| SliceFifo.Backing.Append | queue/internal/backings/fifo/fifo.go:181 | contents + batch; new storage exactly when there is no capacity |
| SliceFifo.Backing.Push | queue/internal/backings/fifo/fifo.go:161-181 | contents + batch; the storage is replaced exactly when contents and batch exceed it |
| SliceFifo.Backing.Pop | queue/internal/backings/fifo/fifo.go:206-230 | returns and removes the front, clears the slots, keeps the storage, charges the exemption |
| SliceFifo.Backing.Partition | queue/internal/backings/fifo/fifo.go:313-327 | what is kept, and how many restored positions go |
| SliceFifo.Backing.Del | queue/internal/backings/fifo/fifo.go:303-347 | removes exactly what matches, the exemption paying for the restored ones |
| SliceFifo.Backing.Clear | queue/internal/backings/fifo/fifo.go:478-482 | nothing held, the storage kept, no exemption |
| SliceFifo.Backing.Run | queue/internal/backings/fifo/fifo.go:162-181 | over any run the contents are those of a sequence, and the storage stays within its start, or the peak depth and the most any one append grew by beyond its need; so within twice the peak, if growing at most doubles what is needed, which Go's append does but for rounding to size classes |
| KeyedTree.RemoveFrom | queue/internal/backings/btree/btree.go:31-43 | the bucket loses exactly the entry with that number; an empty bucket goes |
| KeyedTree.AddAgrees | queue/internal/backings/btree/btree.go:27-29 | adding to tree and index keeps them in agreement |
| KeyedTree.RemoveAgrees | queue/internal/backings/btree/btree.go:31-43 | removing from tree and index keeps them in agreement |
| KeyedTree.FifoIsPriority | queue/internal/backings/core/seq.go:11-13 | the FIFO order is the priority order of items all alike |
| KeyedTree.Backing.Load | queue/internal/backings/btree/btree.go:264-271 | one entry in its place, in tree and index, or, if Less unwinds, in neither |
| KeyedTree.Backing.PushBatch | queue/internal/backings/btree/btree.go:250-273 | the batch sorted in, tree and index in step; an unwinding Hash changes neither, an unwinding Less leaves what came before it in both |
| KeyedTree.Backing.Hydrate | queue/internal/backings/btree/btree.go:147-183 | the Backup's items, as far as Hash and Less return, sorted in and indexed, all exempt |
| KeyedTree.Backing.PopMin | queue/internal/backings/btree/btree.go:346-353 | the first entry leaves tree and index |
| KeyedTree.Backing.PopBatch | queue/internal/backings/btree/btree.go:300-355 | the first k of the order; an unwinding Hash or a refusing Backup changes neither tree nor index |
| KeyedTree.Backing.Exists | queue/internal/backings/btree/btree.go:388-415 | through the index, true exactly when a scan of the tree, or of the entries an unwound Del left only in the index, would find it |
| KeyedTree.Backing.Collect | queue/internal/backings/btree/btree.go:440-463 | through the index, exactly the entries such a scan would match, each once |
| KeyedTree.Backing.Delete | queue/internal/backings/btree/btree.go:487-492 | one entry leaves tree and index; if Less unwinds neither, if Hash does the tree alone |
| KeyedTree.Backing.Del | queue/internal/backings/btree/btree.go:430-501 | through the index, removes exactly the set and count a scan would, with the exemption exact; if Hash or Less unwinds out of the removals, exactly what has gone, uncharged, and whether an entry is left only in the index, which some point of unwinding brings about if and only if something in the tree matches |
| KeyedTree.AfterAnUnwoundDel | queue/internal/backings/btree/btree.go:487-492 | an empty tree in which Exists finds the entry that an unwound Del removed |
| KeyedTree.Backing.Clear | queue/internal/backings/btree/btree.go:609-636 | nothing on an empty tree or when refused; otherwise tree, index and exemption empty: it puts right what unwound Dels have left if and only if the tree is not empty |
| KeyedTree.ClearKeepsTheStale | queue/internal/backings/btree/btree.go:619-621 | ... so after that Del, Clear changes nothing and Exists goes on finding the entry |
| StoreKeys.BigEndianOrder | queue/internal/backings/bbolt/bbolt.go:297-301 | big-endian bytes compare as their numbers |
| StoreKeys.FifoKeysAscend | queue/internal/backings/bbolt/bbolt.go:297-301 | keys compare as arrival numbers |
| StoreKeys.PriorityKeysDescend | queue/internal/backings/bbolt/bbolt.go:309-314 | keys compare by priority descending, then by arrival, and are distinct for distinct pairs |

## Left out

- Node arrays are sequences of exactly the live items, children and counts: slots past `len`, and the zeroing of emptied ones, are not modelled, and an in-place shift is a sequence update. The loops of PushFront, PushBack and InsertAt that descend by reassigning the node are written as recursion.
- The keyed operations of the positional tree (search, Insert, Set, Delete, Seek, Ascend by key), string prefixes, dataCompare, dataCopy, dataRelease, the Mut iterators, ReplaceAt and Drain: the queue never uses them.
- PositionalTree.Tree.CopyInto: claims isolation for a snapshot that is read and released while the source is written, which is how AllCOW, its only caller, uses it; a copy that is itself written to, sharing the spare leaf, is not covered.
- Overflow of the 64-bit counters, sequence numbers and lengths.
- The tidwall tree, bbolt and the item codec: a sorted sequence, a store with atomic serialised transactions, and a call that may fail or unwind.
- Parkers: lists and Broadcasts are sets, so the order in which one Broadcast wakes its parkers is not modelled; the Go scheduler's gopark and goready are the steps that block and free a goroutine; Get from the pool and the append to the list are one step, the parker being unknown to anyone else between them.
- Admission: a signal is one step, a Broadcast's interior being the subject of Parkers; a goroutine's loop back to the top is a new call.
- Admission.ExactIsKeptIff: takes a Del that meets an entry an unwound Del left only in the keyed tree's index to charge nothing for it; the code charges then what the first did not, which narrows the exemption again.
- KeyedTree.Backing.PushBatch: takes the tree library to compare before it changes anything, so that Item.Less unwinding out of one Load or Delete leaves the tree as it was before that call; the library is not part of this model.
- KeyedTree.Backing.Exists: is stated with an index, the scans without one being the specification; like Del, it relies on equal items having equal hashes, as the Item contract demands.
- Scheduler.Cbwfq.Pull: a Pull's critical section and each insert into a class queue are atomic, so the two readings of a class's length in serve agree; class queues hand out the front of a sequence.
- GroupCommit: the Backup's contents are not tracked, because commit does not compensate when the store write fails after Backup.Push; wakeups of consumers on disk are not claimed, because the test for them reads a count that can be transiently negative; pushes waiting for room in the bound stage nothing and appear as refused.
- Shutdown: wall-clock budgets are steps that may happen at any time. A Close whose own side effect fails or unwinds returns before it comes to the shutdown, with that failure and not the joined result, and is not a step.
- PriorityHeap.Backing.SortInPlace: takes the library's stable sort to exchange inverted neighbours between comparisons, in whatever order, of which its insertion runs and its rotations are made up; which comparisons it makes is not modelled.
- SliceFifo.Backing.Run: how far Go's append rounds capacity up is a parameter of each append.
- Hydration errors part-way, Peek, Len and the read-locked All of the slice and heap beyond what is stated, and QLock's scheduling of readers and writers.
- Telemetry, options and their validation, error texts and blame strings, file opening, the constructors in queue.go, alias.go and builtin.go.
