# Verified models of the server, cache, torrent and punching code

A collection of small C state machines, modelled in Dafny and proved correct module by
module. A module first describes an operation as a function on values (or a thread step as an
event), proves by lemmas what the source promises of it, and then gives the code that changes
fields and arrays in place as a class or method whose contract ties the new state to that
function. Runs are sequences of events, so a statement about runs is one about every
interleaving or every sequence of calls.

| file | what it models |
|---|---|
| `HandOff.dfy` | how the listener thread reserves a worker and hands it a connection |
| `PoolStack.dfy` | the list of recycled pools, changed by compare-and-swap |
| `PageCache.dfy` | the write-back page cache |
| `BlockingQueue.dfy` | the bounded queue with two condition variables |
| `Content.dfy` | the torrent content store with lazy zero-filling |
| `Utf.dfy` | the two converters between UTF-8 and UTF-16 |
| `Allocator.dfy` | the size-class allocator |
| `HashTable.dfy` | the chained hash table, at the level of pointers |
| `Reslist.dfy` | the resource pool |
| `PeerQueue.dfy` | the output queue of a torrent peer |
| `IdleMaintenance.dfy` | the pass that makes and stops child processes |
| `Md5.dfy`, `Md5Transform.dfy` | MD5: the streaming part, and the compression of a block |
| `Wire.dfy`, `Supernode.dfy`, `SupernodeLoop.dfy` | the punching protocol on the wire, and the supernode that relays it |
| `Counting.dfy` | counting the members of a sequence |

Where the code and its comments disagree:

- The comments at `src/zevent.c:482-486` and `src/fdqueue.c:299-300` say that reserving a
  worker keeps the queue from overflowing. With the increment of the idle counter and its
  signal as the two steps they are, a late signal can end a later wait while the counter is
  still negative. `HandOff.LateSignalOverflows` is such a run, `HandOff.PushInBounds` says
  exactly when a push stays in the array, and `HandOff.PromptQueueBounded` proves the bound
  when increment and signal are one step and the listener is not woken for nothing.
- The comment at `src/zevent.c:760-762` says that a worker gets the end-of-file answer once all
  accepted connections have been handled, and `src/fdqueue.c:355` that there are no more
  elements. But `zevent_queue_pop` reads the flag at line 354 after it has unlocked at line
  350, so a connection may come in between. `HandOff.EofBeforeDrained` is such a run,
  `HandOff.EofEarlyExactly` says exactly when it can happen, `HandOff.NoneAbandoned` that
  another worker then takes the connection unless one was woken for nothing, and
  `HandOff.WokenWorkerAbandons` is a run in which it is lost.
- `zevent_queue_info_term` sets the flag and wakes the listener, but `src/fdqueue.c:137-139` waits
  without a look at the flag, so a listener that comes there later sleeps after the shutdown.
  `HandOff.WaitsAfterTermExactly` says for every state whether one can.
- `conv_ucs2_to_utf8` tests the room in the output for every character but ASCII.
  `Utf.OverrunExactly` says when a store would pass the end; the model stops there.
- `allocator_max_free_set` reads its argument as 32 bits, so a limit just under 4 GB becomes
  no limit and one of 5 GB becomes 1 GB (`Allocator.LimitWraps`, `Allocator.LimitCovers`). A
  limit set while nodes are cached need not count them (`Allocator.LimitSetWhileCaching`):
  `Allocator.SetLimitRetains` says for every state exactly when the retention equality holds
  afterwards, and `Allocator.RunCeiling` what bounds the cache when it does not.
- A thread that waits in `reslist_acquire`, is woken and then fails to construct its resource
  leaves without waking another, who may then sleep although there is room
  (`Reslist.FailureStrandsWaiter`). `Reslist.LosesWakeupExactly` says that nothing else does.

## Model

| member | source | states |
|---|---|---|
| HandOff.RunAccounting | src/fdqueue.c:73-162 | in every interleaving, workers marked idle that have not popped = idlers + the listener's reservation + queued connections, until shutdown; and what the listener handed over is what was popped and what is queued, nothing lost or doubled |
| HandOff.PushInBounds | src/fdqueue.c:302-325 | the unchecked push stays inside the array if and only if a negative counter is made up for by workers that are not marked idle |
| HandOff.CountedPushInBounds | src/zevent.c:482-511 | so it does whenever the idle counter is not negative at the push |
| HandOff.LateSignalOverflows | src/zevent.c:482-511 | a run of one worker and no spurious wakeup after which the queue of one slot holds two connections |
| HandOff.QueueBounded | src/fdqueue.c:104-162 | if the listener asks for a worker only when no signal is owed and is not woken for nothing, the queue never holds more than one connection per worker, and a push always has room |
| HandOff.PromptQueueBounded | src/fdqueue.c:73-102 | the same bound when increment and signal are one step, as the comment at lines 119-137 reads |
| HandOff.NoLostWakeup | src/fdqueue.c:333-370 | no worker sleeps while more connections are queued than workers woken; while the counter is not negative the listener never sleeps without a signal being owed; nobody is blocked after the queue's shutdown |
| HandOff.WaitsAfterTermExactly | src/fdqueue.c:104-236 | the shutdown wakes a listener that waits; some run leads from it to a wait if and only if the listener is then on its way to the lock with a negative counter, or has yet to ask for a worker with none counted |
| HandOff.CountedNeedsNoLock | src/fdqueue.c:104-162 | with a worker counted the listener comes to its reservation, or to the news of the shutdown, in two steps and without the lock |
| HandOff.WokenListenerReturns | src/fdqueue.c:137-162 | a listener woken by a signal or for nothing does not wait again: it comes to its reservation, whatever the counter, or to the news of the shutdown |
| HandOff.LastInFirstOut | src/fdqueue.c:302-368 | the worker that pops next gets the connection pushed last, over any run of other steps between, and the others stay queued in order |
| HandOff.BroadcastWakes | src/fdqueue.c:372-399 | an interruption and the broadcast of the shutdown wake every worker that is blocked and move no other |
| HandOff.WorkerComesToItsEnd | src/fdqueue.c:333-370 | after the flag is set a worker marked idle and not blocked takes a connection or gets the end-of-file answer in at most two steps |
| HandOff.LeftForGood | src/zevent.c:736-778 | over every run a worker that has left stays as it left |
| HandOff.EofMeansDrained | src/fdqueue.c:344-359 | if no connection is queued when the flag is set, or no worker is then between finding nothing and reading the flag, a worker that gets the end-of-file answer leaves nothing behind: every connection pushed has been popped, and no later step pushes one |
| HandOff.EofEarlyExactly | src/fdqueue.c:349-359 | otherwise, and only then, a worker can get the end-of-file answer while a connection is queued |
| HandOff.EmptyAtTermIsDrained | src/fdqueue.c:383-399 | if the queue is empty when the flag is set it stays so, with all that was pushed popped |
| HandOff.EofBeforeDrained | src/fdqueue.c:333-370 | a run of two workers with no spurious wakeup in which one gets the end-of-file answer with a connection queued |
| HandOff.TermSplit | src/fdqueue.c:383-399 | every run in which the flag gets set passes through one setting of it |
| HandOff.NoneAbandoned | src/zevent.c:736-778 | in every run in which no thread is woken for nothing and none is stopped, while a connection is queued some worker will still look into the queue |
| HandOff.AbandonedExactly | src/zevent.c:736-778 | with any wakeups, a connection is left with no worker to look for it after the flag is set if and only if it is so at that moment |
| HandOff.WokenWorkerAbandons | src/zevent.c:736-778 | a run of one worker in which a spurious wakeup leads to that: every worker has left, and no step takes the connection |
| HandOff.StepKeepsInv | src/zevent.c:587-623 | every step of listener and workers keeps the accounting, conservation, both wakeup conditions, and that an end-of-file answer comes only after the flag was set |
| HandOff.SocketQueue.Push | src/fdqueue.c:302-325 | given room, the connection is appended to the array's contents |
| HandOff.SocketQueue.Pop | src/fdqueue.c:344-368 | under the lock, the last connection is taken, or there is none; the flag is read by ReadFlag afterwards |
| PoolStack.StepIsAtomic | src/fdqueue.c:165-221 | every read, write and compare-and-swap either pushes its pool on the stack, pops the top of it, or leaves it alone; an empty answer means that it is empty |
| PoolStack.RunConserves | src/fdqueue.c:165-221 | in every interleaving of many pushers and one popper the list is acyclic and unique, pushed = popped + listed, pools are handed out in the order popped, and, though addresses are used again, a pusher writes only to a node that is its own and not listed, while the popper looks only at listed nodes or at the one it has just taken off |
| PoolStack.EveryPoolIsSomewhere | src/fdqueue.c:165-221 | in every interleaving the pools that callers gave to push are exactly those handed out, taken off by the popper, on the list, or in the hands of a pusher |
| PoolStack.PushFinishes | src/fdqueue.c:165-191 | wherever a pusher is and whatever others have done, at most five steps of its own put its pool on top |
| PoolStack.PopFinishes | src/fdqueue.c:193-221 | wherever the popper is, at most six steps of its own hand out the top, or what it had taken off, or find the list empty |
| PoolStack.PopCallFinishes | src/fdqueue.c:193-221 | so a whole call of pop that nobody interferes with hands out the top or finds nothing |
| PoolStack.PopAnswers | src/fdqueue.c:193-221 | in every interleaving the popper ends with the list empty or with one more pool handed out, the one it took off |
| PageCache.OpenRunRefines | common/mdb/mpool.c:117-259 | over every run from an opened file the cache means the plain array of pages; each cached page is on the list and on the chain of its key only; and the size is bounded by the limit, the peak of pins and buffers lost to failed reads |
| PageCache.GetRefines | common/mdb/mpool.c:152-231 | a get answers with the page's contents in the array if and only if the page exists and is cached, or can be read and there is room for it; it changes no contents, whatever is written, fails or is evicted on the way |
| PageCache.NewRefines | common/mdb/mpool.c:117-146 | a new page is added to the array at the next number, if and only if the numbers are not used up and there is room; or nothing changes |
| PageCache.PutRefines | common/mdb/mpool.c:237-259 | returning a page changes no contents, if a changed or new page is returned dirty; the page is then not pinned, and dirty if it was or is said to be |
| PageCache.SyncRefines | common/mdb/mpool.c:286-301 | a sync changes no contents, succeeds if and only if every dirty page can be written, and then the file holds the contents of every page that is not being changed |
| PageCache.TakeKeeps | common/mdb/mpool.c:307-359 | taking a buffer changes no contents and evicts only the least recently obtained page that is not pinned |
| PageCache.TakeExactly | common/mdb/mpool.c:307-359 | a page is evicted only at the limit, the cache grows only below it or with all pinned, and there is no room exactly if the least recently obtained unpinned page is dirty and cannot be written, or there is none to evict and no memory |
| PageCache.HashKeysSpread | common/mdb/mpool.h:61-63 | two pages are on one chain if and only if their numbers differ by a multiple of 128, page 0 and its wrap-around included |
| PageCache.WriteKeeps | common/mdb/mpool.c:365-388 | a write, also one that fails and leaves anything in the file, changes no contents |
| PageCache.CacheBound | common/mdb/mpool.c:314-358 | if no read fails the cache never exceeds the larger of its limit and the most pages pinned at once |
| PageCache.RunRefines | common/mdb/mpool.c:117-301 | refinement of the array carries over any run from any state in order |
| PageCache.Pool.Look | common/mdb/mpool.c:394-414 | the search of the chain finds a page exactly if it is cached |
| PageCache.Pool.Take | common/mdb/mpool.c:307-359 | the loop over the list, in place |
| PageCache.Pool.GetPage | common/mdb/mpool.c:152-231 | the whole new state and the answer of a get, in place |
| PageCache.Pool.Sync | common/mdb/mpool.c:286-301 | the whole new state and the answer of a sync, in place |
| BlockingQueue.Fifo | common/misc/queue.c:96-148 | in every interleaving, and for every capacity, values popped + contents = values pushed, in order, with in = (out + nelts) mod bounds and nelts at most bounds; the values pushed are those of the calls that found room, in the order in which they did, and each pop that found an item took one |
| BlockingQueue.StepHolds | common/misc/queue.c:96-187 | through waits and wakeups a push keeps the item of its call |
| BlockingQueue.StepMovesItems | common/misc/queue.c:96-294 | a step stores the item of its call if it is a push that finds room, takes the oldest if it is a pop that finds one, and moves no item else |
| BlockingQueue.PushWaitsExactly | common/misc/queue.c:108-132 | a push waits if and only if it blocks, finds no room and the flag is not set, and only once |
| BlockingQueue.PopWaitsExactly | common/misc/queue.c:214-239 | a pop waits if and only if it blocks, finds nothing and the flag is not set, and only once |
| BlockingQueue.InterruptWakes | common/misc/queue.c:296-310 | an interruption ends every wait, moves no other thread and no item |
| BlockingQueue.NoLostWakeup | common/misc/queue.c:202-255 | while a thread is blocked unsignalled on either condition, items (or free slots) are at most the threads woken for them |
| BlockingQueue.NobodyBlockedAfterTerm | common/misc/queue.c:312-329 | after a termination call has finished no thread is or ever becomes blocked |
| BlockingQueue.NobodyBlockedAfterBroadcast | common/misc/queue.c:296-329 | at the end of every run in which the flag was set and a broadcast came some time later, nobody is blocked, wherever other calls are |
| BlockingQueue.StepsNeverStuck | common/misc/queue.c:296-310 | a thread that is not blocked can always take its next step |
| BlockingQueue.PutAppends | common/misc/queue.c:134-144 | storing in the circular array appends to its contents |
| BlockingQueue.TakeRemoves | common/misc/queue.c:241-251 | taking from the circular array removes the oldest |
| BlockingQueue.Queue.EnterPush | common/misc/queue.c:104-187 | the critical section of push and trypush up to its end or its wait, on the array in place |
| BlockingQueue.Queue.ResumePop | common/misc/queue.c:220-254 | the critical section of a popper after its wait, on the array in place |
| Content.RunKeepsFaith | libbt/btpd/content.c:257-313 | after every run of preallocations, puts and tests, with any write failing or torn, the stored bytes of every block marked received are those last given for it |
| Content.RunKeepsInv | libbt/btpd/content.c:234-313 | every run keeps: a piece with its bit or any block bit has its place ready, the counters are right, and the write stream is open exactly while a piece is missing |
| Content.RunKeepsSound | libbt/btpd/content.c:234-313 | owned pieces keep the digest the torrent file gives; nothing overwrites or zero-fills them |
| Content.PutKeepsBlocks | libbt/btpd/content.c:274-300 | a put, failing or not, leaves the bytes of every block received before |
| Content.PutStores | libbt/btpd/content.c:301-312 | a put that succeeds stores its bytes and marks that block and no other |
| Content.PutSucceedsExactly | libbt/btpd/content.c:257-313 | a put fails if and only if the store has failed before or fewer writes go through than its own and those that fill the window; if it succeeds the store stays open and the window is ready |
| Content.PutTears | libbt/btpd/content.c:301-307 | a write that fails leaves the bytes the disk has taken of it, and the rest of the block as it was |
| Content.WindowIs | libbt/btpd/content.c:275-277 | the windows are the least runs of whole pieces that hold the allocation size, and follow each other from the first piece |
| Content.PutKeepsBooks | libbt/btpd/content.c:309-310 | npieces_got and ncontent_bytes stay the pieces owned, and the sizes of owned pieces plus received blocks of the others |
| Content.TestKeepsBooks | libbt/btpd/content.c:234-255 | so they do over a test that succeeds, fails or cannot read |
| Content.TestDecides | libbt/btpd/content.c:234-255 | a test that can read the piece owns it if and only if its bytes have the digest, gives up all its blocks if not, touches nothing else, and fails exactly if the piece cannot be read, or the write stream not be closed after the last |
| Content.GoodDownloadIsAccepted | libbt/btpd/content.c:234-313 | over every run of puts and tests, a piece whose blocks were last given as the bytes with the right digest, and only such a one, passes its test |
| Content.FillPiecesFills | libbt/btpd/content.c:279-299 | filling a window touches only pieces that were not ready, so the assertion at line 281 holds |
| Content.FillPiecesZeroes | libbt/btpd/content.c:282-296 | a piece that becomes ready lies in the window and holds zeros |
| Content.MissingPieceIsWritable | libbt/btpd/content.c:242-248 | while a piece is missing the write stream is open and the assertion at line 242 holds |
| Content.ForgetsWhatIsMissing | libbt/btpd/content.c:563-580 | the set-up clears all bits of exactly those pieces of which a byte is not on disk |
| Content.StartupOrders | libbt/btpd/content.c:528-583 | a start of a new store ends in an error or with the counters right and every missing piece short of a block; it fails exactly if a file or a piece cannot be read, or the write stream is needed and cannot be opened; the owned pieces are those read that have the right digest and, without a full check, those saved as owned that are not read |
| Content.StartupEndOrders | libbt/btpd/content.c:416-467 | the end of the start-up establishes the invariant from zero counters |
| Content.StartupEndDecides | libbt/btpd/content.c:416-467 | it clears the blocks of exactly those pieces that have them all and are not owned, and fails exactly if the write stream is needed and cannot be opened |
| Content.FillPiecesWrites | libbt/btpd/content.c:279-299 | a piece is filled in as many writes as buffers of zeros make it up, and filling fails exactly if one of them does |
| Content.Torrent.BlocksMakePiece | libbt/btpd/torrent.c:53-80 | the block sizes of a piece add up to its size |
| Content.Torrent.PiecesMakeTorrent | libbt/btpd/torrent.c:53-62 | the pieces follow each other and make up the torrent |
| Content.Manager.CmPutBytes | libbt/btpd/content.c:257-313 | the loops of a put, in place, with the assertion at line 281 |
| Content.Manager.CmTestPiece | libbt/btpd/content.c:234-255 | a test, in place, with the assertion at line 242 |
| Content.Manager.CmStart | libbt/btpd/content.c:528-583 | the whole start, in place |
| Utf.AcceptsExactlyUtf8 | minidownloader/encode.c:10-84 | given room, the decoder answers 0 exactly for the strings of section 4 of RFC 3629, and then has used all of the input |
| Utf.DecodesMost | minidownloader/encode.c:10-84 | whatever the room, no text that fits goes further than the decoder does |
| Utf.AcceptsExactlyUtf16 | minidownloader/encode.c:96-145 | with three octets of room per word, the encoder answers 0 exactly for words whose surrogates are paired, uses them all, and stores nothing past the end |
| Utf.OverrunExactly | minidownloader/encode.c:98-104 | the encoder stores past the end if and only if an ASCII character comes when the output is exactly full |
| Utf.OneLetterOverruns | minidownloader/encode.c:98-104 | one letter with no room is such an input |
| Utf.DecodeUndoesEncode | minidownloader/encode.c:2-146 | what the encoder makes of a whole input, the decoder turns back into it |
| Utf.EncodeUndoesDecode | minidownloader/encode.c:2-146 | what the decoder makes of a whole input, the encoder turns back into it |
| Utf.DecodesOnce | minidownloader/encode.c:2-84 | the decoder's relation of input, room and answer allows one answer |
| Utf.EncodesOnce | minidownloader/encode.c:86-146 | the encoder's relation of input, room and answer allows one answer |
| Utf.Utf8OfCodePoint | minidownloader/encode.c:60-66 | every character of the grammar is the encoding of the code point its octets join to |
| Utf.CodePointOfUtf8 | minidownloader/encode.c:125-142 | every encoding is a character of the grammar, and its octets join to the code point |
| Utf.AcceptedIsChar | minidownloader/encode.c:22-66 | the bit tests of the decoder accept exactly the characters of the grammar |
| Utf.Utf8ToUcs2 | minidownloader/encode.c:2-84 | the loop: what was consumed and written is one text in both forms, and why it stopped |
| Utf.Ucs2ToUtf8 | minidownloader/encode.c:86-146 | the loop: what was consumed and written is one text in both forms, and why it stopped |
| Utf.LengthBits | minidownloader/encode.c:28-34 | the mask loop finds how many octets follow |
| Utf.PutOctets | minidownloader/encode.c:134-142 | the octets stored from the last to the first are the encoding, and nothing else changes |
| Allocator.BlockSizeFits | common/memory/allocator.c:144-158 | a size is found if and only if request and header are at most 2^39 bytes, also where size_t wraps around; the block then holds them and wastes less than a boundary above the minimum |
| Allocator.AllocIsBigEnough | common/memory/allocator.c:163-275 | every allocation keeps the index invariant, a node returned has room for the request, and malloc is asked only when no cached node is large enough |
| Allocator.AllocConserves | common/memory/allocator.c:187-256 | a node from the cache leaves it and nothing else does |
| Allocator.AllocFitsBest | common/memory/allocator.c:163-216 | of the cached nodes in slots, none that is large enough is smaller than the one taken |
| Allocator.FreedIsReused | common/memory/allocator.c:134-346 | a node that is kept is what the next request of its size gets, and the lists are then as they were |
| Allocator.FreeAllConserves | common/memory/allocator.c:278-346 | nodes given back are cached or released, none lost or doubled, and the index invariant holds |
| Allocator.ReleasedExactly | common/memory/allocator.c:298-330 | a node is given back to the system exactly if the cache would otherwise exceed the limit, and with no limit never |
| Allocator.NoNodeTwice | common/memory/allocator.c:134-276 | after every run from a new allocator, a node handed out is large enough and is not one a caller holds |
| Allocator.RunRetains | common/memory/allocator.c:203-205 | once cached indices + current_free_index = max_free_index, every run that sets no limit keeps it, so the cache never exceeds the limit |
| Allocator.AllocRetains | common/memory/allocator.c:243-245 | an allocation keeps the equality and the clamp never fires |
| Allocator.SetLimitRetains | common/memory/allocator.c:107-132 | in every state with current_free_index within max_free_index, which all calls keep, setting a limit establishes the equality if and only if the limit is not zero and either what is cached counted under the old limit and fits the new one, or nothing is cached |
| Allocator.LimitRetainsIff | common/memory/allocator.c:107-132 | so it is at any point of any run from a new allocator, and then the equality and the limit hold over every later run of alloc and free |
| Allocator.RunCeiling | common/memory/allocator.c:297-334 | under a limit, whether or not the equality holds, no run of alloc and free takes the cache beyond what it held and might still take at the start |
| Allocator.LimitSetWhileCaching | common/memory/allocator.c:107-132 | an allocation, its release and then a limit of four blocks leave one block cached that does not count |
| Allocator.LimitWraps | common/memory/allocator.c:121-124 | the limit becomes none exactly for sizes that are 0, or within a block of 2^32, modulo 2^32 |
| Allocator.LimitCovers | common/memory/allocator.c:110-126 | the limit covers what was asked for if and only if that is at most a block below 4 GB, and then by less than a block |
| Allocator.StepKeepsInv | common/memory/allocator.c:107-346 | every call keeps the index invariant and that no two live nodes share an address |
| Allocator.NodeAllocator.InAlloc | common/memory/allocator.c:134-276 | the loops over slots and sink, in place |
| Allocator.NodeAllocator.InFree | common/memory/allocator.c:278-346 | the loop over the nodes, in place |
| HashTable.Expand | common/misc/hash.c:99-117 | relinking every entry while iterating over the old chains keeps the map and doubles the array |
| HashTable.FillFills | common/misc/hash.c:171-178 | storing an entry at the end of its chain adds its key to the map; chains stay linked, placed and without repeated keys |
| HashTable.UnlinkUnlinks | common/misc/hash.c:196-202 | unlinking an entry removes exactly its key |
| HashTable.ReplaceReplaces | common/misc/hash.c:203-205 | changing the value of an entry changes the map at its key |
| HashTable.MaskIsSlot | common/misc/hash.c:155-157 | for an array of a power of two slots, which every operation keeps, the bitwise and of hash and max is the remainder that picks the chain |
| HashTable.VisitsOnce | common/misc/hash.c:68-90 | the iterator meets every key of the map once |
| HashTable.Next | common/misc/hash.c:68-79 | the iterator goes to the next entry of its chain, or the first of the next chain that is not empty |
| HashTable.HashDefault | common/misc/hash.c:124-145 | both loops compute the fold over the key's bytes; for a string, those before its terminator |
| HashTable.Splice | common/misc/hash.c:157-178 | storing a pointer at a place of a chain cuts the chain there and goes on with the tail |
| HashTable.WalkStops | common/misc/hash.c:266-277 | the scan goes on exactly as long as no answer is negative |
| HashTable.Hash.Set | common/misc/hash.c:191-214 | the map gains, changes or loses the key, and the array doubles exactly when entries outnumber it after a store |
| HashTable.Hash.Get | common/misc/hash.c:181-189 | the value that the map has for the key, or none |
| HashTable.Hash.Clear | common/misc/hash.c:221-226 | deleting while iterating ends, with the empty map |
| HashTable.Hash.HashDo | common/misc/hash.c:255-278 | the callback is called along the iteration, and the answer is what its last answer calls for |
| HashTable.Hash.FindEntry | common/misc/hash.c:147-179 | the place of the key's entry, which is made if a value is given |
| Reslist.RunCounts | common/misc/reslist.c:201-432 | for every interleaving of lock-held steps, nidle is the length of the list, ntotal = built - destroyed = idle + held, and 0 <= nidle <= ntotal <= hmax |
| Reslist.StepKeepsInv | common/misc/reslist.c:56-432 | every step keeps the counts, newest first, and that no resource is idle twice, held twice or both |
| Reslist.ScanTakesNewestOrAll | common/misc/reslist.c:332-351 | an acquire takes the newest idle resource, not expired, or has met an expired one and destroys all, unless the destructor fails at its n-th call |
| Reslist.ExpireMissesNone | common/misc/reslist.c:239-258 | after the expiry loop at most smax are idle or none has expired, in spite of the early break; only expired ones are destroyed |
| Reslist.ExpireTakesLast | common/misc/reslist.c:249-257 | resources are destroyed from the old end, and never below smax |
| Reslist.ExpireFails | common/misc/reslist.c:239-258 | the expiry fails exactly if the destructor does, and stops at that call |
| Reslist.FillReaches | common/misc/reslist.c:211-230 | creation brings the idle ones up to min unless the hard maximum or a failure stops it |
| Reslist.FillFails | common/misc/reslist.c:211-230 | creation fails exactly where a call of the constructor that is needed does |
| Reslist.FillMakes | common/misc/reslist.c:211-230 | what is created is what the constructor made, newest first, before what was idle |
| Reslist.MaintRestores | common/misc/reslist.c:201-262 | maintenance creates or destroys, not both, and if nothing fails leaves min idle or the hard maximum built, and at most smax idle or none expired |
| Reslist.TakeKeepsInv | common/misc/reslist.c:366-388 | after a wait a caller gets something nobody holds, or an error |
| Reslist.ScanKeepsInv | common/misc/reslist.c:332-351 | so does a caller that need not wait |
| Reslist.AcquireOutcome | common/misc/reslist.c:325-388 | which of newest, error, wait and constructor a call gets, from the state it finds |
| Reslist.WakeOutcome | common/misc/reslist.c:354-388 | what a woken thread gets, and that it waits on if there is nothing |
| Reslist.ReleasedIsReused | common/misc/reslist.c:325-404 | what is released last is acquired first, unless it has expired |
| Reslist.CleanupEmpties | common/misc/reslist.c:161-195 | the cleanup destroys all idle resources, and its assertion on ntotal holds if and only if none is held |
| Reslist.NoLostWakeup | common/misc/reslist.c:354-388 | in every interleaving, with spurious wakeups and time-outs, while a thread is blocked the idle resources and free slots are at most the threads that are awake plus the constructor failures of woken threads |
| Reslist.LosesWakeupExactly | common/misc/reslist.c:378-388 | a step breaks that bound without failures if and only if a woken thread's constructor fails while another is blocked and there was room only for those awake |
| Reslist.FailureStrandsWaiter | common/misc/reslist.c:378-432 | a run of one resource and two waiters in which an invalidate wakes one, its constructor fails, and the other stays blocked with a slot free |
| Reslist.ResourceList.AcquireIdle | common/misc/reslist.c:332-351 | the loop, in place |
| Reslist.ResourceList.Maintenance | common/misc/reslist.c:201-262 | both loops, in place |
| PeerQueue.StreamIsFramed | libbt/btpd/peer.c:99-142 | over every run, each NB_PIECE that has left or is queued is directly followed by its NB_TORRENTDATA, data without a header are only at the head of the queue, and npiece_msgs counts the data queued |
| PeerQueue.StepKeeps | libbt/btpd/peer.c:121-142 | every call keeps the framing; only a write changes what has left, and a partly written head is never removed |
| PeerQueue.ChokeKeeps | libbt/btpd/peer.c:271-288 | a choke takes back every block of which no byte has gone and no other message |
| PeerQueue.UnchokeKeeps | libbt/btpd/peer.c:264-269 | an unchoke goes last into the queue, keeps the framing and turns the flag off |
| PeerQueue.OnRequestKeeps | libbt/btpd/peer.c:718-734 | a request queues one block, and turns further requests off when the limit is reached |
| PeerQueue.RequestsComeOn | libbt/btpd/peer.c:144-160 | over every run requests are off only while an unchoke is queued, which turns them on as it leaves |
| PeerQueue.RequestAppends | libbt/btpd/peer.c:718-734 | a request adds its block, at the limit a choke and an unchoke behind it, and nothing while requests are off |
| PeerQueue.OnCancelKeeps | libbt/btpd/peer.c:736-754 | a cancel takes back the first block of the request if no byte of it has gone, and nothing else |
| PeerQueue.CancelRequestKeeps | libbt/btpd/peer.c:243-262 | cancelling an own request keeps the framing and the head |
| PeerQueue.CancelRequestChanges | libbt/btpd/peer.c:243-262 | an own request of which no byte has gone is taken out of the queue; for any other a cancel is sent |
| PeerQueue.InterestChanges | libbt/btpd/peer.c:290-320 | interest takes back an unsent loss of interest that is last in the queue, and is sent else |
| PeerQueue.DropRequestsDrops | libbt/btpd/peer.c:566-585 | a choke by the peer takes back every request of which no byte has gone and nothing else |
| PeerQueue.OfferStops | libbt/btpd/peer.c:144-216 | the offer to the socket (its loop is at `libbt/btpd/net.c:196-231`) goes on to the end of the queue, the maximum or a second block in memory, and never has two |
| PeerQueue.SomethingOffered | libbt/btpd/peer.c:144-216 | a write (the loop at `libbt/btpd/net.c:196-231`) offers the head at least |
| PeerQueue.WriteKeeps | libbt/btpd/peer.c:144-216 | a write (its loops are at `libbt/btpd/net.c:181-278`) moves messages to the stream in order, as many bytes as the socket took, with data filled before their header goes |
| PeerQueue.PopHeadKeeps | libbt/btpd/peer.c:199-203 | a head that has left keeps the framing and the count, and the assertion at line 201 holds |
| PeerQueue.PeerOut.PeerChoke | libbt/btpd/peer.c:271-288 | the loop, in place |
| PeerQueue.PeerOut.NetWrite | libbt/btpd/peer.c:144-216 | both loops of a write (`libbt/btpd/net.c:181-278`), in place, with the bookkeeping for each message sent |
| IdleMaintenance.DeadSlotsFirst | src/zevent.c:1276-1358 | a pass makes at most idle_spawn_rate children, each for its own slot with no process or one that goes; recorded slots of only dead threads come before any other; an open slot is passed over only for want of room |
| IdleMaintenance.InsertRecords | src/zevent.c:1281-1298 | recording a slot keeps the list distinct, the dead slots first and in order, and the lengths bounded |
| IdleMaintenance.NextRecords | src/zevent.c:1276-1298 | so does looking at a slot, whether it is recorded or not |
| IdleMaintenance.ScanSlots | src/zevent.c:1229-1304 | the scan over the array: the list, the thread counts and the last slot that is not dying |
| IdleMaintenance.Parent.Maintain | src/zevent.c:1216-1373 | the children made, the slots changed, the signal to stop one, the new daemon limit and hold-off count, and the next rate, always a power of two from 1 to 32 |
| IdleMaintenance.Parent.MakeChild | src/zevent.c:1145-1183 | the slot after a fork that succeeds or fails |
| IdleMaintenance.ForkedTakesSlot | src/zevent.c:1145-1183 | a slot with a new child is not open any more; one for which the fork fails is open for the next pass |
| IdleMaintenance.HungryDoubles | src/zevent.c:1356-1367 | over passes that keep finding too few idle threads, the rate stays at 1 while children are held off and then doubles up to 32 |
| Md5.AnySplit | minidownloader/md5.c:72-161 | however a message is cut into updates, the result is the digest of the whole, padded as in sections 3.1 and 3.2 of RFC 1321 |
| Md5.UpdateAppends | minidownloader/md5.c:72-115 | an update appends its data to the message the context stands for |
| Md5.FinalIsDigest | minidownloader/md5.c:121-159 | the last step gives the digest of the padded message |
| Md5.AddBitsAdds | minidownloader/md5.c:77-82 | the 64-bit length is carried from bits[0] to bits[1] |
| Md5.UsedIsTail | minidownloader/md5.c:84 | the low word of the length tells how many bytes are buffered |
| Md5.Md5Context.Md5Update | minidownloader/md5.c:72-115 | the update on the 64-byte buffer, in place |
| Md5.Md5Context.Md5Final | minidownloader/md5.c:121-159 | the last step on the 64-byte buffer, in place |
| Md5Transform.CodeIsStandard | minidownloader/md5.c:164-174 | any number of the code's steps, with F1 written with one operation less and sums in another order, are the steps of section 3.4 of RFC 1321 |
| Md5Transform.Transform | minidownloader/md5.c:181-263 | the 64 written-out steps, with their registers, words, constants and shifts, are the step of a formula for index, shift and table, 64 times |
| Md5Transform.CodeCompressesBytes | minidownloader/md5.c:164-263 | on 32-bit words the code compresses a block as section 3.4 of RFC 1321 does |
| Md5Transform.TransformBytes | minidownloader/md5.c:97-98 | the call on the buffer read as words: the registers become what section 3.4 makes of them and the 64 bytes |
| Md5Transform.LengthIsLastWords | minidownloader/md5.c:153-155 | words 14 and 15 of the last block are the low and high word of the length |
| Md5Transform.AnySplitIsMd5 | minidownloader/md5.c:56-161 | however a message is cut into updates, the registers in the end are those of RFC 1321 for the whole message |
| Wire.RoundCommon | upunch/p2p_wire.c:115-154 | a header decodes to itself, its type cut to five bits and its flags to the others |
| Wire.RoundSock | upunch/p2p_wire.c:157-217 | a socket address decodes to itself, with the bytes its family does not use zero |
| Wire.RoundRegister | upunch/p2p_wire.c:219-246 | a REGISTER decodes to itself, at exactly the bytes it was written to |
| Wire.RoundSuperAck | upunch/p2p_wire.c:318-362 | a REGISTER_SUPER_ACK decodes to itself, with or without a backup supernode |
| Wire.RoundAck | upunch/p2p_wire.c:277-316 | a REGISTER_ACK decodes to itself if its flag says whether it has a socket |
| Wire.Round32 | upunch/p2p_wire.c:62-88 | a 32-bit word decodes to itself |
| Wire.NetworkOrder | upunch/p2p_wire.c:38-72 | numbers go out with their high-order byte first |
| Wire.AllOrNothing | upunch/p2p_wire.c:25-113 | a decoder takes its bytes, in that order, if they are all there, and leaves all as it was if not |
| Wire.HeaderLayout | upunch/p2p_wire.c:115-130 | where version, time to live, type, flags and community are in a header |
| Wire.SockLayout | upunch/p2p_wire.c:157-187 | where family, port and address bytes are in an address |
| Wire.RegisterLayout | upunch/p2p_wire.c:219-231 | where cookie, sender and destination are in a REGISTER |
| Wire.AnswerLayout | upunch/p2p_wire.c:318-336 | where cookie, lifetime, address and backup are in a REGISTER_SUPER_ACK |
| Wire.HeaderIsReadWhole | upunch/p2p_wire.c:132-154 | every header of the right version is the encoding of what is read from it, and any other is refused |
| Wire.SockIsReadWhole | upunch/p2p_wire.c:190-217 | of every address that is there in full nothing is lost but the low bits of the family word |
| Wire.DecCommon | upunch/p2p_wire.c:132-154 | on every buffer, idx + rem stays the same and idx does not go back |
| Wire.DecRegister | upunch/p2p_wire.c:233-246 | on every buffer, idx + rem stays the same, idx does not go back, and both addresses have a family |
| Wire.DecSuperAck | upunch/p2p_wire.c:338-362 | on every buffer, idx + rem stays the same and idx does not go back |
| Wire.Writer.EncodeRegister | upunch/p2p_wire.c:219-231 | the bytes are appended to the buffer at idx |
| Wire.Reader.DecodeRegister | upunch/p2p_wire.c:233-246 | the value, rem and idx after the decoding, in place |
| Supernode.RegisterIsForwarded | upunch/sn.c:367-398 | a REGISTER through a supernode that knows its target reaches it with its cookie, destination and payload, the sender's address as observed, and a TTL one lower |
| Supernode.NotForwarded | upunch/sn.c:341-345 | with no time to live left, or for an unknown target, nothing is sent |
| Supernode.OthersIgnored | upunch/sn.c:331-345 | a datagram of the wrong version, with no time to live, or of another type changes and sends nothing |
| Supernode.RegisteredIsReachable | upunch/sn.c:403-445 | a REGISTER_SUPER is answered to its sender's address and port, and a message for that address is then sent there |
| Supernode.RegisteredStaysReachable | upunch/sn.c:302-449 | so it is from then on, over every run of datagrams before and after it from an empty list of edges |
| Supernode.ServedKeeps | upunch/sn.c:302-449 | every run of datagrams keeps one edge per place and loses none |
| Supernode.AnswerIsRead | upunch/sn.c:417-440 | the sender reads its cookie, a lifetime of 120 and its own address as observed, in a header with TTL 2, the socket and supernode flags and its community |
| Supernode.UpdateEdgeUpdates | upunch/sn.c:105-156 | after an update the sender is found, every other place is found as before, and there is one edge per place |
| Supernode.SentFits | upunch/sn.c:373-397 | whatever datagram comes in, what is sent is no longer than it, or shorter than 68 bytes |
| SupernodeLoop.Node.ProcessUdp | upunch/sn.c:305-449 | the packet handler, in place, with what it sends |

## Left out

- Mutexes and condition variables are taken to work as they should: calls on them do not fail, waits may end for no reason (HandOff says where it excludes that), and a critical section is one step.
- Sockets, files, fork, signals, clocks and allocation are parameters: what they answer, when they fail and what a failed write leaves behind.
- HandOff: the increment that `zevent_queue_info_wait_for_idler` takes back when the mutex cannot be locked, since mutex calls do not fail; and integer wrap-around of the idle counter.
- PoolStack: several poppers at once, which the source's own comment excludes.
- PageCache: page filters (`mpool_filter` changes a page in place on its way out and never restores it), `mpool_close`, several pins of one page, and the lists as rings of pointers: they are sequences of page numbers.
- PageCache.NewRefines: the contents of a new page are whatever the buffer holds, and `abort` at the highest page number is modelled as adding nothing.
- Content: the files of a torrent are one run of bytes, hashing is a function of them, one torrent is started at a time, and `cm_stop`, `cm_save`, `cm_get_bytes`, `cm_range_pieces` and `cm_range_ready` are not modelled. The bit fields are sequences of booleans.
- Content.RunKeepsInv: for a store that is active; after an I/O error the store is stopped, while download code goes on calling it until the next tick.
- Utf: Byte, Word and code points are bit vectors of 32 bits; the wrapped counter after a store past the end is not followed further.
- Allocator: the lists are sequences, a node's address is an identity, and the mutex is left out.
- HashTable: keys are values, so a key that its owner changes while it is stored is not modelled; nor are `hash_destroy` and a malloc that fails.
- Reslist: which waiter a signal wakes, and fairness; a signal that fails is not modelled. Maintenance is given finitely many calls of the constructor.
- PeerQueue: only the output queue; the interest and suspect flags, the request lists and HTTP peers are left out, and errors that end the connection end the run. Lengths of messages other than blocks and requests are parameters.
- IdleMaintenance.Parent.MakeChild: the branch for running as one process, which never returns.
- IdleMaintenance: that a child killed or a fork made shows up in the scoreboard later.
- Md5.Md5Context.Md5Final: answers the registers; their copy to the sixteen bytes of the digest, on a little-endian machine low-order bytes first, is left to the caller.
- Md5: the machine is little-endian with a 32-bit `unsigned long`, as on Windows; `MD5Final` clears only the size of a pointer of its context, and what it leaves is not described.
- Supernode.RegisteredStaysReachable: the rest of a REGISTER_SUPER is any that is read into a token with room for it; `decode_REGISTER_SUPER` copies as many bytes as the datagram says.
- Wire: `encode_common`'s and `decode_sock`'s return values, the auth token of REGISTER_SUPER, and `fill_sockaddr`.
- SupernodeLoop.Node.ProcessUdp: the heartbeat branch and the statistics.
- Supernode: the purging of old edges, so the runs are of datagrams between two purges, and a send that fails.
- `src/dictionary.c`, `src/iniparser.c`, `src/scoreboard.c`, `src/zevent_alarm.c`, `libbt/btpd/tlib.c`, `upunch/p2p_punch.c`, the database and connection wrappers, scripts, user interfaces and Windows glue: easy, or resting on code that is not in the repository.
