# Verified models of a memcached core

This project models, in Dafny, the parts of memcached (the mTCP port) whose correctness depends on
state carried from call to call, and proves what they promise for every input, every run or every
reachable state. Each part is a group of modules:

- **Flash page engine** (`Extstore*.dfy`): pages, write buffers, IO threads, eviction. A step is one
  critical section, and runs interleave writers, IO threads, clients and the maintenance thread.
  `ExtstoreInvariant` states what every state satisfies, `ExtstoreTheorems` and `ExtstoreEviction`
  what follows for runs, `ExtstoreStores` and `ExtstoreService` what is stored and how long it is
  served, `ExtstoreExamples` holds two runs of a small engine, `ExtstoreLists` the IO queues and page
  lists on their next pointers, and `ExtstoreEngine` the engine as an object.
- **Item cache** (`Cache*.dfy`): items with reference counts and CAS ids, the LRU lists, the bump
  buffers, the store commands, incr and decr, and the tail pull. A step is one call under its item
  lock. A failed assert or a use of a freed item would clear the flag `sound`; the invariant says it
  stays set. `CachePullFate` foretells a tail pull, `CacheHits` says what a lookup finds and a hit does,
  `CacheOrder` how the lists age over runs; `CacheItems` is the cache as an object.
- **LRU lists and crawler** (`LruList.dfy`, `LruCrawler.dfy`): the lists at the level of their
  pointers, and a crawl interleaved with links and unlinks.
- **Hash table** (`Assoc.dfy`, `AssocIterator.dfy`): two bucket arrays with a migration cursor,
  refining a map; the iterator over it.
- **Response stream and allocator** (`Transmit.dfy`, `RespBundles.dfy`).
- **Bip buffer and its clients** (`BipBuffer.dfy`), **chunked append** (`ChunkCopy.dfy`).
- **Arithmetic kernels**: CRC-32C (`Crc32c*.dfy`, the digest of section 12.1 of RFC 3720), the
  Jenkins hash, Base64 (section 5.2 of RFC 1341, without line splitting), integer printing.

`Sums`, `Arith`, `Octets`, `Flatten` and `Decimal` hold shared vocabulary.

Six properties one might expect do not hold of the code; the model keeps the code, shows a case, and
states when they do hold:

- incr/decr by copy writes the new item's CAS id into the item it replaces. A client that still holds
  that item sees a CAS id that names another value, exactly when `ShowsNewCas` holds before the call
  (`AddDeltaView`; `MislabellingHappens` is a run of three steps). In runs without that step a client
  that reads off an item it holds loses no update (`HeldNoLostUpdate`); after it, it can
  (`LostUpdateHappens`).
- A tail pull asked to return an item keeps a lock and a reference it does not hand out exactly when
  it also evicts, or works on a list other than COLD, and `Stops` holds of the cache and the arguments
  before the call (`PullBalance`, `StopsExactly`; `LeakHappens` is a run).
- `bipbuf_poll` accepts any size within the whole buffer; the buffer is still a queue afterwards
  exactly when the size is within region A (`Bip.Poll`, `PollsTooMuch`).
- The page engine's global object and byte counts equal the per-page sums exactly while no delete has
  asked for more than its page still counted (`CountsAgree`; `DriftHappens` is a run).
- The page a maintenance pass evicts is the oldest of those it found evictable (`PassEvictsOldest`),
  but the oldest at the moment of eviction exactly unless a page `Overtakes` the scan: completed behind
  it, older than all it found, and not closed or emptied since (`OldestAtEviction`; `OldestMissed` is a
  run).
- A write to a ready socket sends bytes of a stream that is not empty exactly when `Offers` holds of the
  chain: a front of responses of empty vectors can fill it (`Transmit`, `Clogged`). It then finishes
  those responses, and the next write sends.

## Model

| member | source | states |
|---|---|---|
| ExtstoreRuns.RunIsGood | extstore.c:402-604 | In every state of every interleaving the whole invariant holds: list membership, versions, write-buffer layout, IO stack, reader references, queue depths, accounting |
| ExtstoreRuns.NoAssertFails | extstore.c:402-519 | Whatever step comes next in a run, the asserts on its path, page_free included, and what the code relies on unchecked hold |
| ExtstoreRuns.StepKeeps | extstore.c:739-849 | Each step of each thread keeps the invariant and is defined on it |
| ExtstoreRuns.InitGood | extstore.c:221-394 | The engine as initialised, with any split of pages over free lists, satisfies the invariant |
| ExtstoreTheorems.StoredObjectsReadBack | extstore.c:467-604 | An object stored at any point of a run is what every later successful read of it returns, from buffer or file; a read misses only when its page version is closed or gone |
| ExtstoreStores.WrittenIsRead | extstore.c:530-604 | Over runs: a pick and the fill that follows it store the very bytes handed over with the pick, exactly when the page picked is being filled and its buffer, or a fresh one from the stack, has room for them; the object is logged at that position, and a later successful read of it returns those bytes |
| ExtstoreStores.FillStores | extstore.c:541-604 | One write section logs exactly the picked object or nothing, decided by the state before it, and leaves the objects of every other version alone |
| ExtstoreService.ServedUntilRetired | extstore.c:649-820 | Over runs: as long as no step retires its page, a read of a stored object never misses, and what it answers is the object |
| ExtstoreService.RetiredExactly | extstore.c:649-984 | An open page stops serving its version exactly by a close of that version, a scan that finds it filled, without objects and unread, or the eviction of the page noted |
| ExtstoreService.CheckAnswers | extstore.c:782-820 | A read check answers a miss exactly when the page is free, closed or under another version; else it copies from the buffer or pins the page |
| ExtstoreService.AllocateTakes | extstore.c:402-436 | A bucket gets the first page of the free list asked for, failing that of the default one, under a version nothing was stored under; nothing changes exactly when both are empty |
| ExtstoreService.DeleteTakes | extstore.c:649-682 | Objects and bytes leave the page of that version, down to zero at the least, and the totals in full; other pages keep their counts |
| ExtstoreService.BatchIs | extstore.c:742-770 | A batch is the front of the queue, one IO at least, more only up to io_depth, and less than io_depth only when the queue is empty after it |
| ExtstoreTheorems.ObjectsDisjoint | extstore.c:560-604 | The objects of one page version occupy disjoint extents inside the page, in order |
| ExtstoreTheorems.ReadPagesStay | extstore.c:782-898 | A page some IO thread is reading keeps its version and is not freed by any step |
| ExtstoreTheorems.RunExtendsLogs | extstore.c:530-604 | What was written under a version never changes later in a run |
| ExtstoreTheorems.EveryPageListedOnce | extstore.c:331-436 | Every page but page 0 is on exactly one free list or bucket list, once; page_free is the length of the free lists |
| ExtstoreTheorems.CountsAgree | extstore.c:586-682 | At any point of any run the global object count is the sum over the pages exactly when no earlier delete of an open page under its version asked for more objects than the page still counted; the same for bytes |
| ExtstoreTheorems.ExcessGrows | extstore.c:649-682 | In one step the drift grows exactly in such a delete and never shrinks |
| ExtstoreExamples.DriftHappens | extstore.c:649-682 | A run from the initial engine that stores one object and deletes it twice: the pages count none, the engine minus one |
| ExtstoreEviction.PassEvictsOldest | extstore.c:913-994 | In every interleaving: a pass that began with the default free list empty, saw no filled, unread page that was closed or without objects, and saw a filled, open page with objects bound for that list, closes the page oldest of all it saw so, still under the version noted; otherwise it closes nothing |
| ExtstoreEviction.LowIsOldest | extstore.c:935-965 | After the scan low_page is the oldest of the pages evictable when looked at, and is there exactly when there was one |
| ExtstoreEviction.ScansInOrder | extstore.c:935-965 | Whatever happens in between, a pass looks at the pages in order, none twice |
| ExtstoreEviction.ScansAll | extstore.c:935-966 | Every page has been looked at when the pass evicts |
| ExtstoreEviction.OldestAtEviction | extstore.c:913-994 | The page noted is the oldest evictable one at the moment of eviction exactly unless, behind the scan, a flush completed a page that was then evictable and older than every page the pass found evictable, and no close or emptying delete of it came before the eviction |
| ExtstoreEviction.EvictableStep | extstore.c:649-707 | An evictable page stays evictable under its version through any step but an eviction, exactly unless the step closes it or deletes all it counts |
| ExtstoreExamples.OldestMissed | extstore.c:913-994 | A run from the initial engine in which it is not: page 1 lands behind the scan, page 2 is evicted |
| ExtstoreEviction.FreedExactly | extstore.c:957-984 | A step frees a page exactly when the scan finds it filled, unread and closed or without objects, or the eviction finds it open and unread |
| ExtstoreProof.WbufReadIsSafe | extstore.c:715-732 | A read served from a write buffer lies wholly inside it, so the assert of the copy holds |
| ExtstoreProof.ReadSource | extstore.c:782-843 | Buffer and file together hold the log of the page version, so either source gives the written bytes |
| ExtstoreProof.ReadCheckKeeps | extstore.c:782-820 | The version check and the buffer read keep the invariant |
| ExtstoreProof.PreadKeeps | extstore.c:782-843 | A file read returns the written bytes and keeps the invariant |
| ExtstoreProof.ReleaseKeeps | extstore.c:839-843 | Giving back the page reference keeps the counts exact |
| ExtstoreProof.PwriteKeeps | extstore.c:782-843 | Writing a buffer to the file changes no byte already readable |
| ExtstoreProof.TakeBatchKeeps | extstore.c:742-770 | A batch is the front of the queue, in order, and depth stays its length |
| ExtstoreProof.SubmitReadsKeeps | extstore.c:611-644 | Submitting a chain of reads keeps depth and order |
| ExtstoreProof.DeleteKeeps | extstore.c:649-682 | A delete keeps the accounting up to the excess it adds |
| ExtstoreProof.CloseKeeps | extstore.c:697-707 | Closing a page version keeps the invariant |
| ExtstoreWriteProof.WbufDoneKeeps | extstore.c:467-493 | The flush callback leaves allocated == written on the page and returns buffer and IO |
| ExtstoreWriteProof.AllocateWbufKeeps | extstore.c:439-459 | A fresh buffer starts at the written mark and covers the next extent |
| ExtstoreWriteProof.AppendKeeps | extstore.c:560-604 | An append lands after everything written and inside the buffer; which bytes it stores is WrittenIsRead |
| ExtstoreWriteProof.SubmitWbufKeeps | extstore.c:498-519 | Shipping a buffer pads it, takes an IO and keeps one flush per buffer |
| ExtstoreWriteProof.IoAvailable | extstore.c:498-519 | The IO stack is never empty when a buffer is submitted |
| ExtstorePageProof.AllocatePageKeeps | extstore.c:402-436 | A new page gets a fresh version, the highest in its bucket, and leaves its free list |
| ExtstorePageProof.PageAvailable | extstore.c:402-436 | A free list with a page makes page_free positive, and the page at its head is free and belongs to that list |
| ExtstorePageProof.FreeExactly | extstore.c:402-436 | page_free is positive exactly when some free list has a page |
| ExtstorePageProof.FreePageKeeps | extstore.c:852-898 | A settled page goes back to its free list and out of its bucket, the others keep their order |
| ExtstoreEngine.StoreEngine.constructor | extstore.c:221-394 | Builds a state that satisfies the invariant |
| ExtstoreEngine.StoreEngine.FillPicked | extstore.c:530-604 | Flush, buffer and append in one critical section; ok exactly when the state before it has room for the picked object, and then that object, at its position, is what is logged |
| ExtstoreEngine.StoreEngine.CheckRead | extstore.c:782-820 | The file is to be read exactly when the page was pinned; otherwise the read has completed, from the buffer or with a miss |
| ExtstoreEngine.StoreEngine.Delete | extstore.c:649-682 | True exactly for a live version; page counters floored, global ones not |
| ExtstoreEngine.StoreEngine.ScanAll | extstore.c:935-965 | The scan over all pages is the sequence of its scan steps and finds the eviction candidate |
| ExtstoreEngine.StoreEngine.MaintPass | extstore.c:913-994 | The loops of an undisturbed round are a pass of the model, in which the page noted is the oldest evictable one also when it is evicted |
| ExtstoreLists.IoQueue.Submit | extstore.c:611-644 | On the pointers: the chain goes behind the queue in order, depth is the length, both asserts about the tails hold, a stale tail of an emptied queue included |
| ExtstoreLists.IoQueue.TakeBatch | extstore.c:742-770 | On the pointers: the batch is the front of the queue, cut off, at most io_depth long |
| ExtstoreLists.PageLists.constructor | extstore.c:330-341 | The next pointers spell the free lists, page 0 on none |
| ExtstoreLists.PageLists.Allocate | extstore.c:402-436 | On the pointers: the head of the special free list, failing that of the default one, becomes the head of the bucket; all other lists stand; the assert on page_free holds |
| ExtstoreLists.PageLists.Free | extstore.c:852-898 | On the pointers: the walk finds the page wherever it is in its bucket, cuts it out and puts it on its free list; all other lists stand |
| CacheRuns.RunIsGood | items.c:421-599 | In every state of every run: table and lists hold the same items, counters equal list contents, each refcount is link plus holders plus parked bumps, no assert failed and no freed item was touched |
| CacheRuns.StepKeeps | items.c:978-1374 | Every step keeps the invariant and history, changes no value another holder sees, and mislabels an item exactly in the named case |
| CacheRuns.RunEvolves | items.c:112-117 | CAS ids and the values they name are only ever added to |
| CacheTheorems.TableAndListsAgree | items.c:421-550 | An item is in the table exactly when it is on a list, then on one list, once; curr_items is the size of the table and the sum of the list sizes |
| CacheTheorems.NothingDangles | items.c:521-560 | Nothing refers to a freed item: no key, list, holder or bump buffer |
| CacheTheorems.CasIdsUnique | items.c:499-519 | With CAS on, no two linked items share a CAS id |
| CacheTheorems.TokenNames | items.c:499-519 | The CAS id of a key's item is nonzero and names exactly that key and value |
| CacheTheorems.CasStoreExact | memcached.c:1744-1903 | A cas store succeeds exactly when the key is live and carries the client's CAS id, or a later one where the client lets an older id pass; it is not found exactly when the key is not live |
| CacheTheorems.NoLostUpdate | memcached.c:1744-1903 | A cas store that is accepted replaces the very value its client read from the table, any number of steps earlier |
| CacheTheorems.HeldNoLostUpdate | memcached.c:1744-1903 | The same for a client that reads value and CAS id off an item it holds, in the table or not, when no earlier step mislabels |
| CacheTheorems.LostUpdateHappens | memcached.c:2489-2504 | The mislabelling run goes on to a lost update: the old holder stores with the shared CAS id over a value it never saw |
| CacheTheorems.HeldValuesStay | memcached.c:2477-2504 | The value of an item never changes while somebody holds a reference to it |
| CacheTheorems.LabelsHold | memcached.c:2440-2516 | In a run without the mislabelling step every item ever linked carries a CAS id naming its own value |
| CacheTheorems.MislabellingHappens | memcached.c:2489-2504 | Allocate, set, increment while the setter holds its item: a run that mislabels |
| CacheDelta.AddDeltaView | memcached.c:2414-2516 | incr/decr answers, value and CAS id per case; other holders' values unchanged; labels kept exactly unless ShowsNewCas |
| CacheDelta.DeltaAnswers | memcached.c:2440-2516 | A successful incr or decr answers the numeral of n: for incr the sum less a multiple of 2^64 and below it, for decr the difference, or 0 when it would be negative; the key then holds that numeral and nothing but blanks behind it, under the CAS id answered |
| CacheHits.DeltaKeepsDue | memcached.c:2477-2504 | An incr or decr leaves the expiry time of the key alone, in place or by copy |
| CacheDelta.CopyLabel | memcached.c:2489-2504 | After the copying edit the old item is mislabelled exactly when it outlives the command and the value changed |
| CacheDelta.CopyShares | memcached.c:2489-2504 | While it outlives the command the old item shares its CAS id with the item now under the key |
| CacheDelta.InPlaceView | memcached.c:2477-2488 | The edit in place changes one value under a fresh CAS id |
| CacheOpsProof.StoreView | memcached.c:1744-1903 | Every store command acts on the keys and values a client sees as on a map without dead keys, with the outcome its command owes |
| CacheHits.StoredExpires | memcached.c:1776-1880 | The item a store leaves under the key counts as accessed now and expires when the item stored does; append, prepend and a store over a later version keep the time of the item they replace |
| CacheOpsProof.GetKeeps | items.c:978-1058 | A lookup finds exactly the live items, takes one reference, and buries a dead one |
| CacheHits.FoundExactly | items.c:125-137 | A lookup finds a key exactly until its expiry second begins, unless a flush time that has come is no earlier than its last access, or its CAS id is below the flush's; stated on the fields |
| CacheOpsProof.SwapKeeps | items.c:592-599 | Replacing keeps the key mapped, to the new item with a fresh CAS id |
| CacheOpsProof.JoinView | memcached.c:1818-1866 | Append and prepend store a third item and give back every reference taken |
| CacheOpsProof.BumpKeeps | items.c:1063-1088 | The hit markers and the parked bump keep the invariant and every key |
| CacheHits.BumpDoes | items.c:1063-1088 | With segments the first hit sets FETCHED, the second ACTIVE and the time, or on COLD parks the item with one reference if the buffer takes it; a hit on an active item changes nothing |
| CacheHits.TwoHitsPromote | items.c:1063-1374 | A COLD item hit twice, its bump served: it heads WARM of its class, no longer active, accessed now, the parked reference given back |
| CacheOpsProof.DrainKeeps | items.c:1341-1374 | Draining serves entries in order and gives back exactly what they parked |
| CacheOpsProof.CrawlKeeps | crawler.c:462-484 | The crawler takes an item out exactly when it is stale and unreferenced |
| CacheHits.CrawledExactly | crawler.c:462-484 | On the fields: the crawler takes an item out exactly when only the link refers to it and its expiry second is over or a flush has outdated it |
| CacheProof.LinkKeeps | items.c:499-519 | Linking keeps the invariant |
| CacheProof.UnlinkKeeps | items.c:521-550 | Unlinking keeps the invariant and frees only an item nobody holds |
| CacheProof.ReleaseKeeps | items.c:552-560 | Dropping a reference frees the item exactly at the last one |
| CacheProof.UpdateKeeps | items.c:563-590 | The access bump keeps the invariant and changes only list positions and access marks |
| CacheHits.UpdateDoes | items.c:563-590 | An access moves an active COLD item to the head of WARM of its class and clears its mark; without segments it moves an item a minute old to the head of its list |
| CacheOrder.OnlySinks | items.c:421-590 | Over any stretch of any run, an item that no step brings forward stays behind all that was in front of it on its list and behind all that came to the list since |
| CacheOrder.StepAges | items.c:421-1374 | Every step puts what it links, relinks or moves at the head and leaves the rest of each list in order |
| CacheOrder.LinkHeads | items.c:421-446 | A linked item is put in front of its list, all else as it was |
| CachePullProof.PullTailKeeps | items.c:1103-1277 | Every call, with any flags: invariant kept, only stale items and at most one evicted item lost, at most five, and exactly which lock and reference it keeps; where items end up is PullPlaces |
| CachePullFate.PullPlaces | items.c:1103-1277 | The lists, places and marks after any pull, read off the state before it: which items expire, which active WARM items go back to the head, on which the walk ends and where that is put; every other item keeps list, order and mark; the count answered is that of items that left or moved, 0 when a marker blocks |
| CachePullFate.StoppedPlace | items.c:1172-1260 | The item stopped on heads COLD when it was idle on HOT or WARM and the list over hot_lru_pct or warm_lru_pct of total_bytes or the item over max_age; heads WARM when active on HOT, or on COLD with nothing evicted or asked for; else is where it was; no other item left changes its list |
| CachePullPlaces.VisitFares | items.c:1160-1277 | The effect of one visit on all lists, marks and places, on the bytes of the list and on the count |
| CachePullWalk.StopsExactly | items.c:1109-1260 | A pull stops on an item exactly when the cache and the arguments say so before the call, on every list: one within reach of the tail, or on WARM one put back that is met again |
| CachePullWalk.PullBalance | items.c:1262-1277 | Locks and references balance up to the pair handed over, exactly unless an item is asked for while evicting or off the COLD list and the pull will stop |
| CacheTheorems.LeakHappens | items.c:1262-1277 | A run of three steps whose pull keeps a lock and a reference and hands out nothing |
| CachePullProof.VisitHeldMeets | items.c:1160-1260 | One visit: when it goes on, what it takes out, what it hands over; where the item goes is VisitFares |
| CacheItems.ItemCache.constructor | items.c:421-445 | The empty cache satisfies the invariant |
| CacheItems.ItemCache.PullTheTail | items.c:1103-1277 | The loop with its relinks computes PullTail, keeps the invariant and leaves lists, places and marks as PullPlaces foretells from the state before |
| CacheItems.ItemCache.Examine | items.c:1172-1260 | The work under the list lock, to be finished by the relink after it; the two together send the item where VisitFares says |
| CacheItems.ItemCache.DrainBuffer | items.c:1341-1374 | The drain loop empties the buffer it started on and touches no key |
| CacheItems.ItemCache.StoreItem | memcached.c:1744-1903 | The store command step by step meets its map specification |
| LruList.LinkedList.LinkHead | items.c:421-446 | The pointers spell the list with the item in front |
| LruList.LinkedList.LinkTail | items.c:1753-1772 | The pointers spell the list with the crawler at the end |
| LruList.LinkedList.Unlink | items.c:461-491 | The pointers spell the list without the node, from head, tail or middle, popped crawler included |
| LruList.LinkedList.Crawl | items.c:1797-1849 | The pointer shuffle swaps the crawler with the item before it, or pops it off the head; every assert of the code holds |
| LruCrawler.StayersOnce | crawler.c:424-452 | A full crawl hands on every item that stays in place exactly once, the stayers from tail to head |
| LruCrawler.StopsAfter | crawler.c:582-618 | Asked for n items the crawler hands on at most n, fewer only at the head |
| LruCrawler.CrawlerMovesNothing | items.c:1797-1849 | The crawler never changes the order of the items |
| LruCrawler.Turn | crawler.c:444-452 | One turn on the linked list does what the crawl model says and leaves no marker at the end |
| LruCrawler.Act | crawler.c:424-452 | A link, an unlink or a turn on the pointers does what the crawl model says |
| LruCrawler.CrawlList | crawler.c:424-452 | A whole interleaved crawl on the pointers: they always spell the model, and the items handed on are its |
| Assoc.RunRefines | assoc.c:70-240 | In every state of every run, expanding or not, the table is the map its inserts and deletes describe |
| Assoc.FindIff | assoc.c:70-94 | A key is bound exactly to the item that stands somewhere in the table under it |
| Assoc.InsertRefines | assoc.c:149-166 | Insert is map insertion in every expansion state |
| Assoc.DeleteRefines | assoc.c:168-185 | Delete is map deletion in every expansion state |
| Assoc.ExpandRefines | assoc.c:118-137 | Starting an expansion, or failing to, changes no binding |
| Assoc.MigrateRefines | assoc.c:200-240 | Moving a bucket changes no binding |
| Assoc.MigrateMoves | assoc.c:200-240 | A key changes arrays only in the step that moves its own old bucket |
| Assoc.ExpansionEnds | assoc.c:118-240 | An expansion doubles the table and is over exactly when each bucket it began with has been moved, whatever is inserted and deleted meanwhile |
| Assoc.HashTable.constructor | assoc.c:55-68 | The empty table |
| Assoc.HashTable.FindItem | assoc.c:70-94 | The chain walk finds what the map binds |
| Assoc.HashTable.InsertItem | assoc.c:149-166 | Map insertion at every key |
| Assoc.HashTable.DeleteItem | assoc.c:168-185 | Map deletion at every key; the closing assert holds |
| Assoc.HashTable.Expand | assoc.c:118-137 | No binding changes |
| Assoc.HashTable.Migrate | assoc.c:200-240 | The entry-by-entry move changes no binding |
| AssocIterator.StayersHandedOutOnce | assoc.c:292-360 | A complete walk hands out every entry that stays in the table exactly once, although the caller may unlink each one it gets |
| AssocIterator.WalkIsComplete | assoc.c:309-351 | No key is handed out twice; calls are entries handed out plus buckets left |
| AssocIterator.WalkerExcludesExpansion | assoc.c:299-307 | While an iterator exists no expansion is in progress |
| AssocIterator.TableIterator.Next | assoc.c:309-351 | One call steps, leaves or locks a bucket as the walk says |
| Transmit.Connection.Transmit | memcached.c:2866-2925 | Whatever the socket takes, what has been sent plus what is pending is what was queued, in order and once, and exactly the smaller of what it takes and what was offered goes out; a socket that takes bytes sends some or finishes a response; an error changes nothing; an item is released only after its response's last byte |
| Transmit.Connection.Account | memcached.c:2807-2855 | Bytes sent leave the stream, finished responses the chain; the chain is empty exactly when all was sent, and otherwise the next write offers bytes |
| Transmit.Clogged | memcached.c:2738-2800 | 256 responses of four empty vectors keep any stream behind them out of the write |
| Transmit.Connection.Queue | memcached.c:1339-1377 | Queueing appends to the stream |
| Transmit.Gather | memcached.c:2738-2800 | The vectors gathered are at most IOV_MAX - 1 and a prefix of the pending stream, all of it when there is room, and not empty exactly when Offers holds of the chain |
| Transmit.GatherChunks | memcached.c:2755-2786 | The vectors of a half-sent chunked item are a prefix of its unsent bytes |
| Transmit.GatherResp | memcached.c:2750-2792 | The vectors of one response |
| Transmit.Post | memcached.c:2807-2855 | Exactly res bytes leave the front of the stream; the new head has bytes left |
| Transmit.AdvanceResp | memcached.c:2819-2846 | A partial write takes its bytes off the front of one response, chunked or not |
| Transmit.AddIovAppends | memcached.c:1212-1219 | Adding a vector appends its bytes |
| Transmit.AddChunkedIovAppends | memcached.c:1224-1228 | Adding a chunked item appends its first len bytes |
| Transmit.WriteDelivers | memcached.c:2807-2855 | Finishing responses of the chain finishes those of the history, all bytes sent |
| RespBundles.Bundles.Allocate | memcached.c:1235-1291 | Hands out a slot that was free and no other; fails exactly without open bundle and memory; bundles with a free slot, and only those, stay listed |
| RespBundles.Bundles.Free | memcached.c:1293-1337 | Takes back one slot and no other, keeps the list exact, and every assert of the code holds |
| RespBundles.Bundles.constructor | memcached.c:1235-1245 | No bundle at first |
| RespBundles.KeepsFewIdle | memcached.c:1293-1337 | At most one idle bundle; a bundle is off the list exactly when all its slots are live |
| RespBundles.ListTests | memcached.c:1302-1330 | The pointer tests decide membership in the open list |
| RespBundles.FindFree | memcached.c:1241-1250 | The wrapped scan finds a free slot exactly when there is one |
| BipBuffer.Bip.constructor | bipbuffer.c:42-56 | An empty queue |
| BipBuffer.Bip.Offer | bipbuffer.c:109-128 | The bytes are queued behind region A then B exactly when they fit the free cells behind the region in use, else refused whole; peeked bytes stay |
| BipBuffer.Bip.Push | bipbuffer.c:91-107 | The bytes at the front are queued; room shrinks by no more than their number, and B is in use exactly when fewer cells lie behind A than below it |
| BipBuffer.Bip.Poll | bipbuffer.c:151-180 | Drops the oldest bytes; still a queue exactly when they were within region A, and then the room never shrinks and B is in use exactly when fewer cells lie behind A than below it |
| BipBuffer.Bip.PeekAll | bipbuffer.c:142-149 | The oldest bytes in place, none exactly when the queue is empty |
| BipBuffer.Bip.Request | bipbuffer.c:77-89 | A place exactly when the size fits the free cells in a row behind the region in use |
| BipBuffer.Bip.EmptyTakesAll | bipbuffer.c:63-128 | An empty buffer, fresh or emptied, takes any size up to its own |
| BipBuffer.Bip.Used | bipbuffer.c:37-40 | The length of the queue |
| BipBuffer.Bip.IsEmpty | bipbuffer.c:63-66 | An empty region A means an empty queue |
| BipBuffer.PollsTooMuch | bipbuffer.c:151-160 | Two bytes queued and five polled: the poll is accepted and the buffer no longer a queue |
| BipBuffer.LogLine | logger.c:550-577 | After room for n + 128 a skip message under 128 and the line of n both go in |
| BipBuffer.EntryQueue.Enqueue | items.c:1312-1333 | A whole entry is queued or none |
| BipBuffer.EntryQueue.Read | logger.c:600-629 | The reader sees whole entries and stops exactly at the end of what it peeked |
| BipBuffer.EntryQueue.Drop | items.c:1357-1369 | Polling the peeked size takes exactly those entries out |
| ChunkCopy.JoinChunked | memcached.c:1712-1736 | On success the chunks hold exactly the joined value, none overfull; the only failure is a chunk allocation |
| ChunkCopy.CopyChain | memcached.c:1653-1686 | Copying from a chain appends exactly len bytes and terminates |
| ChunkCopy.CopyWhole | memcached.c:1687-1708 | Copying from one piece appends exactly len bytes and terminates |
| ChunkCopy.GrowIfFull | items.c:221-260 | A full last chunk gets a successor that is not full while bytes remain |
| ChunkCopy.FindRoom | memcached.c:1643-1651 | The chunk with room is the last one, so growing drops none |
| ChunkCopy.JoinWhole | memcached.c:1718-1734 | Two overlapping copies into the item of the size allocated, in bounds, leave exactly the joined value, for append and prepend |
| ChunkCopy.FormsAgree | memcached.c:1712-1736 | Where both forms apply they store the same bytes |
| Crc32cHw.CrcHw | crc32c.c:160-245 | The three-way interleaved CRC equals the bit-at-a-time CRC-32C, itself the remainder of CrcIsRemainder, for every buffer, length and alignment |
| Crc32cHw.Interleaved | crc32c.c:183-218 | One interleaved block recombines to the sequential value |
| Crc32cHw.MatrixTimes | crc32c.c:61-70 | The loop is multiplication over GF(2) |
| Crc32cHw.MatrixSquare | crc32c.c:74-77 | Squaring the operator of n zero bits gives that of 2n |
| Crc32cHw.ZerosOp | crc32c.c:84-116 | The operator for len zero bytes, len a power of two |
| Crc32cHw.Zeros | crc32c.c:120-130 | The four tables hold the operator byte by byte |
| Crc32cHw.ShiftIsZeros | crc32c.c:133-136 | The table shift applies the operator |
| Crc32cHw.TimesIsZeros | crc32c.c:61-70 | A matrix right on unit vectors is right on all |
| Crc32cHw.SquareIsZeros | crc32c.c:74-77 | Composition of zero operators |
| Crc32cSw.CrcLittle | crc32c.c:392-423 | Slicing by eight equals the bit-at-a-time CRC-32C for every buffer, length and alignment |
| Crc32cSw.CrcBig | crc32c.c:466-497 | So does the big-endian form |
| Crc32cSw.BuildLittle | crc32c.c:368-388 | The eight slice tables |
| Crc32cSw.BuildBig | crc32c.c:441-462 | The eight byte-swapped tables |
| Crc32cSw.SlicedIsRaw | crc32c.c:402-416 | One table step is eight byte steps |
| Crc32cSw.SlicedBigIsRaw | crc32c.c:476-490 | The same on swapped words |
| Crc32c.CrcConcat | crc32c.c:160-245 | Feeding chunks with the previous crc equals one pass over their concatenation |
| Crc32cPoly.CrcIsRemainder | crc32c.c:368-423 | The digest is the inverted remainder, by long division on coefficients, of the message begun with inverted bits, modulo x^32 + x^28 + x^27 + x^26 + x^25 + x^23 + x^22 + x^20 + x^19 + x^18 + x^14 + x^13 + x^11 + x^10 + x^9 + x^8 + x^6 + 1 |
| Crc32cPoly.RawIsRemainder | crc32c.c:368-423 | The register after any message is that remainder, for every start value |
| Crc32cPoly.CheckValue | crc32c.c:48-49 | "123456789" has digest 0xe3069283 |
| Crc32c.ThreeWay | crc32c.c:183-218 | Three streams started at 0 combine by linearity |
| Jenkins.JenkinsHash | jenkins_hash.c:126-297 | The address decides the reader, not the value |
| Jenkins.Hash32 | jenkins_hash.c:137-204 | The 32-bit reader, masked reads past the end included, gives the reference hash |
| Jenkins.Hash16 | jenkins_hash.c:205-251 | So does the 16-bit reader |
| Jenkins.Hash8 | jenkins_hash.c:252-294 | So does the byte reader |
| Jenkins.MixBijective | jenkins_hash.c:79-87 | mix is a bijection on its three words |
| Jenkins.FinalBijective | jenkins_hash.c:114-123 | final is a bijection too |
| JenkinsKnown.KnownHash | jenkins_hash.c:79-294 | The published value: "Four score and seven years ago" hashes to 0x17770551 |
| Base64.RoundTrip | base64.c:93-205 | Decoding an encoding gives back every non-empty input |
| Base64Text.LetterIs | base64.c:53-54 | Six bits v are written as character v of "A..Za..z0..9+/" |
| Base64Text.EncodeSpells | base64.c:116-122 | Every three bytes, as a number of 24 bits, are written with the four characters of its digits in radix 64 |
| Base64Text.EncodeEnds | base64.c:124-135 | One or two bytes left over are filled up with zero bits and written with two or three characters and padding |
| Base64Text.ValueIs | base64.c:59-80 | The decode table inverts the alphabet, takes the padding character as zero and refuses every other byte |
| Base64Text.DecodeSkips | base64.c:156-190 | Decoding passes over bytes outside the alphabet |
| Base64.EncodeInto | base64.c:93-139 | The encoding and a NUL, inside the size checked; 0 and nothing written when that size wraps round or is not there |
| Base64.DecodeInto | base64.c:150-205 | The decoding, also over its own input; nothing beyond the size checked |
| Base64.EncodeFits | base64.c:100-110 | The size checked covers what is written |
| Base64.RoomGuard | base64.c:100-105 | The overflow test refuses every length whose computation wraps modulo 2^64, and no other |
| Itoa.ItoaU32 | itoa_ljust.c:109-117 | The exact decimal numeral of every 32-bit value |
| Itoa.ItoaU64 | itoa_ljust.c:128-140 | Of every 64-bit value, interior zeros kept |
| Itoa.Itoa32 | itoa_ljust.c:119-126 | With a sign, the minimum included |
| Itoa.Itoa64 | itoa_ljust.c:142-149 | With a sign, the minimum included |
| Itoa.Switch | itoa_ljust.c:92-107 | The fall-through switch prints the digits below what has been printed |
| Itoa.Digits | itoa_ljust.c:83-90 | An odd count of digits prints its first one alone |
| Decimal.NumeralExact | itoa_ljust.c:109-140 | The reference numeral stands for its number and has no leading zero |

## Left out

- Sockets, libevent, the connection state machine, UDP, TLS, SASL, option parsing, the proxy: I/O and configuration.
- Text and binary command handlers, statistics text, log line formatting: dispatch and formatting.
- Slab allocation, number parsing and item locks are parameters: what memory gives, what the parser makes of a value, which locks are busy.
- tail_repair_time, warm restart and set_cas_id: they break the reference or CAS invariants on purpose.
- Page files of the engine are one byte array per page; the choice of IO thread is any thread; page versions do not wrap round at 2^64.
- In the runs the engine's lists and the cache's LRU lists and hash table are sequences and maps; pointers are modelled beside them, for the IO queues and page lists, the LRU lists and the response bundles. The stacks of buffers and IOs stay sequences.
- Page fields, write buffers and IO callbacks of the engine, and link, unlink, update and release of items, are functions on values: update in place is not captured for them.
- Item cache calls are single steps: the moment in which a pulled item is on no list, its lock held, is not a state; an allocation's own tail pulls are separate steps before the command.
- One item build: no flash headers inside items, no chunked items inside the cache; reference counts and CAS ids do not wrap round.
- CacheItems.ItemCache.DrainBuffer: producers pushing during the drain are steps between its iterations, not inside it.
- BipBuffer.Bip.Poll: sizes are natural numbers, below the 32-bit width of the cursors.
- Itoa.Switch: the product the code computes as an int, beyond INT_MAX from 2,200,000,000 on, is assumed to wrap modulo 2^32.
- Crc32cHw.CrcHw: the crc32 instructions are byte-step functions; the aarch64 form and feature detection are not modelled.
- Jenkins.JenkinsHash: the big-endian hash is not modelled.
- Item flag bits other than linked, fetched and active (client flags, stale and token-sent marks), bipbuf_peek, the signalling that starts an expansion and its maximum power: not modelled.
- Liveness across real mutexes, crawler client disconnects, slab reassignment, murmur3, md5, authfile: not part of this model.
