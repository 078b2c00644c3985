# A verified model of a disaggregated B-link tree and of its NUMA locks

Sherman keeps a B+tree in disaggregated memory: compute nodes read pages with
one-sided operations and no lock, writers lock one page at a time, a split is
published in separate steps, and a cache of level-1 pages lets most operations
start at a leaf. Each page lock is a local lock on the compute node under a lock
word in remote memory, with a bounded hand-over between threads of a node. LiTL
brings the queue and NUMA locks that can serve as the local lock. This project
models both and proves what they are for.

| file | what it models |
|---|---|
| `Pages.dfy` | leaf and internal pages as values: lookup, store, removal, routing, both splits |
| `Blink.dfy` | remote memory as a map of pages; the B-link invariant, and what each page write does to it and to the key-value map |
| `PageBuffers.dfy` | the page code on its fixed-size record arrays, in place |
| `PastPages.dfy` | level-1 pages as they were at some time: how they nest, and where they still lead |
| `IndexCache.dfy` | the cache of level-1 pages |
| `BlinkTree.dfy` | the tree as a class: insert, search and del with recursive splits, right moves, stale cache starts and root growth |
| `BlinkConcurrent.dfy` | the tree as a state machine, one page access a step, any number of threads |
| `BlinkProgress.dfy` | operations on the concurrent tree come to an end |
| `RootRace.dfy` | when an insertion of the concurrent tree runs into the assertion that there is a level above |
| `RangeQuery.dfy` | range queries over cached pages, with the 32-slot window of reads |
| `HandoverLock.dfy` | the cluster-wide page lock: tickets or a mutex per node; compare-and-swap, or fetch-and-add with wake-up of peers |
| `HandoverLimit.dfy` | for which configurations the bound on hand-overs is kept |
| `HandoverProgress.dfy` | the page lock is never stuck |
| `Allocator.dfy` | chunks, logs and clients of the remote memory allocator |
| `Cna.dfy`, `Hmcs.dfy`, `Cohort.dfy`, `HtLock.dfy` | NUMA locks: CNA; HMCS and HYS-HMCS; C-BO-MCS, C-TKT-TKT and C-PTL-TKT; the hierarchical ticket lock |
| `CnaProgress.dfy`, `HmcsProgress.dfy`, `CohortProgress.dfy` | these locks are never stuck, and their trylocks get a free lock |
| `Clh.dfy`, `ArrayLock.dfy`, `Mutexee.dfy` | CLH, the array lock, MUTEXEE |
| `Shuffle.dfy` | the in-place reordering of FNS's doubly linked waiting queue |
| `Options.dfy`, `Sums.dfy` | the option type of the others; sums over threads of what is left to do |

**How the concurrent parts are modelled.** A state machine per protocol: every
atomic instruction, shared load or store, page access or landing remote write is
one step of one thread, a thread's program counter says where in the code it is
and carries its locals, and a run is any interleaving, for any number of threads,
nodes and pages, under sequential consistency. Fields called auxiliary in the
files are read by no step's guard; they record history that the claims speak of.
Sequential code that changes an object is a class or a method over arrays and
heap nodes, proved against functions on values.

**Progress.** Safety alone would allow a lock that nobody can take twice. So each
lock is also proved never stuck: from every state of every run there is a
continuation, built step by step along a falling measure, in which every thread
that is on its way in gets in and all threads end idle. For the tree it is proved
that every step a thread takes brings its operation closer to its end and no step of
another thread takes it further away, and that every run can go on until all
operations have ended.

**Conventions.** Addresses are naturals and `NULL` is 0; keys are naturals below
`KEY_MAX`, and `KEY_MAX` itself is only a fence. `LEAF_CARD` and `INTERNAL_CARD`
are symbolic, at least 4 and below 2^15, as the 16-bit `last_index` demands. As in the program, a caller stores no `VALUE_NULL` and
a tree has at most `MAX_LEVEL` levels when an operation starts.

**Where the code and its apparent intent part.** Four results are negative. Each
is an if-and-only-if over all configurations or all runs, with a failing run built
for the other side:

- The hand-over counter has eight bits and its bound sixteen: one acquisition of
  the lock word serves no more sections than the bound (at least one) if and only
  if the bound is at most 255 or no node has two threads
  (`HandoverLimit.ExactBound`). A bound of 0 still allows the section that took
  the lock word.
- The hierarchical ticket lock excludes if and only if no node has more than
  window + 1 threads (`HtLock.ExactCondition`).
- Allocated pieces are disjoint if and only if no request exceeds one chunk
  (`Allocator.ExactLimit`).
- An insertion that has split a page runs into the assertion that there is a level
  above if and only if the page is on the level of the root the insertion started
  from, it did not start at the cache, and either the page is not that root or its
  root swap finds another root (`RootRace.FailsExactly`). No lost swap is needed:
  in the run of `RootRace.FailureHappens` the root is a leaf whose sibling another
  thread fills and splits before the root has been swapped. `NeverStuck` shows that
  this is the only place where a thread of the concurrent tree can stop other than
  at a lock.

## Model

| member | source | states |
|---|---|---|
| BlinkTree.Tree.Insert | Sherman/src/Tree.cpp:1257-1307 | from any well formed tree and any cache contents, insert is update of the abstract map and restores well-formedness, through splits at any number of levels and at most one new root; unless a leaf was split, the cache leads to the key's leaf afterwards |
| BlinkTree.Tree.Search | Sherman/src/Tree.cpp:1309-1363 | search finds a key exactly when the abstract map has it, returns its value, and changes nothing but the cache; if that is on and had a free page, it names the very leaf that covers the key from then on |
| BlinkTree.Tree.Del | Sherman/src/Tree.cpp:1446-1495 | del removes the key from the abstract map, present or not, and never changes the shape of the tree; the cache leads to the key's leaf afterwards |
| BlinkTree.Tree.PageSearch | Sherman/src/Tree.cpp:1497-1574 | reading a page answers with the map's value at a covering leaf, the child it routes to at a covering inner page, the right neighbour past the upper fence, and a refusal at a stale cached start; a level-1 page that is read is cached, unless one of its range is |
| BlinkTree.Tree.SearchThenScan | Sherman/src/Tree.cpp:1309-1444 | on a cache without pages a lookup makes a range query for the key, which relies on the cache alone, return exactly the key's value, or nothing if the map has none |
| BlinkTree.Tree.LeafPageStore | Sherman/src/Tree.cpp:1762-2001 | storing at any leaf at or left of the key's leaf does the map update there; it refuses, changing nothing, exactly for a cached start whose leaf does not cover the key; termination by the right-links that remain |
| BlinkTree.Tree.SplitLeaf | Sherman/src/Tree.cpp:1919-1978 | a full leaf splits into two halves, sibling written first; the map update is done, and exactly the parent entry of the new sibling is still owed |
| BlinkTree.Tree.InternalPageStore | Sherman/src/Tree.cpp:1610-1760 | adding the owed separator, at the page or right of it, splitting upwards as needed, completes the tree without changing the map |
| BlinkTree.Tree.SplitInternal | Sherman/src/Tree.cpp:1699-1739 | an inner split leaves exactly the entry of the new sibling owed to the level above |
| BlinkTree.Tree.UpdateNewRoot | Sherman/src/Tree.cpp:163-187 | swapping in a root over the two halves of the old one adds one level and owes nothing |
| BlinkTree.Tree.InsertInternal | Sherman/src/Tree.cpp:1227-1255 | the page for an owed separator is found from the root even when the operation began at the cache |
| BlinkTree.Tree.FindLeaf | Sherman/src/Tree.cpp:1282-1304 | the descent ends at a leaf that starts no later than the key, with a path stack that is usable at every level above |
| BlinkTree.Tree.LeafPageDel | Sherman/src/Tree.cpp:2003-2067 | removal at or right of the given leaf, or a refusal that changes nothing at a stale cached start |
| Blink.TurnRight | Sherman/src/Tree.cpp:1555-1558 | a page that ends at or before a key it starts before has a right neighbour on its level, which starts no later than the key |
| Blink.DescendsTo | Sherman/src/Tree.cpp:1576-1596 | the child routed to is on the level below and starts no later than the key |
| Blink.RoutesHome | Sherman/src/Tree.cpp:1576-1596 | in a tree that owes no parent entry the child routed to covers the key itself, so no right move follows |
| Blink.SamePage | Sherman/src/Tree.cpp:1648-1659 | fences tile a level: at most one page of it covers a key |
| Blink.StrictlyInside | Sherman/src/Tree.cpp:1669-1697 | a separator whose child has no parent entry yet always falls strictly above the lower fence of the page that takes it |
| Blink.LeafPutStep | Sherman/src/Tree.cpp:1867-1917 | writing back one record of a covering leaf is the map update, and no other key's answer changes |
| Blink.LeafSplitStep | Sherman/src/Tree.cpp:1919-1978 | the single write of the shrunken leaf publishes the sibling and the new record together: it keeps the B-link invariant and is the map update |
| Blink.InnerPutStep | Sherman/src/Tree.cpp:1669-1697 | adding a separator keeps the B-link invariant and every answer |
| Blink.InnerSplitOk | Sherman/src/Tree.cpp:1703-1733 | an inner split shares out all separators and children, in order, the middle one becoming fence and leftmost child, with one half of them on either side |
| Blink.GrowStep | Sherman/src/Tree.cpp:163-187 | a root over the leftmost top page and one to its right keeps the B-link invariant |
| Blink.CompleteAfterPut | Sherman/src/Tree.cpp:1669-1697 | once the separator is in, the parent entry is no longer owed and no other becomes so |
| Pages.LeafSplitOk | Sherman/src/Tree.cpp:1919-1958 | both halves of a full leaf are well formed and not full, each holds half of the records, and the separator lies strictly inside the old fences |
| Pages.SortedStrictly | Sherman/src/Tree.cpp:1919-1921 | the sort before a split strictly orders the distinct live keys |
| Pages.LeafPutOk | Sherman/src/Tree.cpp:1867-1910 | a store keeps keys unique and inside the fences, and leaves an empty slot or calls for a split |
| PageBuffers.LeafBuffer.Store | Sherman/src/Tree.cpp:1867-1910 | the record loop overwrites the key's record or fills the first empty slot, touches one slot only, and reports a full page exactly |
| PageBuffers.LeafBuffer.Remove | Sherman/src/Tree.cpp:2047-2057 | the loop clears exactly the key's live record, if there is one |
| PageBuffers.LeafBuffer.Split | Sherman/src/Tree.cpp:1935-1956 | the loop over the two arrays computes both halves of the split with fences and links |
| PageBuffers.InternalBuffer.Insert | Sherman/src/Tree.cpp:1669-1697 | the scan from the last entry and the shifting loop give the sorted insertion, or the update of an existing separator |
| PageBuffers.InternalBuffer.Split | Sherman/src/Tree.cpp:1703-1733 | the loop over the two arrays computes both halves of an inner split |
| PageBuffers.InternalBuffer.Search | Sherman/src/Tree.cpp:1576-1596 | the routing loop finds the child whose range holds the key |
| PastPages.PastSurvives | Sherman/include/IndexCache.h:102-184 | under any later page write, every level-1 page that ever was still leads to leaves, and all their ranges nest |
| PastPages.PastLeads | Sherman/include/IndexCache.h:134-184 | such a page routes a key of its range to a leaf that starts no later than the key |
| IndexCache.CmpIsOrder | Sherman/include/CacheEntry.h:28-44 | the comparator is a strict total order on ranges |
| IndexCache.CacheSurvives | Sherman/include/IndexCache.h:102-184 | a cache of past pages stays sound under any later page write |
| IndexCache.SnapshotLeads | Sherman/include/IndexCache.h:134-184 | a hit always names a leaf that starts no later than the key, so it is stale exactly when the key is past that leaf's upper fence |
| IndexCache.HitIsNarrowest | Sherman/include/IndexCache.h:82-100 | of all cached ranges around the key, of pages past or current, a hit uses the narrowest |
| IndexCache.PresentIsFirst | Sherman/include/IndexCache.h:82-100 | an entry for the range of the present page around a key is the one a search for the key finds, whatever stale entries there are |
| IndexCache.RememberedWarm | Sherman/include/IndexCache.h:102-132 | caching the present page around a key that missed makes the cache name the leaf that covers the key |
| IndexCache.Cache.SearchFromCache | Sherman/include/IndexCache.h:134-184 | hit or miss is decided by the first entry at or after the key, and the routing loop's address is the page's child for the key |
| IndexCache.Cache.AddToCache | Sherman/include/IndexCache.h:102-132 | any version a level-1 page ever had is cached unless a page of its range is; all other entries stay, except one that is evicted when no free page was left; the cache stays sound |
| IndexCache.Cache.Invalidate | Sherman/include/IndexCache.h:209-225 | exactly the entry of the range loses its page |
| BlinkConcurrent.InvStep | Sherman/src/Tree.cpp:1497-2067 | under any interleaving every step of every thread keeps the B-link invariant, the agreement of leaves and map, every in-flight thread's position (its page is of the level it believes and starts no later than its key), the nesting of all pages ever cached, and that each parent entry not in place is owed by one thread |
| BlinkConcurrent.PagesIndexed | Sherman/src/Tree.cpp:1669-1758 | at every point of every run each page has its entry in the level above, is the first of the top level, or is owed its entry by some thread, and no two threads owe the same one |
| BlinkConcurrent.SettledComplete | Sherman/src/Tree.cpp:1669-1758 | whenever nothing is owed, every page below the root has its parent entry and the root stands alone on its level |
| BlinkConcurrent.Linearizable | Sherman/src/Tree.cpp:1257-2067 | at every point of every run the leaves hold exactly the map that the effects so far make, and every lookup so far answered from the map of its moment |
| BlinkConcurrent.OneEffect | Sherman/src/Tree.cpp:1257-2067 | between its invocation and its answer each operation takes effect in exactly one of its own steps, even while parent updates are outstanding, and a lookup answers what the map holds at that step |
| BlinkConcurrent.StepEffect | Sherman/src/Tree.cpp:1867-1978 | an insertion's or deletion's effect is its leaf write, and nothing after it has one |
| BlinkConcurrent.CachedLeads | Sherman/include/IndexCache.h:134-184 | the cache stays an accelerator under concurrency: any page ever cached leads to a leaf that starts no later than the key |
| BlinkConcurrent.RootSwapped | Sherman/src/Tree.cpp:163-187 | the root swap succeeds only for the page that is still the root, so levels grow by one |
| BlinkConcurrent.NeverStuck | Sherman/src/Tree.cpp:1744-1759 | no reachable thread can be stuck except on a held lock or in the assertion that there is a level above: every other assertion and every assumed empty slot holds |
| BlinkProgress.AlwaysCloser | Sherman/src/Tree.cpp:1227-2067 | in every run each step of its thread strictly lowers a well-founded rank of the operation under way (part of the operation, levels to climb, levels below, keys to the right, page accesses), and no step of another thread changes it: an operation takes finitely many steps |
| BlinkProgress.Finishes | Sherman/src/Tree.cpp:1309-1363 | a lookup comes to its end by its own steps alone whatever locks others hold, and so does any operation while no other thread holds one |
| BlinkProgress.AllFinish | Sherman/src/Tree.cpp:1227-2067 | every run can be continued until every operation has ended, or met the assertion that there is a level above: every lock that is taken has a holder that gives it back without waiting |
| RootRace.FailsExactly | Sherman/src/Tree.cpp:1983-1998 | in every run, an insertion on its way up reaches that assertion if and only if its split page is on the level of its starting root, it did not start at the cache, and the page is not that root or its swap meets another root |
| RootRace.FailureHappens | Sherman/src/Tree.cpp:1983-1998 | a run of two threads from the empty tree reaches it with the root never swapped |
| RangeQuery.Query | Sherman/src/Tree.cpp:1365-1444 | the query writes the values of the filtered records of the selected leaves, in order, and nothing behind them |
| RangeQuery.FetchLeaves | Sherman/src/Tree.cpp:1405-1441 | the 32-slot window with deferred draining gives the result of a plain loop over the leaves, for every number of leaves |
| RangeQuery.ChooseFrom | Sherman/src/Tree.cpp:1382-1403 | a cached page selects, in order, exactly the children whose ranges meet the interval |
| RangeQuery.SearchRange | Sherman/include/IndexCache.h:187-207 | the skip-list scan returns the cached pages from the interval's start on, stopping at the first that begins past its end |
| RangeQuery.ScanSelected | Sherman/src/Tree.cpp:1365-1444 | whatever the cache holds, a live record of the interval is returned as often as its leaf was selected, and nothing else is |
| RangeQuery.RangeExact | Sherman/src/Tree.cpp:1365-1444 | when current cached pages tile the interval, every record of the map in it is returned exactly once and nothing else |
| RangeQuery.PlacedPageIsCurrent | Sherman/src/Tree.cpp:1382-1403 | every level-1 page of a complete tree is current in this sense |
| RangeQuery.CacheIsFit | Sherman/src/Tree.cpp:1365-1404 | whatever a sound cache holds, a query finds it ordered and selects only leaves of the tree |
| RangeQuery.OwnCacheExact | Sherman/src/Tree.cpp:1365-1444 | when the cached pages of the interval are the present ones and reach over it, the query returns every record of the map in it once and nothing else |
| RangeQuery.BufferLists | Sherman/src/Tree.cpp:1405-1441 | what a query has then written to the caller's buffer are the map's values for distinct keys, which are exactly those of the map in the interval |
| BlinkTree.Tree.RangeQuery | Sherman/src/Tree.cpp:1365-1444 | any well formed tree can be queried through its own cache, and if the cached pages of the interval are present ones that reach over it, the buffer lists the map's values there, each key's once |
| HandoverLock.MutualExclusion | Sherman/src/Tree.cpp:375-826 | at most one thread of the cluster is inside, up to the page write that precedes a release or a hand-over, for both kinds of local lock and both kinds of lock word |
| HandoverLock.OneToken | Sherman/src/Tree.cpp:395-446 | the word is non-zero exactly when somebody is responsible for it, and then exactly one is: a holding node, a set spin flag, a wake-up or clearing write in flight, or a releaser about to wake a peer |
| HandoverLock.WordIsSum | Sherman/src/Tree.cpp:395-408 | under fetch-and-add the word is at all times the sum of 2 to the node number over the nodes that wait or own: no carry, no borrow, no node twice |
| HandoverLock.HandedOver | Sherman/src/Tree.cpp:2135-2209 | while hand_over is set and nobody of the node is inside, the node still owns the word and a thread waits there to receive it |
| HandoverLock.HandoverBound | Sherman/src/Tree.cpp:2170-2195 | with a bound up to 255, at every node one acquisition of the word serves at most that many (at least one) local sections, and hand_time counts them without wrapping |
| HandoverLimit.ExactBound | Sherman/include/Tree.h:34-45 | for every configuration, all runs keep the bound on sections per acquisition if and only if it is at most 255 or no node has two threads: past 255 the eight-bit hand_time never stops two alternating threads |
| HandoverLock.HandsOverExactly | Sherman/src/Tree.cpp:2170-2195 | a leaving thread hands over exactly when it saw another thread of its node wait and fewer sections than the bound were served; it sees one exactly when there is one |
| HandoverLock.WordNamesOwner | Sherman/src/DSM.cpp:206-214 | under compare-and-swap the upper half of the word is the number of the node whose thread is inside, across all hand-overs |
| HandoverProgress.NeverStuck | Sherman/src/Tree.cpp:375-826 | from every state of every run there is a continuation in which every thread at the lock gets in, all become idle and the word becomes free: no hand-over, wake-up or release is lost |
| HandoverLock.PeerList | Sherman/src/Tree.cpp:768-786 | the list from which a peer is drawn holds exactly the other nodes whose bit is set |
| HandoverLock.PeerWaits | Sherman/src/Tree.cpp:717-742 | whichever of them is drawn, that node is still spinning for this lock |
| HandoverLock.FetchSub | Sherman/src/Tree.cpp:684-716 | adding the 64-bit negation of the node's bit removes just that bit, and the old value equals it exactly when no other node waits |
| Allocator.GlobalAllocator.AllocChunk | Sherman/include/GlobalAllocator.h:31-50 | chunks are given out in order, each once; fails exactly when the directory is used up |
| Allocator.LocalAllocator.Malloc | Sherman/include/LocalAllocator.h:21-38 | returns the log's end, and moves it exactly when the piece fits the chunk |
| Allocator.Client.Alloc | Sherman/include/DSM.h:280-306 | a piece comes from the chunk at hand, else from a fresh chunk of the directory whose turn it is |
| Allocator.RoundRobin | Sherman/include/DSM.h:286-303 | in every run any nodes * directories refills in a row of one client come from pairwise different directories, hence from all of them |
| Allocator.AllUsedUp | Sherman/include/DSM.h:286-303 | a client that is alone finds its next directory used up only when every directory has given out all its chunks |
| Allocator.RefillsLate | Sherman/include/LocalAllocator.h:21-38 | a client asks for a chunk only when the pieces cut from its own leave too little room for the request |
| Allocator.PiecesApart | Sherman/include/DSM.h:280-306 | over all clients, directories and request sequences of at most a chunk each, pieces never overlap |
| Allocator.PiecesInside | Sherman/include/GlobalAllocator.h:18-27 | every piece lies in its directory's memory and never in its chunk 0, where the null address and root pointers are |
| Allocator.ExactLimit | Sherman/include/LocalAllocator.h:21-38 | pieces are always disjoint if and only if requests are limited to one chunk |
| Cna.MutualExclusion | litl2/src/cna.c:92-281 | one holder at a time, from acquisition to the last store of the unlock |
| Cna.LineIsWaiters | litl2/src/cna.c:92-281 | secondary queue ++ main queue holds each waiting thread exactly once, none lost or duplicated, however segments are moved |
| Cna.FifoPerSocket | litl2/src/cna.c:211-281 | the line is kept in order of tail exchange: steps append the arriving thread or take out the one granted, which is the first of its socket |
| Cna.GrantsOne | litl2/src/cna.c:243-281 | at every grant of every run, local or to the other queue, the granter alone had the lock, afterwards exactly one thread has it, and that is the waiter who was first of its socket in the line |
| CnaProgress.NeverStuck | litl2/src/cna.c:92-281 | from every state of every run, with scans and splices half done, there is a continuation in which every thread on its way in gets in and all become idle |
| CnaProgress.TrySucceeds | litl2/src/cna.c:150-181 | a trylock gets the lock exactly when no thread has it |
| CnaProgress.StaysLocal | litl2/src/cna.c:211-281 | a holder that gives up the lock while a linked thread of its own socket waits can grant the first such thread by its own steps, however many others stand before it |
| Hmcs.MutualExclusion | litl2/src/hmcs.c:88-294 | one thread at a time is inside across both levels, whether it came through a cohort or queued directly at the root |
| Hmcs.NodeReuse | litl2/src/hyshmcs.c:102-373 | a cohort's embedded node is in the root queue at most once and only for the cohort's present head; it is out of it before a successor is told to acquire the parent and before the local queue empties |
| Hmcs.CohortBound | litl2/src/hmcs.c:217-248 | one acquisition of the root serves at most RELEASE_THRESHOLD sections of a cohort, counted by the status word |
| Hmcs.PassesExactly | litl2/src/hmcs.c:217-248 | an unlock keeps the root in the cohort exactly while the next in line is linked and the threshold is not reached, and it goes to that one |
| HmcsProgress.NeverStuck | litl2/src/hmcs.c:88-294 | from every state of every run there is a continuation in which every thread on its way in gets in, through its cohort or at the root, and all become idle |
| HmcsProgress.TryAlone | litl2/src/hmcs.c:168-202 | a trylock that runs alone on a lock nobody is at gets it, through the cohort and directly at the root |
| Cohort.MutualExclusion | litl2/src/cbomcs.c:181-273 | in all three cohort locks, failed trylocks included, one thread is inside, and top_home names its cohort |
| Cohort.GrantIsClaimed | litl2/src/ctkttkt.c:69-176 | top_grant is set only while the cohort owns the top lock and a local waiter is there to consume it |
| Cohort.PassBound | litl2/src/cptltkt.c:165-189 | at most BATCH_COUNT silent passes follow one acquisition of the top lock |
| Cohort.PassesExactly | litl2/src/cptltkt.c:165-189 | an unlock leaves the top lock to its cohort exactly while another thread is in line there and the batch lasts; a batch that is used up starts anew |
| Cohort.SlotsRefineCounter | litl2/src/cptltkt.c:67-90 | in the partitioned top lock a waiting ticket matches its slot exactly when it is the one being served |
| Cohort.FailedTryHasNothing | litl2/src/cptltkt.c:104-149 | a trylock that fails leaves no grant behind and does not own the top lock |
| CohortProgress.NeverStuck | litl2/src/cbomcs.c:181-273 | in all three cohort locks, from every state of every run there is a continuation in which every thread on its way in gets in and all become idle |
| CohortProgress.TryAlone | litl2/src/cptltkt.c:104-149 | in all three a trylock that starts when nobody is at the lock gets its cohort's lock at once and, running alone, the lock |
| HtLock.MutualExclusion | litl2/src/htlockepfl.c:124-193 | with at most window + 1 threads per node the lock excludes |
| HtLock.ExactCondition | litl2/src/htlockepfl.c:86-193 | it excludes if and only if every node has at most window + 1 threads |
| HtLock.TicketsDistinct | litl2/src/htlockepfl.c:124-156 | waiting local tickets of a node are distinct |
| HtLock.NoEarlyLeader | litl2/src/htlockepfl.c:124-156 | a leader never finds the grant at the top, and so never reopens the window, while a ticket of it is live |
| HtLock.SectionsPerTicket | litl2/src/htlockepfl.c:175-193 | one global ticket serves at most window + 1 local sections, and the grant counts them |
| HtLock.TicketServed | litl2/src/htlockepfl.c:175-193 | while a global ticket is out, some thread holds the one that is being served, or is giving it back |
| HtLock.AloneIsServed | litl2/src/htlockepfl.c:86-122 | a thread whose global ticket is the only one out is served |
| HtLock.NeverLost | litl2/src/htlockepfl.c:86-193 | with at most window + 1 threads per node, from every state of every run there is a continuation in which every thread on its way in gets in and all become idle |
| Shuffle.ShuffleWaiters | litl2/src/fns.c:290-476 | on any linked queue the shuffle terminates and keeps next and prev inverse; of the nodes it passes, those of the allowed socket whose running time is within the lock's average, or of the shuffler's own socket on a lock without one, stand first, both groups in their old order, the last one moved leads on, and counts, marks and fields of all other nodes stay; it stops before the tail only after a move |
| Shuffle.WalkQueue | litl2/src/fns.c:345-427 | the loop processes one node after another, ending before the tail, with the tail in place |
| Shuffle.Splice | litl2/src/fns.c:398-406 | the pointer stores move one node up and change nothing else of the queue |
| Shuffle.ShuffledPermutes | litl2/src/fns.c:290-476 | shuffling permutes the queue and fixes everything up to the shuffler and everything not processed |
| Shuffle.ChosenOnly | litl2/src/fns.c:364-417 | moved up are exactly the eligible nodes |
| Shuffle.StableOrder | litl2/src/fns.c:364-417 | eligible nodes keep their order, and so do the others |
| Mutexee.MutualExclusion | litl2/include/mutexee_in.h:274-406 | one owner at a time |
| Mutexee.NoLostWakeup | litl2/include/mutexee_in.h:274-406 | whenever a thread sleeps, an awake thread will wake a sleeper or keeps the lock marked contended for the next unlock, despite the early returns and the separate store that clears the mark |
| Mutexee.NeverStuck | litl2/include/mutexee_in.h:274-406 | without spurious wake-ups, from every state of every run there is a continuation in which every thread on its way in, sleepers included, gets in and all become idle |
| Mutexee.TrySucceeds | litl2/include/mutexee_in.h:274-406 | a trylock gets the mutex exactly when nobody has it |
| Clh.NodesRotate | litl2/src/clh.c:60-123 | the threads' current nodes and the one left in the lock are always all n + 1 nodes, each once |
| Clh.MutualExclusion | litl2/src/clh.c:86-123 | one thread at a time has the lock |
| Clh.FirstInLine | litl2/src/clh.c:86-100 | whoever has the lock is the first in order of arrival at the tail |
| Clh.ReleasesSuccessor | litl2/src/clh.c:120-123 | the unlock, through `head`, lets go on exactly the next in line, if there is one, and nobody else's spin flag changes |
| Clh.NeverStuck | litl2/src/clh.c:60-123 | from every state of every run there is a continuation in which every thread on its way in gets in and all become idle |
| ArrayLock.FlagsRefineCounter | litl2/src/alockepfl.c:74-145 | with at most 512 threads the only unlocked slot is the served ticket's, modulo 512, across every wrap of the 32-bit tail; only the oldest waiter has it |
| ArrayLock.MutualExclusion | litl2/src/alockepfl.c:74-145 | one thread at a time holds the array lock, up to the last store of its unlock |
| ArrayLock.NeverStuck | litl2/src/alockepfl.c:74-145 | from every state of every run there is a continuation in which every thread on its way in gets in and all become idle |

## Left out

Of the tree:

- Torn reads and how they are detected (page versions, record versions, CRC, embedded locks), RDMA ordering and completion: a page or record access is one step, and write-then-unlock is ordered.
- Page data handed over between threads of a node or to a peer (HANDOVER_DATA, RAND_FAAD) and the CN_AWARE and GLOBAL_ONLY variants.
- Coroutines, timers, measurement arrays, printing, graphviz, command lines, benchmarks, and the memcached and RDMA plumbing.
- BlinkTree.Tree.UpdateNewRoot: sequential, so the root it swaps is the one the operation read; the lost swap is in BlinkConcurrent.
- BlinkTree.Tree.Alloc: any fresh address, where the program cuts pages from chunks (see Allocator); running out of memory is not modelled.
- BlinkConcurrent.NeverStuck: what happens after the assertion that there is a level above is not modelled, and every other thread goes on.
- BlinkProgress.AllFinish: operations can end from everywhere, each in finitely many steps; which of the threads that wait for a page lock is served first, and how soon, is not claimed.
- BlinkConcurrent.CachedLeads: the shared cache is a set of copies of level-1 pages, from which an operation may start with any that covers its key; which copy it finds, and eviction, are left open, and pages are never freed under a reader.
- The broadcast of new roots: a concurrent operation may start from the current or any earlier root, and uses the cache when that root is of level three or more.
- The path stack of the concurrent tree is a map without a bound on levels.
- IndexCache.Cache.EvictOne: which of two random pages goes, their use counts and the delayed free are left open; the skip list is a sorted sequence.
- RangeQuery.RangeExact: a query reads a memory that does not change meanwhile; concurrent writers may make it miss or repeat records.

Of the page lock and the allocator:

- HandoverLock.MutualExclusion: fewer than 2^32 tickets per lock and run, since 32-bit tickets of a packed word carry into each other, and at most 8 nodes.
- HandoverProgress.NeverStuck: some continuation serves all; fairness between nodes under every schedule is not claimed, and the choice of the peer is left open.
- Synchronous remote writes are asynchronous ones that may land at the next step, so both variants are covered.
- Allocator.Client.Alloc: freeing does nothing in the program and is not modelled; where the program asserts that memory is left, `ok` is false.
- Offsets of 48 bits: memory is assumed to fit them.

Of the LiTL locks:

- Condition variables, the `posix_lock` layer, the interposition tables, spin pauses and prefetches; waiting is a guarded step.
- Fairness under every schedule, and cost.
- Memory models weaker than sequential consistency.
- Cna.FifoPerSocket: whether the lock stays on the socket is decided at random in the program, and left open; the test of the 32 low bits of a pointer for a granted queue is a test of the whole pointer.
- Hmcs.MutualExclusion: how HYS-HMCS adapts its depth is left open, so every thread may take either way each time.
- Cohort.MutualExclusion: C-BO-MCS takes its local MCS queue with atomic operations (its pointer steps are those of the queues in Hmcs).
- Cohort.SlotsRefineCounter: tickets are unbounded, where the program's stay true below 2^31.
- HtLock.MutualExclusion: counters are unbounded; `request` may fall without limit, as far as the program's width allows.
- Shuffle.ShuffleWaiters: the queue does not change during a shuffle except by it; when the lock is ready, the running time statistics, and which socket they allow next are left open; the lock and unlock protocol of FNS around it is not modelled.
- Mutexee.NoLostWakeup: how long a thread spins, the adaptation counters and futex time-outs are left open; a sleeper may wake for no reason at any time.
- ArrayLock.MutualExclusion: trylock is not modelled, because its compare-and-swap on the wrapping tail may succeed on a tail that has gone round.
- Locks whose code is only in headers or nearly repeats a modelled one: clhepfl, fnm, backoff, Malthusian, MCS-TP, ticket and TTAS locks.
