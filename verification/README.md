# Block layer and crypto layer of a Linux 2.6.32 kernel

A Dafny model of two parts of the kernel under
`M6000_froyo_kernel_code/KB70_froyo_GPL/kernel`: the request queue of the block layer with
its elevators, and the transformations of the crypto layer. `dafny verify dfyconfig.toml`
checks all of it. Where the source updates an object in place the model is a class or a
method on arrays with loops; each of these is proved equal to a specification function, and
what the code is for is proved about that function, over every input or every run.

## What is modelled

**Barriers** (`Blkdev`, `Barrier*`, `RequestQueue`). A transition system in which a
submitter, the elevator and a driver add, dispatch, fetch, complete and requeue requests
in any order. In every mode and for any submitter each ordered sequence ends its barrier
once, with the first error. In drain mode nothing overtakes a barrier, barriers keep
their own order, and a sequence never blocks an idle driver. The ordering holds exactly
for submitters that neither flag other requests as barriers nor insert file system
requests at the front; `drivers/block/pktcdvd.c:783` does the former. Which flushes go
out around the data follows from the mode of the queue and the size of the barrier.

**Merging** (`Segments`, `BlkMerge`, `ElvHash`). The running segment count stays an
upper bound for the scatterlist, because the greedy pass is the smallest of all. The
merge hash agrees with a linear scan.

**Completion** (`BioList`, `BioEnds`, `BlkCore`). Two partial completions of a request
make one, under an exact condition that whole sectors meet; a bio reports success
exactly if it was good and no call that completed a part of it failed; failing a mixed
request ends on bio boundaries and always gets on.

**Schedulers** (`SortList`, `Expiry`; `Deadline*`; `As*`; `Cfq*`). Deadline serves an
expired write within a number of calls that its place in the list bounds, with one
exception in which no place does; its sweep takes the lowest request ahead, a late
arrival aside. The anticipatory scheduler's local choice is the best one under an exact
condition, and what begins and what ends its waits is given for every operation of every
run; two defects are shown by runs: a read without an io context can make it wait for
nothing, which happens in no other way, and an alias met by a front merge can lose the
next request, so that a forced dispatch stops early. Fair queueing keeps its trees, lists,
counters and cached pointers in agreement, chooses by a total order, gives the turn to the
first queue by class and key, and is emptied by a forced dispatch.

**Tags** (`BlkTag`). Map, index and busy lists agree over every run, and two tags stay
reserved for synchronous requests until the depth is reduced below a tag an asynchronous
one holds.

**Camellia** (`Words`, `Camellia*`). From the bytes of a key and a block to the bytes of
the result the code equals RFC 3713, although it absorbs whitening keys and half of a
matrix into the key table. **AES** (`Aes*`). The table form equals FIPS 197 and its
equivalent inverse cipher. **CBC** (`CbcMode`, `Cbc`) and **CCM** (`CcmMode`, `Ccm`)
equal their specifications however the data is split. **Names** (`AlgName`, `Algboss`):
the probe's parser undoes the printer, with an exact description of what it accepts.
**Helpers** (`Algapi`): the counter increment and the request queue with its backlog.

## Assumptions

- A lock makes each function one atomic step. Jiffies and sectors are naturals that do not
  wrap; tunables are constant during a run.
- The phase bits of a sequence are distinct, in the order in which the comparisons of
  `blk_do_ordered` need them.
- Red-black trees are sequences in the order of their keys: the code uses only their first
  and neighbouring nodes, lookup, insertion and removal.
- S-boxes are parameters: any tables for Camellia, any permutation with its inverse for AES.
  The other lookup tables are given by the equations that define them.
- The io context a request carries keeps its scheduler data until the request has ended.
- Where the code differs from its comments the model follows the code.

## Model

| member | source | states |
|---|---|---|
| BarrierTheorems.SafeExactlyForGoodCallers | M6000_froyo_kernel_code/KB70_froyo_GPL/kernel/block/blk-barrier.c:62-89 | barrier ordering holds in every drain-mode run if and only if submitters neither set `REQ_HARDBARRIER` on requests that are no file system requests nor insert file system requests at the front |
| BarrierTheorems.BarrierOrderKept | M6000_froyo_kernel_code/KB70_froyo_GPL/kernel/block/blk-barrier.c:153-279 | over every drain-mode run, with adds, dispatches, fetches, completions and requeues in any order: before a proxy of a barrier is handed out, every request added before the barrier has completed and every barrier added before it has ended; nothing added after a barrier, another barrier included, is handed out before it has ended; a barrier is handed out by its proxies only; and the drain-mode `WARN_ON` cannot fire |
| BarrierTheorems.EachSequenceEndsOnce | M6000_froyo_kernel_code/KB70_froyo_GPL/kernel/block/blk-barrier.c:91-129 | in every mode and run, whatever submitters do, each sequence reports every phase it asked for exactly once, ends its barrier once with the first error a phase reported, and the `BUG_ON` on a phase bit set twice cannot fire |
| BarrierTheorems.EndedWithFirstError | M6000_froyo_kernel_code/KB70_froyo_GPL/kernel/block/blk-barrier.c:91-111 | the error a barrier ends with is that of the earliest failure in its sequence, by a proxy or a part of one, and 0 exactly if there is none |
| BarrierTheorems.BarrierEndsLast | M6000_froyo_kernel_code/KB70_froyo_GPL/kernel/block/blk-barrier.c:153-279 | over every drain-mode run a barrier, with data or without, ends only when every file system request added before it has completed |
| BarrierPhases.PhasesByMode | M6000_froyo_kernel_code/KB70_froyo_GPL/kernel/block/blk-barrier.c:153-233 | over every run, in every mode, whatever submitters do, for the mode the queue was given and the size the barrier was added with: with data, the first flush goes out before the proxy of the barrier exactly if the mode has it (and has ended if the queue drains), and the last one behind the proxy exactly if the mode has it; without data only the first flush goes out, exactly if the mode has it; what goes out reports before the barrier ends; an unordered queue only rejects |
| BarrierPhases.ProxyCarriesData | M6000_froyo_kernel_code/KB70_froyo_GPL/kernel/block/blk-barrier.c:199-213 | the proxy of a barrier has the direction, start and size of the barrier as it was added |
| BarrierTags.FlushEndsFirstExactly | M6000_froyo_kernel_code/KB70_froyo_GPL/kernel/block/blk-barrier.c:235-279 | on a queue that flushes before barriers, the flush has ended whenever the proxy of a barrier goes out, in every run, if and only if the queue drains; with ordered tags it only goes out first |
| BarrierWait.EmptyBarrierWaits | M6000_froyo_kernel_code/KB70_froyo_GPL/kernel/block/blk-barrier.c:162-180 | without a first flush, a barrier without data ends only when the driver holds no file system request and no discard, with ordered tags as well |
| BarrierWait.DrainPhaseWaits | M6000_froyo_kernel_code/KB70_froyo_GPL/kernel/block/elevator.c:823-853 | in every run and for every submitter, whenever the drain phase of a sequence is over the driver holds no such request |
| BarrierOnce.CoreStep | M6000_froyo_kernel_code/KB70_froyo_GPL/kernel/block/blk-barrier.c:235-279 | every step of any submitter, the elevator and the driver, a waiting barrier handed out by mistake included, keeps each sequence and the in-flight count proper |
| BarrierTheorems.NoDeadlock | M6000_froyo_kernel_code/KB70_froyo_GPL/kernel/block/blk-barrier.c:235-279 | in drain mode a running sequence never blocks an idle driver: its next look at the queue is answered with the request at the head |
| BarrierTheorems.FlaggedRequestMisleads | M6000_froyo_kernel_code/KB70_froyo_GPL/kernel/drivers/block/pktcdvd.c:778-785 | a run in which a flagged request that is no file system request makes a requeued request start after the barrier that was added behind it |
| BarrierTheorems.FrontInsertionOvertakes | M6000_froyo_kernel_code/KB70_froyo_GPL/kernel/block/elevator.c:598-693 | a run in which a file system request inserted at the front is handed out before a waiting barrier |
| Blkdev.CurIsLowestClearBit | M6000_froyo_kernel_code/KB70_froyo_GPL/kernel/block/blk-barrier.c:55-60 | `ffz(ordseq)` names the first phase that is not done |
| BarrierOnce.CompleteKeeps | M6000_froyo_kernel_code/KB70_froyo_GPL/kernel/block/blk-barrier.c:91-129 | a completion, with or without a proxy, keeps the log of each sequence proper and the phase bits in agreement with the proxies that are around |
| BarrierOnce.StartOrderedKeeps | M6000_froyo_kernel_code/KB70_froyo_GPL/kernel/block/blk-barrier.c:153-233 | `start_ordered` opens a sequence whose skipped phases (no data, nothing in flight) are reported done and whose other proxies are queued, in every mode; `BarrierPhases.ModeFitting` says which these are |
| BarrierOnce.RequeueKeeps | M6000_froyo_kernel_code/KB70_froyo_GPL/kernel/block/elevator.c:539-554 | a requeue loses no request and disturbs no sequence |
| BarrierDrain.RequeueRank | M6000_froyo_kernel_code/KB70_froyo_GPL/kernel/block/elevator.c:664-678 | the scan of a requeue puts a request in front of everything that must come after it and behind everything that must come before it |
| BarrierDrain.StartOrderedDrain | M6000_froyo_kernel_code/KB70_froyo_GPL/kernel/block/blk-barrier.c:153-233 | when a sequence starts, the queue is in the order proxies, then requests behind the barrier, and the drain phase is open exactly while something is in flight |
| BarrierDrain.FetchDrain | M6000_froyo_kernel_code/KB70_froyo_GPL/kernel/block/blk-barrier.c:235-279 | what a fetch hands out in drain mode is the request whose turn it is; the check of the `WARN_ON` holds |
| BarrierDrain.ProxyCompleteDrain | M6000_froyo_kernel_code/KB70_froyo_GPL/kernel/block/elevator.c:823-853 | the end of a proxy moves the sequence to a stage in which the queue is still in order |
| BarrierSafety.SafeStep | M6000_froyo_kernel_code/KB70_froyo_GPL/kernel/block/blk-barrier.c:62-89 | every step of the submitter, the elevator and the driver extends a safe log to a safe log |
| BarrierProgress.HeadHasItsTurn | M6000_froyo_kernel_code/KB70_froyo_GPL/kernel/block/blk-barrier.c:235-279 | with nothing in the driver and a sequence running, the request at the head may go |
| RequestQueue.BlockQueue.SafeAfterCall | M6000_froyo_kernel_code/KB70_froyo_GPL/kernel/block/blk.h:54-68 | after any number of calls on a queue object its log is proper and no phase bit was set twice; in drain mode with well-behaved callers the barrier order is kept and the `WARN_ON` has not fired |
| RequestQueue.SortPointKeepsOrder | M6000_froyo_kernel_code/KB70_froyo_GPL/kernel/block/elevator.c:417-453 | sorting a request in keeps the one-way order, from `end_sector` on, of what stands behind the last request that may not be passed |
| RequestQueue.OneWayIsTwoSweeps | M6000_froyo_kernel_code/KB70_froyo_GPL/kernel/block/elevator.c:417-453 | that order is one sweep upwards from `end_sector` and then one upwards to it |
| RequestQueue.BlockQueue.CompletePhases | M6000_froyo_kernel_code/KB70_froyo_GPL/kernel/block/blk-barrier.c:91-111 | sets phase bits once, keeps the first error, and ends the original request when the last phase is done |
| RequestQueue.BlockQueue.CompletedRequest | M6000_froyo_kernel_code/KB70_froyo_GPL/kernel/block/elevator.c:823-853 | completes the drain phase when the last request before the barrier has ended |
| RequestQueue.BlockQueue.FinishRequest | M6000_froyo_kernel_code/KB70_froyo_GPL/kernel/block/blk-core.c:2108-2130 | an end of a request by the driver is a step of the transition system |
| RequestQueue.BlockQueue.FinishProxy | M6000_froyo_kernel_code/KB70_froyo_GPL/kernel/block/blk-barrier.c:113-129 | the end of a proxy is a step of the transition system |
| RequestQueue.BlockQueue.PushProxies | M6000_froyo_kernel_code/KB70_froyo_GPL/kernel/block/blk-barrier.c:193-219 | the proxies are pushed in reverse order, so that they stand in the order flush, barrier, flush |
| RequestQueue.BlockQueue.ChooseMode | M6000_froyo_kernel_code/KB70_froyo_GPL/kernel/block/blk-barrier.c:159-180 | the mode in which a barrier, possibly without data, is carried out, as `BarrierPhases.ModeFitting` describes it |
| BarrierPhases.ModeFitting | M6000_froyo_kernel_code/KB70_froyo_GPL/kernel/block/blk-barrier.c:159-180 | flag by flag: a barrier with data is carried out in the mode of the queue; one without has no proxy of its own and no last flush, and drains instead of ordering by tag if there is no first flush either |
| RequestQueue.BlockQueue.SkipPhases | M6000_froyo_kernel_code/KB70_froyo_GPL/kernel/block/blk-barrier.c:221-233 | the phases that need no request are reported done at once |
| RequestQueue.BlockQueue.BeginSequence | M6000_froyo_kernel_code/KB70_froyo_GPL/kernel/block/blk-barrier.c:153-233 | the whole of `start_ordered` as a state function; when no sequence is left open the queue got shorter |
| RequestQueue.BlockQueue.OrderHead | M6000_froyo_kernel_code/KB70_froyo_GPL/kernel/block/blk-barrier.c:235-279 | `blk_do_ordered` as a state function; what it removes makes the queue shorter, which is why fetching ends |
| RequestQueue.BlockQueue.NextRequest | M6000_froyo_kernel_code/KB70_froyo_GPL/kernel/block/blk.h:54-68 | the fetch loop ends; the request it returns is one that may go in a queue that can be reached |
| RequestQueue.BlockQueue.PeekRequest | M6000_froyo_kernel_code/KB70_froyo_GPL/kernel/block/blk-core.c:1765-1846 | a request that is returned is at the head, marked as started and logged as handed out |
| RequestQueue.BlockQueue.StartRequest | M6000_froyo_kernel_code/KB70_froyo_GPL/kernel/block/blk-core.c:1888-1901 | starting a request moves it from the queue to the driver and counts it |
| RequestQueue.BlockQueue.EndPart | M6000_froyo_kernel_code/KB70_froyo_GPL/kernel/block/blk-core.c:161-169 | an error in a part of the barrier proxy is kept for the sequence, unless an earlier one was |
| RequestQueue.BlockQueue.DispatchSort | M6000_froyo_kernel_code/KB70_froyo_GPL/kernel/block/elevator.c:417-453 | the scan from the back stops where a request that may not be passed, or the one-way order, says |
| RequestQueue.BlockQueue.NoopDispatch | M6000_froyo_kernel_code/KB70_froyo_GPL/kernel/block/noop-iosched.c:20-32 | one held request goes to the dispatch queue, if there is one |
| RequestQueue.BlockQueue.DrainElevator | M6000_froyo_kernel_code/KB70_froyo_GPL/kernel/block/elevator.c:556-568 | draining leaves the scheduler empty |
| RequestQueue.BlockQueue.ChoosePoint | M6000_froyo_kernel_code/KB70_froyo_GPL/kernel/block/elevator.c:695-730 | colour, boundary and insertion point for each kind of request |
| RequestQueue.BlockQueue.Insert | M6000_froyo_kernel_code/KB70_froyo_GPL/kernel/block/elevator.c:598-693 | the request is placed at the point; a back insertion drains the scheduler first |
| RequestQueue.BlockQueue.AddRequest | M6000_froyo_kernel_code/KB70_froyo_GPL/kernel/block/elevator.c:695-730 | adding a request is a step of the transition system behind a drain |
| RequestQueue.BlockQueue.ScanFor | M6000_froyo_kernel_code/KB70_froyo_GPL/kernel/block/elevator.c:669-677 | the scan finds the place in front of the first request that is not ordered earlier |
| RequestQueue.BlockQueue.RequeueRequest | M6000_froyo_kernel_code/KB70_froyo_GPL/kernel/block/elevator.c:539-554 | a requeue is a step of the transition system |
| ElvHash.Elevator.Find | M6000_froyo_kernel_code/KB70_froyo_GPL/kernel/block/elevator.c:334-354 | a mergeable request that ends at the offset is found if and only if the scheduler holds one: the hash agrees with a linear scan; requests that can no longer be merged are dropped on the way |
| ElvHash.Elevator.ElvMerge | M6000_froyo_kernel_code/KB70_froyo_GPL/kernel/block/elevator.c:476-509 | what is returned is held, passes `elv_rq_merge_ok` and touches the bio as claimed; a place behind a request is found whenever one that ends there is held and all of those pass the other tests |
| ElvHash.Elevator.TryMerge | M6000_froyo_kernel_code/KB70_froyo_GPL/kernel/block/elevator.c:111-126 | back merge, front merge or none, by the two ends of the request |
| ElvHash.Elevator.InsertSort | M6000_froyo_kernel_code/KB70_froyo_GPL/kernel/block/elevator.c:632-648 | a request that enters is held, hashed if mergeable, and may become the last merged one |
| ElvHash.Elevator.Dispatch | M6000_froyo_kernel_code/KB70_froyo_GPL/kernel/block/elevator.c:461-473 | a request that leaves is no longer held, hashed or the last merged one |
| ElvHash.Elevator.Reposition | M6000_froyo_kernel_code/KB70_froyo_GPL/kernel/block/elevator.c:328-332 | the request is on the chain of the sector at which it ends now |
| ElvHash.Elevator.BackMerge | M6000_froyo_kernel_code/KB70_froyo_GPL/kernel/block/elevator.c:511-522 | after a back merge the request is found by its new end |
| ElvHash.Elevator.FrontMerge | M6000_froyo_kernel_code/KB70_froyo_GPL/kernel/block/elevator.c:511-522 | a front merge keeps the key, so the request stays on its chain |
| ElvHash.Elevator.MergeRequests | M6000_froyo_kernel_code/KB70_froyo_GPL/kernel/block/elevator.c:524-537 | the absorbed request is no longer held or hashed, the other is found by the end of both, `nr_sorted` still counts |
| ElvHash.Elevator.ForbidMerge | M6000_froyo_kernel_code/KB70_froyo_GPL/kernel/block/blk-merge.c:203-223 | a request marked `REQ_NOMERGE` is no longer the last merged one |
| ElvHash.LinkDeleted | M6000_froyo_kernel_code/KB70_froyo_GPL/kernel/block/elevator.c:309-318 | unlinking keeps every other request on its own chain, once |
| Segments.MappedIsSmallest | M6000_froyo_kernel_code/KB70_froyo_GPL/kernel/block/blk-merge.c:118-164 | any way to cover the memory of a request takes at least as many scatterlist entries as the greedy pass of `blk_rq_map_sg`, and its last entry is no smaller if it takes as many |
| Segments.JoinableExact | M6000_froyo_kernel_code/KB70_froyo_GPL/kernel/block/blk-merge.c:141-146 | two pieces may share an entry exactly if the second starts where the first ends and both lie between the same segment boundaries |
| Segments.OneStretch | M6000_froyo_kernel_code/KB70_froyo_GPL/kernel/block/blk-merge.c:130-168 | an entry is one stretch of memory; if none of its pieces crosses a boundary it does not either |
| BlkMerge.CountSuffices | M6000_froyo_kernel_code/KB70_froyo_GPL/kernel/block/blk-merge.c:118-164 | a request whose recorded count and sizes describe some cover fits the scatterlist its count promises |
| BlkMerge.CoverJoin | M6000_froyo_kernel_code/KB70_froyo_GPL/kernel/block/blk-merge.c:274-312 | when the last segment of one request and the first of the other may be joined, the counts can be added less one |
| BlkMerge.BiosJoin | M6000_froyo_kernel_code/KB70_froyo_GPL/kernel/block/blk-merge.c:274-312 | what a request merge records still describes a cover of all the memory |
| BlkMerge.BiosJoinUndone | M6000_froyo_kernel_code/KB70_froyo_GPL/kernel/block/blk-merge.c:274-312 | sizes recorded by a merge that is then refused are too large at most |
| BlkMerge.RecordedCovered | M6000_froyo_kernel_code/KB70_froyo_GPL/kernel/block/blk-merge.c:12-70 | what a recount leaves in the first and last bio describes a cover |
| BlkMerge.DatalessTailExact | M6000_froyo_kernel_code/KB70_froyo_GPL/kernel/block/blk-merge.c:88-112 | for a last bio without data `blk_phys_contig_segment` looks at sizes only; with exact counts the reduced count is right if and only if the pieces on both sides may be joined |
| BlkMerge.DatalessTailUndercounts | M6000_froyo_kernel_code/KB70_froyo_GPL/kernel/block/blk-merge.c:88-112 | two requests for which it is one too small |
| BlkMerge.Request.RecalcSegments | M6000_froyo_kernel_code/KB70_froyo_GPL/kernel/block/blk-merge.c:12-75 | the count is that of the greedy grouping in which a high page stands alone |
| BlkMerge.Request.NewHwSegment | M6000_froyo_kernel_code/KB70_froyo_GPL/kernel/block/blk-merge.c:203-223 | the count grows only within both limits of the queue |
| BlkMerge.Request.BackMerge | M6000_froyo_kernel_code/KB70_froyo_GPL/kernel/block/blk-merge.c:225-247 | accepted exactly within the limits; the count still suffices for the old and the new memory together |
| BlkMerge.Request.FrontMerge | M6000_froyo_kernel_code/KB70_froyo_GPL/kernel/block/blk-merge.c:249-272 | accepted exactly within the limits; the count still suffices |
| BlkMerge.Request.MergeCounts | M6000_froyo_kernel_code/KB70_froyo_GPL/kernel/block/blk-merge.c:274-312 | the counts of two requests are added, less one if they touch, and still suffice |
| BlkMerge.Request.AttemptMerge | M6000_froyo_kernel_code/KB70_froyo_GPL/kernel/block/blk-merge.c:363-434 | two requests are merged if and only if both are mergeable and touch, direction, disk and integrity agree, neither is special, the sectors fit `max_sectors`, and the joined count fits both segment limits; a merge keeps all memory in order and a count that suffices, a refusal changes neither request's memory or count |
| BlkMerge.Request.MapSg | M6000_froyo_kernel_code/KB70_froyo_GPL/kernel/block/blk-merge.c:115-170 | the entries written are no more than `nr_phys_segments`, cover the memory exactly and are the smallest such cover |
| BioList.LeftLeft | M6000_froyo_kernel_code/KB70_froyo_GPL/kernel/block/blk-core.c:1990-2056 | completing m and then n bytes with the same error leaves the same bios and pieces, and ends the same bios with the same results, as completing m + n |
| BioList.LeftLeftSectors | M6000_froyo_kernel_code/KB70_froyo_GPL/kernel/block/blk-core.c:133-160 | sectors agree too if and only if the second count ends the bio in which the first one stopped, or the parts of a sector in both do not add up to a sector |
| BioList.WholeSectorsAddUp | M6000_froyo_kernel_code/KB70_froyo_GPL/kernel/block/blk-core.c:133-160 | counts of whole sectors satisfy that condition |
| BioList.HalfSectorsDiffer | M6000_froyo_kernel_code/KB70_froyo_GPL/kernel/block/blk-core.c:2059-2064 | an input at which it fails: two halves of a sector move the start by none |
| BioList.EndedInOrder | M6000_froyo_kernel_code/KB70_froyo_GPL/kernel/block/blk-core.c:1990-2056 | every bio is ended exactly once and in order; `BioEnds.Results` says with what |
| BioList.SkipMemory | M6000_froyo_kernel_code/KB70_froyo_GPL/kernel/block/blk-core.c:2059-2064 | what is left of a bio is the same memory without its first bytes |
| BioEnds.Results | M6000_froyo_kernel_code/KB70_froyo_GPL/kernel/block/blk-core.c:133-158 | over any calls with any errors: a bio ends in the call that completes its last byte, with the error of that call; if it has none, with -EIO when the bio was bad before or an earlier call completed a part of it with an error; and with 0 otherwise |
| BioEnds.SuccessExactly | M6000_froyo_kernel_code/KB70_froyo_GPL/kernel/block/blk-core.c:133-158 | a bio of a request reports success if and only if it was good and every call that completed a byte of it had no error |
| BlkCore.EagerIsLongest | M6000_froyo_kernel_code/KB70_froyo_GPL/kernel/block/blk-core.c:1682-1707 | the count of failed bytes ends on a bio boundary, at the longest run of bios with the attributes of the first |
| BlkCore.BoundaryLeft | M6000_froyo_kernel_code/KB70_froyo_GPL/kernel/block/blk-core.c:1682-1707 | failing that many bytes ends those bios and no other |
| BlkCore.Request.SetMixedMerge | M6000_froyo_kernel_code/KB70_froyo_GPL/kernel/block/blk-merge.c:323-342 | every bio carries the attributes of its request afterwards |
| BlkCore.Request.BackMerge | M6000_froyo_kernel_code/KB70_froyo_GPL/kernel/block/blk-core.c:1182-1202 | the attributes of a mixed request stay those of its first bio |
| BlkCore.Request.FrontMerge | M6000_froyo_kernel_code/KB70_froyo_GPL/kernel/block/blk-core.c:1204-1236 | the attributes of a mixed request become those of its new first bio |
| BlkCore.Request.Absorb | M6000_froyo_kernel_code/KB70_froyo_GPL/kernel/block/blk-merge.c:392-417 | after a request merge the attributes and the length still fit the bios |
| BlkCore.Request.ErrBytes | M6000_froyo_kernel_code/KB70_froyo_GPL/kernel/block/blk-core.c:1682-1707 | positive while there is data, at most the length |
| BlkCore.Request.UpdateRequest | M6000_froyo_kernel_code/KB70_froyo_GPL/kernel/block/blk-core.c:1952-2085 | the length is what is left in the bios; the bios left and ended are those of the specification; the sector moves on for requests whose sector has a meaning only; attributes follow the new first bio |
| BlkCore.UpdatedTwice | M6000_froyo_kernel_code/KB70_froyo_GPL/kernel/block/blk-core.c:1990-2075 | completing a request by m and then by n bytes leaves it in every field as completing it by m + n if and only if the counts add up: while data is left, the parts of sectors do; when the second call ends the request, the first moved neither its start nor its attributes |
| BlkCore.WholeSectorsUpdate | M6000_froyo_kernel_code/KB70_froyo_GPL/kernel/block/blk-core.c:2059-2064 | for counts of whole sectors the two calls and the one call agree in bios, start, length and all else while data is left |
| BlkCore.Request.EndRequestErr | M6000_froyo_kernel_code/KB70_froyo_GPL/kernel/block/blk-core.c:2262-2266 | at least one bio ends, none in part, and all that end were as eager to fail as the first |
| BlkCore.Request.FailAll | M6000_froyo_kernel_code/KB70_froyo_GPL/kernel/block/blk-core.c:2262-2266 | repeated calls come to an end with every bio ended |
| DeadlineService.BoundedService | M6000_froyo_kernel_code/KB70_froyo_GPL/kernel/block/deadline-iosched.c:245-327 | while the data of an expired write with k writes ahead of it in the list waits, fewer dispatch calls happen than (k + 1) * (`writes_starved` + 1) * `fifo_batch` + 1, whatever is added, aliased or merged meanwhile, unless a write of the same expiry that is not right behind it absorbs it |
| DeadlineService.BoundedWait | M6000_froyo_kernel_code/KB70_froyo_GPL/kernel/block/deadline-iosched.c:245-327 | in particular in every run in which the write itself stays queued |
| DeadlineService.BoundedServiceByExpiry | M6000_froyo_kernel_code/KB70_froyo_GPL/kernel/block/deadline-iosched.c:245-327 | in every run the bound holds with the writes that expire no later in place of those ahead |
| DeadlineService.AbsorptionMovesBack | M6000_froyo_kernel_code/KB70_froyo_GPL/kernel/block/deadline-iosched.c:170-189 | a merge puts the data of a write further back in the list if and only if it is absorbed by one of the same expiry that is not right behind it |
| DeadlineAbsorb.AbsorptionBreaksBound | M6000_froyo_kernel_code/KB70_froyo_GPL/kernel/block/deadline-iosched.c:170-189 | for all tunables and any n there is a run from an empty scheduler, of arrivals, a back merge and such an absorption, in which n dispatch calls happen while an expired write that was first in the list waits: no bound by place holds |
| DeadlineService.ServeLowers | M6000_froyo_kernel_code/KB70_froyo_GPL/kernel/block/deadline-iosched.c:245-327 | every dispatch call that leaves the write waiting brings its turn closer |
| DeadlineInvariant.StepKeepsInv | M6000_froyo_kernel_code/KB70_froyo_GPL/kernel/block/deadline-iosched.c:76-222 | sorted tree and expiry list hold the same requests, both in order, at most one direction has a next request, which is queued, and `starved` is bounded: kept by every operation |
| DeadlineInvariant.ServeOk | M6000_froyo_kernel_code/KB70_froyo_GPL/kernel/block/deadline-iosched.c:245-327 | a dispatch call serves exactly one request of one direction, and fails exactly when nothing is queued |
| DeadlineOrder.ServedInOrder | M6000_froyo_kernel_code/KB70_froyo_GPL/kernel/block/deadline-iosched.c:245-327 | over every run: while the sweep has a request ahead and `fifo_batch` is not used up, the lowest one ahead is taken; otherwise a batch starts, of reads unless there are none or writes have waited `writes_starved` times, with the head of the list if that has expired or nothing is ahead in that direction, and with the lowest request ahead if not; the counters count these |
| DeadlineOrder.ExpiresInTime | M6000_froyo_kernel_code/KB70_froyo_GPL/kernel/block/deadline-iosched.c:100-113 | over every run: a queued request expires `read_expire` or `write_expire` after its arrival, or earlier if a request it has absorbed was to expire earlier |
| DeadlineSweep.SweptExactly | M6000_froyo_kernel_code/KB70_froyo_GPL/kernel/block/deadline-iosched.c:203-222 | what is ahead is what was queued beyond the last request when that was dispatched; the request taken is the lowest of everything queued beyond it if and only if no request that has arrived or moved since lies in front of it |
| DeadlineSweep.LateArrivalPassedOver | M6000_froyo_kernel_code/KB70_froyo_GPL/kernel/block/deadline-iosched.c:298-314 | with any tunables a run in which a read that has arrived late is passed over |
| SortList.OvertakenOk | M6000_froyo_kernel_code/KB70_froyo_GPL/kernel/block/deadline-iosched.c:170-189 | when an absorbed request expires earlier, taking over its expiry and place keeps the list in order of expiry |
| SortList.NoAliasAfterMove | M6000_froyo_kernel_code/KB70_froyo_GPL/kernel/block/deadline-iosched.c:76-84 | after the alias is dispatched no other request starts at that sector, so the loop runs at most once |
| DeadlineQueue.Scheduler.AddRqRb | M6000_froyo_kernel_code/KB70_froyo_GPL/kernel/block/deadline-iosched.c:76-84 | the loop over aliases ends and equals the specification |
| DeadlineQueue.Scheduler.AddRequest | M6000_froyo_kernel_code/KB70_froyo_GPL/kernel/block/deadline-iosched.c:100-113 | a request enters both views; the invariant is kept |
| DeadlineQueue.Scheduler.MergedRequest | M6000_froyo_kernel_code/KB70_froyo_GPL/kernel/block/deadline-iosched.c:156-168 | a front merge repositions the request in the tree |
| DeadlineQueue.Scheduler.MergedRequests | M6000_froyo_kernel_code/KB70_froyo_GPL/kernel/block/deadline-iosched.c:170-189 | the absorbed request leaves both views |
| DeadlineQueue.Scheduler.MoveRequest | M6000_froyo_kernel_code/KB70_froyo_GPL/kernel/block/deadline-iosched.c:206-222 | the request leaves both views and the next one in its direction is remembered |
| DeadlineQueue.Scheduler.DispatchRequests | M6000_froyo_kernel_code/KB70_froyo_GPL/kernel/block/deadline-iosched.c:245-327 | one request moves if any is queued, none otherwise |
| DeadlineQueue.Scheduler.Drain | M6000_froyo_kernel_code/KB70_froyo_GPL/kernel/block/elevator.c:556-568 | dispatching until nothing comes empties both directions and dispatches all that was queued |
| AsChoice.LocalChoiceExact | M6000_froyo_kernel_code/KB70_froyo_GPL/kernel/block/as-iosched.c:293-391 | the choice between the two tree neighbours of a dispatched request is preferred over every other queued one if and only if the request behind it does not start inside it or is not surpassed by the one after |
| AsChoice.ChoiceIsTransitive | M6000_froyo_kernel_code/KB70_froyo_GPL/kernel/block/as-iosched.c:293-361 | the preference is an order |
| AsChoice.ChoiceIgnoresOrder | M6000_froyo_kernel_code/KB70_froyo_GPL/kernel/block/as-iosched.c:293-361 | of two requests the same is taken whichever is named first |
| AsChoice.SectorRule | M6000_froyo_kernel_code/KB70_froyo_GPL/kernel/block/as-iosched.c:293-358 | the choice in sectors: the lower one ahead, the nearer one behind within reach, one behind only if twice its distance is smaller, and what is out of reach last |
| AsTheorems.DispatchChoosesBest | M6000_froyo_kernel_code/KB70_froyo_GPL/kernel/block/as-iosched.c:973-1004 | the next request cached by a dispatch is that choice, with the same exact condition |
| AsTheorems.AnticipationSound | M6000_froyo_kernel_code/KB70_froyo_GPL/kernel/block/as-iosched.c:419-496 | in every reachable state waiting for a request in flight means a process whose request has not ended, waiting for the next one a process whose request has: the `BUG_ON`s of the anticipation cannot fire; a changed batch has something in flight |
| AsTheorems.NeverWaitsForNothing | M6000_froyo_kernel_code/KB70_froyo_GPL/kernel/block/as-iosched.c:1024-1181 | if every read has an io context, a dispatch call that serves nothing though requests are queued has its timer running, or a request of the awaited process in flight, or a change of direction waiting for something in flight |
| AsTheorems.NoStallExactly | M6000_froyo_kernel_code/KB70_froyo_GPL/kernel/block/as-iosched.c:407-427 | for all tunables: no run ends in a wait for a request in flight with a read queued and nothing in flight if and only if reads always carry an io context or nothing is ever anticipated |
| AsTheorems.StallWithoutContext | M6000_froyo_kernel_code/KB70_froyo_GPL/kernel/block/as-iosched.c:986-1001 | for all tunables with an anticipation time, a run in which a read without an io context makes the scheduler wait for a request in flight while nothing is in flight |
| AsTheorems.StallLasts | M6000_froyo_kernel_code/KB70_froyo_GPL/kernel/block/as-iosched.c:1064-1068 | from there neither time nor dispatch calls bring out a request |
| AsTheorems.FrontNextExact | M6000_froyo_kernel_code/KB70_froyo_GPL/kernel/block/as-iosched.c:1263-1280 | after a front merge there is no next request exactly when there was none, or when the alias that was dispatched was the only other request |
| AsTheorems.ForcedDispatchMayStop | M6000_froyo_kernel_code/KB70_froyo_GPL/kernel/block/as-iosched.c:1031-1057 | for all tunables, a run after which a forced dispatch leaves a queued synchronous write where it is |
| AsInvariant.StepKeepsInv | M6000_froyo_kernel_code/KB70_froyo_GPL/kernel/block/as-iosched.c:649-1303 | sorted tree and fifo hold the same requests, a cached next request is queued, `nr_dispatched` counts what is in flight, the anticipation fits its process: kept by every operation |
| AsInvariant.ServeOk | M6000_froyo_kernel_code/KB70_froyo_GPL/kernel/block/as-iosched.c:1024-1181 | a dispatch call serves one request or has one of three reasons not to |
| AsOrder.DispatchTakes | M6000_froyo_kernel_code/KB70_froyo_GPL/kernel/block/as-iosched.c:1024-1179 | a new batch starts with the head of its list; a running one goes on with its head if that has expired and a check is due, and with the next request otherwise |
| AsOrder.BatchesAlternate | M6000_froyo_kernel_code/KB70_froyo_GPL/kernel/block/as-iosched.c:1072-1150 | when both directions wait and the batch has expired, the next batch is one of the other direction: at once if nothing is in flight, and when it has completed otherwise; a batch of writes has its full number and its time |
| AsWait.WaitMoves | M6000_froyo_kernel_code/KB70_froyo_GPL/kernel/block/as-iosched.c:402-490 | over every run and for every operation, with closeness in sectors and waits in jiffies: a dispatched request ends a wait; otherwise one begins exactly at a call that finds a batch of reads with none overdue, after a read of a known process, and no next request worth taking; the wait for a request in flight becomes the wait for the next one when a read of the process has ended; and a wait is given up exactly at the time limit or when a request comes that is of the process, or close and synchronous, or that the statistics prefer |
| AsWait.OneWaitPerDispatch | M6000_froyo_kernel_code/KB70_froyo_GPL/kernel/block/as-iosched.c:745-785 | after a wait was given up a request is dispatched before the next wait |
| AsOrder.BatchTimed | M6000_froyo_kernel_code/KB70_froyo_GPL/kernel/block/as-iosched.c:840-877 | a batch runs from when the last request of the other direction has completed, and one of reads again from when its first read has, which also sizes the next batch of writes |
| AsOrder.WriteMaxRule | M6000_froyo_kernel_code/KB70_froyo_GPL/kernel/block/as-iosched.c:811-845 | the number of writes in a batch shrinks after one that took too long without idling, and grows after one that was through before its time, by half, double or one |
| AsOrder.ExpiresInTime | M6000_froyo_kernel_code/KB70_froyo_GPL/kernel/block/as-iosched.c:1186-1210 | over every run a queued request expires at the earliest of the times set by its own arrival and by those of the requests it has absorbed |
| AsInvariant.ForceOk | M6000_froyo_kernel_code/KB70_froyo_GPL/kernel/block/as-iosched.c:1031-1057 | a forced dispatch empties a direction if and only if that was empty or had a cached next request |
| AsQueue.Scheduler.AnticWaitNext | M6000_froyo_kernel_code/KB70_froyo_GPL/kernel/block/as-iosched.c:419-431 | arms the wait; its `BUG_ON` is the precondition all callers meet |
| AsQueue.Scheduler.AnticWaitReq | M6000_froyo_kernel_code/KB70_froyo_GPL/kernel/block/as-iosched.c:438-447 | starts the wait for a request in flight or for the next one |
| AsQueue.Scheduler.CloseRequest | M6000_froyo_kernel_code/KB70_froyo_GPL/kernel/block/as-iosched.c:587-634 | a request is close by distance, in a range that grows while the process is awaited |
| AsQueue.Scheduler.CanBreakAnticipation | M6000_froyo_kernel_code/KB70_froyo_GPL/kernel/block/as-iosched.c:649-739 | same process, or timed out, or a close synchronous request, or what the counts and statistics say; its `BUG_ON` is the precondition |
| AsQueue.Scheduler.UpdateReq | M6000_froyo_kernel_code/KB70_froyo_GPL/kernel/block/as-iosched.c:789-806 | the new request becomes the next one if preferred, and may end the wait |
| AsQueue.Scheduler.UpdateWriteBatch | M6000_froyo_kernel_code/KB70_froyo_GPL/kernel/block/as-iosched.c:811-834 | the write batch is resized and stays positive |
| AsQueue.Scheduler.CompletedRequest | M6000_froyo_kernel_code/KB70_froyo_GPL/kernel/block/as-iosched.c:840-890 | batch, wait and counts after a completion; the invariant is kept |
| AsQueue.Scheduler.MoveToDispatch | M6000_froyo_kernel_code/KB70_froyo_GPL/kernel/block/as-iosched.c:973-1017 | the request leaves both views, the process it belongs to is remembered, the next one is chosen |
| AsQueue.Scheduler.AddRqRb | M6000_froyo_kernel_code/KB70_froyo_GPL/kernel/block/as-iosched.c:263-271 | the loop over aliases ends and equals the specification |
| AsQueue.Scheduler.AddRequest | M6000_froyo_kernel_code/KB70_froyo_GPL/kernel/block/as-iosched.c:1186-1212 | a request enters both views and may break the wait; the invariant is kept |
| AsQueue.Scheduler.MergedRequest | M6000_froyo_kernel_code/KB70_froyo_GPL/kernel/block/as-iosched.c:1263-1280 | a front merge repositions the request |
| AsQueue.Scheduler.MergedRequests | M6000_froyo_kernel_code/KB70_froyo_GPL/kernel/block/as-iosched.c:1282-1303 | the absorbed request leaves both views, an earlier expiry is taken over |
| AsQueue.Scheduler.CheckFifo | M6000_froyo_kernel_code/KB70_froyo_GPL/kernel/block/as-iosched.c:932-951 | the check for an expired request, once per interval |
| AsQueue.Scheduler.DispatchRequest | M6000_froyo_kernel_code/KB70_froyo_GPL/kernel/block/as-iosched.c:1024-1181 | the batch decisions as the specification has them; `BUG` and the `WARN_ON`s on a new batch cannot be reached |
| AsQueue.Scheduler.ForceDispatch | M6000_froyo_kernel_code/KB70_froyo_GPL/kernel/block/as-iosched.c:1031-1057 | returns the number moved |
| AsHistory.ThinktimeBound | M6000_froyo_kernel_code/KB70_froyo_GPL/kernel/block/as-iosched.c:498-511 | if no think time was above T, the decayed total stays within T * (samples + 7) and the samples below 250 |
| AsHistory.MeanBound | M6000_froyo_kernel_code/KB70_froyo_GPL/kernel/block/as-iosched.c:498-511 | so the mean that anticipation uses is at most about a quarter above the longest think time |
| AsHistory.Process.UpdateThinktime | M6000_froyo_kernel_code/KB70_froyo_GPL/kernel/block/as-iosched.c:508-510 | one update in fixed point |
| CfqTheorems.QueuesAgree | M6000_froyo_kernel_code/KB70_froyo_GPL/kernel/block/cfq-iosched.c:654-842 | in every reachable state: `sort_list` and `fifo` of a queue hold the same requests; it has a next request, one of them, exactly when it has any, and exactly then it is on the service tree; `busy_queues` is the size of the tree; `left` is empty or the first node |
| CfqTheorems.ForceOk | M6000_froyo_kernel_code/KB70_froyo_GPL/kernel/block/cfq-iosched.c:1231-1262 | a forced dispatch ends with every queue empty and none busy, so its two `BUG_ON`s cannot fire, and has dispatched as many requests as were queued |
| CfqTheorems.StepKeepsInv | M6000_froyo_kernel_code/KB70_froyo_GPL/kernel/block/cfq-iosched.c:654-959 | insertion with aliases, reposition, merges, dispatch, slice expiry, preemption, creation and freeing of queues keep that invariant and the counters `queued` and `meta_pending` |
| CfqTheorems.DispatchOk | M6000_froyo_kernel_code/KB70_froyo_GPL/kernel/block/cfq-iosched.c:1367-1404 | a dispatch call serves one request of one queue, the oldest if that has expired and the next one if not; or none: when no queue is busy, the active one idles, or a dispatch is not allowed |
| CfqTheorems.SelectOk | M6000_froyo_kernel_code/KB70_froyo_GPL/kernel/block/cfq-iosched.c:1181-1229 | while queues are busy a queue with requests is selected, unless the active one idles |
| CfqTheorems.FreeOk | M6000_froyo_kernel_code/KB70_froyo_GPL/kernel/block/cfq-iosched.c:1412-1432 | a queue freed without requests is not on the service tree: the `BUG_ON`s of `cfq_put_queue` cannot fire |
| CfqService.FirstIsLeast | M6000_froyo_kernel_code/KB70_froyo_GPL/kernel/block/cfq-iosched.c:426-435 | the queue served first comes after no other, real time before best effort before idle and then by key |
| CfqService.ServiceAddOk | M6000_froyo_kernel_code/KB70_froyo_GPL/kernel/block/cfq-iosched.c:492-573 | adding or moving a queue keeps the service tree in order, once per queue, and the cached first node right |
| CfqTurn.TurnIsFirst | M6000_froyo_kernel_code/KB70_froyo_GPL/kernel/block/cfq-iosched.c:1181-1240 | the active queue goes on while its slice lasts and it has requests, or idles; otherwise the queue close by is selected, or else one that comes after no other busy queue by class and by the keys after the old one was given its new key |
| CfqTurn.TurnOver | M6000_froyo_kernel_code/KB70_froyo_GPL/kernel/block/cfq-iosched.c:889-927 | the end of a turn gives the active queue the time and its offset for its key and changes nothing else |
| CfqTurn.SliceEnds | M6000_froyo_kernel_code/KB70_froyo_GPL/kernel/block/cfq-iosched.c:1386-1402 | after a dispatch the queue keeps its turn unless its slice is over and another queue is busy |
| CfqService.FrontIsFirst | M6000_froyo_kernel_code/KB70_froyo_GPL/kernel/block/cfq-iosched.c:492-560 | a queue that preempts is put first if and only if no queue of a better class is first |
| CfqService.IdleIsLast | M6000_froyo_kernel_code/KB70_froyo_GPL/kernel/block/cfq-iosched.c:492-560 | a queue of the idle class is put last |
| CfqService.DelRrOk | M6000_froyo_kernel_code/KB70_froyo_GPL/kernel/block/cfq-iosched.c:668-683 | removal keeps order and cache, and `busy_queues` was positive |
| CfqInvariant.FindNextOk | M6000_froyo_kernel_code/KB70_froyo_GPL/kernel/block/cfq-iosched.c:453-475 | the next request named is another one of the queue, and missing only if there is no other |
| CfqChoice.KindRule | M6000_froyo_kernel_code/KB70_froyo_GPL/kernel/block/cfq-iosched.c:333-412 | a synchronous request is taken before an asynchronous one, and then one for metadata before another |
| CfqChoice.SectorRule | M6000_froyo_kernel_code/KB70_froyo_GPL/kernel/block/cfq-iosched.c:333-412 | the choice in sectors, for requests of the same kind: ahead of the head the lower one, behind it within reach the higher one; one behind before one ahead if and only if its distance times the penalty is smaller; then what is out of reach, the lower one first |
| CfqChoice.ChoiceIsTransitive | M6000_froyo_kernel_code/KB70_froyo_GPL/kernel/block/cfq-iosched.c:333-412 | with `CfqChoice.ChoiceIsTotal`: the choice is a total order on requests that start at different sectors |
| CfqChoice.FindNextExact | M6000_froyo_kernel_code/KB70_froyo_GPL/kernel/block/cfq-iosched.c:453-483 | one of the two neighbours is named, and it is the best of all the other requests if and only if there is none of a better kind and those of its kind next to it are worse, or, if it is out of reach, all of them are and come behind it |
| CfqChoice.NearestMissed | M6000_froyo_kernel_code/KB70_froyo_GPL/kernel/block/cfq-iosched.c:453-483 | a queue for which it is not the best |
| CfqChoice.ArrivalKeepsBest | M6000_froyo_kernel_code/KB70_froyo_GPL/kernel/block/cfq-iosched.c:699-729 | if the next request is the best of its queue it still is after an arrival |
| CfqInvariant.MoveOk | M6000_froyo_kernel_code/KB70_froyo_GPL/kernel/block/cfq-iosched.c:1128-1142 | dispatching a request takes it out of both views, and the queue off the service tree if it was the last |
| CfqInvariant.AddRbOk | M6000_froyo_kernel_code/KB70_froyo_GPL/kernel/block/cfq-iosched.c:703-734 | after the insertion the queue is on the service tree and has a next request |
| CfqQueue.Scheduler.RbFirst | M6000_froyo_kernel_code/KB70_froyo_GPL/kernel/block/cfq-iosched.c:426-435 | the cached first node is looked up again when missing |
| CfqQueue.Scheduler.RbErase | M6000_froyo_kernel_code/KB70_froyo_GPL/kernel/block/cfq-iosched.c:443-448 | erasing the cached node clears the cache |
| CfqQueue.Scheduler.FindPlace | M6000_froyo_kernel_code/KB70_froyo_GPL/kernel/block/cfq-iosched.c:536-567 | the descent ends behind all queues that do not come later; it only went left if the new one is first |
| CfqQueue.Scheduler.ServiceTreeAdd | M6000_froyo_kernel_code/KB70_froyo_GPL/kernel/block/cfq-iosched.c:492-573 | key and place of a queue |
| CfqQueue.Scheduler.AddCfqqRr | M6000_froyo_kernel_code/KB70_froyo_GPL/kernel/block/cfq-iosched.c:654-662 | its `BUG_ON` is the precondition all callers meet |
| CfqQueue.Scheduler.DelCfqqRr | M6000_froyo_kernel_code/KB70_froyo_GPL/kernel/block/cfq-iosched.c:668-683 | its `BUG_ON`s cannot fire |
| CfqQueue.Scheduler.RemoveRequest | M6000_froyo_kernel_code/KB70_froyo_GPL/kernel/block/cfq-iosched.c:786-801 | a request leaves both views and the counters |
| CfqQueue.Scheduler.DispatchInsert | M6000_froyo_kernel_code/KB70_froyo_GPL/kernel/block/cfq-iosched.c:1128-1142 | a request is moved to the dispatch queue |
| CfqQueue.Scheduler.AddRqRb | M6000_froyo_kernel_code/KB70_froyo_GPL/kernel/block/cfq-iosched.c:703-734 | the loop over aliases ends; the final `BUG_ON` cannot fire |
| CfqQueue.Scheduler.InsertRequest | M6000_froyo_kernel_code/KB70_froyo_GPL/kernel/block/cfq-iosched.c:2160-2174 | a request enters both views; the invariant is kept |
| CfqQueue.Scheduler.RepositionRqRb | M6000_froyo_kernel_code/KB70_froyo_GPL/kernel/block/cfq-iosched.c:736-741 | a front merge repositions the request |
| CfqQueue.Scheduler.MergedRequests | M6000_froyo_kernel_code/KB70_froyo_GPL/kernel/block/cfq-iosched.c:828-842 | the absorbed request leaves |
| CfqQueue.Scheduler.SliceExpired | M6000_froyo_kernel_code/KB70_froyo_GPL/kernel/block/cfq-iosched.c:892-928 | the active queue is put where it belongs now, and none is active |
| CfqQueue.Scheduler.SetActiveQueue | M6000_froyo_kernel_code/KB70_froyo_GPL/kernel/block/cfq-iosched.c:945-959 | the given queue, or the first of the tree |
| CfqQueue.Scheduler.PreemptQueue | M6000_froyo_kernel_code/KB70_froyo_GPL/kernel/block/cfq-iosched.c:2092-2107 | its `BUG_ON` cannot fire for a queue with requests |
| CfqQueue.Scheduler.SelectQueue | M6000_froyo_kernel_code/KB70_froyo_GPL/kernel/block/cfq-iosched.c:1181-1229 | the queue selected has requests |
| CfqQueue.Scheduler.DispatchRequests | M6000_froyo_kernel_code/KB70_froyo_GPL/kernel/block/cfq-iosched.c:1367-1404 | as the specification has it |
| CfqQueue.Scheduler.ForcedDispatchCfqq | M6000_froyo_kernel_code/KB70_froyo_GPL/kernel/block/cfq-iosched.c:1231-1242 | the inner loop empties the queue; its `BUG_ON` cannot fire |
| CfqQueue.Scheduler.ForcedDispatch | M6000_froyo_kernel_code/KB70_froyo_GPL/kernel/block/cfq-iosched.c:1248-1262 | returns the number of requests that were queued |
| BlkTag.TagMap.FindTag | M6000_froyo_kernel_code/KB70_froyo_GPL/kernel/include/linux/blkdev.h:995-1001 | the request that carries a tag is found, and no other |
| BlkTag.TagMap.StartTag | M6000_froyo_kernel_code/KB70_froyo_GPL/kernel/block/blk-tag.c:336-383 | the lowest free tag below the limit is taken; a request is refused exactly when there is none or too many asynchronous ones are in flight; at a depth of three or more that was not reduced a synchronous one is refused only while synchronous ones hold two tags |
| BlkTag.TagMap.EndTag | M6000_froyo_kernel_code/KB70_froyo_GPL/kernel/block/blk-tag.c:281-315 | exactly that tag is given back; neither of the warned-of states can occur |
| BlkTag.TagMap.Resize | M6000_froyo_kernel_code/KB70_froyo_GPL/kernel/block/blk-tag.c:219-264 | every tag in flight stays findable, by shrinking in place or by copying to a larger map; shrinking keeps the reserve if and only if no asynchronous request holds a tag at or above its new limit; the copy does not fit exactly when `nr_requests` is below half of the present real depth |
| BlkTag.TagMap.Detach | M6000_froyo_kernel_code/KB70_froyo_GPL/kernel/block/blk-tag.c:35-54 | when the last user frees the map no bit of it is set |
| BlkTag.TagMap.InvalidateTags | M6000_froyo_kernel_code/KB70_froyo_GPL/kernel/block/blk-tag.c:398-404 | all requests of the queue lose their tags and stand at the front in the order in which they started |
| BlkTag.LimitKeepsTwo | M6000_froyo_kernel_code/KB70_froyo_GPL/kernel/block/blk-tag.c:347-361 | of a depth of three or more two tags are kept from asynchronous requests, of two one, of one none |
| BlkTag.TopTagsAreSync | M6000_froyo_kernel_code/KB70_froyo_GPL/kernel/block/blk-tag.c:347-361 | when every tag is taken the top two are held by synchronous requests |
| BlkTag.ShrinkRefusesSync | M6000_froyo_kernel_code/KB70_froyo_GPL/kernel/block/blk-tag.c:228-238 | at every depth: asynchronous requests take all they may, the depth is reduced, and a synchronous request is refused although none holds a tag |
| BlkTag.TagTaken | M6000_froyo_kernel_code/KB70_froyo_GPL/kernel/block/blk-tag.c:363-380 | a bit of the map is set exactly when the index holds the one request with that tag: kept by taking a tag |
| BlkTag.TagGiven | M6000_froyo_kernel_code/KB70_froyo_GPL/kernel/block/blk-tag.c:296-315 | the same for giving it back |
| CamelliaAbsorb.AbsorptionKeepsCipher | M6000_froyo_kernel_code/KB70_froyo_GPL/kernel/crypto/camellia.c:381-452 | pushing kw2 and kw4 through the rounds and FL layers does not change the cipher, for any subkeys, 18 and 24 rounds |
| Camellia.FoldingKeepsCipher | M6000_froyo_kernel_code/KB70_froyo_GPL/kernel/crypto/camellia.c:453-578 | moving key additions behind the F-functions, with half of P inverted into the keys, does not change the cipher |
| Camellia.EncryptIsCipher | M6000_froyo_kernel_code/KB70_froyo_GPL/kernel/crypto/camellia.c:887-940 | the encryption with such a table is the cipher of sections 2.3 and 2.4 of RFC 3713 |
| Camellia.DecryptUndoesEncrypt | M6000_froyo_kernel_code/KB70_froyo_GPL/kernel/crypto/camellia.c:942-995 | decryption undoes encryption for every subkey table |
| Camellia.LookupsAreSP | M6000_froyo_kernel_code/KB70_froyo_GPL/kernel/crypto/camellia.c:870-886 | the eight table lookups, combined, are the S-boxes followed by P |
| Camellia.RoundAddsKeyLast | M6000_froyo_kernel_code/KB70_froyo_GPL/kernel/crypto/camellia.c:870-886 | with half of P inverted into its key a round adds the key after P |
| CamelliaSetup.SetupTail | M6000_froyo_kernel_code/KB70_froyo_GPL/kernel/crypto/camellia.c:381-578 | the table filled in place makes the encryption the RFC's cipher on the subkeys that were there |
| CamelliaInPlace.EncryptInPlace | M6000_froyo_kernel_code/KB70_froyo_GPL/kernel/crypto/camellia.c:887-940 | the in-place loop equals the specification |
| CamelliaInPlace.DecryptInPlace | M6000_froyo_kernel_code/KB70_froyo_GPL/kernel/crypto/camellia.c:942-995 | the in-place loop equals the specification |
| CamelliaSchedule.RolDQIsRot | M6000_froyo_kernel_code/KB70_froyo_GPL/kernel/crypto/camellia.c:340-347 | the packed rotation is rotation of the 128-bit quantity |
| CamelliaSchedule.RolDQo32IsRot | M6000_froyo_kernel_code/KB70_froyo_GPL/kernel/crypto/camellia.c:349-356 | the same for rotations by more than 32 bits |
| CamelliaSchedule.ApplyF | M6000_froyo_kernel_code/KB70_froyo_GPL/kernel/crypto/camellia.c:359-376 | the F-function of section 2.4.1 of RFC 3713 |
| CamelliaSchedule.MakeKA128 | M6000_froyo_kernel_code/KB70_froyo_GPL/kernel/crypto/camellia.c:598-640 | KA of section 2.2 of RFC 3713 for a 128-bit key |
| CamelliaSchedule.MakeKA256 | M6000_froyo_kernel_code/KB70_froyo_GPL/kernel/crypto/camellia.c:712-759 | KA for longer keys |
| CamelliaSchedule.MakeKB | M6000_froyo_kernel_code/KB70_froyo_GPL/kernel/crypto/camellia.c:761-772 | KB for longer keys |
| CamelliaKey.Subkeys128 | M6000_froyo_kernel_code/KB70_froyo_GPL/kernel/crypto/camellia.c:580-684 | the chain of rotations yields the RFC's subkeys |
| CamelliaKey.Subkeys256 | M6000_froyo_kernel_code/KB70_froyo_GPL/kernel/crypto/camellia.c:686-833 | the chain of rotations yields the RFC's subkeys |
| CamelliaKey.Extended192 | M6000_froyo_kernel_code/KB70_froyo_GPL/kernel/crypto/camellia.c:835-848 | a 192-bit key is extended with the complement of its last 64 bits |
| CamelliaKey.Context.SetKey | M6000_froyo_kernel_code/KB70_froyo_GPL/kernel/crypto/camellia.c:1003-1031 | accepts exactly the three key lengths |
| CamelliaKey.Context.EncryptBlock | M6000_froyo_kernel_code/KB70_froyo_GPL/kernel/crypto/camellia.c:1033-1055 | 16 bytes are encrypted as RFC 3713 prescribes for the key set |
| CamelliaKey.Context.DecryptBlock | M6000_froyo_kernel_code/KB70_froyo_GPL/kernel/crypto/camellia.c:1057-1079 | the plaintext of which the 16 bytes are the ciphertext comes back |
| AesKey.DecryptUndoesEncrypt | M6000_froyo_kernel_code/KB70_froyo_GPL/kernel/crypto/aes_generic.c:1401-1440 | decryption undoes encryption for every 16-, 24- and 32-byte key and every block |
| AesCipher.InvCipherUndoesCipher | M6000_froyo_kernel_code/KB70_froyo_GPL/kernel/crypto/aes_generic.c:1401-1440 | the inverse cipher of section 5.3 of FIPS 197 undoes the cipher |
| AesCipher.InvMixOfMix | M6000_froyo_kernel_code/KB70_froyo_GPL/kernel/crypto/aes_generic.c:1130-1139 | InvMixColumns undoes MixColumns |
| Aes.StarDoublesBytes | M6000_froyo_kernel_code/KB70_froyo_GPL/kernel/crypto/aes_generic.c:1128-1128 | the packed `star_x` doubles each of four bytes in GF(2^8), section 4.2.1 of FIPS 197 |
| Aes.ImixIsInvMix | M6000_froyo_kernel_code/KB70_froyo_GPL/kernel/crypto/aes_generic.c:1130-1139 | `imix_col` is InvMixColumns of a column |
| Aes.FNRound | M6000_froyo_kernel_code/KB70_froyo_GPL/kernel/crypto/aes_generic.c:1300-1312 | the table round is SubBytes, ShiftRows, MixColumns and AddRoundKey |
| Aes.FLRound | M6000_froyo_kernel_code/KB70_froyo_GPL/kernel/crypto/aes_generic.c:1315-1327 | the last round leaves MixColumns out |
| Aes.INRound | M6000_froyo_kernel_code/KB70_froyo_GPL/kernel/crypto/aes_generic.c:1372-1384 | the inverse table round of the equivalent inverse cipher |
| Aes.ILRound | M6000_froyo_kernel_code/KB70_froyo_GPL/kernel/crypto/aes_generic.c:1387-1399 | the last inverse round |
| AesKey.ExpandEnc | M6000_froyo_kernel_code/KB70_froyo_GPL/kernel/crypto/aes_generic.c:1147-1244 | the three loops compute the key expansion of section 5.2 of FIPS 197 |
| AesKey.FillDec | M6000_froyo_kernel_code/KB70_froyo_GPL/kernel/crypto/aes_generic.c:1246-1262 | the decryption keys are the reversed schedule passed through InvMixColumns, section 5.3.5 of FIPS 197 |
| AesKey.EncryptRounds | M6000_froyo_kernel_code/KB70_froyo_GPL/kernel/crypto/aes_generic.c:1329-1368 | all rounds of the cipher |
| AesKey.DecryptRounds | M6000_froyo_kernel_code/KB70_froyo_GPL/kernel/crypto/aes_generic.c:1401-1440 | all rounds of the equivalent inverse cipher undo those of the cipher |
| AesKey.Context.ExpandKey | M6000_froyo_kernel_code/KB70_froyo_GPL/kernel/crypto/aes_generic.c:1216-1268 | accepts exactly the three key lengths and fills both schedules |
| AesKey.Context.EncryptBlock | M6000_froyo_kernel_code/KB70_froyo_GPL/kernel/crypto/aes_generic.c:1329-1368 | 16 bytes are encrypted as FIPS 197 prescribes |
| AesKey.Context.DecryptBlock | M6000_froyo_kernel_code/KB70_froyo_GPL/kernel/crypto/aes_generic.c:1401-1440 | 16 bytes are decrypted as FIPS 197 prescribes |
| CbcMode.DecryptUndoesEncrypt | M6000_froyo_kernel_code/KB70_froyo_GPL/kernel/crypto/cbc.c:90-191 | decryption undoes encryption in CBC mode, section 6.2 of NIST SP 800-38A |
| CbcMode.ChunksEncryptAlike | M6000_froyo_kernel_code/KB70_froyo_GPL/kernel/crypto/cbc.c:90-112 | encrypting block-multiple chunks with the IV carried over equals one pass |
| CbcMode.ChunksDecryptAlike | M6000_froyo_kernel_code/KB70_froyo_GPL/kernel/crypto/cbc.c:169-191 | the same for decryption |
| CbcMode.RoundTripAcrossChunks | M6000_froyo_kernel_code/KB70_froyo_GPL/kernel/crypto/cbc.c:90-191 | decryption undoes encryption across different chunkings |
| Cbc.CryptoXor | M6000_froyo_kernel_code/KB70_froyo_GPL/kernel/crypto/algapi.c:891-906 | word by word and byte by byte is the exclusive or of the whole |
| Cbc.EncryptInPlace | M6000_froyo_kernel_code/KB70_froyo_GPL/kernel/crypto/cbc.c:66-88 | the in-place loop: ciphertext, carried IV, untouched tail |
| Cbc.EncryptSegment | M6000_froyo_kernel_code/KB70_froyo_GPL/kernel/crypto/cbc.c:42-64 | the segment loop gives the same ciphertext, IV and tail |
| Cbc.DecryptSegment | M6000_froyo_kernel_code/KB70_froyo_GPL/kernel/crypto/cbc.c:114-138 | the forward loop: plaintext, carried IV, untouched tail |
| Cbc.DecryptInPlace | M6000_froyo_kernel_code/KB70_froyo_GPL/kernel/crypto/cbc.c:140-167 | the backward in-place loop gives the same plaintext, IV and tail |
| CcmMode.AbsorbedAppend | M6000_froyo_kernel_code/KB70_froyo_GPL/kernel/crypto/ccm.c:164-201 | absorbing data piece by piece with a buffer equals absorbing it at once |
| CcmMode.FinishedIsMac | M6000_froyo_kernel_code/KB70_froyo_GPL/kernel/crypto/ccm.c:203-243 | with the final padding that is the CBC-MAC of the zero-padded data, section 2.2 of RFC 3610 |
| CcmMode.LengthFieldFaithful | M6000_froyo_kernel_code/KB70_froyo_GPL/kernel/crypto/ccm.c:58-74 | the length field holds the message length if and only if that is below 2^(8L); the code also accepts 2^(8L) and stores zero |
| CcmMode.OpensExactlySealed | M6000_froyo_kernel_code/KB70_froyo_GPL/kernel/crypto/ccm.c:372-429 | a ciphertext is the sealed form of a text exactly when that text is its decryption and the tag belongs to it |
| Ccm.Request.ComputeMac | M6000_froyo_kernel_code/KB70_froyo_GPL/kernel/crypto/ccm.c:164-201 | the buffered MAC after any piece |
| Ccm.Request.GetData | M6000_froyo_kernel_code/KB70_froyo_GPL/kernel/crypto/ccm.c:203-243 | the MAC of data does not depend on how it is split into pieces |
| Ccm.Request.SetMsgLen | M6000_froyo_kernel_code/KB70_froyo_GPL/kernel/crypto/ccm.c:58-74 | the length in the last L octets, refused exactly above 2^(8L) |
| Ccm.Request.FormatInput | M6000_froyo_kernel_code/KB70_froyo_GPL/kernel/crypto/ccm.c:123-143 | the first block of section 2.2 of RFC 3610 |
| Ccm.Request.FormatAdata | M6000_froyo_kernel_code/KB70_froyo_GPL/kernel/crypto/ccm.c:145-162 | the encoded length of the additional data |
| Ccm.Request.Auth | M6000_froyo_kernel_code/KB70_froyo_GPL/kernel/crypto/ccm.c:245-278 | the authentication value of RFC 3610, however both inputs are split |
| Ccm.Request.Encrypt | M6000_froyo_kernel_code/KB70_froyo_GPL/kernel/crypto/ccm.c:302-353 | the sealed message of sections 2.3 and 2.4 of RFC 3610, or the right error |
| Ccm.Request.Decrypt | M6000_froyo_kernel_code/KB70_froyo_GPL/kernel/crypto/ccm.c:372-429 | a plaintext is returned if and only if the input is its sealed form |
| Ccm.RoundTrip | M6000_froyo_kernel_code/KB70_froyo_GPL/kernel/crypto/ccm.c:302-429 | what was encrypted decrypts to the plaintext and its tag is accepted |
| AlgName.ParseExact | M6000_froyo_kernel_code/KB70_froyo_GPL/kernel/crypto/algboss.c:113-179 | a name is read if and only if it starts with the printed form of a template and of 1 to 31 arguments with balanced groups, and then these are returned: no other reading exists |
| AlgName.ParsePrinted | M6000_froyo_kernel_code/KB70_froyo_GPL/kernel/crypto/algboss.c:113-179 | the parser undoes the printer for every nesting |
| AlgName.InstanceNameParses | M6000_froyo_kernel_code/KB70_froyo_GPL/kernel/crypto/algapi.c:733-761 | every name an instance is given is read back, whatever its number of arguments |
| AlgName.NamesFit | M6000_froyo_kernel_code/KB70_froyo_GPL/kernel/crypto/algboss.c:120-169 | a name that fits `cra_name` never reaches the limit on arguments, and every part fits its buffer |
| AlgName.TrailingIgnored | M6000_froyo_kernel_code/KB70_froyo_GPL/kernel/crypto/algboss.c:171-179 | what follows the closing parenthesis is not looked at |
| Algboss.SkipWord | M6000_froyo_kernel_code/KB70_froyo_GPL/kernel/crypto/algboss.c:129-130 | the loop over a word |
| Algboss.SkipGroup | M6000_froyo_kernel_code/KB70_froyo_GPL/kernel/crypto/algboss.c:132-143 | the nesting counter finds the parenthesis that closes the group, or the end of the name |
| Algboss.ReadArgument | M6000_froyo_kernel_code/KB70_froyo_GPL/kernel/crypto/algboss.c:126-163 | an argument is typed as a number exactly when it is all digits |
| Algboss.ScheduleProbe | M6000_froyo_kernel_code/KB70_froyo_GPL/kernel/crypto/algboss.c:113-182 | the whole probe equals the parser |
| Algboss.NumberRead | M6000_froyo_kernel_code/KB70_froyo_GPL/kernel/crypto/algboss.c:161-162 | a number below 2^32 is read as the decimal number it is if and only if it has no leading zero or is below 8 |
| Algboss.LeadingZero | M6000_froyo_kernel_code/KB70_froyo_GPL/kernel/crypto/algboss.c:161-162 | inputs at which it is not: 010 is read as 8 and 08 as 0 |
| Algapi.Inc | M6000_froyo_kernel_code/KB70_froyo_GPL/kernel/crypto/algapi.c:862-888 | the counter goes up by one as a big-endian number, modulo 256 to its length |
| Algapi.CarryStops | M6000_froyo_kernel_code/KB70_froyo_GPL/kernel/crypto/algapi.c:862-888 | octets that go up by one in front of octets that wrapped are an increment of the whole |
| Algapi.CryptoQueue.Enqueue | M6000_froyo_kernel_code/KB70_froyo_GPL/kernel/crypto/algapi.c:802-820 | beyond the limit a request is queued only if it may wait; the backlog starts at the first such one |
| Algapi.CryptoQueue.Dequeue | M6000_froyo_kernel_code/KB70_froyo_GPL/kernel/crypto/algapi.c:823-840 | the request reported from the backlog is the one that moves up among those within the limit |

## Left out

- Unplugging and the re-entry of `request_fn` from `elv_insert`: the driver acts on its own, at any time.
- The order in which a device executes tagged commands: in tag mode only the life of a sequence is covered, not ordering.
- `prep_rq_fn` in `blk_peek_request`, timeouts, and `in_flight` by direction (the barrier model keeps the sum).
- Requests that pass barriers because they are no file system requests are only allowed to pass; nothing is said about their order.
- `REQ_FUA` on the proxy of a barrier: the mode of the sequence keeps the flag, the request does not carry it.
- Drain buffers and padding in `blk_rq_map_sg`, and bounce buffers beyond the rule that a high page stands alone.
- Integrity data, statistics, congestion and the sleeping in `get_request`.
- BlkMerge.Request.FrontMerge: bios without data are excluded, for the same reason as in a back merge.
- BlkMerge.Request.BackMerge: bios without data are excluded, because a request that ends or begins with one keeps no size of its outer segment, and a later merge may then count wrongly (`BlkMerge.DatalessTailExact` says when); the callers never merge such bios.
- BlkCore.Request.UpdateRequest: covers requests other than the proxy of a barrier, whose parts `RequestQueue.BlockQueue.EndPart` covers, and bios whose size is the length of their pieces; that leaves out the discards of `blkdev_issue_discard`, whose size goes beyond a payload of one sector.
- DeadlineService.BoundedService: excludes runs in which a write of the same expiry absorbs the write from further behind; `DeadlineAbsorb.AbsorptionBreaksBound` gives runs without any bound by place, and `DeadlineService.BoundedServiceByExpiry` bounds these too.
- The counts and statistics by which the anticipatory scheduler judges a process (requests queued and not started, think time, mean seek distance, exit probability) enter as an arbitrary answer; the distance test is modelled, and so are the think time averages. Request states are not modelled.
- AsQueue.Scheduler.MergedRequest: that a read never finds a front merge, since `as_merge` looks it up by data direction in lists kept by synchronicity, is not modelled.
- CfqTheorems.DispatchOk: slice lengths, idle windows, seek statistics and depth limits enter as arbitrary answers, so which queue is served when is not stated; priority trees are left out, and a queue found close by is taken to be on the service tree; a queue keeps its priority class while it is on the tree.
- Cfq reference counts, io contexts and their freeing by RCU.
- BlkTag.TagMap.Resize: where the copy would write past the end of the new index the model stops with an error of its own, and the damage is not modelled.
- BlkTag.TagMap.StartTag: the retry after a lost race for a bit does not occur, as each call is one step.
- Camellia's arrays `subL` and `subR` are one array of pairs.
- The scatterlist walks of the crypto layer (`scatterwalk`, `blkcipher_walk`, `ablkcipher`): CBC works on the chunks a walk would deliver, CCM on lists of pieces; the counter mode below CCM is an arbitrary key stream.
- Ccm.Request.Encrypt: asynchronous completion and the copying of the tag by `crypto_ccm_encrypt_done` are not modelled.
- The kernel thread, module references and allocation failures of the probe.
- `Algboss.StrToLong` reads digits only: the hexadecimal and signed forms of `simple_strtol` cannot occur there.
- The minimum of the timers in `blk-timeout.c`, `crypto_remove_spawns`, the pseudo random generator, and the ciphers whose round trips repeat an argument given here.
