# GPU simulator: verified models of its memory system, dispatch and warp state

The simulator models a small SIMT processor: four warps of four lanes, a data cache in front of a
backing memory, CTA dispatch with clusters and barriers, and a warp state that is updated by
effect bundles. This project models the parts where correctness is spread over many steps and
proves what those parts promise over every run.

## What is modelled

**The write-back cache and its memory ports** (`timing/memsys`). A cache bank is a clocked state
machine: two pipeline registers, a FIFO-replacement array, miss registers with linked replay
chains and generation-tagged slots, fill forwarding, bounded queues with stalls, a reset scan and a
flush walk. Geometry and queue sizes are symbolic, under the constraints the source checks. The
main result is agreement with plain memory: in every reachable state the line seen by the core
equals the initial memory with the performed stores applied in order, every load answer is a word
of that memory at a moment between its acceptance and its answer, every request is answered once,
and a flush reply means that the backing bytes are that memory. Below the bank are the FIFO backend
with its round robin, and the bridge to an external DRAM library with per-bank order. Above it are
the SIMD split, the coalescer and the word adapter, each alone and connected as the memory system
connects them: as long as the parties around them keep their own protocol, no check of the three
ever fails, and every word answered reaches the lanes it left with.

**Dispatch** (`emu/core`, `emu/device`). Launch validation, the grid walker and its two-level
mixed-radix order, all-or-nothing cluster admission, the first-fit local-memory allocator with the
isolation it gives each CTA, the kernel run loop with its conservation laws, and barriers with
arrivals, waiters, events and phases.

**Warp state** (`emu/state`, `isa/custom.go`). SPLIT and JOIN evaluated in one package and applied
in another, effect bundles staged as transactions, bundles delivered piece by piece in any order,
the PC frontier of an effect stream, and packed loads whose elements come back separately.

Objects the source updates in place are classes whose methods are proved against specification
functions; the theorems are lemmas about those functions and about the runs built from them.
Loops of the source are methods with loops. The layout follows the source: one module for a
component's state and step, one for what its runs keep, and one for the class.

Three promises turned out to hold only under a condition, and the exact condition is proved:

- A flush walks every set and way once if and only if the reset scan was over when the flush
  pulse arrived. A pulse during the scan is acknowledged by the scan itself with no slot walked
  (`CacheBankWalk.WalksEachSlotOnce`, `CacheBankWalk.ScanAnswersFlush`). Either way the bank ends
  without a line.
- Delivering a bundle by parts ends in the whole commit in every order if and only if the bundle
  raises no flag that its own software write of the flags field leaves clear
  (`EffectTheorems.OrderFreeExactly`, `EffectTheorems.ClearedFlagShowsOrder`).
- A store is refused for its order if and only if its order can be seen, for stores that may
  merge. For a store that forbids merging the refusal is only sufficient: it is without need if and
  only if no byte is written by both ports with different last values
  (`CoalescingOrder.RefusedWhenOrderShows`, `CoalescingOrder.RefusedWithoutNeed`).

## Model

| member | source | states |
|---|---|---|
| `CacheGeometry.AddressRoundTrip` | timing/memsys/cache_spec.go:129-139 | for every owned address, the set and tag decoded from it encode back to its own line |
| `CacheGeometry.SameLine` | timing/memsys/cache_spec.go:129-136 | all bytes of one line decode to the same bank, set and tag |
| `CacheGeometry.TagSeparates` | timing/memsys/cache_spec.go:129-139 | two different owned lines of one set have different tags, so a tag match is a line match |
| `CacheGeometry.AlignedOffset` | timing/memsys/cache_spec.go:129-136 | an aligned word starts at its own byte offset in its line |
| `CacheArrays.LookupMeans` | timing/memsys/cache_array.go:62-80 | a lookup succeeds exactly when the abstract view holds the line, and names that line's way |
| `CacheArrays.ReadMeans` | timing/memsys/cache_array.go:81-90 | a read hits exactly the resident lines and returns the addressed word of the line |
| `CacheArrays.WriteMeans` | timing/memsys/cache_array.go:91-112 | a write hits exactly the resident lines, merges its enabled bytes and marks the line dirty; a miss changes nothing |
| `CacheArrays.VictimMeans` | timing/memsys/cache_array.go:116-119 | what a slot's eviction carries is exactly the dirty line that was in it, with its own address and bytes |
| `CacheArrays.FillMeans` | timing/memsys/cache_array.go:120-140 | filling an absent line replaces at most one line; it evicts that line exactly when it was dirty, with its bytes |
| `CacheArrays.FlushMeans` | timing/memsys/cache_array.go:144-149 | flushing a way removes exactly that slot's line and evicts it exactly when dirty |
| `CacheArrays.FlushSetMeans` | timing/memsys/cache_bank.go:275-283 | the loop that clears a read-only set empties all its ways and touches no other set |
| `CacheArrayClass.CacheArray.constructor` | timing/memsys/cache_array.go:48-54 | a new array is the empty array of the model |
| `CacheArrayClass.CacheArray.InitSet` | timing/memsys/cache_array.go:57-61 | in place: the set is cleared and marked initialized, nothing else changes |
| `CacheArrayClass.CacheArray.Lookup` | timing/memsys/cache_array.go:62-80 | the way found, or the error of a foreign address or an uninitialized set, exactly as the specification function says |
| `CacheArrayClass.CacheArray.Read` | timing/memsys/cache_array.go:81-90 | reply and hit flag of the specification; the array is not changed |
| `CacheArrayClass.CacheArray.Write` | timing/memsys/cache_array.go:91-112 | in place: the specified array and hit flag; refused writes change nothing |
| `CacheArrayClass.CacheArray.Fill` | timing/memsys/cache_array.go:120-140 | in place: the specified array, FIFO pointer and eviction |
| `CacheArrayClass.CacheArray.FlushWay` | timing/memsys/cache_array.go:144-149 | in place: the slot is emptied and its eviction returned |
| `CacheArrayClass.CacheArray.FlushSet` | timing/memsys/cache_bank.go:278-282 | the loop over a read-only set's ways ends in the specified array |
| `CacheArrayClass.MergeBytes` | timing/memsys/cache_array.go:102-110 | the byte loop of a store yields the specified merge of line and enabled bytes |
| `CacheMissRegisters.CacheMSHR.constructor` | timing/memsys/cache_mshr.go:45 | an empty table of miss registers |
| `CacheMissRegisters.CacheMSHR.Step` | timing/memsys/cache_mshr.go:88-197 | either every event check passes and table, replay head and free slot are the specified next ones, or an error and no change |
| `CacheMissRegisters.CacheMSHR.Check` | timing/memsys/cache_mshr.go:88-140 | accepts exactly the events the specification allows |
| `CacheMissRegisters.CacheMSHR.Advance` | timing/memsys/cache_mshr.go:141-164 | one pass over the old table gives the specified table and head after finalize, dequeue, fill and allocate |
| `CacheMissRegisters.CacheMSHR.FindPredecessor` | timing/memsys/cache_mshr.go:165-182 | the predecessor of an allocation is the first slot that holds an unlinked entry of its line, in the old table with this edge's link applied |
| `CacheMissRegisters.Link` | timing/memsys/cache_mshr.go:156-164 | linking an entry to its predecessor changes that one successor field |
| `CacheMissRegisters.FindFree` | timing/memsys/cache_mshr.go:188-194 | the registered free slot is the lowest free one, and readiness says whether there is one |
| `CacheMissRegisters.NotFull` | timing/memsys/cache_mshr.go:46-54 | fewer live entries than slots means a free slot exists |
| `CacheChains.PredecessorIsTail` | timing/memsys/cache_mshr.go:165-187 | the predecessor found in the old table is the tail of the line's chain once the edge's finalization is applied |
| `CacheChains.StartChain` | timing/memsys/cache_mshr.go:143-145 | the fill of a waiting chain makes its root the replay head and starts its replay |
| `CacheChains.FinalizeWant` | timing/memsys/cache_mshr.go:156-164 | finalizing a miss changes what waits for memory only when it starts a new chain |
| `CacheMemorySide.WriteHit` | timing/memsys/cache_bank.go:251-267 | a store that meets its line merges exactly its enabled bytes into that line of the logical memory, changes no other line, and keeps the memory-side invariant |
| `CacheMemorySide.Evict` | timing/memsys/cache_bank.go:268-285 | dropping lines, the dirty one sent back to memory, changes no byte of the logical memory |
| `CacheMemorySide.Install` | timing/memsys/cache_bank.go:268-274 | a good fill installs bytes the logical memory already held |
| `CacheMemorySide.ServiceWrite` | timing/memsys/backend.go:154-208 | serving the oldest writeback moves its bytes into the backing store and changes no byte of the logical memory |
| `CacheMemorySide.ServiceRead` | timing/memsys/backend.go:154-208 | a good answer to the oldest line read is that line of the logical memory; good or failed, it changes no byte of the logical memory and keeps the memory-side invariant |
| `CacheBankExecute.AccessTurnContents` | timing/memsys/cache_bank.go:251-267 | a core or replay access in the pipeline changes the logical memory by exactly its store's enabled bytes, and not at all for a load or a miss |
| `CacheBankExecute.GoodFillTurn` | timing/memsys/cache_bank.go:268-274 | a good fill in the pipeline keeps the whole invariant and sends a dirty occupant back |
| `CacheBankExecute.FlushTurn` | timing/memsys/cache_bank.go:275-283 | flushing a slot keeps the invariant and changes no byte of the logical memory |
| `CacheBankExecute.ExecuteKeeps` | timing/memsys/cache_bank.go:243-285 | whatever the pipeline register holds, its turn at the array keeps the invariant |
| `CacheBankEdge.EventsAllowed` | timing/memsys/cache_bank.go:151-221 | from every invariant state the miss registers accept the bank's events, unless a slot is out of generations |
| `CacheBankEdge.SysEdgeIsStep` | timing/memsys/cache_bank.go:112-342 | the bank of a run's edge, built stage by stage with its records, is the bank of the specified step |
| `CacheBankFlush.NextFlushFromRest` | timing/memsys/cache_bank.go:305-340 | from rest a flush can only wait, start its walk at index zero, or be acknowledged by the reset scan |
| `CacheBankFlush.EdgeKeeps` | timing/memsys/cache_bank.go:112-342 | one edge with any permitted inputs keeps the bank's invariant |
| `CacheBankRuns.InvariantAt` | timing/memsys/cache_bank.go:112-342 | every state of every run of edges, services and other banks' writes satisfies the invariant |
| `CacheBankTheorems.LogicalMemory` | timing/memsys/cache_bank.go:154-294 | in every reachable state every line (resident, else in flight, else backing) equals the initial memory with the performed stores applied in order |
| `CacheBankTheorems.OnlyStoresChange` | timing/memsys/cache_bank.go:243-294 | a step changes what the core sees only if a store meets its line in it, and then only in that store's enabled bytes |
| `CacheBankTheorems.NoInternalError` | timing/memsys/cache_bank.go:113-294 | in every reachable state every input the clients may present runs without an internal error, except generation exhaustion, characterized exactly |
| `CacheBankTheorems.RunsAreSteps` | timing/memsys/cache_bank.go:112-342 | a run starts in a new bank, the object's step reports no error on any of its edges and leaves the bank the run says, and nothing but an edge moves the bank |
| `CacheBankTheorems.MissChains` | timing/memsys/cache_mshr.go:88-197 | in every reachable state the live registers form one chain per missing line with one root and one fetch, and the reservation count is the occupancy plus the operation in s0 |
| `CacheBankTheorems.LoadsReadMemory` | timing/memsys/cache_bank.go:154-300 | every error-free load answer is the addressed word of the logical memory at some state strictly between its acceptance and its answer |
| `CacheBankTheorems.ExactlyOnce` | timing/memsys/cache_bank.go:154-300 | no accepted request is answered twice, every answer is to an accepted request, and an idle bank has answered all of them |
| `CacheBankTheorems.AcceptedBeforeAnswered` | timing/memsys/cache_bank.go:154-207 | the edge that answers a request comes after the edge that accepted it |
| `CacheBankTheorems.DeliveredInOrder` | timing/memsys/cache_bank.go:134-149 | the core receives exactly the load answers given, in order; the rest wait in a queue within its bound |
| `CacheBankTheorems.WalkIsBijection` | timing/memsys/cache_bank.go:202-203 | the walk index meets each set and way exactly once |
| `CacheBankTheorems.FlushDoneMeans` | timing/memsys/cache_bank.go:305-340 | a bank that reports its flush done owes no miss; once its last slot left s0 it holds no line, and drained, its backing bytes are the logical memory |
| `CacheBankWalk.WalksEachSlotOnce` | timing/memsys/cache_bank.go:305-340 | between a flush pulse and its done report the slots flushed are every slot once, in order, if and only if the reset scan was over at the pulse; otherwise none is |
| `CacheBankWalk.ScanAnswersFlush` | timing/memsys/cache_bank.go:333-340 | on every configuration a pulse during the reset scan is reported done with no slot walked, so walking every slot is not unconditional |
| `CacheBankClass.CacheBank.constructor` | timing/memsys/cache_bank.go:91-93 | a new bank is the reset bank of the model |
| `CacheBankClass.CacheBank.CheckInput` | timing/memsys/cache_bank.go:113-132 | accepts exactly the inputs the specification allows |
| `CacheBankClass.CacheBank.DecideCommit` | timing/memsys/cache_bank.go:144-176 | what s1 commits: reply, receipt, memory request and stall, as specified |
| `CacheBankClass.CacheBank.Forward` | timing/memsys/cache_bank.go:177-189 | whether the replay head takes the latest fill directly, and its answer |
| `CacheBankClass.CacheBank.Select` | timing/memsys/cache_bank.go:190-214 | the operation entering s0: reset scan, replay, fill, flush, core, in this priority |
| `CacheBankClass.CacheBank.Execute` | timing/memsys/cache_bank.go:243-285 | s0 meets the array in place; an error exactly when the array refuses it or a replay misses |
| `CacheBankClass.CacheBank.AdvanceFlush` | timing/memsys/cache_bank.go:305-340 | the flush state machine, from the old edge's predicates |
| `CacheBankClass.CacheBank.Step` | timing/memsys/cache_bank.go:112-342 | one edge in place: the specified next bank and edge; failed input or register checks leave the bank untouched |
| `CacheBankClass.StepFollows` | timing/memsys/cache_bank.go:112-342 | the edge the class performs, stage by stage, is the specification's step |
| `CacheWholeFlush.TickStarts` | timing/memsys/cache.go:395-429 | before the banks flush, the pulse and only the pulse starts every bank |
| `CacheWholeFlush.BusyKeeps` | timing/memsys/cache.go:501-588 | a flushing bank stays so until it reports, and rests afterwards |
| `CacheWholeFlush.AllDone` | timing/memsys/cache.go:395-429 | with pipelines and miss registers empty, every accepted request has been answered |
| `CacheWholeTheorems.BankRun` | timing/memsys/cache.go:501-588 | every bank of a run of the whole cache without a failed backing write is a run of that bank, step by step, so what is proved of bank runs holds of it |
| `CacheWholeTheorems.WholeMemory` | timing/memsys/cache.go:501-588 | in every such run each line, in the bank that owns it, equals the initial memory with that bank's performed stores applied in order |
| `CacheWholeTheorems.WholeLoadsReadMemory` | timing/memsys/cache.go:501-588 | every error-free load answer of any bank is the addressed word of the logical memory at a state strictly between its acceptance and its answer |
| `CacheWholeTheorems.WholeExactlyOnce` | timing/memsys/cache.go:501-588 | no bank answers a request twice, and an idle bank has answered everything it accepted |
| `CacheWholeTheorems.WholeMissChains` | timing/memsys/cache.go:501-588 | in every bank the live miss registers form one chain per missing line with one root and one fetch |
| `CacheWholeTheorems.FlushReplyMeans` | timing/memsys/cache.go:395-429 | when a flush reply without error is on offer, in every run: the edge of its pulse is one of the run's, each bank has since flushed every slot once if its reset scan was over at the pulse and none otherwise, no bank holds a line, nothing is in flight, every request is answered and the backing bytes equal the logical memory |
| `Backends.CollectRuns` | timing/memsys/backend.go:169-183 | groups the enabled bytes into ascending, separate runs that cover exactly them |
| `Backends.WriteBatch` | support/memory/memory.go:112-136 | for any batch: refused exactly when the lists differ in length, a piece leaves the memory or two pieces overlap, and then nothing changes; otherwise every piece is in place and no other byte changed |
| `Backends.WriteRuns` | timing/memsys/backend.go:169-192 | a sector's runs become one batch: either every enabled byte is written or none and the out-of-bounds error |
| `Backends.FirstError` | timing/memsys/backend.go:184-192 | a ticket's status is the first failing earlier write's, and good exactly when there is none |
| `BackendQueues.ServeAllOk` | timing/memsys/backend.go:156-195 | serving the due front of the queue folds exactly those writes into the memory, in acceptance order |
| `BackendQueues.StepOk` | timing/memsys/backend.go:126-241 | one edge keeps the order between log, served frontier, queue and memory |
| `BackendTheorems.ServesInOrder` | timing/memsys/backend.go:154-208 | over every run the memory is the fold of served writes in acceptance order and every reply is what that order gives |
| `BackendTheorems.BackendOrder` | timing/memsys/backend.go:154-208 | the same spelled out: reads return exactly the earlier-accepted writes, tickets the first earlier error; occupancy stays within the limit |
| `BackendTheorems.RepliesFollowPreview` | timing/memsys/backend.go:196-258 | the replies of an edge are exactly the preview cut at the first client that is not ready |
| `BackendTheorems.ShownDistinct` | timing/memsys/backend.go:196-208 | no client is shown two replies on one edge |
| `BackendTheorems.PassedOver` | timing/memsys/backend.go:209-232 | each accepting edge that passes a waiting client over brings the round robin closer to it |
| `BackendTheorems.RoundRobinFair` | timing/memsys/backend.go:209-232 | a waiting client is passed over on at most clients minus one accepting edges |
| `BackendClass.Backend.constructor` | timing/memsys/backend.go:107-115 | an empty backend over the given bytes |
| `BackendClass.Backend.Check` | timing/memsys/backend.go:126-153 | accepts exactly the edges the protocol allows |
| `BackendClass.Backend.ServeEntry` | timing/memsys/backend.go:157-195 | in place: one due request served as specified |
| `BackendClass.Backend.Service` | timing/memsys/backend.go:156-195 | in place: the loop over the queue is the specified service of every due request |
| `BackendClass.Backend.Retire` | timing/memsys/backend.go:196-208 | in place: replies shown and queue cut as specified |
| `BackendClass.Backend.Admit` | timing/memsys/backend.go:209-232 | in place: the round robin's choice, new queue entries, cursor and sequence as specified |
| `BackendClass.Backend.PreviewResponses` | timing/memsys/backend.go:246-258 | the replies all-ready clients would be shown, without change |
| `BackendClass.Backend.Step` | timing/memsys/backend.go:126-241 | one edge in place: the specified next state, or refused and nothing changed |
| `DramBridgeOrder.TicketsMean` | timing/memsys/external.go:208-218 | a ticket is complete after the scan if and only if it was before or everything before it is |
| `DramBridgeOrder.AllOlderAcked` | timing/memsys/external.go:208-218 | when a ticket completes, every older data request has been acknowledged by the library |
| `DramBridgeOrder.TakenNoMore` | timing/memsys/external.go:61-78 | behind an older request of its bus bank no request of that bank leaves |
| `DramBridgeOrder.LaneSplit` | timing/memsys/external.go:112-130 | taking the oldest of a bank leaves the rest of its lane in order |
| `DramBridgeOrder.BridgeDelivers` | timing/memsys/external.go:82-234 | over every run, acknowledgement order and backpressure: nothing is lost or delivered twice, each bus bank delivers in acceptance order, replies carry the acceptance-order data, tickets wait for all older requests |
| `DramBridgeClass.AsyncBackend.constructor` | timing/memsys/external.go:38-50 | an empty bridge over the given bytes |
| `DramBridgeClass.AsyncBackend.PreviewResponses` | timing/memsys/external.go:52-80 | the replies on show: held ones, then the oldest served request of each bus bank while the limit lasts |
| `DramBridgeClass.AsyncBackend.Retire` | timing/memsys/external.go:108-123 | which requests leave and which replies stay with their client, as specified |
| `DramBridgeClass.Acknowledge` | timing/memsys/external.go:136-154 | the library's completions applied in order; refused at the first unknown or repeated one |
| `DramBridgeClass.CompleteTickets` | timing/memsys/external.go:208-218 | the ticket scan is the specified completion |
| `DramBridgeClass.AsyncBackend.Admit` | timing/memsys/external.go:155-219 | in place: the round robin's choice is accepted, data read or applied at once, in order; cursor and each port's newest transaction follow |
| `DramBridgeClass.AsyncBackend.Step` | timing/memsys/external.go:82-234 | one edge in place: any offers, refused with nothing changed exactly when a port count, the cycle, a held offer, an alignment or a transaction number is wrong; otherwise the specified step on the round robin's choice, with the offers not taken held |
| `Coalescing.MergeBytes` | timing/memsys/coalescer.go:156-162 | the byte loop merges exactly the lane's enabled bytes at its offset |
| `Coalescing.BuildBatch` | timing/memsys/coalescer.go:132-167 | the group loops build the specified batch: lowest waiting seed, lanes of its word in ascending order |
| `Coalescing.SeedTaken` | timing/memsys/coalescer.go:132-167 | every batch takes at least one waiting lane, so batching ends |
| `CoalescingOrder.PortCarries` | timing/memsys/coalescer.go:132-167 | one port carries nothing, one lane, both lanes merged, or the lower lane and then the upper |
| `CoalescingOrder.BatchesPartition` | timing/memsys/coalescer.go:132-167 | every lane of the mask travels in exactly one batch and no other lane travels |
| `CoalescingOrder.MergeMeans` | timing/memsys/coalescer.go:156-162 | merging a lane into its word means writing the word and then the lane |
| `CoalescingOrder.AnyOrder` | timing/memsys/coalescer.go:205-225 | when the ports agree on shared bytes, every interleaving of them equals one port after the other |
| `CoalescingOrder.PortsRunFree` | timing/memsys/coalescer.go:132-226 | for every accepted store, any interleaving that keeps each port's order leaves, in every byte, what the lanes applied in ascending order leave |
| `CoalescingOrder.RefusedWhenOrderShows` | timing/memsys/coalescer.go:205-225 | every store whose order can be seen is refused; a merging store is refused for its order if and only if two legal interleavings leave some byte different; a refused store is refused without need if and only if no byte is written by both ports with different last values |
| `CoalescingOrder.OrderShowsExactly` | timing/memsys/coalescer.go:205-225 | for every aligned store, two legal interleavings of the two ports leave some byte different if and only if both ports write that byte and their last writes to it differ |
| `CoalescingOrder.RefusedWithoutNeed` | timing/memsys/coalescer.go:205-225 | a concrete store that forbids merging is refused although every order leaves the same bytes, so the refusal is not exact for such stores |
| `CoalescingOrder.LastWriteStays` | timing/memsys/coalescer.go:205-225 | whatever the interleaving, a byte only one port writes ends with what that port alone leaves, and any byte with what one of the two ports alone leaves |
| `CoalescingOrder.LanesReadMemory` | timing/memsys/coalescer.go:326-343 | if a batch's word comes back as memory holds it, the expansion gives each of its lanes the four bytes at that lane's address |
| `CoalescerClass.ValidateGlobal` | timing/memsys/coalescer.go:168-226 | the validation loops accept exactly the requests the specification accepts |
| `CoalescerClass.CollectBatches` | timing/memsys/coalescer.go:188-203 | the batch loop yields the request's batches, refused exactly when one mixes attributes in a word |
| `CoalescerClass.CheckOverlaps` | timing/memsys/coalescer.go:207-225 | the pairwise byte comparison holds exactly when every pair of batches agrees across ports |
| `CoalescerClass.Coalescer.constructor` | timing/memsys/coalescer.go:108-128 | an idle coalescer with all slots free |
| `CoalescerClass.Coalescer.Validate` | timing/memsys/coalescer.go:262-322 | accepts exactly the edges the protocol allows |
| `CoalescerClass.Edge` | timing/memsys/coalescer.go:323-399 | the edge's updates in source order give the specified next state |
| `CoalescerClass.Spread` | timing/memsys/coalescer.go:332-343 | the lane loop of a reply answers exactly the batch's lanes on the answered channels, each with its own four bytes, or zeros on an error |
| `CoalescerClass.Coalescer.Preview` | timing/memsys/coalescer.go:403-429 | a reply is spread over the lanes of the batch it names, or refused exactly when it is stale, unsent or already answered |
| `CoalescerClass.Coalescer.Step` | timing/memsys/coalescer.go:262-399 | one edge in place, keeping the ledger invariant; a refused edge changes nothing |
| `CoalescerLedger.StepKeeps` | timing/memsys/coalescer.go:262-399 | every edge keeps slots, grants, free slot, output and held request consistent |
| `CoalescerLedger.SendHasSlot` | timing/memsys/coalescer.go:315-322 | in every reachable state a batch about to be sent has a free slot, so the slot error cannot arise |
| `CoalescerLedger.SlotsReusedSafely` | timing/memsys/coalescer.go:361-370 | a slot is granted only when free, under a name never granted before, and all its earlier batches are fully answered |
| `CoalescerLedger.RepliesCreditOwnBatch` | timing/memsys/coalescer.go:305-314 | a reply is credited to the batch it names, never to a later occupant of the slot, and only for channels not yet answered |
| `CoalescerLedger.ChannelsAnsweredOnce` | timing/memsys/coalescer.go:326-351 | over every run no channel of a load batch is answered twice |
| `CoalescerLedger.LanesAnsweredOnce` | timing/memsys/coalescer.go:326-351 | over every run no lane of a load request is answered by two replies |
| `CoalescerLedger.RequestSentWhole` | timing/memsys/coalescer.go:361-383 | when a request is accepted the batches sent for it are exactly its partition into batches, in order |
| `SimdSplits.PathsPartition` | timing/memsys/split.go:104-116 | global and local lanes partition the mask |
| `SimdSplitLedger.AdvancedNested` | timing/memsys/split.go:245-278 | the edge keeps completed within arrived within sent within queued within mask |
| `SimdSplitLedger.StepKeeps` | timing/memsys/split.go:231-331 | every accepted edge keeps the ledger invariant and announces only transactions never announced before |
| `SimdSplitLedger.LanesNested` | timing/memsys/split.go:231-331 | in every reachable state completed is within arrived, within sent, within queued, within the request's mask |
| `SimdSplitLedger.LanesCompleteOnce` | timing/memsys/split.go:245-278 | over every run no lane completes twice, and an announced transaction has completed exactly its lanes |
| `SimdSplitLedger.AnnouncedOnce` | timing/memsys/split.go:318-323 | no transaction is announced by two edges of a run |
| `SimdSplitClass.Validate` | timing/memsys/split.go:155-230 | the validation loops accept exactly the edges the specification allows |
| `SimdSplitClass.Mark` | timing/memsys/split.go:245-278 | the ledger loops give every record its specified progress |
| `SimdSplitClass.EnterRequest` | timing/memsys/split.go:279-307 | children enter their buffers and the record is opened, extended and accepted as specified |
| `SimdSplitClass.Sweep` | timing/memsys/split.go:318-323 | exactly the finished records are announced and dropped |
| `SimdSplitClass.SIMDSplit.constructor` | timing/memsys/split.go:75-103 | an empty split |
| `SimdSplitClass.SIMDSplit.Step` | timing/memsys/split.go:231-331 | one edge in place is the specified one and keeps the ledger; a refused edge changes nothing |
| `GlobalAdapterLedger.StepKeeps` | timing/memsys/global_adapter.go:133-240 | every accepted edge keeps the word ledger, and its answers are new |
| `GlobalAdapterLedger.PortsNested` | timing/memsys/global_adapter.go:133-240 | in every reachable state answered ports were sent and sent ports are the batch's own |
| `GlobalAdapterLedger.WordsAnsweredOnce` | timing/memsys/global_adapter.go:179-209 | over every run no word is answered twice, and a dropped record had every word answered |
| `GlobalAdapterLedger.AnswersCreditOwnBatch` | timing/memsys/global_adapter.go:163-222 | a wire transaction names one batch for good and its answers are credited to that batch |
| `GlobalAdapterClass.CheckReceipts` | timing/memsys/global_adapter.go:179-186 | the receipt loop accepts exactly known, sent, first-time acknowledgements |
| `GlobalAdapterClass.MarkDone` | timing/memsys/global_adapter.go:188-209 | the reply and receipt loops mark exactly the answered ports |
| `GlobalAdapterClass.GlobalAdapter.constructor` | timing/memsys/global_adapter.go:41-59 | an idle adapter with sequence 1 |
| `GlobalAdapterClass.GlobalAdapter.Preview` | timing/memsys/global_adapter.go:83-109 | refused exactly when a port's reply is foreign, unsent or repeated; otherwise the packed reply holds exactly the selected transaction's words, under its batch's name |
| `GlobalAdapterClass.GlobalAdapter.Step` | timing/memsys/global_adapter.go:133-240 | one edge in place is the specified one and keeps the ledger; a refused edge changes nothing |
| `GlobalPath.PathPasses` | timing/memsys/system.go:139-259 | with the adapter and the coalescer connected, neither refuses what the other hands it, as long as cache and split keep their own side |
| `GlobalPath.PathKeeps` | timing/memsys/system.go:139-259 | an edge of the pair keeps both ledgers and the agreement of slots and wire records: name, lanes, ports sent, ports still to answer |
| `GlobalPath.PairRuns` | timing/memsys/system.go:139-259 | in every run of the pair no check fails, so it is a run of the adapter and a run of the coalescer |
| `GlobalPath.AnswersReachTheirLanes` | timing/memsys/system.go:151-158 | in every run of the pair a packed reply answers exactly the lanes that the answered ports of the selected transaction's own batch carry |
| `PathFlights.FlightNext` | timing/memsys/system.go:242-259 | a batch in flight after an edge was in flight before it, with exactly the words sent and answered in it added, or was sent by the coalescer in it; it still waits for a port |
| `SplitPathChecks.FilterIdle` | timing/memsys/system.go:261-268 | the filter of progress events removes no lane |
| `SplitPathChecks.SystemFits` | timing/memsys/system.go:139-277 | with the split on top, no check of the three components fails, as long as load-store unit, cache and local path keep their own side |
| `SplitPathRuns.NewlySentLane` | timing/memsys/system.go:260-275 | a global lane that the split records as sent left with its request's child or with a word of the batch on offer |
| `SplitPathRuns.NewlyArrivedLane` | timing/memsys/system.go:260-275 | a global lane that arrives in the split came with a word answered or acknowledged in that edge |
| `SplitPathRuns.SystemKeeps` | timing/memsys/system.go:139-281 | an edge of the three keeps their ledgers and their agreement on every lane of every batch in flight |
| `SplitPathRuns.SystemRuns` | timing/memsys/system.go:139-281 | in every run of the three no check fails, so it is a run of the split and a run of the pair below it |
| `SplitPathRuns.FilterNeverActs` | timing/memsys/system.go:261-268 | over every run the progress filter passes every event of a request whose child is still in the split |
| `GridWalkers.ValidateLaunch` | emu/device/launch.go:57-194 | accepts exactly the launches whose resources fit and whose supplied derived values are right, and fills in those not supplied |
| `GridWalkers.CheckedMultiply` | emu/device/launch.go:321-326 | the 64-bit product, or the overflow reported exactly when it does not fit |
| `GridWalkers.BoundedProduct` | emu/device/launch.go:96-110 | the axis-by-axis product, refused exactly when an axis or the product is out of bounds |
| `GridWalkers.CountCTAs` | emu/device/launch.go:139-163 | the CTA count, refused exactly when clusters do not tile the grid or the count passes 32 bits |
| `GridWalkers.CapacityImplied` | emu/device/launch.go:111-137 | the demand checks bound a cluster by what fits in a core at once |
| `GridWalkers.IncrementDigits` | emu/device/launch.go:297-312 | the carry loop adds one to a mixed-radix number |
| `GridWalkers.EachBlockOnce` | emu/device/launch.go:272-312 | every block of the grid comes up in the walk |
| `GridWalkers.BlockOnlyOnce` | emu/device/launch.go:272-312 | no block comes up twice |
| `GridWalkers.ClusterByCluster` | emu/device/launch.go:272-312 | the n-th record is the two-level mixed-radix decoding of n: whole clusters, then ranks inside one |
| `GridWalkers.BlockInWords` | emu/device/launch.go:272-295 | for a valid launch no emitted coordinate overflows 32 bits |
| `GridWalkers.GridWalker.constructor` | emu/device/launch.go:245-251 | a walker at the start of the grid |
| `GridWalkers.GridWalker.Next` | emu/device/launch.go:272-295 | in place: the record at the current position, or nothing after the last |
| `GridWalkers.GridWalker.Advance` | emu/device/launch.go:297-312 | in place: the next position of the two-level walk |
| `ClusterAdmission.BlockAtRank` | emu/core/core.go:410-426 | each generated CTA lies at its rank's place in its cluster |
| `ClusterAdmission.GeneratedOk` | emu/core/core.go:368-487 | a cluster generated from a validated launch passes every check that is not about free resources |
| `ClusterAdmission.AdmitIsGroup` | emu/core/core.go:368-487 | admission of a well-formed cluster is all-or-nothing admission of its members by the manager |
| `ClusterAdmission.GeneratedAdmission` | emu/core/core.go:368-487 | a generated cluster is admitted whole or held back by the retryable shortage, never rejected |
| `ClusterAdmission.ChooseFits` | emu/core/core.go:430-440 | enough free warps for the whole cluster suffice to choose them |
| `KernelRuns.NextClusterFits` | emu/device/kernel.go:307-318 | clusters tile the grid: one more fits whenever any CTA is left |
| `KernelRuns.TakeCluster` | emu/device/kernel.go:307-318 | the cluster taken from the walker is its next records, in order |
| `KernelRuns.KernelExecution.constructor` | emu/device/kernel.go:217-226 | a fresh execution: nothing generated, admitted or resident |
| `KernelRuns.KernelExecution.ReclaimCompleted` | emu/device/kernel.go:428-450 | in place: finished CTAs leave in order until the first that is unknown, which is the error; the count, the counters and the residents left are exactly those |
| `KernelRuns.KernelExecution.GenerateCluster` | emu/device/kernel.go:307-318 | in place: the next whole cluster becomes pending; running out inside one cannot happen |
| `KernelRuns.KernelExecution.AdmitPending` | emu/device/kernel.go:320-344 | in place: the pending cluster is admitted whole or stays pending |
| `KernelRuns.KernelExecution.Run` | emu/device/kernel.go:256-391 | over all resumed runs generated = admitted + pending and admitted = completed + resident, all equal to the CTA total at completion |
| `LocalMemory.FirstFitMeans` | emu/core/cta.go:513-532 | first fit returns the lowest aligned offset free of every interval and fails exactly when no offset at all would fit |
| `LocalMemory.AllocateFromIntervals` | emu/core/cta.go:513-532 | the sort-and-scan loop computes the specified first fit |
| `Residency.AdmitKeeps` | emu/core/cta.go:200-288 | admission keeps all resident ranges pairwise disjoint and inside the array, and the tables in step |
| `Residency.ReclaimKeeps` | emu/core/cta.go:290-329 | reclaiming keeps them too |
| `Residency.EmptyAdmits` | emu/core/cta.go:200-250 | an empty manager admits any group that fits at once |
| `Residency.WriteIsolated` | emu/core/cta.go:815-888 | a write through one warp changes its own CTA's view where addressed and no other CTA's view |
| `Residency.ReadOwn` | emu/core/cta.go:815-839 | a read through one warp returns its own CTA's bytes |
| `Residency.CTAManager.AdmitGroup` | emu/core/cta.go:200-288 | in place: the whole group admitted as specified, or nothing changed |
| `Residency.CTAManager.ReclaimCTA` | emu/core/cta.go:290-329 | in place: the CTA and its warps leave |
| `Residency.CTAManager.Range` | emu/core/cta.go:815-828 | the physical place of a warp's range, or the error, as specified |
| `Residency.CTAManager.ReadLocal` | emu/core/cta.go:830-839 | its own CTA's bytes, or an error |
| `Residency.CTAManager.WriteLocal` | emu/core/cta.go:841-850 | in place: the addressed bytes of its own CTA, or an error and no change |
| `Residency.CTAManager.ValidateBatch` | emu/core/cta.go:863-878 | every entry in range and none overlapping an earlier one |
| `Residency.CTAManager.WriteLocalWithExternal` | emu/core/cta.go:860-888 | all entries are validated and the outside part goes first; then all local entries are written or none |
| `Barriers.RequestKeeps` | emu/core/barrier.go:158-248 | a staged request keeps the record sound and adds or releases waiters exactly as it says |
| `Barriers.WaitersMatchSlots` | emu/core/core.go:923-1059 | in every state of every run a warp is blocked on a key exactly when that record lists it as a waiter |
| `Barriers.RecordsFollowHistory` | emu/core/barrier.go:158-277 | arrivals, participants, events and phase of a record are exactly what the accepted actions of the run so far give |
| `Barriers.ReleaseTogether` | emu/core/barrier.go:158-277 | the phase of a key flips if and only if the action completes its count with no event open or ends its last event with the count complete; then every waiter and the asking warp are released, and otherwise none is |
| `Barriers.NoInternalError` | emu/core/core.go:923-1022 | the coordinator's internal checks never fail in a run |
| `BarrierClass.BarrierCoordinator.StageRequest` | emu/core/barrier.go:158-248 | the specified before/after pair or refusal, nothing changed |
| `BarrierClass.BarrierCoordinator.StageEventCompletion` | emu/core/barrier.go:252-277 | the specified event completion, nothing changed |
| `BarrierClass.BarrierCoordinator.Commit` | emu/core/barrier.go:127-143 | in place: the staged record is installed; a record changed since is left alone |
| `BarrierClass.Core.CoordinateBarrier` | emu/core/core.go:923-1006 | in place: stage, check, commit and move the slots, or an error and no change |
| `BarrierClass.Core.CompleteBarrierEvent` | emu/core/core.go:1037-1059 | in place: an event completes and its releases move the slots |
| `BarrierClass.Core.ValidateReleases` | emu/core/core.go:1008-1022 | accepts exactly releases of warps that wait on the key |
| `BarrierClass.Core.ApplyReleases` | emu/core/core.go:1024-1033 | in place: exactly the released warps become runnable |
| `Divergence.CollectThen` | isa/custom.go:175-180 | the lane loop of SPLIT computes the lanes whose condition holds |
| `Divergence.SplitKeeps` | isa/custom.go:171-196 | SPLIT is always accepted by the owner and keeps the strictly decreasing chain of masks |
| `Divergence.JoinKeeps` | emu/state/apply.go:479-568 | JOIN on the top row is always accepted: first the other lanes run, then the row is popped and the mask restored |
| `Divergence.JoinUniform` | emu/state/apply.go:479-568 | JOIN of a uniform SPLIT changes only the PC |
| `Divergence.RoomToDiverge` | emu/state/apply.go:479-568 | a warp that can diverge has a free row: the depth-3 stack cannot overflow |
| `Divergence.RunNested` | emu/state/apply.go:479-568 | every state of every SPLIT/top-JOIN run keeps the chain, and the next instruction is never refused |
| `Divergence.WellNestedRegion` | isa/custom.go:171-219 | every well-nested region, to any depth, runs each original lane through exactly its own side and restores mask, stack and pointer |
| `WarpEffects.WriteLanes` | emu/state/apply.go:256-269 | the lane loop of one register write is the specified masked merge |
| `WarpEffects.StageRegisterWrites` | emu/state/apply.go:229-272 | the write loop applies all writes, or refuses exactly an invalid or duplicate destination |
| `EffectOwner.ValidateCsrReads` | emu/state/apply.go:285-303 | accepts exactly reads that match the live values |
| `EffectOwner.ValidateCsrWrites` | emu/state/apply.go:305-359 | accepts exactly catalogued, fresh writes without duplicate address or FCSR alias |
| `EffectOwner.StageEffects` | emu/state/apply.go:176-214 | the candidate and its acceptance, as specified; the image is only read |
| `EffectDeliveries.CutLanes` | emu/state/delivery.go:69-81 | the writeback loops compute the lanes expected and the writes cut to a subset |
| `EffectDeliveries.WrittenMeans` | emu/state/apply.go:229-272 | with distinct destinations each register cell takes at most one write |
| `EffectDeliveries.CutsCompose` | emu/state/delivery.go:69-81 | writing two disjoint lane subsets in turn is writing their union |
| `EffectTheorems.PartsMakeWhole` | emu/state/delivery.go:55-142 | delivering a bundle by events in any order, writeback cut into any disjoint lane subsets, ends in the same warp state as one whole commit whenever every delivery is accepted and none is left out |
| `EffectTheorems.OrderFreeExactly` | emu/state/apply.go:176-214 | every accepted complete order ends in the whole commit if and only if no flag is raised that a software write of the flags field in the same bundle leaves clear |
| `EffectTheorems.FlagsLastDiffers` | emu/state/delivery.go:93-100 | otherwise an accepted complete order exists that ends in a different state |
| `EffectTheorems.ClearedFlagShowsOrder` | emu/state/delivery.go:93-100 | a concrete bundle that raises a flag its own write leaves clear, and two accepted complete orders of it that end in different states |
| `EffectStreams.OthersLeaveFlow` | emu/state/delivery.go:69-117 | events other than control never touch PC, mask or divergence stack |
| `EffectStreams.LateLeavesFlow` | emu/state/effect_stream.go:69-83 | a late delivery neither moves the PC nor replaces the mask |
| `EffectStreams.TimelyMoves` | emu/state/effect_stream.go:45-83 | a timely control group moves the PC to its own next PC |
| `EffectStreams.VisiblePC` | emu/state/effect_stream.go:45-83 | over every run of one stream the visible PC is the next PC of the youngest instruction whose control was delivered, whatever the order |
| `EffectStreams.YoungestMeans` | emu/state/effect_stream.go:69-83 | the youngest shown group has the greatest order shown and is one of those shown |
| `EffectStreams.ActivationSeals` | emu/state/effect_stream.go:100-107 | after an activation nothing admitted up to it moves the PC or the mask |
| `EffectOwner.EffectStream.RecordActivation` | emu/state/effect_stream.go:100-107 | in place: both frontiers rise to at least the given order |
| `EffectOwner.EffectStream.NewDelivery` | emu/state/effect_stream.go:31-39 | a delivery is created exactly when the effects stage under the instruction's context |
| `EffectOwner.EffectDelivery.Cancel` | emu/state/delivery.go:46 | in place: cancelled, everything visible stays |
| `EffectOwner.EffectDelivery.Select` | emu/state/delivery.go:55-107 | the event, receipt and lane checks, and the part to stage, as specified |
| `EffectOwner.EffectDelivery.StageStreamControl` | emu/state/effect_stream.go:69-83 | control on a stream staged as specified, late or timely |
| `EffectOwner.EffectDelivery.Deliver` | emu/state/delivery.go:55-142 | in place: one event or lane subset applied once with its receipt and frontier, or refused and nothing changed |
| `PackedLoads.Collect` | isa/custom.go:322-347 | the response loop accepts exactly distinct, valid responses and assembles each lane's fields |
| `PackedLoads.CompletePackedLoad` | isa/custom.go:313-368 | the completion, part or whole, as specified |
| `PackedLoads.FieldHolds` | isa/custom.go:322-347 | the assembled word's field for an element is that element's own answer |
| `PackedLoads.PartsMergeToWord` | isa/custom.go:358-366 | merging every element's part, in any order, leaves the full word whatever the register held |
| `PackedLoads.PartsLoadWhole` | isa/custom.go:305-368 | on the register file: the parts of a packed load, written in any order, leave the registers as the whole load's one write does |

## Left out

- Non-cacheable bypass and inline flush of the cache: non-cacheable accesses alias cached lines by design.
- `Cache.Step` as an object: the whole cache is a transition relation over its banks, queues and control state, in which queue capacities, arbiters and the response path may behave in any way; the flush theorem therefore holds for more schedules than the source has.
- Backing write errors under the cache: runs of a bank assume that writebacks succeed, as the source's flush error path reports them otherwise.
- Cycle counters, tags, identities beyond a transaction number, trace records and error texts: checks on them reduce to accepted or refused.
- Response data paths of the split: payloads are carried per lane as values and are not interpreted.
- The RTL timing-hazard flag of the split and the presentation order of completion notices.
- Warp spawn, and the joint delivery of CSR writes with flags or traps (`emu/state/delivery.go:147-301`).
- The CSR catalog, the instruction catalog, the integer and float evaluators, and the arithmetic of the foreign float library.
- The pipeline above the memory system (`timing/model`), the audit and integration code, and the C interface.
- Local-memory leases, which deliberately outlive the residency whose isolation is proved here.
- Progress of the whole system: fairness is proved for the backend's round robin only.
- CacheBankTheorems.LogicalMemory: stated for cacheable traffic and succeeding writebacks, because non-cacheable stores bypass the array; `CacheWholeTheorems.WholeMemory` carries it to every bank of the whole cache under the same two conditions.
- CacheWholeTheorems.FlushReplyMeans: stated for the separate flush request of a write-back cache; an inline flush releases its own requests instead of replying.
- DramBridgeClass.AsyncBackend.Step: promises nothing about the state after a bad acknowledgement, after which the source's run ends too.
- ClusterAdmission.GeneratedAdmission: a warp is free by the manager's table; the scheduler slot the source asks (inactive and not participated, `emu/core/core.go:430-440`) is not part of this model, so the agreement of slot and table is taken for granted.
- Residency.CTAManager.ReclaimCTA: does not model the refusal while barrier state of the CTA is pending, because the manager here is separate from the barrier coordinator.
- SplitPathRuns.SystemRuns: the data cache, its port buffer and the local path are the surroundings, described by the protocol each keeps towards the split and the adapter, not by their own models.
- EffectStreams.VisiblePC: covers creation and delivery on one stream; spawn and joint deliveries are not among its actions, and two deliveries of one instruction order count as one group, the first shown.
- KernelRuns.KernelExecution.Run: what the core executes between two turns is a parameter of the run, not a model of the core's instructions.
- SimdSplitClass.Sweep: announces a set; the source sorts the same identities for presentation.
- GlobalAdapterClass.GlobalAdapter.Step: a word is matched by its wire transaction and port; the remaining identity fields, which the source copies from the batch, are not repeated.
- WarpEffects.StageRegisterWrites: effects that name another warp are refused by the source and cannot be written down here.
