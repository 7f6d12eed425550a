# Block layer and crypto: what the Linux 2.6.32 code promises

This project models the request path of the Linux 2.6.32 block layer and three
pieces of its crypto layer in Dafny, and proves what the C code relies on but
never states: that fast, incremental or in-place forms agree with simple ones,
over all runs and all inputs.

| files | about |
|---|---|
| `BarrierModel`, `BarrierStages`, `BarrierOrder`, `BarrierSteps`, `BarrierTheorems`, `BarrierProgress`, `BarrierStall`, `BarrierHistory`, `BarrierQueue` | ordered (barrier) sequencing: blk-barrier.c, insertion and completion in elevator.c, the loop of blk.h |
| `Segments`, `RequestModel`, `RequestInvariant`, `RequestCompletion`, `RequestRuns`, `RequestObjects` | merging, segment counting, partial completion, failfast bits: blk-merge.c and blk-core.c |
| `MergeHash`, `Resubmit` | the back-merge hash of elevator.c; generic_make_request |
| `Deadline`, `Anticipatory`, `Cfq` | the three I/O schedulers |
| `Tags` | the tag map of blk-tag.c |
| `CamelliaWords`, `CamelliaPath`, `CamelliaCipher`, `CamelliaTable`, `CamelliaBlock` | the key-table rewriting of camellia.c |
| `Spawns` | removal of an algorithm and of all built on it, algapi.c |
| `Cbc` | the four loops of cbc.c |
| `Options` | an optional value, shared by the others |

Each component has a functional specification, the theorems about it, and a class
or methods in the shape of the C code (fields updated in place, arrays, loops) that
are proved to do what the specification says. A lock-protected operation is one
step. Choices the code leaves to its environment (what an elevator dispatches,
which neighbour it names, which tree rotations happen, the time) are parameters or
part of the event, and the theorems hold for all of them.

What the code does not do in general is stated exactly: barrier ordering fails when
a request that is not fs carries the barrier flag (drivers/block/pktcdvd.c sets it
on packet commands) or an fs request is front-inserted; `__sector` does not compose
over completions whose odd bytes add up to a sector; growing a tag map that is then
clamped below its old depth overruns the new tables; the anticipatory scheduler's
probe misses the best request when the dispatched one overlaps others badly; a queue
that only drains can stall on an empty barrier if discards of two kinds are mixed.

Where comments and code differ the code is followed: blk_queue_end_tag says a tag
beyond real_max_depth can be met after the depth was reduced, but the invariant shows
it cannot, because the tables are never shrunk; the early return is kept.

## Model

| member | source | states |
|---|---|---|
| `BarrierTheorems.OrderingExactlyWhen` | sources/linux-2.6.32/linux-2.6.32/block/blk-barrier.c:153-279 | over all runs of add, dispatch, peek, start, requeue and complete on a draining queue, the ordering promise holds if and only if no caller marks a non-fs request as hard barrier and none front-inserts an fs request |
| `BarrierTheorems.OrderingHolds` | sources/linux-2.6.32/linux-2.6.32/block/blk-barrier.c:153-279 | over every such run with well-behaved callers: an fs request is with the driver only when every barrier queued before it has ended; a pre-flush only when every fs request queued before the barrier has ended; the barrier itself only when, besides, the pre-flush (if enabled) is done; the post-flush only after the barrier command |
| `BarrierTheorems.ColorRunUnsafe` | sources/linux-2.6.32/linux-2.6.32/block/elevator.c:695-730 | a concrete run in which a special request marked as barrier flips the color and an fs request overtakes a running barrier |
| `BarrierTheorems.FrontRunUnsafe` | sources/linux-2.6.32/linux-2.6.32/block/elevator.c:598-619 | a concrete run in which a front-inserted fs request is issued ahead of a barrier queued before it |
| `BarrierStages.RunStage` | sources/linux-2.6.32/linux-2.6.32/block/blk-barrier.c:55-129 | every run keeps the stage invariant in all modes: each request is in exactly one place, each proxy is queued or in flight exactly while its stage is unfinished, in_flight counts what it should, and no stage is completed twice, so the BUG_ON of blk_ordered_complete_seq never fires |
| `BarrierStages.CurSeqOnWord` | sources/linux-2.6.32/linux-2.6.32/block/blk-barrier.c:55-60 | reading the lowest unset stage off the flags is 1 << ffz(ordseq) on the stored word |
| `BarrierStages.RunSplit` | sources/linux-2.6.32/linux-2.6.32/block/elevator.c:598-693 | runs compose: doing a then b is doing a + b |
| `BarrierSteps.RunOrder` | sources/linux-2.6.32/linux-2.6.32/block/elevator.c:598-730 | every well-behaved run keeps the order invariant: colors alternate at barriers, the queue is in arrival order up to barriers, requeued requests stay in stage order |
| `BarrierSteps.RequeueOrder` | sources/linux-2.6.32/linux-2.6.32/block/elevator.c:650-677 | requeueing by ordseq keeps the proxies and requests of a running sequence in stage order |
| `BarrierOrder.EarlierColor` | sources/linux-2.6.32/linux-2.6.32/block/blk-barrier.c:62-89 | while a sequence runs, an fs request queued before the barrier has the color that counts it as drained with it |
| `BarrierOrder.LaterColor` | sources/linux-2.6.32/linux-2.6.32/block/blk-barrier.c:62-89 | and one queued after the barrier has the color that holds it back |
| `BarrierStall.NoStallExactlyWhen` | sources/linux-2.6.32/linux-2.6.32/block/blk-barrier.c:235-279 | over all runs of well-behaved callers, a running sequence with nothing in flight always hands out a request at the next look, if and only if the queue does more than drain for a barrier or discards that are fs requests are not mixed with others (init_request_from_bio makes only such) |
| `BarrierStall.StallRunStalls` | sources/linux-2.6.32/linux-2.6.32/block/elevator.c:823-853 | the run that stalls: an empty barrier drains, a special discard at the head keeps the last completion from ending the drain, and an fs discard dispatched in front of it must wait |
| `BarrierProgress.NoStall` | sources/linux-2.6.32/linux-2.6.32/block/blk-barrier.c:235-279 | with nothing in flight a running sequence always hands out a request at the next look; on a queue that only drains, of callers whose discards are of one kind |
| `BarrierHistory.EndsWithFirstError` | sources/linux-2.6.32/linux-2.6.32/block/blk-barrier.c:91-131 | after every run, in every mode and whatever the callers do, each request or barrier that has ended has ended with the first error reported for it, by its own end, by a command of its sequence or by a part of its data; for one that has not ended and is not being run, nothing has been reported |
| `BarrierHistory.EndedStays` | sources/linux-2.6.32/linux-2.6.32/block/blk-barrier.c:91-111 | an end and its status are final over every run |
| `BarrierHistory.SequenceEnds` | sources/linux-2.6.32/linux-2.6.32/block/blk-barrier.c:91-233 | every sequence ends: once as many fs requests and barrier commands have completed as it was waiting for, its barrier has ended |
| `BarrierHistory.StepRemaining` | sources/linux-2.6.32/linux-2.6.32/block/elevator.c:598-853 | while a sequence runs no event adds to what it waits for (unset stages and earlier fs requests not ended), and each completion of an fs request or of one of its commands takes something away |
| `BarrierProgress.RunLive` | sources/linux-2.6.32/linux-2.6.32/block/elevator.c:823-853 | the drain stage is never left waiting for completions that have already happened |
| `BarrierQueue.RequestQueue.OrderedCompleteSeq` | sources/linux-2.6.32/linux-2.6.32/block/blk-barrier.c:91-111 | the method does to the queue what the transition system says, first error kept |
| `BarrierQueue.RequestQueue.StartSequence` | sources/linux-2.6.32/linux-2.6.32/block/blk-barrier.c:153-233 | stacks post-flush, barrier and pre-flush so that they come out in order, skipping the stages the mode has not |
| `BarrierQueue.RequestQueue.DoOrderedHead` | sources/linux-2.6.32/linux-2.6.32/block/blk-barrier.c:235-279 | decides about the head of the dispatch queue: issue, hold back, or end it as unsupported; a head that vanishes shortens the queue |
| `BarrierQueue.RequestQueue.PeekRequest` | sources/linux-2.6.32/linux-2.6.32/block/blk.h:54-68 | the two nested loops terminate, perform a run of the transition system and hand out the head of the queue only |
| `BarrierQueue.RequestQueue.FetchRequest` | sources/linux-2.6.32/linux-2.6.32/block/blk-core.c:1919-1927 | peeking and starting perform a run of the transition system too, and what is handed out is in flight |
| `BarrierQueue.RequestQueue.DispatchSort` | sources/linux-2.6.32/linux-2.6.32/block/elevator.c:417-453 | inserts behind every request it may not pass and in front of exactly those the one-way elevator serves later, seen from the boundary |
| `BarrierQueue.SweepKept` | sources/linux-2.6.32/linux-2.6.32/block/elevator.c:417-453 | a queue sorted for the sweep from the boundary stays so |
| `BarrierQueue.RequestQueue.DrainElevator` | sources/linux-2.6.32/linux-2.6.32/block/elevator.c:556-568 | moves everything the elevator has to the dispatch queue |
| `BarrierQueue.RequestQueue.AddElevatorRequest` | sources/linux-2.6.32/linux-2.6.32/block/elevator.c:695-730 | colors, and inserts where the flags say |
| `BarrierQueue.RequestQueue.RequeueRequest` | sources/linux-2.6.32/linux-2.6.32/block/elevator.c:539-554 | puts a started request back in ordseq order |
| `BarrierQueue.RequestQueue.EndIo` | sources/linux-2.6.32/linux-2.6.32/block/elevator.c:823-853 | completes a request, and the drain stage with the last one it waits for |
| `CamelliaPath.FastIsPlain` | sources/linux-2.6.32/linux-2.6.32/crypto/camellia.c:381-578 | for all subkeys and tables and any number of steps, encryption on a rewritten table is the plain data path of section 2.3 of RFC 3713 |
| `CamelliaPath.DecryptUndoes` | sources/linux-2.6.32/linux-2.6.32/crypto/camellia.c:942-995 | decryption undoes encryption on every table |
| `CamelliaPath.PathMasked` | sources/linux-2.6.32/linux-2.6.32/crypto/camellia.c:387-468 | running the subkeys that have absorbed kw2 and kw4 keeps both halves masked by what is left of them |
| `CamelliaPath.PathMoved` | sources/linux-2.6.32/linux-2.6.32/crypto/camellia.c:470-577 | moving the key XOR behind F leaves each half masked by the subkey it needs next |
| `CamelliaWords.FLMask` | sources/linux-2.6.32/linux-2.6.32/crypto/camellia.c:439-441 | a mask behind an FL layer is the transformed mask in front of it |
| `CamelliaWords.FLInvMask` | sources/linux-2.6.32/linux-2.6.32/crypto/camellia.c:394-396 | a mask in front of an inverse FL layer comes out transformed |
| `CamelliaWords.RoundSmIs` | sources/linux-2.6.32/linux-2.6.32/crypto/camellia.c:870-884 | CAMELLIA_ROUNDSM with a key whose half of P is inverted is F followed by the key |
| `CamelliaWords.FLInverse` | sources/linux-2.6.32/linux-2.6.32/crypto/camellia.c:854-868 | the two halves of CAMELLIA_FLS undo each other |
| `CamelliaWords.RoundSmUndo` | sources/linux-2.6.32/linux-2.6.32/crypto/camellia.c:870-884 | the same round applied twice changes nothing |
| `CamelliaCipher.CamelliaLawful` | sources/linux-2.6.32/linux-2.6.32/crypto/camellia.c:359-376 | the word operations satisfy the laws the argument rests on, for arbitrary S-box tables |
| `CamelliaTable.SetupTail` | sources/linux-2.6.32/linux-2.6.32/crypto/camellia.c:381-578 | the in-place rewriting for 18 and 24 rounds makes exactly the table the theorem asks for |
| `CamelliaTable.AbsorbKw2` | sources/linux-2.6.32/linux-2.6.32/crypto/camellia.c:387-433 | kw2 is absorbed by the odd subkeys of each group, carried over each layer, and by kw3 |
| `CamelliaTable.AbsorbKw4` | sources/linux-2.6.32/linux-2.6.32/crypto/camellia.c:416-468 | kw4 is absorbed, going back, by the even subkeys of each group and by kw1 |
| `CamelliaTable.MoveKeys` | sources/linux-2.6.32/linux-2.6.32/crypto/camellia.c:470-558 | the key XOR is moved to the end of F, group after group |
| `CamelliaTable.InvertHalfP` | sources/linux-2.6.32/linux-2.6.32/crypto/camellia.c:561-577 | the loop applies the inverse of half of P to the round keys and to nothing else |
| `CamelliaTable.TableReady` | sources/linux-2.6.32/linux-2.6.32/crypto/camellia.c:381-578 | what the three rewriting passes make together is entry by entry the table of the theorem |
| `CamelliaBlock.DoEncrypt` | sources/linux-2.6.32/linux-2.6.32/crypto/camellia.c:887-940 | the unrolled in-place rounds compute the fast path, for max 24 and 32 |
| `CamelliaBlock.DoDecrypt` | sources/linux-2.6.32/linux-2.6.32/crypto/camellia.c:942-995 | likewise backwards, with the subkeys exchanged |
| `CamelliaBlock.EncryptWithKey` | sources/linux-2.6.32/linux-2.6.32/crypto/camellia.c:1033-1055 | setting up a key, encrypting and exchanging the halves is the plain cipher |
| `CamelliaBlock.RoundTrip` | sources/linux-2.6.32/linux-2.6.32/crypto/camellia.c:1057-1079 | decrypting what was encrypted gives the block back, on every table |
| `Segments.GreedyMinimal` | sources/linux-2.6.32/linux-2.6.32/block/blk-merge.c:118-200 | no division of the same bio_vecs into segments the hardware accepts is shorter than the one the loops find |
| `Segments.GreedyMaps` | sources/linux-2.6.32/linux-2.6.32/block/blk-merge.c:118-200 | the entries of that division are exactly the physical bytes, in order |
| `Segments.MapSg` | sources/linux-2.6.32/linux-2.6.32/block/blk-merge.c:118-171 | the scatterlist covers exactly the bytes of the bio_vecs in order, in no more entries than any acceptable division has runs |
| `Segments.RecalcSegments` | sources/linux-2.6.32/linux-2.6.32/block/blk-merge.c:12-70 | counts the runs found when high pages are kept apart, and the sizes of the first and last |
| `RequestInvariant.FitsJoin` | sources/linux-2.6.32/linux-2.6.32/block/blk-merge.c:88-112 | two counted chains joined at a contiguous seam need one segment less, and the raised sizes bound the new end segments |
| `RequestInvariant.MergeKept` | sources/linux-2.6.32/linux-2.6.32/block/blk-merge.c:203-272 | a bio merge, accepted or refused, keeps counter, sizes, length and failfast bits right |
| `RequestInvariant.MergeChain` | sources/linux-2.6.32/linux-2.6.32/block/blk-core.c:1186-1236 | and the chain gap-free from the request's sector |
| `RequestInvariant.AcceptedKept` | sources/linux-2.6.32/linux-2.6.32/block/blk-merge.c:363-434 | a request that takes in its neighbour keeps all of that |
| `RequestInvariant.AcceptedChain` | sources/linux-2.6.32/linux-2.6.32/block/blk-merge.c:363-434 | and stays gap-free |
| `RequestInvariant.RefusedKept` | sources/linux-2.6.32/linux-2.6.32/block/blk-merge.c:274-312 | a refused merge of requests costs neither its invariant, though sizes have been raised |
| `RequestInvariant.FromBioKept` | sources/linux-2.6.32/linux-2.6.32/block/blk-core.c:1110-1142 | a new request starts out right |
| `RequestRuns.RunSegments` | sources/linux-2.6.32/linux-2.6.32/block/blk-merge.c:118-312 | after any run of submissions, merges, starts and partial completions, the scatterlist of every request has at most nr_phys_segments entries and covers exactly its __data_len bytes |
| `RequestRuns.RunTimes` | sources/linux-2.6.32/linux-2.6.32/block/blk-core.c:1153-1279 | after any run every bio submitted is on one request, once, or has ended, once |
| `RequestRuns.RunChains` | sources/linux-2.6.32/linux-2.6.32/block/blk-core.c:1181-1236 | after any run in whole sectors every request is a gap-free ascending chain from __sector on |
| `RequestRuns.StepKept` | sources/linux-2.6.32/linux-2.6.32/block/blk-core.c:1153-1279 | each single event keeps every request's invariant |
| `RequestCompletion.UpdateDrops` | sources/linux-2.6.32/linux-2.6.32/block/blk-core.c:1952-2082 | blk_update_request drops exactly the first n bytes of the flat byte stream |
| `RequestCompletion.UpdateMore` | sources/linux-2.6.32/linux-2.6.32/block/blk-core.c:1952-2082 | it returns false if and only if nothing remains, and __data_len is what remains |
| `RequestCompletion.CompleteEnds` | sources/linux-2.6.32/linux-2.6.32/block/blk-core.c:133-160 | exactly the bios all of whose bytes are done end, in chain order, with an error if this or an earlier part failed; the next is advanced, the rest untouched |
| `RequestCompletion.CompleteIds` | sources/linux-2.6.32/linux-2.6.32/block/blk-core.c:1989-2008 | no bio is lost and none ends twice |
| `RequestCompletion.UpdateTwice` | sources/linux-2.6.32/linux-2.6.32/block/blk-core.c:1952-2082 | updating by a and then b is updating by a + b: result, ended bios, chain, length, segments, failfast bits |
| `RequestCompletion.SectorTwice` | sources/linux-2.6.32/linux-2.6.32/block/blk-core.c:2059-2061 | the sector composes if and only if a % 512 + b % 512 < 512 |
| `RequestCompletion.SectorLost` | sources/linux-2.6.32/linux-2.6.32/block/blk-core.c:2059-2061 | a request of two sectors completed by 256 bytes twice still names its first sector, which is done |
| `RequestCompletion.UpdateKept` | sources/linux-2.6.32/linux-2.6.32/block/blk-core.c:2047-2081 | what is left is a request as good as any: bits follow the first bio, segments are counted again |
| `RequestCompletion.NotBotched` | sources/linux-2.6.32/linux-2.6.32/block/blk-core.c:2069-2076 | the "request botched" correction never happens |
| `RequestCompletion.ErrBytesWhole` | sources/linux-2.6.32/linux-2.6.32/block/blk-core.c:1682-1707 | blk_rq_err_bytes is positive and the bytes of whole bios |
| `RequestCompletion.ErrBytesCover` | sources/linux-2.6.32/linux-2.6.32/block/blk-core.c:1682-1707 | it covers only bios that want every failfast bit of the first, and on a mixed request stops only at one that lacks a bit |
| `RequestCompletion.FailAllEnds` | sources/linux-2.6.32/linux-2.6.32/block/blk-core.c:1682-1707 | failing that many bytes over and over ends, with every bio ended once, in order, with the error |
| `RequestObjects.CompleteLoop` | sources/linux-2.6.32/linux-2.6.32/block/blk-core.c:1989-2036 | the loop over bios and bio_vecs computes that completion |
| `RequestObjects.RequestObject.UpdateBytes` | sources/linux-2.6.32/linux-2.6.32/block/blk-core.c:1952-2082 | the method updates the request as the function says |
| `RequestObjects.RequestObject.TryMergeBio` | sources/linux-2.6.32/linux-2.6.32/block/blk-merge.c:225-272 | checks the limits, counts what is uncounted, raises the counter |
| `RequestObjects.RequestObject.TryMergeNext` | sources/linux-2.6.32/linux-2.6.32/block/blk-merge.c:274-312 | checks the limits of a request merge, raising sizes first |
| `RequestObjects.RequestObject.TakeIn` | sources/linux-2.6.32/linux-2.6.32/block/blk-merge.c:363-434 | attempt_merge on two request objects |
| `RequestObjects.RequestObject.SetMixedMerge` | sources/linux-2.6.32/linux-2.6.32/block/blk-merge.c:323-342 | spreads the request's bits to its bios |
| `RequestObjects.RequestObject.MergeBio` | sources/linux-2.6.32/linux-2.6.32/block/blk-core.c:1181-1236 | a bio is merged behind or in front, or given back counted; either way the request keeps counter, sizes, length and bits right, and a chain stays gap-free |
| `RequestObjects.RequestObject.ErrBytesOf` | sources/linux-2.6.32/linux-2.6.32/block/blk-core.c:1682-1707 | the loop computes the bytes, and its BUG_ON cannot fire |
| `MergeHash.FindIs` | sources/linux-2.6.32/linux-2.6.32/block/elevator.c:334-354 | the hash lookup finds a request if and only if the elevator has a mergeable one ending at the offset, and changes nothing that matters |
| `MergeHash.RunKept` | sources/linux-2.6.32/linux-2.6.32/block/elevator.c:309-332 | after any run each hashed request is in the bucket of its current end, once, and every mergeable request the elevator has is hashed |
| `MergeHash.RepositionKept` | sources/linux-2.6.32/linux-2.6.32/block/elevator.c:511-537 | a request that has grown moves to the bucket of its new end |
| `MergeHash.FrontMergedKept` | sources/linux-2.6.32/linux-2.6.32/block/elevator.c:511-522 | a front merge needs no repositioning |
| `MergeHash.ElevatorHash.HashFind` | sources/linux-2.6.32/linux-2.6.32/block/elevator.c:334-354 | the loop finds what the function says |
| `MergeHash.ElevatorHash.InsertSorted` | sources/linux-2.6.32/linux-2.6.32/block/elevator.c:632-640 | a mergeable request is hashed when the elevator gets it, and the invariant holds after it |
| `MergeHash.ElevatorHash.MergedRequest` | sources/linux-2.6.32/linux-2.6.32/block/elevator.c:511-522 | a back merge rehashes the request, a front merge leaves it where it is, and the invariant holds after both |
| `Resubmit.QueuedIsLevels` | sources/linux-2.6.32/linux-2.6.32/block/blk-core.c:1501-1539 | handling the head and adding its children at the tail is breadth-first order |
| `Resubmit.QueuedTimes` | sources/linux-2.6.32/linux-2.6.32/block/blk-core.c:1501-1539 | every bio of the tree is handled exactly as often as it occurs |
| `Resubmit.Task.GenericMakeRequest` | sources/linux-2.6.32/linux-2.6.32/block/blk-core.c:1501-1539 | for a finite tree of bios: breadth-first, never nesting an active make_request, the list left empty and inactive |
| `Resubmit.Task.Append` | sources/linux-2.6.32/linux-2.6.32/block/blk-core.c:1503-1509 | the tail pointer surgery appends to the list threaded through the bios |
| `Deadline.ReadsBounded` | sources/linux-2.6.32/linux-2.6.32/block/deadline-iosched.c:245-327 | while a write is queued, an unbroken run of read dispatches is at most writes_starved * max(1, fifo_batch) + fifo_batch long, whatever is added or merged |
| `Deadline.PatienceFalls` | sources/linux-2.6.32/linux-2.6.32/block/deadline-iosched.c:245-327 | each read taken over a waiting write uses up a potential that nothing but writes restores |
| `Deadline.RunKept` | sources/linux-2.6.32/linux-2.6.32/block/deadline-iosched.c:76-124 | over every run with monotone time: sort list and fifo hold the same requests, sectors are distinct, the fifo is by expiry, at most one next_rq is set and it is queued |
| `Deadline.AddKept` | sources/linux-2.6.32/linux-2.6.32/block/deadline-iosched.c:76-113 | an added request, aliases dispatched first, keeps that |
| `Deadline.FrontMergedKept` | sources/linux-2.6.32/linux-2.6.32/block/deadline-iosched.c:156-168 | repositioning after a front merge keeps that |
| `Deadline.MergedRequestsKept` | sources/linux-2.6.32/linux-2.6.32/block/deadline-iosched.c:170-189 | merging two requests, with the earlier expiry taken over, keeps that |
| `Deadline.DispatchKept` | sources/linux-2.6.32/linux-2.6.32/block/deadline-iosched.c:206-327 | so does a dispatch |
| `Deadline.DecisionQueued` | sources/linux-2.6.32/linux-2.6.32/block/deadline-iosched.c:245-327 | the request chosen is queued, and none is chosen only if nothing is queued; the BUG_ONs on empty trees cannot fire |
| `Deadline.DecisionMeans` | sources/linux-2.6.32/linux-2.6.32/block/deadline-iosched.c:245-327 | the batch goes on while it may; else writes go if there are no reads or they were passed over often enough, and the earliest to expire is taken if it is overdue or nothing is next |
| `Deadline.MoveNext` | sources/linux-2.6.32/linux-2.6.32/block/deadline-iosched.c:206-222 | after a dispatch the next request is the one with the lowest sector above, and none is next in the other direction |
| `Deadline.StepHeld` | sources/linux-2.6.32/linux-2.6.32/block/deadline-iosched.c:76-222 | no request is lost, doubled or exchanged: for every id, the times it is queued or dispatched change by what is added and what is merged away, and what has been dispatched stays so in order |
| `Deadline.RunHeld` | sources/linux-2.6.32/linux-2.6.32/block/deadline-iosched.c:76-327 | the same over every run |
| `Deadline.HeadFirst` | sources/linux-2.6.32/linux-2.6.32/block/deadline-iosched.c:228-239 | the head of a fifo is the earliest to expire |
| `Deadline.DeadlineData.DispatchRequests` | sources/linux-2.6.32/linux-2.6.32/block/deadline-iosched.c:245-327 | the branches of the method dispatch as decided, and the invariant holds after it |
| `Deadline.DeadlineData.AddRqRb` | sources/linux-2.6.32/linux-2.6.32/block/deadline-iosched.c:76-84 | the alias loop runs at most once |
| `Deadline.DeadlineData.MergedRequest` | sources/linux-2.6.32/linux-2.6.32/block/deadline-iosched.c:156-168 | the request is repositioned under its new sector, aliases dispatched first, and the invariant holds after it |
| `Deadline.DeadlineData.MergeNext` | sources/linux-2.6.32/linux-2.6.32/block/deadline-iosched.c:170-189 | the second request is taken out, the first has the earlier expiry and its place in the fifo, and the invariant holds after it |
| `Deadline.DeadlineData.AddRequest` | sources/linux-2.6.32/linux-2.6.32/block/deadline-iosched.c:100-113 | the request is in sort list and fifo, and the invariant holds after it |
| `Anticipatory.PreferenceTotal` | sources/linux-2.6.32/linux-2.6.32/block/as-iosched.c:293-361 | the comparator decides between any two sectors, independently of their order |
| `Anticipatory.PreferenceTransitive` | sources/linux-2.6.32/linux-2.6.32/block/as-iosched.c:293-361 | and is transitive |
| `Anticipatory.PreferenceMeans` | sources/linux-2.6.32/linux-2.6.32/block/as-iosched.c:293-361 | ahead of the head the nearer is preferred; one behind, within the seek limit, beats one ahead only if that is more than twice as far; far behind, the lowest |
| `Anticipatory.ProbeBest` | sources/linux-2.6.32/linux-2.6.32/block/as-iosched.c:369-391 | if the head stands at a request, or everything wraps and it is the first, its two neighbours include the request preferred over all others |
| `Anticipatory.DispatchBest` | sources/linux-2.6.32/linux-2.6.32/block/as-iosched.c:973-1003 | dispatching a request that overlaps no other leaves the globally best one as next_rq |
| `Anticipatory.DispatchBestExactlyWhen` | sources/linux-2.6.32/linux-2.6.32/block/as-iosched.c:973-1003 | for requests of any length and overlap, it does so if and only if no request starts inside, or the first that does is within the backward seek limit and the one after it more than twice as far ahead as that one is behind, or it is beyond the limit and so is everything, with at most one request below |
| `Anticipatory.OverlapMisses` | sources/linux-2.6.32/linux-2.6.32/block/as-iosched.c:369-391 | three requests, the dispatched one overlapping the next, for which the probe sets a next_rq to which another is preferred |
| `Anticipatory.FarOverlapMisses` | sources/linux-2.6.32/linux-2.6.32/block/as-iosched.c:369-391 | four requests, the dispatched one so long that all others are too far behind its end, for which the probe sets the lower neighbour although the lowest is preferred |
| `Anticipatory.RunKept` | sources/linux-2.6.32/linux-2.6.32/block/as-iosched.c:785-794 | over all runs of additions, removals and dispatches that meet that condition next_rq is preferred over every other queued request |
| `Anticipatory.RemoveKept` | sources/linux-2.6.32/linux-2.6.32/block/as-iosched.c:898-922 | removing the best request and probing its neighbours finds the new best |
| `Anticipatory.AsQueue.MoveToDispatch` | sources/linux-2.6.32/linux-2.6.32/block/as-iosched.c:973-1017 | sets the head first, then probes, then removes; next_rq stays the best unless the dispatched request overlaps others badly |
| `Anticipatory.AsQueue.AddRequest` | sources/linux-2.6.32/linux-2.6.32/block/as-iosched.c:1186-1212 | an alias is dispatched, the request inserted and compared with next_rq, which stays the best |
| `Cfq.RunKept` | sources/linux-2.6.32/linux-2.6.32/block/cfq-iosched.c:654-741 | over all runs: a queue has a next_rq, is on_rr and on the service tree exactly when it has requests; busy_queues counts those; the cached leftmost node, when set, is the leftmost |
| `Cfq.DescentPlace` | sources/linux-2.6.32/linux-2.6.32/block/cfq-iosched.c:535-572 | a descent that never goes right, and only that, links the new node leftmost, even on a tree whose keys have changed since |
| `Cfq.DescentSorted` | sources/linux-2.6.32/linux-2.6.32/block/cfq-iosched.c:541-560 | on a tree in service order the new queue goes between those it does not precede and those it precedes |
| `Cfq.TreeAddSorted` | sources/linux-2.6.32/linux-2.6.32/block/cfq-iosched.c:492-573 | with the queue put where the descent ends the tree is in service order, so its leftmost queue is the one to serve first |
| `Cfq.PreferenceMeans` | sources/linux-2.6.32/linux-2.6.32/block/cfq-iosched.c:334-421 | sync before async, then metadata, then by distance, a short seek back costing back_penalty times its length; the choice does not depend on the order of the arguments |
| `Cfq.TreeAddKept` | sources/linux-2.6.32/linux-2.6.32/block/cfq-iosched.c:492-573 | sorting a queue in keeps tree, flags, count and cache in step |
| `Cfq.EraseLeft` | sources/linux-2.6.32/linux-2.6.32/block/cfq-iosched.c:443-448 | erasing keeps the cache right |
| `Cfq.FindNextIs` | sources/linux-2.6.32/linux-2.6.32/block/cfq-iosched.c:454-475 | the neighbour found is another request of the queue, and there is one exactly if the queue has another |
| `Cfq.AddRbKept` | sources/linux-2.6.32/linux-2.6.32/block/cfq-iosched.c:703-734 | adding a request, its alias dispatched first, keeps the invariant |
| `Cfq.RepositionKept` | sources/linux-2.6.32/linux-2.6.32/block/cfq-iosched.c:736-741 | repositioning after a front merge keeps the invariant |
| `Cfq.DispatchKept` | sources/linux-2.6.32/linux-2.6.32/block/cfq-iosched.c:1128-1142 | so does dispatching any request of a queue |
| `Cfq.RemoveKept` | sources/linux-2.6.32/linux-2.6.32/block/cfq-iosched.c:786-801 | and removing one |
| `Cfq.DrainEmpties` | sources/linux-2.6.32/linux-2.6.32/block/cfq-iosched.c:1248-1262 | the forced drain ends with every list and the tree empty and busy_queues zero; its BUG_ONs cannot fire |
| `Cfq.DrainAll` | sources/linux-2.6.32/linux-2.6.32/block/cfq-iosched.c:1231-1262 | and has dispatched every queued request, each once |
| `Cfq.CfqData.ForcedDispatch` | sources/linux-2.6.32/linux-2.6.32/block/cfq-iosched.c:1248-1262 | the nested loops terminate and do that |
| `Cfq.CfqData.ServiceTreeAdd` | sources/linux-2.6.32/linux-2.6.32/block/cfq-iosched.c:492-573 | the loop down the tree ends where the function says |
| `Cfq.CfqData.AddRqRb` | sources/linux-2.6.32/linux-2.6.32/block/cfq-iosched.c:703-734 | the alias loop runs at most once |
| `Cfq.CfqData.RbFirst` | sources/linux-2.6.32/linux-2.6.32/block/cfq-iosched.c:426-435 | caches and returns the leftmost queue |
| `Tags.RunKept` | sources/linux-2.6.32/linux-2.6.32/block/blk-tag.c:219-383 | over all runs of start, end, shrink, grow and invalidate, a request in flight is found under its own tag and under no other |
| `Tags.GrowExactlyWhen` | sources/linux-2.6.32/linux-2.6.32/block/blk-tag.c:106-137 | growing copies inside the new tables and keeps every tag in flight if and only if twice nr_requests is no less than the old depth; otherwise the entry right behind the new index is written |
| `Tags.CopyIs` | sources/linux-2.6.32/linux-2.6.32/block/blk-tag.c:257-259 | a copy stays inside exactly if the new table is no shorter; else the first write outside is the one right behind it |
| `Tags.GrowOverruns` | sources/linux-2.6.32/linux-2.6.32/block/blk-tag.c:106-137 | 64 tags grown to 65 on a queue for 16 requests: the new index has 32 entries and the 33rd is written |
| `Tags.ResizeKept` | sources/linux-2.6.32/linux-2.6.32/block/blk-tag.c:219-264 | resizing keeps bits, slots and tags in one-to-one correspondence |
| `Tags.StartIs` | sources/linux-2.6.32/linux-2.6.32/block/blk-tag.c:336-383 | the lowest free tag below the limit is taken; it fails if and only if none is free or too many async requests are in flight |
| `Tags.AsyncReserve` | sources/linux-2.6.32/linux-2.6.32/block/blk-tag.c:349-363 | async requests never get the last two tags of a deeper map |
| `Tags.StartKept` | sources/linux-2.6.32/linux-2.6.32/block/blk-tag.c:364-383 | starting keeps the correspondence |
| `Tags.EndKept` | sources/linux-2.6.32/linux-2.6.32/block/blk-tag.c:281-315 | ending keeps the correspondence |
| `Tags.FindIs` | sources/linux-2.6.32/linux-2.6.32/block/blk-tag.c:22-25 | looking a tag up is the inverse of rq->tag |
| `Tags.InvalidateFrees` | sources/linux-2.6.32/linux-2.6.32/block/blk-tag.c:398-404 | invalidation frees every tag |
| `Tags.TagMap.StartTag` | sources/linux-2.6.32/linux-2.6.32/block/blk-tag.c:336-383 | the method starts as the function says |
| `Tags.TagMap.EndTag` | sources/linux-2.6.32/linux-2.6.32/block/blk-tag.c:281-315 | the method ends as the function says |
| `Tags.TagMap.FindTag` | sources/linux-2.6.32/linux-2.6.32/block/blk-tag.c:22-25 | a request is found under a tag if and only if it is in flight under it |
| `Tags.TagMap.ResizeTags` | sources/linux-2.6.32/linux-2.6.32/block/blk-tag.c:219-264 | the method resizes as the function says, copying element by element into new tables, and reports the place it would write outside them |
| `Tags.TagMap.InvalidateTags` | sources/linux-2.6.32/linux-2.6.32/block/blk-tag.c:398-404 | the loop over the busy list ends all of it in list order |
| `Spawns.Collect` | sources/linux-2.6.32/linux-2.6.32/crypto/algapi.c:131-170 | for every spawn graph the search ends; it hits its BUG_ON if and only if the algorithm is built on itself; else the spawns collected are exactly the dependent ones, each once |
| `Spawns.RunGrounded` | sources/linux-2.6.32/linux-2.6.32/crypto/algapi.c:131-170 | over every run of allocating, registering, spawning and removing, lists and owners stay linked and no algorithm is built on itself, so that BUG_ON cannot fire |
| `Spawns.StepKept` | sources/linux-2.6.32/linux-2.6.32/crypto/algapi.c:180-237 | each event keeps the instances ranked above the algorithms they are built on |
| `Spawns.FinishedFound` | sources/linux-2.6.32/linux-2.6.32/crypto/algapi.c:147-170 | when all lists have run empty every dependent spawn has been moved |
| `Spawns.PushKept` | sources/linux-2.6.32/linux-2.6.32/crypto/algapi.c:150-166 | moving a spawn down to the stack keeps the search invariant |
| `Spawns.ShiftKept` | sources/linux-2.6.32/linux-2.6.32/crypto/algapi.c:84-105 | so does taking the next off the stack |
| `Spawns.StillLinked` | sources/linux-2.6.32/linux-2.6.32/crypto/algapi.c:131-178 | the lists left are as well linked as before |
| `Spawns.AllTaken` | sources/linux-2.6.32/linux-2.6.32/crypto/algapi.c:107-129 | of the instances collected exactly those newly dead, still hashed and with a template to hold are listed, once each |
| `Spawns.Registry.RemoveSpawns` | sources/linux-2.6.32/linux-2.6.32/crypto/algapi.c:131-178 | exactly the instances built on the algorithm are marked dead; listed once each and only with their user lists empty; no other list changes |
| `Spawns.Registry.RemoveAlg` | sources/linux-2.6.32/linux-2.6.32/crypto/algapi.c:373-385 | the same for the removal of a registered algorithm, which is unregistered and dead besides; -ENOENT otherwise, with nothing changed |
| `Spawns.Registry.RemoveSpawn` | sources/linux-2.6.32/linux-2.6.32/crypto/algapi.c:107-129 | marks, unhashes and lists one instance |
| `Spawns.Registry.AddSpawn` | sources/linux-2.6.32/linux-2.6.32/crypto/algapi.c:520-537 | links the spawn unless the algorithm is dead, as the event of that run says, and keeps lists and owners linked |
| `Cbc.EncChains` | sources/linux-2.6.32/linux-2.6.32/crypto/cbc.c:42-88 | the chaining function satisfies the encryption equations of section 6.2 of NIST SP 800-38A, block by block |
| `Cbc.DecUnchains` | sources/linux-2.6.32/linux-2.6.32/crypto/cbc.c:114-167 | and the decryption equations |
| `Cbc.DecEnc` | sources/linux-2.6.32/linux-2.6.32/crypto/cbc.c:42-167 | decryption undoes encryption and leaves the same iv |
| `Cbc.EncChunks` | sources/linux-2.6.32/linux-2.6.32/crypto/cbc.c:90-112 | encrypting in chunks of whole blocks with the iv carried over is encrypting the whole |
| `Cbc.DecChunks` | sources/linux-2.6.32/linux-2.6.32/crypto/cbc.c:169-191 | likewise for decryption |
| `Cbc.EncryptSegment` | sources/linux-2.6.32/linux-2.6.32/crypto/cbc.c:42-64 | the loop writes that ciphertext and iv, and nothing else |
| `Cbc.EncryptInPlace` | sources/linux-2.6.32/linux-2.6.32/crypto/cbc.c:66-88 | likewise in place |
| `Cbc.DecryptSegment` | sources/linux-2.6.32/linux-2.6.32/crypto/cbc.c:114-138 | the loop writes the plaintext and the iv |
| `Cbc.DecryptInPlace` | sources/linux-2.6.32/linux-2.6.32/crypto/cbc.c:140-167 | likewise in place, running backwards from the last whole block |

## Left out

- Barriers: merging into requests that wait in the elevator, discards that carry data, and plugging; the dispatch boundary is a parameter of DispatchSort; the two in_flight counters are one sum.
- BarrierHistory.SequenceEnds: counts completions of fs requests and barrier commands; requests that are not fs may be served in between without bound, as in the code.
- Segments: pad and drain entries of blk_rq_map_sg, bounce buffers and integrity data; the segment boundary mask is any numbering of windows.
- Requests: bios without data (discards, empty barriers), bidirectional and cloned requests, statistics, priorities, CPU affinity; sectors and lengths are unbounded, so the 16-bit nr_phys_segments does not wrap.
- RequestRuns.RunChains: asks for completions in whole sectors, because a bio's sector is only kept right for those (see RequestCompletion.SectorTwice).
- RequestCompletion.UpdateTwice: leaves out the first sector, which SectorTwice is about, and the cached segment sizes, which a recount may raise.
- MergeHash: the one-request cache last_merge in front of the hash.
- Resubmit: a make_request_fn is the list of bios it submits; it does not fail or sleep.
- Deadline, Anticipatory, Cfq: red-black balancing (any tree or sequence with the right order), jiffies wrap-around, batch and anticipation timing, last_sector of deadline, which nothing reads.
- Anticipatory: front-merge repositioning, after which the code itself says next_rq may not be optimal, and forced dispatch.
- Cfq: slices, idling, priority trees, cooperators, sync and meta counters; the tree key is a parameter.
- Tags: maps shared between queues, except that growing one is refused; allocation failure.
- Spawns.RunGrounded: takes for granted that an instance gets its spawns while nothing uses it, which is so because it is registered afterwards; names are compared by a parameter, and crypto_drop_spawn is not an event.
- Spawns: the replacement mode of crypto_remove_spawns, notifications, reference counts; whether a template can be held is a parameter that stays the same during a removal.
- Camellia: the key schedule before camellia_setup_tail and the table constants; subkeys and tables are arbitrary.
- Cbc: scatterlist walking; each loop gets one contiguous chunk of at least a block. The start of the last block is taken modulo the block size; the code masks with bsize - 1, which is the same for the powers of two crypto_cbc_alloc insists on (crypto/cbc.c:230).
